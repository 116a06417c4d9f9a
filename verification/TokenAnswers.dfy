/** What an issued token carries and what any token is answered, claim by claim. */
module TokenAnswers {
  import opened Primitives
  import opened ContractTypes
  import opened DigestFraming
  import opened JsonText
  import opened OperationGrants
  import opened AccessTokens
  import opened ReplayStores
  import opened Verification

  // ----- directions -----

  /** The purposes a direction may be configured with: some, each once, of the seven. */
  predicate PurposesFit(purposes: seq<GrantPurpose>)
  {
    && 1 <= |purposes| && (forall i, j | 0 <= i < j < |purposes| :: purposes[i] != purposes[j])
    && forall i | 0 <= i < |purposes| ::
         purposes[i] in {ManifestClosurePlan, CandidateValidateRetain, ArtifactPublish, ArtifactDisclosureVerify,
                         ContestLaunch, ContestStarted, ContestResultSubmit}
  }

  /** An issuing direction names issuer, subject and audience and holds a key; a verifying one names issuer and
      audience, holds some key and allows at most thirty seconds. */
  lemma DirectionExactly(d: Direction)
    ensures ValidForIssue(d)
       <==> d.issuer != "" && d.subject != "" && d.audience != "" && d.key.Some? && PurposesFit(d.purposes)
    ensures ValidForVerify(d)
       <==> && d.issuer != "" && d.audience != "" && (d.key.Some? || 1 <= |d.trusted|)
            && 0 <= d.leeway <= 30_000_000_000 && PurposesFit(d.purposes)
  {
    forall i | 0 <= i < |d.purposes|
      ensures KnownPurpose(d.purposes[i])
         <==> d.purposes[i] in {ManifestClosurePlan, CandidateValidateRetain, ArtifactPublish,
                                ArtifactDisclosureVerify, ContestLaunch, ContestStarted, ContestResultSubmit}
    {
    }
  }

  /** The route a receiver expects: the direction's names, the purpose's scope and the digest of what arrived. */
  lemma RouteExactly(lib: Library, d: Direction, purpose: GrantPurpose, providerID: string, adapterID: string,
                     contentType: string, rawBody: string, method_: string, resource: string)
    requires PurposesFit(d.purposes)
    ensures RouteBinding(lib, d, purpose, providerID, adapterID, contentType, rawBody, method_, resource)
         == if purpose !in d.purposes then None
            else Some(OperationRouteBinding(
              issuer := d.issuer, subject := d.subject, audience := d.audience, tokenType := "at+jwt",
              scope := GrantScopeForPurpose(purpose), purpose := purpose, providerID := providerID,
              adapterID := adapterID, transportContentType := contentType,
              rawTransportDigest :=
                DigestText(lib.sha256(Frames(["competios.raw-transport-body.v1", contentType, rawBody]))),
              method_ := method_, resource := resource))
  {
    hide GrantScopeForPurpose, Frames;
    EmptyScopeExactly(purpose);
    assert [RAW_TRANSPORT_DOMAIN] + [contentType, rawBody] == ["competios.raw-transport-body.v1", contentType, rawBody];
  }

  // ----- issuing -----

  /** The claims of a token issued in this second: the direction's names and the request, reread text by text. */
  function CarriedClaims(d: Direction, r: OperationGrantRequest, tokenID: string, second: Time): Claims
  {
    Claims(
      issuer := Reread(d.issuer), subject := Reread(d.subject), audience := [Reread(d.audience)],
      id := Reread(tokenID), issuedAt := Some(second), notBefore := Some(second),
      expiresAt := Some(second + 300_000_000_000), scope := GrantScopeForPurpose(r.purpose), purpose := r.purpose,
      providerID := Reread(r.providerID), adapterID := Reread(r.adapterID), competitionID := Reread(r.competitionID),
      contestID := Reread(r.contestID), requestID := Reread(r.requestID),
      providerInstanceID := Reread(r.providerInstanceID), commandID := Reread(r.commandID),
      typedPayloadDigest := r.typedPayloadDigest, transportContentType := Reread(r.transportContentType),
      rawTransportDigest := r.rawTransportDigest, method_ := Reread(r.method_), resource := Reread(r.resource),
      participantID := Reread(r.participantID), participantVersionID := Reread(r.participantVersionID),
      repositoryNodeID := Reread(r.repositoryNodeID), commitOID := r.commitOID,
      manifestPath := Reread(r.manifestPath), manifestEntryKind := r.manifestEntryKind,
      rawManifestBytesDigest := r.rawManifestBytesDigest, manifestByteLimit := r.manifestByteLimit,
      closurePlanID := Reread(r.closurePlanID), closurePlanDigest := r.closurePlanDigest,
      candidateTransferredBytesDigest := r.candidateTransferredBytesDigest,
      publicCandidateTransferredBytesDigest := r.publicCandidateTransferredBytesDigest,
      aggregateByteLimit := r.aggregateByteLimit, retentionReceiptID := Reread(r.retentionReceiptID),
      artifactDigest := r.artifactDigest, disclosureReceiptID := Reread(r.disclosureReceiptID),
      disclosureRequestDigest := r.disclosureRequestDigest)
  }

  lemma ConstrainedFields(r: OperationGrantRequest)
    requires OperationFactsValid(r) && PurposeFieldsValid(r)
    ensures RereadRequest(r).(purpose := r.purpose) == r.(
              providerID := Reread(r.providerID), adapterID := Reread(r.adapterID),
              competitionID := Reread(r.competitionID), contestID := Reread(r.contestID),
              requestID := Reread(r.requestID), providerInstanceID := Reread(r.providerInstanceID),
              commandID := Reread(r.commandID), transportContentType := Reread(r.transportContentType),
              method_ := Reread(r.method_), resource := Reread(r.resource), participantID := Reread(r.participantID),
              participantVersionID := Reread(r.participantVersionID), repositoryNodeID := Reread(r.repositoryNodeID),
              manifestPath := Reread(r.manifestPath), closurePlanID := Reread(r.closurePlanID),
              retentionReceiptID := Reread(r.retentionReceiptID),
              disclosureReceiptID := Reread(r.disclosureReceiptID))
  {
    hide Reread, ValidSHA256Digest, ValidSourceObjectID;
    ConstrainedTextsSurvive();
  }

  lemma RequestFieldsValid(r: OperationGrantRequest)
    requires ValidOperationGrantRequest(r)
    ensures OperationFactsValid(r) && PurposeFieldsValid(r)
  {
    hide OperationFactsValid, PurposeFieldsValid;
    AssembledGrantValidity("issuer", "subject", "audience", "key", "token", CHECK_TIME, 60 * SECOND, r);
  }

  /** An issued token is an access token under the direction's key; it expires five minutes, in nanoseconds, after its
      issue and carries the direction's names and every field of the request. A refusal names the purpose first. */
  lemma IssuedExactly(d: Direction, r: OperationGrantRequest, tokenID: string, now: Time)
    requires ValidForIssue(d)
    ensures match IssueOperationGrant(d, r, tokenID, now)
            case Ok(issued) =>
              && issued.expiresAt == now + 300_000_000_000 && r.purpose in d.purposes
              && issued.token == Sealed("at+jwt", Reread(d.key.value.keyID), d.key.value.algorithm, d.key.value.secret,
                                        CarriedClaims(d, r, tokenID, now - now % 1_000_000_000))
            case Err(error) => error == if r.purpose in d.purposes then IssueInvalidGrant else IssuePurposeNotPermitted
  {
    hide Reread, OperationFactsValid, PurposeFieldsValid, ValidPurposes, ValidOperationGrantRequest,
         GrantScopeForPurpose, ValidOperationGrant;
    if IssueOperationGrant(d, r, tokenID, now).Ok? {
      RequestFieldsValid(r);
      ConstrainedFields(r);
      ScopesSurvive(r.purpose);
      assert Truncate(now + TOKEN_LIFETIME) == Truncate(now) + TOKEN_LIFETIME;
      assert RereadPurpose(r.purpose) == r.purpose by {
        KnownPurposeStays(r);
      }
    }
  }

  // ----- verifying -----

  /** The one key the lookup gives for a header's key ID: the first trusted one that has it. */
  predicate KeyFor(d: Direction, kid: string, key: Key)
  {
    var keys := TrustedKeys(d);
    kid != "" && exists i | 0 <= i < |keys| :: FirstAt(keys, kid, i) && keys[i] == Some(key)
  }

  lemma KeyForExactly(d: Direction, kid: string, key: Key)
    ensures KeyFor(d, kid, key) <==> KeyByID(d, kid) == Some(key)
    ensures TrustedKeys(d) == (if d.key.Some? then [d.key] else []) + d.trusted
  {
    hide FirstKey;
    FirstKeyExactly(TrustedKeys(d), kid);
  }

  function TimeOf(date: Option<Time>): Time { if date.Some? then date.value else 0 }

  /** The grant a token's claims stand for. */
  function ClaimedGrant(c: Claims, audience: string, keyID: string): OperationGrant
  {
    OperationGrant(
      issuer := c.issuer, subject := c.subject, audience := audience, tokenType := "at+jwt", scope := c.scope,
      purpose := c.purpose, keyID := keyID, tokenID := c.id, issuedAt := TimeOf(c.issuedAt),
      notBefore := TimeOf(c.notBefore), expiresAt := TimeOf(c.expiresAt), providerID := c.providerID,
      adapterID := c.adapterID, competitionID := c.competitionID, contestID := c.contestID,
      requestID := c.requestID, providerInstanceID := c.providerInstanceID, commandID := c.commandID,
      typedPayloadDigest := c.typedPayloadDigest, transportContentType := c.transportContentType,
      rawTransportDigest := c.rawTransportDigest, method_ := c.method_, resource := c.resource,
      participantID := c.participantID, participantVersionID := c.participantVersionID,
      repositoryNodeID := c.repositoryNodeID, commitOID := c.commitOID, manifestPath := c.manifestPath,
      manifestEntryKind := c.manifestEntryKind, rawManifestBytesDigest := c.rawManifestBytesDigest,
      manifestByteLimit := c.manifestByteLimit, closurePlanID := c.closurePlanID,
      closurePlanDigest := c.closurePlanDigest,
      candidateTransferredBytesDigest := c.candidateTransferredBytesDigest,
      publicCandidateTransferredBytesDigest := c.publicCandidateTransferredBytesDigest,
      aggregateByteLimit := c.aggregateByteLimit, retentionReceiptID := c.retentionReceiptID,
      artifactDigest := c.artifactDigest, disclosureReceiptID := c.disclosureReceiptID,
      disclosureRequestDigest := c.disclosureRequestDigest)
  }

  /** The checks on the claims of a token whose seal was checked with a key of this ID. */
  predicate ClaimsPass(d: Direction, c: Claims, keyID: string, now: Time)
  {
    && c.expiresAt.Some? && now < c.expiresAt.value + d.leeway
    && (c.notBefore.Some? ==> c.notBefore.value - d.leeway <= now)
    && c.issuer == d.issuer && c.audience == [d.audience] && c.purpose in d.purposes
    && ValidOperationGrant(ClaimedGrant(c, d.audience, keyID))
  }

  lemma ClaimsExactly(d: Direction, c: Claims, keyID: string, now: Time)
    requires ValidForVerify(d)
    ensures CheckClaims(d, c, keyID, now).Ok? <==> ClaimsPass(d, c, keyID, now)
    ensures ClaimsPass(d, c, keyID, now) ==>
              CheckClaims(d, c, keyID, now) == Ok(ClaimedGrant(c, d.audience, keyID))
  {
    hide ValidOperationGrant, ValidPurposes;
    if |c.audience| == 1 && d.audience in c.audience {
      assert c.audience == [d.audience];
    }
  }

  lemma TokenExactly(d: Direction, token: Token, now: Time)
    requires ValidForVerify(d)
    ensures var checked := CheckToken(d, token, now);
            && (checked.Ok?
                <==> && token.Sealed? && token.typ == "at+jwt"
                     && KeyFor(d, token.kid, Key(token.kid, token.algorithm, token.sealedWith))
                     && ClaimsPass(d, token.claims, token.kid, now))
            && (checked.Ok? ==> checked == Ok(ClaimedGrant(token.claims, d.audience, token.kid)))
  {
    hide ClaimsPass, CheckClaims, FirstKey, KeyFor, ValidForVerify;
    if token.Sealed? {
      KeyForExactly(d, token.kid, Key(token.kid, token.algorithm, token.sealedWith));
      ClaimsExactly(d, token.claims, token.kid, now);
      if KeyByID(d, token.kid).Some? {
        FirstKeyIsTrusted(TrustedKeys(d), token.kid);
      }
    }
  }

  /** A token is verified exactly when its type is that of access tokens, it is sealed with the first trusted key of
      its key ID, its claims pass, and its ID is not held. The grant is its claims under that key's ID. */
  lemma VerdictExactly(d: Direction, kind: StoreKind, seen: Entries, token: Token, now: Time, storeNow: Time)
    requires ValidForVerify(d)
    ensures var verdict := Verify(d, kind, seen, token, now, storeNow).1;
            && (verdict.Ok?
                <==> && token.Sealed? && token.typ == "at+jwt"
                     && KeyFor(d, token.kid, Key(token.kid, token.algorithm, token.sealedWith))
                     && ClaimsPass(d, token.claims, token.kid, now)
                     && token.claims.id !in Consulted(kind, seen, storeNow))
            && (verdict.Ok? ==> verdict.value == ClaimedGrant(token.claims, d.audience, token.kid))
  {
    hide ClaimsPass, CheckToken, KeyFor, ValidForVerify, Sweep;
    TokenExactly(d, token, now);
    if CheckToken(d, token, now).Ok? {
      CheckedGrantIsValid(d, token, now);
    }
  }

  /** The claim checks, each with its reason, in order. */
  function ClaimsReason(d: Direction, c: Claims, keyID: string, now: Time): Verdict
  {
    if (c.expiresAt.Some? && c.expiresAt.value + d.leeway <= now)
       || (c.notBefore.Some? && now < c.notBefore.value - d.leeway) then Err(OutsideTimeWindow)
    else if c.expiresAt == None || c.issuer != d.issuer || d.audience !in c.audience then Err(InvalidToken)
    else if c.audience != [d.audience] then Err(MalformedClaims)
    else if !ValidOperationGrant(ClaimedGrant(c, d.audience, keyID)) then Err(InvalidGrant)
    else if c.purpose !in d.purposes then Err(PurposeNotPermitted)
    else Ok(ClaimedGrant(c, d.audience, keyID))
  }

  lemma ClaimsReasonExactly(d: Direction, c: Claims, keyID: string, now: Time)
    requires ValidForVerify(d)
    ensures CheckClaims(d, c, keyID, now) == ClaimsReason(d, c, keyID, now)
  {
    hide ValidOperationGrant, ValidPurposes;
    if |c.audience| == 1 && d.audience in c.audience {
      assert c.audience == [d.audience];
    }
  }

  lemma TokenReason(d: Direction, token: Token, now: Time)
    requires ValidForVerify(d) && token.Sealed?
    ensures CheckToken(d, token, now)
         == if token.typ != "at+jwt" then Err(WrongTokenType)
            else if !exists secret :: KeyFor(d, token.kid, Key(token.kid, token.algorithm, secret)) then Err(UnknownKey)
            else if !KeyFor(d, token.kid, Key(token.kid, token.algorithm, token.sealedWith)) then Err(InvalidToken)
            else ClaimsReason(d, token.claims, token.kid, now)
    ensures ClaimsReason(d, token.claims, token.kid, now).Ok? ==>
              ClaimsReason(d, token.claims, token.kid, now)
              == Ok(ClaimedGrant(token.claims, d.audience, token.kid))
  {
    hide CheckClaims, FirstKey, KeyFor, ValidForVerify;
    forall secret
      ensures KeyFor(d, token.kid, Key(token.kid, token.algorithm, secret))
         <==> KeyByID(d, token.kid) == Some(Key(token.kid, token.algorithm, secret))
    {
      KeyForExactly(d, token.kid, Key(token.kid, token.algorithm, secret));
    }
    var found := KeyByID(d, token.kid);
    ClaimsReasonExactly(d, token.claims, token.kid, now);
    if found.Some? {
      FirstKeyIsTrusted(TrustedKeys(d), token.kid);
      assert found.value == Key(token.kid, found.value.algorithm, found.value.secret);
    }
  }

  /** Every refusal has its reason: type, key, seal, claims, and last the held token ID. */
  lemma VerdictReason(d: Direction, kind: StoreKind, seen: Entries, token: Token, now: Time, storeNow: Time)
    requires ValidForVerify(d)
    ensures var verdict := Verify(d, kind, seen, token, now, storeNow).1;
            match token
            case Malformed => verdict == Err(InvalidToken)
            case Sealed(typ, kid, algorithm, sealedWith, claims) =>
              var reason := ClaimsReason(d, claims, kid, now);
              verdict == if typ != "at+jwt" then Err(WrongTokenType)
                         else if !exists secret :: KeyFor(d, kid, Key(kid, algorithm, secret)) then Err(UnknownKey)
                         else if !KeyFor(d, kid, Key(kid, algorithm, sealedWith)) then Err(InvalidToken)
                         else if reason.Ok? && claims.id in Consulted(kind, seen, storeNow) then Err(TokenReplayed)
                         else reason
  {
    hide ClaimsReason, CheckClaims, KeyByID, KeyFor, ValidForVerify, Sweep;
    if token.Sealed? {
      TokenReason(d, token, now);
      if CheckToken(d, token, now).Ok? {
        CheckedGrantIsValid(d, token, now);
      }
    }
  }
}
