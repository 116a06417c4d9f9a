/** Grants as signed access tokens: the claims, the sealed envelope and its configuration. */
module AccessTokens {
  import opened Primitives
  import opened ContractTypes
  import opened DigestFraming
  import opened JsonText
  import opened Execution
  import opened OperationGrants
  import opened Combinatorics

  /** The registered and private claims; a numeric date is absent or an instant in whole seconds. */
  datatype Claims = Claims(
    issuer: string, subject: string, audience: seq<string>, id: string,
    issuedAt: Option<Time>, notBefore: Option<Time>, expiresAt: Option<Time>, scope: string, purpose: GrantPurpose,
    providerID: string, adapterID: string, competitionID: string, contestID: string, requestID: string,
    providerInstanceID: string, commandID: string, typedPayloadDigest: string, transportContentType: string,
    rawTransportDigest: string, method_: string, resource: string, participantID: string,
    participantVersionID: string, repositoryNodeID: string, commitOID: string, manifestPath: string,
    manifestEntryKind: string, rawManifestBytesDigest: string, manifestByteLimit: uint64,
    closurePlanID: string, closurePlanDigest: string, candidateTransferredBytesDigest: string,
    publicCandidateTransferredBytesDigest: string, aggregateByteLimit: uint64, retentionReceiptID: string,
    artifactDigest: string, disclosureReceiptID: string, disclosureRequestDigest: string)

  /** `Time.Truncate(time.Second)`: whole seconds, rounded down. */
  function Truncate(t: Time): Time { t - t % SECOND }

  function NumericDateTime(value: Option<Time>): Time
  {
    match value
    case None => ZERO_TIME
    case Some(t) => t
  }

  function ClaimsFromGrant(g: OperationGrant): Claims
  {
    Claims(
      issuer := g.issuer, subject := g.subject, audience := [g.audience], id := g.tokenID,
      issuedAt := Some(Truncate(g.issuedAt)), notBefore := Some(Truncate(g.notBefore)),
      expiresAt := Some(Truncate(g.expiresAt)), scope := g.scope, purpose := g.purpose,
      providerID := g.providerID, adapterID := g.adapterID, competitionID := g.competitionID,
      contestID := g.contestID, requestID := g.requestID, providerInstanceID := g.providerInstanceID,
      commandID := g.commandID, typedPayloadDigest := g.typedPayloadDigest,
      transportContentType := g.transportContentType, rawTransportDigest := g.rawTransportDigest,
      method_ := g.method_, resource := g.resource, participantID := g.participantID,
      participantVersionID := g.participantVersionID, repositoryNodeID := g.repositoryNodeID,
      commitOID := g.commitOID, manifestPath := g.manifestPath, manifestEntryKind := g.manifestEntryKind,
      rawManifestBytesDigest := g.rawManifestBytesDigest, manifestByteLimit := g.manifestByteLimit,
      closurePlanID := g.closurePlanID, closurePlanDigest := g.closurePlanDigest,
      candidateTransferredBytesDigest := g.candidateTransferredBytesDigest,
      publicCandidateTransferredBytesDigest := g.publicCandidateTransferredBytesDigest,
      aggregateByteLimit := g.aggregateByteLimit, retentionReceiptID := g.retentionReceiptID,
      artifactDigest := g.artifactDigest, disclosureReceiptID := g.disclosureReceiptID,
      disclosureRequestDigest := g.disclosureRequestDigest)
  }

  function GrantFromClaims(c: Claims, keyID: string): Option<OperationGrant>
  {
    if |c.audience| != 1 || c.audience[0] == "" then None
    else Some(OperationGrant(
      issuer := c.issuer, subject := c.subject, audience := c.audience[0], tokenType := TOKEN_TYPE_ACCESS_JWT,
      scope := c.scope, purpose := c.purpose, keyID := keyID, tokenID := c.id,
      issuedAt := NumericDateTime(c.issuedAt), notBefore := NumericDateTime(c.notBefore),
      expiresAt := NumericDateTime(c.expiresAt),
      providerID := c.providerID, adapterID := c.adapterID, competitionID := c.competitionID,
      contestID := c.contestID, requestID := c.requestID, providerInstanceID := c.providerInstanceID,
      commandID := c.commandID, typedPayloadDigest := c.typedPayloadDigest,
      transportContentType := c.transportContentType, rawTransportDigest := c.rawTransportDigest,
      method_ := c.method_, resource := c.resource, participantID := c.participantID,
      participantVersionID := c.participantVersionID, repositoryNodeID := c.repositoryNodeID,
      commitOID := c.commitOID, manifestPath := c.manifestPath, manifestEntryKind := c.manifestEntryKind,
      rawManifestBytesDigest := c.rawManifestBytesDigest, manifestByteLimit := c.manifestByteLimit,
      closurePlanID := c.closurePlanID, closurePlanDigest := c.closurePlanDigest,
      candidateTransferredBytesDigest := c.candidateTransferredBytesDigest,
      publicCandidateTransferredBytesDigest := c.publicCandidateTransferredBytesDigest,
      aggregateByteLimit := c.aggregateByteLimit, retentionReceiptID := c.retentionReceiptID,
      artifactDigest := c.artifactDigest, disclosureReceiptID := c.disclosureReceiptID,
      disclosureRequestDigest := c.disclosureRequestDigest))
  }

  lemma TruncateMonotone(a: Time, b: Time)
    requires a <= b
    ensures Truncate(a) <= Truncate(b)
  {
    assert a - a % SECOND == a / SECOND * SECOND;
    assert b - b % SECOND == b / SECOND * SECOND;
  }

  // ----- what the signed JSON does to texts -----

  function RereadPurpose(purpose: GrantPurpose): GrantPurpose
  {
    match purpose
    case UnknownPurpose(text) => UnknownPurpose(Reread(text))
    case _ => purpose
  }

  /** The claims as they come back from the token's JSON. */
  function RereadClaims(c: Claims): Claims
  {
    c.(
      issuer := Reread(c.issuer), subject := Reread(c.subject),
      audience := seq(|c.audience|, i requires 0 <= i < |c.audience| => Reread(c.audience[i])), id := Reread(c.id),
      scope := Reread(c.scope), purpose := RereadPurpose(c.purpose),
      providerID := Reread(c.providerID), adapterID := Reread(c.adapterID),
      competitionID := Reread(c.competitionID), contestID := Reread(c.contestID), requestID := Reread(c.requestID),
      providerInstanceID := Reread(c.providerInstanceID), commandID := Reread(c.commandID),
      typedPayloadDigest := Reread(c.typedPayloadDigest), transportContentType := Reread(c.transportContentType),
      rawTransportDigest := Reread(c.rawTransportDigest), method_ := Reread(c.method_),
      resource := Reread(c.resource), participantID := Reread(c.participantID),
      participantVersionID := Reread(c.participantVersionID), repositoryNodeID := Reread(c.repositoryNodeID),
      commitOID := Reread(c.commitOID), manifestPath := Reread(c.manifestPath),
      manifestEntryKind := Reread(c.manifestEntryKind), rawManifestBytesDigest := Reread(c.rawManifestBytesDigest),
      closurePlanID := Reread(c.closurePlanID), closurePlanDigest := Reread(c.closurePlanDigest),
      candidateTransferredBytesDigest := Reread(c.candidateTransferredBytesDigest),
      publicCandidateTransferredBytesDigest := Reread(c.publicCandidateTransferredBytesDigest),
      retentionReceiptID := Reread(c.retentionReceiptID), artifactDigest := Reread(c.artifactDigest),
      disclosureReceiptID := Reread(c.disclosureReceiptID),
      disclosureRequestDigest := Reread(c.disclosureRequestDigest))
  }

  function RereadRequest(r: OperationGrantRequest): OperationGrantRequest
  {
    OperationGrantRequest(
      purpose := RereadPurpose(r.purpose),
      providerID := Reread(r.providerID), adapterID := Reread(r.adapterID),
      competitionID := Reread(r.competitionID), contestID := Reread(r.contestID), requestID := Reread(r.requestID),
      providerInstanceID := Reread(r.providerInstanceID), commandID := Reread(r.commandID),
      typedPayloadDigest := Reread(r.typedPayloadDigest), transportContentType := Reread(r.transportContentType),
      rawTransportDigest := Reread(r.rawTransportDigest), method_ := Reread(r.method_),
      resource := Reread(r.resource), participantID := Reread(r.participantID),
      participantVersionID := Reread(r.participantVersionID), repositoryNodeID := Reread(r.repositoryNodeID),
      commitOID := Reread(r.commitOID), manifestPath := Reread(r.manifestPath),
      manifestEntryKind := Reread(r.manifestEntryKind), rawManifestBytesDigest := Reread(r.rawManifestBytesDigest),
      manifestByteLimit := r.manifestByteLimit, closurePlanID := Reread(r.closurePlanID),
      closurePlanDigest := Reread(r.closurePlanDigest),
      candidateTransferredBytesDigest := Reread(r.candidateTransferredBytesDigest),
      publicCandidateTransferredBytesDigest := Reread(r.publicCandidateTransferredBytesDigest),
      aggregateByteLimit := r.aggregateByteLimit, retentionReceiptID := Reread(r.retentionReceiptID),
      artifactDigest := Reread(r.artifactDigest), disclosureReceiptID := Reread(r.disclosureReceiptID),
      disclosureRequestDigest := Reread(r.disclosureRequestDigest))
  }

  /** Every text of the request is UTF-8. */
  predicate RequestSurvives(r: OperationGrantRequest)
  {
    && (r.purpose.UnknownPurpose? ==> ValidUTF8(r.purpose.text))
    && ValidUTF8(r.providerID) && ValidUTF8(r.adapterID) && ValidUTF8(r.competitionID) && ValidUTF8(r.contestID)
    && ValidUTF8(r.requestID) && ValidUTF8(r.providerInstanceID) && ValidUTF8(r.commandID)
    && ValidUTF8(r.typedPayloadDigest) && ValidUTF8(r.transportContentType) && ValidUTF8(r.rawTransportDigest)
    && ValidUTF8(r.method_) && ValidUTF8(r.resource) && ValidUTF8(r.participantID)
    && ValidUTF8(r.participantVersionID) && ValidUTF8(r.repositoryNodeID) && ValidUTF8(r.commitOID)
    && ValidUTF8(r.manifestPath) && ValidUTF8(r.manifestEntryKind) && ValidUTF8(r.rawManifestBytesDigest)
    && ValidUTF8(r.closurePlanID) && ValidUTF8(r.closurePlanDigest) && ValidUTF8(r.candidateTransferredBytesDigest)
    && ValidUTF8(r.publicCandidateTransferredBytesDigest) && ValidUTF8(r.retentionReceiptID)
    && ValidUTF8(r.artifactDigest) && ValidUTF8(r.disclosureReceiptID) && ValidUTF8(r.disclosureRequestDigest)
  }

  /** What a grant becomes on the way through a token: texts reread, times in whole seconds, and the ID of the
      key its signature was checked with. */
  function Decoded(g: OperationGrant, keyID: string): OperationGrant
  {
    AssembleGrant(
      Reread(g.issuer), Reread(g.subject), Reread(g.audience), keyID, Reread(g.tokenID), Truncate(g.issuedAt), 0,
      RereadRequest(RequestedOperation(g))).(
      notBefore := Truncate(g.notBefore), expiresAt := Truncate(g.expiresAt))
  }

  lemma TextsSurvive()
    ensures forall s: string {:trigger Reread(s)} :: Reread(s) == s <==> ValidUTF8(s)
  {
    forall s: string ensures Reread(s) == s <==> ValidUTF8(s) {
      SurvivesExactly(s);
    }
  }

  /** A request is reread as itself exactly when each of its texts survives. */
  lemma RequestRereadExactly(r: OperationGrantRequest)
    ensures RereadRequest(r) == r <==> RequestSurvives(r)
  {
    hide Reread, ValidUTF8;
    TextsSurvive();
  }

  lemma DigestsSurvive(s: string)
    requires s == "" || ValidSHA256Digest(s) || ValidSourceObjectID(s) || s == SOURCE_ENTRY_REGULAR
    ensures Reread(s) == s
  {
    if s == "" {
    } else if s == SOURCE_ENTRY_REGULAR {
      AsciiSurvives(s);
    } else if ValidSHA256Digest(s) {
      assert s == DIGEST_PREFIX + s[|DIGEST_PREFIX|..];
      AsciiSurvives(s);
    } else {
      assert s == s[..7] + s[7..] && s == s[..5] + s[5..];
      AsciiSurvives(s);
    }
  }

  predicate Ascii(s: string) { forall i | 0 <= i < |s| :: s[i] as int < 0x80 }

  lemma ManifestClosurePlanScope()
    ensures Ascii(GrantScopeForPurpose(ManifestClosurePlan))
  {
  }

  lemma CandidateValidateRetainScope()
    ensures Ascii(GrantScopeForPurpose(CandidateValidateRetain))
  {
  }

  lemma ArtifactPublishScope()
    ensures Ascii(GrantScopeForPurpose(ArtifactPublish))
  {
  }

  lemma ArtifactDisclosureVerifyScope()
    ensures Ascii(GrantScopeForPurpose(ArtifactDisclosureVerify))
  {
  }

  lemma ContestLaunchScope()
    ensures Ascii(GrantScopeForPurpose(ContestLaunch))
  {
  }

  lemma ContestStartedScope()
    ensures Ascii(GrantScopeForPurpose(ContestStarted))
  {
  }

  lemma ContestResultSubmitScope()
    ensures Ascii(GrantScopeForPurpose(ContestResultSubmit))
  {
  }

  lemma ScopesSurvive(purpose: GrantPurpose)
    ensures Reread(GrantScopeForPurpose(purpose)) == GrantScopeForPurpose(purpose)
  {
    var scope := GrantScopeForPurpose(purpose);
    assert purpose.UnknownPurpose? ==> scope == "";
    hide Reread, GrantScopeForPurpose;
    match purpose {
      case ManifestClosurePlan => ManifestClosurePlanScope();
      case CandidateValidateRetain => CandidateValidateRetainScope();
      case ArtifactPublish => ArtifactPublishScope();
      case ArtifactDisclosureVerify => ArtifactDisclosureVerifyScope();
      case ContestLaunch => ContestLaunchScope();
      case ContestStarted => ContestStartedScope();
      case ContestResultSubmit => ContestResultSubmitScope();
      case UnknownPurpose(_) =>
    }
    AsciiSurvives(scope);
  }

  lemma ConstrainedTextsSurvive()
    ensures forall s: string {:trigger Reread(s)} ::
              s == "" || ValidSHA256Digest(s) || ValidSourceObjectID(s) || s == SOURCE_ENTRY_REGULAR ==> Reread(s) == s
  {
    hide Reread, ValidSHA256Digest, ValidSourceObjectID;
    forall s: string | s == "" || ValidSHA256Digest(s) || ValidSourceObjectID(s) || s == SOURCE_ENTRY_REGULAR
      ensures Reread(s) == s
    {
      DigestsSurvive(s);
    }
  }

  /** Rereading changes no text the grant checks constrain, so a valid request stays valid. */
  lemma RereadKeepsRequestValid(r: OperationGrantRequest)
    requires OperationFactsValid(r) && PurposeFieldsValid(r)
    ensures OperationFactsValid(RereadRequest(r)) && PurposeFieldsValid(RereadRequest(r))
  {
    hide Reread, ValidSHA256Digest, ValidSourceObjectID;
    ConstrainedTextsSurvive();
  }

  /** Encoding a valid grant and decoding it loses the fractions of a second and the bytes that are not UTF-8,
      and nothing else: it asks for the same operation exactly when each text of that operation survives. It is
      again valid exactly when its key has an ID, no truncated instant is the zero time and the window stays open. */
  lemma ClaimsRoundTrip(g: OperationGrant, keyID: string)
    requires ValidOperationGrant(g)
    ensures GrantFromClaims(RereadClaims(ClaimsFromGrant(g)), keyID) == Some(Decoded(g, keyID))
    ensures RequestedOperation(Decoded(g, keyID)) == RequestedOperation(g) <==> RequestSurvives(RequestedOperation(g))
    ensures ValidOperationGrant(Decoded(g, keyID))
       <==> && keyID != "" && Truncate(g.issuedAt) != ZERO_TIME && Truncate(g.notBefore) != ZERO_TIME
            && Truncate(g.expiresAt) != ZERO_TIME && Truncate(g.notBefore) < Truncate(g.expiresAt)
  {
    hide OperationFactsValid, PurposeFieldsValid, Reread, RequestSurvives;
    TruncateMonotone(g.issuedAt, g.notBefore);
    ScopesSurvive(g.purpose);
    RereadKeepsRequestValid(RequestedOperation(g));
    RequestRereadExactly(RequestedOperation(g));
  }

  // ----- keys, tokens and directions -----

  datatype Key = Key(keyID: string, algorithm: string, secret: string)

  /** A token as a receiver sees it. `sealedWith` stands for the signature: it checks against a key
      exactly when it was made with that key's secret. */
  datatype Token =
    | Malformed
    | Sealed(typ: string, kid: string, algorithm: string, sealedWith: string, claims: Claims)

  const TOKEN_TYPE_HEADER := "at+jwt"
  const TOKEN_LIFETIME: int := 300 * SECOND
  const MAX_VERIFIER_LEEWAY: int := 30 * SECOND

  datatype Direction = Direction(
    issuer: string, subject: string, audience: string, purposes: seq<GrantPurpose>, key: Option<Key>,
    trusted: seq<Option<Key>>, leeway: int)

  function TrustedKeys(d: Direction): seq<Option<Key>>
  {
    (if d.key.Some? then [d.key] else []) + d.trusted
  }

  function FirstKey(keys: seq<Option<Key>>, kid: string): Option<Key>
  {
    if keys == [] then None
    else if keys[0].Some? && keys[0].value.keyID == kid then keys[0]
    else FirstKey(keys[1..], kid)
  }

  function KeyByID(d: Direction, kid: string): Option<Key>
  {
    if kid == "" then None else FirstKey(TrustedKeys(d), kid)
  }

  predicate KnownPurpose(purpose: GrantPurpose) { !purpose.UnknownPurpose? }

  predicate ValidPurposes(purposes: seq<GrantPurpose>)
  {
    && purposes != [] && Distinct(purposes)
    && forall i | 0 <= i < |purposes| :: KnownPurpose(purposes[i])
  }

  lemma EmptyScopeExactly(purpose: GrantPurpose)
    ensures GrantScopeForPurpose(purpose) == "" <==> !KnownPurpose(purpose)
  {
  }

  method ValidatePurposes(purposes: seq<GrantPurpose>) returns (ok: bool)
    ensures ok == ValidPurposes(purposes)
  {
    hide GrantScopeForPurpose;
    if |purposes| == 0 {
      return false;
    }
    var seen: set<GrantPurpose> := {};
    for index := 0 to |purposes|
      invariant seen == set i | 0 <= i < index :: purposes[i]
      invariant forall i | 0 <= i < index :: KnownPurpose(purposes[i])
      invariant forall i, j | 0 <= i < j < index :: purposes[i] != purposes[j]
    {
      EmptyScopeExactly(purposes[index]);
      if GrantScopeForPurpose(purposes[index]) == "" || purposes[index] in seen {
        return false;
      }
      seen := seen + {purposes[index]};
    }
    return true;
  }

  predicate ValidForIssue(d: Direction)
  {
    d.issuer != "" && d.subject != "" && d.audience != "" && d.key.Some? && ValidPurposes(d.purposes)
  }

  predicate ValidForVerify(d: Direction)
  {
    && d.issuer != "" && d.audience != "" && TrustedKeys(d) != []
    && 0 <= d.leeway <= MAX_VERIFIER_LEEWAY && ValidPurposes(d.purposes)
  }

  predicate Permits(d: Direction, purpose: GrantPurpose) { purpose in d.purposes }

  // ----- issuing -----

  datatype IssueError = IssuePurposeNotPermitted | IssueInvalidGrant

  datatype IssuedToken = IssuedToken(token: Token, expiresAt: Time)

  function IssuedGrant(d: Direction, r: OperationGrantRequest, tokenID: string, now: Time): OperationGrant
    requires d.key.Some?
  {
    AssembleGrant(d.issuer, d.subject, d.audience, d.key.value.keyID, tokenID, now, TOKEN_LIFETIME, r)
  }

  /** Header and claims are signed as JSON; algorithm names are the library's own and survive. */
  function SignGrant(key: Key, g: OperationGrant): Token
  {
    Sealed(TOKEN_TYPE_HEADER, Reread(g.keyID), key.algorithm, key.secret, RereadClaims(ClaimsFromGrant(g)))
  }

  function IssueOperationGrant(d: Direction, r: OperationGrantRequest, tokenID: string, now: Time)
    : Result<IssuedToken, IssueError>
    requires ValidForIssue(d)
  {
    if !Permits(d, r.purpose) then Err(IssuePurposeNotPermitted)
    else if !ValidOperationGrantRequest(r) then Err(IssueInvalidGrant)
    else
      var g := IssuedGrant(d, r, tokenID, now);
      if !ValidOperationGrant(g) then Err(IssueInvalidGrant)
      else Ok(IssuedToken(SignGrant(d.key.value, g), g.expiresAt))
  }

  /** Issuing succeeds for exactly the permitted valid requests, given a key ID, a token ID and a clock
      whose issue and expiry instants are not the zero time: the second validation rejects nothing else. */
  lemma IssueSucceedsExactly(d: Direction, r: OperationGrantRequest, tokenID: string, now: Time)
    requires ValidForIssue(d)
    ensures IssueOperationGrant(d, r, tokenID, now).Ok?
       <==> && Permits(d, r.purpose) && ValidOperationGrantRequest(r) && d.key.value.keyID != "" && tokenID != ""
            && now != ZERO_TIME && now + TOKEN_LIFETIME != ZERO_TIME
    ensures IssueOperationGrant(d, r, tokenID, now).Ok? ==>
              ValidIssuedOperationGrantForRequest(IssuedGrant(d, r, tokenID, now), r)
  {
    hide OperationFactsValid, PurposeFieldsValid, ValidPurposes, ValidOperationGrant, RequestedOperation;
    AssembledGrantValidity(d.issuer, d.subject, d.audience, d.key.value.keyID, tokenID, now, TOKEN_LIFETIME, r);
    AssembledGrantValidity("issuer", "subject", "audience", "key", "token", CHECK_TIME, 60 * SECOND, r);
  }

  lemma KnownPurposeStays(r: OperationGrantRequest)
    requires PurposeFieldsValid(r)
    ensures RereadPurpose(r.purpose) == r.purpose
  {
  }

  lemma DecodedFields(d: Direction, r: OperationGrantRequest, tokenID: string, now: Time, keyID: string)
    requires d.key.Some? && ValidOperationGrantRequest(r)
    ensures var g := IssuedGrant(d, r, tokenID, now);
            && RequestedOperation(g) == r
            && g.issuedAt == g.notBefore == now && g.expiresAt == now + TOKEN_LIFETIME
            && Truncate(g.expiresAt) == Truncate(now) + TOKEN_LIFETIME
    ensures var decoded := Decoded(IssuedGrant(d, r, tokenID, now), keyID);
            && decoded.issuedAt == decoded.notBefore == Truncate(now)
            && decoded.expiresAt == Truncate(now) + TOKEN_LIFETIME
            && decoded.purpose == r.purpose && decoded.scope == GrantScopeForPurpose(r.purpose)
            && decoded.tokenID == Reread(tokenID) && decoded.keyID == keyID
            && decoded.issuer == Reread(d.issuer) && decoded.subject == Reread(d.subject)
            && decoded.audience == Reread(d.audience)
  {
    hide Reread, OperationFactsValid;
    assert Truncate(now + TOKEN_LIFETIME) == Truncate(now) + TOKEN_LIFETIME;
    AssembledGrantValidity("issuer", "subject", "audience", "key", "token", CHECK_TIME, 60 * SECOND, r);
    KnownPurposeStays(r);
  }

  lemma IssuerHasKey(d: Direction)
    requires ValidForIssue(d)
    ensures d.key.Some?
  {
  }

  /** What a verifier decodes from an issued token under the key it finds. It is a valid grant exactly when that
      key has an ID and neither whole second is the zero time, and it asks for the original request exactly when
      every text of the request survives. */
  lemma IssuedGrantRoundTrip(d: Direction, r: OperationGrantRequest, tokenID: string, now: Time, keyID: string)
    requires ValidForIssue(d) && IssueOperationGrant(d, r, tokenID, now).Ok?
    ensures var g := IssuedGrant(d, r, tokenID, now);
            var decoded := Decoded(g, keyID);
            && GrantFromClaims(RereadClaims(ClaimsFromGrant(g)), keyID) == Some(decoded)
            && decoded.issuedAt == decoded.notBefore == Truncate(now)
            && decoded.expiresAt == Truncate(now) + TOKEN_LIFETIME
            && decoded.purpose == r.purpose && decoded.tokenID == Reread(tokenID)
            && (ValidOperationGrant(decoded)
                <==> keyID != "" && Truncate(now) != ZERO_TIME && Truncate(now) + TOKEN_LIFETIME != ZERO_TIME)
            && (ValidIssuedOperationGrantForRequest(decoded, r)
                <==> ValidOperationGrant(decoded) && RequestSurvives(r))
  {
    hide OperationFactsValid, PurposeFieldsValid, ValidPurposes, ValidOperationGrant, RequestedOperation, Reread,
         RequestSurvives, RereadClaims, ClaimsFromGrant, GrantFromClaims, Decoded, IssuedGrant, ValidForIssue;
    assert d.key.Some? by {
      IssuerHasKey(d);
    }
    IssueSucceedsExactly(d, r, tokenID, now);
    ClaimsRoundTrip(IssuedGrant(d, r, tokenID, now), keyID);
    DecodedFields(d, r, tokenID, now, keyID);
  }

  /** The sub-second clock for which the decoded grant is refused: half a second after the zero time. */
  lemma FirstSecondIsLost(d: Direction, r: OperationGrantRequest, tokenID: string, keyID: string)
    requires ValidForIssue(d) && Permits(d, r.purpose) && ValidOperationGrantRequest(r)
    requires d.key.value.keyID != "" && tokenID != ""
    ensures IssueOperationGrant(d, r, tokenID, SECOND / 2).Ok?
    ensures !ValidOperationGrant(Decoded(IssuedGrant(d, r, tokenID, SECOND / 2), keyID))
  {
    hide OperationFactsValid, PurposeFieldsValid, ValidPurposes, RequestedOperation, Reread;
    IssueSucceedsExactly(d, r, tokenID, SECOND / 2);
  }

  // ----- event transport and routes -----

  predicate NoLineBreak(s: string) { '\r' !in s && '\n' !in s }

  predicate Printable(s: string) { forall i | 0 <= i < |s| :: '\U{0020}' <= s[i] && s[i] != '\U{007f}' }

  predicate ValidOpaqueTransportShape(lib: Library, method_: string, resource: string, contentType: string,
                                      rawBody: string)
  {
    && method_ != "" && |method_| <= 64 && lib.trimmed(method_) && NoLineBreak(method_)
    && resource != "" && |resource| <= 2048 && NoLineBreak(resource)
    && contentType != "" && |contentType| <= 256 && lib.trimmed(contentType) && NoLineBreak(contentType)
    && rawBody != "" && Printable(method_) && Printable(resource) && Printable(contentType)
    && forall i | 0 <= i < |method_| ::
         '\U{0020}' < method_[i] < '\U{007f}' && method_[i] !in "()<>@,;:\\\"/[]?={}"
  }

  function NewExecutionEventGrantRequest(lib: Library, event: ExecutionEvent, method_: string, resource: string,
                                         contentType: string, rawBody: string): Option<OperationGrantRequest>
  {
    var purpose := EventGrantPurpose(event.kind);
    if !ValidExecutionEvent(lib, event) || !ValidOpaqueTransportShape(lib, method_, resource, contentType, rawBody)
       || GrantScopeForPurpose(purpose) == "" then None
    else
      var request := OperationGrantRequest(
        purpose := purpose, providerID := event.providerID, adapterID := event.adapterID,
        competitionID := event.competitionID, contestID := event.contestID, requestID := event.requestID,
        providerInstanceID := event.providerInstanceID, commandID := event.commandID,
        typedPayloadDigest := event.typedPayloadDigest, transportContentType := contentType,
        rawTransportDigest := DigestOf(lib.sha256, RAW_TRANSPORT_DOMAIN, [contentType, rawBody]),
        method_ := method_, resource := resource, participantID := "", participantVersionID := "",
        repositoryNodeID := "", commitOID := "", manifestPath := "", manifestEntryKind := "",
        rawManifestBytesDigest := "", manifestByteLimit := 0, closurePlanID := "", closurePlanDigest := "",
        candidateTransferredBytesDigest := "", publicCandidateTransferredBytesDigest := "",
        aggregateByteLimit := 0, retentionReceiptID := "", artifactDigest := "", disclosureReceiptID := "",
        disclosureRequestDigest := "");
      if ValidOperationGrantRequest(request) then Some(request) else None
  }

  function RouteBinding(lib: Library, d: Direction, purpose: GrantPurpose, providerID: string, adapterID: string,
                        contentType: string, rawBody: string, method_: string, resource: string)
    : Option<OperationRouteBinding>
  {
    if GrantScopeForPurpose(purpose) == "" || !Permits(d, purpose) then None
    else Some(OperationRouteBinding(
      issuer := d.issuer, subject := d.subject, audience := d.audience, tokenType := TOKEN_TYPE_ACCESS_JWT,
      scope := GrantScopeForPurpose(purpose), purpose := purpose, providerID := providerID,
      adapterID := adapterID, transportContentType := contentType,
      rawTransportDigest := DigestOf(lib.sha256, RAW_TRANSPORT_DOMAIN, [contentType, rawBody]),
      method_ := method_, resource := resource))
  }
}
