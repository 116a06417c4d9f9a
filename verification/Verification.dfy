/** Verifying access tokens against a direction and a replay store. */
module Verification {
  import opened Primitives
  import opened ContractTypes
  import opened DigestFraming
  import opened JsonText
  import opened Execution
  import opened OperationGrants
  import opened AccessTokens
  import opened ReplayStores

  datatype VerifyError =
    | InvalidToken | WrongTokenType | UnknownKey | OutsideTimeWindow | MalformedClaims | InvalidGrant
    | PurposeNotPermitted | TokenReplayed

  type Verdict = Result<OperationGrant, VerifyError>

  /** golang-jwt's claim checks: an expiry is required, and both bounds allow for the leeway. */
  predicate InTimeWindow(d: Direction, c: Claims, now: Time)
  {
    && (c.expiresAt.Some? ==> now < c.expiresAt.value + d.leeway)
    && (c.notBefore.Some? ==> c.notBefore.value - d.leeway <= now)
  }

  function CheckClaims(d: Direction, c: Claims, keyID: string, now: Time): Verdict
  {
    if !InTimeWindow(d, c, now) then Err(OutsideTimeWindow)
    else if c.expiresAt.None? || c.issuer != d.issuer || d.audience !in c.audience then Err(InvalidToken)
    else match GrantFromClaims(c, keyID)
      case None => Err(MalformedClaims)
      case Some(g) =>
        if !ValidOperationGrant(g) then Err(InvalidGrant)
        else if !Permits(d, g.purpose) then Err(PurposeNotPermitted)
        else Ok(g)
  }

  /** Everything before the replay step, in the fixed order. */
  function CheckToken(d: Direction, token: Token, now: Time): Verdict
  {
    match token
    case Malformed => Err(InvalidToken)
    case Sealed(typ, kid, algorithm, sealedWith, claims) =>
      if typ != TOKEN_TYPE_HEADER then Err(WrongTokenType)
      else match KeyByID(d, kid)
        case None => Err(UnknownKey)
        case Some(key) =>
          if key.algorithm != algorithm then Err(UnknownKey)
          else if key.secret != sealedWith then Err(InvalidToken)
          else CheckClaims(d, claims, key.keyID, now)
  }

  /** The window is judged by one clock reading, the store by its own. */
  function Verify(d: Direction, kind: StoreKind, seen: Entries, token: Token, now: Time, storeNow: Time)
    : (Entries, Verdict)
  {
    var checked := CheckToken(d, token, now);
    if checked.Err? then (seen, checked)
    else
      var call := SeenCall(checked.value.tokenID, checked.value.expiresAt, storeNow);
      var (seen', result) := SeenBy(kind, seen, call);
      match result
      case Fresh => (seen', checked)
      case ReplayConflict => (seen', Err(TokenReplayed))
      case EmptyTokenID => (seen', Err(InvalidGrant))
  }

  class Verifier {
    const direction: Direction
    const replay: ReplayStore

    constructor (direction: Direction, replay: ReplayStore)
      requires ValidForVerify(direction)
      ensures this.direction == direction && this.replay == replay
    {
      this.direction := direction;
      this.replay := replay;
    }

    method VerifyOperationGrant(token: Token, now: Time, storeNow: Time) returns (verdict: Verdict)
      modifies ObjectsOf(replay)
      ensures (EntriesOf(replay), verdict)
           == Verify(direction, KindOf(replay), old(EntriesOf(replay)), token, now, storeNow)
    {
      hide ValidOperationGrant, GrantFromClaims, InTimeWindow, SeenBy;
      if token.Malformed? {
        return Err(InvalidToken);
      }
      if token.typ != TOKEN_TYPE_HEADER {
        return Err(WrongTokenType);
      }
      var key := KeyByID(direction, token.kid);
      if key.None? || key.value.algorithm != token.algorithm {
        return Err(UnknownKey);
      }
      if key.value.secret != token.sealedWith {
        return Err(InvalidToken);
      }
      var claims := token.claims;
      if !InTimeWindow(direction, claims, now) {
        return Err(OutsideTimeWindow);
      }
      if claims.expiresAt.None? || claims.issuer != direction.issuer || direction.audience !in claims.audience {
        return Err(InvalidToken);
      }
      var grant := GrantFromClaims(claims, key.value.keyID);
      if grant.None? {
        return Err(MalformedClaims);
      }
      if !ValidOperationGrant(grant.value) {
        return Err(InvalidGrant);
      }
      if !Permits(direction, grant.value.purpose) {
        return Err(PurposeNotPermitted);
      }
      var result := SeenByStore(replay, grant.value.tokenID, grant.value.expiresAt, storeNow);
      match result {
        case Fresh => return Ok(grant.value);
        case ReplayConflict => return Err(TokenReplayed);
        case EmptyTokenID => return Err(InvalidGrant);
      }
    }
  }

  // ----- one verification -----

  lemma {:induction false} FirstKeyIsTrusted(keys: seq<Option<Key>>, kid: string)
    requires FirstKey(keys, kid).Some?
    ensures FirstKey(keys, kid) in keys && FirstKey(keys, kid).value.keyID == kid
  {
    if keys[0].Some? && keys[0].value.keyID == kid {
    } else {
      FirstKeyIsTrusted(keys[1..], kid);
    }
  }

  /** The key at position i has the ID, and no key before it has. */
  predicate FirstAt(keys: seq<Option<Key>>, kid: string, i: int)
  {
    && 0 <= i < |keys| && keys[i].Some? && keys[i].value.keyID == kid
    && forall j | 0 <= j < i && keys[j].Some? :: keys[j].value.keyID != kid
  }

  /** The lookup returns the first trusted key with the ID, and none exactly when no trusted key has it. */
  lemma {:induction false} FirstKeyExactly(keys: seq<Option<Key>>, kid: string)
    ensures FirstKey(keys, kid).None? <==> forall i | 0 <= i < |keys| && keys[i].Some? :: keys[i].value.keyID != kid
    ensures forall i | FirstAt(keys, kid, i) :: FirstKey(keys, kid) == keys[i]
    ensures FirstKey(keys, kid).Some? ==> exists i :: FirstAt(keys, kid, i)
  {
    if keys == [] {
    } else if keys[0].Some? && keys[0].value.keyID == kid {
      assert FirstAt(keys, kid, 0);
    } else {
      FirstKeyExactly(keys[1..], kid);
      forall i | FirstAt(keys, kid, i) ensures FirstKey(keys, kid) == keys[i] {
        assert keys[1..][i - 1] == keys[i];
        assert forall j | 0 <= j < i - 1 :: keys[1..][j] == keys[j + 1];
        assert FirstAt(keys[1..], kid, i - 1);
      }
      if i :| FirstAt(keys[1..], kid, i) {
        assert forall j | 0 <= j < i :: keys[1..][j] == keys[j + 1];
        assert FirstAt(keys, kid, i + 1);
      }
    }
  }

  /** A success carries a valid grant of a permitted purpose inside its window, sealed by a trusted key
      and now recorded; a failure before the replay step leaves the store alone. */
  lemma VerifyFacts(d: Direction, kind: StoreKind, seen: Entries, token: Token, now: Time, storeNow: Time)
    ensures var (seen', verdict) := Verify(d, kind, seen, token, now, storeNow);
            && (verdict.Ok? ==>
                  && ValidOperationGrant(verdict.value) && Permits(d, verdict.value.purpose)
                  && verdict.value.issuer == d.issuer && verdict.value.audience == d.audience
                  && verdict.value.notBefore - d.leeway <= now < verdict.value.expiresAt + d.leeway
                  && Some(Key(verdict.value.keyID, token.algorithm, token.sealedWith)) in TrustedKeys(d)
                  && verdict.value.tokenID !in Consulted(kind, seen, storeNow)
                  && seen' == Consulted(kind, seen, storeNow)[verdict.value.tokenID := verdict.value.expiresAt])
            && (CheckToken(d, token, now).Err? ==> seen' == seen && verdict == CheckToken(d, token, now))
            && (verdict == Err(TokenReplayed) ==> CheckToken(d, token, now).Ok?)
  {
    hide OperationFactsValid, PurposeFieldsValid, RequestedOperation;
    if token.Sealed? && KeyByID(d, token.kid).Some? {
      FirstKeyIsTrusted(TrustedKeys(d), token.kid);
    }
  }

  /** A token presented again at once is refused, unless the store sweeps and its clock has reached the expiry. */
  lemma ImmediateReplayRefusedExactly(d: Direction, kind: StoreKind, seen: Entries, token: Token, now: Time,
                                      storeNow: Time)
    requires Verify(d, kind, seen, token, now, storeNow).1.Ok?
    ensures var (seen', first) := Verify(d, kind, seen, token, now, storeNow);
            Verify(d, kind, seen', token, now, storeNow).1
            == if kind.NeverForgetting? || storeNow < first.value.expiresAt then Err(TokenReplayed) else first
  {
    hide CheckToken;
  }

  lemma VerifyKeepsConsulted(d: Direction, kind: StoreKind, seen: Entries, token: Token, now: Time, storeNow: Time,
                             tokenID: string)
    requires tokenID in Consulted(kind, seen, storeNow)
    ensures var seen' := Verify(d, kind, seen, token, now, storeNow).0;
            tokenID in seen' && seen'[tokenID] == seen[tokenID]
  {
    hide CheckToken;
  }

  lemma ConsultedTokenRefused(d: Direction, kind: StoreKind, seen: Entries, token: Token, now: Time, storeNow: Time)
    requires CheckToken(d, token, now).Ok?
    requires CheckToken(d, token, now).value.tokenID in Consulted(kind, seen, storeNow)
    ensures Verify(d, kind, seen, token, now, storeNow).1.Err?
  {
    hide CheckToken;
  }

  // ----- runs -----

  datatype Presentation = Presentation(token: Token, now: Time, storeNow: Time)

  function StoreAfter(d: Direction, kind: StoreKind, ps: seq<Presentation>): Entries
  {
    if ps == [] then map[]
    else
      var p := ps[|ps| - 1];
      Verify(d, kind, StoreAfter(d, kind, ps[..|ps| - 1]), p.token, p.now, p.storeNow).0
  }

  function VerdictAt(d: Direction, kind: StoreKind, ps: seq<Presentation>, k: nat): Verdict
    requires k < |ps|
  {
    Verify(d, kind, StoreAfter(d, kind, ps[..k]), ps[k].token, ps[k].now, ps[k].storeNow).1
  }

  predicate StoreClockAdvances(ps: seq<Presentation>)
  {
    forall i, j | 0 <= i < j < |ps| :: ps[i].storeNow <= ps[j].storeNow
  }

  /** One clock reading serves the window and the store. */
  predicate SharedClock(ps: seq<Presentation>) { forall i | 0 <= i < |ps| :: ps[i].storeNow == ps[i].now }

  /** Among the presented tokens that pass every check, a token ID has one expiry. */
  predicate TokenIDsDetermineExpiry(d: Direction, ps: seq<Presentation>)
  {
    forall i, j | 0 <= i < |ps| && 0 <= j < |ps| ::
      var a, b := CheckToken(d, ps[i].token, ps[i].now), CheckToken(d, ps[j].token, ps[j].now);
      a.Ok? && b.Ok? && a.value.tokenID == b.value.tokenID ==> a.value.expiresAt == b.value.expiresAt
  }

  /** A token that passes every check reaches the store before its expiry. */
  predicate StoredInTime(d: Direction, ps: seq<Presentation>)
  {
    forall i | 0 <= i < |ps| ::
      var checked := CheckToken(d, ps[i].token, ps[i].now);
      checked.Ok? ==> ps[i].storeNow < checked.value.expiresAt
  }

  lemma {:induction false} VerifiedTokenHeld(d: Direction, kind: StoreKind, ps: seq<Presentation>, i: nat, k: nat)
    requires i < k <= |ps| && VerdictAt(d, kind, ps, i).Ok?
    requires || kind.NeverForgetting?
             || (StoreClockAdvances(ps) && ps[k - 1].storeNow < VerdictAt(d, kind, ps, i).value.expiresAt)
    ensures var g, store := VerdictAt(d, kind, ps, i).value, StoreAfter(d, kind, ps[..k]);
            g.tokenID in store && store[g.tokenID] == g.expiresAt
    decreases k
  {
    hide CheckToken;
    var prefix := ps[..k];
    assert prefix[..k - 1] == ps[..k - 1] && prefix[k - 1] == ps[k - 1];
    if i == k - 1 {
    } else {
      VerifiedTokenHeld(d, kind, ps, i, k - 1);
      VerifyKeepsConsulted(d, kind, StoreAfter(d, kind, ps[..k - 1]), ps[k - 1].token, ps[k - 1].now,
                           ps[k - 1].storeNow, VerdictAt(d, kind, ps, i).value.tokenID);
    }
  }

  lemma VerdictIsChecked(d: Direction, kind: StoreKind, ps: seq<Presentation>, k: nat)
    requires k < |ps| && VerdictAt(d, kind, ps, k).Ok?
    ensures VerdictAt(d, kind, ps, k) == CheckToken(d, ps[k].token, ps[k].now)
  {
    hide CheckToken;
  }

  lemma HeldWhenPresentedAgain(d: Direction, kind: StoreKind, ps: seq<Presentation>, i: nat, j: nat)
    requires i < j < |ps| && VerdictAt(d, kind, ps, i).Ok?
    requires || kind.NeverForgetting?
             || (StoreClockAdvances(ps) && ps[j].storeNow < VerdictAt(d, kind, ps, i).value.expiresAt)
    ensures VerdictAt(d, kind, ps, i).value.tokenID in Consulted(kind, StoreAfter(d, kind, ps[..j]), ps[j].storeNow)
  {
    hide CheckToken, StoreAfter, VerdictAt;
    VerifiedTokenHeld(d, kind, ps, i, j);
  }

  /** No token ID is verified twice in any run: over the store that never forgets without any condition, and over
      the sweeping one when its clock advances, token IDs determine expiries and tokens reach it before theirs. */
  lemma VerifiedAtMostOnce(d: Direction, kind: StoreKind, ps: seq<Presentation>, i: nat, j: nat)
    requires || kind.NeverForgetting?
             || (StoreClockAdvances(ps) && TokenIDsDetermineExpiry(d, ps) && StoredInTime(d, ps))
    requires i < j < |ps| && VerdictAt(d, kind, ps, i).Ok? && VerdictAt(d, kind, ps, j).Ok?
    ensures VerdictAt(d, kind, ps, i).value.tokenID != VerdictAt(d, kind, ps, j).value.tokenID
  {
    hide CheckToken, StoreAfter, Sweep;
    VerdictIsChecked(d, kind, ps, i);
    VerdictIsChecked(d, kind, ps, j);
    if VerdictAt(d, kind, ps, i).value.tokenID == VerdictAt(d, kind, ps, j).value.tokenID {
      HeldWhenPresentedAgain(d, kind, ps, i, j);
      ConsultedTokenRefused(d, kind, StoreAfter(d, kind, ps[..j]), ps[j].token, ps[j].now, ps[j].storeNow);
      assert false;
    }
  }

  lemma CheckedGrantIsValid(d: Direction, token: Token, now: Time)
    requires CheckToken(d, token, now).Ok?
    ensures CheckToken(d, token, now).value.tokenID != ""
  {
    hide OperationFactsValid, PurposeFieldsValid, RequestedOperation;
  }

  lemma CheckedBeforeExpiry(d: Direction, token: Token, now: Time)
    requires CheckToken(d, token, now).Ok?
    ensures now < CheckToken(d, token, now).value.expiresAt + d.leeway
  {
    hide CheckToken;
    CheckedGrantIsValid(d, token, now);
    VerifyFacts(d, NeverForgetting, map[], token, now, now);
  }

  /** With no leeway and one clock reading, the window check itself puts every token into the store in time. */
  lemma SharedClockStoresInTime(d: Direction, ps: seq<Presentation>)
    requires d.leeway == 0 && SharedClock(ps)
    ensures StoredInTime(d, ps)
  {
    hide CheckToken;
    forall i | 0 <= i < |ps| && CheckToken(d, ps[i].token, ps[i].now).Ok?
      ensures ps[i].storeNow < CheckToken(d, ps[i].token, ps[i].now).value.expiresAt
    {
      CheckedBeforeExpiry(d, ps[i].token, ps[i].now);
    }
  }

  // ----- from an event to its verified grant -----

  /** The verifier finds a key with the sealing secret under the key ID the token's header carries. */
  predicate KeyResolves(d: Direction)
    requires d.key.Some?
  {
    var found := KeyByID(d, Reread(d.key.value.keyID));
    && found.Some? && found.value.algorithm == d.key.value.algorithm && found.value.secret == d.key.value.secret
  }

  lemma SurvivingKeyResolves(d: Direction)
    requires d.key.Some? && d.key.value.keyID != "" && ValidUTF8(d.key.value.keyID)
    ensures KeyResolves(d)
  {
    SurvivesExactly(d.key.value.keyID);
    hide Reread, ValidUTF8;
    assert TrustedKeys(d)[0] == d.key;
  }

  /** What a direction needs for any of its own tokens to verify. */
  predicate IssuerSurvives(d: Direction)
    requires d.key.Some?
  {
    ValidUTF8(d.issuer) && ValidUTF8(d.audience) && KeyResolves(d)
  }

  predicate InIssuedWindow(d: Direction, issuedAt: Time, now: Time)
  {
    Truncate(issuedAt) - d.leeway <= now < Truncate(issuedAt) + TOKEN_LIFETIME + d.leeway
  }

  /** Neither the issue nor the expiry second is the zero time. */
  predicate SecondsNonZero(issuedAt: Time)
  {
    Truncate(issuedAt) != ZERO_TIME && Truncate(issuedAt) + TOKEN_LIFETIME != ZERO_TIME
  }

  lemma IssuedClaims(d: Direction, r: OperationGrantRequest, tokenID: string, issuedAt: Time)
    requires d.key.Some?
    ensures var g := IssuedGrant(d, r, tokenID, issuedAt);
            var claims := RereadClaims(ClaimsFromGrant(g));
            && g.keyID == d.key.value.keyID
            && claims.issuer == Reread(d.issuer) && claims.audience == [Reread(d.audience)]
            && claims.notBefore == Some(Truncate(issuedAt))
            && claims.expiresAt == Some(Truncate(issuedAt) + TOKEN_LIFETIME)
  {
    hide Reread;
    assert Truncate(issuedAt + TOKEN_LIFETIME) == Truncate(issuedAt) + TOKEN_LIFETIME;
  }

  /** The first of these keys with the sealing key's reread ID is the sealing key. */
  predicate SealingKeyFirst(keys: seq<Option<Key>>, sealing: Key)
  {
    var kid := Reread(sealing.keyID);
    && kid != ""
    && exists i | 0 <= i < |keys| ::
         FirstAt(keys, kid, i) && keys[i] == Some(Key(kid, sealing.algorithm, sealing.secret))
  }

  /** The verifying direction finds the key the token is sealed with, the active one or a retired one. */
  predicate SealingKeyFound(from: Direction, d: Direction)
    requires from.key.Some?
  {
    SealingKeyFirst((if d.key.Some? then [d.key] else []) + d.trusted, from.key.value)
  }

  lemma SealingKeyExactly(from: Direction, d: Direction)
    requires from.key.Some?
    ensures SealingKeyFound(from, d)
       <==> var found := KeyByID(d, Reread(from.key.value.keyID));
            && found.Some? && found.value.algorithm == from.key.value.algorithm
            && found.value.secret == from.key.value.secret
  {
    hide Reread, FirstKey;
    var keys, kid := TrustedKeys(d), Reread(from.key.value.keyID);
    FirstKeyExactly(keys, kid);
    if SealingKeyFound(from, d) {
      var i :| 0 <= i < |keys| && FirstAt(keys, kid, i)
               && keys[i] == Some(Key(kid, from.key.value.algorithm, from.key.value.secret));
      assert FirstKey(keys, kid) == keys[i];
    }
    if KeyByID(d, kid).Some? {
      var i :| FirstAt(keys, kid, i);
      assert keys[i].value == Key(kid, keys[i].value.algorithm, keys[i].value.secret);
    }
  }

  /** What the verifying direction needs for the issuing one's tokens of this purpose. */
  predicate Receives(from: Direction, d: Direction, purpose: GrantPurpose)
    requires from.key.Some?
  {
    && Reread(from.issuer) == d.issuer && Reread(from.audience) == d.audience && purpose in d.purposes
    && SealingKeyFound(from, d)
  }

  /** From the whole second of issue, five minutes, with the verifier's leeway on both sides. */
  predicate InTokenWindow(d: Direction, issuedAt: Time, now: Time)
  {
    && Truncate(issuedAt) - d.leeway <= now < Truncate(issuedAt) + 300_000_000_000 + d.leeway
  }

  lemma TokenChecks(from: Direction, d: Direction, r: OperationGrantRequest, tokenID: string, issuedAt: Time, now: Time)
    requires ValidForIssue(from) && ValidForVerify(d) && IssueOperationGrant(from, r, tokenID, issuedAt).Ok?
    requires SecondsNonZero(issuedAt)
    ensures var checked := CheckToken(d, IssueOperationGrant(from, r, tokenID, issuedAt).value.token, now);
            && (checked.Ok? <==> Receives(from, d, r.purpose) && InTokenWindow(d, issuedAt, now))
            && (checked.Ok? ==>
                  checked.value == Decoded(IssuedGrant(from, r, tokenID, issuedAt), Reread(from.key.value.keyID)))
  {
    hide ValidPurposes, ValidOperationGrant, GrantFromClaims, Reread, ValidUTF8, Decoded, RequestSurvives, FirstKey,
         IssuedGrant, ClaimsFromGrant, RereadClaims, ValidIssuedOperationGrantForRequest, ValidOperationGrantRequest,
         SealingKeyFound;
    var kid := Reread(from.key.value.keyID);
    IssueSucceedsExactly(from, r, tokenID, issuedAt);
    IssuedGrantRoundTrip(from, r, tokenID, issuedAt, kid);
    IssuedClaims(from, r, tokenID, issuedAt);
    SealingKeyExactly(from, d);
    if KeyByID(d, kid).Some? {
      FirstKeyIsTrusted(TrustedKeys(d), kid);
    }
  }

  /** A token of one direction is verified by the verifier of another exactly when that one expects the reread issuer
      and audience, permits the purpose and finds the sealing key, the clock is in the whole-second window and the
      token's ID is not held. The grant handed back fits the original request exactly when every text survives. */
  lemma TokenVerifies(from: Direction, d: Direction, kind: StoreKind, r: OperationGrantRequest, tokenID: string,
                      issuedAt: Time, seen: Entries, now: Time, storeNow: Time)
    requires ValidForIssue(from) && ValidForVerify(d) && IssueOperationGrant(from, r, tokenID, issuedAt).Ok?
    requires SecondsNonZero(issuedAt)
    ensures var token := IssueOperationGrant(from, r, tokenID, issuedAt).value.token;
            var verdict := Verify(d, kind, seen, token, now, storeNow).1;
            && (verdict.Ok? <==>
                  && Receives(from, d, r.purpose) && InTokenWindow(d, issuedAt, now)
                  && Reread(tokenID) !in Consulted(kind, seen, storeNow))
            && (verdict.Ok? ==>
                  && verdict.value == Decoded(IssuedGrant(from, r, tokenID, issuedAt), Reread(from.key.value.keyID))
                  && (ValidIssuedOperationGrantForRequest(verdict.value, r) <==> RequestSurvives(r)))
  {
    hide CheckToken, ValidPurposes, ValidOperationGrant, RequestedOperation, Reread, ValidUTF8, Decoded,
         RequestSurvives, Receives, ValidForVerify, IssuedGrant, SignGrant;
    IssueSucceedsExactly(from, r, tokenID, issuedAt);
    TokenChecks(from, d, r, tokenID, issuedAt, now);
    IssuedGrantRoundTrip(from, r, tokenID, issuedAt, Reread(from.key.value.keyID));
  }

  /** After a rotation: a direction with a new active key of another ID and the old key among those it trusts finds
      the old key exactly as it found it before. */
  lemma RotatedKeyFound(from: Direction, d: Direction, i: nat)
    requires from.key.Some? && from.key.value.keyID != "" && ValidUTF8(from.key.value.keyID)
    requires d.key.Some? && d.key.value.keyID != from.key.value.keyID
    requires i < |d.trusted| && d.trusted[i] == from.key
    requires forall j | 0 <= j < i && d.trusted[j].Some? :: d.trusted[j].value.keyID != from.key.value.keyID
    ensures SealingKeyFound(from, d)
  {
    SurvivesExactly(from.key.value.keyID);
    hide Reread, ValidUTF8;
    var kid := from.key.value.keyID;
    var keys := [d.key] + d.trusted;
    forall j | 0 <= j < i + 1 && keys[j].Some? ensures keys[j].value.keyID != kid {
      assert j > 0 ==> keys[j] == d.trusted[j - 1];
    }
    assert keys[i + 1] == d.trusted[i] && FirstAt(keys, kid, i + 1);
    assert from.key.value == Key(kid, from.key.value.algorithm, from.key.value.secret);
  }

  lemma OwnTokensReceived(d: Direction, r: OperationGrantRequest, tokenID: string, issuedAt: Time)
    requires ValidForIssue(d) && IssueOperationGrant(d, r, tokenID, issuedAt).Ok?
    ensures Receives(d, d, r.purpose) <==> IssuerSurvives(d)
  {
    hide ValidPurposes, Reread, ValidUTF8, SealingKeyFound, ValidOperationGrantRequest, ValidOperationGrant,
         IssuedGrant, SignGrant;
    SealingKeyExactly(d, d);
    SurvivesExactly(d.issuer);
    SurvivesExactly(d.audience);
  }

  /** A token is verified by the verifier of its own direction exactly when issuer and audience survive JSON, the
      reread key ID resolves to the sealing key, the clock is in its whole-second window and its ID is not held. The
      grant handed back fits the original request exactly when every text of the request survives. */
  lemma IssuedTokenVerifies(d: Direction, kind: StoreKind, r: OperationGrantRequest, tokenID: string, issuedAt: Time,
                            seen: Entries, now: Time, storeNow: Time)
    requires ValidForIssue(d) && ValidForVerify(d) && IssueOperationGrant(d, r, tokenID, issuedAt).Ok?
    requires SecondsNonZero(issuedAt)
    ensures var token := IssueOperationGrant(d, r, tokenID, issuedAt).value.token;
            var verdict := Verify(d, kind, seen, token, now, storeNow).1;
            && (verdict.Ok? <==>
                  && IssuerSurvives(d) && InIssuedWindow(d, issuedAt, now)
                  && Reread(tokenID) !in Consulted(kind, seen, storeNow))
            && (verdict.Ok? ==>
                  && verdict.value == Decoded(IssuedGrant(d, r, tokenID, issuedAt), Reread(d.key.value.keyID))
                  && (ValidIssuedOperationGrantForRequest(verdict.value, r) <==> RequestSurvives(r)))
  {
    hide CheckToken, ValidForIssue, ValidForVerify, Reread, Decoded, RequestSurvives, Receives, IssuerSurvives, Verify,
         IssuedGrant, IssueOperationGrant, ValidIssuedOperationGrantForRequest, Truncate;
    IssuerHasKey(d);
    TokenVerifies(d, d, kind, r, tokenID, issuedAt, seen, now, storeNow);
    OwnTokensReceived(d, r, tokenID, issuedAt);
  }

  /** No run of the direction's verifier over the sweeping store verifies a token ID twice, under one advancing
      clock and token IDs that determine their expiry. */
  ghost predicate VerifiesEachTokenOnce(d: Direction)
  {
    forall ps: seq<Presentation>, i: nat, j: nat
      {:trigger VerdictAt(d, Sweeping, ps, i), VerdictAt(d, Sweeping, ps, j)} ::
      SharedClock(ps) && StoreClockAdvances(ps) && TokenIDsDetermineExpiry(d, ps) && i < j < |ps|
      && VerdictAt(d, Sweeping, ps, i).Ok? && VerdictAt(d, Sweeping, ps, j).Ok? ==>
        VerdictAt(d, Sweeping, ps, i).value.tokenID != VerdictAt(d, Sweeping, ps, j).value.tokenID
  }

  lemma TwiceInARow(d: Direction, p: Presentation)
    requires Verify(d, Sweeping, map[], p.token, p.now, p.storeNow).1.Ok?
    requires Verify(d, Sweeping, map[], p.token, p.now, p.storeNow).1.value.expiresAt <= p.storeNow
    ensures StoreClockAdvances([p, p]) && TokenIDsDetermineExpiry(d, [p, p])
    ensures VerdictAt(d, Sweeping, [p, p], 0) == VerdictAt(d, Sweeping, [p, p], 1)
         == Verify(d, Sweeping, map[], p.token, p.now, p.storeNow).1
  {
    ImmediateReplayRefusedExactly(d, Sweeping, map[], p.token, p.now, p.storeNow);
    hide CheckToken, Verify;
    assert [p, p][..0] == [] && [p, p][..1] == [p] && [p][..0] == [];
    assert StoreAfter(d, Sweeping, [p]) == Verify(d, Sweeping, map[], p.token, p.now, p.storeNow).0;
  }

  /** The run that breaks the rule: an issued token presented twice inside its window while the sweeping store's
      clock has reached the token's expiry. */
  lemma LateStoreVerifiesTwice(d: Direction, r: OperationGrantRequest, tokenID: string, issuedAt: Time, now: Time,
                               storeNow: Time)
    requires ValidForIssue(d) && ValidForVerify(d) && IssueOperationGrant(d, r, tokenID, issuedAt).Ok?
    requires SecondsNonZero(issuedAt) && IssuerSurvives(d)
    requires InIssuedWindow(d, issuedAt, now) && Truncate(issuedAt) + TOKEN_LIFETIME <= storeNow
    ensures var token := IssueOperationGrant(d, r, tokenID, issuedAt).value.token;
            var p := Presentation(token, now, storeNow);
            && StoreClockAdvances([p, p]) && TokenIDsDetermineExpiry(d, [p, p])
            && VerdictAt(d, Sweeping, [p, p], 0).Ok?
            && VerdictAt(d, Sweeping, [p, p], 1) == VerdictAt(d, Sweeping, [p, p], 0)
  {
    hide CheckToken, Verify, VerdictAt, TokenIDsDetermineExpiry, ValidForIssue, ValidForVerify, Reread, ValidUTF8,
         KeyResolves, IssuedGrant, Decoded, RequestSurvives, IssueOperationGrant, RereadClaims, ClaimsFromGrant,
         GrantFromClaims, ValidIssuedOperationGrantForRequest, ValidOperationGrant;
    var token := IssueOperationGrant(d, r, tokenID, issuedAt).value.token;
    assert d.key.Some? by {
      IssuerHasKey(d);
    }
    IssuedTokenVerifies(d, Sweeping, r, tokenID, issuedAt, map[], now, storeNow);
    assert Sweep(map[], storeNow) == map[];
    IssuedGrantRoundTrip(d, r, tokenID, issuedAt, Reread(d.key.value.keyID));
    TwiceInARow(d, Presentation(token, now, storeNow));
  }

  /** For a direction whose own tokens verify: over the sweeping store and one clock, each token is verified at
      most once exactly when there is no leeway. */
  lemma EachTokenOnceExactlyWithoutLeeway(d: Direction, r: OperationGrantRequest, tokenID: string, issuedAt: Time)
    requires ValidForIssue(d) && ValidForVerify(d) && IssueOperationGrant(d, r, tokenID, issuedAt).Ok?
    requires SecondsNonZero(issuedAt) && IssuerSurvives(d)
    ensures VerifiesEachTokenOnce(d) <==> d.leeway == 0
  {
    hide CheckToken, Verify, ValidPurposes, IssueOperationGrant, KeyResolves, ValidUTF8, TokenIDsDetermineExpiry,
         StoredInTime, VerdictAt;
    if d.leeway == 0 {
      forall ps: seq<Presentation>, i: nat, j: nat
        | SharedClock(ps) && StoreClockAdvances(ps) && TokenIDsDetermineExpiry(d, ps) && i < j < |ps|
          && VerdictAt(d, Sweeping, ps, i).Ok? && VerdictAt(d, Sweeping, ps, j).Ok?
        ensures VerdictAt(d, Sweeping, ps, i).value.tokenID != VerdictAt(d, Sweeping, ps, j).value.tokenID
      {
        SharedClockStoresInTime(d, ps);
        VerifiedAtMostOnce(d, Sweeping, ps, i, j);
      }
    } else {
      var expiry := Truncate(issuedAt) + TOKEN_LIFETIME;
      LateStoreVerifiesTwice(d, r, tokenID, issuedAt, expiry, expiry);
    }
  }

  /** The second reading matters even without a leeway: a token judged an instant before its expiry and stored at
      its expiry is verified twice. */
  lemma SecondClockReadingVerifiesTwice(d: Direction, r: OperationGrantRequest, tokenID: string, issuedAt: Time)
    requires ValidForIssue(d) && ValidForVerify(d) && IssueOperationGrant(d, r, tokenID, issuedAt).Ok?
    requires SecondsNonZero(issuedAt) && IssuerSurvives(d)
    ensures var token := IssueOperationGrant(d, r, tokenID, issuedAt).value.token;
            var expiry := Truncate(issuedAt) + TOKEN_LIFETIME;
            var p := Presentation(token, expiry - 1, expiry);
            && VerdictAt(d, Sweeping, [p, p], 0).Ok?
            && VerdictAt(d, Sweeping, [p, p], 1) == VerdictAt(d, Sweeping, [p, p], 0)
  {
    hide CheckToken, Verify, ValidPurposes, IssueOperationGrant, KeyResolves, ValidUTF8, VerdictAt;
    var expiry := Truncate(issuedAt) + TOKEN_LIFETIME;
    LateStoreVerifiesTwice(d, r, tokenID, issuedAt, expiry - 1, expiry);
  }

  /** The store's reading is at most `skew` after the one that judged the window. */
  predicate SkewedBy(ps: seq<Presentation>, skew: int)
  {
    forall i | 0 <= i < |ps| :: ps[i].storeNow <= ps[i].now + skew
  }

  /** As above, over two clock readings no further apart than the skew. */
  ghost predicate VerifiesEachTokenOnceWithin(d: Direction, skew: int)
  {
    forall ps: seq<Presentation>, i: nat, j: nat
      {:trigger SkewedBy(ps, skew), VerdictAt(d, Sweeping, ps, i), VerdictAt(d, Sweeping, ps, j)} ::
      SkewedBy(ps, skew) && StoreClockAdvances(ps) && TokenIDsDetermineExpiry(d, ps) && i < j < |ps|
      && VerdictAt(d, Sweeping, ps, i).Ok? && VerdictAt(d, Sweeping, ps, j).Ok? ==>
        VerdictAt(d, Sweeping, ps, i).value.tokenID != VerdictAt(d, Sweeping, ps, j).value.tokenID
  }

  lemma SmallSkewStoresInTime(d: Direction, ps: seq<Presentation>, skew: int)
    requires d.leeway + skew <= 0 && SkewedBy(ps, skew)
    ensures StoredInTime(d, ps)
  {
    hide CheckToken;
    forall i | 0 <= i < |ps| && CheckToken(d, ps[i].token, ps[i].now).Ok?
      ensures ps[i].storeNow < CheckToken(d, ps[i].token, ps[i].now).value.expiresAt
    {
      CheckedBeforeExpiry(d, ps[i].token, ps[i].now);
    }
  }

  /** The latest presentation inside the window that still reaches the store at the expiry or later. */
  lemma LatePresentationVerifiesTwice(d: Direction, r: OperationGrantRequest, tokenID: string, issuedAt: Time,
                                      skew: int)
    requires ValidForIssue(d) && ValidForVerify(d) && IssueOperationGrant(d, r, tokenID, issuedAt).Ok?
    requires SecondsNonZero(issuedAt) && IssuerSurvives(d) && d.leeway + skew > 0
    ensures var token := IssueOperationGrant(d, r, tokenID, issuedAt).value.token;
            var last := Truncate(issuedAt) + TOKEN_LIFETIME + d.leeway - 1;
            var p := Presentation(token, last, last + skew);
            && SkewedBy([p, p], skew) && StoreClockAdvances([p, p]) && TokenIDsDetermineExpiry(d, [p, p])
            && VerdictAt(d, Sweeping, [p, p], 0).Ok?
            && VerdictAt(d, Sweeping, [p, p], 1) == VerdictAt(d, Sweeping, [p, p], 0)
  {
    hide CheckToken, Verify, ValidPurposes, IssueOperationGrant, KeyResolves, ValidUTF8, VerdictAt,
         TokenIDsDetermineExpiry;
    var last := Truncate(issuedAt) + TOKEN_LIFETIME + d.leeway - 1;
    LateStoreVerifiesTwice(d, r, tokenID, issuedAt, last, last + skew);
  }

  /** For a direction whose own tokens verify: over the sweeping store and two clock readings at most `skew` apart,
      each token is verified at most once exactly when leeway and skew together are not positive. */
  lemma EachTokenOnceExactlyWithin(d: Direction, r: OperationGrantRequest, tokenID: string, issuedAt: Time, skew: int)
    requires ValidForIssue(d) && ValidForVerify(d) && IssueOperationGrant(d, r, tokenID, issuedAt).Ok?
    requires SecondsNonZero(issuedAt) && IssuerSurvives(d)
    ensures VerifiesEachTokenOnceWithin(d, skew) <==> d.leeway + skew <= 0
  {
    hide CheckToken, Verify, ValidPurposes, IssueOperationGrant, KeyResolves, ValidUTF8, TokenIDsDetermineExpiry,
         StoredInTime, VerdictAt, SkewedBy;
    if d.leeway + skew <= 0 {
      forall ps: seq<Presentation>, i: nat, j: nat
        | SkewedBy(ps, skew) && StoreClockAdvances(ps) && TokenIDsDetermineExpiry(d, ps) && i < j < |ps|
          && VerdictAt(d, Sweeping, ps, i).Ok? && VerdictAt(d, Sweeping, ps, j).Ok?
        ensures VerdictAt(d, Sweeping, ps, i).value.tokenID != VerdictAt(d, Sweeping, ps, j).value.tokenID
      {
        SmallSkewStoresInTime(d, ps, skew);
        VerifiedAtMostOnce(d, Sweeping, ps, i, j);
      }
    } else {
      LatePresentationVerifiesTwice(d, r, tokenID, issuedAt, skew);
    }
  }

  lemma KnownEventKind(event: ExecutionEvent)
    requires EventBodyValid(event)
    ensures !event.kind.UnknownEventKind?
  {
  }

  lemma TransportDigestValid(lib: Library, contentType: string, rawBody: string)
    ensures ValidSHA256Digest(DigestOf(lib.sha256, RAW_TRANSPORT_DOMAIN, [contentType, rawBody]))
  {
  }

  lemma EventRequestAccepted(lib: Library, event: ExecutionEvent, method_: string, resource: string,
                             contentType: string, rawBody: string)
    requires ValidExecutionEvent(lib, event)
    requires ValidOpaqueTransportShape(lib, method_, resource, contentType, rawBody)
    ensures NewExecutionEventGrantRequest(lib, event, method_, resource, contentType, rawBody).Some?
  {
    hide DigestOf, ValidSHA256Digest, EventBodyValid, ValidSourceObjectID;
    assert EventBodyValid(event);
    KnownEventKind(event);
    assert ValidSHA256Digest(DigestOf(lib.sha256, RAW_TRANSPORT_DOMAIN, [contentType, rawBody])) by {
      TransportDigestValid(lib, contentType, rawBody);
    }
  }

  /** The texts an event grant carries besides its digests and its method. */
  predicate EventTextsSurvive(event: ExecutionEvent, resource: string, contentType: string)
  {
    && ValidUTF8(event.providerID) && ValidUTF8(event.adapterID) && ValidUTF8(event.competitionID)
    && ValidUTF8(event.contestID) && ValidUTF8(event.requestID) && ValidUTF8(event.providerInstanceID)
    && ValidUTF8(event.commandID) && ValidUTF8(resource) && ValidUTF8(contentType)
  }

  lemma DigestsAreUTF8(s: string)
    requires s == "" || ValidSHA256Digest(s)
    ensures ValidUTF8(s)
  {
    hide Reread, ValidUTF8, ValidSHA256Digest;
    ConstrainedTextsSurvive();
    SurvivesExactly(s);
  }

  lemma MethodsAreUTF8(lib: Library, method_: string, resource: string, contentType: string, rawBody: string)
    requires ValidOpaqueTransportShape(lib, method_, resource, contentType, rawBody)
    ensures ValidUTF8(method_)
  {
    hide Reread, ValidUTF8;
    AsciiSurvives(method_);
    SurvivesExactly(method_);
  }

  lemma EventRequestSurvivesExactly(lib: Library, event: ExecutionEvent, method_: string, resource: string,
                                    contentType: string, rawBody: string)
    requires ValidExecutionEvent(lib, event)
    requires ValidOpaqueTransportShape(lib, method_, resource, contentType, rawBody)
    ensures var request := NewExecutionEventGrantRequest(lib, event, method_, resource, contentType, rawBody);
            && request.Some? && request.value.purpose == EventGrantPurpose(event.kind)
            && (RequestSurvives(request.value) <==> EventTextsSurvive(event, resource, contentType))
  {
    hide ValidUTF8, DigestOf, ValidSHA256Digest, EventBodyValid, ValidOperationGrantRequest;
    EventRequestAccepted(lib, event, method_, resource, contentType, rawBody);
    KnownEventKind(event);
    TransportDigestValid(lib, contentType, rawBody);
    MethodsAreUTF8(lib, method_, resource, contentType, rawBody);
    DigestsAreUTF8("");
    DigestsAreUTF8(event.typedPayloadDigest);
    DigestsAreUTF8(DigestOf(lib.sha256, RAW_TRANSPORT_DOMAIN, [contentType, rawBody]));
  }

  /** The receiver builds the route from what it received and accepts the grant for the event. */
  predicate EventAccepted(lib: Library, d: Direction, event: ExecutionEvent, method_: string, resource: string,
                          contentType: string, rawBody: string, g: OperationGrant)
  {
    var route := RouteBinding(lib, d, g.purpose, event.providerID, event.adapterID, contentType, rawBody, method_,
                              resource);
    route.Some? && ValidEventGrantForEvent(lib, g, route.value, event)
  }

  /** A verified grant is accepted for its event exactly when it asks for the event's own request and carries the
      direction's identity. */
  lemma EventGrantAccepted(lib: Library, d: Direction, event: ExecutionEvent, method_: string, resource: string,
                           contentType: string, rawBody: string, g: OperationGrant)
    requires var request := NewExecutionEventGrantRequest(lib, event, method_, resource, contentType, rawBody);
             && request.Some? && g.purpose == request.value.purpose && Permits(d, request.value.purpose)
             && NoSourceFields(RequestedOperation(g)) && ValidOperationGrant(g)
    requires d.issuer != "" && d.subject != "" && d.audience != ""
    ensures EventAccepted(lib, d, event, method_, resource, contentType, rawBody, g)
       <==> && ValidIssuedOperationGrantForRequest(
                 g, NewExecutionEventGrantRequest(lib, event, method_, resource, contentType, rawBody).value)
            && g.issuer == d.issuer && g.subject == d.subject && g.audience == d.audience
  {
    hide DigestOf, ValidSHA256Digest, ValidExecutionEvent, ValidOpaqueTransportShape, ValidSourceObjectID;
  }

  lemma EventRequestIsValid(lib: Library, event: ExecutionEvent, method_: string, resource: string,
                            contentType: string, rawBody: string)
    requires NewExecutionEventGrantRequest(lib, event, method_, resource, contentType, rawBody).Some?
    ensures var request := NewExecutionEventGrantRequest(lib, event, method_, resource, contentType, rawBody).value;
            ValidOperationGrantRequest(request) && NoSourceFields(request)
  {
    hide ValidOperationGrantRequest, ValidExecutionEvent, ValidOpaqueTransportShape, DigestOf;
  }

  lemma NoSourceFieldsReread(r: OperationGrantRequest)
    requires NoSourceFields(r)
    ensures NoSourceFields(RereadRequest(r))
  {
    hide Reread;
  }

  lemma DecodedEventGrant(lib: Library, d: Direction, event: ExecutionEvent, method_: string, resource: string,
                          contentType: string, rawBody: string, tokenID: string, issuedAt: Time)
    requires ValidForIssue(d)
    requires NewExecutionEventGrantRequest(lib, event, method_, resource, contentType, rawBody).Some?
    requires var request := NewExecutionEventGrantRequest(lib, event, method_, resource, contentType, rawBody).value;
             && IssueOperationGrant(d, request, tokenID, issuedAt).Ok? && SecondsNonZero(issuedAt)
             && Reread(d.key.value.keyID) != ""
    ensures var request := NewExecutionEventGrantRequest(lib, event, method_, resource, contentType, rawBody).value;
            var g := Decoded(IssuedGrant(d, request, tokenID, issuedAt), Reread(d.key.value.keyID));
            && g.purpose == request.purpose && NoSourceFields(RequestedOperation(g)) && ValidOperationGrant(g)
            && g.issuer == Reread(d.issuer) && g.subject == Reread(d.subject) && g.audience == Reread(d.audience)
  {
    hide Reread, IssueOperationGrant, NewExecutionEventGrantRequest, NoSourceFields, ValidOperationGrant,
         ValidOperationGrantRequest, RereadRequest;
    var request := NewExecutionEventGrantRequest(lib, event, method_, resource, contentType, rawBody).value;
    EventRequestIsValid(lib, event, method_, resource, contentType, rawBody);
    IssuedGrantRoundTrip(d, request, tokenID, issuedAt, Reread(d.key.value.keyID));
    DecodedFields(d, request, tokenID, issuedAt, Reread(d.key.value.keyID));
    NoSourceFieldsReread(request);
  }

  /** For a valid event and transport and a permitted purpose, a grant is requested, issued, verified inside the
      window, routed and accepted for that same event exactly when issuer, subject and audience of the direction, the
      identities of the event, the resource and the content type survive JSON and the reread key ID resolves to the
      sealing key. */
  lemma EventGrantChain(lib: Library, d: Direction, kind: StoreKind, event: ExecutionEvent, method_: string,
                        resource: string, contentType: string, rawBody: string, tokenID: string, issuedAt: Time,
                        seen: Entries, now: Time, storeNow: Time)
    requires ValidForIssue(d) && ValidForVerify(d) && d.key.value.keyID != "" && tokenID != ""
    requires ValidExecutionEvent(lib, event)
    requires ValidOpaqueTransportShape(lib, method_, resource, contentType, rawBody)
    requires Permits(d, EventGrantPurpose(event.kind))
    requires issuedAt != ZERO_TIME && issuedAt + TOKEN_LIFETIME != ZERO_TIME && SecondsNonZero(issuedAt)
    requires InIssuedWindow(d, issuedAt, now) && Reread(tokenID) !in Consulted(kind, seen, storeNow)
    ensures var request := NewExecutionEventGrantRequest(lib, event, method_, resource, contentType, rawBody);
            && request.Some?
            && var issued := IssueOperationGrant(d, request.value, tokenID, issuedAt);
            && issued.Ok?
            && var verdict := Verify(d, kind, seen, issued.value.token, now, storeNow).1;
            && (verdict.Ok? <==> IssuerSurvives(d))
            && (verdict.Ok? && EventAccepted(lib, d, event, method_, resource, contentType, rawBody, verdict.value)
                <==> && IssuerSurvives(d) && ValidUTF8(d.subject)
                     && EventTextsSurvive(event, resource, contentType))
  {
    hide DigestOf, ValidSHA256Digest, ValidPurposes, CheckToken, Verify, Sweep, IssuedGrant, Reread, ValidUTF8,
         KeyResolves, Decoded, RequestSurvives, EventAccepted, ValidOperationGrant, EventTextsSurvive,
         ValidExecutionEvent, ValidOpaqueTransportShape, NewExecutionEventGrantRequest, IssueOperationGrant,
         ValidIssuedOperationGrantForRequest, RequestedOperation;
    EventRequestSurvivesExactly(lib, event, method_, resource, contentType, rawBody);
    var request := NewExecutionEventGrantRequest(lib, event, method_, resource, contentType, rawBody).value;
    EventRequestIsValid(lib, event, method_, resource, contentType, rawBody);
    IssueSucceedsExactly(d, request, tokenID, issuedAt);
    IssuedTokenVerifies(d, kind, request, tokenID, issuedAt, seen, now, storeNow);
    if IssuerSurvives(d) {
      DecodedEventGrant(lib, d, event, method_, resource, contentType, rawBody, tokenID, issuedAt);
      var g := Decoded(IssuedGrant(d, request, tokenID, issuedAt), Reread(d.key.value.keyID));
      EventGrantAccepted(lib, d, event, method_, resource, contentType, rawBody, g);
      SurvivesExactly(d.issuer);
      SurvivesExactly(d.subject);
      SurvivesExactly(d.audience);
    }
  }

  /** A resource with a stray byte passes the transport check, and its grant is issued and verified, but the event
      it was issued for is refused. */
  lemma StrayByteLosesEvent(lib: Library, d: Direction, kind: StoreKind, event: ExecutionEvent, method_: string,
                            contentType: string, rawBody: string, tokenID: string, issuedAt: Time, seen: Entries,
                            now: Time, storeNow: Time)
    requires ValidForIssue(d) && ValidForVerify(d) && d.key.value.keyID != "" && tokenID != "" && IssuerSurvives(d)
    requires ValidExecutionEvent(lib, event) && ValidOpaqueTransportShape(lib, method_, "/", contentType, rawBody)
    requires Permits(d, EventGrantPurpose(event.kind))
    requires issuedAt != ZERO_TIME && issuedAt + TOKEN_LIFETIME != ZERO_TIME && SecondsNonZero(issuedAt)
    requires InIssuedWindow(d, issuedAt, now) && Reread(tokenID) !in Consulted(kind, seen, storeNow)
    ensures var resource := "/\U{FF}";
            var request := NewExecutionEventGrantRequest(lib, event, method_, resource, contentType, rawBody);
            && ValidOpaqueTransportShape(lib, method_, resource, contentType, rawBody) && request.Some?
            && var issued := IssueOperationGrant(d, request.value, tokenID, issuedAt);
            && issued.Ok?
            && var verdict := Verify(d, kind, seen, issued.value.token, now, storeNow).1;
            verdict.Ok? && !EventAccepted(lib, d, event, method_, resource, contentType, rawBody, verdict.value)
  {
    hide Verify, IssueOperationGrant, NewExecutionEventGrantRequest, Reread, ValidUTF8, EventAccepted, KeyResolves,
         ValidExecutionEvent, Sweep, ValidPurposes;
    var resource := "/\U{FF}";
    assert ValidOpaqueTransportShape(lib, method_, resource, contentType, rawBody);
    StrayByteIsReplaced('\U{FF}');
    assert "/" + ['\U{FF}'] == resource;
    SurvivesExactly(resource);
    EventGrantChain(lib, d, kind, event, method_, resource, contentType, rawBody, tokenID, issuedAt, seen, now,
                    storeNow);
  }
}
