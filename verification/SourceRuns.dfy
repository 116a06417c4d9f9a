/** Every run of the reference source provider: the ledger, acceptances and replays. */
module SourceRuns {
  import opened Primitives
  import opened ContractTypes
  import opened DigestFraming
  import opened CanonicalPath
  import opened SourceOperations
  import opened OperationGrants
  import opened SourceProvider

  /** Fixed facts under which every plan the provider makes is valid and every receipt well formed. */
  ghost predicate SetupValid(x: Setup)
  {
    && x.planID != "" && x.planFiles != [] && PlannedFilesValid(x.planFiles) && x.aggregateByteLimit != 0
    && (forall plan: ClosurePlan :: x.lib.marshal(ClosurePlanJson(plan)).Some?)
    && ValidSHA256Digest(x.artifactDigest) && x.verifiedAt != ZERO_TIME && x.publishedAt != ZERO_TIME
    && x.lib.validPublicReference(x.publicReference)
  }

  lemma PlanValidates(x: Setup, plan: ClosurePlan, digest: string)
    requires PlannedFilesValid(plan.files) && PlanHeaderValid(plan.(closurePlanDigest := digest))
    requires DigestJSON(x.lib, CLOSURE_PLAN_DOMAIN, ClosurePlanJson(plan.(closurePlanDigest := ""))) == Some(digest)
    ensures NewClosurePlan(x.lib, plan) == Some(plan.(closurePlanDigest := digest))
  {
    hide PlannedFilesValid, PlanHeaderValid, DigestJSON;
    var value := plan.(closurePlanDigest := digest);
    assert value.(closurePlanDigest := "") == plan.(closurePlanDigest := "");
  }

  lemma DigestsAreValid(lib: Library, domain: string, encoded: string)
    ensures ValidSHA256Digest(DigestOf(lib.sha256, domain, [encoded]))
  {
    hide Preimage;
  }

  lemma PlansAreMade(x: Setup, request: ManifestClosurePlanRequest)
    requires SetupValid(x) && ValidManifestClosurePlanRequest(x.lib, request)
    ensures PlanFor(x, request).Some?
    ensures ValidClosurePlanReceiptForRequest(x.lib, PlannedReceipt(request, PlanFor(x, request).value), request)
  {
    hide PlannedFilesValid, ValidCanonicalSourcePath, ValidSourceObjectID, DigestOf, NewClosurePlan, ValidSHA256Digest;
    var plan := PlanDraft(x, request);
    var encoded := x.lib.marshal(ClosurePlanJson(plan)).value;
    var digest := DigestOf(x.lib.sha256, CLOSURE_PLAN_DOMAIN, [encoded]);
    assert ValidSHA256Digest(digest) by {
      DigestsAreValid(x.lib, CLOSURE_PLAN_DOMAIN, encoded);
    }
    PlanValidates(x, plan, digest);
  }

  // ----- the ledger -----

  /** The stage's stored request digests are exactly the ledger's entries of its purpose. */
  predicate StageAgrees(commands: map<string, CommandRecord>, purpose: GrantPurpose, digests: map<string, string>)
  {
    && (forall c | c in digests :: c in commands && commands[c] == CommandRecord(purpose, digests[c]))
    && forall c | c in commands && commands[c].purpose == purpose :: c in digests
  }

  function PlanDigests(receipts: map<string, ClosurePlanReceipt>): map<string, string>
  {
    map c | c in receipts :: receipts[c].requestPayloadDigest
  }

  function CandidateDigests(receipts: map<string, ArtifactRetentionReceipt>): map<string, string>
  {
    map c | c in receipts :: receipts[c].candidateRequestDigest
  }

  function DisclosureDigests(records: map<string, DisclosureRecord>): map<string, string>
  {
    map c | c in records :: records[c].receipt.verificationRequestDigest
  }

  function PublicationDigests(receipts: map<string, ArtifactPublicationReceipt>): map<string, string>
  {
    map c | c in receipts :: receipts[c].publicationRequestDigest
  }

  predicate FourPurposes(commands: map<string, CommandRecord>)
  {
    forall c | c in commands ::
      commands[c].purpose in {ManifestClosurePlan, CandidateValidateRetain, ArtifactDisclosureVerify, ArtifactPublish}
  }

  /** `disclosureIDs` is `disclosures` with every command written as its receipt ID. */
  predicate DisclosureIDsAgree(disclosures: map<string, DisclosureRecord>, disclosureIDs: map<string, DisclosureRecord>)
  {
    && (forall c | c in disclosures ::
          && DisclosureID(c) in disclosureIDs && disclosureIDs[DisclosureID(c)] == disclosures[c]
          && disclosures[c].receipt.receiptID == DisclosureID(c) && disclosures[c].request.commandID == c)
    && forall id | id in disclosureIDs :: exists c :: c in disclosures && id == DisclosureID(c)
  }

  predicate LedgerAgrees(s: SourceState)
  {
    && FourPurposes(s.commands)
    && StageAgrees(s.commands, ManifestClosurePlan, PlanDigests(s.planCommands))
    && StageAgrees(s.commands, CandidateValidateRetain, CandidateDigests(s.candidates))
    && StageAgrees(s.commands, ArtifactDisclosureVerify, DisclosureDigests(s.disclosures))
    && StageAgrees(s.commands, ArtifactPublish, PublicationDigests(s.publications))
    && DisclosureIDsAgree(s.disclosures, s.disclosureIDs)
  }

  lemma LedgerAt(s: SourceState, c: string)
    requires LedgerAgrees(s)
    ensures c in s.planCommands <==> c in s.commands && s.commands[c].purpose == ManifestClosurePlan
    ensures c in s.candidates <==> c in s.commands && s.commands[c].purpose == CandidateValidateRetain
    ensures c in s.disclosures <==> c in s.commands && s.commands[c].purpose == ArtifactDisclosureVerify
    ensures c in s.publications <==> c in s.commands && s.commands[c].purpose == ArtifactPublish
    ensures c in s.commands ==> c in s.planCommands || c in s.candidates || c in s.disclosures || c in s.publications
  {
    hide DisclosureIDsAgree;
    assert c in PlanDigests(s.planCommands) <==> c in s.planCommands;
    assert c in CandidateDigests(s.candidates) <==> c in s.candidates;
    assert c in DisclosureDigests(s.disclosures) <==> c in s.disclosures;
    assert c in PublicationDigests(s.publications) <==> c in s.publications;
  }

  /** An agreeing ledger is the disjoint union of the four receipt maps. */
  lemma LedgerIsDisjointUnion(s: SourceState)
    requires LedgerAgrees(s)
    ensures s.planCommands.Keys !! s.candidates.Keys !! s.disclosures.Keys !! s.publications.Keys
    ensures s.commands.Keys == s.planCommands.Keys + s.candidates.Keys + s.disclosures.Keys + s.publications.Keys
  {
    hide LedgerAgrees;
    forall c: string
      ensures c in s.commands <==> c in s.planCommands || c in s.candidates || c in s.disclosures || c in s.publications
      ensures c in s.planCommands ==> c !in s.candidates && c !in s.disclosures && c !in s.publications
      ensures c in s.candidates ==> c !in s.disclosures && c !in s.publications
      ensures c in s.disclosures ==> c !in s.publications
    {
      LedgerAt(s, c);
    }
  }

  lemma StageGrows(commands: map<string, CommandRecord>, purpose: GrantPurpose, digests: map<string, string>,
                   c: string, entry: CommandRecord)
    requires c !in commands && StageAgrees(commands, purpose, digests)
    ensures StageAgrees(commands[c := entry], purpose,
                        if entry.purpose == purpose then digests[c := entry.digest] else digests)
  {
  }

  lemma DisclosureIDInjective(a: string, b: string)
    requires DisclosureID(a) == DisclosureID(b)
    ensures a == b
  {
    assert DisclosureID(a)[|DISCLOSURE_PREFIX|..] == a && DisclosureID(b)[|DISCLOSURE_PREFIX|..] == b;
  }

  lemma DisclosureIDsGrow(disclosures: map<string, DisclosureRecord>, disclosureIDs: map<string, DisclosureRecord>,
                          c: string, record: DisclosureRecord)
    requires DisclosureIDsAgree(disclosures, disclosureIDs)
    requires record.receipt.receiptID == DisclosureID(c) && record.request.commandID == c
    ensures DisclosureIDsAgree(disclosures[c := record], disclosureIDs[DisclosureID(c) := record])
  {
    hide DisclosureID;
    var after, afterIDs := disclosures[c := record], disclosureIDs[DisclosureID(c) := record];
    forall d | d in after
      ensures DisclosureID(d) in afterIDs && afterIDs[DisclosureID(d)] == after[d]
    {
      if DisclosureID(d) == DisclosureID(c) {
        DisclosureIDInjective(d, c);
      }
    }
    forall id | id in afterIDs ensures exists d :: d in after && id == DisclosureID(d) {
      if id == DisclosureID(c) {
        assert c in after;
      } else {
        var d :| d in disclosures && id == DisclosureID(d);
        assert d in after;
      }
    }
  }

  // ----- one call -----

  /** The call is answered and its command is new. */
  predicate AcceptedBy(x: Setup, s: SourceState, call: Call)
  {
    Step(x, s, call).1.Answered? && CommandOf(call) !in s.commands
  }

  predicate Performable(x: Setup, s: SourceState, call: Call)
  {
    && (call.PlanCall? ==> PlanFor(x, call.planRequest).Some?)
    && (call.RetainCall? ==> call.retainRequest.closurePlanID in s.plansByID)
    && (call.DiscloseCall? ==> call.discloseRequest.retentionReceiptID in s.retained)
  }

  lemma AdmittedIsPerformable(x: Setup, s: SourceState, call: Call)
    requires SetupValid(x) && Admitted(x, s, call)
    ensures Performable(x, s, call)
  {
    hide SetupValid, ValidManifestClosurePlanRequest, ValidOperationGrant, GrantBindsManifestRequest,
         GrantBindsCandidateRequest, GrantBindsDisclosureRequest, ValidCandidateClosureInput,
         ValidArtifactDisclosureInput, PlanFor;
    if call.PlanCall? {
      PlansAreMade(x, call.planRequest);
    }
  }

  lemma PlanDigestsGrow(receipts: map<string, ClosurePlanReceipt>, c: string, receipt: ClosurePlanReceipt)
    ensures PlanDigests(receipts[c := receipt]) == PlanDigests(receipts)[c := receipt.requestPayloadDigest]
  {
  }

  lemma CandidateDigestsGrow(receipts: map<string, ArtifactRetentionReceipt>, c: string,
                             receipt: ArtifactRetentionReceipt)
    ensures CandidateDigests(receipts[c := receipt]) == CandidateDigests(receipts)[c := receipt.candidateRequestDigest]
  {
  }

  lemma DisclosureDigestsGrow(records: map<string, DisclosureRecord>, c: string, record: DisclosureRecord)
    ensures DisclosureDigests(records[c := record])
         == DisclosureDigests(records)[c := record.receipt.verificationRequestDigest]
  {
  }

  lemma PublicationDigestsGrow(receipts: map<string, ArtifactPublicationReceipt>, c: string,
                               receipt: ArtifactPublicationReceipt)
    ensures PublicationDigests(receipts[c := receipt])
         == PublicationDigests(receipts)[c := receipt.publicationRequestDigest]
  {
  }

  lemma StagesGrow(s: SourceState, c: string, entry: CommandRecord)
    requires LedgerAgrees(s) && c !in s.commands
    ensures var commands := s.commands[c := entry];
            var p, r := PlanDigests(s.planCommands), CandidateDigests(s.candidates);
            var d, a := DisclosureDigests(s.disclosures), PublicationDigests(s.publications);
            && StageAgrees(commands, ManifestClosurePlan,
                           if entry.purpose == ManifestClosurePlan then p[c := entry.digest] else p)
            && StageAgrees(commands, CandidateValidateRetain,
                           if entry.purpose == CandidateValidateRetain then r[c := entry.digest] else r)
            && StageAgrees(commands, ArtifactDisclosureVerify,
                           if entry.purpose == ArtifactDisclosureVerify then d[c := entry.digest] else d)
            && StageAgrees(commands, ArtifactPublish,
                           if entry.purpose == ArtifactPublish then a[c := entry.digest] else a)
  {
    StageGrows(s.commands, ManifestClosurePlan, PlanDigests(s.planCommands), c, entry);
    StageGrows(s.commands, CandidateValidateRetain, CandidateDigests(s.candidates), c, entry);
    StageGrows(s.commands, ArtifactDisclosureVerify, DisclosureDigests(s.disclosures), c, entry);
    StageGrows(s.commands, ArtifactPublish, PublicationDigests(s.publications), c, entry);
    hide DisclosureIDsAgree, StageAgrees, PlanDigests, CandidateDigests, DisclosureDigests, PublicationDigests;
  }

  lemma PerformKeepsLedger(x: Setup, s: SourceState, call: Call)
    requires LedgerAgrees(s) && CommandOf(call) !in s.commands && Performable(x, s, call)
    ensures LedgerAgrees(Perform(x, Claimed(s, call), call).0)
    ensures Perform(x, Claimed(s, call), call).1.Answered?
  {
    hide DisclosureIDsAgree, StageAgrees, PlanFor, TransferDigestText, DisclosureID, RetentionID, PlanDigests,
         CandidateDigests, DisclosureDigests, PublicationDigests;
    var c := CommandOf(call);
    StagesGrow(s, c, LedgerEntry(call));
    match call {
      case PlanCall(_, request, _) =>
        PlanDigestsGrow(s.planCommands, c, PlannedReceipt(request, PlanFor(x, request).value));
      case RetainCall(_, request, _) =>
        CandidateDigestsGrow(s.candidates, c, RetainedReceipt(x, request));
      case DiscloseCall(_, request, _) =>
        var record := Perform(x, Claimed(s, call), call).0.disclosures[c];
        DisclosureDigestsGrow(s.disclosures, c, record);
        DisclosureIDsGrow(s.disclosures, s.disclosureIDs, c, record);
      case PublishCall(_, request) =>
        PublicationDigestsGrow(s.publications, c, PublishedReceipt(x, request));
    }
  }

  lemma ReplayAnswered(s: SourceState, call: Call)
    requires LedgerAgrees(s) && CommandOf(call) in s.commands && s.commands[CommandOf(call)] == LedgerEntry(call)
    ensures ReplayOf(s, call).Answered?
  {
    hide LedgerAgrees;
    LedgerAt(s, CommandOf(call));
  }

  /** With an agreeing ledger a call either performs its stage under a new command, or changes nothing;
      no replay misses its receipt and no branch panics. */
  lemma StepFacts(x: Setup, s: SourceState, call: Call)
    requires SetupValid(x) && !x.allowManifestToDisclosureCollision && LedgerAgrees(s)
    ensures !Step(x, s, call).1.BlankReplay? && !Step(x, s, call).1.Panicked?
    ensures if AcceptedBy(x, s, call)
            then && Admitted(x, s, call) && Performable(x, s, call)
                 && Step(x, s, call) == Perform(x, Claimed(s, call), call)
                 && (call.PublishCall? ==> PublishPrepared(x, s.retained, s.disclosureIDs, call.publishRequest))
            else Step(x, s, call).0 == s
    ensures LedgerAgrees(Step(x, s, call).0)
  {
    hide SetupValid, Admitted, Perform, PlanFor, PublishPrepared, LedgerAgrees, ReplayOf, Performable, LedgerEntry;
    if Admitted(x, s, call) {
      AdmittedIsPerformable(x, s, call);
      if CommandOf(call) !in s.commands {
        PerformKeepsLedger(x, s, call);
      } else if s.commands[CommandOf(call)] == LedgerEntry(call) {
        ReplayAnswered(s, call);
      }
    }
  }

  /** In a given state: an admitted call under a known command is a replay or a conflict, and nothing else. */
  lemma KnownCommand(x: Setup, s: SourceState, call: Call)
    requires !x.allowManifestToDisclosureCollision && CommandOf(call) in s.commands && Admitted(x, s, call)
    ensures Step(x, s, call) == (s, if s.commands[CommandOf(call)] == LedgerEntry(call) then ReplayOf(s, call)
                                    else Refused(SourceCommandConflict))
  {
    hide Admitted, Perform, ReplayOf, LedgerEntry, PublishPrepared;
  }

  // ----- runs -----

  /** The state after the first `k` calls. */
  function StateAt(x: Setup, calls: seq<Call>, k: nat): SourceState
    requires k <= |calls|
  {
    if k == 0 then NOTHING else Step(x, StateAt(x, calls, k - 1), calls[k - 1]).0
  }

  function OutcomeAt(x: Setup, calls: seq<Call>, k: nat): Outcome
    requires k < |calls|
  {
    Step(x, StateAt(x, calls, k), calls[k]).1
  }

  predicate AcceptedAt(x: Setup, calls: seq<Call>, k: nat)
    requires k < |calls|
  {
    AcceptedBy(x, StateAt(x, calls, k), calls[k])
  }

  /** The shipped provider: valid fixed facts and no deliberate ledger defect. */
  ghost predicate Sound(x: Setup) { SetupValid(x) && !x.allowManifestToDisclosureCollision }

  lemma EmptyLedger()
    ensures LedgerAgrees(NOTHING)
  {
  }

  /** In every reachable state the ledger agrees with the four receipt maps. */
  lemma {:induction false} ReachableLedger(x: Setup, calls: seq<Call>, k: nat)
    requires Sound(x) && k <= |calls|
    ensures LedgerAgrees(StateAt(x, calls, k))
  {
    hide SetupValid, LedgerAgrees, Step;
    if k == 0 {
      EmptyLedger();
    } else {
      ReachableLedger(x, calls, k - 1);
      StepFacts(x, StateAt(x, calls, k - 1), calls[k - 1]);
    }
  }

  /** In every reachable state the four receipt maps partition the ledger. */
  lemma ReachablePartition(x: Setup, calls: seq<Call>)
    requires Sound(x)
    ensures var s := StateAt(x, calls, |calls|);
            && s.planCommands.Keys !! s.candidates.Keys !! s.disclosures.Keys !! s.publications.Keys
            && s.commands.Keys == s.planCommands.Keys + s.candidates.Keys + s.disclosures.Keys + s.publications.Keys
  {
    hide LedgerAgrees, StateAt;
    ReachableLedger(x, calls, |calls|);
    LedgerIsDisjointUnion(StateAt(x, calls, |calls|));
  }

  /** Step k of a run: an accepted call performs its stage, any other call changes nothing; every replay finds
      its receipt and the panic is never reached. */
  lemma RunStep(x: Setup, calls: seq<Call>, k: nat)
    requires Sound(x) && k < |calls|
    ensures !OutcomeAt(x, calls, k).BlankReplay? && !OutcomeAt(x, calls, k).Panicked?
    ensures var s, call := StateAt(x, calls, k), calls[k];
            if AcceptedAt(x, calls, k)
            then && Admitted(x, s, call) && Performable(x, s, call)
                 && (StateAt(x, calls, k + 1), OutcomeAt(x, calls, k)) == Perform(x, Claimed(s, call), call)
                 && (call.PublishCall? ==> PublishPrepared(x, s.retained, s.disclosureIDs, call.publishRequest))
            else StateAt(x, calls, k + 1) == s
  {
    hide SetupValid, Step, Admitted, Performable, Perform, PublishPrepared, LedgerAgrees, AcceptedBy, Claimed;
    ReachableLedger(x, calls, k);
    StepFacts(x, StateAt(x, calls, k), calls[k]);
  }

  // ----- a command, once accepted -----

  predicate SameAt<V(==)>(m: map<string, V>, n: map<string, V>, c: string)
  {
    (c in m <==> c in n) && (c in m ==> m[c] == n[c])
  }

  predicate SameCommand(s: SourceState, t: SourceState, c: string)
  {
    && SameAt(s.commands, t.commands, c) && SameAt(s.planCommands, t.planCommands, c)
    && SameAt(s.candidates, t.candidates, c) && SameAt(s.disclosures, t.disclosures, c)
    && SameAt(s.publications, t.publications, c)
  }

  lemma PerformLeavesOthers(x: Setup, s: SourceState, call: Call, c: string)
    requires Performable(x, s, call) && c != CommandOf(call)
    ensures SameCommand(s, Perform(x, Claimed(s, call), call).0, c)
  {
    hide PlanFor, TransferDigestText, DisclosureID, RetentionID;
  }

  /** What is stored under a known command never changes. */
  lemma {:induction false} CommandKept(x: Setup, calls: seq<Call>, j: nat, k: nat, c: string)
    requires Sound(x) && j <= k <= |calls| && c in StateAt(x, calls, j).commands
    ensures SameCommand(StateAt(x, calls, j), StateAt(x, calls, k), c)
    decreases k
  {
    hide SetupValid, Step, Perform, Admitted, PublishPrepared, StateAt, Claimed, Performable;
    if j == k {
    } else {
      CommandKept(x, calls, j, k - 1, c);
      RunStep(x, calls, k - 1);
      if AcceptedAt(x, calls, k - 1) {
        PerformLeavesOthers(x, StateAt(x, calls, k - 1), calls[k - 1], c);
      }
    }
  }

  /** The same receipt with the status of a replay. */
  function AsReplay(receipt: Receipt): Receipt
  {
    match receipt
    case PlanReceipt(planned) => PlanReceipt(planned.(status := Replayed))
    case RetentionReceipt(retention) => RetentionReceipt(retention.(status := Replayed))
    case DisclosureReceipt(disclosure) => DisclosureReceipt(disclosure)
    case PublicationReceipt(publication) => PublicationReceipt(publication.(status := Replayed))
  }

  lemma PerformStores(x: Setup, s: SourceState, call: Call)
    requires Performable(x, s, call)
    ensures var (t, outcome) := Perform(x, Claimed(s, call), call);
            && CommandOf(call) in t.commands && t.commands[CommandOf(call)] == LedgerEntry(call)
            && outcome.Answered? && ReplayOf(t, call) == Answered(AsReplay(outcome.receipt))
  {
    hide PlanFor, TransferDigestText, DisclosureID, RetentionID;
  }

  lemma SameReplay(s: SourceState, t: SourceState, a: Call, b: Call)
    requires CommandOf(a) == CommandOf(b) && LedgerEntry(a) == LedgerEntry(b) && SameCommand(s, t, CommandOf(a))
    ensures ReplayOf(s, a) == ReplayOf(t, b)
  {
  }

  /** After an acceptance the command answers for itself: later admitted calls under it change nothing, the
      exact retry gets the first receipt marked as a replay, and any other stage or payload is a conflict. */
  lemma LedgerDecides(x: Setup, calls: seq<Call>, i: nat, j: nat)
    requires Sound(x) && i < j < |calls| && AcceptedAt(x, calls, i) && CommandOf(calls[j]) == CommandOf(calls[i])
    requires Admitted(x, StateAt(x, calls, j), calls[j])
    ensures StateAt(x, calls, j + 1) == StateAt(x, calls, j)
    ensures OutcomeAt(x, calls, i).Answered?
    ensures OutcomeAt(x, calls, j)
         == if LedgerEntry(calls[j]) == LedgerEntry(calls[i]) then Answered(AsReplay(OutcomeAt(x, calls, i).receipt))
            else Refused(SourceCommandConflict)
  {
    hide SetupValid, Admitted, Perform, Claimed, Performable, PublishPrepared, ReplayOf, Step, LedgerEntry, AsReplay;
    var c := CommandOf(calls[i]);
    RunStep(x, calls, i);
    PerformStores(x, StateAt(x, calls, i), calls[i]);
    CommandKept(x, calls, i + 1, j, c);
    KnownCommand(x, StateAt(x, calls, j), calls[j]);
    if LedgerEntry(calls[j]) == LedgerEntry(calls[i]) {
      SameReplay(StateAt(x, calls, i + 1), StateAt(x, calls, j), calls[i], calls[j]);
    }
  }

  /** Each command is accepted at most once in a run. */
  lemma AcceptedAtMostOnce(x: Setup, calls: seq<Call>, i: nat, j: nat)
    requires Sound(x) && i < j < |calls| && AcceptedAt(x, calls, i) && AcceptedAt(x, calls, j)
    ensures CommandOf(calls[i]) != CommandOf(calls[j])
  {
    hide SetupValid, Admitted, Perform, Claimed, Performable, PublishPrepared, ReplayOf, Step, LedgerEntry, StateAt;
    RunStep(x, calls, i);
    PerformStores(x, StateAt(x, calls, i), calls[i]);
    CommandKept(x, calls, i + 1, j, CommandOf(calls[i]));
  }

  // ----- rejected and replayed calls leave no trace -----

  function AcceptedCalls(x: Setup, calls: seq<Call>, k: nat): seq<Call>
    requires k <= |calls|
  {
    if k == 0 then []
    else AcceptedCalls(x, calls, k - 1) + if AcceptedAt(x, calls, k - 1) then [calls[k - 1]] else []
  }

  lemma {:induction false} StateOfPrefix(x: Setup, a: seq<Call>, b: seq<Call>, k: nat)
    requires k <= |a| && k <= |b| && a[..k] == b[..k]
    ensures StateAt(x, a, k) == StateAt(x, b, k)
  {
    hide Step;
    if k == 0 {
    } else {
      assert a[k - 1] == a[..k][k - 1] && b[k - 1] == b[..k][k - 1];
      assert a[..k - 1] == a[..k][..k - 1] && b[..k - 1] == b[..k][..k - 1];
      StateOfPrefix(x, a, b, k - 1);
    }
  }

  lemma Unaccepted(x: Setup, calls: seq<Call>, k: nat)
    requires Sound(x) && k < |calls| && !AcceptedAt(x, calls, k)
    ensures StateAt(x, calls, k + 1) == StateAt(x, calls, k)
  {
    hide SetupValid, Step, AcceptedBy, StateAt, Admitted, Perform, Performable, PublishPrepared, Claimed;
    RunStep(x, calls, k);
  }

  /** A run ends in the state its accepted calls alone reach, and none of those is then refused. */
  lemma {:induction false} OnlyAcceptedCallsMatter(x: Setup, calls: seq<Call>, k: nat)
    requires Sound(x) && k <= |calls|
    ensures var accepted := AcceptedCalls(x, calls, k);
            && StateAt(x, accepted, |accepted|) == StateAt(x, calls, k)
            && forall i | 0 <= i < |accepted| :: AcceptedAt(x, accepted, i)
  {
    hide SetupValid, Step, AcceptedBy;
    if k == 0 {
    } else {
      var earlier, accepted := AcceptedCalls(x, calls, k - 1), AcceptedCalls(x, calls, k);
      OnlyAcceptedCallsMatter(x, calls, k - 1);
      if AcceptedAt(x, calls, k - 1) {
        forall i: nat | i <= |earlier| ensures StateAt(x, accepted, i) == StateAt(x, earlier, i) {
          assert accepted[..i] == earlier[..i];
          StateOfPrefix(x, accepted, earlier, i);
        }
        forall i: nat | i < |earlier| ensures AcceptedAt(x, accepted, i) {
          assert accepted[i] == earlier[i] && AcceptedAt(x, earlier, i);
        }
        assert accepted[|earlier|] == calls[k - 1];
      } else {
        Unaccepted(x, calls, k - 1);
        assert accepted == earlier;
      }
    }
  }
}
