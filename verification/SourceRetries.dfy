/** When an exact retry of an accepted source call is still admitted. */
module SourceRetries {
  import opened ContractTypes
  import opened SourceOperations
  import opened OperationGrants
  import opened SourceProvider
  import opened SourceRuns
  import opened PublicationHistory

  /** A valid grant for the call's own request and route. */
  predicate GrantBinds(x: Setup, call: Call)
  {
    && ValidOperationGrant(call.grant)
    && match call
       case PlanCall(grant, request, manifestBytes) =>
         GrantBindsManifestRequest(x.lib, grant, x.manifestRoute(request, manifestBytes), request)
       case RetainCall(grant, request, files) =>
         GrantBindsCandidateRequest(x.lib, grant, x.candidateRoute(request, files), request)
       case DiscloseCall(grant, request, files) =>
         GrantBindsDisclosureRequest(x.lib, grant, x.disclosureRoute(request, files), request)
       case PublishCall(grant, request) =>
         GrantBindsPublicationRequest(x.lib, grant, x.publicationRoute(request), request)
  }

  /** The same stage, request and transfer again, under a grant of its own. */
  predicate IsRetry(x: Setup, first: Call, retry: Call)
  {
    && GrantBinds(x, retry)
    && match (first, retry)
       case (PlanCall(_, request, manifestBytes), PlanCall(_, request', manifestBytes')) =>
         request == request' && manifestBytes == manifestBytes'
       case (RetainCall(_, request, files), RetainCall(_, request', files')) => request == request' && files == files'
       case (DiscloseCall(_, request, files), DiscloseCall(_, request', files')) =>
         request == request' && files == files'
       case (PublishCall(_, request), PublishCall(_, request')) => request == request'
       case _ => false
  }

  /** The facts of a plan that a retention or a disclosure must repeat. */
  predicate SameSource(a: ClosurePlan, b: ClosurePlan)
  {
    && a.providerID == b.providerID && a.adapterID == b.adapterID && a.participantID == b.participantID
    && a.participantVersionID == b.participantVersionID && a.repositoryNodeID == b.repositoryNodeID
    && a.commitOID == b.commitOID && a.closurePlanDigest == b.closurePlanDigest
  }

  /** What every plan the provider makes has in common. */
  ghost predicate MadeHere(x: Setup, plan: ClosurePlan)
  {
    && plan.closurePlanID == x.planID && plan.files == x.planFiles && plan.aggregateByteLimit == x.aggregateByteLimit
    && ValidClosurePlan(x.lib, plan)
  }

  lemma PlansAreMadeHere(x: Setup, request: ManifestClosurePlanRequest)
    requires PlanFor(x, request).Some?
    ensures MadeHere(x, PlanFor(x, request).value)
  {
    hide ValidClosurePlan, DigestJSON;
  }

  lemma StoredPlanIsMadeHere(x: Setup, calls: seq<Call>, k: nat, planID: string)
    requires Sound(x) && k <= |calls| && planID in StateAt(x, calls, k).plansByID
    ensures MadeHere(x, StateAt(x, calls, k).plansByID[planID])
  {
    hide SetupValid, StateAt, PlanFor, AcceptedBy, MadeHere;
    var h := PlanStoredBy(x, calls, k, planID);
    PlansAreMadeHere(x, calls[h].planRequest);
  }

  lemma RetainedPlanIsMadeHere(x: Setup, calls: seq<Call>, k: nat, receiptID: string)
    requires Sound(x) && k <= |calls| && receiptID in StateAt(x, calls, k).retained
    ensures MadeHere(x, StateAt(x, calls, k).retained[receiptID].plan)
  {
    hide SetupValid, StateAt, PlanFor, AcceptedBy, MadeHere, TransferDigestText;
    var i := RetainedStoredBy(x, calls, k, receiptID);
    StoredPlanIsMadeHere(x, calls, i, calls[i].retainRequest.closurePlanID);
  }

  lemma {:induction false} PlanStays(x: Setup, calls: seq<Call>, j: nat, k: nat, planID: string)
    requires Sound(x) && j <= k <= |calls| && planID in StateAt(x, calls, j).plansByID
    ensures planID in StateAt(x, calls, k).plansByID
    decreases k
  {
    hide SetupValid, Admitted, PublishPrepared, Step, StateAt, AcceptedBy, PlanFor, RetainedBy, DisclosedBy,
         RetentionID;
    if j == k {
    } else {
      PlanStays(x, calls, j, k - 1, planID);
      StepEffects(x, calls, k - 1);
    }
  }

  lemma SameInputExactly(x: Setup, request: CandidateClosureRetentionRequest, files: seq<CandidateSourceFile>,
                         plan: ClosurePlan, plan': ClosurePlan)
    requires MadeHere(x, plan) && MadeHere(x, plan') && ValidCandidateClosureInput(x.lib, request, plan, files)
    ensures ValidCandidateClosureInput(x.lib, request, plan', files) <==> SameSource(plan, plan')
  {
    hide ValidClosurePlan, ValidCandidateClosureRetentionRequest, TransferDigest, FilesFit, TotalSize;
  }

  lemma SameDisclosureInputExactly(x: Setup, request: ArtifactDisclosureVerificationRequest,
                                   files: seq<CandidateSourceFile>, plan: ClosurePlan, plan': ClosurePlan)
    requires MadeHere(x, plan) && MadeHere(x, plan') && ValidArtifactDisclosureInput(x.lib, request, plan, files)
    ensures ValidArtifactDisclosureInput(x.lib, request, plan', files) <==> SameSource(plan, plan')
  {
    hide ValidClosurePlan, ValidArtifactDisclosureVerificationRequest, TransferDigest, FilesFit, TotalSize;
  }

  /** Between states s and t, the plan a call is checked against still names the same source. */
  predicate SourceUnchanged(s: SourceState, t: SourceState, call: Call)
  {
    match call
    case PlanCall(_, _, _) => true
    case RetainCall(_, request, _) =>
      && request.closurePlanID in s.plansByID && request.closurePlanID in t.plansByID
      && SameSource(s.plansByID[request.closurePlanID], t.plansByID[request.closurePlanID])
    case DiscloseCall(_, request, _) =>
      && request.retentionReceiptID in s.retained && request.retentionReceiptID in t.retained
      && SameSource(s.retained[request.retentionReceiptID].plan, t.retained[request.retentionReceiptID].plan)
    case PublishCall(_, _) => true
  }

  lemma RetainRetryExactly(x: Setup, calls: seq<Call>, i: nat, j: nat, retry: Call)
    requires Sound(x) && i <= j <= |calls| && i < |calls| && calls[i].RetainCall? && IsRetry(x, calls[i], retry)
    requires Admitted(x, StateAt(x, calls, i), calls[i])
    ensures Admitted(x, StateAt(x, calls, j), retry)
       <==> SourceUnchanged(StateAt(x, calls, i), StateAt(x, calls, j), calls[i])
  {
    hide SetupValid, StateAt, ValidOperationGrant, GrantBindsCandidateRequest, ValidCandidateClosureInput, SameSource,
         MadeHere;
    var planID := calls[i].retainRequest.closurePlanID;
    PlanStays(x, calls, i, j, planID);
    StoredPlanIsMadeHere(x, calls, i, planID);
    StoredPlanIsMadeHere(x, calls, j, planID);
    SameInputExactly(x, retry.retainRequest, retry.files, StateAt(x, calls, i).plansByID[planID],
                     StateAt(x, calls, j).plansByID[planID]);
  }

  lemma ArtifactIsConstant(x: Setup, calls: seq<Call>, k: nat, receiptID: string)
    requires Sound(x) && k <= |calls| && receiptID in StateAt(x, calls, k).retained
    ensures StateAt(x, calls, k).retained[receiptID].receipt.artifactDigest == x.artifactDigest
  {
    hide SetupValid, StateAt, AcceptedBy, PlanFor, TransferDigestText, RetentionID;
    var i := RetainedStoredBy(x, calls, k, receiptID);
  }

  lemma DiscloseRetryExactly(x: Setup, calls: seq<Call>, i: nat, j: nat, retry: Call)
    requires Sound(x) && i <= j <= |calls| && i < |calls| && calls[i].DiscloseCall? && IsRetry(x, calls[i], retry)
    requires Admitted(x, StateAt(x, calls, i), calls[i])
    ensures Admitted(x, StateAt(x, calls, j), retry)
       <==> SourceUnchanged(StateAt(x, calls, i), StateAt(x, calls, j), calls[i])
  {
    hide SetupValid, StateAt, ValidOperationGrant, GrantBindsDisclosureRequest, ValidArtifactDisclosureInput,
         SameSource, MadeHere;
    var receiptID := calls[i].discloseRequest.retentionReceiptID;
    RetainedStays(x, calls, i, j, receiptID);
    RetainedPlanIsMadeHere(x, calls, i, receiptID);
    RetainedPlanIsMadeHere(x, calls, j, receiptID);
    ArtifactIsConstant(x, calls, i, receiptID);
    ArtifactIsConstant(x, calls, j, receiptID);
    SameDisclosureInputExactly(x, retry.discloseRequest, retry.files, StateAt(x, calls, i).retained[receiptID].plan,
                               StateAt(x, calls, j).retained[receiptID].plan);
  }

  lemma StatelessRetryAdmitted(x: Setup, s: SourceState, t: SourceState, first: Call, retry: Call)
    requires first.PlanCall? || first.PublishCall?
    requires Admitted(x, s, first) && IsRetry(x, first, retry)
    ensures Admitted(x, t, retry)
  {
    hide ValidOperationGrant, GrantBindsManifestRequest, GrantBindsPublicationRequest, ValidManifestClosurePlanInput;
  }

  lemma RetryAdmittedExactly(x: Setup, calls: seq<Call>, i: nat, j: nat, retry: Call)
    requires Sound(x) && i < j <= |calls| && AcceptedAt(x, calls, i) && IsRetry(x, calls[i], retry)
    ensures Admitted(x, StateAt(x, calls, j), retry)
       <==> SourceUnchanged(StateAt(x, calls, i), StateAt(x, calls, j), calls[i])
  {
    hide SetupValid, StateAt, Step, AcceptedBy, Admitted, IsRetry, Perform, Claimed, Performable, PublishPrepared,
         SameSource;
    RunStep(x, calls, i);
    match calls[i] {
      case RetainCall(_, _, _) => RetainRetryExactly(x, calls, i, j, retry);
      case DiscloseCall(_, _, _) => DiscloseRetryExactly(x, calls, i, j, retry);
      case _ => StatelessRetryAdmitted(x, StateAt(x, calls, i), StateAt(x, calls, j), calls[i], retry);
    }
  }

  lemma RetryKeepsIdentity(x: Setup, first: Call, retry: Call)
    requires IsRetry(x, first, retry)
    ensures CommandOf(retry) == CommandOf(first) && LedgerEntry(retry) == LedgerEntry(first)
  {
    hide GrantBinds;
  }

  /** An exact retry of an accepted call changes nothing. It is answered with the first receipt marked as a replay
      exactly when the plan it is checked against still names the same source; otherwise it is refused as an invalid
      grant. Plan and publish retries are always replays. */
  lemma RetryAnswer(x: Setup, calls: seq<Call>, i: nat, j: nat, retry: Call)
    requires Sound(x) && i < j <= |calls| && AcceptedAt(x, calls, i) && IsRetry(x, calls[i], retry)
    ensures OutcomeAt(x, calls, i).Answered?
    ensures Step(x, StateAt(x, calls, j), retry)
         == (StateAt(x, calls, j),
             if SourceUnchanged(StateAt(x, calls, i), StateAt(x, calls, j), calls[i])
             then Answered(AsReplay(OutcomeAt(x, calls, i).receipt)) else Refused(InvalidGrant))
  {
    hide SetupValid, StateAt, AcceptedBy, Admitted, IsRetry, Perform, Claimed, Performable, PublishPrepared,
         SourceUnchanged, AsReplay, ReplayOf, LedgerEntry;
    RunStep(x, calls, i);
    RetryAdmittedExactly(x, calls, i, j, retry);
    RetryKeepsIdentity(x, calls[i], retry);
    PerformStores(x, StateAt(x, calls, i), calls[i]);
    CommandKept(x, calls, i + 1, j, CommandOf(retry));
    if Admitted(x, StateAt(x, calls, j), retry) {
      KnownCommand(x, StateAt(x, calls, j), retry);
      SameReplay(StateAt(x, calls, i + 1), StateAt(x, calls, j), calls[i], retry);
    }
  }

  lemma {:induction false} PlanKept(x: Setup, calls: seq<Call>, j: nat, k: nat, planID: string)
    requires Sound(x) && j <= k <= |calls| && planID in StateAt(x, calls, j).plansByID
    requires forall m | j <= m < k :: !PlansAt(x, calls, m, x.planID)
    ensures planID in StateAt(x, calls, k).plansByID
    ensures StateAt(x, calls, k).plansByID[planID] == StateAt(x, calls, j).plansByID[planID]
    decreases k
  {
    hide SetupValid, Admitted, PublishPrepared, Step, StateAt, AcceptedBy, PlanFor, RetainedBy, DisclosedBy,
         RetentionID;
    if j == k {
    } else {
      PlanKept(x, calls, j, k - 1, planID);
      StepEffects(x, calls, k - 1);
      assert !PlansAt(x, calls, k - 1, x.planID);
    }
  }

  /** Only a plan accepted in between can turn a retention's retry away, and only a retention under the same receipt
      ID a disclosure's. */
  lemma UndisturbedSource(x: Setup, calls: seq<Call>, i: nat, j: nat)
    requires Sound(x) && i < j <= |calls| && AcceptedAt(x, calls, i)
    requires calls[i].RetainCall? ==> forall m | i <= m < j :: !PlansAt(x, calls, m, x.planID)
    requires calls[i].DiscloseCall? ==>
               forall m | i <= m < j :: !RetainsAt(x, calls, m, calls[i].discloseRequest.retentionReceiptID)
    ensures SourceUnchanged(StateAt(x, calls, i), StateAt(x, calls, j), calls[i])
  {
    hide SetupValid, StateAt, Step, AcceptedBy, Admitted, Perform, Claimed, PublishPrepared, PlanFor;
    RunStep(x, calls, i);
    match calls[i] {
      case RetainCall(_, request, _) => PlanKept(x, calls, i, j, request.closurePlanID);
      case DiscloseCall(_, request, _) => RetainedKept(x, calls, i, j, request.retentionReceiptID);
      case _ =>
    }
  }

  // ----- the run decides -----

  /** Step h holds the last plan accepted before step k. */
  ghost predicate LastPlan(x: Setup, calls: seq<Call>, k: nat, h: nat)
    requires k <= |calls|
  {
    && h < k && PlansAt(x, calls, h, x.planID) && PlanFor(x, calls[h].planRequest).Some?
    && forall m | h < m < k :: !PlansAt(x, calls, m, x.planID)
  }

  /** Step r holds the last retention accepted before step k under a receipt ID. */
  ghost predicate LastRetention(x: Setup, calls: seq<Call>, k: nat, receiptID: string, r: nat)
    requires k <= |calls|
  {
    r < k && RetainsAt(x, calls, r, receiptID) && forall m | r < m < k :: !RetainsAt(x, calls, m, receiptID)
  }

  /** An accepted retention's source is unchanged at step j exactly when the last plans accepted before the retention
      and before j name the same source; some plan was accepted before each. */
  lemma RetentionSourceExactly(x: Setup, calls: seq<Call>, i: nat, j: nat) returns (h: nat, h': nat)
    requires Sound(x) && i < j <= |calls| && AcceptedAt(x, calls, i) && calls[i].RetainCall?
    ensures LastPlan(x, calls, i, h) && LastPlan(x, calls, j, h')
    ensures SourceUnchanged(StateAt(x, calls, i), StateAt(x, calls, j), calls[i])
       <==> SameSource(PlanFor(x, calls[h].planRequest).value, PlanFor(x, calls[h'].planRequest).value)
  {
    hide SetupValid, StateAt, Step, AcceptedBy, Admitted, Perform, Claimed, PublishPrepared, PlanFor, SameSource;
    var planID := calls[i].retainRequest.closurePlanID;
    RunStep(x, calls, i);
    PlanStays(x, calls, i, j, planID);
    h := PlanStoredBy(x, calls, i, planID);
    h' := PlanStoredBy(x, calls, j, planID);
  }

  /** An accepted disclosure's source is unchanged at step j exactly when the plans under the last retentions of its
      receipt ID, accepted before the disclosure and before j, name the same source. */
  lemma DisclosureSourceExactly(x: Setup, calls: seq<Call>, i: nat, j: nat)
    returns (r: nat, h: nat, r': nat, h': nat)
    requires Sound(x) && i < j <= |calls| && AcceptedAt(x, calls, i) && calls[i].DiscloseCall?
    ensures LastRetention(x, calls, i, calls[i].discloseRequest.retentionReceiptID, r) && LastPlan(x, calls, r, h)
    ensures LastRetention(x, calls, j, calls[i].discloseRequest.retentionReceiptID, r') && LastPlan(x, calls, r', h')
    ensures SourceUnchanged(StateAt(x, calls, i), StateAt(x, calls, j), calls[i])
       <==> SameSource(PlanFor(x, calls[h].planRequest).value, PlanFor(x, calls[h'].planRequest).value)
  {
    hide SetupValid, StateAt, Step, AcceptedBy, Admitted, Perform, Claimed, PublishPrepared, PlanFor, SameSource,
         TransferDigestText, RetentionID;
    var receiptID := calls[i].discloseRequest.retentionReceiptID;
    RunStep(x, calls, i);
    RetainedStays(x, calls, i, j, receiptID);
    r := RetainedStoredBy(x, calls, i, receiptID);
    h := PlanStoredBy(x, calls, r, calls[r].retainRequest.closurePlanID);
    r' := RetainedStoredBy(x, calls, j, receiptID);
    h' := PlanStoredBy(x, calls, r', calls[r'].retainRequest.closurePlanID);
  }

  lemma CommitsDiffer(x: Setup, request: ManifestClosurePlanRequest, request': ManifestClosurePlanRequest)
    requires PlanFor(x, request).Some? && PlanFor(x, request').Some? && request.commitOID != request'.commitOID
    ensures !SameSource(PlanFor(x, request).value, PlanFor(x, request').value)
  {
    hide PlanFor;
    PlanIDKept(x, request);
    PlanIDKept(x, request');
  }

  lemma LastPlanIsUnique(x: Setup, calls: seq<Call>, k: nat, h: nat, h': nat)
    requires k <= |calls| && LastPlan(x, calls, k, h) && LastPlan(x, calls, k, h')
    ensures h == h'
  {
    hide PlansAt;
  }

  lemma LastRetentionIsUnique(x: Setup, calls: seq<Call>, k: nat, receiptID: string, r: nat, r': nat)
    requires k <= |calls| && LastRetention(x, calls, k, receiptID, r) && LastRetention(x, calls, k, receiptID, r')
    ensures r == r'
  {
    hide RetainsAt;
  }

  lemma LastPlanIsMade(x: Setup, calls: seq<Call>, k: nat, h: nat)
    requires k <= |calls| && LastPlan(x, calls, k, h)
    ensures h < k && calls[h].PlanCall? && PlanFor(x, calls[h].planRequest).Some?
  {
    hide PlanFor;
  }

  /** Once a plan of another commit is accepted, every exact retry of an earlier retention is an invalid grant. */
  lemma OtherPlanTurnsRetryAway(x: Setup, calls: seq<Call>, i: nat, j: nat, h: nat, h': nat, retry: Call)
    requires Sound(x) && i < j <= |calls| && AcceptedAt(x, calls, i) && calls[i].RetainCall?
    requires LastPlan(x, calls, i, h) && LastPlan(x, calls, j, h')
    requires calls[h].planRequest.commitOID != calls[h'].planRequest.commitOID && IsRetry(x, calls[i], retry)
    ensures Step(x, StateAt(x, calls, j), retry) == (StateAt(x, calls, j), Refused(InvalidGrant))
  {
    hide SetupValid, StateAt, Step, AcceptedAt, SourceUnchanged, SameSource, IsRetry, PlanFor, LastPlan, AsReplay;
    var g, g' := RetentionSourceExactly(x, calls, i, j);
    LastPlanIsUnique(x, calls, i, g, h);
    LastPlanIsUnique(x, calls, j, g', h');
    LastPlanIsMade(x, calls, i, h);
    LastPlanIsMade(x, calls, j, h');
    CommitsDiffer(x, calls[h].planRequest, calls[h'].planRequest);
    RetryAnswer(x, calls, i, j, retry);
  }

  /** Once a retention under a plan of another commit is accepted for the receipt ID, every exact retry of an earlier
      disclosure of it is an invalid grant. */
  lemma OtherRetentionTurnsRetryAway(x: Setup, calls: seq<Call>, i: nat, j: nat, r: nat, h: nat, r': nat, h': nat,
                                     retry: Call)
    requires Sound(x) && i < j <= |calls| && AcceptedAt(x, calls, i) && calls[i].DiscloseCall?
    requires LastRetention(x, calls, i, calls[i].discloseRequest.retentionReceiptID, r) && LastPlan(x, calls, r, h)
    requires LastRetention(x, calls, j, calls[i].discloseRequest.retentionReceiptID, r') && LastPlan(x, calls, r', h')
    requires calls[h].planRequest.commitOID != calls[h'].planRequest.commitOID && IsRetry(x, calls[i], retry)
    ensures Step(x, StateAt(x, calls, j), retry) == (StateAt(x, calls, j), Refused(InvalidGrant))
  {
    hide SetupValid, StateAt, Step, AcceptedAt, SourceUnchanged, SameSource, IsRetry, PlanFor, LastPlan, AsReplay,
         RetainsAt;
    var receiptID := calls[i].discloseRequest.retentionReceiptID;
    var q, g, q', g' := DisclosureSourceExactly(x, calls, i, j);
    LastRetentionIsUnique(x, calls, i, receiptID, q, r);
    LastRetentionIsUnique(x, calls, j, receiptID, q', r');
    LastPlanIsUnique(x, calls, r, g, h);
    LastPlanIsUnique(x, calls, r', g', h');
    LastPlanIsMade(x, calls, r, h);
    LastPlanIsMade(x, calls, r', h');
    CommitsDiffer(x, calls[h].planRequest, calls[h'].planRequest);
    RetryAnswer(x, calls, i, j, retry);
  }
}
