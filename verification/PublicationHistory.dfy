/** What every stored publication rests on: an accepted plan, retention and disclosure of the same source. */
module PublicationHistory {
  import opened Primitives
  import opened ContractTypes
  import opened DigestFraming
  import opened SourceOperations
  import opened OperationGrants
  import opened SourceProvider
  import opened SourceRuns

  // ----- receipts handed out -----

  predicate ReceiptMatchesCall(lib: Library, receipt: Receipt, call: Call)
  {
    match (receipt, call)
    case (PlanReceipt(planned), PlanCall(_, request, _)) => ValidClosurePlanReceiptForRequest(lib, planned, request)
    case (RetentionReceipt(retention), RetainCall(_, request, _)) =>
      ValidArtifactRetentionReceiptForRequest(lib, retention, request)
    case (DisclosureReceipt(disclosure), DiscloseCall(_, request, _)) =>
      ValidArtifactDisclosureReceiptForRequest(lib, disclosure, request)
    case (PublicationReceipt(publication), PublishCall(_, request)) =>
      ValidArtifactPublicationReceiptForRequest(lib, publication, request)
    case _ => false
  }

  predicate RequestValid(lib: Library, call: Call)
  {
    match call
    case PlanCall(_, request, _) => ValidManifestClosurePlanRequest(lib, request)
    case RetainCall(_, request, _) => ValidCandidateClosureRetentionRequest(lib, request)
    case DiscloseCall(_, request, _) => ValidArtifactDisclosureVerificationRequest(lib, request)
    case PublishCall(_, request) => ValidArtifactPublicationRequest(lib, request)
  }

  lemma AdmittedRequestsAreValid(x: Setup, s: SourceState, call: Call)
    requires Admitted(x, s, call)
    ensures RequestValid(x.lib, call)
  {
    hide ValidManifestClosurePlanRequest, ValidCandidateClosureRetentionRequest, ValidOperationGrant,
         ValidArtifactDisclosureVerificationRequest, ValidArtifactPublicationRequest, ValidClosurePlan, TransferFits,
         ValidRoute;
  }

  lemma PlannedReceiptIsValid(x: Setup, s: SourceState, call: Call)
    requires SetupValid(x) && call.PlanCall? && ValidManifestClosurePlanRequest(x.lib, call.planRequest)
    ensures var (_, outcome) := Perform(x, Claimed(s, call), call);
            outcome.Answered? && ReceiptMatchesCall(x.lib, outcome.receipt, call)
  {
    PlansAreMade(x, call.planRequest);
    hide SetupValid, ValidManifestClosurePlanRequest, PlanFor, ValidClosurePlanReceiptForRequest;
  }

  lemma OtherReceiptsAreValid(x: Setup, s: SourceState, call: Call)
    requires SetupValid(x) && !call.PlanCall? && Performable(x, s, call) && RequestValid(x.lib, call)
    ensures var (_, outcome) := Perform(x, Claimed(s, call), call);
            outcome.Answered? && ReceiptMatchesCall(x.lib, outcome.receipt, call)
  {
    hide ValidCandidateClosureRetentionRequest, PlannedFilesValid, ValidArtifactDisclosureVerificationRequest,
         ValidArtifactPublicationRequest, ValidManifestClosurePlanRequest, TransferDigestText, PlanFor,
         ValidSHA256Digest, ValidClosurePlan, Verdict;
  }

  /** The receipt of every accepted call passes the contract's own receipt check for that request. */
  lemma AcceptedReceiptsAreValid(x: Setup, calls: seq<Call>, k: nat)
    requires Sound(x) && k < |calls| && AcceptedAt(x, calls, k)
    ensures OutcomeAt(x, calls, k).Answered? && ReceiptMatchesCall(x.lib, OutcomeAt(x, calls, k).receipt, calls[k])
  {
    hide SetupValid, Admitted, Performable, Perform, Claimed, ReceiptMatchesCall, Step, StateAt, PublishPrepared,
         AcceptedBy, ValidManifestClosurePlanRequest, ValidCandidateClosureRetentionRequest,
         ValidArtifactDisclosureVerificationRequest, ValidArtifactPublicationRequest;
    RunStep(x, calls, k);
    AdmittedRequestsAreValid(x, StateAt(x, calls, k), calls[k]);
    if calls[k].PlanCall? {
      PlannedReceiptIsValid(x, StateAt(x, calls, k), calls[k]);
    } else {
      OtherReceiptsAreValid(x, StateAt(x, calls, k), calls[k]);
    }
  }

  // ----- where stored entries come from -----

  predicate PlansAt(x: Setup, calls: seq<Call>, k: nat, planID: string)
    requires k < |calls|
  {
    AcceptedAt(x, calls, k) && calls[k].PlanCall? && planID == x.planID
  }

  predicate RetainsAt(x: Setup, calls: seq<Call>, k: nat, receiptID: string)
    requires k < |calls|
  {
    && AcceptedAt(x, calls, k) && calls[k].RetainCall?
    && RetentionID(calls[k].retainRequest.participantVersionID) == receiptID
  }

  predicate DisclosesAt(x: Setup, calls: seq<Call>, k: nat, commandID: string)
    requires k < |calls|
  {
    AcceptedAt(x, calls, k) && calls[k].DiscloseCall? && calls[k].discloseRequest.commandID == commandID
  }

  predicate PublishesAt(x: Setup, calls: seq<Call>, k: nat, commandID: string)
    requires k < |calls|
  {
    AcceptedAt(x, calls, k) && calls[k].PublishCall? && calls[k].publishRequest.commandID == commandID
  }

  /** What an accepted retention in state `s` stores. */
  function RetainedBy(x: Setup, s: SourceState, call: Call): RetainedRecord
    requires call.RetainCall? && call.retainRequest.closurePlanID in s.plansByID
  {
    RetainedRecord(RetainedReceipt(x, call.retainRequest), TransferDigestText(x.lib, call.files),
                   s.plansByID[call.retainRequest.closurePlanID])
  }

  /** What an accepted disclosure in state `s` stores. */
  function DisclosedBy(x: Setup, s: SourceState, call: Call): DisclosureRecord
    requires call.DiscloseCall? && call.discloseRequest.retentionReceiptID in s.retained
  {
    DisclosureRecord(call.discloseRequest,
                     DisclosedReceipt(x, call.discloseRequest,
                                      Verdict(TransferDigestText(x.lib, call.files),
                                              s.retained[call.discloseRequest.retentionReceiptID].transferDigest)))
  }

  lemma PlanIDKept(x: Setup, request: ManifestClosurePlanRequest)
    requires PlanFor(x, request).Some?
    ensures PlanFor(x, request).value.closurePlanID == x.planID
    ensures PlanFor(x, request).value ==
            PlanDraft(x, request).(closurePlanDigest := PlanFor(x, request).value.closurePlanDigest)
  {
    hide ValidClosurePlan, DigestJSON;
  }

  /** One step, seen through the maps a publication depends on. */
  lemma StepEffects(x: Setup, calls: seq<Call>, k: nat)
    requires Sound(x) && k < |calls|
    ensures var s, t, call := StateAt(x, calls, k), StateAt(x, calls, k + 1), calls[k];
            var accepted := AcceptedAt(x, calls, k);
            && (accepted ==> Admitted(x, s, call) && Performable(x, s, call))
            && (accepted && call.PublishCall? ==> PublishPrepared(x, s.retained, s.disclosureIDs, call.publishRequest))
            && t.plansByID == (if accepted && call.PlanCall?
                               then s.plansByID[x.planID := PlanFor(x, call.planRequest).value] else s.plansByID)
            && t.retained == (if accepted && call.RetainCall?
                              then s.retained[RetentionID(call.retainRequest.participantVersionID)
                                              := RetainedBy(x, s, call)]
                              else s.retained)
            && (!(accepted && call.DiscloseCall?) ==> t.disclosureIDs == s.disclosureIDs)
            && t.disclosures == (if accepted && call.DiscloseCall?
                                 then s.disclosures[call.discloseRequest.commandID := DisclosedBy(x, s, call)]
                                 else s.disclosures)
            && t.publications == (if accepted && call.PublishCall?
                                  then s.publications[call.publishRequest.commandID
                                                      := PublishedReceipt(x, call.publishRequest)]
                                  else s.publications)
  {
    hide SetupValid, Admitted, PublishPrepared, TransferDigestText, RetentionID, DisclosureID, Verdict, StateAt, Step,
         NewClosurePlan, AcceptedBy;
    RunStep(x, calls, k);
    if AcceptedAt(x, calls, k) && calls[k].PlanCall? {
      PlanIDKept(x, calls[k].planRequest);
    }
  }

  lemma {:induction false} PlanStoredBy(x: Setup, calls: seq<Call>, k: nat, planID: string) returns (h: nat)
    requires Sound(x) && k <= |calls| && planID in StateAt(x, calls, k).plansByID
    ensures h < k && PlansAt(x, calls, h, planID) && PlanFor(x, calls[h].planRequest).Some?
    ensures StateAt(x, calls, k).plansByID[planID] == PlanFor(x, calls[h].planRequest).value
    ensures forall m | h < m < k :: !PlansAt(x, calls, m, planID)
  {
    hide SetupValid, Admitted, PublishPrepared, Step, AcceptedBy, PlanFor, RetainedBy, DisclosedBy;
    StepEffects(x, calls, k - 1);
    if AcceptedAt(x, calls, k - 1) && calls[k - 1].PlanCall? && planID == x.planID {
      h := k - 1;
    } else {
      h := PlanStoredBy(x, calls, k - 1, planID);
    }
  }

  /** A retained record was stored by the last accepted retention under its receipt ID. */
  lemma {:induction false} RetainedStoredBy(x: Setup, calls: seq<Call>, k: nat, receiptID: string) returns (i: nat)
    requires Sound(x) && k <= |calls| && receiptID in StateAt(x, calls, k).retained
    ensures i < k && RetainsAt(x, calls, i, receiptID)
    ensures Performable(x, StateAt(x, calls, i), calls[i])
    ensures StateAt(x, calls, k).retained[receiptID] == RetainedBy(x, StateAt(x, calls, i), calls[i])
    ensures forall m | i < m < k :: !RetainsAt(x, calls, m, receiptID)
  {
    hide SetupValid, Admitted, PublishPrepared, Step, AcceptedBy, PlanFor, RetainedBy, DisclosedBy, RetentionID;
    StepEffects(x, calls, k - 1);
    if RetainsAt(x, calls, k - 1, receiptID) {
      i := k - 1;
    } else {
      i := RetainedStoredBy(x, calls, k - 1, receiptID);
    }
  }

  lemma {:induction false} DisclosureStoredBy(x: Setup, calls: seq<Call>, k: nat, commandID: string) returns (j: nat)
    requires Sound(x) && k <= |calls| && commandID in StateAt(x, calls, k).disclosures
    ensures j < k && DisclosesAt(x, calls, j, commandID)
    ensures Performable(x, StateAt(x, calls, j), calls[j])
    ensures StateAt(x, calls, k).disclosures[commandID] == DisclosedBy(x, StateAt(x, calls, j), calls[j])
  {
    hide SetupValid, Admitted, PublishPrepared, Step, AcceptedBy, PlanFor, RetainedBy, DisclosedBy, RetentionID;
    StepEffects(x, calls, k - 1);
    if DisclosesAt(x, calls, k - 1, commandID) {
      j := k - 1;
    } else {
      j := DisclosureStoredBy(x, calls, k - 1, commandID);
    }
  }

  lemma {:induction false} PublicationStoredBy(x: Setup, calls: seq<Call>, n: nat, commandID: string) returns (k: nat)
    requires Sound(x) && n <= |calls| && commandID in StateAt(x, calls, n).publications
    ensures k < n && PublishesAt(x, calls, k, commandID)
    ensures StateAt(x, calls, n).publications[commandID] == PublishedReceipt(x, calls[k].publishRequest)
  {
    hide SetupValid, Admitted, PublishPrepared, Step, AcceptedBy, PlanFor, RetainedBy, DisclosedBy, RetentionID;
    StepEffects(x, calls, n - 1);
    if PublishesAt(x, calls, n - 1, commandID) {
      k := n - 1;
    } else {
      k := PublicationStoredBy(x, calls, n - 1, commandID);
    }
  }

  // ----- the chain behind a publication -----

  /** What a retention and a disclosure request both name of the source they are about. */
  datatype SourceBinding = SourceBinding(
    providerID: string, adapterID: string, participantID: string, participantVersionID: string,
    closurePlanID: string, closurePlanDigest: string)

  function PlanBinding(plan: ClosurePlan): SourceBinding
  {
    SourceBinding(plan.providerID, plan.adapterID, plan.participantID, plan.participantVersionID,
                  plan.closurePlanID, plan.closurePlanDigest)
  }

  function RetentionBinding(request: CandidateClosureRetentionRequest): SourceBinding
  {
    SourceBinding(request.providerID, request.adapterID, request.participantID, request.participantVersionID,
                  request.closurePlanID, request.closurePlanDigest)
  }

  function DisclosureBinding(request: ArtifactDisclosureVerificationRequest): SourceBinding
  {
    SourceBinding(request.providerID, request.adapterID, request.participantID, request.participantVersionID,
                  request.closurePlanID, request.closurePlanDigest)
  }

  lemma RetentionFacts(x: Setup, s: SourceState, call: Call)
    requires call.RetainCall? && Admitted(x, s, call)
    ensures call.retainRequest.closurePlanID in s.plansByID
    ensures RetentionBinding(call.retainRequest) == PlanBinding(s.plansByID[call.retainRequest.closurePlanID])
    ensures TransferDigest(x.lib, call.files) == Some(call.retainRequest.candidateTransferredBytesDigest)
  {
    hide ValidOperationGrant, GrantBindsCandidateRequest, ValidCandidateClosureRetentionRequest, ValidClosurePlan,
         TransferDigest, FilesFit, TotalSize;
  }

  lemma DisclosureFacts(x: Setup, s: SourceState, call: Call)
    requires call.DiscloseCall? && Admitted(x, s, call)
    ensures call.discloseRequest.retentionReceiptID in s.retained
    ensures var record := s.retained[call.discloseRequest.retentionReceiptID];
            && DisclosureBinding(call.discloseRequest) == PlanBinding(record.plan)
            && call.discloseRequest.artifactDigest == record.receipt.artifactDigest
    ensures TransferDigest(x.lib, call.files) == Some(call.discloseRequest.publicCandidateTransferredBytesDigest)
  {
    hide ValidOperationGrant, GrantBindsDisclosureRequest, ValidArtifactDisclosureVerificationRequest,
         ValidClosurePlan, TransferDigest, FilesFit, TotalSize;
  }

  /** A publication request names the same version and artifact as the disclosure it rests on. */
  predicate PublicationNames(publication: ArtifactPublicationRequest, disclosure: ArtifactDisclosureVerificationRequest)
  {
    && publication.providerID == disclosure.providerID && publication.adapterID == disclosure.adapterID
    && publication.participantID == disclosure.participantID
    && publication.participantVersionID == disclosure.participantVersionID
    && publication.retentionReceiptID == disclosure.retentionReceiptID
    && publication.artifactDigest == disclosure.artifactDigest
    && publication.disclosureRequestDigest == disclosure.typedPayloadDigest
    && publication.disclosureReceiptID == DisclosureID(disclosure.commandID)
  }

  lemma PreparationFacts(x: Setup, s: SourceState, publication: ArtifactPublicationRequest) returns (c: string)
    requires LedgerAgrees(s) && PublishPrepared(x, s.retained, s.disclosureIDs, publication)
    ensures c in s.disclosures && PublicationNames(publication, s.disclosures[c].request)
    ensures s.disclosures[c].receipt.verdict == Matched
  {
    hide StageAgrees, FourPurposes, ValidArtifactPublicationRequest, ValidRetentionReceipt, DisclosureID,
         ValidArtifactDisclosureVerificationRequest, PlanDigests, CandidateDigests, DisclosureDigests,
         PublicationDigests, ValidSHA256Digest;
    c :| c in s.disclosures && publication.disclosureReceiptID == DisclosureID(c);
  }

  /** Steps i and j of a run: the retention, and the matched disclosure of what it stored. */
  predicate DisclosureRests(x: Setup, calls: seq<Call>, i: nat, j: nat)
    requires i < j < |calls|
  {
    && AcceptedAt(x, calls, i) && calls[i].RetainCall? && AcceptedAt(x, calls, j) && calls[j].DiscloseCall?
    && var retain, disclose := calls[i].retainRequest, calls[j].discloseRequest;
    && disclose.retentionReceiptID == RetentionID(retain.participantVersionID)
    && disclose.retentionReceiptID in StateAt(x, calls, j).retained
    && retain.closurePlanID in StateAt(x, calls, i).plansByID
    && StateAt(x, calls, j).retained[disclose.retentionReceiptID] == RetainedBy(x, StateAt(x, calls, i), calls[i])
    && (forall m | i < m < j :: !RetainsAt(x, calls, m, disclose.retentionReceiptID))
    && DisclosureBinding(disclose) == RetentionBinding(retain)
    && disclose.artifactDigest == x.artifactDigest
  }

  lemma DisclosureChain(x: Setup, calls: seq<Call>, j: nat) returns (i: nat)
    requires Sound(x) && j < |calls| && AcceptedAt(x, calls, j) && calls[j].DiscloseCall?
    ensures i < j && DisclosureRests(x, calls, i, j)
    ensures Verdict(TransferDigestText(x.lib, calls[j].files),
                    StateAt(x, calls, j).retained[calls[j].discloseRequest.retentionReceiptID].transferDigest)
            == Matched
       <==> TransferDigest(x.lib, calls[j].files) == TransferDigest(x.lib, calls[i].files)
    ensures TransferDigest(x.lib, calls[i].files).Some?
  {
    hide SetupValid, Admitted, PublishPrepared, Step, StateAt, AcceptedBy, PlanFor, DisclosedBy, RetentionID,
         TransferDigest, Performable;
    StepEffects(x, calls, j);
    DisclosureFacts(x, StateAt(x, calls, j), calls[j]);
    i := RetainedStoredBy(x, calls, j, calls[j].discloseRequest.retentionReceiptID);
    StepEffects(x, calls, i);
    RetentionFacts(x, StateAt(x, calls, i), calls[i]);
  }

  /** Every stored publication is preceded by an accepted plan, retention and disclosure, in that order. The
      disclosed files had the transfer digest stored under the retention receipt at that moment, and all name
      the same provider, adapter, participant, version, plan, plan digest and artifact digest. */
  lemma PublicationChain(x: Setup, calls: seq<Call>, commandID: string) returns (h: nat, i: nat, j: nat, k: nat)
    requires Sound(x) && commandID in StateAt(x, calls, |calls|).publications
    ensures h < i < j < k < |calls|
    ensures PlansAt(x, calls, h, x.planID) && PlanFor(x, calls[h].planRequest).Some?
    ensures DisclosureRests(x, calls, i, j) && PublishesAt(x, calls, k, commandID)
    ensures PlanBinding(PlanFor(x, calls[h].planRequest).value) == RetentionBinding(calls[i].retainRequest)
    ensures TransferDigest(x.lib, calls[j].files) == TransferDigest(x.lib, calls[i].files)
         == Some(StateAt(x, calls, j).retained[calls[j].discloseRequest.retentionReceiptID].transferDigest)
    ensures PublicationNames(calls[k].publishRequest, calls[j].discloseRequest)
    ensures StateAt(x, calls, |calls|).publications[commandID] == PublishedReceipt(x, calls[k].publishRequest)
  {
    hide SetupValid, Admitted, PublishPrepared, Step, StateAt, AcceptedBy, PlanFor, RetentionID, DisclosureID,
         TransferDigest, Performable, LedgerAgrees, PublicationNames;
    k := PublicationStoredBy(x, calls, |calls|, commandID);
    StepEffects(x, calls, k);
    ReachableLedger(x, calls, k);
    var c := PreparationFacts(x, StateAt(x, calls, k), calls[k].publishRequest);
    j := DisclosureStoredBy(x, calls, k, c);
    i := DisclosureChain(x, calls, j);
    StepEffects(x, calls, i);
    RetentionFacts(x, StateAt(x, calls, i), calls[i]);
    h := PlanStoredBy(x, calls, i, calls[i].retainRequest.closurePlanID);
  }

  /** Both transfers fit in memory and their digests' preimages do not collide. */
  ghost predicate NoCollision(lib: Library, a: seq<CandidateSourceFile>, b: seq<CandidateSourceFile>)
  {
    && Addressable([CANDIDATE_TRANSFERRED_BYTES_DOMAIN] + TransferParts(a))
    && Addressable([CANDIDATE_TRANSFERRED_BYTES_DOMAIN] + TransferParts(b))
    && CollisionFree(lib.sha256, Preimage(CANDIDATE_TRANSFERRED_BYTES_DOMAIN, TransferParts(a)),
                     Preimage(CANDIDATE_TRANSFERRED_BYTES_DOMAIN, TransferParts(b)))
  }

  lemma SameTransferSameFiles(lib: Library, a: seq<CandidateSourceFile>, b: seq<CandidateSourceFile>)
    requires TransferDigest(lib, a).Some? && TransferDigest(lib, a) == TransferDigest(lib, b) && NoCollision(lib, a, b)
    ensures a == b
  {
    hide TransferDigest, Addressable, CollisionFree, Preimage, TransferParts;
    TransferDigestDetermines(lib, a, b);
  }

  /** Short of a SHA-256 collision, the disclosed files are the retained files, in the same order. */
  lemma PublishedFilesWereRetained(x: Setup, calls: seq<Call>, commandID: string) returns (i: nat, j: nat)
    requires Sound(x) && commandID in StateAt(x, calls, |calls|).publications
    requires forall a, b | 0 <= a < |calls| && 0 <= b < |calls| && calls[a].RetainCall? && calls[b].DiscloseCall? ::
               NoCollision(x.lib, calls[a].files, calls[b].files)
    ensures i < j < |calls| && DisclosureRests(x, calls, i, j)
    ensures calls[i].files == calls[j].files
  {
    hide SetupValid, Step, StateAt, AcceptedBy, PlanFor, RetentionID, DisclosureID, TransferDigest, NoCollision,
         PublicationNames, DisclosedBy;
    var h, k;
    h, i, j, k := PublicationChain(x, calls, commandID);
    assert NoCollision(x.lib, calls[i].files, calls[j].files);
    SameTransferSameFiles(x.lib, calls[i].files, calls[j].files);
  }

  // ----- what the chain does not cover -----

  /** A retained record stays as it is while no retention under its receipt ID is accepted. */
  lemma {:induction false} RetainedKept(x: Setup, calls: seq<Call>, j: nat, k: nat, receiptID: string)
    requires Sound(x) && j <= k <= |calls| && receiptID in StateAt(x, calls, j).retained
    requires forall m | j <= m < k :: !RetainsAt(x, calls, m, receiptID)
    ensures receiptID in StateAt(x, calls, k).retained
    ensures StateAt(x, calls, k).retained[receiptID] == StateAt(x, calls, j).retained[receiptID]
    decreases k
  {
    hide SetupValid, Admitted, PublishPrepared, Step, StateAt, AcceptedBy, PlanFor, RetainedBy, DisclosedBy,
         RetentionID;
    if j == k {
    } else {
      RetainedKept(x, calls, j, k - 1, receiptID);
      StepEffects(x, calls, k - 1);
      assert !RetainsAt(x, calls, k - 1, receiptID);
    }
  }

  lemma {:induction false} RetainedStays(x: Setup, calls: seq<Call>, j: nat, k: nat, receiptID: string)
    requires Sound(x) && j <= k <= |calls| && receiptID in StateAt(x, calls, j).retained
    ensures receiptID in StateAt(x, calls, k).retained
    decreases k
  {
    hide SetupValid, Admitted, PublishPrepared, Step, StateAt, AcceptedBy, PlanFor, RetainedBy, DisclosedBy,
         RetentionID;
    if j == k {
    } else {
      RetainedStays(x, calls, j, k - 1, receiptID);
      StepEffects(x, calls, k - 1);
    }
  }

  lemma RetentionReplaces(x: Setup, calls: seq<Call>, j: nat, m: nat, k: nat, receiptID: string)
    requires Sound(x) && j <= m < k <= |calls| && receiptID in StateAt(x, calls, j).retained
    requires RetainsAt(x, calls, m, receiptID)
    ensures receiptID in StateAt(x, calls, k).retained
    ensures StateAt(x, calls, k).retained[receiptID] != StateAt(x, calls, j).retained[receiptID]
  {
    hide SetupValid, Admitted, PublishPrepared, Step, StateAt, AcceptedBy, PlanFor, DisclosedBy, RetentionID;
    RetainedStays(x, calls, j, k, receiptID);
    var before := RetainedStoredBy(x, calls, j, receiptID);
    var last := RetainedStoredBy(x, calls, k, receiptID);
    assert m <= last;
    AcceptedAtMostOnce(x, calls, before, last);
  }

  /** A retained record is the same at two moments exactly when no retention under its receipt ID is accepted in
      between. */
  lemma RetainedSameExactly(x: Setup, calls: seq<Call>, j: nat, k: nat, receiptID: string)
    requires Sound(x) && j <= k <= |calls| && receiptID in StateAt(x, calls, j).retained
    ensures receiptID in StateAt(x, calls, k).retained
    ensures StateAt(x, calls, k).retained[receiptID] == StateAt(x, calls, j).retained[receiptID]
       <==> forall m | j <= m < k :: !RetainsAt(x, calls, m, receiptID)
  {
    hide SetupValid, StateAt, RetainsAt;
    RetainedStays(x, calls, j, k, receiptID);
    if m :| j <= m < k && RetainsAt(x, calls, m, receiptID) {
      RetentionReplaces(x, calls, j, m, k, receiptID);
    } else {
      RetainedKept(x, calls, j, k, receiptID);
    }
  }

  /** Steps i, j, last and k of a run: the retention that was disclosed at j, and the last one before k. */
  ghost predicate HeldAtPublication(x: Setup, calls: seq<Call>, i: nat, j: nat, last: nat, k: nat)
    requires i < j < k < |calls| && calls[i].RetainCall? && calls[j].DiscloseCall?
  {
    var receiptID := calls[j].discloseRequest.retentionReceiptID;
    && i <= last < k && calls[last].RetainCall? && RetainsAt(x, calls, last, receiptID)
    && (forall m | last < m < k :: !RetainsAt(x, calls, m, receiptID))
    && receiptID in StateAt(x, calls, j).retained && receiptID in StateAt(x, calls, k).retained
    && calls[last].retainRequest.closurePlanID in StateAt(x, calls, last).plansByID
    && StateAt(x, calls, k).retained[receiptID] == RetainedBy(x, StateAt(x, calls, last), calls[last])
    && (StateAt(x, calls, k).retained[receiptID] == StateAt(x, calls, j).retained[receiptID] <==> last == i)
    && (last == i <==> forall m | j <= m < k :: !RetainsAt(x, calls, m, receiptID))
    && (StateAt(x, calls, k).retained[receiptID].transferDigest
        == StateAt(x, calls, j).retained[receiptID].transferDigest
        <==> TransferDigest(x.lib, calls[last].files) == TransferDigest(x.lib, calls[i].files))
  }

  lemma HeldLater(x: Setup, calls: seq<Call>, i: nat, j: nat, k: nat) returns (last: nat)
    requires Sound(x) && i < j < k < |calls| && DisclosureRests(x, calls, i, j)
    ensures HeldAtPublication(x, calls, i, j, last, k)
  {
    hide SetupValid, Admitted, PublishPrepared, Step, StateAt, AcceptedBy, PlanFor, DisclosedBy, RetentionID,
         TransferDigest, Performable;
    var receiptID := calls[j].discloseRequest.retentionReceiptID;
    RetainedSameExactly(x, calls, j, k, receiptID);
    last := RetainedStoredBy(x, calls, k, receiptID);
    assert RetainsAt(x, calls, i, receiptID);
    StepEffects(x, calls, i);
    StepEffects(x, calls, last);
    RetentionFacts(x, StateAt(x, calls, i), calls[i]);
    RetentionFacts(x, StateAt(x, calls, last), calls[last]);
    if last != i {
      assert last >= j;
    }
  }

  /** The record held when a publication is accepted is the disclosed one exactly when no retention under its
      receipt ID was accepted after the disclosure; it has the disclosed transfer digest exactly when the last
      retention before the publication transferred files of that digest. */
  lemma PublishedRecord(x: Setup, calls: seq<Call>, commandID: string) returns (i: nat, j: nat, last: nat, k: nat)
    requires Sound(x) && commandID in StateAt(x, calls, |calls|).publications
    ensures i < j < k < |calls| && PublishesAt(x, calls, k, commandID) && DisclosureRests(x, calls, i, j)
    ensures PublicationNames(calls[k].publishRequest, calls[j].discloseRequest)
    ensures TransferDigest(x.lib, calls[j].files) == TransferDigest(x.lib, calls[i].files)
    ensures HeldAtPublication(x, calls, i, j, last, k)
  {
    hide SetupValid, StateAt, PublicationNames, DisclosureRests, HeldAtPublication, TransferDigest, PlanFor, AcceptedBy;
    var h;
    h, i, j, k := PublicationChain(x, calls, commandID);
    last := HeldLater(x, calls, i, j, k);
  }

  function ReceiptBinding(receipt: ArtifactRetentionReceipt): SourceBinding
  {
    SourceBinding(receipt.providerID, receipt.adapterID, receipt.participantID, receipt.participantVersionID,
                  receipt.closurePlanID, receipt.closurePlanDigest)
  }

  lemma ReplacedRecordStillPrepares(x: Setup, retained: map<string, RetainedRecord>,
                                    disclosureIDs: map<string, DisclosureRecord>,
                                    publication: ArtifactPublicationRequest, record: RetainedRecord)
    requires PublishPrepared(x, retained, disclosureIDs, publication)
    requires ValidRetentionReceipt(record.receipt) && record.receipt.receiptID == publication.retentionReceiptID
    requires record.receipt.artifactDigest == retained[publication.retentionReceiptID].receipt.artifactDigest
    ensures PublishPrepared(x, retained[publication.retentionReceiptID := record], disclosureIDs, publication)
       <==> ReceiptBinding(record.receipt) == ReceiptBinding(retained[publication.retentionReceiptID].receipt)
  {
    hide ValidArtifactPublicationRequest, ValidArtifactDisclosureVerificationRequest, ValidSHA256Digest;
  }

  lemma RetainedReceiptIsValid(x: Setup, request: CandidateClosureRetentionRequest)
    requires ValidCandidateClosureRetentionRequest(x.lib, request) && ValidSHA256Digest(x.artifactDigest)
    ensures ValidRetentionReceipt(RetainedReceipt(x, request))
    ensures ReceiptBinding(RetainedReceipt(x, request)) == RetentionBinding(request)
  {
    hide ValidSHA256Digest, ValidSourceObjectID, DigestJSON;
  }

  /** A retention accepted while a publication is prepared, whatever files it transfers, withdraws the preparation
      exactly when it names another provider, adapter, participant, plan or plan digest than the retention it
      replaces. The transfer digest that was disclosed is not compared again. */
  lemma ReplacedRetentionStillPublishes(x: Setup, calls: seq<Call>, m: nat, publication: ArtifactPublicationRequest)
    requires Sound(x) && m < |calls| && RetainsAt(x, calls, m, publication.retentionReceiptID)
    requires PublishPrepared(x, StateAt(x, calls, m).retained, StateAt(x, calls, m).disclosureIDs, publication)
    ensures PublishPrepared(x, StateAt(x, calls, m + 1).retained, StateAt(x, calls, m + 1).disclosureIDs, publication)
       <==> RetentionBinding(calls[m].retainRequest)
            == ReceiptBinding(StateAt(x, calls, m).retained[publication.retentionReceiptID].receipt)
  {
    hide Admitted, Step, StateAt, AcceptedBy, PlanFor, DisclosedBy, RetentionID, ValidRetentionReceipt,
         TransferDigestText,
         ValidCandidateClosureRetentionRequest, ReceiptBinding, RetentionBinding, PlannedFilesValid,
         ValidArtifactPublicationPrerequisites;
    var s, call, receiptID := StateAt(x, calls, m), calls[m], publication.retentionReceiptID;
    StepEffects(x, calls, m);
    AdmittedRequestsAreValid(x, s, call);
    RetainedReceiptIsValid(x, call.retainRequest);
    var earlier := RetainedStoredBy(x, calls, m, receiptID);
    ReplacedRecordStillPrepares(x, s.retained, s.disclosureIDs, publication, RetainedBy(x, s, call));
  }

  lemma AdmittedDisclosure(x: Setup, s: SourceState, call: Call)
    requires call.DiscloseCall? && Admitted(x, s, call)
    ensures call.discloseRequest.retentionReceiptID in s.retained
  {
    hide ValidOperationGrant, GrantBindsDisclosureRequest, ValidArtifactDisclosureInput;
  }

  /** With the ledger defect on, a disclosure under a planned command is accepted, so one command is in two
      receipt maps and the plan can no longer be replayed. */
  lemma DefectBreaksPartition(x: Setup, s: SourceState, disclose: Call, plan: Call)
    requires x.allowManifestToDisclosureCollision && LedgerAgrees(s)
    requires disclose.DiscloseCall? && Admitted(x, s, disclose) && CommandOf(disclose) in s.planCommands
    requires plan.PlanCall? && CommandOf(plan) == CommandOf(disclose)
    ensures var t := Step(x, s, disclose).0;
            && CommandOf(disclose) in t.planCommands && CommandOf(disclose) in t.disclosures && !LedgerAgrees(t)
            && Step(x, t, plan) == (t, Refused(if Admitted(x, t, plan) then SourceCommandConflict else InvalidGrant))
  {
    hide Admitted, LedgerAgrees, TransferDigestText, DisclosureID, PublishPrepared;
    LedgerAt(s, CommandOf(disclose));
    var t := Step(x, s, disclose).0;
    AdmittedDisclosure(x, s, disclose);
    if LedgerAgrees(t) {
      LedgerAt(t, CommandOf(disclose));
      assert false;
    }
  }

  lemma FlagPlaysNoPart(x: Setup, s: SourceState, call: Call)
    ensures var y := x.(allowManifestToDisclosureCollision := false);
            && Admitted(x, s, call) == Admitted(y, s, call)
            && (call.PublishCall? ==>
                  PublishPrepared(x, s.retained, s.disclosureIDs, call.publishRequest)
                  == PublishPrepared(y, s.retained, s.disclosureIDs, call.publishRequest))
            && (Admitted(x, s, call) ==>
                  && (call.RetainCall? ==> call.retainRequest.closurePlanID in s.plansByID)
                  && (call.DiscloseCall? ==> call.discloseRequest.retentionReceiptID in s.retained)
                  && Perform(x, Claimed(s, call), call) == Perform(y, Claimed(s, call), call))
  {
    hide ValidOperationGrant, GrantBindsManifestRequest, GrantBindsCandidateRequest, GrantBindsDisclosureRequest,
         GrantBindsPublicationRequest, ValidManifestClosurePlanInput, ValidCandidateClosureInput, TransferDigestText,
         ValidArtifactDisclosureInput, ValidArtifactPublicationPrerequisites, NewClosurePlan;
  }

  /** The flag changes nothing but the answer to a disclosure under a command the ledger holds as a plan's. */
  lemma DefectIsLimited(x: Setup, s: SourceState, call: Call)
    requires Step(x, s, call) != Step(x.(allowManifestToDisclosureCollision := false), s, call)
    ensures x.allowManifestToDisclosureCollision && call.DiscloseCall?
    ensures call.discloseRequest.commandID in s.commands
    ensures s.commands[call.discloseRequest.commandID].purpose == ManifestClosurePlan
  {
    FlagPlaysNoPart(x, s, call);
    hide Admitted, PublishPrepared, ReplayOf, Perform, Claimed;
  }
}
