/** The reference execution provider's launch ledger, and what its receipts let an event sink accept. */
module Launches {
  import opened Primitives
  import opened ContractTypes
  import opened DigestFraming
  import opened Execution
  import opened OperationGrants
  import EventSink

  /** The provider this is, and the route it expects for each request. */
  datatype LaunchSetup = LaunchSetup(
    lib: Library, providerID: string, adapterID: string, routeFor: ExecutionRequest -> OperationRouteBinding)

  datatype StoredLaunch = StoredLaunch(digest: string, receipt: ExecutionReceipt)

  datatype LaunchCall = LaunchCall(grant: OperationGrant, request: ExecutionRequest)

  datatype LaunchError = InvalidLaunch | LaunchConflict

  type LaunchAnswer = Result<ExecutionReceipt, LaunchError>

  type Ledger = map<string, StoredLaunch>

  predicate GrantBindsLaunchRequest(lib: Library, g: OperationGrant, route: OperationRouteBinding,
                                    request: ExecutionRequest)
  {
    && ValidOperationGrant(g) && ValidExecutionRequest(lib, request) && ValidRoute(g, route)
    && g.purpose == ContestLaunch && g.scope == GrantScopeForPurpose(ContestLaunch)
    && g.providerID == request.providerID && g.adapterID == request.adapterID
    && g.competitionID == request.competitionID && g.contestID == request.contestID
    && g.requestID == request.id && g.commandID == request.commandID
    && g.typedPayloadDigest == request.typedPayloadDigest
  }

  predicate MayLaunch(x: LaunchSetup, call: LaunchCall)
  {
    && GrantBindsLaunchRequest(x.lib, call.grant, x.routeFor(call.request), call.request)
    && call.request.providerID == x.providerID && call.request.adapterID == x.adapterID
  }

  const SAFE_RECEIPT_PREFIX := "safe:receipt:"

  function LaunchReceipt(request: ExecutionRequest): ExecutionReceipt
  {
    ExecutionReceipt(request.id, request.commandID, request.providerID, request.adapterID,
                     "instance-" + request.id, Accepted, [SAFE_RECEIPT_PREFIX + request.id])
  }

  function LaunchStep(x: LaunchSetup, launches: Ledger, call: LaunchCall): (Ledger, LaunchAnswer)
  {
    var request := call.request;
    if !MayLaunch(x, call) then (launches, Err(InvalidLaunch))
    else if request.commandID in launches then
      var prior := launches[request.commandID];
      (launches, if prior.digest != request.typedPayloadDigest then Err(LaunchConflict)
                 else Ok(prior.receipt.(status := Replayed)))
    else
      (launches[request.commandID := StoredLaunch(request.typedPayloadDigest, LaunchReceipt(request))],
       Ok(LaunchReceipt(request)))
  }

  class ReferenceProvider {
    const setup: LaunchSetup
    var launches: Ledger

    constructor (setup: LaunchSetup)
      ensures this.setup == setup && launches == map[]
    {
      this.setup := setup;
      launches := map[];
    }

    method LaunchExecution(grant: OperationGrant, request: ExecutionRequest) returns (answer: LaunchAnswer)
      modifies this
      ensures (launches, answer) == LaunchStep(setup, old(launches), LaunchCall(grant, request))
    {
      hide GrantBindsLaunchRequest;
      if !GrantBindsLaunchRequest(setup.lib, grant, setup.routeFor(request), request) {
        return Err(InvalidLaunch);
      }
      if request.providerID != setup.providerID || request.adapterID != setup.adapterID {
        return Err(InvalidLaunch);
      }
      if request.commandID in launches {
        var prior := launches[request.commandID];
        if prior.digest != request.typedPayloadDigest {
          return Err(LaunchConflict);
        }
        return Ok(prior.receipt.(status := Replayed));
      }
      var receipt := LaunchReceipt(request);
      launches := launches[request.commandID := StoredLaunch(request.typedPayloadDigest, receipt)];
      return Ok(receipt);
    }
  }

  // ----- runs -----

  function LedgerAt(x: LaunchSetup, calls: seq<LaunchCall>, k: nat): Ledger
    requires k <= |calls|
  {
    if k == 0 then map[] else LaunchStep(x, LedgerAt(x, calls, k - 1), calls[k - 1]).0
  }

  function LaunchAnswerAt(x: LaunchSetup, calls: seq<LaunchCall>, k: nat): LaunchAnswer
    requires k < |calls|
  {
    LaunchStep(x, LedgerAt(x, calls, k), calls[k]).1
  }

  predicate LaunchedAt(x: LaunchSetup, calls: seq<LaunchCall>, k: nat)
    requires k < |calls|
  {
    MayLaunch(x, calls[k]) && calls[k].request.commandID !in LedgerAt(x, calls, k)
  }

  lemma {:induction false} LaunchKept(x: LaunchSetup, calls: seq<LaunchCall>, i: nat, k: nat)
    requires i < k <= |calls| && LaunchedAt(x, calls, i)
    ensures var request, launches := calls[i].request, LedgerAt(x, calls, k);
            && request.commandID in launches
            && launches[request.commandID] == StoredLaunch(request.typedPayloadDigest, LaunchReceipt(request))
    decreases k
  {
    hide MayLaunch, LaunchReceipt;
    if i == k - 1 {
    } else {
      LaunchKept(x, calls, i, k - 1);
    }
  }

  /** A launched command answers for itself: the exact retry gets the first receipt marked as a replay, another
      payload is a conflict, and neither changes the ledger. */
  lemma LaunchedCommandDecides(x: LaunchSetup, calls: seq<LaunchCall>, i: nat, j: nat)
    requires i < j < |calls| && LaunchedAt(x, calls, i)
    requires MayLaunch(x, calls[j]) && calls[j].request.commandID == calls[i].request.commandID
    ensures LaunchAnswerAt(x, calls, i) == Ok(LaunchReceipt(calls[i].request))
    ensures LaunchAnswerAt(x, calls, j)
         == if calls[j].request.typedPayloadDigest == calls[i].request.typedPayloadDigest
            then Ok(LaunchReceipt(calls[i].request).(status := Replayed)) else Err(LaunchConflict)
    ensures LedgerAt(x, calls, j + 1) == LedgerAt(x, calls, j)
  {
    hide MayLaunch, LaunchReceipt;
    LaunchKept(x, calls, i, j);
  }

  lemma SafeReferenceExactly(id: string)
    ensures ValidSafeReference(SAFE_RECEIPT_PREFIX + id) <==> ReferenceChars(id)
  {
    hide ReferenceChars;
    var value := SAFE_RECEIPT_PREFIX + id;
    assert value[..13] == SAFE_RECEIPT_PREFIX && value[13..] == id;
  }

  /** The receipt of a launch, first or replayed, passes the contract's receipt check exactly when the request ID
      fits in a safe reference: a valid request whose ID has another character, or more than 256, does not. */
  lemma LaunchReceiptValidity(x: LaunchSetup, call: LaunchCall, status: ReceiptStatus)
    requires MayLaunch(x, call)
    ensures ValidExecutionReceiptForRequest(x.lib, LaunchReceipt(call.request).(status := status), call.request)
       <==> ReferenceChars(call.request.id)
  {
    hide ValidExecutionRequest, ValidOperationGrant, ValidRoute, ReferenceChars, ValidSafeReference;
    SafeReferenceExactly(call.request.id);
    var receipt := LaunchReceipt(call.request).(status := status);
    assert receipt.safeReferences[0] == SAFE_RECEIPT_PREFIX + call.request.id;
    assert "instance-" + call.request.id != "";
  }

  /** A sink opened for a launch accepts nothing, ever, when the request ID does not fit in a safe reference. */
  lemma UnfitLaunchIsDeaf(x: LaunchSetup, call: LaunchCall, status: ReceiptStatus, sink: EventSink.Launch,
                          submissions: seq<EventSink.Submission>, k: nat)
    requires MayLaunch(x, call) && !ReferenceChars(call.request.id) && k < |submissions|
    requires sink.lib == x.lib && sink.request == call.request
    requires sink.receipt == LaunchReceipt(call.request).(status := status)
    ensures EventSink.AnswerAt(sink, submissions, k) == Err(EventSink.InvalidSubmission)
  {
    hide MayLaunch, LaunchReceipt, ReferenceChars, ValidEventGrantForEvent, ValidExecutionReceiptForRequest,
         ValidExecutionEvent, EventSink.After;
    LaunchReceiptValidity(x, call, status);
  }

  lemma CompletedHasResult(lib: Library, event: ExecutionEvent, request: ExecutionRequest, receipt: ExecutionReceipt)
    requires ValidExecutionEventForExecution(lib, event, request, receipt) && event.kind == Completed
    ensures event.result.Some?
  {
    hide ValidExecutionReceiptForRequest, EvidenceBinds, PlacementsBind, EventIdentityBinds;
  }

  /** The result a sink accepts, in any run, gives every frozen slot of the launched request one placement. */
  lemma AcceptedResultPlacesEverySlot(sink: EventSink.Launch, submissions: seq<EventSink.Submission>, k: nat)
    requires k < |submissions| && submissions[k].event.kind == Completed
    requires EventSink.AnswerAt(sink, submissions, k) == Ok(EventSink.EventAccepted)
    ensures EventSink.After(sink, submissions[..k]).state == StartedState
    ensures submissions[k].event.result.Some?
    ensures var ps, entries := submissions[k].event.result.value.placements, RequestEntries(sink.request.profile);
            && 0 < |ps| == |entries| <= TWO16 && PlacesEverySlot(ps, entries)
            && multiset(Placements.EntryIDs(ps)) == multiset(entries)
  {
    hide ValidEventGrantForEvent, ValidExecutionEventForExecution, EventSink.After;
    CompletedHasResult(sink.lib, submissions[k].event, sink.request, sink.receipt);
    CompletedEventIsAPermutation(sink.lib, submissions[k].event, sink.request, sink.receipt);
  }

  // ----- a launch whose receipt is refused -----

  function ConstantDigest(): (d: string)
    ensures ValidSHA256Digest(d)
  {
    DigestText(seq(32, i => 'a'))
  }

  lemma ConstantDigests(domain: string, value: JsonValue)
    ensures SourceOperations.DigestJSON(ConstantLibrary(), domain, value) == Some(ConstantDigest())
  {
    hide Preimage;
  }

  /** A valid request, but for its ID: a single space. */
  function SpaceRequest(): ExecutionRequest
  {
    var slot := ScheduledSlot(0, "entry", ["participant"], "");
    ExecutionRequest(
      " ", "provider", "adapter", "competition", "contest", "command", "game", "rules",
      ExecutionProfile(ParticipantScheduledKind, None, Some(ParticipantScheduledProfile(1, [slot]))), [], "callback",
      ConstantDigest())
  }

  function LaunchOperation(request: ExecutionRequest): OperationGrantRequest
  {
    OperationGrantRequest(
      purpose := ContestLaunch, providerID := request.providerID, adapterID := request.adapterID,
      competitionID := request.competitionID, contestID := request.contestID, requestID := request.id,
      providerInstanceID := "", commandID := request.commandID, typedPayloadDigest := request.typedPayloadDigest,
      transportContentType := "application/json", rawTransportDigest := ConstantDigest(), method_ := "POST",
      resource := "/game/launch", participantID := "", participantVersionID := "", repositoryNodeID := "",
      commitOID := "", manifestPath := "", manifestEntryKind := "", rawManifestBytesDigest := "",
      manifestByteLimit := 0, closurePlanID := "", closurePlanDigest := "", candidateTransferredBytesDigest := "",
      publicCandidateTransferredBytesDigest := "", aggregateByteLimit := 0, retentionReceiptID := "",
      artifactDigest := "", disclosureReceiptID := "", disclosureRequestDigest := "")
  }

  function LaunchGrant(request: ExecutionRequest): OperationGrant
  {
    AssembleGrant("issuer", "subject", "audience", "key", "token", CHECK_TIME, 300 * SECOND, LaunchOperation(request))
  }

  function LaunchRoute(request: ExecutionRequest): OperationRouteBinding
  {
    OperationRouteBinding(
      "issuer", "subject", "audience", TOKEN_TYPE_ACCESS_JWT, GrantScopeForPurpose(ContestLaunch), ContestLaunch,
      request.providerID, request.adapterID, "application/json", ConstantDigest(), "POST", "/game/launch")
  }

  lemma SpaceRequestIsValid()
    ensures ValidExecutionRequest(ConstantLibrary(), SpaceRequest())
  {
    ConstantDigests(EXECUTION_REQUEST_DOMAIN, ExecutionRequestJson(SpaceRequest().(typedPayloadDigest := "")));
    hide ConstantDigest, ConstantLibrary, ValidSHA256Digest;
    var slots := SpaceRequest().profile.participantScheduled.value.slots;
    assert slots[..0] == [] && AllParticipants(slots) == [] + ["participant"];
  }

  lemma LaunchGrantBinds(request: ExecutionRequest)
    requires ValidExecutionRequest(ConstantLibrary(), request)
    ensures GrantBindsLaunchRequest(ConstantLibrary(), LaunchGrant(request), LaunchRoute(request), request)
  {
    hide ConstantDigest, ValidSHA256Digest, ValidExecutionProfile;
    AssembledGrantValidity("issuer", "subject", "audience", "key", "token", CHECK_TIME, 300 * SECOND,
                           LaunchOperation(request));
  }

  /** The failing input: a launch under the request ID " " is accepted, and no sink opened for it accepts an event. */
  lemma SpaceLaunchIsDeaf() returns (x: LaunchSetup, call: LaunchCall)
    ensures LaunchedAt(x, [call], 0) && call.request.id == " " && !ReferenceChars(call.request.id)
    ensures LaunchAnswerAt(x, [call], 0) == Ok(LaunchReceipt(call.request))
    ensures !ValidExecutionReceiptForRequest(x.lib, LaunchReceipt(call.request), call.request)
    ensures forall sink: EventSink.Launch, submissions: seq<EventSink.Submission>, k: nat |
              && sink.lib == x.lib && sink.request == call.request && sink.receipt == LaunchReceipt(call.request)
              && k < |submissions| ::
              EventSink.AnswerAt(sink, submissions, k) == Err(EventSink.InvalidSubmission)
  {
    hide EventSink.AnswerAt, ConstantLibrary, GrantBindsLaunchRequest, ValidExecutionRequest, LaunchGrant,
         ValidExecutionReceiptForRequest;
    SpaceRequestIsValid();
    LaunchGrantBinds(SpaceRequest());
    x := LaunchSetup(ConstantLibrary(), "provider", "adapter", LaunchRoute);
    call := LaunchCall(LaunchGrant(SpaceRequest()), SpaceRequest());
    assert call.request.id[0] == ' ';
    LaunchReceiptValidity(x, call, Accepted);
    forall sink: EventSink.Launch, submissions: seq<EventSink.Submission>, k: nat
      | && sink.lib == x.lib && sink.request == call.request && sink.receipt == LaunchReceipt(call.request)
        && k < |submissions|
      ensures EventSink.AnswerAt(sink, submissions, k) == Err(EventSink.InvalidSubmission)
    {
      UnfitLaunchIsDeaf(x, call, Accepted, sink, submissions, k);
    }
  }
}
