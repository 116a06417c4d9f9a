/** What every submission to an event sink and every launch is answered, decided by the fields of grant, event and
    request, the route, what the sink or provider was created for, and what was accepted before. */
module ExecutionAnswers {
  import opened Primitives
  import opened ContractTypes
  import opened Execution
  import opened ExecutionForms
  import opened OperationGrants
  import opened GrantAuthority
  import opened EventSink
  import opened Launches

  // ----- events -----

  /** The grant is the one for this event and route, and the event fits the sink's request and receipt. */
  ghost predicate MaySubmit(x: Launch, submission: Submission)
  {
    && IsEventGrant(submission.grant, x.routeFor(submission.event), submission.event)
    && EventFits(x.lib, submission.event, x.request, x.receipt)
  }

  lemma AuthorisedExactly(x: Launch, submission: Submission)
    ensures Authorised(x, submission) <==> MaySubmit(x, submission)
  {
    hide ValidEventGrantForEvent, IsEventGrant, EventFits, ValidExecutionReceiptForRequest, EventIdentityBinds,
         PlacementsBind, EvidenceBinds, ValidExecutionEvent;
    EventExactly(x.lib, submission.event, x.request, x.receipt);
    if ValidExecutionEvent(x.lib, submission.event) {
      EventGrantExactly(x.lib, submission.grant, x.routeFor(submission.event), submission.event);
    }
  }

  /** An earlier submission under this command was accepted. */
  predicate AcceptedBefore(x: Launch, subs: seq<Submission>, i: nat, k: nat)
    requires k < |subs|
  {
    i < k && AnswerAt(x, subs, i) == Ok(EventAccepted) && subs[i].event.commandID == subs[k].event.commandID
  }

  /** Stored commands are those of accepted submissions. */
  lemma {:induction false} StoredWasAccepted(x: Launch, subs: seq<Submission>, k: nat, command: string) returns (i: nat)
    requires k <= |subs| && command in After(x, subs[..k]).events
    ensures i < k && AnswerAt(x, subs, i) == Ok(EventAccepted) && subs[i].event.commandID == command
  {
    hide Submit, Authorised, ValidLifecycleTransition, StateForEvent;
    var prefix := subs[..k];
    assert prefix[..k - 1] == subs[..k - 1] && prefix[k - 1] == subs[k - 1];
    SubmitFacts(x, After(x, subs[..k - 1]), subs[k - 1]);
    if command in After(x, subs[..k - 1]).events {
      i := StoredWasAccepted(x, subs, k - 1, command);
    } else {
      i := k - 1;
    }
  }

  lemma StoredIsAcceptedBefore(x: Launch, subs: seq<Submission>, k: nat)
    requires k < |subs| && subs[k].event.commandID in After(x, subs[..k]).events
    ensures exists i: nat :: i < k && AcceptedBefore(x, subs, i, k)
  {
    hide After, AnswerAt;
    var i := StoredWasAccepted(x, subs, k, subs[k].event.commandID);
    assert AcceptedBefore(x, subs, i, k);
  }

  lemma PrefixGrows(x: Launch, subs: seq<Submission>, k: nat)
    requires k < |subs|
    ensures After(x, subs[..k + 1]) == Submit(x, After(x, subs[..k]), subs[k]).0
  {
    hide Submit;
    var longer := subs[..k + 1];
    assert longer[..k] == subs[..k] && longer[k] == subs[k];
  }

  /** The kinds accepted among the first k submissions. */
  function KindsBefore(x: Launch, subs: seq<Submission>, k: nat): seq<EventKind>
    requires k <= |subs|
  {
    Kinds(AcceptedOnes(x, subs[..k]))
  }

  /** A submission that may not be made is refused and changes nothing. */
  lemma UnfitSubmission(x: Launch, subs: seq<Submission>, k: nat)
    requires k < |subs| && !MaySubmit(x, subs[k])
    ensures AnswerAt(x, subs, k) == Err(InvalidSubmission) && After(x, subs[..k + 1]) == After(x, subs[..k])
  {
    hide MaySubmit, Authorised, ValidLifecycleTransition;
    AuthorisedExactly(x, subs[k]);
    PrefixGrows(x, subs, k);
  }

  /** Under an accepted command a submission changes nothing: the same payload is a replay, another a conflict. */
  lemma RepeatedSubmission(x: Launch, subs: seq<Submission>, i: nat, k: nat)
    requires k < |subs| && MaySubmit(x, subs[k]) && AcceptedBefore(x, subs, i, k)
    ensures AnswerAt(x, subs, k) == if subs[i].event.typedPayloadDigest == subs[k].event.typedPayloadDigest
                                    then Ok(EventReplayed) else Err(CommandConflict)
    ensures After(x, subs[..k + 1]) == After(x, subs[..k])
  {
    hide MaySubmit, Authorised, Submit;
    AuthorisedExactly(x, subs[k]);
    AcceptedEventReplaysForever(x, subs, i, k);
  }

  /** Under a new command a submission is accepted exactly when the kinds accepted so far and its own form one of
      the seven lifecycles; otherwise it is an invalid transition and changes nothing. */
  lemma NewSubmission(x: Launch, subs: seq<Submission>, k: nat)
    requires k < |subs| && MaySubmit(x, subs[k]) && forall i: nat | i < k :: !AcceptedBefore(x, subs, i, k)
    ensures var kinds := KindsBefore(x, subs, k) + [subs[k].event.kind];
            if Lifecycle(kinds)
            then AnswerAt(x, subs, k) == Ok(EventAccepted) && KindsBefore(x, subs, k + 1) == kinds
            else AnswerAt(x, subs, k) == Err(InvalidTransition) && After(x, subs[..k + 1]) == After(x, subs[..k])
  {
    hide MaySubmit, Authorised, ValidLifecycleTransition, Lifecycle, After, AcceptedOnes;
    AuthorisedExactly(x, subs[k]);
    if subs[k].event.commandID in After(x, subs[..k]).events {
      StoredIsAcceptedBefore(x, subs, k);
      assert false;
    }
    NextAcceptedExactly(x, subs[..k], subs[k]);
    PrefixGrows(x, subs, k);
    var longer := subs[..k + 1];
    assert longer[..k] == subs[..k] && longer[k] == subs[k];
    RunGrows(x, longer);
  }

  /** The sink's state is told by the last accepted kind. */
  lemma StateTellsLastKind(x: Launch, subs: seq<Submission>)
    ensures var kinds := Kinds(AcceptedOnes(x, subs));
            match After(x, subs).state
            case AcceptedState => kinds == []
            case StartedState => kinds == [Started]
            case CompletedState => kinds == [Started, Completed]
            case FailedState => kinds == [Failed] || kinds == [Started, Failed]
            case CancelledState => kinds == [Cancelled] || kinds == [Started, Cancelled]
            case NoState => false
  {
    RunsAreLifecycles(x, subs);
    hide After, AcceptedOnes;
  }

  /** An event of another competition, contest, request, provider, adapter or instance is refused, whatever its kind
      and grant, and changes nothing. */
  lemma ForeignEventRefused(x: Launch, subs: seq<Submission>, k: nat)
    requires k < |subs|
    requires var e := subs[k].event;
             || e.competitionID != x.request.competitionID || e.contestID != x.request.contestID
             || e.requestID != x.request.id || e.providerID != x.request.providerID
             || e.adapterID != x.request.adapterID || e.providerInstanceID != x.receipt.providerInstanceID
    ensures AnswerAt(x, subs, k) == Err(InvalidSubmission) && After(x, subs[..k + 1]) == After(x, subs[..k])
  {
    hide IsEventGrant, After, RequestFits, ReceiptFits, BodyFits;
    UnfitSubmission(x, subs, k);
  }

  // ----- launches -----

  /** The grant is the one for this request and route, and the request fits and names this provider. */
  predicate MayBeLaunched(x: LaunchSetup, call: LaunchCall)
  {
    && IsLaunchGrant(call.grant, x.routeFor(call.request), call.request) && RequestFits(x.lib, call.request)
    && call.request.providerID == x.providerID && call.request.adapterID == x.adapterID
  }

  lemma LaunchBindingHasRequest(lib: Library, g: OperationGrant, route: OperationRouteBinding, r: ExecutionRequest)
    ensures GrantBindsLaunchRequest(lib, g, route, r) ==> ValidExecutionRequest(lib, r)
  {
    hide ValidOperationGrant, ValidExecutionRequest, ValidRoute, GrantScopeForPurpose;
  }

  lemma MayLaunchExactly(x: LaunchSetup, call: LaunchCall)
    ensures MayLaunch(x, call) <==> MayBeLaunched(x, call)
  {
    hide GrantBindsLaunchRequest, IsLaunchGrant, RequestFits, ValidExecutionRequest;
    RequestExactly(x.lib, call.request);
    LaunchBindingHasRequest(x.lib, call.grant, x.routeFor(call.request), call.request);
    if ValidExecutionRequest(x.lib, call.request) {
      LaunchGrantExactly(x.lib, call.grant, x.routeFor(call.request), call.request);
    }
  }

  /** A launch that may not be made is refused and changes nothing. */
  lemma UnfitLaunch(x: LaunchSetup, calls: seq<LaunchCall>, k: nat)
    requires k < |calls| && !MayBeLaunched(x, calls[k])
    ensures LaunchAnswerAt(x, calls, k) == Err(InvalidLaunch) && LedgerAt(x, calls, k + 1) == LedgerAt(x, calls, k)
  {
    hide MayBeLaunched, MayLaunch, LaunchReceipt;
    MayLaunchExactly(x, calls[k]);
  }

  /** An earlier call under this command was a first launch. */
  predicate LaunchedBefore(x: LaunchSetup, calls: seq<LaunchCall>, i: nat, k: nat)
    requires k < |calls|
  {
    i < k && LaunchedAt(x, calls, i) && calls[i].request.commandID == calls[k].request.commandID
  }

  lemma {:induction false} LedgerHoldsLaunches(x: LaunchSetup, calls: seq<LaunchCall>, k: nat, command: string)
    returns (i: nat)
    requires k <= |calls| && command in LedgerAt(x, calls, k)
    ensures i < k && LaunchedAt(x, calls, i) && calls[i].request.commandID == command
  {
    hide MayLaunch, LaunchReceipt;
    if command in LedgerAt(x, calls, k - 1) {
      i := LedgerHoldsLaunches(x, calls, k - 1, command);
    } else {
      i := k - 1;
    }
  }

  /** The receipt of a launch, of either status. */
  function ReceiptOf(r: ExecutionRequest, status: ReceiptStatus): ExecutionReceipt
  {
    ExecutionReceipt(
      requestID := r.id, commandID := r.commandID, providerID := r.providerID, adapterID := r.adapterID,
      providerInstanceID := "instance-" + r.id, status := status, safeReferences := ["safe:receipt:" + r.id])
  }

  /** Under a launched command a launch changes nothing: the same payload is answered with the receipt of the first
      launch's request as a replay, another payload is a conflict. */
  lemma RepeatedLaunch(x: LaunchSetup, calls: seq<LaunchCall>, i: nat, k: nat)
    requires k < |calls| && MayBeLaunched(x, calls[k]) && LaunchedBefore(x, calls, i, k)
    ensures LaunchAnswerAt(x, calls, k)
         == if calls[i].request.typedPayloadDigest == calls[k].request.typedPayloadDigest
            then Ok(ReceiptOf(calls[i].request, Replayed)) else Err(LaunchConflict)
    ensures LedgerAt(x, calls, k + 1) == LedgerAt(x, calls, k)
  {
    hide MayBeLaunched, MayLaunch, LedgerAt, LaunchAnswerAt;
    MayLaunchExactly(x, calls[k]);
    LaunchedCommandDecides(x, calls, i, k);
  }

  lemma LedgerIsLaunched(x: LaunchSetup, calls: seq<LaunchCall>, k: nat)
    requires k < |calls| && calls[k].request.commandID in LedgerAt(x, calls, k)
    ensures exists i: nat :: i < k && LaunchedBefore(x, calls, i, k)
  {
    hide LaunchedAt, LedgerAt;
    var i := LedgerHoldsLaunches(x, calls, k, calls[k].request.commandID);
    assert LaunchedBefore(x, calls, i, k);
  }

  /** Under a new command a launch is accepted and recorded under it. */
  lemma NewLaunch(x: LaunchSetup, calls: seq<LaunchCall>, k: nat)
    requires k < |calls| && MayBeLaunched(x, calls[k]) && forall i: nat | i < k :: !LaunchedBefore(x, calls, i, k)
    ensures LaunchedAt(x, calls, k) && LaunchAnswerAt(x, calls, k) == Ok(ReceiptOf(calls[k].request, Accepted))
    ensures LedgerAt(x, calls, k + 1)
         == LedgerAt(x, calls, k)[calls[k].request.commandID :=
              StoredLaunch(calls[k].request.typedPayloadDigest, ReceiptOf(calls[k].request, Accepted))]
  {
    hide MayBeLaunched, MayLaunch, LaunchedBefore;
    MayLaunchExactly(x, calls[k]);
    if calls[k].request.commandID in LedgerAt(x, calls, k) {
      LedgerIsLaunched(x, calls, k);
      assert false;
    }
  }
}
