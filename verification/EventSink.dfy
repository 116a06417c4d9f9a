/** The consumer of one execution's lifecycle events, and its every run. */
module EventSink {
  import opened Primitives
  import opened ContractTypes
  import opened Execution
  import opened OperationGrants

  datatype Acknowledgement = EventAccepted | EventReplayed

  datatype SubmitError = InvalidSubmission | CommandConflict | InvalidTransition

  type Answer = Result<Acknowledgement, SubmitError>

  /** What the sink was created for: one request, its launch receipt, and the route it expects per event. */
  datatype Launch = Launch(
    lib: Library, request: ExecutionRequest, receipt: ExecutionReceipt,
    routeFor: ExecutionEvent -> OperationRouteBinding)

  datatype Submission = Submission(grant: OperationGrant, event: ExecutionEvent)

  datatype SinkState = SinkState(state: ExecutionState, events: map<string, string>)

  const INITIAL := SinkState(AcceptedState, map[])

  predicate Authorised(x: Launch, submission: Submission)
  {
    var event := submission.event;
    && ValidEventGrantForEvent(x.lib, submission.grant, x.routeFor(event), event)
    && ValidExecutionEventForExecution(x.lib, event, x.request, x.receipt)
  }

  function Submit(x: Launch, s: SinkState, submission: Submission): (SinkState, Answer)
  {
    var event := submission.event;
    if !Authorised(x, submission) then (s, Err(InvalidSubmission))
    else if event.commandID in s.events then
      (s, if s.events[event.commandID] != event.typedPayloadDigest then Err(CommandConflict) else Ok(EventReplayed))
    else if !ValidLifecycleTransition(s.state, event.kind) then (s, Err(InvalidTransition))
    else (SinkState(StateForEvent(event.kind), s.events[event.commandID := event.typedPayloadDigest]),
          Ok(EventAccepted))
  }

  class JourneyEventSink {
    const launch: Launch
    var state: ExecutionState
    var events: map<string, string>

    function State(): SinkState
      reads this
    {
      SinkState(state, events)
    }

    constructor (launch: Launch)
      ensures this.launch == launch && State() == INITIAL
    {
      this.launch := launch;
      state, events := AcceptedState, map[];
    }

    method SubmitExecutionEvent(grant: OperationGrant, event: ExecutionEvent) returns (answer: Answer)
      modifies this
      ensures (State(), answer) == Submit(launch, old(State()), Submission(grant, event))
    {
      hide ValidEventGrantForEvent, ValidExecutionEventForExecution;
      if !ValidEventGrantForEvent(launch.lib, grant, launch.routeFor(event), event)
         || !ValidExecutionEventForExecution(launch.lib, event, launch.request, launch.receipt) {
        return Err(InvalidSubmission);
      }
      if event.commandID in events {
        if events[event.commandID] != event.typedPayloadDigest {
          return Err(CommandConflict);
        }
        return Ok(EventReplayed);
      }
      if !ValidLifecycleTransition(state, event.kind) {
        return Err(InvalidTransition);
      }
      events := events[event.commandID := event.typedPayloadDigest];
      state := StateForEvent(event.kind);
      return Ok(EventAccepted);
    }
  }

  // ----- runs -----

  function After(x: Launch, subs: seq<Submission>): SinkState
  {
    if subs == [] then INITIAL else Submit(x, After(x, subs[..|subs| - 1]), subs[|subs| - 1]).0
  }

  function AnswerAt(x: Launch, subs: seq<Submission>, k: nat): Answer
    requires k < |subs|
  {
    Submit(x, After(x, subs[..k]), subs[k]).1
  }

  /** The submissions of a run that were accepted, in order. */
  function AcceptedOnes(x: Launch, subs: seq<Submission>): seq<Submission>
  {
    if subs == [] then []
    else
      var n := |subs| - 1;
      AcceptedOnes(x, subs[..n])
      + if Submit(x, After(x, subs[..n]), subs[n]).1 == Ok(EventAccepted) then [subs[n]] else []
  }

  function Kinds(subs: seq<Submission>): seq<EventKind>
  {
    seq(|subs|, i requires 0 <= i < |subs| => subs[i].event.kind)
  }

  /** The seven lifecycles. */
  predicate Lifecycle(kinds: seq<EventKind>)
  {
    || kinds == [] || kinds == [Started] || kinds == [Failed] || kinds == [Cancelled]
    || kinds == [Started, Completed] || kinds == [Started, Failed] || kinds == [Started, Cancelled]
  }

  function StateOf(kinds: seq<EventKind>): ExecutionState
  {
    if kinds == [] then AcceptedState else StateForEvent(kinds[|kinds| - 1])
  }

  lemma TransitionTable(previous: ExecutionState, next: EventKind)
    ensures ValidLifecycleTransition(previous, next)
       <==> || (previous == AcceptedState && (next == Started || next == Failed || next == Cancelled))
            || (previous == StartedState && (next == Completed || next == Failed || next == Cancelled))
  {
  }

  /** A lifecycle grows by exactly the events the transition table permits. */
  lemma LifecycleGrows(kinds: seq<EventKind>, next: EventKind)
    requires Lifecycle(kinds)
    ensures Lifecycle(kinds + [next]) <==> ValidLifecycleTransition(StateOf(kinds), next)
  {
    TransitionTable(StateOf(kinds), next);
    hide ValidLifecycleTransition;
    var longer := kinds + [next];
    assert |longer| == |kinds| + 1 && longer[|kinds|] == next;
    assert |kinds| > 0 ==> longer[0] == kinds[0];
    if |kinds| == 0 {
      assert longer == [next];
    } else if |kinds| == 1 {
      assert longer == [kinds[0], next];
    }
  }

  lemma SubmitFacts(x: Launch, s: SinkState, submission: Submission)
    ensures var (s', answer) := Submit(x, s, submission);
            if answer == Ok(EventAccepted) then
              && Authorised(x, submission) && submission.event.commandID !in s.events
              && ValidLifecycleTransition(s.state, submission.event.kind)
              && s'.state == StateForEvent(submission.event.kind)
              && s'.events == s.events[submission.event.commandID := submission.event.typedPayloadDigest]
            else s' == s
  {
    hide Authorised, ValidLifecycleTransition;
  }

  /** One more submission, seen from the run before it. */
  lemma RunGrows(x: Launch, subs: seq<Submission>)
    requires subs != []
    ensures var init, last := subs[..|subs| - 1], subs[|subs| - 1];
            var accepted := Submit(x, After(x, init), last).1 == Ok(EventAccepted);
            && AcceptedOnes(x, subs) == AcceptedOnes(x, init) + (if accepted then [last] else [])
            && Kinds(AcceptedOnes(x, subs))
               == Kinds(AcceptedOnes(x, init)) + (if accepted then [last.event.kind] else [])
  {
    hide Submit;
  }

  /** The state after accepting events of these kinds. */
  predicate Reflects(s: SinkState, kinds: seq<EventKind>)
  {
    Lifecycle(kinds) && s.state == StateOf(kinds) && |s.events| == |kinds|
  }

  lemma SubmitReflects(x: Launch, s: SinkState, kinds: seq<EventKind>, submission: Submission)
    requires Reflects(s, kinds)
    ensures var (s', answer) := Submit(x, s, submission);
            Reflects(s', kinds + if answer == Ok(EventAccepted) then [submission.event.kind] else [])
  {
    hide Submit, Lifecycle, ValidLifecycleTransition;
    SubmitFacts(x, s, submission);
    if Submit(x, s, submission).1 == Ok(EventAccepted) {
      LifecycleGrows(kinds, submission.event.kind);
    } else {
      assert kinds + [] == kinds;
    }
  }

  lemma EmptyLifecycle()
    ensures Lifecycle([]) && StateOf([]) == AcceptedState
  {
  }

  lemma LifecyclesAreShort(kinds: seq<EventKind>)
    requires Lifecycle(kinds)
    ensures |kinds| <= 2
  {
  }

  /** In every run the accepted kinds form a lifecycle, the state is the image of the last one, and each
      accepted event is stored once under its command, so at most two are. */
  lemma {:induction false} RunsAreLifecycles(x: Launch, subs: seq<Submission>)
    ensures Reflects(After(x, subs), Kinds(AcceptedOnes(x, subs)))
    ensures |After(x, subs).events| <= 2
  {
    hide Submit, Lifecycle, StateOf;
    if subs == [] {
      assert Reflects(INITIAL, []) by {
        EmptyLifecycle();
      }
      assert Kinds([]) == [];
    } else {
      var init, last := subs[..|subs| - 1], subs[|subs| - 1];
      RunsAreLifecycles(x, init);
      RunGrows(x, subs);
      SubmitReflects(x, After(x, init), Kinds(AcceptedOnes(x, init)), last);
    }
    LifecyclesAreShort(Kinds(AcceptedOnes(x, subs)));
  }

  predicate DistinctCommands(subs: seq<Submission>)
  {
    forall i, j | 0 <= i < j < |subs| :: subs[i].event.commandID != subs[j].event.commandID
  }

  predicate AllAuthorised(x: Launch, subs: seq<Submission>) { forall i | 0 <= i < |subs| :: Authorised(x, subs[i]) }

  lemma {:induction false} StoredCommandsWereSubmitted(x: Launch, subs: seq<Submission>, command: string)
    requires command in After(x, subs).events
    ensures exists i :: 0 <= i < |subs| && subs[i].event.commandID == command
  {
    hide Submit;
    if subs == [] {
    } else {
      var init, last := subs[..|subs| - 1], subs[|subs| - 1];
      SubmitFacts(x, After(x, init), last);
      if command in After(x, init).events {
        StoredCommandsWereSubmitted(x, init, command);
        var i :| 0 <= i < |init| && init[i].event.commandID == command;
        assert subs[i].event.commandID == command;
      } else {
        assert subs[|subs| - 1].event.commandID == command;
      }
    }
  }

  /** An authorised event under a new command is accepted exactly when it continues the lifecycle. */
  lemma NextAcceptedExactly(x: Launch, init: seq<Submission>, last: Submission)
    requires Authorised(x, last) && last.event.commandID !in After(x, init).events
    ensures Submit(x, After(x, init), last).1 == Ok(EventAccepted)
       <==> Lifecycle(Kinds(AcceptedOnes(x, init)) + [last.event.kind])
  {
    hide Authorised, ValidLifecycleTransition, Lifecycle, StateOf;
    RunsAreLifecycles(x, init);
    LifecycleGrows(Kinds(AcceptedOnes(x, init)), last.event.kind);
  }

  lemma NewCommandIsUnknown(x: Launch, subs: seq<Submission>)
    requires subs != [] && DistinctCommands(subs)
    ensures subs[|subs| - 1].event.commandID !in After(x, subs[..|subs| - 1]).events
  {
    var init, last := subs[..|subs| - 1], subs[|subs| - 1];
    if last.event.commandID in After(x, init).events {
      StoredCommandsWereSubmitted(x, init, last.event.commandID);
      assert false;
    }
  }

  lemma LifecyclePrefix(kinds: seq<EventKind>, next: EventKind)
    requires Lifecycle(kinds + [next])
    ensures Lifecycle(kinds)
  {
    var longer := kinds + [next];
    assert kinds == longer[..|kinds|];
  }

  lemma {:induction false} AcceptedOnesBound(x: Launch, subs: seq<Submission>)
    ensures |AcceptedOnes(x, subs)| <= |subs|
  {
    hide Submit;
    if subs == [] {
    } else {
      AcceptedOnesBound(x, subs[..|subs| - 1]);
      RunGrows(x, subs);
    }
  }

  /** Authorised events under distinct commands are all accepted exactly when their kinds form a lifecycle. */
  lemma {:induction false} LifecyclesAreAccepted(x: Launch, subs: seq<Submission>)
    requires DistinctCommands(subs) && AllAuthorised(x, subs)
    ensures AcceptedOnes(x, subs) == subs <==> Lifecycle(Kinds(subs))
  {
    hide Authorised, Submit, Lifecycle, After;
    if subs == [] {
      EmptyLifecycle();
      assert Kinds(subs) == [];
    } else {
      var n := |subs| - 1;
      var init, last := subs[..n], subs[n];
      assert forall i | 0 <= i < n :: init[i] == subs[i];
      LifecyclesAreAccepted(x, init);
      AcceptedOnesBound(x, init);
      NewCommandIsUnknown(x, subs);
      NextAcceptedExactly(x, init, last);
      RunGrows(x, subs);
      var all := AcceptedOnes(x, subs);
      assert subs == init + [last] && Kinds(subs) == Kinds(init) + [last.event.kind];
      assert |all| == |subs| ==> all[..n] == AcceptedOnes(x, init);
      if AcceptedOnes(x, init) == init {
        assert |init| < |subs|;
      } else {
        if Lifecycle(Kinds(subs)) {
          LifecyclePrefix(Kinds(init), last.event.kind);
          assert false;
        }
      }
    }
  }

  /** Rejected and replayed submissions leave no trace: the accepted ones alone reach the same state. */
  lemma {:induction false} OnlyAcceptedOnesMatter(x: Launch, subs: seq<Submission>)
    ensures After(x, AcceptedOnes(x, subs)) == After(x, subs)
    ensures AcceptedOnes(x, AcceptedOnes(x, subs)) == AcceptedOnes(x, subs)
  {
    hide Submit;
    if subs == [] {
    } else {
      var init, last := subs[..|subs| - 1], subs[|subs| - 1];
      OnlyAcceptedOnesMatter(x, init);
      var before, earlier := After(x, init), AcceptedOnes(x, init);
      SubmitFacts(x, before, last);
      if Submit(x, before, last).1 == Ok(EventAccepted) {
        var longer := earlier + [last];
        assert longer[..|longer| - 1] == earlier && longer[|longer| - 1] == last;
      } else {
        assert earlier + [] == earlier;
      }
    }
  }

  lemma {:induction false} StoredForever(x: Launch, subs: seq<Submission>, i: nat, k: nat)
    requires i < k <= |subs| && AnswerAt(x, subs, i) == Ok(EventAccepted)
    ensures var event := subs[i].event;
            event.commandID in After(x, subs[..k]).events
            && After(x, subs[..k]).events[event.commandID] == event.typedPayloadDigest
    decreases k
  {
    hide Submit;
    var prefix := subs[..k];
    assert prefix[..k - 1] == subs[..k - 1] && prefix[k - 1] == subs[k - 1];
    SubmitFacts(x, After(x, subs[..k - 1]), subs[k - 1]);
    if i == k - 1 {
    } else {
      StoredForever(x, subs, i, k - 1);
    }
  }

  /** An accepted event presented again under any valid grant is replayed forever, also after a terminal
      state; the same command with another payload is a conflict forever. Neither changes the state. */
  lemma AcceptedEventReplaysForever(x: Launch, subs: seq<Submission>, i: nat, j: nat)
    requires i < j < |subs| && AnswerAt(x, subs, i) == Ok(EventAccepted)
    requires Authorised(x, subs[j]) && subs[j].event.commandID == subs[i].event.commandID
    ensures AnswerAt(x, subs, j) == if subs[j].event.typedPayloadDigest == subs[i].event.typedPayloadDigest
                                    then Ok(EventReplayed) else Err(CommandConflict)
    ensures After(x, subs[..j + 1]) == After(x, subs[..j])
  {
    hide Authorised;
    StoredForever(x, subs, i, j);
    var longer := subs[..j + 1];
    assert longer[..j] == subs[..j] && longer[j] == subs[j];
  }
}
