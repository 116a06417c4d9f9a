/** The two stores of consumed token IDs: one sweeps expired entries, one never forgets. */
module ReplayStores {
  import opened Primitives

  datatype SeenResult = Fresh | ReplayConflict | EmptyTokenID

  datatype SeenCall = SeenCall(tokenID: string, expiresAt: Time, now: Time)

  type Entries = map<string, Time>

  /** The entries still unexpired at `now`. */
  function Sweep(seen: Entries, now: Time): Entries { map t | t in seen && now < seen[t] :: seen[t] }

  function Record(seen: Entries, call: SeenCall): (Entries, SeenResult)
  {
    if call.tokenID in seen then (seen, ReplayConflict)
    else (seen[call.tokenID := call.expiresAt], Fresh)
  }

  function MemorySeen(seen: Entries, call: SeenCall): (Entries, SeenResult)
  {
    if call.tokenID == "" then (seen, EmptyTokenID) else Record(Sweep(seen, call.now), call)
  }

  function DurableSeen(records: Entries, call: SeenCall): (Entries, SeenResult)
  {
    if call.tokenID == "" then (records, EmptyTokenID) else Record(records, call)
  }

  class MemoryReplayStore {
    var seen: Entries

    constructor ()
      ensures seen == map[]
    {
      seen := map[];
    }

    /** Go ranges over the map in any order and deletes while ranging. */
    method SweepLocked(now: Time)
      modifies this
      ensures seen == Sweep(old(seen), now)
    {
      var remaining := seen.Keys;
      while remaining != {}
        invariant remaining <= seen.Keys <= old(seen).Keys
        invariant forall t | t in seen :: seen[t] == old(seen)[t]
        invariant forall t | t in old(seen) && t !in remaining :: t in seen <==> now < old(seen)[t]
        decreases |remaining|
      {
        var tokenID :| tokenID in remaining;
        if seen[tokenID] <= now {
          seen := seen - {tokenID};
        }
        remaining := remaining - {tokenID};
      }
    }

    method Seen(tokenID: string, expiresAt: Time, now: Time) returns (result: SeenResult)
      modifies this
      ensures (seen, result) == MemorySeen(old(seen), SeenCall(tokenID, expiresAt, now))
    {
      if tokenID == "" {
        return EmptyTokenID;
      }
      SweepLocked(now);
      if tokenID in seen {
        return ReplayConflict;
      }
      seen := seen[tokenID := expiresAt];
      return Fresh;
    }
  }

  class DurableReplayStore {
    var records: Entries

    constructor ()
      ensures records == map[]
    {
      records := map[];
    }

    /** One serializable transaction: get, then set when not found. */
    method Seen(tokenID: string, expiresAt: Time, now: Time) returns (result: SeenResult)
      modifies this
      ensures (records, result) == DurableSeen(old(records), SeenCall(tokenID, expiresAt, now))
    {
      if tokenID == "" {
        return EmptyTokenID;
      }
      if tokenID in records {
        return ReplayConflict;
      }
      records := records[tokenID := expiresAt];
      return Fresh;
    }
  }

  /** The two stores behind the one interface a verifier is configured with. */
  datatype ReplayStore = InMemory(memory: MemoryReplayStore) | InDatabase(durable: DurableReplayStore)

  datatype StoreKind = Sweeping | NeverForgetting

  function KindOf(store: ReplayStore): StoreKind { if store.InMemory? then Sweeping else NeverForgetting }

  function ObjectsOf(store: ReplayStore): set<object>
  {
    match store
    case InMemory(memory) => {memory}
    case InDatabase(durable) => {durable}
  }

  function EntriesOf(store: ReplayStore): Entries
    reads ObjectsOf(store)
  {
    match store
    case InMemory(memory) => memory.seen
    case InDatabase(durable) => durable.records
  }

  /** The entries a call is compared with. */
  function Consulted(kind: StoreKind, entries: Entries, now: Time): Entries
  {
    if kind.Sweeping? then Sweep(entries, now) else entries
  }

  function SeenBy(kind: StoreKind, entries: Entries, call: SeenCall): (Entries, SeenResult)
  {
    if kind.Sweeping? then MemorySeen(entries, call) else DurableSeen(entries, call)
  }

  method SeenByStore(store: ReplayStore, tokenID: string, expiresAt: Time, now: Time) returns (result: SeenResult)
    modifies ObjectsOf(store)
    ensures (EntriesOf(store), result)
         == SeenBy(KindOf(store), old(EntriesOf(store)), SeenCall(tokenID, expiresAt, now))
  {
    match store {
      case InMemory(memory) => result := memory.Seen(tokenID, expiresAt, now);
      case InDatabase(durable) => result := durable.Seen(tokenID, expiresAt, now);
    }
  }

  // ----- runs -----

  function MemoryAfter(calls: seq<SeenCall>): Entries
  {
    if calls == [] then map[] else MemorySeen(MemoryAfter(calls[..|calls| - 1]), calls[|calls| - 1]).0
  }

  function DurableAfter(calls: seq<SeenCall>): Entries
  {
    if calls == [] then map[] else DurableSeen(DurableAfter(calls[..|calls| - 1]), calls[|calls| - 1]).0
  }

  function MemoryAnswer(calls: seq<SeenCall>, k: nat): SeenResult
    requires k < |calls|
  {
    MemorySeen(MemoryAfter(calls[..k]), calls[k]).1
  }

  function DurableAnswer(calls: seq<SeenCall>, k: nat): SeenResult
    requires k < |calls|
  {
    DurableSeen(DurableAfter(calls[..k]), calls[k]).1
  }

  predicate ClockAdvances(calls: seq<SeenCall>) { forall i, j | 0 <= i < j < |calls| :: calls[i].now <= calls[j].now }

  predicate TokenDeterminesExpiry(calls: seq<SeenCall>)
  {
    forall i, j | 0 <= i < |calls| && 0 <= j < |calls| && calls[i].tokenID == calls[j].tokenID ::
      calls[i].expiresAt == calls[j].expiresAt
  }

  predicate CalledBeforeExpiry(calls: seq<SeenCall>)
  {
    forall i | 0 <= i < |calls| :: calls[i].now < calls[i].expiresAt
  }

  /** The memory holds a part of the durable records, with everything unexpired at `clock`. */
  predicate Covers(memory: Entries, durable: Entries, clock: Time)
  {
    && (forall t | t in memory :: t in durable && durable[t] == memory[t])
    && (forall t | t in durable && clock < durable[t] :: t in memory)
  }

  predicate RecordsComeFrom(records: Entries, calls: seq<SeenCall>)
  {
    forall t | t in records :: exists i :: 0 <= i < |calls| && calls[i].tokenID == t && calls[i].expiresAt == records[t]
  }

  lemma {:induction false} DurableRecordsComeFromCalls(calls: seq<SeenCall>)
    ensures RecordsComeFrom(DurableAfter(calls), calls)
  {
    if calls == [] {
    } else {
      var init, call := calls[..|calls| - 1], calls[|calls| - 1];
      DurableRecordsComeFromCalls(init);
      var before, after := DurableAfter(init), DurableAfter(calls);
      forall t | t in after
        ensures exists i :: 0 <= i < |calls| && calls[i].tokenID == t && calls[i].expiresAt == after[t]
      {
        if t in before {
          var i :| 0 <= i < |init| && init[i].tokenID == t && init[i].expiresAt == before[t];
          assert calls[i] == init[i];
        } else {
          assert calls[|calls| - 1] == call;
        }
      }
    }
  }

  lemma StepAgrees(memory: Entries, durable: Entries, clock: Time, call: SeenCall)
    requires Covers(memory, durable, clock) && clock <= call.now < call.expiresAt
    requires call.tokenID in durable ==> durable[call.tokenID] == call.expiresAt
    ensures MemorySeen(memory, call).1 == DurableSeen(durable, call).1
    ensures Covers(MemorySeen(memory, call).0, DurableSeen(durable, call).0, call.now)
  {
  }

  /** The clock never goes back, a token ID determines its expiry, and every call is before it. */
  predicate SoundRun(calls: seq<SeenCall>)
  {
    ClockAdvances(calls) && TokenDeterminesExpiry(calls) && CalledBeforeExpiry(calls)
  }

  lemma SoundPrefix(calls: seq<SeenCall>, k: nat)
    requires SoundRun(calls) && k <= |calls|
    ensures SoundRun(calls[..k])
  {
    assert forall i | 0 <= i < k :: calls[..k][i] == calls[i];
  }

  lemma RecordedExpiryAgrees(calls: seq<SeenCall>)
    requires calls != [] && SoundRun(calls)
    ensures var call, durable := calls[|calls| - 1], DurableAfter(calls[..|calls| - 1]);
            call.tokenID in durable ==> durable[call.tokenID] == call.expiresAt
  {
    var init, call := calls[..|calls| - 1], calls[|calls| - 1];
    DurableRecordsComeFromCalls(init);
    var durable := DurableAfter(init);
    if call.tokenID in durable {
      var i :| 0 <= i < |init| && init[i].tokenID == call.tokenID && init[i].expiresAt == durable[call.tokenID];
      assert calls[i] == init[i];
    }
  }

  /** What the memory holds after a run: part of the durable records, and all of the unexpired ones. */
  lemma {:induction false} MemoryCoversDurable(calls: seq<SeenCall>)
    requires calls != [] && SoundRun(calls)
    ensures Covers(MemoryAfter(calls), DurableAfter(calls), calls[|calls| - 1].now)
    ensures MemoryAnswer(calls, |calls| - 1) == DurableAnswer(calls, |calls| - 1)
  {
    var init, call := calls[..|calls| - 1], calls[|calls| - 1];
    SoundPrefix(calls, |init|);
    RecordedExpiryAgrees(calls);
    var clock := call.now;
    if init != [] {
      MemoryCoversDurable(init);
      clock := init[|init| - 1].now;
      assert init[|init| - 1] == calls[|init| - 1];
    }
    StepAgrees(MemoryAfter(init), DurableAfter(init), clock, call);
  }

  predicate HeldAfterSweep(entries: Entries, swept: Time, recorded: string)
  {
    forall t | t in entries :: t == recorded || swept < entries[t]
  }

  /** The sweeping store answers every call as the store that never forgets, and keeps only entries
      unexpired at its last sweep besides the one just recorded. */
  lemma SweepingStoreForgetsSafely(calls: seq<SeenCall>, k: nat)
    requires SoundRun(calls) && k < |calls|
    ensures MemoryAnswer(calls, k) == DurableAnswer(calls, k)
    ensures calls[k].tokenID != "" ==> HeldAfterSweep(MemoryAfter(calls[..k + 1]), calls[k].now, calls[k].tokenID)
  {
    var upTo := calls[..k + 1];
    SoundPrefix(calls, k + 1);
    MemoryCoversDurable(upTo);
    assert upTo[..k] == calls[..k] && upTo[k] == calls[k];
  }

  lemma {:induction false} DurableKeepsTokens(calls: seq<SeenCall>, k: nat)
    requires k < |calls| && calls[k].tokenID != ""
    ensures calls[k].tokenID in DurableAfter(calls)
  {
    var init := calls[..|calls| - 1];
    if k == |init| {
    } else {
      assert init[k] == calls[k];
      DurableKeepsTokens(init, k);
    }
  }

  /** The never-forgetting store, hence the sweeping one, takes each token ID once. */
  lemma TokenTakenOnce(calls: seq<SeenCall>, i: nat, j: nat)
    requires SoundRun(calls)
    requires i < j < |calls| && calls[i].tokenID == calls[j].tokenID != ""
    ensures MemoryAnswer(calls, j) == ReplayConflict
  {
    SweepingStoreForgetsSafely(calls, j);
    assert calls[..j][i] == calls[i];
    DurableKeepsTokens(calls[..j], i);
  }

  // ----- the answers, from the calls alone -----

  lemma {:induction false} DurableHolds(calls: seq<SeenCall>, t: string)
    ensures t in DurableAfter(calls) <==> t != "" && exists i :: 0 <= i < |calls| && calls[i].tokenID == t
  {
    if calls == [] {
    } else {
      var init := calls[..|calls| - 1];
      DurableHolds(init, t);
      if i :| 0 <= i < |calls| && calls[i].tokenID == t {
        assert i < |init| ==> init[i].tokenID == t;
      }
      if i :| 0 <= i < |init| && init[i].tokenID == t {
        assert calls[i].tokenID == t;
      }
    }
  }

  /** The store that never forgets: an ID is refused exactly when it is empty or was presented before. */
  lemma DurableAnswerExactly(calls: seq<SeenCall>, k: nat)
    requires k < |calls|
    ensures DurableAnswer(calls, k)
         == if calls[k].tokenID == "" then EmptyTokenID
            else if exists i :: 0 <= i < k && calls[i].tokenID == calls[k].tokenID then ReplayConflict else Fresh
    ensures calls[k].tokenID == "" ==> DurableAfter(calls[..k + 1]) == DurableAfter(calls[..k])
  {
    DurableHolds(calls[..k], calls[k].tokenID);
    assert forall i | 0 <= i < k :: calls[..k][i] == calls[i];
    assert calls[..k + 1][..k] == calls[..k];
    assert (exists i :: 0 <= i < k && calls[i].tokenID == calls[k].tokenID)
       <==> exists i :: 0 <= i < k && calls[..k][i].tokenID == calls[k].tokenID by {
      if i :| 0 <= i < k && calls[i].tokenID == calls[k].tokenID {
        assert calls[..k][i].tokenID == calls[k].tokenID;
      }
    }
  }

  /** Call i took the token ID, and no sweep after it and up to call k came at its expiry or later. */
  predicate TakenAndKept(calls: seq<SeenCall>, i: nat, k: nat, t: string)
    requires k <= |calls|
  {
    && i < k && calls[i].tokenID == t && MemoryAnswer(calls, i) == Fresh
    && forall m | i < m < k && calls[m].tokenID != "" :: calls[m].now < calls[i].expiresAt
  }

  /** One call on the sweeping store: an entry is there afterwards exactly when the call took it, or it was there
      before and was not swept. */
  lemma MemoryStep(seen: Entries, call: SeenCall, t: string)
    ensures var (after, answer) := MemorySeen(seen, call);
            var kept := t in seen && (call.tokenID != "" ==> call.now < seen[t]);
            var taken := call.tokenID == t && answer == Fresh;
            && (t in after <==> kept || taken) && !(kept && taken)
            && (kept ==> after[t] == seen[t]) && (taken ==> after[t] == call.expiresAt)
  {
  }

  lemma {:induction false} MemoryHolds(calls: seq<SeenCall>, k: nat, t: string)
    requires k <= |calls|
    ensures t in MemoryAfter(calls[..k]) ==> exists i: nat :: TakenAndKept(calls, i, k, t)
    ensures forall i: nat | TakenAndKept(calls, i, k, t) ::
              t in MemoryAfter(calls[..k]) && MemoryAfter(calls[..k])[t] == calls[i].expiresAt
  {
    hide MemorySeen;
    if k == 0 {
    } else {
      var n := k - 1;
      MemoryHolds(calls, n, t);
      assert calls[..k][..n] == calls[..n] && calls[..k][n] == calls[n];
      var before, after := MemoryAfter(calls[..n]), MemoryAfter(calls[..k]);
      MemoryStep(before, calls[n], t);
      if t in before && (calls[n].tokenID != "" ==> calls[n].now < before[t]) {
        var i: nat :| TakenAndKept(calls, i, n, t);
        assert TakenAndKept(calls, i, k, t);
      } else if t in after {
        assert TakenAndKept(calls, n, k, t);
      }
      forall i: nat | TakenAndKept(calls, i, k, t) ensures t in after && after[t] == calls[i].expiresAt {
        if i < n {
          assert TakenAndKept(calls, i, n, t);
        }
      }
    }
  }

  /** The sweeping store, under any clock: an ID is refused as a replay exactly when an earlier call took it and no
      sweep since then, this call's included, came at that call's expiry or later. */
  lemma MemoryAnswerExactly(calls: seq<SeenCall>, k: nat)
    requires k < |calls|
    ensures calls[k].tokenID == "" ==>
              MemoryAnswer(calls, k) == EmptyTokenID && MemoryAfter(calls[..k + 1]) == MemoryAfter(calls[..k])
    ensures calls[k].tokenID != "" ==>
              MemoryAnswer(calls, k)
              == if exists i: nat :: && i < k && calls[i].tokenID == calls[k].tokenID && MemoryAnswer(calls, i) == Fresh
                                     && forall m | i < m <= k && calls[m].tokenID != "" ::
                                          calls[m].now < calls[i].expiresAt
                 then ReplayConflict else Fresh
  {
    MemoryHolds(calls, k, calls[k].tokenID);
    assert calls[..k + 1][..k] == calls[..k] && calls[..k + 1][k] == calls[k];
  }
}
