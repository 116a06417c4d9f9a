/** The placement list of a completed event. */
module Placements {
  import opened Primitives
  import opened ContractTypes
  import opened Combinatorics

  function Slots(ps: seq<Placement>): seq<int> { seq(|ps|, i requires 0 <= i < |ps| => ps[i].slotOrdinal) }

  function EntryIDs(ps: seq<Placement>): seq<string> { seq(|ps|, i requires 0 <= i < |ps| => ps[i].entryID) }

  /** How many placements have a strictly smaller rank. */
  function CountBelow(ps: seq<Placement>, rank: int): nat
  {
    if ps == [] then 0
    else CountBelow(ps[..|ps| - 1], rank) + if ps[|ps| - 1].rank < rank then 1 else 0
  }

  /** Standard competition ranking: one more than the number of better placements. */
  predicate CompetitionRanked(ps: seq<Placement>)
  {
    forall i | 0 <= i < |ps| :: ps[i].rank == 1 + CountBelow(ps, ps[i].rank)
  }

  predicate Before(p: Placement, q: Placement)
  {
    p.rank < q.rank || (p.rank == q.rank && p.slotOrdinal < q.slotOrdinal)
  }

  predicate InOrder(ps: seq<Placement>) { forall i, j | 0 <= i < j < |ps| :: Before(ps[i], ps[j]) }

  /** What a placement list must be, with no reference to how it is scanned. */
  predicate ValidPlacements(ps: seq<Placement>)
  {
    && (forall i | 0 <= i < |ps| :: ps[i].entryID != "" && ps[i].slotOrdinal < |ps| && !ps[i].status.UnknownStatus?)
    && Distinct(EntryIDs(ps)) && Distinct(Slots(ps))
    && CompetitionRanked(ps) && InOrder(ps)
  }

  /** The facts about position `i` that its neighbours and predecessors decide. */
  predicate Follows(ps: seq<Placement>, i: nat)
    requires i < |ps|
  {
    && ps[i].entryID != "" && ps[i].slotOrdinal < |ps| && ps[i].rank != 0 && !ps[i].status.UnknownStatus?
    && (forall j | 0 <= j < i :: ps[j].entryID != ps[i].entryID && ps[j].slotOrdinal != ps[i].slotOrdinal)
    && if i == 0 then ps[i].rank == 1
       else if ps[i].rank == ps[i - 1].rank then ps[i - 1].slotOrdinal < ps[i].slotOrdinal
       else ps[i - 1].rank < ps[i].rank && ps[i].rank == ToUint16(i + 1)
  }

  predicate AllFollow(ps: seq<Placement>) { forall i | 0 <= i < |ps| :: Follows(ps, i) }

  /** Distinct sixteen-bit slots: the list has at most 65536 placements. */
  lemma SlotsBoundLength(ps: seq<Placement>)
    requires Distinct(Slots(ps))
    ensures |ps| <= TWO16
  {
    Pigeonhole(Slots(ps), TWO16);
  }

  lemma FollowingListIsDistinct(ps: seq<Placement>)
    requires AllFollow(ps)
    ensures Distinct(Slots(ps)) && Distinct(EntryIDs(ps))
  {
    forall i, j | 0 <= i < j < |ps|
      ensures ps[i].slotOrdinal != ps[j].slotOrdinal && ps[i].entryID != ps[j].entryID
    {
      assert Follows(ps, j);
    }
  }

  /** `uint16(index+1)` wraps only at position 65535, to the rank 0 that is refused anyway. */
  lemma NewRankIsPosition(ps: seq<Placement>, i: nat)
    requires AllFollow(ps) && 0 < i < |ps| && ps[i - 1].rank != ps[i].rank
    ensures ps[i - 1].rank < ps[i].rank == i + 1
  {
    FollowingListIsDistinct(ps);
    SlotsBoundLength(ps);
    assert Follows(ps, i);
  }

  lemma {:induction false} OrderFollows(ps: seq<Placement>, i: nat, j: nat)
    requires AllFollow(ps) && i < j < |ps|
    ensures Before(ps[i], ps[j])
    decreases j
  {
    assert Follows(ps, j);
    if i == j - 1 {
    } else {
      OrderFollows(ps, i, j - 1);
    }
  }

  lemma {:induction false} CountBelowSplit(ps: seq<Placement>, rank: int, k: nat)
    requires k <= |ps|
    requires forall i | 0 <= i < k :: ps[i].rank < rank
    requires forall i | k <= i < |ps| :: rank <= ps[i].rank
    ensures CountBelow(ps, rank) == k
    decreases |ps|
  {
    if ps == [] {
    } else {
      CountBelowSplit(ps[..|ps| - 1], rank, if k == |ps| then k - 1 else k);
    }
  }

  /** The first position holding the rank of position `i`; that rank is the position plus one. */
  lemma {:induction false} TieStart(ps: seq<Placement>, i: nat) returns (k: nat)
    requires AllFollow(ps) && i < |ps|
    ensures k <= i && ps[i].rank == k + 1
    ensures forall j | k <= j <= i :: ps[j].rank == ps[i].rank
    ensures k > 0 ==> ps[k - 1].rank < ps[i].rank
  {
    assert Follows(ps, i);
    if i > 0 && ps[i - 1].rank == ps[i].rank {
      k := TieStart(ps, i - 1);
    } else {
      k := i;
      if i > 0 {
        NewRankIsPosition(ps, i);
      }
    }
  }

  lemma FollowingListIsValid(ps: seq<Placement>)
    requires AllFollow(ps)
    ensures ValidPlacements(ps)
  {
    FollowingListIsDistinct(ps);
    forall i, j | 0 <= i < j < |ps| ensures Before(ps[i], ps[j]) {
      OrderFollows(ps, i, j);
    }
    forall i | 0 <= i < |ps| ensures ps[i].rank == 1 + CountBelow(ps, ps[i].rank) {
      var k := TieStart(ps, i);
      forall j | 0 <= j < k ensures ps[j].rank < ps[i].rank {
        assert j < k - 1 ==> Before(ps[j], ps[k - 1]);
      }
      forall j | k <= j < |ps| ensures ps[i].rank <= ps[j].rank {
        assert i < j ==> Before(ps[i], ps[j]);
      }
      CountBelowSplit(ps, ps[i].rank, k);
    }
    forall i | 0 <= i < |ps| ensures ps[i].entryID != "" && ps[i].slotOrdinal < |ps| && !ps[i].status.UnknownStatus? {
      assert Follows(ps, i);
    }
  }

  lemma ValidListFollows(ps: seq<Placement>, i: nat)
    requires ValidPlacements(ps) && i < |ps|
    ensures Follows(ps, i)
  {
    forall j | 0 <= j < i ensures ps[j].entryID != ps[i].entryID && ps[j].slotOrdinal != ps[i].slotOrdinal {
      assert EntryIDs(ps)[j] != EntryIDs(ps)[i] && Slots(ps)[j] != Slots(ps)[i];
    }
    if i == 0 || ps[i - 1].rank != ps[i].rank {
      if i > 0 {
        assert Before(ps[i - 1], ps[i]);
      }
      forall j | 0 <= j < i ensures ps[j].rank < ps[i].rank {
        assert j < i - 1 ==> Before(ps[j], ps[i - 1]);
      }
      forall j | i <= j < |ps| ensures ps[i].rank <= ps[j].rank {
        assert i < j ==> Before(ps[i], ps[j]);
      }
      CountBelowSplit(ps, ps[i].rank, i);
    } else {
      assert Before(ps[i - 1], ps[i]);
    }
  }

  /** The one-pass scan accepts exactly the valid lists, of every length. */
  lemma ScanIsExact(ps: seq<Placement>)
    ensures AllFollow(ps) <==> ValidPlacements(ps)
  {
    if AllFollow(ps) {
      FollowingListIsValid(ps);
    }
    if ValidPlacements(ps) {
      forall i | 0 <= i < |ps| ensures Follows(ps, i) {
        ValidListFollows(ps, i);
      }
    }
  }

  /** The positions with a strictly smaller rank. */
  function Better(ps: seq<Placement>, rank: int): set<int> { set j | 0 <= j < |ps| && ps[j].rank < rank }

  lemma {:induction false} CountBelowIsBetter(ps: seq<Placement>, rank: int)
    ensures CountBelow(ps, rank) == |Better(ps, rank)|
  {
    if ps == [] {
    } else {
      var n := |ps| - 1;
      CountBelowIsBetter(ps[..n], rank);
      assert Better(ps, rank) == Better(ps[..n], rank) + if ps[n].rank < rank then {n} else {};
    }
  }

  /** An entry with one of the four statuses on an existing slot, ranked one more than the number of better ones. */
  predicate Placed(ps: seq<Placement>, i: nat)
    requires i < |ps|
  {
    && ps[i].entryID != "" && ps[i].slotOrdinal < |ps|
    && ps[i].status in {Finished, Forfeited, Disqualified, DidNotFinish}
    && ps[i].rank == 1 + |set j | 0 <= j < |ps| && ps[j].rank < ps[i].rank|
  }

  /** Another entry on another slot, ranked worse or, within the same rank, on a later slot. */
  predicate Precedes(p: Placement, q: Placement)
  {
    && p.entryID != q.entryID && p.slotOrdinal != q.slotOrdinal
    && (p.rank < q.rank || (p.rank == q.rank && p.slotOrdinal < q.slotOrdinal))
  }

  lemma PlacedExactly(ps: seq<Placement>, i: nat)
    requires i < |ps|
    ensures Placed(ps, i)
       <==> && ps[i].entryID != "" && ps[i].slotOrdinal < |ps| && !ps[i].status.UnknownStatus?
            && ps[i].rank == 1 + CountBelow(ps, ps[i].rank)
  {
    CountBelowIsBetter(ps, ps[i].rank);
    assert Better(ps, ps[i].rank) == set j | 0 <= j < |ps| && ps[j].rank < ps[i].rank;
  }

  /** A placement list is accepted exactly when each placement is placed and precedes every later one. */
  lemma PlacementsExactly(ps: seq<Placement>)
    ensures ValidPlacements(ps)
       <==> && (forall i | 0 <= i < |ps| :: Placed(ps, i))
            && forall i, j | 0 <= i < j < |ps| :: Precedes(ps[i], ps[j])
  {
    hide Placed, CountBelow;
    forall i | 0 <= i < |ps|
      ensures Placed(ps, i)
         <==> && ps[i].entryID != "" && ps[i].slotOrdinal < |ps| && !ps[i].status.UnknownStatus?
              && ps[i].rank == 1 + CountBelow(ps, ps[i].rank)
    {
      PlacedExactly(ps, i);
    }
    if ValidPlacements(ps) {
      forall i, j | 0 <= i < j < |ps| ensures Precedes(ps[i], ps[j]) {
        assert EntryIDs(ps)[i] != EntryIDs(ps)[j] && Slots(ps)[i] != Slots(ps)[j] && Before(ps[i], ps[j]);
      }
    }
  }

  method ValidatePlacements(placements: seq<Placement>) returns (ok: bool)
    ensures ok == ValidPlacements(placements)
  {
    ScanIsExact(placements);
    var seenEntries: set<string>, seenSlots: set<uint16> := {}, {};
    var previous: uint16, previousSlot: uint16 := 0, 0;
    for index := 0 to |placements|
      invariant forall i | 0 <= i < index :: Follows(placements, i)
      invariant seenEntries == set i | 0 <= i < index :: placements[i].entryID
      invariant seenSlots == set i | 0 <= i < index :: placements[i].slotOrdinal
      invariant index > 0 ==>
                  previous == placements[index - 1].rank && previousSlot == placements[index - 1].slotOrdinal
      invariant index == 0 ==> previous == 0
    {
      var placement := placements[index];
      if placement.entryID == "" || placement.slotOrdinal >= |placements| || placement.rank == 0
         || placement.entryID in seenEntries || placement.slotOrdinal in seenSlots
         || placement.rank < previous || (index == 0 && placement.rank != 1)
         || (index > 0 && placement.rank > previous && placement.rank != ToUint16(index + 1))
         || (index > 0 && placement.rank == previous && placement.slotOrdinal <= previousSlot) {
        assert !Follows(placements, index);
        return false;
      }
      match placement.status {
        case Finished | Forfeited | Disqualified | DidNotFinish =>
        case UnknownStatus(_) =>
          assert !Follows(placements, index);
          return false;
      }
      seenEntries := seenEntries + {placement.entryID};
      seenSlots := seenSlots + {placement.slotOrdinal};
      previous, previousSlot := placement.rank, placement.slotOrdinal;
    }
    return true;
  }

  /** Every slot of a valid list is placed, at exactly one position. */
  lemma SlotsAreAPermutation(ps: seq<Placement>, slot: nat) returns (i: nat)
    requires ValidPlacements(ps) && slot < |ps|
    ensures i < |ps| && ps[i].slotOrdinal == slot
    ensures forall j | 0 <= j < |ps| && ps[j].slotOrdinal == slot :: j == i
  {
    Pigeonhole(Slots(ps), |ps|);
    assert slot in Slots(ps);
    i :| 0 <= i < |ps| && Slots(ps)[i] == slot;
    forall j | 0 <= j < |ps| && ps[j].slotOrdinal == slot ensures j == i {
      assert Slots(ps)[j] == Slots(ps)[i];
    }
  }

  /** The facts given to the slots leave only one valid list. */
  lemma {:induction false} OrderedListsAgree(ps: seq<Placement>, qs: seq<Placement>)
    requires InOrder(ps) && InOrder(qs) && Elements(ps) == Elements(qs)
    ensures ps == qs
    decreases |ps|
  {
    DistinctCount(ps);
    DistinctCount(qs);
    if ps == [] {
    } else {
      assert ps[0] in Elements(qs);
      var i :| 0 <= i < |qs| && qs[i] == ps[0];
      assert qs[0] in Elements(ps);
      var j :| 0 <= j < |ps| && ps[j] == qs[0];
      assert i > 0 ==> Before(qs[0], qs[i]);
      assert j > 0 ==> Before(ps[0], ps[j]);
      assert ps[0] == qs[0];
      var p, q := ps[1..], qs[1..];
      forall x ensures x in Elements(p) <==> x in Elements(ps) && x != ps[0] {
        assert x in Elements(ps) <==> x == ps[0] || x in p;
        if x in p {
          var k :| 0 <= k < |p| && p[k] == x;
          assert Before(ps[0], ps[k + 1]);
        }
      }
      forall x ensures x in Elements(q) <==> x in Elements(qs) && x != qs[0] {
        assert x in Elements(qs) <==> x == qs[0] || x in q;
        if x in q {
          var k :| 0 <= k < |q| && q[k] == x;
          assert Before(qs[0], qs[k + 1]);
        }
      }
      assert Elements(p) == Elements(q);
      OrderedListsAgree(p, q);
      assert ps == [ps[0]] + p && qs == [qs[0]] + q;
    }
  }

  predicate SameFactsPerSlot(ps: seq<Placement>, qs: seq<Placement>)
  {
    && |ps| == |qs|
    && forall i, j | 0 <= i < |ps| && 0 <= j < |qs| && ps[i].slotOrdinal == qs[j].slotOrdinal ::
         ps[i].entryID == qs[j].entryID && ps[i].rank == qs[j].rank && ps[i].status == qs[j].status
  }

  lemma SameFactsSubset(ps: seq<Placement>, qs: seq<Placement>)
    requires ValidPlacements(ps) && ValidPlacements(qs) && SameFactsPerSlot(ps, qs)
    ensures Elements(ps) <= Elements(qs)
  {
    forall p | p in Elements(ps) ensures p in Elements(qs) {
      var i :| 0 <= i < |ps| && ps[i] == p;
      var j := SlotsAreAPermutation(qs, p.slotOrdinal);
      assert ps[i] == qs[j];
    }
  }

  lemma PlacementsAreCanonical(ps: seq<Placement>, qs: seq<Placement>)
    requires ValidPlacements(ps) && ValidPlacements(qs) && SameFactsPerSlot(ps, qs)
    ensures ps == qs
  {
    SameFactsSubset(ps, qs);
    SameFactsSubset(qs, ps);
    OrderedListsAgree(ps, qs);
  }
}
