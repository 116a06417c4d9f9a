/** Which formats are accepted, stage by stage and destination by destination, and how many go on. */
module FormatFacts {
  import opened Combinatorics
  import opened FormatStages
  import opened FormatChecker

  // ----- destinations by position -----

  /** Destination k of stage s. */
  predicate At(stages: seq<Stage>, s: int, k: int) { 0 <= s < |stages| && 0 <= k < |stages[s].destinations| }

  function Offset(stages: seq<Stage>, s: nat): nat
    requires s <= |stages|
  {
    |AllEdges(stages[..s])|
  }

  /** Destination k of stage s is the edge k places after those of the stages before it. */
  lemma EdgeAt(stages: seq<Stage>, s: nat, k: nat)
    requires At(stages, s, k)
    ensures Offset(stages, s) + k < |AllEdges(stages)|
    ensures AllEdges(stages)[Offset(stages, s) + k] == Edge(s, stages[s].destinations[k])
  {
    VisitedPrefix(stages, s, k + 1);
    hide AllEdges;
    var before, some := AllEdges(stages[..s]), StageEdges(s, stages[s].destinations[..k + 1]);
    assert (before + some)[|before| + k] == some[k] == Edge(s, stages[s].destinations[k]);
  }

  lemma OffsetGrows(stages: seq<Stage>, s: nat, t: nat)
    requires s < t <= |stages|
    ensures Offset(stages, s) + |stages[s].destinations| <= Offset(stages, t)
  {
    var prefix := stages[..t];
    AllEdgesPrefix(prefix, s + 1);
    assert prefix[..s + 1] == stages[..s + 1];
    assert stages[..s + 1][..s] == stages[..s];
  }

  /** Every edge is a destination of some stage. */
  lemma {:induction false} PositionOf(stages: seq<Stage>, i: nat) returns (s: nat, k: nat)
    requires i < |AllEdges(stages)|
    ensures At(stages, s, k) && i == Offset(stages, s) + k
  {
    var n := |stages| - 1;
    if i < |AllEdges(stages[..n])| {
      s, k := PositionOf(stages[..n], i);
      assert stages[..n][..s] == stages[..s];
    } else {
      s, k := n, i - |AllEdges(stages[..n])|;
    }
  }

  lemma PositionsDiffer(stages: seq<Stage>, s: nat, k: nat, t: nat, m: nat)
    requires At(stages, s, k) && At(stages, t, m)
    ensures Offset(stages, s) + k == Offset(stages, t) + m <==> s == t && k == m
  {
    hide Offset;
    if s < t {
      OffsetGrows(stages, s, t);
    } else if t < s {
      OffsetGrows(stages, t, s);
    }
  }

  // ----- the accepted formats -----

  /** The destination leaves an advancing place of an existing contest for a place of stage t. */
  predicate Leads(from: Stage, d: Destination, to: Stage)
  {
    && d.destinationID != "" && d.targetStageID == to.stageID
    && d.sourceContest < from.contestCount && d.qualifierIndex < from.advancementCount
    && d.targetContest < to.contestCount && d.targetSlot < to.participantCount
  }

  predicate LeadsToLater(stages: seq<Stage>, s: nat, d: Destination)
    requires s < |stages|
  {
    exists t :: s < t < |stages| && Leads(stages[s], d, stages[t])
  }

  predicate SameTarget(d: Destination, e: Destination)
  {
    d.targetStageID == e.targetStageID && d.targetContest == e.targetContest && d.targetSlot == e.targetSlot
  }

  predicate SameQualifier(d: Destination, e: Destination)
  {
    d.sourceContest == e.sourceContest && d.qualifierIndex == e.qualifierIndex
  }

  predicate Fills(d: Destination, stage: Stage, contest: nat, slot: nat)
  {
    d.targetStageID == stage.stageID && d.targetContest == contest && d.targetSlot == slot
  }

  /** Some destination of some stage fills the slot. */
  ghost predicate Filled(stages: seq<Stage>, stage: Stage, contest: nat, slot: nat)
  {
    exists s, k :: At(stages, s, k) && Fills(stages[s].destinations[k], stage, contest, slot)
  }

  predicate StageFits(stage: Stage)
  {
    && stage.stageID != "" && 1 <= stage.contestCount && 2 <= stage.participantCount
    && 1 <= stage.advancementCount <= stage.participantCount
  }

  /** Well-formed stages of different IDs; every destination sends a qualifier to a later stage, no qualifier twice
      and no two to one slot; and every slot after the first stage is filled. */
  ghost predicate FormatFits(stages: seq<Stage>)
  {
    && 1 <= |stages| && (forall s | 0 <= s < |stages| :: StageFits(stages[s]))
    && (forall s, t | 0 <= s < t < |stages| :: stages[s].stageID != stages[t].stageID)
    && (forall s, k | At(stages, s, k) :: LeadsToLater(stages, s, stages[s].destinations[k]))
    && (forall s, k, t, m | At(stages, s, k) && At(stages, t, m) && (s != t || k != m) ::
          !SameTarget(stages[s].destinations[k], stages[t].destinations[m]))
    && (forall s, k, m | At(stages, s, k) && At(stages, s, m) && k != m ::
          !SameQualifier(stages[s].destinations[k], stages[s].destinations[m]))
    && forall t, contest: nat, slot: nat |
         1 <= t < |stages| && contest < stages[t].contestCount && slot < stages[t].participantCount ::
         Filled(stages, stages[t], contest, slot)
  }

  lemma LeadsExactly(stages: seq<Stage>, s: nat, d: Destination)
    requires DistinctStageIDs(stages) && s < |stages|
    ensures EdgeLeadsOn(stages, Edge(s, d)) <==> LeadsToLater(stages, s, d)
  {
    hide IndexOf;
    IndexOfNames(stages, d.targetStageID);
    if t :| s < t < |stages| && Leads(stages[s], d, stages[t]) {
      IndexOfFinds(stages, t);
    }
    if EdgeLeadsOn(stages, Edge(s, d)) {
      assert Leads(stages[s], d, stages[IndexOf(stages, d.targetStageID).value]);
    }
  }

  lemma AllLeadExactly(stages: seq<Stage>)
    requires DistinctStageIDs(stages)
    ensures (forall i | 0 <= i < |AllEdges(stages)| :: EdgeLeadsOn(stages, AllEdges(stages)[i]))
       <==> forall s, k | At(stages, s, k) :: LeadsToLater(stages, s, stages[s].destinations[k])
  {
    hide EdgeLeadsOn, LeadsToLater, Offset, AllEdges;
    var edges := AllEdges(stages);
    if forall i | 0 <= i < |edges| :: EdgeLeadsOn(stages, edges[i]) {
      forall s, k | At(stages, s, k) ensures LeadsToLater(stages, s, stages[s].destinations[k]) {
        EdgeAt(stages, s, k);
        LeadsExactly(stages, s, stages[s].destinations[k]);
      }
    }
    if forall s, k | At(stages, s, k) :: LeadsToLater(stages, s, stages[s].destinations[k]) {
      forall i | 0 <= i < |edges| ensures EdgeLeadsOn(stages, edges[i]) {
        var s, k := PositionOf(stages, i);
        EdgeAt(stages, s, k);
        LeadsExactly(stages, s, stages[s].destinations[k]);
      }
    }
  }

  lemma TargetsExactly(stages: seq<Stage>)
    ensures OneEdgePerTarget(AllEdges(stages))
       <==> forall s, k, t, m | At(stages, s, k) && At(stages, t, m) && (s != t || k != m) ::
              !SameTarget(stages[s].destinations[k], stages[t].destinations[m])
  {
    hide Offset, AllEdges;
    var edges := AllEdges(stages);
    if OneEdgePerTarget(edges) {
      forall s, k, t, m | At(stages, s, k) && At(stages, t, m) && (s != t || k != m)
        ensures !SameTarget(stages[s].destinations[k], stages[t].destinations[m])
      {
        EdgeAt(stages, s, k);
        EdgeAt(stages, t, m);
        PositionsDiffer(stages, s, k, t, m);
        var i, j := Offset(stages, s) + k, Offset(stages, t) + m;
        assert Target(edges[if i < j then i else j]) != Target(edges[if i < j then j else i]);
      }
    }
    if forall s, k, t, m | At(stages, s, k) && At(stages, t, m) && (s != t || k != m) ::
         !SameTarget(stages[s].destinations[k], stages[t].destinations[m]) {
      forall i, j | 0 <= i < j < |edges| ensures Target(edges[i]) != Target(edges[j]) {
        var s, k := PositionOf(stages, i);
        var t, m := PositionOf(stages, j);
        EdgeAt(stages, s, k);
        EdgeAt(stages, t, m);
      }
    }
  }

  lemma EdgeSources(stages: seq<Stage>)
    ensures forall i | 0 <= i < |AllEdges(stages)| :: AllEdges(stages)[i].source < |stages|
  {
    forall i | 0 <= i < |AllEdges(stages)| ensures AllEdges(stages)[i].source < |stages| {
      EdgeMembers(stages, AllEdges(stages)[i]);
    }
  }

  lemma QualifiersExactly(stages: seq<Stage>)
    requires DistinctStageIDs(stages)
    ensures forall i | 0 <= i < |AllEdges(stages)| :: AllEdges(stages)[i].source < |stages|
    ensures OneEdgePerSource(stages, AllEdges(stages))
       <==> forall s, k, m | At(stages, s, k) && At(stages, s, m) && k != m ::
              !SameQualifier(stages[s].destinations[k], stages[s].destinations[m])
  {
    hide Offset, AllEdges;
    EdgeSources(stages);
    var edges := AllEdges(stages);
    if OneEdgePerSource(stages, edges) {
      forall s, k, m | At(stages, s, k) && At(stages, s, m) && k != m
        ensures !SameQualifier(stages[s].destinations[k], stages[s].destinations[m])
      {
        EdgeAt(stages, s, k);
        EdgeAt(stages, s, m);
        var i, j := Offset(stages, s) + k, Offset(stages, s) + m;
        assert Source(stages, edges[if i < j then i else j]) != Source(stages, edges[if i < j then j else i]);
      }
    }
    if forall s, k, m | At(stages, s, k) && At(stages, s, m) && k != m ::
         !SameQualifier(stages[s].destinations[k], stages[s].destinations[m]) {
      forall i, j | 0 <= i < j < |edges| ensures Source(stages, edges[i]) != Source(stages, edges[j]) {
        var s, k := PositionOf(stages, i);
        var t, m := PositionOf(stages, j);
        EdgeAt(stages, s, k);
        EdgeAt(stages, t, m);
        if s != t {
          assert stages[s].stageID != stages[t].stageID;
        }
      }
    }
  }

  lemma FilledExactly(stages: seq<Stage>, stage: Stage, contest: nat, slot: nat)
    ensures Fed(AllEdges(stages), Place(stage.stageID, contest, slot)) <==> Filled(stages, stage, contest, slot)
  {
    hide Offset, AllEdges;
    var edges, place := AllEdges(stages), Place(stage.stageID, contest, slot);
    if Fed(edges, place) {
      var i :| 0 <= i < |edges| && Target(edges[i]) == place;
      var s, k := PositionOf(stages, i);
      EdgeAt(stages, s, k);
    }
    if Filled(stages, stage, contest, slot) {
      var s, k :| At(stages, s, k) && Fills(stages[s].destinations[k], stage, contest, slot);
      EdgeAt(stages, s, k);
      assert Target(edges[Offset(stages, s) + k]) == place;
    }
  }

  lemma StageFilledExactly(stages: seq<Stage>, stage: Stage)
    ensures StageFed(AllEdges(stages), stage)
       <==> forall contest: nat, slot: nat | contest < stage.contestCount && slot < stage.participantCount ::
              Filled(stages, stage, contest, slot)
  {
    hide Fed, Filled, AllEdges;
    forall contest: nat, slot: nat
      ensures Fed(AllEdges(stages), Place(stage.stageID, contest, slot)) <==> Filled(stages, stage, contest, slot)
    {
      FilledExactly(stages, stage, contest, slot);
    }
  }

  /** The checker accepts exactly the formats that fit. */
  lemma FormatExactly(stages: seq<Stage>)
    ensures ValidFormat(stages) <==> FormatFits(stages)
  {
    hide AllEdges, EdgeLeadsOn, LeadsToLater, SameTarget, SameQualifier, Filled, StageFed, OneEdgePerTarget,
         OneEdgePerSource;
    if DistinctStageIDs(stages) {
      AllLeadExactly(stages);
      TargetsExactly(stages);
      QualifiersExactly(stages);
    }
    forall t | 1 <= t < |stages|
      ensures StageFed(AllEdges(stages), stages[t])
         <==> forall contest: nat, slot: nat |
                contest < stages[t].contestCount && slot < stages[t].participantCount ::
                Filled(stages, stages[t], contest, slot)
    {
      StageFilledExactly(stages, stages[t]);
    }
  }

  lemma DestinationLeads(stages: seq<Stage>, s: nat, k: nat)
    requires ValidFormat(stages) && At(stages, s, k)
    ensures LeadsToLater(stages, s, stages[s].destinations[k])
  {
    hide LeadsToLater, ValidFormat, SameTarget, SameQualifier, Filled;
    FormatExactly(stages);
  }

  /** The last stage of an accepted format sends nobody on. */
  lemma LastStageSendsNothing(stages: seq<Stage>)
    requires ValidFormat(stages)
    ensures stages[|stages| - 1].destinations == []
  {
    if stages[|stages| - 1].destinations != [] {
      DestinationLeads(stages, |stages| - 1, 0);
      assert false;
    }
  }

  // ----- how many go on -----

  /** The qualifiers of one stage, numbered contest by contest. */
  function QualifierNumbers(stage: Stage): seq<int>
  {
    seq(|stage.destinations|, k requires 0 <= k < |stage.destinations| =>
      stage.destinations[k].sourceContest * stage.advancementCount + stage.destinations[k].qualifierIndex)
  }

  /** A stage of an accepted format has at most as many destinations as it has advancing places. */
  lemma StageSendsAtMost(stages: seq<Stage>, s: nat)
    requires ValidFormat(stages) && s < |stages|
    ensures |stages[s].destinations| <= stages[s].contestCount * stages[s].advancementCount
  {
    FormatExactly(stages);
    var stage, numbers := stages[s], QualifierNumbers(stages[s]);
    forall k | 0 <= k < |numbers| ensures 0 <= numbers[k] < stage.contestCount * stage.advancementCount {
      DestinationLeads(stages, s, k);
      EarlierContestsNumberLower(stage.destinations[k].sourceContest, stage.destinations[k].qualifierIndex,
                                 stage.contestCount, stage.advancementCount);
    }
    forall k, m | 0 <= k < m < |numbers| ensures numbers[k] != numbers[m] {
      assert At(stages, s, k) && At(stages, s, m);
      DestinationLeads(stages, s, k);
      DestinationLeads(stages, s, m);
      SlotNumberInjective(stage.destinations[k].sourceContest, stage.destinations[k].qualifierIndex,
                          stage.destinations[m].sourceContest, stage.destinations[m].qualifierIndex,
                          stage.advancementCount);
    }
    Pigeonhole(numbers, stage.contestCount * stage.advancementCount);
  }

  /** The slots of the stages after the first, up to stage n. */
  function LaterSlots(stages: seq<Stage>, n: nat): nat
    requires n <= |stages|
  {
    if n <= 1 then 0 else LaterSlots(stages, n - 1) + stages[n - 1].contestCount * stages[n - 1].participantCount
  }

  /** The advancing places of the first n stages. */
  function Advancing(stages: seq<Stage>, n: nat): nat
    requires n <= |stages|
  {
    if n == 0 then 0 else Advancing(stages, n - 1) + stages[n - 1].contestCount * stages[n - 1].advancementCount
  }

  /** The destinations of the first n stages. */
  function Sent(stages: seq<Stage>, n: nat): nat
    requires n <= |stages|
  {
    if n == 0 then 0 else Sent(stages, n - 1) + |stages[n - 1].destinations|
  }

  lemma {:induction false} SentCountsEdges(stages: seq<Stage>, n: nat)
    requires n <= |stages|
    ensures Sent(stages, n) == |AllEdges(stages[..n])|
  {
    if n == 0 {
    } else {
      SentCountsEdges(stages, n - 1);
      assert stages[..n][..n - 1] == stages[..n - 1];
    }
  }

  /** The edges that lead to one of the stages after the first, up to stage n. */
  function CountToLater(stages: seq<Stage>, edges: seq<Edge>, n: nat): nat
    requires n <= |stages|
  {
    if n <= 1 then 0 else CountToLater(stages, edges, n - 1) + CountTo(edges, stages[n - 1].stageID)
  }

  lemma {:induction false} CountToLaterGrows(stages: seq<Stage>, edges: seq<Edge>, n: nat, t: nat)
    requires edges != [] && n <= |stages| && DistinctStageIDs(stages) && 1 <= t < |stages|
    requires edges[|edges| - 1].destination.targetStageID == stages[t].stageID
    ensures CountToLater(stages, edges, n)
         == CountToLater(stages, edges[..|edges| - 1], n) + if t < n then 1 else 0
  {
    if n <= 1 {
    } else {
      CountToLaterGrows(stages, edges, n - 1, t);
    }
  }

  lemma {:induction false} NothingCounted(stages: seq<Stage>, n: nat)
    requires n <= |stages|
    ensures CountToLater(stages, [], n) == 0
  {
    if n <= 1 {
    } else {
      NothingCounted(stages, n - 1);
    }
  }

  lemma TargetOfEdge(stages: seq<Stage>, e: Edge) returns (t: nat)
    requires EdgeLeadsOn(stages, e)
    ensures 1 <= t < |stages| && e.destination.targetStageID == stages[t].stageID
  {
    IndexOfNames(stages, e.destination.targetStageID);
    t := IndexOf(stages, e.destination.targetStageID).value;
  }

  lemma {:induction false} EveryEdgeIsCounted(stages: seq<Stage>, edges: seq<Edge>)
    requires DistinctStageIDs(stages) && forall i | 0 <= i < |edges| :: EdgeLeadsOn(stages, edges[i])
    ensures CountToLater(stages, edges, |stages|) == |edges|
  {
    hide EdgeLeadsOn;
    if edges == [] {
      NothingCounted(stages, |stages|);
    } else {
      var n := |edges| - 1;
      EveryEdgeIsCounted(stages, edges[..n]);
      var t := TargetOfEdge(stages, edges[n]);
      CountToLaterGrows(stages, edges, |stages|, t);
    }
  }

  lemma {:induction false} CountsAreSlots(stages: seq<Stage>, n: nat)
    requires ValidFormat(stages) && n <= |stages|
    ensures CountToLater(stages, AllEdges(stages), n) == LaterSlots(stages, n)
  {
    hide AllEdges, StagesSound, EdgesSound, StageFed;
    if n <= 1 {
    } else {
      CountsAreSlots(stages, n - 1);
      assert StageFed(AllEdges(stages), stages[n - 1]);
      CountDecidesFed(stages, n - 1);
    }
  }

  lemma {:induction false} SentAtMostAdvancing(stages: seq<Stage>, n: nat)
    requires ValidFormat(stages) && n <= |stages|
    ensures Sent(stages, n) <= Advancing(stages, n)
  {
    hide ValidFormat;
    if n == 0 {
    } else {
      SentAtMostAdvancing(stages, n - 1);
      StageSendsAtMost(stages, n - 1);
    }
  }

  /** In an accepted format the slots after the first stage are as many as the destinations, so at most as many as
      the advancing places: contests times advancement, summed over the stages. */
  lemma SlotsAreSent(stages: seq<Stage>)
    requires ValidFormat(stages)
    ensures LaterSlots(stages, |stages|) == Sent(stages, |stages|) <= Advancing(stages, |stages|)
  {
    hide AllEdges, StageFed, EdgeLeadsOn, OneEdgePerTarget, OneEdgePerSource, StageShape;
    assert stages[..|stages|] == stages;
    SentCountsEdges(stages, |stages|);
    EveryEdgeIsCounted(stages, AllEdges(stages));
    CountsAreSlots(stages, |stages|);
    SentAtMostAdvancing(stages, |stages|);
  }
}
