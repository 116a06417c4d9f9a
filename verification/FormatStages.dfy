/** The checker of a competition format: stages of contests, and where each qualifier goes. */
module FormatStages {
  import opened Primitives
  import opened Combinatorics

  /** The checker only compares these numbers, so their Go widths play no part. */
  datatype Destination = Destination(
    destinationID: string, sourceContest: nat, qualifierIndex: nat, targetStageID: string, targetContest: nat,
    targetSlot: nat)

  datatype Stage = Stage(
    stageID: string, contestCount: nat, participantCount: nat, advancementCount: nat,
    destinations: seq<Destination>)

  /** A destination together with the index of the stage that lists it. */
  datatype Edge = Edge(source: nat, destination: Destination)

  /** A numbered place in a numbered contest of a named stage. */
  datatype Place = Place(stageID: string, contest: nat, index: nat)

  function StageEdges(source: nat, destinations: seq<Destination>): seq<Edge>
  {
    seq(|destinations|, i requires 0 <= i < |destinations| => Edge(source, destinations[i]))
  }

  /** All edges in the order the checker visits them. */
  function AllEdges(stages: seq<Stage>): seq<Edge>
  {
    if stages == [] then []
    else
      var n := |stages| - 1;
      AllEdges(stages[..n]) + StageEdges(n, stages[n].destinations)
  }

  function IndexOf(stages: seq<Stage>, id: string): Option<nat>
  {
    if stages == [] then None
    else if stages[|stages| - 1].stageID == id then Some(|stages| - 1)
    else IndexOf(stages[..|stages| - 1], id)
  }

  function Target(e: Edge): Place
  {
    Place(e.destination.targetStageID, e.destination.targetContest, e.destination.targetSlot)
  }

  function Source(stages: seq<Stage>, e: Edge): Place
    requires e.source < |stages|
  {
    Place(stages[e.source].stageID, e.destination.sourceContest, e.destination.qualifierIndex)
  }

  predicate StageShape(stage: Stage)
  {
    && stage.stageID != "" && stage.contestCount != 0 && stage.participantCount >= 2
    && 0 < stage.advancementCount <= stage.participantCount
  }

  predicate DistinctStageIDs(stages: seq<Stage>)
  {
    forall i, j | 0 <= i < j < |stages| :: stages[i].stageID != stages[j].stageID
  }

  /** The edge leads from an existing qualifier to an existing place of a later stage. */
  predicate EdgeLeadsOn(stages: seq<Stage>, e: Edge)
  {
    && e.source < |stages|
    && var target := IndexOf(stages, e.destination.targetStageID);
    && e.destination.destinationID != "" && target.Some? && e.source < target.value < |stages|
    && e.destination.sourceContest < stages[e.source].contestCount
    && e.destination.qualifierIndex < stages[e.source].advancementCount
    && e.destination.targetContest < stages[target.value].contestCount
    && e.destination.targetSlot < stages[target.value].participantCount
  }

  predicate OneEdgePerTarget(edges: seq<Edge>)
  {
    forall i, j | 0 <= i < j < |edges| :: Target(edges[i]) != Target(edges[j])
  }

  predicate OneEdgePerSource(stages: seq<Stage>, edges: seq<Edge>)
    requires forall i | 0 <= i < |edges| :: edges[i].source < |stages|
  {
    forall i, j | 0 <= i < j < |edges| :: Source(stages, edges[i]) != Source(stages, edges[j])
  }

  predicate Fed(edges: seq<Edge>, place: Place) { exists i :: 0 <= i < |edges| && Target(edges[i]) == place }

  /** Every slot of the stage is the target of some edge. */
  predicate StageFed(edges: seq<Edge>, stage: Stage)
  {
    forall contest: nat, slot: nat | contest < stage.contestCount && slot < stage.participantCount ::
      Fed(edges, Place(stage.stageID, contest, slot))
  }

  predicate EdgesSound(stages: seq<Stage>, edges: seq<Edge>)
  {
    && (forall i | 0 <= i < |edges| :: EdgeLeadsOn(stages, edges[i]))
    && OneEdgePerTarget(edges) && OneEdgePerSource(stages, edges)
  }

  predicate StagesSound(stages: seq<Stage>)
  {
    (forall i | 0 <= i < |stages| :: StageShape(stages[i])) && DistinctStageIDs(stages)
  }

  /** What an approved format guarantees, with no counting: the destinations are a bijection from a set of
      qualifiers onto all slots after the first stage, and always lead to a later stage. */
  predicate ValidFormat(stages: seq<Stage>)
  {
    && stages != [] && StagesSound(stages) && EdgesSound(stages, AllEdges(stages))
    && forall t | 1 <= t < |stages| :: StageFed(AllEdges(stages), stages[t])
  }

  // ----- text keys -----

  function PlaceKey(place: Place): string
  {
    place.stageID + ":" + Decimal(place.contest) + ":" + Decimal(place.index)
  }

  lemma DecimalHasNoColon(n: nat)
    ensures ':' !in Decimal(n)
  {
  }

  /** The joined text is unambiguous, also when a stage ID itself contains colons. */
  lemma PlaceKeyInjective(p: Place, q: Place)
    ensures PlaceKey(p) == PlaceKey(q) <==> p == q
  {
    hide Decimal;
    if PlaceKey(p) == PlaceKey(q) {
      DecimalHasNoColon(p.contest);
      DecimalHasNoColon(q.contest);
      DecimalHasNoColon(p.index);
      DecimalHasNoColon(q.index);
      LastSeparator(p.stageID + ":" + Decimal(p.contest), Decimal(p.index),
                    q.stageID + ":" + Decimal(q.contest), Decimal(q.index), ':');
      LastSeparator(p.stageID, Decimal(p.contest), q.stageID, Decimal(q.contest), ':');
      DecimalInjective(p.contest, q.contest);
      DecimalInjective(p.index, q.index);
    }
  }

  // ----- edges and stage indexes -----

  lemma {:induction false} IndexOfFinds(stages: seq<Stage>, i: nat)
    requires DistinctStageIDs(stages) && i < |stages|
    ensures IndexOf(stages, stages[i].stageID) == Some(i)
  {
    var n := |stages| - 1;
    if i == n {
    } else {
      assert stages[..n][i] == stages[i];
      assert forall j | 0 <= j < n :: stages[..n][j] == stages[j];
      IndexOfFinds(stages[..n], i);
    }
  }

  lemma {:induction false} IndexOfNames(stages: seq<Stage>, id: string)
    ensures var i := IndexOf(stages, id);
            if i.Some? then i.value < |stages| && stages[i.value].stageID == id
            else forall j | 0 <= j < |stages| :: stages[j].stageID != id
  {
    if stages == [] {
    } else {
      var n := |stages| - 1;
      IndexOfNames(stages[..n], id);
      assert forall j | 0 <= j < n :: stages[..n][j] == stages[j];
    }
  }

  lemma {:induction false} AllEdgesPrefix(stages: seq<Stage>, k: nat)
    requires k <= |stages|
    ensures AllEdges(stages[..k]) <= AllEdges(stages)
  {
    var n := |stages| - 1;
    if k == |stages| {
      assert stages[..k] == stages;
    } else {
      assert stages[..n][..k] == stages[..k];
      AllEdgesPrefix(stages[..n], k);
    }
  }

  lemma VisitedPrefix(stages: seq<Stage>, s: nat, k: nat)
    requires s < |stages| && k <= |stages[s].destinations|
    ensures AllEdges(stages[..s]) + StageEdges(s, stages[s].destinations[..k]) <= AllEdges(stages)
  {
    AllEdgesPrefix(stages, s + 1);
    var upTo := stages[..s + 1];
    assert upTo[..s] == stages[..s] && upTo[s] == stages[s];
    var part, whole := StageEdges(s, stages[s].destinations[..k]), StageEdges(s, stages[s].destinations);
    assert part == whole[..k];
    assert AllEdges(upTo) == AllEdges(stages[..s]) + whole;
  }

  /** An edge of a format is a destination listed by its source stage, and conversely. */
  lemma {:induction false} EdgeMembers(stages: seq<Stage>, e: Edge)
    ensures e in AllEdges(stages) <==> e.source < |stages| && e.destination in stages[e.source].destinations
  {
    if stages == [] {
    } else {
      var n := |stages| - 1;
      EdgeMembers(stages[..n], e);
      var last := StageEdges(n, stages[n].destinations);
      if e.source == n && e.destination in stages[n].destinations {
        var i :| 0 <= i < |stages[n].destinations| && stages[n].destinations[i] == e.destination;
        assert last[i] == e;
      }
    }
  }

  // ----- counting against covering -----

  /** The slots of one stage that the edges target, numbered contest by contest. */
  function SlotNumbers(edges: seq<Edge>, stage: Stage): seq<int>
  {
    if edges == [] then []
    else
      var e := edges[|edges| - 1];
      SlotNumbers(edges[..|edges| - 1], stage)
      + if e.destination.targetStageID == stage.stageID
        then [e.destination.targetContest * stage.participantCount + e.destination.targetSlot] else []
  }

  predicate TargetsInside(edges: seq<Edge>, stage: Stage)
  {
    forall i | 0 <= i < |edges| && edges[i].destination.targetStageID == stage.stageID ::
      && edges[i].destination.targetContest < stage.contestCount
      && edges[i].destination.targetSlot < stage.participantCount
  }

  lemma {:induction false} EarlierContestsNumberLower(contest: nat, slot: nat, later: nat, width: nat)
    requires contest < later && slot < width
    ensures contest * width + slot < later * width
    decreases later
  {
    assert later * width == (later - 1) * width + width;
    if contest == later - 1 {
    } else {
      EarlierContestsNumberLower(contest, slot, later - 1, width);
    }
  }

  lemma SlotNumberInjective(contest: nat, slot: nat, contest': nat, slot': nat, width: nat)
    requires slot < width && slot' < width
    ensures contest * width + slot == contest' * width + slot' <==> contest == contest' && slot == slot'
  {
    if contest < contest' {
      EarlierContestsNumberLower(contest, slot, contest', width);
    } else if contest' < contest {
      EarlierContestsNumberLower(contest', slot', contest, width);
    }
  }

  lemma SlotNumberBound(contest: nat, slot: nat, stage: Stage)
    requires contest < stage.contestCount && slot < stage.participantCount
    ensures 0 <= contest * stage.participantCount + slot < stage.contestCount * stage.participantCount
  {
    EarlierContestsNumberLower(contest, slot, stage.contestCount, stage.participantCount);
  }

  lemma {:induction false} SlotNumbersListTargets(edges: seq<Edge>, stage: Stage, contest: nat, slot: nat)
    requires TargetsInside(edges, stage) && slot < stage.participantCount
    ensures contest * stage.participantCount + slot in SlotNumbers(edges, stage)
       <==> Fed(edges, Place(stage.stageID, contest, slot))
  {
    if edges == [] {
    } else {
      var init, e := edges[..|edges| - 1], edges[|edges| - 1];
      var place := Place(stage.stageID, contest, slot);
      SlotNumbersListTargets(init, stage, contest, slot);
      if e.destination.targetStageID == stage.stageID {
        SlotNumberInjective(contest, slot, e.destination.targetContest, e.destination.targetSlot,
                            stage.participantCount);
      }
      assert Fed(edges, place) <==> Fed(init, place) || Target(e) == place by {
        if Fed(init, place) {
          var i :| 0 <= i < |init| && Target(init[i]) == place;
          assert edges[i] == init[i];
        }
        if Fed(edges, place) && Target(e) != place {
          var i :| 0 <= i < |edges| && Target(edges[i]) == place;
          assert init[i] == edges[i];
        }
      }
    }
  }

  lemma {:induction false} SlotNumbersDistinct(edges: seq<Edge>, stage: Stage)
    requires TargetsInside(edges, stage) && OneEdgePerTarget(edges)
    ensures Distinct(SlotNumbers(edges, stage))
    ensures forall n | n in SlotNumbers(edges, stage) :: 0 <= n < stage.contestCount * stage.participantCount
  {
    if edges == [] {
    } else {
      var init, e := edges[..|edges| - 1], edges[|edges| - 1];
      SlotNumbersDistinct(init, stage);
      if e.destination.targetStageID == stage.stageID {
        assert e == edges[|edges| - 1];
        SlotNumbersListTargets(init, stage, e.destination.targetContest, e.destination.targetSlot);
        assert !Fed(init, Target(e));
        SlotNumberBound(e.destination.targetContest, e.destination.targetSlot, stage);
        DistinctAppend(SlotNumbers(init, stage),
                       e.destination.targetContest * stage.participantCount + e.destination.targetSlot);
      }
    }
  }

  lemma {:induction false} SlotOfNumber(n: nat, contests: nat, width: nat) returns (contest: nat, slot: nat)
    requires n < contests * width && width > 0
    ensures contest < contests && slot < width && n == contest * width + slot
  {
    assert contests * width == (contests - 1) * width + width;
    if n >= (contests - 1) * width {
      contest, slot := contests - 1, n - (contests - 1) * width;
    } else {
      contest, slot := SlotOfNumber(n, contests - 1, width);
    }
  }

  /** With distinct targets inside the stage, the right count and full coverage are the same thing. */
  lemma CountExactlyWhenFed(edges: seq<Edge>, stage: Stage)
    requires StageShape(stage) && TargetsInside(edges, stage) && OneEdgePerTarget(edges)
    ensures |SlotNumbers(edges, stage)| == stage.contestCount * stage.participantCount <==> StageFed(edges, stage)
  {
    var numbers, size := SlotNumbers(edges, stage), stage.contestCount * stage.participantCount;
    SlotNumbersDistinct(edges, stage);
    assert forall i | 0 <= i < |numbers| :: numbers[i] in numbers;
    Pigeonhole(numbers, size);
    if |numbers| == size {
      forall contest: nat, slot: nat | contest < stage.contestCount && slot < stage.participantCount
        ensures Fed(edges, Place(stage.stageID, contest, slot))
      {
        SlotNumberBound(contest, slot, stage);
        SlotNumbersListTargets(edges, stage, contest, slot);
      }
    }
    if StageFed(edges, stage) {
      forall n | n in Range(size) ensures n in Elements(numbers) {
        var contest, slot := SlotOfNumber(n, stage.contestCount, stage.participantCount);
        SlotNumbersListTargets(edges, stage, contest, slot);
        assert Fed(edges, Place(stage.stageID, contest, slot));
      }
      DistinctCount(numbers);
      RangeCount(size);
      SubsetCount(Range(size), Elements(numbers));
    }
  }
}
