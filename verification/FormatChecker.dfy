/** The format checker itself, and what every accepted format guarantees. */
module FormatChecker {
  import opened Primitives
  import opened FormatStages

  function CountTo(edges: seq<Edge>, id: string): nat
  {
    if edges == [] then 0
    else CountTo(edges[..|edges| - 1], id) + if edges[|edges| - 1].destination.targetStageID == id then 1 else 0
  }

  lemma {:induction false} CountToCountsSlots(edges: seq<Edge>, stage: Stage)
    ensures CountTo(edges, stage.stageID) == |SlotNumbers(edges, stage)|
  {
    if edges == [] {
    } else {
      CountToCountsSlots(edges[..|edges| - 1], stage);
    }
  }

  function TargetKeys(edges: seq<Edge>): set<string>
  {
    set i | 0 <= i < |edges| :: PlaceKey(Target(edges[i]))
  }

  function SourceKeys(stages: seq<Stage>, edges: seq<Edge>): set<string>
    requires forall i | 0 <= i < |edges| :: edges[i].source < |stages|
  {
    set i | 0 <= i < |edges| :: PlaceKey(Source(stages, edges[i]))
  }

  function CountIn(incoming: map<string, nat>, id: string): nat { if id in incoming then incoming[id] else 0 }

  /** The three maps hold the facts about the edges visited so far, which are all sound. */
  ghost predicate Visited(stages: seq<Stage>, edges: seq<Edge>, targets: set<string>, sources: set<string>,
                          incoming: map<string, nat>)
  {
    && EdgesSound(stages, edges)
    && targets == TargetKeys(edges) && sources == SourceKeys(stages, edges)
    && forall id :: CountIn(incoming, id) == CountTo(edges, id)
  }

  lemma TargetKeysSaySame(edges: seq<Edge>, e: Edge)
    ensures PlaceKey(Target(e)) in TargetKeys(edges)
       <==> exists i :: 0 <= i < |edges| && Target(edges[i]) == Target(e)
  {
    hide PlaceKey;
    if PlaceKey(Target(e)) in TargetKeys(edges) {
      var i :| 0 <= i < |edges| && PlaceKey(Target(edges[i])) == PlaceKey(Target(e));
      PlaceKeyInjective(Target(edges[i]), Target(e));
    }
  }

  lemma SourceKeysSaySame(stages: seq<Stage>, edges: seq<Edge>, e: Edge)
    requires e.source < |stages| && forall i | 0 <= i < |edges| :: edges[i].source < |stages|
    ensures PlaceKey(Source(stages, e)) in SourceKeys(stages, edges)
       <==> exists i :: 0 <= i < |edges| && Source(stages, edges[i]) == Source(stages, e)
  {
    hide PlaceKey;
    if PlaceKey(Source(stages, e)) in SourceKeys(stages, edges) {
      var i :| 0 <= i < |edges| && PlaceKey(Source(stages, edges[i])) == PlaceKey(Source(stages, e));
      PlaceKeyInjective(Source(stages, edges[i]), Source(stages, e));
    }
  }

  lemma SoundPrefix(stages: seq<Stage>, edges: seq<Edge>, prefix: seq<Edge>)
    requires prefix <= edges && EdgesSound(stages, edges)
    ensures EdgesSound(stages, prefix)
  {
    hide EdgeLeadsOn;
    assert forall i | 0 <= i < |prefix| :: prefix[i] == edges[i];
    assert forall i | 0 <= i < |prefix| :: EdgeLeadsOn(stages, prefix[i]);
  }

  lemma LeadsOnSource(stages: seq<Stage>, e: Edge)
    requires EdgeLeadsOn(stages, e)
    ensures e.source < |stages|
  {
  }

  /** One more edge keeps the visited ones sound exactly when it leads on and both its keys are new. */
  lemma VisitDecides(stages: seq<Stage>, edges: seq<Edge>, e: Edge)
    requires EdgesSound(stages, edges)
    ensures EdgesSound(stages, edges + [e])
       <==> && EdgeLeadsOn(stages, e)
            && PlaceKey(Target(e)) !in TargetKeys(edges)
            && (forall i | 0 <= i < |edges| :: edges[i].source < |stages|) && e.source < |stages|
            && PlaceKey(Source(stages, e)) !in SourceKeys(stages, edges)
  {
    hide EdgeLeadsOn, PlaceKey;
    forall i | 0 <= i < |edges| ensures edges[i].source < |stages| {
      LeadsOnSource(stages, edges[i]);
    }
    var longer := edges + [e];
    assert forall i | 0 <= i < |edges| :: longer[i] == edges[i];
    assert longer[|edges|] == e;
    TargetKeysSaySame(edges, e);
    if EdgeLeadsOn(stages, e) {
      LeadsOnSource(stages, e);
      SourceKeysSaySame(stages, edges, e);
    }
  }

  lemma KeysGrow(stages: seq<Stage>, edges: seq<Edge>, e: Edge)
    requires forall i | 0 <= i < |edges| :: edges[i].source < |stages|
    requires e.source < |stages|
    ensures TargetKeys(edges + [e]) == TargetKeys(edges) + {PlaceKey(Target(e))}
    ensures SourceKeys(stages, edges + [e]) == SourceKeys(stages, edges) + {PlaceKey(Source(stages, e))}
  {
    hide PlaceKey;
    var longer := edges + [e];
    assert forall i | 0 <= i < |edges| :: longer[i] == edges[i];
    assert longer[|edges|] == e;
  }

  lemma VisitRecords(stages: seq<Stage>, edges: seq<Edge>, e: Edge, targets: set<string>, sources: set<string>,
                     incoming: map<string, nat>)
    requires Visited(stages, edges, targets, sources, incoming) && EdgesSound(stages, edges + [e])
    requires e.source < |stages|
    ensures var id := e.destination.targetStageID;
            Visited(stages, edges + [e], targets + {PlaceKey(Target(e))}, sources + {PlaceKey(Source(stages, e))},
                    incoming[id := CountIn(incoming, id) + 1])
  {
    hide EdgeLeadsOn, PlaceKey;
    var longer := edges + [e];
    forall i | 0 <= i < |edges| ensures edges[i].source < |stages| {
      LeadsOnSource(stages, edges[i]);
    }
    KeysGrow(stages, edges, e);
    var counted := incoming[e.destination.targetStageID := CountIn(incoming, e.destination.targetStageID) + 1];
    forall id ensures CountIn(counted, id) == CountTo(longer, id) {
      assert longer[..|longer| - 1] == edges;
      assert CountIn(incoming, id) == CountTo(edges, id);
    }
  }

  /** The map holds exactly the IDs of the first `n` stages, each with its position. */
  predicate Indexed(stages: seq<Stage>, n: nat, indexes: map<string, nat>)
    requires n <= |stages|
  {
    && (forall i | 0 <= i < n :: stages[i].stageID in indexes && indexes[stages[i].stageID] == i)
    && forall id | id in indexes :: indexes[id] < n && stages[indexes[id]].stageID == id
  }

  predicate SoundUpTo(stages: seq<Stage>, n: nat)
    requires n <= |stages|
  {
    && (forall i | 0 <= i < n :: StageShape(stages[i]))
    && forall i, j | 0 <= i < j < n :: stages[i].stageID != stages[j].stageID
  }

  /** One more stage keeps the prefix sound exactly when its shape is right and its ID is not indexed yet. */
  lemma IndexDecides(stages: seq<Stage>, n: nat, indexes: map<string, nat>)
    requires n < |stages| && SoundUpTo(stages, n) && Indexed(stages, n, indexes)
    ensures SoundUpTo(stages, n + 1) <==> StageShape(stages[n]) && stages[n].stageID !in indexes
    ensures stages[n].stageID !in indexes ==> Indexed(stages, n + 1, indexes[stages[n].stageID := n])
  {
    hide StageShape;
    if stages[n].stageID in indexes {
      assert stages[indexes[stages[n].stageID]].stageID == stages[n].stageID;
    }
  }

  lemma UnsoundPrefix(stages: seq<Stage>, n: nat)
    requires n <= |stages| && !SoundUpTo(stages, n)
    ensures !StagesSound(stages)
  {
    hide StageShape;
  }

  lemma EmptyIndex(stages: seq<Stage>)
    ensures SoundUpTo(stages, 0) && Indexed(stages, 0, map[])
  {
  }

  lemma SoundIsSoundUpTo(stages: seq<Stage>)
    ensures SoundUpTo(stages, |stages|) <==> StagesSound(stages)
  {
    hide StageShape;
  }

  lemma IndexAnswers(stages: seq<Stage>, indexes: map<string, nat>)
    requires DistinctStageIDs(stages) && Indexed(stages, |stages|, indexes)
    ensures forall id :: IndexOf(stages, id) == if id in indexes then Some(indexes[id]) else None
  {
    hide IndexOf;
    forall id ensures IndexOf(stages, id) == if id in indexes then Some(indexes[id]) else None {
      IndexOfNames(stages, id);
      if id in indexes {
        IndexOfFinds(stages, indexes[id]);
      }
    }
  }

  /** The first loop: shapes, and the index of each stage ID. */
  method IndexStages(stages: seq<Stage>) returns (ok: bool, indexes: map<string, nat>)
    ensures ok == StagesSound(stages)
    ensures ok ==> forall id :: IndexOf(stages, id) == if id in indexes then Some(indexes[id]) else None
  {
    hide IndexOf, Indexed, SoundUpTo;
    indexes := map[];
    EmptyIndex(stages);
    for index := 0 to |stages|
      invariant SoundUpTo(stages, index) && Indexed(stages, index, indexes)
    {
      var stage := stages[index];
      IndexDecides(stages, index, indexes);
      if stage.stageID == "" || stage.contestCount == 0 || stage.participantCount < 2
         || stage.advancementCount == 0 || stage.advancementCount > stage.participantCount {
        UnsoundPrefix(stages, index + 1);
        return false, indexes;
      }
      if stage.stageID in indexes {
        UnsoundPrefix(stages, index + 1);
        return false, indexes;
      }
      indexes := indexes[stage.stageID := index];
    }
    SoundIsSoundUpTo(stages);
    IndexAnswers(stages, indexes);
    return true, indexes;
  }

  lemma NothingVisited(stages: seq<Stage>)
    ensures Visited(stages, [], {}, {}, map[])
    ensures AllEdges(stages[..0]) == []
  {
  }

  lemma VisitedIsSound(stages: seq<Stage>, edges: seq<Edge>, targets: set<string>, sources: set<string>,
                       incoming: map<string, nat>)
    requires Visited(stages, edges, targets, sources, incoming)
    ensures EdgesSound(stages, edges) && forall i | 0 <= i < |edges| :: edges[i].source < |stages|
    ensures targets == TargetKeys(edges) && sources == SourceKeys(stages, edges)
    ensures forall id :: CountIn(incoming, id) == CountTo(edges, id)
  {
  }

  /** The second, nested loop: every destination of every stage. */
  method VisitDestinations(stages: seq<Stage>, indexes: map<string, nat>)
    returns (ok: bool, incoming: map<string, nat>)
    requires forall id :: IndexOf(stages, id) == if id in indexes then Some(indexes[id]) else None
    requires forall id | id in indexes :: indexes[id] < |stages|
    ensures ok == EdgesSound(stages, AllEdges(stages))
    ensures ok ==> forall id :: CountIn(incoming, id) == CountTo(AllEdges(stages), id)
  {
    hide Visited, EdgesSound, IndexOf, PlaceKey;
    var targetSlots: set<string>, sourceQualifiers: set<string> := {}, {};
    incoming := map[];
    ghost var edges: seq<Edge> := [];
    NothingVisited(stages);
    for s := 0 to |stages|
      invariant edges == AllEdges(stages[..s]) && Visited(stages, edges, targetSlots, sourceQualifiers, incoming)
    {
      var stage := stages[s];
      for k := 0 to |stage.destinations|
        invariant edges == AllEdges(stages[..s]) + StageEdges(s, stage.destinations[..k])
        invariant Visited(stages, edges, targetSlots, sourceQualifiers, incoming)
      {
        var destination := stage.destinations[k];
        ghost var e := Edge(s, destination);
        VisitedPrefix(stages, s, k + 1);
        assert StageEdges(s, stage.destinations[..k + 1]) == StageEdges(s, stage.destinations[..k]) + [e];
        assert AllEdges(stages[..s]) + (StageEdges(s, stage.destinations[..k]) + [e]) == edges + [e];
        VisitedIsSound(stages, edges, targetSlots, sourceQualifiers, incoming);
        VisitDecides(stages, edges, e);
        if EdgesSound(stages, AllEdges(stages)) {
          SoundPrefix(stages, AllEdges(stages), edges + [e]);
        }
        if destination.destinationID == "" || destination.targetStageID !in indexes
           || indexes[destination.targetStageID] <= s || destination.sourceContest >= stage.contestCount
           || destination.qualifierIndex >= stage.advancementCount {
          return false, incoming;
        }
        var target := stages[indexes[destination.targetStageID]];
        if destination.targetContest >= target.contestCount || destination.targetSlot >= target.participantCount {
          return false, incoming;
        }
        var targetKey := PlaceKey(Place(destination.targetStageID, destination.targetContest, destination.targetSlot));
        if targetKey in targetSlots {
          return false, incoming;
        }
        var sourceKey := PlaceKey(Place(stage.stageID, destination.sourceContest, destination.qualifierIndex));
        if sourceKey in sourceQualifiers {
          return false, incoming;
        }
        VisitRecords(stages, edges, e, targetSlots, sourceQualifiers, incoming);
        targetSlots := targetSlots + {targetKey};
        sourceQualifiers := sourceQualifiers + {sourceKey};
        incoming := incoming[destination.targetStageID := CountIn(incoming, destination.targetStageID) + 1];
        edges := edges + [e];
      }
      assert stages[..s + 1][..s] == stages[..s];
      assert stage.destinations[..|stage.destinations|] == stage.destinations;
    }
    assert stages[..|stages|] == stages;
    VisitedIsSound(stages, edges, targetSlots, sourceQualifiers, incoming);
    return true, incoming;
  }

  lemma SoundTargetsInside(stages: seq<Stage>, edges: seq<Edge>, t: nat)
    requires StagesSound(stages) && EdgesSound(stages, edges) && t < |stages|
    ensures TargetsInside(edges, stages[t])
  {
    forall i | 0 <= i < |edges| && edges[i].destination.targetStageID == stages[t].stageID
      ensures edges[i].destination.targetContest < stages[t].contestCount
           && edges[i].destination.targetSlot < stages[t].participantCount
    {
      IndexOfFinds(stages, t);
      assert EdgeLeadsOn(stages, edges[i]);
    }
  }

  /** The incoming count of one stage is right exactly when all its slots are fed. */
  lemma CountDecidesFed(stages: seq<Stage>, t: nat)
    requires StagesSound(stages) && EdgesSound(stages, AllEdges(stages)) && t < |stages|
    ensures CountTo(AllEdges(stages), stages[t].stageID) == stages[t].contestCount * stages[t].participantCount
       <==> StageFed(AllEdges(stages), stages[t])
  {
    SoundTargetsInside(stages, AllEdges(stages), t);
    CountToCountsSlots(AllEdges(stages), stages[t]);
    CountExactlyWhenFed(AllEdges(stages), stages[t]);
  }

  method ValidateFormatStages(stages: seq<Stage>) returns (ok: bool)
    ensures ok == ValidFormat(stages)
  {
    hide StagesSound, EdgesSound, StageFed, AllEdges, IndexOf;
    if |stages| == 0 {
      return false;
    }
    var indexed, indexes := IndexStages(stages);
    if !indexed {
      return false;
    }
    forall id | id in indexes ensures indexes[id] < |stages| {
      IndexOfNames(stages, id);
    }
    var visited, incoming := VisitDestinations(stages, indexes);
    if !visited {
      return false;
    }
    for index := 1 to |stages|
      invariant forall t | 1 <= t < index :: StageFed(AllEdges(stages), stages[t])
    {
      var stage := stages[index];
      CountDecidesFed(stages, index);
      if CountIn(incoming, stage.stageID) != stage.contestCount * stage.participantCount {
        return false;
      }
    }
    return true;
  }

  // ----- what an accepted format guarantees -----

  /** Every slot after the first stage is the target of exactly one destination. */
  lemma SlotFedExactlyOnce(stages: seq<Stage>, t: nat, contest: nat, slot: nat) returns (i: nat)
    requires ValidFormat(stages) && 1 <= t < |stages|
    requires contest < stages[t].contestCount && slot < stages[t].participantCount
    ensures var edges, place := AllEdges(stages), Place(stages[t].stageID, contest, slot);
            && i < |edges| && Target(edges[i]) == place && edges[i].source < t
            && forall j | 0 <= j < |edges| && Target(edges[j]) == place :: j == i
  {
    hide AllEdges;
    var edges, place := AllEdges(stages), Place(stages[t].stageID, contest, slot);
    assert StageFed(edges, stages[t]);
    assert Fed(edges, place);
    i :| 0 <= i < |edges| && Target(edges[i]) == place;
    IndexOfFinds(stages, t);
    assert EdgeLeadsOn(stages, edges[i]);
  }

  /** Between slots and source qualifiers the destinations are one to one. */
  lemma SlotsAndQualifiersPairUp(stages: seq<Stage>, e: Edge, f: Edge)
    requires ValidFormat(stages) && e in AllEdges(stages) && f in AllEdges(stages)
    ensures e.source < |stages| && f.source < |stages|
    ensures Target(e) == Target(f) <==> Source(stages, e) == Source(stages, f)
  {
    hide AllEdges, StageFed, StagesSound, EdgeLeadsOn, Target, Source;
    var edges := AllEdges(stages);
    var i :| 0 <= i < |edges| && edges[i] == e;
    var j :| 0 <= j < |edges| && edges[j] == f;
    LeadsOnSource(stages, e);
    LeadsOnSource(stages, f);
  }

  /** A chain of edges, each leaving the contest the previous one entered, with rising stage indexes. */
  predicate IsChain(stages: seq<Stage>, chain: seq<Edge>)
  {
    && (forall i | 0 <= i < |chain| :: chain[i] in AllEdges(stages))
    && forall i | 0 < i < |chain| ::
         && IndexOf(stages, chain[i - 1].destination.targetStageID) == Some(chain[i].source)
         && chain[i - 1].destination.targetContest == chain[i].destination.sourceContest
         && chain[i - 1].source < chain[i].source
  }

  lemma ChainExtends(stages: seq<Stage>, chain: seq<Edge>, e: Edge)
    requires IsChain(stages, chain) && chain != [] && e in AllEdges(stages)
    requires var last := chain[|chain| - 1];
             && IndexOf(stages, last.destination.targetStageID) == Some(e.source)
             && last.destination.targetContest == e.destination.sourceContest && last.source < e.source
    ensures IsChain(stages, chain + [e])
  {
    hide AllEdges, IndexOf;
    var longer := chain + [e];
    assert forall i | 0 <= i < |chain| :: longer[i] == chain[i];
  }

  /** The edge into a slot leaves an earlier contest that itself has a slot. */
  lemma EdgeIntoSlot(stages: seq<Stage>, t: nat, contest: nat, slot: nat) returns (e: Edge)
    requires ValidFormat(stages) && 1 <= t < |stages|
    requires contest < stages[t].contestCount && slot < stages[t].participantCount
    ensures e in AllEdges(stages) && Target(e) == Place(stages[t].stageID, contest, slot) && e.source < t
    ensures e.destination.sourceContest < stages[e.source].contestCount && 0 < stages[e.source].participantCount
    ensures IndexOf(stages, stages[e.source].stageID) == Some(e.source)
  {
    hide AllEdges, StageFed;
    var i := SlotFedExactlyOnce(stages, t, contest, slot);
    e := AllEdges(stages)[i];
    assert EdgeLeadsOn(stages, e);
    assert StageShape(stages[e.source]);
    IndexOfFinds(stages, e.source);
  }

  /** Every slot after the first stage is reached by a chain that starts in the first stage. */
  lemma {:induction false} TraceToFirstStage(stages: seq<Stage>, t: nat, contest: nat, slot: nat)
    returns (chain: seq<Edge>)
    requires ValidFormat(stages) && 1 <= t < |stages|
    requires contest < stages[t].contestCount && slot < stages[t].participantCount
    ensures chain != [] && IsChain(stages, chain) && chain[0].source == 0
    ensures var last := chain[|chain| - 1];
            Target(last) == Place(stages[t].stageID, contest, slot) && last.source < t
    decreases t
  {
    hide AllEdges, IndexOf, ValidFormat;
    var e := EdgeIntoSlot(stages, t, contest, slot);
    if e.source == 0 {
      chain := [e];
    } else {
      chain := TraceToFirstStage(stages, e.source, e.destination.sourceContest, 0);
      ChainExtends(stages, chain, e);
      chain := chain + [e];
    }
  }
}
