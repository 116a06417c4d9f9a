/** The fixed knockout: 2^rounds participants, each contest sending one winner to the next round. */
module Knockout {
  import opened Primitives
  import opened Combinatorics
  import opened FormatStages

  function Pow2(k: nat): (p: nat)
    ensures p >= 1
  {
    if k == 0 then 1 else 2 * Pow2(k - 1)
  }

  function RoundID(round: nat): string { "round-" + Decimal(round) }

  function DestinationID(round: nat, contest: nat): string
  {
    "round-" + Decimal(round) + "-contest-" + Decimal(contest) + "-qualifier-0"
  }

  function WinnerDestination(round: nat, contest: nat): Destination
  {
    Destination(DestinationID(round, contest), contest, 0, RoundID(round + 1), contest / 2, contest % 2)
  }

  function Winners(round: nat, count: nat): seq<Destination>
  {
    seq(count, contest requires 0 <= contest < count => WinnerDestination(round, contest))
  }

  function KnockoutStage(rounds: nat, round: nat): Stage
    requires round < rounds
  {
    var contests := Pow2(rounds - round - 1);
    Stage(RoundID(round), contests, 2, 1, if round + 1 < rounds then Winners(round, contests) else [])
  }

  /** The construction for any number of rounds, in unbounded arithmetic. */
  function KnockoutStages(rounds: nat): seq<Stage>
  {
    seq(rounds, round requires 0 <= round < rounds => KnockoutStage(rounds, round))
  }

  // ----- the code, in its own widths -----

  /** `uint16(1) << k` */
  function ShiftOne(k: nat): uint16 { ToUint16(Pow2(k)) }

  function FixedKnockoutCapacity(rounds: uint8): Option<uint16>
  {
    if rounds == 0 || rounds > 8 then None else Some(ShiftOne(rounds))
  }

  lemma SmallPowers(k: nat)
    requires k <= 8
    ensures Pow2(k) <= 256
  {
    assert Pow2(8) == 256 && Pow2(7) == 128 && Pow2(6) == 64 && Pow2(5) == 32 && Pow2(4) == 16;
  }

  method WinnersOfRound(stageIndex: uint8, contestCount: uint16) returns (destinations: seq<Destination>)
    requires stageIndex < 8 && contestCount <= 256
    ensures destinations == Winners(stageIndex, contestCount)
  {
    destinations := [];
    var sourceContest: uint16 := 0;
    while sourceContest < contestCount
      invariant sourceContest <= contestCount && destinations == Winners(stageIndex, sourceContest)
    {
      var targetRound := ToUint8(stageIndex + 1);
      var destination := Destination(
        "round-" + Decimal(stageIndex) + "-contest-" + Decimal(sourceContest) + "-qualifier-0",
        sourceContest, 0, "round-" + Decimal(targetRound), sourceContest / 2, ToUint8(sourceContest % 2));
      assert destination == WinnerDestination(stageIndex, sourceContest);
      destinations := destinations + [destination];
      sourceContest := ToUint16(sourceContest + 1);
    }
  }

  method KnockoutRound(rounds: uint8, stageIndex: uint8) returns (stage: Stage)
    requires stageIndex < rounds <= 8
    ensures stage == KnockoutStage(rounds, stageIndex)
  {
    hide Pow2, Decimal;
    SmallPowers(rounds - stageIndex - 1);
    var contestCount := ShiftOne(ToUint8(rounds - stageIndex - 1));
    var destinations: seq<Destination> := [];
    if ToUint8(stageIndex + 1) < rounds {
      destinations := WinnersOfRound(stageIndex, contestCount);
    }
    stage := Stage("round-" + Decimal(stageIndex), contestCount, 2, 1, destinations);
  }

  // ----- the construction is a valid format -----

  lemma RoundIDInjective(a: nat, b: nat)
    ensures RoundID(a) == RoundID(b) <==> a == b
  {
    if RoundID(a) == RoundID(b) {
      assert RoundID(a)[6..] == Decimal(a) && RoundID(b)[6..] == Decimal(b);
      DecimalInjective(a, b);
    }
  }

  lemma RoundNamed(round: nat)
    ensures RoundID(round) != ""
  {
  }

  lemma KnockoutSound(rounds: nat)
    ensures StagesSound(KnockoutStages(rounds))
  {
    hide RoundID;
    var stages := KnockoutStages(rounds);
    forall i | 0 <= i < rounds ensures StageShape(stages[i]) {
      RoundNamed(i);
    }
    forall i, j | 0 <= i < j < rounds ensures stages[i].stageID != stages[j].stageID {
      RoundIDInjective(i, j);
    }
  }

  /** An edge of the knockout sends the winner of an existing contest of a round before the last. */
  lemma KnockoutEdge(rounds: nat, e: Edge)
    requires e in AllEdges(KnockoutStages(rounds))
    ensures e.source + 1 < rounds && e.destination.sourceContest < Pow2(rounds - e.source - 1)
    ensures e.destination == WinnerDestination(e.source, e.destination.sourceContest)
  {
    hide AllEdges;
    var stages := KnockoutStages(rounds);
    EdgeMembers(stages, e);
    assert stages[e.source] == KnockoutStage(rounds, e.source);
    var contest :| 0 <= contest < |stages[e.source].destinations|
                       && stages[e.source].destinations[contest] == e.destination;
    assert e.destination == WinnerDestination(e.source, contest);
  }

  lemma KnockoutEdgeExists(rounds: nat, round: nat, contest: nat)
    requires round + 1 < rounds && contest < Pow2(rounds - round - 1)
    ensures Edge(round, WinnerDestination(round, contest)) in AllEdges(KnockoutStages(rounds))
  {
    hide AllEdges, WinnerDestination;
    var stages := KnockoutStages(rounds);
    assert stages[round] == KnockoutStage(rounds, round);
    assert stages[round].destinations[contest] == WinnerDestination(round, contest);
    EdgeMembers(stages, Edge(round, WinnerDestination(round, contest)));
  }

  lemma HalfBelow(contest: nat, k: nat)
    requires contest < Pow2(k + 1)
    ensures contest / 2 < Pow2(k)
  {
  }

  lemma KnockoutEdgeLeadsOn(rounds: nat, e: Edge)
    requires e in AllEdges(KnockoutStages(rounds))
    ensures EdgeLeadsOn(KnockoutStages(rounds), e)
  {
    hide AllEdges, IndexOf, RoundID;
    KnockoutEdge(rounds, e);
    var stages := KnockoutStages(rounds);
    KnockoutSound(rounds);
    IndexOfFinds(stages, e.source + 1);
    assert stages[e.source + 1].stageID == RoundID(e.source + 1);
    HalfBelow(e.destination.sourceContest, rounds - e.source - 2);
    assert DestinationID(e.source, e.destination.sourceContest) != "";
  }

  lemma {:induction false} KnockoutEdgesDistinct(stages: seq<Stage>, rounds: nat)
    requires stages <= KnockoutStages(rounds)
    ensures Distinct(AllEdges(stages))
  {
    if stages == [] {
    } else {
      var n := |stages| - 1;
      var before, last := AllEdges(stages[..n]), StageEdges(n, stages[n].destinations);
      KnockoutEdgesDistinct(stages[..n], rounds);
      assert stages[n] == KnockoutStage(rounds, n);
      forall i, j | 0 <= i < j < |last| ensures last[i] != last[j] {
        assert last[i].destination == WinnerDestination(n, i) && last[j].destination == WinnerDestination(n, j);
      }
      forall i, j | 0 <= i < |before| && 0 <= j < |last| ensures before[i] != last[j] {
        EdgeMembers(stages[..n], before[i]);
      }
    }
  }

  /** Two edges with one target, or with one source, are the same edge. */
  lemma KnockoutEdgeDetermined(rounds: nat, e: Edge, f: Edge)
    requires e in AllEdges(KnockoutStages(rounds)) && f in AllEdges(KnockoutStages(rounds))
    requires e.source < rounds && f.source < rounds
    requires Target(e) == Target(f) || Source(KnockoutStages(rounds), e) == Source(KnockoutStages(rounds), f)
    ensures e == f
  {
    hide AllEdges, RoundID, DestinationID;
    KnockoutEdge(rounds, e);
    KnockoutEdge(rounds, f);
    RoundIDInjective(e.source + 1, f.source + 1);
    RoundIDInjective(e.source, f.source);
    var c, d := e.destination.sourceContest, f.destination.sourceContest;
    assert c == c / 2 * 2 + c % 2 && d == d / 2 * 2 + d % 2;
  }

  lemma KnockoutStageFed(rounds: nat, t: nat)
    requires 1 <= t < rounds
    ensures StageFed(AllEdges(KnockoutStages(rounds)), KnockoutStages(rounds)[t])
  {
    hide AllEdges, RoundID, DestinationID;
    var stages := KnockoutStages(rounds);
    var edges, stage := AllEdges(stages), stages[t];
    assert stage == KnockoutStage(rounds, t);
    forall contest: nat, slot: nat | contest < stage.contestCount && slot < stage.participantCount
      ensures Fed(edges, Place(stage.stageID, contest, slot))
    {
      var source := 2 * contest + slot;
      assert Pow2(rounds - t) == 2 * Pow2(rounds - t - 1);
      KnockoutEdgeExists(rounds, t - 1, source);
      var e := Edge(t - 1, WinnerDestination(t - 1, source));
      var i :| 0 <= i < |edges| && edges[i] == e;
      assert source / 2 == contest && source % 2 == slot;
      assert Target(edges[i]) == Place(stage.stageID, contest, slot);
    }
  }

  /** For every number of rounds the construction passes the format checker. */
  lemma KnockoutIsValid(rounds: nat)
    requires rounds >= 1
    ensures ValidFormat(KnockoutStages(rounds))
  {
    hide AllEdges, KnockoutStage, StageFed, EdgeLeadsOn;
    var stages := KnockoutStages(rounds);
    var edges := AllEdges(stages);
    KnockoutSound(rounds);
    KnockoutEdgesDistinct(stages, rounds);
    forall i | 0 <= i < |edges| ensures EdgeLeadsOn(stages, edges[i]) && edges[i].source < rounds {
      KnockoutEdgeLeadsOn(rounds, edges[i]);
      KnockoutEdge(rounds, edges[i]);
    }
    forall i, j | 0 <= i < j < |edges|
      ensures Target(edges[i]) != Target(edges[j]) && Source(stages, edges[i]) != Source(stages, edges[j])
    {
      if Target(edges[i]) == Target(edges[j]) || Source(stages, edges[i]) == Source(stages, edges[j]) {
        KnockoutEdgeDetermined(rounds, edges[i], edges[j]);
        assert false;
      }
    }
    forall t | 1 <= t < rounds ensures StageFed(edges, stages[t]) {
      KnockoutStageFed(rounds, t);
    }
  }

  /** The construction one stage at a time, from none to all of them. */
  lemma KnockoutSlices(rounds: nat, round: nat)
    requires round < rounds
    ensures |KnockoutStages(rounds)| == rounds
    ensures KnockoutStages(rounds)[..0] == [] && KnockoutStages(rounds)[..rounds] == KnockoutStages(rounds)
    ensures KnockoutStages(rounds)[..round + 1] == KnockoutStages(rounds)[..round] + [KnockoutStage(rounds, round)]
  {
    hide KnockoutStage;
  }

  /** Round `round` of a bracket, told by its fields and those of the next round: named by its number, two players a
      contest of whom one goes on, the winners of contests 2c and 2c+1 meeting in contest c of the next round. */
  predicate RoundFits(stages: seq<Stage>, round: nat)
    requires round < |stages|
  {
    var stage := stages[round];
    && stage.stageID == "round-" + Decimal(round) && stage.participantCount == 2 && stage.advancementCount == 1
    && if round + 1 < |stages| then
         var next := stages[round + 1];
         && stage.contestCount * stage.advancementCount == next.contestCount * next.participantCount
         && |stage.destinations| == stage.contestCount
         && forall c | 0 <= c < stage.contestCount ::
              stage.destinations[c] == Destination(
                destinationID := "round-" + Decimal(round) + "-contest-" + Decimal(c) + "-qualifier-0",
                sourceContest := c, qualifierIndex := 0, targetStageID := next.stageID, targetContest := c / 2,
                targetSlot := c % 2)
       else stage.contestCount == 1 && stage.destinations == []
  }

  /** Every round sends on exactly as many as the next one seats, and the last one sends on one champion. */
  predicate BracketFits(stages: seq<Stage>, rounds: nat)
  {
    |stages| == rounds && forall round | 0 <= round < rounds :: RoundFits(stages, round)
  }

  lemma KnockoutRoundFits(rounds: nat, round: nat)
    requires round < rounds
    ensures RoundFits(KnockoutStages(rounds), round)
  {
    hide Decimal;
    var stages := KnockoutStages(rounds);
    assert stages[round] == KnockoutStage(rounds, round);
    if round + 1 < rounds {
      assert stages[round + 1] == KnockoutStage(rounds, round + 1);
      assert Pow2(rounds - round - 1) == 2 * Pow2(rounds - (round + 1) - 1);
    }
  }

  lemma {:induction false} RoundDetermined(stages: seq<Stage>, rounds: nat, round: nat)
    requires BracketFits(stages, rounds) && round < rounds
    ensures stages[round] == KnockoutStage(rounds, round)
    decreases rounds - round
  {
    hide Decimal;
    assert RoundFits(stages, round);
    if round + 1 < rounds {
      RoundDetermined(stages, rounds, round + 1);
      assert Pow2(rounds - round - 1) == 2 * Pow2(rounds - (round + 1) - 1);
      var stage := stages[round];
      forall c | 0 <= c < stage.contestCount ensures stage.destinations[c] == Winners(round, stage.contestCount)[c] {
      }
      assert stage.destinations == Winners(round, stage.contestCount);
    }
  }

  /** The construction is the one list of rounds that fits. */
  lemma BracketExactly(stages: seq<Stage>, rounds: nat)
    ensures BracketFits(stages, rounds) <==> stages == KnockoutStages(rounds)
  {
    hide RoundFits, KnockoutStage;
    if BracketFits(stages, rounds) {
      forall round | 0 <= round < rounds ensures stages[round] == KnockoutStages(rounds)[round] {
        RoundDetermined(stages, rounds, round);
      }
    }
    forall round | 0 <= round < rounds ensures RoundFits(KnockoutStages(rounds), round) {
      KnockoutRoundFits(rounds, round);
    }
  }

  lemma FirstRoundSeats(rounds: nat)
    requires 1 <= rounds
    ensures var first := KnockoutStages(rounds)[0]; first.contestCount * first.participantCount == Pow2(rounds)
  {
    assert KnockoutStages(rounds)[0] == KnockoutStage(rounds, 0);
  }

  /** No step wraps: the eight- and sixteen-bit code builds the unbounded construction. */
  method FixedKnockoutStages(rounds: uint8) returns (stages: Option<seq<Stage>>)
    ensures stages == if 1 <= rounds <= 8 then Some(KnockoutStages(rounds)) else None
    ensures stages.Some? ==> ValidFormat(stages.value) && BracketFits(stages.value, rounds)
    ensures stages.Some? ==>
              FixedKnockoutCapacity(rounds) == Some(stages.value[0].contestCount * stages.value[0].participantCount)
  {
    hide ValidFormat, KnockoutStage, KnockoutStages, BracketFits;
    if FixedKnockoutCapacity(rounds) == None {
      return None;
    }
    var built: seq<Stage> := [];
    var stageIndex: uint8 := 0;
    KnockoutSlices(rounds, 0);
    while stageIndex < rounds
      invariant stageIndex <= rounds && built == KnockoutStages(rounds)[..stageIndex]
    {
      var stage := KnockoutRound(rounds, stageIndex);
      KnockoutSlices(rounds, stageIndex);
      built := built + [stage];
      stageIndex := ToUint8(stageIndex + 1);
    }
    SmallPowers(rounds);
    KnockoutIsValid(rounds);
    BracketExactly(built, rounds);
    FirstRoundSeats(rounds);
    return Some(built);
  }

  // ----- the shape of the bracket -----

  function TotalContests(stages: seq<Stage>): nat
  {
    if stages == [] then 0 else stages[0].contestCount + TotalContests(stages[1..])
  }

  lemma {:induction false} RemainingContests(rounds: nat, round: nat)
    requires round <= rounds
    ensures TotalContests(KnockoutStages(rounds)[round..]) == Pow2(rounds - round) - 1
    decreases rounds - round
  {
    hide RoundID, DestinationID, Winners;
    if round == rounds {
    } else {
      var rest := KnockoutStages(rounds)[round..];
      assert rest[0] == KnockoutStage(rounds, round) && rest[1..] == KnockoutStages(rounds)[round + 1..];
      RemainingContests(rounds, round + 1);
    }
  }

  /** A knockout of 2^rounds participants has 2^rounds - 1 contests. */
  lemma KnockoutContestTotal(rounds: nat)
    ensures TotalContests(KnockoutStages(rounds)) == Pow2(rounds) - 1
  {
    hide KnockoutStage, TotalContests;
    RemainingContests(rounds, 0);
    assert KnockoutStages(rounds)[0..] == KnockoutStages(rounds);
  }

  /** The first destination listed for the winner of a contest. */
  function DestinationOf(destinations: seq<Destination>, contest: nat): Option<Destination>
  {
    if destinations == [] then None
    else if destinations[0].sourceContest == contest then Some(destinations[0])
    else DestinationOf(destinations[1..], contest)
  }

  lemma {:induction false} WinnersListed(round: nat, count: nat, from: nat, contest: nat)
    requires from <= contest < count
    ensures DestinationOf(Winners(round, count)[from..], contest) == Some(WinnerDestination(round, contest))
    decreases contest - from
  {
    var rest := Winners(round, count)[from..];
    assert rest[0] == WinnerDestination(round, from);
    if from == contest {
    } else {
      assert rest[1..] == Winners(round, count)[from + 1..];
      WinnersListed(round, count, from + 1, contest);
    }
  }

  /** The contest reached from `contest` of stage 0 by following `k` listed destinations. */
  function Follow(stages: seq<Stage>, contest: nat, k: nat): Option<nat>
    requires k <= |stages|
  {
    if k == 0 then Some(contest)
    else match Follow(stages, contest, k - 1)
      case None => None
      case Some(c) =>
        match DestinationOf(stages[k - 1].destinations, c)
        case None => None
        case Some(d) => Some(d.targetContest)
  }

  function Halved(contest: nat, k: nat): nat { if k == 0 then contest else Halved(contest, k - 1) / 2 }

  lemma {:induction false} HalvedBelow(contest: nat, k: nat, n: nat)
    requires k <= n && contest < Pow2(n)
    ensures Halved(contest, k) < Pow2(n - k)
  {
    if k == 0 {
    } else {
      HalvedBelow(contest, k - 1, n);
      HalfBelow(Halved(contest, k - 1), n - k);
    }
  }

  lemma MultipleAtLeast(k: int, d: nat)
    requires k >= 1
    ensures k * d >= d
  {
    assert k * d == (k - 1) * d + d;
    assert (k - 1) * d >= 0;
  }

  lemma SameQuotient(d: nat, p: nat, q: nat, r: nat, s: nat)
    requires r < d && s < d && p * d + s == q * d + r
    ensures p == q
  {
    assert (p - q) * d == p * d - q * d;
    assert (q - p) * d == q * d - p * d;
    if p > q {
      MultipleAtLeast(p - q, d);
    } else if p < q {
      MultipleAtLeast(q - p, d);
    }
  }

  lemma QuotientUnique(n: nat, d: nat, q: nat, r: nat)
    requires r < d && n == q * d + r
    ensures n / d == q
  {
    var p, s := n / d, n % d;
    assert n == p * d + s;
    SameQuotient(d, p, q, r, s);
  }

  lemma QuotientHalved(n: nat, p: nat)
    requires p > 0
    ensures n / p / 2 == n / (2 * p)
  {
    var q, r := n / p, n % p;
    assert n == q * p + r;
    assert q == q / 2 * 2 + q % 2;
    assert q * p == q / 2 * (2 * p) + q % 2 * p;
    QuotientUnique(n, 2 * p, q / 2, q % 2 * p + r);
  }

  /** Halving k times is dividing by 2^k. */
  lemma {:induction false} HalvedDivides(contest: nat, k: nat)
    ensures Halved(contest, k) == contest / Pow2(k)
  {
    if k == 0 {
    } else {
      HalvedDivides(contest, k - 1);
      QuotientHalved(contest, Pow2(k - 1));
    }
  }

  lemma WinnerListed(rounds: nat, round: nat, contest: nat)
    requires round + 1 < rounds && contest < Pow2(rounds - round - 1)
    ensures DestinationOf(KnockoutStages(rounds)[round].destinations, contest)
         == Some(WinnerDestination(round, contest))
  {
    hide DestinationOf, WinnerDestination, RoundID;
    var destinations := KnockoutStages(rounds)[round].destinations;
    assert destinations == Winners(round, Pow2(rounds - round - 1));
    assert destinations[0..] == destinations;
    WinnersListed(round, Pow2(rounds - round - 1), 0, contest);
  }

  lemma KnockoutLength(rounds: nat)
    ensures |KnockoutStages(rounds)| == rounds
  {
  }

  lemma {:induction false} FollowHalved(rounds: nat, contest: nat, k: nat)
    requires k < rounds && contest < Pow2(rounds - 1)
    ensures Follow(KnockoutStages(rounds), contest, k) == Some(Halved(contest, k))
  {
    hide KnockoutStage, DestinationOf, RoundID, DestinationID, KnockoutStages, Pow2;
    assert |KnockoutStages(rounds)| == rounds by { KnockoutLength(rounds); }
    if k == 0 {
    } else {
      HalvedBelow(contest, k - 1, rounds - 1);
      FollowHalved(rounds, contest, k - 1);
      WinnerListed(rounds, k - 1, Halved(contest, k - 1));
    }
  }

  /** Following k destinations from first-round contest c reaches contest c / 2^k of round k. */
  lemma FollowHalves(rounds: nat, contest: nat, k: nat)
    requires k < rounds && contest < Pow2(rounds - 1)
    ensures Follow(KnockoutStages(rounds), contest, k) == Some(contest / Pow2(k))
    ensures contest / Pow2(k) < KnockoutStages(rounds)[k].contestCount
  {
    hide Follow, RoundID;
    FollowHalved(rounds, contest, k);
    HalvedDivides(contest, k);
    HalvedBelow(contest, k, rounds - 1);
  }

  lemma {:induction false} FirstMeeting(a: nat, b: nat, n: nat) returns (m: nat)
    requires a != b && Halved(a, n) == Halved(b, n)
    ensures 1 <= m <= n && Halved(a, m - 1) != Halved(b, m - 1) && Halved(a, m) == Halved(b, m)
  {
    if Halved(a, n - 1) == Halved(b, n - 1) {
      m := FirstMeeting(a, b, n - 1);
    } else {
      m := n;
    }
  }

  lemma {:induction false} MetStaysMet(a: nat, b: nat, m: nat, k: nat)
    requires m <= k && Halved(a, m) == Halved(b, m)
    ensures Halved(a, k) == Halved(b, k)
    decreases k
  {
    if m == k {
    } else {
      MetStaysMet(a, b, m, k - 1);
    }
  }

  lemma {:induction false} ApartStaysApart(a: nat, b: nat, m: nat, k: nat)
    requires k <= m && Halved(a, m) != Halved(b, m)
    ensures Halved(a, k) != Halved(b, k)
  {
    if Halved(a, k) == Halved(b, k) {
      MetStaysMet(a, b, k, m);
      assert false;
    }
  }

  /** The winners of contests a and b of one round enter the same contest of the next one, in opposite slots. */
  ghost predicate MeetFrom(stages: seq<Stage>, round: nat, a: Option<nat>, b: Option<nat>)
  {
    && round < |stages| && a.Some? && b.Some?
    && var d := DestinationOf(stages[round].destinations, a.value);
    && var e := DestinationOf(stages[round].destinations, b.value);
    && d.Some? && e.Some? && d.value.targetContest == e.value.targetContest
    && {d.value.targetSlot, e.value.targetSlot} == {0, 1}
  }

  lemma SiblingsMeet(rounds: nat, round: nat, x: nat, y: nat)
    requires round + 1 < rounds && x < Pow2(rounds - round - 1) && y < Pow2(rounds - round - 1)
    requires x != y && x / 2 == y / 2
    ensures MeetFrom(KnockoutStages(rounds), round, Some(x), Some(y))
  {
    hide DestinationOf, RoundID, DestinationID, KnockoutStage, KnockoutStages, Pow2;
    KnockoutLength(rounds);
    WinnerListed(rounds, round, x);
    WinnerListed(rounds, round, y);
    assert x == x / 2 * 2 + x % 2 && y == y / 2 * 2 + y % 2;
  }

  lemma FinalReached(contest: nat, n: nat)
    requires contest < Pow2(n)
    ensures Halved(contest, n) == 0
  {
    HalvedBelow(contest, n, n);
  }

  lemma MetExactlyFrom(rounds: nat, a: nat, b: nat, m: nat, k: nat)
    requires 1 <= m < rounds && k < rounds && a < Pow2(rounds - 1) && b < Pow2(rounds - 1)
    requires Halved(a, m - 1) != Halved(b, m - 1) && Halved(a, m) == Halved(b, m)
    ensures Follow(KnockoutStages(rounds), a, k) == Follow(KnockoutStages(rounds), b, k) <==> m <= k
  {
    hide Follow, Halved, KnockoutStage, Pow2;
    FollowHalved(rounds, a, k);
    FollowHalved(rounds, b, k);
    if m <= k {
      MetStaysMet(a, b, m, k);
    } else {
      ApartStaysApart(a, b, m - 1, k);
    }
  }

  /** The winners of two different first-round contests share contests from exactly one round on, and
      enter the first shared contest in opposite slots. */
  lemma WinnersMeetOnce(rounds: nat, a: nat, b: nat) returns (m: nat)
    requires rounds >= 1 && a != b && a < Pow2(rounds - 1) && b < Pow2(rounds - 1)
    ensures 1 <= m < rounds
    ensures forall k: nat | k < rounds ::
              Follow(KnockoutStages(rounds), a, k) == Follow(KnockoutStages(rounds), b, k) <==> m <= k
    ensures MeetFrom(KnockoutStages(rounds), m - 1,
                     Follow(KnockoutStages(rounds), a, m - 1), Follow(KnockoutStages(rounds), b, m - 1))
  {
    hide Follow, KnockoutStages, MeetFrom, Pow2;
    KnockoutLength(rounds);
    FinalReached(a, rounds - 1);
    FinalReached(b, rounds - 1);
    m := FirstMeeting(a, b, rounds - 1);
    forall k: nat | k < rounds
      ensures Follow(KnockoutStages(rounds), a, k) == Follow(KnockoutStages(rounds), b, k) <==> m <= k
    {
      MetExactlyFrom(rounds, a, b, m, k);
    }
    FollowHalved(rounds, a, m - 1);
    FollowHalved(rounds, b, m - 1);
    HalvedBelow(a, m - 1, rounds - 1);
    HalvedBelow(b, m - 1, rounds - 1);
    SiblingsMeet(rounds, m - 1, Halved(a, m - 1), Halved(b, m - 1));
  }
}
