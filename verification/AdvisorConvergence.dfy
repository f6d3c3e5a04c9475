/** What repeated advising does: every run of advise, adopt and re-measure settles. */
module AdvisorConvergence {
  import opened Options
  import opened Rounding
  import opened Physics
  import opened Advisor
  import opened Sums
  import opened Seqs

  /** The benchmark unit `build_structured_advice` aligns to. */
  function BestUnit(states: seq<UnitState>): UnitState
    requires |states| > 0
  {
    ByCode(states)[states[BestIndex(states)].code]
  }

  /** The advice unit `i` gets when the fleet is classified and advised. */
  function AdviceAt(states: seq<UnitState>, i: nat): Option<Advice>
    requires i < |states|
  {
    AlignedTo(BestUnit(states))(states[i], OfferedBenchmark(states, i))
  }

  /** The benchmark it is advised by. */
  function OfferedBenchmark(states: seq<UnitState>, i: nat): Benchmark
    requires i < |states|
  {
    assert Classified(states)[i].code == states[i].code;
    BenchByCode(Classified(states))[states[i].code]
  }

  /** Classifying and then advising never fails on a non-empty fleet, and lists exactly the
      advice of its units. */
  lemma AdviceListed(states: seq<UnitState>)
    requires |states| > 0
    ensures AdviceSpec(states, Classified(states)).Advised?
    ensures forall a :: a in AdviceSpec(states, Classified(states)).items
              <==> exists i :: 0 <= i < |states| && AdviceAt(states, i) == Some(a)
  {
    var offers := seq(|states|, i requires 0 <= i < |states| => AdviceAt(states, i));
    BenchmarksFound(states);
    PrefixListed(states, AlignedTo(BestUnit(states)), BenchByCode(Classified(states)), offers, |states|);
    assert offers[..|states|] == offers;
  }

  lemma BenchmarksFound(states: seq<UnitState>)
    ensures forall i :: 0 <= i < |states| ==> states[i].code in BenchByCode(Classified(states))
  {
    forall i | 0 <= i < |states|
      ensures states[i].code in BenchByCode(Classified(states))
    {
      assert Classified(states)[i].code == states[i].code;
    }
  }

  /** The advice actually given among a list of offers. */
  function Given(offers: seq<Option<Advice>>): (r: seq<Advice>)
    ensures forall a :: a in r <==> Some(a) in offers
  {
    if offers == [] then []
    else
      var last := |offers| - 1;
      assert offers == offers[..last] + [offers[last]];
      if offers[last] == None then Given(offers[..last]) else Given(offers[..last]) + [offers[last].value]
  }

  lemma {:induction false} PrefixListed(states: seq<UnitState>, adviser: Adviser, bench: map<string, Benchmark>,
                                        offers: seq<Option<Advice>>, k: nat)
    requires |offers| == |states| && k <= |states|
    requires forall i :: 0 <= i < |states| ==>
             states[i].code in bench && offers[i] == adviser(states[i], bench[states[i].code])
    ensures AdvisedPrefix(states, k, adviser, bench) == Advised(Given(offers[..k]))
  {
    if k > 0 {
      PrefixListed(states, adviser, bench, offers, k - 1);
      OneMoreUnit(states, k - 1, adviser, bench, Given(offers[..k - 1]), offers[k - 1]);
      OneMoreOffer(offers, k);
    }
  }

  lemma OneMoreOffer(offers: seq<Option<Advice>>, k: nat)
    requires 0 < k <= |offers|
    ensures Given(offers[..k])
            == if offers[k - 1].Some? then Given(offers[..k - 1]) + [offers[k - 1].value] else Given(offers[..k - 1])
  {
    assert offers[..k][..k - 1] == offers[..k - 1];
  }

  /** The last unit with the code of unit `i`. */
  function LastOf(states: seq<UnitState>, i: nat): (j: nat)
    requires i < |states|
    ensures i <= j < |states| && states[j].code == states[i].code
    ensures forall k :: j < k < |states| ==> states[k].code != states[i].code
  {
    var last := |states| - 1;
    if states[last].code == states[i].code then last else LastOf(states[..last], i)
  }

  lemma {:induction false} ByCodeIsLast(states: seq<UnitState>, i: nat)
    requires i < |states|
    ensures ByCode(states)[states[i].code] == states[LastOf(states, i)]
  {
    var last := |states| - 1;
    if states[last].code != states[i].code {
      ByCodeIsLast(states[..last], i);
    }
  }

  lemma {:induction false} OfferedIsLast(fleet: seq<UnitState>, i: nat)
    requires i < |fleet|
    ensures OfferedBenchmark(fleet, i) == BenchmarkOf(fleet, LastOf(fleet, i))
  {
    var c, last := Classified(fleet), LastOf(fleet, i);
    assert c[last].code == fleet[last].code && c[i].code == fleet[i].code;
    forall j | last < j < |c|
      ensures c[j].code != c[last].code
    {
      assert c[j].code == fleet[j].code;
    }
    BenchByCodeDistinct(c, last);
  }

  /** A unit is advised by the benchmark of the last unit with its code. */
  lemma {:induction false} OwnBenchmark(fleet: seq<UnitState>, i: nat)
    requires i < |fleet|
    ensures AdviceAt(fleet, i) == AdviceFor(fleet[i], BestUnit(fleet), BenchmarkOf(fleet, LastOf(fleet, i)))
    ensures Distinct(fleet) ==> LastOf(fleet, i) == i
  {
    OfferedIsLast(fleet, i);
  }

  /** Both functions choose the same benchmark exactly when the last unit with the best unit's
      code is that unit again (in all its readings). */
  lemma {:induction false} SameBenchmarkIff(states: seq<UnitState>)
    requires |states| > 0
    ensures var b := BestIndex(states);
            && BestUnit(states) == states[LastOf(states, b)]
            && (BestUnit(states) == states[b] <==> states[LastOf(states, b)] == states[b])
            && (Distinct(states) ==> LastOf(states, b) == b)
  {
    ByCodeIsLast(states, BestIndex(states));
    OwnBenchmark(states, BestIndex(states));
  }

  /** And then that unit is high and gets no advice itself. */
  lemma {:induction false} BestIsNeverAdvised(states: seq<UnitState>)
    requires |states| > 0 && states[LastOf(states, BestIndex(states))] == states[BestIndex(states)]
    ensures BestUnit(states) == states[BestIndex(states)]
    ensures AdviceAt(states, BestIndex(states)) == None
  {
    var b := BestIndex(states);
    SameBenchmarkIff(states);
    BestUnitIsHigh(states, b);
    OwnBenchmark(states, b);
    assert BenchmarkOf(states, LastOf(states, b)).tier == High;
  }

  /** High priority from a gap of 3 points on, and a promise of the gap, up to 8 points. */
  predicate FitsGap(a: Advice, gap: real) {
    (a.priority == PriorityHigh <==> gap >= 3.0) && a.efficiencyGain == Smaller(gap, 8.0)
  }

  /** The adviser's advice fits the gap of the benchmark it is given. */
  ghost predicate Fitting(adviser: Adviser) {
    forall u: UnitState, bench: Benchmark, a: Advice :: OnGrid(bench.gap) && adviser(u, bench) == Some(a)
      ==> FitsGap(a, bench.gap)
  }

  lemma AlignedIsFitting(best: UnitState)
    ensures Fitting(AlignedTo(best))
  {
    forall u: UnitState, bench: Benchmark, a: Advice | OnGrid(bench.gap) && AlignedTo(best)(u, bench) == Some(a)
      ensures FitsGap(a, bench.gap)
    {
      UrgencyOf(u, best, bench, a);
    }
  }

  /** The advice a unit of a fleet gets fits the rounded distance from the last unit with its code
      to the greatest efficiency. */
  lemma AdviceUrgency(fleet: seq<UnitState>, i: nat, j: nat, a: Advice) returns (gap: real)
    requires i < |fleet| && j < |fleet| && IsGreatest(fleet, j) && AdviceAt(fleet, i) == Some(a)
    ensures OnGrid(gap) && Near(gap, fleet[j].efficiency - fleet[LastOf(fleet, i)].efficiency) && FitsGap(a, gap)
  {
    AlignedIsFitting(BestUnit(fleet));
    gap := FittingUrgency(AlignedTo(BestUnit(fleet)), fleet, i, j, a);
  }

  lemma FittingUrgency(adviser: Adviser, fleet: seq<UnitState>, i: nat, j: nat, a: Advice) returns (gap: real)
    requires i < |fleet| && j < |fleet| && IsGreatest(fleet, j) && Fitting(adviser)
    requires adviser(fleet[i], OfferedBenchmark(fleet, i)) == Some(a)
    ensures OnGrid(gap) && Near(gap, fleet[j].efficiency - fleet[LastOf(fleet, i)].efficiency) && FitsGap(a, gap)
  {
    OfferedGap(fleet, i, j);
    gap := OfferedBenchmark(fleet, i).gap;
  }

  lemma {:induction false} OfferedGap(fleet: seq<UnitState>, i: nat, j: nat)
    requires i < |fleet| && j < |fleet| && IsGreatest(fleet, j)
    ensures OnGrid(OfferedBenchmark(fleet, i).gap)
    ensures Near(OfferedBenchmark(fleet, i).gap, fleet[j].efficiency - fleet[LastOf(fleet, i)].efficiency)
  {
    OfferedIsLast(fleet, i);
    GapTells(fleet, LastOf(fleet, i), j);
  }

  lemma UrgencyOf(u: UnitState, best: UnitState, bench: Benchmark, a: Advice)
    requires AdviceFor(u, best, bench) == Some(a) && OnGrid(bench.gap)
    ensures FitsGap(a, bench.gap)
  {
    IntOnGrid(8);
    Round2OnGrid(Smaller(bench.gap, 8.0));
  }

  lemma AdviceForProposes(u: UnitState, best: UnitState, bench: Benchmark)
    requires AdviceFor(u, best, bench).Some?
    ensures AdviceFor(u, best, bench).value.proposed == Proposal(u, best)
  {
  }

  /** Whatever advice a unit gets, it proposes to follow the benchmark unit. */
  lemma AdviceProposes(states: seq<UnitState>, i: nat)
    requires i < |states| && AdviceAt(states, i).Some?
    ensures AdviceAt(states, i).value.proposed == Proposal(states[i], BestUnit(states))
  {
    assert Classified(states)[i].code == states[i].code;
    AdviceForProposes(states[i], BestUnit(states), OfferedBenchmark(states, i));
  }

  /** Two units may share a code; then the benchmark can be the worst unit of the fleet, and the
      best one is advised to follow it. */
  lemma DuplicateCodesMislead() returns (states: seq<UnitState>)
    ensures |states| == 2 && states[1].efficiency < states[0].efficiency
    ensures BestIndex(states) == 0 && BestUnit(states) == states[1]
    ensures AdviceAt(states, 0).Some?
  {
    var good := UnitState("pta", 15.0, 100.0, 30.0, 100.0, 400.0, 80.0, 620.0, None);
    var bad := UnitState("pta", 15.0, 90.0, 45.0, 90.0, 415.0, 70.0, 710.0, None);
    states := [good, bad];
    SameBenchmarkIff(states);
    OwnBenchmark(states, 0);
    LowerOfTwo(states);
    FuelIsTrimmed(good, bad, BenchmarkOf(states, 1));
  }

  lemma FuelIsTrimmed(u: UnitState, best: UnitState, bench: Benchmark)
    requires bench.tier == Low && u.fuel == 100.0 && best.fuel == 90.0
    ensures AdviceFor(u, best, bench).Some?
  {
    assert OnGrid(90.0);
    Round2OnGrid(90.0);
    assert Moves(Current(u), Proposal(u, best), FuelGas);
    assert FuelGas in Deltas(Current(u), Proposal(u, best));
  }

  lemma LowerOfTwo(states: seq<UnitState>)
    requires |states| == 2 && states[1].efficiency < states[0].efficiency
    ensures TierOf(states, 1) == Low
  {
    var effs := Efficiencies(states);
    assert effs[1..][1..] == [];
    assert Sorted(effs[1..]) == [effs[1]];
    assert Sorted(effs) == Insert(effs[0], [effs[1]]);
  }

  // ----- direction of each move ---------------------------------------------------------------

  predicate GridPoint(u: UnitState) {
    OnGrid(u.temp) && OnGrid(u.feed) && OnGrid(u.fuel) && OnGrid(u.steam) && OnGrid(u.power)
  }

  /** On the side of the envelope from which clipping cannot push a setpoint the wrong way. */
  predicate OnGoodSide(u: UnitState) {
    380.0 <= u.temp && u.feed <= 120.0 && 50.0 <= u.fuel && 10.0 <= u.steam
  }

  predicate InEnvelope(u: UnitState) {
    380.0 <= u.temp <= 420.0 && 80.0 <= u.feed <= 120.0 && 50.0 <= u.fuel <= 150.0 && 10.0 <= u.steam <= 50.0
  }

  lemma BoundsOnGrid()
    ensures OnGrid(380.0) && OnGrid(420.0) && OnGrid(80.0) && OnGrid(120.0)
    ensures OnGrid(50.0) && OnGrid(150.0) && OnGrid(10.0)
  {
  }

  /** Every proposal lies in the envelope, whatever the readings. */
  lemma ProposalInEnvelope(u: UnitState, best: UnitState)
    ensures var p := Proposal(u, best);
            && 380.0 <= p.temp <= 420.0 && 80.0 <= p.feed <= 120.0
            && 50.0 <= p.fuel <= 150.0 && 10.0 <= p.steam <= 50.0
  {
    BoundsOnGrid();
    Round2Between(380.0, Clip(u.temp + TempDelta(u, best), 380.0, 420.0), 420.0);
    Round2Between(80.0, Clip(u.feed + FeedDelta(u, best), 80.0, 120.0), 120.0);
    Round2Between(50.0, Clip(u.fuel + FuelDelta(u, best), 50.0, 150.0), 150.0);
    Round2Between(10.0, Clip(u.steam + SteamDelta(u, best), 10.0, 50.0), 50.0);
  }

  /** On the 0.01 grid a proposal never asks for more heat, fuel or steam, nor for less feed,
      exactly when the reading is on the good side of the one bound that matters. */
  lemma ProposalDirection(u: UnitState, best: UnitState)
    requires GridPoint(u)
    ensures Proposal(u, best).temp <= u.temp <==> u.temp >= 380.0
    ensures Proposal(u, best).feed >= u.feed <==> u.feed <= 120.0
    ensures Proposal(u, best).fuel <= u.fuel <==> u.fuel >= 50.0
    ensures Proposal(u, best).steam <= u.steam <==> u.steam >= 10.0
    ensures Proposal(u, best).power == u.power
  {
    ProposalInEnvelope(u, best);
    Round2OnGrid(u.temp);
    Round2OnGrid(u.feed);
    Round2OnGrid(u.fuel);
    Round2OnGrid(u.steam);
    Round2OnGrid(u.power);
    if u.temp >= 380.0 { Round2Monotone(Clip(u.temp + TempDelta(u, best), 380.0, 420.0), u.temp); }
    if u.feed <= 120.0 { Round2Monotone(u.feed, Clip(u.feed + FeedDelta(u, best), 80.0, 120.0)); }
    if u.fuel >= 50.0 { Round2Monotone(Clip(u.fuel + FuelDelta(u, best), 50.0, 150.0), u.fuel); }
    if u.steam >= 10.0 { Round2Monotone(Clip(u.steam + SteamDelta(u, best), 10.0, 50.0), u.steam); }
  }

  /** Off the grid each setpoint can go the wrong way by half a hundredth, not more. */
  lemma ProposalDirectionOffGrid(u: UnitState, best: UnitState)
    requires OnGoodSide(u)
    ensures Proposal(u, best).temp <= u.temp + 0.005
    ensures Proposal(u, best).feed >= u.feed - 0.005
    ensures Proposal(u, best).fuel <= u.fuel + 0.005
    ensures Proposal(u, best).steam <= u.steam + 0.005
  {
  }

  /** The deltas explain the proposal: on the grid, adding them to the current setpoints gives it
      exactly, and what is not listed moves by at most 0.05. */
  lemma DeltasExplainProposal(u: UnitState, best: UnitState, f: Field)
    requires GridPoint(u)
    ensures var c, p := Current(u), Proposal(u, best);
            var deltas := Deltas(c, p);
            if f in deltas then c.At(f) + deltas[f] == p.At(f) && Abs(deltas[f]) >= 0.06
            else Abs(p.At(f) - c.At(f)) <= 0.05
  {
    var c, p := Current(u), Proposal(u, best);
    SetpointsOnGrid(u, best, f);
    GridDelta(c.At(f), p.At(f));
    DeltaAt(c, p, f);
  }

  lemma DeltaAt(c: Setpoints, p: Setpoints, f: Field)
    ensures f in Deltas(c, p) <==> Abs(p.At(f) - c.At(f)) > 0.05
    ensures f in Deltas(c, p) ==> Deltas(c, p)[f] == Round2(p.At(f) - c.At(f))
  {
  }

  lemma SetpointsOnGrid(u: UnitState, best: UnitState, f: Field)
    requires GridPoint(u)
    ensures OnGrid(Current(u).At(f)) && OnGrid(Proposal(u, best).At(f))
  {
    match f { case ReactorTemp => case FeedFlow => case FuelGas => case SteamFlow => case Power => }
  }

  lemma GridDelta(x: real, y: real)
    requires OnGrid(x) && OnGrid(y)
    ensures x + Round2(y - x) == y
    ensures Abs(y - x) > 0.05 ==> Abs(Round2(y - x)) >= 0.06
  {
    GridSum(y, x);
    Round2OnGrid(y - x);
    if Abs(y - x) > 0.05 { GridMove(x, y); }
  }

  // ----- the physics of a set of setpoints ---------------------------------------------------

  function IntensityOf(s: Setpoints): real { EnergyIntensity(s.fuel, s.steam, s.feed, s.temp) }
  function CarbonOf(s: Setpoints): real { CarbonIntensity(s.fuel, s.steam, s.power) }
  function EfficiencyOf(s: Setpoints): real { EnergyEfficiency(IntensityOf(s)) }

  // ----- when a low unit is left alone --------------------------------------------------------

  /** Nothing left to do for `u`: it is level with the benchmark up to the dead bands, and at
      high intensity it already sits at the cool end and the full-feed end of the envelope. */
  predicate Settled(u: UnitState, best: UnitState) {
    && u.temp <= best.temp + 1.0 && (u.intensity <= 650.0 || u.temp <= 380.05)
    && u.feed >= best.feed - 1.0 && (u.intensity <= 650.0 || u.feed >= 119.95)
    && u.fuel <= best.fuel + 1.0
    && u.steam <= best.steam + 0.5
  }

  lemma TempSettled(u: UnitState, best: UnitState)
    requires InEnvelope(u) && InEnvelope(best)
    ensures Moves(Current(u), Proposal(u, best), ReactorTemp) <==>
            !(u.temp <= best.temp + 1.0 && (u.intensity <= 650.0 || u.temp <= 380.05))
  {
    BoundsOnGrid();
    Round2OnGrid(380.0);
    if u.temp + TempDelta(u, best) <= 380.0 {
      assert Clip(u.temp + TempDelta(u, best), 380.0, 420.0) == 380.0;
    }
  }

  lemma FeedSettled(u: UnitState, best: UnitState)
    requires InEnvelope(u) && InEnvelope(best)
    ensures Moves(Current(u), Proposal(u, best), FeedFlow) <==>
            !(u.feed >= best.feed - 1.0 && (u.intensity <= 650.0 || u.feed >= 119.95))
  {
    BoundsOnGrid();
    Round2OnGrid(120.0);
    if u.feed + FeedDelta(u, best) >= 120.0 {
      assert Clip(u.feed + FeedDelta(u, best), 80.0, 120.0) == 120.0;
    }
  }

  /** A low unit gets no advice exactly when it is settled. */
  lemma NoAdviceIffSettled(u: UnitState, best: UnitState, bench: Benchmark)
    requires InEnvelope(u) && InEnvelope(best) && bench.tier == Low
    ensures AdviceFor(u, best, bench) == None <==> Settled(u, best)
  {
    TempSettled(u, best);
    FeedSettled(u, best);
    var c, p := Current(u), Proposal(u, best);
    assert Moves(c, p, FuelGas) <==> u.fuel > best.fuel + 1.0;
    assert Moves(c, p, SteamFlow) <==> u.steam > best.steam + 0.5;
    assert !Moves(c, p, Power);
    assert forall f :: f in Deltas(c, p) <==> Moves(c, p, f);
    if Settled(u, best) {
      forall f: Field
        ensures !Moves(c, p, f)
      {
        match f { case ReactorTemp => case FeedFlow => case FuelGas => case SteamFlow => case Power => }
      }
      assert Deltas(c, p) == map[];
    }
  }

  /** Inside the envelope the physics reads at least 747, so the 650 branch is always taken:
      a settled unit sits at the cool and full-feed corner. */
  lemma PhysicsAlwaysAbove650(u: UnitState, best: UnitState)
    requires InEnvelope(u)
    ensures IntensityOf(Current(u)) >= 747.0
    ensures u.intensity == Round2(IntensityOf(Current(u))) && Settled(u, best) ==> u.temp <= 380.05 && u.feed >= 119.95
  {
    assert OnGrid(747.0);
    Round2OnGrid(747.0);
    Round2Monotone(747.0, IntensityOf(Current(u)));
  }

  // ----- every run settles --------------------------------------------------------------------

  /** Fuel, steam and heat still to trim plus feed still to add; an off-side unit counts as
      more than any unit inside the envelope. */
  function Slack(u: UnitState): (r: real)
    ensures r >= 0.0
  {
    if OnGoodSide(u) then u.temp + u.fuel + u.steam - u.feed - 320.0 else 221.0
  }

  /** Adopting one advice uses up slack, on the grid at least 0.06 of it. */
  lemma AdoptionUsesSlack(u: UnitState, best: UnitState, bench: Benchmark, u': UnitState)
    requires AdviceFor(u, best, bench).Some?
    requires Current(u') == AdviceFor(u, best, bench).value.proposed
    ensures InEnvelope(u') && GridPoint(u') && Slack(u') <= 220.0
    ensures Slack(u') + 0.035 <= Slack(u)
    ensures GridPoint(u) && OnGoodSide(u) ==> Slack(u') + 0.06 <= Slack(u)
  {
    ProposalInEnvelope(u, best);
    var c, p := Current(u), Proposal(u, best);
    assert p == Current(u') && GridPoint(u');
    if OnGoodSide(u) {
      var f: Field :| f in Deltas(c, p);
      assert Moves(c, p, f);
      ProposalDirectionOffGrid(u, best);
      assert Abs(p.power - c.power) <= 0.005;
      MoveUsesSlack(c, p, f);
      if GridPoint(u) {
        ProposalDirection(u, best);
        GridMove(c.At(f), p.At(f));
        GridMoveUsesSlack(c, p, f);
      }
    }
  }

  lemma MoveUsesSlack(c: Setpoints, p: Setpoints, f: Field)
    requires p.temp <= c.temp + 0.005 && p.feed >= c.feed - 0.005
    requires p.fuel <= c.fuel + 0.005 && p.steam <= c.steam + 0.005
    requires Moves(c, p, f) && f != Power
    ensures p.temp + p.fuel + p.steam - p.feed + 0.035 <= c.temp + c.fuel + c.steam - c.feed
  {
    match f { case ReactorTemp => case FeedFlow => case FuelGas => case SteamFlow => }
  }

  lemma GridMoveUsesSlack(c: Setpoints, p: Setpoints, f: Field)
    requires p.temp <= c.temp && p.feed >= c.feed && p.fuel <= c.fuel && p.steam <= c.steam
    requires Abs(p.At(f) - c.At(f)) >= 0.06 && f != Power
    ensures p.temp + p.fuel + p.steam - p.feed + 0.06 <= c.temp + c.fuel + c.steam - c.feed
  {
    match f { case ReactorTemp => case FeedFlow => case FuelGas => case SteamFlow => }
  }

  /** Two grid values more than 0.05 apart are at least 0.06 apart. */
  lemma GridMove(x: real, y: real)
    requires OnGrid(x) && OnGrid(y) && Abs(y - x) > 0.05
    ensures Abs(y - x) >= 0.06
  {
    var a, b := (x * 100.0).Floor, (y * 100.0).Floor;
    assert b - a > 5 || a - b > 5;
  }

  // ----- every adoption is a whole step -------------------------------------------------------

  function Ceil(x: real): int { -(-x).Floor }

  lemma CeilAtMost(x: real, c: int)
    ensures Ceil(x) <= c <==> x <= c as real
  {
  }

  /** How many least steps the setpoints are away from the cool, fully fed, least fuelled and least
      steamed corner of the envelope; outside it one more than there can be inside. */
  function Rank(u: UnitState): (r: int)
    ensures 0 <= r <= 125
    ensures InEnvelope(u) ==> r <= 124
  {
    if InEnvelope(u) then
      RankBounds(u);
      TempSteps(u.temp) + FeedSteps(u.feed) + FuelSteps(u.fuel) + SteamSteps(u.steam)
    else 125
  }

  function TempSteps(temp: real): int { Ceil((temp - 380.0) / 3.0) }
  function FeedSteps(feed: real): int { Ceil((120.0 - feed) / 2.0) }
  function FuelSteps(fuel: real): int { Ceil((fuel - 50.0) / 2.0) }
  function SteamSteps(steam: real): int { Ceil(steam - 10.0) }

  lemma RankBounds(u: UnitState)
    requires InEnvelope(u)
    ensures 0 <= TempSteps(u.temp) <= 14 && 0 <= FeedSteps(u.feed) <= 20
    ensures 0 <= FuelSteps(u.fuel) <= 50 && 0 <= SteamSteps(u.steam) <= 40
  {
  }

  lemma TempStepTaken(u: UnitState, best: UnitState)
    requires InEnvelope(u)
    ensures var p := Proposal(u, best);
            TempSteps(p.temp) <= TempSteps(u.temp) - (if Moves(Current(u), p, ReactorTemp) then 1 else 0)
  {
    var c := TempSteps(u.temp);
    var x := Clip(u.temp + TempDelta(u, best), 380.0, 420.0);
    CeilAtMost((u.temp - 380.0) / 3.0, c);
    RoundedAtMost(x, 380);
    RoundedAtMost(x, 380 + 3 * c);
    RoundedAtMost(x, 380 + 3 * (c - 1));
    CeilAtMost((Round2(x) - 380.0) / 3.0, c);
    CeilAtMost((Round2(x) - 380.0) / 3.0, c - 1);
  }

  lemma FeedStepTaken(u: UnitState, best: UnitState)
    requires InEnvelope(u)
    ensures var p := Proposal(u, best);
            FeedSteps(p.feed) <= FeedSteps(u.feed) - (if Moves(Current(u), p, FeedFlow) then 1 else 0)
  {
    var c := FeedSteps(u.feed);
    var x := Clip(u.feed + FeedDelta(u, best), 80.0, 120.0);
    CeilAtMost((120.0 - u.feed) / 2.0, c);
    RoundedAtMost(x, 120);
    RoundedAtMost(x, 120 - 2 * c);
    RoundedAtMost(x, 120 - 2 * (c - 1));
    CeilAtMost((120.0 - Round2(x)) / 2.0, c);
    CeilAtMost((120.0 - Round2(x)) / 2.0, c - 1);
  }

  lemma FuelStepTaken(u: UnitState, best: UnitState)
    requires InEnvelope(u)
    ensures var p := Proposal(u, best);
            FuelSteps(p.fuel) <= FuelSteps(u.fuel) - (if Moves(Current(u), p, FuelGas) then 1 else 0)
  {
    var c := FuelSteps(u.fuel);
    var x := Clip(u.fuel + FuelDelta(u, best), 50.0, 150.0);
    CeilAtMost((u.fuel - 50.0) / 2.0, c);
    RoundedAtMost(x, 50);
    RoundedAtMost(x, 50 + 2 * c);
    RoundedAtMost(x, 50 + 2 * (c - 1));
    CeilAtMost((Round2(x) - 50.0) / 2.0, c);
    CeilAtMost((Round2(x) - 50.0) / 2.0, c - 1);
  }

  lemma SteamStepTaken(u: UnitState, best: UnitState)
    requires InEnvelope(u)
    ensures var p := Proposal(u, best);
            SteamSteps(p.steam) <= SteamSteps(u.steam) - (if Moves(Current(u), p, SteamFlow) then 1 else 0)
  {
    var c := SteamSteps(u.steam);
    var x := Clip(u.steam + SteamDelta(u, best), 10.0, 50.0);
    CeilAtMost(u.steam - 10.0, c);
    RoundedAtMost(x, 10);
    RoundedAtMost(x, 10 + c);
    RoundedAtMost(x, 10 + (c - 1));
    CeilAtMost(Round2(x) - 10.0, c);
    CeilAtMost(Round2(x) - 10.0, c - 1);
  }

  /** Adopting one advice takes the unit at least one whole step on, from wherever it starts. */
  lemma AdoptionLowersRank(u: UnitState, best: UnitState, bench: Benchmark, u': UnitState)
    requires AdviceFor(u, best, bench).Some?
    requires Current(u') == AdviceFor(u, best, bench).value.proposed
    ensures InEnvelope(u') && Rank(u') < Rank(u)
  {
    AdviceForProposes(u, best, bench);
    ProposalInEnvelope(u, best);
    if InEnvelope(u) { StepsTaken(u, best, bench); }
  }

  lemma StepsTaken(u: UnitState, best: UnitState, bench: Benchmark)
    requires InEnvelope(u) && AdviceFor(u, best, bench).Some?
    ensures var p := Proposal(u, best);
            TempSteps(p.temp) + FeedSteps(p.feed) + FuelSteps(p.fuel) + SteamSteps(p.steam)
            < TempSteps(u.temp) + FeedSteps(u.feed) + FuelSteps(u.fuel) + SteamSteps(u.steam)
  {
    TempStepTaken(u, best);
    FeedStepTaken(u, best);
    FuelStepTaken(u, best);
    SteamStepTaken(u, best);
    var c, p := Current(u), Proposal(u, best);
    var f: Field :| f in Deltas(c, p);
    assert Moves(c, p, f) && !Moves(c, p, Power);
    match f { case ReactorTemp => case FeedFlow => case FuelGas => case SteamFlow => case Power => }
  }

  // ----- runs ---------------------------------------------------------------------------------

  /** `step` added up `n` times. */
  function Cost(step: real, n: nat): real {
    if n == 0 then 0.0 else Cost(step, n - 1) + step
  }

  lemma {:induction false} CostIsProduct(step: real, n: nat)
    ensures Cost(step, n) == step * n as real
  {
    if n > 0 { CostIsProduct(step, n - 1); }
  }

  lemma CostAdds(step: real, m: nat, n: nat)
    ensures Cost(step, m + n) == Cost(step, m) + Cost(step, n)
  {
    if n > 0 { CostAdds(step, m, n - 1); }
  }

  /** Something measured of a unit, and added up over a fleet. */
  type Measure = UnitState -> real

  function Total(measure: Measure, fleet: seq<UnitState>): real {
    SumReals(Each(measure, fleet))
  }

  /** One round: the units in `adopted` take the setpoints they were advised, the others keep
      theirs, and every unit is measured again with any outcome. */
  ghost predicate Round(before: seq<UnitState>, adopted: set<int>, after: seq<UnitState>) {
    && |before| == |after| > 0
    && (forall i :: i in adopted ==> 0 <= i < |before|)
    && forall i :: 0 <= i < |before| ==> UnitRound(before, adopted, after, i)
  }

  ghost predicate UnitRound(before: seq<UnitState>, adopted: set<int>, after: seq<UnitState>, i: nat)
    requires i < |before| == |after|
  {
    && after[i].code == before[i].code
    && (i in adopted ==> AdviceAt(before, i).Some?)
    && Current(after[i]) == if i in adopted then AdviceAt(before, i).value.proposed else Current(before[i])
  }

  ghost predicate Run(fleets: seq<seq<UnitState>>, adopted: seq<set<int>>) {
    && |fleets| == |adopted| + 1
    && forall k :: 0 <= k < |adopted| ==> Round(fleets[k], adopted[k], fleets[k + 1])
  }

  function TotalAdopted(adopted: seq<set<int>>): nat {
    if adopted == [] then 0 else TotalAdopted(adopted[..|adopted| - 1]) + |adopted[|adopted| - 1]|
  }

  /** With `fine`, every unit is on the grid and on the good side of the envelope. */
  predicate Fine(fleet: seq<UnitState>, fine: bool) {
    fine ==> forall i :: 0 <= i < |fleet| ==> GridPoint(fleet[i]) && OnGoodSide(fleet[i])
  }

  /** What one adoption is sure to use up. */
  function Step(fine: bool): real { if fine then 0.06 else 0.035 }

  lemma UnitUsesSlack(before: seq<UnitState>, adopted: set<int>, after: seq<UnitState>, i: nat, fine: bool)
    requires i < |before| == |after| && UnitRound(before, adopted, after, i) && Fine(before, fine)
    ensures Slack(after[i]) + (if i in adopted then Step(fine) else 0.0) <= Slack(before[i])
    ensures fine ==> GridPoint(after[i]) && OnGoodSide(after[i])
  {
    if i in adopted {
      AdoptionUsesSlack(before[i], BestUnit(before), OfferedBenchmark(before, i), after[i]);
    } else {
      assert Current(after[i]) == Current(before[i]);
    }
  }

  lemma {:induction false} SumUsesCost(before: seq<real>, after: seq<real>, some: set<int>, step: real)
    requires |before| == |after|
    requires forall i :: i in some ==> 0 <= i < |before|
    requires forall i :: 0 <= i < |before| ==> after[i] + (if i in some then step else 0.0) <= before[i]
    ensures SumReals(after) + Cost(step, |some|) <= SumReals(before)
    decreases |before|
  {
    if before == [] {
      assert forall i :: i !in some;
      assert some == {};
    } else {
      var last := |before| - 1;
      SumUsesCost(before[..last], after[..last], some - {last}, step);
      if last in some {
        assert |some - {last}| == |some| - 1;
      } else {
        assert some - {last} == some;
      }
    }
  }

  /** The adopting units pay `step` each out of the measure, and nobody gains any. */
  ghost predicate Uses(measure: Measure, step: real, before: seq<UnitState>, adopted: set<int>, after: seq<UnitState>) {
    && |before| == |after|
    && (forall i :: i in adopted ==> 0 <= i < |before|)
    && forall i :: 0 <= i < |before| ==> measure(after[i]) + (if i in adopted then step else 0.0) <= measure(before[i])
  }

  lemma {:induction false} RoundUses(measure: Measure, step: real, before: seq<UnitState>, adopted: set<int>,
                                     after: seq<UnitState>)
    requires Uses(measure, step, before, adopted, after)
    ensures Total(measure, after) + Cost(step, |adopted|) <= Total(measure, before)
  {
    SumUsesCost(Each(measure, before), Each(measure, after), adopted, step);
  }

  /** Every entry pays its cost out of the one before it. */
  lemma {:induction false} Telescope(totals: seq<real>, adopted: seq<set<int>>, step: real, m: nat)
    requires |totals| == |adopted| + 1 && m <= |adopted|
    requires forall k :: 0 <= k < |adopted| ==> totals[k + 1] + Cost(step, |adopted[k]|) <= totals[k]
    ensures totals[m] + Cost(step, TotalAdopted(adopted[..m])) <= totals[0]
  {
    if m > 0 {
      Telescope(totals, adopted, step, m - 1);
      assert totals[m - 1 + 1] + Cost(step, |adopted[m - 1]|) <= totals[m - 1];
      assert adopted[..m][..m - 1] == adopted[..m - 1];
      CostAdds(step, TotalAdopted(adopted[..m - 1]), |adopted[m - 1]|);
    }
  }

  /** A run pays for all its adoptions out of what there is of the measure at the start. */
  lemma {:induction false} RunUses(measure: Measure, step: real, fleets: seq<seq<UnitState>>, adopted: seq<set<int>>)
    requires |fleets| == |adopted| + 1 && forall u :: measure(u) >= 0.0
    requires forall k :: 0 <= k < |adopted| ==> Uses(measure, step, fleets[k], adopted[k], fleets[k + 1])
    ensures Cost(step, TotalAdopted(adopted)) <= Total(measure, fleets[0])
  {
    var totals := seq(|fleets|, k requires 0 <= k < |fleets| => Total(measure, fleets[k]));
    forall k | 0 <= k < |adopted|
      ensures totals[k + 1] + Cost(step, |adopted[k]|) <= totals[k]
    {
      RoundUses(measure, step, fleets[k], adopted[k], fleets[k + 1]);
    }
    Telescope(totals, adopted, step, |adopted|);
    assert adopted[..|adopted|] == adopted;
    SumNonNegative(Each(measure, fleets[|adopted|]));
  }

  lemma {:induction false} RunStaysFine(fleets: seq<seq<UnitState>>, adopted: seq<set<int>>, fine: bool, m: nat)
    requires Run(fleets, adopted) && Fine(fleets[0], fine) && m <= |adopted|
    ensures Fine(fleets[m], fine)
  {
    if m > 0 {
      RunStaysFine(fleets, adopted, fine, m - 1);
      assert Round(fleets[m - 1], adopted[m - 1], fleets[m - 1 + 1]);
      RoundUsesSlack(fleets[m - 1], adopted[m - 1], fleets[m], fine);
    }
  }

  lemma RoundUsesSlack(before: seq<UnitState>, adopted: set<int>, after: seq<UnitState>, fine: bool)
    requires Round(before, adopted, after) && Fine(before, fine)
    ensures Fine(after, fine) && Uses(Slack, Step(fine), before, adopted, after)
  {
    forall i: nat | i < |before|
      ensures Slack(after[i]) + (if i in adopted then Step(fine) else 0.0) <= Slack(before[i])
      ensures fine ==> GridPoint(after[i]) && OnGoodSide(after[i])
    {
      UnitUsesSlack(before, adopted, after, i, fine);
    }
  }

  lemma {:induction false} SumBound(s: seq<real>, most: real)
    requires forall i :: 0 <= i < |s| ==> 0.0 <= s[i] <= most
    ensures 0.0 <= SumReals(s) <= Cost(most, |s|)
  {
    if s != [] { SumBound(s[..|s| - 1], most); }
  }

  lemma {:induction false} SumNonNegative(s: seq<real>)
    requires forall i :: 0 <= i < |s| ==> 0.0 <= s[i]
    ensures 0.0 <= SumReals(s)
  {
    if s != [] { SumNonNegative(s[..|s| - 1]); }
  }

  lemma {:induction false} AdoptedAtLeastRounds(adopted: seq<set<int>>)
    requires forall k :: 0 <= k < |adopted| ==> adopted[k] != {}
    ensures TotalAdopted(adopted) >= |adopted|
  {
    if adopted != [] { AdoptedAtLeastRounds(adopted[..|adopted| - 1]); }
  }

  /** Any run at all: however the units are re-measured, whichever proposals are adopted,
      inside the envelope or not, with distinct codes or not.  The adoptions of the whole run
      cost at least 0.035 each, or 0.06 on the grid, out of the slack the fleet started with. */
  lemma {:induction false} AdoptionsAreBounded(fleets: seq<seq<UnitState>>, adopted: seq<set<int>>, fine: bool)
    requires Run(fleets, adopted) && Fine(fleets[0], fine)
    ensures Cost(Step(fine), TotalAdopted(adopted)) <= Total(Slack, fleets[0])
  {
    forall k: nat | k < |adopted|
      ensures Uses(Slack, Step(fine), fleets[k], adopted[k], fleets[k + 1])
    {
      RunStaysFine(fleets, adopted, fine, k);
      assert Round(fleets[k], adopted[k], fleets[k + 1]);
      RoundUsesSlack(fleets[k], adopted[k], fleets[k + 1], fine);
    }
    RunUses(Slack, Step(fine), fleets, adopted);
  }

  function RankOf(u: UnitState): real { Rank(u) as real }

  lemma RoundLowersRank(before: seq<UnitState>, adopted: set<int>, after: seq<UnitState>)
    requires Round(before, adopted, after)
    ensures Uses(RankOf, 1.0, before, adopted, after)
  {
    forall i: nat | i < |before|
      ensures Rank(after[i]) + (if i in adopted then 1 else 0) <= Rank(before[i])
    {
      UnitLowersRank(before, adopted, after, i);
    }
  }

  lemma UnitLowersRank(before: seq<UnitState>, adopted: set<int>, after: seq<UnitState>, i: nat)
    requires i < |before| == |after| && UnitRound(before, adopted, after, i)
    ensures Rank(after[i]) + (if i in adopted then 1 else 0) <= Rank(before[i])
  {
    if i in adopted {
      AdoptionLowersRank(before[i], BestUnit(before), OfferedBenchmark(before, i), after[i]);
    } else {
      SameSetpoints(before[i], after[i]);
    }
  }

  lemma SameSetpoints(u: UnitState, u': UnitState)
    requires Current(u') == Current(u)
    ensures Rank(u') == Rank(u)
  {
    var c := Current(u);
    assert u.temp == c.temp && u.feed == c.feed && u.fuel == c.fuel && u.steam == c.steam;
    assert u'.temp == c.temp && u'.feed == c.feed && u'.fuel == c.fuel && u'.steam == c.steam;
  }

  /** And a whole run, from anywhere, adopts at most 125 proposals per unit, or 124 if it starts in
      the envelope. */
  lemma {:induction false} EveryRunSettles(fleets: seq<seq<UnitState>>, adopted: seq<set<int>>)
    requires Run(fleets, adopted)
    ensures TotalAdopted(adopted) <= 125 * |fleets[0]|
    ensures AllInEnvelope(fleets[0]) ==> TotalAdopted(adopted) <= 124 * |fleets[0]|
  {
    forall k: nat | k < |adopted|
      ensures Uses(RankOf, 1.0, fleets[k], adopted[k], fleets[k + 1])
    {
      assert Round(fleets[k], adopted[k], fleets[k + 1]);
      RoundLowersRank(fleets[k], adopted[k], fleets[k + 1]);
    }
    RunUses(RankOf, 1.0, fleets, adopted);
    CostIsProduct(1.0, TotalAdopted(adopted));
    RanksAddUp(fleets[0]);
  }

  lemma RanksAddUp(fleet: seq<UnitState>)
    ensures Total(RankOf, fleet) <= (125 * |fleet|) as real
    ensures AllInEnvelope(fleet) ==> Total(RankOf, fleet) <= (124 * |fleet|) as real
  {
    SumBound(Each(RankOf, fleet), 125.0);
    CostIsProduct(125.0, |fleet|);
    if AllInEnvelope(fleet) {
      SumBound(Each(RankOf, fleet), 124.0);
      CostIsProduct(124.0, |fleet|);
    }
  }

  ghost predicate AllInEnvelope(fleet: seq<UnitState>) {
    forall i :: 0 <= i < |fleet| ==> InEnvelope(fleet[i])
  }

  lemma UnitStaysInEnvelope(before: seq<UnitState>, adopted: set<int>, after: seq<UnitState>, i: nat)
    requires i < |before| == |after| && UnitRound(before, adopted, after, i) && InEnvelope(before[i])
    ensures InEnvelope(after[i]) && after[i].code == before[i].code
  {
    if i in adopted {
      AdviceProposes(before, i);
      ProposalInEnvelope(before[i], BestUnit(before));
    } else {
      assert Current(after[i]) == Current(before[i]);
    }
  }

  lemma RoundStaysInEnvelope(before: seq<UnitState>, adopted: set<int>, after: seq<UnitState>)
    requires Round(before, adopted, after) && AllInEnvelope(before)
    ensures AllInEnvelope(after)
    ensures Distinct(before) ==> Distinct(after)
  {
    forall i: nat | i < |before|
      ensures InEnvelope(after[i]) && after[i].code == before[i].code
    {
      UnitStaysInEnvelope(before, adopted, after, i);
    }
  }

  lemma {:induction false} RunStaysInEnvelope(fleets: seq<seq<UnitState>>, adopted: seq<set<int>>, m: nat)
    requires Run(fleets, adopted) && m <= |adopted| && AllInEnvelope(fleets[0])
    ensures AllInEnvelope(fleets[m]) && (Distinct(fleets[0]) ==> Distinct(fleets[m]))
  {
    if m > 0 {
      RunStaysInEnvelope(fleets, adopted, m - 1);
      assert Round(fleets[m - 1], adopted[m - 1], fleets[m - 1 + 1]);
      RoundStaysInEnvelope(fleets[m - 1], adopted[m - 1], fleets[m]);
    }
  }

  /** Unit `i` is advised by a low benchmark: that of the last unit with its code. */
  predicate TakenForLow(fleet: seq<UnitState>, i: nat)
    requires i < |fleet|
  {
    TierOf(fleet, LastOf(fleet, i)) == Low
  }

  /** A fleet without advice is one whose units that are taken for low are all settled; with
      distinct codes, these are the low units. */
  lemma QuietIffSettled(fleet: seq<UnitState>)
    requires |fleet| > 0 && AllInEnvelope(fleet)
    ensures (forall i :: 0 <= i < |fleet| ==> AdviceAt(fleet, i) == None)
            <==> forall i :: 0 <= i < |fleet| && TakenForLow(fleet, i) ==> Settled(fleet[i], BestUnit(fleet))
    ensures Distinct(fleet) ==> forall i :: 0 <= i < |fleet| ==> (TakenForLow(fleet, i) <==> TierOf(fleet, i) == Low)
  {
    SameBenchmarkIff(fleet);
    forall i: nat | i < |fleet|
      ensures AdviceAt(fleet, i) == None <==> !TakenForLow(fleet, i) || Settled(fleet[i], BestUnit(fleet))
      ensures Distinct(fleet) ==> LastOf(fleet, i) == i
    {
      OwnBenchmark(fleet, i);
      if TakenForLow(fleet, i) {
        NoAdviceIffSettled(fleet[i], BestUnit(fleet), BenchmarkOf(fleet, LastOf(fleet, i)));
      }
    }
  }

  /** Adopting everything, round after round, reaches a fleet in which every unit taken for low is
      level with the benchmark up to the dead bands, and cool and fully fed if above 650. */
  lemma FleetSettles(fleets: seq<seq<UnitState>>, adopted: seq<set<int>>) returns (k: nat)
    requires Run(fleets, adopted) && |adopted| > 124 * |fleets[0]| && AllInEnvelope(fleets[0])
    requires forall k, i :: 0 <= k < |adopted| && 0 <= i < |fleets[k]| && AdviceAt(fleets[k], i).Some? ==>
             i in adopted[k]
    ensures k < |adopted| && AllInEnvelope(fleets[k]) && |fleets[k]| > 0
    ensures forall i :: 0 <= i < |fleets[k]| && TakenForLow(fleets[k], i) ==>
            Settled(fleets[k][i], BestUnit(fleets[k]))
    ensures Distinct(fleets[0]) ==> Distinct(fleets[k])
    ensures Distinct(fleets[0]) ==> forall i :: 0 <= i < |fleets[k]| && TierOf(fleets[k], i) == Low ==>
                                    Settled(fleets[k][i], BestUnit(fleets[k]))
  {
    EveryRunSettles(fleets, adopted);
    if forall j :: 0 <= j < |adopted| ==> adopted[j] != {} {
      AdoptedAtLeastRounds(adopted);
    }
    k :| 0 <= k < |adopted| && adopted[k] == {};
    RunStaysInEnvelope(fleets, adopted, k);
    assert Round(fleets[k], adopted[k], fleets[k + 1]);
    assert forall i :: 0 <= i < |fleets[k]| ==> AdviceAt(fleets[k], i) == None;
    QuietIffSettled(fleets[k]);
  }

  // ----- what one adoption does to the gap ----------------------------------------------------

  /** What happens to a gap beyond the dead band: it closes, shrinks by the greatest step, or is
      overshot by what the least step exceeds it, as far as the envelope leaves `room` beyond the
      benchmark. */
  ghost predicate GapCloses(gap: real, gap': real, dead: real, least: real, most: real, room: real) {
    gap > dead ==>
      && (least <= gap <= most ==> gap' == 0.0)
      && (gap > most ==> gap' == gap - most)
      && (gap < least ==> gap' == Larger(gap - least, -room))
  }

  /** On the grid and inside the envelope, what one adoption does to the gap to the benchmark in
      each setpoint.  Within its dead band only a high intensity moves temperature and feed, by 7
      and 5 or as far as the envelope goes; fuel and steam stay. */
  lemma GapAfterAdoption(u: UnitState, best: UnitState)
    requires GridPoint(u) && GridPoint(best) && InEnvelope(u) && InEnvelope(best)
    ensures var p := Proposal(u, best);
            && GapCloses(u.temp - best.temp, p.temp - best.temp, 1.0, 3.0, 10.0, best.temp - 380.0)
            && GapCloses(best.feed - u.feed, best.feed - p.feed, 1.0, 2.0, 10.0, 120.0 - best.feed)
            && GapCloses(u.fuel - best.fuel, p.fuel - best.fuel, 1.0, 2.0, 15.0, best.fuel - 50.0)
            && GapCloses(u.steam - best.steam, p.steam - best.steam, 0.5, 1.0, 8.0, best.steam - 10.0)
    ensures var p := Proposal(u, best);
            && (u.temp - best.temp <= 1.0
                ==> u.temp - p.temp == if u.intensity > 650.0 then Smaller(7.0, u.temp - 380.0) else 0.0)
            && (best.feed - u.feed <= 1.0
                ==> p.feed - u.feed == if u.intensity > 650.0 then Smaller(5.0, 120.0 - u.feed) else 0.0)
            && (u.fuel - best.fuel <= 1.0 ==> p.fuel == u.fuel)
            && (u.steam - best.steam <= 0.5 ==> p.steam == u.steam)
  {
    BoundsOnGrid();
    TempOnGrid(u, best);
    FeedOnGrid(u, best);
    FuelOnGrid(u, best);
    SteamOnGrid(u, best);
  }

  /** So beyond the dead band a gap strictly shrinks, its excess by the whole greatest step or to
      nothing, and an overshoot stays under the least step less the dead band. */
  lemma GapShrinks(gap: real, gap': real, dead: real, least: real, most: real, room: real)
    requires GapCloses(gap, gap', dead, least, most, room) && gap > dead && 0.0 <= dead < least <= most && room >= 0.0
    ensures dead - least < gap' < gap && -room <= gap'
    ensures Larger(0.0, gap' - dead) <= Larger(0.0, gap - most - dead)
  {
  }

  lemma TempOnGrid(u: UnitState, best: UnitState)
    requires GridPoint(u) && GridPoint(best)
    ensures Proposal(u, best).temp == Clip(u.temp + TempDelta(u, best), 380.0, 420.0)
  {
    BoundsOnGrid();
    assert OnGrid(3.0) && OnGrid(7.0) && OnGrid(0.0);
    GridSum(u.temp, best.temp);
    GridSum(u.temp, 3.0);
    GridSum(u.temp, 10.0);
    GridSum(u.temp, 7.0);
    GridSum(u.temp, u.temp - best.temp);
    Round2OnGrid(Clip(u.temp + TempDelta(u, best), 380.0, 420.0));
  }

  lemma FeedOnGrid(u: UnitState, best: UnitState)
    requires GridPoint(u) && GridPoint(best)
    ensures Proposal(u, best).feed == Clip(u.feed + FeedDelta(u, best), 80.0, 120.0)
  {
    BoundsOnGrid();
    assert OnGrid(2.0) && OnGrid(5.0);
    GridSum(best.feed, u.feed);
    GridSum(u.feed, 2.0);
    GridSum(u.feed, 10.0);
    GridSum(u.feed, 5.0);
    GridSum(u.feed, best.feed - u.feed);
    Round2OnGrid(Clip(u.feed + FeedDelta(u, best), 80.0, 120.0));
  }

  lemma FuelOnGrid(u: UnitState, best: UnitState)
    requires GridPoint(u) && GridPoint(best)
    ensures Proposal(u, best).fuel == Clip(u.fuel + FuelDelta(u, best), 50.0, 150.0)
  {
    BoundsOnGrid();
    assert OnGrid(2.0) && OnGrid(15.0);
    GridSum(u.fuel, best.fuel);
    GridSum(u.fuel, 2.0);
    GridSum(u.fuel, 15.0);
    GridSum(u.fuel, u.fuel - best.fuel);
    Round2OnGrid(Clip(u.fuel + FuelDelta(u, best), 50.0, 150.0));
  }

  lemma SteamOnGrid(u: UnitState, best: UnitState)
    requires GridPoint(u) && GridPoint(best)
    ensures Proposal(u, best).steam == Clip(u.steam + SteamDelta(u, best), 10.0, 50.0)
  {
    BoundsOnGrid();
    assert OnGrid(1.0) && OnGrid(8.0);
    GridSum(u.steam, best.steam);
    GridSum(u.steam, 1.0);
    GridSum(u.steam, 8.0);
    GridSum(u.steam, u.steam - best.steam);
    Round2OnGrid(Clip(u.steam + SteamDelta(u, best), 10.0, 50.0));
  }
}
