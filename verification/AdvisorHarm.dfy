/** When adopting a proposal can cost more energy or carbon than it saves. */
module AdvisorHarm {
  import opened Options
  import opened Rounding
  import opened Physics
  import opened Advisor
  import opened AdvisorConvergence

  // ----- the least a proposal can move --------------------------------------------------------

  /** The least move of `u`: a high intensity moves temperature and feed whatever the benchmark,
      and `also` is a setpoint that the benchmark asks to move. */
  function LeastMove(u: UnitState, also: Option<Field>): Setpoints {
    var hot := u.intensity > 650.0;
    Setpoints(Round2(Clip(u.temp - (if hot || also == Some(ReactorTemp) then 3.0 else 0.0), 380.0, 420.0)),
              Round2(Clip(u.feed + (if hot || also == Some(FeedFlow) then 2.0 else 0.0), 80.0, 120.0)),
              Round2(Clip(u.fuel - (if also == Some(FuelGas) then 2.0 else 0.0), 50.0, 150.0)),
              Round2(Clip(u.steam - (if also == Some(SteamFlow) then 1.0 else 0.0), 10.0, 50.0)),
              Round2(u.power))
  }

  /** A benchmark that asks for just that. */
  function LeastBest(u: UnitState, also: Option<Field>): UnitState {
    var hot := u.intensity > 650.0;
    u.(temp := u.temp - (if hot || also == Some(ReactorTemp) then 2.0 else 0.0),
       feed := u.feed + (if hot || also == Some(FeedFlow) then 2.0 else 0.0),
       fuel := u.fuel - (if also == Some(FuelGas) then 2.0 else 0.0),
       steam := u.steam - (if also == Some(SteamFlow) then 1.0 else 0.0))
  }

  lemma LeastIsProposed(u: UnitState, also: Option<Field>)
    ensures Proposal(u, LeastBest(u, also)) == LeastMove(u, also)
  {
  }

  /** Nowhere more heat, fuel, steam or power, and no less feed. */
  predicate NoWorse(p: Setpoints, q: Setpoints) {
    p.temp <= q.temp && p.feed >= q.feed && p.fuel <= q.fuel && p.steam <= q.steam && p.power <= q.power
  }

  lemma LeastIsWorst(u: UnitState, best: UnitState)
    ensures NoWorse(Proposal(u, best), LeastMove(u, None))
  {
    TempIsWorst(u, best);
    FeedIsWorst(u, best);
    FuelIsWorst(u, best);
    SteamIsWorst(u, best);
  }

  lemma TempIsWorst(u: UnitState, best: UnitState)
    ensures Proposal(u, best).temp <= LeastMove(u, None).temp
  {
    var least := if u.intensity > 650.0 then 3.0 else 0.0;
    Round2Monotone(Clip(u.temp + TempDelta(u, best), 380.0, 420.0), Clip(u.temp - least, 380.0, 420.0));
  }

  lemma FeedIsWorst(u: UnitState, best: UnitState)
    ensures Proposal(u, best).feed >= LeastMove(u, None).feed
  {
    var least := if u.intensity > 650.0 then 2.0 else 0.0;
    Round2Monotone(Clip(u.feed + least, 80.0, 120.0), Clip(u.feed + FeedDelta(u, best), 80.0, 120.0));
  }

  lemma FuelIsWorst(u: UnitState, best: UnitState)
    ensures Proposal(u, best).fuel <= LeastMove(u, None).fuel
  {
    Round2Monotone(Clip(u.fuel + FuelDelta(u, best), 50.0, 150.0), Clip(u.fuel - 0.0, 50.0, 150.0));
  }

  lemma SteamIsWorst(u: UnitState, best: UnitState)
    ensures Proposal(u, best).steam <= LeastMove(u, None).steam
  {
    Round2Monotone(Clip(u.steam + SteamDelta(u, best), 10.0, 50.0), Clip(u.steam - 0.0, 10.0, 50.0));
  }

  // ----- proposals that never raise a cost ----------------------------------------------------

  type Cost = Setpoints -> real

  function InefficiencyOf(s: Setpoints): real { -EfficiencyOf(s) }

  /** More heat, fuel, steam or power or less feed never costs less. */
  ghost predicate Monotone(cost: Cost) {
    forall p, q :: NoWorse(p, q) ==> cost(p) <= cost(q)
  }

  lemma CostsAreMonotone()
    ensures Monotone(IntensityOf) && Monotone(CarbonOf) && Monotone(InefficiencyOf)
  {
    forall p: Setpoints, q: Setpoints | NoWorse(p, q)
      ensures IntensityOf(p) <= IntensityOf(q) && CarbonOf(p) <= CarbonOf(q) && InefficiencyOf(p) <= InefficiencyOf(q)
    {
      IntensityMonotone(q.fuel, q.steam, q.feed, q.temp, p.fuel, p.steam, p.feed, p.temp);
      CarbonMonotone(q.fuel, q.steam, q.power, p.fuel, p.steam, p.power);
      EfficiencyAntitone(IntensityOf(q), IntensityOf(p));
    }
  }

  /** No benchmark makes `u` a proposal that raises the cost. */
  ghost predicate ProposalsNeverRaise(u: UnitState, cost: Cost) {
    forall best :: cost(Proposal(u, best)) <= cost(Current(u))
  }

  lemma NeverRaiseIff(u: UnitState, cost: Cost)
    requires Monotone(cost)
    ensures ProposalsNeverRaise(u, cost) <==> cost(LeastMove(u, None)) <= cost(Current(u))
  {
    LeastIsProposed(u, None);
    forall best: UnitState
      ensures cost(Proposal(u, best)) <= cost(LeastMove(u, None))
    {
      LeastIsWorst(u, best);
    }
  }

  /** Whatever the benchmark, adopting the proposal never raises energy or carbon intensity and
      never lowers efficiency, exactly when the least move does not: a condition on the unit's own
      readings, on or off the grid and inside or outside the envelope. */
  lemma NeverHurtsIff(u: UnitState)
    ensures ProposalsNeverRaise(u, IntensityOf) <==> IntensityOf(LeastMove(u, None)) <= IntensityOf(Current(u))
    ensures ProposalsNeverRaise(u, CarbonOf) <==> CarbonOf(LeastMove(u, None)) <= CarbonOf(Current(u))
    ensures ProposalsNeverRaise(u, InefficiencyOf) <==> EfficiencyOf(LeastMove(u, None)) >= EfficiencyOf(Current(u))
  {
    CostsAreMonotone();
    NeverRaiseIff(u, IntensityOf);
    NeverRaiseIff(u, CarbonOf);
    NeverRaiseIff(u, InefficiencyOf);
  }

  /** On the 0.01 grid and on the good side of the envelope the least move is harmless. */
  lemma LeastMoveIsHarmless(u: UnitState)
    requires GridPoint(u) && OnGoodSide(u)
    ensures NoWorse(LeastMove(u, None), Current(u))
  {
    LeastIsProposed(u, None);
    ProposalDirection(u, LeastBest(u, None));
  }

  /** So there adopting a proposal never raises energy or carbon intensity and never lowers
      efficiency. */
  lemma AdviceNeverHurts(u: UnitState, best: UnitState)
    requires GridPoint(u) && OnGoodSide(u)
    ensures var p, c := Proposal(u, best), Current(u);
            && IntensityOf(p) <= IntensityOf(c)
            && CarbonOf(p) <= CarbonOf(c)
            && EfficiencyOf(p) >= EfficiencyOf(c)
  {
    LeastMoveIsHarmless(u);
    CostsAreMonotone();
    NeverHurtsIff(u);
    assert InefficiencyOf(Proposal(u, best)) <= InefficiencyOf(Current(u));
  }

  /** The good side is not necessary: this unit is just below the envelope, and the feed it gains
      outweighs the heat. */
  lemma HarmlessOffTheGoodSide() returns (u: UnitState)
    ensures !OnGoodSide(u) && ProposalsNeverRaise(u, IntensityOf)
  {
    u := UnitState("pta", 15.0, 50.0, 10.0, 100.0, 379.5, 70.0, 700.0, None);
    assert OnGrid(380.0) && OnGrid(102.0) && OnGrid(50.0) && OnGrid(10.0);
    Round2OnGrid(380.0);
    Round2OnGrid(102.0);
    Round2OnGrid(50.0);
    Round2OnGrid(10.0);
    NeverHurtsIff(u);
  }

  // ----- advice that is given -----------------------------------------------------------------

  predicate MovesAny(u: UnitState, p: Setpoints) {
    exists f: Field :: Moves(Current(u), p, f)
  }

  /** A low unit is given advice exactly when its proposal moves something. */
  lemma GivenIff(u: UnitState, best: UnitState, bench: Benchmark)
    ensures AdviceFor(u, best, bench).Some? <==> bench.tier == Low && MovesAny(u, Proposal(u, best))
  {
    var c, p := Current(u), Proposal(u, best);
    assert forall f: Field :: f in Deltas(c, p) <==> Moves(c, p, f);
    if Deltas(c, p) != map[] {
      var f :| f in Deltas(c, p);
      assert Moves(c, p, f);
    }
  }

  /** No benchmark gives `u` advice that raises the cost. */
  ghost predicate AdviceNeverRaises(u: UnitState, cost: Cost) {
    forall best, bench :: AdviceFor(u, best, bench).Some? ==> cost(Proposal(u, best)) <= cost(Current(u))
  }

  /** A proposal that moves a setpoint which the least move leaves, moves it by a whole least step
      or to the end of the envelope. */
  lemma MovesAWholeStep(u: UnitState, best: UnitState, f: Field)
    requires Moves(Current(u), Proposal(u, best), f) && !Moves(Current(u), LeastMove(u, None), f)
    ensures NoWorse(Proposal(u, best), LeastMove(u, Some(f)))
    ensures Moves(Current(u), LeastMove(u, Some(f)), f)
  {
    LeastIsWorst(u, best);
    OthersStay(u, f);
    match f
    case ReactorTemp => TempWholeStep(u, best);
    case FeedFlow => FeedWholeStep(u, best);
    case FuelGas => FuelWholeStep(u, best);
    case SteamFlow => SteamWholeStep(u, best);
    case Power =>
  }

  lemma OthersStay(u: UnitState, f: Field)
    ensures LeastMove(u, Some(f)).power == LeastMove(u, None).power
    ensures f != ReactorTemp ==> LeastMove(u, Some(f)).temp == LeastMove(u, None).temp
    ensures f != FeedFlow ==> LeastMove(u, Some(f)).feed == LeastMove(u, None).feed
    ensures f != FuelGas ==> LeastMove(u, Some(f)).fuel == LeastMove(u, None).fuel
    ensures f != SteamFlow ==> LeastMove(u, Some(f)).steam == LeastMove(u, None).steam
  {
  }

  lemma TempWholeStep(u: UnitState, best: UnitState)
    requires Moves(Current(u), Proposal(u, best), ReactorTemp) && !Moves(Current(u), LeastMove(u, None), ReactorTemp)
    ensures Proposal(u, best).temp <= LeastMove(u, Some(ReactorTemp)).temp
    ensures Moves(Current(u), LeastMove(u, Some(ReactorTemp)), ReactorTemp)
  {
    Round2Monotone(Clip(u.temp + TempDelta(u, best), 380.0, 420.0), Clip(u.temp - 3.0, 380.0, 420.0));
  }

  lemma FeedWholeStep(u: UnitState, best: UnitState)
    requires Moves(Current(u), Proposal(u, best), FeedFlow) && !Moves(Current(u), LeastMove(u, None), FeedFlow)
    ensures Proposal(u, best).feed >= LeastMove(u, Some(FeedFlow)).feed
    ensures Moves(Current(u), LeastMove(u, Some(FeedFlow)), FeedFlow)
  {
    Round2Monotone(Clip(u.feed + 2.0, 80.0, 120.0), Clip(u.feed + FeedDelta(u, best), 80.0, 120.0));
  }

  lemma FuelWholeStep(u: UnitState, best: UnitState)
    requires Moves(Current(u), Proposal(u, best), FuelGas) && !Moves(Current(u), LeastMove(u, None), FuelGas)
    ensures Proposal(u, best).fuel <= LeastMove(u, Some(FuelGas)).fuel
    ensures Moves(Current(u), LeastMove(u, Some(FuelGas)), FuelGas)
  {
    Round2Monotone(Clip(u.fuel + FuelDelta(u, best), 50.0, 150.0), Clip(u.fuel - 2.0, 50.0, 150.0));
  }

  lemma SteamWholeStep(u: UnitState, best: UnitState)
    requires Moves(Current(u), Proposal(u, best), SteamFlow) && !Moves(Current(u), LeastMove(u, None), SteamFlow)
    ensures Proposal(u, best).steam <= LeastMove(u, Some(SteamFlow)).steam
    ensures Moves(Current(u), LeastMove(u, Some(SteamFlow)), SteamFlow)
  {
    Round2Monotone(Clip(u.steam + SteamDelta(u, best), 10.0, 50.0), Clip(u.steam - 1.0, 10.0, 50.0));
  }

  /** None of the least moves that amount to advice raises the cost. */
  ghost predicate LeastAdviceNeverRaises(u: UnitState, cost: Cost) {
    forall also: Option<Field> :: MovesAny(u, LeastMove(u, also)) ==> cost(LeastMove(u, also)) <= cost(Current(u))
  }

  lemma GivenNeverRaisesIff(u: UnitState, cost: Cost)
    requires Monotone(cost)
    ensures AdviceNeverRaises(u, cost) <==> LeastAdviceNeverRaises(u, cost)
  {
    if AdviceNeverRaises(u, cost) {
      forall also: Option<Field> | MovesAny(u, LeastMove(u, also))
        ensures cost(LeastMove(u, also)) <= cost(Current(u))
      {
        var best, bench := LeastBest(u, also), Benchmark(u.code, u.efficiency, u.intensity, Low, 0.0, None);
        LeastIsProposed(u, also);
        GivenIff(u, best, bench);
      }
    }
    if LeastAdviceNeverRaises(u, cost) {
      forall best: UnitState, bench: Benchmark | AdviceFor(u, best, bench).Some?
        ensures cost(Proposal(u, best)) <= cost(Current(u))
      {
        GivenIff(u, best, bench);
        var also := LeastAdviceAbove(u, best);
      }
    }
  }

  lemma LeastAdviceAbove(u: UnitState, best: UnitState) returns (also: Option<Field>)
    requires MovesAny(u, Proposal(u, best))
    ensures MovesAny(u, LeastMove(u, also)) && NoWorse(Proposal(u, best), LeastMove(u, also))
  {
    LeastIsWorst(u, best);
    also := None;
    if !MovesAny(u, LeastMove(u, None)) {
      var f: Field :| Moves(Current(u), Proposal(u, best), f);
      MovesAWholeStep(u, best, f);
      also := Some(f);
    }
  }

  /** Whatever the benchmark, advice that is given never raises energy or carbon intensity and
      never lowers efficiency exactly when none of the least moves does that amounts to advice. */
  lemma GivenNeverHurtsIff(u: UnitState)
    ensures AdviceNeverRaises(u, IntensityOf) <==> LeastAdviceNeverRaises(u, IntensityOf)
    ensures AdviceNeverRaises(u, CarbonOf) <==> LeastAdviceNeverRaises(u, CarbonOf)
    ensures AdviceNeverRaises(u, InefficiencyOf) <==> LeastAdviceNeverRaises(u, InefficiencyOf)
  {
    CostsAreMonotone();
    GivenNeverRaisesIff(u, IntensityOf);
    GivenNeverRaisesIff(u, CarbonOf);
    GivenNeverRaisesIff(u, InefficiencyOf);
  }

  /** Below the envelope the clip works against the plant: whatever its benchmark, this cold unit
      is advised to heat up if it is low, and its intensity rises. */
  lemma ColdUnitIsHeated() returns (u: UnitState)
    ensures GridPoint(u) && !OnGoodSide(u)
    ensures forall best: UnitState, bench: Benchmark :: bench.tier == Low ==> AdviceFor(u, best, bench).Some?
    ensures forall best :: IntensityOf(Proposal(u, best)) > IntensityOf(Current(u))
  {
    u := UnitState("pta", 15.0, 50.0, 10.0, 120.0, 300.0, 70.0, 600.0, None);
    forall best: UnitState, bench: Benchmark
      ensures IntensityOf(Proposal(u, best)) > IntensityOf(Current(u))
      ensures bench.tier == Low ==> AdviceFor(u, best, bench).Some?
    {
      ProposalInEnvelope(u, best);
      ProposalDirection(u, best);
      assert Moves(Current(u), Proposal(u, best), ReactorTemp);
      GivenIff(u, best, bench);
    }
  }

  // ----- how much the rounding can cost -------------------------------------------------------

  /** Off the grid the double rounding can cost at most 0.0145 of intensity. */
  lemma AdviceHardlyHurtsOffGrid(u: UnitState, best: UnitState)
    requires OnGoodSide(u)
    ensures IntensityOf(Proposal(u, best)) <= IntensityOf(Current(u)) + 0.0145
  {
    ProposalDirectionOffGrid(u, best);
  }

  /** That much is lost by a unit whose four setpoints all round the wrong way; but it gets no
      advice, because none of them moves by more than 0.05. */
  lemma RoundingCostAttained() returns (u: UnitState, best: UnitState)
    ensures OnGoodSide(u) && IntensityOf(Proposal(u, best)) == IntensityOf(Current(u)) + 0.0145
    ensures Deltas(Current(u), Proposal(u, best)) == map[]
  {
    u := UnitState("pta", 15.0, 60.015, 15.015, 100.005, 400.015, 70.0, 600.0, None);
    best := u;
    RoundedUp(u.temp, 40002);
    RoundedUp(u.fuel, 6002);
    RoundedUp(u.steam, 1502);
    HalfEvenUnique(u.feed * 100.0, 10000);
    Round2OnGrid(u.power);
    assert forall f: Field :: !Moves(Current(u), Proposal(u, best), f) by {
      forall f: Field
        ensures !Moves(Current(u), Proposal(u, best), f)
      {
        match f { case ReactorTemp => case FeedFlow => case FuelGas => case SteamFlow => case Power => }
      }
    }
  }

  lemma RoundedUp(x: real, n: int)
    requires x * 100.0 == n as real - 0.5 && n % 2 == 0
    ensures Round2(x) * 100.0 == n as real
  {
    HalfEvenUnique(x * 100.0, n);
  }

  /** Advice that is given moves something by more than 0.05, which leaves less than 0.009 to be
      lost. */
  lemma GivenAdviceHardlyHurts(u: UnitState, best: UnitState, bench: Benchmark)
    requires OnGoodSide(u) && AdviceFor(u, best, bench).Some?
    ensures IntensityOf(Proposal(u, best)) < IntensityOf(Current(u)) + 0.009
  {
    var c, p := Current(u), Proposal(u, best);
    ProposalDirectionOffGrid(u, best);
    var f: Field :| f in Deltas(c, p);
    assert Moves(c, p, f);
    assert Abs(p.power - c.power) <= 0.005;
    OneMoveOutweighs(c, p, f);
  }

  /** One move by more than 0.05 the saving way, and nothing else the other way by more than
      rounding. */
  lemma OneMoveOutweighs(c: Setpoints, p: Setpoints, f: Field)
    requires p.temp <= c.temp + 0.005 && p.feed >= c.feed - 0.005 && p.fuel <= c.fuel + 0.005
             && p.steam <= c.steam + 0.005
    requires Moves(c, p, f) && f != Power
    ensures IntensityOf(p) < IntensityOf(c) + 0.009
  {
    match f { case ReactorTemp => case FeedFlow => case FuelGas => case SteamFlow => }
  }

  /** And no smaller bound holds: a unit that only tops up its feed, by 0.05 + e, while its other
      setpoints round up, loses 0.009 - e / 10. */
  lemma OffGridAdviceCanHurt(e: real) returns (u: UnitState, best: UnitState, bench: Benchmark)
    requires 0.0 < e <= 0.05
    ensures OnGoodSide(u) && AdviceFor(u, best, bench).Some?
    ensures IntensityOf(Proposal(u, best)) == IntensityOf(Current(u)) + 0.009 - 0.1 * e
  {
    u := UnitState("pta", 15.0, 60.015, 15.015, 119.95 - e, 400.015, 70.0, 600.0, None);
    best := u.(code := "olefin", feed := 130.0, efficiency := 80.0);
    bench := Benchmark("pta", 70.0, 600.0, Low, 10.0, Some("olefin"));
    RoundedUp(u.temp, 40002);
    RoundedUp(u.fuel, 6002);
    RoundedUp(u.steam, 1502);
    assert OnGrid(120.0);
    Round2OnGrid(120.0);
    assert Moves(Current(u), Proposal(u, best), FeedFlow);
    assert FeedFlow in Deltas(Current(u), Proposal(u, best));
  }
}
