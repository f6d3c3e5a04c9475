/** The before/after report of one proposal (app/optimization/simulate.py), with the physics
    fallback of app/ml/serve.py standing in for the trained model. */
module AdvisorSimulation {
  import opened Options
  import opened Rounding
  import opened Physics
  import opened Advisor
  import opened AdvisorConvergence
  import opened AdvisorHarm

  datatype WhatIf = WhatIf(intensity: real, carbon: real, efficiency: real)

  datatype Simulation = Simulation(
    beforeIntensity: real, afterIntensity: real, beforeEfficiency: real, afterEfficiency: real,
    beforeCarbon: real, afterCarbon: real,
    intensityDelta: real, efficiencyDelta: real, carbonDelta: real)

  /** The physics fallback: here efficiency is taken from the rounded intensity, while
      `Enrich` takes it from the unrounded one. */
  function PhysicsWhatIf(p: Setpoints): WhatIf {
    var intensity := Round2(IntensityOf(p));
    WhatIf(intensity, Round2(CarbonOf(p)), Round2(EnergyEfficiency(intensity)))
  }

  function SimulateAdvice(u: UnitState, proposed: Setpoints): Simulation {
    var after := PhysicsWhatIf(proposed);
    var carbon := if u.carbon.Some? then u.carbon.value else 0.0;
    Simulation(u.intensity, after.intensity, u.efficiency, after.efficiency, carbon, after.carbon,
               Round2(after.intensity - u.intensity),
               Round2(after.efficiency - u.efficiency),
               Round2(after.carbon - carbon))
  }

  /** The unit's own readings were derived by the physics. */
  predicate PhysicsDerived(u: UnitState) {
    var d := Enrich(Reading(u.power, u.fuel, u.steam, u.feed, u.temp));
    u.intensity == d.intensity && u.carbon == Some(d.carbon) && u.efficiency == d.efficiency
  }

  lemma RoundedDifference(x: real, y: real)
    requires x <= y
    ensures Round2(x - y) <= 0.0 <= Round2(y - x)
  {
    Round2OnGrid(0.0);
    Round2Monotone(x - y, 0.0);
    Round2Monotone(0.0, y - x);
  }

  /** One advice lowers the unclipped intensity by at least 0.006: enough to absorb the
      rounding of the intensity before the efficiency is taken from it. */
  lemma AdviceLowersIntensity(u: UnitState, best: UnitState, bench: Benchmark)
    requires GridPoint(u) && OnGoodSide(u) && AdviceFor(u, best, bench).Some?
    ensures var p := Proposal(u, best);
            0.5 * p.fuel + 2.0 * p.steam - 0.1 * p.feed + 0.3 * p.temp + 0.006
            <= 0.5 * u.fuel + 2.0 * u.steam - 0.1 * u.feed + 0.3 * u.temp
  {
    var c, p := Current(u), Proposal(u, best);
    ProposalDirection(u, best);
    var f: Field :| f in Deltas(c, p);
    assert Moves(c, p, f);
    GridMove(c.At(f), p.At(f));
    match f { case ReactorTemp => case FeedFlow => case FuelGas => case SteamFlow => case Power => }
  }

  lemma EfficiencyNotLowered(u: UnitState, best: UnitState, bench: Benchmark)
    requires GridPoint(u) && OnGoodSide(u) && AdviceFor(u, best, bench).Some?
    ensures Round2(EfficiencyOf(Current(u))) <= PhysicsWhatIf(Proposal(u, best)).efficiency
  {
    var p := Proposal(u, best);
    AdviceLowersIntensity(u, best, bench);
    var before, after := IntensityOf(Current(u)), IntensityOf(p);
    IntensityRoundedDown(before, after, p);
    EfficiencyAntitone(before, Round2(after));
    Round2Monotone(EnergyEfficiency(before), EnergyEfficiency(Round2(after)));
  }

  lemma IntensityAndCarbonNotRaised(u: UnitState, best: UnitState)
    requires GridPoint(u) && OnGoodSide(u)
    ensures PhysicsWhatIf(Proposal(u, best)).intensity <= Round2(IntensityOf(Current(u)))
    ensures PhysicsWhatIf(Proposal(u, best)).carbon <= Round2(CarbonOf(Current(u)))
  {
    var p := Proposal(u, best);
    AdviceNeverHurts(u, best);
    Round2Monotone(IntensityOf(p), IntensityOf(Current(u)));
    Round2Monotone(CarbonOf(p), CarbonOf(Current(u)));
  }

  /** Through the physics fallback no advice is ever reported as making anything worse, despite
      the rounding of intensity, of efficiency and of the deltas. */
  lemma SimulationNeverWorse(u: UnitState, best: UnitState, bench: Benchmark)
    requires GridPoint(u) && OnGoodSide(u) && PhysicsDerived(u) && AdviceFor(u, best, bench).Some?
    ensures var s := SimulateAdvice(u, AdviceFor(u, best, bench).value.proposed);
            s.intensityDelta <= 0.0 && s.efficiencyDelta >= 0.0 && s.carbonDelta <= 0.0
  {
    EfficiencyNotLowered(u, best, bench);
    IntensityAndCarbonNotRaised(u, best);
    DeltasFollow(u, Proposal(u, best));
  }

  /** Such units exist: a hot one is advised to cool down to its benchmark. */
  lemma HotUnitIsCooled() returns (u: UnitState, best: UnitState, bench: Benchmark)
    ensures GridPoint(u) && InEnvelope(u) && OnGoodSide(u) && PhysicsDerived(u) && AdviceFor(u, best, bench).Some?
    ensures Proposal(u, best).temp == best.temp < u.temp
  {
    u := UnitState("pta", 15.0, 100.0, 30.0, 100.0, 400.0, 77.5, 800.0, Some(29.75));
    best := UnitState("olefin", 15.0, 100.0, 30.0, 105.0, 390.0, 80.0, 700.0, None);
    bench := Benchmark("pta", 77.5, 800.0, Low, 2.5, Some("olefin"));
    assert OnGrid(800.0) && OnGrid(29.75) && OnGrid(77.5) && OnGrid(390.0);
    Round2OnGrid(800.0);
    Round2OnGrid(29.75);
    Round2OnGrid(77.5);
    Round2OnGrid(390.0);
    assert Moves(Current(u), Proposal(u, best), ReactorTemp);
    assert ReactorTemp in Deltas(Current(u), Proposal(u, best));
  }

  lemma DeltasFollow(u: UnitState, proposed: Setpoints)
    requires PhysicsDerived(u)
    requires var after := PhysicsWhatIf(proposed);
             && after.intensity <= Round2(IntensityOf(Current(u)))
             && Round2(EfficiencyOf(Current(u))) <= after.efficiency
             && after.carbon <= Round2(CarbonOf(Current(u)))
    ensures var s := SimulateAdvice(u, proposed);
            s.intensityDelta <= 0.0 && s.efficiencyDelta >= 0.0 && s.carbonDelta <= 0.0
  {
    ReadingsAreDerived(u);
    var after := PhysicsWhatIf(proposed);
    RoundedDifference(after.intensity, u.intensity);
    RoundedDifference(u.efficiency, after.efficiency);
    RoundedDifference(after.carbon, u.carbon.value);
  }

  lemma ReadingsAreDerived(u: UnitState)
    requires PhysicsDerived(u)
    ensures u.intensity == Round2(IntensityOf(Current(u))) && u.efficiency == Round2(EfficiencyOf(Current(u)))
    ensures u.carbon == Some(Round2(CarbonOf(Current(u))))
  {
  }

  /** Rounding the lowered intensity does not lift it above the unrounded one before. */
  lemma IntensityRoundedDown(before: real, after: real, p: Setpoints)
    requires after == IntensityOf(p) && 500.0 <= before <= 800.0
    requires before == 800.0 || before >= 600.0 + 0.5 * p.fuel + 2.0 * p.steam - 0.1 * p.feed + 0.3 * p.temp + 0.006
    requires before >= 747.0 && after >= 500.0
    ensures Round2(after) <= before
  {
    assert OnGrid(800.0) && OnGrid(500.0);
    Round2OnGrid(800.0);
    Round2OnGrid(500.0);
    Round2Monotone(after, 800.0);
  }

  /** A unit without a carbon reading counts as zero before, so its advice is always reported
      as adding at least 20 kg of CO2 per ton. */
  lemma MissingCarbonLooksWorse(u: UnitState, proposed: Setpoints)
    requires u.carbon == None
    ensures SimulateAdvice(u, proposed).carbonDelta >= 20.0
  {
    assert OnGrid(20.0);
    Round2OnGrid(20.0);
    Round2Monotone(20.0, CarbonOf(proposed));
    Round2Monotone(20.0, Round2(CarbonOf(proposed)));
  }

  /** The report states the readings before, the model's answer after, and the differences: exactly,
      for readings on the grid. */
  lemma DeltasAreDifferences(u: UnitState, proposed: Setpoints)
    requires OnGrid(u.intensity) && OnGrid(u.efficiency) && (u.carbon.Some? ==> OnGrid(u.carbon.value))
    ensures var s := SimulateAdvice(u, proposed);
            && s.beforeIntensity == u.intensity && s.beforeEfficiency == u.efficiency
            && s.beforeCarbon == (if u.carbon == None then 0.0 else u.carbon.value)
            && s.afterIntensity == s.beforeIntensity + s.intensityDelta
            && s.afterEfficiency == s.beforeEfficiency + s.efficiencyDelta
            && s.afterCarbon == s.beforeCarbon + s.carbonDelta
  {
    var s := SimulateAdvice(u, proposed);
    IntOnGrid(0);
    ExactDelta(s.beforeIntensity, s.afterIntensity);
    ExactDelta(s.beforeEfficiency, s.afterEfficiency);
    ExactDelta(s.beforeCarbon, s.afterCarbon);
  }

  lemma ExactDelta(before: real, after: real)
    requires OnGrid(before) && OnGrid(after)
    ensures before + Round2(after - before) == after
  {
    GridSum(after, before);
    Round2OnGrid(after - before);
  }
}
