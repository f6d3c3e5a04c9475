/** A recommendation carried through the whole workflow, and the saving its row then states. */
module WorkflowImpact {
  import opened Options
  import opened Rounding
  import opened Advisor
  import opened Workflow
  import Writes = SetpointWrites
  import Runs = WorkflowRuns
  import Convergence = AdvisorConvergence
  import Estimates = AdvisorEstimates

  // ----- from pending to applied --------------------------------------------------------------

  /** Simulate, accept, approve, and apply as a dry run. */
  function Through(id: nat, delta: real, actor: string, library: bool, link: Writes.Link,
                   live: Option<real>): seq<Runs.Op> {
    [Runs.Simulate(id, delta), Runs.Feedback(id, Accept, actor), Runs.Approve(id, actor),
     Runs.Apply(id, actor, Some(true), library, link, live)]
  }

  /** Every pending or accepted recommendation of a mapped plant can be carried through, whatever the
      configuration; its row then states the simulated delta, the actor, the mode and the measured
      intensity, nothing was sent, and nothing else changed. */
  lemma {:induction false} CanBeApplied(cfg: Writes.Config, db: Db, id: nat, delta: real, actor: string, library: bool,
                                        link: Writes.Link,
                     live: Option<real>)
    requires id in db.recs && db.recs[id].status in {Pending, Accepted} && db.recs[id].plant in cfg.tags
    ensures var db' := Runs.Run(cfg, db, Through(id, delta, actor, library, link, live));
            && db'.recs == db.recs[id := AppliedRow(db.recs[id], delta, actor, live)]
            && db'.sent == db.sent && |db'.log| == |db.log| + 3
  {
    var ops := Through(id, delta, actor, library, link, live);
    var db1 := Runs.Step(cfg, db, ops[0]);
    var db2 := Runs.Step(cfg, db1, ops[1]);
    var db3 := Runs.Step(cfg, db2, ops[2]);
    var db4 := Runs.Step(cfg, db3, ops[3]);
    assert db3.recs[id].status == Approved && db3.recs[id].simDelta == Some(delta);
    assert db4.sent == db.sent;
    assert db4.recs[id] == AppliedRow(db.recs[id], delta, actor, live);
    FourSteps(cfg, db, ops[0], ops[1], ops[2], ops[3]);
    assert ops == [ops[0], ops[1], ops[2], ops[3]];
  }

  function AppliedRow(r: Rec, delta: real, actor: string, live: Option<real>): Rec {
    r.(simDelta := Some(delta), status := Applied, approvedBy := Some(actor), appliedBy := Some(actor),
       mode := Some(DryRunMode), baseline := live, resolved := true)
  }

  lemma {:induction false} FourSteps(cfg: Writes.Config, db: Db, a: Runs.Op, b: Runs.Op, c: Runs.Op, d: Runs.Op)
    ensures Runs.Run(cfg, db, [a, b, c, d])
            == Runs.Step(cfg, Runs.Step(cfg, Runs.Step(cfg, Runs.Step(cfg, db, a), b), c), d)
  {
    var db1 := Runs.Step(cfg, db, a);
    var db2 := Runs.Step(cfg, db1, b);
    var db3 := Runs.Step(cfg, db2, c);
    assert [a, b, c, d] == [a] + [b, c, d] && [b, c, d] == [b] + [c, d] && [c, d] == [c] + [d] && [d] == [d] + [];
    FirstStep(cfg, db, a, [b, c, d]);
    FirstStep(cfg, db1, b, [c, d]);
    FirstStep(cfg, db2, c, [d]);
    FirstStep(cfg, db3, d, []);
  }

  lemma {:induction false} FirstStep(cfg: Writes.Config, db: Db, op: Runs.Op, rest: seq<Runs.Op>)
    ensures Runs.Run(cfg, db, [op] + rest) == Runs.Run(cfg, Runs.Step(cfg, db, op), rest)
  {
    assert ([op] + rest)[1..] == rest;
  }

  /** And can be rejected instead. */
  lemma CanBeRejected(cfg: Writes.Config, db: Db, id: nat, operator: string)
    requires id in db.recs && db.recs[id].status in {Pending, Accepted}
    ensures Runs.Step(cfg, db, Runs.Feedback(id, Reject, operator)).recs
            == db.recs[id := db.recs[id].(status := Rejected, resolved := true)]
  {
  }

  // ----- the saving that is stored ------------------------------------------------------------

  /** The feed a proposal asks for: 100 t/h if it asks for none, or for zero. */
  ghost predicate AsksForFeed(proposed: seq<Writes.Setpoint>, feed: real) {
    if exists k :: 0 <= k < |proposed| && IsFeed(proposed[k]) then
      exists k :: 0 <= k < |proposed| && IsFeed(proposed[k]) && proposed[k].value == feed
    else feed == 100.0
  }

  predicate IsFeed(s: Writes.Setpoint) { s.field == "feed_flow_tonh" && s.value != 0.0 }

  ghost predicate DistinctFields(proposed: seq<Writes.Setpoint>) {
    forall j, k :: 0 <= j < k < |proposed| ==> proposed[j].field != proposed[k].field
  }

  lemma {:induction false} FeedIsAskedFor(proposed: seq<Writes.Setpoint>, feed: real)
    requires DistinctFields(proposed)
    ensures AsksForFeed(proposed, feed) <==> FeedOf(proposed) == feed
  {
    if proposed != [] {
      var n := |proposed| - 1;
      var rest := proposed[..n];
      assert forall k :: 0 <= k < n ==> rest[k] == proposed[k];
      if !IsFeed(proposed[n]) { FeedIsAskedFor(rest, feed); }
    }
  }

  /** With a baseline and a recent mean, the saving stored is the drop in intensity at the proposed
      feed, in kWh, rounded: positive only if the intensity fell.  Nothing else changes, and one
      impact event is logged. */
  lemma ImpactStores(cfg: Writes.Config, db: Db, id: nat, actor: string, current: real, feed: real)
    requires id in db.recs && db.recs[id].status in {Accepted, Approved, Applied} && db.recs[id].baseline.Some?
    requires DistinctFields(db.recs[id].proposed) && AsksForFeed(db.recs[id].proposed, feed)
    ensures var db' := Runs.Step(cfg, db, Runs.MeasureImpact(id, actor, Some(current)));
            && id in db'.recs && db'.recs[id].realized.Some?
            && db'.recs == db.recs[id := db.recs[id].(realized := db'.recs[id].realized)]
            && db'.sent == db.sent && |db'.log| == |db.log| + 1
            && IsEnergyOf(db'.recs[id].realized.value, db.recs[id].baseline.value - current, feed)
  {
    ImpactIsSaving(cfg, db, id, actor, current);
    FeedIsAskedFor(db.recs[id].proposed, feed);
    SavingIsEnergy(db.recs[id].baseline.value, current, db.recs[id].baseline.value - current, feed);
  }

  /** The energy of a drop in intensity at a feed, in kWh, and with the sign of the drop. */
  predicate IsEnergyOf(saved: real, drop: real, feed: real) {
    && saved == Round2(drop * feed * 11.63)
    && (feed > 0.0 && saved > 0.0 ==> drop > 0.0)
    && (feed > 0.0 && saved < 0.0 ==> drop < 0.0)
  }

  lemma SavingIsEnergy(before: real, after: real, drop: real, feed: real)
    requires drop == before - after
    ensures IsEnergyOf(Saving(before, after, feed), drop, feed)
  {
    DropEnergy(before, after, drop, feed);
    SameRounded(EnergyKwh(before, feed) - EnergyKwh(after, feed), drop * feed * 11.63);
    if feed > 0.0 { SignOfDrop(drop, feed); }
  }

  lemma DropEnergy(before: real, after: real, drop: real, feed: real)
    requires drop == before - after
    ensures EnergyKwh(before, feed) - EnergyKwh(after, feed) == drop * feed * 11.63
  {
    Estimates.Spread(before, after, feed);
  }

  lemma SameRounded(x: real, y: real)
    requires x == y
    ensures Round2(x) == Round2(y)
  {
  }

  lemma ImpactIsSaving(cfg: Writes.Config, db: Db, id: nat, actor: string, current: real)
    requires id in db.recs && db.recs[id].status in {Accepted, Approved, Applied} && db.recs[id].baseline.Some?
    ensures var db' := Runs.Step(cfg, db, Runs.MeasureImpact(id, actor, Some(current)));
            var r := db.recs[id];
            && db'.recs == db.recs[id := r.(realized := Some(Saving(r.baseline.value, current, FeedOf(r.proposed))))]
            && db'.sent == db.sent && |db'.log| == |db.log| + 1
  {
  }

  lemma SignOfDrop(drop: real, feed: real)
    requires feed > 0.0
    ensures Round2(drop * feed * 11.63) > 0.0 ==> drop > 0.0
    ensures Round2(drop * feed * 11.63) < 0.0 ==> drop < 0.0
  {
    var x := drop * feed * 11.63;
    if drop <= 0.0 {
      assert drop * feed <= 0.0;
      RoundedAtMost(x, 0);
    }
    if drop >= 0.0 {
      assert drop * feed >= 0.0;
      RoundedAtMost(x, 0);
    }
  }

  /** Without samples an applied recommendation states its estimate; otherwise nothing changes. */
  lemma ImpactWithoutSamples(cfg: Writes.Config, db: Db, id: nat, actor: string, current: Option<real>)
    requires id in db.recs && (db.recs[id].baseline == None || current == None)
    ensures var db' := Runs.Step(cfg, db, Runs.MeasureImpact(id, actor, current));
            var r := db.recs[id];
            if r.status == Applied && r.estimate.Some?
            then db'.recs == db.recs[id := r.(realized := r.estimate)] && |db'.log| == |db.log| + 1
              && db'.sent == db.sent
            else db' == db
  {
  }

  // ----- the promise, in the row --------------------------------------------------------------

  /** The row states the advice given to `u`, as it was stored. */
  predicate StatesAdvice(r: Rec, u: UnitState, best: UnitState, gap: real) {
    r.proposed == Estimates.Stored(Proposal(u, best)) && r.estimate == Some(AdviceBody(u, best, gap).energySaving)
  }

  /** Carried through at the unit's intensity and measured at its benchmark's, a row realizes the
      rounded measured saving beside the rounded promised one, and the two columns agree whenever
      the promise is kept. */
  lemma {:induction false} PromiseInRow(cfg: Writes.Config, db: Db, id: nat, u: UnitState, best: UnitState, gap: real,
                                        delta: real,
                     actor: string,
                     library: bool, link: Writes.Link)
    requires id in db.recs && db.recs[id].status in {Pending, Accepted} && db.recs[id].plant in cfg.tags
    requires StatesAdvice(db.recs[id], u, best, gap) && u.intensity >= 1.0
    ensures var applied := Runs.Run(cfg, db, Through(id, delta, actor, library, link, Some(u.intensity)));
            var measured := Runs.Step(cfg, applied, Runs.MeasureImpact(id, actor, Some(best.intensity)));
            var p := Proposal(u, best);
            && id in measured.recs
            && measured.recs[id].realized == Some(Round2(Estimates.Measured(u, best, p)))
            && measured.recs[id].estimate == Some(Round2(Estimates.Promised(u, best)))
            && (Estimates.Kept(u.intensity, Estimates.Gap(u, best), u.feed, p.feed) ==>
                  measured.recs[id].realized == measured.recs[id].estimate)
  {
    var p := Proposal(u, best);
    CanBeApplied(cfg, db, id, delta, actor, library, link, Some(u.intensity));
    var applied := Runs.Run(cfg, db, Through(id, delta, actor, library, link, Some(u.intensity)));
    PromiseMeasured(cfg, applied, id, u, best, gap, actor);
    Convergence.ProposalInEnvelope(u, best);
    Estimates.PromiseKeptIff(u, best, p);
  }

  lemma PromiseMeasured(cfg: Writes.Config, db: Db, id: nat, u: UnitState, best: UnitState, gap: real, actor: string)
    requires id in db.recs && db.recs[id].status == Applied && db.recs[id].baseline == Some(u.intensity)
    requires StatesAdvice(db.recs[id], u, best, gap)
    ensures var measured := Runs.Step(cfg, db, Runs.MeasureImpact(id, actor, Some(best.intensity)));
            && id in measured.recs
            && measured.recs[id].realized == Some(Round2(Estimates.Measured(u, best, Proposal(u, best))))
            && measured.recs[id].estimate == Some(Round2(Estimates.Promised(u, best)))
  {
  }

  /** From an empty table: a unit that is promised 11630 kWh/h and measured to save 12211.5. */
  lemma PromiseMissedInRow(cfg: Writes.Config, plant: string, gap: real, delta: real, actor: string, library: bool,
                           link: Writes.Link) returns (u: UnitState, best: UnitState)
    requires plant in cfg.tags
    ensures var draft := Draft(plant, Estimates.Stored(Proposal(u, best)), Some(AdviceBody(u, best, gap).energySaving),
                               None);
            var created := Runs.Step(cfg, Runs.EMPTY, Runs.Create([draft]));
            var applied := Runs.Run(cfg, created, Through(1, delta, actor, library, link, Some(u.intensity)));
            var measured := Runs.Step(cfg, applied, Runs.MeasureImpact(1, actor, Some(best.intensity)));
            && 1 in measured.recs
            && measured.recs[1].estimate == Some(11630.0) && measured.recs[1].realized == Some(12211.5)
  {
    u, best := Estimates.PromiseMissed();
    assert AdviceBody(u, best, gap).energySaving == 11630.0;
    var draft := Draft(plant, Estimates.Stored(Proposal(u, best)), Some(AdviceBody(u, best, gap).energySaving), None);
    FirstCreated(cfg, draft);
    PromiseInRow(cfg, Runs.Step(cfg, Runs.EMPTY, Runs.Create([draft])), 1, u, best, gap, delta, actor, library, link);
  }

  lemma FirstCreated(cfg: Writes.Config, draft: Draft)
    ensures Runs.Step(cfg, Runs.EMPTY, Runs.Create([draft])).recs == map[1 := NewRec(draft)]
  {
    var one := [draft];
    assert one[..|one| - 1] == [] && one[|one| - 1] == draft;
    assert CreatedAll(Runs.EMPTY, []) == Runs.EMPTY;
  }
}
