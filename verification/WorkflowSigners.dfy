/** What a recommendation's row says about who acted on it, against the audit log. */
module WorkflowSigners {
  import opened Options
  import opened Trails
  import opened SetpointWrites
  import opened Workflow
  import opened WorkflowRuns

  /** The row names the approver and the applier the log names, and it is resolved exactly when
      rejected or applied; a failed one stays unresolved. */
  ghost predicate RowSigned(log: seq<Event<EventKind>>, id: nat, r: Rec) {
    && r.approvedBy == ActorOf(log, id, WasApproved)
    && r.appliedBy == ActorOf(log, id, WasApplied)
    && (r.resolved <==> r.status in {Rejected, Applied})
  }

  ghost predicate Signed(db: Db) {
    forall id :: id in db.recs ==> RowSigned(db.log, id, db.recs[id])
  }

  lemma LoggedSigned(db: Db, id: nat, r: Rec, kind: EventKind, actor: string)
    requires Signed(db) && id in db.recs
    requires r.approvedBy == if kind == WasApproved then Some(actor) else db.recs[id].approvedBy
    requires r.appliedBy == if kind == WasApplied then Some(actor) else db.recs[id].appliedBy
    requires r.resolved <==> r.status in {Rejected, Applied}
    ensures Signed(Logged(db, id, r, kind, actor))
  {
    var db' := Logged(db, id, r, kind, actor);
    forall i: nat | i in db'.recs
      ensures RowSigned(db'.log, i, db'.recs[i])
    {
      assert RowSigned(db.log, i, db.recs[i]);
      ActorAppended(db.log, Event(id, kind, actor), i, WasApproved);
      ActorAppended(db.log, Event(id, kind, actor), i, WasApplied);
    }
  }

  lemma CreateOneSigned(db: Db, d: Draft)
    requires Signed(db) && Consistent(db)
    ensures Signed(CreatedOne(db, d)) && Consistent(CreatedOne(db, d))
  {
    var db' := CreatedOne(db, d);
    forall i: nat | i in db'.recs
      ensures RowSigned(db'.log, i, db'.recs[i])
    {
      ActorAppended(db.log, Event(db.nextId, Created, "system"), i, WasApproved);
      ActorAppended(db.log, Event(db.nextId, Created, "system"), i, WasApplied);
      if i == db.nextId {
        NoActorYet(db.log, i, WasApproved);
        NoActorYet(db.log, i, WasApplied);
      } else {
        assert RowSigned(db.log, i, db.recs[i]);
      }
    }
  }

  lemma {:induction false} CreateSigned(db: Db, drafts: seq<Draft>)
    requires Signed(db) && Consistent(db)
    ensures Signed(CreatedAll(db, drafts)) && Consistent(CreatedAll(db, drafts))
  {
    if drafts != [] {
      CreateSigned(db, drafts[..|drafts| - 1]);
      CreateOneSigned(CreatedAll(db, drafts[..|drafts| - 1]), drafts[|drafts| - 1]);
    }
  }

  lemma SimulateSigned(db: Db, id: nat, delta: real)
    requires Signed(db)
    ensures Signed(Simulated(db, id, delta).0)
  {
    if id in db.recs { assert RowSigned(db.log, id, db.recs[id]); }
  }

  lemma FeedbackSigned(db: Db, id: nat, decision: Decision, operator: string)
    requires Signed(db)
    ensures Signed(FedBack(db, id, decision, operator).0)
  {
    if id in db.recs && db.recs[id].status in {Pending, Accepted} && decision != OtherDecision {
      var r := db.recs[id];
      assert RowSigned(db.log, id, r);
      if decision == Accept {
        LoggedSigned(db, id, r.(status := Accepted), WasAccepted, operator);
      } else {
        LoggedSigned(db, id, r.(status := Rejected, resolved := true), WasRejected, operator);
      }
    }
  }

  lemma ApproveSigned(db: Db, id: nat, actor: string)
    requires Signed(db)
    ensures Signed(ApprovedDb(db, id, actor).0)
  {
    if id in db.recs && db.recs[id].status == Accepted {
      assert RowSigned(db.log, id, db.recs[id]);
      LoggedSigned(db, id, db.recs[id].(status := Approved, approvedBy := Some(actor)), WasApproved, actor);
    }
  }

  lemma RecordSigned(db: Db, id: nat, s: Sending, actor: string, live: Option<real>)
    requires Signed(db) && id in db.recs && db.recs[id].status == Approved
    ensures Signed(Recorded(db, id, s, actor, live).0)
  {
    var r := db.recs[id];
    assert RowSigned(db.log, id, r);
    match s {
      case NotAllowed => LoggedSigned(db, id, r.(status := Failed), ApplyFailed, actor);
      case Broken(_, _) =>
      case DryRun(_) => LoggedSigned(db, id, Closed(r, actor, DryRunMode, live), WasApplied, actor);
      case Live(_) => LoggedSigned(db, id, Closed(r, actor, LiveMode, live), WasApplied, actor);
    }
  }

  lemma ApplySigned(cfg: Config, db: Db, id: nat, actor: string, dryRun: Option<bool>, library: bool, link: Link,
                    live: Option<real>)
    requires Signed(db)
    ensures Signed(AppliedDb(db, cfg, id, actor, dryRun, library, link, live).0)
  {
    if id in db.recs && db.recs[id].status == Approved && (cfg.requireSimulation ==> db.recs[id].simDelta.Some?) {
      var s := SendingOf(cfg, db.recs[id].plant, db.recs[id].proposed, dryRun, library, link);
      RecordSigned(db.(sent := db.sent + SentBy(id, Sent(s), |db.log|)), id, s, actor, live);
    }
  }

  lemma ImpactSigned(db: Db, id: nat, actor: string, current: Option<real>)
    requires Signed(db)
    ensures Signed(Measured(db, id, actor, current).0)
  {
    if id in db.recs && db.recs[id].status in {Applied, Approved, Accepted} {
      var r := db.recs[id];
      assert RowSigned(db.log, id, r);
      if r.baseline.Some? && current.Some? {
        LoggedSigned(db, id, r.(realized := Some(Saving(r.baseline.value, current.value, FeedOf(r.proposed)))), Impact,
                     actor);
      } else if r.estimate.Some? && r.status == Applied {
        LoggedSigned(db, id, r.(realized := r.estimate), Impact, actor);
      }
    }
  }

  lemma StepSigned(cfg: Config, db: Db, op: Op)
    requires Signed(db) && Consistent(db)
    ensures Signed(Step(cfg, db, op))
  {
    match op
    case Create(drafts) => CreateSigned(db, drafts);
    case Tick(advice) => CreateSigned(db, Unsimulated(advice));
    case Simulate(id, delta) => SimulateSigned(db, id, delta);
    case Feedback(id, decision, operator) => FeedbackSigned(db, id, decision, operator);
    case Approve(id, actor) => ApproveSigned(db, id, actor);
    case Apply(id, actor, dryRun, library, link, live) => ApplySigned(cfg, db, id, actor, dryRun, library, link, live);
    case MeasureImpact(id, actor, current) => ImpactSigned(db, id, actor, current);
  }

  lemma {:induction false} RunSigned(cfg: Config, db: Db, ops: seq<Op>)
    requires Signed(db) && Inv(cfg, db)
    ensures Signed(Run(cfg, db, ops))
    decreases |ops|
  {
    if ops != [] {
      StepSigned(cfg, db, ops[0]);
      StepKeeps(cfg, db, ops[0]);
      RunSigned(cfg, Step(cfg, db, ops[0]), ops[1..]);
    }
  }

  /** In every run the row and the log agree on who approved and who applied a recommendation,
      and it is resolved exactly when it was rejected or applied. */
  lemma {:induction false} SignersMatchLog(cfg: Config, ops: seq<Op>, id: nat)
    requires id in Run(cfg, EMPTY, ops).recs
    ensures var db := Run(cfg, EMPTY, ops); RowSigned(db.log, id, db.recs[id])
  {
    RunSigned(cfg, EMPTY, ops);
  }
}
