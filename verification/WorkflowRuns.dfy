/** What holds after every sequence of recommendation operations. */
module WorkflowRuns {
  import opened Options
  import opened Trails
  import opened SetpointWrites
  import opened Workflow

  /** An RTO tick that is due queues its advice as drafts without a simulation. */
  datatype Op =
    | Create(drafts: seq<Draft>)
    | Tick(advice: seq<Draft>)
    | Simulate(id: nat, delta: real)
    | Feedback(id: nat, decision: Decision, operator: string)
    | Approve(id: nat, actor: string)
    | Apply(id: nat, actor: string, dryRun: Option<bool>, library: bool, link: Link, live: Option<real>)
    | MeasureImpact(id: nat, actor: string, current: Option<real>)

  function Unsimulated(advice: seq<Draft>): (r: seq<Draft>)
    ensures |r| == |advice|
    ensures forall k :: 0 <= k < |r| ==> r[k] == advice[k].(simDelta := None)
  {
    seq(|advice|, k requires 0 <= k < |advice| => advice[k].(simDelta := None))
  }

  function Step(cfg: Config, db: Db, op: Op): Db {
    match op
    case Create(drafts) => CreatedAll(db, drafts)
    case Tick(advice) => CreatedAll(db, Unsimulated(advice))
    case Simulate(id, delta) => Simulated(db, id, delta).0
    case Feedback(id, decision, operator) => FedBack(db, id, decision, operator).0
    case Approve(id, actor) => ApprovedDb(db, id, actor).0
    case Apply(id, actor, dryRun, library, link, live) => AppliedDb(db, cfg, id, actor, dryRun, library, link, live).0
    case MeasureImpact(id, actor, current) => Measured(db, id, actor, current).0
  }

  /** What the caller is told. */
  function Answer(cfg: Config, db: Db, op: Op): Outcome {
    match op
    case Create(_) => Done
    case Tick(_) => Done
    case Simulate(id, delta) => Simulated(db, id, delta).1
    case Feedback(id, decision, operator) => FedBack(db, id, decision, operator).1
    case Approve(id, actor) => ApprovedDb(db, id, actor).1
    case Apply(id, actor, dryRun, library, link, live) => AppliedDb(db, cfg, id, actor, dryRun, library, link, live).1
    case MeasureImpact(id, actor, current) => Measured(db, id, actor, current).1
  }

  function Run(cfg: Config, db: Db, ops: seq<Op>): Db
    decreases |ops|
  {
    if ops == [] then db else Run(cfg, Step(cfg, db, ops[0]), ops[1..])
  }

  const EMPTY := Db(map[], 1, [], [])

  // ----- the log ------------------------------------------------------------------------------

  /** The permitted transitions; `Impact` leaves the status alone. */
  function Moved(s: Status, e: EventKind): Option<Status> {
    match e
    case Created => None
    case WasAccepted => if s in {Pending, Accepted} then Some(Accepted) else None
    case WasRejected => if s in {Pending, Accepted} then Some(Rejected) else None
    case WasApproved => if s == Accepted then Some(Approved) else None
    case WasApplied => if s == Approved then Some(Applied) else None
    case ApplyFailed => if s == Approved then Some(Failed) else None
    case Impact => if s in {Accepted, Approved, Applied} then Some(s) else None
  }

  /** The status a log leads to, if it starts with its creation and every step was permitted. */
  function Replay(events: seq<EventKind>): Option<Status> {
    if events == [] then None
    else if events == [Created] then Some(Pending)
    else
      match Replay(events[..|events| - 1])
      case None => None
      case Some(s) => Moved(s, events[|events| - 1])
  }

  function WithoutImpacts(events: seq<EventKind>): seq<EventKind> {
    if events == [] then []
    else
      var last := events[|events| - 1];
      WithoutImpacts(events[..|events| - 1]) + (if last == Impact then [] else [last])
  }

  function Accepts(n: nat): seq<EventKind> { seq(n, i => WasAccepted) }

  /** The log, impacts aside, that each status stands for. */
  ghost predicate LogShape(events: seq<EventKind>, s: Status) {
    var steps := WithoutImpacts(events);
    match s
    case Pending => steps == [Created]
    case Accepted => exists n: nat :: n > 0 && steps == [Created] + Accepts(n)
    case Rejected => exists n: nat :: steps == [Created] + Accepts(n) + [WasRejected]
    case Approved => exists n: nat :: n > 0 && steps == [Created] + Accepts(n) + [WasApproved]
    case Applied => exists n: nat :: n > 0 && steps == [Created] + Accepts(n) + [WasApproved, WasApplied]
    case Failed => exists n: nat :: n > 0 && steps == [Created] + Accepts(n) + [WasApproved, ApplyFailed]
  }

  lemma {:induction false} ReplayShape(events: seq<EventKind>, s: Status)
    requires Replay(events) == Some(s)
    ensures LogShape(events, s)
  {
    if events == [Created] {
      assert events[..0] == [];
      assert WithoutImpacts([]) == [];
    } else {
      var rest, last := events[..|events| - 1], events[|events| - 1];
      var t := Replay(rest).value;
      ReplayShape(rest, t);
      var steps := WithoutImpacts(rest);
      if last == Impact {
        assert WithoutImpacts(events) == steps + [] == steps;
      } else {
        assert WithoutImpacts(events) == steps + [last];
        ShapeExtends(steps, t, last);
      }
    }
  }

  lemma ShapeExtends(steps: seq<EventKind>, t: Status, last: EventKind)
    requires last != Impact && Moved(t, last).Some?
    requires t == Pending ==> steps == [Created]
    requires t == Accepted ==> exists n: nat :: n > 0 && steps == [Created] + Accepts(n)
    requires t == Approved ==> exists n: nat :: n > 0 && steps == [Created] + Accepts(n) + [WasApproved]
    ensures Moved(t, last) == Some(Accepted) ==> exists n: nat :: n > 0 && steps + [last] == [Created] + Accepts(n)
    ensures Moved(t, last) == Some(Rejected)
            ==> exists n: nat :: steps + [last] == [Created] + Accepts(n) + [WasRejected]
    ensures Moved(t, last) == Some(Approved)
            ==> exists n: nat :: n > 0 && steps + [last] == [Created] + Accepts(n) + [WasApproved]
    ensures Moved(t, last) == Some(Applied)
            ==> exists n: nat :: n > 0 && steps + [last] == [Created] + Accepts(n) + [WasApproved, WasApplied]
    ensures Moved(t, last) == Some(Failed)
            ==> exists n: nat :: n > 0 && steps + [last] == [Created] + Accepts(n) + [WasApproved, ApplyFailed]
  {
    if t == Pending {
      assert steps + [WasAccepted] == [Created] + Accepts(1);
      assert steps + [WasRejected] == [Created] + Accepts(0) + [WasRejected];
    } else if t == Accepted {
      var n: nat :| n > 0 && steps == [Created] + Accepts(n);
      assert steps + [WasAccepted] == [Created] + Accepts(n + 1);
    } else {
      var n: nat :| n > 0 && steps == [Created] + Accepts(n) + [WasApproved];
      assert steps + [WasApplied] == [Created] + Accepts(n) + [WasApproved, WasApplied];
      assert steps + [ApplyFailed] == [Created] + Accepts(n) + [WasApproved, ApplyFailed];
    }
  }

  // ----- the invariant ------------------------------------------------------------------------

  ghost predicate Consistent(db: Db) {
    && (forall id :: id in db.recs ==> id < db.nextId)
    && (forall k :: 0 <= k < |db.log| ==> db.log[k].subject < db.nextId)
  }

  ghost predicate LogTellsStatus(db: Db) {
    forall id :: id in db.recs ==> Replay(EventsOf(db.log, id)) == Some(db.recs[id].status)
  }

  /** The value went out under an approved, simulated recommendation that proposed it, to an
      allowlisted tag, with live writing enabled. */
  ghost predicate Sanctioned(cfg: Config, db: Db, v: SentValue) {
    && v.rec in db.recs && v.logLength <= |db.log|
    && Replay(EventsOf(db.log[..v.logLength], v.rec)) == Some(Approved)
    && (cfg.requireSimulation ==> db.recs[v.rec].simDelta.Some?)
    && cfg.writeEnabled && cfg.endpointSet
    && db.recs[v.rec].plant in cfg.tags
    && v.write in PlanFor(cfg, cfg.tags[db.recs[v.rec].plant], db.recs[v.rec].proposed).planned
  }

  ghost predicate AllSanctioned(cfg: Config, db: Db) {
    forall k :: 0 <= k < |db.sent| ==> Sanctioned(cfg, db, db.sent[k])
  }

  ghost predicate Inv(cfg: Config, db: Db) {
    Consistent(db) && LogTellsStatus(db) && AllSanctioned(cfg, db)
  }

  /** How a step may change the table: rows stay, keep what they propose, never lose their
      simulation, and closed ones keep their status; the log and the sent values only grow. */
  ghost predicate Grows(db: Db, db': Db) {
    && db.nextId <= db'.nextId && db.log <= db'.log && db.sent <= db'.sent
    && forall id :: id in db.recs ==> id in db'.recs && RowGrows(db.recs[id], db'.recs[id])
  }

  ghost predicate RowGrows(r: Rec, r': Rec) {
    && r'.plant == r.plant && r'.proposed == r.proposed
    && (r.simDelta.Some? ==> r'.simDelta.Some?)
    && (r.status in {Rejected, Applied, Failed} ==> r'.status == r.status)
  }

  lemma StillSanctioned(cfg: Config, db: Db, db': Db, v: SentValue)
    requires Sanctioned(cfg, db, v) && Grows(db, db')
    ensures Sanctioned(cfg, db', v)
  {
    assert db'.log[..v.logLength] == db.log[..v.logLength];
  }

  /** One logged transition of one existing row. */
  lemma LoggedKeeps(cfg: Config, db: Db, id: nat, r: Rec, kind: EventKind, actor: string)
    requires Inv(cfg, db) && id in db.recs
    requires Moved(db.recs[id].status, kind) == Some(r.status)
    requires r.plant == db.recs[id].plant && r.proposed == db.recs[id].proposed && r.simDelta == db.recs[id].simDelta
    ensures Inv(cfg, Logged(db, id, r, kind, actor)) && Grows(db, Logged(db, id, r, kind, actor))
  {
    LoggedTells(db, id, r, kind, actor);
    LoggedGrows(db, id, r, kind, actor);
    SentStaysSanctioned(cfg, db, Logged(db, id, r, kind, actor));
  }

  lemma LoggedGrows(db: Db, id: nat, r: Rec, kind: EventKind, actor: string)
    requires Consistent(db) && id in db.recs && Moved(db.recs[id].status, kind) == Some(r.status)
    requires r.plant == db.recs[id].plant && r.proposed == db.recs[id].proposed && r.simDelta == db.recs[id].simDelta
    ensures Consistent(Logged(db, id, r, kind, actor)) && Grows(db, Logged(db, id, r, kind, actor))
  {
    assert RowGrows(db.recs[id], r);
  }

  lemma LoggedTells(db: Db, id: nat, r: Rec, kind: EventKind, actor: string)
    requires LogTellsStatus(db) && id in db.recs && Moved(db.recs[id].status, kind) == Some(r.status)
    ensures LogTellsStatus(Logged(db, id, r, kind, actor))
  {
    var db' := Logged(db, id, r, kind, actor);
    forall i: nat | i in db.recs
      ensures Replay(EventsOf(db'.log, i)) == Some(db'.recs[i].status)
    {
      EventAppended(db.log, Event(id, kind, actor), i);
      var was := EventsOf(db.log, i);
      if i == id {
        assert (was + [kind])[..|was|] == was;
      } else {
        assert was + [] == was;
      }
    }
  }

  lemma SentStaysSanctioned(cfg: Config, db: Db, db': Db)
    requires AllSanctioned(cfg, db) && Grows(db, db') && db'.sent == db.sent
    ensures AllSanctioned(cfg, db')
  {
    forall k | 0 <= k < |db'.sent|
      ensures Sanctioned(cfg, db', db'.sent[k])
    {
      StillSanctioned(cfg, db, db', db.sent[k]);
    }
  }

  lemma CreateOneKeeps(cfg: Config, db: Db, d: Draft)
    requires Inv(cfg, db)
    ensures Inv(cfg, CreatedOne(db, d)) && Grows(db, CreatedOne(db, d))
  {
    CreateOneTells(db, d);
    SentStaysSanctioned(cfg, db, CreatedOne(db, d));
  }

  lemma CreateOneTells(db: Db, d: Draft)
    requires Consistent(db) && LogTellsStatus(db)
    ensures LogTellsStatus(CreatedOne(db, d))
  {
    var db' := CreatedOne(db, d);
    forall i: nat | i in db'.recs
      ensures Replay(EventsOf(db'.log, i)) == Some(db'.recs[i].status)
    {
      EventAppended(db.log, Event(db.nextId, Created, "system"), i);
      if i == db.nextId {
        NoEventsYet(db.log, i);
        assert EventsOf(db'.log, i) == [Created];
      } else {
        assert EventsOf(db.log, i) + [] == EventsOf(db.log, i);
      }
    }
  }

  lemma {:induction false} CreateKeeps(cfg: Config, db: Db, drafts: seq<Draft>)
    requires Inv(cfg, db)
    ensures Inv(cfg, CreatedAll(db, drafts)) && Grows(db, CreatedAll(db, drafts))
  {
    if drafts != [] {
      var before := drafts[..|drafts| - 1];
      CreateKeeps(cfg, db, before);
      CreateOneKeeps(cfg, CreatedAll(db, before), drafts[|drafts| - 1]);
    }
  }

  lemma SimulateKeeps(cfg: Config, db: Db, id: nat, delta: real)
    requires Inv(cfg, db)
    ensures Inv(cfg, Simulated(db, id, delta).0) && Grows(db, Simulated(db, id, delta).0)
  {
    SentStaysSanctioned(cfg, db, Simulated(db, id, delta).0);
  }

  /** Values going out under an approved recommendation that passed the gates. */
  lemma SendKeeps(cfg: Config, db: Db, id: nat, dryRun: Option<bool>, library: bool, link: Link)
    requires Inv(cfg, db) && id in db.recs && db.recs[id].status == Approved
    requires cfg.requireSimulation ==> db.recs[id].simDelta.Some?
    ensures var s := SendingOf(cfg, db.recs[id].plant, db.recs[id].proposed, dryRun, library, link);
            var db' := db.(sent := db.sent + SentBy(id, Sent(s), |db.log|));
            Inv(cfg, db') && Grows(db, db')
  {
    var s := SendingOf(cfg, db.recs[id].plant, db.recs[id].proposed, dryRun, library, link);
    var db' := db.(sent := db.sent + SentBy(id, Sent(s), |db.log|));
    assert db.log[..|db.log|] == db.log;
    forall k | 0 <= k < |db'.sent|
      ensures Sanctioned(cfg, db', db'.sent[k])
    {
      if k < |db.sent| {
        StillSanctioned(cfg, db, db', db.sent[k]);
      } else {
        assert db'.sent[k] == SentValue(id, Sent(s)[k - |db.sent|], |db.log|);
      }
    }
  }

  lemma ApplyKeeps(cfg: Config, db: Db, id: nat, actor: string, dryRun: Option<bool>, library: bool, link: Link,
                   live: Option<real>)
    requires Inv(cfg, db)
    ensures var db' := AppliedDb(db, cfg, id, actor, dryRun, library, link, live).0;
            Inv(cfg, db') && Grows(db, db')
  {
    if id in db.recs && db.recs[id].status == Approved && (cfg.requireSimulation ==> db.recs[id].simDelta.Some?) {
      var s := SendingOf(cfg, db.recs[id].plant, db.recs[id].proposed, dryRun, library, link);
      SendKeeps(cfg, db, id, dryRun, library, link);
      RecordKeeps(cfg, db.(sent := db.sent + SentBy(id, Sent(s), |db.log|)), id, s, actor, live);
    }
  }

  lemma RecordKeeps(cfg: Config, db: Db, id: nat, s: Sending, actor: string, live: Option<real>)
    requires Inv(cfg, db) && id in db.recs && db.recs[id].status == Approved
    ensures Inv(cfg, Recorded(db, id, s, actor, live).0) && Grows(db, Recorded(db, id, s, actor, live).0)
  {
    var r := db.recs[id];
    match s {
      case NotAllowed => LoggedKeeps(cfg, db, id, r.(status := Failed), ApplyFailed, actor);
      case Broken(_, _) =>
      case DryRun(_) => LoggedKeeps(cfg, db, id, Closed(r, actor, DryRunMode, live), WasApplied, actor);
      case Live(_) => LoggedKeeps(cfg, db, id, Closed(r, actor, LiveMode, live), WasApplied, actor);
    }
  }

  lemma FeedbackKeeps(cfg: Config, db: Db, id: nat, decision: Decision, operator: string)
    requires Inv(cfg, db)
    ensures Inv(cfg, FedBack(db, id, decision, operator).0) && Grows(db, FedBack(db, id, decision, operator).0)
  {
    if id in db.recs && db.recs[id].status in {Pending, Accepted} && decision != OtherDecision {
      var r := db.recs[id];
      if decision == Accept {
        LoggedKeeps(cfg, db, id, r.(status := Accepted), WasAccepted, operator);
      } else {
        LoggedKeeps(cfg, db, id, r.(status := Rejected, resolved := true), WasRejected, operator);
      }
    }
  }

  lemma ApproveKeeps(cfg: Config, db: Db, id: nat, actor: string)
    requires Inv(cfg, db)
    ensures Inv(cfg, ApprovedDb(db, id, actor).0) && Grows(db, ApprovedDb(db, id, actor).0)
  {
    if id in db.recs && db.recs[id].status == Accepted {
      LoggedKeeps(cfg, db, id, db.recs[id].(status := Approved, approvedBy := Some(actor)), WasApproved, actor);
    }
  }

  lemma ImpactKeeps(cfg: Config, db: Db, id: nat, actor: string, current: Option<real>)
    requires Inv(cfg, db)
    ensures Inv(cfg, Measured(db, id, actor, current).0) && Grows(db, Measured(db, id, actor, current).0)
  {
    if id in db.recs && db.recs[id].status in {Applied, Approved, Accepted} {
      var r := db.recs[id];
      if r.baseline.Some? && current.Some? {
        LoggedKeeps(cfg, db, id, r.(realized := Some(Saving(r.baseline.value, current.value, FeedOf(r.proposed)))),
                    Impact, actor);
      } else if r.estimate.Some? && r.status == Applied {
        LoggedKeeps(cfg, db, id, r.(realized := r.estimate), Impact, actor);
      }
    }
  }

  lemma StepKeeps(cfg: Config, db: Db, op: Op)
    requires Inv(cfg, db)
    ensures Inv(cfg, Step(cfg, db, op)) && Grows(db, Step(cfg, db, op))
  {
    match op
    case Create(drafts) => CreateKeeps(cfg, db, drafts);
    case Tick(advice) => CreateKeeps(cfg, db, Unsimulated(advice));
    case Simulate(id, delta) => SimulateKeeps(cfg, db, id, delta);
    case Feedback(id, decision, operator) => FeedbackKeeps(cfg, db, id, decision, operator);
    case Approve(id, actor) => ApproveKeeps(cfg, db, id, actor);
    case Apply(id, actor, dryRun, library, link, live) => ApplyKeeps(cfg, db, id, actor, dryRun, library, link, live);
    case MeasureImpact(id, actor, current) => ImpactKeeps(cfg, db, id, actor, current);
  }

  lemma {:induction false} RunKeeps(cfg: Config, db: Db, ops: seq<Op>)
    requires Inv(cfg, db)
    ensures Inv(cfg, Run(cfg, db, ops)) && Grows(db, Run(cfg, db, ops))
    decreases |ops|
  {
    if ops != [] {
      StepKeeps(cfg, db, ops[0]);
      RunKeeps(cfg, Step(cfg, db, ops[0]), ops[1..]);
    }
  }

  // ----- main results -------------------------------------------------------------------------

  /** In every run the log tells each status, and its shape is the one that status stands for. */
  lemma {:induction false} StatusMatchesLog(cfg: Config, ops: seq<Op>, id: nat)
    requires id in Run(cfg, EMPTY, ops).recs
    ensures var db := Run(cfg, EMPTY, ops);
            Replay(EventsOf(db.log, id)) == Some(db.recs[id].status)
              && LogShape(EventsOf(db.log, id), db.recs[id].status)
  {
    RunKeeps(cfg, EMPTY, ops);
    var db := Run(cfg, EMPTY, ops);
    ReplayShape(EventsOf(db.log, id), db.recs[id].status);
  }

  /** No action without approval: every value ever sent, also by a write that broke off midway,
      was planned from a recommendation whose log at that moment read created, accepted (once
      or more), approved; and, with the gate on, one that had been simulated.  It is a proposed
      value, of an allowlisted field with a writable tag, and it went to that tag's write node. */
  lemma {:induction false} NoActionWithoutApproval(cfg: Config, ops: seq<Op>, v: SentValue)
    requires v in Run(cfg, EMPTY, ops).sent
    ensures var db := Run(cfg, EMPTY, ops);
            && Sanctioned(cfg, db, v)
            && LogShape(EventsOf(db.log[..v.logLength], v.rec), Approved)
            && IsPlanned(cfg, cfg.tags[db.recs[v.rec].plant], db.recs[v.rec].proposed, v.write)
  {
    RunKeeps(cfg, EMPTY, ops);
    SentIsSanctioned(cfg, Run(cfg, EMPTY, ops), v);
  }

  lemma SentIsSanctioned(cfg: Config, db: Db, v: SentValue)
    requires AllSanctioned(cfg, db) && v in db.sent
    ensures Sanctioned(cfg, db, v)
    ensures LogShape(EventsOf(db.log[..v.logLength], v.rec), Approved)
    ensures IsPlanned(cfg, cfg.tags[db.recs[v.rec].plant], db.recs[v.rec].proposed, v.write)
  {
    var k :| 0 <= k < |db.sent| && db.sent[k] == v;
    assert Sanctioned(cfg, db, db.sent[k]);
    ReplayShape(EventsOf(db.log[..v.logLength], v.rec), Approved);
    PlanPartitions(cfg, cfg.tags[db.recs[v.rec].plant], db.recs[v.rec].proposed);
  }

  /** Rejected, applied and failed are final: no later run changes them. */
  lemma {:induction false} ClosedStaysClosed(cfg: Config, ops: seq<Op>, more: seq<Op>, id: nat)
    requires var db := Run(cfg, EMPTY, ops); id in db.recs && db.recs[id].status in {Rejected, Applied, Failed}
    ensures var db := Run(cfg, EMPTY, ops);
            id in Run(cfg, db, more).recs && Run(cfg, db, more).recs[id].status == db.recs[id].status
  {
    RunKeeps(cfg, EMPTY, ops);
    RunKeeps(cfg, Run(cfg, EMPTY, ops), more);
  }

  /** Pending and untouched, as the advice has it, and not simulated. */
  predicate IsQueued(r: Rec, d: Draft) {
    && r.status == Pending && !r.resolved
    && r.plant == d.plant && r.proposed == d.proposed && r.estimate == d.estimate && r.simDelta == None
    && r.approvedBy == r.appliedBy == None && r.mode == None && r.baseline == r.realized == None
  }

  /** An RTO tick sends nothing, touches no existing recommendation, and adds one pending,
      unsimulated recommendation for each piece of advice. */
  lemma TickOnlyAddsPending(cfg: Config, db: Db, advice: seq<Draft>)
    requires Consistent(db)
    ensures var db' := Step(cfg, db, Tick(advice));
            && db'.sent == db.sent
            && (forall id :: id in db'.recs <==> id in db.recs || db.nextId <= id < db.nextId + |advice|)
            && (forall id :: id in db.recs ==> db'.recs[id] == db.recs[id])
            && (forall k :: 0 <= k < |advice| ==> IsQueued(db'.recs[db.nextId + k], advice[k]))
  {
    CreatedRows(db, Unsimulated(advice));
  }

  lemma {:induction false} CreatedRows(db: Db, drafts: seq<Draft>)
    requires Consistent(db)
    ensures var db' := CreatedAll(db, drafts);
            && db'.sent == db.sent && db'.nextId == db.nextId + |drafts|
            && (forall id :: id in db'.recs <==> id in db.recs || db.nextId <= id < db.nextId + |drafts|)
            && (forall id :: id in db.recs ==> db'.recs[id] == db.recs[id])
            && (forall k :: 0 <= k < |drafts| ==> db'.recs[db.nextId + k] == NewRec(drafts[k]))
  {
    if drafts != [] {
      CreatedRows(db, drafts[..|drafts| - 1]);
    }
  }

  function IsDry(cfg: Config, dryRun: Option<bool>): bool {
    if dryRun.Some? then dryRun.value else cfg.dryRunDefault
  }

  /** A dry apply sends nothing; a live one that reports success has sent its whole plan, which
      is not empty; any other sends at most a first part of it. */
  lemma {:induction false} AppliedSends(cfg: Config, db: Db, id: nat, actor: string, dryRun: Option<bool>,
                                        library: bool, link: Link,
                     live: Option<real>)
    ensures var (db', outcome) := AppliedDb(db, cfg, id, actor, dryRun, library, link, live);
            && (IsDry(cfg, dryRun) || outcome !in {Done, LinkError} ==> db'.sent == db.sent)
            && (outcome == Done ==>
                  && id in db'.recs && db.recs[id].plant in cfg.tags
                  && db'.recs[id].mode == Some(if IsDry(cfg, dryRun) then DryRunMode else LiveMode))
            && (outcome in {Done, LinkError} && !IsDry(cfg, dryRun) ==>
                  var planned := PlanFor(cfg, cfg.tags[db.recs[id].plant], db.recs[id].proposed).planned;
                  && planned != [] && db'.sent <= db.sent + SentBy(id, planned, |db.log|)
                  && (outcome == Done ==> db'.sent == db.sent + SentBy(id, planned, |db.log|)))
  {
    if id in db.recs {
      var s := SendingOf(cfg, db.recs[id].plant, db.recs[id].proposed, dryRun, library, link);
      if s.Live? || s.Broken? {
        SentPart(id, s.plan.planned, |Sent(s)|, |db.log|);
        assert Sent(s) == s.plan.planned[..|Sent(s)|];
      } else {
        assert db.sent + SentBy(id, Sent(s), |db.log|) == db.sent;
      }
    }
  }

  lemma SentPart(id: nat, writes: seq<Write>, count: nat, logLength: nat)
    requires count <= |writes|
    ensures SentBy(id, writes[..count], logLength) == SentBy(id, writes, logLength)[..count]
  {
  }

  /** Over a whole run of dry applies nothing is ever sent. */
  lemma {:induction false} DryRunsSendNothing(cfg: Config, db: Db, ops: seq<Op>)
    requires forall k :: 0 <= k < |ops| && ops[k].Apply? ==> IsDry(cfg, ops[k].dryRun)
    ensures Run(cfg, db, ops).sent == db.sent
    decreases |ops|
  {
    if ops != [] {
      match ops[0] {
        case Create(drafts) => CreatingSendsNothing(db, drafts);
        case Tick(advice) => CreatingSendsNothing(db, Unsimulated(advice));
        case Apply(id, actor, dryRun, library, link, live) =>
          AppliedSends(cfg, db, id, actor, dryRun, library, link, live);
        case _ =>
      }
      DryRunsSendNothing(cfg, Step(cfg, db, ops[0]), ops[1..]);
    }
  }

  lemma {:induction false} CreatingSendsNothing(db: Db, drafts: seq<Draft>)
    ensures CreatedAll(db, drafts).sent == db.sent
  {
    if drafts != [] { CreatingSendsNothing(db, drafts[..|drafts| - 1]); }
  }

  /** The apply passes every gate, has something to write, and the link breaks after the first
      write. */
  predicate BreaksAfterSending(cfg: Config, db: Db, id: nat, dryRun: Option<bool>, library: bool, link: Link) {
    && id in db.recs && db.recs[id].status == Approved
    && (cfg.requireSimulation ==> db.recs[id].simDelta.Some?)
    && db.recs[id].plant in cfg.tags && !IsDry(cfg, dryRun)
    && cfg.writeEnabled && cfg.endpointSet && library
    && PlanFor(cfg, cfg.tags[db.recs[id].plant], db.recs[id].proposed).planned != []
    && link.Breaks? && link.count > 0
  }

  /** An apply sends values that the log never learns of exactly when it passes every gate and the
      link then breaks after the first write: the recommendation stays approved, ready to be sent
      again. */
  lemma UnloggedWritesIff(cfg: Config, db: Db, id: nat, actor: string, dryRun: Option<bool>, library: bool,
                          link: Link, live: Option<real>)
    ensures var db' := AppliedDb(db, cfg, id, actor, dryRun, library, link, live).0;
            && (db'.sent != db.sent && db'.log == db.log <==> BreaksAfterSending(cfg, db, id, dryRun, library, link))
            && (BreaksAfterSending(cfg, db, id, dryRun, library, link) ==> db'.recs == db.recs)
  {
    if id in db.recs {
      var s := SendingOf(cfg, db.recs[id].plant, db.recs[id].proposed, dryRun, library, link);
      var sent := SentBy(id, Sent(s), |db.log|);
      assert |db.sent + sent| == |db.sent| + |sent|;
      assert |sent| == 0 ==> db.sent + sent == db.sent;
    }
  }

  /** A recommendation whose link breaks twice sends its values twice under one approval. */
  lemma {:induction false} SentTwice(cfg: Config, db: Db, id: nat, actor: string, library: bool, link: Link,
                                     live: Option<real>)
    requires BreaksAfterSending(cfg, db, id, Some(false), library, link)
    ensures var again := AppliedDb(AppliedDb(db, cfg, id, actor, Some(false), library, link, live).0,
                                   cfg, id, actor, Some(false), library, link, live).0;
            var planned := PlanFor(cfg, cfg.tags[db.recs[id].plant], db.recs[id].proposed).planned;
            var sent := SentBy(id, planned[..Min(link.count, |planned|)], |db.log|);
            sent != [] && again.sent == db.sent + sent + sent && again.log == db.log
  {
  }
}
