/** The in-memory recommendation store (app/demo/memory_recs.py) behind the memory branches of
    app/api/routes/optimization.py. */
module MemoryRecs {
  import opened Options
  import opened SetpointWrites
  import W = Workflow
  import Runs = WorkflowRuns

  const ID_BASE: nat := 900_000

  type Status = W.Status

  /** The event type is "created" or the status that was set. */
  datatype Kind = Created | Set(status: Status)
  datatype Event = Event(id: nat, rec: nat, kind: Kind, actor: string)

  datatype Mode = AsDryRun | AsWrite

  datatype Rec = Rec(
    plant: string, proposed: seq<Setpoint>, estimate: Option<real>, simDelta: Option<real>, status: Status,
    approvedBy: Option<string>, approvedAt: Option<int>, appliedBy: Option<string>, appliedAt: Option<int>,
    mode: Option<Mode>, baseline: Option<real>, realized: Option<real>, resolvedAt: Option<int>)

  /** An extra keyword of `set_status`: it is stored on the row and written to the audit event. */
  datatype Extra =
    | ResolvedAt(at: Option<int>)
    | ApprovedBy(user: string)
    | ApprovedAt(time: int)
    | AppliedBy(user: string)
    | AppliedAt(time: int)
    | ApplyMode(mode: Mode)
    | Realized(saving: real)

  datatype Db = Db(recs: map<nat, Rec>, nextId: nat, log: seq<Event>, nextEvent: nat)

  datatype Outcome = Done | NotFound | BadDecision | BadStatus(status: Status) | NotSerializable

  // ----- the operations as functions of the state ---------------------------------------------

  function NewRec(d: W.Draft): Rec {
    Rec(d.plant, d.proposed, d.estimate, d.simDelta, W.Pending, None, None, None, None, None, None, None, None)
  }

  /** `json.dumps` refuses timestamps. */
  predicate IsTimestamp(e: Extra) {
    e.ApprovedAt? || e.AppliedAt? || (e.ResolvedAt? && e.at.Some?)
  }

  predicate Serializable(extras: seq<Extra>) {
    forall e :: e in extras ==> !IsTimestamp(e)
  }

  function With(r: Rec, e: Extra): (r': Rec)
    ensures Core(r') == Core(r)
  {
    match e
    case ResolvedAt(at) => r.(resolvedAt := at)
    case ApprovedBy(user) => r.(approvedBy := Some(user))
    case ApprovedAt(time) => r.(approvedAt := Some(time))
    case AppliedBy(user) => r.(appliedBy := Some(user))
    case AppliedAt(time) => r.(appliedAt := Some(time))
    case ApplyMode(mode) => r.(mode := Some(mode))
    case Realized(saving) => r.(realized := Some(saving))
  }

  /** The row with its extras stored, in order; they never touch the core of the row. */
  function WithAll(r: Rec, extras: seq<Extra>): (r': Rec)
    ensures Core(r') == Core(r)
  {
    if extras == [] then r else With(WithAll(r, extras[..|extras| - 1]), extras[|extras| - 1])
  }

  function Core(r: Rec): (string, seq<Setpoint>, Option<real>, Option<real>, Status) {
    (r.plant, r.proposed, r.estimate, r.simDelta, r.status)
  }

  /** An audit id is used up even when the event cannot be written. */
  function Audited(db: Db, rec: nat, kind: Kind, actor: string, extras: seq<Extra>): (Db, Outcome) {
    if Serializable(extras) then
      (db.(log := db.log + [Event(db.nextEvent, rec, kind, actor)], nextEvent := db.nextEvent + 1), Done)
    else (db.(nextEvent := db.nextEvent + 1), NotSerializable)
  }

  function PersistOne(db: Db, d: W.Draft): Db {
    Audited(db.(recs := db.recs[db.nextId := NewRec(d)], nextId := db.nextId + 1), db.nextId, Created, "system", []).0
  }

  function Persisted(db: Db, drafts: seq<W.Draft>): Db {
    if drafts == [] then db else PersistOne(Persisted(db, drafts[..|drafts| - 1]), drafts[|drafts| - 1])
  }

  /** `set_status`: the status is set before the audit event is written. */
  function StatusSet(db: Db, id: nat, s: Status, actor: string, extras: seq<Extra>): (Db, Outcome) {
    if id !in db.recs then (db, NotFound)
    else Audited(db.(recs := db.recs[id := WithAll(db.recs[id].(status := s), extras)]), id, Set(s), actor, extras)
  }

  datatype Op =
    | Create(drafts: seq<W.Draft>)
    | Simulate(id: nat, delta: real)
    | Feedback(id: nat, decision: W.Decision, operator: string, now: int)
    | Approve(id: nat, user: string, now: int)
    | Apply(id: nat, user: string, now: int, dryRun: Option<bool>, plant: Surroundings)
    | MeasureImpact(id: nat, user: string, current: Option<real>)

  /** What the database branch would meet: the write library, the link, the measured intensity. */
  datatype Surroundings = Surroundings(library: bool, link: Link, live: Option<real>)

  /** The part of the estimate the impact branch takes for realized. */
  function Part(r: Rec): real { (if r.estimate.Some? then r.estimate.value else 0.0) * 0.85 }

  function ModeOf(dryRun: Option<bool>): Mode {
    if dryRun == None || dryRun.value then AsDryRun else AsWrite
  }

  /** The extras each branch passes on. */
  function ExtrasOf(op: Op, rec: Rec): seq<Extra> {
    match op
    case Feedback(_, decision, _, now) => [ResolvedAt(if decision == W.Reject then Some(now) else None)]
    case Approve(_, user, now) => [ApprovedBy(user), ApprovedAt(now)]
    case Apply(_, user, now, dryRun, _) => [ApplyMode(ModeOf(dryRun)), AppliedBy(user), AppliedAt(now)]
    case MeasureImpact(_, _, _) => [Realized(Part(rec))]
    case _ => []
  }

  /** Simulating writes to the row behind the store's back and logs nothing. */
  function Step(db: Db, op: Op): (Db, Outcome) {
    if op.Create? then (Persisted(db, op.drafts), Done)
    else if op.id !in db.recs then (db, NotFound)
    else
      var r := db.recs[op.id];
      match op
      case Create(_) => (db, Done)
      case Simulate(id, delta) => (db.(recs := db.recs[id := r.(simDelta := Some(delta))]), Done)
      case Feedback(id, decision, operator, _) =>
        if decision == W.OtherDecision then (db, BadDecision)
        else if r.status !in {W.Pending, W.Accepted} then (db, BadStatus(r.status))
        else StatusSet(db, id, if decision == W.Accept then W.Accepted else W.Rejected, operator, ExtrasOf(op, r))
      case Approve(id, user, _) =>
        if r.status != W.Accepted then (db, BadStatus(r.status))
        else StatusSet(db, id, W.Approved, user, ExtrasOf(op, r))
      case Apply(id, user, _, _, _) =>
        if r.status != W.Approved then (db, BadStatus(r.status))
        else StatusSet(db, id, W.Applied, user, ExtrasOf(op, r))
      case MeasureImpact(id, user, _) => StatusSet(db, id, r.status, user, ExtrasOf(op, r))
  }

  function Run(db: Db, ops: seq<Op>): Db
    decreases |ops|
  {
    if ops == [] then db else Run(Step(db, ops[0]).0, ops[1..])
  }

  const EMPTY := Db(map[], ID_BASE, [], 1)

  // ----- the store in place -------------------------------------------------------------------

  class MemoryRecStore {
    var recs: map<nat, Rec>
    var nextId: nat
    var log: seq<Event>
    var nextEvent: nat

    ghost function State(): Db
      reads this
    {
      Db(recs, nextId, log, nextEvent)
    }

    constructor ()
      ensures State() == EMPTY
    {
      recs, nextId, log, nextEvent := map[], ID_BASE, [], 1;
    }

    method AppendAudit(rec: nat, kind: Kind, actor: string, extras: seq<Extra>) returns (r: Outcome)
      modifies this`log, this`nextEvent
      ensures (State(), r) == Audited(old(State()), rec, kind, actor, extras)
    {
      var eid := nextEvent;
      nextEvent := nextEvent + 1;
      if exists e :: e in extras && IsTimestamp(e) { return NotSerializable; }
      log := log + [Event(eid, rec, kind, actor)];
      return Done;
    }

    method Persist(drafts: seq<W.Draft>)
      modifies this
      ensures State() == Persisted(old(State()), drafts)
    {
      for k := 0 to |drafts|
        invariant State() == Persisted(old(State()), drafts[..k])
      {
        assert drafts[..k + 1][..k] == drafts[..k];
        var rid := nextId;
        nextId := nextId + 1;
        recs := recs[rid := NewRec(drafts[k])];
        var written := AppendAudit(rid, Created, "system", []);
      }
      assert drafts[..|drafts|] == drafts;
    }

    method SetStatus(id: nat, s: Status, actor: string, extras: seq<Extra>) returns (r: Outcome)
      modifies this`recs, this`log, this`nextEvent
      ensures (State(), r) == StatusSet(old(State()), id, s, actor, extras)
    {
      if id !in recs { return NotFound; }
      var rec := recs[id].(status := s);
      for k := 0 to |extras|
        invariant rec == WithAll(recs[id].(status := s), extras[..k])
      {
        assert extras[..k + 1][..k] == extras[..k];
        rec := With(rec, extras[k]);
      }
      assert extras[..|extras|] == extras;
      recs := recs[id := rec];
      r := AppendAudit(id, Set(s), actor, extras);
    }

    /** The memory branch of one request; creation and simulation are direct. */
    method Handle(op: Op) returns (r: Outcome)
      modifies this
      ensures (State(), r) == Step(old(State()), op)
    {
      if op.Create? {
        Persist(op.drafts);
        return Done;
      }
      if op.id !in recs { return NotFound; }
      var rec := recs[op.id];
      match op {
        case Simulate(id, delta) =>
          recs := recs[id := rec.(simDelta := Some(delta))];
          return Done;
        case Feedback(id, decision, operator, now) =>
          if decision == W.OtherDecision { return BadDecision; }
          if rec.status != W.Pending && rec.status != W.Accepted { return BadStatus(rec.status); }
          r := SetStatus(id, if decision == W.Accept then W.Accepted else W.Rejected, operator,
                         [ResolvedAt(if decision == W.Reject then Some(now) else None)]);
        case Approve(id, user, now) =>
          if rec.status != W.Accepted { return BadStatus(rec.status); }
          r := SetStatus(id, W.Approved, user, [ApprovedBy(user), ApprovedAt(now)]);
        case Apply(id, user, now, dryRun, _) =>
          if rec.status != W.Approved { return BadStatus(rec.status); }
          r := SetStatus(id, W.Applied, user, [ApplyMode(ModeOf(dryRun)), AppliedBy(user), AppliedAt(now)]);
        case MeasureImpact(id, user, _) =>
          var estimate := if rec.estimate.Some? then rec.estimate.value else 0.0;
          r := SetStatus(id, rec.status, user, [Realized(estimate * 0.85)]);
      }
    }
  }

  // ----- ids ----------------------------------------------------------------------------------

  /** Recommendation ids are consecutive from the base, audit ids strictly increase. */
  ghost predicate Numbered(db: Db) {
    db.nextId >= ID_BASE && (forall id :: id in db.recs <==> ID_BASE <= id < db.nextId) && LogNumbered(db)
  }

  ghost predicate LogNumbered(db: Db) {
    && (forall j, k :: 0 <= j < k < |db.log| ==> db.log[j].id < db.log[k].id)
    && (forall k :: 0 <= k < |db.log| ==> db.log[k].id < db.nextEvent && db.log[k].rec in db.recs)
  }

  lemma AuditedNumbered(db: Db, rec: nat, kind: Kind, actor: string, extras: seq<Extra>)
    requires LogNumbered(db) && rec in db.recs
    ensures LogNumbered(Audited(db, rec, kind, actor, extras).0)
  {
  }

  lemma PersistOneNumbered(db: Db, d: W.Draft)
    requires Numbered(db)
    ensures Numbered(PersistOne(db, d)) && PersistOne(db, d).nextId == db.nextId + 1
  {
    AuditedNumbered(db.(recs := db.recs[db.nextId := NewRec(d)], nextId := db.nextId + 1), db.nextId, Created,
                    "system", []);
  }

  lemma {:induction false} PersistNumbered(db: Db, drafts: seq<W.Draft>)
    requires Numbered(db)
    ensures var db' := Persisted(db, drafts); Numbered(db') && db'.nextId == db.nextId + |drafts|
  {
    if drafts != [] {
      PersistNumbered(db, drafts[..|drafts| - 1]);
      PersistOneNumbered(Persisted(db, drafts[..|drafts| - 1]), drafts[|drafts| - 1]);
    }
  }

  lemma SetNumbered(db: Db, id: nat, s: Status, actor: string, extras: seq<Extra>)
    requires Numbered(db)
    ensures var db' := StatusSet(db, id, s, actor, extras).0; Numbered(db') && db'.nextId == db.nextId
  {
    if id in db.recs {
      AuditedNumbered(db.(recs := db.recs[id := WithAll(db.recs[id].(status := s), extras)]), id, Set(s), actor,
                      extras);
    }
  }

  lemma StepNumbered(db: Db, op: Op)
    requires Numbered(db)
    ensures Numbered(Step(db, op).0)
  {
    if op.Create? {
      PersistNumbered(db, op.drafts);
    } else if op.id in db.recs {
      var r := db.recs[op.id];
      var extras := ExtrasOf(op, r);
      match op {
        case Simulate(_, _) =>
        case Feedback(id, decision, operator, _) =>
          SetNumbered(db, id, if decision == W.Accept then W.Accepted else W.Rejected, operator, extras);
        case Approve(id, user, _) => SetNumbered(db, id, W.Approved, user, extras);
        case Apply(id, user, _, _, _) => SetNumbered(db, id, W.Applied, user, extras);
        case MeasureImpact(id, user, _) => SetNumbered(db, id, r.status, user, extras);
      }
    }
  }

  lemma {:induction false} RunNumbered(db: Db, ops: seq<Op>)
    requires Numbered(db)
    ensures Numbered(Run(db, ops))
    decreases |ops|
  {
    if ops != [] {
      StepNumbered(db, ops[0]);
      RunNumbered(Step(db, ops[0]).0, ops[1..]);
    }
  }

  // ----- the log against the status -----------------------------------------------------------

  function LastKind(log: seq<Event>, id: nat): Option<Kind> {
    if log == [] then None
    else
      var last := log[|log| - 1];
      if last.rec == id then Some(last.kind) else LastKind(log[..|log| - 1], id)
  }

  function StatusOf(k: Kind): Status { if k.Created? then W.Pending else k.status }

  /** The last audit event of a recommendation states its status. */
  ghost predicate Told(db: Db, id: nat)
    requires id in db.recs
  {
    LastKind(db.log, id).Some? && StatusOf(LastKind(db.log, id).value) == db.recs[id].status
  }

  function Rank(s: Status): nat {
    match s
    case Pending => 0
    case Accepted => 1
    case Approved => 2
    case Applied => 3
    case Failed => 3
    case Rejected => 4
  }

  /** Each recommendation has an event, and it never states more than was reached. */
  ghost predicate LogBehind(db: Db) {
    forall id :: id in db.recs ==>
      LastKind(db.log, id).Some? && Rank(StatusOf(LastKind(db.log, id).value)) <= Rank(db.recs[id].status)
  }

  /** The operation writes an event that states the status of `id`. */
  predicate Speaks(db: Db, op: Op, id: nat)
    requires id in db.recs
  {
    !op.Create? && op.id == id &&
    (op.MeasureImpact? || (op.Feedback? && op.decision == W.Accept && db.recs[id].status in {W.Pending, W.Accepted}))
  }

  /** The operation changes the status of `id` and fails to write its event: a rejection, an
      approval or an application, which all carry a timestamp. */
  predicate Silences(db: Db, op: Op, id: nat)
    requires id in db.recs
  {
    !op.Create? && op.id == id &&
    match op
    case Feedback(_, decision, _, _) => decision == W.Reject && db.recs[id].status in {W.Pending, W.Accepted}
    case Approve(_, _, _) => db.recs[id].status == W.Accepted
    case Apply(_, _, _, _, _) => db.recs[id].status == W.Approved
    case _ => false
  }

  lemma {:induction false} LastAppended(log: seq<Event>, e: Event, id: nat)
    ensures LastKind(log + [e], id) == if e.rec == id then Some(e.kind) else LastKind(log, id)
  {
    assert (log + [e])[..|log|] == log;
  }

  lemma PersistOneTold(db: Db, d: W.Draft)
    requires Numbered(db) && LogBehind(db)
    ensures var db' := PersistOne(db, d);
            && LogBehind(db') && Told(db', db.nextId)
            && forall id :: id in db.recs ==>
              db'.recs[id] == db.recs[id] && LastKind(db'.log, id) == LastKind(db.log, id)
  {
    forall i: nat
      ensures LastKind(PersistOne(db, d).log, i) == if i == db.nextId then Some(Created) else LastKind(db.log, i)
    {
      LastAppended(db.log, Event(db.nextEvent, db.nextId, Created, "system"), i);
    }
  }

  /** New recommendations start out told; existing ones are not affected. */
  lemma {:induction false} PersistTold(db: Db, drafts: seq<W.Draft>)
    requires Numbered(db) && LogBehind(db)
    ensures var db' := Persisted(db, drafts);
            && Numbered(db') && LogBehind(db')
            && (forall id :: id in db.recs ==>
                id in db'.recs && db'.recs[id] == db.recs[id] && LastKind(db'.log, id) == LastKind(db.log, id))
            && (forall id :: id in db'.recs && id !in db.recs ==> Told(db', id))
  {
    if drafts != [] {
      PersistTold(db, drafts[..|drafts| - 1]);
      PersistOneNumbered(Persisted(db, drafts[..|drafts| - 1]), drafts[|drafts| - 1]);
      PersistOneTold(Persisted(db, drafts[..|drafts| - 1]), drafts[|drafts| - 1]);
    }
  }

  lemma SetTold(db: Db, target: nat, s: Status, actor: string, extras: seq<Extra>, id: nat)
    requires LogBehind(db) && id in db.recs && target in db.recs && Rank(db.recs[target].status) <= Rank(s)
    requires !Serializable(extras) ==> Rank(db.recs[target].status) < Rank(s)
    ensures var db' := StatusSet(db, target, s, actor, extras).0;
            && LogBehind(db') && id in db'.recs
            && (Told(db', id) <==> if id != target then Told(db, id) else Serializable(extras))
  {
    var e := Event(db.nextEvent, target, Set(s), actor);
    forall i: nat
      ensures LastKind(db.log + [e], i) == if i == target then Some(Set(s)) else LastKind(db.log, i)
    {
      LastAppended(db.log, e, i);
    }
  }

  /** After every operation, exactly: the log tells the status of `id` when the operation spoke
      of it, or when it was told before and the operation did not silently change it. */
  lemma ToldAfterStep(db: Db, op: Op, id: nat)
    requires Numbered(db) && LogBehind(db) && id in db.recs
    ensures id in Step(db, op).0.recs && LogBehind(Step(db, op).0)
    ensures Told(Step(db, op).0, id) <==> Speaks(db, op, id) || (Told(db, id) && !Silences(db, op, id))
  {
    match op
    case Create(drafts) => PersistTold(db, drafts);
    case Simulate(_, _) =>
    case Feedback(_, _, _, _) => ToldAfterFeedback(db, op, id);
    case Approve(_, _, _) => ToldAfterSigning(db, op, id);
    case Apply(_, _, _, _, _) => ToldAfterSigning(db, op, id);
    case MeasureImpact(_, user, _) =>
      if op.id in db.recs { SetTold(db, op.id, db.recs[op.id].status, user, ExtrasOf(op, db.recs[op.id]), id); }
  }

  lemma ToldAfterFeedback(db: Db, op: Op, id: nat)
    requires LogBehind(db) && id in db.recs && op.Feedback?
    ensures id in Step(db, op).0.recs && LogBehind(Step(db, op).0)
    ensures Told(Step(db, op).0, id) <==> Speaks(db, op, id) || (Told(db, id) && !Silences(db, op, id))
  {
    if op.id in db.recs && op.decision != W.OtherDecision && db.recs[op.id].status in {W.Pending, W.Accepted} {
      var extras := ExtrasOf(op, db.recs[op.id]);
      assert op.decision == W.Reject ==> IsTimestamp(extras[0]);
      SetTold(db, op.id, if op.decision == W.Accept then W.Accepted else W.Rejected, op.operator, extras, id);
    }
  }

  lemma ToldAfterSigning(db: Db, op: Op, id: nat)
    requires LogBehind(db) && id in db.recs && (op.Approve? || op.Apply?)
    ensures id in Step(db, op).0.recs && LogBehind(Step(db, op).0)
    ensures Told(Step(db, op).0, id) <==> Told(db, id) && !Silences(db, op, id)
  {
    if op.id in db.recs {
      var r := db.recs[op.id];
      var extras := ExtrasOf(op, r);
      assert IsTimestamp(extras[|extras| - 1]);
      if op.Approve? && r.status == W.Accepted { SetTold(db, op.id, W.Approved, op.user, extras, id); }
      if op.Apply? && r.status == W.Approved { SetTold(db, op.id, W.Applied, op.user, extras, id); }
    }
  }

  /** The premises of `ToldAfterStep` hold in every reachable state. */
  lemma {:induction false} RunStaysBehind(db: Db, ops: seq<Op>)
    requires Numbered(db) && LogBehind(db)
    ensures Numbered(Run(db, ops)) && LogBehind(Run(db, ops))
    decreases |ops|
  {
    if ops != [] {
      StepNumbered(db, ops[0]);
      StepStaysBehind(db, ops[0]);
      RunStaysBehind(Step(db, ops[0]).0, ops[1..]);
    }
  }

  lemma StepStaysBehind(db: Db, op: Op)
    requires Numbered(db) && LogBehind(db)
    ensures LogBehind(Step(db, op).0)
  {
    if op.Create? {
      PersistTold(db, op.drafts);
    } else if db.recs != map[] {
      var id :| id in db.recs;
      ToldAfterStep(db, op, id);
    }
  }

  /** For instance after accepting and approving: the recommendation is approved, and its log still
      says accepted. */
  lemma ApprovalIsUntold(draft: W.Draft, user: string, now: int)
    ensures var ops := [Create([draft]), Feedback(ID_BASE, W.Accept, user, now), Approve(ID_BASE, user, now)];
            var db := Run(EMPTY, ops);
            && ID_BASE in db.recs && db.recs[ID_BASE].status == W.Approved
            && LastKind(db.log, ID_BASE) == Some(Set(W.Accepted)) && !Told(db, ID_BASE)
  {
    var id: nat := ID_BASE;
    var accept, approve := Feedback(id, W.Accept, user, now), Approve(id, user, now);
    var ops := [Create([draft]), accept, approve];
    assert ops[1..] == [accept, approve] && [accept, approve][1..] == [approve] && [approve][1..] == [];
    var one := [draft];
    var created := PersistOne(EMPTY, draft);
    assert one[..|one| - 1] == [] && one[|one| - 1] == draft;
    assert Persisted(EMPTY, []) == EMPTY && Persisted(EMPTY, one) == created;
    assert Step(EMPTY, ops[0]).0 == created;
    AcceptThenApprove(created, id, user, now);
    var accepted := Step(created, accept).0;
    assert Run(EMPTY, ops) == Run(created, [accept, approve]) == Run(accepted, [approve]);
    assert Run(accepted, [approve]) == Run(Step(accepted, approve).0, []);
  }

  lemma {:induction false} AcceptThenApprove(db: Db, id: nat, user: string, now: int)
    requires id in db.recs && db.recs[id].status == W.Pending
    ensures var end := Step(Step(db, Feedback(id, W.Accept, user, now)).0, Approve(id, user, now)).0;
            && id in end.recs && end.recs[id].status == W.Approved && LastKind(end.log, id) == Some(Set(W.Accepted))
  {
    var accept, approve := Feedback(id, W.Accept, user, now), Approve(id, user, now);
    var accepted := Step(db, accept).0;
    assert Serializable(ExtrasOf(accept, db.recs[id]));
    LastAppended(db.log, Event(db.nextEvent, id, Set(W.Accepted), user), id);
    assert IsTimestamp(ExtrasOf(approve, accepted.recs[id])[1]);
  }

  // ----- the status machine -------------------------------------------------------------------

  lemma {:induction false} PersistedRows(db: Db, drafts: seq<W.Draft>)
    requires Numbered(db)
    ensures var db' := Persisted(db, drafts);
            && (forall id :: id in db.recs ==> id in db'.recs && db'.recs[id] == db.recs[id])
            && (forall id :: id in db'.recs && id !in db.recs ==> db'.recs[id].status == W.Pending)
  {
    if drafts != [] {
      PersistedRows(db, drafts[..|drafts| - 1]);
      PersistNumbered(db, drafts[..|drafts| - 1]);
    }
  }

  /** The workflow event an operation stands for, when it is carried out. */
  function Meant(op: Op): Option<W.EventKind> {
    match op
    case Feedback(_, decision, _, _) => if decision == W.Accept then Some(W.WasAccepted) else Some(W.WasRejected)
    case Approve(_, _, _) => Some(W.WasApproved)
    case Apply(_, _, _, _, _) => Some(W.WasApplied)
    case _ => None
  }

  lemma StepMoves(db: Db, op: Op, id: nat)
    requires Numbered(db) && id in db.recs
    ensures id in Step(db, op).0.recs
    ensures var s, s' := db.recs[id].status, Step(db, op).0.recs[id].status;
            s' == s || (Meant(op).Some? && Runs.Moved(s, Meant(op).value) == Some(s'))
  {
    if op.Create? { PersistedRows(db, op.drafts); }
  }

  /** Every sequence of statuses the memory branches can produce, gate or no gate, is one the
      database status machine allows: it replays from workflow events, one after another. */
  lemma {:induction false} RunReplays(db: Db, ops: seq<Op>, id: nat, was: seq<W.EventKind>)
    returns (events: seq<W.EventKind>)
    requires Numbered(db) && id in Run(db, ops).recs
    requires id in db.recs ==> Runs.Replay(was) == Some(db.recs[id].status)
    ensures Runs.Replay(events) == Some(Run(db, ops).recs[id].status)
    ensures id in db.recs ==> was <= events
    decreases |ops|
  {
    if ops == [] { return was; }
    StepNumbered(db, ops[0]);
    var next := StepReplays(db, ops[0], id, was);
    events := RunReplays(Step(db, ops[0]).0, ops[1..], id, next);
  }

  lemma StepReplays(db: Db, op: Op, id: nat, was: seq<W.EventKind>) returns (next: seq<W.EventKind>)
    requires Numbered(db)
    requires id in db.recs ==> Runs.Replay(was) == Some(db.recs[id].status)
    ensures id in Step(db, op).0.recs ==> Runs.Replay(next) == Some(Step(db, op).0.recs[id].status)
    ensures id in db.recs ==> id in Step(db, op).0.recs && was <= next
  {
    if id !in db.recs {
      if op.Create? { PersistedRows(db, op.drafts); }
      return [W.Created];
    }
    StepMoves(db, op, id);
    if Step(db, op).0.recs[id].status == db.recs[id].status { return was; }
    next := was + [Meant(op).value];
    assert next[..|was|] == was && was != [];
    assert next != [W.Created];
  }

  // ----- against the database workflow --------------------------------------------------------

  function DbId(id: nat): nat
    requires id >= ID_BASE
  {
    id - ID_BASE + 1
  }

  /** The two rows agree in plant, proposal, estimate, simulation and status. */
  predicate SameCore(r: Rec, q: W.Rec) {
    Core(r) == (q.plant, q.proposed, q.estimate, q.simDelta, q.status)
  }

  /** And in everything else both keep: approver, applier, mode, baseline, realized saving, and
      whether they are resolved. */
  predicate SameRow(r: Rec, q: W.Rec) {
    && SameCore(r, q) && r.approvedBy == q.approvedBy && r.appliedBy == q.appliedBy
    && (r.mode == Some(AsDryRun) <==> q.mode == Some(W.DryRunMode)) && (r.mode == None <==> q.mode == None)
    && r.baseline == q.baseline == None && r.realized == q.realized && (r.resolvedAt.Some? <==> q.resolved)
  }

  /** How two rows are compared. */
  type Same = (Rec, W.Rec) -> bool

  /** The memory store and the table hold the same recommendations, as far as `same` looks. */
  ghost predicate Mirrors(same: Same, m: Db, d: W.Db) {
    && Numbered(m) && d.nextId == DbId(m.nextId)
    && (forall i :: i in d.recs <==> 1 <= i < d.nextId)
    && forall id :: ID_BASE <= id < m.nextId ==> same(m.recs[id], d.recs[DbId(id)])
  }

  /** The same request to the database branch. */
  function ToDatabase(op: Op): Runs.Op
    requires op.Create? || op.id >= ID_BASE
  {
    match op
    case Create(drafts) => Runs.Create(drafts)
    case Simulate(id, delta) => Runs.Simulate(DbId(id), delta)
    case Feedback(id, decision, operator, _) => Runs.Feedback(DbId(id), decision, operator)
    case Approve(id, user, _) => Runs.Approve(DbId(id), user)
    case Apply(id, user, _, dryRun, plant) => Runs.Apply(DbId(id), user, dryRun, plant.library, plant.link, plant.live)
    case MeasureImpact(id, user, current) => Runs.MeasureImpact(DbId(id), user, current)
  }

  lemma CreateOneMirrors(same: Same, m: Db, d: W.Db, draft: W.Draft)
    requires Mirrors(same, m, d) && same(NewRec(draft), W.NewRec(draft))
    ensures Mirrors(same, PersistOne(m, draft), W.CreatedOne(d, draft))
  {
    PersistOneNumbered(m, draft);
  }

  lemma {:induction false} CreatesMirror(same: Same, m: Db, d: W.Db, drafts: seq<W.Draft>)
    requires Mirrors(same, m, d) && forall draft :: same(NewRec(draft), W.NewRec(draft))
    ensures Mirrors(same, Persisted(m, drafts), W.CreatedAll(d, drafts))
  {
    if drafts != [] {
      var before := drafts[..|drafts| - 1];
      CreatesMirror(same, m, d, before);
      CreateOneMirrors(same, Persisted(m, before), W.CreatedAll(d, before), drafts[|drafts| - 1]);
    }
  }

  /** Only the row of `id` may differ from the states before. */
  ghost predicate OneRowChanged(m: Db, d: W.Db, m': Db, d': W.Db, id: nat)
    requires id >= ID_BASE
  {
    && id in m.recs && id in m'.recs && DbId(id) in d'.recs
    && m'.recs == m.recs[id := m'.recs[id]] && m'.nextId == m.nextId
    && d'.recs == d.recs[DbId(id) := d'.recs[DbId(id)]] && d'.nextId == d.nextId
  }

  lemma RowMirrorsIff(same: Same, m: Db, d: W.Db, m': Db, d': W.Db, id: nat)
    requires Mirrors(same, m, d) && id >= ID_BASE && OneRowChanged(m, d, m', d', id) && Numbered(m')
    ensures Mirrors(same, m', d') <==> same(m'.recs[id], d'.recs[DbId(id)])
  {
  }

  lemma RequestChangesRow(cfg: Config, m: Db, d: W.Db, op: Op)
    requires !op.Create? && op.id >= ID_BASE && op.id in m.recs && DbId(op.id) in d.recs
    ensures OneRowChanged(m, d, Step(m, op).0, Runs.Step(cfg, d, ToDatabase(op)), op.id)
  {
    MemoryChangesRow(m, op);
    DatabaseChangesRow(cfg, d, op);
  }

  lemma MemoryChangesRow(m: Db, op: Op)
    requires !op.Create? && op.id in m.recs
    ensures var m' := Step(m, op).0;
            op.id in m'.recs && m'.recs == m.recs[op.id := m'.recs[op.id]] && m'.nextId == m.nextId
  {
    assert m.recs == m.recs[op.id := m.recs[op.id]];
  }

  lemma DatabaseChangesRow(cfg: Config, d: W.Db, op: Op)
    requires !op.Create? && op.id >= ID_BASE && DbId(op.id) in d.recs
    ensures var d' := Runs.Step(cfg, d, ToDatabase(op));
            DbId(op.id) in d'.recs && d'.recs == d.recs[DbId(op.id) := d'.recs[DbId(op.id)]] && d'.nextId == d.nextId
  {
    assert d.recs == d.recs[DbId(op.id) := d.recs[DbId(op.id)]];
  }

  /** The rows of the request's recommendation afterwards. */
  ghost function RowsAfter(cfg: Config, m: Db, d: W.Db, op: Op): (Rec, W.Rec)
    requires !op.Create? && op.id >= ID_BASE && op.id in m.recs && DbId(op.id) in d.recs
  {
    RequestChangesRow(cfg, m, d, op);
    (Step(m, op).0.recs[op.id], Runs.Step(cfg, d, ToDatabase(op)).recs[DbId(op.id)])
  }

  /** A step keeps the mirror exactly as far as it keeps it on the row asked for. */
  lemma StepMirrorsIff(same: Same, cfg: Config, m: Db, d: W.Db, op: Op)
    requires Mirrors(same, m, d) && (op.Create? || op.id >= ID_BASE)
    requires forall draft :: same(NewRec(draft), W.NewRec(draft))
    ensures Mirrors(same, Step(m, op).0, Runs.Step(cfg, d, ToDatabase(op)))
            <==> op.Create? || op.id !in m.recs || same(RowsAfter(cfg, m, d, op).0, RowsAfter(cfg, m, d, op).1)
  {
    if op.Create? {
      CreatesMirror(same, m, d, op.drafts);
    } else if op.id in m.recs {
      StepNumbered(m, op);
      RequestChangesRow(cfg, m, d, op);
      RowMirrorsIff(same, m, d, Step(m, op).0, Runs.Step(cfg, d, ToDatabase(op)), op.id);
    }
  }

  // ----- what agrees: the core of the rows ----------------------------------------------------

  /** The memory branch applies what the database branch would refuse or fail to send: an
      unsimulated recommendation with the gate on, one for a plant without a tag map, or, when it
      is not a dry run, one that cannot be written live. */
  predicate Overreaches(cfg: Config, m: Db, op: Op) {
    && op.Apply? && op.id in m.recs && m.recs[op.id].status == W.Approved
    && var r := m.recs[op.id];
       || (cfg.requireSimulation && r.simDelta == None)
       || r.plant !in cfg.tags
       || (!Runs.IsDry(cfg, op.dryRun) && !CanWrite(cfg, r, op.plant))
  }

  predicate CanWrite(cfg: Config, r: Rec, around: Surroundings)
    requires r.plant in cfg.tags
  {
    && cfg.writeEnabled && cfg.endpointSet && around.library && around.link == Holds
    && PlanFor(cfg, cfg.tags[r.plant], r.proposed).planned != []
  }

  lemma CoreAfterIff(cfg: Config, m: Db, d: W.Db, op: Op)
    requires !op.Create? && op.id >= ID_BASE && op.id in m.recs && DbId(op.id) in d.recs
    requires SameCore(m.recs[op.id], d.recs[DbId(op.id)])
    ensures SameCore(RowsAfter(cfg, m, d, op).0, RowsAfter(cfg, m, d, op).1) <==> !Overreaches(cfg, m, op)
  {
    match op
    case Simulate(_, _) =>
    case Feedback(_, _, _, _) =>
    case Approve(_, _, _) =>
    case Apply(_, _, _, _, _) => CoreAfterApply(cfg, m, d, op);
    case MeasureImpact(_, _, _) =>
  }

  lemma CoreAfterApply(cfg: Config, m: Db, d: W.Db, op: Op)
    requires op.Apply? && op.id >= ID_BASE && op.id in m.recs && DbId(op.id) in d.recs
    requires SameCore(m.recs[op.id], d.recs[DbId(op.id)])
    ensures SameCore(RowsAfter(cfg, m, d, op).0, RowsAfter(cfg, m, d, op).1) <==> !Overreaches(cfg, m, op)
  {
  }

  /** Plants, proposals, estimates, simulations and statuses: every memory step keeps them equal to
      the table's, except exactly when it overreaches. */
  lemma MemoryFollowsDatabaseIff(cfg: Config, m: Db, d: W.Db, op: Op)
    requires Mirrors(SameCore, m, d) && (op.Create? || op.id >= ID_BASE)
    ensures Mirrors(SameCore, Step(m, op).0, Runs.Step(cfg, d, ToDatabase(op))) <==> !Overreaches(cfg, m, op)
  {
    StepMirrorsIff(SameCore, cfg, m, d, op);
    if !op.Create? && op.id in m.recs { CoreAfterIff(cfg, m, d, op); }
  }

  // ----- what deviates: outcomes and the other columns ----------------------------------------

  predicate SameOutcome(o: Outcome, w: W.Outcome) {
    match o
    case Done => w == W.Done
    case NotFound => w == W.NotFound
    case BadDecision => w == W.BadDecision
    case BadStatus(s) => w == W.BadStatus(s)
    case NotSerializable => false
  }

  /** The request is a rejection, an approval or an application that the memory branch carries out
      (and then fails to log), or an impact measurement at a status the database refuses. */
  predicate OutcomeDeviates(m: Db, op: Op) {
    && !op.Create? && op.id in m.recs
    && var s := m.recs[op.id].status;
       match op
       case Feedback(_, decision, _, _) => decision == W.Reject && s in {W.Pending, W.Accepted}
       case Approve(_, _, _) => s == W.Accepted
       case Apply(_, _, _, _, _) => s == W.Approved
       case MeasureImpact(_, _, _) => s !in {W.Applied, W.Approved, W.Accepted}
       case _ => false
  }

  /** Both branches tell the caller the same except exactly for those requests, whatever the
      configuration. */
  lemma OutcomesAgreeIff(cfg: Config, m: Db, d: W.Db, op: Op)
    requires Mirrors(SameCore, m, d) && (op.Create? || op.id >= ID_BASE)
    ensures SameOutcome(Step(m, op).1, Runs.Answer(cfg, d, ToDatabase(op))) <==> !OutcomeDeviates(m, op)
  {
    if !op.Create? && op.id in m.recs {
      assert SameCore(m.recs[op.id], d.recs[DbId(op.id)]);
      OutcomeAfterIff(cfg, m, d, op);
    }
  }

  lemma OutcomeAfterIff(cfg: Config, m: Db, d: W.Db, op: Op)
    requires !op.Create? && op.id >= ID_BASE && op.id in m.recs && DbId(op.id) in d.recs
    requires SameCore(m.recs[op.id], d.recs[DbId(op.id)])
    ensures SameOutcome(Step(m, op).1, Runs.Answer(cfg, d, ToDatabase(op))) <==> !OutcomeDeviates(m, op)
  {
    var r := m.recs[op.id];
    match op
    case Simulate(_, _) =>
    case Feedback(_, decision, _, _) =>
      assert Serializable(ExtrasOf(op, r)) <==> !IsTimestamp(ExtrasOf(op, r)[0]);
    case Approve(_, _, _) => assert IsTimestamp(ExtrasOf(op, r)[1]);
    case Apply(_, _, _, _, _) => assert IsTimestamp(ExtrasOf(op, r)[2]);
    case MeasureImpact(_, _, _) => assert Serializable(ExtrasOf(op, r));
  }

  /** Impact leaves the rows equal: the realized saving is already the part of the estimate that
      memory takes, or the estimate is zero. */
  predicate SameImpact(r: Rec) {
    if r.status == W.Applied && r.estimate.Some? then r.estimate.value == 0.0
    else r.realized == Some(Part(r))
  }

  /** The request deviates in its outcome; or it is an impact measurement that realizes another
      saving than the database; or it accepts a recommendation marked resolved (which no run
      produces) and so clears the mark. */
  predicate Deviates(m: Db, op: Op) {
    || OutcomeDeviates(m, op)
    || (op.MeasureImpact? && op.id in m.recs && !SameImpact(m.recs[op.id]))
    || (op.Feedback? && op.decision == W.Accept && op.id in m.recs
        && m.recs[op.id].status in {W.Pending, W.Accepted} && m.recs[op.id].resolvedAt.Some?)
  }

  /** A memory step is the database step, in all columns and in what the caller is told, exactly
      when the request does not deviate. */
  lemma StepAgreesIff(cfg: Config, m: Db, d: W.Db, op: Op)
    requires Mirrors(SameRow, m, d) && (op.Create? || op.id >= ID_BASE)
    ensures Mirrors(SameRow, Step(m, op).0, Runs.Step(cfg, d, ToDatabase(op)))
            && SameOutcome(Step(m, op).1, Runs.Answer(cfg, d, ToDatabase(op)))
            <==> !Deviates(m, op)
  {
    StepMirrorsIff(SameRow, cfg, m, d, op);
    if !op.Create? && op.id in m.recs {
      OutcomeAfterIff(cfg, m, d, op);
      if !OutcomeDeviates(m, op) { RowAfterIff(cfg, m, d, op); }
    }
  }

  lemma RowAfterIff(cfg: Config, m: Db, d: W.Db, op: Op)
    requires !op.Create? && op.id >= ID_BASE && op.id in m.recs && DbId(op.id) in d.recs
    requires SameRow(m.recs[op.id], d.recs[DbId(op.id)]) && !OutcomeDeviates(m, op)
    ensures SameRow(RowsAfter(cfg, m, d, op).0, RowsAfter(cfg, m, d, op).1) <==> !Deviates(m, op)
  {
    match op
    case Simulate(_, _) =>
    case Feedback(_, _, _, _) => FeedbackRowIff(cfg, m, d, op);
    case Approve(_, _, _) =>
    case Apply(_, _, _, _, _) =>
    case MeasureImpact(_, _, _) => ImpactRowIff(cfg, m, d, op);
  }

  lemma FeedbackRowIff(cfg: Config, m: Db, d: W.Db, op: Op)
    requires op.Feedback? && op.id >= ID_BASE && op.id in m.recs && DbId(op.id) in d.recs
    requires SameRow(m.recs[op.id], d.recs[DbId(op.id)]) && !OutcomeDeviates(m, op)
    ensures SameRow(RowsAfter(cfg, m, d, op).0, RowsAfter(cfg, m, d, op).1) <==> !Deviates(m, op)
  {
    OneExtra(m.recs[op.id].(status := W.Accepted), ResolvedAt(None));
  }

  lemma ImpactRowIff(cfg: Config, m: Db, d: W.Db, op: Op)
    requires op.MeasureImpact? && op.id >= ID_BASE && op.id in m.recs && DbId(op.id) in d.recs
    requires SameRow(m.recs[op.id], d.recs[DbId(op.id)]) && !OutcomeDeviates(m, op)
    ensures SameRow(RowsAfter(cfg, m, d, op).0, RowsAfter(cfg, m, d, op).1) <==> !Deviates(m, op)
  {
    OneExtra(m.recs[op.id], Realized(Part(m.recs[op.id])));
  }

  lemma {:induction false} OneExtra(r: Rec, e: Extra)
    ensures WithAll(r, [e]) == With(r, e)
  {
    assert [e][..0] == [];
  }

  // ----- whole runs ---------------------------------------------------------------------------

  function Requests(ops: seq<Op>): seq<Runs.Op>
    requires forall k :: 0 <= k < |ops| ==> ops[k].Create? || ops[k].id >= ID_BASE
  {
    seq(|ops|, k requires 0 <= k < |ops| => ToDatabase(ops[k]))
  }

  /** No operation of the run meets the condition when it is its turn. */
  predicate Never(bad: (Db, Op) -> bool, m: Db, ops: seq<Op>)
    decreases |ops|
  {
    ops != [] ==> !bad(m, ops[0]) && Never(bad, Step(m, ops[0]).0, ops[1..])
  }

  /** So a run in which nothing overreaches is a database run in plants, proposals, estimates,
      simulations and statuses. */
  lemma {:induction false} RunFollowsDatabase(cfg: Config, m: Db, d: W.Db, ops: seq<Op>)
    requires Mirrors(SameCore, m, d) && Never((m, op) => Overreaches(cfg, m, op), m, ops)
    requires forall k :: 0 <= k < |ops| ==> ops[k].Create? || ops[k].id >= ID_BASE
    ensures Mirrors(SameCore, Run(m, ops), Runs.Run(cfg, d, Requests(ops)))
    decreases |ops|
  {
    if ops != [] {
      MemoryFollowsDatabaseIff(cfg, m, d, ops[0]);
      RunFollowsDatabase(cfg, Step(m, ops[0]).0, Runs.Step(cfg, d, ToDatabase(ops[0])), ops[1..]);
      assert Requests(ops)[1..] == Requests(ops[1..]);
    }
  }

  /** And a run in which nothing deviates is a database run in all columns. */
  lemma {:induction false} RunAgrees(cfg: Config, m: Db, d: W.Db, ops: seq<Op>)
    requires Mirrors(SameRow, m, d) && Never(Deviates, m, ops)
    requires forall k :: 0 <= k < |ops| ==> ops[k].Create? || ops[k].id >= ID_BASE
    ensures Mirrors(SameRow, Run(m, ops), Runs.Run(cfg, d, Requests(ops)))
    decreases |ops|
  {
    if ops != [] {
      StepAgreesIff(cfg, m, d, ops[0]);
      RunAgrees(cfg, Step(m, ops[0]).0, Runs.Step(cfg, d, ToDatabase(ops[0])), ops[1..]);
      assert Requests(ops)[1..] == Requests(ops[1..]);
    }
  }

  /** With the gate off, every plant mapped and every application a dry run, nothing overreaches. */
  lemma {:induction false} DryRunsNeverOverreach(cfg: Config, m: Db, ops: seq<Op>)
    requires !cfg.requireSimulation
    requires forall id :: id in m.recs ==> m.recs[id].plant in cfg.tags
    requires forall k, j :: 0 <= k < |ops| && ops[k].Create? && 0 <= j < |ops[k].drafts| ==>
             ops[k].drafts[j].plant in cfg.tags
    requires forall k :: 0 <= k < |ops| && ops[k].Apply? ==> Runs.IsDry(cfg, ops[k].dryRun)
    ensures Never((m, op) => Overreaches(cfg, m, op), m, ops)
    decreases |ops|
  {
    if ops != [] {
      PlantsKept(cfg, m, ops[0]);
      DryRunsNeverOverreach(cfg, Step(m, ops[0]).0, ops[1..]);
    }
  }

  lemma PlantsKept(cfg: Config, m: Db, op: Op)
    requires forall id :: id in m.recs ==> m.recs[id].plant in cfg.tags
    requires op.Create? ==> forall j :: 0 <= j < |op.drafts| ==> op.drafts[j].plant in cfg.tags
    ensures forall id :: id in Step(m, op).0.recs ==> Step(m, op).0.recs[id].plant in cfg.tags
  {
    if op.Create? { CreatedPlants(cfg, m, op.drafts); }
  }

  lemma {:induction false} CreatedPlants(cfg: Config, m: Db, drafts: seq<W.Draft>)
    requires forall id :: id in m.recs ==> m.recs[id].plant in cfg.tags
    requires forall j :: 0 <= j < |drafts| ==> drafts[j].plant in cfg.tags
    ensures forall id :: id in Persisted(m, drafts).recs ==> Persisted(m, drafts).recs[id].plant in cfg.tags
  {
    if drafts != [] { CreatedPlants(cfg, m, drafts[..|drafts| - 1]); }
  }

  // ----- what is done although it is not logged ------------------------------------------------

  /** A rejection, approval or application that the memory branch carries out ends in an error and leaves
      no event, but the row is signed and timed all the same, and an audit id is used up. */
  lemma SignedThoughUntold(db: Db, op: Op, id: nat)
    requires id in db.recs && Silences(db, op, id)
    ensures var (db', outcome) := Step(db, op);
            && outcome == NotSerializable && db'.log == db.log && db'.recs == db.recs[id := db'.recs[id]]
            && db'.nextId == db.nextId && db'.nextEvent == db.nextEvent + 1
            && var r, r' := db.recs[id], db'.recs[id];
               match op
               case Feedback(_, _, _, now) => r' == r.(status := W.Rejected, resolvedAt := Some(now))
               case Approve(_, user, now) => r'
                 == r.(status := W.Approved, approvedBy := Some(user), approvedAt := Some(now))
               case Apply(_, user, now, dryRun, _) =>
                 r' == r.(status := W.Applied, appliedBy := Some(user), appliedAt := Some(now),
                          mode := Some(if dryRun == Some(false) then AsWrite else AsDryRun))
               case _ => false
  {
    var r := db.recs[id];
    match op
    case Feedback(_, _, _, now) =>
      OneExtra(r.(status := W.Rejected), ResolvedAt(Some(now)));
      assert IsTimestamp(ExtrasOf(op, r)[0]);
    case Approve(_, user, now) =>
      TwoExtras(r.(status := W.Approved), ApprovedBy(user), ApprovedAt(now));
      assert IsTimestamp(ExtrasOf(op, r)[1]);
    case Apply(_, user, now, dryRun, _) =>
      ThreeExtras(r.(status := W.Applied), ApplyMode(ModeOf(dryRun)), AppliedBy(user), AppliedAt(now));
      assert IsTimestamp(ExtrasOf(op, r)[2]);
    case _ =>
  }

  lemma {:induction false} TwoExtras(r: Rec, e: Extra, f: Extra)
    ensures WithAll(r, [e, f]) == With(With(r, e), f)
  {
    assert [e, f][..1] == [e];
    OneExtra(r, e);
  }

  lemma {:induction false} ThreeExtras(r: Rec, e: Extra, f: Extra, g: Extra)
    ensures WithAll(r, [e, f, g]) == With(With(With(r, e), f), g)
  {
    assert [e, f, g][..2] == [e, f];
    TwoExtras(r, e, f);
  }

  /** One event was written, under the next audit id, and by whom. */
  ghost predicate OneMoreEvent(db: Db, db': Db, id: nat, kind: Kind, user: string) {
    db'.log == db.log + [Event(db.nextEvent, id, kind, user)] && db'.nextEvent == db.nextEvent + 1
    && db'.nextId == db.nextId
  }

  /** Accepting is the one decision that is logged; it takes back a resolution. */
  lemma AcceptanceIsTold(db: Db, id: nat, operator: string, now: int)
    requires id in db.recs && db.recs[id].status in {W.Pending, W.Accepted}
    ensures var (db', outcome) := Step(db, Feedback(id, W.Accept, operator, now));
            && outcome == Done && OneMoreEvent(db, db', id, Set(W.Accepted), operator)
            && db'.recs == db.recs[id := db.recs[id].(status := W.Accepted, resolvedAt := None)]
  {
    OneExtra(db.recs[id].(status := W.Accepted), ResolvedAt(None));
    assert Serializable([ResolvedAt(None)]);
  }

  lemma CreationIsTold(db: Db, draft: W.Draft)
    ensures var db' := Step(db, Create([draft])).0;
            && db'.recs == db.recs[db.nextId := NewRec(draft)] && db'.nextId == db.nextId + 1
            && db'.log == db.log + [Event(db.nextEvent, db.nextId, Created, "system")]
            && db'.nextEvent == db.nextEvent + 1
  {
    var one := [draft];
    assert one[..|one| - 1] == [] && one[|one| - 1] == draft;
    assert Persisted(db, []) == db && Serializable([]);
  }

  /** Measuring impact realizes 85% of the estimate whatever the status, and logs it. */
  lemma ImpactRealizesPart(db: Db, id: nat, user: string, current: Option<real>)
    requires id in db.recs
    ensures var (db', outcome) := Step(db, MeasureImpact(id, user, current));
            var estimate := if db.recs[id].estimate.Some? then db.recs[id].estimate.value else 0.0;
            && outcome == Done && OneMoreEvent(db, db', id, Set(db.recs[id].status), user)
            && db'.recs == db.recs[id := db.recs[id].(realized := Some(estimate * 85.0 / 100.0))]
  {
    var r := db.recs[id];
    OneExtra(r, Realized(Part(r)));
    assert Serializable([Realized(Part(r))]);
  }
}
