/** Recommendations, their audit log and the values sent to the plant
    (app/optimization/store.py, apply.py and the simulate route).  Each operation is one
    committed transaction. */
module Workflow {
  import opened Options
  import opened Trails
  import opened SetpointWrites
  import Rounding

  datatype Status = Pending | Accepted | Rejected | Approved | Applied | Failed

  datatype EventKind = Created | WasAccepted | WasRejected | WasApproved | WasApplied | ApplyFailed | Impact

  datatype Mode = DryRunMode | LiveMode

  datatype Rec = Rec(
    plant: string, proposed: seq<Setpoint>, estimate: Option<real>, simDelta: Option<real>, status: Status,
    approvedBy: Option<string>, appliedBy: Option<string>, mode: Option<Mode>,
    baseline: Option<real>, realized: Option<real>, resolved: bool)

  /** One value sent, with the length the audit log had when it went out. */
  datatype SentValue = SentValue(rec: nat, write: Write, logLength: nat)

  datatype Db = Db(recs: map<nat, Rec>, nextId: nat, log: seq<Event<EventKind>>, sent: seq<SentValue>)

  datatype Draft = Draft(plant: string, proposed: seq<Setpoint>, estimate: Option<real>, simDelta: Option<real>)

  datatype Decision = Accept | Reject | OtherDecision

  datatype Outcome = Done | NotFound | BadDecision | BadStatus(status: Status) | NotSimulated | Refused | LinkError

  // ----- the operations as functions of the state ---------------------------------------------

  function NewRec(d: Draft): Rec {
    Rec(d.plant, d.proposed, d.estimate, d.simDelta, Pending, None, None, None, None, None, false)
  }

  function CreatedOne(db: Db, d: Draft): Db {
    db.(recs := db.recs[db.nextId := NewRec(d)], nextId := db.nextId + 1,
        log := db.log + [Event(db.nextId, Created, "system")])
  }

  /** `persist_recommendations`, one row and its "created" event per draft. */
  function CreatedAll(db: Db, drafts: seq<Draft>): Db {
    if drafts == [] then db else CreatedOne(CreatedAll(db, drafts[..|drafts| - 1]), drafts[|drafts| - 1])
  }

  function Logged(db: Db, id: nat, r: Rec, kind: EventKind, actor: string): Db {
    db.(recs := db.recs[id := r], log := db.log + [Event(id, kind, actor)])
  }

  function Simulated(db: Db, id: nat, delta: real): (Db, Outcome) {
    if id !in db.recs then (db, NotFound)
    else (db.(recs := db.recs[id := db.recs[id].(simDelta := Some(delta))]), Done)
  }

  function FedBack(db: Db, id: nat, decision: Decision, operator: string): (Db, Outcome) {
    if id !in db.recs then (db, NotFound)
    else if decision == OtherDecision then (db, BadDecision)
    else
      var r := db.recs[id];
      if r.status !in {Pending, Accepted} then (db, BadStatus(r.status))
      else if decision == Accept then (Logged(db, id, r.(status := Accepted), WasAccepted, operator), Done)
      else (Logged(db, id, r.(status := Rejected, resolved := true), WasRejected, operator), Done)
  }

  function ApprovedDb(db: Db, id: nat, actor: string): (Db, Outcome) {
    if id !in db.recs then (db, NotFound)
    else
      var r := db.recs[id];
      if r.status != Accepted then (db, BadStatus(r.status))
      else (Logged(db, id, r.(status := Approved, approvedBy := Some(actor)), WasApproved, actor), Done)
  }

  function SentBy(id: nat, writes: seq<Write>, logLength: nat): (s: seq<SentValue>)
    ensures |s| == |writes| && forall k :: 0 <= k < |s| ==> s[k] == SentValue(id, writes[k], logLength)
  {
    seq(|writes|, k requires 0 <= k < |writes| => SentValue(id, writes[k], logLength))
  }

  function Closed(r: Rec, actor: string, mode: Mode, live: Option<real>): Rec {
    r.(status := Applied, appliedBy := Some(actor), mode := Some(mode), baseline := live, resolved := true)
  }

  /** What `apply_recommendation` records of a sending; nothing if the link broke. */
  function Recorded(db: Db, id: nat, s: Sending, actor: string, live: Option<real>): (Db, Outcome)
    requires id in db.recs
  {
    var r := db.recs[id];
    match s
    case NotAllowed => (Logged(db, id, r.(status := Failed), ApplyFailed, actor), Refused)
    case Broken(_, _) => (db, LinkError)
    case DryRun(_) => (Logged(db, id, Closed(r, actor, DryRunMode, live), WasApplied, actor), Done)
    case Live(_) => (Logged(db, id, Closed(r, actor, LiveMode, live), WasApplied, actor), Done)
  }

  /** `apply_recommendation`; `live` is the plant's measured intensity, if it could be read. */
  function AppliedDb(db: Db, cfg: Config, id: nat, actor: string, dryRun: Option<bool>, library: bool, link: Link,
                     live: Option<real>): (Db, Outcome) {
    if id !in db.recs then (db, NotFound)
    else
      var r := db.recs[id];
      if r.status != Approved then (db, BadStatus(r.status))
      else if cfg.requireSimulation && r.simDelta == None then (db, NotSimulated)
      else
        var s := SendingOf(cfg, r.plant, r.proposed, dryRun, library, link);
        Recorded(db.(sent := db.sent + SentBy(id, Sent(s), |db.log|)), id, s, actor, live)
  }

  /** Proposed feed, or 100 t/h when there is none (or a zero one). */
  function FeedOf(proposed: seq<Setpoint>): real {
    if proposed == [] then 100.0
    else
      var last := proposed[|proposed| - 1];
      if last.field == "feed_flow_tonh" && last.value != 0.0 then last.value else FeedOf(proposed[..|proposed| - 1])
  }

  /** `intensity_to_energy_kwh` over one hour. */
  function EnergyKwh(intensity: real, feed: real): real { intensity * feed * 11.63 }

  /** kWh per hour saved by an intensity drop at the proposed feed. */
  function Saving(baseline: real, current: real, feed: real): real {
    Rounding.Round2(EnergyKwh(baseline, feed) - EnergyKwh(current, feed))
  }

  /** `measure_impact`; `current` is the mean intensity of the recent history, if there is any. */
  function Measured(db: Db, id: nat, actor: string, current: Option<real>): (Db, Outcome) {
    if id !in db.recs then (db, NotFound)
    else
      var r := db.recs[id];
      if r.status !in {Applied, Approved, Accepted} then (db, BadStatus(r.status))
      else if r.baseline.Some? && current.Some? then
        (Logged(db, id, r.(realized := Some(Saving(r.baseline.value, current.value, FeedOf(r.proposed)))), Impact,
                actor), Done)
      else if r.estimate.Some? && r.status == Applied then
        (Logged(db, id, r.(realized := r.estimate), Impact, actor), Done)
      else (db, Done)
  }

  // ----- the operations in place --------------------------------------------------------------

  class Store {
    const cfg: Config
    var recs: map<nat, Rec>
    var nextId: nat
    var log: seq<Event<EventKind>>
    var sent: seq<SentValue>

    ghost function State(): Db
      reads this
    {
      Db(recs, nextId, log, sent)
    }

    constructor (cfg: Config)
      ensures this.cfg == cfg && State() == Db(map[], 1, [], [])
    {
      this.cfg := cfg;
      recs, nextId, log, sent := map[], 1, [], [];
    }

    method AppendAudit(id: nat, kind: EventKind, actor: string)
      modifies this`log
      ensures log == old(log) + [Event(id, kind, actor)]
    {
      log := log + [Event(id, kind, actor)];
    }

    method Persist(drafts: seq<Draft>)
      modifies this`recs, this`nextId, this`log
      ensures State() == CreatedAll(old(State()), drafts)
    {
      for k := 0 to |drafts|
        invariant State() == CreatedAll(old(State()), drafts[..k])
      {
        assert drafts[..k + 1][..k] == drafts[..k];
        recs := recs[nextId := NewRec(drafts[k])];
        AppendAudit(nextId, Created, "system");
        nextId := nextId + 1;
      }
      assert drafts[..|drafts|] == drafts;
    }

    /** The simulate route writes its result back whatever the status, and logs nothing. */
    method Simulate(id: nat, delta: real) returns (r: Outcome)
      modifies this`recs
      ensures (State(), r) == Simulated(old(State()), id, delta)
    {
      if id !in recs { return NotFound; }
      recs := recs[id := recs[id].(simDelta := Some(delta))];
      return Done;
    }

    method SubmitFeedback(id: nat, decision: Decision, operator: string) returns (r: Outcome)
      modifies this`recs, this`log
      ensures (State(), r) == FedBack(old(State()), id, decision, operator)
    {
      if id !in recs { return NotFound; }
      var rec := recs[id];
      if decision == OtherDecision { return BadDecision; }
      if rec.status !in {Pending, Accepted} { return BadStatus(rec.status); }
      rec := rec.(status := if decision == Accept then Accepted else Rejected);
      if decision == Reject { rec := rec.(resolved := true); }
      recs := recs[id := rec];
      AppendAudit(id, if decision == Accept then WasAccepted else WasRejected, operator);
      return Done;
    }

    method Approve(id: nat, actor: string) returns (r: Outcome)
      modifies this`recs, this`log
      ensures (State(), r) == ApprovedDb(old(State()), id, actor)
    {
      if id !in recs { return NotFound; }
      var rec := recs[id];
      if rec.status != Accepted { return BadStatus(rec.status); }
      rec := rec.(status := Approved);
      rec := rec.(approvedBy := Some(actor));
      recs := recs[id := rec];
      AppendAudit(id, WasApproved, actor);
      return Done;
    }

    method Apply(id: nat, actor: string, dryRun: Option<bool>, library: bool, link: Link, live: Option<real>)
      returns (r: Outcome)
      modifies this`recs, this`log, this`sent
      ensures (State(), r) == AppliedDb(old(State()), cfg, id, actor, dryRun, library, link, live)
    {
      if id !in recs { return NotFound; }
      var rec := recs[id];
      if rec.status != Approved { return BadStatus(rec.status); }
      if cfg.requireSimulation && rec.simDelta == None { return NotSimulated; }
      var sending, written := WriteSetpoints(cfg, rec.plant, rec.proposed, dryRun, library, link);
      sent := sent + SentBy(id, written, |log|);
      r := Record(id, sending, actor, live);
    }

    /** The second half of `apply_recommendation`: if the link broke, the exception escapes
        before anything is recorded. */
    method Record(id: nat, sending: Sending, actor: string, live: Option<real>) returns (r: Outcome)
      requires id in recs
      modifies this`recs, this`log
      ensures (State(), r) == Recorded(old(State()), id, sending, actor, live)
    {
      var rec := recs[id];
      if sending.Broken? { return LinkError; }
      if sending.NotAllowed? {
        recs := recs[id := rec.(status := Failed)];
        AppendAudit(id, ApplyFailed, actor);
        return Refused;
      }
      rec := rec.(status := Applied, appliedBy := Some(actor));
      rec := rec.(mode := Some(if sending.DryRun? then DryRunMode else LiveMode));
      rec := rec.(baseline := live, resolved := true);
      recs := recs[id := rec];
      AppendAudit(id, WasApplied, actor);
      return Done;
    }

    method MeasureImpact(id: nat, actor: string, current: Option<real>) returns (r: Outcome)
      modifies this`recs, this`log
      ensures (State(), r) == Measured(old(State()), id, actor, current)
    {
      if id !in recs { return NotFound; }
      var rec := recs[id];
      if rec.status !in {Applied, Approved, Accepted} { return BadStatus(rec.status); }
      if rec.baseline.Some? && current.Some? {
        var realized := Saving(rec.baseline.value, current.value, FeedOf(rec.proposed));
        recs := recs[id := rec.(realized := Some(realized))];
        AppendAudit(id, Impact, actor);
      } else if rec.estimate.Some? && rec.status == Applied {
        recs := recs[id := rec.(realized := rec.estimate)];
        AppendAudit(id, Impact, actor);
      }
      return Done;
    }
  }
}
