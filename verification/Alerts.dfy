/** Stream freshness and its alerts (app/ingestion/freshness.py, quality.py). */
module Alerts {
  import opened Options
  import opened Spacing

  datatype Quality = Good | Uncertain | Bad | Unknown
  datatype Freshness = Fresh | Stale | Missing | BadQuality
  datatype Kind = StreamStale | StreamMissing | DataQuality

  /** What `check_freshness` reads of a stream: the age of its latest reading, and its quality. */
  datatype Stream = Stream(age: Option<real>, quality: Option<Quality>)

  datatype Settings = Settings(threshold: real, allowUncertain: bool, cooldown: nat)

  predicate Healthy(q: Quality, allowUncertain: bool) {
    q == Good || (q == Uncertain && allowUncertain)
  }

  /** `check_freshness`: no reading, then an old one, then a bad one. */
  function Check(cfg: Settings, s: Stream): Freshness {
    if s.age == None then Missing
    else if s.age.value > cfg.threshold then Stale
    else if s.quality.Some? && !Healthy(s.quality.value, cfg.allowUncertain) then BadQuality
    else Fresh
  }

  function KindOf(f: Freshness): Kind
    requires f != Fresh
  {
    match f case Missing => StreamMissing case BadQuality => DataQuality case Stale => StreamStale
  }

  datatype Alert = Alert(plant: string, kind: Kind, created: int, resolved: Option<int>)

  predicate OpenFor(a: Alert, plant: string, kind: Kind) {
    a.plant == plant && a.kind == kind && a.resolved == None
  }

  /** An answer to the query for the newest open alert; among equally new ones the database's. */
  ghost predicate IsNewest(alerts: seq<Alert>, plant: string, kind: Kind, found: Option<nat>) {
    match found
    case None => forall i :: 0 <= i < |alerts| ==> !OpenFor(alerts[i], plant, kind)
    case Some(n) =>
      && n < |alerts| && OpenFor(alerts[n], plant, kind)
      && forall i :: 0 <= i < |alerts| && OpenFor(alerts[i], plant, kind) ==> alerts[i].created <= alerts[n].created
  }

  /** One request: checking and raising read the clock for the age and again for the new alert. */
  datatype Op =
    | Raise(plant: string, stream: Stream, found: Option<nat>, now: int, later: int)
    | Resolve(id: nat, now: int)

  ghost predicate MayRaise(alerts: seq<Alert>, plant: string, freshness: Freshness, found: Option<nat>, now: int,
                           later: int) {
    now <= later && (freshness != Fresh ==> IsNewest(alerts, plant, KindOf(freshness), found))
  }

  ghost predicate Allowed(cfg: Settings, alerts: seq<Alert>, op: Op) {
    match op
    case Raise(plant, stream, found, now, later) => MayRaise(alerts, plant, Check(cfg, stream), found, now, later)
    case Resolve(_, _) => true
  }

  /** `raise_alert_if_needed`. */
  function Raised(cooldown: nat, alerts: seq<Alert>, plant: string, freshness: Freshness, found: Option<nat>,
                  now: int, later: int): seq<Alert>
    requires freshness != Fresh && found.Some? ==> found.value < |alerts|
  {
    if freshness == Fresh then alerts
    else if found.Some? && now - alerts[found.value].created < cooldown then alerts
    else alerts + [Alert(plant, KindOf(freshness), later, None)]
  }

  ghost function Step(cfg: Settings, alerts: seq<Alert>, op: Op): seq<Alert>
    requires Allowed(cfg, alerts, op)
  {
    match op
    case Raise(plant, stream, found, now, later) => Raised(cfg.cooldown, alerts, plant, Check(cfg, stream), found, now,
                                                           later)
    case Resolve(id, now) => Resolved(alerts, id, now)
  }

  function Resolved(alerts: seq<Alert>, id: nat, now: int): seq<Alert> {
    if id < |alerts| then alerts[id := alerts[id].(resolved := Some(now))] else alerts
  }

  class AlertTable {
    const cooldown: nat
    var alerts: seq<Alert>

    constructor (cooldown: nat)
      ensures this.cooldown == cooldown && alerts == []
    {
      this.cooldown := cooldown;
      alerts := [];
    }

    /** `raise_alert_if_needed`: the alert returned is the existing one or the new one. */
    method RaiseIfNeeded(plant: string, freshness: Freshness, found: Option<nat>, now: int, later: int)
      returns (r: Option<nat>)
      requires MayRaise(alerts, plant, freshness, found, now, later)
      modifies this`alerts
      ensures alerts == Raised(cooldown, old(alerts), plant, freshness, found, now, later)
      ensures r == None <==> freshness == Fresh
      ensures r.Some? ==> r.value < |alerts| && OpenFor(alerts[r.value], plant, KindOf(freshness))
    {
      if freshness == Fresh { return None; }
      var kind := StreamStale;
      if freshness == Missing {
        kind := StreamMissing;
      } else if freshness == BadQuality {
        kind := DataQuality;
      }
      if found.Some? {
        var age := now - alerts[found.value].created;
        if age < cooldown { return found; }
      }
      alerts := alerts + [Alert(plant, kind, later, None)];
      return Some(|alerts| - 1);
    }

    /** `resolve_alert`; resolving again moves the time. */
    method ResolveAlert(id: nat, now: int) returns (ok: bool)
      modifies this`alerts
      ensures alerts == Resolved(old(alerts), id, now)
      ensures ok <==> id < |old(alerts)|
    {
      if id >= |alerts| { return false; }
      alerts := alerts[id := alerts[id].(resolved := Some(now))];
      return true;
    }
  }

  ghost predicate Feasible(cfg: Settings, alerts: seq<Alert>, ops: seq<Op>)
    decreases |ops|
  {
    ops != [] ==> Allowed(cfg, alerts, ops[0]) && Feasible(cfg, Step(cfg, alerts, ops[0]), ops[1..])
  }

  ghost function Run(cfg: Settings, alerts: seq<Alert>, ops: seq<Op>): seq<Alert>
    requires Feasible(cfg, alerts, ops)
    decreases |ops|
  {
    if ops == [] then alerts else Run(cfg, Step(cfg, alerts, ops[0]), ops[1..])
  }

  // ----- when alerts are raised ---------------------------------------------------------------

  /** The condition each kind of alert stands for; at most one holds of a stream. */
  predicate CallsFor(cfg: Settings, s: Stream, kind: Kind) {
    match kind
    case StreamMissing => s.age == None
    case StreamStale => s.age.Some? && s.age.value > cfg.threshold
    case DataQuality =>
      && s.age.Some? && s.age.value <= cfg.threshold && s.quality.Some?
      && s.quality.value != Good && (cfg.allowUncertain ==> s.quality.value != Uncertain)
  }

  /** Checking and raising adds an alert exactly when the stream calls for a kind of alert and
      every open alert of that plant and kind is at least the cooldown old, whichever newest one
      the query finds. */
  lemma RaisesIff(cfg: Settings, alerts: seq<Alert>, op: Op)
    requires Allowed(cfg, alerts, op) && op.Raise?
    ensures Step(cfg, alerts, op) != alerts
            <==> exists kind ::
                   && CallsFor(cfg, op.stream, kind)
                   && forall i :: 0 <= i < |alerts| && OpenFor(alerts[i], op.plant, kind) ==>
                     op.now - alerts[i].created >= cfg.cooldown
  {
    var f := Check(cfg, op.stream);
    if f != Fresh {
      assert CallsFor(cfg, op.stream, KindOf(f));
      assert forall kind :: CallsFor(cfg, op.stream, kind) ==> kind == KindOf(f);
    } else {
      assert forall kind :: !CallsFor(cfg, op.stream, kind);
    }
    assert forall a :: |alerts + [a]| != |alerts|;
  }

  ghost predicate Justifies(cfg: Settings, op: Op, a: Alert) {
    op.Raise? && op.plant == a.plant && op.later == a.created && CallsFor(cfg, op.stream, a.kind)
  }

  /** Every alert of a run was raised by a check that called for it. */
  lemma {:induction false} RunJustified(cfg: Settings, alerts: seq<Alert>, ops: seq<Op>, i: nat)
    requires Feasible(cfg, alerts, ops) && |alerts| <= i < |Run(cfg, alerts, ops)|
    ensures exists k :: 0 <= k < |ops| && Justifies(cfg, ops[k], Run(cfg, alerts, ops)[i])
    decreases |ops|
  {
    var next, rest := Step(cfg, alerts, ops[0]), ops[1..];
    if |next| <= i {
      RunJustified(cfg, next, rest, i);
      var k :| 0 <= k < |rest| && Justifies(cfg, rest[k], Run(cfg, next, rest)[i]);
      assert ops[k + 1] == rest[k];
    } else {
      RunKeepsAlert(cfg, next, rest, i);
      assert Justifies(cfg, ops[0], Run(cfg, alerts, ops)[i]);
    }
  }

  lemma {:induction false} RunKeepsAlert(cfg: Settings, alerts: seq<Alert>, ops: seq<Op>, i: nat)
    requires Feasible(cfg, alerts, ops) && i < |alerts|
    ensures var a := alerts[i];
            i < |Run(cfg, alerts, ops)| && a.(resolved := None) == Run(cfg, alerts, ops)[i].(resolved := None)
    decreases |ops|
  {
    if ops != [] { RunKeepsAlert(cfg, Step(cfg, alerts, ops[0]), ops[1..], i); }
  }

  // ----- how often they are raised ------------------------------------------------------------

  /** Open alerts of one plant and kind keep the cooldown between them. */
  ghost predicate OpenSpaced(cooldown: nat, alerts: seq<Alert>) {
    forall i, j ::
      0 <= i < j < |alerts| && OpenFor(alerts[j], alerts[i].plant, alerts[i].kind) && alerts[i].resolved == None
      ==> alerts[i].created + cooldown <= alerts[j].created
  }

  lemma StepSpaced(cfg: Settings, alerts: seq<Alert>, op: Op)
    requires OpenSpaced(cfg.cooldown, alerts) && Allowed(cfg, alerts, op)
    ensures OpenSpaced(cfg.cooldown, Step(cfg, alerts, op))
  {
  }

  /** In every run, whatever the clock does between requests, open alerts of one plant and kind
      are at least the cooldown apart. */
  lemma {:induction false} RunSpaced(cfg: Settings, alerts: seq<Alert>, ops: seq<Op>)
    requires OpenSpaced(cfg.cooldown, alerts) && Feasible(cfg, alerts, ops)
    ensures OpenSpaced(cfg.cooldown, Run(cfg, alerts, ops))
    decreases |ops|
  {
    if ops != [] {
      StepSpaced(cfg, alerts, ops[0]);
      RunSpaced(cfg, Step(cfg, alerts, ops[0]), ops[1..]);
    }
  }

  predicate CreatedWithin(a: Alert, plant: string, kind: Kind, from: int, span: nat) {
    a.plant == plant && a.kind == kind && from <= a.created <= from + span
  }

  function CountCreated(alerts: seq<Alert>, plant: string, kind: Kind, from: int, span: nat): nat {
    if alerts == [] then 0
    else CountCreated(alerts[..|alerts| - 1], plant, kind, from, span)
         + (if CreatedWithin(alerts[|alerts| - 1], plant, kind, from, span) then 1 else 0)
  }

  function CountResolved(alerts: seq<Alert>, plant: string, kind: Kind, from: int, span: nat): nat {
    if alerts == [] then 0
    else CountResolved(alerts[..|alerts| - 1], plant, kind, from, span)
         + (if CreatedWithin(alerts[|alerts| - 1], plant, kind, from, span)
            && alerts[|alerts| - 1].resolved.Some? then 1 else 0)
  }

  /** Creation times of the alerts of the span that are still open. */
  function OpenTimes(alerts: seq<Alert>, plant: string, kind: Kind, from: int, span: nat): seq<int> {
    if alerts == [] then []
    else
      var last := alerts[|alerts| - 1];
      OpenTimes(alerts[..|alerts| - 1], plant, kind, from, span)
      + (if CreatedWithin(last, plant, kind, from, span) && last.resolved == None then [last.created] else [])
  }

  lemma {:induction false} OpenTimesSpaced(cooldown: nat, alerts: seq<Alert>, plant: string, kind: Kind, from: int,
                                           span: nat)
    requires OpenSpaced(cooldown, alerts)
    ensures var times := OpenTimes(alerts, plant, kind, from, span);
            && Spaced(times, cooldown) && Within(times, from, span)
            && CountCreated(alerts, plant, kind, from, span) == |times| + CountResolved(alerts, plant, kind, from, span)
            && forall t :: t in times ==>
                 exists i :: 0 <= i < |alerts| && OpenFor(alerts[i], plant, kind) && alerts[i].created == t
  {
    if alerts != [] {
      var n := |alerts| - 1;
      var rest := alerts[..n];
      OpenTimesSpaced(cooldown, rest, plant, kind, from, span);
      var before, times := OpenTimes(rest, plant, kind, from, span), OpenTimes(alerts, plant, kind, from, span);
      forall t | t in before
        ensures exists i :: 0 <= i < |alerts| && OpenFor(alerts[i], plant, kind) && alerts[i].created == t
        ensures OpenFor(alerts[n], plant, kind) ==> t + cooldown <= alerts[n].created
      {
        var i :| 0 <= i < n && OpenFor(rest[i], plant, kind) && rest[i].created == t;
        assert alerts[i] == rest[i];
      }
      forall i, j | 0 <= i < j < |times|
        ensures times[i] + cooldown <= times[j]
      {
        if j == |before| { assert before[i] in before; }
      }
    }
  }

  /** However often the stream is checked, any `span` time units create at most
      span / cooldown + 1 alerts of one plant and kind, plus the ones that were resolved. */
  lemma {:induction false} AlertRate(cfg: Settings, ops: seq<Op>, plant: string, kind: Kind, from: int, span: nat)
    requires cfg.cooldown > 0 && Feasible(cfg, [], ops)
    ensures var alerts := Run(cfg, [], ops);
            CountCreated(alerts, plant, kind, from, span)
            <= span / cfg.cooldown + 1 + CountResolved(alerts, plant, kind, from, span)
  {
    RunSpaced(cfg, [], ops);
    var alerts := Run(cfg, [], ops);
    OpenTimesSpaced(cfg.cooldown, alerts, plant, kind, from, span);
    SpacedCount(OpenTimes(alerts, plant, kind, from, span), cfg.cooldown, from, span);
  }

  /** Resolving an alert closes that one and no other; the cooldown then no longer holds a new one back. */
  lemma ResolvedRaisesAgain(cfg: Settings, alerts: seq<Alert>, id: nat, at: int, op: Op, kind: Kind)
    requires id < |alerts| && op.Raise? && CallsFor(cfg, op.stream, kind)
    requires forall i :: 0 <= i < |alerts| && i != id ==> !OpenFor(alerts[i], op.plant, kind)
    requires Allowed(cfg, Resolved(alerts, id, at), op)
    ensures var resolved := Resolved(alerts, id, at);
            && |resolved| == |alerts| && resolved[id] == alerts[id].(resolved := Some(at))
            && (forall i :: 0 <= i < |alerts| && i != id ==> resolved[i] == alerts[i])
            && Step(cfg, resolved, op) == resolved + [Alert(op.plant, kind, op.later, None)]
  {
    var resolved := Resolved(alerts, id, at);
    assert forall i :: 0 <= i < |resolved| ==> !OpenFor(resolved[i], op.plant, kind);
    assert KindOf(Check(cfg, op.stream)) == kind;
  }
}
