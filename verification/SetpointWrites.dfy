/** Allowlisted setpoint writes (app/ingestion/opcua_write.py). */
module SetpointWrites {
  import opened Options

  /** A proposed setpoint; a proposal lists each field once, in the order it was built. */
  datatype Setpoint = Setpoint(field: string, value: real)

  datatype Tag = Tag(node: string, writeNode: Option<string>, writable: bool, scale: real, offset: real)

  datatype Config = Config(
    writable: set<string>, tags: map<string, map<string, Tag>>,
    requireSimulation: bool, dryRunDefault: bool, writeEnabled: bool, endpointSet: bool)

  datatype Write = Write(field: string, node: string, raw: real, engineering: real)

  datatype Reason = NotInWritableFields | NoTag | TagNotWritable
  datatype Skip = Skip(field: string, reason: Reason)

  datatype Plan = Plan(planned: seq<Write>, skipped: seq<Skip>)

  /** A zero scale is taken as one when writing. */
  function WriteScale(t: Tag): (r: real)
    ensures r != 0.0
  {
    if t.scale != 0.0 then t.scale else 1.0
  }

  function WriteNode(t: Tag): string {
    if t.writeNode.Some? && t.writeNode.value != "" then t.writeNode.value else t.node
  }

  function WriteOf(t: Tag, s: Setpoint): Write {
    Write(s.field, WriteNode(t), (s.value - t.offset) / WriteScale(t), s.value)
  }

  /** Why a field is skipped, if it is. */
  function SkipReason(cfg: Config, tags: map<string, Tag>, field: string): Option<Reason> {
    if field !in cfg.writable then Some(NotInWritableFields)
    else if field !in tags then Some(NoTag)
    else if !tags[field].writable then Some(TagNotWritable)
    else None
  }

  function PlanFor(cfg: Config, tags: map<string, Tag>, proposed: seq<Setpoint>): Plan {
    if proposed == [] then Plan([], [])
    else
      var last := proposed[|proposed| - 1];
      var before := PlanFor(cfg, tags, proposed[..|proposed| - 1]);
      match SkipReason(cfg, tags, last.field)
      case Some(reason) => before.(skipped := before.skipped + [Skip(last.field, reason)])
      case None => before.(planned := before.planned + [WriteOf(tags[last.field], last)])
  }

  /** `plan_setpoint_writes`; an unknown plant is refused. */
  method PlanSetpointWrites(cfg: Config, plant: string, proposed: seq<Setpoint>) returns (r: Option<Plan>)
    ensures r == if plant in cfg.tags then Some(PlanFor(cfg, cfg.tags[plant], proposed)) else None
    ensures r.Some? ==> forall w :: w in r.value.planned <==> IsPlanned(cfg, cfg.tags[plant], proposed, w)
  {
    if plant !in cfg.tags { return None; }
    var tags := cfg.tags[plant];
    var planned: seq<Write>, skipped: seq<Skip> := [], [];
    for k := 0 to |proposed|
      invariant PlanFor(cfg, tags, proposed[..k]) == Plan(planned, skipped)
    {
      var s := proposed[k];
      assert proposed[..k + 1][..k] == proposed[..k];
      if s.field !in cfg.writable {
        skipped := skipped + [Skip(s.field, NotInWritableFields)];
      } else if s.field !in tags {
        skipped := skipped + [Skip(s.field, NoTag)];
      } else if !tags[s.field].writable {
        skipped := skipped + [Skip(s.field, TagNotWritable)];
      } else {
        planned := planned + [WriteOf(tags[s.field], s)];
      }
    }
    assert proposed[..|proposed|] == proposed;
    PlanPartitions(cfg, tags, proposed);
    return Some(Plan(planned, skipped));
  }

  /** The write carries the setpoint's value to the tag's write node, or to its only node if it has
      no other, in raw units: scaled and shifted it is the value again. */
  predicate Carries(t: Tag, s: Setpoint, w: Write) {
    && w.field == s.field && w.engineering == s.value
    && w.node == (if t.writeNode == None || t.writeNode == Some("") then t.node else t.writeNode.value)
    && w.raw * (if t.scale == 0.0 then 1.0 else t.scale) + t.offset == s.value
  }

  /** Some proposed setpoint is of an allowlisted field with a writable tag, and this is its write. */
  ghost predicate IsPlanned(cfg: Config, tags: map<string, Tag>, proposed: seq<Setpoint>, w: Write) {
    exists k :: 0 <= k < |proposed| && PlansAs(cfg, tags, proposed[k], w)
  }

  predicate PlansAs(cfg: Config, tags: map<string, Tag>, s: Setpoint, w: Write) {
    s.field in cfg.writable && s.field in tags && tags[s.field].writable && Carries(tags[s.field], s, w)
  }

  /** Some proposed setpoint is of this field, and this is the first of the reasons against it. */
  ghost predicate IsSkipped(cfg: Config, tags: map<string, Tag>, proposed: seq<Setpoint>, s: Skip) {
    exists k :: 0 <= k < |proposed| && SkipsAs(cfg, tags, proposed[k], s)
  }

  predicate SkipsAs(cfg: Config, tags: map<string, Tag>, p: Setpoint, s: Skip) {
    && s.field == p.field
    && match s.reason
       case NotInWritableFields => p.field !in cfg.writable
       case NoTag => p.field in cfg.writable && p.field !in tags
       case TagNotWritable => p.field in cfg.writable && p.field in tags && !tags[p.field].writable
  }

  lemma WriteCarries(t: Tag, s: Setpoint, w: Write)
    ensures w == WriteOf(t, s) <==> Carries(t, s, w)
  {
    var d, scale := s.value - t.offset, WriteScale(t);
    assert d / scale * scale == d;
    if w.raw * scale == d { assert (w.raw - d / scale) * scale == 0.0; }
  }

  /** Every proposed setpoint is either planned or skipped, and nothing else is: each allowlisted field
      with a writable tag as a write that carries its value, each other one with the first reason
      against it. */
  lemma {:induction false} PlanPartitions(cfg: Config, tags: map<string, Tag>, proposed: seq<Setpoint>)
    ensures var p := PlanFor(cfg, tags, proposed);
            && |p.planned| + |p.skipped| == |proposed|
            && (forall w :: w in p.planned <==> IsPlanned(cfg, tags, proposed, w))
            && (forall s :: s in p.skipped <==> IsSkipped(cfg, tags, proposed, s))
  {
    PlanCounts(cfg, tags, proposed);
    forall w
      ensures w in PlanFor(cfg, tags, proposed).planned <==> IsPlanned(cfg, tags, proposed, w)
    {
      PlannedIff(cfg, tags, proposed, w);
    }
    forall s
      ensures s in PlanFor(cfg, tags, proposed).skipped <==> IsSkipped(cfg, tags, proposed, s)
    {
      SkippedIff(cfg, tags, proposed, s);
    }
  }

  /** Writes and skips come in the order of the proposal: those of its first part, then those of the rest. */
  lemma {:induction false} PlanInOrder(cfg: Config, tags: map<string, Tag>, first: seq<Setpoint>, rest: seq<Setpoint>)
    ensures var p, f, r := PlanFor(cfg, tags, first + rest), PlanFor(cfg, tags, first), PlanFor(cfg, tags, rest);
            p.planned == f.planned + r.planned && p.skipped == f.skipped + r.skipped
    decreases |rest|
  {
    if rest == [] {
      assert first + rest == first;
    } else {
      var n := |rest| - 1;
      assert (first + rest)[..|first + rest| - 1] == first + rest[..n];
      PlanInOrder(cfg, tags, first, rest[..n]);
    }
  }

  lemma {:induction false} PlanCounts(cfg: Config, tags: map<string, Tag>, proposed: seq<Setpoint>)
    ensures |PlanFor(cfg, tags, proposed).planned| + |PlanFor(cfg, tags, proposed).skipped| == |proposed|
  {
    if proposed != [] { PlanCounts(cfg, tags, proposed[..|proposed| - 1]); }
  }

  lemma {:induction false} PlannedIff(cfg: Config, tags: map<string, Tag>, proposed: seq<Setpoint>, w: Write)
    ensures w in PlanFor(cfg, tags, proposed).planned <==> IsPlanned(cfg, tags, proposed, w)
  {
    if proposed != [] {
      var n := |proposed| - 1;
      PlannedIff(cfg, tags, proposed[..n], w);
      LastPlanned(cfg, tags, proposed[n], w);
      assert forall k :: 0 <= k < n ==> proposed[..n][k] == proposed[k];
    }
  }

  lemma LastPlanned(cfg: Config, tags: map<string, Tag>, s: Setpoint, w: Write)
    ensures PlansAs(cfg, tags, s, w) <==> SkipReason(cfg, tags, s.field) == None && w == WriteOf(tags[s.field], s)
  {
    if s.field in tags { WriteCarries(tags[s.field], s, w); }
  }

  lemma {:induction false} SkippedIff(cfg: Config, tags: map<string, Tag>, proposed: seq<Setpoint>, s: Skip)
    ensures s in PlanFor(cfg, tags, proposed).skipped <==> IsSkipped(cfg, tags, proposed, s)
  {
    if proposed != [] {
      var n := |proposed| - 1;
      SkippedIff(cfg, tags, proposed[..n], s);
      assert forall k :: 0 <= k < n ==> proposed[..n][k] == proposed[k];
      assert SkipsAs(cfg, tags, proposed[n], s)
             <==> s.field == proposed[n].field && SkipReason(cfg, tags, s.field) == Some(s.reason);
    }
  }

  /** `apply_scale` of app/ingestion/quality.py: what reading the tag back makes of a raw value. */
  function ReadBack(t: Tag, raw: real): real { raw * t.scale + t.offset }

  /** A written setpoint reads back as proposed exactly when the tag has a scale, or the setpoint
      happens to be the offset: writing replaces a zero scale by one, reading does not. */
  lemma ReadBackIff(t: Tag, s: Setpoint)
    ensures ReadBack(t, WriteOf(t, s).raw) == s.value <==> t.scale != 0.0 || s.value == t.offset
  {
    var d := s.value - t.offset;
    assert d / WriteScale(t) * WriteScale(t) == d;
  }

  /** A setpoint of 5 written to a tag of scale zero reads back as 0. */
  lemma ZeroScaleMisreads(node: string, field: string)
    ensures var tag := Tag(node, None, true, 0.0, 0.0);
            WriteOf(tag, Setpoint(field, 5.0)).raw == 5.0 && ReadBack(tag, 5.0) == 0.0
  {
  }

  // ----- sending ------------------------------------------------------------------------------

  /** How the OPC link behaves: every write and the disconnect succeed, or the connection breaks
      after `count` values went out (none, if it could not be opened). */
  datatype Link = Holds | Breaks(count: nat)

  datatype Sending =
    | NotAllowed                                // WriteNotAllowedError
    | DryRun(plan: Plan)
    | Live(plan: Plan)                          // every planned write went out
    | Broken(plan: Plan, count: nat)            // an exception escaped after `count` writes

  function Min(a: nat, b: nat): nat { if a < b then a else b }

  /** `write_setpoints`: planning comes first, so an unknown plant is refused even on a dry run. */
  function SendingOf(cfg: Config, plant: string, proposed: seq<Setpoint>, dryRun: Option<bool>, library: bool,
                     link: Link): Sending {
    if plant !in cfg.tags then NotAllowed
    else
      var plan := PlanFor(cfg, cfg.tags[plant], proposed);
      if (if dryRun.Some? then dryRun.value else cfg.dryRunDefault) then DryRun(plan)
      else if !cfg.writeEnabled || !cfg.endpointSet || plan.planned == [] || !library then NotAllowed
      else match link
           case Holds => Live(plan)
           case Breaks(count) => Broken(plan, Min(count, |plan.planned|))
  }

  /** What actually reached the plant. */
  function Sent(s: Sending): seq<Write>
    requires s.Broken? ==> s.count <= |s.plan.planned|
  {
    match s
    case Live(plan) => plan.planned
    case Broken(plan, count) => plan.planned[..count]
    case _ => []
  }

  method WriteSetpoints(cfg: Config, plant: string, proposed: seq<Setpoint>, dryRun: Option<bool>, library: bool,
                        link: Link)
    returns (r: Sending, written: seq<Write>)
    ensures r == SendingOf(cfg, plant, proposed, dryRun, library, link)
    ensures r.Broken? ==> r.count <= |r.plan.planned|
    ensures written == Sent(r)
  {
    written := [];
    var p := PlanSetpointWrites(cfg, plant, proposed);
    if p == None { return NotAllowed, []; }
    var plan := p.value;
    var dry := if dryRun.Some? then dryRun.value else cfg.dryRunDefault;
    if dry { return DryRun(plan), []; }
    if !cfg.writeEnabled { return NotAllowed, []; }
    if !cfg.endpointSet { return NotAllowed, []; }
    if plan.planned == [] { return NotAllowed, []; }
    if !library { return NotAllowed, []; }
    for k := 0 to |plan.planned|
      invariant written == plan.planned[..k]
      invariant link.Breaks? ==> k <= link.count
    {
      if link == Breaks(k) { return Broken(plan, k), written; }
      written := written + [plan.planned[k]];
    }
    if link.Breaks? { return Broken(plan, |plan.planned|), written; }
    return Live(plan), written;
  }
}
