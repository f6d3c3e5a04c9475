/** Over every run: reports of one plant and type cover disjoint windows exactly as long as their
    references are taken on wall clocks that agree. */
module ReportTiling {
  import opened Options
  import opened Calendar
  import opened PeriodWindows
  import opened ReportStore
  import opened ReportRuns

  /** Period `k` on a wall clock; days are numbered from before the first as well. */
  ghost predicate IsReportTile(r: Report, k: int, zone: int) {
    if r.kind == Daily then r.start == Micros(k) - zone && r.end == Micros(k + 1) - zone
    else k >= 0 && r.start == Micros(TileStart(r.kind, k)) - zone && r.end == Micros(TileStart(r.kind, k + 1)) - zone
  }

  /** A wall clock for each type of report. */
  type Zones = Kind -> int

  ghost predicate IsTiled(r: Report, zones: Zones) {
    exists k :: IsReportTile(r, k, zones(r.kind))
  }

  ghost predicate Tiled(db: Db, zones: Zones) {
    forall id :: id in db.reports ==> IsTiled(db.reports[id], zones)
  }

  /** The reference, if the operation has one, is on a wall clock that agrees. */
  predicate OnZones(op: Op, zones: Zones) {
    op.Generate? ==> OffsetsAgree(op.kind, op.ref.offset, zones(op.kind))
  }

  lemma WindowIsTiled(r: Report, w: Window, k: int, offset: int, zones: Zones)
    requires IsTile(w, r.kind, k, offset) && r.start == Instant(w.start) && r.end == Instant(w.end)
    requires OffsetsAgree(r.kind, offset, zones(r.kind))
    ensures IsTiled(r, zones)
  {
    if r.kind == Daily {
      var n := (offset - zones(Daily)) / 86_400_000_000;
      DayTile(k);
      DayTile(k + 1);
      assert offset - zones(Daily) == Micros(n);
      assert IsReportTile(r, k - n, zones(Daily));
    } else {
      assert IsReportTile(r, k, zones(r.kind));
    }
  }

  lemma GenerateTiled(db: Db, op: Op, zones: Zones)
    requires Tiled(db, zones) && op.Generate? && Allowed(db, op) && OnZones(op, zones)
    ensures Tiled(Step(db, op), zones)
  {
    PeriodWindowIsTile(op.kind, op.ref, op.completedOnly);
    var w := PeriodWindow(op.kind, op.ref, op.completedOnly);
    if w.Ok? && op.plant in db.plants && op.data.Some? {
      var k := Wanted(op.kind, op.ref, op.completedOnly);
      var start, end := Instant(w.value.start), Instant(w.value.end);
      forall r: Report | r.kind == op.kind && r.start == start && r.end == end
        ensures IsTiled(r, zones)
      {
        WindowIsTiled(r, w.value, k, op.ref.offset, zones);
      }
      UpsertTiled(db, op.plant, op.kind, start, end, op.data.value, zones);
    }
  }

  lemma UpsertTiled(db: Db, plant: string, kind: Kind, start: int, end: int, figures: Figures, zones: Zones)
    requires Tiled(db, zones)
    requires forall r: Report :: r.kind == kind && r.start == start && r.end == end ==> IsTiled(r, zones)
    ensures Tiled(Upserted(db, plant, kind, start, end, figures).0, zones)
  {
  }

  lemma AssureTiled(db: Db, id: nat, e: EventKind, s: Signature, zones: Zones)
    requires Tiled(db, zones)
    ensures Tiled(Assured(db, id, e, s).0, zones)
  {
    var db' := Assured(db, id, e, s).0;
    forall i | i in db'.reports
      ensures IsTiled(db'.reports[i], zones)
    {
      assert IsTiled(db.reports[i], zones);
      var k :| IsReportTile(db.reports[i], k, zones(db.reports[i].kind));
      assert IsReportTile(db'.reports[i], k, zones(db'.reports[i].kind));
    }
  }

  lemma {:induction false} RunTiled(db: Db, ops: seq<Op>, zones: Zones)
    requires Tiled(db, zones) && Feasible(db, ops)
    requires forall k :: 0 <= k < |ops| ==> OnZones(ops[k], zones)
    ensures Tiled(Run(db, ops), zones)
    decreases |ops|
  {
    if ops != [] {
      match ops[0] {
        case Generate(_, _, _, _, _) => GenerateTiled(db, ops[0], zones);
        case Assure(id, event, signature) => AssureTiled(db, id, event, signature, zones);
        case Sync(_, _, _, _) =>
      }
      RunTiled(Step(db, ops[0]), ops[1..], zones);
    }
  }

  // ----- what a generation answers ------------------------------------------------------------

  /** The report of this plant for the period asked for, on the wall clock of the reference. */
  ghost predicate IsReportFor(r: Report, plant: string, kind: Kind, ref: DateTime, completedOnly: bool)
    requires Valid(ref)
  {
    var k := Wanted(kind, ref, completedOnly);
    && k >= 0 && r.plant == plant && r.kind == kind
    && r.start == Micros(TileStart(kind, k)) - ref.offset && r.end == Micros(TileStart(kind, k + 1)) - ref.offset
  }

  /** A generation fails for a reference at the end of the range, an unknown plant and missing data, in
      this order, and then changes nothing. */
  lemma GenerationFailsIff(db: Db, plant: string, kind: Kind, ref: DateTime, completedOnly: bool, data: Option<Figures>)
    requires Valid(ref)
    ensures var (db', outcome) := Generated(db, plant, kind, ref, completedOnly, data);
            var atEnd := if completedOnly then InFirst(kind, ref.date) else InLast(kind, ref.date);
            && (outcome == BadReference <==> atEnd)
            && (outcome == UnknownPlant <==> !atEnd && plant !in db.plants)
            && (outcome == NoData <==> !atEnd && plant in db.plants && data == None)
            && (atEnd || plant !in db.plants || data == None ==> db' == db)
  {
    PeriodWindowIsTile(kind, ref, completedOnly);
  }

  /** Otherwise it leaves the report of that period with the new figures, a draft if it is new, and
      every other report alone; unless that report is locked. */
  lemma {:induction false} GenerationStores(db: Db, plant: string, kind: Kind, ref: DateTime, completedOnly: bool,
                                            figures: Figures)
    requires Consistent(db) && Valid(ref) && plant in db.plants && PeriodWindow(kind, ref, completedOnly).Ok?
    ensures var (db', outcome) := Generated(db, plant, kind, ref, completedOnly, Some(figures));
            if outcome.Skipped? then
              && db' == db && outcome.id in db.reports && db.reports[outcome.id].status == Locked
              && HasKey(db.reports[outcome.id], plant, kind,
                        Micros(TileStart(kind, Wanted(kind, ref, completedOnly))) - ref.offset)
            else
              && outcome.Stored? && outcome.id in db'.reports && db'.trail == db.trail
              && db'.reports == db.reports[outcome.id := db'.reports[outcome.id]]
              && IsReportFor(db'.reports[outcome.id], plant, kind, ref, completedOnly)
              && db'.reports[outcome.id].figures == figures
              && db'.reports[outcome.id].status
                 == if outcome.id in db.reports then db.reports[outcome.id].status else Draft
  {
    PeriodWindowIsTile(kind, ref, completedOnly);
  }

  ghost predicate CommonInstant(r: Report, q: Report) {
    r.start < q.end && q.start < r.end
  }

  lemma TiledReportsMeetIff(r: Report, q: Report, zones: Zones)
    requires r.kind == q.kind && IsTiled(r, zones) && IsTiled(q, zones)
    ensures r.start < r.end && q.start < q.end
    ensures CommonInstant(r, q) <==> r.start == q.start
  {
    var zone := zones(r.kind);
    var m :| IsReportTile(r, m, zone);
    var n :| IsReportTile(q, n, zone);
    if r.kind == Daily {
      SpansMeetIff(m, m + 1, n, n + 1, zone);
    } else {
      TilesOrdered(r.kind, m, m + 1);
      TilesOrdered(r.kind, n, n + 1);
      if m < n { TilesApart(r.kind, m, n); }
      if n < m { TilesApart(r.kind, n, m); }
      SpansMeetIff(TileStart(r.kind, m), TileStart(r.kind, m + 1), TileStart(r.kind, n), TileStart(r.kind, n + 1),
                   zone);
    }
  }

  lemma SpansMeetIff(s: int, e: int, s': int, e': int, zone: int)
    requires s < e && s' < e' && (s == s' || e <= s' || e' <= s)
    ensures Micros(s) - zone < Micros(e) - zone && Micros(s') - zone < Micros(e') - zone
    ensures Micros(s) - zone < Micros(e') - zone && Micros(s') - zone < Micros(e) - zone
            <==> Micros(s) - zone == Micros(s') - zone
  {
  }

  /** After any run from an empty table, with completed and current windows mixed, and with every
      reference of a type on wall clocks that agree, no two reports of one plant and type cover a
      common instant. */
  lemma {:induction false} NoDoubleCounting(plants: set<string>, ops: seq<Op>, zones: Zones, i: nat, j: nat)
    requires Feasible(Fresh(plants), ops)
    requires forall k :: 0 <= k < |ops| ==> OnZones(ops[k], zones)
    requires var db := Run(Fresh(plants), ops);
             i in db.reports && j in db.reports && i != j
             && db.reports[i].plant == db.reports[j].plant && db.reports[i].kind == db.reports[j].kind
    ensures var db := Run(Fresh(plants), ops);
            db.reports[i].start < db.reports[i].end && !CommonInstant(db.reports[i], db.reports[j])
  {
    RunKeeps(Fresh(plants), ops);
    RunTiled(Fresh(plants), ops, zones);
    var db := Run(Fresh(plants), ops);
    assert IsTiled(db.reports[i], zones) && IsTiled(db.reports[j], zones);
    TiledReportsMeetIff(db.reports[i], db.reports[j], zones);
    assert !HasKey(db.reports[i], db.reports[j].plant, db.reports[j].kind, db.reports[j].start);
  }

  /** And only then: any two wall clocks that do not agree have a run of two generations, one on
      each, that stores two reports of one plant and type with a common instant. */
  lemma DoubleCounting(plant: string, kind: Kind, a: int, b: int, figures: Figures) returns (ops: seq<Op>)
    requires -Micros(1) < a < Micros(1) && -Micros(1) < b < Micros(1) && !OffsetsAgree(kind, a, b)
    ensures |ops| == 2 && ops[0].Generate? && ops[1].Generate? && ops[0].ref.offset == a && ops[1].ref.offset == b
    ensures Feasible(Fresh({plant}), ops)
    ensures var reports := Run(Fresh({plant}), ops).reports;
            && 1 in reports && 2 in reports && CommonInstant(reports[1], reports[2])
            && reports[1].plant == reports[2].plant == plant && reports[1].kind == reports[2].kind == kind
  {
    var r, r' := OverlapAcrossOffsets(kind, a, b);
    var op, op' := Generate(plant, kind, r, false, Some(figures)), Generate(plant, kind, r', false, Some(figures));
    ops := [op, op'];
    PeriodWindowIsTile(kind, r, false);
    PeriodWindowIsTile(kind, r', false);
    var v, w := PeriodWindow(kind, r, false).value, PeriodWindow(kind, r', false).value;
    var first := Step(Fresh({plant}), op);
    assert first.reports == map[1 := NewReport(plant, kind, Instant(v.start), Instant(v.end), figures)];
    assert !exists id :: IdHasKey(first.reports, id, plant, kind, Instant(w.start));
    var second := Step(first, op');
    assert second.reports[2] == NewReport(plant, kind, Instant(w.start), Instant(w.end), figures);
    assert ops[1..] == [op'] && [op'][1..] == [];
    assert Run(first, [op']) == second;
  }
}
