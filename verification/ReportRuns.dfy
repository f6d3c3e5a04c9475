/** What holds after every sequence of report operations. */
module ReportRuns {
  import opened Options
  import opened Trails
  import opened Calendar
  import opened PeriodWindows
  import opened ReportStore

  const EXPORT_LIMIT := 20

  datatype Op =
    | Generate(plant: string, kind: Kind, ref: DateTime, completedOnly: bool, data: Option<Figures>)
    | Assure(id: nat, event: EventKind, signature: Signature)
    | Sync(filter: Option<string>, rows: seq<nat>, lockedOnly: bool, api: Api)

  /** References are taken on any wall clock, and a sync exports what the query returns. */
  ghost predicate Allowed(db: Db, op: Op) {
    match op
    case Generate(_, _, ref, _, _) => Valid(ref)
    case Assure(_, _, _) => true
    case Sync(filter, rows, lockedOnly, _) => QueryResult(db, filter, lockedOnly, EXPORT_LIMIT, rows)
  }

  ghost function Step(db: Db, op: Op): Db
    requires Allowed(db, op)
  {
    match op
    case Generate(plant, kind, ref, completedOnly, data) => Generated(db, plant, kind, ref, completedOnly, data).0
    case Assure(id, event, signature) => Assured(db, id, event, signature).0
    case Sync(_, rows, lockedOnly, api) => SyncedDb(db, rows, lockedOnly, api)
  }

  ghost predicate Feasible(db: Db, ops: seq<Op>)
    decreases |ops|
  {
    ops != [] ==> Allowed(db, ops[0]) && Feasible(Step(db, ops[0]), ops[1..])
  }

  ghost function Run(db: Db, ops: seq<Op>): Db
    requires Feasible(db, ops)
    decreases |ops|
  {
    if ops == [] then db else Run(Step(db, ops[0]), ops[1..])
  }

  function Fresh(plants: set<string>): Db { Db(plants, map[], 1, [], []) }

  // ----- the assurance trail ------------------------------------------------------------------

  /** The status a trail leads to, if every step in it was permitted. */
  function Replay(events: seq<EventKind>): Option<Status> {
    if events == [] then Some(Draft)
    else
      var last := events[|events| - 1];
      match Replay(events[..|events| - 1])
      case Some(s) => if MayMove(s, last) then Some(MovedTo(last)) else None
      case None => None
  }

  function Submissions(n: nat): seq<EventKind> {
    seq(n, i => WasSubmitted)
  }

  /** The trail each status stands for: drafts have none, and a locked report was submitted at
      least once, then approved once, then locked once, and nothing after. */
  ghost predicate TrailShape(events: seq<EventKind>, s: Status) {
    match s
    case Draft => events == []
    case InReview => exists n: nat :: n > 0 && events == Submissions(n)
    case Approved => exists n: nat :: n > 0 && events == Submissions(n) + [WasApproved]
    case Locked => exists n: nat :: n > 0 && events == Submissions(n) + [WasApproved, WasLocked]
  }

  lemma {:induction false} ReplayShape(events: seq<EventKind>, s: Status)
    requires Replay(events) == Some(s)
    ensures TrailShape(events, s)
  {
    if events != [] {
      var rest, last := events[..|events| - 1], events[|events| - 1];
      assert events == rest + [last];
      var before := Replay(rest).value;
      ReplayShape(rest, before);
      match before {
        case Draft => assert events == Submissions(1);
        case InReview =>
          var n: nat :| n > 0 && rest == Submissions(n);
          if last == WasSubmitted { assert events == Submissions(n + 1); }
        case Approved =>
          var n: nat :| n > 0 && rest == Submissions(n) + [WasApproved];
          assert events == Submissions(n) + [WasApproved, WasLocked];
        case Locked =>
      }
    }
  }

  // ----- the invariant ------------------------------------------------------------------------

  ghost predicate TrailTellsStatus(db: Db) {
    forall id :: id in db.reports ==> Replay(EventsOf(db.trail, id)) == Some(db.reports[id].status)
  }

  ghost predicate ExportTrue(db: Db, b: Batch) {
    forall item :: item in b.items ==>
      item.report in db.reports && db.reports[item.report].status == Locked
        && item == ItemOf(item.report, db.reports[item.report])
  }

  ghost predicate ExportsTrue(db: Db) {
    forall b :: b in db.batches && b.lockedOnly ==> ExportTrue(db, b)
  }

  ghost predicate Inv(db: Db) {
    Consistent(db) && TrailTellsStatus(db) && ExportsTrue(db)
  }

  /** Nothing about a locked report is touched, and no report disappears. */
  ghost predicate KeepsLocked(db: Db, db': Db) {
    && (forall id :: id in db.reports ==> id in db'.reports)
    && (forall id :: id in db.reports && db.reports[id].status == Locked ==>
          db'.reports[id] == db.reports[id] && EventsOf(db'.trail, id) == EventsOf(db.trail, id))
  }

  lemma ExportsSurvive(db: Db, db': Db)
    requires ExportsTrue(db) && KeepsLocked(db, db') && db'.batches == db.batches
    ensures ExportsTrue(db')
  {
    forall b | b in db'.batches && b.lockedOnly
      ensures ExportTrue(db', b)
    {
      assert ExportTrue(db, b);
    }
  }

  lemma UpsertKeeps(db: Db, plant: string, kind: Kind, start: int, end: int, figures: Figures)
    requires Inv(db) && plant in db.plants
    ensures var db' := Upserted(db, plant, kind, start, end, figures).0; Inv(db') && KeepsLocked(db, db')
  {
    var (db', outcome) := Upserted(db, plant, kind, start, end, figures);
    if outcome.Stored? {
      var id := outcome.id;
      UpsertConsistent(db, plant, kind, start, end, figures);
      assert db' == db.(reports := db.reports[id := db'.reports[id]], nextId := db'.nextId);
      PutKeeps(db, id, db'.reports[id], db'.nextId);
    }
  }

  /** Putting a row that is new, or that differs from an unlocked one only in its window's end
      and its figures. */
  lemma PutKeeps(db: Db, id: nat, r: Report, nextId: nat)
    requires Inv(db) && db.nextId <= nextId
    requires Consistent(db.(reports := db.reports[id := r], nextId := nextId))
    requires if id in db.reports then r.status == db.reports[id].status != Locked else r.status == Draft
    ensures var db' := db.(reports := db.reports[id := r], nextId := nextId); Inv(db') && KeepsLocked(db, db')
  {
    if id !in db.reports { NoEventsYet(db.trail, id); }
    ExportsSurvive(db, db.(reports := db.reports[id := r], nextId := nextId));
  }

  lemma GenerateKeeps(db: Db, plant: string, kind: Kind, ref: DateTime, completedOnly: bool, data: Option<Figures>)
    requires Inv(db) && Valid(ref)
    ensures var db' := Generated(db, plant, kind, ref, completedOnly, data).0;
            Inv(db') && KeepsLocked(db, db')
  {
    PeriodWindowIsTile(kind, ref, completedOnly);
    var w := PeriodWindow(kind, ref, completedOnly);
    if w.Ok? && plant in db.plants && data.Some? {
      UpsertKeeps(db, plant, kind, Instant(w.value.start), Instant(w.value.end), data.value);
    }
  }

  lemma AssureKeeps(db: Db, id: nat, e: EventKind, s: Signature)
    requires Inv(db)
    ensures var db' := Assured(db, id, e, s).0;
            Inv(db') && KeepsLocked(db, db')
  {
    if id in db.reports && MayMove(db.reports[id].status, e) {
      AssureConsistent(db, id, e, s);
      AssureTrail(db, id, e, s);
      ExportsSurvive(db, Assured(db, id, e, s).0);
    }
  }

  lemma AssureConsistent(db: Db, id: nat, e: EventKind, s: Signature)
    requires Consistent(db) && id in db.reports
    ensures Consistent(Assured(db, id, e, s).0)
  {
  }

  lemma AssureTrail(db: Db, id: nat, e: EventKind, s: Signature)
    requires TrailTellsStatus(db) && id in db.reports && MayMove(db.reports[id].status, e)
    ensures TrailTellsStatus(Assured(db, id, e, s).0) && KeepsLocked(db, Assured(db, id, e, s).0)
  {
    var db' := Assured(db, id, e, s).0;
    forall i: nat | i in db.reports
      ensures Replay(EventsOf(db'.trail, i)) == Some(db'.reports[i].status)
      ensures i != id ==> EventsOf(db'.trail, i) == EventsOf(db.trail, i)
    {
      EventAppended(db.trail, Event(id, e, s.actor), i);
      if i == id {
        ReplayAppended(EventsOf(db.trail, id), e);
      } else {
        assert EventsOf(db.trail, i) + [] == EventsOf(db.trail, i);
      }
    }
  }

  lemma {:induction false} ReplayAppended(events: seq<EventKind>, e: EventKind)
    requires Replay(events).Some? && MayMove(Replay(events).value, e)
    ensures Replay(events + [e]) == Some(MovedTo(e))
  {
    assert (events + [e])[..|events|] == events;
  }

  lemma SyncKeeps(db: Db, filter: Option<string>, rows: seq<nat>, lockedOnly: bool, api: Api)
    requires Inv(db) && QueryResult(db, filter, lockedOnly, EXPORT_LIMIT, rows)
    ensures var db' := SyncedDb(db, rows, lockedOnly, api);
            Inv(db') && KeepsLocked(db, db')
  {
    var db' := SyncedDb(db, rows, lockedOnly, api);
    forall b | b in db'.batches && b.lockedOnly
      ensures ExportTrue(db', b)
    {
      if b in db.batches {
        assert ExportTrue(db, b);
      } else {
        assert b.items == Payload(db.reports, rows);
      }
    }
  }

  lemma StepKeeps(db: Db, op: Op)
    requires Inv(db) && Allowed(db, op)
    ensures Inv(Step(db, op)) && KeepsLocked(db, Step(db, op))
  {
    match op
    case Generate(plant, kind, ref, completedOnly, data) => GenerateKeeps(db, plant, kind, ref, completedOnly, data);
    case Assure(id, event, signature) => AssureKeeps(db, id, event, signature);
    case Sync(filter, rows, lockedOnly, api) => SyncKeeps(db, filter, rows, lockedOnly, api);
  }

  lemma {:induction false} RunKeeps(db: Db, ops: seq<Op>)
    requires Inv(db) && Feasible(db, ops)
    ensures Inv(Run(db, ops)) && KeepsLocked(db, Run(db, ops))
    decreases |ops|
  {
    if ops != [] {
      StepKeeps(db, ops[0]);
      RunKeeps(Step(db, ops[0]), ops[1..]);
    }
  }

  // ----- main results -------------------------------------------------------------------------

  /** In every reachable state the trail tells the status, and in only one way. */
  lemma {:induction false} StatusMatchesTrail(plants: set<string>, ops: seq<Op>, id: nat)
    requires Feasible(Fresh(plants), ops) && id in Run(Fresh(plants), ops).reports
    ensures var db := Run(Fresh(plants), ops);
            forall s :: TrailShape(EventsOf(db.trail, id), s) <==> s == db.reports[id].status
  {
    RunKeeps(Fresh(plants), ops);
    var db := Run(Fresh(plants), ops);
    var events := EventsOf(db.trail, id);
    ReplayShape(events, db.reports[id].status);
    forall s | TrailShape(events, s)
      ensures s == db.reports[id].status
    {
      ShapesDiffer(events, s, db.reports[id].status);
    }
  }

  lemma ShapesDiffer(events: seq<EventKind>, s: Status, t: Status)
    requires TrailShape(events, s) && TrailShape(events, t)
    ensures s == t
  {
    LastOfShape(events, s);
    LastOfShape(events, t);
  }

  lemma LastOfShape(events: seq<EventKind>, s: Status)
    requires TrailShape(events, s)
    ensures s == if events == [] then Draft else MovedTo(events[|events| - 1])
  {
  }

  /** Once locked, a report never changes again: figures, window, signers and trail are frozen. */
  lemma {:induction false} LockedIsFrozen(db: Db, ops: seq<Op>, id: nat)
    requires Inv(db) && Feasible(db, ops)
    requires id in db.reports && db.reports[id].status == Locked
    ensures var db' := Run(db, ops);
            id in db'.reports && db'.reports[id] == db.reports[id] && EventsOf(db'.trail, id) == EventsOf(db.trail, id)
  {
    RunKeeps(db, ops);
  }

  /** Any two locked-only registry batches, whenever they were made, state the same thing about
      the same report. */
  lemma {:induction false} ExportsAgree(plants: set<string>, ops: seq<Op>, a: Batch, b: Batch, x: Item, y: Item)
    requires Feasible(Fresh(plants), ops)
    requires var db := Run(Fresh(plants), ops); a in db.batches && b in db.batches
    requires a.lockedOnly && b.lockedOnly && x in a.items && y in b.items && x.report == y.report
    ensures x == y && x.status == Locked
    ensures x.total == x.figures.scope1 + x.figures.scope2 + x.figures.scope3
  {
    RunKeeps(Fresh(plants), ops);
    var db := Run(Fresh(plants), ops);
    assert ExportTrue(db, a) && ExportTrue(db, b);
  }

  // ----- what approval does not promise -------------------------------------------------------

  /** `op` rewrites the figures of report `id`. */
  ghost predicate Regenerates(db: Db, op: Op, id: nat) {
    && op.Generate? && Valid(op.ref) && op.plant in db.plants && op.data.Some?
    && PeriodWindow(op.kind, op.ref, op.completedOnly).Ok?
    && Valid(PeriodWindow(op.kind, op.ref, op.completedOnly).value.start)
    && IdHasKey(db.reports, id, op.plant, op.kind, Instant(PeriodWindow(op.kind, op.ref, op.completedOnly).value.start))
  }

  /** The figures of a report change in a step exactly when a generation hits its key with other
      figures and it is not locked; being in review or approved does not protect it. */
  lemma FiguresChangeIff(db: Db, op: Op, id: nat)
    requires Inv(db) && Allowed(db, op) && id in db.reports
    ensures Step(db, op).reports[id].figures != db.reports[id].figures
            <==> Regenerates(db, op, id) && db.reports[id].status != Locked && op.data.value != db.reports[id].figures
  {
    if op.Generate? {
      PeriodWindowIsTile(op.kind, op.ref, op.completedOnly);
      var w := PeriodWindow(op.kind, op.ref, op.completedOnly);
      if w.Ok? && op.plant in db.plants && op.data.Some? {
        UpsertFigures(db, op.plant, op.kind, Instant(w.value.start), Instant(w.value.end), op.data.value, id);
      }
    }
  }

  lemma UpsertFigures(db: Db, plant: string, kind: Kind, start: int, end: int, figures: Figures, id: nat)
    requires Consistent(db) && id in db.reports
    ensures Upserted(db, plant, kind, start, end, figures).0.reports[id].figures
            == if IdHasKey(db.reports, id, plant, kind, start) && db.reports[id].status != Locked then figures
            else db.reports[id].figures
  {
  }

  /** So the figures that get locked need not be the figures that were approved: here a daily
      report is generated, submitted, approved, and generated again from other readings. */
  lemma ApprovedFiguresCanChange(noon: DateTime, figures: Figures, figures': Figures) returns (approved: Db, again: Db)
    requires Valid(noon) && !InFirst(Daily, noon.date)
    requires figures != figures'
    ensures var sig := Signature("auditor", 0);
            var drafted := Step(Fresh({"olefin"}), Generate("olefin", Daily, noon, true, Some(figures)));
            var submitted := Step(drafted, Assure(1, WasSubmitted, sig));
            && approved == Step(submitted, Assure(1, WasApproved, sig))
            && again == Step(approved, Generate("olefin", Daily, noon, true, Some(figures')))
    ensures 1 in approved.reports && approved.reports[1].status == Approved && approved.reports[1].figures == figures
    ensures 1 in again.reports && again.reports[1].status == Approved && again.reports[1].figures == figures'
  {
    var sig := Signature("auditor", 0);
    var none := Fresh({"olefin"});
    PeriodWindowIsTile(Daily, noon, true);
    var w := PeriodWindow(Daily, noon, true).value;
    var start, end := Instant(w.start), Instant(w.end);
    var drafted := Step(none, Generate("olefin", Daily, noon, true, Some(figures)));
    assert drafted == Upserted(none, "olefin", Daily, start, end, figures).0;
    assert drafted.reports == map[1 := NewReport("olefin", Daily, start, end, figures)];
    var submitted := Step(drafted, Assure(1, WasSubmitted, sig));
    approved := Step(submitted, Assure(1, WasApproved, sig));
    again := Step(approved, Generate("olefin", Daily, noon, true, Some(figures')));
    assert again == Upserted(approved, "olefin", Daily, start, end, figures').0;
    assert IdHasKey(approved.reports, 1, "olefin", Daily, start);
    assert approved.reports.Keys == {1};
  }

  // ----- what the assurance steps make possible ----------------------------------------------

  /** The assurance steps a report still has to take to be locked. */
  function StepsLeft(s: Status): seq<EventKind> {
    match s
    case Draft => [WasSubmitted, WasApproved, WasLocked]
    case InReview => [WasApproved, WasLocked]
    case Approved => [WasLocked]
    case Locked => []
  }

  function Signing(id: nat, steps: seq<EventKind>, sig: Signature): seq<Op> {
    seq(|steps|, k requires 0 <= k < |steps| => Assure(id, steps[k], sig))
  }

  /** The report once they are taken. */
  function LockedRow(r: Report, sig: Signature): Report {
    r.(status := Locked,
       submitted := if r.status == Draft then Some(sig) else r.submitted,
       approved := if r.status in {Draft, InReview} then Some(sig) else r.approved,
       locked := if r.status != Locked then Some(sig) else r.locked)
  }

  /** Every report can be locked: taking the steps that are left leads there, each signed, and touches
      neither its figures nor any other report. */
  lemma {:induction false} CanBeLocked(db: Db, id: nat, sig: Signature)
    requires id in db.reports
    ensures var ops := Signing(id, StepsLeft(db.reports[id].status), sig);
            Feasible(db, ops) && Run(db, ops).reports == db.reports[id := LockedRow(db.reports[id], sig)]
    decreases |StepsLeft(db.reports[id].status)|
  {
    var steps := StepsLeft(db.reports[id].status);
    var ops := Signing(id, steps, sig);
    if steps == [] {
      assert LockedRow(db.reports[id], sig) == db.reports[id];
    } else {
      var next := Step(db, ops[0]);
      OneStepLeft(db, id, sig);
      assert ops[1..] == Signing(id, steps[1..], sig);
      CanBeLocked(next, id, sig);
      assert next.reports[id := LockedRow(next.reports[id], sig)] == db.reports[id := LockedRow(next.reports[id], sig)];
    }
  }

  lemma OneStepLeft(db: Db, id: nat, sig: Signature)
    requires id in db.reports && db.reports[id].status != Locked
    ensures var steps := StepsLeft(db.reports[id].status);
            var next := Assured(db, id, steps[0], sig).0;
            && id in next.reports && next.reports == db.reports[id := next.reports[id]]
            && StepsLeft(next.reports[id].status) == steps[1..]
            && LockedRow(next.reports[id], sig) == LockedRow(db.reports[id], sig)
  {
  }

  /** A step that is out of turn is refused and changes nothing: only a draft or a report in review can
      be submitted, only one in review approved, and only an approved one locked. */
  lemma RefusedOutOfTurn(db: Db, id: nat, e: EventKind, sig: Signature)
    requires id in db.reports
    ensures var s := db.reports[id].status;
            var inTurn := if e == WasSubmitted then s in {Draft, InReview} else if e == WasApproved then s == InReview
              else s == Approved;
            && (Assured(db, id, e, sig).1 == Moved(id) <==> inTurn)
            && (!inTurn ==> Assured(db, id, e, sig) == (db, BadTransition(s)))
  {
  }

  // ----- what a batch states ------------------------------------------------------------------

  /** An item states the report with its number, and the sum of its three scopes. */
  predicate States(x: Item, r: Report) {
    && x.plant == r.plant && x.kind == r.kind && x.start == r.start && x.end == r.end && x.figures == r.figures
    && x.status == r.status && x.total == r.figures.scope1 + r.figures.scope2 + r.figures.scope3
  }

  /** Of the plant asked for, if one is, and locked, if it has to be. */
  predicate IsWanted(r: Report, filter: Option<string>, lockedOnly: bool) {
    (filter.Some? ==> filter.value == r.plant) && (r.status == Locked || !lockedOnly)
  }

  ghost predicate AnyMatches(db: Db, filter: Option<string>, lockedOnly: bool) {
    exists id :: id in db.reports && IsWanted(db.reports[id], filter, lockedOnly)
  }

  ghost predicate ItemsState(db: Db, b: Batch, filter: Option<string>) {
    && (forall k :: 0 <= k < |b.items| ==>
          && b.items[k].report in db.reports && States(b.items[k], db.reports[b.items[k].report])
          && (filter.Some? ==> b.items[k].plant == filter.value) && (b.lockedOnly ==> b.items[k].status == Locked))
    && (forall j, k :: 0 <= j < k < |b.items| ==>
          b.items[j].report != b.items[k].report && b.items[j].start >= b.items[k].start)
  }

  ghost predicate Exported(b: Batch, id: nat) {
    exists k :: 0 <= k < |b.items| && b.items[k].report == id
  }

  /** Empty exactly when only locked reports were wanted and none matched, synced exactly when something
      matched and the registry took it, failed exactly when something matched and it did not. */
  ghost predicate StatusStates(db: Db, b: Batch, filter: Option<string>, api: Api) {
    && (b.status == Empty <==> b.lockedOnly && !AnyMatches(db, filter, b.lockedOnly))
    && (b.status == Synced <==> AnyMatches(db, filter, b.lockedOnly) && api == Accepts)
    && (b.status == Failed <==> AnyMatches(db, filter, b.lockedOnly) && api == Fails)
  }

  /** Every matching report is in the batch as long as they are fewer than twenty. */
  ghost predicate IsComplete(db: Db, b: Batch, filter: Option<string>) {
    |b.items| < 20 ==>
      forall id :: id in db.reports && IsWanted(db.reports[id], filter, b.lockedOnly) ==> Exported(b, id)
  }

  /** What the batch a sync adds states: each item a matching report, once, the newest first; all of
      them, if they are few; and by its status what became of it. */
  lemma SyncStates(db: Db, filter: Option<string>, rows: seq<nat>, lockedOnly: bool, api: Api) returns (b: Batch)
    requires QueryResult(db, filter, lockedOnly, EXPORT_LIMIT, rows)
    ensures Step(db, Sync(filter, rows, lockedOnly, api)) == db.(batches := db.batches + [b])
    ensures b.lockedOnly == lockedOnly && |b.items| <= 20
    ensures ItemsState(db, b, filter) && IsComplete(db, b, filter) && StatusStates(db, b, filter, api)
  {
    b := Batch(lockedOnly, Payload(db.reports, rows), SyncOutcome(Payload(db.reports, rows), lockedOnly, api));
    RowsMatch(db, filter, rows, lockedOnly);
    BatchStates(db, filter, rows, b);
    BatchIsComplete(db, filter, rows, b);
  }

  lemma BatchStates(db: Db, filter: Option<string>, rows: seq<nat>, b: Batch)
    requires QueryResult(db, filter, b.lockedOnly, EXPORT_LIMIT, rows) && b.items == Payload(db.reports, rows)
    ensures ItemsState(db, b, filter)
  {
  }

  lemma BatchIsComplete(db: Db, filter: Option<string>, rows: seq<nat>, b: Batch)
    requires QueryResult(db, filter, b.lockedOnly, EXPORT_LIMIT, rows) && b.items == Payload(db.reports, rows)
    ensures IsComplete(db, b, filter)
  {
    forall id: nat | id in db.reports && IsWanted(db.reports[id], filter, b.lockedOnly) && |b.items| < 20
      ensures Exported(b, id)
    {
      assert Matches(db.reports[id], filter, b.lockedOnly);
      var k :| 0 <= k < |rows| && rows[k] == id;
      assert b.items[k].report == id;
    }
  }

  lemma RowsMatch(db: Db, filter: Option<string>, rows: seq<nat>, lockedOnly: bool)
    requires QueryResult(db, filter, lockedOnly, EXPORT_LIMIT, rows)
    ensures rows == [] <==> !AnyMatches(db, filter, lockedOnly)
  {
    if rows != [] { assert rows[0] in db.reports && IsWanted(db.reports[rows[0]], filter, lockedOnly); }
    forall id | id in db.reports && IsWanted(db.reports[id], filter, lockedOnly)
      ensures rows != []
    {
      assert Matches(db.reports[id], filter, lockedOnly);
    }
  }
}
