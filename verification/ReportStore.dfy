/** The carbon report table, its assurance trail and the registry log, with the operations of
    app/carbon/reports.py, assurance.py and market.py.  Each operation is one committed
    transaction. */
module ReportStore {
  import opened Options
  import opened Trails
  import opened Calendar
  import opened PeriodWindows

  datatype Status = Draft | InReview | Approved | Locked

  /** What `generate_and_persist_report` computes from the readings of the window. */
  datatype Figures = Figures(
    scope1: real, scope2: real, scope3: real, intensity: real, product: real, samples: nat, factors: string)

  /** Who took an assurance step, and when. */
  datatype Signature = Signature(actor: string, at: int)

  /** A report row.  `start` and `end` are instants. */
  datatype Report = Report(
    plant: string, kind: Kind, start: int, end: int, figures: Figures, status: Status,
    submitted: Option<Signature>, approved: Option<Signature>, locked: Option<Signature>)

  datatype EventKind = WasSubmitted | WasApproved | WasLocked

  /** One report in a registry payload. */
  datatype Item = Item(report: nat, plant: string, kind: Kind, start: int, end: int,
                       figures: Figures, total: real, status: Status)

  datatype SyncStatus = Empty | Staged | Synced | Failed
  datatype Batch = Batch(lockedOnly: bool, items: seq<Item>, status: SyncStatus)

  datatype Db = Db(plants: set<string>, reports: map<nat, Report>, nextId: nat,
                   trail: seq<Event<EventKind>>, batches: seq<Batch>)

  datatype Outcome =
    | Stored(id: nat)          // inserted or updated
    | Skipped(id: nat)         // locked, left alone
    | NoData
    | UnknownPlant
    | BadReference
    | Moved(id: nat)           // assurance transition done
    | NotFound
    | BadTransition(status: Status)

  predicate HasKey(r: Report, plant: string, kind: Kind, start: int) {
    r.plant == plant && r.kind == kind && r.start == start
  }

  predicate IdHasKey(reports: map<nat, Report>, id: nat, plant: string, kind: Kind, start: int) {
    id in reports && HasKey(reports[id], plant, kind, start)
  }

  /** The table's unique constraint on (plant, period start, period type), and its serial ids. */
  ghost predicate Consistent(db: Db) {
    && (forall id :: id in db.reports ==> id < db.nextId && db.reports[id].plant in db.plants)
    && (forall i, j :: i in db.reports && j in db.reports && i != j ==>
          !HasKey(db.reports[i], db.reports[j].plant, db.reports[j].kind, db.reports[j].start))
    && (forall k :: 0 <= k < |db.trail| ==> db.trail[k].subject in db.reports)
  }

  // ----- the operations as functions of the state ---------------------------------------------

  function NewReport(plant: string, kind: Kind, start: int, end: int, figures: Figures): Report {
    Report(plant, kind, start, end, figures, Draft, None, None, None)
  }

  /** Insert, update or skip: one row per (plant, start, kind), and a locked row is left alone. */
  ghost function Upserted(db: Db, plant: string, kind: Kind, start: int, end: int, figures: Figures): (Db, Outcome) {
    if exists id :: IdHasKey(db.reports, id, plant, kind, start) then
      var id :| IdHasKey(db.reports, id, plant, kind, start);
      if db.reports[id].status == Locked then (db, Skipped(id))
      else (db.(reports := db.reports[id := db.reports[id].(end := end, figures := figures)]), Stored(id))
    else
      (db.(reports := db.reports[db.nextId := NewReport(plant, kind, start, end, figures)], nextId := db.nextId + 1),
       Stored(db.nextId))
  }

  lemma UpsertConsistent(db: Db, plant: string, kind: Kind, start: int, end: int, figures: Figures)
    requires Consistent(db) && plant in db.plants
    ensures Consistent(Upserted(db, plant, kind, start, end, figures).0)
  {
    var (db', outcome) := Upserted(db, plant, kind, start, end, figures);
    if !exists id :: IdHasKey(db.reports, id, plant, kind, start) {
      forall i | i in db.reports
        ensures !HasKey(db'.reports[i], plant, kind, start)
      {
        assert !IdHasKey(db.reports, i, plant, kind, start);
      }
    }
  }

  ghost function Generated(db: Db, plant: string, kind: Kind, ref: DateTime, completedOnly: bool,
                           data: Option<Figures>): (r: (Db, Outcome))
    requires Valid(ref)
  {
    PeriodWindowIsTile(kind, ref, completedOnly);
    match PeriodWindow(kind, ref, completedOnly)
    case OutOfRange => (db, BadReference)
    case Ok(w) =>
      if plant !in db.plants then (db, UnknownPlant)
      else if data == None then (db, NoData)
      else Upserted(db, plant, kind, Instant(w.start), Instant(w.end), data.value)
  }

  /** The assurance step of one event kind on one report: its guard and its effect. */
  predicate MayMove(s: Status, e: EventKind) {
    match e
    case WasSubmitted => s == Draft || s == InReview
    case WasApproved => s == InReview
    case WasLocked => s == Approved
  }

  function MovedTo(e: EventKind): Status {
    match e case WasSubmitted => InReview case WasApproved => Approved case WasLocked => Locked
  }

  function Signed(r: Report, e: EventKind, s: Signature): Report {
    match e
    case WasSubmitted => r.(status := InReview, submitted := Some(s))
    case WasApproved => r.(status := Approved, approved := Some(s))
    case WasLocked => r.(status := Locked, locked := Some(s))
  }

  function Assured(db: Db, id: nat, e: EventKind, s: Signature): (Db, Outcome) {
    if id !in db.reports then (db, NotFound)
    else if !MayMove(db.reports[id].status, e) then (db, BadTransition(db.reports[id].status))
    else (db.(reports := db.reports[id := Signed(db.reports[id], e, s)], trail := db.trail + [Event(id, e, s.actor)]),
          Moved(id))
  }

  predicate Matches(r: Report, plant: Option<string>, lockedOnly: bool) {
    (plant == None || r.plant == plant.value) && (lockedOnly ==> r.status == Locked)
  }

  /** A result of the registry query: distinct matching rows, newest first, at most `limit` of
      them, and nothing newer left out.  The order among equal starts is the database's. */
  ghost predicate QueryResult(db: Db, plant: Option<string>, lockedOnly: bool, limit: nat, rows: seq<nat>) {
    && (forall k :: 0 <= k < |rows| ==> rows[k] in db.reports && Matches(db.reports[rows[k]], plant, lockedOnly))
    && (forall j, k :: 0 <= j < k < |rows| ==>
        rows[j] != rows[k] && db.reports[rows[j]].start >= db.reports[rows[k]].start)
    && |rows| <= limit
    && (forall id :: id in db.reports && Matches(db.reports[id], plant, lockedOnly) && id !in rows ==>
          |rows| == limit && forall k :: 0 <= k < limit ==> db.reports[rows[k]].start >= db.reports[id].start)
  }

  function ItemOf(id: nat, r: Report): Item {
    Item(id, r.plant, r.kind, r.start, r.end, r.figures, r.figures.scope1 + r.figures.scope2 + r.figures.scope3,
         r.status)
  }

  function Payload(reports: map<nat, Report>, rows: seq<nat>): (items: seq<Item>)
    requires forall k :: 0 <= k < |rows| ==> rows[k] in reports
    ensures |items| == |rows| && forall k :: 0 <= k < |rows| ==> items[k] == ItemOf(rows[k], reports[rows[k]])
  {
    seq(|rows|, k requires 0 <= k < |rows| => ItemOf(rows[k], reports[rows[k]]))
  }

  /** The registry API: not configured, or answering one way or the other. */
  datatype Api = NoApi | Accepts | Fails

  function SyncOutcome(items: seq<Item>, lockedOnly: bool, api: Api): SyncStatus {
    if items == [] && lockedOnly then Empty
    else if api == NoApi || items == [] then Staged
    else if api == Accepts then Synced
    else Failed
  }

  function SyncedDb(db: Db, rows: seq<nat>, lockedOnly: bool, api: Api): Db
    requires forall k :: 0 <= k < |rows| ==> rows[k] in db.reports
  {
    var items := Payload(db.reports, rows);
    db.(batches := db.batches + [Batch(lockedOnly, items, SyncOutcome(items, lockedOnly, api))])
  }

  // ----- the operations in place --------------------------------------------------------------

  class Store {
    const plants: set<string>
    var reports: map<nat, Report>
    var nextId: nat
    var trail: seq<Event<EventKind>>
    var batches: seq<Batch>

    ghost function State(): Db
      reads this
    {
      Db(plants, reports, nextId, trail, batches)
    }

    constructor (plants: set<string>)
      ensures State() == Db(plants, map[], 1, [], [])
      ensures Consistent(State())
    {
      this.plants := plants;
      reports, nextId, trail, batches := map[], 1, [], [];
    }

    /** `generate_and_persist_report`; `data` is what aggregating the window's readings gives. */
    method Generate(plant: string, kind: Kind, ref: DateTime, completedOnly: bool, data: Option<Figures>)
      returns (r: Outcome)
      requires Valid(ref) && Consistent(State())
      modifies this
      ensures (State(), r) == Generated(old(State()), plant, kind, ref, completedOnly, data)
      ensures Consistent(State())
    {
      PeriodWindowIsTile(kind, ref, completedOnly);
      var window := PeriodWindow(kind, ref, completedOnly);
      if window == OutOfRange { return BadReference; }
      if plant !in plants { return UnknownPlant; }
      if data == None { return NoData; }
      r := Upsert(plant, kind, Instant(window.value.start), Instant(window.value.end), data.value);
    }

    method Upsert(plant: string, kind: Kind, start: int, end: int, figures: Figures) returns (r: Outcome)
      requires Consistent(State()) && plant in plants
      modifies this`reports, this`nextId
      ensures (State(), r) == Upserted(old(State()), plant, kind, start, end, figures)
      ensures Consistent(State())
    {
      UpsertConsistent(State(), plant, kind, start, end, figures);
      if exists id :: id in reports && IdHasKey(reports, id, plant, kind, start) {
        var id :| id in reports && IdHasKey(reports, id, plant, kind, start);
        var report := reports[id];
        if report.status == Locked { return Skipped(id); }
        report := report.(end := end);
        report := report.(figures := figures);
        reports := reports[id := report];
        return Stored(id);
      }
      assert !exists id :: IdHasKey(reports, id, plant, kind, start);
      var id := nextId;
      reports := reports[id := NewReport(plant, kind, start, end, figures)];
      nextId := nextId + 1;
      return Stored(id);
    }

    /** `submit_report`, `approve_report` and `lock_report`. */
    method Assure(id: nat, e: EventKind, actor: string, now: int) returns (r: Outcome)
      requires Consistent(State())
      modifies this`reports, this`trail
      ensures (State(), r) == Assured(old(State()), id, e, Signature(actor, now))
      ensures Consistent(State())
    {
      if id !in reports { return NotFound; }
      var report := reports[id];
      match e {
        case WasSubmitted =>
          if report.status != Draft && report.status != InReview { return BadTransition(report.status); }
          report := report.(status := InReview, submitted := Some(Signature(actor, now)));
        case WasApproved =>
          if report.status != InReview { return BadTransition(report.status); }
          report := report.(status := Approved, approved := Some(Signature(actor, now)));
        case WasLocked =>
          if report.status != Approved { return BadTransition(report.status); }
          report := report.(status := Locked, locked := Some(Signature(actor, now)));
      }
      reports := reports[id := report];
      trail := trail + [Event(id, e, actor)];
      return Moved(id);
    }

    /** `build_registry_payload`: the loop over the rows the query returned. */
    method BuildPayload(rows: seq<nat>) returns (items: seq<Item>)
      requires forall k :: 0 <= k < |rows| ==> rows[k] in reports
      ensures items == Payload(reports, rows)
    {
      items := [];
      for k := 0 to |rows|
        invariant |items| == k
        invariant forall j :: 0 <= j < k ==> items[j] == ItemOf(rows[j], reports[rows[j]])
      {
        var report := reports[rows[k]];
        var total := report.figures.scope1 + report.figures.scope2 + report.figures.scope3;
        items := items + [Item(rows[k], report.plant, report.kind, report.start, report.end, report.figures, total,
                               report.status)];
      }
    }

    /** `sync_carbon_market`. */
    method Sync(rows: seq<nat>, lockedOnly: bool, api: Api) returns (status: SyncStatus)
      requires Consistent(State()) && forall k :: 0 <= k < |rows| ==> rows[k] in reports
      modifies this`batches
      ensures State() == SyncedDb(old(State()), rows, lockedOnly, api)
      ensures Consistent(State())
    {
      var payload := BuildPayload(rows);
      if payload == [] && lockedOnly {
        status := Empty;
      } else {
        status := Staged;
        if api != NoApi && payload != [] {
          status := if api == Accepts then Synced else Failed;
        }
      }
      batches := batches + [Batch(lockedOnly, payload, status)];
    }
  }
}
