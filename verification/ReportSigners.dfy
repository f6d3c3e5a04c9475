/** What a report's row says about who signed it, against the assurance trail. */
module ReportSigners {
  import opened Options
  import opened Trails
  import opened Calendar
  import opened PeriodWindows
  import opened ReportStore
  import opened ReportRuns

  function Signer(s: Option<Signature>): Option<string> {
    if s.Some? then Some(s.value.actor) else None
  }

  /** The row names the last submitter, the approver and the locker the trail names. */
  ghost predicate RowSigned(trail: seq<Event<EventKind>>, id: nat, r: Report) {
    && Signer(r.submitted) == ActorOf(trail, id, WasSubmitted)
    && Signer(r.approved) == ActorOf(trail, id, WasApproved)
    && Signer(r.locked) == ActorOf(trail, id, WasLocked)
  }

  ghost predicate AllSigned(db: Db) {
    forall id :: id in db.reports ==> RowSigned(db.trail, id, db.reports[id])
  }

  lemma AssureSigned(db: Db, id: nat, e: EventKind, s: Signature)
    requires AllSigned(db)
    ensures AllSigned(Assured(db, id, e, s).0)
  {
    var db' := Assured(db, id, e, s).0;
    if id in db.reports && MayMove(db.reports[id].status, e) {
      forall i: nat | i in db'.reports
        ensures RowSigned(db'.trail, i, db'.reports[i])
      {
        assert RowSigned(db.trail, i, db.reports[i]);
        ActorAppended(db.trail, Event(id, e, s.actor), i, WasSubmitted);
        ActorAppended(db.trail, Event(id, e, s.actor), i, WasApproved);
        ActorAppended(db.trail, Event(id, e, s.actor), i, WasLocked);
      }
    }
  }

  lemma UpsertSigned(db: Db, plant: string, kind: Kind, start: int, end: int, figures: Figures)
    requires AllSigned(db) && Consistent(db)
    ensures AllSigned(Upserted(db, plant, kind, start, end, figures).0)
  {
    var db' := Upserted(db, plant, kind, start, end, figures).0;
    forall i: nat | i in db'.reports
      ensures RowSigned(db'.trail, i, db'.reports[i])
    {
      if i in db.reports {
        assert RowSigned(db.trail, i, db.reports[i]);
      } else {
        NoActorYet(db.trail, i, WasSubmitted);
        NoActorYet(db.trail, i, WasApproved);
        NoActorYet(db.trail, i, WasLocked);
      }
    }
  }

  lemma StepSigned(db: Db, op: Op)
    requires AllSigned(db) && Consistent(db) && Allowed(db, op)
    ensures AllSigned(Step(db, op))
  {
    match op
    case Generate(plant, kind, ref, completedOnly, data) =>
      PeriodWindowIsTile(kind, ref, completedOnly);
      var w := PeriodWindow(kind, ref, completedOnly);
      if w.Ok? && plant in db.plants && data.Some? {
        UpsertSigned(db, plant, kind, Instant(w.value.start), Instant(w.value.end), data.value);
      }
    case Assure(id, event, signature) => AssureSigned(db, id, event, signature);
    case Sync(_, _, _, _) =>
  }

  lemma {:induction false} RunSigned(db: Db, ops: seq<Op>)
    requires AllSigned(db) && Inv(db) && Feasible(db, ops)
    ensures AllSigned(Run(db, ops))
    decreases |ops|
  {
    if ops != [] {
      StepSigned(db, ops[0]);
      StepKeeps(db, ops[0]);
      RunSigned(Step(db, ops[0]), ops[1..]);
    }
  }

  /** In every run the row and the trail agree on every signer. */
  lemma {:induction false} SignersMatchTrail(plants: set<string>, ops: seq<Op>, id: nat)
    requires Feasible(Fresh(plants), ops) && id in Run(Fresh(plants), ops).reports
    ensures var db := Run(Fresh(plants), ops); RowSigned(db.trail, id, db.reports[id])
  {
    RunSigned(Fresh(plants), ops);
  }
}
