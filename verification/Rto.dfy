/** The real-time optimization scheduler (app/rto/scheduler.py): when advice is queued, where it
    goes, and what the scheduler reports. */
module Rto {
  import opened Options
  import opened Spacing
  import opened Sums

  /** One queued recommendation: the tick it came from and its place in the advice. */
  datatype Row = Row(tick: nat, item: nat)

  /** What became of the database attempt.  `persist_recommendations` inserts and commits all rows
      and then writes one audit event after another, so it can fail before or after the rows are
      stored; and leaving the session can fail when the rows have been counted already. */
  datatype DbAnswer = Stored | FailedBefore | FailedAfter | FailedOnExit

  /** One tick: the clock, the number of pieces of advice (none if the computation raised), and
      the answers of the two stores. */
  datatype Tick = Tick(now: int, advice: Option<nat>, db: DbAnswer, memoryWorks: bool)

  datatype Settings = Settings(persistInterval: nat, allowMemory: bool)

  /** `stamps` are the values `_last_persist` has had; `counts` what was reported at each. */
  datatype State = State(ticks: nat, stamps: seq<int>, counts: seq<nat>, db: seq<Row>, memory: seq<Row>)

  function Rows(tick: nat, n: nat): (r: seq<Row>)
    ensures |r| == n && forall k :: 0 <= k < n ==> r[k] == Row(tick, k)
  {
    seq(n, k requires 0 <= k < n => Row(tick, k))
  }

  predicate Due(cfg: Settings, s: State, now: int) {
    s.stamps == [] || now - s.stamps[|s.stamps| - 1] >= cfg.persistInterval
  }

  /** The tick queues its advice somewhere, or tries to. */
  predicate Queues(cfg: Settings, s: State, t: Tick) {
    t.advice.Some? && t.advice.value > 0 && Due(cfg, s, t.now)
  }

  /** The rows go to memory when the database call returned none. */
  predicate FallsBack(cfg: Settings, t: Tick) {
    t.db != Stored && cfg.allowMemory && t.memoryWorks
  }

  function RanOnce(cfg: Settings, s: State, t: Tick): State {
    if !Queues(cfg, s, t) then s.(ticks := s.ticks + 1)
    else
      var rows := Rows(s.ticks, t.advice.value);
      State(s.ticks + 1, s.stamps + [t.now],
            s.counts + [if t.db in {Stored, FailedOnExit} || FallsBack(cfg, t) then |rows| else 0],
            if t.db == FailedBefore then s.db else s.db + rows,
            if FallsBack(cfg, t) then s.memory + rows else s.memory)
  }

  class RTOScheduler {
    const cfg: Settings
    var lastPersist: Option<int>
    var ticks: nat
    var db: seq<Row>
    var memory: seq<Row>
    ghost var stamps: seq<int>
    ghost var counts: seq<nat>

    ghost function View(): State
      reads this
    {
      State(ticks, stamps, counts, db, memory)
    }

    ghost predicate Valid()
      reads this
    {
      lastPersist == if stamps == [] then None else Some(stamps[|stamps| - 1])
    }

    constructor (cfg: Settings)
      ensures this.cfg == cfg && Valid() && View() == START
    {
      this.cfg := cfg;
      lastPersist, ticks, db, memory, stamps, counts := None, 0, [], [], [], [];
    }

    /** `run_once`; the result is what it returns, if it does not raise. */
    method RunOnce(t: Tick) returns (persisted: Option<nat>)
      requires Valid()
      modifies this
      ensures Valid() && View() == RanOnce(cfg, old(View()), t)
      ensures persisted == if t.advice == None then None
                           else if Queues(cfg, old(View()), t) then Some(counts[|counts| - 1])
                           else Some(0)
    {
      ticks := ticks + 1;
      if t.advice == None { return None; }
      var due := lastPersist == None || t.now - lastPersist.value >= cfg.persistInterval;
      if !due || t.advice.value == 0 { return Some(0); }
      var batch := Rows(ticks - 1, t.advice.value);
      var count, rows := 0, [];
      if t.db != FailedBefore { db := db + batch; }
      if t.db == Stored || t.db == FailedOnExit {
        rows := batch;
        count := |rows|;
      }
      if t.db == FailedOnExit { rows := []; }  // the handler resets the rows, not the count
      if rows == [] && cfg.allowMemory {
        if t.memoryWorks {
          memory := memory + batch;
          rows := batch;
          count := |rows|;
        }
      }
      lastPersist := Some(t.now);
      stamps, counts := stamps + [t.now], counts + [count];
      return Some(count);
    }
  }

  function Run(cfg: Settings, s: State, ticks: seq<Tick>): State {
    if ticks == [] then s else RanOnce(cfg, Run(cfg, s, ticks[..|ticks| - 1]), ticks[|ticks| - 1])
  }

  const START := State(0, [], [], [], [])

  // ----- cadence ------------------------------------------------------------------------------

  lemma {:induction false} StampsSpaced(cfg: Settings, ticks: seq<Tick>)
    ensures Spaced(Run(cfg, START, ticks).stamps, cfg.persistInterval)
  {
    if ticks != [] {
      var before := Run(cfg, START, ticks[..|ticks| - 1]);
      StampsSpaced(cfg, ticks[..|ticks| - 1]);
      var t := ticks[|ticks| - 1];
      if Queues(cfg, before, t) {
        var n := |before.stamps|;
        var after := before.stamps + [t.now];
        forall i, j | 0 <= i < j < |after|
          ensures after[i] + cfg.persistInterval <= after[j]
        {
          if j == n && i < n - 1 { assert before.stamps[i] + cfg.persistInterval <= before.stamps[n - 1]; }
        }
      }
    }
  }

  /** In every run, even one whose clock jumps back and forth, batches are at least the persist
      interval apart: any choice of batches inside `span` time units numbers at most
      span / interval + 1. */
  lemma {:induction false} BatchRate(cfg: Settings, ticks: seq<Tick>, first: nat, last: nat, from: int, span: nat)
    requires cfg.persistInterval > 0
    requires var stamps := Run(cfg, START, ticks).stamps;
             first <= last <= |stamps| && Within(stamps[first..last], from, span)
    ensures last - first <= span / cfg.persistInterval + 1
    ensures Spaced(Run(cfg, START, ticks).stamps, cfg.persistInterval)
  {
    StampsSpaced(cfg, ticks);
    var stamps := Run(cfg, START, ticks).stamps;
    var chosen := stamps[first..last];
    assert forall i, j :: 0 <= i < j < |chosen| ==> chosen[i] == stamps[first + i] && chosen[j] == stamps[first + j];
    SpacedCount(chosen, cfg.persistInterval, from, span);
  }

  // ----- conservation -------------------------------------------------------------------------

  /** The rows are stored although the database attempt failed, and they are not in the count: it
      says nothing, or it counts the copies in memory. */
  predicate GoesUnreported(cfg: Settings, t: Tick) {
    t.db == FailedAfter || (t.db == FailedOnExit && FallsBack(cfg, t))
  }

  /** Rows stored and not reported. */
  function Unreported(cfg: Settings, s: State, ticks: seq<Tick>): nat {
    if ticks == [] then 0
    else
      var t := ticks[|ticks| - 1];
      Unreported(cfg, s, ticks[..|ticks| - 1])
      + (if Queues(cfg, Run(cfg, s, ticks[..|ticks| - 1]), t) && GoesUnreported(cfg, t) then t.advice.value else 0)
  }

  /** The rows added to the two stores are the counts the scheduler reported plus, exactly, the
      rows of the database attempts that failed after their commit and before their count, or
      whose count was taken by the copies in memory. */
  lemma {:induction false} RowsAreReported(cfg: Settings, ticks: seq<Tick>)
    ensures var s := Run(cfg, START, ticks);
            |s.db| + |s.memory| == Sum(s.counts) + Unreported(cfg, START, ticks)
  {
    if ticks != [] {
      RowsAreReported(cfg, ticks[..|ticks| - 1]);
      TickIsReported(cfg, Run(cfg, START, ticks[..|ticks| - 1]), ticks[|ticks| - 1]);
    }
  }

  lemma TickIsReported(cfg: Settings, s: State, t: Tick)
    ensures var s' := RanOnce(cfg, s, t);
            |s'.db| + |s'.memory| - Sum(s'.counts)
            == |s.db| + |s.memory| - Sum(s.counts)
               + (if Queues(cfg, s, t) && GoesUnreported(cfg, t) then t.advice.value else 0)
  {
    if Queues(cfg, s, t) {
      var s' := RanOnce(cfg, s, t);
      assert s'.counts[..|s.counts|] == s.counts;
      assert |Rows(s.ticks, t.advice.value)| == t.advice.value;
    }
  }

  /** The tick's batch was queued twice, in the table and in memory. */
  ghost predicate InBoth(s: State, tick: nat) {
    (exists r :: r in s.db && r.tick == tick) && exists r :: r in s.memory && r.tick == tick
  }

  ghost predicate Known(s: State) {
    (forall r :: r in s.db ==> r.tick < s.ticks) && (forall r :: r in s.memory ==> r.tick < s.ticks)
  }

  lemma {:induction false} RunKnown(cfg: Settings, ticks: seq<Tick>)
    ensures Known(Run(cfg, START, ticks)) && Run(cfg, START, ticks).ticks == |ticks|
  {
    if ticks != [] { RunKnown(cfg, ticks[..|ticks| - 1]); }
  }

  /** The tick's batch goes to both stores: its database attempt fails after the commit, and the
      memory fallback is allowed and works. */
  predicate GoesTwice(cfg: Settings, t: Tick) {
    t.db in {FailedAfter, FailedOnExit} && cfg.allowMemory && t.memoryWorks
  }

  /** Exactly those batches end up in both stores. */
  lemma {:induction false} QueuedTwiceIff(cfg: Settings, ticks: seq<Tick>, k: nat)
    requires k < |ticks|
    ensures InBoth(Run(cfg, START, ticks), k) <==>
            Queues(cfg, Run(cfg, START, ticks[..k]), ticks[k]) && GoesTwice(cfg, ticks[k])
    decreases |ticks|
  {
    var n := |ticks| - 1;
    var before := Run(cfg, START, ticks[..n]);
    RunKnown(cfg, ticks[..n]);
    if k < n {
      QueuedTwiceIff(cfg, ticks[..n], k);
      assert ticks[..n][..k] == ticks[..k];
      LaterTickKeeps(cfg, before, ticks[n], k);
    } else {
      OwnTickQueues(cfg, before, ticks[n]);
    }
  }

  lemma LaterTickKeeps(cfg: Settings, s: State, t: Tick, k: nat)
    requires k < s.ticks
    ensures InBoth(RanOnce(cfg, s, t), k) <==> InBoth(s, k)
  {
    var rows := if t.advice.Some? then Rows(s.ticks, t.advice.value) else [];
    assert forall r :: r in rows ==> r.tick == s.ticks;
  }

  lemma OwnTickQueues(cfg: Settings, s: State, t: Tick)
    requires Known(s)
    ensures InBoth(RanOnce(cfg, s, t), s.ticks) <==>
            Queues(cfg, s, t) && GoesTwice(cfg, t)
  {
    var s' := RanOnce(cfg, s, t);
    if Queues(cfg, s, t) {
      var rows := Rows(s.ticks, t.advice.value);
      assert Row(s.ticks, 0) == rows[0] && rows[0] in rows;
      if t.db != FailedBefore { assert Row(s.ticks, 0) in s'.db; }
      if FallsBack(cfg, t) { assert Row(s.ticks, 0) in s'.memory; }
    }
  }

  /** A single tick with one piece of advice: the recommendation is queued twice and reported once. */
  lemma QueuedTwice(interval: nat, now: int, db: DbAnswer)
    requires db in {FailedAfter, FailedOnExit}
    ensures var s := Run(Settings(interval, true), START, [Tick(now, Some(1), db, true)]);
            InBoth(s, 0) && |s.db| == |s.memory| == 1 && s.counts == [1]
  {
    var cfg, ticks := Settings(interval, true), [Tick(now, Some(1), db, true)];
    QueuedTwiceIff(cfg, ticks, 0);
    assert ticks[..0] == [];
    assert Run(cfg, START, ticks) == RanOnce(cfg, START, ticks[0]);
  }

  // ----- liveness -----------------------------------------------------------------------------

  /** After any run a tick queues its batch exactly when there is advice and every batch so far is at
      least the interval old: no due batch is skipped. */
  lemma {:induction false} QueuesIff(cfg: Settings, ticks: seq<Tick>, t: Tick)
    ensures var s := Run(cfg, START, ticks);
            RanOnce(cfg, s, t).stamps != s.stamps
            <==> t.advice.Some? && t.advice.value > 0
                 && forall k :: 0 <= k < |s.stamps| ==> t.now - s.stamps[k] >= cfg.persistInterval
  {
    var s := Run(cfg, START, ticks);
    StampsSpaced(cfg, ticks);
    assert |s.stamps + [t.now]| != |s.stamps|;
    forall k | 0 <= k < |s.stamps|
      ensures s.stamps[k] <= s.stamps[|s.stamps| - 1]
    {
    }
  }

  /** A batch that is queued is stored, unless the database fails before it commits and there is no
      memory to fall back on; the rows of the database are stored exactly unless it fails before. */
  lemma QueuedIsStored(cfg: Settings, s: State, t: Tick)
    requires Queues(cfg, s, t)
    ensures var s' := RanOnce(cfg, s, t);
            && (s'.db == s.db <==> t.db == FailedBefore)
            && (s'.memory == s.memory <==> t.db == Stored || !cfg.allowMemory || !t.memoryWorks)
            && s'.stamps == s.stamps + [t.now]
            && (s'.db != s.db ==> |s'.db| == |s.db| + t.advice.value)
              && (s'.memory != s.memory ==> |s'.memory| == |s.memory| + t.advice.value)
  {
    var rows := Rows(s.ticks, t.advice.value);
    assert |s.db + rows| == |s.db| + |rows| && |s.memory + rows| == |s.memory| + |rows|;
  }
}
