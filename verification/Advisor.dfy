/** Unit benchmarking and setpoint advice (app/optimization/engine.py). */
module Advisor {
  import opened Options
  import opened Rounding
  import opened Physics

  datatype Tier = High | Low

  datatype UnitState = UnitState(
    code: string,
    power: real, fuel: real, steam: real, feed: real, temp: real,
    efficiency: real, intensity: real, carbon: Option<real>)

  datatype Benchmark = Benchmark(
    code: string, efficiency: real, intensity: real, tier: Tier, gap: real, best: Option<string>)

  // ----- classification -----------------------------------------------------------------------

  ghost predicate Ascending(s: seq<real>) {
    forall i, j :: 0 <= i < j < |s| ==> s[i] <= s[j]
  }

  function Insert(x: real, s: seq<real>): (r: seq<real>)
    requires Ascending(s)
    ensures |r| == |s| + 1 && Ascending(r)
    ensures multiset(r) == multiset(s) + multiset{x}
  {
    if s == [] then [x]
    else if x <= s[0] then
      assert [x] + s == [x] + s;
      [x] + s
    else
      var rest := Insert(x, s[1..]);
      assert s == [s[0]] + s[1..];
      InsertedAbove(s[0], x, s[1..], rest);
      [s[0]] + rest
  }

  lemma InsertedAbove(first: real, x: real, s: seq<real>, rest: seq<real>)
    requires first < x && forall i :: 0 <= i < |s| ==> first <= s[i]
    requires multiset(rest) == multiset(s) + multiset{x}
    ensures forall i :: 0 <= i < |rest| ==> first <= rest[i]
    ensures multiset([first] + rest) == multiset([first] + s) + multiset{x}
  {
    forall i | 0 <= i < |rest|
      ensures first <= rest[i]
    {
      assert rest[i] in multiset(rest);
    }
  }

  /** Python's `sorted` on floats: the ascending permutation of its argument. */
  function Sorted(s: seq<real>): (r: seq<real>)
    ensures |r| == |s| && Ascending(r) && multiset(r) == multiset(s)
  {
    if s == [] then []
    else
      assert s == [s[0]] + s[1..];
      Insert(s[0], Sorted(s[1..]))
  }

  function Efficiencies(states: seq<UnitState>): (r: seq<real>)
    ensures |r| == |states| && forall i :: 0 <= i < |r| ==> r[i] == states[i].efficiency
  {
    seq(|states|, i requires 0 <= i < |states| => states[i].efficiency)
  }

  function Median(states: seq<UnitState>): real
    requires |states| > 0
  {
    Sorted(Efficiencies(states))[|states| / 2]
  }

  /** `max(states, key=efficiency)`: the first unit of greatest efficiency. */
  function BestIndex(states: seq<UnitState>): (b: nat)
    requires |states| > 0
    ensures b < |states|
    ensures forall i :: 0 <= i < |states| ==> states[i].efficiency <= states[b].efficiency
    ensures forall i :: 0 <= i < b ==> states[i].efficiency < states[b].efficiency
  {
    if |states| == 1 then 0
    else
      var last := |states| - 1;
      var b := BestIndex(states[..last]);
      assert forall i :: 0 <= i < last ==> states[..last][i] == states[i];
      if states[last].efficiency > states[b].efficiency then last else b
  }

  function TierOf(states: seq<UnitState>, i: nat): Tier
    requires i < |states|
  {
    if states[i].efficiency >= Median(states) then High else Low
  }

  function BenchmarkAgainst(s: UnitState, median: real, best: UnitState): Benchmark {
    Benchmark(s.code, s.efficiency, s.intensity, if s.efficiency >= median then High else Low,
              Round2(best.efficiency - s.efficiency),
              if s.code != best.code then Some(best.code) else None)
  }

  function BenchmarkOf(states: seq<UnitState>, i: nat): Benchmark
    requires i < |states|
  {
    BenchmarkAgainst(states[i], Median(states), states[BestIndex(states)])
  }

  function AllAgainst(states: seq<UnitState>, median: real, best: UnitState): (r: seq<Benchmark>)
    ensures |r| == |states| && forall i :: 0 <= i < |r| ==> r[i] == BenchmarkAgainst(states[i], median, best)
  {
    seq(|states|, i requires 0 <= i < |states| => BenchmarkAgainst(states[i], median, best))
  }

  function Classified(states: seq<UnitState>): (r: seq<Benchmark>)
    ensures |r| == |states| && forall i :: 0 <= i < |r| ==> r[i] == BenchmarkOf(states, i)
  {
    if states == [] then [] else AllAgainst(states, Median(states), states[BestIndex(states)])
  }

  method ClassifyUnits(states: seq<UnitState>) returns (out: seq<Benchmark>)
    ensures out == Classified(states)
    ensures |out| == |states|
    ensures forall i :: 0 <= i < |out| ==> BenchmarkTells(states, i, out[i]) && GapIsRounded(states, i, out[i])
  {
    if |states| == 0 { return []; }
    out := CompareAll(states, Median(states), states[BestIndex(states)]);
    forall i: nat | i < |out|
      ensures BenchmarkTells(states, i, out[i]) && GapIsRounded(states, i, out[i])
    {
      ClassifiedTells(states, i);
      GapsTell(states, i);
    }
  }

  method CompareAll(states: seq<UnitState>, median: real, best: UnitState) returns (out: seq<Benchmark>)
    ensures out == AllAgainst(states, median, best)
  {
    out := [];
    for k := 0 to |states|
      invariant |out| == k
      invariant forall i :: 0 <= i < k ==> out[i] == BenchmarkAgainst(states[i], median, best)
    {
      out := out + [BenchmarkAgainst(states[k], median, best)];
    }
  }

  // ----- counting the tiers -------------------------------------------------------------------

  /** How many elements lie below `x`. */
  function CountBelow(s: seq<real>, x: real): (n: nat)
    ensures n <= |s|
  {
    if s == [] then 0 else (if s[0] < x then 1 else 0) + CountBelow(s[1..], x)
  }

  lemma {:induction false} CountBelowAppend(s: seq<real>, t: seq<real>, x: real)
    ensures CountBelow(s + t, x) == CountBelow(s, x) + CountBelow(t, x)
  {
    if s == [] {
      assert s + t == t;
    } else {
      assert (s + t)[1..] == s[1..] + t;
      CountBelowAppend(s[1..], t, x);
    }
  }

  function Without(s: seq<real>, k: nat): (r: seq<real>)
    requires k < |s|
    ensures |r| == |s| - 1 && multiset(r) == multiset(s) - multiset{s[k]}
  {
    assert s == s[..k] + [s[k]] + s[k + 1..];
    s[..k] + s[k + 1..]
  }

  lemma {:induction false} CountBelowWithout(s: seq<real>, k: nat, x: real)
    requires k < |s|
    ensures CountBelow(s, x) == CountBelow(Without(s, k), x) + (if s[k] < x then 1 else 0)
  {
    assert s == s[..k] + ([s[k]] + s[k + 1..]);
    CountBelowAppend(s[..k], [s[k]] + s[k + 1..], x);
    CountBelowAppend([s[k]], s[k + 1..], x);
    CountBelowAppend(s[..k], s[k + 1..], x);
  }

  /** Counting does not depend on the order of the elements. */
  lemma {:induction false} CountBelowPermuted(s: seq<real>, t: seq<real>, x: real)
    requires multiset(s) == multiset(t)
    ensures CountBelow(s, x) == CountBelow(t, x)
    decreases |s|
  {
    if s == [] {
      assert |multiset(s)| == |multiset(t)|;
    } else {
      assert s[0] in multiset(t);
      var k :| 0 <= k < |t| && t[k] == s[0];
      CountBelowPermuted(Without(s, 0), Without(t, k), x);
      CountBelowWithout(s, 0, x);
      CountBelowWithout(t, k, x);
    }
  }

  /** In an ascending sequence at most `k` elements lie below the one at index `k`, and at
      least `k + 1` lie below anything greater than it. */
  lemma {:induction false} CountBelowRank(s: seq<real>, k: nat, x: real)
    requires Ascending(s) && k < |s|
    ensures x <= s[k] ==> CountBelow(s, x) <= k
    ensures s[k] < x ==> CountBelow(s, x) > k
  {
    if x <= s[k] {
      assert s == s[..k] + s[k..];
      CountBelowAppend(s[..k], s[k..], x);
      NoneBelow(s[k..], x);
    } else {
      assert s == s[..k + 1] + s[k + 1..];
      CountBelowAppend(s[..k + 1], s[k + 1..], x);
      AllBelow(s[..k + 1], x);
    }
  }

  lemma {:induction false} NoneBelow(s: seq<real>, x: real)
    requires forall i :: 0 <= i < |s| ==> x <= s[i]
    ensures CountBelow(s, x) == 0
  {
    if s != [] { NoneBelow(s[1..], x); }
  }

  lemma {:induction false} AllBelow(s: seq<real>, x: real)
    requires forall i :: 0 <= i < |s| ==> s[i] < x
    ensures CountBelow(s, x) == |s|
  {
    if s != [] { AllBelow(s[1..], x); }
  }

  /** The set of positions classified low. */
  function LowUnits(states: seq<UnitState>): (r: set<int>)
    ensures forall i :: i in r <==> 0 <= i < |states| && TierOf(states, i) == Low
  {
    set i | 0 <= i < |states| && TierOf(states, i) == Low
  }

  lemma {:induction false} PositionsBelow(s: seq<real>, x: real, positions: set<int>)
    requires forall i :: i in positions <==> 0 <= i < |s| && s[i] < x
    ensures |positions| == CountBelow(s, x)
    decreases |s|
  {
    if s == [] {
      assert forall i :: i !in positions;
    } else {
      var last := |s| - 1;
      assert s == s[..last] + [s[last]];
      CountBelowAppend(s[..last], [s[last]], x);
      PositionsBelow(s[..last], x, positions - {last});
    }
  }

  /** The upper median splits the fleet: at most half of it, rounded down, is low, and the
      median is the least threshold below which more than half of the fleet lies. */
  lemma {:induction false} MedianSplitsFleet(states: seq<UnitState>, x: real)
    requires |states| > 0
    ensures |LowUnits(states)| <= |states| / 2
    ensures x > Median(states) <==> CountBelow(Efficiencies(states), x) > |states| / 2
  {
    var effs := Efficiencies(states);
    var median := Median(states);
    CountBelowRank(Sorted(effs), |states| / 2, median);
    CountBelowRank(Sorted(effs), |states| / 2, x);
    CountBelowPermuted(Sorted(effs), effs, median);
    CountBelowPermuted(Sorted(effs), effs, x);
    PositionsBelow(effs, median, LowUnits(states));
  }

  lemma MedianIsReached(states: seq<UnitState>) returns (i: nat)
    requires |states| > 0
    ensures i < |states| && states[i].efficiency == Median(states)
  {
    var effs := Efficiencies(states);
    assert Sorted(effs)[|states| / 2] in multiset(Sorted(effs));
    assert Median(states) in multiset(effs);
    i :| 0 <= i < |effs| && effs[i] == Median(states);
  }

  lemma RoundedGap(gap: real)
    requires gap >= 0.0
    ensures Round2(gap) >= 0.0
  {
    Round2OnGrid(0.0);
    Round2Monotone(0.0, gap);
  }

  /** The best unit is high, gaps to it are never negative, and a unit with no gap is high. */
  lemma {:induction false} BestUnitIsHigh(states: seq<UnitState>, i: nat)
    requires i < |states|
    ensures TierOf(states, BestIndex(states)) == High
    ensures BenchmarkOf(states, i).gap >= 0.0
    ensures TierOf(states, i) == Low ==> states[i].efficiency < states[BestIndex(states)].efficiency
  {
    var m := MedianIsReached(states);
    assert states[m].efficiency <= states[BestIndex(states)].efficiency;
    RoundedGap(states[BestIndex(states)].efficiency - states[i].efficiency);
  }

  // ----- what a benchmark tells ---------------------------------------------------------------

  ghost predicate IsGreatest(states: seq<UnitState>, j: nat)
    requires j < |states|
  {
    forall k :: 0 <= k < |states| ==> states[k].efficiency <= states[j].efficiency
  }

  ghost predicate IsFirstGreatest(states: seq<UnitState>, j: nat)
    requires j < |states|
  {
    IsGreatest(states, j) && forall k :: 0 <= k < j ==> states[k].efficiency < states[j].efficiency
  }

  /** Half a hundredth apart at most. */
  predicate Near(r: real, x: real) { Abs(r - x) <= 0.005 }

  /** The gap is the distance to the greatest efficiency of the fleet, rounded to two decimals. */
  ghost predicate GapIsRounded(states: seq<UnitState>, i: nat, b: Benchmark)
    requires i < |states|
  {
    && OnGrid(b.gap)
    && forall j :: 0 <= j < |states| && IsGreatest(states, j) ==>
      Near(b.gap, states[j].efficiency - states[i].efficiency)
  }

  /** Unit `i` is low exactly when some more efficient unit has at most half of the fleet below it,
      and its benchmark is the first unit of greatest efficiency, unless that one carries the same
      code. */
  ghost predicate BenchmarkTells(states: seq<UnitState>, i: nat, b: Benchmark)
    requires i < |states|
  {
    && b.code == states[i].code && b.efficiency == states[i].efficiency && b.intensity == states[i].intensity
    && (b.tier == Low <==> exists m :: 0 <= m < |states| && IsAboveIn(states, i, m))
    && (forall j :: 0 <= j < |states| && IsFirstGreatest(states, j) ==>
          b.best == if states[j].code == states[i].code then None else Some(states[j].code))
  }

  ghost predicate IsAboveIn(states: seq<UnitState>, i: nat, m: nat)
    requires i < |states| && m < |states|
  {
    && states[i].efficiency < states[m].efficiency
    && CountBelow(Efficiencies(states), states[m].efficiency) <= |states| / 2
  }

  lemma ClassifiedTells(states: seq<UnitState>, i: nat)
    requires i < |states|
    ensures BenchmarkTells(states, i, BenchmarkOf(states, i))
  {
    var b := BenchmarkOf(states, i);
    LowIff(states, i);
    assert b.tier == Low <==> states[i].efficiency < Median(states);
    forall j: nat | j < |states| && IsFirstGreatest(states, j)
      ensures j == BestIndex(states)
    {
    }
  }

  lemma GapsTell(states: seq<UnitState>, i: nat)
    requires i < |states|
    ensures GapIsRounded(states, i, BenchmarkOf(states, i))
  {
    forall j: nat | j < |states| && IsGreatest(states, j)
      ensures Near(BenchmarkOf(states, i).gap, states[j].efficiency - states[i].efficiency)
    {
      GapTells(states, i, j);
    }
  }

  lemma GapTells(states: seq<UnitState>, i: nat, j: nat)
    requires i < |states| && j < |states| && IsGreatest(states, j)
    ensures Near(BenchmarkOf(states, i).gap, states[j].efficiency - states[i].efficiency)
  {
    assert states[BestIndex(states)].efficiency == states[j].efficiency;
  }

  /** Readings on the 0.01 grid have exact gaps. */
  lemma GapIsExact(u: UnitState, median: real, best: UnitState)
    requires OnGrid(u.efficiency) && OnGrid(best.efficiency)
    ensures BenchmarkAgainst(u, median, best).gap == best.efficiency - u.efficiency
  {
    GridSum(best.efficiency, u.efficiency);
    Round2OnGrid(best.efficiency - u.efficiency);
  }

  lemma LowIff(states: seq<UnitState>, i: nat)
    requires i < |states|
    ensures states[i].efficiency < Median(states) <==> exists m :: 0 <= m < |states| && IsAboveIn(states, i, m)
  {
    var m := MedianIsReached(states);
    MedianSplitsFleet(states, states[m].efficiency);
    if states[i].efficiency < Median(states) {
      assert IsAboveIn(states, i, m);
    }
    forall k: nat | k < |states| && IsAboveIn(states, i, k)
      ensures states[i].efficiency < Median(states)
    {
      MedianSplitsFleet(states, states[k].efficiency);
    }
  }

  // ----- advice -------------------------------------------------------------------------------

  datatype Field = ReactorTemp | FeedFlow | FuelGas | SteamFlow | Power

  datatype Setpoints = Setpoints(temp: real, feed: real, fuel: real, steam: real, power: real) {
    function At(f: Field): real {
      match f
      case ReactorTemp => temp
      case FeedFlow => feed
      case FuelGas => fuel
      case SteamFlow => steam
      case Power => power
    }
  }

  datatype Priority = PriorityHigh | PriorityMedium

  datatype Advice = Advice(
    code: string, priority: Priority, current: Setpoints, proposed: Setpoints,
    deltas: map<Field, real>, secReductionPct: real, energySaving: real, efficiencyGain: real,
    benchmark: string, tags: seq<string>)

  function Abs(x: real): real { if x < 0.0 then -x else x }

  function Current(u: UnitState): Setpoints {
    Setpoints(u.temp, u.feed, u.fuel, u.steam, u.power)
  }

  /** Cooler if hotter than the best unit, else cooler anyway at high intensity. */
  function TempDelta(u: UnitState, best: UnitState): real {
    if u.temp > best.temp + 1.0 then -Clip(u.temp - best.temp, 3.0, 10.0)
    else if u.intensity > 650.0 then -7.0
    else 0.0
  }

  function FeedDelta(u: UnitState, best: UnitState): real {
    if u.feed < best.feed - 1.0 then Clip(best.feed - u.feed, 2.0, 10.0)
    else if u.intensity > 650.0 then 5.0
    else 0.0
  }

  function FuelDelta(u: UnitState, best: UnitState): real {
    if u.fuel > best.fuel + 1.0 then -Clip(u.fuel - best.fuel, 2.0, 15.0) else 0.0
  }

  function SteamDelta(u: UnitState, best: UnitState): real {
    if u.steam > best.steam + 0.5 then -Clip(u.steam - best.steam, 1.0, 8.0) else 0.0
  }

  function Proposal(u: UnitState, best: UnitState): Setpoints {
    Setpoints(Round2(Clip(u.temp + TempDelta(u, best), 380.0, 420.0)),
              Round2(Clip(u.feed + FeedDelta(u, best), 80.0, 120.0)),
              Round2(Clip(u.fuel + FuelDelta(u, best), 50.0, 150.0)),
              Round2(Clip(u.steam + SteamDelta(u, best), 10.0, 50.0)),
              Round2(u.power))
  }

  predicate Moves(current: Setpoints, proposed: Setpoints, f: Field) {
    Abs(proposed.At(f) - current.At(f)) > 0.05
  }

  function Deltas(current: Setpoints, proposed: Setpoints): map<Field, real> {
    map f: Field | Moves(current, proposed, f) :: Round2(proposed.At(f) - current.At(f))
  }

  function Tags(deltas: map<Field, real>): seq<string> {
    ["sec", "benchmark"]
    + (if ReactorTemp in deltas then ["reactor_temp"] else [])
    + (if FeedFlow in deltas then ["feed_ratio"] else [])
    + (if FuelGas in deltas || SteamFlow in deltas then ["utilities"] else [])
  }

  function SecReductionPct(u: UnitState, best: UnitState): real {
    Smaller(12.0, Larger(0.0, u.intensity - best.intensity) / Larger(u.intensity, 1.0) * 100.0)
  }

  /** kWh per hour: intensity x feed x 11.63 x reduction. */
  function EnergySaving(u: UnitState, sec: real): real {
    u.intensity * u.feed * 11.63 * (sec / 100.0)
  }

  function AdviceBody(u: UnitState, best: UnitState, gap: real): Advice {
    var proposed := Proposal(u, best);
    var deltas := Deltas(Current(u), proposed);
    var sec := SecReductionPct(u, best);
    Advice(u.code, if gap >= 3.0 then PriorityHigh else PriorityMedium, Current(u), proposed, deltas,
           Round2(sec), Round2(EnergySaving(u, sec)), Round2(Smaller(gap, 8.0)),
           best.code, Tags(deltas))
  }

  /** The advice for one unit, if it gets any. */
  function AdviceFor(u: UnitState, best: UnitState, bench: Benchmark): Option<Advice> {
    if bench.tier != Low then None
    else if Deltas(Current(u), Proposal(u, best)) == map[] then None
    else Some(AdviceBody(u, best, bench.gap))
  }

  type Adviser = (UnitState, Benchmark) -> Option<Advice>

  function AlignedTo(best: UnitState): Adviser {
    (u, bench) => AdviceFor(u, best, bench)
  }

  /** `{s.plant_code: s for s in states}`: a later unit replaces an earlier one of its code. */
  function ByCode(states: seq<UnitState>): (m: map<string, UnitState>)
    ensures forall i :: 0 <= i < |states| ==> states[i].code in m
    ensures forall c :: c in m ==> m[c].code == c && m[c] in states
  {
    if states == [] then map[]
    else
      var last := |states| - 1;
      assert states == states[..last] + [states[last]];
      ByCode(states[..last])[states[last].code := states[last]]
  }

  function BenchByCode(benchmarks: seq<Benchmark>): (m: map<string, Benchmark>)
    ensures forall i :: 0 <= i < |benchmarks| ==> benchmarks[i].code in m
  {
    if benchmarks == [] then map[]
    else
      var last := |benchmarks| - 1;
      assert benchmarks == benchmarks[..last] + [benchmarks[last]];
      BenchByCode(benchmarks[..last])[benchmarks[last].code := benchmarks[last]]
  }

  lemma {:induction false} BenchByCodeDistinct(benchmarks: seq<Benchmark>, i: nat)
    requires i < |benchmarks| && forall j :: i < j < |benchmarks| ==> benchmarks[j].code != benchmarks[i].code
    ensures BenchByCode(benchmarks)[benchmarks[i].code] == benchmarks[i]
  {
    var last := |benchmarks| - 1;
    if i < last {
      BenchByCodeDistinct(benchmarks[..last], i);
      assert benchmarks[i].code != benchmarks[last].code;
    }
  }

  ghost predicate Distinct(states: seq<UnitState>) {
    forall i, j :: 0 <= i < j < |states| ==> states[i].code != states[j].code
  }

  datatype AdviceResult = Advised(items: seq<Advice>) | NoUnits | MissingBenchmark(code: string)

  /** The advice for the first `k` units, or the first unit whose benchmark is missing. */
  function AdvisedPrefix(states: seq<UnitState>, k: nat, adviser: Adviser, bench: map<string, Benchmark>): AdviceResult
    requires k <= |states|
  {
    if k == 0 then Advised([])
    else
      match AdvisedPrefix(states, k - 1, adviser, bench)
      case Advised(items) =>
        var u := states[k - 1];
        if u.code !in bench then MissingBenchmark(u.code)
        else (match adviser(u, bench[u.code])
              case None => Advised(items)
              case Some(a) => Advised(items + [a]))
      case failure => failure
  }

  function AdviceSpec(states: seq<UnitState>, benchmarks: seq<Benchmark>): AdviceResult {
    if |states| == 0 then NoUnits
    else AdvisedPrefix(states, |states|, AlignedTo(ByCode(states)[states[BestIndex(states)].code]),
                       BenchByCode(benchmarks))
  }

  /** The advice for one unit, in `build_structured_advice`. */
  method AdviseUnit(state: UnitState, best: UnitState, bench: Benchmark) returns (a: Option<Advice>)
    ensures a == AlignedTo(best)(state, bench)
  {
    if bench.tier != Low { return None; }
    var current := Current(state);
    var proposed := Proposal(state, best);
    var deltas := Deltas(current, proposed);
    if deltas == map[] { return None; }
    var sec := SecReductionPct(state, best);
    var saving := EnergySaving(state, sec);
    var gain := Smaller(bench.gap, 8.0);
    var tags := ["sec", "benchmark"];
    if ReactorTemp in deltas { tags := tags + ["reactor_temp"]; }
    if FeedFlow in deltas { tags := tags + ["feed_ratio"]; }
    if FuelGas in deltas || SteamFlow in deltas { tags := tags + ["utilities"]; }
    assert tags == Tags(deltas);
    return Some(Advice(state.code, if bench.gap >= 3.0 then PriorityHigh else PriorityMedium,
                       current, proposed, deltas, Round2(sec), Round2(saving), Round2(gain),
                       best.code, tags));
  }

  /** What given advice tells: the unit, its readings, where to go and after whom; the rounded
      estimates; how urgent it is; and by its tags which setpoints move. */
  lemma AdviceTells(u: UnitState, best: UnitState, bench: Benchmark)
    requires AdviceFor(u, best, bench).Some?
    ensures var a := AdviceFor(u, best, bench).value;
            && a.code == u.code && a.benchmark == best.code && a.proposed == Proposal(u, best)
            && a.current == Setpoints(u.temp, u.feed, u.fuel, u.steam, u.power)
            && (a.priority == PriorityHigh <==> bench.gap >= 3.0)
            && Near(a.efficiencyGain, if bench.gap <= 8.0 then bench.gap else 8.0)
            && Near(a.secReductionPct, SecReductionPct(u, best))
            && Near(a.energySaving, EnergySaving(u, SecReductionPct(u, best)))
    ensures var a := AdviceFor(u, best, bench).value;
            && ("reactor_temp" in a.tags <==> ReactorTemp in a.deltas)
            && ("feed_ratio" in a.tags <==> FeedFlow in a.deltas)
            && ("utilities" in a.tags <==> FuelGas in a.deltas || SteamFlow in a.deltas)
  {
    TagsTell(Deltas(Current(u), Proposal(u, best)));
  }

  lemma TagsTell(deltas: map<Field, real>)
    ensures "reactor_temp" in Tags(deltas) <==> ReactorTemp in deltas
    ensures "feed_ratio" in Tags(deltas) <==> FeedFlow in deltas
    ensures "utilities" in Tags(deltas) <==> FuelGas in deltas || SteamFlow in deltas
  {
    assert "utilities"[0] != "benchmark"[0];
    assert |"reactor_temp"| == 12 && |"feed_ratio"| == 10 && |"utilities"| == |"benchmark"| == 9 && |"sec"| == 3;
  }

  method BuildStructuredAdvice(states: seq<UnitState>, benchmarks: seq<Benchmark>) returns (r: AdviceResult)
    ensures r == AdviceSpec(states, benchmarks)
  {
    if |states| == 0 { return NoUnits; }  // max() of an empty list raises
    var byCode := ByCode(states);
    r := AdviseAll(states, byCode[states[BestIndex(states)].code], BenchByCode(benchmarks));
  }

  /** The loop over the units. */
  method AdviseAll(states: seq<UnitState>, best: UnitState, benchByCode: map<string, Benchmark>)
    returns (r: AdviceResult)
    ensures r == AdvisedPrefix(states, |states|, AlignedTo(best), benchByCode)
  {
    ghost var adviser := AlignedTo(best);
    var advice := [];
    for k := 0 to |states|
      invariant AdvisedPrefix(states, k, adviser, benchByCode) == Advised(advice)
    {
      if states[k].code !in benchByCode {
        MissingPropagates(states, k, |states|, adviser, benchByCode);
        return MissingBenchmark(states[k].code);
      }
      advice := AdviseNext(states, k, best, benchByCode, advice);
    }
    return Advised(advice);
  }

  /** One turn of it. */
  method AdviseNext(states: seq<UnitState>, k: nat, best: UnitState, benchByCode: map<string, Benchmark>,
                    advice: seq<Advice>)
    returns (advice': seq<Advice>)
    requires k < |states| && states[k].code in benchByCode
    requires AdvisedPrefix(states, k, AlignedTo(best), benchByCode) == Advised(advice)
    ensures AdvisedPrefix(states, k + 1, AlignedTo(best), benchByCode) == Advised(advice')
  {
    var item := AdviseUnit(states[k], best, benchByCode[states[k].code]);
    OneMoreUnit(states, k, AlignedTo(best), benchByCode, advice, item);
    advice' := if item.Some? then advice + [item.value] else advice;
  }

  lemma OneMoreUnit(states: seq<UnitState>, k: nat, adviser: Adviser, bench: map<string, Benchmark>,
                    items: seq<Advice>, item: Option<Advice>)
    requires k < |states| && states[k].code in bench && item == adviser(states[k], bench[states[k].code])
    requires AdvisedPrefix(states, k, adviser, bench) == Advised(items)
    ensures AdvisedPrefix(states, k + 1, adviser, bench) == Advised(if item.Some? then items + [item.value] else items)
  {
  }

  lemma {:induction false} MissingPropagates(states: seq<UnitState>, k: nat, n: nat, adviser: Adviser,
                                             bench: map<string, Benchmark>)
    requires k < n <= |states| && states[k].code !in bench
    requires AdvisedPrefix(states, k, adviser, bench).Advised?
    ensures AdvisedPrefix(states, n, adviser, bench) == MissingBenchmark(states[k].code)
    decreases n
  {
    if n > k + 1 { MissingPropagates(states, k, n - 1, adviser, bench); }
  }
}
