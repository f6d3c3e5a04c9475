/** Particle swarm sample generation (app/services/vsg.py, app/ml/vsg.py).  All random draws are
    inputs. */
module Swarm {
  import opened Options
  import opened Rounding
  import opened Physics
  import opened Seqs

  /** Power, fuel, steam, feed, temperature. */
  type Vec = v: seq<real> | |v| == 5 witness [0.0, 0.0, 0.0, 0.0, 0.0]

  datatype Box = Box(lows: Vec, highs: Vec)

  const FEATURE_BOUNDS := Box([5.0, 50.0, 10.0, 80.0, 380.0], [25.0, 150.0, 50.0, 120.0, 420.0])

  predicate Proper(b: Box) {
    forall j :: 0 <= j < 5 ==> b.lows[j] <= b.highs[j]
  }

  predicate InBox(v: Vec, b: Box) {
    forall j :: 0 <= j < 5 ==> b.lows[j] <= v[j] <= b.highs[j]
  }

  function ReadingOf(v: Vec): Reading { Reading(v[0], v[1], v[2], v[3], v[4]) }

  function Fitness(v: Vec): real { Enrich(ReadingOf(v)).intensity }

  /** A generated sample: the rounded features and what the physics makes of the unrounded ones. */
  datatype Sample = Sample(features: Vec, derived: Derived)

  function RoundedVec(v: Vec): Vec {
    seq(5, j requires 0 <= j < 5 => Round2(v[j]))
  }

  function SampleOf(v: Vec): Sample {
    Sample(RoundedVec(v), Enrich(ReadingOf(v)))
  }

  /** One component of the velocity: inertia and two random pulls. */
  function Pull(v: real, r1: real, r2: real, own: real, all: real, at: real): real {
    0.6 * v + 1.4 * r1 * (own - at) + 1.4 * r2 * (all - at)
  }

  function NextVelocity(v: Vec, r1: Vec, r2: Vec, own: Vec, all: Vec, at: Vec): Vec {
    seq(5, j requires 0 <= j < 5 => Pull(v[j], r1[j], r2[j], own[j], all[j], at[j]))
  }

  function ClipTo(v: Vec, b: Box): (r: Vec)
    ensures Proper(b) ==> InBox(r, b)
    ensures InBox(v, b) ==> r == v
  {
    seq(5, j requires 0 <= j < 5 => Clip(v[j], b.lows[j], b.highs[j]))
  }

  function Add(v: Vec, w: Vec): Vec {
    seq(5, j requires 0 <= j < 5 => v[j] + w[j])
  }

  /** `np.argmin`: the first position of the least value. */
  function ArgMin(s: seq<real>): (k: nat)
    requires |s| > 0
    ensures k < |s| && (forall i :: 0 <= i < |s| ==> s[k] <= s[i]) && forall i :: 0 <= i < k ==> s[k] < s[i]
  {
    if |s| == 1 then 0
    else
      var last := |s| - 1;
      var k := ArgMin(s[..last]);
      assert forall i :: 0 <= i < last ==> s[..last][i] == s[i];
      if s[last] < s[k] then last else k
  }

  // ----- the swarm as a function of its draws -------------------------------------------------

  /** The random factors of one iteration, a vector per particle. */
  datatype Draw = Draw(r1: seq<Vec>, r2: seq<Vec>)

  datatype State = State(positions: seq<Vec>, velocities: seq<Vec>, best: seq<Vec>, scores: seq<real>, globalBest: Vec)

  predicate Sized(s: State, n: nat) {
    |s.positions| == |s.velocities| == |s.best| == |s.scores| == n
  }

  predicate DrawsFit(draws: seq<Draw>, n: nat) {
    forall k :: 0 <= k < |draws| ==> |draws[k].r1| == |draws[k].r2| == n
  }

  /** What the swarm minimizes, and what it archives of a position; the generators use
      `Fitness` and `SampleOf`. */
  type Goal = Vec -> real
  type Shot = Vec -> Sample

  function Start(fit: Goal, positions: seq<Vec>, velocities: seq<Vec>): (s: State)
    requires |positions| == |velocities| > 0
    ensures Sized(s, |positions|)
  {
    State(positions, velocities, positions, Each(fit, positions), positions[ArgMin(Each(fit, positions))])
  }

  function NewVelocities(s: State, d: Draw): (r: seq<Vec>)
    requires Sized(s, |s.positions|) && |d.r1| == |d.r2| == |s.positions|
    ensures |r| == |s.positions|
  {
    seq(|s.positions|, i requires 0 <= i < |s.positions| =>
      NextVelocity(s.velocities[i], d.r1[i], d.r2[i], s.best[i], s.globalBest, s.positions[i]))
  }

  function NewPositions(positions: seq<Vec>, velocities: seq<Vec>, b: Box): (r: seq<Vec>)
    requires |velocities| == |positions|
    ensures |r| == |positions|
    ensures Proper(b) ==> forall i :: 0 <= i < |r| ==> InBox(r[i], b)
  {
    seq(|positions|, i requires 0 <= i < |positions| => ClipTo(Add(positions[i], velocities[i]), b))
  }

  /** A particle that improved remembers where and how much. */
  function NewBest(fit: Goal, positions: seq<Vec>, best: seq<Vec>, scores: seq<real>): (r: seq<Vec>)
    requires |positions| == |best| == |scores|
    ensures |r| == |positions|
    ensures forall i :: 0 <= i < |r| ==> r[i] == if fit(positions[i]) < scores[i] then positions[i] else best[i]
  {
    seq(|positions|, i requires 0 <= i < |positions| => if fit(positions[i]) < scores[i] then positions[i] else best[i])
  }

  function NewScores(fit: Goal, positions: seq<Vec>, scores: seq<real>): (r: seq<real>)
    requires |positions| == |scores|
    ensures |r| == |positions|
    ensures forall i :: 0 <= i < |r| ==> r[i] == if fit(positions[i]) < scores[i] then fit(positions[i]) else scores[i]
  {
    seq(|positions|, i requires 0 <= i < |positions| =>
      if fit(positions[i]) < scores[i] then fit(positions[i]) else scores[i])
  }

  function Iterated(fit: Goal, s: State, d: Draw, b: Box): (r: State)
    requires Sized(s, |s.positions|) && |d.r1| == |d.r2| == |s.positions| > 0
    ensures Sized(r, |s.positions|)
  {
    var velocities := NewVelocities(s, d);
    var positions := NewPositions(s.positions, velocities, b);
    var best := NewBest(fit, positions, s.best, s.scores);
    var scores := NewScores(fit, positions, s.scores);
    State(positions, velocities, best, scores, best[ArgMin(scores)])
  }

  /** The draw has a pair of factors for every particle. */
  predicate Fits(s: State, d: Draw) {
    |s.positions| > 0 && Sized(s, |s.positions|) && |d.r1| == |d.r2| == |s.positions|
  }

  type Stepper = (State, Draw) -> State

  /** One iteration as a total function: a draw that does not fit is never asked for. */
  function StepperOf(fit: Goal, b: Box): Stepper {
    (s, d) => if Fits(s, d) then Iterated(fit, s, d, b) else s
  }

  /** The swarm after the first `k` iterations. */
  function After(step: Stepper, s: State, draws: seq<Draw>, k: nat): State
    requires k <= |draws|
  {
    if k == 0 then s else step(After(step, s, draws, k - 1), draws[k - 1])
  }

  /** A shot of every particle after each of the first `k` iterations, in order. */
  function Archive(shot: Shot, step: Stepper, s: State, draws: seq<Draw>, k: nat): seq<Sample>
    requires k <= |draws|
  {
    if k == 0 then [] else Archive(shot, step, s, draws, k - 1) + Each(shot, After(step, s, draws, k).positions)
  }

  // ----- the loops ----------------------------------------------------------------------------

  /** The inner loop: score every particle, update its memory in place, archive it. */
  method Remember(fit: Goal, shot: Shot, positions: seq<Vec>, personalBest: array<Vec>, personalScores: array<real>)
    returns (shots: seq<Sample>)
    requires personalBest.Length == personalScores.Length == |positions|
    modifies personalBest, personalScores
    ensures personalBest[..] == NewBest(fit, positions, old(personalBest[..]), old(personalScores[..]))
    ensures personalScores[..] == NewScores(fit, positions, old(personalScores[..]))
    ensures shots == Each(shot, positions)
  {
    shots := [];
    for i := 0 to |positions|
      invariant forall j :: 0 <= j < i ==>
                personalScores[j] == (if fit(positions[j]) < old(personalScores[j]) then fit(positions[j])
                                          else old(personalScores[j]))
      invariant forall j :: 0 <= j < i ==>
                personalBest[j] == (if fit(positions[j]) < old(personalScores[j]) then positions[j]
                                        else old(personalBest[j]))
      invariant forall j :: i <= j < |positions| ==>
                personalScores[j] == old(personalScores[j]) && personalBest[j] == old(personalBest[j])
      invariant |shots| == i && forall j :: 0 <= j < i ==> shots[j] == shot(positions[j])
    {
      var score := fit(positions[i]);
      if score < personalScores[i] {
        personalScores[i] := score;
        personalBest[i] := positions[i];
      }
      shots := shots + [shot(positions[i])];
    }
  }

  /** One turn of the outer loop: move every particle, then update its memory. */
  method Iterate(fit: Goal, shot: Shot, positions: seq<Vec>, velocities: seq<Vec>, personalBest: array<Vec>,
                 personalScores: array<real>,
                 globalBest: Vec, d: Draw, b: Box)
    returns (positions': seq<Vec>, velocities': seq<Vec>, globalBest': Vec, shots: seq<Sample>)
    requires |positions| == |velocities| == personalBest.Length == personalScores.Length == |d.r1| == |d.r2| > 0
    modifies personalBest, personalScores
    ensures State(positions', velocities', personalBest[..], personalScores[..], globalBest')
            == Iterated(fit, State(positions, velocities, old(personalBest[..]), old(personalScores[..]), globalBest),
                        d, b)
    ensures shots == Each(shot, positions')
  {
    velocities' := NewVelocities(State(positions, velocities, personalBest[..], personalScores[..], globalBest), d);
    positions' := NewPositions(positions, velocities', b);
    shots := Remember(fit, shot, positions', personalBest, personalScores);
    globalBest' := personalBest[ArgMin(personalScores[..])];
  }

  method Optimize(fit: Goal, shot: Shot, initial: seq<Vec>, initialVelocities: seq<Vec>, draws: seq<Draw>, b: Box)
    returns (archive: seq<Sample>, end: State)
    requires |initial| == |initialVelocities| > 0 && DrawsFit(draws, |initial|)
    ensures archive == Archive(shot, StepperOf(fit, b), Start(fit, initial, initialVelocities), draws, |draws|)
    ensures end == After(StepperOf(fit, b), Start(fit, initial, initialVelocities), draws, |draws|)
  {
    var n := |initial|;
    ghost var s, step := Start(fit, initial, initialVelocities), StepperOf(fit, b);
    var personalBest := new Vec[n](i requires 0 <= i < n => initial[i]);
    var personalScores := new real[n](i requires 0 <= i < n => fit(initial[i]));
    assert personalBest[..] == initial && personalScores[..] == Each(fit, initial);
    var positions, velocities := initial, initialVelocities;
    var globalBest := personalBest[ArgMin(personalScores[..])];
    archive := [];
    assert State(positions, velocities, personalBest[..], personalScores[..], globalBest) == s;
    for k := 0 to |draws|
      invariant |positions| == |velocities| == n
      invariant State(positions, velocities, personalBest[..], personalScores[..], globalBest)
                == After(step, s, draws, k)
      invariant archive == Archive(shot, step, s, draws, k)
    {
      ghost var before := State(positions, velocities, personalBest[..], personalScores[..], globalBest);
      assert Fits(before, draws[k]);
      var shots;
      positions, velocities, globalBest, shots :=
        Iterate(fit, shot, positions, velocities, personalBest, personalScores, globalBest, draws[k], b);
      assert State(positions, velocities, personalBest[..], personalScores[..], globalBest) == step(before, draws[k]);
      archive := archive + shots;
    }
    end := State(positions, velocities, personalBest[..], personalScores[..], globalBest);
  }

  // ----- how the particles move ---------------------------------------------------------------

  /** Component `j` of particle `i`: where it is, how it drifts, and where its two bests are. */
  datatype Axis = Axis(at: real, drift: real, own: real, all: real, r1: real, r2: real, drift': real, at': real)

  function AxisOf(s: State, d: Draw, r: State, i: nat, j: nat): Axis
    requires Fits(s, d) && Sized(r, |s.positions|) && i < |s.positions| && j < 5
  {
    Axis(s.positions[i][j], s.velocities[i][j], s.best[i][j], s.globalBest[j], d.r1[i][j], d.r2[i][j],
         r.velocities[i][j], r.positions[i][j])
  }

  /** At both bests a particle keeps 0.6 of its drift; away from one of them it gains 1.4 times the
      factor of that pull for each unit of distance, toward the best; and pulls add up. */
  ghost predicate Pulled(x: Axis) {
    && (x.own == x.at && x.all == x.at ==> x.drift' == 0.6 * x.drift)
    && (x.all == x.at ==> x.drift' - 0.6 * x.drift == 1.4 * x.r1 * (x.own - x.at))
    && (x.own == x.at ==> x.drift' - 0.6 * x.drift == 1.4 * x.r2 * (x.all - x.at))
    && x.drift' - 0.6 * x.drift == 1.4 * x.r1 * (x.own - x.at) + 1.4 * x.r2 * (x.all - x.at)
  }

  /** With factors between 0 and 1, a particle at rest whose two bests coincide moves toward them, and
      at most 1.8 times the distance past them; otherwise it never leaves the span of both pulls. */
  ghost predicate PulledWithin(x: Axis) {
    x.drift == 0.0 && 0.0 <= x.r1 <= 1.0 && 0.0 <= x.r2 <= 1.0 && x.own == x.all ==>
      if x.own >= x.at then 0.0 <= x.drift' <= 2.8 * (x.own - x.at) else 2.8 * (x.own - x.at) <= x.drift' <= 0.0
  }

  /** The particle goes where its drift takes it, or to the side of the box it would leave. */
  predicate Placed(x: Axis, lo: real, hi: real) {
    lo <= hi ==> x.at' == if x.at + x.drift' < lo then lo else if x.at + x.drift' > hi then hi else x.at + x.drift'
  }

  /** Every iteration, for all states and draws: each particle is pulled from its place toward its
      personal best and the global best so far, and placed in the box. */
  lemma IterationPulls(fit: Goal, s: State, d: Draw, b: Box, i: nat, j: nat)
    requires Fits(s, d) && i < |s.positions| && j < 5
    ensures var x := AxisOf(s, d, Iterated(fit, s, d, b), i, j);
            Pulled(x) && PulledWithin(x) && Placed(x, b.lows[j], b.highs[j])
  {
    var x := AxisOf(s, d, Iterated(fit, s, d, b), i, j);
    assert x.drift' == Pull(x.drift, x.r1, x.r2, x.own, x.all, x.at);
    assert x.at' == Clip(x.at + x.drift', b.lows[j], b.highs[j]);
    PullIsLinear(x);
    PullIsBounded(x);
  }

  lemma PullIsLinear(x: Axis)
    requires x.drift' == Pull(x.drift, x.r1, x.r2, x.own, x.all, x.at)
    ensures Pulled(x)
  {
  }

  lemma PullIsBounded(x: Axis)
    requires x.drift' == Pull(x.drift, x.r1, x.r2, x.own, x.all, x.at)
    ensures PulledWithin(x)
  {
    if x.drift == 0.0 && 0.0 <= x.r1 <= 1.0 && 0.0 <= x.r2 <= 1.0 && x.own == x.all {
      FactorScales(x.r1, x.own - x.at, 1.4 * x.r1 * (x.own - x.at));
      FactorScales(x.r2, x.own - x.at, 1.4 * x.r2 * (x.own - x.at));
      WithinBoth(x, 1.4 * x.r1 * (x.own - x.at), 1.4 * x.r2 * (x.own - x.at));
    }
  }

  lemma FactorScales(r: real, distance: real, pull: real)
    requires 0.0 <= r <= 1.0 && pull == 1.4 * r * distance
    ensures if distance >= 0.0 then 0.0 <= pull <= 1.4 * distance else 1.4 * distance <= pull <= 0.0
  {
    assert pull == 1.4 * (r * distance);
    if distance >= 0.0 {
      assert (1.0 - r) * distance >= 0.0;
    } else {
      assert (1.0 - r) * distance <= 0.0;
    }
  }

  lemma WithinBoth(x: Axis, p: real, q: real)
    requires x.drift == 0.0 && x.drift' == p + q
    requires if x.own >= x.at then 0.0 <= p <= 1.4 * (x.own - x.at) else 1.4 * (x.own - x.at) <= p <= 0.0
    requires if x.own >= x.at then 0.0 <= q <= 1.4 * (x.own - x.at) else 1.4 * (x.own - x.at) <= q <= 0.0
    ensures PulledWithin(x)
  {
  }

  /** In particular the first iteration of a run, when every particle is at its own best: it keeps
      0.6 of its initial velocity and gains 1.4 times the factor times its distance to the best
      start. */
  lemma {:induction false} FirstIterationPulls(fit: Goal, b: Box, initial: seq<Vec>, velocities: seq<Vec>,
                                               draws: seq<Draw>, i: nat,
                            j: nat, best: nat)
    requires |initial| == |velocities| && DrawsFit(draws, |initial|) && |draws| > 0 && i < |initial| && j < 5
    requires best < |initial| && IsFirstLeast(fit, initial, best)
    ensures var now := After(StepperOf(fit, b), Start(fit, initial, velocities), draws, 1);
            Fits(Start(fit, initial, velocities), draws[0]) && Sized(now, |initial|) &&
            var x := AxisOf(Start(fit, initial, velocities), draws[0], now, i, j);
            && x.at == x.own == initial[i][j] && x.drift == velocities[i][j] && x.all == initial[best][j]
            && Pulled(x) && PulledWithin(x) && Placed(x, b.lows[j], b.highs[j])
  {
    var s := Start(fit, initial, velocities);
    assert Fits(s, draws[0]);
    assert After(StepperOf(fit, b), s, draws, 0) == s;
    assert s.globalBest == initial[best];
    IterationPulls(fit, s, draws[0], b, i, j);
  }

  ghost predicate IsFirstLeast(fit: Goal, positions: seq<Vec>, k: nat)
    requires k < |positions|
  {
    && (forall i :: 0 <= i < |positions| ==> fit(positions[k]) <= fit(positions[i]))
    && forall i :: 0 <= i < k ==> fit(positions[k]) < fit(positions[i])
  }

  // ----- what the swarm has found -------------------------------------------------------------

  /** A particle that improved remembers its new place, the others keep theirs. */
  ghost predicate Remembers(fit: Goal, s: State, r: State, i: nat)
    requires i < |s.positions| && Sized(s, |s.positions|) && Sized(r, |s.positions|)
  {
    && r.best[i] == (if fit(r.positions[i]) < s.scores[i] then r.positions[i] else s.best[i])
    && r.scores[i] == if fit(r.positions[i]) < s.scores[i] then fit(r.positions[i]) else s.scores[i]
  }

  /** What an iteration from `s` to `r` does: every particle remembers and stays in the box, and
      the global best is the personal best of the least score. */
  ghost predicate StepOk(fit: Goal, b: Box, s: State, r: State) {
    var n := |s.positions|;
    && n > 0 && Sized(s, n) && Sized(r, n)
    && (forall i :: 0 <= i < n ==> Remembers(fit, s, r, i))
    && (Proper(b) ==> forall i :: 0 <= i < n ==> InBox(r.positions[i], b))
    && r.globalBest == r.best[ArgMin(r.scores)]
  }

  ghost predicate Sound(fit: Goal, b: Box, step: Stepper) {
    forall s: State, d: Draw :: Fits(s, d) ==> StepOk(fit, b, s, step(s, d))
  }

  lemma IterationIsSound(fit: Goal, b: Box)
    ensures Sound(fit, b, StepperOf(fit, b))
  {
    forall s: State, d: Draw | Fits(s, d)
      ensures StepOk(fit, b, s, StepperOf(fit, b)(s, d))
    {
      IteratedOk(fit, b, s, d);
    }
  }

  lemma IteratedOk(fit: Goal, b: Box, s: State, d: Draw)
    requires Fits(s, d)
    ensures StepOk(fit, b, s, Iterated(fit, s, d, b))
  {
  }

  lemma {:induction false} SizeKept(fit: Goal, b: Box, step: Stepper, s: State, draws: seq<Draw>, k: nat)
    requires Sound(fit, b, step) && |s.positions| > 0 && Sized(s, |s.positions|)
    requires k <= |draws| && DrawsFit(draws, |s.positions|)
    ensures Sized(After(step, s, draws, k), |s.positions|)
    ensures k > 0 ==> StepOk(fit, b, After(step, s, draws, k - 1), After(step, s, draws, k))
  {
    if k > 0 {
      SizeKept(fit, b, step, s, draws, k - 1);
      assert Fits(After(step, s, draws, k - 1), draws[k - 1]);
    }
  }

  /** Everywhere particle `i` has been in the first `k` iterations, its start included. */
  ghost function History(step: Stepper, s: State, draws: seq<Draw>, k: nat, i: nat): (h: seq<Vec>)
    requires k <= |draws|
  {
    var before := if k == 0 then [] else History(step, s, draws, k - 1, i);
    if i < |After(step, s, draws, k).positions| then before + [After(step, s, draws, k).positions[i]] else before
  }

  /** `v` is one of the places in `h`, and none is better. */
  ghost predicate IsBestOf(fit: Goal, v: Vec, h: seq<Vec>) {
    v in h && forall w :: w in h ==> fit(v) <= fit(w)
  }

  /** After every iteration each particle's personal best is the best place it has ever been,
      and its score is exactly the fitness there. */
  lemma {:induction false} PersonalBest(fit: Goal, b: Box, step: Stepper, s: State, draws: seq<Draw>, k: nat, i: nat)
    requires Sound(fit, b, step) && Sized(s, |s.positions|) && i < |s.positions|
    requires s.best[i] == s.positions[i] && s.scores[i] == fit(s.positions[i])
    requires k <= |draws| && DrawsFit(draws, |s.positions|)
    ensures Sized(After(step, s, draws, k), |s.positions|)
    ensures IsBestOf(fit, After(step, s, draws, k).best[i], History(step, s, draws, k, i))
    ensures After(step, s, draws, k).scores[i] == fit(After(step, s, draws, k).best[i])
  {
    SizeKept(fit, b, step, s, draws, k);
    if k > 0 {
      PersonalBest(fit, b, step, s, draws, k - 1, i);
      var before, now := After(step, s, draws, k - 1), After(step, s, draws, k);
      assert Remembers(fit, before, now, i);
      OneMorePlace(fit, before.best[i], History(step, s, draws, k - 1, i), now.positions[i]);
    }
  }

  lemma OneMorePlace(fit: Goal, v: Vec, h: seq<Vec>, place: Vec)
    requires IsBestOf(fit, v, h)
    ensures IsBestOf(fit, if fit(place) < fit(v) then place else v, h + [place])
  {
  }

  ghost predicate Started(fit: Goal, s: State) {
    && |s.positions| > 0 && Sized(s, |s.positions|)
    && (forall i :: 0 <= i < |s.positions| ==> s.best[i] == s.positions[i] && s.scores[i] == fit(s.positions[i]))
    && s.globalBest == s.best[ArgMin(s.scores)]
  }

  /** The global best is the best place any particle has ever been. */
  lemma {:induction false} GlobalBest(fit: Goal, b: Box, step: Stepper, s: State, draws: seq<Draw>, k: nat)
    requires Sound(fit, b, step) && Started(fit, s) && k <= |draws| && DrawsFit(draws, |s.positions|)
    ensures var found := After(step, s, draws, k).globalBest;
            && (forall i: nat, v :: i < |s.positions| && v in History(step, s, draws, k, i) ==> fit(found) <= fit(v))
            && exists i: nat :: i < |s.positions| && found in History(step, s, draws, k, i)
  {
    SizeKept(fit, b, step, s, draws, k);
    var now := After(step, s, draws, k);
    var g := ArgMin(now.scores);
    PersonalBest(fit, b, step, s, draws, k, g);
    assert now.globalBest == now.best[g];
    forall i: nat, v | i < |s.positions| && v in History(step, s, draws, k, i)
      ensures fit(now.globalBest) <= fit(v)
    {
      PersonalBest(fit, b, step, s, draws, k, i);
      assert now.scores[g] <= now.scores[i];
    }
  }

  /** The swarm never leaves its box. */
  lemma {:induction false} StaysInBox(fit: Goal, b: Box, step: Stepper, s: State, draws: seq<Draw>, k: nat, i: nat)
    requires Sound(fit, b, step) && Sized(s, |s.positions|) && i < |s.positions|
    requires k <= |draws| && DrawsFit(draws, |s.positions|) && Proper(b) && InBox(s.positions[i], b)
    ensures forall v :: v in History(step, s, draws, k, i) ==> InBox(v, b)
    ensures |After(step, s, draws, k).positions| == |s.positions| && InBox(After(step, s, draws, k).positions[i], b)
  {
    SizeKept(fit, b, step, s, draws, k);
    if k > 0 { StaysInBox(fit, b, step, s, draws, k - 1, i); }
  }

  ghost predicate ShotInBox(shot: Shot, b: Box, x: Sample) {
    exists v: Vec :: InBox(v, b) && x == shot(v)
  }

  /** Every archived sample is a shot of a position in the box, one per particle and iteration. */
  lemma {:induction false} ArchiveInBox(fit: Goal, b: Box, shot: Shot, step: Stepper, s: State, draws: seq<Draw>,
                                        k: nat)
    requires Sound(fit, b, step) && |s.positions| > 0 && Sized(s, |s.positions|)
    requires k <= |draws| && DrawsFit(draws, |s.positions|)
    requires Proper(b) && forall j :: 0 <= j < |s.positions| ==> InBox(s.positions[j], b)
    ensures forall x :: x in Archive(shot, step, s, draws, k) ==> ShotInBox(shot, b, x)
  {
    if k > 0 {
      ArchiveInBox(fit, b, shot, step, s, draws, k - 1);
      var positions := After(step, s, draws, k).positions;
      forall x | x in Each(shot, positions)
        ensures ShotInBox(shot, b, x)
      {
        var i: nat :| i < |positions| && Each(shot, positions)[i] == x;
        SizeKept(fit, b, step, s, draws, k);
        StaysInBox(fit, b, step, s, draws, k, i);
      }
    }
  }

  lemma {:induction false} ArchiveLength(fit: Goal, b: Box, shot: Shot, step: Stepper, s: State, draws: seq<Draw>,
                                         k: nat)
    requires Sound(fit, b, step) && |s.positions| > 0 && Sized(s, |s.positions|)
    requires k <= |draws| && DrawsFit(draws, |s.positions|)
    ensures |Archive(shot, step, s, draws, k)| == |s.positions| * k
  {
    if k > 0 {
      ArchiveLength(fit, b, shot, step, s, draws, k - 1);
      SizeKept(fit, b, step, s, draws, k);
      OneMoreTime(|s.positions|, k);
    }
  }

  lemma OneMoreTime(n: nat, k: nat)
    requires k > 0
    ensures n * k == n * (k - 1) + n
  {
  }

  /** The archive is in order: entry `n * k + i` shows where iteration `k` put particle `i`. */
  lemma {:induction false} ArchiveAt(fit: Goal, b: Box, shot: Shot, step: Stepper, s: State, draws: seq<Draw>, m: nat,
                                     k: nat, i: nat)
    requires Sound(fit, b, step) && |s.positions| > 0 && Sized(s, |s.positions|) && DrawsFit(draws, |s.positions|)
    requires k < m <= |draws| && i < |s.positions|
    ensures var n, now, archive := |s.positions|, After(step, s, draws, k + 1), Archive(shot, step, s, draws, m);
            0 <= n * k + i < |archive| && |now.positions| == n && archive[n * k + i] == shot(now.positions[i])
    decreases m
  {
    SizeKept(fit, b, step, s, draws, k + 1);
    ArchiveLength(fit, b, shot, step, s, draws, m - 1);
    if k < m - 1 {
      ArchiveAt(fit, b, shot, step, s, draws, m - 1, k, i);
    }
  }

  /** The rounded features of a sample lie in the box of its position if the bounds are on the
      0.01 grid, else at most half a hundredth outside. */
  lemma RoundedFeatures(v: Vec, b: Box, j: nat)
    requires InBox(v, b) && j < 5
    ensures b.lows[j] - 0.005 <= RoundedVec(v)[j] <= b.highs[j] + 0.005
    ensures OnGrid(b.lows[j]) && OnGrid(b.highs[j]) ==> b.lows[j] <= RoundedVec(v)[j] <= b.highs[j]
  {
    if OnGrid(b.lows[j]) && OnGrid(b.highs[j]) { Round2Between(b.lows[j], v[j], b.highs[j]); }
  }

  // ----- the two generators -------------------------------------------------------------------

  /** `rng.choice(len, size=n, replace=False)`: distinct indices. */
  ghost predicate IsChoice(pick: seq<nat>, len: nat, n: nat) {
    && |pick| == n && (forall k :: 0 <= k < n ==> pick[k] < len)
    && forall j, k :: 0 <= j < k < n ==> pick[j] != pick[k]
  }

  function Chosen<T>(s: seq<T>, pick: seq<nat>): (r: seq<T>)
    requires forall k :: 0 <= k < |pick| ==> pick[k] < |s|
    ensures |r| == |pick| && forall k :: 0 <= k < |r| ==> r[k] == s[pick[k]]
  {
    seq(|pick|, k requires 0 <= k < |pick| => s[pick[k]])
  }

  /** The whole archive of a run of `generate_pso`. */
  function FullArchive(b: Box, initial: seq<Vec>, velocities: seq<Vec>, draws: seq<Draw>): seq<Sample>
    requires |initial| == |velocities| > 0 && DrawsFit(draws, |initial|)
  {
    Archive(SampleOf, StepperOf(Fitness, b), Start(Fitness, initial, velocities), draws, |draws|)
  }

  /** After every iteration of either generator, for all draws: each particle's score is exactly
      the least intensity it has ever had, at its personal best, and the global best attains the
      minimum over all particles and all time. */
  lemma {:induction false} SwarmFindsTheBest(b: Box, initial: seq<Vec>, velocities: seq<Vec>, draws: seq<Draw>, k: nat,
                                             i: nat)
    requires |initial| == |velocities| && DrawsFit(draws, |initial|) && k <= |draws| && i < |initial|
    ensures var step, s := StepperOf(Fitness, b), Start(Fitness, initial, velocities);
            var now := After(step, s, draws, k);
            && Sized(now, |initial|)
            && IsBestOf(Fitness, now.best[i], History(step, s, draws, k, i)) && now.scores[i] == Fitness(now.best[i])
            && (forall v :: v in History(step, s, draws, k, i) ==> Fitness(now.globalBest) <= Fitness(v))
            && exists j: nat :: j < |initial| && now.globalBest in History(step, s, draws, k, j)
  {
    IterationIsSound(Fitness, b);
    var s := Start(Fitness, initial, velocities);
    assert Started(Fitness, s);
    PersonalBest(Fitness, b, StepperOf(Fitness, b), s, draws, k, i);
    GlobalBest(Fitness, b, StepperOf(Fitness, b), s, draws, k);
  }

  /** What both generators do with their start: without particles `np.argmin` raises. */
  method RunSwarm(nSamples: nat, b: Box, initial: seq<Vec>, velocities: seq<Vec>, draws: seq<Draw>, pick: seq<nat>)
    returns (r: Option<seq<Sample>>)
    requires |initial| == |velocities| && DrawsFit(draws, |initial|)
    requires |initial| * |draws| > nSamples ==> IsChoice(pick, |initial| * |draws|, nSamples)
    ensures r == None <==> |initial| == 0
    ensures r.Some? ==> |r.value| == if nSamples < |initial| * |draws| then nSamples else |initial| * |draws|
    ensures r.Some? && |initial| * |draws| <= nSamples ==> r.value == FullArchive(b, initial, velocities, draws)
    ensures r.Some? && |initial| * |draws| > nSamples ==>
              && |FullArchive(b, initial, velocities, draws)| == |initial| * |draws|
              && r.value == Chosen(FullArchive(b, initial, velocities, draws), pick)
  {
    if |initial| == 0 { return None; }
    var archive, end := Optimize(Fitness, SampleOf, initial, velocities, draws, b);
    IterationIsSound(Fitness, b);
    ArchiveLength(Fitness, b, SampleOf, StepperOf(Fitness, b), Start(Fitness, initial, velocities), draws, |draws|);
    if |archive| > nSamples { return Some(Chosen(archive, pick)); }
    return Some(archive);
  }

  lemma FeatureBoundsOnGrid(j: nat)
    requires j < 5
    ensures Proper(FEATURE_BOUNDS) && OnGrid(FEATURE_BOUNDS.lows[j]) && OnGrid(FEATURE_BOUNDS.highs[j])
  {
  }

  /** The rounding never pushes a feature of an archived sample over its bound. */
  lemma FeaturesInBounds(initial: seq<Vec>, velocities: seq<Vec>, draws: seq<Draw>, x: Sample)
    requires |initial| == |velocities| > 0 && DrawsFit(draws, |initial|)
    requires forall i :: 0 <= i < |initial| ==> InBox(initial[i], FEATURE_BOUNDS)
    requires x in FullArchive(FEATURE_BOUNDS, initial, velocities, draws)
    ensures InBox(x.features, FEATURE_BOUNDS)
  {
    var b := FEATURE_BOUNDS;
    FeatureBoundsOnGrid(0);
    IterationIsSound(Fitness, b);
    ArchiveInBox(Fitness, b, SampleOf, StepperOf(Fitness, b), Start(Fitness, initial, velocities), draws, |draws|);
    var v: Vec :| InBox(v, b) && x == SampleOf(v);
    forall j: nat | j < 5
      ensures b.lows[j] <= x.features[j] <= b.highs[j]
    {
      FeatureBoundsOnGrid(j);
      RoundedFeatures(v, b, j);
    }
  }

  /** `generate_pso`: the swarm from a uniform start inside the feature bounds. */
  method GeneratePso(nSamples: nat, initial: seq<Vec>, velocities: seq<Vec>, draws: seq<Draw>, pick: seq<nat>)
    returns (r: Option<seq<Sample>>)
    requires |initial| == |velocities| && DrawsFit(draws, |initial|)
    requires forall i :: 0 <= i < |initial| ==> InBox(initial[i], FEATURE_BOUNDS)
    requires |initial| * |draws| > nSamples ==> IsChoice(pick, |initial| * |draws|, nSamples)
    ensures r == None <==> |initial| == 0
    ensures r.Some? ==> |r.value| == if nSamples < |initial| * |draws| then nSamples else |initial| * |draws|
    ensures r.Some? && |initial| * |draws| <= nSamples
            ==> r.value == FullArchive(FEATURE_BOUNDS, initial, velocities, draws)
    ensures r.Some? && |initial| * |draws| > nSamples ==>
              && |FullArchive(FEATURE_BOUNDS, initial, velocities, draws)| == |initial| * |draws|
              && r.value == Chosen(FullArchive(FEATURE_BOUNDS, initial, velocities, draws), pick)
    ensures r.Some? ==> forall x :: x in r.value ==> InBox(x.features, FEATURE_BOUNDS)
  {
    r := RunSwarm(nSamples, FEATURE_BOUNDS, initial, velocities, draws, pick);
    if r.Some? {
      forall x | x in r.value
        ensures InBox(x.features, FEATURE_BOUNDS)
      {
        FeaturesInBounds(initial, velocities, draws, x);
      }
    }
  }

  /** Column bounds of the real rows, widened by a twentieth of their range (and a bit). */
  function ColumnMin(rows: seq<Vec>, j: nat): (m: real)
    requires |rows| > 0 && j < 5
    ensures (forall i :: 0 <= i < |rows| ==> m <= rows[i][j]) && exists i :: 0 <= i < |rows| && rows[i][j] == m
  {
    if |rows| == 1 then rows[0][j]
    else
      var last := |rows| - 1;
      var m := ColumnMin(rows[..last], j);
      assert forall i :: 0 <= i < last ==> rows[..last][i] == rows[i];
      if rows[last][j] < m then rows[last][j] else m
  }

  function ColumnMax(rows: seq<Vec>, j: nat): (m: real)
    requires |rows| > 0 && j < 5
    ensures (forall i :: 0 <= i < |rows| ==> rows[i][j] <= m) && exists i :: 0 <= i < |rows| && rows[i][j] == m
  {
    if |rows| == 1 then rows[0][j]
    else
      var last := |rows| - 1;
      var m := ColumnMax(rows[..last], j);
      assert forall i :: 0 <= i < last ==> rows[..last][i] == rows[i];
      if rows[last][j] > m then rows[last][j] else m
  }

  function Pad(rows: seq<Vec>, j: nat): real
    requires |rows| > 0 && j < 5
  {
    0.05 * (ColumnMax(rows, j) - ColumnMin(rows, j) + 0.000001)
  }

  function EmpiricalBox(rows: seq<Vec>): Box
    requires |rows| > 0
  {
    Box(seq(5, j requires 0 <= j < 5 => ColumnMin(rows, j) - Pad(rows, j)),
        seq(5, j requires 0 <= j < 5 => ColumnMax(rows, j) + Pad(rows, j)))
  }

  /** The empirical box is proper and strictly contains every real row. */
  lemma EmpiricalBoxContains(rows: seq<Vec>, i: nat)
    requires i < |rows|
    ensures Proper(EmpiricalBox(rows)) && InBox(rows[i], EmpiricalBox(rows))
    ensures forall j :: 0 <= j < 5 ==> EmpiricalBox(rows).lows[j] < rows[i][j] < EmpiricalBox(rows).highs[j]
  {
    forall j: nat | j < 5
      ensures ColumnMin(rows, j) - Pad(rows, j) < rows[i][j] < ColumnMax(rows, j) + Pad(rows, j)
    {
    }
  }

  /** Each side of the box is a twentieth of the column's range, and 0.00000005, away from the
      furthest real value, and both sides equally. */
  lemma EmpiricalBoxMargins(rows: seq<Vec>, j: nat) returns (low: nat, high: nat)
    requires |rows| > 0 && j < 5
    ensures low < |rows| && high < |rows|
    ensures forall i :: 0 <= i < |rows| ==> rows[low][j] <= rows[i][j] <= rows[high][j]
    ensures var margin := 0.05 * (rows[high][j] - rows[low][j]) + 0.00000005;
            EmpiricalBox(rows).lows[j] == rows[low][j] - margin && EmpiricalBox(rows).highs[j] == rows[high][j] + margin
  {
    low :| 0 <= low < |rows| && rows[low][j] == ColumnMin(rows, j);
    high :| 0 <= high < |rows| && rows[high][j] == ColumnMax(rows, j);
    assert EmpiricalBox(rows).lows[j] == ColumnMin(rows, j) - Pad(rows, j);
    assert EmpiricalBox(rows).highs[j] == ColumnMax(rows, j) + Pad(rows, j);
  }

  /** A seed shifted by noise scaled to the box, then clipped into it. */
  function Jittered(v: Vec, noise: Vec, b: Box): Vec {
    ClipTo(Add(v, Shift(noise, b)), b)
  }

  function Shift(noise: Vec, b: Box): Vec {
    seq(5, j requires 0 <= j < 5 => noise[j] * (b.highs[j] - b.lows[j]))
  }

  /** The seeds of `generate_pso_from_real`: chosen real rows first, uniform draws after them. */
  function Seeds(rows: seq<Vec>, pick: seq<nat>, uniform: seq<Vec>, noise: seq<Vec>, b: Box): (r: seq<Vec>)
    requires (forall k :: 0 <= k < |pick| ==> pick[k] < |rows|) && |noise| == |pick| + |uniform|
    ensures |r| == |noise|
    ensures Proper(b) ==> forall i :: 0 <= i < |r| ==> InBox(r[i], b)
  {
    var seeds := Chosen(rows, pick) + uniform;
    seq(|noise|, i requires 0 <= i < |noise| => Jittered(seeds[i], noise[i], b))
  }

  /** Each chosen real row starts a particle, shifted by its noise in units of the box, and uniform
      draws start the others; the clip only ever brings a start nearer to its row. */
  lemma SeedsAreNear(rows: seq<Vec>, pick: seq<nat>, uniform: seq<Vec>, noise: seq<Vec>, b: Box, i: nat, j: nat,
                     shift: real)
    requires (forall k :: 0 <= k < |pick| ==> pick[k] < |rows|) && |noise| == |pick| + |uniform|
    requires Proper(b) && forall k :: 0 <= k < |rows| ==> InBox(rows[k], b)
    requires i < |noise| && j < 5 && shift == noise[i][j] * (b.highs[j] - b.lows[j])
    ensures var seed := if i < |pick| then rows[pick[i]][j] else uniform[i - |pick|][j];
            var start := Seeds(rows, pick, uniform, noise, b)[i][j];
            && (b.lows[j] <= seed + shift <= b.highs[j] ==> start == seed + shift)
            && (i < |pick| && shift >= 0.0 ==> seed <= start <= seed + shift)
            && (i < |pick| && shift <= 0.0 ==> seed + shift <= start <= seed)
  {
    var seeds := Chosen(rows, pick) + uniform;
    assert seeds[i] == if i < |pick| then rows[pick[i]] else uniform[i - |pick|];
    ShiftIsScaled(noise[i], b, j, shift);
    assert Seeds(rows, pick, uniform, noise, b)[i][j] == Clip(seeds[i][j] + shift, b.lows[j], b.highs[j]);
    ClipIsNear(seeds[i][j], shift, b.lows[j], b.highs[j]);
  }

  lemma ShiftIsScaled(noise: Vec, b: Box, j: nat, shift: real)
    requires j < 5 && shift == noise[j] * (b.highs[j] - b.lows[j])
    ensures Shift(noise, b)[j] == shift
  {
  }

  lemma ClipIsNear(seed: real, shift: real, lo: real, hi: real)
    requires lo <= hi
    ensures lo <= seed + shift <= hi ==> Clip(seed + shift, lo, hi) == seed + shift
    ensures lo <= seed <= hi && shift >= 0.0 ==> seed <= Clip(seed + shift, lo, hi) <= seed + shift
    ensures lo <= seed <= hi && shift <= 0.0 ==> seed + shift <= Clip(seed + shift, lo, hi) <= seed
  {
  }

  /** `generate_pso_from_real`: the same swarm, seeded from real rows inside their own box. */
  method GeneratePsoFromReal(rows: seq<Vec>, nSamples: nat, nParticles: nat, seedPick: seq<nat>, uniform: seq<Vec>,
                             noise: seq<Vec>, velocities: seq<Vec>, draws: seq<Draw>, pick: seq<nat>)
    returns (r: Option<seq<Sample>>)
    requires |rows| > 0
    requires IsChoice(seedPick, |rows|, if |rows| < nParticles then |rows| else nParticles)
    requires |uniform| == nParticles - |seedPick| && |noise| == |velocities| == nParticles
             && DrawsFit(draws, nParticles)
    requires nParticles * |draws| > nSamples ==> IsChoice(pick, nParticles * |draws|, nSamples)
    ensures r == None <==> nParticles == 0
    ensures r.Some? ==> |r.value| == if nSamples < nParticles * |draws| then nSamples else nParticles * |draws|
    ensures r.Some? && nParticles * |draws| <= nSamples ==>
              r.value == FullArchive(EmpiricalBox(rows), Seeds(rows, seedPick, uniform, noise, EmpiricalBox(rows)),
                                     velocities, draws)
    ensures r.Some? && nParticles * |draws| > nSamples ==>
              var archive := FullArchive(EmpiricalBox(rows), Seeds(rows, seedPick, uniform, noise, EmpiricalBox(rows)),
                                         velocities, draws);
              |archive| == nParticles * |draws| && r.value == Chosen(archive, pick)
    ensures r.Some? ==> forall x :: x in r.value ==> ShotInBox(SampleOf, EmpiricalBox(rows), x)
  {
    var b := EmpiricalBox(rows);
    EmpiricalBoxContains(rows, 0);
    var seeds := Seeds(rows, seedPick, uniform, noise, b);
    r := RunSwarm(nSamples, b, seeds, velocities, draws, pick);
    if r.Some? {
      IterationIsSound(Fitness, b);
      ArchiveInBox(Fitness, b, SampleOf, StepperOf(Fitness, b), Start(Fitness, seeds, velocities), draws, |draws|);
    }
  }

  /** What the swarm minimizes and archives of a place, read as power, fuel, steam, feed, temperature. */
  lemma FitnessIsIntensity(v: Vec)
    ensures var intensity := EnergyIntensity(v[1], v[2], v[3], v[4]);
            && Fitness(v) == SampleOf(v).derived.intensity == Round2(intensity)
            && SampleOf(v).derived.carbon == Round2(CarbonIntensity(v[1], v[2], v[0]))
            && SampleOf(v).derived.efficiency == Round2(EnergyEfficiency(intensity))
            && forall j :: 0 <= j < 5 ==> SampleOf(v).features[j] == Round2(v[j])
  {
  }
}
