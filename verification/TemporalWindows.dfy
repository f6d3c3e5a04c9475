/** Sliding windows and the temporal holdout (app/ml/lstm.py, dataset.py, train.py). */
module TemporalWindows {

  type Row = seq<real>

  function Repeat<T>(x: seq<T>, n: nat): (r: seq<T>)
    requires |x| == 1
    ensures |r| == n && forall k :: 0 <= k < n ==> r[k] == x[0]
  {
    seq(n, k requires 0 <= k < n => x[0])
  }

  /** A short series is padded on the left with copies of its first element; an empty one has
      nothing to repeat and stays empty. */
  function PadLeft<T>(s: seq<T>, lookback: nat): (r: seq<T>)
    ensures |r| == if s == [] then 0 else if |s| < lookback then lookback else |s|
  {
    if s == [] || |s| >= lookback then s else Repeat(s[..1], lookback - |s|) + s
  }

  function Flatten(w: seq<Row>): Row {
    if w == [] then [] else w[0] + Flatten(w[1..])
  }

  function WindowCount(n: nat, lookback: nat): nat
    requires lookback > 0
  {
    if n == 0 then 0 else if n < lookback then 1 else n - lookback + 1
  }

  datatype Windows<T> = Windows(seqs: seq<seq<Row>>, outs: seq<T>, flats: seq<Row>)

  /** Window `k` is rows k .. k + lookback - 1 of the padded series, its flat form, and the target
      of its last row. */
  ghost predicate AreWindows<T>(w: Windows<T>, x: seq<Row>, y: seq<T>, lookback: nat)
    requires lookback > 0 && |x| == |y|
  {
    var px, py := PadLeft(x, lookback), PadLeft(y, lookback);
    && |w.seqs| == |w.outs| == |w.flats| == WindowCount(|x|, lookback)
    && forall k {:trigger w.seqs[k]} :: 0 <= k < |w.seqs| ==>
         w.seqs[k] == px[k..k + lookback] && w.outs[k] == py[k + lookback - 1] && w.flats[k] == Flatten(w.seqs[k])
  }

  /** `build_temporal_windows`. */
  method BuildTemporalWindows<T>(x: seq<Row>, y: seq<T>, lookback: nat) returns (w: Windows<T>)
    requires lookback > 0 && |x| == |y|
    ensures AreWindows(w, x, y, lookback)
  {
    var px, py := PadLeft(x, lookback), PadLeft(y, lookback);
    var seqs, outs, flats := [], [], [];
    var i := lookback - 1;
    while i < |px|
      invariant lookback - 1 <= i && (|px| > 0 ==> i <= |px|) && (|px| == 0 ==> i == lookback - 1)
      invariant |seqs| == |outs| == |flats| == i - lookback + 1
      invariant forall k :: 0 <= k < |seqs| ==> seqs[k] == px[k..k + lookback]
      invariant forall k :: 0 <= k < |seqs| ==> outs[k] == py[k + lookback - 1]
      invariant forall k :: 0 <= k < |seqs| ==> flats[k] == Flatten(seqs[k])
    {
      var window := px[i - lookback + 1..i + 1];
      seqs := seqs + [window];
      flats := flats + [Flatten(window)];
      outs := outs + [py[i]];
      i := i + 1;
    }
    w := Windows(seqs, outs, flats);
  }

  // ----- the split ----------------------------------------------------------------------------

  function Max(a: int, b: int): int { if a < b then b else a }
  function Min(a: int, b: int): int { if a < b then a else b }

  /** `int(...)`: toward zero. */
  function Truncated(x: real): int {
    if x < 0.0 then -(-x).Floor else x.Floor
  }

  function TemporalCut(n: nat, testRatio: real): (cut: nat)
    ensures n > 1 ==> 1 <= cut <= n - 1
    ensures n <= 1 ==> cut == 1
  {
    var cut := Max(1, Truncated(n as real * (1.0 - testRatio)));
    if n > 1 then Min(cut, n - 1) else 1
  }

  /** A Python slice end past the sequence is its length. */
  function Take<T>(s: seq<T>, k: nat): seq<T> { if k <= |s| then s[..k] else s }
  function Drop<T>(s: seq<T>, k: nat): seq<T> { if k <= |s| then s[k..] else [] }

  /** For every ratio the temporal cut gives two parts that make up the series in order, both
      non-empty as soon as there are two rows. */
  lemma TemporalSplitIsOrdered<T>(s: seq<T>, testRatio: real)
    ensures var cut := TemporalCut(|s|, testRatio);
            && Take(s, cut) + Drop(s, cut) == s
            && (|s| > 1 ==> Take(s, cut) != [] && Drop(s, cut) != [])
  {
  }

  /** Without virtual samples no training window, padded or not, sees a test row: every row of it
      is a row before the cut, and its target is that of one. */
  lemma NoLeakage<T>(x: seq<Row>, y: seq<T>, testRatio: real, lookback: nat, w: Windows<T>, k: nat, j: nat)
    requires lookback > 0 && |x| == |y| && k < |w.seqs|
    requires var cut := TemporalCut(|x|, testRatio);
             |Take(x, cut)| == |Take(y, cut)| && AreWindows(w, Take(x, cut), Take(y, cut), lookback)
    requires j < lookback
    ensures var cut := TemporalCut(|x|, testRatio);
            var n := |Take(x, cut)|;
            var row := if n < lookback then Max(0, j - (lookback - n)) else k + j;
            var last := if n < lookback then n - 1 else k + lookback - 1;
            && |w.seqs[k]| == lookback
            && 0 <= row < n && row < cut && w.seqs[k][j] == x[row]
            && 0 <= last < cut && w.outs[k] == y[last]
  {
    var cut := TemporalCut(|x|, testRatio);
    var train := Take(x, cut);
    assert w.seqs[k] == PadLeft(train, lookback)[k..k + lookback];
  }

  // ----- the shuffled split -------------------------------------------------------------------

  ghost predicate IsShuffle(idx: seq<nat>, n: nat) {
    && |idx| == n && (forall i :: 0 <= i < n ==> idx[i] < n)
    && forall i, j :: 0 <= i < j < n ==> idx[i] != idx[j]
  }

  function ShuffledCut(n: nat, testRatio: real): (cut: nat)
    ensures cut >= 1
  {
    Max(1, Truncated(n as real * (1.0 - testRatio)))
  }

  function TestIndices(idx: seq<nat>, cut: nat): seq<nat> {
    var test := Drop(idx, cut);
    if test != [] then test
    else
      var train := Take(idx, cut);
      var k := Max(1, |idx| / 5);
      if k <= |train| then train[|train| - k..] else train
  }

  /** The shuffled split keeps training and test rows apart exactly when the cut leaves something
      over (or there are no rows); otherwise it tests on training rows. */
  lemma ShuffledSplitIsDisjointIff(idx: seq<nat>, testRatio: real)
    requires IsShuffle(idx, |idx|)
    ensures var cut := ShuffledCut(|idx|, testRatio);
            (forall i :: i in TestIndices(idx, cut) ==> i !in Take(idx, cut)) <==> idx == [] || cut < |idx|
  {
    var cut := ShuffledCut(|idx|, testRatio);
    if 0 < |idx| <= cut {
      assert TestIndices(idx, cut)[0] in TestIndices(idx, cut);
      assert TestIndices(idx, cut)[0] in Take(idx, cut);
    } else if cut < |idx| {
      forall i | i in TestIndices(idx, cut)
        ensures i !in Take(idx, cut)
      {
        var k :| 0 <= k < |idx| - cut && idx[cut..][k] == i;
        assert idx[cut + k] == i;
      }
    }
  }

  /** It leaves something over exactly from two rows on and for a positive ratio. */
  lemma ProperRatioIsDisjoint(n: nat, testRatio: real)
    requires n > 0
    ensures ShuffledCut(n, testRatio) < n <==> n > 1 && testRatio > 0.0
  {
    var kept := n as real * (1.0 - testRatio);
    assert kept == n as real - n as real * testRatio;
    if testRatio > 0.0 {
      assert n as real * testRatio > 0.0;
    } else {
      assert n as real * testRatio <= 0.0;
      assert Truncated(kept) >= n;
    }
  }

  /** The only row of a data set is trained on and tested on, whatever the ratio. */
  lemma OnlyRowLeaks(testRatio: real)
    ensures IsShuffle([0], 1)
    ensures TestIndices([0], ShuffledCut(1, testRatio)) == Take([0], ShuffledCut(1, testRatio)) == [0]
  {
    ProperRatioIsDisjoint(1, testRatio);
    var idx: seq<nat> := [0];
    var cut := ShuffledCut(1, testRatio);
    assert Drop(idx, cut) == [];
    assert Take(idx, cut) == idx;
  }

  // ----- holdout alignment --------------------------------------------------------------------

  /** `np.linspace(0.6, 1.0, lookback)[j]`. */
  function Weight(lookback: nat, j: nat): real {
    if lookback == 1 then 0.6 else 0.6 + 0.4 * (j as real / (lookback - 1) as real)
  }

  function Scaled(r: Row, w: real): (s: Row)
    ensures |s| == |r|
  {
    seq(|r|, k requires 0 <= k < |r| => r[k] * w)
  }

  /** `_to_flat_windows` on rows: windows of a long enough series, else one per row. */
  method ToFlatWindows(x: seq<Row>, lookback: nat) returns (flats: seq<Row>)
    requires lookback > 0
    ensures |flats| == PredictionCount(|x|, lookback)
    ensures |x| >= lookback ==> forall k :: 0 <= k < |flats| ==> flats[k] == Flatten(x[k..k + lookback])
    ensures |x| < lookback ==> forall k :: 0 <= k < |flats| ==>
              flats[k] == Flatten(seq(lookback, j requires 0 <= j < lookback => Scaled(x[k], Weight(lookback, j))))
  {
    if |x| >= lookback {
      var zeros := seq(|x|, k => 0.0);
      var w := BuildTemporalWindows(x, zeros, lookback);
      flats := w.flats;
      forall k | 0 <= k < |flats|
        ensures flats[k] == Flatten(x[k..k + lookback])
      {
        assert w.seqs[k] == x[k..k + lookback];
      }
    } else {
      flats := [];
      for k := 0 to |x|
        invariant |flats| == k
        invariant forall i :: 0 <= i < k ==>
                    flats[i] == Flatten(seq(lookback,
                                            j requires 0 <= j < lookback => Scaled(x[i], Weight(lookback, j))))
      {
        var window := seq(lookback, j requires 0 <= j < lookback => Scaled(x[k], Weight(lookback, j)));
        flats := flats + [Flatten(window)];
      }
    }
  }

  function PredictionCount(n: nat, lookback: nat): nat {
    if n >= lookback then n - lookback + 1 else n
  }

  /** The row a prediction is for: the last of its window. */
  function LastRow(n: nat, lookback: nat, k: nat): nat
    requires lookback > 0
  {
    if n >= lookback then k + lookback - 1 else k
  }

  /** Python's `s[-n:]`; note that `s[-0:]` is all of `s`. */
  function Tail<T>(s: seq<T>, n: nat): seq<T> {
    if n == 0 || n >= |s| then s else s[|s| - n..]
  }

  /** The tail alignment scores every temporal prediction against the target of its own window's
      last row, for every test length and lookback. */
  lemma TailsAreAligned<P, T>(predictions: seq<P>, targets: seq<T>, lookback: nat, k: nat)
    requires lookback > 0 && |predictions| == PredictionCount(|targets|, lookback)
    requires k < |predictions|
    ensures var n := Min(|predictions|, |targets|);
            && |Tail(predictions, n)| == |Tail(targets, n)| == |predictions|
            && Tail(predictions, n)[k] == predictions[k]
            && LastRow(|targets|, lookback, k) < |targets|
            && Tail(targets, n)[k] == targets[LastRow(|targets|, lookback, k)]
  {
  }

  // ----- how much is held out -----------------------------------------------------------------

  /** Out of two rows or more a proper ratio holds out the least whole number of rows that makes it up,
      or all but one; the temporal and the shuffled split hold out equally many. */
  lemma TestShare(n: nat, testRatio: real)
    requires n > 1 && 0.0 < testRatio <= 1.0
    ensures var held := n - TemporalCut(n, testRatio);
            && ShuffledCut(n, testRatio) == TemporalCut(n, testRatio)
            && 1 <= held <= n - 1
            && held as real < n as real * testRatio + 1.0
            && (held as real >= n as real * testRatio || held == n - 1)
  {
    var share := n as real * testRatio;
    assert n as real * (1.0 - testRatio) == n as real - share;
    assert share > 0.0;
    assert (1.0 - testRatio) * n as real >= 0.0;
  }

  /** A ratio of zero or less holds out one row, one of one or more all but one. */
  lemma ImproperShare(n: nat, testRatio: real)
    requires n > 1
    ensures testRatio <= 0.0 ==> TemporalCut(n, testRatio) == n - 1
    ensures testRatio >= 1.0 ==> TemporalCut(n, testRatio) == 1
  {
    var kept := n as real * (1.0 - testRatio);
    if testRatio <= 0.0 {
      assert n as real * testRatio <= 0.0;
      assert kept >= n as real;
    }
    if testRatio >= 1.0 {
      assert n as real * (1.0 - testRatio) <= 0.0;
    }
  }

  /** When the shuffled split leaves nothing over it tests on the last fifth of its training rows, at
      least on one. */
  lemma FallbackTests(idx: seq<nat>, cut: nat)
    requires 0 < |idx| <= cut
    ensures Take(idx, cut) == idx
    ensures |idx| < 10 ==> TestIndices(idx, cut) == idx[|idx| - 1..]
    ensures var k := |TestIndices(idx, cut)|;
            1 <= k <= |idx| && TestIndices(idx, cut) == idx[|idx| - k..] && (|idx| >= 5 ==> 5 * k <= |idx| < 5 * k + 5)
  {
  }

  /** A flat window holds every entry of its rows, row after row. */
  lemma {:induction false} FlattenAt(w: seq<Row>, width: nat, r: nat, c: nat)
    requires (forall k :: 0 <= k < |w| ==> |w[k]| == width) && r < |w| && c < width
    ensures |Flatten(w)| == width * |w| && 0 <= width * r + c < |Flatten(w)| && Flatten(w)[width * r + c] == w[r][c]
  {
    FlattenLength(w[1..], width);
    if r > 0 { FlattenAt(w[1..], width, r - 1, c); }
    InRange(width, |w|, r, c);
  }

  lemma {:induction false} FlattenLength(w: seq<Row>, width: nat)
    requires forall k :: 0 <= k < |w| ==> |w[k]| == width
    ensures |Flatten(w)| == width * |w|
  {
    if w != [] { FlattenLength(w[1..], width); }
  }

  lemma InRange(width: nat, n: nat, r: nat, c: nat)
    requires r < n && c < width
    ensures 0 <= width * r + c < width * n
    ensures width * n == width + width * (n - 1)
    ensures r > 0 ==> width * r + c - width == width * (r - 1) + c
  {
    assert width * (n - r) >= width;
  }

  /** The weights of a short series grow evenly from 0.6 to 1. */
  lemma WeightsAreEven(lookback: nat, j: nat)
    requires j < lookback
    ensures Weight(lookback, 0) == 0.6
    ensures lookback > 1 ==> Weight(lookback, lookback - 1) == 1.0
    ensures 0 < j < lookback - 1 ==> 2.0 * Weight(lookback, j) == Weight(lookback, j - 1) + Weight(lookback, j + 1)
  {
    if lookback > 1 {
      var n := (lookback - 1) as real;
      assert 0 as real / n == 0.0 && n / n == 1.0;
      if 0 < j < lookback - 1 {
        assert (j - 1) as real / n + (j + 1) as real / n == ((j - 1) as real + (j + 1) as real) / n;
        assert 2.0 * (j as real / n) == (2.0 * j as real) / n;
      }
    }
  }
}
