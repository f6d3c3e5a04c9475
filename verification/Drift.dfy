/** Reference histograms and the population stability index (app/ml/drift.py, train.py). */
module Drift {
  import opened Rounding
  import opened Sums

  function Least(s: seq<real>): (m: real)
    requires |s| > 0
    ensures m in s && forall v :: v in s ==> m <= v
  {
    if |s| == 1 then s[0]
    else
      assert s == [s[0]] + s[1..];
      Smaller(s[0], Least(s[1..]))
  }

  function Greatest(s: seq<real>): (m: real)
    requires |s| > 0
    ensures m in s && forall v :: v in s ==> v <= m
  {
    if |s| == 1 then s[0]
    else
      assert s == [s[0]] + s[1..];
      Larger(s[0], Greatest(s[1..]))
  }

  // ----- histograms ---------------------------------------------------------------------------

  ghost predicate Increasing(edges: seq<real>) {
    forall i, j :: 0 <= i < j < |edges| ==> edges[i] < edges[j]
  }

  function Point(lo: real, hi: real, i: nat, n: nat): real
    requires n > 0
  {
    lo + (hi - lo) * (i as real / n as real)
  }

  /** `np.linspace(lo, hi, n + 1)`. */
  function Linspace(lo: real, hi: real, n: nat): (edges: seq<real>)
    requires n > 0
    ensures |edges| == n + 1 && forall i :: 0 <= i <= n ==> edges[i] == Point(lo, hi, i, n)
  {
    seq(n + 1, i requires 0 <= i <= n => Point(lo, hi, i, n))
  }

  lemma LinspaceIncreasing(lo: real, hi: real, n: nat)
    requires n > 0 && lo < hi
    ensures Increasing(Linspace(lo, hi, n))
    ensures Linspace(lo, hi, n)[0] == lo && Linspace(lo, hi, n)[n] == hi
  {
    forall i: nat, j: nat | i < j <= n
      ensures Point(lo, hi, i, n) < Point(lo, hi, j, n)
    {
      PointsGrow(lo, hi, i, j, n);
    }
    EndPoints(lo, hi, n);
  }

  lemma PointsGrow(lo: real, hi: real, i: nat, j: nat, n: nat)
    requires lo < hi && i < j <= n
    ensures Point(lo, hi, i, n) < Point(lo, hi, j, n)
  {
    FractionGrows(i, j, n);
    ScaleGrows(hi - lo, i as real / n as real, j as real / n as real);
  }

  lemma EndPoints(lo: real, hi: real, n: nat)
    requires n > 0
    ensures Point(lo, hi, 0, n) == lo && Point(lo, hi, n, n) == hi
  {
    assert 0 as real / n as real == 0.0;
    assert n as real / n as real == 1.0;
  }

  lemma FractionGrows(i: nat, j: nat, n: nat)
    requires i < j <= n
    ensures i as real / n as real < j as real / n as real
  {
    assert (j as real - i as real) / n as real > 0.0;
  }

  lemma ScaleGrows(w: real, x: real, y: real)
    requires w > 0.0 && x < y
    ensures w * x < w * y
  {
    assert w * (y - x) > 0.0;
  }

  /** A bin holds its left edge; the last one holds its right edge too. */
  predicate InBin(v: real, edges: seq<real>, i: nat)
    requires i + 1 < |edges|
  {
    edges[i] <= v && (v < edges[i + 1] || (i + 2 == |edges| && v == edges[i + 1]))
  }

  function CountIn(values: seq<real>, edges: seq<real>, i: nat): (n: nat)
    requires i + 1 < |edges|
  {
    if values == [] then 0
    else (if InBin(values[0], edges, i) then 1 else 0) + CountIn(values[1..], edges, i)
  }

  /** `np.histogram`: values outside the edges are not counted. */
  function Histogram(values: seq<real>, edges: seq<real>): (h: seq<nat>)
    requires |edges| > 0
    ensures |h| == |edges| - 1 && forall i :: 0 <= i < |h| ==> h[i] == CountIn(values, edges, i)
  {
    seq(|edges| - 1, i requires 0 <= i < |edges| - 1 => CountIn(values, edges, i))
  }

  /** Automatic edges: a constant column gets a bin range one wide around its value. */
  function AutoEdges(values: seq<real>, n: nat): (edges: seq<real>)
    requires |values| > 0 && n > 0
    ensures |edges| == n + 1
  {
    var (lo, hi) := AutoRange(values);
    Linspace(lo, hi, n)
  }

  function AutoRange(values: seq<real>): (real, real)
    requires |values| > 0
  {
    var lo, hi := Least(values), Greatest(values);
    if lo == hi then (lo - 0.5, hi + 0.5) else (lo, hi)
  }

  lemma AutoEdgesCover(values: seq<real>, n: nat)
    requires |values| > 0 && n > 0
    ensures Increasing(AutoEdges(values, n))
    ensures forall k :: 0 <= k < |values| ==> AutoEdges(values, n)[0] <= values[k] <= AutoEdges(values, n)[n]
  {
    var lo, hi := Least(values), Greatest(values);
    forall k | 0 <= k < |values|
      ensures lo <= values[k] <= hi
    {
      assert values[k] in values;
    }
    if lo == hi { LinspaceIncreasing(lo - 0.5, hi + 0.5, n); } else { LinspaceIncreasing(lo, hi, n); }
  }

  // ----- rebuilding the reference column ------------------------------------------------------

  function Mid(edges: seq<real>, i: nat): real
    requires i + 1 < |edges|
  {
    0.5 * (edges[i] + edges[i + 1])
  }

  /** No rebuilt value is further than half the width of its bin from any value it stands for, and no
      other choice does better. */
  lemma MidIsNearest(edges: seq<real>, i: nat, x: real)
    requires i + 1 < |edges| && edges[i] <= edges[i + 1]
    ensures forall v :: edges[i] <= v <= edges[i + 1] ==>
              Distance(v, Mid(edges, i)) <= (edges[i + 1] - edges[i]) / 2.0
    ensures x != Mid(edges, i) ==>
              exists v :: edges[i] <= v <= edges[i + 1] && Distance(v, x) > (edges[i + 1] - edges[i]) / 2.0
  {
    var far := if x < Mid(edges, i) then edges[i + 1] else edges[i];
    assert x != Mid(edges, i) ==> Distance(far, x) > (edges[i + 1] - edges[i]) / 2.0;
  }

  function Distance(x: real, y: real): real { if x <= y then y - x else x - y }

  function Copies(x: real, n: nat): (s: seq<real>)
    ensures |s| == n && forall k :: 0 <= k < n ==> s[k] == x
  {
    seq(n, k => x)
  }

  /** The midpoint of each of the first `k` bins, as often as the bin counted. */
  function RebuiltPrefix(hist: seq<nat>, edges: seq<real>, k: nat): seq<real>
    requires |edges| == |hist| + 1 && k <= |hist|
  {
    if k == 0 then [] else RebuiltPrefix(hist, edges, k - 1) + Copies(Mid(edges, k - 1), hist[k - 1])
  }

  function Rebuilt(hist: seq<nat>, edges: seq<real>): seq<real>
    requires |edges| == |hist| + 1
  {
    RebuiltPrefix(hist, edges, |hist|)
  }

  method RebuildColumn(hist: seq<nat>, edges: seq<real>) returns (samples: seq<real>)
    requires |edges| == |hist| + 1
    ensures samples == Rebuilt(hist, edges)
  {
    samples := [];
    for k := 0 to |hist|
      invariant samples == RebuiltPrefix(hist, edges, k)
    {
      samples := samples + Copies(Mid(edges, k), hist[k]);
    }
  }

  lemma {:induction false} CountAppend(s: seq<real>, t: seq<real>, edges: seq<real>, i: nat)
    requires i + 1 < |edges|
    ensures CountIn(s + t, edges, i) == CountIn(s, edges, i) + CountIn(t, edges, i)
  {
    if s == [] {
      assert s + t == t;
    } else {
      assert (s + t)[1..] == s[1..] + t;
      CountAppend(s[1..], t, edges, i);
    }
  }

  lemma {:induction false} CountCopies(x: real, n: nat, edges: seq<real>, i: nat)
    requires i + 1 < |edges|
    ensures CountIn(Copies(x, n), edges, i) == if InBin(x, edges, i) then n else 0
  {
    if n > 0 {
      assert Copies(x, n)[1..] == Copies(x, n - 1);
      CountCopies(x, n - 1, edges, i);
    }
  }

  /** A midpoint falls back into its own bin and no other. */
  lemma MidInBin(edges: seq<real>, j: nat, i: nat)
    requires Increasing(edges) && j + 1 < |edges| && i + 1 < |edges|
    ensures InBin(Mid(edges, j), edges, i) <==> i == j
  {
    assert edges[j] < Mid(edges, j) < edges[j + 1];
    if i < j { assert i + 1 == j || edges[i + 1] < edges[j]; }
    if j < i { assert j + 1 == i || edges[j + 1] < edges[i]; }
  }

  lemma {:induction false} RebuiltLength(hist: seq<nat>, edges: seq<real>)
    requires |edges| == |hist| + 1
    ensures |Rebuilt(hist, edges)| == Sum(hist)
  {
    PrefixLength(hist, edges, |hist|);
    assert hist[..|hist|] == hist;
  }

  lemma {:induction false} PrefixLength(hist: seq<nat>, edges: seq<real>, k: nat)
    requires |edges| == |hist| + 1 && k <= |hist|
    ensures |RebuiltPrefix(hist, edges, k)| == Sum(hist[..k])
  {
    if k > 0 {
      PrefixLength(hist, edges, k - 1);
      assert hist[..k][..k - 1] == hist[..k - 1];
    }
  }

  lemma {:induction false} PrefixCounts(hist: seq<nat>, edges: seq<real>, k: nat, i: nat)
    requires Increasing(edges) && |edges| == |hist| + 1 && k <= |hist| && i < |hist|
    ensures CountIn(RebuiltPrefix(hist, edges, k), edges, i) == if i < k then hist[i] else 0
  {
    if k > 0 {
      PrefixCounts(hist, edges, k - 1, i);
      CountAppend(RebuiltPrefix(hist, edges, k - 1), Copies(Mid(edges, k - 1), hist[k - 1]), edges, i);
      CountCopies(Mid(edges, k - 1), hist[k - 1], edges, i);
      MidInBin(edges, k - 1, i);
    }
  }

  /** Binning the rebuilt column under its stored edges gives back the stored counts. */
  lemma {:induction false} HistogramRoundTrip(hist: seq<nat>, edges: seq<real>)
    requires Increasing(edges) && |edges| == |hist| + 1
    ensures Histogram(Rebuilt(hist, edges), edges) == hist
    ensures |Rebuilt(hist, edges)| == Sum(hist)
  {
    forall i: nat | i < |hist|
      ensures Histogram(Rebuilt(hist, edges), edges)[i] == hist[i]
    {
      PrefixCounts(hist, edges, |hist|, i);
    }
    RebuiltLength(hist, edges);
  }

  /** The bins of covering edges count every value once. */
  lemma {:induction false} EveryValueCounted(values: seq<real>, edges: seq<real>)
    requires Increasing(edges) && |edges| > 1
    requires forall k :: 0 <= k < |values| ==> edges[0] <= values[k] <= edges[|edges| - 1]
    ensures Sum(Histogram(values, edges)) == |values|
    decreases |values|
  {
    if values == [] {
      AllZero(Histogram(values, edges));
    } else {
      var rest := values[1..];
      EveryValueCounted(rest, edges);
      var b := BinOf(values[0], edges, |edges| - 1);
      forall i: nat | i < |edges| - 1
        ensures InBin(values[0], edges, i) <==> i == b
      {
        OneBin(values[0], edges, b, i);
      }
      OneMore(Histogram(rest, edges), Histogram(values, edges), b);
    }
  }

  lemma OneBin(v: real, edges: seq<real>, b: nat, i: nat)
    requires Increasing(edges) && b + 1 < |edges| && i + 1 < |edges| && InBin(v, edges, b)
    ensures InBin(v, edges, i) <==> i == b
  {
    if b + 1 < i { assert edges[b + 1] < edges[i]; }
    if i + 1 < b { assert edges[i + 1] < edges[b]; }
  }

  lemma {:induction false} BinOf(v: real, edges: seq<real>, k: nat) returns (b: nat)
    requires Increasing(edges) && 0 < k < |edges| && edges[0] <= v
    requires v < edges[k] || (k == |edges| - 1 && v == edges[k])
    ensures b + 1 < |edges| && InBin(v, edges, b)
    decreases k
  {
    if edges[k - 1] <= v { b := k - 1; } else { b := BinOf(v, edges, k - 1); }
  }

  lemma {:induction false} AllZero(h: seq<nat>)
    requires forall i :: 0 <= i < |h| ==> h[i] == 0
    ensures Sum(h) == 0
  {
    if h != [] { AllZero(h[..|h| - 1]); }
  }

  lemma {:induction false} OneMore(g: seq<nat>, h: seq<nat>, b: nat)
    requires |g| == |h| && b < |g| && h[b] == g[b] + 1
    requires forall i :: 0 <= i < |g| && i != b ==> h[i] == g[i]
    ensures Sum(h) == Sum(g) + 1
  {
    var last := |g| - 1;
    if b == last {
      assert g[..last] == h[..last];
    } else {
      OneMore(g[..last], h[..last], b);
    }
  }

  // ----- the reference matrix -----------------------------------------------------------------

  datatype Stats = Stats(hist: seq<nat>, edges: seq<real>)

  /** `feature_reference_stats` of one column. */
  function StatsOf(column: seq<real>): (st: Stats)
    requires |column| > 0
    ensures |st.edges| == |st.hist| + 1 == 11
  {
    Stats(Histogram(column, AutoEdges(column, 10)), AutoEdges(column, 10))
  }

  /** Any stored histogram of a column with `n` rows rebuilds to a column of `n` rows with the
      same histogram: every column of the matrix has the same length, so truncating to the
      shortest drops nothing. */
  lemma ReferenceColumnsKeepLength(column: seq<real>)
    requires |column| > 0
    ensures var st := StatsOf(column);
            && |st.edges| == |st.hist| + 1
            && |Rebuilt(st.hist, st.edges)| == |column|
            && Histogram(Rebuilt(st.hist, st.edges), st.edges) == st.hist
  {
    AutoEdgesCover(column, 10);
    EveryValueCounted(column, AutoEdges(column, 10));
    HistogramRoundTrip(StatsOf(column).hist, StatsOf(column).edges);
  }

  function Shortest(columns: seq<seq<real>>): (n: nat)
    requires |columns| > 0
    ensures (forall c :: c in columns ==> n <= |c|) && exists c :: c in columns && |c| == n
  {
    if |columns| == 1 then |columns[0]|
    else
      assert columns == [columns[0]] + columns[1..];
      var rest := Shortest(columns[1..]);
      if |columns[0]| <= rest then |columns[0]| else rest
  }

  /** Statistics that a column can be rebuilt from: some counts, and an edge more than bins. */
  predicate Usable(st: Stats) {
    |st.edges| == |st.hist| + 1 && Sum(st.hist) > 0
  }

  const FALLBACK_ROWS: nat := 50

  /** A column of the matrix before cutting; without usable statistics it is drawn at random. */
  function ColumnFrom(st: Stats, random: seq<real>): seq<real> {
    if Usable(st) then Rebuilt(st.hist, st.edges) else random
  }

  function ColumnsFrom(stats: seq<Stats>, random: seq<seq<real>>): (columns: seq<seq<real>>)
    requires |random| == |stats|
    ensures |columns| == |stats| && forall j :: 0 <= j < |stats| ==> columns[j] == ColumnFrom(stats[j], random[j])
  {
    seq(|stats|, j requires 0 <= j < |stats| => ColumnFrom(stats[j], random[j]))
  }

  function CutTo(columns: seq<seq<real>>, n: nat): (r: seq<seq<real>>)
    requires forall j :: 0 <= j < |columns| ==> n <= |columns[j]|
    ensures |r| == |columns| && forall j :: 0 <= j < |r| ==> r[j] == columns[j][..n]
  {
    seq(|columns|, j requires 0 <= j < |columns| => columns[j][..n])
  }

  /** `_reference_matrix_from_stats`: rebuilt or random columns, cut to the shortest. */
  method ReferenceMatrix(stats: seq<Stats>, random: seq<seq<real>>) returns (columns: seq<seq<real>>)
    requires |stats| > 0 && |random| == |stats| && forall j :: 0 <= j < |random| ==> |random[j]| == FALLBACK_ROWS
    ensures var full := ColumnsFrom(stats, random);
            (forall j :: 0 <= j < |full| ==> Shortest(full) <= |full[j]|) && columns == CutTo(full, Shortest(full))
  {
    var full := [];
    for j := 0 to |stats|
      invariant |full| == j && forall i :: 0 <= i < j ==> full[i] == ColumnFrom(stats[i], random[i])
    {
      var st := stats[j];
      var column := random[j];
      if |st.hist| > 0 && |st.edges| == |st.hist| + 1 {
        var samples := RebuildColumn(st.hist, st.edges);
        RebuiltLength(st.hist, st.edges);
        if samples != [] { column := samples; }
      }
      full := full + [column];
    }
    assert full == ColumnsFrom(stats, random);
    assert forall j :: 0 <= j < |full| ==> full[j] in full;
    columns := CutTo(full, Shortest(full));
  }

  /** The statistics of one matrix of `n` rows are all usable, its columns are rebuilt to `n` rows
      each, so cutting to the shortest drops nothing and every histogram comes back. */
  lemma MatrixRoundTrip(matrix: seq<seq<real>>, n: nat, stats: seq<Stats>, random: seq<seq<real>>)
    requires |matrix| == |stats| == |random| > 0 && n > 0
    requires forall j :: 0 <= j < |matrix| ==> |matrix[j]| == n && stats[j] == StatsOf(matrix[j])
    ensures var full := ColumnsFrom(stats, random);
            && Shortest(full) == n
            && forall j :: 0 <= j < |full| ==>
                 |full[j]| == n && |stats[j].edges| > 0 && Histogram(full[j], stats[j].edges) == stats[j].hist
  {
    var full := ColumnsFrom(stats, random);
    forall j | 0 <= j < |full|
      ensures |full[j]| == n && |stats[j].edges| > 0 && Histogram(full[j], stats[j].edges) == stats[j].hist
    {
      ReferenceColumnsKeepLength(matrix[j]);
      RebuiltLength(stats[j].hist, stats[j].edges);
    }
  }

  ghost predicate EquallyLong(columns: seq<seq<real>>) {
    forall i, j :: 0 <= i < |columns| && 0 <= j < |columns| ==> |columns[i]| == |columns[j]|
  }

  /** Cutting drops nothing exactly when all columns are equally long. */
  lemma {:induction false} CutDropsNothingIff(columns: seq<seq<real>>)
    requires |columns| > 0
    ensures forall j :: 0 <= j < |columns| ==> Shortest(columns) <= |columns[j]|
    ensures CutTo(columns, Shortest(columns)) == columns <==> EquallyLong(columns)
  {
    var n := Shortest(columns);
    assert forall j :: 0 <= j < |columns| ==> columns[j] in columns;
    var c :| c in columns && |c| == n;
    var m :| 0 <= m < |columns| && columns[m] == c;
    CutIsWholeIff(columns, n);
  }

  lemma CutIsWholeIff(columns: seq<seq<real>>, n: nat)
    requires forall j :: 0 <= j < |columns| ==> n <= |columns[j]|
    ensures CutTo(columns, n) == columns <==> forall j :: 0 <= j < |columns| ==> |columns[j]| == n
  {
    var cut := CutTo(columns, n);
    forall j | 0 <= j < |columns|
      ensures cut[j] == columns[j] <==> |columns[j]| == n
    {
      assert |cut[j]| == n;
    }
  }

  /** How many rows a feature's column has before cutting. */
  function RowsOf(st: Stats): nat { if Usable(st) then Sum(st.hist) else FALLBACK_ROWS }

  /** So the cut of the reference matrix drops nothing exactly when all stored statistics count
      equally many values, where missing or corrupt ones stand for 50. */
  lemma MatrixKeepsAllIff(stats: seq<Stats>, random: seq<seq<real>>)
    requires |stats| > 0 && |random| == |stats| && forall j :: 0 <= j < |random| ==> |random[j]| == FALLBACK_ROWS
    ensures var full := ColumnsFrom(stats, random);
            && (forall j :: 0 <= j < |full| ==> Shortest(full) <= |full[j]|)
            && (CutTo(full, Shortest(full)) == full
                <==> forall i, j :: 0 <= i < |stats| && 0 <= j < |stats| ==> RowsOf(stats[i]) == RowsOf(stats[j]))
  {
    var full := ColumnsFrom(stats, random);
    forall j: nat | j < |full|
      ensures |full[j]| == RowsOf(stats[j])
    {
      if Usable(stats[j]) { RebuiltLength(stats[j].hist, stats[j].edges); }
    }
    CutDropsNothingIff(full);
  }

  /** One feature without usable statistics cuts the columns of a larger matrix to 50 rows: of a
      rebuilt column only the lowest values are left. */
  lemma MissingStatsCut(column: seq<real>, m: nat)
    requires |column| > m
    ensures var st := StatsOf(column);
            && |st.edges| == |st.hist| + 1 && |Rebuilt(st.hist, st.edges)| == |column|
            && Histogram(Rebuilt(st.hist, st.edges)[..m], st.edges) != st.hist
            && forall i, j :: 0 <= i < m <= j < |column| ==>
              Rebuilt(st.hist, st.edges)[i] <= Rebuilt(st.hist, st.edges)[j]
  {
    var st := StatsOf(column);
    AutoEdgesCover(column, 10);
    ReferenceColumnsKeepLength(column);
    PrefixAscends(st.hist, st.edges, |st.hist|);
    KeptAreLowest(Rebuilt(st.hist, st.edges), column, st.edges, m);
  }

  lemma KeptAreLowest(rebuilt: seq<real>, column: seq<real>, edges: seq<real>, m: nat)
    requires Increasing(edges) && |edges| > 1 && m < |column| == |rebuilt|
    requires AscendsWithin(rebuilt, edges[0], edges[|edges| - 1])
    requires forall i :: 0 <= i < |column| ==> edges[0] <= column[i] <= edges[|edges| - 1]
    ensures Histogram(rebuilt[..m], edges) != Histogram(column, edges)
    ensures forall i, j :: 0 <= i < m <= j < |column| ==> rebuilt[i] <= rebuilt[j]
  {
    FewerAreCounted(rebuilt[..m], column, edges);
  }

  lemma FewerAreCounted(kept: seq<real>, column: seq<real>, edges: seq<real>)
    requires Increasing(edges) && |edges| > 1 && |kept| < |column|
    requires forall i :: 0 <= i < |kept| ==> edges[0] <= kept[i] <= edges[|edges| - 1]
    requires forall i :: 0 <= i < |column| ==> edges[0] <= column[i] <= edges[|edges| - 1]
    ensures Histogram(kept, edges) != Histogram(column, edges)
  {
    EveryValueCounted(kept, edges);
    EveryValueCounted(column, edges);
  }

  ghost predicate AscendsWithin(s: seq<real>, lo: real, hi: real) {
    (forall i :: 0 <= i < |s| ==> lo <= s[i] <= hi) && forall i, j :: 0 <= i <= j < |s| ==> s[i] <= s[j]
  }

  /** A rebuilt column ascends, within the edges of its bins. */
  lemma {:induction false} PrefixAscends(hist: seq<nat>, edges: seq<real>, k: nat)
    requires Increasing(edges) && |edges| == |hist| + 1 && k <= |hist|
    ensures AscendsWithin(RebuiltPrefix(hist, edges, k), edges[0], edges[k])
  {
    if k > 0 {
      PrefixAscends(hist, edges, k - 1);
      assert edges[0] <= edges[k - 1] < edges[k];
      CopiesAscend(RebuiltPrefix(hist, edges, k - 1), edges[0], edges[k - 1], Mid(edges, k - 1), hist[k - 1], edges[k]);
    }
  }

  lemma CopiesAscend(s: seq<real>, lo: real, hi: real, x: real, n: nat, hi': real)
    requires AscendsWithin(s, lo, hi) && lo <= hi <= x <= hi'
    ensures AscendsWithin(s + Copies(x, n), lo, hi')
  {
  }

  // ----- the population stability index -------------------------------------------------------

  /** All that is used of the natural logarithm: it grows, and turns quotients into differences. */
  ghost predicate IsLog(ln: real -> real) {
    forall x, y :: 0.0 < x && 0.0 < y ==> Grows(ln, x, y) && TakesQuotient(ln, x, y)
  }

  ghost predicate Grows(ln: real -> real, x: real, y: real) {
    x < y ==> ln(x) < ln(y)
  }

  ghost predicate TakesQuotient(ln: real -> real, x: real, y: real)
    requires y > 0.0
  {
    ln(x / y) == ln(x) - ln(y)
  }

  /** Proportions, none below 1e-4, before the final scaling to one. */
  function Floored(hist: seq<nat>): (p: seq<real>)
    ensures |p| == |hist| && forall i :: 0 <= i < |p| ==> p[i] >= 0.0001
  {
    var total := if Sum(hist) < 1 then 1 else Sum(hist);
    seq(|hist|, i requires 0 <= i < |hist| => Larger(hist[i] as real / total as real, 0.0001))
  }

  lemma {:induction false} SumPositive(s: seq<real>)
    requires |s| > 0 && forall i :: 0 <= i < |s| ==> s[i] > 0.0
    ensures SumReals(s) > 0.0
  {
    if |s| > 1 { SumPositive(s[..|s| - 1]); }
  }

  function Smoothed(hist: seq<nat>): (p: seq<real>)
    requires |hist| > 0
    ensures |p| == |hist| && forall i :: 0 <= i < |p| ==> p[i] > 0.0
  {
    var f := Floored(hist);
    SumPositive(f);
    Scaled(f, SumReals(f))
  }

  function Scaled(f: seq<real>, total: real): (p: seq<real>)
    requires total > 0.0 && forall i :: 0 <= i < |f| ==> f[i] > 0.0
    ensures |p| == |f| && forall i :: 0 <= i < |p| ==> p[i] > 0.0
  {
    seq(|f|, i requires 0 <= i < |f| => f[i] / total)
  }

  function Term(ln: real -> real, r: real, c: real): real
    requires r > 0.0
  {
    (c - r) * ln(c / r)
  }

  function PsiSum(ln: real -> real, r: seq<real>, c: seq<real>): real
    requires |r| == |c| && forall i :: 0 <= i < |r| ==> r[i] > 0.0
  {
    if r == [] then 0.0 else Term(ln, r[0], c[0]) + PsiSum(ln, r[1..], c[1..])
  }

  /** `compute_psi`: nothing to compare with fewer than five values, or when all are equal. */
  function ComputePsi(ln: real -> real, reference: seq<real>, current: seq<real>, bins: nat): real
    requires bins > 0
  {
    if |reference| < 5 || |current| < 5 then 0.0
    else
      var lo := Smaller(Least(reference), Least(current));
      var hi := Larger(Greatest(reference), Greatest(current));
      if hi - lo < 0.000000000001 then 0.0
      else
        var edges := Linspace(lo, hi, bins);
        PsiSum(ln, Smoothed(Histogram(reference, edges)), Smoothed(Histogram(current, edges)))
  }

  lemma TermValue(ln: real -> real, r: real, c: real)
    requires IsLog(ln) && r > 0.0 && c > 0.0
    ensures Term(ln, r, c) == (c - r) * (ln(c) - ln(r))
  {
    assert TakesQuotient(ln, c, r);
  }

  lemma TermFacts(ln: real -> real, r: real, c: real)
    requires IsLog(ln) && r > 0.0 && c > 0.0
    ensures Term(ln, r, c) >= 0.0
    ensures Term(ln, r, c) == 0.0 <==> r == c
    ensures Term(ln, r, c) == Term(ln, c, r)
  {
    TermValue(ln, r, c);
    TermValue(ln, c, r);
    LogOrders(ln, r, c);
    ProductFacts(c - r, ln(c) - ln(r), r - c, ln(r) - ln(c));
  }

  lemma LogOrders(ln: real -> real, r: real, c: real)
    requires IsLog(ln) && r > 0.0 && c > 0.0
    ensures (r < c <==> ln(r) < ln(c)) && (c < r <==> ln(c) < ln(r))
  {
    assert Grows(ln, r, c) && Grows(ln, c, r);
  }

  lemma ProductFacts(x: real, y: real, x': real, y': real)
    requires x' == -x && y' == -y && (x > 0.0 <==> y > 0.0) && (x < 0.0 <==> y < 0.0)
    ensures x * y == x' * y' && x * y >= 0.0 && (x * y == 0.0 <==> x == 0.0)
  {
    BothSigns(x, y);
    if x != 0.0 { SameSign(x, y); }
  }

  lemma SameSign(x: real, y: real)
    requires (x > 0.0 && y > 0.0) || (x < 0.0 && y < 0.0)
    ensures x * y > 0.0
  {
    if x > 0.0 {
      Positive(x, y);
    } else {
      Positive(-x, -y);
      BothSigns(x, y);
    }
  }

  lemma BothSigns(x: real, y: real)
    ensures (-x) * (-y) == x * y
  {
  }

  lemma Positive(x: real, y: real)
    requires x > 0.0 && y > 0.0
    ensures x * y > 0.0
  {
  }

  lemma {:induction false} PsiSumFacts(ln: real -> real, r: seq<real>, c: seq<real>)
    requires IsLog(ln) && |r| == |c|
    requires forall i :: 0 <= i < |r| ==> r[i] > 0.0 && c[i] > 0.0
    ensures PsiSum(ln, r, c) >= 0.0
    ensures PsiSum(ln, r, c) == 0.0 <==> r == c
    ensures PsiSum(ln, r, c) == PsiSum(ln, c, r)
  {
    if r != [] {
      TermFacts(ln, r[0], c[0]);
      PsiSumFacts(ln, r[1..], c[1..]);
      assert r == [r[0]] + r[1..] && c == [c[0]] + c[1..];
    }
  }

  /** For any logarithm the index is never negative, does not depend on which sample is the
      reference, and, once it is computed at all, is zero exactly when the smoothed proportions
      of the two samples agree. */
  lemma {:induction false} PsiIsADivergence(ln: real -> real, reference: seq<real>, current: seq<real>, bins: nat)
    requires IsLog(ln) && bins > 0
    ensures ComputePsi(ln, reference, current, bins) >= 0.0
    ensures ComputePsi(ln, reference, current, bins) == ComputePsi(ln, current, reference, bins)
    ensures |reference| >= 5 && |current| >= 5 ==>
              var lo, hi := Smaller(Least(reference), Least(current)), Larger(Greatest(reference), Greatest(current));
              hi - lo >= 0.000000000001 ==>
                var edges := Linspace(lo, hi, bins);
                ComputePsi(ln, reference, current, bins) == 0.0
                <==> Smoothed(Histogram(reference, edges)) == Smoothed(Histogram(current, edges))
  {
    if |reference| >= 5 && |current| >= 5 {
      var lo, hi := Smaller(Least(reference), Least(current)), Larger(Greatest(reference), Greatest(current));
      var edges := Linspace(lo, hi, bins);
      PsiSumFacts(ln, Smoothed(Histogram(reference, edges)), Smoothed(Histogram(current, edges)));
    }
  }

  // ----- what the proportions are -------------------------------------------------------------

  /** The smoothed proportions add up to one. */
  lemma SmoothedAddUp(hist: seq<nat>)
    requires |hist| > 0
    ensures SumReals(Smoothed(hist)) == 1.0
  {
    var f := Floored(hist);
    SumPositive(f);
    ScaledSum(f, SumReals(f));
    assert SumReals(f) / SumReals(f) == 1.0;
  }

  lemma {:induction false} ScaledSum(f: seq<real>, total: real)
    requires total > 0.0 && forall i :: 0 <= i < |f| ==> f[i] > 0.0
    ensures SumReals(Scaled(f, total)) == SumReals(f) / total
  {
    if f == [] {
      assert 0.0 / total == 0.0;
    } else {
      var n := |f| - 1;
      ScaledSum(f[..n], total);
      assert Scaled(f, total)[..n] == Scaled(f[..n], total);
      AddFractions(SumReals(f[..n]), f[n], total);
    }
  }

  lemma AddFractions(a: real, b: real, total: real)
    requires total > 0.0
    ensures a / total + b / total == (a + b) / total
  {
  }

  function Share(hist: seq<nat>, i: nat): real
    requires i < |hist| && Sum(hist) > 0
  {
    hist[i] as real / Sum(hist) as real
  }

  /** When every bin holds at least one value in ten thousand, nothing is smoothed: the proportions are
      the counts over their sum. */
  lemma {:induction false} WellFilledIsExact(hist: seq<nat>, i: nat)
    requires i < |hist| && Sum(hist) > 0
    requires forall k :: 0 <= k < |hist| ==> 10000 * hist[k] >= Sum(hist)
    ensures Smoothed(hist)[i] == Share(hist, i)
  {
    var f := Floored(hist);
    forall k: nat | k < |hist|
      ensures f[k] == Share(hist, k)
    {
      FilledShare(hist, k);
    }
    FractionsAddUp(hist, f, Sum(hist) as real);
    WholeIsOne(Sum(hist) as real);
    ScaledByOne(f, i);
  }

  lemma WholeIsOne(total: real)
    requires total > 0.0
    ensures total / total == 1.0
  {
  }

  lemma {:induction false} FilledShare(hist: seq<nat>, i: nat)
    requires i < |hist| && 10000 * hist[i] >= Sum(hist) > 0
    ensures Floored(hist)[i] == Share(hist, i)
  {
    AtLeastShare(hist[i], Sum(hist));
  }

  lemma {:induction false} ScaledByOne(f: seq<real>, i: nat)
    requires i < |f| && (forall k :: 0 <= k < |f| ==> f[k] > 0.0) && SumReals(f) == 1.0
    ensures Scaled(f, SumReals(f))[i] == f[i]
  {
    assert f[i] / 1.0 == f[i];
  }

  lemma AtLeastShare(count: nat, total: nat)
    requires total > 0 && 10000 * count >= total
    ensures count as real / total as real >= 0.0001
  {
    var q := count as real / total as real;
    assert q * total as real == count as real;
    CancelFactor(q, 0.0001, total as real);
  }

  lemma {:induction false} FractionsAddUp(hist: seq<nat>, f: seq<real>, total: real)
    requires total > 0.0 && |f| == |hist| && forall k :: 0 <= k < |f| ==> f[k] == hist[k] as real / total
    ensures SumReals(f) == Sum(hist) as real / total
  {
    if f == [] {
      assert 0.0 / total == 0.0;
    } else {
      var n := |f| - 1;
      FractionsAddUp(hist[..n], f[..n], total);
      AddFractions(Sum(hist[..n]) as real, hist[n] as real, total);
    }
  }

  /** In general the proportions are those of the shares, where none counts for less than one value in
      ten thousand. */
  lemma SmoothedInProportion(hist: seq<nat>) returns (total: real)
    requires |hist| > 0 && Sum(hist) > 0
    ensures total > 0.0
    ensures forall k :: 0 <= k < |hist| ==> Smoothed(hist)[k] * total == FlooredShare(hist, k)
  {
    var f := Floored(hist);
    SumPositive(f);
    total := SumReals(f);
    forall k: nat | k < |hist|
      ensures Smoothed(hist)[k] * total == FlooredShare(hist, k)
    {
      FlooredIs(hist, k);
      DivideBack(f[k], total);
    }
  }

  function FlooredShare(hist: seq<nat>, k: nat): real
    requires k < |hist| && Sum(hist) > 0
  {
    if 10000 * hist[k] >= Sum(hist) then Share(hist, k) else 0.0001
  }

  lemma {:induction false} FlooredIs(hist: seq<nat>, k: nat)
    requires k < |hist| && Sum(hist) > 0
    ensures Floored(hist)[k] == FlooredShare(hist, k)
  {
    if 10000 * hist[k] >= Sum(hist) {
      FilledShare(hist, k);
    } else {
      LessThanShare(hist[k], Sum(hist));
    }
  }

  lemma LessThanShare(count: nat, total: nat)
    requires total > 0 && 10000 * count < total
    ensures count as real / total as real < 0.0001
  {
    var q := count as real / total as real;
    assert q * total as real == count as real;
    CancelFactor(q, 0.0001, total as real);
  }

  lemma CancelFactor(x: real, y: real, factor: real)
    requires factor > 0.0
    ensures x * factor < y * factor <==> x < y
  {
    if x < y { assert (y - x) * factor > 0.0; } else { assert (x - y) * factor >= 0.0; }
  }

  lemma DivideBack(x: real, total: real)
    requires total > 0.0
    ensures x / total * total == x
  {
  }

  /** Too few values or too narrow a range tell nothing. */
  lemma NothingToCompare(ln: real -> real, reference: seq<real>, current: seq<real>, bins: nat)
    requires bins > 0
    ensures |reference| < 5 || |current| < 5 ==> ComputePsi(ln, reference, current, bins) == 0.0
    ensures |reference| >= 5 && |current| >= 5
            && (forall x, y :: x in reference + current && y in reference + current ==> x - y < 0.000000000001) ==>
              ComputePsi(ln, reference, current, bins) == 0.0
  {
    if |reference| >= 5 && |current| >= 5 {
      var lo, hi := Smaller(Least(reference), Least(current)), Larger(Greatest(reference), Greatest(current));
      assert lo in reference + current && hi in reference + current;
    }
  }

  // ----- where the bins are -------------------------------------------------------------------

  /** A value on an inner edge counts to the right of it. */
  lemma EdgeCountsRight(edges: seq<real>, i: nat)
    requires Increasing(edges) && 0 < i && i + 1 < |edges|
    ensures InBin(edges[i], edges, i) && !InBin(edges[i], edges, i - 1)
  {
  }

  /** Edges run in even steps, from end to end. */
  lemma LinspaceIsEven(lo: real, hi: real, n: nat, i: nat)
    requires i < n
    ensures Linspace(lo, hi, n)[0] == lo && Linspace(lo, hi, n)[n] == hi
    ensures (Linspace(lo, hi, n)[i + 1] - Linspace(lo, hi, n)[i]) * n as real == hi - lo
  {
    EndPoints(lo, hi, n);
    EvenSteps(lo, hi, i, n);
  }

  /** Those that are stored run from the least value to the greatest, or from half below to half above a
      single one. */
  lemma AutoRangeCovers(values: seq<real>)
    requires |values| > 0
    ensures var (lo, hi) := AutoRange(values);
            if forall v :: v in values ==> v == values[0] then lo == values[0] - 0.5 && hi == values[0] + 0.5
            else lo in values && hi in values && lo < hi && forall v :: v in values ==> lo <= v <= hi
  {
    assert values[0] in values;
  }

  lemma EvenSteps(lo: real, hi: real, i: nat, n: nat)
    requires i < n
    ensures (Point(lo, hi, i + 1, n) - Point(lo, hi, i, n)) * n as real == hi - lo
  {
    var w, m := hi - lo, n as real;
    assert (i + 1) as real / m - i as real / m == 1.0 / m;
    assert w * ((i + 1) as real / m) - w * (i as real / m) == w * (1.0 / m);
    assert w * (1.0 / m) * m == w;
  }
}
