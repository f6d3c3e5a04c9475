/** Counting events that keep their distance. */
module Spacing {

  /** Each value is at least `gap` above every one before it. */
  ghost predicate Spaced(s: seq<int>, gap: int) {
    forall i, j :: 0 <= i < j < |s| ==> s[i] + gap <= s[j]
  }

  ghost predicate Within(s: seq<int>, from: int, span: int) {
    forall i :: 0 <= i < |s| ==> from <= s[i] <= from + span
  }

  lemma {:induction false} SpacedSpan(s: seq<int>, gap: nat)
    requires Spaced(s, gap) && |s| > 0
    ensures (|s| - 1) * gap <= s[|s| - 1] - s[0]
  {
    var n := |s|;
    if n > 1 {
      SpacedSpan(s[..n - 1], gap);
      assert (n - 1) * gap == (n - 2) * gap + gap;
    }
  }

  /** A span of length `span` holds at most span / gap + 1 of them. */
  lemma SpacedCount(s: seq<int>, gap: nat, from: int, span: nat)
    requires gap > 0 && Spaced(s, gap) && Within(s, from, span)
    ensures |s| <= span / gap + 1
  {
    if |s| > 0 {
      SpacedSpan(s, gap);
      Quotient(|s| - 1, gap, span);
    }
  }

  lemma Quotient(n: nat, gap: nat, span: nat)
    requires gap > 0 && n * gap <= span
    ensures n <= span / gap
  {
    var q := span / gap;
    assert span < q * gap + gap;
    if q < n { MulMonotone(q + 1, n, gap); }
  }

  lemma MulMonotone(a: int, b: int, gap: nat)
    requires a <= b
    ensures a * gap <= b * gap
  {
  }
}
