/** The savings the advisor promises, against the savings the impact measurement reports. */
module AdvisorEstimates {
  import opened Options
  import opened Rounding
  import opened Physics
  import opened Advisor
  import opened AdvisorConvergence
  import SetpointWrites
  import Workflow

  /** The reduction is between 0 and 12 percent, and positive exactly above the benchmark. */
  lemma ReductionInRange(u: UnitState, best: UnitState)
    ensures 0.0 <= SecReductionPct(u, best) <= 12.0
    ensures SecReductionPct(u, best) > 0.0 <==> u.intensity > best.intensity
  {
    var gap, scale := Larger(0.0, u.intensity - best.intensity), Larger(u.intensity, 1.0);
    QuotientSign(gap, scale);
  }

  lemma QuotientSign(gap: real, scale: real)
    requires gap >= 0.0 && scale >= 1.0
    ensures gap / scale * 100.0 >= 0.0
    ensures gap / scale * 100.0 > 0.0 <==> gap > 0.0
  {
    if gap > 0.0 { assert gap / scale > 0.0; }
  }

  /** The promised saving is the energy of the gap, with the gap capped at 12% of the intensity. */
  lemma SavingIsCappedGap(u: UnitState, best: UnitState)
    requires u.intensity >= 1.0
    ensures EnergySaving(u, SecReductionPct(u, best))
            == Smaller(0.12 * u.intensity, Larger(0.0, u.intensity - best.intensity)) * u.feed * 11.63
  {
    var gap, e := Larger(0.0, u.intensity - best.intensity), u.intensity;
    CappedProduct(e, gap);
    var sec := SecReductionPct(u, best);
    assert e * (sec / 100.0) == Smaller(0.12 * e, gap);
    Regroup(e, u.feed, sec / 100.0);
  }

  lemma CappedProduct(e: real, gap: real)
    requires e >= 1.0 && gap >= 0.0
    ensures e * (Smaller(12.0, gap / e * 100.0) / 100.0) == Smaller(0.12 * e, gap)
  {
    assert gap / e * e == gap;
    var q := gap / e;
    if 12.0 < q * 100.0 {
      assert q > 0.12;
      assert (q - 0.12) * e > 0.0;
    } else {
      assert (0.12 - q) * e >= 0.0;
      assert e * (q * 100.0 / 100.0) == q * e;
    }
  }

  lemma Regroup(e: real, feed: real, f: real)
    ensures e * feed * 11.63 * f == (e * f) * feed * 11.63
  {
    assert e * feed * 11.63 * f == e * feed * (11.63 * f);
    assert e * feed * (11.63 * f) == (e * feed * f) * 11.63;
    assert e * feed * f == e * (feed * f) == e * f * feed;
  }

  // ----- the promise against the measurement --------------------------------------------------

  /** The setpoints as a recommendation stores them. */
  function Stored(p: Setpoints): seq<SetpointWrites.Setpoint> {
    [SetpointWrites.Setpoint("reactor_temp_c", p.temp), SetpointWrites.Setpoint("feed_flow_tonh", p.feed),
     SetpointWrites.Setpoint("fuel_gas_flow_km3h", p.fuel), SetpointWrites.Setpoint("steam_flow_tonh", p.steam),
     SetpointWrites.Setpoint("electricity_power_mw", p.power)]
  }

  /** The impact is measured at the feed that was proposed. */
  lemma MeasuredAtProposedFeed(p: Setpoints)
    requires p.feed != 0.0
    ensures Workflow.FeedOf(Stored(p)) == p.feed
  {
    var s := Stored(p);
    SkipsField(s, 4);
    SkipsField(s[..4], 3);
    SkipsField(s[..3], 2);
    assert s[..4][..3] == s[..3] && s[..3][..2] == s[..2];
  }

  lemma {:induction false} SkipsField(p: seq<SetpointWrites.Setpoint>, k: nat)
    requires |p| == k + 1 && p[k].field != "feed_flow_tonh"
    ensures Workflow.FeedOf(p) == Workflow.FeedOf(p[..k])
  {
  }

  /** The promise, and the saving measured once the unit is down to the benchmark's intensity under
      the setpoints `p`, both before rounding. */
  function Promised(u: UnitState, best: UnitState): real { EnergySaving(u, SecReductionPct(u, best)) }

  function Measured(u: UnitState, best: UnitState, p: Setpoints): real {
    var feed := Workflow.FeedOf(Stored(p));
    Workflow.EnergyKwh(u.intensity, feed) - Workflow.EnergyKwh(best.intensity, feed)
  }

  function Gap(u: UnitState, best: UnitState): real { u.intensity - best.intensity }

  lemma MeasuredIsGap(u: UnitState, best: UnitState, p: Setpoints)
    requires p.feed != 0.0
    ensures Measured(u, best, p) == Gap(u, best) * p.feed * 11.63
  {
    MeasuredAtProposedFeed(p);
    Spread(u.intensity, best.intensity, p.feed);
  }

  lemma Spread(a: real, b: real, feed: real)
    ensures (a - b) * feed * 11.63 == Workflow.EnergyKwh(a, feed) - Workflow.EnergyKwh(b, feed)
  {
    assert (a - b) * feed == a * feed - b * feed;
  }

  /** Within the cap, what is measured is the promise scaled from the current feed to the proposed
      one. */
  lemma MeasuredScalesPromise(u: UnitState, best: UnitState, p: Setpoints)
    requires u.intensity >= 1.0 && 0.0 <= Gap(u, best) <= 0.12 * u.intensity && p.feed > 0.0
    ensures Measured(u, best, p) * u.feed == Promised(u, best) * p.feed
  {
    MeasuredIsGap(u, best, p);
    PromisedIsCapped(u, best);
    SwapFeeds(Gap(u, best), u.feed, p.feed, Measured(u, best, p), Promised(u, best));
  }

  function Capped(e: real, gap: real): real { Smaller(0.12 * e, Larger(0.0, gap)) }

  lemma PromisedIsCapped(u: UnitState, best: UnitState)
    requires u.intensity >= 1.0
    ensures Promised(u, best) == Capped(u.intensity, Gap(u, best)) * u.feed * 11.63
  {
    SavingIsCappedGap(u, best);
  }

  lemma SwapFeeds(g: real, f: real, f': real, measured: real, promised: real)
    requires measured == g * f' * 11.63 && promised == g * f * 11.63
    ensures measured * f == promised * f'
  {
    assert g * f' * 11.63 * f == (g * f') * f * 11.63;
    assert g * f * 11.63 * f' == (g * f) * f' * 11.63;
    assert (g * f') * f == g * (f' * f) == g * (f * f') == (g * f) * f';
  }

  /** When `measured` is `promised`, for an intensity `e` and a gap `g`, measured at feed `f'` and
      promised at feed `f`. */
  predicate Kept(e: real, g: real, f: real, f': real) {
    || g == 0.0
    || (0.0 < g <= 0.12 * e && f' == f)
    || (g > 0.12 * e && 0.12 * e * f == g * f')
  }

  lemma KeptIff(e: real, g: real, f: real, f': real, measured: real, promised: real)
    requires e >= 1.0 && f' > 0.0
    requires measured == g * f' * 11.63 && promised == Capped(e, g) * f * 11.63
    ensures measured == promised <==> Kept(e, g, f, f')
  {
    if g < 0.0 {
      Negative(g, f');
    } else if 0.0 < g <= 0.12 * e {
      SameProduct(g, f', f);
    }
  }

  lemma Negative(g: real, f: real)
    requires g < 0.0 && f > 0.0
    ensures g * f < 0.0
  {
  }

  lemma SameProduct(g: real, f: real, f': real)
    requires g > 0.0
    ensures g * f == g * f' <==> f == f'
  {
    if g * f == g * f' { assert g * (f - f') == 0.0; }
  }

  /** The promise is kept exactly when there is no gap, or the gap is within the cap and the advice
      leaves the feed alone, or the cap and the change of feed happen to cancel out. */
  lemma PromiseKeptIff(u: UnitState, best: UnitState, p: Setpoints)
    requires u.intensity >= 1.0 && p.feed > 0.0
    ensures Measured(u, best, p) == Promised(u, best) <==> Kept(u.intensity, Gap(u, best), u.feed, p.feed)
  {
    MeasuredIsGap(u, best, p);
    PromisedIsCapped(u, best);
    KeptIff(u.intensity, Gap(u, best), u.feed, p.feed, Measured(u, best, p), Promised(u, best));
  }

  /** The advice will leave the feed alone. */
  predicate StaysFed(u: UnitState, best: UnitState) {
    u.feed == 120.0 || (u.feed >= best.feed - 1.0 && u.intensity <= 650.0)
  }

  /** Inside the envelope that can be read off before the advice: the promise is kept exactly when
      there is no gap, or one within the cap and the unit is fully fed already, or near the
      benchmark's feed at an intensity of at most 650. */
  lemma PromiseKeptInside(u: UnitState, best: UnitState)
    requires GridPoint(u) && GridPoint(best) && InEnvelope(u) && InEnvelope(best) && u.intensity >= 1.0
    ensures Measured(u, best, Proposal(u, best)) == Promised(u, best)
            <==> Gap(u, best) == 0.0 || (0.0 < Gap(u, best) <= 0.12 * u.intensity && StaysFed(u, best))
  {
    ProposalInEnvelope(u, best);
    PromiseKeptIff(u, best, Proposal(u, best));
    FeedUnchangedIff(u, best);
    KeptInside(u.intensity, Gap(u, best), u.feed, Proposal(u, best).feed);
  }

  /** With no less feed than before, the cap never cancels out. */
  lemma KeptInside(e: real, g: real, f: real, f': real)
    requires e >= 1.0 && 0.0 < f <= f'
    ensures Kept(e, g, f, f') <==> g == 0.0 || (0.0 < g <= 0.12 * e && f' == f)
  {
    if g > 0.12 * e { LargerProduct(0.12 * e, g, f, f'); }
  }

  lemma FeedUnchangedIff(u: UnitState, best: UnitState)
    requires GridPoint(u) && GridPoint(best) && InEnvelope(u) && InEnvelope(best)
    ensures Proposal(u, best).feed >= u.feed
    ensures Proposal(u, best).feed == u.feed <==> StaysFed(u, best)
  {
    FeedOnGrid(u, best);
  }

  lemma LargerProduct(a: real, b: real, f: real, f': real)
    requires 0.0 < a < b && 0.0 < f <= f'
    ensures a * f < b * f'
  {
    assert a * f < b * f;
    assert b * f <= b * f';
  }

  /** The rounded figures agree whenever the unrounded ones do. */
  lemma PromiseKept(u: UnitState, best: UnitState, gap: real)
    requires Measured(u, best, Proposal(u, best)) == Promised(u, best)
    ensures AdviceBody(u, best, gap).energySaving
            == Workflow.Saving(u.intensity, best.intensity, Workflow.FeedOf(Stored(AdviceBody(u, best, gap).proposed)))
  {
    assert AdviceBody(u, best, gap).energySaving == Round2(Promised(u, best));
  }

  /** A unit ten above its benchmark's intensity is promised 11630 kWh/h, told to raise its feed
      from 100 to 105, and measured to save 12211.5. */
  lemma PromiseMissed() returns (u: UnitState, best: UnitState)
    ensures GridPoint(u) && GridPoint(best) && InEnvelope(u) && InEnvelope(best)
    ensures u.intensity == 760.0 && best.intensity == 750.0
    ensures forall gap :: AdviceBody(u, best, gap).energySaving == 11630.0
    ensures Workflow.Saving(u.intensity, best.intensity, Workflow.FeedOf(Stored(Proposal(u, best)))) == 12211.5
  {
    u := UnitState("pta", 15.0, 100.0, 30.0, 100.0, 400.0, 70.0, 760.0, None);
    best := UnitState("olefin", 15.0, 100.0, 30.0, 100.0, 400.0, 80.0, 750.0, None);
    ProposalInEnvelope(u, best);
    FeedOnGrid(u, best);
    TenAbove(u, best, Proposal(u, best));
  }

  lemma TenAbove(u: UnitState, best: UnitState, p: Setpoints)
    requires u.intensity == 760.0 && best.intensity == 750.0 && u.feed == 100.0 && p.feed == 105.0
    ensures Round2(Promised(u, best)) == 11630.0
    ensures Workflow.Saving(u.intensity, best.intensity, Workflow.FeedOf(Stored(p))) == 12211.5
  {
    PromisedIsCapped(u, best);
    MeasuredIsGap(u, best, p);
    assert OnGrid(11630.0) && OnGrid(12211.5);
    Round2OnGrid(11630.0);
    Round2OnGrid(12211.5);
  }
}
