/** The executive summary: a report of the critical and high issues, the key
    metrics and the recommendations, as a sequence of structured lines. The
    wall-clock stamp is a parameter. */
module Summary {
  import opened Wrappers
  import opened SupplyData
  import opened Classifier

  /** The two issue sections, each headed with its number of issues. */
  datatype AlertSection = CriticalAlerts | HighPriority

  /** The two sections without a count. */
  datatype Section = KeyMetrics | Recommendations

  /** A key metric as an exact number. `None` stands for the not-a-number or
      infinite value the floating-point division yields on an empty denominator. */
  datatype Metric =
    | ProductionEfficiency(percent: Option<real>)
    | TotalProductionVariance(units: int)
    | AverageUtilization(percent: Option<real>)
    | PoCompletionRate(rate: real)
    | FgInventory(pairs: int)

  datatype Line =
    | Title
    | ReportDate(stamp: string)
    | AlertHeader(section: AlertSection, count: nat)
    | Bullet(issue: Issue)
    | SectionHeader(title: Section)
    | MetricLine(metric: Metric)
    | Recommendation(urgency: string, text: string)
    | PendingFollowUp(pendingCount: int, pendingAmount: real)

  /** The completion rate divides the received count by the issued count, which
      raises when the latter is zero. */
  datatype RenderError = CompletionRateDivisionByZero

  /** What a reader can recover from a report: its stamp and its two issue lists. */
  datatype ParsedSummary = ParsedSummary(stamp: string, critical: seq<Issue>, high: seq<Issue>)

  // ---------------------------------------------------------------------------
  // Key metrics

  /** Total output as a percentage of the total plan. */
  function Efficiency(rows: seq<ProductionRecord>): Option<real>
  {
    var planned := TotalPlanned(rows);
    if planned == 0 then None else Some((TotalActual(rows) as real) / (planned as real) * 100.0)
  }

  /** Mean utilization over the departments. */
  function MeanUtilization(rows: seq<CapacityRecord>): Option<real>
  {
    if rows == [] then None else Some((TotalUtilization(rows) as real) / (|rows| as real))
  }

  /** The five metric lines, in report order. */
  function Metrics(s: Snapshot): Result<seq<Metric>, RenderError>
  {
    var issued := s.procurement.issued.count;
    if issued == 0 then Failure(CompletionRateDivisionByZero)
    else
      Success([
        ProductionEfficiency(Efficiency(s.production)),
        TotalProductionVariance(TotalVariance(s.production)),
        AverageUtilization(MeanUtilization(s.capacity)),
        PoCompletionRate((s.procurement.received.count as real) / (issued as real) * 100.0),
        FgInventory(s.warehouse.stock.total)])
  }

  /** For rows that record variance as actual minus plan, output falls short of
      the plan (efficiency under 100 %) exactly when the total variance is
      negative. */
  lemma EfficiencyBelowPlan(rows: seq<ProductionRecord>)
    requires VarianceConsistent(rows)
    requires TotalPlanned(rows) > 0
    ensures Efficiency(rows).Some?
    ensures Efficiency(rows).value < 100.0 <==> TotalVariance(rows) < 0
  {
    VarianceIsActualMinusPlanned(rows);
    var a := TotalActual(rows) as real;
    var p := TotalPlanned(rows) as real;
    var q := a / p;
    assert q * p == a;
    assert q * p - p == (q - 1.0) * p;
  }

  // ---------------------------------------------------------------------------
  // Rendering

  function Bullets(issues: seq<Issue>): seq<Line>
  {
    seq(|issues|, i requires 0 <= i < |issues| => Bullet(issues[i]))
  }

  function RecommendationLines(s: Snapshot): seq<Line>
  {
    [ Recommendation("URGENT", "Address feeding issues from cutting department"),
      Recommendation("HIGH", "Increase stitching and lasting capacity utilization"),
      Recommendation("MEDIUM", "Expedite pending material orders (679, 681)"),
      PendingFollowUp(s.procurement.pending.count, s.procurement.pending.amount) ]
  }

  /** The report for one snapshot and its issue lists. The medium issues are
      accepted but not reported. */
  function Render(stamp: string, s: Snapshot, critical: seq<Issue>, high: seq<Issue>, medium: seq<Issue>)
    : (r: Result<seq<Line>, RenderError>)
    ensures r.Success? <==> s.procurement.issued.count != 0
    ensures r.Success? ==>
      && |r.value| == |critical| + |high| + 15
      && r.value[2] == AlertHeader(CriticalAlerts, |critical|)
      && r.value[3 + |critical|] == AlertHeader(HighPriority, |high|)
  {
    match Metrics(s)
    case Failure(e) => Failure(e)
    case Success(metrics) =>
      Success(
        [Title, ReportDate(stamp), AlertHeader(CriticalAlerts, |critical|)]
        + Bullets(critical)
        + [AlertHeader(HighPriority, |high|)]
        + Bullets(high)
        + [SectionHeader(KeyMetrics)]
        + seq(|metrics|, i requires 0 <= i < |metrics| => MetricLine(metrics[i]))
        + [SectionHeader(Recommendations)]
        + RecommendationLines(s))
  }

  // ---------------------------------------------------------------------------
  // Reading a report back

  /** Reads `n` bullet lines off the front of `lines`, returning their issues
      and the lines after them. */
  function TakeBullets(lines: seq<Line>, n: nat): Option<(seq<Issue>, seq<Line>)>
    decreases n
  {
    if n == 0 then Some(([], lines))
    else if lines == [] || !lines[0].Bullet? then None
    else
      match TakeBullets(lines[1..], n - 1)
      case None => None
      case Some((issues, rest)) => Some(([lines[0].issue] + issues, rest))
  }

  /** Recovers the stamp and the two issue lists, trusting each header's count. */
  function Parse(lines: seq<Line>): Option<ParsedSummary>
  {
    if |lines| < 3 || lines[0] != Title || !lines[1].ReportDate?
      || !lines[2].AlertHeader? || lines[2].section != CriticalAlerts then None
    else
      match TakeBullets(lines[3..], lines[2].count)
      case None => None
      case Some((critical, rest)) =>
        if rest == [] || !rest[0].AlertHeader? || rest[0].section != HighPriority then None
        else
          match TakeBullets(rest[1..], rest[0].count)
          case None => None
          case Some((high, _)) => Some(ParsedSummary(lines[1].stamp, critical, high))
  }

  lemma {:induction false} TakeBulletsOfBullets(issues: seq<Issue>, rest: seq<Line>)
    ensures TakeBullets(Bullets(issues) + rest, |issues|) == Some((issues, rest))
    decreases |issues|
  {
    if issues != [] {
      var lines := Bullets(issues) + rest;
      assert lines[0] == Bullet(issues[0]);
      assert lines[1..] == Bullets(issues[1..]) + rest;
      TakeBulletsOfBullets(issues[1..], rest);
      assert [issues[0]] + issues[1..] == issues;
    } else {
      assert Bullets(issues) + rest == rest;
    }
  }

  /** The report lists each critical and each high issue once, in order, under a
      header that states how many there are: reading it back recovers both lists
      and the stamp. */
  lemma ParseRender(stamp: string, s: Snapshot, critical: seq<Issue>, high: seq<Issue>, medium: seq<Issue>)
    requires Render(stamp, s, critical, high, medium).Success?
    ensures Parse(Render(stamp, s, critical, high, medium).value) == Some(ParsedSummary(stamp, critical, high))
  {
    var lines := Render(stamp, s, critical, high, medium).value;
    var metrics := Metrics(s).value;
    var tail := [SectionHeader(KeyMetrics)]
      + seq(|metrics|, i requires 0 <= i < |metrics| => MetricLine(metrics[i]))
      + [SectionHeader(Recommendations)]
      + RecommendationLines(s);
    var afterCritical := [AlertHeader(HighPriority, |high|)] + Bullets(high) + tail;
    assert lines[3..] == Bullets(critical) + afterCritical;
    TakeBulletsOfBullets(critical, afterCritical);
    assert afterCritical[1..] == Bullets(high) + tail;
    TakeBulletsOfBullets(high, tail);
  }

  /** A bullet line appears in the report exactly for the critical and the high
      issues; a medium issue that is neither never appears. */
  lemma BulletsListed(stamp: string, s: Snapshot, critical: seq<Issue>, high: seq<Issue>, medium: seq<Issue>, x: Issue)
    requires Render(stamp, s, critical, high, medium).Success?
    ensures Bullet(x) in Render(stamp, s, critical, high, medium).value <==> x in critical || x in high
  {
    var metrics := Metrics(s).value;
    var metricLines := seq(|metrics|, i requires 0 <= i < |metrics| => MetricLine(metrics[i]));
    assert Bullet(x) !in metricLines;
    assert Bullet(x) !in RecommendationLines(s);
    assert Bullet(x) in Bullets(critical) <==> x in critical by {
      if x in critical {
        var i :| 0 <= i < |critical| && critical[i] == x;
        assert Bullets(critical)[i] == Bullet(x);
      }
    }
    assert Bullet(x) in Bullets(high) <==> x in high by {
      if x in high {
        var i :| 0 <= i < |high| && high[i] == x;
        assert Bullets(high)[i] == Bullet(x);
      }
    }
  }
}
