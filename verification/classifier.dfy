/** The threshold rules that turn a snapshot into critical, high and medium
    issues. */
module Classifier {
  import opened Wrappers
  import opened Text
  import opened SupplyData

  datatype Severity = Critical | High | Medium

  /** One finding of the classifier, with the figures its message quotes. */
  datatype Issue =
    | ProductionShortfall(units: nat)
    | FeedingIssues(days: nat)
    | CapacityCritical(department: string, utilization: int)
    | CapacityUnderused(department: string, utilization: int)
    | MaterialUnavailable(orders: nat)
    | PurchaseOrdersPending(pending: int, issued: int)
  {
    function Severity(): Severity
    {
      match this
      case ProductionShortfall(_) => Critical
      case FeedingIssues(_) => Critical
      case CapacityCritical(_, _) => Critical
      case CapacityUnderused(_, _) => High
      case MaterialUnavailable(_) => High
      case PurchaseOrdersPending(_, _) => Medium
    }

    /** Position of the rule that produces the issue in the order the rules run:
        production, feeding, capacity, material planning, procurement. */
    function Rule(): nat
    {
      match this
      case ProductionShortfall(_) => 0
      case FeedingIssues(_) => 1
      case CapacityCritical(_, _) => 2
      case CapacityUnderused(_, _) => 2
      case MaterialUnavailable(_) => 3
      case PurchaseOrdersPending(_, _) => 4
    }
  }

  /** The three lists the classifier returns. */
  datatype Issues = Issues(critical: seq<Issue>, high: seq<Issue>, medium: seq<Issue>)

  /** The pending ratio divides by the issued count, which raises when it is zero. */
  datatype ClassifyError = PendingRatioDivisionByZero

  const ShortfallThreshold: int := -3000
  const FeedingPattern: string := "FEEDING ISSUE"
  const FeedingDaysThreshold: nat := 3
  const CriticalUtilization: int := 20
  const LowUtilization: int := 40
  const CriticalStatus: string := "Critical"

  function Abs(x: int): nat
  {
    if x < 0 then -x else x
  }

  /** Every issue of `list` carries severity `level`. */
  ghost predicate AllOfSeverity(list: seq<Issue>, level: Severity)
  {
    forall i :: 0 <= i < |list| ==> list[i].Severity() == level
  }

  /** Issues appear in the order of the rules that raised them. */
  ghost predicate InRuleOrder(list: seq<Issue>)
  {
    forall i, j :: 0 <= i < j < |list| ==> list[i].Rule() <= list[j].Rule()
  }

  // ---------------------------------------------------------------------------
  // Row predicates

  /** A production day whose reason mentions the feeding problem. The match is
      case-sensitive and a missing reason never matches. */
  predicate IsFeedingDay(r: ProductionRecord)
  {
    r.reason.Some? && Contains(r.reason.value, FeedingPattern)
  }

  predicate IsCriticallyLoaded(r: CapacityRecord)
  {
    r.utilization < CriticalUtilization
  }

  predicate IsUnderused(r: CapacityRecord)
  {
    CriticalUtilization <= r.utilization < LowUtilization
  }

  predicate IsCriticalOrder(o: MrpOrder)
  {
    o.status == CriticalStatus
  }

  function FeedingDays(rows: seq<ProductionRecord>): nat
  {
    CountWhere(rows, IsFeedingDay)
  }

  function CriticalOrders(orders: seq<MrpOrder>): nat
  {
    CountWhere(orders, IsCriticalOrder)
  }

  /** The pending ratio `pending / issued` is above 0.3, compared exactly. */
  predicate PendingRatioExceeds(pending: int, issued: int)
    requires issued != 0
  {
    if issued > 0 then 10 * pending > 3 * issued else 10 * pending < 3 * issued
  }

  // ---------------------------------------------------------------------------
  // The rules

  function ShortfallIssues(rows: seq<ProductionRecord>): seq<Issue>
  {
    var total := TotalVariance(rows);
    if total < ShortfallThreshold then [ProductionShortfall(Abs(total))] else []
  }

  function FeedingIssueList(rows: seq<ProductionRecord>): seq<Issue>
  {
    var days := FeedingDays(rows);
    if days >= FeedingDaysThreshold then [FeedingIssues(days)] else []
  }

  /** Critical capacity issues, one per critically loaded department, in
      department order. */
  function CapacityCriticals(rows: seq<CapacityRecord>): (r: seq<Issue>)
    ensures |r| <= |rows|
    ensures forall k :: 0 <= k < |r| ==> r[k].CapacityCritical? && r[k].utilization < CriticalUtilization
  {
    if rows == [] then []
    else
      var last := rows[|rows| - 1];
      CapacityCriticals(rows[..|rows| - 1])
        + (if IsCriticallyLoaded(last) then [CapacityCritical(last.department, last.utilization)] else [])
  }

  /** High capacity issues, one per underused department, in department order. */
  function CapacityHighs(rows: seq<CapacityRecord>): (r: seq<Issue>)
    ensures |r| <= |rows|
    ensures forall k :: 0 <= k < |r| ==>
      r[k].CapacityUnderused? && CriticalUtilization <= r[k].utilization < LowUtilization
  {
    if rows == [] then []
    else
      var last := rows[|rows| - 1];
      CapacityHighs(rows[..|rows| - 1])
        + (if IsUnderused(last) then [CapacityUnderused(last.department, last.utilization)] else [])
  }

  function MrpIssues(orders: seq<MrpOrder>): seq<Issue>
  {
    var n := CriticalOrders(orders);
    if n > 0 then [MaterialUnavailable(n)] else []
  }

  function ProcurementIssues(pending: int, issued: int): seq<Issue>
    requires issued != 0
  {
    if PendingRatioExceeds(pending, issued) then [PurchaseOrdersPending(pending, issued)] else []
  }

  /** The classifier: every rule runs on the same snapshot and appends to the
      list of its severity. Among the snapshots the model represents, it fails
      only when no purchase order was issued. */
  function Classify(s: Snapshot): (r: Result<Issues, ClassifyError>)
    ensures r.Failure? <==> s.procurement.issued.count == 0
    ensures r.Success? ==>
      && |r.value.critical| <= 2 + |s.capacity|
      && |r.value.high| <= |s.capacity| + 1
      && |r.value.medium| <= 1
    ensures r.Success? ==>
      && AllOfSeverity(r.value.critical, Critical)
      && AllOfSeverity(r.value.high, High)
      && AllOfSeverity(r.value.medium, Medium)
    ensures r.Success? ==> InRuleOrder(r.value.critical) && InRuleOrder(r.value.high)
  {
    var issued := s.procurement.issued.count;
    if issued == 0 then Failure(PendingRatioDivisionByZero)
    else
      Success(Issues(
        ShortfallIssues(s.production) + FeedingIssueList(s.production) + CapacityCriticals(s.capacity),
        CapacityHighs(s.capacity) + MrpIssues(s.mrp),
        ProcurementIssues(s.procurement.pending.count, issued)))
  }

  /** Column sum of the variances, as a front-to-back pass. */
  method SumVariance(rows: seq<ProductionRecord>) returns (total: int)
    ensures total == TotalVariance(rows)
  {
    total := 0;
    var i := 0;
    while i < |rows|
      invariant 0 <= i <= |rows|
      invariant total == TotalVariance(rows[..i])
    {
      assert rows[..i + 1][..i] == rows[..i];
      total := total + rows[i].variance;
      i := i + 1;
    }
    assert rows[..|rows|] == rows;
  }

  /** Number of days whose reason mentions the feeding problem. */
  method CountFeedingDays(rows: seq<ProductionRecord>) returns (days: nat)
    ensures days == FeedingDays(rows)
  {
    days := 0;
    var i := 0;
    while i < |rows|
      invariant 0 <= i <= |rows|
      invariant days == CountWhere(rows[..i], IsFeedingDay)
    {
      assert rows[..i + 1][..i] == rows[..i];
      if IsFeedingDay(rows[i]) {
        days := days + 1;
      }
      i := i + 1;
    }
    assert rows[..|rows|] == rows;
  }

  /** One pass over the departments: each adds at most one issue, critical
      below 20 % and high below 40 %. */
  method ScanCapacity(departments: seq<CapacityRecord>) returns (critical: seq<Issue>, high: seq<Issue>)
    ensures critical == CapacityCriticals(departments)
    ensures high == CapacityHighs(departments)
  {
    critical := [];
    high := [];
    var j := 0;
    while j < |departments|
      invariant 0 <= j <= |departments|
      invariant critical == CapacityCriticals(departments[..j])
      invariant high == CapacityHighs(departments[..j])
    {
      assert departments[..j + 1][..j] == departments[..j];
      var row := departments[j];
      if row.utilization < CriticalUtilization {
        critical := critical + [CapacityCritical(row.department, row.utilization)];
      } else if row.utilization < LowUtilization {
        high := high + [CapacityUnderused(row.department, row.utilization)];
      }
      j := j + 1;
    }
    assert departments[..|departments|] == departments;
  }

  /** Number of orders whose status is "Critical". */
  method CountCriticalOrders(orders: seq<MrpOrder>) returns (count: nat)
    ensures count == CriticalOrders(orders)
  {
    count := 0;
    var k := 0;
    while k < |orders|
      invariant 0 <= k <= |orders|
      invariant count == CountWhere(orders[..k], IsCriticalOrder)
    {
      assert orders[..k + 1][..k] == orders[..k];
      if orders[k].status == CriticalStatus {
        count := count + 1;
      }
      k := k + 1;
    }
    assert orders[..|orders|] == orders;
  }

  /** The classifier as the dashboard runs it: the rules in order, appending to
      three growing lists. It computes exactly what `Classify` describes. */
  method AnalyzeCriticalIssues(data: Snapshot) returns (r: Result<Issues, ClassifyError>)
    ensures r == Classify(data)
  {
    var critical: seq<Issue> := [];
    var high: seq<Issue> := [];
    var medium: seq<Issue> := [];

    var total := SumVariance(data.production);
    if total < ShortfallThreshold {
      critical := critical + [ProductionShortfall(Abs(total))];
    }
    var days := CountFeedingDays(data.production);
    if days >= FeedingDaysThreshold {
      critical := critical + [FeedingIssues(days)];
    }
    var capacityCritical, capacityHigh := ScanCapacity(data.capacity);
    assert critical == ShortfallIssues(data.production) + FeedingIssueList(data.production);
    critical := critical + capacityCritical;
    high := high + capacityHigh;
    var count := CountCriticalOrders(data.mrp);
    if count > 0 {
      high := high + [MaterialUnavailable(count)];
    }
    assert high == CapacityHighs(data.capacity) + MrpIssues(data.mrp);

    var pending := data.procurement.pending.count;
    var issued := data.procurement.issued.count;
    if issued == 0 {
      assert Classify(data) == Failure(PendingRatioDivisionByZero);
      r := Failure(PendingRatioDivisionByZero);
      return;
    }
    if (issued > 0 && 10 * pending > 3 * issued) || (issued < 0 && 10 * pending < 3 * issued) {
      medium := medium + [PurchaseOrdersPending(pending, issued)];
    }
    assert medium == ProcurementIssues(pending, issued);
    r := Success(Issues(critical, high, medium));
  }
}
