/** The snapshot the dashboard renders, and what the classifier and the summary
    make of it. */
module Example {
  import opened Wrappers
  import opened Text
  import opened SupplyData
  import opened Classifier
  import opened ClassifierProperties
  import opened Summary

  const Production: seq<ProductionRecord> := [
    ProductionRecord("10-Jun-2025", 800, 936, 136, Some("2 Lines loading")),
    ProductionRecord("11-Jun-2025", 800, 1180, 380, Some("2 Lines loading/material issue")),
    ProductionRecord("12-Jun-2025", 800, 650, -150, Some("Loading end/feeding issue")),
    ProductionRecord("13-Jun-2025", 2000, 0, -2000, Some("FEEDING ISSUE FROM CUTTING")),
    ProductionRecord("14-Jun-2025", 2000, 0, -2000, Some("FEEDING ISSUE FROM CUTTING")),
    ProductionRecord("16-Jun-2025", 2000, 393, -1607, Some("FEEDING ISSUE FROM CUTTING"))
  ]

  const Capacity: seq<CapacityRecord> := [
    CapacityRecord("Cutting", 3000, 1823, 1800, 60, 8763),
    CapacityRecord("Stitching", 2788, 0, 393, 14, 7974),
    CapacityRecord("Lasting", 3462, 0, 0, 0, 12100)
  ]

  const Mrp: seq<MrpOrder> := [
    MrpOrder("673", true, true, "Complete"),
    MrpOrder("675", true, true, "Complete"),
    MrpOrder("677", true, true, "Complete"),
    MrpOrder("679", false, false, "Critical"),
    MrpOrder("680", true, false, "Pending"),
    MrpOrder("681", false, false, "Critical")
  ]

  const Dashboard: Snapshot := Snapshot(
    Production,
    Capacity,
    Mrp,
    Procurement(Bucket(92, 114.77), Bucket(56, 96.84), Bucket(36, 17.93)),
    ImportStatus(
      ProformaInvoices(12, 12, 12, 0),
      Payments(3, 4, 7),
      [MonthCount("May", 1), MonthCount("June", 8), MonthCount("July", 1)]),
    Warehouse(FgStock(1090, 0, 1500, 2590), GoodsReceived(4, 4, 0)))

  /** The hardcoded data keeps the snapshot invariants: each variance is actual
      minus plan, departments and orders are distinct, the stock total adds up. */
  lemma DashboardWellFormed()
    ensures WellFormed(Dashboard)
  {
  }

  /** Column totals of the production table: the summed variance is -5241. */
  lemma DashboardTotals()
    ensures TotalVariance(Production) == -5241
    ensures TotalPlanned(Production) == 8400
    ensures TotalActual(Production) == 3159
  {
    var p := Production;
    assert p[..1][..0] == [];
    assert p[..2][..1] == p[..1];
    assert p[..3][..2] == p[..2];
    assert p[..4][..3] == p[..3];
    assert p[..5][..4] == p[..4];
    assert p[..6][..5] == p[..5];
    assert p[..6] == p;
    assert TotalVariance(p[..1]) == 136 && TotalPlanned(p[..1]) == 800 && TotalActual(p[..1]) == 936;
    assert TotalVariance(p[..2]) == 516 && TotalPlanned(p[..2]) == 1600 && TotalActual(p[..2]) == 2116;
    assert TotalVariance(p[..3]) == 366 && TotalPlanned(p[..3]) == 2400 && TotalActual(p[..3]) == 2766;
    assert TotalVariance(p[..4]) == -1634 && TotalPlanned(p[..4]) == 4400 && TotalActual(p[..4]) == 2766;
    assert TotalVariance(p[..5]) == -3634 && TotalPlanned(p[..5]) == 6400 && TotalActual(p[..5]) == 2766;
  }

  /** The reason of 12 June is in lower case and does not count. */
  lemma LowerCaseReasonIgnored()
    ensures !IsFeedingDay(Production[2])
  {
    assert Production[2].reason == Some("Loading end/feeding issue");
    assert 'F' !in "Loading end/feeding issue";
    MissingFirstCharacter("Loading end/feeding issue", FeedingPattern);
  }

  /** The reasons of 10 and 11 June do not mention feeding at all. */
  lemma LoadingReasonsIgnored()
    ensures !IsFeedingDay(Production[0]) && !IsFeedingDay(Production[1])
  {
    assert Production[0].reason == Some("2 Lines loading");
    assert Production[1].reason == Some("2 Lines loading/material issue");
    assert 'F' !in "2 Lines loading";
    assert 'F' !in "2 Lines loading/material issue";
    MissingFirstCharacter("2 Lines loading", FeedingPattern);
    MissingFirstCharacter("2 Lines loading/material issue", FeedingPattern);
  }

  /** The last three days report the feeding problem in upper case. */
  lemma UpperCaseReasonsCount()
    ensures IsFeedingDay(Production[3]) && IsFeedingDay(Production[4]) && IsFeedingDay(Production[5])
  {
    assert "FEEDING ISSUE FROM CUTTING"[..13] == FeedingPattern;
    StartsWith("FEEDING ISSUE FROM CUTTING", FeedingPattern);
  }

  /** Six rows of which only the last three match count three matches. */
  lemma CountLastThreeOfSix<T>(s: seq<T>, p: T -> bool)
    requires |s| == 6
    requires !p(s[0]) && !p(s[1]) && !p(s[2]) && p(s[3]) && p(s[4]) && p(s[5])
    ensures CountWhere(s, p) == 3
  {
    assert s[..1][..0] == [];
    assert s[..2][..1] == s[..1];
    assert s[..3][..2] == s[..2];
    assert s[..4][..3] == s[..3];
    assert s[..5][..4] == s[..4];
    assert s[..6][..5] == s[..5];
    assert s[..6] == s;
    assert CountWhere(s[..1], p) == 0;
    assert CountWhere(s[..2], p) == 0;
    assert CountWhere(s[..3], p) == 0;
    assert CountWhere(s[..4], p) == 1;
    assert CountWhere(s[..5], p) == 2;
  }

  /** Exactly three days count as feeding days. */
  lemma DashboardFeedingDays()
    ensures FeedingDays(Production) == 3
  {
    LoadingReasonsIgnored();
    LowerCaseReasonIgnored();
    UpperCaseReasonsCount();
    CountLastThreeOfSix(Production, IsFeedingDay);
  }

  /** Stitching and Lasting are critically loaded; no department is merely
      underused. */
  lemma DashboardCapacity()
    ensures CapacityCriticals(Capacity) == [CapacityCritical("Stitching", 14), CapacityCritical("Lasting", 0)]
    ensures CapacityHighs(Capacity) == []
  {
    var c := Capacity;
    assert c[..1][..0] == [];
    assert c[..2][..1] == c[..1];
    assert c[..3][..2] == c[..2];
    assert c[..3] == c;
    assert CapacityCriticals(c[..1]) == [];
    assert CapacityCriticals(c[..2]) == [CapacityCritical("Stitching", 14)];
  }

  /** Orders 679 and 681 are critical. */
  lemma DashboardCriticalOrders()
    ensures CriticalOrders(Mrp) == 2
  {
    var m := Mrp;
    assert m[..1][..0] == [];
    assert m[..2][..1] == m[..1];
    assert m[..3][..2] == m[..2];
    assert m[..4][..3] == m[..3];
    assert m[..5][..4] == m[..4];
    assert m[..6][..5] == m[..5];
    assert m[..6] == m;
    assert CountWhere(m[..1], IsCriticalOrder) == 0;
    assert CountWhere(m[..2], IsCriticalOrder) == 0;
    assert CountWhere(m[..3], IsCriticalOrder) == 0;
    assert CountWhere(m[..4], IsCriticalOrder) == 1;
    assert CountWhere(m[..5], IsCriticalOrder) == 1;
  }

  /** The classifier's output is determined by the aggregates it reads. */
  lemma ClassifyFromAggregates(s: Snapshot)
    requires TotalVariance(s.production) == -5241
    requires FeedingDays(s.production) == 3
    requires CapacityCriticals(s.capacity) == [CapacityCritical("Stitching", 14), CapacityCritical("Lasting", 0)]
    requires CapacityHighs(s.capacity) == []
    requires CriticalOrders(s.mrp) == 2
    requires s.procurement.issued.count == 92 && s.procurement.pending.count == 36
    ensures Classify(s) == Success(Issues(
      [ ProductionShortfall(5241), FeedingIssues(3),
        CapacityCritical("Stitching", 14), CapacityCritical("Lasting", 0) ],
      [ MaterialUnavailable(2) ],
      [ PurchaseOrdersPending(36, 92) ]))
  {
    assert ShortfallIssues(s.production) == [ProductionShortfall(5241)];
    assert FeedingIssueList(s.production) == [FeedingIssues(3)];
    assert MrpIssues(s.mrp) == [MaterialUnavailable(2)];
    assert ProcurementIssues(36, 92) == [PurchaseOrdersPending(36, 92)];
    var critical := [ProductionShortfall(5241)] + [FeedingIssues(3)]
      + [CapacityCritical("Stitching", 14), CapacityCritical("Lasting", 0)];
    assert critical == [ ProductionShortfall(5241), FeedingIssues(3),
      CapacityCritical("Stitching", 14), CapacityCritical("Lasting", 0) ];
    assert [] + [MaterialUnavailable(2)] == [MaterialUnavailable(2)];
  }

  /** The dashboard shows four critical issues, one high and one medium. */
  lemma DashboardIssues()
    ensures Classify(Dashboard) == Success(Issues(
      [ ProductionShortfall(5241), FeedingIssues(3),
        CapacityCritical("Stitching", 14), CapacityCritical("Lasting", 0) ],
      [ MaterialUnavailable(2) ],
      [ PurchaseOrdersPending(36, 92) ]))
  {
    DashboardTotals();
    DashboardFeedingDays();
    DashboardCapacity();
    DashboardCriticalOrders();
    ClassifyFromAggregates(Dashboard);
  }

  /** Production efficiency is 3159 / 8400, which shows as 37.6 %. */
  lemma DashboardEfficiency()
    ensures Efficiency(Production).Some?
    ensures 37.55 <= Efficiency(Production).value < 37.65
  {
    DashboardTotals();
  }

  // ---------------------------------------------------------------------------
  // The thresholds are strict.

  /** A total variance of exactly -3000 raises no shortfall; -3001 raises one for
      3001 units. */
  lemma ShortfallBoundary(s: Snapshot)
    requires Classify(s).Success?
    ensures TotalVariance(s.production) == -3000 ==>
      forall i :: 0 <= i < |Classify(s).value.critical| ==> !Classify(s).value.critical[i].ProductionShortfall?
    ensures TotalVariance(s.production) == -3001 ==>
      Classify(s).value.critical[0] == ProductionShortfall(3001)
  {
    ShortfallRule(s);
  }

  /** A pending ratio of exactly 30 % raises no medium issue; 31 % raises one. */
  lemma PendingRatioBoundary(s: Snapshot)
    requires s.procurement.issued.count == 100
    ensures s.procurement.pending.count == 30 ==> Classify(s).value.medium == []
    ensures s.procurement.pending.count == 31 ==>
      Classify(s).value.medium == [PurchaseOrdersPending(31, 100)]
  {
  }
}
