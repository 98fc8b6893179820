/** What each rule of the classifier promises about its output, stated against
    the snapshot rather than against the rule's own code. */
module ClassifierProperties {
  import opened SupplyData
  import opened Classifier

  // ---------------------------------------------------------------------------
  // Production rules

  /** A shortfall issue is raised exactly when the summed variance is below
      -3000 (at -3000 there is none); there is at most one, it comes first and
      it quotes the absolute total. */
  lemma ShortfallRule(s: Snapshot)
    requires Classify(s).Success?
    ensures var critical := Classify(s).value.critical;
      && ((exists i :: 0 <= i < |critical| && critical[i].ProductionShortfall?)
          <==> TotalVariance(s.production) < -3000)
      && (TotalVariance(s.production) < -3000 ==>
            critical[0] == ProductionShortfall(Abs(TotalVariance(s.production))))
      && (forall i :: 0 <= i < |critical| && critical[i].ProductionShortfall? ==> i == 0)
  {
    var critical := Classify(s).value.critical;
    var short := ShortfallIssues(s.production);
    var tail := FeedingIssueList(s.production) + CapacityCriticals(s.capacity);
    assert critical == short + tail;
    assert forall i :: |short| <= i < |critical| ==> critical[i] == tail[i - |short|];
    assert forall i :: 0 <= i < |tail| ==> !tail[i].ProductionShortfall?;
    assert forall i :: |short| <= i < |critical| ==> !critical[i].ProductionShortfall?;
    if TotalVariance(s.production) < -3000 {
      assert critical[0] == ProductionShortfall(Abs(TotalVariance(s.production)));
    } else {
      assert short == [];
    }
  }

  /** A feeding issue is raised exactly when at least three production days give
      a reason containing "FEEDING ISSUE"; there is at most one, it comes right
      after the shortfall issue (or first when there is none) and it quotes how
      many days match. */
  lemma FeedingRule(s: Snapshot)
    requires Classify(s).Success?
    ensures var critical := Classify(s).value.critical;
      var days := |IndicesWhere(s.production, IsFeedingDay)|;
      && ((exists i :: 0 <= i < |critical| && critical[i].FeedingIssues?) <==> days >= 3)
      && (forall i :: 0 <= i < |critical| && critical[i].FeedingIssues? ==>
            && critical[i].days == days
            && i == (if TotalVariance(s.production) < -3000 then 1 else 0))
  {
    CountWhereIsIndexCount(s.production, IsFeedingDay);
    var critical := Classify(s).value.critical;
    var short := ShortfallIssues(s.production);
    var feeding := FeedingIssueList(s.production);
    var capacity := CapacityCriticals(s.capacity);
    assert critical == short + feeding + capacity;
    assert forall i :: 0 <= i < |short| ==> critical[i] == short[i];
    assert forall i :: |short| + |feeding| <= i < |critical| ==>
      critical[i] == capacity[i - |short| - |feeding|];
    if FeedingDays(s.production) >= 3 {
      assert critical[|short|] == feeding[0];
    }
  }

  // ---------------------------------------------------------------------------
  // Capacity rule

  /** A department gets a critical issue exactly when its utilization is under
      20, quoting its name and utilization. */
  lemma {:induction false} CapacityCriticalsMembers(rows: seq<CapacityRecord>, x: Issue)
    ensures x in CapacityCriticals(rows) <==>
      exists i :: 0 <= i < |rows| && IsCriticallyLoaded(rows[i])
        && x == CapacityCritical(rows[i].department, rows[i].utilization)
  {
    if rows != [] {
      var init := rows[..|rows| - 1];
      CapacityCriticalsMembers(init, x);
      if (exists i :: 0 <= i < |init| && IsCriticallyLoaded(init[i])
            && x == CapacityCritical(init[i].department, init[i].utilization)) {
        var i :| 0 <= i < |init| && IsCriticallyLoaded(init[i])
          && x == CapacityCritical(init[i].department, init[i].utilization);
        assert rows[i] == init[i];
      }
      if (exists i :: 0 <= i < |rows| && IsCriticallyLoaded(rows[i])
            && x == CapacityCritical(rows[i].department, rows[i].utilization)) {
        var i :| 0 <= i < |rows| && IsCriticallyLoaded(rows[i])
          && x == CapacityCritical(rows[i].department, rows[i].utilization);
        if i < |init| {
          assert rows[i] == init[i];
        }
      }
    }
  }

  /** A department gets a high issue exactly when its utilization is at least 20
      and under 40, quoting its name and utilization. */
  lemma {:induction false} CapacityHighsMembers(rows: seq<CapacityRecord>, x: Issue)
    ensures x in CapacityHighs(rows) <==>
      exists i :: 0 <= i < |rows| && IsUnderused(rows[i])
        && x == CapacityUnderused(rows[i].department, rows[i].utilization)
  {
    if rows != [] {
      var init := rows[..|rows| - 1];
      CapacityHighsMembers(init, x);
      if (exists i :: 0 <= i < |init| && IsUnderused(init[i])
            && x == CapacityUnderused(init[i].department, init[i].utilization)) {
        var i :| 0 <= i < |init| && IsUnderused(init[i])
          && x == CapacityUnderused(init[i].department, init[i].utilization);
        assert rows[i] == init[i];
      }
      if (exists i :: 0 <= i < |rows| && IsUnderused(rows[i])
            && x == CapacityUnderused(rows[i].department, rows[i].utilization)) {
        var i :| 0 <= i < |rows| && IsUnderused(rows[i])
          && x == CapacityUnderused(rows[i].department, rows[i].utilization);
        if i < |init| {
          assert rows[i] == init[i];
        }
      }
    }
  }

  /** The issues of earlier departments come before those of later ones: the
      capacity rule maps a concatenation of tables to the concatenation of their
      issues. */
  lemma {:induction false} CapacityInDepartmentOrder(a: seq<CapacityRecord>, b: seq<CapacityRecord>)
    ensures CapacityCriticals(a + b) == CapacityCriticals(a) + CapacityCriticals(b)
    ensures CapacityHighs(a + b) == CapacityHighs(a) + CapacityHighs(b)
    decreases |b|
  {
    if b == [] {
      assert a + b == a;
    } else {
      var init := b[..|b| - 1];
      assert (a + b)[..|a + b| - 1] == a + init;
      CapacityInDepartmentOrder(a, init);
    }
  }

  /** A single department yields one issue when its utilization is under 40 and
      none otherwise; it never yields both a critical and a high issue. */
  lemma OneIssuePerDepartment(r: CapacityRecord)
    ensures |CapacityCriticals([r])| + |CapacityHighs([r])| == (if r.utilization < 40 then 1 else 0)
  {
    assert [r][..0] == [];
  }

  /** The capacity lists are as long as the number of departments in each band,
      and together no longer than the table. */
  lemma {:induction false} CapacityCounts(rows: seq<CapacityRecord>)
    ensures |CapacityCriticals(rows)| == CountWhere(rows, IsCriticallyLoaded)
    ensures |CapacityHighs(rows)| == CountWhere(rows, IsUnderused)
    ensures |CapacityCriticals(rows)| + |CapacityHighs(rows)| <= |rows|
  {
    if rows != [] {
      CapacityCounts(rows[..|rows| - 1]);
    }
  }

  /** The capacity issues of the classifier's lists are exactly those of the
      departments in the matching band. */
  lemma CapacityRule(s: Snapshot, department: string, utilization: int)
    requires Classify(s).Success?
    ensures CapacityCritical(department, utilization) in Classify(s).value.critical <==>
      exists i :: 0 <= i < |s.capacity| && s.capacity[i].utilization < 20
        && s.capacity[i].department == department && s.capacity[i].utilization == utilization
    ensures CapacityUnderused(department, utilization) in Classify(s).value.high <==>
      exists i :: 0 <= i < |s.capacity| && 20 <= s.capacity[i].utilization < 40
        && s.capacity[i].department == department && s.capacity[i].utilization == utilization
  {
    var x := CapacityCritical(department, utilization);
    var y := CapacityUnderused(department, utilization);
    CapacityCriticalsMembers(s.capacity, x);
    CapacityHighsMembers(s.capacity, y);
    var pre := ShortfallIssues(s.production) + FeedingIssueList(s.production);
    assert Classify(s).value.critical == pre + CapacityCriticals(s.capacity);
    assert x !in pre;
    assert Classify(s).value.high == CapacityHighs(s.capacity) + MrpIssues(s.mrp);
    assert y !in MrpIssues(s.mrp);
  }

  // ---------------------------------------------------------------------------
  // Material planning rule

  /** One high issue, last in the list, is raised exactly when some order has
      status "Critical"; it quotes how many orders do. */
  lemma MrpRule(s: Snapshot)
    requires Classify(s).Success?
    ensures var high := Classify(s).value.high;
      && ((exists i :: 0 <= i < |high| && high[i].MaterialUnavailable?)
          <==> exists j :: 0 <= j < |s.mrp| && s.mrp[j].status == "Critical")
      && (forall i :: 0 <= i < |high| && high[i].MaterialUnavailable? ==>
            i == |high| - 1 && high[i].orders == |IndicesWhere(s.mrp, IsCriticalOrder)|)
  {
    CountWherePositive(s.mrp, IsCriticalOrder);
    CountWhereIsIndexCount(s.mrp, IsCriticalOrder);
    var high := Classify(s).value.high;
    var capacity := CapacityHighs(s.capacity);
    var mrp := MrpIssues(s.mrp);
    assert high == capacity + mrp;
    assert forall i :: 0 <= i < |capacity| ==> high[i] == capacity[i];
    if CriticalOrders(s.mrp) > 0 {
      assert high[|capacity|] == mrp[0];
    }
  }

  // ---------------------------------------------------------------------------
  // Procurement rule

  /** Dividing by a positive number: the quotient is above 0.3 when the
      dividend is above 0.3 times the divisor. */
  lemma QuotientAbovePositive(p: real, d: real)
    requires d > 0.0
    ensures p / d > 0.3 <==> p > 0.3 * d
  {
    var q := p / d;
    assert q * d == p;
    assert q * d - 0.3 * d == (q - 0.3) * d;
  }

  /** Dividing by a negative number reverses the comparison. */
  lemma QuotientAboveNegative(p: real, d: real)
    requires d < 0.0
    ensures p / d > 0.3 <==> p < 0.3 * d
  {
    QuotientAbovePositive(-p, -d);
    assert p / d == (-p) / (-d);
  }

  /** The integer comparison decides the ratio test exactly. */
  lemma PendingRatioIsExact(pending: int, issued: int)
    requires issued != 0
    ensures PendingRatioExceeds(pending, issued) <==> (pending as real) / (issued as real) > 0.3
  {
    if issued > 0 {
      QuotientAbovePositive(pending as real, issued as real);
    } else {
      QuotientAboveNegative(pending as real, issued as real);
    }
  }

  /** The medium list holds one issue exactly when more than 30 % of issued
      purchase orders are pending (at exactly 30 % it is empty). */
  lemma ProcurementRule(s: Snapshot)
    requires Classify(s).Success?
    ensures var medium := Classify(s).value.medium;
      var p := s.procurement;
      && (medium != [] <==> (p.pending.count as real) / (p.issued.count as real) > 0.3)
      && (medium != [] ==> medium == [PurchaseOrdersPending(p.pending.count, p.issued.count)])
  {
    PendingRatioIsExact(s.procurement.pending.count, s.procurement.issued.count);
  }
}
