/** The records of one supply-chain snapshot, and the column aggregates the
    classifier and the summary compute over them. */
module SupplyData {
  import opened Wrappers

  /** One day of the production plan. `reason` is None for a missing cell. */
  datatype ProductionRecord = ProductionRecord(
    date: string,
    planned: int,
    actual: int,
    variance: int,
    reason: Option<string>)

  /** Load and output of one department; `utilization` is a whole percentage
      that nothing clamps to 0..100. */
  datatype CapacityRecord = CapacityRecord(
    department: string,
    capacity: int,
    plannedLoad: int,
    actualProd: int,
    utilization: int,
    monthToDate: int)

  /** Material availability of one order. The status text is supplied on its
      own; nothing ties it to the two flags. */
  datatype MrpOrder = MrpOrder(order: string, ordered: bool, available: bool, status: string)

  /** A count of purchase orders and their amount in millions. */
  datatype Bucket = Bucket(count: int, amount: real)

  datatype Procurement = Procurement(issued: Bucket, received: Bucket, pending: Bucket)

  datatype ProformaInvoices = ProformaInvoices(total: int, received: int, approved: int, pending: int)
  datatype Payments = Payments(done: int, pending: int, total: int)
  datatype MonthCount = MonthCount(month: string, shipments: int)
  datatype ImportStatus = ImportStatus(invoices: ProformaInvoices, payments: Payments, shipments: seq<MonthCount>)

  /** Finished-goods stock in pairs, per brand, with the recorded total. */
  datatype FgStock = FgStock(elten: int, bata: int, sStep: int, total: int)
  /** Goods-received notes. */
  datatype GoodsReceived = GoodsReceived(total: int, done: int, pending: int)
  datatype Warehouse = Warehouse(stock: FgStock, notes: GoodsReceived)

  /** The six data domains read by one render of the dashboard. */
  datatype Snapshot = Snapshot(
    production: seq<ProductionRecord>,
    capacity: seq<CapacityRecord>,
    mrp: seq<MrpOrder>,
    procurement: Procurement,
    imports: ImportStatus,
    warehouse: Warehouse)

  // ---------------------------------------------------------------------------
  // Column aggregates. Each is defined on the last row so that a loop running
  // front to back keeps `aggregate(rows[..i])` as its invariant.

  function TotalVariance(rows: seq<ProductionRecord>): int
  {
    if rows == [] then 0 else TotalVariance(rows[..|rows| - 1]) + rows[|rows| - 1].variance
  }

  function TotalPlanned(rows: seq<ProductionRecord>): int
  {
    if rows == [] then 0 else TotalPlanned(rows[..|rows| - 1]) + rows[|rows| - 1].planned
  }

  function TotalActual(rows: seq<ProductionRecord>): int
  {
    if rows == [] then 0 else TotalActual(rows[..|rows| - 1]) + rows[|rows| - 1].actual
  }

  function TotalUtilization(rows: seq<CapacityRecord>): int
  {
    if rows == [] then 0 else TotalUtilization(rows[..|rows| - 1]) + rows[|rows| - 1].utilization
  }

  /** The number of elements of `s` that satisfy `p` (the length of the rows a
      boolean mask selects). */
  function CountWhere<T>(s: seq<T>, p: T -> bool): (n: nat)
    ensures n <= |s|
  {
    if s == [] then 0
    else CountWhere(s[..|s| - 1], p) + (if p(s[|s| - 1]) then 1 else 0)
  }

  /** The positions of the elements of `s` that satisfy `p`. */
  ghost function IndicesWhere<T>(s: seq<T>, p: T -> bool): set<int>
  {
    set i | 0 <= i < |s| && p(s[i])
  }

  /** Counting matches is the same as measuring the set of matching positions. */
  lemma {:induction false} CountWhereIsIndexCount<T>(s: seq<T>, p: T -> bool)
    ensures CountWhere(s, p) == |IndicesWhere(s, p)|
  {
    if s != [] {
      var init := s[..|s| - 1];
      CountWhereIsIndexCount(init, p);
      var last := |s| - 1;
      if p(s[last]) {
        assert IndicesWhere(s, p) == IndicesWhere(init, p) + {last};
      } else {
        assert IndicesWhere(s, p) == IndicesWhere(init, p);
      }
    }
  }

  /** Some element matches exactly when the count is positive. */
  lemma {:induction false} CountWherePositive<T>(s: seq<T>, p: T -> bool)
    ensures CountWhere(s, p) > 0 <==> exists i :: 0 <= i < |s| && p(s[i])
  {
    if s != [] {
      var init := s[..|s| - 1];
      CountWherePositive(init, p);
      if CountWhere(init, p) > 0 {
        var i :| 0 <= i < |init| && p(init[i]);
        assert p(s[i]);
      }
      if exists i :: 0 <= i < |s| && p(s[i]) {
        var i :| 0 <= i < |s| && p(s[i]);
        if i < |init| {
          assert p(init[i]);
        }
      }
    }
  }

  /** Counting distributes over concatenation. */
  lemma {:induction false} CountWhereAppend<T>(a: seq<T>, b: seq<T>, p: T -> bool)
    ensures CountWhere(a + b, p) == CountWhere(a, p) + CountWhere(b, p)
    decreases |b|
  {
    if b != [] {
      var init := b[..|b| - 1];
      assert (a + b)[..|a + b| - 1] == a + init;
      CountWhereAppend(a, init, p);
    } else {
      assert a + b == a;
    }
  }

  /** Summing variances distributes over concatenation. */
  lemma {:induction false} TotalVarianceAppend(a: seq<ProductionRecord>, b: seq<ProductionRecord>)
    ensures TotalVariance(a + b) == TotalVariance(a) + TotalVariance(b)
    decreases |b|
  {
    if b != [] {
      var init := b[..|b| - 1];
      assert (a + b)[..|a + b| - 1] == a + init;
      TotalVarianceAppend(a, init);
    } else {
      assert a + b == a;
    }
  }

  // ---------------------------------------------------------------------------
  // Invariants a well-formed snapshot keeps. The dashboard does not check them;
  // they document the hardcoded data and feed the lemmas that rely on them.

  /** Every row records its variance as actual minus planned output. */
  ghost predicate VarianceConsistent(rows: seq<ProductionRecord>)
  {
    forall i :: 0 <= i < |rows| ==> rows[i].variance == rows[i].actual - rows[i].planned
  }

  ghost predicate WellFormed(s: Snapshot)
  {
    && VarianceConsistent(s.production)
    && (forall i :: 0 <= i < |s.production| ==> s.production[i].planned >= 0 && s.production[i].actual >= 0)
    && (forall i :: 0 <= i < |s.capacity| ==> s.capacity[i].capacity > 0)
    && (forall i, j :: 0 <= i < j < |s.capacity| ==> s.capacity[i].department != s.capacity[j].department)
    && (forall i, j :: 0 <= i < j < |s.mrp| ==> s.mrp[i].order != s.mrp[j].order)
    && s.warehouse.stock.total == s.warehouse.stock.elten + s.warehouse.stock.bata + s.warehouse.stock.sStep
  }

  /** With consistent rows, the total variance is total output minus total plan. */
  lemma {:induction false} VarianceIsActualMinusPlanned(rows: seq<ProductionRecord>)
    requires VarianceConsistent(rows)
    ensures TotalVariance(rows) == TotalActual(rows) - TotalPlanned(rows)
  {
    if rows != [] {
      var init := rows[..|rows| - 1];
      assert VarianceConsistent(init) by {
        forall i | 0 <= i < |init|
          ensures init[i].variance == init[i].actual - init[i].planned
        {
          assert init[i] == rows[i];
        }
      }
      VarianceIsActualMinusPlanned(init);
    }
  }
}
