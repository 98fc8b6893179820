# Supply-chain issue classifier: a Dafny model

The dashboard renders one in-memory snapshot of a footwear plant's supply chain.
The snapshot has six parts: production days, department capacity, MRP orders,
purchase-order counts, import status and warehouse stock. Its one piece of logic is
`analyze_critical_issues`. It applies fixed thresholds to the snapshot and returns
three ordered lists of issues: critical, high and medium. The executive summary then
lists the critical and high issues under headers that give their number. The summary
also shows five key metrics and four recommendations.

The model represents:

- the records as immutable datatypes (`SupplyData`);
- each issue as a tagged datatype carrying the figures its message quotes, instead of
  emoji text (`Classifier.Issue`);
- the classifier twice:
  - as a pure function `Classifier.Classify`;
  - as the dashboard's own front-to-back pass `Classifier.AnalyzeCriticalIssues`, which
    is proved to compute the same result;
- the summary as a sequence of structured lines (`Summary.Render`), with a reader
  (`Summary.Parse`) that recovers the two issue lists from it;
- the hardcoded snapshot as a constant (`Example.Dashboard`).

Modules, one file each:

- `wrappers.dfy` `Wrappers`: `Option` and `Result`.
- `text.dfy` `Text`: a case-sensitive substring test, and its agreement with the
  index-based definition of an occurrence.
- `supply_data.dfy` `SupplyData`: the records, the column totals and the counts of
  matching rows, and the snapshot invariants.
- `classifier.dfy` `Classifier`: the thresholds, the rules, `Classify` and the
  imperative pass.
- `classifier_properties.dfy` `ClassifierProperties`: what each rule promises, stated
  against the snapshot.
- `summary.dfy` `Summary`: the key metrics as exact reals, the report lines and the
  reader.
- `example.dfy` `Example`: the hardcoded snapshot and the classifier's exact output on
  it.

Three behaviours of the code are kept even though a validating loader would reject
the inputs that trigger them:

- **Division by zero.** The pending-ratio division is not guarded, so a zero
  `PO_Issued` count raises. `Classify` returns `Failure(PendingRatioDivisionByZero)` in
  that case. `Render` fails likewise because of the PO completion rate.
- **Record validation.** Nothing validates the records. `SupplyData.WellFormed` states
  the invariants the data is meant to keep, and only the hardcoded snapshot is proved
  to keep them.
- **Order status.** The status is compared as a string, exactly as the code does. It
  is not an enumeration.

Every operation is a pure function of its arguments. The snapshot is therefore never
changed, and classifying the same snapshot twice gives the same lists.

## Model

| member | source | states |
|---|---|---|
| Classifier.Classify | streamlit.py:137-174 | Among the inputs the model represents, fails exactly when the issued PO count is zero. Otherwise: at most 2 + (number of departments) critical issues, at most (departments) + 1 high issues and at most one medium issue; each list carries only issues of its own severity; critical and high issues appear in rule order (production, feeding, capacity, MRP) |
| Classifier.AnalyzeCriticalIssues | streamlit.py:137-174 | The source's pass, which appends to three growing lists and raises on a zero issued count, yields exactly the result `Classify` describes |
| Classifier.SumVariance | streamlit.py:144-145 | The loop over production rows returns the column sum of the variances |
| Classifier.CountFeedingDays | streamlit.py:150-151 | The loop returns the number of rows the feeding mask selects |
| Classifier.ScanCapacity | streamlit.py:155-160 | The per-department loop builds the critical and high capacity lists, in department order |
| Classifier.CountCriticalOrders | streamlit.py:163-165 | The loop returns the number of orders whose status is "Critical" |
| Classifier.CapacityCriticals | streamlit.py:156-158 | No more capacity criticals than departments; each is a capacity-critical issue with utilization under 20 |
| Classifier.CapacityHighs | streamlit.py:159-160 | No more capacity highs than departments; each is an underuse issue with utilization in 20..39 |
| ClassifierProperties.ShortfallRule | streamlit.py:145-147 | A shortfall issue exists iff the summed variance is below -3000 (none at exactly -3000); there is at most one, it is the first critical issue and it carries the absolute total |
| ClassifierProperties.FeedingRule | streamlit.py:150-152 | A feeding issue exists iff at least 3 rows have a reason containing "FEEDING ISSUE"; there is at most one, it comes right after the shortfall issue (first when there is none), and its payload is the number of such rows |
| ClassifierProperties.CapacityCriticalsMembers | streamlit.py:156-158 | An issue is among the capacity criticals iff some department has utilization under 20 and the issue names that department and utilization |
| ClassifierProperties.CapacityHighsMembers | streamlit.py:159-160 | An issue is among the capacity highs iff some department has utilization in 20..39 and the issue names that department and utilization |
| ClassifierProperties.CapacityInDepartmentOrder | streamlit.py:156-160 | Capacity issues of a concatenated table are the concatenation of the parts' issues: earlier departments' issues come first |
| ClassifierProperties.OneIssuePerDepartment | streamlit.py:157-160 | One department yields exactly one capacity issue when its utilization is under 40 and none otherwise; never both a critical and a high one |
| ClassifierProperties.CapacityCounts | streamlit.py:156-160 | The critical and high capacity lists have as many issues as there are departments in the under-20 and the 20..39 bands; together no more than the number of departments |
| ClassifierProperties.CapacityRule | streamlit.py:154-160 | In the classifier's output, a department's critical (high) issue is present iff its utilization is under 20 (in 20..39) |
| ClassifierProperties.MrpRule | streamlit.py:163-166 | A material-unavailability issue exists iff some order has status "Critical"; there is only one, it is the last high issue, and it carries the number of such orders |
| ClassifierProperties.PendingRatioIsExact | streamlit.py:170-171 | The integer test used by the model agrees with the real-valued ratio test pending / issued > 0.3, for either sign of the issued count |
| ClassifierProperties.ProcurementRule | streamlit.py:169-172 | The medium list is non-empty iff the pending / issued ratio is above 0.3 (empty at exactly 0.3); it then holds the one pending-PO issue with both counts |
| Text.ContainsIff | streamlit.py:150 | The substring test holds iff the pattern occurs at some index of the text |
| SupplyData.CountWhere | streamlit.py:150-151 | The length of a boolean-mask selection never exceeds the table length |
| SupplyData.CountWhereIsIndexCount | streamlit.py:150-151 | The number of selected rows equals the size of the set of matching row positions |
| SupplyData.CountWherePositive | streamlit.py:164-165 | A mask selects a non-empty set of rows iff some row matches |
| SupplyData.CountWhereAppend | streamlit.py:150-151 | Counting selected rows distributes over concatenating tables |
| SupplyData.TotalVarianceAppend | streamlit.py:145 | The variance sum distributes over concatenating tables |
| SupplyData.VarianceIsActualMinusPlanned | streamlit.py:74-86 | If every row's variance is actual minus planned, the summed variance is total actual minus total planned |
| Summary.Render | streamlit.py:226-257 | Among the inputs the model represents, fails exactly when the issued PO count is zero. Otherwise the report has (critical count) + (high count) + 15 lines; its critical header states the critical count; the high header directly after the critical bullets states the high count |
| Summary.ParseRender | streamlit.py:228-241 | Reading a rendered report back recovers its timestamp, the critical list and the high list, each complete and in order |
| Summary.BulletsListed | streamlit.py:234-241 | An issue has a bullet line in the report iff it is a critical or high issue; medium issues never appear on their own |
| Summary.EfficiencyBelowPlan | streamlit.py:245-246 | For consistent rows with a positive plan, efficiency is under 100 % iff the total variance is negative |
| Example.DashboardWellFormed | streamlit.py:74-125 | The hardcoded snapshot keeps the invariants: variance = actual - planned, distinct departments and orders, stock total = sum of brands |
| Example.DashboardTotals | streamlit.py:74-86 | The hardcoded production table sums to variance -5241, plan 8400 and actual 3159 |
| Example.LowerCaseReasonIgnored | streamlit.py:78-79 | The lower-case "feeding issue" reason of 12 June does not count |
| Example.DashboardFeedingDays | streamlit.py:74-86 | Exactly three hardcoded days count as feeding days |
| Example.DashboardCapacity | streamlit.py:89-95 | Stitching (14) and Lasting (0) are critical, in that order; no department is merely underused |
| Example.DashboardCriticalOrders | streamlit.py:98-105 | Two hardcoded orders have status "Critical" |
| Example.DashboardIssues | streamlit.py:137-174 | The hardcoded snapshot gives critical [shortfall 5241, feeding 3 days, Stitching 14, Lasting 0], high [2 orders] and medium [36 of 92 POs pending] |
| Example.DashboardEfficiency | streamlit.py:245 | The hardcoded efficiency 3159 / 8400 lies in [37.55, 37.65), so it shows as 37.6 % |
| Example.ShortfallBoundary | streamlit.py:146-147 | A total variance of -3000 raises no shortfall; -3001 raises one for 3001 units |
| Example.PendingRatioBoundary | streamlit.py:170-172 | With 100 issued POs, 30 pending raise no medium issue and 31 pending raise one |

## Left out

- Page configuration, CSS, columns, tabs, metric widgets, tables and `main`
  (streamlit.py:9-67, 294-421) are presentation only.
- The two Plotly charts (streamlit.py:177-223) are rendering through a library that is
  not part of this model.
- `export_report_to_excel` (streamlit.py:260-291) is a thin wrapper over the pandas
  Excel writer. The bytes it produces are outside the model.
- Message text is left out: emoji, wording, thousands separators, and the `:.1%` and
  `:.1f` formatting. Issues and metrics carry exact numbers instead. The one rounding
  fact checked is that the hardcoded efficiency shows as 37.6 %.
- Timestamps from `datetime.now()` are not modelled. The report date is a string
  parameter of `Summary.Render`.
- Floating-point behaviour is replaced by exact reals and integers:
  - Python compares the float quotient `pending / issued` with the float `0.3`; the
    model uses the exact rational comparison. The two agree whenever the issued count
    is below about 10^15. This is argued, not proved.
  - numpy's `inf` and `nan`, from an empty plan or from the mean of no departments,
    are both represented by `None`.
- pandas stores the production and capacity columns as 64-bit integers. Their sums are
  unbounded in the model, so int64 wrap-around is not modelled.
- Tables are modelled with all their columns always present, and each Reason cell is
  either text or missing. The source has two more ways to raise that the model cannot
  represent:
  - An empty record list gives a table with no columns. Reading a column then raises
    KeyError. This happens for `Variance` (streamlit.py:145), `Status`
    (streamlit.py:164), `Actual_Qty` and `Planned_Qty` (streamlit.py:245) and
    `Utilization` (streamlit.py:247).
  - A Reason column where every cell is NaN is a float column, so `.str.contains`
    raises AttributeError (streamlit.py:150).

  On both inputs the model returns a result with no shortfall, feeding or MRP issue.
- The Ordered and Available flags of an MRP order are modelled as booleans. The source
  stores them as "Yes"/"No" strings, and no operation reads them.
- The import-status data is modelled as a record only; no operation reads it.
- `str.contains` treats its pattern as a regular expression. "FEEDING ISSUE" has no
  special characters, so the model uses plain substring search.
