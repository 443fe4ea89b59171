/** The spreadsheet import of src/pages/TaxCalculation.tsx: count each
    employee's eligible dependents, turn every row of a known employee into an
    income record (taxable income and tax), and the page's two totals.
    The data store, the spreadsheet parser and the UI are not modelled: the
    employee map, the dependents table and the rows arrive as plain values. */
module TaxCalculation {
  import opened Wrappers
  import Tax

  /** Personal allowance subtracted from every employee's monthly income. */
  const SelfDeduction: real := 11_000_000.0

  /** Allowance subtracted per eligible dependent. */
  const DependentDeductionRate: real := 4_400_000.0

  /** A row of the `dependents` table (the columns the import reads). */
  datatype Dependent = Dependent(
    employeeId: Option<string>,
    isActive: Option<bool>,
    deductionStartMonth: string,
    deductionEndMonth: Option<string>)

  /** One spreadsheet row, its cells already read as numbers. */
  datatype Row = Row(code: string, totalIncome: real, exemptIncome: real, insurance: real)

  /** A record the import writes to `income_records`. */
  datatype IncomeRecord = IncomeRecord(
    employeeId: string,
    month: string,
    totalIncome: real,
    taxExemptIncome: real,
    insuranceDeduction: real,
    dependentDeduction: real,
    selfDeduction: real,
    taxableIncome: real,
    taxAmount: real)

  /** JavaScript truthiness of an optional string: absent and "" are false. */
  predicate Truthy(s: Option<string>)
  {
    s.Some? && s.value != ""
  }

  // ---------------------------------------------------------------------------
  // Month eligibility of a dependent

  /** Lexicographic order on strings; on "YYYY-MM-DD" dates it is date order. */
  predicate LexLe(a: string, b: string)
  {
    if a == [] then true
    else if b == [] then false
    else if a[0] != b[0] then a[0] < b[0]
    else LexLe(a[1..], b[1..])
  }

  lemma {:induction false} LexLeTransitive(a: string, b: string, c: string)
    requires LexLe(a, b) && LexLe(b, c)
    ensures LexLe(a, c)
  {
    if a != [] && b != [] && c != [] && a[0] == b[0] == c[0] {
      LexLeTransitive(a[1..], b[1..], c[1..]);
    }
  }

  /** The dependents query: active, deduction started on or before the month,
      and either no end month or one on or after the month. A dependent can be
      eligible only while its deduction window is non-empty. */
  predicate Eligible(d: Dependent, month: string): (eligible: bool)
    ensures eligible ==> d.isActive == Some(true)
    ensures eligible && d.deductionEndMonth.Some? ==>
      LexLe(d.deductionStartMonth, d.deductionEndMonth.value)
  {
    var eligible := d.isActive == Some(true)
      && LexLe(d.deductionStartMonth, month)
      && (d.deductionEndMonth.None? || LexLe(month, d.deductionEndMonth.value));
    if eligible && d.deductionEndMonth.Some? then
      LexLeTransitive(d.deductionStartMonth, month, d.deductionEndMonth.value);
      eligible
    else eligible
  }

  /** A dependent eligible in two months is eligible in every month between:
      each dependent's deduction window is an interval of months. */
  lemma EligibleBetween(d: Dependent, first: string, month: string, last: string)
    requires Eligible(d, first) && Eligible(d, last)
    requires LexLe(first, month) && LexLe(month, last)
    ensures Eligible(d, month)
  {
    LexLeTransitive(d.deductionStartMonth, first, month);
    if d.deductionEndMonth.Some? {
      LexLeTransitive(month, last, d.deductionEndMonth.value);
    }
  }

  /** The rows the dependents query returns for `month`, in table order. */
  function EligibleDependents(all: seq<Dependent>, month: string): (deps: seq<Dependent>)
    ensures |deps| <= |all|
    ensures forall d :: d in deps <==> d in all && Eligible(d, month)
  {
    if all == [] then []
    else
      var rest := EligibleDependents(all[..|all| - 1], month);
      var d := all[|all| - 1];
      assert all == all[..|all| - 1] + [d];
      if Eligible(d, month) then rest + [d] else rest
  }

  // ---------------------------------------------------------------------------
  // Dependent count per employee

  /** Entry `d` names employee `id` (`if (d.employee_id)` skips null and ""). */
  predicate Names(d: Dependent, id: string)
  {
    Truthy(d.employeeId) && d.employeeId.value == id
  }

  /** Number of entries of `deps` that name employee `id`. */
  function CountFor(deps: seq<Dependent>, id: string): nat
  {
    if deps == [] then 0
    else
      var d := deps[|deps| - 1];
      CountFor(deps[..|deps| - 1], id) + (if Names(d, id) then 1 else 0)
  }

  /** `depCount.get(id) || 0`. */
  function DepNum(depCount: map<string, nat>, id: string): nat
  {
    if id in depCount then depCount[id] else 0
  }

  /** The `forEach` over the query result that fills `depCount`. */
  method CountDependents(deps: seq<Dependent>) returns (depCount: map<string, nat>)
    ensures forall id :: DepNum(depCount, id) == CountFor(deps, id)
    ensures forall id :: id in depCount ==> id != "" && depCount[id] > 0
  {
    depCount := map[];
    for i := 0 to |deps|
      invariant forall id :: DepNum(depCount, id) == CountFor(deps[..i], id)
      invariant forall id :: id in depCount ==> id != "" && depCount[id] > 0
    {
      var d := deps[i];
      assert deps[..i + 1][..i] == deps[..i];
      if Truthy(d.employeeId) {
        var id := d.employeeId.value;
        depCount := depCount[id := DepNum(depCount, id) + 1];
      }
    }
    assert deps[..|deps|] == deps;
  }

  /** Positions of the entries of `all` that are eligible for `month` and name
      employee `id`. */
  ghost function EligibleEntries(all: seq<Dependent>, month: string, id: string): set<nat>
  {
    set i: nat | i < |all| && Eligible(all[i], month) && Names(all[i], id)
  }

  lemma CountForSnoc(deps: seq<Dependent>, d: Dependent, id: string)
    ensures CountFor(deps + [d], id) == CountFor(deps, id) + if Names(d, id) then 1 else 0
  {
    assert (deps + [d])[..|deps|] == deps;
  }

  lemma EligibleEntriesSnoc(init: seq<Dependent>, d: Dependent, month: string, id: string)
    ensures EligibleEntries(init + [d], month, id)
         == EligibleEntries(init, month, id) + if Eligible(d, month) && Names(d, id) then {|init|} else {}
  {
    var all := init + [d];
    var before := EligibleEntries(init, month, id);
    var after := EligibleEntries(all, month, id);
    forall i | i in after && i != |init| ensures i in before {
      assert all[i] == init[i];
    }
    forall i | i in before ensures i in after {
      assert all[i] == init[i];
    }
  }

  /** An employee's dependent count is the number of dependents-table entries
      that are eligible for the month and name that employee; entries without
      an employee id count for no one. */
  lemma {:induction false} CountIsEligibleEntries(all: seq<Dependent>, month: string, id: string)
    ensures CountFor(EligibleDependents(all, month), id) == |EligibleEntries(all, month, id)|
  {
    if all != [] {
      var init, d := all[..|all| - 1], all[|all| - 1];
      assert all == init + [d];
      CountIsEligibleEntries(init, month, id);
      EligibleEntriesSnoc(init, d, month, id);
      if Eligible(d, month) {
        CountForSnoc(EligibleDependents(init, month), d, id);
      }
    }
  }

  // ---------------------------------------------------------------------------
  // Row processing

  /** Employee id for a row code: `empMap.get(code)`, skipped when falsy. */
  predicate Known(empMap: map<string, string>, code: string)
  {
    code in empMap && empMap[code] != ""
  }

  /** Taxable income: total minus exempt income, insurance, the personal
      allowance and the dependents' allowance, floored at zero. */
  function TaxableIncome(row: Row, depNum: nat): (taxable: real)
    ensures 0.0 <= taxable
  {
    var taxable := row.totalIncome - row.exemptIncome - row.insurance
                   - SelfDeduction - depNum as real * DependentDeductionRate;
    if taxable < 0.0 then 0.0 else taxable
  }

  /** The record written for a row of a known employee. */
  function RecordFor(row: Row, empId: string, depNum: nat, month: string): IncomeRecord
  {
    var taxable := TaxableIncome(row, depNum);
    IncomeRecord(empId, month, row.totalIncome, row.exemptIncome, row.insurance,
      depNum as real * DependentDeductionRate, SelfDeduction, taxable, Tax.CalculatePIT(taxable))
  }

  /** Records for `rows`, in row order, skipping rows of unknown employees. */
  function Imported(rows: seq<Row>, empMap: map<string, string>, deps: seq<Dependent>, month: string)
    : seq<IncomeRecord>
  {
    if rows == [] then []
    else
      var row := rows[|rows| - 1];
      var prefix := Imported(rows[..|rows| - 1], empMap, deps, month);
      if Known(empMap, row.code) then
        var empId := empMap[row.code];
        prefix + [RecordFor(row, empId, CountFor(deps, empId), month)]
      else prefix
  }

  /** The import of one spreadsheet for `selectedMonth` ("YYYY-MM"): the
      records to upsert. */
  method HandleImport(rows: seq<Row>, empMap: map<string, string>, allDeps: seq<Dependent>,
                      selectedMonth: string)
    returns (upsertData: seq<IncomeRecord>)
    ensures upsertData == Imported(rows, empMap, EligibleDependents(allDeps, selectedMonth + "-01"),
                                   selectedMonth + "-01")
  {
    var monthDate := selectedMonth + "-01";
    var deps := EligibleDependents(allDeps, monthDate);
    var depCount := CountDependents(deps);

    upsertData := [];
    for i := 0 to |rows|
      invariant upsertData == Imported(rows[..i], empMap, deps, monthDate)
    {
      var row := rows[i];
      assert rows[..i + 1][..i] == rows[..i];
      if !Known(empMap, row.code) {
        continue;
      }
      var empId := empMap[row.code];
      var depNum := DepNum(depCount, empId);
      var depDeduction := depNum as real * DependentDeductionRate;
      var taxable := row.totalIncome - row.exemptIncome - row.insurance - SelfDeduction - depDeduction;
      if taxable < 0.0 {
        taxable := 0.0;
      }
      var taxAmount := Tax.CalculatePIT(taxable);
      upsertData := upsertData + [IncomeRecord(empId, monthDate, row.totalIncome, row.exemptIncome,
        row.insurance, depDeduction, SelfDeduction, taxable, taxAmount)];
    }
    assert rows[..|rows|] == rows;
  }

  /** Importing two batches of rows gives the records of the first followed by
      those of the second: the import keeps the order of the accepted rows. */
  lemma {:induction false} ImportedAppend(rows1: seq<Row>, rows2: seq<Row>, empMap: map<string, string>,
                                          deps: seq<Dependent>, month: string)
    ensures Imported(rows1 + rows2, empMap, deps, month)
         == Imported(rows1, empMap, deps, month) + Imported(rows2, empMap, deps, month)
    decreases |rows2|
  {
    if rows2 == [] {
      assert rows1 + rows2 == rows1;
    } else {
      var init := rows2[..|rows2| - 1];
      ImportedAppend(rows1, init, empMap, deps, month);
      assert (rows1 + rows2)[..|rows1 + rows2| - 1] == rows1 + init;
    }
  }

  /** A row whose code is unknown yields no record. A row of a known employee
      yields one record, filed under the id its code maps to, carrying that
      row's three amounts, the import month, both allowances, the clamped
      taxable income and its tax. With ImportedAppend this determines the
      import of any sequence of rows. */
  lemma ImportedOne(row: Row, empMap: map<string, string>, deps: seq<Dependent>, month: string)
    ensures !Known(empMap, row.code) ==> Imported([row], empMap, deps, month) == []
    ensures Known(empMap, row.code) ==>
      |Imported([row], empMap, deps, month)| == 1 &&
      var r := Imported([row], empMap, deps, month)[0];
      var empId := empMap[row.code];
      var depDeduction := CountFor(deps, empId) as real * DependentDeductionRate;
      var net := row.totalIncome - row.exemptIncome - row.insurance - SelfDeduction - depDeduction;
      && r.employeeId == empId
      && r.month == month
      && r.totalIncome == row.totalIncome
      && r.taxExemptIncome == row.exemptIncome
      && r.insuranceDeduction == row.insurance
      && r.selfDeduction == SelfDeduction
      && r.dependentDeduction == depDeduction
      && r.taxableIncome == (if net < 0.0 then 0.0 else net)
      && r.taxAmount == Tax.CalculatePIT(r.taxableIncome)
  {
    assert [row][..0] == [];
  }

  /** Every record of an import is consistent: its employee id is one of the
      map's, it carries the import month, the fixed personal allowance, the
      allowance for that employee's eligible dependents, a taxable income that
      is the clamped difference of its own fields, and the tax of it. There are
      at most as many records as rows. */
  lemma {:induction false} ImportedRecords(rows: seq<Row>, empMap: map<string, string>,
                                           deps: seq<Dependent>, month: string)
    ensures |Imported(rows, empMap, deps, month)| <= |rows|
    ensures forall r :: r in Imported(rows, empMap, deps, month) ==>
      && r.employeeId in empMap.Values && r.employeeId != ""
      && r.month == month
      && r.selfDeduction == SelfDeduction
      && r.dependentDeduction == CountFor(deps, r.employeeId) as real * DependentDeductionRate
      && 0.0 <= r.taxableIncome
      && r.taxableIncome == (var net := r.totalIncome - r.taxExemptIncome - r.insuranceDeduction
                                        - r.selfDeduction - r.dependentDeduction;
                             if net < 0.0 then 0.0 else net)
      && r.taxAmount == Tax.CalculatePIT(r.taxableIncome)
  {
    if rows != [] {
      ImportedRecords(rows[..|rows| - 1], empMap, deps, month);
    }
  }

  // ---------------------------------------------------------------------------
  // Page totals

  /** Nullable columns of an `income_records` row: the two the totals read,
      plus `taxable_income` for the bound of ImportedTotalTaxBounded. */
  datatype StoredRecord = StoredRecord(totalIncome: Option<real>, taxAmount: Option<real>,
                                       taxableIncome: Option<real>)

  /** The row an imported record becomes. */
  function Stored(r: IncomeRecord): StoredRecord
  {
    StoredRecord(Some(r.totalIncome), Some(r.taxAmount), Some(r.taxableIncome))
  }

  function StoreAll(records: seq<IncomeRecord>): (rows: seq<StoredRecord>)
    ensures |rows| == |records|
    ensures forall i :: 0 <= i < |records| ==> rows[i] == Stored(records[i])
  {
    if records == [] then [] else [Stored(records[0])] + StoreAll(records[1..])
  }

  /** `value || 0` on a nullable number. */
  function OrZero(v: Option<real>): real
  {
    if v.Some? then v.value else 0.0
  }

  /** `records.reduce((sum, r) => sum + (r.tax_amount || 0), 0)`. */
  function TotalTax(records: seq<StoredRecord>): (total: real)
    ensures (forall i :: 0 <= i < |records| ==> records[i].taxAmount.None?) ==> total == 0.0
    ensures (forall i :: 0 <= i < |records| ==> OrZero(records[i].taxAmount) >= 0.0) ==> total >= 0.0
  {
    if records == [] then 0.0
    else TotalTax(records[..|records| - 1]) + OrZero(records[|records| - 1].taxAmount)
  }

  /** `records.reduce((sum, r) => sum + (r.total_income || 0), 0)`. */
  function TotalIncome(records: seq<StoredRecord>): (total: real)
    ensures (forall i :: 0 <= i < |records| ==> records[i].totalIncome.None?) ==> total == 0.0
    ensures (forall i :: 0 <= i < |records| ==> OrZero(records[i].totalIncome) >= 0.0) ==> total >= 0.0
  {
    if records == [] then 0.0
    else TotalIncome(records[..|records| - 1]) + OrZero(records[|records| - 1].totalIncome)
  }

  /** Sum of taxable income, null read as 0 (the reference for TotalTax's bound). */
  function TotalTaxable(records: seq<StoredRecord>): real
  {
    if records == [] then 0.0
    else TotalTaxable(records[..|records| - 1]) + OrZero(records[|records| - 1].taxableIncome)
  }

  /** The totals split over any partition of the records. */
  lemma {:induction false} TotalsAppend(a: seq<StoredRecord>, b: seq<StoredRecord>)
    ensures TotalTax(a + b) == TotalTax(a) + TotalTax(b)
    ensures TotalIncome(a + b) == TotalIncome(a) + TotalIncome(b)
    decreases |b|
  {
    if b == [] {
      assert a + b == a;
    } else {
      var init := b[..|b| - 1];
      TotalsAppend(a, init);
      assert (a + b)[..|a + b| - 1] == a + init;
    }
  }

  /** Records without a tax amount add nothing to the total tax. */
  lemma {:induction false} NullTaxCountsAsZero(a: seq<StoredRecord>, r: StoredRecord)
    requires r.taxAmount.None?
    ensures TotalTax(a + [r]) == TotalTax(a)
  {
    assert (a + [r])[..|a|] == a;
  }

  /** For records produced by the import, the total tax is between 0 and 35 %
      of the total taxable income. */
  lemma {:induction false} ImportedTotalTaxBounded(records: seq<IncomeRecord>)
    requires forall r :: r in records ==> 0.0 <= r.taxableIncome && r.taxAmount == Tax.CalculatePIT(r.taxableIncome)
    ensures 0.0 <= TotalTax(StoreAll(records)) <= 0.35 * TotalTaxable(StoreAll(records))
  {
    var stored := StoreAll(records);
    if records != [] {
      var init := records[..|records| - 1];
      var last := records[|records| - 1];
      ImportedTotalTaxBounded(init);
      assert stored[..|stored| - 1] == StoreAll(init);
      assert stored[|stored| - 1] == Stored(last);
    }
  }
}
