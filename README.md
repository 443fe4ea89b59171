# VN-PIT: Vietnamese personal income tax, modelled in Dafny

This project models the tax core of VN-PIT, a small web application that computes
monthly Vietnamese personal income tax (PIT, "thuế TNCN") for a company's
employees. Two pieces are modelled:

- **The progressive tax schedule** (`src/utils/tax.ts`, module `Tax`): `calculatePIT`
  maps monthly taxable income, already net of all deductions, to tax. It has seven
  marginal brackets at 5/10/15/20/25/30/35 % with ceilings at 5M, 10M, 18M, 32M,
  52M and 80M VND. Each branch adds a cumulative constant for the full lower
  brackets (250,000; 750,000; 1,950,000; 4,750,000; 9,750,000; 18,150,000).
  Module `TaxBrackets` holds the same schedule as a table. It also holds the
  formula the tax-detail dialog displays: tax = sum over brackets of
  (income slice in the bracket × rate). The module proves that the hand-written
  branches agree with that formula. It also proves that the cumulative constants
  are the tax of the full lower brackets, that the tax is continuous at every
  ceiling, and that it is monotone with slope at most 35 %.
- **The spreadsheet import** (`handleImport` in `src/pages/TaxCalculation.tsx`,
  module `TaxCalculation`):
  - select the dependents eligible for the month;
  - count them per employee;
  - for each row whose employee code is known, compute the taxable income
    `total − exempt − insurance − 11,000,000 − dependents × 4,400,000`, floored at 0,
    and its tax, and append an income record;
  - the page's two totals over the stored records.

Money and rates are exact `real` numbers, so 0.05, 0.10, … are exact rationals and
no floating-point rounding is modelled. The import's loops are methods with loop
invariants. Each method is proved equal to a recursive specification function
(`CountFor`, `Imported`), and the properties are proved about those functions.

## Model

| member | source | states |
|---|---|---|
| `Tax.CalculatePIT` | src/utils/tax.ts:1-24 | Tax is 0 for non-positive income, never negative, and for positive income between 5 % and 35 % of the income |
| `Tax.FirstBracketFlat` | src/utils/tax.ts:4-5 | Up to 5,000,000 the tax is a flat 5 % of the income |
| `Tax.ExpectedAmounts` | src/utils/tax.test.ts:5-43 | The unit tests' exact amounts: 0 and −1,000 give 0; 4M gives 200,000; 5M gives 250,000; 10M gives 750,000; 18M gives 1,950,000; 32M gives 4,750,000; 52M gives 9,750,000; 80M gives 18,150,000; 100M gives 25,150,000 |
| `TaxBrackets.PITIsBracketSum` | src/components/TaxDetailModal.tsx:62 | For every income, the seven branches equal the sum over the brackets of min(max(x − lower, 0), upper − lower) × rate, with the top bracket unbounded |
| `TaxBrackets.CumulativeConstants` | src/utils/tax.test.ts:16-41 | Each cumulative constant equals the previous one plus the full width of the previous bracket times its rate, starting from 0 |
| `TaxBrackets.BranchFormula` | src/utils/tax.ts:7-23 | In bracket k the tax is the tax of all full lower brackets plus (income − bracket floor) × the bracket's rate |
| `TaxBrackets.ContinuousAtCeilings` | src/utils/tax.ts:4-23 | At every ceiling the formulas of the two adjacent branches give the same tax |
| `TaxBrackets.Monotone` | src/utils/tax.ts:4-23 | For a ≤ b, tax(a) ≤ tax(b), and tax(b) − tax(a) ≤ 35 % of (b − a) |
| `TaxBrackets.SlicesAddUpToIncome` | src/components/TaxDetailModal.tsx:16 | The per-bracket taxable slices add up to max(income, 0): no income is taxed twice or left out |
| `TaxBrackets.SliceSumCovers` | src/components/TaxDetailModal.tsx:16 | For any gap-free schedule starting at lo, the slices add up to max(x − lo, 0) |
| `TaxBrackets.BracketSumGrowth` | src/utils/tax.ts:4-23 | For a ≤ b, the bracket-sum tax of b exceeds that of a by between 0 and 35 % of the growth of the slice total |
| `TaxBrackets.ScheduleContiguous` | src/utils/tax.ts:4-23 | The seven brackets meet without gap or overlap from 0 up, and only the top one is unbounded |
| `TaxCalculation.EligibleDependents` | src/pages/TaxCalculation.tsx:57-62 | The dependents query returns exactly those entries that are active, whose start month is on or before the month and whose end month is absent or on or after it; it never returns more entries than the table has |
| `TaxCalculation.Eligible` | src/pages/TaxCalculation.tsx:58-62 | The query's filter for one dependent: active (`is_active` true, not null), start month on or before the month, end month null or on or after it; an eligible dependent is active and has a non-empty deduction window (start on or before end) |
| `TaxCalculation.EligibleBetween` | src/pages/TaxCalculation.tsx:57-62 | A dependent eligible in two months is eligible in every month between them |
| `TaxCalculation.LexLeTransitive` | src/pages/TaxCalculation.tsx:60-61 | The month order used by the query is transitive |
| `TaxCalculation.CountDependents` | src/pages/TaxCalculation.tsx:65-68 | The map gives each employee id the number of entries naming it, and 0 (no key) to an employee with none; entries with a null or empty employee id are skipped; every key has a positive count |
| `TaxCalculation.CountIsEligibleEntries` | src/pages/TaxCalculation.tsx:57-68 | An employee's dependent count equals the number of table entries that are eligible for the month and name that employee |
| `TaxCalculation.CountForSnoc` | src/pages/TaxCalculation.tsx:66-67 | One more entry raises the count of the employee it names by one and changes no other count |
| `TaxCalculation.TaxableIncome` | src/pages/TaxCalculation.tsx:89-90 | The taxable income after the clamp is never negative |
| `TaxCalculation.HandleImport` | src/pages/TaxCalculation.tsx:57-105 | The records built by the row loop are exactly `Imported(rows, …)` for the dependents eligible in month `selectedMonth + "-01"` |
| `TaxCalculation.ImportedRecords` | src/pages/TaxCalculation.tsx:71-104 | There are at most as many records as rows. In each record the employee id is a value of the employee map and the month is the import month. The personal allowance is 11,000,000 and the dependent deduction is 4,400,000 × that employee's eligible dependents. The taxable income is the record's total − exempt − insurance − both deductions, floored at 0. The tax is `CalculatePIT` of the taxable income |
| `TaxCalculation.ImportedAppend` | src/pages/TaxCalculation.tsx:75-105 | Importing rows1 + rows2 gives the records of rows1 followed by those of rows2, so records keep the order of the accepted rows |
| `TaxCalculation.ImportedOne` | src/pages/TaxCalculation.tsx:76-103 | A row whose code is unknown (or maps to an empty id) yields no record. A row of a known employee yields exactly one record: employee id `empMap[code]` of that row, the row's total, exempt income and insurance, the import month, 11,000,000 personal allowance, 4,400,000 × that employee's eligible dependents, taxable income = the row's total − exempt − insurance − both allowances floored at 0, and tax = `CalculatePIT` of it. Together with `ImportedAppend` this fixes the records of any sequence of rows, in row order |
| `TaxCalculation.TotalTax` | src/pages/TaxCalculation.tsx:127 | Sum of `tax_amount` over the records, null read as 0: it is 0 when every amount is null, and non-negative when no amount is negative |
| `TaxCalculation.TotalIncome` | src/pages/TaxCalculation.tsx:128 | Sum of `total_income` over the records, null read as 0: it is 0 when every amount is null, and non-negative when no amount is negative |
| `TaxCalculation.TotalsAppend` | src/pages/TaxCalculation.tsx:127-128 | Total tax and total income over a concatenation are the sums of the totals of the parts |
| `TaxCalculation.NullTaxCountsAsZero` | src/pages/TaxCalculation.tsx:127 | A record with a null tax amount adds nothing to the total tax |
| `TaxCalculation.ImportedTotalTaxBounded` | src/pages/TaxCalculation.tsx:127 | Over records whose tax is `CalculatePIT` of a non-negative taxable income, the total tax is between 0 and 35 % of the total taxable income |

## Left out

- `formatCurrency` (src/utils/tax.ts:26-28): it wraps `Intl.NumberFormat`, whose behaviour cannot be seen from the source.
- Floating point: the source multiplies JavaScript doubles by 0.05, 0.10, …; the model computes in exact reals, so the rounding of those products is not modelled.
- `getTaxDetails`, the per-bracket breakdown the tax-detail dialog calls, is not part of this model. It is imported from src/utils/tax.ts but not defined in that file. Only the summation formula the dialog displays is modelled, as `TaxBrackets.BracketSum`, together with the fact that its slices add up to the income.
- The data store: fetching employees and dependents, the upsert into `income_records` and its conflict rule, and the refetch are left out. The employee map (code → id), the dependents table and the stored records are inputs. The query's filter is modelled as the predicate `Eligible` and applied by `EligibleDependents`.
- `EligibleDependents`: the database compares the month columns as dates. The model compares the "YYYY-MM-DD" strings lexicographically, which orders well-formed dates the same way.
- `HandleImport`: the alerts and the "no valid rows" message after the loop (src/pages/TaxCalculation.tsx:107-121) are I/O and are left out. So are the `try`/`catch` and the `importing` flag.
- Spreadsheet parsing is left out: reading the workbook, the column aliases `MaNV`/`Mã NV` and the others, and the `Number(cell || 0)` coercion. Each row arrives with its code and three numbers already read.
- Search filtering of the displayed records (src/pages/TaxCalculation.tsx:130-133) is left out: it depends on JavaScript's `toLowerCase` and `includes`.
- The rest of the application is left out: authentication, routing, layout, modals, and the employee and dependent CRUD pages.
- `StoredRecord` keeps only the two nullable columns the totals read (`tax_amount`, `total_income`), plus `taxable_income` for the bound of `ImportedTotalTaxBounded`. `Stored` models the upsert writing an imported record as one row.
