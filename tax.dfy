/** The progressive monthly personal-income-tax schedule (src/utils/tax.ts).
    Money is exact `real`: the source's `number` arithmetic is modelled without
    floating-point rounding. */
module Tax {

  /** Tax owed on a month's taxable income (already net of all deductions).
      Seven marginal brackets at 5/10/15/20/25/30/35 %, each branch adding the
      tax of the full lower brackets to the slice above the previous ceiling. */
  function CalculatePIT(taxableIncome: real): (tax: real)
    ensures taxableIncome <= 0.0 ==> tax == 0.0
    ensures 0.0 <= tax
    ensures 0.0 < taxableIncome ==> tax <= taxableIncome * 0.35
    ensures 0.0 < taxableIncome ==> taxableIncome * 0.05 <= tax
  {
    if taxableIncome <= 0.0 then 0.0
    else if taxableIncome <= 5_000_000.0 then taxableIncome * 0.05
    else if taxableIncome <= 10_000_000.0 then 250_000.0 + (taxableIncome - 5_000_000.0) * 0.10
    else if taxableIncome <= 18_000_000.0 then 750_000.0 + (taxableIncome - 10_000_000.0) * 0.15
    else if taxableIncome <= 32_000_000.0 then 1_950_000.0 + (taxableIncome - 18_000_000.0) * 0.20
    else if taxableIncome <= 52_000_000.0 then 4_750_000.0 + (taxableIncome - 32_000_000.0) * 0.25
    else if taxableIncome <= 80_000_000.0 then 9_750_000.0 + (taxableIncome - 52_000_000.0) * 0.30
    // over 80M
    else 18_150_000.0 + (taxableIncome - 80_000_000.0) * 0.35
  }

  /** Incomes up to the first ceiling are taxed at a flat 5 %. */
  lemma FirstBracketFlat(taxableIncome: real)
    requires 0.0 < taxableIncome <= 5_000_000.0
    ensures CalculatePIT(taxableIncome) == taxableIncome * 0.05
  {
  }

  /** The exact amounts the unit tests expect, at each ceiling and beyond. */
  lemma ExpectedAmounts()
    ensures CalculatePIT(0.0) == 0.0
    ensures CalculatePIT(-1_000.0) == 0.0
    ensures CalculatePIT(4_000_000.0) == 200_000.0
    ensures CalculatePIT(5_000_000.0) == 250_000.0
    ensures CalculatePIT(10_000_000.0) == 750_000.0
    ensures CalculatePIT(18_000_000.0) == 1_950_000.0
    ensures CalculatePIT(32_000_000.0) == 4_750_000.0
    ensures CalculatePIT(52_000_000.0) == 9_750_000.0
    ensures CalculatePIT(80_000_000.0) == 18_150_000.0
    ensures CalculatePIT(100_000_000.0) == 25_150_000.0
  {
  }
}
