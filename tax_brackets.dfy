/** The bracket schedule as a table, and the reference definition of the tax as
    "the sum over all brackets of the income slice in that bracket times its
    rate" (the formula displayed by src/components/TaxDetailModal.tsx). The
    lemmas here prove that the hand-written branches of `Tax.CalculatePIT`
    agree with that definition. */
module TaxBrackets {
  import opened Wrappers
  import Tax

  /** One marginal bracket: income in (lower, upper] is taxed at `rate`;
      `upper == None` is the unbounded top bracket. */
  datatype Bracket = Bracket(lower: real, upper: Option<real>, rate: real)

  const Schedule: seq<Bracket> := [
    Bracket(0.0, Some(5_000_000.0), 0.05),
    Bracket(5_000_000.0, Some(10_000_000.0), 0.10),
    Bracket(10_000_000.0, Some(18_000_000.0), 0.15),
    Bracket(18_000_000.0, Some(32_000_000.0), 0.20),
    Bracket(32_000_000.0, Some(52_000_000.0), 0.25),
    Bracket(52_000_000.0, Some(80_000_000.0), 0.30),
    Bracket(80_000_000.0, None, 0.35)
  ]

  function Max(a: real, b: real): real { if a < b then b else a }

  function Min(a: real, b: real): real { if a < b then a else b }

  /** The brackets follow each other without gap or overlap from `lo` on, and
      only the last one is unbounded. */
  ghost predicate ContiguousFrom(s: seq<Bracket>, lo: real)
    decreases |s|
  {
    |s| > 0 && s[0].lower == lo &&
    if |s| == 1 then s[0].upper.None?
    else s[0].upper == Some(s[1].lower) && lo <= s[1].lower && ContiguousFrom(s[1..], s[1].lower)
  }

  /** Income in bracket `b`: min(max(x - lower, 0), upper - lower). */
  function Slice(b: Bracket, x: real): real
  {
    var over := Max(x - b.lower, 0.0);
    match b.upper
    case None => over
    case Some(u) => Min(over, u - b.lower)
  }

  /** Total income spread over the brackets of `s`. */
  function SliceSum(s: seq<Bracket>, x: real): real
  {
    if s == [] then 0.0 else Slice(s[0], x) + SliceSum(s[1..], x)
  }

  /** Sum over the brackets of slice times rate. */
  function BracketSum(s: seq<Bracket>, x: real): real
  {
    if s == [] then 0.0 else Slice(s[0], x) * s[0].rate + BracketSum(s[1..], x)
  }

  /** Tax of a run of full (bounded) brackets: width times rate, summed. */
  function FullBracketsTax(s: seq<Bracket>): real
    requires forall i :: 0 <= i < |s| ==> s[i].upper.Some?
  {
    if s == [] then 0.0
    else
      var b := s[|s| - 1];
      FullBracketsTax(s[..|s| - 1]) + (b.upper.value - b.lower) * b.rate
  }

  /** Income x falls in bracket b. */
  predicate InBracket(b: Bracket, x: real)
  {
    b.lower < x && (b.upper.None? || x <= b.upper.value)
  }

  lemma ScheduleContiguous()
    ensures ContiguousFrom(Schedule, 0.0)
  {
    assert ContiguousFrom(Schedule[6..], 80_000_000.0);
    assert ContiguousFrom(Schedule[5..], 52_000_000.0);
    assert ContiguousFrom(Schedule[4..], 32_000_000.0);
    assert ContiguousFrom(Schedule[3..], 18_000_000.0);
    assert ContiguousFrom(Schedule[2..], 10_000_000.0);
    assert ContiguousFrom(Schedule[1..], 5_000_000.0);
  }

  /** The slices of a contiguous schedule split the income above `lo` exactly:
      nothing is taxed twice and nothing is left out. */
  lemma {:induction false} SliceSumCovers(s: seq<Bracket>, lo: real, x: real)
    requires ContiguousFrom(s, lo)
    ensures SliceSum(s, x) == Max(x - lo, 0.0)
    decreases |s|
  {
    if |s| > 1 {
      SliceSumCovers(s[1..], s[1].lower, x);
    }
  }

  /** The slices of the seven brackets add up to max(x, 0). */
  lemma SlicesAddUpToIncome(x: real)
    ensures SliceSum(Schedule, x) == Max(x, 0.0)
  {
    ScheduleContiguous();
    SliceSumCovers(Schedule, 0.0, x);
  }

  /** Raising the income never shrinks a slice, and no slice grows by more than
      the raise. */
  lemma SliceGrowth(b: Bracket, x: real, y: real)
    requires x <= y
    requires b.upper.Some? ==> b.lower <= b.upper.value
    ensures 0.0 <= Slice(b, y) - Slice(b, x) <= y - x
  {
  }

  /** The two sums over the seven brackets, written out term by term. */
  lemma Expanded(x: real)
    ensures BracketSum(Schedule, x)
         == Slice(Schedule[0], x) * 0.05 + Slice(Schedule[1], x) * 0.10 + Slice(Schedule[2], x) * 0.15
          + Slice(Schedule[3], x) * 0.20 + Slice(Schedule[4], x) * 0.25 + Slice(Schedule[5], x) * 0.30
          + Slice(Schedule[6], x) * 0.35
    ensures SliceSum(Schedule, x)
         == Slice(Schedule[0], x) + Slice(Schedule[1], x) + Slice(Schedule[2], x) + Slice(Schedule[3], x)
          + Slice(Schedule[4], x) + Slice(Schedule[5], x) + Slice(Schedule[6], x)
  {
    var s := Schedule;
    assert BracketSum(s[7..], x) == 0.0 && SliceSum(s[7..], x) == 0.0;
    assert BracketSum(s[6..], x) == Slice(s[6], x) * 0.35 + BracketSum(s[7..], x);
    assert BracketSum(s[5..], x) == Slice(s[5], x) * 0.30 + BracketSum(s[6..], x);
    assert BracketSum(s[4..], x) == Slice(s[4], x) * 0.25 + BracketSum(s[5..], x);
    assert BracketSum(s[3..], x) == Slice(s[3], x) * 0.20 + BracketSum(s[4..], x);
    assert BracketSum(s[2..], x) == Slice(s[2], x) * 0.15 + BracketSum(s[3..], x);
    assert BracketSum(s[1..], x) == Slice(s[1], x) * 0.10 + BracketSum(s[2..], x);
    assert BracketSum(s, x) == Slice(s[0], x) * 0.05 + BracketSum(s[1..], x);
    assert SliceSum(s[6..], x) == Slice(s[6], x) + SliceSum(s[7..], x);
    assert SliceSum(s[5..], x) == Slice(s[5], x) + SliceSum(s[6..], x);
    assert SliceSum(s[4..], x) == Slice(s[4], x) + SliceSum(s[5..], x);
    assert SliceSum(s[3..], x) == Slice(s[3], x) + SliceSum(s[4..], x);
    assert SliceSum(s[2..], x) == Slice(s[2], x) + SliceSum(s[3..], x);
    assert SliceSum(s[1..], x) == Slice(s[1], x) + SliceSum(s[2..], x);
    assert SliceSum(s, x) == Slice(s[0], x) + SliceSum(s[1..], x);
  }

  /** The seven literal branches of CalculatePIT compute exactly the sum over
      the brackets of slice times rate. */
  lemma PITIsBracketSum(x: real)
    ensures Tax.CalculatePIT(x) == BracketSum(Schedule, x)
  {
    Expanded(x);
  }

  /** Each branch of CalculatePIT is "tax of all full lower brackets + the slice
      above the previous ceiling times this bracket's rate": every cumulative
      constant in the source equals the tax of the full brackets below it. */
  lemma BranchFormula(k: nat, x: real)
    requires k < |Schedule| && InBracket(Schedule[k], x)
    ensures Tax.CalculatePIT(x)
         == FullBracketsTax(Schedule[..k]) + (x - Schedule[k].lower) * Schedule[k].rate
  {
    CumulativeConstants();
  }

  /** The cumulative constants 0; 250,000; 750,000; 1,950,000; 4,750,000;
      9,750,000; 18,150,000 are the tax of the full brackets below each one. */
  lemma CumulativeConstants()
    ensures FullBracketsTax(Schedule[..0]) == 0.0
    ensures FullBracketsTax(Schedule[..1]) == 250_000.0
    ensures FullBracketsTax(Schedule[..2]) == 750_000.0
    ensures FullBracketsTax(Schedule[..3]) == 1_950_000.0
    ensures FullBracketsTax(Schedule[..4]) == 4_750_000.0
    ensures FullBracketsTax(Schedule[..5]) == 9_750_000.0
    ensures FullBracketsTax(Schedule[..6]) == 18_150_000.0
  {
    var s := Schedule;
    assert s[..1][..0] == s[..0];
    assert s[..2][..1] == s[..1];
    assert s[..3][..2] == s[..2];
    assert s[..4][..3] == s[..3];
    assert s[..5][..4] == s[..4];
    assert s[..6][..5] == s[..5];
  }

  /** Adjacent branches agree at every ceiling: the tax is continuous. */
  lemma ContinuousAtCeilings(k: nat)
    requires k + 1 < |Schedule|
    ensures Schedule[k].upper == Some(Schedule[k + 1].lower)
    ensures var c := Schedule[k + 1].lower;
      Tax.CalculatePIT(c)
      == FullBracketsTax(Schedule[..k]) + (c - Schedule[k].lower) * Schedule[k].rate
      == FullBracketsTax(Schedule[..k + 1]) + (c - Schedule[k + 1].lower) * Schedule[k + 1].rate
  {
    CumulativeConstants();
  }

  /** The tax never decreases with income, and rises by at most the top
      marginal rate times the rise in income. */
  lemma Monotone(a: real, b: real)
    requires a <= b
    ensures Tax.CalculatePIT(a) <= Tax.CalculatePIT(b)
    ensures Tax.CalculatePIT(b) - Tax.CalculatePIT(a) <= 0.35 * (b - a)
  {
    PITIsBracketSum(a);
    PITIsBracketSum(b);
    BracketSumGrowth(a, b);
    SlicesAddUpToIncome(a);
    SlicesAddUpToIncome(b);
  }

  /** Raising the income raises the bracket-sum tax by between 0 and 35 % of
      the growth of the slice total. */
  lemma BracketSumGrowth(a: real, b: real)
    requires a <= b
    ensures 0.0 <= BracketSum(Schedule, b) - BracketSum(Schedule, a)
                <= 0.35 * (SliceSum(Schedule, b) - SliceSum(Schedule, a))
  {
    var s := Schedule;
    Expanded(a);
    Expanded(b);
    SliceGrowth(s[0], a, b);
    SliceGrowth(s[1], a, b);
    SliceGrowth(s[2], a, b);
    SliceGrowth(s[3], a, b);
    SliceGrowth(s[4], a, b);
    SliceGrowth(s[5], a, b);
    SliceGrowth(s[6], a, b);
    WeightedGrowth(
      Slice(s[0], b) - Slice(s[0], a), Slice(s[1], b) - Slice(s[1], a), Slice(s[2], b) - Slice(s[2], a),
      Slice(s[3], b) - Slice(s[3], a), Slice(s[4], b) - Slice(s[4], a), Slice(s[5], b) - Slice(s[5], a),
      Slice(s[6], b) - Slice(s[6], a));
  }

  /** Growth of the seven slices, weighted by the seven rates. */
  lemma WeightedGrowth(d0: real, d1: real, d2: real, d3: real, d4: real, d5: real, d6: real)
    requires 0.0 <= d0 && 0.0 <= d1 && 0.0 <= d2 && 0.0 <= d3 && 0.0 <= d4 && 0.0 <= d5 && 0.0 <= d6
    ensures 0.0 <= d0 * 0.05 + d1 * 0.10 + d2 * 0.15 + d3 * 0.20 + d4 * 0.25 + d5 * 0.30 + d6 * 0.35
                <= 0.35 * (d0 + d1 + d2 + d3 + d4 + d5 + d6)
  {
  }
}
