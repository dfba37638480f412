/** What the bracket walk computes: which brackets take part, why income
    exactly at a limit stays in the lower bracket, how the rate increases
    add up to "rate times slice width", and monotonicity in income. */
module BracketProperties {
  import opened TaxModel
  import opened Calculator

  // ---------------------------------------------------------------------
  // Which brackets take part

  /** The number of leading brackets whose limit is strictly below the
      income: the walk crosses exactly these and stops at the next one. */
  function Crossed(income: real, bs: seq<TaxBracket>): (n: nat)
    ensures n <= |bs|
    ensures forall j :: 0 <= j < n ==> bs[j].incomeLimit < income
    ensures n < |bs| ==> income <= bs[n].incomeLimit
  {
    if bs == [] || income <= bs[0].incomeLimit then 0 else 1 + Crossed(income, bs[1..])
  }

  /** The sum of every bracket's term (income above the limit times the rate
      increase over the bracket before), with no stopping rule. */
  function DeltaSum(income: real, bs: seq<TaxBracket>, previousRate: real): real {
    if bs == [] then 0.0
    else (income - bs[0].incomeLimit) * (bs[0].taxRate - previousRate)
         + DeltaSum(income, bs[1..], bs[0].taxRate)
  }

  /** Only the crossed prefix contributes, and each crossed bracket adds its
      term in full. */
  lemma {:induction false} OnlyCrossedPrefixContributes(income: real, bs: seq<TaxBracket>, previousRate: real)
    ensures Accumulate(income, bs, previousRate) == DeltaSum(income, bs[..Crossed(income, bs)], previousRate)
  {
    if bs == [] || income <= bs[0].incomeLimit {
    } else {
      var n := Crossed(income, bs[1..]);
      OnlyCrossedPrefixContributes(income, bs[1..], bs[0].taxRate);
      assert bs[..1 + n][1..] == bs[1..][..n];
    }
  }

  /** Limits are exclusive: once the income is at most some bracket's limit
      (in particular exactly at it), that bracket and every later one add
      nothing, whatever their order. */
  lemma {:induction false} LimitIsExclusive(income: real, bs: seq<TaxBracket>, k: nat, previousRate: real)
    requires k < |bs| && income <= bs[k].incomeLimit
    ensures Accumulate(income, bs, previousRate) == Accumulate(income, bs[..k], previousRate)
  {
    if k == 0 || income <= bs[0].incomeLimit {
    } else {
      LimitIsExclusive(income, bs[1..], k - 1, bs[0].taxRate);
      assert bs[..k][1..] == bs[1..][..k - 1];
    }
  }

  /** No rate is below the one before it, and the first is at least
      `previousRate`. */
  predicate RatesRise(bs: seq<TaxBracket>, previousRate: real) {
    && (bs != [] ==> previousRate <= bs[0].taxRate)
    && forall i :: 0 < i < |bs| ==> bs[i - 1].taxRate <= bs[i].taxRate
  }

  /** When no rate falls below the one before it, every crossed bracket adds
      a non-negative term, so the walk never goes below zero. */
  lemma {:induction false} AccumulateNonNegative(income: real, bs: seq<TaxBracket>, previousRate: real)
    requires RatesRise(bs, previousRate)
    ensures Accumulate(income, bs, previousRate) >= 0.0
  {
    if bs != [] && bs[0].incomeLimit < income {
      assert RatesRise(bs[1..], bs[0].taxRate) by {
        forall i | 0 < i < |bs| - 1 ensures bs[1..][i - 1].taxRate <= bs[1..][i].taxRate {
          assert bs[1..][i - 1] == bs[i] && bs[1..][i] == bs[i + 1];
        }
      }
      AccumulateNonNegative(income, bs[1..], bs[0].taxRate);
      assert (income - bs[0].incomeLimit) * (bs[0].taxRate - previousRate) >= 0.0;
    }
  }

  /** With rates that never fall, starting from 0, the amount before the
      credit is never negative. */
  lemma RawAmountNonNegative(income: real, tax: Tax)
    requires RatesRise(tax.taxBrackets, 0.0)
    ensures RawAmount(income, tax) >= 0.0
  {
    AccumulateNonNegative(income, tax.taxBrackets, 0.0);
  }

  /** Income at or below the first limit owes nothing before the credit. */
  lemma NothingBelowFirstLimit(income: real, tax: Tax)
    requires |tax.taxBrackets| > 0 && income <= tax.taxBrackets[0].incomeLimit
    ensures RawAmount(income, tax) == 0.0
  {
  }

  /** A non-positive income owes no tax whenever the first limit is not
      negative and the credit is not negative, as in every well-formed
      table. */
  lemma ZeroForNonPositiveIncome(income: real, tax: Tax)
    requires |tax.taxBrackets| > 0 && income <= 0.0 <= tax.taxBrackets[0].incomeLimit
    requires tax.TotalTaxCredit() >= 0.0
    ensures IncomeTaxOf(income, tax) == 0.0
  {
    NothingBelowFirstLimit(income, tax);
  }

  // ---------------------------------------------------------------------
  // Telescoping into "rate times slice width"

  /** The part of the income that lies between the first bracket's limit and
      the next bracket's limit (or above the limit, for the last bracket). */
  function SliceWidth(income: real, bs: seq<TaxBracket>): (w: real)
    requires |bs| > 0
    ensures w >= 0.0
    ensures income <= bs[0].incomeLimit ==> w == 0.0
    ensures |bs| > 1 && bs[0].incomeLimit <= bs[1].incomeLimit ==> w <= bs[1].incomeLimit - bs[0].incomeLimit
  {
    if |bs| == 1 then Max(0.0, income - bs[0].incomeLimit)
    else Max(0.0, Min(income, bs[1].incomeLimit) - bs[0].incomeLimit)
  }

  /** The familiar form of marginal taxation: every bracket's rate times the
      width of the income slice it covers. */
  function SliceTax(income: real, bs: seq<TaxBracket>): real {
    if bs == [] then 0.0
    else SliceTerm(income, bs) + SliceTax(income, bs[1..])
  }

  /** The first bracket's share of the slice form: its rate times its slice. */
  function SliceTerm(income: real, bs: seq<TaxBracket>): real
    requires |bs| > 0
  {
    bs[0].taxRate * SliceWidth(income, bs)
  }

  lemma AscendingTail(bs: seq<TaxBracket>)
    requires |bs| > 0 && Ascending(bs)
    ensures Ascending(bs[1..])
  {
    forall i, j | 0 <= i < j < |bs| - 1
      ensures bs[1..][i].incomeLimit <= bs[1..][j].incomeLimit
    {
      assert bs[1..][i] == bs[i + 1] && bs[1..][j] == bs[j + 1];
    }
  }

  /** With ascending limits, no slice lies below the first limit. */
  lemma {:induction false} SliceTaxZeroBelow(income: real, bs: seq<TaxBracket>)
    requires Ascending(bs) && (bs != [] ==> income <= bs[0].incomeLimit)
    ensures SliceTax(income, bs) == 0.0
  {
    if bs != [] {
      AscendingTail(bs);
      if |bs| > 1 {
        assert bs[0].incomeLimit <= bs[1].incomeLimit;
      }
      SliceTaxZeroBelow(income, bs[1..]);
    }
  }

  /** The algebra of one telescoping step: the term of a crossed bracket,
      less its rate on the income above the next limit, is its rate on the
      gap up to the next limit, less the previous rate on the income above
      its own limit. */
  lemma StepAlgebra(income: real, l0: real, l1: real, r0: real, previousRate: real)
    ensures (income - l0) * (r0 - previousRate) - r0 * (income - l1)
            == r0 * (l1 - l0) - previousRate * (income - l0)
  {
    assert (income - l0) * (r0 - previousRate) == r0 * (income - l0) - previousRate * (income - l0);
    assert r0 * (income - l0) - r0 * (income - l1) == r0 * (l1 - l0);
  }

  /** The telescoping step when the income lies beyond the second limit: the
      first slice is the whole gap between the first two limits. */
  lemma TelescopeBeyond(income: real, bs: seq<TaxBracket>, previousRate: real)
    requires |bs| > 1 && bs[0].incomeLimit <= bs[1].incomeLimit < income
    requires Accumulate(income, bs[1..], bs[0].taxRate)
             == SliceTax(income, bs[1..]) - bs[0].taxRate * (income - bs[1].incomeLimit)
    ensures Accumulate(income, bs, previousRate)
            == SliceTax(income, bs) - previousRate * (income - bs[0].incomeLimit)
  {
    assert SliceWidth(income, bs) == bs[1].incomeLimit - bs[0].incomeLimit;
    assert SliceTerm(income, bs) == bs[0].taxRate * (bs[1].incomeLimit - bs[0].incomeLimit);
    StepAlgebra(income, bs[0].incomeLimit, bs[1].incomeLimit, bs[0].taxRate, previousRate);
  }

  /** The telescoping step when the income ends within the first slice: the
      rest of the walk and of the slices add nothing. */
  lemma TelescopeWithin(income: real, bs: seq<TaxBracket>, previousRate: real)
    requires |bs| > 0 && bs[0].incomeLimit < income
    requires |bs| > 1 ==> income <= bs[1].incomeLimit
    requires SliceTax(income, bs[1..]) == 0.0
    ensures Accumulate(income, bs, previousRate)
            == SliceTax(income, bs) - previousRate * (income - bs[0].incomeLimit)
  {
    assert Accumulate(income, bs[1..], bs[0].taxRate) == 0.0;
    assert SliceWidth(income, bs) == income - bs[0].incomeLimit;
    assert SliceTerm(income, bs) == bs[0].taxRate * (income - bs[0].incomeLimit);
    StepAlgebra(income, bs[0].incomeLimit, income, bs[0].taxRate, previousRate);
  }

  /** Generalised telescoping: a walk started after a bracket of rate
      `previousRate` gives the slice form less that rate on the income above
      the first limit. */
  lemma {:induction false} AccumulateTelescopes(income: real, bs: seq<TaxBracket>, previousRate: real)
    requires Ascending(bs)
    ensures Accumulate(income, bs, previousRate)
            == SliceTax(income, bs)
               - (if bs != [] && bs[0].incomeLimit < income then previousRate * (income - bs[0].incomeLimit) else 0.0)
  {
    if bs == [] {
    } else if income <= bs[0].incomeLimit {
      SliceTaxZeroBelow(income, bs);
    } else {
      AscendingTail(bs);
      if |bs| > 1 {
        assert bs[0].incomeLimit <= bs[1].incomeLimit;
      }
      AccumulateTelescopes(income, bs[1..], bs[0].taxRate);
      if |bs| > 1 && bs[1].incomeLimit < income {
        TelescopeBeyond(income, bs, previousRate);
      } else {
        SliceTaxZeroBelow(income, bs[1..]);
        TelescopeWithin(income, bs, previousRate);
      }
    }
  }

  /** Telescoping: with ascending limits the accumulated rate increases equal
      the sum of each bracket's rate times the width of its slice. */
  lemma RawAmountIsSliceTax(income: real, tax: Tax)
    requires Ascending(tax.taxBrackets)
    ensures RawAmount(income, tax) == SliceTax(income, tax.taxBrackets)
  {
    AccumulateTelescopes(income, tax.taxBrackets, 0.0);
  }

  // ---------------------------------------------------------------------
  // Monotonicity

  predicate NonNegativeRates(bs: seq<TaxBracket>) {
    forall i :: 0 <= i < |bs| ==> bs[i].taxRate >= 0.0
  }

  lemma SliceWidthMonotone(x: real, y: real, bs: seq<TaxBracket>)
    requires |bs| > 0 && x <= y
    ensures SliceWidth(x, bs) <= SliceWidth(y, bs)
  {
  }

  /** A bracket with a non-negative rate taxes a larger income's slice at
      least as much as a smaller one's. */
  lemma SliceTermMonotone(x: real, y: real, bs: seq<TaxBracket>)
    requires |bs| > 0 && bs[0].taxRate >= 0.0 && x <= y
    ensures SliceTerm(x, bs) <= SliceTerm(y, bs)
  {
    SliceWidthMonotone(x, y, bs);
    assert bs[0].taxRate * (SliceWidth(y, bs) - SliceWidth(x, bs)) >= 0.0;
    assert bs[0].taxRate * SliceWidth(y, bs) - bs[0].taxRate * SliceWidth(x, bs)
        == bs[0].taxRate * (SliceWidth(y, bs) - SliceWidth(x, bs));
  }

  /** One step of monotonicity: a bracket with a non-negative rate keeps the
      slice form monotone when the rest of the table is. */
  lemma SliceTaxMonotoneStep(x: real, y: real, bs: seq<TaxBracket>)
    requires |bs| > 0 && bs[0].taxRate >= 0.0 && x <= y
    requires SliceTax(x, bs[1..]) <= SliceTax(y, bs[1..])
    ensures SliceTax(x, bs) <= SliceTax(y, bs)
  {
    SliceTermMonotone(x, y, bs);
  }

  /** The slice form never decreases as income grows, when rates are
      non-negative. */
  lemma {:induction false} SliceTaxMonotone(x: real, y: real, bs: seq<TaxBracket>)
    requires NonNegativeRates(bs) && x <= y
    ensures SliceTax(x, bs) <= SliceTax(y, bs)
  {
    if bs != [] {
      assert NonNegativeRates(bs[1..]) by {
        forall i | 0 <= i < |bs| - 1 ensures bs[1..][i].taxRate >= 0.0 {
          assert bs[1..][i] == bs[i + 1];
        }
      }
      SliceTaxMonotone(x, y, bs[1..]);
      SliceTaxMonotoneStep(x, y, bs);
    }
  }

  /** With ascending limits and non-negative rates, the tax owed never
      decreases as income grows. */
  lemma IncomeTaxMonotone(x: real, y: real, tax: Tax)
    requires |tax.taxBrackets| > 0
    requires Ascending(tax.taxBrackets) && NonNegativeRates(tax.taxBrackets)
    requires x <= y
    ensures IncomeTaxOf(x, tax) <= IncomeTaxOf(y, tax)
  {
    RawAmountIsSliceTax(x, tax);
    RawAmountIsSliceTax(y, tax);
    SliceTaxMonotone(x, y, tax.taxBrackets);
  }

  /** Every well-formed table, the five fixed ones among them, charges more
      income at least as much tax. */
  lemma WellFormedTaxIsMonotone(x: real, y: real, tax: Tax)
    requires WellFormed(tax) && x <= y
    ensures IncomeTaxOf(x, tax) <= IncomeTaxOf(y, tax)
  {
    StrictlyAscendingIsAscending(tax.taxBrackets);
    IncomeTaxMonotone(x, y, tax);
  }

  /** Ascending limits cannot be dropped from monotonicity: with limits out
      of order (and non-negative rates) more income can owe less tax. */
  lemma UnsortedLimitsBreakMonotonicity()
    ensures var t := Tax("Unsorted", TaxCredits(0.0),
                         [TaxBracket(0.0, 0.5), TaxBracket(100.0, 1.0), TaxBracket(50.0, 0.5)]);
            NonNegativeRates(t.taxBrackets) && IncomeTaxOf(101.0, t) < IncomeTaxOf(100.0, t)
  {
  }
}
