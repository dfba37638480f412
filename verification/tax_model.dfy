/** The data model of the tax calculator: brackets, credits, a jurisdiction's
    tax table, and the five fixed tables the calculator is run against.
    Amounts and rates are exact reals. */
module TaxModel {

  /** One marginal bracket: income strictly above `incomeLimit` is taxed at
      (at least) `taxRate`. */
  datatype TaxBracket = TaxBracket(incomeLimit: real, taxRate: real)

  /** Non-refundable personal tax credits. */
  datatype TaxCredits = TaxCredits(basicPersonalAmount: real)

  /** A jurisdiction's tax table: its name, its credits and its brackets in
      ascending order of limit. */
  datatype Tax = Tax(province: string, taxCredits: TaxCredits, taxBrackets: seq<TaxBracket>)
  {
    /** The basic personal amount, credited at the lowest bracket's rate.
        For a well-formed table the credit lies between zero and the basic
        personal amount itself. */
    function TotalTaxCredit(): (c: real)
      requires |taxBrackets| > 0
      ensures 0.0 <= taxCredits.basicPersonalAmount && 0.0 <= taxBrackets[0].taxRate ==> 0.0 <= c
      ensures 0.0 <= taxCredits.basicPersonalAmount && taxBrackets[0].taxRate <= 1.0 ==> c <= taxCredits.basicPersonalAmount
      ensures taxBrackets[0].taxRate == 0.0 ==> c == 0.0
    {
      var amount, rate := taxCredits.basicPersonalAmount, taxBrackets[0].taxRate;
      assert amount - amount * rate == amount * (1.0 - rate);
      amount * rate
    }
  }

  /** Limits never decrease along the table. */
  predicate Ascending(bs: seq<TaxBracket>) {
    forall i, j :: 0 <= i < j < |bs| ==> bs[i].incomeLimit <= bs[j].incomeLimit
  }

  /** Each limit is strictly above the one before it. */
  predicate StrictlyAscending(bs: seq<TaxBracket>) {
    forall i :: 0 < i < |bs| ==> bs[i - 1].incomeLimit < bs[i].incomeLimit
  }

  /** Every rate is a fraction in [0, 1). */
  predicate RatesAreFractions(bs: seq<TaxBracket>) {
    forall i :: 0 <= i < |bs| ==> 0.0 <= bs[i].taxRate < 1.0
  }

  /** The shape every fixed table has: a non-empty bracket list starting at
      limit 0 with strictly ascending limits, fractional rates, and a
      non-negative basic personal amount. */
  predicate WellFormed(tax: Tax) {
    && |tax.taxBrackets| > 0
    && tax.taxBrackets[0].incomeLimit == 0.0
    && StrictlyAscending(tax.taxBrackets)
    && RatesAreFractions(tax.taxBrackets)
    && tax.taxCredits.basicPersonalAmount >= 0.0
  }

  lemma {:induction false} LimitsIncrease(bs: seq<TaxBracket>, i: nat, j: nat)
    requires StrictlyAscending(bs) && i < j < |bs|
    ensures bs[i].incomeLimit < bs[j].incomeLimit
    decreases j - i
  {
    if i + 1 < j {
      LimitsIncrease(bs, i + 1, j);
    }
  }

  /** Strictly increasing neighbours make the whole table ascending. */
  lemma StrictlyAscendingIsAscending(bs: seq<TaxBracket>)
    requires StrictlyAscending(bs)
    ensures Ascending(bs)
  {
    forall i, j | 0 <= i < j < |bs|
      ensures bs[i].incomeLimit <= bs[j].incomeLimit
    {
      LimitsIncrease(bs, i, j);
    }
  }

  // The fixed tables (2021 brackets).

  const Federal := Tax(
    "Federal",
    TaxCredits(13229.0),
    [
      TaxBracket(0.0, 0.15),
      TaxBracket(49020.0, 0.205),
      TaxBracket(98040.0, 0.26),
      TaxBracket(151978.0, 0.29),
      TaxBracket(216511.0, 0.33)
    ])

  const BritishColumbia := Tax(
    "British Columbia",
    TaxCredits(11070.0),
    [
      TaxBracket(0.0, 5.06 / 100.0),
      TaxBracket(42185.0, 7.70 / 100.0),
      TaxBracket(84370.0, 10.50 / 100.0),
      TaxBracket(96867.0, 12.29 / 100.0),
      TaxBracket(117624.0, 14.70 / 100.0),
      TaxBracket(159484.0, 16.80 / 100.0),
      TaxBracket(222421.0, 20.5 / 100.0)
    ])

  const Quebec := Tax(
    "Quebec",
    TaxCredits(15532.0),
    [
      TaxBracket(0.0, 15.00 / 100.0),
      TaxBracket(45105.0, 20.00 / 100.0),
      TaxBracket(90200.0, 24.00 / 100.0),
      TaxBracket(109755.0, 25.75 / 100.0)
    ])

  const Ontario := Tax(
    "Ontario",
    TaxCredits(10880.0),
    [
      TaxBracket(0.0, 5.05 / 100.0),
      TaxBracket(45142.0, 9.15 / 100.0),
      TaxBracket(90287.0, 11.16 / 100.0),
      TaxBracket(150000.0, 12.16 / 100.0),
      TaxBracket(220000.0, 13.16 / 100.0)
    ])

  /** The province label is "Ontario" in script.py's Alberta table as well;
      it takes part in no computation. */
  const Alberta := Tax(
    "Ontario",
    TaxCredits(19369.0),
    [
      TaxBracket(0.0, 10.0 / 100.0),
      TaxBracket(128145.0, 12.0 / 100.0),
      TaxBracket(153773.0, 13.0 / 100.0),
      TaxBracket(205031.0, 14.0 / 100.0),
      TaxBracket(307547.0, 15.0 / 100.0)
    ])

  lemma FederalIsWellFormed() ensures WellFormed(Federal) {}
  lemma BritishColumbiaIsWellFormed() ensures WellFormed(BritishColumbia) {}
  lemma QuebecIsWellFormed() ensures WellFormed(Quebec) {}
  lemma OntarioIsWellFormed() ensures WellFormed(Ontario) {}
  lemma AlbertaIsWellFormed() ensures WellFormed(Alberta) {}

  /** All five fixed tables are well formed, so every property proved for
      well-formed tables holds of them. */
  lemma FixedTablesAreWellFormed()
    ensures WellFormed(Federal) && WellFormed(BritishColumbia) && WellFormed(Quebec)
    ensures WellFormed(Ontario) && WellFormed(Alberta)
  {
    FederalIsWellFormed();
    BritishColumbiaIsWellFormed();
    QuebecIsWellFormed();
    OntarioIsWellFormed();
    AlbertaIsWellFormed();
  }
}
