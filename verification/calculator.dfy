/** The marginal-bracket calculator: the tax owed to one jurisdiction, the
    combined provincial and federal tax, and the after-tax income. */
module Calculator {
  import opened TaxModel

  function Max(a: real, b: real): (m: real)
    ensures m >= a && m >= b && (m == a || m == b)
  {
    if a >= b then a else b
  }

  function Min(a: real, b: real): (m: real)
    ensures m <= a && m <= b && (m == a || m == b)
  {
    if a <= b then a else b
  }

  /** What the bracket walk adds up, before the credit, when the bracket
      walked before `bs` had rate `previousRate`: each bracket whose limit is
      strictly below the income adds the income above its limit times the
      increase of its rate over the previous one; the walk stops at the first
      bracket whose limit is at least the income. */
  function Accumulate(income: real, bs: seq<TaxBracket>, previousRate: real): real
  {
    if bs == [] || income <= bs[0].incomeLimit then 0.0
    else (income - bs[0].incomeLimit) * (bs[0].taxRate - previousRate)
         + Accumulate(income, bs[1..], bs[0].taxRate)
  }

  /** The amount before the credit: the walk starts from a rate of 0. */
  function RawAmount(income: real, tax: Tax): real {
    Accumulate(income, tax.taxBrackets, 0.0)
  }

  /** The tax owed to one jurisdiction: the raw amount less the credit,
      floored at zero. The credit can lower the tax to zero but never
      turn it into a refund. */
  function IncomeTaxOf(income: real, tax: Tax): (owed: real)
    requires |tax.taxBrackets| > 0
    ensures owed >= 0.0
    ensures owed >= RawAmount(income, tax) - tax.TotalTaxCredit()
    ensures owed > 0.0 ==> owed == RawAmount(income, tax) - tax.TotalTaxCredit()
    ensures RawAmount(income, tax) <= tax.TotalTaxCredit() ==> owed == 0.0
  {
    Max(0.0, RawAmount(income, tax) - tax.TotalTaxCredit())
  }

  /** The bracket walk as the program runs it: one pass over the brackets
      with an accumulator and the previously crossed bracket, leaving the
      loop at the first bracket whose limit is at least the income. */
  method IncomeTax(income: real, tax: Tax) returns (owed: real)
    requires |tax.taxBrackets| > 0
    ensures owed == IncomeTaxOf(income, tax)
  {
    var brackets := tax.taxBrackets;
    var amount := 0.0;
    var previous := TaxBracket(0.0, 0.0);
    for i := 0 to |brackets|
      invariant amount + Accumulate(income, brackets[i..], previous.taxRate) == RawAmount(income, tax)
    {
      var bracket := brackets[i];
      if income <= bracket.incomeLimit {
        break;
      }
      amount := amount + (income - bracket.incomeLimit) * (bracket.taxRate - previous.taxRate);
      previous := bracket;
    }
    owed := Max(0.0, amount - tax.TotalTaxCredit());
  }

  /** The provincial tax plus the federal tax on the same income. */
  function TotalIncomeTax(income: real, provincial: Tax): (total: real)
    requires |provincial.taxBrackets| > 0
    ensures total >= IncomeTaxOf(income, provincial)
    ensures total >= IncomeTaxOf(income, Federal)
    ensures total - IncomeTaxOf(income, Federal) == IncomeTaxOf(income, provincial)
  {
    0.0 + IncomeTaxOf(income, provincial) + IncomeTaxOf(income, Federal)
  }

  /** The income left once the federal and the provincial tax are paid:
      together with the combined tax it makes up the whole income. */
  function AfterTaxIncome(income: real, provincial: Tax): (left: real)
    requires |provincial.taxBrackets| > 0
    ensures left + TotalIncomeTax(income, provincial) == income
    ensures left <= income
  {
    income - IncomeTaxOf(income, Federal) - IncomeTaxOf(income, provincial)
  }
}
