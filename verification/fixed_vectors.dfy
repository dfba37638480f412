/** The calculator on the fixed tables at the report's income of 100000,
    in exact arithmetic. */
module FixedVectors {
  import opened TaxModel
  import opened Calculator

  /** Federal: 49020 x 0.15 + 49020 x 0.205 + 1960 x 0.26 = 17911.7 before
      the credit of 13229 x 0.15 = 1984.35. */
  lemma FederalAt100000()
    ensures RawAmount(100000.0, Federal) == 17911.7
    ensures Federal.TotalTaxCredit() == 1984.35
    ensures IncomeTaxOf(100000.0, Federal) == 15927.35
  {
  }

  /** Income exactly at the second federal limit is taxed at the first rate
      only. */
  lemma FederalAtSecondLimit()
    ensures RawAmount(49020.0, Federal) == 49020.0 * 0.15
    ensures IncomeTaxOf(49020.0, Federal) == (49020.0 - 13229.0) * 0.15
  {
  }

  /** Ontario: 7494.4093 before the credit of 10880 x 5.05% = 549.44. */
  lemma OntarioAt100000()
    ensures RawAmount(100000.0, Ontario) == 7494.4093
    ensures Ontario.TotalTaxCredit() == 549.44
    ensures IncomeTaxOf(100000.0, Ontario) == 6944.9693
  {
  }

  /** The report's four cities at 100000: provincial tax, and the combined
      provincial and federal tax. */
  lemma ReportAt100000()
    ensures IncomeTaxOf(100000.0, BritishColumbia) == 6519.8947
    ensures TotalIncomeTax(100000.0, BritishColumbia) == 6519.8947 + 15927.35
    ensures IncomeTaxOf(100000.0, Alberta) == 8063.1
    ensures TotalIncomeTax(100000.0, Alberta) == 8063.1 + 15927.35
    ensures IncomeTaxOf(100000.0, Quebec) == 15806.95
    ensures TotalIncomeTax(100000.0, Quebec) == 15806.95 + 15927.35
    ensures IncomeTaxOf(100000.0, Ontario) == 6944.9693
    ensures TotalIncomeTax(100000.0, Ontario) == 6944.9693 + 15927.35
    ensures AfterTaxIncome(100000.0, Ontario) == 100000.0 - 6944.9693 - 15927.35
  {
    FederalAt100000();
    OntarioAt100000();
  }
}
