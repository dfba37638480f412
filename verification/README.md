# Canada tax brackets: a verified model of the marginal-bracket calculator

The program computes income tax for a hypothetical income. It uses the
Canadian federal table and four provincial tables. For each jurisdiction it
walks an ordered list of brackets, each a limit and a marginal rate:

- every bracket whose limit is strictly below the income adds the income
  above that limit, times the increase of the bracket's rate over the
  previous bracket's rate (0 before the first bracket);
- the walk stops at the first bracket whose limit is at least the income;
- the basic personal amount, credited at the lowest bracket's rate, is then
  subtracted, and the result is floored at zero.

The combined tax for a city is the provincial tax plus the federal tax. The
after-tax income is the income less both.

This model has four modules:

- `TaxModel` (`tax_model.dfy`): the `TaxBracket`, `TaxCredits` and `Tax`
  records, the derived credit, and the five fixed tables. The Alberta table
  keeps the province label script.py gives it, "Ontario".
- `Calculator` (`calculator.dfy`): the bracket walk. `IncomeTax` is a
  method with the program's loop and its early exit, proved equal to the
  recursive specification `IncomeTaxOf`. This module also holds the
  combined tax and the after-tax income.
- `BracketProperties` (`bracket_properties.dfy`) proves these properties:
  - only the crossed prefix contributes;
  - limits are exclusive;
  - a non-positive income owes nothing;
  - the rate increases telescope into "rate times slice width";
  - the tax is monotone in income for ascending tables with non-negative
    rates, and a counterexample shows the ordering cannot be dropped.
- `FixedVectors` (`fixed_vectors.dfy`) holds the calculator's exact values
  on the fixed tables at an income of 100000.

Amounts and rates are exact `real`s. In exact arithmetic the federal table at
100000 gives 49020 × 0.15 + 49020 × 0.205 + 1960 × 0.26 = 17911.7 before the
credit. The credit is 13229 × 0.15 = 1984.35, so the tax owed is 15927.35.
The pure function `IncomeTaxOf` gives the same
result for the same inputs every time, so the idempotence of the calculator
needs no separate statement.

## Model

| member | source | states |
|---|---|---|
| `TaxModel.Tax.TotalTaxCredit` | script.py:27-29 | The credit is the basic personal amount at the first bracket's rate. It needs a non-empty bracket list. It is non-negative for a non-negative amount and rate, at most the basic personal amount when the rate is at most 1, and zero when the first rate is zero. |
| `TaxModel.FixedTablesAreWellFormed` | script.py:38-100 | Each of the five fixed tables has these properties: its bracket list is non-empty, its first limit is 0, its limits strictly ascend, its rates lie in [0, 1), and its basic personal amount is non-negative. |
| `Calculator.Accumulate` | script.py:104-112 | The bracket walk from a given previous rate, as a recursive definition: each bracket whose limit is strictly below the income adds (income − limit) × (rate − previous rate), and the walk stops at the first limit at or above the income. It has no contract of its own; its properties are the lemmas `OnlyCrossedPrefixContributes`, `LimitIsExclusive`, `AccumulateNonNegative` and `AccumulateTelescopes`. |
| `Calculator.RawAmount` | script.py:104-113 | The amount before the credit: the walk over the whole table starting from rate 0, the value of `amount` after the loop. It has no contract of its own; its properties are the lemmas `NothingBelowFirstLimit`, `RawAmountNonNegative` and `RawAmountIsSliceTax`. |
| `Calculator.IncomeTaxOf` | script.py:103-114 | The tax owed is never negative. It is at least the raw amount less the credit. When positive, it is exactly the raw amount less the credit. It is zero whenever the credit covers the raw amount. |
| `Calculator.IncomeTax` | script.py:103-114 | The loop over the brackets, with its accumulator, the previous bracket and the break at the first limit at or above the income, returns exactly `IncomeTaxOf`. The loop invariant says that the accumulator plus the remaining walk equals the whole walk. |
| `Calculator.TotalIncomeTax` | script.py:117-120 | The combined tax is the provincial tax plus the federal tax on the same income. It is at least each component. |
| `Calculator.AfterTaxIncome` | script.py:162-164 | The after-tax income plus the combined tax is the whole income. The after-tax income never exceeds the income. |
| `BracketProperties.Crossed` | script.py:106-108 | The number of brackets the walk crosses is at most the number of brackets. Every crossed bracket's limit is strictly below the income. The next bracket, if any, has a limit at or above the income. |
| `BracketProperties.OnlyCrossedPrefixContributes` | script.py:105-112 | The walk's total equals the sum of the crossed brackets' terms, each (income − limit) × (rate − previous rate). No later bracket contributes. |
| `BracketProperties.LimitIsExclusive` | script.py:107-108 | If the income is at most bracket k's limit, including exactly equal to it, then bracket k and all later brackets add nothing, whatever the order of the limits. |
| `BracketProperties.AccumulateNonNegative` | script.py:105-112 | When no rate is below the one before it (the first at least the starting rate), the walk never adds up to less than zero. |
| `BracketProperties.RawAmountNonNegative` | script.py:104-113 | When the rates never fall, starting from 0, the amount before the credit is never negative. |
| `BracketProperties.NothingBelowFirstLimit` | script.py:104-108 | Income at or below the first limit gives a raw amount of 0. |
| `BracketProperties.ZeroForNonPositiveIncome` | script.py:103-114 | A non-positive income owes 0 whenever the first limit is at least 0 and the credit is non-negative, as in every well-formed table. Repeated limits and rates of 1 or more are allowed. |
| `BracketProperties.SliceWidth` | script.py:105-112 | A bracket's slice of the income is non-negative. It is zero when the income is at or below the bracket's limit. It is no wider than the gap to the next limit. |
| `BracketProperties.AccumulateTelescopes` | script.py:105-112 | For ascending limits, a walk that starts after a bracket of rate p equals the slice form, less p times the income above the first limit when the income exceeds that limit. |
| `BracketProperties.RawAmountIsSliceTax` | script.py:103-112 | Telescoping: for ascending limits, the pre-credit amount equals the sum over brackets of each rate times the part of the income between its limit and the next limit (or the income). |
| `BracketProperties.IncomeTaxMonotone` | script.py:103-114 | For ascending limits and non-negative rates, more income never owes less tax. |
| `BracketProperties.WellFormedTaxIsMonotone` | script.py:103-114 | For every well-formed table, including the five fixed ones, more income never owes less tax. |
| `BracketProperties.UnsortedLimitsBreakMonotonicity` | script.py:103-114 | A table with non-negative rates but limits out of order owes less at 101 than at 100. Monotonicity therefore needs the ordering. |
| `FixedVectors.FederalAt100000` | script.py:38-50 | For the federal table at 100000, the raw amount is 17911.7, the credit is 1984.35 and the tax owed is 15927.35. |
| `FixedVectors.FederalAtSecondLimit` | script.py:43-46 | Income exactly at the federal limit 49020 is taxed at 0.15 only. |
| `FixedVectors.OntarioAt100000` | script.py:78-88 | For the Ontario table at 100000, the raw amount is 7494.4093, the credit is 549.44 and the tax owed is 6944.9693. |
| `FixedVectors.ReportAt100000` | script.py:147-164 | At an income of 100000, the provincial and combined taxes are exact for Vancouver, Edmonton, Montreal and Toronto, and so is the after-tax income in Toronto. |

## Left out

- Writing the generated document (opening, `println`, closing) is file output and is not modelled.
- Locale setup and currency formatting call a foreign library, and their output depends on the locale. They are not modelled.
- The report loop's string assembly is not modelled. Only its arithmetic is kept: `TotalIncomeTax`, `AfterTaxIncome` and `ReportAt100000`.
- Floating-point rounding is not modelled. Amounts and rates are exact reals.
- `TaxModel.Tax.TotalTaxCredit`: for an empty bracket list script.py raises an index error. The model states this as a precondition (a non-empty bracket list), and `IncomeTaxOf`, `IncomeTax`, `TotalIncomeTax` and `AfterTaxIncome` inherit it.
- The Alberta table's province label "Ontario" is copied as written. No computation reads it, so nothing is proved about it.
