/** The taxpayer's income record and the two totals derived from it. */
module TaxInput {
  import opened Wrappers

  /** Income figures for one tax year; `otherIncome` may be absent. */
  datatype TaxCalculationInput = TaxCalculationInput(
    salary: real,
    rentalIncome: real,
    pensionIncome: real,
    untaxedInterest: real,
    dividends: real,
    directPensionContrib: real,
    otherIncome: Option<real>)

  /** Every figure is non-negative: the caller's side of the engine's contract. */
  predicate NonNegative(input: TaxCalculationInput) {
    && input.salary >= 0.0 && input.rentalIncome >= 0.0 && input.pensionIncome >= 0.0
    && input.untaxedInterest >= 0.0 && input.dividends >= 0.0
    && input.directPensionContrib >= 0.0 && input.otherIncome.GetOr(0.0) >= 0.0
  }

  /** Total income: every source of income, an absent `otherIncome` counting as nothing. */
  function GetTotalIncome(input: TaxCalculationInput): (total: real)
    ensures total - input.otherIncome.GetOr(0.0)
            == input.salary + input.rentalIncome + input.pensionIncome
               + input.untaxedInterest + input.dividends
    ensures NonNegative(input) ==> total >= 0.0
  {
    input.salary + input.rentalIncome + input.pensionIncome
    + input.untaxedInterest + input.dividends + input.otherIncome.GetOr(0.0)
  }

  /** Adjusted net income: total income less direct pension contributions. */
  function GetAdjustedNetIncome(input: TaxCalculationInput): (ani: real)
    ensures ani + input.directPensionContrib == GetTotalIncome(input)
    ensures NonNegative(input) ==> ani <= GetTotalIncome(input)
  {
    GetTotalIncome(input) - input.directPensionContrib
  }

  /** A missing `otherIncome` behaves exactly like an explicit zero. */
  lemma MissingOtherIncomeIsZero(input: TaxCalculationInput)
    requires input.otherIncome == None
    ensures GetTotalIncome(input) == GetTotalIncome(input.(otherIncome := Some(0.0)))
    ensures GetAdjustedNetIncome(input) == GetAdjustedNetIncome(input.(otherIncome := Some(0.0)))
  {
  }
}
