/**
 * The 2025/26 UK rate schedule: thresholds, band widths, rates, allowances and
 * the labels used to tag band entries.
 */
module TaxConstants {

  // Personal allowance, tapered above the income limit of section 35 of the Income Tax Act 2007.
  const StandardPersonalAllowance: real := 12570.0
  const PersonalAllowanceThreshold: real := 100000.0
  const PersonalAllowanceRemovalThreshold: real := 125140.0
  /** One pound of allowance is lost per two pounds over the threshold. */
  const PersonalAllowanceReductionRate: real := 0.5

  // Basic, higher and additional rates for general (non-savings, non-dividend) income.
  const BasicRateBand: real := 37700.0
  const BasicRate: real := 0.20
  const HigherRateBand: real := 125140.0
  const HigherRate: real := 0.40
  const AdditionalRate: real := 0.45

  // Dividend nil-rate allowance (section 13A ITA 2007) and dividend rates.
  const DividendAllowance: real := 500.0
  const DividendBasicRate: real := 0.0875
  const DividendHigherRate: real := 0.3375
  const DividendAdditionalRate: real := 0.3935

  // Savings nil-rate allowance (section 12A ITA 2007) by the highest rate reached.
  const SavingsAllowanceBasic: real := 1000.0
  const SavingsAllowanceHigher: real := 500.0
  const SavingsAllowanceAdditional: real := 0.0

  // Starting rate for savings (section 12 ITA 2007).
  const StartingRateForSavingsThreshold: real := 5000.0
  const StartingRateForSavings: real := 0.0

  /** Width of the higher-rate band: it sits on top of the basic-rate band. */
  const HigherBandWidth: real := HigherRateBand - BasicRateBand

  /** The category an entry belongs to (the `type` field of an entry). */
  datatype BandType = General | Savings | Dividends | Rental {
    function Label(): string {
      match this
      case General => "General"
      case Savings => "Savings"
      case Dividends => "Dividends"
      case Rental => "Rental"
    }
  }

  /** The band an entry belongs to (the `band` field of an entry). */
  datatype BandName = Allowance | Basic | Higher | Additional | Starting {
    function Label(): string {
      match this
      case Allowance => "Allowance"
      case Basic => "Basic"
      case Higher => "Higher"
      case Additional => "Additional"
      case Starting => "Starting"
    }

    /** Position of a rated band in the cascade; the nil-rate bands come first. */
    function Rank(): nat {
      match this
      case Allowance => 0
      case Starting => 0
      case Basic => 1
      case Higher => 2
      case Additional => 3
    }
  }

  /** The schedule is internally consistent: the shape the allocators rely on. */
  lemma ScheduleConsistent()
    ensures HigherBandWidth == 87440.0 && HigherBandWidth > 0.0
    ensures 0.0 < BasicRate < HigherRate < AdditionalRate
    ensures 0.0 < DividendBasicRate < DividendHigherRate < DividendAdditionalRate
    ensures SavingsAllowanceBasic >= SavingsAllowanceHigher >= SavingsAllowanceAdditional >= 0.0
    ensures PersonalAllowanceThreshold + StandardPersonalAllowance / PersonalAllowanceReductionRate
            == PersonalAllowanceRemovalThreshold
    ensures StartingRateForSavings == 0.0 && StartingRateForSavingsThreshold == 5000.0
    ensures DividendAllowance > 0.0
  {
  }

  /** Distinct bands and categories carry distinct labels. */
  lemma LabelsDistinct(a: BandName, b: BandName, k: BandType, l: BandType)
    ensures a.Label() == b.Label() ==> a == b
    ensures k.Label() == l.Label() ==> k == l
  {
  }
}
