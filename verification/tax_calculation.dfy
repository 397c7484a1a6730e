/**
 * The orchestrator: classifies income, tapers the personal allowance,
 * widens the basic-rate band by direct pension contributions, and threads
 * one basic-rate-band tracker through the general, savings and dividend
 * allocators in that order.
 */
module TaxCalculation {
  import opened Wrappers
  import opened Reals
  import opened TaxConstants
  import opened BasicRateBandTracker
  import opened AllowanceTracker
  import opened TaxInput
  import opened TaxBand
  import opened GeneralTax
  import opened SavingsTax
  import opened DividendTax

  /** Income by category, as the orchestrator classifies it. */
  datatype IncomeBreakdown = IncomeBreakdown(generalIncome: real, savingsIncome: real, dividendIncome: real)

  /** What the orchestrator reports. */
  datatype TaxCalculationResult = TaxCalculationResult(
    personalAllowance: real,
    brbExtended: real,
    incomeBreakdown: IncomeBreakdown,
    taxByBand: seq<TaxBandResult>,
    totalTax: real,
    effectiveTaxRate: real,
    taxableIncome: real)

  /**
   * Salary, rental and pension income are general income; untaxed interest
   * is savings income; dividends are dividend income. Other income belongs
   * to no category.
   */
  function CalculateIncomeBreakdown(input: TaxCalculationInput): (b: IncomeBreakdown)
    ensures b.generalIncome + b.savingsIncome + b.dividendIncome + input.otherIncome.GetOr(0.0)
            == GetTotalIncome(input)
    ensures b.savingsIncome == input.untaxedInterest && b.dividendIncome == input.dividends
  {
    IncomeBreakdown(input.salary + input.rentalIncome + input.pensionIncome, input.untaxedInterest, input.dividends)
  }

  /**
   * The personal allowance for an adjusted net income: the standard amount
   * up to the threshold, nothing from the removal threshold, and in between
   * the standard amount less half the excess, the reduction rounded down.
   */
  function CalculatePersonalAllowance(adjustedNetIncome: real): real {
    if adjustedNetIncome >= PersonalAllowanceRemovalThreshold then 0.0
    else if adjustedNetIncome <= PersonalAllowanceThreshold then StandardPersonalAllowance
    else
      var reduction := ((adjustedNetIncome - PersonalAllowanceThreshold) * PersonalAllowanceReductionRate).Floor as real;
      Max(0.0, StandardPersonalAllowance - reduction)
  }

  /** The order of the categories in the itemised result. */
  function KindOrder(k: BandType): nat {
    match k
    case General => 0
    case Savings => 1
    case Dividends => 2
    case Rental => 3
  }

  /** Lines appear grouped by category, in the allocators' order. */
  predicate InKindOrder(s: seq<TaxBandResult>) {
    forall i, j :: 0 <= i < j < |s| ==> KindOrder(s[i].kind) <= KindOrder(s[j].kind)
  }

  /**
   * Savings then dividends, after the general lines: the savings allocator
   * sees the general lines and the tracker they left; the dividend
   * allocator sees the tracker savings left.
   */
  function AfterGeneral(general: Allocation, g: real, s: real, d: real, pa: real): Allocation {
    var savings := CalculateSavingsTax(s, g, pa, general.tracker, general.entries);
    var dividends := CalculateDividendTax(d, savings.tracker);
    Allocation(general.entries + savings.entries + dividends.entries, dividends.tracker)
  }

  /**
   * The three allocators in order: general income after the personal
   * allowance, then savings, then dividends, one tracker threaded through.
   */
  function AllocateBands(g: real, s: real, d: real, pa: real, brb: BrbTracker): Allocation {
    var generalAfterAllowance := ApplyTo(PersonalAllowanceTracker(pa), g).0;
    AfterGeneral(CalculateGeneralIncomeTax(generalAfterAllowance, brb), g, s, d, pa)
  }

  /** The whole calculation for one input: the tapered allowance, then the rest. */
  function CalculateTax(input: TaxCalculationInput): TaxCalculationResult {
    Assess(input, CalculatePersonalAllowance(GetAdjustedNetIncome(input)))
  }

  /**
   * The calculation once the personal allowance `pa` is known: the basic
   * band extended by direct pension contributions, the three allocators in
   * order, and the report.
   */
  function Assess(input: TaxCalculationInput, pa: real): TaxCalculationResult {
    Report(input, pa, Bands(input, pa).entries)
  }

  /** The itemised allocation for `input` under allowance `pa`, from a basic band extended by direct pension contributions. */
  function Bands(input: TaxCalculationInput, pa: real): Allocation {
    AllocateBands(CalculateIncomeBreakdown(input).generalIncome, CalculateIncomeBreakdown(input).savingsIncome,
                  CalculateIncomeBreakdown(input).dividendIncome, pa, BrbTracker(BasicRateBand + input.directPensionContrib))
  }

  /**
   * The result for `input` once the allowance and the itemised lines are
   * known: total tax, the effective rate over total income (zero when
   * there is no income), and taxable income as income less the allowance.
   */
  function Report(input: TaxCalculationInput, pa: real, taxByBand: seq<TaxBandResult>): TaxCalculationResult {
    var breakdown := CalculateIncomeBreakdown(input);
    var totalTax := Total(taxByBand, Tax);
    var totalIncome := GetTotalIncome(input);
    TaxCalculationResult(
      pa,
      BasicRateBand + input.directPensionContrib,
      breakdown,
      taxByBand,
      totalTax,
      if totalIncome > 0.0 then totalTax / totalIncome else 0.0,
      Max(0.0, breakdown.generalIncome + breakdown.savingsIncome + breakdown.dividendIncome - pa))
  }

  // ---------------------------------------------------------------------
  // The personal allowance taper
  // ---------------------------------------------------------------------

  /**
   * The allowance lies between nothing and the standard amount; it is the
   * standard amount up to the threshold, and it is nothing exactly from the
   * removal threshold on: the taper itself never reaches zero earlier.
   */
  lemma PersonalAllowanceBounds(adjustedNetIncome: real)
    ensures var pa := CalculatePersonalAllowance(adjustedNetIncome);
      && 0.0 <= pa <= StandardPersonalAllowance
      && (adjustedNetIncome <= PersonalAllowanceThreshold ==> pa == StandardPersonalAllowance)
      && (pa == 0.0 <==> adjustedNetIncome >= PersonalAllowanceRemovalThreshold)
  {
    var x := adjustedNetIncome;
    if PersonalAllowanceThreshold < x < PersonalAllowanceRemovalThreshold {
      var half := (x - PersonalAllowanceThreshold) * PersonalAllowanceReductionRate;
      assert 0.0 < half < StandardPersonalAllowance;
      assert 0 <= half.Floor < 12570;
    }
  }

  /**
   * Inside the taper window the allowance is a whole number of pounds that
   * falls one pound for every two pounds of income over the threshold,
   * rounded in the taxpayer's favour: it exceeds the exact taper by less
   * than one pound.
   */
  lemma PersonalAllowanceTaper(adjustedNetIncome: real)
    requires PersonalAllowanceThreshold < adjustedNetIncome < PersonalAllowanceRemovalThreshold
    ensures var pa := CalculatePersonalAllowance(adjustedNetIncome);
      var exact := StandardPersonalAllowance - (adjustedNetIncome - PersonalAllowanceThreshold) / 2.0;
      && pa == pa.Floor as real
      && exact <= pa < exact + 1.0
      && 0.0 < pa <= StandardPersonalAllowance
  {
    var half := (adjustedNetIncome - PersonalAllowanceThreshold) * PersonalAllowanceReductionRate;
    var k := half.Floor;
    assert 0 <= k < 12570 by {
      assert 0.0 < half < StandardPersonalAllowance;
    }
    assert CalculatePersonalAllowance(adjustedNetIncome) == (12570 - k) as real;
    assert ((12570 - k) as real).Floor == 12570 - k;
  }

  /** More adjusted net income never buys a larger allowance. */
  lemma PersonalAllowanceAntitone(lower: real, higher: real)
    requires lower <= higher
    ensures CalculatePersonalAllowance(higher) <= CalculatePersonalAllowance(lower)
  {
    PersonalAllowanceBounds(lower);
    PersonalAllowanceBounds(higher);
    if PersonalAllowanceThreshold < lower && higher < PersonalAllowanceRemovalThreshold {
      var a := (lower - PersonalAllowanceThreshold) * PersonalAllowanceReductionRate;
      var b := (higher - PersonalAllowanceThreshold) * PersonalAllowanceReductionRate;
      assert a <= b;
      assert a.Floor <= b.Floor;
    }
  }

  // ---------------------------------------------------------------------
  // Joining the three allocations
  // ---------------------------------------------------------------------

  /**
   * Over general, then savings, then dividend lines, each category's amount
   * is its own part's amount, the sums add up part by part, and the lines
   * are in category order.
   */
  lemma JoinedKinds(x: seq<TaxBandResult>, y: seq<TaxBandResult>, z: seq<TaxBandResult>)
    requires AllOfKind(x, General) && AllOfKind(y, Savings) && AllOfKind(z, Dividends)
    ensures Total(x + y + z, AmountOf(General)) == Total(x, Amount)
    ensures Total(x + y + z, AmountOf(Savings)) == Total(y, Amount)
    ensures Total(x + y + z, AmountOf(Dividends)) == Total(z, Amount)
    ensures Total(x + y + z, Amount) == Total(x, Amount) + Total(y, Amount) + Total(z, Amount)
  {
    TotalAppend(x + y, z, Amount);
    TotalAppend(x, y, Amount);
    TotalAppend(x + y, z, AmountOf(General));
    TotalAppend(x, y, AmountOf(General));
    TotalAppend(x + y, z, AmountOf(Savings));
    TotalAppend(x, y, AmountOf(Savings));
    TotalAppend(x + y, z, AmountOf(Dividends));
    TotalAppend(x, y, AmountOf(Dividends));
    KindTotals(x, General, Savings);
    KindTotals(x, General, Dividends);
    KindTotals(y, Savings, General);
    KindTotals(y, Savings, Dividends);
    KindTotals(z, Dividends, General);
    KindTotals(z, Dividends, Savings);
  }

  /** General, then savings, then dividend lines are in category order. */
  lemma JoinedOrder(x: seq<TaxBandResult>, y: seq<TaxBandResult>, z: seq<TaxBandResult>)
    requires AllOfKind(x, General) && AllOfKind(y, Savings) && AllOfKind(z, Dividends)
    ensures InKindOrder(x + y + z)
  {
    var s := x + y + z;
    forall i, j | 0 <= i < j < |s|
      ensures KindOrder(s[i].kind) <= KindOrder(s[j].kind)
    {
      assert KindOrder(s[i].kind) == (if i < |x| then 0 else if i < |x| + |y| then 1 else 2);
      assert KindOrder(s[j].kind) == (if j < |x| then 0 else if j < |x| + |y| then 1 else 2);
    }
  }

  /** Positive, well-priced lines rated within `top` stay so when three runs are joined. */
  lemma JoinedPricing(x: seq<TaxBandResult>, y: seq<TaxBandResult>, z: seq<TaxBandResult>, top: real)
    requires AllPositive(x) && WellPriced(x) && RatesWithin(x, top)
    requires AllPositive(y) && WellPriced(y) && RatesWithin(y, top)
    requires AllPositive(z) && WellPriced(z) && RatesWithin(z, top)
    ensures AllPositive(x + y + z) && WellPriced(x + y + z) && RatesWithin(x + y + z, top)
  {
  }

  // ---------------------------------------------------------------------
  // Savings and dividends after any general allocation
  // ---------------------------------------------------------------------

  /**
   * After the general lines, the savings lines hold exactly the savings
   * income and the dividend lines exactly the dividend income, whatever
   * the general allocation was.
   */
  lemma AfterGeneralAmounts(general: Allocation, g: real, s: real, d: real, pa: real)
    requires AllOfKind(general.entries, General) && general.tracker.remaining >= 0.0
    ensures var r := AfterGeneral(general, g, s, d, pa);
      && Total(r.entries, AmountOf(General)) == Total(general.entries, Amount)
      && Total(r.entries, AmountOf(Savings)) == Max(0.0, s)
      && Total(r.entries, AmountOf(Dividends)) == Max(0.0, d)
      && Total(r.entries, Amount) == Total(general.entries, Amount) + Max(0.0, s) + Max(0.0, d)
  {
    var savings := CalculateSavingsTax(s, g, pa, general.tracker, general.entries);
    SavingsShape(s, g, pa, general.tracker, general.entries);
    SavingsConserves(s, g, pa, general.tracker, general.entries);
    DividendShape(d, savings.tracker);
    DividendConserves(d, savings.tracker);
    JoinedKinds(general.entries, savings.entries, CalculateDividendTax(d, savings.tracker).entries);
  }

  /**
   * One basic-rate band serves all three categories: what is left of it at
   * the end is what was left after the general lines less every later
   * basic line, and it never goes negative.
   */
  lemma AfterGeneralBasic(general: Allocation, g: real, s: real, d: real, pa: real, brb: real)
    requires general.tracker.remaining == brb - Total(general.entries, AmountIn(Basic))
    requires 0.0 <= general.tracker.remaining <= brb
    ensures var r := AfterGeneral(general, g, s, d, pa);
      && r.tracker.remaining == brb - Total(r.entries, AmountIn(Basic))
      && 0.0 <= r.tracker.remaining <= brb
  {
    var savings := CalculateSavingsTax(s, g, pa, general.tracker, general.entries);
    var dividends := CalculateDividendTax(d, savings.tracker);
    SavingsConserves(s, g, pa, general.tracker, general.entries);
    DividendConserves(d, savings.tracker);
    TotalAppend(general.entries + savings.entries, dividends.entries, AmountIn(Basic));
    TotalAppend(general.entries, savings.entries, AmountIn(Basic));
  }

  /**
   * The joined lines are positive and well priced, none is rated above the
   * additional rate, and they come in category order.
   */
  lemma AfterGeneralShape(general: Allocation, g: real, s: real, d: real, pa: real)
    requires AllOfKind(general.entries, General)
    requires AllPositive(general.entries) && WellPriced(general.entries)
    requires RatesWithin(general.entries, AdditionalRate)
    ensures var r := AfterGeneral(general, g, s, d, pa);
      && AllPositive(r.entries) && WellPriced(r.entries)
      && RatesWithin(r.entries, AdditionalRate)
      && InKindOrder(r.entries)
  {
    var savings := CalculateSavingsTax(s, g, pa, general.tracker, general.entries);
    var dividends := CalculateDividendTax(d, savings.tracker);
    SavingsShape(s, g, pa, general.tracker, general.entries);
    SavingsRatesWithin(s, g, pa, general.tracker, general.entries);
    DividendShape(d, savings.tracker);
    DividendRatesWithin(d, savings.tracker);
    assert RatesWithin(dividends.entries, AdditionalRate);
    JoinedPricing(general.entries, savings.entries, dividends.entries, AdditionalRate);
    JoinedOrder(general.entries, savings.entries, dividends.entries);
  }

  /**
   * Over general, then savings, then dividend lines, each category's tax is
   * its own part's tax and the whole tax is their sum.
   */
  lemma JoinedTaxes(x: seq<TaxBandResult>, y: seq<TaxBandResult>, z: seq<TaxBandResult>)
    requires AllOfKind(x, General) && AllOfKind(y, Savings) && AllOfKind(z, Dividends)
    ensures Total(x + y + z, TaxOf(General)) == Total(x, Tax)
    ensures Total(x + y + z, TaxOf(Savings)) == Total(y, Tax)
    ensures Total(x + y + z, TaxOf(Dividends)) == Total(z, Tax)
    ensures Total(x + y + z, Tax)
            == Total(x + y + z, TaxOf(General)) + Total(x + y + z, TaxOf(Savings))
               + Total(x + y + z, TaxOf(Dividends))
  {
    TotalAppend(x + y, z, Tax);
    TotalAppend(x, y, Tax);
    TotalAppend(x + y, z, TaxOf(General));
    TotalAppend(x, y, TaxOf(General));
    TotalAppend(x + y, z, TaxOf(Savings));
    TotalAppend(x, y, TaxOf(Savings));
    TotalAppend(x + y, z, TaxOf(Dividends));
    TotalAppend(x, y, TaxOf(Dividends));
    KindTotals(x, General, Savings);
    KindTotals(x, General, Dividends);
    KindTotals(y, Savings, General);
    KindTotals(y, Savings, Dividends);
    KindTotals(z, Dividends, General);
    KindTotals(z, Dividends, Savings);
  }

  /**
   * Whatever the general allocation, the whole tax is the three categories'
   * taxes together and at most the additional rate on the whole amount.
   */
  lemma AfterGeneralTax(general: Allocation, g: real, s: real, d: real, pa: real)
    requires AllOfKind(general.entries, General)
    requires AllPositive(general.entries) && WellPriced(general.entries)
    requires RatesWithin(general.entries, AdditionalRate)
    ensures var r := AfterGeneral(general, g, s, d, pa);
      && Total(r.entries, Tax)
         == Total(r.entries, TaxOf(General)) + Total(r.entries, TaxOf(Savings)) + Total(r.entries, TaxOf(Dividends))
      && 0.0 <= Total(r.entries, Tax) <= AdditionalRate * Total(r.entries, Amount)
  {
    var savings := CalculateSavingsTax(s, g, pa, general.tracker, general.entries);
    var dividends := CalculateDividendTax(d, savings.tracker);
    var r := AfterGeneral(general, g, s, d, pa);
    SavingsShape(s, g, pa, general.tracker, general.entries);
    DividendShape(d, savings.tracker);
    JoinedTaxes(general.entries, savings.entries, dividends.entries);
    AfterGeneralShape(general, g, s, d, pa);
    TaxBoundedByRate(r.entries, AdditionalRate);
  }

  // ---------------------------------------------------------------------
  // The three allocators in sequence
  // ---------------------------------------------------------------------

  /** The general allocation the three allocators start from, and what it guarantees. */
  lemma GeneralStage(g: real, pa: real, brb: BrbTracker)
    requires brb.remaining >= 0.0
    ensures var general := CalculateGeneralIncomeTax(ApplyTo(PersonalAllowanceTracker(pa), g).0, brb);
      && AllOfKind(general.entries, General)
      && AllPositive(general.entries) && WellPriced(general.entries)
      && RatesWithin(general.entries, AdditionalRate)
      && Total(general.entries, Amount) == Max(0.0, g - pa)
      && general.tracker.remaining == brb.remaining - Total(general.entries, AmountIn(Basic))
      && 0.0 <= general.tracker.remaining <= brb.remaining
  {
    GeneralContract(ApplyTo(PersonalAllowanceTracker(pa), g).0, brb);
  }

  /**
   * The personal allowance comes off general income only: the general lines
   * hold general income less the allowance, the savings and dividend lines
   * hold those incomes whole.
   */
  lemma BandsAmounts(g: real, s: real, d: real, pa: real, brb: BrbTracker)
    requires brb.remaining >= 0.0
    ensures var r := AllocateBands(g, s, d, pa, brb);
      && Total(r.entries, AmountOf(General)) == Max(0.0, g - pa)
      && Total(r.entries, AmountOf(Savings)) == Max(0.0, s)
      && Total(r.entries, AmountOf(Dividends)) == Max(0.0, d)
      && Total(r.entries, Amount) == Max(0.0, g - pa) + Max(0.0, s) + Max(0.0, d)
  {
    var general := CalculateGeneralIncomeTax(ApplyTo(PersonalAllowanceTracker(pa), g).0, brb);
    GeneralStage(g, pa, brb);
    AfterGeneralAmounts(general, g, s, d, pa);
  }

  /**
   * The categories share one basic-rate band: the basic lines of all three
   * together use exactly what the tracker lost, never more than it held.
   */
  lemma BandsShareBasic(g: real, s: real, d: real, pa: real, brb: BrbTracker)
    requires brb.remaining >= 0.0
    ensures var r := AllocateBands(g, s, d, pa, brb);
      && r.tracker.remaining == brb.remaining - Total(r.entries, AmountIn(Basic))
      && 0.0 <= r.tracker.remaining <= brb.remaining
  {
    var general := CalculateGeneralIncomeTax(ApplyTo(PersonalAllowanceTracker(pa), g).0, brb);
    GeneralStage(g, pa, brb);
    AfterGeneralBasic(general, g, s, d, pa, brb.remaining);
  }

  /**
   * The itemised lines are positive, well priced, rated no higher than the
   * additional rate, grouped general, savings, dividends; the tax on them is
   * at most the additional rate on their amount, and it is the sum of the
   * three categories' taxes.
   */
  lemma BandsShape(g: real, s: real, d: real, pa: real, brb: BrbTracker)
    requires brb.remaining >= 0.0
    ensures var r := AllocateBands(g, s, d, pa, brb);
      && AllPositive(r.entries) && WellPriced(r.entries)
      && RatesWithin(r.entries, AdditionalRate)
      && InKindOrder(r.entries)
  {
    var general := CalculateGeneralIncomeTax(ApplyTo(PersonalAllowanceTracker(pa), g).0, brb);
    GeneralStage(g, pa, brb);
    AfterGeneralShape(general, g, s, d, pa);
  }

  /** The tax on the itemised lines is the three categories' taxes together, and at most the additional rate on their amount. */
  lemma BandsTax(g: real, s: real, d: real, pa: real, brb: BrbTracker)
    requires brb.remaining >= 0.0
    ensures var r := AllocateBands(g, s, d, pa, brb);
      && Total(r.entries, Tax)
         == Total(r.entries, TaxOf(General)) + Total(r.entries, TaxOf(Savings)) + Total(r.entries, TaxOf(Dividends))
      && 0.0 <= Total(r.entries, Tax) <= AdditionalRate * Total(r.entries, Amount)
  {
    var general := CalculateGeneralIncomeTax(ApplyTo(PersonalAllowanceTracker(pa), g).0, brb);
    GeneralStage(g, pa, brb);
    AfterGeneralTax(general, g, s, d, pa);
  }

  // ---------------------------------------------------------------------
  // The report
  // ---------------------------------------------------------------------

  /** Taxable income against the itemised amount, for lines that hold general income less the allowance and the rest whole. */
  lemma ReportTaxable(input: TaxCalculationInput, pa: real, taxByBand: seq<TaxBandResult>)
    requires NonNegative(input) && pa >= 0.0
    requires var b := CalculateIncomeBreakdown(input);
      Total(taxByBand, Amount) == Max(0.0, b.generalIncome - pa) + b.savingsIncome + b.dividendIncome
    ensures var r := Report(input, pa, taxByBand);
      var b := r.incomeBreakdown;
      && r.taxableIncome <= Total(taxByBand, Amount)
      && (b.generalIncome >= pa ==> r.taxableIncome == Total(taxByBand, Amount))
      && (b.generalIncome < pa && b.savingsIncome + b.dividendIncome > 0.0
          ==> r.taxableIncome < Total(taxByBand, Amount))
  {
  }

  /** A quotient is at most `c` when the dividend is at most `c` times the positive divisor. */
  lemma QuotientBound(a: real, b: real, c: real)
    requires b > 0.0 && 0.0 <= a <= c * b
    ensures 0.0 <= a / b <= c
  {
    var q := a / b;
    assert q * b == a;
    if q > c {
      assert (q - c) * b > 0.0;
    }
  }

  /** The effective rate for lines taxed at no more than the additional rate on at most the total income. */
  lemma ReportRate(input: TaxCalculationInput, pa: real, taxByBand: seq<TaxBandResult>)
    requires NonNegative(input) && pa >= 0.0
    requires var b := CalculateIncomeBreakdown(input);
      Total(taxByBand, Amount) == Max(0.0, b.generalIncome - pa) + b.savingsIncome + b.dividendIncome
    requires 0.0 <= Total(taxByBand, Tax) <= AdditionalRate * Total(taxByBand, Amount)
    ensures var r := Report(input, pa, taxByBand);
      var income := GetTotalIncome(input);
      && 0.0 <= r.totalTax <= AdditionalRate * income
      && 0.0 <= r.effectiveTaxRate <= AdditionalRate
      && (income > 0.0 ==> r.effectiveTaxRate * income == r.totalTax)
      && (income == 0.0 ==> r.effectiveTaxRate == 0.0)
  {
    var income := GetTotalIncome(input);
    var tax := Total(taxByBand, Tax);
    assert Total(taxByBand, Amount) <= income;
    assert tax <= AdditionalRate * income;
    if income > 0.0 {
      QuotientBound(tax, income, AdditionalRate);
    }
  }

  // ---------------------------------------------------------------------
  // The calculation for a known allowance
  // ---------------------------------------------------------------------

  /** An input's allocation is the allocation of its three category totals from the extended band. */
  lemma BandsOfTotals(input: TaxCalculationInput, pa: real, g: real, s: real, d: real, brb: BrbTracker)
    requires g == CalculateIncomeBreakdown(input).generalIncome && s == CalculateIncomeBreakdown(input).savingsIncome
    requires d == CalculateIncomeBreakdown(input).dividendIncome
    requires brb == BrbTracker(BasicRateBand + input.directPensionContrib)
    ensures Bands(input, pa) == AllocateBands(g, s, d, pa, brb)
  {
  }

  /**
   * For non-negative figures and any allowance: general income less the
   * allowance, and savings and dividend income whole, are itemised, and
   * the basic lines fit in the extended band.
   */
  lemma BandsForAmounts(input: TaxCalculationInput, pa: real)
    requires NonNegative(input)
    ensures var e := Bands(input, pa).entries;
      var b := CalculateIncomeBreakdown(input);
      && Total(e, AmountOf(General)) == Max(0.0, b.generalIncome - pa)
      && Total(e, AmountOf(Savings)) == b.savingsIncome
      && Total(e, AmountOf(Dividends)) == b.dividendIncome
      && Total(e, Amount) == Max(0.0, b.generalIncome - pa) + b.savingsIncome + b.dividendIncome
      && 0.0 <= Total(e, AmountIn(Basic)) <= BasicRateBand + input.directPensionContrib
  {
    var b := CalculateIncomeBreakdown(input);
    var brb := BrbTracker(BasicRateBand + input.directPensionContrib);
    BandsOfTotals(input, pa, b.generalIncome, b.savingsIncome, b.dividendIncome, brb);
    BandsAmounts(b.generalIncome, b.savingsIncome, b.dividendIncome, pa, brb);
    BandsShareBasic(b.generalIncome, b.savingsIncome, b.dividendIncome, pa, brb);
  }

  /** The tax on the itemised lines is the categories' taxes together and at most the additional rate on their amount. */
  lemma BandsForTax(input: TaxCalculationInput, pa: real)
    requires NonNegative(input)
    ensures var e := Bands(input, pa).entries;
      && Total(e, Tax) == Total(e, TaxOf(General)) + Total(e, TaxOf(Savings)) + Total(e, TaxOf(Dividends))
      && 0.0 <= Total(e, Tax) <= AdditionalRate * Total(e, Amount)
  {
    var b := CalculateIncomeBreakdown(input);
    var brb := BrbTracker(BasicRateBand + input.directPensionContrib);
    BandsOfTotals(input, pa, b.generalIncome, b.savingsIncome, b.dividendIncome, brb);
    BandsTax(b.generalIncome, b.savingsIncome, b.dividendIncome, pa, brb);
  }

  /** The allocation facts, read off the result for any allowance that is not negative. */
  lemma AssessAllocates(input: TaxCalculationInput, pa: real)
    requires NonNegative(input) && 0.0 <= pa
    ensures var r := Assess(input, pa);
      var b := r.incomeBreakdown;
      && r.brbExtended >= BasicRateBand
      && Total(r.taxByBand, AmountOf(General)) == Max(0.0, b.generalIncome - pa)
      && Total(r.taxByBand, AmountOf(Savings)) == b.savingsIncome
      && Total(r.taxByBand, AmountOf(Dividends)) == b.dividendIncome
      && 0.0 <= Total(r.taxByBand, AmountIn(Basic)) <= r.brbExtended
  {
    BandsForAmounts(input, pa);
  }

  /** Taxable income against the itemised amount, for any allowance that is not negative. */
  lemma AssessTaxable(input: TaxCalculationInput, pa: real)
    requires NonNegative(input) && 0.0 <= pa
    ensures var r := Assess(input, pa);
      var b := r.incomeBreakdown;
      && r.taxableIncome <= Total(r.taxByBand, Amount)
      && (b.generalIncome >= pa ==> r.taxableIncome == Total(r.taxByBand, Amount))
      && (b.generalIncome < pa && b.savingsIncome + b.dividendIncome > 0.0
          ==> r.taxableIncome < Total(r.taxByBand, Amount))
  {
    BandsForAmounts(input, pa);
    ReportTaxable(input, pa, Bands(input, pa).entries);
  }

  /** Total tax is the three categories' taxes and at most the additional rate on total income, for any allowance that is not negative. */
  lemma AssessTotalTax(input: TaxCalculationInput, pa: real)
    requires NonNegative(input) && 0.0 <= pa
    ensures var r := Assess(input, pa);
      && r.totalTax
         == Total(r.taxByBand, TaxOf(General)) + Total(r.taxByBand, TaxOf(Savings)) + Total(r.taxByBand, TaxOf(Dividends))
      && 0.0 <= r.totalTax <= AdditionalRate * GetTotalIncome(input)
  {
    BandsForAmounts(input, pa);
    BandsForTax(input, pa);
    ReportRate(input, pa, Bands(input, pa).entries);
  }

  /** The effective rate lies between 0 and the additional rate, for any allowance that is not negative. */
  lemma AssessRate(input: TaxCalculationInput, pa: real)
    requires NonNegative(input) && 0.0 <= pa
    ensures 0.0 <= Assess(input, pa).effectiveTaxRate <= AdditionalRate
  {
    BandsForAmounts(input, pa);
    BandsForTax(input, pa);
    ReportRate(input, pa, Bands(input, pa).entries);
  }

  // ---------------------------------------------------------------------
  // The whole calculation
  // ---------------------------------------------------------------------

  /**
   * For non-negative figures: the allowance is the tapered one for the
   * adjusted net income and comes off general income only, the basic band
   * is widened by exactly the direct pension contributions, savings and
   * dividend income are itemised whole, and the basic lines of all
   * categories fit in the extended basic band.
   */
  lemma CalculateTaxAllocates(input: TaxCalculationInput)
    requires NonNegative(input)
    ensures var r := CalculateTax(input);
      var b := r.incomeBreakdown;
      && r.personalAllowance == CalculatePersonalAllowance(GetAdjustedNetIncome(input))
      && 0.0 <= r.personalAllowance <= StandardPersonalAllowance
      && r.brbExtended == BasicRateBand + input.directPensionContrib
      && Total(r.taxByBand, AmountOf(General)) == Max(0.0, b.generalIncome - r.personalAllowance)
      && Total(r.taxByBand, AmountOf(Savings)) == b.savingsIncome
      && Total(r.taxByBand, AmountOf(Dividends)) == b.dividendIncome
      && 0.0 <= Total(r.taxByBand, AmountIn(Basic)) <= r.brbExtended
  {
    PersonalAllowanceBounds(GetAdjustedNetIncome(input));
    AssessAllocates(input, CalculatePersonalAllowance(GetAdjustedNetIncome(input)));
  }

  /**
   * Taxable income as reported is what the itemised lines hold when general
   * income covers the allowance; when it does not, the unused allowance
   * lowers the reported figure but is offered to no savings or dividend
   * line, so the lines hold more.
   */
  lemma CalculateTaxTaxable(input: TaxCalculationInput)
    requires NonNegative(input)
    ensures var r := CalculateTax(input);
      var b := r.incomeBreakdown;
      && r.taxableIncome <= Total(r.taxByBand, Amount)
      && (b.generalIncome >= r.personalAllowance ==> r.taxableIncome == Total(r.taxByBand, Amount))
      && (b.generalIncome < r.personalAllowance && b.savingsIncome + b.dividendIncome > 0.0
          ==> r.taxableIncome < Total(r.taxByBand, Amount))
  {
    PersonalAllowanceBounds(GetAdjustedNetIncome(input));
    AssessTaxable(input, CalculatePersonalAllowance(GetAdjustedNetIncome(input)));
  }

  /**
   * For non-negative figures the total tax is the sum of the three
   * categories' taxes and at most the additional rate on total income.
   */
  lemma CalculateTaxTotal(input: TaxCalculationInput)
    requires NonNegative(input)
    ensures var r := CalculateTax(input);
      && r.totalTax
         == Total(r.taxByBand, TaxOf(General)) + Total(r.taxByBand, TaxOf(Savings)) + Total(r.taxByBand, TaxOf(Dividends))
      && 0.0 <= r.totalTax <= AdditionalRate * GetTotalIncome(input)
  {
    PersonalAllowanceBounds(GetAdjustedNetIncome(input));
    AssessTotalTax(input, CalculatePersonalAllowance(GetAdjustedNetIncome(input)));
  }

  /** For non-negative figures the effective rate lies between 0 and the additional rate. */
  lemma CalculateTaxRate(input: TaxCalculationInput)
    requires NonNegative(input)
    ensures 0.0 <= CalculateTax(input).effectiveTaxRate <= AdditionalRate
  {
    PersonalAllowanceBounds(GetAdjustedNetIncome(input));
    AssessRate(input, CalculatePersonalAllowance(GetAdjustedNetIncome(input)));
  }

  /**
   * Other income is in no category: changing it leaves the breakdown alone,
   * and, as long as the allowance comes out the same, the itemised lines too.
   */
  lemma OtherIncomeOnlyThroughAllowance(input: TaxCalculationInput, other: Option<real>)
    requires CalculatePersonalAllowance(GetAdjustedNetIncome(input))
             == CalculatePersonalAllowance(GetAdjustedNetIncome(input.(otherIncome := other)))
    ensures var r := CalculateTax(input);
      var r' := CalculateTax(input.(otherIncome := other));
      r'.incomeBreakdown == r.incomeBreakdown && r'.taxByBand == r.taxByBand
      && r'.totalTax == r.totalTax && r'.taxableIncome == r.taxableIncome
  {
    var changed := input.(otherIncome := other);
    var pa := CalculatePersonalAllowance(GetAdjustedNetIncome(input));
    var lines := Bands(input, pa).entries;
    assert CalculateTax(input) == Report(input, pa, lines) by { CalculateTaxIsReport(input, pa, lines); }
    assert CalculateTax(changed) == Report(changed, pa, lines) by {
      assert CalculateIncomeBreakdown(changed) == CalculateIncomeBreakdown(input);
      assert Bands(changed, pa).entries == lines;
      CalculateTaxIsReport(changed, pa, lines);
    }
    ReportIgnoresOther(input, other, pa, lines);
  }

  /** The report does not look at other income except through the total income. */
  lemma ReportIgnoresOther(input: TaxCalculationInput, other: Option<real>, pa: real, lines: seq<TaxBandResult>)
    ensures var r := Report(input, pa, lines);
      var r' := Report(input.(otherIncome := other), pa, lines);
      r'.incomeBreakdown == r.incomeBreakdown && r'.taxByBand == r.taxByBand
      && r'.totalTax == r.totalTax && r'.taxableIncome == r.taxableIncome
  {
  }

  /** Once the allowance and the itemised lines are known, the result is their report. */
  lemma CalculateTaxIsReport(input: TaxCalculationInput, pa: real, lines: seq<TaxBandResult>)
    requires CalculatePersonalAllowance(GetAdjustedNetIncome(input)) == pa
    requires Bands(input, pa).entries == lines
    ensures CalculateTax(input) == Report(input, pa, lines)
  {
  }

  // ---------------------------------------------------------------------
  // Worked cases
  // ---------------------------------------------------------------------

  /**
   * Interest of 1,000 beside general income of 35,000 that used 22,430 of
   * the basic band: no starting slice, the basic-rate savings allowance
   * covers it all at 0%, and the basic band still falls by 1,000.
   */
  lemma BasicRateTaxpayerSavings()
    ensures CalculateSavingsTax(1000.0, 35000.0, StandardPersonalAllowance, BrbTracker(15270.0),
                                [Line(Basic, General, 22430.0, BasicRate)])
            == Allocation([ZeroLine(Basic, Savings, 1000.0)], BrbTracker(14270.0))
  {
    var lg := Line(Basic, General, 22430.0, BasicRate);
    var zs := ZeroLine(Basic, Savings, 1000.0);
    assert StartingSlice(1000.0, 35000.0, StandardPersonalAllowance) == 0.0;
    var ls := Line(Basic, Savings, 1000.0, BasicRate);
    assert ProvisionalSplit(1000.0, BrbTracker(15270.0)) == Allocation([ls], BrbTracker(14270.0)) by {
      assert Step(Basic, Savings, 1000.0, BasicRate) == [ls];
    }
    assert InitialMaxRate([lg]) == BasicRate;
    assert RaiseMaxRate(BasicRate, [ls]) == BasicRate by {
      assert [ls][1..] == [];
    }
    assert CarveBack([ls], SavingsAllowanceBasic) == [zs] by {
      assert [ls][1..] == [];
      assert CarveOne(ls, SavingsAllowanceBasic) == [zs];
    }
    assert StartingLines(0.0) == [];
  }

  /** The allocation for salary and rent 35,000, interest 1,000 and dividends 500 under the full allowance. */
  lemma BasicRateTaxpayerBands()
    ensures AllocateBands(35000.0, 1000.0, 500.0, StandardPersonalAllowance, BrbTracker(BasicRateBand))
            == Allocation([Line(Basic, General, 22430.0, BasicRate),
                           ZeroLine(Basic, Savings, 1000.0),
                           ZeroLine(Allowance, Dividends, 500.0)], BrbTracker(14270.0))
  {
    var lg := Line(Basic, General, 22430.0, BasicRate);
    var general := Allocation([lg], BrbTracker(15270.0));
    assert ApplyTo(PersonalAllowanceTracker(StandardPersonalAllowance), 35000.0).0 == 22430.0;
    assert CalculateGeneralIncomeTax(22430.0, BrbTracker(BasicRateBand)) == general;
    BasicRateTaxpayerSavings();
    var zd := ZeroLine(Allowance, Dividends, 500.0);
    assert CalculateDividendTax(500.0, BrbTracker(14270.0)) == Allocation([zd], BrbTracker(14270.0)) by {
      assert Cascade(0.0, BrbTracker(14270.0), Dividends, DividendRates) == Allocation([], BrbTracker(14270.0));
    }
    assert [lg] + [ZeroLine(Basic, Savings, 1000.0)] + [zd] == [lg, ZeroLine(Basic, Savings, 1000.0), zd];
  }

  /**
   * Salary 30,000, rent 5,000, interest 1,000 and dividends 500: the full
   * allowance, 22,430 of general income at 20% (tax 4,486), the interest
   * covered by the 1,000 savings allowance and the dividends by the
   * dividend allowance.
   */
  lemma BasicRateTaxpayerExample()
    ensures var r := CalculateTax(TaxCalculationInput(30000.0, 5000.0, 0.0, 1000.0, 500.0, 0.0, None));
      && r.personalAllowance == StandardPersonalAllowance
      && r.brbExtended == BasicRateBand
      && r.incomeBreakdown == IncomeBreakdown(35000.0, 1000.0, 500.0)
      && r.taxByBand == [Line(Basic, General, 22430.0, BasicRate),
                         ZeroLine(Basic, Savings, 1000.0),
                         ZeroLine(Allowance, Dividends, 500.0)]
      && Total(r.taxByBand, TaxOf(General)) == 4486.0
      && Total(r.taxByBand, TaxOf(Savings)) == 0.0
      && Total(r.taxByBand, TaxOf(Dividends)) == 0.0
      && r.totalTax == 4486.0
  {
    var input := TaxCalculationInput(30000.0, 5000.0, 0.0, 1000.0, 500.0, 0.0, None);
    var pa := StandardPersonalAllowance;
    var lines := [Line(Basic, General, 22430.0, BasicRate),
                  ZeroLine(Basic, Savings, 1000.0),
                  ZeroLine(Allowance, Dividends, 500.0)];
    assert Total(lines, TaxOf(General)) == 4486.0 && Total(lines, TaxOf(Savings)) == 0.0
           && Total(lines, TaxOf(Dividends)) == 0.0 && Total(lines, Tax) == 4486.0 by {
      BasicRateTaxpayerTaxes();
    }
    assert CalculateTax(input) == Report(input, pa, lines) by {
      assert CalculatePersonalAllowance(GetAdjustedNetIncome(input)) == pa;
      BandsOfTotals(input, pa, 35000.0, 1000.0, 500.0, BrbTracker(BasicRateBand));
      BasicRateTaxpayerBands();
      CalculateTaxIsReport(input, pa, lines);
    }
  }

  /** The tax on the basic-rate taxpayer's lines, category by category. */
  lemma BasicRateTaxpayerTaxes()
    ensures var e := [Line(Basic, General, 22430.0, BasicRate),
                      ZeroLine(Basic, Savings, 1000.0),
                      ZeroLine(Allowance, Dividends, 500.0)];
      && Total(e, TaxOf(General)) == 4486.0
      && Total(e, TaxOf(Savings)) == 0.0
      && Total(e, TaxOf(Dividends)) == 0.0
      && Total(e, Tax) == 4486.0
  {
    var lg, zs, zd := Line(Basic, General, 22430.0, BasicRate), ZeroLine(Basic, Savings, 1000.0), ZeroLine(Allowance, Dividends, 500.0);
    TotalSmall(lg, zs, zd, TaxOf(General));
    TotalSmall(lg, zs, zd, TaxOf(Savings));
    TotalSmall(lg, zs, zd, TaxOf(Dividends));
    TotalSmall(lg, zs, zd, Tax);
  }

  /** General income of 150,000 with no allowance: the three bands of the general schedule. */
  function AdditionalRateGeneralLines(): seq<TaxBandResult> {
    [Line(Basic, General, 37700.0, BasicRate), Line(Higher, General, 87440.0, HigherRate),
     Line(Additional, General, 24860.0, AdditionalRate)]
  }

  /** The itemised lines for salary 150,000, interest 5,000 and dividends 10,000. */
  function AdditionalRateTaxpayerLines(): seq<TaxBandResult> {
    AdditionalRateGeneralLines()
    + [Line(Higher, Savings, 5000.0, HigherRate)]
    + [ZeroLine(Allowance, Dividends, 500.0), Line(Higher, Dividends, 9500.0, DividendHigherRate)]
  }

  /** Those general lines reach the additional rate. */
  lemma AdditionalRateGeneralMax()
    ensures InitialMaxRate(AdditionalRateGeneralLines()) == AdditionalRate
  {
    var g := AdditionalRateGeneralLines();
    assert g[1..] == [g[1], g[2]];
    assert g[1..][1..] == [g[2]];
  }

  /**
   * Interest of 5,000 after general lines that reached the additional rate
   * and used the whole basic band: no savings allowance, and the interest
   * lands in the savings category's own higher band at 40%.
   */
  lemma AdditionalRateTaxpayerSavings(generalLines: seq<TaxBandResult>)
    requires InitialMaxRate(generalLines) == AdditionalRate
    ensures CalculateSavingsTax(5000.0, 150000.0, 0.0, BrbTracker(0.0), generalLines)
            == Allocation([Line(Higher, Savings, 5000.0, HigherRate)], BrbTracker(0.0))
  {
    var t := BrbTracker(0.0);
    assert CalculateSavingsTax(5000.0, 150000.0, 0.0, t, generalLines)
           == SavingsFromSlice(5000.0, 0.0, t, generalLines) by {
      assert StartingSlice(5000.0, 150000.0, 0.0) == 0.0;
    }
    HigherSavingsPending();
    HigherSavingsStands();
  }

  /** With no basic band left, 5,000 of savings is provisionally all higher rate. */
  lemma HigherSavingsPending()
    ensures ProvisionalSplit(5000.0, BrbTracker(0.0))
            == Allocation([Line(Higher, Savings, 5000.0, HigherRate)], BrbTracker(0.0))
  {
    var t := BrbTracker(0.0);
    assert Use(t, 5000.0) == (0.0, t);
    assert Step(Basic, Savings, 0.0, BasicRate) == [];
    assert Step(Higher, Savings, 5000.0, HigherRate) == [Line(Higher, Savings, 5000.0, HigherRate)];
    assert Step(Additional, Savings, 0.0, AdditionalRate) == [];
  }

  /** Once the additional rate is reached there is no allowance to carve, so a pending higher line stands. */
  lemma HigherSavingsStands()
    ensures var lh := Line(Higher, Savings, 5000.0, HigherRate);
      Assemble(0.0, Allocation([lh], BrbTracker(0.0)), AdditionalRate) == Allocation([lh], BrbTracker(0.0))
  {
    var lh := Line(Higher, Savings, 5000.0, HigherRate);
    assert [lh][1..] == [];
    assert RaiseMaxRate(AdditionalRate, [lh]) == AdditionalRate;
    assert lh == TaxBandResult(Higher, Savings, 5000.0, HigherRate, 2000.0);
    assert CarveOne(lh, 0.0) == [lh];
    assert CarveBack([lh], SavingsAllowanceAdditional) == [lh];
    assert StartingLines(0.0) == [];
  }

  /** The allocation for general income 150,000, interest 5,000 and dividends 10,000 with no allowance. */
  lemma AdditionalRateTaxpayerBands()
    ensures AllocateBands(150000.0, 5000.0, 10000.0, 0.0, BrbTracker(BasicRateBand))
            == Allocation(AdditionalRateTaxpayerLines(), BrbTracker(0.0))
  {
    assert ApplyTo(PersonalAllowanceTracker(0.0), 150000.0).0 == 150000.0;
    AdditionalRateGeneral();
    AdditionalRateGeneralMax();
    AdditionalRateTaxpayerSavings(AdditionalRateGeneralLines());
    AdditionalRateDividends();
  }

  /** General income of 150,000 fills the basic and higher bands and spills 24,860 into the additional band. */
  lemma AdditionalRateGeneral()
    ensures CalculateGeneralIncomeTax(150000.0, BrbTracker(BasicRateBand))
            == Allocation(AdditionalRateGeneralLines(), BrbTracker(0.0))
  {
  }

  /** Dividends of 10,000 with no basic band left: the 500 allowance, then 9,500 at the dividend higher rate. */
  lemma AdditionalRateDividends()
    ensures CalculateDividendTax(10000.0, BrbTracker(0.0))
            == Allocation([ZeroLine(Allowance, Dividends, 500.0), Line(Higher, Dividends, 9500.0, DividendHigherRate)],
                          BrbTracker(0.0))
  {
  }

  /**
   * The tax on the additional-rate taxpayer's lines: 53,703 general, 2,000
   * savings, 3,206.25 dividends; and the higher-band lines of the three
   * categories together exceed the width of one higher band.
   */
  lemma AdditionalRateTaxpayerTaxes()
    ensures var e := AdditionalRateTaxpayerLines();
      && Total(e, TaxOf(General)) == 53703.0
      && Total(e, TaxOf(Savings)) == 2000.0
      && Total(e, TaxOf(Dividends)) == 3206.25
      && Total(e, Tax) == 58909.25
      && Total(e, AmountIn(Higher)) == 101940.0 > HigherBandWidth
  {
    var g := AdditionalRateGeneralLines();
    var sv := [Line(Higher, Savings, 5000.0, HigherRate)];
    var dv := [ZeroLine(Allowance, Dividends, 500.0), Line(Higher, Dividends, 9500.0, DividendHigherRate)];
    JoinedTaxes(g, sv, dv);
    TotalSmall(g[0], g[1], g[2], Tax);
    TotalSmall(g[0], g[1], g[2], AmountIn(Higher));
    TotalSmall(sv[0], sv[0], sv[0], Tax);
    TotalSmall(sv[0], sv[0], sv[0], AmountIn(Higher));
    TotalSmall(dv[0], dv[1], dv[1], Tax);
    TotalSmall(dv[0], dv[1], dv[1], AmountIn(Higher));
    TotalAppend(g + sv, dv, AmountIn(Higher));
    TotalAppend(g, sv, AmountIn(Higher));
  }

  /**
   * Salary 150,000, interest 5,000 and dividends 10,000: no allowance, the
   * basic band unextended, and the lines above, for tax of 58,909.25. The
   * savings and dividend lines each open a fresh higher band.
   */
  lemma AdditionalRateTaxpayerExample()
    ensures var r := CalculateTax(TaxCalculationInput(150000.0, 0.0, 0.0, 5000.0, 10000.0, 0.0, None));
      && r.personalAllowance == 0.0
      && r.brbExtended == BasicRateBand
      && r.taxByBand == AdditionalRateTaxpayerLines()
      && r.totalTax == 58909.25
  {
    AdditionalRateTaxpayerReport();
    AdditionalRateTaxpayerTaxes();
  }

  /** The additional-rate taxpayer's result is the report on no allowance and the lines above. */
  lemma AdditionalRateTaxpayerReport()
    ensures var input := TaxCalculationInput(150000.0, 0.0, 0.0, 5000.0, 10000.0, 0.0, None);
      CalculateTax(input) == Report(input, 0.0, AdditionalRateTaxpayerLines())
  {
    var input := TaxCalculationInput(150000.0, 0.0, 0.0, 5000.0, 10000.0, 0.0, None);
    assert CalculatePersonalAllowance(GetAdjustedNetIncome(input)) == 0.0;
    BandsOfTotals(input, 0.0, 150000.0, 5000.0, 10000.0, BrbTracker(BasicRateBand));
    AdditionalRateTaxpayerBands();
    CalculateTaxIsReport(input, 0.0, AdditionalRateTaxpayerLines());
  }

  /** A salary of 110,000 tapers the allowance to 7,570: reduced, but not to nothing. */
  lemma TaperedAllowanceExample()
    ensures var r := CalculateTax(TaxCalculationInput(110000.0, 0.0, 0.0, 0.0, 0.0, 0.0, None));
      && r.personalAllowance == 7570.0
      && 0.0 < r.personalAllowance < StandardPersonalAllowance
  {
    var input := TaxCalculationInput(110000.0, 0.0, 0.0, 0.0, 0.0, 0.0, None);
    assert GetAdjustedNetIncome(input) == 110000.0;
    assert (5000.0).Floor == 5000;
  }

  /**
   * Salary 110,270 with 60,000 of direct pension contributions: adjusted net
   * income 50,270 keeps the full allowance, the basic band widens to 97,700
   * and holds all 97,700 of taxable general income, so nothing is taxed at
   * the higher rate.
   */
  lemma PensionExtendedBandExample()
    ensures var r := CalculateTax(TaxCalculationInput(110270.0, 0.0, 0.0, 0.0, 0.0, 60000.0, None));
      && r.personalAllowance == StandardPersonalAllowance
      && r.brbExtended == BasicRateBand + 60000.0
      && r.taxByBand == [Line(Basic, General, 97700.0, BasicRate)]
      && r.totalTax == 19540.0
      && !HasBand(r.taxByBand, Higher)
  {
    var input := TaxCalculationInput(110270.0, 0.0, 0.0, 0.0, 0.0, 60000.0, None);
    var lb := Line(Basic, General, 97700.0, BasicRate);
    assert Total([lb], Tax) == 19540.0 && !HasBand([lb], Higher) by {
      TotalSmall(lb, lb, lb, Tax);
      OneBasicLine(lb);
    }
    assert CalculateTax(input) == Report(input, StandardPersonalAllowance, [lb]) by {
      assert CalculatePersonalAllowance(GetAdjustedNetIncome(input)) == StandardPersonalAllowance;
      BandsOfTotals(input, StandardPersonalAllowance, 110270.0, 0.0, 0.0, BrbTracker(97700.0));
      PensionExtendedBands();
      CalculateTaxIsReport(input, StandardPersonalAllowance, [lb]);
    }
  }

  /** A list holding only a basic-band line has no higher-band line. */
  lemma OneBasicLine(e: TaxBandResult)
    requires e.band == Basic
    ensures !HasBand([e], Higher)
  {
  }

  /** The allocation for general income 110,270 under the full allowance and a 97,700 basic band. */
  lemma PensionExtendedBands()
    ensures AllocateBands(110270.0, 0.0, 0.0, StandardPersonalAllowance, BrbTracker(97700.0))
            == Allocation([Line(Basic, General, 97700.0, BasicRate)], BrbTracker(0.0))
  {
    assert ApplyTo(PersonalAllowanceTracker(StandardPersonalAllowance), 110270.0).0 == 97700.0;
    assert CalculateGeneralIncomeTax(97700.0, BrbTracker(97700.0))
           == Allocation([Line(Basic, General, 97700.0, BasicRate)], BrbTracker(0.0));
    assert CalculateSavingsTax(0.0, 110270.0, StandardPersonalAllowance, BrbTracker(0.0),
                               [Line(Basic, General, 97700.0, BasicRate)])
           == Allocation([], BrbTracker(0.0));
    assert CalculateDividendTax(0.0, BrbTracker(0.0)) == Allocation([], BrbTracker(0.0));
    assert [Line(Basic, General, 97700.0, BasicRate)] + [] + [] == [Line(Basic, General, 97700.0, BasicRate)];
  }

  /** The itemised lines for rent 25,000, interest 2,000 and dividends 20,000 with a 42,700 basic band. */
  function MixedIncomeLines(): seq<TaxBandResult> {
    [Line(Basic, General, 12430.0, BasicRate)]
    + [ZeroLine(Basic, Savings, 1000.0), Line(Basic, Savings, 1000.0, BasicRate)]
    + [ZeroLine(Allowance, Dividends, 500.0), Line(Basic, Dividends, 19500.0, DividendBasicRate)]
  }

  /**
   * Interest of 2,000 after basic-rate general lines: no starting slice,
   * 1,000 at 0% under the basic-rate savings allowance and 1,000 at 20%.
   */
  lemma MixedIncomeSavings()
    ensures CalculateSavingsTax(2000.0, 25000.0, StandardPersonalAllowance, BrbTracker(30270.0),
                                [Line(Basic, General, 12430.0, BasicRate)])
            == Allocation([ZeroLine(Basic, Savings, 1000.0), Line(Basic, Savings, 1000.0, BasicRate)], BrbTracker(28270.0))
  {
    var lg := Line(Basic, General, 12430.0, BasicRate);
    var t := BrbTracker(30270.0);
    assert CalculateSavingsTax(2000.0, 25000.0, StandardPersonalAllowance, t, [lg])
           == SavingsFromSlice(2000.0, 0.0, t, [lg]) by {
      assert StartingSlice(2000.0, 25000.0, StandardPersonalAllowance) == 0.0;
    }
    assert InitialMaxRate([lg]) == BasicRate;
    MixedIncomePending();
    MixedIncomeCarve();
  }

  /** 2,000 of savings inside the basic band is provisionally one basic-rate line. */
  lemma MixedIncomePending()
    ensures ProvisionalSplit(2000.0, BrbTracker(30270.0))
            == Allocation([Line(Basic, Savings, 2000.0, BasicRate)], BrbTracker(28270.0))
  {
    assert Use(BrbTracker(30270.0), 2000.0) == (2000.0, BrbTracker(28270.0));
    assert Step(Basic, Savings, 2000.0, BasicRate) == [Line(Basic, Savings, 2000.0, BasicRate)];
    assert Step(Higher, Savings, 0.0, HigherRate) == [];
    assert Step(Additional, Savings, 0.0, AdditionalRate) == [];
  }

  /** At the basic rate the 1,000 allowance is carved from the front of the basic line. */
  lemma MixedIncomeCarve()
    ensures var ls := Line(Basic, Savings, 2000.0, BasicRate);
      Assemble(0.0, Allocation([ls], BrbTracker(28270.0)), BasicRate)
      == Allocation([ZeroLine(Basic, Savings, 1000.0), Line(Basic, Savings, 1000.0, BasicRate)], BrbTracker(28270.0))
  {
    var ls := Line(Basic, Savings, 2000.0, BasicRate);
    assert [ls][1..] == [];
    assert RaiseMaxRate(BasicRate, [ls]) == BasicRate;
    assert CarveOne(ls, SavingsAllowanceBasic) == [ZeroLine(Basic, Savings, 1000.0), Line(Basic, Savings, 1000.0, BasicRate)];
    assert CarveBack([ls], SavingsAllowanceBasic) == CarveOne(ls, SavingsAllowanceBasic) + CarveBack([], 0.0);
    assert StartingLines(0.0) == [];
  }

  /** The allocation for rent 25,000, interest 2,000 and dividends 20,000 with a 42,700 basic band. */
  lemma MixedIncomeBands()
    ensures AllocateBands(25000.0, 2000.0, 20000.0, StandardPersonalAllowance, BrbTracker(42700.0))
            == Allocation(MixedIncomeLines(), BrbTracker(8770.0))
  {
    assert ApplyTo(PersonalAllowanceTracker(StandardPersonalAllowance), 25000.0).0 == 12430.0;
    MixedIncomeGeneral();
    MixedIncomeSavings();
    MixedIncomeDividends();
  }

  /** 12,430 of general income inside a 42,700 basic band. */
  lemma MixedIncomeGeneral()
    ensures CalculateGeneralIncomeTax(12430.0, BrbTracker(42700.0))
            == Allocation([Line(Basic, General, 12430.0, BasicRate)], BrbTracker(30270.0))
  {
  }

  /** Dividends of 20,000 with 28,270 of basic band left: the 500 allowance, then 19,500 at the dividend basic rate. */
  lemma MixedIncomeDividends()
    ensures CalculateDividendTax(20000.0, BrbTracker(28270.0))
            == Allocation([ZeroLine(Allowance, Dividends, 500.0), Line(Basic, Dividends, 19500.0, DividendBasicRate)],
                          BrbTracker(8770.0))
  {
  }

  /** The tax on the mixed-income lines: 2,486 general, 200 savings, 1,706.25 dividends. */
  lemma MixedIncomeTaxes()
    ensures var e := MixedIncomeLines();
      && Total(e, TaxOf(General)) == 2486.0
      && Total(e, TaxOf(Savings)) == 200.0
      && Total(e, TaxOf(Dividends)) == 1706.25
      && Total(e, Tax) == 4392.25
  {
    var g := [Line(Basic, General, 12430.0, BasicRate)];
    var sv := [ZeroLine(Basic, Savings, 1000.0), Line(Basic, Savings, 1000.0, BasicRate)];
    var dv := [ZeroLine(Allowance, Dividends, 500.0), Line(Basic, Dividends, 19500.0, DividendBasicRate)];
    JoinedTaxes(g, sv, dv);
    TotalSmall(g[0], g[0], g[0], Tax);
    TotalSmall(sv[0], sv[1], sv[1], Tax);
    TotalSmall(dv[0], dv[1], dv[1], Tax);
  }

  /**
   * Rent 25,000, interest 2,000, dividends 20,000 and 5,000 of direct
   * pension contributions: the full allowance, a basic band of 42,700, and
   * tax in every category, 4,392.25 in all.
   */
  lemma MixedIncomeExample()
    ensures var r := CalculateTax(TaxCalculationInput(0.0, 25000.0, 0.0, 2000.0, 20000.0, 5000.0, None));
      && r.personalAllowance == StandardPersonalAllowance
      && r.brbExtended == BasicRateBand + 5000.0
      && r.incomeBreakdown == IncomeBreakdown(25000.0, 2000.0, 20000.0)
      && r.taxByBand == MixedIncomeLines()
      && r.totalTax == 4392.25
  {
    var input := TaxCalculationInput(0.0, 25000.0, 0.0, 2000.0, 20000.0, 5000.0, None);
    var lines := MixedIncomeLines();
    assert Total(lines, Tax) == 4392.25 by {
      MixedIncomeTaxes();
    }
    assert CalculateTax(input) == Report(input, StandardPersonalAllowance, lines) by {
      assert CalculatePersonalAllowance(GetAdjustedNetIncome(input)) == StandardPersonalAllowance;
      BandsOfTotals(input, StandardPersonalAllowance, 25000.0, 2000.0, 20000.0, BrbTracker(42700.0));
      MixedIncomeBands();
      CalculateTaxIsReport(input, StandardPersonalAllowance, lines);
    }
  }
}
