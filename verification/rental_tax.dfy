/**
 * Tax on rental income: the general cascade at rental rates, tagged `Rental`.
 * The year-specific rental rates are a parameter; the allocator also accepts,
 * and ignores, the gross non-savings income, the personal allowance and the
 * general lines.
 */
module RentalTax {
  import opened Reals
  import opened TaxConstants
  import opened BasicRateBandTracker
  import opened TaxBand
  import opened GeneralTax

  function CalculateRentalTax(
    rentalIncome: real,
    grossNonSavingsIncome: real,
    personalAllowance: real,
    t: BrbTracker,
    generalTaxBands: seq<TaxBandResult>,
    rates: Rates
  ): (r: Allocation)
    ensures rentalIncome <= 0.0 ==> r == Allocation([], t)
    ensures CascadeShaped(r.entries, Rental, rates)
    ensures rates.Progressive() ==> forall i :: 0 <= i < |r.entries| ==> r.entries[i].rate > 0.0
    ensures Total(r.entries, Amount) == Max(0.0, rentalIncome)
    ensures HasBand(r.entries, Basic) <==> rentalIncome > 0.0 && t.remaining > 0.0
    ensures r.tracker.remaining == t.remaining - Total(r.entries, AmountIn(Basic))
    ensures Total(r.entries, AmountIn(Higher)) <= HigherBandWidth
  {
    if rentalIncome <= 0.0 then
      Allocation([], t)
    else
      CascadeContract(rentalIncome, t, Rental, rates);
      Cascade(rentalIncome, t, Rental, rates)
  }

  /** The extra inputs have no influence on the result. */
  lemma RentalIgnoresExtraInputs(
    rentalIncome: real, t: BrbTracker, rates: Rates,
    gross1: real, pa1: real, bands1: seq<TaxBandResult>,
    gross2: real, pa2: real, bands2: seq<TaxBandResult>)
    ensures CalculateRentalTax(rentalIncome, gross1, pa1, t, bands1, rates)
            == CalculateRentalTax(rentalIncome, gross2, pa2, t, bands2, rates)
  {
  }

  /** 8,000 of rent with 5,000 of basic band left: 5,000 basic, 3,000 higher, nothing at 0%. */
  lemma RentalEightThousand()
    ensures var r := CalculateRentalTax(8000.0, 0.0, StandardPersonalAllowance, BrbTracker(5000.0), [], GeneralRates);
      r.entries == [Line(Basic, Rental, 5000.0, BasicRate), Line(Higher, Rental, 3000.0, HigherRate)]
      && r.tracker.remaining == 0.0
  {
  }
}
