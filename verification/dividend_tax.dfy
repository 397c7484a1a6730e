/**
 * Tax on dividends: the dividend nil-rate allowance (section 13A of the
 * Income Tax Act 2007) first, then the general cascade at dividend rates.
 */
module DividendTax {
  import opened Reals
  import opened TaxConstants
  import opened BasicRateBandTracker
  import opened TaxBand
  import opened GeneralTax

  function CalculateDividendTax(dividendIncome: real, t: BrbTracker): (r: Allocation)
    ensures dividendIncome <= 0.0 ==> r == Allocation([], t)
    ensures dividendIncome > 0.0 ==>
              |r.entries| >= 1
              && r.entries[0] == ZeroLine(Allowance, Dividends, Min(dividendIncome, DividendAllowance))
  {
    if dividendIncome <= 0.0 then
      Allocation([], t)
    else
      var allowance := Min(dividendIncome, DividendAllowance);
      var rest := Cascade(dividendIncome - allowance, t, Dividends, DividendRates);
      Allocation([ZeroLine(Allowance, Dividends, allowance)] + rest.entries, rest.tracker)
  }

  /** The allocation is the allowance line followed by the cascade of the rest. */
  lemma DividendSplit(dividendIncome: real, t: BrbTracker)
    requires dividendIncome > 0.0
    ensures var allowance := Min(dividendIncome, DividendAllowance);
      var rest := Cascade(dividendIncome - allowance, t, Dividends, DividendRates);
      CalculateDividendTax(dividendIncome, t)
      == Allocation([ZeroLine(Allowance, Dividends, allowance)] + rest.entries, rest.tracker)
  {
  }

  /**
   * After the allowance line come the cascade's lines at dividend rates, and
   * a basic line appears exactly when dividends exceed the allowance while
   * basic band is left.
   */
  lemma DividendShape(dividendIncome: real, t: BrbTracker)
    ensures var r := CalculateDividendTax(dividendIncome, t);
      && WellPriced(r.entries) && AllPositive(r.entries) && AllOfKind(r.entries, Dividends)
      && (dividendIncome > 0.0 ==> CascadeShaped(r.entries[1..], Dividends, DividendRates))
      && (HasBand(r.entries, Basic) <==> dividendIncome > DividendAllowance && t.remaining > 0.0)
  {
    if dividendIncome > 0.0 {
      var allowance := Min(dividendIncome, DividendAllowance);
      var line := ZeroLine(Allowance, Dividends, allowance);
      var rest := Cascade(dividendIncome - allowance, t, Dividends, DividendRates).entries;
      var s := [line] + rest;
      assert CalculateDividendTax(dividendIncome, t).entries == s by {
        DividendSplit(dividendIncome, t);
      }
      assert CascadeShaped(rest, Dividends, DividendRates)
             && (HasBand(rest, Basic) <==> dividendIncome - allowance > 0.0 && t.remaining > 0.0) by {
        CascadeContract(dividendIncome - allowance, t, Dividends, DividendRates);
      }
      assert s[1..] == rest && (HasBand(s, Basic) <==> HasBand(rest, Basic)) by {
        PrependLine(line, rest);
      }
      assert WellPriced(s) && AllPositive(s) && AllOfKind(s, Dividends) by {
        PrependKeepsShape(line, rest);
      }
    }
  }

  /**
   * The amounts add up to the dividends, and only the basic line draws on
   * the tracker: the allowance does not.
   */
  lemma DividendConserves(dividendIncome: real, t: BrbTracker)
    ensures var r := CalculateDividendTax(dividendIncome, t);
      && Total(r.entries, Amount) == Max(0.0, dividendIncome)
      && r.tracker.remaining == t.remaining - Total(r.entries, AmountIn(Basic))
      && Total(r.entries, AmountIn(Higher)) <= HigherBandWidth
      && (t.remaining >= 0.0 ==> 0.0 <= r.tracker.remaining <= t.remaining)
  {
    if dividendIncome > 0.0 {
      var allowance := Min(dividendIncome, DividendAllowance);
      var line := ZeroLine(Allowance, Dividends, allowance);
      var rest := Cascade(dividendIncome - allowance, t, Dividends, DividendRates);
      DividendSplit(dividendIncome, t);
      assert && Total(rest.entries, Amount) == dividendIncome - allowance
             && rest.tracker.remaining == t.remaining - Total(rest.entries, AmountIn(Basic))
             && Total(rest.entries, AmountIn(Higher)) <= HigherBandWidth
             && (t.remaining >= 0.0 ==> 0.0 <= rest.tracker.remaining <= t.remaining) by {
        CascadeContract(dividendIncome - allowance, t, Dividends, DividendRates);
      }
      PrependLine(line, rest.entries);
    }
  }

  /** No dividend line is rated above the dividend additional rate. */
  lemma DividendRatesWithin(dividendIncome: real, t: BrbTracker)
    ensures RatesWithin(CalculateDividendTax(dividendIncome, t).entries, DividendAdditionalRate)
  {
    if dividendIncome > 0.0 {
      var allowance := Min(dividendIncome, DividendAllowance);
      var line := ZeroLine(Allowance, Dividends, allowance);
      var rest := Cascade(dividendIncome - allowance, t, Dividends, DividendRates).entries;
      assert CalculateDividendTax(dividendIncome, t).entries == [line] + rest by {
        DividendSplit(dividendIncome, t);
      }
      assert RatesWithin(rest, DividendAdditionalRate) by {
        CascadeRates(dividendIncome - allowance, t, Dividends, DividendRates);
      }
      RatesWithinPrepend(line, rest, DividendAdditionalRate);
    }
  }

  /** The dividends above the allowance are taxed on the marginal schedule at dividend rates. */
  lemma DividendTaxSchedule(dividendIncome: real, t: BrbTracker)
    requires dividendIncome >= 0.0 && t.remaining >= 0.0
    ensures Total(CalculateDividendTax(dividendIncome, t).entries, Tax)
            == ScheduleTax(dividendIncome - Min(dividendIncome, DividendAllowance), t.remaining, DividendRates)
  {
    if dividendIncome > 0.0 {
      var allowance := Min(dividendIncome, DividendAllowance);
      var line := ZeroLine(Allowance, Dividends, allowance);
      var rest := Cascade(dividendIncome - allowance, t, Dividends, DividendRates);
      assert CalculateDividendTax(dividendIncome, t).entries == [line] + rest.entries;
      CascadeTax(dividendIncome - allowance, t, Dividends, DividendRates);
      PrependLine(line, rest.entries);
    } else {
      assert ScheduleTax(0.0, t.remaining, DividendRates) == 0.0;
    }
  }

  /** Prepending a nil-rate allowance line adds its amount to the total and nothing to any band but its own. */
  lemma PrependLine(e: TaxBandResult, s: seq<TaxBandResult>)
    requires e.band == Allowance && e.tax == 0.0 && e.rate == 0.0
    ensures Total([e] + s, Amount) == e.amount + Total(s, Amount)
    ensures Total([e] + s, Tax) == Total(s, Tax)
    ensures forall b :: b != Allowance ==> Total([e] + s, AmountIn(b)) == Total(s, AmountIn(b))
    ensures HasBand(s, Basic) <==> HasBand([e] + s, Basic)
    ensures ([e] + s)[1..] == s
  {
    assert ([e] + s)[1..] == s;
    if HasBand(s, Basic) {
      var i :| 0 <= i < |s| && s[i].band == Basic;
      assert ([e] + s)[i + 1] == s[i];
    }
  }

  /** A well-priced, positive line of the right category keeps a sequence so. */
  lemma PrependKeepsShape(e: TaxBandResult, s: seq<TaxBandResult>)
    requires e.tax == e.amount * e.rate && e.amount > 0.0
    requires WellPriced(s) && AllPositive(s) && AllOfKind(s, e.kind)
    ensures WellPriced([e] + s) && AllPositive([e] + s) && AllOfKind([e] + s, e.kind)
  {
  }

  /** 10,000 of dividends with a full basic band: 500 at 0%, 9,500 at 8.75%, tax 831.25. */
  lemma DividendsTenThousand()
    ensures var r := CalculateDividendTax(10000.0, BrbTracker(BasicRateBand));
      && r.entries == [ZeroLine(Allowance, Dividends, 500.0), Line(Basic, Dividends, 9500.0, 0.0875)]
      && Total(r.entries, Tax) == 831.25
  {
    var r := CalculateDividendTax(10000.0, BrbTracker(BasicRateBand));
    TotalSmall(r.entries[0], r.entries[1], r.entries[1], Tax);
  }

  /** 50,000 of dividends with no basic band left: 500 at 0% and 49,500 in the higher band. */
  lemma DividendsFiftyThousandNoBasicBand()
    ensures CalculateDividendTax(50000.0, BrbTracker(0.0)).entries
            == [ZeroLine(Allowance, Dividends, 500.0), Line(Higher, Dividends, 49500.0, 0.3375)]
  {
  }

  /** 200,000 of dividends with no basic band left: 87,440 higher and 112,060 additional. */
  lemma DividendsTwoHundredThousandNoBasicBand()
    ensures CalculateDividendTax(200000.0, BrbTracker(0.0)).entries
            == [ZeroLine(Allowance, Dividends, 500.0), Line(Higher, Dividends, 87440.0, 0.3375),
                Line(Additional, Dividends, 112060.0, 0.3935)]
  {
  }
}
