/**
 * The three-band cascade for general income: the extended basic-rate band
 * (bounded by the shared tracker), the fixed-width higher band, then the
 * unbounded additional band. Rental and dividend income use the same shape.
 */
module GeneralTax {
  import opened Reals
  import opened TaxConstants
  import opened BasicRateBandTracker
  import opened TaxBand

  /** The rates of the three cascade bands for one category. */
  datatype Rates = Rates(basic: real, higher: real, additional: real) {
    function RateFor(b: BandName): real {
      match b
      case Basic => basic
      case Higher => higher
      case Additional => additional
      case _ => 0.0
    }

    predicate Progressive() {
      0.0 < basic < higher < additional
    }
  }

  const GeneralRates: Rates := Rates(BasicRate, HigherRate, AdditionalRate)
  const DividendRates: Rates := Rates(DividendBasicRate, DividendHigherRate, DividendAdditionalRate)

  /** Lines of the cascade are the rated bands, in cascade order, each at its band's rate. */
  predicate CascadeShaped(s: seq<TaxBandResult>, kind: BandType, rates: Rates) {
    && WellPriced(s) && AllPositive(s) && AllOfKind(s, kind)
    && (forall i :: 0 <= i < |s| ==> s[i].band.Rank() >= 1 && s[i].rate == rates.RateFor(s[i].band))
    && (forall i, j :: 0 <= i < j < |s| ==> s[i].band.Rank() < s[j].band.Rank())
  }

  /**
   * Cascades `amount` through the basic band (as far as the tracker allows),
   * the higher band (at most its fixed width) and the additional band.
   */
  function Cascade(amount: real, t: BrbTracker, kind: BandType, rates: Rates): Allocation
  {
    var useBasic := amount > 0.0 && t.remaining > 0.0;
    var used := Use(t, amount);
    var basic := if useBasic then used.0 else 0.0;
    var basicLines := if useBasic then [Line(Basic, kind, basic, rates.basic)] else [];
    var afterBasic := amount - basic;
    var higher := if afterBasic > 0.0 then Min(afterBasic, HigherBandWidth) else 0.0;
    var higherLines := if afterBasic > 0.0 then [Line(Higher, kind, higher, rates.higher)] else [];
    var afterHigher := afterBasic - higher;
    var additionalLines :=
      if afterHigher > 0.0 then [Line(Additional, kind, afterHigher, rates.additional)] else [];
    Allocation(basicLines + higherLines + additionalLines, if useBasic then used.1 else t)
  }

  /** How much of `amount` the basic band takes from a tracker holding `quota`. */
  function BasicPart(amount: real, quota: real): real {
    if amount > 0.0 && quota > 0.0 then Min(quota, amount) else 0.0
  }

  /** How much of what the basic band left the higher band takes. */
  function HigherPart(amount: real, quota: real): real {
    Min(Max(0.0, amount - BasicPart(amount, quota)), HigherBandWidth)
  }

  /** What is left for the additional band. */
  function AdditionalPart(amount: real, quota: real): real {
    Max(0.0, amount - BasicPart(amount, quota) - HigherPart(amount, quota))
  }

  /** One line for `band` when `x` is positive, none otherwise. */
  function Step(band: BandName, kind: BandType, x: real, rate: real): seq<TaxBandResult> {
    if x > 0.0 then [Line(band, kind, x, rate)] else []
  }

  /** The lines of a cascade that puts `b`, `h` and `a` into the three bands. */
  function Lines(b: real, h: real, a: real, kind: BandType, rates: Rates): seq<TaxBandResult> {
    Step(Basic, kind, b, rates.basic) + Step(Higher, kind, h, rates.higher)
    + Step(Additional, kind, a, rates.additional)
  }

  /** A step contributes its one line, if any, to every sum. */
  lemma StepTotal(band: BandName, kind: BandType, x: real, rate: real, m: Measure)
    ensures Total(Step(band, kind, x, rate), m)
            == if x > 0.0 then Weight(Line(band, kind, x, rate), m) else 0.0
  {
    if x > 0.0 {
      var e := Line(band, kind, x, rate);
      TotalSmall(e, e, e, m);
    }
  }

  /** Any sum over a three-part cascade is the sum over its (at most three) lines. */
  lemma LinesTotal(b: real, h: real, a: real, kind: BandType, rates: Rates, m: Measure)
    ensures Total(Lines(b, h, a, kind, rates), m)
            == (if b > 0.0 then Weight(Line(Basic, kind, b, rates.basic), m) else 0.0)
               + (if h > 0.0 then Weight(Line(Higher, kind, h, rates.higher), m) else 0.0)
               + (if a > 0.0 then Weight(Line(Additional, kind, a, rates.additional), m) else 0.0)
  {
    var sb := Step(Basic, kind, b, rates.basic);
    var sh := Step(Higher, kind, h, rates.higher);
    var sa := Step(Additional, kind, a, rates.additional);
    TotalAppend(sb, sh, m);
    TotalAppend(sb + sh, sa, m);
    StepTotal(Basic, kind, b, rates.basic, m);
    StepTotal(Higher, kind, h, rates.higher, m);
    StepTotal(Additional, kind, a, rates.additional, m);
  }

  /** The sums over a three-part cascade are its parts. */
  lemma LinesTotals(b: real, h: real, a: real, kind: BandType, rates: Rates)
    requires b >= 0.0 && h >= 0.0 && a >= 0.0
    ensures var s := Lines(b, h, a, kind, rates);
      && Total(s, Amount) == b + h + a
      && Total(s, AmountIn(Basic)) == b
      && Total(s, AmountIn(Higher)) == h
      && Total(s, AmountIn(Additional)) == a
      && Total(s, Tax) == b * rates.basic + h * rates.higher + a * rates.additional
  {
    LinesTotal(b, h, a, kind, rates, Amount);
    LinesTotal(b, h, a, kind, rates, AmountIn(Basic));
    LinesTotal(b, h, a, kind, rates, AmountIn(Higher));
    LinesTotal(b, h, a, kind, rates, AmountIn(Additional));
    LinesTotal(b, h, a, kind, rates, Tax);
  }

  /** A three-part cascade has the cascade's shape. */
  lemma LinesShape(b: real, h: real, a: real, kind: BandType, rates: Rates)
    requires b >= 0.0 && h >= 0.0 && a >= 0.0
    ensures CascadeShaped(Lines(b, h, a, kind, rates), kind, rates)
  {
    var s := Lines(b, h, a, kind, rates);
    var lb, lh, la := Line(Basic, kind, b, rates.basic), Line(Higher, kind, h, rates.higher),
                      Line(Additional, kind, a, rates.additional);
    if b > 0.0 {
      if h > 0.0 {
        if a > 0.0 { assert s == [lb, lh, la] && s[0] == lb && s[1] == lh && s[2] == la; }
        else { assert s == [lb, lh] && s[0] == lb && s[1] == lh; }
      } else {
        if a > 0.0 { assert s == [lb, la] && s[0] == lb && s[1] == la; }
        else { assert s == [lb] && s[0] == lb; }
      }
    } else {
      if h > 0.0 {
        if a > 0.0 { assert s == [lh, la] && s[0] == lh && s[1] == la; }
        else { assert s == [lh] && s[0] == lh; }
      } else {
        if a > 0.0 { assert s == [la] && s[0] == la; }
        else { assert s == []; }
      }
    }
  }

  /** In a three-part cascade a band is present exactly when its part is positive. */
  lemma LinesBands(b: real, h: real, a: real, kind: BandType, rates: Rates)
    ensures var s := Lines(b, h, a, kind, rates);
      && (HasBand(s, Basic) <==> b > 0.0)
      && (HasBand(s, Higher) <==> h > 0.0)
      && (HasBand(s, Additional) <==> a > 0.0)
  {
    var s := Lines(b, h, a, kind, rates);
    var lb, lh, la := Line(Basic, kind, b, rates.basic), Line(Higher, kind, h, rates.higher),
                      Line(Additional, kind, a, rates.additional);
    if b > 0.0 {
      if h > 0.0 {
        if a > 0.0 { assert s == [lb, lh, la] && s[0] == lb && s[1] == lh && s[2] == la; }
        else { assert s == [lb, lh] && s[0] == lb && s[1] == lh; }
      } else {
        if a > 0.0 { assert s == [lb, la] && s[0] == lb && s[1] == la; }
        else { assert s == [lb] && s[0] == lb; }
      }
    } else {
      if h > 0.0 {
        if a > 0.0 { assert s == [lh, la] && s[0] == lh && s[1] == la; }
        else { assert s == [lh] && s[0] == lh; }
      } else {
        if a > 0.0 { assert s == [la] && s[0] == la; }
        else { assert s == []; }
      }
    }
  }

  /** The cascade is the three-part cascade of its basic, higher and additional parts. */
  lemma CascadeIsLines(amount: real, t: BrbTracker, kind: BandType, rates: Rates)
    ensures var b := BasicPart(amount, t.remaining);
      Cascade(amount, t, kind, rates)
      == Allocation(Lines(b, HigherPart(amount, t.remaining), AdditionalPart(amount, t.remaining), kind, rates),
                    BrbTracker(t.remaining - b))
  {
  }

  /**
   * What the cascade does: its lines are the rated bands in order, their
   * amounts add up to the input, the basic line is what the tracker gave up,
   * the higher line fits its band and an additional line appears exactly when
   * the input overflows both.
   */
  lemma CascadeContract(amount: real, t: BrbTracker, kind: BandType, rates: Rates)
    ensures var r := Cascade(amount, t, kind, rates);
      && CascadeShaped(r.entries, kind, rates)
      && Total(r.entries, Amount) == Max(0.0, amount)
      && r.tracker.remaining == t.remaining - Total(r.entries, AmountIn(Basic))
      && (HasBand(r.entries, Basic) <==> amount > 0.0 && t.remaining > 0.0)
      && (HasBand(r.entries, Basic) ==> Total(r.entries, AmountIn(Basic)) == Min(amount, t.remaining))
      && Total(r.entries, AmountIn(Higher)) <= HigherBandWidth
      && (HasBand(r.entries, Additional)
          <==> amount > Total(r.entries, AmountIn(Basic)) + HigherBandWidth)
      && (t.remaining >= 0.0 ==> 0.0 <= r.tracker.remaining <= t.remaining)
  {
    var R := t.remaining;
    var b, h, a := BasicPart(amount, R), HigherPart(amount, R), AdditionalPart(amount, R);
    CascadeIsLines(amount, t, kind, rates);
    LinesTotals(b, h, a, kind, rates);
    LinesShape(b, h, a, kind, rates);
    LinesBands(b, h, a, kind, rates);
  }

  /**
   * The tax on `x` under a marginal schedule whose basic band is `quota` wide
   * and whose higher band is `HigherBandWidth` wide: the reference the
   * cascade is measured against.
   */
  function ScheduleTax(x: real, quota: real, rates: Rates): real {
    if x <= quota then rates.basic * x
    else if x <= quota + HigherBandWidth then rates.basic * quota + rates.higher * (x - quota)
    else rates.basic * quota + rates.higher * HigherBandWidth
         + rates.additional * (x - quota - HigherBandWidth)
  }

  /** The cascade raises exactly the tax of the marginal schedule. */
  lemma CascadeTax(amount: real, t: BrbTracker, kind: BandType, rates: Rates)
    requires amount >= 0.0 && t.remaining >= 0.0
    ensures Total(Cascade(amount, t, kind, rates).entries, Tax) == ScheduleTax(amount, t.remaining, rates)
  {
    var R := t.remaining;
    var b, h, a := BasicPart(amount, R), HigherPart(amount, R), AdditionalPart(amount, R);
    CascadeTaxByParts(amount, t, kind, rates, b, h, a);
    ScheduleByParts(amount, R, rates);
  }

  /** The cascade's tax is its basic, higher and additional parts, each at its band's rate. */
  lemma CascadeTaxByParts(amount: real, t: BrbTracker, kind: BandType, rates: Rates, b: real, h: real, a: real)
    requires amount >= 0.0 && t.remaining >= 0.0
    requires b == BasicPart(amount, t.remaining) && h == HigherPart(amount, t.remaining)
    requires a == AdditionalPart(amount, t.remaining)
    ensures Total(Cascade(amount, t, kind, rates).entries, Tax) == b * rates.basic + h * rates.higher + a * rates.additional
  {
    var s := Lines(b, h, a, kind, rates);
    assert Cascade(amount, t, kind, rates).entries == s by {
      CascadeIsLines(amount, t, kind, rates);
    }
    assert Total(s, Tax) == b * rates.basic + h * rates.higher + a * rates.additional by {
      PartsOfSchedule(amount, t.remaining);
      LinesTax(b, h, a, kind, rates);
    }
  }

  /** The tax of a three-part cascade is each part at its band's rate. */
  lemma LinesTax(b: real, h: real, a: real, kind: BandType, rates: Rates)
    requires b >= 0.0 && h >= 0.0 && a >= 0.0
    ensures Total(Lines(b, h, a, kind, rates), Tax) == b * rates.basic + h * rates.higher + a * rates.additional
  {
    LinesTotal(b, h, a, kind, rates, Tax);
    if b == 0.0 { assert b * rates.basic == 0.0; }
    if h == 0.0 { assert h * rates.higher == 0.0; }
    if a == 0.0 { assert a * rates.additional == 0.0; }
  }

  /** The schedule is each part at its band's rate. */
  lemma ScheduleByParts(amount: real, quota: real, rates: Rates)
    requires amount >= 0.0 && quota >= 0.0
    ensures ScheduleTax(amount, quota, rates)
            == BasicPart(amount, quota) * rates.basic + HigherPart(amount, quota) * rates.higher
               + AdditionalPart(amount, quota) * rates.additional
  {
    PartsOfSchedule(amount, quota);
    var b, h, a := BasicPart(amount, quota), HigherPart(amount, quota), AdditionalPart(amount, quota);
    var W := HigherBandWidth;
    if amount <= quota {
      assert b == amount && h == 0.0 && a == 0.0;
      assert h * rates.higher == 0.0 && a * rates.additional == 0.0;
    } else if amount <= quota + W {
      assert b == quota && h == amount - quota && a == 0.0;
      assert a * rates.additional == 0.0;
    } else {
      assert b == quota && h == W && a == amount - quota - W;
    }
  }

  /** The three parts, piece by piece of the schedule. */
  lemma PartsOfSchedule(amount: real, quota: real)
    requires amount >= 0.0 && quota >= 0.0
    ensures var b, h, a := BasicPart(amount, quota), HigherPart(amount, quota), AdditionalPart(amount, quota);
      && b >= 0.0 && h >= 0.0 && a >= 0.0
      && (amount <= quota ==> b == amount && h == 0.0 && a == 0.0)
      && (quota < amount <= quota + HigherBandWidth ==> b == quota && h == amount - quota && a == 0.0)
      && (quota + HigherBandWidth < amount ==>
            b == quota && h == HigherBandWidth && a == amount - quota - HigherBandWidth)
  {
  }

  /**
   * Tax on general income (after the personal allowance): the cascade at the
   * general rates, tagged `General`, consuming the shared tracker.
   */
  function CalculateGeneralIncomeTax(income: real, t: BrbTracker): (r: Allocation)
    ensures income <= 0.0 ==> r == Allocation([], t)
    ensures income >= 0.0 && t.remaining >= 0.0 ==>
              Total(r.entries, Tax) == ScheduleTax(income, t.remaining, GeneralRates)
    ensures AllOfKind(r.entries, General)
  {
    CascadeContract(income, t, General, GeneralRates);
    if income >= 0.0 && t.remaining >= 0.0 then
      CascadeTax(income, t, General, GeneralRates);
      Cascade(income, t, General, GeneralRates)
    else
      Cascade(income, t, General, GeneralRates)
  }

  /** Cascade lines at progressive rates are rated between 0 and the additional rate. */
  lemma CascadeRates(amount: real, t: BrbTracker, kind: BandType, rates: Rates)
    requires rates.Progressive()
    ensures RatesWithin(Cascade(amount, t, kind, rates).entries, rates.additional)
  {
    var s := Cascade(amount, t, kind, rates).entries;
    assert forall i :: 0 <= i < |s| ==> s[i].band.Rank() >= 1 && s[i].rate == rates.RateFor(s[i].band) by {
      CascadeContract(amount, t, kind, rates);
    }
  }

  /**
   * General income lands in exactly one line, the tracker is charged what
   * the basic line holds, and no line is rated above the additional rate.
   */
  lemma GeneralContract(income: real, t: BrbTracker)
    ensures var r := CalculateGeneralIncomeTax(income, t);
      && WellPriced(r.entries) && AllPositive(r.entries)
      && Total(r.entries, Amount) == Max(0.0, income)
      && r.tracker.remaining == t.remaining - Total(r.entries, AmountIn(Basic))
      && (t.remaining >= 0.0 ==> 0.0 <= r.tracker.remaining <= t.remaining)
      && RatesWithin(r.entries, AdditionalRate)
  {
    assert CalculateGeneralIncomeTax(income, t) == Cascade(income, t, General, GeneralRates);
    CascadeContract(income, t, General, GeneralRates);
    CascadeRates(income, t, General, GeneralRates);
  }

  /** With a full basic band, 50,000 puts 37,700 in the basic band and the rest in the higher band. */
  lemma GeneralFiftyThousand()
    ensures CalculateGeneralIncomeTax(50000.0, BrbTracker(BasicRateBand)).entries
            == [Line(Basic, General, 37700.0, 0.20), Line(Higher, General, 12300.0, 0.40)]
  {
  }

  /** With a full basic band, 200,000 reaches the additional band by 200,000 - 125,140. */
  lemma GeneralTwoHundredThousand()
    ensures CalculateGeneralIncomeTax(200000.0, BrbTracker(BasicRateBand)).entries
            == [Line(Basic, General, 37700.0, 0.20), Line(Higher, General, 87440.0, 0.40),
                Line(Additional, General, 200000.0 - 125140.0, 0.45)]
  {
  }
}
