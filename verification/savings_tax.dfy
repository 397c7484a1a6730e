/**
 * Tax on savings income, in two passes: the starting-rate slice (section 12
 * of the Income Tax Act 2007), a provisional split of the rest over the
 * three general bands, then the savings nil-rate allowance (section 12A),
 * whose size depends on the highest rate reached, carved back out of the
 * provisional bands from the lowest upwards.
 */
module SavingsTax {
  import opened Reals
  import opened TaxConstants
  import opened BasicRateBandTracker
  import opened TaxBand
  import opened GeneralTax

  /** The starting-rate limit, written in the allocator as a literal. */
  const StartingRateLimit: real := 5000.0

  /** The highest rate of a non-empty sequence of lines (`Math.max` over their rates). */
  function MaxRateOf(s: seq<TaxBandResult>): (m: real)
    requires |s| > 0
    ensures forall i :: 0 <= i < |s| ==> s[i].rate <= m
    ensures exists i :: 0 <= i < |s| && s[i].rate == m
  {
    if |s| == 1 then s[0].rate
    else
      var rest := MaxRateOf(s[1..]);
      assert forall i :: 1 <= i < |s| ==> s[i] == s[1..][i - 1];
      Max(s[0].rate, rest)
  }

  /** The highest rate already reached by the lines handed in, or 0 when there are none. */
  function InitialMaxRate(generalTaxBands: seq<TaxBandResult>): real {
    if |generalTaxBands| > 0 then MaxRateOf(generalTaxBands) else 0.0
  }

  /** Raises `m` to the rate of each line in turn (the running maximum kept while bands are added). */
  function RaiseMaxRate(m: real, s: seq<TaxBandResult>): (r: real)
    ensures r >= m
    ensures forall i :: 0 <= i < |s| ==> s[i].rate <= r
    ensures r == m || exists i :: 0 <= i < |s| && s[i].rate == r
    decreases |s|
  {
    if |s| == 0 then m
    else
      var r := RaiseMaxRate(Max(m, s[0].rate), s[1..]);
      assert forall i :: 1 <= i < |s| ==> s[i] == s[1..][i - 1];
      r
  }

  /** The savings allowance for the highest rate reached: none, the higher-rate one or the basic-rate one. */
  function AllowanceFor(maxRate: real): real {
    if maxRate >= AdditionalRate then SavingsAllowanceAdditional
    else if maxRate >= HigherRate then SavingsAllowanceHigher
    else SavingsAllowanceBasic
  }

  /**
   * The starting-rate slice: available only while non-savings income is
   * below the personal allowance, and then at most the starting-rate limit
   * and at most the allowance left over.
   */
  function StartingSlice(savingsIncome: real, grossNonSavingsIncome: real, personalAllowance: real): real {
    if grossNonSavingsIncome < personalAllowance then
      var maxStarting := Min(StartingRateLimit, personalAllowance - grossNonSavingsIncome);
      var startingApplied := Min(savingsIncome, maxStarting);
      if startingApplied > 0.0 then startingApplied else 0.0
    else 0.0
  }

  /**
   * The provisional split: the basic band takes what the tracker gives (the
   * tracker is asked unconditionally), then the higher band, then the
   * additional band; only positive parts become pending lines.
   */
  function ProvisionalSplit(remainingSavings: real, t: BrbTracker): Allocation {
    var used := Use(t, remainingSavings);
    var basicLines := Step(Basic, Savings, used.0, BasicRate);
    var afterBasic := remainingSavings - used.0;
    var higherUsed := Min(afterBasic, HigherBandWidth);
    var higherLines := Step(Higher, Savings, higherUsed, HigherRate);
    var afterHigher := afterBasic - higherUsed;
    var additionalLines := Step(Additional, Savings, afterHigher, AdditionalRate);
    Allocation(basicLines + higherLines + additionalLines, used.1)
  }

  /**
   * Carves up to `allowance` out of one pending line: a 0% line of the same
   * band for the part carved, then a line at the band's rate for the rest.
   */
  function CarveOne(band: TaxBandResult, allowance: real): seq<TaxBandResult> {
    var applied := Min(band.amount, allowance);
    var zeroLines := if applied > 0.0 then [ZeroLine(band.band, band.kind, applied)] else [];
    var taxable := band.amount - applied;
    var taxedLines := if taxable > 0.0 then [Line(band.band, band.kind, taxable, band.rate)] else [];
    zeroLines + taxedLines
  }

  /** Walks the pending lines in order, carving from each what is left of the allowance. */
  function CarveBack(pending: seq<TaxBandResult>, allowance: real): seq<TaxBandResult>
    decreases |pending|
  {
    if |pending| == 0 then []
    else
      CarveOne(pending[0], allowance)
      + CarveBack(pending[1..], allowance - Min(pending[0].amount, allowance))
  }

  /** Every pending line is taxed at a positive rate (so a 0% line can only come from the allowance). */
  predicate PositivelyRated(s: seq<TaxBandResult>) {
    forall i :: 0 <= i < |s| ==> s[i].rate > 0.0
  }

  /** Lines that are all 0% copies of `s`, with the same bands, categories and amounts. */
  function Zeroed(s: seq<TaxBandResult>): (z: seq<TaxBandResult>)
    ensures |z| == |s|
    decreases |s|
  {
    if |s| == 0 then [] else [ZeroLine(s[0].band, s[0].kind, s[0].amount)] + Zeroed(s[1..])
  }

  /** Carving one line keeps its amount and band, and carves the lesser of the line and the allowance. */
  lemma CarveOneSums(e: TaxBandResult, a: real)
    requires e.amount >= 0.0 && a >= 0.0
    ensures var c := CarveOne(e, a);
      && Total(c, Amount) == e.amount
      && (forall b :: Total(c, AmountIn(b)) == Weight(e, AmountIn(b)))
      && (e.rate > 0.0 ==> Total(c, ZeroRated) == Min(e.amount, a))
  {
    var applied := Min(e.amount, a);
    var z := ZeroLine(e.band, e.kind, applied);
    var l := Line(e.band, e.kind, e.amount - applied, e.rate);
    forall m: Measure ensures Total([z], m) == Weight(z, m) && Total([l], m) == Weight(l, m)
                       && Total([z, l], m) == Weight(z, m) + Weight(l, m) {
      TotalSmall(z, l, l, m);
      TotalSmall(l, l, l, m);
    }
  }

  /** The lines carved from one line are positive, well priced and of its category. */
  lemma CarveOneShape(e: TaxBandResult, a: real)
    requires e.amount >= 0.0 && a >= 0.0
    ensures var c := CarveOne(e, a);
      AllPositive(c) && WellPriced(c) && AllOfKind(c, e.kind)
  {
  }

  /** With no allowance left, a well-priced positive line passes through unchanged. */
  lemma CarveOneNothing(e: TaxBandResult)
    requires e.amount > 0.0 && e.tax == e.amount * e.rate
    ensures CarveOne(e, 0.0) == [e]
  {
    assert Min(e.amount, 0.0) == 0.0;
    assert Line(e.band, e.kind, e.amount - 0.0, e.rate) == e;
  }

  /** With allowance to spare, a positive line is carved out whole. */
  lemma CarveOneAll(e: TaxBandResult, a: real)
    requires 0.0 < e.amount <= a
    ensures CarveOne(e, a) == [ZeroLine(e.band, e.kind, e.amount)]
  {
  }

  /** Sums of non-negative amounts are non-negative. */
  lemma {:induction false} AmountsNonNegative(s: seq<TaxBandResult>)
    requires forall i :: 0 <= i < |s| ==> s[i].amount >= 0.0
    ensures Total(s, Amount) >= 0.0
    decreases |s|
  {
    if |s| > 0 {
      AmountsNonNegative(s[1..]);
    }
  }

  /**
   * Carving back over two runs of lines is carving the first run, then the
   * second with whatever allowance the first left over.
   */
  lemma {:induction false} CarveBackAppend(x: seq<TaxBandResult>, y: seq<TaxBandResult>, a: real)
    requires a >= 0.0
    requires forall i :: 0 <= i < |x| ==> x[i].amount >= 0.0
    ensures CarveBack(x + y, a) == CarveBack(x, a) + CarveBack(y, a - Min(a, Total(x, Amount)))
    decreases |x|
  {
    if |x| == 0 {
      assert x + y == y;
    } else {
      var applied := Min(x[0].amount, a);
      assert (x + y)[0] == x[0] && (x + y)[1..] == x[1..] + y;
      CarveBackAppend(x[1..], y, a - applied);
      AmountsNonNegative(x[1..]);
      assert a - applied - Min(a - applied, Total(x[1..], Amount)) == a - Min(a, Total(x, Amount));
    }
  }

  /** With no allowance, well-priced positive lines pass through unchanged. */
  lemma {:induction false} CarveBackNothing(s: seq<TaxBandResult>)
    requires WellPriced(s) && AllPositive(s)
    ensures CarveBack(s, 0.0) == s
    decreases |s|
  {
    if |s| > 0 {
      CarveOneNothing(s[0]);
      CarveBackNothing(s[1..]);
      assert [s[0]] + s[1..] == s;
    }
  }

  /** With allowance covering every line, every positive line is carved out whole. */
  lemma {:induction false} CarveBackAll(s: seq<TaxBandResult>, a: real)
    requires AllPositive(s) && a >= Total(s, Amount)
    ensures CarveBack(s, a) == Zeroed(s)
    decreases |s|
  {
    if |s| > 0 {
      AmountsNonNegative(s[1..]);
      CarveOneAll(s[0], a);
      CarveBackAll(s[1..], a - s[0].amount);
    }
  }

  /**
   * Order of the carve-back, first half: once the allowance fits inside the
   * first `k` pending lines, every later line is taxed in full.
   */
  lemma CarveBackStopsEarly(s: seq<TaxBandResult>, a: real, k: nat)
    requires WellPriced(s) && AllPositive(s)
    requires k <= |s| && 0.0 <= a <= Total(s[..k], Amount)
    ensures CarveBack(s, a) == CarveBack(s[..k], a) + s[k..]
  {
    var x, y := s[..k], s[k..];
    assert s == x + y;
    assert CarveBack(s, a) == CarveBack(x, a) + CarveBack(y, 0.0) by {
      CarveBackAppend(x, y, a);
      assert a - Min(a, Total(x, Amount)) == 0.0;
    }
    assert CarveBack(y, 0.0) == y by {
      assert WellPriced(y) && AllPositive(y);
      CarveBackNothing(y);
    }
  }

  /**
   * Order of the carve-back, second half: a later line gets a 0% slice only
   * once every earlier line has been carved out whole.
   */
  lemma CarveBackLowestFirst(s: seq<TaxBandResult>, a: real, k: nat)
    requires AllPositive(s)
    requires k <= |s| && a >= Total(s[..k], Amount)
    ensures CarveBack(s, a) == Zeroed(s[..k]) + CarveBack(s[k..], a - Total(s[..k], Amount))
  {
    assert s == s[..k] + s[k..];
    AmountsNonNegative(s[..k]);
    CarveBackAppend(s[..k], s[k..], a);
    CarveBackAll(s[..k], a);
  }

  /** The carve-back keeps every band's amount, and so the amount overall. */
  lemma {:induction false} CarveBackKeepsAmounts(s: seq<TaxBandResult>, a: real, m: Measure)
    requires a >= 0.0 && AllPositive(s)
    requires m.Amount? || m.AmountIn?
    ensures Total(CarveBack(s, a), m) == Total(s, m)
    decreases |s|
  {
    if |s| > 0 {
      var e := s[0];
      var applied := Min(e.amount, a);
      assert Total(CarveOne(e, a), m) == Weight(e, m) by {
        CarveOneSums(e, a);
      }
      CarveBackKeepsAmounts(s[1..], a - applied, m);
      TotalAppend(CarveOne(e, a), CarveBack(s[1..], a - applied), m);
    }
  }

  /** The carve-back carves, in all, the lesser of the allowance and the pending total. */
  lemma {:induction false} CarveBackCarves(s: seq<TaxBandResult>, a: real)
    requires a >= 0.0 && AllPositive(s) && PositivelyRated(s)
    ensures Total(CarveBack(s, a), ZeroRated) == Min(a, Total(s, Amount))
    decreases |s|
  {
    if |s| > 0 {
      var e := s[0];
      var applied := Min(e.amount, a);
      assert Total(CarveOne(e, a), ZeroRated) == applied by {
        CarveOneSums(e, a);
      }
      CarveBackCarves(s[1..], a - applied);
      TotalAppend(CarveOne(e, a), CarveBack(s[1..], a - applied), ZeroRated);
      AmountsNonNegative(s[1..]);
    }
  }

  /** The carve-back's lines are positive, well priced and of the pending lines' category. */
  lemma {:induction false} CarveBackShape(s: seq<TaxBandResult>, a: real, kind: BandType)
    requires a >= 0.0 && AllPositive(s) && AllOfKind(s, kind)
    ensures var c := CarveBack(s, a);
      AllPositive(c) && WellPriced(c) && AllOfKind(c, kind)
    decreases |s|
  {
    if |s| > 0 {
      var e := s[0];
      var applied := Min(e.amount, a);
      CarveOneShape(e, a);
      CarveBackShape(s[1..], a - applied, kind);
      ShapeAppend(CarveOne(e, a), CarveBack(s[1..], a - applied), kind);
    }
  }

  /** The starting-rate line, present only for a positive slice; its tax is a literal zero. */
  function StartingLines(starting: real): seq<TaxBandResult> {
    if starting > 0.0 then [TaxBandResult(Starting, Savings, starting, StartingRateForSavings, 0.0)] else []
  }

  /**
   * The second pass: the allowance for the highest rate reached, carved back
   * out of the pending lines, after the starting-rate line.
   */
  function Assemble(starting: real, pending: Allocation, initialMaxRate: real): Allocation {
    var maxRate := RaiseMaxRate(initialMaxRate, pending.entries);
    Allocation(StartingLines(starting) + CarveBack(pending.entries, AllowanceFor(maxRate)), pending.tracker)
  }

  /**
   * Savings tax once the starting-rate slice is known: nothing for no
   * savings, otherwise the provisional split of what lies above the slice,
   * carved back by the second pass.
   */
  function SavingsFromSlice(savingsIncome: real, starting: real, t: BrbTracker, generalTaxBands: seq<TaxBandResult>): (r: Allocation)
    ensures savingsIncome <= 0.0 ==> r == Allocation([], t)
  {
    if savingsIncome <= 0.0 then Allocation([], t)
    else Assemble(starting, ProvisionalSplit(savingsIncome - starting, t), InitialMaxRate(generalTaxBands))
  }

  /**
   * Tax on savings income: the starting-rate slice, the provisional split of
   * the rest and the carve-back of the savings allowance. The slice is
   * computed before the early return for no savings, which changes nothing
   * as it is a pure computation that the early return discards.
   */
  function CalculateSavingsTax(
    savingsIncome: real,
    grossNonSavingsIncome: real,
    personalAllowance: real,
    t: BrbTracker,
    generalTaxBands: seq<TaxBandResult>
  ): (r: Allocation)
    ensures savingsIncome <= 0.0 ==> r == Allocation([], t)
  {
    SavingsFromSlice(savingsIncome, StartingSlice(savingsIncome, grossNonSavingsIncome, personalAllowance), t, generalTaxBands)
  }

  /**
   * With a non-negative tracker the provisional split is exactly the general
   * cascade, tagged `Savings`: the unguarded tracker request changes nothing.
   */
  lemma ProvisionalIsCascade(remainingSavings: real, t: BrbTracker)
    requires remainingSavings >= 0.0 && t.remaining >= 0.0
    ensures ProvisionalSplit(remainingSavings, t) == Cascade(remainingSavings, t, Savings, GeneralRates)
  {
    var R := t.remaining;
    var b, h, a := BasicPart(remainingSavings, R), HigherPart(remainingSavings, R),
                   AdditionalPart(remainingSavings, R);
    var lines := Allocation(Lines(b, h, a, Savings, GeneralRates), BrbTracker(R - b));
    assert ProvisionalSplit(remainingSavings, t) == lines by {
      var used := Use(t, remainingSavings);
      assert used.0 == b && used.1 == BrbTracker(R - b);
      assert Min(remainingSavings - used.0, HigherBandWidth) == h;
      assert remainingSavings - used.0 - h == a;
    }
    assert Cascade(remainingSavings, t, Savings, GeneralRates) == lines by {
      CascadeIsLines(remainingSavings, t, Savings, GeneralRates);
    }
  }

  /** The pending lines of the provisional split are positive, well priced, positively rated savings lines. */
  lemma ProvisionalShape(remainingSavings: real, t: BrbTracker)
    ensures var p := ProvisionalSplit(remainingSavings, t).entries;
      AllPositive(p) && WellPriced(p) && AllOfKind(p, Savings) && PositivelyRated(p)
      && (forall i :: 0 <= i < |p| ==> p[i].band.Rank() >= 1 && p[i].rate == GeneralRates.RateFor(p[i].band))
  {
    var used := Use(t, remainingSavings);
    var afterBasic := remainingSavings - used.0;
    var higherUsed := Min(afterBasic, HigherBandWidth);
    LinesShape(Max(0.0, used.0), Max(0.0, higherUsed), Max(0.0, afterBasic - higherUsed), Savings, GeneralRates);
    assert ProvisionalSplit(remainingSavings, t).entries
           == Lines(Max(0.0, used.0), Max(0.0, higherUsed), Max(0.0, afterBasic - higherUsed), Savings, GeneralRates);
  }

  /**
   * The highest general rate that a provisional split of `x` reaches with
   * `quota` of basic band left, or 0 when it produces no band at all.
   */
  function RateReached(x: real, quota: real): real {
    if x > quota + HigherBandWidth then AdditionalRate
    else if x > quota then HigherRate
    else if x > 0.0 && quota > 0.0 then BasicRate
    else 0.0
  }

  /** The highest general rate among lines in the three rated bands, or 0 when there are none. */
  function TopRate(p: seq<TaxBandResult>): real {
    if HasBand(p, Additional) then AdditionalRate
    else if HasBand(p, Higher) then HigherRate
    else if HasBand(p, Basic) then BasicRate
    else 0.0
  }

  /** Raising a running maximum over lines at the general rates lands on their top rate, as far as the allowance can tell. */
  lemma AllowanceOfLines(p: seq<TaxBandResult>, initial: real)
    requires forall i :: 0 <= i < |p| ==> p[i].band.Rank() >= 1 && p[i].rate == GeneralRates.RateFor(p[i].band)
    ensures AllowanceFor(RaiseMaxRate(initial, p)) == AllowanceFor(Max(initial, TopRate(p)))
  {
    var r := RaiseMaxRate(initial, p);
    if HasBand(p, Additional) {
      var i :| 0 <= i < |p| && p[i].band == Additional;
      assert p[i].rate == AdditionalRate;
    } else if HasBand(p, Higher) {
      var i :| 0 <= i < |p| && p[i].band == Higher;
      assert p[i].rate == HigherRate;
      assert forall j :: 0 <= j < |p| ==> p[j].band != Additional;
      assert forall j :: 0 <= j < |p| ==> p[j].rate <= HigherRate;
    } else if HasBand(p, Basic) {
      var i :| 0 <= i < |p| && p[i].band == Basic;
      assert p[i].rate == BasicRate;
      assert forall j :: 0 <= j < |p| ==> p[j].band == Basic;
      assert forall j :: 0 <= j < |p| ==> p[j].rate <= BasicRate;
    }
  }

  /** The top rate of the provisional split is the rate the savings reach. */
  lemma ProvisionalTopRate(x: real, t: BrbTracker)
    requires x >= 0.0 && t.remaining >= 0.0
    ensures var p := ProvisionalSplit(x, t).entries;
      && TopRate(p) == RateReached(x, t.remaining)
      && (forall i :: 0 <= i < |p| ==> p[i].band.Rank() >= 1 && p[i].rate == GeneralRates.RateFor(p[i].band))
  {
    var R := t.remaining;
    var b, h, a := BasicPart(x, R), HigherPart(x, R), AdditionalPart(x, R);
    var p := ProvisionalSplit(x, t).entries;
    assert p == Lines(b, h, a, Savings, GeneralRates) by {
      ProvisionalIsCascade(x, t);
      CascadeIsLines(x, t, Savings, GeneralRates);
    }
    PartsOfSchedule(x, R);
    LinesShape(b, h, a, Savings, GeneralRates);
    LinesBands(b, h, a, Savings, GeneralRates);
  }

  /**
   * The allowance the allocator picks is the one for the higher of the rate
   * already reached and the rate the savings themselves reach.
   */
  lemma AllowanceChosen(x: real, t: BrbTracker, initial: real)
    requires x >= 0.0 && t.remaining >= 0.0
    ensures AllowanceFor(RaiseMaxRate(initial, ProvisionalSplit(x, t).entries))
            == AllowanceFor(Max(initial, RateReached(x, t.remaining)))
  {
    ProvisionalTopRate(x, t);
    AllowanceOfLines(ProvisionalSplit(x, t).entries, initial);
  }

  /** The allowance values: one of the three statutory amounts, shrinking as the rate reached grows. */
  lemma AllowanceValues(m1: real, m2: real)
    ensures AllowanceFor(m1) in {SavingsAllowanceBasic, SavingsAllowanceHigher, SavingsAllowanceAdditional}
    ensures AllowanceFor(m1) >= 0.0
    ensures m1 <= m2 ==> AllowanceFor(m2) <= AllowanceFor(m1)
    ensures m1 < HigherRate ==> AllowanceFor(m1) == SavingsAllowanceBasic
    ensures m1 >= AdditionalRate ==> AllowanceFor(m1) == 0.0
  {
  }

  /**
   * The starting-rate slice is offered only while non-savings income is below
   * the personal allowance, and is then the least of the savings, the limit
   * and the allowance left over.
   */
  lemma StartingSliceBounds(savingsIncome: real, grossNonSavingsIncome: real, personalAllowance: real)
    requires savingsIncome > 0.0
    ensures var s0 := StartingSlice(savingsIncome, grossNonSavingsIncome, personalAllowance);
      && 0.0 <= s0 <= savingsIncome
      && s0 <= StartingRateForSavingsThreshold
      && (s0 > 0.0 <==> grossNonSavingsIncome < personalAllowance)
      && (grossNonSavingsIncome < personalAllowance ==>
            s0 == Min(savingsIncome, Min(StartingRateForSavingsThreshold, personalAllowance - grossNonSavingsIncome)))
  {
  }

  /** The starting-rate line carries the slice, at 0%, in band `Starting`. */
  lemma StartingLinesFacts(s0: real)
    requires s0 >= 0.0
    ensures var l := StartingLines(s0);
      && AllPositive(l) && WellPriced(l) && AllOfKind(l, Savings)
      && (HasBand(l, Starting) <==> s0 > 0.0)
      && Total(l, Amount) == s0
      && Total(l, AmountIn(Starting)) == s0
      && Total(l, ZeroRated) == s0
      && (forall b :: b != Starting ==> Total(l, AmountIn(b)) == 0.0)
  {
    var e := TaxBandResult(Starting, Savings, s0, StartingRateForSavings, 0.0);
    if s0 > 0.0 {
      forall m: Measure ensures Total([e], m) == Weight(e, m) {
        TotalSmall(e, e, e, m);
      }
      assert [e][0].band == Starting;
    }
  }

  /**
   * The allowance the allocator grants: the one for the higher of the rate
   * the lines already allocated reach and the rate the savings above the
   * starting slice reach.
   */
  function GrantedAllowance(
    savingsIncome: real, grossNonSavingsIncome: real, personalAllowance: real,
    quota: real, generalTaxBands: seq<TaxBandResult>
  ): real {
    var x := savingsIncome - StartingSlice(savingsIncome, grossNonSavingsIncome, personalAllowance);
    AllowanceFor(Max(InitialMaxRate(generalTaxBands), RateReached(x, quota)))
  }

  /** A starting line followed by carved pending lines keeps the pending lines' shape. */
  lemma JoinedShape(s0: real, p: seq<TaxBandResult>, a: real)
    requires s0 >= 0.0 && a >= 0.0 && AllPositive(p) && AllOfKind(p, Savings)
    ensures var j := StartingLines(s0) + CarveBack(p, a);
      AllPositive(j) && WellPriced(j) && AllOfKind(j, Savings)
  {
    StartingLinesFacts(s0);
    CarveBackShape(p, a, Savings);
    ShapeAppend(StartingLines(s0), CarveBack(p, a), Savings);
  }

  /** The amount totals of a starting line followed by carved pending lines. */
  lemma JoinedAmounts(s0: real, p: seq<TaxBandResult>, a: real, m: Measure)
    requires s0 >= 0.0 && a >= 0.0 && AllPositive(p)
    requires m.Amount? || (m.AmountIn? && m.band != Starting)
    ensures Total(StartingLines(s0) + CarveBack(p, a), m) == (if m.Amount? then s0 else 0.0) + Total(p, m)
  {
    StartingLinesFacts(s0);
    CarveBackKeepsAmounts(p, a, m);
    TotalAppend(StartingLines(s0), CarveBack(p, a), m);
  }

  /** The starting band of a starting line followed by carved pending lines that have none. */
  lemma JoinedStarting(s0: real, p: seq<TaxBandResult>, a: real)
    requires s0 >= 0.0 && a >= 0.0 && AllPositive(p) && AllOfKind(p, Savings)
    requires forall i :: 0 <= i < |p| ==> p[i].band.Rank() >= 1
    ensures var j := StartingLines(s0) + CarveBack(p, a);
      && Total(j, AmountIn(Starting)) == s0
      && (HasBand(j, Starting) <==> s0 > 0.0)
  {
    var j := StartingLines(s0) + CarveBack(p, a);
    assert Total(p, AmountIn(Starting)) == 0.0 by {
      HasBandIffAmount(p, Starting);
    }
    StartingLinesFacts(s0);
    CarveBackKeepsAmounts(p, a, AmountIn(Starting));
    TotalAppend(StartingLines(s0), CarveBack(p, a), AmountIn(Starting));
    JoinedShape(s0, p, a);
    HasBandIffAmount(j, Starting);
  }

  /** Once the slice is known, the lines are positive, well-priced savings lines. */
  lemma SliceShape(savingsIncome: real, s0: real, t: BrbTracker, g: seq<TaxBandResult>)
    requires s0 >= 0.0
    ensures var r := SavingsFromSlice(savingsIncome, s0, t, g).entries;
      AllPositive(r) && WellPriced(r) && AllOfKind(r, Savings)
  {
    if savingsIncome > 0.0 {
      var p := ProvisionalSplit(savingsIncome - s0, t).entries;
      var initial := InitialMaxRate(g);
      ProvisionalShape(savingsIncome - s0, t);
      AllowanceValues(RaiseMaxRate(initial, p), 0.0);
      JoinedShape(s0, p, AllowanceFor(RaiseMaxRate(initial, p)));
    }
  }

  /** Once the slice is known, every amount is kept and the tracker is charged what the basic lines hold. */
  lemma SliceAmounts(savingsIncome: real, s0: real, t: BrbTracker, g: seq<TaxBandResult>)
    requires 0.0 <= s0 <= Max(0.0, savingsIncome) && t.remaining >= 0.0
    ensures var r := SavingsFromSlice(savingsIncome, s0, t, g);
      && Total(r.entries, Amount) == Max(0.0, savingsIncome)
      && r.tracker.remaining == t.remaining - Total(r.entries, AmountIn(Basic))
      && 0.0 <= r.tracker.remaining <= t.remaining
      && Total(r.entries, AmountIn(Higher)) <= HigherBandWidth
  {
    if savingsIncome > 0.0 {
      var x := savingsIncome - s0;
      var pending := ProvisionalSplit(x, t);
      assert Total(pending.entries, Amount) == x
          && pending.tracker.remaining == t.remaining - Total(pending.entries, AmountIn(Basic))
          && 0.0 <= pending.tracker.remaining <= t.remaining
          && Total(pending.entries, AmountIn(Higher)) <= HigherBandWidth by {
        ProvisionalIsCascade(x, t);
        CascadeContract(x, t, Savings, GeneralRates);
      }
      assert AllPositive(pending.entries) by {
        ProvisionalShape(x, t);
      }
      AssembleAmounts(s0, pending, InitialMaxRate(g));
    }
  }

  /** The second pass adds the starting slice to the amount and leaves every rated band's amount and the tracker as they were. */
  lemma AssembleAmounts(s0: real, pending: Allocation, initial: real)
    requires s0 >= 0.0 && AllPositive(pending.entries)
    ensures var j := Assemble(s0, pending, initial);
      && j.tracker == pending.tracker
      && Total(j.entries, Amount) == s0 + Total(pending.entries, Amount)
      && Total(j.entries, AmountIn(Basic)) == Total(pending.entries, AmountIn(Basic))
      && Total(j.entries, AmountIn(Higher)) == Total(pending.entries, AmountIn(Higher))
  {
    var a := AllowanceFor(RaiseMaxRate(initial, pending.entries));
    AllowanceValues(RaiseMaxRate(initial, pending.entries), 0.0);
    JoinedAmounts(s0, pending.entries, a, Amount);
    JoinedAmounts(s0, pending.entries, a, AmountIn(Basic));
    JoinedAmounts(s0, pending.entries, a, AmountIn(Higher));
  }

  /** Once the slice is known, the starting band holds exactly the slice. */
  lemma SliceStarting(savingsIncome: real, s0: real, t: BrbTracker, g: seq<TaxBandResult>)
    requires savingsIncome > 0.0 && s0 >= 0.0
    ensures var r := SavingsFromSlice(savingsIncome, s0, t, g).entries;
      && Total(r, AmountIn(Starting)) == s0
      && (HasBand(r, Starting) <==> s0 > 0.0)
  {
    var p := ProvisionalSplit(savingsIncome - s0, t).entries;
    var initial := InitialMaxRate(g);
    ProvisionalShape(savingsIncome - s0, t);
    AllowanceValues(RaiseMaxRate(initial, p), 0.0);
    JoinedStarting(s0, p, AllowanceFor(RaiseMaxRate(initial, p)));
  }

  /** Once the slice is known, the 0% lines hold the slice plus the allowance for the top rate reached, capped. */
  lemma SliceNilRated(savingsIncome: real, s0: real, t: BrbTracker, g: seq<TaxBandResult>)
    requires 0.0 <= s0 <= savingsIncome && savingsIncome > 0.0 && t.remaining >= 0.0
    ensures var r := SavingsFromSlice(savingsIncome, s0, t, g).entries;
      var x := savingsIncome - s0;
      Total(r, ZeroRated) == s0 + Min(AllowanceFor(Max(InitialMaxRate(g), RateReached(x, t.remaining))), x)
  {
    var x := savingsIncome - s0;
    var initial := InitialMaxRate(g);
    var pending := ProvisionalSplit(x, t);
    var a := AllowanceFor(RaiseMaxRate(initial, pending.entries));
    assert a == AllowanceFor(Max(initial, RateReached(x, t.remaining))) by {
      AllowanceChosen(x, t, initial);
    }
    AllowanceValues(RaiseMaxRate(initial, pending.entries), 0.0);
    ProvisionalShape(x, t);
    assert Total(pending.entries, Amount) == x by {
      ProvisionalIsCascade(x, t);
      CascadeContract(x, t, Savings, GeneralRates);
    }
    CarveBackCarves(pending.entries, a);
    StartingLinesFacts(s0);
    TotalAppend(StartingLines(s0), CarveBack(pending.entries, a), ZeroRated);
  }

  /** Carving only lowers rates to 0: lines rated within [0, top] stay so. */
  lemma {:induction false} CarveBackRates(s: seq<TaxBandResult>, a: real, top: real)
    requires RatesWithin(s, top)
    ensures RatesWithin(CarveBack(s, a), top)
    decreases |s|
  {
    if |s| > 0 {
      CarveBackRates(s[1..], a - Min(s[0].amount, a), top);
    }
  }

  /** The second pass keeps lines rated within [0, top] so: the starting line and the carved lines are at 0%. */
  lemma AssembleRates(s0: real, pending: Allocation, initial: real, top: real)
    requires top >= 0.0 && RatesWithin(pending.entries, top)
    ensures RatesWithin(Assemble(s0, pending, initial).entries, top)
  {
    var a := AllowanceFor(RaiseMaxRate(initial, pending.entries));
    CarveBackRates(pending.entries, a, top);
  }

  /** Once the slice is known, no line is rated above the additional rate. */
  lemma SliceRates(savingsIncome: real, s0: real, t: BrbTracker, g: seq<TaxBandResult>)
    ensures RatesWithin(SavingsFromSlice(savingsIncome, s0, t, g).entries, AdditionalRate)
  {
    if savingsIncome > 0.0 {
      ProvisionalShape(savingsIncome - s0, t);
      AssembleRates(s0, ProvisionalSplit(savingsIncome - s0, t), InitialMaxRate(g), AdditionalRate);
    }
  }

  /** No savings line is rated above the additional rate. */
  lemma SavingsRatesWithin(
    savingsIncome: real, grossNonSavingsIncome: real, personalAllowance: real,
    t: BrbTracker, generalTaxBands: seq<TaxBandResult>
  )
    ensures RatesWithin(CalculateSavingsTax(savingsIncome, grossNonSavingsIncome, personalAllowance, t, generalTaxBands).entries,
                        AdditionalRate)
  {
    SliceRates(savingsIncome, StartingSlice(savingsIncome, grossNonSavingsIncome, personalAllowance), t, generalTaxBands);
  }

  /** The savings lines are positive, well-priced savings lines. */
  lemma SavingsShape(
    savingsIncome: real, grossNonSavingsIncome: real, personalAllowance: real,
    t: BrbTracker, generalTaxBands: seq<TaxBandResult>
  )
    ensures var r := CalculateSavingsTax(savingsIncome, grossNonSavingsIncome, personalAllowance, t, generalTaxBands);
      AllPositive(r.entries) && WellPriced(r.entries) && AllOfKind(r.entries, Savings)
  {
    if savingsIncome > 0.0 {
      StartingSliceBounds(savingsIncome, grossNonSavingsIncome, personalAllowance);
      SliceShape(savingsIncome, StartingSlice(savingsIncome, grossNonSavingsIncome, personalAllowance), t, generalTaxBands);
    }
  }

  /**
   * Every unit of savings income lands in exactly one line; the basic band
   * is charged exactly what the basic lines hold and is never overdrawn; the
   * higher band holds at most its width.
   */
  lemma SavingsConserves(
    savingsIncome: real, grossNonSavingsIncome: real, personalAllowance: real,
    t: BrbTracker, generalTaxBands: seq<TaxBandResult>
  )
    requires t.remaining >= 0.0
    ensures var r := CalculateSavingsTax(savingsIncome, grossNonSavingsIncome, personalAllowance, t, generalTaxBands);
      && Total(r.entries, Amount) == Max(0.0, savingsIncome)
      && r.tracker.remaining == t.remaining - Total(r.entries, AmountIn(Basic))
      && 0.0 <= r.tracker.remaining <= t.remaining
      && Total(r.entries, AmountIn(Higher)) <= HigherBandWidth
  {
    if savingsIncome > 0.0 {
      StartingSliceBounds(savingsIncome, grossNonSavingsIncome, personalAllowance);
    }
    SliceAmounts(savingsIncome, StartingSlice(savingsIncome, grossNonSavingsIncome, personalAllowance), t, generalTaxBands);
  }

  /**
   * A starting-rate line appears exactly when there is savings income and
   * non-savings income is below the personal allowance, and it holds the
   * whole slice.
   */
  lemma SavingsStarting(
    savingsIncome: real, grossNonSavingsIncome: real, personalAllowance: real,
    t: BrbTracker, generalTaxBands: seq<TaxBandResult>
  )
    ensures var r := CalculateSavingsTax(savingsIncome, grossNonSavingsIncome, personalAllowance, t, generalTaxBands);
      && (HasBand(r.entries, Starting) <==> savingsIncome > 0.0 && grossNonSavingsIncome < personalAllowance)
      && Total(r.entries, AmountIn(Starting))
         == (if savingsIncome > 0.0 && grossNonSavingsIncome < personalAllowance
             then Min(savingsIncome, Min(StartingRateForSavingsThreshold, personalAllowance - grossNonSavingsIncome))
             else 0.0)
  {
    if savingsIncome > 0.0 {
      StartingSliceBounds(savingsIncome, grossNonSavingsIncome, personalAllowance);
      SliceStarting(savingsIncome, StartingSlice(savingsIncome, grossNonSavingsIncome, personalAllowance), t, generalTaxBands);
    }
  }

  /**
   * The 0% lines hold the starting slice plus the granted allowance, capped
   * at the savings above the slice.
   */
  lemma SavingsNilRated(
    savingsIncome: real, grossNonSavingsIncome: real, personalAllowance: real,
    t: BrbTracker, generalTaxBands: seq<TaxBandResult>
  )
    requires savingsIncome > 0.0 && t.remaining >= 0.0
    ensures var r := CalculateSavingsTax(savingsIncome, grossNonSavingsIncome, personalAllowance, t, generalTaxBands);
      var s0 := StartingSlice(savingsIncome, grossNonSavingsIncome, personalAllowance);
      Total(r.entries, ZeroRated)
      == s0 + Min(GrantedAllowance(savingsIncome, grossNonSavingsIncome, personalAllowance, t.remaining, generalTaxBands),
                  savingsIncome - s0)
  {
    StartingSliceBounds(savingsIncome, grossNonSavingsIncome, personalAllowance);
    SliceNilRated(savingsIncome, StartingSlice(savingsIncome, grossNonSavingsIncome, personalAllowance), t, generalTaxBands);
  }

  /**
   * Savings of 10,000 beside non-savings income of 2,000 under the standard
   * allowance: a 5,000 starting slice, then 1,000 of the basic-rate
   * allowance at 0% and 4,000 at 20%, for tax of 800.
   */
  lemma SavingsStartingRateExample()
    ensures var r := CalculateSavingsTax(10000.0, 2000.0, StandardPersonalAllowance, BrbTracker(BasicRateBand), []);
      && r.entries == [TaxBandResult(Starting, Savings, 5000.0, 0.0, 0.0),
                       ZeroLine(Basic, Savings, 1000.0),
                       Line(Basic, Savings, 4000.0, BasicRate)]
      && r.tracker == BrbTracker(32700.0)
      && Total(r.entries, Tax) == 800.0
  {
    assert StartingSlice(10000.0, 2000.0, StandardPersonalAllowance) == 5000.0;
    var t := BrbTracker(BasicRateBand);
    var pending := ProvisionalSplit(5000.0, t);
    var lb := Line(Basic, Savings, 5000.0, BasicRate);
    assert pending == Allocation([lb], BrbTracker(32700.0)) by {
      assert Use(t, 5000.0) == (5000.0, BrbTracker(32700.0));
      assert Step(Basic, Savings, 5000.0, BasicRate) == [lb];
      assert Step(Higher, Savings, 0.0, HigherRate) == [];
      assert Step(Additional, Savings, 0.0, AdditionalRate) == [];
    }
    assert RaiseMaxRate(0.0, [lb]) == BasicRate by {
      assert [lb][1..] == [];
    }
    var z, l := ZeroLine(Basic, Savings, 1000.0), Line(Basic, Savings, 4000.0, BasicRate);
    assert CarveBack([lb], 1000.0) == [z, l] by {
      assert [lb][1..] == [];
      assert CarveOne(lb, 1000.0) == [z, l];
    }
    var e := TaxBandResult(Starting, Savings, 5000.0, 0.0, 0.0);
    assert StartingLines(5000.0) == [e];
    assert [e] + [z, l] == [e, z, l];
    TotalSmall(e, z, l, Tax);
  }

  /**
   * Savings of 10,000 with 9,470 of the (extended) basic band left: the
   * savings reach the higher rate, so the allowance is 500, carved from the
   * basic part; 8,970 at 20% and 530 at 40%, for tax of 2,006.
   */
  lemma SavingsHigherRateExample()
    ensures var r := CalculateSavingsTax(10000.0, 100800.0, StandardPersonalAllowance, BrbTracker(9470.0), []);
      && r.entries == [ZeroLine(Basic, Savings, 500.0),
                       Line(Basic, Savings, 8970.0, BasicRate),
                       Line(Higher, Savings, 530.0, HigherRate)]
      && r.tracker == BrbTracker(0.0)
      && Total(r.entries, Tax) == 2006.0
  {
    assert StartingSlice(10000.0, 100800.0, StandardPersonalAllowance) == 0.0;
    var t := BrbTracker(9470.0);
    var pending := ProvisionalSplit(10000.0, t);
    var lb, lh := Line(Basic, Savings, 9470.0, BasicRate), Line(Higher, Savings, 530.0, HigherRate);
    assert pending == Allocation([lb, lh], BrbTracker(0.0)) by {
      assert Use(t, 10000.0) == (9470.0, BrbTracker(0.0));
      assert Step(Basic, Savings, 9470.0, BasicRate) == [lb];
      assert Min(530.0, HigherBandWidth) == 530.0;
      assert Step(Higher, Savings, 530.0, HigherRate) == [lh];
      assert Step(Additional, Savings, 0.0, AdditionalRate) == [];
    }
    assert RaiseMaxRate(0.0, [lb, lh]) == HigherRate by {
      assert [lb, lh][1..] == [lh];
      assert [lh][1..] == [];
    }
    var z, l := ZeroLine(Basic, Savings, 500.0), Line(Basic, Savings, 8970.0, BasicRate);
    assert CarveBack([lb, lh], 500.0) == [z, l, lh] by {
      assert [lb, lh][1..] == [lh];
      assert [lh][1..] == [];
      assert CarveOne(lb, 500.0) == [z, l];
      assert CarveOne(lh, 0.0) == [lh] by { CarveOneNothing(lh); }
    }
    assert StartingLines(0.0) == [];
    assert [] + [z, l, lh] == [z, l, lh];
    TotalSmall(z, l, lh, Tax);
  }
}
