/**
 * One line of the itemised result, and sums over sequences of lines.
 */
module TaxBand {
  import opened TaxConstants
  import opened BasicRateBandTracker

  /** One itemised line: `amount` of income of category `kind` taxed in `band` at `rate`. */
  datatype TaxBandResult = TaxBandResult(band: BandName, kind: BandType, amount: real, rate: real, tax: real)

  /** A line whose tax is its amount at its rate. */
  function Line(band: BandName, kind: BandType, amount: real, rate: real): (e: TaxBandResult)
    ensures e.band == band && e.kind == kind && e.amount == amount && e.rate == rate
    ensures e.tax == e.amount * e.rate
  {
    TaxBandResult(band, kind, amount, rate, amount * rate)
  }

  /** A nil-rate line; the source writes its tax as a literal 0. */
  function ZeroLine(band: BandName, kind: BandType, amount: real): (e: TaxBandResult)
    ensures e.band == band && e.kind == kind && e.amount == amount
    ensures e.rate == 0.0 && e.tax == e.amount * e.rate
  {
    TaxBandResult(band, kind, amount, 0.0, 0.0)
  }

  /** What an allocator hands back: its lines and the basic-rate-band tracker after it. */
  datatype Allocation = Allocation(entries: seq<TaxBandResult>, tracker: BrbTracker)

  /** Every line's tax is exactly its amount times its rate. */
  predicate WellPriced(s: seq<TaxBandResult>) {
    forall i :: 0 <= i < |s| ==> s[i].tax == s[i].amount * s[i].rate
  }

  /** Every line carries a strictly positive amount. */
  predicate AllPositive(s: seq<TaxBandResult>) {
    forall i :: 0 <= i < |s| ==> s[i].amount > 0.0
  }

  /** Every line belongs to category `kind`. */
  predicate AllOfKind(s: seq<TaxBandResult>, kind: BandType) {
    forall i :: 0 <= i < |s| ==> s[i].kind == kind
  }

  /** Which quantity of a line a sum adds up. */
  datatype Measure =
    | Amount                   // every line's amount
    | Tax                      // every line's tax
    | AmountIn(band: BandName) // the amount of lines in one band
    | ZeroRated                // the amount of lines taxed at 0%
    | TaxOf(kind: BandType)    // the tax of lines of one category
    | AmountOf(kind: BandType) // the amount of lines of one category

  function Weight(e: TaxBandResult, m: Measure): real {
    match m
    case Amount => e.amount
    case Tax => e.tax
    case AmountIn(b) => if e.band == b then e.amount else 0.0
    case ZeroRated => if e.rate == 0.0 then e.amount else 0.0
    case TaxOf(k) => if e.kind == k then e.tax else 0.0
    case AmountOf(k) => if e.kind == k then e.amount else 0.0
  }

  /** The sum of measure `m` over the lines `s`. */
  function Total(s: seq<TaxBandResult>, m: Measure): real {
    if |s| == 0 then 0.0 else Weight(s[0], m) + Total(s[1..], m)
  }

  /** Sums distribute over concatenation. */
  lemma {:induction false} TotalAppend(a: seq<TaxBandResult>, b: seq<TaxBandResult>, m: Measure)
    ensures Total(a + b, m) == Total(a, m) + Total(b, m)
    decreases |a|
  {
    if |a| == 0 {
      assert a + b == b;
    } else {
      assert (a + b)[1..] == a[1..] + b;
      TotalAppend(a[1..], b, m);
    }
  }

  /** Every sum distributes over concatenation. */
  lemma TotalAppendAll(a: seq<TaxBandResult>, b: seq<TaxBandResult>)
    ensures forall m :: Total(a + b, m) == Total(a, m) + Total(b, m)
  {
    forall m {
      TotalAppend(a, b, m);
    }
  }

  /** Positive, well-priced lines of one category stay so when joined. */
  lemma ShapeAppend(x: seq<TaxBandResult>, y: seq<TaxBandResult>, kind: BandType)
    requires AllPositive(x) && WellPriced(x) && AllOfKind(x, kind)
    requires AllPositive(y) && WellPriced(y) && AllOfKind(y, kind)
    ensures AllPositive(x + y) && WellPriced(x + y) && AllOfKind(x + y, kind)
  {
  }

  /** Every line's rate lies between 0 and `top`. */
  predicate RatesWithin(s: seq<TaxBandResult>, top: real) {
    forall i :: 0 <= i < |s| ==> 0.0 <= s[i].rate <= top
  }

  /** Over lines of one category, that category's sums are the whole sums and every other category's are zero. */
  lemma {:induction false} KindTotals(s: seq<TaxBandResult>, kind: BandType, other: BandType)
    requires AllOfKind(s, kind) && other != kind
    ensures Total(s, AmountOf(kind)) == Total(s, Amount)
    ensures Total(s, TaxOf(kind)) == Total(s, Tax)
    ensures Total(s, AmountOf(other)) == 0.0 && Total(s, TaxOf(other)) == 0.0
    decreases |s|
  {
    if |s| > 0 {
      KindTotals(s[1..], kind, other);
    }
  }

  /** Some line of `s` is in band `b`. */
  predicate HasBand(s: seq<TaxBandResult>, b: BandName) {
    exists i :: 0 <= i < |s| && s[i].band == b
  }

  /** Among positive lines, a band is present exactly when it holds a positive amount. */
  lemma {:induction false} HasBandIffAmount(s: seq<TaxBandResult>, b: BandName)
    requires AllPositive(s)
    ensures HasBand(s, b) <==> Total(s, AmountIn(b)) > 0.0
    ensures Total(s, AmountIn(b)) >= 0.0
    decreases |s|
  {
    if |s| > 0 {
      HasBandIffAmount(s[1..], b);
      if HasBand(s[1..], b) {
        var i :| 0 <= i < |s[1..]| && s[1..][i].band == b;
        assert s[i + 1].band == b;
      }
      if HasBand(s, b) && s[0].band != b {
        var i :| 0 <= i < |s| && s[i].band == b;
        assert s[1..][i - 1].band == b;
      }
    }
  }

  /** The sum over one, two or three lines, spelled out. */
  lemma TotalSmall(x: TaxBandResult, y: TaxBandResult, z: TaxBandResult, m: Measure)
    ensures Total([x], m) == Weight(x, m)
    ensures Total([x, y], m) == Weight(x, m) + Weight(y, m)
    ensures Total([x, y, z], m) == Weight(x, m) + Weight(y, m) + Weight(z, m)
  {
    assert [x][1..] == [];
    assert [x, y][1..] == [y];
    assert [x, y, z][1..] == [y, z];
    assert Total([y], m) == Weight(y, m) by { assert [y][1..] == []; }
    assert Total([y, z], m) == Weight(y, m) + Weight(z, m) by {
      assert [y, z][1..] == [z];
      assert [z][1..] == [];
    }
  }

  /** Tax over lines whose rates lie in [0, top] is at most `top` times their amount. */
  lemma TaxBoundedByRate(s: seq<TaxBandResult>, top: real)
    requires WellPriced(s)
    requires forall i :: 0 <= i < |s| ==> 0.0 <= s[i].rate <= top && s[i].amount >= 0.0
    ensures 0.0 <= Total(s, Tax) <= top * Total(s, Amount)
  {
    forall i | 0 <= i < |s| ensures 0.0 <= s[i].tax <= top * s[i].amount {
      ScaleWithin(s[i].amount, s[i].rate, top);
    }
    TaxBoundedByLines(s, top);
  }

  /** Lines each taxed between nothing and `top` times their amount are so taxed together. */
  lemma {:induction false} TaxBoundedByLines(s: seq<TaxBandResult>, top: real)
    requires forall i :: 0 <= i < |s| ==> 0.0 <= s[i].tax <= top * s[i].amount
    ensures 0.0 <= Total(s, Tax) <= top * Total(s, Amount)
    decreases |s|
  {
    if |s| > 0 {
      var rest := s[1..];
      TaxBoundedByLines(rest, top);
      BoundStep(s[0].tax, s[0].amount, Total(rest, Tax), Total(rest, Amount), top,
                Total(s, Tax), Total(s, Amount));
    }
  }

  /** A non-negative amount at a rate in [0, top] costs between nothing and `top` times the amount. */
  lemma ScaleWithin(x: real, rate: real, top: real)
    requires x >= 0.0 && 0.0 <= rate <= top
    ensures 0.0 <= x * rate <= top * x
  {
    assert top * x - x * rate == x * (top - rate);
  }

  /** A line rated within [0, top] keeps lines rated within it so. */
  lemma RatesWithinPrepend(e: TaxBandResult, s: seq<TaxBandResult>, top: real)
    requires 0.0 <= e.rate <= top && RatesWithin(s, top)
    ensures RatesWithin([e] + s, top)
  {
    var j := [e] + s;
    forall i | 0 <= i < |j| ensures 0.0 <= j[i].rate <= top {
      if i > 0 { assert j[i] == s[i - 1]; }
    }
  }

  /** Bounds by `top` on two parts add up to the bound on their sum. */
  lemma BoundStep(tax: real, amount: real, restTax: real, restAmount: real, top: real,
                  totalTax: real, totalAmount: real)
    requires 0.0 <= tax <= top * amount && 0.0 <= restTax <= top * restAmount
    requires totalTax == tax + restTax && totalAmount == amount + restAmount
    ensures 0.0 <= totalTax <= top * totalAmount
  {
    assert top * totalAmount == top * amount + top * restAmount;
  }
}
