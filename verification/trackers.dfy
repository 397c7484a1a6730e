/**
 * The shared, depletable extended basic-rate-band quota. The source mutates a
 * private field; here the tracker is a value and `Use` returns the new one.
 */
module BasicRateBandTracker {
  import opened Reals

  datatype BrbTracker = BrbTracker(remaining: real)

  /**
   * Takes as much of `amount` as the quota allows: returns the amount taken
   * (the lesser of the quota and the request) and the tracker reduced by it.
   */
  function Use(t: BrbTracker, amount: real): (r: (real, BrbTracker))
    ensures r.0 <= amount && r.0 <= t.remaining
    ensures r.0 == amount || r.0 == t.remaining
    ensures r.1.remaining == t.remaining - r.0
    ensures amount >= 0.0 && t.remaining >= 0.0 ==> 0.0 <= r.0 && r.1.remaining >= 0.0
    ensures amount >= t.remaining ==> r.1.remaining == 0.0
    ensures amount < t.remaining ==> r.0 == amount
  {
    var taken := Min(t.remaining, amount);
    (taken, BrbTracker(t.remaining - taken))
  }

  /** Asking for nothing takes nothing and leaves the quota as it was. */
  lemma UseNothing(t: BrbTracker)
    requires t.remaining >= 0.0
    ensures Use(t, 0.0) == (0.0, t)
  {
  }

  /** Two successive requests take, together, the lesser of the quota and their sum. */
  lemma UseTwice(t: BrbTracker, a: real, b: real)
    requires t.remaining >= 0.0 && a >= 0.0 && b >= 0.0
    ensures var first := Use(t, a);
            var second := Use(first.1, b);
            first.0 + second.0 == Min(t.remaining, a + b)
            && second.1.remaining == t.remaining - Min(t.remaining, a + b)
  {
    var first := Use(t, a);
    if a >= t.remaining {
      assert first == (t.remaining, BrbTracker(0.0));
      assert Use(first.1, b) == (0.0, BrbTracker(0.0));
    } else {
      assert first == (a, BrbTracker(t.remaining - a));
    }
  }
}

/**
 * The depletable personal-allowance quota: offsets income against the
 * allowance that is left.
 */
module AllowanceTracker {
  import opened Reals

  datatype PersonalAllowanceTracker = PersonalAllowanceTracker(remaining: real)

  /**
   * Applies as much allowance as possible to `income`; returns the income
   * left after the allowance and the tracker reduced by what was applied.
   */
  function ApplyTo(t: PersonalAllowanceTracker, income: real): (r: (real, PersonalAllowanceTracker))
    ensures var applied := income - r.0;
            applied <= income && applied <= t.remaining
            && (applied == income || applied == t.remaining)
            && r.1.remaining == t.remaining - applied
    ensures income >= 0.0 && t.remaining >= 0.0 ==>
              0.0 <= r.0 <= income && 0.0 <= r.1.remaining <= t.remaining
    ensures t.remaining >= income ==> r.0 == 0.0
    ensures t.remaining < income ==> r.1.remaining == 0.0
  {
    var applied := Min(t.remaining, income);
    (income - applied, PersonalAllowanceTracker(t.remaining - applied))
  }

  /** The quota never grows: successive applications only lower it. */
  lemma ApplyToNeverRaises(t: PersonalAllowanceTracker, x: real, y: real)
    requires t.remaining >= 0.0 && x >= 0.0 && y >= 0.0
    ensures var first := ApplyTo(t, x);
            var second := ApplyTo(first.1, y);
            0.0 <= second.1.remaining <= first.1.remaining <= t.remaining
            && (x - first.0) + (y - second.0) == Min(t.remaining, x + y)
  {
    var first := ApplyTo(t, x);
    if x >= t.remaining {
      assert first == (x - t.remaining, PersonalAllowanceTracker(0.0));
      assert ApplyTo(first.1, y) == (y, PersonalAllowanceTracker(0.0));
    } else {
      assert first == (0.0, PersonalAllowanceTracker(t.remaining - x));
    }
  }
}
