/**
 * The bracket table: an ordered, read-only list of marginal-rate bands,
 * and the shape such a table must have to describe a progressive schedule.
 */
module TaxBrackets {
  import opened Wrappers

  /**
   * One band. `limit` is the inclusive upper boundary, `None` for the
   * open-ended last band; `prevLimit` is the previous band's `limit`
   * (0 for the first band); `rate` is the marginal rate as a fraction.
   */
  datatype Bracket = Bracket(limit: Option<real>, prevLimit: real, rate: real)

  /** Singapore resident individual income tax bands (amounts in SGD). */
  const ResidentTaxBrackets: seq<Bracket> := [
    Bracket(Some(20000.0), 0.0, 0.00),
    Bracket(Some(30000.0), 20000.0, 0.02),
    Bracket(Some(40000.0), 30000.0, 0.035),
    Bracket(Some(80000.0), 40000.0, 0.07),
    Bracket(Some(120000.0), 80000.0, 0.115),
    Bracket(Some(160000.0), 120000.0, 0.15),
    Bracket(Some(200000.0), 160000.0, 0.18),
    Bracket(Some(240000.0), 200000.0, 0.19),
    Bracket(Some(280000.0), 240000.0, 0.195),
    Bracket(Some(320000.0), 280000.0, 0.20),
    Bracket(Some(500000.0), 320000.0, 0.22),
    Bracket(Some(1000000.0), 500000.0, 0.23),
    Bracket(None, 1000000.0, 0.24)
  ]

  /**
   * A table that partitions the income axis from 0 upwards, stated
   * between neighbouring bands: the first band starts at 0, each band
   * starts where the previous one ends, every bounded band is non-empty,
   * the last band (and only it, since every band with a successor has a
   * limit) is open-ended, every rate lies in [0, 1) and rates never go down.
   */
  predicate WellFormed(t: seq<Bracket>) {
    |t| > 0 &&
    t[0].prevLimit == 0.0 &&
    t[|t| - 1].limit.None? &&
    (forall i :: 0 < i < |t| ==> Follows(t[i - 1], t[i])) &&
    (forall i :: 0 <= i < |t| ==> NonEmptyBand(t[i]) && 0.0 <= t[i].rate < 1.0)
  }

  /** `b` starts where `prev` ends, and its rate is not lower. */
  predicate Follows(prev: Bracket, b: Bracket) {
    prev.limit.Some? && b.prevLimit == prev.limit.value && prev.rate <= b.rate
  }

  /** A bounded band ends strictly above where it starts. */
  predicate NonEmptyBand(b: Bracket) {
    b.limit.Some? ==> b.prevLimit < b.limit.value
  }

  /**
   * The same shape stated between any two bands: exactly the last band is
   * open-ended, finite limits strictly increase, each band starts where
   * the previous one ends, and rates are non-decreasing down the table.
   */
  predicate Ordered(t: seq<Bracket>) {
    |t| > 0 &&
    t[0].prevLimit == 0.0 &&
    (forall i :: 0 <= i < |t| ==> (t[i].limit.None? <==> i == |t| - 1)) &&
    (forall i, j :: 0 <= i < j < |t| - 1 ==>
       t[i].limit.Some? && t[j].limit.Some? && t[i].limit.value < t[j].limit.value) &&
    (forall i :: 0 <= i < |t| - 1 ==> t[i].limit.Some? && t[i + 1].prevLimit == t[i].limit.value) &&
    (forall i :: 0 <= i < |t| - 1 ==> t[i].limit.Some? && t[i].prevLimit < t[i].limit.value) &&
    (forall i :: 0 <= i < |t| ==> 0.0 <= t[i].rate < 1.0) &&
    (forall i, j :: 0 <= i <= j < |t| ==> t[i].rate <= t[j].rate)
  }

  /** Finite limits from band `i` on grow step by step (helper for induction). */
  lemma {:induction false} LimitsIncreaseFrom(t: seq<Bracket>, i: nat, j: nat)
    requires WellFormed(t)
    requires i < j < |t| - 1
    ensures t[i].limit.Some? && t[j].limit.Some? && t[i].limit.value < t[j].limit.value
    decreases j - i
  {
    assert Follows(t[j - 1], t[j]) && Follows(t[j], t[j + 1]) && NonEmptyBand(t[j]);
    if i < j - 1 {
      LimitsIncreaseFrom(t, i, j - 1);
    }
  }

  /** Rates from band `i` on never go down (helper for induction). */
  lemma {:induction false} RatesMonotoneFrom(t: seq<Bracket>, i: nat, j: nat)
    requires WellFormed(t)
    requires i <= j < |t|
    ensures t[i].rate <= t[j].rate
    decreases j - i
  {
    if i < j {
      RatesMonotoneFrom(t, i, j - 1);
      assert Follows(t[j - 1], t[j]);
    }
  }

  /** The neighbour-wise and the pairwise statements of the table shape agree. */
  lemma WellFormedIsOrdered(t: seq<Bracket>)
    ensures WellFormed(t) <==> Ordered(t)
  {
    if WellFormed(t) {
      forall i, j | 0 <= i < j < |t| - 1
        ensures t[i].limit.Some? && t[j].limit.Some? && t[i].limit.value < t[j].limit.value
      {
        LimitsIncreaseFrom(t, i, j);
      }
      forall i, j | 0 <= i <= j < |t|
        ensures t[i].rate <= t[j].rate
      {
        RatesMonotoneFrom(t, i, j);
      }
      forall i | 0 <= i < |t|
        ensures t[i].limit.None? <==> i == |t| - 1
      {
        if i < |t| - 1 {
          assert Follows(t[i], t[i + 1]);
        }
      }
    }
    if Ordered(t) {
      forall i | 0 < i < |t|
        ensures Follows(t[i - 1], t[i])
      {
        assert 0 <= i - 1 <= i < |t|;
      }
    }
  }

  /** The resident table has the required shape. */
  lemma ResidentWellFormed()
    ensures WellFormed(ResidentTaxBrackets)
  {
    var t := ResidentTaxBrackets;
    forall i | 0 < i < |t|
      ensures Follows(t[i - 1], t[i])
    {
      assert i == 1 || i == 2 || i == 3 || i == 4 || i == 5 || i == 6 || i == 7
        || i == 8 || i == 9 || i == 10 || i == 11 || i == 12;
    }
    forall i | 0 <= i < |t|
      ensures NonEmptyBand(t[i]) && 0.0 <= t[i].rate < 1.0
    {
      assert i == 0 || i == 1 || i == 2 || i == 3 || i == 4 || i == 5 || i == 6 || i == 7
        || i == 8 || i == 9 || i == 10 || i == 11 || i == 12;
    }
  }
}
