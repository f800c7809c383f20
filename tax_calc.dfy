/**
 * The progressive tax engine: the total tax owed on an income, and the
 * per-band breakdown of it, over any bracket table.
 *
 * The scan is specified by recursive functions over the table index
 * (Slice, Stops, ScanTax, ScanRows); the loops of the engine are methods
 * proved equal to them; the facts a caller relies on (the breakdown adds
 * up to the total, the slices add up to the income, the total is the
 * textbook sum over all bands, it grows with the income, it has a closed
 * form inside each band) are lemmas about those functions.
 */
module TaxCalc {
  import opened Wrappers
  import opened TaxBrackets

  /** One line of the breakdown: band label, rate, taxed portion, tax on it. */
  datatype Row = Row(band: string, rate: real, slice: real, tax: real)

  /** Income the engine treats as "no tax owed": not finite, or not positive. */
  predicate Degenerate(income: Num) {
    income.NonFinite? || income.r <= 0.0
  }

  /** The effective ceiling of a band: its limit, or the income itself when open-ended. */
  function Upper(b: Bracket, x: real): real {
    if b.limit.Some? then b.limit.value else x
  }

  /** The portion of income `x` that falls in band `b`. */
  function Slice(b: Bracket, x: real): real {
    Max(0.0, Min(x, Upper(b, x)) - b.prevLimit)
  }

  /** The scan ends at `b`: it is open-ended, or the income does not exceed its ceiling. */
  predicate Stops(b: Bracket, x: real) {
    b.limit.None? || x <= Upper(b, x)
  }

  /** What band `b` adds to the running total (only a positive slice is added). */
  function Contribution(b: Bracket, x: real): real {
    if Slice(b, x) > 0.0 then Slice(b, x) * b.rate else 0.0
  }

  /** The running total of the scan from band `i` up to and including the band where it stops. */
  function ScanTax(t: seq<Bracket>, x: real, i: nat): real
    requires i <= |t|
    decreases |t| - i
  {
    if i == |t| then 0.0
    else Contribution(t[i], x) + (if Stops(t[i], x) then 0.0 else ScanTax(t, x, i + 1))
  }

  /** Total tax payable on `income` under table `t`. */
  function ProgressiveTax(income: Num, t: seq<Bracket>): real {
    if Degenerate(income) then 0.0 else ScanTax(t, income.r, 0)
  }

  /** Index of the band where the scan from `i` stops, or `|t|` when no band stops it. */
  function StopIndex(t: seq<Bracket>, x: real, i: nat): (k: nat)
    requires i <= |t|
    ensures i <= k <= |t|
    decreases |t| - i
  {
    if i == |t| then |t|
    else if Stops(t[i], x) then i
    else StopIndex(t, x, i + 1)
  }

  /**
   * The label of a band, with the number formatting left as the
   * parameter `fmt`: "> lower" for the open-ended band, "lower - upper"
   * for a bounded one.
   */
  function FormatBand(b: Bracket, fmt: real -> string): string {
    if b.limit.None? then "> " + fmt(b.prevLimit)
    else fmt(b.prevLimit) + " - " + fmt(b.limit.value)
  }

  /** The breakdown row of band `b` at income `x`. */
  function SliceRow(b: Bracket, x: real, fmt: real -> string): Row {
    Row(FormatBand(b, fmt), b.rate, Slice(b, x), Slice(b, x) * b.rate)
  }

  /** The all-zero breakdown row of band `b`. */
  function ZeroRow(b: Bracket, fmt: real -> string): Row {
    Row(FormatBand(b, fmt), b.rate, 0.0, 0.0)
  }

  /** The rows the scan from band `i` produces, up to and including the band where it stops. */
  function ScanRows(t: seq<Bracket>, x: real, fmt: real -> string, i: nat): seq<Row>
    requires i <= |t|
    decreases |t| - i
  {
    if i == |t| then []
    else [SliceRow(t[i], x, fmt)] + (if Stops(t[i], x) then [] else ScanRows(t, x, fmt, i + 1))
  }

  /** One zero row per band, in table order. */
  function ZeroRows(t: seq<Bracket>, fmt: real -> string): seq<Row> {
    seq(|t|, j requires 0 <= j < |t| => ZeroRow(t[j], fmt))
  }

  /** The breakdown of `income` under `t`. */
  function BracketSlices(income: Num, t: seq<Bracket>, fmt: real -> string): seq<Row> {
    if Degenerate(income) then ZeroRows(t, fmt) else ScanRows(t, income.r, fmt, 0)
  }

  function SumTax(rows: seq<Row>): real {
    if rows == [] then 0.0 else rows[0].tax + SumTax(rows[1..])
  }

  function SumSlices(rows: seq<Row>): real {
    if rows == [] then 0.0 else rows[0].slice + SumSlices(rows[1..])
  }

  /**
   * The textbook definition of progressive tax, independent of the scan:
   * the sum over every band from `i` on of its slice times its rate.
   */
  function FullTax(t: seq<Bracket>, x: real, i: nat): real
    requires i <= |t|
    decreases |t| - i
  {
    if i == |t| then 0.0 else BandTax(t[i], x) + FullTax(t, x, i + 1)
  }

  /** The tax on the slice of income `x` in band `b`. */
  function BandTax(b: Bracket, x: real): real {
    Slice(b, x) * b.rate
  }

  /** The tax on a bounded band taken whole (0 for the open-ended band). */
  function FullBand(b: Bracket): real {
    if b.limit.Some? then (b.limit.value - b.prevLimit) * b.rate else 0.0
  }

  /** The cumulative tax of the first `k` bands taken whole. */
  function Cumulative(t: seq<Bracket>, k: nat): real
    requires k <= |t|
  {
    if k == 0 then 0.0 else Cumulative(t, k - 1) + FullBand(t[k - 1])
  }

  // ---------------------------------------------------------------------
  // The engine's two loops.
  // ---------------------------------------------------------------------

  /** Total tax payable: a scan over the bands with a running total and an early stop. */
  method CalculateProgressiveTax(income: Num, brackets: seq<Bracket>) returns (tax: real)
    ensures tax == ProgressiveTax(income, brackets)
    ensures Degenerate(income) ==> tax == 0.0
  {
    if income.NonFinite? || income.r <= 0.0 {
      return 0.0;
    }
    var x := income.r;
    tax := 0.0;
    for i := 0 to |brackets|
      invariant tax + ScanTax(brackets, x, i) == ScanTax(brackets, x, 0)
    {
      var b := brackets[i];
      var upper := if b.limit.Some? then b.limit.value else x;
      var slice := Max(0.0, Min(x, upper) - b.prevLimit);
      if slice > 0.0 {
        tax := tax + slice * b.rate;
      }
      if b.limit.None? || x <= upper {
        break;
      }
    }
  }

  /**
   * The breakdown: for degenerate income one zero row per band, otherwise
   * one row per band the scan touches, with the same slice and stop rule
   * as the total.
   */
  method ComputeBracketSlices(income: Num, brackets: seq<Bracket>, numberFmt: real -> string)
    returns (rows: seq<Row>)
    ensures rows == BracketSlices(income, brackets, numberFmt)
    ensures Degenerate(income) ==>
      |rows| == |brackets| &&
      forall j :: 0 <= j < |rows| ==> rows[j] == Row(FormatBand(brackets[j], numberFmt), brackets[j].rate, 0.0, 0.0)
  {
    rows := [];
    if income.NonFinite? || income.r <= 0.0 {
      for i := 0 to |brackets|
        invariant |rows| == i
        invariant forall j :: 0 <= j < i ==> rows[j] == ZeroRow(brackets[j], numberFmt)
      {
        var b := brackets[i];
        rows := rows + [Row(FormatBand(b, numberFmt), b.rate, 0.0, 0.0)];
      }
      return;
    }
    var x := income.r;
    for i := 0 to |brackets|
      invariant rows + ScanRows(brackets, x, numberFmt, i) == ScanRows(brackets, x, numberFmt, 0)
    {
      var b := brackets[i];
      var upper := if b.limit.Some? then b.limit.value else x;
      var slice := Max(0.0, Min(x, upper) - b.prevLimit);
      var taxedSlice := slice * b.rate;
      var row := Row(FormatBand(b, numberFmt), b.rate, slice, taxedSlice);
      assert row == SliceRow(b, x, numberFmt);
      ghost var before := rows;
      rows := rows + [row];
      if b.limit.None? || x <= upper {
        break;
      }
      AppendAssociative(before, row, ScanRows(brackets, x, numberFmt, i + 1));
    }
  }

  lemma AppendAssociative<T>(a: seq<T>, r: T, rest: seq<T>)
    ensures a + ([r] + rest) == (a + [r]) + rest
  {
  }

  // ---------------------------------------------------------------------
  // Properties of one band.
  // ---------------------------------------------------------------------

  /** A slice is never negative, and a bounded band's slice never exceeds its width. */
  lemma SliceBounds(b: Bracket, x: real)
    ensures 0.0 <= Slice(b, x)
    ensures b.limit.Some? && b.prevLimit <= b.limit.value ==> Slice(b, x) <= b.limit.value - b.prevLimit
    ensures Slice(b, x) <= Max(0.0, x - b.prevLimit)
  {
  }

  /** The guarded add of the engine is plain slice times rate. */
  lemma ContributionIsProduct(b: Bracket, x: real)
    ensures Contribution(b, x) == BandTax(b, x) == Slice(b, x) * b.rate
  {
  }

  /** A slice never shrinks as the income grows. */
  lemma SliceMonotone(b: Bracket, x: real, y: real)
    requires x <= y
    ensures Slice(b, x) <= Slice(b, y)
  {
  }

  /** A band label starts with "> " exactly when the band is open-ended. */
  lemma BandLabelShape(b: Bracket, fmt: real -> string)
    requires |fmt(b.prevLimit)| == 0 || fmt(b.prevLimit)[0] != '>'
    ensures var text := FormatBand(b, fmt);
      (b.limit.None? <==> |text| >= 2 && text[..2] == "> ") &&
      (b.limit.None? ==> text[2..] == fmt(b.prevLimit)) &&
      (b.limit.Some? ==> text[..|fmt(b.prevLimit)|] == fmt(b.prevLimit) &&
                         text[|fmt(b.prevLimit)|..] == " - " + fmt(b.limit.value))
  {
    var text := FormatBand(b, fmt);
    var lower := fmt(b.prevLimit);
    if b.limit.Some? {
      assert text == lower + (" - " + fmt(b.limit.value));
      if |lower| == 0 {
        assert text[0] == ' ';
      } else {
        assert text[0] == lower[0];
      }
    }
  }

  // ---------------------------------------------------------------------
  // The scan and its breakdown.
  // ---------------------------------------------------------------------

  /** With non-negative rates the running total of the scan is never negative. */
  lemma {:induction false} ScanTaxNonNegative(t: seq<Bracket>, x: real, i: nat)
    requires i <= |t|
    requires forall j :: 0 <= j < |t| ==> 0.0 <= t[j].rate
    ensures 0.0 <= ScanTax(t, x, i)
    decreases |t| - i
  {
    if i < |t| {
      SliceBounds(t[i], x);
      if !Stops(t[i], x) {
        ScanTaxNonNegative(t, x, i + 1);
      }
    }
  }

  /** Given non-negative rates, the tax payable is never negative. */
  lemma TaxNonNegative(income: Num, t: seq<Bracket>)
    requires forall j :: 0 <= j < |t| ==> 0.0 <= t[j].rate
    ensures 0.0 <= ProgressiveTax(income, t)
  {
    if !Degenerate(income) {
      ScanTaxNonNegative(t, income.r, 0);
    }
  }

  /**
   * The scan from `i` has one row for each band from `i` up to and
   * including the band where it stops (all remaining bands if none stops it).
   */
  lemma {:induction false} ScanRowsLength(t: seq<Bracket>, x: real, fmt: real -> string, i: nat)
    requires i <= |t|
    ensures |ScanRows(t, x, fmt, i)| == (if StopIndex(t, x, i) < |t| then StopIndex(t, x, i) + 1 else |t|) - i
    decreases |t| - i
  {
    if i < |t| && !Stops(t[i], x) {
      ScanRowsLength(t, x, fmt, i + 1);
    }
  }

  /** Row `j` of the scan from `i` is the row of band `i + j`. */
  lemma {:induction false} ScanRowAt(t: seq<Bracket>, x: real, fmt: real -> string, i: nat, j: nat)
    requires i <= |t|
    requires j < |ScanRows(t, x, fmt, i)|
    ensures i + j < |t|
    ensures ScanRows(t, x, fmt, i)[j] == SliceRow(t[i + j], x, fmt)
    decreases j
  {
    if j > 0 {
      assert !Stops(t[i], x);
      ScanRowAt(t, x, fmt, i + 1, j - 1);
    }
  }

  /** `StopIndex` is the first band at which the scan stops. */
  lemma {:induction false} StopIndexIsFirst(t: seq<Bracket>, x: real, i: nat)
    requires i <= |t|
    ensures forall j :: i <= j < StopIndex(t, x, i) ==> !Stops(t[j], x)
    ensures StopIndex(t, x, i) < |t| ==> Stops(t[StopIndex(t, x, i)], x)
    decreases |t| - i
  {
    if i < |t| && !Stops(t[i], x) {
      StopIndexIsFirst(t, x, i + 1);
    }
  }

  /**
   * For positive income the breakdown has one row per band up to and
   * including the band where the scan stops, so at most one per band:
   * its length is the stopping index plus one, every earlier band lets
   * the scan go on, and when no band stops it every band has a row.
   */
  lemma BreakdownLength(income: Num, t: seq<Bracket>, fmt: real -> string)
    requires !Degenerate(income)
    ensures var k := StopIndex(t, income.r, 0);
      |BracketSlices(income, t, fmt)| <= |t| &&
      (k < |t| ==> |BracketSlices(income, t, fmt)| == k + 1 && Stops(t[k], income.r)) &&
      (k == |t| ==> |BracketSlices(income, t, fmt)| == |t|) &&
      (forall j :: 0 <= j < k ==> !Stops(t[j], income.r))
  {
    ScanRowsLength(t, income.r, fmt, 0);
    StopIndexIsFirst(t, income.r, 0);
  }

  /**
   * For positive income, row `j` of the breakdown is band `j`'s label and
   * rate, its slice of the income, and a tax of slice times rate.
   */
  lemma BreakdownRowContents(income: Num, t: seq<Bracket>, fmt: real -> string, j: nat)
    requires !Degenerate(income)
    requires j < |BracketSlices(income, t, fmt)|
    ensures j < |t|
    ensures var row := BracketSlices(income, t, fmt)[j];
      row.band == FormatBand(t[j], fmt) &&
      row.rate == t[j].rate &&
      row.slice == Slice(t[j], income.r) &&
      row.tax == row.slice * row.rate
  {
    ScanRowAt(t, income.r, fmt, 0, j);
  }

  /** The rows of the scan from `i` add up to the scan's running total from `i`. */
  lemma {:induction false} ScanRowsSumTax(t: seq<Bracket>, x: real, fmt: real -> string, i: nat)
    requires i <= |t|
    ensures SumTax(ScanRows(t, x, fmt, i)) == ScanTax(t, x, i)
    decreases |t| - i
  {
    if i < |t| {
      var rows := ScanRows(t, x, fmt, i);
      var rest := if Stops(t[i], x) then [] else ScanRows(t, x, fmt, i + 1);
      assert rows[1..] == rest;
      ContributionIsProduct(t[i], x);
      if !Stops(t[i], x) {
        ScanRowsSumTax(t, x, fmt, i + 1);
      }
    }
  }

  lemma {:induction false} ZeroRowsSum(rows: seq<Row>)
    requires forall j :: 0 <= j < |rows| ==> rows[j].tax == 0.0 && rows[j].slice == 0.0
    ensures SumTax(rows) == 0.0 && SumSlices(rows) == 0.0
  {
    if rows != [] {
      ZeroRowsSum(rows[1..]);
    }
  }

  /** The breakdown's taxes add up to the total tax, for every income. */
  lemma BreakdownSumsToTax(income: Num, t: seq<Bracket>, fmt: real -> string)
    ensures SumTax(BracketSlices(income, t, fmt)) == ProgressiveTax(income, t)
  {
    if Degenerate(income) {
      ZeroRowsSum(ZeroRows(t, fmt));
    } else {
      ScanRowsSumTax(t, income.r, fmt, 0);
    }
  }

  // ---------------------------------------------------------------------
  // On a well-formed table.
  // ---------------------------------------------------------------------

  /** Band `k` starts at or above where every earlier band ends, and at or above 0. */
  lemma PrevLimitAbove(t: seq<Bracket>, i: nat, k: nat)
    requires WellFormed(t)
    requires i < k < |t|
    ensures t[i].limit.Some? && t[i].limit.value <= t[k].prevLimit
    ensures 0.0 <= t[i].prevLimit
  {
    assert Follows(t[k - 1], t[k]);
    if i < k - 1 {
      LimitsIncreaseFrom(t, i, k - 1);
    }
    PrevLimitNonNegative(t, i);
  }

  lemma {:induction false} PrevLimitNonNegative(t: seq<Bracket>, k: nat)
    requires WellFormed(t)
    requires k < |t|
    ensures 0.0 <= t[k].prevLimit
  {
    if k > 0 {
      PrevLimitNonNegative(t, k - 1);
      assert Follows(t[k - 1], t[k]) && NonEmptyBand(t[k - 1]);
    }
  }

  /** Bands that start at or above the income take nothing from it. */
  lemma {:induction false} TailIsZero(t: seq<Bracket>, x: real, i: nat)
    requires WellFormed(t)
    requires i <= |t|
    requires i < |t| ==> x <= t[i].prevLimit
    ensures FullTax(t, x, i) == 0.0
    decreases |t| - i
  {
    if i < |t| {
      assert Slice(t[i], x) == 0.0;
      if i + 1 < |t| {
        assert Follows(t[i], t[i + 1]) && NonEmptyBand(t[i]);
      }
      TailIsZero(t, x, i + 1);
    }
  }

  /**
   * On a well-formed table the early-stopping scan equals the sum over all
   * bands: no band after the one where the scan stops would add anything.
   */
  lemma {:induction false} ScanMatchesFullTax(t: seq<Bracket>, x: real, i: nat)
    requires WellFormed(t)
    requires i <= |t|
    ensures ScanTax(t, x, i) == FullTax(t, x, i)
    decreases |t| - i
  {
    if i < |t| {
      ContributionIsProduct(t[i], x);
      if Stops(t[i], x) {
        if i + 1 < |t| {
          assert Follows(t[i], t[i + 1]);
        }
        TailIsZero(t, x, i + 1);
      } else {
        ScanMatchesFullTax(t, x, i + 1);
      }
    }
  }

  lemma MulMonotone(r: real, a: real, b: real)
    requires 0.0 <= r && a <= b
    ensures r * a <= r * b && a * r <= b * r
  {
  }

  lemma MulPositive(a: real, b: real)
    requires 0.0 < a && 0.0 < b
    ensures 0.0 < a * b
  {
  }

  lemma SplitProduct(r: real, p: real, x: real)
    ensures p * r + (x - p) * r == x * r
  {
  }

  lemma {:induction false} FullTaxMonotone(t: seq<Bracket>, a: real, b: real, i: nat)
    requires forall j :: 0 <= j < |t| ==> 0.0 <= t[j].rate
    requires a <= b
    requires i <= |t|
    ensures FullTax(t, a, i) <= FullTax(t, b, i)
    decreases |t| - i
  {
    if i < |t| {
      FullTaxMonotone(t, a, b, i + 1);
      BandTaxMonotone(t[i], a, b);
    }
  }

  lemma BandTaxMonotone(b: Bracket, x: real, y: real)
    requires 0.0 <= b.rate && x <= y
    ensures BandTax(b, x) <= BandTax(b, y)
  {
    SliceMonotone(b, x, y);
    MulMonotone(b.rate, Slice(b, x), Slice(b, y));
  }

  /** On a well-formed table more income never means less tax. */
  lemma TaxMonotone(t: seq<Bracket>, a: real, b: real)
    requires WellFormed(t)
    requires a <= b
    ensures ProgressiveTax(Finite(a), t) <= ProgressiveTax(Finite(b), t)
  {
    assert forall j :: 0 <= j < |t| ==> 0.0 <= t[j].rate;
    TaxNonNegative(Finite(b), t);
    if 0.0 < a {
      ScanMatchesFullTax(t, a, 0);
      ScanMatchesFullTax(t, b, 0);
      FullTaxMonotone(t, a, b, 0);
    }
  }

  /** The scan from a band that starts below the income takes exactly the rest of the income. */
  lemma {:induction false} ScanRowsSumSlices(t: seq<Bracket>, x: real, fmt: real -> string, i: nat)
    requires WellFormed(t)
    requires i < |t| && t[i].prevLimit < x
    ensures SumSlices(ScanRows(t, x, fmt, i)) == x - t[i].prevLimit
    decreases |t| - i
  {
    var rows := ScanRows(t, x, fmt, i);
    if Stops(t[i], x) {
      assert rows == [SliceRow(t[i], x, fmt)];
    } else {
      assert Follows(t[i], t[i + 1]) && NonEmptyBand(t[i]);
      assert rows[1..] == ScanRows(t, x, fmt, i + 1);
      ScanRowsSumSlices(t, x, fmt, i + 1);
    }
  }

  /** On a well-formed table the breakdown's slices add up to the whole (positive) income. */
  lemma SlicesSumToIncome(t: seq<Bracket>, x: real, fmt: real -> string)
    requires WellFormed(t)
    requires 0.0 < x
    ensures SumSlices(BracketSlices(Finite(x), t, fmt)) == x
  {
    ScanRowsSumSlices(t, x, fmt, 0);
  }

  /** A band wholly below the income is taken whole and lets the scan go on. */
  lemma BandBelowIncome(b: Bracket, x: real)
    requires b.limit.Some? && b.prevLimit < b.limit.value < x
    ensures !Stops(b, x) && Contribution(b, x) == FullBand(b)
  {
  }

  /** The band holding the income takes the part above its lower bound and ends the scan. */
  lemma BandHoldsIncome(b: Bracket, x: real)
    requires b.prevLimit < x && (b.limit.Some? ==> x <= b.limit.value)
    ensures Stops(b, x) && Contribution(b, x) == (x - b.prevLimit) * b.rate
  {
  }

  /** Income in band `k` is taxed as the cumulative tax of the earlier bands plus the marginal part. */
  lemma {:induction false} ScanInBand(t: seq<Bracket>, x: real, k: nat, i: nat)
    requires WellFormed(t)
    requires i <= k < |t|
    requires t[k].prevLimit < x
    requires t[k].limit.Some? ==> x <= t[k].limit.value
    ensures ScanTax(t, x, i) == Cumulative(t, k) - Cumulative(t, i) + (x - t[k].prevLimit) * t[k].rate
    decreases k - i
  {
    if i == k {
      BandHoldsIncome(t[k], x);
    } else {
      PrevLimitAbove(t, i, k);
      assert NonEmptyBand(t[i]);
      BandBelowIncome(t[i], x);
      ScanInBand(t, x, k, i + 1);
    }
  }

  /**
   * Closed form within a band: for income `x` in band `k` (above its
   * lower bound and not above its limit), the tax is the cumulative tax of
   * bands `0..k-1` taken whole plus `k`'s rate on the part above its lower bound.
   */
  lemma TaxInBand(t: seq<Bracket>, x: real, k: nat)
    requires WellFormed(t)
    requires k < |t|
    requires t[k].prevLimit < x
    requires t[k].limit.Some? ==> x <= t[k].limit.value
    ensures ProgressiveTax(Finite(x), t) == Cumulative(t, k) + (x - t[k].prevLimit) * t[k].rate
  {
    PrevLimitNonNegative(t, k);
    ScanInBand(t, x, k, 0);
  }

  /**
   * Continuity at a boundary: the tax at a band's limit is the cumulative
   * tax of that band and all earlier ones, which is also what the next
   * band's closed form gives at its lower bound.
   */
  lemma TaxAtBoundary(t: seq<Bracket>, k: nat)
    requires WellFormed(t)
    requires k < |t| - 1
    ensures t[k].limit.Some? && t[k + 1].prevLimit == t[k].limit.value
    ensures ProgressiveTax(Finite(t[k].limit.value), t) == Cumulative(t, k + 1)
  {
    assert Follows(t[k], t[k + 1]) && NonEmptyBand(t[k]);
    TaxInBand(t, t[k].limit.value, k);
  }

  /** On a well-formed table every positive income lies in the band where the scan stops. */
  lemma StopBandHoldsIncome(t: seq<Bracket>, x: real)
    requires WellFormed(t)
    requires 0.0 < x
    ensures var k := StopIndex(t, x, 0);
      k < |t| && t[k].prevLimit < x && (t[k].limit.Some? ==> x <= t[k].limit.value)
  {
    StopIndexIsFirst(t, x, 0);
    var k := StopIndex(t, x, 0);
    assert Stops(t[|t| - 1], x);
    if k > 0 {
      assert !Stops(t[k - 1], x) && Follows(t[k - 1], t[k]);
    }
  }

  /** The whole-band tax so far is at most the current band's rate on its lower bound. */
  lemma {:induction false} CumulativeBound(t: seq<Bracket>, k: nat)
    requires WellFormed(t)
    requires k < |t|
    ensures 0.0 <= Cumulative(t, k) <= t[k].prevLimit * t[k].rate
  {
    if k > 0 {
      CumulativeBound(t, k - 1);
      var b := t[k - 1];
      assert Follows(b, t[k]) && NonEmptyBand(b);
      PrevLimitNonNegative(t, k - 1);
      assert Cumulative(t, k) == Cumulative(t, k - 1) + (b.limit.value - b.prevLimit) * b.rate;
      BandStep(Cumulative(t, k - 1), b.prevLimit, b.limit.value, b.rate, t[k].rate);
    }
  }

  /** Arithmetic step of `CumulativeBound`: adding one whole band keeps the bound. */
  lemma BandStep(c: real, p: real, limit: real, r: real, next: real)
    requires 0.0 <= c <= p * r
    requires 0.0 <= p < limit && 0.0 <= r <= next
    ensures 0.0 <= c + (limit - p) * r <= limit * next
  {
    MulMonotone(r, 0.0, limit - p);
    SplitProduct(r, p, limit);
    MulMonotone(limit, r, next);
  }

  /**
   * On a well-formed table, for income in band `k` the tax is at least 0
   * and at most band `k`'s rate times the income, hence below the income:
   * the effective rate never exceeds the top marginal rate reached.
   */
  lemma TaxBoundInBand(t: seq<Bracket>, x: real, k: nat)
    requires WellFormed(t)
    requires k < |t|
    requires t[k].prevLimit < x
    requires t[k].limit.Some? ==> x <= t[k].limit.value
    ensures 0.0 <= ProgressiveTax(Finite(x), t) <= x * t[k].rate
    ensures ProgressiveTax(Finite(x), t) < x
  {
    PrevLimitNonNegative(t, k);
    TaxInBand(t, x, k);
    CumulativeBound(t, k);
    MarginalBound(Cumulative(t, k), t[k].prevLimit, x, t[k].rate);
  }

  /** On a well-formed table the tax on a positive income is at least 0 and below the income. */
  lemma TaxBelowIncome(t: seq<Bracket>, x: real)
    requires WellFormed(t)
    requires 0.0 < x
    ensures 0.0 <= ProgressiveTax(Finite(x), t) < x
  {
    var k := StopIndex(t, x, 0);
    StopBandHoldsIncome(t, x);
    TaxBoundInBand(t, x, k);
  }

  lemma MarginalBound(cum: real, p: real, x: real, r: real)
    requires 0.0 <= cum <= p * r
    requires p < x && 0.0 < x && 0.0 <= r < 1.0
    ensures 0.0 <= cum + (x - p) * r <= x * r
    ensures cum + (x - p) * r < x
  {
    MulMonotone(r, 0.0, x - p);
    SplitProduct(r, p, x);
    MulPositive(1.0 - r, x);
  }
}
