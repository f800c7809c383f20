/**
 * The view controller: clamps the entered income into the allowed range,
 * keeps the slider and the number box on the same value, and recomputes
 * the total, the effective rate, the breakdown and the advisory message.
 * The page elements are reduced to the values written into them; the
 * currency and percent formatting of those values is not modelled.
 */
module Ui {
  import opened Wrappers
  import opened TaxBrackets
  import opened TaxCalc
  import ResidentSchedule

  /** Upper end of the allowed income range. */
  const MaxIncome: real := 2000000.0

  const AdjustedMessage: string := "Value adjusted to allowed range."
  const InvalidMessage: string := "Invalid number; reset to 0."

  /** Which widget triggered an update: the slider, the number box, or the initial render. */
  datatype Control = Range | Number | Init

  /** Maps any parsed value into [0, MaxIncome]; a non-finite value becomes 0. */
  function ClampIncome(val: Num): (r: real)
    ensures 0.0 <= r <= MaxIncome
    ensures val.NonFinite? ==> r == 0.0
    ensures val.Finite? && 0.0 <= val.r <= MaxIncome ==> r == val.r
    ensures val.Finite? && val.r < 0.0 ==> r == 0.0
    ensures val.Finite? && val.r > MaxIncome ==> r == MaxIncome
  {
    if val.NonFinite? then 0.0 else Min(Max(0.0, val.r), MaxIncome)
  }

  /** Whether clamping changed the value (a non-finite value never equals its clamp). */
  predicate IsClamped(val: Num) {
    val.NonFinite? || ClampIncome(val) != val.r
  }

  /** Tax as a fraction of income; 0 when there is no income. */
  function EffectiveRate(income: real, tax: real): (e: real)
    ensures income > 0.0 ==> e * income == tax
    ensures income <= 0.0 ==> e == 0.0
  {
    if income > 0.0 then tax / income else 0.0
  }

  /** Clamping a clamped value changes nothing. */
  lemma ClampIdempotent(val: Num)
    ensures ClampIncome(Finite(ClampIncome(val))) == ClampIncome(val)
    ensures !IsClamped(Finite(ClampIncome(val)))
  {
  }

  /** A value is clamped exactly when it is non-finite or outside [0, MaxIncome]. */
  lemma ClampedIff(val: Num)
    ensures IsClamped(val) <==> val.NonFinite? || val.r < 0.0 || MaxIncome < val.r
  {
  }

  /**
   * The effective rate under the resident table is never negative and
   * stays below 1 (it is at most the top marginal rate the income reaches).
   */
  lemma EffectiveRateInRange(income: real)
    ensures 0.0 <= EffectiveRate(income, ProgressiveTax(Finite(income), ResidentTaxBrackets)) < 1.0
  {
    ResidentWellFormed();
    EffectiveRateBelowOne(ResidentTaxBrackets, income);
  }

  /** On any well-formed table the effective rate lies in [0, 1). */
  lemma EffectiveRateBelowOne(t: seq<Bracket>, income: real)
    requires WellFormed(t)
    ensures 0.0 <= EffectiveRate(income, ProgressiveTax(Finite(income), t)) < 1.0
  {
    if income > 0.0 {
      var tax := ProgressiveTax(Finite(income), t);
      TaxBelowIncome(t, income);
      RatioBounds(tax, income);
      assert EffectiveRate(income, tax) == tax / income;
    }
  }

  lemma RatioBounds(tax: real, income: real)
    requires 0.0 < income && 0.0 <= tax < income
    ensures 0.0 <= tax / income < 1.0
  {
    var e := tax / income;
    assert e * income == tax;
    var rest := 1.0 - e;
    assert rest * income == income - tax;
    assert rest * income > 0.0;
  }

  /** An income above the allowed range is taxed as MaxIncome, and the adjustment is reported. */
  lemma ClampAboveRange()
    ensures ClampIncome(Finite(2500000.0)) == MaxIncome
    ensures IsClamped(Finite(2500000.0))
    ensures ProgressiveTax(Finite(MaxIncome), ResidentTaxBrackets) == 439150.0
  {
    ResidentWellFormed();
    TaxInBand(ResidentTaxBrackets, MaxIncome, 12);
    assert Cumulative(ResidentTaxBrackets, 12) == 199150.0 by {
      ResidentSchedule.ResidentCumulative();
    }
  }

  /**
   * What the page shows: the two widget values, the tax and effective rate
   * before formatting, the breakdown rows and the advisory text.
   */
  class View {
    var rangeValue: real
    var numberValue: real
    var taxValue: real
    var effectiveRate: real
    var breakdown: seq<Row>
    var alert: string
    /** The locale number formatting used for band labels. */
    const numberFmt: real -> string

    /** Everything shown is recomputed from the one value both widgets hold. */
    ghost predicate Valid()
      reads this
    {
      rangeValue == numberValue &&
      0.0 <= rangeValue <= MaxIncome &&
      taxValue == ProgressiveTax(Finite(rangeValue), ResidentTaxBrackets) &&
      effectiveRate == EffectiveRate(rangeValue, taxValue) &&
      breakdown == BracketSlices(Finite(rangeValue), ResidentTaxBrackets, numberFmt) &&
      (alert == "" || alert == AdjustedMessage)
    }

    /** The initial render, from the slider's starting value. */
    constructor (initial: Num, numberFmt: real -> string)
      ensures Valid()
      ensures this.numberFmt == numberFmt
      ensures rangeValue == ClampIncome(initial)
      ensures alert == (if IsClamped(initial) then AdjustedMessage else "")
    {
      this.numberFmt := numberFmt;
      new;
      Update(initial, Init);
    }

    /**
     * One render cycle: clamp, write the value to both widgets, compute
     * the total, the effective rate and the breakdown, and set the
     * advisory. The "invalid number" branch is never taken: a non-finite
     * value always counts as clamped.
     */
    method Update(incoming: Num, fromControl: Control)
      modifies this
      ensures Valid()
      ensures rangeValue == numberValue == ClampIncome(incoming)
      ensures taxValue == ProgressiveTax(Finite(ClampIncome(incoming)), ResidentTaxBrackets)
      ensures effectiveRate == EffectiveRate(ClampIncome(incoming), taxValue)
      ensures breakdown == BracketSlices(Finite(ClampIncome(incoming)), ResidentTaxBrackets, numberFmt)
      ensures alert == (if IsClamped(incoming) then AdjustedMessage else "")
      ensures alert != InvalidMessage
    {
      var num := ClampIncome(incoming);
      var clamped := IsClamped(incoming);
      rangeValue := num;
      numberValue := num;

      var tax := CalculateProgressiveTax(Finite(num), ResidentTaxBrackets);
      var effective := if num > 0.0 then tax / num else 0.0;
      taxValue := tax;
      effectiveRate := effective;
      breakdown := ComputeBracketSlices(Finite(num), ResidentTaxBrackets, numberFmt);

      var message: string;
      if clamped {
        message := AdjustedMessage;
      } else if fromControl == Number && incoming.NonFinite? {
        message := InvalidMessage;
      } else {
        message := "";
      }
      alert := message;
    }
  }
}
