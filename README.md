# Progressive income tax calculator, modelled in Dafny

A model of a browser calculator for Singapore resident income tax. The
calculator has four parts:

- **Bracket table** (`TaxBrackets`). An ordered, constant list of bands
  `{limit, prevLimit, rate}`. The last band is open-ended (`limit` is
  `null`, here `None`). `WellFormed` is the shape such a table must have:
  the first band starts at 0, and each band starts where the previous one
  ends. Every bounded band is non-empty, only the last band is open-ended,
  rates lie in [0, 1), and rates never go down.
- **Tax engine** (`TaxCalc`). `CalculateProgressiveTax` scans the bands
  with a running total and stops early. `ComputeBracketSlices` does the
  same scan and records one row per band it touches; for income that is
  non-finite or not positive it gives one zero row per band instead. Both
  are methods with loops, proved equal to recursive specification
  functions (`ScanTax`, `ScanRows`). The facts a caller relies on are
  lemmas about those functions:
  - the rows' taxes add up to the total;
  - on a well-formed table the rows' slices add up to the income;
  - on a well-formed table the early-stopping scan equals the textbook
    sum over all bands (`FullTax`);
  - the tax never decreases as income grows;
  - inside each band the tax has a closed form, and it is continuous at
    the band boundaries;
  - the tax is at most the top marginal rate reached times the income.
- **Resident schedule** (`ResidentSchedule`). The cumulative totals written
  in the table's comments (44,550 at 320,000; 84,150 at 500,000; 199,150 at
  1,000,000). Above 1,000,000 the tax grows at exactly 24%.
- **View controller** (`Ui`). `ClampIncome` maps the entered value into
  [0, 2,000,000]. The class `View` holds what the page shows: the slider
  value, the number-box value, the tax, the effective rate, the breakdown
  and the advisory text. `View.Update` is one render cycle. Its contract
  proves three things:
  - both widgets end up with the same clamped number;
  - the advisory text is "Value adjusted to allowed range." exactly when
    the value was clamped, and empty otherwise;
  - the "Invalid number; reset to 0." branch can never be taken, because
    a non-finite value always counts as clamped.

Amounts and rates are exact `real`s. A JavaScript number is
`Num = Finite(r) | NonFinite`.

For income 40,000 the code computes 550 (0% on 20,000, then 200 and 350).
`ResidentSchedule.TaxAt40000` proves that figure.

## Model

| member | source | states |
|---|---|---|
| `TaxBrackets.WellFormedIsOrdered` | assets/js/tax-brackets.js:4-27 | The table shape stated between neighbours is equivalent to the shape stated between any two bands. The equivalent shape: band 0 starts at 0; exactly the last band has a null limit; finite limits strictly increase; each band starts at the previous limit; rates lie in [0,1) and are non-decreasing. |
| `TaxBrackets.ResidentWellFormed` | assets/js/tax-brackets.js:9-28 | The resident table satisfies that shape. |
| `TaxCalc.CalculateProgressiveTax` | assets/js/tax-calc.js:10-20 | The loop's total equals the scan `ProgressiveTax`. It is 0 for income that is non-finite or not positive. |
| `TaxCalc.ComputeBracketSlices` | assets/js/tax-calc.js:29-45 | The loop's rows equal the breakdown `BracketSlices`. For income that is non-finite or not positive there is one row per band, in table order, with that band's label and rate and slice 0, tax 0. |
| `TaxCalc.StopIndexIsFirst` | assets/js/tax-calc.js:17 | The stopping index is the first band that is open-ended or whose ceiling is at least the income. Every band before it lets the scan continue. |
| `TaxCalc.SliceBounds` | assets/js/tax-calc.js:14-15 | A slice is at least 0. It is at most `limit - prevLimit` for a bounded band with `prevLimit <= limit`, and at most the part of the income above `prevLimit`. |
| `TaxCalc.ContributionIsProduct` | assets/js/tax-calc.js:15-16 | Adding the slice only when it is positive is the same as adding slice times rate. |
| `TaxCalc.SliceMonotone` | assets/js/tax-calc.js:14-15 | A band's slice never shrinks as income grows. |
| `TaxCalc.BandLabelShape` | assets/js/tax-calc.js:47-50 | Assume the formatted lower bound does not start with '>'. Then a label starts with "> " exactly when the band's limit is null, followed by the formatted lower bound. Otherwise the label is the formatted lower bound, then " - ", then the formatted limit. |
| `TaxCalc.TaxNonNegative` | assets/js/tax-calc.js:10-20 | With non-negative rates, the total tax is at least 0 for every input. |
| `TaxCalc.BreakdownLength` | assets/js/tax-calc.js:37-43 | For positive income the number of rows is at most the number of bands. It equals the stopping index plus one, and the band at that index stops the scan. When no band stops the scan, there is one row per band. |
| `TaxCalc.BreakdownRowContents` | assets/js/tax-calc.js:38-41 | For positive income, row j carries band j's label and rate and band j's slice of the income, and its tax equals slice times rate. |
| `TaxCalc.BreakdownSumsToTax` | assets/js/tax-calc.js:10-45 | For every input, the rows' taxes add up to the total tax. |
| `TaxCalc.ScanMatchesFullTax` | assets/js/tax-calc.js:13-18 | On a well-formed table, the scan from any band equals the sum of slice times rate over all bands from there. The bands after the stop add nothing. |
| `TaxCalc.TaxMonotone` | assets/js/tax-calc.js:10-20 | On a well-formed table, `a <= b` implies tax(a) <= tax(b). |
| `TaxCalc.SlicesSumToIncome` | assets/js/tax-calc.js:37-43 | On a well-formed table, the rows' slices add up to the income for every positive income. |
| `TaxCalc.TaxInBand` | assets/js/tax-calc.js:13-18 | On a well-formed table, take income x in band k (above its lower bound, not above its limit). Its tax is the tax of bands 0..k-1 taken whole, plus band k's rate times (x - prevLimit). |
| `TaxCalc.TaxAtBoundary` | assets/js/tax-calc.js:13-18 | On a well-formed table, the tax at a band's limit equals the whole-band tax of that band and all earlier bands. The next band starts at that limit, so the tax is continuous there. |
| `TaxCalc.StopBandHoldsIncome` | assets/js/tax-calc.js:17 | On a well-formed table, every positive income lies in the band where the scan stops. |
| `TaxCalc.CumulativeBound` | assets/js/tax-brackets.js:10-27 | On a well-formed table, the whole-band tax of the bands before band k is between 0 and band k's rate times its lower bound. |
| `TaxCalc.TaxBoundInBand` | assets/js/tax-calc.js:13-18 | On a well-formed table, for income x in band k the tax is at least 0 and at most band k's rate times x, and so below x. |
| `TaxCalc.TaxBelowIncome` | assets/js/tax-calc.js:10-20 | On a well-formed table, the tax on every positive income is at least 0 and below the income. |
| `ResidentSchedule.ResidentCumulative` | assets/js/tax-brackets.js:10-25 | The resident table's whole-band totals are 200 after band 2, 36,550 after band 9, 44,550 after band 10, 84,150 after band 11 and 199,150 after band 12. |
| `ResidentSchedule.TaxAt20000` | assets/js/tax-brackets.js:10 | The tax at 20,000 is 0. |
| `ResidentSchedule.TaxAt40000` | assets/js/tax-brackets.js:10-12 | The tax at 40,000 is 550. |
| `ResidentSchedule.TaxAt320000` | assets/js/tax-brackets.js:21 | The tax at 320,000 is 44,550. |
| `ResidentSchedule.TaxAt500000` | assets/js/tax-brackets.js:22-23 | The tax at 500,000 is 84,150. |
| `ResidentSchedule.TaxAt1000000` | assets/js/tax-brackets.js:24-25 | The tax at 1,000,000 is 199,150. |
| `ResidentSchedule.TaxAboveOneMillion` | assets/js/tax-brackets.js:26-27 | For x > 1,000,000 the tax is 199,150 + 0.24 (x - 1,000,000), which is strictly above 199,150. |
| `Ui.ClampIncome` | assets/js/ui.js:14-17 | The result lies in [0, MAX_INCOME]. A non-finite value gives 0, a negative value gives 0, a value above the range gives MAX_INCOME, and an in-range value is unchanged. |
| `Ui.ClampIdempotent` | assets/js/ui.js:14-17 | Clamping a clamped value changes nothing, so it is never reported as clamped. |
| `Ui.ClampedIff` | assets/js/ui.js:40-41 | `clamped` holds exactly when the value is non-finite, below 0 or above MAX_INCOME. |
| `Ui.EffectiveRate` | assets/js/ui.js:46 | For positive income, rate times income equals tax. Otherwise the rate is 0. |
| `Ui.EffectiveRateBelowOne` | assets/js/ui.js:45-46 | On any well-formed table, the effective rate for any income lies in [0, 1). |
| `Ui.EffectiveRateInRange` | assets/js/ui.js:45-46 | Under the resident table, the effective rate for any income lies in [0, 1). |
| `Ui.ClampAboveRange` | assets/js/ui.js:40-45 | 2,500,000 is clamped to 2,000,000 and reported as clamped. The tax then computed is 439,150. |
| `Ui.View.Update` | assets/js/ui.js:39-58 | Both widget values equal the clamped number. The tax is the engine's total on it, and the effective rate is tax/income (0 at income 0). The breakdown is the engine's rows. The alert is "Value adjusted to allowed range." exactly when the value was clamped and empty otherwise, so it is never "Invalid number; reset to 0.". The view invariant holds afterwards. |
| `Ui.View.constructor` | assets/js/ui.js:64-65 | The initial render is an update from the slider's starting value, and it leaves the view invariant holding. |

## Left out

- DOM lookups, event listeners, the `innerHTML` row markup of
  `renderBreakdown`, and the dash shown for a zero slice
  (assets/js/ui.js:7-12, 27-37, 60-62): browser glue. The view keeps the
  numbers and rows it would display.
- `formatCurrency`, `formatPercent` and `numberFmt`: locale library calls.
  `numberFmt` is the function parameter `fmt` of `FormatBand`. The tax and
  effective rate are kept as numbers before formatting.
- `Number(incomingValue)`: string parsing. The input arrives already parsed
  as a `Num`.
- IEEE floating point: the model uses exact reals, so the JavaScript
  results agree with it only up to rounding error. JavaScript's negative
  zero is not modelled. `Number("-0")` is -0, which clamps to 0 and is not
  reported as clamped; the model gives the same outcome for 0.
- The `STEP`, `LOCALE` and `CURRENCY` settings: they only affect the page.
- The default-table argument `brackets = RESIDENT_TAX_BRACKETS`: the model's
  engine always takes the table explicitly, and the view passes the
  resident table.
