# COVID-19 impact estimator, modelled in Dafny

The estimator takes one request record: a region with its average daily income
and the fraction of the population that earns it, a period type, the elapsed
time, the reported cases and the hospital beds. It returns that record together
with two projections. `impact` is the baseline, with multiplier 10. `severeImpact`
is the severe case, with multiplier 50. Each projection runs the same chain:

- currently infected;
- infections by the requested time, doubling once every three days;
- severe cases at 15%;
- free hospital beds: 35% of the beds less the severe cases, possibly negative;
- ICU cases at 5%;
- ventilator cases at 2%;
- dollars in flight: the lost income, rounded to cents.

The model is three modules:

- `Numeric` (numeric.dfy) holds the arithmetic of JavaScript that the chain
  uses. `Trunc` truncates toward zero, like `Math.trunc`. `Pow2` and `Power2`
  compute `2 ** k`. `Grow(c, k)` is `Math.trunc(c * 2 ** k)`. `RoundCents`
  computes `Number(x.toFixed(2))`.
- `Estimator` (estimator.dfy) holds the input and output records, one function
  per helper of the source, the assembly of the two scenarios, and the lemmas.
- `AsWritten` (as_written.dfy) evaluates the two defective source lines the
  way JavaScript does. See "## Findings".

Numbers are modelled as follows:

- Counts and days are unbounded `int`s.
- The income fields are `real`s.
- The factors 0.15, 0.35, 0.05 and 0.02 are exact rationals.
- Every truncated field is also characterised in integer arithmetic. `TruncDiv`
  divides toward zero and `TruncPercent(n, p)` is `TruncDiv(n * p, 100)`.
  These give each field's contract a definition that does not depend on its body.
- Rounding to cents takes halves away from zero. ECMAScript's `toFixed` works
  on the magnitude and keeps the larger candidate on a tie. From a magnitude
  of 10^21 on it does not round, and `RoundCents` leaves such a value unchanged.

The model makes three further choices, each following src/estimator.js:

- The ventilator field is named `casesForVentilatorByRequestedTime`, in the
  singular, as at src/estimator.js:52 and src/estimator.js:62.
- There is no invalid-input error. Nothing in src/estimator.js checks its input,
  so the model takes a well-typed record and every operation is total.
- Negative day counts are accepted, since nothing rejects them. The growth
  exponent is then negative and `2 ** k` is a fraction. The model computes that
  fraction exactly.

Equal inputs give equal outputs because every member is a Dafny function.

## Model

| member | source | states |
|---|---|---|
| `Estimator.ToDaysByPeriod` | src/estimator.js:5-13 | weeks count 7 days and months 30; any other period type, "days" or an unknown string, passes `timeToElapse` through unchanged |
| `Estimator.ToDaysMonotone` | src/estimator.js:5-13 | for a fixed period type, more elapsed time never gives fewer days |
| `Estimator.CurrentlyInfected` | src/estimator.js:16-18 | truncating the product of whole reported cases and the multiplier gives that exact product |
| `Estimator.GrowthFactor` | src/estimator.js:21 | the number of doublings is days divided by 3, truncated toward zero; for non-negative days it is the whole number of three-day periods |
| `Estimator.InfectionsByRequestedTime` | src/estimator.js:20-23 | for a non-negative exponent k the result is currently infected times 2^k; for a negative one it is currently infected divided by 2^-k, truncated toward zero |
| `Estimator.GrowthAtLeastCurrent` | src/estimator.js:20-23 | with non-negative counts and days, infections are at least currently infected, and equal to it when fewer than 3 days elapse |
| `Estimator.GrowthMonotoneInTime` | src/estimator.js:20-23 | with non-negative counts, more elapsed time never lowers the projected infections |
| `Estimator.SevereCasesByRequestedTime` | src/estimator.js:25-27 | severe cases are 15% of infections, truncated toward zero |
| `Estimator.BedsLeft` | src/estimator.js:30 | 35% of the beds less the severe cases, truncated toward zero and never clamped at zero |
| `Estimator.HospitalBedsByRequestedTime` | src/estimator.js:29-31 | free beds are 35% of the beds less this scenario's severe cases, truncated toward zero and never clamped at zero |
| `Estimator.CasesForICUByRequestedTime` | src/estimator.js:33-35 | ICU cases are 5% of infections, truncated toward zero |
| `Estimator.CasesForVentilatorByRequestedTime` | src/estimator.js:37-39 | ventilator cases are 2% of infections, truncated toward zero |
| `Estimator.DerivedLoadsOrdered` | src/estimator.js:25-39 | for non-negative infections, 0 <= ventilators <= ICU <= severe <= infections |
| `Estimator.BedsNonIncreasing` | src/estimator.js:29-31 | with the same beds, more severe cases never leave more beds free (stated over `BedsLeft`) |
| `Estimator.BedsTruncateTowardZero` | src/estimator.js:30 | one bed against 15360 severe cases leaves -15359 beds (truncation), where flooring would give -15360 |
| `Estimator.DollarsInFlight` | src/estimator.js:41-44 | the amount lies within half a cent of infections x daily income x population fraction x days, and is in whole cents below 10^21 |
| `Estimator.DollarsZeroWithoutCases` | src/estimator.js:41-44 | with no reported cases the amount is 0 |
| `Estimator.DollarsExactOnCents` | src/estimator.js:42-43 | a lost income already in whole cents is reported exactly |
| `Estimator.Covid19ImpactEstimator` | src/estimator.js:46-69 | the result echoes the input unchanged; `impact` is the chain at multiplier 10 and `severeImpact` the chain at multiplier 50 |
| `Estimator.ScaledMultiplier` | src/estimator.js:16-23 | five times the multiplier gives five times the currently infected and, for non-negative days, five times the infections |
| `Estimator.MultiplierRatio` | src/estimator.js:46-64 | severe currently infected is 5 x baseline; for non-negative days severe infections are 5 x baseline too |
| `Estimator.ScenariosShareGrowth` | src/estimator.js:20-23 | for non-negative days both scenarios multiply their currently infected by the same 2^(days / 3) |
| `Estimator.SevereScenarioDominates` | src/estimator.js:46-64 | for non-negative cases and days the severe scenario has at least as many infections, severe, ICU and ventilator cases as the baseline, and no more free beds |
| `Estimator.EstimatorDeterministic` | src/estimator.js:3-70 | equal inputs give equal outputs; in the model this holds of every Dafny function |
| `Estimator.WorkedExample` | src/estimator.js:16-69 | 10 cases, 30 days, 5000 beds, $1.5 at 0.6 give 100 / 102400 / 15360 / -13610 / 5120 / 2048 / 2764800.00 and, severe, 500 / 512000 / 76800 / -75050 / 25600 / 10240 / 13824000.00 |
| `Numeric.Trunc` | src/estimator.js:17 | `Math.trunc`: the result lies between zero and x, less than one away from x |
| `Numeric.TruncOfQuotient` | src/estimator.js:21 | truncating m / d is integer division rounding toward zero |
| `Numeric.Power2` | src/estimator.js:22 | `2 ** k` is positive, and is the natural power of two for k >= 0 |
| `Numeric.Grow` | src/estimator.js:22 | `Math.trunc(c * 2 ** k)` is c times 2^k for k >= 0, and c divided by 2^-k, truncated toward zero, for k < 0 |
| `Numeric.GrowIsTruncTimesPower2` | src/estimator.js:22 | for a natural exponent, `Grow(c, k)` equals the truncated rational product of c and `2 ** k` |
| `Numeric.GrowIsTruncTimesPower2Negative` | src/estimator.js:22 | for a negative exponent, `Grow(c, k)` equals the truncated rational product of c and the fraction `2 ** k` |
| `Numeric.GrowMonotone` | src/estimator.js:22 | for a non-negative count, more doublings never give a smaller result |
| `Numeric.RoundCents` | src/estimator.js:42-43 | `Number(x.toFixed(2))`: whole cents within half a cent of x, with ties away from zero; unchanged from 10^21 on |
| `Numeric.RoundCentsIdempotent` | src/estimator.js:42-43 | rounding to cents twice is rounding once |
| `AsWritten.GrowthFactorAsWritten` | src/estimator.js:21 | dividing the function object `toDays` by 3 and truncating gives NaN |
| `AsWritten.InfectionsAsWrittenIsNaN` | src/estimator.js:20-23 | as written, infections are NaN for every input |
| `AsWritten.InfectionsAsWrittenLosesGrowth` | src/estimator.js:21-22 | on the worked input the intended infections are 102400 and the as-written ones NaN |
| `AsWritten.TimeToElapseOnlyInToDays` | src/estimator.js:6 | among the names src/estimator.js declares, `timeToElapse` is bound inside `toDays` and not where `dollarsInFlight` reads it |
| `AsWritten.EstimatorAsWrittenAlwaysThrows` | src/estimator.js:43 | as written, every call throws a ReferenceError on `timeToElapse` |

## Left out

- src/server.js is not part of this model. It holds the HTTP routes, the listener, the request log kept in `logs.txt`, the XML rendering through an external library and the latency timing: I/O, a foreign library and clocks. Its binding of the module object rather than the function is a wiring fault of that file, not of the estimator.
- IEEE-754 doubles are not modelled. Arithmetic is exact, so a product that a double would land just below a whole number, `2 ** k` overflowing to Infinity, and `toFixed` rounding a binary value are not reproduced.
- Fields of the request record that the estimator never reads are not modelled, such as the region's name. `Input` holds only the fields it reads: the region's two income figures, the period type, the elapsed time, the reported cases and the beds. The echo returns that record.
- Reported cases, days and beds are whole numbers. Fractional inputs, which JavaScript would accept, are not modelled.
- Type errors are not modelled: a missing `region`, non-numeric fields and the like. The estimator has no validation code, so nothing in it raises an invalid-input error.
- The NaN at line 21 and the ReferenceError at line 43 are modelled only in `AsWritten`. The rest of the model uses the intended definitions.

## Findings

| source | as written | input that shows it | evidently intended | confidence | as-written member | corrected member |
|---|---|---|---|---|---|---|
| src/estimator.js:21 | the helper `toDays` is divided by 3 without being called; the function object converts to NaN, so every infection count and every count derived from it is NaN | any input, e.g. 10 reported cases over 30 days: 102400 intended, NaN as written | divide the result of `toDays()` by 3 | high; not executed | `AsWritten.InfectionsAsWrittenLosesGrowth` | `Estimator.GrowthFactor` |
| src/estimator.js:43 | `dollarsInFlight` reads `timeToElapse`, which is declared only inside `toDays`; the lookup throws a ReferenceError while `impact` is built, so every call throws | any input | multiply by the normalised day count | high; not executed | `AsWritten.EstimatorAsWrittenAlwaysThrows` | `Estimator.DollarsInFlight` |
