/**
  The two places where the estimator's text departs from its evident intent,
  modelled as the JavaScript evaluates them, beside the intended definitions
  of module Estimator that the rest of the model uses.

  1. `Math.trunc(toDays / 3)` (src/estimator.js:21) divides the function
     object `toDays` rather than its result. A function object converts to
     NaN, and NaN survives `Math.trunc`, `2 **` and `*`, so the projected
     infections are NaN for every input.
  2. `dollarsInFlight` (src/estimator.js:43) reads `timeToElapse`, a name
     declared only inside `toDays`. The lookup throws a ReferenceError, and
     since the `impact` record evaluates `dollarsInFlight(10)`, every call of
     the estimator throws.
*/
module AsWritten {
  import opened Numeric
  import Estimator

  /** A JavaScript number, reduced to what the two defects need: a finite
      value or NaN. */
  datatype JsNumber = Finite(value: real) | NaN

  /** The operand of the division at line 21: a number or a function object. */
  datatype JsValue = Number(number: JsNumber) | FunctionObject(name: string)

  datatype JsError = ReferenceError(identifier: string)

  /** How evaluating an expression ends: with a value or with an exception. */
  datatype Completion<T> = Normal(value: T) | Throw(error: JsError)

  /** Numeric conversion: a function object becomes NaN (its string form is
      source text, not a numeric literal). */
  function ToNumber(v: JsValue): (r: JsNumber)
    ensures v.FunctionObject? ==> r == NaN
  {
    match v
    case Number(n) => n
    case FunctionObject(_) => NaN
  }

  function DivideBy(a: JsNumber, d: real): JsNumber
    requires d != 0.0
  {
    match a
    case Finite(x) => Finite(x / d)
    case NaN => NaN
  }

  function Multiply(a: JsNumber, b: JsNumber): JsNumber {
    if a.Finite? && b.Finite? then Finite(a.value * b.value) else NaN
  }

  /** `Math.trunc` on a JavaScript number; the result is whole or NaN. */
  function JsTrunc(a: JsNumber): (r: JsNumber)
    ensures r.Finite? ==> r.value == Trunc(r.value) as real
  {
    match a
    case Finite(x) =>
      TruncOfInt(Trunc(x));
      Finite(Trunc(x) as real)
    case NaN => NaN
  }

  /** `2 ** k` for a whole exponent or NaN. */
  function Exp2(k: JsNumber): JsNumber
    requires k.Finite? ==> k.value == Trunc(k.value) as real
  {
    match k
    case Finite(x) => Finite(Power2(Trunc(x)))
    case NaN => NaN
  }

  /** Line 21 as written: `Math.trunc(toDays / 3)`. */
  function GrowthFactorAsWritten(): (r: JsNumber)
    ensures r == NaN
  {
    JsTrunc(DivideBy(ToNumber(FunctionObject("toDays")), 3.0))
  }

  /** Lines 20-23 as written: `Math.trunc(currentlyInfected(type) * (2 ** factor))`. */
  function InfectionsAsWritten(data: Estimator.Input, multiplier: int): JsNumber {
    var c := Estimator.CurrentlyInfected(data, multiplier);
    JsTrunc(Multiply(Finite(c as real), Exp2(GrowthFactorAsWritten())))
  }

  /** As written the projected infections are NaN whatever the input. */
  lemma InfectionsAsWrittenIsNaN(data: Estimator.Input, multiplier: int)
    ensures InfectionsAsWritten(data, multiplier) == NaN
  {
  }

  /** On the worked input the intended pipeline projects 102400 infections,
      the text as written NaN: growth is lost entirely. */
  lemma InfectionsAsWrittenLosesGrowth()
    ensures Estimator.InfectionsByRequestedTime(Estimator.WorkedInput, Estimator.ImpactMultiplier) == 102400
    ensures InfectionsAsWritten(Estimator.WorkedInput, Estimator.ImpactMultiplier) == NaN
  {
    Estimator.WorkedExample();
  }

  /** The names that src/estimator.js itself declares and that are visible
      where `dollarsInFlight` is evaluated: its parameter, the estimator's
      parameter and its `const` bindings, and the module's own binding. The
      names Node adds around a module (`require`, `module`, `exports` and the
      like) and its globals (`Math`, `Number`, ...) are not listed; none of
      them is called `timeToElapse`, so leaving them out does not change
      whether that name resolves. */
  const DollarsInFlightScope: set<string> := {
    "type", "data", "toDays", "currentlyInfected", "infectionsByRequestedTime",
    "severeCasesByRequestedTime", "hospitalBedsByRequestedTime",
    "casesForICUByRequestedTime", "casesForVentilatorByRequestedTime",
    "dollarsInFlight", "impact", "severeImpact", "covid19ImpactEstimator"}

  /** The names src/estimator.js declares that are visible inside `toDays`:
      those around it and its own `let`. */
  const ToDaysScope: set<string> := DollarsInFlightScope - {"type"} + {"timeToElapse"}

  /** Identifier lookup: an unbound name throws a ReferenceError. */
  function Resolve(scope: set<string>, name: string): (r: Completion<string>)
    ensures r.Normal? <==> name in scope
  {
    if name in scope then Normal(name) else Throw(ReferenceError(name))
  }

  /** Lines 41-44 as written. The product reads `timeToElapse`; when the lookup
      throws, the call throws. Were the name bound, the amount would be the
      intended one. */
  function DollarsInFlightAsWritten(data: Estimator.Input, multiplier: int): Completion<real> {
    match Resolve(DollarsInFlightScope, "timeToElapse")
    case Throw(e) => Throw(e)
    case Normal(_) => Normal(Estimator.DollarsInFlight(data, multiplier))
  }

  /** Lines 46-69 as written: building `impact` evaluates `dollarsInFlight(10)`,
      whose exception ends the call before any record is returned. */
  function EstimatorAsWritten(data: Estimator.Input): Completion<Estimator.Output> {
    match DollarsInFlightAsWritten(data, Estimator.ImpactMultiplier)
    case Throw(e) => Throw(e)
    case Normal(_) => Normal(Estimator.Covid19ImpactEstimator(data))
  }

  /** `timeToElapse` is bound in `toDays` only. */
  lemma TimeToElapseOnlyInToDays()
    ensures "timeToElapse" in ToDaysScope && "timeToElapse" !in DollarsInFlightScope
  {
  }

  /** As written, every call of the estimator throws a ReferenceError on
      `timeToElapse`. */
  lemma EstimatorAsWrittenAlwaysThrows(data: Estimator.Input)
    ensures EstimatorAsWritten(data) == Throw(ReferenceError("timeToElapse"))
  {
    TimeToElapseOnlyInToDays();
  }
}
