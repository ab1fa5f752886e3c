/**
  The COVID-19 impact estimator: from a region's reported cases, the elapsed
  time, its hospital beds and its income figures it projects a baseline
  scenario (`impact`, multiplier 10) and a severe scenario (`severeImpact`,
  multiplier 50) through one chain of derived quantities.

  Every helper of the source is a function of the input record and the
  scenario multiplier, as in the source, and the result echoes the input.
  Counts and days are unbounded integers; the decimal factors 0.15, 0.35,
  0.05 and 0.02 are exact rationals; `Math.trunc` is `Trunc` (toward zero).
*/
module Estimator {
  import opened Numeric

  /** The region's income figures, the two fields of `data.region` the
      estimator reads. */
  datatype Region = Region(avgDailyIncomeInUSD: real, avgDailyIncomePopulation: real)

  /** The request record; `periodType` is compared as a string, as in the source. */
  datatype Input = Input(
    region: Region,
    periodType: string,
    timeToElapse: int,
    reportedCases: int,
    totalHospitalBeds: int)

  /** One scenario's projection. The ventilator field keeps the singular name
      the estimator gives it. */
  datatype ScenarioEstimate = ScenarioEstimate(
    currentlyInfected: int,
    infectionsByRequestedTime: int,
    severeCasesByRequestedTime: int,
    hospitalBedsByRequestedTime: int,
    casesForICUByRequestedTime: int,
    casesForVentilatorByRequestedTime: int,
    dollarsInFlight: real)

  datatype Estimate = Estimate(impact: ScenarioEstimate, severeImpact: ScenarioEstimate)

  datatype Output = Output(data: Input, estimate: Estimate)

  const ImpactMultiplier: int := 10
  const SevereImpactMultiplier: int := 50

  /** The elapsed time in days. Any period type other than "weeks" and
      "months" (including "days" and unknown strings) passes the count through. */
  function ToDays(data: Input): int {
    if data.periodType == "weeks" then data.timeToElapse * 7
    else if data.periodType == "months" then data.timeToElapse * 30
    else data.timeToElapse
  }

  /** `trunc(n * p / 100)`: the share of `n` at `p` percent, truncated toward
      zero, in integer arithmetic. */
  function TruncPercent(n: int, p: nat): int {
    TruncDiv(n * p, 100)
  }

  /** Reported cases scaled by the scenario multiplier. */
  function CurrentlyInfected(data: Input, multiplier: int): (r: int)
    ensures r == data.reportedCases * multiplier
  {
    TruncOfInt(data.reportedCases * multiplier);
    Trunc((data.reportedCases * multiplier) as real)
  }

  /** The number of doublings, one per whole three days. The source writes
      `Math.trunc(toDays / 3)`, dividing the helper itself rather than its
      result; this is the intended `Math.trunc(toDays() / 3)`. */
  function GrowthFactor(days: int): (r: int)
    ensures r == TruncDiv(days, 3)
    ensures days >= 0 ==> 0 <= r && 3 * r <= days < 3 * r + 3
  {
    TruncOfQuotient(days, 3);
    Trunc(days as real / 3.0)
  }

  /** Currently infected, doubled once per three days. A negative day count
      gives a negative exponent, so the count is halved and truncated. */
  function InfectionsByRequestedTime(data: Input, multiplier: int): (r: int)
    ensures var c, k := CurrentlyInfected(data, multiplier), GrowthFactor(ToDays(data));
            (k >= 0 ==> r == c * Pow2(k)) && (k < 0 ==> r == TruncDiv(c, Pow2(-k)))
  {
    Grow(CurrentlyInfected(data, multiplier), GrowthFactor(ToDays(data)))
  }

  /** `Trunc(n * (p / 100))` on reals is the integer `TruncPercent(n, p)`. */
  lemma TruncOfPercent(n: int, p: nat)
    ensures Trunc(n as real * (p as real / 100.0)) == TruncPercent(n, p)
  {
    assert n as real * (p as real / 100.0) == (n * p) as real / 100 as real;
    TruncOfQuotient(n * p, 100);
  }

  /** Fifteen percent of the projected infections. */
  function SevereCasesByRequestedTime(data: Input, multiplier: int): (r: int)
    ensures r == TruncPercent(InfectionsByRequestedTime(data, multiplier), 15)
  {
    var i := InfectionsByRequestedTime(data, multiplier);
    TruncOfPercent(i, 15);
    Trunc(i as real * 0.15)
  }

  /** Thirty-five percent of `beds` less `severe`, truncated toward zero; a
      deficit is kept negative, never clamped at zero. */
  function BedsLeft(beds: int, severe: int): (r: int)
    ensures r == TruncDiv(35 * beds - 100 * severe, 100)
  {
    var m := 35 * beds - 100 * severe;
    assert beds as real * 0.35 - severe as real == m as real / 100 as real;
    TruncOfQuotient(m, 100);
    Trunc(beds as real * 0.35 - severe as real)
  }

  /** The beds left once this scenario's severe cases are admitted. */
  function HospitalBedsByRequestedTime(data: Input, multiplier: int): (r: int)
    ensures r == TruncDiv(35 * data.totalHospitalBeds - 100 * SevereCasesByRequestedTime(data, multiplier), 100)
  {
    BedsLeft(data.totalHospitalBeds, SevereCasesByRequestedTime(data, multiplier))
  }

  /** Five percent of the projected infections. */
  function CasesForICUByRequestedTime(data: Input, multiplier: int): (r: int)
    ensures r == TruncPercent(InfectionsByRequestedTime(data, multiplier), 5)
  {
    var i := InfectionsByRequestedTime(data, multiplier);
    TruncOfPercent(i, 5);
    Trunc(i as real * 0.05)
  }

  /** Two percent of the projected infections. */
  function CasesForVentilatorByRequestedTime(data: Input, multiplier: int): (r: int)
    ensures r == TruncPercent(InfectionsByRequestedTime(data, multiplier), 2)
  {
    var i := InfectionsByRequestedTime(data, multiplier);
    TruncOfPercent(i, 2);
    Trunc(i as real * 0.02)
  }

  /** The income lost by the infected over the elapsed days, before rounding. */
  function LostIncome(data: Input, multiplier: int): real {
    InfectionsByRequestedTime(data, multiplier) as real * data.region.avgDailyIncomeInUSD
      * data.region.avgDailyIncomePopulation * ToDays(data) as real
  }

  /** The lost income rounded to cents. The source multiplies by
      `timeToElapse`, a name bound only inside `toDays`; this is the intended
      normalised day count. */
  function DollarsInFlight(data: Input, multiplier: int): (r: real)
    ensures -0.005 <= r - LostIncome(data, multiplier) <= 0.005
    ensures -FixedLimit < LostIncome(data, multiplier) < FixedLimit ==> IsCents(r)
  {
    RoundCents(LostIncome(data, multiplier))
  }

  /** One scenario's record, every field computed for the same multiplier. */
  function Scenario(data: Input, multiplier: int): ScenarioEstimate {
    ScenarioEstimate(
      CurrentlyInfected(data, multiplier),
      InfectionsByRequestedTime(data, multiplier),
      SevereCasesByRequestedTime(data, multiplier),
      HospitalBedsByRequestedTime(data, multiplier),
      CasesForICUByRequestedTime(data, multiplier),
      CasesForVentilatorByRequestedTime(data, multiplier),
      DollarsInFlight(data, multiplier))
  }

  /** The estimator: the input echoed back with both scenarios. */
  function Covid19ImpactEstimator(data: Input): (r: Output)
    ensures r.data == data
    ensures r.estimate.impact == Scenario(data, ImpactMultiplier)
    ensures r.estimate.severeImpact == Scenario(data, SevereImpactMultiplier)
  {
    Output(data, Estimate(Scenario(data, ImpactMultiplier), Scenario(data, SevereImpactMultiplier)))
  }

  // ---------------------------------------------------------------------
  // Time normalisation

  /** Weeks are seven days and months thirty; every other period type,
      known or not, counts days. */
  lemma ToDaysByPeriod(data: Input)
    ensures ToDays(data.(periodType := "weeks")) == 7 * ToDays(data.(periodType := "days"))
    ensures ToDays(data.(periodType := "months")) == 30 * ToDays(data.(periodType := "days"))
    ensures data.periodType != "weeks" && data.periodType != "months" ==>
              ToDays(data) == data.timeToElapse
  {
  }

  /** For a fixed period type, more elapsed time is never fewer days. */
  lemma ToDaysMonotone(data: Input, later: Input)
    requires later.periodType == data.periodType
    requires data.timeToElapse <= later.timeToElapse
    ensures ToDays(data) <= ToDays(later)
  {
  }

  // ---------------------------------------------------------------------
  // Growth

  /** With no negative counts, infections never fall below the currently
      infected, and stay equal to them for the first three days. */
  lemma GrowthAtLeastCurrent(data: Input, multiplier: int)
    requires data.reportedCases * multiplier >= 0 && ToDays(data) >= 0
    ensures InfectionsByRequestedTime(data, multiplier) >= CurrentlyInfected(data, multiplier)
    ensures ToDays(data) < 3 ==>
              InfectionsByRequestedTime(data, multiplier) == CurrentlyInfected(data, multiplier)
  {
    var c, k := CurrentlyInfected(data, multiplier), GrowthFactor(ToDays(data));
    assert c * Pow2(k) >= c * 1;
  }

  /** More elapsed days never mean fewer infections (same period type and
      cases, no negative counts). */
  lemma GrowthMonotoneInTime(data: Input, later: Input, multiplier: int)
    requires later == data.(timeToElapse := later.timeToElapse)
    requires 0 <= data.timeToElapse <= later.timeToElapse
    requires data.reportedCases * multiplier >= 0
    ensures InfectionsByRequestedTime(data, multiplier) <= InfectionsByRequestedTime(later, multiplier)
  {
    ToDaysMonotone(data, later);
    var j, k := GrowthFactor(ToDays(data)), GrowthFactor(ToDays(later));
    assert 0 <= j <= k;
    GrowMonotone(CurrentlyInfected(data, multiplier), j, k);
  }

  // ---------------------------------------------------------------------
  // The two scenarios

  /** Scaling the multiplier by five scales currently infected by five and,
      for non-negative days, the projected infections too. */
  lemma ScaledMultiplier(data: Input, multiplier: int)
    ensures CurrentlyInfected(data, 5 * multiplier) == 5 * CurrentlyInfected(data, multiplier)
    ensures ToDays(data) >= 0 ==>
              InfectionsByRequestedTime(data, 5 * multiplier) == 5 * InfectionsByRequestedTime(data, multiplier)
  {
    var c := CurrentlyInfected(data, multiplier);
    var c5 := CurrentlyInfected(data, 5 * multiplier);
    assert c5 == 5 * c by {
      assert data.reportedCases * (5 * multiplier) == 5 * (data.reportedCases * multiplier);
    }
    var k := GrowthFactor(ToDays(data));
    if ToDays(data) >= 0 {
      var p := Pow2(k);
      assert InfectionsByRequestedTime(data, multiplier) == c * p;
      assert InfectionsByRequestedTime(data, 5 * multiplier) == c5 * p;
      assert c5 * p == 5 * (c * p) by {
        assert c5 * p == (5 * c) * p;
      }
    }
  }

  /** The severe scenario starts from five times the baseline's infected
      and, with the same number of doublings, ends at five times its
      infections. */
  lemma MultiplierRatio(data: Input)
    ensures var e := Covid19ImpactEstimator(data).estimate;
            e.severeImpact.currentlyInfected == 5 * e.impact.currentlyInfected
    ensures var e := Covid19ImpactEstimator(data).estimate;
            ToDays(data) >= 0 ==>
              e.severeImpact.infectionsByRequestedTime == 5 * e.impact.infectionsByRequestedTime
  {
    var e := Covid19ImpactEstimator(data).estimate;
    assert e.impact.currentlyInfected == CurrentlyInfected(data, ImpactMultiplier);
    assert e.severeImpact.currentlyInfected == CurrentlyInfected(data, 5 * ImpactMultiplier);
    assert e.impact.infectionsByRequestedTime == InfectionsByRequestedTime(data, ImpactMultiplier);
    assert e.severeImpact.infectionsByRequestedTime == InfectionsByRequestedTime(data, 5 * ImpactMultiplier);
    ScaledMultiplier(data, ImpactMultiplier);
  }

  /** Both scenarios grow by the same factor: their infections stand in the
      same proportion as their currently infected, the factor being
      2 ** (days / 3). */
  lemma ScenariosShareGrowth(data: Input)
    requires ToDays(data) >= 0
    ensures var e := Covid19ImpactEstimator(data).estimate;
            e.impact.infectionsByRequestedTime == e.impact.currentlyInfected * Pow2(ToDays(data) / 3)
            && e.severeImpact.infectionsByRequestedTime == e.severeImpact.currentlyInfected * Pow2(ToDays(data) / 3)
  {
    assert GrowthFactor(ToDays(data)) == ToDays(data) / 3;
  }

  // ---------------------------------------------------------------------
  // Derived loads

  lemma PercentMonotone(n: nat, p: nat, q: nat)
    requires p <= q
    ensures 0 <= TruncPercent(n, p) <= TruncPercent(n, q)
  {
    assert n * p <= n * q;
  }

  /** From non-negative infections: no more ventilator cases than ICU cases,
      no more ICU cases than severe cases, no more severe cases than
      infections, and none of them negative. */
  lemma DerivedLoadsOrdered(data: Input, multiplier: int)
    requires InfectionsByRequestedTime(data, multiplier) >= 0
    ensures var v, c, s, i := CasesForVentilatorByRequestedTime(data, multiplier),
                              CasesForICUByRequestedTime(data, multiplier),
                              SevereCasesByRequestedTime(data, multiplier),
                              InfectionsByRequestedTime(data, multiplier);
            0 <= v <= c <= s <= i
  {
    var i := InfectionsByRequestedTime(data, multiplier);
    PercentMonotone(i, 2, 5);
    PercentMonotone(i, 5, 15);
    PercentMonotone(i, 15, 100);
  }

  /** With the same beds, more severe cases never leave more beds free. */
  lemma BedsNonIncreasing(beds: int, severe: int, more: int)
    requires severe <= more
    ensures BedsLeft(beds, more) <= BedsLeft(beds, severe)
  {
    TruncMonotone(beds as real * 0.35 - more as real, beds as real * 0.35 - severe as real);
  }

  /** For non-negative cases and days the severe scenario is at least as
      heavy as the baseline in every count, and leaves no more beds. */
  lemma SevereScenarioDominates(data: Input)
    requires data.reportedCases >= 0 && ToDays(data) >= 0
    ensures var e := Covid19ImpactEstimator(data).estimate;
            && e.impact.infectionsByRequestedTime <= e.severeImpact.infectionsByRequestedTime
            && e.impact.severeCasesByRequestedTime <= e.severeImpact.severeCasesByRequestedTime
            && e.impact.casesForICUByRequestedTime <= e.severeImpact.casesForICUByRequestedTime
            && e.impact.casesForVentilatorByRequestedTime <= e.severeImpact.casesForVentilatorByRequestedTime
            && e.severeImpact.hospitalBedsByRequestedTime <= e.impact.hospitalBedsByRequestedTime
  {
    MultiplierRatio(data);
    var a := InfectionsByRequestedTime(data, ImpactMultiplier);
    var b := InfectionsByRequestedTime(data, SevereImpactMultiplier);
    GrowthAtLeastCurrent(data, ImpactMultiplier);
    assert 0 <= a <= b;
    TruncMonotone(a as real * 0.15, b as real * 0.15);
    TruncMonotone(a as real * 0.05, b as real * 0.05);
    TruncMonotone(a as real * 0.02, b as real * 0.02);
    BedsNonIncreasing(data.totalHospitalBeds, SevereCasesByRequestedTime(data, ImpactMultiplier),
                      SevereCasesByRequestedTime(data, SevereImpactMultiplier));
  }

  // ---------------------------------------------------------------------
  // Dollars in flight

  /** No reported cases, no lost income. */
  lemma DollarsZeroWithoutCases(data: Input, multiplier: int)
    requires data.reportedCases == 0
    ensures DollarsInFlight(data, multiplier) == 0.0
  {
    assert LostIncome(data, multiplier) == 0.0;
    RoundCentsOfCents(0.0);
  }

  /** A lost income already in whole cents is reported exactly. */
  lemma DollarsExactOnCents(data: Input, multiplier: int)
    requires IsCents(LostIncome(data, multiplier))
    ensures DollarsInFlight(data, multiplier) == LostIncome(data, multiplier)
  {
    RoundCentsOfCents(LostIncome(data, multiplier));
  }

  // ---------------------------------------------------------------------
  // Assembly

  /** The estimator keeps no state between calls: equal inputs, equal outputs.
      In the model this holds of every Dafny function by congruence; the lemma
      records the property for the estimator, whose source reads nothing but
      its argument. */
  lemma EstimatorDeterministic(data: Input, again: Input)
    requires again == data
    ensures Covid19ImpactEstimator(again) == Covid19ImpactEstimator(data)
  {
  }

  // ---------------------------------------------------------------------
  // Worked figures

  /** Ten reported cases over thirty days, 5000 beds, $1.5 a day earned by
      60% of the population. */
  const WorkedInput: Input := Input(Region(1.5, 0.6), "days", 30, 10, 5000)

  lemma WorkedExample()
    ensures Covid19ImpactEstimator(WorkedInput) == Output(WorkedInput, Estimate(
              ScenarioEstimate(100, 102400, 15360, -13610, 5120, 2048, 2764800.0),
              ScenarioEstimate(500, 512000, 76800, -75050, 25600, 10240, 13824000.0)))
  {
    var d := WorkedInput;
    assert ToDays(d) == 30;
    assert GrowthFactor(30) == 10;
    assert Pow2(10) == 1024;
    assert InfectionsByRequestedTime(d, 10) == 102400;
    assert InfectionsByRequestedTime(d, 50) == 512000;
    assert LostIncome(d, 10) == 2764800.0;
    assert LostIncome(d, 50) == 13824000.0;
    DollarsExactOnCents(d, 10);
    DollarsExactOnCents(d, 50);
  }

  /** A deficit truncates toward zero: 0.35 of one bed less 15360 severe
      cases is -15359, where flooring would give -15360. */
  lemma BedsTruncateTowardZero()
    ensures HospitalBedsByRequestedTime(WorkedInput.(totalHospitalBeds := 1), ImpactMultiplier) == -15359
    ensures (0.35 - 15360.0).Floor == -15360
  {
    var d := WorkedInput.(totalHospitalBeds := 1);
    assert ToDays(d) == 30 && GrowthFactor(30) == 10 && Pow2(10) == 1024;
    assert InfectionsByRequestedTime(d, 10) == 102400;
    assert SevereCasesByRequestedTime(d, 10) == 15360;
  }
}
