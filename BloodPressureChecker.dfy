/**
 * The rule-based evaluation of the `BloodPressureChecker` component: the
 * three vital signs are sorted into Low, Normal or High against fixed
 * references with a band of 10 either side, the BMI (rounded to one decimal
 * as `toFixed(1)` does) into Underweight, Normal or Overweight, and the three
 * vital signs are folded into one general conclusion. Also modelled are the
 * display rules that colour and decorate the same values, the summary text,
 * and the dispatch of the result into the store.
 */
module BloodPressureChecker {
  import opened Optional
  import BloodPressureSlice

  /** The class of one vital sign, and of the general conclusion. */
  datatype Level = Low | Normal | High

  /** The class of the BMI. */
  datatype BmiClass = Underweight | NormalWeight | Overweight

  /** The two colours of the display: "#cf1322" and "#3f8600". */
  datatype Colour = Red | Green

  /** The two arrow icons of the display; `None` stands for the `null` prefix. */
  datatype Icon = ArrowDown | ArrowUp

  /** The `status` of the result dialog. */
  datatype Status = Success | Error | Warning

  /** The six numbers the form collects. */
  datatype Input = Input(age: real, weight: real, height: real, systolic: real, diastolic: real, heartRate: real)

  /** What one check computes: the rounded BMI and the five classifications. */
  datatype Assessment = Assessment(
    bmi: real,
    systolic: Level,
    diastolic: Level,
    heartRate: Level,
    bmiClass: BmiClass,
    overall: Level)

  const NORMAL_SYSTOLIC: real := 120.0
  const NORMAL_DIASTOLIC: real := 80.0
  const NORMAL_HEART_RATE: real := 70.0
  /** Half-width of the Normal band around each reference. */
  const TOLERANCE: real := 10.0
  const BMI_NORMAL_LOW: real := 18.5
  const BMI_NORMAL_HIGH: real := 24.9

  function Hex(c: Colour): string {
    match c
    case Red => "#cf1322"
    case Green => "#3f8600"
  }

  function LevelName(l: Level): string {
    match l
    case Low => "Low"
    case Normal => "Normal"
    case High => "High"
  }

  function BmiClassName(b: BmiClass): string {
    match b
    case Underweight => "Underweight"
    case NormalWeight => "Normal"
    case Overweight => "Overweight"
  }

  /** Position of a level on the value axis: Low < Normal < High. */
  function Ordinal(l: Level): nat {
    match l
    case Low => 0
    case Normal => 1
    case High => 2
  }

  /** Strength of a level in the general conclusion: High beats Low, Low beats Normal. */
  function Precedence(l: Level): nat {
    match l
    case Normal => 0
    case Low => 1
    case High => 2
  }

  // ---------------------------------------------------------------------------
  // Classification

  /** One vital sign against its reference: Normal on the closed band reference ± 10. */
  function ClassifyVital(value: real, reference: real): (r: Level)
    ensures r == Low <==> value < reference - TOLERANCE
    ensures r == High <==> value > reference + TOLERANCE
    ensures r == Normal <==> reference - TOLERANCE <= value <= reference + TOLERANCE
  {
    if value < reference - TOLERANCE then Low
    else if value > reference + TOLERANCE then High
    else Normal
  }

  /** A greater value never gets a lower class. */
  lemma ClassifyVitalMonotone(a: real, b: real, reference: real)
    requires a <= b
    ensures Ordinal(ClassifyVital(a, reference)) <= Ordinal(ClassifyVital(b, reference))
  {
  }

  /** The band's edges belong to it: systolic 110 and 130, diastolic 70 and 90, heart rate 60 and 80 are Normal. */
  lemma BandEdgesAreNormal()
    ensures ClassifyVital(110.0, NORMAL_SYSTOLIC) == Normal && ClassifyVital(130.0, NORMAL_SYSTOLIC) == Normal
    ensures ClassifyVital(70.0, NORMAL_DIASTOLIC) == Normal && ClassifyVital(90.0, NORMAL_DIASTOLIC) == Normal
    ensures ClassifyVital(60.0, NORMAL_HEART_RATE) == Normal && ClassifyVital(80.0, NORMAL_HEART_RATE) == Normal
    ensures ClassifyVital(109.9, NORMAL_SYSTOLIC) == Low && ClassifyVital(130.1, NORMAL_SYSTOLIC) == High
  {
  }

  /**
   * The number `x.toFixed(1)` prints, times ten: the integer n with n/10
   * nearest to x, the larger of two when x lies half-way (so, for a negative
   * x, which is printed as "-" followed by the digits of -x, the one further
   * from zero).
   */
  function ToFixedTenths(x: real): (n: int)
    ensures x >= 0.0 ==> x * 10.0 - 0.5 < n as real <= x * 10.0 + 0.5
    ensures x < 0.0 ==> x * 10.0 - 0.5 <= n as real < x * 10.0 + 0.5
  {
    if x < 0.0 then -((-x) * 10.0 + 0.5).Floor else (x * 10.0 + 0.5).Floor
  }

  /** The exact quotient weight / (height in metres)²; the component computes it in floating point. */
  function BmiQuotient(weight: real, height: real): real
    requires height > 0.0
  {
    weight / ((height / 100.0) * (height / 100.0))
  }

  /** `calculateBMI`: the quotient rounded to one decimal. */
  function CalculateBmi(weight: real, height: real): (bmi: real)
    requires height > 0.0
    ensures -0.05 <= bmi - BmiQuotient(weight, height) <= 0.05
    ensures (bmi * 10.0).Floor as real == bmi * 10.0
  {
    ToFixedTenths(BmiQuotient(weight, height)) as real / 10.0
  }

  /** The BMI rule, applied to the rounded BMI: Normal on the closed range [18.5, 24.9]. */
  function ClassifyBmi(bmi: real): (c: BmiClass)
    ensures c == Underweight <==> bmi < BMI_NORMAL_LOW
    ensures c == Overweight <==> bmi > BMI_NORMAL_HIGH
    ensures c == NormalWeight <==> BMI_NORMAL_LOW <= bmi <= BMI_NORMAL_HIGH
  {
    if bmi < BMI_NORMAL_LOW then Underweight
    else if bmi > BMI_NORMAL_HIGH then Overweight
    else NormalWeight
  }

  /**
   * The BMI class in terms of the exact quotient: because the rule sees the
   * rounded value, the working thresholds are 18.45 and 24.95.
   */
  lemma ClassifyBmiOfQuotient(weight: real, height: real)
    requires height > 0.0
    ensures ClassifyBmi(CalculateBmi(weight, height)) == Underweight <==> BmiQuotient(weight, height) < 18.45
    ensures ClassifyBmi(CalculateBmi(weight, height)) == Overweight <==> BmiQuotient(weight, height) >= 24.95
  {
  }

  /** Height 180 cm, weight 70 kg: a quotient of 21.60…, shown as 21.6, Normal. */
  lemma BmiOfReferenceAdult()
    ensures CalculateBmi(70.0, 180.0) == 21.6
    ensures ClassifyBmi(CalculateBmi(70.0, 180.0)) == NormalWeight
  {
  }

  /** Height 180 cm, weight 50 kg: shown as 15.4, Underweight. */
  lemma BmiOfLightAdult()
    ensures CalculateBmi(50.0, 180.0) == 15.4
    ensures ClassifyBmi(CalculateBmi(50.0, 180.0)) == Underweight
  {
  }

  /**
   * A quotient above 24.9 that is still Normal: 224.4 kg at 300 cm gives
   * 24.933…, which is shown as 24.9.
   */
  lemma RoundedBmiDecides()
    ensures BmiQuotient(224.4, 300.0) > BMI_NORMAL_HIGH
    ensures ClassifyBmi(CalculateBmi(224.4, 300.0)) == NormalWeight
  {
  }

  /** The general conclusion: High if any sign is High, else Low if any is Low, else Normal. */
  function Overall(systolic: Level, diastolic: Level, heartRate: Level): (r: Level)
    ensures r == High <==> systolic == High || diastolic == High || heartRate == High
    ensures r == Low <==> (systolic != High && diastolic != High && heartRate != High)
                          && (systolic == Low || diastolic == Low || heartRate == Low)
    ensures r == Normal <==> systolic.Normal? && diastolic.Normal? && heartRate.Normal?
  {
    if systolic == High || diastolic == High || heartRate == High then High
    else if systolic == Low || diastolic == Low || heartRate == Low then Low
    else Normal
  }

  /** The general conclusion is the strongest of the three signs, so the order of the signs does not matter. */
  lemma OverallIsStrongest(systolic: Level, diastolic: Level, heartRate: Level)
    ensures Overall(systolic, diastolic, heartRate) in {systolic, diastolic, heartRate}
    ensures Precedence(systolic) <= Precedence(Overall(systolic, diastolic, heartRate))
    ensures Precedence(diastolic) <= Precedence(Overall(systolic, diastolic, heartRate))
    ensures Precedence(heartRate) <= Precedence(Overall(systolic, diastolic, heartRate))
    ensures Overall(systolic, diastolic, heartRate) == Overall(heartRate, systolic, diastolic)
    ensures Overall(systolic, diastolic, heartRate) == Overall(diastolic, systolic, heartRate)
  {
  }

  /** The whole evaluation of one reading, as a value. */
  function Evaluate(input: Input): (a: Assessment)
    requires input.height > 0.0
    ensures a.bmi == CalculateBmi(input.weight, input.height)
    ensures a.bmiClass == ClassifyBmi(a.bmi)
    ensures a.systolic == ClassifyVital(input.systolic, NORMAL_SYSTOLIC)
    ensures a.diastolic == ClassifyVital(input.diastolic, NORMAL_DIASTOLIC)
    ensures a.heartRate == ClassifyVital(input.heartRate, NORMAL_HEART_RATE)
    ensures a.overall == High <==> input.systolic > 130.0 || input.diastolic > 90.0 || input.heartRate > 80.0
    ensures a.overall == Low <==> (input.systolic <= 130.0 && input.diastolic <= 90.0 && input.heartRate <= 80.0)
                                  && (input.systolic < 110.0 || input.diastolic < 70.0 || input.heartRate < 60.0)
  {
    var bmi := CalculateBmi(input.weight, input.height);
    var systolic := ClassifyVital(input.systolic, NORMAL_SYSTOLIC);
    var diastolic := ClassifyVital(input.diastolic, NORMAL_DIASTOLIC);
    var heartRate := ClassifyVital(input.heartRate, NORMAL_HEART_RATE);
    Assessment(bmi, systolic, diastolic, heartRate, ClassifyBmi(bmi), Overall(systolic, diastolic, heartRate))
  }

  /** Weight and height (so the BMI) never change the general conclusion, nor any vital-sign class. */
  lemma OverallIgnoresBmi(input: Input, weight: real, height: real)
    requires input.height > 0.0 && height > 0.0
    ensures Evaluate(input.(weight := weight, height := height)).overall == Evaluate(input).overall
    ensures Evaluate(input.(weight := weight, height := height)).systolic == Evaluate(input).systolic
    ensures Evaluate(input.(weight := weight, height := height)).diastolic == Evaluate(input).diastolic
    ensures Evaluate(input.(weight := weight, height := height)).heartRate == Evaluate(input).heartRate
  {
  }

  /** The reference reading is Normal throughout; one high systolic value makes the conclusion High; a slow heart alone makes it Low. */
  lemma ReferenceReadings()
    ensures Evaluate(Input(36.0, 70.0, 180.0, 120.0, 80.0, 70.0))
            == Assessment(21.6, Normal, Normal, Normal, NormalWeight, Normal)
    ensures Evaluate(Input(36.0, 70.0, 180.0, 140.0, 50.0, 40.0)).overall == High
    ensures Evaluate(Input(36.0, 50.0, 180.0, 120.0, 80.0, 55.0)).overall == Low
  {
  }

  /**
   * `checkBloodPressure` up to its state setters: the conclusion variables
   * start empty and are assigned by the same if-else chains, in the same order.
   */
  method Assess(input: Input) returns (a: Assessment)
    requires input.height > 0.0
    ensures a == Evaluate(input)
    ensures a.overall == Normal <==> a.systolic == Normal && a.diastolic == Normal && a.heartRate == Normal
  {
    var calculatedBmi := CalculateBmi(input.weight, input.height);

    var normalSystolic := NORMAL_SYSTOLIC;
    var normalDiastolic := NORMAL_DIASTOLIC;
    var normalHeartRate := NORMAL_HEART_RATE;

    var systolicConclusion: Level;
    var diastolicConclusion: Level;
    var heartRateConclusion: Level;
    var bmiConclusion: BmiClass;

    if input.systolic < normalSystolic - 10.0 {
      systolicConclusion := Low;
    } else if input.systolic > normalSystolic + 10.0 {
      systolicConclusion := High;
    } else {
      systolicConclusion := Normal;
    }

    if input.diastolic < normalDiastolic - 10.0 {
      diastolicConclusion := Low;
    } else if input.diastolic > normalDiastolic + 10.0 {
      diastolicConclusion := High;
    } else {
      diastolicConclusion := Normal;
    }

    if input.heartRate < normalHeartRate - 10.0 {
      heartRateConclusion := Low;
    } else if input.heartRate > normalHeartRate + 10.0 {
      heartRateConclusion := High;
    } else {
      heartRateConclusion := Normal;
    }

    if calculatedBmi < BMI_NORMAL_LOW {
      bmiConclusion := Underweight;
    } else if calculatedBmi > BMI_NORMAL_HIGH {
      bmiConclusion := Overweight;
    } else {
      bmiConclusion := NormalWeight;
    }

    var overallConclusion: Level;
    if systolicConclusion == High || diastolicConclusion == High || heartRateConclusion == High {
      overallConclusion := High;
    } else if systolicConclusion == Low || diastolicConclusion == Low || heartRateConclusion == Low {
      overallConclusion := Low;
    } else {
      overallConclusion := Normal;
    }

    a := Assessment(calculatedBmi, systolicConclusion, diastolicConclusion, heartRateConclusion,
                    bmiConclusion, overallConclusion);
  }

  // ---------------------------------------------------------------------------
  // Summary text and dispatch

  /** The `conclusion` text: each sub-classification by name. */
  function ConclusionText(a: Assessment): (t: string)
    ensures "Systolic Pressure: " + LevelName(a.systolic) <= t
    ensures |", BMI: " + BmiClassName(a.bmiClass)| <= |t|
    ensures t[|t| - |", BMI: " + BmiClassName(a.bmiClass)|..] == ", BMI: " + BmiClassName(a.bmiClass)
  {
    "Systolic Pressure: " + (LevelName(a.systolic) +
    (", Diastolic Pressure: " + (LevelName(a.diastolic) +
    (", Heart Rate: " + (LevelName(a.heartRate) +
    (", BMI: " + BmiClassName(a.bmiClass)))))))
  }

  /** After a common prefix, the first letter tells the level apart, and what follows its name is then equal too. */
  lemma LevelNameCancels(prefix: string, x1: Level, rest1: string, x2: Level, rest2: string)
    requires prefix + (LevelName(x1) + rest1) == prefix + (LevelName(x2) + rest2)
    ensures x1 == x2 && rest1 == rest2
  {
    var t := prefix + (LevelName(x1) + rest1);
    assert t[|prefix|] == LevelName(x1)[0];
    assert t[|prefix|] == LevelName(x2)[0];
    assert x1 == x2;
    assert rest1 == t[|prefix| + |LevelName(x1)|..];
  }

  lemma BmiClassNameCancels(prefix: string, b1: BmiClass, b2: BmiClass)
    requires prefix + BmiClassName(b1) == prefix + BmiClassName(b2)
    ensures b1 == b2
  {
  }

  /** The summary text names every sub-classification unambiguously: equal texts come from equal classes. */
  lemma ConclusionTextDeterminesClasses(a1: Assessment, a2: Assessment)
    requires ConclusionText(a1) == ConclusionText(a2)
    ensures a1.systolic == a2.systolic && a1.diastolic == a2.diastolic
    ensures a1.heartRate == a2.heartRate && a1.bmiClass == a2.bmiClass
  {
    var tail1 := BmiClassName(a1.bmiClass);
    var tail2 := BmiClassName(a2.bmiClass);
    var r1 := ", Heart Rate: " + (LevelName(a1.heartRate) + (", BMI: " + tail1));
    var r2 := ", Heart Rate: " + (LevelName(a2.heartRate) + (", BMI: " + tail2));
    var q1 := ", Diastolic Pressure: " + (LevelName(a1.diastolic) + r1);
    var q2 := ", Diastolic Pressure: " + (LevelName(a2.diastolic) + r2);
    LevelNameCancels("Systolic Pressure: ", a1.systolic, q1, a2.systolic, q2);
    LevelNameCancels(", Diastolic Pressure: ", a1.diastolic, r1, a2.diastolic, r2);
    LevelNameCancels(", Heart Rate: ", a1.heartRate, ", BMI: " + tail1, a2.heartRate, ", BMI: " + tail2);
    BmiClassNameCancels(", BMI: ", a1.bmiClass, a2.bmiClass);
  }

  /** The payload `checkBloodPressure` dispatches: the inputs, the rounded BMI and the general conclusion. */
  function Payload(input: Input, a: Assessment): (p: BloodPressureSlice.BloodPressureData)
    ensures p.age == Some(input.age) && p.weight == Some(input.weight) && p.height == Some(input.height)
    ensures p.systolic == Some(input.systolic) && p.diastolic == Some(input.diastolic)
    ensures p.heartRate == Some(input.heartRate)
    ensures p.bmi == Some(a.bmi)
    ensures p.generalConclusion == LevelName(a.overall)
    ensures p.generalConclusion in {"Low", "Normal", "High"}
  {
    BloodPressureSlice.BloodPressureData(
      Some(input.age), Some(input.weight), Some(input.height),
      Some(input.systolic), Some(input.diastolic), Some(input.heartRate),
      Some(a.bmi), LevelName(a.overall))
  }

  /**
   * `checkBloodPressure`: evaluates the reading, returns what it hands to the
   * `conclusion` setter, and dispatches the payload into the store.
   */
  method CheckBloodPressure(store: BloodPressureSlice.Store, input: Input) returns (a: Assessment, conclusion: string)
    requires input.height > 0.0
    modifies store
    ensures a == Evaluate(input)
    ensures conclusion == ConclusionText(a)
    ensures store.State() == Payload(input, a)
    ensures store.generalConclusion == LevelName(a.overall)
    ensures store.generalConclusion == "High" <==> a.systolic == High || a.diastolic == High || a.heartRate == High
  {
    a := Assess(input);
    conclusion := ConclusionText(a);
    store.UpdateBloodPressureData(Payload(input, a));
  }

  // ---------------------------------------------------------------------------
  // Display

  /** `getColor`: red outside the closed band normal ± diff, green on it. */
  function GetColor(value: real, normal: real, diff: real): (c: Colour)
    ensures c == Green <==> normal - diff <= value <= normal + diff
    ensures Hex(c) == "#3f8600" <==> normal - diff <= value <= normal + diff
    ensures diff == TOLERANCE ==> (c == Green <==> ClassifyVital(value, normal) == Normal)
  {
    if value < normal - diff then Red
    else if value > normal + diff then Red
    else Green
  }

  /** `getIcon`: an arrow pointing the way the value leaves the band, none on it. */
  function GetIcon(value: real, normal: real, diff: real): (i: Option<Icon>)
    ensures i == Some(ArrowDown) <==> value < normal - diff
    ensures i == Some(ArrowUp) <==> normal - diff <= value && value > normal + diff
    ensures diff == TOLERANCE ==> (i == None <==> ClassifyVital(value, normal) == Normal)
    ensures diff == TOLERANCE ==> (i == Some(ArrowDown) <==> ClassifyVital(value, normal) == Low)
    ensures diff == TOLERANCE ==> (i == Some(ArrowUp) <==> ClassifyVital(value, normal) == High)
    ensures i == None <==> GetColor(value, normal, diff) == Green
  {
    if value < normal - diff then Some(ArrowDown)
    else if value > normal + diff then Some(ArrowUp)
    else None
  }

  /** The three statistics colour and decorate each vital sign exactly as the assessment classifies it. */
  lemma DashboardAgreesWithAssessment(input: Input)
    requires input.height > 0.0
    ensures GetColor(input.heartRate, 70.0, 10.0) == Red <==> Evaluate(input).heartRate != Normal
    ensures GetColor(input.systolic, 120.0, 10.0) == Red <==> Evaluate(input).systolic != Normal
    ensures GetColor(input.diastolic, 80.0, 10.0) == Red <==> Evaluate(input).diastolic != Normal
    ensures GetIcon(input.heartRate, 70.0, 10.0) == Some(ArrowDown) <==> Evaluate(input).heartRate == Low
    ensures GetIcon(input.heartRate, 70.0, 10.0) == Some(ArrowUp) <==> Evaluate(input).heartRate == High
    ensures GetIcon(input.systolic, 120.0, 10.0) == Some(ArrowDown) <==> Evaluate(input).systolic == Low
    ensures GetIcon(input.systolic, 120.0, 10.0) == Some(ArrowUp) <==> Evaluate(input).systolic == High
    ensures GetIcon(input.diastolic, 80.0, 10.0) == Some(ArrowDown) <==> Evaluate(input).diastolic == Low
    ensures GetIcon(input.diastolic, 80.0, 10.0) == Some(ArrowUp) <==> Evaluate(input).diastolic == High
  {
  }

  /** The colour of the "Current BMI" statistic: green exactly on the BMI's Normal range. */
  function BmiColour(bmi: real): (c: Colour)
    ensures c == Green <==> ClassifyBmi(bmi) == NormalWeight
    ensures Hex(c) == "#3f8600" <==> ClassifyBmi(bmi) == NormalWeight
  {
    if bmi < 18.5 then Red
    else if bmi <= 24.9 then Green
    else Red
  }

  /** The prefix of the "Current BMI" statistic as the component has it: an up arrow whenever the BMI is off range. */
  function BmiIconAsWritten(bmi: real): (i: Option<Icon>)
    ensures i != Some(ArrowDown)
    ensures i == None <==> ClassifyBmi(bmi) == NormalWeight
  {
    if bmi < 18.5 || bmi > 24.9 then Some(ArrowUp) else None
  }

  /** An underweight BMI (15.4) gets the up arrow, where a value low on any vital sign gets the down arrow. */
  lemma BmiIconAsWrittenPointsUpWhenUnderweight()
    ensures ClassifyBmi(15.4) == Underweight && BmiIconAsWritten(15.4) == Some(ArrowUp)
    ensures GetIcon(55.0, NORMAL_HEART_RATE, TOLERANCE) == Some(ArrowDown)
  {
  }

  /** The BMI prefix following the convention of `getIcon`: down when Underweight, up when Overweight. */
  function BmiIcon(bmi: real): (i: Option<Icon>)
    ensures i == Some(ArrowDown) <==> ClassifyBmi(bmi) == Underweight
    ensures i == Some(ArrowUp) <==> ClassifyBmi(bmi) == Overweight
    ensures i == None <==> BmiColour(bmi) == Green
  {
    if bmi < 18.5 then Some(ArrowDown)
    else if bmi > 24.9 then Some(ArrowUp)
    else None
  }

  /** How the "Current BMI" statistic is drawn: its colour and its prefix. */
  function BmiStatistic(bmi: real): (s: (Colour, Option<Icon>))
    ensures s.0 == Red <==> s.1 != None
    ensures s.1 == None <==> ClassifyBmi(bmi) == NormalWeight
    ensures s.1 != Some(ArrowDown)
  {
    (BmiColour(bmi), BmiIconAsWritten(bmi))
  }

  /** The "Current BMI" statistic with the corrected prefix: red iff an arrow shows, and it points down iff Underweight. */
  function BmiStatisticCorrected(bmi: real): (s: (Colour, Option<Icon>))
    ensures s.0 == Red <==> s.1 != None
    ensures s.1 == Some(ArrowDown) <==> ClassifyBmi(bmi) == Underweight
    ensures s.1 == Some(ArrowUp) <==> ClassifyBmi(bmi) == Overweight
  {
    (BmiColour(bmi), BmiIcon(bmi))
  }

  /** The colour of the "General Conclusion" line: green only when the stored conclusion is "Normal". */
  function ConclusionColour(generalConclusion: string): (c: Colour)
    ensures c == Green <==> generalConclusion == LevelName(Normal)
  {
    if generalConclusion == "Normal" then Green else Red
  }

  /** The result dialog's status: success for "Normal", error for "High", a warning for anything else. */
  function ResultStatus(generalConclusion: string): (s: Status)
    ensures generalConclusion == LevelName(Normal) ==> s == Success
    ensures generalConclusion == LevelName(High) ==> s == Error
    ensures generalConclusion == LevelName(Low) ==> s == Warning
    ensures s == Success <==> ConclusionColour(generalConclusion) == Green
  {
    if generalConclusion == "Normal" then Success
    else if generalConclusion == "High" then Error
    else Warning
  }

  /** The conclusion line's colour and the dialog's status, read from the stored conclusion, follow the assessment. */
  lemma ConclusionDisplayAgreesWithAssessment(input: Input)
    requires input.height > 0.0
    ensures ConclusionColour(LevelName(Evaluate(input).overall)) == Green
            <==> Evaluate(input).systolic == Normal && Evaluate(input).diastolic == Normal
                 && Evaluate(input).heartRate == Normal
    ensures ResultStatus(LevelName(Evaluate(input).overall)) == Success <==> Evaluate(input).overall == Normal
    ensures ResultStatus(LevelName(Evaluate(input).overall)) == Warning <==> Evaluate(input).overall == Low
    ensures ResultStatus(LevelName(Evaluate(input).overall)) == Error <==> Evaluate(input).overall == High
  {
  }
}
