/**
 * The dose calculator of components/DosageCalculator.tsx: the number parsing of its inputs,
 * the weight-based dose clamped to the treatment's maximum, the volume at a concentration,
 * BMI and its band, and the calculator's form state.
 */
module Dosage {
  import opened Wrappers
  import opened Text
  import opened Records

  // ---------------------------------------------------------------------------
  // Number parsing

  predicate IsDigit(c: char) {
    '0' <= c <= '9'
  }

  /** The value of a decimal digit. */
  function DigitValue(c: char): nat
    requires IsDigit(c)
  {
    c as int - '0' as int
  }

  predicate AllDigits(s: string) {
    forall i :: 0 <= i < |s| ==> IsDigit(s[i])
  }

  /** Where the number scanner is: before the number, after the sign, in the digits, after the point. */
  datatype ScanPhase = Leading | Signed | Whole | Fraction

  function PhaseRank(p: ScanPhase): nat {
    if p == Leading then 1 else 0
  }

  /**
   * The scanner behind `Number.parseFloat`: leading white space, one optional sign, digits,
   * one optional point and more digits; it stops at the first other character. `value` is what
   * has been read, `scale` the weight of the next fraction digit and `seen` whether any digit
   * was read. `None` stands for NaN.
   */
  function ScanFloat(s: string, phase: ScanPhase, sign: real, value: real, scale: real, seen: bool): Option<real>
    decreases |s|, PhaseRank(phase)
  {
    match phase
    case Leading =>
      if s != [] && IsSpace(s[0]) then ScanFloat(s[1..], Leading, sign, value, scale, seen)
      else if s != [] && s[0] == '-' then ScanFloat(s[1..], Signed, -1.0, value, scale, seen)
      else if s != [] && s[0] == '+' then ScanFloat(s[1..], Signed, 1.0, value, scale, seen)
      else ScanFloat(s, Signed, sign, value, scale, seen)
    case Signed | Whole =>
      if s != [] && IsDigit(s[0]) then ScanFloat(s[1..], Whole, sign, 10.0 * value + DigitValue(s[0]) as real, scale, true)
      else if s != [] && s[0] == '.' then ScanFloat(s[1..], Fraction, sign, value, 0.1, seen)
      else if seen then Some(sign * value) else None
    case Fraction =>
      if s != [] && IsDigit(s[0]) then ScanFloat(s[1..], Fraction, sign, value + DigitValue(s[0]) as real * scale, scale / 10.0, true)
      else if seen then Some(sign * value) else None
  }

  /**
   * `Number.parseFloat(s)`, without exponents, `Infinity` or hexadecimal: a string of digits
   * reads as the number they spell, and a string without a digit is NaN.
   */
  function ParseFloat(s: string): (r: Option<real>)
    ensures s != [] && AllDigits(s) ==> r == Some(DigitsValue(s) as real)
    ensures (forall i :: 0 <= i < |s| ==> !IsDigit(s[i])) ==> r == None
  {
    DigitStringScans(s);
    NoDigitScans(s);
    ScanFloat(s, Leading, 1.0, 0.0, 1.0, false)
  }

  /** Without a minus sign in the input the scanner never produces a negative number. */
  lemma {:induction false} ScanFloatNonNegative(s: string, phase: ScanPhase, sign: real, value: real, scale: real, seen: bool)
    requires '-' !in s && sign == 1.0 && value >= 0.0 && scale > 0.0
    ensures ScanFloat(s, phase, sign, value, scale, seen).Some? ==> ScanFloat(s, phase, sign, value, scale, seen).value >= 0.0
    decreases |s|, PhaseRank(phase)
  {
    if s != [] {
      assert '-' !in s[1..] by {
        assert forall i :: 0 <= i < |s[1..]| ==> s[1..][i] == s[i + 1];
      }
    }
    match phase
    case Leading =>
      if s != [] && (IsSpace(s[0]) || s[0] == '+') {
        ScanFloatNonNegative(s[1..], if IsSpace(s[0]) then Leading else Signed, sign, value, scale, seen);
      } else if !(s != [] && s[0] == '-') {
        ScanFloatNonNegative(s, Signed, sign, value, scale, seen);
      }
    case Signed | Whole =>
      if s != [] && IsDigit(s[0]) {
        ScanFloatNonNegative(s[1..], Whole, sign, 10.0 * value + DigitValue(s[0]) as real, scale, true);
      } else if s != [] && s[0] == '.' {
        ScanFloatNonNegative(s[1..], Fraction, sign, value, 0.1, seen);
      }
    case Fraction =>
      if s != [] && IsDigit(s[0]) {
        assert DigitValue(s[0]) as real * scale >= 0.0;
        ScanFloatNonNegative(s[1..], Fraction, sign, value + DigitValue(s[0]) as real * scale, scale / 10.0, true);
      }
  }

  /** The scanner behind `Number.parseInt(s)` in base 10: white space, one sign, the leading digits. */
  function ScanInt(s: string, phase: ScanPhase, negative: bool, value: int, seen: bool): Option<int>
    decreases |s|, PhaseRank(phase)
  {
    match phase
    case Leading =>
      if s != [] && IsSpace(s[0]) then ScanInt(s[1..], Leading, negative, value, seen)
      else if s != [] && s[0] == '-' then ScanInt(s[1..], Signed, true, value, seen)
      else if s != [] && s[0] == '+' then ScanInt(s[1..], Signed, false, value, seen)
      else ScanInt(s, Signed, negative, value, seen)
    case Signed | Whole | Fraction =>
      if s != [] && IsDigit(s[0]) then ScanInt(s[1..], Whole, negative, 10 * value + DigitValue(s[0]), true)
      else if seen then Some(if negative then -value else value) else None
  }

  /**
   * `Number.parseInt(s)` in base 10, without the hexadecimal prefix: a string of digits reads as
   * the number they spell, and a string without a digit is NaN.
   */
  function ParseInt(s: string): (r: Option<int>)
    ensures s != [] && AllDigits(s) ==> r == Some(DigitsValue(s))
    ensures (forall i :: 0 <= i < |s| ==> !IsDigit(s[i])) ==> r == None
  {
    DigitStringScans(s);
    NoDigitScans(s);
    ScanInt(s, Leading, false, 0, false)
  }

  /** Reading the digits `s` after the digits `p` continues the value `p` spells, in both scanners. */
  lemma {:induction false} ScanDigits(p: string, s: string)
    requires AllDigits(p + s)
    ensures ScanInt(s, Whole, false, DigitsValue(p), true) == Some(DigitsValue(p + s))
    ensures ScanFloat(s, Whole, 1.0, DigitsValue(p) as real, 1.0, true) == Some(DigitsValue(p + s) as real)
    decreases |s|
  {
    if s == [] {
      assert p + s == p;
    } else {
      var c := s[0];
      assert IsDigit(c) by {
        assert (p + s)[|p|] == c;
      }
      var q := p + [c];
      assert q[..|q| - 1] == p;
      assert q + s[1..] == p + s;
      ScanDigits(q, s[1..]);
    }
  }

  /** Both scanners read a non-empty digit string from the start as the number it spells. */
  lemma DigitStringScans(s: string)
    ensures s != [] && AllDigits(s) ==> ScanInt(s, Leading, false, 0, false) == Some(DigitsValue(s))
    ensures s != [] && AllDigits(s) ==> ScanFloat(s, Leading, 1.0, 0.0, 1.0, false) == Some(DigitsValue(s) as real)
  {
    if s != [] && AllDigits(s) {
      assert !IsSpace(s[0]) && s[0] != '-' && s[0] != '+';
      var p := [s[0]];
      assert p[..0] == [];
      assert p + s[1..] == s;
      ScanDigits(p, s[1..]);
    }
  }

  /** Both scanners give NaN for a string without a digit. */
  lemma NoDigitScans(s: string)
    ensures (forall i :: 0 <= i < |s| ==> !IsDigit(s[i])) ==>
              ScanInt(s, Leading, false, 0, false) == None && ScanFloat(s, Leading, 1.0, 0.0, 1.0, false) == None
  {
    if forall i :: 0 <= i < |s| ==> !IsDigit(s[i]) {
      NoDigitIsNaN(s, Leading, 1.0, 0.0, 1.0, false, 0);
    }
  }

  /** Input without a digit is NaN for both parsers. */
  lemma {:induction false} NoDigitIsNaN(s: string, phase: ScanPhase, sign: real, value: real, scale: real, negative: bool, ivalue: int)
    requires forall i :: 0 <= i < |s| ==> !IsDigit(s[i])
    ensures ScanFloat(s, phase, sign, value, scale, false) == None
    ensures ScanInt(s, phase, negative, ivalue, false) == None
    decreases |s|, PhaseRank(phase)
  {
    if s != [] {
      NoDigitIsNaN(s[1..], Leading, sign, value, scale, negative, ivalue);
      NoDigitIsNaN(s[1..], Signed, -1.0, value, scale, true, ivalue);
      NoDigitIsNaN(s[1..], Signed, 1.0, value, scale, false, ivalue);
      NoDigitIsNaN(s[1..], Fraction, sign, value, 0.1, negative, ivalue);
    }
    if phase == Leading {
      NoDigitIsNaN(s, Signed, sign, value, scale, negative, ivalue);
    }
  }

  /** `s.replace(/[^\d.]/g, "")`: the digits and points of `s`, in order. */
  function StripToNumeric(s: string): (r: string)
    ensures |r| <= |s|
    ensures forall i :: 0 <= i < |r| ==> IsDigit(r[i]) || r[i] == '.'
  {
    if s == [] then []
    else (if IsDigit(s[0]) || s[0] == '.' then [s[0]] else []) + StripToNumeric(s[1..])
  }

  /** Digits and points are kept, in order: a string made only of them is unchanged. */
  lemma {:induction false} StripKeepsNumeric(s: string)
    requires forall i :: 0 <= i < |s| ==> IsDigit(s[i]) || s[i] == '.'
    ensures StripToNumeric(s) == s
  {
    if s != [] {
      StripKeepsNumeric(s[1..]);
    }
  }

  /** Every digit of the input survives the stripping. */
  lemma {:induction false} StripKeepsDigits(s: string, i: nat)
    requires i < |s| && IsDigit(s[i])
    ensures s[i] in StripToNumeric(s)
  {
    if i > 0 {
      StripKeepsDigits(s[1..], i - 1);
    }
  }

  /** Stripping twice is stripping once. */
  lemma StripIdempotent(s: string)
    ensures StripToNumeric(StripToNumeric(s)) == StripToNumeric(s)
  {
    StripKeepsNumeric(StripToNumeric(s));
  }

  /** A stripped string has no sign, so it never parses to a negative number. */
  lemma StrippedParsesNonNegative(s: string)
    ensures ParseFloat(StripToNumeric(s)).Some? ==> ParseFloat(StripToNumeric(s)).value >= 0.0
  {
    ScanFloatNonNegative(StripToNumeric(s), Leading, 1.0, 0.0, 1.0, false);
  }

  /** Example: "5 mg/kg" is stripped to "5". */
  lemma DoseStringStrips()
    ensures StripToNumeric("5 mg/kg") == "5"
  {
    var s := "5 mg/kg";
    assert s[1..] == " mg/kg";
    UnitStripped();
    assert StripToNumeric(s) == [s[0]] + StripToNumeric(s[1..]);
  }

  /** Example: the unit of a dose string leaves nothing behind. */
  lemma UnitStripped()
    ensures StripToNumeric(" mg/kg") == ""
  {
    var t := " mg/kg";
    assert forall i :: 0 <= i < |t| ==> !IsDigit(t[i]) && t[i] != '.';
    StripNothingKept(t);
  }

  /** Example: "5" parses to 5. */
  lemma FiveParses()
    ensures ParseFloat("5") == Some(5.0)
  {
    var five := "5";
    assert !IsSpace(five[0]) && IsDigit(five[0]) && five[1..] == [];
    assert ParseFloat(five) == ScanFloat(five, Signed, 1.0, 0.0, 1.0, false);
    assert ScanFloat(five, Signed, 1.0, 0.0, 1.0, false) == ScanFloat([], Whole, 1.0, 5.0, 1.0, true);
  }

  lemma {:induction false} StripNothingKept(t: string)
    requires forall i :: 0 <= i < |t| ==> !IsDigit(t[i]) && t[i] != '.'
    ensures StripToNumeric(t) == ""
  {
    if t != [] {
      StripNothingKept(t[1..]);
    }
  }

  // ---------------------------------------------------------------------------
  // The dose arithmetic

  /** The parsed number of an optional dose string, after stripping; nothing when absent or empty. */
  function ParsedDose(s: Option<string>): (r: Option<real>)
    ensures r.Some? ==> r.value >= 0.0
  {
    if Truthy(s) then
      StrippedParsesNonNegative(s.value);
      ParseFloat(StripToNumeric(s.value))
    else None
  }

  lemma ProductNonNegative(a: real, b: real)
    requires a >= 0.0 && b >= 0.0
    ensures a * b >= 0.0
  {
  }

  /** A parsed number is truthy: not NaN and not 0. */
  predicate TruthyNumber(x: Option<real>) {
    x.Some? && x.value != 0.0
  }

  /**
   * `totalDose`: mg/kg times the weight when the per-kilogram dose parses to a non-zero number,
   * lowered to the maximum dose when that parses to a non-zero number and is exceeded; else 0.
   */
  function TotalDose(t: Treatment, weight: real): (d: real)
    requires weight > 0.0
    ensures d >= 0.0
    ensures !TruthyNumber(ParsedDose(t.doseMgPerKg)) ==> d == 0.0
    ensures TruthyNumber(ParsedDose(t.maxDose)) && TruthyNumber(ParsedDose(t.doseMgPerKg)) ==> d <= ParsedDose(t.maxDose).value
    ensures TruthyNumber(ParsedDose(t.doseMgPerKg)) && !TruthyNumber(ParsedDose(t.maxDose)) ==>
              d == ParsedDose(t.doseMgPerKg).value * weight
    ensures TruthyNumber(ParsedDose(t.doseMgPerKg)) && TruthyNumber(ParsedDose(t.maxDose)) ==>
              d == (if ParsedDose(t.doseMgPerKg).value * weight > ParsedDose(t.maxDose).value
                    then ParsedDose(t.maxDose).value
                    else ParsedDose(t.doseMgPerKg).value * weight)
  {
    var mg := ParsedDose(t.doseMgPerKg);
    var max := ParsedDose(t.maxDose);
    if !TruthyNumber(mg) then 0.0
    else
      ProductNonNegative(mg.value, weight);
      if TruthyNumber(max) && mg.value * weight > max.value then max.value
      else mg.value * weight
  }

  /** `volume`: the dose over the concentration when both are positive, else 0. */
  function Volume(totalDose: real, concentration: Option<real>): (v: real)
    ensures v > 0.0 <==> concentration.Some? && concentration.value > 0.0 && totalDose > 0.0
    ensures !(concentration.Some? && concentration.value > 0.0 && totalDose > 0.0) ==> v == 0.0
    ensures concentration.Some? && concentration.value > 0.0 && totalDose > 0.0 ==> v * concentration.value == totalDose
  {
    if concentration.Some? && concentration.value > 0.0 && totalDose > 0.0 then totalDose / concentration.value else 0.0
  }

  /** `bmi`: the weight over the squared height in metres when the height is positive, else 0. */
  function Bmi(weight: real, height: Option<real>): (b: real)
    requires weight > 0.0
    ensures b > 0.0 <==> height.Some? && height.value > 0.0
    ensures !(height.Some? && height.value > 0.0) ==> b == 0.0
    ensures height.Some? && height.value > 0.0 ==> b * (height.value / 100.0) * (height.value / 100.0) == weight
  {
    if height.Some? && height.value > 0.0 then
      var m := height.value / 100.0;
      ProductPositive(m, m);
      var b := weight / (m * m);
      assert b * (m * m) == weight;
      assert b * m * m == b * (m * m);
      b
    else 0.0
  }

  lemma ProductPositive(a: real, b: real)
    requires a > 0.0 && b > 0.0
    ensures a * b > 0.0
  {
  }

  /** The Mosteller radicand: height in centimetres times weight in kilograms over 3600. */
  function BsaRadicand(weight: real, height: real): (r: real)
    ensures weight > 0.0 && height > 0.0 ==> r > 0.0
  {
    ProductPositiveIf(height, weight);
    height * weight / 3600.0
  }

  lemma ProductPositiveIf(a: real, b: real)
    ensures a > 0.0 && b > 0.0 ==> a * b > 0.0
  {
    if a > 0.0 && b > 0.0 {
      ProductPositive(a, b);
    }
  }

  /** `bsa`: the square root of height times weight over 3600 when the height is positive, else 0. */
  function Bsa(weight: real, height: Option<real>, sqrt: real -> real): (b: real)
    ensures !(height.Some? && height.value > 0.0) ==> b == 0.0
  {
    if height.Some? && height.value > 0.0 then sqrt(BsaRadicand(weight, height.value)) else 0.0
  }

  /** The BMI band shown under the result. */
  datatype BmiBand = Underweight | Normal | Overweight | Obese

  function BandOf(bmi: real): BmiBand {
    if bmi < 18.5 then Underweight else if bmi < 25.0 then Normal else if bmi < 30.0 then Overweight else Obese
  }

  function BandRank(b: BmiBand): nat {
    match b
    case Underweight => 0
    case Normal => 1
    case Overweight => 2
    case Obese => 3
  }

  /** The bands are ordered: a larger BMI never falls in a lower band. */
  lemma BandMonotone(b1: real, b2: real)
    requires b1 <= b2
    ensures BandRank(BandOf(b1)) <= BandRank(BandOf(b2))
  {
  }

  /** Examples: 5 mg/kg for 20 kg is 100 mg; for 40 kg it is 200 mg, lowered to a maximum of 150 mg. */
  lemma DoseExamples(t: Treatment)
    requires ParsedDose(t.doseMgPerKg) == Some(5.0)
    ensures ParsedDose(t.maxDose) == None ==> TotalDose(t, 20.0) == 100.0
    ensures ParsedDose(t.maxDose) == Some(150.0) ==> TotalDose(t, 40.0) == 150.0 && TotalDose(t, 20.0) == 100.0
    ensures Volume(100.0, Some(10.0)) == 10.0
  {
  }

  /** Example: 70 kg at 170 cm is a normal BMI (about 24.2). */
  lemma BmiExample()
    ensures 24.0 < Bmi(70.0, Some(170.0)) < 24.5
    ensures BandOf(Bmi(70.0, Some(170.0))) == Normal
  {
  }

  /** The calculator's pediatric choice: `parseInt(age) < 18`, which is false for NaN. */
  predicate IsPediatricAge(age: string) {
    var n := ParseInt(age);
    n.Some? && n.value < 18
  }

  /** Examples: a blank age is an adult; "12" is a child. */
  lemma BlankAgeIsAdult()
    ensures !IsPediatricAge("")
    ensures IsPediatricAge("12")
  {
    assert ParseInt("") == ScanInt("", Signed, false, 0, false);
    var s := "12";
    assert !IsSpace(s[0]) && IsDigit(s[0]) && IsDigit(s[1]) && s[1..][1..] == [];
    assert ParseInt(s) == ScanInt(s, Signed, false, 0, false);
    assert ScanInt(s, Signed, false, 0, false) == ScanInt(s[1..], Whole, false, 1, true);
    assert ScanInt(s[1..], Whole, false, 1, true) == ScanInt([], Whole, false, 12, true);
  }

  /** The `totalDose` block of `calculateDosage`: the per-kilogram dose, then the cap. */
  method DoseForWeight(t: Treatment, w: real) returns (totalDose: real)
    requires w > 0.0
    ensures totalDose == TotalDose(t, w)
  {
    totalDose := 0.0;
    if Truthy(t.doseMgPerKg) {
      var mgPerKg := ParseFloat(StripToNumeric(t.doseMgPerKg.value));
      if mgPerKg.Some? && mgPerKg.value != 0.0 {
        totalDose := mgPerKg.value * w;
        if Truthy(t.maxDose) {
          var maxDoseValue := ParseFloat(StripToNumeric(t.maxDose.value));
          if maxDoseValue.Some? && maxDoseValue.value != 0.0 && totalDose > maxDoseValue.value {
            totalDose := maxDoseValue.value;
          }
        }
      }
    }
  }

  /** The `volume` step of `calculateDosage`. */
  method VolumeAt(totalDose: real, concentration: Option<real>) returns (volume: real)
    ensures volume == Volume(totalDose, concentration)
  {
    volume := 0.0;
    if concentration.Some? && concentration.value > 0.0 && totalDose > 0.0 {
      volume := totalDose / concentration.value;
    }
  }

  /** The `bmi` and `bsa` steps of `calculateDosage`. */
  method BodyMeasures(w: real, height: Option<real>, sqrt: real -> real) returns (bmi: real, bsa: real)
    requires w > 0.0
    ensures bmi == Bmi(w, height)
    ensures bsa == Bsa(w, height, sqrt)
  {
    bmi := 0.0;
    if height.Some? && height.value > 0.0 {
      var heightInMeters := height.value / 100.0;
      bmi := w / (heightInMeters * heightInMeters);
    }
    bsa := 0.0;
    if height.Some? && height.value > 0.0 {
      bsa := sqrt(BsaRadicand(w, height.value));
    }
  }

  /** The result shown: the dose, the volume, BMI and body surface area. */
  datatype DoseResult = DoseResult(totalDose: real, volume: real, bmi: real, bsa: real)

  /** The calculator's form state for one condition. */
  class DosageCalculator {
    const condition: Condition
    var patientWeight: string
    var patientHeight: string
    var patientAge: string
    var drugConcentration: string
    var calculatedDose: Option<DoseResult>

    constructor (c: Condition)
      ensures condition == c
      ensures patientWeight == "" && patientHeight == "" && patientAge == "" && drugConcentration == ""
      ensures calculatedDose == None
    {
      condition := c;
      patientWeight, patientHeight, patientAge, drugConcentration := "", "", "", "";
      calculatedDose := None;
    }

    /** The treatment `calculateDosage` uses: the pediatric one for a child, the adult one otherwise. */
    function ChosenTreatment(isPediatric: bool): Option<Treatment>
      reads this
    {
      if isPediatric then condition.pedsTreatment else Some(condition.adultTreatment)
    }

    /**
     * `calculateDosage`: nothing is written when the weight is NaN, 0 or negative, or when the
     * chosen treatment is missing; otherwise the dose, volume, BMI and BSA, computed step by step.
     */
    method CalculateDosage(isPediatric: bool, sqrt: real -> real)
      modifies this`calculatedDose
      ensures var weight := ParseFloat(patientWeight);
              var treatment := ChosenTreatment(isPediatric);
              if weight.Some? && weight.value > 0.0 && treatment.Some? then
                var total := TotalDose(treatment.value, weight.value);
                calculatedDose == Some(DoseResult(total, Volume(total, ParseFloat(drugConcentration)),
                                                  Bmi(weight.value, ParseFloat(patientHeight)),
                                                  Bsa(weight.value, ParseFloat(patientHeight), sqrt)))
              else calculatedDose == old(calculatedDose)
    {
      var weight := ParseFloat(patientWeight);
      var height := ParseFloat(patientHeight);
      var concentration := ParseFloat(drugConcentration);
      if !(weight.Some? && weight.value != 0.0) || weight.value <= 0.0 {
        return;
      }
      var w := weight.value;
      var treatment := if isPediatric then condition.pedsTreatment else Some(condition.adultTreatment);
      if treatment.None? {
        return;
      }
      var t := treatment.value;
      var totalDose := DoseForWeight(t, w);
      var volume := VolumeAt(totalDose, concentration);
      var bmi, bsa := BodyMeasures(w, height, sqrt);
      calculatedDose := Some(DoseResult(totalDose, volume, bmi, bsa));
    }

    /** The "Calculate Dosage" button: pediatric exactly when the age parses below 18. */
    method CalculateFromAge(sqrt: real -> real)
      modifies this`calculatedDose
      ensures var weight := ParseFloat(patientWeight);
              var treatment := ChosenTreatment(IsPediatricAge(patientAge));
              if weight.Some? && weight.value > 0.0 && treatment.Some? then
                var total := TotalDose(treatment.value, weight.value);
                calculatedDose == Some(DoseResult(total, Volume(total, ParseFloat(drugConcentration)),
                                                  Bmi(weight.value, ParseFloat(patientHeight)),
                                                  Bsa(weight.value, ParseFloat(patientHeight), sqrt)))
              else calculatedDose == old(calculatedDose)
    {
      var age := ParseInt(patientAge);
      CalculateDosage(age.Some? && age.value < 18, sqrt);
    }

    /** `handleClose`: every input cleared and the result removed. */
    method HandleClose()
      modifies this`patientWeight, this`patientHeight, this`patientAge, this`drugConcentration, this`calculatedDose
      ensures patientWeight == "" && patientHeight == "" && patientAge == "" && drugConcentration == ""
      ensures calculatedDose == None
    {
      patientWeight, patientHeight, patientAge, drugConcentration := "", "", "", "";
      calculatedDose := None;
    }
  }
}
