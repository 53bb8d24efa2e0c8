/**
 * The clinical decision support panel of components/ClinicalDecisionSupport.tsx: the seven
 * scoring rules (CURB-65, qSOFA, GCS, Wells for pulmonary embolism, CHA2DS2-VASc, NIHSS and
 * SOFA), the alternatives offered for each checked drug allergy, the alerts a condition's name
 * raises and the scores the panel shows for it.
 */
module DecisionSupport {
  import opened Text
  import opened Records

  /** The risk tiers a `ScoringResult` can name. */
  datatype Risk = Low | Moderate | High | VeryHigh

  /** A calculator's answer: the score, its tier and the advice shown with it. */
  datatype ScoringResult = ScoringResult(score: real, risk: Risk, recommendation: string)

  /** `Object.values(criteria).filter(Boolean).length`: how many criteria hold. */
  function CountTrue(flags: seq<bool>): (n: nat)
    ensures n <= |flags|
    ensures n == multiset(flags)[true]
    ensures n == 0 <==> true !in flags
    ensures n == |flags| <==> false !in flags
  {
    if flags == [] then 0
    else
      assert flags == [flags[0]] + flags[1..];
      (if flags[0] then 1 else 0) + CountTrue(flags[1..])
  }

  /** `Object.values(subScores).reduce((sum, value) => sum + value, 0)`. */
  function Sum(s: seq<int>): int {
    if s == [] then 0 else s[0] + Sum(s[1..])
  }

  /** Sub-scores that each lie in 0..hi add up to a total in 0..|s|·hi. */
  lemma {:induction false} SumWithin(s: seq<int>, hi: nat)
    requires forall i :: 0 <= i < |s| ==> 0 <= s[i] <= hi
    ensures 0 <= Sum(s) <= |s| * hi
  {
    if s != [] {
      SumWithin(s[1..], hi);
      assert |s| * hi == hi + (|s| - 1) * hi;
    }
  }

  // ---------------------------------------------------------------------------
  // CURB-65

  datatype Curb65Criteria = Curb65Criteria(confusion: bool, urea: bool, respiratoryRate: bool,
                                           bloodPressure: bool, age: bool)

  function Curb65Flags(c: Curb65Criteria): seq<bool> {
    [c.confusion, c.urea, c.respiratoryRate, c.bloodPressure, c.age]
  }

  const Curb65LowAdvice := "Consider outpatient treatment. Low risk of mortality (<3%)."
  const Curb65ModerateAdvice := "Consider short inpatient stay or supervised outpatient treatment. Moderate risk (3-15%)."
  const Curb65HighAdvice := "Severe pneumonia. Consider ICU admission. High mortality risk (>15%)."

  /** `calculateCurb65`: one point per criterion; Low for at most 1, Moderate for 2, High from 3. */
  function Curb65(c: Curb65Criteria): (r: ScoringResult)
    ensures r.score == multiset(Curb65Flags(c))[true] as real
    ensures 0.0 <= r.score <= 5.0
    ensures r.risk == Low <==> r.score <= 1.0
    ensures r.risk == Moderate <==> r.score == 2.0
    ensures r.risk == High <==> r.score >= 3.0
    ensures r.risk != VeryHigh
    ensures r.score <= 1.0 ==> r.recommendation == Curb65LowAdvice
    ensures r.score == 2.0 ==> r.recommendation == Curb65ModerateAdvice
    ensures r.score >= 3.0 ==> r.recommendation == Curb65HighAdvice
  {
    var score := CountTrue(Curb65Flags(c));
    if score <= 1 then ScoringResult(score as real, Low, Curb65LowAdvice)
    else if score == 2 then ScoringResult(score as real, Moderate, Curb65ModerateAdvice)
    else ScoringResult(score as real, High, Curb65HighAdvice)
  }

  // ---------------------------------------------------------------------------
  // qSOFA

  datatype QsofaCriteria = QsofaCriteria(alteredMentation: bool, systolicBP: bool, respiratoryRate: bool)

  function QsofaFlags(q: QsofaCriteria): seq<bool> {
    [q.alteredMentation, q.systolicBP, q.respiratoryRate]
  }

  const QsofaLowAdvice := "Low risk for sepsis. Continue monitoring."
  const QsofaHighAdvice := "High risk for sepsis. Consider ICU evaluation and immediate intervention."

  /** `calculateQsofa`: one point per criterion; Low below 2, else High. */
  function Qsofa(q: QsofaCriteria): (r: ScoringResult)
    ensures r.score == multiset(QsofaFlags(q))[true] as real
    ensures 0.0 <= r.score <= 3.0
    ensures r.risk == Low <==> r.score < 2.0
    ensures r.risk == High <==> r.score >= 2.0
    ensures r.risk != Moderate && r.risk != VeryHigh
    ensures r.score < 2.0 ==> r.recommendation == QsofaLowAdvice
    ensures r.score >= 2.0 ==> r.recommendation == QsofaHighAdvice
  {
    var score := CountTrue(QsofaFlags(q));
    if score < 2 then ScoringResult(score as real, Low, QsofaLowAdvice)
    else ScoringResult(score as real, High, QsofaHighAdvice)
  }

  // ---------------------------------------------------------------------------
  // Glasgow Coma Scale

  datatype GcsState = GcsState(eyeOpening: int, verbalResponse: int, motorResponse: int)

  /** The panel's starting state: spontaneous, oriented, obeys commands. */
  const InitialGcs := GcsState(4, 5, 6)

  /** The values the three selects offer: eye 1-4, verbal 1-5, motor 1-6. */
  predicate OfferedGcs(g: GcsState) {
    1 <= g.eyeOpening <= 4 && 1 <= g.verbalResponse <= 5 && 1 <= g.motorResponse <= 6
  }

  const GcsLowAdvice := "Mild brain injury. Monitor closely."
  const GcsModerateAdvice := "Moderate brain injury. Consider CT scan and neurosurgical consultation."
  const GcsHighAdvice := "Severe brain injury. Immediate neurosurgical consultation and ICU care."

  /** `calculateGcs`: the three responses added; Low from 13, Moderate for 9-12, High up to 8. */
  function Gcs(g: GcsState): (r: ScoringResult)
    ensures r.score == (g.eyeOpening + g.verbalResponse + g.motorResponse) as real
    ensures r.risk == Low <==> r.score >= 13.0
    ensures r.risk == Moderate <==> 9.0 <= r.score < 13.0
    ensures r.risk == High <==> r.score < 9.0
    ensures r.risk != VeryHigh
    ensures r.score >= 13.0 ==> r.recommendation == GcsLowAdvice
    ensures 9.0 <= r.score < 13.0 ==> r.recommendation == GcsModerateAdvice
    ensures r.score < 9.0 ==> r.recommendation == GcsHighAdvice
  {
    var score := g.eyeOpening + g.verbalResponse + g.motorResponse;
    if score >= 13 then ScoringResult(score as real, Low, GcsLowAdvice)
    else if score >= 9 then ScoringResult(score as real, Moderate, GcsModerateAdvice)
    else ScoringResult(score as real, High, GcsHighAdvice)
  }

  /** With the offered values the total is 3..15; as examples, the starting state is the full 15 (Low) and the lowest state is High. */
  lemma GcsRange(g: GcsState)
    ensures OfferedGcs(g) ==> 3.0 <= Gcs(g).score <= 15.0
    ensures Gcs(InitialGcs).score == 15.0 && Gcs(InitialGcs).risk == Low
    ensures Gcs(GcsState(1, 1, 1)).risk == High
  {
  }

  // ---------------------------------------------------------------------------
  // Wells score for pulmonary embolism

  datatype WellsCriteria = WellsCriteria(clinicalSigns: bool, alternativeDiagnosis: bool, heartRate: bool,
                                         immobilization: bool, previousPE: bool, hemoptysis: bool,
                                         malignancy: bool)

  /** 1 for a criterion that holds, else 0. */
  function Indicator(b: bool): real {
    if b then 1.0 else 0.0
  }

  /** The Wells weights: signs +3, an alternative diagnosis −3, three criteria +1.5 and two +1. */
  function WellsScore(w: WellsCriteria): real {
    3.0 * Indicator(w.clinicalSigns) - 3.0 * Indicator(w.alternativeDiagnosis)
    + 1.5 * (Indicator(w.heartRate) + Indicator(w.immobilization) + Indicator(w.previousPE))
    + Indicator(w.hemoptysis) + Indicator(w.malignancy)
  }

  /** The Wells score ranges over [−3, 9.5], and both ends are reached. */
  lemma WellsRange(w: WellsCriteria)
    ensures -3.0 <= WellsScore(w) <= 9.5
    ensures WellsScore(WellsCriteria(false, true, false, false, false, false, false)) == -3.0
    ensures WellsScore(WellsCriteria(true, false, true, true, true, true, true)) == 9.5
  {
  }

  const WellsLowAdvice := "PE unlikely. Consider D-dimer. If negative, PE ruled out."
  const WellsHighAdvice := "PE likely. Proceed directly to CTPA or V/Q scan."

  /** The accumulation of `calculateWellsPE`: each criterion that holds adds its points to `score`. */
  method WellsPoints(w: WellsCriteria) returns (score: real)
    ensures score == WellsScore(w)
  {
    score := 0.0;
    if w.clinicalSigns { score := score + 3.0; }
    if w.alternativeDiagnosis { score := score - 3.0; }
    if w.heartRate { score := score + 1.5; }
    if w.immobilization { score := score + 1.5; }
    if w.previousPE { score := score + 1.5; }
    if w.hemoptysis { score := score + 1.0; }
    if w.malignancy { score := score + 1.0; }
  }

  /** `calculateWellsPE`: the points, then Low up to 4 and High above. */
  method CalculateWellsPE(w: WellsCriteria) returns (r: ScoringResult)
    ensures r.score == WellsScore(w)
    ensures -3.0 <= r.score <= 9.5
    ensures r.risk == Low <==> r.score <= 4.0
    ensures r.risk == High <==> r.score > 4.0
    ensures r.risk == Low ==> r.recommendation == WellsLowAdvice
    ensures r.risk == High ==> r.recommendation == WellsHighAdvice
  {
    var score := WellsPoints(w);
    WellsRange(w);
    if score <= 4.0 {
      r := ScoringResult(score, Low, WellsLowAdvice);
    } else {
      r := ScoringResult(score, High, WellsHighAdvice);
    }
  }

  // ---------------------------------------------------------------------------
  // CHA2DS2-VASc

  datatype ChadsVascCriteria = ChadsVascCriteria(chf: bool, hypertension: bool, age75: bool, diabetes: bool,
                                                 stroke: bool, vascular: bool, age65: bool, female: bool)

  /** Age 75 and a prior stroke count 2, the six other criteria 1; the two age bands are independent checkboxes. */
  function ChadsVascScore(c: ChadsVascCriteria): real {
    Indicator(c.chf) + Indicator(c.hypertension) + 2.0 * Indicator(c.age75) + Indicator(c.diabetes)
    + 2.0 * Indicator(c.stroke) + Indicator(c.vascular) + Indicator(c.age65) + Indicator(c.female)
  }

  /** The score is 0..10, and 10 is reached. */
  lemma ChadsVascRange(c: ChadsVascCriteria)
    ensures 0.0 <= ChadsVascScore(c) <= 10.0
    ensures ChadsVascScore(ChadsVascCriteria(true, true, true, true, true, true, true, true)) == 10.0
  {
    assert 0.0 <= Indicator(c.chf) <= 1.0 && 0.0 <= Indicator(c.hypertension) <= 1.0;
    assert 0.0 <= Indicator(c.age75) <= 1.0 && 0.0 <= Indicator(c.diabetes) <= 1.0;
    assert 0.0 <= Indicator(c.stroke) <= 1.0 && 0.0 <= Indicator(c.vascular) <= 1.0;
    assert 0.0 <= Indicator(c.age65) <= 1.0 && 0.0 <= Indicator(c.female) <= 1.0;
  }

  /** The two age bands are separate checkboxes: ticking both adds 3 to what ticking neither gives. */
  lemma BothAgeBandsCount(c: ChadsVascCriteria)
    ensures ChadsVascScore(c.(age65 := true, age75 := true)) == ChadsVascScore(c.(age65 := false, age75 := false)) + 3.0
  {
  }

  const ChadsVascNoneAdvice := "No anticoagulation recommended. Annual stroke risk <1%."
  const ChadsVascConsiderAdvice := "Consider anticoagulation. Annual stroke risk 1-2%."
  const ChadsVascAnticoagulateAdvice := "Anticoagulation recommended. Annual stroke risk >2%."

  /** The accumulation of `calculateChadsVasc`: each criterion that holds adds its points to `score`. */
  method ChadsVascPoints(c: ChadsVascCriteria) returns (score: real)
    ensures score == ChadsVascScore(c)
  {
    score := 0.0;
    if c.chf { score := score + 1.0; }
    if c.hypertension { score := score + 1.0; }
    if c.age75 { score := score + 2.0; }
    if c.diabetes { score := score + 1.0; }
    if c.stroke { score := score + 2.0; }
    if c.vascular { score := score + 1.0; }
    if c.age65 { score := score + 1.0; }
    if c.female { score := score + 1.0; }
  }

  /**
   * `calculateChadsVasc`: the points, then 0 and 1 both Low but with different advice, and 2
   * and more High.
   */
  method CalculateChadsVasc(c: ChadsVascCriteria) returns (r: ScoringResult)
    ensures r.score == ChadsVascScore(c)
    ensures 0.0 <= r.score <= 10.0
    ensures r.risk == Low <==> r.score <= 1.0
    ensures r.risk == High <==> r.score >= 2.0
    ensures r.score == 0.0 ==> r.recommendation == ChadsVascNoneAdvice
    ensures r.score == 1.0 ==> r.recommendation == ChadsVascConsiderAdvice
    ensures r.score >= 2.0 ==> r.recommendation == ChadsVascAnticoagulateAdvice
  {
    var score := ChadsVascPoints(c);
    ChadsVascRange(c);
    ChadsVascWhole(c);
    if score == 0.0 {
      r := ScoringResult(score, Low, ChadsVascNoneAdvice);
    } else if score == 1.0 {
      r := ScoringResult(score, Low, ChadsVascConsiderAdvice);
    } else {
      r := ScoringResult(score, High, ChadsVascAnticoagulateAdvice);
    }
  }

  /** The score is a whole number, so nothing lies strictly between 1 and 2. */
  lemma ChadsVascWhole(c: ChadsVascCriteria)
    ensures ChadsVascScore(c) == ChadsVascScore(c).Floor as real
  {
  }

  // ---------------------------------------------------------------------------
  // NIHSS

  datatype NihssState = NihssState(consciousness: int, gaze: int, visual: int, facialPalsy: int,
                                   motorArm: int, motorLeg: int, limbAtaxia: int, sensory: int,
                                   language: int, dysarthria: int, extinction: int)

  function NihssValues(n: NihssState): (r: seq<int>)
    ensures |r| == 11
  {
    [n.consciousness, n.gaze, n.visual, n.facialPalsy, n.motorArm, n.motorLeg, n.limbAtaxia, n.sensory,
     n.language, n.dysarthria, n.extinction]
  }

  const NihssLowAdvice := "Minor stroke. Consider outpatient management with close follow-up."
  const NihssModerateAdvice := "Moderate stroke. Admit for monitoring and rehabilitation."
  const NihssHighAdvice := "Severe stroke. Consider ICU care and aggressive intervention."

  /** `calculateNIHSS`: the eleven sub-scores added; Low up to 4, Moderate up to 15, else High. */
  function Nihss(n: NihssState): (r: ScoringResult)
    ensures r.score == Sum(NihssValues(n)) as real
    ensures r.risk == Low <==> r.score <= 4.0
    ensures r.risk == Moderate <==> 4.0 < r.score <= 15.0
    ensures r.risk == High <==> r.score > 15.0
    ensures r.risk != VeryHigh
    ensures r.score <= 4.0 ==> r.recommendation == NihssLowAdvice
    ensures 4.0 < r.score <= 15.0 ==> r.recommendation == NihssModerateAdvice
    ensures r.score > 15.0 ==> r.recommendation == NihssHighAdvice
  {
    var score := Sum(NihssValues(n));
    if score <= 4 then ScoringResult(score as real, Low, NihssLowAdvice)
    else if score <= 15 then ScoringResult(score as real, Moderate, NihssModerateAdvice)
    else ScoringResult(score as real, High, NihssHighAdvice)
  }

  // ---------------------------------------------------------------------------
  // SOFA

  datatype SofaState = SofaState(respiration: int, coagulation: int, liver: int, cardiovascular: int,
                                 cns: int, renal: int)

  function SofaValues(s: SofaState): (r: seq<int>)
    ensures |r| == 6
  {
    [s.respiration, s.coagulation, s.liver, s.cardiovascular, s.cns, s.renal]
  }

  /** Each select offers 0..3. */
  predicate OfferedSofa(s: SofaState) {
    forall i :: 0 <= i < |SofaValues(s)| ==> 0 <= SofaValues(s)[i] <= 3
  }

  const SofaLowAdvice := "Low mortality risk (<10%). Continue monitoring."
  const SofaModerateAdvice := "Moderate mortality risk (15-20%). Consider ICU care."
  const SofaHighAdvice := "High mortality risk (>40%). Intensive care required."

  /** `calculateSOFA`: the six organ scores added; Low up to 6, Moderate up to 12, else High. */
  function Sofa(s: SofaState): (r: ScoringResult)
    ensures r.score == Sum(SofaValues(s)) as real
    ensures r.risk == Low <==> r.score <= 6.0
    ensures r.risk == Moderate <==> 6.0 < r.score <= 12.0
    ensures r.risk == High <==> r.score > 12.0
    ensures r.risk != VeryHigh
    ensures r.score <= 6.0 ==> r.recommendation == SofaLowAdvice
    ensures 6.0 < r.score <= 12.0 ==> r.recommendation == SofaModerateAdvice
    ensures r.score > 12.0 ==> r.recommendation == SofaHighAdvice
  {
    var score := Sum(SofaValues(s));
    if score <= 6 then ScoringResult(score as real, Low, SofaLowAdvice)
    else if score <= 12 then ScoringResult(score as real, Moderate, SofaModerateAdvice)
    else ScoringResult(score as real, High, SofaHighAdvice)
  }

  /** With the offered values the SOFA total is 0..18. */
  lemma SofaRange(s: SofaState)
    requires OfferedSofa(s)
    ensures 0.0 <= Sofa(s).score <= 18.0
  {
    SumWithin(SofaValues(s), 3);
  }

  /** Sub-scores that are never negative never make the NIHSS total negative, so it is never below Low's floor. */
  lemma NihssNonNegative(n: NihssState, hi: nat)
    requires forall i :: 0 <= i < 11 ==> 0 <= NihssValues(n)[i] <= hi
    ensures 0.0 <= Nihss(n).score <= (11 * hi) as real
  {
    SumWithin(NihssValues(n), hi);
  }

  // ---------------------------------------------------------------------------
  // Drug allergies

  datatype Allergies = Allergies(penicillin: bool, sulfa: bool, nsaids: bool, opioids: bool, contrast: bool)

  /** The allergy keys in the order the state object lists them. */
  const AllergyKeys: seq<string> := ["penicillin", "sulfa", "nsaids", "opioids", "contrast"]

  function AllergyFlags(a: Allergies): (r: seq<bool>)
    ensures |r| == |AllergyKeys|
  {
    [a.penicillin, a.sulfa, a.nsaids, a.opioids, a.contrast]
  }

  /** The fixed table of alternatives, and `[]` for a key it does not hold. */
  function AlternativesFor(allergy: string): (r: seq<string>)
    ensures allergy in AllergyKeys ==> r != []
  {
    if allergy == "penicillin" then ["Cephalexin (if no cross-reactivity)", "Azithromycin", "Clindamycin", "Vancomycin"]
    else if allergy == "sulfa" then ["Avoid Bactrim, use Doxycycline", "Cephalexin", "Azithromycin"]
    else if allergy == "nsaids" then ["Acetaminophen", "Topical analgesics", "Low-dose opioids if needed"]
    else if allergy == "opioids" then ["Acetaminophen", "NSAIDs (if not contraindicated)", "Tramadol", "Gabapentin"]
    else if allergy == "contrast" then ["Pre-medication with steroids/antihistamines", "Use alternative imaging", "Non-contrast studies"]
    else []
  }

  /** One entry of the list: the allergy's name with its first letter capitalised, and its alternatives. */
  datatype AllergyAdvice = AllergyAdvice(allergy: string, alternatives: seq<string>)

  function AdviceFor(key: string): AllergyAdvice {
    AllergyAdvice(Capitalize(key), AlternativesFor(key))
  }

  /** The entries of every key, checked or not, in key order. */
  function AdviceList(keys: seq<string>): (r: seq<AllergyAdvice>)
    ensures |r| == |keys|
  {
    if keys == [] then [] else [AdviceFor(keys[0])] + AdviceList(keys[1..])
  }

  /** `entries.filter(checked).map(…)`: the entries of the checked keys, in key order. */
  function CheckedAdvice(keys: seq<string>, flags: seq<bool>): (r: seq<AllergyAdvice>)
    requires |keys| == |flags|
    ensures |r| == CountTrue(flags)
  {
    if keys == [] then []
    else (if flags[0] then [AdviceFor(keys[0])] else []) + CheckedAdvice(keys[1..], flags[1..])
  }

  /** A key's entry is listed exactly when some position holding that entry is checked. */
  lemma {:induction false} CheckedAdviceMembership(keys: seq<string>, flags: seq<bool>, e: AllergyAdvice)
    requires |keys| == |flags|
    ensures e in CheckedAdvice(keys, flags) <==> exists i :: 0 <= i < |keys| && flags[i] && AdviceFor(keys[i]) == e
  {
    if keys != [] {
      CheckedAdviceMembership(keys[1..], flags[1..], e);
      if e in CheckedAdvice(keys[1..], flags[1..]) {
        var i :| 0 <= i < |keys[1..]| && flags[1..][i] && AdviceFor(keys[1..][i]) == e;
        assert flags[i + 1] && AdviceFor(keys[i + 1]) == e;
      }
      if exists i :: 0 <= i < |keys| && flags[i] && AdviceFor(keys[i]) == e {
        var i :| 0 <= i < |keys| && flags[i] && AdviceFor(keys[i]) == e;
        if i > 0 {
          assert flags[1..][i - 1] && AdviceFor(keys[1..][i - 1]) == e;
        }
      }
    }
  }

  /** The checked entries keep the key order. */
  lemma {:induction false} CheckedAdviceInKeyOrder(keys: seq<string>, flags: seq<bool>)
    requires |keys| == |flags|
    ensures IsSubsequence(CheckedAdvice(keys, flags), AdviceList(keys))
  {
    if keys != [] {
      CheckedAdviceInKeyOrder(keys[1..], flags[1..]);
      var rest := CheckedAdvice(keys[1..], flags[1..]);
      assert AdviceList(keys) == [AdviceFor(keys[0])] + AdviceList(keys[1..]);
      if flags[0] {
        assert CheckedAdvice(keys, flags) == [AdviceFor(keys[0])] + rest;
        SubsequenceBoth(rest, AdviceList(keys[1..]), AdviceFor(keys[0]));
      } else {
        assert CheckedAdvice(keys, flags) == rest;
        SubsequenceCons(rest, AdviceList(keys[1..]), AdviceFor(keys[0]));
      }
    }
  }

  /** `getDrugAlternatives`. */
  function DrugAlternatives(a: Allergies): (r: seq<AllergyAdvice>)
    ensures |r| == multiset(AllergyFlags(a))[true]
    ensures forall i :: 0 <= i < |r| ==> r[i].alternatives != []
  {
    CheckedAdviceAlternatives(AllergyKeys, AllergyFlags(a));
    CheckedAdvice(AllergyKeys, AllergyFlags(a))
  }

  /** Every listed entry of a known key has alternatives. */
  lemma {:induction false} CheckedAdviceAlternatives(keys: seq<string>, flags: seq<bool>)
    requires |keys| == |flags|
    requires forall i :: 0 <= i < |keys| ==> keys[i] in AllergyKeys
    ensures forall i :: 0 <= i < |CheckedAdvice(keys, flags)| ==> CheckedAdvice(keys, flags)[i].alternatives != []
  {
    if keys != [] {
      CheckedAdviceAlternatives(keys[1..], flags[1..]);
      var head: seq<AllergyAdvice> := if flags[0] then [AdviceFor(keys[0])] else [];
      var rest := CheckedAdvice(keys[1..], flags[1..]);
      assert CheckedAdvice(keys, flags) == head + rest;
      forall i | 0 <= i < |head + rest|
        ensures (head + rest)[i].alternatives != []
      {
        if i >= |head| {
          assert (head + rest)[i] == rest[i - |head|];
        }
      }
    }
  }

  /** The five keys have five different lengths. */
  lemma KeyLengthsDistinct(i: nat, j: nat)
    requires i < |AllergyKeys| && j < |AllergyKeys| && i != j
    ensures |AllergyKeys[i]| != |AllergyKeys[j]|
  {
  }

  /** Capitalising keeps the length of the name. */
  lemma AdviceKeepsLength(key: string)
    ensures |AdviceFor(key).allergy| == |key|
  {
  }

  /** Each allergy has its own entry, since capitalising keeps the keys' different lengths. */
  lemma AllergyEntriesDistinct(i: nat, j: nat)
    requires i < |AllergyKeys| && j < |AllergyKeys|
    ensures AdviceFor(AllergyKeys[i]) == AdviceFor(AllergyKeys[j]) ==> i == j
  {
    if i != j {
      KeyLengthsDistinct(i, j);
      AdviceKeepsLength(AllergyKeys[i]);
      AdviceKeepsLength(AllergyKeys[j]);
    }
  }

  /** An allergy's entry is in the list exactly when the allergy is checked, and the list keeps key order. */
  lemma DrugAlternativesExact(a: Allergies, i: nat)
    requires i < |AllergyKeys|
    ensures AdviceFor(AllergyKeys[i]) in DrugAlternatives(a) <==> AllergyFlags(a)[i]
    ensures IsSubsequence(DrugAlternatives(a), AdviceList(AllergyKeys))
  {
    CheckedAdviceMembership(AllergyKeys, AllergyFlags(a), AdviceFor(AllergyKeys[i]));
    if AdviceFor(AllergyKeys[i]) in DrugAlternatives(a) {
      var j :| 0 <= j < |AllergyKeys| && AllergyFlags(a)[j] && AdviceFor(AllergyKeys[j]) == AdviceFor(AllergyKeys[i]);
      AllergyEntriesDistinct(i, j);
    }
    CheckedAdviceInKeyOrder(AllergyKeys, AllergyFlags(a));
  }

  // ---------------------------------------------------------------------------
  // Condition-specific alerts

  datatype Alert = Alert(kind: string, message: string, severity: string)

  /** One block of `getConditionSpecificAlerts`: the words that trigger it and the two alerts it adds. */
  datatype AlertRule = AlertRule(words: seq<string>, first: Alert, second: Alert)

  /** The chained `includes` test of a rule: some word occurs in the name. */
  predicate MentionsAny(name: string, words: seq<string>) {
    words != [] && (Contains(name, words[0]) || MentionsAny(name, words[1..]))
  }

  const RespiratoryRule := AlertRule(["asthma", "copd"],
    Alert("contraindication", "Avoid beta-blockers - can trigger severe bronchospasm", "high"),
    Alert("monitoring", "Monitor peak flow, oxygen saturation, and arterial blood gases", "medium"))
  const CardiacRule := AlertRule(["heart", "cardiac", "coronary"],
    Alert("contraindication", "Check renal function before ACE inhibitors/ARBs", "high"),
    Alert("monitoring", "Serial ECGs and cardiac enzymes required", "high"))
  const StrokeRule := AlertRule(["stroke"],
    Alert("time-critical", "Time is brain! Consider thrombolysis within 4.5 hours", "critical"),
    Alert("contraindication", "Check for bleeding contraindications before thrombolysis", "critical"))
  const SepsisRule := AlertRule(["sepsis"],
    Alert("time-critical", "Hour-1 bundle: Blood cultures, lactate, antibiotics, fluids", "critical"),
    Alert("monitoring", "Serial lactate levels and organ function assessment", "high"))
  const EmbolismRule := AlertRule(["embolism", "pe"],
    Alert("contraindication", "Check bleeding risk before anticoagulation", "high"),
    Alert("monitoring", "Monitor for signs of massive PE requiring thrombolysis", "high"))
  const DiabeticRule := AlertRule(["diabetic", "dka", "hypoglycemia"],
    Alert("monitoring", "Frequent glucose, electrolytes, and ketone monitoring", "high"),
    Alert("contraindication", "Avoid rapid glucose correction - risk of cerebral edema", "high"))

  /** The six rules in the order the code tests them. */
  const AlertRules: seq<AlertRule> := [RespiratoryRule, CardiacRule, StrokeRule, SepsisRule, EmbolismRule, DiabeticRule]

  /** Whether the name triggers each of the six rules, in the order the code tests them. */
  function Fired(name: string): (r: seq<bool>)
    ensures |r| == |AlertRules|
  {
    [MentionsAny(name, RespiratoryRule.words), MentionsAny(name, CardiacRule.words),
     MentionsAny(name, StrokeRule.words), MentionsAny(name, SepsisRule.words),
     MentionsAny(name, EmbolismRule.words), MentionsAny(name, DiabeticRule.words)]
  }

  /** The two alerts of a rule when it fired, else none. */
  function Pair(fired: bool, rule: AlertRule): seq<Alert> {
    if fired then [rule.first, rule.second] else []
  }

  /** The alerts of the rules, pushed rule by rule: `fired[k]` says whether rule `k` fired. */
  function AlertsFrom(fired: seq<bool>, rules: seq<AlertRule>): seq<Alert>
    requires |fired| == |rules|
  {
    if rules == [] then []
    else AlertsFrom(fired[..|fired| - 1], rules[..|rules| - 1]) + Pair(fired[|fired| - 1], rules[|rules| - 1])
  }

  /** Both alerts of every rule, in rule order. */
  function AllAlerts(rules: seq<AlertRule>): seq<Alert> {
    if rules == [] then [] else AllAlerts(rules[..|rules| - 1]) + Pair(true, rules[|rules| - 1])
  }

  /** How many rules fired, counted in push order. */
  function FiredCount(fired: seq<bool>): nat {
    if fired == [] then 0 else FiredCount(fired[..|fired| - 1]) + (if fired[|fired| - 1] then 1 else 0)
  }

  /** Counting in push order counts the fired flags. */
  lemma {:induction false} FiredCountIsCount(fired: seq<bool>)
    ensures FiredCount(fired) == multiset(fired)[true]
  {
    if fired != [] {
      var n := |fired| - 1;
      FiredCountIsCount(fired[..n]);
      assert multiset(fired) == multiset(fired[..n]) + multiset{fired[n]} by {
        assert fired == fired[..n] + [fired[n]];
      }
    }
  }

  /** Exactly two alerts per fired rule. */
  lemma {:induction false} AlertsFromLength(fired: seq<bool>, rules: seq<AlertRule>)
    requires |fired| == |rules|
    ensures |AlertsFrom(fired, rules)| == 2 * FiredCount(fired)
  {
    if rules != [] {
      var n := |rules| - 1;
      AlertsFromLength(fired[..n], rules[..n]);
      assert |AlertsFrom(fired, rules)| == |AlertsFrom(fired[..n], rules[..n])| + |Pair(fired[n], rules[n])|;
    }
  }

  /** The alerts are taken in rule order from the rules' alerts. */
  lemma {:induction false} AlertsFromInOrder(fired: seq<bool>, rules: seq<AlertRule>)
    requires |fired| == |rules|
    ensures IsSubsequence(AlertsFrom(fired, rules), AllAlerts(rules))
  {
    if rules != [] {
      var n := |rules| - 1;
      AlertsFromInOrder(fired[..n], rules[..n]);
      var rest := AlertsFrom(fired[..n], rules[..n]);
      var all := AllAlerts(rules[..n]);
      assert AllAlerts(rules) == all + Pair(true, rules[n]);
      if fired[n] {
        assert AlertsFrom(fired, rules) == rest + Pair(true, rules[n]);
        SubsequenceAppendBoth(rest, all, Pair(true, rules[n]));
      } else {
        assert AlertsFrom(fired, rules) == rest + [] == rest;
        SubsequenceAppendRight(rest, all, Pair(true, rules[n]));
      }
    }
  }

  /** An alert is in the list exactly when it is one of the two alerts of a rule that fired. */
  lemma {:induction false} AlertsFromMembers(fired: seq<bool>, rules: seq<AlertRule>, e: Alert)
    requires |fired| == |rules|
    ensures e in AlertsFrom(fired, rules) <==>
              exists k :: 0 <= k < |rules| && fired[k] && (e == rules[k].first || e == rules[k].second)
  {
    if rules != [] {
      var n := |rules| - 1;
      AlertsFromMembers(fired[..n], rules[..n], e);
      if e in AlertsFrom(fired, rules) && e !in AlertsFrom(fired[..n], rules[..n]) {
        assert fired[n] && (e == rules[n].first || e == rules[n].second);
      }
      if exists k :: 0 <= k < |rules| && fired[k] && (e == rules[k].first || e == rules[k].second) {
        var k :| 0 <= k < |rules| && fired[k] && (e == rules[k].first || e == rules[k].second);
        if k < n {
          assert fired[..n][k] && rules[..n][k] == rules[k];
        }
      }
    }
  }

  /** A name with "hyper" in it (hypertension, hyperkalemia) contains "pe", so it raises the embolism alerts. */
  lemma HyperRaisesEmbolismAlerts(name: string)
    requires Contains(name, "hyper")
    ensures MentionsAny(name, EmbolismRule.words)
    ensures var alerts := AlertsFrom(Fired(name), AlertRules);
            EmbolismRule.first in alerts && EmbolismRule.second in alerts
  {
    HyperContainsPe(name);
    assert AlertRules[4] == EmbolismRule;
    AlertsFromMembers(Fired(name), AlertRules, EmbolismRule.first);
    AlertsFromMembers(Fired(name), AlertRules, EmbolismRule.second);
  }

  /** "hyper" has "pe" at its third character. */
  lemma HyperContainsPe(s: string)
    requires Contains(s, "hyper")
    ensures Contains(s, "pe")
  {
    var i := ContainsPosition(s, "hyper");
    assert s[i + 2..i + 4] == "pe" by {
      assert s[i..i + 5] == "hyper";
      assert s[i + 2] == "hyper"[2] && s[i + 3] == "hyper"[3];
    }
    ContainsAt(s, "pe", i + 2);
  }

  /**
   * `getConditionSpecificAlerts`: the six blocks in turn, each pushing its two alerts when the
   * lower-cased name triggers it.
   */
  method ConditionSpecificAlerts(condition: Condition) returns (alerts: seq<Alert>)
    ensures alerts == AlertsFrom(Fired(ToLower(condition.name)), AlertRules)
  {
    var conditionName := ToLower(condition.name);
    alerts := [];
    ghost var pushed: seq<Alert> := [];
    if MentionsAny(conditionName, RespiratoryRule.words) {
      alerts := alerts + [RespiratoryRule.first, RespiratoryRule.second];
    }
    pushed := pushed + Pair(MentionsAny(conditionName, RespiratoryRule.words), RespiratoryRule);
    assert alerts == pushed;
    if MentionsAny(conditionName, CardiacRule.words) {
      alerts := alerts + [CardiacRule.first, CardiacRule.second];
    }
    pushed := pushed + Pair(MentionsAny(conditionName, CardiacRule.words), CardiacRule);
    assert alerts == pushed;
    if MentionsAny(conditionName, StrokeRule.words) {
      alerts := alerts + [StrokeRule.first, StrokeRule.second];
    }
    pushed := pushed + Pair(MentionsAny(conditionName, StrokeRule.words), StrokeRule);
    assert alerts == pushed;
    if MentionsAny(conditionName, SepsisRule.words) {
      alerts := alerts + [SepsisRule.first, SepsisRule.second];
    }
    pushed := pushed + Pair(MentionsAny(conditionName, SepsisRule.words), SepsisRule);
    assert alerts == pushed;
    if MentionsAny(conditionName, EmbolismRule.words) {
      alerts := alerts + [EmbolismRule.first, EmbolismRule.second];
    }
    pushed := pushed + Pair(MentionsAny(conditionName, EmbolismRule.words), EmbolismRule);
    assert alerts == pushed;
    if MentionsAny(conditionName, DiabeticRule.words) {
      alerts := alerts + [DiabeticRule.first, DiabeticRule.second];
    }
    pushed := pushed + Pair(MentionsAny(conditionName, DiabeticRule.words), DiabeticRule);
    assert alerts == pushed;
    AlertsOfName(conditionName);
  }

  /** The rule list of a name unfolded into the six pushes. */
  lemma AlertsOfName(name: string)
    ensures AlertsFrom(Fired(name), AlertRules) ==
              [] + Pair(MentionsAny(name, RespiratoryRule.words), RespiratoryRule)
                 + Pair(MentionsAny(name, CardiacRule.words), CardiacRule)
                 + Pair(MentionsAny(name, StrokeRule.words), StrokeRule)
                 + Pair(MentionsAny(name, SepsisRule.words), SepsisRule)
                 + Pair(MentionsAny(name, EmbolismRule.words), EmbolismRule)
                 + Pair(MentionsAny(name, DiabeticRule.words), DiabeticRule)
  {
    var fired := Fired(name);
    AlertsFromSix(fired[0], fired[1], fired[2], fired[3], fired[4], fired[5],
                  RespiratoryRule, CardiacRule, StrokeRule, SepsisRule, EmbolismRule, DiabeticRule);
  }

  lemma AlertsFromSnoc(fs: seq<bool>, f: bool, rs: seq<AlertRule>, r: AlertRule)
    requires |fs| == |rs|
    ensures AlertsFrom(fs + [f], rs + [r]) == AlertsFrom(fs, rs) + Pair(f, r)
  {
    assert (fs + [f])[..|fs|] == fs;
    assert (rs + [r])[..|rs|] == rs;
  }

  /** Six rules unfolded, pushed one after the other. */
  lemma AlertsFromSix(f1: bool, f2: bool, f3: bool, f4: bool, f5: bool, f6: bool,
                      r1: AlertRule, r2: AlertRule, r3: AlertRule, r4: AlertRule, r5: AlertRule, r6: AlertRule)
    ensures AlertsFrom([f1, f2, f3, f4, f5, f6], [r1, r2, r3, r4, r5, r6]) ==
              [] + Pair(f1, r1) + Pair(f2, r2) + Pair(f3, r3) + Pair(f4, r4) + Pair(f5, r5) + Pair(f6, r6)
  {
    assert [] + [f1] == [f1] && [] + [r1] == [r1];
    AlertsFromSnoc([], f1, [], r1);
    assert [f1] + [f2] == [f1, f2] && [r1] + [r2] == [r1, r2];
    AlertsFromSnoc([f1], f2, [r1], r2);
    assert [f1, f2] + [f3] == [f1, f2, f3] && [r1, r2] + [r3] == [r1, r2, r3];
    AlertsFromSnoc([f1, f2], f3, [r1, r2], r3);
    assert [f1, f2, f3] + [f4] == [f1, f2, f3, f4] && [r1, r2, r3] + [r4] == [r1, r2, r3, r4];
    AlertsFromSnoc([f1, f2, f3], f4, [r1, r2, r3], r4);
    assert [f1, f2, f3, f4] + [f5] == [f1, f2, f3, f4, f5] && [r1, r2, r3, r4] + [r5] == [r1, r2, r3, r4, r5];
    AlertsFromSnoc([f1, f2, f3, f4], f5, [r1, r2, r3, r4], r5);
    assert [f1, f2, f3, f4, f5] + [f6] == [f1, f2, f3, f4, f5, f6] && [r1, r2, r3, r4, r5] + [r6] == [r1, r2, r3, r4, r5, r6];
    AlertsFromSnoc([f1, f2, f3, f4, f5], f6, [r1, r2, r3, r4, r5], r6);
  }

  // ---------------------------------------------------------------------------
  // Relevant scores

  /** The scoring sections, one per key that `getRelevantScores` can push. */
  datatype ScorePanel = AllergyPanel | GcsPanel | Curb65Panel | QsofaPanel | SofaPanel | WellsPanel | NihssPanel | ChadsVascPanel

  /** The key the code pushes for a section. */
  function PanelKey(p: ScorePanel): string {
    match p
    case AllergyPanel => "allergies"
    case GcsPanel => "gcs"
    case Curb65Panel => "curb65"
    case QsofaPanel => "qsofa"
    case SofaPanel => "sofa"
    case WellsPanel => "wellsPE"
    case NihssPanel => "nihss"
    case ChadsVascPanel => "chadsVasc"
  }

  /** The five tests `getRelevantScores` makes on the lower-cased name. */
  datatype NameTests = NameTests(pneumonia: bool, sepsis: bool, embolism: bool, stroke: bool, cardiac: bool)

  function TestsOf(name: string): NameTests {
    NameTests(Contains(name, "pneumonia"), Contains(name, "sepsis"), Contains(name, "embolism") || Contains(name, "pe"),
              Contains(name, "stroke"), Contains(name, "heart") || Contains(name, "cardiac"))
  }

  /** One `push` guarded by a test. */
  function PushIf(r: seq<ScorePanel>, test: bool, items: seq<ScorePanel>): seq<ScorePanel> {
    if test then r + items else r
  }

  /** The list the pushes build: allergies and GCS, then each guarded push in turn. */
  function RelevantScoreList(t: NameTests): seq<ScorePanel> {
    var always := [AllergyPanel, GcsPanel];
    var r1 := PushIf(always, t.pneumonia, [Curb65Panel]);
    var r2 := PushIf(r1, t.sepsis, [QsofaPanel, SofaPanel]);
    var r3 := PushIf(r2, t.embolism, [WellsPanel]);
    var r4 := PushIf(r3, t.stroke, [NihssPanel, ChadsVascPanel]);
    PushIf(r4, t.cardiac, [ChadsVascPanel])
  }

  /** The sections shown, as the concatenation of each matching test's sections in test order. */
  function SectionsShown(t: NameTests): seq<ScorePanel> {
    [AllergyPanel, GcsPanel]
    + (if t.pneumonia then [Curb65Panel] else [])
    + (if t.sepsis then [QsofaPanel, SofaPanel] else [])
    + (if t.embolism then [WellsPanel] else [])
    + (if t.stroke then [NihssPanel, ChadsVascPanel] else [])
    + (if t.cardiac then [ChadsVascPanel] else [])
  }

  /** The pushes build exactly the concatenation, which starts with allergies and GCS. */
  lemma PushesBuildSections(t: NameTests)
    ensures RelevantScoreList(t) == SectionsShown(t)
    ensures SectionsShown(t)[..2] == [AllergyPanel, GcsPanel]
  {
  }

  /** CURB-65 is shown exactly for a pneumonia. */
  lemma Curb65Shown(t: NameTests)
    ensures Curb65Panel in SectionsShown(t) <==> t.pneumonia
  {
  }

  /** qSOFA and SOFA are shown exactly for a sepsis. */
  lemma SepsisScoresShown(t: NameTests)
    ensures QsofaPanel in SectionsShown(t) <==> t.sepsis
    ensures SofaPanel in SectionsShown(t) <==> t.sepsis
  {
  }

  /** The Wells score is shown exactly when the name has "embolism" or "pe" in it. */
  lemma WellsShown(t: NameTests)
    ensures WellsPanel in SectionsShown(t) <==> t.embolism
  {
  }

  /** NIHSS is shown exactly for a stroke; CHA2DS2-VASc for a stroke or a heart condition. */
  lemma StrokeScoresShown(t: NameTests)
    ensures NihssPanel in SectionsShown(t) <==> t.stroke
    ensures ChadsVascPanel in SectionsShown(t) <==> t.stroke || t.cardiac
  {
  }

  /** A stroke in a heart condition pushes CHA2DS2-VASc a second time onto a list that already has it. */
  lemma ChadsVascListedTwice(t: NameTests)
    requires t.stroke && t.cardiac
    ensures RelevantScoreList(t) == RelevantScoreList(t.(cardiac := false)) + [ChadsVascPanel]
    ensures ChadsVascPanel in RelevantScoreList(t.(cardiac := false))
  {
  }

  /** Any name with "hyper" in it (hypertension, hyperkalemia) is shown the Wells score. */
  lemma HyperShowsWells(name: string)
    requires Contains(name, "hyper")
    ensures WellsPanel in SectionsShown(TestsOf(name))
  {
    HyperContainsPe(name);
    WellsShown(TestsOf(name));
  }

  /** `getRelevantScores`: allergies and GCS always, then one push per matching test. */
  method RelevantScores(condition: Condition) returns (relevant: seq<ScorePanel>)
    ensures relevant == RelevantScoreList(TestsOf(ToLower(condition.name)))
    ensures relevant == SectionsShown(TestsOf(ToLower(condition.name)))
  {
    var conditionName := ToLower(condition.name);
    relevant := [AllergyPanel, GcsPanel];
    if Contains(conditionName, "pneumonia") { relevant := relevant + [Curb65Panel]; }
    if Contains(conditionName, "sepsis") { relevant := relevant + [QsofaPanel, SofaPanel]; }
    if Contains(conditionName, "embolism") || Contains(conditionName, "pe") { relevant := relevant + [WellsPanel]; }
    if Contains(conditionName, "stroke") { relevant := relevant + [NihssPanel, ChadsVascPanel]; }
    if Contains(conditionName, "heart") || Contains(conditionName, "cardiac") { relevant := relevant + [ChadsVascPanel]; }
    PushesBuildSections(TestsOf(conditionName));
  }
}
