/**
 * How SymptomChecker (symptom_checker.py) scores one candidate medicine: the mean effectiveness
 * over the symptoms that resolve, a safety score that starts at 1.0 and loses a penalty per risk,
 * their 60/40 blend scaled by the reported severity, and the warnings that explain the penalties.
 * Python floats are modelled as exact reals.
 */
module Scoring {
  import opened Wrappers
  import opened Seqs
  import opened Records
  import opened MedicineService

  // ---------------------------------------------------------------- effectiveness

  /** The effectiveness of the medicine for each symptom name that resolves, in input order. */
  function ResolvedScores(st: Store, medicineId: int, symptoms: seq<string>): (r: seq<real>)
    ensures |r| <= |symptoms|
    ensures ScoresInUnitRange(st) ==> forall k :: 0 <= k < |r| ==> 0.0 <= r[k] <= 1.0
  {
    if symptoms == [] then []
    else
      var prefix := ResolvedScores(st, medicineId, symptoms[..|symptoms| - 1]);
      match ResolveSymptom(st, symptoms[|symptoms| - 1])
      case None => prefix
      case Some(s) => prefix + [GetMedicineEffectiveness(st, medicineId, s.id)]
  }

  function Sum(xs: seq<real>): real {
    if xs == [] then 0.0 else Sum(xs[..|xs| - 1]) + xs[|xs| - 1]
  }

  /** A sum of scores in [0, 1] lies between 0 and the number of scores. */
  lemma {:induction false} SumBounds(xs: seq<real>)
    ensures (forall k :: 0 <= k < |xs| ==> 0.0 <= xs[k] <= 1.0) ==> 0.0 <= Sum(xs) <= |xs| as real
  {
    if xs != [] && forall k :: 0 <= k < |xs| ==> 0.0 <= xs[k] <= 1.0 {
      var init := xs[..|xs| - 1];
      assert forall k :: 0 <= k < |init| ==> init[k] == xs[k];
      SumBounds(init);
    }
  }

  /**
   * `_get_effectiveness_for_symptoms`: the mean of the resolved symptoms' effectiveness scores,
   * 0.0 when no symptom resolves; a mean of 0-1 scores is a 0-1 score.
   */
  function Effectiveness(st: Store, medicineId: int, symptoms: seq<string>): (r: real)
    ensures ResolvedScores(st, medicineId, symptoms) == [] ==> r == 0.0
    ensures ScoresInUnitRange(st) ==> 0.0 <= r <= 1.0
  {
    var scores := ResolvedScores(st, medicineId, symptoms);
    SumBounds(scores);
    MeanBound(Sum(scores), |scores|);
    Mean(Sum(scores), |scores|)
  }

  /** `total / count if count > 0 else 0.0`. */
  function Mean(total: real, count: nat): real {
    if count > 0 then total / count as real else 0.0
  }

  /** The mean of a total that lies between 0 and the count lies between 0 and 1. */
  lemma MeanBound(total: real, count: nat)
    ensures 0.0 <= total <= count as real ==> 0.0 <= Mean(total, count) <= 1.0
  {
    if count > 0 {
      var n := count as real;
      var q := total / n;
      assert q * n == total;
      assert (q - 1.0) * n == total - n;
    }
  }

  /** With a single resolving symptom the effectiveness is that symptom's stored score. */
  lemma EffectivenessOfOne(st: Store, medicineId: int, name: string, s: Symptom)
    requires ResolveSymptom(st, name) == Some(s)
    ensures Effectiveness(st, medicineId, [name]) == GetMedicineEffectiveness(st, medicineId, s.id)
  {
    ResolvedScoresOfOne(st, medicineId, name, s);
    MeanOfOne(GetMedicineEffectiveness(st, medicineId, s.id));
  }

  lemma ResolvedScoresOfOne(st: Store, medicineId: int, name: string, s: Symptom)
    requires ResolveSymptom(st, name) == Some(s)
    ensures ResolvedScores(st, medicineId, [name]) == [GetMedicineEffectiveness(st, medicineId, s.id)]
  {
    assert [name][..0] == [];
  }

  lemma MeanOfOne(e: real)
    ensures Mean(Sum([e]), 1) == e
  {
    assert [e][..0] == [];
  }

  /** Reading one more symptom name adds that symptom's score to the total and one to the count, if it resolves. */
  lemma ResolvedScoresStep(st: Store, medicineId: int, symptoms: seq<string>, i: nat)
    requires i < |symptoms|
    ensures var s := ResolveSymptom(st, symptoms[i]);
      var before := ResolvedScores(st, medicineId, symptoms[..i]);
      var after := ResolvedScores(st, medicineId, symptoms[..i + 1]);
      && (s.None? ==> after == before)
      && (s.Some? ==> Sum(after) == Sum(before) + GetMedicineEffectiveness(st, medicineId, s.value.id)
                      && |after| == |before| + 1)
  {
    var upTo := symptoms[..i + 1];
    assert upTo[..i] == symptoms[..i] && upTo[i] == symptoms[i];
    var before := ResolvedScores(st, medicineId, symptoms[..i]);
    var after := ResolvedScores(st, medicineId, upTo);
    match ResolveSymptom(st, symptoms[i])
    case None =>
      assert after == before;
    case Some(x) =>
      var e := GetMedicineEffectiveness(st, medicineId, x.id);
      assert after == before + [e];
      assert after[..|before|] == before;
  }

  /** `_get_effectiveness_for_symptoms`: accumulates the total and the count over the symptom names. */
  method EffectivenessForSymptoms(st: Store, medicine: Medicine, symptoms: seq<string>) returns (r: real)
    ensures r == Effectiveness(st, medicine.id, symptoms)
  {
    if symptoms == [] {
      return 0.0;
    }
    var totalScore := 0.0;
    var symptomCount := 0;
    for i := 0 to |symptoms|
      invariant totalScore == Sum(ResolvedScores(st, medicine.id, symptoms[..i]))
      invariant symptomCount == |ResolvedScores(st, medicine.id, symptoms[..i])|
    {
      ResolvedScoresStep(st, medicine.id, symptoms, i);
      var symptom := ResolveSymptom(st, symptoms[i]);
      if symptom.Some? {
        var effectiveness := GetMedicineEffectiveness(st, medicine.id, symptom.value.id);
        totalScore := totalScore + effectiveness;
        symptomCount := symptomCount + 1;
      }
    }
    assert symptoms[..|symptoms|] == symptoms;
    assert Effectiveness(st, medicine.id, symptoms) == Mean(totalScore, symptomCount);
    r := Mean(totalScore, symptomCount);
  }

  // ---------------------------------------------------------------- safety

  /** The deduction for one contraindication, by its severity; other severities deduct nothing. */
  function SeverityPenalty(severity: string): (p: real)
    ensures 0.0 <= p <= 1.0
  {
    if severity == "severe" then 1.0
    else if severity == "moderate" then 0.5
    else if severity == "mild" then 0.2
    else 0.0
  }

  /** The total deduction for the patient's matched contraindications. */
  function ContraPenalty(matched: seq<(PatientCondition, MedicineContraindication)>): (p: real)
    ensures 0.0 <= p <= |matched| as real
  {
    if matched == [] then 0.0
    else ContraPenalty(matched[..|matched| - 1]) + SeverityPenalty(matched[|matched| - 1].1.severity)
  }

  /** The total deduction is at least the deduction of any one matched contraindication. */
  lemma {:induction false} ContraPenaltyAtLeast(matched: seq<(PatientCondition, MedicineContraindication)>, k: nat)
    requires k < |matched|
    ensures ContraPenalty(matched) >= SeverityPenalty(matched[k].1.severity)
  {
    if k < |matched| - 1 {
      var init := matched[..|matched| - 1];
      assert init[k] == matched[k];
      ContraPenaltyAtLeast(init, k);
    }
  }

  /** The deduction of two lists of contraindications together is the sum of their deductions. */
  lemma {:induction false} ContraPenaltyAppend(a: seq<(PatientCondition, MedicineContraindication)>,
                                               b: seq<(PatientCondition, MedicineContraindication)>)
    ensures ContraPenalty(a + b) == ContraPenalty(a) + ContraPenalty(b)
  {
    if b == [] {
      assert a + b == a;
    } else {
      var init := b[..|b| - 1];
      assert (a + b)[..|a + b| - 1] == a + init;
      ContraPenaltyAppend(a, init);
    }
  }

  /** Reading one more condition name deducts by the severity of that condition's first edge, if any. */
  lemma ContraPenaltyStep(st: Store, medicineId: int, conditions: seq<string>, i: nat)
    requires i < |conditions|
    ensures var c := ResolveCondition(st, conditions[i]);
      ContraPenalty(MatchedContraindications(st, medicineId, conditions[..i + 1]))
      == ContraPenalty(MatchedContraindications(st, medicineId, conditions[..i]))
        + if c.Some? && FindContraindication(st, medicineId, c.value.id).Some? then
            SeverityPenalty(FindContraindication(st, medicineId, c.value.id).value.severity)
          else 0.0
  {
    MatchedStep(st, medicineId, conditions, i);
    var before := MatchedContraindications(st, medicineId, conditions[..i]);
    var after := MatchedContraindications(st, medicineId, conditions[..i + 1]);
    if |after| > |before| {
      assert after[..|after| - 1] == before;
    } else {
      assert after == before;
    }
  }

  /** Python's truthiness of an optional age: None and 0 both count as "no age given". */
  predicate AgeGiven(age: Option<int>) {
    age.Some? && age.value != 0
  }

  /** Python's truthiness of a nullable text column: None and "" both count as "no guidance". */
  predicate HasGuidance(field: Option<string>) {
    field.Some? && field.value != ""
  }

  /** The age deduction: 0.3 for a child under 12 without paediatric guidance, 0.2 for a patient over 65 without geriatric guidance. */
  function AgePenalty(m: Medicine, age: Option<int>): (p: real)
    ensures p == 0.0 || p == 0.2 || p == 0.3
    ensures p > 0.0 ==> AgeGiven(age)
  {
    if !AgeGiven(age) then 0.0
    else if age.value < 12 then (if HasGuidance(m.pediatricUse) then 0.0 else 0.3)
    else if age.value > 65 then (if HasGuidance(m.geriatricUse) then 0.0 else 0.2)
    else 0.0
  }

  /** The pregnancy deduction: 0.8 for category X, 0.5 for D, 0.2 for C, nothing otherwise. */
  function PregnancyPenalty(category: Option<string>): (p: real)
    ensures 0.0 <= p <= 0.8
    ensures p > 0.0 ==> category.Some?
  {
    if category == Some("X") then 0.8
    else if category == Some("D") then 0.5
    else if category == Some("C") then 0.2
    else 0.0
  }

  /** Everything `_calculate_safety_score` deducts from the perfect score of 1.0. */
  function SafetyPenalty(st: Store, m: Medicine, conditions: seq<string>, age: Option<int>): (p: real)
    ensures p >= 0.0
  {
    ContraPenalty(MatchedContraindications(st, m.id, conditions)) + AgePenalty(m, age) + PregnancyPenalty(m.pregnancyCategory)
  }

  /**
   * `_calculate_safety_score` (with the contraindication query it evidently intends): 1.0 less the
   * deductions, floored at 0. It is 1.0 exactly when nothing is deducted and 0 exactly when the
   * deductions reach 1.0.
   */
  function Safety(st: Store, m: Medicine, conditions: seq<string>, age: Option<int>): (r: real)
    ensures 0.0 <= r <= 1.0
    ensures r == 1.0 <==> SafetyPenalty(st, m, conditions, age) == 0.0
    ensures r == 0.0 <==> SafetyPenalty(st, m, conditions, age) >= 1.0
  {
    var s := 1.0 - SafetyPenalty(st, m, conditions, age);
    if s < 0.0 then 0.0 else s
  }

  /** A matched contraindication of severity "severe" makes the medicine completely unsafe. */
  lemma SevereContraindicationIsUnsafe(st: Store, m: Medicine, conditions: seq<string>, age: Option<int>, k: nat)
    requires k < |MatchedContraindications(st, m.id, conditions)|
    requires MatchedContraindications(st, m.id, conditions)[k].1.severity == "severe"
    ensures Safety(st, m, conditions, age) == 0.0
  {
    ContraPenaltyAtLeast(MatchedContraindications(st, m.id, conditions), k);
  }

  /** Reporting more conditions never makes a medicine look safer. */
  lemma SafetyAntitone(st: Store, m: Medicine, a: seq<string>, b: seq<string>, age: Option<int>)
    ensures Safety(st, m, a + b, age) <= Safety(st, m, a, age)
  {
    MatchedAppend(st, m.id, a, b);
    ContraPenaltyAppend(MatchedContraindications(st, m.id, a), MatchedContraindications(st, m.id, b));
  }

  /**
   * `_calculate_safety_score`: walks the patient's conditions deducting by severity for each one
   * contraindicated, then applies the age and pregnancy deductions and the floor at 0.
   */
  method CalculateSafetyScore(st: Store, medicine: Medicine, conditions: seq<string>, age: Option<int>)
    returns (r: real)
    ensures r == Safety(st, medicine, conditions, age)
  {
    var safetyScore := 1.0;
    for i := 0 to |conditions|
      invariant safetyScore == 1.0 - ContraPenalty(MatchedContraindications(st, medicine.id, conditions[..i]))
    {
      ContraPenaltyStep(st, medicine.id, conditions, i);
      var condition := ResolveCondition(st, conditions[i]);
      if condition.Some? && IsMedicineContraindicated(st, medicine.id, condition.value.id) {
        var contraindication := FindContraindication(st, medicine.id, condition.value.id);
        if contraindication.Some? {
          if contraindication.value.severity == "severe" {
            safetyScore := safetyScore - 1.0;
          } else if contraindication.value.severity == "moderate" {
            safetyScore := safetyScore - 0.5;
          } else if contraindication.value.severity == "mild" {
            safetyScore := safetyScore - 0.2;
          }
        }
      }
    }
    assert conditions[..|conditions|] == conditions;
    if age.Some? && age.value != 0 {
      if age.value < 12 {
        if !(medicine.pediatricUse.Some? && medicine.pediatricUse.value != "") {
          safetyScore := safetyScore - 0.3;
        }
      } else if age.value > 65 {
        if !(medicine.geriatricUse.Some? && medicine.geriatricUse.value != "") {
          safetyScore := safetyScore - 0.2;
        }
      }
    }
    if medicine.pregnancyCategory == Some("X") {
      safetyScore := safetyScore - 0.8;
    } else if medicine.pregnancyCategory == Some("D") {
      safetyScore := safetyScore - 0.5;
    } else if medicine.pregnancyCategory == Some("C") {
      safetyScore := safetyScore - 0.2;
    }
    r := if safetyScore < 0.0 then 0.0 else safetyScore;
  }

  // ---------------------------------------------------------------- overall score

  /** The severity adjustment: 0.8 for "mild", 1.2 for "severe", unchanged otherwise. */
  function Multiplier(severity: string): (f: real)
    ensures 0.8 <= f <= 1.2
  {
    if severity == "mild" then 0.8 else if severity == "severe" then 1.2 else 1.0
  }

  /**
   * `_calculate_medicine_score`: 60% effectiveness plus 40% safety, scaled by the severity
   * adjustment and floored at 0; with 0-1 effectiveness scores it never exceeds the adjustment.
   */
  function MedicineScore(st: Store, m: Medicine, symptoms: seq<string>, conditions: seq<string>,
                         age: Option<int>, severity: string): (r: real)
    ensures r >= 0.0
    ensures ScoresInUnitRange(st) ==> r <= Multiplier(severity)
    ensures ScoresInUnitRange(st) ==> r >= 0.4 * Safety(st, m, conditions, age) * Multiplier(severity)
  {
    var base := Effectiveness(st, m.id, symptoms) * 0.6 + Safety(st, m, conditions, age) * 0.4;
    var s := base * Multiplier(severity);
    assert base <= 1.0 ==> s <= Multiplier(severity);
    if s < 0.0 then 0.0 else s
  }

  /** For a medicine the patient may safely take, the score is positive, so it is never dropped. */
  lemma SafeMedicineScoresPositive(st: Store, m: Medicine, symptoms: seq<string>, conditions: seq<string>,
                                   age: Option<int>, severity: string)
    requires ScoresInUnitRange(st)
    requires Safety(st, m, conditions, age) > 0.0
    ensures MedicineScore(st, m, symptoms, conditions, age, severity) > 0.0
  {
    var safety := Safety(st, m, conditions, age);
    var f := Multiplier(severity);
    assert 0.4 * safety * f > 0.0;
  }

  /** A "severe" report never ranks a medicine lower than "moderate", nor "moderate" lower than "mild". */
  lemma SeverityMonotone(st: Store, m: Medicine, symptoms: seq<string>, conditions: seq<string>, age: Option<int>)
    ensures MedicineScore(st, m, symptoms, conditions, age, "mild") <= MedicineScore(st, m, symptoms, conditions, age, "moderate")
    ensures MedicineScore(st, m, symptoms, conditions, age, "moderate") <= MedicineScore(st, m, symptoms, conditions, age, "severe")
  {
    var base := Effectiveness(st, m.id, symptoms) * 0.6 + Safety(st, m, conditions, age) * 0.4;
    if base >= 0.0 {
      assert base * 0.8 <= base * 1.0 <= base * 1.2;
    }
  }

  /**
   * `_calculate_medicine_score`: accumulates the weighted effectiveness and safety, then adjusts
   * for severity. The gender argument is accepted and not used.
   */
  method CalculateMedicineScore(st: Store, medicine: Medicine, symptoms: seq<string>, conditions: seq<string>,
                                age: Option<int>, gender: Option<string>, severity: string) returns (r: real)
    ensures r == MedicineScore(st, medicine, symptoms, conditions, age, severity)
  {
    var score := 0.0;
    var effectiveness := EffectivenessForSymptoms(st, medicine, symptoms);
    score := score + effectiveness * 0.6;
    var safetyScore := CalculateSafetyScore(st, medicine, conditions, age);
    score := score + safetyScore * 0.4;
    if severity == "mild" {
      score := score * 0.8;
    } else if severity == "severe" {
      score := score * 1.2;
    }
    r := if score < 0.0 then 0.0 else score;
  }

  // ---------------------------------------------------------------- warnings

  /** The pregnancy warning for categories X, D and C. */
  function PregnancyWarnings(category: Option<string>): (w: seq<string>)
    ensures |w| <= 1
    ensures w != [] <==> PregnancyPenalty(category) > 0.0
  {
    if category == Some("X") then ["DO NOT USE during pregnancy - may cause birth defects"]
    else if category == Some("D") then ["Avoid during pregnancy - may cause harm to fetus"]
    else if category == Some("C") then ["Use with caution during pregnancy - consult doctor"]
    else []
  }

  /** The age warning, given exactly when an age deduction applies. */
  function AgeWarnings(m: Medicine, age: Option<int>): (w: seq<string>)
    ensures |w| <= 1
    ensures w != [] <==> AgePenalty(m, age) > 0.0
  {
    if AgeGiven(age) && age.value < 12 then
      (if HasGuidance(m.pediatricUse) then [] else ["Not recommended for children under 12"])
    else if AgeGiven(age) && age.value > 65 then
      (if HasGuidance(m.geriatricUse) then [] else ["Use with caution in elderly patients"])
    else []
  }

  /** Python's f-string rendering of a nullable notes column. */
  function NotesText(notes: Option<string>): string {
    match notes
    case Some(s) => s
    case None => "None"
  }

  function ContraWarning(c: PatientCondition, x: MedicineContraindication): string {
    "Contraindicated for " + c.name + ": " + NotesText(x.notes)
  }

  /** One "Contraindicated for ..." warning per matched contraindication, in the same order. */
  function ContraWarnings(matched: seq<(PatientCondition, MedicineContraindication)>): (w: seq<string>)
    ensures |w| == |matched|
    ensures forall k :: 0 <= k < |w| ==> w[k] == ContraWarning(matched[k].0, matched[k].1)
  {
    if matched == [] then []
    else
      var init := matched[..|matched| - 1];
      assert forall k :: 0 <= k < |init| ==> init[k] == matched[k];
      ContraWarnings(init) + [ContraWarning(matched[|matched| - 1].0, matched[|matched| - 1].1)]
  }

  /** Reading one more condition name adds at most one warning, for that condition's first edge. */
  lemma ContraWarningsStep(st: Store, medicineId: int, conditions: seq<string>, i: nat)
    requires i < |conditions|
    ensures var c := ResolveCondition(st, conditions[i]);
      ContraWarnings(MatchedContraindications(st, medicineId, conditions[..i + 1]))
      == ContraWarnings(MatchedContraindications(st, medicineId, conditions[..i]))
        + if c.Some? && FindContraindication(st, medicineId, c.value.id).Some? then
            [ContraWarning(c.value, FindContraindication(st, medicineId, c.value.id).value)]
          else []
  {
    MatchedStep(st, medicineId, conditions, i);
    var before := MatchedContraindications(st, medicineId, conditions[..i]);
    var after := MatchedContraindications(st, medicineId, conditions[..i + 1]);
    if |after| > |before| {
      assert after[..|before|] == before;
      assert ContraWarnings(after)[..|before|] == ContraWarnings(before);
    } else {
      assert after == before;
    }
  }

  /** The warnings list after one more condition name, as the loop of `_get_safety_warnings` builds it. */
  lemma WarningsLoopStep(st: Store, medicineId: int, conditions: seq<string>, i: nat, head: seq<string>, warnings: seq<string>)
    requires i < |conditions|
    requires warnings == head + ContraWarnings(MatchedContraindications(st, medicineId, conditions[..i]))
    ensures var c := ResolveCondition(st, conditions[i]);
      if c.Some? && IsMedicineContraindicated(st, medicineId, c.value.id) then
        warnings + [ContraWarning(c.value, FindContraindication(st, medicineId, c.value.id).value)]
          == head + ContraWarnings(MatchedContraindications(st, medicineId, conditions[..i + 1]))
      else
        warnings == head + ContraWarnings(MatchedContraindications(st, medicineId, conditions[..i + 1]))
  {
    ContraWarningsStep(st, medicineId, conditions, i);
    var c := ResolveCondition(st, conditions[i]);
    var cw := ContraWarnings(MatchedContraindications(st, medicineId, conditions[..i]));
    if c.Some? && IsMedicineContraindicated(st, medicineId, c.value.id) {
      var w := ContraWarning(c.value, FindContraindication(st, medicineId, c.value.id).value);
      assert head + (cw + [w]) == (head + cw) + [w];
    } else {
      assert cw + [] == cw;
    }
  }


  /** `_get_safety_warnings` (with the contraindication query it evidently intends). */
  function MedicineWarnings(st: Store, m: Medicine, conditions: seq<string>, age: Option<int>): seq<string> {
    PregnancyWarnings(m.pregnancyCategory) + AgeWarnings(m, age)
      + ContraWarnings(MatchedContraindications(st, m.id, conditions))
  }

  /** Every deduction from the safety score is explained by at least one warning. */
  lemma WarningsExplainSafety(st: Store, m: Medicine, conditions: seq<string>, age: Option<int>)
    ensures Safety(st, m, conditions, age) < 1.0 ==> MedicineWarnings(st, m, conditions, age) != []
    ensures |MedicineWarnings(st, m, conditions, age)| <= 2 + |conditions|
  {
    var matched := MatchedContraindications(st, m.id, conditions);
    if Safety(st, m, conditions, age) < 1.0 && PregnancyPenalty(m.pregnancyCategory) == 0.0
       && AgePenalty(m, age) == 0.0 {
      assert matched != [];
    }
  }

  /**
   * `_get_safety_warnings`: the pregnancy and age warnings, then one warning per patient condition
   * that resolves and is contraindicated.
   */
  method GetMedicineSafetyWarnings(st: Store, medicine: Medicine, conditions: seq<string>, age: Option<int>)
    returns (warnings: seq<string>)
    ensures warnings == MedicineWarnings(st, medicine, conditions, age)
  {
    // the pregnancy warning, then the age warning
    warnings := PregnancyWarnings(medicine.pregnancyCategory) + AgeWarnings(medicine, age);
    ghost var head := warnings;
    // then one warning per reported condition that is contraindicated
    for i := 0 to |conditions|
      invariant warnings == head + ContraWarnings(MatchedContraindications(st, medicine.id, conditions[..i]))
    {
      WarningsLoopStep(st, medicine.id, conditions, i, head, warnings);
      var condition := ResolveCondition(st, conditions[i]);
      if condition.Some? && IsMedicineContraindicated(st, medicine.id, condition.value.id) {
        var contraindication := FindContraindication(st, medicine.id, condition.value.id);
        if contraindication.Some? {
          warnings := warnings + [ContraWarning(condition.value, contraindication.value)];
        }
      }
    }
    assert conditions[..|conditions|] == conditions;
  }

  // ---------------------------------------------------------------- the code as written

  /** The exception Python raises. */
  datatype Raised = NameError(name: string)

  /**
   * Whether the condition loop of `_calculate_safety_score` / `_get_safety_warnings` reaches the
   * `and_(...)` call: some condition resolves and is contraindicated for the medicine.
   */
  function ReachesAnd(st: Store, medicineId: int, conditions: seq<string>): bool {
    if conditions == [] then false
    else
      ReachesAnd(st, medicineId, conditions[..|conditions| - 1])
      || match ResolveCondition(st, conditions[|conditions| - 1])
         case None => false
         case Some(c) => IsMedicineContraindicated(st, medicineId, c.id)
  }

  /**
   * `_calculate_safety_score` as written: `and_` is never imported, so reaching it raises
   * NameError; it fails exactly when some reported condition is contraindicated, and otherwise
   * agrees with `Safety`.
   */
  function SafetyAsWritten(st: Store, m: Medicine, conditions: seq<string>, age: Option<int>): (r: Result<real, Raised>)
    ensures r.Err? <==> MatchedContraindications(st, m.id, conditions) != []
    ensures r.Ok? ==> r.value == Safety(st, m, conditions, age)
  {
    ReachesAndIffMatched(st, m.id, conditions);
    if ReachesAnd(st, m.id, conditions) then Err(NameError("and_")) else Ok(Safety(st, m, conditions, age))
  }

  /** `_get_safety_warnings` as written: raises NameError under the same condition. */
  function WarningsAsWritten(st: Store, m: Medicine, conditions: seq<string>, age: Option<int>): (r: Result<seq<string>, Raised>)
    ensures r.Err? <==> MatchedContraindications(st, m.id, conditions) != []
    ensures r.Ok? ==> r.value == PregnancyWarnings(m.pregnancyCategory) + AgeWarnings(m, age)
  {
    ReachesAndIffMatched(st, m.id, conditions);
    if ReachesAnd(st, m.id, conditions) then Err(NameError("and_")) else Ok(MedicineWarnings(st, m, conditions, age))
  }

  /** The `and_` call is reached exactly when the corrected code finds a contraindication to report. */
  lemma {:induction false} ReachesAndIffMatched(st: Store, medicineId: int, conditions: seq<string>)
    ensures ReachesAnd(st, medicineId, conditions) <==> MatchedContraindications(st, medicineId, conditions) != []
  {
    if conditions != [] {
      ReachesAndIffMatched(st, medicineId, conditions[..|conditions| - 1]);
    }
  }
}
