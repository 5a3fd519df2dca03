/**
 * `get_recommendations` and `get_safety_warnings` of SymptomChecker (symptom_checker.py): score
 * every candidate medicine, keep those with a positive score, sort them by score, highest first
 * (a stable sort, like Python's `list.sort(reverse=True)`), and return the first ten.
 */
module Ranking {
  import opened Wrappers
  import opened Seqs
  import opened Records
  import opened MedicineService
  import opened Scoring
  import opened Sorting

  /** One element of the list `get_recommendations` returns. */
  datatype Recommendation = Recommendation(
    medicine: MedicineView, score: real, effectiveness: real, safetyWarnings: seq<string>)

  /** The recommendation built for one candidate medicine. */
  function Entry(st: Store, m: Medicine, symptoms: seq<string>, conditions: seq<string>,
                 age: Option<int>, severity: string): Recommendation {
    Recommendation(MedicineToDict(m), MedicineScore(st, m, symptoms, conditions, age, severity),
                   Effectiveness(st, m.id, symptoms), MedicineWarnings(st, m, conditions, age))
  }

  /** The recommendations for the candidates with a positive score, in candidate order. */
  function ScoredCandidates(st: Store, medicines: seq<Medicine>, symptoms: seq<string>, conditions: seq<string>,
                            age: Option<int>, severity: string): (r: seq<Recommendation>)
    ensures |r| <= |medicines|
    ensures forall k :: 0 <= k < |r| ==> r[k].score > 0.0
  {
    if medicines == [] then []
    else
      var init := medicines[..|medicines| - 1];
      var e := Entry(st, medicines[|medicines| - 1], symptoms, conditions, age, severity);
      var prefix := ScoredCandidates(st, init, symptoms, conditions, age, severity);
      if e.score > 0.0 then prefix + [e] else prefix
  }

  /** Every candidate with a positive score has its recommendation among the scored ones. */
  lemma {:induction false} ScoredCandidatesComplete(st: Store, medicines: seq<Medicine>, symptoms: seq<string>,
                                                    conditions: seq<string>, age: Option<int>, severity: string, m: Medicine)
    requires m in medicines
    requires MedicineScore(st, m, symptoms, conditions, age, severity) > 0.0
    ensures Entry(st, m, symptoms, conditions, age, severity) in ScoredCandidates(st, medicines, symptoms, conditions, age, severity)
  {
    var init := medicines[..|medicines| - 1];
    if m != medicines[|medicines| - 1] {
      assert medicines == init + [medicines[|medicines| - 1]];
      ScoredCandidatesComplete(st, init, symptoms, conditions, age, severity, m);
    }
  }

  /** Every scored recommendation is the recommendation of one of the candidates. */
  lemma {:induction false} ScoredCandidatesSound(st: Store, medicines: seq<Medicine>, symptoms: seq<string>,
                                                 conditions: seq<string>, age: Option<int>, severity: string,
                                                 x: Recommendation)
    requires x in ScoredCandidates(st, medicines, symptoms, conditions, age, severity)
    ensures exists k :: 0 <= k < |medicines| && x == Entry(st, medicines[k], symptoms, conditions, age, severity)
  {
    var n := |medicines| - 1;
    var init := medicines[..n];
    if x != Entry(st, medicines[n], symptoms, conditions, age, severity) {
      ScoredCandidatesSound(st, init, symptoms, conditions, age, severity, x);
      var k :| 0 <= k < |init| && x == Entry(st, init[k], symptoms, conditions, age, severity);
      assert init[k] == medicines[k];
    }
  }

  /** One more candidate: its recommendation is appended exactly when it scores positively. */
  lemma ScoredCandidatesStep(st: Store, medicines: seq<Medicine>, symptoms: seq<string>, conditions: seq<string>,
                             age: Option<int>, severity: string, i: nat)
    requires i < |medicines|
    ensures var e := Entry(st, medicines[i], symptoms, conditions, age, severity);
      var before := ScoredCandidates(st, medicines[..i], symptoms, conditions, age, severity);
      ScoredCandidates(st, medicines[..i + 1], symptoms, conditions, age, severity)
        == if e.score > 0.0 then before + [e] else before
  {
    assert medicines[..i + 1][..i] == medicines[..i];
  }

  /** The sort key: `lambda x: x['score']`. */
  function ScoreOf(x: Recommendation): real {
    x.score
  }

  /** The positively scored candidates of `search_medicines_by_symptoms`, highest score first. */
  function Ranked(st: Store, symptoms: seq<string>, conditions: seq<string>, age: Option<int>, severity: string)
    : seq<Recommendation>
  {
    SortByKey(ScoredCandidates(st, SearchMedicinesBySymptoms(st, symptoms), symptoms, conditions, age, severity), ScoreOf)
  }

  /**
   * `get_recommendations(symptoms, conditions, age, gender, severity)` with the contraindication
   * query it evidently intends: nothing for no symptoms, otherwise the first ten of the ranking.
   */
  function Recommendations(st: Store, symptoms: seq<string>, conditions: seq<string>,
                           age: Option<int>, severity: string): (r: seq<Recommendation>)
    ensures |r| <= 10
    ensures symptoms == [] ==> r == []
  {
    if symptoms == [] then [] else Top(Ranked(st, symptoms, conditions, age, severity), 10)
  }

  /** The recommendations come highest score first. */
  lemma RecommendationsSorted(st: Store, symptoms: seq<string>, conditions: seq<string>, age: Option<int>, severity: string)
    ensures SortedDesc(Recommendations(st, symptoms, conditions, age, severity), ScoreOf)
  {
    if symptoms != [] {
      TopSorted(ScoredCandidates(st, SearchMedicinesBySymptoms(st, symptoms), symptoms, conditions, age, severity), ScoreOf, 10);
    }
  }

  /**
   * Every recommendation scores positively and is the recommendation of a medicine that treats a
   * named symptom.
   */
  lemma RecommendationsSound(st: Store, symptoms: seq<string>, conditions: seq<string>, age: Option<int>,
                             severity: string, x: Recommendation)
    requires x in Recommendations(st, symptoms, conditions, age, severity)
    ensures x.score > 0.0
    ensures exists m ::
              m in st.medicines && TreatsNamedSymptom(st, m.id, symptoms)
              && x == Entry(st, m, symptoms, conditions, age, severity)
  {
    var candidates := SearchMedicinesBySymptoms(st, symptoms);
    var scored := ScoredCandidates(st, candidates, symptoms, conditions, age, severity);
    TopFromInput(scored, ScoreOf, 10, x);
    ScoredCandidatesSound(st, candidates, symptoms, conditions, age, severity, x);
    var k :| 0 <= k < |candidates| && x == Entry(st, candidates[k], symptoms, conditions, age, severity);
    assert candidates[k] in candidates;
  }

  /**
   * No medicine that treats a named symptom and scores positively is left out, unless ten
   * recommendations all score at least as much.
   */
  lemma RecommendationsComplete(st: Store, symptoms: seq<string>, conditions: seq<string>, age: Option<int>,
                                severity: string, m: Medicine)
    requires symptoms != []
    requires m in st.medicines && TreatsNamedSymptom(st, m.id, symptoms)
    requires MedicineScore(st, m, symptoms, conditions, age, severity) > 0.0
    ensures var r := Recommendations(st, symptoms, conditions, age, severity);
      || Entry(st, m, symptoms, conditions, age, severity) in r
      || (|r| == 10 && forall k :: 0 <= k < 10 ==> r[k].score >= MedicineScore(st, m, symptoms, conditions, age, severity))
  {
    var candidates := SearchMedicinesBySymptoms(st, symptoms);
    var scored := ScoredCandidates(st, candidates, symptoms, conditions, age, severity);
    var x := Entry(st, m, symptoms, conditions, age, severity);
    ScoredCandidatesComplete(st, candidates, symptoms, conditions, age, severity, m);
    TopOutranks(scored, ScoreOf, 10, x);
  }

  /** Recommendations with equal scores keep the storage order of their medicines. */
  lemma RankedTiesKeepOrder(st: Store, symptoms: seq<string>, conditions: seq<string>, age: Option<int>,
                            severity: string, v: real)
    ensures var scored := ScoredCandidates(st, SearchMedicinesBySymptoms(st, symptoms), symptoms, conditions, age, severity);
      Filter(Ranked(st, symptoms, conditions, age, severity), KeyIs(ScoreOf, v)) == Filter(scored, KeyIs(ScoreOf, v))
  {
    var scored := ScoredCandidates(st, SearchMedicinesBySymptoms(st, symptoms), symptoms, conditions, age, severity);
    SortByKeyStable(scored, ScoreOf, v);
  }

  /**
   * The scoring loop of `get_recommendations`: in candidate order, each medicine with a positive
   * score gets its recommendation, built from the score, the effectiveness and the warnings.
   */
  method ScoreCandidates(st: Store, medicines: seq<Medicine>, symptoms: seq<string>, conditions: seq<string>,
                         age: Option<int>, gender: Option<string>, severity: string)
    returns (scoredMedicines: seq<Recommendation>)
    ensures scoredMedicines == ScoredCandidates(st, medicines, symptoms, conditions, age, severity)
  {
    scoredMedicines := [];
    for i := 0 to |medicines|
      invariant scoredMedicines == ScoredCandidates(st, medicines[..i], symptoms, conditions, age, severity)
    {
      ScoredCandidatesStep(st, medicines, symptoms, conditions, age, severity, i);
      var medicine := medicines[i];
      var score := CalculateMedicineScore(st, medicine, symptoms, conditions, age, gender, severity);
      if score > 0.0 {
        var effectiveness := EffectivenessForSymptoms(st, medicine, symptoms);
        var safetyWarnings := GetMedicineSafetyWarnings(st, medicine, conditions, age);
        scoredMedicines := scoredMedicines + [Recommendation(MedicineToDict(medicine), score, effectiveness, safetyWarnings)];
      }
    }
    assert medicines[..|medicines|] == medicines;
  }

  /**
   * `get_recommendations`: scores the candidates, sorts the positively scored ones in place by
   * score and returns the first ten. `gender` is accepted and not used.
   */
  method GetRecommendations(st: Store, symptoms: seq<string>, conditions: seq<string>, age: Option<int>,
                            gender: Option<string>, severity: string) returns (r: seq<Recommendation>)
    ensures r == Recommendations(st, symptoms, conditions, age, severity)
  {
    if symptoms == [] {
      return [];
    }
    var medicines := SearchMedicinesBySymptoms(st, symptoms);
    if medicines == [] {
      return [];
    }
    var scoredMedicines := ScoreCandidates(st, medicines, symptoms, conditions, age, gender, severity);
    r := SortAndKeepTen(scoredMedicines);
  }

  /** The tail of `get_recommendations`: sorts the list in place by score, highest first, and keeps ten. */
  method SortAndKeepTen(scoredMedicines: seq<Recommendation>) returns (r: seq<Recommendation>)
    ensures r == Top(SortByKey(scoredMedicines, ScoreOf), 10)
  {
    var a := new Recommendation[|scoredMedicines|](k requires 0 <= k < |scoredMedicines| => scoredMedicines[k]);
    assert a[..] == scoredMedicines;
    SortByKeyInPlace(a, ScoreOf);
    r := Top(a[..], 10);
  }

  // ---------------------------------------------------------------- get_safety_warnings

  const PregnancyAdvice := "\U{26A0}\U{FE0F} You are pregnant. Consult your doctor before taking any medication."
  const LiverAdvice := "\U{26A0}\U{FE0F} You have liver disease. Some medications may be harmful."
  const KidneyAdvice := "\U{26A0}\U{FE0F} You have kidney disease. Some medications may be harmful."
  const MinorAdvice := "\U{26A0}\U{FE0F} You are under 18. Consult a pediatrician before taking any medication."
  const ElderAdvice := "\U{26A0}\U{FE0F} You are over 65. Some medications may affect you differently."

  /** Every advisory, in the order the warnings list them. */
  const Advisories := [PregnancyAdvice, LiverAdvice, KidneyAdvice, MinorAdvice, ElderAdvice]

  /** The position of an advisory in that order (5 for any other text). */
  function AdvisoryRank(warning: string): (k: nat)
    ensures k < |Advisories| ==> Advisories[k] == warning
    ensures warning in Advisories ==> k < |Advisories|
  {
    if warning == PregnancyAdvice then 0
    else if warning == LiverAdvice then 1
    else if warning == KidneyAdvice then 2
    else if warning == MinorAdvice then 3
    else if warning == ElderAdvice then 4
    else 5
  }

  /** The five advisories are distinct texts, each at its own rank. */
  lemma AdvisoriesDistinct()
    ensures forall k :: 0 <= k < |Advisories| ==> AdvisoryRank(Advisories[k]) == k
    ensures forall i, j :: 0 <= i < j < |Advisories| ==> Advisories[i] != Advisories[j]
  {
    assert |PregnancyAdvice| == 70 && |LiverAdvice| == 59 && |KidneyAdvice| == 60;
    assert |MinorAdvice| == 73 && |ElderAdvice| == 64;
  }

  /** `[warning]` when `condition` holds, else nothing: one `if ...: warnings.append(...)`. */
  function When(condition: bool, warning: string): (r: seq<string>)
    ensures r == [] || r == [warning]
    ensures warning in r <==> condition
  {
    if condition then [warning] else []
  }

  /** Advisories only, each ranked in `[lo, hi)`, in strictly increasing rank. */
  predicate RankedWithin(warnings: seq<string>, lo: nat, hi: nat) {
    && (forall k :: 0 <= k < |warnings| ==> warnings[k] in Advisories && lo <= AdvisoryRank(warnings[k]) < hi)
    && (forall i, j :: 0 <= i < j < |warnings| ==> AdvisoryRank(warnings[i]) < AdvisoryRank(warnings[j]))
  }

  /** At most one advisory, of rank `k`. */
  lemma OptionalRanked(warnings: seq<string>, k: nat)
    requires k < |Advisories|
    requires warnings == [] || warnings == [Advisories[k]]
    ensures RankedWithin(warnings, k, k + 1)
  {
    AdvisoriesDistinct();
  }

  /** One optional advisory of each rank, in rank order, make a ranked run. */
  lemma FiveRanked(pregnancy: seq<string>, liver: seq<string>, kidney: seq<string>, minor: seq<string>,
                   elder: seq<string>)
    requires pregnancy == [] || pregnancy == [Advisories[0]]
    requires liver == [] || liver == [Advisories[1]]
    requires kidney == [] || kidney == [Advisories[2]]
    requires minor == [] || minor == [Advisories[3]]
    requires elder == [] || elder == [Advisories[4]]
    ensures RankedWithin(pregnancy + liver + kidney + minor + elder, 0, |Advisories|)
  {
    OptionalRanked(pregnancy, 0);
    OptionalRanked(liver, 1);
    OptionalRanked(kidney, 2);
    OptionalRanked(minor, 3);
    OptionalRanked(elder, 4);
    RankedConcat(pregnancy, liver, 0, 1, 2);
    RankedConcat(pregnancy + liver, kidney, 0, 2, 3);
    RankedConcat(pregnancy + liver + kidney, minor, 0, 3, 4);
    RankedConcat(pregnancy + liver + kidney + minor, elder, 0, 4, 5);
  }

  /** Ranked runs over adjacent ranges concatenate to a ranked run. */
  lemma RankedConcat(a: seq<string>, b: seq<string>, lo: nat, mid: nat, hi: nat)
    requires lo <= mid <= hi
    requires RankedWithin(a, lo, mid) && RankedWithin(b, mid, hi)
    ensures RankedWithin(a + b, lo, hi)
  {
    forall k | 0 <= k < |a + b|
      ensures (a + b)[k] in Advisories && lo <= AdvisoryRank((a + b)[k]) < hi
    {
      if k >= |a| {
        assert (a + b)[k] == b[k - |a|];
      }
    }
    forall i, j | 0 <= i < j < |a + b|
      ensures AdvisoryRank((a + b)[i]) < AdvisoryRank((a + b)[j])
    {
      if j < |a| {
      } else if i < |a| {
        assert AdvisoryRank(a[i]) < mid <= AdvisoryRank(b[j - |a|]);
      } else {
        assert AdvisoryRank(b[i - |a|]) < AdvisoryRank(b[j - |a|]);
      }
    }
  }

  /**
   * `get_safety_warnings(recommendations, conditions, age)`: advisories for the exact condition
   * names "Pregnancy", "Liver Disease" and "Kidney Disease" and for ages under 18 or over 65, in
   * that order. The recommendations are not consulted.
   */
  function GetSafetyWarnings(recommendations: seq<Recommendation>, conditions: seq<string>, age: Option<int>)
    : (r: seq<string>)
    ensures |r| <= 4
    ensures PregnancyAdvice in r <==> "Pregnancy" in conditions
    ensures LiverAdvice in r <==> "Liver Disease" in conditions
    ensures KidneyAdvice in r <==> "Kidney Disease" in conditions
    ensures MinorAdvice in r <==> AgeGiven(age) && age.value < 18
    ensures ElderAdvice in r <==> AgeGiven(age) && age.value > 65
  {
    AdvisoriesDistinct();
    When("Pregnancy" in conditions, PregnancyAdvice)
    + When("Liver Disease" in conditions, LiverAdvice)
    + When("Kidney Disease" in conditions, KidneyAdvice)
    + When(AgeGiven(age) && age.value < 18, MinorAdvice)
    + When(AgeGiven(age) && age.value > 65, ElderAdvice)
  }

  /** The warnings are advisories only, in the fixed order pregnancy, liver, kidney, under 18, over 65. */
  lemma SafetyWarningsOrdered(recommendations: seq<Recommendation>, conditions: seq<string>, age: Option<int>)
    ensures RankedWithin(GetSafetyWarnings(recommendations, conditions, age), 0, |Advisories|)
  {
    var pregnancy := When("Pregnancy" in conditions, PregnancyAdvice);
    var liver := When("Liver Disease" in conditions, LiverAdvice);
    var kidney := When("Kidney Disease" in conditions, KidneyAdvice);
    var minor := When(AgeGiven(age) && age.value < 18, MinorAdvice);
    var elder := When(AgeGiven(age) && age.value > 65, ElderAdvice);
    AdvisoriesDistinct();
    FiveRanked(pregnancy, liver, kidney, minor, elder);
    assert GetSafetyWarnings(recommendations, conditions, age) == pregnancy + liver + kidney + minor + elder;
  }
}
