/**
 * What SymptomChecker (symptom_checker.py) reads out of a free-text chat message: the stored
 * symptoms it mentions, the patient's age, a gender cue and the stored conditions it names.
 * All matching is on the lower-cased message.
 */
module TextExtraction {
  import opened Wrappers
  import opened Seqs
  import opened Text
  import opened Records
  import opened MedicineService

  // ---------------------------------------------------------------- symptoms

  /** Some word of `words` longer than three characters occurs in `text`. */
  predicate SomeLongWordIn(words: seq<string>, text: string) {
    exists k | 0 <= k < |words| :: |words[k]| > 3 && Contains(text, words[k])
  }

  /**
   * A stored symptom is mentioned when its lower-cased name occurs in the lower-cased text, or one
   * of the whitespace-separated words of that name, longer than three characters, does.
   */
  predicate Mentioned(s: Symptom, textLower: string) {
    Contains(textLower, Lower(s.name)) || SomeLongWordIn(Words(Lower(s.name)), textLower)
  }

  /** The names of the mentioned symptoms, in storage order. */
  function MentionedNames(symptoms: seq<Symptom>, textLower: string): (r: seq<string>)
    ensures |r| <= |symptoms|
  {
    if symptoms == [] then []
    else
      var s := symptoms[|symptoms| - 1];
      MentionedNames(symptoms[..|symptoms| - 1], textLower) + (if Mentioned(s, textLower) then [s.name] else [])
  }

  /** Every mentioned stored symptom has its name extracted. */
  lemma {:induction false} MentionedNamesComplete(symptoms: seq<Symptom>, textLower: string, k: nat)
    requires k < |symptoms| && Mentioned(symptoms[k], textLower)
    ensures symptoms[k].name in MentionedNames(symptoms, textLower)
  {
    var n := |symptoms| - 1;
    if k < n {
      MentionedNamesComplete(symptoms[..n], textLower, k);
    }
  }

  /** Every extracted name is the name of a mentioned stored symptom. */
  lemma {:induction false} MentionedNamesSound(symptoms: seq<Symptom>, textLower: string, name: string)
    requires name in MentionedNames(symptoms, textLower)
    ensures exists k :: 0 <= k < |symptoms| && symptoms[k].name == name && Mentioned(symptoms[k], textLower)
  {
    var n := |symptoms| - 1;
    if !(Mentioned(symptoms[n], textLower) && symptoms[n].name == name) {
      MentionedNamesSound(symptoms[..n], textLower, name);
      var k :| 0 <= k < n && symptoms[..n][k].name == name && Mentioned(symptoms[..n][k], textLower);
      assert symptoms[k] == symptoms[..n][k];
    }
  }

  /** With unique symptom names, no name is extracted twice. */
  lemma {:induction false} MentionedNamesDistinct(symptoms: seq<Symptom>, textLower: string)
    requires forall i, j :: 0 <= i < j < |symptoms| ==> symptoms[i].name != symptoms[j].name
    ensures Distinct(MentionedNames(symptoms, textLower))
  {
    if symptoms != [] {
      var n := |symptoms| - 1;
      MentionedNamesDistinct(symptoms[..n], textLower);
      var prefix := MentionedNames(symptoms[..n], textLower);
      if Mentioned(symptoms[n], textLower) && symptoms[n].name in prefix {
        MentionedNamesSound(symptoms[..n], textLower, symptoms[n].name);
        assert false;
      }
    }
  }

  /** A name always occurs in itself, so every stored symptom resolves by its own name. */
  lemma NameLikeItself(name: string)
    ensures NameLike(name, name)
  {
    assert OccursAt(Lower(name), Lower(name), 0);
  }

  /**
   * Every extracted name resolves to a stored symptom under the substring lookup the
   * effectiveness computation uses, so no extracted symptom is silently dropped there.
   */
  lemma ExtractedSymptomsResolve(st: Store, textLower: string, name: string)
    requires name in MentionedNames(st.symptoms, textLower)
    ensures ResolveSymptom(st, name).Some?
  {
    MentionedNamesSound(st.symptoms, textLower, name);
    var k :| 0 <= k < |st.symptoms| && st.symptoms[k].name == name && Mentioned(st.symptoms[k], textLower);
    NameLikeItself(name);
  }

  /** One more stored symptom: its name is appended exactly when it is mentioned. */
  lemma MentionedNamesStep(symptoms: seq<Symptom>, textLower: string, i: nat)
    requires i < |symptoms|
    ensures MentionedNames(symptoms[..i + 1], textLower)
      == MentionedNames(symptoms[..i], textLower) + (if Mentioned(symptoms[i], textLower) then [symptoms[i].name] else [])
  {
    assert symptoms[..i + 1][..i] == symptoms[..i];
  }

  /**
   * `_extract_symptoms_from_text(text)`: for each stored symptom, appends its name when the full
   * lower-cased name occurs in the lower-cased text, else when one of its long words does.
   */
  method ExtractSymptomsFromText(st: Store, text: string) returns (symptoms: seq<string>)
    ensures symptoms == MentionedNames(st.symptoms, Lower(text))
  {
    var textLower := Lower(text);
    symptoms := [];
    for i := 0 to |st.symptoms|
      invariant symptoms == MentionedNames(st.symptoms[..i], textLower)
    {
      MentionedNamesStep(st.symptoms, textLower, i);
      var symptom := st.symptoms[i];
      var symptomName := Lower(symptom.name);
      // the full name
      if Contains(textLower, symptomName) {
        symptoms := symptoms + [symptom.name];
        continue;
      }
      // one of its words
      var words := Words(symptomName);
      for j := 0 to |words|
        invariant symptoms == MentionedNames(st.symptoms[..i], textLower)
        invariant forall k :: 0 <= k < j ==> !(|words[k]| > 3 && Contains(textLower, words[k]))
      {
        if |words[j]| > 3 && Contains(textLower, words[j]) {
          symptoms := symptoms + [symptom.name];
          break;
        }
      }
    }
    assert st.symptoms[..|st.symptoms|] == st.symptoms;
  }

  // ---------------------------------------------------------------- age

  /** The end of the run of decimal digits that starts at `i`. */
  function DigitRunEnd(s: string, i: nat): (j: nat)
    requires i <= |s|
    ensures i <= j <= |s|
    ensures forall k :: i <= k < j ==> IsDigit(s[k])
    ensures j == |s| || !IsDigit(s[j])
    decreases |s| - i
  {
    if i < |s| && IsDigit(s[i]) then DigitRunEnd(s, i + 1) else i
  }

  /** The end of the run of whitespace that starts at `i`. */
  function SpaceRunEnd(s: string, i: nat): (j: nat)
    requires i <= |s|
    ensures i <= j <= |s|
    ensures forall k :: i <= k < j ==> IsSpace(s[k])
    ensures j == |s| || !IsSpace(s[j])
    decreases |s| - i
  {
    if i < |s| && IsSpace(s[i]) then SpaceRunEnd(s, i + 1) else i
  }

  /** `(?:years?|yrs?|old)` matches at `k`: the text goes on with "year", "yr" or "old". */
  predicate UnitAt(s: string, k: nat) {
    OccursAt(s, "year", k) || OccursAt(s, "yr", k) || OccursAt(s, "old", k)
  }

  /**
   * `(\d+)\s*(?:years?|yrs?|old)` matches at `i`. Both runs are greedy, and giving a character
   * back never helps: the next pattern element cannot match a digit or a space.
   */
  predicate AgeMatchAt(s: string, i: nat) {
    i < |s| && IsDigit(s[i]) && UnitAt(s, SpaceRunEnd(s, DigitRunEnd(s, i)))
  }

  /** The leftmost match at or after `i`, as `re.search` finds it. */
  function FirstAgeMatch(s: string, i: nat): (r: Option<nat>)
    requires i <= |s|
    ensures r.Some? ==> i <= r.value < |s| && AgeMatchAt(s, r.value)
    ensures r.Some? ==> forall j :: i <= j < r.value ==> !AgeMatchAt(s, j)
    ensures r.None? ==> forall j :: i <= j < |s| ==> !AgeMatchAt(s, j)
    decreases |s| - i
  {
    if i == |s| then None
    else if AgeMatchAt(s, i) then Some(i)
    else FirstAgeMatch(s, i + 1)
  }

  /** `int(group)` of the digits between `i` and `j`. */
  function DigitsBetween(s: string, i: nat, j: nat): nat
    requires i <= j <= |s|
    requires forall k :: i <= k < j ==> IsDigit(s[k])
  {
    var d := s[i..j];
    assert forall k :: 0 <= k < |d| ==> d[k] == s[i + k];
    DigitsValue(d)
  }

  /** The age `_extract_patient_info` reads: the digits of the leftmost match, as an integer. */
  function AgeFromText(textLower: string): Option<int> {
    match FirstAgeMatch(textLower, 0)
    case None => None
    case Some(k) => Some(DigitsBetween(textLower, k, DigitRunEnd(textLower, k)))
  }

  /** The matched digits are a whole run: the match never starts in the middle of a number. */
  lemma AgeMatchStartsRun(s: string)
    requires FirstAgeMatch(s, 0).Some?
    ensures var k := FirstAgeMatch(s, 0).value; k == 0 || !IsDigit(s[k - 1])
  {
    var k := FirstAgeMatch(s, 0).value;
    if k > 0 {
      AgeMatchExtendsLeft(s, k);
    }
  }

  /** A match preceded by a digit is also a match one place earlier: both share the digit run's end. */
  lemma AgeMatchExtendsLeft(s: string, k: nat)
    requires 0 < k < |s| && AgeMatchAt(s, k)
    ensures IsDigit(s[k - 1]) ==> AgeMatchAt(s, k - 1)
  {
  }

  /** A run of digits ends where the first non-digit is. */
  lemma DigitRunEndIs(s: string, i: nat, j: nat)
    requires i <= j <= |s|
    requires forall k :: i <= k < j ==> IsDigit(s[k])
    requires j == |s| || !IsDigit(s[j])
    ensures DigitRunEnd(s, i) == j
  {
  }

  /** A run of whitespace ends where the first non-space is. */
  lemma SpaceRunEndIs(s: string, i: nat, j: nat)
    requires i <= j <= |s|
    requires forall k :: i <= k < j ==> IsSpace(s[k])
    requires j == |s| || !IsSpace(s[j])
    ensures SpaceRunEnd(s, i) == j
  {
  }

  /** A unit word starts with 'y' or 'o': neither a digit nor a space. */
  lemma UnitStart(tail: string)
    requires UnitAt(tail, 0)
    ensures |tail| > 0 && !IsDigit(tail[0]) && !IsSpace(tail[0])
  {
    assert tail[0] == tail[0..2][0];
  }

  /** A unit word at the start of a suffix is a unit word in the whole text. */
  lemma UnitShift(s: string, p: nat, tail: string)
    requires p <= |s| && s[p..] == tail
    requires UnitAt(tail, 0)
    ensures UnitAt(s, p)
  {
    if OccursAt(tail, "year", 0) {
      assert s[p..p + 4] == tail[0..4];
    } else if OccursAt(tail, "yr", 0) {
      assert s[p..p + 2] == tail[0..2];
    } else {
      assert s[p..p + 3] == tail[0..3];
    }
  }

  /** In digits, spaces and a unit word, the digit run and the space run end where they should. */
  lemma StatedAgeRuns(d: string, gap: string, tail: string)
    requires forall k :: 0 <= k < |d| ==> IsDigit(d[k])
    requires forall k :: 0 <= k < |gap| ==> IsSpace(gap[k])
    requires |tail| > 0 && !IsDigit(tail[0]) && !IsSpace(tail[0])
    ensures DigitRunEnd(d + gap + tail, 0) == |d|
    ensures SpaceRunEnd(d + gap + tail, |d|) == |d| + |gap|
  {
    var s := d + gap + tail;
    assert forall k :: 0 <= k < |d| ==> s[k] == d[k];
    assert forall k :: |d| <= k < |d| + |gap| ==> s[k] == gap[k - |d|];
    assert s[|d| + |gap|] == tail[0];
    if gap != [] {
      assert s[|d|] == gap[0];
    }
    DigitRunEndIs(s, 0, |d|);
    SpaceRunEndIs(s, |d|, |d| + |gap|);
  }

  /** A message opening with an age written out, some spaces and a unit is read back as that age. */
  lemma StatedAgeReadBack(n: nat, gap: string, tail: string)
    requires forall k :: 0 <= k < |gap| ==> IsSpace(gap[k])
    requires UnitAt(tail, 0)
    ensures AgeFromText(NatToString(n) + gap + tail) == Some(n)
  {
    var d := NatToString(n);
    var s := d + gap + tail;
    UnitStart(tail);
    StatedAgeRuns(d, gap, tail);
    assert s[|d| + |gap|..] == tail;
    UnitShift(s, |d| + |gap|, tail);
    assert AgeMatchAt(s, 0);
    assert s[0..|d|] == d;
    DigitsValueOfNatToString(n);
  }

  // ---------------------------------------------------------------- gender

  const MaleCues: seq<string> := ["male", "man", "boy", "he", "him"]
  const FemaleCues: seq<string> := ["female", "woman", "girl", "she", "her"]

  /** `any(word in text for word in cues)`. */
  predicate AnyCue(textLower: string, cues: seq<string>) {
    exists k | 0 <= k < |cues| :: Contains(textLower, cues[k])
  }

  /** "male" when a male cue occurs anywhere in the text, else "female" when a female cue does. */
  function GenderOf(textLower: string): Option<string> {
    if AnyCue(textLower, MaleCues) then Some("male")
    else if AnyCue(textLower, FemaleCues) then Some("female")
    else None
  }

  /**
   * The cues are substrings, not words, and "female", "woman", "she" and "her" each contain a
   * male cue: the gender is "female" exactly when "girl" occurs and no male cue does.
   */
  lemma OnlyGirlMeansFemale(textLower: string)
    ensures GenderOf(textLower) == Some("female") <==> Contains(textLower, "girl") && !AnyCue(textLower, MaleCues)
  {
    if Contains(textLower, "girl") {
      assert Contains(textLower, FemaleCues[2]);
    }
    if !AnyCue(textLower, MaleCues) && AnyCue(textLower, FemaleCues) {
      var k :| 0 <= k < |FemaleCues| && Contains(textLower, FemaleCues[k]);
      assert OccursAt("female", "male", 2);
      assert OccursAt("woman", "man", 2);
      assert OccursAt("she", "he", 1);
      assert OccursAt("her", "he", 0);
      if k == 0 {
        ContainsTrans(textLower, "female", MaleCues[0]);
      } else if k == 1 {
        ContainsTrans(textLower, "woman", MaleCues[1]);
      } else if k == 3 {
        ContainsTrans(textLower, "she", MaleCues[3]);
      } else if k == 4 {
        ContainsTrans(textLower, "her", MaleCues[3]);
      }
    }
  }

  // ---------------------------------------------------------------- conditions

  /** The stored conditions whose lower-cased name occurs in the text, by name, in storage order. */
  function NamedConditions(conditions: seq<PatientCondition>, textLower: string): (r: seq<string>)
    ensures |r| <= |conditions|
  {
    if conditions == [] then []
    else
      var c := conditions[|conditions| - 1];
      NamedConditions(conditions[..|conditions| - 1], textLower)
        + (if Contains(textLower, Lower(c.name)) then [c.name] else [])
  }

  /** A name is extracted exactly when it names a stored condition that occurs in the text. */
  lemma {:induction false} NamedConditionsIff(conditions: seq<PatientCondition>, textLower: string, name: string)
    ensures name in NamedConditions(conditions, textLower)
      <==> exists k :: 0 <= k < |conditions| && conditions[k].name == name && Contains(textLower, Lower(name))
  {
    if conditions != [] {
      var n := |conditions| - 1;
      NamedConditionsIff(conditions[..n], textLower, name);
      if exists k :: 0 <= k < |conditions| && conditions[k].name == name && Contains(textLower, Lower(name)) {
        var k :| 0 <= k < |conditions| && conditions[k].name == name && Contains(textLower, Lower(name));
        if k < n {
          assert conditions[..n][k] == conditions[k];
        }
      }
      if name in NamedConditions(conditions[..n], textLower) {
        var k :| 0 <= k < n && conditions[..n][k].name == name && Contains(textLower, Lower(name));
        assert conditions[k] == conditions[..n][k];
      }
    }
  }

  /** Every extracted condition resolves under the substring lookup the safety score uses. */
  lemma ExtractedConditionsResolve(st: Store, textLower: string, name: string)
    requires name in NamedConditions(st.conditions, textLower)
    ensures ResolveCondition(st, name).Some?
  {
    NamedConditionsIff(st.conditions, textLower, name);
    var k :| 0 <= k < |st.conditions| && st.conditions[k].name == name && Contains(textLower, Lower(name));
    NameLikeItself(name);
  }

  // ---------------------------------------------------------------- patient info

  /** The dictionary `_extract_patient_info` returns; a key that is not set is `None`. */
  datatype PatientInfo = PatientInfo(age: Option<int>, gender: Option<string>, conditions: Option<seq<string>>)

  /**
   * `_extract_patient_info(text)`: the age of the leftmost age phrase, the gender cue, and the
   * stored conditions named in the text, set only when there is at least one.
   */
  method ExtractPatientInfo(st: Store, text: string) returns (info: PatientInfo)
    ensures info.age == AgeFromText(Lower(text))
    ensures info.gender == GenderOf(Lower(text))
    ensures var named := NamedConditions(st.conditions, Lower(text));
      info.conditions == if named == [] then None else Some(named)
  {
    var age := AgeFromText(Lower(text));
    var gender := GenderOf(Lower(text));
    var conditions: seq<string> := [];
    for i := 0 to |st.conditions|
      invariant conditions == NamedConditions(st.conditions[..i], Lower(text))
    {
      assert st.conditions[..i + 1][..i] == st.conditions[..i];
      var condition := st.conditions[i];
      var conditionName := Lower(condition.name);
      if Contains(Lower(text), conditionName) {
        conditions := conditions + [condition.name];
      }
    }
    assert st.conditions[..|st.conditions|] == st.conditions;
    info := PatientInfo(age, gender, if conditions == [] then None else Some(conditions));
  }
}
