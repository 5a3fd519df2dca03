/**
 * The chat front of SymptomChecker (symptom_checker.py): a message is read for symptoms and
 * patient details, and the reply either carries the top three recommendations or asks four
 * clarifying questions.
 */
module Conversation {
  import opened Wrappers
  import opened Seqs
  import opened Text
  import opened Records
  import opened Sorting
  import opened Ranking
  import opened TextExtraction

  /** The dictionary `_generate_chat_response` returns. */
  datatype ChatResponse = ChatResponse(
    message: string,
    symptomsFound: seq<string>,
    patientInfo: PatientInfo,
    recommendations: seq<Recommendation>,
    questions: seq<string>)

  const NoSymptomsMessage := "I didn't detect any specific symptoms in your message. Could you describe what symptoms you're experiencing?"

  const Questions: seq<string> := [
    "What symptoms are you experiencing?",
    "How long have you had these symptoms?",
    "Are you taking any other medications?",
    "Do you have any medical conditions I should know about?"
  ]

  const FoundPrefix := "I found "

  /** The reply to a message with symptoms: how many, which, and whether anything is recommended. */
  function FoundMessage(symptoms: seq<string>, anyRecommended: bool): string {
    FoundPrefix + NatToString(|symptoms|) + FoundTail(symptoms, anyRecommended)
  }

  const SymptomsLabel := " symptom(s): "
  const RecommendationsFollow := ". Here are some recommendations:"
  const NothingToRecommend := ". However, I don't have specific recommendations for these symptoms. Please consult a healthcare professional."

  function FoundTail(symptoms: seq<string>, anyRecommended: bool): string {
    SymptomsLabel + Join(symptoms, ", ") + if anyRecommended then RecommendationsFollow else NothingToRecommend
  }

  /** `patient_info.get('conditions', [])`. */
  function ConditionsOf(info: PatientInfo): seq<string> {
    match info.conditions
    case Some(cs) => cs
    case None => []
  }

  /** The reply `_generate_chat_response` builds for the extracted symptoms and patient details. */
  function ResponseFor(st: Store, symptoms: seq<string>, info: PatientInfo): ChatResponse {
    if symptoms == [] then ChatResponse(NoSymptomsMessage, symptoms, info, [], Questions)
    else
      var all := Recommendations(st, symptoms, ConditionsOf(info), info.age, "moderate");
      ChatResponse(FoundMessage(symptoms, all != []), symptoms, info, Top(all, 3), [])
  }

  /**
   * With no symptom found the reply asks the four questions and recommends nothing; with some,
   * it asks nothing.
   */
  lemma QuestionsOnlyWithoutSymptoms(st: Store, symptoms: seq<string>, info: PatientInfo)
    ensures var r := ResponseFor(st, symptoms, info);
      && (symptoms == [] <==> r.questions != [])
      && (symptoms == [] ==> r.message == NoSymptomsMessage && |r.questions| == 4 && r.recommendations == [])
  {
  }

  /**
   * The reply carries at most three recommendations, highest score first, each with a positive
   * score and for a medicine that treats one of the symptoms found.
   */
  lemma ChatRecommendationsRanked(st: Store, symptoms: seq<string>, info: PatientInfo)
    ensures var r := ResponseFor(st, symptoms, info).recommendations;
      && |r| <= 3
      && SortedDesc(r, ScoreOf)
      && forall k :: 0 <= k < |r| ==> r[k].score > 0.0 && r[k] in Recommendations(st, symptoms, ConditionsOf(info), info.age, "moderate")
  {
    var all := Recommendations(st, symptoms, ConditionsOf(info), info.age, "moderate");
    var r := ResponseFor(st, symptoms, info).recommendations;
    if symptoms != [] {
      RecommendationsSorted(st, symptoms, ConditionsOf(info), info.age, "moderate");
      forall k | 0 <= k < |r|
        ensures r[k].score > 0.0 && r[k] in all
      {
        assert r[k] == all[k];
        RecommendationsSound(st, symptoms, ConditionsOf(info), info.age, "moderate", r[k]);
      }
      forall i, j | 0 <= i < j < |r|
        ensures ScoreOf(r[i]) >= ScoreOf(r[j])
      {
        assert r[i] == all[i] && r[j] == all[j];
      }
    }
  }

  /** The message announces recommendations exactly when the reply carries some. */
  lemma MessageMatchesRecommendations(st: Store, symptoms: seq<string>, info: PatientInfo)
    requires symptoms != []
    ensures var r := ResponseFor(st, symptoms, info);
      r.message == FoundMessage(symptoms, r.recommendations != [])
  {
    var all := Recommendations(st, symptoms, ConditionsOf(info), info.age, "moderate");
    TopEmpty(all, 3);
    assert ResponseFor(st, symptoms, info).recommendations == Top(all, 3);
  }

  /** The count in the message reads back as the number of symptoms found. */
  lemma MessageCountReadsBack(symptoms: seq<string>, anyRecommended: bool)
    ensures var digits := NatToString(|symptoms|);
      var m := FoundMessage(symptoms, anyRecommended);
      |m| >= |FoundPrefix| + |digits|
      && m[..|FoundPrefix|] == FoundPrefix
      && m[|FoundPrefix|..|FoundPrefix| + |digits|] == digits
      && DigitsValue(digits) == |symptoms|
  {
    var digits, tail := NatToString(|symptoms|), FoundTail(symptoms, anyRecommended);
    assert (FoundPrefix + digits + tail)[..|FoundPrefix|] == FoundPrefix;
    assert (FoundPrefix + digits + tail)[|FoundPrefix|..|FoundPrefix| + |digits|] == digits;
    DigitsValueOfNatToString(|symptoms|);
  }

  /**
   * `_generate_chat_response`: with symptoms, asks for recommendations with the extracted
   * conditions, age and gender at the default "moderate" severity and keeps the first three.
   */
  method GenerateChatResponse(st: Store, message: string, symptoms: seq<string>, patientInfo: PatientInfo,
                              history: seq<string>) returns (response: ChatResponse)
    ensures response == ResponseFor(st, symptoms, patientInfo)
  {
    response := ChatResponse("", symptoms, patientInfo, [], []);
    if symptoms != [] {
      var recommendations := GetRecommendations(st, symptoms, ConditionsOf(patientInfo), patientInfo.age,
                                                patientInfo.gender, "moderate");
      response := response.(recommendations := Top(recommendations, 3));
      response := response.(message := FoundMessage(symptoms, recommendations != []));
    } else {
      response := response.(message := NoSymptomsMessage, questions := Questions);
    }
  }

  /** The reply to a message: the symptoms and details read from it, answered as above. */
  function ChatReply(st: Store, message: string): ChatResponse {
    var textLower := Lower(message);
    var named := NamedConditions(st.conditions, textLower);
    var info := PatientInfo(AgeFromText(textLower), GenderOf(textLower), if named == [] then None else Some(named));
    ResponseFor(st, MentionedNames(st.symptoms, textLower), info)
  }

  /** `process_chat_message(message, history)`: the reply depends on the message alone, never on the history. */
  method ProcessChatMessage(st: Store, message: string, history: seq<string>) returns (response: ChatResponse)
    ensures response == ChatReply(st, message)
  {
    var symptoms := ExtractSymptomsFromText(st, message);
    var patientInfo := ExtractPatientInfo(st, message);
    response := GenerateChatResponse(st, message, symptoms, patientInfo, history);
  }
}
