# Virtual Doctor: a verified model of the recommendation core

Virtual Doctor is a medicine recommendation service. A catalogue of medicines, symptoms and
patient conditions sits in a database. Junction rows link each medicine to the symptoms it treats,
with an effectiveness score, and to the conditions it is contraindicated for, with a severity.
This project models four parts of it in Dafny:

- **medicine.py**: the five record types and their `to_dict` views (`records.dfy`).
- **medicine_service.py**: the catalogue queries (`medicine_service.dfy`).
  - Tables become sequences in a `Store` value, in storage order.
  - `ilike('%q%')` becomes case-insensitive substring containment.
  - `.first()` becomes the first matching row.
- **symptom_checker.py**:
  - The scoring of a medicine for a patient: mean effectiveness, the safety deductions and the
    severity multiplier (`scoring.dfy`).
  - The ranking of candidates: a stable sort by score, highest first, then the top ten
    (`sorting.dfy`, `ranking.dfy`).
  - The reading of a chat message: symptom names, the `(\d+)\s*(?:years?|yrs?|old)` age pattern,
    gender cues and condition names (`text_extraction.dfy`).
  - The chat reply (`conversation.dfy`).
- **load_fda_data.py**: turning the openFDA drug label records into `Medicine` rows
  (`fda_loader.dfy`).
  - JSON values are a `Json` datatype; objects are key/value lists in which the last duplicate
    key wins.
  - A record that raises is skipped.

Every loop of the source is a method. Each method is proved equal to a specification function,
and the properties the program promises are lemmas about those functions:

- Scores stay in range.
- A severe contraindication zeroes safety.
- Ranking is sorted, stable, a permutation, sound and complete up to the top ten.
- A stated age reads back.
- A loaded medicine always has a generic name.

`fixtures.dfy` holds a concrete catalogue that exhibits the finding below.

## Model

| member | source | states |
|---|---|---|
| Records.MedicineToDict | medicine.py:56-84 | the view holds every column unchanged, and each of the three timestamps is absent exactly when unset and otherwise its ISO text |
| Records.MedicineDictRoundTrip | medicine.py:56-84 | `to_dict` loses nothing: reading the view back gives the same medicine |
| Records.SymptomToDict | medicine.py:102-110 | the view holds id, name, description, category and severity levels unchanged; the timestamp is absent exactly when unset and otherwise its ISO text |
| Records.MedicineSymptomToDict | medicine.py:126-135 | the view holds id, both ends of the edge, the effectiveness score and the contraindicated flag unchanged; the timestamp is absent exactly when unset and otherwise its ISO text |
| Records.PatientConditionToDict | medicine.py:150-158 | the view holds id, name, description, affects-medication flag and severity levels unchanged; the timestamp is absent exactly when unset and otherwise its ISO text |
| Records.MedicineContraindicationToDict | medicine.py:173-181 | the view holds id, both ends of the edge, severity and notes unchanged; the timestamp is absent exactly when unset and otherwise its ISO text |
| MedicineService.SearchResults | medicine_service.py:21-31 | an empty search keeps every medicine; otherwise the stored medicines filtered in storage order, each kept iff brand, generic name, manufacturer or active ingredients contain the search, ignoring case |
| MedicineService.CeilDiv | medicine_service.py:43 | for a positive per_page, the least q with q * per_page >= total |
| MedicineService.Ceiling | medicine_service.py:43 | `math.ceil(total / per_page)` for any non-zero per_page: the q with q >= total / per_page > q - 1, stated for each sign of per_page |
| MedicineService.Window | medicine_service.py:37-38 | offset/limit on SQLite: the items are those from the offset on (a negative offset counts as 0), at most `limit` of them (no bound for a negative limit), and none past the end |
| MedicineService.GetMedicines | medicine_service.py:19-44 | raises ZeroDivisionError iff per_page is 0; otherwise total counts the whole filtered result, pages is the ceiling of total / per_page, and items are the offset/limit window at (page - 1) * per_page, at most per_page of them for a positive per_page |
| MedicineService.EveryMatchOnItsPage | medicine_service.py:36-44 | with a positive per_page, the k-th match is item k % per_page of page k / per_page + 1, and that page is within the page count |
| MedicineService.GetMedicineById | medicine_service.py:46-48 | none iff no row has the id; otherwise a stored row with that id |
| MedicineService.GetMedicineByName | medicine_service.py:50-57 | the first stored medicine whose brand or generic name contains the name, ignoring case; none iff there is none |
| MedicineService.ResolveSymptom | symptom_checker.py:83-85 | the first stored symptom whose name contains the query, ignoring case; none iff there is none |
| MedicineService.ResolveCondition | medicine_service.py:95-97 | the first stored condition whose name contains the query, ignoring case; none iff there is none |
| MedicineService.ConditionById | medicine_service.py:132-134 | none iff no stored condition has the id; otherwise a stored condition with that id |
| MedicineService.GetMedicineEffectiveness | medicine_service.py:145-157 | the score of the first edge joining medicine and symptom, 0.0 when there is none, and within [0, 1] when the stored scores are |
| MedicineService.FindContraindication | medicine_service.py:159-166 | the first contraindication edge joining medicine and condition; none iff there is none |
| MedicineService.IsMedicineContraindicated | medicine_service.py:159-168 | true iff some stored edge joins the medicine to the condition |
| MedicineService.SymptomIds | medicine_service.py:72 | an id is listed iff some given symptom has it |
| MedicineService.EdgeMedicineIds | medicine_service.py:82 | an id is listed iff some given edge points to that medicine |
| MedicineService.SearchMedicinesBySymptoms | medicine_service.py:59-91 | no names give nothing; otherwise the stored medicines, in storage order, that some non-contraindicated edge joins to a symptom named exactly as asked |
| MedicineService.SearchBySymptomsDistinct | medicine_service.py:87-91 | in a valid store no medicine is returned twice, however many of its symptoms are named |
| MedicineService.ExactSymptomNameFindsAtMostOne | medicine.py:96 | with unique symptom names, an exact name matches at most one symptom |
| MedicineService.ContraMedicineIds | medicine_service.py:107 | an id is listed iff some given edge names that medicine |
| MedicineService.GetMedicinesByCondition | medicine_service.py:93-114 | an unknown condition gives nothing; otherwise exactly the stored medicines, in order, with no contraindication edge to the first matching condition |
| MedicineService.ContraindicationEntries | medicine_service.py:130-141 | at most one entry per edge |
| MedicineService.ContraindicationEntriesComplete | medicine_service.py:130-141 | when every edge's condition exists, there is one entry per edge, in order, holding that condition's view, the severity and the notes |
| MedicineService.ContraindicationEntriesSkipsUnknown | medicine_service.py:136 | an edge whose condition is missing adds no entry |
| MedicineService.ContraindicationEntriesAppendsKnown | medicine_service.py:134-141 | an edge whose condition is stored adds its entry (condition view, severity, notes) after the entries of any prefix |
| MedicineService.GetMedicineContraindications | medicine_service.py:124-143 | the loop returns the entries of the medicine's edges, in storage order |
| MedicineService.MatchedContraindications | medicine_service.py:186-205 | each matched pair is a stored condition with a stored edge joining it to the medicine |
| MedicineService.MatchedAppend | medicine_service.py:187 | conditions are matched one by one: the matches of two lists are the matches of each, in order |
| MedicineService.ConditionContraindications | medicine_service.py:201-205 | one entry per matched pair, with the condition name, severity and notes |
| MedicineService.GetMedicineSafetyInfo | medicine_service.py:170-207 | none iff the medicine is unknown; otherwise its view, its pregnancy/paediatric/geriatric fields, no warnings, and one entry per reported condition that resolves and is contraindicated |
| Scoring.ResolvedScores | symptom_checker.py:82-92 | at most one score per symptom, each in [0, 1] when the stored scores are |
| Scoring.SumBounds | symptom_checker.py:91 | a total of n unit scores lies in [0, n] |
| Scoring.Effectiveness | symptom_checker.py:74-94 | 0.0 when no symptom resolves, and within [0, 1] when the stored scores are |
| Scoring.EffectivenessOfOne | symptom_checker.py:82-94 | for one resolved symptom the effectiveness is that symptom's edge score |
| Scoring.EffectivenessForSymptoms | symptom_checker.py:74-94 | the accumulating loop computes the mean score of the symptoms that resolve |
| Scoring.SeverityPenalty | symptom_checker.py:116-121 | each severity deducts between 0 and 1 |
| Scoring.ContraPenalty | symptom_checker.py:102-121 | the contraindication deductions total between 0 and one per match |
| Scoring.ContraPenaltyAtLeast | symptom_checker.py:115-121 | the total deduction is at least that of any single match |
| Scoring.ContraPenaltyAppend | symptom_checker.py:102 | deductions of consecutive condition lists add up |
| Scoring.AgePenalty | symptom_checker.py:124-130 | 0, 0.2 or 0.3, and nothing unless a truthy age is given |
| Scoring.PregnancyPenalty | symptom_checker.py:133-138 | between 0 and 0.8, and nothing without a category |
| Scoring.SafetyPenalty | symptom_checker.py:96-138 | the deductions are never negative |
| Scoring.Safety | symptom_checker.py:96-140 | within [0, 1]; exactly 1 iff nothing is deducted; exactly 0 iff the deductions reach 1 |
| Scoring.SevereContraindicationIsUnsafe | symptom_checker.py:116-117 | one matched severe contraindication makes the safety score 0 |
| Scoring.SafetyAntitone | symptom_checker.py:102-121 | reporting more conditions never raises the safety score |
| Scoring.CalculateSafetyScore | symptom_checker.py:96-140 | the deducting loop computes `Safety` |
| Scoring.Multiplier | symptom_checker.py:67-70 | the severity factor lies between 0.8 and 1.2 |
| Scoring.MedicineScore | symptom_checker.py:54-72 | non-negative; with unit scores at most the severity factor and at least 0.4 * safety * factor |
| Scoring.SafeMedicineScoresPositive | symptom_checker.py:54-72 | a medicine with positive safety scores above 0, so it is never dropped by the positive-score filter |
| Scoring.SeverityMonotone | symptom_checker.py:67-70 | for the same medicine and patient, mild <= moderate <= severe |
| Scoring.CalculateMedicineScore | symptom_checker.py:54-72 | the method computes `MedicineScore`, ignoring gender |
| Scoring.PregnancyWarnings | symptom_checker.py:147-152 | at most one warning, present iff the category deducts safety |
| Scoring.AgeWarnings | symptom_checker.py:155-160 | at most one warning, present iff the age deducts safety |
| Scoring.ContraWarnings | symptom_checker.py:177-178 | one "Contraindicated for ..." line per matched condition, in order |
| Scoring.WarningsExplainSafety | symptom_checker.py:142-180 | any safety deduction comes with a warning; there are at most 2 + one per condition |
| Scoring.GetMedicineSafetyWarnings | symptom_checker.py:142-180 | the method builds pregnancy, age and condition warnings in that order |
| Scoring.SafetyAsWritten | symptom_checker.py:96-140 | as written, raises NameError iff some reported condition is contraindicated; otherwise equals `Safety` |
| Scoring.WarningsAsWritten | symptom_checker.py:142-180 | as written, raises NameError under the same condition; otherwise the pregnancy and age warnings |
| Scoring.ReachesAndIffMatched | symptom_checker.py:107-113 | the undefined `and_` is reached iff a contraindication would have been found |
| Sorting.InsertPermutes | symptom_checker.py:50 | inserting adds exactly the new element |
| Sorting.SortByKeyPermutes | symptom_checker.py:50 | sorting is a permutation of the scored list |
| Sorting.SortByKeySorted | symptom_checker.py:50 | the sorted list is in non-increasing score order |
| Sorting.SortByKeyStable | symptom_checker.py:50 | `sort(reverse=True)` is stable: entries with equal scores keep their input order |
| Sorting.InsertInPlace | symptom_checker.py:50 | the shifting loop inserts one element into the sorted prefix and leaves the rest of the array alone |
| Sorting.SortByKeyInPlace | symptom_checker.py:50 | the in-place insertion sort leaves the array equal to `SortByKey` of its old contents |
| Sorting.TopSorted | symptom_checker.py:50-52 | the top n of a sorted list are sorted |
| Sorting.TopFromInput | symptom_checker.py:50-52 | every entry kept comes from the input |
| Sorting.TopOutranks | symptom_checker.py:50-52 | an input entry is kept unless n entries were kept, each scoring at least as much |
| Ranking.ScoredCandidates | symptom_checker.py:34-47 | at most one entry per candidate, every kept score positive |
| Ranking.ScoredCandidatesComplete | symptom_checker.py:36-47 | every candidate with a positive score gets its entry |
| Ranking.ScoredCandidatesSound | symptom_checker.py:36-47 | every entry is the entry of some candidate |
| Ranking.ScoreCandidates | symptom_checker.py:34-47 | the scoring loop builds `ScoredCandidates` |
| Ranking.Recommendations | symptom_checker.py:22-52 | at most ten, none without symptoms; built on the corrected scoring (Scoring.Safety and Scoring.MedicineWarnings), since the code as written raises NameError when a reported condition is contraindicated for a candidate (see Findings) |
| Ranking.RecommendationsSorted | symptom_checker.py:49-52 | highest score first |
| Ranking.RecommendationsSound | symptom_checker.py:28-47 | each recommendation has a positive score and is the entry of a stored medicine that treats a named symptom |
| Ranking.RecommendationsComplete | symptom_checker.py:28-52 | a treating medicine with a positive score is recommended, unless ten others scoring at least as much fill the list |
| Ranking.RankedTiesKeepOrder | symptom_checker.py:50 | recommendations with equal scores stay in catalogue order |
| Ranking.GetRecommendations | symptom_checker.py:22-52 | the method returns `Recommendations` and ignores gender; like it, it uses the corrected scoring of the Findings row |
| Ranking.SortAndKeepTen | symptom_checker.py:49-52 | the array sort followed by `[:10]` gives the top ten of the sorted list |
| Ranking.GetSafetyWarnings | symptom_checker.py:182-202 | each advisory appears iff its trigger holds (exact condition name, or truthy age under 18 / over 65); at most four |
| Ranking.SafetyWarningsOrdered | symptom_checker.py:186-200 | the warnings are advisories only, each at most once, in the order pregnancy, liver, kidney, under 18, over 65 |
| TextExtraction.MentionedNamesComplete | symptom_checker.py:228-241 | a symptom whose name, or one of whose words longer than 3 letters, occurs in the text is reported |
| TextExtraction.MentionedNamesSound | symptom_checker.py:228-241 | only such symptoms are reported, by their stored name |
| TextExtraction.MentionedNamesDistinct | symptom_checker.py:232-241 | with unique names, no symptom is reported twice |
| TextExtraction.ExtractedSymptomsResolve | symptom_checker.py:228-243 | every reported name resolves again in the effectiveness lookup |
| TextExtraction.ExtractSymptomsFromText | symptom_checker.py:220-243 | the loop returns the mentioned names of the stored symptoms, in storage order |
| TextExtraction.FirstAgeMatch | symptom_checker.py:250 | the leftmost position where the age pattern matches, none iff there is none |
| TextExtraction.AgeMatchStartsRun | symptom_checker.py:250 | the leftmost match starts a digit run, never inside one |
| TextExtraction.StatedAgeReadBack | symptom_checker.py:250-252 | a message starting "<n> years/yrs/old", with any spaces between, yields age n |
| TextExtraction.OnlyGirlMeansFemale | symptom_checker.py:255-258 | female is read iff "girl" occurs and no male cue does (each other female cue contains a male cue) |
| TextExtraction.NamedConditionsIff | symptom_checker.py:264-267 | a condition is named iff its lowered name occurs in the lowered message |
| TextExtraction.ExtractedConditionsResolve | symptom_checker.py:264-267 | every named condition resolves again in the safety lookup |
| TextExtraction.ExtractPatientInfo | symptom_checker.py:245-272 | age from the pattern, gender from the cues, conditions only when some are named |
| Conversation.QuestionsOnlyWithoutSymptoms | symptom_checker.py:284-306 | the four questions are asked iff no symptom is found, and then nothing is recommended |
| Conversation.ChatRecommendationsRanked | symptom_checker.py:286-293 | at most three recommendations, highest first, each positive and among the full recommendations |
| Conversation.MessageMatchesRecommendations | symptom_checker.py:293-298 | the message announces recommendations iff the reply carries some |
| Conversation.MessageCountReadsBack | symptom_checker.py:296-298 | the count in the message reads back as the number of symptoms found |
| Conversation.GenerateChatResponse | symptom_checker.py:274-308 | the reply is built from the recommendations at moderate severity with the extracted conditions and age, using the corrected scoring of the Findings row |
| Conversation.ProcessChatMessage | symptom_checker.py:204-218 | the reply depends on the message alone: history is never read |
| FdaLoader.Get | load_fda_data.py:106 | a decoded object's value for a key is that of its last occurrence (no later pair has the key); none iff the key is absent |
| FdaLoader.ExtractTextField | load_fda_data.py:151-157 | nothing iff the field is missing or falsy; a TypeError iff it is a non-empty list holding a non-string; a list of strings joined by spaces; any other truthy value as its `str` text |
| FdaLoader.TextFieldJoinsList | load_fda_data.py:154-155 | a list of strings becomes its items joined by single spaces |
| FdaLoader.CategoryFromText | load_fda_data.py:164-173 | the category is one of A, B, C, D, X, and is absent iff no "category <letter>" occurs for any of the five letters |
| FdaLoader.CategoryFirstInOrder | load_fda_data.py:164-173 | the letter found appears as "category <letter>", and no earlier letter does |
| FdaLoader.ExtractPregnancyCategory | load_fda_data.py:159-174 | the category of the lower-cased pregnancy text when there is one, nothing without it, and the error that reading the text raises |
| FdaLoader.PregnancyCategoryIgnoresCase | load_fda_data.py:163 | lower-casing the pregnancy text does not change the category |
| FdaLoader.FirstOf | load_fda_data.py:107-108 | nothing iff the openfda value is missing or falsy; the first item of a non-empty list; the first character of a non-empty string; an error iff the value is truthy and neither a list nor a string |
| FdaLoader.LabelMedicine | load_fda_data.py:103-143 | a medicine read from a record has a non-empty generic name, and its brand is the text of the brand lookup's first item (nothing for `null`) |
| FdaLoader.BuildMedicine | load_fda_data.py:114-141 | raises iff one of the openfda, text-field or pregnancy reads raises; otherwise every column holds what its read returned, with key 0 and no timestamps |
| FdaLoader.NoGenericNameSkipped | load_fda_data.py:107-111 | a record whose generic name is missing, falsy or a list with a falsy first item is skipped, unless reading the brand name raises first |
| FdaLoader.LabelMedicineKeeps | load_fda_data.py:108-143 | a record with a readable brand, a truthy first generic name and no raising read yields the medicine built from those reads, named by that item's text |
| FdaLoader.LabelMedicineRaises | load_fda_data.py:103-147 | a record raises (and is skipped by `except Exception`) iff it is not an object, its openfda entry is not one, a name read raises, or its generic name is truthy and a later read raises |
| FdaLoader.LabelMedicineSkipsOnlyWithoutGenericName | load_fda_data.py:110-111 | a record skipped without an error is an object with an openfda object whose first generic name is missing or falsy |
| FdaLoader.StrOfTruthy | load_fda_data.py:108-111 | a truthy generic name never reads as empty text |
| FdaLoader.BrandNameIsFirstItem | load_fda_data.py:107 | the brand name is the text of the first item of a non-empty brand_name list, nothing when that item is `null` |
| FdaLoader.LoadedMedicinesAppend | load_fda_data.py:103-147 | records are read independently and in order |
| FdaLoader.LoadedMedicineIncluded | load_fda_data.py:103-143 | every record that yields a medicine contributes it |
| FdaLoader.LoadedMedicineFromRecord | load_fda_data.py:103-147 | every loaded medicine has a generic name and comes from some record; raising records contribute nothing |
| FdaLoader.ProcessDrugLabels | load_fda_data.py:94-149 | the loop keeps exactly the medicines the records yield, in record order |
| Fixtures.PregnancyIsContraindicated | symptom_checker.py:102-115 | in the sample catalogue the reported "pregnancy" resolves and meets its severe edge |
| Fixtures.AndIsNeverImported | symptom_checker.py:107-113 | for that patient the code as written raises NameError("and_"), where the intended safety score is 0 |

## Left out

- Database, sessions and SQLAlchemy: tables are immutable sequences in a `Store` value, and no
  core operation writes to them. `SymptomChecker` and `MedicineService` therefore become modules of
  functions over the store rather than classes: neither object mutates its own fields.
- `save_medicines`, `download_fda_data`, `load_all_data`, the sample-data creators, `close`, the
  Flask routes and the tablet-recognition model are not part of this model: they are I/O, network
  or ML code.
- Float arithmetic is modelled as exact `real` arithmetic: rounding is not captured.
- `str.lower()` is modelled on ASCII letters only.
- `\d` and `\s` in the age pattern cover ASCII digits and the whitespace characters Python
  recognises, but not non-ASCII decimal digits.
- `ilike` is modelled as substring containment: `%` and `_` inside a query are not treated as
  wildcards.
- `repr` of nested JSON values is modelled without escaping special characters, and JSON numbers
  are integers only.
- `datetime.strptime` with the three formats of `_parse_date` is the parameter `strptime`, not
  modelled.
- Medicines built by the loader carry id 0 and no timestamps: the database assigns these on insert,
  which is not part of this model.
- `fda_application_number` stores the raw `application_number` value; the model keeps its text
  form.
- FdaLoader.FirstOf: the first item of a list is returned as it was decoded; a text column then
  holds nothing for `null` and the `str` text of any other item (a string column converts the
  value on insert, which is not part of this model). The skip test at load_fda_data.py:110 uses the
  item's own truthiness, so `[0]` or `[null]` skip the record.
- Records.MedicineSymptom: `effectiveness_score` and `contraindicated` (medicine.py:121-122) are
  modelled as non-null. The ORM fills their defaults on insert; a NULL score would make
  `get_medicine_effectiveness` return None and symptom_checker.py:91 raise a TypeError, and a NULL
  flag is already excluded by the `== False` test at medicine_service.py:78.
- Records.PatientCondition: `affects_medication` (medicine.py:146) is modelled as non-null, for the
  same reason: the ORM fills its default on insert.
- Records.SymptomToDict and Records.PatientConditionToDict: `severity_levels` (medicine.py:99, 147)
  is kept as its stored JSON text; the `json.loads` decoding at medicine.py:108 and 156 is not
  modelled, since no core operation reads the decoded value.
- MedicineService.SearchMedicinesBySymptoms: names are matched exactly (`Symptom.name.in_`,
  medicine_service.py:66), not as a case-insensitive substring. The chat path passes stored names,
  so those always match.
- TextExtraction.OnlyGirlMeansFemale: the gender cues are substring tests
  (symptom_checker.py:255-258), not whole words: "he" occurs in "she" and "her", and "man" in
  "woman". The lemma shows the consequence.
- MedicineService.GetMedicines: a negative offset or limit is given SQLite's meaning (a negative
  OFFSET counts as zero, a negative LIMIT as no limit); the database is SQLite
  (medicine_service.py:13), and other engines are not part of this model.
- Scoring.CalculateMedicineScore and Ranking.GetRecommendations take a gender argument but never
  read it, as in the source.

## Findings

| source | as written | input that shows it | evidently intended | confidence | as-written member | corrected member |
|---|---|---|---|---|---|---|
| symptom_checker.py:109 | `_calculate_safety_score` (and `_get_safety_warnings` at line 171) call `and_`, but symptom_checker.py imports it nowhere (lines 5-10), so NameError is raised as soon as a reported condition is contraindicated for the medicine | a catalogue with condition "pregnancy" and a severe contraindication edge for the medicine, with the patient reporting "pregnancy" | the first edge joining medicine and condition, as `medicine_service.py:159-166` looks it up, giving safety score 0 and a "Contraindicated for" warning | not executed | Scoring.SafetyAsWritten, Scoring.WarningsAsWritten, Fixtures.AndIsNeverImported | Scoring.Safety, Scoring.GetMedicineSafetyWarnings |
