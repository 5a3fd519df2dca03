/**
 * The record-to-medicine mapping of the FDA label loader (load_fda_data.py): flattening label
 * text fields, reading the pregnancy category out of the label text, and turning each decoded
 * label record into a Medicine, skipping the records without a generic name and the records
 * whose handling raises.
 */
module FdaLoader {
  import opened Wrappers
  import opened Seqs
  import opened Text
  import opened Records

  /** A value decoded by `json.load`. Numbers are integers in this model. */
  datatype Json =
    | JNull
    | JBool(b: bool)
    | JInt(i: int)
    | JStr(s: string)
    | JList(items: seq<Json>)
    | JObject(fields: seq<(string, Json)>)

  /** The exceptions a record can raise; the loader catches each one and skips the record. */
  datatype Raised = TypeError | AttributeError | KeyError

  /** Python truthiness of a decoded value. */
  predicate Truthy(j: Json) {
    match j
    case JNull => false
    case JBool(b) => b
    case JInt(i) => i != 0
    case JStr(s) => s != ""
    case JList(items) => items != []
    case JObject(fields) => fields != []
  }

  /** `d.get(key)`: the value of the last pair with that key, the one `json.load` keeps. */
  function Get(fields: seq<(string, Json)>, key: string): (r: Option<Json>)
    ensures r.None? <==> forall k :: 0 <= k < |fields| ==> fields[k].0 != key
    ensures r.Some? ==>
              exists k :: 0 <= k < |fields| && fields[k] == (key, r.value)
                && forall j :: k < j < |fields| ==> fields[j].0 != key
  {
    if fields == [] then None
    else if fields[|fields| - 1].0 == key then Some(fields[|fields| - 1].1)
    else Get(fields[..|fields| - 1], key)
  }

  /** `str(i)` for an integer. */
  function IntToString(i: int): string {
    if i < 0 then "-" + NatToString(-i) else NatToString(i)
  }

  /** `str(v)` of a decoded value; nested strings are quoted as `repr` quotes them. */
  function Str(j: Json): string
    decreases j, 1
  {
    match j
    case JStr(s) => s
    case _ => Repr(j)
  }

  /** `repr(v)` of a decoded value, without the escaping of special characters. */
  function Repr(j: Json): string
    decreases j, 0
  {
    match j
    case JNull => "None"
    case JBool(b) => if b then "True" else "False"
    case JInt(i) => IntToString(i)
    case JStr(s) => "'" + s + "'"
    case JList(items) =>
      "[" + Join(seq(|items|, k requires 0 <= k < |items| => Repr(items[k])), ", ") + "]"
    case JObject(fields) =>
      "{" + Join(seq(|fields|, k requires 0 <= k < |fields| => "'" + fields[k].0 + "': " + Repr(fields[k].1)), ", ") + "}"
  }

  /** Every item is a string. */
  predicate AllStrings(items: seq<Json>) {
    forall k :: 0 <= k < |items| ==> items[k].JStr?
  }

  function Strings(items: seq<Json>): (r: seq<string>)
    requires AllStrings(items)
    ensures |r| == |items|
    ensures forall k :: 0 <= k < |items| ==> items[k] == JStr(r[k])
  {
    seq(|items|, k requires 0 <= k < |items| => items[k].s)
  }

  /**
   * `_extract_text_field(record, field)`: nothing when the field is missing or falsy, the items
   * joined by single spaces when it is a list (a `TypeError` when an item is not a string), and
   * `str` of the value otherwise.
   */
  function ExtractTextField(record: seq<(string, Json)>, field: string): (r: Result<Option<string>, Raised>)
    ensures r.Err? <==> (Get(record, field).Some? && Get(record, field).value.JList?
                          && Get(record, field).value.items != [] && !AllStrings(Get(record, field).value.items))
    ensures r == Ok(None) <==> Get(record, field).None? || !Truthy(Get(record, field).value)
    ensures var v := Get(record, field);
      v.Some? && v.value.JList? && v.value.items != [] && AllStrings(v.value.items) ==>
        r == Ok(Some(Join(Strings(v.value.items), " ")))
    ensures var v := Get(record, field);
      v.Some? && Truthy(v.value) && !v.value.JList? ==> r == Ok(Some(Str(v.value)))
  {
    match Get(record, field)
    case None => Ok(None)
    case Some(v) =>
      if !Truthy(v) then Ok(None)
      else if v.JList? then
        if AllStrings(v.items) then Ok(Some(Join(Strings(v.items), " "))) else Err(TypeError)
      else Ok(Some(Str(v)))
  }

  /** A list of strings is flattened into its items separated by single spaces. */
  lemma TextFieldJoinsList(record: seq<(string, Json)>, field: string, words: seq<string>)
    requires words != []
    requires Get(record, field) == Some(JList(seq(|words|, k requires 0 <= k < |words| => JStr(words[k]))))
    ensures ExtractTextField(record, field) == Ok(Some(Join(words, " ")))
  {
    var items := seq(|words|, k requires 0 <= k < |words| => JStr(words[k]));
    assert Strings(items) == words;
  }

  // ---------------------------------------------------------------- pregnancy category

  /** The first of "category a", "category b", ..., "category x" the lower-cased text contains. */
  function CategoryFromText(textLower: string): (r: Option<string>)
    ensures r.Some? ==> r.value in ["A", "B", "C", "D", "X"]
    ensures r.None? <==> forall l :: l in "abcdx" ==> !Contains(textLower, "category " + [l])
  {
    assert "category " + ['a'] == "category a";
    assert "category " + ['b'] == "category b";
    assert "category " + ['c'] == "category c";
    assert "category " + ['d'] == "category d";
    assert "category " + ['x'] == "category x";
    if Contains(textLower, "category a") then Some("A")
    else if Contains(textLower, "category b") then Some("B")
    else if Contains(textLower, "category c") then Some("C")
    else if Contains(textLower, "category d") then Some("D")
    else if Contains(textLower, "category x") then Some("X")
    else None
  }

  /**
   * The letters are tried in the order a, b, c, d, x and the first one present wins, wherever it
   * stands in the text: a later letter is reported only when no earlier one occurs.
   */
  lemma CategoryFirstInOrder(textLower: string, letter: char)
    requires letter in "abcdx"
    requires CategoryFromText(textLower) == Some([letter - 32 as char])
    ensures Contains(textLower, "category " + [letter])
    ensures forall earlier :: earlier in "abcdx" && earlier < letter ==> !Contains(textLower, "category " + [earlier])
  {
    assert "category " + ['a'] == "category a";
    assert "category " + ['b'] == "category b";
    assert "category " + ['c'] == "category c";
    assert "category " + ['d'] == "category d";
    assert "category " + ['x'] == "category x";
  }

  /**
   * `_extract_pregnancy_category(record)`: the category named in the lower-cased pregnancy text,
   * nothing when there is no such text, and the error reading that text raises.
   */
  function ExtractPregnancyCategory(record: seq<(string, Json)>): (r: Result<Option<string>, Raised>)
    ensures r.Ok? && r.value.Some? ==> r.value.value in ["A", "B", "C", "D", "X"]
    ensures ExtractTextField(record, "pregnancy") == Ok(None) ==> r == Ok(None)
    ensures var t := ExtractTextField(record, "pregnancy");
      t.Ok? && t.value.Some? ==> r == Ok(CategoryFromText(Lower(t.value.value)))
    ensures ExtractTextField(record, "pregnancy").Err? ==> r == Err(ExtractTextField(record, "pregnancy").error)
  {
    match ExtractTextField(record, "pregnancy")
    case Err(e) => Err(e)
    case Ok(None) => Ok(None)
    case Ok(Some(text)) => if text == "" then Ok(None) else Ok(CategoryFromText(Lower(text)))
  }

  /** The pregnancy text is lower-cased first, so its case never changes the category. */
  lemma PregnancyCategoryIgnoresCase(record: seq<(string, Json)>, text: string)
    requires Get(record, "pregnancy") == Some(JStr(text))
    ensures ExtractPregnancyCategory(record)
         == ExtractPregnancyCategory(record + [("pregnancy", JStr(Lower(text)))])
  {
    var lowered := record + [("pregnancy", JStr(Lower(text)))];
    assert Get(lowered, "pregnancy") == Some(JStr(Lower(text)));
    LowerIdempotent(text);
    if text != "" {
      assert Lower(text)[0] == LowerChar(text[0]);
    }
  }

  // ---------------------------------------------------------------- one record

  /**
   * `openfda.get(key, [''])[0] if openfda.get(key) else None`: nothing for a missing or falsy
   * value, the first item of a list, the first character of a string, a `KeyError` for an object
   * (its keys are strings) and a `TypeError` for a number or `true`.
   */
  function FirstOf(openfda: seq<(string, Json)>, key: string): (r: Result<Option<Json>, Raised>)
    ensures r == Ok(None) <==> Get(openfda, key).None? || !Truthy(Get(openfda, key).value)
    ensures var v := Get(openfda, key);
      v.Some? && v.value.JList? && v.value.items != [] ==> r == Ok(Some(v.value.items[0]))
    ensures var v := Get(openfda, key);
      v.Some? && v.value.JStr? && v.value.s != "" ==> r == Ok(Some(JStr([v.value.s[0]])))
    ensures r.Err? <==> Get(openfda, key).Some? && Truthy(Get(openfda, key).value)
                         && !Get(openfda, key).value.JList? && !Get(openfda, key).value.JStr?
  {
    match Get(openfda, key)
    case None => Ok(None)
    case Some(v) =>
      if !Truthy(v) then Ok(None)
      else match v
        case JList(items) => Ok(Some(items[0]))
        case JStr(s) => Ok(Some(JStr([s[0]])))
        case JObject(_) => Err(KeyError)
        case _ => Err(TypeError)
  }

  /** `record.get('openfda', {})`, which must be a dictionary for the record to be read. */
  function OpenFda(record: seq<(string, Json)>): Result<seq<(string, Json)>, Raised> {
    match Get(record, "openfda")
    case None => Ok([])
    case Some(JObject(fields)) => Ok(fields)
    case Some(_) => Err(AttributeError)
  }

  /** A raw value stored in a text column: nothing for a missing value or `null`, else its text. */
  function AsText(v: Option<Json>): (r: Option<string>)
    ensures r.None? <==> v.None? || v.value.JNull?
    ensures v.Some? && v.value.JStr? ==> r == Some(v.value.s)
  {
    match v
    case None => None
    case Some(JNull) => None
    case Some(j) => Some(Str(j))
  }

  /**
   * `_parse_date(value)`: nothing for a missing or falsy value or a non-string; otherwise what
   * `strptime` makes of the string (the three formats tried in turn, nothing when none fits).
   */
  function ParseDate(v: Option<Json>, strptime: string -> Option<Timestamp>): Option<Timestamp> {
    match v
    case Some(JStr(s)) => if s == "" then None else strptime(s)
    case _ => None
  }

  /** Both results, in order: the first error when either raises. */
  function Both<T, U>(a: Result<T, Raised>, b: Result<U, Raised>): Result<(T, U), Raised> {
    if a.Err? then Err(a.error) else if b.Err? then Err(b.error) else Ok((a.value, b.value))
  }

  /** A truthy value never reads as empty text, so a truthy generic name is never "". */
  lemma StrOfTruthy(j: Json)
    requires Truthy(j)
    ensures Str(j) != ""
  {
    match j
    case JNull => assert false;
    case JBool(_) =>
    case JInt(_) =>
    case JStr(_) =>
    case JList(_) => assert Repr(j)[0] == '[';
    case JObject(_) => assert Repr(j)[0] == '{';
  }

  /**
   * One iteration of `process_drug_labels`: `Ok(None)` for a record whose generic name (the first
   * item) is missing or falsy, an error when reading the record raises, otherwise the medicine
   * built from it.
   */
  function LabelMedicine(record: Json, strptime: string -> Option<Timestamp>): (r: Result<Option<Medicine>, Raised>)
    ensures r.Ok? && r.value.Some? ==> r.value.value.genericName != ""
    ensures r.Ok? && r.value.Some? ==>
              && record.JObject? && OpenFda(record.fields).Ok?
              && FirstOf(OpenFda(record.fields).value, "brand_name").Ok?
              && r.value.value.brandName == AsText(FirstOf(OpenFda(record.fields).value, "brand_name").value)
  {
    if !record.JObject? then Err(AttributeError)
    else
      match OpenFda(record.fields)
      case Err(e) => Err(e)
      case Ok(openfda) =>
        match Both(FirstOf(openfda, "brand_name"), FirstOf(openfda, "generic_name"))
        case Err(e) => Err(e)
        case Ok((brand, generic)) =>
          if generic.None? || !Truthy(generic.value) then Ok(None)
          else
            StrOfTruthy(generic.value);
            match BuildMedicine(record.fields, openfda, AsText(brand), Str(generic.value), strptime)
            case Err(e) => Err(e)
            case Ok(m) => Ok(Some(m))
  }

  /** Some read of the label after the generic name raises. */
  predicate ReadRaises(rec: seq<(string, Json)>, openfda: seq<(string, Json)>) {
    || FirstOf(openfda, "manufacturer_name").Err? || FirstOf(openfda, "product_type").Err?
    || ExtractTextField(rec, "indications_and_usage").Err? || ExtractTextField(rec, "dosage_and_administration").Err?
    || ExtractTextField(rec, "warnings").Err? || ExtractTextField(rec, "adverse_reactions").Err?
    || ExtractTextField(rec, "contraindications").Err? || ExtractTextField(rec, "drug_interactions").Err?
    || ExtractTextField(rec, "active_ingredient").Err?
    || FirstOf(openfda, "product_ndc").Err? || FirstOf(openfda, "route").Err?
    || ExtractPregnancyCategory(rec).Err?
  }

  /**
   * The `Medicine(...)` call for a record with a generic name: the remaining openfda firsts, the
   * label text fields and the pregnancy category (not yet stored: key 0, no timestamps). It raises
   * exactly when one of those reads raises; otherwise each column holds what its read returned.
   */
  function BuildMedicine(rec: seq<(string, Json)>, openfda: seq<(string, Json)>, brandName: Option<string>,
                         genericName: string, strptime: string -> Option<Timestamp>): (r: Result<Medicine, Raised>)
    ensures r.Err? <==> ReadRaises(rec, openfda)
    ensures r.Ok? ==> r.value.id == 0 && r.value.brandName == brandName && r.value.genericName == genericName
    ensures r.Ok? ==>
              && r.value.manufacturer == AsText(FirstOf(openfda, "manufacturer_name").value)
              && r.value.productType == AsText(FirstOf(openfda, "product_type").value)
              && r.value.strength == AsText(FirstOf(openfda, "product_ndc").value)
              && r.value.routeOfAdministration == AsText(FirstOf(openfda, "route").value)
    ensures r.Ok? ==>
              && r.value.indicationsAndUsage == ExtractTextField(rec, "indications_and_usage").value
              && r.value.dosageAndAdministration == ExtractTextField(rec, "dosage_and_administration").value
              && r.value.warnings == ExtractTextField(rec, "warnings").value
              && r.value.adverseReactions == ExtractTextField(rec, "adverse_reactions").value
              && r.value.contraindications == ExtractTextField(rec, "contraindications").value
              && r.value.drugInteractions == ExtractTextField(rec, "drug_interactions").value
              && r.value.activeIngredients == ExtractTextField(rec, "active_ingredient").value
              && r.value.pregnancyCategory == ExtractPregnancyCategory(rec).value
    ensures r.Ok? ==>
              && r.value.fdaApplicationNumber == AsText(Get(rec, "application_number"))
              && r.value.fdaApprovalDate == ParseDate(Get(rec, "effective_time"), strptime)
    ensures r.Ok? ==>
              && r.value.tabletShape.None? && r.value.tabletColor.None? && r.value.tabletSize.None?
              && r.value.imprintCode.None? && r.value.pediatricUse.None? && r.value.geriatricUse.None?
              && r.value.createdAt.None? && r.value.updatedAt.None?
  {
    var firsts := Both(Both(FirstOf(openfda, "manufacturer_name"), FirstOf(openfda, "product_type")),
                       Both(FirstOf(openfda, "product_ndc"), FirstOf(openfda, "route")));
    var texts := Both(Both(Both(ExtractTextField(rec, "indications_and_usage"),
                                ExtractTextField(rec, "dosage_and_administration")),
                           Both(ExtractTextField(rec, "warnings"), ExtractTextField(rec, "adverse_reactions"))),
                      Both(Both(ExtractTextField(rec, "contraindications"), ExtractTextField(rec, "drug_interactions")),
                           Both(ExtractTextField(rec, "active_ingredient"), ExtractPregnancyCategory(rec))));
    match Both(firsts, texts)
    case Err(e) => Err(e)
    case Ok((((manufacturer, productType), (strength, route)),
             (((indications, dosage), (warnings, adverse)), ((contra, interactions), (active, pregnancy))))) =>
      Ok(Medicine(
        0, brandName, genericName, AsText(manufacturer), AsText(productType),
        indications, dosage, warnings, adverse, contra, interactions,
        None, None, None, None,
        active, AsText(strength), AsText(route), pregnancy, None, None,
        AsText(Get(rec, "application_number")), ParseDate(Get(rec, "effective_time"), strptime),
        None, None))
  }

  /**
   * A record whose generic name is missing, falsy, or a list whose first item is falsy (`[null]`,
   * `[""]`, `[0]`, ...) is skipped; only an error reading the brand name, which comes first, is
   * raised instead.
   */
  lemma NoGenericNameSkipped(record: Json, strptime: string -> Option<Timestamp>, openfda: seq<(string, Json)>)
    requires record.JObject? && OpenFda(record.fields) == Ok(openfda)
    requires var g := Get(openfda, "generic_name");
      g.None? || !Truthy(g.value) || (g.value.JList? && g.value.items != [] && !Truthy(g.value.items[0]))
    ensures var brand := FirstOf(openfda, "brand_name");
      LabelMedicine(record, strptime) == if brand.Err? then Err(brand.error) else Ok(None)
  {
  }

  /**
   * A record is kept when it is an object, its openfda entry is one, the brand name reads, the
   * first generic name is truthy and no later read raises: the medicine is then the one built
   * from those reads.
   */
  lemma LabelMedicineKeeps(record: Json, strptime: string -> Option<Timestamp>, openfda: seq<(string, Json)>,
                           generic: Json)
    requires record.JObject? && OpenFda(record.fields) == Ok(openfda)
    requires FirstOf(openfda, "brand_name").Ok?
    requires FirstOf(openfda, "generic_name") == Ok(Some(generic)) && Truthy(generic)
    requires !ReadRaises(record.fields, openfda)
    ensures var brandName := AsText(FirstOf(openfda, "brand_name").value);
      && BuildMedicine(record.fields, openfda, brandName, Str(generic), strptime).Ok?
      && LabelMedicine(record, strptime) == Ok(Some(BuildMedicine(record.fields, openfda, brandName, Str(generic), strptime).value))
  {
  }

  /**
   * The `except Exception: continue` half: a record raises exactly when it is not an object, its
   * openfda entry is not one, reading either name raises, or the generic name is truthy and a later
   * read raises. A raising record therefore never yields a medicine.
   */
  lemma LabelMedicineRaises(record: Json, strptime: string -> Option<Timestamp>)
    ensures !record.JObject? ==> LabelMedicine(record, strptime) == Err(AttributeError)
    ensures record.JObject? && OpenFda(record.fields).Err? ==>
              LabelMedicine(record, strptime) == Err(OpenFda(record.fields).error)
    ensures record.JObject? && OpenFda(record.fields).Ok? ==>
              var o := OpenFda(record.fields).value;
              var generic := FirstOf(o, "generic_name");
              LabelMedicine(record, strptime).Err? <==>
                || FirstOf(o, "brand_name").Err? || generic.Err?
                || (generic.value.Some? && Truthy(generic.value.value) && ReadRaises(record.fields, o))
  {
  }

  /** A record is skipped without error only for the reason above: a missing or falsy generic name. */
  lemma LabelMedicineSkipsOnlyWithoutGenericName(record: Json, strptime: string -> Option<Timestamp>)
    requires LabelMedicine(record, strptime) == Ok(None)
    ensures record.JObject? && OpenFda(record.fields).Ok?
    ensures var generic := FirstOf(OpenFda(record.fields).value, "generic_name");
      generic.Ok? && (generic.value.None? || !Truthy(generic.value.value))
  {
  }

  /** The brand name is the first item of a non-empty `brand_name` list, nothing when that item is `null`. */
  lemma BrandNameIsFirstItem(record: Json, strptime: string -> Option<Timestamp>, openfda: seq<(string, Json)>,
                             items: seq<Json>)
    requires record.JObject? && OpenFda(record.fields) == Ok(openfda)
    requires Get(openfda, "brand_name") == Some(JList(items)) && items != []
    requires LabelMedicine(record, strptime).Ok? && LabelMedicine(record, strptime).value.Some?
    ensures LabelMedicine(record, strptime).value.value.brandName == if items[0].JNull? then None else Some(Str(items[0]))
  {
    assert FirstOf(openfda, "brand_name") == Ok(Some(items[0]));
  }

  // ---------------------------------------------------------------- all records

  /** The medicine a record yields, if any: a raising record yields none. */
  function Yield(strptime: string -> Option<Timestamp>): Json -> Option<Medicine> {
    (record: Json) => var r := LabelMedicine(record, strptime); if r.Ok? then r.value else None
  }

  /** The medicines read from the records, in record order. */
  function LoadedMedicines(data: seq<Json>, strptime: string -> Option<Timestamp>): (r: seq<Medicine>)
    ensures |r| <= |data|
  {
    Collect(data, Yield(strptime))
  }

  /** Loading keeps record order: the medicines of two batches are those of each batch, in turn. */
  lemma LoadedMedicinesAppend(a: seq<Json>, b: seq<Json>, strptime: string -> Option<Timestamp>)
    ensures LoadedMedicines(a + b, strptime) == LoadedMedicines(a, strptime) + LoadedMedicines(b, strptime)
  {
    CollectAppend(a, b, Yield(strptime));
  }

  /** A record that is read successfully contributes its medicine. */
  lemma LoadedMedicineIncluded(data: seq<Json>, strptime: string -> Option<Timestamp>, k: nat, m: Medicine)
    requires k < |data| && LabelMedicine(data[k], strptime) == Ok(Some(m))
    ensures m in LoadedMedicines(data, strptime)
  {
    CollectIncludes(data, Yield(strptime), k);
  }

  /** Every loaded medicine comes from a record read successfully, and has a generic name. */
  lemma LoadedMedicineFromRecord(data: seq<Json>, strptime: string -> Option<Timestamp>, m: Medicine)
    requires m in LoadedMedicines(data, strptime)
    ensures m.genericName != ""
    ensures exists k :: 0 <= k < |data| && LabelMedicine(data[k], strptime) == Ok(Some(m))
  {
    CollectFrom(data, Yield(strptime), m);
  }

  /**
   * `process_drug_labels` after the file is read: each record that yields a medicine is appended,
   * a record without a generic name or whose handling raises is skipped.
   */
  method ProcessDrugLabels(data: seq<Json>, strptime: string -> Option<Timestamp>) returns (medicines: seq<Medicine>)
    ensures medicines == LoadedMedicines(data, strptime)
  {
    medicines := [];
    for i := 0 to |data|
      invariant medicines == Collect(data[..i], Yield(strptime))
    {
      assert data[..i + 1][..i] == data[..i];
      match LabelMedicine(data[i], strptime)
      case Ok(Some(medicine)) =>
        medicines := medicines + [medicine];
      case _ =>
    }
    assert data[..|data|] == data;
  }
}
