/**
 * The read-only knowledge-store accessor (MedicineService in medicine_service.py), restated
 * over an in-memory `Store`: `ilike('%q%')` is lower-case substring containment, `.first()`
 * is the first row in storage order, `in_` is exact membership.
 */
module MedicineService {
  import opened Wrappers
  import opened Text
  import opened Seqs
  import opened Records

  /** `name.ilike('%q%')` on a NOT NULL column. */
  predicate NameLike(name: string, q: string) {
    Contains(Lower(name), Lower(q))
  }

  /** `field.ilike('%q%')` on a nullable column: NULL never matches. */
  predicate FieldLike(field: Option<string>, q: string) {
    field.Some? && NameLike(field.value, q)
  }

  // ---------------------------------------------------------------- get_medicines

  /** The search filter of `get_medicines`: brand, generic name, manufacturer or active ingredients. */
  predicate MatchesSearch(m: Medicine, search: string) {
    FieldLike(m.brandName, search) || NameLike(m.genericName, search)
    || FieldLike(m.manufacturer, search) || FieldLike(m.activeIngredients, search)
  }

  function SearchFilter(search: string): Medicine -> bool {
    (m: Medicine) => MatchesSearch(m, search)
  }

  /** The query of `get_medicines` before pagination: no filter for an empty search string. */
  function SearchResults(st: Store, search: string): (r: seq<Medicine>)
    ensures search == "" ==> r == st.medicines
    ensures search != "" ==> r == Filter(st.medicines, SearchFilter(search))
    ensures forall m :: m in r <==> m in st.medicines && (search == "" || MatchesSearch(m, search))
  {
    if search == "" then st.medicines else Filter(st.medicines, SearchFilter(search))
  }

  /** The dictionary `get_medicines` returns; `pages` is negative for a negative `per_page`. */
  datatype MedicinePage = MedicinePage(items: seq<Medicine>, total: nat, pages: int)

  /** What `get_medicines` raises: `math.ceil(total / 0)` for `per_page == 0`. */
  datatype PageError = ZeroDivisionError

  /** `math.ceil(a / b)` for a natural `a` and a positive `b`. */
  function CeilDiv(a: nat, b: nat): (q: nat)
    requires b > 0
    ensures q * b >= a
    ensures q == 0 || (q - 1) * b < a
  {
    var q := (a + b - 1) / b;
    assert q * b + (a + b - 1) % b == a + b - 1;
    q
  }

  /**
   * `math.ceil(a / b)` for a natural `a` and any non-zero `b`: the least `q` with `q >= a / b`,
   * which for a negative `b` is `-floor(a / -b)`.
   */
  function Ceiling(a: nat, b: int): (q: int)
    requires b != 0
    ensures b > 0 ==> q * b >= a && (q - 1) * b < a
    ensures b < 0 ==> q * b <= a && a < (q - 1) * b
  {
    if b > 0 then
      var q := CeilDiv(a, b);
      assert q != 0 ==> (q - 1) * b < a;
      q
    else
      var d := a / -b;
      assert d * -b + a % -b == a;
      -d
  }

  /**
   * The slice `query.offset(offset).limit(limit)` takes from `all` on SQLite: a negative offset
   * counts as 0 and a negative limit as no limit.
   */
  function Window<T>(all: seq<T>, offset: int, limit: int): (r: seq<T>)
    ensures var start := if offset < 0 then 0 else offset;
      && (start >= |all| ==> r == [])
      && (start < |all| ==> |r| == if limit < 0 || |all| - start < limit then |all| - start else limit)
      && forall k :: 0 <= k < |r| ==> r[k] == all[start + k]
  {
    var lo := if offset < 0 then 0 else if offset < |all| then offset else |all|;
    var hi := if limit < 0 || lo + limit > |all| then |all| else lo + limit;
    all[lo..hi]
  }

  /**
   * `get_medicines(page, per_page, search)`: `total` counts every match, `items` is the window of
   * at most `per_page` matches starting at `(page - 1) * per_page`, `pages` is the ceiling of
   * `total / per_page`; `per_page == 0` raises ZeroDivisionError.
   */
  function GetMedicines(st: Store, page: int, perPage: int, search: string): (r: Result<MedicinePage, PageError>)
    ensures r.Err? <==> perPage == 0
    ensures r.Ok? ==> r.value.total == |SearchResults(st, search)|
    ensures r.Ok? && perPage > 0 ==>
              r.value.pages * perPage >= r.value.total && (r.value.pages - 1) * perPage < r.value.total
    ensures r.Ok? && perPage < 0 ==>
              r.value.pages * perPage <= r.value.total && r.value.total < (r.value.pages - 1) * perPage
    ensures r.Ok? && perPage > 0 ==> |r.value.items| <= perPage
    ensures r.Ok? ==> r.value.items == Window(SearchResults(st, search), (page - 1) * perPage, perPage)
  {
    var all := SearchResults(st, search);
    var items := Window(all, (page - 1) * perPage, perPage);
    if perPage == 0 then Err(ZeroDivisionError)
    else Ok(MedicinePage(items, |all|, Ceiling(|all|, perPage)))
  }

  /** The page and position arithmetic of `EveryMatchOnItsPage`. */
  lemma PagePosition(k: nat, perPage: int, total: nat)
    requires perPage > 0 && k < total
    ensures var start := (k / perPage + 1 - 1) * perPage;
      && 0 <= start && start + k % perPage == k && 0 <= k % perPage < perPage
      && k / perPage + 1 <= Ceiling(total, perPage)
  {
    var q, c := k / perPage, Ceiling(total, perPage);
    assert q * perPage + k % perPage == k;
    assert k < (q + 1) * perPage;
    if c <= q {
      assert false;
    }
  }

  /** Paging misses no match: the k-th match is item `k % per_page` of page `k / per_page + 1`. */
  lemma EveryMatchOnItsPage(st: Store, perPage: int, search: string, k: nat)
    requires perPage > 0 && k < |SearchResults(st, search)|
    ensures var page := k / perPage + 1;
      var r := GetMedicines(st, page, perPage, search).value;
      && 1 <= page <= r.pages
      && k % perPage < |r.items| && r.items[k % perPage] == SearchResults(st, search)[k]
  {
    var all := SearchResults(st, search);
    var page, m := k / perPage + 1, k % perPage;
    PagePosition(k, perPage, |all|);
    var w := Window(all, (page - 1) * perPage, perPage);
    assert GetMedicines(st, page, perPage, search) == Ok(MedicinePage(w, |all|, Ceiling(|all|, perPage)));
    assert |w| > m;
  }

  // ---------------------------------------------------------------- single-row lookups

  function HasId(id: int): Medicine -> bool {
    (m: Medicine) => m.id == id
  }

  /** `get_medicine_by_id`: the first medicine with that id, or None. */
  function GetMedicineById(st: Store, id: int): (r: Option<Medicine>)
    ensures r.None? <==> forall k :: 0 <= k < |st.medicines| ==> st.medicines[k].id != id
    ensures r.Some? ==> exists k :: 0 <= k < |st.medicines| && st.medicines[k] == r.value && r.value.id == id
  {
    match FirstIndex(st.medicines, HasId(id))
    case Some(k) => Some(st.medicines[k])
    case None => None
  }

  predicate NamedLike(m: Medicine, name: string) {
    FieldLike(m.brandName, name) || NameLike(m.genericName, name)
  }

  function NameFilter(name: string): Medicine -> bool {
    (m: Medicine) => NamedLike(m, name)
  }

  /** `get_medicine_by_name`: the first medicine whose brand or generic name contains `name`, ignoring case. */
  function GetMedicineByName(st: Store, name: string): (r: Option<Medicine>)
    ensures r.None? <==> forall k :: 0 <= k < |st.medicines| ==> !NamedLike(st.medicines[k], name)
    ensures r.Some? ==>
      exists k :: 0 <= k < |st.medicines| && st.medicines[k] == r.value
        && NamedLike(r.value, name) && forall j :: 0 <= j < k ==> !NamedLike(st.medicines[j], name)
  {
    match FirstIndex(st.medicines, NameFilter(name))
    case Some(k) => Some(st.medicines[k])
    case None => None
  }

  function SymptomLike(q: string): Symptom -> bool {
    (s: Symptom) => NameLike(s.name, q)
  }

  /** `query(Symptom).filter(Symptom.name.ilike('%q%')).first()`. */
  function ResolveSymptom(st: Store, q: string): (r: Option<Symptom>)
    ensures r.None? <==> forall k :: 0 <= k < |st.symptoms| ==> !NameLike(st.symptoms[k].name, q)
    ensures r.Some? ==>
      exists k :: 0 <= k < |st.symptoms| && st.symptoms[k] == r.value
        && NameLike(r.value.name, q) && forall j :: 0 <= j < k ==> !NameLike(st.symptoms[j].name, q)
  {
    match FirstIndex(st.symptoms, SymptomLike(q))
    case Some(k) => Some(st.symptoms[k])
    case None => None
  }

  function ConditionLike(q: string): PatientCondition -> bool {
    (c: PatientCondition) => NameLike(c.name, q)
  }

  /** `query(PatientCondition).filter(PatientCondition.name.ilike('%q%')).first()`. */
  function ResolveCondition(st: Store, q: string): (r: Option<PatientCondition>)
    ensures r.None? <==> forall k :: 0 <= k < |st.conditions| ==> !NameLike(st.conditions[k].name, q)
    ensures r.Some? ==>
      exists k :: 0 <= k < |st.conditions| && st.conditions[k] == r.value
        && NameLike(r.value.name, q) && forall j :: 0 <= j < k ==> !NameLike(st.conditions[j].name, q)
  {
    match FirstIndex(st.conditions, ConditionLike(q))
    case Some(k) => Some(st.conditions[k])
    case None => None
  }

  function ConditionHasId(id: int): PatientCondition -> bool {
    (c: PatientCondition) => c.id == id
  }

  /** `query(PatientCondition).filter(PatientCondition.id == id).first()`. */
  function ConditionById(st: Store, id: int): (r: Option<PatientCondition>)
    ensures r.None? <==> forall k :: 0 <= k < |st.conditions| ==> st.conditions[k].id != id
    ensures r.Some? ==> r.value in st.conditions && r.value.id == id
  {
    match FirstIndex(st.conditions, ConditionHasId(id))
    case Some(k) => Some(st.conditions[k])
    case None => None
  }

  // ---------------------------------------------------------------- edges

  predicate EdgeLinks(e: MedicineSymptom, medicineId: int, symptomId: int) {
    e.medicineId == medicineId && e.symptomId == symptomId
  }

  function EdgeFor(medicineId: int, symptomId: int): MedicineSymptom -> bool {
    (e: MedicineSymptom) => EdgeLinks(e, medicineId, symptomId)
  }

  /** Every stored effectiveness score is a 0-1 score, as the column documents. */
  ghost predicate ScoresInUnitRange(st: Store) {
    forall k :: 0 <= k < |st.medicineSymptoms| ==>
      0.0 <= st.medicineSymptoms[k].effectivenessScore <= 1.0
  }

  /** `get_medicine_effectiveness`: the score of the first (medicine, symptom) edge, 0.0 without one. */
  function GetMedicineEffectiveness(st: Store, medicineId: int, symptomId: int): (r: real)
    ensures (forall k :: 0 <= k < |st.medicineSymptoms| ==> !EdgeLinks(st.medicineSymptoms[k], medicineId, symptomId))
      ==> r == 0.0
    ensures (exists k :: 0 <= k < |st.medicineSymptoms| && EdgeLinks(st.medicineSymptoms[k], medicineId, symptomId))
      ==>
        exists k :: 0 <= k < |st.medicineSymptoms| && EdgeLinks(st.medicineSymptoms[k], medicineId, symptomId)
          && r == st.medicineSymptoms[k].effectivenessScore
          && forall j :: 0 <= j < k ==> !EdgeLinks(st.medicineSymptoms[j], medicineId, symptomId)
    ensures ScoresInUnitRange(st) ==> 0.0 <= r <= 1.0
  {
    match FirstIndex(st.medicineSymptoms, EdgeFor(medicineId, symptomId))
    case Some(k) => st.medicineSymptoms[k].effectivenessScore
    case None => 0.0
  }

  predicate ContraLinks(c: MedicineContraindication, medicineId: int, conditionId: int) {
    c.medicineId == medicineId && c.conditionId == conditionId
  }

  function ContraFor(medicineId: int, conditionId: int): MedicineContraindication -> bool {
    (c: MedicineContraindication) => ContraLinks(c, medicineId, conditionId)
  }

  /** The first (medicine, condition) contraindication edge, in storage order. */
  function FindContraindication(st: Store, medicineId: int, conditionId: int): (r: Option<MedicineContraindication>)
    ensures r.None? <==> forall k :: 0 <= k < |st.contraindications| ==> !ContraLinks(st.contraindications[k], medicineId, conditionId)
    ensures r.Some? ==>
      exists k :: 0 <= k < |st.contraindications| && st.contraindications[k] == r.value
        && ContraLinks(r.value, medicineId, conditionId)
        && forall j :: 0 <= j < k ==> !ContraLinks(st.contraindications[j], medicineId, conditionId)
  {
    match FirstIndex(st.contraindications, ContraFor(medicineId, conditionId))
    case Some(k) => Some(st.contraindications[k])
    case None => None
  }

  /** `is_medicine_contraindicated`: some edge joins the medicine to the condition. */
  function IsMedicineContraindicated(st: Store, medicineId: int, conditionId: int): (r: bool)
    ensures r <==> exists k :: 0 <= k < |st.contraindications| && ContraLinks(st.contraindications[k], medicineId, conditionId)
  {
    FindContraindication(st, medicineId, conditionId).Some?
  }

  // ---------------------------------------------------------------- search_medicines_by_symptoms

  /** The ids of a list of symptoms (`[s.id for s in symptom_objects]`). */
  function SymptomIds(ss: seq<Symptom>): (r: seq<int>)
    ensures forall id :: id in r <==> exists s :: s in ss && s.id == id
  {
    if ss == [] then []
    else
      assert ss == ss[..|ss| - 1] + [ss[|ss| - 1]];
      SymptomIds(ss[..|ss| - 1]) + [ss[|ss| - 1].id]
  }

  /** The medicine ids of a list of edges (`[ms.medicine_id for ms in medicine_symptoms]`). */
  function EdgeMedicineIds(es: seq<MedicineSymptom>): (r: seq<int>)
    ensures forall id :: id in r <==> exists e :: e in es && e.medicineId == id
  {
    if es == [] then []
    else
      assert es == es[..|es| - 1] + [es[|es| - 1]];
      EdgeMedicineIds(es[..|es| - 1]) + [es[|es| - 1].medicineId]
  }

  function NameIn(names: seq<string>): Symptom -> bool {
    (s: Symptom) => s.name in names
  }

  function ActiveEdgeTo(symptomIds: seq<int>): MedicineSymptom -> bool {
    (e: MedicineSymptom) => e.symptomId in symptomIds && !e.contraindicated
  }

  function IdIn(ids: seq<int>): Medicine -> bool {
    (m: Medicine) => m.id in ids
  }

  /**
   * A medicine treats one of the named symptoms: some non-contraindicated edge joins it to a
   * stored symptom whose name equals one of `names` exactly.
   */
  ghost predicate TreatsNamedSymptom(st: Store, medicineId: int, names: seq<string>) {
    exists e, s :: e in st.medicineSymptoms && s in st.symptoms && s.name in names
      && e.symptomId == s.id && e.medicineId == medicineId && !e.contraindicated
  }

  ghost function TreatsNamed(st: Store, names: seq<string>): Medicine -> bool {
    (m: Medicine) => TreatsNamedSymptom(st, m.id, names)
  }

  /**
   * `search_medicines_by_symptoms`: the stored medicines, in storage order, that some
   * non-contraindicated edge joins to a symptom named exactly as one of `names`.
   */
  function SearchMedicinesBySymptoms(st: Store, names: seq<string>): (r: seq<Medicine>)
    ensures names == [] ==> r == []
    ensures r == Filter(st.medicines, TreatsNamed(st, names))
    ensures forall m :: m in r <==> m in st.medicines && TreatsNamedSymptom(st, m.id, names)
  {
    if names == [] then
      FilterNone(st.medicines, TreatsNamed(st, names));
      []
    else
      var symptomIds := SymptomIds(Filter(st.symptoms, NameIn(names)));
      if symptomIds == [] then
        FilterNone(st.medicines, TreatsNamed(st, names));
        []
      else
        var medicineIds := EdgeMedicineIds(Filter(st.medicineSymptoms, ActiveEdgeTo(symptomIds)));
        if medicineIds == [] then
          FilterNone(st.medicines, TreatsNamed(st, names));
          []
        else
          assert forall m :: IdIn(medicineIds)(m) == TreatsNamed(st, names)(m) by {
            forall m ensures IdIn(medicineIds)(m) == TreatsNamed(st, names)(m) {
              if TreatsNamedSymptom(st, m.id, names) {
                var e, s :| e in st.medicineSymptoms && s in st.symptoms && s.name in names
                  && e.symptomId == s.id && e.medicineId == m.id && !e.contraindicated;
                assert s in Filter(st.symptoms, NameIn(names));
                assert e in Filter(st.medicineSymptoms, ActiveEdgeTo(symptomIds));
              }
            }
          }
          FilterCongruent(st.medicines, IdIn(medicineIds), TreatsNamed(st, names));
          Filter(st.medicines, IdIn(medicineIds))
  }

  /** With unique medicine ids, every candidate is returned exactly once. */
  lemma SearchBySymptomsDistinct(st: Store, names: seq<string>)
    requires Valid(st)
    ensures Distinct(SearchMedicinesBySymptoms(st, names))
  {
    assert Distinct(st.medicines) by {
      forall i, j | 0 <= i < j < |st.medicines| ensures st.medicines[i] != st.medicines[j] {
        assert st.medicines[i].id != st.medicines[j].id;
      }
    }
    FilterDistinct(st.medicines, TreatsNamed(st, names));
  }

  function ExactName(name: string): Symptom -> bool {
    (s: Symptom) => s.name == name
  }

  /** Symptom names are unique, so the exact-name query `Symptom.name == name` finds at most one row. */
  lemma ExactSymptomNameFindsAtMostOne(st: Store, name: string)
    requires Valid(st)
    ensures |Filter(st.symptoms, ExactName(name))| <= 1
  {
    FilterAtMostOne(st.symptoms, ExactName(name));
  }

  // ---------------------------------------------------------------- get_medicines_by_condition

  function ContraMedicineIds(cs: seq<MedicineContraindication>): (r: seq<int>)
    ensures forall id :: id in r <==> exists c :: c in cs && c.medicineId == id
  {
    if cs == [] then []
    else
      assert cs == cs[..|cs| - 1] + [cs[|cs| - 1]];
      ContraMedicineIds(cs[..|cs| - 1]) + [cs[|cs| - 1].medicineId]
  }

  function ForCondition(conditionId: int): MedicineContraindication -> bool {
    (c: MedicineContraindication) => c.conditionId == conditionId
  }

  function IdNotIn(ids: seq<int>): Medicine -> bool {
    (m: Medicine) => m.id !in ids
  }

  function NotContraindicatedFor(st: Store, conditionId: int): Medicine -> bool {
    (m: Medicine) => !IsMedicineContraindicated(st, m.id, conditionId)
  }

  /**
   * `get_medicines_by_condition`: [] when the name resolves to no condition; otherwise every
   * stored medicine, in storage order, without a contraindication edge to the resolved condition.
   */
  function GetMedicinesByCondition(st: Store, name: string): (r: seq<Medicine>)
    ensures ResolveCondition(st, name).None? ==> r == []
    ensures ResolveCondition(st, name).Some? ==>
      r == Filter(st.medicines, NotContraindicatedFor(st, ResolveCondition(st, name).value.id))
    ensures ResolveCondition(st, name).Some? ==> forall m :: m in r <==>
      m in st.medicines && !IsMedicineContraindicated(st, m.id, ResolveCondition(st, name).value.id)
  {
    match ResolveCondition(st, name)
    case None => []
    case Some(c) =>
      var ids := ContraMedicineIds(Filter(st.contraindications, ForCondition(c.id)));
      assert forall m :: IdNotIn(ids)(m) == NotContraindicatedFor(st, c.id)(m) by {
        forall m ensures IdNotIn(ids)(m) == NotContraindicatedFor(st, c.id)(m) {
          if IsMedicineContraindicated(st, m.id, c.id) {
            var k :| 0 <= k < |st.contraindications| && ContraLinks(st.contraindications[k], m.id, c.id);
            assert st.contraindications[k] in Filter(st.contraindications, ForCondition(c.id));
          }
          if m.id in ids {
            var x :| x in Filter(st.contraindications, ForCondition(c.id)) && x.medicineId == m.id;
            var k :| 0 <= k < |st.contraindications| && st.contraindications[k] == x;
            assert ContraLinks(st.contraindications[k], m.id, c.id);
          }
        }
      }
      FilterCongruent(st.medicines, IdNotIn(ids), NotContraindicatedFor(st, c.id));
      if ids == [] then
        FilterCongruent(st.medicines, IdNotIn(ids), (m: Medicine) => true);
        FilterAll(st.medicines);
        st.medicines
      else Filter(st.medicines, IdNotIn(ids))
  }

  /** Filtering on a predicate that always holds returns every row. */
  lemma {:induction false} FilterAll(s: seq<Medicine>)
    ensures Filter(s, (m: Medicine) => true) == s
  {
    if s != [] {
      var init, last := s[..|s| - 1], s[|s| - 1];
      FilterAll(init);
      assert s == init + [last];
      FilterAppend(init, [last], (m: Medicine) => true);
      FilterSingleton(last, (m: Medicine) => true);
    }
  }

  // ---------------------------------------------------------------- get_medicine_contraindications

  /** One element of the list `get_medicine_contraindications` returns. */
  datatype ContraindicationEntry = ContraindicationEntry(
    condition: PatientConditionView, severity: string, notes: Option<string>)

  function OfMedicine(medicineId: int): MedicineContraindication -> bool {
    (c: MedicineContraindication) => c.medicineId == medicineId
  }

  /** The contraindication rows of one medicine, in storage order. */
  function EdgesOfMedicine(st: Store, medicineId: int): seq<MedicineContraindication> {
    Filter(st.contraindications, OfMedicine(medicineId))
  }

  /** The entries built from `edges`: one per edge whose condition id resolves, in order. */
  function ContraindicationEntries(st: Store, edges: seq<MedicineContraindication>): (r: seq<ContraindicationEntry>)
    ensures |r| <= |edges|
  {
    if edges == [] then []
    else
      var c := edges[|edges| - 1];
      var prefix := ContraindicationEntries(st, edges[..|edges| - 1]);
      match ConditionById(st, c.conditionId)
      case Some(cond) => prefix + [ContraindicationEntry(PatientConditionToDict(cond), c.severity, c.notes)]
      case None => prefix
  }

  /**
   * When every edge's condition is stored, there is one entry per edge, in order, carrying the
   * condition's dictionary and the edge's severity and notes.
   */
  lemma {:induction false} ContraindicationEntriesComplete(st: Store, edges: seq<MedicineContraindication>)
    requires forall k :: 0 <= k < |edges| ==> ConditionById(st, edges[k].conditionId).Some?
    ensures |ContraindicationEntries(st, edges)| == |edges|
    ensures forall k :: 0 <= k < |edges| ==> ContraindicationEntries(st, edges)[k] == ContraindicationEntry(
      PatientConditionToDict(ConditionById(st, edges[k].conditionId).value), edges[k].severity, edges[k].notes)
  {
    if edges != [] {
      var init := edges[..|edges| - 1];
      assert forall k :: 0 <= k < |init| ==> init[k] == edges[k];
      ContraindicationEntriesComplete(st, init);
    }
  }

  /** An edge whose condition id names a stored condition adds its entry at the end, whatever came before. */
  lemma ContraindicationEntriesAppendsKnown(st: Store, edges: seq<MedicineContraindication>, c: MedicineContraindication,
                                            cond: PatientCondition)
    requires ConditionById(st, c.conditionId) == Some(cond)
    ensures ContraindicationEntries(st, edges + [c])
              == ContraindicationEntries(st, edges) + [ContraindicationEntry(PatientConditionToDict(cond), c.severity, c.notes)]
  {
    assert (edges + [c])[..|edges|] == edges;
  }

  /** An edge whose condition id names no stored condition contributes nothing. */
  lemma ContraindicationEntriesSkipsUnknown(st: Store, edges: seq<MedicineContraindication>, c: MedicineContraindication)
    requires ConditionById(st, c.conditionId).None?
    ensures ContraindicationEntries(st, edges + [c]) == ContraindicationEntries(st, edges)
  {
    assert (edges + [c])[..|edges|] == edges;
  }

  /**
   * `get_medicine_contraindications`: walks the medicine's contraindication rows and, for each
   * whose condition is stored, appends the condition's dictionary with the row's severity and notes.
   */
  method GetMedicineContraindications(st: Store, medicineId: int) returns (result: seq<ContraindicationEntry>)
    ensures result == ContraindicationEntries(st, EdgesOfMedicine(st, medicineId))
  {
    var contraindications := EdgesOfMedicine(st, medicineId);
    result := [];
    for i := 0 to |contraindications|
      invariant result == ContraindicationEntries(st, contraindications[..i])
    {
      var c := contraindications[i];
      assert contraindications[..i + 1][..i] == contraindications[..i];
      var condition := ConditionById(st, c.conditionId);
      if condition.Some? {
        result := result + [ContraindicationEntry(PatientConditionToDict(condition.value), c.severity, c.notes)];
      }
    }
    assert contraindications[..|contraindications|] == contraindications;
  }

  // ---------------------------------------------------------------- get_medicine_safety_info

  /**
   * The (condition, edge) pairs for the patient's conditions, in input order: one per condition name
   * that resolves by substring and has a contraindication edge to the medicine.
   */
  function MatchedContraindications(st: Store, medicineId: int, conditions: seq<string>)
    : (r: seq<(PatientCondition, MedicineContraindication)>)
    ensures |r| <= |conditions|
    ensures forall k :: 0 <= k < |r| ==>
      r[k].0 in st.conditions && r[k].1 in st.contraindications && ContraLinks(r[k].1, medicineId, r[k].0.id)
  {
    if conditions == [] then []
    else
      var prefix := MatchedContraindications(st, medicineId, conditions[..|conditions| - 1]);
      match ResolveCondition(st, conditions[|conditions| - 1])
      case None => prefix
      case Some(c) =>
        match FindContraindication(st, medicineId, c.id)
        case None => prefix
        case Some(x) => prefix + [(c, x)]
  }

  /** Reading one more condition name adds at most that condition's (condition, edge) pair. */
  lemma MatchedStep(st: Store, medicineId: int, conditions: seq<string>, i: nat)
    requires i < |conditions|
    ensures MatchedContraindications(st, medicineId, conditions[..i + 1])
      == MatchedContraindications(st, medicineId, conditions[..i])
        + match ResolveCondition(st, conditions[i])
          case None => []
          case Some(c) =>
            match FindContraindication(st, medicineId, c.id)
            case None => []
            case Some(x) => [(c, x)]
  {
    assert conditions[..i + 1][..i] == conditions[..i];
  }

  /** The matched contraindications of a list of names are those of its parts, in order. */
  lemma {:induction false} MatchedAppend(st: Store, medicineId: int, a: seq<string>, b: seq<string>)
    ensures MatchedContraindications(st, medicineId, a + b)
      == MatchedContraindications(st, medicineId, a) + MatchedContraindications(st, medicineId, b)
  {
    if b == [] {
      assert a + b == a;
    } else {
      var init := b[..|b| - 1];
      assert (a + b)[..|a + b| - 1] == a + init;
      assert (a + b)[|a + b| - 1] == b[|b| - 1];
      MatchedAppend(st, medicineId, a, init);
    }
  }

  /** One element of `safety_info['contraindications']`. */
  datatype ConditionContraindication = ConditionContraindication(
    condition: string, severity: string, notes: Option<string>)

  /** The dictionary `get_medicine_safety_info` returns. */
  datatype SafetyInfo = SafetyInfo(
    medicine: MedicineView,
    contraindications: seq<ConditionContraindication>,
    warnings: seq<string>,
    pregnancySafety: Option<string>,
    pediatricUse: Option<string>,
    geriatricUse: Option<string>)

  function ConditionContraindications(matched: seq<(PatientCondition, MedicineContraindication)>)
    : (r: seq<ConditionContraindication>)
    ensures |r| == |matched|
    ensures forall k :: 0 <= k < |r| ==>
      r[k] == ConditionContraindication(matched[k].0.name, matched[k].1.severity, matched[k].1.notes)
  {
    seq(|matched|, k requires 0 <= k < |matched| =>
      ConditionContraindication(matched[k].0.name, matched[k].1.severity, matched[k].1.notes))
  }

  /** Reading one more condition name adds at most one entry, for that condition's first edge. */
  lemma SafetyEntriesStep(st: Store, medicineId: int, conditions: seq<string>, i: nat)
    requires i < |conditions|
    ensures var c := ResolveCondition(st, conditions[i]);
      ConditionContraindications(MatchedContraindications(st, medicineId, conditions[..i + 1]))
      == ConditionContraindications(MatchedContraindications(st, medicineId, conditions[..i]))
        + if c.Some? && FindContraindication(st, medicineId, c.value.id).Some? then
            [ConditionContraindication(c.value.name, FindContraindication(st, medicineId, c.value.id).value.severity,
                                       FindContraindication(st, medicineId, c.value.id).value.notes)]
          else []
  {
    MatchedStep(st, medicineId, conditions, i);
    var before := MatchedContraindications(st, medicineId, conditions[..i]);
    var after := MatchedContraindications(st, medicineId, conditions[..i + 1]);
    if |after| > |before| {
      assert ConditionContraindications(after)[..|before|] == ConditionContraindications(before);
    } else {
      assert after == before;
    }
  }

  /**
   * `get_medicine_safety_info`: None for an unknown id; otherwise the medicine's dictionary and
   * safety columns with one contraindication entry per patient condition that resolves and has an
   * edge to the medicine, in input order (none when no conditions are given).
   */
  method GetMedicineSafetyInfo(st: Store, medicineId: int, patientConditions: seq<string>)
    returns (r: Option<SafetyInfo>)
    ensures r.None? <==> GetMedicineById(st, medicineId).None?
    ensures r.Some? ==> var m := GetMedicineById(st, medicineId).value;
      && r.value.medicine == MedicineToDict(m)
      && r.value.contraindications == ConditionContraindications(MatchedContraindications(st, medicineId, patientConditions))
      && r.value.warnings == []
      && r.value.pregnancySafety == m.pregnancyCategory
      && r.value.pediatricUse == m.pediatricUse
      && r.value.geriatricUse == m.geriatricUse
  {
    var medicine := GetMedicineById(st, medicineId);
    if medicine.None? {
      return None;
    }
    var m := medicine.value;
    var contraindications: seq<ConditionContraindication> := [];
    for i := 0 to |patientConditions|
      invariant contraindications == ConditionContraindications(MatchedContraindications(st, medicineId, patientConditions[..i]))
    {
      SafetyEntriesStep(st, medicineId, patientConditions, i);
      var condition := ResolveCondition(st, patientConditions[i]);
      if condition.Some? && IsMedicineContraindicated(st, medicineId, condition.value.id) {
        var contraindication := FindContraindication(st, medicineId, condition.value.id);
        if contraindication.Some? {
          contraindications := contraindications + [ConditionContraindication(
            condition.value.name, contraindication.value.severity, contraindication.value.notes)];
        }
      }
    }
    assert patientConditions[..|patientConditions|] == patientConditions;
    r := Some(SafetyInfo(MedicineToDict(m), contraindications, [], m.pregnancyCategory, m.pediatricUse, m.geriatricUse));
  }
}
