/**
 * The record shapes of the knowledge store (the five tables of medicine.py) and their
 * `to_dict` projections. Nullable columns are `Option`s; NOT NULL columns are plain values.
 */
module Records {
  import opened Wrappers

  /** A stored date-time, carried with its ISO-8601 rendering (what `isoformat()` returns). */
  datatype Timestamp = Timestamp(iso: string)

  /** A row of `medicines`. Only `generic_name` is NOT NULL besides the key. */
  datatype Medicine = Medicine(
    id: int,
    brandName: Option<string>,
    genericName: string,
    manufacturer: Option<string>,
    productType: Option<string>,
    indicationsAndUsage: Option<string>,
    dosageAndAdministration: Option<string>,
    warnings: Option<string>,
    adverseReactions: Option<string>,
    contraindications: Option<string>,
    drugInteractions: Option<string>,
    tabletShape: Option<string>,
    tabletColor: Option<string>,
    tabletSize: Option<string>,
    imprintCode: Option<string>,
    activeIngredients: Option<string>,
    strength: Option<string>,
    routeOfAdministration: Option<string>,
    pregnancyCategory: Option<string>,
    pediatricUse: Option<string>,
    geriatricUse: Option<string>,
    fdaApplicationNumber: Option<string>,
    fdaApprovalDate: Option<Timestamp>,
    createdAt: Option<Timestamp>,
    updatedAt: Option<Timestamp>)

  /** A row of `symptoms`; `name` is NOT NULL and UNIQUE. */
  datatype Symptom = Symptom(
    id: int,
    name: string,
    description: Option<string>,
    category: Option<string>,
    severityLevels: Option<string>,
    createdAt: Option<Timestamp>)

  /** A row of `medicine_symptoms`: how well a medicine treats a symptom (a 0-1 score). */
  datatype MedicineSymptom = MedicineSymptom(
    id: int,
    medicineId: int,
    symptomId: int,
    effectivenessScore: real,
    contraindicated: bool,
    notes: Option<string>,
    createdAt: Option<Timestamp>)

  /** A row of `patient_conditions`; `name` is NOT NULL and UNIQUE. */
  datatype PatientCondition = PatientCondition(
    id: int,
    name: string,
    description: Option<string>,
    affectsMedication: bool,
    severityLevels: Option<string>,
    createdAt: Option<Timestamp>)

  /** A row of `medicine_contraindications`; `severity` is NOT NULL ('mild', 'moderate' or 'severe'). */
  datatype MedicineContraindication = MedicineContraindication(
    id: int,
    medicineId: int,
    conditionId: int,
    severity: string,
    notes: Option<string>,
    createdAt: Option<Timestamp>)

  /** A read-only snapshot of the five tables, each in storage order. */
  datatype Store = Store(
    medicines: seq<Medicine>,
    symptoms: seq<Symptom>,
    conditions: seq<PatientCondition>,
    medicineSymptoms: seq<MedicineSymptom>,
    contraindications: seq<MedicineContraindication>)

  /** The table constraints: primary keys are unique, symptom and condition names are unique. */
  ghost predicate Valid(st: Store) {
    && (forall i, j :: 0 <= i < j < |st.medicines| ==> st.medicines[i].id != st.medicines[j].id)
    && (forall i, j :: 0 <= i < j < |st.symptoms| ==> st.symptoms[i].id != st.symptoms[j].id)
    && (forall i, j :: 0 <= i < j < |st.symptoms| ==> st.symptoms[i].name != st.symptoms[j].name)
    && (forall i, j :: 0 <= i < j < |st.conditions| ==> st.conditions[i].id != st.conditions[j].id)
    && (forall i, j :: 0 <= i < j < |st.conditions| ==> st.conditions[i].name != st.conditions[j].name)
    && (forall i, j :: 0 <= i < j < |st.medicineSymptoms| ==> st.medicineSymptoms[i].id != st.medicineSymptoms[j].id)
    && (forall i, j :: 0 <= i < j < |st.contraindications| ==> st.contraindications[i].id != st.contraindications[j].id)
  }

  /** `t.isoformat() if t else None`. */
  function IsoOrNone(t: Option<Timestamp>): (r: Option<string>)
    ensures r.None? <==> t.None?
    ensures t.Some? ==> r == Some(t.value.iso)
  {
    match t
    case Some(ts) => Some(ts.iso)
    case None => None
  }

  /** The dictionary `Medicine.to_dict` returns: every column, dates as ISO text or None. */
  datatype MedicineView = MedicineView(
    id: int,
    brandName: Option<string>,
    genericName: string,
    manufacturer: Option<string>,
    productType: Option<string>,
    indicationsAndUsage: Option<string>,
    dosageAndAdministration: Option<string>,
    warnings: Option<string>,
    adverseReactions: Option<string>,
    contraindications: Option<string>,
    drugInteractions: Option<string>,
    tabletShape: Option<string>,
    tabletColor: Option<string>,
    tabletSize: Option<string>,
    imprintCode: Option<string>,
    activeIngredients: Option<string>,
    strength: Option<string>,
    routeOfAdministration: Option<string>,
    pregnancyCategory: Option<string>,
    pediatricUse: Option<string>,
    geriatricUse: Option<string>,
    fdaApplicationNumber: Option<string>,
    fdaApprovalDate: Option<string>,
    createdAt: Option<string>,
    updatedAt: Option<string>)

  function MedicineToDict(m: Medicine): (v: MedicineView)
    ensures v.id == m.id && v.brandName == m.brandName && v.genericName == m.genericName
    ensures v.manufacturer == m.manufacturer && v.productType == m.productType
    ensures v.indicationsAndUsage == m.indicationsAndUsage && v.dosageAndAdministration == m.dosageAndAdministration
    ensures v.warnings == m.warnings && v.adverseReactions == m.adverseReactions
    ensures v.contraindications == m.contraindications && v.drugInteractions == m.drugInteractions
    ensures v.tabletShape == m.tabletShape && v.tabletColor == m.tabletColor
    ensures v.tabletSize == m.tabletSize && v.imprintCode == m.imprintCode
    ensures v.activeIngredients == m.activeIngredients && v.strength == m.strength
    ensures v.routeOfAdministration == m.routeOfAdministration && v.pregnancyCategory == m.pregnancyCategory
    ensures v.pediatricUse == m.pediatricUse && v.geriatricUse == m.geriatricUse
    ensures v.fdaApplicationNumber == m.fdaApplicationNumber
    ensures v.fdaApprovalDate.None? <==> m.fdaApprovalDate.None?
    ensures m.fdaApprovalDate.Some? ==> v.fdaApprovalDate == Some(m.fdaApprovalDate.value.iso)
    ensures v.createdAt.None? <==> m.createdAt.None?
    ensures m.createdAt.Some? ==> v.createdAt == Some(m.createdAt.value.iso)
    ensures v.updatedAt.None? <==> m.updatedAt.None?
    ensures m.updatedAt.Some? ==> v.updatedAt == Some(m.updatedAt.value.iso)
  {
    MedicineView(
      m.id, m.brandName, m.genericName, m.manufacturer, m.productType,
      m.indicationsAndUsage, m.dosageAndAdministration, m.warnings, m.adverseReactions,
      m.contraindications, m.drugInteractions, m.tabletShape, m.tabletColor, m.tabletSize,
      m.imprintCode, m.activeIngredients, m.strength, m.routeOfAdministration,
      m.pregnancyCategory, m.pediatricUse, m.geriatricUse, m.fdaApplicationNumber,
      IsoOrNone(m.fdaApprovalDate), IsoOrNone(m.createdAt), IsoOrNone(m.updatedAt))
  }

  function TimestampOf(s: Option<string>): Option<Timestamp> {
    match s
    case Some(iso) => Some(Timestamp(iso))
    case None => None
  }

  /** Reads a medicine back from its dictionary form. */
  function MedicineFromDict(v: MedicineView): Medicine {
    Medicine(
      v.id, v.brandName, v.genericName, v.manufacturer, v.productType,
      v.indicationsAndUsage, v.dosageAndAdministration, v.warnings, v.adverseReactions,
      v.contraindications, v.drugInteractions, v.tabletShape, v.tabletColor, v.tabletSize,
      v.imprintCode, v.activeIngredients, v.strength, v.routeOfAdministration,
      v.pregnancyCategory, v.pediatricUse, v.geriatricUse, v.fdaApplicationNumber,
      TimestampOf(v.fdaApprovalDate), TimestampOf(v.createdAt), TimestampOf(v.updatedAt))
  }

  /** `to_dict` loses nothing: every column is copied and every date keeps its presence and text. */
  lemma MedicineDictRoundTrip(m: Medicine)
    ensures MedicineFromDict(MedicineToDict(m)) == m
  {
    match m.fdaApprovalDate { case Some(_) => case None => }
    match m.createdAt { case Some(_) => case None => }
    match m.updatedAt { case Some(_) => case None => }
  }

  /** The dictionary `Symptom.to_dict` returns (severity levels kept as their stored JSON text). */
  datatype SymptomView = SymptomView(
    id: int, name: string, description: Option<string>, category: Option<string>,
    severityLevels: Option<string>, createdAt: Option<string>)

  function SymptomToDict(s: Symptom): (v: SymptomView)
    ensures v.id == s.id && v.name == s.name && v.description == s.description
    ensures v.category == s.category && v.severityLevels == s.severityLevels
    ensures v.createdAt.None? <==> s.createdAt.None?
    ensures s.createdAt.Some? ==> v.createdAt == Some(s.createdAt.value.iso)
  {
    SymptomView(s.id, s.name, s.description, s.category, s.severityLevels, IsoOrNone(s.createdAt))
  }

  /** The dictionary `MedicineSymptom.to_dict` returns. */
  datatype MedicineSymptomView = MedicineSymptomView(
    id: int, medicineId: int, symptomId: int, effectivenessScore: real, contraindicated: bool,
    notes: Option<string>, createdAt: Option<string>)

  function MedicineSymptomToDict(e: MedicineSymptom): (v: MedicineSymptomView)
    ensures v.id == e.id && v.medicineId == e.medicineId && v.symptomId == e.symptomId
    ensures v.effectivenessScore == e.effectivenessScore && v.contraindicated == e.contraindicated
    ensures v.notes == e.notes
    ensures v.createdAt.None? <==> e.createdAt.None?
    ensures e.createdAt.Some? ==> v.createdAt == Some(e.createdAt.value.iso)
  {
    MedicineSymptomView(e.id, e.medicineId, e.symptomId, e.effectivenessScore, e.contraindicated,
      e.notes, IsoOrNone(e.createdAt))
  }

  /** The dictionary `PatientCondition.to_dict` returns (severity levels kept as their stored JSON text). */
  datatype PatientConditionView = PatientConditionView(
    id: int, name: string, description: Option<string>, affectsMedication: bool,
    severityLevels: Option<string>, createdAt: Option<string>)

  function PatientConditionToDict(c: PatientCondition): (v: PatientConditionView)
    ensures v.id == c.id && v.name == c.name && v.description == c.description
    ensures v.affectsMedication == c.affectsMedication && v.severityLevels == c.severityLevels
    ensures v.createdAt.None? <==> c.createdAt.None?
    ensures c.createdAt.Some? ==> v.createdAt == Some(c.createdAt.value.iso)
  {
    PatientConditionView(c.id, c.name, c.description, c.affectsMedication, c.severityLevels,
      IsoOrNone(c.createdAt))
  }

  /** The dictionary `MedicineContraindication.to_dict` returns. */
  datatype MedicineContraindicationView = MedicineContraindicationView(
    id: int, medicineId: int, conditionId: int, severity: string, notes: Option<string>,
    createdAt: Option<string>)

  function MedicineContraindicationToDict(c: MedicineContraindication): (v: MedicineContraindicationView)
    ensures v.id == c.id && v.medicineId == c.medicineId && v.conditionId == c.conditionId
    ensures v.severity == c.severity && v.notes == c.notes
    ensures v.createdAt.None? <==> c.createdAt.None?
    ensures c.createdAt.Some? ==> v.createdAt == Some(c.createdAt.value.iso)
  {
    MedicineContraindicationView(c.id, c.medicineId, c.conditionId, c.severity, c.notes,
      IsoOrNone(c.createdAt))
  }
}
