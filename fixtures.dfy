/**
 * A small catalogue in which a pregnant patient asks about a medicine marked as severely
 * contraindicated in pregnancy: the corrected scoring rules it out, the code as written raises.
 */
module Fixtures {
  import opened Wrappers
  import opened Text
  import opened Records
  import opened MedicineService
  import opened Scoring

  const Pregnancy := "pregnancy"

  const Aspirin := Medicine(
    1, Some("Bayer"), "aspirin", None, None,
    None, None, None, None, None, None,
    None, None, None, None,
    None, None, None, Some("D"), None, None,
    None, None, None, None)

  const PregnancyCondition := PatientCondition(1, Pregnancy, None, true, None, None)

  const SevereInPregnancy := MedicineContraindication(1, 1, 1, "severe", None, None)

  const Catalogue := Store([Aspirin], [], [PregnancyCondition], [], [SevereInPregnancy])

  /** The reported condition resolves to the stored one and meets its contraindication edge. */
  lemma PregnancyIsContraindicated()
    ensures MatchedContraindications(Catalogue, Aspirin.id, [Pregnancy]) == [(PregnancyCondition, SevereInPregnancy)]
  {
    assert Lower(Pregnancy) == Pregnancy;
    assert OccursAt(Lower(Pregnancy), Lower(Pregnancy), 0);
    assert ResolveCondition(Catalogue, Pregnancy) == Some(PregnancyCondition);
    assert FindContraindication(Catalogue, Aspirin.id, PregnancyCondition.id) == Some(SevereInPregnancy);
    assert [Pregnancy][..0] == [];
  }

  /**
   * The input that shows the missing `and_` import: the code as written raises NameError for this
   * patient, where the evidently intended score is 0 and the intended warnings name the condition.
   */
  lemma AndIsNeverImported()
    ensures SafetyAsWritten(Catalogue, Aspirin, [Pregnancy], None) == Err(NameError("and_"))
    ensures WarningsAsWritten(Catalogue, Aspirin, [Pregnancy], None).Err?
    ensures Safety(Catalogue, Aspirin, [Pregnancy], None) == 0.0
  {
    PregnancyIsContraindicated();
    SevereContraindicationIsUnsafe(Catalogue, Aspirin, [Pregnancy], None, 0);
  }
}
