/**
 * The I-129F fiancé(e) petition form: 30 fields, all strings except three checkboxes, each of
 * which shows a details textarea while it is ticked. Every input calls the form's setter with
 * one field.
 */
module I129F {
  import opened FormRecord
  import opened Csv

  const PetitionerKeys: seq<Key> := [
    "petitionerName", "dateOfBirth", "placeOfBirth", "citizenship", "ssn", "address", "phone",
    "email", "maritalStatus", "previousMarriages", "previousMarriageDetails"
  ]
  const BeneficiaryKeys: seq<Key> := [
    "beneficiaryName", "beneficiaryDateOfBirth", "beneficiaryPlaceOfBirth",
    "beneficiaryCitizenship", "beneficiaryAddress", "beneficiaryPhone", "beneficiaryEmail",
    "beneficiaryMaritalStatus", "beneficiaryPreviousMarriages",
    "beneficiaryPreviousMarriageDetails"
  ]
  const RelationshipKeys: seq<Key> := [
    "howMet", "meetingDate", "inPersonMeeting", "meetingDetails", "proposalDate", "proposalDetails"
  ]
  const AdditionalKeys: seq<Key> := ["criminalHistory", "immigrationViolations", "additionalInformation"]

  /** The properties of `initialFormData`, in declaration order. */
  const Keys: seq<Key> := PetitionerKeys + BeneficiaryKeys + RelationshipKeys + AdditionalKeys

  /** The checkboxes: `previousMarriages`, `beneficiaryPreviousMarriages`, `inPersonMeeting`. */
  const FlagKeys: set<string> := {"previousMarriages", "beneficiaryPreviousMarriages", "inPersonMeeting"}

  /** The value `initialFormData` gives each field. */
  function Default(k: string): Value {
    if k in FlagKeys then Flag(false) else Text("")
  }

  /**
   * Each checkbox and the details field it reveals, as positions in `Keys`:
   * `previousMarriages`/`previousMarriageDetails`,
   * `beneficiaryPreviousMarriages`/`beneficiaryPreviousMarriageDetails`,
   * `inPersonMeeting`/`meetingDetails`.
   */
  const DetailPairs: seq<(nat, nat)> := [(9, 10), (19, 20), (23, 24)]

  /** Each pair names a checkbox followed by the text field it reveals. */
  lemma DetailPairsAreCheckboxAndText(n: nat)
    requires n < |DetailPairs|
    ensures DetailPairs[n].0 < DetailPairs[n].1 < |Keys|
    ensures Keys[DetailPairs[n].0] in FlagKeys && Keys[DetailPairs[n].1] !in FlagKeys
  {
    if n == 0 {
      assert Keys[9] == "previousMarriages" && Keys[10] == "previousMarriageDetails";
    } else if n == 1 {
      assert Keys[19] == "beneficiaryPreviousMarriages";
      assert Keys[20] == "beneficiaryPreviousMarriageDetails";
    } else {
      assert Keys[23] == "inPersonMeeting" && Keys[24] == "meetingDetails";
    }
  }

  /** `initialFormData`: 30 fields, every string empty and every checkbox unticked. */
  function InitialFormData(): (r: Record)
    ensures Valid(r) && r.keys == Keys && |r.keys| == 30
    ensures forall k :: k in r.vals ==> k in Keys && r.vals[k] == Default(k)
    ensures forall i :: 0 <= i < |r.keys| ==> ',' !in r.keys[i] && '\n' !in r.keys[i]
  {
    FromDefaults(Keys, Default)
  }

  /**
   * Whatever the form holds, its export has one line per field in declaration order, plus one
   * per newline typed into a value; without such newlines it reads back field by field.
   */
  lemma ExportHasOneLinePerField(r: Record)
    requires Shaped(r, InitialFormData())
    ensures Valid(r)
    ensures |SplitLines(Export(r))| == 30 + ValueNewlines(Entries(r))
    ensures |SplitLines(Export(r))| == 30 <==> forall k :: k in r.vals ==> '\n' !in Format(r.vals[k])
    ensures Decode(Export(r)) == Some(Formatted(Entries(r))) <==> forall k :: k in r.vals ==> '\n' !in Format(r.vals[k])
    ensures (forall k :: k in r.vals ==> '\n' !in Format(r.vals[k])) ==>
      && Decode(Export(r)) == Some(Formatted(Entries(r)))
      && forall i :: 0 <= i < 30 ==> Formatted(Entries(r))[i] == (Keys[i], Format(r.vals[Keys[i]]))
  {
    ExportOfShaped(r, InitialFormData());
  }

  /**
   * Unticking any of the three checkboxes hides its details textarea but keeps the text, which
   * is still exported on its own line.
   */
  lemma UntickKeepsDetails(r: Record, n: nat)
    requires Shaped(r, InitialFormData()) && n < |DetailPairs|
    ensures Valid(r) && DetailPairs[n].1 < |r.keys|
    ensures var flag, detail := Keys[DetailPairs[n].0], Keys[DetailPairs[n].1];
      && r.vals[flag].Flag? && r.vals[detail].Text?
      && !Shows(Assign(r, flag, Flag(false)), flag)
      && Assign(r, flag, Flag(false)).vals[detail] == r.vals[detail]
      && Lines(Entries(Assign(r, flag, Flag(false))))[DetailPairs[n].0] == flag + ",false"
      && Lines(Entries(Assign(r, flag, Flag(false))))[DetailPairs[n].1] == Lines(Entries(r))[DetailPairs[n].1]
  {
    var init := InitialFormData();
    ShapedValid(r, init);
    var (i, j) := DetailPairs[n];
    DetailPairsAreCheckboxAndText(n);
    var flag, detail := Keys[i], Keys[j];
    assert r.vals[flag].Flag? && r.vals[detail].Text? by {
      assert init.vals[flag] == Flag(false) && init.vals[detail] == Text("");
    }
    UntickExport(r, flag, i, detail, j);
  }
}
