/**
 * The I-539 extend/change-of-status form: 30 fields, all strings except three checkboxes, each
 * of which shows a details textarea while it is ticked. Every input calls the form's setter
 * with one field.
 */
module I539 {
  import opened FormRecord
  import opened Csv

  const PersonalKeys: seq<Key> := [
    "fullName", "otherNames", "dateOfBirth", "countryOfBirth", "countryOfCitizenship",
    "alienNumber", "i94Number", "passportNumber", "passportExpiryDate"
  ]
  const ContactKeys: seq<Key> := ["currentAddress", "mailingAddress", "phone", "email"]
  const StatusKeys: seq<Key> := [
    "currentStatus", "dateOfLastEntry", "placeOfLastEntry", "statusExpirationDate"
  ]
  const ExtensionKeys: seq<Key> := ["requestedStatus", "extensionReason", "requestedDuration"]
  const EmploymentKeys: seq<Key> := ["currentEmployer", "employerAddress", "jobTitle"]
  const AdditionalKeys: seq<Key> := [
    "criminalHistory", "criminalHistoryDetails", "immigrationViolations", "violationDetails",
    "additionalInformation"
  ]
  const DependentKeys: seq<Key> := ["hasDependents", "dependentDetails"]

  /** The properties of `initialFormData`, in declaration order. */
  const Keys: seq<Key> :=
    PersonalKeys + ContactKeys + StatusKeys + ExtensionKeys + EmploymentKeys + AdditionalKeys
    + DependentKeys

  /** The checkboxes: `criminalHistory`, `immigrationViolations`, `hasDependents`. */
  const FlagKeys: set<string> := {"criminalHistory", "immigrationViolations", "hasDependents"}

  /** The value `initialFormData` gives each field. */
  function Default(k: string): Value {
    if k in FlagKeys then Flag(false) else Text("")
  }

  /**
   * Each checkbox and the details field it reveals, as positions in `Keys`:
   * `criminalHistory`/`criminalHistoryDetails`, `immigrationViolations`/`violationDetails`,
   * `hasDependents`/`dependentDetails`.
   */
  const DetailPairs: seq<(nat, nat)> := [(23, 24), (25, 26), (28, 29)]

  /** Each pair names a checkbox followed by the text field it reveals. */
  lemma DetailPairsAreCheckboxAndText(n: nat)
    requires n < |DetailPairs|
    ensures DetailPairs[n].0 < DetailPairs[n].1 < |Keys|
    ensures Keys[DetailPairs[n].0] in FlagKeys && Keys[DetailPairs[n].1] !in FlagKeys
  {
    if n == 0 {
      assert Keys[23] == "criminalHistory" && Keys[24] == "criminalHistoryDetails";
    } else if n == 1 {
      assert Keys[25] == "immigrationViolations" && Keys[26] == "violationDetails";
    } else {
      assert Keys[28] == "hasDependents" && Keys[29] == "dependentDetails";
    }
  }

  /** `initialFormData`: 30 fields, every string empty and every checkbox unticked. */
  function InitialFormData(): (r: Record)
    ensures Valid(r) && r.keys == Keys && |r.keys| == 30
    ensures forall k :: k in r.vals ==> k in Keys && r.vals[k] == Default(k)
    ensures forall i :: 0 <= i < |r.keys| ==> ',' !in r.keys[i] && '\n' !in r.keys[i]
  {
    FromDefaults(Keys, Default)
  }

  /**
   * Whatever the form holds, its export has one line per field in declaration order, plus one
   * per newline typed into a value; without such newlines it reads back field by field.
   */
  lemma ExportHasOneLinePerField(r: Record)
    requires Shaped(r, InitialFormData())
    ensures Valid(r)
    ensures |SplitLines(Export(r))| == 30 + ValueNewlines(Entries(r))
    ensures |SplitLines(Export(r))| == 30 <==> forall k :: k in r.vals ==> '\n' !in Format(r.vals[k])
    ensures Decode(Export(r)) == Some(Formatted(Entries(r))) <==> forall k :: k in r.vals ==> '\n' !in Format(r.vals[k])
    ensures (forall k :: k in r.vals ==> '\n' !in Format(r.vals[k])) ==>
      && Decode(Export(r)) == Some(Formatted(Entries(r)))
      && forall i :: 0 <= i < 30 ==> Formatted(Entries(r))[i] == (Keys[i], Format(r.vals[Keys[i]]))
  {
    ExportOfShaped(r, InitialFormData());
  }

  /**
   * Unticking any of the three checkboxes hides its details textarea but keeps the text, which
   * is still exported on its own line.
   */
  lemma UntickKeepsDetails(r: Record, n: nat)
    requires Shaped(r, InitialFormData()) && n < |DetailPairs|
    ensures Valid(r) && DetailPairs[n].1 < |r.keys|
    ensures var flag, detail := Keys[DetailPairs[n].0], Keys[DetailPairs[n].1];
      && r.vals[flag].Flag? && r.vals[detail].Text?
      && !Shows(Assign(r, flag, Flag(false)), flag)
      && Assign(r, flag, Flag(false)).vals[detail] == r.vals[detail]
      && Lines(Entries(Assign(r, flag, Flag(false))))[DetailPairs[n].0] == flag + ",false"
      && Lines(Entries(Assign(r, flag, Flag(false))))[DetailPairs[n].1] == Lines(Entries(r))[DetailPairs[n].1]
  {
    var init := InitialFormData();
    ShapedValid(r, init);
    var (i, j) := DetailPairs[n];
    DetailPairsAreCheckboxAndText(n);
    var flag, detail := Keys[i], Keys[j];
    assert r.vals[flag].Flag? && r.vals[detail].Text? by {
      assert init.vals[flag] == Flag(false) && init.vals[detail] == Text("");
    }
    UntickExport(r, flag, i, detail, j);
  }
}
