/**
 * The I-485 adjustment-of-status form: one record of 38 fields (strings, the `hasChildren`
 * checkbox and three history lists). Every input hands `handleFormChange` a one-field update;
 * the history lists have no input and keep their initial empty arrays.
 */
module I485 {
  import opened FormRecord
  import opened Csv

  const PersonalKeys: seq<Key> := [
    "fullName", "otherNames", "birthDate", "birthPlace", "nationality", "alienNumber",
    "socialSecurityNumber", "uscisAccountNumber"
  ]
  const ContactKeys: seq<Key> := ["currentAddress", "mailingAddress", "phone", "mobile", "email"]
  const ImmigrationKeys: seq<Key> := [
    "lastEntryDate", "i94Number", "lastEntryStatus", "currentStatus", "statusExpirationDate",
    "passportNumber", "passportCountry", "passportExpiration", "applicationCategory",
    "priorityDate", "principalApplicant"
  ]
  const HistoryKeys: seq<Key> := ["addressHistory", "travelHistory", "employmentHistory"]
  const FamilyKeys: seq<Key> := [
    "maritalStatus", "spouseName", "spouseBirthDate", "spouseMarriageDate",
    "spouseMarriagePlace", "hasChildren", "childrenDetails"
  ]
  const BackgroundKeys: seq<Key> := [
    "criminalHistory", "immigrationViolations", "publicAssistance", "additionalInformation"
  ]

  /** The properties of `initialFormData`, in declaration order. */
  const Keys: seq<Key> :=
    PersonalKeys + ContactKeys + ImmigrationKeys + HistoryKeys + FamilyKeys + BackgroundKeys

  /** The value `initialFormData` gives each field. */
  function Default(k: string): Value {
    if k == "hasChildren" then Flag(false)
    else if k in HistoryKeys then Items([])
    else Text("")
  }

  /**
   * `initialFormData`: 38 fields, every string empty, the three history lists empty and
   * `hasChildren` unticked.
   */
  function InitialFormData(): (r: Record)
    ensures Valid(r) && r.keys == Keys && |r.keys| == 38
    ensures r.keys[32] == "hasChildren" && r.keys[33] == "childrenDetails"
    ensures r.keys[24..27] == HistoryKeys
    ensures forall k :: k in r.vals ==> k in Keys && r.vals[k] == Default(k)
    ensures forall i :: 0 <= i < |r.keys| ==> ',' !in r.keys[i] && '\n' !in r.keys[i]
  {
    assert Keys[32] == "hasChildren" && Keys[33] == "childrenDetails";
    assert Keys[24..27] == HistoryKeys;
    FromDefaults(Keys, Default)
  }

  /** The history lists hold what they held on mount: they have no input. */
  predicate HistoriesEmpty(r: Record) {
    forall k :: k in HistoryKeys ==> k in r.vals && r.vals[k] == Items([])
  }

  /** The one-field update an input of the form hands `handleFormChange`. */
  predicate RenderedEdit(k: string, v: Value) {
    k in Keys && k !in HistoryKeys && SameKind(v, Default(k))
  }

  /** The form starts with empty histories, and no rendered input changes them. */
  lemma RenderedEditKeepsHistories(r: Record, k: string, v: Value)
    requires Shaped(r, InitialFormData()) && HistoriesEmpty(r) && RenderedEdit(k, v)
    ensures HistoriesEmpty(InitialFormData())
    ensures Shaped(Merge(r, map[k := v]), InitialFormData())
    ensures HistoriesEmpty(Merge(r, map[k := v]))
  {
    MergeKeepsShape(r, InitialFormData(), map[k := v]);
  }

  /**
   * Whatever the form holds, its export has one line per field in declaration order, plus one
   * per newline typed into a value; without such newlines it reads back field by field.
   */
  lemma ExportHasOneLinePerField(r: Record)
    requires Shaped(r, InitialFormData())
    ensures Valid(r)
    ensures |SplitLines(Export(r))| == 38 + ValueNewlines(Entries(r))
    ensures |SplitLines(Export(r))| == 38 <==> forall k :: k in r.vals ==> '\n' !in Format(r.vals[k])
    ensures Decode(Export(r)) == Some(Formatted(Entries(r))) <==> forall k :: k in r.vals ==> '\n' !in Format(r.vals[k])
    ensures (forall k :: k in r.vals ==> '\n' !in Format(r.vals[k])) ==>
      && Decode(Export(r)) == Some(Formatted(Entries(r)))
      && forall i :: 0 <= i < 38 ==> Formatted(Entries(r))[i] == (Keys[i], Format(r.vals[Keys[i]]))
  {
    ExportOfShaped(r, InitialFormData());
  }

  /** The three history lists export as `addressHistory,[]`, `travelHistory,[]`, `employmentHistory,[]`. */
  lemma EmptyHistoryLines(r: Record)
    requires Shaped(r, InitialFormData()) && HistoriesEmpty(r)
    ensures Valid(r)
    ensures forall i :: 24 <= i < 27 ==> Lines(Entries(r))[i] == Keys[i] + ",[]"
  {
    ShapedValid(r, InitialFormData());
    forall i | 24 <= i < 27
      ensures Lines(Entries(r))[i] == Keys[i] + ",[]"
    {
      assert Keys[i] == HistoryKeys[i - 24];
      EmptyItemsLine(Keys[i]);
    }
  }

  /**
   * Unticking `hasChildren` hides the children's details but keeps the text, which is still
   * exported on its own line.
   */
  lemma UntickKeepsChildrenDetails(r: Record)
    requires Shaped(r, InitialFormData())
    ensures Valid(r)
    ensures !Shows(Assign(r, "hasChildren", Flag(false)), "hasChildren")
    ensures Assign(r, "hasChildren", Flag(false)).vals["childrenDetails"] == r.vals["childrenDetails"]
    ensures Lines(Entries(Assign(r, "hasChildren", Flag(false))))[32] == "hasChildren" + ",false"
    ensures Lines(Entries(Assign(r, "hasChildren", Flag(false))))[33] == Lines(Entries(r))[33]
  {
    ShapedValid(r, InitialFormData());
    UntickExport(r, "hasChildren", 32, "childrenDetails", 33);
  }
}
