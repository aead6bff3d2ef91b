/**
 * The N-400 naturalization form: 25 fields in its record, of which the rendered form binds
 * only eight (the personal, contact and criminal-history inputs). The other seventeen keep
 * their initial values and are exported as such.
 */
module N400 {
  import opened FormRecord
  import opened Csv

  const PersonalKeys: seq<Key> := [
    "fullName", "otherNames", "dateOfBirth", "countryOfBirth", "ssn", "alienNumber", "gender"
  ]
  const ContactKeys: seq<Key> := ["currentAddress", "mailingAddress", "phone", "email"]
  const EligibilityKeys: seq<Key> := ["residencyPeriod", "maritalStatus", "spouseInfo", "employmentHistory"]
  const BackgroundKeys: seq<Key> := [
    "criminalHistory", "criminalHistoryDetails", "taxHistory", "taxHistoryDetails", "travelHistory"
  ]
  const AdditionalKeys: seq<Key> := [
    "disabilities", "disabilitiesDetails", "interpreter", "interpreterDetails", "additionalInformation"
  ]

  /** The properties of `initialFormData`, in declaration order. */
  const Keys: seq<Key> := PersonalKeys + ContactKeys + EligibilityKeys + BackgroundKeys + AdditionalKeys

  /** The boolean fields of `N400FormData`. */
  const FlagKeys: set<string> := {"criminalHistory", "taxHistory", "disabilities", "interpreter"}

  /** The fields an input of the rendered form writes. */
  const BoundKeys: set<string> := {
    "fullName", "otherNames", "dateOfBirth", "countryOfBirth", "currentAddress", "mailingAddress",
    "criminalHistory", "criminalHistoryDetails"
  }

  /** The value `initialFormData` gives each field. */
  function Default(k: string): Value {
    if k in FlagKeys then Flag(false) else Text("")
  }

  /** `initialFormData`: 25 fields, every string empty and every boolean false. */
  function InitialFormData(): (r: Record)
    ensures Valid(r) && r.keys == Keys && |r.keys| == 25
    ensures forall k :: k in r.vals ==> k in Keys && r.vals[k] == Default(k)
    ensures forall i :: 0 <= i < |r.keys| ==> ',' !in r.keys[i] && '\n' !in r.keys[i]
  {
    FromDefaults(Keys, Default)
  }

  /** The edit one of the eight rendered inputs makes. */
  predicate RenderedEdit(k: string, v: Value) {
    k in BoundKeys && SameKind(v, Default(k))
  }

  /** Every field no input writes still holds its initial value. */
  predicate UnboundAtDefault(r: Record) {
    forall k :: k in r.vals && k !in BoundKeys ==> r.vals[k] == Default(k)
  }

  /** Every field an input writes is a field of the record. */
  lemma BoundKeysAreFields()
    ensures BoundKeys <= set k | k in Keys
  {
    assert Keys[0] == "fullName" && Keys[1] == "otherNames" && Keys[2] == "dateOfBirth";
    assert Keys[3] == "countryOfBirth" && Keys[7] == "currentAddress" && Keys[8] == "mailingAddress";
    assert Keys[15] == "criminalHistory" && Keys[16] == "criminalHistoryDetails";
  }

  /** `ssn` is a string field and `taxHistory` a boolean one, and no input writes either. */
  lemma SsnAndTaxHistoryUnbound()
    ensures Keys[4] == "ssn" && Keys[4] !in BoundKeys && Keys[4] !in FlagKeys
    ensures Keys[17] == "taxHistory" && Keys[17] !in BoundKeys && Keys[17] in FlagKeys
  {
  }

  /** The form starts with every unbound field at its default, and no input changes one. */
  lemma RenderedEditKeepsDefaults(r: Record, k: string, v: Value)
    requires Shaped(r, InitialFormData()) && UnboundAtDefault(r) && RenderedEdit(k, v)
    ensures UnboundAtDefault(InitialFormData())
    ensures k in r.vals
    ensures Shaped(Assign(r, k, v), InitialFormData())
    ensures UnboundAtDefault(Assign(r, k, v))
  {
    BoundKeysAreFields();
  }

  /**
   * Whatever the form holds, its export has one line per field in declaration order, plus one
   * per newline typed into a value; without such newlines it reads back field by field.
   */
  lemma ExportHasOneLinePerField(r: Record)
    requires Shaped(r, InitialFormData())
    ensures Valid(r)
    ensures |SplitLines(Export(r))| == 25 + ValueNewlines(Entries(r))
    ensures |SplitLines(Export(r))| == 25 <==> forall k :: k in r.vals ==> '\n' !in Format(r.vals[k])
    ensures Decode(Export(r)) == Some(Formatted(Entries(r))) <==> forall k :: k in r.vals ==> '\n' !in Format(r.vals[k])
    ensures (forall k :: k in r.vals ==> '\n' !in Format(r.vals[k])) ==>
      && Decode(Export(r)) == Some(Formatted(Entries(r)))
      && forall i :: 0 <= i < 25 ==> Formatted(Entries(r))[i] == (Keys[i], Format(r.vals[Keys[i]]))
  {
    ExportOfShaped(r, InitialFormData());
  }

  /**
   * Every line of an unbound field is the line the initial record exports: the seventeen fields
   * without an input are always sent with their initial values.
   */
  lemma UnboundLinesAreInitial(r: Record)
    requires Shaped(r, InitialFormData()) && UnboundAtDefault(r)
    ensures Valid(r)
    ensures forall i :: 0 <= i < 25 && Keys[i] !in BoundKeys ==>
      Lines(Entries(r))[i] == Lines(Entries(InitialFormData()))[i]
  {
    ShapedValid(r, InitialFormData());
  }

  /** For instance the `ssn` line always has an empty cell and the `taxHistory` line reads `false`. */
  lemma SsnAndTaxHistoryLines(r: Record)
    requires Shaped(r, InitialFormData()) && UnboundAtDefault(r)
    ensures Valid(r) && Keys[4] == "ssn" && Keys[17] == "taxHistory"
    ensures Lines(Entries(r))[4] == Keys[4] + ","
    ensures Lines(Entries(r))[17] == Keys[17] + ",false"
  {
    ShapedValid(r, InitialFormData());
    var ssn, tax := Keys[4], Keys[17];
    SsnAndTaxHistoryUnbound();
    EmptyTextLine(ssn);
    FlagLine(tax, false);
  }

  /** The `criminalHistory` checkbox sits at position 15, its details field right after it. */
  lemma CriminalHistoryPair()
    ensures Keys[15] == "criminalHistory" && Keys[16] == "criminalHistoryDetails"
  {
  }

  /**
   * Unticking `criminalHistory` hides its details textarea but keeps the text, which is still
   * exported on its own line.
   */
  lemma UntickKeepsCriminalHistoryDetails(r: Record)
    requires Shaped(r, InitialFormData())
    ensures Valid(r) && Keys[15] == "criminalHistory" && Keys[16] == "criminalHistoryDetails"
    ensures !Shows(Assign(r, "criminalHistory", Flag(false)), "criminalHistory")
    ensures Assign(r, "criminalHistory", Flag(false)).vals["criminalHistoryDetails"] == r.vals["criminalHistoryDetails"]
    ensures Lines(Entries(Assign(r, "criminalHistory", Flag(false))))[15] == "criminalHistory" + ",false"
    ensures Lines(Entries(Assign(r, "criminalHistory", Flag(false))))[16] == Lines(Entries(r))[16]
  {
    ShapedValid(r, InitialFormData());
    CriminalHistoryPair();
    UntickExport(r, "criminalHistory", 15, "criminalHistoryDetails", 16);
  }
}
