/**
 * The I-131 travel-document form: 27 fields, among them the `documentType` select and the
 * `plannedTrips` list, which starts with one blank trip and is edited through three handlers.
 * The remove button is only rendered while more than one trip is listed.
 */
module I131 {
  import opened FormRecord
  import opened Csv
  import opened Intake

  /** `initialTripPlan`: a trip with every field blank. */
  const InitialTripPlan := TripPlan("", "", "", "")

  /** `keyof TripPlan`. */
  datatype TripField = Country | Purpose | DepartureDate | ReturnDate

  /** The field of a trip that `field` names. */
  function TripFieldValue(t: TripPlan, field: TripField): string {
    match field
    case Country => t.country
    case Purpose => t.purpose
    case DepartureDate => t.departureDate
    case ReturnDate => t.returnDate
  }

  /** `{ ...trip, [field]: value }`: the named field gets the value, the other three are kept. */
  function SetTripField(t: TripPlan, field: TripField, value: string): (t': TripPlan)
    ensures TripFieldValue(t', field) == value
    ensures forall other :: other != field ==> TripFieldValue(t', other) == TripFieldValue(t, other)
  {
    match field
    case Country => t.(country := value)
    case Purpose => t.(purpose := value)
    case DepartureDate => t.(departureDate := value)
    case ReturnDate => t.(returnDate := value)
  }

  /** `[...trips, initialTripPlan]`. */
  function AddTrip(trips: seq<TripPlan>): (r: seq<TripPlan>)
    ensures |r| == |trips| + 1 && r[..|trips|] == trips && r[|trips|] == InitialTripPlan
  {
    trips + [InitialTripPlan]
  }

  /** `trips.map((trip, i) => i === index ? { ...trip, [field]: value } : trip)`. */
  function ChangeTrip(trips: seq<TripPlan>, index: int, field: TripField, value: string): (r: seq<TripPlan>)
    ensures |r| == |trips|
    ensures forall i :: 0 <= i < |trips| && i != index ==> r[i] == trips[i]
    ensures 0 <= index < |trips| ==> r[index] == SetTripField(trips[index], field, value)
    ensures !(0 <= index < |trips|) ==> r == trips
  {
    seq(|trips|, i requires 0 <= i < |trips| =>
      if i == index then SetTripField(trips[i], field, value) else trips[i])
  }

  /**
   * `trips.filter((_, i) => i !== index)`, walking the list with `index` counted down from the
   * current position.
   */
  function RemoveTrip(trips: seq<TripPlan>, index: int): (r: seq<TripPlan>)
    ensures 0 <= index < |trips| ==> r == trips[..index] + trips[index + 1..]
    ensures !(0 <= index < |trips|) ==> r == trips
  {
    if trips == [] then []
    else if index == 0 then trips[1..]
    else
      var rest := RemoveTrip(trips[1..], index - 1);
      assert 0 < index < |trips| ==> trips[1..][..index - 1] == trips[1..index];
      assert 0 < index < |trips| ==> trips[1..][index..] == trips[index + 1..];
      [trips[0]] + rest
  }

  /** Removing the trip just added gives back the list as it was. */
  lemma RemoveAddedTrip(trips: seq<TripPlan>)
    ensures RemoveTrip(AddTrip(trips), |trips|) == trips
  {
  }

  /** Removal shortens the list by exactly one trip when the index is listed. */
  lemma RemoveTripLength(trips: seq<TripPlan>, index: int)
    ensures |RemoveTrip(trips, index)| == if 0 <= index < |trips| then |trips| - 1 else |trips|
    ensures |trips| > 1 && 0 <= index < |trips| ==> |RemoveTrip(trips, index)| >= 1
  {
  }

  /** Without the length guard the only trip could be removed, leaving none. */
  lemma RemovingTheOnlyTrip(t: TripPlan)
    ensures RemoveTrip([t], 0) == []
  {
  }

  /** The three options of the document-type select. */
  const DocumentTypes: set<string> := {"reentry_permit", "refugee_travel_document", "advance_parole"}

  const PersonalKeys: seq<Key> := [
    "fullName", "alienNumber", "dateOfBirth", "countryOfBirth", "citizenship", "gender", "ssn"
  ]
  const ContactKeys: seq<Key> := ["currentAddress", "mailingAddress", "phone", "email"]
  const StatusKeys: seq<Key> := ["immigrationStatus", "dateOfPermanentResidence", "classOfAdmission"]
  const DocumentKeys: seq<Key> := ["documentType", "previousPermitNumber", "previousPermitDate"]
  const TravelKeys: seq<Key> := ["plannedTrips", "totalTimeAbroad", "purposeOfTrip"]
  const EmergencyKeys: seq<Key> := [
    "emergencyContactName", "emergencyContactRelation", "emergencyContactPhone",
    "emergencyContactEmail"
  ]
  const AdditionalKeys: seq<Key> := ["previousApplications", "criminalHistory", "additionalInformation"]

  /** The properties of `initialFormData`, in declaration order. */
  const Keys: seq<Key> :=
    PersonalKeys + ContactKeys + StatusKeys + DocumentKeys + TravelKeys + EmergencyKeys + AdditionalKeys

  /** The value `initialFormData` gives each field. */
  function Default(k: string): Value {
    if k == "documentType" then Text("reentry_permit")
    else if k == "plannedTrips" then Trips([InitialTripPlan])
    else Text("")
  }

  /**
   * `initialFormData`: 27 fields, every string empty except `documentType`, which is
   * `reentry_permit`, and `plannedTrips` holding one blank trip.
   */
  function InitialFormData(): (r: Record)
    ensures Valid(r) && r.keys == Keys && |r.keys| == 27
    ensures r.keys[14] == "documentType" && r.keys[17] == "plannedTrips"
    ensures forall k :: k in r.vals ==> k in Keys && r.vals[k] == Default(k)
    ensures forall i :: 0 <= i < |r.keys| ==> ',' !in r.keys[i] && '\n' !in r.keys[i]
  {
    assert Keys[14] == "documentType" && Keys[17] == "plannedTrips";
    FromDefaults(Keys, Default)
  }

  /** The trips of a record of this form. */
  function PlannedTrips(r: Record): seq<TripPlan>
    requires "plannedTrips" in r.vals && r.vals["plannedTrips"].Trips?
  {
    r.vals["plannedTrips"].trips
  }

  /**
   * What holds in every state the rendered form can reach: the shape of `initialFormData`, a
   * document type the select offers, and at least one trip.
   */
  predicate Invariant(r: Record) {
    && Shaped(r, InitialFormData())
    && r.vals["documentType"].Text? && r.vals["documentType"].s in DocumentTypes
    && r.vals["plannedTrips"].Trips? && |PlannedTrips(r)| >= 1
  }

  lemma InitialInvariant()
    ensures Invariant(InitialFormData())
    ensures PlannedTrips(InitialFormData()) == [InitialTripPlan]
  {
  }

  /**
   * With at least one trip listed, the `plannedTrips` line is always quoted: the JSON of a
   * non-empty trip list holds commas.
   */
  lemma TripsLineQuoted(r: Record)
    requires Invariant(r)
    ensures Valid(r)
    ensures Lines(Entries(r))[17] ==
      "plannedTrips" + "," + ("\"" + DoubleQuotes(Format(Trips(PlannedTrips(r)))) + "\"")
  {
    ShapedValid(r, InitialFormData());
    TripsCellQuoted(PlannedTrips(r));
  }

  /**
   * Whatever the form holds, its export has one line per field in declaration order, plus one
   * per newline typed into a text value; without such newlines it reads back field by field.
   */
  lemma ExportHasOneLinePerField(r: Record)
    requires Invariant(r)
    ensures Valid(r)
    ensures |SplitLines(Export(r))| == 27 + ValueNewlines(Entries(r))
    ensures |SplitLines(Export(r))| == 27 <==> forall k :: k in r.vals ==> '\n' !in Format(r.vals[k])
    ensures Decode(Export(r)) == Some(Formatted(Entries(r))) <==> forall k :: k in r.vals ==> '\n' !in Format(r.vals[k])
    ensures (forall k :: k in r.vals ==> '\n' !in Format(r.vals[k])) ==>
      && Decode(Export(r)) == Some(Formatted(Entries(r)))
      && forall i :: 0 <= i < 27 ==> Formatted(Entries(r))[i] == (Keys[i], Format(r.vals[Keys[i]]))
  {
    ExportOfShaped(r, InitialFormData());
  }

  /** The rendered I-131 component: its record state and the handlers its controls call. */
  class I131Form {
    const state: FormState

    ghost predicate Valid()
      reads this, state
    {
      state.Valid() && state.initial == InitialFormData() && Invariant(state.formData)
    }

    /** The trips currently listed. */
    function TripList(): (trips: seq<TripPlan>)
      reads this, state
      requires Valid()
      ensures |trips| >= 1
    {
      PlannedTrips(state.formData)
    }

    constructor ()
      ensures Valid() && fresh(state) && state.formData == InitialFormData()
    {
      state := new FormState(InitialFormData());
    }

    /** A text input's `onChange`: any field other than the select and the trip list. */
    method ChangeText(k: string, value: string)
      requires Valid() && k in Keys && k != "documentType" && k != "plannedTrips"
      modifies state
      ensures Valid()
      ensures state.formData == Assign(old(state.formData), k, Text(value))
      ensures TripList() == old(TripList())
    {
      state.SetField(k, Text(value));
    }

    /** The document-type select's `onChange`, whose value is one of its three options. */
    method ChangeDocumentType(value: string)
      requires Valid() && value in DocumentTypes
      modifies state
      ensures Valid()
      ensures state.formData == Assign(old(state.formData), "documentType", Text(value))
      ensures TripList() == old(TripList())
    {
      state.SetField("documentType", Text(value));
    }

    /** `handleAddTrip`: one blank trip appended. */
    method HandleAddTrip()
      requires Valid()
      modifies state
      ensures Valid()
      ensures state.formData == Assign(old(state.formData), "plannedTrips", Value.Trips(AddTrip(old(TripList()))))
      ensures TripList() == old(TripList()) + [InitialTripPlan]
    {
      state.SetField("plannedTrips", Value.Trips(AddTrip(TripList())));
    }

    /** `handleTripChange(index, field, value)` from an input of the trip at `index`. */
    method HandleTripChange(index: int, field: TripField, value: string)
      requires Valid()
      modifies state
      ensures Valid()
      ensures state.formData ==
        Assign(old(state.formData), "plannedTrips", Value.Trips(ChangeTrip(old(TripList()), index, field, value)))
      ensures |TripList()| == |old(TripList())|
    {
      state.SetField("plannedTrips", Value.Trips(ChangeTrip(TripList(), index, field, value)));
    }

    /**
     * The "Remove Trip" buttons are rendered only while more than one trip is listed, that is
     * exactly while removing any listed trip still leaves one.
     */
    function RemoveOffered(): (offered: bool)
      reads this, state
      requires Valid()
      ensures offered <==> forall i :: 0 <= i < |TripList()| ==> |RemoveTrip(TripList(), i)| >= 1
    {
      assert |RemoveTrip(TripList(), 0)| == |TripList()| - 1;
      |TripList()| > 1
    }

    /**
     * `handleRemoveTrip(index)`, reached only through the "Remove Trip" button of the trip at
     * `index`, which exists only while `RemoveOffered()`: the list never becomes empty.
     */
    method HandleRemoveTrip(index: int)
      requires Valid() && RemoveOffered() && 0 <= index < |TripList()|
      modifies state
      ensures Valid()
      ensures state.formData ==
        Assign(old(state.formData), "plannedTrips", Value.Trips(RemoveTrip(old(TripList()), index)))
      ensures TripList() == old(TripList())[..index] + old(TripList())[index + 1..]
    {
      RemoveTripLength(TripList(), index);
      state.SetField("plannedTrips", Value.Trips(RemoveTrip(TripList(), index)));
    }

    /** `handleSubmit`: the CSV text downloaded, then the reset to one blank trip. */
    method HandleSubmit() returns (csv: string)
      requires Valid()
      modifies state
      ensures FormRecord.Valid(old(state.formData)) && csv == Export(old(state.formData))
      ensures Valid() && state.formData == InitialFormData() && TripList() == [InitialTripPlan]
    {
      csv := state.HandleSubmit();
    }
  }
}
