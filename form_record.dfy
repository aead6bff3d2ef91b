/**
 * The state cell every intake form keeps: one record, a JavaScript object whose properties
 * keep the order in which `initialFormData` declares them. It is modelled as that ordered key
 * list together with a map from each key to its value.
 */
module FormRecord {
  import opened Json

  /** One planned trip of the I-131 travel-document form. */
  datatype TripPlan = TripPlan(country: string, purpose: string, departureDate: string, returnDate: string)

  /**
   * The kinds of value a form field holds: a string, a checkbox, the I-131 trip list, or one of
   * the I-485 history lists (arrays whose element type the forms never build).
   */
  datatype Value =
    | Text(s: string)
    | Flag(b: bool)
    | Trips(trips: seq<TripPlan>)
    | Items(items: seq<Json>)

  /** Two values of the same TypeScript type. */
  predicate SameKind(a: Value, b: Value) {
    match a
    case Text(_) => b.Text?
    case Flag(_) => b.Flag?
    case Trips(_) => b.Trips?
    case Items(_) => b.Items?
  }

  /** The characters of a property name in these forms: ASCII letters and digits. */
  type KeyChar = c: char | 'a' <= c <= 'z' || 'A' <= c <= 'Z' || '0' <= c <= '9' witness 'a'

  /** A property name of a form record. */
  type Key = seq<KeyChar>

  /** A property name never holds the comma or the newline the export separates with. */
  lemma KeysArePlain(keys: seq<Key>)
    ensures forall i :: 0 <= i < |keys| ==> ',' !in keys[i] && '\n' !in keys[i]
  {
  }

  datatype Record = Record(keys: seq<string>, vals: map<string, Value>)

  /** Every key of the order has a value, and every value belongs to a key of the order. */
  predicate Valid(r: Record) {
    r.vals.Keys == set k | k in r.keys
  }

  /**
   * An `initialFormData` literal: the properties `keys` in declaration order, each holding
   * `default(k)`.
   */
  function FromDefaults(keys: seq<Key>, default: string -> Value): (r: Record)
    ensures Valid(r) && r.keys == keys
    ensures forall k :: k in r.vals ==> k in keys && r.vals[k] == default(k)
    ensures forall i :: 0 <= i < |r.keys| ==> ',' !in r.keys[i] && '\n' !in r.keys[i]
  {
    KeysArePlain(keys);
    Record(keys, map k | k in keys :: default(k))
  }

  /**
   * `r` has the shape of `schema` (a form's `initialFormData`): the same keys in the same order,
   * each holding a value of the type the schema gives it.
   */
  predicate Shaped(r: Record, schema: Record) {
    && r.keys == schema.keys
    && r.vals.Keys == schema.vals.Keys
    && forall k :: k in r.vals ==> SameKind(r.vals[k], schema.vals[k])
  }

  /** A record shaped like a valid schema is valid itself. */
  lemma ShapedValid(r: Record, schema: Record)
    requires Valid(schema) && Shaped(r, schema)
    ensures Valid(r)
  {
  }

  /** `Object.entries(r)`: the key/value pairs in property order. */
  function Entries(r: Record): (es: seq<(string, Value)>)
    requires Valid(r)
    ensures |es| == |r.keys|
    ensures forall i :: 0 <= i < |es| ==> es[i] == (r.keys[i], r.vals[r.keys[i]])
  {
    seq(|r.keys|, i requires 0 <= i < |r.keys| => (r.keys[i], r.vals[r.keys[i]]))
  }

  /**
   * `{...prev, [k]: v}` for a key the record already has: the value of `k` is replaced and the
   * property keeps its place.
   */
  function Assign(r: Record, k: string, v: Value): (r': Record)
    requires k in r.vals
    ensures r'.keys == r.keys && r'.vals.Keys == r.vals.Keys
    ensures r'.vals[k] == v
    ensures forall j :: j in r.vals && j != k ==> r'.vals[j] == r.vals[j]
  {
    Record(r.keys, r.vals[k := v])
  }

  /**
   * `{...prev, ...updates}` with a `Partial` of the record's own type, whose keys are all keys
   * of the record: every named field takes its new value, every other field and the order stay.
   */
  function Merge(r: Record, updates: map<string, Value>): (r': Record)
    requires updates.Keys <= r.vals.Keys
    ensures r'.keys == r.keys && r'.vals.Keys == r.vals.Keys
    ensures forall k :: k in updates ==> r'.vals[k] == updates[k]
    ensures forall k :: k in r.vals && k !in updates ==> r'.vals[k] == r.vals[k]
  {
    Record(r.keys, r.vals + updates)
  }

  /** A one-field partial update is the same as assigning that field. */
  lemma MergeOne(r: Record, k: string, v: Value)
    requires k in r.vals
    ensures Merge(r, map[k := v]) == Assign(r, k, v)
  {
  }

  /** Merging an update of the record's own type keeps its shape. */
  lemma MergeKeepsShape(r: Record, schema: Record, updates: map<string, Value>)
    requires Shaped(r, schema)
    requires updates.Keys <= r.vals.Keys
    requires forall k :: k in updates ==> SameKind(updates[k], schema.vals[k])
    ensures Shaped(Merge(r, updates), schema)
  {
  }

  /** Object.entries after an edit: the same pairs in the same order, except the edited one. */
  lemma EntriesAfterMerge(r: Record, updates: map<string, Value>)
    requires Valid(r) && updates.Keys <= r.vals.Keys
    ensures Valid(Merge(r, updates))
    ensures |Entries(Merge(r, updates))| == |Entries(r)|
    ensures forall i :: 0 <= i < |r.keys| ==>
      Entries(Merge(r, updates))[i] ==
        (r.keys[i], if r.keys[i] in updates then updates[r.keys[i]] else Entries(r)[i].1)
  {
  }

  /** Assigning a field rewrites the entries under its key and leaves every other entry alone. */
  lemma EntriesAfterAssign(r: Record, k: string, v: Value)
    requires Valid(r) && k in r.vals
    ensures Valid(Assign(r, k, v))
    ensures |Entries(Assign(r, k, v))| == |Entries(r)|
    ensures forall j :: 0 <= j < |r.keys| ==>
      Entries(Assign(r, k, v))[j] == (if r.keys[j] == k then (k, v) else Entries(r)[j])
  {
  }

  /** A detail field is on screen while its checkbox is ticked. */
  predicate Shows(r: Record, flag: string) {
    flag in r.vals && r.vals[flag] == Flag(true)
  }

  /**
   * Unticking a checkbox hides its detail field but keeps the text; ticking it again shows the
   * same text.
   */
  lemma UntickKeepsDetail(r: Record, flag: string, detail: string)
    requires flag in r.vals && detail in r.vals && flag != detail
    ensures !Shows(Assign(r, flag, Flag(false)), flag)
    ensures Assign(r, flag, Flag(false)).vals[detail] == r.vals[detail]
    ensures Shows(Assign(Assign(r, flag, Flag(false)), flag, Flag(true)), flag)
    ensures Assign(Assign(r, flag, Flag(false)), flag, Flag(true)).vals[detail] == r.vals[detail]
  {
  }
}
