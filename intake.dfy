/**
 * The state every intake form component keeps with `useState(initialFormData)`: the current
 * record, the setters its inputs call, and the submit handler that exports the record as CSV
 * and puts the initial record back.
 */
module Intake {
  import opened FormRecord
  import opened Csv

  class FormState {
    /** The component's `initialFormData`. */
    const initial: Record
    /** The component's `formData`. */
    var formData: Record

    /** The record always has the keys, the order and the field types of `initialFormData`. */
    ghost predicate Valid()
      reads this
    {
      FormRecord.Valid(initial) && Shaped(formData, initial)
    }

    /** `useState(initialFormData)`. */
    constructor (initialFormData: Record)
      requires FormRecord.Valid(initialFormData)
      ensures Valid() && initial == initialFormData && formData == initialFormData
    {
      initial := initialFormData;
      formData := initialFormData;
    }

    /**
     * An input's `onChange`: `setFormData(prev => ({ ...prev, [k]: v }))` with the input's
     * `value`, or its `checked` state for a checkbox.
     */
    method SetField(k: string, v: Value)
      requires Valid() && k in initial.vals && SameKind(v, initial.vals[k])
      modifies this
      ensures Valid()
      ensures formData == Assign(old(formData), k, v)
    {
      formData := Assign(formData, k, v);
    }

    /** `handleFormChange(updates)`: a `Partial` of the record's own type spread over it. */
    method HandleFormChange(updates: map<string, Value>)
      requires Valid() && updates.Keys <= initial.vals.Keys
      requires forall k :: k in updates ==> SameKind(updates[k], initial.vals[k])
      modifies this
      ensures Valid()
      ensures formData == Merge(old(formData), updates)
    {
      MergeKeepsShape(formData, initial, updates);
      formData := Merge(formData, updates);
    }

    /**
     * `handleSubmit`: the CSV text put in the downloaded file, built from the record as it was,
     * then the reset to `initialFormData`.
     */
    method HandleSubmit() returns (csv: string)
      requires Valid()
      modifies this
      ensures FormRecord.Valid(old(formData)) && csv == Export(old(formData))
      ensures Valid() && formData == initial
    {
      ShapedValid(formData, initial);
      csv := Export(formData);
      formData := initial;
    }

    /** Whether the detail field under checkbox `flag` is rendered. */
    function DetailShown(flag: string): (shown: bool)
      reads this
      requires Valid() && flag in initial.vals && initial.vals[flag].Flag?
      ensures shown <==> formData.vals[flag] == Flag(true)
      ensures !shown ==> formData.vals[flag] == Flag(false)
    {
      Shows(formData, flag)
    }
  }
}
