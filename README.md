# Intake-form state and CSV export

This project models the five immigration intake forms of the site: I-485, I-131, I-539, I-129F
and N-400. Each form is a React component that keeps one record in `formData`. The record starts
as the component's `initialFormData`. Every input replaces one field with `{...prev, k: v}`. On
submit the record is exported as CSV text, and the form is reset to `initialFormData`.

The model is split into these modules:

- `Json` covers `JSON.stringify` on the values the forms hold: strings, arrays and objects. It
  escapes strings the way ECMAScript's `QuoteJSONString` does.
- `FormRecord` is the record: an ordered key list (the property order of `initialFormData`) and a
  map from key to value. It holds the `{...prev, k: v}` and `{...prev, ...updates}` updates and
  `Object.entries`.
- `Csv` is the shared encoder. A line is `key,value`. Objects and arrays go through
  `JSON.stringify`, and booleans print as `true`/`false`. A value is wrapped in double quotes,
  with inner quotes doubled, only if it holds a comma. Lines are joined with `'\n'`. The module
  also has a reader (split lines, split at the first comma, unquote). It is used to state what
  the export means.
- `Intake.FormState` is the state cell shared by the components: `formData`, the input setters,
  `handleFormChange`, and `handleSubmit`, which returns the CSV text and resets the record.
- `I485`, `I131`, `I539`, `I129F` and `N400` hold each form's `initialFormData` and the facts
  about it. `I131` also has the trip-list operations and an `I131Form` class for the I-131
  handlers.

The encoder quotes only on commas, and this is kept as written. A value with a newline but no
comma is emitted as it is. So every newline typed into a text field adds one line to the export.
The lemmas state this. The export reads back field by field exactly when no value holds a
newline: with a newline in a value the text has more lines than the record has fields, and the
reader returns one pair per line.

## Model

| member | source | states |
|---|---|---|
| Json.EscapeChar | src/components/forms/I485Form.tsx:182 | JSON.stringify escapes a character to printable text; printable characters other than `"` and `\` stay as they are, the rest start with a backslash |
| Json.Stringify | src/components/forms/I485Form.tsx:182 | `JSON.stringify` output starts with `"`, `[` or `{` exactly for a string, an array or an object, and ends with the matching delimiter |
| Json.Quote | src/components/forms/I485Form.tsx:182 | a JSON string is enclosed in double quotes |
| Json.StringifyPrintable | src/components/forms/I485Form.tsx:182 | JSON text holds no control character |
| Json.StringifyHasNoNewline | src/components/forms/I485Form.tsx:182 | JSON text of a list or object never holds a newline, so it never splits a CSV line |
| Json.EmptyArray | src/components/forms/I485Form.tsx:34-36 | `JSON.stringify([])` is `[]` and holds no comma |
| Json.ObjectHasComma | src/components/forms/I131Form.tsx:6-11 | an object with two or more members prints with a comma |
| Json.ArrayHasComma | src/components/forms/I131Form.tsx:31 | an array whose first item prints with a comma prints with a comma |
| FormRecord.KeysArePlain | src/components/forms/I485Form.tsx:186 | property names hold neither a comma nor a newline |
| FormRecord.FromDefaults | src/components/forms/I485Form.tsx:9-48 | an `initialFormData` literal: the declared properties in order, each with its initial value, none holding a comma or newline |
| FormRecord.ShapedValid | src/components/forms/I485Form.tsx:53 | a record with the keys and field types of a valid `initialFormData` has one value per key |
| FormRecord.Entries | src/components/forms/I485Form.tsx:180 | `Object.entries` gives one pair per key, in key order |
| FormRecord.Assign | src/components/forms/I539Form.tsx:206 | `{...prev, k: v}` gives `k` the new value, keeps every other field and keeps the key order |
| FormRecord.Merge | src/components/forms/I485Form.tsx:208-210 | `{...prev, ...updates}` gives every named field its new value, keeps every other field and keeps the key order |
| FormRecord.MergeOne | src/components/forms/I485Form.tsx:231 | a one-field partial update is the single-field assignment |
| FormRecord.MergeKeepsShape | src/components/forms/I485Form.tsx:208-210 | an update of the record's own type keeps its keys, order and field types |
| FormRecord.EntriesAfterMerge | src/components/forms/I485Form.tsx:208-210 | after a merge, the entries keep their order; updated keys carry the new values and every other entry is unchanged |
| FormRecord.EntriesAfterAssign | src/components/forms/I539Form.tsx:206 | after a single-field edit only the entries under that key change |
| FormRecord.UntickKeepsDetail | src/components/forms/I539Form.tsx:517 | unticking a checkbox hides its detail but keeps the text, and ticking it again shows the same text |
| Csv.Count | src/components/forms/I485Form.tsx:183 | the occurrence count of a character is zero exactly when the character is absent (`includes`) |
| Csv.CountConcat | src/components/forms/I485Form.tsx:188 | occurrence counts add up over concatenation |
| Csv.TripJson | src/components/forms/I131Form.tsx:6-11 | a trip is a JSON object whose members are `country`, `purpose`, `departureDate` and `returnDate` in that order, each the trip's string |
| Csv.TripsJson | src/components/forms/I131Form.tsx:31 | a trip list is a JSON array whose item `i` is the object of trip `i` |
| Csv.Format | src/components/forms/I485Form.tsx:182 | only a string value can hold a newline; booleans and JSON text cannot |
| Csv.DoubleQuotes | src/components/forms/I485Form.tsx:184 | `replace(/"/g, '""')` doubles every quote and keeps every other character |
| Csv.Escape | src/components/forms/I485Form.tsx:183-185 | the value is unchanged exactly when it holds no comma; otherwise it is quoted at both ends; commas and newlines are preserved |
| Csv.Line | src/components/forms/I485Form.tsx:186 | `${key},${escapedValue}` holds the newlines of the key and the value and no other: escaping neither adds nor removes one |
| Csv.Lines | src/components/forms/I485Form.tsx:181-187 | one line per entry |
| Csv.Join | src/components/forms/I485Form.tsx:188 | `join('\n')` puts one newline between lines and none after the last |
| Csv.SplitLines | src/components/forms/I485Form.tsx:188 | splitting at newlines gives one piece more than there are newlines |
| Csv.Encode | src/components/forms/I485Form.tsx:180-188 | the CSV text's newlines are one between each two lines plus every newline inside a value |
| Csv.Export | src/components/forms/I485Form.tsx:180-188 | a record with plain keys exports text that reads back as every key with its formatted value if and only if no value holds a newline |
| Csv.DecodeLines | src/components/forms/I485Form.tsx:181-188 | a successful read gives one pair per line |
| Csv.Decode | src/components/forms/I485Form.tsx:188 | a successful read gives one pair per newline plus one |
| Csv.SplitKey | src/components/forms/I485Form.tsx:186 | the first comma splits a line into a comma-free key and the rest |
| Csv.UndoubleDoubleQuotes | src/components/forms/I485Form.tsx:184 | halving the doubled quotes gives back the original value |
| Csv.EscapeRoundTrip | src/components/forms/I485Form.tsx:183-185 | unquoting the escaped value gives back the value |
| Csv.SplitKeyLine | src/components/forms/I485Form.tsx:186 | splitting a line at its first comma recovers the key and the cell |
| Csv.SplitLinesAppend | src/components/forms/I485Form.tsx:188 | a first line without a newline splits off as one piece |
| Csv.SplitLinesPlain | src/components/forms/I485Form.tsx:188 | a text without newline is one line |
| Csv.SplitJoin | src/components/forms/I485Form.tsx:188 | splitting joined newline-free lines gives back the lines |
| Csv.DecodeLine | src/components/forms/I485Form.tsx:186 | each exported line reads back as its key and the formatted value |
| Csv.Formatted | src/components/forms/I485Form.tsx:182 | the key and formatted value of each entry, in order |
| Csv.DecodeAllLines | src/components/forms/I485Form.tsx:181-187 | the lines read back as the key/value pairs in order |
| Csv.DecodeEncode | src/components/forms/I485Form.tsx:180-188 | with newline-free values the CSV text reads back as every key with its formatted value, in order |
| Csv.SumNewlinesOfLines | src/components/forms/I485Form.tsx:186 | the newlines of the lines are exactly those typed into the values |
| Csv.ReadsBackFieldByField | src/components/forms/I485Form.tsx:180-188 | with plain keys, the text reads back as the formatted pairs if and only if no value holds a newline |
| Csv.LineCount | src/components/forms/I485Form.tsx:180-188 | the CSV text has one line per entry plus one per newline inside a value |
| Csv.NoValueNewlines | src/components/forms/I485Form.tsx:182 | the newline count is zero exactly when no value holds a newline |
| Csv.OneLinePerField | src/components/forms/I485Form.tsx:180-188 | the text has exactly one line per field if and only if no value holds a newline |
| Csv.VerbatimLine | src/components/forms/I485Form.tsx:183-185 | a value without comma is emitted verbatim, quotes and newlines included |
| Csv.NewlineSplitsField | src/components/forms/I485Form.tsx:183-188 | a comma-free value with a newline splits its field over two lines |
| Csv.FlagLine | src/components/forms/I539Form.tsx:161-165 | a boolean exports as an unquoted `true` or `false` |
| Csv.EmptyTextLine | src/components/forms/N400Form.tsx:162-170 | an empty string exports as `key,` |
| Csv.EmptyItemsLine | src/components/forms/I485Form.tsx:182-185 | an empty list exports as `key,[]`, unquoted |
| Csv.TripsHaveComma | src/components/forms/I131Form.tsx:190-192 | the JSON of a non-empty trip list holds a comma |
| Csv.TripsCellQuoted | src/components/forms/I131Form.tsx:190-193 | so a non-empty trip list is always quoted, with its quotes doubled |
| Csv.ExportLines | src/components/forms/I485Form.tsx:180-188 | a record's export has one line per key plus one per value newline, and reads back in key order exactly when values are newline-free |
| Csv.ExportAfterAssign | src/components/forms/I539Form.tsx:206 | an edit rewrites the line of its key and no other line |
| Csv.ExportOfShaped | src/components/forms/I539Form.tsx:159-167 | every state of a form exports one line per field of `initialFormData`, in declaration order, and reads back exactly when no value holds a newline |
| Csv.UntickExport | src/components/forms/I539Form.tsx:517 | unticking a checkbox exports `flag,false` and leaves the detail line unchanged |
| Intake.FormState.constructor | src/components/forms/I539Form.tsx:41 | `useState(initialFormData)` starts from the initial record |
| Intake.FormState.SetField | src/components/forms/I539Form.tsx:206 | an input's `onChange` replaces its one field and keeps the form's shape |
| Intake.FormState.HandleFormChange | src/components/forms/I485Form.tsx:208-210 | `handleFormChange` merges the update and keeps the form's shape |
| Intake.FormState.HandleSubmit | src/components/forms/I539Form.tsx:156-185 | submit returns the export of the record as it was and resets the record to `initialFormData` |
| Intake.FormState.DetailShown | src/components/forms/I539Form.tsx:524 | a detail field is rendered exactly while its checkbox is ticked |
| I485.InitialFormData | src/components/forms/I485Form.tsx:9-48 | 38 fields in declaration order; strings empty, histories `[]`, `hasChildren` false |
| I485.RenderedEditKeepsHistories | src/components/forms/I485Form.tsx:231 | no rendered input changes the three history lists |
| I485.ExportHasOneLinePerField | src/components/forms/I485Form.tsx:180-188 | 38 lines plus one per value newline; exactly 38 iff no newline; reads back field by field, in declaration order, iff no value holds a newline |
| I485.EmptyHistoryLines | src/components/forms/I485Form.tsx:34-36 | the history lines export as `key,[]` |
| I485.UntickKeepsChildrenDetails | src/components/forms/I485Form.tsx:602-622 | unticking `hasChildren` hides but keeps `childrenDetails`, which is still exported |
| I131.SetTripField | src/components/forms/I131Form.tsx:173 | `{...trip, [field]: value}`: the named field reads back the new value and the other three are unchanged |
| I131.AddTrip | src/components/forms/I131Form.tsx:162-167 | the list grows by one blank trip at the end; earlier trips unchanged |
| I131.ChangeTrip | src/components/forms/I131Form.tsx:169-176 | same length; only the trip at `index` changes; an index outside the list changes nothing |
| I131.RemoveTrip | src/components/forms/I131Form.tsx:178-183 | a listed index is removed, keeping order; an index outside the list changes nothing |
| I131.RemoveAddedTrip | src/components/forms/I131Form.tsx:162-183 | removing the trip just added restores the list |
| I131.RemoveTripLength | src/components/forms/I131Form.tsx:515-523 | removal shortens the list by one; with more than one trip, one remains |
| I131.RemovingTheOnlyTrip | src/components/forms/I131Form.tsx:515 | without the guard the only trip could be removed |
| I131.InitialFormData | src/components/forms/I131Form.tsx:13-41 | 27 fields; `documentType` is `reentry_permit`, `plannedTrips` holds one blank trip, other strings empty |
| I131.InitialInvariant | src/components/forms/I131Form.tsx:28-31 | the initial record has a listed document type and one trip |
| I131.TripsLineQuoted | src/components/forms/I131Form.tsx:188-196 | the `plannedTrips` line is always quoted |
| I131.ExportHasOneLinePerField | src/components/forms/I131Form.tsx:188-196 | 27 lines plus one per value newline; exactly 27 iff no newline; reads back field by field, in declaration order, iff no value holds a newline |
| I131.I131Form.TripList | src/components/forms/I131Form.tsx:464 | the rendered list is never empty |
| I131.I131Form.constructor | src/components/forms/I131Form.tsx:45 | the form starts from `initialFormData` |
| I131.I131Form.ChangeText | src/components/forms/I131Form.tsx:235 | a text input replaces its field and leaves the trips alone |
| I131.I131Form.ChangeDocumentType | src/components/forms/I131Form.tsx:423-431 | the select sets one of its three options and leaves the trips alone |
| I131.I131Form.HandleAddTrip | src/components/forms/I131Form.tsx:162-167 | `handleAddTrip` appends a blank trip |
| I131.I131Form.HandleTripChange | src/components/forms/I131Form.tsx:169-176 | `handleTripChange` applies `ChangeTrip` and keeps the length |
| I131.I131Form.RemoveOffered | src/components/forms/I131Form.tsx:515 | the remove buttons are rendered exactly while removing any listed trip still leaves at least one |
| I131.I131Form.HandleRemoveTrip | src/components/forms/I131Form.tsx:178-183 | removal through a rendered button drops that trip and keeps the list non-empty |
| I131.I131Form.HandleSubmit | src/components/forms/I131Form.tsx:185-214 | submit exports the record and resets to one blank trip |
| I539.DetailPairsAreCheckboxAndText | src/components/forms/I539Form.tsx:524-607 | each revealed field follows a checkbox and is a text field |
| I539.InitialFormData | src/components/forms/I539Form.tsx:6-37 | 30 fields; the three checkboxes false, every string empty |
| I539.ExportHasOneLinePerField | src/components/forms/I539Form.tsx:159-167 | 30 lines plus one per value newline; exactly 30 iff no newline; reads back field by field, in declaration order, iff no value holds a newline |
| I539.UntickKeepsDetails | src/components/forms/I539Form.tsx:517-536 | unticking any of the three checkboxes hides but keeps its details, still exported |
| I129F.DetailPairsAreCheckboxAndText | src/components/forms/I129FForm.tsx:306-509 | each revealed field follows a checkbox and is a text field |
| I129F.InitialFormData | src/components/forms/I129FForm.tsx:6-37 | 30 fields; the three checkboxes false, every string empty |
| I129F.ExportHasOneLinePerField | src/components/forms/I129FForm.tsx:141-149 | 30 lines plus one per value newline; exactly 30 iff no newline; reads back field by field, in declaration order, iff no value holds a newline |
| I129F.UntickKeepsDetails | src/components/forms/I129FForm.tsx:299-318 | unticking any of the three checkboxes hides but keeps its details, still exported |
| N400.InitialFormData | src/components/forms/N400Form.tsx:42-68 | 25 fields; four booleans false and 21 strings empty |
| N400.BoundKeysAreFields | src/components/forms/N400Form.tsx:5-40 | the eight bound inputs name fields of `N400FormData` |
| N400.SsnAndTaxHistoryUnbound | src/components/forms/N400Form.tsx:5-40 | `ssn` and `taxHistory` have no input |
| N400.RenderedEditKeepsDefaults | src/components/forms/N400Form.tsx:212-307 | no rendered input changes any of the 17 unbound fields |
| N400.ExportHasOneLinePerField | src/components/forms/N400Form.tsx:162-170 | 25 lines plus one per value newline; exactly 25 iff no newline; reads back field by field, in declaration order, iff no value holds a newline |
| N400.UnboundLinesAreInitial | src/components/forms/N400Form.tsx:162-170 | every unbound field always exports its initial line |
| N400.SsnAndTaxHistoryLines | src/components/forms/N400Form.tsx:162-170 | the export always holds `ssn,` and `taxHistory,false` |
| N400.CriminalHistoryPair | src/components/forms/N400Form.tsx:58-59 | `criminalHistory` is field 15 and its details field 16 |
| N400.UntickKeepsCriminalHistoryDetails | src/components/forms/N400Form.tsx:297-311 | unticking `criminalHistory` hides but keeps its details, still exported |

## Left out

- The browser download: `Blob`, `URL.createObjectURL`/`revokeObjectURL`, and creating and clicking the anchor. This is DOM I/O. `HandleSubmit` returns the CSV text instead.
- The `mailto:` navigation and `encodeURIComponent`. Fixed strings go through a foreign call.
- JSX rendering, styling, animation, the language context and the bilingual labels. Which inputs exist is kept; they appear as the setters each form calls and the guards on them.
- Native `required` attributes and `type="date|email|tel"` hints. The browser checks these, not the components.
- The option lists of the selects other than `documentType` (gender, marital status, requested status). Those fields are modelled as free text.
- React's batching and asynchronous scheduling of `setFormData`. Each handler is one atomic transition.
- The site's pages, such as `src/pages/Home.tsx` and `src/pages/services/Citizenship.tsx`. They only lay out static content and components.
- The record types under `src/types/` are not part of this model. The fields and their order come from each `initialFormData` literal.
- Json.EscapeChar: only the shapes the forms produce (strings, arrays, objects) are modelled. Numbers, `null`, `undefined` and `toJSON` are not.
- FormRecord.Valid: key uniqueness is not restated. The record object cannot hold two properties of one name.
- I131.I131Form.HandleRemoveTrip: the handler accepts any index in the source. The model calls it only through a rendered button, that is, for a listed trip while more than one is listed.
