# Rat-sighting record validator

This project models the validator for NYC 311 "rat sighting" service requests in `types/ratSightings.ts`:

- `RatSightingSchema` is a strict zod object schema with 45 declared keys. It checks one raw record from the open-data feed and coerces the record's loosely typed fields.
- `RatSightingsSchema` is its array form.

The project also proves what the schemas accept and what they return.

The model has three layers.

- **JavaScript values** (`js_values.dfy`, module `JsValues`).
  - `Value` covers the values a JSON record can hold. It also has `JUndefined`, which is what reading an absent key yields, and `JDate` for coerced dates.
  - The conversions `Number(v)` and `new Date(v)` used by `z.coerce` are a parameter of type `Coercion`. Four of their results are built in: `Number(undefined)` is NaN, `Number(n)` is `n`, `new Date(undefined)` is invalid, and `new Date(d)` copies `d`. The rest is left open by choice, so every lemma holds whatever the conversions do to strings, booleans, `null`, arrays and objects.
  - `Num` and `Instant` are abstract types for a non-NaN number and for the time value of a valid date.
- **zod combinators** (`zod.dfy`, module `Zod`), with the semantics and issue codes of zod 3.
  - `Schema` names the combinators the file uses: `z.string`, `z.number`, `z.literal`, `z.enum`, `z.coerce.number`, `z.coerce.date`, `.optional()`, the `"N/A"` preprocess, `z.tuple`, `z.object(...).strict()` and `z.array`.
  - `Parse` is `safeParse`. It returns the parsed value, or the set of issues raised, each with its path and its issue code.
  - The lemmas in this module give each combinator's accept/reject condition and its output.
- **The record schema** (`record_fields.dfy` and `rat_sightings.dfy`, modules `RecordFields` and `RatSightings`).
  - `Field` lists the 45 declared keys in source order, and `Name` gives each one's key string. The lemmas prove the keys are distinct.
  - `FieldSchema` is the schema written for each key.
  - `RatSightingShape` is the object literal. `RatSightingSchema` and `RatSightingsSchema` are the two exported schemas.
  - `ValidateRecord` and `ValidateAll` apply `safeParse` with those schemas.

`rat_sighting_rules.dfy` (module `RatSightingRules`) states the validator's rules a second time, field by field, without zod:

- which fields are required;
- which fields are converted to numbers or to dates;
- the closed string set of each enumerated field, written as a set rather than the schema's list;
- the free-text fields;
- `incident_zip`'s `"N/A"` rule;
- what counts as a `location` point.

`FieldAccepted` and `RecordAccepted` say when a value or a record is acceptable. `Normalize` says what an acceptable value becomes.

`ValidateRecordRule` proves the schema agrees with these rules in both directions, and that it returns the normalized record. The remaining lemmas derive the properties the file is written to guarantee:

- required keys;
- `.strict()`;
- the `"N/A"` zip code;
- the enumerated values;
- `park_facility_name`;
- the exact shape of `location`;
- the coerced values;
- idempotence;
- the array form, which is all or nothing.

### What the code does not do

- There is no lenient mode. Unknown keys are never passed through, and enumerated fields never take an unlisted string: `UnknownKeyRejected` and `ChoiceRejected` hold for every record.
- There is no batch validator that reports errors record by record. `z.array` is all or nothing: one refused record makes the whole list fail (`OneBadRecordRejectsAll`).
- A record needs all eight required keys. `unique_key`, `created_date`, `incident_zip: "N/A"`, `park_facility_name: ""`, `status: "Open"` and `agency: "DOHMH"` alone are refused, because `agency_name`, `complaint_type` and `descriptor` are missing (`SixKeyRecordRejected`).
- The zip code is not required to be an integer: any number `Number(...)` yields is accepted.
- `null` is not treated as a missing key in number and date fields. ECMAScript makes `Number(null)` and `Number("")` 0, and `new Date(null)` the epoch. So the code accepts `unique_key: null` or `""` as 0, and `created_date: null` as 1970-01-01 (`NullInCoercedField` states the rule for any conversion).
- The validator is idempotent: re-validating a validated record gives the same result (`ValidateRecordIdempotent`).

## Model

| member | source | states |
|---|---|---|
| Zod.Parse | types/ratSightings.ts:3-270 | A failed parse always carries at least one issue, as zod fails a parse exactly when it has raised one |
| Zod.ParseUndefined | types/ratSightings.ts:47-56 | An absent value passes exactly the schemas that allow absence (`.optional()`, also behind the preprocess), and it stays absent |
| Zod.ParseOptional | types/ratSightings.ts:18 | `.optional()` hands every defined value to the schema it wraps |
| Zod.ParseObject | types/ratSightings.ts:3-266 | A strict object passes iff it has no undeclared key and each declared key's value passes. The output then has exactly the input's keys, each holding its parsed value |
| Zod.ObjectFieldIssue | types/ratSightings.ts:3-266 | An issue raised at a declared key fails the object and is reported under that key |
| Zod.ObjectIssueOrigin | types/ratSightings.ts:3-266 | Every issue of an object is either its own or was raised at one of its declared keys |
| Zod.ObjectUnknownKeys | types/ratSightings.ts:265-266 | `.strict()`: undeclared keys fail the object, and all of them are named in one `unrecognized_keys` issue |
| Zod.ParseTuple | types/ratSightings.ts:251 | `z.tuple` passes iff the array has as many elements as the tuple has items and each element passes its item. The output then holds the parsed elements in order |
| Zod.ParseArray | types/ratSightings.ts:270 | `z.array` passes iff every element passes. The output then has the same length and holds each element's parsed value at its index |
| Zod.ArrayElementIssue | types/ratSightings.ts:270 | One failing element fails the array, and its issues are reported under its index |
| RecordFields.NamesDistinct | types/ratSightings.ts:4-265 | The 45 declared keys are pairwise distinct |
| RecordFields.FieldOf | types/ratSightings.ts:4-265 | Every declared key is the key of some field |
| RecordFields.FieldOfName | types/ratSightings.ts:4-265 | Each field's key is declared, and it leads back to that field |
| RatSightings.ShapeEntries | types/ratSightings.ts:3-266 | The object literal declares exactly the 45 keys, each with the schema written for it |
| RatSightings.LocationSchema | types/ratSightings.ts:249-255 | The nested strict `location` schema. It has no contract of its own; `LocationRule` and `LocationExtraKeyIssue` state its behaviour |
| RatSightings.FieldSchema | types/ratSightings.ts:8-264 | The schema written for each key. It has no contract of its own; `FieldRule` and the `...Shape` lemmas state its behaviour |
| RatSightings.RatSightingShape | types/ratSightings.ts:4-265 | The object literal. It has no contract of its own; `ShapeEntries` states its keys and entries |
| RatSightings.RatSightingSchema | types/ratSightings.ts:3-266 | `z.object(...).strict()` over the shape. It has no contract of its own; `ValidateRecordRule` states its behaviour |
| RatSightings.RatSightingsSchema | types/ratSightings.ts:270 | `z.array(RatSightingSchema)`. It has no contract of its own; `ValidateAllRule` states its behaviour |
| RatSightings.ValidateRecord | types/ratSightings.ts:3-266 | `RatSightingSchema.safeParse`. It has no contract of its own; `ValidateRecordRule` states its behaviour |
| RatSightings.ValidateAll | types/ratSightings.ts:270 | `RatSightingsSchema.safeParse`. It has no contract of its own; `ValidateAllRule` states its behaviour |
| RatSightingRules.FieldAccepted | types/ratSightings.ts:8-264 | The field-by-field reference rule, written without zod. `FieldRule` proves it agrees with each field's schema |
| RatSightingRules.RecordAccepted | types/ratSightings.ts:3-266 | The record-level reference rule: every key declared, every field accepted. `ValidateRecordRule` proves it agrees with the schema |
| RatSightingRules.Normalize | types/ratSightings.ts:8-264 | What an acceptable value becomes: `N/A` zip becomes undefined, number fields get `Number(...)`, date fields get `new Date(...)`, and other fields are unchanged. `FieldRule` and `NormalizeStable` state its properties |
| RatSightingRules.NullInCoercedField | types/ratSightings.ts:8-244 | `null` in a number or date field passes exactly when `Number(null)` or `new Date(null)` converts it, and it becomes that conversion |
| RatSightingRules.FieldGroups | types/ratSightings.ts:8-264 | Every field is a number, date, enumerated, free-text, zip-code or location field. The undocumented keys are optional numbers. A field's schema refuses absence iff the field is one of the eight required ones |
| RatSightingRules.NumberShape | types/ratSightings.ts:166-171 | A number field's schema is `z.coerce.number()`, with `.optional()` unless the field is required |
| RatSightingRules.DateShape | types/ratSightings.ts:137-142 | A date field's schema is `z.coerce.date()`, with `.optional()` unless the field is required |
| RatSightingRules.TextShape | types/ratSightings.ts:61-86 | A free-text field's schema is `z.string()`, with `.optional()` unless the field is required |
| RatSightingRules.ChoiceShape | types/ratSightings.ts:23-192 | An enumerated field's schema is `z.enum` over exactly the strings of the field's set, with `.optional()` unless the field is required |
| RatSightingRules.CoordinatesRule | types/ratSightings.ts:251 | `coordinates` passes iff it is an array of exactly two numbers (no coercion), and it is returned unchanged |
| RatSightingRules.LocationRule | types/ratSightings.ts:249-255 | The `location` object passes iff it has exactly the keys `coordinates` and `type`, with `type` the string `"Point"` and `coordinates` two numbers. It is returned unchanged |
| RatSightingRules.NumberRule | types/ratSightings.ts:166-171 | A number field's schema accepts exactly what the field's rule accepts, and returns the `Number(...)` of the value |
| RatSightingRules.DateRule | types/ratSightings.ts:137-142 | A date field's schema accepts exactly what the field's rule accepts, and returns the `new Date(...)` of the value |
| RatSightingRules.ChoiceRule | types/ratSightings.ts:23-192 | An enumerated field's schema accepts exactly the strings of the field's set (and absence when it is optional), and returns the value unchanged |
| RatSightingRules.TextRule | types/ratSightings.ts:61-117 | A free-text field's schema accepts exactly any string (and absence when it is optional), and returns the value unchanged |
| RatSightingRules.FieldRule | types/ratSightings.ts:8-264 | For every field, its schema accepts a value iff the field's rule does, and then returns the value's normal form |
| RatSightingRules.NormalizeStable | types/ratSightings.ts:8-264 | A normalized acceptable value is still acceptable, and normalizing it again changes nothing |
| RatSightingRules.NonObjectRejected | types/ratSightings.ts:3-4 | Anything but an object is refused with a single `invalid_type` issue |
| RatSightingRules.ValidateRecordRule | types/ratSightings.ts:3-266 | A record passes iff all its keys are declared and every field's rule accepts its value. The validated record then has exactly the input's keys, each holding the normal form of the input value |
| RatSightingRules.FieldRejected | types/ratSightings.ts:3-266 | A field whose rule refuses its value fails the record, with an issue under that field's key |
| RatSightingRules.RequiredFieldMissing | types/ratSightings.ts:8-177 | A record lacking a required key fails, with an issue under that key |
| RatSightingRules.RequiredKeys | types/ratSightings.ts:8-177 | The required keys are exactly `unique_key`, `created_date`, `agency`, `agency_name`, `complaint_type`, `descriptor`, `status` and `park_facility_name` |
| RatSightingRules.FieldReplaced | types/ratSightings.ts:3-266 | Replacing one field of an accepted record with a value its rule accepts keeps the record accepted |
| RatSightingRules.OptionalFieldDropped | types/ratSightings.ts:18-264 | Removing any optional key from an accepted record keeps it accepted |
| RatSightingRules.UnknownKeyRejected | types/ratSightings.ts:265-266 | A key outside the 45 declared ones fails the record, and the top-level `unrecognized_keys` issue names it |
| RatSightingRules.UndocumentedKeyAccepted | types/ratSightings.ts:257-264 | An undocumented key (`x_coordinate_state_plane_`, `y_coordinate_state_plane_`, the five `:@computed_region_*` keys) holding anything `Number(...)` converts keeps an accepted record accepted |
| RatSightingRules.ZipNotAvailable | types/ratSightings.ts:52-56 | With `incident_zip: "N/A"`, the record passes iff it passes without the key. The validated record then holds undefined there |
| RatSightingRules.ZipNotAvailableNoIssue | types/ratSightings.ts:52-56 | With `incident_zip: "N/A"`, no issue is ever raised at `incident_zip` |
| RatSightingRules.ZipOtherValues | types/ratSightings.ts:53-56 | Any other `incident_zip` value is parsed exactly as `z.coerce.number().optional()` parses it |
| RatSightingRules.AcceptedChoice | types/ratSightings.ts:23-192 | In an accepted record, an enumerated field that is present holds one of its listed strings |
| RatSightingRules.ChoiceRefusal | types/ratSightings.ts:23-192 | An enumerated field's schema refuses an unlisted string with `invalid_enum_value` |
| RatSightingRules.ChoiceRejected | types/ratSightings.ts:23-192 | A record whose enumerated field holds an unlisted string fails with `invalid_enum_value` at that field's key |
| RatSightingRules.ParkFacilityNamePresent | types/ratSightings.ts:177 | Every accepted record has `park_facility_name`, and it is a string |
| RatSightingRules.TextAcceptsAnyString | types/ratSightings.ts:47-234 | A free-text field of an accepted record may be set to any string, the empty one included, and the record stays accepted |
| RatSightingRules.LocationExtraKeyIssue | types/ratSightings.ts:249-255 | The `location` schema names the keys other than `coordinates` and `type` in one `unrecognized_keys` issue |
| RatSightingRules.LocationExtraKey | types/ratSightings.ts:249-255 | An extra key inside `location` fails the record, with an `unrecognized_keys` issue naming the extra keys under `location` |
| RatSightingRules.NormalizedValue | types/ratSightings.ts:8-264 | An acceptable defined value normalizes to its `Number(...)` in a number field and to its `new Date(...)` in a date field. In every other field except `incident_zip` it is unchanged |
| RatSightingRules.AcceptedValues | types/ratSightings.ts:8-264 | In a validated record, number fields hold the `Number(...)` of the input and date fields its `new Date(...)`. String, enumerated and `location` fields hold the input value unchanged |
| RatSightingRules.ValidateRecordIdempotent | types/ratSightings.ts:3-266 | Validating a validated record again gives the same result |
| RatSightingRules.ValidateAllRule | types/ratSightings.ts:270 | The list passes iff every record passes. The output then has the same length and holds, at each index, the validated record from that index |
| RatSightingRules.OneBadRecordRejectsAll | types/ratSightings.ts:270 | One refused record fails the whole list, with its issues reported under its index |
| RatSightingRules.SixKeyRecordRejected | types/ratSightings.ts:28-42 | The six-key record `unique_key`, `created_date`, `incident_zip: "N/A"`, `park_facility_name: ""`, `status: "Open"`, `agency: "DOHMH"` is refused, with issues at `agency_name`, `complaint_type` and `descriptor` |

## Left out

- `components/landing/Hero.tsx` and `components/landing/Testimonials.tsx`: presentation markup and animation state, with no validation logic. They are not part of this model.
- What `Number(...)` and `new Date(...)` make of strings, booleans, null, arrays and objects: this is left abstract in the `Coercion` parameter, by choice. ECMAScript does fix these results; for example, `Number("")` and `Number(null)` are 0, `Number(true)` is 1, and `new Date(null)` is the epoch. The lemmas hold for every conversion, those included, but the model does not compute them.
- Floating-point values: `Num` is an abstract type. NaN is not one of its values: a conversion to NaN is modelled as the conversion failing.
- The `RatSighting` type that `z.infer` derives: it exists at compile time only.
- zod's issue messages, the order of issues, and the extra fields an issue carries (expected and received types, the option list): an issue is modelled as its path and its code, and the issues of a parse as a set.
- A lenient schema variant, unknown-key passthrough and a batch validator that reports errors per record: the code has none of them.
- zod's handling of values the record schema never meets (promises, functions, class instances): `Value` has only what a JSON record and the coercions produce.
