# sanitize, modelled in Dafny

A model of the Go package `sanitize`, a declarative sanitiser for untyped,
decoded-JSON-like data, with proofs about it. A caller gives a raw schema,
which maps each field name to an entry. `New` compiles the schema into one
`Scheme` per field and seeds a registry of seven built-in handlers, each a
coercion function named by a type name. `AddFuncs` adds handlers or replaces
them. `Extract` runs each field's handler over one input map. For each field
it reports one of three things: an error that aborts the whole extraction,
"omit this field", or a value to output under the field name. `Fast` does
both steps in one call.

The modules follow the structure of `sanitize.go`:

- `Values` (values.dfy): the data the sanitiser sees.
  - Go's `interface{}` values: nil, bool, int64, an opaque float64, string,
    slice and map.
  - The error values.
  - The numeric conversions the package borrows from other libraries, as
    parameters.
- `Strconv` (strconv.dfy):
  - Go's byte length of a string.
  - Base-10 `strconv.ParseInt`, with a formatter and a round-trip lemma.
- `Schemes` (scheme.dfy): the schema compiler.
  - `ToScheme` is a method whose loop visits an entry's keys in any order.
  - `ToSchemeMap` is a method whose loop visits the fields in any order.
  - Both are proved against the specification functions `SchemeOf` and
    `SchemeMapOf`.
- `Handlers` (handlers.dfy):
  - the built-in handlers as pure functions;
  - the registry `New` builds.
- `Extraction` (extraction.dfy): a class `Extractor` whose fields are the
  scheme map and the handler map.
  - `New`, `AddFuncs` and `Extract` are its methods.
  - `Fast` is a method beside it.
  - `Extract`'s outer loop visits the fields in any order; its inner loop
    walks a slice, with `break` and `continue` as in the source.
  - The field loop is specified by `FieldOutcome`, `Succeeds`,
    `IsExtractionError` and `Output`.
  - The slice loop is specified by `Collect`.
  - Lemmas state what those functions mean: the missing-handler rule,
    must/ignore for scalars, and allOrNothing, the caps and sliceMin for
    slices.
- `Cases` (cases.dfy): the scenarios of `sanitize_test.go` and a few more,
  as lemmas about the specification functions. One scenario is also a
  method that drives `New`, `AddFuncs` and `Extract`.

Go map iteration order is unspecified, so every loop over a map picks an
arbitrary remaining key (`var i :| i in todo`). Each contract therefore holds
for every order. When several entries or fields can fail, the contracts say
only that the reported error belongs to one of them (`CompileError`,
`IsExtractionError`).

The numeric conversions from outside the package are the fields of a
`Numerics` record:

- `numcon.Int` and `numcon.Int64`;
- `numcon.Float64`;
- `strconv.ParseFloat`;
- Go's float64-to-int64 conversion.

Every member that converts numbers takes such a record as a parameter:
the compiler (`SchemeOf`, `ToScheme`, `ToSchemeMap`), `Inter`, `Floater`,
the registry `Builtins`, `New` and `Fast`. The other handlers, `AddFuncs`
and `Extract` need none. The scenarios assume `Lawful(num)`, which says two
things: the two integer conversions return an integer value unchanged, and
`numcon.Int` rejects a map. The float scenarios also assume what the float
parser returns for the literal they use. `Cases.Composite` also assumes
that the float-to-int64 conversion takes that float to a non-negative
number.

In two places the code does something other than a natural reading of the
schema options suggests. The model follows the code in both:

- Slice cap. The name `sliceMax` reads as the largest number of elements
  accepted. But the test at sanitize.go:264 runs before each element and
  compares with `>`, so up to `sliceMax + 1` elements are accepted.
  `SliceCap` and `Cases.SliceMaxAdmitsOneMore` state this.
- Shorthand slice bounds. The comment at sanitize.go:49 says 0 is no good
  as a default for the slice bounds, because 0 can be a real bound. But the
  shorthand entry `1` returns at sanitize.go:40-44, before the `-1` defaults
  are set at sanitize.go:49-50, so its bounds are 0. `Schemes.SchemeOf`
  states this. `Cases.ShorthandActsAsPlainString` proves that the
  difference cannot be observed through the built-in handlers.

## Model

| member | source | states |
|---|---|---|
| Strconv.Utf8Len | sanitize.go:150-153 | A Go string's `len` is its UTF-8 byte length: at least its number of characters and at most four bytes per character. |
| Strconv.AsciiLen | sanitize.go:150-153 | On ASCII text the byte length `stringer` compares equals the number of characters. |
| Strconv.ParseInt | sanitize.go:188-192 | A base-10 parse succeeds only on an optional sign followed by one or more ASCII digits. A negative result needs a leading `-`. The value must fit in int64. |
| Strconv.ParseFormatRoundTrip | sanitize.go:188-192 | Base-10 parsing returns every int64 from its decimal text. |
| Values.Lookup | sanitize.go:253 | Reading a missing key of an input map gives nil, as Go's `data[i]` does. The same holds for `s.Specific["value"]` (sanitize.go:209, 213). |
| Schemes.IsShorthand | sanitize.go:40-41 | An entry is the shorthand for a plain string field iff `numcon.Int` converts it without error to 1. |
| Schemes.CompileError | sanitize.go:40-102 | The errors compiling one entry may report. None for the shorthand. A non-map entry is "can't interpret". A map entry reports one of its keys whose value has the wrong kind. |
| Schemes.KeyOk | sanitize.go:52-105 | The kind each recognised key demands: a bool for must, slice, allOrNothing and ignore; a string for type and regexp; `numcon.Int` for the slice bounds; `numcon.Int64` for min and max. Any other key takes any value. |
| Schemes.Compiles | sanitize.go:40-105 | An entry compiles iff it is the shorthand `1` or a map all of whose keys satisfy `KeyOk`. |
| Schemes.SchemeOf | sanitize.go:36-108 | The shorthand entry `1` is a plain string field: no flags, zero bounds, slice bounds 0, empty `specific`. For a map entry: both slice bounds are -1 unless supplied. Supplied numeric keys hold their conversions; absent min/max are 0. Each flag is set exactly when its key holds `true`. type and regexp hold the supplied strings and are otherwise empty. `specific` holds exactly the unrecognised keys, with their values unchanged. |
| Schemes.CompileFailsWithError | sanitize.go:45-105 | An entry fails to compile exactly when there is a compile error to report. That error is either a non-map entry, or a recognised key whose value has the wrong kind. |
| Schemes.SpecificStep | sanitize.go:103-104 | Taking one more key into account adds it to `specific` exactly when it is not a recognised key. |
| Schemes.ToScheme | sanitize.go:36-108 | For every key order, compiling succeeds iff the entry compiles, and then returns `SchemeOf` of the entry. Otherwise the error is a possible compile error of that entry. |
| Schemes.AbsorbKey | sanitize.go:52-105 | One `switch` round: the key is accepted iff its value has the kind the key demands. The result is the scheme of the keys seen so far plus this one. A rejection names the key. |
| Schemes.AbsorbFlag | sanitize.go:53-102 | For must, slice, allOrNothing and ignore, the value must be a bool, which goes into the flag. |
| Schemes.AbsorbText | sanitize.go:58-97 | For type and regexp, the value must be a string, which is stored. |
| Schemes.AbsorbNumber | sanitize.go:68-92 | sliceMin and sliceMax must convert through `numcon.Int`, and min and max through `numcon.Int64`. The conversion is stored. |
| Schemes.SchemeMapOf | sanitize.go:110-121 | The compiled schema has exactly the raw schema's field names. Under each name is that entry's scheme, with `key` set to the name. |
| Schemes.ToSchemeMap | sanitize.go:110-121 | For every field order, compiling the schema succeeds iff every entry compiles, and then returns `SchemeMapOf`. Otherwise the error is a compile error of some entry. |
| Handlers.Booler | sanitize.go:130-143 | Succeeds iff the input is a bool or the text "true" or "false". A bool comes back unchanged; the text gives true exactly for "true". |
| Handlers.Stringer | sanitize.go:145-158 | Succeeds iff the input is a string whose byte length is at least min and, unless max is 0, at most max. On success the input comes back unchanged. |
| Handlers.Floater | sanitize.go:160-182 | A string is parsed, and anything else converted, into a float. The handler succeeds iff that works and the float's truncation to int64 lies within the bounds (max 0: no upper bound). The result is that float. |
| Handlers.Inter | sanitize.go:184-206 | A string is parsed as base 10, and anything else converted through `numcon.Int64`. The handler succeeds iff that works and the number lies within the bounds (max 0: no upper bound). The result is that number. |
| Handlers.Conster | sanitize.go:208-210 | Always succeeds, whatever the input, with `specific["value"]`, or nil when that key is absent. |
| Handlers.Eqer | sanitize.go:212-218 | Succeeds, returning the input, iff the input equals `specific["value"]` structurally. Otherwise the error names the field and the expected value. |
| Handlers.Anier | sanitize.go:220-225 | Fails exactly on nil; otherwise it returns the input. |
| Handlers.Builtins | sanitize.go:232-240 | The registry `New` seeds holds exactly the seven built-in names. |
| Handlers.BuiltinNames | sanitize.go:232-240 | The seeded registry holds exactly the seven built-in names, each bound to its handler. |
| Extraction.Successes | sanitize.go:262-276 | The elements a handler accepts are no more than the elements given. |
| Extraction.Capped | sanitize.go:264-266 | The cut list is a prefix of the list. With a cap it holds at most `sliceMax + 1` elements, and it is shorter than the list only at exactly that length. |
| Extraction.Collect | sanitize.go:262-276 | The slice loop fails only on an allOrNothing field, with the slice-member error. Otherwise it only appends to what was accepted before, and by at most the number of elements left. |
| Extraction.CollectAccepts | sanitize.go:262-276 | What the slice loop accepts is the handler outputs of the accepted elements, in input order, cut to `sliceMax + 1`. |
| Extraction.CollectStrictFails | sanitize.go:262-276 | On an allOrNothing field the loop fails iff some element the cap still lets through fails its handler. Elements after the cap are never evaluated. |
| Extraction.CollectStrictPrefix | sanitize.go:262-276 | On an allOrNothing field an accepted list is the handler outputs of the leading elements, none dropped. It holds all elements, or exactly `sliceMax + 1`. |
| Extraction.FieldOutcome | sanitize.go:253-299 | One round of `Extract`'s loop. A missing handler aborts whatever the value. An optional field never aborts on a scalar or absent value. An ignored field is never put. Whatever a sequence puts is a list, and only on a slice field. |
| Extraction.Succeeds | sanitize.go:250-302 | An extraction succeeds exactly when no field of the schema aborts it. Otherwise `Extract` returns `nil` and an error at one of sanitize.go:256, 260, 270, 279 or 291. |
| Extraction.IsExtractionError | sanitize.go:250-302 | The errors an extraction may report are exactly the aborts of its fields. Which one is reported depends on Go's map iteration order. |
| Extraction.Output | sanitize.go:250-302 | A successful extraction outputs only schema fields and never an ignored field. |
| Extraction.MissingHandlerFails | sanitize.go:254-257 | If a field's type has no handler, every extraction fails with that field's missing-handler error, even when the input lacks the field. |
| Extraction.ScalarField | sanitize.go:287-299 | For a scalar or absent value: a failure aborts with the handler's error if the field is a must, and otherwise omits the field. A success is output under the field name unless the field is ignored. Except for a failing must field, the field does not abort the extraction. |
| Extraction.IgnoredMustField | sanitize.go:287-298 | For a scalar or absent value of a mandatory, ignored field: a failing handler aborts the extraction with its error, and a succeeding one does not abort it and does not output the field. A sequence value is not covered; a lenient slice field may drop every element and succeed. |
| Extraction.SliceField | sanitize.go:258-286 | A sequence on a non-slice field aborts. On an allOrNothing field a failing element within the cap aborts. Otherwise the output list is the capped run of accepted elements. Fewer than sliceMin elements abort a must field and omit an optional one. An ignored field is never output. Except for a must field with too few elements, the field then does not abort the extraction. |
| Extraction.SliceCap | sanitize.go:263-266 | An output list never holds more than `sliceMax + 1` elements. |
| Extraction.Extractor.constructor | sanitize.go:241 | The new extractor holds the compiled schema and the built-in registry. |
| Extraction.Extractor.New | sanitize.go:227-242 | Succeeds iff every schema entry compiles, with a fresh extractor holding `SchemeMapOf` of the schema and exactly the built-ins. Otherwise the error is a compile error of some entry. |
| Extraction.Extractor.AddFuncs | sanitize.go:244-248 | For every order of the given map, each given name is bound to the given handler, every other name keeps its handler, and the schema is untouched. |
| Extraction.Extractor.Extract | sanitize.go:250-302 | For every field order: the result is a success iff no field aborts. A success holds exactly the output of the validated, non-ignored fields. A failure reports the abort of some field. |
| Extraction.Fast | sanitize.go:10-16 | Succeeds iff the schema compiles and extraction with the built-ins succeeds, with that output. Otherwise it reports a compile error or an extraction error. |
| Cases.StringMinMust | sanitize_test.go:9-28 | With min 100 and must, "Hey there!" (10 bytes) fails the extraction. |
| Cases.StringMaxMust | sanitize_test.go:30-49 | With max 3 and must, "Hey there!" fails the extraction. |
| Cases.StringMin | sanitize_test.go:51-69 | With min 100 and no must, the extraction succeeds and omits the field. |
| Cases.StringMax | sanitize_test.go:71-89 | With max 3 and no must, the extraction succeeds and omits the field. |
| Cases.IntMust | sanitize_test.go:91-110 | With must, "Hey there!" is no decimal number, so a mandatory int field fails the extraction. |
| Cases.IntOptional | sanitize_test.go:112-130 | The same field without must is omitted and the extraction succeeds. |
| Cases.IntMax | sanitize_test.go:132-151 | With max 700 and must, 900 fails the extraction. |
| Cases.IntMin | sanitize_test.go:153-172 | With min 600 and must, 500 fails the extraction. |
| Cases.FloatMust | sanitize_test.go:174-192 | When the float parser rejects "adsad", a mandatory float field fails the extraction. |
| Cases.BoolMust | sanitize_test.go:194-212 | "asdasd" is no boolean text, so a mandatory bool field fails the extraction. |
| Cases.Composite | sanitize_test.go:214-241 | The optional bool field is omitted. The float "20" and the string are output. The output has exactly two keys. |
| Cases.MyType | sanitize_test.go:258-267 | The caller's handler accepts exactly the string "asdasd", unchanged. |
| Cases.UserDefinedType | sanitize_test.go:243-272 | Once "myType" is registered, its mandatory field rejects "asdasd1" with the handler's own error. |
| Cases.NewAddExtract | sanitize_test.go:253-269 | The sequence the test drives, `New`, then `AddFuncs`, then `Extract`, succeeds iff the schema compiles and the built-ins extended by the given handlers extract the input. Its output is then that extraction's output. |
| Cases.UserDefinedTypeScenario | sanitize_test.go:243-272 | Running `New`, `AddFuncs` and `Extract` as the test does returns an error. |
| Cases.UnregisteredType | sanitize.go:254-257 | Without that registration the same schema fails for want of a handler, on every input. |
| Cases.StringSlice | sanitize.go:258-286 | A lenient string slice keeps only the strings of [30, 20, "xxd"], in order. |
| Cases.StrictStringSlice | sanitize.go:268-271 | With allOrNothing the same list aborts the extraction with the slice-member error. |
| Cases.SliceMaxAdmitsOneMore | sanitize.go:264-266 | With sliceMax 0, one element of ["x", "y"] is still accepted and output. |
| Cases.ConstOnEmptyInput | sanitize.go:208-210 | A const field outputs its literal even when the input lacks the field. |
| Cases.EqOutcome | sanitize.go:212-218 | On a mandatory, non-ignored, non-slice eq field: a sequence aborts as unexpected, the literal is put, and any other value aborts with an error naming the field and the literal. |
| Cases.EqField | sanitize.go:212-218 | For every input value of a mandatory eq field with literal "example123": the literal is output. A sequence aborts the extraction as unexpected. Any other value, "example1234" for one, aborts it with an error naming the field and the literal. |
| Cases.IgnoredFieldStillValidated | sanitize.go:287-298 | A mandatory, ignored bool field aborts the extraction on "yes", and on "true" it succeeds without outputting the field. |
| Cases.ShorthandActsAsPlainString | sanitize.go:40-50 | The shorthand `1` and `{type: "string"}` compile to schemes that differ only in the slice bounds (0 against -1). Under the built-in handlers both give the same field outcome on every input. |

## Left out

- `numcon.Int`, `numcon.Int64`, `numcon.Float64`, `strconv.ParseFloat` and
  float64-to-int64 truncation are not part of this model. They are
  parameters (`Numerics`). The scenarios assume only these facts:
  - the integer conversions return an integer value unchanged;
  - `numcon.Int` rejects a map;
  - where a float scenario needs it, what the float parser returns for its
    literal;
  - for `Cases.Composite`, `Cases.CompositeExtraction` and
    `Cases.CompositeOutcomes`, that the float-to-int64 conversion takes the
    float parsed from "20" to a non-negative number.
- Floating point: a float64 is an opaque bit pattern. `Handlers.Floater`
  states its bound check only through the abstract truncation, so the
  fractional precision that truncation loses is not modelled.
- Handlers.Stringer: the `Regexp` option is parsed and stored but never
  enforced, as in the source; nothing about matching is modelled.
- Handlers.Eqer: `reflect.DeepEqual` is structural equality of `Value`s.
  Distinctions that reflection draws between Go types are not modelled,
  for example an `int` against an `int64` holding the same number. Floats
  are opaque bit patterns, so they are compared bit for bit. `DeepEqual`
  compares floats with `==`: it takes +0.0 and -0.0 as equal, and NaN as
  unequal to itself.
- `Value` has one sequence kind, `[]interface{}`. Typed slices such as
  `[]string` fail the type assertion at sanitize.go:258 and take the
  scalar branch; the model has no such values. Likewise `Value` has one map
  kind, `map[string]interface{}`. A schema entry of a typed map kind such as
  `map[string]string` fails the type assertion at sanitize.go:45, so
  compiling it gives "Can't interpret scheme"; the model has no such values.
- Handlers registered by a caller are total, pure functions here. A Go
  handler may panic or keep state. A nil `FuncMap` entry panics when it
  is called at sanitize.go:267 and 288. None of this is modelled.
- Go's `int` is taken to be 64 bits wide. On a 32-bit platform the
  conversions `int(s.Min)` and `int(s.Max)` at sanitize.go:150 and 153
  would truncate, and `numcon.Int` would have a narrower range. That case
  is not modelled.
- Error messages are not modelled: each `fmt.Errorf` site is one `Error`
  constructor. Errors from `strconv` and `numcon` are `ParseFailure` and
  `ConversionFailure`.
- Which error wins when several entries or fields fail depends on Go's map
  iteration order. The contracts say only that the reported error is one of
  them.
- Go strings are byte strings; here they are sequences of characters, and
  lengths are UTF-8 byte lengths. Invalid UTF-8 is not modelled.
- `Extract` returns `nil` with an error; the model's `Err` carries no
  partial output.
- Concurrent use of one `Extractor`, and aliasing of the `FuncMap` that
  `New` hands out, are not modelled.
- sanitize_test.go is used as a source of scenarios; its `testing.T`
  harness is not modelled.
