/** The value model of the sanitiser: the untyped, decoded-JSON-like data it
    receives (Go's `interface{}` holding nil, bool, an integer, a float64, a
    string, `[]interface{}` or `map[string]interface{}`), the error values its
    operations return, and the numeric conversions it borrows from libraries
    that are not part of this model. */
module Values {

  const MIN_INT64: int := -0x8000_0000_0000_0000
  const MAX_INT64: int := 0x7fff_ffff_ffff_ffff

  /** Go's `int64`, also used for Go's `int`, which is taken to be 64 bits
      wide. */
  type int64 = x: int | MIN_INT64 <= x <= MAX_INT64

  /** A float64, kept opaque: only its bit pattern is carried, and no
      floating-point arithmetic is modelled. */
  datatype Float64 = Float64(bits: bv64)

  /** One datum of the input or output structure. */
  datatype Value =
    | Null
    | Bool(b: bool)
    | Int(i: int64)
    | Float(f: Float64)
    | Str(s: string)
    | List(items: seq<Value>)
    | Dict(fields: map<string, Value>)

  datatype Option<+T> = None | Some(value: T)

  /** Every error the engine can report. Messages are not modelled; the
      constructors follow the distinct `fmt.Errorf` sites of sanitize.go. */
  datatype Error =
    | SchemeUninterpretable         // toScheme: neither the shorthand 1 nor a map
    | BadSchemeKey(key: string)     // toScheme: a recognised key with a value of the wrong kind
    | NotInterpretable              // booler
    | NotAString                    // stringer
    | StringTooShort
    | StringTooLong
    | ParseFailure                  // strconv.ParseInt / strconv.ParseFloat
    | ConversionFailure             // numcon.Int64 / numcon.Float64
    | IntTooSmall
    | IntTooLarge
    | FloatTooSmall
    | FloatTooLarge
    | NotEqual(key: string, expected: Value)  // eqer
    | NothingGiven                  // anier
    | NoHandler(field: string)      // Extract: no handler registered for the field's type
    | UnexpectedSlice               // Extract: a sequence on a field whose scheme is not a slice
    | BadSliceMember                // Extract: a failing element of an allOrNothing slice
    | SliceTooShort                 // Extract: fewer accepted elements than sliceMin on a must field
    | Custom(message: string)       // whatever a caller-registered handler reports

  datatype Result<+T> = Ok(value: T) | Err(error: Error)

  /** The numeric conversions the source takes from other packages:
      `numcon.Int`, `numcon.Int64`, `numcon.Float64`, `strconv.ParseFloat`
      and Go's float64-to-int64 conversion. They are parameters of the model. */
  datatype Numerics = Numerics(
    toInt: Value -> Option<int64>,
    toInt64: Value -> Option<int64>,
    toFloat: Value -> Option<Float64>,
    parseFloat: string -> Option<Float64>,
    truncate: Float64 -> int64)

  /** All that the scenarios assume of the numeric conversions: on a value
      that is already an integer they return that integer, and a map is not a
      number. */
  ghost predicate Lawful(num: Numerics) {
    && (forall i: int64 :: num.toInt(Int(i)) == Some(i) && num.toInt64(Int(i)) == Some(i))
    && (forall m :: num.toInt(Dict(m)) == None)
  }

  /** Go's `m[k]` on a `map[string]interface{}`: a missing key reads as nil. */
  function Lookup(m: map<string, Value>, k: string): Value {
    if k in m then m[k] else Null
  }
}
