/** The handler registry (sanitize.go:123-240): coercion functions from a raw
    value and its field's scheme to a coerced value or an error, and the
    seven built-ins `New` registers. */
module Handlers {
  import opened Values
  import opened Strconv
  import opened Schemes

  /** Go's `func(interface{}, Scheme) (interface{}, error)`. */
  type Handler = (Value, Scheme) -> Result<Value>

  /** `s.Specific["value"]`, which reads as nil when the key is absent. */
  function SpecificValue(s: Scheme): Value {
    Lookup(s.specific, "value")
  }

  /** The bound check shared by `inter` and `floater`: at least `min`, and at
      most `max` unless `max` is 0. */
  predicate InBounds(s: Scheme, v: int) {
    s.min <= v && (s.max == 0 || v <= s.max)
  }

  /** `booler` (sanitize.go:130-143). */
  function Booler(dat: Value, s: Scheme): (r: Result<Value>)
    ensures r.Ok? <==> dat.Bool? || dat == Str("true") || dat == Str("false")
    ensures r.Ok? ==> r.value.Bool?
    ensures dat.Bool? ==> r == Ok(dat)
    ensures r.Ok? && dat.Str? ==> (r.value.b <==> dat.s == "true")
  {
    match dat
    case Str(v) =>
      if v == "false" then Ok(Bool(false))
      else if v == "true" then Ok(Bool(true))
      else Err(NotInterpretable)
    case Bool(_) => Ok(dat)
    case _ => Err(NotInterpretable)
  }

  /** `stringer` (sanitize.go:145-158); lengths are byte lengths. */
  function Stringer(dat: Value, s: Scheme): (r: Result<Value>)
    ensures r.Ok? <==> dat.Str? && s.min <= Utf8Len(dat.s) && (s.max == 0 || Utf8Len(dat.s) <= s.max)
    ensures r.Ok? ==> r.value == dat
  {
    if !dat.Str? then Err(NotAString)
    else if Utf8Len(dat.s) < s.min then Err(StringTooShort)
    else if s.max != 0 && Utf8Len(dat.s) > s.max then Err(StringTooLong)
    else Ok(dat)
  }

  /** `floater` (sanitize.go:160-182). The float itself stays opaque; the
      bounds are compared against its truncation to int64. */
  function Floater(num: Numerics, dat: Value, s: Scheme): (r: Result<Value>)
    ensures dat.Str? ==> (r.Ok? <==> num.parseFloat(dat.s).Some? && InBounds(s, num.truncate(num.parseFloat(dat.s).value)))
    ensures !dat.Str? ==> (r.Ok? <==> num.toFloat(dat).Some? && InBounds(s, num.truncate(num.toFloat(dat).value)))
    ensures dat.Str? && r.Ok? ==> r.value == Float(num.parseFloat(dat.s).value)
    ensures !dat.Str? && r.Ok? ==> r.value == Float(num.toFloat(dat).value)
    ensures r.Ok? ==> r.value.Float? && InBounds(s, num.truncate(r.value.f))
  {
    var val := match dat
      case Str(v) => num.parseFloat(v)
      case _ => num.toFloat(dat);
    match val
    case None => Err(if dat.Str? then ParseFailure else ConversionFailure)
    case Some(f) =>
      if s.min > num.truncate(f) then Err(FloatTooSmall)
      else if s.max != 0 && s.max < num.truncate(f) then Err(FloatTooLarge)
      else Ok(Float(f))
  }

  /** `inter` (sanitize.go:184-206): a string is parsed as base 10, anything
      else goes through `numcon.Int64`. */
  function Inter(num: Numerics, dat: Value, s: Scheme): (r: Result<Value>)
    ensures dat.Str? ==> (r.Ok? <==> ParseInt(dat.s).Some? && InBounds(s, ParseInt(dat.s).value))
    ensures dat.Str? && r.Ok? ==> r.value == Int(ParseInt(dat.s).value)
    ensures !dat.Str? ==> (r.Ok? <==> num.toInt64(dat).Some? && InBounds(s, num.toInt64(dat).value))
    ensures !dat.Str? && r.Ok? ==> r.value == Int(num.toInt64(dat).value)
    ensures r.Ok? ==> r.value.Int? && InBounds(s, r.value.i)
  {
    var val := match dat
      case Str(v) => ParseInt(v)
      case _ => num.toInt64(dat);
    match val
    case None => Err(if dat.Str? then ParseFailure else ConversionFailure)
    case Some(v) =>
      if s.min > v then Err(IntTooSmall)
      else if s.max != 0 && s.max < v then Err(IntTooLarge)
      else Ok(Int(v))
  }

  /** `conster` (sanitize.go:208-210): the input does not matter. */
  function Conster(dat: Value, s: Scheme): (r: Result<Value>)
    ensures r.Ok?
    ensures "value" in s.specific ==> r.value == s.specific["value"]
    ensures "value" !in s.specific ==> r.value == Null
  {
    Ok(SpecificValue(s))
  }

  /** `eqer` (sanitize.go:212-218), with `reflect.DeepEqual` as structural
      equality of values. */
  function Eqer(dat: Value, s: Scheme): (r: Result<Value>)
    ensures r.Ok? <==> dat == SpecificValue(s)
    ensures r.Ok? ==> r.value == dat
    ensures r.Err? ==> r.error == NotEqual(s.key, SpecificValue(s))
  {
    var val := SpecificValue(s);
    if dat == val then Ok(dat) else Err(NotEqual(s.key, val))
  }

  /** `anier` (sanitize.go:220-225). */
  function Anier(dat: Value, s: Scheme): (r: Result<Value>)
    ensures r.Err? <==> dat == Null
    ensures r.Ok? ==> r.value == dat
  {
    if dat == Null then Err(NothingGiven) else Ok(dat)
  }

  /** The registry `New` builds (sanitize.go:232-240). */
  function Builtins(num: Numerics): (fm: map<string, Handler>)
    ensures fm.Keys == {"string", "float", "bool", "int", "const", "eq", "any"}
  {
    map[
      "string" := Stringer,
      "float" := (dat: Value, s: Scheme) => Floater(num, dat, s),
      "bool" := Booler,
      "int" := (dat: Value, s: Scheme) => Inter(num, dat, s),
      "const" := Conster,
      "eq" := Eqer,
      "any" := Anier]
  }

  /** The registry binds each of its seven names to that name's handler. */
  lemma BuiltinNames(num: Numerics)
    ensures Builtins(num).Keys == {"string", "float", "bool", "int", "const", "eq", "any"}
    ensures forall d, s :: Builtins(num)["int"](d, s) == Inter(num, d, s)
    ensures forall d, s :: Builtins(num)["float"](d, s) == Floater(num, d, s)
    ensures Builtins(num)["string"] == Stringer && Builtins(num)["bool"] == Booler
    ensures Builtins(num)["const"] == Conster && Builtins(num)["eq"] == Eqer && Builtins(num)["any"] == Anier
  {
  }
}
