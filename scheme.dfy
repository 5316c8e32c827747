/** The schema compiler (sanitize.go:18-121): one raw schema entry per field,
    either the shorthand integer 1 or a map of recognised keys, becomes a
    `Scheme` record; a whole raw schema becomes a `SchemeMap`. */
module Schemes {
  import opened Values

  /** The compiled rule for one field. */
  datatype Scheme = Scheme(
    must: bool,
    typeName: string,
    slice: bool,
    sliceMin: int64,                   // -1: no lower bound on the accepted count
    sliceMax: int64,                   // -1: no cap on the accepted count
    allOrNothing: bool,
    min: int64,
    max: int64,                        // 0: no upper bound
    regexp: string,                    // stored, never enforced
    ignore: bool,
    specific: map<string, Value>,      // every unrecognised key, verbatim
    key: string)                       // the field name, set by the schema-map compiler

  /** The keys `toScheme` interprets itself; every other key goes to `specific`. */
  const RECOGNISED: set<string> :=
    {"must", "type", "slice", "sliceMin", "sliceMax", "allOrNothing", "min", "max", "regexp", "ignore"}

  /** Go's zero `Scheme` with an empty `Specific` map. */
  const ZERO: Scheme := Scheme(false, "", false, 0, 0, false, 0, 0, "", false, map[], "")

  /** The entry that `numcon.Int` converts to 1 stands for a plain string field. */
  predicate IsShorthand(num: Numerics, a: Value) {
    num.toInt(a) == Some(1)
  }

  /** Whether value `v` has the kind that recognised key `k` demands. */
  predicate KeyOk(num: Numerics, k: string, v: Value) {
    if k in {"must", "slice", "allOrNothing", "ignore"} then v.Bool?
    else if k in {"type", "regexp"} then v.Str?
    else if k in {"sliceMin", "sliceMax"} then num.toInt(v).Some?
    else if k in {"min", "max"} then num.toInt64(v).Some?
    else true
  }

  /** Whether one raw entry compiles. */
  predicate Compiles(num: Numerics, a: Value) {
    || IsShorthand(num, a)
    || (a.Dict? && forall k :: k in a.fields ==> KeyOk(num, k, a.fields[k]))
  }

  /** The errors compiling one raw entry may report: a non-map entry is
      uninterpretable, and a map entry names one of its ill-kinded keys. Which
      ill-kinded key is named depends on Go's map iteration order. */
  predicate CompileError(num: Numerics, a: Value, e: Error) {
    && !IsShorthand(num, a)
    && if a.Dict? then e.BadSchemeKey? && e.key in a.fields && !KeyOk(num, e.key, a.fields[e.key])
       else e == SchemeUninterpretable
  }

  /** Whether key `k` is among `keys` and holds the boolean true. */
  function FlagAt(am: map<string, Value>, keys: set<string>, k: string): bool {
    k in keys && k in am && am[k] == Bool(true)
  }

  /** The string under key `k` if that key is among `keys`, else "". */
  function TextAt(am: map<string, Value>, keys: set<string>, k: string): string {
    if k in keys && k in am && am[k].Str? then am[k].s else ""
  }

  /** The conversion of the value under key `k` if that key is among `keys`
      and converts, else `default`. */
  function NumberAt(conv: Value -> Option<int64>, am: map<string, Value>, keys: set<string>, k: string, default: int64): int64 {
    if k in keys && k in am && conv(am[k]).Some? then conv(am[k]).value else default
  }

  /** The scheme that the entries of `am` whose keys are in `keys` describe,
      the other keys being left at the defaults of a map entry. */
  function FromEntries(num: Numerics, am: map<string, Value>, keys: set<string>): Scheme {
    Scheme(
      must := FlagAt(am, keys, "must"),
      typeName := TextAt(am, keys, "type"),
      slice := FlagAt(am, keys, "slice"),
      sliceMin := NumberAt(num.toInt, am, keys, "sliceMin", -1),
      sliceMax := NumberAt(num.toInt, am, keys, "sliceMax", -1),
      allOrNothing := FlagAt(am, keys, "allOrNothing"),
      min := NumberAt(num.toInt64, am, keys, "min", 0),
      max := NumberAt(num.toInt64, am, keys, "max", 0),
      regexp := TextAt(am, keys, "regexp"),
      ignore := FlagAt(am, keys, "ignore"),
      specific := SpecificOf(am, keys),
      key := "")
  }

  /** The unrecognised entries of `am` whose keys are in `keys`. */
  function SpecificOf(am: map<string, Value>, keys: set<string>): map<string, Value> {
    map k | k in keys && k in am && k !in RECOGNISED :: am[k]
  }

  /** Taking one more key into account adds it to `specific` exactly when it
      is unrecognised. */
  lemma SpecificStep(am: map<string, Value>, keys: set<string>, i: string)
    requires i in am
    ensures SpecificOf(am, keys + {i}) ==
      if i in RECOGNISED then SpecificOf(am, keys) else SpecificOf(am, keys)[i := am[i]]
  {
  }

  /** The scheme a compiling entry denotes (before its field name is attached). */
  function SchemeOf(num: Numerics, a: Value): (s: Scheme)
    requires Compiles(num, a)
    ensures IsShorthand(num, a) ==>
      && s.typeName == "string" && !s.must && !s.slice && !s.allOrNothing && !s.ignore
      && s.min == 0 && s.max == 0 && s.sliceMin == 0 && s.sliceMax == 0
      && s.regexp == "" && s.specific == map[]
    ensures !IsShorthand(num, a) ==>
      var am := a.fields;
      && ("sliceMin" !in am ==> s.sliceMin == -1)
      && ("sliceMax" !in am ==> s.sliceMax == -1)
      && ("sliceMin" in am ==> num.toInt(am["sliceMin"]) == Some(s.sliceMin))
      && ("sliceMax" in am ==> num.toInt(am["sliceMax"]) == Some(s.sliceMax))
      && ("min" in am ==> num.toInt64(am["min"]) == Some(s.min))
      && ("max" in am ==> num.toInt64(am["max"]) == Some(s.max))
      && ("min" !in am ==> s.min == 0) && ("max" !in am ==> s.max == 0)
      && ("type" !in am ==> s.typeName == "") && ("regexp" !in am ==> s.regexp == "")
      && (s.must <==> Lookup(am, "must") == Bool(true))
      && (s.slice <==> Lookup(am, "slice") == Bool(true))
      && (s.allOrNothing <==> Lookup(am, "allOrNothing") == Bool(true))
      && (s.ignore <==> Lookup(am, "ignore") == Bool(true))
      && ("type" in am ==> am["type"].Str? && am["type"].s == s.typeName)
      && ("regexp" in am ==> am["regexp"].Str? && am["regexp"].s == s.regexp)
      && s.specific.Keys == am.Keys - RECOGNISED
      && (forall k :: k in s.specific ==> s.specific[k] == am[k])
    ensures s.key == ""
  {
    if IsShorthand(num, a) then ZERO.(typeName := "string")
    else FromEntries(num, a.fields, a.fields.Keys)
  }

  /** Exactly the entries that do not compile have an error to report. */
  lemma CompileFailsWithError(num: Numerics, a: Value)
    ensures !Compiles(num, a) <==> exists e :: CompileError(num, a, e)
  {
    if !Compiles(num, a) && a.Dict? {
      var k :| k in a.fields && !KeyOk(num, k, a.fields[k]);
      assert CompileError(num, a, BadSchemeKey(k));
    } else if !Compiles(num, a) {
      assert CompileError(num, a, SchemeUninterpretable);
    }
  }

  /** `toScheme` (sanitize.go:36-108): fills the scheme key by key, in
      whatever order the map yields its keys, stopping at the first key whose
      value has the wrong kind. */
  method ToScheme(num: Numerics, a: Value) returns (r: Result<Scheme>)
    ensures r.Ok? <==> Compiles(num, a)
    ensures r.Ok? ==> r.value == SchemeOf(num, a)
    ensures r.Err? ==> CompileError(num, a, r.error)
  {
    var s := ZERO;
    var ai := num.toInt(a);
    if ai == Some(1) {
      return Ok(s.(typeName := "string"));
    }
    if !a.Dict? {
      return Err(SchemeUninterpretable);
    }
    var am := a.fields;
    s := s.(sliceMin := -1, sliceMax := -1);
    var todo := am.Keys;
    while todo != {}
      invariant todo <= am.Keys
      invariant forall k :: k in am && k !in todo ==> KeyOk(num, k, am[k])
      invariant s == FromEntries(num, am, am.Keys - todo)
      decreases todo
    {
      var i :| i in todo;
      var next := AbsorbKey(num, am, am.Keys - todo, s, i);
      if next.Err? {
        return next;
      }
      assert am.Keys - (todo - {i}) == (am.Keys - todo) + {i};
      s := next.value;
      todo := todo - {i};
    }
    return Ok(s);
  }

  /** One round of the `switch` in `toScheme` (sanitize.go:52-105): key `i`
      with its value either updates the scheme built so far from the keys
      `done`, or is rejected for having the wrong kind. The cases are grouped
      by the kind of value they demand. */
  method AbsorbKey(num: Numerics, am: map<string, Value>, ghost done: set<string>, s: Scheme, i: string)
    returns (r: Result<Scheme>)
    requires i in am && i !in done
    requires s == FromEntries(num, am, done)
    ensures r.Ok? <==> KeyOk(num, i, am[i])
    ensures r.Ok? ==> r.value == FromEntries(num, am, done + {i})
    ensures r.Err? ==> r.error == BadSchemeKey(i)
  {
    SpecificStep(am, done, i);
    if i in {"must", "slice", "allOrNothing", "ignore"} {
      r := AbsorbFlag(num, am, done, s, i);
    } else if i in {"type", "regexp"} {
      r := AbsorbText(num, am, done, s, i);
    } else if i in {"sliceMin", "sliceMax", "min", "max"} {
      r := AbsorbNumber(num, am, done, s, i);
    } else {
      r := Ok(s.(specific := s.specific[i := am[i]]));
    }
  }

  /** The cases "must", "slice", "allOrNothing" and "ignore": the value must be a bool. */
  method AbsorbFlag(num: Numerics, am: map<string, Value>, ghost done: set<string>, s: Scheme, i: string)
    returns (r: Result<Scheme>)
    requires i in am && i !in done && i in {"must", "slice", "allOrNothing", "ignore"}
    requires s == FromEntries(num, am, done)
    ensures r.Ok? <==> am[i].Bool?
    ensures r.Ok? ==> r.value == FromEntries(num, am, done + {i})
    ensures r.Err? ==> r.error == BadSchemeKey(i)
  {
    var v := am[i];
    if !v.Bool? {
      return Err(BadSchemeKey(i));
    }
    SpecificStep(am, done, i);
    match i {
      case "must" => r := Ok(s.(must := v.b));
      case "slice" => r := Ok(s.(slice := v.b));
      case "allOrNothing" => r := Ok(s.(allOrNothing := v.b));
      case "ignore" => r := Ok(s.(ignore := v.b));
    }
  }

  /** The cases "type" and "regexp": the value must be a string. */
  method AbsorbText(num: Numerics, am: map<string, Value>, ghost done: set<string>, s: Scheme, i: string)
    returns (r: Result<Scheme>)
    requires i in am && i !in done && i in {"type", "regexp"}
    requires s == FromEntries(num, am, done)
    ensures r.Ok? <==> am[i].Str?
    ensures r.Ok? ==> r.value == FromEntries(num, am, done + {i})
    ensures r.Err? ==> r.error == BadSchemeKey(i)
  {
    var v := am[i];
    if !v.Str? {
      return Err(BadSchemeKey(i));
    }
    SpecificStep(am, done, i);
    match i {
      case "type" => r := Ok(s.(typeName := v.s));
      case "regexp" => r := Ok(s.(regexp := v.s));
    }
  }

  /** The cases "sliceMin", "sliceMax" (through `numcon.Int`) and "min",
      "max" (through `numcon.Int64`): the value must convert. */
  method AbsorbNumber(num: Numerics, am: map<string, Value>, ghost done: set<string>, s: Scheme, i: string)
    returns (r: Result<Scheme>)
    requires i in am && i !in done && i in {"sliceMin", "sliceMax", "min", "max"}
    requires s == FromEntries(num, am, done)
    ensures r.Ok? <==> KeyOk(num, i, am[i])
    ensures r.Ok? ==> r.value == FromEntries(num, am, done + {i})
    ensures r.Err? ==> r.error == BadSchemeKey(i)
  {
    var v := am[i];
    SpecificStep(am, done, i);
    match i {
      case "sliceMin" =>
        var n := num.toInt(v);
        if n.None? { return Err(BadSchemeKey(i)); }
        r := Ok(s.(sliceMin := n.value));
      case "sliceMax" =>
        var n := num.toInt(v);
        if n.None? { return Err(BadSchemeKey(i)); }
        r := Ok(s.(sliceMax := n.value));
      case "min" =>
        var n := num.toInt64(v);
        if n.None? { return Err(BadSchemeKey(i)); }
        r := Ok(s.(min := n.value));
      case "max" =>
        var n := num.toInt64(v);
        if n.None? { return Err(BadSchemeKey(i)); }
        r := Ok(s.(max := n.value));
    }
  }

  /** Whether every entry of a raw schema compiles. */
  predicate AllCompile(num: Numerics, raw: map<string, Value>) {
    forall k :: k in raw ==> Compiles(num, raw[k])
  }

  /** The compiled schema: the same field names, each scheme carrying its own
      field name as `key` and otherwise being what its entry compiles to. */
  function SchemeMapOf(num: Numerics, raw: map<string, Value>): (sm: map<string, Scheme>)
    requires AllCompile(num, raw)
    ensures sm.Keys == raw.Keys
    ensures forall k :: k in sm ==> sm[k].key == k && sm[k].(key := "") == SchemeOf(num, raw[k])
  {
    map k | k in raw :: SchemeOf(num, raw[k]).(key := k)
  }

  /** `toSchemeMap` (sanitize.go:110-121): compiles the entries in whatever
      order the map yields them and fails with the first entry's error. */
  method ToSchemeMap(num: Numerics, raw: map<string, Value>) returns (r: Result<map<string, Scheme>>)
    ensures r.Ok? <==> AllCompile(num, raw)
    ensures r.Ok? ==> r.value == SchemeMapOf(num, raw)
    ensures r.Err? ==> exists k :: k in raw && CompileError(num, raw[k], r.error)
  {
    var s: map<string, Scheme> := map[];
    var todo := raw.Keys;
    while todo != {}
      invariant todo <= raw.Keys
      invariant forall k :: k in raw && k !in todo ==> Compiles(num, raw[k])
      invariant s.Keys == raw.Keys - todo
      invariant forall k :: k in s ==> s[k] == SchemeOf(num, raw[k]).(key := k)
      decreases todo
    {
      var i :| i in todo;
      var val := ToScheme(num, raw[i]);
      if val.Err? {
        return Err(val.error);
      }
      s := s[i := val.value.(key := i)];
      todo := todo - {i};
    }
    return Ok(s);
  }
}
