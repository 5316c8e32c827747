/** The scenarios of sanitize_test.go and a few more, stated on the
    specification functions: compile a raw schema, run the built-in (or an
    extended) registry over one input map, and say what comes out. Each
    scenario is split in two: what its schema entry compiles to, and what
    the compiled field then does with the input. */
module Cases {
  import opened Values
  import opened Strconv
  import opened Schemes
  import opened Handlers
  import opened Extraction

  /** What every map entry starts from: no flags, no bounds, both slice
      bounds at the sentinel -1. */
  const PLAIN: Scheme := ZERO.(sliceMin := -1, sliceMax := -1)

  /** The "a"-only input of most tests. */
  function Input(v: Value): map<string, Value> {
    map["a" := v]
  }

  /** A raw schema with the single field "a". */
  function Schema(entry: map<string, Value>): map<string, Value> {
    map["a" := Dict(entry)]
  }

  lemma HeyLength()
    ensures Utf8Len("Hey there!") == 10
  {
    AsciiLen("Hey there!");
  }

  /** A one-field schema compiles when its entry does, to that entry's
      scheme named "a". */
  lemma SingleField(num: Numerics, entry: map<string, Value>, s: Scheme)
    requires Compiles(num, Dict(entry)) && SchemeOf(num, Dict(entry)) == s
    ensures AllCompile(num, Schema(entry))
    ensures SchemeMapOf(num, Schema(entry)) == map["a" := s.(key := "a")]
  {
  }

  /** A one-field extraction is that field's outcome. */
  lemma SingleOutcome(sch: Scheme, fm: map<string, Handler>, data: map<string, Value>)
    ensures var o := FieldOutcome(fm, "a", sch, Lookup(data, "a"));
      && (Succeeds(map["a" := sch], fm, data) <==> !o.Abort?)
      && (o.Abort? ==> IsExtractionError(map["a" := sch], fm, data, o.error))
      && Output(map["a" := sch], fm, data) == (if o.Put? then map["a" := o.value] else map[])
  {
    var sm := map["a" := sch];
    assert Outcome(sm, fm, data, "a") == FieldOutcome(fm, "a", sch, Lookup(data, "a"));
  }

  // ---------------------------------------------------------------------
  // What the test schemas compile to

  lemma SchemeMustStringMin(num: Numerics)
    requires Lawful(num)
    ensures var e := Dict(map["must" := Bool(true), "type" := Str("string"), "min" := Int(100)]);
      Compiles(num, e) && SchemeOf(num, e) == PLAIN.(must := true, typeName := "string", min := 100)
  {
    var e := Dict(map["must" := Bool(true), "type" := Str("string"), "min" := Int(100)]);
    assert num.toInt64(Int(100)) == Some(100);
    assert !IsShorthand(num, e);
  }

  lemma SchemeMustStringMax(num: Numerics)
    requires Lawful(num)
    ensures var e := Dict(map["must" := Bool(true), "type" := Str("string"), "max" := Int(3)]);
      Compiles(num, e) && SchemeOf(num, e) == PLAIN.(must := true, typeName := "string", max := 3)
  {
    var e := Dict(map["must" := Bool(true), "type" := Str("string"), "max" := Int(3)]);
    assert num.toInt64(Int(3)) == Some(3);
    assert !IsShorthand(num, e);
  }

  lemma SchemeStringMin(num: Numerics)
    requires Lawful(num)
    ensures var e := Dict(map["type" := Str("string"), "min" := Int(100)]);
      Compiles(num, e) && SchemeOf(num, e) == PLAIN.(typeName := "string", min := 100)
  {
    var e := Dict(map["type" := Str("string"), "min" := Int(100)]);
    assert num.toInt64(Int(100)) == Some(100);
    assert !IsShorthand(num, e);
  }

  lemma SchemeStringMax(num: Numerics)
    requires Lawful(num)
    ensures var e := Dict(map["type" := Str("string"), "max" := Int(3)]);
      Compiles(num, e) && SchemeOf(num, e) == PLAIN.(typeName := "string", max := 3)
  {
    var e := Dict(map["type" := Str("string"), "max" := Int(3)]);
    assert num.toInt64(Int(3)) == Some(3);
    assert !IsShorthand(num, e);
  }

  lemma SchemeMustIntMax(num: Numerics, max: int64)
    requires Lawful(num)
    ensures var e := Dict(map["type" := Str("int"), "max" := Int(max), "must" := Bool(true)]);
      Compiles(num, e) && SchemeOf(num, e) == PLAIN.(must := true, typeName := "int", max := max)
  {
    var e := Dict(map["type" := Str("int"), "max" := Int(max), "must" := Bool(true)]);
    assert num.toInt64(Int(max)) == Some(max);
    assert !IsShorthand(num, e);
  }

  lemma SchemeIntMax(num: Numerics)
    requires Lawful(num)
    ensures var e := Dict(map["type" := Str("int"), "max" := Int(3)]);
      Compiles(num, e) && SchemeOf(num, e) == PLAIN.(typeName := "int", max := 3)
  {
    var e := Dict(map["type" := Str("int"), "max" := Int(3)]);
    assert num.toInt64(Int(3)) == Some(3);
    assert !IsShorthand(num, e);
  }

  lemma SchemeMustIntMin(num: Numerics)
    requires Lawful(num)
    ensures var e := Dict(map["type" := Str("int"), "min" := Int(600), "must" := Bool(true)]);
      Compiles(num, e) && SchemeOf(num, e) == PLAIN.(must := true, typeName := "int", min := 600)
  {
    var e := Dict(map["type" := Str("int"), "min" := Int(600), "must" := Bool(true)]);
    assert num.toInt64(Int(600)) == Some(600);
    assert !IsShorthand(num, e);
  }

  /** An entry with just a type name. */
  lemma SchemeTyped(num: Numerics, t: string)
    requires Lawful(num)
    ensures Compiles(num, Dict(map["type" := Str(t)]))
    ensures SchemeOf(num, Dict(map["type" := Str(t)])) == PLAIN.(typeName := t)
  {
    assert !IsShorthand(num, Dict(map["type" := Str(t)]));
  }

  /** An entry with a type name and `must`. */
  lemma SchemeMustTyped(num: Numerics, t: string)
    requires Lawful(num)
    ensures Compiles(num, Dict(map["type" := Str(t), "must" := Bool(true)]))
    ensures SchemeOf(num, Dict(map["type" := Str(t), "must" := Bool(true)])) == PLAIN.(must := true, typeName := t)
  {
    assert !IsShorthand(num, Dict(map["type" := Str(t), "must" := Bool(true)]));
  }

  /** A string slice field, optionally strict and mandatory. */
  lemma SchemeStringSlice(num: Numerics, strict: bool)
    requires Lawful(num)
    ensures var e := if strict
        then Dict(map["type" := Str("string"), "slice" := Bool(true), "allOrNothing" := Bool(true), "must" := Bool(true)])
        else Dict(map["type" := Str("string"), "slice" := Bool(true)]);
      Compiles(num, e) && SchemeOf(num, e) == PLAIN.(typeName := "string", slice := true, allOrNothing := strict, must := strict)
  {
    var e := if strict
      then Dict(map["type" := Str("string"), "slice" := Bool(true), "allOrNothing" := Bool(true), "must" := Bool(true)])
      else Dict(map["type" := Str("string"), "slice" := Bool(true)]);
    assert !IsShorthand(num, e);
  }

  lemma SchemeCappedSlice(num: Numerics)
    requires Lawful(num)
    ensures var e := Dict(map["type" := Str("string"), "slice" := Bool(true), "sliceMax" := Int(0)]);
      Compiles(num, e) && SchemeOf(num, e) == PLAIN.(typeName := "string", slice := true, sliceMax := 0)
  {
    var e := Dict(map["type" := Str("string"), "slice" := Bool(true), "sliceMax" := Int(0)]);
    assert num.toInt(Int(0)) == Some(0);
    assert !IsShorthand(num, e);
  }

  /** A `value` key is not recognised, so it lands in `specific`. */
  lemma SchemeWithValue(num: Numerics, t: string, v: Value, must: bool)
    requires Lawful(num)
    ensures var e := if must then Dict(map["type" := Str(t), "value" := v, "must" := Bool(true)]) else Dict(map["type" := Str(t), "value" := v]);
      Compiles(num, e) && SchemeOf(num, e) == PLAIN.(typeName := t, must := must, specific := map["value" := v])
  {
    var e := if must then Dict(map["type" := Str(t), "value" := v, "must" := Bool(true)]) else Dict(map["type" := Str(t), "value" := v]);
    assert !IsShorthand(num, e);
    assert Compiles(num, e);
    assert SchemeOf(num, e).specific == map["value" := v] by {
      assert e.fields.Keys - RECOGNISED == {"value"};
    }
  }

  lemma SchemeIgnoredBool(num: Numerics)
    requires Lawful(num)
    ensures var e := Dict(map["type" := Str("bool"), "must" := Bool(true), "ignore" := Bool(true)]);
      Compiles(num, e) && SchemeOf(num, e) == PLAIN.(typeName := "bool", must := true, ignore := true)
  {
    var e := Dict(map["type" := Str("bool"), "must" := Bool(true), "ignore" := Bool(true)]);
    assert !IsShorthand(num, e);
  }

  /** The output is known once every field's outcome is. */
  lemma OutputIs(sm: map<string, Scheme>, fm: map<string, Handler>, data: map<string, Value>, out: map<string, Value>)
    requires out.Keys <= sm.Keys
    requires forall n :: n in sm ==> !Outcome(sm, fm, data, n).Abort?
    requires forall n :: n in sm ==> (Outcome(sm, fm, data, n).Put? <==> n in out)
    requires forall n :: n in out ==> Outcome(sm, fm, data, n).value == out[n]
    ensures Succeeds(sm, fm, data) && Output(sm, fm, data) == out
  {
  }

  /** A mandatory scalar field its handler rejects fails the extraction. */
  lemma MustFieldFails(sch: Scheme, fm: map<string, Handler>, v: Value)
    requires sch.typeName in fm && sch.must && !v.List? && fm[sch.typeName](v, sch).Err?
    ensures !Succeeds(map["a" := sch], fm, Input(v))
    ensures IsExtractionError(map["a" := sch], fm, Input(v), fm[sch.typeName](v, sch).error)
  {
    SingleOutcome(sch, fm, Input(v));
  }

  /** An optional scalar field its handler rejects is dropped. */
  lemma OptionalFieldDropped(sch: Scheme, fm: map<string, Handler>, v: Value)
    requires sch.typeName in fm && !sch.must && !v.List? && fm[sch.typeName](v, sch).Err?
    ensures Succeeds(map["a" := sch], fm, Input(v)) && Output(map["a" := sch], fm, Input(v)) == map[]
  {
    SingleOutcome(sch, fm, Input(v));
  }

  /** A scalar field its handler accepts is output, unless it is ignored. */
  lemma FieldPut(sch: Scheme, fm: map<string, Handler>, v: Value)
    requires sch.typeName in fm && !v.List? && fm[sch.typeName](v, sch).Ok?
    ensures Succeeds(map["a" := sch], fm, Input(v))
    ensures Output(map["a" := sch], fm, Input(v)) ==
      if sch.ignore then map[] else map["a" := fm[sch.typeName](v, sch).value]
  {
    SingleOutcome(sch, fm, Input(v));
  }

  /** A lenient, uncapped string slice keeps only the strings of [30, 20, "xxd"]. */
  lemma MixedStrings(sch: Scheme)
    requires !sch.allOrNothing && sch.sliceMax == -1 && sch.min == 0 && sch.max == 0
    ensures Collect(Stringer, sch, [Int(30), Int(20), Str("xxd")], []) == Ok([Str("xxd")])
  {
    var xs := [Int(30), Int(20), Str("xxd")];
    assert xs[1..] == [Int(20), Str("xxd")] && xs[1..][1..] == [Str("xxd")] && xs[1..][1..][1..] == [];
  }

  /** An allOrNothing string slice rejects [30, 20, "xxd"] at its first element. */
  lemma StrictMixedStrings(sch: Scheme)
    requires sch.allOrNothing && sch.sliceMax == -1
    ensures Collect(Stringer, sch, [Int(30), Int(20), Str("xxd")], []) == Err(BadSliceMember)
  {
  }

  /** The int handler rejects text that is not a decimal number. */
  lemma HeyIsNoNumber(num: Numerics, sch: Scheme)
    ensures "int" in Builtins(num) && Builtins(num)["int"](Str("Hey there!"), sch).Err?
  {
    assert !IsDigit("Hey there!"[0]);
    assert ParseInt("Hey there!") == None;
  }

  /** Single registry entries, one name at a time. They repeat what
      `BuiltinNames` states, but each brings only one entry into a proof,
      which keeps the scenarios below cheap for the solver. */
  lemma StringEntry(num: Numerics)
    ensures "string" in Builtins(num) && Builtins(num)["string"] == Stringer
  {
  }

  lemma BoolEntry(num: Numerics)
    ensures "bool" in Builtins(num) && Builtins(num)["bool"] == Booler
  {
  }

  lemma ConstEntry(num: Numerics)
    ensures "const" in Builtins(num) && Builtins(num)["const"] == Conster
  {
  }

  lemma EqEntry(num: Numerics)
    ensures "eq" in Builtins(num) && Builtins(num)["eq"] == Eqer
  {
  }

  lemma IntEntry(num: Numerics, v: Value, sch: Scheme)
    ensures "int" in Builtins(num) && Builtins(num)["int"](v, sch) == Inter(num, v, sch)
  {
  }

  lemma FloatEntry(num: Numerics, v: Value, sch: Scheme)
    ensures "float" in Builtins(num) && Builtins(num)["float"](v, sch) == Floater(num, v, sch)
  {
  }

  // ---------------------------------------------------------------------
  // The tests

  /** TestStringMinMust (sanitize_test.go:9-28): a string shorter than a
      mandatory field's min fails the extraction. */
  lemma StringMinMust(num: Numerics)
    requires Lawful(num)
    ensures var raw := Schema(map["must" := Bool(true), "type" := Str("string"), "min" := Int(100)]);
      AllCompile(num, raw) && !Succeeds(SchemeMapOf(num, raw), Builtins(num), Input(Str("Hey there!")))
  {
    var s := PLAIN.(must := true, typeName := "string", min := 100);
    SchemeMustStringMin(num);
    SingleField(num, map["must" := Bool(true), "type" := Str("string"), "min" := Int(100)], s);
    StringEntry(num);
    HeyLength();
    MustFieldFails(s.(key := "a"), Builtins(num), Str("Hey there!"));
  }

  /** TestStringMaxMust (sanitize_test.go:30-49). */
  lemma StringMaxMust(num: Numerics)
    requires Lawful(num)
    ensures var raw := Schema(map["must" := Bool(true), "type" := Str("string"), "max" := Int(3)]);
      AllCompile(num, raw) && !Succeeds(SchemeMapOf(num, raw), Builtins(num), Input(Str("Hey there!")))
  {
    var s := PLAIN.(must := true, typeName := "string", max := 3);
    SchemeMustStringMax(num);
    SingleField(num, map["must" := Bool(true), "type" := Str("string"), "max" := Int(3)], s);
    StringEntry(num);
    HeyLength();
    MustFieldFails(s.(key := "a"), Builtins(num), Str("Hey there!"));
  }

  /** TestStringMin (sanitize_test.go:51-69): the same failure on an
      optional field only drops it. */
  lemma StringMin(num: Numerics)
    requires Lawful(num)
    ensures var raw := Schema(map["type" := Str("string"), "min" := Int(100)]);
      && AllCompile(num, raw)
      && Succeeds(SchemeMapOf(num, raw), Builtins(num), Input(Str("Hey there!")))
      && Output(SchemeMapOf(num, raw), Builtins(num), Input(Str("Hey there!"))) == map[]
  {
    var s := PLAIN.(typeName := "string", min := 100);
    SchemeStringMin(num);
    SingleField(num, map["type" := Str("string"), "min" := Int(100)], s);
    StringEntry(num);
    HeyLength();
    OptionalFieldDropped(s.(key := "a"), Builtins(num), Str("Hey there!"));
  }

  /** TestStringMax (sanitize_test.go:71-89). */
  lemma StringMax(num: Numerics)
    requires Lawful(num)
    ensures var raw := Schema(map["type" := Str("string"), "max" := Int(3)]);
      && AllCompile(num, raw)
      && Succeeds(SchemeMapOf(num, raw), Builtins(num), Input(Str("Hey there!")))
      && Output(SchemeMapOf(num, raw), Builtins(num), Input(Str("Hey there!"))) == map[]
  {
    var s := PLAIN.(typeName := "string", max := 3);
    SchemeStringMax(num);
    SingleField(num, map["type" := Str("string"), "max" := Int(3)], s);
    StringEntry(num);
    HeyLength();
    OptionalFieldDropped(s.(key := "a"), Builtins(num), Str("Hey there!"));
  }

  /** TestIntMust (sanitize_test.go:91-110): text that is not a decimal
      number fails a mandatory int field. */
  lemma IntMust(num: Numerics)
    requires Lawful(num)
    ensures var raw := Schema(map["type" := Str("int"), "max" := Int(3), "must" := Bool(true)]);
      AllCompile(num, raw) && !Succeeds(SchemeMapOf(num, raw), Builtins(num), Input(Str("Hey there!")))
  {
    var s := PLAIN.(must := true, typeName := "int", max := 3);
    SchemeMustIntMax(num, 3);
    SingleField(num, map["type" := Str("int"), "max" := Int(3), "must" := Bool(true)], s);
    HeyIsNoNumber(num, s.(key := "a"));
    MustFieldFails(s.(key := "a"), Builtins(num), Str("Hey there!"));
  }

  /** TestInt (sanitize_test.go:112-130). */
  lemma IntOptional(num: Numerics)
    requires Lawful(num)
    ensures var raw := Schema(map["type" := Str("int"), "max" := Int(3)]);
      && AllCompile(num, raw)
      && Succeeds(SchemeMapOf(num, raw), Builtins(num), Input(Str("Hey there!")))
      && Output(SchemeMapOf(num, raw), Builtins(num), Input(Str("Hey there!"))) == map[]
  {
    var s := PLAIN.(typeName := "int", max := 3);
    SchemeIntMax(num);
    SingleField(num, map["type" := Str("int"), "max" := Int(3)], s);
    HeyIsNoNumber(num, s.(key := "a"));
    OptionalFieldDropped(s.(key := "a"), Builtins(num), Str("Hey there!"));
  }

  /** TestIntMax (sanitize_test.go:132-151): 900 exceeds a max of 700. */
  lemma IntMax(num: Numerics)
    requires Lawful(num)
    ensures var raw := Schema(map["type" := Str("int"), "max" := Int(700), "must" := Bool(true)]);
      AllCompile(num, raw) && !Succeeds(SchemeMapOf(num, raw), Builtins(num), Input(Int(900)))
  {
    var s := PLAIN.(must := true, typeName := "int", max := 700);
    SchemeMustIntMax(num, 700);
    SingleField(num, map["type" := Str("int"), "max" := Int(700), "must" := Bool(true)], s);
    IntEntry(num, Int(900), s.(key := "a"));
    assert num.toInt64(Int(900)) == Some(900);
    MustFieldFails(s.(key := "a"), Builtins(num), Int(900));
  }

  /** TestMin (sanitize_test.go:153-172): 500 is below a min of 600. */
  lemma IntMin(num: Numerics)
    requires Lawful(num)
    ensures var raw := Schema(map["type" := Str("int"), "min" := Int(600), "must" := Bool(true)]);
      AllCompile(num, raw) && !Succeeds(SchemeMapOf(num, raw), Builtins(num), Input(Int(500)))
  {
    var s := PLAIN.(must := true, typeName := "int", min := 600);
    SchemeMustIntMin(num);
    SingleField(num, map["type" := Str("int"), "min" := Int(600), "must" := Bool(true)], s);
    IntEntry(num, Int(500), s.(key := "a"));
    assert num.toInt64(Int(500)) == Some(500);
    MustFieldFails(s.(key := "a"), Builtins(num), Int(500));
  }

  /** TestFloatMust (sanitize_test.go:174-192), given that the float parser
      rejects "adsad". */
  lemma FloatMust(num: Numerics)
    requires Lawful(num) && num.parseFloat("adsad") == None
    ensures var raw := Schema(map["type" := Str("float"), "must" := Bool(true)]);
      AllCompile(num, raw) && !Succeeds(SchemeMapOf(num, raw), Builtins(num), Input(Str("adsad")))
  {
    var s := PLAIN.(must := true, typeName := "float");
    SchemeMustTyped(num, "float");
    SingleField(num, map["type" := Str("float"), "must" := Bool(true)], s);
    FloatEntry(num, Str("adsad"), s.(key := "a"));
    MustFieldFails(s.(key := "a"), Builtins(num), Str("adsad"));
  }

  /** TestBoolMust (sanitize_test.go:194-212): only "true" and "false" are
      boolean text. */
  lemma BoolMust(num: Numerics)
    requires Lawful(num)
    ensures var raw := Schema(map["type" := Str("bool"), "must" := Bool(true)]);
      AllCompile(num, raw) && !Succeeds(SchemeMapOf(num, raw), Builtins(num), Input(Str("asdasd")))
  {
    var s := PLAIN.(must := true, typeName := "bool");
    SchemeMustTyped(num, "bool");
    SingleField(num, map["type" := Str("bool"), "must" := Bool(true)], s);
    BoolEntry(num);
    MustFieldFails(s.(key := "a"), Builtins(num), Str("asdasd"));
  }

  /** The schema of TestComposite. */
  function CompositeRaw(): map<string, Value> {
    map[
      "a" := Dict(map["type" := Str("bool")]),
      "b" := Dict(map["type" := Str("float"), "must" := Bool(true)]),
      "c" := Dict(map["type" := Str("string"), "must" := Bool(true)])]
  }

  /** What the schema of TestComposite compiles to. */
  function CompositeSchemeMap(): map<string, Scheme> {
    map[
      "a" := PLAIN.(typeName := "bool", key := "a"),
      "b" := PLAIN.(typeName := "float", must := true, key := "b"),
      "c" := PLAIN.(typeName := "string", must := true, key := "c")]
  }

  /** Adding one compiling entry to a compiling schema adds its scheme, under
      its own name, to the compiled map and changes nothing else. */
  lemma SchemeMapOfPut(num: Numerics, raw: map<string, Value>, k: string, e: Value)
    requires AllCompile(num, raw) && Compiles(num, e)
    ensures AllCompile(num, raw[k := e])
    ensures SchemeMapOf(num, raw[k := e]) == SchemeMapOf(num, raw)[k := SchemeOf(num, e).(key := k)]
  {
  }

  /** A three-field schema compiles when its entries do, each to its own
      scheme under its own name. */
  lemma ThreeFields(num: Numerics, ea: Value, eb: Value, ec: Value, sa: Scheme, sb: Scheme, sc: Scheme)
    requires Compiles(num, ea) && SchemeOf(num, ea) == sa
    requires Compiles(num, eb) && SchemeOf(num, eb) == sb
    requires Compiles(num, ec) && SchemeOf(num, ec) == sc
    ensures AllCompile(num, map["a" := ea, "b" := eb, "c" := ec])
    ensures SchemeMapOf(num, map["a" := ea, "b" := eb, "c" := ec]) ==
      map["a" := sa.(key := "a"), "b" := sb.(key := "b"), "c" := sc.(key := "c")]
  {
    var empty: map<string, Value> := map[];
    assert SchemeMapOf(num, empty) == map[];
    SchemeMapOfPut(num, empty, "a", ea);
    SchemeMapOfPut(num, empty["a" := ea], "b", eb);
    SchemeMapOfPut(num, empty["a" := ea]["b" := eb], "c", ec);
    assert empty["a" := ea]["b" := eb]["c" := ec] == map["a" := ea, "b" := eb, "c" := ec];
  }

  lemma CompositeSchemes(num: Numerics)
    requires Lawful(num)
    ensures AllCompile(num, CompositeRaw())
    ensures SchemeMapOf(num, CompositeRaw()) == CompositeSchemeMap()
  {
    SchemeTyped(num, "bool");
    SchemeMustTyped(num, "float");
    SchemeMustTyped(num, "string");
    ThreeFields(num, Dict(map["type" := Str("bool")]), Dict(map["type" := Str("float"), "must" := Bool(true)]),
      Dict(map["type" := Str("string"), "must" := Bool(true)]),
      PLAIN.(typeName := "bool"), PLAIN.(typeName := "float", must := true), PLAIN.(typeName := "string", must := true));
  }

  /** The input of TestComposite. */
  function CompositeData(): map<string, Value> {
    map["a" := Str("asdasd"), "b" := Str("20"), "c" := Str("Hey there.")]
  }

  lemma CompositeOutcomes(num: Numerics, twenty: Float64)
    requires num.parseFloat("20") == Some(twenty) && num.truncate(twenty) >= 0
    ensures var sm := CompositeSchemeMap(); var fm := Builtins(num); var dat := CompositeData();
      && Outcome(sm, fm, dat, "a") == Skip
      && Outcome(sm, fm, dat, "b") == Put(Float(twenty))
      && Outcome(sm, fm, dat, "c") == Put(Str("Hey there."))
  {
    BuiltinNames(num);
    var sm := CompositeSchemeMap();
    assert Booler(Str("asdasd"), sm["a"]).Err?;
    assert Floater(num, Str("20"), sm["b"]) == Ok(Float(twenty));
    assert Stringer(Str("Hey there."), sm["c"]) == Ok(Str("Hey there."));
  }

  /** A three-field extraction whose first field is skipped and whose two
      others are put. */
  lemma SkipPutPut(sm: map<string, Scheme>, fm: map<string, Handler>, data: map<string, Value>, vb: Value, vc: Value)
    requires sm.Keys == {"a", "b", "c"}
    requires Outcome(sm, fm, data, "a") == Skip
    requires Outcome(sm, fm, data, "b") == Put(vb) && Outcome(sm, fm, data, "c") == Put(vc)
    ensures Succeeds(sm, fm, data) && Output(sm, fm, data) == map["b" := vb, "c" := vc]
  {
    OutputIs(sm, fm, data, map["b" := vb, "c" := vc]);
  }

  lemma CompositeExtraction(num: Numerics, twenty: Float64)
    requires num.parseFloat("20") == Some(twenty) && num.truncate(twenty) >= 0
    ensures Succeeds(CompositeSchemeMap(), Builtins(num), CompositeData())
    ensures Output(CompositeSchemeMap(), Builtins(num), CompositeData()) == map["b" := Float(twenty), "c" := Str("Hey there.")]
  {
    CompositeOutcomes(num, twenty);
    SkipPutPut(CompositeSchemeMap(), Builtins(num), CompositeData(), Float(twenty), Str("Hey there."));
  }

  /** TestComposite (sanitize_test.go:214-241), given that the float parser
      reads "20" as a float that truncates to a non-negative integer: the
      optional bool field is dropped and the two others are output. */
  lemma Composite(num: Numerics, twenty: Float64)
    requires Lawful(num) && num.parseFloat("20") == Some(twenty) && num.truncate(twenty) >= 0
    ensures AllCompile(num, CompositeRaw())
    ensures var sm := SchemeMapOf(num, CompositeRaw());
      && Succeeds(sm, Builtins(num), CompositeData())
      && Output(sm, Builtins(num), CompositeData()) == map["b" := Float(twenty), "c" := Str("Hey there.")]
      && |Output(sm, Builtins(num), CompositeData())| == 2
  {
    CompositeSchemes(num);
    CompositeExtraction(num, twenty);
    assert |map["b" := Float(twenty), "c" := Str("Hey there.")]| == 2;
  }

  /** The caller-defined handler of TestUserDefinedType: it accepts only
      the string "asdasd". */
  function MyType(dat: Value, s: Scheme): (r: Result<Value>)
    ensures r.Ok? <==> dat == Str("asdasd")
    ensures r.Ok? ==> r.value == dat
  {
    if !dat.Str? then Err(Custom("Baaad."))
    else if dat.s == "asdasd" then Ok(dat)
    else Err(Custom("This is baad too."))
  }

  /** The registration TestUserDefinedType hands to `AddFuncs`. */
  function UserFuncs(): map<string, Handler> {
    map["myType" := MyType]
  }

  /** After `AddFuncs`, "myType" names the caller's handler, which rejects
      "asdasd1" with its second message. */
  lemma MyTypeRegistered(num: Numerics, sch: Scheme)
    ensures var fm := Builtins(num) + UserFuncs();
      "myType" in fm && fm["myType"](Str("asdasd1"), sch) == Err(Custom("This is baad too."))
  {
    var fm := Builtins(num) + UserFuncs();
    assert fm["myType"] == MyType;
  }

  lemma MyTypeRejects(num: Numerics)
    ensures var sm := map["a" := PLAIN.(must := true, typeName := "myType", key := "a")];
      var fm := Builtins(num) + UserFuncs();
      && !Succeeds(sm, fm, Input(Str("asdasd1")))
      && IsExtractionError(sm, fm, Input(Str("asdasd1")), Custom("This is baad too."))
  {
    var sch := PLAIN.(must := true, typeName := "myType", key := "a");
    MyTypeRegistered(num, sch);
    MustFieldFails(sch, Builtins(num) + UserFuncs(), Str("asdasd1"));
  }

  /** The schema of TestUserDefinedType. */
  function UserSchema(): map<string, Value> {
    Schema(map["type" := Str("myType"), "must" := Bool(true)])
  }

  /** TestUserDefinedType (sanitize_test.go:243-272): once "myType" is
      registered, a mandatory field of that type rejects "asdasd1" with the
      handler's own error. */
  lemma UserDefinedType(num: Numerics)
    requires Lawful(num)
    ensures var fm := Builtins(num) + UserFuncs();
      && AllCompile(num, UserSchema())
      && !Succeeds(SchemeMapOf(num, UserSchema()), fm, Input(Str("asdasd1")))
      && IsExtractionError(SchemeMapOf(num, UserSchema()), fm, Input(Str("asdasd1")), Custom("This is baad too."))
  {
    SchemeMustTyped(num, "myType");
    SingleField(num, map["type" := Str("myType"), "must" := Bool(true)], PLAIN.(must := true, typeName := "myType"));
    MyTypeRejects(num);
  }

  /** The sequence the test drives: `New`, then `AddFuncs`, then `Extract`.
      It succeeds exactly when the schema compiles and the extended registry
      extracts the input, with that output. */
  method NewAddExtract(num: Numerics, raw: map<string, Value>, funcs: map<string, Handler>, data: map<string, Value>)
    returns (r: Result<map<string, Value>>)
    ensures r.Ok? <==> AllCompile(num, raw) && Succeeds(SchemeMapOf(num, raw), Builtins(num) + funcs, data)
    ensures r.Ok? ==> r.value == Output(SchemeMapOf(num, raw), Builtins(num) + funcs, data)
  {
    var e := Extractor.New(raw, num);
    if e.Err? {
      return Err(e.error);
    }
    var ex := e.value;
    ex.AddFuncs(funcs);
    r := ex.Extract(data);
  }

  /** TestUserDefinedType as the test drives it. */
  method UserDefinedTypeScenario(num: Numerics) returns (r: Result<map<string, Value>>)
    requires Lawful(num)
    ensures r.Err?
  {
    UserDefinedType(num);
    r := NewAddExtract(num, UserSchema(), UserFuncs(), Input(Str("asdasd1")));
  }

  /** Without the registration the same schema fails for want of a handler,
      whatever the input. */
  lemma UnregisteredType(num: Numerics, data: map<string, Value>)
    requires Lawful(num)
    ensures var raw := Schema(map["type" := Str("myType"), "must" := Bool(true)]);
      && AllCompile(num, raw)
      && IsExtractionError(SchemeMapOf(num, raw), Builtins(num), data, NoHandler("a"))
  {
    var s := PLAIN.(must := true, typeName := "myType");
    SchemeMustTyped(num, "myType");
    SingleField(num, map["type" := Str("myType"), "must" := Bool(true)], s);
    BuiltinNames(num);
    MissingHandlerFails(map["a" := s.(key := "a")], Builtins(num), data, "a");
  }

  /** A string slice drops the non-string elements: [30, 20, "xxd"] gives ["xxd"]. */
  lemma StringSlice(num: Numerics)
    requires Lawful(num)
    ensures var raw := Schema(map["type" := Str("string"), "slice" := Bool(true)]);
      var dat := Input(List([Int(30), Int(20), Str("xxd")]));
      && AllCompile(num, raw)
      && Succeeds(SchemeMapOf(num, raw), Builtins(num), dat)
      && Output(SchemeMapOf(num, raw), Builtins(num), dat) == map["a" := List([Str("xxd")])]
  {
    var s := PLAIN.(typeName := "string", slice := true, allOrNothing := false, must := false);
    SchemeStringSlice(num, false);
    SingleField(num, map["type" := Str("string"), "slice" := Bool(true)], s);
    StringEntry(num);
    var xs := [Int(30), Int(20), Str("xxd")];
    MixedStrings(s.(key := "a"));
    SingleOutcome(s.(key := "a"), Builtins(num), Input(List(xs)));
  }

  /** The same field with allOrNothing and must rejects the mixed list. */
  lemma StrictStringSlice(num: Numerics)
    requires Lawful(num)
    ensures var raw := Schema(map["type" := Str("string"), "slice" := Bool(true), "allOrNothing" := Bool(true), "must" := Bool(true)]);
      var dat := Input(List([Int(30), Int(20), Str("xxd")]));
      && AllCompile(num, raw)
      && !Succeeds(SchemeMapOf(num, raw), Builtins(num), dat)
      && IsExtractionError(SchemeMapOf(num, raw), Builtins(num), dat, BadSliceMember)
  {
    var s := PLAIN.(typeName := "string", slice := true, allOrNothing := true, must := true);
    SchemeStringSlice(num, true);
    SingleField(num, map["type" := Str("string"), "slice" := Bool(true), "allOrNothing" := Bool(true), "must" := Bool(true)], s);
    StringEntry(num);
    var sch := s.(key := "a");
    var xs := [Int(30), Int(20), Str("xxd")];
    StrictMixedStrings(sch);
    SingleOutcome(sch, Builtins(num), Input(List(xs)));
  }

  /** With sliceMax 0 one element is still accepted: the cap admits
      sliceMax + 1 elements. */
  lemma SliceMaxAdmitsOneMore(num: Numerics)
    requires Lawful(num)
    ensures var raw := Schema(map["type" := Str("string"), "slice" := Bool(true), "sliceMax" := Int(0)]);
      var dat := Input(List([Str("x"), Str("y")]));
      && AllCompile(num, raw)
      && Succeeds(SchemeMapOf(num, raw), Builtins(num), dat)
      && Output(SchemeMapOf(num, raw), Builtins(num), dat) == map["a" := List([Str("x")])]
  {
    var s := PLAIN.(typeName := "string", slice := true, sliceMax := 0);
    SchemeCappedSlice(num);
    SingleField(num, map["type" := Str("string"), "slice" := Bool(true), "sliceMax" := Int(0)], s);
    StringEntry(num);
    var sch := s.(key := "a");
    var xs := [Str("x"), Str("y")];
    assert Collect(Stringer, sch, xs, []) == Ok([Str("x")]) by {
      assert xs[1..] == [Str("y")];
      assert Utf8Len("x") == 1;
    }
    SingleOutcome(sch, Builtins(num), Input(List(xs)));
  }

  /** A const field is output with its literal even when the input is empty. */
  lemma ConstOnEmptyInput(num: Numerics)
    requires Lawful(num)
    ensures var raw := Schema(map["type" := Str("const"), "value" := Str("example")]);
      && AllCompile(num, raw)
      && Succeeds(SchemeMapOf(num, raw), Builtins(num), map[])
      && Output(SchemeMapOf(num, raw), Builtins(num), map[]) == map["a" := Str("example")]
  {
    var s := PLAIN.(typeName := "const", must := false, specific := map["value" := Str("example")]);
    SchemeWithValue(num, "const", Str("example"), false);
    SingleField(num, map["type" := Str("const"), "value" := Str("example")], s);
    ConstEntry(num);
    assert Lookup(map[], "a") == Null;
    SingleOutcome(s.(key := "a"), Builtins(num), map[]);
  }

  /** What a mandatory, non-ignored eq field that is not a slice does with
      any value: a sequence aborts, its literal is put, anything else aborts
      with the literal in the error. */
  lemma EqOutcome(sch: Scheme, fm: map<string, Handler>, v: Value)
    requires "eq" in fm && fm["eq"] == Eqer
    requires sch.typeName == "eq" && sch.must && !sch.slice && !sch.ignore
    ensures FieldOutcome(fm, sch.key, sch, v) ==
      if v.List? then Abort(UnexpectedSlice)
      else if v == SpecificValue(sch) then Put(v)
      else Abort(NotEqual(sch.key, SpecificValue(sch)))
  {
  }

  /** A mandatory eq field puts exactly its literal and rejects every other
      value: a sequence as unexpected, any other value (such as
      "example1234") naming the field and the literal. */
  lemma EqField(num: Numerics, v: Value)
    requires Lawful(num)
    ensures var raw := Schema(map["type" := Str("eq"), "value" := Str("example123"), "must" := Bool(true)]);
      && AllCompile(num, raw)
      && var sm := SchemeMapOf(num, raw);
      && (v == Str("example123") ==>
            Succeeds(sm, Builtins(num), Input(v)) && Output(sm, Builtins(num), Input(v)) == map["a" := v])
      && (!v.List? && v != Str("example123") ==>
            !Succeeds(sm, Builtins(num), Input(v)) && IsExtractionError(sm, Builtins(num), Input(v), NotEqual("a", Str("example123"))))
      && (v.List? ==>
            !Succeeds(sm, Builtins(num), Input(v)) && IsExtractionError(sm, Builtins(num), Input(v), UnexpectedSlice))
  {
    var s := PLAIN.(typeName := "eq", must := true, specific := map["value" := Str("example123")]);
    SchemeWithValue(num, "eq", Str("example123"), true);
    SingleField(num, map["type" := Str("eq"), "value" := Str("example123"), "must" := Bool(true)], s);
    EqEntry(num);
    var sch := s.(key := "a");
    EqOutcome(sch, Builtins(num), v);
    SingleOutcome(sch, Builtins(num), Input(v));
  }

  /** An ignored mandatory field is still validated: its failure aborts the
      extraction although its value would never be output. */
  lemma IgnoredFieldStillValidated(num: Numerics)
    requires Lawful(num)
    ensures var raw := Schema(map["type" := Str("bool"), "must" := Bool(true), "ignore" := Bool(true)]);
      && AllCompile(num, raw)
      && !Succeeds(SchemeMapOf(num, raw), Builtins(num), Input(Str("yes")))
      && Succeeds(SchemeMapOf(num, raw), Builtins(num), Input(Str("true")))
      && Output(SchemeMapOf(num, raw), Builtins(num), Input(Str("true"))) == map[]
  {
    var s := PLAIN.(typeName := "bool", must := true, ignore := true);
    SchemeIgnoredBool(num);
    SingleField(num, map["type" := Str("bool"), "must" := Bool(true), "ignore" := Bool(true)], s);
    BoolEntry(num);
    MustFieldFails(s.(key := "a"), Builtins(num), Str("yes"));
    FieldPut(s.(key := "a"), Builtins(num), Str("true"));
  }

  /** The shorthand 1 and the entry {type: "string"} compile to schemes
      that differ only in the slice bounds (0 against the sentinel -1); since
      neither is a slice field and the built-in string handler reads only the
      length bounds, both behave identically on every input. */
  lemma ShorthandActsAsPlainString(num: Numerics, name: string, v: Value)
    requires Lawful(num)
    ensures Compiles(num, Int(1)) && Compiles(num, Dict(map["type" := Str("string")]))
    ensures var short := SchemeOf(num, Int(1)); var long := SchemeOf(num, Dict(map["type" := Str("string")]));
      && short.(sliceMin := -1, sliceMax := -1) == long
      && short.sliceMin == 0 && short.sliceMax == 0
      && FieldOutcome(Builtins(num), name, short, v) == FieldOutcome(Builtins(num), name, long, v)
  {
    assert num.toInt(Int(1)) == Some(1);
    SchemeTyped(num, "string");
    BuiltinNames(num);
    var short := SchemeOf(num, Int(1));
    var long := SchemeOf(num, Dict(map["type" := Str("string")]));
    assert short == ZERO.(typeName := "string");
    assert Stringer(v, short) == Stringer(v, long);
  }
}
