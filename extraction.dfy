/** The extraction orchestrator (sanitize.go:10-16, 125-128, 227-302): an
    `Extractor` owns a compiled schema and a handler registry, and `Extract`
    turns one input map into the map of validated, non-ignored fields or an
    error. */
module Extraction {
  import opened Values
  import opened Schemes
  import opened Handlers

  // ---------------------------------------------------------------------
  // Slice fields

  /** The handler outputs of the elements it accepts, in input order. */
  function Successes(h: Handler, s: Scheme, xs: seq<Value>): (acc: seq<Value>)
    ensures |acc| <= |xs|
  {
    if xs == [] then []
    else match h(xs[0], s)
      case Ok(v) => [v] + Successes(h, s, xs[1..])
      case Err(_) => Successes(h, s, xs[1..])
  }

  /** A list cut to its first `sliceMax + 1` elements, unless `sliceMax` is
      the sentinel -1 (or below). */
  function Capped(acc: seq<Value>, sliceMax: int): (r: seq<Value>)
    ensures sliceMax > -1 ==> |r| <= sliceMax + 1
    ensures |r| <= |acc| && r == acc[..|r|]
    ensures |r| < |acc| ==> |r| == sliceMax + 1
  {
    if sliceMax > -1 && |acc| > sliceMax + 1 then acc[..sliceMax + 1] else acc
  }

  /** The inner loop of `Extract` (sanitize.go:262-276) from the point where
      `f` has been accepted and `xs` remains: stop once more than `sliceMax`
      elements are accepted, abort on a failing element of an allOrNothing
      field, skip it otherwise. */
  function Collect(h: Handler, s: Scheme, xs: seq<Value>, f: seq<Value>): (r: Result<seq<Value>>)
    ensures r.Err? ==> s.allOrNothing && r.error == BadSliceMember
    ensures r.Ok? ==> |f| <= |r.value| <= |f| + |xs| && r.value[..|f|] == f
    decreases |xs|
  {
    if xs == [] then Ok(f)
    else if s.sliceMax > -1 && |f| > s.sliceMax then Ok(f)
    else match h(xs[0], s)
      case Err(_) => if s.allOrNothing then Err(BadSliceMember) else Collect(h, s, xs[1..], f)
      case Ok(v) => Collect(h, s, xs[1..], f + [v])
  }

  /** Whatever it accepts is the run of all accepted elements, capped at
      `sliceMax + 1`: the elements the cap leaves unevaluated cannot change
      it. */
  lemma {:induction false} CollectAccepts(h: Handler, s: Scheme, xs: seq<Value>, f: seq<Value>)
    requires s.sliceMax <= -1 || |f| <= s.sliceMax + 1
    ensures Collect(h, s, xs, f).Ok? ==> Collect(h, s, xs, f).value == Capped(f + Successes(h, s, xs), s.sliceMax)
    decreases |xs|
  {
    if xs == [] {
      assert f + Successes(h, s, xs) == f;
    } else if s.sliceMax > -1 && |f| > s.sliceMax {
      assert (f + Successes(h, s, xs))[..s.sliceMax + 1] == f;
    } else {
      match h(xs[0], s)
      case Err(_) =>
        CollectAccepts(h, s, xs[1..], f);
      case Ok(v) =>
        CollectAccepts(h, s, xs[1..], f + [v]);
        assert f + Successes(h, s, xs) == (f + [v]) + Successes(h, s, xs[1..]);
    }
  }

  /** On an allOrNothing field the loop fails exactly when some element fails
      at a position the cap still lets it be evaluated at: with `f` accepted
      already, element `i` is evaluated iff `|f| + i <= sliceMax` (or there is
      no cap). */
  lemma {:induction false} CollectStrictFails(h: Handler, s: Scheme, xs: seq<Value>, f: seq<Value>)
    requires s.allOrNothing
    ensures Collect(h, s, xs, f).Err? <==>
      exists i :: 0 <= i < |xs| && h(xs[i], s).Err? && (s.sliceMax <= -1 || |f| + i <= s.sliceMax)
    decreases |xs|
  {
    if xs == [] {
    } else if s.sliceMax > -1 && |f| > s.sliceMax {
    } else {
      match h(xs[0], s)
      case Err(_) =>
        assert h(xs[0], s).Err? && (s.sliceMax <= -1 || |f| + 0 <= s.sliceMax);
      case Ok(v) =>
        CollectStrictFails(h, s, xs[1..], f + [v]);
        if Collect(h, s, xs, f).Err? {
          var i :| 0 <= i < |xs[1..]| && h(xs[1..][i], s).Err? && (s.sliceMax <= -1 || |f + [v]| + i <= s.sliceMax);
          assert xs[i + 1] == xs[1..][i];
        }
    }
  }

  /** On an allOrNothing field whatever is accepted is the handler outputs of
      the leading elements, none dropped: all of them, or exactly
      `sliceMax + 1`. */
  lemma {:induction false} CollectStrictPrefix(h: Handler, s: Scheme, xs: seq<Value>, f: seq<Value>)
    requires s.allOrNothing
    requires s.sliceMax <= -1 || |f| <= s.sliceMax + 1
    ensures Collect(h, s, xs, f).Ok? ==>
      var acc := Collect(h, s, xs, f).value;
      && |f| <= |acc| <= |f| + |xs| && acc[..|f|] == f
      && (|acc| == |f| + |xs| || (s.sliceMax > -1 && |acc| == s.sliceMax + 1))
      && forall i :: 0 <= i < |acc| - |f| ==> h(xs[i], s) == Ok(acc[|f| + i])
    decreases |xs|
  {
    if xs == [] || (s.sliceMax > -1 && |f| > s.sliceMax) {
    } else {
      match h(xs[0], s)
      case Err(_) =>
      case Ok(v) =>
        CollectStrictPrefix(h, s, xs[1..], f + [v]);
        if Collect(h, s, xs, f).Ok? {
          var acc := Collect(h, s, xs, f).value;
          forall i | 0 <= i < |acc| - |f|
            ensures h(xs[i], s) == Ok(acc[|f| + i])
          {
            if i > 0 {
              assert xs[i] == xs[1..][i - 1];
            } else {
              assert acc[..|f| + 1] == f + [v];
              assert acc[|f|] == (f + [v])[|f|];
            }
          }
          assert acc[..|f|] == (acc[..|f| + 1])[..|f|];
        }
    }
  }

  // ---------------------------------------------------------------------
  // Fields and the whole extraction

  /** What `Extract` does with one field: abort the whole extraction, skip
      the field, or put a value under its name. */
  datatype FieldResult = Abort(error: Error) | Skip | Put(value: Value)

  /** The body of `Extract`'s loop (sanitize.go:253-299) for field `name`
      with scheme `sch`, registry `fm` and raw value `current`: a missing
      handler aborts whatever the value, an optional field never aborts on a
      scalar, an ignored field is never put, and whatever a sequence puts is
      a list. */
  function FieldOutcome(fm: map<string, Handler>, name: string, sch: Scheme, current: Value): (r: FieldResult)
    ensures sch.typeName !in fm ==> r == Abort(NoHandler(name))
    ensures sch.typeName in fm && !current.List? && !sch.must ==> !r.Abort?
    ensures sch.ignore ==> !r.Put?
    ensures current.List? && r.Put? ==> sch.slice && r.value.List?
  {
    if sch.typeName !in fm then Abort(NoHandler(name))
    else
      var h := fm[sch.typeName];
      match current
      case List(xs) =>
        if !sch.slice then Abort(UnexpectedSlice)
        else (
          match Collect(h, sch, xs, [])
          case Err(e) => Abort(e)
          case Ok(f) =>
            if sch.sliceMin > -1 && |f| < sch.sliceMin then
              (if sch.must then Abort(SliceTooShort) else Skip)
            else if sch.ignore then Skip
            else Put(List(f)))
      case _ =>
        match h(current, sch)
        case Err(e) => if sch.must then Abort(e) else Skip
        case Ok(v) => if sch.ignore then Skip else Put(v)
  }

  /** The outcome for field `name` of schema `sm` on input `data`. */
  function Outcome(sm: map<string, Scheme>, fm: map<string, Handler>, data: map<string, Value>, name: string): FieldResult
    requires name in sm
  {
    FieldOutcome(fm, name, sm[name], Lookup(data, name))
  }

  /** Extraction succeeds iff no field aborts it. */
  predicate Succeeds(sm: map<string, Scheme>, fm: map<string, Handler>, data: map<string, Value>) {
    forall name :: name in sm ==> !Outcome(sm, fm, data, name).Abort?
  }

  /** The errors an extraction may report: the abort of some field. Which one
      is reported depends on Go's map iteration order. */
  predicate IsExtractionError(sm: map<string, Scheme>, fm: map<string, Handler>, data: map<string, Value>, e: Error) {
    exists name :: name in sm && Outcome(sm, fm, data, name) == Abort(e)
  }

  /** The values put by the fields among `names`. */
  function OutputOn(sm: map<string, Scheme>, fm: map<string, Handler>, data: map<string, Value>, names: set<string>): map<string, Value> {
    map name | name in names && name in sm && Outcome(sm, fm, data, name).Put? :: Outcome(sm, fm, data, name).value
  }

  /** The output of a successful extraction: only schema fields, never an
      ignored one. */
  function Output(sm: map<string, Scheme>, fm: map<string, Handler>, data: map<string, Value>): (out: map<string, Value>)
    ensures out.Keys <= sm.Keys
    ensures forall name :: name in out ==> !sm[name].ignore
  {
    OutputOn(sm, fm, data, sm.Keys)
  }

  lemma OutputOnStep(sm: map<string, Scheme>, fm: map<string, Handler>, data: map<string, Value>, names: set<string>, i: string)
    requires i in sm
    ensures OutputOn(sm, fm, data, names + {i}) ==
      if Outcome(sm, fm, data, i).Put? then OutputOn(sm, fm, data, names)[i := Outcome(sm, fm, data, i).value]
      else OutputOn(sm, fm, data, names)
  {
  }

  /** A field whose type has no handler makes every extraction fail, whether
      or not the input holds the field (sanitize.go:254-257). */
  lemma MissingHandlerFails(sm: map<string, Scheme>, fm: map<string, Handler>, data: map<string, Value>, name: string)
    requires name in sm && sm[name].typeName !in fm
    ensures !Succeeds(sm, fm, data)
    ensures IsExtractionError(sm, fm, data, NoHandler(name))
  {
    assert Outcome(sm, fm, data, name) == Abort(NoHandler(name));
  }

  /** A scalar or absent value (sanitize.go:287-299): a failure aborts the
      extraction with the handler's error when the field is a must and drops
      the field otherwise; a success is output unless the field is ignored.
      In every case but the first the field does not abort the extraction. */
  lemma ScalarField(sm: map<string, Scheme>, fm: map<string, Handler>, data: map<string, Value>, name: string)
    requires name in sm && sm[name].typeName in fm && !Lookup(data, name).List?
    ensures var res := fm[sm[name].typeName](Lookup(data, name), sm[name]);
      && (res.Err? && sm[name].must ==> !Succeeds(sm, fm, data) && IsExtractionError(sm, fm, data, res.error))
      && (res.Err? && !sm[name].must ==> name !in Output(sm, fm, data))
      && (res.Ok? && !sm[name].ignore ==> name in Output(sm, fm, data) && Output(sm, fm, data)[name] == res.value)
      && (res.Ok? && sm[name].ignore ==> name !in Output(sm, fm, data))
      && (!(res.Err? && sm[name].must) ==> !Outcome(sm, fm, data, name).Abort?)
  {
    var res := fm[sm[name].typeName](Lookup(data, name), sm[name]);
    if res.Err? && sm[name].must {
      assert Outcome(sm, fm, data, name) == Abort(res.error);
    }
  }

  /** An ignored mandatory field with a scalar or absent value is still
      validated: a failing handler aborts the extraction with its error,
      and a succeeding one neither aborts it nor puts the field. */
  lemma IgnoredMustField(sm: map<string, Scheme>, fm: map<string, Handler>, data: map<string, Value>, name: string)
    requires name in sm && sm[name].typeName in fm && !Lookup(data, name).List?
    requires sm[name].must && sm[name].ignore
    ensures var res := fm[sm[name].typeName](Lookup(data, name), sm[name]);
      && (res.Err? ==> !Succeeds(sm, fm, data) && IsExtractionError(sm, fm, data, res.error))
      && (res.Ok? ==> name !in Output(sm, fm, data) && !Outcome(sm, fm, data, name).Abort?)
  {}

  /** A sequence value (sanitize.go:258-286). */
  lemma SliceField(sm: map<string, Scheme>, fm: map<string, Handler>, data: map<string, Value>, name: string, xs: seq<Value>)
    requires name in sm && sm[name].typeName in fm && Lookup(data, name) == List(xs)
    ensures var sch := sm[name]; var h := fm[sch.typeName];
      // a sequence where none is declared aborts
      && (!sch.slice ==> !Succeeds(sm, fm, data) && IsExtractionError(sm, fm, data, UnexpectedSlice))
      // a failing element the cap lets through aborts an allOrNothing field
      && (sch.slice && sch.allOrNothing &&
          (exists i :: 0 <= i < |xs| && h(xs[i], sch).Err? && (sch.sliceMax <= -1 || i <= sch.sliceMax))
          ==> !Succeeds(sm, fm, data) && IsExtractionError(sm, fm, data, BadSliceMember))
      // otherwise the accepted list is the capped run of accepted elements
      && (sch.slice && (!sch.allOrNothing ||
          forall i :: 0 <= i < |xs| && (sch.sliceMax <= -1 || i <= sch.sliceMax) ==> h(xs[i], sch).Ok?) ==>
          var acc := Capped(Successes(h, sch, xs), sch.sliceMax);
          && (sch.sliceMin > -1 && |acc| < sch.sliceMin && sch.must ==>
                !Succeeds(sm, fm, data) && IsExtractionError(sm, fm, data, SliceTooShort))
          && (sch.sliceMin > -1 && |acc| < sch.sliceMin && !sch.must ==> name !in Output(sm, fm, data))
          && ((sch.sliceMin <= -1 || |acc| >= sch.sliceMin) && !sch.ignore ==>
                name in Output(sm, fm, data) && Output(sm, fm, data)[name] == List(acc))
          && (sch.ignore ==> name !in Output(sm, fm, data))
          // and unless a must field falls short of sliceMin, the field does not abort
          && (!(sch.sliceMin > -1 && |acc| < sch.sliceMin && sch.must) ==> !Outcome(sm, fm, data, name).Abort?))
  {
    var sch := sm[name];
    var h := fm[sch.typeName];
    if !sch.slice {
      assert Outcome(sm, fm, data, name) == Abort(UnexpectedSlice);
    } else {
      CollectAccepts(h, sch, xs, []);
      assert [] + Successes(h, sch, xs) == Successes(h, sch, xs);
      if sch.allOrNothing {
        CollectStrictFails(h, sch, xs, []);
        if exists i :: 0 <= i < |xs| && h(xs[i], sch).Err? && (sch.sliceMax <= -1 || i <= sch.sliceMax) {
          assert Outcome(sm, fm, data, name) == Abort(BadSliceMember);
        }
      }
      var acc := Capped(Successes(h, sch, xs), sch.sliceMax);
      if Collect(h, sch, xs, []).Ok? && sch.sliceMin > -1 && |acc| < sch.sliceMin && sch.must {
        assert Outcome(sm, fm, data, name) == Abort(SliceTooShort);
      }
    }
  }

  /** A list that is output never holds more than `sliceMax + 1` elements. */
  lemma SliceCap(sm: map<string, Scheme>, fm: map<string, Handler>, data: map<string, Value>, name: string)
    requires name in Output(sm, fm, data) && Lookup(data, name).List? && sm[name].sliceMax > -1
    ensures Output(sm, fm, data)[name].List?
    ensures |Output(sm, fm, data)[name].items| <= sm[name].sliceMax + 1
  {
    var sch := sm[name];
    var h := fm[sch.typeName];
    var xs := Lookup(data, name).items;
    CollectAccepts(h, sch, xs, []);
    assert [] + Successes(h, sch, xs) == Successes(h, sch, xs);
  }

  // ---------------------------------------------------------------------
  // The extractor

  class Extractor {
    var schemeMap: map<string, Scheme>
    var funcMap: map<string, Handler>

    /** The extractor for a compiled schema, with the built-in handlers. */
    constructor (schemes: map<string, Scheme>, num: Numerics)
      ensures schemeMap == schemes && funcMap == Builtins(num)
    {
      schemeMap := schemes;
      funcMap := Builtins(num);
    }

    /** `New` (sanitize.go:227-242): compile the raw schema, then seed the
        registry with the built-ins. */
    static method New(raw: map<string, Value>, num: Numerics) returns (r: Result<Extractor>)
      ensures r.Ok? <==> AllCompile(num, raw)
      ensures r.Ok? ==> fresh(r.value)
      ensures r.Ok? ==> r.value.schemeMap == SchemeMapOf(num, raw) && r.value.funcMap == Builtins(num)
      ensures r.Err? ==> exists k :: k in raw && CompileError(num, raw[k], r.error)
    {
      var sm := ToSchemeMap(num, raw);
      if sm.Err? {
        return Err(sm.error);
      }
      var e := new Extractor(sm.value, num);
      return Ok(e);
    }

    /** `AddFuncs` (sanitize.go:244-248): register or overwrite handlers. */
    method AddFuncs(a: map<string, Handler>)
      modifies this
      ensures funcMap == old(funcMap) + a
      ensures schemeMap == old(schemeMap)
    {
      var todo := a.Keys;
      while todo != {}
        invariant todo <= a.Keys
        invariant schemeMap == old(schemeMap)
        invariant funcMap == old(funcMap) + map k | k in a && k !in todo :: a[k]
        decreases todo
      {
        var i :| i in todo;
        funcMap := funcMap[i := a[i]];
        todo := todo - {i};
      }
      assert (map k | k in a && k !in todo :: a[k]) == a;
    }

    /** `Extract` (sanitize.go:250-302): run every field, in whatever order
        the schema map yields them; the first abort discards everything. */
    method Extract(data: map<string, Value>) returns (r: Result<map<string, Value>>)
      ensures r.Ok? <==> Succeeds(schemeMap, funcMap, data)
      ensures r.Ok? ==> r.value == Output(schemeMap, funcMap, data)
      ensures r.Err? ==> IsExtractionError(schemeMap, funcMap, data, r.error)
    {
      var ret: map<string, Value> := map[];
      var todo := schemeMap.Keys;
      while todo != {}
        invariant todo <= schemeMap.Keys
        invariant forall k :: k in schemeMap && k !in todo ==> !Outcome(schemeMap, funcMap, data, k).Abort?
        invariant ret == OutputOn(schemeMap, funcMap, data, schemeMap.Keys - todo)
        decreases todo
      {
        var i :| i in todo;
        var v := schemeMap[i];
        var current := Lookup(data, i);
        OutputOnStep(schemeMap, funcMap, data, schemeMap.Keys - todo, i);
        assert schemeMap.Keys - (todo - {i}) == (schemeMap.Keys - todo) + {i};
        if v.typeName !in funcMap {
          MissingHandlerFails(schemeMap, funcMap, data, i);
          return Err(NoHandler(i));
        }
        var cFunc := funcMap[v.typeName];
        if current.List? {
          if !v.slice {
            assert Outcome(schemeMap, funcMap, data, i) == Abort(UnexpectedSlice);
            return Err(UnexpectedSlice);
          }
          var slice := current.items;
          var f: seq<Value> := [];
          var j := 0;
          while j < |slice|
            invariant 0 <= j <= |slice|
            invariant Collect(cFunc, v, slice[j..], f) == Collect(cFunc, v, slice, [])
          {
            if v.sliceMax > -1 && |f| > v.sliceMax {
              break;
            }
            var val := cFunc(slice[j], v);
            assert slice[j..][0] == slice[j] && slice[j..][1..] == slice[j + 1..];
            if val.Err? {
              if v.allOrNothing {
                assert Outcome(schemeMap, funcMap, data, i) == Abort(BadSliceMember);
                return Err(BadSliceMember);
              } else {
                j := j + 1;
                continue;
              }
            }
            f := f + [val.value];
            j := j + 1;
          }
          assert Collect(cFunc, v, slice, []) == Ok(f);
          if v.sliceMin > -1 && |f| < v.sliceMin {
            if v.must {
              assert Outcome(schemeMap, funcMap, data, i) == Abort(SliceTooShort);
              return Err(SliceTooShort);
            } else {
              todo := todo - {i};
              continue;
            }
          }
          if !v.ignore {
            ret := ret[i := List(f)];
          }
        } else {
          var val := cFunc(current, v);
          if val.Err? {
            if v.must {
              assert Outcome(schemeMap, funcMap, data, i) == Abort(val.error);
              return Err(val.error);
            } else {
              todo := todo - {i};
              continue;
            }
          }
          if !v.ignore {
            ret := ret[i := val.value];
          }
        }
        todo := todo - {i};
      }
      return Ok(ret);
    }
  }

  /** `Fast` (sanitize.go:10-16): compile and extract in one call. */
  method Fast(sch: map<string, Value>, data: map<string, Value>, num: Numerics) returns (r: Result<map<string, Value>>)
    ensures r.Ok? <==> AllCompile(num, sch) && Succeeds(SchemeMapOf(num, sch), Builtins(num), data)
    ensures r.Ok? ==> r.value == Output(SchemeMapOf(num, sch), Builtins(num), data)
    ensures r.Err? ==>
      || (exists k :: k in sch && CompileError(num, sch[k], r.error))
      || (AllCompile(num, sch) && IsExtractionError(SchemeMapOf(num, sch), Builtins(num), data, r.error))
  {
    var e := Extractor.New(sch, num);
    if e.Err? {
      return Err(e.error);
    }
    r := e.value.Extract(data);
  }
}
