/** What the generator promises, proved of its specification. */
module GeneratorProperties {
  import opened Wrappers
  import opened Models
  import opened Generator
  import RandomData

  /** Parameters still unconsumed when field `j` is reached. */
  function LeftAt(fields: seq<FieldDecl>, params: seq<Value>, j: nat): nat
    requires j <= |fields|
  {
    |params| - Min(ParamFieldsBefore(fields, j), |params|)
  }

  /** Generating `c` from `ps` in `ctx`, starting from `sup`, succeeds with the instance `o`. */
  ghost predicate Yields(s: Schema, ctx: seq<Obj>, c: ModelClass, ps: seq<Value>, sup: Supply,
                         src: RandomData.LetterSource, o: Obj)
    requires WellFormed(s) && ValidContext(s, ctx)
  {
    Generate(s, ctx, c, ps, sup, src).Ok? && Generate(s, ctx, c, ps, sup, src).value.obj == o
  }

  /** A prefix of a successful generation is itself successful. */
  lemma PrefixOk(s: Schema, ctx: seq<Obj>, cls: ModelClass, params: seq<Value>, sup: Supply,
                 src: RandomData.LetterSource, i: nat, n: nat)
    requires WellFormed(s) && ValidContext(s, ctx) && cls in s && i <= n <= |s[cls].fields|
    requires GenPrefix(s, ctx, cls, params, sup, src, n).Ok?
    ensures GenPrefix(s, ctx, cls, params, sup, src, i).Ok?
  {
    if GenPrefix(s, ctx, cls, params, sup, src, i).Err? {
      ErrorPersists(s, ctx, cls, params, sup, src, i, n);
    }
  }

  /**
   * Parameters are consumed strictly left to right, one per Parameterizable
   * field reached, and only while some remain: before field `i` exactly
   * `min(ParamFieldsBefore(i), |params|)` of them are gone. Nested
   * generation does not move this cursor.
   */
  lemma {:induction false} ParamCursor(s: Schema, ctx: seq<Obj>, cls: ModelClass, params: seq<Value>,
                                       sup: Supply, src: RandomData.LetterSource, i: nat)
    requires WellFormed(s) && ValidContext(s, ctx) && cls in s && i <= |s[cls].fields|
    requires GenPrefix(s, ctx, cls, params, sup, src, i).Ok?
    ensures GenPrefix(s, ctx, cls, params, sup, src, i).value.params
            == params[Min(ParamFieldsBefore(s[cls].fields, i), |params|)..]
  {
    if i > 0 {
      PrefixOk(s, ctx, cls, params, sup, src, i - 1, i);
      ParamCursor(s, ctx, cls, params, sup, src, i - 1);
      var p := GenPrefix(s, ctx, cls, params, sup, src, i - 1).value;
      assert GenPrefix(s, ctx, cls, params, sup, src, i) == FieldStep(s, ctx, cls, i - 1, p, src);
      var m := Min(ParamFieldsBefore(s[cls].fields, i - 1), |params|);
      if ArmOf(s[cls].fields[i - 1], ctx, |p.params|) == FromParameter {
        assert p.params[1..] == params[m + 1..];
      }
    }
  }

  /** Fields not yet reached still hold the constructor's values. */
  lemma {:induction false} Untouched(s: Schema, ctx: seq<Obj>, cls: ModelClass, params: seq<Value>,
                                     sup: Supply, src: RandomData.LetterSource, i: nat)
    requires WellFormed(s) && ValidContext(s, ctx) && cls in s && i <= |s[cls].fields|
    requires GenPrefix(s, ctx, cls, params, sup, src, i).Ok?
    ensures forall j :: i <= j < |s[cls].fields| ==>
              GenPrefix(s, ctx, cls, params, sup, src, i).value.obj.fields[j] == NewInstance(s, cls, sup).0.fields[j]
  {
    if i > 0 {
      PrefixOk(s, ctx, cls, params, sup, src, i - 1, i);
      Untouched(s, ctx, cls, params, sup, src, i - 1);
      var p := GenPrefix(s, ctx, cls, params, sup, src, i - 1).value;
      assert GenPrefix(s, ctx, cls, params, sup, src, i) == FieldStep(s, ctx, cls, i - 1, p, src);
    }
  }

  /** Once a field is decided, later fields never change it. */
  lemma {:induction false} Settled(s: Schema, ctx: seq<Obj>, cls: ModelClass, params: seq<Value>,
                                   sup: Supply, src: RandomData.LetterSource, i: nat, n: nat)
    requires WellFormed(s) && ValidContext(s, ctx) && cls in s && i <= n <= |s[cls].fields|
    requires GenPrefix(s, ctx, cls, params, sup, src, n).Ok?
    ensures GenPrefix(s, ctx, cls, params, sup, src, i).Ok?
    ensures forall j :: 0 <= j < i ==>
              GenPrefix(s, ctx, cls, params, sup, src, n).value.obj.fields[j]
              == GenPrefix(s, ctx, cls, params, sup, src, i).value.obj.fields[j]
    decreases n - i
  {
    PrefixOk(s, ctx, cls, params, sup, src, i, n);
    if i < n {
      Settled(s, ctx, cls, params, sup, src, i + 1, n);
      var p := GenPrefix(s, ctx, cls, params, sup, src, i).value;
      assert GenPrefix(s, ctx, cls, params, sup, src, i + 1) == FieldStep(s, ctx, cls, i, p, src);
    }
  }

  /**
   * What a successful generation writes into field `j`, by the arm the field
   * takes (`LeftAt` parameters remaining):
   * Optional and arm-less fields keep the constructor's value; a
   * Parameterizable field takes the next parameter; a Dependent field copies
   * the same-named field of the first context model of the related class; a
   * Random String field gets a fresh "test_" string; a nested model is the
   * first context instance of exactly that class, else a fresh instance
   * generated in the same context from the remaining parameters; a list of
   * model is always a fresh one-element list generated the same way.
   */
  lemma FieldOutcome(s: Schema, ctx: seq<Obj>, cls: ModelClass, params: seq<Value>, sup: Supply,
                     src: RandomData.LetterSource, j: nat)
    requires WellFormed(s) && ValidContext(s, ctx) && cls in s && j < |s[cls].fields|
    requires Generate(s, ctx, cls, params, sup, src).Ok?
    ensures var g := Generate(s, ctx, cls, params, sup, src).value.obj;
            var f := s[cls].fields[j];
            var arm := ArmOf(f, ctx, LeftAt(s[cls].fields, params, j));
            var m := Min(ParamFieldsBefore(s[cls].fields, j), |params|);
            && ((arm == Skipped || arm == NoArm) ==> g.fields[j] == NewInstance(s, cls, sup).0.fields[j])
            && (arm == FromParameter ==> m < |params| && g.fields[j] == params[m])
            && (arm == FromContext ==>
                  var rc := f.annotations.dependent.value;
                  && FieldIndex(s[rc].fields, f.name).Some?
                  && g.fields[j] == ctx[FirstOfClass(ctx, rc).value].fields[FieldIndex(s[rc].fields, f.name).value])
            && (arm == RandomString ==> g.fields[j].Str? && RandomData.IsTestString(g.fields[j].text))
            && (arm == NestedModel && FirstOfClass(ctx, f.kind.cls).Some? ==>
                  g.fields[j] == Model(ctx[FirstOfClass(ctx, f.kind.cls).value]))
            && (arm == NestedModel && FirstOfClass(ctx, f.kind.cls).None? ==>
                  && g.fields[j].Model? && g.fields[j].obj.oid > sup.nextOid
                  && exists sup': Supply :: Yields(s, ctx, f.kind.cls, params[m..], sup', src, g.fields[j].obj))
            && (arm == NestedList ==>
                  && g.fields[j].ModelList? && |g.fields[j].items| == 1 && g.fields[j].items[0].oid > sup.nextOid
                  && exists sup': Supply :: Yields(s, ctx, f.kind.elem, params[m..], sup', src, g.fields[j].items[0]))
  {
    var decls := s[cls].fields;
    var n := |decls|;
    Settled(s, ctx, cls, params, sup, src, j + 1, n);
    PrefixOk(s, ctx, cls, params, sup, src, j, n);
    ParamCursor(s, ctx, cls, params, sup, src, j);
    Untouched(s, ctx, cls, params, sup, src, j);
    var p := GenPrefix(s, ctx, cls, params, sup, src, j).value;
    var step := FieldStep(s, ctx, cls, j, p, src);
    assert GenPrefix(s, ctx, cls, params, sup, src, j + 1) == step;
    var f := decls[j];
    var m := Min(ParamFieldsBefore(decls, j), |params|);
    assert |p.params| == LeftAt(decls, params, j);
    match ArmOf(f, ctx, |p.params|)
    case NestedModel =>
      if FirstOfClass(ctx, f.kind.cls).None? {
        assert Yields(s, ctx, f.kind.cls, params[m..], p.supply, src, step.value.obj.fields[j].obj);
      }
    case NestedList =>
      assert Yields(s, ctx, f.kind.elem, params[m..], p.supply, src, step.value.obj.fields[j].items[0]);
    case _ =>
  }
}
