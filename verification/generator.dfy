/**
 * Test-data generation: build a model instance field by field from its
 * shape, a context of models generated earlier in the same episode, and a
 * cursor over caller-supplied parameters.
 *
 * The specification is functional (`FieldStep`, `GenPrefix`, `Generate`,
 * `RunEpisode`); `GenerateModel` and `GenerateAll` are the loops that
 * compute it, written the way the generator runs.
 */
module Generator {
  import opened Wrappers
  import opened Models
  import RandomData

  /** Next unused object identity and next draw of the random source. */
  datatype Supply = Supply(nextOid: nat, nextDraw: nat)

  /** Failures, all surfaced as IllegalStateException (the last one as IllegalArgumentException). */
  datatype GenError =
    | CannotConstruct(cls: ModelClass)                // no usable no-argument constructor
    | NoSuchField(related: ModelClass, name: string)  // @Dependent names a field the related class lacks
    | IllegalArgument(field: string)                  // Field.set rejects a value of the wrong type

  /** The instance being filled, the parameters not yet consumed, the supply. */
  datatype Progress = Progress(obj: Obj, params: seq<Value>, supply: Supply)

  datatype Generated = Generated(obj: Obj, supply: Supply)

  /** Which arm of the generator's if/else-if chain a field takes. */
  datatype Arm = Skipped | FromParameter | FromContext | RandomString | NestedModel | NestedList | NoArm

  /** Every model in the context is a well-formed instance of a known class. */
  ghost predicate ValidContext(s: Schema, ctx: seq<Obj>) {
    forall k :: 0 <= k < |ctx| ==> Conforms(s, ctx[k])
  }

  /** Termination measure: one more than the class's rank, 0 for a class that cannot be built. */
  function Measure(s: Schema, c: ModelClass): nat {
    if c in s then s[c].rank + 1 else 0
  }

  /** Index of the first context model whose class is exactly `c`. */
  function FirstOfClass(ctx: seq<Obj>, c: ModelClass): (r: Option<nat>)
    ensures r.Some? ==> r.value < |ctx| && ctx[r.value].cls == c
    ensures r.Some? ==> forall k :: 0 <= k < r.value ==> ctx[k].cls != c
    ensures r.None? ==> forall k :: 0 <= k < |ctx| ==> ctx[k].cls != c
  {
    if ctx == [] then None
    else if ctx[0].cls == c then Some(0)
    else match FirstOfClass(ctx[1..], c)
      case None => None
      case Some(k) => Some(k + 1)
  }

  /**
   * The arm a field takes when `left` parameters remain: Optional skips;
   * otherwise Parameterizable (while parameters remain), Dependent (when the
   * related class is in the context), Random (String fields only), nested
   * model, list of model; a field matching none keeps its default.
   */
  function ArmOf(f: FieldDecl, ctx: seq<Obj>, left: nat): Arm {
    var a := f.annotations;
    if a.optional then Skipped
    else if a.parameterizable && left > 0 then FromParameter
    else if a.dependent.Some? && FirstOfClass(ctx, a.dependent.value).Some? then FromContext
    else if a.random && f.kind == StringField then RandomString
    else if f.kind.ModelField? then NestedModel
    else if f.kind.ModelListField? then NestedList
    else NoArm
  }

  function Inits(fields: seq<FieldDecl>): (r: seq<Init>)
    ensures |r| == |fields| && forall i :: 0 <= i < |fields| ==> r[i] == fields[i].init
  {
    seq(|fields|, i requires 0 <= i < |fields| => fields[i].init)
  }

  /**
   * The no-argument constructor: a fresh instance whose identity is the next
   * unused one and whose fields hold their initialisers' values.
   */
  function NewInstance(s: Schema, c: ModelClass, sup: Supply): (r: (Obj, Supply))
    requires c in s
    ensures r.0.oid == sup.nextOid && r.0.cls == c && |r.0.fields| == |s[c].fields|
    ensures r.1.nextOid > sup.nextOid && r.1.nextDraw == sup.nextDraw
  {
    var (vs, after) := InstantiateAll(Inits(s[c].fields), sup.nextOid + 1);
    (Obj(sup.nextOid, c, vs), Supply(after, sup.nextDraw))
  }

  function Set(o: Obj, i: nat, v: Value): (r: Obj)
    requires i < |o.fields|
  {
    o.(fields := o.fields[i := v])
  }

  /** Parameterizable fields among the first `i` that the chain reaches (not Optional). */
  function ParamFieldsBefore(fields: seq<FieldDecl>, i: nat): nat
    requires i <= |fields|
  {
    if i == 0 then 0
    else
      var a := fields[i - 1].annotations;
      ParamFieldsBefore(fields, i - 1) + if !a.optional && a.parameterizable then 1 else 0
  }

  function Min(a: nat, b: nat): nat {
    if a <= b then a else b
  }

  /** Field `i` of the instance under construction is decided. */
  function FieldStep(s: Schema, ctx: seq<Obj>, owner: ModelClass, i: nat, p: Progress,
                     src: RandomData.LetterSource): (r: Result<Progress, GenError>)
    requires WellFormed(s) && ValidContext(s, ctx)
    requires owner in s && i < |s[owner].fields| && |p.obj.fields| == |s[owner].fields|
    ensures r.Ok? ==> r.value.obj.oid == p.obj.oid && r.value.obj.cls == p.obj.cls
    ensures r.Ok? ==> |r.value.obj.fields| == |p.obj.fields|
    ensures r.Ok? ==> forall j :: 0 <= j < |p.obj.fields| && j != i ==> r.value.obj.fields[j] == p.obj.fields[j]
    ensures r.Ok? ==> r.value.params ==
                      (if ArmOf(s[owner].fields[i], ctx, |p.params|) == FromParameter then p.params[1..] else p.params)
    ensures r.Ok? ==> r.value.supply.nextOid >= p.supply.nextOid && r.value.supply.nextDraw >= p.supply.nextDraw
    decreases Measure(s, owner), 0, 0
  {
    var f := s[owner].fields[i];
    assert ShapeWellFormed(s, owner);
    match ArmOf(f, ctx, |p.params|)
    case Skipped => Ok(p)
    case NoArm => Ok(p)
    case FromParameter =>
      if Assignable(f.kind, p.params[0]) then Ok(Progress(Set(p.obj, i, p.params[0]), p.params[1..], p.supply))
      else Err(IllegalArgument(f.name))
    case FromContext =>
      var rc := f.annotations.dependent.value;
      var related := ctx[FirstOfClass(ctx, rc).value];
      assert Conforms(s, related);
      (match FieldIndex(s[rc].fields, f.name)
       case None => Err(NoSuchField(rc, f.name))
       case Some(j) =>
         var v := related.fields[j];
         if Assignable(f.kind, v) then Ok(p.(obj := Set(p.obj, i, v))) else Err(IllegalArgument(f.name)))
    case RandomString =>
      var text := RandomData.GetString(src, p.supply.nextDraw);
      Ok(Progress(Set(p.obj, i, Str(text)), p.params, p.supply.(nextDraw := p.supply.nextDraw + 1)))
    case NestedModel =>
      (match FirstOfClass(ctx, f.kind.cls)
       case Some(k) => Ok(p.(obj := Set(p.obj, i, Model(ctx[k]))))
       case None =>
         match Generate(s, ctx, f.kind.cls, p.params, p.supply, src)
         case Err(e) => Err(e)
         case Ok(g) => Ok(Progress(Set(p.obj, i, Model(g.obj)), p.params, g.supply)))
    case NestedList =>
      // The reuse lookup compares context classes with the declared type
      // `List`, which never matches: the element is always generated afresh.
      match Generate(s, ctx, f.kind.elem, p.params, p.supply, src)
      case Err(e) => Err(e)
      case Ok(g) => Ok(Progress(Set(p.obj, i, ModelList([g.obj])), p.params, g.supply))
  }

  /** The state after the constructor and the first `i` fields. */
  function GenPrefix(s: Schema, ctx: seq<Obj>, cls: ModelClass, params: seq<Value>, sup: Supply,
                     src: RandomData.LetterSource, i: nat): (r: Result<Progress, GenError>)
    requires WellFormed(s) && ValidContext(s, ctx) && cls in s && i <= |s[cls].fields|
    ensures r.Ok? ==> r.value.obj.cls == cls && r.value.obj.oid == sup.nextOid
    ensures r.Ok? ==> |r.value.obj.fields| == |s[cls].fields|
    ensures r.Ok? ==> r.value.supply.nextOid > sup.nextOid && r.value.supply.nextDraw >= sup.nextDraw
    decreases Measure(s, cls), 1, i
  {
    if i == 0 then
      var (o, next) := NewInstance(s, cls, sup);
      Ok(Progress(o, params, next))
    else
      match GenPrefix(s, ctx, cls, params, sup, src, i - 1)
      case Err(e) => Err(e)
      case Ok(p) => FieldStep(s, ctx, cls, i - 1, p, src)
  }

  /**
   * `generate(generatedModels, cls, parameters...)`: a fresh, conforming
   * instance of `cls` whose identity is the next unused one; everything it
   * allocates or draws comes after what `sup` had handed out.
   */
  function Generate(s: Schema, ctx: seq<Obj>, cls: ModelClass, params: seq<Value>, sup: Supply,
                    src: RandomData.LetterSource): (r: Result<Generated, GenError>)
    requires WellFormed(s) && ValidContext(s, ctx)
    ensures r.Ok? ==> r.value.obj.cls == cls && Conforms(s, r.value.obj)
    ensures r.Ok? ==> r.value.obj.oid == sup.nextOid
    ensures r.Ok? ==> r.value.supply.nextOid > sup.nextOid && r.value.supply.nextDraw >= sup.nextDraw
    decreases Measure(s, cls), 2, 0
  {
    if cls !in s then Err(CannotConstruct(cls))
    else match GenPrefix(s, ctx, cls, params, sup, src, |s[cls].fields|)
      case Err(e) => Err(e)
      case Ok(p) => Ok(Generated(p.obj, p.supply))
  }

  /** An error at some field is the result of every longer prefix. */
  lemma {:induction false} ErrorPersists(s: Schema, ctx: seq<Obj>, cls: ModelClass, params: seq<Value>,
                                         sup: Supply, src: RandomData.LetterSource, i: nat, n: nat)
    requires WellFormed(s) && ValidContext(s, ctx) && cls in s && i <= n <= |s[cls].fields|
    requires GenPrefix(s, ctx, cls, params, sup, src, i).Err?
    ensures GenPrefix(s, ctx, cls, params, sup, src, n) == GenPrefix(s, ctx, cls, params, sup, src, i)
    decreases n - i
  {
    if i < n {
      ErrorPersists(s, ctx, cls, params, sup, src, i, n - 1);
    }
  }

  /**
   * One pass of the generator's loop body: decide field `i` of the instance
   * by the first arm that applies, consuming a parameter only in the
   * Parameterizable arm.
   */
  method FillField(s: Schema, ctx: seq<Obj>, owner: ModelClass, i: nat, p: Progress,
                   src: RandomData.LetterSource) returns (r: Result<Progress, GenError>)
    requires WellFormed(s) && ValidContext(s, ctx)
    requires owner in s && i < |s[owner].fields| && |p.obj.fields| == |s[owner].fields|
    ensures r == FieldStep(s, ctx, owner, i, p, src)
    decreases Measure(s, owner), 0
  {
    var f := s[owner].fields[i];
    assert ShapeWellFormed(s, owner);
    var instance, parameters, supply := p.obj, p.params, p.supply;
    match ArmOf(f, ctx, |parameters|) {
    case Skipped =>
    case NoArm =>
    case FromParameter =>
      if !Assignable(f.kind, parameters[0]) {
        return Err(IllegalArgument(f.name));
      }
      instance := Set(instance, i, parameters[0]);
      parameters := parameters[1..];
    case FromContext =>
      var rc := f.annotations.dependent.value;
      var related := ctx[FirstOfClass(ctx, rc).value];
      assert Conforms(s, related);
      var j := FieldIndex(s[rc].fields, f.name);
      if j.None? {
        return Err(NoSuchField(rc, f.name));
      }
      var v := related.fields[j.value];
      if !Assignable(f.kind, v) {
        return Err(IllegalArgument(f.name));
      }
      instance := Set(instance, i, v);
    case RandomString =>
      instance := Set(instance, i, Str(RandomData.GetString(src, supply.nextDraw)));
      supply := supply.(nextDraw := supply.nextDraw + 1);
    case NestedModel =>
      var k := FirstOfClass(ctx, f.kind.cls);
      if k.Some? {
        instance := Set(instance, i, Model(ctx[k.value]));
      } else {
        var g := GenerateModel(s, ctx, f.kind.cls, parameters, supply, src);
        if g.Err? {
          return Err(g.error);
        }
        instance := Set(instance, i, Model(g.value.obj));
        supply := g.value.supply;
      }
    case NestedList =>
      var g := GenerateModel(s, ctx, f.kind.elem, parameters, supply, src);
      if g.Err? {
        return Err(g.error);
      }
      instance := Set(instance, i, ModelList([g.value.obj]));
      supply := g.value.supply;
    }
    return Ok(Progress(instance, parameters, supply));
  }

  /**
   * The generator's loop: construct the instance, then walk the declared
   * fields once, writing each according to its arm and consuming parameters
   * as Parameterizable fields take them.
   */
  method GenerateModel(s: Schema, ctx: seq<Obj>, cls: ModelClass, params: seq<Value>, sup: Supply,
                       src: RandomData.LetterSource) returns (r: Result<Generated, GenError>)
    requires WellFormed(s) && ValidContext(s, ctx)
    ensures r == Generate(s, ctx, cls, params, sup, src)
    decreases Measure(s, cls), 1
  {
    if cls !in s {
      return Err(CannotConstruct(cls));
    }
    var decls := s[cls].fields;
    var instance, supply := NewInstance(s, cls, sup).0, NewInstance(s, cls, sup).1;
    var parameters := params;
    var i := 0;
    while i < |decls|
      invariant i <= |decls| && |instance.fields| == |decls|
      invariant GenPrefix(s, ctx, cls, params, sup, src, i) == Ok(Progress(instance, parameters, supply))
    {
      var step := FillField(s, ctx, cls, i, Progress(instance, parameters, supply), src);
      assert GenPrefix(s, ctx, cls, params, sup, src, i + 1) == step;
      if step.Err? {
        ErrorPersists(s, ctx, cls, params, sup, src, i + 1, |decls|);
        return Err(step.error);
      }
      instance, parameters, supply := step.value.obj, step.value.params, step.value.supply;
      i := i + 1;
    }
    return Ok(Generated(instance, supply));
  }

  /** `generate(cls, parameters...)`: the same generation with an empty context. */
  method GenerateStandalone(s: Schema, cls: ModelClass, params: seq<Value>, sup: Supply,
                            src: RandomData.LetterSource) returns (r: Result<Generated, GenError>)
    requires WellFormed(s)
    ensures r == Generate(s, [], cls, params, sup, src)
  {
    r := GenerateModel(s, [], cls, params, sup, src);
  }

  // ---------------------------------------------------------------------------
  // generate(): one episode over the fields of the TestData holder.

  /** The declared field types of `TestData`, in declaration order. */
  const TEST_DATA: seq<FieldKind> := [
    ModelField(NewProjectDescription), ModelField(Project), ModelField(User), ModelField(BuildType)]

  /** The holder's field values, the models generated so far (in order), the supply. */
  datatype Episode = Episode(values: seq<Value>, context: seq<Obj>, supply: Supply)

  /**
   * The episode after the first `i` holder fields: each model-typed field is
   * generated without parameters in the context of the models generated
   * before it, then appended to that context; other fields stay null.
   */
  function RunEpisode(s: Schema, slots: seq<FieldKind>, sup: Supply, src: RandomData.LetterSource, i: nat)
    : (r: Result<Episode, GenError>)
    requires WellFormed(s) && i <= |slots|
    ensures r.Ok? ==> |r.value.values| == |slots| && ValidContext(s, r.value.context)
    ensures r.Ok? ==> |r.value.context| <= i && r.value.supply.nextOid >= sup.nextOid
    ensures r.Ok? ==> forall k :: 0 <= k < |r.value.context| ==> sup.nextOid <= r.value.context[k].oid < r.value.supply.nextOid
  {
    if i == 0 then Ok(Episode(seq(|slots|, _ => Null), [], sup))
    else match RunEpisode(s, slots, sup, src, i - 1)
      case Err(e) => Err(e)
      case Ok(ep) =>
        if slots[i - 1].ModelField? then
          match Generate(s, ep.context, slots[i - 1].cls, [], ep.supply, src)
          case Err(e) => Err(e)
          case Ok(g) => Ok(Episode(ep.values[i - 1 := Model(g.obj)], ep.context + [g.obj], g.supply))
        else Ok(ep)
  }

  lemma {:induction false} EpisodeErrorPersists(s: Schema, slots: seq<FieldKind>, sup: Supply,
                                                src: RandomData.LetterSource, i: nat, n: nat)
    requires WellFormed(s) && i <= n <= |slots|
    requires RunEpisode(s, slots, sup, src, i).Err?
    ensures RunEpisode(s, slots, sup, src, n) == RunEpisode(s, slots, sup, src, i)
    decreases n - i
  {
    if i < n {
      EpisodeErrorPersists(s, slots, sup, src, i, n - 1);
    }
  }

  /**
   * `generate()`: walk the holder's fields in declaration order, generating
   * each model-typed one in the context built so far and appending it.
   */
  method GenerateAll(s: Schema, slots: seq<FieldKind>, sup: Supply, src: RandomData.LetterSource)
    returns (r: Result<Episode, GenError>)
    requires WellFormed(s)
    ensures r == RunEpisode(s, slots, sup, src, |slots|)
  {
    var values := seq(|slots|, _ => Null);
    var generatedModels: seq<Obj> := [];
    var supply := sup;
    var i := 0;
    while i < |slots|
      invariant i <= |slots|
      invariant RunEpisode(s, slots, sup, src, i) == Ok(Episode(values, generatedModels, supply))
    {
      if slots[i].ModelField? {
        var g := GenerateModel(s, generatedModels, slots[i].cls, [], supply, src);
        if g.Err? {
          EpisodeErrorPersists(s, slots, sup, src, i + 1, |slots|);
          return Err(g.error);
        }
        values := values[i := Model(g.value.obj)];
        generatedModels := generatedModels + [g.value.obj];
        supply := g.value.supply;
      }
      i := i + 1;
    }
    return Ok(Episode(values, generatedModels, supply));
  }
}
