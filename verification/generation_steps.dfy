/**
 * The generator's loop one field at a time: for a field whose arm is known,
 * the state after it. Used to compute generation for concrete shapes.
 */
module GenerationSteps {
  import opened Wrappers
  import opened Models
  import opened Generator
  import RandomData

  /** The state before the first field is the freshly constructed instance. */
  lemma Start(s: Schema, ctx: seq<Obj>, cls: ModelClass, params: seq<Value>, sup: Supply,
              src: RandomData.LetterSource, q: Progress)
    requires WellFormed(s) && ValidContext(s, ctx) && cls in s
    requires q == Progress(NewInstance(s, cls, sup).0, params, NewInstance(s, cls, sup).1)
    ensures GenPrefix(s, ctx, cls, params, sup, src, 0) == Ok(q)
  {
  }

  /** An Optional field, or one no arm applies to, keeps its value. */
  lemma AdvanceKeeps(s: Schema, ctx: seq<Obj>, cls: ModelClass, params: seq<Value>, sup: Supply,
                     src: RandomData.LetterSource, i: nat, p: Progress)
    requires WellFormed(s) && ValidContext(s, ctx) && cls in s && i < |s[cls].fields|
    requires GenPrefix(s, ctx, cls, params, sup, src, i) == Ok(p)
    requires ArmOf(s[cls].fields[i], ctx, |p.params|) in {Skipped, NoArm}
    ensures GenPrefix(s, ctx, cls, params, sup, src, i + 1) == Ok(p)
  {
    assert GenPrefix(s, ctx, cls, params, sup, src, i + 1) == FieldStep(s, ctx, cls, i, p, src);
  }

  /** A Parameterizable field takes the next parameter. */
  lemma AdvanceTakesParameter(s: Schema, ctx: seq<Obj>, cls: ModelClass, params: seq<Value>, sup: Supply,
                              src: RandomData.LetterSource, i: nat, p: Progress, q: Progress)
    requires WellFormed(s) && ValidContext(s, ctx) && cls in s && i < |s[cls].fields|
    requires GenPrefix(s, ctx, cls, params, sup, src, i) == Ok(p)
    requires ArmOf(s[cls].fields[i], ctx, |p.params|) == FromParameter
    requires Assignable(s[cls].fields[i].kind, p.params[0])
    requires q == Progress(Set(p.obj, i, p.params[0]), p.params[1..], p.supply)
    ensures GenPrefix(s, ctx, cls, params, sup, src, i + 1) == Ok(q)
  {
    assert GenPrefix(s, ctx, cls, params, sup, src, i + 1) == FieldStep(s, ctx, cls, i, p, src);
  }

  /** A Random String field takes the next draw. */
  lemma AdvanceDraws(s: Schema, ctx: seq<Obj>, cls: ModelClass, params: seq<Value>, sup: Supply,
                     src: RandomData.LetterSource, i: nat, p: Progress, q: Progress)
    requires WellFormed(s) && ValidContext(s, ctx) && cls in s && i < |s[cls].fields|
    requires GenPrefix(s, ctx, cls, params, sup, src, i) == Ok(p)
    requires ArmOf(s[cls].fields[i], ctx, |p.params|) == RandomString
    requires q == Progress(Set(p.obj, i, Str(RandomData.GetString(src, p.supply.nextDraw))), p.params,
                           p.supply.(nextDraw := p.supply.nextDraw + 1))
    ensures GenPrefix(s, ctx, cls, params, sup, src, i + 1) == Ok(q)
  {
    assert GenPrefix(s, ctx, cls, params, sup, src, i + 1) == FieldStep(s, ctx, cls, i, p, src);
  }

  /** A Dependent field copies the same-named field of context model `k`. */
  lemma AdvanceCopies(s: Schema, ctx: seq<Obj>, cls: ModelClass, params: seq<Value>, sup: Supply,
                      src: RandomData.LetterSource, i: nat, p: Progress, k: nat, j: nat, q: Progress)
    requires WellFormed(s) && ValidContext(s, ctx) && cls in s && i < |s[cls].fields|
    requires GenPrefix(s, ctx, cls, params, sup, src, i) == Ok(p)
    requires ArmOf(s[cls].fields[i], ctx, |p.params|) == FromContext
    requires FirstOfClass(ctx, s[cls].fields[i].annotations.dependent.value) == Some(k)
    requires FieldIndex(s[s[cls].fields[i].annotations.dependent.value].fields, s[cls].fields[i].name) == Some(j)
    requires j < |ctx[k].fields| && Assignable(s[cls].fields[i].kind, ctx[k].fields[j])
    requires q == p.(obj := Set(p.obj, i, ctx[k].fields[j]))
    ensures GenPrefix(s, ctx, cls, params, sup, src, i + 1) == Ok(q)
  {
    assert GenPrefix(s, ctx, cls, params, sup, src, i + 1) == FieldStep(s, ctx, cls, i, p, src);
  }

  /** A nested-model field reuses context model `k`. */
  lemma AdvanceReuses(s: Schema, ctx: seq<Obj>, cls: ModelClass, params: seq<Value>, sup: Supply,
                      src: RandomData.LetterSource, i: nat, p: Progress, k: nat, q: Progress)
    requires WellFormed(s) && ValidContext(s, ctx) && cls in s && i < |s[cls].fields|
    requires GenPrefix(s, ctx, cls, params, sup, src, i) == Ok(p)
    requires ArmOf(s[cls].fields[i], ctx, |p.params|) == NestedModel
    requires FirstOfClass(ctx, s[cls].fields[i].kind.cls) == Some(k)
    requires q == p.(obj := Set(p.obj, i, Model(ctx[k])))
    ensures GenPrefix(s, ctx, cls, params, sup, src, i + 1) == Ok(q)
  {
    assert GenPrefix(s, ctx, cls, params, sup, src, i + 1) == FieldStep(s, ctx, cls, i, p, src);
  }

  /** A list-of-model field gets the one-element list of the instance `g` generated for it. */
  lemma AdvanceBuildsList(s: Schema, ctx: seq<Obj>, cls: ModelClass, params: seq<Value>, sup: Supply,
                          src: RandomData.LetterSource, i: nat, p: Progress, g: Generated, q: Progress)
    requires WellFormed(s) && ValidContext(s, ctx) && cls in s && i < |s[cls].fields|
    requires GenPrefix(s, ctx, cls, params, sup, src, i) == Ok(p)
    requires ArmOf(s[cls].fields[i], ctx, |p.params|) == NestedList
    requires Generate(s, ctx, s[cls].fields[i].kind.elem, p.params, p.supply, src) == Ok(g)
    requires q == Progress(Set(p.obj, i, ModelList([g.obj])), p.params, g.supply)
    ensures GenPrefix(s, ctx, cls, params, sup, src, i + 1) == Ok(q)
  {
    assert GenPrefix(s, ctx, cls, params, sup, src, i + 1) == FieldStep(s, ctx, cls, i, p, src);
  }

  /** Once every field is walked, generation returns the instance and the supply. */
  lemma Finish(s: Schema, ctx: seq<Obj>, cls: ModelClass, params: seq<Value>, sup: Supply,
               src: RandomData.LetterSource, p: Progress)
    requires WellFormed(s) && ValidContext(s, ctx) && cls in s
    requires GenPrefix(s, ctx, cls, params, sup, src, |s[cls].fields|) == Ok(p)
    ensures Generate(s, ctx, cls, params, sup, src) == Ok(Generated(p.obj, p.supply))
  {
  }

  /** One holder field of `generate()`: generated in the context so far, then appended. */
  lemma EpisodeAdvance(s: Schema, slots: seq<FieldKind>, sup: Supply, src: RandomData.LetterSource, i: nat,
                       ep: Episode, g: Generated)
    requires WellFormed(s) && i < |slots| && slots[i].ModelField?
    requires RunEpisode(s, slots, sup, src, i) == Ok(ep)
    requires Generate(s, ep.context, slots[i].cls, [], ep.supply, src) == Ok(g)
    ensures RunEpisode(s, slots, sup, src, i + 1)
            == Ok(Episode(ep.values[i := Model(g.obj)], ep.context + [g.obj], g.supply))
  {
  }
}
