/**
 * The cleanup ledger: the ids of the entities a test created, grouped by the
 * endpoint that deletes them, and the drain that deletes them all in
 * endpoint order before forgetting them.
 */
module Storage {
  import opened Wrappers
  import opened Endpoints
  import opened Models

  type Ledger = map<Endpoint, set<string>>

  /** A deletion request: the endpoint and the id handed to its `delete`. */
  type Delete = (Endpoint, string)

  /** Every endpoint in the ledger holds at least one id. */
  ghost predicate NonEmptySets(m: Ledger) {
    forall e :: e in m ==> m[e] != {}
  }

  /**
   * The ledger after recording `id` under `e`; a null id (`None`) records
   * nothing.
   */
  function Added(m: Ledger, e: Endpoint, id: Option<string>): (r: Ledger)
    ensures id.None? ==> r == m
    ensures id.Some? ==> e in r && forall x :: x in r[e] <==> x == id.value || (e in m && x in m[e])
    ensures forall e' :: e' != e ==> (e' in r <==> e' in m) && (e' in m ==> r[e'] == m[e'])
    ensures NonEmptySets(m) ==> NonEmptySets(r)
  {
    match id
    case None => m
    case Some(x) => m[e := (if e in m then m[e] else {}) + {x}]
  }

  /** Recording the same id twice leaves the ledger as recording it once. */
  lemma AddedIdempotent(m: Ledger, e: Endpoint, id: Option<string>)
    ensures Added(Added(m, e, id), e, id) == Added(m, e, id)
  {
    if id.Some? {
      var once := Added(m, e, id);
      assert once[e] + {id.value} == once[e];
    }
  }

  /** Each element of `t` deletes an id the ledger holds, and none is deleted twice. */
  ghost predicate DeletesOnce(m: Ledger, t: seq<Delete>) {
    && (forall i :: 0 <= i < |t| ==> t[i].0 in m && t[i].1 in m[t[i].0])
    && (forall i, j :: 0 <= i < j < |t| ==> t[i] != t[j])
  }

  /** Deletions come in endpoint declaration order. */
  ghost predicate RankOrdered(t: seq<Delete>) {
    forall i, j :: 0 <= i < j < |t| ==> Rank(t[i].0) <= Rank(t[j].0)
  }

  /**
   * `t` is a drain of `m`: one delete per stored (endpoint, id), endpoint by
   * endpoint in declaration order. Within one endpoint the order is that of
   * the id set's iteration, which is left open.
   */
  ghost predicate DrainOf(m: Ledger, t: seq<Delete>) {
    && DeletesOnce(m, t)
    && RankOrdered(t)
    && forall e, x :: e in m && x in m[e] ==> (e, x) in t
  }

  /** Draining an empty ledger issues no delete, so a second drain right after the first does nothing. */
  lemma EmptyDrain(t: seq<Delete>)
    ensures DrainOf(map[], t) <==> t == []
  {
    var empty: Ledger := map[];
    if t != [] {
      assert t[0].0 !in empty;
    }
  }

  /** The deletes a trace issues, regardless of order. */
  function Elements(t: seq<Delete>): set<Delete> {
    set k | 0 <= k < |t| :: t[k]
  }

  /** A trace that repeats no delete is as long as its set of deletes. */
  lemma {:induction false} DistinctLength(t: seq<Delete>)
    requires forall i, j :: 0 <= i < j < |t| ==> t[i] != t[j]
    ensures |Elements(t)| == |t|
  {
    if t != [] {
      var p := t[..|t| - 1];
      DistinctLength(p);
      assert Elements(t) == Elements(p) + {t[|t| - 1]};
      assert t[|t| - 1] !in Elements(p);
    }
  }

  /** Recording a project id and then a build configuration id. */
  lemma RecordedTwo(project: string, buildType: string)
    ensures Added(Added(map[], Projects, Some(project)), BuildTypes, Some(buildType)).Keys == {Projects, BuildTypes}
    ensures Added(Added(map[], Projects, Some(project)), BuildTypes, Some(buildType))[Projects] == {project}
    ensures Added(Added(map[], Projects, Some(project)), BuildTypes, Some(buildType))[BuildTypes] == {buildType}
  {
  }

  /** The only drain of a ledger holding one build configuration and one project. */
  lemma DrainOfTwo(m: Ledger, project: string, buildType: string, t: seq<Delete>)
    requires m.Keys == {Projects, BuildTypes} && m[Projects] == {project} && m[BuildTypes] == {buildType}
    requires DrainOf(m, t)
    ensures t == [(BuildTypes, buildType), (Projects, project)]
  {
    assert forall k :: 0 <= k < |t| ==> t[k] == (BuildTypes, buildType) || t[k] == (Projects, project);
    assert (BuildTypes, buildType) in t && (Projects, project) in t;
    assert Elements(t) == {(BuildTypes, buildType), (Projects, project)};
    DistinctLength(t);
    assert Rank(t[0].0) <= Rank(t[1].0) && t[0] != t[1];
  }

  /**
   * A project recorded before a build configuration is still deleted after
   * it: the drain follows endpoint order, not the order of recording.
   */
  lemma DrainIgnoresRecordingOrder(project: string, buildType: string, t: seq<Delete>)
    requires DrainOf(Added(Added(map[], Projects, Some(project)), BuildTypes, Some(buildType)), t)
    ensures t == [(BuildTypes, buildType), (Projects, project)]
  {
    RecordedTwo(project, buildType);
    DrainOfTwo(Added(Added(map[], Projects, Some(project)), BuildTypes, Some(buildType)), project, buildType, t);
  }

  /**
   * The requester's delete, seen only through the calls it receives: each
   * call appends the endpoint and id to `calls`.
   */
  class DeleteRecorder {
    var calls: seq<Delete>

    constructor()
      ensures calls == []
    {
      calls := [];
    }

    method Delete(e: Endpoint, id: string)
      modifies this
      ensures calls == old(calls) + [(e, id)]
    {
      calls := calls + [(e, id)];
    }
  }

  /** A model whose field values all have their declared types. */
  ghost predicate Typed(s: Schema, o: Obj) {
    Conforms(s, o) && forall i :: 0 <= i < |o.fields| ==> Assignable(s[o.cls].fields[i].kind, o.fields[i])
  }

  /**
   * `getEntityId`: the model's own `id` field as a string, `None` for null;
   * `Err` when the model's class declares no `id` field.
   */
  function EntityId(s: Schema, o: Obj): (r: Result<Option<string>, string>)
    requires WellFormed(s) && Typed(s, o)
    ensures r.Err? <==> FieldIndex(s[o.cls].fields, "id").None?
    ensures r.Ok? ==> var i := FieldIndex(s[o.cls].fields, "id").value;
                      match r.value
                      case None => o.fields[i] == Null
                      case Some(t) => o.fields[i] == Str(t)
  {
    match FieldIndex(s[o.cls].fields, "id")
    case None => Err("Cannot get entity id")
    case Some(i) =>
      match o.fields[i]
      case Str(t) => Ok(Some(t))
      case _ => Ok(None)
  }

  /**
   * The ids of created entities, per endpoint. `Valid` holds because a set
   * is only created to receive a non-null id.
   */
  class TestDataStorage {
    var createdEntities: Ledger

    ghost predicate Valid()
      reads this
    {
      NonEmptySets(createdEntities)
    }

    constructor()
      ensures Valid() && createdEntities == map[]
    {
      createdEntities := map[];
    }

    /** `addCreatedEntity(endpoint, id)`. */
    method AddCreatedEntity(e: Endpoint, id: Option<string>)
      requires Valid()
      modifies this
      ensures Valid()
      ensures createdEntities == Added(old(createdEntities), e, id)
    {
      if id.Some? {
        var ids := if e in createdEntities then createdEntities[e] else {};
        createdEntities := createdEntities[e := ids + {id.value}];
      }
    }

    /**
     * `addCreatedEntity(endpoint, model)`: records the model's id; fails,
     * recording nothing, when its class has no `id` field.
     */
    method AddCreatedModel(s: Schema, e: Endpoint, o: Obj) returns (r: Result<(), string>)
      requires Valid() && WellFormed(s) && Typed(s, o)
      modifies this
      ensures Valid()
      ensures r.Err? <==> EntityId(s, o).Err?
      ensures createdEntities == (if r.Ok? then Added(old(createdEntities), e, EntityId(s, o).value) else old(createdEntities))
    {
      var id := EntityId(s, o);
      if id.Err? {
        return Err(id.error);
      }
      AddCreatedEntity(e, id.value);
      r := Ok(());
    }

    /**
     * `deleteCreatedEntities`: one delete per stored id, endpoint by endpoint
     * in declaration order, then the ledger is cleared.
     */
    method DeleteCreatedEntities(requester: DeleteRecorder)
      requires Valid()
      modifies this, requester
      ensures Valid() && createdEntities == map[]
      ensures exists t :: requester.calls == old(requester.calls) + t && DrainOf(old(createdEntities), t)
    {
      ghost var t := DeleteAll(requester, createdEntities);
      createdEntities := map[];
    }
  }

  /** The outer `forEach` over the ledger, which visits endpoints in declaration order. */
  method DeleteAll(requester: DeleteRecorder, m: Ledger) returns (ghost t: seq<Delete>)
    modifies requester
    ensures requester.calls == old(requester.calls) + t
    ensures DrainOf(m, t)
  {
    t := [];
    for k := 0 to |ALL|
      invariant requester.calls == old(requester.calls) + t
      invariant DrainedBelow(m, t, k)
    {
      var e := ALL[k];
      RankOfAll(k);
      ghost var u: seq<Delete> := [];
      if e in m {
        u := DeleteIds(requester, e, m[e]);
      }
      DrainStep(m, t, e, u);
      t := t + u;
    }
    DrainedAll(m, t);
  }

  /** The deletes of one endpoint's ids: each id of `ids` exactly once. */
  ghost predicate Segment(e: Endpoint, ids: set<string>, u: seq<Delete>) {
    && (forall i :: 0 <= i < |u| ==> u[i].0 == e && u[i].1 in ids)
    && (forall i, j :: 0 <= i < j < |u| ==> u[i] != u[j])
    && (forall x :: x in ids ==> (e, x) in u)
  }

  /** `t` drains exactly the endpoints of rank below `k`. */
  ghost predicate DrainedBelow(m: Ledger, t: seq<Delete>, k: nat) {
    && DeletesOnce(m, t)
    && RankOrdered(t)
    && (forall i :: 0 <= i < |t| ==> Rank(t[i].0) < k)
    && (forall e, x :: e in m && x in m[e] && Rank(e) < k ==> (e, x) in t)
  }

  /** `ids.forEach(id -> delete(endpoint, id))`: one delete per id, in the set's iteration order. */
  method DeleteIds(requester: DeleteRecorder, e: Endpoint, ids: set<string>) returns (ghost u: seq<Delete>)
    modifies requester
    ensures requester.calls == old(requester.calls) + u
    ensures Segment(e, ids, u)
  {
    u := [];
    var rest := ids;
    while rest != {}
      invariant rest <= ids
      invariant requester.calls == old(requester.calls) + u
      invariant forall i :: 0 <= i < |u| ==> u[i].0 == e && u[i].1 in ids && u[i].1 !in rest
      invariant forall i, j :: 0 <= i < j < |u| ==> u[i] != u[j]
      invariant forall x :: x in ids && x !in rest ==> (e, x) in u
      decreases rest
    {
      var id :| id in rest;
      requester.Delete(e, id);
      u := u + [(e, id)];
      rest := rest - {id};
    }
  }

  /** Appending the deletes of the endpoint of rank `k` extends a drain below `k` to one below `k + 1`. */
  lemma DrainStep(m: Ledger, t: seq<Delete>, e: Endpoint, u: seq<Delete>)
    requires DrainedBelow(m, t, Rank(e))
    requires e in m ==> Segment(e, m[e], u)
    requires e !in m ==> u == []
    ensures DrainedBelow(m, t + u, Rank(e) + 1)
  {
    var tu := t + u;
    forall i, j | 0 <= i < j < |tu|
      ensures tu[i] != tu[j] && Rank(tu[i].0) <= Rank(tu[j].0)
    {
      if j < |t| {
        assert tu[i] == t[i] && tu[j] == t[j];
      } else if i < |t| {
        assert tu[j] == u[j - |t|];
      } else {
        assert tu[i] == u[i - |t|] && tu[j] == u[j - |t|];
      }
    }
    forall e', x | e' in m && x in m[e'] && Rank(e') < Rank(e) + 1
      ensures (e', x) in tu
    {
      if Rank(e') < Rank(e) {
        assert (e', x) in t;
      } else {
        assert e' == e by { RankInjective(e, e'); }
        assert (e, x) in u;
      }
    }
  }

  lemma RankOfAll(k: nat)
    requires k < |ALL|
    ensures Rank(ALL[k]) == k
  {
    AllIsRankOrdered();
  }

  lemma RankInjective(e: Endpoint, e': Endpoint)
    ensures Rank(e) == Rank(e') ==> e == e'
  {
  }

  /** A drain below every rank is a drain of the whole ledger. */
  lemma DrainedAll(m: Ledger, t: seq<Delete>)
    requires DrainedBelow(m, t, |ALL|)
    ensures DrainOf(m, t)
  {
    assert forall e :: Rank(e) < |ALL|;
  }
}
