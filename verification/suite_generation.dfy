/**
 * What generation yields for this suite's own model classes: the worked
 * cases the tests rely on. Each is stated for any well-formed schema that
 * declares the classes involved with their TeamCity shapes, and holds in
 * particular for TEAMCITY. The supply is written `Supply(n, d)`: `n` is the
 * next identity, `d` the next random draw.
 */
module SuiteGeneration {
  import opened Wrappers
  import opened Models
  import opened Generator
  import RandomData
  import opened GenerationSteps

  /** TEAMCITY declares the suite's classes with the shapes the lemmas below assume. */
  lemma TeamCityDeclares()
    ensures WellFormed(TEAMCITY)
    ensures Project in TEAMCITY && TEAMCITY[Project] == PROJECT
    ensures NewProjectDescription in TEAMCITY && TEAMCITY[NewProjectDescription] == NEW_PROJECT_DESCRIPTION
    ensures BuildType in TEAMCITY && TEAMCITY[BuildType] == BUILD_TYPE
    ensures User in TEAMCITY && TEAMCITY[User] == USER
    ensures Role in TEAMCITY && TEAMCITY[Role] == ROLE
    ensures Roles in TEAMCITY && TEAMCITY[Roles] == ROLES
  {
    TeamCityWellFormed();
  }

  // ---------------------------------------------------------------------------
  // No-argument constructors.

  lemma {:induction false} NullsInstantiate(inits: seq<Init>, next: nat)
    requires forall j :: 0 <= j < |inits| ==> inits[j] == NoInit
    ensures InstantiateAll(inits, next) == (seq(|inits|, _ => Null), next)
    decreases |inits|
  {
    if inits != [] {
      NullsInstantiate(inits[1..], next);
      assert Instantiate(inits[0], next) == (Null, next);
      assert InstantiateAll(inits, next) == ([Null] + seq(|inits| - 1, _ => Null), next);
      assert [Null] + seq(|inits| - 1, _ => Null) == seq(|inits|, _ => Null);
    } else {
      assert InstantiateAll(inits, next) == ([], next);
      assert seq(0, _ => Null) == [];
    }
  }

  /** A constructor whose fields have no initialiser leaves them all null. */
  lemma NewAllNull(s: Schema, c: ModelClass, n: nat, d: nat)
    requires c in s && forall j :: 0 <= j < |s[c].fields| ==> s[c].fields[j].init == NoInit
    ensures NewInstance(s, c, Supply(n, d)) == (Obj(n, c, seq(|s[c].fields|, _ => Null)), Supply(n + 1, d))
  {
    NullsInstantiate(Inits(s[c].fields), n + 1);
  }

  /** `new Role()`: roleId SYSTEM_ADMIN, scope "g". */
  lemma NewRole(s: Schema, n: nat, d: nat)
    requires Role in s && s[Role] == ROLE
    ensures NewInstance(s, Role, Supply(n, d)) == (Obj(n, Role, [Enum(SystemAdmin), Str("g")]), Supply(n + 1, d))
  {
    assert Inits(s[Role].fields) == [EnumInit(SystemAdmin), StrInit("g")];
    assert [EnumInit(SystemAdmin), StrInit("g")][1..] == [StrInit("g")] && [StrInit("g")][1..] == [];
    assert InstantiateAll([], n + 1) == ([], n + 1);
    assert Instantiate(StrInit("g"), n + 1) == (Str("g"), n + 1);
    assert [Str("g")] + [] == [Str("g")];
    assert InstantiateAll([StrInit("g")], n + 1) == ([Str("g")], n + 1);
    assert Instantiate(EnumInit(SystemAdmin), n + 1) == (Enum(SystemAdmin), n + 1);
    assert [Enum(SystemAdmin)] + [Str("g")] == [Enum(SystemAdmin), Str("g")];
  }

  /** `new Project()`: every field null. */
  lemma NewProject(s: Schema, n: nat, d: nat)
    requires Project in s && s[Project] == PROJECT
    ensures NewInstance(s, Project, Supply(n, d)) == (Obj(n, Project, [Null, Null, Null]), Supply(n + 1, d))
  {
    NewAllNull(s, Project, n, d);
    assert seq(3, _ => Null) == [Null, Null, Null];
  }

  /** Two null initialisers followed by one whose run is known. */
  lemma ThreeInits(inits: seq<Init>, next: nat, last: Value, after: nat)
    requires |inits| == 3 && inits[0] == NoInit && inits[1] == NoInit
    requires Instantiate(inits[2], next) == (last, after)
    ensures InstantiateAll(inits, next) == ([Null, Null, last], after)
  {
    assert inits[1..][1..] == [inits[2]] && inits[1..][1..][1..] == [];
    assert InstantiateAll([], after) == ([], after);
    assert [last] + [] == [last];
    assert InstantiateAll(inits[1..][1..], next) == ([last], after);
    assert Instantiate(NoInit, next) == (Null, next);
    assert [Null] + [last] == [Null, last] && [Null] + [Null, last] == [Null, Null, last];
    assert InstantiateAll(inits[1..], next) == ([Null, last], after);
  }

  /** The `_Root` project `new NewProjectDescription()` builds with identity `n`. */
  function RootProject(n: nat): Obj {
    Obj(n, Project, [Null, Null, Str("_Root")])
  }

  /** `new NewProjectDescription()`: id and name null, parentProject a fresh `_Root` project. */
  lemma NewDescriptionInstance(s: Schema, n: nat, d: nat)
    requires NewProjectDescription in s && s[NewProjectDescription] == NEW_PROJECT_DESCRIPTION
    ensures NewInstance(s, NewProjectDescription, Supply(n, d))
            == (Obj(n, NewProjectDescription, [Null, Null, Model(RootProject(n + 1))]), Supply(n + 2, d))
  {
    ThreeInits([NoInit, NoInit, StrInit("_Root")], n + 2, Str("_Root"), n + 2);
    assert Instantiate(ROOT_PROJECT, n + 1) == (Model(RootProject(n + 1)), n + 2);
    assert Inits(s[NewProjectDescription].fields) == [NoInit, NoInit, ROOT_PROJECT];
    ThreeInits([NoInit, NoInit, ROOT_PROJECT], n + 1, Model(RootProject(n + 1)), n + 2);
  }

  // ---------------------------------------------------------------------------
  // Role and Roles: the parameters fill roleId, then scope.

  /** roleId after generation: the first parameter if any, else the initialiser SYSTEM_ADMIN. */
  function RoleIdOf(params: seq<Value>): Value {
    if |params| > 0 then params[0] else Enum(SystemAdmin)
  }

  /** scope after generation: the second parameter if any, else the initialiser "g". */
  function ScopeOf(params: seq<Value>): Value {
    if |params| > 1 then params[1] else Str("g")
  }

  /** The parameters fit the declared types of roleId and scope. */
  predicate RoleParameters(params: seq<Value>) {
    && (|params| > 0 ==> Assignable(EnumField, params[0]))
    && (|params| > 1 ==> Assignable(StringField, params[1]))
  }

  lemma RoleStart(s: Schema, n: nat, d: nat, src: RandomData.LetterSource, params: seq<Value>)
    requires WellFormed(s) && Role in s && s[Role] == ROLE
    ensures GenPrefix(s, [], Role, params, Supply(n, d), src, 0)
            == Ok(Progress(Obj(n, Role, [Enum(SystemAdmin), Str("g")]), params, Supply(n + 1, d)))
  {
    NewRole(s, n, d);
    Start(s, [], Role, params, Supply(n, d), src, Progress(Obj(n, Role, [Enum(SystemAdmin), Str("g")]), params, Supply(n + 1, d)));
  }

  lemma RoleFirstField(s: Schema, n: nat, d: nat, src: RandomData.LetterSource, params: seq<Value>)
    requires WellFormed(s) && Role in s && s[Role] == ROLE && RoleParameters(params)
    ensures GenPrefix(s, [], Role, params, Supply(n, d), src, 1)
            == Ok(Progress(Obj(n, Role, [RoleIdOf(params), Str("g")]), params[Min(1, |params|)..], Supply(n + 1, d)))
  {
    RoleStart(s, n, d, src, params);
    if |params| > 0 {
      AdvanceTakesParameter(s, [], Role, params, Supply(n, d), src, 0,
        Progress(Obj(n, Role, [Enum(SystemAdmin), Str("g")]), params, Supply(n + 1, d)),
        Progress(Obj(n, Role, [RoleIdOf(params), Str("g")]), params[1..], Supply(n + 1, d)));
    } else {
      AdvanceKeeps(s, [], Role, params, Supply(n, d), src, 0,
        Progress(Obj(n, Role, [Enum(SystemAdmin), Str("g")]), params, Supply(n + 1, d)));
    }
  }

  lemma RoleSecondField(s: Schema, n: nat, d: nat, src: RandomData.LetterSource, params: seq<Value>)
    requires WellFormed(s) && Role in s && s[Role] == ROLE && RoleParameters(params)
    ensures GenPrefix(s, [], Role, params, Supply(n, d), src, 2)
            == Ok(Progress(Obj(n, Role, [RoleIdOf(params), ScopeOf(params)]), params[Min(2, |params|)..], Supply(n + 1, d)))
  {
    RoleFirstField(s, n, d, src, params);
    if |params| > 1 {
      AdvanceTakesParameter(s, [], Role, params, Supply(n, d), src, 1,
        Progress(Obj(n, Role, [RoleIdOf(params), Str("g")]), params[1..], Supply(n + 1, d)),
        Progress(Obj(n, Role, [RoleIdOf(params), ScopeOf(params)]), params[2..], Supply(n + 1, d)));
    } else {
      assert params[Min(1, |params|)..] == [] == params[Min(2, |params|)..];
      AdvanceKeeps(s, [], Role, params, Supply(n, d), src, 1,
        Progress(Obj(n, Role, [RoleIdOf(params), Str("g")]), [], Supply(n + 1, d)));
    }
  }

  /** `generate(Role.class, params...)`: roleId and scope from the parameters, in order, while they last. */
  lemma RoleGenerated(s: Schema, n: nat, d: nat, src: RandomData.LetterSource, params: seq<Value>)
    requires WellFormed(s) && Role in s && s[Role] == ROLE && RoleParameters(params)
    ensures Generate(s, [], Role, params, Supply(n, d), src)
            == Ok(Generated(Obj(n, Role, [RoleIdOf(params), ScopeOf(params)]), Supply(n + 1, d)))
  {
    RoleSecondField(s, n, d, src, params);
    Finish(s, [], Role, params, Supply(n, d), src,
      Progress(Obj(n, Role, [RoleIdOf(params), ScopeOf(params)]), params[Min(2, |params|)..], Supply(n + 1, d)));
  }

  /** A parameter of the wrong type for its field is rejected as `Field.set` rejects it. */
  lemma RoleRejectsMistypedParameter(s: Schema, n: nat, d: nat, src: RandomData.LetterSource)
    requires WellFormed(s) && Role in s && s[Role] == ROLE
    ensures Generate(s, [], Role, [Str("p:x")], Supply(n, d), src) == Err(IllegalArgument("roleId"))
  {
    RoleStart(s, n, d, src, [Str("p:x")]);
    assert GenPrefix(s, [], Role, [Str("p:x")], Supply(n, d), src, 1) == Err(IllegalArgument("roleId"));
    ErrorPersists(s, [], Role, [Str("p:x")], Supply(n, d), src, 1, 2);
  }

  lemma RolesStart(s: Schema, n: nat, d: nat, src: RandomData.LetterSource, params: seq<Value>)
    requires WellFormed(s) && Roles in s && s[Roles] == ROLES
    ensures GenPrefix(s, [], Roles, params, Supply(n, d), src, 0) == Ok(Progress(Obj(n, Roles, [Null]), params, Supply(n + 1, d)))
  {
    NewAllNull(s, Roles, n, d);
    assert seq(1, _ => Null) == [Null];
    Start(s, [], Roles, params, Supply(n, d), src, Progress(Obj(n, Roles, [Null]), params, Supply(n + 1, d)));
  }

  lemma RolesFirstField(s: Schema, n: nat, d: nat, src: RandomData.LetterSource, params: seq<Value>)
    requires WellFormed(s) && Role in s && s[Role] == ROLE && Roles in s && s[Roles] == ROLES && RoleParameters(params)
    ensures GenPrefix(s, [], Roles, params, Supply(n, d), src, 1)
            == Ok(Progress(Obj(n, Roles, [ModelList([Obj(n + 1, Role, [RoleIdOf(params), ScopeOf(params)])])]), params,
                           Supply(n + 2, d)))
  {
    RoleGenerated(s, n + 1, d, src, params);
    RolesStart(s, n, d, src, params);
    AdvanceBuildsList(s, [], Roles, params, Supply(n, d), src, 0, Progress(Obj(n, Roles, [Null]), params, Supply(n + 1, d)),
      Generated(Obj(n + 1, Role, [RoleIdOf(params), ScopeOf(params)]), Supply(n + 2, d)),
      Progress(Obj(n, Roles, [ModelList([Obj(n + 1, Role, [RoleIdOf(params), ScopeOf(params)])])]), params, Supply(n + 2, d)));
  }

  /**
   * `generate(Roles.class, params...)`: a fresh one-element role list whose
   * Role takes the parameters, since list fields are never reused.
   */
  lemma RolesGenerated(s: Schema, n: nat, d: nat, src: RandomData.LetterSource, params: seq<Value>)
    requires WellFormed(s) && Role in s && s[Role] == ROLE && Roles in s && s[Roles] == ROLES && RoleParameters(params)
    ensures Generate(s, [], Roles, params, Supply(n, d), src)
            == Ok(Generated(Obj(n, Roles, [ModelList([Obj(n + 1, Role, [RoleIdOf(params), ScopeOf(params)])])]), Supply(n + 2, d)))
  {
    RolesFirstField(s, n, d, src, params);
    Finish(s, [], Roles, params, Supply(n, d), src,
      Progress(Obj(n, Roles, [ModelList([Obj(n + 1, Role, [RoleIdOf(params), ScopeOf(params)])])]), params, Supply(n + 2, d)));
  }

  /** `generate(Roles.class, PROJECT_ADMIN, "p:x")` on TEAMCITY: one Role carrying both parameters, in order. */
  lemma RolesFromTwoParameters(n: nat, d: nat, src: RandomData.LetterSource)
    ensures WellFormed(TEAMCITY)
    ensures Generate(TEAMCITY, [], Roles, [Enum(ProjectAdmin), Str("p:x")], Supply(n, d), src)
            == Ok(Generated(Obj(n, Roles, [ModelList([Obj(n + 1, Role, [Enum(ProjectAdmin), Str("p:x")])])]), Supply(n + 2, d)))
  {
    TeamCityDeclares();
    RolesGenerated(TEAMCITY, n, d, src, [Enum(ProjectAdmin), Str("p:x")]);
  }

  /** With a single parameter only roleId is set; scope keeps its initialiser "g". */
  lemma RolesFromOneParameter(n: nat, d: nat, src: RandomData.LetterSource)
    ensures WellFormed(TEAMCITY)
    ensures Generate(TEAMCITY, [], Roles, [Enum(ProjectAdmin)], Supply(n, d), src)
            == Ok(Generated(Obj(n, Roles, [ModelList([Obj(n + 1, Role, [Enum(ProjectAdmin), Str("g")])])]), Supply(n + 2, d)))
  {
    TeamCityDeclares();
    RolesGenerated(TEAMCITY, n, d, src, [Enum(ProjectAdmin)]);
  }

  // ---------------------------------------------------------------------------
  // NewProjectDescription, Project, User and BuildType.

  /** The value a Random String field receives from draw `d`. */
  function Draw(src: RandomData.LetterSource, d: nat): Value {
    Str(RandomData.GetString(src, d))
  }

  /** The description generated with identity `n` from draws `d` and `d + 1`. */
  function NewDescription(n: nat, d: nat, src: RandomData.LetterSource): Obj {
    Obj(n, NewProjectDescription, [Draw(src, d), Draw(src, d + 1), Model(RootProject(n + 1))])
  }

  lemma DescriptionStart(s: Schema, ctx: seq<Obj>, n: nat, d: nat, src: RandomData.LetterSource)
    requires WellFormed(s) && ValidContext(s, ctx)
    requires NewProjectDescription in s && s[NewProjectDescription] == NEW_PROJECT_DESCRIPTION
    ensures GenPrefix(s, ctx, NewProjectDescription, [], Supply(n, d), src, 0)
            == Ok(Progress(Obj(n, NewProjectDescription, [Null, Null, Model(RootProject(n + 1))]), [], Supply(n + 2, d)))
  {
    NewDescriptionInstance(s, n, d);
    Start(s, ctx, NewProjectDescription, [], Supply(n, d), src,
      Progress(Obj(n, NewProjectDescription, [Null, Null, Model(RootProject(n + 1))]), [], Supply(n + 2, d)));
  }

  lemma DescriptionAfterId(s: Schema, ctx: seq<Obj>, n: nat, d: nat, src: RandomData.LetterSource)
    requires WellFormed(s) && ValidContext(s, ctx)
    requires NewProjectDescription in s && s[NewProjectDescription] == NEW_PROJECT_DESCRIPTION
    ensures GenPrefix(s, ctx, NewProjectDescription, [], Supply(n, d), src, 1)
            == Ok(Progress(Obj(n, NewProjectDescription, [Draw(src, d), Null, Model(RootProject(n + 1))]), [], Supply(n + 2, d + 1)))
  {
    DescriptionStart(s, ctx, n, d, src);
    AdvanceDraws(s, ctx, NewProjectDescription, [], Supply(n, d), src, 0,
      Progress(Obj(n, NewProjectDescription, [Null, Null, Model(RootProject(n + 1))]), [], Supply(n + 2, d)),
      Progress(Obj(n, NewProjectDescription, [Draw(src, d), Null, Model(RootProject(n + 1))]), [], Supply(n + 2, d + 1)));
  }

  lemma DescriptionAfterName(s: Schema, ctx: seq<Obj>, n: nat, d: nat, src: RandomData.LetterSource)
    requires WellFormed(s) && ValidContext(s, ctx)
    requires NewProjectDescription in s && s[NewProjectDescription] == NEW_PROJECT_DESCRIPTION
    ensures GenPrefix(s, ctx, NewProjectDescription, [], Supply(n, d), src, 2)
            == Ok(Progress(NewDescription(n, d, src), [], Supply(n + 2, d + 2)))
  {
    DescriptionAfterId(s, ctx, n, d, src);
    AdvanceDraws(s, ctx, NewProjectDescription, [], Supply(n, d), src, 1,
      Progress(Obj(n, NewProjectDescription, [Draw(src, d), Null, Model(RootProject(n + 1))]), [], Supply(n + 2, d + 1)),
      Progress(NewDescription(n, d, src), [], Supply(n + 2, d + 2)));
  }

  /**
   * `generate(NewProjectDescription.class)` in any context: random id and
   * name; the Optional `parentProject` keeps its `_Root` default.
   */
  lemma DescriptionGenerated(s: Schema, ctx: seq<Obj>, n: nat, d: nat, src: RandomData.LetterSource)
    requires WellFormed(s) && ValidContext(s, ctx)
    requires NewProjectDescription in s && s[NewProjectDescription] == NEW_PROJECT_DESCRIPTION
    ensures Generate(s, ctx, NewProjectDescription, [], Supply(n, d), src)
            == Ok(Generated(NewDescription(n, d, src), Supply(n + 2, d + 2)))
  {
    DescriptionAfterName(s, ctx, n, d, src);
    AdvanceKeeps(s, ctx, NewProjectDescription, [], Supply(n, d), src, 2, Progress(NewDescription(n, d, src), [], Supply(n + 2, d + 2)));
    Finish(s, ctx, NewProjectDescription, [], Supply(n, d), src, Progress(NewDescription(n, d, src), [], Supply(n + 2, d + 2)));
  }

  lemma ProjectStart(s: Schema, ctx: seq<Obj>, n: nat, d: nat, src: RandomData.LetterSource)
    requires WellFormed(s) && ValidContext(s, ctx) && Project in s && s[Project] == PROJECT
    ensures GenPrefix(s, ctx, Project, [], Supply(n, d), src, 0)
            == Ok(Progress(Obj(n, Project, [Null, Null, Null]), [], Supply(n + 1, d)))
  {
    NewProject(s, n, d);
    Start(s, ctx, Project, [], Supply(n, d), src, Progress(Obj(n, Project, [Null, Null, Null]), [], Supply(n + 1, d)));
  }

  lemma ProjectAfterIdAlone(s: Schema, ctx: seq<Obj>, n: nat, d: nat, src: RandomData.LetterSource)
    requires WellFormed(s) && ValidContext(s, ctx) && Project in s && s[Project] == PROJECT
    requires FirstOfClass(ctx, NewProjectDescription).None?
    ensures GenPrefix(s, ctx, Project, [], Supply(n, d), src, 1)
            == Ok(Progress(Obj(n, Project, [Draw(src, d), Null, Null]), [], Supply(n + 1, d + 1)))
  {
    ProjectStart(s, ctx, n, d, src);
    AdvanceDraws(s, ctx, Project, [], Supply(n, d), src, 0,
      Progress(Obj(n, Project, [Null, Null, Null]), [], Supply(n + 1, d)),
      Progress(Obj(n, Project, [Draw(src, d), Null, Null]), [], Supply(n + 1, d + 1)));
  }

  lemma ProjectAfterNameAlone(s: Schema, ctx: seq<Obj>, n: nat, d: nat, src: RandomData.LetterSource)
    requires WellFormed(s) && ValidContext(s, ctx) && Project in s && s[Project] == PROJECT
    requires FirstOfClass(ctx, NewProjectDescription).None?
    ensures GenPrefix(s, ctx, Project, [], Supply(n, d), src, 2)
            == Ok(Progress(Obj(n, Project, [Draw(src, d), Draw(src, d + 1), Null]), [], Supply(n + 1, d + 2)))
  {
    ProjectAfterIdAlone(s, ctx, n, d, src);
    AdvanceDraws(s, ctx, Project, [], Supply(n, d), src, 1,
      Progress(Obj(n, Project, [Draw(src, d), Null, Null]), [], Supply(n + 1, d + 1)),
      Progress(Obj(n, Project, [Draw(src, d), Draw(src, d + 1), Null]), [], Supply(n + 1, d + 2)));
  }

  /**
   * A Project generated where no NewProjectDescription has been generated
   * (in particular `generate(Project.class)`): the Dependent arm is passed
   * over, so id and name are two random strings; `locator` stays null.
   */
  lemma ProjectWithoutDescription(s: Schema, ctx: seq<Obj>, n: nat, d: nat, src: RandomData.LetterSource)
    requires WellFormed(s) && ValidContext(s, ctx) && Project in s && s[Project] == PROJECT
    requires FirstOfClass(ctx, NewProjectDescription).None?
    ensures Generate(s, ctx, Project, [], Supply(n, d), src)
            == Ok(Generated(Obj(n, Project, [Draw(src, d), Draw(src, d + 1), Null]), Supply(n + 1, d + 2)))
  {
    ProjectAfterNameAlone(s, ctx, n, d, src);
    AdvanceKeeps(s, ctx, Project, [], Supply(n, d), src, 2,
      Progress(Obj(n, Project, [Draw(src, d), Draw(src, d + 1), Null]), [], Supply(n + 1, d + 2)));
    Finish(s, ctx, Project, [], Supply(n, d), src,
      Progress(Obj(n, Project, [Draw(src, d), Draw(src, d + 1), Null]), [], Supply(n + 1, d + 2)));
  }

  /** `generate(Project.class)` on TEAMCITY with an empty context. */
  lemma StandaloneProject(n: nat, d: nat, src: RandomData.LetterSource)
    ensures WellFormed(TEAMCITY)
    ensures Generate(TEAMCITY, [], Project, [], Supply(n, d), src)
            == Ok(Generated(Obj(n, Project, [Draw(src, d), Draw(src, d + 1), Null]), Supply(n + 1, d + 2)))
  {
    TeamCityDeclares();
    ProjectWithoutDescription(TEAMCITY, [], n, d, src);
  }

  /** The first two fields (a description's id and name) are values a String field accepts. */
  predicate StringValued(o: Obj) {
    |o.fields| >= 2 && Assignable(StringField, o.fields[0]) && Assignable(StringField, o.fields[1])
  }

  lemma ProjectAfterIdCopied(s: Schema, ctx: seq<Obj>, n: nat, d: nat, src: RandomData.LetterSource, k: nat)
    requires WellFormed(s) && ValidContext(s, ctx) && Project in s && s[Project] == PROJECT
    requires NewProjectDescription in s && s[NewProjectDescription] == NEW_PROJECT_DESCRIPTION
    requires FirstOfClass(ctx, NewProjectDescription) == Some(k) && StringValued(ctx[k])
    ensures GenPrefix(s, ctx, Project, [], Supply(n, d), src, 1)
            == Ok(Progress(Obj(n, Project, [ctx[k].fields[0], Null, Null]), [], Supply(n + 1, d)))
  {
    ProjectStart(s, ctx, n, d, src);
    assert FieldIndex(s[NewProjectDescription].fields, "id") == Some(0);
    AdvanceCopies(s, ctx, Project, [], Supply(n, d), src, 0,
      Progress(Obj(n, Project, [Null, Null, Null]), [], Supply(n + 1, d)), k, 0,
      Progress(Obj(n, Project, [ctx[k].fields[0], Null, Null]), [], Supply(n + 1, d)));
  }

  lemma ProjectAfterNameCopied(s: Schema, ctx: seq<Obj>, n: nat, d: nat, src: RandomData.LetterSource, k: nat)
    requires WellFormed(s) && ValidContext(s, ctx) && Project in s && s[Project] == PROJECT
    requires NewProjectDescription in s && s[NewProjectDescription] == NEW_PROJECT_DESCRIPTION
    requires FirstOfClass(ctx, NewProjectDescription) == Some(k) && StringValued(ctx[k])
    ensures GenPrefix(s, ctx, Project, [], Supply(n, d), src, 2)
            == Ok(Progress(Obj(n, Project, [ctx[k].fields[0], ctx[k].fields[1], Null]), [], Supply(n + 1, d)))
  {
    ProjectAfterIdCopied(s, ctx, n, d, src, k);
    assert FieldIndex(s[NewProjectDescription].fields, "name") == Some(1);
    AdvanceCopies(s, ctx, Project, [], Supply(n, d), src, 1,
      Progress(Obj(n, Project, [ctx[k].fields[0], Null, Null]), [], Supply(n + 1, d)), k, 1,
      Progress(Obj(n, Project, [ctx[k].fields[0], ctx[k].fields[1], Null]), [], Supply(n + 1, d)));
  }

  /**
   * A Project generated after a NewProjectDescription: id and name are
   * copied from the first description in the context, nothing is drawn.
   */
  lemma ProjectFromDescription(s: Schema, ctx: seq<Obj>, n: nat, d: nat, src: RandomData.LetterSource, k: nat)
    requires WellFormed(s) && ValidContext(s, ctx) && Project in s && s[Project] == PROJECT
    requires NewProjectDescription in s && s[NewProjectDescription] == NEW_PROJECT_DESCRIPTION
    requires FirstOfClass(ctx, NewProjectDescription) == Some(k) && StringValued(ctx[k])
    ensures Generate(s, ctx, Project, [], Supply(n, d), src)
            == Ok(Generated(Obj(n, Project, [ctx[k].fields[0], ctx[k].fields[1], Null]), Supply(n + 1, d)))
  {
    ProjectAfterNameCopied(s, ctx, n, d, src, k);
    AdvanceKeeps(s, ctx, Project, [], Supply(n, d), src, 2,
      Progress(Obj(n, Project, [ctx[k].fields[0], ctx[k].fields[1], Null]), [], Supply(n + 1, d)));
    Finish(s, ctx, Project, [], Supply(n, d), src,
      Progress(Obj(n, Project, [ctx[k].fields[0], ctx[k].fields[1], Null]), [], Supply(n + 1, d)));
  }

  /** `generate(User.class)`: no annotation applies to `id`, so it stays null until the server assigns one. */
  lemma UserGenerated(s: Schema, ctx: seq<Obj>, n: nat, d: nat, src: RandomData.LetterSource)
    requires WellFormed(s) && ValidContext(s, ctx) && User in s && s[User] == USER
    ensures Generate(s, ctx, User, [], Supply(n, d), src) == Ok(Generated(Obj(n, User, [Null]), Supply(n + 1, d)))
  {
    NewAllNull(s, User, n, d);
    assert seq(1, _ => Null) == [Null];
    Start(s, ctx, User, [], Supply(n, d), src, Progress(Obj(n, User, [Null]), [], Supply(n + 1, d)));
    AdvanceKeeps(s, ctx, User, [], Supply(n, d), src, 0, Progress(Obj(n, User, [Null]), [], Supply(n + 1, d)));
    Finish(s, ctx, User, [], Supply(n, d), src, Progress(Obj(n, User, [Null]), [], Supply(n + 1, d)));
  }

  lemma BuildTypeStart(s: Schema, ctx: seq<Obj>, n: nat, d: nat, src: RandomData.LetterSource)
    requires WellFormed(s) && ValidContext(s, ctx) && BuildType in s && s[BuildType] == BUILD_TYPE
    ensures GenPrefix(s, ctx, BuildType, [], Supply(n, d), src, 0)
            == Ok(Progress(Obj(n, BuildType, [Null, Null, Null, Null]), [], Supply(n + 1, d)))
  {
    NewAllNull(s, BuildType, n, d);
    assert seq(4, _ => Null) == [Null, Null, Null, Null];
    Start(s, ctx, BuildType, [], Supply(n, d), src, Progress(Obj(n, BuildType, [Null, Null, Null, Null]), [], Supply(n + 1, d)));
  }

  lemma BuildTypeAfterId(s: Schema, ctx: seq<Obj>, n: nat, d: nat, src: RandomData.LetterSource)
    requires WellFormed(s) && ValidContext(s, ctx) && BuildType in s && s[BuildType] == BUILD_TYPE
    ensures GenPrefix(s, ctx, BuildType, [], Supply(n, d), src, 1)
            == Ok(Progress(Obj(n, BuildType, [Draw(src, d), Null, Null, Null]), [], Supply(n + 1, d + 1)))
  {
    BuildTypeStart(s, ctx, n, d, src);
    AdvanceDraws(s, ctx, BuildType, [], Supply(n, d), src, 0,
      Progress(Obj(n, BuildType, [Null, Null, Null, Null]), [], Supply(n + 1, d)),
      Progress(Obj(n, BuildType, [Draw(src, d), Null, Null, Null]), [], Supply(n + 1, d + 1)));
  }

  lemma BuildTypeAfterName(s: Schema, ctx: seq<Obj>, n: nat, d: nat, src: RandomData.LetterSource)
    requires WellFormed(s) && ValidContext(s, ctx) && BuildType in s && s[BuildType] == BUILD_TYPE
    ensures GenPrefix(s, ctx, BuildType, [], Supply(n, d), src, 2)
            == Ok(Progress(Obj(n, BuildType, [Draw(src, d), Draw(src, d + 1), Null, Null]), [], Supply(n + 1, d + 2)))
  {
    BuildTypeAfterId(s, ctx, n, d, src);
    AdvanceDraws(s, ctx, BuildType, [], Supply(n, d), src, 1,
      Progress(Obj(n, BuildType, [Draw(src, d), Null, Null, Null]), [], Supply(n + 1, d + 1)),
      Progress(Obj(n, BuildType, [Draw(src, d), Draw(src, d + 1), Null, Null]), [], Supply(n + 1, d + 2)));
  }

  lemma BuildTypeAfterProject(s: Schema, ctx: seq<Obj>, n: nat, d: nat, src: RandomData.LetterSource, k: nat)
    requires WellFormed(s) && ValidContext(s, ctx) && BuildType in s && s[BuildType] == BUILD_TYPE
    requires FirstOfClass(ctx, Project) == Some(k)
    ensures GenPrefix(s, ctx, BuildType, [], Supply(n, d), src, 3)
            == Ok(Progress(Obj(n, BuildType, [Draw(src, d), Draw(src, d + 1), Model(ctx[k]), Null]), [], Supply(n + 1, d + 2)))
  {
    BuildTypeAfterName(s, ctx, n, d, src);
    AdvanceReuses(s, ctx, BuildType, [], Supply(n, d), src, 2,
      Progress(Obj(n, BuildType, [Draw(src, d), Draw(src, d + 1), Null, Null]), [], Supply(n + 1, d + 2)), k,
      Progress(Obj(n, BuildType, [Draw(src, d), Draw(src, d + 1), Model(ctx[k]), Null]), [], Supply(n + 1, d + 2)));
  }

  /**
   * A BuildType generated after a Project: random id and name, the very
   * Project instance of the context in `project`, and the Optional `steps`
   * left null.
   */
  lemma BuildTypeInContext(s: Schema, ctx: seq<Obj>, n: nat, d: nat, src: RandomData.LetterSource, k: nat)
    requires WellFormed(s) && ValidContext(s, ctx) && BuildType in s && s[BuildType] == BUILD_TYPE
    requires FirstOfClass(ctx, Project) == Some(k)
    ensures Generate(s, ctx, BuildType, [], Supply(n, d), src)
            == Ok(Generated(Obj(n, BuildType, [Draw(src, d), Draw(src, d + 1), Model(ctx[k]), Null]), Supply(n + 1, d + 2)))
  {
    BuildTypeAfterProject(s, ctx, n, d, src, k);
    AdvanceKeeps(s, ctx, BuildType, [], Supply(n, d), src, 3,
      Progress(Obj(n, BuildType, [Draw(src, d), Draw(src, d + 1), Model(ctx[k]), Null]), [], Supply(n + 1, d + 2)));
    Finish(s, ctx, BuildType, [], Supply(n, d), src,
      Progress(Obj(n, BuildType, [Draw(src, d), Draw(src, d + 1), Model(ctx[k]), Null]), [], Supply(n + 1, d + 2)));
  }
}
