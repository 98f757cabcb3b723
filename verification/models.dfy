/**
 * Model classes as the generator sees them: a table of shapes (declared
 * fields with their kinds, generation annotations and initialisers) in place
 * of runtime reflection, and instances as values.
 */
module Models {
  import opened Wrappers

  /** The model classes (subclasses of BaseModel) the generator knows about. */
  datatype ModelClass =
    | Project | NewProjectDescription | BuildType | Steps | Step
    | Properties | Property | Role | Roles | User

  /** The UserRole enumeration, in declaration order. */
  datatype UserRole = SystemAdmin | ProjectAdmin | ProjectDeveloper | ProjectViewer | AgentManager

  /** What a model field can hold. */
  datatype Value =
    | Null
    | Str(text: string)
    | Enum(role: UserRole)
    | Model(obj: Obj)
    | ModelList(items: seq<Obj>)

  /**
   * An instance of a model class. `oid` is its allocation identity: two
   * values denote the same Java object exactly when they carry the same oid.
   * `fields` holds one value per declared field, in declaration order.
   */
  datatype Obj = Obj(oid: nat, cls: ModelClass, fields: seq<Value>)

  /** Declared type of a field. */
  datatype FieldKind =
    | StringField
    | ModelField(cls: ModelClass)
    | ModelListField(elem: ModelClass)  // List<E> with E a model class
    | EnumField                         // any other type; here the UserRole enumeration

  /** The generation annotations on a field; a field may carry several. */
  datatype Annotations = Annotations(
    optional: bool,
    parameterizable: bool,
    dependent: Option<ModelClass>,  // @Dependent(relatedClass = ...)
    random: bool)

  /** A field initialiser run by the no-argument constructor. */
  datatype Init =
    | NoInit
    | StrInit(text: string)
    | EnumInit(role: UserRole)
    | NewModel(cls: ModelClass, args: seq<Init>)  // all-arguments constructor call

  datatype FieldDecl = FieldDecl(name: string, kind: FieldKind, annotations: Annotations, init: Init)

  /**
   * A model class's declared fields. `rank` is a height in the graph of
   * nested model fields and makes recursive generation terminate.
   */
  datatype Shape = Shape(rank: nat, fields: seq<FieldDecl>)

  /** The classes that can be instantiated with a no-argument constructor. */
  type Schema = map<ModelClass, Shape>

  /** Classes that a field of this kind makes the generator instantiate. */
  function NestedClass(k: FieldKind): Option<ModelClass> {
    match k
    case ModelField(c) => Some(c)
    case ModelListField(c) => Some(c)
    case _ => None
  }

  /** Index of the declared field called `name`, if any. */
  function FieldIndex(fields: seq<FieldDecl>, name: string): (r: Option<nat>)
    ensures r.Some? ==> r.value < |fields| && fields[r.value].name == name
    ensures r.None? ==> forall j :: 0 <= j < |fields| ==> fields[j].name != name
  {
    if fields == [] then None
    else if fields[0].name == name then Some(0)
    else match FieldIndex(fields[1..], name)
      case None => None
      case Some(j) => Some(j + 1)
  }

  /**
   * The shape table is acyclic (a nested class known to the table has a
   * smaller rank), field names are unique per class, and a field called `id`
   * is a String.
   */
  ghost predicate WellFormed(s: Schema) {
    forall c :: c in s ==> ShapeWellFormed(s, c)
  }

  ghost predicate ShapeWellFormed(s: Schema, c: ModelClass)
    requires c in s
  {
    var fs := s[c].fields;
    && (forall i :: 0 <= i < |fs| && NestedClass(fs[i].kind).Some? && NestedClass(fs[i].kind).value in s ==>
          s[NestedClass(fs[i].kind).value].rank < s[c].rank)
    && (forall i, j :: 0 <= i < j < |fs| ==> fs[i].name != fs[j].name)
    && (forall i :: 0 <= i < |fs| && fs[i].name == "id" ==> fs[i].kind == StringField)
  }

  /** An instance has exactly the fields its class declares. */
  ghost predicate Conforms(s: Schema, o: Obj) {
    o.cls in s && |o.fields| == |s[o.cls].fields|
  }

  /** `Field.set` accepts the value: null, or a value of the field's type (generics are erased). */
  predicate Assignable(k: FieldKind, v: Value) {
    match v
    case Null => true
    case Str(_) => k == StringField
    case Enum(_) => k == EnumField
    case Model(o) => k == ModelField(o.cls)
    case ModelList(_) => k.ModelListField?
  }

  /**
   * Runs one initialiser; objects it constructs take consecutive identities
   * from `next`. Returns the value and the next unused identity.
   */
  function Instantiate(init: Init, next: nat): (r: (Value, nat))
    ensures r.1 >= next
    decreases init, 1
  {
    match init
    case NoInit => (Null, next)
    case StrInit(t) => (Str(t), next)
    case EnumInit(role) => (Enum(role), next)
    case NewModel(c, args) =>
      var built := InstantiateAll(args, next + 1);
      (Model(Obj(next, c, built.0)), built.1)
  }

  function InstantiateAll(inits: seq<Init>, next: nat): (r: (seq<Value>, nat))
    ensures |r.0| == |inits| && r.1 >= next
    decreases inits, 0
  {
    if inits == [] then ([], next)
    else
      var first := Instantiate(inits[0], next);
      var rest := InstantiateAll(inits[1..], first.1);
      ([first.0] + rest.0, rest.1)
  }

  // ---------------------------------------------------------------------------
  // The shapes of this test suite's model classes.

  const NONE := Annotations(false, false, None, false)
  const OPTIONAL := Annotations(true, false, None, false)
  const PARAMETERIZABLE := Annotations(false, true, None, false)
  const RANDOM := Annotations(false, false, None, true)

  /** `new Project(null, null, "_Root")`, the default parent of a new project. */
  const ROOT_PROJECT := NewModel(Project, [NoInit, NoInit, StrInit("_Root")])

  const PROJECT := Shape(0, [
    FieldDecl("id", StringField, Annotations(false, false, Some(NewProjectDescription), true), NoInit),
    FieldDecl("name", StringField, Annotations(false, false, Some(NewProjectDescription), true), NoInit),
    FieldDecl("locator", StringField, NONE, NoInit)])
  const NEW_PROJECT_DESCRIPTION := Shape(1, [
    FieldDecl("id", StringField, RANDOM, NoInit),
    FieldDecl("name", StringField, RANDOM, NoInit),
    FieldDecl("parentProject", ModelField(Project), OPTIONAL, ROOT_PROJECT)])
  const BUILD_TYPE := Shape(5, [
    FieldDecl("id", StringField, RANDOM, NoInit),
    FieldDecl("name", StringField, RANDOM, NoInit),
    FieldDecl("project", ModelField(Project), NONE, NoInit),
    FieldDecl("steps", ModelField(Steps), OPTIONAL, NoInit)])
  const STEPS := Shape(4, [
    FieldDecl("step", ModelListField(Step), NONE, NoInit)])
  const STEP := Shape(3, [
    FieldDecl("name", StringField, RANDOM, NoInit),
    FieldDecl("type", StringField, NONE, StrInit("simpleRunner")),
    FieldDecl("properties", ModelField(Properties), NONE, NoInit)])
  const PROPERTIES := Shape(2, [
    FieldDecl("property", ModelListField(Property), PARAMETERIZABLE, NoInit)])
  const PROPERTY := Shape(0, [
    FieldDecl("name", StringField, PARAMETERIZABLE, NoInit),
    FieldDecl("value", StringField, PARAMETERIZABLE, NoInit)])
  const ROLE := Shape(0, [
    FieldDecl("roleId", EnumField, PARAMETERIZABLE, EnumInit(SystemAdmin)),
    FieldDecl("scope", StringField, PARAMETERIZABLE, StrInit("g"))])
  const ROLES := Shape(1, [
    FieldDecl("role", ModelListField(Role), NONE, NoInit)])
  /**
   * Of User's fields only `id` is part of this model: the server assigns it,
   * and the storage reads it when a created user is registered.
   */
  const USER := Shape(0, [
    FieldDecl("id", StringField, NONE, NoInit)])

  const TEAMCITY: Schema := map[
    Project := PROJECT, NewProjectDescription := NEW_PROJECT_DESCRIPTION, BuildType := BUILD_TYPE,
    Steps := STEPS, Step := STEP, Properties := PROPERTIES, Property := PROPERTY,
    Role := ROLE, Roles := ROLES, User := USER]

  /** The suite's shape table is acyclic and well formed. */
  lemma TeamCityWellFormed()
    ensures WellFormed(TEAMCITY)
  {
    forall c | c in TEAMCITY
      ensures ShapeWellFormed(TEAMCITY, c)
    {
    }
  }
}
