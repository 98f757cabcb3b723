/**
 * Field-by-field comparison of a request model with the response model it
 * produced: each mapping entry names a request field and the response field
 * that should hold the same value, and values are compared through their
 * `String.valueOf` text.
 */
module Comparator {
  import opened Wrappers

  /** A field value: null, or an object whose `toString` gives `text`. */
  datatype JValue = JNull | JObject(text: string)

  /** `String.valueOf`: null becomes the text "null". */
  function ValueOf(v: JValue): string {
    match v
    case JNull => "null"
    case JObject(t) => t
  }

  /**
   * An object as reflection sees it: the name of its class and, starting
   * with that class and going up through each superclass, the fields each
   * class declares with their values in this object.
   */
  datatype Instance = Instance(className: string, chain: seq<map<string, JValue>>)

  /** The value of the first field called `name` up the class chain. */
  function FirstDeclared(chain: seq<map<string, JValue>>, name: string): Option<JValue> {
    if chain == [] then None
    else if name in chain[0] then Some(chain[0][name])
    else FirstDeclared(chain[1..], name)
  }

  /**
   * The lookup finds the field in the nearest class of the chain that
   * declares it, and finds nothing when no class does.
   */
  lemma {:induction false} FirstDeclaredIsNearest(chain: seq<map<string, JValue>>, name: string)
    ensures FirstDeclared(chain, name).None? <==> forall i :: 0 <= i < |chain| ==> name !in chain[i]
    ensures FirstDeclared(chain, name).Some? ==>
              exists i :: 0 <= i < |chain| && name in chain[i] && chain[i][name] == FirstDeclared(chain, name).value
                          && forall j :: 0 <= j < i ==> name !in chain[j]
  {
    if chain != [] && name !in chain[0] {
      var tail := chain[1..];
      FirstDeclaredIsNearest(tail, name);
      assert forall i :: 1 <= i < |chain| ==> chain[i] == tail[i - 1];
      if FirstDeclared(tail, name).Some? {
        var i :| 0 <= i < |tail| && name in tail[i] && tail[i][name] == FirstDeclared(tail, name).value
                 && forall j :: 0 <= j < i ==> name !in tail[j];
        assert forall j :: 0 <= j < i + 1 ==> name !in chain[j];
      }
    }
  }

  /** What `getFieldValue(obj, fieldName)` returns, or the message it throws. */
  function FieldValue(o: Instance, name: string): Result<JValue, string> {
    match FirstDeclared(o.chain, name)
    case Some(v) => Ok(v)
    case None => Err("Field not found: " + name + " in class " + o.className)
  }

  /** `getFieldValue`: walks up the superclass chain until a class declares the field. */
  method GetFieldValue(o: Instance, name: string) returns (r: Result<JValue, string>)
    ensures r == FieldValue(o, name)
  {
    var k := 0;
    while k < |o.chain|
      invariant 0 <= k <= |o.chain|
      invariant FirstDeclared(o.chain[k..], name) == FirstDeclared(o.chain, name)
    {
      if name in o.chain[k] {
        return Ok(o.chain[k][name]);
      }
      assert o.chain[k..][1..] == o.chain[k + 1..];
      k := k + 1;
    }
    return Err("Field not found: " + name + " in class " + o.className);
  }

  /** One field whose request and response values differ. */
  datatype Mismatch = Mismatch(fieldName: string, expected: JValue, actual: JValue)

  /** The label of a mismatch: `requestField -> responseField`. */
  function Label(requestField: string, responseField: string): string {
    requestField + " -> " + responseField
  }

  /** A mapping entry: request field name and response field name. */
  type Entry = (string, string)

  /** Both fields of every entry can be looked up. */
  ghost predicate Resolves(request: Instance, response: Instance, entries: seq<Entry>) {
    forall k :: 0 <= k < |entries| ==> FieldValue(request, entries[k].0).Ok? && FieldValue(response, entries[k].1).Ok?
  }

  /** Entry `k` resolves and its two values render differently. */
  ghost predicate Differs(request: Instance, response: Instance, e: Entry) {
    && FieldValue(request, e.0).Ok? && FieldValue(response, e.1).Ok?
    && ValueOf(FieldValue(request, e.0).value) != ValueOf(FieldValue(response, e.1).value)
  }

  /** The mismatch recorded for a resolving entry. */
  function MismatchOf(request: Instance, response: Instance, e: Entry): Mismatch
    requires FieldValue(request, e.0).Ok? && FieldValue(response, e.1).Ok?
  {
    Mismatch(Label(e.0, e.1), FieldValue(request, e.0).value, FieldValue(response, e.1).value)
  }

  /**
   * `compareFields` over the mapping's entries in iteration order: the
   * mismatches found, or the message of the first failed lookup.
   */
  function Compare(request: Instance, response: Instance, entries: seq<Entry>): (r: Result<seq<Mismatch>, string>)
    ensures r.Ok? ==> |r.value| <= |entries|
  {
    if entries == [] then Ok([])
    else
      var e := entries[|entries| - 1];
      match Compare(request, response, entries[..|entries| - 1])
      case Err(msg) => Err(msg)
      case Ok(ms) =>
        match FieldValue(request, e.0)
        case Err(msg) => Err(msg)
        case Ok(v1) =>
          match FieldValue(response, e.1)
          case Err(msg) => Err(msg)
          case Ok(v2) =>
            if ValueOf(v1) == ValueOf(v2) then Ok(ms) else Ok(ms + [Mismatch(Label(e.0, e.1), v1, v2)])
  }

  /** The comparison fails exactly when some entry names a field its object lacks. */
  lemma {:induction false} CompareOkIffResolves(request: Instance, response: Instance, entries: seq<Entry>)
    ensures Compare(request, response, entries).Ok? <==> Resolves(request, response, entries)
  {
    if entries != [] {
      var front := entries[..|entries| - 1];
      CompareOkIffResolves(request, response, front);
      assert forall k :: 0 <= k < |front| ==> front[k] == entries[k];
    }
  }

  /** A successful comparison extends that of all but the last entry by at most the last entry's mismatch. */
  lemma CompareLast(request: Instance, response: Instance, entries: seq<Entry>)
    requires entries != [] && Compare(request, response, entries).Ok?
    ensures Compare(request, response, entries[..|entries| - 1]).Ok?
    ensures FieldValue(request, entries[|entries| - 1].0).Ok? && FieldValue(response, entries[|entries| - 1].1).Ok?
    ensures Compare(request, response, entries).value
            == Compare(request, response, entries[..|entries| - 1]).value
               + (if Differs(request, response, entries[|entries| - 1])
                  then [MismatchOf(request, response, entries[|entries| - 1])] else [])
  {
  }

  /**
   * Each mismatch is that of some differing entry: labelled
   * `request -> response`, with the request value as expected and the
   * response value as actual.
   */
  lemma {:induction false} MismatchesDiffer(request: Instance, response: Instance, entries: seq<Entry>)
    requires Compare(request, response, entries).Ok?
    ensures forall i :: 0 <= i < |Compare(request, response, entries).value| ==>
              exists k :: 0 <= k < |entries| && Differs(request, response, entries[k])
                          && Compare(request, response, entries).value[i] == MismatchOf(request, response, entries[k])
  {
    if entries != [] {
      var front := entries[..|entries| - 1];
      var last := |entries| - 1;
      CompareLast(request, response, entries);
      MismatchesDiffer(request, response, front);
      var ms := Compare(request, response, entries).value;
      var fs := Compare(request, response, front).value;
      forall i | 0 <= i < |ms|
        ensures exists k :: 0 <= k < |entries| && Differs(request, response, entries[k])
                            && ms[i] == MismatchOf(request, response, entries[k])
      {
        if i < |fs| {
          var k :| 0 <= k < |front| && Differs(request, response, front[k]) && fs[i] == MismatchOf(request, response, front[k]);
          assert front[k] == entries[k] && ms[i] == fs[i];
        } else {
          assert ms[i] == MismatchOf(request, response, entries[last]);
        }
      }
    }
  }

  /** Every differing entry has its mismatch in the result. */
  lemma {:induction false} DifferencesReported(request: Instance, response: Instance, entries: seq<Entry>)
    requires Compare(request, response, entries).Ok?
    ensures forall k :: 0 <= k < |entries| && Differs(request, response, entries[k]) ==>
              MismatchOf(request, response, entries[k]) in Compare(request, response, entries).value
  {
    if entries != [] {
      var front := entries[..|entries| - 1];
      CompareLast(request, response, entries);
      DifferencesReported(request, response, front);
      forall k | 0 <= k < |entries| - 1 && Differs(request, response, entries[k])
        ensures MismatchOf(request, response, entries[k]) in Compare(request, response, entries).value
      {
        assert front[k] == entries[k];
      }
    }
  }

  /** `isSuccess()` holds exactly when every entry's two values render alike. */
  lemma SuccessIffNoDifference(request: Instance, response: Instance, entries: seq<Entry>)
    requires Compare(request, response, entries).Ok?
    ensures Compare(request, response, entries).value == []
            <==> forall k :: 0 <= k < |entries| ==> !Differs(request, response, entries[k])
  {
    MismatchesDiffer(request, response, entries);
    DifferencesReported(request, response, entries);
    var ms := Compare(request, response, entries).value;
    if ms != [] {
      var k :| 0 <= k < |entries| && Differs(request, response, entries[k]) && ms[0] == MismatchOf(request, response, entries[k]);
    }
  }

  /** An object compared with itself has no mismatch (unless a lookup fails). */
  lemma {:induction false} CompareWithItself(o: Instance, entries: seq<Entry>)
    requires forall k :: 0 <= k < |entries| ==> entries[k].0 == entries[k].1
    ensures Compare(o, o, entries).Err? || Compare(o, o, entries).value == []
  {
    if entries != [] {
      var front := entries[..|entries| - 1];
      CompareWithItself(o, front);
    }
  }

  /** A null field and the string "null" compare equal, since both render as "null". */
  lemma NullEqualsNullString()
    ensures Compare(Instance("Request", [map["id" := JNull]]), Instance("Response", [map["id" := JObject("null")]]), [("id", "id")])
            == Ok([])
  {
    assert [("id", "id")][..0] == [];
  }

  /**
   * `compareFields`: one lookup pair per entry in iteration order, adding a
   * mismatch when the rendered values differ.
   */
  method CompareFields(request: Instance, response: Instance, entries: seq<Entry>) returns (r: Result<ComparisonResult, string>)
    ensures r.Ok? <==> Compare(request, response, entries).Ok?
    ensures r.Ok? ==> r.value.mismatches == Compare(request, response, entries).value
    ensures r.Err? ==> r.error == Compare(request, response, entries).error
  {
    var mismatches: seq<Mismatch> := [];
    for k := 0 to |entries|
      invariant Compare(request, response, entries[..k]) == Ok(mismatches)
    {
      var e := entries[k];
      assert entries[..k + 1][..k] == entries[..k];
      var value1 := GetFieldValue(request, e.0);
      if value1.Err? {
        ErrorPersists(request, response, entries, k + 1);
        return Err(value1.error);
      }
      var value2 := GetFieldValue(response, e.1);
      if value2.Err? {
        ErrorPersists(request, response, entries, k + 1);
        return Err(value2.error);
      }
      if ValueOf(value1.value) != ValueOf(value2.value) {
        mismatches := mismatches + [Mismatch(Label(e.0, e.1), value1.value, value2.value)];
      }
    }
    assert entries[..|entries|] == entries;
    return Ok(ComparisonResult(mismatches));
  }

  /** A failed lookup ends the comparison: later entries do not change the error. */
  lemma {:induction false} ErrorPersists(request: Instance, response: Instance, entries: seq<Entry>, k: nat)
    requires k <= |entries| && Compare(request, response, entries[..k]).Err?
    ensures Compare(request, response, entries) == Compare(request, response, entries[..k])
    decreases |entries| - k
  {
    if k < |entries| {
      assert entries[..k + 1][..k] == entries[..k];
      ErrorPersists(request, response, entries, k + 1);
    } else {
      assert entries[..k] == entries;
    }
  }

  /** The line `toString` writes for one mismatch. */
  function Line(m: Mismatch): string {
    "- " + m.fieldName + ": expected=" + ValueOf(m.expected) + ", actual=" + ValueOf(m.actual) + "\n"
  }

  /** The lines of a list of mismatches, in list order. */
  function Lines(ms: seq<Mismatch>): string {
    if ms == [] then "" else Lines(ms[..|ms| - 1]) + Line(ms[|ms| - 1])
  }

  /** The lines of two lists are the lines of the first followed by those of the second. */
  lemma {:induction false} LinesAppend(ms: seq<Mismatch>, ns: seq<Mismatch>)
    ensures Lines(ms + ns) == Lines(ms) + Lines(ns)
    decreases |ns|
  {
    if ns != [] {
      var front := ns[..|ns| - 1];
      assert (ms + ns)[..|ms + ns| - 1] == ms + front;
      LinesAppend(ms, front);
    } else {
      assert ms + ns == ms;
    }
  }

  /** The lines of one more mismatch end with that mismatch's line. */
  lemma LinesStep(ms: seq<Mismatch>, i: nat)
    requires i < |ms|
    ensures HEADER + Lines(ms[..i + 1]) == HEADER + Lines(ms[..i]) + Line(ms[i])
  {
    assert ms[..i + 1][..i] == ms[..i];
    assert Lines(ms[..i + 1]) == Lines(ms[..i]) + Line(ms[i]);
  }

  const ALL_MATCH := "All fields match."
  const HEADER := "Mismatched fields:\n"

  /** The result of a comparison: its mismatches in the order they were found. */
  datatype ComparisonResult = ComparisonResult(mismatches: seq<Mismatch>) {

    predicate IsSuccess() {
      mismatches == []
    }

    /** The text `toString` builds. */
    function Report(): (r: string)
      ensures r == ALL_MATCH <==> IsSuccess()
      ensures !IsSuccess() ==> r == HEADER + Lines(mismatches)
    {
      if IsSuccess() then ALL_MATCH
      else
        var r := HEADER + Lines(mismatches);
        assert r[0] != ALL_MATCH[0];
        r
    }

    /** `toString`: the success text, or the header then one line per mismatch. */
    method ToString() returns (r: string)
      ensures r == Report()
    {
      if IsSuccess() {
        return ALL_MATCH;
      }
      var sb := HEADER;
      for i := 0 to |mismatches|
        invariant sb == HEADER + Lines(mismatches[..i])
      {
        LinesStep(mismatches, i);
        sb := sb + Line(mismatches[i]);
      }
      assert mismatches[..|mismatches|] == mismatches;
      return sb;
    }
  }
}
