/**
 * Comparison rules read from a properties table whose entries look like
 * `RequestClass=ResponseClass:field1=field1Response,field2`: the request
 * class's simple name, the response class's simple name, and the pairs of
 * request and response fields to compare.
 */
module ComparisonConfig {
  import opened Wrappers
  import opened JavaString

  /** The response class to compare against and the request-to-response field map. */
  datatype ComparisonRule = ComparisonRule(responseClassSimpleName: string, fieldMappings: map<string, string>)

  /**
   * The mapping one pair contributes: `a=b` maps `a` to `b` (both trimmed);
   * anything that does not split on `=` into exactly two parts maps its
   * trimmed text to itself.
   */
  function PairMapping(pair: string): (string, string) {
    var parts := Split(pair, '=');
    if |parts| == 2 then (Trim(parts[0]), Trim(parts[1])) else (Trim(pair), Trim(pair))
  }

  /**
   * Puts each entry into an initially empty map in turn, skipping entries
   * without a value: a later entry overwrites an earlier one with the same key.
   */
  function PutAll<V>(kvs: seq<(string, Option<V>)>): map<string, V> {
    if kvs == [] then map[]
    else
      var kv := kvs[|kvs| - 1];
      var m := PutAll(kvs[..|kvs| - 1]);
      if kv.1.Some? then m[kv.0 := kv.1.value] else m
  }

  /** The map holds exactly the keys of entries with a value. */
  lemma {:induction false} PutAllDomain<V>(kvs: seq<(string, Option<V>)>, key: string)
    ensures key in PutAll(kvs) <==> exists i :: 0 <= i < |kvs| && kvs[i].0 == key && kvs[i].1.Some?
  {
    if kvs != [] {
      var front := kvs[..|kvs| - 1];
      PutAllDomain(front, key);
      assert forall i :: 0 <= i < |front| ==> front[i] == kvs[i];
    }
  }

  /** An entry with a value that no later entry with a value overwrites decides its key. */
  lemma {:induction false} PutAllLastWins<V>(kvs: seq<(string, Option<V>)>, i: nat)
    requires i < |kvs| && kvs[i].1.Some?
    requires forall j :: i < j < |kvs| ==> kvs[j].0 != kvs[i].0 || kvs[j].1.None?
    ensures kvs[i].0 in PutAll(kvs) && PutAll(kvs)[kvs[i].0] == kvs[i].1.value
  {
    var front := kvs[..|kvs| - 1];
    if i < |kvs| - 1 {
      assert forall j :: i < j < |front| ==> front[j] == kvs[j];
      PutAllLastWins(front, i);
      assert front[i] == kvs[i];
    }
  }

  /** The entries the rule constructor puts, one per pair. */
  function PairEntries(pairs: seq<string>): seq<(string, Option<string>)> {
    seq(|pairs|, i requires 0 <= i < |pairs| => (PairMapping(pairs[i]).0, Some(PairMapping(pairs[i]).1)))
  }

  /** The field map the rule constructor builds. */
  function Mappings(pairs: seq<string>): map<string, string> {
    PutAll(PairEntries(pairs))
  }

  /** `request=response` with no other `=` and a non-empty right side maps the trimmed sides. */
  lemma ExplicitPair(request: string, response: string)
    requires '=' !in request && '=' !in response && response != []
    ensures PairMapping(request + "=" + response) == (Trim(request), Trim(response))
  {
    assert request + "=" + response == request + ['='] + response;
    SplitOnce(request, response, '=');
  }

  /** A bare field name maps its trimmed self to itself. */
  lemma BarePair()
    ensures PairMapping(" id ") == ("id", "id")
  {
    SplitWithoutDelimiter(" id ", '=');
    assert Trim(" id ") == "id" by {
      assert LeadingBlanks(" id ") == 1;
      assert " id "[1..] == "id ";
      assert TrailingBlanks("id ") == 1;
    }
  }

  /** `a=b=c` splits into three parts, so it maps to itself. */
  lemma ThreePartPair()
    ensures PairMapping("a=b=c") == ("a=b=c", "a=b=c")
  {
    SplitExampleThreeParts();
    TrimUnchanged("a=b=c");
  }

  /** `x=` splits into one part, so it maps to itself, `=` included. */
  lemma TrailingEqualsPair()
    ensures PairMapping("x=") == ("x=", "x=")
  {
    SplitExampleTrailingEquals();
    TrimUnchanged("x=");
  }

  /** The field map holds exactly the request fields some pair names. */
  lemma MappingsDomain(pairs: seq<string>, request: string)
    ensures request in Mappings(pairs) <==> exists i :: 0 <= i < |pairs| && PairMapping(pairs[i]).0 == request
  {
    PutAllDomain(PairEntries(pairs), request);
    assert forall i :: 0 <= i < |pairs| ==> PairEntries(pairs)[i].0 == PairMapping(pairs[i]).0;
  }

  /** A pair whose request field no later pair names decides that field's mapping: later pairs win. */
  lemma MappingsLastWins(pairs: seq<string>, i: nat)
    requires i < |pairs|
    requires forall j :: i < j < |pairs| ==> PairMapping(pairs[j]).0 != PairMapping(pairs[i]).0
    ensures PairMapping(pairs[i]).0 in Mappings(pairs)
    ensures Mappings(pairs)[PairMapping(pairs[i]).0] == PairMapping(pairs[i]).1
  {
    PutAllLastWins(PairEntries(pairs), i);
  }

  /** Of two pairs naming the same request field, the second decides its mapping. */
  lemma SecondPairWins(p1: string, p2: string)
    requires PairMapping(p1).0 == PairMapping(p2).0
    ensures Mappings([p1, p2]) == map[PairMapping(p2).0 := PairMapping(p2).1]
  {
    var kvs := PairEntries([p1, p2]);
    assert kvs == [(PairMapping(p2).0, Some(PairMapping(p1).1)), (PairMapping(p2).0, Some(PairMapping(p2).1))];
    PutSameKeyTwice(PairMapping(p2).0, PairMapping(p1).1, PairMapping(p2).1);
  }

  /** `f=x,f=y`: the second pair for the same request field overwrites the first. */
  lemma LaterPairOverwrites(request: string, first: string, second: string)
    requires '=' !in request && '=' !in first && '=' !in second && first != [] && second != []
    ensures Mappings([request + "=" + first, request + "=" + second]) == map[Trim(request) := Trim(second)]
  {
    ExplicitPair(request, first);
    ExplicitPair(request, second);
    SecondPairWins(request + "=" + first, request + "=" + second);
  }

  /** Putting two values under one key keeps the second. */
  lemma PutSameKeyTwice<V>(key: string, first: V, second: V)
    ensures PutAll([(key, Some(first)), (key, Some(second))]) == map[key := second]
  {
    var kvs := [(key, Some(first)), (key, Some(second))];
    var one := [(key, Some(first))];
    assert one[..0] == [];
    assert PutAll(one) == map[key := first];
    assert kvs[..1] == one;
    assert map[key := first][key := second] == map[key := second];
  }

  /** The `ComparisonRule` constructor: puts each pair's mapping in turn. */
  method NewComparisonRule(responseClassSimpleName: string, fieldPairs: seq<string>) returns (r: ComparisonRule)
    ensures r.responseClassSimpleName == responseClassSimpleName
    ensures r.fieldMappings == Mappings(fieldPairs)
  {
    var fieldMappings: map<string, string> := map[];
    for k := 0 to |fieldPairs|
      invariant fieldMappings == Mappings(fieldPairs[..k])
    {
      assert PairEntries(fieldPairs[..k + 1])[..k] == PairEntries(fieldPairs[..k]);
      var parts := Split(fieldPairs[k], '=');
      if |parts| == 2 {
        fieldMappings := fieldMappings[Trim(parts[0]) := Trim(parts[1])];
      } else {
        fieldMappings := fieldMappings[Trim(fieldPairs[k]) := Trim(fieldPairs[k])];
      }
    }
    assert fieldPairs[..|fieldPairs|] == fieldPairs;
    return ComparisonRule(responseClassSimpleName, fieldMappings);
  }

  /**
   * The rule one property value gives: none unless the value splits on `:`
   * into exactly two parts; otherwise the trimmed first part names the
   * response class and the second part, split on `,`, gives the pairs.
   */
  function RuleOf(value: string): Option<ComparisonRule> {
    var target := Split(value, ':');
    if |target| != 2 then None
    else Some(ComparisonRule(Trim(target[0]), Mappings(Split(target[1], ','))))
  }

  /** `Resp:pairs` with a single `:` and non-empty pairs gives the rule for `Resp`. */
  lemma RuleOfWellFormedValue(responseClass: string, pairs: string)
    requires ':' !in responseClass && ':' !in pairs && pairs != []
    ensures RuleOf(responseClass + ":" + pairs) == Some(ComparisonRule(Trim(responseClass), Mappings(Split(pairs, ','))))
  {
    assert responseClass + ":" + pairs == responseClass + [':'] + pairs;
    SplitOnce(responseClass, pairs, ':');
  }

  /** A value without `:`, or with nothing after it, gives no rule. */
  lemma RejectedValues(value: string)
    requires ':' !in value
    ensures RuleOf(value) == None
    ensures RuleOf(value + ":") == None
  {
    SplitWithoutDelimiter(value, ':');
    SplitTrailingDelimiter(value, ':');
  }

  /** The entries the loader puts, one per property name in `keys` order. */
  function RuleEntries(props: map<string, string>, keys: seq<string>): seq<(string, Option<ComparisonRule>)>
    requires forall i :: 0 <= i < |keys| ==> keys[i] in props
  {
    seq(|keys|, i requires 0 <= i < |keys| => (Trim(keys[i]), RuleOf(props[keys[i]])))
  }

  /**
   * The rule table the loader builds from the properties: each accepted
   * value is put under the trimmed property name.
   */
  function RulesOf(props: map<string, string>, keys: seq<string>): map<string, ComparisonRule>
    requires forall i :: 0 <= i < |keys| ==> keys[i] in props
  {
    PutAll(RuleEntries(props, keys))
  }

  /** The loaded rules: request class simple name to rule. */
  datatype Loader = Loader(rules: map<string, ComparisonRule>) {
    /** `getRuleFor`: the rule stored under the class's simple name, or none. */
    function GetRuleFor(simpleName: string): Option<ComparisonRule> {
      if simpleName in rules then Some(rules[simpleName]) else None
    }
  }

  /**
   * The loader's constructor once the properties are read: one pass over
   * the property names, skipping values that are not `Resp:pairs`.
   */
  method Load(props: map<string, string>, keys: seq<string>) returns (l: Loader)
    requires forall i :: 0 <= i < |keys| ==> keys[i] in props
    ensures l.rules == RulesOf(props, keys)
  {
    var rules: map<string, ComparisonRule> := map[];
    for k := 0 to |keys|
      invariant rules == RulesOf(props, keys[..k])
    {
      var key := keys[k];
      assert RuleEntries(props, keys[..k + 1])[..k] == RuleEntries(props, keys[..k]);
      var target := Split(props[key], ':');
      if |target| != 2 {
        continue;
      }
      var responseClassName := Trim(target[0]);
      var fields := Split(target[1], ',');
      var rule := NewComparisonRule(responseClassName, fields);
      rules := rules[Trim(key) := rule];
    }
    assert keys[..|keys|] == keys;
    return Loader(rules);
  }

  /**
   * `getRuleFor` on loaded rules finds a rule exactly when some property
   * named after the class has an accepted value.
   */
  lemma RuleForLoaded(props: map<string, string>, keys: seq<string>, simpleName: string)
    requires forall i :: 0 <= i < |keys| ==> keys[i] in props
    ensures Loader(RulesOf(props, keys)).GetRuleFor(simpleName).Some?
            <==> exists i :: 0 <= i < |keys| && Trim(keys[i]) == simpleName && RuleOf(props[keys[i]]).Some?
  {
    var kvs := RuleEntries(props, keys);
    PutAllDomain(kvs, simpleName);
    assert forall i :: 0 <= i < |keys| ==> kvs[i] == (Trim(keys[i]), RuleOf(props[keys[i]]));
  }

  /**
   * The rule `getRuleFor` finds is that of the last property named after
   * the class whose value is accepted.
   */
  lemma RuleForLoadedIsLast(props: map<string, string>, keys: seq<string>, i: nat)
    requires forall k :: 0 <= k < |keys| ==> keys[k] in props
    requires i < |keys| && RuleOf(props[keys[i]]).Some?
    requires forall j :: i < j < |keys| ==> Trim(keys[j]) != Trim(keys[i]) || RuleOf(props[keys[j]]).None?
    ensures Loader(RulesOf(props, keys)).GetRuleFor(Trim(keys[i])) == RuleOf(props[keys[i]])
  {
    PutAllLastWins(RuleEntries(props, keys), i);
  }
}
