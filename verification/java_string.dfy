/**
 * The two java.lang.String operations the comparison-rule parser relies on:
 * `trim()` and `split(regex)` with a one-character, non-special delimiter.
 */
module JavaString {

  /** Characters `trim()` removes: every code point up to and including U+0020. */
  predicate IsBlank(c: char) {
    c <= ' '
  }

  /** Number of blank characters at the start of `s`. */
  function LeadingBlanks(s: string): (n: nat)
    ensures n <= |s|
    ensures forall i :: 0 <= i < n ==> IsBlank(s[i])
    ensures n < |s| ==> !IsBlank(s[n])
  {
    if s == [] || !IsBlank(s[0]) then 0 else 1 + LeadingBlanks(s[1..])
  }

  /** Number of blank characters at the end of `s`. */
  function TrailingBlanks(s: string): (n: nat)
    ensures n <= |s|
    ensures forall i :: |s| - n <= i < |s| ==> IsBlank(s[i])
    ensures n < |s| ==> !IsBlank(s[|s| - 1 - n])
  {
    if s == [] || !IsBlank(s[|s| - 1]) then 0 else 1 + TrailingBlanks(s[..|s| - 1])
  }

  /** `String.trim()`: the longest infix that neither starts nor ends with a blank. */
  function Trim(s: string): (r: string)
    ensures LeadingBlanks(s) + |r| <= |s|
    ensures r == s[LeadingBlanks(s)..LeadingBlanks(s) + |r|]
    ensures forall i :: LeadingBlanks(s) + |r| <= i < |s| ==> IsBlank(s[i])
    ensures r != [] ==> !IsBlank(r[0]) && !IsBlank(r[|r| - 1])
    ensures r == [] <==> forall i :: 0 <= i < |s| ==> IsBlank(s[i])
  {
    var lo := LeadingBlanks(s);
    var rest := s[lo..];
    rest[..|rest| - TrailingBlanks(rest)]
  }

  /** Trimming an already trimmed string changes nothing. */
  lemma TrimIdempotent(s: string)
    ensures Trim(Trim(s)) == Trim(s)
  {
    var t := Trim(s);
    if t != [] {
      assert LeadingBlanks(t) == 0;
      assert TrailingBlanks(t) == 0;
      assert t[0..|t|] == t;
    }
  }

  /** Text that neither starts nor ends with a blank is its own trim. */
  lemma TrimUnchanged(s: string)
    requires s == [] || (!IsBlank(s[0]) && !IsBlank(s[|s| - 1]))
    ensures Trim(s) == s
  {
    if s != [] {
      assert LeadingBlanks(s) == 0;
      assert s[0..] == s;
      assert TrailingBlanks(s) == 0;
    }
  }

  /**
   * Every text between two delimiters (or an end of `s`), empty ones
   * included: the raw material of `split` before trailing empties go.
   */
  function Pieces(s: string, d: char): (r: seq<string>)
    ensures |r| >= 1
    ensures forall i :: 0 <= i < |r| ==> d !in r[i]
    ensures d !in s ==> r == [s]
  {
    if s == [] then [[]]
    else
      var rest := Pieces(s[1..], d);
      if s[0] == d then [[]] + rest
      else
        assert d !in s ==> [s[0]] + rest[0] == s && rest[1..] == [];
        [[s[0]] + rest[0]] + rest[1..]
  }

  /** The inverse of `Pieces`: glue the parts back with the delimiter between them. */
  function Join(parts: seq<string>, d: char): string
    requires |parts| >= 1
  {
    if |parts| == 1 then parts[0] else parts[0] + [d] + Join(parts[1..], d)
  }

  /** Cutting at every delimiter and gluing the pieces back yields the input. */
  lemma {:induction false} PiecesRoundTrip(s: string, d: char)
    ensures Join(Pieces(s, d), d) == s
  {
    if s != [] {
      var rest := Pieces(s[1..], d);
      PiecesRoundTrip(s[1..], d);
      if s[0] == d {
        assert Pieces(s, d)[1..] == rest;
      } else {
        var ps := Pieces(s, d);
        assert ps[0] == [s[0]] + rest[0];
        if |rest| == 1 {
          assert ps == [[s[0]] + rest[0]];
        } else {
          assert ps[1..] == rest[1..];
          assert Join(rest, d) == rest[0] + [d] + Join(rest[1..], d);
        }
      }
    }
  }

  /** Drops the empty strings at the end of `parts`, as `split` with limit 0 does. */
  function DropTrailingEmpty(parts: seq<string>): (r: seq<string>)
    ensures r <= parts
    ensures r == [] || r[|r| - 1] != []
    ensures forall i :: |r| <= i < |parts| ==> parts[i] == []
  {
    if parts != [] && parts[|parts| - 1] == [] then DropTrailingEmpty(parts[..|parts| - 1])
    else parts
  }

  /**
   * `s.split(d)` for a delimiter that is not a regular-expression
   * metacharacter: with no delimiter in `s` the answer is `[s]` (even for the
   * empty string); otherwise the pieces, minus the trailing empty ones.
   */
  function Split(s: string, d: char): (r: seq<string>)
    ensures d !in s ==> r == [s]
    ensures d in s ==> r == [] || r[|r| - 1] != []
    ensures r <= Pieces(s, d)
    ensures forall i :: |r| <= i < |Pieces(s, d)| ==> Pieces(s, d)[i] == []
    ensures forall i :: 0 <= i < |r| ==> d !in r[i]
  {
    if d !in s then [s] else DropTrailingEmpty(Pieces(s, d))
  }

  /** A value with no delimiter at all is one part: `"field2".split("=")` is `["field2"]`. */
  lemma SplitWithoutDelimiter(s: string, d: char)
    requires d !in s
    ensures |Split(s, d)| == 1 && Split(s, d)[0] == s
  {
  }

  /** A single delimiter with non-empty text on both sides gives exactly those two parts. */
  lemma {:induction false} SplitOnce(a: string, b: string, d: char)
    requires d !in a && d !in b && b != []
    ensures Split(a + [d] + b, d) == [a, b]
  {
    var s := a + [d] + b;
    var t := [d] + b;
    assert s == a + t;
    assert s[|a|] == d;
    PiecesAfterPrefix(a, t, d);
    assert t[0] == d && t[1..] == b;
    PiecesOfNoDelimiter(b, d);
    assert Pieces(t, d) == [[]] + Pieces(b, d) == [[], b];
    assert a + [] == a;
    assert Pieces(s, d) == [a, b];
  }

  /** Text without a delimiter is a single piece. */
  lemma PiecesOfNoDelimiter(s: string, d: char)
    requires d !in s
    ensures Pieces(s, d) == [s]
  {
  }

  /** A delimiter-free prefix is glued to the first piece of what follows it. */
  lemma {:induction false} PiecesAfterPrefix(a: string, t: string, d: char)
    requires d !in a
    ensures Pieces(a + t, d) == [a + Pieces(t, d)[0]] + Pieces(t, d)[1..]
  {
    if a != [] {
      assert (a + t)[1..] == a[1..] + t;
      PiecesAfterPrefix(a[1..], t, d);
      assert [a[0]] + (a[1..] + Pieces(t, d)[0]) == a + Pieces(t, d)[0];
    } else {
      var ps := Pieces(t, d);
      assert a + t == t && a + ps[0] == ps[0];
      assert [ps[0]] + ps[1..] == ps;
    }
  }

  /** A trailing delimiter leaves one empty piece, which `split` then drops. */
  lemma {:induction false} SplitTrailingDelimiter(a: string, d: char)
    requires d !in a
    ensures Split(a + [d], d) == if a == [] then [] else [a]
  {
    var t: string := [d];
    PiecesAfterPrefix(a, t, d);
    assert t[1..] == [];
    assert Pieces(t, d) == [[], []];
    assert (a + t)[|a|] == d;
    assert a + [] == a;
    assert Pieces(a + t, d) == [a, []];
    assert DropTrailingEmpty([a, []]) == DropTrailingEmpty([a]);
    if a == [] {
      assert DropTrailingEmpty([[]]) == DropTrailingEmpty([]) == [];
    }
  }

  /** `"x=".split("=")` is `["x"]`, so such a pair maps to itself. */
  lemma SplitExampleTrailingEquals()
    ensures Split("x=", '=') == ["x"]
  {
    assert "x=" == "x" + ['='];
    SplitTrailingDelimiter("x", '=');
  }

  /** `",".split(",")` is empty, while `"".split(",")` is the one empty string. */
  lemma SplitExampleEmpty()
    ensures Split(",", ',') == []
    ensures Split("", ',') == [""]
  {
    assert "," == [] + [','];
    SplitTrailingDelimiter([], ',');
  }

  /** `"a=b=c".split("=")` has three parts. */
  lemma SplitExampleThreeParts()
    ensures Split("a=b=c", '=') == ["a", "b", "c"]
  {
    var s := "a=b=c";
    var t := "=b=c";
    assert s == "a" + t;
    PiecesAfterPrefix("a", t, '=');
    assert t[0] == '=' && t[1..] == "b=c";
    assert "b=c" == "b" + ['='] + "c";
    SplitOnce("b", "c", '=');
    assert Pieces(t, '=') == [[]] + Pieces("b=c", '=') == [[], "b", "c"];
    assert "a" + [] == "a";
    assert Pieces(s, '=') == ["a", "b", "c"];
    assert s[1] == '=';
  }
}
