/**
 * Random test strings: the fixed prefix "test_" followed by letters drawn
 * from a secure source. The source itself is an oracle: draw number `k`
 * asking for `n` letters returns some `n` Latin letters.
 */
module RandomData {
  import opened Wrappers

  /** Letters drawn by the argument-less `getString()`. */
  const LENGTH: nat := 10

  /** Prefix of every generated string. */
  const TEST_PREFIX: string := "test_"

  /** Java `int`. */
  type Int32 = x: int | -0x8000_0000 <= x < 0x8000_0000

  const INT_MIN: Int32 := -0x8000_0000

  /** Two's-complement wrap-around of a Java `int` result. */
  function Wrap32(x: int): (r: Int32)
    ensures -0x8000_0000 <= x < 0x8000_0000 ==> r == x
  {
    (x + 0x8000_0000) % 0x1_0000_0000 - 0x8000_0000
  }

  /** What `RandomStringUtils.nextAlphabetic` may return: Latin letters only. */
  predicate IsLetter(c: char) {
    'a' <= c <= 'z' || 'A' <= c <= 'Z'
  }

  predicate AllLetters(s: string) {
    forall i :: 0 <= i < |s| ==> IsLetter(s[i])
  }

  function Repeat(c: char, n: nat): (r: string)
    ensures |r| == n && forall i :: 0 <= i < n ==> r[i] == c
  {
    if n == 0 then [] else [c] + Repeat(c, n - 1)
  }

  /** The secure random source: draw `k` of `n` letters is exactly `n` letters. */
  type LetterSource = f: (nat, nat) -> string
    | forall k, n :: |f(k, n)| == n && AllLetters(f(k, n))
    witness (k: nat, n: nat) => Repeat('a', n)

  function Max(a: int, b: int): int {
    if a >= b then a else b
  }

  /**
   * Letters requested by `getString(length)`: `Math.max(length - 5, 10)`,
   * where `length - 5` is Java `int` arithmetic and wraps below `INT_MIN + 5`.
   */
  function RandomPartLength(length: Int32): (n: nat)
    ensures n >= LENGTH
    ensures length >= INT_MIN + |TEST_PREFIX| ==> n == Max(length - |TEST_PREFIX|, LENGTH)
  {
    Max(Wrap32(length - |TEST_PREFIX|), LENGTH)
  }

  /** What `getString()` yields: the prefix followed by ten letters. */
  ghost predicate IsTestString(t: string) {
    |t| == |TEST_PREFIX| + LENGTH && t[..|TEST_PREFIX|] == TEST_PREFIX && AllLetters(t[|TEST_PREFIX|..])
  }

  /** `getString()`: the prefix and ten letters, fifteen characters in all. */
  function GetString(src: LetterSource, draw: nat): (r: string)
    ensures |r| == |TEST_PREFIX| + LENGTH == 15
    ensures r[..|TEST_PREFIX|] == TEST_PREFIX
    ensures AllLetters(r[|TEST_PREFIX|..])
  {
    var letters := src(draw, LENGTH);
    assert (TEST_PREFIX + letters)[|TEST_PREFIX|..] == letters;
    TEST_PREFIX + letters
  }

  /** Every `getString()` result is a test string. */
  lemma GetStringIsTestString(src: LetterSource, draw: nat)
    ensures IsTestString(GetString(src, draw))
  {
  }

  /** Longest Java `String`: its length is an `int`. */
  const MAX_STRING_LENGTH: nat := 0x7fff_ffff

  /**
   * `getString(length)`: the prefix and `RandomPartLength(length)` letters,
   * or an `OutOfMemoryError` when that many characters exceed the longest
   * Java `String`.
   */
  function GetStringOfLength(src: LetterSource, draw: nat, length: Int32): (r: Result<string, string>)
    ensures r.Err? <==> |TEST_PREFIX| + RandomPartLength(length) > MAX_STRING_LENGTH
    ensures r.Ok? ==> |r.value| == |TEST_PREFIX| + RandomPartLength(length)
    ensures r.Ok? ==> r.value[..|TEST_PREFIX|] == TEST_PREFIX && AllLetters(r.value[|TEST_PREFIX|..])
  {
    if |TEST_PREFIX| + RandomPartLength(length) > MAX_STRING_LENGTH then
      Err("OutOfMemoryError")
    else
      var letters := src(draw, RandomPartLength(length));
      assert (TEST_PREFIX + letters)[|TEST_PREFIX|..] == letters;
      Ok(TEST_PREFIX + letters)
  }

  /**
   * `getString(length)` returns a string exactly when `length - 5` does not
   * wrap: below `INT_MIN + 5` the wrapped count is too long for any `String`.
   */
  lemma GetStringOfLengthFails(src: LetterSource, draw: nat, length: Int32)
    ensures GetStringOfLength(src, draw, length).Err? <==> length < INT_MIN + |TEST_PREFIX|
  {
    if length < INT_MIN + |TEST_PREFIX| {
      assert Wrap32(length - |TEST_PREFIX|) == length - |TEST_PREFIX| + 0x1_0000_0000;
    }
  }

  /** Outside the wrap-around range the result has length `max(length, 15)`. */
  lemma LengthIsAtLeastFifteen(src: LetterSource, draw: nat, length: Int32)
    requires length >= INT_MIN + |TEST_PREFIX|
    ensures GetStringOfLength(src, draw, length).Ok?
    ensures |GetStringOfLength(src, draw, length).value| == Max(length, 15)
  {
  }

  /** The build-configuration id limit (225) is hit exactly and exceeded by one. */
  lemma IdLimitLengths(src: LetterSource, draw: nat)
    ensures GetStringOfLength(src, draw, 226).Ok? && |GetStringOfLength(src, draw, 226).value| == 226
    ensures GetStringOfLength(src, draw, 225).Ok? && |GetStringOfLength(src, draw, 225).value| == 225
    ensures GetStringOfLength(src, draw, 3).Ok? && |GetStringOfLength(src, draw, 3).value| == 15
  {
  }

  /**
   * For `Integer.MIN_VALUE`, `length - 5` wraps to a huge positive count,
   * and the call fails for want of memory.
   */
  lemma MinValueWraps(src: LetterSource, draw: nat)
    ensures RandomPartLength(INT_MIN) == 0x7fff_fffb
    ensures GetStringOfLength(src, draw, INT_MIN).Err?
  {
  }
}
