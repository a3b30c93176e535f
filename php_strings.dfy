/**
 * The few PHP string primitives the plugin relies on: `empty()` and truthiness
 * of a string, and `stripos`, the case-insensitive substring search.
 * PHP strings are byte strings; here they are `seq<char>`, and case folding is
 * ASCII-only (letters A-Z), as `stripos` does from PHP 8.2 on.
 */
module PhpStrings {
  import opened Wrappers

  /** `empty($s)` for a string: true exactly for "" and "0". */
  predicate IsEmpty(s: string) {
    s == "" || s == "0"
  }

  /** A string is falsy in a PHP condition exactly when it is `empty`. */
  predicate IsTruthy(s: Option<string>) {
    s.Some? && !IsEmpty(s.value)
  }

  /** ASCII lower-casing of one character; every other character is left alone. */
  function LowerAscii(c: char): (r: char)
    ensures !('A' <= r <= 'Z')
    ensures r != c ==> 'A' <= c <= 'Z'
  {
    if 'A' <= c <= 'Z' then (c as int + 32) as char else c
  }

  /** Two characters are equal once ASCII case is ignored. */
  predicate SameIgnoringCase(a: char, b: char) {
    LowerAscii(a) == LowerAscii(b)
  }

  /** `needle` occurs in `haystack` at index `i`, ignoring ASCII case. */
  predicate MatchesAt(haystack: string, needle: string, i: nat)
  {
    i + |needle| <= |haystack| &&
    forall j :: 0 <= j < |needle| ==> SameIgnoringCase(haystack[i + j], needle[j])
  }

  /** The reference meaning of `false !== stripos($haystack, $needle)`. */
  ghost predicate ContainsIgnoringCase(haystack: string, needle: string) {
    exists i: nat :: MatchesAt(haystack, needle, i)
  }

  /** First index at or after `from` where `needle` matches, scanning left to right. */
  function FindFrom(haystack: string, needle: string, from: nat): (r: Option<nat>)
    decreases |haystack| - from
    ensures r.Some? ==> from <= r.value && MatchesAt(haystack, needle, r.value)
    ensures r.Some? ==> forall k: nat :: from <= k < r.value ==> !MatchesAt(haystack, needle, k)
    ensures r.None? ==> forall k: nat :: from <= k ==> !MatchesAt(haystack, needle, k)
  {
    if from + |needle| > |haystack| then None
    else if MatchesAt(haystack, needle, from) then Some(from)
    else FindFrom(haystack, needle, from + 1)
  }

  /** A match can be shown by exhibiting the index. */
  lemma MatchWitness(haystack: string, needle: string, i: nat)
    requires MatchesAt(haystack, needle, i)
    ensures ContainsIgnoringCase(haystack, needle)
  {
  }

  /** No match is possible where no character is a case variant of the needle's first one. */
  lemma FirstCharAbsent(haystack: string, needle: string)
    requires |needle| > 0
    requires forall i :: 0 <= i < |haystack| ==> !SameIgnoringCase(haystack[i], needle[0])
    ensures !ContainsIgnoringCase(haystack, needle)
  {
    forall i: nat ensures !MatchesAt(haystack, needle, i) {
      if i + |needle| <= |haystack| {
        assert !SameIgnoringCase(haystack[i + 0], needle[0]);
      }
    }
  }

  /**
   * `stripos($haystack, $needle)`: the first index of a case-insensitive match,
   * or `None` where PHP returns `false`. An empty needle is found at 0.
   */
  function StrIPos(haystack: string, needle: string): (r: Option<nat>)
    ensures r.Some? <==> ContainsIgnoringCase(haystack, needle)
    ensures r.Some? ==> MatchesAt(haystack, needle, r.value)
    ensures r.Some? ==> forall k: nat :: k < r.value ==> !MatchesAt(haystack, needle, k)
  {
    FindFrom(haystack, needle, 0)
  }
}
