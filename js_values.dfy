/**
 * The fragments of JavaScript value semantics that the extension relies on:
 * truthiness of optional string fields and `toLowerCase()`, restricted to
 * the ASCII letters.
 */
module JsValues {
  import opened Wrappers

  /** A string field is truthy when it is present and not the empty string. */
  predicate Truthy(field: Option<string>) {
    field.Some? && field.value != ""
  }

  predicate IsUpperAscii(c: char) {
    'A' <= c <= 'Z'
  }

  /**
   * Two characters are the same letter up to ASCII case: equal, or an
   * upper-case letter and the lower-case letter 32 code points above it.
   */
  predicate CaseVariants(a: char, b: char) {
    || a == b
    || (IsUpperAscii(a) && b as int == a as int + 32)
    || (IsUpperAscii(b) && a as int == b as int + 32)
  }

  /**
   * `toLowerCase()` on one character, for the ASCII letters only: the result
   * is the one case variant of `c` that is not an upper-case letter.
   */
  function LowerAscii(c: char): (r: char)
    ensures !IsUpperAscii(r)
    ensures CaseVariants(c, r)
    ensures !IsUpperAscii(c) ==> r == c
  {
    if IsUpperAscii(c) then (c as int - 'A' as int + 'a' as int) as char else c
  }

  /**
   * `toLowerCase()` on a string: the length is kept, no upper-case letter is
   * left, every character becomes a case variant of itself, and every
   * character that is not an upper-case letter stays.
   */
  function Lower(s: string): (r: string)
    ensures |r| == |s|
    ensures forall k :: 0 <= k < |r| ==> !IsUpperAscii(r[k])
    ensures forall k {:trigger r[k]} :: 0 <= k < |s| ==> CaseVariants(s[k], r[k])
    ensures forall k {:trigger r[k]} :: 0 <= k < |s| && !IsUpperAscii(s[k]) ==> r[k] == s[k]
  {
    seq(|s|, k requires 0 <= k < |s| => LowerAscii(s[k]))
  }

  /** Two characters lower to the same character exactly when they are case variants. */
  lemma LowerAsciiEqual(a: char, b: char)
    ensures LowerAscii(a) == LowerAscii(b) <==> CaseVariants(a, b)
  {
  }

  /** Lowering is idempotent: a lowered string is its own lower case. */
  lemma {:induction false} LowerIdempotent(s: string)
    ensures Lower(Lower(s)) == Lower(s)
  {
    var r := Lower(s);
    assert forall k :: 0 <= k < |r| ==> Lower(r)[k] == r[k];
  }

  /**
   * Case-insensitive comparison: two strings have the same lower case
   * exactly when they have the same length and are case variants position
   * by position.
   */
  lemma {:induction false} LowerEqual(s: string, t: string)
    ensures Lower(s) == Lower(t) <==>
      |s| == |t| && forall k :: 0 <= k < |s| ==> CaseVariants(s[k], t[k])
  {
    if |s| == |t| {
      forall k | 0 <= k < |s|
        ensures Lower(s)[k] == Lower(t)[k] <==> CaseVariants(s[k], t[k])
      {
        LowerAsciiEqual(s[k], t[k]);
      }
    }
  }
}
