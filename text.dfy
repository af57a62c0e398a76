/** ASCII case mapping, as `to_ascii_lowercase` and (for the ASCII range) `to_uppercase` perform it. */
module Text {

  function LowerChar(c: char): char {
    if 'A' <= c <= 'Z' then (c as int + 32) as char else c
  }

  function UpperChar(c: char): char {
    if 'a' <= c <= 'z' then (c as int - 32) as char else c
  }

  function Lower(s: string): (r: string)
    ensures |r| == |s| && forall i :: 0 <= i < |s| ==> r[i] == LowerChar(s[i])
  {
    seq(|s|, i requires 0 <= i < |s| => LowerChar(s[i]))
  }

  function Upper(s: string): (r: string)
    ensures |r| == |s| && forall i :: 0 <= i < |s| ==> r[i] == UpperChar(s[i])
  {
    seq(|s|, i requires 0 <= i < |s| => UpperChar(s[i]))
  }

  /** The same text up to the case of its ASCII letters. */
  predicate SameIgnoringCase(a: string, b: string) {
    Lower(a) == Lower(b)
  }

  /** Lower-casing a lower-cased text changes nothing: a stored (lower-cased) email is its own key. */
  lemma LowerIdempotent(s: string)
    ensures Lower(Lower(s)) == Lower(s)
  {
  }

  /** The upper-cased text is "GET" exactly when the text spells get in any mix of cases. */
  lemma UpperIsGet(s: string)
    ensures Upper(s) == "GET" <==> |s| == 3 && s[0] in "gG" && s[1] in "eE" && s[2] in "tT"
  {
  }

  /** The upper-cased text is "POST" exactly when the text spells post in any mix of cases. */
  lemma UpperIsPost(s: string)
    ensures Upper(s) == "POST" <==> |s| == 4 && s[0] in "pP" && s[1] in "oO" && s[2] in "sS" && s[3] in "tT"
  {
  }
}
