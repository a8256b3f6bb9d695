/**
 * The java.lang.String operations the metrics use, over strings as
 * sequences of characters.
 */
module JavaStrings {
  import opened Rdf

  /** The characters '.' does not match in java.util.regex when DOTALL is off. */
  predicate IsLineTerminator(c: char)
  {
    c == '\n' || c == '\r' || c == '\U{0085}' || c == '\U{2028}' || c == '\U{2029}'
  }

  predicate NoLineTerminator(s: string)
  {
    forall i :: 0 <= i < |s| ==> !IsLineTerminator(s[i])
  }

  /** String.startsWith. */
  predicate StartsWith(s: string, prefix: string)
  {
    |prefix| <= |s| && s[..|prefix|] == prefix
  }

  /** String.contains: t starts some suffix of s. */
  predicate Contains(s: string, t: string)
  {
    exists i | 0 <= i <= |s| :: StartsWith(s[i..], t)
  }

  /** Every string contains the empty string and itself; no string contains a longer one. */
  lemma ContainsBounds(s: string, t: string)
    ensures Contains(s, "") && Contains(s, s)
    ensures Contains(s, t) ==> |t| <= |s|
  {
    assert StartsWith(s[0..], "");
    assert StartsWith(s[0..], s);
    if Contains(s, t) {
      var i :| 0 <= i <= |s| && StartsWith(s[i..], t);
    }
  }

  /** String.indexOf(c): the first position of c, or -1. */
  function IndexOf(s: string, c: char): (r: int)
    ensures r == -1 <==> c !in s
    ensures r != -1 ==> 0 <= r < |s| && s[r] == c && c !in s[..r]
  {
    if |s| == 0 then -1
    else if s[0] == c then 0
    else
      var k := IndexOf(s[1..], c);
      if k == -1 then -1
      else
        assert s[1..][..k] == s[1..k + 1];
        k + 1
  }

  /** String.lastIndexOf(c): the last position of c, or -1. */
  function LastIndexOf(s: string, c: char): (r: int)
    ensures r == -1 <==> c !in s
    ensures r != -1 ==> 0 <= r < |s| && s[r] == c && c !in s[r + 1..]
  {
    if |s| == 0 then -1
    else if s[|s| - 1] == c then |s| - 1
    else
      var k := LastIndexOf(s[..|s| - 1], c);
      if k == -1 then
        assert s == s[..|s| - 1] + [s[|s| - 1]];
        -1
      else
        assert s[k + 1..] == s[..|s| - 1][k + 1..] + [s[|s| - 1]];
        k
  }

  /**
   * String.substring(begin, end): the characters in [begin, end), or None
   * where Java throws StringIndexOutOfBoundsException.
   */
  function Substring(s: string, begin: int, end: int): (r: Option<string>)
    ensures r.Some? <==> 0 <= begin <= end <= |s|
    ensures r.Some? ==> (|r.value| == end - begin
      && forall i :: 0 <= i < |r.value| ==> r.value[i] == s[begin + i])
  {
    if 0 <= begin <= end <= |s| then Some(s[begin..end]) else None
  }
}
