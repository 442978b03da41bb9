/** Python's `str.strip()` with no arguments. */
module PyStrip {

  /** `c.isspace()`: general category Zs, or bidirectional class WS, B or S. */
  predicate IsSpace(c: char) {
    || '\t' <= c <= '\r'
    || '\U{1C}' <= c <= ' '
    || c == '\U{85}'
    || c == '\U{A0}'
    || c == '\U{1680}'
    || '\U{2000}' <= c <= '\U{200A}'
    || c == '\U{2028}'
    || c == '\U{2029}'
    || c == '\U{202F}'
    || c == '\U{205F}'
    || c == '\U{3000}'
  }

  ghost predicate AllSpace(s: seq<char>) {
    forall j :: 0 <= j < |s| ==> IsSpace(s[j])
  }

  /** True when `s` neither starts nor ends with whitespace. */
  predicate Trimmed(s: seq<char>) {
    |s| == 0 || (!IsSpace(s[0]) && !IsSpace(s[|s| - 1]))
  }

  /** Number of whitespace characters at the front of `s`. */
  function LeadingSpace(s: seq<char>): (n: nat)
    ensures n <= |s|
    ensures forall j :: 0 <= j < n ==> IsSpace(s[j])
    ensures n < |s| ==> !IsSpace(s[n])
  {
    if |s| > 0 && IsSpace(s[0]) then 1 + LeadingSpace(s[1..]) else 0
  }

  /** Index at which the whitespace run at the end of `s` begins. */
  function TrailingStart(s: seq<char>): (m: nat)
    ensures m <= |s|
    ensures AllSpace(s[m..])
    ensures m > 0 ==> !IsSpace(s[m - 1])
  {
    if |s| > 0 && IsSpace(s[|s| - 1]) then TrailingStart(s[..|s| - 1]) else |s|
  }

  /** `s` is `r` surrounded by whitespace that starts at offset `a`. */
  ghost predicate Framed(s: seq<char>, a: int, r: seq<char>) {
    0 <= a && a + |r| <= |s| && r == s[a..a + |r|] && AllSpace(s[..a]) && AllSpace(s[a + |r|..])
  }

  /** `s.strip()`: the longest inner part of `s` with whitespace removed at
      both ends. */
  function Strip(s: seq<char>): (r: seq<char>)
    ensures Trimmed(r)
    ensures |r| == 0 <==> AllSpace(s)
    ensures Framed(s, LeadingSpace(s), r)
  {
    var a := LeadingSpace(s);
    var b := TrailingStart(s);
    assert AllSpace(s[..a]);
    if a < b then s[a..b]
    else
      assert a == |s| && s[a..] == [];
      []
  }

  /** A whitespace framing is unique once the inner part is trimmed, so
      `Strip` is the only such result. */
  lemma {:induction false} StripUnique(s: seq<char>, a: int, r: seq<char>)
    requires Framed(s, a, r) && Trimmed(r)
    ensures Strip(s) == r
  {
    if |r| == 0 {
      forall j | 0 <= j < |s|
        ensures IsSpace(s[j])
      {
        if j < a {
          assert s[..a][j] == s[j];
        } else {
          assert s[a..][j - a] == s[j];
        }
      }
      return;
    }
    var l := LeadingSpace(s);
    var m := TrailingStart(s);
    var e := a + |r|;
    assert s[a] == r[0] && s[e - 1] == r[|r| - 1];
    assert l == a;
    assert m == e;
  }

  /** Stripping changes nothing exactly when there is nothing to strip. */
  lemma {:induction false} StripFixpoint(s: seq<char>)
    ensures Strip(s) == s <==> Trimmed(s)
  {
  }
}
