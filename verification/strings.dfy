/** The two functions of Go's strings package that the client relies on. */
module Strings {

  /** strings.HasPrefix(s, prefix): s starts with prefix. */
  predicate HasPrefix(s: string, prefix: string)
  {
    |prefix| <= |s| && s[..|prefix|] == prefix
  }

  /** strings.Contains(s, sub): sub starts at some position of s (the empty string is everywhere). */
  predicate Contains(s: string, sub: string)
    decreases |s|
  {
    HasPrefix(s, sub) || (s != [] && Contains(s[1..], sub))
  }

  /** Contains is exactly "sub occurs at some index of s", in both directions. */
  lemma {:induction false} ContainsIff(s: string, sub: string)
    ensures Contains(s, sub) <==> exists i :: 0 <= i <= |s| && HasPrefix(s[i..], sub)
    decreases |s|
  {
    assert s[0..] == s;
    if !HasPrefix(s, sub) && s != [] {
      ContainsIff(s[1..], sub);
      if exists i :: 0 <= i <= |s| && HasPrefix(s[i..], sub) {
        var i :| 0 <= i <= |s| && HasPrefix(s[i..], sub);
        assert i != 0;
        assert s[1..][i - 1..] == s[i..];
      }
      if Contains(s[1..], sub) {
        var j :| 0 <= j <= |s[1..]| && HasPrefix(s[1..][j..], sub);
        assert s[1..][j..] == s[j + 1..];
      }
    }
  }
}
