/** The QString operations the decoders use: trimmed() and startsWith(). */
module QtString {

  /** QChar::isSpace: tab to carriage return, space, U+0085, U+00A0 and the
      Unicode space, line and paragraph separators. */
  predicate IsSpace(c: char)
  {
    ('\t' <= c <= '\r') || c == ' ' || c == '\U{85}' || c == '\U{A0}'
    || c == '\U{1680}' || ('\U{2000}' <= c <= '\U{200A}')
    || c == '\U{2028}' || c == '\U{2029}' || c == '\U{202F}'
    || c == '\U{205F}' || c == '\U{3000}'
  }

  predicate StartsWith(s: string, prefix: string)
  {
    |prefix| <= |s| && s[..|prefix|] == prefix
  }

  /** No white space at either end. */
  predicate IsTrimmed(s: string)
  {
    s == [] || (!IsSpace(s[0]) && !IsSpace(s[|s| - 1]))
  }

  predicate AllSpace(s: string)
  {
    forall i :: 0 <= i < |s| ==> IsSpace(s[i])
  }

  function TrimStart(s: string): string
  {
    if |s| > 0 && IsSpace(s[0]) then TrimStart(s[1..]) else s
  }

  function TrimEnd(s: string): string
  {
    if |s| > 0 && IsSpace(s[|s| - 1]) then TrimEnd(s[..|s| - 1]) else s
  }

  /** QString::trimmed(): white space removed from both ends. */
  function Trimmed(s: string): string
  {
    TrimEnd(TrimStart(s))
  }

  lemma {:induction false} TrimStartShape(s: string)
    ensures |TrimStart(s)| <= |s|
    ensures TrimStart(s) == s[|s| - |TrimStart(s)|..]
    ensures AllSpace(s[..|s| - |TrimStart(s)|])
    ensures TrimStart(s) == [] || !IsSpace(TrimStart(s)[0])
  {
    if |s| > 0 && IsSpace(s[0]) {
      TrimStartShape(s[1..]);
      var k := |s| - |TrimStart(s)|;
      assert s[1..][..k - 1] == s[1..k];
      assert forall i :: 1 <= i < k ==> s[i] == s[1..][..k - 1][i - 1];
    }
  }

  lemma {:induction false} TrimEndShape(s: string)
    ensures |TrimEnd(s)| <= |s|
    ensures TrimEnd(s) == s[..|TrimEnd(s)|]
    ensures AllSpace(s[|TrimEnd(s)|..])
    ensures TrimEnd(s) == [] || !IsSpace(TrimEnd(s)[|TrimEnd(s)| - 1])
  {
    if |s| > 0 && IsSpace(s[|s| - 1]) {
      var p := s[..|s| - 1];
      TrimEndShape(p);
      var k := |TrimEnd(s)|;
      assert p[..k] == s[..k];
      assert forall i :: k <= i < |s| - 1 ==> s[i] == p[k..][i - k];
    }
  }

  /** trimmed() removes only white space, and only at the two ends: the input
      is some white space, then the result, then some white space. */
  lemma TrimmedShape(s: string)
    ensures IsTrimmed(Trimmed(s))
    ensures exists i :: 0 <= i <= |s| - |Trimmed(s)|
                        && s[i..i + |Trimmed(s)|] == Trimmed(s)
                        && AllSpace(s[..i]) && AllSpace(s[i + |Trimmed(s)|..])
  {
    var u := TrimStart(s);
    TrimStartShape(s);
    TrimEndShape(u);
    var r := TrimEnd(u);
    var i := |s| - |u|;
    assert u == s[i..];
    assert s[i..i + |r|] == u[..|r|];
    assert s[i + |r|..] == u[|r|..];
    assert r != [] ==> r[0] == u[0];
  }

  lemma TrimmedOfTrimmed(s: string)
    requires IsTrimmed(s)
    ensures Trimmed(s) == s
  {
  }

  /** Trimming twice is trimming once. */
  lemma TrimmedIdempotent(s: string)
    ensures Trimmed(Trimmed(s)) == Trimmed(s)
  {
    TrimmedShape(s);
    TrimmedOfTrimmed(Trimmed(s));
  }

  /** Putting a prefix that starts with a non-space in front of a trimmed,
      non-empty string keeps it trimmed. */
  lemma PrependKeepsTrimmed(prefix: string, s: string)
    requires |prefix| > 0 && !IsSpace(prefix[0])
    requires s != [] && IsTrimmed(s)
    ensures IsTrimmed(prefix + s)
    ensures StartsWith(prefix + s, prefix)
  {
    assert (prefix + s)[|prefix + s| - 1] == s[|s| - 1];
    assert (prefix + s)[..|prefix|] == prefix;
  }
}
