/** The few JavaScript string operations the components rely on. */
module Text {

  /** JavaScript's white space and line terminators: the class `\s` of a regular
      expression, and what `String.prototype.trim` removes. */
  predicate IsSpace(c: char) {
    || c == ' '
    || '\t' <= c <= '\r'
    || c == '\U{00A0}' || c == '\U{1680}'
    || '\U{2000}' <= c <= '\U{200A}'
    || c == '\U{2028}' || c == '\U{2029}' || c == '\U{202F}' || c == '\U{205F}'
    || c == '\U{3000}' || c == '\U{FEFF}'
  }

  predicate AllSpace(s: string) {
    forall i :: 0 <= i < |s| ==> IsSpace(s[i])
  }

  predicate NoSpace(s: string) {
    forall i :: 0 <= i < |s| ==> !IsSpace(s[i])
  }

  /** `s.startsWith(p)` */
  predicate StartsWith(s: string, p: string) {
    |p| <= |s| && s[..|p|] == p
  }

  function TrimStart(s: string): (r: string)
    ensures |r| <= |s| && r == s[|s| - |r|..]
    ensures r == [] || !IsSpace(r[0])
    ensures AllSpace(s[..|s| - |r|])
  {
    if |s| > 0 && IsSpace(s[0]) then TrimStart(s[1..]) else s
  }

  function TrimEnd(s: string): (r: string)
    ensures |r| <= |s| && r == s[..|r|]
    ensures r == [] || !IsSpace(r[|r| - 1])
    ensures AllSpace(s[|r|..])
  {
    if |s| > 0 && IsSpace(s[|s| - 1]) then
      var r := TrimEnd(s[..|s| - 1]);
      assert s[|r|..] == s[..|s| - 1][|r|..] + [s[|s| - 1]];
      r
    else s
  }

  /** `s.trim()`: `s` without its leading and trailing white space. */
  function Trim(s: string): (r: string)
  {
    TrimEnd(TrimStart(s))
  }

  /** What trim keeps is a contiguous piece of the input that neither starts nor
      ends with white space, and everything cut off on either side is white space. */
  lemma TrimCutsOnlySpace(s: string)
    ensures exists a, b ::
      0 <= a <= b <= |s| && Trim(s) == s[a..b] && AllSpace(s[..a]) && AllSpace(s[b..])
    ensures Trim(s) == [] || (!IsSpace(Trim(s)[0]) && !IsSpace(Trim(s)[|Trim(s)| - 1]))
  {
    var a := |s| - |TrimStart(s)|;
    TrimEndInside(s, a);
    var b := a + |TrimEnd(s[a..])|;
    assert Trim(s) == s[a..b];
    assert AllSpace(s[..a]) && AllSpace(s[b..]);
    TrimKeepsNoSpaceEnds(s);
  }

  /** The trimmed text neither starts nor ends with white space. */
  lemma TrimKeepsNoSpaceEnds(s: string)
    ensures Trim(s) == [] || (!IsSpace(Trim(s)[0]) && !IsSpace(Trim(s)[|Trim(s)| - 1]))
  {
    var t := TrimStart(s);
    var r := TrimEnd(t);
    if r != [] {
      assert r[0] == t[0];
    }
  }

  /** Trimming the end of a suffix `s[a..]` keeps a slice `s[a..b]` and cuts
      only white space after it. */
  lemma TrimEndInside(s: string, a: nat)
    requires a <= |s|
    ensures var b := a + |TrimEnd(s[a..])|;
      b <= |s| && TrimEnd(s[a..]) == s[a..b] && AllSpace(s[b..])
  {
    var t := s[a..];
    var e := TrimEnd(t);
    var b := a + |e|;
    assert s[b..] == t[|e|..];
  }

  /** A trimmed text is empty exactly when the input is white space only: the
      test every "do not send an empty message" guard relies on. */
  lemma {:induction false} TrimEmptyIff(s: string)
    ensures Trim(s) == [] <==> AllSpace(s)
  {
    TrimCutsOnlySpace(s);
    if AllSpace(s) {
      AllSpaceTrimStart(s);
    }
  }

  lemma {:induction false} AllSpaceTrimStart(s: string)
    requires AllSpace(s)
    ensures TrimStart(s) == []
  {
    if |s| > 0 {
      AllSpaceTrimStart(s[1..]);
    }
  }
}
