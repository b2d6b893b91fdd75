/** Python's notion of whitespace and `str.strip()` with no argument, used by the
    normalizer (command names) and by the mail manager (receiver addresses). */
module Text {

  /** The characters for which Python's `str.isspace()` holds. */
  predicate IsSpace(c: char)
  {
    c == ' ' || c == '\t' || c == '\n' || c == '\r' || c == '\U{000B}' || c == '\U{000C}'
    || ('\U{001C}' <= c <= '\U{001F}') || c == '\U{0085}' || c == '\U{00A0}' || c == '\U{1680}'
    || ('\U{2000}' <= c <= '\U{200A}') || c == '\U{2028}' || c == '\U{2029}'
    || c == '\U{202F}' || c == '\U{205F}' || c == '\U{3000}'
  }

  predicate AllSpace(s: string)
  {
    forall i :: 0 <= i < |s| ==> IsSpace(s[i])
  }

  /** Neither the first nor the last character is whitespace. */
  predicate Stripped(s: string)
  {
    s == [] || (!IsSpace(s[0]) && !IsSpace(s[|s| - 1]))
  }

  /** `str.lstrip()`: what is left after the leading whitespace. */
  function TrimLeft(s: string): (r: string)
    ensures |r| <= |s| && r == s[|s| - |r|..]
    ensures r == [] || !IsSpace(r[0])
  {
    if s != [] && IsSpace(s[0]) then TrimLeft(s[1..]) else s
  }

  /** `str.rstrip()`: what is left before the trailing whitespace. */
  function TrimRight(s: string): (r: string)
    ensures |r| <= |s| && r == s[..|r|]
    ensures r == [] || !IsSpace(r[|r| - 1])
  {
    if s != [] && IsSpace(s[|s| - 1]) then TrimRight(s[..|s| - 1]) else s
  }

  /** `str.strip()`: drops the leading and the trailing whitespace. */
  function Strip(s: string): (r: string)
    ensures Stripped(r) && |r| <= |s|
  {
    TrimRight(TrimLeft(s))
  }

  /** What lstrip drops is whitespace. */
  lemma {:induction false} TrimLeftDropsSpace(s: string)
    ensures AllSpace(s[..|s| - |TrimLeft(s)|])
  {
    if s != [] && IsSpace(s[0]) {
      TrimLeftDropsSpace(s[1..]);
      var n := |s| - |TrimLeft(s)|;
      forall k | 0 <= k < n
        ensures IsSpace(s[k])
      {
        if k > 0 {
          assert s[k] == s[1..][..n - 1][k - 1];
        }
      }
    }
  }

  /** What rstrip drops is whitespace. */
  lemma {:induction false} TrimRightDropsSpace(s: string)
    ensures AllSpace(s[|TrimRight(s)|..])
  {
    if s != [] && IsSpace(s[|s| - 1]) {
      var p := s[..|s| - 1];
      TrimRightDropsSpace(p);
      var m := |TrimRight(s)|;
      forall k | m <= k < |s|
        ensures IsSpace(s[k])
      {
        if k < |s| - 1 {
          assert s[k] == p[m..][k - m];
        }
      }
    }
  }

  /** A string whose strip is empty consists of whitespace only, and conversely. */
  lemma StripEmptyIffAllSpace(s: string)
    ensures Strip(s) == [] <==> AllSpace(s)
  {
    AllSpaceStripEmpty(s);
    StripEmptyAllSpace(s);
  }

  /** A string of whitespace only strips to the empty string. */
  lemma AllSpaceStripEmpty(s: string)
    ensures AllSpace(s) ==> Strip(s) == []
  {
    if AllSpace(s) {
      AllSpaceTrimLeft(s);
    }
  }

  /** A string that strips to the empty string consists of whitespace only. */
  lemma StripEmptyAllSpace(s: string)
    ensures Strip(s) == [] ==> AllSpace(s)
  {
    if Strip(s) == [] {
      var l := TrimLeft(s);
      TrimRightDropsSpace(l);
      assert l[0..] == l;
      assert l == [];
      TrimLeftDropsSpace(s);
      assert s[..|s|] == s;
    }
  }

  lemma {:induction false} AllSpaceTrimLeft(s: string)
    requires AllSpace(s)
    ensures TrimLeft(s) == []
  {
    if s != [] {
      AllSpaceTrimLeft(s[1..]);
    }
  }

  /** Leading whitespace never changes the result of strip; a stripped string is its own strip. */
  lemma {:induction false} StripSkipsLeadingSpace(w: string, s: string)
    requires AllSpace(w) && Stripped(s)
    ensures Strip(w + s) == s
  {
    if w == [] {
      assert w + s == s;
      if s != [] {
        assert TrimRight(s) == s;
      }
    } else {
      assert (w + s)[1..] == w[1..] + s;
      StripSkipsLeadingSpace(w[1..], s);
    }
  }
}
