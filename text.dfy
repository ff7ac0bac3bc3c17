/** The two string operations the normalisation hooks and the routers use:
    Python's `str.lower` on the letters of the model (ASCII and Cyrillic
    А–я with Ё/ё) and `str.strip` on every whitespace character. */
module Text {

  /** An upper-case letter that `str.lower` changes: A–Z, А–Я and Ё. */
  predicate IsUpper(c: char) {
    ('A' <= c <= 'Z') || ('А' <= c <= 'Я') || c == 'Ё'
  }

  /** The characters `str.strip` removes: those `str.isspace` accepts. */
  predicate IsSpace(c: char) {
    || ('\t' <= c <= '\r') || ('\U{001C}' <= c <= ' ')
    || c == '\U{0085}' || c == '\U{00A0}' || c == '\U{1680}'
    || ('\U{2000}' <= c <= '\U{200A}') || c == '\U{2028}' || c == '\U{2029}'
    || c == '\U{202F}' || c == '\U{205F}' || c == '\U{3000}'
  }

  /** `str.lower` on one character. */
  function LowerChar(c: char): (d: char)
    ensures !IsUpper(d)
    ensures !IsUpper(c) ==> d == c
    ensures IsUpper(c) ==> d != c
    ensures IsSpace(d) <==> IsSpace(c)
  {
    if 'A' <= c <= 'Z' then (c as int + 32) as char
    else if 'А' <= c <= 'Я' then (c as int + 32) as char
    else if c == 'Ё' then 'ё'
    else c
  }

  /** `str.lower`: every character lowered, nothing else changes. */
  function Lower(s: string): (r: string)
    ensures |r| == |s|
    ensures forall i :: 0 <= i < |s| ==> r[i] == LowerChar(s[i])
  {
    if s == [] then [] else [LowerChar(s[0])] + Lower(s[1..])
  }

  /** Drops the leading whitespace of `s`, and only that. */
  function StripLeft(s: string): (r: string)
    ensures |r| <= |s|
    ensures r == [] || !IsSpace(r[0])
    ensures forall i :: 0 <= i < |s| - |r| ==> IsSpace(s[i])
  {
    if s != [] && IsSpace(s[0]) then StripLeft(s[1..]) else s
  }

  /** Drops the trailing whitespace of `s`, and only that. */
  function StripRight(s: string): (r: string)
    ensures |r| <= |s|
    ensures r == [] || !IsSpace(r[|r| - 1])
    ensures forall i :: |r| <= i < |s| ==> IsSpace(s[i])
  {
    if s != [] && IsSpace(s[|s| - 1]) then StripRight(s[..|s| - 1]) else s
  }

  /** `str.strip`: the longest infix of `s` that neither starts nor ends with whitespace. */
  function Strip(s: string): (r: string)
  {
    StripRight(StripLeft(s))
  }

  /** A string the normalisation leaves as it is: no upper-case letter and
      no surrounding whitespace. */
  predicate IsNormalized(s: string) {
    && (forall i :: 0 <= i < |s| ==> !IsUpper(s[i]))
    && (s == [] || (!IsSpace(s[0]) && !IsSpace(s[|s| - 1])))
  }

  /** `s.lower().strip()`, the normalisation both hooks apply. */
  function Normalize(s: string): string {
    Strip(Lower(s))
  }

  /** What StripLeft keeps is a suffix of its input. */
  lemma {:induction false} StripLeftIsSuffix(s: string)
    ensures StripLeft(s) == s[|s| - |StripLeft(s)|..]
  {
    if s != [] && IsSpace(s[0]) {
      StripLeftIsSuffix(s[1..]);
    }
  }

  /** What StripRight keeps is a prefix of its input. */
  lemma {:induction false} StripRightIsPrefix(s: string)
    ensures StripRight(s) == s[..|StripRight(s)|]
  {
    if s != [] && IsSpace(s[|s| - 1]) {
      StripRightIsPrefix(s[..|s| - 1]);
    }
  }

  /** Lower-casing twice is lower-casing once. */
  lemma LowerIdempotent(s: string)
    ensures Lower(Lower(s)) == Lower(s)
  {
  }

  /** Strip removes nothing from a string that starts and ends with non-whitespace. */
  lemma StripNoop(s: string)
    requires s == [] || (!IsSpace(s[0]) && !IsSpace(s[|s| - 1]))
    ensures Strip(s) == s
  {
  }

  /** Trimming twice is trimming once. */
  lemma StripIdempotent(s: string)
    ensures Strip(Strip(s)) == Strip(s)
  {
    var l := StripLeft(s);
    var r := StripRight(l);
    if r != [] {
      StripRightIsPrefix(l);
      assert r[0] == l[0];
    }
    StripNoop(r);
  }

  lemma {:induction false} LowerStripLeftCommute(s: string)
    ensures StripLeft(Lower(s)) == Lower(StripLeft(s))
  {
    if s != [] {
      var ls := Lower(s);
      assert ls[0] == LowerChar(s[0]);
      if IsSpace(s[0]) {
        assert ls[1..] == Lower(s[1..]);
        LowerStripLeftCommute(s[1..]);
        assert StripLeft(ls) == StripLeft(ls[1..]);
      } else {
        assert StripLeft(ls) == ls;
      }
    }
  }

  lemma {:induction false} LowerStripRightCommute(s: string)
    ensures StripRight(Lower(s)) == Lower(StripRight(s))
  {
    if s != [] {
      var n := |s| - 1;
      if IsSpace(s[n]) {
        LowerDropLast(s);
        LowerStripRightCommute(s[..n]);
      }
    }
  }

  /** Lower-casing keeps a last character that is whitespace, and lower-cases the rest. */
  lemma LowerDropLast(s: string)
    requires s != [] && IsSpace(s[|s| - 1])
    ensures StripRight(Lower(s)) == StripRight(Lower(s[..|s| - 1]))
  {
    var n := |s| - 1;
    LowerPrefix(s, n);
    assert IsSpace(Lower(s)[n]);
  }

  /** Lower-casing a prefix is taking the prefix of the lower-cased string. */
  lemma LowerPrefix(s: string, n: nat)
    requires n <= |s|
    ensures Lower(s)[..n] == Lower(s[..n])
  {
    var ls := Lower(s);
    var lp := Lower(s[..n]);
    assert |ls[..n]| == |lp|;
    forall i | 0 <= i < n
      ensures ls[..n][i] == lp[i]
    {
      assert ls[i] == LowerChar(s[i]);
      assert lp[i] == LowerChar(s[..n][i]);
    }
  }

  /** Lower-casing and trimming commute, so `lower(strip(s)) == strip(lower(s))`. */
  lemma LowerStripCommute(s: string)
    ensures Strip(Lower(s)) == Lower(Strip(s))
  {
    LowerStripLeftCommute(s);
    LowerStripRightCommute(StripLeft(s));
  }

  /** Normalised strings are exactly the fixed points of lower-casing and of trimming. */
  lemma NormalizedIffFixed(s: string)
    ensures IsNormalized(s) <==> Lower(s) == s && Strip(s) == s
  {
    if IsNormalized(s) {
      StripNoop(s);
      assert Lower(s) == s;
    }
    if Lower(s) == s && Strip(s) == s {
      assert forall i :: 0 <= i < |s| ==> !IsUpper(s[i]) by {
        forall i | 0 <= i < |s| ensures !IsUpper(s[i]) {
          assert s[i] == Lower(s)[i] == LowerChar(s[i]);
        }
      }
      var l := StripLeft(s);
      assert s == StripRight(l);
    }
  }

  /** The normalisation yields a normalised string. */
  lemma NormalizeIsNormalized(s: string)
    ensures IsNormalized(Normalize(s))
  {
    var n := Normalize(s);
    LowerStripCommute(Lower(s));
    LowerIdempotent(s);
    StripIdempotent(Lower(s));
    NormalizedIffFixed(n);
  }

  /** Normalising twice is normalising once. */
  lemma NormalizeIdempotent(s: string)
    ensures Normalize(Normalize(s)) == Normalize(s)
  {
    NormalizeIsNormalized(s);
  }

  /** A normalised string is a fixed point of the normalisation. */
  lemma NormalizeFixesNormalized(s: string)
    requires IsNormalized(s)
    ensures Normalize(s) == s
  {
    NormalizedIffFixed(s);
  }
}
