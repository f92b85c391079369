/**
 * String operations the scoring engine relies on.
 *
 * Unicode NFKC normalisation, Unicode lower-casing and difflib's
 * SequenceMatcher ratio are library algorithms whose code is not part of
 * this model: they are supplied as a `TextLibrary` of function values.
 * Python's `str.strip`, `str.replace` with an empty replacement and the
 * substring test `sub in s` are written out here.
 */
module TextOps {

  /** A similarity ratio: difflib's ratio always lies in [0, 1]. */
  type Unit = x: real | 0.0 <= x <= 1.0

  /** The foreign text algorithms the engine calls. */
  datatype TextLibrary = TextLibrary(
    nfkc: string -> string,          // unicodedata.normalize("NFKC", _)
    lower: string -> string,         // str.lower
    ratio: (string, string) -> Unit  // difflib.SequenceMatcher(a=_, b=_).ratio()
  )

  /** Python's `str.isspace` for a single character. */
  predicate IsSpace(c: char) {
    ('\U{9}' <= c <= '\U{D}') || ('\U{1C}' <= c <= '\U{20}') || c == '\U{85}' || c == '\U{A0}'
    || c == '\U{1680}' || ('\U{2000}' <= c <= '\U{200A}') || c == '\U{2028}' || c == '\U{2029}'
    || c == '\U{202F}' || c == '\U{205F}' || c == '\U{3000}'
  }

  predicate AllSpaces(s: string) {
    forall i :: 0 <= i < |s| ==> IsSpace(s[i])
  }

  /** Drops leading whitespace. */
  function TrimStart(s: string): (r: string)
    ensures |r| <= |s| && r == s[|s| - |r|..]
    ensures AllSpaces(s[..|s| - |r|])
    ensures r == [] || !IsSpace(r[0])
  {
    if s != [] && IsSpace(s[0]) then
      var r := TrimStart(s[1..]);
      assert s[..|s| - |r|] == [s[0]] + s[1..][..|s| - 1 - |r|];
      r
    else s
  }

  /** Drops trailing whitespace. */
  function TrimEnd(s: string): (r: string)
    ensures |r| <= |s| && r == s[..|r|]
    ensures AllSpaces(s[|r|..])
    ensures r == [] || !IsSpace(r[|r| - 1])
  {
    if s != [] && IsSpace(s[|s| - 1]) then
      var r := TrimEnd(s[..|s| - 1]);
      assert forall k :: 0 <= k < |s| - 1 - |r| ==> s[|r|..][k] == s[..|s| - 1][|r|..][k];
      r
    else s
  }

  /** `s` is whitespace, then `r` starting at index `i`, then whitespace. */
  predicate Surrounds(s: string, i: int, r: string) {
    0 <= i && i + |r| <= |s| && r == s[i..i + |r|] && AllSpaces(s[..i]) && AllSpaces(s[i + |r|..])
  }

  /**
   * Python's `s.strip()`: `s` splits into whitespace, the result, and
   * whitespace, and the result neither starts nor ends with whitespace.
   */
  function Strip(s: string): (r: string)
    ensures exists i :: Surrounds(s, i, r)
    ensures r == [] || (!IsSpace(r[0]) && !IsSpace(r[|r| - 1]))
  {
    TrimBothSurrounded(s);
    TrimEnd(TrimStart(s))
  }

  lemma TrimBothSurrounded(s: string)
    ensures Surrounds(s, |s| - |TrimStart(s)|, TrimEnd(TrimStart(s)))
  {
    SurroundsCompose(s, TrimStart(s), TrimEnd(TrimStart(s)));
  }

  /** Leading whitespace cut from `s` leaving `t`, then trailing whitespace cut from `t` leaving `r`. */
  lemma SurroundsCompose(s: string, t: string, r: string)
    requires |t| <= |s| && t == s[|s| - |t|..] && AllSpaces(s[..|s| - |t|])
    requires |r| <= |t| && r == t[..|r|] && AllSpaces(t[|r|..])
    ensures Surrounds(s, |s| - |t|, r)
  {
    var i := |s| - |t|;
    assert r == s[i..i + |r|] by {
      assert s[i..i + |r|] == t[..|r|];
    }
    assert s[i + |r|..] == t[|r|..];
  }

  /** Stripping is idempotent. */
  lemma StripIdempotent(s: string)
    ensures Strip(Strip(s)) == Strip(s)
  {
    var r := Strip(s);
    assert TrimStart(r) == r;
    if r != [] {
      assert TrimEnd(r) == r;
    }
  }

  /** `_normalize_text`: NFKC normalisation followed by `strip()`. */
  function NormalizeText(lib: TextLibrary, text: string): (r: string)
    ensures exists i :: Surrounds(lib.nfkc(text), i, r)
    ensures r == [] || (!IsSpace(r[0]) && !IsSpace(r[|r| - 1]))
  {
    Strip(lib.nfkc(text))
  }

  /** Python's `sub in s`. */
  predicate Contains(s: string, sub: string)
    decreases |s|
  {
    |sub| <= |s| && (s[..|sub|] == sub || Contains(s[1..], sub))
  }

  /** `sub` occurs in `s` starting at position `i`. */
  predicate OccursAt(s: string, sub: string, i: int) {
    0 <= i <= |s| - |sub| && s[i..i + |sub|] == sub
  }

  /** `Contains` holds exactly when `sub` occurs at some position of `s`. */
  lemma {:induction false} ContainsIff(s: string, sub: string)
    ensures Contains(s, sub) <==> exists i :: OccursAt(s, sub, i)
    decreases |s|
  {
    if |sub| <= |s| {
      if s[..|sub|] == sub {
        assert OccursAt(s, sub, 0);
      } else {
        ContainsIff(s[1..], sub);
        if Contains(s[1..], sub) {
          var i :| OccursAt(s[1..], sub, i);
          assert s[i + 1..i + 1 + |sub|] == s[1..][i..i + |sub|];
          assert OccursAt(s, sub, i + 1);
        }
        if exists i :: OccursAt(s, sub, i) {
          var i :| OccursAt(s, sub, i);
          assert i != 0;
          assert s[1..][i - 1..i - 1 + |sub|] == s[i..i + |sub|];
          assert OccursAt(s[1..], sub, i - 1);
        }
      }
    }
  }

  /**
   * Python's `s.replace(pat, "")`: occurrences are found left to right and
   * do not overlap; an empty `pat` leaves `s` as it is.
   */
  function RemoveAll(s: string, pat: string): (r: string)
    ensures |r| <= |s|
    decreases |s|
  {
    if pat == [] || |s| < |pat| then s
    else if s[..|pat|] == pat then RemoveAll(s[|pat|..], pat)
    else [s[0]] + RemoveAll(s[1..], pat)
  }

  /** Removing a one-character pattern leaves no occurrence of that character. */
  lemma {:induction false} RemoveAllChar(s: string, c: char)
    ensures c !in RemoveAll(s, [c])
    decreases |s|
  {
    if |s| >= 1 {
      RemoveAllChar(s[1..], c);
      if s[..1] != [c] {
        assert s[0] != c;
      }
    }
  }

  /** A string without the pattern is left unchanged. */
  lemma {:induction false} RemoveAllAbsent(s: string, pat: string)
    requires !Contains(s, pat)
    ensures RemoveAll(s, pat) == s
    decreases |s|
  {
    if |pat| <= |s| {
      RemoveAllAbsent(s[1..], pat);
      assert [s[0]] + s[1..] == s;
    }
  }
}
