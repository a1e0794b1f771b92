/** The parts of JavaScript's string library that the governance pages and the
    role lookup rely on: `trim`, `toLowerCase`, and the upper-casing of the first
    character used for status badges. Case mapping is modelled on ASCII letters
    only; whitespace follows the ECMAScript WhiteSpace and LineTerminator sets. */
module JsString {

  /** The characters `String.prototype.trim` removes: the ECMAScript WhiteSpace
      code points (tab, vertical tab, form feed, space, no-break space, the byte
      order mark and the other space separators) and the LineTerminator code points. */
  predicate IsWhiteSpace(c: char) {
    c in {'\t', '\n', '\U{0B}', '\U{0C}', '\r', ' ', '\U{A0}', '\U{1680}',
          '\U{2028}', '\U{2029}', '\U{202F}', '\U{205F}', '\U{3000}', '\U{FEFF}'}
    || ('\U{2000}' <= c <= '\U{200A}')
  }

  /** Every character of `s` is whitespace (the empty string included). */
  predicate IsBlank(s: string) {
    forall i :: 0 <= i < |s| ==> IsWhiteSpace(s[i])
  }

  /** Drops the leading whitespace: the result is the suffix of `s` left after a
      blank prefix, and it does not itself start with whitespace. */
  function TrimStart(s: string): (r: string)
    ensures |r| <= |s| && r == s[|s| - |r|..]
    ensures IsBlank(s[..|s| - |r|])
    ensures r != [] ==> !IsWhiteSpace(r[0])
  {
    if s != [] && IsWhiteSpace(s[0]) then TrimStart(s[1..]) else s
  }

  /** Drops the trailing whitespace: the result is the prefix of `s` left before a
      blank suffix, and it does not itself end with whitespace. */
  function TrimEnd(s: string): (r: string)
    ensures |r| <= |s| && r == s[..|r|]
    ensures IsBlank(s[|r|..])
    ensures r != [] ==> !IsWhiteSpace(r[|r| - 1])
  {
    if s != [] && IsWhiteSpace(s[|s| - 1]) then TrimEnd(s[..|s| - 1]) else s
  }

  /** `s.trim()`: what `TrimStart` leaves, without its trailing whitespace. */
  function Trim(s: string): string {
    TrimEnd(TrimStart(s))
  }

  /** The trimmed text neither starts nor ends with whitespace. */
  lemma TrimHasNoOuterWhiteSpace(s: string)
    ensures var r := Trim(s); r != [] ==> !IsWhiteSpace(r[0]) && !IsWhiteSpace(r[|r| - 1])
  {
    var t := TrimStart(s);
    var r := TrimEnd(t);
    assert r != [] ==> r[0] == t[0];
  }

  /** `s.trim() !== ""` holds exactly when `s` has a character that is not whitespace. */
  lemma TrimEmptyIffBlank(s: string)
    ensures Trim(s) == "" <==> IsBlank(s)
  {
    var t := TrimStart(s);
    if Trim(s) == "" {
      assert IsBlank(t[0..]);
      assert s[..|s| - |t|] == s;
    }
  }

  /** ASCII lower-casing of one character. */
  function LowerChar(c: char): char {
    if 'A' <= c <= 'Z' then (c as int + 32) as char else c
  }

  /** ASCII upper-casing of one character. */
  function UpperChar(c: char): char {
    if 'a' <= c <= 'z' then (c as int - 32) as char else c
  }

  /** `s.toLowerCase()` on ASCII letters: same length, each character lower-cased,
      and no upper-case ASCII letter left. */
  function ToLowerCase(s: string): (r: string)
    ensures |r| == |s|
    ensures forall i :: 0 <= i < |s| ==> r[i] == LowerChar(s[i])
    ensures forall i :: 0 <= i < |r| ==> !('A' <= r[i] <= 'Z')
  {
    if s == [] then [] else [LowerChar(s[0])] + ToLowerCase(s[1..])
  }

  /** Comparing lower-cased copies is case-insensitive equality: same length and
      the same letters up to ASCII case. */
  lemma {:induction false} LowerEqualIffSameIgnoringCase(a: string, b: string)
    ensures ToLowerCase(a) == ToLowerCase(b)
        <==> |a| == |b| && forall i :: 0 <= i < |a| ==> LowerChar(a[i]) == LowerChar(b[i])
  {
    var la, lb := ToLowerCase(a), ToLowerCase(b);
    if la == lb {
      forall i | 0 <= i < |a| ensures LowerChar(a[i]) == LowerChar(b[i]) {
        assert la[i] == lb[i];
      }
    }
  }

  /** Lower-casing twice changes nothing more than lower-casing once. */
  lemma ToLowerCaseIdempotent(s: string)
    ensures ToLowerCase(ToLowerCase(s)) == ToLowerCase(s)
  {
    var l := ToLowerCase(s);
    assert forall i :: 0 <= i < |l| ==> ToLowerCase(l)[i] == l[i];
  }

  /** `s.charAt(0).toUpperCase() + s.slice(1)`: the same length, the tail unchanged,
      and the first character upper-cased, so no longer a lower-case ASCII letter.
      On the empty string `charAt(0)` and `slice(1)` are both "". */
  function Capitalize(s: string): (r: string)
    ensures |r| == |s|
    ensures s != [] ==> r[0] == UpperChar(s[0]) && r[1..] == s[1..] && !('a' <= r[0] <= 'z')
  {
    if s == [] then [] else [UpperChar(s[0])] + s[1..]
  }

  /** Capitalizing changes the string only up to case. */
  lemma CapitalizeSameIgnoringCase(s: string)
    ensures ToLowerCase(Capitalize(s)) == ToLowerCase(s)
  {
    if s != [] {
      var r := Capitalize(s);
      assert LowerChar(r[0]) == LowerChar(s[0]);
      assert forall i :: 1 <= i < |s| ==> r[i] == s[i];
      LowerEqualIffSameIgnoringCase(r, s);
    }
  }
}
