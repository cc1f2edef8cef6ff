/**
 * The string primitives the analyser relies on: Python's `str.lower()`,
 * `str.strip()` and the `in` substring test, on `seq<char>`.
 */
module Text {

  /** Python's `str.isspace()`: the characters `str.strip()` removes. */
  predicate IsSpace(c: char)
  {
    c == ' ' || ('\t' <= c <= '\r') || ('\U{1c}' <= c <= '\U{1f}')
    || c == '\U{85}' || c == '\U{a0}' || c == '\U{1680}'
    || ('\U{2000}' <= c <= '\U{200a}') || c == '\U{2028}' || c == '\U{2029}'
    || c == '\U{202f}' || c == '\U{205f}' || c == '\U{3000}'
  }

  /** A character that `LowerChar` changes. */
  predicate IsUpper(c: char)
  {
    ('A' <= c <= 'Z') || ('\U{400}' <= c <= '\U{42f}')
  }

  /**
   * Python's lower-casing of one character, for the Latin and Cyrillic
   * capitals (the scripts of the line-item keywords): A-Z map to a-z,
   * А-Я (U+0410..U+042F) to а-я, and Ѐ-Џ (U+0400..U+040F, among them Ё)
   * to ѐ-џ (U+0450..U+045F).
   */
  function LowerChar(c: char): (r: char)
    ensures IsUpper(c) <==> r != c
    ensures !IsUpper(r)
    ensures IsSpace(r) <==> IsSpace(c)
  {
    if 'A' <= c <= 'Z' then (c as int + 32) as char
    else if '\U{410}' <= c <= '\U{42f}' then (c as int + 0x20) as char
    else if '\U{400}' <= c <= '\U{40f}' then (c as int + 0x50) as char
    else c
  }

  /** Python's `str.lower()`, character by character. */
  function Lower(s: string): (r: string)
    ensures |r| == |s|
    ensures forall i :: 0 <= i < |s| ==> r[i] == LowerChar(s[i])
  {
    seq(|s|, i requires 0 <= i < |s| => LowerChar(s[i]))
  }

  lemma LowerAppend(a: string, b: string)
    ensures Lower(a + b) == Lower(a) + Lower(b)
  {
    assert forall i :: 0 <= i < |a + b| ==> Lower(a + b)[i] == (Lower(a) + Lower(b))[i];
  }

  /** Lower-casing a capitalised word changes its first letter only. */
  lemma LowerCapitalised(first: char, rest: string)
    requires forall c :: c in rest ==> !IsUpper(c)
    ensures Lower([first] + rest) == [LowerChar(first)] + rest
  {
    LowerAppend([first], rest);
    LowerOfLowercase(rest);
  }

  /** A string with no capital in it is its own lower-case form. */
  lemma LowerOfLowercase(s: string)
    requires forall c :: c in s ==> !IsUpper(c)
    ensures Lower(s) == s
  {
    assert forall i :: 0 <= i < |s| ==> s[i] in s;
  }

  /** Lower-casing twice changes nothing more. */
  lemma LowerIdempotent(s: string)
    ensures Lower(Lower(s)) == Lower(s)
  {
  }

  /** `s.lstrip()`: drops the leading whitespace. */
  function StripLeft(s: string): (r: string)
    ensures |r| <= |s| && r == s[|s| - |r|..]
    ensures forall i :: 0 <= i < |s| - |r| ==> IsSpace(s[i])
    ensures r != [] ==> !IsSpace(r[0])
  {
    if s != [] && IsSpace(s[0]) then
      var r := StripLeft(s[1..]);
      assert forall i :: 1 <= i < |s| ==> s[i] == s[1..][i - 1];
      r
    else s
  }

  /** `s.rstrip()`: drops the trailing whitespace. */
  function StripRight(s: string): (r: string)
    ensures |r| <= |s| && r == s[..|r|]
    ensures forall i :: |r| <= i < |s| ==> IsSpace(s[i])
    ensures r != [] ==> !IsSpace(r[|r| - 1])
  {
    if s != [] && IsSpace(s[|s| - 1]) then
      var r := StripRight(s[..|s| - 1]);
      assert forall i :: 0 <= i < |s| - 1 ==> s[i] == s[..|s| - 1][i];
      r
    else s
  }

  /**
   * Python's `str.strip()`: the longest infix of `s` that neither starts
   * nor ends with whitespace, everything cut off being whitespace.
   */
  function Strip(s: string): (r: string)
    ensures exists i, j :: 0 <= i <= j <= |s| && r == s[i..j]
                           && (forall k :: 0 <= k < i ==> IsSpace(s[k]))
                           && (forall k :: j <= k < |s| ==> IsSpace(s[k]))
    ensures r != [] ==> !IsSpace(r[0]) && !IsSpace(r[|r| - 1])
  {
    var l := StripLeft(s);
    var r := StripRight(l);
    assert r == s[|s| - |l|..|s| - |l| + |r|];
    r
  }

  /** A string that neither starts nor ends with whitespace is left alone. */
  lemma StripUntrimmed(s: string)
    requires s != [] ==> !IsSpace(s[0]) && !IsSpace(s[|s| - 1])
    ensures Strip(s) == s
  {
  }

  /**
   * `str(x).lower().strip()`, applied to labels and to column headers
   * alike: the result has no capital and no surrounding whitespace.
   */
  function Normalize(name: string): (r: string)
    ensures IsNormal(r)
  {
    StrippedLowerIsNormal(name);
    Strip(Lower(name))
  }

  /** Stripping a lower-cased string leaves no capital and no surrounding whitespace. */
  lemma StrippedLowerIsNormal(s: string)
    ensures IsNormal(Strip(Lower(s)))
  {
    var l := Lower(s);
    forall c | c in l ensures !IsUpper(c) {
      var k :| 0 <= k < |l| && l[k] == c;
    }
    var i, j :| 0 <= i <= j <= |l| && Strip(l) == l[i..j];
    InfixNoUpper(l, i, j);
  }

  /** An infix of a string without capitals has none either. */
  lemma InfixNoUpper(l: string, i: nat, j: nat)
    requires i <= j <= |l| && forall c :: c in l ==> !IsUpper(c)
    ensures forall c :: c in l[i..j] ==> !IsUpper(c)
  {
    forall c | c in l[i..j] ensures !IsUpper(c) {
      var k :| 0 <= k < j - i && l[i..j][k] == c;
      assert c == l[i + k];
    }
  }

  /** Normalising twice changes nothing more. */
  lemma NormalizeIdempotent(name: string)
    ensures Normalize(Normalize(name)) == Normalize(name)
  {
    NormalizeLowercase(Normalize(name));
  }

  /** No capital and no surrounding whitespace. */
  predicate IsNormal(s: string)
  {
    (forall c :: c in s ==> !IsUpper(c)) && (s != [] ==> !IsSpace(s[0]) && !IsSpace(s[|s| - 1]))
  }

  /** A string with no capital and no surrounding whitespace is its own normal form. */
  lemma NormalizeLowercase(s: string)
    requires IsNormal(s)
    ensures Normalize(s) == s
  {
    LowerOfLowercase(s);
    StripUntrimmed(s);
  }

  /** `needle` occurs in `hay` starting at index `i`. */
  predicate OccursAt(needle: string, hay: string, i: int)
  {
    0 <= i <= |hay| - |needle| && hay[i..i + |needle|] == needle
  }

  /** Python's `needle in hay` on strings. */
  predicate IsSubstring(needle: string, hay: string)
  {
    exists i :: 0 <= i <= |hay| - |needle| && OccursAt(needle, hay, i)
  }

  /** The needle itself sits between `a` and `b`. */
  lemma SubstringOfInfix(a: string, needle: string, b: string)
    ensures IsSubstring(needle, a + needle + b)
  {
    var hay := a + needle + b;
    assert hay[|a|..|a| + |needle|] == needle;
    assert OccursAt(needle, hay, |a|);
  }

  /** A needle holding a character the hay lacks is not in the hay. */
  lemma NotSubstringByChar(needle: string, hay: string, c: char)
    requires c in needle && c !in hay
    ensures !IsSubstring(needle, hay)
  {
    var k :| 0 <= k < |needle| && needle[k] == c;
    forall i | 0 <= i <= |hay| - |needle| ensures !OccursAt(needle, hay, i) {
      assert hay[i + k] in hay;
      assert hay[i..i + |needle|][k] == hay[i + k];
    }
  }

  /**
   * A profile of `hay`: a set holding each of its characters and a set
   * holding each pair of neighbouring characters.
   */
  predicate Profiled(hay: string, chars: set<char>, pairs: set<(char, char)>)
  {
    && (forall i :: 0 <= i < |hay| ==> hay[i] in chars)
    && (forall i :: 0 <= i < |hay| - 1 ==> (hay[i], hay[i + 1]) in pairs)
  }

  /** A needle holding a character outside the profile's character set does not occur in the hay. */
  lemma NotSubstringByProfileChar(needle: string, hay: string, chars: set<char>, pairs: set<(char, char)>, c: char)
    requires Profiled(hay, chars, pairs)
    requires c in needle && c !in chars
    ensures !IsSubstring(needle, hay)
  {
    assert c !in hay by {
      forall i | 0 <= i < |hay| ensures hay[i] != c {
        assert hay[i] in chars;
      }
    }
    NotSubstringByChar(needle, hay, c);
  }

  /** A needle with two neighbouring characters that never stand side by side in the hay does not occur in it. */
  lemma NotSubstringByPair(needle: string, hay: string, chars: set<char>, pairs: set<(char, char)>, a: nat)
    requires Profiled(hay, chars, pairs)
    requires a + 1 < |needle| && (needle[a], needle[a + 1]) !in pairs
    ensures !IsSubstring(needle, hay)
  {
    forall i | 0 <= i <= |hay| - |needle| ensures !OccursAt(needle, hay, i) {
      assert hay[i..i + |needle|][a] == hay[i + a] && hay[i..i + |needle|][a + 1] == hay[i + a + 1];
    }
  }
}
