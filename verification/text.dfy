/** The string primitives the views rely on: `String.prototype.trim`,
    `toLowerCase` and `includes`, over strings as sequences of code points. */
module Text {
  import Seqs

  /** The code points `trim` removes: ECMAScript WhiteSpace (tab, vertical
      tab, form feed, space, no-break space, byte order mark and the Unicode
      space separators) and LineTerminator (line feed, carriage return, line
      and paragraph separators). */
  predicate IsWhitespace(c: char) {
    var n := c as int;
    || n == 0x09 || n == 0x0A || n == 0x0B || n == 0x0C || n == 0x0D || n == 0x20
    || n == 0xA0 || n == 0x1680 || (0x2000 <= n <= 0x200A)
    || n == 0x2028 || n == 0x2029 || n == 0x202F || n == 0x205F
    || n == 0x3000 || n == 0xFEFF
  }

  /** Every code point of `s` is whitespace (vacuously so for ""). */
  predicate IsBlank(s: string) {
    forall i :: 0 <= i < |s| ==> IsWhitespace(s[i])
  }

  /** `s` without its leading whitespace. */
  function TrimStart(s: string): (r: string)
    ensures |r| <= |s| && r == s[|s| - |r|..]
    ensures forall i :: 0 <= i < |s| - |r| ==> IsWhitespace(s[i])
    ensures IsBlank(s[..|s| - |r|])
    ensures |r| == 0 || !IsWhitespace(r[0])
  {
    if |s| > 0 && IsWhitespace(s[0]) then TrimStart(s[1..]) else s
  }

  /** `s` without its trailing whitespace. */
  function TrimEnd(s: string): (r: string)
    ensures |r| <= |s| && r == s[..|r|]
    ensures forall i :: |r| <= i < |s| ==> IsWhitespace(s[i])
    ensures IsBlank(s[|r|..])
    ensures |r| == 0 || !IsWhitespace(r[|r| - 1])
  {
    if |s| > 0 && IsWhitespace(s[|s| - 1]) then TrimEnd(s[..|s| - 1]) else s
  }

  /** `s.trim()`: `s` without leading and trailing whitespace, that is, the
      infix of `s` left after cutting a blank prefix and a blank suffix. The
      result is empty exactly when `s` is blank, and otherwise starts and
      ends with a non-whitespace code point. */
  function Trim(s: string): (r: string)
    ensures |r| <= |s|
    ensures exists i, j :: 0 <= i <= j <= |s| && r == s[i..j] && IsBlank(s[..i]) && IsBlank(s[j..])
    ensures r == [] <==> IsBlank(s)
    ensures r == [] || (!IsWhitespace(r[0]) && !IsWhitespace(r[|r| - 1]))
  {
    var t := TrimStart(s);
    var r := TrimEnd(t);
    TrimBothIsInfix(s, t, r);
    r
  }

  /** Cutting the blank head of `s` and then the blank tail of what is left
      leaves an infix of `s` between a blank prefix and a blank suffix. */
  lemma TrimBothIsInfix(s: string, t: string, r: string)
    requires |t| <= |s| && t == s[|s| - |t|..] && IsBlank(s[..|s| - |t|])
    requires |r| <= |t| && r == t[..|r|] && IsBlank(t[|r|..])
    ensures exists i, j :: 0 <= i <= j <= |s| && r == s[i..j] && IsBlank(s[..i]) && IsBlank(s[j..])
  {
    var i := |s| - |t|;
    var j := i + |r|;
    SliceOfSuffix(s, i, |r|);
    assert r == s[i..j] && s[j..] == t[|r|..];
  }

  lemma SliceOfSuffix(s: string, i: nat, n: nat)
    requires i + n <= |s|
    ensures s[i..][..n] == s[i..i + n] && s[i..][n..] == s[i + n..]
  {
  }

  /** ASCII `A`-`Z` folded to `a`-`z`; every other code point is kept. */
  function LowerChar(c: char): char {
    if 'A' <= c <= 'Z' then (c as int + 32) as char else c
  }

  /** `s.toLowerCase()`, restricted to ASCII letters. */
  function ToLower(s: string): (r: string)
    ensures |r| == |s|
    ensures forall i :: 0 <= i < |s| ==> r[i] == LowerChar(s[i])
  {
    Seqs.Map(s, LowerChar)
  }

  /** Lower-casing distributes over concatenation. */
  lemma ToLowerConcat(a: string, b: string)
    ensures ToLower(a + b) == ToLower(a) + ToLower(b)
  {
  }

  /** `needle` occurs in `hay` starting at index `i`. */
  predicate OccursAt(hay: string, needle: string, i: nat) {
    i + |needle| <= |hay| && hay[i..i + |needle|] == needle
  }

  /** `hay.includes(needle)`; the empty needle occurs everywhere. */
  predicate Contains(hay: string, needle: string) {
    exists i: nat :: i <= |hay| && OccursAt(hay, needle, i)
  }

  /** A match inside a part is a match inside any string the part is spliced into. */
  lemma ContainsInfix(pre: string, part: string, post: string, needle: string)
    requires Contains(part, needle)
    ensures Contains(pre + part + post, needle)
  {
    var i: nat :| i <= |part| && OccursAt(part, needle, i);
    var hay := pre + part + post;
    assert hay[|pre| + i..|pre| + i + |needle|] == part[i..i + |needle|];
    assert OccursAt(hay, needle, |pre| + i);
  }

  /** A match inside the head of a string is a match inside the string. */
  lemma ContainsPrefixPart(part: string, post: string, needle: string)
    requires Contains(part, needle)
    ensures Contains(part + post, needle)
  {
    var i: nat :| i <= |part| && OccursAt(part, needle, i);
    var hay := part + post;
    assert hay[i..i + |needle|] == part[i..i + |needle|];
    assert OccursAt(hay, needle, i);
  }

  /** Five parts joined by single spaces split into the first part and the
      space-led rest. */
  lemma JoinHead(a: string, b: string, c: string, d: string, e: string)
    ensures a + " " + b + " " + c + " " + d + " " + e == a + (" " + b + " " + c + " " + d + " " + e)
  {
  }
}
