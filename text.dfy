/** String helpers shared by the components: substring search, the
    lower-casing the fee detector applies, and JavaScript's notion of
    white space (the `\s` class of a regular expression and `String.trim`). */
module Text {

  /** `sub` occurs in `s` starting at position `i`. */
  predicate OccursAt(s: string, sub: string, i: int) {
    0 <= i <= |s| - |sub| && s[i..i + |sub|] == sub
  }

  /** `s.includes(sub)`. */
  predicate Contains(s: string, sub: string) {
    exists i :: 0 <= i <= |s| - |sub| && OccursAt(s, sub, i)
  }

  /** Search for `sub` from position `from` onwards; an executable form of `Contains`. */
  function IndexFrom(s: string, sub: string, from: nat): (r: int)
    ensures r == -1 || (from <= r && OccursAt(s, sub, r))
    ensures r == -1 <==> forall i :: from <= i ==> !OccursAt(s, sub, i)
    decreases |s| + 1 - from
  {
    if from + |sub| > |s| then -1
    else if s[from..from + |sub|] == sub then from
    else IndexFrom(s, sub, from + 1)
  }

  lemma ContainsByIndex(s: string, sub: string)
    ensures Contains(s, sub) <==> IndexFrom(s, sub, 0) != -1
  {
    if IndexFrom(s, sub, 0) != -1 {
      assert OccursAt(s, sub, IndexFrom(s, sub, 0));
    }
  }

  /** Upper-case letters of Basic Latin and Latin-1 map to their lower-case
      forms, as `toLowerCase` does for them. Every other character is kept,
      which is narrower than `toLowerCase` (it lowers all of Unicode) but does
      not change any match of the fee detector's keywords. */
  function LowerChar(c: char): (d: char)
  {
    if IsUpper(c) then
      (c as int + 32) as char
    else c
  }

  predicate IsUpper(c: char) {
    'A' <= c <= 'Z' || ('À' <= c <= 'Þ' && c != '×')
  }

  function ToLower(s: string): (r: string)
    ensures |r| == |s|
    ensures forall i :: 0 <= i < |s| ==> r[i] == LowerChar(s[i])
  {
    seq(|s|, i requires 0 <= i < |s| => LowerChar(s[i]))
  }

  /** Lower-casing leaves no upper-case letter behind, so doing it twice is
      doing it once. */
  lemma ToLowerIdempotent(s: string)
    ensures forall i :: 0 <= i < |s| ==> !IsUpper(ToLower(s)[i])
    ensures ToLower(ToLower(s)) == ToLower(s)
  {
  }

  /** Lower-casing works character by character, so it keeps every
      occurrence of a word: a text that contains `sub` still contains its
      lower-case form afterwards, which is how a keyword written in capitals
      is still found. */
  lemma ToLowerKeepsOccurrences(s: string, sub: string)
    requires Contains(s, sub)
    ensures Contains(ToLower(s), ToLower(sub))
  {
    var i :| 0 <= i <= |s| - |sub| && OccursAt(s, sub, i);
    assert ToLower(s)[i..i + |sub|] == ToLower(sub) by {
      forall k | 0 <= k < |sub|
        ensures ToLower(s)[i..i + |sub|][k] == ToLower(sub)[k]
      {
        assert s[i..i + |sub|][k] == sub[k];
      }
    }
    assert OccursAt(ToLower(s), ToLower(sub), i);
  }

  predicate IsAsciiDigit(c: char) {
    '0' <= c <= '9'
  }

  /** The characters JavaScript treats as white space: `\s` in a regular
      expression, and what `trim` removes. */
  predicate IsWhitespace(c: char) {
    c == '\t' || c == '\n' || c == '\U{000B}' || c == '\U{000C}' || c == '\r' || c == ' '
    || c == '\U{00A0}' || c == '\U{1680}' || ('\U{2000}' <= c <= '\U{200A}')
    || c == '\U{2028}' || c == '\U{2029}' || c == '\U{202F}' || c == '\U{205F}'
    || c == '\U{3000}' || c == '\U{FEFF}'
  }

  function TrimStart(s: string): (r: string)
    ensures |r| <= |s| && r == s[|s| - |r|..]
    ensures r == [] || !IsWhitespace(r[0])
    ensures forall i :: 0 <= i < |s| - |r| ==> IsWhitespace(s[i])
  {
    if s != [] && IsWhitespace(s[0]) then TrimStart(s[1..]) else s
  }

  function TrimEnd(s: string): (r: string)
    ensures |r| <= |s| && r == s[..|r|]
    ensures r == [] || !IsWhitespace(r[|r| - 1])
    ensures forall i :: |r| <= i < |s| ==> IsWhitespace(s[i])
  {
    if s != [] && IsWhitespace(s[|s| - 1]) then TrimEnd(s[..|s| - 1]) else s
  }

  /** `r` is the slice of `s` at `k`, with only white space around it. */
  predicate SliceAmidWhitespace(s: string, r: string, k: int) {
    && 0 <= k <= |s| - |r| && r == s[k..k + |r|]
    && forall i :: 0 <= i < |s| && (i < k || k + |r| <= i) ==> IsWhitespace(s[i])
  }

  /** `s.trim()`: the part of `s` between leading and trailing white space,
      which neither begins nor ends with white space. */
  function Trim(s: string): (r: string)
    ensures r == [] || (!IsWhitespace(r[0]) && !IsWhitespace(r[|r| - 1]))
    ensures exists k :: SliceAmidWhitespace(s, r, k)
  {
    var a := TrimStart(s);
    var r := TrimEnd(a);
    TrimIsSlice(s, a, r);
    r
  }

  /** A prefix `r` of a suffix `a` of `s`, with white space before `a` and
      after `r` within it, is a slice of `s` amid white space. */
  lemma TrimIsSlice(s: string, a: string, r: string)
    requires |a| <= |s| && a == s[|s| - |a|..]
    requires |r| <= |a| && r == a[..|r|]
    requires forall i :: 0 <= i < |s| - |a| ==> IsWhitespace(s[i])
    requires forall j :: |r| <= j < |a| ==> IsWhitespace(a[j])
    requires a == [] || !IsWhitespace(a[0])
    requires r == [] || !IsWhitespace(r[|r| - 1])
    ensures r == [] || (!IsWhitespace(r[0]) && !IsWhitespace(r[|r| - 1]))
    ensures SliceAmidWhitespace(s, r, |s| - |a|)
  {
    var k := |s| - |a|;
    assert r != [] ==> r[0] == a[0];
    assert forall j :: 0 <= j < |r| ==> r[j] == a[j] == s[k + j];
    assert r == s[k..k + |r|];
    forall i | k + |r| <= i < |s|
      ensures IsWhitespace(s[i])
    {
      assert s[i] == a[i - k];
    }
  }

  lemma TrimEmptyIff(s: string)
    ensures Trim(s) == [] <==> forall i :: 0 <= i < |s| ==> IsWhitespace(s[i])
  {
    var a := TrimStart(s);
    if Trim(s) != [] {
      var r := Trim(s);
      assert r == a[..|r|];
      assert a[0] == s[|s| - |a|];
      assert !IsWhitespace(a[0]);
    }
  }

  /** Decimal rendering of an integer, as template literals print it. */
  function IntToString(n: int): (r: string)
    ensures |r| > 0
    decreases if n < 0 then -n + 1 else n
  {
    if n < 0 then "-" + IntToString(-n)
    else if n < 10 then [DigitChar(n)]
    else IntToString(n / 10) + [DigitChar(n % 10)]
  }

  function DigitChar(d: int): (c: char)
    requires 0 <= d < 10
    ensures IsAsciiDigit(c)
  {
    ('0' as int + d) as char
  }
}
