/** The shared helpers of the client: percentage change, clamping, the
    category colour derived from a string hash, and the e-mail shape check. */
module Utils {
  import opened Numeric
  import opened Text

  // ---------------------------------------------------------------------
  // Percentage change

  /** `calculatePercentageChange`: the relative change in percent; from a
      zero start any rise counts as 100 and anything else as 0. */
  function PercentageChange(oldValue: real, newValue: real): (r: real)
    ensures oldValue == 0.0 ==> (r == 100.0 <==> newValue > 0.0) && (r == 0.0 <==> newValue <= 0.0)
    ensures oldValue != 0.0 ==> r * oldValue == (newValue - oldValue) * 100.0
  {
    if oldValue == 0.0 then (if newValue > 0.0 then 100.0 else 0.0)
    else (newValue - oldValue) / oldValue * 100.0
  }

  /** From a non-zero start the change is zero exactly when nothing changed,
      and from a positive start it is positive exactly when the value rose. */
  lemma PercentageChangeZeroIff(oldValue: real, newValue: real)
    requires oldValue != 0.0
    ensures PercentageChange(oldValue, newValue) == 0.0 <==> newValue == oldValue
    ensures oldValue > 0.0 ==> (PercentageChange(oldValue, newValue) > 0.0 <==> newValue > oldValue)
  {
    var r := PercentageChange(oldValue, newValue);
    assert r * oldValue == (newValue - oldValue) * 100.0;
    if oldValue > 0.0 && r > 0.0 {
      assert r * oldValue > 0.0;
    }
  }

  // ---------------------------------------------------------------------
  // Clamp

  /** `clamp`: `Math.min(Math.max(value, min), max)`. */
  function Clamp(value: real, lo: real, hi: real): (r: real)
    ensures lo <= hi ==> lo <= r <= hi
    ensures lo <= value <= hi ==> r == value
    ensures lo > hi ==> r == hi
    ensures value < lo <= hi ==> r == lo
    ensures lo <= hi < value ==> r == hi
  {
    Min(Max(value, lo), hi)
  }

  /** Clamping twice is clamping once. */
  lemma ClampIdempotent(value: real, lo: real, hi: real)
    requires lo <= hi
    ensures Clamp(Clamp(value, lo, hi), lo, hi) == Clamp(value, lo, hi)
  {
  }

  /** Clamping preserves order. */
  lemma ClampMonotone(x: real, y: real, lo: real, hi: real)
    requires x <= y
    ensures Clamp(x, lo, hi) <= Clamp(y, lo, hi)
  {
  }

  // ---------------------------------------------------------------------
  // Colour from a string

  const TwoTo32: int := 0x1_0000_0000
  const TwoTo31: int := 0x8000_0000

  predicate IsInt32(x: int) {
    -TwoTo31 <= x < TwoTo31
  }

  /** ECMAScript ToInt32 on an integral number: wrap modulo 2^32 into the
      signed range. */
  function ToInt32(x: int): (r: int)
    ensures IsInt32(r)
    ensures (r - x) % TwoTo32 == 0
    ensures IsInt32(x) ==> r == x
  {
    var u := x % TwoTo32;
    if u >= TwoTo31 then u - TwoTo32 else u
  }

  /** The UTF-16 code units of one character, which is what `charCodeAt`
      reads: the character itself inside the Basic Multilingual Plane, a
      surrogate pair beyond it. */
  function CodeUnits(c: char): (units: seq<int>)
    ensures c as int < 0x10000 ==> units == [c as int]
    ensures c as int >= 0x10000 ==> (
      && |units| == 2
      && 0xD800 <= units[0] < 0xDC00 && 0xDC00 <= units[1] < 0xE000
      && (units[0] - 0xD800) * 0x400 + (units[1] - 0xDC00) + 0x10000 == c as int)
  {
    var n := c as int;
    if n < 0x10000 then [n]
    else [0xD800 + (n - 0x10000) / 0x400, 0xDC00 + (n - 0x10000) % 0x400]
  }

  predicate AreCodeUnits(units: seq<int>) {
    forall k :: 0 <= k < |units| ==> 0 <= units[k] < 0x10000
  }

  /** The string as JavaScript stores it: its code units in order, at least
      one per character, which `length` counts. */
  function Utf16(s: string): (units: seq<int>)
    ensures |units| >= |s|
    ensures AreCodeUnits(units)
  {
    if s == [] then [] else Utf16(s[..|s| - 1]) + CodeUnits(s[|s| - 1])
  }

  /** One step of the loop: `code + ((hash << 5) - hash)`, where the shift
      wraps its operand and its result to 32 bits but the subtraction and the
      addition do not. */
  function HashStep(hash: int, code: int): int {
    code + (ToInt32(ToInt32(hash) * 32) - hash)
  }

  /** The bound on one step of the hash: each code unit can move the hash
      by at most 2^31 + 2^16. */
  const HashGrowth: int := TwoTo31 + 0x10000

  /** The hash of a string's code units, one at a time from the left. */
  function Hash(units: seq<int>): int {
    if units == [] then 0 else HashStep(Hash(units[..|units| - 1]), units[|units| - 1])
  }

  /** The subtraction is not wrapped, yet the hash grows by at most
      `HashGrowth` a unit, so it stays an integer a double holds exactly
      (below 2^53) for any string of fewer than four million units. */
  lemma {:induction false} HashBounded(units: seq<int>)
    requires AreCodeUnits(units)
    ensures -HashGrowth * |units| <= Hash(units) <= HashGrowth * |units|
  {
    if units != [] {
      var init := units[..|units| - 1];
      assert AreCodeUnits(init);
      HashBounded(init);
      HashStepBound(Hash(init), units[|units| - 1], |init|);
    }
  }

  lemma HashStepBound(hash: int, code: int, n: nat)
    requires 0 <= code < 0x10000
    requires -HashGrowth * n <= hash <= HashGrowth * n
    ensures -HashGrowth * (n + 1) <= HashStep(hash, code) <= HashGrowth * (n + 1)
  {
    var t := ToInt32(ToInt32(hash) * 32);
    assert -TwoTo31 <= t < TwoTo31;
  }

  /** `hash % 360` with the sign of the hash, as JavaScript's `%` does. */
  function Hue(hash: int): (h: int)
    ensures -360 < h < 360
    ensures hash >= 0 ==> h >= 0
    ensures hash <= 0 ==> h <= 0
    ensures (hash - h) % 360 == 0
  {
    if hash >= 0 then hash % 360
    else
      var r := (-hash) % 360;
      assert hash + r == -360 * ((-hash) / 360);
      -r
  }

  function HslString(hue: int): string {
    "hsl(" + IntToString(hue) + ", 70%, 50%)"
  }

  /** `generateColorFromString`: the loop over the code units, then the hue. */
  method ColorFromString(s: string) returns (color: string)
    ensures color == HslString(Hue(Hash(Utf16(s))))
  {
    var units := Utf16(s);
    var hash := 0;
    var i := 0;
    while i < |units|
      invariant 0 <= i <= |units|
      invariant hash == Hash(units[..i])
    {
      HashPrefixStep(units, i, hash);
      hash := units[i] + (ToInt32(ToInt32(hash) * 32) - hash);
      i := i + 1;
    }
    assert units[..i] == units;
    HueOfHash(hash);
    var hue := if hash >= 0 then hash % 360 else -((-hash) % 360);
    color := "hsl(" + IntToString(hue) + ", 70%, 50%)";
  }

  lemma HashPrefixStep(units: seq<int>, i: nat, hash: int)
    requires i < |units|
    requires hash == Hash(units[..i])
    ensures units[i] + (ToInt32(ToInt32(hash) * 32) - hash) == Hash(units[..i + 1])
  {
    assert units[..i + 1][..i] == units[..i];
  }

  lemma HueOfHash(hash: int)
    ensures (if hash >= 0 then hash % 360 else -((-hash) % 360)) == Hue(hash)
  {
  }

  /** The empty string has hue 0. */
  lemma EmptyStringColor()
    ensures HslString(Hue(Hash(Utf16("")))) == "hsl(0, 70%, 50%)"
  {
    assert IntToString(0) == "0";
  }

  /** A character of the Basic Multilingual Plane is its own hash, so its
      hue is its code modulo 360. */
  lemma SingleCharacterHue(c: char)
    requires c as int < 0x10000
    ensures Hash(Utf16([c])) == c as int
    ensures Hue(Hash(Utf16([c]))) == c as int % 360
  {
    assert [c][..0] == [];
    assert Utf16([c][..0]) == [];
    assert Utf16([c]) == [c as int];
    HashOfOne(c as int);
  }

  lemma HashOfOne(code: int)
    requires 0 <= code < 0x10000
    ensures Hash([code]) == code
  {
    assert [code][..0] == [];
    assert ToInt32(ToInt32(0) * 32) == 0;
  }

  /** A character beyond it, such as an emoji, is hashed as its two
      surrogates: the low one plus 31 times the high one. */
  lemma SurrogatePairHash(c: char)
    requires c as int >= 0x10000
    ensures |Utf16([c])| == 2
    ensures Hash(Utf16([c])) == Utf16([c])[1] + 31 * Utf16([c])[0]
  {
    assert [c][..0] == [];
    var u := CodeUnits(c);
    assert Utf16([c]) == u;
    assert u[..1][..0] == [];
    assert Hash(u[..1]) == u[0];
    assert ToInt32(u[0]) * 32 == u[0] * 32;
  }

  /** The money bag U+1F4B0 is the code units 0xD83D and 0xDCB0. */
  lemma MoneyBagUnits()
    ensures Utf16(['\U{1F4B0}']) == [0xD83D, 0xDCB0]
  {
    assert ['\U{1F4B0}'][..0] == [];
  }

  // ---------------------------------------------------------------------
  // E-mail shape

  /** The pattern `^[^\s@]+@[^\s@]+\.[^\s@]+$`: a non-empty run before the
      `@` at `at`, a non-empty run between it and a `.` at `dot`, a non-empty
      run after that, and no white space or further `@` anywhere. */
  predicate MatchesAt(s: string, at: int, dot: int) {
    && 0 < at && at + 1 < dot < |s| - 1
    && s[at] == '@' && s[dot] == '.'
    && forall k :: 0 <= k < |s| && k != at ==> !IsWhitespace(s[k]) && s[k] != '@'
  }

  ghost predicate MatchesEmailPattern(s: string) {
    exists at, dot :: MatchesAt(s, at, dot)
  }

  /** The number of `@` characters in `s`. */
  function CountAt(s: string): (n: nat)
    ensures n <= |s|
    ensures n == multiset(s)['@']
  {
    if s == [] then 0
    else
      assert s == s[..|s| - 1] + [s[|s| - 1]];
      CountAt(s[..|s| - 1]) + (if s[|s| - 1] == '@' then 1 else 0)
  }

  /** The position of the first `@` in `s`, or -1. */
  function FirstAt(s: string, from: nat): (r: int)
    ensures r == -1 <==> forall k :: from <= k < |s| ==> s[k] != '@'
    ensures r != -1 ==> from <= r < |s| && s[r] == '@' && forall k :: from <= k < r ==> s[k] != '@'
    decreases |s| - from
  {
    if from >= |s| then -1 else if s[from] == '@' then from else FirstAt(s, from + 1)
  }

  /** `isValidEmail`, read as a check: no white space, a single `@` that is
      not the first character, and after the `@` a `.` that is neither the
      character right after it nor the last one. */
  predicate IsValidEmail(s: string) {
    var at := FirstAt(s, 0);
    && at > 0
    && FirstAt(s, at + 1) == -1
    && (forall k :: 0 <= k < |s| ==> !IsWhitespace(s[k]))
    && exists dot :: at + 1 < dot < |s| - 1 && s[dot] == '.'
  }

  lemma {:induction false} CountAtOne(s: string, at: int)
    requires 0 <= at < |s| && s[at] == '@'
    requires forall k :: 0 <= k < |s| && k != at ==> s[k] != '@'
    ensures CountAt(s) == 1
  {
    if |s| - 1 == at {
      CountAtNone(s[..|s| - 1]);
    } else {
      CountAtOne(s[..|s| - 1], at);
    }
  }

  lemma {:induction false} CountAtNone(s: string)
    requires forall k :: 0 <= k < |s| ==> s[k] != '@'
    ensures CountAt(s) == 0
  {
    if s != [] {
      CountAtNone(s[..|s| - 1]);
    }
  }

  /** The check accepts exactly the strings the pattern matches. */
  lemma EmailCheckMatchesPattern(s: string)
    ensures IsValidEmail(s) <==> MatchesEmailPattern(s)
  {
    if IsValidEmail(s) {
      var at := FirstAt(s, 0);
      var dot :| at + 1 < dot < |s| - 1 && s[dot] == '.';
      assert MatchesAt(s, at, dot);
    }
    if MatchesEmailPattern(s) {
      var at, dot :| MatchesAt(s, at, dot);
      assert FirstAt(s, 0) == at;
    }
  }

  /** A valid address holds exactly one `@`. */
  lemma ValidEmailHasOneAt(s: string)
    requires IsValidEmail(s)
    ensures CountAt(s) == 1
  {
    var at := FirstAt(s, 0);
    CountAtOne(s, at);
  }
}
