// The parts of the Arduino `String` class and of the C library that the
// firmware's parsers rely on, with their edge cases written out: `substring`
// swaps reversed bounds and clamps the end, `charAt` past the end gives NUL,
// `trim` strips the characters `isspace` accepts, `toLowerCase` folds ASCII
// only, `toInt` is `atol`, and `strtol` saturates at the bounds of a 32-bit
// `long`.
//
// A `char` stands for one byte of an Arduino `String`, a value 0..255:
// lengths, limits and positions count bytes, as the firmware's do.  Text
// whose characters take several bytes in UTF-8 is outside the model.
module ArduinoString {
  import opened Ints

  datatype Option<T> = None | Some(value: T)

  const NUL: char := 0 as char

  predicate IsSpace(c: char)
  {
    c == ' ' || c == '\t' || c == '\n' || c == '\r' || c == 11 as char || c == 12 as char
  }

  predicate IsDigit(c: char) { '0' <= c <= '9' }

  predicate IsDigitIn(c: char, base: int)
    requires base == 10 || base == 16
  {
    IsDigit(c) || (base == 16 && ('a' <= c <= 'f' || 'A' <= c <= 'F'))
  }

  function DigitValue(c: char): (v: nat)
    ensures IsDigit(c) ==> v < 10
    ensures IsDigitIn(c, 16) ==> v < 16
  {
    if IsDigit(c) then c as int - '0' as int
    else if 'a' <= c <= 'f' then c as int - 'a' as int + 10
    else if 'A' <= c <= 'F' then c as int - 'A' as int + 10
    else 0
  }

  /** `tolower` in the C locale: only 'A'..'Z' change. */
  function ToLowerChar(c: char): char
  {
    if 'A' <= c <= 'Z' then (c as int + 32) as char else c
  }

  /** `String::toLowerCase`. */
  function ToLower(s: string): (r: string)
    ensures |r| == |s|
    ensures forall i :: 0 <= i < |s| ==> r[i] == ToLowerChar(s[i])
  {
    seq(|s|, i requires 0 <= i < |s| => ToLowerChar(s[i]))
  }

  /** `String::charAt`: NUL at and past the end. */
  function CharAt(s: string, i: int): char
  {
    if 0 <= i < |s| then s[i] else NUL
  }

  function TrimStart(s: string): (r: string)
    ensures |r| <= |s| && r == s[|s| - |r|..]
    ensures r == [] || !IsSpace(r[0])
    ensures forall i :: 0 <= i < |s| - |r| ==> IsSpace(s[i])
  {
    if |s| > 0 && IsSpace(s[0]) then TrimStart(s[1..]) else s
  }

  function TrimEnd(s: string): (r: string)
    ensures |r| <= |s| && r == s[..|r|]
    ensures r == [] || !IsSpace(r[|r| - 1])
    ensures forall i :: |r| <= i < |s| ==> IsSpace(s[i])
  {
    if |s| > 0 && IsSpace(s[|s| - 1]) then TrimEnd(s[..|s| - 1]) else s
  }

  /** `String::trim`: strips leading and trailing white space. */
  function Trim(s: string): string
  {
    TrimEnd(TrimStart(s))
  }

  /** `String::substring(left, right)`: reversed bounds are swapped, a start at
      or past the end gives "", and the end is clamped to the length. */
  function Substring(s: string, left: nat, right: nat): (r: string)
    ensures |r| <= |s|
  {
    var lo := Min(left, right);
    var hi := Max(left, right);
    if lo >= |s| then [] else s[lo..Min(hi, |s|)]
  }

  /** `String::substring(left)`. */
  function SubstringFrom(s: string, left: nat): string
  {
    Substring(s, left, |s|)
  }

  /** `s.substring(0, n)` with n the length limit the firmware truncates to. */
  function Truncate(s: string, n: nat): (r: string)
    ensures |r| <= n && |r| <= |s|
    ensures r == s[..|r|]
    ensures |s| <= n ==> r == s
  {
    Substring(s, 0, n)
  }

  predicate OccursAt(s: string, pat: string, i: nat)
  {
    i + |pat| <= |s| && s[i..i + |pat|] == pat
  }

  function FirstOccurrence(s: string, pat: string, from: nat): (r: int)
    requires from <= |s|
    ensures r == -1 || (from <= r && OccursAt(s, pat, r))
    ensures forall i :: from <= i && (r == -1 || i < r) ==> !OccursAt(s, pat, i)
    decreases |s| - from
  {
    if OccursAt(s, pat, from) then from
    else if from + |pat| >= |s| then
      assert forall i :: from < i ==> !OccursAt(s, pat, i);
      -1
    else FirstOccurrence(s, pat, from + 1)
  }

  /** `String::indexOf(pat)`: -1 on an empty receiver, otherwise the first
      position where `pat` occurs, or -1. */
  function IndexOf(s: string, pat: string): (r: int)
    ensures r == -1 || (0 <= r && OccursAt(s, pat, r))
    ensures forall i :: 0 <= i && (r == -1 || i < r) && |s| > 0 ==> !OccursAt(s, pat, i)
  {
    if |s| == 0 then -1 else FirstOccurrence(s, pat, 0)
  }

  predicate StartsWith(s: string, pre: string) { |pre| <= |s| && s[..|pre|] == pre }

  predicate EndsWith(s: string, suf: string) { |suf| <= |s| && s[|s| - |suf|..] == suf }

  // ---------------------------------------------------------------------------
  // Number parsing and formatting

  /** Value of a string of digits, most significant first. */
  function DigitsValue(d: string, base: int): nat
    requires base == 10 || base == 16
  {
    if |d| == 0 then 0 else DigitsValue(d[..|d| - 1], base) * base + DigitValue(d[|d| - 1])
  }

  /** Length of the run of digits at the start of `s`. */
  function DigitRun(s: string, base: int): (n: nat)
    requires base == 10 || base == 16
    ensures n <= |s|
    ensures forall i :: 0 <= i < n ==> IsDigitIn(s[i], base)
    ensures n < |s| ==> !IsDigitIn(s[n], base)
  {
    if |s| == 0 || !IsDigitIn(s[0], base) then 0 else 1 + DigitRun(s[1..], base)
  }

  /** A 32-bit `long` result: out-of-range values saturate, as strtol does. */
  function Saturate(v: int): (r: int32)
    ensures -0x8000_0000 <= v < 0x8000_0000 ==> r == v
  {
    if v > 0x7FFF_FFFF then 0x7FFF_FFFF else if v < -0x8000_0000 then -0x8000_0000 else v
  }

  /** The value of the digits at the front of `w`, up to the first
      character that is not a digit in `base`. */
  function LeadingValue(w: string, base: int): nat
    requires base == 10 || base == 16
  {
    DigitsValue(w[..DigitRun(w, base)], base)
  }

  /** For base 16, a "0x" or "0X" in front of the digits is skipped. */
  function SkipHexPrefix(u: string, base: int): string
  {
    if base == 16 && |u| >= 2 && u[0] == '0' && (u[1] == 'x' || u[1] == 'X') then u[2..] else u
  }

  /** C `strtol(s, NULL, base)` for base 10 or 16: leading white space, an
      optional sign, for base 16 an optional "0x"/"0X", then digits. */
  function Strtol(s: string, base: int): int32
    requires base == 10 || base == 16
  {
    var t := TrimStart(s);
    var neg := |t| > 0 && t[0] == '-';
    var u := if |t| > 0 && (t[0] == '-' || t[0] == '+') then t[1..] else t;
    var v: int := LeadingValue(SkipHexPrefix(u, base), base);
    Saturate(if neg then -v else v)
  }

  /** `String::toInt`, which is `atol`. */
  function ToInt(s: string): int32
  {
    Strtol(s, 10)
  }

  function DigitChar(d: nat): (c: char)
    requires d < 16
    ensures IsDigitIn(c, 16) && DigitValue(c) == d
    ensures d < 10 ==> IsDigit(c)
  {
    if d < 10 then ('0' as int + d) as char else ('a' as int + d - 10) as char
  }

  /** `String(n)` for an unsigned value: decimal, no leading zeros. */
  function DecString(n: nat): (r: string)
    ensures |r| > 0 && !IsSpace(r[0]) && r[0] != '-' && r[0] != '+'
    ensures forall i :: 0 <= i < |r| ==> IsDigit(r[i])
  {
    if n < 10 then [DigitChar(n)] else DecString(n / 10) + [DigitChar(n % 10)]
  }

  /** `%02u` of a value below 100: two decimal digits. */
  function Pad2(n: nat): (r: string)
    requires n < 100
  {
    [DigitChar(n / 10), DigitChar(n % 10)]
  }

  /** `String(n, HEX)`: lowercase hexadecimal, no leading zeros. */
  function HexString(n: nat): (r: string)
    ensures |r| > 0
    ensures forall i :: 0 <= i < |r| ==> IsDigitIn(r[i], 16) && !('A' <= r[i] <= 'Z')
  {
    if n < 16 then [DigitChar(n)] else HexString(n / 16) + [DigitChar(n % 16)]
  }

  lemma {:induction false} DigitRunAll(s: string, base: int)
    requires base == 10 || base == 16
    requires forall i :: 0 <= i < |s| ==> IsDigitIn(s[i], base)
    ensures DigitRun(s, base) == |s|
  {
    if |s| > 0 {
      DigitRunAll(s[1..], base);
    }
  }

  lemma {:induction false} DecStringValue(n: nat)
    ensures DigitsValue(DecString(n), 10) == n
  {
    if n >= 10 {
      var d := DecString(n / 10) + [DigitChar(n % 10)];
      assert d[..|d| - 1] == DecString(n / 10);
      DecStringValue(n / 10);
    }
  }

  lemma {:induction false} HexStringValue(n: nat)
    ensures DigitsValue(HexString(n), 16) == n
  {
    if n >= 16 {
      var d := HexString(n / 16) + [DigitChar(n % 16)];
      assert d[..|d| - 1] == HexString(n / 16);
      HexStringValue(n / 16);
    }
  }

  /** strtol of a plain run of digits is the value of those digits. */
  lemma StrtolDigits(s: string, base: int)
    requires base == 10 || base == 16
    requires |s| > 0 && forall i :: 0 <= i < |s| ==> IsDigitIn(s[i], base)
    requires base == 16 && |s| >= 2 ==> s[0] != '0'
    ensures Strtol(s, base) == Saturate(DigitsValue(s, base))
  {
    assert !IsSpace(s[0]) && s[0] != '-' && s[0] != '+';
    assert TrimStart(s) == s;
    DigitRunAll(s, base);
    assert s[..|s|] == s;
  }

  /** Parsing what `String(n)` printed gives `n` back, for every n a long holds. */
  lemma DecStringRoundTrip(n: nat)
    requires n <= 0x7FFF_FFFF
    ensures ToInt(DecString(n)) == n
  {
    StrtolDigits(DecString(n), 10);
    DecStringValue(n);
  }

  /** strtol in base 16 skips a "0x" in front of a run of hex digits. */
  lemma StrtolHexPrefixed(s: string)
    requires |s| > 0 && forall i :: 0 <= i < |s| ==> IsDigitIn(s[i], 16)
    ensures Strtol("0x" + s, 16) == Saturate(DigitsValue(s, 16))
  {
    var p := "0x" + s;
    assert |p| >= 2 && p[0] == '0' && p[1] == 'x';
    assert !IsSpace(p[0]);
    assert TrimStart(p) == p;
    assert p[2..] == s;
    assert SkipHexPrefix(p, 16) == s;
    DigitRunAll(s, 16);
    assert s[..|s|] == s;
  }

  /** Parsing what `String(n, HEX)` printed, in base 16, gives `n` back, with
      or without a "0x" in front. */
  lemma HexStringRoundTrip(n: nat)
    requires n <= 0x7FFF_FFFF
    ensures Strtol(HexString(n), 16) == n
    ensures Strtol("0x" + HexString(n), 16) == n
  {
    HexStringNoLeadingZero(n);
    StrtolDigits(HexString(n), 16);
    StrtolHexPrefixed(HexString(n));
    HexStringValue(n);
  }

  lemma {:induction false} HexStringNoLeadingZero(n: nat)
    ensures |HexString(n)| >= 2 ==> HexString(n)[0] != '0'
  {
    if n >= 16 {
      HexStringNoLeadingZero(n / 16);
      var h := HexString(n / 16);
      if |h| == 1 {
        assert n / 16 < 16 && n / 16 != 0;
      }
    }
  }

  /** Trimming is idempotent. */
  lemma TrimIdempotent(s: string)
    ensures Trim(Trim(s)) == Trim(s)
  {
    var t := Trim(s);
    if |t| > 0 {
      assert TrimStart(t) == t;
      assert TrimEnd(t) == t;
    }
  }
}
