// The HTTP controller's argument handling: percent-decoding of a request
// argument (section 2.1 of RFC 3986, with '+' read as a space as HTML form
// encoding does) and getCommandArg, which cuts the argument out of a request
// line, decodes it, trims it and limits its length.
module WebServer {
  import opened Ints
  import opened ArduinoString

  /** urlDecodeHex: the value of one hex digit, either case; any other
      character counts as 0. */
  function UrlDecodeHex(c: char): (r: uint8)
    ensures r < 16
    ensures IsDigit(c) ==> r as int == c as int - '0' as int
    ensures 'a' <= c <= 'f' ==> r as int == c as int - 'a' as int + 10
    ensures 'A' <= c <= 'F' ==> r as int == c as int - 'A' as int + 10
    ensures !IsDigitIn(c, 16) ==> r == 0
  {
    if '0' <= c <= '9' then (c as int - '0' as int) as uint8
    else if 'a' <= c <= 'f' then (c as int - 'a' as int + 10) as uint8
    else if 'A' <= c <= 'F' then (c as int - 'A' as int + 10) as uint8
    else 0
  }

  /** urlDecodeHex agrees with the digit value strtol uses, on every
      character. */
  lemma UrlDecodeHexIsDigitValue(c: char)
    ensures UrlDecodeHex(c) as int == if IsDigitIn(c, 16) then DigitValue(c) else 0
  {
  }

  /** The uppercase hex digit of a nibble. */
  function HexUpper(d: nat): (c: char)
    requires d < 16
  {
    if d < 10 then ('0' as int + d) as char else ('A' as int + d - 10) as char
  }

  /** Both the lowercase and the uppercase digit decode to the nibble. */
  lemma UrlDecodeHexRoundTrip(d: nat)
    requires d < 16
    ensures UrlDecodeHex(HexUpper(d)) as int == d
    ensures UrlDecodeHex(DigitChar(d)) as int == d
  {
  }

  /** The character "%XY" stands for: (urlDecodeHex(X) << 4) | urlDecodeHex(Y). */
  function Escaped(code0: char, code1: char): (c: char)
    ensures c as int < 0x100
  {
    (UrlDecodeHex(code0) as int * 16 + UrlDecodeHex(code1) as int) as char
  }

  /** The shift and OR of the source touch disjoint bits, so they add. */
  lemma EscapedIsOr(code0: char, code1: char)
    ensures Escaped(code0, code1) as int == OrBits(UrlDecodeHex(code0) as int * 16, UrlDecodeHex(code1) as int)
  {
    assert Pow2(4) == 16 by {
      assert Pow2(2) == 4;
    }
    OrMultiple(UrlDecodeHex(code0) as int, 4, UrlDecodeHex(code1) as int);
  }

  /** What urlDecode returns: "%XY" gives one character (a '%' near the end
      reads NUL for the missing digits), '+' gives a space, and every other
      character is copied.  The result is never longer than the input. */
  function UrlDecoded(s: string): (r: string)
    ensures |r| <= |s|
    decreases |s|
  {
    if |s| == 0 then []
    else if s[0] == '%' then [Escaped(CharAt(s, 1), CharAt(s, 2))] + UrlDecoded(s[Min(3, |s|)..])
    else if s[0] == '+' then [' '] + UrlDecoded(s[1..])
    else [s[0]] + UrlDecoded(s[1..])
  }

  /** urlDecode. */
  method UrlDecode(urlStr: string) returns (encodeStr: string)
    ensures encodeStr == UrlDecoded(urlStr)
  {
    encodeStr := "";
    var i := 0;
    while i < |urlStr|
      invariant 0 <= i <= |urlStr| + 2
      invariant encodeStr + UrlDecoded(urlStr[Min(i, |urlStr|)..]) == UrlDecoded(urlStr)
      decreases |urlStr| - i
    {
      UrlDecodedAt(urlStr, i);
      ghost var before := encodeStr;
      var c := CharAt(urlStr, i);
      if c == '%' {
        i := i + 1;
        var code0 := CharAt(urlStr, i);
        i := i + 1;
        var code1 := CharAt(urlStr, i);
        c := Escaped(code0, code1);
        encodeStr := encodeStr + [c];
      } else if c == '+' {
        encodeStr := encodeStr + [' '];
      } else {
        encodeStr := encodeStr + [c];
      }
      i := i + 1;
      ConcatAssoc(before, [encodeStr[|encodeStr| - 1]], UrlDecoded(urlStr[Min(i, |urlStr|)..]));
    }
    assert urlStr[Min(i, |urlStr|)..] == [];
  }

  lemma ConcatAssoc(a: string, b: string, c: string)
    ensures (a + b) + c == a + (b + c)
  {
  }

  /** One step of the decoding, at position i. */
  lemma UrlDecodedAt(s: string, i: nat)
    requires i < |s|
    ensures s[i] == '%' ==> UrlDecoded(s[i..]) == [Escaped(CharAt(s, i + 1), CharAt(s, i + 2))] + UrlDecoded(s[Min(i + 3, |s|)..])
    ensures s[i] == '+' ==> UrlDecoded(s[i..]) == [' '] + UrlDecoded(s[i + 1..])
    ensures s[i] != '%' && s[i] != '+' ==> UrlDecoded(s[i..]) == [s[i]] + UrlDecoded(s[i + 1..])
  {
    var rest := s[i..];
    assert CharAt(rest, 1) == CharAt(s, i + 1) && CharAt(rest, 2) == CharAt(s, i + 2);
    assert rest[Min(3, |rest|)..] == s[Min(i + 3, |s|)..];
    assert rest[1..] == s[i + 1..];
  }

  /** A string without '%' decodes character by character: '+' becomes a
      space and everything else is kept. */
  lemma {:induction false} UrlDecodedPlain(s: string)
    requires forall j :: 0 <= j < |s| ==> s[j] != '%'
    ensures |UrlDecoded(s)| == |s|
    ensures forall j :: 0 <= j < |s| ==> UrlDecoded(s)[j] == if s[j] == '+' then ' ' else s[j]
  {
    if |s| > 0 {
      UrlDecodedPlain(s[1..]);
    }
  }

  /** The uppercase %-encoding of a character below 0x100. */
  function PercentEncoded(c: char): (r: string)
    requires c as int < 0x100
    ensures |r| == 3 && r[0] == '%'
  {
    ['%', HexUpper(c as int / 16), HexUpper(c as int % 16)]
  }

  /** Every character of a string %-encoded, one after the other. */
  function PercentEncodedAll(s: string): (r: string)
    requires forall j :: 0 <= j < |s| ==> s[j] as int < 0x100
    ensures |r| == 3 * |s|
  {
    if |s| == 0 then [] else PercentEncoded(s[0]) + PercentEncodedAll(s[1..])
  }

  /** Decoding the %-encoding of a byte gives the byte back, whatever
      follows it. */
  lemma PercentRoundTrip(c: char, rest: string)
    requires c as int < 0x100
    ensures UrlDecoded(PercentEncoded(c) + rest) == [c] + UrlDecoded(rest)
  {
    var e := PercentEncoded(c);
    var all := e + rest;
    UrlDecodeHexRoundTrip(c as int / 16);
    UrlDecodeHexRoundTrip(c as int % 16);
    assert CharAt(all, 1) == e[1] && CharAt(all, 2) == e[2];
    assert all[Min(3, |all|)..] == rest;
  }

  /** Decoding the %-encoding of a whole string gives the string back. */
  lemma {:induction false} PercentRoundTripAll(s: string)
    requires forall j :: 0 <= j < |s| ==> s[j] as int < 0x100
    ensures UrlDecoded(PercentEncodedAll(s)) == s
  {
    if |s| > 0 {
      PercentRoundTrip(s[0], PercentEncodedAll(s[1..]));
      PercentRoundTripAll(s[1..]);
    }
  }

  /** The marker that ends a command's argument on the request line. */
  const HTTP_CMD_END_STR: string := "http/"

  /** Where the argument ends: at "http/" (in any case) or at the end of the
      request. */
  function ArgStop(requestStr: string): (r: int)
    ensures 0 <= r <= |requestStr|
  {
    var argStop := IndexOf(ToLower(requestStr), HTTP_CMD_END_STR);
    if argStop < 0 then |requestStr| else argStop
  }

  /** requestStr.substring(argStart + 1, argStop - 1), both bounds passed as
      unsigned int. */
  function RawArg(requestStr: string, argStart: nat): string
  {
    Substring(requestStr, argStart + 1, ToU32(ArgStop(requestStr) - 1))
  }

  /** What getCommandArg leaves behind: its result and the new requestStr. */
  datatype ArgResult = ArgResult(result: int, requestStr: string)

  /** The decoded and trimmed argument of a request with an '='. */
  function DecodedArg(requestStr: string): string
    requires IndexOf(requestStr, "=") >= 0
  {
    Trim(UrlDecoded(RawArg(requestStr, IndexOf(requestStr, "="))))
  }

  /** getCommandArg(requestStr, maxSize): the argument after the first '=' is
      decoded, trimmed, cut to maxSize and trimmed again; it replaces
      requestStr and its length, at most maxSize, is returned.  Without an
      '=', requestStr is cleared and -1 returned; an argument that is empty
      after decoding and trimming returns -1 and leaves requestStr as it was. */
  function GetCommandArg(requestStr: string, maxSize: uint8): (r: ArgResult)
    ensures IndexOf(requestStr, "=") < 0 ==> r == ArgResult(-1, "")
    ensures IndexOf(requestStr, "=") >= 0 && DecodedArg(requestStr) == [] ==> r == ArgResult(-1, requestStr)
    ensures IndexOf(requestStr, "=") >= 0 && DecodedArg(requestStr) != [] ==>
      && r.requestStr == Trim(Truncate(DecodedArg(requestStr), maxSize as nat))
      && r.result == |r.requestStr| <= maxSize as int
      && Trim(r.requestStr) == r.requestStr
  {
    var argStart := IndexOf(requestStr, "=");
    if argStart < 0 then ArgResult(-1, "")
    else
      var argStr := DecodedArg(requestStr);
      if |argStr| > maxSize as int then
        var cut := Trim(Substring(argStr, 0, maxSize as nat));
        TrimIdempotent(Substring(argStr, 0, maxSize as nat));
        ArgResult(|cut|, cut)
      else if |argStr| == 0 then ArgResult(-1, requestStr)
      else
        var same := Trim(argStr);
        TrimIdempotent(argStr);
        ArgResult(|same|, same)
  }
}
