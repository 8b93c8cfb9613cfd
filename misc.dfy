// strIsUint from the firmware's miscellaneous helpers: is a String a run of
// decimal digits?  The loop index there is a uint8_t, so it wraps after 255.
module Misc {
  import opened ArduinoString

  /** The character test of the loop: '-' or anything outside '0'..'9'. */
  predicate Rejected(c: char)
  {
    c == '-' || c < '0' || c > '9'
  }

  /** Index of the first rejected character among the first n, or n. */
  function FirstRejected(s: string, n: nat): (k: nat)
    requires n <= |s|
    ensures k <= n
    ensures k < n ==> Rejected(s[k])
    ensures forall j :: 0 <= j < k ==> !Rejected(s[j])
  {
    if n == 0 then 0
    else if FirstRejected(s, n - 1) < n - 1 then FirstRejected(s, n - 1)
    else if Rejected(s[n - 1]) then n - 1 else n
  }

  /** What strIsUint returns, for every length: None when it never returns.
      The uint8_t index visits characters 0..255 and then wraps to 0, so a
      string longer than 255 whose first 256 characters are all digits keeps
      the loop running forever. */
  function StrIsUintResult(s: string): (r: Option<bool>)
    ensures |s| <= 255 ==> r.Some?
  {
    if |s| == 0 then Some(false)
    else
      var n := if |s| <= 256 then |s| else 256;
      if FirstRejected(s, n) < n then Some(false)
      else if |s| <= 255 then Some(true)
      else None
  }

  /** strIsUint, for strings its uint8_t index can cover. */
  method StrIsUint(intStr: string) returns (r: bool)
    requires |intStr| <= 255
    ensures StrIsUintResult(intStr) == Some(r)
  {
    if |intStr| == 0 {
      return false;
    }
    var i: nat := 0;
    while i < |intStr|
      invariant i <= |intStr|
      invariant FirstRejected(intStr, i) == i
    {
      var c := CharAt(intStr, i);
      if c == '-' || c < '0' || c > '9' {
        assert FirstRejected(intStr, i + 1) == i;
        FirstRejectedMonotone(intStr, i + 1, |intStr|);
        return false;
      }
      i := i + 1;
    }
    return true;
  }

  /** Once a rejected character is found among the first n, looking further
      finds the same one. */
  lemma {:induction false} FirstRejectedMonotone(s: string, n: nat, m: nat)
    requires n <= m <= |s| && FirstRejected(s, n) < n
    ensures FirstRejected(s, m) == FirstRejected(s, n)
  {
    if m > n {
      FirstRejectedMonotone(s, n, m - 1);
    }
  }

  /** strIsUint is true exactly for non-empty strings of decimal digits (of
      at most 255 characters). */
  lemma StrIsUintDigits(s: string)
    requires |s| <= 255
    ensures StrIsUintResult(s) == Some(true) <==> |s| > 0 && forall j :: 0 <= j < |s| ==> IsDigit(s[j])
  {
    if |s| > 0 && FirstRejected(s, |s|) < |s| {
      var k := FirstRejected(s, |s|);
      assert !IsDigit(s[k]);
    }
  }

  /** The empty string, and anything with a sign in front, is not a uint. */
  lemma StrIsUintRejectsSign(s: string)
    ensures StrIsUintResult("") == Some(false)
    ensures |s| > 0 && (s[0] == '-' || s[0] == '+') ==> StrIsUintResult(s) == Some(false)
  {
    if |s| > 0 && (s[0] == '-' || s[0] == '+') {
      var n := if |s| <= 256 then |s| else 256;
      FirstRejectedMonotone(s, 1, n);
    }
  }
}
