/** Decimal text of attempt counters: strconv.Itoa, strconv.Atoi and parseAttempts. */
module Decimal {

  datatype Option<+T> = None | Some(value: T)

  // Go's int on the supported 64-bit platforms.
  const MAX_INT: int := 0x7FFF_FFFF_FFFF_FFFF
  const MIN_INT: int := -0x8000_0000_0000_0000

  predicate IsDigit(c: char) {
    '0' <= c <= '9'
  }

  function DigitChar(d: nat): (c: char)
    requires d < 10
    ensures IsDigit(c) && DigitValue(c) == d
  {
    ('0' as int + d) as char
  }

  function DigitValue(c: char): nat
    requires IsDigit(c)
  {
    c as int - '0' as int
  }

  function FormatNat(n: nat): string {
    if n < 10 then [DigitChar(n)] else FormatNat(n / 10) + [DigitChar(n % 10)]
  }

  function Itoa(n: int): string {
    if n < 0 then "-" + FormatNat(-n) else FormatNat(n)
  }

  // A non-empty run of digits, read from the left.
  function ParseNat(s: string): Option<nat> {
    if s == [] || !IsDigit(s[|s| - 1]) then None
    else if |s| == 1 then Some(DigitValue(s[0]))
    else
      match ParseNat(s[..|s| - 1])
      case None => None
      case Some(high) => Some(high * 10 + DigitValue(s[|s| - 1]))
  }

  function Machine(n: int): Option<int> {
    if MIN_INT <= n <= MAX_INT then Some(n) else None
  }

  // One optional sign, then digits; a value outside the width of int is an error.
  function Atoi(s: string): Option<int> {
    if s == [] then None
    else
      var digits := if s[0] == '-' || s[0] == '+' then s[1..] else s;
      match ParseNat(digits)
      case None => None
      case Some(n) => var value: int := n; Machine(if s[0] == '-' then -value else value)
  }

  function ParseAttempts(value: string, fallback: int): int {
    if value == "" then fallback
    else
      match Atoi(value)
      case None => fallback
      case Some(parsed) => if parsed < 0 then fallback else parsed
  }

  lemma {:induction false} ParseFormatNat(n: nat)
    ensures FormatNat(n) != [] && IsDigit(FormatNat(n)[0])
    ensures ParseNat(FormatNat(n)) == Some(n)
  {
    if n >= 10 {
      ParseFormatNat(n / 10);
      var s := FormatNat(n);
      assert s[..|s| - 1] == FormatNat(n / 10);
      assert s[0] == FormatNat(n / 10)[0];
    }
  }

  /** strconv.Atoi undoes strconv.Itoa on every machine integer. */
  lemma AtoiItoa(n: int)
    ensures Atoi(Itoa(n)) == Machine(n)
  {
    if n < 0 {
      ParseFormatNat(-n);
      assert Itoa(n)[1..] == FormatNat(-n);
    } else {
      ParseFormatNat(n);
    }
  }

  ghost predicate AllDigits(s: string) {
    s != [] && forall i :: 0 <= i < |s| ==> IsDigit(s[i])
  }

  // An optional sign and at least one digit.
  ghost predicate IsNumeral(s: string) {
    AllDigits(s) || (s != [] && (s[0] == '-' || s[0] == '+') && AllDigits(s[1..]))
  }

  lemma {:induction false} ParsesDigits(s: string)
    ensures ParseNat(s).Some? <==> AllDigits(s)
  {
    if |s| > 1 {
      ParsesDigits(s[..|s| - 1]);
      if ParseNat(s).Some? {
        forall i | 0 <= i < |s| ensures IsDigit(s[i]) {
          assert i < |s| - 1 ==> s[i] == s[..|s| - 1][i];
        }
      }
    }
  }

  /** Text that is not an optional sign followed by digits reads as the fallback. */
  lemma UnreadableIsFallback(value: string, fallback: int)
    requires !IsNumeral(value)
    ensures ParseAttempts(value, fallback) == fallback
  {
    if value != [] {
      ParsesDigits(if value[0] == '-' || value[0] == '+' then value[1..] else value);
    }
  }

  /** What the queue writes is what the controller reads back: a counter round-trips exactly
      when it is a non-negative machine integer, and any other number reads as the fallback. */
  lemma ParseAttemptsOfItoa(n: int, fallback: int)
    ensures ParseAttempts(Itoa(n), fallback) == if 0 <= n <= MAX_INT then n else fallback
  {
    AtoiItoa(n);
    if n < 0 {
      assert Itoa(n) != "";
    } else {
      ParseFormatNat(n);
    }
  }
}
