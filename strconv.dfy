/** Go's `strconv.Atoi` on a 64-bit platform, the only number parser the
    wrappers use (for the `Content-Length` header and the redis database
    index), with `strconv.FormatInt` as its inverse. */
module Strconv {

  const MaxInt64: int := 0x7FFF_FFFF_FFFF_FFFF
  const MinInt64: int := -0x8000_0000_0000_0000

  predicate IsDigit(c: char) {
    '0' <= c <= '9'
  }

  predicate AllDigits(s: string) {
    forall i :: 0 <= i < |s| ==> IsDigit(s[i])
  }

  /** A non-empty run of decimal digits. */
  predicate IsDecimal(s: string) {
    |s| > 0 && AllDigits(s)
  }

  /** The value of a run of decimal digits, most significant first. */
  function DecimalValue(s: string): nat
    requires AllDigits(s)
    decreases |s|
  {
    if s == [] then 0
    else 10 * DecimalValue(s[..|s| - 1]) + (s[|s| - 1] as int - '0' as int)
  }

  predicate HasSign(s: string) {
    |s| > 0 && (s[0] == '+' || s[0] == '-')
  }

  /** `s` without its leading sign, if it has one. */
  function Magnitude(s: string): string {
    if HasSign(s) then s[1..] else s
  }

  const MaxUint64: int := 0xFFFF_FFFF_FFFF_FFFF

  /** How `ParseUint` ends: with a value, a syntax error, or a range error. */
  datatype Scan = Scanned(value: nat) | SyntaxError | RangeError

  /** The loop of `ParseUint(s, 10, 64)` from position `i`, `acc` holding the
      value read so far: a non-digit stops it with a syntax error, and a digit
      that takes the value past the uint64 range stops it with a range error,
      without looking at what follows. */
  function ScanFrom(s: string, i: nat, acc: nat): Scan
    requires i <= |s|
    decreases |s| - i
  {
    if i == |s| then Scanned(acc)
    else if !IsDigit(s[i]) then SyntaxError
    else
      var next := 10 * acc + (s[i] as int - '0' as int);
      if next > MaxUint64 then RangeError else ScanFrom(s, i + 1, next)
  }

  /** `ParseUint(s, 10, 64)`; the empty string is a syntax error. */
  function ScanUint(s: string): Scan {
    if s == [] then SyntaxError else ScanFrom(s, 0, 0)
  }

  /** Text `Atoi` rejects with a syntax error. */
  predicate Unparsable(s: string) {
    ScanUint(Magnitude(s)).SyntaxError?
  }

  /** Out-of-range values saturate at the int64 bounds, as `ParseInt` does
      when it reports `ErrRange`. */
  function Clamp(v: int): (r: int)
    ensures MinInt64 <= r <= MaxInt64
    ensures MinInt64 <= v <= MaxInt64 ==> r == v
    ensures v > MaxInt64 ==> r == MaxInt64
    ensures v < MinInt64 ==> r == MinInt64
  {
    if v > MaxInt64 then MaxInt64 else if v < MinInt64 then MinInt64 else v
  }

  /** The value `n, _ := strconv.Atoi(s)` leaves in `n`: the error is dropped by
      every caller, so a syntax error reads as 0 and an overflow as the
      saturated bound of the sign. */
  function Atoi(s: string): (n: int)
    ensures MinInt64 <= n <= MaxInt64
    ensures Unparsable(s) ==> n == 0
    ensures ScanUint(Magnitude(s)).RangeError? ==> n == if s[0] == '-' then MinInt64 else MaxInt64
    ensures n < 0 ==> s[0] == '-'
  {
    match ScanUint(Magnitude(s))
    case SyntaxError => 0
    case RangeError => if s[0] == '-' then MinInt64 else MaxInt64
    case Scanned(m) =>
      var v: int := m;
      Clamp(if s[0] == '-' then -v else v)
  }

  /** Prefixes of a digit run never have a larger value than the run. */
  lemma {:induction false} PrefixValueBounded(s: string, i: nat)
    requires AllDigits(s) && i <= |s|
    ensures DecimalValue(s[..i]) <= DecimalValue(s)
    decreases |s| - i
  {
    if i < |s| {
      PrefixValueBounded(s, i + 1);
      assert s[..i + 1][..i] == s[..i];
    } else {
      assert s[..i] == s;
    }
  }

  lemma {:induction false} ScanDigitsFrom(s: string, i: nat)
    requires AllDigits(s) && i <= |s| && DecimalValue(s) <= MaxUint64
    ensures ScanFrom(s, i, DecimalValue(s[..i])) == Scanned(DecimalValue(s))
    decreases |s| - i
  {
    if i == |s| {
      assert s[..i] == s;
    } else {
      assert s[..i + 1][..i] == s[..i];
      PrefixValueBounded(s, i + 1);
      ScanDigitsFrom(s, i + 1);
    }
  }

  /** A digit run within the uint64 range scans to its value. */
  lemma ScanDecimal(s: string)
    requires IsDecimal(s) && DecimalValue(s) <= MaxUint64
    ensures ScanUint(s) == Scanned(DecimalValue(s))
  {
    ScanDigitsFrom(s, 0);
  }

  lemma {:induction false} ScanOverflowFrom(p: string, rest: string, i: nat)
    requires AllDigits(p) && DecimalValue(p) > MaxUint64 && i < |p|
    requires DecimalValue(p[..i]) <= MaxUint64
    ensures ScanFrom(p + rest, i, DecimalValue(p[..i])) == RangeError
    decreases |p| - i
  {
    var s := p + rest;
    assert s[i] == p[i];
    assert p[..i + 1][..i] == p[..i];
    if i + 1 == |p| {
      assert p[..i + 1] == p;
    } else if DecimalValue(p[..i + 1]) <= MaxUint64 {
      ScanOverflowFrom(p, rest, i + 1);
    }
  }

  /** Once the digits read overflow uint64 the scan stops with a range error,
      whatever follows them. */
  lemma ScanOverflow(p: string, rest: string)
    requires AllDigits(p) && DecimalValue(p) > MaxUint64
    ensures ScanUint(p + rest) == RangeError
  {
    assert p != [];
    ScanOverflowFrom(p, rest, 0);
  }

  lemma {:induction false} ScanJunkFrom(p: string, c: char, rest: string, i: nat)
    requires AllDigits(p) && DecimalValue(p) <= MaxUint64 && !IsDigit(c) && i <= |p|
    ensures ScanFrom(p + [c] + rest, i, DecimalValue(p[..i])) == SyntaxError
    decreases |p| - i
  {
    var s := p + [c] + rest;
    if i == |p| {
      assert s[i] == c;
    } else {
      assert s[i] == p[i];
      assert p[..i + 1][..i] == p[..i];
      PrefixValueBounded(p, i + 1);
      ScanJunkFrom(p, c, rest, i + 1);
    }
  }

  /** A non-digit met before the digits overflow is a syntax error. */
  lemma ScanJunk(p: string, c: char, rest: string)
    requires AllDigits(p) && DecimalValue(p) <= MaxUint64 && !IsDigit(c)
    ensures ScanUint(p + [c] + rest) == SyntaxError
  {
    assert p[..0] == [];
    ScanJunkFrom(p, c, rest, 0);
  }

  function DigitChar(d: nat): (c: char)
    requires d < 10
    ensures IsDigit(c) && c as int - '0' as int == d
  {
    ('0' as int + d) as char
  }

  /** The decimal digits of `n`, without leading zeros. */
  function FormatNat(n: nat): string
    decreases n
  {
    if n < 10 then [DigitChar(n)] else FormatNat(n / 10) + [DigitChar(n % 10)]
  }

  /** `strconv.FormatInt(n, 10)`. */
  function FormatInt(n: int): string {
    if n < 0 then "-" + FormatNat(-n) else FormatNat(n)
  }

  lemma {:induction false} FormatNatIsDecimal(n: nat)
    ensures IsDecimal(FormatNat(n))
    ensures DecimalValue(FormatNat(n)) == n
    decreases n
  {
    if n >= 10 {
      FormatNatIsDecimal(n / 10);
      var s := FormatNat(n);
      assert s[..|s| - 1] == FormatNat(n / 10);
    }
  }

  /** `Atoi` reads back every int64 that `FormatInt` writes. */
  lemma AtoiFormatInt(n: int)
    requires MinInt64 <= n <= MaxInt64
    ensures Atoi(FormatInt(n)) == n
  {
    var s := FormatInt(n);
    if n < 0 {
      FormatNatIsDecimal(-n);
      assert s[1..] == FormatNat(-n);
      ScanDecimal(FormatNat(-n));
    } else {
      FormatNatIsDecimal(n);
      assert !HasSign(s);
      ScanDecimal(FormatNat(n));
    }
  }

  /** Digits above the int64 range saturate instead of wrapping. */
  lemma AtoiSaturates(s: string)
    requires IsDecimal(s) && DecimalValue(s) > MaxInt64
    ensures Atoi(s) == MaxInt64
  {
    assert !HasSign(s) by { assert IsDigit(s[0]); }
    if DecimalValue(s) <= MaxUint64 {
      ScanDecimal(s);
    } else {
      ScanOverflow(s, []);
      assert s + [] == s;
    }
  }

  /** Digits that overflow uint64 saturate even when junk follows them: the
      scan never reaches it. */
  lemma AtoiOverflowIgnoresRest(p: string, rest: string)
    requires IsDecimal(p) && DecimalValue(p) > MaxUint64
    ensures Atoi(p + rest) == MaxInt64
  {
    var s := p + rest;
    assert !HasSign(s) by { assert s[0] == p[0] && IsDigit(p[0]); }
    ScanOverflow(p, rest);
  }

  /** Junk after digits that fit reads as 0. */
  lemma AtoiJunkIsZero(p: string, c: char, rest: string)
    requires IsDecimal(p) && DecimalValue(p) <= MaxUint64 && !IsDigit(c)
    ensures Atoi(p + [c] + rest) == 0
  {
    var s := p + [c] + rest;
    assert !HasSign(s) by { assert s[0] == p[0] && IsDigit(p[0]); }
    ScanJunk(p, c, rest);
  }

  /** Digits above the int64 range after a minus saturate at the int64
      minimum, whether they overflow uint64 or not. */
  lemma AtoiSaturatesNegative(d: string)
    requires IsDecimal(d) && DecimalValue(d) > -MinInt64
    ensures Atoi("-" + d) == MinInt64
  {
    var s := "-" + d;
    assert HasSign(s) && s[1..] == d;
    if DecimalValue(d) <= MaxUint64 {
      ScanDecimal(d);
    } else {
      ScanOverflow(d, []);
      assert d + [] == d;
    }
  }
}
