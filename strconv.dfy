/** The two pieces of Go's `strconv`/`fmt` that the retry loop relies on:
    `strconv.Atoi` (read the `retry` query parameter) and `%d` (write it back
    into the redirect URL). Go's `int` is 64 bits wide here. */
module Strconv {

  const MaxInt64: int := 0x7fff_ffff_ffff_ffff
  const MinInt64: int := -0x8000_0000_0000_0000
  const MaxUint64: int := 0xffff_ffff_ffff_ffff
  /** `ParseUint`'s overflow cutoff for base 10: `maxUint64/10 + 1`. */
  const Cutoff: int := MaxUint64 / 10 + 1

  predicate IsDigit(c: char)
  {
    '0' <= c <= '9'
  }

  function DigitValue(c: char): (d: nat)
    requires IsDigit(c)
    ensures d < 10
  {
    (c as int) - ('0' as int)
  }

  function DigitChar(d: nat): (c: char)
    requires d < 10
    ensures IsDigit(c) && DigitValue(c) == d
  {
    (('0' as int) + d) as char
  }

  /** Outcome of `ParseUint`'s digit loop. */
  datatype Scan = Value(n: nat) | BadSyntax | Overflow

  /** `ParseUint`'s loop over the digits of `s`, `n` being the value so far.
      Like Go it stops at the first overflow, before looking at later
      characters, and at the first non-digit. */
  function ScanDigits(s: string, n: nat): (r: Scan)
    requires n <= MaxUint64
    ensures r.Value? ==> r.n <= MaxUint64
    decreases |s|
  {
    if s == [] then Value(n)
    else if !IsDigit(s[0]) then BadSyntax
    else if n >= Cutoff then Overflow
    else if n * 10 + DigitValue(s[0]) > MaxUint64 then Overflow
    else ScanDigits(s[1..], n * 10 + DigitValue(s[0]))
  }

  /** What `strconv.Atoi` returns: the value, and whether `err` was nil. */
  datatype Parsed = Parsed(value: int, ok: bool)

  /** `strconv.Atoi(s)`, which on a 64-bit target behaves as `ParseInt(s, 10, 0)`:
      an optional sign, then decimal digits; a syntax error gives 0, a value out
      of range gives the nearest 64-bit bound. */
  function Atoi(s: string): (r: Parsed)
    ensures MinInt64 <= r.value <= MaxInt64
    ensures !r.ok && r.value != 0 ==> r.value == MaxInt64 || r.value == MinInt64
    ensures s == [] ==> r == Parsed(0, false)
    // An out-of-range value is clamped towards its own sign.
    ensures !r.ok && r.value == MaxInt64 ==> |s| > 0 && s[0] != '-'
    ensures !r.ok && r.value == MinInt64 ==> |s| > 0 && s[0] == '-'
  {
    if s == [] then Parsed(0, false)
    else
      var neg := s[0] == '-';
      var digits := if s[0] == '+' || s[0] == '-' then s[1..] else s;
      if digits == [] then Parsed(0, false)
      else
        match ScanDigits(digits, 0)
        case BadSyntax => Parsed(0, false)
        case Overflow => if neg then Parsed(MinInt64, false) else Parsed(MaxInt64, false)
        case Value(un) =>
          if !neg && un > MaxInt64 then Parsed(MaxInt64, false)
          else if neg && un > -MinInt64 then Parsed(MinInt64, false)
          else Parsed(if neg then 0 - (un as int) else un as int, true)
  }

  /** The decimal digits of `n`, most significant first, without leading zeros. */
  function Digits(n: nat): (s: string)
    ensures |s| > 0 && IsDigit(s[0])
    ensures n > 0 ==> s[0] != '0'
  {
    if n < 10 then [DigitChar(n)] else Digits(n / 10) + [DigitChar(n % 10)]
  }

  /** `fmt.Sprintf("%d", n)`. */
  function DecimalString(n: int): (s: string)
    ensures |s| > 0
    ensures n >= 0 ==> IsDigit(s[0])
    ensures n < 0 ==> s[0] == '-'
    ensures n > 0 ==> s[0] != '0'
    ensures n < 0 ==> |s| > 1 && s[1] != '0'
  {
    if n < 0 then "-" + Digits(-n) else Digits(n)
  }

  /** The digit loop can be extended by one more digit when no overflow occurs. */
  lemma {:induction false} ScanDigitsSnoc(s: string, n: nat, c: char, m: nat)
    requires n <= MaxUint64 && IsDigit(c)
    requires ScanDigits(s, n) == Value(m)
    requires m < Cutoff && m * 10 + DigitValue(c) <= MaxUint64
    ensures ScanDigits(s + [c], n) == Value(m * 10 + DigitValue(c))
    decreases |s|
  {
    if s == [] {
      assert s + [c] == [c];
      assert [c][1..] == [];
    } else {
      var n1 := n * 10 + DigitValue(s[0]);
      assert (s + [c])[0] == s[0];
      assert (s + [c])[1..] == s[1..] + [c];
      ScanDigitsSnoc(s[1..], n1, c, m);
    }
  }

  /** Scanning the digits of a value that fits in 64 unsigned bits gives it back. */
  lemma {:induction false} ScanDigitsOfDigits(n: nat)
    requires n <= MaxUint64
    ensures ScanDigits(Digits(n), 0) == Value(n)
  {
    if n < 10 {
      assert Digits(n) == [DigitChar(n)];
      assert Digits(n)[1..] == [];
    } else {
      ScanDigitsOfDigits(n / 10);
      ScanDigitsSnoc(Digits(n / 10), 0, DigitChar(n % 10), n / 10);
    }
  }

  /** Round trip of the retry counter: what `%d` writes, `Atoi` reads back
      without error, for every non-negative Go `int`. */
  lemma AtoiDecimalString(n: int)
    requires 0 <= n <= MaxInt64
    ensures Atoi(DecimalString(n)) == Parsed(n, true)
  {
    var s := DecimalString(n);
    assert s == Digits(n);
    ScanDigitsOfDigits(n);
  }

  /** The digit loop of a string with a non-digit in it never gives a value. */
  lemma {:induction false} ScanDigitsNonDigit(s: string, n: nat, i: nat)
    requires n <= MaxUint64
    requires i < |s| && !IsDigit(s[i])
    ensures !ScanDigits(s, n).Value?
    decreases |s|
  {
    if IsDigit(s[0]) && n < Cutoff && n * 10 + DigitValue(s[0]) <= MaxUint64 {
      ScanDigitsNonDigit(s[1..], n * 10 + DigitValue(s[0]), i - 1);
    }
  }

  /** The value so far stays below `10^k` after `k` digits, so at most 19
      digits can never overflow 64 unsigned bits. */
  lemma {:induction false} ScanDigitsShortNoOverflow(s: string, n: nat, bound: nat)
    requires n < bound && bound <= 10_000_000_000_000_000_000
    requires bound * Pow10(|s|) <= 10_000_000_000_000_000_000
    ensures ScanDigits(s, n) != Overflow
    decreases |s|
  {
    if s != [] && IsDigit(s[0]) {
      var n1 := n * 10 + DigitValue(s[0]);
      assert n1 < bound * 10;
      assert bound * 10 * Pow10(|s| - 1) == bound * Pow10(|s|);
      ScanDigitsShortNoOverflow(s[1..], n1, bound * 10);
    }
  }

  function Pow10(k: nat): (p: nat)
    ensures p >= 1
  {
    if k == 0 then 1 else 10 * Pow10(k - 1)
  }

  /** A `retry` value of at most 19 characters with a character that is neither
      a digit nor a leading sign reads as 0. */
  lemma AtoiSyntaxErrorIsZero(s: string, i: nat)
    requires |s| <= 19
    requires 0 < i < |s| || (i == 0 && |s| > 0 && s[0] != '+' && s[0] != '-')
    requires !IsDigit(s[i])
    ensures Atoi(s) == Parsed(0, false)
  {
    var digits := if s[0] == '+' || s[0] == '-' then s[1..] else s;
    var j := if s[0] == '+' || s[0] == '-' then i - 1 else i;
    assert digits[j] == s[i];
    ScanDigitsNonDigit(digits, 0, j);
    Pow10Bound(|digits|);
    ScanDigitsShortNoOverflow(digits, 0, 1);
  }

  lemma Pow10Bound(k: nat)
    requires k <= 19
    ensures Pow10(k) <= 10_000_000_000_000_000_000
  {
    Pow10Monotone(k, 19);
    assert Pow10(5) == 100_000;
    assert Pow10(10) == 10_000_000_000;
    assert Pow10(15) == 1_000_000_000_000_000;
    assert Pow10(19) == 10_000_000_000_000_000_000;
  }

  lemma {:induction false} Pow10Monotone(a: nat, b: nat)
    requires a <= b
    ensures Pow10(a) <= Pow10(b)
    decreases b
  {
    if a < b {
      Pow10Monotone(a, b - 1);
    }
  }
}
