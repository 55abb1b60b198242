/**
 `convert` of the terminal driver: numerals written backwards into a fixed buffer,
 on top of the software division.
 */
module Numerals {
  import opened Arithmetic
  import opened KernelState
  import opened Division

  const DIGITS := "0123456789ABCDEF"
  const BUFFER_SIZE := 64

  // ----- what a numeral stands for

  function Power(base: nat, n: nat): nat {
    if n == 0 then 1 else base * Power(base, n - 1)
  }

  /** The value of a digit, or 16 for any other character. */
  function DigitValue(c: char): nat {
    if '0' <= c <= '9' then c as int - '0' as int
    else if 'A' <= c <= 'F' then 10 + (c as int - 'A' as int)
    else 16
  }

  function Value(base: nat, s: string): nat {
    if s == [] then 0 else DigitValue(s[0]) * Power(base, |s| - 1) + Value(base, s[1..])
  }

  /** Only digits of the base, at least one, and no leading zero but for zero itself. */
  ghost predicate Numeral(base: nat, s: string) {
    && s != [] && (|s| > 1 ==> s[0] != '0')
    && forall i :: 0 <= i < |s| ==> DigitValue(s[i]) < base
  }

  lemma DigitsFacts(d: nat)
    requires d < 16
    ensures |DIGITS| == 16 && DigitValue(DIGITS[d]) == d && DIGITS[d] != '\0' && (DIGITS[d] == '0' <==> d == 0)
  {
  }

  lemma DigitOf(c: char)
    requires DigitValue(c) < 16
    ensures |DIGITS| == 16 && c == DIGITS[DigitValue(c)]
  {
  }

  // ----- numerals are unique

  lemma {:induction false} PowerPositive(base: nat, n: nat)
    requires base > 0
    ensures Power(base, n) > 0
  {
    if n > 0 {
      PowerPositive(base, n - 1);
      MulGrows(Power(base, n - 1), base);
    }
  }

  lemma {:induction false} PowerGrows(base: nat, m: nat, n: nat)
    requires base > 0 && m <= n
    ensures Power(base, m) <= Power(base, n)
  {
    if m < n {
      PowerGrows(base, m, n - 1);
      PowerPositive(base, n - 1);
      MulGrows(Power(base, n - 1), base);
    }
  }

  lemma {:induction false} ValueBelow(base: nat, s: string)
    requires base > 0 && forall i :: 0 <= i < |s| ==> DigitValue(s[i]) < base
    ensures Value(base, s) < Power(base, |s|)
  {
    if s != [] {
      ValueBelow(base, s[1..]);
      StaysBelow(base, Power(base, |s| - 1), DigitValue(s[0]), Value(base, s[1..]));
    }
  }

  lemma StaysBelow(base: nat, p: nat, d: nat, v: nat)
    requires d < base && v < p
    ensures d * p + v < base * p
  {
    MulMonotone(d + 1, base, p);
    assert (d + 1) * p == d * p + p;
  }

  lemma SplitUnique(p: nat, d: nat, v: nat, e: nat, w: nat)
    requires d * p + v == e * p + w && v < p && w < p
    ensures d == e && v == w
  {
    assert p * d + v == p * e + w;
    QuotientUnique(p * d + v, p, d, v);
    QuotientUnique(p * d + v, p, e, w);
  }

  lemma MulMonotone(a: nat, b: nat, p: nat)
    requires a <= b
    ensures a * p <= b * p
  {
  }

  lemma LeadingDigit(base: nat, s: string)
    requires base >= 2 && Numeral(base, s) && |s| > 1
    ensures Value(base, s) >= Power(base, |s| - 1)
  {
  }

  /** Numerals with the same value have the same length. */
  lemma NotShorter(base: nat, s: string, t: string)
    requires base >= 2 && Numeral(base, s) && Numeral(base, t) && Value(base, s) == Value(base, t)
    ensures |s| >= |t|
  {
    if |s| < |t| {
      ValueBelow(base, s);
      LeadingDigit(base, t);
      PowerGrows(base, |s|, |t| - 1);
    }
  }

  lemma {:induction false} SameLengthUnique(base: nat, s: string, t: string)
    requires 2 <= base <= 16 && |s| == |t| && Value(base, s) == Value(base, t)
    requires forall i :: 0 <= i < |s| ==> DigitValue(s[i]) < base && DigitValue(t[i]) < base
    ensures s == t
  {
    if s != [] {
      var p := Power(base, |s| - 1);
      ValueBelow(base, s[1..]);
      ValueBelow(base, t[1..]);
      SplitUnique(p, DigitValue(s[0]), Value(base, s[1..]), DigitValue(t[0]), Value(base, t[1..]));
      DigitOf(s[0]);
      DigitOf(t[0]);
      SameLengthUnique(base, s[1..], t[1..]);
    }
  }

  /** A number has one numeral per base, so the text determines the number and is determined by it. */
  lemma NumeralUnique(base: nat, s: string, t: string)
    requires 2 <= base <= 16 && Numeral(base, s) && Numeral(base, t)
    ensures s == t <==> Value(base, s) == Value(base, t)
  {
    if Value(base, s) == Value(base, t) {
      NotShorter(base, s, t);
      NotShorter(base, t, s);
      SameLengthUnique(base, s, t);
    }
  }

  // ----- the loop

  /** The rest `num` and the digits `s` written so far make up `n`. */
  ghost predicate Written(base: nat, n: nat, num: nat, s: string) {
    && n == num * Power(base, |s|) + Value(base, s)
    && |s| <= 32 && num < Pow2(32 - |s|)
    && (num == 0 && s != [] ==> |s| > 1 ==> s[0] != '0')
    && forall i :: 0 <= i < |s| ==> DigitValue(s[i]) < base && s[i] != '\0'
  }

  lemma NextValue(base: nat, n: nat, num: nat, q: nat, r: nat, s: string, c: char)
    requires num == q * base + r && n == num * Power(base, |s|) + Value(base, s) && DigitValue(c) == r
    ensures n == q * Power(base, |s| + 1) + Value(base, [c] + s)
  {
    assert ([c] + s)[1..] == s;
    Regroup(q, base, r, Power(base, |s|));
  }

  lemma Regroup(q: nat, base: nat, r: nat, p: nat)
    ensures (q * base + r) * p == q * (base * p) + r * p
  {
  }

  lemma NextSmaller(base: nat, num: nat, q: nat, r: nat, i: nat)
    requires base >= 2 && num == q * base + r && num < Pow2(i + 1)
    ensures q < Pow2(i)
  {
  }

  lemma NoRest(base: nat, num: nat, r: nat)
    requires num == 0 * base + r
    ensures num == r
  {
  }

  lemma NextWritten(base: nat, n: nat, num: nat, q: nat, r: nat, s: string)
    requires 2 <= base <= 16 && r < base && num == q * base + r && Written(base, n, num, s) && (s != [] ==> num != 0)
    ensures |DIGITS| == 16 && |s| < 32 && Written(base, n, q, [DIGITS[r]] + s)
  {
    NextValue(base, n, num, q, r, s, DIGITS[r]) by { DigitsFacts(r); }
    hide Power, Value;
    DigitsFacts(r);
    NextSmaller(base, num, q, r, 31 - |s|);
    if q == 0 {
      NoRest(base, num, r);
    }
  }

  lemma DivSplit(num: nat, base: nat)
    requires base > 0
    ensures num == num / base * base + num % base
  {
  }

  /** When nothing is left, the digits are the numeral of `n`. */
  lemma AllWritten(base: nat, n: nat, s: string)
    requires Written(base, n, 0, s) && s != []
    ensures |s| <= 32 && Numeral(base, s) && Value(base, s) == n
    ensures forall i :: 0 <= i < |s| ==> s[i] != '\0'
  {
  }

  lemma NothingWritten(base: nat, n: Word)
    ensures Written(base, n, n, [])
  {
    WordBelow(n);
    assert Power(base, 0) == 1;
  }

  lemma WordBelow(n: Word)
    ensures n < Pow2(32)
  {
    assert Pow2(8) == 256;
    assert Pow2(16) == 256 * Pow2(8);
    assert Pow2(24) == 256 * Pow2(16);
    assert Pow2(32) == 256 * Pow2(24);
  }

  /** The digit `num % base`, as `__aeabi_uidivmod` gives it, and `num / base`. */
  method NextDigit(num: Word, base: Word, ghost n: nat, ghost s: string) returns (c: char, quot: Word)
    requires 2 <= base <= 16 && Written(base, n, num, s) && (s != [] ==> num != 0)
    ensures |s| < 32 && DigitValue(c) == num % base && quot == num / base && Written(base, n, quot, [c] + s)
  {
    var q, rem := UIDivMod(num, base);
    quot := UIDiv(num, base);
    DivSplit(num, base);
    DigitsFacts(rem);
    hide Written;
    NextWritten(base, n, num, quot, rem, s);
    c := DIGITS[rem];
  }

  /**
   `convert`: a NUL-terminated numeral for `n` at the end of the buffer, whose other
   cells are not touched.
   */
  method Convert(n: Word, base: Word, buffer: array<char>) returns (ptr: nat)
    requires 2 <= base <= 16 && buffer.Length == BUFFER_SIZE
    modifies buffer
    ensures 31 <= ptr < 63 && buffer[63] == '\0'
    ensures Numeral(base, buffer[ptr..63]) && Value(base, buffer[ptr..63]) == n
    ensures forall i :: ptr <= i < 63 ==> buffer[i] != '\0'
    ensures forall i :: 0 <= i < ptr ==> buffer[i] == old(buffer[i])
  {
    NothingWritten(base, n);
    hide Written, Numeral, Value, DigitValue;
    var num := n;
    ptr := BUFFER_SIZE - 1;
    buffer[ptr] := '\0';
    assert buffer[63..63] == [];
    var more := true;
    while more
      invariant 0 <= ptr <= 63 && buffer[63] == '\0'
      invariant Written(base, n, num, buffer[ptr..63])
      invariant if ptr < 63 then more <==> num != 0 else more
      invariant forall i :: 0 <= i < ptr ==> buffer[i] == old(buffer[i])
      decreases ptr
    {
      ghost var s := buffer[ptr..63];
      var c, quot := NextDigit(num, base, n, s);
      ptr := ptr - 1;
      buffer[ptr] := c;
      assert buffer[ptr + 1..63] == s;
      assert buffer[ptr..63] == [buffer[ptr]] + buffer[ptr + 1..63];
      num := quot;
      more := num != 0;
    }
    AllWritten(base, n, buffer[ptr..63]);
    assert forall i :: ptr <= i < 63 ==> buffer[i] == buffer[ptr..63][i - ptr];
  }
}
