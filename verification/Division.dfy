/**
 The software division of the uARM target.  Registers and stack slots are 32-bit
 words; every shift, sum and product below is reduced as the processor reduces it.
 */
module Division {
  import opened KernelState
  import opened Arithmetic

  type Word = x: int | 0 <= x < WORD

  const SIGN_BIT := 0x8000_0000

  function Reduce(x: int): Word {
    x % WORD
  }

  /** `rsb` from zero. */
  function Negate(x: Word): Word {
    Reduce(0 - x)
  }

  /** The two's complement reading of a word. */
  function Signed(x: Word): int {
    if x < SIGN_BIT then x else x - WORD
  }

  // ----- division of signed numbers, rounding towards zero

  function Abs(x: int): nat {
    if x < 0 then -x else x
  }

  function Quot(n: int, d: int): int
    requires d != 0
  {
    var q := Abs(n) / Abs(d);
    if (n < 0) != (d < 0) then -q else q
  }

  function Rem(n: int, d: int): int
    requires d != 0
  {
    if n < 0 then -(Abs(n) % Abs(d)) else Abs(n) % Abs(d)
  }

  /** What a truncated division is: smaller remainder, with the sign of the dividend. */
  ghost predicate Truncated(n: int, d: int, q: int, r: int) {
    n == q * d + r && Abs(r) < Abs(d) && (n >= 0 ==> r >= 0) && (n <= 0 ==> r <= 0)
  }

  lemma QuotRemTruncated(n: int, d: int)
    requires d != 0
    ensures Truncated(n, d, Quot(n, d), Rem(n, d))
  {
  }

  lemma TruncatedUnique(n: int, d: int, q: int, r: int)
    requires d != 0 && Truncated(n, d, q, r)
    ensures q == Quot(n, d) && r == Rem(n, d)
  {
    var q' := if (n < 0) != (d < 0) then -q else q;
    var r' := if n < 0 then -r else r;
    assert Abs(d) * q' == if n < 0 then -(q * d) else q * d;
    QuotientUnique(Abs(n), Abs(d), q', r');
  }

  // ----- arithmetic modulo 2^32

  lemma SameResidue(x: int, y: int, m: int)
    requires x == y + m * WORD
    ensures Reduce(x) == Reduce(y)
  {
  }

  /** A product may be taken on any representatives of the factors. */
  lemma ProductResidue(a: int, b: int, i: int, j: int)
    ensures Reduce((a + i * WORD) * (b + j * WORD)) == Reduce(a * b)
  {
    var m := a * j + b * i + i * j * WORD;
    assert (a + i * WORD) * (b + j * WORD) == a * b + m * WORD by {
      assert (a + i * WORD) * (b + j * WORD) == a * b + a * (j * WORD) + i * WORD * b + i * WORD * (j * WORD);
    }
    SameResidue((a + i * WORD) * (b + j * WORD), a * b, m);
  }

  // ----- __udivmodsi4

  /** One halving of a normalised divisor and its bit. */
  lemma Halve(d: nat, den: nat, bit: nat, i: nat)
    requires den == d * bit && bit == Pow2(i)
    ensures i > 0 ==> bit / 2 == Pow2(i - 1) && den / 2 == d * (bit / 2) && den == 2 * (den / 2)
    ensures i == 0 ==> bit == 1 && bit / 2 == 0 && den == d
  {
  }

  lemma AtLeastBit(d: nat, bit: nat)
    requires d > 0
    ensures d * bit >= bit
  {
  }

  /** `bit` joins the quotient. */
  lemma Subtract(n: nat, d: nat, quot: nat, bit: nat, num: nat)
    requires n == quot * d + num && d > 0 && d * bit <= num
    ensures n == (quot + bit) * d + (num - d * bit) && quot + bit <= n
  {
  }

  /** The second loop: the quotient so far, with a rest below twice the current divisor. */
  ghost predicate Partial(n: nat, d: nat, den: nat, bit: nat, i: nat, num: nat, quot: nat) {
    && n == quot * d + num
    && if bit != 0 then bit == Pow2(i) && den == d * bit && num < 2 * den else num < d
  }

  lemma FirstRound(n: Word, d: nat, den: nat, bit: nat, i: nat)
    requires SIGN_BIT <= den && Shifted(d, den, bit, i)
    ensures Partial(n, d, den, bit, i, n, 0)
  {
  }

  lemma LastRound(n: nat, d: nat, den: nat, i: nat, num: nat, quot: nat)
    requires d > 0 && Partial(n, d, den, 0, i, num, quot)
    ensures quot == n / d && num == n % d
  {
    QuotientUnique(n, d, quot, num);
  }

  lemma Round(n: nat, d: nat, den: nat, bit: nat, i: nat, num: nat, quot: nat)
    requires Partial(n, d, den, bit, i, num, quot) && d > 0 && bit != 0
    ensures var j := if i > 0 then i - 1 else 0;
            if den <= num then Partial(n, d, den / 2, bit / 2, j, num - den, quot + bit) && quot + bit <= n
            else Partial(n, d, den / 2, bit / 2, j, num, quot)
  {
    Halve(d, den, bit, i);
    if den <= num {
      Subtract(n, d, quot, bit, num);
    }
  }

  ghost predicate Shifted(d: nat, den: nat, bit: nat, i: nat) {
    den == d * bit && bit == Pow2(i)
  }

  /** While the top bit is clear, doubling loses nothing. */
  lemma Double(d: nat, den: nat, bit: nat, i: nat)
    requires d > 0 && Shifted(d, den, bit, i) && den < SIGN_BIT
    ensures Shifted(d, 2 * den, 2 * bit, i + 1) && 2 * den < WORD && 2 * bit < WORD
  {
  }

  lemma NoWrap(x: Word)
    ensures Reduce(x) == x
  {
  }

  /** First loop: the divisor moves left until its top bit is set. */
  method Normalise(d: Word) returns (den: Word, bit: Word, ghost i: nat)
    requires d > 0
    ensures SIGN_BIT <= den && Shifted(d, den, bit, i)
  {
    den, bit, i := d, 1, 0;
    while Signed(den) >= 0
      invariant den > 0 && Shifted(d, den, bit, i)
      decreases WORD - den
    {
      Double(d, den, bit, i);
      den := Reduce(2 * den);
      bit := Reduce(2 * bit);
      i := i + 1;
    }
  }

  /**
   `__udivmodsi4`: the quotient, and the remainder if the caller passes an address
   for it.  A zero divisor yields 0 and stores nothing.
   */
  method UDivMod(n: Word, d: Word, wantRem: bool) returns (quot: Word, rem: Option<Word>)
    ensures d > 0 ==> quot == n / d && rem == if wantRem then Some(n % d) else None
    ensures d == 0 ==> quot == 0 && rem == None
  {
    if d == 0 {
      return 0, None;
    }
    var den, bit;
    ghost var i;
    den, bit, i := Normalise(d);
    FirstRound(n, d, den, bit, i);
    hide Partial, Shifted, Reduce;
    var num := n;
    quot := 0;
    while bit != 0
      invariant Partial(n, d, den, bit, i, num, quot)
      decreases bit
    {
      Round(n, d, den, bit, i, num, quot);
      if den <= num {
        NoWrap(num - den);
        NoWrap(quot + bit);
        num := Reduce(num - den);
        quot := Reduce(quot + bit);
      }
      den := den / 2;
      bit := bit / 2;
      i := if i > 0 then i - 1 else 0;
    }
    LastRound(n, d, den, i, num, quot);
    return quot, if wantRem then Some(num) else None;
  }

  // ----- the helpers of the run-time ABI

  /** `__aeabi_uidiv` */
  method UIDiv(n: Word, d: Word) returns (quot: Word)
    ensures quot == if d > 0 then n / d else 0
  {
    var rem;
    quot, rem := UDivMod(n, d, false);
  }

  /** `__aeabi_uidivmod`: the remainder is recomputed from the quotient. */
  method UIDivMod(n: Word, d: Word) returns (quot: Word, rem: Word)
    ensures d > 0 ==> quot == n / d && rem == n % d
    ensures d == 0 ==> quot == 0 && rem == n
  {
    quot := UIDiv(n, d);
    rem := Reduce(n - Reduce(quot * d));
    if d > 0 {
      assert n == n / d * d + n % d;
      RecoverRemainder(n, quot * d, n % d);
    }
  }

  /** Subtracting a reduced product leaves the residue of the difference. */
  lemma RecoverRemainder(n: int, product: int, r: int)
    requires Reduce(n - product) == Reduce(r)
    ensures Reduce(n - Reduce(product)) == Reduce(r)
  {
  }

  /** `__aeabi_idiv`: the truncated quotient modulo 2^32. */
  method IDiv(n: Word, d: Word) returns (quot: Word)
    ensures d != 0 ==> quot == Reduce(Quot(Signed(n), Signed(d)))
    ensures d == 0 ==> quot == 0
  {
    var num, den, negative := n, d, false;
    if Signed(num) < 0 {
      num := Negate(num);
      negative := true;
    }
    if Signed(den) < 0 {
      den := Negate(den);
      negative := !negative;
    }
    assert num == Abs(Signed(n)) && den == Abs(Signed(d)) && negative == ((Signed(n) < 0) != (Signed(d) < 0));
    hide Signed, Abs, Reduce;
    var rem;
    quot, rem := UDivMod(num, den, false);
    if d != 0 {
      SignedQuotient(Signed(n), Signed(d), quot, negative);
    }
    if negative {
      quot := Negate(quot);
    }
  }

  /** The quotient of the magnitudes, negated if exactly one operand was negative. */
  lemma SignedQuotient(n: int, d: int, q: Word, negative: bool)
    requires d != 0 && q == Abs(n) / Abs(d) && negative == ((n < 0) != (d < 0))
    ensures (if negative then Negate(q) else q) == Reduce(Quot(n, d))
  {
  }

  /** `__aeabi_idivmod`: also the remainder, which has the sign of the dividend. */
  method IDivMod(n: Word, d: Word) returns (quot: Word, rem: Word)
    ensures d != 0 ==> quot == Reduce(Quot(Signed(n), Signed(d))) && Signed(rem) == Rem(Signed(n), Signed(d))
    ensures d == 0 ==> quot == 0 && rem == n
  {
    quot := IDiv(n, d);
    rem := Reduce(n - Reduce(quot * d));
    if d != 0 {
      SignedRemainder(n, d, quot);
    }
  }

  lemma SignedRemainder(n: Word, d: Word, quot: Word)
    requires d != 0 && quot == Reduce(Quot(Signed(n), Signed(d)))
    ensures Signed(Reduce(n - Reduce(quot * d))) == Rem(Signed(n), Signed(d))
  {
    var a, b := Signed(n), Signed(d);
    var q, r := Quot(a, b), Rem(a, b);
    QuotRemTruncated(a, b);
    var i, j := -(q / WORD), if d < SIGN_BIT then 0 else 1;
    ProductResidue(q, b, i, j);
    assert quot == q + i * WORD && d == b + j * WORD;
    RemainderResidue(n, a, q * b, r, if n < SIGN_BIT then 0 else 1);
    SignedReduce(r);
  }

  lemma RemainderResidue(n: int, a: int, product: int, r: int, m: int)
    requires n == a + m * WORD && a == product + r
    ensures Reduce(n - Reduce(product)) == Reduce(r)
  {
  }

  lemma SignedReduce(r: int)
    requires -SIGN_BIT <= r < SIGN_BIT
    ensures Signed(Reduce(r)) == r
  {
  }

  /** The quotient is exact for all operands but the least number divided by -1. */
  lemma QuotientFits(n: Word, d: Word)
    requires d != 0
    ensures Signed(Reduce(Quot(Signed(n), Signed(d)))) == Quot(Signed(n), Signed(d))
            <==> !(n == SIGN_BIT && Signed(d) == -1)
  {
    var a, b := Abs(Signed(n)), Abs(Signed(d));
    assert a == a / b * b + a % b;
    if b >= 2 {
      AtMostHalf(a, b);
    }
  }

  lemma AtMostHalf(a: nat, b: nat)
    requires b >= 2
    ensures 2 * (a / b) <= a
  {
    assert a == a / b * b + a % b;
    AtLeastBit(b - 1, a / b);
  }
}
