/** Fibonacci numbers by repeated squaring of a matrix, against the recursive definition. */
module FastPower {

  datatype Matrix = Matrix(a00: int, a01: int, a10: int, a11: int)

  const UNIT := Matrix(1, 0, 0, 1)
  const BASE := Matrix(1, 1, 1, 0)

  function Mul(a: Matrix, b: Matrix): Matrix {
    Matrix(a.a00 * b.a00 + a.a01 * b.a10, a.a00 * b.a01 + a.a01 * b.a11,
           a.a10 * b.a00 + a.a11 * b.a10, a.a10 * b.a01 + a.a11 * b.a11)
  }

  function Power(a: Matrix, n: nat): Matrix {
    if n == 0 then UNIT else Mul(Power(a, n - 1), a)
  }

  /** The recursive definition f1. */
  function Fib(n: nat): nat
    requires n >= 1
  {
    if n == 1 || n == 2 then 1 else Fib(n - 1) + Fib(n - 2)
  }

  function BitLength(n: nat): nat {
    if n == 0 then 0 else 1 + BitLength(n / 2)
  }

  function Pow2(n: nat): nat {
    if n == 0 then 1 else 2 * Pow2(n - 1)
  }

  // The bit length is the number of the highest bit set, counted from 1.
  lemma {:induction false} BitLengthMeans(n: nat)
    requires n > 0
    ensures BitLength(n) > 0 && Pow2(BitLength(n) - 1) <= n < Pow2(BitLength(n))
  {
    if n > 1 {
      BitLengthMeans(n / 2);
    }
  }

  lemma MulAssoc(a: Matrix, b: Matrix, c: Matrix)
    ensures Mul(Mul(a, b), c) == Mul(a, Mul(b, c))
  {
    Distribute(a.a00, a.a01, b, c.a00, c.a10);
    Distribute(a.a00, a.a01, b, c.a01, c.a11);
    Distribute(a.a10, a.a11, b, c.a00, c.a10);
    Distribute(a.a10, a.a11, b, c.a01, c.a11);
  }

  // One entry of a product of three: row (x, y), matrix b, column (u, v).
  lemma Distribute(x: int, y: int, b: Matrix, u: int, v: int)
    ensures (x * b.a00 + y * b.a10) * u + (x * b.a01 + y * b.a11) * v
         == x * (b.a00 * u + b.a01 * v) + y * (b.a10 * u + b.a11 * v)
  {
  }

  lemma MulUnit(a: Matrix)
    ensures Mul(a, UNIT) == a && Mul(UNIT, a) == a
  {
  }

  lemma {:induction false} PowerAdd(a: Matrix, m: nat, n: nat)
    ensures Power(a, m + n) == Mul(Power(a, m), Power(a, n))
    decreases n
  {
    MulUnit(Power(a, m));
    hide Mul;
    if n > 0 {
      PowerAdd(a, m, n - 1);
      MulAssoc(Power(a, m), Power(a, n - 1), a);
    }
  }

  lemma {:induction false} PowerSquare(a: Matrix, n: nat)
    ensures Power(Mul(a, a), n) == Power(a, 2 * n)
  {
    hide Mul;
    if n > 0 {
      PowerSquare(a, n - 1);
      MulAssoc(Power(a, 2 * n - 2), a, a);
      assert Power(a, 2 * n) == Mul(Power(a, 2 * n - 1), a);
      assert Power(a, 2 * n - 1) == Mul(Power(a, 2 * n - 2), a);
    }
  }

  lemma MulBase(a: Matrix)
    ensures Mul(a, BASE) == Matrix(a.a00 + a.a01, a.a00, a.a10 + a.a11, a.a10)
  {
  }

  /** The powers of the base matrix hold consecutive Fibonacci numbers. */
  lemma {:induction false} PowerIsFib(n: nat)
    ensures n == 0 ==> Power(BASE, n) == UNIT
    ensures n == 1 ==> Power(BASE, n) == BASE
    ensures n >= 2 ==> Power(BASE, n) == Matrix(Fib(n + 1), Fib(n), Fib(n), Fib(n - 1))
  {
    hide Mul;
    if n > 0 {
      PowerIsFib(n - 1);
      MulBase(Power(BASE, n - 1));
    }
  }

  // One round of the loop on (r, a, n), with n > 0.
  function NextR(r: Matrix, a: Matrix, n: nat): Matrix {
    if n % 2 == 1 then Mul(r, a) else r
  }

  // What the loop keeps: the result so far times the power still to be taken.
  lemma RoundKeeps(r: Matrix, a: Matrix, n: nat)
    requires n > 0
    ensures Mul(NextR(r, a, n), Power(Mul(a, a), n / 2)) == Mul(r, Power(a, n))
  {
    MulUnit(a);
    hide Mul;
    PowerSquare(a, n / 2);
    if n % 2 == 1 {
      MulAssoc(r, a, Power(a, n - 1));
      PowerAdd(a, 1, n - 1);
      assert Power(a, 1) == Mul(Power(a, 0), a) == a;
    }
  }

  /** f4 over unbounded integers: the n-th Fibonacci number, in as many rounds as n - 1 has bits. `fits` says whether
      every product and sum computed on the way fits a 32-bit int. */
  method F4(n: int) returns (f: int, rounds: nat, ghost fits: bool)
    ensures n <= 0 ==> f == 0 && rounds == 0
    ensures n >= 1 ==> f == Fib(n) && rounds == BitLength(n - 1)
    ensures fits <==> n <= 32
  {
    FitsExactly(n);
    hide Mul, RoundFits;
    rounds, fits := 0, true;
    if n <= 0 {
      return 0, 0, true;
    }
    var a, r, k := BASE, UNIT, n - 1;
    MulUnit(Power(BASE, n - 1));
    while k > 0
      invariant k >= 0
      invariant Mul(r, Power(a, k)) == Power(BASE, n - 1)
      invariant rounds + BitLength(k) == BitLength(n - 1)
      invariant fits && LoopFits(r, a, k) <==> F4Fits(n)
    {
      RoundKeeps(r, a, k);
      fits := fits && RoundFits(r, a, k);
      if k % 2 == 1 {
        r := Mul(r, a);
      }
      a := Mul(a, a);
      k := k / 2;
      rounds := rounds + 1;
    }
    PowerIsFib(n - 1);
    MulUnit(r);
    f := r.a00;
  }

  // ----- the machine's 32-bit int

  predicate Int32(x: int) {
    -0x8000_0000 <= x < 0x8000_0000
  }

  // Both products and the sum of one entry.
  predicate EntryFits(x: int, u: int, y: int, v: int) {
    Int32(x * u) && Int32(y * v) && Int32(x * u + y * v)
  }

  predicate MulFits(a: Matrix, b: Matrix) {
    && EntryFits(a.a00, b.a00, a.a01, b.a10) && EntryFits(a.a00, b.a01, a.a01, b.a11)
    && EntryFits(a.a10, b.a00, a.a11, b.a10) && EntryFits(a.a10, b.a01, a.a11, b.a11)
  }

  predicate RoundFits(r: Matrix, a: Matrix, n: nat) {
    (n % 2 == 1 ==> MulFits(r, a)) && MulFits(a, a)
  }

  /** Every product and sum of the loop from (r, a, n) on fits a 32-bit int. */
  predicate LoopFits(r: Matrix, a: Matrix, n: nat)
    decreases n
  {
    n == 0 || (LoopFits(NextR(r, a, n), Mul(a, a), n / 2) && RoundFits(r, a, n))
  }

  predicate F4Fits(n: int) {
    n <= 0 || LoopFits(UNIT, BASE, n - 1)
  }

  const SQUARED := Matrix(2, 1, 1, 1)
  const TO_4 := Matrix(5, 3, 3, 2)
  const TO_8 := Matrix(34, 21, 21, 13)
  const TO_16 := Matrix(1597, 987, 987, 610)
  const TO_32 := Matrix(3524578, 2178309, 2178309, 1346269)

  // The sixth squaring overflows, whatever the result so far.
  lemma SixthRoundOverflows(r: Matrix, n: nat)
    requires n >= 1
    ensures !LoopFits(r, TO_32, n)
  {
    hide Mul;
    assert !EntryFits(TO_32.a00, TO_32.a00, TO_32.a01, TO_32.a10);
  }

  lemma OverflowsBefore(r: Matrix, a: Matrix, b: Matrix, n: nat)
    requires n >= 1 && Mul(a, a) == b && !LoopFits(NextR(r, a, n), b, n / 2)
    ensures !LoopFits(r, a, n)
  {
    hide Mul, RoundFits, NextR;
  }

  lemma FifthRoundOverflows(r: Matrix, n: nat)
    requires n >= 2
    ensures !LoopFits(r, TO_16, n)
  {
    SixthRoundOverflows(NextR(r, TO_16, n), n / 2);
    OverflowsBefore(r, TO_16, TO_32, n);
  }

  lemma FourthRoundOverflows(r: Matrix, n: nat)
    requires n >= 4
    ensures !LoopFits(r, TO_8, n)
  {
    FifthRoundOverflows(NextR(r, TO_8, n), n / 2);
    OverflowsBefore(r, TO_8, TO_16, n);
  }

  lemma ThirdRoundOverflows(r: Matrix, n: nat)
    requires n >= 8
    ensures !LoopFits(r, TO_4, n)
  {
    FourthRoundOverflows(NextR(r, TO_4, n), n / 2);
    OverflowsBefore(r, TO_4, TO_8, n);
  }

  lemma Overflows(n: nat)
    requires n >= 32
    ensures !LoopFits(UNIT, BASE, n)
  {
    var r := NextR(UNIT, BASE, n);
    ThirdRoundOverflows(NextR(r, SQUARED, n / 2), n / 2 / 2);
    OverflowsBefore(r, SQUARED, TO_4, n / 2);
    OverflowsBefore(UNIT, BASE, SQUARED, n);
  }

  // Entries between 0 and `bound`.
  predicate Within(a: Matrix, bound: int) {
    0 <= a.a00 <= bound && 0 <= a.a01 <= bound && 0 <= a.a10 <= bound && 0 <= a.a11 <= bound
  }

  lemma SmallMul(a: Matrix, b: Matrix, x: int, y: int)
    requires Within(a, x) && Within(b, y) && 0 <= x && 0 <= y && 2 * x * y < 0x8000_0000
    ensures MulFits(a, b) && Within(Mul(a, b), 2 * x * y)
  {
    SmallEntry(a.a00, b.a00, a.a01, b.a10, x, y);
    SmallEntry(a.a00, b.a01, a.a01, b.a11, x, y);
    SmallEntry(a.a10, b.a00, a.a11, b.a10, x, y);
    SmallEntry(a.a10, b.a01, a.a11, b.a11, x, y);
  }

  lemma SmallEntry(p: int, u: int, q: int, v: int, x: int, y: int)
    requires 0 <= p <= x && 0 <= q <= x && 0 <= u <= y && 0 <= v <= y && 2 * x * y < 0x8000_0000
    ensures EntryFits(p, u, q, v) && 0 <= p * u + q * v <= 2 * x * y
  {
    Below(p, u, x, y);
    Below(q, v, x, y);
  }

  lemma Below(p: int, u: int, x: int, y: int)
    requires 0 <= p <= x && 0 <= u <= y
    ensures 0 <= p * u <= x * y
  {
    assert p * u <= x * u <= x * y;
  }

  // One round with small matrices fits, and leaves a small result.
  lemma SmallRound(r: Matrix, a: Matrix, b: Matrix, n: nat, x: int, y: int)
    requires n >= 1 && Within(r, x) && Within(a, y) && 1 <= x && 1 <= y && Mul(a, a) == b
    requires 2 * x * y < 0x8000_0000 && 2 * y * y < 0x8000_0000
    requires LoopFits(NextR(r, a, n), b, n / 2)
    ensures LoopFits(r, a, n)
  {
    SmallMul(r, a, x, y);
    SmallMul(a, a, y, y);
    hide Mul, MulFits;
  }

  lemma SmallNext(r: Matrix, a: Matrix, n: nat, x: int, z: int)
    requires Within(r, x) && Within(Mul(r, a), z) && x <= z
    ensures Within(NextR(r, a, n), z)
  {
    hide Mul;
  }

  lemma FifthRoundFits(r: Matrix, n: nat)
    requires n <= 1 && Within(r, 5440)
    ensures LoopFits(r, TO_16, n)
  {
    if n >= 1 {
      SmallRound(r, TO_16, TO_32, n, 5440, 1597);
    }
  }

  lemma FourthRoundFits(r: Matrix, n: nat)
    requires n <= 3 && Within(r, 80)
    ensures LoopFits(r, TO_8, n)
  {
    if n >= 1 {
      assert Mul(TO_8, TO_8) == TO_16;
      SmallMul(r, TO_8, 80, 34);
      hide Mul, MulFits;
      SmallNext(r, TO_8, n, 80, 5440);
      FifthRoundFits(NextR(r, TO_8, n), n / 2);
      SmallRound(r, TO_8, TO_16, n, 80, 34);
    }
  }

  lemma ThirdRoundFits(r: Matrix, n: nat)
    requires n <= 7 && Within(r, 8)
    ensures LoopFits(r, TO_4, n)
  {
    if n >= 1 {
      assert Mul(TO_4, TO_4) == TO_8;
      SmallMul(r, TO_4, 8, 5);
      hide Mul, MulFits;
      SmallNext(r, TO_4, n, 8, 80);
      FourthRoundFits(NextR(r, TO_4, n), n / 2);
      SmallRound(r, TO_4, TO_8, n, 8, 5);
    }
  }

  lemma SecondRoundFits(r: Matrix, n: nat)
    requires n <= 15 && Within(r, 2)
    ensures LoopFits(r, SQUARED, n)
  {
    if n >= 1 {
      assert Mul(SQUARED, SQUARED) == TO_4;
      SmallMul(r, SQUARED, 2, 2);
      hide Mul, MulFits;
      SmallNext(r, SQUARED, n, 2, 8);
      ThirdRoundFits(NextR(r, SQUARED, n), n / 2);
      SmallRound(r, SQUARED, TO_4, n, 2, 2);
    }
  }

  lemma FirstRoundFits(r: Matrix, n: nat)
    requires n <= 31 && Within(r, 1)
    ensures LoopFits(r, BASE, n)
  {
    if n >= 1 {
      assert Mul(BASE, BASE) == SQUARED;
      SmallMul(r, BASE, 1, 1);
      hide Mul, MulFits;
      SmallNext(r, BASE, n, 1, 2);
      SecondRoundFits(NextR(r, BASE, n), n / 2);
      SmallRound(r, BASE, SQUARED, n, 1, 1);
    }
  }

  /** f4 computes without overflow exactly up to n = 32, because from 33 on the last, unused squaring overflows. */
  lemma FitsExactly(n: int)
    ensures F4Fits(n) <==> n <= 32
  {
    hide LoopFits;
    if n > 32 {
      Overflows(n - 1);
    } else if n > 0 {
      FirstRoundFits(UNIT, n - 1);
    }
  }

  lemma {:induction false} FibGrows(m: nat, n: nat)
    requires 1 <= m <= n
    ensures Fib(m) <= Fib(n)
    decreases n
  {
    if m < n {
      FibGrows(m, n - 1);
    }
  }

  // Two numbers ten places further, from two neighbours.
  lemma FibTen(n: nat)
    requires n >= 2
    ensures Fib(n + 10) == 89 * Fib(n) + 55 * Fib(n - 1) && Fib(n + 9) == 55 * Fib(n) + 34 * Fib(n - 1)
  {
    assert Fib(n + 1) == Fib(n) + Fib(n - 1);
    assert Fib(n + 2) == 2 * Fib(n) + Fib(n - 1);
    assert Fib(n + 4) == 5 * Fib(n) + 3 * Fib(n - 1);
    assert Fib(n + 6) == 13 * Fib(n) + 8 * Fib(n - 1);
    assert Fib(n + 8) == 34 * Fib(n) + 21 * Fib(n - 1);
  }

  /** The number itself fits up to n = 46, so that between 33 and 46 only the intermediate results overflow. */
  lemma ResultFitsExactly(n: nat)
    requires n >= 1
    ensures Int32(Fib(n)) <==> n <= 46
  {
    assert Fib(7) == 13 && Fib(6) == 8;
    FibTen(7);
    FibTen(17);
    FibTen(27);
    FibTen(37);
    assert Fib(46) == 1836311903 && Fib(47) == 2971215073;
    if n <= 46 {
      FibGrows(n, 46);
    } else {
      FibGrows(47, n);
    }
  }
}
