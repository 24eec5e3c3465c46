/** What the operators of `clang/term/op2_u32.c` mean: binary digits, inverses and order. */
module U32Laws {
  import opened U32Ops

  /** Binary digit `i`, from the lowest. */
  function Digit(n: nat, i: nat): bool {
    if i == 0 then n % 2 == 1 else Digit(n / 2, i - 1)
  }

  lemma {:induction false} BitwiseDigit(op: (bool, bool) -> bool, a: nat, b: nat, k: nat, i: nat)
    requires i < k
    ensures Digit(Bitwise(op, a, b, k), i) == op(Digit(a, i), Digit(b, i))
  {
    var low, high := Truth(op(a % 2 == 1, b % 2 == 1)), Bitwise(op, a / 2, b / 2, k - 1);
    assert (low + 2 * high) / 2 == high && (low + 2 * high) % 2 == low;
    if i > 0 {
      BitwiseDigit(op, a / 2, b / 2, k - 1, i - 1);
    }
  }

  lemma {:induction false} BitwiseBound(op: (bool, bool) -> bool, a: nat, b: nat, k: nat)
    ensures Bitwise(op, a, b, k) < Pow2(k)
  {
    if k > 0 {
      BitwiseBound(op, a / 2, b / 2, k - 1);
    }
  }

  lemma WordSize()
    ensures Pow2(32) == U32
  {
    assert Pow2(8) == 256;
    assert Pow2(16) == 65536;
    assert Pow2(24) == 0x100_0000;
  }

  /** `n` with all of its lowest `k` digits turned over. */
  lemma {:induction false} NotDigit(n: nat, k: nat, i: nat)
    requires n < Pow2(k) && i < k
    ensures Digit(Pow2(k) - 1 - n, i) == !Digit(n, i)
  {
    var m := Pow2(k) - 1 - n;
    assert m == 2 * (Pow2(k - 1) - 1 - n / 2) + (1 - n % 2);
    if i > 0 {
      NotDigit(n / 2, k - 1, i - 1);
    }
  }

  /** AND, OR, XOR and NOT work digit by digit. */
  lemma DigitOps(a: u32, b: u32, i: nat)
    requires i < 32
    ensures Digit(Op2U32(OP_AND, a, b), i) == (Digit(a, i) && Digit(b, i))
    ensures Digit(Op2U32(OP_OR, a, b), i) == (Digit(a, i) || Digit(b, i))
    ensures Digit(Op2U32(OP_XOR, a, b), i) == (Digit(a, i) != Digit(b, i))
    ensures Digit(Op2U32(OP_NOT, a, b), i) == !Digit(b, i)
  {
    WordSize();
    AndDigit(a, b, i);
    OrDigit(a, b, i);
    XorDigit(a, b, i);
    NotDigit(b, 32, i);
  }

  lemma AndDigit(a: u32, b: u32, i: nat)
    requires i < 32
    ensures Digit(Op2U32(OP_AND, a, b), i) == (Digit(a, i) && Digit(b, i))
  {
    WordSize();
    var op := (x: bool, y: bool) => x && y;
    BitwiseBound(op, a, b, 32);
    BitwiseDigit(op, a, b, 32, i);
  }

  lemma OrDigit(a: u32, b: u32, i: nat)
    requires i < 32
    ensures Digit(Op2U32(OP_OR, a, b), i) == (Digit(a, i) || Digit(b, i))
  {
    WordSize();
    var op := (x: bool, y: bool) => x || y;
    BitwiseBound(op, a, b, 32);
    BitwiseDigit(op, a, b, 32, i);
  }

  lemma XorDigit(a: u32, b: u32, i: nat)
    requires i < 32
    ensures Digit(Op2U32(OP_XOR, a, b), i) == (Digit(a, i) != Digit(b, i))
  {
    WordSize();
    var op := (x: bool, y: bool) => x != y;
    BitwiseBound(op, a, b, 32);
    BitwiseDigit(op, a, b, 32, i);
  }

  // ---------------------------------------------------------------------------
  // Shifts
  // ---------------------------------------------------------------------------

  lemma HalfTwice(a: nat, p: nat)
    requires p > 0
    ensures a / (2 * p) == a / 2 / p
  {
    var q, r := a / 2 / p, a / 2 % p;
    assert a / 2 == q * p + r;
    assert a == (2 * p) * q + (2 * r + a % 2);
    DivUnique(a, 2 * p, q, 2 * r + a % 2);
  }

  lemma {:induction false} AtLeast(d: nat, x: nat)
    requires x > 0
    ensures d * x >= d
  {
    if x > 1 {
      AtLeast(d, x - 1);
      assert d * x == d * (x - 1) + d;
    }
  }

  lemma DivUnique(a: int, d: int, q: int, r: int)
    requires 0 <= r < d && a == d * q + r
    ensures a / d == q
  {
    var q', r' := a / d, a % d;
    assert a == d * q' + r' && 0 <= r' < d;
    assert d * (q - q') == d * q - d * q' && d * (q' - q) == d * q' - d * q;
    if q > q' {
      AtLeast(d, q - q');
    } else if q < q' {
      AtLeast(d, q' - q);
    }
  }

  function Halved(a: nat, s: nat): nat {
    if s == 0 then a else Halved(a / 2, s - 1)
  }

  function Doubled(a: nat, s: nat): nat {
    if s == 0 then a else 2 * Doubled(a, s - 1)
  }

  lemma {:induction false} HalvedIs(a: nat, s: nat)
    ensures a / Pow2(s) == Halved(a, s)
  {
    if s > 0 {
      HalfTwice(a, Pow2(s - 1));
      HalvedIs(a / 2, s - 1);
    }
  }

  lemma {:induction false} DoubledIs(a: nat, s: nat)
    ensures a * Pow2(s) == Doubled(a, s)
  {
    if s > 0 {
      DoubledIs(a, s - 1);
      assert a * Pow2(s) == 2 * (a * Pow2(s - 1));
    }
  }

  lemma {:induction false} RightDigit(a: nat, s: nat, i: nat)
    ensures Digit(Halved(a, s), i) == Digit(a, i + s)
  {
    if s > 0 {
      RightDigit(a / 2, s - 1, i);
    }
  }

  lemma {:induction false} LeftDigit(a: nat, s: nat, i: nat)
    ensures Digit(Doubled(a, s), i) == (i >= s && Digit(a, i - s))
  {
    if s > 0 && i > 0 {
      LeftDigit(a, s - 1, i - 1);
    }
  }

  lemma {:induction false} CutDigit(n: nat, k: nat, i: nat)
    requires i < k
    ensures n % Pow2(k) >= 0 && Digit(n % Pow2(k), i) == Digit(n, i)
  {
    var p := Pow2(k - 1);
    HalfTwice(n, p);
    var q := n / (2 * p);
    assert n == 2 * p * q + n % (2 * p) && n / 2 == p * q + n / 2 % p;
    assert n % (2 * p) == 2 * (n / 2 % p) + n % 2;
    if i > 0 {
      CutDigit(n / 2, k - 1, i - 1);
    }
  }

  lemma LeftIs(a: u32, b: u32)
    requires b < 32
    ensures Op2U32(OP_LSH, a, b) == Doubled(a, b) % U32
  {
    var s := b % 32;
    assert s == b;
    var m := a * Pow2(s);
    assert Op2U32(OP_LSH, a, b) == Wrap(m);
    DoubledIs(a, s);
  }

  lemma RightIs(a: u32, b: u32)
    requires b < 32
    ensures Op2U32(OP_RSH, a, b) == Halved(a, b) % U32
  {
    var s := b % 32;
    assert s == b;
    var m := a / Pow2(s);
    assert Op2U32(OP_RSH, a, b) == Wrap(m);
    HalvedIs(a, s);
  }

  /** Shifts by fewer than 32 places move the digits, and drop those that leave the word. */
  lemma ShiftLeft(a: u32, b: u32, i: nat)
    requires b < 32 && i < 32
    ensures Digit(Op2U32(OP_LSH, a, b), i) == (i >= b && Digit(a, i - b))
  {
    WordSize();
    LeftIs(a, b);
    CutDigit(Doubled(a, b), 32, i);
    LeftDigit(a, b, i);
  }

  lemma ShiftRight(a: u32, b: u32, i: nat)
    requires b < 32 && i < 32
    ensures Digit(Op2U32(OP_RSH, a, b), i) == (i + b < 32 && Digit(a, i + b))
  {
    WordSize();
    RightIs(a, b);
    CutDigit(Halved(a, b), 32, i);
    RightDigit(a, b, i);
    if i + b >= 32 {
      HighDigit(a, 32, i + b);
    }
  }

  lemma {:induction false} HighDigit(n: nat, k: nat, i: nat)
    requires n < Pow2(k) && i >= k
    ensures !Digit(n, i)
    decreases i
  {
    if i > 0 {
      HighDigit(n / 2, if k > 0 then k - 1 else 0, i - 1);
    }
  }

  // ---------------------------------------------------------------------------
  // Division
  // ---------------------------------------------------------------------------

  lemma Quotient(a: nat, b: nat) returns (q: nat, r: nat)
    requires b > 0
    ensures q == a / b && r == a % b && a == b * q + r && r < b && q <= a && r <= a
  {
    q, r := a / b, a % b;
    assert a == b * q + r;
    if q > 0 {
      AtLeast(q, b);
      assert q * b == b * q;
    } else {
      assert b * q == 0;
    }
  }

  /** Quotient and remainder give the dividend back; by zero both are zero. */
  lemma DivMod(a: u32, b: u32)
    ensures b != 0 ==> Op2U32(OP_MOD, a, b) < b && a == b * Op2U32(OP_DIV, a, b) + Op2U32(OP_MOD, a, b)
    ensures b == 0 ==> Op2U32(OP_DIV, a, b) == 0 == Op2U32(OP_MOD, a, b)
  {
    if b != 0 {
      var q, r := Quotient(a, b);
      assert Wrap(q) == q && Wrap(r) == r;
      assert Op2U32(OP_DIV, a, b) == q;
      assert Op2U32(OP_MOD, a, b) == r;
    }
  }
}
