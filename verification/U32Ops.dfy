/** 32-bit arithmetic of `OP2`, `clang/term/op2_u32.c`. */
module U32Ops {
  const U32 := 0x1_0000_0000
  type u32 = n: nat | n < U32

  const OP_ADD := 0
  const OP_SUB := 1
  const OP_MUL := 2
  const OP_DIV := 3
  const OP_MOD := 4
  const OP_AND := 5
  const OP_OR := 6
  const OP_XOR := 7
  const OP_LSH := 8
  const OP_RSH := 9
  const OP_NOT := 10
  const OP_EQ := 11
  const OP_NE := 12
  const OP_LT := 13
  const OP_LE := 14
  const OP_GT := 15
  const OP_GE := 16

  function Wrap(n: int): u32 {
    n % U32
  }

  function Truth(b: bool): u32 {
    if b then 1 else 0
  }

  function Pow2(k: nat): (p: nat)
    ensures 0 < p
  {
    if k == 0 then 1 else 2 * Pow2(k - 1)
  }

  /** Combines the lowest `k` binary digits of `a` and `b`. */
  function Bitwise(op: (bool, bool) -> bool, a: nat, b: nat, k: nat): nat {
    if k == 0 then 0
    else Truth(op(a % 2 == 1, b % 2 == 1)) + 2 * Bitwise(op, a / 2, b / 2, k - 1)
  }

  /** `term_op2_u32`. A shift by 32 or more is undefined there; here the amount is taken modulo 32. */
  function Op2U32(opr: nat, a: u32, b: u32): u32 {
    if opr == OP_ADD then Wrap(a + b)
    else if opr == OP_SUB then Wrap(a - b)
    else if opr == OP_MUL then Wrap(a * b)
    else if opr == OP_DIV then (if b != 0 then Wrap(a / b) else 0)
    else if opr == OP_MOD then (if b != 0 then Wrap(a % b) else 0)
    else if opr == OP_AND then Wrap(Bitwise((x, y) => x && y, a, b, 32))
    else if opr == OP_OR then Wrap(Bitwise((x, y) => x || y, a, b, 32))
    else if opr == OP_XOR then Wrap(Bitwise((x, y) => x != y, a, b, 32))
    else if opr == OP_LSH then Wrap(a * Pow2(b % 32))
    else if opr == OP_RSH then Wrap(a / Pow2(b % 32))
    else if opr == OP_NOT then U32 - 1 - b
    else if opr == OP_EQ then Truth(a == b)
    else if opr == OP_NE then Truth(a != b)
    else if opr == OP_LT then Truth(a < b)
    else if opr == OP_LE then Truth(a <= b)
    else if opr == OP_GT then Truth(a > b)
    else if opr == OP_GE then Truth(a >= b)
    else 0
  }
}
