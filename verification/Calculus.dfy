/**
 The binder-free terms of the Interaction Calculus and what they mean.

 A term denotes a value once every label has been given its choices. An environment holds one stream
 of bits per label, coded as an integer whose binary digits are read from the lowest. `SUP` takes the next
 bit of its label to pick a side; side `i` of a `DUP` puts bit `i` in front of the stream before looking
 at the shared expression. `INC` is only a priority hint.
 */
module Calculus {
  import opened U32Ops

  type Label = int
  type bit = b: nat | b < 2

  // ---------------------------------------------------------------------------
  // Terms
  // ---------------------------------------------------------------------------

  /** The nodes with two fields that are strict in the first one. */
  datatype Kind = KOp2(opr: nat) | KAnd | KOr | KEql

  datatype Tree =
    | TNum(n: u32)
    | TEra
    | TAny
    | TNam(tag: nat, ext: nat, val: nat)   // NAM and the quoted variables BJV, BJ0, BJ1
    | TCtr(nam: nat, args: seq<Tree>)
    | TSup(lab: Label, a: Tree, b: Tree)
    | TDp(side: bit, lab: Label, e: Tree)
    | TBin(k: Kind, x: Tree, y: Tree)
    | TInc(e: Tree)

  // ---------------------------------------------------------------------------
  // Values
  // ---------------------------------------------------------------------------

  /** `VOp2`, `VAnd` and `VOr` are operations whose operand is not of a kind they compute on. */
  datatype Val =
    | VNum(n: u32)
    | VEra
    | VAny
    | VNam(tag: nat, ext: nat, val: nat)
    | VCtr(nam: nat, args: seq<Val>)
    | VOp2(opr: nat, x: Val, y: Val)
    | VAnd(x: Val, y: Val)
    | VOr(x: Val, y: Val)

  predicate Stuck(v: Val) {
    v.VOp2? || v.VAnd? || v.VOr?
  }

  function Op2Val(opr: nat, x: Val, y: Val): Val {
    if x.VEra? then VEra
    else if !x.VNum? then VOp2(opr, x, y)
    else if y.VEra? then VEra
    else if y.VNum? then VNum(Op2U32(opr, x.n, y.n))
    else VOp2(opr, x, y)
  }

  function AndVal(x: Val, y: Val): Val {
    if x.VEra? then VEra
    else if x.VNum? then (if x.n == 0 then VNum(0) else y)
    else VAnd(x, y)
  }

  function OrVal(x: Val, y: Val): Val {
    if x.VEra? then VEra
    else if x.VNum? then (if x.n == 0 then y else VNum(1))
    else VOr(x, y)
  }

  /** `EQL` in the order the machine inspects its operands; fields are compared by a chain of `AND`. */
  function EqlVal(x: Val, y: Val): Val
    decreases x, 1
  {
    if x.VEra? then VEra
    else if x.VAny? then VNum(1)
    else if y.VEra? then VEra
    else if y.VAny? then VNum(1)
    else if x.VNum? && y.VNum? then VNum(Truth(x.n == y.n))
    else if x.VNam? && y.VNam? then VNum(Truth(x == y))
    else if x.VCtr? && y.VCtr? && x.nam == y.nam && |x.args| == |y.args| then EqlAll(x.args, y.args)
    else VNum(0)
  }

  function EqlAll(xs: seq<Val>, ys: seq<Val>): Val
    requires |xs| == |ys|
    decreases xs, 0
  {
    if xs == [] then VNum(1)
    else if |xs| == 1 then EqlVal(xs[0], ys[0])
    else
      var n := |xs| - 1;
      AndVal(EqlAll(xs[..n], ys[..n]), EqlVal(xs[n], ys[n]))
  }

  function BinVal(k: Kind, x: Val, y: Val): Val {
    match k
    case KOp2(opr) => Op2Val(opr, x, y)
    case KAnd => AndVal(x, y)
    case KOr => OrVal(x, y)
    case KEql => EqlVal(x, y)
  }

  // ---------------------------------------------------------------------------
  // Meaning
  // ---------------------------------------------------------------------------

  type Env = r: imap<int, int> | (forall l: int :: l in r) ghost witness (imap l: int | true :: 0)

  /** The next choice for label `l`. */
  ghost function Next(r: Env, l: Label): bit {
    r[l] % 2
  }

  ghost function Pop(r: Env, l: Label): Env {
    r[l := r[l] / 2]
  }

  ghost function Push(r: Env, l: Label, i: bit): Env {
    r[l := 2 * r[l] + i]
  }

  ghost function D(t: Tree, r: Env): Val {
    match t
    case TNum(n) => VNum(n)
    case TEra => VEra
    case TAny => VAny
    case TNam(tag, ext, val) => VNam(tag, ext, val)
    case TCtr(nam, args) => VCtr(nam, seq(|args|, i requires 0 <= i < |args| => D(args[i], r)))
    case TSup(l, a, b) => if Next(r, l) == 0 then D(a, Pop(r, l)) else D(b, Pop(r, l))
    case TDp(i, l, e) => D(e, Push(r, l, i))
    case TBin(k, x, y) => BinVal(k, D(x, r), D(y, r))
    case TInc(e) => D(e, r)
  }

  /** The same value for all choices. */
  ghost predicate Means(t: Tree, u: Tree) {
    forall r: Env :: D(t, r) == D(u, r)
  }

  lemma PushPop(r: Env, l: Label)
    ensures Push(Pop(r, l), l, Next(r, l)) == r
  {
  }

  lemma PopPush(r: Env, l: Label, i: bit)
    ensures Next(Push(r, l, i), l) == i && Pop(Push(r, l, i), l) == r
  {
  }

  lemma PopPushOther(r: Env, l: Label, m: Label, i: bit)
    requires l != m
    ensures Next(Push(r, l, i), m) == Next(r, m)
    ensures Pop(Push(r, l, i), m) == Push(Pop(r, m), l, i)
  {
  }

  // ---------------------------------------------------------------------------
  // Structural equality
  // ---------------------------------------------------------------------------

  /** `EQL` always comes to an answer. */
  lemma {:induction false} EqlAnswers(x: Val, y: Val)
    ensures EqlVal(x, y).VNum? || EqlVal(x, y).VEra?
    decreases x, 1
  {
    if x.VCtr? && y.VCtr? && x.nam == y.nam && |x.args| == |y.args| {
      EqlAllAnswers(x.args, y.args);
    }
  }

  lemma {:induction false} EqlAllAnswers(xs: seq<Val>, ys: seq<Val>)
    requires |xs| == |ys|
    ensures EqlAll(xs, ys).VNum? || EqlAll(xs, ys).VEra?
    decreases xs, 0
  {
    if |xs| == 1 {
      EqlAnswers(xs[0], ys[0]);
    } else if |xs| > 1 {
      var n := |xs| - 1;
      EqlAllAnswers(xs[..n], ys[..n]);
      EqlAnswers(xs[n], ys[n]);
    }
  }

  /** Built from numbers, names and constructors only. */
  predicate Plain(v: Val) {
    v.VNum? || v.VNam? || (v.VCtr? && forall i :: 0 <= i < |v.args| ==> Plain(v.args[i]))
  }

  /** On plain values `EQL` decides equality of the whole values. */
  lemma {:induction false} EqlIsEquality(x: Val, y: Val)
    requires Plain(x) && Plain(y)
    ensures EqlVal(x, y) == VNum(Truth(x == y))
    decreases x, 1
  {
    if x.VCtr? && y.VCtr? && x.nam == y.nam && |x.args| == |y.args| {
      EqlAllIsEquality(x.args, y.args);
    }
  }

  lemma {:induction false} EqlAllIsEquality(xs: seq<Val>, ys: seq<Val>)
    requires |xs| == |ys|
    requires forall i :: 0 <= i < |xs| ==> Plain(xs[i]) && Plain(ys[i])
    ensures EqlAll(xs, ys) == VNum(Truth(xs == ys))
    decreases xs, 0
  {
    if |xs| == 1 {
      EqlIsEquality(xs[0], ys[0]);
    } else if |xs| > 1 {
      var n := |xs| - 1;
      EqlAllIsEquality(xs[..n], ys[..n]);
      EqlIsEquality(xs[n], ys[n]);
      assert xs == xs[..n] + [xs[n]] && ys == ys[..n] + [ys[n]];
    }
  }
}
