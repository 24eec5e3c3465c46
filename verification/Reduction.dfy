/**
 What a reduction step does to a term. It keeps the meaning; it makes the term smaller, or leaves it as
 small and lets the readers of `DUP`s get further; and it keeps the sort of the term. Each is a congruence,
 so that it holds of a whole term when it holds of a part. No sequence of steps can go on for ever.
 */
module Reduction {
  import opened U32Ops
  import opened Calculus

  // ---------------------------------------------------------------------------
  // Size
  // ---------------------------------------------------------------------------

  /** The weight of a leaf. */
  type Base = z: nat | z >= 2 witness 2

  lemma MulUp(a: nat, b: nat, c: nat, d: nat)
    requires 1 <= a <= c && 1 <= b <= d
    ensures a * b <= c * d && (a < c || b < d ==> a * b < c * d)
  {
    assert c * d - a * b == (c - a) * d + a * (d - b);
    assert (c - a) * d >= 0 && a * (d - b) >= 0;
    assert a < c ==> (c - a) * d >= 1;
    assert b < d ==> a * (d - b) >= 1;
  }

  lemma MulTwo(a: nat, b: nat)
    requires a >= 1 && b >= 2
    ensures a * b >= 2 && b * a >= 2 && a * b >= b
  {
    MulUp(1, b, a, b);
  }

  /** The cells of a grid. */
  function Grid(a: nat, b: nat): set<(int, int)> {
    set i, j | 0 <= i < a && 0 <= j < b :: (i, j)
  }

  /** The product, as the size of a grid: weights are multiplied out only where that is called for. */
  function Times(a: nat, b: nat): nat {
    |Grid(a, b)|
  }

  function Row(i: nat, b: nat): set<(int, int)> {
    set j | 0 <= j < b :: (i, j)
  }

  lemma {:induction false} RowSize(i: nat, b: nat)
    ensures |Row(i, b)| == b
  {
    if b > 0 {
      RowSize(i, b - 1);
      assert Row(i, b) == Row(i, b - 1) + {(i, b - 1)};
    }
  }

  lemma GridRows(i: nat, b: nat)
    ensures Grid(i + 1, b) == Grid(i, b) + Row(i, b) && Grid(i, b) !! Row(i, b)
  {
  }

  lemma RowMore(a: nat, b: nat)
    requires a > 0
    ensures (a - 1) * b + b == a * b
  {
  }

  lemma {:induction false} TimesIs(a: nat, b: nat)
    ensures Times(a, b) == a * b
  {
    if a > 0 {
      TimesIs(a - 1, b);
      RowSize(a - 1, b);
      GridRows(a - 1, b);
      assert Times(a, b) == Times(a - 1, b) + b;
      RowMore(a, b);
    } else {
      assert Grid(a, b) == {};
    }
  }

  lemma TimesTwo(a: nat, b: nat)
    requires a >= 1 && b >= 2
    ensures Times(a, b) >= 2 && Times(b, a) >= 2
  {
    TimesIs(a, b);
    TimesIs(b, a);
    MulTwo(a, b);
  }

  lemma TimesUp(a: nat, b: nat, c: nat, d: nat)
    requires 1 <= a <= c && 1 <= b <= d
    ensures Times(a, b) <= Times(c, d) && (a < c || b < d ==> Times(a, b) < Times(c, d))
  {
    TimesIs(a, b);
    TimesIs(c, d);
    MulUp(a, b, c, d);
  }

  function Weight(t: Tree, z: Base): (w: nat)
    ensures w >= 2
    decreases t, 0
  {
    match t
    case TCtr(_, args) => TimesTwo(WeightAll(args, z), z); Times(z, WeightAll(args, z))
    case TSup(_, a, b) => Weight(a, z) + Weight(b, z) + 1
    case TDp(_, _, e) => Weight(e, z)
    case TBin(_, x, y) => TimesTwo(Weight(x, z), Weight(y, z)); Times(Weight(x, z), Weight(y, z))
    case TInc(e) => Weight(e, z) + 1
    case _ => z
  }

  function WeightAll(ts: seq<Tree>, z: Base): (w: nat)
    ensures w >= 1
    decreases ts, 1
  {
    if ts == [] then 1
    else
      var n := |ts| - 1;
      TimesTwo(WeightAll(ts[..n], z), 2 * Weight(ts[n], z));
      Times(WeightAll(ts[..n], z), 2 * Weight(ts[n], z))
  }

  /** The number of nodes, readers not counted. */
  function Size(t: Tree): nat
    decreases t, 0
  {
    match t
    case TCtr(_, args) => 1 + SizeAll(args)
    case TSup(_, a, b) => 1 + Size(a) + Size(b)
    case TDp(_, _, e) => Size(e)
    case TBin(_, x, y) => 1 + Size(x) + Size(y)
    case TInc(e) => 1 + Size(e)
    case _ => 1
  }

  function SizeAll(ts: seq<Tree>): nat
    decreases ts, 1
  {
    if ts == [] then 0 else SizeAll(ts[..|ts| - 1]) + Size(ts[|ts| - 1])
  }

  /** How far the readers still have to go. */
  function Reach(t: Tree): nat
    decreases t, 0
  {
    match t
    case TCtr(_, args) => ReachAll(args)
    case TSup(_, a, b) => Reach(a) + Reach(b)
    case TDp(_, _, e) => Size(e) + Reach(e)
    case TBin(_, x, y) => Reach(x) + Reach(y)
    case TInc(e) => Reach(e)
    case _ => 0
  }

  function ReachAll(ts: seq<Tree>): nat
    decreases ts, 1
  {
    if ts == [] then 0 else ReachAll(ts[..|ts| - 1]) + Reach(ts[|ts| - 1])
  }

  /** Lighter, or as light and the readers no further off. */
  predicate Drop(t: Tree, u: Tree, z: Base) {
    Weight(u, z) < Weight(t, z) || (Weight(u, z) == Weight(t, z) && Size(u) == Size(t) && Reach(u) <= Reach(t))
  }

  predicate Fall(t: Tree, u: Tree, z: Base) {
    Weight(u, z) < Weight(t, z) || (Weight(u, z) == Weight(t, z) && Size(u) == Size(t) && Reach(u) < Reach(t))
  }

  predicate DropAll(ts: seq<Tree>, us: seq<Tree>, z: Base) {
    || WeightAll(us, z) < WeightAll(ts, z)
    || (WeightAll(us, z) == WeightAll(ts, z) && SizeAll(us) == SizeAll(ts) && ReachAll(us) <= ReachAll(ts))
  }

  predicate FallAll(ts: seq<Tree>, us: seq<Tree>, z: Base) {
    || WeightAll(us, z) < WeightAll(ts, z)
    || (WeightAll(us, z) == WeightAll(ts, z) && SizeAll(us) == SizeAll(ts) && ReachAll(us) < ReachAll(ts))
  }

  lemma {:induction false} AllDrop(ts: seq<Tree>, us: seq<Tree>, z: Base)
    requires |ts| == |us| && forall i :: 0 <= i < |ts| ==> Drop(ts[i], us[i], z)
    ensures DropAll(ts, us, z)
  {
    if ts != [] {
      var n := |ts| - 1;
      AllDrop(ts[..n], us[..n], z);
      assert Drop(ts[n], us[n], z);
      TimesUp(WeightAll(us[..n], z), 2 * Weight(us[n], z), WeightAll(ts[..n], z), 2 * Weight(ts[n], z));
    }
  }

  lemma {:induction false} AllFall(ts: seq<Tree>, us: seq<Tree>, j: nat, z: Base)
    requires |ts| == |us| && j < |ts| && Fall(ts[j], us[j], z) && forall i :: 0 <= i < |ts| ==> Drop(ts[i], us[i], z)
    ensures FallAll(ts, us, z)
  {
    var n := |ts| - 1;
    if j == n {
      AllDrop(ts[..n], us[..n], z);
    } else {
      AllFall(ts[..n], us[..n], j, z);
      assert Drop(ts[n], us[n], z);
    }
    TimesUp(WeightAll(us[..n], z), 2 * Weight(us[n], z), WeightAll(ts[..n], z), 2 * Weight(ts[n], z));
  }

  // ---------------------------------------------------------------------------
  // Sorts
  // ---------------------------------------------------------------------------

  /**
   `Single`: no superposition. `Numeric`: it can only become a number or an erasure. `Silent`: nothing that
   is or makes an `INC`, and no logical operation that could get stuck. `Tame`: every `INC` is where it can
   come to the top.
   */
  datatype Sort = Single | Numeric | Silent | Tame

  predicate Has(t: Tree, s: Sort)
    decreases t, 1
  {
    match t
    case TNum(_) => true
    case TEra => true
    case TCtr(_, args) => !s.Numeric? && forall i :: 0 <= i < |args| ==> Has(args[i], Inner(s))
    case TSup(_, a, b) => !s.Single? && Has(a, s) && Has(b, s)
    case TDp(_, _, e) => Has(e, s)
    case TInc(e) => !s.Silent? && Has(e, s)
    case TBin(_, x, y) =>
      (match s
       case Single => Has(x, Single) && Has(y, Single)
       case Numeric => IsNumeric(t)
       case Silent => IsSilent(t)
       case Tame => IsNumeric(t) || IsSilent(t) || ((t.k.KAnd? || t.k.KOr?) && Has(x, Numeric) && Has(y, Tame)))
    case _ => !s.Numeric?
  }

  /** The sort of the fields of a constructor. */
  function Inner(s: Sort): Sort {
    if s.Single? then Single else Silent
  }

  predicate IsNumeric(t: Tree)
    requires t.TBin?
    decreases t, 0
  {
    t.k.KEql? || (Has(t.x, Numeric) && Has(t.y, Numeric))
  }

  predicate IsSilent(t: Tree)
    requires t.TBin?
    decreases t, 0
  {
    !t.k.KEql? && (t.k.KOp2? || Has(t.x, Numeric)) && Has(t.x, Silent) && Has(t.y, Silent)
  }

  // ---------------------------------------------------------------------------
  // The relation
  // ---------------------------------------------------------------------------

  ghost predicate Drops(t: Tree, u: Tree) {
    forall z: Base :: Drop(t, u, z)
  }

  ghost predicate Falls(t: Tree, u: Tree) {
    forall z: Base :: Fall(t, u, z)
  }

  ghost predicate Keeps(t: Tree, u: Tree) {
    forall s: Sort :: Has(t, s) ==> Has(u, s)
  }

  /** `t` may have become `u`. */
  ghost predicate Same(t: Tree, u: Tree) {
    Means(t, u) && Drops(t, u) && Keeps(t, u)
  }

  /** `t` may have become `u` in one step or more. */
  ghost predicate Reduces(t: Tree, u: Tree) {
    Same(t, u) && Falls(t, u)
  }

  lemma SameSelf(t: Tree)
    ensures Same(t, t)
  {
  }

  lemma DropAt(t: Tree, u: Tree, z: Base)
    requires Drops(t, u)
    ensures Drop(t, u, z) && (Falls(t, u) ==> Fall(t, u, z))
  {
  }

  lemma KeepAt(t: Tree, u: Tree, s: Sort)
    requires Keeps(t, u) && Has(t, s)
    ensures Has(u, s)
  {
  }

  lemma DropThen(x: Tree, y: Tree, w: Tree, z: Base)
    requires Drop(x, y, z) && Drop(y, w, z)
    ensures Drop(x, w, z) && (Fall(x, y, z) || Fall(y, w, z) ==> Fall(x, w, z))
  {
  }

  lemma DropsThenAt(x: Tree, y: Tree, w: Tree, z: Base)
    requires Drops(x, y) && Drops(y, w)
    ensures Drop(x, w, z) && (Falls(x, y) || Falls(y, w) ==> Fall(x, w, z))
  {
    DropAt(x, y, z);
    DropAt(y, w, z);
    DropThen(x, y, w, z);
  }

  lemma DropsThen(x: Tree, y: Tree, w: Tree)
    requires Drops(x, y) && Drops(y, w)
    ensures Drops(x, w) && (Falls(x, y) || Falls(y, w) ==> Falls(x, w))
  {
    forall z: Base
      ensures Drop(x, w, z) && (Falls(x, y) || Falls(y, w) ==> Fall(x, w, z))
    {
      DropsThenAt(x, y, w, z);
    }
  }

  lemma KeepsThen(x: Tree, y: Tree, w: Tree)
    requires Keeps(x, y) && Keeps(y, w)
    ensures Keeps(x, w)
  {
    forall s: Sort | Has(x, s)
      ensures Has(w, s)
    {
      KeepAt(x, y, s);
      KeepAt(y, w, s);
    }
  }

  lemma SameTrans(x: Tree, y: Tree, w: Tree)
    requires Same(x, y) && Same(y, w)
    ensures Same(x, w) && (Falls(x, y) || Falls(y, w) ==> Falls(x, w))
  {
    DropsThen(x, y, w);
    KeepsThen(x, y, w);
  }

  // ---------------------------------------------------------------------------
  // Congruence
  // ---------------------------------------------------------------------------

  lemma DropBinAt(k: Kind, x: Tree, y: Tree, x': Tree, y': Tree, z: Base)
    requires Drop(x, x', z) && Drop(y, y', z)
    ensures Drop(TBin(k, x, y), TBin(k, x', y'), z)
    ensures Fall(x, x', z) || Fall(y, y', z) ==> Fall(TBin(k, x, y), TBin(k, x', y'), z)
  {
    TimesUp(Weight(x', z), Weight(y', z), Weight(x, z), Weight(y, z));
  }

  lemma DropBin(k: Kind, x: Tree, y: Tree, x': Tree, y': Tree)
    requires Drops(x, x') && Drops(y, y')
    ensures Drops(TBin(k, x, y), TBin(k, x', y'))
    ensures Falls(x, x') || Falls(y, y') ==> Falls(TBin(k, x, y), TBin(k, x', y'))
  {
    forall z: Base
      ensures Drop(TBin(k, x, y), TBin(k, x', y'), z)
      ensures Falls(x, x') || Falls(y, y') ==> Fall(TBin(k, x, y), TBin(k, x', y'), z)
    {
      DropAt(x, x', z);
      DropAt(y, y', z);
      DropBinAt(k, x, y, x', y', z);
    }
  }

  lemma BinKeeps(k: Kind, x: Tree, y: Tree, x': Tree, y': Tree)
    requires Keeps(x, x') && Keeps(y, y')
    ensures Keeps(TBin(k, x, y), TBin(k, x', y'))
  {
    forall s: Sort | Has(TBin(k, x, y), s)
      ensures Has(TBin(k, x', y'), s)
    {
      BinKeepsAt(k, x, y, x', y', s);
    }
  }

  lemma BinKeepsAt(k: Kind, x: Tree, y: Tree, x': Tree, y': Tree, s: Sort)
    requires Keeps(x, x') && Keeps(y, y') && Has(TBin(k, x, y), s)
    ensures Has(TBin(k, x', y'), s)
  {
    AllSorts(x, x');
    AllSorts(y, y');
    var t, t' := TBin(k, x, y), TBin(k, x', y');
    assert IsNumeric(t) ==> IsNumeric(t');
    assert IsSilent(t) ==> IsSilent(t');
  }

  lemma AllSorts(x: Tree, y: Tree)
    requires Keeps(x, y)
    ensures (Has(x, Single) ==> Has(y, Single)) && (Has(x, Numeric) ==> Has(y, Numeric))
    ensures (Has(x, Silent) ==> Has(y, Silent)) && (Has(x, Tame) ==> Has(y, Tame))
  {
  }

  lemma SameBin(k: Kind, x: Tree, y: Tree, x': Tree, y': Tree)
    requires Same(x, x') && Same(y, y')
    ensures Same(TBin(k, x, y), TBin(k, x', y'))
    ensures Falls(x, x') || Falls(y, y') ==> Falls(TBin(k, x, y), TBin(k, x', y'))
  {
    DropBin(k, x, y, x', y');
    BinKeeps(k, x, y, x', y');
    assert Means(TBin(k, x, y), TBin(k, x', y'));
  }

  lemma SameSup(l: Label, a: Tree, b: Tree, a': Tree, b': Tree)
    requires Same(a, a') && Same(b, b')
    ensures Same(TSup(l, a, b), TSup(l, a', b'))
  {
    forall z: Base {
      SupDrops(l, a, b, a', b', z);
    }
    forall s: Sort | Has(TSup(l, a, b), s) {
      SupKeeps(l, a, b, a', b', s);
    }
    SupMeans(l, a, b, a', b');
  }

  lemma SupDrops(l: Label, a: Tree, b: Tree, a': Tree, b': Tree, z: Base)
    requires Drops(a, a') && Drops(b, b')
    ensures Drop(TSup(l, a, b), TSup(l, a', b'), z)
  {
    DropAt(a, a', z);
    DropAt(b, b', z);
  }

  lemma SupKeeps(l: Label, a: Tree, b: Tree, a': Tree, b': Tree, s: Sort)
    requires Keeps(a, a') && Keeps(b, b') && Has(TSup(l, a, b), s)
    ensures Has(TSup(l, a', b'), s)
  {
    KeepAt(a, a', s);
    KeepAt(b, b', s);
  }

  lemma SupMeans(l: Label, a: Tree, b: Tree, a': Tree, b': Tree)
    requires Means(a, a') && Means(b, b')
    ensures Means(TSup(l, a, b), TSup(l, a', b'))
  {
  }

  lemma SameInc(x: Tree, x': Tree)
    requires Same(x, x')
    ensures Same(TInc(x), TInc(x'))
  {
    forall z: Base
      ensures Drop(TInc(x), TInc(x'), z)
    {
      DropAt(x, x', z);
    }
    forall s: Sort | Has(TInc(x), s)
      ensures Has(TInc(x'), s)
    {
      KeepAt(x, x', s);
    }
    assert Means(TInc(x), TInc(x'));
  }

  lemma DropDp(i: bit, l: Label, x: Tree, y: Tree)
    requires Drops(x, y)
    ensures Drops(TDp(i, l, x), TDp(i, l, y)) && (Falls(x, y) ==> Falls(TDp(i, l, x), TDp(i, l, y)))
  {
    forall z: Base
      ensures Drop(TDp(i, l, x), TDp(i, l, y), z) && (Falls(x, y) ==> Fall(TDp(i, l, x), TDp(i, l, y), z))
    {
      DropAt(x, y, z);
    }
  }

  lemma SameDp(i: bit, l: Label, x: Tree, y: Tree)
    requires Same(x, y)
    ensures Same(TDp(i, l, x), TDp(i, l, y)) && (Falls(x, y) ==> Falls(TDp(i, l, x), TDp(i, l, y)))
  {
    DropDp(i, l, x, y);
    forall s: Sort | Has(TDp(i, l, x), s)
      ensures Has(TDp(i, l, y), s)
    {
      KeepAt(x, y, s);
    }
    assert Means(TDp(i, l, x), TDp(i, l, y));
  }

  ghost predicate AllSame(xs: seq<Tree>, ys: seq<Tree>) {
    |xs| == |ys| && forall i :: 0 <= i < |xs| ==> Same(xs[i], ys[i])
  }

  lemma CtrMeans(nam: nat, xs: seq<Tree>, ys: seq<Tree>)
    requires AllSame(xs, ys)
    ensures Means(TCtr(nam, xs), TCtr(nam, ys))
  {
    forall r: Env
      ensures D(TCtr(nam, xs), r) == D(TCtr(nam, ys), r)
    {
      assert forall i :: 0 <= i < |xs| ==> D(xs[i], r) == D(ys[i], r);
    }
  }

  lemma CtrDrops(nam: nat, xs: seq<Tree>, ys: seq<Tree>, z: Base)
    requires AllSame(xs, ys)
    ensures Drop(TCtr(nam, xs), TCtr(nam, ys), z)
  {
    forall i | 0 <= i < |xs|
      ensures Drop(xs[i], ys[i], z)
    {
      DropAt(xs[i], ys[i], z);
    }
    AllDrop(xs, ys, z);
    TimesUp(z, WeightAll(ys, z), z, WeightAll(xs, z));
  }

  lemma CtrKeeps(nam: nat, xs: seq<Tree>, ys: seq<Tree>, s: Sort)
    requires AllSame(xs, ys) && Has(TCtr(nam, xs), s)
    ensures Has(TCtr(nam, ys), s)
  {
    forall i | 0 <= i < |ys|
      ensures Has(ys[i], Inner(s))
    {
      KeepAt(xs[i], ys[i], Inner(s));
    }
  }

  lemma SameCtr(nam: nat, xs: seq<Tree>, ys: seq<Tree>)
    requires AllSame(xs, ys)
    ensures Same(TCtr(nam, xs), TCtr(nam, ys))
  {
    CtrMeans(nam, xs, ys);
    forall z: Base {
      CtrDrops(nam, xs, ys, z);
    }
    forall s: Sort | Has(TCtr(nam, xs), s) {
      CtrKeeps(nam, xs, ys, s);
    }
  }
}
