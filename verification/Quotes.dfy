/**
 Values written out as terms. A term that is written out has no superposition, erasure, `INC`, reader or
 redex at any position; and nothing that means the same is as light, so no step can change it any more.
 */
module Quotes {
  import opened U32Ops
  import opened Calculus
  import opened Reduction

  /** No erasure anywhere in the value. */
  predicate Clean(v: Val) {
    match v
    case VEra => false
    case VCtr(_, args) => forall i :: 0 <= i < |args| ==> Clean(args[i])
    case VOp2(_, x, y) => Clean(x) && Clean(y)
    case VAnd(x, y) => Clean(x) && Clean(y)
    case VOr(x, y) => Clean(x) && Clean(y)
    case _ => true
  }

  function Quote(v: Val): Tree {
    match v
    case VNum(n) => TNum(n)
    case VEra => TEra
    case VAny => TAny
    case VNam(tag, ext, val) => TNam(tag, ext, val)
    case VCtr(nam, args) => TCtr(nam, Quotes(args))
    case VOp2(opr, x, y) => TBin(KOp2(opr), Quote(x), Quote(y))
    case VAnd(x, y) => TBin(KAnd, Quote(x), Quote(y))
    case VOr(x, y) => TBin(KOr, Quote(x), Quote(y))
  }

  function Quotes(vs: seq<Val>): seq<Tree> {
    seq(|vs|, i requires 0 <= i < |vs| => Quote(vs[i]))
  }

  /** The term is its one value, written out; the value has no erasure. */
  ghost predicate Quoted(t: Tree) {
    forall r: Env :: Clean(D(t, r)) && t == Quote(D(t, r))
  }

  // ---------------------------------------------------------------------------
  // Normal forms
  // ---------------------------------------------------------------------------

  /** No superposition, erasure, `INC`, reader, comparison or operation that can act, at any position. */
  predicate Normal(t: Tree) {
    match t
    case TNum(_) => true
    case TAny => true
    case TNam(_, _, _) => true
    case TCtr(_, args) => forall i :: 0 <= i < |args| ==> Normal(args[i])
    case TBin(k, x, y) => Normal(x) && Normal(y) && !k.KEql? && !(x.TNum? && (k.KOp2? ==> y.TNum?))
    case _ => false
  }

  /** Writing out the value of a term and reading it again; without erasures, it is normal. */
  lemma {:induction false} QuoteReads(t: Tree, r: Env, r2: Env)
    ensures D(Quote(D(t, r)), r2) == D(t, r)
    ensures Clean(D(t, r)) ==> Normal(Quote(D(t, r)))
    decreases t
  {
    match t
    case TCtr(nam, args) =>
      var vs := D(t, r).args;
      forall i | 0 <= i < |args|
        ensures vs[i] == D(args[i], r) && D(Quote(vs[i]), r2) == vs[i] && (Clean(vs[i]) ==> Normal(Quote(vs[i])))
      {
        QuoteReads(args[i], r, r2);
      }
      assert D(Quote(D(t, r)), r2).args == vs;
    case TSup(l, a, b) => QuoteReads(if Next(r, l) == 0 then a else b, Pop(r, l), r2);
    case TDp(i, l, e) => QuoteReads(e, Push(r, l, i), r2);
    case TInc(e) => QuoteReads(e, r, r2);
    case TBin(k, x, y) =>
      QuoteReads(x, r, r2);
      QuoteReads(y, r, r2);
      EqlAnswers(D(x, r), D(y, r));
      BinReads(k, D(x, r), D(y, r), r2);
    case _ =>
  }

  lemma BinReads(k: Kind, x: Val, y: Val, r: Env)
    requires D(Quote(x), r) == x && D(Quote(y), r) == y
    requires Clean(x) ==> Normal(Quote(x))
    requires Clean(y) ==> Normal(Quote(y))
    requires k.KEql? ==> BinVal(k, x, y).VNum? || BinVal(k, x, y).VEra?
    ensures var v := BinVal(k, x, y); D(Quote(v), r) == v && (Clean(v) ==> Normal(Quote(v)))
  {
  }

  lemma {:induction false} NormalQuoted(t: Tree, r: Env)
    requires Normal(t)
    ensures Clean(D(t, r)) && t == Quote(D(t, r))
    decreases t
  {
    match t
    case TCtr(nam, args) =>
      var vs := D(t, r).args;
      forall i | 0 <= i < |args|
        ensures vs[i] == D(args[i], r) && Clean(vs[i]) && args[i] == Quote(vs[i])
      {
        NormalQuoted(args[i], r);
      }
      assert args == Quotes(vs);
    case TBin(k, x, y) =>
      NormalQuoted(x, r);
      NormalQuoted(y, r);
    case _ =>
  }

  /** The terms that are written out are the normal ones. */
  lemma QuotedNormal(t: Tree)
    ensures Quoted(t) <==> Normal(t)
  {
    if Normal(t) {
      forall r: Env
        ensures Clean(D(t, r)) && t == Quote(D(t, r))
      {
        NormalQuoted(t, r);
      }
    }
    if Quoted(t) {
      var r: Env :| true;
      QuoteReads(t, r, r);
    }
  }

  // ---------------------------------------------------------------------------
  // Nothing is lighter
  // ---------------------------------------------------------------------------

  lemma {:induction false} QuoteReach(v: Val)
    ensures Reach(Quote(v)) == 0
    decreases v
  {
    match v
    case VCtr(nam, args) =>
      forall i | 0 <= i < |args|
        ensures Reach(Quotes(args)[i]) == 0
      {
        QuoteReach(args[i]);
      }
      NoReach(Quotes(args));
    case VOp2(_, x, y) =>
      QuoteReach(x);
      QuoteReach(y);
    case VAnd(x, y) =>
      QuoteReach(x);
      QuoteReach(y);
    case VOr(x, y) =>
      QuoteReach(x);
      QuoteReach(y);
    case _ =>
  }

  lemma {:induction false} NoReach(ts: seq<Tree>)
    requires forall i :: 0 <= i < |ts| ==> Reach(ts[i]) == 0
    ensures ReachAll(ts) == 0
  {
    if ts != [] {
      NoReach(ts[..|ts| - 1]);
    }
  }

  /** `u` is no lighter than `t`, and is `t` if it is as light and has no reader. */
  predicate Least(t: Tree, u: Tree, z: Base) {
    Weight(t, z) <= Weight(u, z) && (Weight(t, z) == Weight(u, z) && Reach(u) == 0 ==> t == u)
  }

  predicate LeastAll(ts: seq<Tree>, us: seq<Tree>, z: Base) {
    WeightAll(ts, z) <= WeightAll(us, z) && (WeightAll(ts, z) == WeightAll(us, z) && ReachAll(us) == 0 ==> ts == us)
  }

  lemma TimesSame(a: nat, b: nat, c: nat, d: nat)
    requires 1 <= a <= c && 1 <= b <= d
    ensures Times(a, b) <= Times(c, d) && (Times(a, b) == Times(c, d) ==> a == c && b == d)
  {
    TimesUp(a, b, c, d);
  }

  lemma {:induction false} AllLeast(ts: seq<Tree>, us: seq<Tree>, z: Base)
    requires |ts| == |us| && forall i :: 0 <= i < |ts| ==> Least(ts[i], us[i], z)
    ensures LeastAll(ts, us, z)
  {
    if ts != [] {
      var n := |ts| - 1;
      AllLeast(ts[..n], us[..n], z);
      LastLeast(ts, us, z);
    }
  }

  lemma LastLeast(ts: seq<Tree>, us: seq<Tree>, z: Base)
    requires |ts| == |us| > 0 && LeastAll(ts[..|ts| - 1], us[..|ts| - 1], z) && Least(ts[|ts| - 1], us[|ts| - 1], z)
    ensures LeastAll(ts, us, z)
  {
    var n := |ts| - 1;
    TimesSame(WeightAll(ts[..n], z), 2 * Weight(ts[n], z), WeightAll(us[..n], z), 2 * Weight(us[n], z));
    assert ts == ts[..n] + [ts[n]] && us == us[..n] + [us[n]];
  }

  lemma CtrLeast(nam: nat, ts: seq<Tree>, us: seq<Tree>, z: Base)
    requires LeastAll(ts, us, z)
    ensures Least(TCtr(nam, ts), TCtr(nam, us), z)
  {
    TimesSame(z, WeightAll(ts, z), z, WeightAll(us, z));
  }

  lemma BinLeast(k: Kind, x: Tree, y: Tree, x': Tree, y': Tree, z: Base)
    requires Least(x, x', z) && Least(y, y', z)
    ensures Least(TBin(k, x, y), TBin(k, x', y'), z)
  {
    TimesSame(Weight(x, z), Weight(y, z), Weight(x', z), Weight(y', z));
  }

  lemma {:induction false} WeightLeast(t: Tree, z: Base)
    ensures Weight(t, z) >= z
    decreases t
  {
    match t
    case TCtr(_, args) =>
      TimesUp(z, 1, z, WeightAll(args, z));
      TimesIs(z, 1);
    case TSup(_, a, b) => WeightLeast(a, z);
    case TDp(_, _, e) => WeightLeast(e, z);
    case TBin(_, x, y) =>
      WeightLeast(y, z);
      TimesHeavy(Weight(x, z), Weight(y, z));
    case TInc(e) => WeightLeast(e, z);
    case _ =>
  }

  lemma TimesHeavy(a: nat, b: nat)
    requires a >= 2 && b >= 1
    ensures Times(a, b) > b
  {
    TimesUp(1, b, a, b);
    TimesIs(1, b);
  }

  /** An operation is heavier than its second operand and than any atom. */
  lemma BinHeavy(k: Kind, x: Tree, y: Tree, z: Base)
    ensures Weight(TBin(k, x, y), z) > Weight(y, z) >= z
  {
    WeightLeast(y, z);
    TimesHeavy(Weight(x, z), Weight(y, z));
  }

  /** The written value of a term is the lightest term with that value. */
  lemma {:induction false} QuoteLeast(t: Tree, r: Env, z: Base)
    requires Clean(D(t, r))
    ensures Least(Quote(D(t, r)), t, z)
    decreases t
  {
    match t
    case TCtr(nam, args) =>
      var vs := D(t, r).args;
      forall i | 0 <= i < |args|
        ensures Least(Quotes(vs)[i], args[i], z)
      {
        assert vs[i] == D(args[i], r);
        QuoteLeast(args[i], r, z);
      }
      AllLeast(Quotes(vs), args, z);
      CtrLeast(nam, Quotes(vs), args, z);
    case TSup(l, a, b) => QuoteLeast(if Next(r, l) == 0 then a else b, Pop(r, l), z);
    case TDp(i, l, e) =>
      QuoteLeast(e, Push(r, l, i), z);
      SizeSome(e);
    case TInc(e) => QuoteLeast(e, r, z);
    case TBin(k, x, y) =>
      if Clean(D(x, r)) {
        QuoteLeast(x, r, z);
      }
      if Clean(D(y, r)) {
        QuoteLeast(y, r, z);
      }
      EqlAnswers(D(x, r), D(y, r));
      BinQuoteLeast(k, x, y, D(x, r), D(y, r), z);
    case _ =>
  }

  lemma {:induction false} SizeSome(t: Tree)
    ensures Size(t) > 0
    decreases t
  {
    if t.TDp? {
      SizeSome(t.e);
    }
  }

  lemma BinQuoteLeast(k: Kind, x: Tree, y: Tree, vx: Val, vy: Val, z: Base)
    requires Clean(BinVal(k, vx, vy)) && (k.KEql? ==> BinVal(k, vx, vy).VNum?)
    requires Clean(vx) ==> Least(Quote(vx), x, z)
    requires Clean(vy) ==> Least(Quote(vy), y, z)
    ensures Least(Quote(BinVal(k, vx, vy)), TBin(k, x, y), z)
  {
    var v := BinVal(k, vx, vy);
    BinHeavy(k, x, y, z);
    if v.VNum? {
      assert Weight(Quote(v), z) == z;
    } else if v != vy || k.KOp2? {
      assert Clean(vx) && Clean(vy) && Quote(v) == TBin(k, Quote(vx), Quote(vy));
      BinLeast(k, Quote(vx), Quote(vy), x, y, z);
    }
  }

  /** What is written out stays as it is. */
  lemma QuotedStays(t: Tree, u: Tree)
    requires Same(t, u) && Quoted(t)
    ensures u == t
  {
    var r: Env :| true;
    assert D(t, r) == D(u, r);
    QuoteLeast(u, r, 2);
    QuoteReach(D(t, r));
    DropAt(t, u, 2);
  }
}
