/** The interaction rules on terms: each is a step of `Reduction`. */
module Laws {
  import opened U32Ops
  import opened Calculus
  import opened Reduction

  /** A step, and then what its parts have become. */
  lemma Then(t: Tree, u: Tree, w: Tree)
    requires Reduces(t, u) && Same(u, w)
    ensures Reduces(t, w)
  {
    SameTrans(t, u, w);
  }

  lemma SameFalls(t: Tree, u: Tree)
    requires Means(t, u) && Falls(t, u) && Keeps(t, u)
    ensures Reduces(t, u)
  {
    forall z: Base
      ensures Drop(t, u, z)
    {
      assert Fall(t, u, z);
    }
  }

  // ---------------------------------------------------------------------------
  // DUP
  // ---------------------------------------------------------------------------

  /** Readers weigh nothing. */
  lemma DpMeasure(i: bit, l: Label, e: Tree, z: Base)
    ensures Weight(TDp(i, l, e), z) == Weight(e, z) && Size(TDp(i, l, e)) == Size(e)
    ensures Reach(TDp(i, l, e)) == Size(e) + Reach(e)
  {
  }

  /** DUP-SUP with equal labels: the pair annihilates. */
  lemma DupSupAnnihilates(i: bit, l: Label, a: Tree, b: Tree)
    ensures Reduces(TDp(i, l, TSup(l, a, b)), if i == 0 then a else b)
  {
    var t, u := TDp(i, l, TSup(l, a, b)), if i == 0 then a else b;
    forall r: Env
      ensures D(t, r) == D(u, r)
    {
      PopPush(r, l, i);
    }
    forall z: Base
      ensures Fall(t, u, z)
    {
      DpMeasure(i, l, TSup(l, a, b), z);
    }
    forall s: Sort | Has(t, s)
      ensures Has(u, s)
    {
      assert Has(TSup(l, a, b), s);
    }
    SameFalls(t, u);
  }

  /** DUP-SUP with different labels: the two commute. */
  lemma DupSupCommutes(i: bit, l: Label, m: Label, a: Tree, b: Tree)
    requires l != m
    ensures Reduces(TDp(i, l, TSup(m, a, b)), TSup(m, TDp(i, l, a), TDp(i, l, b)))
  {
    var t, u := TDp(i, l, TSup(m, a, b)), TSup(m, TDp(i, l, a), TDp(i, l, b));
    forall r: Env
      ensures D(t, r) == D(u, r)
    {
      PopPushOther(r, l, m, i);
    }
    forall z: Base
      ensures Fall(t, u, z)
    {
      DpMeasure(i, l, TSup(m, a, b), z);
      DpMeasure(i, l, a, z);
      DpMeasure(i, l, b, z);
    }
    forall s: Sort | Has(t, s)
      ensures Has(u, s)
    {
      assert Has(TSup(m, a, b), s);
    }
    SameFalls(t, u);
  }

  function Dups(i: bit, l: Label, ts: seq<Tree>): seq<Tree> {
    seq(|ts|, k requires 0 <= k < |ts| => TDp(i, l, ts[k]))
  }

  lemma {:induction false} DupsMeasure(i: bit, l: Label, ts: seq<Tree>, z: Base)
    ensures var us := Dups(i, l, ts);
            && WeightAll(us, z) == WeightAll(ts, z) && SizeAll(us) == SizeAll(ts)
            && ReachAll(us) == SizeAll(ts) + ReachAll(ts)
  {
    if ts != [] {
      var n := |ts| - 1;
      assert Dups(i, l, ts)[..n] == Dups(i, l, ts[..n]);
      DupsMeasure(i, l, ts[..n], z);
    }
  }

  /** DUP-NOD on a constructor. */
  lemma DupCtr(i: bit, l: Label, nam: nat, args: seq<Tree>)
    ensures Reduces(TDp(i, l, TCtr(nam, args)), TCtr(nam, Dups(i, l, args)))
  {
    var t, u := TDp(i, l, TCtr(nam, args)), TCtr(nam, Dups(i, l, args));
    forall r: Env
      ensures D(t, r) == D(u, r)
    {
      assert D(t, r) == D(TCtr(nam, args), Push(r, l, i));
      assert forall k :: 0 <= k < |args| ==> D(Dups(i, l, args)[k], r) == D(args[k], Push(r, l, i));
    }
    forall z: Base
      ensures Fall(t, u, z)
    {
      DpMeasure(i, l, TCtr(nam, args), z);
      DupsMeasure(i, l, args, z);
    }
    forall s: Sort | Has(t, s)
      ensures Has(u, s)
    {
      assert Has(TCtr(nam, args), s);
    }
    SameFalls(t, u);
  }

  /** DUP-NOD on a node of two fields. */
  lemma DupBin(i: bit, l: Label, k: Kind, x: Tree, y: Tree)
    ensures Reduces(TDp(i, l, TBin(k, x, y)), TBin(k, TDp(i, l, x), TDp(i, l, y)))
  {
    var t, u := TDp(i, l, TBin(k, x, y)), TBin(k, TDp(i, l, x), TDp(i, l, y));
    forall r: Env
      ensures D(t, r) == D(u, r)
    {
      assert D(t, r) == D(TBin(k, x, y), Push(r, l, i));
    }
    forall z: Base
      ensures Fall(t, u, z)
    {
      DpMeasure(i, l, TBin(k, x, y), z);
      DpMeasure(i, l, x, z);
      DpMeasure(i, l, y, z);
    }
    forall s: Sort | Has(t, s)
      ensures Has(u, s)
    {
      DupBinKeeps(i, l, k, x, y, s);
    }
    SameFalls(t, u);
  }

  /** Readers have the sorts of what they read. */
  lemma DpSorts(i: bit, l: Label, e: Tree)
    ensures Has(TDp(i, l, e), Single) == Has(e, Single) && Has(TDp(i, l, e), Numeric) == Has(e, Numeric)
    ensures Has(TDp(i, l, e), Silent) == Has(e, Silent) && Has(TDp(i, l, e), Tame) == Has(e, Tame)
  {
  }

  lemma DupBinKeeps(i: bit, l: Label, k: Kind, x: Tree, y: Tree, s: Sort)
    requires Has(TBin(k, x, y), s)
    ensures Has(TBin(k, TDp(i, l, x), TDp(i, l, y)), s)
  {
    var t, u := TBin(k, x, y), TBin(k, TDp(i, l, x), TDp(i, l, y));
    DpSorts(i, l, x);
    DpSorts(i, l, y);
    assert IsNumeric(t) == IsNumeric(u);
    assert IsSilent(t) == IsSilent(u);
  }

  /** DUP-NOD on an INC. */
  lemma DupInc(i: bit, l: Label, e: Tree)
    ensures Reduces(TDp(i, l, TInc(e)), TInc(TDp(i, l, e)))
  {
    var t, u := TDp(i, l, TInc(e)), TInc(TDp(i, l, e));
    assert Means(t, u);
    forall z: Base
      ensures Fall(t, u, z)
    {
      DpMeasure(i, l, TInc(e), z);
      DpMeasure(i, l, e, z);
    }
    forall s: Sort | Has(t, s)
      ensures Has(u, s)
    {
      assert Has(TInc(e), s);
    }
    SameFalls(t, u);
  }

  predicate Atom(t: Tree) {
    t.TNum? || t.TEra? || t.TAny? || t.TNam? || (t.TCtr? && t.args == [])
  }

  /** DUP-NAM, and DUP-NOD without fields. */
  lemma DupAtom(i: bit, l: Label, t: Tree)
    requires Atom(t)
    ensures Reduces(TDp(i, l, t), t)
  {
    forall r: Env
      ensures D(TDp(i, l, t), r) == D(t, r)
    {
    }
    forall z: Base
      ensures Fall(TDp(i, l, t), t, z)
    {
      DpMeasure(i, l, t, z);
    }
    assert Keeps(TDp(i, l, t), t);
    SameFalls(TDp(i, l, t), t);
  }

  // ---------------------------------------------------------------------------
  // SUP under a node
  // ---------------------------------------------------------------------------

  lemma SupWeight(a: nat, b: nat, y: nat)
    requires y >= 2
    ensures Times(a + b + 1, y) > Times(a, y) + Times(b, y) + 1
  {
    TimesIs(a + b + 1, y);
    TimesIs(a, y);
    TimesIs(b, y);
    assert (a + b + 1) * y == a * y + b * y + y;
  }

  lemma SupWeightRight(a: nat, b: nat, x: nat)
    requires x >= 2
    ensures Times(x, a + b + 1) > Times(x, a) + Times(x, b) + 1
  {
    TimesIs(x, a + b + 1);
    TimesIs(x, a);
    TimesIs(x, b);
    assert x * (a + b + 1) == x * a + x * b + x;
  }

  lemma BinSupKeeps(k: Kind, l: Label, a: Tree, b: Tree, y: Tree, s: Sort)
    requires Has(TBin(k, TSup(l, a, b), y), s)
    ensures Has(TSup(l, TBin(k, a, TDp(0, l, y)), TBin(k, b, TDp(1, l, y))), s)
  {
    var t, u, v := TBin(k, TSup(l, a, b), y), TBin(k, a, TDp(0, l, y)), TBin(k, b, TDp(1, l, y));
    var x := TSup(l, a, b);
    assert forall s' :: Has(x, s') ==> Has(a, s') && Has(b, s') && !s'.Single?;
    assert forall s' :: Has(TDp(0, l, y), s') == Has(y, s') && Has(TDp(1, l, y), s') == Has(y, s');
    assert IsNumeric(t) ==> IsNumeric(u) && IsNumeric(v);
    assert IsSilent(t) ==> IsSilent(u) && IsSilent(v);
  }

  /** OP2-SUP, AND-SUP, OR-SUP and EQL-SUP-L: the other operand is shared by both sides. */
  lemma BinSupLeft(k: Kind, l: Label, a: Tree, b: Tree, y: Tree, a': Tree, b': Tree, y': Tree)
    requires Same(a, a') && Same(b, b') && Same(y, y')
    ensures Reduces(TBin(k, TSup(l, a, b), y), TSup(l, TBin(k, a', TDp(0, l, y')), TBin(k, b', TDp(1, l, y'))))
  {
    BinSupLeftOnly(k, l, a, b, y);
    SameDp(0, l, y, y');
    SameDp(1, l, y, y');
    SameBin(k, a, TDp(0, l, y), a', TDp(0, l, y'));
    SameBin(k, b, TDp(1, l, y), b', TDp(1, l, y'));
    var u, v := TBin(k, a, TDp(0, l, y)), TBin(k, b, TDp(1, l, y));
    SameSup(l, u, v, TBin(k, a', TDp(0, l, y')), TBin(k, b', TDp(1, l, y')));
    Then(TBin(k, TSup(l, a, b), y), TSup(l, u, v), TSup(l, TBin(k, a', TDp(0, l, y')), TBin(k, b', TDp(1, l, y'))));
  }

  lemma SupLeftFalls(k: Kind, l: Label, a: Tree, b: Tree, y: Tree, z: Base)
    ensures Fall(TBin(k, TSup(l, a, b), y), TSup(l, TBin(k, a, TDp(0, l, y)), TBin(k, b, TDp(1, l, y))), z)
  {
    DpMeasure(0, l, y, z);
    DpMeasure(1, l, y, z);
    SupWeight(Weight(a, z), Weight(b, z), Weight(y, z));
    var u, v := TBin(k, a, TDp(0, l, y)), TBin(k, b, TDp(1, l, y));
    assert Weight(TSup(l, u, v), z) == Weight(u, z) + Weight(v, z) + 1;
  }

  lemma SupLeftMeans(k: Kind, l: Label, a: Tree, b: Tree, y: Tree)
    ensures Means(TBin(k, TSup(l, a, b), y), TSup(l, TBin(k, a, TDp(0, l, y)), TBin(k, b, TDp(1, l, y))))
  {
    var t, u := TBin(k, TSup(l, a, b), y), TSup(l, TBin(k, a, TDp(0, l, y)), TBin(k, b, TDp(1, l, y)));
    forall r: Env
      ensures D(t, r) == D(u, r)
    {
      PushPop(r, l);
      var i, r' := Next(r, l), Pop(r, l);
      assert D(TDp(i, l, y), r') == D(y, r);
      assert D(TSup(l, a, b), r) == D(if i == 0 then a else b, r');
    }
  }

  lemma BinSupLeftOnly(k: Kind, l: Label, a: Tree, b: Tree, y: Tree)
    ensures Reduces(TBin(k, TSup(l, a, b), y), TSup(l, TBin(k, a, TDp(0, l, y)), TBin(k, b, TDp(1, l, y))))
  {
    var t, u := TBin(k, TSup(l, a, b), y), TSup(l, TBin(k, a, TDp(0, l, y)), TBin(k, b, TDp(1, l, y)));
    SupLeftMeans(k, l, a, b, y);
    forall z: Base {
      SupLeftFalls(k, l, a, b, y, z);
    }
    forall s: Sort | Has(t, s) {
      BinSupKeeps(k, l, a, b, y, s);
    }
    SameFalls(t, u);
  }

  lemma BinSupKeepsRight(k: Kind, l: Label, x: Tree, a: Tree, b: Tree, s: Sort)
    requires Has(TBin(k, x, TSup(l, a, b)), s)
    ensures Has(TSup(l, TBin(k, TDp(0, l, x), a), TBin(k, TDp(1, l, x), b)), s)
  {
    var t, u, v := TBin(k, x, TSup(l, a, b)), TBin(k, TDp(0, l, x), a), TBin(k, TDp(1, l, x), b);
    var y := TSup(l, a, b);
    assert forall s' :: Has(y, s') ==> Has(a, s') && Has(b, s') && !s'.Single?;
    assert forall s' :: Has(TDp(0, l, x), s') == Has(x, s') && Has(TDp(1, l, x), s') == Has(x, s');
    assert IsNumeric(t) ==> IsNumeric(u) && IsNumeric(v);
    assert IsSilent(t) ==> IsSilent(u) && IsSilent(v);
  }

  /** EQL-SUP-R. */
  lemma BinSupRight(k: Kind, l: Label, x: Tree, a: Tree, b: Tree, x': Tree, a': Tree, b': Tree)
    requires Same(x, x') && Same(a, a') && Same(b, b')
    ensures Reduces(TBin(k, x, TSup(l, a, b)), TSup(l, TBin(k, TDp(0, l, x'), a'), TBin(k, TDp(1, l, x'), b')))
  {
    BinSupRightOnly(k, l, x, a, b);
    SameDp(0, l, x, x');
    SameDp(1, l, x, x');
    SameBin(k, TDp(0, l, x), a, TDp(0, l, x'), a');
    SameBin(k, TDp(1, l, x), b, TDp(1, l, x'), b');
    var u, v := TBin(k, TDp(0, l, x), a), TBin(k, TDp(1, l, x), b);
    SameSup(l, u, v, TBin(k, TDp(0, l, x'), a'), TBin(k, TDp(1, l, x'), b'));
    Then(TBin(k, x, TSup(l, a, b)), TSup(l, u, v), TSup(l, TBin(k, TDp(0, l, x'), a'), TBin(k, TDp(1, l, x'), b')));
  }

  lemma SupRightFalls(k: Kind, l: Label, x: Tree, a: Tree, b: Tree, z: Base)
    ensures Fall(TBin(k, x, TSup(l, a, b)), TSup(l, TBin(k, TDp(0, l, x), a), TBin(k, TDp(1, l, x), b)), z)
  {
    DpMeasure(0, l, x, z);
    DpMeasure(1, l, x, z);
    SupWeightRight(Weight(a, z), Weight(b, z), Weight(x, z));
    var u, v := TBin(k, TDp(0, l, x), a), TBin(k, TDp(1, l, x), b);
    assert Weight(TSup(l, u, v), z) == Weight(u, z) + Weight(v, z) + 1;
  }

  lemma SupRightMeans(k: Kind, l: Label, x: Tree, a: Tree, b: Tree)
    ensures Means(TBin(k, x, TSup(l, a, b)), TSup(l, TBin(k, TDp(0, l, x), a), TBin(k, TDp(1, l, x), b)))
  {
    var t, u := TBin(k, x, TSup(l, a, b)), TSup(l, TBin(k, TDp(0, l, x), a), TBin(k, TDp(1, l, x), b));
    forall r: Env
      ensures D(t, r) == D(u, r)
    {
      PushPop(r, l);
      var i, r' := Next(r, l), Pop(r, l);
      assert D(TDp(i, l, x), r') == D(x, r);
      assert D(TSup(l, a, b), r) == D(if i == 0 then a else b, r');
    }
  }

  lemma BinSupRightOnly(k: Kind, l: Label, x: Tree, a: Tree, b: Tree)
    ensures Reduces(TBin(k, x, TSup(l, a, b)), TSup(l, TBin(k, TDp(0, l, x), a), TBin(k, TDp(1, l, x), b)))
  {
    var t, u := TBin(k, x, TSup(l, a, b)), TSup(l, TBin(k, TDp(0, l, x), a), TBin(k, TDp(1, l, x), b));
    SupRightMeans(k, l, x, a, b);
    forall z: Base {
      SupRightFalls(k, l, x, a, b, z);
    }
    forall s: Sort | Has(t, s) {
      BinSupKeepsRight(k, l, x, a, b, s);
    }
    SameFalls(t, u);
  }

  /** OP2-NUM-SUP: a number needs no DUP to be shared. */
  lemma NumSupLaw(opr: nat, n: u32, l: Label, a: Tree, b: Tree, a': Tree, b': Tree)
    requires Same(a, a') && Same(b, b')
    ensures var k := KOp2(opr);
            Reduces(TBin(k, TNum(n), TSup(l, a, b)), TSup(l, TBin(k, TNum(n), a'), TBin(k, TNum(n), b')))
  {
    var k, x := KOp2(opr), TNum(n);
    BinSupRightOnly(k, l, x, a, b);
    DupAtom(0, l, x);
    DupAtom(1, l, x);
    SameBin(k, TDp(0, l, x), a, x, a');
    SameBin(k, TDp(1, l, x), b, x, b');
    var u, v := TBin(k, TDp(0, l, x), a), TBin(k, TDp(1, l, x), b);
    SameSup(l, u, v, TBin(k, x, a'), TBin(k, x, b'));
    Then(TBin(k, x, TSup(l, a, b)), TSup(l, u, v), TSup(l, TBin(k, x, a'), TBin(k, x, b')));
  }

  // ---------------------------------------------------------------------------
  // INC under a node
  // ---------------------------------------------------------------------------

  lemma IncLeftKeeps(k: Kind, x: Tree, y: Tree, s: Sort)
    requires Has(TBin(k, TInc(x), y), s)
    ensures Has(TInc(TBin(k, x, y)), s)
  {
    var t, u, e := TBin(k, TInc(x), y), TBin(k, x, y), TInc(x);
    assert forall s' :: Has(e, s') ==> Has(x, s') && !s'.Silent?;
    assert IsNumeric(t) ==> IsNumeric(u);
    assert !IsSilent(t);
  }

  lemma IncWeight(x: nat, y: nat)
    requires y >= 2
    ensures Times(x + 1, y) > Times(x, y) + 1 && Times(y, x + 1) > Times(y, x) + 1
  {
    TimesIs(x, y);
    TimesIs(x + 1, y);
    TimesIs(y, x);
    TimesIs(y, x + 1);
    assert (x + 1) * y == x * y + y && y * (x + 1) == y * x + y;
  }

  lemma IncLeftFalls(k: Kind, x: Tree, y: Tree, z: Base)
    ensures Fall(TBin(k, TInc(x), y), TInc(TBin(k, x, y)), z)
  {
    IncWeight(Weight(x, z), Weight(y, z));
  }

  /** OP2-INC, AND-INC, OR-INC and EQL-INC-L: the hint comes up. */
  lemma BinIncLeft(k: Kind, x: Tree, y: Tree, x': Tree, y': Tree)
    requires Same(x, x') && Same(y, y')
    ensures Reduces(TBin(k, TInc(x), y), TInc(TBin(k, x', y')))
  {
    var t, u := TBin(k, TInc(x), y), TInc(TBin(k, x, y));
    assert Means(t, u);
    forall z: Base {
      IncLeftFalls(k, x, y, z);
    }
    forall s: Sort | Has(t, s) {
      IncLeftKeeps(k, x, y, s);
    }
    SameFalls(t, u);
    SameBin(k, x, y, x', y');
    SameInc(TBin(k, x, y), TBin(k, x', y'));
    Then(t, u, TInc(TBin(k, x', y')));
  }

  lemma IncRightKeeps(k: Kind, x: Tree, y: Tree, s: Sort)
    requires Has(TBin(k, x, TInc(y)), s)
    ensures Has(TInc(TBin(k, x, y)), s)
  {
    var t, u, e := TBin(k, x, TInc(y)), TBin(k, x, y), TInc(y);
    assert forall s' :: Has(e, s') ==> Has(y, s') && !s'.Silent?;
    assert IsNumeric(t) ==> IsNumeric(u);
    assert !IsSilent(t);
  }

  lemma IncRightFalls(k: Kind, x: Tree, y: Tree, z: Base)
    ensures Fall(TBin(k, x, TInc(y)), TInc(TBin(k, x, y)), z)
  {
    IncWeight(Weight(y, z), Weight(x, z));
  }

  /** OP2-NUM-INC and EQL-INC-R. */
  lemma BinIncRight(k: Kind, x: Tree, y: Tree, x': Tree, y': Tree)
    requires Same(x, x') && Same(y, y')
    ensures Reduces(TBin(k, x, TInc(y)), TInc(TBin(k, x', y')))
  {
    var t, u := TBin(k, x, TInc(y)), TInc(TBin(k, x, y));
    assert Means(t, u);
    forall z: Base {
      IncRightFalls(k, x, y, z);
    }
    forall s: Sort | Has(t, s) {
      IncRightKeeps(k, x, y, s);
    }
    SameFalls(t, u);
    SameBin(k, x, y, x', y');
    SameInc(TBin(k, x, y), TBin(k, x', y'));
    Then(t, u, TInc(TBin(k, x', y')));
  }

  // ---------------------------------------------------------------------------
  // A node that is done
  // ---------------------------------------------------------------------------

  lemma AtomWeight(x: nat, y: nat, z: nat)
    requires x >= z && y >= z && z >= 2
    ensures Times(x, y) > z
  {
    TimesUp(2, z, x, y);
    TimesIs(2, z);
  }

  lemma AtomFalls(k: Kind, x: Tree, y: Tree, u: Tree, z: Base)
    requires u.TNum? || u.TEra?
    ensures Fall(TBin(k, x, y), u, z)
  {
    AtomLight(x, z);
    AtomLight(y, z);
    AtomWeight(Weight(x, z), Weight(y, z), z);
    assert Weight(u, z) == z;
  }

  /** An operation with a number or an erasure for its result. */
  lemma ToAtom(k: Kind, x: Tree, y: Tree, u: Tree)
    requires Means(TBin(k, x, y), u) && (u.TNum? || u.TEra?)
    ensures Reduces(TBin(k, x, y), u)
  {
    var t := TBin(k, x, y);
    forall z: Base {
      AtomFalls(k, x, y, u, z);
    }
    assert Keeps(t, u);
    SameFalls(t, u);
  }

  /** Nothing is lighter than a leaf. */
  lemma {:induction false} AtomLight(t: Tree, z: Base)
    ensures Weight(t, z) >= z
    decreases t
  {
    match t
    case TCtr(_, args) =>
      TimesUp(z, 1, z, WeightAll(args, z));
      TimesIs(z, 1);
    case TSup(_, a, b) => AtomLight(a, z);
    case TDp(_, _, e) => AtomLight(e, z);
    case TBin(_, x, y) =>
      AtomLight(x, z);
      TimesUp(z, 1, Weight(x, z), Weight(y, z));
      TimesIs(z, 1);
    case TInc(e) => AtomLight(e, z);
    case _ =>
  }

  lemma ForwardKeeps(k: Kind, x: Tree, y: Tree, s: Sort)
    requires (k == KAnd || k == KOr) && Has(TBin(k, x, y), s)
    ensures Has(y, s)
  {
    if s.Tame? {
      if Has(y, Numeric) {
        NumericTame(y);
      } else if Has(y, Silent) {
        SilentTame(y);
      }
    }
  }

  /** What can only become a number is tame. */
  lemma {:induction false} NumericTame(t: Tree)
    requires Has(t, Numeric)
    ensures Has(t, Tame)
    decreases t
  {
    match t
    case TSup(_, a, b) =>
      NumericTame(a);
      NumericTame(b);
    case TDp(_, _, e) => NumericTame(e);
    case TInc(e) => NumericTame(e);
    case _ =>
  }

  lemma {:induction false} SilentTame(t: Tree)
    requires Has(t, Silent)
    ensures Has(t, Tame)
    decreases t
  {
    match t
    case TSup(_, a, b) =>
      SilentTame(a);
      SilentTame(b);
    case TDp(_, _, e) => SilentTame(e);
    case _ =>
  }

  /** AND and OR that come down to their second operand. */
  lemma Forward(k: Kind, x: Tree, y: Tree, y': Tree)
    requires (k == KAnd || k == KOr) && Means(TBin(k, x, y), y) && Same(y, y')
    ensures Reduces(TBin(k, x, y), y')
  {
    var t := TBin(k, x, y);
    forall z: Base
      ensures Fall(t, y, z)
    {
      TimesUp(1, Weight(y, z), Weight(x, z), Weight(y, z));
      TimesIs(1, Weight(y, z));
    }
    forall s: Sort | Has(t, s)
      ensures Has(y, s)
    {
      ForwardKeeps(k, x, y, s);
    }
    SameFalls(t, y);
    Then(t, y, y');
  }

  // ---------------------------------------------------------------------------
  // EQL-CTR
  // ---------------------------------------------------------------------------

  function Hinted(inc: bool, t: Tree): Tree {
    if inc then TInc(t) else t
  }

  lemma SameHinted(inc: bool, t: Tree, u: Tree)
    requires Same(t, u)
    ensures Same(Hinted(inc, t), Hinted(inc, u))
  {
    if inc {
      SameInc(t, u);
    }
  }

  lemma EqlOne(nam: nat, x: Val, y: Val)
    ensures EqlVal(VCtr(nam, [x]), VCtr(nam, [y])) == EqlVal(x, y)
  {
    assert EqlVal(VCtr(nam, [x]), VCtr(nam, [y])) == EqlAll([x], [y]);
    assert EqlAll([x], [y]) == EqlVal(x, y);
  }

  lemma OneMeans(nam: nat, a: Tree, b: Tree)
    ensures Means(TBin(KEql, TCtr(nam, [a]), TCtr(nam, [b])), TBin(KEql, a, b))
  {
    forall r: Env
      ensures D(TBin(KEql, TCtr(nam, [a]), TCtr(nam, [b])), r) == D(TBin(KEql, a, b), r)
    {
      EqlOne(nam, D(a, r), D(b, r));
      assert D(TCtr(nam, [a]), r) == VCtr(nam, [D(a, r)]);
      assert D(TCtr(nam, [b]), r) == VCtr(nam, [D(b, r)]);
    }
  }

  /** An `EQL` of two constructors is heavier than the `EQL` of their last fields with all the rest. */
  lemma PairWeight(p: nat, q: nat, a: nat, b: nat, z: nat)
    requires p >= 1 && q >= 1 && a >= 2 && b >= 2 && z >= 2
    ensures (z * (p * (2 * a))) * (z * (q * (2 * b))) > (z * p) * (z * q) * (a * b + 1) + 1
  {
    var m, n := (z * p) * (z * q), a * b;
    MulTwo(p, z);
    MulTwo(q, z);
    MulTwo(z * p, z * q);
    MulUp(2, 2, a, b);
    assert (z * (p * (2 * a))) * (z * (q * (2 * b))) == m * (4 * n) by {
      assert z * (p * (2 * a)) == (z * p) * (2 * a);
      assert z * (q * (2 * b)) == (z * q) * (2 * b);
      FourFactors(z * p, 2 * a, z * q, 2 * b);
    }
    MulUp(m, n + 1 + 1, m, 4 * n);
    assert m * (n + 2) == m * (n + 1) + m;
  }

  lemma FourFactors(a: nat, b: nat, c: nat, d: nat)
    ensures (a * b) * (c * d) == (a * c) * (b * d)
  {
  }

  /** The weights of two constructors, by those of their last fields and of the rest. */
  lemma PairTimes(p: nat, q: nat, a: nat, b: nat, z: nat)
    requires p >= 1 && q >= 1 && a >= 2 && b >= 2 && z >= 2
    ensures Times(Times(z, Times(p, 2 * a)), Times(z, Times(q, 2 * b))) >
              Times(Times(Times(z, p), Times(z, q)), Times(a, b) + 1) + 1
  {
    TimesIs(p, 2 * a);
    TimesIs(q, 2 * b);
    TimesIs(z, p * (2 * a));
    TimesIs(z, q * (2 * b));
    TimesIs(z * (p * (2 * a)), z * (q * (2 * b)));
    TimesIs(z, p);
    TimesIs(z, q);
    TimesIs(z * p, z * q);
    TimesIs(a, b);
    TimesIs((z * p) * (z * q), a * b + 1);
    PairWeight(p, q, a, b, z);
  }

  lemma OneNumbers(x: nat, y: nat, z: nat)
    requires x >= 2 && y >= 2 && z >= 2
    ensures Times(Times(z, Times(1, 2 * x)), Times(z, Times(1, 2 * y))) > Times(x, y) + 1
  {
    PairTimes(1, 1, x, y, z);
    TimesTwo(1, z);
    TimesUp(1, 1, Times(z, 1), Times(z, 1));
    TimesUp(1, Times(x, y) + 1, Times(Times(z, 1), Times(z, 1)), Times(x, y) + 1);
    TimesIs(1, 1);
    TimesIs(1, Times(x, y) + 1);
  }

  lemma OneWeight(nam: nat, a: Tree, z: Base)
    ensures Weight(TCtr(nam, [a]), z) == Times(z, Times(1, 2 * Weight(a, z)))
  {
    assert [a][..0] == [] && WeightAll([], z) == 1;
    assert WeightAll([a], z) == Times(WeightAll([a][..0], z), 2 * Weight([a][0], z));
  }

  lemma OneFalls(nam: nat, a: Tree, b: Tree, inc: bool, z: Base)
    ensures Fall(TBin(KEql, TCtr(nam, [a]), TCtr(nam, [b])), Hinted(inc, TBin(KEql, a, b)), z)
  {
    OneWeight(nam, a, z);
    OneWeight(nam, b, z);
    OneNumbers(Weight(a, z), Weight(b, z), z);
    var u := TBin(KEql, a, b);
    assert Weight(Hinted(inc, u), z) <= Weight(u, z) + 1;
  }

  lemma OneKeeps(nam: nat, a: Tree, b: Tree, inc: bool, s: Sort)
    requires Has(TBin(KEql, TCtr(nam, [a]), TCtr(nam, [b])), s)
    ensures Has(Hinted(inc, TBin(KEql, a, b)), s)
  {
    var u := TBin(KEql, a, b);
    if s.Single? {
      assert Has(TCtr(nam, [a]), Single) && Has(TCtr(nam, [b]), Single);
      assert Has([a][0], Single) && Has([b][0], Single);
    } else {
      assert !IsSilent(TBin(KEql, TCtr(nam, [a]), TCtr(nam, [b])));
      assert IsNumeric(u);
    }
    assert Has(u, s);
  }

  /** Constructors of one field are equal when the fields are. */
  lemma EqlOneLaw(nam: nat, a: Tree, b: Tree, a': Tree, b': Tree, inc: bool)
    requires Same(a, a') && Same(b, b')
    ensures Reduces(TBin(KEql, TCtr(nam, [a]), TCtr(nam, [b])), Hinted(inc, TBin(KEql, a', b')))
  {
    var t, u := TBin(KEql, TCtr(nam, [a]), TCtr(nam, [b])), TBin(KEql, a, b);
    OneMeans(nam, a, b);
    forall z: Base {
      OneFalls(nam, a, b, inc, z);
    }
    forall s: Sort | Has(t, s) {
      OneKeeps(nam, a, b, inc, s);
    }
    SameFalls(t, Hinted(inc, u));
    SameBin(KEql, a, b, a', b');
    SameHinted(inc, u, TBin(KEql, a', b'));
    Then(t, Hinted(inc, u), Hinted(inc, TBin(KEql, a', b')));
  }

  ghost function Vals(xs: seq<Tree>, r: Env): seq<Val> {
    seq(|xs|, i requires 0 <= i < |xs| => D(xs[i], r))
  }

  lemma EqlPeel(nam: nat, us: seq<Val>, vs: seq<Val>)
    requires |us| == |vs| && |us| > 1
    ensures var n := |us| - 1;
            EqlVal(VCtr(nam, us), VCtr(nam, vs)) ==
              AndVal(EqlVal(VCtr(nam, us[..n]), VCtr(nam, vs[..n])), EqlVal(us[n], vs[n]))
  {
    var n := |us| - 1;
    assert EqlVal(VCtr(nam, us), VCtr(nam, vs)) == EqlAll(us, vs);
    assert EqlAll(us, vs) == AndVal(EqlAll(us[..n], vs[..n]), EqlVal(us[n], vs[n]));
    assert EqlVal(VCtr(nam, us[..n]), VCtr(nam, vs[..n])) == EqlAll(us[..n], vs[..n]);
  }

  lemma CtrVals(nam: nat, xs: seq<Tree>, r: Env)
    ensures D(TCtr(nam, xs), r) == VCtr(nam, Vals(xs, r))
  {
    assert D(TCtr(nam, xs), r).args == Vals(xs, r);
  }

  /** The comparison with the last fields split off. */
  function Peeled(nam: nat, xs: seq<Tree>, ys: seq<Tree>, x: Tree, y: Tree, inc: bool): Tree {
    Hinted(inc, TBin(KAnd, TBin(KEql, TCtr(nam, xs), TCtr(nam, ys)), Hinted(inc, TBin(KEql, x, y))))
  }

  lemma PeelMeansAt(nam: nat, xs: seq<Tree>, ys: seq<Tree>, inc: bool, r: Env)
    requires |xs| == |ys| && |xs| > 1
    ensures var n := |xs| - 1;
            D(TBin(KEql, TCtr(nam, xs), TCtr(nam, ys)), r) == D(Peeled(nam, xs[..n], ys[..n], xs[n], ys[n], inc), r)
  {
    var n := |xs| - 1;
    CtrVals(nam, xs, r);
    CtrVals(nam, ys, r);
    CtrVals(nam, xs[..n], r);
    CtrVals(nam, ys[..n], r);
    assert Vals(xs, r)[..n] == Vals(xs[..n], r) && Vals(ys, r)[..n] == Vals(ys[..n], r);
    EqlPeel(nam, Vals(xs, r), Vals(ys, r));
    PeeledAt(nam, xs[..n], ys[..n], xs[n], ys[n], inc, r);
  }

  lemma PeelMeans(nam: nat, xs: seq<Tree>, ys: seq<Tree>, inc: bool)
    requires |xs| == |ys| && |xs| > 1
    ensures var n := |xs| - 1;
            Means(TBin(KEql, TCtr(nam, xs), TCtr(nam, ys)), Peeled(nam, xs[..n], ys[..n], xs[n], ys[n], inc))
  {
    forall r: Env {
      PeelMeansAt(nam, xs, ys, inc, r);
    }
  }

  lemma PeeledAt(nam: nat, xs: seq<Tree>, ys: seq<Tree>, x: Tree, y: Tree, inc: bool, r: Env)
    ensures D(Peeled(nam, xs, ys, x, y, inc), r) ==
              AndVal(EqlVal(D(TCtr(nam, xs), r), D(TCtr(nam, ys), r)), EqlVal(D(x, r), D(y, r)))
  {
    var h, e := TBin(KEql, TCtr(nam, xs), TCtr(nam, ys)), TBin(KEql, x, y);
    assert D(Hinted(inc, e), r) == EqlVal(D(x, r), D(y, r));
    assert D(TBin(KAnd, h, Hinted(inc, e)), r) == AndVal(D(h, r), D(Hinted(inc, e), r));
  }

  lemma LongWeight(nam: nat, ts: seq<Tree>, z: Base)
    requires ts != []
    ensures var n := |ts| - 1; Weight(TCtr(nam, ts), z) == Times(z, Times(WeightAll(ts[..n], z), 2 * Weight(ts[n], z)))
  {
    assert Weight(TCtr(nam, ts), z) == Times(z, WeightAll(ts, z));
  }

  lemma PeeledWeight(nam: nat, xs: seq<Tree>, ys: seq<Tree>, x: Tree, y: Tree, inc: bool, z: Base)
    ensures var m := Times(Times(z, WeightAll(xs, z)), Times(z, WeightAll(ys, z)));
            Weight(Peeled(nam, xs, ys, x, y, inc), z) <= Times(m, Times(Weight(x, z), Weight(y, z)) + 1) + 1
  {
    var h, e := TBin(KEql, TCtr(nam, xs), TCtr(nam, ys)), TBin(KEql, x, y);
    assert Weight(TCtr(nam, xs), z) == Times(z, WeightAll(xs, z))
        && Weight(TCtr(nam, ys), z) == Times(z, WeightAll(ys, z));
    assert Weight(e, z) == Times(Weight(x, z), Weight(y, z)) && Weight(Hinted(inc, e), z) <= Weight(e, z) + 1;
    TimesUp(Weight(h, z), Weight(Hinted(inc, e), z), Weight(h, z), Weight(e, z) + 1);
    var b := TBin(KAnd, h, Hinted(inc, e));
    assert Weight(b, z) == Times(Weight(h, z), Weight(Hinted(inc, e), z))
        && Weight(Hinted(inc, b), z) <= Weight(b, z) + 1;
  }

  lemma PeelFalls(nam: nat, xs: seq<Tree>, ys: seq<Tree>, inc: bool, z: Base)
    requires |xs| == |ys| && |xs| > 1
    ensures var n := |xs| - 1;
            Fall(TBin(KEql, TCtr(nam, xs), TCtr(nam, ys)), Peeled(nam, xs[..n], ys[..n], xs[n], ys[n], inc), z)
  {
    var n := |xs| - 1;
    PeeledWeight(nam, xs[..n], ys[..n], xs[n], ys[n], inc, z);
    LongWeight(nam, xs, z);
    LongWeight(nam, ys, z);
    PairTimes(WeightAll(xs[..n], z), WeightAll(ys[..n], z), Weight(xs[n], z), Weight(ys[n], z), z);
  }

  lemma PeelKeeps(nam: nat, xs: seq<Tree>, ys: seq<Tree>, inc: bool, s: Sort)
    requires |xs| == |ys| && |xs| > 1 && Has(TBin(KEql, TCtr(nam, xs), TCtr(nam, ys)), s)
    ensures var n := |xs| - 1; Has(Peeled(nam, xs[..n], ys[..n], xs[n], ys[n], inc), s)
  {
    var n := |xs| - 1;
    var h, e := TBin(KEql, TCtr(nam, xs[..n]), TCtr(nam, ys[..n])), TBin(KEql, xs[n], ys[n]);
    var b := TBin(KAnd, h, Hinted(inc, e));
    if s.Single? {
      assert Has(TCtr(nam, xs), Single) && Has(TCtr(nam, ys), Single);
      assert Has(TCtr(nam, xs[..n]), Single) && Has(TCtr(nam, ys[..n]), Single);
      assert Has(h, Single) && Has(e, Single);
    } else {
      assert Has(h, Numeric) && Has(e, Numeric) && Has(Hinted(inc, e), Numeric);
      assert IsNumeric(b) && Has(b, s);
    }
    assert Has(b, s);
  }

  /** The first `n` terms have become the others. */
  ghost predicate Alike(xs: seq<Tree>, ys: seq<Tree>, n: nat) {
    n <= |xs| && n <= |ys| && forall k :: 0 <= k < n ==> Same(xs[k], ys[k])
  }

  /** Comparing two constructors is comparing all fields but the last, and the last. */
  lemma EqlPeelLaw(nam: nat, xs: seq<Tree>, ys: seq<Tree>, xs': seq<Tree>, ys': seq<Tree>, x: Tree, y: Tree, inc: bool)
    requires |xs| == |ys| == |xs'| + 1 == |ys'| + 1 && |xs| > 1
    requires Alike(xs, xs', |xs'|) && Alike(ys, ys', |xs'|)
    requires Same(xs[|xs'|], x) && Same(ys[|xs'|], y)
    ensures Reduces(TBin(KEql, TCtr(nam, xs), TCtr(nam, ys)), Peeled(nam, xs', ys', x, y, inc))
  {
    var n := |xs'|;
    var t, u := TBin(KEql, TCtr(nam, xs), TCtr(nam, ys)), Peeled(nam, xs[..n], ys[..n], xs[n], ys[n], inc);
    PeelMeans(nam, xs, ys, inc);
    forall z: Base
      ensures Fall(t, u, z)
    {
      PeelFalls(nam, xs, ys, inc, z);
    }
    forall s: Sort | Has(t, s)
      ensures Has(u, s)
    {
      PeelKeeps(nam, xs, ys, inc, s);
    }
    SameFalls(t, u);
    SamePeeled(nam, xs[..n], ys[..n], xs[n], ys[n], xs', ys', x, y, inc);
    Then(t, u, Peeled(nam, xs', ys', x, y, inc));
  }

  lemma SamePeeled(nam: nat, xs: seq<Tree>, ys: seq<Tree>, x: Tree, y: Tree, xs': seq<Tree>, ys': seq<Tree>, x': Tree,
                   y': Tree, inc: bool)
    requires AllSame(xs, xs') && AllSame(ys, ys') && Same(x, x') && Same(y, y')
    ensures Same(Peeled(nam, xs, ys, x, y, inc), Peeled(nam, xs', ys', x', y', inc))
  {
    SameCtr(nam, xs, xs');
    SameCtr(nam, ys, ys');
    SameBin(KEql, TCtr(nam, xs), TCtr(nam, ys), TCtr(nam, xs'), TCtr(nam, ys'));
    SameBin(KEql, x, y, x', y');
    var e, e' := Hinted(inc, TBin(KEql, x, y)), Hinted(inc, TBin(KEql, x', y'));
    SameHinted(inc, TBin(KEql, x, y), TBin(KEql, x', y'));
    var h, h' := TBin(KEql, TCtr(nam, xs), TCtr(nam, ys)), TBin(KEql, TCtr(nam, xs'), TCtr(nam, ys'));
    SameBin(KAnd, h, e, h', e');
    SameHinted(inc, TBin(KAnd, h, e), TBin(KAnd, h', e'));
  }

  // ---------------------------------------------------------------------------
  // SUP in a field, as `cnf` lifts it
  // ---------------------------------------------------------------------------

  /** The product of the weights of the fields but one. */
  function Others(ts: seq<Tree>, j: nat, z: Base): (w: nat)
    requires j < |ts|
    ensures w >= 1
    decreases |ts|
  {
    var n := |ts| - 1;
    if j == n then WeightAll(ts[..n], z)
    else
      TimesTwo(Others(ts[..n], j, z), 2 * Weight(ts[n], z));
      Times(Others(ts[..n], j, z), 2 * Weight(ts[n], z))
  }

  lemma SwapLast(a: nat, b: nat, c: nat)
    ensures Times(Times(a, b), c) == Times(Times(a, c), b)
  {
    TimesIs(a, b);
    TimesIs(a * b, c);
    TimesIs(a, c);
    TimesIs(a * c, b);
    assert (a * b) * c == (a * c) * b;
  }

  lemma {:induction false} OneField(ts: seq<Tree>, j: nat, x: Tree, z: Base)
    requires j < |ts|
    ensures WeightAll(ts[j := x], z) == Times(Others(ts, j, z), 2 * Weight(x, z))
    decreases |ts|
  {
    var n := |ts| - 1;
    if j == n {
      assert ts[j := x][..n] == ts[..n];
    } else {
      OneField(ts[..n], j, x, z);
      assert ts[j := x][..n] == ts[..n][j := x];
      SwapLast(Others(ts[..n], j, z), 2 * Weight(x, z), 2 * Weight(ts[n], z));
    }
  }

  /** The fields of side `i`, all but field `j` read through a `DUP`. */
  function Side(i: bit, l: Label, ts: seq<Tree>, j: nat, x: Tree): seq<Tree>
    requires j < |ts|
  {
    Dups(i, l, ts)[j := x]
  }

  lemma SideWeight(i: bit, l: Label, ts: seq<Tree>, j: nat, x: Tree, z: Base)
    requires j < |ts|
    ensures WeightAll(Side(i, l, ts, j, x), z) == Times(Others(ts, j, z), 2 * Weight(x, z))
  {
    OneField(ts, j, x, z);
    OneField(Dups(i, l, ts), j, x, z);
    OthersDups(i, l, ts, j, z);
  }

  lemma {:induction false} OthersDups(i: bit, l: Label, ts: seq<Tree>, j: nat, z: Base)
    requires j < |ts|
    ensures Others(Dups(i, l, ts), j, z) == Others(ts, j, z)
    decreases |ts|
  {
    var n := |ts| - 1;
    assert Dups(i, l, ts)[..n] == Dups(i, l, ts[..n]);
    if j == n {
      DupsMeasure(i, l, ts[..n], z);
    } else {
      OthersDups(i, l, ts[..n], j, z);
    }
  }

  lemma SideProduct(o: nat, a: nat, b: nat, z: nat)
    requires o >= 1 && z >= 2
    ensures Times(z, Times(o, 2 * (a + b + 1))) > Times(z, Times(o, 2 * a)) + Times(z, Times(o, 2 * b)) + 1
  {
    SideSum(o, a, b);
    TimesIs(o, 2 * a);
    TimesIs(o, 2 * b);
    var x, y, w := Times(o, 2 * a), Times(o, 2 * b), Times(o, 2 * (a + b + 1));
    SupWeightRight(x, y, z);
    TimesUp(z, x + y + 1, z, w);
  }

  lemma SideSum(o: nat, a: nat, b: nat)
    requires o >= 1
    ensures Times(o, 2 * (a + b + 1)) >= Times(o, 2 * a) + Times(o, 2 * b) + 1
  {
    TimesIs(o, 2 * a);
    TimesIs(o, 2 * b);
    TimesIs(o, 2 * (a + b + 1));
    assert o * (2 * (a + b + 1)) == o * (2 * a) + o * (2 * b) + 2 * o;
  }

  lemma CtrWeight(nam: nat, ts: seq<Tree>, z: Base, w: nat)
    requires WeightAll(ts, z) == w
    ensures Weight(TCtr(nam, ts), z) == Times(z, w)
  {
  }

  lemma WholeWeight(nam: nat, l: Label, ts: seq<Tree>, j: nat, a: Tree, b: Tree, z: Base, w: nat)
    requires j < |ts| && ts[j] == TSup(l, a, b) && w == 2 * (Weight(a, z) + Weight(b, z) + 1)
    ensures Weight(TCtr(nam, ts), z) == Times(z, Times(Others(ts, j, z), w))
  {
    SelfField(ts, j, z);
    assert 2 * Weight(ts[j], z) == w;
    CtrWeight(nam, ts, z, Times(Others(ts, j, z), w));
  }

  lemma SideCtrWeight(nam: nat, i: bit, l: Label, ts: seq<Tree>, j: nat, x: Tree, z: Base)
    requires j < |ts|
    ensures Weight(TCtr(nam, Side(i, l, ts, j, x)), z) == Times(z, Times(Others(ts, j, z), 2 * Weight(x, z)))
  {
    SideWeight(i, l, ts, j, x, z);
    CtrWeight(nam, Side(i, l, ts, j, x), z, Times(Others(ts, j, z), 2 * Weight(x, z)));
  }

  lemma SelfField(ts: seq<Tree>, j: nat, z: Base)
    requires j < |ts|
    ensures WeightAll(ts, z) == Times(Others(ts, j, z), 2 * Weight(ts[j], z))
  {
    OneField(ts, j, ts[j], z);
    assert ts[j := ts[j]] == ts;
  }

  lemma CtrSupFalls(nam: nat, l: Label, ts: seq<Tree>, j: nat, a: Tree, b: Tree, z: Base)
    requires j < |ts| && ts[j] == TSup(l, a, b)
    ensures Fall(TCtr(nam, ts), TSup(l, TCtr(nam, Side(0, l, ts, j, a)), TCtr(nam, Side(1, l, ts, j, b))), z)
  {
    WholeWeight(nam, l, ts, j, a, b, z, 2 * (Weight(a, z) + Weight(b, z) + 1));
    SideCtrWeight(nam, 0, l, ts, j, a, z);
    SideCtrWeight(nam, 1, l, ts, j, b, z);
    SideProduct(Others(ts, j, z), Weight(a, z), Weight(b, z), z);
  }

  /** Reading side `i` undoes taking the choice for it. */
  lemma SideMeans(i: bit, l: Label, ts: seq<Tree>, j: nat, x: Tree, r: Env, r': Env)
    requires j < |ts| && D(x, r') == D(ts[j], r) && Calculus.Push(r', l, i) == r
    ensures Vals(Side(i, l, ts, j, x), r') == Vals(ts, r)
  {
    var us := Side(i, l, ts, j, x);
    forall k | 0 <= k < |ts|
      ensures D(us[k], r') == D(ts[k], r)
    {
      if k != j {
        assert D(TDp(i, l, ts[k]), r') == D(ts[k], r);
      }
    }
  }

  lemma CtrSupAt(nam: nat, l: Label, ts: seq<Tree>, j: nat, a: Tree, b: Tree, r: Env)
    requires j < |ts| && ts[j] == TSup(l, a, b)
    ensures D(TCtr(nam, ts), r) == D(TSup(l, TCtr(nam, Side(0, l, ts, j, a)), TCtr(nam, Side(1, l, ts, j, b))), r)
  {
    PushPop(r, l);
    var i, r' := Next(r, l), Pop(r, l);
    var x := if i == 0 then a else b;
    SideMeans(i, l, ts, j, x, r, r');
    CtrVals(nam, ts, r);
    CtrVals(nam, Side(i, l, ts, j, x), r');
  }

  lemma CtrSupMeans(nam: nat, l: Label, ts: seq<Tree>, j: nat, a: Tree, b: Tree)
    requires j < |ts| && ts[j] == TSup(l, a, b)
    ensures Means(TCtr(nam, ts), TSup(l, TCtr(nam, Side(0, l, ts, j, a)), TCtr(nam, Side(1, l, ts, j, b))))
  {
    forall r: Env {
      CtrSupAt(nam, l, ts, j, a, b, r);
    }
  }

  lemma CtrSupKeeps(nam: nat, l: Label, ts: seq<Tree>, j: nat, a: Tree, b: Tree, s: Sort)
    requires j < |ts| && ts[j] == TSup(l, a, b) && Has(TCtr(nam, ts), s)
    ensures Has(TSup(l, TCtr(nam, Side(0, l, ts, j, a)), TCtr(nam, Side(1, l, ts, j, b))), s)
  {
    assert Has(ts[j], Inner(s));
    assert Has(TCtr(nam, Side(0, l, ts, j, a)), s);
    assert Has(TCtr(nam, Side(1, l, ts, j, b)), s);
  }

  lemma CtrSup(nam: nat, l: Label, ts: seq<Tree>, j: nat, a: Tree, b: Tree)
    requires j < |ts| && ts[j] == TSup(l, a, b)
    ensures Reduces(TCtr(nam, ts), TSup(l, TCtr(nam, Side(0, l, ts, j, a)), TCtr(nam, Side(1, l, ts, j, b))))
  {
    var t, u := TCtr(nam, ts), TSup(l, TCtr(nam, Side(0, l, ts, j, a)), TCtr(nam, Side(1, l, ts, j, b)));
    CtrSupMeans(nam, l, ts, j, a, b);
    forall z: Base {
      CtrSupFalls(nam, l, ts, j, a, b, z);
    }
    forall s: Sort | Has(t, s) {
      CtrSupKeeps(nam, l, ts, j, a, b, s);
    }
    SameFalls(t, u);
  }
}
