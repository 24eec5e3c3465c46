/**
 Where the lines that collapse prints are the values of a term. In a tame term every `INC` is where it can
 come to the top: there is none, and nothing that makes one, in a field of a constructor or of an operation
 that can get stuck. Reduction and lifting keep a term tame, and on a tame term no field is left uncollapsed.
 */
module CollapseTame {
  import opened U32Ops
  import opened Calculus
  import opened Reduction
  import opened Laws
  import opened Heap
  import opened KeyQueue
  import opened Rules
  import opened RulesDup
  import opened RulesCnf
  import opened Interact
  import opened Machine
  import opened Jam
  import opened Cnf
  import opened Collapse
  import opened CollapseEnds
  import Load

  // ---------------------------------------------------------------------------
  // Values
  // ---------------------------------------------------------------------------

  lemma {:induction false} NumericValue(t: Tree, r: Env)
    requires Has(t, Numeric)
    ensures D(t, r).VNum? || D(t, r).VEra?
    decreases t
  {
    match t
    case TSup(l, a, b) => NumericValue(if Next(r, l) == 0 then a else b, Pop(r, l));
    case TDp(i, l, e) => NumericValue(e, Calculus.Push(r, l, i));
    case TInc(e) => NumericValue(e, r);
    case TBin(k, x, y) =>
      if k.KEql? {
        EqlAnswers(D(x, r), D(y, r));
      } else {
        NumericValue(x, r);
        NumericValue(y, r);
      }
    case _ =>
  }

  // ---------------------------------------------------------------------------
  // The machine
  // ---------------------------------------------------------------------------

  /** Neither a reader nor a logical operation: if it is reduced, its fields are collapsed. */
  predicate Firm(t: Term) {
    !t.Dp? && !IsLogic(t)
  }

  predicate IsEqlFrame(f: Frame) {
    f.FEqR? || (f.FBin? && f.k.KEql?)
  }

  /** The machine is not inside a comparison. */
  predicate Outermost(st: Stack) {
    st.Push? ==> Outermost(st.rest) && !IsEqlFrame(st.top)
  }

  /** The active field of a tame node is tame; that of a logical operation is numeric. */
  lemma FrameTame(g: Graph, q: Loc, f: Frame)
    requires Wf(g) && Holds(g, q, AsTerm(f)) && Has(ReadAt(g, q), Tame) && !IsEqlFrame(f)
    requires Hole(f) in g.h && !g.h[Hole(f)].sub
    ensures Hole(f) in g.live && Has(ReadAt(g, Hole(f)), Tame)
    ensures f.FBin? && !f.k.KOp2? ==> Has(ReadAt(g, Hole(f)), Numeric)
  {
    HoleBelow(g, q, f);
    match f
    case FDp(i, lab, loc) => ReadDp(g, q, i, lab, loc);
    case FBin(k, loc) =>
      ReadBin(g, q, k, loc);
      FirstTame(k, ReadAt(g, loc), ReadAt(g, loc + 1));
    case FNum(opr, x, hole) =>
      ReadPart(g, q, opr, x, hole);
      SecondTame(opr, TNum(x), ReadAt(g, hole));
    case FEqR(_) =>
  }

  lemma FirstTame(k: Kind, x: Tree, y: Tree)
    requires Has(TBin(k, x, y), Tame) && !k.KEql?
    ensures Has(x, Tame) && (!k.KOp2? ==> Has(x, Numeric))
  {
    var t := TBin(k, x, y);
    assert IsNumeric(t) || IsSilent(t) || Has(x, Numeric);
    if Has(x, Numeric) {
      NumericTame(x);
    } else {
      SilentTame(x);
    }
  }

  lemma SecondTame(opr: nat, x: Tree, y: Tree)
    requires Has(TBin(KOp2(opr), x, y), Tame)
    ensures Has(y, Tame)
  {
    var t := TBin(KOp2(opr), x, y);
    assert IsNumeric(t) || IsSilent(t);
    if Has(y, Numeric) {
      NumericTame(y);
    } else {
      SilentTame(y);
    }
  }

  /** The term the machine is at is tame when the whole is. */
  lemma {:induction false} SpineTame(g: Graph, root: Loc, st: Stack, cur: Term)
    requires Wf(g) && Spine(g, root, st, cur) && Outermost(st) && root in g.live && Has(ReadAt(g, root), Tame)
    ensures Spot(root, st) in g.live && Has(ReadAt(g, Spot(root, st)), Tame)
    decreases st
  {
    if st.Push? {
      SpineTame(g, root, st.rest, AsTerm(st.top));
      FrameTame(g, Spot(root, st.rest), st.top);
    }
  }

  /** A reduced numeric term is something that every node computes with. */
  lemma NumericReduced(g: Graph, l: Loc)
    requires Wf(g) && l in g.live && Whnf(g, l) && Has(ReadAt(g, l), Numeric)
    ensures var t := g.h[l].term; t.Num? || t.Era? || (t.Node? && (t.head.HSup? || t.head.HInc?))
  {
    var r: Env :| true;
    NumericValue(ReadAt(g, l), r);
    assert ValueLike(g.h[l].term, D(ReadAt(g, l), r));
  }

  /** The machine gives up on a tame node only where an `OP2` cannot compute. */
  lemma StuckFirm(g: Graph, root: Loc, f: Frame, rest: Stack, h: Cells, next: Loc, t: Term)
    requires Wf(g) && Spine(g, root, Push(f, rest), t) && Outermost(Push(f, rest)) && root in g.live
    requires Has(ReadAt(g, root), Tame)
    requires Whnf(g, Hole(f)) && Firm(t) && Apply(h, next, f, t).Stuck?
    ensures Firm(Unwind(next, f, t).res)
  {
    var q := Spot(root, rest);
    assert Spine(g, root, rest, AsTerm(f));
    SpineTame(g, root, rest, AsTerm(f));
    FrameTame(g, q, f);
    NotPart(g, Hole(f));
    if f.FBin? && !f.k.KOp2? {
      NumericReduced(g, Hole(f));
    }
  }

  ghost predicate Quiet(s: State) {
    !s.enter && Outermost(s.stack) ==> Firm(s.cur)
  }

  lemma StepQuiet(s: State, g: Graph, root: Loc)
    requires Inv(s, g, root) && root in g.live && Has(ReadAt(g, root), Tame) && Quiet(s)
    ensures Quiet(Step(s))
  {
    if !s.enter && s.stack.Push? {
      var f, rest := s.stack.top, s.stack.rest;
      assert s.stack == Push(f, rest);
      match Apply(s.h, s.next, f, s.cur)
      case Rewrite(out) =>
        if !out.enter {
          RewriteFirm(s.h, s.next, f, s.cur);
        }
      case Stuck =>
        if Outermost(rest) {
          NeverStuck(s.h, s.next, f, s.cur);
          StuckFirm(g, root, f, rest, s.h, s.next, s.cur);
        }
      case Swap(_, _, _) =>
    }
  }

  /** A comparison is never given up on. */
  lemma NeverStuck(h: Cells, next: Loc, f: Frame, t: Term)
    requires Apply(h, next, f, t).Stuck?
    ensures !IsEqlFrame(f)
  {
  }

  lemma {:induction false} StepsQuiet(s: State, g: Graph, root: Loc, n: nat)
    requires Inv(s, g, root) && root in g.live && Has(ReadAt(g, root), Tame) && Quiet(s)
    ensures Quiet(Steps(s, n))
    decreases n
  {
    if n > 0 {
      StepQuiet(s, g, root);
      var g2 := StepKeeps(s, g, root);
      assert Outside(g, root, root) && KeptCell(g, g2, root, root);
      KeepAt(ReadAt(g, root), ReadAt(g2, root), Tame);
      StepsQuiet(Step(s), g2, root, n - 1);
    }
  }

  /** A tame term that is reduced is firm. */
  lemma WnfFirm(m: Memory, live: map<Loc, Info>, loc: Loc, n: nat)
    requires Ready(m, live, loc) && Has(ReadAt(Graph(m.h, live), loc), Tame) && Finished(Steps(Start(m, loc), n))
    ensures Firm(At(WnfAt(m, loc, n).h, loc))
  {
    StartInv(m, live, loc);
    StepsQuiet(Start(m, loc), Graph(m.h, live), loc, n);
  }

  // ---------------------------------------------------------------------------
  // Collapsing a cell
  // ---------------------------------------------------------------------------

  ghost predicate FieldsSilent(g: Graph, at: Loc, n: nat)
    requires Wf(g)
  {
    forall m :: Within(m, at, n) ==> m in g.live && Has(ReadAt(g, m), Silent)
  }

  /** The fields of a reduced tame node are silent. */
  lemma NodeSilent(g: Graph, loc: Loc, head: Head, at: Loc)
    requires Wf(g) && Holds(g, loc, Node(head, at)) && Raisable(head) && Firm(Node(head, at)) && Whnf(g, loc)
    requires Has(ReadAt(g, loc), Tame)
    ensures FieldsSilent(g, at, Ari(head))
  {
    var t := Node(head, at);
    ReadNode(g, t, loc);
    var kids := Kids(g, t, loc);
    if head.HBin? {
      var r: Env :| true;
      assert ValueLike(t, D(ReadAt(g, loc), r));
      if IsNumeric(Build(head, kids)) {
        NumericValue(ReadAt(g, loc), r);
        assert false;
      }
    }
    forall m | Within(m, at, Ari(head))
      ensures m in g.live && Has(ReadAt(g, m), Silent)
    {
      assert TermOk(g, loc, t) && InFoot(t, m);
      assert kids[m - at] == ReadAt(g, m) && Has(kids[m - at], Silent);
    }
  }

  lemma FieldsStaySilent(g: Graph, g1: Graph, loc: Loc, head: Head, at: Loc, q: Loc)
    requires Kept(g, g1, q) && Holds(g, loc, Node(head, at)) && Within(q, at, Ari(head))
    requires FieldsSilent(g, at, Ari(head))
    ensures FieldsSilent(g1, at, Ari(head))
  {
    var t := Node(head, at);
    assert InFoot(t, q);
    forall m | Within(m, at, Ari(head))
      ensures m in g1.live && Has(ReadAt(g1, m), Silent)
    {
      if m == q {
        assert Outside(g, q, q) && KeptCell(g, g1, q, q);
      } else {
        SiblingKept(g, g1, loc, t, q, m);
      }
      KeepAt(ReadAt(g, m), ReadAt(g1, m), Silent);
    }
  }

  /** On a tame term `cnf` leaves nothing out, unless it stops at an `INC` on top. */
  lemma {:induction false} CnfPlain(m: Memory, live: map<Loc, Info>, loc: Loc, fuel: nat)
    requires Ready(m, live, loc) && Has(ReadAt(Graph(m.h, live), loc), Tame) && CnfAt(m, loc, fuel).Value?
    ensures var res := CnfAt(m, loc, fuel); res.plain || IsInc(At(res.m.h, loc))
    decreases fuel, 0
  {
    var g := Graph(m.h, live);
    var m1 := WnfAt(m, loc, fuel);
    var live1 := WnfAtKeeps(m, live, loc, fuel);
    var g1, t := Graph(m1.h, live1), m1.h[loc].term;
    WnfReduced(m, live, loc, fuel, live1);
    WnfFirm(m, live, loc, fuel);
    assert Outside(g, loc, loc) && KeptCell(g, g1, loc, loc);
    KeepAt(ReadAt(g, loc), ReadAt(g1, loc), Tame);
    if HasFields(t) {
      NodeSilent(g1, loc, t.head, t.loc);
      assert FieldsDone(g1, t.loc, 0, -1, true);
      FieldsPlain(m1, live1, loc, t.head, t.loc, 0, -1, fuel - 1);
    }
  }

  lemma {:induction false} FieldsPlain(m: Memory, live: map<Loc, Info>, loc: Loc, head: Head, at: Loc, i: nat, j: int,
                                       fuel: nat)
    requires Ready(m, live, loc) && m.h[loc].term == Node(head, at) && Raisable(head) && i <= Ari(head)
    requires Whnf(Graph(m.h, live), loc) && FieldsDone(Graph(m.h, live), at, i, j, true)
    requires FieldsSilent(Graph(m.h, live), at, Ari(head))
    requires CnfFields(m, loc, head, at, i, j, true, fuel).Value?
    ensures CnfFields(m, loc, head, at, i, j, true, fuel).plain
    decreases fuel, 1 + Ari(head) - i
  {
    if i < Ari(head) {
      var q := at + i;
      var m', live1 := FieldPlain(m, live, loc, head, at, i, j, fuel);
      var t := At(m'.h, q);
      FieldsPlain(m', live1, loc, head, at, i + 1, if j < 0 && IsSup(t) then i else j, fuel);
    }
  }

  lemma {:induction false} FieldPlain(m: Memory, live: map<Loc, Info>, loc: Loc, head: Head, at: Loc, i: nat, j: int,
                                      fuel: nat)
    returns (m': Memory, live1: map<Loc, Info>)
    requires Ready(m, live, loc) && m.h[loc].term == Node(head, at) && Raisable(head) && i < Ari(head)
    requires Whnf(Graph(m.h, live), loc) && FieldsDone(Graph(m.h, live), at, i, j, true)
    requires FieldsSilent(Graph(m.h, live), at, Ari(head))
    requires CnfFields(m, loc, head, at, i, j, true, fuel).Value?
    ensures CnfAt(m, at + i, fuel) == Value(m', true) && !IsInc(At(m'.h, at + i))
    ensures Ready(m', live1, loc) && m'.h[loc].term == Node(head, at) && Whnf(Graph(m'.h, live1), loc)
    ensures var t := At(m'.h, at + i);
            FieldsDone(Graph(m'.h, live1), at, i + 1, if j < 0 && IsSup(t) then i else j, true)
    ensures FieldsSilent(Graph(m'.h, live1), at, Ari(head))
    decreases fuel, 1
  {
    var g, q := Graph(m.h, live), at + i;
    FieldReady(m, live, loc, Node(head, at), q);
    assert Within(q, at, Ari(head));
    SilentTame(ReadAt(g, q));
    CnfPlain(m, live, q, fuel);
    var g1, x1 := CnfAtKeeps(m, live, q, fuel);
    m' := CnfAt(m, q, fuel).m;
    FieldsStaySilent(g, g1, loc, head, at, q);
    NotIncSilent(g1, q);
    FieldNext(m, m', g, g1, x1, loc, head, at, i, j, true, CnfAt(m, q, fuel).plain);
    live1 := g1.live;
    assert g1 == Graph(m'.h, live1);
  }

  lemma NotIncSilent(g: Graph, q: Loc)
    requires Wf(g) && q in g.live && Has(ReadAt(g, q), Silent)
    ensures !IsInc(g.h[q].term)
  {
    if IsInc(g.h[q].term) {
      ReadInc(g, q, g.h[q].term.loc);
    }
  }

  // ---------------------------------------------------------------------------
  // The loop
  // ---------------------------------------------------------------------------

  ghost predicate AllPlain(lines: seq<Line>) {
    forall i :: 0 <= i < |lines| ==> lines[i].plain
  }

  /** The lines of a turn and those after it. */
  lemma TurnPlain(m: Memory, q: seq<Task<Loc>>, fuel: nat)
    requires q != [] && fuel > 0 && !CnfAt(m, q[0].item, fuel).Late?
    requires var res := CnfAt(m, q[0].item, fuel);
             AllPlain(Enumerate(res.m, Left(res, q), fuel - 1).lines)
             && (res.Value? ==> res.plain || IsInc(At(res.m.h, q[0].item)))
    ensures AllPlain(Enumerate(m, q, fuel).lines)
  {
  }

  lemma HeadPlain(m: Memory, live: map<Loc, Info>, q: seq<Task<Loc>>, fuel: nat)
    requires QueueReady(m, live, q) && AllHave(Graph(m.h, live), q, Tame) && q != [] && CnfAt(m, q[0].item, fuel).Value?
    ensures var res := CnfAt(m, q[0].item, fuel); res.plain || IsInc(At(res.m.h, q[0].item))
  {
    assert q[0] in q;
    CnfPlain(m, live, q[0].item, fuel);
  }

  /** No line printed for tame terms has a field that was left uncollapsed. */
  lemma {:induction false} EnumerateTame(m: Memory, live: map<Loc, Info>, q: seq<Task<Loc>>, fuel: nat)
    requires QueueReady(m, live, q) && AllHave(Graph(m.h, live), q, Tame)
    ensures AllPlain(Enumerate(m, q, fuel).lines)
    decreases fuel
  {
    if q != [] && fuel > 0 && !CnfAt(m, q[0].item, fuel).Late? {
      var res := CnfAt(m, q[0].item, fuel);
      var live2 := TurnHas(m, live, q, fuel, Tame);
      EnumerateTame(res.m, live2, Left(res, q), fuel - 1);
      if res.Value? {
        HeadPlain(m, live, q, fuel);
      }
      TurnPlain(m, q, fuel);
    }
  }
}
