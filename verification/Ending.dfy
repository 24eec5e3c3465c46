/**
 The machine comes to an end on every cell of every memory. An interaction makes the whole term smaller, in
 the sense of `Reduction`; between interactions the machine uses up substitutions, or gets on with its way
 through the term.
 */
module Ending {
  import opened U32Ops
  import opened Calculus
  import opened Reduction
  import opened Laws
  import opened Heap
  import opened Rules
  import opened Interact
  import opened Machine

  // ---------------------------------------------------------------------------
  // The way through the term
  // ---------------------------------------------------------------------------

  /** Bounds the turns it takes to go down a term and back up, if nothing interacts. */
  function Cost(t: Tree): nat {
    4 * Size(t) + 2 * Reduction.Reach(t)
  }

  /** What is still to be done at a frame; the second operand of `OP2` and `EQL` comes after the first. */
  ghost function FrameCost(g: Graph, f: Frame): nat
    requires Wf(g)
  {
    if f.FBin? && (f.k.KOp2? || f.k.KEql?) && f.loc + 1 in g.live then 2 + Cost(ReadAt(g, f.loc + 1)) else 1
  }

  ghost function StackCost(g: Graph, st: Stack): nat
    requires Wf(g)
  {
    if st.Nil? then 0 else FrameCost(g, st.top) + StackCost(g, st.rest)
  }

  /** The substitutions not yet used. */
  ghost function Subs(g: Graph): set<Loc> {
    set l | l in g.live && l in g.h && g.h[l].sub
  }

  /** How far a run has got: the weight of the whole term, its readers, the substitutions, the way ahead. */
  datatype Mark = Mark(weight: nat, reach: nat, subs: nat, way: nat)

  ghost function MarkOf(s: State, g: Graph, root: Loc): Mark
    requires Wf(g) && root in g.live && Spot(root, s.stack) in g.live
  {
    var t := ReadAt(g, root);
    Mark(Weight(t, 2), Reduction.Reach(t), |Subs(g)|, Way(s, g, root))
  }

  ghost function Way(s: State, g: Graph, root: Loc): nat
    requires Wf(g) && Spot(root, s.stack) in g.live
  {
    StackCost(g, s.stack) + if s.enter then Cost(ReadAt(g, Spot(root, s.stack))) else 0
  }

  predicate Before(a: Mark, b: Mark) {
    || a.weight < b.weight
    || (a.weight == b.weight && a.reach < b.reach)
    || (a.weight == b.weight && a.reach == b.reach && a.subs < b.subs)
    || (a.weight == b.weight && a.reach == b.reach && a.subs == b.subs && a.way < b.way)
  }

  // ---------------------------------------------------------------------------
  // Up the spine
  // ---------------------------------------------------------------------------

  /** The term in cell `l` has got smaller. */
  ghost predicate Shrunk(g: Graph, g2: Graph, l: Loc) {
    Wf(g) && Wf(g2) && l in g.live && l in g2.live && Fall(ReadAt(g, l), ReadAt(g2, l), 2)
  }

  lemma OutsideDrops(g: Graph, g2: Graph, p: Loc, m: Loc)
    requires Kept(g, g2, p) && Outside(g, p, m)
    ensures m in g2.live && Drop(ReadAt(g, m), ReadAt(g2, m), 2) && (m != p ==> m in g2.h && g2.h[m] == g.h[m])
    ensures g.h[m].sub == g2.h[m].sub
  {
    assert KeptCell(g, g2, p, m);
    DropAt(ReadAt(g, m), ReadAt(g2, m), 2);
  }

  lemma FieldOutside(g: Graph, p: Loc, q: Loc, t: Term, m: Loc)
    requires Wf(g) && p in g.live && Rules.Holds(g, q, t) && t.Node? && InFoot(t, m) && g.live[p].rank < g.live[q].rank
    ensures Outside(g, p, m)
  {
    assert TermOk(g, q, t) && RefOk(g, q, t, m);
  }

  /** The frame `f` is in cell `q` before and after, above the redex `p`. */
  ghost predicate AbovePart(g: Graph, g2: Graph, p: Loc, q: Loc, f: Frame) {
    && Kept(g, g2, p) && Rules.Holds(g, q, AsTerm(f)) && Rules.Holds(g2, q, AsTerm(f))
    && g.live[p].rank < g.live[q].rank
    && Outside(g, p, Hole(f)) && !g.h[Hole(f)].sub
  }

  lemma DpSmaller(g: Graph, g2: Graph, p: Loc, q: Loc, f: Frame)
    requires AbovePart(g, g2, p, q, f) && f.FDp? && Shrunk(g, g2, f.loc)
    ensures Shrunk(g, g2, q)
  {
    OutsideDrops(g, g2, p, f.loc);
    ReadDp(g, q, f.side, f.lab, f.loc);
    ReadDp(g2, q, f.side, f.lab, f.loc);
    DpMeasure(f.side, f.lab, ReadAt(g, f.loc), 2);
    DpMeasure(f.side, f.lab, ReadAt(g2, f.loc), 2);
  }

  lemma BinShrunk(g: Graph, g2: Graph, q: Loc, k: Kind, loc: Loc, x: Loc)
    requires Wf(g) && Wf(g2) && q in g.live && q in g2.live && g.h[q].term == Bin(k, loc) && g2.h[q].term == Bin(k, loc)
    requires loc in g.live && loc in g2.live && Drop(ReadAt(g, loc), ReadAt(g2, loc), 2)
    requires loc + 1 in g.live && loc + 1 in g2.live && Drop(ReadAt(g, loc + 1), ReadAt(g2, loc + 1), 2)
    requires (x == loc || x == loc + 1) && Shrunk(g, g2, x)
    ensures Shrunk(g, g2, q)
  {
    ReadBin(g, q, k, loc);
    ReadBin(g2, q, k, loc);
    DropBinAt(k, ReadAt(g, loc), ReadAt(g, loc + 1), ReadAt(g2, loc), ReadAt(g2, loc + 1), 2);
  }

  lemma BinSmaller(g: Graph, g2: Graph, p: Loc, q: Loc, f: Frame, k: Kind, loc: Loc, x: Loc)
    requires AbovePart(g, g2, p, q, f) && AsTerm(f) == Bin(k, loc) && (x == loc || x == loc + 1) && Shrunk(g, g2, x)
    ensures Shrunk(g, g2, q)
  {
    var t := Bin(k, loc);
    assert InFoot(t, loc) && InFoot(t, loc + 1);
    FieldOutside(g, p, q, t, loc);
    FieldOutside(g, p, q, t, loc + 1);
    OutsideDrops(g, g2, p, loc);
    OutsideDrops(g, g2, p, loc + 1);
    BinShrunk(g, g2, q, k, loc, x);
  }

  lemma NumSmaller(g: Graph, g2: Graph, p: Loc, q: Loc, f: Frame)
    requires AbovePart(g, g2, p, q, f) && f.FNum? && Shrunk(g, g2, f.hole)
    ensures Shrunk(g, g2, q)
  {
    ReadPart(g, q, f.opr, f.x, f.hole);
    ReadPart(g2, q, f.opr, f.x, f.hole);
    DropBinAt(KOp2(f.opr), TNum(f.x), ReadAt(g, f.hole), TNum(f.x), ReadAt(g2, f.hole), 2);
  }

  /** A node with a smaller field is smaller. */
  lemma UpSmaller(g: Graph, g2: Graph, p: Loc, q: Loc, f: Frame, x: Loc)
    requires AbovePart(g, g2, p, q, f) && (x == Hole(f) || (f.FBin? && x == f.loc + 1)) && Shrunk(g, g2, x)
    ensures Shrunk(g, g2, q)
  {
    match f
    case FDp(_, _, _) => DpSmaller(g, g2, p, q, f);
    case FBin(k, loc) => BinSmaller(g, g2, p, q, f, k, loc, x);
    case FNum(_, _, _) => NumSmaller(g, g2, p, q, f);
    case FEqR(loc) => BinSmaller(g, g2, p, q, f, KEql, loc, x);
  }

  lemma FrameStays(g: Graph, g2: Graph, p: Loc, root: Loc, st: Stack, cur: Term)
    requires Kept(g, g2, p) && Spine(g, root, st, cur) && g.live[p].rank <= g.live[Spot(root, st)].rank && st.Push?
    ensures AbovePart(g, g2, p, Spot(root, st.rest), st.top)
  {
    var q := Spot(root, st.rest);
    assert Spine(g, root, st.rest, AsTerm(st.top));
    HoleBelow(g, q, st.top);
    assert Outside(g, p, q) && Outside(g, p, Hole(st.top));
    OutsideDrops(g, g2, p, q);
  }

  /** When a term on the spine gets smaller, so does the whole. */
  lemma {:induction false} SpineSmaller(g: Graph, g2: Graph, p: Loc, root: Loc, st: Stack, cur: Term)
    requires Kept(g, g2, p) && Spine(g, root, st, cur) && g.live[p].rank <= g.live[Spot(root, st)].rank
    requires Shrunk(g, g2, Spot(root, st))
    ensures Shrunk(g, g2, root)
    decreases st
  {
    if st.Push? {
      var q := Spot(root, st.rest);
      FrameStays(g, g2, p, root, st, cur);
      UpSmaller(g, g2, p, q, st.top, Hole(st.top));
      SpineSmaller(g, g2, p, root, st.rest, AsTerm(st.top));
    }
  }

  /** When nothing gets smaller, the frames above the change are as much work as before. */
  lemma {:induction false} StackSame(g: Graph, g2: Graph, p: Loc, root: Loc, st: Stack, cur: Term)
    requires Kept(g, g2, p) && Spine(g, root, st, cur) && g.live[p].rank <= g.live[Spot(root, st)].rank
    ensures Shrunk(g, g2, root) || StackCost(g2, st) == StackCost(g, st)
    decreases st
  {
    if st.Push? {
      var q := Spot(root, st.rest);
      FrameStays(g, g2, p, root, st, cur);
      StackSame(g, g2, p, root, st.rest, AsTerm(st.top));
      FrameSame(g, g2, p, q, st.top);
      if Shrunk(g, g2, q) {
        SpineSmaller(g, g2, p, root, st.rest, AsTerm(st.top));
      }
    }
  }

  lemma OperandDrops(g: Graph, g2: Graph, p: Loc, q: Loc, f: Frame)
    requires AbovePart(g, g2, p, q, f) && f.FBin?
    ensures f.loc + 1 in g.live && f.loc + 1 in g2.live && Drop(ReadAt(g, f.loc + 1), ReadAt(g2, f.loc + 1), 2)
  {
    assert InFoot(AsTerm(f), f.loc + 1);
    FieldOutside(g, p, q, AsTerm(f), f.loc + 1);
    OutsideDrops(g, g2, p, f.loc + 1);
  }

  /** What the frame `f` still has to do is as much as before. */
  ghost predicate FrameStill(g: Graph, g2: Graph, f: Frame) {
    Wf(g) && Wf(g2) && FrameCost(g2, f) == FrameCost(g, f)
  }

  lemma DropFlat(t: Tree, u: Tree)
    requires Drop(t, u, 2) && !Fall(t, u, 2)
    ensures Size(u) == Size(t) && Reduction.Reach(u) == Reduction.Reach(t)
  {
  }

  lemma OperandStill(g: Graph, g2: Graph, f: Frame)
    requires Wf(g) && Wf(g2) && f.FBin? && f.loc + 1 in g.live && f.loc + 1 in g2.live
    requires Cost(ReadAt(g2, f.loc + 1)) == Cost(ReadAt(g, f.loc + 1))
    ensures FrameStill(g, g2, f)
  {
  }

  lemma BinStill(g: Graph, g2: Graph, p: Loc, q: Loc, f: Frame)
    requires AbovePart(g, g2, p, q, f) && f.FBin?
    ensures Shrunk(g, g2, q) || FrameStill(g, g2, f)
  {
    var y := f.loc + 1;
    OperandDrops(g, g2, p, q, f);
    if Shrunk(g, g2, y) {
      UpSmaller(g, g2, p, q, f, y);
    } else {
      DropFlat(ReadAt(g, y), ReadAt(g2, y));
      OperandStill(g, g2, f);
    }
  }

  lemma FrameSame(g: Graph, g2: Graph, p: Loc, q: Loc, f: Frame)
    requires AbovePart(g, g2, p, q, f)
    ensures Shrunk(g, g2, q) || FrameStill(g, g2, f)
  {
    if f.FBin? {
      BinStill(g, g2, p, q, f);
    }
  }

  // ---------------------------------------------------------------------------
  // Substitutions
  // ---------------------------------------------------------------------------

  /** A change that writes no substitution makes none. */
  lemma NoNewSubs(g: Graph, g2: Graph, p: Loc, q: Loc, out: Out)
    requires Fires(g, g2, p, q, out) && forall m :: m in out.ws ==> !out.ws[m].sub
    ensures Subs(g2) <= Subs(g) && |Subs(g2)| <= |Subs(g)|
  {
    forall m | m in Subs(g2)
      ensures m in Subs(g)
    {
    }
    Fewer(Subs(g2), Subs(g));
  }

  lemma Fewer(a: set<Loc>, b: set<Loc>)
    requires a <= b
    ensures |a| <= |b| && (a != b ==> |a| < |b|)
  {
    assert b == a + (b - a);
    assert |b| == |a| + |b - a|;
  }

  lemma SubUsed(s: State, g: Graph, g2: Graph, root: Loc)
    requires Inv(s, g, root) && s.enter && s.cur.Dp? && s.cur.loc in s.h && s.h[s.cur.loc].sub && Move(s, g, g2, root)
    ensures |Subs(g2)| < |Subs(g)|
  {
    var p, loc := Spot(root, s.stack), s.cur.loc;
    HoleOff(s.h, s.next, FDp(s.cur.side, s.cur.lab, loc), s.stack, g, root);
    NoNewSubs(g, g2, p, loc, PlainOut(s.next, s.h[loc].term, true));
    assert loc in Subs(g) && loc !in Subs(g2);
    Fewer(Subs(g2), Subs(g));
  }

  // ---------------------------------------------------------------------------
  // Every step gets on
  // ---------------------------------------------------------------------------

  lemma RootDrops(g: Graph, g2: Graph, root: Loc)
    requires Kept(g, g2, root)
    ensures root in g2.live && Drop(ReadAt(g, root), ReadAt(g2, root), 2)
  {
    assert Outside(g, root, root);
    OutsideDrops(g, g2, root, root);
  }

  lemma FellShrinks(g: Graph, g2: Graph, p: Loc)
    requires Fell(g, g2, p)
    ensures Shrunk(g, g2, p)
  {
    assert Fall(ReadAt(g, p), ReadAt(g2, p), 2);
  }

  lemma RewriteSmaller(s: State, g: Graph, g2: Graph, root: Loc)
    requires Inv(s, g, root) && !s.enter && s.stack.Push? && Apply(s.h, s.next, s.stack.top, s.cur).Rewrite?
    requires Move(s, g, g2, root)
    ensures Shrunk(g, g2, root)
  {
    var f, rest := s.stack.top, s.stack.rest;
    assert Spine(g, root, rest, AsTerm(f));
    FellShrinks(g, g2, Spot(root, rest));
    SpineSmaller(g, g2, Spot(root, rest), root, rest, AsTerm(f));
  }

  lemma SizeOne(t: Tree)
    ensures Size(t) >= 1
    decreases t
  {
    if t.TDp? {
      SizeOne(t.e);
    }
  }

  lemma CostDp(i: bit, l: Label, e: Tree)
    ensures Cost(TDp(i, l, e)) >= Cost(e) + 2
  {
    DpMeasure(i, l, e, 2);
    SizeOne(e);
  }

  lemma CostBin(k: Kind, x: Tree, y: Tree)
    ensures Cost(TBin(k, x, y)) == Cost(x) + Cost(y) + 4
  {
  }

  lemma PushWay(s: State, g: Graph, root: Loc, f: Frame)
    requires Wf(g) && Spot(root, s.stack) in g.live && s.enter && Hole(f) in g.live
    requires FrameCost(g, f) + Cost(ReadAt(g, Hole(f))) < Cost(ReadAt(g, Spot(root, s.stack)))
    ensures forall s': State :: s'.enter && s'.stack == Push(f, s.stack) ==> Way(s', g, root) < Way(s, g, root)
  {
  }

  lemma DownDp(s: State, g: Graph, root: Loc, i: bit, lab: Label, loc: Loc)
    requires Wf(g) && Spot(root, s.stack) in g.live && g.h[Spot(root, s.stack)].term == Dp(i, lab, loc) && loc in g.live
    requires !g.h[loc].sub
    ensures FrameCost(g, FDp(i, lab, loc)) + Cost(ReadAt(g, loc)) < Cost(ReadAt(g, Spot(root, s.stack)))
  {
    ReadDp(g, Spot(root, s.stack), i, lab, loc);
    CostDp(i, lab, ReadAt(g, loc));
  }

  lemma DownBin(s: State, g: Graph, root: Loc, k: Kind, loc: Loc)
    requires Wf(g) && Spot(root, s.stack) in g.live && g.h[Spot(root, s.stack)].term == Bin(k, loc)
    ensures loc in g.live && FrameCost(g, FBin(k, loc)) + Cost(ReadAt(g, loc)) < Cost(ReadAt(g, Spot(root, s.stack)))
  {
    ReadBin(g, Spot(root, s.stack), k, loc);
    CostBin(k, ReadAt(g, loc), ReadAt(g, loc + 1));
  }

  lemma DownPart(s: State, g: Graph, root: Loc, opr: nat, x: u32, hole: Loc)
    requires Wf(g) && Spot(root, s.stack) in g.live && g.h[Spot(root, s.stack)].term == Part(opr, x, hole)
    ensures hole in g.live
    ensures FrameCost(g, FNum(opr, x, hole)) + Cost(ReadAt(g, hole)) < Cost(ReadAt(g, Spot(root, s.stack)))
  {
    ReadPart(g, Spot(root, s.stack), opr, x, hole);
    CostBin(KOp2(opr), TNum(x), ReadAt(g, hole));
  }

  /** Going down into a term leaves less of the way ahead. */
  lemma DownNearer(s: State, g: Graph, root: Loc)
    requires Inv(s, g, root) && s.enter && !(s.cur.Dp? && s.cur.loc in s.h && s.h[s.cur.loc].sub)
    requires Inv(EnterStep(s), g, root)
    ensures Way(EnterStep(s), g, root) < Way(s, g, root)
  {
    match s.cur
    case Dp(i, lab, loc) =>
      HoleOff(s.h, s.next, FDp(i, lab, loc), s.stack, g, root);
      DownDp(s, g, root, i, lab, loc);
      PushWay(s, g, root, FDp(i, lab, loc));
    case Node(HBin(k), loc) =>
      DownBin(s, g, root, k, loc);
      PushWay(s, g, root, FBin(k, loc));
    case Node(HPart(opr, x), hole) =>
      DownPart(s, g, root, opr, x, hole);
      PushWay(s, g, root, FNum(opr, x, hole));
    case _ => SizeOne(ReadAt(g, Spot(root, s.stack)));
  }

  lemma StuckNearer(s: State, g: Graph, g2: Graph, root: Loc)
    requires Inv(s, g, root) && !s.enter && s.stack.Push? && Apply(s.h, s.next, s.stack.top, s.cur).Stuck?
    requires Move(s, g, g2, root)
    requires Inv(ApplyStep(s), g2, root)
    ensures Shrunk(g, g2, root) || (|Subs(g2)| <= |Subs(g)| && StackCost(g2, s.stack.rest) < StackCost(g, s.stack))
  {
    var f, rest := s.stack.top, s.stack.rest;
    assert Spine(g, root, rest, AsTerm(f));
    if f.FNum? {
      StackSame(g, g2, Spot(root, rest), root, rest, AsTerm(f));
      NoNewSubs(g, g2, Spot(root, rest), Hole(f), Unwind(s.next, f, s.cur));
    }
  }

  /** The second operand of an `OP2` is as much work in the frame as in the node. */
  lemma OperandSame(g: Graph, g2: Graph, p: Loc, opr: nat, n: u32, loc: Loc)
    requires Kept(g, g2, p) && Rules.Holds(g, p, Bin(KOp2(opr), loc)) && loc in g.h && g.h[loc].term == Num(n)
    requires Rules.Holds(g2, p, Part(opr, n, loc + 1))
    ensures loc + 1 in g.live && loc + 1 in g2.live
    ensures Shrunk(g, g2, p) || Cost(ReadAt(g2, loc + 1)) == Cost(ReadAt(g, loc + 1))
  {
    assert Outside(g, p, p);
    OutsideDrops(g, g2, p, p);
    ReadBin(g, p, KOp2(opr), loc);
    ReadAtom(g, loc);
    ReadPart(g2, p, opr, n, loc + 1);
  }

  lemma EqlNearer(s: State, g: Graph, root: Loc, loc: Loc, rest: Stack)
    requires Wf(g) && !s.enter && s.stack == Push(FBin(KEql, loc), rest) && loc in g.live && loc + 1 in g.live
    ensures forall s': State :: s'.enter && s'.stack == Push(FEqR(loc), rest) ==> Way(s', g, root) < Way(s, g, root)
  {
  }

  lemma Op2Nearer(s: State, g: Graph, g2: Graph, root: Loc, opr: nat, n: u32, loc: Loc, rest: Stack)
    requires Wf(g) && Wf(g2) && !s.enter && s.stack == Push(FBin(KOp2(opr), loc), rest) && loc in g.live
    requires loc + 1 in g.live && loc + 1 in g2.live
    requires StackCost(g2, rest) == StackCost(g, rest) && Cost(ReadAt(g2, loc + 1)) == Cost(ReadAt(g, loc + 1))
    ensures forall s': State :: s'.enter && s'.stack == Push(FNum(opr, n, loc + 1), rest) ==>
              Way(s', g2, root) < Way(s, g, root)
  {
  }

  /** `OP2` turns to its second operand. */
  lemma Op2Turns(s: State, g: Graph, g2: Graph, root: Loc, opr: nat, n: u32, loc: Loc, rest: Stack)
    requires Inv(s, g, root) && !s.enter && s.stack == Push(FBin(KOp2(opr), loc), rest) && s.cur == Num(n)
    requires Kept(g, g2, Spot(root, rest))
    requires Rules.Holds(g2, Spot(root, rest), Part(opr, n, loc + 1))
    ensures loc in g.live && loc + 1 in g.live && loc + 1 in g2.live
    ensures Shrunk(g, g2, root)
            || (StackCost(g2, rest) == StackCost(g, rest) && Cost(ReadAt(g2, loc + 1)) == Cost(ReadAt(g, loc + 1)))
  {
    var p := Spot(root, rest);
    assert Spine(g, root, rest, AsTerm(FBin(KOp2(opr), loc)));
    ReadBin(g, p, KOp2(opr), loc);
    OperandSame(g, g2, p, opr, n, loc);
    StackSame(g, g2, p, root, rest, Bin(KOp2(opr), loc));
    if Shrunk(g, g2, p) {
      SpineSmaller(g, g2, p, root, rest, Bin(KOp2(opr), loc));
    }
  }

  lemma SwapOp2(s: State, g: Graph, g2: Graph, root: Loc, opr: nat, n: u32, loc: Loc, rest: Stack)
    requires Inv(s, g, root) && !s.enter && s.stack == Push(FBin(KOp2(opr), loc), rest) && s.cur == Num(n)
    requires Fires(g, g2, Spot(root, rest), loc, PlainOut(s.next, Part(opr, n, loc + 1), true))
    requires Rules.Holds(g2, Spot(root, rest), Part(opr, n, loc + 1))
    ensures Shrunk(g, g2, root)
            || (|Subs(g2)| <= |Subs(g)|
               && forall s': State ::
                 s'.enter && s'.stack == Push(FNum(opr, n, loc + 1), rest) && Wf(g2) && loc + 1 in g2.live ==>
                 Way(s', g2, root) < Way(s, g, root))
  {
    Op2Turns(s, g, g2, root, opr, n, loc, rest);
    NoNewSubs(g, g2, Spot(root, rest), loc, PlainOut(s.next, Part(opr, n, loc + 1), true));
    if !Shrunk(g, g2, root) {
      Op2Nearer(s, g, g2, root, opr, n, loc, rest);
    }
  }

  lemma SwapNearer(s: State, g: Graph, g2: Graph, root: Loc)
    requires Inv(s, g, root) && !s.enter && s.stack.Push? && Apply(s.h, s.next, s.stack.top, s.cur).Swap?
    requires Move(s, g, g2, root)
    requires Inv(ApplyStep(s), g2, root)
    ensures Shrunk(g, g2, root) || (|Subs(g2)| <= |Subs(g)| && Way(ApplyStep(s), g2, root) < Way(s, g, root))
  {
    var f, rest := s.stack.top, s.stack.rest;
    assert s.stack == Push(f, rest);
    if f.k.KOp2? {
      assert Spine(g2, root, rest, Part(f.k.opr, s.cur.n, f.loc + 1));
      SwapOp2(s, g, g2, root, f.k.opr, s.cur.n, f.loc, rest);
    } else {
      assert Spine(g, root, rest, AsTerm(f));
      ReadBin(g, Spot(root, rest), f.k, f.loc);
      EqlNearer(s, g, root, f.loc, rest);
    }
  }

  /** Every step leaves less to do. */
  lemma StepBefore(s: State, g: Graph, g2: Graph, root: Loc)
    requires Inv(s, g, root) && Inv(Step(s), g2, root) && Kept(g, g2, root) && Move(s, g, g2, root) && !Finished(s)
    ensures Before(MarkOf(Step(s), g2, root), MarkOf(s, g, root))
  {
    RootDrops(g, g2, root);
    if s.enter {
      if s.cur.Dp? && s.cur.loc in s.h && s.h[s.cur.loc].sub {
        SubUsed(s, g, g2, root);
      } else {
        DownNearer(s, g, root);
      }
    } else {
      match Apply(s.h, s.next, s.stack.top, s.cur)
      case Rewrite(_) => RewriteSmaller(s, g, g2, root);
      case Stuck => StuckNearer(s, g, g2, root);
      case Swap(_, _, _) => SwapNearer(s, g, g2, root);
    }
  }

  /** From every state of the machine, a run comes to its end. */
  lemma {:induction false} RunEnds(s: State, g: Graph, root: Loc) returns (n: nat)
    requires Inv(s, g, root) && root in g.live
    ensures Finished(Steps(s, n))
    decreases MarkOf(s, g, root).weight, MarkOf(s, g, root).reach, MarkOf(s, g, root).subs, MarkOf(s, g, root).way
  {
    n := 0;
    if !Finished(s) {
      var g2 := StepKeeps(s, g, root);
      StepBefore(s, g, g2, root);
      RootDrops(g, g2, root);
      n := RunEnds(Step(s), g2, root);
      n := n + 1;
    }
  }

  lemma {:induction false} FinishedStays(s: State, n: nat)
    requires Finished(s)
    ensures Steps(s, n) == s
    decreases n
  {
    if n > 0 {
      FinishedStays(s, n - 1);
    }
  }

  lemma {:induction false} StepsOn(s: State, n: nat, k: nat)
    requires Finished(Steps(s, n)) && n <= k
    ensures Steps(s, k) == Steps(s, n)
    decreases n
  {
    if n == 0 {
      FinishedStays(s, k);
    } else {
      StepsOn(Step(s), n - 1, k - 1);
    }
  }

  /** Reducing a cell comes to an end, and more turns make no difference. */
  lemma WnfEnds(m: Memory, live: map<Loc, Info>, loc: Loc) returns (n: nat)
    requires Ready(m, live, loc)
    ensures forall k: nat :: n <= k ==>
              Finished(Steps(Start(m, loc), k)) && Steps(Start(m, loc), k) == Steps(Start(m, loc), n)
  {
    StartInv(m, live, loc);
    n := RunEnds(Start(m, loc), Graph(m.h, live), loc);
    forall k: nat | n <= k
      ensures Finished(Steps(Start(m, loc), k)) && Steps(Start(m, loc), k) == Steps(Start(m, loc), n)
    {
      StepsOn(Start(m, loc), n, k);
    }
  }

  /** However the work was cut into bounded runs before, one more run comes to an end, always with the same answer. */
  lemma AlwaysEnds(m: Memory, live: map<Loc, Info>, loc: Loc, bounds: seq<nat>) returns (n: nat)
    requires Ready(m, live, loc)
    ensures forall k: nat :: n <= k ==>
              Ends(m, loc, bounds, k) && Answer(m, loc, bounds, k) == Answer(m, loc, bounds, n)
  {
    var live1 := RunsKeep(m, live, loc, bounds);
    n := WnfEnds(Runs(m, loc, bounds), live1, loc);
  }

  // ---------------------------------------------------------------------------
  // One answer
  // ---------------------------------------------------------------------------

  /** Without superpositions and without anything that makes an `INC`, the answer is neither. */
  lemma NoBranch(m: Memory, live: map<Loc, Info>, loc: Loc, bounds: seq<nat>, n: nat)
    requires Ready(m, live, loc) && Has(ReadAt(Graph(m.h, live), loc), Single)
    requires Has(ReadAt(Graph(m.h, live), loc), Silent)
    requires Ends(m, loc, bounds, n)
    ensures !IsBranch(Answer(m, loc, bounds, n))
  {
    var g, m1 := Graph(m.h, live), Runs(m, loc, bounds);
    var live1 := RunsKeep(m, live, loc, bounds);
    var g1 := Graph(m1.h, live1);
    StartInv(m1, live1, loc);
    var g2 := StepsKeep(Start(m1, loc), n, g1, loc);
    KeptThen(g, g1, g2, loc, loc);
    SortsKept(g, g2, loc);
    var t := g2.h[loc].term;
    if t.Node? && t.head.HSup? {
      ReadSup(g2, loc, t.head.lab, t.loc);
    } else if t.Node? && t.head.HInc? {
      ReadInc(g2, loc, t.loc);
    }
  }

  lemma SortsKept(g: Graph, g2: Graph, loc: Loc)
    requires Kept(g, g2, loc)
    ensures loc in g2.live && forall s :: Has(ReadAt(g, loc), s) ==> Has(ReadAt(g2, loc), s)
  {
    assert Outside(g, loc, loc) && KeptCell(g, g2, loc, loc);
    forall s | Has(ReadAt(g, loc), s)
      ensures Has(ReadAt(g2, loc), s)
    {
      KeepAt(ReadAt(g, loc), ReadAt(g2, loc), s);
    }
  }

  /** However the work is cut into bounded runs, the runs end, and they end alike. */
  lemma OneAnswer(m: Memory, live: map<Loc, Info>, loc: Loc, bounds1: seq<nat>, bounds2: seq<nat>) returns (n: nat)
    requires Ready(m, live, loc) && Has(ReadAt(Graph(m.h, live), loc), Single)
    requires Has(ReadAt(Graph(m.h, live), loc), Silent)
    ensures forall k1: nat, k2: nat :: n <= k1 && n <= k2 ==>
              && Ends(m, loc, bounds1, k1) && Ends(m, loc, bounds2, k2)
              && Machine.Alike(Answer(m, loc, bounds1, k1), Answer(m, loc, bounds2, k2))
  {
    var n1 := AlwaysEnds(m, live, loc, bounds1);
    var n2 := AlwaysEnds(m, live, loc, bounds2);
    n := n1 + n2;
    forall k1: nat, k2: nat | n <= k1 && n <= k2
      ensures Ends(m, loc, bounds1, k1) && Ends(m, loc, bounds2, k2)
      ensures Machine.Alike(Answer(m, loc, bounds1, k1), Answer(m, loc, bounds2, k2))
    {
      NoBranch(m, live, loc, bounds1, k1);
      NoBranch(m, live, loc, bounds2, k2);
      AnswersAgree(m, live, loc, bounds1, k1, bounds2, k2);
    }
  }
}
