/**
 The stack machine of `clang/wnf/_.c`. It walks into the active field of a term, leaving a frame for each
 node it passes, and applies the interactions when it comes back. The heap does not hold the terms of
 the nodes it is in the middle of; a graph of the heap as it would be with all of them put back is kept
 alongside, and every step is a sound change of that graph.
 */
module Machine {
  import opened U32Ops
  import opened Calculus
  import opened Reduction
  import opened Laws
  import opened Heap
  import opened Rules
  import opened RulesEql
  import opened Interact

  datatype Stack = Nil | Push(top: Frame, rest: Stack)

  /** `enter` tells whether `cur` is a term to reduce (`next`) or a reduced one to apply (`whnf`). */
  datatype State = State(h: Cells, next: Loc, stack: Stack, enter: bool, cur: Term, itrs: nat)

  // ---------------------------------------------------------------------------
  // The machine
  // ---------------------------------------------------------------------------

  /** What the machine does when it returns to a frame with a reduced field. */
  datatype Action =
    | Rewrite(out: Out)                       // an interaction
    | Stuck                                   // the field is put back, the node is returned
    | Swap(h: Cells, f: Frame, t: Term)       // another frame is pushed, and `t` is entered

  function ApplyDup(h: Cells, next: Loc, i: bit, lab: Label, loc: Loc, t: Term): Action {
    if !t.Node? then
      if t.Dp? then Stuck else Rewrite(DupAtomOut(next, loc, t, false))
    else match t.head
      case HSup(l) =>
        if l == lab then Rewrite(AnnihilateOut(h, next, i, loc, t.loc))
        else Rewrite(DupNodOut(next, i, lab, loc, t.head, t.loc))
      case HCtr(_, n) =>
        if n == 0 then Rewrite(DupAtomOut(next, loc, t, true)) else Rewrite(DupNodOut(next, i, lab, loc, t.head, t.loc))
      case HInc => Rewrite(DupNodOut(next, i, lab, loc, t.head, t.loc))
      case HBin(k) => if k.KOp2? then Rewrite(DupNodOut(next, i, lab, loc, t.head, t.loc)) else Stuck
      case HPart(_, _) => Stuck
  }

  function ApplyOp2(h: Cells, next: Loc, opr: nat, loc: Loc, t: Term): Action {
    match t
    case Era => Rewrite(PlainOut(next, Era, false))
    case Num(n) =>
      var y := At(h, loc + 1);
      if y.Num? then Rewrite(PlainOut(next, Num(Op2U32(opr, n, y.n)), false)) else Swap(h, FNum(opr, n, loc + 1), y)
    case Node(HSup(lab), sup) => Rewrite(BinSupOut(h, next, KOp2(opr), loc, loc, lab, sup))
    case Node(HInc, inc) => Rewrite(BinIncOut(h, next, KOp2(opr), loc, loc, next, inc))
    case _ => Stuck
  }

  function ApplyNum(h: Cells, next: Loc, opr: nat, x: u32, t: Term): Action {
    match t
    case Era => Rewrite(PlainOut(next, Era, false))
    case Num(n) => Rewrite(PlainOut(next, Num(Op2U32(opr, x, n)), false))
    case Node(HSup(lab), sup) => Rewrite(NumSupOut(h, next, opr, x, lab, sup))
    case Node(HInc, inc) => Rewrite(NumIncOut(h, next, opr, x, inc))
    case _ => Stuck
  }

  /** AND and OR; `unit` is the operand for which the result is the second one. */
  function ApplyLogic(h: Cells, next: Loc, k: Kind, loc: Loc, t: Term): Action
    requires k == KAnd || k == KOr
  {
    match t
    case Era => Rewrite(PlainOut(next, Era, false))
    case Num(n) =>
      if (k == KAnd) == (n == 0) then Rewrite(PlainOut(next, Num(if k == KAnd then 0 else 1), true))
      else Rewrite(PlainOut(next, At(h, loc + 1), true))
    case Node(HSup(lab), sup) => Rewrite(BinSupOut(h, next, k, loc, loc, lab, sup))
    case Node(HInc, inc) => Rewrite(BinIncOut(h, next, k, loc, loc, loc, inc))
    case _ => Stuck
  }

  function ApplyEql(h: Cells, next: Loc, loc: Loc, t: Term): Action {
    match t
    case Era => Rewrite(PlainOut(next, Era, false))
    case Any => Rewrite(PlainOut(next, Num(1), false))
    case Node(HSup(lab), sup) => Rewrite(BinSupOut(h, next, KEql, loc, loc, lab, sup))
    case Node(HInc, inc) => Rewrite(BinIncOut(h, next, KEql, loc, loc, loc, inc))
    case _ => Swap(h[loc := C(t)], FEqR(loc), At(h, loc + 1))
  }

  function ApplyEqR(h: Cells, next: Loc, loc: Loc, t: Term): Action {
    var a := At(h, loc);
    match t
    case Era => Rewrite(PlainOut(next, Era, false))
    case Any => Rewrite(PlainOut(next, Num(1), false))
    case Node(HSup(lab), sup) => Rewrite(BinSupOut(h, next, KEql, loc, loc + 1, lab, sup))
    case Node(HInc, inc) => Rewrite(BinIncOut(h, next, KEql, loc, loc + 1, loc, inc))
    case _ =>
      if a.Any? then Rewrite(PlainOut(next, Num(1), false))
      else if a.Num? && t.Num? then Rewrite(PlainOut(next, Num(Truth(a.n == t.n)), false))
      else if IsCtr(a) && IsCtr(t) then ApplyCtrs(h, next, loc, a, t)
      else if a.Nam? && t.Nam? then Rewrite(PlainOut(next, Num(Truth(a == t)), false))
      else Rewrite(PlainOut(next, Num(0), false))
  }

  predicate IsCtr(t: Term) {
    t.Node? && t.head.HCtr?
  }

  /** EQL-CTR. */
  function ApplyCtrs(h: Cells, next: Loc, loc: Loc, a: Term, t: Term): Action
    requires IsCtr(a) && IsCtr(t)
  {
    if a.head != t.head then Rewrite(PlainOut(next, Num(0), true))
    else if a.head.n == 0 then Rewrite(PlainOut(next, Num(1), true))
    else Rewrite(EqlCtrOut(h, next, loc, a.head.nam, a.head.n, a.loc, t.loc))
  }

  function Apply(h: Cells, next: Loc, f: Frame, t: Term): Action {
    match f
    case FDp(i, lab, loc) => ApplyDup(h, next, i, lab, loc, t)
    case FBin(KOp2(opr), loc) => ApplyOp2(h, next, opr, loc, t)
    case FBin(KEql, loc) => ApplyEql(h, next, loc, t)
    case FBin(k, loc) => ApplyLogic(h, next, k, loc, t)
    case FNum(opr, x, _) => ApplyNum(h, next, opr, x, t)
    case FEqR(loc) => ApplyEqR(h, next, loc, t)
  }

  /** Putting a term back into the node of a frame; `F_OP2_NUM` needs a new node. */
  function Unwind(next: Loc, f: Frame, t: Term): Out {
    if f.FNum? then NumStuckOut(next, f.opr, f.x, t) else Out(map[Hole(f) := C(t)], AsTerm(f), next, false)
  }

  function EnterStep(s: State): State {
    match s.cur
    case Dp(i, lab, loc) =>
      if loc in s.h && s.h[loc].sub then s.(cur := s.h[loc].term)
      else s.(stack := Push(FDp(i, lab, loc), s.stack), cur := At(s.h, loc))
    case Node(HBin(k), loc) => s.(stack := Push(FBin(k, loc), s.stack), cur := At(s.h, loc))
    case Node(HPart(opr, x), hole) =>
      s.(stack := Push(FNum(opr, x, hole), s.stack), cur := At(s.h, hole))   // never in a heap
    case _ => s.(enter := false)
  }

  function ApplyStep(s: State): State
    requires s.stack.Push?
  {
    var f, rest := s.stack.top, s.stack.rest;
    match Apply(s.h, s.next, f, s.cur)
    case Rewrite(out) => State(s.h + out.ws, out.next, rest, out.enter, out.res, s.itrs + 1)
    case Stuck =>
      var out := Unwind(s.next, f, s.cur);
      State(s.h + out.ws, out.next, rest, false, out.res, s.itrs)
    case Swap(h, f', t) => State(h, s.next, Push(f', rest), true, t, s.itrs)
  }

  predicate Finished(s: State) {
    !s.enter && s.stack.Nil?
  }

  /** One turn of the machine: from one check of the interaction limit to the next. */
  function Step(s: State): State {
    if s.enter then EnterStep(s) else if s.stack.Push? then ApplyStep(s) else s
  }

  function Steps(s: State, n: nat): State
    decreases n
  {
    if n == 0 then s else Steps(Step(s), n - 1)
  }

  /** `wnf_rebuild`. */
  function Rebuild(s: State): State
    decreases s.stack
  {
    match s.stack
    case Nil => s
    case Push(f, rest) =>
      var out := Unwind(s.next, f, s.cur);
      Rebuild(State(s.h + out.ws, out.next, rest, false, out.res, s.itrs))
  }

  // ---------------------------------------------------------------------------
  // The heap with the stack put back
  // ---------------------------------------------------------------------------

  /** The cell that the current term belongs in. */
  function Spot(root: Loc, st: Stack): Loc {
    if st.Nil? then root else Hole(st.top)
  }

  predicate OnSpine(root: Loc, st: Stack, m: Loc) {
    m == Spot(root, st) || (st.Push? && OnSpine(root, st.rest, m))
  }

  /** From the root down to the current term. */
  ghost predicate Spine(g: Graph, root: Loc, st: Stack, cur: Term) {
    Holds(g, Spot(root, st), cur) && (st.Push? ==> Spine(g, root, st.rest, AsTerm(st.top)))
  }

  /** Off the spine the heap is as it looks. */
  ghost predicate Off(h: Cells, g: Graph, root: Loc, st: Stack) {
    forall m :: m in g.live && !OnSpine(root, st, m) ==> m in h && m in g.h && h[m] == g.h[m]
  }

  /** The values a reduced term can have. */
  predicate ValueLike(t: Term, v: Val) {
    match t
    case Num(n) => v == VNum(n)
    case Era => v == VEra
    case Any => v == VAny
    case Nam(tag, ext, val) => v == VNam(tag, ext, val)
    case Dp(_, _, _) => Calculus.Stuck(v)
    case Node(head, _) =>
      match head
      case HCtr(nam, n) => v.VCtr? && v.nam == nam && |v.args| == n
      case HSup(_) => true
      case HInc => true
      case HBin(_) => Calculus.Stuck(v)
      case HPart(_, _) => false
  }

  /** The term in cell `l` is reduced. */
  ghost predicate Whnf(g: Graph, l: Loc)
    requires Wf(g) && l in g.live
  {
    forall r: Env :: ValueLike(g.h[l].term, D(ReadAt(g, l), r))
  }

  /** The first operand of an `EQL` whose second one is being reduced. */
  ghost predicate Eye(g: Graph, l: Loc)
    requires Wf(g)
  {
    && l in g.live && Whnf(g, l)
    && var t := g.h[l].term;
    && !t.Era? && !t.Any? && !(t.Node? && (t.head.HSup? || t.head.HInc?))
  }

  ghost predicate Eyes(g: Graph, st: Stack)
    requires Wf(g)
  {
    st.Push? ==> Eyes(g, st.rest) && (st.top.FEqR? ==> Eye(g, st.top.loc))
  }

  /** The machine state `s`, at work on cell `root`, shows the graph `g`. */
  ghost predicate Shows(h: Cells, next: Loc, st: Stack, cur: Term, g: Graph, root: Loc) {
    Wf(g) && Fresh(g.live, next) && Spine(g, root, st, cur) && Off(h, g, root, st) && Eyes(g, st)
  }

  ghost predicate Inv(s: State, g: Graph, root: Loc) {
    Shows(s.h, s.next, s.stack, s.cur, g, root) && (!s.enter ==> Whnf(g, Spot(root, s.stack)))
  }

  // ---------------------------------------------------------------------------
  // The spine
  // ---------------------------------------------------------------------------

  /** Ranks fall along the spine. */
  lemma {:induction false} SpineRank(g: Graph, root: Loc, st: Stack, cur: Term, m: Loc)
    requires Wf(g) && Spine(g, root, st, cur) && OnSpine(root, st, m)
    ensures m in g.live && g.live[Spot(root, st)].rank <= g.live[m].rank
    ensures m == Spot(root, st) || g.live[Spot(root, st)].rank < g.live[m].rank
    decreases st
  {
    if m != Spot(root, st) {
      SpineRank(g, root, st.rest, AsTerm(st.top), m);
      HoleBelow(g, Spot(root, st.rest), st.top);
    }
  }

  lemma HoleBelow(g: Graph, p: Loc, f: Frame)
    requires Wf(g) && Holds(g, p, AsTerm(f))
    ensures RefOk(g, p, AsTerm(f), Hole(f))
  {
    assert TermOk(g, p, AsTerm(f)) && InFoot(AsTerm(f), Hole(f));
  }

  lemma RedexOf(h: Cells, next: Loc, f: Frame, rest: Stack, t: Term, g: Graph, root: Loc)
    requires Shows(h, next, Push(f, rest), t, g, root)
    ensures Redex(h, g, next, Spot(root, rest), f, t)
  {
    var p := Spot(root, rest);
    assert Spine(g, root, rest, AsTerm(f));
    HoleBelow(g, p, f);
    forall m | m in g.live && m != Hole(f) && g.live[m].rank < g.live[p].rank
      ensures At(h, m) == At(g.h, m)
    {
      if OnSpine(root, rest, m) {
        SpineRank(g, root, rest, AsTerm(f), m);
      }
      assert !OnSpine(root, Push(f, rest), m);
    }
  }

  /** Above the redex the spine is not touched. */
  lemma {:induction false} SpineKept(g: Graph, g2: Graph, p: Loc, root: Loc, st: Stack, cur: Term)
    requires Kept(g, g2, p) && Spine(g, root, st, cur) && g.live[p].rank < g.live[Spot(root, st)].rank
    ensures Spine(g2, root, st, cur)
    decreases st
  {
    assert Outside(g, p, Spot(root, st));
    assert KeptCell(g, g2, p, Spot(root, st));
    if st.Push? {
      HoleBelow(g, Spot(root, st.rest), st.top);
      SpineKept(g, g2, p, root, st.rest, AsTerm(st.top));
    }
  }

  lemma EyeKept(g: Graph, g2: Graph, p: Loc, l: Loc)
    requires Kept(g, g2, p) && Outside(g, p, l) && l != p && Eye(g, l)
    ensures Eye(g2, l)
  {
    assert KeptCell(g, g2, p, l);
    forall r: Env
      ensures ValueLike(g2.h[l].term, D(ReadAt(g2, l), r))
    {
      assert ValueLike(g.h[l].term, D(ReadAt(g, l), r));
      assert D(ReadAt(g, l), r) == D(ReadAt(g2, l), r);
    }
  }

  /** The operand of a waiting `EQL` belongs to the spine, above the redex; `o` is an owner of `p` below that. */
  lemma {:induction false} EyesKept(g: Graph, g2: Graph, p: Loc, o: Loc, root: Loc, st: Stack, cur: Term)
    requires Kept(g, g2, p) && Spine(g, root, st, cur) && Eyes(g, st)
    requires g.live[p].rank <= g.live[Spot(root, st)].rank
    requires Spot(root, st) == p
             || (o in g.live && (g.live[p].own0 == o || g.live[p].own1 == o)
                && g.live[o].rank <= g.live[Spot(root, st)].rank)
    ensures Eyes(g2, st)
    decreases st
  {
    if st.Push? {
      var f, q := st.top, Spot(root, st.rest);
      HoleBelow(g, q, f);
      EyesKept(g, g2, p, if Spot(root, st) == p then q else o, root, st.rest, AsTerm(f));
      if f.FEqR? {
        assert TermOk(g, q, AsTerm(f)) && InFoot(AsTerm(f), f.loc);
        EyeKept(g, g2, p, f.loc);
      }
    }
  }

  // ---------------------------------------------------------------------------
  // The moves of the machine
  // ---------------------------------------------------------------------------

  lemma FireOff(h: Cells, g: Graph, g2: Graph, root: Loc, f: Frame, rest: Stack, out: Out)
    requires Wf(g) && Spine(g, root, rest, AsTerm(f)) && Off(h, g, root, Push(f, rest))
    requires Fires(g, g2, Spot(root, rest), Hole(f), out)
    ensures Off(h + out.ws, g2, root, rest)
  {
    forall m | m in g2.live && !OnSpine(root, rest, m)
      ensures m in h + out.ws && m in g2.h && (h + out.ws)[m] == g2.h[m]
    {
      if m !in out.ws {
        assert !OnSpine(root, Push(f, rest), m);
      }
    }
  }

  /** An interaction keeps the picture, and the meaning of all roots. */
  lemma FireShows(h: Cells, next: Loc, f: Frame, rest: Stack, g: Graph, root: Loc, g2: Graph, out: Out)
    requires Wf(g) && Spine(g, root, rest, AsTerm(f)) && Off(h, g, root, Push(f, rest)) && Eyes(g, rest)
    requires Fires(g, g2, Spot(root, rest), Hole(f), out)
    ensures Shows(h + out.ws, out.next, rest, out.res, g2, root) && Kept(g, g2, root)
  {
    var p := Spot(root, rest);
    FireOff(h, g, g2, root, f, rest, out);
    FireSpine(g, g2, root, f, rest, out);
    EyesKept(g, g2, p, p, root, rest, AsTerm(f));
    FireKeeps(g, g2, p, root, rest, AsTerm(f));
  }

  lemma FireSpine(g: Graph, g2: Graph, root: Loc, f: Frame, rest: Stack, out: Out)
    requires Wf(g) && Spine(g, root, rest, AsTerm(f)) && Fires(g, g2, Spot(root, rest), Hole(f), out)
    ensures Spine(g2, root, rest, out.res)
  {
    var p := Spot(root, rest);
    assert Outside(g, p, p);
    assert p in g2.live;
    if rest.Push? {
      HoleBelow(g, Spot(root, rest.rest), rest.top);
      SpineKept(g, g2, p, root, rest.rest, AsTerm(rest.top));
    }
  }

  /** What a change at `p`, on the way down from `root`, leaves alone, is left alone seen from `root`. */
  lemma FireKeeps(g: Graph, g2: Graph, p: Loc, root: Loc, st: Stack, cur: Term)
    requires Kept(g, g2, p) && Spine(g, root, st, cur) && p == Spot(root, st)
    ensures Kept(g, g2, root)
  {
    OnRoot(root, st);
    SpineRank(g, root, st, cur, root);
    if st.Push? {
      HoleBelow(g, Spot(root, st.rest), st.top);
      OnRoot(root, st.rest);
      SpineRank(g, root, st.rest, AsTerm(st.top), root);
    }
    assert p == root || !Outside(g, root, p);
    forall m | Outside(g, root, m)
      ensures Outside(g, p, m) && m in g2.live && KeptCell(g, g2, root, m)
    {
      assert Outside(g, p, m);
      assert KeptCell(g, g2, p, m);
    }
  }

  lemma {:induction false} OnRoot(root: Loc, st: Stack)
    ensures OnSpine(root, st, root)
  {
    if st.Push? {
      OnRoot(root, st.rest);
    }
  }

  lemma KeptSelf(g: Graph, root: Loc, st: Stack, cur: Term)
    requires Wf(g) && Spine(g, root, st, cur)
    ensures Kept(g, g, root)
  {
    OnRoot(root, st);
    SpineRank(g, root, st, cur, root);
    forall m | Outside(g, root, m)
      ensures KeptCell(g, g, root, m)
    {
      SameSelf(ReadAt(g, m));
    }
  }

  lemma HoleOff(h: Cells, next: Loc, f: Frame, st: Stack, g: Graph, root: Loc)
    requires Shows(h, next, st, AsTerm(f), g, root)
    ensures !OnSpine(root, st, Hole(f)) && Hole(f) in g.live && Hole(f) in h && Hole(f) in g.h
    ensures h[Hole(f)] == g.h[Hole(f)]
    ensures !f.FDp? ==> !g.h[Hole(f)].sub
  {
    HoleBelow(g, Spot(root, st), f);
    if OnSpine(root, st, Hole(f)) {
      SpineRank(g, root, st, AsTerm(f), Hole(f));
    }
  }

  /** Going down into the hole of a frame changes nothing. */
  lemma DownShows(h: Cells, next: Loc, f: Frame, st: Stack, g: Graph, root: Loc)
    requires Shows(h, next, st, AsTerm(f), g, root) && (f.FEqR? ==> Eye(g, f.loc))
    requires f.FDp? ==> Hole(f) in h && !h[Hole(f)].sub
    ensures Shows(h, next, Push(f, st), At(h, Hole(f)), g, root)
  {
    HoleOff(h, next, f, st, g, root);
    forall m | m in g.live && !OnSpine(root, Push(f, st), m)
      ensures m in h && m in g.h && h[m] == g.h[m]
    {
    }
  }

  /** Putting a field back changes nothing, unless a new node is needed. */
  lemma UpShows(h: Cells, next: Loc, f: Frame, rest: Stack, t: Term, g: Graph, root: Loc) returns (g2: Graph)
    requires Shows(h, next, Push(f, rest), t, g, root)
    ensures var out := Unwind(next, f, t); Shows(h + out.ws, out.next, rest, out.res, g2, root) && Kept(g, g2, root)
    ensures !f.FNum? ==> g2 == g
    ensures f.FNum? ==> Fires(g, g2, Spot(root, rest), Hole(f), Unwind(next, f, t))
  {
    if f.FNum? {
      RedexOf(h, next, f, rest, t, g, root);
      g2 := NumStuckFires(h, g, next, Spot(root, rest), f, t);
      FireShows(h, next, f, rest, g, root, g2, Unwind(next, f, t));
    } else {
      g2 := g;
      assert Spine(g, root, rest, AsTerm(f));
      KeptSelf(g, root, rest, AsTerm(f));
      UpOff(h, g, root, f, rest, t);
    }
  }

  lemma UpOff(h: Cells, g: Graph, root: Loc, f: Frame, rest: Stack, t: Term)
    requires Spine(g, root, Push(f, rest), t) && Off(h, g, root, Push(f, rest))
    ensures Off(h[Hole(f) := C(t)], g, root, rest) && h[Hole(f) := C(t)] == h + map[Hole(f) := C(t)]
  {
    forall m | m in g.live && !OnSpine(root, rest, m)
      ensures m in h[Hole(f) := C(t)] && m in g.h && h[Hole(f) := C(t)][m] == g.h[m]
    {
      assert m != Hole(f) ==> !OnSpine(root, Push(f, rest), m);
    }
  }

  // ---------------------------------------------------------------------------
  // Reduced terms
  // ---------------------------------------------------------------------------

  predicate IsPlain(t: Term) {
    !t.Dp? && (t.Node? ==> !t.head.HBin? && !t.head.HPart?)
  }

  lemma PlainWhnf(g: Graph, l: Loc)
    requires Wf(g) && l in g.live && IsPlain(g.h[l].term)
    ensures Whnf(g, l)
  {
    var t := g.h[l].term;
    if t.Node? {
      ReadNode(g, t, l);
    } else {
      ReadAtom(g, l);
    }
  }

  /** The value of an operation is that of its operands. */
  lemma BinMeaning(g: Graph, p: Loc, k: Kind, loc: Loc)
    requires Wf(g) && p in g.live && g.h[p].term == Bin(k, loc)
    ensures loc in g.live && loc + 1 in g.live
    ensures forall r: Env :: D(ReadAt(g, p), r) == BinVal(k, D(ReadAt(g, loc), r), D(ReadAt(g, loc + 1), r))
  {
    ReadBin(g, p, k, loc);
  }

  lemma AtomMeaning(g: Graph, l: Loc)
    requires Wf(g) && l in g.live && IsAtom(g.h[l].term)
    ensures forall r: Env :: D(ReadAt(g, l), r) == D(AtomTree(g.h[l].term), r)
  {
    ReadAtom(g, l);
  }

  // ---------------------------------------------------------------------------
  // Every interaction is one of the sound changes
  // ---------------------------------------------------------------------------

  /** The interaction `out` happens at cell `p`, which takes a step; its result is entered or reduced. */
  ghost predicate Happens(g: Graph, g2: Graph, p: Loc, f: Frame, out: Out) {
    Fires(g, g2, p, Hole(f), out) && Fell(g, g2, p) && (out.enter || (p in g2.live && Whnf(g2, p)))
  }

  /** An operation that has come to a number or an erasure. */
  lemma BinReduces(g: Graph, p: Loc, k: Kind, loc: Loc, u: Tree)
    requires Wf(g) && p in g.live && g.h[p].term == Bin(k, loc)
    requires (u.TNum? || u.TEra?) && Means(ReadAt(g, p), u)
    ensures Reduces(ReadAt(g, p), u)
  {
    ReadBin(g, p, k, loc);
    ToAtom(k, ReadAt(g, loc), ReadAt(g, loc + 1), u);
  }

  lemma PlainHappens(g: Graph, g2: Graph, p: Loc, f: Frame, out: Out)
    requires Fires(g, g2, p, Hole(f), out) && Fell(g, g2, p) && (out.enter || IsPlain(out.res))
    ensures Happens(g, g2, p, f, out)
  {
    assert Outside(g, p, p);
    if !out.enter {
      PlainWhnf(g2, p);
    }
  }

  lemma DupHappens(h: Cells, g: Graph, next: Loc, p: Loc, i: bit, lab: Label, loc: Loc, t: Term) returns (g2: Graph)
    requires var f := FDp(i, lab, loc); Redex(h, g, next, p, f, t) && Apply(h, next, f, t).Rewrite?
    ensures var f := FDp(i, lab, loc); Happens(g, g2, p, f, Apply(h, next, f, t).out)
  {
    var f := FDp(i, lab, loc);
    if IsAtom(t) {
      g2 := DupAtomFires(h, g, next, p, i, lab, loc, t, t.Node?);
    } else if t.head == HSup(lab) {
      g2 := AnnihilateFires(h, g, next, p, i, lab, loc, t.loc);
    } else {
      g2 := NodFires(h, g, next, p, i, lab, loc, t.head, t.loc);
    }
    PlainHappens(g, g2, p, f, Apply(h, next, f, t).out);
  }

  lemma Op2Happens(h: Cells, g: Graph, next: Loc, p: Loc, opr: nat, loc: Loc, t: Term) returns (g2: Graph)
    requires var f := FBin(KOp2(opr), loc); Redex(h, g, next, p, f, t) && Apply(h, next, f, t).Rewrite?
    ensures var f := FBin(KOp2(opr), loc); Happens(g, g2, p, f, Apply(h, next, f, t).out)
  {
    var f, k := FBin(KOp2(opr), loc), KOp2(opr);
    if t.Node? {
      if t.head.HSup? {
        g2 := BinSupFires(h, g, next, p, f, k, loc, t.head.lab, t.loc);
      } else {
        g2 := BinIncFires(h, g, next, p, f, k, loc, next, t.loc);
      }
    } else {
      BinMeaning(g, p, k, loc);
      AtomMeaning(g, loc);
      ReadBelow(h, g, next, p, f, t, p, Bin(k, loc), loc + 1);
      if t.Num? {
        AtomMeaning(g, loc + 1);
      }
      BinReduces(g, p, k, loc, AtomTree(Apply(h, next, f, t).out.res));
      g2 := AtomFires(h, g, next, p, f, t, Apply(h, next, f, t).out.res, false);
    }
    PlainHappens(g, g2, p, f, Apply(h, next, f, t).out);
  }

  lemma NumHappens(h: Cells, g: Graph, next: Loc, p: Loc, f: Frame, t: Term) returns (g2: Graph)
    requires f.FNum? && Redex(h, g, next, p, f, t) && Apply(h, next, f, t).Rewrite?
    ensures Happens(g, g2, p, f, Apply(h, next, f, t).out)
  {
    if t.Node? {
      if t.head.HSup? {
        g2 := NumSupFires(h, g, next, p, f, t.head.lab, t.loc);
      } else {
        g2 := NumIncFires(h, g, next, p, f, t.loc);
      }
    } else {
      ReadPart(g, p, f.opr, f.x, f.hole);
      AtomMeaning(g, f.hole);
      ToAtom(KOp2(f.opr), TNum(f.x), ReadAt(g, f.hole), AtomTree(Apply(h, next, f, t).out.res));
      g2 := AtomFires(h, g, next, p, f, t, Apply(h, next, f, t).out.res, false);
    }
    PlainHappens(g, g2, p, f, Apply(h, next, f, t).out);
  }

  lemma LogicHappens(h: Cells, g: Graph, next: Loc, p: Loc, k: Kind, loc: Loc, t: Term) returns (g2: Graph)
    requires k == KAnd || k == KOr
    requires var f := FBin(k, loc); Redex(h, g, next, p, f, t) && Apply(h, next, f, t).Rewrite?
    ensures var f := FBin(k, loc); Happens(g, g2, p, f, Apply(h, next, f, t).out)
  {
    var f := FBin(k, loc);
    if t.Node? {
      if t.head.HSup? {
        g2 := BinSupFires(h, g, next, p, f, k, loc, t.head.lab, t.loc);
      } else {
        g2 := BinIncFires(h, g, next, p, f, k, loc, loc, t.loc);
      }
    } else {
      BinMeaning(g, p, k, loc);
      AtomMeaning(g, loc);
      if t.Era? || (k == KAnd) == (t.n == 0) {
        BinReduces(g, p, k, loc, AtomTree(Apply(h, next, f, t).out.res));
        g2 := AtomFires(h, g, next, p, f, t, Apply(h, next, f, t).out.res, t.Num?);
      } else {
        ReadBin(g, p, k, loc);
        SameSelf(ReadAt(g, loc + 1));
        Forward(k, ReadAt(g, loc), ReadAt(g, loc + 1), ReadAt(g, loc + 1));
        g2 := ForwardFires(h, g, next, p, k, loc, t);
      }
    }
    PlainHappens(g, g2, p, f, Apply(h, next, f, t).out);
  }

  lemma EqlHappens(h: Cells, g: Graph, next: Loc, p: Loc, loc: Loc, t: Term) returns (g2: Graph)
    requires var f := FBin(KEql, loc); Redex(h, g, next, p, f, t) && Apply(h, next, f, t).Rewrite?
    ensures var f := FBin(KEql, loc); Happens(g, g2, p, f, Apply(h, next, f, t).out)
  {
    var f := FBin(KEql, loc);
    if t.Node? {
      if t.head.HSup? {
        g2 := BinSupFires(h, g, next, p, f, KEql, loc, t.head.lab, t.loc);
      } else {
        g2 := BinIncFires(h, g, next, p, f, KEql, loc, loc, t.loc);
      }
    } else {
      BinMeaning(g, p, KEql, loc);
      AtomMeaning(g, loc);
      BinReduces(g, p, KEql, loc, AtomTree(Apply(h, next, f, t).out.res));
      g2 := AtomFires(h, g, next, p, f, t, Apply(h, next, f, t).out.res, false);
    }
    PlainHappens(g, g2, p, f, Apply(h, next, f, t).out);
  }

  /** What comparing two reduced terms gives; constructors of one name and arity are compared further. */
  lemma EqlValues(a: Term, t: Term, x: Val, y: Val)
    requires ValueLike(a, x) && ValueLike(t, y)
    requires !a.Era? && !a.Any? && !(a.Node? && (a.head.HSup? || a.head.HInc?))
    requires !t.Era? && !t.Any? && !(t.Node? && (t.head.HSup? || t.head.HInc?))
    requires IsCtr(a) && IsCtr(t) && a.head == t.head ==> a.head.n == 0
    ensures EqlVal(x, y) ==
            if a.Num? && t.Num? then VNum(Truth(a.n == t.n))
            else if a.Nam? && t.Nam? then VNum(Truth(a == t))
            else VNum(Truth(IsCtr(a) && IsCtr(t) && a.head == t.head))
  {
    if IsCtr(a) && IsCtr(t) && a.head == t.head {
      assert EqlVal(x, y) == EqlAll(x.args, y.args);
    }
  }

  /** `EQL` of two reduced operands that are not compared field by field. */
  lemma EqRAtom(h: Cells, g: Graph, next: Loc, p: Loc, loc: Loc, t: Term)
    requires Redex(h, g, next, p, FEqR(loc), t) && Whnf(g, loc + 1) && Eye(g, loc) && At(h, loc) == g.h[loc].term
    requires !t.Era? && !t.Any? && !(t.Node? && (t.head.HSup? || t.head.HInc?))
    requires var a := At(h, loc); IsCtr(a) && IsCtr(t) && a.head == t.head ==> a.head.n == 0
    ensures var out := Apply(h, next, FEqR(loc), t).out;
            IsAtom(out.res) && Reduces(ReadAt(g, p), AtomTree(out.res)) && out == PlainOut(next, out.res, out.enter)
  {
    var a := At(h, loc);
    BinMeaning(g, p, KEql, loc);
    forall r: Env
      ensures D(ReadAt(g, p), r) == D(AtomTree(Apply(h, next, FEqR(loc), t).out.res), r)
    {
      assert ValueLike(a, D(ReadAt(g, loc), r)) && ValueLike(t, D(ReadAt(g, loc + 1), r));
      EqlValues(a, t, D(ReadAt(g, loc), r), D(ReadAt(g, loc + 1), r));
    }
    BinReduces(g, p, KEql, loc, AtomTree(Apply(h, next, FEqR(loc), t).out.res));
  }

  /** `EQL` with `ERA` or `ANY` on the right. */
  lemma EqRUnit(h: Cells, g: Graph, next: Loc, p: Loc, loc: Loc, t: Term)
    requires Redex(h, g, next, p, FEqR(loc), t) && Eye(g, loc) && (t.Era? || t.Any?)
    ensures Reduces(ReadAt(g, p), AtomTree(if t.Era? then Era else Num(1)))
  {
    BinMeaning(g, p, KEql, loc);
    AtomMeaning(g, loc + 1);
    forall r: Env
      ensures D(ReadAt(g, p), r) == D(AtomTree(if t.Era? then Era else Num(1)), r)
    {
      assert ValueLike(g.h[loc].term, D(ReadAt(g, loc), r));
    }
    BinReduces(g, p, KEql, loc, AtomTree(if t.Era? then Era else Num(1)));
  }

  lemma EqRHappens(h: Cells, g: Graph, next: Loc, p: Loc, loc: Loc, t: Term) returns (g2: Graph)
    requires Redex(h, g, next, p, FEqR(loc), t) && Whnf(g, loc + 1) && Eye(g, loc)
    requires Apply(h, next, FEqR(loc), t).Rewrite?
    ensures Happens(g, g2, p, FEqR(loc), Apply(h, next, FEqR(loc), t).out)
  {
    var f, out := FEqR(loc), Apply(h, next, FEqR(loc), t).out;
    ReadBelow(h, g, next, p, f, t, p, Bin(KEql, loc), loc);
    var a := At(h, loc);
    if t.Era? || t.Any? {
      EqRUnit(h, g, next, p, loc, t);
      g2 := AtomFires(h, g, next, p, f, t, out.res, false);
    } else if t.Node? && t.head.HSup? {
      g2 := BinSupFires(h, g, next, p, f, KEql, loc, t.head.lab, t.loc);
    } else if t.Node? && t.head.HInc? {
      g2 := BinIncFires(h, g, next, p, f, KEql, loc, loc, t.loc);
    } else if IsCtr(a) && IsCtr(t) && a.head == t.head && a.head.n > 0 {
      g2 := EqlCtrFires(h, g, next, p, loc, a.head.nam, a.head.n, a.loc, t.loc);
    } else {
      EqRAtom(h, g, next, p, loc, t);
      g2 := AtomFires(h, g, next, p, f, t, out.res, out.enter);
    }
    PlainHappens(g, g2, p, f, out);
  }

  lemma ApplyHappens(h: Cells, g: Graph, next: Loc, p: Loc, f: Frame, t: Term) returns (g2: Graph)
    requires Redex(h, g, next, p, f, t) && Hole(f) in g.live && Whnf(g, Hole(f)) && (f.FEqR? ==> Eye(g, f.loc))
    requires Apply(h, next, f, t).Rewrite?
    ensures Happens(g, g2, p, f, Apply(h, next, f, t).out)
  {
    match f
    case FDp(i, lab, loc) => g2 := DupHappens(h, g, next, p, i, lab, loc, t);
    case FBin(k, loc) =>
      match k {
        case KOp2(opr) => g2 := Op2Happens(h, g, next, p, opr, loc, t);
        case KEql => g2 := EqlHappens(h, g, next, p, loc, t);
        case _ => g2 := LogicHappens(h, g, next, p, k, loc, t);
      }
    case FNum(_, _, _) => g2 := NumHappens(h, g, next, p, f, t);
    case FEqR(loc) => g2 := EqRHappens(h, g, next, p, loc, t);
  }

  // ---------------------------------------------------------------------------
  // A node whose field is of no use is reduced
  // ---------------------------------------------------------------------------

  lemma StuckDup(h: Cells, g: Graph, next: Loc, p: Loc, i: bit, lab: Label, loc: Loc, t: Term)
    requires Redex(h, g, next, p, FDp(i, lab, loc), t) && loc in g.live && Whnf(g, loc)
    requires t.Dp? || (t.Node? && t.head.HBin?)
    ensures Whnf(g, p)
  {
    ReadDp(g, p, i, lab, loc);
    forall r: Env
      ensures ValueLike(g.h[p].term, D(ReadAt(g, p), r))
    {
      assert ValueLike(t, D(ReadAt(g, loc), Calculus.Push(r, lab, i)));
    }
  }

  lemma StuckBin(h: Cells, g: Graph, next: Loc, p: Loc, k: Kind, loc: Loc, t: Term)
    requires Redex(h, g, next, p, FBin(k, loc), t) && loc in g.live && Whnf(g, loc) && k != KEql
    requires !t.Era? && !t.Num? && !(t.Node? && (t.head.HSup? || t.head.HInc?))
    ensures Whnf(g, p)
  {
    BinMeaning(g, p, k, loc);
    forall r: Env
      ensures ValueLike(g.h[p].term, D(ReadAt(g, p), r))
    {
      assert ValueLike(t, D(ReadAt(g, loc), r));
    }
  }

  lemma StuckNum(h: Cells, g: Graph, next: Loc, p: Loc, f: Frame, t: Term, g2: Graph)
    requires f.FNum? && Redex(h, g, next, p, f, t) && f.hole in g.live && Whnf(g, f.hole)
    requires !t.Era? && !t.Num? && !(t.Node? && (t.head.HSup? || t.head.HInc?))
    requires Fires(g, g2, p, f.hole, Unwind(next, f, t))
    ensures p in g2.live && Whnf(g2, p)
  {
    assert Outside(g, p, p);
    assert KeptCell(g, g2, p, p);
    ReadPart(g, p, f.opr, f.x, f.hole);
    forall r: Env
      ensures ValueLike(g2.h[p].term, D(ReadAt(g2, p), r))
    {
      assert ValueLike(t, D(ReadAt(g, f.hole), r));
      assert D(ReadAt(g, p), r) == Op2Val(f.opr, VNum(f.x), D(ReadAt(g, f.hole), r));
      assert D(ReadAt(g, p), r) == D(ReadAt(g2, p), r);
    }
  }

  // ---------------------------------------------------------------------------
  // Every step is sound
  // ---------------------------------------------------------------------------

  /** A DUP cell that holds a substitution gives it up. */
  lemma SubFires(g: Graph, next: Loc, p: Loc, i: bit, lab: Label, loc: Loc) returns (g2: Graph)
    requires Wf(g) && Fresh(g.live, next) && Holds(g, p, Dp(i, lab, loc)) && loc in g.h && g.h[loc].sub
    ensures Fires(g, g2, p, loc, PlainOut(next, g.h[loc].term, true))
  {
    HoleBelow(g, p, FDp(i, lab, loc));
    ReadDp(g, p, i, lab, loc);
    var c := ShrinkChange(g, p, {loc}, map[loc := p], g.h[loc].term);
    SameSelf(ReadAt(g, p));
    ForwardSound(c, loc);
    ChangeFires(c, loc, PlainOut(next, g.h[loc].term, true));
    g2 := c.g2;
  }

  /** An `OP2` whose first operand is a number waits for the second one. */
  lemma OpenFires(h: Cells, g: Graph, next: Loc, p: Loc, opr: nat, n: u32, loc: Loc) returns (g2: Graph)
    requires Redex(h, g, next, p, FBin(KOp2(opr), loc), Num(n))
    ensures Fires(g, g2, p, loc, PlainOut(next, Part(opr, n, loc + 1), true))
  {
    HoleBelow(g, p, FBin(KOp2(opr), loc));
    var c := ShrinkChange(g, p, {loc}, map[], Part(opr, n, loc + 1));
    OpenSound(c, opr, n, loc);
    ChangeFires(c, loc, PlainOut(next, Part(opr, n, loc + 1), true));
    g2 := c.g2;
  }

  lemma NoWrites(h: Cells)
    ensures h + map[] == h
  {
  }

  /** How a step changes the graph: by an interaction, by a change of shape, or not at all. */
  ghost predicate Move(s: State, g: Graph, g2: Graph, root: Loc) {
    if s.enter then
      if s.cur.Dp? && s.cur.loc in s.h && s.h[s.cur.loc].sub then
        Fires(g, g2, Spot(root, s.stack), s.cur.loc, PlainOut(s.next, s.h[s.cur.loc].term, true))
      else g2 == g
    else if s.stack.Nil? then g2 == g
    else
      var f, p := s.stack.top, Spot(root, s.stack.rest);
      match Apply(s.h, s.next, f, s.cur)
      case Rewrite(out) => Happens(g, g2, p, f, out)
      case Stuck => if f.FNum? then Fires(g, g2, p, Hole(f), Unwind(s.next, f, s.cur)) else g2 == g
      case Swap(_, f', _) =>
        if f'.FNum? then Fires(g, g2, p, Hole(f), PlainOut(s.next, AsTerm(f'), true)) else g2 == g
  }

  lemma EnterKeeps(s: State, g: Graph, root: Loc) returns (g2: Graph)
    requires Inv(s, g, root) && s.enter
    ensures Inv(EnterStep(s), g2, root) && Kept(g, g2, root) && Move(s, g, g2, root)
  {
    var st, p := s.stack, Spot(root, s.stack);
    g2 := g;
    KeptSelf(g, root, s.stack, s.cur);
    match s.cur
    case Dp(i, lab, loc) =>
      var f := FDp(i, lab, loc);
      HoleOff(s.h, s.next, f, st, g, root);
      if s.h[loc].sub {
        g2 := SubFires(g, s.next, p, i, lab, loc);
        FireShows(s.h, s.next, f, st, g, root, g2, PlainOut(s.next, g.h[loc].term, true));
        NoWrites(s.h);
      } else {
        DownShows(s.h, s.next, f, st, g, root);
      }
    case Node(HBin(k), loc) => DownShows(s.h, s.next, FBin(k, loc), st, g, root);
    case Node(HPart(opr, x), hole) => DownShows(s.h, s.next, FNum(opr, x, hole), st, g, root);
    case _ => PlainWhnf(g, p);
  }

  lemma RewriteKeeps(s: State, g: Graph, root: Loc) returns (g2: Graph)
    requires Inv(s, g, root) && !s.enter && s.stack.Push? && Apply(s.h, s.next, s.stack.top, s.cur).Rewrite?
    ensures Inv(ApplyStep(s), g2, root) && Kept(g, g2, root) && Move(s, g, g2, root)
  {
    var f, rest := s.stack.top, s.stack.rest;
    assert s.stack == Push(f, rest) && Spine(g, root, rest, AsTerm(f));
    RedexOf(s.h, s.next, f, rest, s.cur, g, root);
    g2 := ApplyHappens(s.h, g, s.next, Spot(root, rest), f, s.cur);
    FireShows(s.h, s.next, f, rest, g, root, g2, Apply(s.h, s.next, f, s.cur).out);
  }

  /** A node that the machine gives up on is reduced. */
  lemma StuckReduced(h: Cells, g: Graph, next: Loc, p: Loc, f: Frame, t: Term, g2: Graph)
    requires Redex(h, g, next, p, f, t) && Hole(f) in g.live && Whnf(g, Hole(f)) && Apply(h, next, f, t).Stuck?
    requires if f.FNum? then Fires(g, g2, p, Hole(f), Unwind(next, f, t)) else g2 == g
    ensures Wf(g2) && p in g2.live && Whnf(g2, p)
  {
    match f
    case FDp(i, lab, loc) =>
      NotPart(g, loc);
      StuckDup(h, g, next, p, i, lab, loc, t);
    case FBin(k, loc) => StuckBin(h, g, next, p, k, loc, t);
    case FNum(_, _, _) => StuckNum(h, g, next, p, f, t, g2);
    case FEqR(_) =>
  }

  lemma StuckKeeps(s: State, g: Graph, root: Loc) returns (g2: Graph)
    requires Inv(s, g, root) && !s.enter && s.stack.Push? && Apply(s.h, s.next, s.stack.top, s.cur).Stuck?
    ensures Inv(ApplyStep(s), g2, root) && Kept(g, g2, root) && Move(s, g, g2, root)
  {
    var f, rest, t := s.stack.top, s.stack.rest, s.cur;
    assert s.stack == Push(f, rest);
    RedexOf(s.h, s.next, f, rest, t, g, root);
    g2 := UpShows(s.h, s.next, f, rest, t, g, root);
    StuckReduced(s.h, g, s.next, Spot(root, rest), f, t, g2);
  }

  lemma NotPart(g: Graph, l: Loc)
    requires Wf(g) && l in g.live && Whnf(g, l)
    ensures g.h[l].term.Node? ==> !g.h[l].term.head.HPart?
  {
    var r: Env :| true;
    assert ValueLike(g.h[l].term, D(ReadAt(g, l), r));
  }

  /** The first operand of an `OP2` is a number: the machine turns to the second. */
  lemma Op2SwapKeeps(s: State, g: Graph, root: Loc, rest: Stack, opr: nat, n: u32, loc: Loc) returns (g2: Graph)
    requires Inv(s, g, root) && s.stack == Push(FBin(KOp2(opr), loc), rest) && s.cur == Num(n)
    ensures Shows(s.h, s.next, Push(FNum(opr, n, loc + 1), rest), At(s.h, loc + 1), g2, root) && Kept(g, g2, root)
    ensures Fires(g, g2, Spot(root, rest), loc, PlainOut(s.next, Part(opr, n, loc + 1), true))
  {
    var f := FBin(KOp2(opr), loc);
    assert Spine(g, root, rest, AsTerm(f));
    RedexOf(s.h, s.next, f, rest, s.cur, g, root);
    g2 := OpenFires(s.h, g, s.next, Spot(root, rest), opr, n, loc);
    FireShows(s.h, s.next, f, rest, g, root, g2, PlainOut(s.next, Part(opr, n, loc + 1), true));
    NoWrites(s.h);
    DownShows(s.h, s.next, FNum(opr, n, loc + 1), rest, g2, root);
  }

  /** The first operand of an `EQL` is reduced: it is stored, and the machine turns to the second. */
  lemma EqlSwapKeeps(s: State, g: Graph, root: Loc, rest: Stack, loc: Loc)
    requires Inv(s, g, root) && !s.enter && s.stack == Push(FBin(KEql, loc), rest)
    requires Apply(s.h, s.next, FBin(KEql, loc), s.cur).Swap?
    ensures Shows(s.h[loc := C(s.cur)], s.next, Push(FEqR(loc), rest), At(s.h, loc + 1), g, root)
  {
    var f := FBin(KEql, loc);
    assert Spine(g, root, rest, AsTerm(f));
    var g2 := UpShows(s.h, s.next, f, rest, s.cur, g, root);
    UpOff(s.h, g, root, f, rest, s.cur);
    DownShows(s.h[loc := C(s.cur)], s.next, FEqR(loc), rest, g, root);
  }

  lemma SwapKeeps(s: State, g: Graph, root: Loc) returns (g2: Graph)
    requires Inv(s, g, root) && !s.enter && s.stack.Push? && Apply(s.h, s.next, s.stack.top, s.cur).Swap?
    ensures Inv(ApplyStep(s), g2, root) && Kept(g, g2, root) && Move(s, g, g2, root)
  {
    var f, rest := s.stack.top, s.stack.rest;
    if f.k == KEql {
      g2 := g;
      EqlSwapKeeps(s, g, root, rest, f.loc);
      KeptSelf(g, root, s.stack, s.cur);
    } else {
      g2 := Op2SwapKeeps(s, g, root, rest, f.k.opr, s.cur.n, f.loc);
    }
  }

  /** Every step keeps the heap in order and the meaning of every root. */
  lemma StepKeeps(s: State, g: Graph, root: Loc) returns (g2: Graph)
    requires Inv(s, g, root)
    ensures Inv(Step(s), g2, root) && Kept(g, g2, root) && Move(s, g, g2, root)
  {
    if s.enter {
      g2 := EnterKeeps(s, g, root);
    } else if s.stack.Push? {
      match Apply(s.h, s.next, s.stack.top, s.cur)
      case Rewrite(_) => g2 := RewriteKeeps(s, g, root);
      case Stuck => g2 := StuckKeeps(s, g, root);
      case Swap(_, _, _) => g2 := SwapKeeps(s, g, root);
    } else {
      g2 := g;
      KeptSelf(g, root, s.stack, s.cur);
    }
  }

  lemma StepOn(s: State, g: Graph, root: Loc) returns (g2: Graph)
    requires Inv(s, g, root)
    ensures Inv(Step(s), g2, root) && Kept(g, g2, root)
  {
    g2 := StepKeeps(s, g, root);
  }

  lemma {:induction false} StepsKeep(s: State, n: nat, g: Graph, root: Loc) returns (g2: Graph)
    requires Inv(s, g, root)
    ensures Inv(Steps(s, n), g2, root) && Kept(g, g2, root)
    decreases n
  {
    if n == 0 {
      g2 := g;
      KeptSelf(g, root, s.stack, s.cur);
    } else {
      var g1 := StepOn(s, g, root);
      g2 := StepsKeep(Step(s), n - 1, g1, root);
      KeptThen(g, g1, g2, root, root);
    }
  }

  /** Putting the whole stack back keeps the meaning of every root. */
  lemma {:induction false} RebuildKeeps(s: State, g: Graph, root: Loc) returns (g2: Graph)
    requires Shows(s.h, s.next, s.stack, s.cur, g, root)
    ensures var s' := Rebuild(s); s'.stack.Nil? && Shows(s'.h, s'.next, Nil, s'.cur, g2, root) && Kept(g, g2, root)
    decreases s.stack
  {
    if s.stack.Nil? {
      g2 := g;
      KeptSelf(g, root, s.stack, s.cur);
    } else {
      var f, rest := s.stack.top, s.stack.rest;
      assert s.stack == Push(f, rest);
      var out := Unwind(s.next, f, s.cur);
      var g1 := UpShows(s.h, s.next, f, rest, s.cur, g, root);
      g2 := RebuildKeeps(State(s.h + out.ws, out.next, rest, false, out.res, s.itrs), g1, root);
      KeptThen(g, g1, g2, root, root);
    }
  }

  // ---------------------------------------------------------------------------
  // Runs
  // ---------------------------------------------------------------------------

  datatype Memory = Memory(h: Cells, next: Loc, itrs: nat)

  /** The machine about to reduce cell `loc`. */
  function Start(m: Memory, loc: Loc): State {
    State(m.h, m.next, Nil, true, At(m.h, loc), m.itrs)
  }

  /** `wnf_at`, stopped after `n` turns at the latest: what is left of the term is put back and stored. */
  function WnfAt(m: Memory, loc: Loc, n: nat): Memory {
    var s := Rebuild(Steps(Start(m, loc), n));
    Memory(Put(s.h, loc, s.cur), s.next, s.itrs)
  }

  /** `wnf_steps_at`: one bounded run after the other. */
  function Runs(m: Memory, loc: Loc, bounds: seq<nat>): Memory
    decreases |bounds|
  {
    if bounds == [] then m else Runs(WnfAt(m, loc, bounds[0]), loc, bounds[1..])
  }

  /** A well-formed memory, with the table `live`, in which cell `loc` may be reduced. */
  ghost predicate Ready(m: Memory, live: map<Loc, Info>, loc: Loc) {
    Wf(Graph(m.h, live)) && Fresh(live, m.next) && loc in live && !m.h[loc].sub
  }

  ghost predicate Covered(g: Graph, h: Cells) {
    forall m :: m in g.live ==> m in h && m in g.h && h[m] == g.h[m]
  }

  /** Only live cells are read. */
  lemma CoveredWf(g: Graph, h: Cells)
    requires Wf(g) && Covered(g, h)
    ensures Wf(Graph(h, g.live))
  {
    forall l | l in g.live
      ensures TermOk(Graph(h, g.live), l, h[l].term)
    {
      assert TermOk(g, l, g.h[l].term);
    }
  }

  lemma CoveredKeeps(g: Graph, h: Cells, root: Loc)
    requires Wf(g) && Covered(g, h) && root in g.live
    ensures Wf(Graph(h, g.live)) && Kept(g, Graph(h, g.live), root)
  {
    CoveredWf(g, h);
    forall l | l in g.live
      ensures ReadAt(Graph(h, g.live), l) == ReadAt(g, l)
    {
      SubReadAt(g, Graph(h, g.live), l);
    }
    forall m | Outside(g, root, m)
      ensures KeptCell(g, Graph(h, g.live), root, m)
    {
      SameSelf(ReadAt(g, m));
    }
  }

  lemma StartInv(m: Memory, live: map<Loc, Info>, loc: Loc)
    requires Ready(m, live, loc)
    ensures Inv(Start(m, loc), Graph(m.h, live), loc)
  {
  }

  /** Storing the result of a finished or rebuilt run. */
  lemma StoreKeeps(s: State, g: Graph, loc: Loc)
    requires s.stack.Nil? && Shows(s.h, s.next, s.stack, s.cur, g, loc)
    ensures Covered(g, Put(s.h, loc, s.cur)) && Ready(Memory(Put(s.h, loc, s.cur), s.next, s.itrs), g.live, loc)
    ensures Kept(g, Graph(Put(s.h, loc, s.cur), g.live), loc)
  {
    forall m | m in g.live
      ensures m in Put(s.h, loc, s.cur) && m in g.h && Put(s.h, loc, s.cur)[m] == g.h[m]
    {
      assert m != loc ==> !OnSpine(loc, s.stack, m);
    }
    CoveredKeeps(g, Put(s.h, loc, s.cur), loc);
  }

  /** Reducing a cell, however far, leaves a well-formed heap in which it and every root mean the same. */
  lemma WnfAtKeeps(m: Memory, live: map<Loc, Info>, loc: Loc, n: nat) returns (live2: map<Loc, Info>)
    requires Ready(m, live, loc)
    ensures Ready(WnfAt(m, loc, n), live2, loc)
    ensures Kept(Graph(m.h, live), Graph(WnfAt(m, loc, n).h, live2), loc)
  {
    StartInv(m, live, loc);
    var s := Steps(Start(m, loc), n);
    var g1 := StepsKeep(Start(m, loc), n, Graph(m.h, live), loc);
    var g2 := RebuildKeeps(s, g1, loc);
    StoreKeeps(Rebuild(s), g2, loc);
    live2 := g2.live;
    KeptThen(Graph(m.h, live), g1, g2, loc, loc);
    KeptThen(Graph(m.h, live), g2, Graph(WnfAt(m, loc, n).h, live2), loc, loc);
  }

  lemma {:induction false} RunsKeep(m: Memory, live: map<Loc, Info>, loc: Loc, bounds: seq<nat>)
    returns (live2: map<Loc, Info>)
    requires Ready(m, live, loc)
    ensures Ready(Runs(m, loc, bounds), live2, loc)
    ensures Kept(Graph(m.h, live), Graph(Runs(m, loc, bounds).h, live2), loc)
    decreases |bounds|
  {
    if bounds == [] {
      live2 := live;
      KeptSelf(Graph(m.h, live), loc, Nil, m.h[loc].term);
    } else {
      var live1 := WnfAtKeeps(m, live, loc, bounds[0]);
      live2 := RunsKeep(WnfAt(m, loc, bounds[0]), live1, loc, bounds[1..]);
      KeptThen(Graph(m.h, live), Graph(WnfAt(m, loc, bounds[0]).h, live1), Graph(Runs(m, loc, bounds).h, live2), loc,
               loc);
    }
  }

  /** Runs cut up in different ways agree on the meaning of the cell. */
  lemma RunsAgree(m: Memory, live: map<Loc, Info>, loc: Loc, bounds1: seq<nat>, bounds2: seq<nat>)
    returns (live1: map<Loc, Info>, live2: map<Loc, Info>)
    requires Ready(m, live, loc)
    ensures Ready(Runs(m, loc, bounds1), live1, loc) && Ready(Runs(m, loc, bounds2), live2, loc)
    ensures Means(ReadAt(Graph(Runs(m, loc, bounds1).h, live1), loc),
                  ReadAt(Graph(Runs(m, loc, bounds2).h, live2), loc))
  {
    live1 := RunsKeep(m, live, loc, bounds1);
    live2 := RunsKeep(m, live, loc, bounds2);
  }

  /** A run that comes to an end leaves a reduced term, which shows the meaning of the cell at the start. */
  lemma FinishedReduced(m: Memory, live: map<Loc, Info>, loc: Loc, n: nat)
    requires Ready(m, live, loc) && Finished(Steps(Start(m, loc), n))
    ensures forall r: Env :: ValueLike(Steps(Start(m, loc), n).cur, D(ReadAt(Graph(m.h, live), loc), r))
  {
    StartInv(m, live, loc);
    var s := Steps(Start(m, loc), n);
    var g := StepsKeep(Start(m, loc), n, Graph(m.h, live), loc);
    forall r: Env
      ensures ValueLike(s.cur, D(ReadAt(Graph(m.h, live), loc), r))
    {
      assert D(ReadAt(Graph(m.h, live), loc), r) == D(ReadAt(g, loc), r);
    }
  }

  /** The result of a run that comes to an end after the runs `bounds`. */
  function Answer(m: Memory, loc: Loc, bounds: seq<nat>, n: nat): Term {
    Steps(Start(Runs(m, loc, bounds), loc), n).cur
  }

  predicate Ends(m: Memory, loc: Loc, bounds: seq<nat>, n: nat) {
    Finished(Steps(Start(Runs(m, loc, bounds), loc), n))
  }

  predicate IsBranch(t: Term) {
    t.Node? && (t.head.HSup? || t.head.HInc?)
  }

  /** The same number, name or constructor, or both irreducible. */
  predicate Alike(t: Term, u: Term) {
    if t.Dp? || (t.Node? && t.head.HBin?) then u.Dp? || (u.Node? && u.head.HBin?)
    else if t.Node? then u.Node? && t.head == u.head
    else t == u
  }

  lemma AnswerReduced(m: Memory, live: map<Loc, Info>, loc: Loc, bounds: seq<nat>, n: nat)
    requires Ready(m, live, loc) && Ends(m, loc, bounds, n)
    ensures forall r: Env :: ValueLike(Answer(m, loc, bounds, n), D(ReadAt(Graph(m.h, live), loc), r))
  {
    var live1 := RunsKeep(m, live, loc, bounds);
    var m1 := Runs(m, loc, bounds);
    FinishedReduced(m1, live1, loc, n);
    forall r: Env
      ensures ValueLike(Answer(m, loc, bounds, n), D(ReadAt(Graph(m.h, live), loc), r))
    {
      assert D(ReadAt(Graph(m.h, live), loc), r) == D(ReadAt(Graph(m1.h, live1), loc), r);
    }
  }

  /** However the work is cut into bounded runs, runs that end in no superposition end alike. */
  lemma AnswersAgree(m: Memory, live: map<Loc, Info>, loc: Loc, bounds1: seq<nat>, n1: nat, bounds2: seq<nat>, n2: nat)
    requires Ready(m, live, loc) && Ends(m, loc, bounds1, n1) && Ends(m, loc, bounds2, n2)
    requires !IsBranch(Answer(m, loc, bounds1, n1)) && !IsBranch(Answer(m, loc, bounds2, n2))
    ensures Alike(Answer(m, loc, bounds1, n1), Answer(m, loc, bounds2, n2))
  {
    AnswerReduced(m, live, loc, bounds1, n1);
    AnswerReduced(m, live, loc, bounds2, n2);
    var r: Env :| true;
    var v := D(ReadAt(Graph(m.h, live), loc), r);
    assert ValueLike(Answer(m, loc, bounds1, n1), v) && ValueLike(Answer(m, loc, bounds2, n2), v);
  }
}
