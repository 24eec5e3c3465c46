/**
 The interactions as the machine runs them: what a rule writes, the term it returns, and whether the
 machine enters that term. Each is shown to be one of the sound changes of the heap.
 */
module Interact {
  import opened U32Ops
  import opened Calculus
  import opened Reduction
  import opened Laws
  import opened Heap
  import opened Rules
  import opened RulesInc
  import opened RulesDup
  import opened RulesEql

  /**
   The frames on the stack. A frame stands for a node with one field missing. `FNum` is the frame
   `F_OP2_NUM`; it records the cell the missing operand came from, which the machine itself never reads.
   */
  datatype Frame =
    | FDp(side: bit, lab: Label, loc: Loc)
    | FBin(k: Kind, loc: Loc)
    | FNum(opr: nat, x: u32, hole: Loc)
    | FEqR(loc: Loc)

  /** The cell that the missing field belongs in. */
  function Hole(f: Frame): Loc {
    match f
    case FDp(_, _, loc) => loc
    case FBin(_, loc) => loc
    case FNum(_, _, hole) => hole
    case FEqR(loc) => loc + 1
  }

  /** The node a frame stands for. */
  function AsTerm(f: Frame): Term {
    match f
    case FDp(i, lab, loc) => Dp(i, lab, loc)
    case FBin(k, loc) => Bin(k, loc)
    case FNum(opr, x, hole) => Part(opr, x, hole)
    case FEqR(loc) => Bin(KEql, loc)
  }

  /** An interaction: the cells it writes, its result, the next free cell, and whether the result is entered. */
  datatype Out = Out(ws: Cells, res: Term, next: Loc, enter: bool)

  function C(t: Term): Cell {
    Cell(false, t)
  }

  // ---------------------------------------------------------------------------
  // What an interaction keeps
  // ---------------------------------------------------------------------------

  /** The rule `out`, applied at cell `p` with its active field in cell `q`, leads from `g` to `g2`. */
  ghost predicate Fires(g: Graph, g2: Graph, p: Loc, q: Loc, out: Out) {
    && Kept(g, g2, p) && g2.h == (g.h + out.ws)[p := C(out.res)]
    && (forall m :: m in out.ws && m in g.live ==> !Outside(g, p, m))
    && (forall m :: m in g2.live ==> m < out.next && (m in g.live || m in out.ws))
    && (q in out.ws || q !in g2.live)
  }

  lemma OverwrittenInside(c: Change, m: Loc)
    requires IsChange(c) && OwnedFrom(c) && m in c.x
    ensures !Outside(c.g1, c.p, m)
  {
  }

  lemma ChangeFires(c: Change, q: Loc, out: Out)
    requires IsChange(c) && OwnedFrom(c) && Wf(c.g2) && Sound(c)
    requires c.g2.h == (c.g1.h + out.ws)[c.p := C(out.res)]
    requires forall m :: m in out.ws && m in c.g1.live ==> m in c.x
    requires forall m :: m in c.g2.live ==> m < out.next && (m in c.g1.live || m in out.ws)
    requires q in out.ws || q !in c.g2.live
    ensures Fires(c.g1, c.g2, c.p, q, out)
  {
    ChangeKept(c);
    forall m | m in out.ws && m in c.g1.live
      ensures !Outside(c.g1, c.p, m)
    {
      OverwrittenInside(c, m);
    }
  }

  /** The frame `f` is in cell `p` and its field is the term `t`; the cells below are in the heap `h`. */
  ghost predicate Redex(h: Cells, g: Graph, next: Loc, p: Loc, f: Frame, t: Term) {
    && Wf(g) && Fresh(g.live, next) && Holds(g, p, AsTerm(f)) && Holds(g, Hole(f), t)
    && forall m :: m in g.live && m != Hole(f) && g.live[m].rank < g.live[p].rank ==> At(h, m) == At(g.h, m)
  }

  /** Cell `m` of a redex can be read from the heap. */
  lemma ReadBelow(h: Cells, g: Graph, next: Loc, p: Loc, f: Frame, t: Term, l: Loc, u: Term, m: Loc)
    requires Redex(h, g, next, p, f, t) && (l == p || l == Hole(f)) && g.h[l].term == u && InFoot(u, m) && m != Hole(f)
    ensures m in g.live && At(h, m) == At(g.h, m)
  {
    assert TermOk(g, p, AsTerm(f)) && InFoot(AsTerm(f), Hole(f));
    assert TermOk(g, l, u);
  }

  // ---------------------------------------------------------------------------
  // Superpositions
  // ---------------------------------------------------------------------------

  /** OP2-SUP, AND-SUP, OR-SUP, EQL-SUP-L (`x == loc`) and EQL-SUP-R (`x == loc + 1`). */
  function BinSupOut(h: Cells, next: Loc, k: Kind, loc: Loc, x: Loc, lab: Label, sup: Loc): Out {
    var y := 2 * loc + 1 - x;
    var x1, y1 := next + 1 + (x - loc), next + 1 + (y - loc);
    Out(map[next := C(At(h, y)),
            x := C(At(h, sup)), y := C(Dp(0, lab, next)),
            x1 := C(At(h, sup + 1)), y1 := C(Dp(1, lab, next)),
            sup := C(Bin(k, loc)), sup + 1 := C(Bin(k, next + 1))],
        Sup(lab, sup), next + 3, false)
  }

  function BinSupRule(next: Loc, k: Kind, loc: Loc, x: Loc, lab: Label, sup: Loc): BinSup {
    var y := 2 * loc + 1 - x;
    BinSup(k, lab, loc, x, y, sup, next, next + 1, next + 1 + (x - loc), next + 1 + (y - loc))
  }

  ghost function BinSupChange(r: BinSup, g: Graph, p: Loc, ws: Cells): Change
    requires r.loc in g.live && r.loc + 1 in g.live
  {
    Change(g, Graph((g.h + ws)[p := C(Sup(r.lab, r.sup))], BinSupLive(r, p, g.live)),
           p, {r.loc, r.loc + 1, r.sup, r.sup + 1}, {p, r.x}, BinSupMoves(r), Era)
  }

  ghost predicate BinSupPuts(r: BinSup, h: Cells, ws: Cells) {
    && ws.Keys == {r.dup, r.x, r.y, r.x1, r.y1, r.sup, r.sup + 1}
    && ws[r.dup] == C(At(h, r.y))
    && ws[r.x] == C(At(h, r.sup)) && ws[r.y] == C(Dp(0, r.lab, r.dup))
    && ws[r.x1] == C(At(h, r.sup + 1)) && ws[r.y1] == C(Dp(1, r.lab, r.dup))
    && ws[r.sup] == C(Bin(r.k, r.loc)) && ws[r.sup + 1] == C(Bin(r.k, r.new1))
  }

  /** The fields that the rule reads are as they look. */
  lemma BinSupLooks(h: Cells, g: Graph, next: Loc, p: Loc, f: Frame, k: Kind, loc: Loc, lab: Label, sup: Loc, y: Loc)
    requires Redex(h, g, next, p, f, Sup(lab, sup)) && (f == FBin(k, loc) || (f == FEqR(loc) && k == KEql))
    requires y == 2 * loc + 1 - Hole(f) && sup != Hole(f) && sup + 1 != Hole(f)
    ensures At(h, sup) == At(g.h, sup) && At(h, sup + 1) == At(g.h, sup + 1) && At(h, y) == At(g.h, y)
  {
    assert InFoot(Sup(lab, sup), sup) && InFoot(Sup(lab, sup), sup + 1) && InFoot(Bin(k, loc), y);
    ReadBelow(h, g, next, p, f, Sup(lab, sup), Hole(f), Sup(lab, sup), sup);
    ReadBelow(h, g, next, p, f, Sup(lab, sup), Hole(f), Sup(lab, sup), sup + 1);
    ReadBelow(h, g, next, p, f, Sup(lab, sup), p, Bin(k, loc), y);
  }

  lemma BinSupPutsIt(h: Cells, g: Graph, next: Loc, p: Loc, f: Frame, k: Kind, loc: Loc, lab: Label, sup: Loc)
    requires Redex(h, g, next, p, f, Sup(lab, sup)) && (f == FBin(k, loc) || (f == FEqR(loc) && k == KEql))
    requires BinSupApart(BinSupRule(next, k, loc, Hole(f), lab, sup), p)
    ensures BinSupPuts(BinSupRule(next, k, loc, Hole(f), lab, sup), g.h,
                       BinSupOut(h, next, k, loc, Hole(f), lab, sup).ws)
  {
    BinSupLooks(h, g, next, p, f, k, loc, lab, sup, 2 * loc + 1 - Hole(f));
  }

  lemma BinSupCells(r: BinSup, c: Change, ws: Cells)
    requires BinSupApart(r, c.p) && BinSupPuts(r, c.g1.h, ws) && Fresh(c.g1.live, r.dup)
    requires c.x == {r.loc, r.loc + 1, r.sup, r.sup + 1} && c.g2.h == (c.g1.h + ws)[c.p := C(Sup(r.lab, r.sup))]
    requires c.p in c.g1.h && !c.g1.h[c.p].sub
    ensures BinSupWrites(r, c)
  {
  }

  lemma BinSupDone(r: BinSup, g: Graph, p: Loc, ws: Cells)
    requires Wf(g) && Fresh(g.live, r.dup) && BinSupFields(r)
    requires Holds(g, p, Bin(r.k, r.loc)) && r.x in g.h && g.h[r.x].term == Sup(r.lab, r.sup)
    requires BinSupApart(r, p) && BinSupPuts(r, g.h, ws)
    ensures r.loc in g.live && r.loc + 1 in g.live
    ensures BinSupStep(r, BinSupChange(r, g, p, ws))
  {
    BinSupParts(r, g, p);
    var c := BinSupChange(r, g, p, ws);
    BinSupTableIt(r, c);
    BinSupCells(r, c, ws);
  }

  lemma BinSupFires(h: Cells, g: Graph, next: Loc, p: Loc, f: Frame, k: Kind, loc: Loc, lab: Label, sup: Loc)
    returns (g2: Graph)
    requires Redex(h, g, next, p, f, Sup(lab, sup)) && (f == FBin(k, loc) || (f == FEqR(loc) && k == KEql))
    ensures Fires(g, g2, p, Hole(f), BinSupOut(h, next, k, loc, Hole(f), lab, sup)) && Fell(g, g2, p)
  {
    var out := BinSupOut(h, next, k, loc, Hole(f), lab, sup);
    var r := BinSupRule(next, k, loc, Hole(f), lab, sup);
    BinSupParts(r, g, p);
    BinSupPutsIt(h, g, next, p, f, k, loc, lab, sup);
    BinSupDone(r, g, p, out.ws);
    BinSupLast(r, BinSupChange(r, g, p, out.ws), out);
    g2 := BinSupChange(r, g, p, out.ws).g2;
  }

  lemma BinSupLast(r: BinSup, c: Change, out: Out)
    requires Wf(c.g1) && BinSupStep(r, c) && Fresh(c.g1.live, r.dup) && out.next == r.dup + 3
    requires c.g2.h == (c.g1.h + out.ws)[c.p := C(out.res)] && BinSupPuts(r, c.g1.h, out.ws)
    ensures Fires(c.g1, c.g2, c.p, r.x, out) && Fell(c.g1, c.g2, c.p)
  {
    BinSupWf(r, c);
    BinSupSound(r, c);
    BinSupOwned(r, c);
    ChangeFires(c, r.x, out);
  }

  lemma BinSupOwned(r: BinSup, c: Change)
    requires BinSupStep(r, c)
    ensures OwnedFrom(c)
  {
  }

  // ---------------------------------------------------------------------------
  // Rules that drop the redex
  // ---------------------------------------------------------------------------

  /** The fields of the node a frame stands for, if it owns them. */
  function Feet(f: Frame): set<Loc> {
    match f
    case FDp(_, _, _) => {}
    case FBin(_, loc) => {loc, loc + 1}
    case FNum(_, _, hole) => {hole}
    case FEqR(loc) => {loc, loc + 1}
  }

  ghost function ShrinkChange(g: Graph, p: Loc, x: set<Loc>, moves: map<Loc, Loc>, res: Term): Change {
    Change(g, Graph(g.h[p := C(res)], ShrinkLive(g.live, x, moves)), p, x, {p}, moves, Era)
  }

  lemma FeetOwned(g: Graph, p: Loc, f: Frame, m: Loc)
    requires Wf(g) && Holds(g, p, AsTerm(f)) && m in Feet(f)
    ensures RefOk(g, p, AsTerm(f), m)
  {
    assert TermOk(g, p, AsTerm(f)) && InFoot(AsTerm(f), m);
  }

  lemma ShrinkReady(g: Graph, p: Loc, f: Frame, moves: map<Loc, Loc>, res: Term)
    requires Wf(g) && Holds(g, p, AsTerm(f)) && !f.FDp?
    requires forall m :: m in moves ==> m in Feet(f) && m in g.h && moves[m] == p && g.h[m].term == res
    ensures ShrinkStep(ShrinkChange(g, p, Feet(f), moves, res)) && OwnedFrom(ShrinkChange(g, p, Feet(f), moves, res))
  {
    forall m | m in Feet(f)
      ensures RefOk(g, p, AsTerm(f), m)
    {
      FeetOwned(g, p, f, m);
    }
  }

  function PlainOut(next: Loc, res: Term, enter: bool): Out {
    Out(map[], res, next, enter)
  }

  /** The node computes to an atom. */
  lemma AtomFires(h: Cells, g: Graph, next: Loc, p: Loc, f: Frame, t: Term, res: Term, enter: bool) returns (g2: Graph)
    requires Redex(h, g, next, p, f, t) && !f.FDp? && IsAtom(res) && Reduces(ReadAt(g, p), AtomTree(res))
    ensures Fires(g, g2, p, Hole(f), PlainOut(next, res, enter)) && Fell(g, g2, p)
  {
    var c := ShrinkChange(g, p, Feet(f), map[], res);
    ShrinkReady(g, p, f, map[], res);
    AtomSound(c);
    ChangeFires(c, Hole(f), PlainOut(next, res, enter));
    g2 := c.g2;
  }

  /** AND-ONE and OR-ZER: the node becomes its second field. */
  lemma ForwardFires(h: Cells, g: Graph, next: Loc, p: Loc, k: Kind, loc: Loc, t: Term) returns (g2: Graph)
    requires Redex(h, g, next, p, FBin(k, loc), t)
    requires loc + 1 in g.live && Reduces(ReadAt(g, p), ReadAt(g, loc + 1))
    ensures Fires(g, g2, p, loc, PlainOut(next, At(h, loc + 1), true)) && Fell(g, g2, p)
  {
    ReadBelow(h, g, next, p, FBin(k, loc), t, p, Bin(k, loc), loc + 1);
    var c := ShrinkChange(g, p, {loc, loc + 1}, map[loc + 1 := p], At(h, loc + 1));
    ShrinkReady(g, p, FBin(k, loc), map[loc + 1 := p], At(h, loc + 1));
    ForwardSound(c, loc + 1);
    ChangeFires(c, loc, PlainOut(next, At(h, loc + 1), true));
    g2 := c.g2;
  }

  // ---------------------------------------------------------------------------
  // INC
  // ---------------------------------------------------------------------------

  /** AND-INC, OR-INC, EQL-INC-L and EQL-INC-R (`at == loc`), and OP2-INC-X (`at == next`). */
  function BinIncOut(h: Cells, next: Loc, k: Kind, loc: Loc, x: Loc, at: Loc, inc: Loc): Out {
    var y := 2 * loc + 1 - x;
    Out(map[at + (x - loc) := C(At(h, inc)), at + (y - loc) := C(At(h, y)), inc := C(Bin(k, at))],
        Inc(inc), if at == loc then next else next + 2, false)
  }

  function BinIncRule(k: Kind, loc: Loc, x: Loc, at: Loc, inc: Loc): BinInc {
    BinInc(k, loc, x, 2 * loc + 1 - x, inc, at, at + (x - loc), at + (2 * loc + 1 - x - loc))
  }

  ghost function BinIncChange(r: BinInc, g: Graph, p: Loc, ws: Cells): Change
    requires r.loc in g.live && r.loc + 1 in g.live
  {
    Change(g, Graph((g.h + ws)[p := C(Inc(r.inc))], BinIncLive(r, p, g.live)),
           p, {r.loc, r.loc + 1, r.inc}, {p, r.x}, map[r.inc := r.ax, r.y := r.ay], Era)
  }

  ghost predicate BinIncPuts(r: BinInc, h: Cells, ws: Cells) {
    && ws.Keys == {r.ax, r.ay, r.inc}
    && ws[r.ax] == C(At(h, r.inc)) && ws[r.ay] == C(At(h, r.y)) && ws[r.inc] == C(Bin(r.k, r.at))
  }

  lemma BinIncPutsIt(h: Cells, g: Graph, next: Loc, p: Loc, f: Frame, k: Kind, loc: Loc, at: Loc, inc: Loc)
    requires Redex(h, g, next, p, f, Inc(inc)) && (f == FBin(k, loc) || (f == FEqR(loc) && k == KEql))
    requires BinIncApart(BinIncRule(k, loc, Hole(f), at, inc), next, p)
    ensures BinIncPuts(BinIncRule(k, loc, Hole(f), at, inc), g.h, BinIncOut(h, next, k, loc, Hole(f), at, inc).ws)
  {
    assert InFoot(Inc(inc), inc) && InFoot(Bin(k, loc), 2 * loc + 1 - Hole(f));
    ReadBelow(h, g, next, p, f, Inc(inc), Hole(f), Inc(inc), inc);
    ReadBelow(h, g, next, p, f, Inc(inc), p, Bin(k, loc), 2 * loc + 1 - Hole(f));
  }

  lemma BinIncDone(r: BinInc, g: Graph, next: Loc, p: Loc, ws: Cells)
    requires Wf(g) && Fresh(g.live, next) && BinIncFields(r) && BinIncApart(r, next, p)
    requires Holds(g, p, Bin(r.k, r.loc)) && r.x in g.h && g.h[r.x].term == Inc(r.inc)
    requires BinIncPuts(r, g.h, ws)
    ensures r.loc in g.live && r.loc + 1 in g.live
    ensures BinIncStep(r, BinIncChange(r, g, p, ws), next)
  {
    BinIncParts(r, g, next, p);
    BinIncTableIt(r, BinIncChange(r, g, p, ws), next);
  }

  lemma BinIncLast(r: BinInc, c: Change, next: Loc, out: Out)
    requires Wf(c.g1) && BinIncStep(r, c, next) && Fresh(c.g1.live, next)
    requires if r.at == r.loc then next <= out.next else next + 2 <= out.next
    requires c.g2.h == (c.g1.h + out.ws)[c.p := C(out.res)] && BinIncPuts(r, c.g1.h, out.ws)
    ensures Fires(c.g1, c.g2, c.p, r.x, out) && Fell(c.g1, c.g2, c.p)
  {
    BinIncWf(r, c, next);
    BinIncSound(r, c, next);
    ChangeFires(c, r.x, out);
  }

  lemma BinIncFires(h: Cells, g: Graph, next: Loc, p: Loc, f: Frame, k: Kind, loc: Loc, at: Loc, inc: Loc)
    returns (g2: Graph)
    requires Redex(h, g, next, p, f, Inc(inc)) && (f == FBin(k, loc) || (f == FEqR(loc) && k == KEql))
    requires at == loc || at == next
    ensures Fires(g, g2, p, Hole(f), BinIncOut(h, next, k, loc, Hole(f), at, inc)) && Fell(g, g2, p)
  {
    var out := BinIncOut(h, next, k, loc, Hole(f), at, inc);
    var r := BinIncRule(k, loc, Hole(f), at, inc);
    BinIncParts(r, g, next, p);
    BinIncPutsIt(h, g, next, p, f, k, loc, at, inc);
    BinIncDone(r, g, next, p, out.ws);
    BinIncLast(r, BinIncChange(r, g, p, out.ws), next, out);
    g2 := BinIncChange(r, g, p, out.ws).g2;
  }

  // ---------------------------------------------------------------------------
  // OP2-NUM-SUP, OP2-INC-Y, and a stuck `(x op [])`
  // ---------------------------------------------------------------------------

  function NumSupOut(h: Cells, next: Loc, opr: nat, x: u32, lab: Label, sup: Loc): Out {
    Out(map[next := C(Num(x)), next + 1 := C(At(h, sup)), next + 2 := C(Num(x)), next + 3 := C(At(h, sup + 1)),
            sup := C(Bin(KOp2(opr), next)), sup + 1 := C(Bin(KOp2(opr), next + 2))],
        Sup(lab, sup), next + 4, false)
  }

  ghost function NumSupChange(r: NumSup, g: Graph, p: Loc, ws: Cells): Change
    requires r.hole in g.live
  {
    Change(g, Graph((g.h + ws)[p := C(Sup(r.lab, r.sup))], NumSupLive(r, p, g.live)),
           p, {r.hole, r.sup, r.sup + 1}, {p, r.hole}, NumSupMoves(r), Era)
  }

  ghost predicate NumSupPuts(r: NumSup, h: Cells, ws: Cells) {
    && ws.Keys == {r.b1, r.b1 + 1, r.b2, r.b2 + 1, r.sup, r.sup + 1}
    && ws[r.b1] == C(Num(r.num)) && ws[r.b1 + 1] == C(At(h, r.sup))
    && ws[r.b2] == C(Num(r.num)) && ws[r.b2 + 1] == C(At(h, r.sup + 1))
    && ws[r.sup] == C(Bin(KOp2(r.opr), r.b1)) && ws[r.sup + 1] == C(Bin(KOp2(r.opr), r.b2))
  }

  lemma NumSupDone(r: NumSup, g: Graph, p: Loc, ws: Cells)
    requires Wf(g) && Fresh(g.live, r.b1) && NumSupApart(r, p) && NumSupPuts(r, g.h, ws)
    requires Holds(g, p, Part(r.opr, r.num, r.hole)) && r.hole in g.h && g.h[r.hole].term == Sup(r.lab, r.sup)
    ensures r.hole in g.live && NumSupStep(r, NumSupChange(r, g, p, ws))
  {
    NumSupParts(r, g, p);
    NumSupTableIt(r, NumSupChange(r, g, p, ws));
  }

  lemma NumSupLast(r: NumSup, c: Change, out: Out)
    requires Wf(c.g1) && NumSupStep(r, c) && Fresh(c.g1.live, r.b1) && out.next == r.b1 + 4
    requires c.g2.h == (c.g1.h + out.ws)[c.p := C(out.res)] && NumSupPuts(r, c.g1.h, out.ws)
    ensures Fires(c.g1, c.g2, c.p, r.hole, out) && Fell(c.g1, c.g2, c.p)
  {
    NumSupWf(r, c);
    NumSupSound(r, c);
    ChangeFires(c, r.hole, out);
  }

  lemma NumSupFires(h: Cells, g: Graph, next: Loc, p: Loc, f: Frame, lab: Label, sup: Loc) returns (g2: Graph)
    requires Redex(h, g, next, p, f, Sup(lab, sup)) && f.FNum?
    ensures Fires(g, g2, p, f.hole, NumSupOut(h, next, f.opr, f.x, lab, sup)) && Fell(g, g2, p)
  {
    var out, r := NumSupOut(h, next, f.opr, f.x, lab, sup), NumSup(f.opr, f.x, lab, f.hole, sup, next, next + 2);
    NumSupParts(r, g, p);
    assert InFoot(Sup(lab, sup), sup) && InFoot(Sup(lab, sup), sup + 1);
    ReadBelow(h, g, next, p, f, Sup(lab, sup), f.hole, Sup(lab, sup), sup);
    ReadBelow(h, g, next, p, f, Sup(lab, sup), f.hole, Sup(lab, sup), sup + 1);
    NumSupDone(r, g, p, out.ws);
    NumSupLast(r, NumSupChange(r, g, p, out.ws), out);
    g2 := NumSupChange(r, g, p, out.ws).g2;
  }

  /** OP2-INC-Y. */
  function NumIncOut(h: Cells, next: Loc, opr: nat, x: u32, inc: Loc): Out {
    Out(map[next := C(Num(x)), next + 1 := C(At(h, inc)), inc := C(Bin(KOp2(opr), next))], Inc(inc), next + 2, false)
  }

  /** The stuck operand `t` goes into a new node. */
  function NumStuckOut(next: Loc, opr: nat, x: u32, t: Term): Out {
    Out(map[next := C(Num(x)), next + 1 := C(t)], Bin(KOp2(opr), next), next + 2, false)
  }

  ghost function RebuildChange(r: Rebuild, g: Graph, p: Loc, ws: Cells, res: Term): Change
    requires r.hole in g.live
  {
    Change(g, Graph((g.h + ws)[p := C(res)], RebuildLive(r, p, g.live)),
           p, {r.hole, r.inc}, if r.inc == r.hole then {p} else {p, r.hole}, map[r.inc := r.b + 1], Era)
  }

  lemma RebuildLast(r: Rebuild, c: Change, out: Out)
    requires Wf(c.g1) && RebuildStep(r, c) && out.next == r.b + 2
    requires c.g2.h == (c.g1.h + out.ws)[c.p := C(out.res)]
    requires out.ws.Keys == if r.inc == r.hole then {r.b, r.b + 1} else {r.b, r.b + 1, r.inc}
    ensures Fires(c.g1, c.g2, c.p, r.hole, out) && (r.inc != r.hole ==> Fell(c.g1, c.g2, c.p))
  {
    RebuildWf(r, c);
    RebuildSound(r, c);
    ChangeFires(c, r.hole, out);
  }

  lemma NumIncStep(h: Cells, g: Graph, next: Loc, p: Loc, f: Frame, inc: Loc, r: Rebuild, c: Change)
    requires Redex(h, g, next, p, f, Inc(inc)) && f.FNum? && r == Rebuild(f.opr, f.x, f.hole, inc, next)
    requires var out := NumIncOut(h, next, f.opr, f.x, inc); c == RebuildChange(r, g, p, out.ws, out.res)
    ensures RebuildStep(r, c)
  {
    assert TermOk(g, f.hole, Inc(inc)) && InFoot(Inc(inc), inc) && RefOk(g, f.hole, Inc(inc), inc);
    RebuildParts(r, g, p);
    ReadBelow(h, g, next, p, f, Inc(inc), f.hole, Inc(inc), inc);
  }

  lemma NumIncFires(h: Cells, g: Graph, next: Loc, p: Loc, f: Frame, inc: Loc) returns (g2: Graph)
    requires Redex(h, g, next, p, f, Inc(inc)) && f.FNum?
    ensures Fires(g, g2, p, f.hole, NumIncOut(h, next, f.opr, f.x, inc)) && Fell(g, g2, p)
  {
    var out, r := NumIncOut(h, next, f.opr, f.x, inc), Rebuild(f.opr, f.x, f.hole, inc, next);
    var c := RebuildChange(r, g, p, out.ws, out.res);
    NumIncStep(h, g, next, p, f, inc, r, c);
    assert inc != f.hole by {
      assert InFoot(Inc(inc), inc) && TermOk(g, f.hole, Inc(inc));
    }
    RebuildLast(r, c, out);
    g2 := c.g2;
  }

  lemma NumStuckFires(h: Cells, g: Graph, next: Loc, p: Loc, f: Frame, t: Term) returns (g2: Graph)
    requires Redex(h, g, next, p, f, t) && f.FNum?
    ensures Fires(g, g2, p, f.hole, NumStuckOut(next, f.opr, f.x, t))
  {
    var out, r := NumStuckOut(next, f.opr, f.x, t), Rebuild(f.opr, f.x, f.hole, f.hole, next);
    RebuildParts(r, g, p);
    var c := RebuildChange(r, g, p, out.ws, out.res);
    RebuildLast(r, c, out);
    g2 := c.g2;
  }

  // ---------------------------------------------------------------------------
  // DUP
  // ---------------------------------------------------------------------------

  /** DUP-NAM, and DUP-NOD without fields. */
  function DupAtomOut(next: Loc, loc: Loc, t: Term, enter: bool): Out {
    Out(map[loc := Cell(true, t)], t, next, enter)
  }

  /** DUP-SUP with equal labels. */
  function AnnihilateOut(h: Cells, next: Loc, i: bit, loc: Loc, sup: Loc): Out {
    Out(map[loc := Cell(true, At(h, sup + 1 - i))], At(h, sup + i), next, true)
  }

  /** The two blocks of readers that DUP-NOD fills, up to field `n`. */
  function DupBlocks(next: Loc, lab: Label, at: Loc, ari: nat, n: nat): Cells {
    if n == 0 then map[]
    else DupBlocks(next, lab, at, ari, n - 1)
      [next + n - 1 := C(Dp(0, lab, at + n - 1))][next + ari + n - 1 := C(Dp(1, lab, at + n - 1))]
  }

  lemma {:induction false} BlocksHave(next: Loc, lab: Label, at: Loc, ari: nat, n: nat)
    requires n <= ari
    ensures var ws := DupBlocks(next, lab, at, ari, n);
            && (forall m :: m in ws <==> Within(m, next, n) || Within(m, next + ari, n))
            && (forall m :: Within(m, next, n) ==> ws[m] == C(Dp(0, lab, at + (m - next))))
            && (forall m :: Within(m, next + ari, n) ==> ws[m] == C(Dp(1, lab, at + (m - next - ari))))
  {
    if n > 0 {
      BlocksHave(next, lab, at, ari, n - 1);
    }
  }

  /** DUP-NOD, and DUP-SUP with different labels. */
  function DupNodOut(next: Loc, i: bit, lab: Label, loc: Loc, head: Head, at: Loc): Out {
    var d := Nod(head, at, next);
    Out(DupBlocks(next, lab, at, Ari(head), Ari(head))[loc := Cell(true, CopyTerm(d, 1 - i))],
        CopyTerm(d, i), next + 2 * Ari(head), true)
  }

  ghost function DupChange(r: Dup, g: Graph, p: Loc, out: Out, live: map<Loc, Info>, x: set<Loc>,
                           moves: map<Loc, Loc>): Change
    requires r.loc in g.live
  {
    Change(g, Graph((g.h + out.ws)[p := C(out.res)], live), p, {r.loc} + x, Owners(r, g, p), moves, Twin(r))
  }

  lemma DupOwnedFrom(r: Dup, c: Change)
    requires DupRedex(r, c.g1, c.p) && DupBelow(r, c) && r.loc in c.x
    ensures OwnedFrom(c)
  {
  }

  lemma DupAtomFires(h: Cells, g: Graph, next: Loc, p: Loc, i: bit, lab: Label, loc: Loc, t: Term, enter: bool)
    returns (g2: Graph)
    requires Redex(h, g, next, p, FDp(i, lab, loc), t) && IsAtom(t)
    ensures Fires(g, g2, p, loc, DupAtomOut(next, loc, t, enter)) && Fell(g, g2, p)
  {
    var r, out := Dup(i, lab, loc), DupAtomOut(next, loc, t, enter);
    DupParts(r, g, p);
    var c := DupChange(r, g, p, out, DupAtomLive(r, g), {}, map[]);
    DupAtomSound(r, c, t);
    DupOwnedFrom(r, c);
    ChangeFires(c, loc, out);
    g2 := c.g2;
  }

  lemma SupCells(g: Graph, l: Loc, lab: Label, sup: Loc)
    requires Wf(g) && Holds(g, l, Sup(lab, sup))
    ensures RefOk(g, l, Sup(lab, sup), sup) && RefOk(g, l, Sup(lab, sup), sup + 1)
  {
    assert TermOk(g, l, Sup(lab, sup));
    assert InFoot(g.h[l].term, sup) && InFoot(g.h[l].term, sup + 1);
  }

  lemma AnnihilateReady(r: Dup, g: Graph, p: Loc, sup: Loc, out: Out)
    requires Wf(g) && DupRedex(r, g, p) && Holds(g, r.loc, Sup(r.lab, sup))
    requires out.ws == map[r.loc := Cell(true, At(g.h, sup + 1 - r.i))] && out.res == At(g.h, sup + r.i)
    ensures AnnihilateStep(r, DupChange(r, g, p, out, AnnihilateLive(r, g, p, sup), {sup, sup + 1},
                                        map[sup + r.i := p, sup + 1 - r.i := r.loc]), sup)
  {
    SupCells(g, r.loc, r.lab, sup);
  }

  lemma AnnihilateLast(r: Dup, c: Change, sup: Loc, out: Out)
    requires Wf(c.g1) && AnnihilateStep(r, c, sup) && Fresh(c.g1.live, out.next)
    requires c.g2.h == (c.g1.h + out.ws)[c.p := C(out.res)] && out.ws.Keys == {r.loc}
    ensures Fires(c.g1, c.g2, c.p, r.loc, out) && Fell(c.g1, c.g2, c.p)
  {
    AnnihilateWf(r, c, sup);
    AnnihilateSound(r, c, sup);
    DupOwnedFrom(r, c);
    ChangeFires(c, r.loc, out);
  }

  lemma AnnihilateFires(h: Cells, g: Graph, next: Loc, p: Loc, i: bit, lab: Label, loc: Loc, sup: Loc)
    returns (g2: Graph)
    requires Redex(h, g, next, p, FDp(i, lab, loc), Sup(lab, sup))
    ensures Fires(g, g2, p, loc, AnnihilateOut(h, next, i, loc, sup)) && Fell(g, g2, p)
  {
    var f, r, out := FDp(i, lab, loc), Dup(i, lab, loc), AnnihilateOut(h, next, i, loc, sup);
    DupParts(r, g, p);
    SupCells(g, loc, lab, sup);
    assert InFoot(Sup(lab, sup), sup) && InFoot(Sup(lab, sup), sup + 1);
    ReadBelow(h, g, next, p, f, Sup(lab, sup), loc, Sup(lab, sup), sup);
    ReadBelow(h, g, next, p, f, Sup(lab, sup), loc, Sup(lab, sup), sup + 1);
    AnnihilateReady(r, g, p, sup, out);
    var c := DupChange(r, g, p, out, AnnihilateLive(r, g, p, sup), {sup, sup + 1},
                       map[sup + i := p, sup + 1 - i := loc]);
    AnnihilateLast(r, c, sup, out);
    g2 := c.g2;
  }

  ghost function NodChange(r: Dup, d: Nod, g: Graph, p: Loc, out: Out): Change
    requires r.loc in g.live && g.live[r.loc].rank > 0
  {
    DupChange(r, g, p, out, NodLive(r, d, g, p), Range(d.at, Ari(d.head)), map m | m in Range(d.at, Ari(d.head)) :: m)
  }

  ghost predicate NodPuts(r: Dup, d: Nod, ws: Cells) {
    && (forall m :: m in ws <==> m == r.loc || InCopy(d, 0, m) || InCopy(d, 1, m))
    && ws[r.loc] == Cell(true, CopyTerm(d, 1 - r.i))
    && (forall m :: InCopy(d, 0, m) ==> ws[m] == C(Dp(0, r.lab, d.at + (m - Copy(d, 0)))))
    && (forall m :: InCopy(d, 1, m) ==> ws[m] == C(Dp(1, r.lab, d.at + (m - Copy(d, 1)))))
  }

  lemma NodKeys(r: Dup, d: Nod, ws: Cells)
    requires ws == DupNodOut(d.next, r.i, r.lab, r.loc, d.head, d.at).ws
    ensures forall m :: m in ws <==> m == r.loc || InCopy(d, 0, m) || InCopy(d, 1, m)
  {
    BlocksHave(d.next, r.lab, d.at, Ari(d.head), Ari(d.head));
  }

  lemma NodPutsIt(r: Dup, d: Nod)
    requires r.loc < d.next
    ensures NodPuts(r, d, DupNodOut(d.next, r.i, r.lab, r.loc, d.head, d.at).ws)
  {
    var ws, n := DupNodOut(d.next, r.i, r.lab, r.loc, d.head, d.at).ws, Ari(d.head);
    NodKeys(r, d, ws);
    BlocksHave(d.next, r.lab, d.at, n, n);
    forall m | InCopy(d, 0, m)
      ensures ws[m] == C(Dp(0, r.lab, d.at + (m - Copy(d, 0))))
    {
      assert Within(m, d.next, n);
    }
    forall m | InCopy(d, 1, m)
      ensures ws[m] == C(Dp(1, r.lab, d.at + (m - Copy(d, 1))))
    {
      assert Within(m, d.next + n, n);
    }
  }

  /** The fields, the DUP cell and the reader are below the new block. */
  predicate NodApart(r: Dup, d: Nod, p: Loc) {
    p < d.next && r.loc < d.next && p != r.loc && d.at + Ari(d.head) <= d.next && !IsField(d, p) && !IsField(d, r.loc)
  }

  lemma NodParts(r: Dup, d: Nod, g: Graph, p: Loc)
    requires Wf(g) && DupRedex(r, g, p) && Fresh(g.live, d.next) && Ari(d.head) > 0
    requires Holds(g, r.loc, Node(d.head, d.at))
    ensures NodApart(r, d, p) && g.live[r.loc].rank > 0
    ensures forall m :: IsField(d, m) ==> m in g.live && m in g.h
  {
    var t := Node(d.head, d.at);
    assert TermOk(g, r.loc, t);
    forall m | IsField(d, m)
      ensures RefOk(g, r.loc, t, m)
    {
      assert InFoot(t, m);
    }
    assert IsField(d, d.at) && IsField(d, d.at + Ari(d.head) - 1);
  }

  lemma NodCells(r: Dup, d: Nod, c: Change, ws: Cells)
    requires NodApart(r, d, c.p) && NodPuts(r, d, ws) && (forall m :: IsField(d, m) ==> m in c.g1.h)
    requires c.g2.h == (c.g1.h + ws)[c.p := C(CopyTerm(d, r.i))]
    ensures NodWrites(r, d, c)
  {
  }

  lemma NodRange(d: Nod)
    ensures forall m :: m in Range(d.next, 2 * Ari(d.head)) <==> InCopy(d, 0, m) || InCopy(d, 1, m)
  {
  }

  lemma NodFields(r: Dup, d: Nod, c: Change)
    requires NodApart(r, d, c.p) && Fresh(c.g1.live, d.next) && (forall m :: IsField(d, m) ==> m in c.g1.live)
    requires r.loc in c.g1.live && c.g1.live[r.loc].rank > 0 && c.g2.live == NodLive(r, d, c.g1, c.p)
    ensures forall m :: IsField(d, m) ==>
              InfoIs(c.g2.live, m, Info(4 * c.g1.live[m].rank, Copy(d, 0) + (m - d.at), Copy(d, 1) + (m - d.at), r.lab))
  {
    assert forall m, i: bit :: InCopy(d, i, m) ==> m !in c.g1.live;
  }

  lemma NodCopies(r: Dup, d: Nod, c: Change)
    requires NodApart(r, d, c.p) && Fresh(c.g1.live, d.next)
    requires r.loc in c.g1.live && c.g1.live[r.loc].rank > 0 && c.g2.live == NodLive(r, d, c.g1, c.p)
    ensures var n := 4 * c.g1.live[r.loc].rank;
            && (forall m :: InCopy(d, r.i, m) ==> InfoIs(c.g2.live, m, Own(n - 1, c.p)))
            && (forall m :: InCopy(d, Flip(r.i), m) ==> InfoIs(c.g2.live, m, Own(n - 1, r.loc)))
            && (forall m :: m in c.g2.live ==> m in c.g1.live || InCopy(d, 0, m) || InCopy(d, 1, m))
  {
    NodRange(d);
    assert forall m :: InCopy(d, r.i, m) || InCopy(d, Flip(r.i), m) ==> InCopy(d, 0, m) || InCopy(d, 1, m);
  }

  lemma NodTableIt(r: Dup, d: Nod, c: Change)
    requires NodApart(r, d, c.p) && Fresh(c.g1.live, d.next) && (forall m :: IsField(d, m) ==> m in c.g1.live)
    requires r.loc in c.g1.live && c.g1.live[r.loc].rank > 0 && c.g2.live == NodLive(r, d, c.g1, c.p)
    ensures NodTable(r, d, c)
  {
    NodFields(r, d, c);
    NodCopies(r, d, c);
  }

  lemma NodKept(r: Dup, d: Nod, c: Change, ws: Cells)
    requires NodApart(r, d, c.p) && NodPuts(r, d, ws) && Fresh(c.g1.live, d.next)
    requires r.loc in c.g1.live && c.g1.live[r.loc].rank > 0 && c.g2.live == NodLive(r, d, c.g1, c.p)
    requires c.g2.h == (c.g1.h + ws)[c.p := C(CopyTerm(d, r.i))] && c.p in c.g1.h && !c.g1.h[c.p].sub
    requires c.x == {r.loc} + Range(d.at, Ari(d.head)) && c.moves == map m | m in Range(d.at, Ari(d.head)) :: m
    ensures CellsKept(c) && LiveKept(c)
  {
    assert forall m :: m in c.x <==> m == r.loc || IsField(d, m);
  }

  lemma NodReady(r: Dup, d: Nod, g: Graph, p: Loc, out: Out)
    requires Wf(g) && DupRedex(r, g, p) && Fresh(g.live, d.next) && Ari(d.head) > 0 && d.head != HSup(r.lab)
    requires !d.head.HPart?
    requires Holds(g, r.loc, Node(d.head, d.at)) && out == DupNodOut(d.next, r.i, r.lab, r.loc, d.head, d.at)
    ensures g.live[r.loc].rank > 0 && NodStep(r, d, NodChange(r, d, g, p, out))
  {
    NodParts(r, d, g, p);
    var c := NodChange(r, d, g, p, out);
    NodPutsIt(r, d);
    NodCells(r, d, c, out.ws);
    NodTableIt(r, d, c);
    NodKept(r, d, c, out.ws);
    assert TermOk(g, r.loc, Node(d.head, d.at));
  }

  lemma NodLast(r: Dup, d: Nod, c: Change, out: Out)
    requires Wf(c.g1) && NodStep(r, d, c) && out.next == d.next + 2 * Ari(d.head)
    requires c.g2.h == (c.g1.h + out.ws)[c.p := C(out.res)] && NodPuts(r, d, out.ws)
    ensures Fires(c.g1, c.g2, c.p, r.loc, out) && Fell(c.g1, c.g2, c.p)
  {
    NodWf(r, d, c);
    NodSound(r, d, c);
    NodBelow(r, d, c);
    DupOwnedFrom(r, c);
    ChangeFires(c, r.loc, out);
  }

  lemma NodBelow(r: Dup, d: Nod, c: Change)
    requires NodStep(r, d, c)
    ensures DupBelow(r, c)
  {
    forall m | m in c.x && m != r.loc
      ensures RefOk(c.g1, r.loc, Node(d.head, d.at), m)
    {
      assert InFoot(Node(d.head, d.at), m);
    }
  }

  lemma NodFires(h: Cells, g: Graph, next: Loc, p: Loc, i: bit, lab: Label, loc: Loc, head: Head, at: Loc)
    returns (g2: Graph)
    requires Redex(h, g, next, p, FDp(i, lab, loc), Node(head, at)) && Ari(head) > 0 && head != HSup(lab)
    requires !head.HPart?
    ensures Fires(g, g2, p, loc, DupNodOut(next, i, lab, loc, head, at)) && Fell(g, g2, p)
  {
    var r, d, out := Dup(i, lab, loc), Nod(head, at, next), DupNodOut(next, i, lab, loc, head, at);
    DupParts(r, g, p);
    NodReady(r, d, g, p, out);
    NodPutsIt(r, d);
    var c := NodChange(r, d, g, p, out);
    NodLast(r, d, c, out);
    g2 := c.g2;
  }

  // ---------------------------------------------------------------------------
  // EQL-CTR
  // ---------------------------------------------------------------------------

  /** Ids of the names SUC and CON. */
  const SYM_SUC := 1
  const SYM_CON := 3

  function EqlCtrOut(h: Cells, next: Loc, loc: Loc, nam: nat, n: nat, a: Loc, b: Loc): Out {
    var r := Pair(nam, loc, a, b, n);
    if nam == SYM_SUC && n == 1 then Out(SucWrites(r, h, next), Inc(next), next + 1, true)
    else if nam == SYM_CON && n == 2 then Out(ConWrites(r, h, next), Inc(next + 5), next + 6, true)
    else Out(ChainWrites(r, h, next, n), ChainTop(r, next, n), next + 4 * (n - 1), true)
  }

  /** All fields can be read from the heap. */
  lemma PairAgree(h: Cells, g: Graph, next: Loc, p: Loc, r: Pair)
    requires Redex(h, g, next, p, FEqR(r.loc), Ctr(r.nam, r.n, r.b)) && PairRedex(r, g, p)
    requires g.h[r.loc].term == Ctr(r.nam, r.n, r.a)
    ensures Agree(h, g.h, Ctr(r.nam, r.n, r.a)) && Agree(h, g.h, Ctr(r.nam, r.n, r.b))
  {
    var t, u := Ctr(r.nam, r.n, r.a), Ctr(r.nam, r.n, r.b);
    forall m | InFoot(t, m)
      ensures At(h, m) == At(g.h, m)
    {
      assert RefOk(g, r.loc, t, m);
    }
    forall m | InFoot(u, m)
      ensures At(h, m) == At(g.h, m)
    {
      assert RefOk(g, r.loc + 1, u, m);
    }
  }

  lemma PairInside(g: Graph, p: Loc, r: Pair)
    requires Wf(g) && PairRedex(r, g, p)
    ensures !Outside(g, p, r.loc) && !Outside(g, p, r.loc + 1)
  {
  }

  lemma SucFires(h: Cells, g: Graph, next: Loc, p: Loc, r: Pair) returns (g2: Graph)
    requires Wf(g) && Fresh(g.live, next) && PairRedex(r, g, p) && r.n == 1
    requires Agree(h, g.h, Ctr(r.nam, r.n, r.a)) && Agree(h, g.h, Ctr(r.nam, r.n, r.b))
    ensures Fires(g, g2, p, r.loc + 1, Out(SucWrites(r, h, next), Inc(next), next + 1, true)) && Fell(g, g2, p)
  {
    PairInside(g, p, r);
    SucReads(r, h, g.h, next);
    g2 := Suc(r, g, p, next);
  }

  lemma ConKeys(r: Pair, h: Cells, e: Loc)
    ensures forall m :: m in ConWrites(r, h, e) <==> m == r.loc || m == r.loc + 1 || e <= m < e + 6
  {
  }

  lemma ConFires(h: Cells, g: Graph, next: Loc, p: Loc, r: Pair, out: Out) returns (g2: Graph)
    requires Wf(g) && Fresh(g.live, next) && PairRedex(r, g, p) && r.n == 2
    requires Agree(h, g.h, Ctr(r.nam, r.n, r.a)) && Agree(h, g.h, Ctr(r.nam, r.n, r.b))
    requires out == Out(ConWrites(r, h, next), Inc(next + 5), next + 6, true)
    ensures Fires(g, g2, p, r.loc + 1, out) && Fell(g, g2, p)
  {
    PairInside(g, p, r);
    ConReadsSame(r, h, g.h, next);
    g2 := Con(r, g, p, next, out.ws, out.res.loc);
    ConKeys(r, h, next);
    ConMade(g, g2, p, r, next, out);
  }

  /** What is written is inside the redex or new, and all that is new is written. */
  lemma ConMade(g: Graph, g2: Graph, p: Loc, r: Pair, next: Loc, out: Out)
    requires Fresh(g.live, next) && out.next == next + 6 && !Outside(g, p, r.loc) && !Outside(g, p, r.loc + 1)
    requires forall m :: m in out.ws <==> m == r.loc || m == r.loc + 1 || next <= m < next + 6
    requires forall m :: m in g2.live ==> m in g.live || next <= m < next + 6
    ensures forall m :: m in out.ws && m in g.live ==> !Outside(g, p, m)
    ensures forall m :: m in g2.live ==> m < out.next && (m in g.live || m in out.ws)
  {
  }

  lemma ChainFires(h: Cells, g: Graph, next: Loc, p: Loc, r: Pair) returns (g2: Graph)
    requires Wf(g) && Fresh(g.live, next) && PairRedex(r, g, p)
    requires Agree(h, g.h, Ctr(r.nam, r.n, r.a)) && Agree(h, g.h, Ctr(r.nam, r.n, r.b))
    ensures Fires(g, g2, p, r.loc + 1,
                  Out(ChainWrites(r, h, next, r.n), ChainTop(r, next, r.n), next + 4 * (r.n - 1), true))
            && Fell(g, g2, p)
  {
    PairInside(g, p, r);
    ChainReads(r, r, h, g.h, next, r.n);
    ChainKeys(r, h, next, r.n);
    g2 := Chain(r, g, p, next);
  }

  lemma EqlCtrFires(h: Cells, g: Graph, next: Loc, p: Loc, loc: Loc, nam: nat, n: nat, a: Loc, b: Loc)
    returns (g2: Graph)
    requires Redex(h, g, next, p, FEqR(loc), Ctr(nam, n, b)) && n > 0
    requires loc in g.live && g.h[loc].term == Ctr(nam, n, a)
    ensures Fires(g, g2, p, loc + 1, EqlCtrOut(h, next, loc, nam, n, a, b)) && Fell(g, g2, p)
  {
    var r := Pair(nam, loc, a, b, n);
    PairParts(r, g, p);
    PairAgree(h, g, next, p, r);
    if nam == SYM_SUC && n == 1 {
      g2 := SucFires(h, g, next, p, r);
    } else if nam == SYM_CON && n == 2 {
      g2 := ConFires(h, g, next, p, r, EqlCtrOut(h, next, loc, nam, n, a, b));
    } else {
      g2 := ChainFires(h, g, next, p, r);
    }
  }

  lemma SucReads(r: Pair, h: Cells, h': Cells, t: Loc)
    requires r.n == 1 && Agree(h, h', Ctr(r.nam, r.n, r.a)) && Agree(h, h', Ctr(r.nam, r.n, r.b))
    ensures SucWrites(r, h, t) == SucWrites(r, h', t)
  {
    assert InFoot(Ctr(r.nam, r.n, r.a), r.a) && InFoot(Ctr(r.nam, r.n, r.b), r.b);
  }

  lemma ConReadsSame(r: Pair, h: Cells, h': Cells, e: Loc)
    requires r.n == 2 && Agree(h, h', Ctr(r.nam, r.n, r.a)) && Agree(h, h', Ctr(r.nam, r.n, r.b))
    ensures ConWrites(r, h, e) == ConWrites(r, h', e)
  {
    assert InFoot(Ctr(r.nam, r.n, r.a), r.a) && InFoot(Ctr(r.nam, r.n, r.b), r.b);
    assert InFoot(Ctr(r.nam, r.n, r.a), r.a + 1) && InFoot(Ctr(r.nam, r.n, r.b), r.b + 1);
  }
}
