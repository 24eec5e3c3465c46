/**
 The interaction rules of `clang/wnf` as heap updates in place. Each rule comes as facts about the
 cells it leaves (`...Writes`), the table that fits them (`...Table`), both together (`...Step`), and two
 lemmas: the heap stays well-formed (`...Wf`) and every cell not overwritten keeps its meaning
 (`...Sound`).
 */
module Rules {
  import opened U32Ops
  import opened Calculus
  import opened Reduction
  import opened Laws
  import opened Heap

  function Sup(lab: Label, loc: Loc): Term {
    Node(HSup(lab), loc)
  }

  function Bin(k: Kind, loc: Loc): Term {
    Node(HBin(k), loc)
  }

  function Inc(loc: Loc): Term {
    Node(HInc, loc)
  }

  function Part(opr: nat, x: u32, loc: Loc): Term {
    Node(HPart(opr, x), loc)
  }

  ghost predicate Fresh(live: map<Loc, Info>, next: Loc) {
    forall l :: l in live ==> l < next
  }

  /** Live cell `l` holds the term `t`. */
  ghost predicate Holds(g: Graph, l: Loc, t: Term) {
    l in g.live && IsCell(g.h, l, t)
  }

  predicate IsCell(h: Cells, l: Loc, t: Term) {
    l in h && h[l] == Cell(false, t)
  }

  ghost predicate InfoIs(live: map<Loc, Info>, l: Loc, i: Info) {
    l in live && live[l] == i
  }

  ghost function Own(rank: nat, owner: Loc): Info {
    Info(rank, owner, owner, 0)
  }

  ghost function Top2(live: map<Loc, Info>, loc: Loc): nat
    requires loc in live && loc + 1 in live
  {
    if live[loc].rank < live[loc + 1].rank then live[loc + 1].rank else live[loc].rank
  }

  // ---------------------------------------------------------------------------
  // Reading one node
  // ---------------------------------------------------------------------------

  predicate IsAtom(t: Term) {
    !t.Dp? && (t.Node? ==> Ari(t.head) == 0)
  }

  function AtomTree(t: Term): Tree
    requires IsAtom(t)
  {
    match t
    case Num(n) => TNum(n)
    case Era => TEra
    case Any => TAny
    case Nam(tag, ext, val) => TNam(tag, ext, val)
    case Node(head, _) => Build(head, [])
  }

  lemma ReadAtom(g: Graph, l: Loc)
    requires Wf(g) && l in g.live && IsAtom(g.h[l].term)
    ensures ReadAt(g, l) == AtomTree(g.h[l].term)
  {
  }

  lemma ReadBin(g: Graph, l: Loc, k: Kind, loc: Loc)
    requires Wf(g) && l in g.live && g.h[l].term == Bin(k, loc)
    ensures loc in g.live && loc + 1 in g.live
    ensures ReadAt(g, l) == TBin(k, ReadAt(g, loc), ReadAt(g, loc + 1))
  {
    assert InFoot(g.h[l].term, loc) && InFoot(g.h[l].term, loc + 1);
  }

  lemma ReadSup(g: Graph, l: Loc, lab: Label, loc: Loc)
    requires Wf(g) && l in g.live && g.h[l].term == Sup(lab, loc)
    ensures loc in g.live && loc + 1 in g.live
    ensures ReadAt(g, l) == TSup(lab, ReadAt(g, loc), ReadAt(g, loc + 1))
  {
    assert InFoot(g.h[l].term, loc) && InFoot(g.h[l].term, loc + 1);
  }

  lemma ReadInc(g: Graph, l: Loc, loc: Loc)
    requires Wf(g) && l in g.live && g.h[l].term == Inc(loc)
    ensures loc in g.live && ReadAt(g, l) == TInc(ReadAt(g, loc))
  {
    assert InFoot(g.h[l].term, loc);
  }

  lemma ReadPart(g: Graph, l: Loc, opr: nat, x: u32, loc: Loc)
    requires Wf(g) && l in g.live && g.h[l].term == Part(opr, x, loc)
    ensures loc in g.live && ReadAt(g, l) == TBin(KOp2(opr), TNum(x), ReadAt(g, loc))
  {
    assert InFoot(g.h[l].term, loc);
  }

  lemma ReadDp(g: Graph, l: Loc, i: bit, lab: Label, loc: Loc)
    requires Wf(g) && l in g.live && g.h[l].term == Dp(i, lab, loc)
    ensures loc in g.live
    ensures ReadAt(g, l) == if g.h[loc].sub then ReadAt(g, loc) else TDp(i, lab, ReadAt(g, loc))
  {
    assert InFoot(g.h[l].term, loc);
  }

  /** The trees below a node. */
  ghost function Kids(g: Graph, t: Term, l: Loc): seq<Tree>
    requires Wf(g) && l in g.live && g.h[l].term == t && t.Node?
  {
    seq(Ari(t.head),
        k requires 0 <= k < Ari(t.head) => assert TermOk(g, l, t) && InFoot(t, t.loc + k); ReadAt(g, t.loc + k))
  }

  lemma ReadNode(g: Graph, t: Term, l: Loc)
    requires Wf(g) && l in g.live && g.h[l].term == t && t.Node?
    ensures ReadAt(g, l) == Build(t.head, Kids(g, t, l))
  {
    assert Read(g, g.live[l].rank, t) == Build(t.head, Kids(g, t, l)) by {
      assert TermOk(g, l, t);
      assert seq(Ari(t.head),
                 i requires 0 <= i < Ari(t.head) => assert InFoot(t, t.loc + i); ReadAt(g, t.loc + i)) == Kids(g, t, l);
    }
  }

  // ---------------------------------------------------------------------------
  // Rules that drop cells: the redex becomes an atom, one of its fields, or a `(x op [])` frame
  // ---------------------------------------------------------------------------

  ghost function ShrinkLive(live: map<Loc, Info>, x: set<Loc>, moves: map<Loc, Loc>): map<Loc, Info> {
    map m | m in live.Keys - x :: Respread(live[m], moves)
  }

  /** The cells `x` of the redex go, and at most the term of one of them stays, in `p`. */
  ghost predicate ShrinkStep(c: Change) {
    && c.p in c.g1.live && c.p in c.g1.h && c.p !in c.x && c.p in c.g2.h && !c.g2.h[c.p].sub && !c.g1.h[c.p].sub
    && (forall m :: m in c.x ==>
          m in c.g1.live && c.g1.live[m].own0 == c.g1.live[m].own1 == c.p && c.g1.live[m].rank < c.g1.live[c.p].rank)
    && CellsKept(c) && c.g2.live == ShrinkLive(c.g1.live, c.x, c.moves)
    && c.o == {c.p} && c.tw == Era
    && (forall f :: f in c.moves ==> f in c.x && f in c.g1.h && c.moves[f] == c.p && c.g2.h[c.p].term == c.g1.h[f].term)
  }

  lemma ShrinkIsChange(c: Change)
    requires Wf(c.g1) && ShrinkStep(c)
    ensures IsChange(c) && TwinOnly(c)
  {
    OwnedByTable(c);
  }

  lemma ShrinkWf(c: Change)
    requires Wf(c.g1) && ShrinkStep(c)
    requires TermOk(c.g2, c.p, c.g2.h[c.p].term)
    ensures IsChange(c) && TwinOnly(c) && Wf(c.g2)
  {
    ShrinkIsChange(c);
    ChangeWf(c, {c.p});
  }

  /** The redex computes to an atom. */
  lemma AtomSound(c: Change)
    requires Wf(c.g1) && ShrinkStep(c) && IsAtom(c.g2.h[c.p].term)
    requires Reduces(ReadAt(c.g1, c.p), AtomTree(c.g2.h[c.p].term))
    ensures IsChange(c) && Wf(c.g2) && Sound(c) && Fell(c.g1, c.g2, c.p)
  {
    ShrinkWf(c);
    ReadAtom(c.g2, c.p);
    NoTwin(c);
    ChangeSound(c);
  }

  /** The redex becomes its field `f`. */
  lemma ForwardSound(c: Change, f: Loc)
    requires Wf(c.g1) && ShrinkStep(c) && f in c.moves
    requires Same(ReadAt(c.g1, c.p), ReadAt(c.g1, f))
    ensures IsChange(c) && Wf(c.g2) && Sound(c) && (Falls(ReadAt(c.g1, c.p), ReadAt(c.g1, f)) ==> Fell(c.g1, c.g2, c.p))
  {
    ShrinkIsChange(c);
    MovedOk(c, f);
    ShrinkWf(c);
    NoTwin(c);
    MovedSame(c, f);
    SameTrans(ReadAt(c.g1, c.p), ReadAt(c.g1, f), ReadAt(c.g2, c.p));
    ChangeSound(c);
  }

  /** An `OP2` node whose first field is a number turns into the frame for its second one. */
  lemma OpenSound(c: Change, opr: nat, n: u32, loc: Loc)
    requires Wf(c.g1) && ShrinkStep(c) && c.x == {loc} && c.moves == map[]
    requires c.g1.h[c.p].term == Bin(KOp2(opr), loc) && loc in c.g1.h && c.g1.h[loc].term == Num(n)
    requires c.g2.h[c.p].term == Part(opr, n, loc + 1)
    ensures IsChange(c) && Wf(c.g2) && Sound(c)
  {
    assert TermOk(c.g1, c.p, c.g1.h[c.p].term);
    assert InFoot(c.g1.h[c.p].term, loc + 1);
    ShrinkWf(c);
    ReadBin(c.g1, c.p, KOp2(opr), loc);
    ReadPart(c.g2, c.p, opr, n, loc + 1);
    NoTwin(c);
    FrameCell(c, loc + 1);
    SameSelf(TNum(n));
    SameBin(KOp2(opr), TNum(n), ReadAt(c.g1, loc + 1), TNum(n), ReadAt(c.g2, loc + 1));
    ChangeSound(c);
  }

  // ---------------------------------------------------------------------------
  // OP2-SUP, AND-SUP, OR-SUP, EQL-SUP-L and EQL-SUP-R
  // ---------------------------------------------------------------------------

  /**
   A `k` node at `loc` with strict field `x` and other field `y`, the superposition `&lab` at `sup` in
   `x`, the DUP cell made for `y`, and the new node with its fields.
   */
  datatype BinSup = BinSup(k: Kind, lab: Label, loc: Loc, x: Loc, y: Loc, sup: Loc,
                           dup: Loc, new1: Loc, x1: Loc, y1: Loc)

  predicate BinSupFields(r: BinSup) {
    && ((r.x == r.loc && r.y == r.loc + 1 && r.x1 == r.new1 && r.y1 == r.new1 + 1)
        || (r.y == r.loc && r.x == r.loc + 1 && r.y1 == r.new1 && r.x1 == r.new1 + 1))
    && r.new1 == r.dup + 1
  }

  predicate BinSupApart(r: BinSup, p: Loc) {
    && BinSupFields(r)
    && p < r.dup && r.loc + 1 < r.dup && r.sup + 1 < r.dup
    && p != r.loc && p != r.loc + 1 && p != r.sup && p != r.sup + 1
    && r.loc != r.sup && r.loc != r.sup + 1 && r.loc + 1 != r.sup
  }

  function BinSupMoves(r: BinSup): map<Loc, Loc> {
    map[r.sup := r.x, r.sup + 1 := r.x1, r.y := r.dup]
  }

  /** What the writes leave behind. */
  ghost predicate BinSupWrites(r: BinSup, c: Change) {
    && IsCell(c.g2.h, c.p, Sup(r.lab, r.sup))
    && IsCell(c.g2.h, r.sup, Bin(r.k, r.loc)) && IsCell(c.g2.h, r.sup + 1, Bin(r.k, r.new1))
    && IsCell(c.g2.h, r.x, At(c.g1.h, r.sup)) && IsCell(c.g2.h, r.y, Dp(0, r.lab, r.dup))
    && IsCell(c.g2.h, r.x1, At(c.g1.h, r.sup + 1)) && IsCell(c.g2.h, r.y1, Dp(1, r.lab, r.dup))
    && IsCell(c.g2.h, r.dup, At(c.g1.h, r.y))
    && CellsKept(c)
  }

  ghost function BinSupLive(r: BinSup, p: Loc, live: map<Loc, Info>): map<Loc, Info>
    requires r.loc in live && r.loc + 1 in live
  {
    var n := 4 * Top2(live, r.loc);
    map m | m in live.Keys + {r.dup, r.x1, r.y1} ::
      if m == r.sup || m == r.sup + 1 then Own(n + 2, p)
      else if m == r.x || m == r.y then Own(n + 1, r.sup)
      else if m == r.x1 || m == r.y1 then Own(n + 1, r.sup + 1)
      else if m == r.dup then Info(n, r.y, r.y1, r.lab)
      else Respread(live[m], BinSupMoves(r))
  }

  ghost predicate BinSupTable(r: BinSup, c: Change)
    requires r.loc in c.g1.live && r.loc + 1 in c.g1.live
  {
    var n := 4 * Top2(c.g1.live, r.loc);
    && InfoIs(c.g2.live, r.sup, Own(n + 2, c.p)) && InfoIs(c.g2.live, r.sup + 1, Own(n + 2, c.p))
    && InfoIs(c.g2.live, r.x, Own(n + 1, r.sup)) && InfoIs(c.g2.live, r.y, Own(n + 1, r.sup))
    && InfoIs(c.g2.live, r.x1, Own(n + 1, r.sup + 1)) && InfoIs(c.g2.live, r.y1, Own(n + 1, r.sup + 1))
    && InfoIs(c.g2.live, r.dup, Info(n, r.y, r.y1, r.lab))
    && LiveKept(c)
    && (forall m :: m in c.g2.live ==> m in c.g1.live || m in {r.dup, r.x1, r.y1})
  }

  lemma BinSupTableIt(r: BinSup, c: Change)
    requires BinSupApart(r, c.p) && forall m :: m in {c.p, r.loc, r.loc + 1, r.sup, r.sup + 1} ==> m in c.g1.live
    requires forall m :: m in c.g1.live ==> m < r.dup
    requires c.g2.live == BinSupLive(r, c.p, c.g1.live) && c.x == {r.loc, r.loc + 1, r.sup, r.sup + 1}
    requires c.moves == BinSupMoves(r)
    ensures BinSupTable(r, c)
  {
  }

  /** The cells of the redex are apart. */
  lemma BinSupParts(r: BinSup, g: Graph, p: Loc)
    requires Wf(g) && Fresh(g.live, r.dup) && BinSupFields(r)
    requires Holds(g, p, Bin(r.k, r.loc)) && r.x in g.h && g.h[r.x].term == Sup(r.lab, r.sup)
    ensures RefOk(g, p, Bin(r.k, r.loc), r.loc) && RefOk(g, p, Bin(r.k, r.loc), r.loc + 1)
    ensures RefOk(g, r.x, Sup(r.lab, r.sup), r.sup) && RefOk(g, r.x, Sup(r.lab, r.sup), r.sup + 1)
    ensures BinSupApart(r, p) && Holds(g, r.x, Sup(r.lab, r.sup))
  {
    assert InFoot(g.h[p].term, r.loc) && InFoot(g.h[p].term, r.loc + 1);
    assert TermOk(g, p, Bin(r.k, r.loc));
    assert InFoot(g.h[r.x].term, r.sup) && InFoot(g.h[r.x].term, r.sup + 1);
    assert TermOk(g, r.x, Sup(r.lab, r.sup));
  }

  /** The rule as a change of the heap. */
  ghost predicate BinSupStep(r: BinSup, c: Change) {
    && Holds(c.g1, c.p, Bin(r.k, r.loc)) && BinSupApart(r, c.p)
    && RefOk(c.g1, c.p, Bin(r.k, r.loc), r.loc) && RefOk(c.g1, c.p, Bin(r.k, r.loc), r.loc + 1)
    && Holds(c.g1, r.x, Sup(r.lab, r.sup))
    && RefOk(c.g1, r.x, Sup(r.lab, r.sup), r.sup) && RefOk(c.g1, r.x, Sup(r.lab, r.sup), r.sup + 1)
    && BinSupWrites(r, c) && BinSupTable(r, c)
    && c.x == {r.loc, r.loc + 1, r.sup, r.sup + 1} && c.o == {c.p, r.x} && c.moves == BinSupMoves(r) && c.tw == Era
  }

  lemma BinSupOwned(r: BinSup, c: Change)
    requires Wf(c.g1) && BinSupStep(r, c)
    ensures Owned(c)
  {
    OwnedByTable(c);
  }

  lemma BinSupCarries(r: BinSup, c: Change)
    requires Wf(c.g1) && BinSupStep(r, c)
    ensures Moves(c)
  {
  }

  lemma BinSupIsChange(r: BinSup, c: Change)
    requires Wf(c.g1) && BinSupStep(r, c)
    ensures IsChange(c)
  {
    BinSupOwned(r, c);
    BinSupCarries(r, c);
  }

  lemma BinSupNew(r: BinSup, c: Change)
    requires BinSupStep(r, c)
    ensures CellOk(c.g2, c.p) && CellOk(c.g2, r.sup) && CellOk(c.g2, r.sup + 1) && CellOk(c.g2, r.y)
    ensures CellOk(c.g2, r.y1)
  {
  }

  lemma BinSupWf(r: BinSup, c: Change)
    requires Wf(c.g1) && BinSupStep(r, c)
    ensures IsChange(c) && Wf(c.g2) && TwinOnly(c)
  {
    BinSupIsChange(r, c);
    BinSupNew(r, c);
    MovedOk(c, r.sup);
    MovedOk(c, r.sup + 1);
    MovedOk(c, r.y);
    ChangeWf(c, {c.p, r.sup, r.sup + 1, r.x, r.y, r.x1, r.y1, r.dup});
  }

  lemma BinSupBefore(r: BinSup, c: Change)
    requires Wf(c.g1) && BinSupStep(r, c)
    ensures var s := TSup(r.lab, ReadAt(c.g1, r.sup), ReadAt(c.g1, r.sup + 1));
            var y := ReadAt(c.g1, r.y);
            ReadAt(c.g1, c.p) == if r.x == r.loc then TBin(r.k, s, y) else TBin(r.k, y, s)
  {
    ReadBin(c.g1, c.p, r.k, r.loc);
    ReadSup(c.g1, r.x, r.lab, r.sup);
  }

  lemma BinSupAfter(r: BinSup, c: Change)
    requires BinSupStep(r, c) && Wf(c.g2)
    ensures var (a, b, y) := (ReadAt(c.g2, r.x), ReadAt(c.g2, r.x1), ReadAt(c.g2, r.dup));
            ReadAt(c.g2, c.p) ==
              if r.x == r.loc then TSup(r.lab, TBin(r.k, a, TDp(0, r.lab, y)), TBin(r.k, b, TDp(1, r.lab, y)))
              else TSup(r.lab, TBin(r.k, TDp(0, r.lab, y), a), TBin(r.k, TDp(1, r.lab, y), b))
  {
    ReadSup(c.g2, c.p, r.lab, r.sup);
    ReadBin(c.g2, r.sup, r.k, r.loc);
    ReadBin(c.g2, r.sup + 1, r.k, r.new1);
    ReadDp(c.g2, r.y, 0, r.lab, r.dup);
    ReadDp(c.g2, r.y1, 1, r.lab, r.dup);
  }

  lemma BinSupMovedSame(r: BinSup, c: Change)
    requires BinSupStep(r, c) && IsChange(c) && Wf(c.g2) && TwinOnly(c)
    ensures Same(ReadAt(c.g1, r.sup), ReadAt(c.g2, r.x)) && Same(ReadAt(c.g1, r.sup + 1), ReadAt(c.g2, r.x1))
    ensures Same(ReadAt(c.g1, r.y), ReadAt(c.g2, r.dup))
  {
    NoTwin(c);
    MovedSame(c, r.sup);
    MovedSame(c, r.sup + 1);
    MovedSame(c, r.y);
  }

  lemma BinSupSound(r: BinSup, c: Change)
    requires BinSupStep(r, c) && IsChange(c) && Wf(c.g2) && TwinOnly(c)
    ensures Sound(c) && Fell(c.g1, c.g2, c.p)
  {
    BinSupMovedSame(r, c);
    BinSupBefore(r, c);
    BinSupAfter(r, c);
    var (a, b, y) := (ReadAt(c.g1, r.sup), ReadAt(c.g1, r.sup + 1), ReadAt(c.g1, r.y));
    if r.x == r.loc {
      BinSupLeft(r.k, r.lab, a, b, y, ReadAt(c.g2, r.x), ReadAt(c.g2, r.x1), ReadAt(c.g2, r.dup));
    } else {
      BinSupRight(r.k, r.lab, y, a, b, ReadAt(c.g2, r.dup), ReadAt(c.g2, r.x), ReadAt(c.g2, r.x1));
    }
    NoTwin(c);
    ChangeSound(c);
  }
}
