/**
 Terms in the heap. A node is a run of cells, shared expressions sit in DUP cells that up to two terms
 (`DP0` and `DP1`) point at, and the interaction rules overwrite nodes in place.

 A heap comes with a table of its live cells. The table gives each live cell its owner, the one live
 cell whose term points at it (for a DUP cell, one owner a side), and a rank that falls along every
 reference.
 */
module Heap {
  import opened U32Ops
  import opened Calculus
  import opened Reduction

  type Loc = int

  /** What a node is, apart from its fields. `HPart` is the frame `(x op [])` seen as a node. */
  datatype Head =
    | HCtr(nam: nat, n: nat)
    | HSup(lab: Label)
    | HBin(k: Kind)
    | HPart(opr: nat, x: u32)
    | HInc

  /** The number of fields. */
  function Ari(head: Head): nat {
    match head
    case HCtr(_, n) => n
    case HSup(_) => 2
    case HBin(_) => 2
    case HPart(_, _) => 1
    case HInc => 1
  }

  /** A word of the heap without its SUB bit. The fields of a node are the cells from `loc` on. */
  datatype Term =
    | Num(n: u32)
    | Era
    | Any
    | Nam(tag: nat, ext: nat, val: nat)
    | Node(head: Head, loc: Loc)
    | Dp(side: bit, lab: Label, loc: Loc)

  datatype Cell = Cell(sub: bool, term: Term)
  type Cells = map<Loc, Cell>

  datatype Info = Info(rank: nat, own0: Loc, own1: Loc, lab: Label)
  datatype Graph = Graph(h: Cells, live: map<Loc, Info>)

  predicate InFoot(t: Term, m: Loc) {
    (t.Node? && t.loc <= m < t.loc + Ari(t.head)) || (t.Dp? && m == t.loc)
  }

  function Owner(i: Info, side: bit): Loc {
    if side == 0 then i.own0 else i.own1
  }

  /** The term `t` of cell `l` may point at cell `m`. A substituted cell has one reader left. */
  predicate RefOk(g: Graph, l: Loc, t: Term, m: Loc)
    requires l in g.live
  {
    && m in g.live && m in g.h
    && g.live[m].rank < g.live[l].rank
    && if t.Dp? then
         && Owner(g.live[m], t.side) == l
         && g.live[m].lab == t.lab
         && (g.h[m].sub ==> Owner(g.live[m], 1 - t.side) == l)
       else
         g.live[m].own0 == l && g.live[m].own1 == l && !g.h[m].sub
  }

  ghost predicate TermOk(g: Graph, l: Loc, t: Term)
    requires l in g.live
  {
    forall m :: InFoot(t, m) ==> RefOk(g, l, t, m)
  }

  ghost predicate Wf(g: Graph) {
    forall l :: l in g.live ==> l in g.h && TermOk(g, l, g.h[l].term)
  }

  /** The cells `t` points at are live and of rank below `b`. */
  ghost predicate Under(g: Graph, b: nat, t: Term) {
    forall m :: InFoot(t, m) ==> m in g.live && g.live[m].rank < b
  }

  /** The tree of a node. */
  function Build(head: Head, kids: seq<Tree>): Tree
    requires |kids| == Ari(head)
  {
    match head
    case HCtr(nam, _) => TCtr(nam, kids)
    case HSup(l) => TSup(l, kids[0], kids[1])
    case HBin(k) => TBin(k, kids[0], kids[1])
    case HPart(opr, x) => TBin(KOp2(opr), TNum(x), kids[0])
    case HInc => TInc(kids[0])
  }

  /** The tree that `t` stands for. Reading a substituted cell needs no `DUP` any more. */
  ghost function Read(g: Graph, b: nat, t: Term): Tree
    requires Wf(g) && Under(g, b, t)
    decreases b, 0
  {
    match t
    case Num(n) => TNum(n)
    case Era => TEra
    case Any => TAny
    case Nam(tag, ext, val) => TNam(tag, ext, val)
    case Node(head, loc) =>
      Build(head, seq(Ari(head), i requires 0 <= i < Ari(head) => assert InFoot(t, loc + i); ReadAt(g, loc + i)))
    case Dp(i, l, loc) =>
      assert InFoot(t, loc);
      if g.h[loc].sub then ReadAt(g, loc) else TDp(i, l, ReadAt(g, loc))
  }

  /** The tree in cell `m`. */
  ghost function ReadAt(g: Graph, m: Loc): Tree
    requires Wf(g) && m in g.live
    decreases g.live[m].rank, 1
  {
    Read(g, g.live[m].rank, g.h[m].term)
  }

  // ---------------------------------------------------------------------------
  // Terms below
  // ---------------------------------------------------------------------------

  lemma SameBuild(head: Head, xs: seq<Tree>, ys: seq<Tree>)
    requires |xs| == |ys| == Ari(head) && forall i :: 0 <= i < |xs| ==> Same(xs[i], ys[i])
    ensures Same(Build(head, xs), Build(head, ys))
  {
    match head
    case HCtr(nam, _) => SameCtr(nam, xs, ys);
    case HSup(l) => SameSup(l, xs[0], xs[1], ys[0], ys[1]);
    case HBin(k) => SameBin(k, xs[0], xs[1], ys[0], ys[1]);
    case HPart(opr, x) => SameBin(KOp2(opr), TNum(x), xs[0], TNum(x), ys[0]);
    case HInc => SameInc(xs[0], ys[0]);
  }

  /** Equal cells below mean equal terms. */
  lemma SameBelow(g1: Graph, g2: Graph, b1: nat, b2: nat, t: Term)
    requires Wf(g1) && Wf(g2) && Under(g1, b1, t) && Under(g2, b2, t)
    requires forall m :: InFoot(t, m) ==> Same(ReadAt(g1, m), ReadAt(g2, m))
    requires t.Dp? ==> InFoot(t, t.loc) && g1.h[t.loc].sub == g2.h[t.loc].sub
    ensures Same(Read(g1, b1, t), Read(g2, b2, t))
  {
    if t.Node? {
      var xs := seq(Ari(t.head), i requires 0 <= i < Ari(t.head) => assert InFoot(t, t.loc + i); ReadAt(g1, t.loc + i));
      var ys := seq(Ari(t.head), i requires 0 <= i < Ari(t.head) => assert InFoot(t, t.loc + i); ReadAt(g2, t.loc + i));
      SameBuild(t.head, xs, ys);
    } else if t.Dp? {
      assert InFoot(t, t.loc);
      SameDp(t.side, t.lab, ReadAt(g1, t.loc), ReadAt(g2, t.loc));
    } else {
      SameSelf(Read(g1, b1, t));
    }
  }

  // ---------------------------------------------------------------------------
  // Overwriting cells
  // ---------------------------------------------------------------------------

  function Put(h: Cells, l: Loc, t: Term): Cells {
    h[l := Cell(false, t)]
  }

  function At(h: Cells, l: Loc): Term {
    if l in h then h[l].term else Era
  }

  /** An entry whose rank is spread to make room, and whose owners follow the terms that move. */
  ghost function Respread(i: Info, moves: map<Loc, Loc>): Info {
    Info(4 * i.rank, Moved(moves, i.own0), Moved(moves, i.own1), i.lab)
  }

  function Moved(moves: map<Loc, Loc>, l: Loc): Loc {
    if l in moves then moves[l] else l
  }

  ghost predicate Away(t: Term, x: set<Loc>) {
    forall m :: m in x ==> !InFoot(t, m)
  }

  /**
   One interaction, seen from outside: `g2` is `g1` with the redex in cell `p` replaced. The cells `x`
   are overwritten; they are owned by the cells `o`. The terms in the cells `moves.Keys`, all in `x`,
   survive, in the cells they move to. The term `tw` is the second reader of a DUP cell in `x`.
   */
  datatype Change = Change(g1: Graph, g2: Graph, p: Loc, x: set<Loc>, o: set<Loc>, moves: map<Loc, Loc>, tw: Term)

  /** Outside `x` only the term in `p` changes. */
  ghost predicate CellsKept(c: Change) {
    forall m :: m in c.g1.live && m in c.g1.h && m !in c.x ==>
      m in c.g2.h && c.g2.h[m].sub == c.g1.h[m].sub && (m != c.p ==> c.g2.h[m] == c.g1.h[m])
  }

  /** Outside `x` live cells stay live, with the owners of moved terms adjusted. */
  ghost predicate LiveKept(c: Change) {
    forall m :: m in c.g1.live && m !in c.x ==> m in c.g2.live && c.g2.live[m] == Respread(c.g1.live[m], c.moves)
  }

  ghost predicate Patch(c: Change) {
    c.p in c.g1.live && c.p !in c.x && CellsKept(c) && LiveKept(c)
  }

  ghost predicate Carries(c: Change, f: Loc, l: Loc) {
    && f in c.g1.live && f in c.g1.h && l in c.g2.live && l in c.g2.h
    && f !in c.o
    && c.g2.h[l].term == c.g1.h[f].term
    && 4 * c.g1.live[f].rank <= c.g2.live[l].rank + 3
  }

  ghost predicate Moves(c: Change) {
    forall f :: f in c.moves ==> f in c.x && Carries(c, f, c.moves[f])
  }

  /** Only the cells `o` point into `x`. */
  ghost predicate Owned(c: Change) {
    forall l :: l in c.g1.live && l in c.g1.h && l !in c.o ==> Away(c.g1.h[l].term, c.x)
  }

  /** A root is a live cell that no live cell points at: it is its own owner. */
  predicate IsRoot(g: Graph, l: Loc) {
    l in g.live && g.live[l].own0 == l && g.live[l].own1 == l
  }

  /** What is overwritten lies below the redex, and is no root. */
  ghost predicate Below(c: Change) {
    forall m :: m in c.x ==>
      m in c.g1.live && c.p in c.g1.live && c.g1.live[m].rank < c.g1.live[c.p].rank && !IsRoot(c.g1, m)
  }

  ghost predicate IsChange(c: Change) {
    Wf(c.g1) && Patch(c) && Moves(c) && Owned(c) && Below(c)
  }

  /** Only an owner points at a cell. */
  lemma OwnedByTable(c: Change)
    requires Wf(c.g1)
    requires forall m :: m in c.x ==> m in c.g1.live && c.g1.live[m].own0 in c.o && c.g1.live[m].own1 in c.o
    ensures Owned(c)
  {
    forall l | l in c.g1.live && l !in c.o
      ensures Away(c.g1.h[l].term, c.x)
    {
      assert TermOk(c.g1, l, c.g1.h[l].term);
    }
  }

  /** A surviving term is as good in cell `to` as it was in cell `from`. */
  lemma SurvivorOk(c: Change, from: Loc, to: Loc)
    requires Wf(c.g1) && Patch(c) && from in c.g1.live && to in c.g2.live
    requires Moved(c.moves, from) == to && 4 * c.g1.live[from].rank <= c.g2.live[to].rank + 3
    requires forall m :: m in c.x && InFoot(c.g1.h[from].term, m) ==> RefOk(c.g2, to, c.g1.h[from].term, m)
    ensures TermOk(c.g2, to, c.g1.h[from].term)
  {
    var t := c.g1.h[from].term;
    forall m | InFoot(t, m)
      ensures RefOk(c.g2, to, t, m)
    {
      assert RefOk(c.g1, from, t, m);
    }
  }

  lemma MovedOk(c: Change, f: Loc)
    requires IsChange(c) && f in c.moves
    ensures Carries(c, f, c.moves[f]) && TermOk(c.g2, c.moves[f], c.g2.h[c.moves[f]].term)
  {
    assert Carries(c, f, c.moves[f]);
    SurvivorOk(c, f, c.moves[f]);
  }

  ghost predicate CellOk(g: Graph, l: Loc) {
    l in g.live && l in g.h && TermOk(g, l, g.h[l].term)
  }

  /** The live cells afterwards are those not overwritten, and the cells `made`. */
  ghost predicate Covers(c: Change, made: set<Loc>) {
    forall l :: l in c.g2.live ==> l in made || (l in c.g1.live && l !in c.x && l != c.p)
  }

  /** An owner of `x` that stays is still in order. */
  ghost predicate TwinOk(c: Change) {
    forall l :: l in c.o && l in c.g1.live && l !in c.x && l != c.p ==> CellOk(c.g2, l)
  }

  /** A change yields a well-formed heap, if the cells it makes and the second reader are in order. */
  lemma ChangeWf(c: Change, made: set<Loc>)
    requires IsChange(c) && Covers(c, made) && TwinOk(c)
    requires forall l :: l in made ==> CellOk(c.g2, l)
    ensures Wf(c.g2)
  {
    forall l | l in c.g2.live
      ensures l in c.g2.h && TermOk(c.g2, l, c.g2.h[l].term)
    {
      if l in made || l in c.o {
        assert CellOk(c.g2, l);
      } else {
        SurvivorOk(c, l, l);
      }
    }
  }

  // ---------------------------------------------------------------------------
  // What a change keeps
  // ---------------------------------------------------------------------------

  /** The second reader keeps its meaning, at any rank below `b`. */
  ghost predicate TwinKept(c: Change, b: nat)
    requires Wf(c.g1) && Wf(c.g2)
  {
    forall b1: nat, b2: nat :: Under(c.g1, b1, c.tw) && Under(c.g2, b2, c.tw) && b1 < b ==>
      Same(Read(c.g1, b1, c.tw), Read(c.g2, b2, c.tw))
  }

  /** Without a second reader there is nothing to keep. */
  lemma NoTwin(c: Change)
    requires Wf(c.g1) && Wf(c.g2) && c.tw == Era
    ensures forall b: nat :: TwinKept(c, b)
  {
    SameSelf(TEra);
  }

  /** Owners of `x` that stay hold the second reader. */
  ghost predicate TwinOnly(c: Change) {
    forall l :: l in c.g1.live && l in c.o && l !in c.x && l != c.p && l in c.g1.h ==>
      c.g1.h[l].term == c.tw || Away(c.g1.h[l].term, c.x)
  }

  lemma {:induction false} FrameTerm(c: Change, b1: nat, b2: nat, t: Term)
    requires IsChange(c) && Wf(c.g2) && TwinOnly(c)
    requires Under(c.g1, b1, t) && Under(c.g2, b2, t) && Away(t, c.x)
    requires b1 <= c.g1.live[c.p].rank || Same(ReadAt(c.g1, c.p), ReadAt(c.g2, c.p))
    requires TwinKept(c, b1)
    ensures Same(Read(c.g1, b1, t), Read(c.g2, b2, t))
    decreases b1, 0
  {
    forall m | InFoot(t, m)
      ensures Same(ReadAt(c.g1, m), ReadAt(c.g2, m)) && c.g1.h[m].sub == c.g2.h[m].sub
    {
      if m != c.p {
        FrameCell(c, m);
      }
    }
    SameBelow(c.g1, c.g2, b1, b2, t);
  }

  /** Every cell that is not overwritten keeps its meaning, if the terms below `p` are kept. */
  lemma {:induction false} FrameCell(c: Change, m: Loc)
    requires IsChange(c) && Wf(c.g2) && TwinOnly(c)
    requires m in c.g1.live && m !in c.x && m != c.p
    requires c.g1.live[m].rank <= c.g1.live[c.p].rank || Same(ReadAt(c.g1, c.p), ReadAt(c.g2, c.p))
    requires TwinKept(c, c.g1.live[m].rank + 1)
    ensures Same(ReadAt(c.g1, m), ReadAt(c.g2, m))
    decreases c.g1.live[m].rank, 1
  {
    var u := c.g1.h[m].term;
    assert TermOk(c.g1, m, u) && TermOk(c.g2, m, u);
    if u != c.tw {
      FrameTerm(c, c.g1.live[m].rank, c.g2.live[m].rank, u);
    }
  }

  /** A term that moves keeps its meaning. */
  lemma MovedSame(c: Change, f: Loc)
    requires IsChange(c) && Wf(c.g2) && TwinOnly(c) && f in c.moves
    requires c.g1.live[f].rank <= c.g1.live[c.p].rank && TwinKept(c, c.g1.live[f].rank)
    ensures Same(ReadAt(c.g1, f), ReadAt(c.g2, c.moves[f]))
  {
    assert Carries(c, f, c.moves[f]);
    var u := c.g1.h[f].term;
    assert TermOk(c.g1, f, u) && TermOk(c.g2, c.moves[f], u);
    FrameTerm(c, c.g1.live[f].rank, c.g2.live[c.moves[f]].rank, u);
  }

  /** The rewrite is sound: every cell that is not overwritten means what it meant. */
  ghost predicate Sound(c: Change)
    requires Wf(c.g1) && Wf(c.g2)
  {
    forall l :: l in c.g1.live && l !in c.x ==> l in c.g2.live && Same(ReadAt(c.g1, l), ReadAt(c.g2, l))
  }

  lemma ChangeSound(c: Change)
    requires IsChange(c) && Wf(c.g2) && TwinOnly(c) && c.p in c.g2.live
    requires Same(ReadAt(c.g1, c.p), ReadAt(c.g2, c.p))
    requires forall b: nat :: TwinKept(c, b)
    ensures Sound(c)
  {
    forall l | l in c.g1.live && l !in c.x
      ensures l in c.g2.live && Same(ReadAt(c.g1, l), ReadAt(c.g2, l))
    {
      if l != c.p {
        FrameCell(c, l);
      }
    }
  }

  // ---------------------------------------------------------------------------
  // Several changes in a row
  // ---------------------------------------------------------------------------

  ghost predicate HighOwner(g: Graph, p: Loc, l: Loc) {
    l in g.live && p in g.live && g.live[p].rank < g.live[l].rank
  }

  /** A cell that an interaction at `p` does not touch: above `p`, a root, or owned from above `p`. */
  ghost predicate Outside(g: Graph, p: Loc, m: Loc) {
    && m in g.live && p in g.live
    && (g.live[p].rank <= g.live[m].rank || IsRoot(g, m)
        || (HighOwner(g, p, g.live[m].own0) && HighOwner(g, p, g.live[m].own1)))
  }

  /** What is overwritten is owned by the redex, or by what is overwritten. */
  ghost predicate OwnedFrom(c: Change) {
    forall m :: m in c.x && m in c.g1.live ==> OneOf(c, c.g1.live[m].own0) || OneOf(c, c.g1.live[m].own1)
  }

  ghost predicate OneOf(c: Change, l: Loc) {
    l == c.p || l in c.x
  }

  /** One or more changes at `p` and below leave what is outside as it was, up to the meaning of `p`. */
  ghost predicate Kept(g1: Graph, g2: Graph, p: Loc) {
    && Wf(g1) && Wf(g2) && p in g1.live
    && (forall m :: Outside(g1, p, m) ==> m in g2.live && KeptCell(g1, g2, p, m))
    && (forall l, m :: Outside(g1, p, l) && Outside(g1, p, m) && g1.live[l].rank < g1.live[m].rank ==>
          g2.live[l].rank < g2.live[m].rank)
    && (forall l, m :: Outside(g1, p, l) && Outside(g1, p, m) && g1.live[l].rank == g1.live[m].rank ==>
          g2.live[l].rank == g2.live[m].rank)
  }

  ghost predicate KeptCell(g1: Graph, g2: Graph, p: Loc, m: Loc)
    requires Wf(g1) && Wf(g2) && m in g1.live && m in g2.live && p in g1.live
  {
    && Same(ReadAt(g1, m), ReadAt(g2, m))
    && g1.h[m].sub == g2.h[m].sub && (m != p ==> g1.h[m] == g2.h[m])
    && (IsRoot(g1, m) ==> IsRoot(g2, m))
    && (HighOwner(g1, p, g1.live[m].own0) && HighOwner(g1, p, g1.live[m].own1) ==>
         g2.live[m].own0 == g1.live[m].own0 && g2.live[m].own1 == g1.live[m].own1)
  }

  lemma ChangeOutside(c: Change, m: Loc)
    requires IsChange(c) && OwnedFrom(c) && Outside(c.g1, c.p, m)
    ensures m !in c.x && m in c.g2.live && c.g2.live[m].rank == 4 * c.g1.live[m].rank
    ensures IsRoot(c.g1, m) ==> IsRoot(c.g2, m)
    ensures HighOwner(c.g1, c.p, c.g1.live[m].own0) ==> c.g2.live[m].own0 == c.g1.live[m].own0
    ensures HighOwner(c.g1, c.p, c.g1.live[m].own1) ==> c.g2.live[m].own1 == c.g1.live[m].own1
  {
  }

  lemma ChangeKept(c: Change)
    requires IsChange(c) && OwnedFrom(c) && Wf(c.g2) && Sound(c)
    ensures Kept(c.g1, c.g2, c.p)
  {
    forall m | Outside(c.g1, c.p, m)
      ensures m in c.g2.live && c.g2.live[m].rank == 4 * c.g1.live[m].rank && KeptCell(c.g1, c.g2, c.p, m)
    {
      ChangeOutside(c, m);
    }
  }

  /** What is outside stays outside. */
  lemma KeptOutside(g1: Graph, g2: Graph, p: Loc, m: Loc)
    requires Kept(g1, g2, p) && Outside(g1, p, m)
    ensures Outside(g2, p, m)
  {
    assert Outside(g1, p, p);
    assert KeptCell(g1, g2, p, m);
    if HighOwner(g1, p, g1.live[m].own0) && HighOwner(g1, p, g1.live[m].own1) {
      assert Outside(g1, p, g1.live[m].own0) && Outside(g1, p, g1.live[m].own1);
    }
  }

  /** The redex at `p` has taken a step. */
  ghost predicate Fell(g1: Graph, g2: Graph, p: Loc) {
    Wf(g1) && Wf(g2) && p in g1.live && p in g2.live && Falls(ReadAt(g1, p), ReadAt(g2, p))
  }

  /** A second change at a cell that the first one made. */
  lemma KeptThen(g1: Graph, g2: Graph, g3: Graph, p: Loc, q: Loc)
    requires Kept(g1, g2, p) && Kept(g2, g3, q)
    requires q == p || (q !in g1.live && p in g2.live && g2.live[q].rank < g2.live[p].rank)
    ensures Kept(g1, g3, p) && (Fell(g1, g2, p) || (q == p && Fell(g2, g3, p)) ==> Fell(g1, g3, p))
  {
    forall m | Outside(g1, p, m)
      ensures Outside(g2, q, m) && m in g3.live && KeptCell(g1, g3, p, m)
    {
      OutsideThen(g1, g2, g3, p, q, m);
    }
    FellThen(g1, g2, g3, p, q);
  }

  lemma OutsideThen(g1: Graph, g2: Graph, g3: Graph, p: Loc, q: Loc, m: Loc)
    requires Kept(g1, g2, p) && Kept(g2, g3, q) && Outside(g1, p, m)
    requires q == p || (q !in g1.live && p in g2.live && g2.live[q].rank < g2.live[p].rank)
    ensures Outside(g2, q, m) && m in g3.live && KeptCell(g1, g3, p, m)
  {
    KeptOutside(g1, g2, p, m);
    assert KeptCell(g1, g2, p, m);
    assert Outside(g2, q, m);
    assert KeptCell(g2, g3, q, m);
    SameTrans(ReadAt(g1, m), ReadAt(g2, m), ReadAt(g3, m));
    if HighOwner(g1, p, g1.live[m].own0) && HighOwner(g1, p, g1.live[m].own1) {
      KeptOwners(g1, g2, p, q, m);
    }
  }

  lemma FellThen(g1: Graph, g2: Graph, g3: Graph, p: Loc, q: Loc)
    requires Kept(g1, g2, p) && Kept(g2, g3, q)
    requires q == p || (q !in g1.live && p in g2.live && g2.live[q].rank < g2.live[p].rank)
    ensures Fell(g1, g2, p) || (q == p && Fell(g2, g3, p)) ==> Fell(g1, g3, p)
  {
    assert Outside(g1, p, p) && KeptCell(g1, g2, p, p);
    KeptOutside(g1, g2, p, p);
    assert Outside(g2, q, p) && KeptCell(g2, g3, q, p);
    SameTrans(ReadAt(g1, p), ReadAt(g2, p), ReadAt(g3, p));
  }

  lemma KeptOwners(g1: Graph, g2: Graph, p: Loc, q: Loc, m: Loc)
    requires Kept(g1, g2, p) && Outside(g1, p, m)
    requires q == p || (q in g2.live && p in g2.live && g2.live[q].rank < g2.live[p].rank)
    requires HighOwner(g1, p, g1.live[m].own0) && HighOwner(g1, p, g1.live[m].own1)
    ensures HighOwner(g2, q, g2.live[m].own0) && HighOwner(g2, q, g2.live[m].own1)
  {
    assert Outside(g1, p, p);
    assert KeptCell(g1, g2, p, m);
    assert Outside(g1, p, g1.live[m].own0) && Outside(g1, p, g1.live[m].own1);
  }

  // ---------------------------------------------------------------------------
  // Fewer live cells
  // ---------------------------------------------------------------------------

  /** `g2` has some of the live cells of `g1`, as they were but perhaps with other owners. */
  ghost predicate SubGraph(g1: Graph, g2: Graph) {
    forall m :: m in g2.live ==>
      m in g1.live && m in g1.h && m in g2.h && g2.h[m] == g1.h[m] && g2.live[m].rank == g1.live[m].rank
  }

  /** Only the cells below a cell matter for what it means. */
  lemma {:induction false} SubRead(g1: Graph, g2: Graph, b: nat, t: Term)
    requires Wf(g1) && Wf(g2) && SubGraph(g1, g2) && Under(g1, b, t) && Under(g2, b, t)
    ensures Read(g2, b, t) == Read(g1, b, t)
    decreases b
  {
    forall m | InFoot(t, m)
      ensures ReadAt(g2, m) == ReadAt(g1, m)
    {
      assert TermOk(g1, m, g1.h[m].term) && TermOk(g2, m, g2.h[m].term);
      SubRead(g1, g2, g1.live[m].rank, g1.h[m].term);
    }
    if t.Node? {
      assert seq(Ari(t.head), i requires 0 <= i < Ari(t.head) => assert InFoot(t, t.loc + i); ReadAt(g2, t.loc + i))
          == seq(Ari(t.head), i requires 0 <= i < Ari(t.head) => assert InFoot(t, t.loc + i); ReadAt(g1, t.loc + i));
    } else if t.Dp? {
      assert InFoot(t, t.loc);
    }
  }

  lemma SubReadAt(g1: Graph, g2: Graph, l: Loc)
    requires Wf(g1) && Wf(g2) && SubGraph(g1, g2) && l in g2.live
    ensures ReadAt(g2, l) == ReadAt(g1, l)
  {
    assert TermOk(g1, l, g1.h[l].term) && TermOk(g2, l, g2.h[l].term);
    SubRead(g1, g2, g1.live[l].rank, g1.h[l].term);
  }
}
