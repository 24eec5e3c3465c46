/** The rules that lift `INC` and those of the frame `(x op [])`. */
module RulesInc {
  import opened U32Ops
  import opened Calculus
  import opened Reduction
  import opened Laws
  import opened Heap
  import opened Rules

  // ---------------------------------------------------------------------------
  // AND-INC, OR-INC, EQL-INC-L, EQL-INC-R (node reused), OP2-INC-X (node rebuilt)
  // ---------------------------------------------------------------------------

  /** A `k` node at `loc`, its field `x` an `INC` at `inc`; the lifted node is at `at`, with fields `ax` and `ay`. */
  datatype BinInc = BinInc(k: Kind, loc: Loc, x: Loc, y: Loc, inc: Loc, at: Loc, ax: Loc, ay: Loc)

  predicate BinIncFields(r: BinInc) {
    || (r.x == r.loc && r.y == r.loc + 1 && r.ax == r.at && r.ay == r.at + 1)
    || (r.y == r.loc && r.x == r.loc + 1 && r.ay == r.at && r.ax == r.at + 1)
  }

  predicate BinIncApart(r: BinInc, next: Loc, p: Loc) {
    && BinIncFields(r) && (r.at == r.loc || r.at == next)
    && p < next && r.loc + 1 < next && r.inc < next
    && p != r.loc && p != r.loc + 1 && p != r.inc && r.inc != r.loc && r.inc != r.loc + 1
  }

  lemma BinIncParts(r: BinInc, g: Graph, next: Loc, p: Loc)
    requires Wf(g) && Fresh(g.live, next) && BinIncFields(r) && (r.at == r.loc || r.at == next)
    requires Holds(g, p, Bin(r.k, r.loc)) && r.x in g.h && g.h[r.x].term == Inc(r.inc)
    ensures RefOk(g, p, Bin(r.k, r.loc), r.loc) && RefOk(g, p, Bin(r.k, r.loc), r.loc + 1)
    ensures RefOk(g, r.x, Inc(r.inc), r.inc)
    ensures BinIncApart(r, next, p) && Holds(g, r.x, Inc(r.inc))
  {
    assert InFoot(g.h[p].term, r.loc) && InFoot(g.h[p].term, r.loc + 1);
    assert TermOk(g, p, Bin(r.k, r.loc));
    assert InFoot(g.h[r.x].term, r.inc);
    assert TermOk(g, r.x, Inc(r.inc));
  }

  ghost function BinIncLive(r: BinInc, p: Loc, live: map<Loc, Info>): map<Loc, Info>
    requires r.loc in live && r.loc + 1 in live
  {
    var n := 4 * Top2(live, r.loc);
    map m | m in (live.Keys - {r.loc, r.loc + 1}) + {r.ax, r.ay} ::
      if m == r.inc then Own(n + 2, p)
      else if m == r.ax || m == r.ay then Own(n + 1, r.inc)
      else Respread(live[m], map[r.inc := r.ax, r.y := r.ay])
  }

  ghost predicate BinIncWrites(r: BinInc, c: Change) {
    && IsCell(c.g2.h, c.p, Inc(r.inc)) && IsCell(c.g2.h, r.inc, Bin(r.k, r.at))
    && IsCell(c.g2.h, r.ax, At(c.g1.h, r.inc)) && IsCell(c.g2.h, r.ay, At(c.g1.h, r.y))
    && CellsKept(c)
  }

  ghost predicate BinIncTable(r: BinInc, c: Change)
    requires r.loc in c.g1.live && r.loc + 1 in c.g1.live
  {
    var n := 4 * Top2(c.g1.live, r.loc);
    && InfoIs(c.g2.live, r.inc, Own(n + 2, c.p))
    && InfoIs(c.g2.live, r.ax, Own(n + 1, r.inc)) && InfoIs(c.g2.live, r.ay, Own(n + 1, r.inc))
    && LiveKept(c)
    && (forall m :: m in c.g2.live ==> (m in c.g1.live && m !in {r.loc, r.loc + 1}) || m in {r.ax, r.ay})
  }

  lemma BinIncTableIt(r: BinInc, c: Change, next: Loc)
    requires BinIncApart(r, next, c.p) && forall m :: m in {c.p, r.loc, r.loc + 1, r.inc} ==> m in c.g1.live
    requires Fresh(c.g1.live, next)
    requires c.g2.live == BinIncLive(r, c.p, c.g1.live) && c.x == {r.loc, r.loc + 1, r.inc}
    requires c.moves == map[r.inc := r.ax, r.y := r.ay]
    ensures BinIncTable(r, c)
  {
  }

  ghost predicate BinIncStep(r: BinInc, c: Change, next: Loc) {
    && Holds(c.g1, c.p, Bin(r.k, r.loc)) && BinIncApart(r, next, c.p)
    && RefOk(c.g1, c.p, Bin(r.k, r.loc), r.loc) && RefOk(c.g1, c.p, Bin(r.k, r.loc), r.loc + 1)
    && Holds(c.g1, r.x, Inc(r.inc)) && RefOk(c.g1, r.x, Inc(r.inc), r.inc)
    && BinIncWrites(r, c) && BinIncTable(r, c)
    && c.x == {r.loc, r.loc + 1, r.inc} && c.o == {c.p, r.x} && c.moves == map[r.inc := r.ax, r.y := r.ay]
    && c.tw == Era
  }

  lemma BinIncIsChange(r: BinInc, c: Change, next: Loc)
    requires Wf(c.g1) && BinIncStep(r, c, next)
    ensures IsChange(c)
  {
    OwnedByTable(c);
  }

  lemma BinIncWf(r: BinInc, c: Change, next: Loc)
    requires Wf(c.g1) && BinIncStep(r, c, next)
    ensures IsChange(c) && Wf(c.g2) && TwinOnly(c)
  {
    BinIncIsChange(r, c, next);
    MovedOk(c, r.inc);
    MovedOk(c, r.y);
    ChangeWf(c, {c.p, r.inc, r.ax, r.ay});
  }

  lemma BinIncReads(r: BinInc, c: Change, next: Loc)
    requires BinIncStep(r, c, next) && Wf(c.g1) && Wf(c.g2)
    ensures ReadAt(c.g1, c.p) == TBin(r.k, ReadAt(c.g1, r.loc), ReadAt(c.g1, r.loc + 1))
    ensures ReadAt(c.g1, r.x) == TInc(ReadAt(c.g1, r.inc))
    ensures ReadAt(c.g2, c.p) == TInc(ReadAt(c.g2, r.inc))
    ensures ReadAt(c.g2, r.inc) == TBin(r.k, ReadAt(c.g2, r.at), ReadAt(c.g2, r.at + 1))
  {
    ReadBin(c.g1, c.p, r.k, r.loc);
    ReadInc(c.g1, r.x, r.inc);
    ReadInc(c.g2, c.p, r.inc);
    ReadBin(c.g2, r.inc, r.k, r.at);
  }

  lemma BinIncSound(r: BinInc, c: Change, next: Loc)
    requires BinIncStep(r, c, next) && IsChange(c) && Wf(c.g2) && TwinOnly(c)
    ensures Sound(c) && Fell(c.g1, c.g2, c.p)
  {
    NoTwin(c);
    MovedSame(c, r.inc);
    MovedSame(c, r.y);
    BinIncReduces(r, c, next);
    ChangeSound(c);
  }

  /** An `INC` comes up out of the first operand, or the second. */
  lemma IncUp(k: Kind, first: bool, t: Tree, u: Tree, x: Tree, y: Tree, x': Tree, y': Tree)
    requires t == (if first then TBin(k, TInc(x), y) else TBin(k, y, TInc(x)))
    requires u == TInc(if first then TBin(k, x', y') else TBin(k, y', x')) && Same(x, x') && Same(y, y')
    ensures Reduces(t, u)
  {
    if first {
      BinIncLeft(k, x, y, x', y');
    } else {
      BinIncRight(k, y, x, y', x');
    }
  }

  lemma BinIncReduces(r: BinInc, c: Change, next: Loc)
    requires BinIncStep(r, c, next) && Wf(c.g1) && Wf(c.g2)
    requires Same(ReadAt(c.g1, r.inc), ReadAt(c.g2, r.ax)) && Same(ReadAt(c.g1, r.y), ReadAt(c.g2, r.ay))
    ensures Reduces(ReadAt(c.g1, c.p), ReadAt(c.g2, c.p))
  {
    BinIncReads(r, c, next);
    IncUp(r.k, r.x == r.loc, ReadAt(c.g1, c.p), ReadAt(c.g2, c.p),
          ReadAt(c.g1, r.inc), ReadAt(c.g1, r.y), ReadAt(c.g2, r.ax), ReadAt(c.g2, r.ay));
  }

  // ---------------------------------------------------------------------------
  // OP2-NUM-SUP
  // ---------------------------------------------------------------------------

  /** `(num op &lab{..})` with the superposition at `sup` in cell `hole`; the new nodes are at `b1` and `b2`. */
  datatype NumSup = NumSup(opr: nat, num: u32, lab: Label, hole: Loc, sup: Loc, b1: Loc, b2: Loc)

  predicate NumSupApart(r: NumSup, p: Loc) {
    && r.b2 == r.b1 + 2 && p < r.b1 && r.hole < r.b1 && r.sup + 1 < r.b1
    && p != r.hole && p != r.sup && p != r.sup + 1 && r.hole != r.sup && r.hole != r.sup + 1
  }

  function NumSupMoves(r: NumSup): map<Loc, Loc> {
    map[r.sup := r.b1 + 1, r.sup + 1 := r.b2 + 1]
  }

  lemma NumSupParts(r: NumSup, g: Graph, p: Loc)
    requires Wf(g) && Fresh(g.live, r.b1) && r.b2 == r.b1 + 2
    requires Holds(g, p, Part(r.opr, r.num, r.hole)) && r.hole in g.h && g.h[r.hole].term == Sup(r.lab, r.sup)
    ensures RefOk(g, p, Part(r.opr, r.num, r.hole), r.hole)
    ensures RefOk(g, r.hole, Sup(r.lab, r.sup), r.sup) && RefOk(g, r.hole, Sup(r.lab, r.sup), r.sup + 1)
    ensures NumSupApart(r, p) && Holds(g, r.hole, Sup(r.lab, r.sup))
  {
    assert InFoot(g.h[p].term, r.hole);
    assert TermOk(g, p, Part(r.opr, r.num, r.hole));
    assert InFoot(g.h[r.hole].term, r.sup) && InFoot(g.h[r.hole].term, r.sup + 1);
    assert TermOk(g, r.hole, Sup(r.lab, r.sup));
  }

  ghost function NumSupLive(r: NumSup, p: Loc, live: map<Loc, Info>): map<Loc, Info>
    requires r.hole in live
  {
    var n := 4 * live[r.hole].rank;
    map m | m in (live.Keys - {r.hole}) + {r.b1, r.b1 + 1, r.b2, r.b2 + 1} ::
      if m == r.sup || m == r.sup + 1 then Own(n + 2, p)
      else if m == r.b1 || m == r.b1 + 1 then Own(n + 1, r.sup)
      else if m == r.b2 || m == r.b2 + 1 then Own(n + 1, r.sup + 1)
      else Respread(live[m], NumSupMoves(r))
  }

  ghost predicate NumSupWrites(r: NumSup, c: Change) {
    && IsCell(c.g2.h, c.p, Sup(r.lab, r.sup))
    && IsCell(c.g2.h, r.sup, Bin(KOp2(r.opr), r.b1)) && IsCell(c.g2.h, r.sup + 1, Bin(KOp2(r.opr), r.b2))
    && IsCell(c.g2.h, r.b1, Num(r.num)) && IsCell(c.g2.h, r.b1 + 1, At(c.g1.h, r.sup))
    && IsCell(c.g2.h, r.b2, Num(r.num)) && IsCell(c.g2.h, r.b2 + 1, At(c.g1.h, r.sup + 1))
    && CellsKept(c)
  }

  ghost predicate NumSupTable(r: NumSup, c: Change)
    requires r.hole in c.g1.live
  {
    var n := 4 * c.g1.live[r.hole].rank;
    && InfoIs(c.g2.live, r.sup, Own(n + 2, c.p)) && InfoIs(c.g2.live, r.sup + 1, Own(n + 2, c.p))
    && InfoIs(c.g2.live, r.b1, Own(n + 1, r.sup)) && InfoIs(c.g2.live, r.b1 + 1, Own(n + 1, r.sup))
    && InfoIs(c.g2.live, r.b2, Own(n + 1, r.sup + 1)) && InfoIs(c.g2.live, r.b2 + 1, Own(n + 1, r.sup + 1))
    && LiveKept(c)
    && (forall m :: m in c.g2.live ==> (m in c.g1.live && m != r.hole) || m in {r.b1, r.b1 + 1, r.b2, r.b2 + 1})
  }

  lemma NumSupTableIt(r: NumSup, c: Change)
    requires NumSupApart(r, c.p) && forall m :: m in {c.p, r.hole, r.sup, r.sup + 1} ==> m in c.g1.live
    requires Fresh(c.g1.live, r.b1)
    requires c.g2.live == NumSupLive(r, c.p, c.g1.live) && c.x == {r.hole, r.sup, r.sup + 1}
    requires c.moves == NumSupMoves(r)
    ensures NumSupTable(r, c)
  {
  }

  ghost predicate NumSupStep(r: NumSup, c: Change) {
    && Holds(c.g1, c.p, Part(r.opr, r.num, r.hole)) && NumSupApart(r, c.p)
    && RefOk(c.g1, c.p, Part(r.opr, r.num, r.hole), r.hole)
    && Holds(c.g1, r.hole, Sup(r.lab, r.sup))
    && RefOk(c.g1, r.hole, Sup(r.lab, r.sup), r.sup) && RefOk(c.g1, r.hole, Sup(r.lab, r.sup), r.sup + 1)
    && NumSupWrites(r, c) && NumSupTable(r, c)
    && c.x == {r.hole, r.sup, r.sup + 1} && c.o == {c.p, r.hole} && c.moves == NumSupMoves(r) && c.tw == Era
  }

  lemma NumSupIsChange(r: NumSup, c: Change)
    requires Wf(c.g1) && NumSupStep(r, c)
    ensures IsChange(c)
  {
    OwnedByTable(c);
  }

  lemma NumSupNew(r: NumSup, c: Change)
    requires NumSupStep(r, c)
    ensures CellOk(c.g2, c.p) && CellOk(c.g2, r.sup) && CellOk(c.g2, r.sup + 1) && CellOk(c.g2, r.b1)
    ensures CellOk(c.g2, r.b2)
  {
  }

  lemma NumSupWf(r: NumSup, c: Change)
    requires Wf(c.g1) && NumSupStep(r, c)
    ensures IsChange(c) && Wf(c.g2) && TwinOnly(c)
  {
    NumSupIsChange(r, c);
    NumSupNew(r, c);
    MovedOk(c, r.sup);
    MovedOk(c, r.sup + 1);
    ChangeWf(c, {c.p, r.sup, r.sup + 1, r.b1, r.b1 + 1, r.b2, r.b2 + 1});
  }

  lemma NumSupReads(r: NumSup, c: Change)
    requires NumSupStep(r, c) && Wf(c.g1) && Wf(c.g2)
    ensures ReadAt(c.g1, c.p) ==
              TBin(KOp2(r.opr), TNum(r.num), TSup(r.lab, ReadAt(c.g1, r.sup), ReadAt(c.g1, r.sup + 1)))
    ensures ReadAt(c.g2, c.p) ==
              TSup(r.lab, TBin(KOp2(r.opr), TNum(r.num), ReadAt(c.g2, r.b1 + 1)),
                          TBin(KOp2(r.opr), TNum(r.num), ReadAt(c.g2, r.b2 + 1)))
  {
    ReadPart(c.g1, c.p, r.opr, r.num, r.hole);
    ReadSup(c.g1, r.hole, r.lab, r.sup);
    ReadSup(c.g2, c.p, r.lab, r.sup);
    ReadBin(c.g2, r.sup, KOp2(r.opr), r.b1);
    ReadBin(c.g2, r.sup + 1, KOp2(r.opr), r.b2);
  }

  lemma NumSupSound(r: NumSup, c: Change)
    requires NumSupStep(r, c) && IsChange(c) && Wf(c.g2) && TwinOnly(c)
    ensures Sound(c) && Fell(c.g1, c.g2, c.p)
  {
    NoTwin(c);
    MovedSame(c, r.sup);
    MovedSame(c, r.sup + 1);
    NumSupReads(r, c);
    NumSupLaw(r.opr, r.num, r.lab, ReadAt(c.g1, r.sup), ReadAt(c.g1, r.sup + 1), ReadAt(c.g2, r.b1 + 1),
              ReadAt(c.g2, r.b2 + 1));
    ChangeSound(c);
  }

  // ---------------------------------------------------------------------------
  // OP2-INC-Y, and a frame `(x op [])` turned back into a node
  // ---------------------------------------------------------------------------

  /**
   `(num op v)` with `v` in cell `hole` is rebuilt as a node at `b`. If `v` is an `INC` at `inc`, the `INC`
   is lifted over it; otherwise `inc == hole`.
   */
  datatype Rebuild = Rebuild(opr: nat, num: u32, hole: Loc, inc: Loc, b: Loc)

  predicate RebuildApart(r: Rebuild, p: Loc) {
    p < r.b && r.hole < r.b && r.inc < r.b && p != r.hole && p != r.inc
  }

  lemma RebuildParts(r: Rebuild, g: Graph, p: Loc)
    requires Wf(g) && Fresh(g.live, r.b) && Holds(g, p, Part(r.opr, r.num, r.hole))
    requires r.inc == r.hole || (r.hole in g.h && g.h[r.hole].term == Inc(r.inc))
    ensures RefOk(g, p, Part(r.opr, r.num, r.hole), r.hole) && RebuildApart(r, p)
    ensures r.inc != r.hole ==> Holds(g, r.hole, Inc(r.inc)) && RefOk(g, r.hole, Inc(r.inc), r.inc)
  {
    assert InFoot(g.h[p].term, r.hole);
    assert TermOk(g, p, Part(r.opr, r.num, r.hole));
    if r.inc != r.hole {
      assert InFoot(g.h[r.hole].term, r.inc);
      assert TermOk(g, r.hole, Inc(r.inc));
    }
  }

  ghost function RebuildLive(r: Rebuild, p: Loc, live: map<Loc, Info>): map<Loc, Info>
    requires r.hole in live
  {
    var n := 4 * live[r.hole].rank;
    map m | m in (live.Keys - {r.hole}) + {r.b, r.b + 1} ::
      if m == r.inc then Own(n + 2, p)
      else if m == r.b || m == r.b + 1 then Own(n + 1, if r.inc == r.hole then p else r.inc)
      else Respread(live[m], map[r.inc := r.b + 1])
  }

  ghost predicate RebuildWrites(r: Rebuild, c: Change) {
    && IsCell(c.g2.h, c.p, if r.inc == r.hole then Bin(KOp2(r.opr), r.b) else Inc(r.inc))
    && (r.inc != r.hole ==> IsCell(c.g2.h, r.inc, Bin(KOp2(r.opr), r.b)))
    && IsCell(c.g2.h, r.b, Num(r.num)) && IsCell(c.g2.h, r.b + 1, At(c.g1.h, r.inc))
    && CellsKept(c)
  }

  ghost predicate RebuildStep(r: Rebuild, c: Change) {
    && Holds(c.g1, c.p, Part(r.opr, r.num, r.hole)) && RebuildApart(r, c.p) && Fresh(c.g1.live, r.b)
    && RefOk(c.g1, c.p, Part(r.opr, r.num, r.hole), r.hole) && r.hole in c.g1.h
    && (r.inc != r.hole ==> Holds(c.g1, r.hole, Inc(r.inc)) && RefOk(c.g1, r.hole, Inc(r.inc), r.inc))
    && RebuildWrites(r, c) && c.g2.live == RebuildLive(r, c.p, c.g1.live)
    && c.x == {r.hole, r.inc} && c.o == (if r.inc == r.hole then {c.p} else {c.p, r.hole})
    && c.moves == map[r.inc := r.b + 1] && c.tw == Era
  }

  lemma RebuildIsChange(r: Rebuild, c: Change)
    requires Wf(c.g1) && RebuildStep(r, c)
    ensures IsChange(c) && TwinOnly(c)
  {
    OwnedByTable(c);
  }

  function RebuildMade(r: Rebuild, p: Loc): set<Loc> {
    if r.inc == r.hole then {p, r.b, r.b + 1} else {p, r.inc, r.b, r.b + 1}
  }

  lemma RebuildTable(r: Rebuild, c: Change)
    requires RebuildStep(r, c) && r.hole in c.g1.live
    ensures var n, o := 4 * c.g1.live[r.hole].rank, if r.inc == r.hole then c.p else r.inc;
            && r.b in c.g2.live && c.g2.live[r.b] == Own(n + 1, o)
            && r.b + 1 in c.g2.live && c.g2.live[r.b + 1] == Own(n + 1, o)
            && (r.inc != r.hole ==> r.inc in c.g2.live && c.g2.live[r.inc] == Own(n + 2, c.p))
            && c.p in c.g2.live && c.g2.live[c.p].rank == 4 * c.g1.live[c.p].rank && n + 4 <= c.g2.live[c.p].rank
  {
  }

  lemma RebuildCells(r: Rebuild, c: Change)
    requires RebuildStep(r, c) && IsChange(c)
    ensures forall l :: l in RebuildMade(r, c.p) ==> CellOk(c.g2, l)
  {
    RebuildTable(r, c);
    MovedOk(c, r.inc);
    assert CellOk(c.g2, r.b) && CellOk(c.g2, r.b + 1);
    forall m | InFoot(Bin(KOp2(r.opr), r.b), m)
      ensures m == r.b || m == r.b + 1
    {
    }
    assert r.inc != r.hole ==> CellOk(c.g2, r.inc);
    assert CellOk(c.g2, c.p);
  }

  lemma RebuildCovers(r: Rebuild, c: Change)
    requires RebuildStep(r, c) && IsChange(c) && TwinOnly(c)
    ensures Covers(c, RebuildMade(r, c.p)) && TwinOk(c)
  {
  }

  lemma RebuildWf(r: Rebuild, c: Change)
    requires Wf(c.g1) && RebuildStep(r, c)
    ensures IsChange(c) && Wf(c.g2) && TwinOnly(c)
  {
    RebuildIsChange(r, c);
    RebuildCells(r, c);
    RebuildCovers(r, c);
    ChangeWf(c, RebuildMade(r, c.p));
  }

  lemma RebuildNode(r: Rebuild, c: Change)
    requires RebuildStep(r, c) && Wf(c.g2)
    ensures var q := if r.inc == r.hole then c.p else r.inc;
            && q in c.g2.live && r.b + 1 in c.g2.live
            && ReadAt(c.g2, q) == TBin(KOp2(r.opr), TNum(r.num), ReadAt(c.g2, r.b + 1))
  {
    ReadBin(c.g2, if r.inc == r.hole then c.p else r.inc, KOp2(r.opr), r.b);
  }

  lemma RebuildReads(r: Rebuild, c: Change)
    requires RebuildStep(r, c) && Wf(c.g1) && Wf(c.g2)
    ensures ReadAt(c.g1, c.p) == TBin(KOp2(r.opr), TNum(r.num), ReadAt(c.g1, r.hole))
    ensures var n := TBin(KOp2(r.opr), TNum(r.num), ReadAt(c.g2, r.b + 1));
            if r.inc == r.hole then ReadAt(c.g2, c.p) == n
            else ReadAt(c.g1, r.hole) == TInc(ReadAt(c.g1, r.inc)) && ReadAt(c.g2, c.p) == TInc(n)
  {
    ReadPart(c.g1, c.p, r.opr, r.num, r.hole);
    RebuildNode(r, c);
    if r.inc != r.hole {
      ReadInc(c.g1, r.hole, r.inc);
      ReadInc(c.g2, c.p, r.inc);
    }
  }

  lemma RebuildSound(r: Rebuild, c: Change)
    requires RebuildStep(r, c) && IsChange(c) && Wf(c.g2) && TwinOnly(c)
    ensures Sound(c) && (r.inc != r.hole ==> Fell(c.g1, c.g2, c.p))
  {
    NoTwin(c);
    MovedSame(c, r.inc);
    RebuildReads(r, c);
    var k, n, y, y' := KOp2(r.opr), TNum(r.num), ReadAt(c.g1, r.inc), ReadAt(c.g2, r.b + 1);
    SameSelf(n);
    if r.inc == r.hole {
      SameBin(k, n, y, n, y');
    } else {
      BinIncRight(k, n, y, n, y');
    }
    ChangeSound(c);
  }
}
