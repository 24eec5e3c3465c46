/**
 EQL-CTR. The rule turns the comparison of two constructors into an `AND` chain over their fields. It
 is taken apart into two small changes of the heap, which are sound one by one: splitting off the last
 pair of fields, and replacing one-field constructors by their fields. Either can put an `INC` over the
 nodes it makes.
 */
module RulesEql {
  import opened U32Ops
  import opened Calculus
  import opened Reduction
  import opened Laws
  import opened Heap
  import opened Rules

  function Ctr(nam: nat, ari: nat, loc: Loc): Term {
    Node(HCtr(nam, ari), loc)
  }

  function Eql(loc: Loc): Term {
    Bin(KEql, loc)
  }

  lemma NodeParts(g: Graph, q: Loc, k: Kind, loc: Loc)
    requires Wf(g) && Holds(g, q, Bin(k, loc))
    ensures RefOk(g, q, Bin(k, loc), loc) && RefOk(g, q, Bin(k, loc), loc + 1)
  {
    assert TermOk(g, q, Bin(k, loc));
    assert InFoot(g.h[q].term, loc) && InFoot(g.h[q].term, loc + 1);
  }

  // ---------------------------------------------------------------------------
  // Two constructors of one name, with at least one field
  // ---------------------------------------------------------------------------

  /** Cell `q` compares the constructors in `loc` and `loc + 1`, with fields from `a` and `b` on. */
  datatype Pair = Pair(nam: nat, loc: Loc, a: Loc, b: Loc, n: nat)

  ghost predicate PairRedex(r: Pair, g: Graph, q: Loc) {
    && r.n > 0 && Holds(g, q, Eql(r.loc))
    && RefOk(g, q, Eql(r.loc), r.loc) && RefOk(g, q, Eql(r.loc), r.loc + 1)
    && Holds(g, r.loc, Ctr(r.nam, r.n, r.a)) && Holds(g, r.loc + 1, Ctr(r.nam, r.n, r.b))
    && TermOk(g, r.loc, Ctr(r.nam, r.n, r.a)) && TermOk(g, r.loc + 1, Ctr(r.nam, r.n, r.b))
  }

  lemma PairParts(r: Pair, g: Graph, q: Loc)
    requires Wf(g) && r.n > 0 && Holds(g, q, Eql(r.loc))
    requires r.loc in g.h && r.loc + 1 in g.h
    requires g.h[r.loc].term == Ctr(r.nam, r.n, r.a) && g.h[r.loc + 1].term == Ctr(r.nam, r.n, r.b)
    ensures PairRedex(r, g, q)
  {
    NodeParts(g, q, KEql, r.loc);
  }

  /** The last fields of the two constructors. */
  lemma PairLast(r: Pair, g: Graph, q: Loc)
    requires PairRedex(r, g, q)
    ensures RefOk(g, r.loc, Ctr(r.nam, r.n, r.a), r.a + r.n - 1)
    ensures RefOk(g, r.loc + 1, Ctr(r.nam, r.n, r.b), r.b + r.n - 1)
  {
    assert InFoot(Ctr(r.nam, r.n, r.a), r.a + r.n - 1) && InFoot(Ctr(r.nam, r.n, r.b), r.b + r.n - 1);
  }

  // One field

  /** The cell `top` that is to hold the result is the redex, or a new cell below an `INC` in the redex. */
  predicate NewTop(live: map<Loc, Info>, q: Loc, top: Loc) {
    top == q || top !in live
  }

  ghost function OneLive(r: Pair, q: Loc, top: Loc, live: map<Loc, Info>): map<Loc, Info>
    requires r.loc in live && r.loc + 1 in live
  {
    map m | m in (live.Keys - {r.a, r.b}) + (if top == q then {} else {top}) ::
      if m == top && top != q then Own(4 * Top2(live, r.loc) + 1, q)
      else if m == r.loc || m == r.loc + 1 then Own(4 * live[m].rank, top)
      else Respread(live[m], map[r.a := r.loc, r.b := r.loc + 1])
  }

  function OneCells(r: Pair, h: Cells, q: Loc, top: Loc): Cells {
    var h' := Put(Put(h, r.loc, At(h, r.a)), r.loc + 1, At(h, r.b));
    if top == q then h' else Put(Put(h', top, Eql(r.loc)), q, Inc(top))
  }

  /** The two fields replace the constructors. */
  ghost function One(r: Pair, g: Graph, q: Loc, top: Loc): Change
    requires r.loc in g.live && r.loc + 1 in g.live
  {
    Change(g, Graph(OneCells(r, g.h, q, top), OneLive(r, q, top, g.live)),
           q, {r.loc, r.loc + 1, r.a, r.b}, {q, r.loc, r.loc + 1}, map[r.a := r.loc, r.b := r.loc + 1], Era)
  }

  ghost predicate OneFacts(r: Pair, c: Change, top: Loc) {
    && r.a in c.g1.live && r.b in c.g1.live && r.loc in c.g1.live && r.loc + 1 in c.g1.live && c.p in c.g1.live
    && r.a in c.g1.h && r.b in c.g1.h && NewTop(c.g1.live, c.p, top)
    && r.a != r.b && r.a != r.loc && r.a != r.loc + 1 && r.b != r.loc && r.b != r.loc + 1
    && c.p != r.loc && c.p != r.loc + 1 && c.p != r.a && c.p != r.b
    && Holds(c.g1, c.p, Eql(r.loc)) && IsCell(c.g2.h, top, Eql(r.loc)) && (top != c.p ==> IsCell(c.g2.h, c.p, Inc(top)))
    && IsCell(c.g2.h, r.loc, c.g1.h[r.a].term) && IsCell(c.g2.h, r.loc + 1, c.g1.h[r.b].term)
    && (top != c.p ==> InfoIs(c.g2.live, top, Own(4 * Top2(c.g1.live, r.loc) + 1, c.p)))
    && InfoIs(c.g2.live, r.loc, Own(4 * c.g1.live[r.loc].rank, top))
    && InfoIs(c.g2.live, r.loc + 1, Own(4 * c.g1.live[r.loc + 1].rank, top))
    && CellsKept(c) && LiveKept(c)
    && c.x == {r.loc, r.loc + 1, r.a, r.b} && c.o == {c.p, r.loc, r.loc + 1}
    && c.moves == map[r.a := r.loc, r.b := r.loc + 1] && c.tw == Era
    && (forall m :: m in c.g2.live ==> (m in c.g1.live && m != r.a && m != r.b) || m == top)
  }

  lemma OneCellsIt(r: Pair, c: Change, top: Loc)
    requires Wf(c.g1) && PairRedex(r, c.g1, c.p) && r.n == 1 && NewTop(c.g1.live, c.p, top)
    requires c == One(r, c.g1, c.p, top)
    ensures r.a in c.g1.h && r.b in c.g1.h && CellsKept(c)
    ensures IsCell(c.g2.h, top, Eql(r.loc)) && (top != c.p ==> IsCell(c.g2.h, c.p, Inc(top)))
    ensures IsCell(c.g2.h, r.loc, c.g1.h[r.a].term) && IsCell(c.g2.h, r.loc + 1, c.g1.h[r.b].term)
  {
    PairLast(r, c.g1, c.p);
  }

  lemma OneTableIt(r: Pair, c: Change, top: Loc)
    requires Wf(c.g1) && PairRedex(r, c.g1, c.p) && r.n == 1 && NewTop(c.g1.live, c.p, top)
    requires c == One(r, c.g1, c.p, top)
    ensures top != c.p ==> InfoIs(c.g2.live, top, Own(4 * Top2(c.g1.live, r.loc) + 1, c.p))
    ensures InfoIs(c.g2.live, r.loc, Own(4 * c.g1.live[r.loc].rank, top))
    ensures InfoIs(c.g2.live, r.loc + 1, Own(4 * c.g1.live[r.loc + 1].rank, top)) && LiveKept(c)
    ensures forall m :: m in c.g2.live ==> (m in c.g1.live && m != r.a && m != r.b) || m == top
  {
    PairLast(r, c.g1, c.p);
  }

  lemma OneIt(r: Pair, g: Graph, q: Loc, top: Loc)
    requires Wf(g) && PairRedex(r, g, q) && r.n == 1 && NewTop(g.live, q, top)
    ensures OneFacts(r, One(r, g, q, top), top)
  {
    var c := One(r, g, q, top);
    PairLast(r, g, q);
    OneCellsIt(r, c, top);
    OneTableIt(r, c, top);
  }

  lemma OneIsChange(r: Pair, c: Change, top: Loc)
    requires Wf(c.g1) && PairRedex(r, c.g1, c.p) && r.n == 1 && OneFacts(r, c, top)
    ensures IsChange(c) && TwinOnly(c)
  {
    PairLast(r, c.g1, c.p);
    OwnedByTable(c);
  }

  lemma OneMoved(r: Pair, c: Change, top: Loc)
    requires PairRedex(r, c.g1, c.p) && OneFacts(r, c, top) && IsChange(c)
    ensures CellOk(c.g2, r.loc) && CellOk(c.g2, r.loc + 1) && CellOk(c.g2, c.p) && CellOk(c.g2, top)
  {
    MovedOk(c, r.a);
    MovedOk(c, r.b);
  }

  lemma OneWf(r: Pair, c: Change, top: Loc)
    requires Wf(c.g1) && PairRedex(r, c.g1, c.p) && r.n == 1 && OneFacts(r, c, top)
    ensures IsChange(c) && Wf(c.g2) && TwinOnly(c)
  {
    OneIsChange(r, c, top);
    OneMoved(r, c, top);
    ChangeWf(c, {c.p, top, r.loc, r.loc + 1});
  }

  lemma OneReads(r: Pair, c: Change, top: Loc)
    requires PairRedex(r, c.g1, c.p) && r.n == 1 && OneFacts(r, c, top) && Wf(c.g1) && Wf(c.g2)
    ensures ReadAt(c.g1, c.p) == TBin(KEql, TCtr(r.nam, [ReadAt(c.g1, r.a)]), TCtr(r.nam, [ReadAt(c.g1, r.b)]))
    ensures c.p in c.g2.live
    ensures ReadAt(c.g2, c.p) == Hinted(top != c.p, TBin(KEql, ReadAt(c.g2, r.loc), ReadAt(c.g2, r.loc + 1)))
  {
    ReadBin(c.g1, c.p, KEql, r.loc);
    ReadCtr1(c.g1, r.loc, r.nam, r.a);
    ReadCtr1(c.g1, r.loc + 1, r.nam, r.b);
    ReadBin(c.g2, top, KEql, r.loc);
    if top != c.p {
      ReadInc(c.g2, c.p, top);
    }
  }

  lemma ReadCtr1(g: Graph, l: Loc, nam: nat, a: Loc)
    requires Wf(g) && l in g.live && g.h[l].term == Ctr(nam, 1, a)
    ensures a in g.live && ReadAt(g, l) == TCtr(nam, [ReadAt(g, a)])
  {
    assert InFoot(g.h[l].term, a);
    assert TermOk(g, l, g.h[l].term);
  }

  lemma OneSound(r: Pair, c: Change, top: Loc)
    requires Wf(c.g1) && PairRedex(r, c.g1, c.p) && r.n == 1 && OneFacts(r, c, top)
    ensures IsChange(c) && Wf(c.g2) && Sound(c) && Fell(c.g1, c.g2, c.p)
  {
    OneWf(r, c, top);
    PairLast(r, c.g1, c.p);
    NoTwin(c);
    MovedSame(c, r.a);
    MovedSame(c, r.b);
    OneReads(r, c, top);
    EqlOneLaw(r.nam, ReadAt(c.g1, r.a), ReadAt(c.g1, r.b), ReadAt(c.g2, r.loc), ReadAt(c.g2, r.loc + 1), top != c.p);
    ChangeSound(c);
  }

  lemma OneDone(r: Pair, c: Change, top: Loc)
    requires Wf(c.g1) && PairRedex(r, c.g1, c.p) && r.n == 1 && OneFacts(r, c, top)
    ensures Kept(c.g1, c.g2, c.p) && Fell(c.g1, c.g2, c.p)
  {
    OneSound(r, c, top);
    PairLast(r, c.g1, c.p);
    ChangeKept(c);
  }

  lemma OneKept(r: Pair, g: Graph, q: Loc, top: Loc)
    requires Wf(g) && PairRedex(r, g, q) && r.n == 1 && NewTop(g.live, q, top)
    ensures Kept(g, One(r, g, q, top).g2, q) && Fell(g, One(r, g, q, top).g2, q)
  {
    OneIt(r, g, q, top);
    OneDone(r, One(r, g, q, top), top);
  }

  lemma OneKeys(r: Pair, q: Loc, top: Loc, live: map<Loc, Info>)
    requires r.loc in live && r.loc + 1 in live
    ensures forall m :: m in OneLive(r, q, top, live) ==> m in live || m == top
  {
  }

  // ---------------------------------------------------------------------------
  // Two or more fields
  // ---------------------------------------------------------------------------

  /**
   The new nodes: the fields of the `AND` at `at`, those of the last comparison at `e`. The `AND` is to be in
   `top` and the last comparison in `tail`; both are new and below an `INC`, or they are the redex and the
   second field of the `AND`.
   */
  datatype Nodes = Nodes(at: Loc, e: Loc, top: Loc, tail: Loc)

  predicate Bare(s: Nodes, q: Loc) {
    s.top == q && s.tail == s.at + 1
  }

  predicate NewNodes(live: map<Loc, Info>, q: Loc, s: Nodes) {
    && s.at !in live && s.at + 1 !in live && s.e !in live && s.e + 1 !in live
    && s.at != s.e && s.at + 1 != s.e && s.at != s.e + 1
    && (Bare(s, q) || (s.top !in live && s.tail !in live && s.top != s.tail && s.top != q
                       && s.top !in {s.at, s.at + 1, s.e, s.e + 1} && s.tail !in {s.at, s.at + 1, s.e, s.e + 1}))
  }

  ghost function PeelLive(r: Pair, q: Loc, s: Nodes, live: map<Loc, Info>): map<Loc, Info>
    requires r.n > 0 && r.loc in live && r.loc + 1 in live
  {
    var n := 4 * Top2(live, r.loc);
    map m | m in (live.Keys - {r.a + r.n - 1, r.b + r.n - 1}) + {s.at, s.at + 1, s.e, s.e + 1}
            + (if Bare(s, q) then {} else {s.top, s.tail}) ::
      if m == s.at || m == s.at + 1 then Own(n + 2, s.top)
      else if m == s.e || m == s.e + 1 then Own(n, s.tail)
      else if m == s.top && !Bare(s, q) then Own(n + 3, q)
      else if m == s.tail && !Bare(s, q) then Own(n + 1, s.at + 1)
      else if m == r.loc || m == r.loc + 1 then Own(4 * live[m].rank, s.at)
      else Respread(live[m], map[r.a + r.n - 1 := s.e, r.b + r.n - 1 := s.e + 1])
  }

  function PeelCells(r: Pair, h: Cells, q: Loc, s: Nodes): Cells
    requires r.n > 0
  {
    var h' := h[r.loc := Cell(false, Ctr(r.nam, r.n - 1, r.a))][r.loc + 1 := Cell(false, Ctr(r.nam, r.n - 1, r.b))]
               [s.e := Cell(false, At(h, r.a + r.n - 1))][s.e + 1 := Cell(false, At(h, r.b + r.n - 1))]
               [s.at := Cell(false, Eql(r.loc))][s.tail := Cell(false, Eql(s.e))]
               [s.top := Cell(false, Bin(KAnd, s.at))];
    if Bare(s, q) then h' else h'[s.at + 1 := Cell(false, Inc(s.tail))][q := Cell(false, Inc(s.top))]
  }

  /** The redex becomes an `AND`; the last pair of fields is compared by a new node. */
  ghost function Peel(r: Pair, g: Graph, q: Loc, s: Nodes): Change
    requires r.n > 1 && r.loc in g.live && r.loc + 1 in g.live
  {
    var fa, fb := r.a + r.n - 1, r.b + r.n - 1;
    Change(g, Graph(PeelCells(r, g.h, q, s), PeelLive(r, q, s, g.live)),
           q, {r.loc, r.loc + 1, fa, fb}, {q, r.loc, r.loc + 1}, map[fa := s.e, fb := s.e + 1], Era)
  }

  /** The redex and the four cells that are overwritten. */
  ghost predicate PeelBefore(r: Pair, g: Graph, q: Loc) {
    && r.n > 1 && PairRedex(r, g, q)
    && var fa, fb := r.a + r.n - 1, r.b + r.n - 1;
    && fa in g.h && fb in g.h
    && RefOk(g, r.loc, Ctr(r.nam, r.n, r.a), fa) && RefOk(g, r.loc + 1, Ctr(r.nam, r.n, r.b), fb)
    && fa != fb && q != fa && q != fb && q != r.loc && q != r.loc + 1
    && fa != r.loc && fa != r.loc + 1 && fb != r.loc && fb != r.loc + 1
  }

  ghost predicate PeelCellsAre(r: Pair, c: Change, s: Nodes)
    requires r.n > 1 && r.a + r.n - 1 in c.g1.h && r.b + r.n - 1 in c.g1.h
  {
    && IsCell(c.g2.h, s.top, Bin(KAnd, s.at)) && IsCell(c.g2.h, s.at, Eql(r.loc)) && IsCell(c.g2.h, s.tail, Eql(s.e))
    && (!Bare(s, c.p) ==> IsCell(c.g2.h, c.p, Inc(s.top)) && IsCell(c.g2.h, s.at + 1, Inc(s.tail)))
    && IsCell(c.g2.h, s.e, c.g1.h[r.a + r.n - 1].term) && IsCell(c.g2.h, s.e + 1, c.g1.h[r.b + r.n - 1].term)
    && IsCell(c.g2.h, r.loc, Ctr(r.nam, r.n - 1, r.a)) && IsCell(c.g2.h, r.loc + 1, Ctr(r.nam, r.n - 1, r.b))
    && CellsKept(c)
  }

  ghost predicate PeelTableIs(r: Pair, c: Change, s: Nodes)
    requires r.n > 1 && r.loc in c.g1.live && r.loc + 1 in c.g1.live
  {
    var n := 4 * Top2(c.g1.live, r.loc);
    && InfoIs(c.g2.live, s.at, Own(n + 2, s.top)) && InfoIs(c.g2.live, s.at + 1, Own(n + 2, s.top))
    && InfoIs(c.g2.live, s.e, Own(n, s.tail)) && InfoIs(c.g2.live, s.e + 1, Own(n, s.tail))
    && (!Bare(s, c.p) ==> InfoIs(c.g2.live, s.top, Own(n + 3, c.p)) && InfoIs(c.g2.live, s.tail, Own(n + 1, s.at + 1)))
    && InfoIs(c.g2.live, r.loc, Own(4 * c.g1.live[r.loc].rank, s.at))
    && InfoIs(c.g2.live, r.loc + 1, Own(4 * c.g1.live[r.loc + 1].rank, s.at))
    && LiveKept(c)
    && (forall m :: m in c.g2.live ==>
          (m in c.g1.live && m != r.a + r.n - 1 && m != r.b + r.n - 1)
          || m in {s.at, s.at + 1, s.e, s.e + 1, s.top, s.tail})
  }

  ghost predicate PeelFacts(r: Pair, c: Change, s: Nodes) {
    && PeelBefore(r, c.g1, c.p) && NewNodes(c.g1.live, c.p, s)
    && PeelCellsAre(r, c, s) && PeelTableIs(r, c, s)
    && c.x == {r.loc, r.loc + 1, r.a + r.n - 1, r.b + r.n - 1} && c.o == {c.p, r.loc, r.loc + 1}
    && c.moves == map[r.a + r.n - 1 := s.e, r.b + r.n - 1 := s.e + 1] && c.tw == Era
  }

  lemma PeelParts(r: Pair, g: Graph, q: Loc)
    requires Wf(g) && PairRedex(r, g, q) && r.n > 1
    ensures PeelBefore(r, g, q)
  {
    PairLast(r, g, q);
  }

  lemma PeelCellsKept(r: Pair, c: Change, s: Nodes)
    requires Wf(c.g1) && PeelBefore(r, c.g1, c.p) && NewNodes(c.g1.live, c.p, s)
    requires c.g2.h == PeelCells(r, c.g1.h, c.p, s) && c.x == {r.loc, r.loc + 1, r.a + r.n - 1, r.b + r.n - 1}
    ensures CellsKept(c)
  {
  }

  lemma PeelLastCells(r: Pair, c: Change, s: Nodes)
    requires Wf(c.g1) && PeelBefore(r, c.g1, c.p) && NewNodes(c.g1.live, c.p, s)
    requires c.g2.h == PeelCells(r, c.g1.h, c.p, s)
    ensures IsCell(c.g2.h, s.e, c.g1.h[r.a + r.n - 1].term) && IsCell(c.g2.h, s.e + 1, c.g1.h[r.b + r.n - 1].term)
    ensures IsCell(c.g2.h, r.loc, Ctr(r.nam, r.n - 1, r.a)) && IsCell(c.g2.h, r.loc + 1, Ctr(r.nam, r.n - 1, r.b))
  {
  }

  lemma PeelCellsIt(r: Pair, c: Change, s: Nodes)
    requires Wf(c.g1) && PeelBefore(r, c.g1, c.p) && NewNodes(c.g1.live, c.p, s)
    requires c.g2.h == PeelCells(r, c.g1.h, c.p, s) && c.x == {r.loc, r.loc + 1, r.a + r.n - 1, r.b + r.n - 1}
    ensures PeelCellsAre(r, c, s)
  {
    PeelCellsKept(r, c, s);
    PeelLastCells(r, c, s);
  }

  lemma PeelLiveKept(r: Pair, c: Change, s: Nodes)
    requires PeelBefore(r, c.g1, c.p) && NewNodes(c.g1.live, c.p, s)
    requires c.g2.live == PeelLive(r, c.p, s, c.g1.live) && c.x == {r.loc, r.loc + 1, r.a + r.n - 1, r.b + r.n - 1}
    requires c.moves == map[r.a + r.n - 1 := s.e, r.b + r.n - 1 := s.e + 1]
    ensures LiveKept(c)
  {
    forall m | m in c.g1.live && m !in c.x
      ensures m in c.g2.live && c.g2.live[m] == Respread(c.g1.live[m], c.moves)
    {
      assert m !in {s.at, s.at + 1, s.e, s.e + 1} && m != r.loc && m != r.loc + 1;
    }
  }

  lemma PeelLiveKeys(r: Pair, q: Loc, s: Nodes, live: map<Loc, Info>)
    requires r.n > 0 && r.loc in live && r.loc + 1 in live
    ensures forall m :: m in PeelLive(r, q, s, live) ==>
              (m in live && m != r.a + r.n - 1 && m != r.b + r.n - 1)
              || m in {s.at, s.at + 1, s.e, s.e + 1, s.top, s.tail}
  {
  }

  lemma PeelNewInfo(r: Pair, c: Change, s: Nodes)
    requires PeelBefore(r, c.g1, c.p) && NewNodes(c.g1.live, c.p, s)
    requires c.g2.live == PeelLive(r, c.p, s, c.g1.live) && c.x == {r.loc, r.loc + 1, r.a + r.n - 1, r.b + r.n - 1}
    requires c.moves == map[r.a + r.n - 1 := s.e, r.b + r.n - 1 := s.e + 1]
    ensures r.loc in c.g1.live && r.loc + 1 in c.g1.live
    ensures var n := 4 * Top2(c.g1.live, r.loc);
            && InfoIs(c.g2.live, s.at, Own(n + 2, s.top)) && InfoIs(c.g2.live, s.at + 1, Own(n + 2, s.top))
            && InfoIs(c.g2.live, s.e, Own(n, s.tail)) && InfoIs(c.g2.live, s.e + 1, Own(n, s.tail))
            && (!Bare(s, c.p) ==>
                  InfoIs(c.g2.live, s.top, Own(n + 3, c.p)) && InfoIs(c.g2.live, s.tail, Own(n + 1, s.at + 1)))
  {
  }

  lemma PeelTableIt(r: Pair, c: Change, s: Nodes)
    requires PeelBefore(r, c.g1, c.p) && NewNodes(c.g1.live, c.p, s)
    requires c.g2.live == PeelLive(r, c.p, s, c.g1.live) && c.x == {r.loc, r.loc + 1, r.a + r.n - 1, r.b + r.n - 1}
    requires c.moves == map[r.a + r.n - 1 := s.e, r.b + r.n - 1 := s.e + 1]
    ensures PeelTableIs(r, c, s)
  {
    PeelNewInfo(r, c, s);
    PeelLiveKept(r, c, s);
    PeelLiveKeys(r, c.p, s, c.g1.live);
  }

  lemma PeelMakes(r: Pair, c: Change, s: Nodes)
    requires Wf(c.g1) && PeelBefore(r, c.g1, c.p) && NewNodes(c.g1.live, c.p, s)
    requires c == Peel(r, c.g1, c.p, s)
    ensures PeelCellsAre(r, c, s) && PeelTableIs(r, c, s)
  {
    PeelCellsIt(r, c, s);
    PeelTableIt(r, c, s);
  }

  lemma PeelIt(r: Pair, g: Graph, q: Loc, s: Nodes)
    requires Wf(g) && PairRedex(r, g, q) && r.n > 1 && NewNodes(g.live, q, s)
    ensures PeelFacts(r, Peel(r, g, q, s), s)
  {
    var c := Peel(r, g, q, s);
    PeelParts(r, g, q);
    PeelMakes(r, c, s);
  }

  lemma PeelOwned(r: Pair, c: Change)
    requires Wf(c.g1) && PeelBefore(r, c.g1, c.p)
    requires c.x == {r.loc, r.loc + 1, r.a + r.n - 1, r.b + r.n - 1} && c.o == {c.p, r.loc, r.loc + 1}
    ensures Owned(c) && Below(c)
  {
    OwnedByTable(c);
  }

  lemma PeelIsChange(r: Pair, c: Change, s: Nodes)
    requires Wf(c.g1) && PeelFacts(r, c, s)
    ensures IsChange(c) && TwinOnly(c)
  {
    PeelOwned(r, c);
  }

  /** The constructors, one field shorter. */
  lemma PeelCtr(r: Pair, c: Change, s: Nodes, l: Loc, base: Loc)
    requires PeelFacts(r, c, s)
    requires (l == r.loc && base == r.a) || (l == r.loc + 1 && base == r.b)
    ensures CellOk(c.g2, l)
  {
    var t, u := Ctr(r.nam, r.n, base), Ctr(r.nam, r.n - 1, base);
    forall m | InFoot(u, m)
      ensures RefOk(c.g2, l, u, m)
    {
      assert InFoot(t, m);
      assert RefOk(c.g1, l, t, m);
    }
  }

  lemma PeelNew(r: Pair, c: Change, s: Nodes)
    requires PeelFacts(r, c, s)
    ensures CellOk(c.g2, c.p) && CellOk(c.g2, s.at) && CellOk(c.g2, s.at + 1) && CellOk(c.g2, s.top)
    ensures CellOk(c.g2, s.tail)
  {
  }

  lemma PeelMoved(r: Pair, c: Change, s: Nodes)
    requires PeelFacts(r, c, s) && IsChange(c)
    ensures CellOk(c.g2, s.e) && CellOk(c.g2, s.e + 1)
  {
    MovedOk(c, r.a + r.n - 1);
    MovedOk(c, r.b + r.n - 1);
  }

  lemma PeelCovers(r: Pair, c: Change, s: Nodes)
    requires PeelFacts(r, c, s)
    ensures Covers(c, PeelSet(r, c.p, s)) && TwinOk(c)
  {
  }

  function PeelSet(r: Pair, p: Loc, s: Nodes): set<Loc> {
    {p, s.at, s.at + 1, s.e, s.e + 1, s.top, s.tail, r.loc, r.loc + 1}
  }

  lemma PeelMade(r: Pair, c: Change, s: Nodes)
    requires PeelFacts(r, c, s) && CellOk(c.g2, s.e) && CellOk(c.g2, s.e + 1)
    ensures forall l :: l in PeelSet(r, c.p, s) ==> CellOk(c.g2, l)
  {
    PeelCtr(r, c, s, r.loc, r.a);
    PeelCtr(r, c, s, r.loc + 1, r.b);
    PeelNew(r, c, s);
  }

  lemma PeelWf(r: Pair, c: Change, s: Nodes)
    requires Wf(c.g1) && PeelFacts(r, c, s)
    ensures IsChange(c) && Wf(c.g2) && TwinOnly(c)
  {
    PeelIsChange(r, c, s);
    PeelMoved(r, c, s);
    PeelMade(r, c, s);
    PeelCovers(r, c, s);
    ChangeWf(c, PeelSet(r, c.p, s));
  }

  lemma PeelInside(r: Pair, c: Change, s: Nodes, l: Loc, base: Loc, m: Loc)
    requires PeelFacts(r, c, s) && ((l == r.loc && base == r.a) || (l == r.loc + 1 && base == r.b))
    requires base <= m < base + r.n - 1
    ensures m in c.g1.live && m !in c.x && m != c.p && m in c.g2.live && c.g1.live[m].rank < c.g1.live[c.p].rank
  {
    assert InFoot(Ctr(r.nam, r.n, base), m);
    assert RefOk(c.g1, l, Ctr(r.nam, r.n, base), m);
  }

  /** Fields other than the last keep their meaning. */
  lemma PeelField(r: Pair, c: Change, s: Nodes, l: Loc, base: Loc, m: Loc)
    requires PeelFacts(r, c, s) && IsChange(c) && Wf(c.g2) && TwinOnly(c)
    requires (l == r.loc && base == r.a) || (l == r.loc + 1 && base == r.b)
    requires base <= m < base + r.n - 1
    ensures m in c.g1.live && m in c.g2.live && Same(ReadAt(c.g1, m), ReadAt(c.g2, m))
  {
    PeelInside(r, c, s, l, base, m);
    NoTwin(c);
    FrameCell(c, m);
  }

  ghost predicate CellsSame(g1: Graph, g2: Graph, t: Term)
    requires Wf(g1) && Wf(g2)
  {
    forall m :: InFoot(t, m) ==> m in g1.live && m in g2.live && Same(ReadAt(g1, m), ReadAt(g2, m))
  }

  lemma KidsSame(g1: Graph, g2: Graph, nam: nat, n1: nat, n2: nat, base: Loc, l: Loc)
    requires Wf(g1) && Wf(g2) && l in g1.live && l in g2.live && n2 <= n1
    requires g1.h[l].term == Ctr(nam, n1, base) && g2.h[l].term == Ctr(nam, n2, base)
    requires CellsSame(g1, g2, Ctr(nam, n2, base))
    ensures var xs, ys := Kids(g1, Ctr(nam, n1, base), l), Kids(g2, Ctr(nam, n2, base), l);
            Alike(xs, ys, n2)
  {
    forall k | 0 <= k < n2
      ensures Same(Kids(g1, Ctr(nam, n1, base), l)[k], Kids(g2, Ctr(nam, n2, base), l)[k])
    {
      assert InFoot(Ctr(nam, n2, base), base + k);
    }
  }

  lemma PeelCellsSame(r: Pair, c: Change, s: Nodes, l: Loc, base: Loc)
    requires PeelFacts(r, c, s) && IsChange(c) && Wf(c.g2) && TwinOnly(c)
    requires (l == r.loc && base == r.a) || (l == r.loc + 1 && base == r.b)
    ensures CellsSame(c.g1, c.g2, Ctr(r.nam, r.n - 1, base))
  {
    forall m | base <= m < base + r.n - 1 {
      PeelField(r, c, s, l, base, m);
    }
  }

  lemma PeelFields(r: Pair, c: Change, s: Nodes, l: Loc, base: Loc)
    requires PeelFacts(r, c, s) && IsChange(c) && Wf(c.g2) && TwinOnly(c)
    requires (l == r.loc && base == r.a) || (l == r.loc + 1 && base == r.b)
    ensures var xs, ys := Kids(c.g1, Ctr(r.nam, r.n, base), l), Kids(c.g2, Ctr(r.nam, r.n - 1, base), l);
            Alike(xs, ys, r.n - 1)
  {
    PeelCellsSame(r, c, s, l, base);
    KidsSame(c.g1, c.g2, r.nam, r.n, r.n - 1, base, l);
  }

  lemma PeelLast(r: Pair, c: Change, s: Nodes)
    requires PeelFacts(r, c, s) && IsChange(c) && Wf(c.g2) && TwinOnly(c)
    ensures Same(ReadAt(c.g1, r.a + r.n - 1), ReadAt(c.g2, s.e))
    ensures Same(ReadAt(c.g1, r.b + r.n - 1), ReadAt(c.g2, s.e + 1))
  {
    NoTwin(c);
    MovedSame(c, r.a + r.n - 1);
    MovedSame(c, r.b + r.n - 1);
  }

  lemma PeelReadsBefore(r: Pair, c: Change, s: Nodes)
    requires PeelFacts(r, c, s) && Wf(c.g1)
    ensures ReadAt(c.g1, c.p) ==
              TBin(KEql, TCtr(r.nam, Kids(c.g1, Ctr(r.nam, r.n, r.a), r.loc)),
                         TCtr(r.nam, Kids(c.g1, Ctr(r.nam, r.n, r.b), r.loc + 1)))
  {
    ReadBin(c.g1, c.p, KEql, r.loc);
    ReadNode(c.g1, Ctr(r.nam, r.n, r.a), r.loc);
    ReadNode(c.g1, Ctr(r.nam, r.n, r.b), r.loc + 1);
  }

  /** What the new nodes read as. */
  lemma PeeledReads(g: Graph, nam: nat, n: nat, loc: Loc, a: Loc, b: Loc, s: Nodes, q: Loc)
    requires Wf(g) && Holds(g, s.top, Bin(KAnd, s.at)) && Holds(g, s.at, Eql(loc)) && Holds(g, s.tail, Eql(s.e))
    requires Holds(g, loc, Ctr(nam, n, a)) && Holds(g, loc + 1, Ctr(nam, n, b))
    requires !Bare(s, q) ==> Holds(g, q, Inc(s.top)) && Holds(g, s.at + 1, Inc(s.tail))
    ensures q in g.live && s.e in g.live && s.e + 1 in g.live
    ensures ReadAt(g, q) ==
            Peeled(nam, Kids(g, Ctr(nam, n, a), loc), Kids(g, Ctr(nam, n, b), loc + 1),
                   ReadAt(g, s.e), ReadAt(g, s.e + 1), !Bare(s, q))
  {
    ReadBin(g, s.top, KAnd, s.at);
    ReadBin(g, s.at, KEql, loc);
    ReadBin(g, s.tail, KEql, s.e);
    ReadNode(g, Ctr(nam, n, a), loc);
    ReadNode(g, Ctr(nam, n, b), loc + 1);
    if !Bare(s, q) {
      ReadInc(g, q, s.top);
      ReadInc(g, s.at + 1, s.tail);
    }
  }

  lemma PeelReadsAfter(r: Pair, c: Change, s: Nodes)
    requires PeelFacts(r, c, s) && Wf(c.g2)
    ensures ReadAt(c.g2, c.p) ==
            Peeled(r.nam, Kids(c.g2, Ctr(r.nam, r.n - 1, r.a), r.loc), Kids(c.g2, Ctr(r.nam, r.n - 1, r.b), r.loc + 1),
                   ReadAt(c.g2, s.e), ReadAt(c.g2, s.e + 1), !Bare(s, c.p))
  {
    PeeledReads(c.g2, r.nam, r.n - 1, r.loc, r.a, r.b, s, c.p);
  }

  lemma PeelSound(r: Pair, c: Change, s: Nodes)
    requires Wf(c.g1) && PeelFacts(r, c, s)
    ensures IsChange(c) && Wf(c.g2) && Sound(c) && Fell(c.g1, c.g2, c.p)
  {
    PeelWf(r, c, s);
    PeelSame(r, c, s);
    NoTwin(c);
    ChangeSound(c);
  }

  lemma PeelSame(r: Pair, c: Change, s: Nodes)
    requires PeelFacts(r, c, s) && IsChange(c) && Wf(c.g2) && TwinOnly(c)
    ensures Reduces(ReadAt(c.g1, c.p), ReadAt(c.g2, c.p))
  {
    PeelReadsBefore(r, c, s);
    PeelReadsAfter(r, c, s);
    PeelFields(r, c, s, r.loc, r.a);
    PeelFields(r, c, s, r.loc + 1, r.b);
    PeelLast(r, c, s);
    PeelLawful(r, c.g1, c.g2, s, !Bare(s, c.p));
  }

  lemma PeelLawful(r: Pair, g1: Graph, g2: Graph, s: Nodes, inc: bool)
    requires Wf(g1) && Wf(g2) && r.n > 1 && r.loc in g1.live && r.loc + 1 in g1.live && r.loc in g2.live
    requires r.loc + 1 in g2.live
    requires g1.h[r.loc].term == Ctr(r.nam, r.n, r.a) && g1.h[r.loc + 1].term == Ctr(r.nam, r.n, r.b)
    requires g2.h[r.loc].term == Ctr(r.nam, r.n - 1, r.a) && g2.h[r.loc + 1].term == Ctr(r.nam, r.n - 1, r.b)
    requires Alike(Kids(g1, Ctr(r.nam, r.n, r.a), r.loc), Kids(g2, Ctr(r.nam, r.n - 1, r.a), r.loc), r.n - 1)
    requires Alike(Kids(g1, Ctr(r.nam, r.n, r.b), r.loc + 1), Kids(g2, Ctr(r.nam, r.n - 1, r.b), r.loc + 1), r.n - 1)
    requires r.a + r.n - 1 in g1.live && s.e in g2.live && Same(ReadAt(g1, r.a + r.n - 1), ReadAt(g2, s.e))
    requires r.b + r.n - 1 in g1.live && s.e + 1 in g2.live && Same(ReadAt(g1, r.b + r.n - 1), ReadAt(g2, s.e + 1))
    ensures var xs, ys := Kids(g1, Ctr(r.nam, r.n, r.a), r.loc), Kids(g1, Ctr(r.nam, r.n, r.b), r.loc + 1);
            var xs', ys' := Kids(g2, Ctr(r.nam, r.n - 1, r.a), r.loc), Kids(g2, Ctr(r.nam, r.n - 1, r.b), r.loc + 1);
            Reduces(TBin(KEql, TCtr(r.nam, xs), TCtr(r.nam, ys)),
                    Peeled(r.nam, xs', ys', ReadAt(g2, s.e), ReadAt(g2, s.e + 1), inc))
  {
    EqlPeelLaw(r.nam, Kids(g1, Ctr(r.nam, r.n, r.a), r.loc), Kids(g1, Ctr(r.nam, r.n, r.b), r.loc + 1),
               Kids(g2, Ctr(r.nam, r.n - 1, r.a), r.loc), Kids(g2, Ctr(r.nam, r.n - 1, r.b), r.loc + 1),
               ReadAt(g2, s.e), ReadAt(g2, s.e + 1), inc);
  }

  lemma PeelDone(r: Pair, c: Change, s: Nodes)
    requires Wf(c.g1) && PeelFacts(r, c, s)
    ensures Kept(c.g1, c.g2, c.p) && Fell(c.g1, c.g2, c.p)
  {
    PeelSound(r, c, s);
    PeelOwnedFrom(r, c);
    ChangeKept(c);
  }

  lemma PeelOwnedFrom(r: Pair, c: Change)
    requires Wf(c.g1) && PeelBefore(r, c.g1, c.p) && c.x == {r.loc, r.loc + 1, r.a + r.n - 1, r.b + r.n - 1}
    ensures OwnedFrom(c)
  {
  }

  lemma PeelKept(r: Pair, g: Graph, q: Loc, s: Nodes)
    requires Wf(g) && PairRedex(r, g, q) && r.n > 1 && NewNodes(g.live, q, s)
    ensures Kept(g, Peel(r, g, q, s).g2, q) && Fell(g, Peel(r, g, q, s).g2, q)
  {
    PeelIt(r, g, q, s);
    PeelDone(r, Peel(r, g, q, s), s);
  }

  /** What is left to compare after splitting off the last fields. */
  lemma PeelLeft(r: Pair, c: Change, s: Nodes)
    requires PeelFacts(r, c, s) && Wf(c.g2)
    ensures PairRedex(r.(n := r.n - 1), c.g2, s.at) && c.p in c.g2.live && c.g2.live[s.at].rank < c.g2.live[c.p].rank
  {
    PairParts(r.(n := r.n - 1), c.g2, s.at);
  }

  lemma PeelRest(r: Pair, g: Graph, q: Loc, s: Nodes)
    requires Wf(g) && PairRedex(r, g, q) && r.n > 1 && NewNodes(g.live, q, s) && Wf(Peel(r, g, q, s).g2)
    ensures var g2 := Peel(r, g, q, s).g2;
            PairRedex(r.(n := r.n - 1), g2, s.at) && q in g2.live && g2.live[s.at].rank < g2.live[q].rank
  {
    PeelIt(r, g, q, s);
    PeelLeft(r, Peel(r, g, q, s), s);
  }

  // ---------------------------------------------------------------------------
  // The whole rule
  // ---------------------------------------------------------------------------

  /** The result after the fields before `i` have been chained; the nodes are allocated from `next` on. */
  function ChainTop(r: Pair, next: Loc, i: nat): Term {
    if i <= 1 then Eql(r.loc) else Bin(KAnd, next + 4 * (i - 1) - 2)
  }

  /** What the loop of `wnf_eql_ctr` has written by then. */
  function ChainWrites(r: Pair, h: Cells, next: Loc, i: nat): Cells {
    if i <= 1 then map[r.loc := Cell(false, At(h, r.a)), r.loc + 1 := Cell(false, At(h, r.b))]
    else
      var e := next + 4 * (i - 2);
      ChainWrites(r, h, next, i - 1)
        [e := Cell(false, At(h, r.a + i - 1))][e + 1 := Cell(false, At(h, r.b + i - 1))]
        [e + 2 := Cell(false, ChainTop(r, next, i - 1))][e + 3 := Cell(false, Eql(e))]
  }

  predicate Vacant(live: map<Loc, Info>, next: Loc, k: nat) {
    forall m :: m in live ==> m < next || next + k <= m
  }

  ghost predicate ChainHas(r: Pair, ws: Cells, next: Loc, i: nat) {
    forall m :: m in ws <==> m == r.loc || m == r.loc + 1 || next <= m < next + 4 * (i - 1)
  }

  lemma {:induction false} ChainKeys(r: Pair, h: Cells, next: Loc, i: nat)
    requires i > 0
    ensures ChainHas(r, ChainWrites(r, h, next, i), next, i)
  {
    if i > 1 {
      ChainKeys(r, h, next, i - 1);
    }
  }

  ghost predicate Agree(h: Cells, h': Cells, t: Term) {
    forall m :: InFoot(t, m) ==> At(h, m) == At(h', m)
  }

  /** The chain depends on the fields only. */
  lemma {:induction false} ChainReads(r: Pair, r': Pair, h: Cells, h': Cells, next: Loc, i: nat)
    requires r.loc == r'.loc && r.a == r'.a && r.b == r'.b && 0 < i <= r.n
    requires Agree(h, h', Ctr(r.nam, r.n, r.a)) && Agree(h, h', Ctr(r.nam, r.n, r.b))
    ensures ChainWrites(r, h, next, i) == ChainWrites(r', h', next, i)
  {
    ChainArgs(r, h, h', i - 1);
    if i > 1 {
      ChainReads(r, r', h, h', next, i - 1);
      assert ChainTop(r, next, i - 1) == ChainTop(r', next, i - 1);
    }
  }

  lemma ChainArgs(r: Pair, h: Cells, h': Cells, k: nat)
    requires k < r.n && Agree(h, h', Ctr(r.nam, r.n, r.a)) && Agree(h, h', Ctr(r.nam, r.n, r.b))
    ensures At(h, r.a + k) == At(h', r.a + k) && At(h, r.b + k) == At(h', r.b + k)
  {
    assert InFoot(Ctr(r.nam, r.n, r.a), r.a + k) && InFoot(Ctr(r.nam, r.n, r.b), r.b + k);
  }

  ghost function ChainHeap(r: Pair, h: Cells, q: Loc, next: Loc): Cells {
    (h + ChainWrites(r, h, next, r.n))[q := Cell(false, ChainTop(r, next, r.n))]
  }

  /** The nodes for one turn of the loop. */
  function ChainNodes(q: Loc, e: Loc): Nodes {
    Nodes(e + 2, e, q, e + 3)
  }

  /** Splitting off the last fields does not disturb the others. */
  lemma PeelAgree(r: Pair, g: Graph, q: Loc, s: Nodes, l: Loc, base: Loc)
    requires Wf(g) && PairRedex(r, g, q) && r.n > 1 && NewNodes(g.live, q, s)
    requires (l == r.loc && base == r.a) || (l == r.loc + 1 && base == r.b)
    ensures Agree(PeelCells(r, g.h, q, s), g.h, Ctr(r.nam, r.n - 1, base))
  {
    var t := Ctr(r.nam, r.n - 1, base);
    var h := PeelCells(r, g.h, q, s);
    forall m | InFoot(t, m)
      ensures At(h, m) == At(g.h, m)
    {
      assert InFoot(Ctr(r.nam, r.n, base), m);
      assert RefOk(g, l, Ctr(r.nam, r.n, base), m);
    }
  }

  lemma ChainGlueAt(r: Pair, h: Cells, q: Loc, next: Loc, ws: Cells, lhs: Cells, rhs: Cells, e: Loc, m: Loc)
    requires r.n > 1 && ws == ChainWrites(r, h, next, r.n - 1) && ChainHas(r, ws, next, r.n - 1)
    requires (q < next || next + 4 * (r.n - 1) <= q) && q != r.loc && q != r.loc + 1
    requires r.loc + 1 < next && e == next + 4 * (r.n - 2)
    requires lhs == (PeelCells(r, h, q, ChainNodes(q, e)) + ws)[e + 2 := Cell(false, ChainTop(r, next, r.n - 1))]
    requires rhs == ChainHeap(r, h, q, next)
    ensures (m in lhs <==> m in rhs) && (m in lhs ==> lhs[m] == rhs[m])
  {
    if m == q || m == e + 2 {
    } else if m in ws {
      assert lhs[m] == ws[m] && rhs[m] == ws[m];
    } else if e <= m < e + 4 {
    } else {
      assert (m in lhs <==> m in h) && (m in rhs <==> m in h);
    }
  }

  lemma ChainGlueAll(r: Pair, h: Cells, q: Loc, next: Loc, ws: Cells, lhs: Cells, rhs: Cells, e: Loc)
    requires r.n > 1 && ws == ChainWrites(r, h, next, r.n - 1) && ChainHas(r, ws, next, r.n - 1)
    requires (q < next || next + 4 * (r.n - 1) <= q) && q != r.loc && q != r.loc + 1
    requires r.loc + 1 < next && e == next + 4 * (r.n - 2)
    requires lhs == (PeelCells(r, h, q, ChainNodes(q, e)) + ws)[e + 2 := Cell(false, ChainTop(r, next, r.n - 1))]
    requires rhs == ChainHeap(r, h, q, next)
    ensures lhs == rhs
  {
    forall m
      ensures (m in lhs <==> m in rhs) && (m in lhs ==> lhs[m] == rhs[m])
    {
      ChainGlueAt(r, h, q, next, ws, lhs, rhs, e, m);
    }
  }

  lemma ChainGlue(r: Pair, h: Cells, q: Loc, next: Loc, ws: Cells, e: Loc)
    requires r.n > 1 && ws == ChainWrites(r, h, next, r.n - 1) && ChainHas(r, ws, next, r.n - 1)
    requires (q < next || next + 4 * (r.n - 1) <= q) && q != r.loc && q != r.loc + 1
    requires r.loc + 1 < next && e == next + 4 * (r.n - 2)
    ensures (PeelCells(r, h, q, ChainNodes(q, e)) + ws)[e + 2 := Cell(false, ChainTop(r, next, r.n - 1))] ==
              ChainHeap(r, h, q, next)
  {
    var lhs := (PeelCells(r, h, q, ChainNodes(q, e)) + ws)[e + 2 := Cell(false, ChainTop(r, next, r.n - 1))];
    ChainGlueAll(r, h, q, next, ws, lhs, ChainHeap(r, h, q, next), e);
  }

  lemma ChainAgree(r: Pair, g: Graph, q: Loc, s: Nodes, next: Loc)
    requires Wf(g) && PairRedex(r, g, q) && r.n > 1 && NewNodes(g.live, q, s)
    ensures var r' := r.(n := r.n - 1);
            ChainWrites(r', PeelCells(r, g.h, q, s), next, r'.n) == ChainWrites(r, g.h, next, r'.n)
  {
    var r' := r.(n := r.n - 1);
    PeelAgree(r, g, q, s, r.loc, r.a);
    PeelAgree(r, g, q, s, r.loc + 1, r.b);
    ChainReads(r', r, PeelCells(r, g.h, q, s), g.h, next, r'.n);
  }

  lemma ChainNew(r: Pair, g: Graph, q: Loc, next: Loc)
    requires PairRedex(r, g, q) && r.n > 1 && Vacant(g.live, next, 4 * (r.n - 1))
    ensures NewNodes(g.live, q, ChainNodes(q, next + 4 * (r.n - 2)))
    ensures (q < next || next + 4 * (r.n - 1) <= q) && q != r.loc && q != r.loc + 1
  {
  }

  lemma ChainShorter(r: Pair, h: Cells, q: Loc, next: Loc, ws: Cells, rhs: Cells)
    requires r.n > 1 && ws == ChainWrites(r.(n := r.n - 1), h, next, r.n - 1)
    requires (h + ws)[q := Cell(false, ChainTop(r, next, r.n - 1))] == rhs
    ensures ChainHeap(r.(n := r.n - 1), h, q, next) == rhs
  {
  }

  /** With the chain up to the last fields written, the shorter chain over the peeled pair is the whole chain. */
  lemma ChainJoin(r: Pair, h: Cells, h': Cells, q: Loc, next: Loc, e: Loc)
    requires r.n > 1 && e == next + 4 * (r.n - 2) && h' == PeelCells(r, h, q, ChainNodes(q, e))
    requires (q < next || next + 4 * (r.n - 1) <= q) && q != r.loc && q != r.loc + 1 && r.loc + 1 < next
    requires ChainWrites(r.(n := r.n - 1), h', next, r.n - 1) == ChainWrites(r, h, next, r.n - 1)
    ensures ChainHeap(r.(n := r.n - 1), h', e + 2, next) == ChainHeap(r, h, q, next)
  {
    var ws := ChainWrites(r, h, next, r.n - 1);
    ChainKeys(r, h, next, r.n - 1);
    ChainGlue(r, h, q, next, ws, e);
    ChainShorter(r, h', e + 2, next, ws, ChainHeap(r, h, q, next));
  }

  /** Splitting off the last fields first leads to the same cells. */
  lemma ChainStep(r: Pair, g: Graph, q: Loc, next: Loc, e: Loc)
    requires Wf(g) && PairRedex(r, g, q) && r.n > 1 && Vacant(g.live, next, 4 * (r.n - 1)) && r.loc + 1 < next
    requires e == next + 4 * (r.n - 2)
    ensures ChainHeap(r.(n := r.n - 1), PeelCells(r, g.h, q, ChainNodes(q, e)), e + 2, next) ==
              ChainHeap(r, g.h, q, next)
  {
    ChainNew(r, g, q, next);
    ChainAgree(r, g, q, ChainNodes(q, e), next);
    ChainJoin(r, g.h, PeelCells(r, g.h, q, ChainNodes(q, e)), q, next, e);
  }

  lemma ChainOne(r: Pair, g: Graph, q: Loc, next: Loc)
    requires PairRedex(r, g, q) && r.n == 1
    ensures One(r, g, q, q).g2.h == ChainHeap(r, g.h, q, next)
  {
  }

  lemma PeelVacant(r: Pair, g: Graph, q: Loc, next: Loc, e: Loc)
    requires PairRedex(r, g, q) && r.n > 1 && Vacant(g.live, next, 4 * (r.n - 1)) && e == next + 4 * (r.n - 2)
    ensures Vacant(PeelLive(r, q, ChainNodes(q, e), g.live), next, 4 * (r.n - 2))
    ensures forall m :: m in PeelLive(r, q, ChainNodes(q, e), g.live) ==>
              m in g.live || next <= m < next + 4 * (r.n - 1)
  {
  }

  /** One step of the chain: what is left is the same rule for one field less. */
  lemma PeelNext(r: Pair, g: Graph, q: Loc, next: Loc, e: Loc)
    requires Wf(g) && PairRedex(r, g, q) && r.n > 1 && Vacant(g.live, next, 4 * (r.n - 1)) && r.loc + 1 < next
    requires e == next + 4 * (r.n - 2)
    ensures var g' := Peel(r, g, q, ChainNodes(q, e)).g2;
            && ChainHeap(r.(n := r.n - 1), g'.h, e + 2, next) == ChainHeap(r, g.h, q, next)
            && Vacant(g'.live, next, 4 * (r.n - 2))
            && forall m :: m in g'.live ==> m in g.live || next <= m < next + 4 * (r.n - 1)
  {
    PeelVacant(r, g, q, next, e);
    ChainStep(r, g, q, next, e);
  }

  lemma ChainPeel(r: Pair, g: Graph, q: Loc, next: Loc, e: Loc, at: Loc) returns (g': Graph)
    requires Wf(g) && PairRedex(r, g, q) && r.n > 1 && Vacant(g.live, next, 4 * (r.n - 1)) && r.loc + 1 < next
    requires e == next + 4 * (r.n - 2) && at == e + 2
    ensures PairRedex(r.(n := r.n - 1), g', at) && at !in g.live && q in g'.live && g'.live[at].rank < g'.live[q].rank
    ensures Kept(g, g', q) && Fell(g, g', q)
    ensures ChainHeap(r.(n := r.n - 1), g'.h, at, next) == ChainHeap(r, g.h, q, next)
    ensures Vacant(g'.live, next, 4 * (r.n - 2))
    ensures forall m :: m in g'.live ==> m in g.live || next <= m < next + 4 * (r.n - 1)
  {
    var s := ChainNodes(q, e);
    g' := Peel(r, g, q, s).g2;
    PeelKept(r, g, q, s);
    PeelRest(r, g, q, s);
    PeelNext(r, g, q, next, e);
  }

  lemma ChainBase(r: Pair, g: Graph, q: Loc, next: Loc) returns (g2: Graph)
    requires Wf(g) && PairRedex(r, g, q) && r.n == 1
    ensures Kept(g, g2, q) && Fell(g, g2, q) && g2.h == ChainHeap(r, g.h, q, next)
    ensures forall m :: m in g2.live ==> m in g.live
  {
    OneKept(r, g, q, q);
    ChainOne(r, g, q, next);
    OneKeys(r, q, q, g.live);
    g2 := One(r, g, q, q).g2;
  }

  /** The `AND` chain of the rule, for any number of fields. */
  lemma {:induction false} Chain(r: Pair, g: Graph, q: Loc, next: Loc) returns (g2: Graph)
    requires Wf(g) && PairRedex(r, g, q) && Vacant(g.live, next, 4 * (r.n - 1)) && r.loc + 1 < next
    ensures Kept(g, g2, q) && Fell(g, g2, q) && g2.h == ChainHeap(r, g.h, q, next)
    ensures forall m :: m in g2.live ==> m in g.live || next <= m < next + 4 * (r.n - 1)
    decreases r.n
  {
    if r.n == 1 {
      g2 := ChainBase(r, g, q, next);
    } else {
      var e := next + 4 * (r.n - 2);
      var at := e + 2;
      var g' := ChainPeel(r, g, q, next, e, at);
      g2 := Chain(r.(n := r.n - 1), g', at, next);
      KeptThen(g, g', g2, q, at);
    }
  }

  // SUC and CON: the comparison is wrapped in INC

  function SucWrites(r: Pair, h: Cells, t: Loc): Cells {
    map[r.loc := Cell(false, At(h, r.a)), r.loc + 1 := Cell(false, At(h, r.b)), t := Cell(false, Eql(r.loc))]
  }

  /** EQL-CTR on successors. */
  lemma Suc(r: Pair, g: Graph, q: Loc, t: Loc) returns (g2: Graph)
    requires Wf(g) && PairRedex(r, g, q) && r.n == 1 && t !in g.live
    ensures Kept(g, g2, q) && Fell(g, g2, q) && g2.h == (g.h + SucWrites(r, g.h, t))[q := Cell(false, Inc(t))]
    ensures forall m :: m in g2.live ==> m in g.live || m == t
  {
    OneKept(r, g, q, t);
    OneKeys(r, q, t, g.live);
    g2 := One(r, g, q, t).g2;
    SucCells(r, g.h, q, t);
  }

  lemma SucCells(r: Pair, h: Cells, q: Loc, t: Loc)
    requires q != r.loc && q != r.loc + 1 && t != r.loc && t != r.loc + 1 && t != q
    ensures OneCells(r, h, q, t) == (h + SucWrites(r, h, t))[q := Cell(false, Inc(t))]
  {
  }

  function ConWrites(r: Pair, h: Cells, e: Loc): Cells {
    map[r.loc := Cell(false, At(h, r.a)), r.loc + 1 := Cell(false, At(h, r.b)),
        e := Cell(false, At(h, r.a + 1)), e + 1 := Cell(false, At(h, r.b + 1)),
        e + 2 := Cell(false, Eql(e)), e + 3 := Cell(false, Eql(r.loc)), e + 4 := Cell(false, Inc(e + 2)),
        e + 5 := Cell(false, Bin(KAnd, e + 3))]
  }

  function ConNodes(e: Loc): Nodes {
    Nodes(e + 3, e, e + 5, e + 2)
  }

  ghost function ConCells(r: Pair, h: Cells, q: Loc, e: Loc): Cells
    requires r.n == 2
  {
    OneCells(r, PeelCells(r, h, q, ConNodes(e)), e + 3, e + 3)
  }

  lemma ConGlueAt(r: Pair, h: Cells, q: Loc, e: Loc, m: Loc)
    requires r.n == 2 && r.loc + 1 < e && q < e && q != r.loc && q != r.loc + 1
    requires var h' := PeelCells(r, h, q, ConNodes(e)); At(h', r.a) == At(h, r.a) && At(h', r.b) == At(h, r.b)
    ensures var lhs, rhs := ConCells(r, h, q, e), (h + ConWrites(r, h, e))[q := Cell(false, Inc(e + 5))];
            (m in lhs <==> m in rhs) && (m in lhs ==> lhs[m] == rhs[m])
  {
    var lhs, rhs := ConCells(r, h, q, e), (h + ConWrites(r, h, e))[q := Cell(false, Inc(e + 5))];
    if m == q || m == r.loc || m == r.loc + 1 {
    } else if e <= m < e + 6 {
    } else {
      assert (m in lhs <==> m in h) && (m in rhs <==> m in h);
    }
  }

  lemma ConGlueAll(r: Pair, h: Cells, q: Loc, e: Loc, lhs: Cells, rhs: Cells)
    requires r.n == 2 && r.loc + 1 < e && q < e && q != r.loc && q != r.loc + 1
    requires var h' := PeelCells(r, h, q, ConNodes(e)); At(h', r.a) == At(h, r.a) && At(h', r.b) == At(h, r.b)
    requires lhs == ConCells(r, h, q, e) && rhs == (h + ConWrites(r, h, e))[q := Cell(false, Inc(e + 5))]
    ensures lhs == rhs
  {
    forall m
      ensures (m in lhs <==> m in rhs) && (m in lhs ==> lhs[m] == rhs[m])
    {
      ConGlueAt(r, h, q, e, m);
    }
  }

  lemma ConGlue(r: Pair, g: Graph, q: Loc, e: Loc)
    requires Wf(g) && PairRedex(r, g, q) && r.n == 2 && Fresh(g.live, e)
    ensures ConCells(r, g.h, q, e) == (g.h + ConWrites(r, g.h, e))[q := Cell(false, Inc(e + 5))]
  {
    PeelAgree(r, g, q, ConNodes(e), r.loc, r.a);
    PeelAgree(r, g, q, ConNodes(e), r.loc + 1, r.b);
    assert InFoot(Ctr(r.nam, 1, r.a), r.a) && InFoot(Ctr(r.nam, 1, r.b), r.b);
    ConGlueAll(r, g.h, q, e, ConCells(r, g.h, q, e), (g.h + ConWrites(r, g.h, e))[q := Cell(false, Inc(e + 5))]);
  }

  lemma ConPeel(r: Pair, g: Graph, q: Loc, e: Loc) returns (g2: Graph)
    requires Wf(g) && PairRedex(r, g, q) && r.n == 2 && Fresh(g.live, e)
    ensures Kept(g, g2, q) && Fell(g, g2, q) && g2.h == PeelCells(r, g.h, q, ConNodes(e))
    ensures PairRedex(r.(n := 1), g2, e + 3) && q in g2.live && g2.live[e + 3].rank < g2.live[q].rank
    ensures forall m :: m in g2.live ==> m in g.live || e <= m < e + 6
  {
    g2 := Peel(r, g, q, ConNodes(e)).g2;
    PeelKept(r, g, q, ConNodes(e));
    PeelRest(r, g, q, ConNodes(e));
  }

  lemma ConOne(r: Pair, g1: Graph, q: Loc) returns (g2: Graph)
    requires Wf(g1) && PairRedex(r, g1, q) && r.n == 1
    ensures Kept(g1, g2, q) && g2.h == OneCells(r, g1.h, q, q) && forall m :: m in g2.live ==> m in g1.live || m == q
  {
    OneKept(r, g1, q, q);
    OneKeys(r, q, q, g1.live);
    g2 := One(r, g1, q, q).g2;
  }

  lemma ConTwo(r: Pair, g: Graph, q: Loc, e: Loc, g1: Graph) returns (g2: Graph)
    requires Wf(g) && PairRedex(r, g, q) && r.n == 2 && Fresh(g.live, e)
    requires Wf(g1) && PairRedex(r.(n := 1), g1, e + 3) && g1.h == PeelCells(r, g.h, q, ConNodes(e))
    ensures Kept(g1, g2, e + 3) && g2.h == (g.h + ConWrites(r, g.h, e))[q := Cell(false, Inc(e + 5))]
    ensures forall m :: m in g2.live ==> m in g1.live || m == e + 3
  {
    g2 := ConOne(r.(n := 1), g1, e + 3);
    assert OneCells(r.(n := 1), g1.h, e + 3, e + 3) == OneCells(r, g1.h, e + 3, e + 3);
    ConGlue(r, g, q, e);
  }

  /** EQL-CTR on list cells: the heads are compared in the old node, the tails in a new one. */
  lemma Con(r: Pair, g: Graph, q: Loc, e: Loc, ws: Cells, top: Loc) returns (g2: Graph)
    requires Wf(g) && PairRedex(r, g, q) && r.n == 2 && Fresh(g.live, e) && ws == ConWrites(r, g.h, e) && top == e + 5
    ensures Kept(g, g2, q) && Fell(g, g2, q) && g2.h == (g.h + ws)[q := Cell(false, Inc(top))]
    ensures forall m :: m in g2.live ==> m in g.live || e <= m < e + 6
  {
    var g1 := ConPeel(r, g, q, e);
    g2 := ConTwo(r, g, q, e, g1);
    KeptThen(g, g1, g2, q, e + 3);
  }
}
