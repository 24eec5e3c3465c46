/** The step of `cnf` that lifts a superposition out of a field of a node, `clang/cnf/_.c`. */
module RulesCnf {
  import opened U32Ops
  import opened Calculus
  import opened Reduction
  import opened Laws
  import opened Heap
  import opened Rules
  import opened RulesDup

  /**
   The node in the redex, with fields from `at` on; field `j` is the superposition `lab` at `sup`. The
   other fields go to the DUP cells from `next` on, then come the second node and the new superposition.
   */
  datatype Raise = Raise(head: Head, at: Loc, j: nat, lab: Label, sup: Loc, next: Loc)

  predicate Raisable(head: Head) {
    head.HCtr? || head.HBin?
  }

  function Copies(r: Raise): Loc {
    r.next + Ari(r.head) - 1
  }

  function NewSup(r: Raise): Loc {
    Copies(r) + Ari(r.head)
  }

  /** A field other than the superposition. */
  predicate Other(r: Raise, m: Loc) {
    Within(m, r.at, Ari(r.head)) && m != r.at + r.j
  }

  predicate AnyField(r: Raise, m: Loc) {
    Within(m, r.at, Ari(r.head))
  }

  /** Where a field goes; where its second reader is. */
  function DupOf(r: Raise, m: Loc): Loc {
    if m < r.at + r.j then r.next + (m - r.at) else r.next + (m - r.at) - 1
  }

  function CopyOf(r: Raise, m: Loc): Loc {
    Copies(r) + (m - r.at)
  }

  /** The field that is in DUP cell `m`, or that is read by the copy `m`. */
  function DupField(r: Raise, m: Loc): Loc {
    if m < r.next + r.j then r.at + (m - r.next) else r.at + (m - r.next) + 1
  }

  function CopyField(r: Raise, m: Loc): Loc {
    r.at + (m - Copies(r))
  }

  predicate IsDup(r: Raise, m: Loc) {
    r.next <= m < Copies(r)
  }

  predicate IsCopy(r: Raise, m: Loc) {
    Within(m, Copies(r), Ari(r.head))
  }

  ghost predicate RaiseApart(r: Raise, p: Loc) {
    && Raisable(r.head) && r.j < Ari(r.head)
    && p < r.next && r.at + Ari(r.head) <= r.next && r.sup + 1 < r.next
    && !AnyField(r, p) && !AnyField(r, r.sup) && !AnyField(r, r.sup + 1) && p != r.sup && p != r.sup + 1
  }

  ghost predicate RaiseRedex(r: Raise, g: Graph, p: Loc) {
    && Fresh(g.live, r.next) && RaiseApart(r, p)
    && Holds(g, p, Node(r.head, r.at)) && TermOk(g, p, Node(r.head, r.at))
    && Holds(g, r.at + r.j, Sup(r.lab, r.sup))
    && RefOk(g, r.at + r.j, Sup(r.lab, r.sup), r.sup) && RefOk(g, r.at + r.j, Sup(r.lab, r.sup), r.sup + 1)
  }

  lemma RaiseField(r: Raise, g: Graph, p: Loc, m: Loc)
    requires RaiseRedex(r, g, p) && AnyField(r, m)
    ensures RefOk(g, p, Node(r.head, r.at), m)
  {
    assert InFoot(Node(r.head, r.at), m);
  }

  lemma RaiseParts(r: Raise, g: Graph, p: Loc)
    requires Wf(g) && Fresh(g.live, r.next) && Raisable(r.head) && r.j < Ari(r.head)
    requires Holds(g, p, Node(r.head, r.at)) && r.at + r.j in g.h && g.h[r.at + r.j].term == Sup(r.lab, r.sup)
    ensures RaiseRedex(r, g, p)
  {
    var t, u := Node(r.head, r.at), Sup(r.lab, r.sup);
    assert TermOk(g, p, t) && InFoot(t, r.at + r.j);
    assert InFoot(t, r.at) && InFoot(t, r.at + Ari(r.head) - 1);
    assert RefOk(g, p, t, r.at + r.j);
    assert TermOk(g, r.at + r.j, u) && InFoot(u, r.sup) && InFoot(u, r.sup + 1);
    forall m | AnyField(r, m)
      ensures RefOk(g, p, t, m) && m != p && m != r.sup && m != r.sup + 1
    {
      assert InFoot(t, m);
      assert RefOk(g, r.at + r.j, u, r.sup) && RefOk(g, r.at + r.j, u, r.sup + 1);
    }
  }

  ghost predicate RaiseWrites(r: Raise, c: Change) {
    && IsCell(c.g2.h, c.p, Sup(r.lab, NewSup(r)))
    && IsCell(c.g2.h, NewSup(r), Node(r.head, r.at)) && IsCell(c.g2.h, NewSup(r) + 1, Node(r.head, Copies(r)))
    && IsCell(c.g2.h, r.at + r.j, At(c.g1.h, r.sup)) && IsCell(c.g2.h, Copies(r) + r.j, At(c.g1.h, r.sup + 1))
    && (forall m :: Other(r, m) ==>
          && IsCell(c.g2.h, m, Dp(0, r.lab, DupOf(r, m))) && IsCell(c.g2.h, CopyOf(r, m), Dp(1, r.lab, DupOf(r, m)))
          && IsCell(c.g2.h, DupOf(r, m), At(c.g1.h, m)))
    && CellsKept(c)
  }

  ghost function RaiseMoves(r: Raise): map<Loc, Loc> {
    map m | m in Range(r.at, Ari(r.head)) - {r.at + r.j} + {r.sup, r.sup + 1} ::
      if m == r.sup then r.at + r.j else if m == r.sup + 1 then Copies(r) + r.j else DupOf(r, m)
  }

  ghost function RaiseLive(r: Raise, p: Loc, live: map<Loc, Info>): map<Loc, Info>
    requires p in live && live[p].rank > 0
  {
    var n := 4 * (live[p].rank - 1);
    map m | m in (live.Keys - {r.sup, r.sup + 1}) + Range(r.next, 2 * Ari(r.head) + 1) ::
      if m == NewSup(r) || m == NewSup(r) + 1 then Own(n + 2, p)
      else if AnyField(r, m) then Own(n + 1, NewSup(r))
      else if IsCopy(r, m) then Own(n + 1, NewSup(r) + 1)
      else if IsDup(r, m) then Info(n, DupField(r, m), CopyOf(r, DupField(r, m)), r.lab)
      else if m in live then Respread(live[m], RaiseMoves(r))
      else Own(0, 0)
  }

  ghost predicate RaiseTable(r: Raise, c: Change)
    requires c.p in c.g1.live && c.g1.live[c.p].rank > 0
  {
    var n := 4 * (c.g1.live[c.p].rank - 1);
    && InfoIs(c.g2.live, NewSup(r), Own(n + 2, c.p)) && InfoIs(c.g2.live, NewSup(r) + 1, Own(n + 2, c.p))
    && (forall m :: AnyField(r, m) ==>
          InfoIs(c.g2.live, m, Own(n + 1, NewSup(r))) && InfoIs(c.g2.live, CopyOf(r, m), Own(n + 1, NewSup(r) + 1)))
    && (forall m :: Other(r, m) ==> InfoIs(c.g2.live, DupOf(r, m), Info(n, m, CopyOf(r, m), r.lab)))
    && LiveKept(c)
    && (forall m :: m in c.g2.live ==>
          (m in c.g1.live && m != r.sup && m != r.sup + 1) || IsDup(r, m) || IsCopy(r, m)
          || m == NewSup(r) || m == NewSup(r) + 1)
  }

  /** What is overwritten, and where its terms go. */
  ghost predicate RaiseSets(r: Raise, c: Change) {
    && (forall m :: m in c.x <==> AnyField(r, m) || m == r.sup || m == r.sup + 1)
    && (forall m :: m in c.moves <==> Other(r, m) || m == r.sup || m == r.sup + 1)
    && c.moves[r.sup] == r.at + r.j && c.moves[r.sup + 1] == Copies(r) + r.j
    && (forall m :: Other(r, m) ==> c.moves[m] == DupOf(r, m))
    && c.o == {c.p, r.at + r.j} && c.tw == Era
  }

  lemma RaiseSetsIt(r: Raise, c: Change)
    requires RaiseApart(r, c.p)
    requires c.x == Range(r.at, Ari(r.head)) + {r.sup, r.sup + 1} && c.o == {c.p, r.at + r.j}
    requires c.moves == RaiseMoves(r) && c.tw == Era
    ensures RaiseSets(r, c)
  {
    assert forall m :: m in Range(r.at, Ari(r.head)) <==> AnyField(r, m);
  }

  ghost predicate RaiseStep(r: Raise, c: Change) {
    RaiseRedex(r, c.g1, c.p) && c.g1.live[c.p].rank > 0 && RaiseWrites(r, c) && RaiseTable(r, c) && RaiseSets(r, c)
  }

  lemma RaiseInside(r: Raise, g: Graph, p: Loc, m: Loc)
    requires RaiseRedex(r, g, p) && (AnyField(r, m) || m == r.sup || m == r.sup + 1)
    ensures m in g.live && g.live[m].rank < g.live[p].rank && g.live[m].own0 == g.live[m].own1
    ensures g.live[m].own0 == if AnyField(r, m) then p else r.at + r.j
    ensures !IsRoot(g, m)
  {
    RaiseField(r, g, p, r.at + r.j);
    if AnyField(r, m) {
      RaiseField(r, g, p, m);
    }
  }

  lemma RaiseOwned(r: Raise, c: Change)
    requires Wf(c.g1) && RaiseRedex(r, c.g1, c.p)
    requires RaiseSets(r, c)
    ensures Owned(c) && Below(c) && OwnedFrom(c)
  {
    forall m | m in c.x
      ensures m in c.g1.live && c.g1.live[m].own0 == c.g1.live[m].own1 && c.g1.live[m].own0 in c.o
      ensures c.g1.live[m].rank < c.g1.live[c.p].rank && !IsRoot(c.g1, m)
    {
      RaiseInside(r, c.g1, c.p, m);
    }
    assert AnyField(r, r.at + r.j);
    OwnedByTable(c);
  }

  lemma RaiseCarry(r: Raise, c: Change, f: Loc)
    requires RaiseStep(r, c) && (Other(r, f) || f == r.sup || f == r.sup + 1)
    ensures f in c.moves && Carries(c, f, c.moves[f])
  {
    assert AnyField(r, r.at + r.j) && CopyOf(r, r.at + r.j) == Copies(r) + r.j;
    RaiseInside(r, c.g1, c.p, f);
    RaiseField(r, c.g1, c.p, r.at + r.j);
    if Other(r, f) {
      RaiseField(r, c.g1, c.p, f);
    }
  }

  lemma RaiseMoved(r: Raise, c: Change)
    requires RaiseStep(r, c)
    ensures Moves(c)
  {
    forall f | f in c.moves
      ensures f in c.x && Carries(c, f, c.moves[f])
    {
      RaiseCarry(r, c, f);
    }
  }

  lemma RaiseIsChange(r: Raise, c: Change)
    requires Wf(c.g1) && RaiseStep(r, c)
    ensures IsChange(c) && OwnedFrom(c) && TwinOnly(c)
  {
    RaiseOwned(r, c);
    RaiseMoved(r, c);
  }

  lemma RaiseNew(r: Raise, c: Change)
    requires RaiseStep(r, c)
    ensures CellOk(c.g2, c.p) && CellOk(c.g2, NewSup(r)) && CellOk(c.g2, NewSup(r) + 1)
  {
    forall m | InFoot(Node(r.head, Copies(r)), m)
      ensures RefOk(c.g2, NewSup(r) + 1, Node(r.head, Copies(r)), m)
    {
      assert AnyField(r, CopyField(r, m)) && m == CopyOf(r, CopyField(r, m));
      assert Other(r, CopyField(r, m)) || CopyField(r, m) == r.at + r.j;
    }
    forall m | InFoot(Node(r.head, r.at), m)
      ensures RefOk(c.g2, NewSup(r), Node(r.head, r.at), m)
    {
      assert AnyField(r, m);
      assert Other(r, m) || m == r.at + r.j;
    }
  }

  /** The readers of a field that went to a DUP cell. */
  lemma RaiseReaders(r: Raise, c: Change, m: Loc)
    requires RaiseStep(r, c) && Other(r, m)
    ensures CellOk(c.g2, m) && CellOk(c.g2, CopyOf(r, m))
  {
    assert AnyField(r, m);
  }

  /** The sides, where they were and where they are put. */
  lemma RaiseSideCells(r: Raise, c: Change)
    requires RaiseStep(r, c)
    ensures r.sup in c.moves && c.moves[r.sup] == r.at + r.j
    ensures r.sup + 1 in c.moves && c.moves[r.sup + 1] == Copies(r) + r.j
  {
  }

  lemma RaiseDupMoves(r: Raise, c: Change, l: Loc, f: Loc)
    requires RaiseStep(r, c) && IsDup(r, l) && f == DupField(r, l)
    ensures f in c.moves && c.moves[f] == l
  {
    assert Other(r, f) && DupOf(r, f) == l;
  }

  lemma RaiseSurvivor(r: Raise, c: Change, f: Loc, to: Loc)
    requires RaiseStep(r, c) && IsChange(c) && f in c.moves && c.moves[f] == to
    ensures CellOk(c.g2, to)
  {
    MovedOk(c, f);
  }

  ghost predicate RaiseMade(r: Raise, p: Loc, l: Loc) {
    l == p || l == NewSup(r) || l == NewSup(r) + 1 || AnyField(r, l) || IsDup(r, l) || IsCopy(r, l)
  }

  lemma RaiseDupOk(r: Raise, c: Change, l: Loc)
    requires RaiseStep(r, c) && IsChange(c) && IsDup(r, l)
    ensures CellOk(c.g2, l)
  {
    RaiseDupMoves(r, c, l, DupField(r, l));
    RaiseSurvivor(r, c, DupField(r, l), l);
  }

  lemma RaiseCopyOk(r: Raise, c: Change, l: Loc)
    requires RaiseStep(r, c) && IsChange(c) && IsCopy(r, l)
    ensures CellOk(c.g2, l)
  {
    if l == Copies(r) + r.j {
      RaiseSideCells(r, c);
      RaiseSurvivor(r, c, r.sup + 1, l);
    } else {
      RaiseReaders(r, c, CopyField(r, l));
    }
  }

  lemma RaiseFieldOk(r: Raise, c: Change, l: Loc)
    requires RaiseStep(r, c) && IsChange(c) && AnyField(r, l)
    ensures CellOk(c.g2, l)
  {
    if l == r.at + r.j {
      RaiseSideCells(r, c);
      RaiseSurvivor(r, c, r.sup, l);
    } else {
      RaiseReaders(r, c, l);
    }
  }

  lemma RaiseMadeOk(r: Raise, c: Change, l: Loc)
    requires RaiseStep(r, c) && IsChange(c) && RaiseMade(r, c.p, l)
    ensures CellOk(c.g2, l)
  {
    if AnyField(r, l) {
      RaiseFieldOk(r, c, l);
    } else if IsDup(r, l) {
      RaiseDupOk(r, c, l);
    } else if IsCopy(r, l) {
      RaiseCopyOk(r, c, l);
    } else {
      RaiseNew(r, c);
    }
  }

  lemma RaiseWf(r: Raise, c: Change)
    requires Wf(c.g1) && RaiseStep(r, c)
    ensures IsChange(c) && OwnedFrom(c) && Wf(c.g2) && TwinOnly(c)
  {
    RaiseIsChange(r, c);
    forall l | RaiseMade(r, c.p, l) && l in c.g2.live
      ensures CellOk(c.g2, l)
    {
      RaiseMadeOk(r, c, l);
    }
    RaiseCovers(r, c);
    ChangeWf(c, set l | l in c.g2.live && RaiseMade(r, c.p, l));
  }

  lemma RaiseCovers(r: Raise, c: Change)
    requires RaiseStep(r, c)
    ensures forall l :: l in c.g2.live ==> RaiseMade(r, c.p, l) || (l in c.g1.live && l !in c.x && l != c.p)
    ensures TwinOk(c)
  {
  }

  // ---------------------------------------------------------------------------
  // The law
  // ---------------------------------------------------------------------------

  /** A node computes from the values of its fields. */
  lemma BuildAt(head: Head, xs: seq<Tree>, r: Env, ys: seq<Tree>, r': Env)
    requires Raisable(head) && |xs| == |ys| == Ari(head)
    requires forall k :: 0 <= k < |xs| ==> D(xs[k], r) == D(ys[k], r')
    ensures D(Build(head, xs), r) == D(Build(head, ys), r')
  {
    if head.HBin? {
      assert D(xs[0], r) == D(ys[0], r') && D(xs[1], r) == D(ys[1], r');
    }
  }

  /** The field of a copy: the chosen side of the superposition, or a reader of the shared field. */
  ghost predicate RaisedField(i: bit, lab: Label, j: nat, k: nat, before: Tree, side: Tree, after: Tree) {
    if k == j then Same(side, after) else exists y :: Same(before, y) && after == TDp(i, lab, y)
  }

  lemma RaisedSide(i: bit, lab: Label, j: nat, kids: seq<Tree>, side: Tree, after: seq<Tree>)
    requires |kids| == |after| && j < |kids|
    requires forall k :: 0 <= k < |kids| ==> RaisedField(i, lab, j, k, kids[k], side, after[k])
    ensures AllSame(Side(i, lab, kids, j, side), after)
  {
    var us := Side(i, lab, kids, j, side);
    forall k | 0 <= k < |kids|
      ensures Same(us[k], after[k])
    {
      assert RaisedField(i, lab, j, k, kids[k], side, after[k]);
      if k != j {
        var y :| Same(kids[k], y) && after[k] == TDp(i, lab, y);
        SameDp(i, lab, kids[k], y);
      }
    }
  }

  lemma RaiseOnly(head: Head, lab: Label, j: nat, kids: seq<Tree>, a: Tree, b: Tree)
    requires Raisable(head) && |kids| == Ari(head) && j < |kids| && kids[j] == TSup(lab, a, b)
    ensures Reduces(Build(head, kids),
                    TSup(lab, Build(head, Side(0, lab, kids, j, a)), Build(head, Side(1, lab, kids, j, b))))
  {
    if head.HCtr? {
      CtrSup(head.nam, lab, kids, j, a, b);
    } else if j == 0 {
      BinSupLeftOnly(head.k, lab, a, b, kids[1]);
    } else {
      BinSupRightOnly(head.k, lab, kids[0], a, b);
    }
  }

  lemma RaiseLaw(head: Head, lab: Label, j: nat, kids: seq<Tree>, a: Tree, b: Tree, kids0: seq<Tree>, kids1: seq<Tree>)
    requires Raisable(head) && |kids| == |kids0| == |kids1| == Ari(head) && j < |kids| && kids[j] == TSup(lab, a, b)
    requires forall k :: 0 <= k < |kids| ==>
               RaisedField(0, lab, j, k, kids[k], a, kids0[k]) && RaisedField(1, lab, j, k, kids[k], b, kids1[k])
    ensures Reduces(Build(head, kids), TSup(lab, Build(head, kids0), Build(head, kids1)))
  {
    var us, vs := Side(0, lab, kids, j, a), Side(1, lab, kids, j, b);
    RaiseOnly(head, lab, j, kids, a, b);
    RaisedSide(0, lab, j, kids, a, kids0);
    RaisedSide(1, lab, j, kids, b, kids1);
    SameBuild(head, us, kids0);
    SameBuild(head, vs, kids1);
    SameSup(lab, Build(head, us), Build(head, vs), Build(head, kids0), Build(head, kids1));
    Then(Build(head, kids), TSup(lab, Build(head, us), Build(head, vs)),
         TSup(lab, Build(head, kids0), Build(head, kids1)));
  }

  /** A field that is now shared: it keeps its meaning, and both nodes read it. */
  ghost predicate Shared(r: Raise, g1: Graph, g2: Graph, m: Loc)
    requires Wf(g1) && Wf(g2)
  {
    && m in g1.live && m in g2.live && CopyOf(r, m) in g2.live && DupOf(r, m) in g2.live
    && Same(ReadAt(g1, m), ReadAt(g2, DupOf(r, m)))
    && ReadAt(g2, m) == TDp(0, r.lab, ReadAt(g2, DupOf(r, m)))
    && ReadAt(g2, CopyOf(r, m)) == TDp(1, r.lab, ReadAt(g2, DupOf(r, m)))
  }

  ghost predicate AllShared(r: Raise, g1: Graph, g2: Graph)
    requires Wf(g1) && Wf(g2)
  {
    forall m :: Other(r, m) ==> Shared(r, g1, g2, m)
  }

  /** The two sides of the superposition, each in its node. */
  ghost predicate Sided(r: Raise, g1: Graph, g2: Graph, a: Loc, b: Loc)
    requires Wf(g1) && Wf(g2)
  {
    && a == r.at + r.j && b == Copies(r) + r.j && a in g1.live && a in g2.live && b in g2.live
    && r.sup in g1.live && r.sup + 1 in g1.live
    && ReadAt(g1, a) == TSup(r.lab, ReadAt(g1, r.sup), ReadAt(g1, r.sup + 1))
    && Same(ReadAt(g1, r.sup), ReadAt(g2, a)) && Same(ReadAt(g1, r.sup + 1), ReadAt(g2, b))
  }

  lemma RaiseShared(r: Raise, c: Change, m: Loc)
    requires RaiseStep(r, c) && IsChange(c) && Wf(c.g2) && TwinOnly(c) && Other(r, m)
    ensures Shared(r, c.g1, c.g2, m)
  {
    RaiseField(r, c.g1, c.p, m);
    assert AnyField(r, m) && m in c.moves;
    NoTwin(c);
    MovedSame(c, m);
    ReadDp(c.g2, m, 0, r.lab, DupOf(r, m));
    ReadDp(c.g2, CopyOf(r, m), 1, r.lab, DupOf(r, m));
  }

  lemma RaiseSide(r: Raise, c: Change, f: Loc, to: Loc)
    requires RaiseStep(r, c) && IsChange(c) && Wf(c.g2) && TwinOnly(c) && (f == r.sup || f == r.sup + 1)
    requires f in c.moves && c.moves[f] == to
    ensures f in c.g1.live && to in c.g2.live && Same(ReadAt(c.g1, f), ReadAt(c.g2, to))
  {
    RaiseCarry(r, c, f);
    RaiseInside(r, c.g1, c.p, f);
    NoTwin(c);
    MovedSame(c, f);
  }

  lemma RaiseKids(r: Raise, g1: Graph, g2: Graph, a: Loc, b: Loc, k: nat)
    requires Wf(g1) && Wf(g2) && Sided(r, g1, g2, a, b) && k < Ari(r.head) && (k == r.j || Shared(r, g1, g2, r.at + k))
    ensures r.at + k in g1.live && r.at + k in g2.live && Copies(r) + k in g2.live
    ensures RaisedField(0, r.lab, r.j, k, ReadAt(g1, r.at + k), ReadAt(g1, r.sup), ReadAt(g2, r.at + k))
    ensures RaisedField(1, r.lab, r.j, k, ReadAt(g1, r.at + k), ReadAt(g1, r.sup + 1), ReadAt(g2, Copies(r) + k))
  {
  }

  ghost predicate KidAt(g: Graph, base: Loc, kids: seq<Tree>, k: nat)
    requires Wf(g)
  {
    k < |kids| && base + k in g.live && kids[k] == ReadAt(g, base + k)
  }

  ghost predicate KidsAre(g: Graph, base: Loc, kids: seq<Tree>)
    requires Wf(g)
  {
    forall k: nat :: k < |kids| ==> KidAt(g, base, kids, k)
  }

  lemma KidIs(g: Graph, head: Head, base: Loc, l: Loc, k: nat)
    requires Wf(g) && Holds(g, l, Node(head, base)) && k < Ari(head)
    ensures KidAt(g, base, Kids(g, Node(head, base), l), k)
  {
    assert TermOk(g, l, Node(head, base)) && InFoot(Node(head, base), base + k);
  }

  lemma KidsIt(g: Graph, head: Head, base: Loc, l: Loc)
    requires Wf(g) && Holds(g, l, Node(head, base))
    ensures KidsAre(g, base, Kids(g, Node(head, base), l))
  {
    forall k: nat | k < |Kids(g, Node(head, base), l)| {
      KidIs(g, head, base, l, k);
    }
  }

  lemma RaiseAll(r: Raise, g1: Graph, g2: Graph, a: Loc, b: Loc, kids: seq<Tree>, kids0: seq<Tree>, kids1: seq<Tree>)
    requires Wf(g1) && Wf(g2) && Raisable(r.head) && r.j < Ari(r.head) && Sided(r, g1, g2, a, b)
    requires AllShared(r, g1, g2)
    requires |kids| == |kids0| == |kids1| == Ari(r.head)
    requires KidsAre(g1, r.at, kids) && KidsAre(g2, r.at, kids0) && KidsAre(g2, Copies(r), kids1)
    ensures Reduces(Build(r.head, kids), TSup(r.lab, Build(r.head, kids0), Build(r.head, kids1)))
  {
    var x, y := ReadAt(g1, r.sup), ReadAt(g1, r.sup + 1);
    forall k | 0 <= k < Ari(r.head)
      ensures RaisedField(0, r.lab, r.j, k, kids[k], x, kids0[k]) && RaisedField(1, r.lab, r.j, k, kids[k], y, kids1[k])
    {
      assert k == r.j || Other(r, r.at + k);
      assert KidAt(g1, r.at, kids, k) && KidAt(g2, r.at, kids0, k) && KidAt(g2, Copies(r), kids1, k);
      RaiseKids(r, g1, g2, a, b, k);
    }
    assert KidAt(g1, r.at, kids, r.j);
    RaiseLaw(r.head, r.lab, r.j, kids, x, y, kids0, kids1);
  }

  lemma RaiseMeaning(r: Raise, g1: Graph, g2: Graph, p: Loc, a: Loc, b: Loc)
    requires Wf(g1) && Wf(g2) && Raisable(r.head) && r.j < Ari(r.head) && Sided(r, g1, g2, a, b)
    requires Holds(g1, p, Node(r.head, r.at)) && Holds(g2, p, Sup(r.lab, NewSup(r)))
    requires Holds(g2, NewSup(r), Node(r.head, r.at)) && Holds(g2, NewSup(r) + 1, Node(r.head, Copies(r)))
    requires AllShared(r, g1, g2)
    ensures Same(ReadAt(g1, p), ReadAt(g2, p))
  {
    ReadNode(g1, Node(r.head, r.at), p);
    ReadSup(g2, p, r.lab, NewSup(r));
    ReadNode(g2, Node(r.head, r.at), NewSup(r));
    ReadNode(g2, Node(r.head, Copies(r)), NewSup(r) + 1);
    KidsIt(g1, r.head, r.at, p);
    KidsIt(g2, r.head, r.at, NewSup(r));
    KidsIt(g2, r.head, Copies(r), NewSup(r) + 1);
    RaiseAll(r, g1, g2, a, b, Kids(g1, Node(r.head, r.at), p), Kids(g2, Node(r.head, r.at), NewSup(r)),
             Kids(g2, Node(r.head, Copies(r)), NewSup(r) + 1));
  }

  lemma RaiseSup(r: Raise, g: Graph, p: Loc, a: Loc)
    requires Wf(g) && RaiseRedex(r, g, p) && a == r.at + r.j
    ensures a in g.live && r.sup in g.live && r.sup + 1 in g.live
    ensures ReadAt(g, a) == TSup(r.lab, ReadAt(g, r.sup), ReadAt(g, r.sup + 1))
  {
    ReadSup(g, a, r.lab, r.sup);
  }

  lemma RaiseSides(r: Raise, c: Change, s0: Loc, a: Loc, s1: Loc, b: Loc)
    requires RaiseStep(r, c) && IsChange(c) && Wf(c.g2) && TwinOnly(c) && s0 == r.sup && s1 == r.sup + 1
    requires s0 in c.moves && c.moves[s0] == a && s1 in c.moves && c.moves[s1] == b
    ensures s0 in c.g1.live && a in c.g2.live && Same(ReadAt(c.g1, s0), ReadAt(c.g2, a))
    ensures s1 in c.g1.live && b in c.g2.live && Same(ReadAt(c.g1, s1), ReadAt(c.g2, b))
  {
    RaiseSide(r, c, s0, a);
    RaiseSide(r, c, s1, b);
  }

  lemma RaiseSidedIt(r: Raise, c: Change, a: Loc, b: Loc)
    requires RaiseStep(r, c) && IsChange(c) && Wf(c.g2) && TwinOnly(c)
    requires r.sup in c.moves && c.moves[r.sup] == a && r.sup + 1 in c.moves && c.moves[r.sup + 1] == b
    requires a == r.at + r.j && b == Copies(r) + r.j
    ensures Sided(r, c.g1, c.g2, a, b)
  {
    RaiseSides(r, c, r.sup, a, r.sup + 1, b);
    RaiseSup(r, c.g1, c.p, a);
  }

  lemma RaiseSharedIt(r: Raise, c: Change)
    requires RaiseStep(r, c) && IsChange(c) && Wf(c.g2) && TwinOnly(c)
    ensures AllShared(r, c.g1, c.g2)
  {
    forall m | Other(r, m)
      ensures Shared(r, c.g1, c.g2, m)
    {
      RaiseShared(r, c, m);
    }
  }

  /** The nodes, before and after. */
  lemma RaiseNodes(r: Raise, c: Change)
    requires RaiseStep(r, c)
    ensures Raisable(r.head) && r.j < Ari(r.head) && Holds(c.g1, c.p, Node(r.head, r.at))
    ensures Holds(c.g2, c.p, Sup(r.lab, NewSup(r)))
    ensures Holds(c.g2, NewSup(r), Node(r.head, r.at)) && Holds(c.g2, NewSup(r) + 1, Node(r.head, Copies(r)))
  {
  }

  lemma RaiseSame(r: Raise, c: Change)
    requires RaiseStep(r, c) && IsChange(c) && Wf(c.g2) && TwinOnly(c)
    ensures c.p in c.g2.live && Same(ReadAt(c.g1, c.p), ReadAt(c.g2, c.p))
  {
    RaiseSideCells(r, c);
    var a, b := c.moves[r.sup], c.moves[r.sup + 1];
    RaiseSidedIt(r, c, a, b);
    RaiseSharedIt(r, c);
    RaiseNodes(r, c);
    RaiseMeaning(r, c.g1, c.g2, c.p, a, b);
  }

  lemma RaiseKept(r: Raise, c: Change)
    requires Wf(c.g1) && RaiseStep(r, c)
    ensures Kept(c.g1, c.g2, c.p)
  {
    RaiseWf(r, c);
    RaiseSame(r, c);
    NoTwin(c);
    ChangeSound(c);
    ChangeKept(c);
  }
}
