/**
 DUP interactions. The reader of side `i` takes its copy; the other copy is left in the DUP cell, marked
 as a substitution, for the second reader (`heap_subst_cop`).
 */
module RulesDup {
  import opened U32Ops
  import opened Calculus
  import opened Reduction
  import opened Laws
  import opened Heap
  import opened Rules

  /** The redex: cell `p` reads side `i` of the DUP cell `loc`. */
  datatype Dup = Dup(i: bit, lab: Label, loc: Loc)

  function Twin(r: Dup): Term {
    Dp(1 - r.i, r.lab, r.loc)
  }

  /** The cell that reads the other side, if one does. */
  ghost function Reader(r: Dup, g: Graph): Loc
    requires r.loc in g.live
  {
    Owner(g.live[r.loc], 1 - r.i)
  }

  ghost function Owners(r: Dup, g: Graph, p: Loc): set<Loc>
    requires r.loc in g.live
  {
    var q := Reader(r, g);
    if q in g.live && q in g.h && g.h[q].term == Twin(r) then {p, r.loc, q} else {p, r.loc}
  }

  ghost predicate DupRedex(r: Dup, g: Graph, p: Loc) {
    && Holds(g, p, Dp(r.i, r.lab, r.loc)) && RefOk(g, p, Dp(r.i, r.lab, r.loc), r.loc) && !g.h[r.loc].sub
  }

  lemma DupParts(r: Dup, g: Graph, p: Loc)
    requires Wf(g) && Holds(g, p, Dp(r.i, r.lab, r.loc)) && r.loc in g.h && !g.h[r.loc].sub
    ensures DupRedex(r, g, p)
  {
    assert TermOk(g, p, Dp(r.i, r.lab, r.loc));
    assert InFoot(g.h[p].term, r.loc);
  }

  /** The part of a DUP step that all DUP rules share: `mine` goes to `p`, `yours` waits in the DUP cell. */
  ghost predicate DupStep(r: Dup, c: Change, mine: Term, yours: Term) {
    && DupRedex(r, c.g1, c.p)
    && IsCell(c.g2.h, c.p, mine)
    && r.loc in c.g2.h && c.g2.h[r.loc] == Cell(true, yours)
    && CellsKept(c) && LiveKept(c)
    && r.loc in c.x && c.p !in c.x
    && InfoIs(c.g2.live, r.loc, Info(4 * c.g1.live[r.loc].rank, Reader(r, c.g1), Reader(r, c.g1), r.lab))
    && c.o == Owners(r, c.g1, c.p) && c.tw == Twin(r)
  }

  /** Cells of `x` other than the DUP cell belong to the DUP cell's term. */
  ghost predicate DupBelow(r: Dup, c: Change) {
    && r.loc in c.g1.live
    && forall m :: m in c.x && m != r.loc ==>
         m in c.g1.live && c.g1.live[m].own0 == c.g1.live[m].own1 == r.loc && c.g1.live[m].rank < c.g1.live[r.loc].rank
  }

  lemma DupOwned(r: Dup, c: Change, mine: Term, yours: Term)
    requires Wf(c.g1) && DupStep(r, c, mine, yours) && DupBelow(r, c)
    ensures Owned(c) && Below(c)
  {
    forall l | l in c.g1.live && l !in c.o
      ensures Away(c.g1.h[l].term, c.x)
    {
      assert TermOk(c.g1, l, c.g1.h[l].term);
    }
  }

  /** The second reader is not disturbed, and is not below the DUP cell. */
  lemma DupTwin(r: Dup, c: Change, mine: Term, yours: Term)
    requires Wf(c.g1) && DupStep(r, c, mine, yours) && DupBelow(r, c)
    ensures TwinOk(c) && TwinOnly(c)
    ensures forall l :: l in c.o && l in c.g1.live && l != c.p ==> c.g1.live[r.loc].rank <= c.g1.live[l].rank
  {
    var q := Reader(r, c.g1);
    if q in c.o && q in c.g1.live && q in c.g1.h && c.g1.h[q].term == Twin(r) {
      assert TermOk(c.g1, q, Twin(r));
      assert InFoot(Twin(r), r.loc);
    }
    forall l | l in c.o && l in c.g1.live && l !in c.x && l != c.p
      ensures CellOk(c.g2, l)
    {
      assert l == Reader(r, c.g1) && c.g1.h[l].term == Twin(r);
      assert TermOk(c.g1, l, Twin(r));
      assert InFoot(Twin(r), r.loc);
    }
  }

  lemma DupMovedSame(r: Dup, c: Change, f: Loc)
    requires IsChange(c) && Wf(c.g2) && TwinOnly(c) && f in c.moves && c.tw == Twin(r)
    requires r.loc in c.g1.live && c.g1.live[f].rank <= c.g1.live[r.loc].rank
    ensures Same(ReadAt(c.g1, f), ReadAt(c.g2, c.moves[f]))
  {
    assert InFoot(c.tw, r.loc);
    MovedSame(c, f);
  }

  /** If both copies are right, the rule is sound. */
  lemma DupSound(r: Dup, c: Change, mine: Term, yours: Term)
    requires DupStep(r, c, mine, yours) && IsChange(c) && Wf(c.g2) && TwinOnly(c)
    requires Reduces(TDp(r.i, r.lab, ReadAt(c.g1, r.loc)), ReadAt(c.g2, c.p))
    requires Reduces(TDp(1 - r.i, r.lab, ReadAt(c.g1, r.loc)), ReadAt(c.g2, r.loc))
    ensures Sound(c) && Fell(c.g1, c.g2, c.p)
  {
    ReadDp(c.g1, c.p, r.i, r.lab, r.loc);
    forall b: nat
      ensures TwinKept(c, b)
    {
      assert InFoot(c.tw, r.loc);
    }
    ChangeSound(c);
  }

  // ---------------------------------------------------------------------------
  // DUP-SUP, equal labels
  // ---------------------------------------------------------------------------

  ghost predicate AnnihilateStep(r: Dup, c: Change, sup: Loc) {
    && Holds(c.g1, r.loc, Sup(r.lab, sup))
    && RefOk(c.g1, r.loc, Sup(r.lab, sup), sup) && RefOk(c.g1, r.loc, Sup(r.lab, sup), sup + 1)
    && DupStep(r, c, At(c.g1.h, sup + r.i), At(c.g1.h, sup + 1 - r.i))
    && c.x == {r.loc, sup, sup + 1} && c.moves == map[sup + r.i := c.p, sup + 1 - r.i := r.loc]
    && (forall m :: m in c.g2.live ==> m in c.g1.live && m != sup && m != sup + 1)
  }

  ghost function AnnihilateLive(r: Dup, g: Graph, p: Loc, sup: Loc): map<Loc, Info>
    requires r.loc in g.live
  {
    var q := Reader(r, g);
    map m | m in g.live.Keys - {sup, sup + 1} ::
      if m == r.loc then Info(4 * g.live[m].rank, q, q, r.lab)
      else Respread(g.live[m], map[sup + r.i := p, sup + 1 - r.i := r.loc])
  }

  lemma AnnihilateIsChange(r: Dup, c: Change, sup: Loc)
    requires Wf(c.g1) && AnnihilateStep(r, c, sup)
    ensures IsChange(c) && TwinOk(c) && TwinOnly(c)
  {
    var mine, yours := At(c.g1.h, sup + r.i), At(c.g1.h, sup + 1 - r.i);
    DupOwned(r, c, mine, yours);
    DupTwin(r, c, mine, yours);
  }

  lemma AnnihilateWf(r: Dup, c: Change, sup: Loc)
    requires Wf(c.g1) && AnnihilateStep(r, c, sup)
    ensures IsChange(c) && Wf(c.g2) && TwinOnly(c)
  {
    AnnihilateIsChange(r, c, sup);
    MovedOk(c, sup + r.i);
    MovedOk(c, sup + 1 - r.i);
    ChangeWf(c, {c.p, r.loc});
  }

  lemma AnnihilateSound(r: Dup, c: Change, sup: Loc)
    requires AnnihilateStep(r, c, sup) && IsChange(c) && Wf(c.g2) && TwinOnly(c)
    ensures Sound(c) && Fell(c.g1, c.g2, c.p)
  {
    DupMovedSame(r, c, sup + r.i);
    DupMovedSame(r, c, sup + 1 - r.i);
    ReadSup(c.g1, r.loc, r.lab, sup);
    var a, b := ReadAt(c.g1, sup), ReadAt(c.g1, sup + 1);
    DupSupAnnihilates(r.i, r.lab, a, b);
    DupSupAnnihilates(1 - r.i, r.lab, a, b);
    Then(TDp(r.i, r.lab, TSup(r.lab, a, b)), if r.i == 0 then a else b, ReadAt(c.g2, c.p));
    Then(TDp(1 - r.i, r.lab, TSup(r.lab, a, b)), if 1 - r.i == 0 then a else b, ReadAt(c.g2, r.loc));
    DupSound(r, c, At(c.g1.h, sup + r.i), At(c.g1.h, sup + 1 - r.i));
  }

  // ---------------------------------------------------------------------------
  // DUP-NOD without fields, DUP-NAM
  // ---------------------------------------------------------------------------

  ghost predicate DupAtomStep(r: Dup, c: Change, t: Term) {
    && IsAtom(t) && r.loc in c.g1.h && c.g1.h[r.loc].term == t
    && DupStep(r, c, t, t) && c.x == {r.loc} && c.moves == map[]
    && (forall m :: m in c.g2.live ==> m in c.g1.live)
  }

  ghost function DupAtomLive(r: Dup, g: Graph): map<Loc, Info>
    requires r.loc in g.live
  {
    var q := Reader(r, g);
    map m | m in g.live :: if m == r.loc then Info(4 * g.live[m].rank, q, q, r.lab) else Respread(g.live[m], map[])
  }

  lemma DupAtomSound(r: Dup, c: Change, t: Term)
    requires Wf(c.g1) && DupAtomStep(r, c, t)
    ensures IsChange(c) && Wf(c.g2) && Sound(c) && Fell(c.g1, c.g2, c.p)
  {
    DupOwned(r, c, t, t);
    DupTwin(r, c, t, t);
    ChangeWf(c, {c.p, r.loc});
    AtomCopies(r.lab, c.g1, c.g2, r.loc, c.p);
    AtomCopies(r.lab, c.g1, c.g2, r.loc, r.loc);
    DupSound(r, c, t, t);
  }

  lemma AtomCopies(lab: Label, g1: Graph, g2: Graph, l1: Loc, l2: Loc)
    requires Wf(g1) && Wf(g2) && l1 in g1.live && l2 in g2.live
    requires g1.h[l1].term == g2.h[l2].term && IsAtom(g1.h[l1].term)
    ensures forall i: bit :: Reduces(TDp(i, lab, ReadAt(g1, l1)), ReadAt(g2, l2))
  {
    ReadAtom(g1, l1);
    ReadAtom(g2, l2);
    forall i: bit {
      DupAtom(i, lab, ReadAt(g1, l1));
    }
  }

  // ---------------------------------------------------------------------------
  // DUP-NOD, and DUP-SUP with different labels
  // ---------------------------------------------------------------------------

  /** The node in the DUP cell, with fields from cell `at` on, and the first cell of the new block. */
  datatype Nod = Nod(head: Head, at: Loc, next: Loc)

  /** Where the copy of side `i` is. */
  function Copy(d: Nod, i: bit): Loc {
    if i == 0 then d.next else d.next + Ari(d.head)
  }

  function CopyTerm(d: Nod, i: bit): Term {
    Node(d.head, Copy(d, i))
  }

  predicate Within(m: Loc, base: Loc, n: nat) {
    base <= m < base + n
  }

  function Range(base: Loc, n: nat): set<Loc> {
    set m | base <= m < base + n && Within(m, base, n)
  }

  /** Cell `m` is a field of the node that is copied; a field of its copy for side `i`. */
  predicate IsField(d: Nod, m: Loc) {
    Within(m, d.at, Ari(d.head))
  }

  predicate InCopy(d: Nod, i: bit, m: Loc) {
    Within(m, Copy(d, i), Ari(d.head))
  }

  function Flip(i: bit): bit {
    1 - i
  }

  /** The fields stay where they are, as DUP cells read from the two copies. */
  ghost predicate NodWrites(r: Dup, d: Nod, c: Change) {
    && (forall m :: IsField(d, m) ==> m in c.g1.h && m in c.g2.h && c.g2.h[m] == c.g1.h[m])
    && (forall m :: InCopy(d, 0, m) ==> IsCell(c.g2.h, m, Dp(0, r.lab, d.at + (m - Copy(d, 0)))))
    && (forall m :: InCopy(d, 1, m) ==> IsCell(c.g2.h, m, Dp(1, r.lab, d.at + (m - Copy(d, 1)))))
  }

  ghost predicate NodTable(r: Dup, d: Nod, c: Change)
    requires r.loc in c.g1.live && c.g1.live[r.loc].rank > 0
  {
    var n := 4 * c.g1.live[r.loc].rank;
    && (forall m :: IsField(d, m) ==>
          m in c.g1.live
          && InfoIs(c.g2.live, m, Info(4 * c.g1.live[m].rank, Copy(d, 0) + (m - d.at), Copy(d, 1) + (m - d.at), r.lab)))
    && (forall m :: InCopy(d, r.i, m) ==> InfoIs(c.g2.live, m, Own(n - 1, c.p)))
    && (forall m :: InCopy(d, Flip(r.i), m) ==> InfoIs(c.g2.live, m, Own(n - 1, r.loc)))
    && (forall m :: m in c.g2.live ==> m in c.g1.live || InCopy(d, 0, m) || InCopy(d, 1, m))
  }

  ghost predicate NodStep(r: Dup, d: Nod, c: Change) {
    && r.loc in c.g1.live && c.g1.live[r.loc].rank > 0 && Fresh(c.g1.live, d.next) && Ari(d.head) > 0
    && Holds(c.g1, r.loc, Node(d.head, d.at)) && TermOk(c.g1, r.loc, Node(d.head, d.at))
    && d.head != HSup(r.lab) && !d.head.HPart?
    && DupStep(r, c, CopyTerm(d, r.i), CopyTerm(d, 1 - r.i))
    && NodWrites(r, d, c) && NodTable(r, d, c)
    && c.x == {r.loc} + Range(d.at, Ari(d.head)) && c.moves == map m | m in Range(d.at, Ari(d.head)) :: m
  }

  ghost function NodLive(r: Dup, d: Nod, g: Graph, p: Loc): map<Loc, Info>
    requires r.loc in g.live && g.live[r.loc].rank > 0
  {
    var q := Reader(r, g);
    var n := 4 * g.live[r.loc].rank;
    map m | m in g.live.Keys + Range(d.next, 2 * Ari(d.head)) ::
      if m == r.loc then Info(n, q, q, r.lab)
      else if InCopy(d, r.i, m) then Own(n - 1, p)
      else if InCopy(d, Flip(r.i), m) then Own(n - 1, r.loc)
      else if m in g.live && IsField(d, m) then
        Info(4 * g.live[m].rank, Copy(d, 0) + (m - d.at), Copy(d, 1) + (m - d.at), r.lab)
      else if m in g.live then Respread(g.live[m], map m | m in Range(d.at, Ari(d.head)) :: m)
      else Own(0, 0)
  }

  lemma NodIsChange(r: Dup, d: Nod, c: Change)
    requires Wf(c.g1) && NodStep(r, d, c)
    ensures IsChange(c) && TwinOk(c) && TwinOnly(c)
  {
    forall m | m in c.x && m != r.loc
      ensures RefOk(c.g1, r.loc, Node(d.head, d.at), m)
    {
      assert InFoot(Node(d.head, d.at), m);
    }
    DupOwned(r, c, CopyTerm(d, r.i), CopyTerm(d, 1 - r.i));
    DupTwin(r, c, CopyTerm(d, r.i), CopyTerm(d, 1 - r.i));
  }

  /** The two copies, and the new DUP readers in them. */
  lemma NodNew(r: Dup, d: Nod, c: Change)
    requires NodStep(r, d, c)
    ensures CellOk(c.g2, c.p) && CellOk(c.g2, r.loc)
    ensures forall m, i: bit :: InCopy(d, i, m) ==> CellOk(c.g2, m)
  {
    forall m, i: bit | InCopy(d, i, m)
      ensures CellOk(c.g2, m)
    {
      var k := m - Copy(d, i);
      assert IsField(d, d.at + k) && InFoot(Node(d.head, d.at), d.at + k);
      assert InCopy(d, r.i, m) || InCopy(d, Flip(r.i), m);
    }
    assert forall m, i: bit :: InFoot(CopyTerm(d, i), m) ==> InCopy(d, i, m);
  }

  lemma NodWf(r: Dup, d: Nod, c: Change)
    requires Wf(c.g1) && NodStep(r, d, c)
    ensures IsChange(c) && Wf(c.g2) && TwinOnly(c)
  {
    NodIsChange(r, d, c);
    NodNew(r, d, c);
    forall m | m in Range(d.at, Ari(d.head))
      ensures CellOk(c.g2, m)
    {
      MovedOk(c, m);
    }
    assert forall m :: m in Range(Copy(d, 0), Ari(d.head)) ==> InCopy(d, 0, m);
    assert forall m :: m in Range(Copy(d, 1), Ari(d.head)) ==> InCopy(d, 1, m);
    ChangeWf(c,
             {c.p, r.loc} + Range(d.at, Ari(d.head)) + Range(Copy(d, 0), Ari(d.head)) + Range(Copy(d, 1), Ari(d.head)));
  }

  /** Copying a node copies its fields. */
  lemma DupNodLaw(i: bit, l: Label, head: Head, kids: seq<Tree>, copies: seq<Tree>)
    requires head != HSup(l) && !head.HPart? && |kids| == |copies| == Ari(head)
    requires forall k :: 0 <= k < |kids| ==> Same(TDp(i, l, kids[k]), copies[k])
    ensures Reduces(TDp(i, l, Build(head, kids)), Build(head, copies))
  {
    var dups := Dups(i, l, kids);
    SameBuild(head, dups, copies);
    match head {
      case HCtr(nam, _) => DupCtr(i, l, nam, kids);
      case HSup(m) => DupSupCommutes(i, l, m, kids[0], kids[1]);
      case HBin(k) => DupBin(i, l, k, kids[0], kids[1]);
      case HInc => DupInc(i, l, kids[0]);
    }
    Then(TDp(i, l, Build(head, kids)), Build(head, dups), Build(head, copies));
  }

  /** Field `f` keeps its meaning. */
  ghost predicate FieldSame(g1: Graph, g2: Graph, f: Loc)
    requires Wf(g1) && Wf(g2)
  {
    f in g1.live && f in g2.live && Same(ReadAt(g1, f), ReadAt(g2, f))
  }

  /** The copy of field `k` for side `i` reads it. */
  ghost predicate CopyReads(lab: Label, d: Nod, g2: Graph, i: bit, k: nat)
    requires Wf(g2)
  {
    && d.at + k in g2.live && Copy(d, i) + k in g2.live
    && ReadAt(g2, Copy(d, i) + k) == TDp(i, lab, ReadAt(g2, d.at + k))
  }

  lemma KidCopied(lab: Label, d: Nod, g1: Graph, g2: Graph, i: bit, l1: Loc, l2: Loc, k: nat)
    requires Wf(g1) && Wf(g2) && l1 in g1.live && l2 in g2.live
    requires g1.h[l1].term == Node(d.head, d.at) && g2.h[l2].term == CopyTerm(d, i)
    requires k < Ari(d.head) && FieldSame(g1, g2, d.at + k) && CopyReads(lab, d, g2, i, k)
    ensures Same(TDp(i, lab, Kids(g1, Node(d.head, d.at), l1)[k]), Kids(g2, CopyTerm(d, i), l2)[k])
  {
    SameDp(i, lab, ReadAt(g1, d.at + k), ReadAt(g2, d.at + k));
  }

  lemma NodCopy(lab: Label, d: Nod, g1: Graph, g2: Graph, i: bit, l1: Loc, l2: Loc)
    requires Wf(g1) && Wf(g2) && l1 in g1.live && l2 in g2.live
    requires g1.h[l1].term == Node(d.head, d.at) && g2.h[l2].term == CopyTerm(d, i) && d.head != HSup(lab)
    requires !d.head.HPart?
    requires forall f :: IsField(d, f) ==> FieldSame(g1, g2, f)
    requires forall k :: 0 <= k < Ari(d.head) ==> CopyReads(lab, d, g2, i, k)
    ensures Reduces(TDp(i, lab, ReadAt(g1, l1)), ReadAt(g2, l2))
  {
    var kids, copies := Kids(g1, Node(d.head, d.at), l1), Kids(g2, CopyTerm(d, i), l2);
    forall k | 0 <= k < Ari(d.head)
      ensures Same(TDp(i, lab, kids[k]), copies[k])
    {
      assert IsField(d, d.at + k);
      KidCopied(lab, d, g1, g2, i, l1, l2, k);
    }
    ReadNode(g1, Node(d.head, d.at), l1);
    ReadNode(g2, CopyTerm(d, i), l2);
    DupNodLaw(i, lab, d.head, kids, copies);
  }

  lemma NodFieldStays(r: Dup, d: Nod, c: Change, f: Loc)
    requires NodStep(r, d, c) && IsChange(c) && Wf(c.g2) && TwinOnly(c) && IsField(d, f)
    ensures FieldSame(c.g1, c.g2, f)
  {
    assert InFoot(Node(d.head, d.at), f);
    assert RefOk(c.g1, r.loc, Node(d.head, d.at), f);
    assert f in Range(d.at, Ari(d.head));
    DupMovedSame(r, c, f);
  }

  lemma NodReader(r: Dup, d: Nod, c: Change, i: bit, k: nat)
    requires NodStep(r, d, c) && Wf(c.g2) && k < Ari(d.head)
    ensures CopyReads(r.lab, d, c.g2, i, k)
  {
    var f, m := d.at + k, Copy(d, i) + k;
    assert IsField(d, f) && InCopy(d, i, m) && InFoot(Node(d.head, d.at), f);
    assert InCopy(d, r.i, m) || InCopy(d, Flip(r.i), m);
    assert RefOk(c.g1, r.loc, Node(d.head, d.at), f);
    ReadDp(c.g2, m, i, r.lab, f);
  }

  lemma NodSide(r: Dup, d: Nod, c: Change, i: bit, l: Loc)
    requires NodStep(r, d, c) && IsChange(c) && Wf(c.g2) && TwinOnly(c)
    requires l in c.g2.live && c.g2.h[l].term == CopyTerm(d, i)
    ensures Reduces(TDp(i, r.lab, ReadAt(c.g1, r.loc)), ReadAt(c.g2, l))
  {
    forall f | IsField(d, f) {
      NodFieldStays(r, d, c, f);
    }
    forall k | 0 <= k < Ari(d.head) {
      NodReader(r, d, c, i, k);
    }
    NodCopy(r.lab, d, c.g1, c.g2, i, r.loc, l);
  }

  lemma NodSound(r: Dup, d: Nod, c: Change)
    requires NodStep(r, d, c) && IsChange(c) && Wf(c.g2) && TwinOnly(c)
    ensures Sound(c) && Fell(c.g1, c.g2, c.p)
  {
    NodSide(r, d, c, r.i, c.p);
    NodSide(r, d, c, 1 - r.i, r.loc);
    DupSound(r, c, CopyTerm(d, r.i), CopyTerm(d, 1 - r.i));
  }
}
