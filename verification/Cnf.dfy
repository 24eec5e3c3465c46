/**
 Collapsed normal form, the sequential branch of `clang/cnf/_.c`: a cell is reduced, its fields are
 collapsed in turn, an erased field erases the node, and the first superposition among the fields is
 lifted over it.
 */
module Cnf {
  import opened U32Ops
  import opened Calculus
  import opened Reduction
  import opened Quotes
  import opened Heap
  import opened Rules
  import opened RulesDup
  import opened RulesCnf
  import opened Interact
  import opened Machine
  import opened Jam

  // ---------------------------------------------------------------------------
  // Lifting, as cell writes
  // ---------------------------------------------------------------------------

  /** The clones of the fields before `n`. */
  function RaiseDups(r: Raise, h: Cells, n: nat): Cells {
    if n == 0 then map[]
    else if n - 1 == r.j then RaiseDups(r, h, n - 1)
    else RaiseDups(r, h, n - 1)[DupOf(r, r.at + n - 1) := C(At(h, r.at + n - 1))]
  }

  function RaiseArg(r: Raise, h: Cells, i: bit, k: nat): Term {
    if k == r.j then At(h, r.sup + i) else Dp(i, r.lab, DupOf(r, r.at + k))
  }

  /** The fields before `n` of the node for side `i`, placed from `base` on. */
  function RaiseArgs(r: Raise, h: Cells, i: bit, base: Loc, n: nat): Cells {
    if n == 0 then map[] else RaiseArgs(r, h, i, base, n - 1)[base + n - 1 := C(RaiseArg(r, h, i, n - 1))]
  }

  function RaiseOut(r: Raise, h: Cells): Cells {
    var n := Ari(r.head);
    (RaiseDups(r, h, n) + RaiseArgs(r, h, 0, r.at, n) + RaiseArgs(r, h, 1, Copies(r), n))
      [NewSup(r) := C(Node(r.head, r.at))][NewSup(r) + 1 := C(Node(r.head, Copies(r)))]
  }

  lemma {:induction false} DupsHave(r: Raise, h: Cells, n: nat)
    requires n <= Ari(r.head) && r.j < Ari(r.head)
    ensures var ws := RaiseDups(r, h, n);
            && (forall m :: m in ws ==> IsDup(r, m))
            && (forall m :: Other(r, m) && m < r.at + n ==> DupOf(r, m) in ws && ws[DupOf(r, m)] == C(At(h, m)))
  {
    if n > 0 {
      DupsHave(r, h, n - 1);
    }
  }

  lemma {:induction false} ArgsHave(r: Raise, h: Cells, i: bit, base: Loc, n: nat)
    ensures var ws := RaiseArgs(r, h, i, base, n);
            && (forall m :: m in ws <==> Within(m, base, n))
            && (forall m :: Within(m, base, n) ==> ws[m] == C(RaiseArg(r, h, i, m - base)))
  {
    if n > 0 {
      ArgsHave(r, h, i, base, n - 1);
    }
  }

  ghost function RaiseChange(r: Raise, g: Graph, p: Loc): Change
    requires p in g.live && g.live[p].rank > 0
  {
    Change(g, Graph((g.h + RaiseOut(r, g.h))[p := C(Sup(r.lab, NewSup(r)))], RaiseLive(r, p, g.live)),
           p, Range(r.at, Ari(r.head)) + {r.sup, r.sup + 1}, {p, r.at + r.j}, RaiseMoves(r), Era)
  }

  /** What is written, cell by cell. */
  ghost predicate RaisePuts(r: Raise, h: Cells, ws: Cells) {
    && (forall m :: m in ws ==> AnyField(r, m) || IsDup(r, m) || IsCopy(r, m) || m == NewSup(r) || m == NewSup(r) + 1)
    && (forall m :: Other(r, m) ==>
          && DupOf(r, m) in ws && ws[DupOf(r, m)] == C(At(h, m))
          && m in ws && ws[m] == C(Dp(0, r.lab, DupOf(r, m)))
          && CopyOf(r, m) in ws && ws[CopyOf(r, m)] == C(Dp(1, r.lab, DupOf(r, m))))
    && r.at + r.j in ws && ws[r.at + r.j] == C(At(h, r.sup))
    && Copies(r) + r.j in ws && ws[Copies(r) + r.j] == C(At(h, r.sup + 1))
    && NewSup(r) in ws && ws[NewSup(r)] == C(Node(r.head, r.at))
    && NewSup(r) + 1 in ws && ws[NewSup(r) + 1] == C(Node(r.head, Copies(r)))
  }

  // The three blocks do not overlap

  lemma LookCopy(r: Raise, h: Cells, m: Loc)
    requires r.j < Ari(r.head) && r.at + Ari(r.head) <= r.next && Within(m, Copies(r), Ari(r.head))
    ensures var ws := RaiseOut(r, h); m in ws && ws[m] == C(RaiseArg(r, h, 1, m - Copies(r)))
  {
    ArgsHave(r, h, 1, Copies(r), Ari(r.head));
  }

  lemma LookField(r: Raise, h: Cells, m: Loc)
    requires r.j < Ari(r.head) && r.at + Ari(r.head) <= r.next && Within(m, r.at, Ari(r.head))
    ensures var ws := RaiseOut(r, h); m in ws && ws[m] == C(RaiseArg(r, h, 0, m - r.at))
  {
    ArgsHave(r, h, 0, r.at, Ari(r.head));
    ArgsHave(r, h, 1, Copies(r), Ari(r.head));
  }

  lemma LookDup(r: Raise, h: Cells, m: Loc)
    requires r.j < Ari(r.head) && r.at + Ari(r.head) <= r.next && m in RaiseDups(r, h, Ari(r.head)) && IsDup(r, m)
    ensures var ws := RaiseOut(r, h); m in ws && ws[m] == RaiseDups(r, h, Ari(r.head))[m]
  {
    ArgsHave(r, h, 0, r.at, Ari(r.head));
    ArgsHave(r, h, 1, Copies(r), Ari(r.head));
  }

  lemma RaiseOther(r: Raise, h: Cells, m: Loc)
    requires r.j < Ari(r.head) && r.at + Ari(r.head) <= r.next && Other(r, m)
    ensures var ws := RaiseOut(r, h);
            && DupOf(r, m) in ws && ws[DupOf(r, m)] == C(At(h, m))
            && m in ws && ws[m] == C(Dp(0, r.lab, DupOf(r, m)))
            && CopyOf(r, m) in ws && ws[CopyOf(r, m)] == C(Dp(1, r.lab, DupOf(r, m)))
  {
    DupsHave(r, h, Ari(r.head));
    LookDup(r, h, DupOf(r, m));
    LookField(r, h, m);
    LookCopy(r, h, CopyOf(r, m));
  }

  lemma RaisePutsIt(r: Raise, h: Cells)
    requires r.j < Ari(r.head) && r.at + Ari(r.head) <= r.next
    ensures RaisePuts(r, h, RaiseOut(r, h))
  {
    var n := Ari(r.head);
    forall m | Other(r, m)
      ensures var ws := RaiseOut(r, h);
              && DupOf(r, m) in ws && ws[DupOf(r, m)] == C(At(h, m))
              && m in ws && ws[m] == C(Dp(0, r.lab, DupOf(r, m)))
              && CopyOf(r, m) in ws && ws[CopyOf(r, m)] == C(Dp(1, r.lab, DupOf(r, m)))
    {
      RaiseOther(r, h, m);
    }
    RaiseRest(r, h);
  }

  lemma RaiseRest(r: Raise, h: Cells)
    requires r.j < Ari(r.head) && r.at + Ari(r.head) <= r.next
    ensures var ws := RaiseOut(r, h);
            && (forall m :: m in ws ==>
                  AnyField(r, m) || IsDup(r, m) || IsCopy(r, m) || m == NewSup(r) || m == NewSup(r) + 1)
            && r.at + r.j in ws && ws[r.at + r.j] == C(At(h, r.sup))
            && Copies(r) + r.j in ws && ws[Copies(r) + r.j] == C(At(h, r.sup + 1))
  {
    LookField(r, h, r.at + r.j);
    LookCopy(r, h, Copies(r) + r.j);
    RaiseKeys(r, h);
  }

  lemma RaiseKeys(r: Raise, h: Cells)
    requires r.j < Ari(r.head)
    ensures forall m :: m in RaiseOut(r, h) ==>
              AnyField(r, m) || IsDup(r, m) || IsCopy(r, m) || m == NewSup(r) || m == NewSup(r) + 1
  {
    var n := Ari(r.head);
    DupsHave(r, h, n);
    ArgsHave(r, h, 0, r.at, n);
    ArgsHave(r, h, 1, Copies(r), n);
  }

  lemma RaiseOthers(r: Raise, c: Change, ws: Cells)
    requires RaiseApart(r, c.p) && RaisePuts(r, c.g1.h, ws)
    requires c.g2.h == (c.g1.h + ws)[c.p := C(Sup(r.lab, NewSup(r)))]
    ensures forall m :: Other(r, m) ==>
              && IsCell(c.g2.h, m, Dp(0, r.lab, DupOf(r, m))) && IsCell(c.g2.h, CopyOf(r, m), Dp(1, r.lab, DupOf(r, m)))
              && IsCell(c.g2.h, DupOf(r, m), At(c.g1.h, m))
  {
  }

  lemma RaiseCells(r: Raise, c: Change, ws: Cells)
    requires RaiseRedex(r, c.g1, c.p) && RaisePuts(r, c.g1.h, ws) && RaiseSets(r, c)
    requires c.g2.h == (c.g1.h + ws)[c.p := C(Sup(r.lab, NewSup(r)))]
    ensures RaiseWrites(r, c)
  {
    RaiseOthers(r, c, ws);
    RaiseSpares(r, c, ws);
  }

  lemma RaiseSpares(r: Raise, c: Change, ws: Cells)
    requires RaiseRedex(r, c.g1, c.p) && RaisePuts(r, c.g1.h, ws) && RaiseSets(r, c)
    requires c.g2.h == (c.g1.h + ws)[c.p := C(Sup(r.lab, NewSup(r)))]
    ensures CellsKept(c)
  {
  }

  lemma RaiseInfo(r: Raise, g: Graph, p: Loc, m: Loc)
    requires RaiseRedex(r, g, p) && g.live[p].rank > 0 && AnyField(r, m)
    ensures var n, live := 4 * (g.live[p].rank - 1), RaiseLive(r, p, g.live);
            && InfoIs(live, m, Own(n + 1, NewSup(r))) && InfoIs(live, CopyOf(r, m), Own(n + 1, NewSup(r) + 1))
            && (Other(r, m) ==> InfoIs(live, DupOf(r, m), Info(n, m, CopyOf(r, m), r.lab)))
  {
    RaiseField(r, g, p, m);
    var w := 2 * Ari(r.head) + 1;
    assert Within(CopyOf(r, m), r.next, w) && IsCopy(r, CopyOf(r, m));
    assert Other(r, m) ==> Within(DupOf(r, m), r.next, w) && IsDup(r, DupOf(r, m));
  }

  lemma RaiseTableIt(r: Raise, c: Change)
    requires RaiseRedex(r, c.g1, c.p) && c.g1.live[c.p].rank > 0 && RaiseSets(r, c) && c.moves == RaiseMoves(r)
    requires c.g2.live == RaiseLive(r, c.p, c.g1.live)
    ensures RaiseTable(r, c)
  {
    forall m | AnyField(r, m)
      ensures var n := 4 * (c.g1.live[c.p].rank - 1);
              && InfoIs(c.g2.live, m, Own(n + 1, NewSup(r)))
              && InfoIs(c.g2.live, CopyOf(r, m), Own(n + 1, NewSup(r) + 1))
              && (Other(r, m) ==> InfoIs(c.g2.live, DupOf(r, m), Info(n, m, CopyOf(r, m), r.lab)))
    {
      RaiseInfo(r, c.g1, c.p, m);
    }
    assert forall m :: Other(r, m) ==> AnyField(r, m);
    RaiseTableRest(r, c);
  }

  lemma RaiseTableRest(r: Raise, c: Change)
    requires RaiseRedex(r, c.g1, c.p) && c.g1.live[c.p].rank > 0 && RaiseSets(r, c) && c.moves == RaiseMoves(r)
    requires c.g2.live == RaiseLive(r, c.p, c.g1.live)
    ensures var n := 4 * (c.g1.live[c.p].rank - 1);
            && InfoIs(c.g2.live, NewSup(r), Own(n + 2, c.p)) && InfoIs(c.g2.live, NewSup(r) + 1, Own(n + 2, c.p))
            && LiveKept(c)
            && (forall m :: m in c.g2.live ==>
                  (m in c.g1.live && m != r.sup && m != r.sup + 1) || IsDup(r, m) || IsCopy(r, m)
                  || m == NewSup(r) || m == NewSup(r) + 1)
  {
    var w := 2 * Ari(r.head) + 1;
    assert forall m :: m in Range(r.next, w) <==> Within(m, r.next, w);
  }

  // ---------------------------------------------------------------------------
  // Collapsing a cell
  // ---------------------------------------------------------------------------

  /**
   `Late`: the bound on the work was too small. `Gone`: the cell is erased. `Value`: the cell holds its
   collapsed term; `plain` if no `INC` and no stuck `DUP` reader was met on the way.
   */
  datatype Result = Late | Gone(m: Memory) | Value(m: Memory, plain: bool)

  predicate IsSup(t: Term) {
    t.Node? && t.head.HSup?
  }

  predicate IsInc(t: Term) {
    t.Node? && t.head.HInc?
  }

  /** The terms whose fields `cnf` goes through. */
  predicate HasFields(t: Term) {
    t.Node? && Raisable(t.head) && Ari(t.head) > 0
  }

  function Store(m: Memory, loc: Loc, t: Term): Memory {
    m.(h := Put(m.h, loc, t))
  }

  /** Lifting the superposition in field `j` of the node in cell `loc`. */
  function Lift(m: Memory, loc: Loc, head: Head, at: Loc, j: nat): Memory {
    var sup := At(m.h, at + j);
    if !IsSup(sup) then m
    else
      var r := Raise(head, at, j, sup.head.lab, sup.loc, m.next);
      Memory((m.h + RaiseOut(r, m.h))[loc := C(Sup(r.lab, NewSup(r)))], m.next + 2 * Ari(head) + 1, m.itrs)
  }

  /** `cnf_at` on cell `loc`, which keeps the result; `fuel` bounds the steps and the depth. */
  function CnfAt(m: Memory, loc: Loc, fuel: nat): Result
    decreases fuel, 0
  {
    if fuel == 0 || !Finished(Steps(Start(m, loc), fuel)) then Late
    else
      var m1 := WnfAt(m, loc, fuel);
      var t := At(m1.h, loc);
      if t.Era? then Gone(m1)
      else if HasFields(t) then CnfFields(m1, loc, t.head, t.loc, 0, -1, true, fuel - 1)
      else Value(m1, !IsInc(t) && !t.Dp?)
  }

  /** The loop over the fields of the node in cell `loc`, from field `i` on; `j` is `sup_idx`. */
  function CnfFields(m: Memory, loc: Loc, head: Head, at: Loc, i: nat, j: int, plain: bool, fuel: nat): Result
    requires i <= Ari(head)
    decreases fuel, 1 + Ari(head) - i
  {
    if i == Ari(head) then (if j < 0 then Value(m, plain) else Value(Lift(m, loc, head, at, j), plain))
    else
      match CnfAt(m, at + i, fuel)
      case Late => Late
      case Gone(m') => Gone(Store(m', loc, Era))
      case Value(m', p) =>
        var t := At(m'.h, at + i);
        CnfFields(m', loc, head, at, i + 1, if j < 0 && IsSup(t) then i else j, plain && p && !IsInc(t), fuel)
  }

  // ---------------------------------------------------------------------------
  // What collapsing means
  // ---------------------------------------------------------------------------

  /** Cell `l` holds a clean value, written out. */
  ghost predicate Settled(g: Graph, l: Loc)
    requires Wf(g) && l in g.live
  {
    Quoted(ReadAt(g, l))
  }

  /** Cell `l` is erased, whatever the choices. */
  ghost predicate Erased(g: Graph, l: Loc)
    requires Wf(g) && l in g.live
  {
    forall r: Env :: !Clean(D(ReadAt(g, l), r))
  }

  /** The cells `x` were overwritten with `ERA`: the cell `loc` and cells that only they point at. */
  ghost predicate Doomed(g: Graph, x: set<Loc>, loc: Loc) {
    forall m :: m in x ==> m in g.live && (m == loc || (!IsRoot(g, m) && g.live[m].own0 in x && g.live[m].own1 in x))
  }

  /** Memory `m` shows the graph `g`, except in the cells `x`. */
  ghost predicate ShownBut(m: Memory, g: Graph, x: set<Loc>) {
    && Wf(g) && Fresh(g.live, m.next)
    && forall l :: l in g.live && l !in x ==> l in m.h && l in g.h && m.h[l] == g.h[l]
  }

  /** The outcome of collapsing cell `loc`: the graph it leads to, and the cells given up. */
  ghost predicate Outcome(res: Result, g: Graph, g2: Graph, x: set<Loc>, loc: Loc) {
    && Kept(g, g2, loc) && loc in g2.live
    && match res
       case Late => true
       case Gone(m2) => loc in x && Doomed(g2, x, loc) && ShownBut(m2, g2, x) && Erased(g2, loc)
       case Value(m2, plain) =>
         && g2.h == m2.h && Ready(m2, g2.live, loc)
         && var t := m2.h[loc].term;
         !t.Era? && (plain && !IsSup(t) && !IsInc(t) ==> Settled(g2, loc))
  }

  // ---------------------------------------------------------------------------
  // Fields
  // ---------------------------------------------------------------------------

  lemma SettledSame(g: Graph, g2: Graph, l: Loc)
    requires Wf(g) && Wf(g2) && l in g.live && l in g2.live && Same(ReadAt(g, l), ReadAt(g2, l)) && Settled(g, l)
    ensures Settled(g2, l)
  {
    QuotedStays(ReadAt(g, l), ReadAt(g2, l));
  }

  /** The value of a reduced node is clean just when the values of its fields are. */
  lemma NodeClean(head: Head, kids: seq<Tree>, r: Env)
    requires Raisable(head) && |kids| == Ari(head) && ValueLike(Node(head, 0), D(Build(head, kids), r))
    ensures Clean(D(Build(head, kids), r)) <==> forall k :: 0 <= k < |kids| ==> Clean(D(kids[k], r))
  {
    if head.HBin? {
      var x, y := D(kids[0], r), D(kids[1], r);
      assert D(Build(head, kids), r) == BinVal(head.k, x, y);
      StuckClean(head.k, x, y);
      assert (forall k :: 0 <= k < |kids| ==> Clean(D(kids[k], r))) <==> Clean(x) && Clean(y);
    } else {
      var v := D(Build(head, kids), r);
      assert forall k :: 0 <= k < |kids| ==> v.args[k] == D(kids[k], r);
    }
  }

  lemma StuckClean(k: Kind, x: Val, y: Val)
    requires Calculus.Stuck(BinVal(k, x, y))
    ensures Clean(BinVal(k, x, y)) <==> Clean(x) && Clean(y)
  {
    EqlAnswers(x, y);
  }

  /** Collapsing field `q` of cell `loc` leaves alone what collapsing `loc` would. */
  lemma ChildKept(g: Graph, g2: Graph, loc: Loc, t: Term, q: Loc)
    requires Kept(g, g2, q) && Holds(g, loc, t) && t.Node? && InFoot(t, q)
    ensures Kept(g, g2, loc) && Holds(g2, loc, t)
    ensures loc in g2.live && Same(ReadAt(g, loc), ReadAt(g2, loc))
  {
    assert TermOk(g, loc, t) && RefOk(g, loc, t, q);
    forall m | Outside(g, loc, m)
      ensures Outside(g, q, m) && m in g2.live && KeptCell(g, g2, loc, m)
    {
      assert Outside(g, q, m);
      assert KeptCell(g, g2, q, m);
    }
    assert Outside(g, q, loc);
    assert KeptCell(g, g2, q, loc);
  }

  /** Another field of the same node is not touched. */
  lemma SiblingKept(g: Graph, g2: Graph, loc: Loc, t: Term, q: Loc, m: Loc)
    requires Kept(g, g2, q) && Holds(g, loc, t) && t.Node? && InFoot(t, q) && InFoot(t, m) && m != q
    ensures m in g.live && m in g2.live && m in g.h && m in g2.h && g2.h[m] == g.h[m]
    ensures Same(ReadAt(g, m), ReadAt(g2, m))
  {
    assert TermOk(g, loc, t) && RefOk(g, loc, t, q) && RefOk(g, loc, t, m);
    assert Outside(g, q, m);
    assert KeptCell(g, g2, q, m);
  }

  /** What is known of a field that has been collapsed; `first` says that it is the first superposition. */
  ghost predicate FieldDone(g: Graph, m: Loc, j: int, at: Loc, plain: bool)
    requires Wf(g)
  {
    && m in g.live && m in g.h && !g.h[m].term.Era?
    && (j < 0 ==> !IsSup(g.h[m].term))
    && (j < 0 && plain ==> Settled(g, m))
  }

  /** The loop invariant of `cnf_at`: the fields before `i` are collapsed, and `j` is the first superposition. */
  ghost predicate FieldsDone(g: Graph, at: Loc, i: nat, j: int, plain: bool)
    requires Wf(g)
  {
    && -1 <= j < i
    && (j >= 0 ==> at + j in g.h && IsSup(g.h[at + j].term))
    && forall m :: Within(m, at, i) ==> FieldDone(g, m, j, at, plain)
  }

  lemma FieldsKept(g: Graph, g2: Graph, loc: Loc, head: Head, at: Loc, i: nat, j: int, plain: bool)
    requires Kept(g, g2, at + i) && Holds(g, loc, Node(head, at)) && i < Ari(head)
    requires FieldsDone(g, at, i, j, plain)
    ensures FieldsDone(g2, at, i, j, plain)
  {
    var t := Node(head, at);
    assert InFoot(t, at + i);
    forall m | Within(m, at, i)
      ensures FieldDone(g2, m, j, at, plain) && m in g.h && g2.h[m] == g.h[m]
    {
      assert FieldDone(g, m, j, at, plain);
      SiblingKept(g, g2, loc, t, at + i, m);
      if j < 0 && plain {
        SettledSame(g, g2, m);
      }
    }
    assert j >= 0 ==> Within(at + j, at, i);
  }

  lemma WhnfSame(g: Graph, g2: Graph, l: Loc)
    requires Wf(g) && Wf(g2) && l in g.live && l in g2.live && Same(ReadAt(g, l), ReadAt(g2, l))
    requires g.h[l].term == g2.h[l].term && Whnf(g, l)
    ensures Whnf(g2, l)
  {
    forall r: Env
      ensures ValueLike(g2.h[l].term, D(ReadAt(g2, l), r))
    {
      assert ValueLike(g.h[l].term, D(ReadAt(g, l), r));
      assert D(ReadAt(g, l), r) == D(ReadAt(g2, l), r);
    }
  }

  /** An erased field erases the node. */
  lemma ErasedNode(g: Graph, loc: Loc, head: Head, at: Loc, k: nat)
    requires Wf(g) && Holds(g, loc, Node(head, at)) && Raisable(head) && Whnf(g, loc) && k < Ari(head)
    requires at + k in g.live && Erased(g, at + k)
    ensures Erased(g, loc)
  {
    var t := Node(head, at);
    var kids := Kids(g, t, loc);
    ReadNode(g, t, loc);
    forall r: Env
      ensures !Clean(D(ReadAt(g, loc), r))
    {
      assert ValueLike(t, D(Build(head, kids), r));
      NodeClean(head, kids, r);
      assert !Clean(D(kids[k], r));
    }
  }

  /** A reduced node over values written out is written out. */
  lemma NodeQuoted(head: Head, kids: seq<Tree>, r: Env)
    requires Raisable(head) && |kids| == Ari(head) && ValueLike(Node(head, 0), D(Build(head, kids), r))
    requires forall k :: 0 <= k < |kids| ==> Clean(D(kids[k], r)) && kids[k] == Quote(D(kids[k], r))
    requires IsLogic(Node(head, 0)) ==> !D(kids[0], r).VNum?
    ensures Clean(D(Build(head, kids), r)) && Build(head, kids) == Quote(D(Build(head, kids), r))
  {
    var v := D(Build(head, kids), r);
    NodeClean(head, kids, r);
    if head.HBin? {
      StuckQuoted(head.k, D(kids[0], r), D(kids[1], r));
    } else {
      assert forall k :: 0 <= k < |kids| ==> v.args[k] == D(kids[k], r);
      assert Quotes.Quotes(v.args) == kids;
    }
  }

  lemma StuckQuoted(k: Kind, x: Val, y: Val)
    requires Calculus.Stuck(BinVal(k, x, y)) && Clean(x) && Clean(y) && (!k.KOp2? ==> !x.VNum?)
    ensures Quote(BinVal(k, x, y)) == TBin(k, Quote(x), Quote(y))
  {
    EqlAnswers(x, y);
  }

  /** A reduced node with settled fields is settled. */
  lemma SettledNode(g: Graph, loc: Loc, head: Head, at: Loc)
    requires Wf(g) && Holds(g, loc, Node(head, at)) && Raisable(head) && Whnf(g, loc) && Jammed(g, Node(head, at))
    requires forall m :: Within(m, at, Ari(head)) ==> m in g.live && Settled(g, m)
    ensures Settled(g, loc)
  {
    var t := Node(head, at);
    var kids := Kids(g, t, loc);
    ReadNode(g, t, loc);
    forall r: Env
      ensures Clean(D(ReadAt(g, loc), r)) && ReadAt(g, loc) == Quote(D(ReadAt(g, loc), r))
    {
      forall k | 0 <= k < |kids|
        ensures Clean(D(kids[k], r)) && kids[k] == Quote(D(kids[k], r))
      {
        assert Within(at + k, at, Ari(head)) && Settled(g, at + k);
      }
      assert ValueLike(t, D(Build(head, kids), r));
      NodeQuoted(head, kids, r);
    }
  }

  lemma AtomSettled(g: Graph, l: Loc)
    requires Wf(g) && l in g.live && IsAtom(g.h[l].term) && !g.h[l].term.Era?
    requires g.h[l].term.Node? ==> g.h[l].term.head.HCtr?
    ensures Settled(g, l)
  {
    ReadAtom(g, l);
    QuotedNormal(ReadAt(g, l));
  }

  /** Lifting keeps the meaning of the cell. */
  lemma LiftKeeps(m: Memory, live: map<Loc, Info>, loc: Loc, head: Head, at: Loc, j: nat) returns (g2: Graph)
    requires Ready(m, live, loc) && m.h[loc].term == Node(head, at) && Raisable(head) && j < Ari(head)
    requires at + j in m.h && IsSup(m.h[at + j].term)
    ensures var m2 := Lift(m, loc, head, at, j);
            Kept(Graph(m.h, live), g2, loc) && g2.h == m2.h && Ready(m2, g2.live, loc) && IsSup(m2.h[loc].term)
  {
    var g, t := Graph(m.h, live), m.h[at + j].term;
    var r := Raise(head, at, j, t.head.lab, t.loc, m.next);
    RaiseParts(r, g, loc);
    RaiseField(r, g, loc, at + j);
    RaiseReady(r, g, loc);
    var c := RaiseChange(r, g, loc);
    RaiseKept(r, c);
    g2 := c.g2;
    LiftReady(r, c, Lift(m, loc, head, at, j));
  }

  lemma LiftReady(r: Raise, c: Change, m2: Memory)
    requires Wf(c.g2) && RaiseStep(r, c) && m2.h == c.g2.h && m2.next == r.next + 2 * Ari(r.head) + 1
    ensures Ready(m2, c.g2.live, c.p) && IsSup(m2.h[c.p].term)
  {
    assert c.g2 == Graph(m2.h, c.g2.live);
    assert c.p !in c.x by {
      assert !AnyField(r, c.p);
    }
  }

  lemma RaiseReady(r: Raise, g: Graph, p: Loc)
    requires Wf(g) && RaiseRedex(r, g, p) && g.live[p].rank > 0
    ensures RaiseStep(r, RaiseChange(r, g, p))
  {
    var c := RaiseChange(r, g, p);
    RaiseSetsIt(r, c);
    RaisePutsIt(r, g.h);
    RaiseCells(r, c, RaiseOut(r, g.h));
    RaiseTableIt(r, c);
  }

  // ---------------------------------------------------------------------------
  // The theorem
  // ---------------------------------------------------------------------------

  /** Collapsing a cell keeps its meaning, and settles it or shows why not. */
  lemma {:induction false} CnfAtKeeps(m: Memory, live: map<Loc, Info>, loc: Loc, fuel: nat)
    returns (g2: Graph, x: set<Loc>)
    requires Ready(m, live, loc)
    ensures Outcome(CnfAt(m, loc, fuel), Graph(m.h, live), g2, x, loc)
    decreases fuel, 0
  {
    var g := Graph(m.h, live);
    g2, x := g, {};
    if fuel == 0 || !Finished(Steps(Start(m, loc), fuel)) {
      KeptSelf(g, loc, Nil, m.h[loc].term);
    } else {
      var m1 := WnfAt(m, loc, fuel);
      var live1 := WnfJams(m, live, loc, fuel);
      var g1, t := Graph(m1.h, live1), m1.h[loc].term;
      g2 := g1;
      if t.Era? {
        x := {loc};
        AtomMeaning(g1, loc);
      } else if HasFields(t) {
        assert FieldsDone(g1, t.loc, 0, -1, true);
        g2, x := CnfFieldsKeeps(m1, live1, loc, t.head, t.loc, 0, -1, true, fuel - 1);
        OutcomeAfter(CnfAt(m, loc, fuel), g, g1, g2, x, loc);
      } else if !IsSup(t) && !IsInc(t) && !t.Dp? {
        NotPart(g1, loc);
        AtomSettled(g1, loc);
      }
    }
  }

  lemma WnfReduced(m: Memory, live: map<Loc, Info>, loc: Loc, n: nat, live1: map<Loc, Info>)
    requires Ready(m, live, loc) && Finished(Steps(Start(m, loc), n)) && Ready(WnfAt(m, loc, n), live1, loc)
    requires Kept(Graph(m.h, live), Graph(WnfAt(m, loc, n).h, live1), loc)
    ensures Whnf(Graph(WnfAt(m, loc, n).h, live1), loc)
  {
    FinishedReduced(m, live, loc, n);
    var g, g1 := Graph(m.h, live), Graph(WnfAt(m, loc, n).h, live1);
    assert Outside(g, loc, loc) && KeptCell(g, g1, loc, loc);
    forall r: Env
      ensures ValueLike(g1.h[loc].term, D(ReadAt(g1, loc), r))
    {
      assert D(ReadAt(g, loc), r) == D(ReadAt(g1, loc), r);
    }
  }

  lemma {:induction false} CnfFieldsKeeps(m: Memory, live: map<Loc, Info>, loc: Loc, head: Head, at: Loc, i: nat,
                                          j: int, plain: bool, fuel: nat)
    returns (g2: Graph, x: set<Loc>)
    requires Ready(m, live, loc) && m.h[loc].term == Node(head, at) && Raisable(head) && i <= Ari(head)
    requires Whnf(Graph(m.h, live), loc) && Jammed(Graph(m.h, live), Node(head, at))
    requires FieldsDone(Graph(m.h, live), at, i, j, plain)
    ensures Outcome(CnfFields(m, loc, head, at, i, j, plain, fuel), Graph(m.h, live), g2, x, loc)
    decreases fuel, 1 + Ari(head) - i, 1
  {
    var g, t := Graph(m.h, live), Node(head, at);
    g2, x := g, {};
    if i == Ari(head) {
      g2 := FieldsEnd(m, live, loc, head, at, j, plain, fuel);
    } else {
      var q := at + i;
      FieldReady(m, live, loc, t, q);
      var g1, x1 := CnfAtKeeps(m, live, q, fuel);
      match CnfAt(m, q, fuel)
      case Late =>
        ChildKept(g, g1, loc, t, q);
        g2 := g1;
      case Gone(m') =>
        FieldGone(m', g, g1, x1, loc, head, at, i);
        g2, x := g1, x1 + {loc};
      case Value(m', p) =>
        g2, x := FieldValue(m, live, loc, head, at, i, j, plain, fuel, m', p, g1, x1);
    }
  }

  /** A field that came out as a value: the loop goes on. */
  lemma FieldsUnfold(m: Memory, loc: Loc, head: Head, at: Loc, i: nat, j: int, plain: bool, fuel: nat, m': Memory,
                     p: bool)
    requires i < Ari(head) && CnfAt(m, at + i, fuel) == Value(m', p)
    ensures var t := At(m'.h, at + i);
            var res := CnfFields(m', loc, head, at, i + 1, if j < 0 && IsSup(t) then i else j, plain && p && !IsInc(t),
                                 fuel);
            CnfFields(m, loc, head, at, i, j, plain, fuel) == res
  {
  }

  lemma {:induction false} FieldValue(m: Memory, live: map<Loc, Info>, loc: Loc, head: Head, at: Loc, i: nat, j: int,
                                      plain: bool, fuel: nat, m': Memory, p: bool, g1: Graph, x1: set<Loc>)
    returns (g2: Graph, x: set<Loc>)
    requires Ready(m, live, loc) && m.h[loc].term == Node(head, at) && Raisable(head) && i < Ari(head)
    requires Whnf(Graph(m.h, live), loc) && Jammed(Graph(m.h, live), Node(head, at))
    requires FieldsDone(Graph(m.h, live), at, i, j, plain)
    requires CnfAt(m, at + i, fuel) == Value(m', p) && Outcome(Value(m', p), Graph(m.h, live), g1, x1, at + i)
    ensures Outcome(CnfFields(m, loc, head, at, i, j, plain, fuel), Graph(m.h, live), g2, x, loc)
    decreases fuel, 1 + Ari(head) - i, 0
  {
    var g := Graph(m.h, live);
    FieldNext(m, m', g, g1, x1, loc, head, at, i, j, plain, p);
    FieldsUnfold(m, loc, head, at, i, j, plain, fuel, m', p);
    var t, live1 := At(m'.h, at + i), g1.live;
    assert g1 == Graph(m'.h, live1);
    var res := CnfFields(m, loc, head, at, i, j, plain, fuel);
    g2, x := CnfFieldsKeeps(m', live1, loc, head, at, i + 1, if j < 0 && IsSup(t) then i else j,
                            plain && p && !IsInc(t), fuel);
    OutcomeAfter(res, g, g1, g2, x, loc);
  }

  lemma OutcomeAfter(res: Result, g: Graph, g1: Graph, g2: Graph, x: set<Loc>, loc: Loc)
    requires Kept(g, g1, loc) && Outcome(res, g1, g2, x, loc)
    ensures Outcome(res, g, g2, x, loc)
  {
    KeptThen(g, g1, g2, loc, loc);
  }

  /** An erased field: the node is given up. */
  lemma FieldGone(m': Memory, g: Graph, g1: Graph, x1: set<Loc>, loc: Loc, head: Head, at: Loc, i: nat)
    requires Holds(g, loc, Node(head, at)) && Raisable(head) && i < Ari(head) && Wf(g) && loc in g.live && Whnf(g, loc)
    requires Outcome(Gone(m'), g, g1, x1, at + i)
    ensures Outcome(Gone(Store(m', loc, Era)), g, g1, x1 + {loc}, loc)
  {
    var t, q := Node(head, at), at + i;
    ChildKept(g, g1, loc, t, q);
    WhnfSame(g, g1, loc);
    ErasedNode(g1, loc, head, at, i);
    GoneUp(m', g1, x1, loc, t, q);
  }

  /** The first operand of a logical operation keeps its meaning while the fields are collapsed. */
  lemma JammedKept(g: Graph, g1: Graph, loc: Loc, head: Head, at: Loc, q: Loc)
    requires Kept(g, g1, q) && Holds(g, loc, Node(head, at)) && Within(q, at, Ari(head)) && Jammed(g, Node(head, at))
    ensures Jammed(g1, Node(head, at))
  {
    var t := Node(head, at);
    if IsLogic(t) {
      assert InFoot(t, q) && InFoot(t, at);
      if at == q {
        assert Outside(g, q, q) && KeptCell(g, g1, q, q);
      } else {
        SiblingKept(g, g1, loc, t, q, at);
      }
      assert forall r: Env :: D(ReadAt(g1, at), r) == D(ReadAt(g, at), r);
    }
  }

  /** A field that came out as a value: the loop can go on. */
  lemma FieldNext(m: Memory, m': Memory, g: Graph, g1: Graph, x1: set<Loc>, loc: Loc, head: Head, at: Loc, i: nat,
                  j: int, plain: bool, p: bool)
    requires g.h == m.h && Ready(m, g.live, loc) && Holds(g, loc, Node(head, at)) && i < Ari(head)
    requires Whnf(g, loc) && FieldsDone(g, at, i, j, plain) && Outcome(Value(m', p), g, g1, x1, at + i)
    ensures Ready(m', g1.live, loc) && m'.h[loc].term == Node(head, at) && g1.h == m'.h && Whnf(g1, loc)
    ensures Kept(g, g1, loc)
    ensures var t := At(m'.h, at + i);
            FieldsDone(g1, at, i + 1, if j < 0 && IsSup(t) then i else j, plain && p && !IsInc(t))
    ensures Jammed(g, Node(head, at)) ==> Jammed(g1, Node(head, at))
  {
    if Jammed(g, Node(head, at)) {
      JammedKept(g, g1, loc, head, at, at + i);
    }
    ChildKept(g, g1, loc, Node(head, at), at + i);
    WhnfSame(g, g1, loc);
    FieldsKept(g, g1, loc, head, at, i, j, plain);
    NextField(g1, at, i, j, plain, p);
  }

  /** After the last field. */
  lemma FieldsEnd(m: Memory, live: map<Loc, Info>, loc: Loc, head: Head, at: Loc, j: int, plain: bool, fuel: nat)
    returns (g2: Graph)
    requires Ready(m, live, loc) && m.h[loc].term == Node(head, at) && Raisable(head)
    requires Whnf(Graph(m.h, live), loc) && Jammed(Graph(m.h, live), Node(head, at))
    requires FieldsDone(Graph(m.h, live), at, Ari(head), j, plain)
    ensures Outcome(CnfFields(m, loc, head, at, Ari(head), j, plain, fuel), Graph(m.h, live), g2, {}, loc)
  {
    var g, t := Graph(m.h, live), Node(head, at);
    g2 := g;
    KeptSelf(g, loc, Nil, t);
    if j >= 0 {
      g2 := LiftKeeps(m, live, loc, head, at, j);
      LoopEnd(g, g2, loc);
    } else if plain {
      AllSettled(g, loc, head, at, j, plain);
    }
  }

  lemma LoopEnd(g: Graph, g2: Graph, loc: Loc)
    requires Kept(g, g2, loc)
    ensures loc in g2.live
  {
    assert Outside(g, loc, loc);
  }

  lemma AllSettled(g: Graph, loc: Loc, head: Head, at: Loc, j: int, plain: bool)
    requires Wf(g) && Holds(g, loc, Node(head, at)) && Raisable(head) && Whnf(g, loc) && Jammed(g, Node(head, at))
    requires FieldsDone(g, at, Ari(head), j, plain) && j < 0 && plain
    ensures Settled(g, loc)
  {
    forall m | Within(m, at, Ari(head))
      ensures m in g.live && Settled(g, m)
    {
      assert FieldDone(g, m, j, at, plain);
    }
    SettledNode(g, loc, head, at);
  }

  lemma FieldReady(m: Memory, live: map<Loc, Info>, loc: Loc, t: Term, q: Loc)
    requires Ready(m, live, loc) && m.h[loc].term == t && t.Node? && InFoot(t, q)
    ensures Ready(m, live, q)
  {
    assert TermOk(Graph(m.h, live), loc, t) && RefOk(Graph(m.h, live), loc, t, q);
  }

  /** The cells given up below a field are given up with the node. */
  lemma GoneUp(m: Memory, g: Graph, x: set<Loc>, loc: Loc, t: Term, q: Loc)
    requires ShownBut(m, g, x) && Doomed(g, x, q) && Holds(g, loc, t) && t.Node? && InFoot(t, q)
    ensures Doomed(g, x + {loc}, loc) && ShownBut(Store(m, loc, Era), g, x + {loc})
  {
    assert TermOk(g, loc, t) && RefOk(g, loc, t, q);
  }

  lemma NextField(g: Graph, at: Loc, i: nat, j: int, plain: bool, p: bool)
    requires Wf(g) && FieldsDone(g, at, i, j, plain) && at + i in g.live && !g.h[at + i].term.Era?
    requires p && !IsSup(g.h[at + i].term) && !IsInc(g.h[at + i].term) ==> Settled(g, at + i)
    ensures var t := g.h[at + i].term;
            FieldsDone(g, at, i + 1, if j < 0 && IsSup(t) then i else j, plain && p && !IsInc(t))
  {
    var t := g.h[at + i].term;
    var n := i + 1;
    forall m | Within(m, at, n)
      ensures FieldDone(g, m, if j < 0 && IsSup(t) then i else j, at, plain && p && !IsInc(t))
    {
      if m != at + i {
        assert Within(m, at, i);
        assert FieldDone(g, m, j, at, plain);
      }
    }
  }
}
