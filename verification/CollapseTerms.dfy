/**
 Collapse of a cell, to its last line: the run ends; for a tame term what is printed are exactly its values,
 each written out in full; for a silent one they come level by level, and what is shown under a limit are
 the first of them. This is told of every cell of every heap in order, and of every term that can be loaded.
 */
module CollapseTerms {
  import opened Calculus
  import opened Reduction
  import opened Quotes
  import opened Heap
  import opened KeyQueue
  import opened Machine
  import opened Collapse
  import opened CollapseEnds
  import opened CollapseOrder
  import opened CollapseTame
  import opened CollapseWorker
  import opened Load

  /** The run on cell `root` with the given fuel. */
  function RunAt(m: Memory, root: Loc, fuel: nat): Run {
    Enumerate(m, [Task(0, root)], fuel)
  }

  /** In a heap in order, the cell `root` may be collapsed, and holds the term `t`. */
  ghost predicate Poised(m: Memory, live: map<Loc, Info>, root: Loc, t: Tree) {
    QueueReady(m, live, [Task(0, root)]) && root in live && ReadAt(Graph(m.h, live), root) == t
  }

  lemma PoisedHas(m: Memory, live: map<Loc, Info>, root: Loc, t: Tree, s: Sort)
    requires Poised(m, live, root, t) && Has(t, s)
    ensures AllHave(Graph(m.h, live), [Task(0, root)], s)
  {
  }

  // ---------------------------------------------------------------------------
  // The values
  // ---------------------------------------------------------------------------

  lemma TameExact(m: Memory, live: map<Loc, Info>, root: Loc, t: Tree, fuel: nat)
    requires Poised(m, live, root, t) && Has(t, Tame) && RunAt(m, root, fuel).done
    ensures Exact(RunAt(m, root, fuel).lines, t)
  {
    PoisedHas(m, live, root, t, Tame);
    EnumerateTame(m, live, [Task(0, root)], fuel);
    CollapseExact(m, live, root, fuel);
  }

  /** What is printed for a tame term are exactly the clean values it can have, each written out. */
  lemma TameCollapse(m: Memory, live: map<Loc, Info>, root: Loc, t: Tree) returns (n: nat)
    requires Poised(m, live, root, t) && Has(t, Tame)
    ensures forall k: nat :: n <= k ==> RunAt(m, root, k).done && Exact(RunAt(m, root, k).lines, t)
  {
    n := CollapseEnds.CollapseEnds(m, live, [Task(0, root)]);
    forall k: nat | n <= k
      ensures RunAt(m, root, k).done && Exact(RunAt(m, root, k).lines, t)
    {
      TameExact(m, live, root, t, k);
    }
  }

  /** Where the output is exact, no superposition, erasure, `INC`, reader or redex is left at any position of a line. */
  lemma ExactNormal(lines: seq<Line>, t: Tree, i: nat) returns (u: Tree)
    requires Exact(lines, t) && i < |lines|
    ensures Prints(lines[i], u) && Normal(u)
  {
    assert IsMeant(lines[i], t);
    var r: Env :| Clean(D(t, r)) && Prints(lines[i], Quote(D(t, r)));
    u := Quote(D(t, r));
    QuoteReads(t, r, r);
  }

  /** All comparisons are tame, whatever they compare. */
  lemma EqlTame(a: Tree, b: Tree)
    ensures Has(TBin(KEql, a, b), Tame)
  {
  }

  // ---------------------------------------------------------------------------
  // The order
  // ---------------------------------------------------------------------------

  /** The leaves of a plan, those fewer choices deep first, and from left to right. */
  function InOrder(p: Plan): seq<Plan> {
    Levels(p, 0, CollapseOrder.Height(p) + 1)
  }

  /** On each line its leaf, written out. */
  ghost predicate PrintsAll(lines: seq<Line>, ps: seq<Plan>) {
    |lines| == |ps| && forall i :: 0 <= i < |lines| ==> ps[i].Leaf? && Normal(ps[i].t) && Prints(lines[i], ps[i].t)
  }

  /**
   What the output of a run has to do with the term: the plan tells what `t` means, its leaves are printed in order.
   */
  ghost predicate Ordered(t: Tree, p: Plan, lines: seq<Line>) {
    Agrees(t, p) && NoUp(p) && PrintsAll(lines, InOrder(p))
  }

  lemma ShownPrints(lines: seq<Line>, p: Plan, ps: seq<Plan>, lives: seq<map<Loc, Info>>)
    requires ShowsAll(lines, ps, lives) && AllPlain(lines) && PlainQuoted(p) && multiset(ps) == Leaves(p)
    ensures PrintsAll(lines, ps)
  {
    forall i | 0 <= i < |lines|
      ensures ps[i].Leaf? && Normal(ps[i].t) && Prints(lines[i], ps[i].t)
    {
      assert Shows1(lines[i], ps[i], lives[i]) && ps[i] in multiset(ps);
      LeafQuoted(p, ps[i]);
      QuotedNormal(ps[i].t);
      assert Reads(lines[i], lives[i], ps[i].t);
    }
  }

  /** A silent term is printed in breadth-first order of its choices, each value written out. */
  lemma SilentOrder(m: Memory, live: map<Loc, Info>, root: Loc, t: Tree) returns (n: nat, p: Plan)
    requires Poised(m, live, root, t) && Has(t, Silent)
    ensures forall k: nat :: n <= k ==>
              RunAt(m, root, k).done && RunAt(m, root, k) == RunAt(m, root, n) && Ordered(t, p, RunAt(m, root, k).lines)
  {
    var q := [Task(0, root)];
    n := CollapseEnds.CollapseEnds(m, live, q);
    assert RunAt(m, root, n).done;
    var plans, lives := CollapseTells(m, live, q, n);
    assert q[0] in q;
    p := plans[root];
    assert Planned(q, plans) == [Task(0, p)];
    BreadthFirst(p);
    PrintedOnce([Task(0, p)]);
    assert AllLeaves([Task(0, p)]) == Leaves(p);
    Laws.SilentTame(t);
    PoisedHas(m, live, root, t, Tame);
    EnumerateTame(m, live, q, n);
    ShownPrints(RunAt(m, root, n).lines, p, InOrder(p), lives);
  }

  /** With less fuel fewer lines come out, but no other ones. */
  lemma {:induction false} EnumeratePrefix(m: Memory, q: seq<Task<Loc>>, n: nat, k: nat)
    requires n <= k
    ensures Enumerate(m, q, n).lines <= Enumerate(m, q, k).lines
    decreases n
  {
    if q != [] && n > 0 && !Cnf.CnfAt(m, q[0].item, n).Late? {
      CnfOn(m, q[0].item, n, k);
      var res := Cnf.CnfAt(m, q[0].item, n);
      EnumeratePrefix(res.m, Left(res, q), n - 1, k - 1);
    }
  }

  /**
   The worker on a silent term: under an output limit, the first leaves in breadth-first order are shown, for every
   batch size; it is done with any fuel with which the whole run would be, if not before.
   */
  method CollapseCell(m: Memory, ghost live: map<Loc, Info>, root: Loc, ghost t: Tree, limit: nat, batch: nat,
                      fuel: nat)
    returns (shown: seq<Line>, done: bool, ghost n: nat, ghost p: Plan)
    requires Poised(m, live, root, t) && Has(t, Silent)
    ensures Agrees(t, p) && NoUp(p)
    ensures RunAt(m, root, n).done && (n <= fuel ==> done)
    ensures done ==> PrintsAll(shown, InOrder(p)[..Min(limit, |InOrder(p)|)])
  {
    n, p := SilentOrder(m, live, root, t);
    shown, done := EvalCollapse(m, root, limit, batch, fuel);
    var q := [Task(0, root)];
    ghost var k := Max(fuel, n);
    if RunAt(m, root, fuel).done {
      EnumerateOn(m, q, fuel, k);
    }
    EnumeratePrefix(m, q, fuel, k);
    ghost var lines := RunAt(m, root, k).lines;
    assert done ==> shown == lines[..Min(limit, |lines|)];
  }

  // ---------------------------------------------------------------------------
  // Terms that are loaded
  // ---------------------------------------------------------------------------

  function RunOf(t: Tree, fuel: nat): Run {
    RunAt(MemoryOf(t), 1, fuel)
  }

  lemma LoadedPoised(t: Tree)
    requires Unshared(t)
    ensures Poised(MemoryOf(t), Loaded(t).live, 1, t)
  {
    LoadedReady(t);
  }

  /** With enough fuel collapse is done with any term, and more fuel makes no difference. */
  lemma TermEnds(t: Tree) returns (n: nat)
    requires Unshared(t)
    ensures forall k: nat :: n <= k ==> RunOf(t, k).done && RunOf(t, k) == RunOf(t, n)
  {
    LoadedReady(t);
    n := CollapseEnds.CollapseEnds(MemoryOf(t), Loaded(t).live, [Task(0, 1)]);
  }

  /** Every tame term without a `DUP`, put in the heap, is printed as exactly its clean values. */
  lemma TameTerm(t: Tree) returns (n: nat)
    requires Unshared(t) && Has(t, Tame)
    ensures forall k: nat :: n <= k ==> RunOf(t, k).done && Exact(RunOf(t, k).lines, t)
  {
    LoadedPoised(t);
    n := TameCollapse(MemoryOf(t), Loaded(t).live, 1, t);
  }

  /** Every silent term without a `DUP`, put in the heap, is printed in breadth-first order. */
  lemma SilentTerm(t: Tree) returns (n: nat, p: Plan)
    requires Unshared(t) && Has(t, Silent)
    ensures forall k: nat :: n <= k ==> RunOf(t, k).done && Ordered(t, p, RunOf(t, k).lines)
  {
    LoadedPoised(t);
    n, p := SilentOrder(MemoryOf(t), Loaded(t).live, 1, t);
  }
}
