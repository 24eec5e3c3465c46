/**
 Every term without a `DUP` can be put in the heap: each node in a block of its own, as `ALO` expansion
 lays them out. The heap is in order and reads back as the term, so what is proved of the machine and of
 collapse holds of all such terms.
 */
module Load {
  import U32Ops
  import opened Calculus
  import opened Reduction
  import opened Heap
  import opened Rules
  import opened KeyQueue
  import opened Machine
  import opened Collapse

  predicate Unshared(t: Tree) {
    match t
    case TCtr(_, args) => forall i :: 0 <= i < |args| ==> Unshared(args[i])
    case TSup(_, a, b) => Unshared(a) && Unshared(b)
    case TBin(_, x, y) => Unshared(x) && Unshared(y)
    case TInc(e) => Unshared(e)
    case TDp(_, _, _) => false
    case _ => true
  }

  // ---------------------------------------------------------------------------
  // Nodes
  // ---------------------------------------------------------------------------

  function Kids(t: Tree): seq<Tree> {
    match t
    case TCtr(_, args) => args
    case TSup(_, a, b) => [a, b]
    case TBin(_, x, y) => [x, y]
    case TInc(e) => [e]
    case _ => []
  }

  /** The word of a term, when its fields are at `loc`. */
  function Word(t: Tree, loc: Loc): Term {
    match t
    case TNum(n) => Num(n)
    case TAny => Any
    case TNam(tag, ext, val) => Nam(tag, ext, val)
    case TCtr(nam, args) => Node(HCtr(nam, |args|), loc)
    case TSup(l, _, _) => Node(HSup(l), loc)
    case TBin(k, _, _) => Node(HBin(k), loc)
    case TInc(_) => Node(HInc, loc)
    case _ => Era
  }

  function Height(t: Tree): nat
    decreases t, 0
  {
    match t
    case TCtr(_, args) => 1 + HeightAll(args)
    case TSup(_, a, b) => 1 + Height(a) + Height(b)
    case TBin(_, x, y) => 1 + Height(x) + Height(y)
    case TInc(e) => 1 + Height(e)
    case _ => 0
  }

  function HeightAll(ts: seq<Tree>): nat
    decreases ts, 1
  {
    if ts == [] then 0 else Height(ts[0]) + 1 + HeightAll(ts[1..])
  }

  lemma {:induction false} KidHeights(ts: seq<Tree>, i: nat)
    requires i < |ts|
    ensures Height(ts[i]) < HeightAll(ts)
  {
    if i > 0 {
      KidHeights(ts[1..], i - 1);
    }
  }

  lemma KidHeight(t: Tree, i: nat)
    requires i < |Kids(t)|
    ensures Height(Kids(t)[i]) < Height(t)
  {
    if t.TCtr? {
      KidHeights(t.args, i);
    }
  }

  // ---------------------------------------------------------------------------
  // Loading
  // ---------------------------------------------------------------------------

  datatype Image = Image(h: Cells, live: map<Loc, Info>, next: Loc)

  /** The term goes to cell `l`, which belongs to the term in cell `o`; its fields to new cells. */
  function Place(s: Image, l: Loc, o: Loc, t: Tree): Image
    decreases Height(t), 1, 0
  {
    var ks := Kids(t);
    forall i | 0 <= i < |ks| ensures Height(ks[i]) < Height(t) { KidHeight(t, i); }
    var s' := PlaceAll(s.(next := s.next + |ks|), s.next, l, ks, Height(t));
    Image(s'.h[l := Cell(false, Word(t, s.next))], s'.live[l := Info(Height(t), o, o, 0)], s'.next)
  }

  function PlaceAll(s: Image, l: Loc, o: Loc, ts: seq<Tree>, b: nat): Image
    requires forall i :: 0 <= i < |ts| ==> Height(ts[i]) < b
    decreases b, 0, |ts|
  {
    if ts == [] then s
    else
      assert Height(ts[0]) < b;
      assert forall i :: 0 <= i < |ts[1..]| ==> ts[1..][i] == ts[i + 1];
      PlaceAll(Place(s, l, o, ts[0]), l + 1, o, ts[1..], b)
  }

  ghost function Of(s: Image): Graph {
    Graph(s.h, s.live)
  }

  ghost predicate Sane(s: Image) {
    Wf(Of(s)) && Fresh(s.live, s.next)
  }

  /** What was there stays, and only cells from `next` on and the ones named are new. */
  ghost predicate Grows(s: Image, s': Image, from: Loc, to: Loc) {
    && s.next <= s'.next
    && (forall m :: m in s.live ==>
          m in s'.live && s'.live[m] == s.live[m] && m in s.h && m in s'.h && s'.h[m] == s.h[m])
    && (forall m :: m in s'.live ==> m in s.live || from <= m < to || s.next <= m)
  }

  ghost predicate Holds(s: Image, l: Loc, o: Loc, t: Tree) {
    && l in s.live && l in s.h && !s.h[l].sub && s.live[l].own0 == o && s.live[l].own1 == o
    && s.live[l].rank == Height(t)
    && Wf(Of(s)) && ReadAt(Of(s), l) == t
  }

  lemma HoldsOn(s: Image, s': Image, from: Loc, to: Loc, l: Loc, o: Loc, t: Tree)
    requires Holds(s, l, o, t) && Grows(s, s', from, to) && Wf(Of(s'))
    ensures Holds(s', l, o, t)
  {
    SubReadAt(Of(s'), Of(s), l);
  }

  ghost predicate HoldAll(s: Image, l: Loc, o: Loc, ts: seq<Tree>) {
    forall i :: 0 <= i < |ts| ==> Holds(s, l + i, o, ts[i])
  }

  /** A node is in order when its fields are. */
  lemma NodeHolds(s: Image, s': Image, l: Loc, o: Loc, t: Tree, loc: Loc)
    requires Sane(s) && l !in s.live && l < s.next && HoldAll(s, loc, l, Kids(t)) && !t.TDp?
    requires s' == Image(s.h[l := Cell(false, Word(t, loc))], s.live[l := Info(Height(t), o, o, 0)], s.next)
    ensures Sane(s') && Grows(s, s', l, l + 1) && Holds(s', l, o, t)
  {
    var w, g := Word(t, loc), Of(s');
    forall m | InFoot(w, m)
      ensures RefOk(g, l, w, m)
    {
      assert Holds(s, loc + (m - loc), l, Kids(t)[m - loc]);
      KidHeight(t, m - loc);
    }
    forall k | k in s'.live
      ensures k in s'.h && TermOk(g, k, s'.h[k].term)
    {
      if k != l {
        assert TermOk(Of(s), k, s.h[k].term);
      }
    }
    NodeReads(s, s', l, t, loc);
  }

  lemma NodeReads(s: Image, s': Image, l: Loc, t: Tree, loc: Loc)
    requires Wf(Of(s)) && Wf(Of(s')) && l in s'.live && l in s'.h && s'.h[l].term == Word(t, loc)
    requires HoldAll(s, loc, l, Kids(t)) && !t.TDp?
    requires SubGraph(Of(s'), Of(s))
    ensures ReadAt(Of(s'), l) == t
  {
    var g, w := Of(s'), Word(t, loc);
    assert TermOk(g, l, w);
    if w.Node? {
      var kids := seq(Ari(w.head), i requires 0 <= i < Ari(w.head) => assert InFoot(w, loc + i); ReadAt(g, loc + i));
      forall i | 0 <= i < |kids|
        ensures kids[i] == Kids(t)[i]
      {
        assert Holds(s, loc + i, l, Kids(t)[i]);
        SubReadAt(g, Of(s), loc + i);
      }
      assert kids == Kids(t);
      assert Build(w.head, kids) == t;
    }
  }

  lemma GrowsThen(s1: Image, s2: Image, s3: Image, a: Loc, b: Loc, c: Loc, d: Loc, from: Loc, to: Loc)
    requires Grows(s1, s2, a, b) && Grows(s2, s3, c, d) && from <= a && b <= to && from <= c && d <= to
    ensures Grows(s1, s3, from, to)
  {
  }

  ghost predicate Empty(s: Image, from: Loc, to: Loc) {
    to <= s.next && forall m :: from <= m < to ==> m !in s.live
  }

  /** A term put in a free cell is there, and the rest is as it was. */
  lemma {:induction false} PlaceOk(s: Image, l: Loc, o: Loc, t: Tree)
    requires Sane(s) && Empty(s, l, l + 1) && Unshared(t)
    ensures Sane(Place(s, l, o, t)) && Grows(s, Place(s, l, o, t), l, l + 1) && Holds(Place(s, l, o, t), l, o, t)
    decreases Height(t), 1, 0
  {
    var ks := Kids(t);
    forall i | 0 <= i < |ks| ensures Height(ks[i]) < Height(t) && Unshared(ks[i]) { KidHeight(t, i); }
    var s0 := s.(next := s.next + |ks|);
    assert Of(s0) == Of(s);
    PlaceAllOk(s0, s.next, l, ks, Height(t));
    var s1 := PlaceAll(s0, s.next, l, ks, Height(t));
    NodeHolds(s1, Place(s, l, o, t), l, o, t, s.next);
    assert Grows(s, s1, s.next, s1.next);
  }

  lemma {:induction false} PlaceAllOk(s: Image, l: Loc, o: Loc, ts: seq<Tree>, b: nat)
    requires forall i :: 0 <= i < |ts| ==> Height(ts[i]) < b && Unshared(ts[i])
    requires Sane(s) && Empty(s, l, l + |ts|)
    ensures var s' := PlaceAll(s, l, o, ts, b); Sane(s') && Grows(s, s', l, l + |ts|) && HoldAll(s', l, o, ts)
    decreases b, 0, |ts|
  {
    if ts != [] {
      var s1 := Place(s, l, o, ts[0]);
      PlaceOk(s, l, o, ts[0]);
      assert forall i :: 0 <= i < |ts[1..]| ==> ts[1..][i] == ts[i + 1];
      assert Empty(s1, l + 1, l + |ts|);
      PlaceAllOk(s1, l + 1, o, ts[1..], b);
      var s2 := PlaceAll(s1, l + 1, o, ts[1..], b);
      GrowsThen(s, s1, s2, l, l + 1, l + 1, l + |ts|, l, l + |ts|);
      HoldsOn(s1, s2, l + 1, l + |ts|, l, o, ts[0]);
      forall i | 0 <= i < |ts|
        ensures Holds(s2, l + i, o, ts[i])
      {
        if i > 0 {
          assert Holds(s2, l + 1 + (i - 1), o, ts[1..][i - 1]);
        }
      }
    }
  }

  // ---------------------------------------------------------------------------
  // Whole memories
  // ---------------------------------------------------------------------------

  /** The term in cell 1 of a memory of its own. */
  function Loaded(t: Tree): Image {
    Place(Image(map[], map[], 2), 1, 1, t)
  }

  function MemoryOf(t: Tree): Memory {
    Memory(Loaded(t).h, Loaded(t).next, 0)
  }

  /** A loaded term is ready to be reduced and collapsed, and reads back as itself. */
  lemma LoadedReady(t: Tree)
    requires Unshared(t)
    ensures Ready(MemoryOf(t), Loaded(t).live, 1)
    ensures QueueReady(MemoryOf(t), Loaded(t).live, [Task(0, 1)])
    ensures ReadAt(Graph(MemoryOf(t).h, Loaded(t).live), 1) == t
  {
    var s := Image(map[], map[], 2);
    assert Sane(s) && Empty(s, 1, 2);
    PlaceOk(s, 1, 1, t);
  }
}
