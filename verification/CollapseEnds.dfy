/**
 Collapse comes to an end on every queue of every memory: the fields of a reduced node are lighter than the
 node, and each turn of the loop leaves less weight in the queue. More fuel than enough makes no difference.
 */
module CollapseEnds {
  import opened U32Ops
  import opened Calculus
  import opened Reduction
  import opened Heap
  import opened KeyQueue
  import opened Rules
  import opened RulesDup
  import opened RulesCnf
  import opened Machine
  import opened Cnf
  import opened Collapse
  import opened Ending

  // ---------------------------------------------------------------------------
  // More fuel
  // ---------------------------------------------------------------------------

  lemma WnfOn(m: Memory, loc: Loc, n: nat, k: nat)
    requires Finished(Steps(Start(m, loc), n)) && n <= k
    ensures Finished(Steps(Start(m, loc), k)) && WnfAt(m, loc, k) == WnfAt(m, loc, n)
  {
    StepsOn(Start(m, loc), n, k);
  }

  lemma {:induction false} CnfOn(m: Memory, loc: Loc, n: nat, k: nat)
    requires !CnfAt(m, loc, n).Late? && n <= k
    ensures CnfAt(m, loc, k) == CnfAt(m, loc, n)
    decreases n, 0
  {
    WnfOn(m, loc, n, k);
    var m1 := WnfAt(m, loc, n);
    var t := At(m1.h, loc);
    if !t.Era? && HasFields(t) {
      FieldsOn(m1, loc, t.head, t.loc, 0, -1, true, n - 1, k - 1);
    }
  }

  lemma {:induction false} FieldsOn(m: Memory, loc: Loc, head: Head, at: Loc, i: nat, j: int, plain: bool, n: nat,
                                    k: nat)
    requires i <= Ari(head) && !CnfFields(m, loc, head, at, i, j, plain, n).Late? && n <= k
    ensures CnfFields(m, loc, head, at, i, j, plain, k) == CnfFields(m, loc, head, at, i, j, plain, n)
    decreases n, 1 + Ari(head) - i
  {
    if i < Ari(head) {
      CnfOn(m, at + i, n, k);
      match CnfAt(m, at + i, n)
      case Late =>
      case Gone(_) =>
      case Value(m', p) =>
        var t := At(m'.h, at + i);
        FieldsOn(m', loc, head, at, i + 1, if j < 0 && IsSup(t) then i else j, plain && p && !IsInc(t), n, k);
    }
  }

  /** The queue after a turn. */
  function Left(res: Result, q: seq<Task<Loc>>): seq<Task<Loc>>
    requires q != [] && !res.Late?
  {
    if res.Gone? then q[1..] else NextTasks(res.m, q)
  }

  /** A turn depends on the fuel only in how the run goes on. */
  lemma TurnOn(m: Memory, q: seq<Task<Loc>>, n: nat, k: nat)
    requires q != [] && n > 0 && k > 0 && !CnfAt(m, q[0].item, n).Late?
    requires CnfAt(m, q[0].item, k) == CnfAt(m, q[0].item, n)
    requires var res := CnfAt(m, q[0].item, n);
             Enumerate(res.m, Left(res, q), k - 1) == Enumerate(res.m, Left(res, q), n - 1)
    ensures Enumerate(m, q, k) == Enumerate(m, q, n)
  {
  }

  lemma {:induction false} EnumerateOn(m: Memory, q: seq<Task<Loc>>, n: nat, k: nat)
    requires Enumerate(m, q, n).done && n <= k
    ensures Enumerate(m, q, k) == Enumerate(m, q, n)
    decreases n
  {
    if q != [] {
      CnfOn(m, q[0].item, n, k);
      var res := CnfAt(m, q[0].item, n);
      EnumerateOn(res.m, Left(res, q), n - 1, k - 1);
      TurnOn(m, q, n, k);
    }
  }

  // ---------------------------------------------------------------------------
  // Collapsing a cell
  // ---------------------------------------------------------------------------

  ghost function CellWeight(g: Graph, l: Loc): nat {
    if Wf(g) && l in g.live then Weight(ReadAt(g, l), 2) else 0
  }

  lemma SameLighter(g: Graph, g2: Graph, l: Loc)
    requires Wf(g) && Wf(g2) && l in g.live && l in g2.live && Same(ReadAt(g, l), ReadAt(g2, l))
    ensures CellWeight(g2, l) <= CellWeight(g, l)
  {
    DropAt(ReadAt(g, l), ReadAt(g2, l), 2);
  }

  lemma {:induction false} PartLighter(ts: seq<Tree>, i: nat, z: Base)
    requires i < |ts|
    ensures 2 * Weight(ts[i], z) <= WeightAll(ts, z)
  {
    var n := |ts| - 1;
    var p, w := WeightAll(ts[..n], z), 2 * Weight(ts[n], z);
    if i == n {
      TimesUp(1, w, p, w);
      TimesIs(1, w);
    } else {
      PartLighter(ts[..n], i, z);
      TimesUp(p, 1, p, w);
      TimesIs(p, 1);
    }
  }

  lemma KidLighter(head: Head, kids: seq<Tree>, i: nat)
    requires Raisable(head) && |kids| == Ari(head) && i < |kids|
    ensures Weight(kids[i], 2) < Weight(Build(head, kids), 2)
  {
    if head.HCtr? {
      PartLighter(kids, i, 2);
      TimesUp(1, WeightAll(kids, 2), 2, WeightAll(kids, 2));
      TimesIs(1, WeightAll(kids, 2));
    } else {
      var x, y := Weight(kids[0], 2), Weight(kids[1], 2);
      TimesUp(x, 1, x, y);
      TimesUp(1, y, x, y);
      TimesIs(x, 1);
      TimesIs(1, y);
    }
  }

  lemma FieldKid(g: Graph, loc: Loc, head: Head, at: Loc, i: nat)
    requires Wf(g) && Rules.Holds(g, loc, Node(head, at)) && i < Ari(head)
    ensures at + i in g.live && ReadAt(g, loc) == Build(head, Kids(g, Node(head, at), loc))
    ensures Kids(g, Node(head, at), loc)[i] == ReadAt(g, at + i)
  {
    var t := Node(head, at);
    assert TermOk(g, loc, t) && InFoot(t, at + i);
    ReadNode(g, t, loc);
  }

  lemma FieldLighter(g: Graph, loc: Loc, head: Head, at: Loc, i: nat)
    requires Wf(g) && Rules.Holds(g, loc, Node(head, at)) && Raisable(head) && i < Ari(head)
    ensures at + i in g.live && CellWeight(g, at + i) < CellWeight(g, loc)
  {
    var t := Node(head, at);
    FieldKid(g, loc, head, at, i);
    KidLighter(head, Kids(g, t, loc), i);
  }

  function Max(a: nat, b: nat): nat {
    if a < b then b else a
  }

  /** Enough fuel to reduce the cell, and enough for its fields. */
  lemma CnfJoin(m: Memory, loc: Loc, n1: nat, n2: nat)
    requires Finished(Steps(Start(m, loc), n1))
    requires var m1 := WnfAt(m, loc, n1); var t := At(m1.h, loc);
             !t.Era? && HasFields(t) ==> !CnfFields(m1, loc, t.head, t.loc, 0, -1, true, n2).Late?
    ensures !CnfAt(m, loc, 1 + Max(n1, n2)).Late?
  {
    var n := 1 + Max(n1, n2);
    var m1 := WnfAt(m, loc, n1);
    var t := At(m1.h, loc);
    if !t.Era? && HasFields(t) {
      FieldsOn(m1, loc, t.head, t.loc, 0, -1, true, n2, n - 1);
    }
    WnfOn(m, loc, n1, n);
  }

  /** Collapsing a cell comes to an end. */
  lemma {:induction false} CnfEnds(m: Memory, live: map<Loc, Info>, loc: Loc) returns (n: nat)
    requires Ready(m, live, loc)
    ensures !CnfAt(m, loc, n).Late?
    decreases CellWeight(Graph(m.h, live), loc), 1, 0
  {
    var g := Graph(m.h, live);
    var n1 := WnfEnds(m, live, loc);
    var n2 := 0;
    var m1 := WnfAt(m, loc, n1);
    var live1 := WnfAtKeeps(m, live, loc, n1);
    WnfReduced(m, live, loc, n1, live1);
    var g1, t := Graph(m1.h, live1), m1.h[loc].term;
    if !t.Era? && HasFields(t) {
      assert Outside(g, loc, loc) && KeptCell(g, g1, loc, loc);
      SameLighter(g, g1, loc);
      assert FieldsDone(g1, t.loc, 0, -1, true);
      var all;
      n2, all := FieldsEnd(m1, live1, loc, t.head, t.loc, 0, -1, true);
    }
    CnfJoin(m, loc, n1, n2);
    n := 1 + Max(n1, n2);
  }

  /** A field that came out as a value: the node is no heavier than before. */
  lemma FieldTurn(m: Memory, live: map<Loc, Info>, loc: Loc, head: Head, at: Loc, i: nat, j: int, plain: bool, n: nat,
                  res: Result, k: nat, j': int, plain': bool)
    returns (live1: map<Loc, Info>)
    requires Ready(m, live, loc) && m.h[loc].term == Node(head, at) && Raisable(head) && i < Ari(head) && k == i + 1
    requires Whnf(Graph(m.h, live), loc) && FieldsDone(Graph(m.h, live), at, i, j, plain)
    requires res == CnfAt(m, at + i, n) && res.Value?
    requires var t := At(res.m.h, at + i);
             j' == (if j < 0 && IsSup(t) then i else j) && plain' == (plain && res.plain && !IsInc(t))
    ensures Ready(res.m, live1, loc) && res.m.h[loc].term == Node(head, at) && Whnf(Graph(res.m.h, live1), loc)
    ensures FieldsDone(Graph(res.m.h, live1), at, k, j', plain')
    ensures CellWeight(Graph(res.m.h, live1), loc) <= CellWeight(Graph(m.h, live), loc)
  {
    var g, q := Graph(m.h, live), at + i;
    FieldReady(m, live, loc, Node(head, at), q);
    var g1, x1 := CnfAtKeeps(m, live, q, n);
    var m', p := res.m, res.plain;
    assert res == Value(m', p) && Outcome(res, g, g1, x1, q);
    FieldNext(m, m', g, g1, x1, loc, head, at, i, j, plain, p);
    ChildKept(g, g1, loc, Node(head, at), q);
    SameLighter(g, g1, loc);
    live1 := g1.live;
    assert g1 == Graph(res.m.h, live1);
  }

  lemma FieldsJoin(m: Memory, loc: Loc, head: Head, at: Loc, i: nat, j: int, plain: bool, n1: nat, n2: nat, n: nat,
                   res: Result, j': int, plain': bool, rest: Result)
    requires i < Ari(head) && res == CnfAt(m, at + i, n1) && res.Value? && n == Max(n1, n2)
    requires var t := At(res.m.h, at + i);
             j' == (if j < 0 && IsSup(t) then i else j) && plain' == (plain && res.plain && !IsInc(t))
    requires rest == CnfFields(res.m, loc, head, at, i + 1, j', plain', n2) && !rest.Late?
    ensures rest == CnfFields(m, loc, head, at, i, j, plain, n)
  {
    CnfOn(m, at + i, n1, n);
    FieldsOn(res.m, loc, head, at, i + 1, j', plain', n2, n);
  }

  lemma {:induction false} FieldsEnd(m: Memory, live: map<Loc, Info>, loc: Loc, head: Head, at: Loc, i: nat, j: int,
                                     plain: bool)
    returns (n: nat, all: Result)
    requires Ready(m, live, loc) && m.h[loc].term == Node(head, at) && Raisable(head) && i <= Ari(head)
    requires Whnf(Graph(m.h, live), loc) && FieldsDone(Graph(m.h, live), at, i, j, plain)
    ensures all == CnfFields(m, loc, head, at, i, j, plain, n) && !all.Late?
    decreases CellWeight(Graph(m.h, live), loc), 0, 1 + Ari(head) - i, 1
  {
    if i == Ari(head) {
      n := 0;
      all := CnfFields(m, loc, head, at, i, j, plain, n);
    } else {
      var n1, res := FieldEnds(m, live, loc, head, at, i);
      if res.Value? {
        n, all := FieldsNextEnd(m, live, loc, head, at, i, j, plain, n1, res);
      } else {
        n := n1;
        all := FieldsStop(m, loc, head, at, i, j, plain, n, res);
      }
    }
  }

  lemma {:induction false} FieldEnds(m: Memory, live: map<Loc, Info>, loc: Loc, head: Head, at: Loc, i: nat)
    returns (n: nat, res: Result)
    requires Ready(m, live, loc) && m.h[loc].term == Node(head, at) && Raisable(head) && i < Ari(head)
    ensures res == CnfAt(m, at + i, n) && !res.Late?
    decreases CellWeight(Graph(m.h, live), loc), 0, 0
  {
    FieldReady(m, live, loc, Node(head, at), at + i);
    FieldLighter(Graph(m.h, live), loc, head, at, i);
    n := CnfEnds(m, live, at + i);
    res := CnfAt(m, at + i, n);
  }

  lemma FieldsStop(m: Memory, loc: Loc, head: Head, at: Loc, i: nat, j: int, plain: bool, n: nat, res: Result)
    returns (all: Result)
    requires i < Ari(head) && res == CnfAt(m, at + i, n) && res.Gone?
    ensures all == CnfFields(m, loc, head, at, i, j, plain, n) && !all.Late?
  {
    all := CnfFields(m, loc, head, at, i, j, plain, n);
  }

  lemma {:induction false} FieldsNextEnd(m: Memory, live: map<Loc, Info>, loc: Loc, head: Head, at: Loc, i: nat, j: int,
                                         plain: bool, n1: nat, res: Result)
    returns (n: nat, all: Result)
    requires Ready(m, live, loc) && m.h[loc].term == Node(head, at) && Raisable(head) && i < Ari(head)
    requires Whnf(Graph(m.h, live), loc) && FieldsDone(Graph(m.h, live), at, i, j, plain)
    requires res == CnfAt(m, at + i, n1) && res.Value?
    ensures all == CnfFields(m, loc, head, at, i, j, plain, n) && !all.Late?
    decreases CellWeight(Graph(m.h, live), loc), 0, 1 + Ari(head) - i, 0
  {
    var t := At(res.m.h, at + i);
    var j', plain' := if j < 0 && IsSup(t) then i else j, plain && res.plain && !IsInc(t);
    var n2;
    n2, all := FieldsRestEnd(m, live, loc, head, at, i, j, plain, n1, res, i + 1, j', plain');
    n := Max(n1, n2);
    FieldsJoin(m, loc, head, at, i, j, plain, n1, n2, n, res, j', plain', all);
  }

  lemma {:induction false} FieldsRestEnd(m: Memory, live: map<Loc, Info>, loc: Loc, head: Head, at: Loc, i: nat, j: int,
                                         plain: bool, n1: nat, res: Result, k: nat, j': int, plain': bool)
    returns (n: nat, rest: Result)
    requires Ready(m, live, loc) && m.h[loc].term == Node(head, at) && Raisable(head) && i < Ari(head) && k == i + 1
    requires Whnf(Graph(m.h, live), loc) && FieldsDone(Graph(m.h, live), at, i, j, plain)
    requires res == CnfAt(m, at + i, n1) && res.Value?
    requires var t := At(res.m.h, at + i);
             j' == (if j < 0 && IsSup(t) then i else j) && plain' == (plain && res.plain && !IsInc(t))
    ensures rest == CnfFields(res.m, loc, head, at, k, j', plain', n) && !rest.Late?
    decreases CellWeight(Graph(m.h, live), loc), 0, Ari(head) - i, 2
  {
    var live1 := FieldTurn(m, live, loc, head, at, i, j, plain, n1, res, k, j', plain');
    n, rest := FieldsEnd(res.m, live1, loc, head, at, k, j', plain');
  }

  // ---------------------------------------------------------------------------
  // The loop
  // ---------------------------------------------------------------------------

  /** The weight of all that waits. */
  ghost function Burden(g: Graph, q: seq<Task<Loc>>): nat {
    if q == [] then 0 else CellWeight(g, q[0].item) + Burden(g, q[1..])
  }

  lemma {:induction false} InsertBurden(g: Graph, q: seq<Task<Loc>>, t: Task<Loc>)
    ensures Burden(g, Insert(q, t)) == Burden(g, q) + CellWeight(g, t.item)
  {
    if q == [] || t.key < q[0].key {
      assert ([t] + q)[1..] == q;
    } else {
      InsertBurden(g, q[1..], t);
      assert ([q[0]] + Insert(q[1..], t))[1..] == Insert(q[1..], t);
    }
  }

  ghost predicate TasksSame(g: Graph, g2: Graph, q: seq<Task<Loc>>) {
    Wf(g) && Wf(g2) && forall t :: t in q ==>
      t.item in g.live && t.item in g2.live && Same(ReadAt(g, t.item), ReadAt(g2, t.item))
  }

  lemma {:induction false} BurdenKept(g: Graph, g2: Graph, q: seq<Task<Loc>>)
    requires TasksSame(g, g2, q)
    ensures Burden(g2, q) <= Burden(g, q)
  {
    if q != [] {
      assert q[0] in q && forall t :: t in q[1..] ==> t in q;
      SameLighter(g, g2, q[0].item);
      BurdenKept(g, g2, q[1..]);
    }
  }

  /** All that waits has sort `s`. */
  ghost predicate AllHave(g: Graph, q: seq<Task<Loc>>, s: Sort) {
    Wf(g) && forall t :: t in q ==> t.item in g.live && Has(ReadAt(g, t.item), s)
  }

  /** The queue `q2` comes after `q`: it weighs less, and its tasks have the sorts of those before. */
  ghost predicate Follows(g: Graph, q: seq<Task<Loc>>, g2: Graph, q2: seq<Task<Loc>>) {
    Burden(g2, q2) < Burden(g, q) && forall s :: AllHave(g, q, s) ==> AllHave(g2, q2, s)
  }

  /** The rest of the queue follows, whatever becomes of its head. */
  lemma RestFollows(g: Graph, g2: Graph, q: seq<Task<Loc>>)
    requires q != [] && Rooted(g, q) && OthersKept(g, g2, q[0].item)
    ensures Rooted(g2, q[1..]) && Burden(g2, q[1..]) + 2 <= Burden(g, q)
    ensures forall s :: AllHave(g, q, s) ==> AllHave(g2, q[1..], s)
  {
    RestRooted(g, g2, q);
    BurdenKept(g, g2, q[1..]);
    assert q[0] in q;
    forall s | AllHave(g, q, s)
      ensures AllHave(g2, q[1..], s)
    {
      forall t | t in q[1..]
        ensures t.item in g2.live && Has(ReadAt(g2, t.item), s)
      {
        assert t in q;
        KeepAt(ReadAt(g, t.item), ReadAt(g2, t.item), s);
      }
    }
  }

  lemma RestLighter(g: Graph, g2: Graph, q: seq<Task<Loc>>)
    requires q != [] && Rooted(g, q) && OthersKept(g, g2, q[0].item)
    ensures Burden(g2, q[1..]) + CellWeight(g, q[0].item) <= Burden(g, q)
  {
    RestRooted(g, g2, q);
    BurdenKept(g, g2, q[1..]);
  }

  /** The head was an `INC`, and its field takes its place. */
  ghost predicate Bared(g: Graph, g2: Graph, g3: Graph, q: seq<Task<Loc>>, inc: Loc) {
    && q != [] && Rooted(g, q) && OthersKept(g, g3, q[0].item) && Wf(g2) && q[0].item in g.live && q[0].item in g2.live
    && inc in g3.live && Same(ReadAt(g, q[0].item), ReadAt(g2, q[0].item))
    && ReadAt(g2, q[0].item) == TInc(ReadAt(g3, inc))
  }

  lemma BurdenAhead(g: Graph, t: Task<Loc>, q: seq<Task<Loc>>)
    ensures Burden(g, [t] + q) == CellWeight(g, t.item) + Burden(g, q)
  {
    assert ([t] + q)[1..] == q;
  }

  lemma BareLighter(g2: Graph, g3: Graph, l: Loc, inc: Loc)
    requires Wf(g2) && Wf(g3) && l in g2.live && inc in g3.live && ReadAt(g2, l) == TInc(ReadAt(g3, inc))
    ensures CellWeight(g3, inc) < CellWeight(g2, l)
  {
  }

  lemma IncLighter(g: Graph, g2: Graph, g3: Graph, q: seq<Task<Loc>>, inc: Loc, t: Task<Loc>)
    requires Bared(g, g2, g3, q, inc) && t.item == inc
    ensures Burden(g3, [t] + q[1..]) < Burden(g, q)
  {
    RestLighter(g, g3, q);
    SameLighter(g, g2, q[0].item);
    BareLighter(g2, g3, q[0].item, inc);
    BurdenAhead(g3, t, q[1..]);
  }

  lemma IncHas(g: Graph, g2: Graph, g3: Graph, q: seq<Task<Loc>>, inc: Loc, t: Task<Loc>, s: Sort)
    requires Bared(g, g2, g3, q, inc) && t.item == inc && AllHave(g, q, s)
    ensures AllHave(g3, [t] + q[1..], s)
  {
    RestFollows(g, g3, q);
    assert q[0] in q;
    KeepAt(ReadAt(g, q[0].item), ReadAt(g2, q[0].item), s);
  }

  lemma IncFollows(m: Memory, g: Graph, g2: Graph, q: seq<Task<Loc>>, inc: Loc, q': seq<Task<Loc>>) returns (g3: Graph)
    requires q != [] && Rooted(g, q) && OthersKept(g, g2, q[0].item) && Waiting(g2, q[0].item)
    requires q[0].item in g.live && Same(ReadAt(g, q[0].item), ReadAt(g2, q[0].item))
    requires Fresh(g2.live, m.next) && g2.h == m.h && g2.h[q[0].item].term == Inc(inc)
    requires q' == [Task(Less(q[0].key), inc)] + q[1..]
    ensures g3.h == m.h && QueueReady(m, g3.live, q') && Follows(g, q, g3, q')
  {
    g3 := IncTurn(m, g, g2, q, inc);
    var h := Task(Less(q[0].key), inc);
    assert h in q';
    assert g3 == Graph(m.h, g3.live) && Bared(g, g2, g3, q, inc);
    IncLighter(g, g2, g3, q, inc, h);
    forall s | AllHave(g, q, s)
      ensures AllHave(g3, q', s)
    {
      IncHas(g, g2, g3, q, inc, h, s);
    }
  }

  lemma Push2Have(g: Graph, q: seq<Task<Loc>>, key: nat, a: Loc, b: Loc, s: Sort)
    requires AllHave(g, q, s) && a in g.live && b in g.live && Has(ReadAt(g, a), s) && Has(ReadAt(g, b), s)
    ensures AllHave(g, Push2(q, key, a, b), s)
  {
    Push2In(q, key, a, b);
  }

  lemma SupHas(g: Graph, g2: Graph, g3: Graph, q: seq<Task<Loc>>, lab: Label, sup: Loc, key: nat, s: Sort)
    requires Forked(g, g2, g3, q, lab, sup) && AllHave(g, q, s)
    ensures AllHave(g3, Push2(q[1..], key, sup, sup + 1), s)
  {
    RestFollows(g, g3, q);
    assert q[0] in q;
    KeepAt(ReadAt(g, q[0].item), ReadAt(g2, q[0].item), s);
    Push2Have(g3, q[1..], key, sup, sup + 1, s);
  }

  lemma Push2Burden(g: Graph, q: seq<Task<Loc>>, key: nat, a: Loc, b: Loc)
    ensures Burden(g, Push2(q, key, a, b)) == Burden(g, q) + CellWeight(g, a) + CellWeight(g, b)
  {
    InsertBurden(g, q, Task(Bucket(key), a));
    InsertBurden(g, Insert(q, Task(Bucket(key), a)), Task(Bucket(key), b));
  }

  /** The sides of a superposition weigh less than it. */
  lemma ForkLighter(g2: Graph, g3: Graph, l: Loc, lab: Label, a: Loc, b: Loc)
    requires Wf(g2) && Wf(g3) && l in g2.live && a in g3.live && b in g3.live
    requires ReadAt(g2, l) == TSup(lab, ReadAt(g3, a), ReadAt(g3, b))
    ensures CellWeight(g3, a) + CellWeight(g3, b) < CellWeight(g2, l)
  {
  }

  lemma SupLighter(g: Graph, g2: Graph, g3: Graph, q: seq<Task<Loc>>, lab: Label, sup: Loc, key: nat)
    requires Forked(g, g2, g3, q, lab, sup)
    ensures Burden(g3, Push2(q[1..], key, sup, sup + 1)) < Burden(g, q)
  {
    RestLighter(g, g3, q);
    SameLighter(g, g2, q[0].item);
    ForkLighter(g2, g3, q[0].item, lab, sup, sup + 1);
    Push2Burden(g3, q[1..], key, sup, sup + 1);
  }

  lemma SupFollows(m: Memory, g: Graph, g2: Graph, q: seq<Task<Loc>>, lab: Label, sup: Loc, q': seq<Task<Loc>>)
    returns (g3: Graph)
    requires q != [] && Rooted(g, q) && OthersKept(g, g2, q[0].item) && Waiting(g2, q[0].item)
    requires q[0].item in g.live && Same(ReadAt(g, q[0].item), ReadAt(g2, q[0].item))
    requires Fresh(g2.live, m.next) && g2.h == m.h && g2.h[q[0].item].term == Sup(lab, sup)
    requires q' == Push2(q[1..], q[0].key + 1, sup, sup + 1)
    ensures g3.h == m.h && QueueReady(m, g3.live, q') && Follows(g, q, g3, q')
  {
    g3 := SupTurn(m, g, g2, q, lab, sup);
    assert g3 == Graph(m.h, g3.live) && Forked(g, g2, g3, q, lab, sup);
    SupLighter(g, g2, g3, q, lab, sup, q[0].key + 1);
    forall s | AllHave(g, q, s)
      ensures AllHave(g3, q', s)
    {
      SupHas(g, g2, g3, q, lab, sup, q[0].key + 1, s);
    }
  }

  /** The head came out as a value. */
  lemma ValueFollows(m: Memory, g: Graph, g2: Graph, q: seq<Task<Loc>>, q': seq<Task<Loc>>) returns (g3: Graph)
    requires q != [] && Rooted(g, q) && OthersKept(g, g2, q[0].item) && Waiting(g2, q[0].item)
    requires q[0].item in g.live && Same(ReadAt(g, q[0].item), ReadAt(g2, q[0].item))
    requires Fresh(g2.live, m.next) && g2.h == m.h && q' == NextTasks(m, q)
    ensures g3 == Graph(m.h, g3.live) && QueueReady(m, g3.live, q') && Follows(g, q, g3, q')
  {
    var t := m.h[q[0].item].term;
    if IsInc(t) {
      g3 := IncFollows(m, g, g2, q, t.loc, q');
    } else if IsSup(t) {
      g3 := SupFollows(m, g, g2, q, t.head.lab, t.loc, q');
    } else {
      RestFollows(g, g2, q);
      g3 := g2;
    }
  }

  /** A turn of the loop leaves a queue in order that weighs less. */
  lemma TurnFollows(m: Memory, live: map<Loc, Info>, q: seq<Task<Loc>>, fuel: nat) returns (live2: map<Loc, Info>)
    requires QueueReady(m, live, q) && q != [] && !CnfAt(m, q[0].item, fuel).Late?
    ensures var res := CnfAt(m, q[0].item, fuel);
            QueueReady(res.m, live2, Left(res, q)) && Follows(Graph(m.h, live), q, Graph(res.m.h, live2), Left(res, q))
  {
    var g, loc := Graph(m.h, live), q[0].item;
    assert q[0] in q;
    var g2, x := CnfAtKeeps(m, live, loc, fuel);
    HeadKept(g, g2, loc);
    match CnfAt(m, loc, fuel)
    case Gone(m') =>
      var g3 := Forget(m', g2, x, loc);
      OthersThen(g, g2, g3, loc);
      RestFollows(g, g3, q);
      live2 := g3.live;
      assert g3 == Graph(m'.h, live2);
    case Value(m', _) =>
      var g3 := ValueFollows(m', g, g2, q, NextTasks(m', q));
      live2 := g3.live;
  }

  /** What waits after a turn has the sort of what waited before. */
  lemma TurnHas(m: Memory, live: map<Loc, Info>, q: seq<Task<Loc>>, fuel: nat, s: Sort) returns (live2: map<Loc, Info>)
    requires QueueReady(m, live, q) && q != [] && !CnfAt(m, q[0].item, fuel).Late? && AllHave(Graph(m.h, live), q, s)
    ensures var res := CnfAt(m, q[0].item, fuel);
            QueueReady(res.m, live2, Left(res, q)) && AllHave(Graph(res.m.h, live2), Left(res, q), s)
  {
    live2 := TurnFollows(m, live, q, fuel);
  }

  lemma EnumerateJoin(m: Memory, q: seq<Task<Loc>>, n1: nat, n2: nat)
    requires q != [] && !CnfAt(m, q[0].item, n1).Late?
    requires var res := CnfAt(m, q[0].item, n1); Enumerate(res.m, Left(res, q), n2).done
    ensures Enumerate(m, q, 1 + Max(n1, n2)).done
  {
    var res, n := CnfAt(m, q[0].item, n1), Max(n1, n2);
    CnfOn(m, q[0].item, n1, 1 + n);
    EnumerateOn(res.m, Left(res, q), n2, n);
  }

  /** Collapse comes to an end. */
  lemma {:induction false} EnumerateEnds(m: Memory, live: map<Loc, Info>, q: seq<Task<Loc>>) returns (n: nat)
    requires QueueReady(m, live, q)
    ensures Enumerate(m, q, n).done
    decreases Burden(Graph(m.h, live), q)
  {
    n := 0;
    if q != [] {
      assert q[0] in q;
      var n1 := CnfEnds(m, live, q[0].item);
      var live2 := TurnFollows(m, live, q, n1);
      var res := CnfAt(m, q[0].item, n1);
      var n2 := EnumerateEnds(res.m, live2, Left(res, q));
      EnumerateJoin(m, q, n1, n2);
      n := 1 + Max(n1, n2);
    }
  }

  /** With enough fuel, and then with any more, collapse is done, always with the same output. */
  lemma CollapseEnds(m: Memory, live: map<Loc, Info>, q: seq<Task<Loc>>) returns (n: nat)
    requires QueueReady(m, live, q)
    ensures forall k: nat :: n <= k ==> Enumerate(m, q, k).done && Enumerate(m, q, k) == Enumerate(m, q, n)
  {
    n := EnumerateEnds(m, live, q);
    forall k: nat | n <= k
      ensures Enumerate(m, q, k).done && Enumerate(m, q, k) == Enumerate(m, q, n)
    {
      EnumerateOn(m, q, n, k);
    }
  }
}
