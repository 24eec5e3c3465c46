/**
 Enumerating the values of a cell, `clang/eval/collapse.c` with one worker. Cells to collapse wait in a
 queue ordered by key; a superposition sends its two sides back to the queue, a value is printed, an
 erased cell is dropped.
 */
module Collapse {
  import opened U32Ops
  import opened Calculus
  import opened Reduction
  import opened Quotes
  import opened Heap
  import opened KeyQueue
  import opened Rules
  import opened RulesDup
  import opened Machine
  import opened Cnf

  // ---------------------------------------------------------------------------
  // The loop
  // ---------------------------------------------------------------------------

  /** A printed value: the cell that holds it, in the memory at that time. */
  datatype Line = Line(m: Memory, loc: Loc, plain: bool)

  /** What has been printed, and whether the queue ran empty. */
  datatype Run = Run(lines: seq<Line>, done: bool)

  function Less(key: nat): nat {
    if key > 0 then key - 1 else 0
  }

  /** The queue after its head was collapsed: an `INC` makes way for its term, a superposition for its sides. */
  function NextTasks(m: Memory, q: seq<Task<Loc>>): seq<Task<Loc>>
    requires q != []
  {
    var t := At(m.h, q[0].item);
    if IsInc(t) then [Task(Less(q[0].key), t.loc)] + q[1..]
    else if IsSup(t) then Push2(q[1..], q[0].key + 1, t.loc, t.loc + 1)
    else q[1..]
  }

  /** The worker loop. `fuel` bounds the turns; `stop`, the output limit, is left to `Worker`. */
  function Enumerate(m: Memory, q: seq<Task<Loc>>, fuel: nat): Run
    decreases fuel
  {
    if q == [] then Run([], true)
    else if fuel == 0 then Run([], false)
    else
      var loc := q[0].item;
      match CnfAt(m, loc, fuel)
      case Late => Run([], false)
      case Gone(m') => Enumerate(m', q[1..], fuel - 1)
      case Value(m', plain) =>
        var run := Enumerate(m', NextTasks(m', q), fuel - 1);
        var t := At(m'.h, loc);
        if IsInc(t) || IsSup(t) then run else run.(lines := [Line(m', loc, plain)] + run.lines)
  }

  // ---------------------------------------------------------------------------
  // Choices
  // ---------------------------------------------------------------------------

  /** The tree of choices behind a cell. */
  datatype Plan = Leaf(t: Tree, plain: bool) | Dead | Fork(lab: Label, a: Plan, b: Plan) | Up(p: Plan)

  /** The leaf or dead end that an environment leads to, and what is left of the environment there. */
  ghost function Reach(p: Plan, r: Env): Plan {
    match p
    case Fork(l, a, b) => Reach(if Next(r, l) == 0 then a else b, Pop(r, l))
    case Up(p') => Reach(p', r)
    case _ => p
  }

  ghost function Rest(p: Plan, r: Env): Env {
    match p
    case Fork(l, a, b) => Rest(if Next(r, l) == 0 then a else b, Pop(r, l))
    case Up(p') => Rest(p', r)
    case _ => r
  }

  /** The plan tells what the tree means: at a leaf, its value; at a dead end, something erased. */
  ghost predicate Agrees(t: Tree, p: Plan) {
    forall r: Env :: AgreesAt(t, p, r)
  }

  ghost predicate AgreesAt(t: Tree, p: Plan, r: Env) {
    match Reach(p, r)
    case Leaf(u, _) => D(t, r) == D(u, Rest(p, r))
    case Dead => !Clean(D(t, r))
    case _ => false
  }

  /** The leaves marked as plain are written out. */
  ghost predicate PlainQuoted(p: Plan) {
    match p
    case Leaf(t, plain) => plain ==> Quoted(t)
    case Dead => true
    case Fork(_, a, b) => PlainQuoted(a) && PlainQuoted(b)
    case Up(p') => PlainQuoted(p')
  }

  /** No `INC` is met on the way. */
  predicate NoUp(p: Plan) {
    match p
    case Fork(_, a, b) => NoUp(a) && NoUp(b)
    case Up(_) => false
    case _ => true
  }

  /** The leaves of a queue of plans, in the order they are printed. */
  function Size(p: Plan): nat {
    match p
    case Fork(_, a, b) => 1 + Size(a) + Size(b)
    case Up(p') => 1 + Size(p')
    case _ => 1
  }

  function Sizes(q: seq<Task<Plan>>): nat {
    if q == [] then 0 else Size(q[0].item) + Sizes(q[1..])
  }

  lemma {:induction false} InsertSize(q: seq<Task<Plan>>, t: Task<Plan>)
    ensures Sizes(Insert(q, t)) == Sizes(q) + Size(t.item)
  {
    if q == [] || t.key < q[0].key {
      assert ([t] + q)[1..] == q;
    } else {
      InsertSize(q[1..], t);
      assert ([q[0]] + Insert(q[1..], t))[1..] == Insert(q[1..], t);
    }
  }

  function Printed(q: seq<Task<Plan>>): seq<Plan>
    decreases Sizes(q)
  {
    if q == [] then []
    else
      var key, rest := q[0].key, q[1..];
      match q[0].item
      case Leaf(_, _) => [q[0].item] + Printed(rest)
      case Dead => Printed(rest)
      case Up(p) =>
        assert ([Task(Less(key), p)] + rest)[1..] == rest;
        Printed([Task(Less(key), p)] + rest)
      case Fork(_, a, b) =>
        InsertSize(rest, Task(Bucket(key + 1), a));
        InsertSize(Insert(rest, Task(Bucket(key + 1), a)), Task(Bucket(key + 1), b));
        Printed(Push2(rest, key + 1, a, b))
  }

  // ---------------------------------------------------------------------------
  // Roots
  // ---------------------------------------------------------------------------

  /** A cell that may wait in the queue. */
  ghost predicate Waiting(g: Graph, l: Loc) {
    IsRoot(g, l) && l in g.h && !g.h[l].sub
  }

  ghost predicate Rooted(g: Graph, q: seq<Task<Loc>>) {
    (forall t :: t in q ==> Waiting(g, t.item)) && Distinct(q)
  }

  /** Every root but `loc` is still one, and means the same. */
  ghost predicate OthersKept(g: Graph, g2: Graph, loc: Loc) {
    && Wf(g) && Wf(g2)
    && forall l :: Waiting(g, l) && l != loc ==> Waiting(g2, l) && Same(ReadAt(g, l), ReadAt(g2, l))
  }

  lemma KeptOthers(g: Graph, g2: Graph, loc: Loc)
    requires Kept(g, g2, loc)
    ensures OthersKept(g, g2, loc)
  {
    forall l | Waiting(g, l) && l != loc
      ensures Waiting(g2, l) && Same(ReadAt(g, l), ReadAt(g2, l))
    {
      assert Outside(g, loc, l);
      assert KeptCell(g, g2, loc, l);
    }
  }

  lemma OthersThen(g1: Graph, g2: Graph, g3: Graph, loc: Loc)
    requires OthersKept(g1, g2, loc) && OthersKept(g2, g3, loc)
    ensures OthersKept(g1, g3, loc)
  {
    forall l | Waiting(g1, l) && l != loc
      ensures Waiting(g3, l) && Same(ReadAt(g1, l), ReadAt(g3, l))
    {
      SameTrans(ReadAt(g1, l), ReadAt(g2, l), ReadAt(g3, l));
    }
  }

  /** A root that is erased is forgotten, with the cells that were overwritten below it. */
  lemma Forget(m: Memory, g: Graph, x: set<Loc>, loc: Loc) returns (g2: Graph)
    requires ShownBut(m, g, x) && Doomed(g, x, loc) && loc in x && IsRoot(g, loc)
    ensures g2.h == m.h && Fresh(g2.live, m.next) && OthersKept(g, g2, loc)
  {
    g2 := Graph(m.h, map l | l in g.live.Keys - x :: g.live[l]);
    forall l | l in g2.live
      ensures TermOk(g2, l, g2.h[l].term)
    {
      assert TermOk(g, l, g.h[l].term);
    }
    forall l | Waiting(g, l) && l != loc
      ensures Waiting(g2, l) && Same(ReadAt(g, l), ReadAt(g2, l))
    {
      SubReadAt(g, g2, l);
    }
  }

  /** The fields of a root take its place. */
  ghost function Freed(live: map<Loc, Info>, loc: Loc, t: Term): map<Loc, Info> {
    map l | l in live.Keys - {loc} :: if InFoot(t, l) then Own(live[l].rank, l) else live[l]
  }

  lemma Unwrap(m: Memory, g: Graph, loc: Loc) returns (g2: Graph)
    requires Wf(g) && Fresh(g.live, m.next) && g.h == m.h && Waiting(g, loc) && g.h[loc].term.Node?
    ensures g2.h == m.h && Fresh(g2.live, m.next) && OthersKept(g, g2, loc)
    ensures forall l :: InFoot(g.h[loc].term, l) ==>
              l in g.live && !Waiting(g, l) && Waiting(g2, l) && ReadAt(g2, l) == ReadAt(g, l)
  {
    var t := g.h[loc].term;
    g2 := Graph(m.h, Freed(g.live, loc, t));
    assert TermOk(g, loc, t);
    forall l | l in g2.live
      ensures TermOk(g2, l, g2.h[l].term)
    {
      FreedOk(g, loc, l);
    }
    forall l | InFoot(t, l)
      ensures l in g.live && !Waiting(g, l) && Waiting(g2, l) && ReadAt(g2, l) == ReadAt(g, l)
    {
      assert RefOk(g, loc, t, l);
      SubReadAt(g, g2, l);
    }
    forall l | Waiting(g, l) && l != loc
      ensures Waiting(g2, l) && Same(ReadAt(g, l), ReadAt(g2, l))
    {
      SubReadAt(g, g2, l);
    }
  }

  lemma FreedOk(g: Graph, loc: Loc, l: Loc)
    requires Wf(g) && IsRoot(g, loc) && g.h[loc].term.Node? && l in g.live && l != loc
    ensures var g2 := Graph(g.h, Freed(g.live, loc, g.h[loc].term)); l in g2.live && TermOk(g2, l, g.h[l].term)
  {
    var t, u, g2 := g.h[loc].term, g.h[l].term, Graph(g.h, Freed(g.live, loc, g.h[loc].term));
    assert TermOk(g, loc, t) && TermOk(g, l, u);
    forall n | InFoot(u, n)
      ensures RefOk(g2, l, u, n)
    {
      assert RefOk(g, l, u, n);
      assert InFoot(t, n) ==> RefOk(g, loc, t, n);
    }
  }

  // ---------------------------------------------------------------------------
  // Queues and plans
  // ---------------------------------------------------------------------------

  ghost function Planned(q: seq<Task<Loc>>, plans: map<Loc, Plan>): seq<Task<Plan>>
    requires forall t :: t in q ==> t.item in plans
  {
    seq(|q|, i requires 0 <= i < |q| => assert q[i] in q; Task(q[i].key, plans[q[i].item]))
  }

  /** Reading off the plans commutes with putting a task in the queue. */
  lemma {:induction false} InsertPlanned(q: seq<Task<Loc>>, t: Task<Loc>, plans: map<Loc, Plan>)
    requires t.item in plans && forall u :: u in q ==> u.item in plans
    ensures forall u :: u in Insert(q, t) ==> u.item in plans
    ensures Planned(Insert(q, t), plans) == Insert(Planned(q, plans), Task(t.key, plans[t.item]))
  {
    InsertIn(q, t);
    var p := Planned(q, plans);
    if q == [] || t.key < q[0].key {
      assert Planned([t] + q, plans) == [Task(t.key, plans[t.item])] + p;
    } else {
      InsertPlanned(q[1..], t, plans);
      assert p[1..] == Planned(q[1..], plans);
      assert Planned([q[0]] + Insert(q[1..], t), plans) == [p[0]] + Planned(Insert(q[1..], t), plans);
    }
  }

  /** No cell is queued twice. */
  predicate Distinct(q: seq<Task<Loc>>) {
    q == [] || (Distinct(q[1..]) && forall t :: t in q[1..] ==> t.item != q[0].item)
  }

  lemma {:induction false} InsertDistinct(q: seq<Task<Loc>>, t: Task<Loc>)
    requires Distinct(q) && forall u :: u in q ==> u.item != t.item
    ensures Distinct(Insert(q, t))
  {
    if q == [] || t.key < q[0].key {
      assert ([t] + q)[1..] == q;
    } else {
      assert q == [q[0]] + q[1..];
      InsertDistinct(q[1..], t);
      InsertIn(q[1..], t);
      assert ([q[0]] + Insert(q[1..], t))[1..] == Insert(q[1..], t);
    }
  }

  lemma InsertRooted(g: Graph, q: seq<Task<Loc>>, t: Task<Loc>)
    requires Rooted(g, q) && Waiting(g, t.item) && forall u :: u in q ==> u.item != t.item
    ensures Rooted(g, Insert(q, t))
  {
    InsertIn(q, t);
    InsertDistinct(q, t);
  }

  /** The rest of the queue, while its head is at work. */
  lemma RestRooted(g: Graph, g2: Graph, q: seq<Task<Loc>>)
    requires q != [] && Rooted(g, q) && OthersKept(g, g2, q[0].item)
    ensures Rooted(g2, q[1..])
    ensures forall t :: t in q[1..] ==>
              Waiting(g, t.item) && t.item != q[0].item && Same(ReadAt(g, t.item), ReadAt(g2, t.item))
  {
    assert q == [q[0]] + q[1..];
  }

  // ---------------------------------------------------------------------------
  // One turn
  // ---------------------------------------------------------------------------

  lemma SameAgrees(t: Tree, u: Tree, p: Plan)
    requires Same(t, u) && Agrees(u, p)
    ensures Agrees(t, p)
  {
    forall r: Env
      ensures AgreesAt(t, p, r)
    {
      assert AgreesAt(u, p, r) && D(t, r) == D(u, r);
    }
  }

  lemma ForkAt(l: Label, a: Tree, b: Tree, p: Plan, q: Plan, r: Env)
    requires if Next(r, l) == 0 then AgreesAt(a, p, Pop(r, l)) else AgreesAt(b, q, Pop(r, l))
    ensures AgreesAt(TSup(l, a, b), Fork(l, p, q), r)
  {
  }

  lemma ForkAgrees(t: Tree, l: Label, a: Tree, b: Tree, p: Plan, q: Plan)
    requires Same(t, TSup(l, a, b)) && Agrees(a, p) && Agrees(b, q)
    ensures Agrees(t, Fork(l, p, q))
  {
    forall r: Env
      ensures AgreesAt(TSup(l, a, b), Fork(l, p, q), r)
    {
      assert AgreesAt(a, p, Pop(r, l)) && AgreesAt(b, q, Pop(r, l));
      ForkAt(l, a, b, p, q, r);
    }
    SameAgrees(t, TSup(l, a, b), Fork(l, p, q));
  }

  lemma UpAgrees(t: Tree, u: Tree, p: Plan)
    requires Same(t, TInc(u)) && Agrees(u, p)
    ensures Agrees(t, Up(p))
  {
    forall r: Env
      ensures AgreesAt(t, Up(p), r)
    {
      assert D(t, r) == D(TInc(u), r) && AgreesAt(u, p, r);
    }
  }

  /** A line of the output is the value of a leaf. */
  ghost predicate Shows1(line: Line, p: Plan, live: map<Loc, Info>) {
    && Wf(Graph(line.m.h, live)) && line.loc in live
    && p == Leaf(ReadAt(Graph(line.m.h, live), line.loc), line.plain)
  }

  ghost predicate ShowsAll(lines: seq<Line>, ps: seq<Plan>, lives: seq<map<Loc, Info>>) {
    |lines| == |ps| == |lives| && forall i :: 0 <= i < |lines| ==> Shows1(lines[i], ps[i], lives[i])
  }

  /** The plan `p` tells what `t` means; there is no `INC` in it unless one is in `t` or can come up. */
  ghost predicate Explained(t: Tree, p: Plan) {
    Agrees(t, p) && PlainQuoted(p) && (Has(t, Silent) ==> NoUp(p))
  }

  lemma SameExplained(t: Tree, u: Tree, p: Plan)
    requires Same(t, u) && Explained(u, p)
    ensures Explained(t, p)
  {
    SameAgrees(t, u, p);
    if Has(t, Silent) {
      KeepAt(t, u, Silent);
    }
  }

  ghost predicate Explains(g: Graph, q: seq<Task<Loc>>, plans: map<Loc, Plan>)
    requires Wf(g)
  {
    forall t :: t in q ==> t.item in g.live && t.item in plans && Explained(ReadAt(g, t.item), plans[t.item])
  }

  /** Plans for the rest of the queue serve the whole queue, once there is one for its head. */
  lemma ExplainsHead(g: Graph, g2: Graph, q: seq<Task<Loc>>, plans: map<Loc, Plan>, p: Plan)
    requires q != [] && Wf(g) && Wf(g2) && Rooted(g, q)
    requires forall t :: t in q[1..] ==>
               && t.item in g.live && t.item in g2.live && t.item != q[0].item
               && Same(ReadAt(g, t.item), ReadAt(g2, t.item))
    requires Explains(g2, q[1..], plans) && q[0].item in g.live && Explained(ReadAt(g, q[0].item), p)
    ensures Explains(g, q, plans[q[0].item := p])
    ensures Planned(q, plans[q[0].item := p]) == [Task(q[0].key, p)] + Planned(q[1..], plans)
  {
    assert q == [q[0]] + q[1..];
    forall t | t in q
      ensures t.item in g.live && t.item in plans[q[0].item := p]
      ensures Explained(ReadAt(g, t.item), plans[q[0].item := p][t.item])
    {
      if t in q[1..] {
        SameExplained(ReadAt(g, t.item), ReadAt(g2, t.item), plans[t.item]);
      }
    }
    var ps := plans[q[0].item := p];
    forall i | 0 <= i < |q[1..]|
      ensures Planned(q, ps)[i + 1] == Planned(q[1..], plans)[i]
    {
      assert q[1..][i] in q[1..];
    }
  }

  /** The head of the queue, collapsed: it and the other roots are still there. */
  lemma HeadKept(g: Graph, g2: Graph, loc: Loc)
    requires Kept(g, g2, loc) && Waiting(g, loc)
    ensures Waiting(g2, loc) && Same(ReadAt(g, loc), ReadAt(g2, loc)) && OthersKept(g, g2, loc)
  {
    assert Outside(g, loc, loc);
    assert KeptCell(g, g2, loc, loc);
    KeptOthers(g, g2, loc);
  }

  lemma DeadAgrees(g: Graph, g2: Graph, loc: Loc)
    requires Wf(g) && Wf(g2) && loc in g.live && loc in g2.live && Same(ReadAt(g, loc), ReadAt(g2, loc))
    requires Erased(g2, loc)
    ensures Agrees(ReadAt(g, loc), Dead)
  {
    forall r: Env
      ensures AgreesAt(ReadAt(g, loc), Dead, r)
    {
      assert D(ReadAt(g, loc), r) == D(ReadAt(g2, loc), r);
    }
  }

  lemma LeafAgrees(g: Graph, g2: Graph, loc: Loc, plain: bool)
    requires Wf(g) && Wf(g2) && loc in g.live && loc in g2.live && Same(ReadAt(g, loc), ReadAt(g2, loc))
    requires plain ==> Settled(g2, loc)
    ensures Agrees(ReadAt(g, loc), Leaf(ReadAt(g2, loc), plain)) && PlainQuoted(Leaf(ReadAt(g2, loc), plain))
  {
  }

  /** New tasks for the fields of a root that was taken apart. */
  lemma FieldTask(g: Graph, g2: Graph, g3: Graph, q: seq<Task<Loc>>, f: Loc)
    requires q != [] && Rooted(g, q) && OthersKept(g, g2, q[0].item) && f in g2.live && !Waiting(g2, f)
    ensures forall t :: t in q[1..] ==> t.item != f
  {
    forall t | t in q[1..]
      ensures t.item != f
    {
      RestRooted(g, g2, q);
    }
  }

  lemma IncTurn(m: Memory, g: Graph, g2: Graph, q: seq<Task<Loc>>, inc: Loc) returns (g3: Graph)
    requires q != [] && Rooted(g, q) && OthersKept(g, g2, q[0].item) && Waiting(g2, q[0].item)
    requires Fresh(g2.live, m.next) && g2.h == m.h && g2.h[q[0].item].term == Inc(inc)
    ensures g3.h == m.h && Fresh(g3.live, m.next) && OthersKept(g, g3, q[0].item)
    ensures Rooted(g3, [Task(Less(q[0].key), inc)] + q[1..])
    ensures ReadAt(g2, q[0].item) == TInc(ReadAt(g3, inc))
  {
    var loc := q[0].item;
    g3 := Unwrap(m, g2, loc);
    OthersThen(g, g2, g3, loc);
    RestRooted(g, g3, q);
    assert InFoot(g2.h[loc].term, inc);
    FieldTask(g, g2, g3, q, inc);
    ReadInc(g2, loc, inc);
    assert ([Task(Less(q[0].key), inc)] + q[1..])[1..] == q[1..];
  }

  lemma SupTurn(m: Memory, g: Graph, g2: Graph, q: seq<Task<Loc>>, lab: Label, sup: Loc) returns (g3: Graph)
    requires q != [] && Rooted(g, q) && OthersKept(g, g2, q[0].item) && Waiting(g2, q[0].item)
    requires Fresh(g2.live, m.next) && g2.h == m.h && g2.h[q[0].item].term == Sup(lab, sup)
    ensures g3.h == m.h && Fresh(g3.live, m.next) && OthersKept(g, g3, q[0].item)
    ensures Rooted(g3, Push2(q[1..], q[0].key + 1, sup, sup + 1))
    ensures sup in g3.live && sup + 1 in g3.live
    ensures ReadAt(g2, q[0].item) == TSup(lab, ReadAt(g3, sup), ReadAt(g3, sup + 1))
  {
    var loc, b := q[0].item, Bucket(q[0].key + 1);
    g3 := Unwrap(m, g2, loc);
    OthersThen(g, g2, g3, loc);
    RestRooted(g, g3, q);
    assert InFoot(g2.h[loc].term, sup) && InFoot(g2.h[loc].term, sup + 1);
    FieldTask(g, g2, g3, q, sup);
    FieldTask(g, g2, g3, q, sup + 1);
    ReadSup(g2, loc, lab, sup);
    InsertRooted(g3, q[1..], Task(b, sup));
    InsertIn(q[1..], Task(b, sup));
    InsertRooted(g3, Insert(q[1..], Task(b, sup)), Task(b, sup + 1));
  }

  lemma Push2In(q: seq<Task<Loc>>, key: nat, a: Loc, b: Loc)
    ensures forall u :: u in Push2(q, key, a, b) <==> u == Task(Bucket(key), a) || u == Task(Bucket(key), b) || u in q
  {
    InsertIn(q, Task(Bucket(key), a));
    InsertIn(Insert(q, Task(Bucket(key), a)), Task(Bucket(key), b));
  }

  lemma Push2Planned(q: seq<Task<Loc>>, key: nat, a: Loc, b: Loc, plans: map<Loc, Plan>)
    requires forall u :: u in Push2(q, key, a, b) ==> u.item in plans
    ensures a in plans && b in plans && (forall u :: u in q ==> u.item in plans)
    ensures Planned(Push2(q, key, a, b), plans) == Push2(Planned(q, plans), key, plans[a], plans[b])
  {
    Push2In(q, key, a, b);
    assert Task(Bucket(key), a) in Push2(q, key, a, b) && Task(Bucket(key), b) in Push2(q, key, a, b);
    InsertPlanned(q, Task(Bucket(key), a), plans);
    InsertPlanned(Insert(q, Task(Bucket(key), a)), Task(Bucket(key), b), plans);
  }

  /** A memory and the roots that wait in the queue. */
  ghost predicate QueueReady(m: Memory, live: map<Loc, Info>, q: seq<Task<Loc>>) {
    Wf(Graph(m.h, live)) && Fresh(live, m.next) && Rooted(Graph(m.h, live), q)
  }

  /** What a finished run tells: plans for all tasks, whose leaves were printed in order. */
  ghost predicate Told(m: Memory, live: map<Loc, Info>, q: seq<Task<Loc>>, lines: seq<Line>, plans: map<Loc, Plan>,
                       lives: seq<map<Loc, Info>>)
    requires Wf(Graph(m.h, live))
  {
    Explains(Graph(m.h, live), q, plans) && ShowsAll(lines, Printed(Planned(q, plans)), lives)
  }

  /**
   Collapse is sound and complete: for every task there is a tree of choices in which every environment
   leads to one leaf or dead end, which tells what the task means there; and the lines printed are the
   leaves of these trees.
   */
  lemma {:induction false} CollapseTells(m: Memory, live: map<Loc, Info>, q: seq<Task<Loc>>, fuel: nat)
    returns (plans: map<Loc, Plan>, lives: seq<map<Loc, Info>>)
    requires QueueReady(m, live, q) && Enumerate(m, q, fuel).done
    ensures Told(m, live, q, Enumerate(m, q, fuel).lines, plans, lives)
    decreases fuel, 1
  {
    var g := Graph(m.h, live);
    plans, lives := map[], [];
    if q != [] {
      var key, loc, rest := q[0].key, q[0].item, q[1..];
      assert q[0] in q;
      var g2, x := CnfAtKeeps(m, live, loc, fuel);
      HeadKept(g, g2, loc);
      match CnfAt(m, loc, fuel)
      case Late => assert false;
      case Gone(m') =>
        var g3 := Forget(m', g2, x, loc);
        OthersThen(g, g2, g3, loc);
        RestRooted(g, g3, q);
        var plans', lives' := CollapseTells(m', g3.live, rest, fuel - 1);
        DeadAgrees(g, g2, loc);
        ExplainsHead(g, g3, q, plans', Dead);
        plans, lives := plans'[loc := Dead], lives';
      case Value(m', plain) =>
        var t := m'.h[loc].term;
        if IsInc(t) {
          plans, lives := IncTells(m, live, q, fuel, m', plain, g2);
        } else if IsSup(t) {
          plans, lives := SupTells(m, live, q, fuel, m', plain, g2);
        } else {
          plans, lives := PrintTells(m, live, q, fuel, m', plain, g2);
        }
    }
  }

  /**
   The head of the queue has been collapsed, in a run that comes to its end: the memory after it is `m'`, shown by
   `g2`.
   */
  ghost predicate Turned(m: Memory, live: map<Loc, Info>, q: seq<Task<Loc>>, fuel: nat, m': Memory, plain: bool,
                         g2: Graph) {
    && QueueReady(m, live, q) && q != [] && fuel > 0 && Enumerate(m, q, fuel).done
    && CnfAt(m, q[0].item, fuel) == Value(m', plain)
    && g2.h == m'.h && Fresh(g2.live, m'.next) && Waiting(g2, q[0].item) && OthersKept(Graph(m.h, live), g2, q[0].item)
    && q[0].item in live && Same(ReadAt(Graph(m.h, live), q[0].item), ReadAt(g2, q[0].item))
  }

  /** A superposition, and an `INC`, print nothing themselves. */
  lemma BranchRun(m: Memory, q: seq<Task<Loc>>, fuel: nat, m': Memory, plain: bool)
    requires q != [] && fuel > 0 && CnfAt(m, q[0].item, fuel) == Value(m', plain)
    requires IsSup(At(m'.h, q[0].item)) || IsInc(At(m'.h, q[0].item))
    ensures Enumerate(m, q, fuel) == Enumerate(m', NextTasks(m', q), fuel - 1)
  {
  }

  lemma {:induction false} IncTells(m: Memory, live: map<Loc, Info>, q: seq<Task<Loc>>, fuel: nat, m': Memory,
                                    plain: bool, g2: Graph)
    returns (plans: map<Loc, Plan>, lives: seq<map<Loc, Info>>)
    requires Turned(m, live, q, fuel, m', plain, g2) && IsInc(m'.h[q[0].item].term)
    ensures Told(m, live, q, Enumerate(m, q, fuel).lines, plans, lives)
    decreases fuel, 0
  {
    var g, t := Graph(m.h, live), m'.h[q[0].item].term;
    var g3 := IncTurn(m', g, g2, q, t.loc);
    var live3 := g3.live;
    BranchRun(m, q, fuel, m', plain);
    var plans', lives' := CollapseTells(m', live3, [Task(Less(q[0].key), t.loc)] + q[1..], fuel - 1);
    plans := UpTells(g, g2, g3, q, t.loc, plans');
    lives := lives';
  }

  /** The head of the queue, a superposition, was taken apart: `g3` has its sides as roots. */
  ghost predicate Forked(g: Graph, g2: Graph, g3: Graph, q: seq<Task<Loc>>, lab: Label, sup: Loc) {
    && q != [] && Rooted(g, q) && OthersKept(g, g3, q[0].item) && Wf(g2) && q[0].item in g.live && q[0].item in g2.live
    && sup in g3.live && sup + 1 in g3.live && Same(ReadAt(g, q[0].item), ReadAt(g2, q[0].item))
    && ReadAt(g2, q[0].item) == TSup(lab, ReadAt(g3, sup), ReadAt(g3, sup + 1))
  }

  lemma SupNext(m: Memory, live: map<Loc, Info>, q: seq<Task<Loc>>, fuel: nat, m': Memory, plain: bool, g2: Graph)
    returns (g3: Graph)
    requires Turned(m, live, q, fuel, m', plain, g2) && IsSup(m'.h[q[0].item].term)
    ensures var t := m'.h[q[0].item].term;
            && Forked(Graph(m.h, live), g2, g3, q, t.head.lab, t.loc)
            && NextTasks(m', q) == Push2(q[1..], q[0].key + 1, t.loc, t.loc + 1)
            && g3 == Graph(m'.h, g3.live) && QueueReady(m', g3.live, NextTasks(m', q))
  {
    var t := m'.h[q[0].item].term;
    g3 := SupTurn(m', Graph(m.h, live), g2, q, t.head.lab, t.loc);
  }

  /** The plans and lines from there serve the queue before the superposition was taken apart. */
  lemma {:induction false} SupThen(g: Graph, g2: Graph, g3: Graph, m': Memory, q: seq<Task<Loc>>, lab: Label, sup: Loc,
                                   q': seq<Task<Loc>>, fuel: nat, lines: seq<Line>)
    returns (plans: map<Loc, Plan>, lives: seq<map<Loc, Info>>)
    requires Forked(g, g2, g3, q, lab, sup) && q' == Push2(q[1..], q[0].key + 1, sup, sup + 1)
    requires g3 == Graph(m'.h, g3.live) && QueueReady(m', g3.live, q')
    requires Enumerate(m', q', fuel).done && lines == Enumerate(m', q', fuel).lines
    ensures Explains(g, q, plans) && ShowsAll(lines, Printed(Planned(q, plans)), lives)
    decreases fuel, 2
  {
    plans, lives := CollapseTells(m', g3.live, q', fuel);
    plans := ForkTells(g, g2, g3, q, lab, sup, plans);
  }

  lemma {:induction false} SupTells(m: Memory, live: map<Loc, Info>, q: seq<Task<Loc>>, fuel: nat, m': Memory,
                                    plain: bool, g2: Graph)
    returns (plans: map<Loc, Plan>, lives: seq<map<Loc, Info>>)
    requires Turned(m, live, q, fuel, m', plain, g2) && IsSup(m'.h[q[0].item].term)
    ensures Told(m, live, q, Enumerate(m, q, fuel).lines, plans, lives)
    decreases fuel, 0
  {
    var t := m'.h[q[0].item].term;
    var g3 := SupNext(m, live, q, fuel, m', plain, g2);
    BranchRun(m, q, fuel, m', plain);
    var lines, q' := Enumerate(m, q, fuel).lines, NextTasks(m', q);
    plans, lives := SupThen(Graph(m.h, live), g2, g3, m', q, t.head.lab, t.loc, q', fuel - 1, lines);
  }

  lemma {:induction false} PrintTells(m: Memory, live: map<Loc, Info>, q: seq<Task<Loc>>, fuel: nat, m': Memory,
                                      plain: bool, g2: Graph)
    returns (plans: map<Loc, Plan>, lives: seq<map<Loc, Info>>)
    requires Turned(m, live, q, fuel, m', plain, g2) && (plain ==> Settled(g2, q[0].item))
    requires !IsSup(m'.h[q[0].item].term) && !IsInc(m'.h[q[0].item].term)
    ensures Told(m, live, q, Enumerate(m, q, fuel).lines, plans, lives)
    decreases fuel, 0
  {
    var g, live2 := Graph(m.h, live), g2.live;
    RestRooted(g, g2, q);
    var plans', lives' := CollapseTells(m', live2, q[1..], fuel - 1);
    plans := LeafTells(g, g2, q, plain, plans');
    lives := [live2] + lives';
    var lines' := Enumerate(m', q[1..], fuel - 1).lines;
    LineShown(m', g2, q[0].item, plain, lines', Printed(Planned(q[1..], plans')), lives');
  }

  lemma LineShown(m: Memory, g: Graph, loc: Loc, plain: bool, lines: seq<Line>, ps: seq<Plan>,
                  lives: seq<map<Loc, Info>>)
    requires Wf(g) && g.h == m.h && loc in g.live && ShowsAll(lines, ps, lives)
    ensures ShowsAll([Line(m, loc, plain)] + lines, [Leaf(ReadAt(g, loc), plain)] + ps, [g.live] + lives)
  {
    assert g == Graph(m.h, g.live);
  }

  lemma LeafTells(g: Graph, g2: Graph, q: seq<Task<Loc>>, plain: bool, plans': map<Loc, Plan>)
    returns (plans: map<Loc, Plan>)
    requires q != [] && Rooted(g, q) && OthersKept(g, g2, q[0].item) && q[0].item in g.live && q[0].item in g2.live
    requires Same(ReadAt(g, q[0].item), ReadAt(g2, q[0].item)) && (plain ==> Settled(g2, q[0].item))
    requires Explains(g2, q[1..], plans')
    ensures Explains(g, q, plans)
    ensures Printed(Planned(q, plans)) == [Leaf(ReadAt(g2, q[0].item), plain)] + Printed(Planned(q[1..], plans'))
  {
    var loc := q[0].item;
    RestRooted(g, g2, q);
    LeafAgrees(g, g2, loc, plain);
    var p := Leaf(ReadAt(g2, loc), plain);
    ExplainsHead(g, g2, q, plans', p);
    plans := plans'[loc := p];
    assert ([Task(q[0].key, p)] + Planned(q[1..], plans'))[1..] == Planned(q[1..], plans');
  }

  lemma UpTells(g: Graph, g2: Graph, g3: Graph, q: seq<Task<Loc>>, inc: Loc, plans': map<Loc, Plan>)
    returns (plans: map<Loc, Plan>)
    requires q != [] && Rooted(g, q) && OthersKept(g, g3, q[0].item) && Wf(g2) && q[0].item in g.live
    requires q[0].item in g2.live
    requires inc in g3.live && Same(ReadAt(g, q[0].item), ReadAt(g2, q[0].item))
    requires ReadAt(g2, q[0].item) == TInc(ReadAt(g3, inc))
    requires Explains(g3, [Task(Less(q[0].key), inc)] + q[1..], plans')
    ensures Explains(g, q, plans)
    ensures forall u :: u in [Task(Less(q[0].key), inc)] + q[1..] ==> u.item in plans'
    ensures Printed(Planned(q, plans)) == Printed(Planned([Task(Less(q[0].key), inc)] + q[1..], plans'))
  {
    var key, loc, rest := q[0].key, q[0].item, q[1..];
    var q' := [Task(Less(key), inc)] + rest;
    assert q'[0] in q' && q'[1..] == rest;
    var p := Up(plans'[inc]);
    UpAgrees(ReadAt(g, loc), ReadAt(g3, inc), plans'[inc]);
    if Has(ReadAt(g, loc), Silent) {
      KeepAt(ReadAt(g, loc), ReadAt(g2, loc), Silent);
      assert false;
    }
    RestRooted(g, g3, q);
    ExplainsHead(g, g3, q, plans', p);
    plans := plans'[loc := p];
    assert ([Task(key, p)] + Planned(rest, plans'))[1..] == Planned(rest, plans');
    assert Planned(q', plans') == [Task(Less(key), plans'[inc])] + Planned(rest, plans');
  }

  lemma ForkExplained(g: Graph, g2: Graph, g3: Graph, q: seq<Task<Loc>>, lab: Label, sup: Loc, a: Plan, b: Plan)
    requires Forked(g, g2, g3, q, lab, sup) && Explained(ReadAt(g3, sup), a) && Explained(ReadAt(g3, sup + 1), b)
    ensures Explained(ReadAt(g, q[0].item), Fork(lab, a, b))
  {
    ForkAgrees(ReadAt(g, q[0].item), lab, ReadAt(g3, sup), ReadAt(g3, sup + 1), a, b);
    if Has(ReadAt(g, q[0].item), Silent) {
      KeepAt(ReadAt(g, q[0].item), ReadAt(g2, q[0].item), Silent);
    }
  }

  /** What the sides print, the superposition prints. */
  lemma ForkPrinted(key: nat, rest: seq<Task<Loc>>, lab: Label, sup: Loc, plans: map<Loc, Plan>)
    requires forall u :: u in Push2(rest, key + 1, sup, sup + 1) ==> u.item in plans
    ensures sup in plans && sup + 1 in plans && forall u :: u in rest ==> u.item in plans
    ensures Printed([Task(key, Fork(lab, plans[sup], plans[sup + 1]))] + Planned(rest, plans))
         == Printed(Planned(Push2(rest, key + 1, sup, sup + 1), plans))
  {
    Push2Planned(rest, key + 1, sup, sup + 1, plans);
    PrintedFork(key, lab, plans[sup], plans[sup + 1], Planned(rest, plans));
  }

  lemma ForkTells(g: Graph, g2: Graph, g3: Graph, q: seq<Task<Loc>>, lab: Label, sup: Loc, plans': map<Loc, Plan>)
    returns (plans: map<Loc, Plan>)
    requires Forked(g, g2, g3, q, lab, sup) && Explains(g3, Push2(q[1..], q[0].key + 1, sup, sup + 1), plans')
    ensures Explains(g, q, plans)
    ensures forall u :: u in Push2(q[1..], q[0].key + 1, sup, sup + 1) ==> u.item in plans'
    ensures Printed(Planned(q, plans)) == Printed(Planned(Push2(q[1..], q[0].key + 1, sup, sup + 1), plans'))
  {
    var key, rest := q[0].key, q[1..];
    var q' := Push2(rest, key + 1, sup, sup + 1);
    Push2In(rest, key + 1, sup, sup + 1);
    assert Task(Bucket(key + 1), sup) in q' && Task(Bucket(key + 1), sup + 1) in q';
    ForkPrinted(key, rest, lab, sup, plans');
    var p := Fork(lab, plans'[sup], plans'[sup + 1]);
    ForkExplained(g, g2, g3, q, lab, sup, plans'[sup], plans'[sup + 1]);
    RestRooted(g, g3, q);
    ExplainsHead(g, g3, q, plans', p);
    plans := plans'[q[0].item := p];
  }

  // ---------------------------------------------------------------------------
  // Nothing is lost, nothing is made up
  // ---------------------------------------------------------------------------

  function Leaves(p: Plan): multiset<Plan> {
    match p
    case Leaf(_, _) => multiset{p}
    case Dead => multiset{}
    case Fork(_, a, b) => Leaves(a) + Leaves(b)
    case Up(p') => Leaves(p')
  }

  function AllLeaves(q: seq<Task<Plan>>): multiset<Plan> {
    if q == [] then multiset{} else Leaves(q[0].item) + AllLeaves(q[1..])
  }

  lemma {:induction false} InsertLeaves(q: seq<Task<Plan>>, t: Task<Plan>)
    ensures AllLeaves(Insert(q, t)) == AllLeaves(q) + Leaves(t.item)
  {
    if q == [] || t.key < q[0].key {
      assert ([t] + q)[1..] == q;
    } else {
      InsertLeaves(q[1..], t);
      assert ([q[0]] + Insert(q[1..], t))[1..] == Insert(q[1..], t);
    }
  }

  lemma Push2Leaves(q: seq<Task<Plan>>, key: nat, a: Plan, b: Plan)
    ensures AllLeaves(Push2(q, key, a, b)) == AllLeaves(q) + Leaves(a) + Leaves(b)
    ensures Sizes(Push2(q, key, a, b)) == Sizes(q) + Size(a) + Size(b)
  {
    var q1 := Insert(q, Task(Bucket(key), a));
    InsertSize(q, Task(Bucket(key), a));
    InsertSize(q1, Task(Bucket(key), b));
    InsertLeaves(q, Task(Bucket(key), a));
    InsertLeaves(q1, Task(Bucket(key), b));
  }

  lemma PrintedLeaf(key: nat, p: Plan, rest: seq<Task<Plan>>)
    requires p.Leaf?
    ensures Printed([Task(key, p)] + rest) == [p] + Printed(rest)
  {
    assert ([Task(key, p)] + rest)[1..] == rest;
  }

  lemma PrintedUp(key: nat, p: Plan, rest: seq<Task<Plan>>)
    ensures Printed([Task(key, Up(p))] + rest) == Printed([Task(Less(key), p)] + rest)
    ensures Sizes([Task(Less(key), p)] + rest) == Size(p) + Sizes(rest)
  {
    assert ([Task(key, Up(p))] + rest)[1..] == rest;
    assert ([Task(Less(key), p)] + rest)[1..] == rest;
  }

  lemma PrintedFork(key: nat, lab: Label, a: Plan, b: Plan, rest: seq<Task<Plan>>)
    ensures Printed([Task(key, Fork(lab, a, b))] + rest) == Printed(Push2(rest, key + 1, a, b))
  {
    assert ([Task(key, Fork(lab, a, b))] + rest)[1..] == rest;
  }

  lemma PrintedDead(key: nat, rest: seq<Task<Plan>>)
    ensures Printed([Task(key, Dead)] + rest) == Printed(rest)
  {
    assert ([Task(key, Dead)] + rest)[1..] == rest;
  }

  lemma LeavesCons(t: Task<Plan>, rest: seq<Task<Plan>>)
    ensures AllLeaves([t] + rest) == Leaves(t.item) + AllLeaves(rest)
  {
    assert ([t] + rest)[1..] == rest;
  }

  lemma OnceLeaf(key: nat, p: Plan, rest: seq<Task<Plan>>)
    requires p.Leaf? && multiset(Printed(rest)) == AllLeaves(rest)
    ensures multiset(Printed([Task(key, p)] + rest)) == AllLeaves([Task(key, p)] + rest)
  {
    PrintedLeaf(key, p, rest);
    LeavesCons(Task(key, p), rest);
    assert multiset([p] + Printed(rest)) == multiset{p} + multiset(Printed(rest));
  }

  lemma OnceUp(key: nat, p: Plan, rest: seq<Task<Plan>>)
    requires multiset(Printed([Task(Less(key), p)] + rest)) == AllLeaves([Task(Less(key), p)] + rest)
    ensures multiset(Printed([Task(key, Up(p))] + rest)) == AllLeaves([Task(key, Up(p))] + rest)
  {
    PrintedUp(key, p, rest);
    LeavesCons(Task(key, Up(p)), rest);
    LeavesCons(Task(Less(key), p), rest);
  }

  lemma OnceFork(key: nat, lab: Label, a: Plan, b: Plan, rest: seq<Task<Plan>>)
    requires multiset(Printed(Push2(rest, key + 1, a, b))) == AllLeaves(Push2(rest, key + 1, a, b))
    ensures multiset(Printed([Task(key, Fork(lab, a, b))] + rest)) == AllLeaves([Task(key, Fork(lab, a, b))] + rest)
  {
    PrintedFork(key, lab, a, b, rest);
    Push2Leaves(rest, key + 1, a, b);
    LeavesCons(Task(key, Fork(lab, a, b)), rest);
  }

  /** Every leaf is printed, as often as it occurs. */
  lemma {:induction false} PrintedOnce(q: seq<Task<Plan>>)
    ensures multiset(Printed(q)) == AllLeaves(q)
    decreases Sizes(q)
  {
    if q != [] {
      var key, p, rest := q[0].key, q[0].item, q[1..];
      assert q == [Task(key, p)] + rest;
      match p
      case Leaf(_, _) =>
        PrintedOnce(rest);
        OnceLeaf(key, p, rest);
      case Dead =>
        PrintedOnce(rest);
        PrintedDead(key, rest);
        LeavesCons(Task(key, p), rest);
      case Up(p') =>
        PrintedUp(key, p', rest);
        PrintedOnce([Task(Less(key), p')] + rest);
        OnceUp(key, p', rest);
      case Fork(lab, a, b) =>
        Push2Leaves(rest, key + 1, a, b);
        PrintedOnce(Push2(rest, key + 1, a, b));
        OnceFork(key, lab, a, b, rest);
    }
  }

  /** A leaf that an environment leads to is one of the leaves. */
  lemma {:induction false} ReachLeaf(p: Plan, r: Env)
    ensures Reach(p, r).Leaf? ==> Reach(p, r) in Leaves(p)
    ensures Reach(p, r).Leaf? || Reach(p, r).Dead?
  {
    match p
    case Fork(l, a, b) => ReachLeaf(if Next(r, l) == 0 then a else b, Pop(r, l));
    case Up(p') => ReachLeaf(p', r);
    case _ =>
  }

  /** Every leaf is reached: its own choices lead to it. */
  lemma {:induction false} LeafReached(p: Plan, leaf: Plan) returns (r: Env)
    requires leaf in Leaves(p)
    ensures Reach(p, r) == leaf
  {
    match p
    case Leaf(_, _) => r :| true;
    case Up(p') => r := LeafReached(p', leaf);
    case Fork(l, a, b) =>
      if leaf in Leaves(a) {
        var r' := LeafReached(a, leaf);
        PopPush(r', l, 0);
        r := Calculus.Push(r', l, 0);
      } else {
        var r' := LeafReached(b, leaf);
        PopPush(r', l, 1);
        r := Calculus.Push(r', l, 1);
      }
  }

  lemma {:induction false} LeafQuoted(p: Plan, leaf: Plan)
    requires PlainQuoted(p) && leaf in Leaves(p) && leaf.Leaf? && leaf.plain
    ensures Quoted(leaf.t)
  {
    match p
    case Fork(_, a, b) => if leaf in Leaves(a) { LeafQuoted(a, leaf); } else { LeafQuoted(b, leaf); }
    case Up(p') => LeafQuoted(p', leaf);
    case _ =>
  }

  /** With the table `live`, the cell of the line holds the term `u` in full when the line is written. */
  ghost predicate Reads(line: Line, live: map<Loc, Info>, u: Tree) {
    Wf(Graph(line.m.h, live)) && line.loc in live && ReadAt(Graph(line.m.h, live), line.loc) == u
  }

  /** The term `u` is what is printed on the line. */
  ghost predicate Prints(line: Line, u: Tree) {
    exists live: map<Loc, Info> :: Reads(line, live, u)
  }

  /** The line printed for the leaf that `r` leads to. */
  lemma LineIs(lines: seq<Line>, ps: seq<Plan>, lives: seq<map<Loc, Info>>, p: Plan, t: Tree, r: Env, i: nat)
    requires ShowsAll(lines, ps, lives) && i < |lines| && ps[i] == Reach(p, r) && AgreesAt(t, p, r)
    requires PlainQuoted(p) && lines[i].plain
    ensures Clean(D(t, r)) && Prints(lines[i], Quote(D(t, r)))
  {
    assert Shows1(lines[i], ps[i], lives[i]);
    ReachLeaf(p, r);
    LeafQuoted(p, ps[i]);
    assert Reads(lines[i], lives[i], Quote(D(t, r)));
  }

  ghost predicate IsShown(lines: seq<Line>, v: Val) {
    exists i: nat :: i < |lines| && Prints(lines[i], Quote(v))
  }

  /** Every clean value is written out on a line. */
  ghost predicate AllShown(lines: seq<Line>, t: Tree) {
    forall r: Env :: Clean(D(t, r)) ==> IsShown(lines, D(t, r))
  }

  ghost predicate IsMeant(line: Line, t: Tree) {
    exists r: Env :: Clean(D(t, r)) && Prints(line, Quote(D(t, r)))
  }

  /** Every line is a clean value that `t` has for some choices, written out. */
  ghost predicate AllMeant(lines: seq<Line>, t: Tree) {
    forall i :: 0 <= i < |lines| ==> IsMeant(lines[i], t)
  }

  /** What is printed are the clean values that `t` can have, written out: all of them and nothing else. */
  ghost predicate Exact(lines: seq<Line>, t: Tree) {
    AllShown(lines, t) && AllMeant(lines, t)
  }

  lemma ExactFor(lines: seq<Line>, ps: seq<Plan>, lives: seq<map<Loc, Info>>, p: Plan, t: Tree)
    requires ShowsAll(lines, ps, lives) && multiset(ps) == Leaves(p) && Agrees(t, p) && PlainQuoted(p)
    requires forall i :: 0 <= i < |lines| ==> lines[i].plain
    ensures Exact(lines, t)
  {
    forall r: Env | Clean(D(t, r))
      ensures IsShown(lines, D(t, r))
    {
      ReachLeaf(p, r);
      assert AgreesAt(t, p, r);
      assert Reach(p, r) in multiset(ps);
      var i :| 0 <= i < |ps| && ps[i] == Reach(p, r);
      LineIs(lines, ps, lives, p, t, r, i);
    }
    forall i | 0 <= i < |lines|
      ensures IsMeant(lines[i], t)
    {
      assert ps[i] in multiset(ps);
      var r := LeafReached(p, ps[i]);
      assert Shows1(lines[i], ps[i], lives[i]);
      assert AgreesAt(t, p, r);
      LineIs(lines, ps, lives, p, t, r, i);
    }
  }

  /**
   The lines printed for a cell, if all are plain, are exactly the clean values it can have: every clean value is
   written out on a line, and every line is such a value for some choices.
   */
  lemma CollapseExact(m: Memory, live: map<Loc, Info>, root: Loc, fuel: nat)
    requires QueueReady(m, live, [Task(0, root)]) && root in live && Enumerate(m, [Task(0, root)], fuel).done
    requires var lines := Enumerate(m, [Task(0, root)], fuel).lines; forall i :: 0 <= i < |lines| ==> lines[i].plain
    ensures Exact(Enumerate(m, [Task(0, root)], fuel).lines, ReadAt(Graph(m.h, live), root))
  {
    var q := [Task(0, root)];
    var plans, lives := CollapseTells(m, live, q, fuel);
    assert q[0] in q;
    var p := plans[root];
    assert Planned(q, plans) == [Task(0, p)];
    PrintedOnce([Task(0, p)]);
    assert AllLeaves([Task(0, p)]) == Leaves(p);
    ExactFor(Enumerate(m, q, fuel).lines, Printed([Task(0, p)]), lives, p, ReadAt(Graph(m.h, live), root));
  }
}
