/** The order in which collapse prints, when no `INC` is met: level by level, from left to right. */
module CollapseOrder {
  import opened Calculus
  import opened KeyQueue
  import opened Collapse

  function Height(p: Plan): nat {
    match p
    case Fork(_, a, b) => 1 + (if Height(a) < Height(b) then Height(b) else Height(a))
    case Up(p') => Height(p')
    case _ => 0
  }

  /** The leaves `d` choices deep, from left to right. */
  function Level(p: Plan, d: nat): seq<Plan> {
    match p
    case Leaf(_, _) => if d == 0 then [p] else []
    case Fork(_, a, b) => if d == 0 then [] else Level(a, d - 1) + Level(b, d - 1)
    case _ => []
  }

  /** All leaves from depth `d` to depth `n`, level by level. */
  function Levels(p: Plan, d: nat, n: nat): seq<Plan>
    decreases n + 1 - d
  {
    if d > n then [] else Level(p, d) + Levels(p, d + 1, n)
  }

  // ---------------------------------------------------------------------------
  // Two generations in the queue
  // ---------------------------------------------------------------------------

  function LevelAll(ps: seq<Plan>, d: nat): seq<Plan> {
    if ps == [] then [] else Level(ps[0], d) + LevelAll(ps[1..], d)
  }

  /** What is still to come below the top of `xs`; `ys` are the children of those left of `xs`. */
  function Below(xs: seq<Plan>, ys: seq<Plan>, d: nat, n: nat): seq<Plan>
    decreases n + 1 - d
  {
    if d > n then [] else LevelAll(ys, d) + LevelAll(xs, d + 1) + Below(xs, ys, d + 1, n)
  }

  /** The plans of one generation, under one key. */
  function Tasks(key: nat, ps: seq<Plan>): seq<Task<Plan>> {
    seq(|ps|, i requires 0 <= i < |ps| => Task(Bucket(key), ps[i]))
  }

  predicate Fits(ps: seq<Plan>, n: int) {
    forall i :: 0 <= i < |ps| ==> NoUp(ps[i]) && Height(ps[i]) <= n
  }

  lemma {:induction false} LevelEmpty(p: Plan, d: nat)
    requires Height(p) < d
    ensures Level(p, d) == []
  {
    if p.Fork? {
      LevelEmpty(p.a, d - 1);
      LevelEmpty(p.b, d - 1);
    }
  }

  lemma {:induction false} LevelAllEmpty(ps: seq<Plan>, d: nat, n: int)
    requires Fits(ps, n) && n < d
    ensures LevelAll(ps, d) == []
  {
    if ps != [] {
      LevelEmpty(ps[0], d);
      LevelAllEmpty(ps[1..], d, n);
    }
  }

  lemma LevelAllCons(p: Plan, ps: seq<Plan>, d: nat)
    ensures LevelAll([p] + ps, d) == Level(p, d) + LevelAll(ps, d)
  {
    assert ([p] + ps)[1..] == ps;
  }

  lemma LevelAllTwo(a: Plan, b: Plan, d: nat)
    ensures LevelAll([a, b], d) == Level(a, d) + Level(b, d)
  {
    LevelAllCons(a, [b], d);
    LevelAllCons(b, [], d);
    assert [a, b] == [a] + [b] && [b] == [b] + [];
  }

  lemma {:induction false} LevelAllAppend(ps: seq<Plan>, qs: seq<Plan>, d: nat)
    ensures LevelAll(ps + qs, d) == LevelAll(ps, d) + LevelAll(qs, d)
  {
    if ps == [] {
      assert ps + qs == qs;
    } else {
      var p, rest := ps[0], ps[1..];
      LevelAllAppend(rest, qs, d);
      assert ps == [p] + rest;
      Rotate(p, rest, qs);
      LevelAllCons(p, rest + qs, d);
      Regroup3(Level(p, d), LevelAll(rest, d), LevelAll(qs, d));
    }
  }

  lemma Rotate(p: Plan, rest: seq<Plan>, qs: seq<Plan>)
    ensures ([p] + rest) + qs == [p] + (rest + qs)
  {
  }

  lemma Regroup3(u: seq<Plan>, v: seq<Plan>, w: seq<Plan>)
    ensures u + (v + w) == (u + v) + w
  {
  }

  lemma Push2Last(key: nat, xs: seq<Plan>, ys: seq<Plan>, a: Plan, b: Plan)
    ensures Push2(Tasks(key, xs) + Tasks(key + 1, ys), Bucket(key) + 1, a, b) ==
              Tasks(key, xs) + Tasks(key + 1, ys + [a, b])
  {
    var q := Tasks(key, xs) + Tasks(key + 1, ys);
    var k := Bucket(Bucket(key) + 1);
    assert k == Bucket(key + 1);
    InsertLast(q, Task(k, a));
    InsertLast(q + [Task(k, a)], Task(k, b));
  }

  /** The next generation takes over. */
  lemma {:induction false} BelowShift(ys: seq<Plan>, d: nat, n: nat)
    requires Fits(ys, n - 1)
    ensures Below([], ys, d, n) == (if d > n then [] else LevelAll(ys, d) + Below(ys, [], d, n))
    decreases n + 1 - d
  {
    if d <= n {
      BelowShift(ys, d + 1, n);
      if d == n {
        LevelAllEmpty(ys, d + 1, n - 1);
      }
    }
  }

  /** A leaf or dead end has nothing below it. */
  lemma {:induction false} BelowSkip(p: Plan, xs: seq<Plan>, ys: seq<Plan>, d: nat, n: nat)
    requires p.Leaf? || p.Dead?
    ensures Below([p] + xs, ys, d, n) == Below(xs, ys, d, n)
    decreases n + 1 - d
  {
    if d <= n {
      BelowSkip(p, xs, ys, d + 1, n);
      LevelAllCons(p, xs, d + 1);
      assert LevelAll([p] + xs, d + 1) == LevelAll(xs, d + 1);
    }
  }

  lemma Regroup(u: seq<Plan>, v: seq<Plan>, w: seq<Plan>, t: seq<Plan>)
    ensures u + (v + w) + t == (u + v) + w + t
  {
    assert u + (v + w) == (u + v) + w;
  }

  /** The sides of a fork join the next generation. */
  lemma {:induction false} BelowFork(f: Plan, xs: seq<Plan>, ys: seq<Plan>, d: nat, n: nat)
    requires f.Fork?
    ensures Below([f] + xs, ys, d, n) == Below(xs, ys + [f.a, f.b], d, n)
    decreases n + 1 - d
  {
    if d <= n {
      BelowFork(f, xs, ys, d + 1, n);
      LevelAllCons(f, xs, d + 1);
      LevelAllAppend(ys, [f.a, f.b], d);
      LevelAllTwo(f.a, f.b, d);
      Regroup(LevelAll(ys, d), Level(f, d + 1), LevelAll(xs, d + 1), Below([f] + xs, ys, d + 1, n));
    }
  }

  function PlanSizes(ps: seq<Plan>): nat {
    if ps == [] then 0 else Size(ps[0]) + PlanSizes(ps[1..])
  }

  lemma {:induction false} SizesAppend(ps: seq<Plan>, a: Plan, b: Plan)
    ensures PlanSizes(ps + [a, b]) == PlanSizes(ps) + Size(a) + Size(b)
  {
    if ps == [] {
      assert [a, b][1..] == [b] && [b][1..] == [];
      assert ps + [a, b] == [a, b];
    } else {
      SizesAppend(ps[1..], a, b);
      assert (ps + [a, b])[1..] == ps[1..] + [a, b];
    }
  }

  /** With two generations in the queue, the older one first. */
  lemma {:induction false} TwoGenerations(key: nat, xs: seq<Plan>, ys: seq<Plan>, n: nat)
    requires Fits(xs, n) && Fits(ys, n - 1)
    ensures Printed(Tasks(key, xs) + Tasks(key + 1, ys)) == LevelAll(xs, 0) + Below(xs, ys, 0, n)
    decreases PlanSizes(xs) + PlanSizes(ys), |ys| + 1
  {
    if xs == [] {
      if ys == [] {
        NothingLeft(0, n);
      } else {
        assert Tasks(key, xs) + Tasks(key + 1, ys) == Tasks(key + 1, ys) + Tasks(key + 2, []);
        BelowShift(ys, 0, n);
        TwoGenerations(key + 1, ys, [], n);
      }
    } else {
      HeadTurn(key, xs, ys, n);
    }
  }

  lemma {:induction false} NothingLeft(d: nat, n: nat)
    ensures Below([], [], d, n) == []
    decreases n + 1 - d
  {
    if d <= n {
      NothingLeft(d + 1, n);
    }
  }

  lemma TasksHead(key: nat, p: Plan, rest: seq<Plan>, ys: seq<Plan>)
    ensures Tasks(key, [p] + rest) + Tasks(key + 1, ys) ==
              [Task(Bucket(key), p)] + (Tasks(key, rest) + Tasks(key + 1, ys))
  {
  }

  lemma LeafTurn(k: nat, p: Plan, q: seq<Task<Plan>>, u: seq<Plan>, v: seq<Plan>)
    requires p.Leaf? && Printed(q) == u + v
    ensures Printed([Task(k, p)] + q) == ([p] + u) + v
  {
    PrintedLeaf(k, p, q);
    assert [p] + (u + v) == ([p] + u) + v;
  }

  /** The head is a leaf or a dead end. */
  lemma EndTurn(k: nat, p: Plan, rest: seq<Plan>, ys: seq<Plan>, q: seq<Task<Plan>>, n: nat)
    requires (p.Leaf? || p.Dead?) && Printed(q) == LevelAll(rest, 0) + Below(rest, ys, 0, n)
    ensures Printed([Task(k, p)] + q) == LevelAll([p] + rest, 0) + Below([p] + rest, ys, 0, n)
  {
    LevelAllCons(p, rest, 0);
    BelowSkip(p, rest, ys, 0, n);
    if p.Leaf? {
      LeafTurn(k, p, q, LevelAll(rest, 0), Below(rest, ys, 0, n));
    } else {
      PrintedDead(k, q);
      assert LevelAll([p] + rest, 0) == LevelAll(rest, 0);
    }
  }

  /** The head is a fork. */
  lemma ForkTurn(key: nat, p: Plan, rest: seq<Plan>, ys: seq<Plan>, n: nat)
    requires p.Fork?
    requires Printed(Tasks(key, rest) + Tasks(key + 1, ys + [p.a, p.b])) ==
               LevelAll(rest, 0) + Below(rest, ys + [p.a, p.b], 0, n)
    ensures Printed([Task(Bucket(key), p)] + (Tasks(key, rest) + Tasks(key + 1, ys))) ==
              LevelAll([p] + rest, 0) + Below([p] + rest, ys, 0, n)
  {
    PrintedFork(Bucket(key), p.lab, p.a, p.b, Tasks(key, rest) + Tasks(key + 1, ys));
    Push2Last(key, rest, ys, p.a, p.b);
    LevelAllCons(p, rest, 0);
    BelowFork(p, rest, ys, 0, n);
  }

  lemma {:induction false} HeadTurn(key: nat, xs: seq<Plan>, ys: seq<Plan>, n: nat)
    requires Fits(xs, n) && Fits(ys, n - 1) && xs != []
    ensures Printed(Tasks(key, xs) + Tasks(key + 1, ys)) == LevelAll(xs, 0) + Below(xs, ys, 0, n)
    decreases PlanSizes(xs) + PlanSizes(ys), 0
  {
    var p, rest := xs[0], xs[1..];
    assert xs == [p] + rest;
    TasksHead(key, p, rest, ys);
    if p.Fork? {
      SizesAppend(ys, p.a, p.b);
      TwoGenerations(key, rest, ys + [p.a, p.b], n);
      ForkTurn(key, p, rest, ys, n);
    } else {
      TwoGenerations(key, rest, ys, n);
      EndTurn(Bucket(key), p, rest, ys, Tasks(key, rest) + Tasks(key + 1, ys), n);
    }
  }

  lemma LevelAllOne(p: Plan, d: nat)
    ensures LevelAll([p], d) == Level(p, d)
  {
    LevelAllCons(p, [], d);
    assert [p] == [p] + [];
  }

  lemma {:induction false} BelowLevels(p: Plan, d: nat, n: nat)
    ensures Below([p], [], d, n) == Levels(p, d + 1, n + 1)
    decreases n + 1 - d
  {
    if d <= n {
      BelowLevels(p, d + 1, n);
      LevelAllOne(p, d + 1);
    }
  }

  lemma OneTask(p: Plan)
    ensures Tasks(0, [p]) + Tasks(1, []) == [Task(0, p)]
  {
    assert Bucket(0) == 0 && Tasks(0, [p])[0] == Task(0, p);
    assert Tasks(0, [p]) == [Task(0, p)] && Tasks(1, []) == [];
  }

  lemma LevelsFrom(p: Plan, n: nat)
    ensures LevelAll([p], 0) + Below([p], [], 0, n) == Levels(p, 0, n + 1)
  {
    BelowLevels(p, 0, n);
    LevelAllCons(p, [], 0);
    assert [p] == [p] + [] && Level(p, 0) + [] == Level(p, 0);
  }

  /** Collapse prints the values of a cell in breadth-first order, however deep they are. */
  lemma BreadthFirst(p: Plan)
    requires NoUp(p)
    ensures Printed([Task(0, p)]) == Levels(p, 0, Height(p) + 1)
  {
    OneTask(p);
    TwoGenerations(0, [p], [], Height(p));
    LevelsFrom(p, Height(p));
  }
}
