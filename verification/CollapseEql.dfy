/**
 Structural equality, run to its end on the heap. The machine stops at every `INC` that EQL-CTR puts over a
 comparison of successors and list cells; the collapse loop follows it and goes on, until a number is left.
 */
module CollapseEql {
  import opened U32Ops
  import opened Calculus
  import opened Reduction
  import opened Heap
  import opened KeyQueue
  import opened Rules
  import opened Machine
  import opened Cnf
  import opened Collapse
  import opened CollapseEnds
  import opened Ending
  import Load

  /** A number, or an erasure. */
  predicate IsAnswer(v: Val) {
    v.VNum? || v.VEra?
  }

  /**
   In a heap in order the task `loc` waits alone; its term has no superposition, and means `v` for the choices `r`.
   */
  ghost predicate Asks(m: Memory, live: map<Loc, Info>, key: nat, loc: Loc, r: Env, v: Val) {
    && QueueReady(m, live, [Task(key, loc)]) && loc in live && Has(ReadAt(Graph(m.h, live), loc), Single)
    && D(ReadAt(Graph(m.h, live), loc), r) == v
  }

  /**
   A term without superpositions that is a number or an erasure comes out as that, or as an `INC` over such a term.
   */
  lemma AnswerCnf(m: Memory, live: map<Loc, Info>, loc: Loc, fuel: nat, r: Env, v: Val)
    requires Ready(m, live, loc) && Has(ReadAt(Graph(m.h, live), loc), Single)
    requires D(ReadAt(Graph(m.h, live), loc), r) == v && IsAnswer(v) && !CnfAt(m, loc, fuel).Late?
    ensures match CnfAt(m, loc, fuel)
            case Gone(_) => v == VEra
            case Value(m', _) => var t := At(m'.h, loc); IsInc(t) || (v.VNum? && t == Num(v.n))
            case Late => false
  {
    var g, m1 := Graph(m.h, live), WnfAt(m, loc, fuel);
    var live1 := WnfAtKeeps(m, live, loc, fuel);
    var g1, t := Graph(m1.h, live1), m1.h[loc].term;
    WnfReduced(m, live, loc, fuel, live1);
    SortsKept(g, g1, loc);
    assert Outside(g, loc, loc) && KeptCell(g, g1, loc, loc);
    assert D(ReadAt(g1, loc), r) == v && ValueLike(t, v);
    if IsSup(t) {
      ReadSup(g1, loc, t.head.lab, t.loc);
    }
  }

  /** The queue with one task, after an `INC`. */
  lemma AnswerInc(m: Memory, live: map<Loc, Info>, key: nat, loc: Loc, fuel: nat, r: Env, v: Val)
    returns (live2: map<Loc, Info>)
    requires Asks(m, live, key, loc, r, v) && CnfAt(m, loc, fuel).Value? && IsInc(At(CnfAt(m, loc, fuel).m.h, loc))
    ensures var m' := CnfAt(m, loc, fuel).m; Asks(m', live2, Less(key), At(m'.h, loc).loc, r, v)
  {
    var g, q := Graph(m.h, live), [Task(key, loc)];
    assert q[0] in q;
    var g2, x := CnfAtKeeps(m, live, loc, fuel);
    HeadKept(g, g2, loc);
    SortsKept(g, g2, loc);
    var m' := CnfAt(m, loc, fuel).m;
    var inc := At(m'.h, loc).loc;
    var g3 := IncTurn(m', g, g2, q, inc);
    live2 := g3.live;
    var q' := [Task(Less(key), inc)] + q[1..];
    assert q' == [Task(Less(key), inc)] && q'[0] in q' && g3 == Graph(m'.h, live2);
    assert D(ReadAt(g2, loc), r) == v;
  }

  lemma OneTask(key: nat, loc: Loc, m: Memory)
    ensures var t := At(m.h, loc);
            NextTasks(m, [Task(key, loc)])
            == if IsInc(t) then [Task(Less(key), t.loc)]
               else if IsSup(t) then Push2([], key + 1, t.loc, t.loc + 1) else []
    ensures [Task(key, loc)][1..] == []
  {
    assert [Task(key, loc)][1..] == [];
  }

  /** The number on one line, or nothing for an erasure. */
  predicate Shows(lines: seq<Line>, v: Val) {
    if v.VNum? then |lines| == 1 && At(lines[0].m.h, lines[0].loc) == Num(v.n) else lines == []
  }

  /** Collapse prints such a term on one line, as the number it is, or does not print it. */
  lemma {:induction false} AnswerRun(m: Memory, live: map<Loc, Info>, key: nat, loc: Loc, fuel: nat, r: Env, v: Val)
    requires Asks(m, live, key, loc, r, v) && IsAnswer(v) && Enumerate(m, [Task(key, loc)], fuel).done
    ensures Shows(Enumerate(m, [Task(key, loc)], fuel).lines, v)
    decreases fuel
  {
    var q := [Task(key, loc)];
    assert q[0] in q;
    AnswerCnf(m, live, loc, fuel, r, v);
    var res := CnfAt(m, loc, fuel);
    OneTask(key, loc, res.m);
    var t := At(res.m.h, loc);
    if res.Value? && IsInc(t) {
      var live2 := AnswerInc(m, live, key, loc, fuel, r, v);
      AnswerRun(res.m, live2, Less(key), t.loc, fuel - 1, r, v);
    }
  }

  /**
   A comparison of any two terms without superpositions, in any memory: with enough fuel it ends in one line, the number
   that `EQL` of their values is; or in none, if that is an erasure.
   */
  lemma EqlComes(m: Memory, live: map<Loc, Info>, loc: Loc, a: Tree, b: Tree, r: Env) returns (n: nat)
    requires QueueReady(m, live, [Task(0, loc)]) && loc in live && ReadAt(Graph(m.h, live), loc) == TBin(KEql, a, b)
    requires Has(a, Single) && Has(b, Single)
    ensures forall k: nat :: n <= k ==>
              var run := Enumerate(m, [Task(0, loc)], k); run.done && Shows(run.lines, EqlVal(D(a, r), D(b, r)))
  {
    EqlAnswers(D(a, r), D(b, r));
    n := CollapseEnds.CollapseEnds(m, live, [Task(0, loc)]);
    forall k: nat | n <= k
      ensures var run := Enumerate(m, [Task(0, loc)], k); run.done && Shows(run.lines, EqlVal(D(a, r), D(b, r)))
    {
      AnswerRun(m, live, 0, loc, k, r, EqlVal(D(a, r), D(b, r)));
    }
  }

  /** Of plain values, without wildcards and erasures, the one line is deep equality. */
  lemma EqlDecides(m: Memory, live: map<Loc, Info>, loc: Loc, a: Tree, b: Tree, r: Env) returns (n: nat)
    requires QueueReady(m, live, [Task(0, loc)]) && loc in live && ReadAt(Graph(m.h, live), loc) == TBin(KEql, a, b)
    requires Has(a, Single) && Has(b, Single) && Plain(D(a, r)) && Plain(D(b, r))
    ensures forall k: nat :: n <= k ==>
              var run := Enumerate(m, [Task(0, loc)], k);
              run.done && |run.lines| == 1 && At(run.lines[0].m.h, run.lines[0].loc) == Num(Truth(D(a, r) == D(b, r)))
  {
    EqlIsEquality(D(a, r), D(b, r));
    n := EqlComes(m, live, loc, a, b, r);
  }

  // ---------------------------------------------------------------------------
  // Whole terms
  // ---------------------------------------------------------------------------

  /** Numbers, names and constructors of those. */
  predicate Whole(t: Tree) {
    t.TNum? || t.TNam? || (t.TCtr? && forall i :: 0 <= i < |t.args| ==> Whole(t.args[i]))
  }

  ghost function Ds(ts: seq<Tree>, r: Env): seq<Val> {
    seq(|ts|, i requires 0 <= i < |ts| => D(ts[i], r))
  }

  /** Whole terms are equal when their values are. */
  lemma {:induction false} WholeMeans(t: Tree, u: Tree, r: Env)
    requires Whole(t) && Whole(u)
    ensures Has(t, Single) && Load.Unshared(t) && Plain(D(t, r)) && (D(t, r) == D(u, r) <==> t == u)
    decreases t
  {
    if t.TCtr? {
      forall i | 0 <= i < |t.args|
        ensures Has(t.args[i], Single) && Load.Unshared(t.args[i]) && Plain(D(t.args[i], r))
      {
        WholeMeans(t.args[i], t.args[i], r);
      }
      if u.TCtr? {
        assert D(t, r) == VCtr(t.nam, Ds(t.args, r)) && D(u, r) == VCtr(u.nam, Ds(u.args, r));
        if D(t, r) == D(u, r) {
          assert |Ds(t.args, r)| == |Ds(u.args, r)|;
          forall i | 0 <= i < |t.args|
            ensures t.args[i] == u.args[i]
          {
            assert Ds(t.args, r)[i] == Ds(u.args, r)[i];
            WholeMeans(t.args[i], u.args[i], r);
          }
          assert t.args == u.args;
        }
      }
    }
  }

  /**
   `===` of two whole terms, successors and lists among them, comes out as one on equal terms and as zero on
   different ones.
   */
  lemma WholeEquality(a: Tree, b: Tree) returns (n: nat)
    requires Whole(a) && Whole(b)
    ensures forall k: nat :: n <= k ==>
              var run := Enumerate(Load.MemoryOf(TBin(KEql, a, b)), [Task(0, 1)], k);
              run.done && |run.lines| == 1 && At(run.lines[0].m.h, run.lines[0].loc) == Num(Truth(a == b))
  {
    var t := TBin(KEql, a, b);
    var r: Env :| true;
    WholeMeans(a, b, r);
    WholeMeans(b, a, r);
    Load.LoadedReady(t);
    n := EqlDecides(Load.MemoryOf(t), Load.Loaded(t).live, 1, a, b, r);
  }
}
