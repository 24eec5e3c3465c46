/**
 Where the machine gives up on a logical operation, its first operand is no number: what is left is not
 something that could still act.
 */
module Jam {
  import opened Calculus
  import opened Reduction
  import opened Heap
  import opened Rules
  import opened Interact
  import opened Machine

  predicate IsLogic(t: Term) {
    t.Node? && t.head.HBin? && !t.head.k.KOp2?
  }

  /** If `t` is a logical operation, its first operand is not a number, for any choices. */
  ghost predicate Jammed(g: Graph, t: Term)
    requires Wf(g)
  {
    IsLogic(t) ==> t.loc in g.live && forall r: Env :: !D(ReadAt(g, t.loc), r).VNum?
  }

  /** What an interaction returns as reduced is no logical operation, and no reader. */
  lemma RewriteFirm(h: Cells, next: Loc, f: Frame, t: Term)
    requires Apply(h, next, f, t).Rewrite? && !Apply(h, next, f, t).out.enter
    ensures var res := Apply(h, next, f, t).out.res; !IsLogic(res) && !res.Dp?
  {
  }

  lemma StuckJams(g: Graph, f: Frame, h: Cells, next: Loc, t: Term)
    requires Wf(g) && Hole(f) in g.live && Whnf(g, Hole(f)) && g.h[Hole(f)].term == t && Apply(h, next, f, t).Stuck?
    ensures Jammed(g, Unwind(next, f, t).res)
  {
    if IsLogic(Unwind(next, f, t).res) {
      NotPart(g, Hole(f));
      forall r: Env
        ensures !D(ReadAt(g, Hole(f)), r).VNum?
      {
        assert ValueLike(t, D(ReadAt(g, Hole(f)), r));
      }
    }
  }

  ghost predicate JammedIn(s: State, g: Graph, root: Loc) {
    Inv(s, g, root) && (!s.enter ==> Jammed(g, s.cur))
  }

  lemma EnterJams(s: State, g: Graph)
    requires s.enter && Wf(g) && !EnterStep(s).enter
    ensures Jammed(g, EnterStep(s).cur)
  {
  }

  lemma ApplyJams(s: State, g: Graph, root: Loc, g2: Graph)
    requires Inv(s, g, root) && !s.enter && s.stack.Push? && Move(s, g, g2, root)
    requires Wf(g2) && !ApplyStep(s).enter
    ensures Jammed(g2, ApplyStep(s).cur)
  {
    var f := s.stack.top;
    match Apply(s.h, s.next, f, s.cur)
    case Rewrite(_) => RewriteFirm(s.h, s.next, f, s.cur);
    case Stuck =>
      if !f.FNum? {
        StuckJams(g, f, s.h, s.next, s.cur);
      }
    case Swap(_, _, _) =>
  }

  lemma StepJams(s: State, g: Graph, root: Loc) returns (g2: Graph)
    requires JammedIn(s, g, root)
    ensures JammedIn(Step(s), g2, root) && Kept(g, g2, root)
  {
    g2 := StepKeeps(s, g, root);
    if s.enter && !Step(s).enter {
      EnterJams(s, g);
    } else if s.stack.Push? && !Step(s).enter {
      ApplyJams(s, g, root, g2);
    }
  }

  lemma {:induction false} StepsJam(s: State, n: nat, g: Graph, root: Loc) returns (g2: Graph)
    requires JammedIn(s, g, root)
    ensures JammedIn(Steps(s, n), g2, root) && Kept(g, g2, root)
    decreases n
  {
    if n == 0 {
      g2 := g;
      KeptSelf(g, root, s.stack, s.cur);
    } else {
      var g1 := StepJams(s, g, root);
      g2 := StepsJam(Step(s), n - 1, g1, root);
      KeptThen(g, g1, g2, root, root);
    }
  }

  /** Storing the result changes nothing that is read. */
  lemma StoreJams(s: State, g: Graph, loc: Loc)
    requires s.stack.Nil? && Inv(s, g, loc) && !s.enter && Jammed(g, s.cur)
    ensures var g2 := Graph(Put(s.h, loc, s.cur), g.live);
            && Ready(Memory(g2.h, s.next, s.itrs), g.live, loc) && Kept(g, g2, loc)
            && g2.h[loc].term == s.cur && Whnf(g2, loc) && Jammed(g2, s.cur)
  {
    StoreKeeps(s, g, loc);
    var g2 := Graph(Put(s.h, loc, s.cur), g.live);
    forall l | l in g.live
      ensures ReadAt(g2, l) == ReadAt(g, l)
    {
      SubReadAt(g, g2, l);
    }
    assert forall r: Env :: ValueLike(g.h[loc].term, D(ReadAt(g, loc), r));
    assert g2.h[loc].term == g.h[loc].term;
  }

  /** Reducing a cell to the end keeps every root, and leaves a reduced term that cannot act. */
  lemma WnfJams(m: Memory, live: map<Loc, Info>, loc: Loc, n: nat) returns (live2: map<Loc, Info>)
    requires Ready(m, live, loc) && Finished(Steps(Start(m, loc), n))
    ensures var m2 := WnfAt(m, loc, n);
            && Ready(m2, live2, loc) && Kept(Graph(m.h, live), Graph(m2.h, live2), loc)
            && Whnf(Graph(m2.h, live2), loc) && Jammed(Graph(m2.h, live2), m2.h[loc].term)
  {
    StartInv(m, live, loc);
    var s := Steps(Start(m, loc), n);
    var g1 := StepsJam(Start(m, loc), n, Graph(m.h, live), loc);
    StoreJams(s, g1, loc);
    live2 := g1.live;
    KeptThen(Graph(m.h, live), g1, Graph(WnfAt(m, loc, n).h, live2), loc, loc);
  }
}
