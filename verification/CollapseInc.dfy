/**
 Where collapsed normal form stops short of what the head of `clang/cnf/_.c` says: the loop over the fields
 looks for `ERA` and `SUP` only, so an `INC` in a field stays, and keeps what is below it from being collapsed.
 A constructor with such fields is printed as it stands. It is told exactly when that is a value written out, and
 exactly when it is right at least in what it means.
 */
module CollapseInc {
  import opened Calculus
  import opened Reduction
  import opened Quotes
  import opened Heap
  import opened KeyQueue
  import opened Rules
  import opened RulesDup
  import opened Machine
  import opened Cnf
  import opened Collapse
  import opened CollapseEql
  import opened CollapseTerms
  import Ending
  import Load

  /** Nothing to do down to the `INC`s, and anything below them. */
  predicate Still(t: Tree) {
    match t
    case TCtr(_, args) => forall i :: 0 <= i < |args| ==> Still(args[i])
    case TInc(_) => true
    case TNum(_) => true
    case TAny => true
    case TNam(_, _, _) => true
    case _ => false
  }

  /** A constructor with such fields. */
  predicate Frozen(t: Tree) {
    t.TCtr? && Still(t)
  }

  // ---------------------------------------------------------------------------
  // The run
  // ---------------------------------------------------------------------------

  ghost predicate NoSubs(h: Cells) {
    forall l :: l in h ==> !h[l].sub
  }

  lemma {:induction false} PlaceNoSubs(s: Load.Image, l: Loc, o: Loc, t: Tree)
    requires NoSubs(s.h)
    ensures NoSubs(Load.Place(s, l, o, t).h)
    decreases Load.Height(t), 1, 0
  {
    var ks := Load.Kids(t);
    forall i | 0 <= i < |ks| ensures Load.Height(ks[i]) < Load.Height(t) { Load.KidHeight(t, i); }
    PlaceAllNoSubs(s.(next := s.next + |ks|), s.next, l, ks, Load.Height(t));
  }

  lemma {:induction false} PlaceAllNoSubs(s: Load.Image, l: Loc, o: Loc, ts: seq<Tree>, b: nat)
    requires forall i :: 0 <= i < |ts| ==> Load.Height(ts[i]) < b
    requires NoSubs(s.h)
    ensures NoSubs(Load.PlaceAll(s, l, o, ts, b).h)
    decreases b, 0, |ts|
  {
    if ts != [] {
      PlaceNoSubs(s, l, o, ts[0]);
      assert forall i :: 0 <= i < |ts[1..]| ==> ts[1..][i] == ts[i + 1];
      PlaceAllNoSubs(Load.Place(s, l, o, ts[0]), l + 1, o, ts[1..], b);
    }
  }

  /** A term that is reduced as it stands. */
  lemma Unmoved(m: Memory, loc: Loc, n: nat)
    requires loc in m.h && !m.h[loc].sub && IsPlain(m.h[loc].term) && n > 0
    ensures Finished(Steps(Start(m, loc), n)) && WnfAt(m, loc, n) == m
  {
    var s := Start(m, loc);
    Ending.FinishedStays(Step(s), n - 1);
    assert Put(m.h, loc, m.h[loc].term) == m.h;
  }

  /** The word of a still term. */
  lemma StillWord(g: Graph, l: Loc)
    requires Wf(g) && NoSubs(g.h) && l in g.live && Still(ReadAt(g, l))
    ensures var w, t := g.h[l].term, ReadAt(g, l);
            && IsPlain(w) && !w.Era? && !IsSup(w) && (IsInc(w) <==> t.TInc?)
            && (t.TCtr? ==> w.Node? && w.head == HCtr(t.nam, |t.args|))
  {
    var w := g.h[l].term;
    if w.Node? {
      ReadNode(g, w, l);
    } else if w.Dp? {
      ReadDp(g, l, w.side, w.lab, w.loc);
    } else {
      ReadAtom(g, l);
    }
  }

  lemma StillField(g: Graph, l: Loc, at: Loc, i: nat)
    requires Wf(g) && l in g.live && ReadAt(g, l).TCtr? && i < |ReadAt(g, l).args|
    requires g.h[l].term == Node(HCtr(ReadAt(g, l).nam, |ReadAt(g, l).args|), at)
    ensures at + i in g.live && ReadAt(g, at + i) == ReadAt(g, l).args[i]
  {
    var w := g.h[l].term;
    assert TermOk(g, l, w) && InFoot(w, at + i);
    ReadNode(g, w, l);
    assert Kids(g, w, l)[i] == ReadAt(g, at + i);
  }

  /** Collapsing a still term changes nothing. */
  lemma {:induction false} StillCnf(m: Memory, live: map<Loc, Info>, loc: Loc, fuel: nat)
    requires Wf(Graph(m.h, live)) && NoSubs(m.h) && loc in live && Still(ReadAt(Graph(m.h, live), loc))
    requires fuel > Load.Height(ReadAt(Graph(m.h, live), loc))
    ensures CnfAt(m, loc, fuel).Value? && CnfAt(m, loc, fuel).m == m
    decreases fuel, 0
  {
    var g := Graph(m.h, live);
    var t, w := ReadAt(g, loc), m.h[loc].term;
    StillWord(g, loc);
    Unmoved(m, loc, fuel);
    if HasFields(w) {
      ReadNode(g, w, loc);
      StillFields(m, live, loc, w.loc, 0, true, fuel - 1);
    }
  }

  lemma {:induction false} StillFields(m: Memory, live: map<Loc, Info>, loc: Loc, at: Loc, i: nat, plain: bool,
                                       fuel: nat)
    requires Wf(Graph(m.h, live)) && NoSubs(m.h) && loc in live && Frozen(ReadAt(Graph(m.h, live), loc))
    requires var t := ReadAt(Graph(m.h, live), loc);
             i <= |t.args| && m.h[loc].term == Node(HCtr(t.nam, |t.args|), at) && fuel + 1 > Load.Height(t)
    ensures var t := ReadAt(Graph(m.h, live), loc);
            var res := CnfFields(m, loc, HCtr(t.nam, |t.args|), at, i, -1, plain, fuel); res.Value? && res.m == m
    decreases fuel, 1 + |ReadAt(Graph(m.h, live), loc).args| - i
  {
    var g := Graph(m.h, live);
    var t := ReadAt(g, loc);
    if i < |t.args| {
      StillField(g, loc, at, i);
      Load.KidHeights(t.args, i);
      StillCnf(m, live, at + i, fuel);
      StillWord(g, at + i);
      StillFields(m, live, loc, at, i + 1, plain && CnfAt(m, at + i, fuel).plain && !IsInc(At(m.h, at + i)), fuel);
    }
  }

  /** The line holds the term as it was loaded. */
  predicate Untouched(line: Line, t: Tree) {
    line.m == Load.MemoryOf(t) && line.loc == 1
  }

  lemma FrozenRun(t: Tree, fuel: nat)
    requires Frozen(t) && Load.Unshared(t) && fuel > Load.Height(t)
    ensures var run := RunOf(t, fuel); run.done && |run.lines| == 1 && Untouched(run.lines[0], t)
  {
    var m, live := Load.MemoryOf(t), Load.Loaded(t).live;
    Load.LoadedReady(t);
    PlaceNoSubs(Load.Image(map[], map[], 2), 1, 1, t);
    StillCnf(m, live, 1, fuel);
    StillWord(Graph(m.h, live), 1);
    OneTask(0, 1, m);
    assert Enumerate(m, [], fuel - 1) == Run([], true);
  }

  // ---------------------------------------------------------------------------
  // The line
  // ---------------------------------------------------------------------------

  /** What a cell reads as depends on the cells only, not on the table. */
  lemma {:induction false} ReadFree(g1: Graph, g2: Graph, b1: nat, b2: nat, t: Term)
    requires Wf(g1) && Wf(g2) && g1.h == g2.h && Under(g1, b1, t) && Under(g2, b2, t)
    ensures Read(g1, b1, t) == Read(g2, b2, t)
    decreases b1
  {
    forall m | InFoot(t, m)
      ensures ReadAt(g1, m) == ReadAt(g2, m)
    {
      assert TermOk(g1, m, g1.h[m].term) && TermOk(g2, m, g2.h[m].term);
      ReadFree(g1, g2, g1.live[m].rank, g2.live[m].rank, g1.h[m].term);
    }
    if t.Node? {
      assert seq(Ari(t.head), i requires 0 <= i < Ari(t.head) => assert InFoot(t, t.loc + i); ReadAt(g1, t.loc + i))
          == seq(Ari(t.head), i requires 0 <= i < Ari(t.head) => assert InFoot(t, t.loc + i); ReadAt(g2, t.loc + i));
    } else if t.Dp? {
      assert InFoot(t, t.loc);
    }
  }

  lemma CellFree(g1: Graph, g2: Graph, l: Loc)
    requires Wf(g1) && Wf(g2) && g1.h == g2.h && l in g1.live && l in g2.live
    ensures ReadAt(g1, l) == ReadAt(g2, l)
  {
    assert TermOk(g1, l, g1.h[l].term) && TermOk(g2, l, g2.h[l].term);
    ReadFree(g1, g2, g1.live[l].rank, g2.live[l].rank, g1.h[l].term);
  }

  /** One line has one term. */
  lemma PrintsOne(line: Line, u: Tree, v: Tree)
    requires Prints(line, u) && Prints(line, v)
    ensures u == v
  {
    var live1: map<Loc, Info> :| Reads(line, live1, u);
    var live2: map<Loc, Info> :| Reads(line, live2, v);
    CellFree(Graph(line.m.h, live1), Graph(line.m.h, live2), line.loc);
  }

  lemma UntouchedPrints(line: Line, t: Tree)
    requires Load.Unshared(t) && Untouched(line, t)
    ensures Prints(line, t)
  {
    Load.LoadedReady(t);
    assert Reads(line, Load.Loaded(t).live, t);
  }

  // ---------------------------------------------------------------------------
  // Written out or not
  // ---------------------------------------------------------------------------

  /** No `INC` at any position. */
  predicate NoInc(t: Tree) {
    match t
    case TCtr(_, args) => forall i :: 0 <= i < |args| ==> NoInc(args[i])
    case TSup(_, a, b) => NoInc(a) && NoInc(b)
    case TDp(_, _, e) => NoInc(e)
    case TBin(_, x, y) => NoInc(x) && NoInc(y)
    case TInc(_) => false
    case _ => true
  }

  lemma {:induction false} StillNormal(t: Tree)
    requires Still(t)
    ensures Normal(t) <==> NoInc(t)
    decreases t
  {
    if t.TCtr? {
      forall i | 0 <= i < |t.args|
        ensures Normal(t.args[i]) <==> NoInc(t.args[i])
      {
        StillNormal(t.args[i]);
      }
    }
  }

  /** A term printed as it stands is what should be printed just when it is written out. */
  lemma SelfExact(lines: seq<Line>, t: Tree)
    requires |lines| == 1 && Prints(lines[0], t)
    ensures Exact(lines, t) <==> Normal(t)
  {
    QuotedNormal(t);
    var r: Env :| true;
    if Quoted(t) {
      forall r': Env
        ensures IsShown(lines, D(t, r'))
      {
        assert Prints(lines[0], Quote(D(t, r')));
      }
      assert Clean(D(t, r)) && Prints(lines[0], Quote(D(t, r)));
      assert IsMeant(lines[0], t);
    }
    if Exact(lines, t) {
      var u := ExactNormal(lines, t, 0);
      PrintsOne(lines[0], t, u);
    }
  }

  // ---------------------------------------------------------------------------
  // Right or not
  // ---------------------------------------------------------------------------

  /** One clean value. */
  ghost predicate Fixed(t: Tree) {
    exists v: Val :: Clean(v) && forall r: Env :: D(t, r) == v
  }

  /** The term `u` means one clean value, and `t` has that one and no other. */
  ghost predicate Answers(u: Tree, t: Tree) {
    exists v: Val ::
      Clean(v) && (forall r: Env :: D(u, r) == v) && Has1(t, v) && forall r: Env :: Clean(D(t, r)) ==> D(t, r) == v
  }

  ghost predicate Has1(t: Tree, v: Val) {
    exists r: Env :: D(t, r) == v
  }

  /** What is printed on the line, read as a term, has the one clean value that `t` has. */
  ghost predicate Right(line: Line, t: Tree) {
    exists u: Tree :: Prints(line, u) && Answers(u, t)
  }

  lemma SelfRight(line: Line, t: Tree)
    requires Prints(line, t)
    ensures Right(line, t) <==> Fixed(t)
  {
    if Fixed(t) {
      var v: Val :| Clean(v) && forall r: Env :: D(t, r) == v;
      var r: Env :| true;
      assert D(t, r) == v && Has1(t, v);
      assert Answers(t, t);
    }
    if Right(line, t) {
      var u: Tree :| Prints(line, u) && Answers(u, t);
      PrintsOne(line, t, u);
    }
  }

  // ---------------------------------------------------------------------------
  // Hidden choices and erasures
  // ---------------------------------------------------------------------------

  datatype Option<T> = None | Some(value: T)

  /** Without operations and readers. */
  predicate Data(t: Tree) {
    match t
    case TCtr(_, args) => forall i :: 0 <= i < |args| ==> Data(args[i])
    case TSup(_, a, b) => Data(a) && Data(b)
    case TInc(e) => Data(e)
    case TDp(_, _, _) => false
    case TBin(_, _, _) => false
    case _ => true
  }

  /** The value that both sides of every superposition agree on, if there is one without erasures. */
  function OneVal(t: Tree): Option<Val>
    requires Data(t)
    decreases t, 0
  {
    match t
    case TNum(n) => Some(VNum(n))
    case TAny => Some(VAny)
    case TNam(tag, ext, val) => Some(VNam(tag, ext, val))
    case TCtr(nam, args) =>
      if forall i :: 0 <= i < |args| ==> OneVal(args[i]).Some? then
        Some(VCtr(nam, seq(|args|, i requires 0 <= i < |args| => OneVal(args[i]).value)))
      else None
    case TSup(_, a, b) => if OneVal(a) == OneVal(b) then OneVal(a) else None
    case TInc(e) => OneVal(e)
    case _ => None
  }

  lemma {:induction false} OneValMeans(t: Tree, r: Env)
    requires Data(t) && OneVal(t).Some?
    ensures D(t, r) == OneVal(t).value && Clean(D(t, r))
    decreases t
  {
    match t
    case TCtr(nam, args) =>
      forall i | 0 <= i < |args|
        ensures D(args[i], r) == OneVal(args[i]).value && Clean(D(args[i], r))
      {
        OneValMeans(args[i], r);
      }
      assert D(t, r).args == OneVal(t).value.args;
    case TSup(l, a, b) =>
      OneValMeans(a, Pop(r, l));
      OneValMeans(b, Pop(r, l));
    case TInc(e) => OneValMeans(e, r);
    case _ =>
  }

  /** Without such a value there are choices for an erased one, or two sets of choices for different ones. */
  lemma {:induction false} NoneShows(t: Tree) returns (r1: Env, r2: Env)
    requires Data(t) && OneVal(t).None?
    ensures !Clean(D(t, r1)) || D(t, r1) != D(t, r2)
    decreases t
  {
    var r: Env :| true;
    r1, r2 := r, r;
    match t
    case TCtr(_, args) =>
      var i :| 0 <= i < |args| && OneVal(args[i]).None?;
      r1, r2 := NoneShows(args[i]);
      assert D(t, r1).args[i] == D(args[i], r1) && D(t, r2).args[i] == D(args[i], r2);
    case TInc(e) => r1, r2 := NoneShows(e);
    case TSup(l, a, b) =>
      if OneVal(a).None? {
        var s1, s2 := NoneShows(a);
        r1, r2 := TakeSide(l, a, b, 0, s1), TakeSide(l, a, b, 0, s2);
      } else if OneVal(b).None? {
        var s1, s2 := NoneShows(b);
        r1, r2 := TakeSide(l, a, b, 1, s1), TakeSide(l, a, b, 1, s2);
      } else {
        OneValMeans(a, r);
        OneValMeans(b, r);
        r1, r2 := TakeSide(l, a, b, 0, r), TakeSide(l, a, b, 1, r);
      }
    case _ =>
  }

  /** Choices that lead to the given side of a superposition. */
  ghost function TakeSide(l: Label, a: Tree, b: Tree, i: bit, r: Env): (r': Env)
    ensures D(TSup(l, a, b), r') == D(if i == 0 then a else b, r)
  {
    PopPush(r, l, i);
    Calculus.Push(r, l, i)
  }

  /** Data has one clean value for all choices just when its superpositions agree and nothing is erased. */
  lemma DataFixed(t: Tree)
    requires Data(t)
    ensures Fixed(t) <==> OneVal(t).Some?
  {
    if OneVal(t).Some? {
      var v := OneVal(t).value;
      forall r: Env
        ensures D(t, r) == v && Clean(v)
      {
        OneValMeans(t, r);
      }
      var r: Env :| true;
      assert D(t, r) == v;
    } else {
      var r1, r2 := NoneShows(t);
    }
  }

  /**
   Collapse of a constructor with `INC`s in its fields prints one line, the term as it stands: the `INC`s are still
   there. So it is written out just when there is no `INC`. It is right in what it means just when the term has one
   clean value; for data, just when the superpositions hidden agree and nothing hidden is erased.
   */
  lemma HiddenExact(t: Tree) returns (n: nat)
    requires Frozen(t) && Load.Unshared(t)
    ensures forall k: nat :: n <= k ==>
              var run := RunOf(t, k);
              && run.done && |run.lines| == 1 && Prints(run.lines[0], t)
              && (Exact(run.lines, t) <==> NoInc(t)) && (Right(run.lines[0], t) <==> Fixed(t))
    ensures Data(t) ==> (Fixed(t) <==> OneVal(t).Some?)
  {
    n := Load.Height(t) + 1;
    forall k: nat | n <= k
      ensures var run := RunOf(t, k);
              && run.done && |run.lines| == 1 && Prints(run.lines[0], t)
              && (Exact(run.lines, t) <==> NoInc(t)) && (Right(run.lines[0], t) <==> Fixed(t))
    {
      FrozenLine(t, k);
    }
    if Data(t) {
      DataFixed(t);
    }
  }

  lemma FrozenLine(t: Tree, fuel: nat)
    requires Frozen(t) && Load.Unshared(t) && fuel > Load.Height(t)
    ensures var run := RunOf(t, fuel);
            && run.done && |run.lines| == 1 && Prints(run.lines[0], t)
            && (Exact(run.lines, t) <==> NoInc(t)) && (Right(run.lines[0], t) <==> Fixed(t))
  {
    FrozenRun(t, fuel);
    var lines := RunOf(t, fuel).lines;
    UntouchedPrints(lines[0], t);
    StillNormal(t);
    SelfExact(lines, t);
    SelfRight(lines[0], t);
  }

  /** The term `#K{↑&0{#1,#2}}` is printed on one line, although it has two values. */
  lemma IncHidesChoice() returns (n: nat)
    ensures var t := TCtr(0, [TInc(TSup(0, TNum(1), TNum(2)))]);
            forall k: nat :: n <= k ==>
              var run := RunOf(t, k); run.done && |run.lines| == 1 && !Exact(run.lines, t) && !Right(run.lines[0], t)
  {
    var t := TCtr(0, [TInc(TSup(0, TNum(1), TNum(2)))]);
    assert OneVal(t.args[0]).None? && !NoInc(t.args[0]);
    assert Frozen(t) && Load.Unshared(t) && Data(t) && OneVal(t).None? && !NoInc(t);
    n := HiddenExact(t);
  }
}
