/**
 Collapse of a term with its superpositions, `INC`s and erasures above, and constructors below that have nothing to
 do in them down to the `INC`s in their fields. It is written out just when the term is tame, that is when there are
 no such `INC`s: what `CollapseTerms.TameCollapse` asks of a term is then not only enough but needed.
 */
module CollapseLayers {
  import opened Calculus
  import opened Reduction
  import opened Quotes
  import opened Heap
  import opened KeyQueue
  import opened Rules
  import opened RulesDup
  import opened Machine
  import opened Cnf
  import opened Collapse
  import opened CollapseEnds
  import opened CollapseTerms
  import opened CollapseInc
  import Load

  predicate Layered(t: Tree) {
    match t
    case TSup(_, a, b) => Layered(a) && Layered(b)
    case TInc(e) => Layered(e)
    case TEra => true
    case _ => Still(t)
  }

  /** One of the terms below the layers. */
  predicate PartOf(u: Tree, t: Tree) {
    match t
    case TSup(_, a, b) => PartOf(u, a) || PartOf(u, b)
    case TInc(e) => PartOf(u, e)
    case TEra => false
    case _ => u == t
  }

  lemma {:induction false} StillSilent(t: Tree)
    requires Still(t)
    ensures Has(t, Silent) <==> NoInc(t)
    decreases t
  {
    if t.TCtr? {
      forall i | 0 <= i < |t.args|
        ensures Has(t.args[i], Silent) <==> NoInc(t.args[i])
      {
        StillSilent(t.args[i]);
      }
    }
  }

  /** What is not tame has a part that is not written out. */
  lemma {:induction false} WildPart(t: Tree) returns (u: Tree)
    requires Layered(t) && !Has(t, Tame)
    ensures PartOf(u, t) && !Normal(u)
    decreases t
  {
    match t
    case TSup(_, a, b) => if Has(a, Tame) { u := WildPart(b); } else { u := WildPart(a); }
    case TInc(e) => u := WildPart(e);
    case _ =>
      u := t;
      StillSilent(t);
      StillNormal(t);
  }

  // ---------------------------------------------------------------------------
  // The run
  // ---------------------------------------------------------------------------

  ghost predicate AllLayered(g: Graph, q: seq<Task<Loc>>)
    requires Wf(g)
  {
    forall t :: t in q ==> t.item in g.live && Layered(ReadAt(g, t.item))
  }

  /** Some queued cell has the part `u`. */
  ghost predicate Waits(g: Graph, q: seq<Task<Loc>>, u: Tree)
    requires Wf(g) && AllLayered(g, q)
  {
    exists t :: t in q && PartOf(u, ReadAt(g, t.item))
  }

  /** The word of a layer. */
  lemma LayerWord(g: Graph, l: Loc)
    requires Wf(g) && NoSubs(g.h) && l in g.live && Layered(ReadAt(g, l))
    ensures var w, t := g.h[l].term, ReadAt(g, l);
            && IsPlain(w) && (w.Era? <==> t.TEra?) && (IsSup(w) <==> t.TSup?) && (IsInc(w) <==> t.TInc?)
    ensures var w, t := g.h[l].term, ReadAt(g, l);
            && (t.TInc? ==> w.loc in g.live && ReadAt(g, w.loc) == t.e)
            && (t.TSup? ==> w.loc in g.live && w.loc + 1 in g.live && ReadAt(g, w.loc) == t.a
                            && ReadAt(g, w.loc + 1) == t.b)
  {
    var w := g.h[l].term;
    assert TermOk(g, l, w);
    if w.Node? {
      ReadNode(g, w, l);
      assert w.head.HSup? ==> InFoot(w, w.loc) && InFoot(w, w.loc + 1);
      assert w.head.HInc? ==> InFoot(w, w.loc);
    } else if w.Dp? {
      ReadDp(g, l, w.side, w.lab, w.loc);
    } else {
      ReadAtom(g, l);
    }
  }

  /** Collapsing a layered term changes nothing. */
  lemma LayerCnf(m: Memory, live: map<Loc, Info>, loc: Loc, fuel: nat)
    requires Wf(Graph(m.h, live)) && NoSubs(m.h) && loc in live && Layered(ReadAt(Graph(m.h, live), loc))
    requires !CnfAt(m, loc, fuel).Late?
    ensures var res := CnfAt(m, loc, fuel); res.m == m && (res.Gone? <==> ReadAt(Graph(m.h, live), loc).TEra?)
  {
    var t := ReadAt(Graph(m.h, live), loc);
    LayerWord(Graph(m.h, live), loc);
    if Still(t) {
      var k := Max(fuel, Load.Height(t) + 1);
      StillCnf(m, live, loc, k);
      CnfOn(m, loc, fuel, k);
    } else {
      Unmoved(m, loc, fuel);
    }
  }

  /** The rest of the queue, and the head. */
  lemma Ahead(g: Graph, q: seq<Task<Loc>>, u: Tree)
    requires q != [] && Wf(g) && AllLayered(g, q)
    ensures q[0].item in g.live && Layered(ReadAt(g, q[0].item)) && AllLayered(g, q[1..])
    ensures Waits(g, q, u) <==> PartOf(u, ReadAt(g, q[0].item)) || Waits(g, q[1..], u)
  {
    assert q[0] in q && q == [q[0]] + q[1..];
  }

  lemma SupTurn(g: Graph, q: seq<Task<Loc>>, key: nat, a: Loc, b: Loc, u: Tree)
    requires Wf(g) && AllLayered(g, q) && a in g.live && b in g.live
    requires Layered(ReadAt(g, a)) && Layered(ReadAt(g, b))
    ensures AllLayered(g, Push2(q, key, a, b))
    ensures PartOf(u, ReadAt(g, a)) || PartOf(u, ReadAt(g, b)) || Waits(g, q, u) ==> Waits(g, Push2(q, key, a, b), u)
  {
    var q' := Push2(q, key, a, b);
    Push2In(q, key, a, b);
    assert Task(Bucket(key), a) in q' && Task(Bucket(key), b) in q';
    if Waits(g, q, u) {
      var t :| t in q && PartOf(u, ReadAt(g, t.item));
      assert t in q';
    }
  }

  lemma IncTurn(g: Graph, q: seq<Task<Loc>>, t: Task<Loc>, u: Tree)
    requires Wf(g) && AllLayered(g, q) && t.item in g.live && Layered(ReadAt(g, t.item))
    ensures AllLayered(g, [t] + q)
    ensures PartOf(u, ReadAt(g, t.item)) || Waits(g, q, u) ==> Waits(g, [t] + q, u)
  {
    assert t in [t] + q;
    if Waits(g, q, u) {
      var t' :| t' in q && PartOf(u, ReadAt(g, t'.item));
      assert t' in [t] + q;
    }
  }

  /** The head of the queue is printed. */
  predicate Shows0(m: Memory, q: seq<Task<Loc>>)
    requires q != []
  {
    var w := At(m.h, q[0].item);
    !IsInc(w) && !IsSup(w)
  }

  /** A turn leaves layered terms, and the parts that wait, but for the one printed. */
  lemma LayerTurn(m: Memory, g: Graph, q: seq<Task<Loc>>, u: Tree)
    requires q != [] && Wf(g) && g.h == m.h && NoSubs(g.h) && AllLayered(g, q) && Waits(g, q, u)
    requires q[0].item in g.live && !ReadAt(g, q[0].item).TEra?
    ensures AllLayered(g, NextTasks(m, q))
    ensures (Shows0(m, q) && ReadAt(g, q[0].item) == u) || Waits(g, NextTasks(m, q), u)
  {
    var l := q[0].item;
    var w := At(m.h, l);
    Ahead(g, q, u);
    LayerWord(g, l);
    if IsSup(w) {
      SupTurn(g, q[1..], q[0].key + 1, w.loc, w.loc + 1, u);
    } else if IsInc(w) {
      IncTurn(g, q[1..], Task(Less(q[0].key), w.loc), u);
    }
  }

  /** What a turn adds to the lines of the run. */
  lemma TurnLines(m: Memory, q: seq<Task<Loc>>, fuel: nat)
    requires q != [] && Enumerate(m, q, fuel).done && fuel > 0
    ensures var res := CnfAt(m, q[0].item, fuel);
            && !res.Late?
            && (res.m == m ==>
                  var run := Enumerate(m, Left(res, q), fuel - 1);
                  && run.done
                  && Enumerate(m, q, fuel).lines ==
                     (if res.Value? && Shows0(m, q) then [Line(m, q[0].item, res.plain)] else []) + run.lines)
  {
  }

  /** A part that waits is printed at last. */
  lemma {:induction false} PartComes(m: Memory, live: map<Loc, Info>, q: seq<Task<Loc>>, fuel: nat, u: Tree)
    returns (i: nat)
    requires Wf(Graph(m.h, live)) && NoSubs(m.h) && AllLayered(Graph(m.h, live), q)
    requires Waits(Graph(m.h, live), q, u) && Enumerate(m, q, fuel).done
    ensures i < |Enumerate(m, q, fuel).lines| && Prints(Enumerate(m, q, fuel).lines[i], u)
    decreases fuel
  {
    var g := Graph(m.h, live);
    var loc, res := q[0].item, CnfAt(m, q[0].item, fuel);
    Ahead(g, q, u);
    TurnLines(m, q, fuel);
    LayerCnf(m, live, loc, fuel);
    if res.Value? {
      LayerTurn(m, g, q, u);
    }
    if res.Value? && Shows0(m, q) && ReadAt(g, loc) == u {
      assert Reads(Line(m, loc, res.plain), live, u);
      i := 0;
    } else {
      i := PartComes(m, live, Left(res, q), fuel - 1, u);
      i := if res.Value? && Shows0(m, q) then i + 1 else i;
    }
  }

  /** What is printed are exactly the values, each written out, just when the term is tame. */
  lemma LayeredExact(m: Memory, live: map<Loc, Info>, root: Loc, t: Tree) returns (n: nat)
    requires Poised(m, live, root, t) && NoSubs(m.h) && Layered(t)
    ensures forall k: nat :: n <= k ==>
              RunAt(m, root, k).done && (Exact(RunAt(m, root, k).lines, t) <==> Has(t, Tame))
  {
    var q := [Task(0, root)];
    n := CollapseEnds.CollapseEnds(m, live, q);
    forall k: nat | n <= k
      ensures RunAt(m, root, k).done && (Exact(RunAt(m, root, k).lines, t) <==> Has(t, Tame))
    {
      var lines := RunAt(m, root, k).lines;
      if Has(t, Tame) {
        TameExact(m, live, root, t, k);
      } else if Exact(lines, t) {
        var u := WildPart(t);
        assert q[0] in q;
        var i := PartComes(m, live, q, k, u);
        var v := ExactNormal(lines, t, i);
        PrintsOne(lines[i], u, v);
      }
    }
  }
}
