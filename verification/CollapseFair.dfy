/** Fairness of collapse, when no `INC` is met: every branch in the queue comes to its head within a bound. */
module CollapseFair {
  import opened Calculus
  import opened Reduction
  import opened Heap
  import opened KeyQueue
  import opened Machine
  import opened Cnf
  import opened Collapse
  import opened CollapseEnds
  import opened CollapseTame

  datatype Turned = Halted | Going(m: Memory, q: seq<Task<Loc>>)

  /** One turn of `Enumerate`; it halts where the fuel ends or an `INC` is met. */
  function Turn(m: Memory, q: seq<Task<Loc>>, fuel: nat): Turned {
    if q == [] then Going(m, q)
    else if fuel == 0 then Halted
    else
      match CnfAt(m, q[0].item, fuel)
      case Late => Halted
      case Gone(m') => Going(m', q[1..])
      case Value(m', _) =>
        var t := At(m'.h, q[0].item);
        if IsInc(t) then Halted
        else if IsSup(t) then Going(m', Push2(q[1..], q[0].key + 1, t.loc, t.loc + 1))
        else Going(m', q[1..])
  }

  function Spent(fuel: nat): nat {
    if fuel > 0 then fuel - 1 else 0
  }

  function Turns(m: Memory, q: seq<Task<Loc>>, fuel: nat, n: nat): Turned
    decreases n
  {
    if n == 0 then Going(m, q)
    else
      match Turn(m, q, fuel)
      case Halted => Halted
      case Going(m', q') => Turns(m', q', Spent(fuel), n - 1)
  }

  function SpentBy(fuel: nat, n: nat): nat {
    if n < fuel then fuel - n else 0
  }

  predicate EndsWith(lines: seq<Line>, tail: seq<Line>) {
    |tail| <= |lines| && lines[|lines| - |tail|..] == tail
  }

  /** The run `run` goes on as `later`. */
  predicate GoesOn(run: Run, later: Run) {
    run.done == later.done && EndsWith(run.lines, later.lines)
  }

  lemma GoesOnThen(a: Run, b: Run, c: Run)
    requires GoesOn(a, b) && GoesOn(b, c)
    ensures GoesOn(a, c)
  {
    var n := |a.lines| - |b.lines|;
    assert a.lines[|a.lines| - |c.lines|..] == a.lines[n..][|b.lines| - |c.lines|..];
  }

  lemma TurnIs(m: Memory, q: seq<Task<Loc>>, fuel: nat)
    requires Turn(m, q, fuel).Going?
    ensures GoesOn(Enumerate(m, q, fuel), Enumerate(Turn(m, q, fuel).m, Turn(m, q, fuel).q, Spent(fuel)))
  {
  }

  /** Turns of the queue are turns of the enumeration: what is printed later is printed by the queue they leave. */
  lemma {:induction false} TurnsAre(m: Memory, q: seq<Task<Loc>>, fuel: nat, n: nat)
    requires Turns(m, q, fuel, n).Going?
    ensures GoesOn(Enumerate(m, q, fuel), Enumerate(Turns(m, q, fuel, n).m, Turns(m, q, fuel, n).q, SpentBy(fuel, n)))
    decreases n
  {
    if n > 0 {
      TurnIs(m, q, fuel);
      var s := Turn(m, q, fuel);
      TurnsAre(s.m, s.q, Spent(fuel), n - 1);
      var s' := Turns(s.m, s.q, Spent(fuel), n - 1);
      assert SpentBy(Spent(fuel), n - 1) == SpentBy(fuel, n);
      GoesOnThen(Enumerate(m, q, fuel), Enumerate(s.m, s.q, Spent(fuel)), Enumerate(s'.m, s'.q, SpentBy(fuel, n)));
    }
  }

  // ---------------------------------------------------------------------------
  // The measure
  // ---------------------------------------------------------------------------

  const LAST: nat := 63

  function Pow3(n: nat): nat {
    if n == 0 then 1 else 3 * Pow3(n - 1)
  }

  function Weigh(key: nat): nat {
    if key <= LAST then Pow3(LAST - key) else 1
  }

  /** The weight of the tasks ahead. */
  function Weight<T>(q: seq<Task<T>>): nat {
    if q == [] then 0 else Weigh(q[0].key) + Weight(q[1..])
  }

  lemma {:induction false} InsertWeight<T>(q: seq<Task<T>>, t: Task<T>)
    ensures Weight(Insert(q, t)) == Weight(q) + Weigh(t.key)
  {
    if q == [] || t.key < q[0].key {
      assert ([t] + q)[1..] == q;
    } else {
      InsertWeight(q[1..], t);
      assert ([q[0]] + Insert(q[1..], t))[1..] == Insert(q[1..], t);
    }
  }

  predicate NotAfter<T>(pre: seq<Task<T>>, x: Task<T>) {
    forall i :: 0 <= i < |pre| ==> pre[i].key <= x.key
  }

  /** The queue `pre + [x] + post` with `t` put in: ahead of `x` or behind it. */
  predicate Inserted<T(==)>(q: seq<Task<T>>, pre: seq<Task<T>>, x: Task<T>, post: seq<Task<T>>, t: Task<T>) {
    if t.key < x.key then q == Insert(pre, t) + [x] + post else q == pre + [x] + Insert(post, t)
  }

  lemma FrontMore<T>(h: Task<T>, pre: seq<Task<T>>, x: Task<T>, post: seq<Task<T>>)
    ensures [h] + (pre + [x] + post) == ([h] + pre) + [x] + post
  {
  }

  lemma InsertBehind<T>(h: Task<T>, pre: seq<Task<T>>, t: Task<T>)
    requires t.key >= h.key
    ensures Insert([h] + pre, t) == [h] + Insert(pre, t)
  {
    assert ([h] + pre)[1..] == pre;
  }

  lemma InsertFirst<T>(h: Task<T>, pre: seq<Task<T>>, x: Task<T>, post: seq<Task<T>>, t: Task<T>)
    requires t.key >= h.key && Inserted(Insert(pre + [x] + post, t), pre, x, post, t)
    ensures Inserted([h] + Insert(pre + [x] + post, t), [h] + pre, x, post, t)
  {
    InsertBehind(h, pre, t);
    FrontMore(h, Insert(pre, t), x, post);
    FrontMore(h, pre, x, Insert(post, t));
  }

  /** A task with a smaller key goes ahead of `x`, any other behind it. */
  lemma {:induction false} InsertSide<T>(pre: seq<Task<T>>, x: Task<T>, post: seq<Task<T>>, t: Task<T>)
    requires NotAfter(pre, x)
    ensures Inserted(Insert(pre + [x] + post, t), pre, x, post, t)
    ensures t.key < x.key ==> NotAfter(Insert(pre, t), x)
  {
    var q := pre + [x] + post;
    if pre == [] {
      assert q == [x] + post && q[1..] == post;
    } else {
      InsertSide(pre[1..], x, post, t);
      assert q[1..] == pre[1..] + [x] + post;
      assert pre == [pre[0]] + pre[1..];
      if t.key < pre[0].key {
        assert [t] + q == ([t] + pre) + [x] + post;
      } else {
        InsertFirst(pre[0], pre[1..], x, post, t);
      }
    }
  }

  lemma Lighter(key: nat)
    ensures key < LAST ==> 2 * Weigh(key + 1) < Weigh(key)
    ensures Weigh(key) >= 1
  {
    Positive(if key <= LAST then LAST - key else 0);
    if key < LAST {
      Positive(LAST - key - 1);
    }
  }

  lemma {:induction false} Positive(n: nat)
    ensures Pow3(n) >= 1
  {
    if n > 0 {
      Positive(n - 1);
    }
  }

  /** Two tasks one step further weigh less than the one they come from. */
  lemma BranchLighter<T>(h: Task<T>, pre: seq<Task<T>>, a: T, b: T)
    requires h.key < LAST
    ensures var k := Bucket(h.key + 1); Weight(Insert(Insert(pre, Task(k, a)), Task(k, b))) < Weight([h] + pre)
  {
    var k := Bucket(h.key + 1);
    assert ([h] + pre)[0] == h && ([h] + pre)[1..] == pre;
    Lighter(h.key);
    InsertWeight(pre, Task(k, a));
    InsertWeight(Insert(pre, Task(k, a)), Task(k, b));
  }

  /** After a turn `x` is still there, with less ahead of it. */
  lemma PushLighter<T>(h: Task<T>, pre: seq<Task<T>>, x: Task<T>, post: seq<Task<T>>, a: T, b: T)
    returns (pre': seq<Task<T>>, post': seq<Task<T>>)
    requires NotAfter([h] + pre, x) && x.key <= LAST
    ensures Push2(pre + [x] + post, h.key + 1, a, b) == pre' + [x] + post'
    ensures NotAfter(pre', x) && Weight(pre') < Weight([h] + pre)
  {
    var k := Bucket(h.key + 1);
    var ta, tb := Task(k, a), Task(k, b);
    assert ([h] + pre)[0] == h && ([h] + pre)[1..] == pre;
    assert forall i :: 0 <= i < |pre| ==> pre[i] == ([h] + pre)[i + 1];
    InsertSide(pre, x, post, ta);
    if k < x.key {
      InsertSide(Insert(pre, ta), x, post, tb);
      BranchLighter(h, pre, a, b);
      pre', post' := Insert(Insert(pre, ta), tb), post;
    } else {
      InsertSide(pre, x, Insert(post, ta), tb);
      Lighter(h.key);
      pre', post' := pre, Insert(Insert(post, ta), tb);
    }
  }

  lemma TurnLighter(m: Memory, h: Task<Loc>, rest: seq<Task<Loc>>, x: Task<Loc>, post: seq<Task<Loc>>, fuel: nat)
    returns (pre': seq<Task<Loc>>, post': seq<Task<Loc>>)
    requires NotAfter([h] + rest, x) && x.key <= LAST && Turn(m, [h] + (rest + [x] + post), fuel).Going?
    ensures Turn(m, [h] + (rest + [x] + post), fuel).q == pre' + [x] + post'
    ensures NotAfter(pre', x) && Weight(pre') < Weight([h] + rest)
  {
    var q := [h] + (rest + [x] + post);
    assert q[1..] == rest + [x] + post && ([h] + rest)[1..] == rest;
    assert forall i :: 0 <= i < |rest| ==> rest[i] == ([h] + rest)[i + 1];
    Lighter(h.key);
    var s := Turn(m, q, fuel);
    pre', post' := rest, post;
    if s.q != q[1..] {
      var t := At(s.m.h, h.item);
      pre', post' := PushLighter(h, rest, x, post, t.loc, t.loc + 1);
    }
  }

  lemma OneTurn(m: Memory, q: seq<Task<Loc>>, fuel: nat, n: nat)
    requires n > 0 && Turns(m, q, fuel, n).Going?
    ensures var s := Turn(m, q, fuel); s.Going? && Turns(s.m, s.q, Spent(fuel), n - 1).Going?
  {
  }

  /** After a turn the turns left are enough for what is then ahead of `x`. */
  lemma FairTurn(m: Memory, pre: seq<Task<Loc>>, x: Task<Loc>, post: seq<Task<Loc>>, fuel: nat)
    returns (pre': seq<Task<Loc>>, post': seq<Task<Loc>>)
    requires NotAfter(pre, x) && x.key <= LAST && pre != []
    requires Turns(m, pre + [x] + post, fuel, Weight(pre)).Going?
    ensures NotAfter(pre', x) && Weight(pre') < Weight(pre)
    ensures var s := Turn(m, pre + [x] + post, fuel);
            s.Going? && s.q == pre' + [x] + post' && Turns(s.m, s.q, Spent(fuel), Weight(pre')).Going?
  {
    var h, rest, q := pre[0], pre[1..], pre + [x] + post;
    assert pre == [h] + rest && q == [h] + (rest + [x] + post);
    Lighter(h.key);
    OneTurn(m, q, fuel, Weight(pre));
    pre', post' := TurnLighter(m, h, rest, x, post, fuel);
    var s := Turn(m, q, fuel);
    Shorter(s.m, s.q, Spent(fuel), Weight(pre'), Weight(pre) - 1);
  }

  /** Every branch comes to the head of the queue within as many turns as the weight of those ahead of it. */
  lemma {:induction false} Fair(m: Memory, pre: seq<Task<Loc>>, x: Task<Loc>, post: seq<Task<Loc>>, fuel: nat)
    returns (n: nat)
    requires NotAfter(pre, x) && x.key <= LAST
    requires Turns(m, pre + [x] + post, fuel, Weight(pre)).Going?
    ensures n <= Weight(pre)
    ensures Turns(m, pre + [x] + post, fuel, n).Going? && Turns(m, pre + [x] + post, fuel, n).q != []
    ensures Turns(m, pre + [x] + post, fuel, n).q[0] == x
    decreases Weight(pre)
  {
    n := 0;
    if pre != [] {
      var pre', post' := FairTurn(m, pre, x, post, fuel);
      n := Fair(Turn(m, pre + [x] + post, fuel).m, pre', x, post', Spent(fuel));
      n := n + 1;
    }
  }

  lemma {:induction false} Shorter(m: Memory, q: seq<Task<Loc>>, fuel: nat, a: nat, b: nat)
    requires a <= b && Turns(m, q, fuel, b).Going?
    ensures Turns(m, q, fuel, a).Going?
    decreases a
  {
    if a > 0 {
      var s := Turn(m, q, fuel);
      Shorter(s.m, s.q, Spent(fuel), a - 1, b - 1);
    }
  }

  // ---------------------------------------------------------------------------
  // Silent queues
  // ---------------------------------------------------------------------------

  /** No `INC` comes up from a silent cell. */
  lemma SilentHead(m: Memory, live: map<Loc, Info>, q: seq<Task<Loc>>, fuel: nat)
    requires QueueReady(m, live, q) && q != [] && AllHave(Graph(m.h, live), q, Silent)
    requires CnfAt(m, q[0].item, fuel).Value?
    ensures !IsInc(At(CnfAt(m, q[0].item, fuel).m.h, q[0].item))
  {
    var g, loc := Graph(m.h, live), q[0].item;
    assert q[0] in q;
    var g2, x := CnfAtKeeps(m, live, loc, fuel);
    HeadKept(g, g2, loc);
    KeepAt(ReadAt(g, loc), ReadAt(g2, loc), Silent);
    NotIncSilent(g2, loc);
  }

  /** A turn in which no `INC` comes up leaves what the enumeration goes on with. */
  lemma TurnLeaves(m: Memory, q: seq<Task<Loc>>, fuel: nat)
    requires q != [] && Enumerate(m, q, fuel).done && fuel > 0 && !CnfAt(m, q[0].item, fuel).Late?
    requires CnfAt(m, q[0].item, fuel).Value? ==> !IsInc(At(CnfAt(m, q[0].item, fuel).m.h, q[0].item))
    ensures var res := CnfAt(m, q[0].item, fuel);
            Turn(m, q, fuel) == Going(res.m, Left(res, q)) && Enumerate(res.m, Left(res, q), fuel - 1).done
  {
  }

  lemma SilentTurn(m: Memory, live: map<Loc, Info>, q: seq<Task<Loc>>, fuel: nat) returns (live2: map<Loc, Info>)
    requires QueueReady(m, live, q) && q != [] && AllHave(Graph(m.h, live), q, Silent) && Enumerate(m, q, fuel).done
    ensures var s := Turn(m, q, fuel);
            && s.Going? && QueueReady(s.m, live2, s.q) && AllHave(Graph(s.m.h, live2), s.q, Silent)
            && Enumerate(s.m, s.q, fuel - 1).done
  {
    live2 := TurnHas(m, live, q, fuel, Silent);
    if CnfAt(m, q[0].item, fuel).Value? {
      SilentHead(m, live, q, fuel);
    }
    TurnLeaves(m, q, fuel);
  }

  /** With enough fuel the turns go on for as long as one likes. */
  lemma {:induction false} SilentGoes(m: Memory, live: map<Loc, Info>, q: seq<Task<Loc>>, fuel: nat, n: nat)
    requires QueueReady(m, live, q) && AllHave(Graph(m.h, live), q, Silent) && Enumerate(m, q, fuel).done
    ensures Turns(m, q, fuel, n).Going?
    decreases n
  {
    if n > 0 {
      if q == [] {
        SilentGoes(m, live, q, Spent(fuel), n - 1);
      } else {
        var live2 := SilentTurn(m, live, q, fuel);
        var s := Turn(m, q, fuel);
        assert Spent(fuel) == fuel - 1;
        SilentGoes(s.m, live2, s.q, Spent(fuel), n - 1);
      }
    }
  }

  /** The task `x` comes to the head of the queue within `bound` turns. */
  ghost predicate Comes(m: Memory, q: seq<Task<Loc>>, fuel: nat, x: Task<Loc>, bound: nat) {
    exists n: nat ::
      n <= bound && Turns(m, q, fuel, n).Going? && Turns(m, q, fuel, n).q != [] && Turns(m, q, fuel, n).q[0] == x
  }

  /** No branch of a silent queue is left waiting. */
  lemma FairSilent(m: Memory, live: map<Loc, Info>, pre: seq<Task<Loc>>, x: Task<Loc>, post: seq<Task<Loc>>)
    returns (enough: nat)
    requires QueueReady(m, live, pre + [x] + post) && AllHave(Graph(m.h, live), pre + [x] + post, Silent)
    requires NotAfter(pre, x) && x.key <= LAST
    ensures forall fuel: nat :: enough <= fuel ==> Comes(m, pre + [x] + post, fuel, x, Weight(pre))
  {
    var q := pre + [x] + post;
    enough := CollapseEnds.CollapseEnds(m, live, q);
    forall fuel: nat | enough <= fuel
      ensures Comes(m, q, fuel, x, Weight(pre))
    {
      assert Enumerate(m, q, fuel).done;
      SilentGoes(m, live, q, fuel, Weight(pre));
      var n := Fair(m, pre, x, post, fuel);
    }
  }
}
