/**
 Parallel normalisation, `clang/eval/normalize.c`: any number of workers traverse the heap from a root
 location, each with a work-stealing deque, sharing a visited set and a counter of active workers.

 The deques are the atomic queues that `ChaseLev.RunRefines` shows them to be. What an evaluation
 returns is the environment's choice, so the theorems hold whatever `wnf_at` computes.
 */
module Normalize {
  type Loc = nat

  /** The part of an evaluated term the traversal looks at. */
  datatype Result =
    | Copy(t: Loc)               // DP0 or DP1: go on at the shared expression
    | Node(t: Loc, ari: nat)     // any other term: visit its `ari` slots

  /** What a worker does next inside `eval_normalize_go`. */
  datatype Job =
    | Visit(loc: Loc)
    | Evaluate(loc: Loc)
    | Feed(t: Loc, i: nat)       // slots t .. t+i-1 remain: enqueue the last one, or go on at t

  /** Program counter of `eval_normalize_worker`. `rest` holds the callers of nested `go` calls. */
  datatype Pc =
    | Loop
    | Popping
    | Scanning(k: nat)
    | Enlisting(k: nat, v: nat)
    | Stealing(k: nat, v: nat)
    | Busy(job: Job, rest: seq<Job>)
    | Exited

  datatype Worker = Worker(active: bool, pc: Pc)

  /** `results` and `order` record the run: what each evaluation returned, and when. */
  datatype State = State(
    workers: seq<Worker>, queues: seq<seq<Loc>>, pending: int, seen: set<Loc>,
    results: map<Loc, Result>, order: seq<Loc>)

  /** `limit` is the number of bits of the visited set, `cap` the capacity of each deque. */
  datatype Config = Config(limit: nat, cap: nat, root: Loc)

  datatype Action =
    | ReadPending
    | PopTask
    | LookAt(v: nat, some: bool)  // wsq_can_steal on worker v
    | Enlist
    | StealTask(ok: bool)
    | EndScan
    | Advance(res: Result, ok: bool)

  // ---------------------------------------------------------------------------
  // Steps
  // ---------------------------------------------------------------------------

  predicate Enabled(s: State, w: nat, a: Action) {
    && w < |s.workers| == |s.queues|
    && var pc := s.workers[w].pc;
       match a
       case ReadPending => pc.Loop?
       case PopTask => pc.Popping?
       case LookAt(v, _) => pc.Scanning? && pc.k + 1 < |s.workers| && v < |s.workers|
       case Enlist => pc.Enlisting?
       case StealTask(_) => pc.Stealing? && pc.v < |s.workers|
       case EndScan => pc.Scanning? && pc.k + 1 >= |s.workers|
       case Advance(_, _) => pc.Busy?
  }

  function Goto(s: State, w: nat, pc: Pc): State
    requires w < |s.workers|
  {
    s.(workers := s.workers[w := s.workers[w].(pc := pc)])
  }

  /** Return from the current `go`: to the caller that was feeding slots, or to the main loop. */
  function Return(rest: seq<Job>): Pc {
    if rest == [] then Loop else Busy(rest[|rest| - 1], rest[..|rest| - 1])
  }

  /** One step of `eval_normalize_go`: the visited-set test, the evaluation, or one enqueue. */
  function GoStep(c: Config, s: State, w: nat, res: Result, ok: bool): State
    requires Enabled(s, w, Advance(res, ok))
  {
    var rest := s.workers[w].pc.rest;
    match s.workers[w].pc.job
    case Visit(loc) =>
      if loc == 0 || c.limit <= loc || loc in s.seen then Goto(s, w, Return(rest))
      else Goto(s, w, Busy(Evaluate(loc), rest)).(seen := s.seen + {loc})
    case Evaluate(loc) =>
      var s1 := s.(results := s.results[loc := res], order := s.order + [loc]);
      (match res
       case Copy(t) => Goto(s1, w, Busy(Visit(t), rest))
       case Node(t, ari) => Goto(s1, w, if ari == 0 then Return(rest) else Busy(Feed(t, ari), rest)))
    case Feed(t, i) =>
      if i <= 1 then Goto(s, w, Busy(Visit(t), rest))
      else if ok && |s.queues[w]| < c.cap then
        Goto(s, w, Busy(Feed(t, i - 1), rest)).(queues := s.queues[w := s.queues[w] + [t + i - 1]])
      else
        Goto(s, w, Busy(Visit(t + i - 1), rest + [Feed(t, i - 1)]))
  }

  function Step(c: Config, s: State, w: nat, a: Action): State
    requires Enabled(s, w, a)
  {
    var me := s.workers[w];
    match a
    case ReadPending =>
      Goto(s, w, if s.pending == 0 then Exited else Popping)
    case PopTask =>
      var q := s.queues[w];
      if q == [] then Goto(s, w, Scanning(0))
      else Goto(s, w, Busy(Visit(q[|q| - 1]), [])).(queues := s.queues[w := q[..|q| - 1]])
    case LookAt(v, some) =>
      if v == w || !some then Goto(s, w, Scanning(me.pc.k + 1))
      else Goto(s, w, if me.active then Stealing(me.pc.k, v) else Enlisting(me.pc.k, v))
    case Enlist =>
      s.(pending := s.pending + 1, workers := s.workers[w := Worker(true, Stealing(me.pc.k, me.pc.v))])
    case StealTask(ok) =>
      var q := s.queues[me.pc.v];
      if ok && q != [] then Goto(s, w, Busy(Visit(q[0]), [])).(queues := s.queues[me.pc.v := q[1..]])
      else Goto(s, w, Scanning(me.pc.k + 1))
    case EndScan =>
      if me.active then s.(pending := s.pending - 1, workers := s.workers[w := Worker(false, Loop)])
      else Goto(s, w, Loop)
    case Advance(res, ok) =>
      GoStep(c, s, w, res, ok)
  }

  predicate Init(c: Config, s: State) {
    && 0 < |s.workers| == |s.queues|
    && 0 < c.root < c.limit
    && (forall w :: 0 <= w < |s.workers| ==> s.workers[w] == Worker(true, Loop))
    && (forall w :: 0 <= w < |s.workers| ==> s.queues[w] == if w == 0 then [c.root] else [])
    && s.pending == |s.workers|
    && s.seen == {} && s.results == map[] && s.order == []
  }

  // ---------------------------------------------------------------------------
  // Termination detection
  // ---------------------------------------------------------------------------

  function ActiveCount(ws: seq<Worker>): (k: nat)
    ensures k == 0 ==> forall w :: 0 <= w < |ws| ==> !ws[w].active
  {
    if ws == [] then 0
    else
      var n := |ws| - 1;
      ActiveCount(ws[..n]) + if ws[n].active then 1 else 0
  }

  lemma {:induction false} ActiveCountUpdate(ws: seq<Worker>, w: nat, x: Worker)
    requires w < |ws|
    ensures ActiveCount(ws[w := x])
         == ActiveCount(ws) + (if x.active then 1 else 0) - (if ws[w].active then 1 else 0)
  {
    var n := |ws| - 1;
    if w == n {
      assert ws[w := x][..n] == ws[..n];
    } else {
      ActiveCountUpdate(ws[..n], w, x);
      assert ws[w := x][..n] == ws[..n][w := x];
    }
  }

  lemma {:induction false} AllActive(ws: seq<Worker>)
    requires forall w :: 0 <= w < |ws| ==> ws[w].active
    ensures ActiveCount(ws) == |ws|
  {
    if ws != [] {
      AllActive(ws[..|ws| - 1]);
    }
  }

  /** A worker that may be counted out has nothing to do, and nothing left to offer. */
  predicate WorkerOk(me: Worker, q: seq<Loc>, n: nat) {
    && (me.pc.Busy? || me.pc.Stealing? ==> me.active)
    && (me.pc.Enlisting? ==> !me.active)
    && (me.pc.Scanning? || me.pc.Enlisting? || me.pc.Stealing? ==> q == [])
    && (!me.active ==> q == [])
    && (me.pc.Enlisting? || me.pc.Stealing? ==> me.pc.v < n)
  }

  /** No task is queued and no worker is working on one. */
  predicate Quiet(s: State)
    requires |s.workers| == |s.queues|
  {
    forall w :: 0 <= w < |s.workers| ==> s.queues[w] == [] && !s.workers[w].pc.Busy?
  }

  predicate CountInv(s: State) {
    && |s.workers| == |s.queues|
    && s.pending == ActiveCount(s.workers)
    && (forall w :: 0 <= w < |s.workers| ==> WorkerOk(s.workers[w], s.queues[w], |s.workers|))
    && ((exists w :: 0 <= w < |s.workers| && s.workers[w].pc.Exited?) ==> Quiet(s))
  }

  lemma CountInvInit(c: Config, s: State)
    requires Init(c, s)
    ensures CountInv(s)
  {
    AllActive(s.workers);
  }

  lemma StepKeepsCount(c: Config, s: State, w: nat, a: Action)
    requires CountInv(s) && Enabled(s, w, a)
    ensures Step(c, s, w, a).pending == ActiveCount(Step(c, s, w, a).workers)
  {
    var s' := Step(c, s, w, a);
    assert s'.workers == s.workers[w := s'.workers[w]];
    ActiveCountUpdate(s.workers, w, s'.workers[w]);
  }

  lemma StepKeepsWorkers(c: Config, s: State, w: nat, a: Action)
    requires CountInv(s) && Enabled(s, w, a)
    ensures var s' := Step(c, s, w, a);
            |s'.workers| == |s'.queues| == |s.workers|
            && forall v :: 0 <= v < |s'.workers| ==> WorkerOk(s'.workers[v], s'.queues[v], |s'.workers|)
  {
    assert WorkerOk(s.workers[w], s.queues[w], |s.workers|);
  }

  /** Once quiet, always quiet: no step makes a task out of nothing. */
  lemma StepKeepsQuiet(c: Config, s: State, w: nat, a: Action)
    requires |s.workers| == |s.queues| && Quiet(s) && Enabled(s, w, a)
    ensures var s' := Step(c, s, w, a); |s'.workers| == |s'.queues| && Quiet(s') && s'.seen == s.seen
  {
  }

  /** A worker that reads zero may leave: there is no task anywhere. */
  lemma ZeroMeansQuiet(s: State)
    requires CountInv(s) && s.pending == 0
    ensures Quiet(s)
  {
    forall w | 0 <= w < |s.workers|
      ensures s.queues[w] == [] && !s.workers[w].pc.Busy?
    {
      assert WorkerOk(s.workers[w], s.queues[w], |s.workers|);
    }
  }

  lemma StepKeepsCountInv(c: Config, s: State, w: nat, a: Action)
    requires CountInv(s) && Enabled(s, w, a)
    ensures CountInv(Step(c, s, w, a))
  {
    StepKeepsCount(c, s, w, a);
    StepKeepsWorkers(c, s, w, a);
    if s.pending == 0 {
      ZeroMeansQuiet(s);
    }
    if Quiet(s) {
      StepKeepsQuiet(c, s, w, a);
    }
  }

  // ---------------------------------------------------------------------------
  // Coverage
  // ---------------------------------------------------------------------------

  /** The locations an evaluation hands on. */
  predicate IsChild(r: Result, l: Loc) {
    match r
    case Copy(t) => l == t
    case Node(t, ari) => t <= l < t + ari
  }

  predicate JobHas(j: Job, l: Loc) {
    match j
    case Visit(loc) => l == loc
    case Evaluate(_) => false
    case Feed(t, i) => t <= l < t + i
  }

  predicate Carries(pc: Pc, l: Loc) {
    pc.Busy? && (JobHas(pc.job, l) || exists j :: 0 <= j < |pc.rest| && JobHas(pc.rest[j], l))
  }

  predicate Holds(s: State, w: nat, l: Loc)
    requires w < |s.workers| == |s.queues|
  {
    l in s.queues[w] || Carries(s.workers[w].pc, l)
  }

  /** A location that needs no visit, has had it, or is still to get it. */
  ghost predicate Covered(c: Config, s: State, l: Loc)
    requires |s.workers| == |s.queues|
  {
    l == 0 || c.limit <= l || l in s.seen || exists w: nat :: w < |s.workers| && Holds(s, w, l)
  }

  ghost predicate CoverInv(c: Config, s: State) {
    && |s.workers| == |s.queues|
    && Covered(c, s, c.root)
    && forall p, l :: p in s.results && IsChild(s.results[p], l) ==> Covered(c, s, l)
  }

  predicate Evaluating(s: State, w: nat, l: Loc)
    requires w < |s.workers|
  {
    s.workers[w].pc.Busy? && s.workers[w].pc.job == Evaluate(l)
  }

  /** A location in the visited set is evaluated, or is being evaluated by exactly one worker. */
  ghost predicate OnceInv(s: State) {
    && (forall i, j :: 0 <= i < j < |s.order| ==> s.order[i] != s.order[j])
    && (forall l :: l in s.order <==> l in s.results)
    && s.results.Keys <= s.seen
    && (forall w: nat, l :: w < |s.workers| && Evaluating(s, w, l) ==> l in s.seen && l !in s.results)
    && (forall v: nat, w: nat, l ::
          v < |s.workers| && w < |s.workers| && Evaluating(s, v, l) && Evaluating(s, w, l) ==> v == w)
    && (forall l :: l in s.seen && l !in s.results ==> exists w: nat :: w < |s.workers| && Evaluating(s, w, l))
    && (forall w: nat :: w < |s.workers| && s.workers[w].pc.Busy? ==> OnlyFeeds(s.workers[w].pc.rest))
  }

  /** Suspended calls are all in their enqueue loop. */
  predicate OnlyFeeds(js: seq<Job>) {
    forall j :: 0 <= j < |js| ==> js[j].Feed?
  }

  /** What `go` carries is kept by each of its steps: passed on, or entered in the visited set. */
  lemma GoKeepsHeld(c: Config, s: State, w: nat, res: Result, ok: bool, l: Loc)
    requires Enabled(s, w, Advance(res, ok)) && Holds(s, w, l)
    ensures var s' := GoStep(c, s, w, res, ok);
            |s'.workers| == |s'.queues| && (l == 0 || c.limit <= l || l in s'.seen || Holds(s', w, l))
  {
    var s' := GoStep(c, s, w, res, ok);
    var pc, pc' := s.workers[w].pc, s'.workers[w].pc;
    if l in s.queues[w] {
      assert l in s'.queues[w];
    } else if JobHas(pc.job, l) {
      if pc.job.Feed? && pc.job.i > 1 {
        var last := pc.job.t + pc.job.i - 1;
        if s'.queues == s.queues {
          assert pc'.rest[|pc.rest|] == Feed(pc.job.t, pc.job.i - 1);
        } else {
          assert s'.queues[w][|s.queues[w]|] == last;
        }
      }
    } else {
      var j :| 0 <= j < |pc.rest| && JobHas(pc.rest[j], l);
      if pc'.Busy? {
        assert j < |pc'.rest| ==> pc'.rest[j] == pc.rest[j];
      }
    }
  }

  lemma StepKeepsHeld(c: Config, s: State, w: nat, a: Action, v: nat, l: Loc)
    requires Enabled(s, w, a) && v < |s.workers| && Holds(s, v, l)
    ensures var s' := Step(c, s, w, a); |s'.workers| == |s'.queues| && Covered(c, s', l)
  {
    var s' := Step(c, s, w, a);
    if v != w {
      if a.StealTask? && v == s.workers[w].pc.v && s'.queues != s.queues && l == s.queues[v][0] {
        assert Holds(s', w, l);
      } else {
        assert Holds(s', v, l);
      }
    } else if a.Advance? {
      GoKeepsHeld(c, s, w, a.res, a.ok, l);
    } else if a.PopTask? && s'.queues != s.queues {
      assert Holds(s', w, l);
    } else if a.StealTask? && s'.queues != s.queues {
      assert Holds(s', w, l);
    } else {
      assert Holds(s', w, l);
    }
  }

  lemma StepKeepsCovered(c: Config, s: State, w: nat, a: Action, l: Loc)
    requires Enabled(s, w, a) && Covered(c, s, l)
    ensures var s' := Step(c, s, w, a); |s'.workers| == |s'.queues| && Covered(c, s', l)
  {
    if !(l == 0 || c.limit <= l || l in s.seen) {
      var v: nat :| v < |s.workers| && Holds(s, v, l);
      StepKeepsHeld(c, s, w, a, v, l);
    }
  }

  lemma StepKeepsCover(c: Config, s: State, w: nat, a: Action)
    requires CoverInv(c, s) && Enabled(s, w, a)
    ensures CoverInv(c, Step(c, s, w, a))
  {
    var s' := Step(c, s, w, a);
    StepKeepsCovered(c, s, w, a, c.root);
    forall p, l | p in s'.results && IsChild(s'.results[p], l)
      ensures Covered(c, s', l)
    {
      if p in s.results && s'.results[p] == s.results[p] {
        StepKeepsCovered(c, s, w, a, l);
      } else {
        assert a.Advance? && s'.results[p] == a.res;
        assert Holds(s', w, l);
      }
    }
  }

  // ---------------------------------------------------------------------------
  // Each location at most once
  // ---------------------------------------------------------------------------

  lemma OthersUnmoved(c: Config, s: State, w: nat, a: Action)
    requires Enabled(s, w, a)
    ensures var s' := Step(c, s, w, a);
            && |s'.workers| == |s.workers|
            && (forall v :: 0 <= v < |s.workers| && v != w ==> s'.workers[v] == s.workers[v])
  {
  }

  lemma StepKeepsFeeds(c: Config, s: State, w: nat, a: Action)
    requires OnceInv(s) && Enabled(s, w, a)
    ensures var s' := Step(c, s, w, a);
            s'.workers[w].pc.Busy? ==> OnlyFeeds(s'.workers[w].pc.rest)
  {
  }

  /** The only step that changes what is being evaluated or has been is one of `go`. */
  lemma OtherStepsKeepOnce(c: Config, s: State, w: nat, a: Action)
    requires OnceInv(s) && Enabled(s, w, a)
    requires Step(c, s, w, a).seen == s.seen && (a.Advance? ==> !s.workers[w].pc.job.Evaluate?)
    ensures OnceInv(Step(c, s, w, a))
  {
    var s' := Step(c, s, w, a);
    OthersUnmoved(c, s, w, a);
    StepKeepsFeeds(c, s, w, a);
    assert forall v: nat, l :: v < |s.workers| ==> (Evaluating(s', v, l) <==> Evaluating(s, v, l));
  }

  lemma VisitKeepsOnce(c: Config, s: State, w: nat, a: Action)
    requires OnceInv(s) && Enabled(s, w, a) && a.Advance? && s.workers[w].pc.job.Visit?
    requires Step(c, s, w, a).seen != s.seen
    ensures OnceInv(Step(c, s, w, a))
  {
    var s' := Step(c, s, w, a);
    var loc := s.workers[w].pc.job.loc;
    OthersUnmoved(c, s, w, a);
    assert Evaluating(s', w, loc);
    assert forall v: nat, l :: v < |s.workers| && v != w ==> (Evaluating(s', v, l) <==> Evaluating(s, v, l));
    assert forall l :: Evaluating(s', w, l) ==> l == loc;
  }

  lemma EvaluateKeepsOnce(c: Config, s: State, w: nat, a: Action)
    requires OnceInv(s) && Enabled(s, w, a) && a.Advance? && s.workers[w].pc.job.Evaluate?
    ensures OnceInv(Step(c, s, w, a))
  {
    var s' := Step(c, s, w, a);
    var loc := s.workers[w].pc.job.loc;
    OthersUnmoved(c, s, w, a);
    StepKeepsFeeds(c, s, w, a);
    assert Evaluating(s, w, loc);
    assert forall v: nat, l :: v < |s.workers| && v != w ==> (Evaluating(s', v, l) <==> Evaluating(s, v, l));
    assert forall l :: !Evaluating(s', w, l);
    assert forall l :: l in s'.order <==> l in s.order || l == loc;
  }

  lemma StepKeepsOnce(c: Config, s: State, w: nat, a: Action)
    requires OnceInv(s) && Enabled(s, w, a)
    ensures OnceInv(Step(c, s, w, a))
  {
    if a.Advance? && s.workers[w].pc.job.Evaluate? {
      EvaluateKeepsOnce(c, s, w, a);
    } else if Step(c, s, w, a).seen != s.seen {
      VisitKeepsOnce(c, s, w, a);
    } else {
      OtherStepsKeepOnce(c, s, w, a);
    }
  }

  // ---------------------------------------------------------------------------
  // Whole runs
  // ---------------------------------------------------------------------------

  ghost predicate CanRun(c: Config, s: State, run: seq<(nat, Action)>)
    decreases |run|
  {
    run != [] ==> Enabled(s, run[0].0, run[0].1) && CanRun(c, Step(c, s, run[0].0, run[0].1), run[1..])
  }

  ghost function After(c: Config, s: State, run: seq<(nat, Action)>): State
    requires CanRun(c, s, run)
    decreases |run|
  {
    if run == [] then s else After(c, Step(c, s, run[0].0, run[0].1), run[1..])
  }

  ghost predicate Inv(c: Config, s: State) {
    CountInv(s) && CoverInv(c, s) && OnceInv(s)
  }

  lemma InitInv(c: Config, s: State)
    requires Init(c, s)
    ensures Inv(c, s)
  {
    CountInvInit(c, s);
    assert s.queues[0] == [c.root];
    assert Holds(s, 0, c.root);
  }

  lemma {:induction false} RunKeepsInv(c: Config, s: State, run: seq<(nat, Action)>)
    requires Inv(c, s) && CanRun(c, s, run)
    ensures Inv(c, After(c, s, run))
    decreases |run|
  {
    if run != [] {
      var (w, a) := run[0];
      StepKeepsCountInv(c, s, w, a);
      StepKeepsCover(c, s, w, a);
      StepKeepsOnce(c, s, w, a);
      RunKeepsInv(c, Step(c, s, w, a), run[1..]);
    }
  }

  lemma {:induction false} RunKeepsQuiet(c: Config, s: State, run: seq<(nat, Action)>)
    requires |s.workers| == |s.queues| && Quiet(s) && CanRun(c, s, run)
    ensures var s' := After(c, s, run); |s'.workers| == |s'.queues| && Quiet(s') && s'.seen == s.seen
    decreases |run|
  {
    if run != [] {
      StepKeepsQuiet(c, s, run[0].0, run[0].1);
      RunKeepsQuiet(c, Step(c, s, run[0].0, run[0].1), run[1..]);
    }
  }

  /**
   Termination detection, for any number of workers and any interleaving. The counter is the number of
   active workers, and when it is zero, or when some worker has left, no task is queued or in progress,
   then or at any later time.
   */
  lemma ZeroIsFinal(c: Config, s: State, run: seq<(nat, Action)>, later: seq<(nat, Action)>)
    requires Init(c, s) && CanRun(c, s, run) && CanRun(c, After(c, s, run), later)
    ensures var s1 := After(c, s, run); var s2 := After(c, s1, later);
            && s1.pending == ActiveCount(s1.workers)
            && |s2.workers| == |s2.queues|
            && (s1.pending == 0 || (exists w :: 0 <= w < |s1.workers| && s1.workers[w].pc.Exited?)
                ==> Quiet(s2) && s2.seen == s1.seen)
  {
    InitInv(c, s);
    RunKeepsInv(c, s, run);
    var s1 := After(c, s, run);
    RunKeepsInv(c, s1, later);
    if s1.pending == 0 {
      ZeroMeansQuiet(s1);
    }
    if Quiet(s1) {
      RunKeepsQuiet(c, s1, later);
    }
  }

  /** In every run, at every moment, no location has been evaluated twice. */
  lemma EvaluatedOnce(c: Config, s: State, run: seq<(nat, Action)>)
    requires Init(c, s) && CanRun(c, s, run)
    ensures var order := After(c, s, run).order;
            forall i, j :: 0 <= i < j < |order| ==> order[i] != order[j]
  {
    InitInv(c, s);
    RunKeepsInv(c, s, run);
  }

  /**
   Completeness of the traversal: once any worker has left, the root has been evaluated, and so has
   every location that the evaluation of an evaluated location handed on.
   */
  lemma TraversalIsClosed(c: Config, s: State, run: seq<(nat, Action)>)
    requires Init(c, s) && CanRun(c, s, run)
    requires var ws := After(c, s, run).workers; exists w :: 0 <= w < |ws| && ws[w].pc.Exited?
    ensures var s' := After(c, s, run);
            && c.root in s'.results
            && s'.seen == s'.results.Keys
            && (forall p: Loc, l: Loc ::
                  p in s'.results && IsChild(s'.results[p], l) && 0 < l < c.limit ==> l in s'.results)
  {
    InitInv(c, s);
    RunKeepsInv(c, s, run);
    var s' := After(c, s, run);
    assert Quiet(s');
    assert forall l, w: nat :: w < |s'.workers| ==> !Holds(s', w, l);
    assert forall l :: l in s'.seen ==> l in s'.results;
    forall p: Loc, l: Loc | p in s'.results && IsChild(s'.results[p], l) && 0 < l < c.limit
      ensures l in s'.results
    {
      assert Covered(c, s', l);
    }
  }
}
