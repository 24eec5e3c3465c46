/**
 The worker loop of `clang/eval/collapse.c` with one worker: it takes cells from the key queue, and counts
 what it prints in batches, so as to stop at the output limit.
 */
module CollapseWorker {
  import opened Heap
  import opened KeyQueue
  import opened Machine
  import opened Cnf
  import opened Collapse

  function Min(a: nat, b: nat): nat {
    if a < b then a else b
  }

  /** The output: lines counted for all (`printed`), lines not yet counted (`local`), and the lines shown. */
  class Printer {
    const limit: nat
    const batch: nat
    var printed: nat
    var local: nat
    var stop: bool
    var shown: seq<Line>
    ghost var all: seq<Line>

    ghost predicate Valid()
      reads this
    {
      printed + local == |all| && (stop <==> limit <= |all|) && shown == all[..Min(limit, |all|)]
    }

    constructor (limit: nat, batch: nat)
      requires limit > 0
      ensures Valid() && this.limit == limit && all == []
    {
      this.limit, this.batch := limit, batch;
      printed, local, stop, shown, all := 0, 0, false, [], [];
    }

    /** The default case of `eval_collapse_process_loc`. */
    method Emit(line: Line)
      requires Valid()
      modifies this
      ensures Valid() && all == old(all) + [line]
    {
      all := all + [line];
      var globalPrinted := printed;
      local := local + 1;
      if globalPrinted + local >= limit && local > 0 {
        stop := true;
        printed := printed + local;
        local := 0;
      }
      if local >= batch {
        printed := printed + local;
        local := 0;
      }
      globalPrinted := printed;
      if globalPrinted + local <= limit {
        shown := shown + [line];
      }
    }
  }

  /** A run that has printed `sofar` and goes on like this. */
  function After(sofar: seq<Line>, run: Run): Run {
    run.(lines := sofar + run.lines)
  }

  /** The whole run is what was printed so far, and what the queue `q` prints from now on. */
  ghost predicate Goes(whole: Run, sofar: seq<Line>, m: Memory, q: seq<Task<Loc>>, fuel: nat) {
    whole == After(sofar, Enumerate(m, q, fuel))
  }

  lemma AfterTwice(a: seq<Line>, b: seq<Line>, run: Run)
    ensures After(a, After(b, run)) == After(a + b, run)
  {
    assert a + (b + run.lines) == (a + b) + run.lines;
  }

  // The turns of the loop, for the head of the queue

  lemma TurnLate(m: Memory, key: nat, loc: Loc, rest: seq<Task<Loc>>, fuel: nat, sofar: seq<Line>, whole: Run)
    requires (fuel == 0 || CnfAt(m, loc, fuel).Late?) && Goes(whole, sofar, m, [Task(key, loc)] + rest, fuel)
    ensures whole == Run(sofar, false)
  {
    assert sofar + [] == sofar;
  }

  lemma TurnGone(m: Memory, key: nat, loc: Loc, rest: seq<Task<Loc>>, fuel: nat, m': Memory, sofar: seq<Line>,
                 whole: Run)
    requires fuel > 0 && CnfAt(m, loc, fuel) == Gone(m')
    requires Goes(whole, sofar, m, [Task(key, loc)] + rest, fuel)
    ensures Goes(whole, sofar, m', rest, fuel - 1)
  {
    assert ([Task(key, loc)] + rest)[1..] == rest;
  }

  lemma TurnInc(m: Memory, key: nat, loc: Loc, rest: seq<Task<Loc>>, fuel: nat, m': Memory, plain: bool,
                sofar: seq<Line>, whole: Run)
    requires fuel > 0 && CnfAt(m, loc, fuel) == Value(m', plain) && IsInc(At(m'.h, loc))
    requires Goes(whole, sofar, m, [Task(key, loc)] + rest, fuel)
    ensures Goes(whole, sofar, m', [Task(Less(key), At(m'.h, loc).loc)] + rest, fuel - 1)
  {
    assert ([Task(key, loc)] + rest)[1..] == rest;
  }

  lemma TurnSup(m: Memory, key: nat, loc: Loc, rest: seq<Task<Loc>>, fuel: nat, m': Memory, plain: bool,
                sofar: seq<Line>, whole: Run)
    requires fuel > 0 && CnfAt(m, loc, fuel) == Value(m', plain) && IsSup(At(m'.h, loc))
    requires Goes(whole, sofar, m, [Task(key, loc)] + rest, fuel)
    ensures var sup := At(m'.h, loc).loc; Goes(whole, sofar, m', Push2(rest, key + 1, sup, sup + 1), fuel - 1)
  {
    assert ([Task(key, loc)] + rest)[1..] == rest;
  }

  lemma TurnPrint(m: Memory, key: nat, loc: Loc, rest: seq<Task<Loc>>, fuel: nat, m': Memory, plain: bool,
                  sofar: seq<Line>, whole: Run)
    requires fuel > 0 && CnfAt(m, loc, fuel) == Value(m', plain) && !IsInc(At(m'.h, loc)) && !IsSup(At(m'.h, loc))
    requires Goes(whole, sofar, m, [Task(key, loc)] + rest, fuel)
    ensures Goes(whole, sofar + [Line(m', loc, plain)], m', rest, fuel - 1)
  {
    assert ([Task(key, loc)] + rest)[1..] == rest;
    AfterTwice(sofar, [Line(m', loc, plain)], Enumerate(m', rest, fuel - 1));
  }

  method PushBoth(ws: Wspq<Loc>, key: nat, sup: Loc)
    requires ws.Valid() && |ws.bank| == 1
    modifies ws
    ensures ws.Valid() && |ws.bank| == 1 && ws.Queue(0) == Push2(old(ws.Queue(0)), key, sup, sup + 1)
  {
    ws.Push(0, key, sup);
    ws.Push(0, key, sup + 1);
  }

  /** A superposition: both sides go to the queue. */
  method Branch(p: Printer, ws: Wspq<Loc>, m: Memory, key: nat, loc: Loc, fuel: nat, m': Memory, ghost plain: bool,
                ghost whole: Run)
    requires ws.Valid() && |ws.bank| == 1 && fuel > 0
    requires CnfAt(m, loc, fuel) == Value(m', plain) && IsSup(At(m'.h, loc))
    requires Goes(whole, p.all, m, [Task(key, loc)] + ws.Queue(0), fuel)
    modifies ws
    ensures ws.Valid() && |ws.bank| == 1 && Goes(whole, p.all, m', ws.Queue(0), fuel - 1)
  {
    TurnSup(m, key, loc, ws.Queue(0), fuel, m', plain, p.all, whole);
    PushBoth(ws, key + 1, At(m'.h, loc).loc);
  }

  /** A value: it is printed. */
  method Show(p: Printer, ws: Wspq<Loc>, m: Memory, key: nat, loc: Loc, fuel: nat, m': Memory, plain: bool,
              ghost whole: Run)
    requires p.Valid() && ws.Valid() && |ws.bank| == 1 && fuel > 0
    requires CnfAt(m, loc, fuel) == Value(m', plain) && !IsInc(At(m'.h, loc)) && !IsSup(At(m'.h, loc))
    requires Goes(whole, p.all, m, [Task(key, loc)] + ws.Queue(0), fuel)
    modifies p
    ensures p.Valid() && Goes(whole, p.all, m', ws.Queue(0), fuel - 1)
  {
    TurnPrint(m, key, loc, ws.Queue(0), fuel, m', plain, p.all, whole);
    p.Emit(Line(m', loc, plain));
  }

  /** `eval_collapse_process_loc`: an `INC` is followed at once, with a smaller key. */
  method ProcessLoc(p: Printer, ws: Wspq<Loc>, m0: Memory, key0: nat, loc0: Loc, fuel0: nat, ghost whole: Run)
    returns (m: Memory, fuel: nat, late: bool)
    requires p.Valid() && ws.Valid() && |ws.bank| == 1
    requires Goes(whole, p.all, m0, [Task(key0, loc0)] + ws.Queue(0), fuel0)
    modifies p, ws
    ensures p.Valid() && ws.Valid() && |ws.bank| == 1 && fuel <= fuel0 && (late || fuel < fuel0)
    ensures if late then whole == Run(p.all, false) else Goes(whole, p.all, m, ws.Queue(0), fuel)
  {
    m, fuel := m0, fuel0;
    var key, loc := key0, loc0;
    while true
      invariant p.Valid() && ws.Valid() && |ws.bank| == 1 && fuel <= fuel0
      invariant Goes(whole, p.all, m, [Task(key, loc)] + ws.Queue(0), fuel)
      decreases fuel
    {
      ghost var rest := ws.Queue(0);
      if fuel == 0 {
        TurnLate(m, key, loc, rest, fuel, p.all, whole);
        return m, fuel, true;
      }
      match CnfAt(m, loc, fuel)
      case Late =>
        TurnLate(m, key, loc, rest, fuel, p.all, whole);
        return m, fuel, true;
      case Gone(m') =>
        TurnGone(m, key, loc, rest, fuel, m', p.all, whole);
        return m', fuel - 1, false;
      case Value(m', plain) =>
        var t := At(m'.h, loc);
        if IsInc(t) {
          TurnInc(m, key, loc, rest, fuel, m', plain, p.all, whole);
          m, fuel, key, loc := m', fuel - 1, Less(key), t.loc;
        } else if IsSup(t) {
          Branch(p, ws, m, key, loc, fuel, m', plain, whole);
          return m', fuel - 1, false;
        } else {
          Show(p, ws, m, key, loc, fuel, m', plain, whole);
          return m', fuel - 1, false;
        }
    }
  }

  /**
   `eval_collapse` on cell `root`: what is shown are the first `limit` lines of the whole enumeration,
   whatever the batch size; `done` if the queue ran empty or the limit was reached.
   */
  method EvalCollapse(m0: Memory, root: Loc, limit: nat, batch: nat, fuel0: nat) returns (shown: seq<Line>, done: bool)
    ensures var run := Enumerate(m0, [Task(0, root)], fuel0); shown == run.lines[..Min(limit, |run.lines|)]
    ensures var run := Enumerate(m0, [Task(0, root)], fuel0); done == (run.done || limit <= |run.lines|)
  {
    if limit == 0 {
      return [], true;
    }
    var p := new Printer(limit, batch);
    var ws := new Wspq<Loc>(1);
    ws.Push(0, 0, root);
    assert ws.Queue(0) == [Task(0, root)];
    AfterNone(Enumerate(m0, [Task(0, root)], fuel0));
    done := Drain(p, ws, m0, fuel0, Enumerate(m0, [Task(0, root)], fuel0));
    shown := p.shown;
  }

  lemma AfterNone(run: Run)
    ensures After([], run) == run
  {
    assert [] + run.lines == run.lines;
  }

  /** `eval_collapse_worker`. */
  method Drain(p: Printer, ws: Wspq<Loc>, m0: Memory, fuel0: nat, ghost whole: Run) returns (done: bool)
    requires p.Valid() && ws.Valid() && |ws.bank| == 1
    requires Goes(whole, p.all, m0, ws.Queue(0), fuel0)
    modifies p, ws
    ensures p.shown == whole.lines[..Min(p.limit, |whole.lines|)] && done == (whole.done || p.limit <= |whole.lines|)
  {
    var m, fuel, late := m0, fuel0, false;
    done := false;
    while !p.stop && !done && !late
      invariant p.Valid() && ws.Valid() && |ws.bank| == 1
      invariant if late then whole == Run(p.all, false) else Goes(whole, p.all, m, ws.Queue(0), fuel)
      invariant done ==> !late && ws.Queue(0) == []
      decreases fuel, !done && !late
    {
      var ok, key, loc := ws.Pop(0);
      if !ok {
        done := true;
      } else {
        m, fuel, late := ProcessLoc(p, ws, m, key, loc, fuel, whole);
      }
    }
    assert p.all + [] == p.all;
    done := done || p.stop;
  }
}
