/**
 The two readers of a DUP cell on two threads, `clang/heap/take.c` and the `DP0`/`DP1` cases of
 `clang/wnf/_.c`: a reader takes the cell by exchanging it with zero, and zero makes the other one spin.
 Memory is sequentially consistent; the expression in the cell may be reduced any number of times.
 */
module DupCell {
  type bit = b: nat | b < 2

  /** A word of the heap: `Taken` is zero, `Sub` is marked as a substitution. */
  datatype Cell<T> = Taken | Expr(e: T) | Sub(v: T)

  /**
   A reader: before the take, at work on the expression, with its copy, or back with the node unreduced
   (the reader is stuck or out of interactions, and may come back later).
   */
  datatype Reader<T> = Wants | Holds(e: T) | Has(v: T) | Back

  /** One interaction: the expression it fired on, and the two copies. */
  datatype Firing<T> = Firing(e: T, r0: T, r1: T)

  datatype State<T> = State(cell: Cell<T>, a: Reader<T>, b: Reader<T>, firings: seq<Firing<T>>)

  function Pc<T>(s: State<T>, i: bit): Reader<T> {
    if i == 0 then s.a else s.b
  }

  function At<T>(s: State<T>, i: bit, pc: Reader<T>): State<T> {
    if i == 0 then s.(a := pc) else s.(b := pc)
  }

  function Side<T>(f: Firing<T>, i: bit): T {
    if i == 0 then f.r0 else f.r1
  }

  /** A step of reader `i`. */
  datatype Action<T> =
    | Take(i: bit)
    | Reduce(i: bit, e: T)
    | Fire(i: bit, r0: T, r1: T)
    | PutBack(i: bit)
    | Again(i: bit)

  predicate Enabled<T>(s: State<T>, x: Action<T>) {
    match x
    case Take(i) => Pc(s, i).Wants?
    case Reduce(i, _) => Pc(s, i).Holds?
    case Fire(i, _, _) => Pc(s, i).Holds?
    case PutBack(i) => Pc(s, i).Holds?
    case Again(i) => Pc(s, i).Back?
  }

  function Step<T>(s: State<T>, x: Action<T>): State<T>
    requires Enabled(s, x)
  {
    match x
    case Take(i) =>
      // heap_take: an exchange with zero, which is tried again if it brought zero
      (match s.cell
       case Taken => s
       case Expr(e) => At(s, i, Holds(e)).(cell := Taken)
       case Sub(v) => At(s, i, Has(v)).(cell := Taken))
    case Reduce(i, e) => At(s, i, Holds(e))
    case Fire(i, r0, r1) =>
      // heap_subst_cop: the other copy goes to the cell
      var f := Firing(Pc(s, i).e, r0, r1);
      At(s, i, Has(Side(f, i))).(cell := Sub(Side(f, 1 - i)), firings := s.firings + [f])
    case PutBack(i) => At(s, i, Back).(cell := Expr(Pc(s, i).e))
    case Again(i) => At(s, i, Wants)
  }

  predicate Init<T>(s: State<T>) {
    s.cell.Expr? && s.a.Wants? && s.b.Wants? && s.firings == []
  }

  /** Some interleaving of the two readers. */
  ghost predicate Run<T(!new)>(trace: seq<State<T>>, acts: seq<Action<T>>) {
    && |trace| == |acts| + 1 && Init(trace[0])
    && forall n :: 0 <= n < |acts| ==> Enabled(trace[n], acts[n]) && trace[n + 1] == Step(trace[n], acts[n])
  }

  predicate Idle<T>(r: Reader<T>) {
    r.Wants? || r.Back?
  }

  /** Reader `i` has its copy of the interaction. */
  predicate Served<T(==)>(s: State<T>, i: bit) {
    |s.firings| == 1 && Pc(s, i) == Has(Side(s.firings[0], i))
  }

  /**
   Before the interaction the expression is in the cell or with one reader; after it, each reader has its own
   copy, or finds it in the cell.
   */
  predicate Inv<T(==)>(s: State<T>) {
    if s.firings == [] then
      || (s.cell.Expr? && Idle(s.a) && Idle(s.b))
      || (s.cell.Taken? && s.a.Holds? && Idle(s.b))
      || (s.cell.Taken? && s.b.Holds? && Idle(s.a))
    else
      && |s.firings| == 1
      && ((s.cell == Sub(s.firings[0].r1) && Served(s, 0) && Idle(s.b))
          || (s.cell == Sub(s.firings[0].r0) && Served(s, 1) && Idle(s.a))
          || (s.cell.Taken? && Served(s, 0) && Served(s, 1)))
  }

  lemma StepKeepsInv<T>(s: State<T>, x: Action<T>)
    requires Inv(s) && Enabled(s, x)
    ensures Inv(Step(s, x))
  {
  }

  lemma {:induction false} RunKeepsInv<T(!new)>(trace: seq<State<T>>, acts: seq<Action<T>>, n: nat)
    requires Run(trace, acts) && n < |trace|
    ensures Inv(trace[n])
  {
    if n > 0 {
      RunKeepsInv(trace, acts, n - 1);
      StepKeepsInv(trace[n - 1], acts[n - 1]);
    }
  }

  /** The interaction fires at most once, and a reader that has a copy has its own side of it. */
  lemma FiresOnce<T(!new)>(trace: seq<State<T>>, acts: seq<Action<T>>, n: nat)
    requires Run(trace, acts) && n < |trace|
    ensures |trace[n].firings| <= 1
    ensures forall i: bit :: Pc(trace[n], i).Has? ==> Served(trace[n], i)
  {
    RunKeepsInv(trace, acts, n);
  }

  /** The cell is zero exactly while a reader holds the expression, or when both have their copies. */
  lemma ZeroMeans<T(!new)>(trace: seq<State<T>>, acts: seq<Action<T>>, n: nat)
    requires Run(trace, acts) && n < |trace|
    ensures var s := trace[n]; s.cell.Taken? <==> (s.a.Holds? || s.b.Holds? || (s.a.Has? && s.b.Has?))
    ensures !(trace[n].a.Holds? && trace[n].b.Holds?)
  {
    RunKeepsInv(trace, acts, n);
  }

  /** So a reader that finds zero is never left alone with it: the other one holds the expression. */
  lemma SpinIsShort<T(!new)>(trace: seq<State<T>>, acts: seq<Action<T>>, n: nat, i: bit)
    requires Run(trace, acts) && n < |trace| && Pc(trace[n], i).Wants? && trace[n].cell.Taken?
    ensures Pc(trace[n], 1 - i).Holds?
  {
    RunKeepsInv(trace, acts, n);
  }
}
