/**
 Loops emitted for definitions that recurse on a unary constructor, `clang/aot/emit.c`: the shapes that are
 matched, the emitted loops, and the interactions of the definition they stand for.
 */
module AotLoops {
  const WORD := 0x1_0000_0000

  /** Book terms; a variable is the level of its binder, the outermost being 1. */
  datatype Code =
    | CVar(lvl: nat) | CLam(body: Code) | CMat(name: nat, hit: Code, mis: Code) | CApp(f: Code, x: Code)
    | CRef(id: nat) | CNum(n: nat) | CCtr1(name: nat, x: Code) | COp2(opr: nat, l: Code, r: Code)

  /** Terms at run time: functions are closed over the arguments taken so far. */
  datatype Term =
    | Num(n: nat) | Ctr(name: nat, args: seq<Term>) | Op2(opr: nat, l: Term, r: Term) | App(f: Term, x: Term)
    | Ref(id: nat) | Fun(body: Code, env: seq<Term>) | Mat(name: nat, hit: Code, mis: Code, env: seq<Term>)
    | Stuck(id: nat)

  datatype Def = Def(self: nat, code: Code)

  datatype Option<T> = None | Some(value: T)

  // ---------------------------------------------------------------------------
  // Interactions
  // ---------------------------------------------------------------------------

  function Inst(c: Code, env: seq<Term>): Term {
    match c
    case CVar(l) => if 1 <= l <= |env| then env[l - 1] else Stuck(l)
    case CLam(b) => Fun(b, env)
    case CMat(k, h, m) => Mat(k, h, m, env)
    case CApp(f, x) => App(Inst(f, env), Inst(x, env))
    case CRef(i) => Ref(i)
    case CNum(n) => Num(n)
    case CCtr1(k, x) => Ctr(k, [Inst(x, env)])
    case COp2(o, l, r) => Op2(o, Inst(l, env), Inst(r, env))
  }

  function ApplyAll(f: Term, args: seq<Term>): Term
    decreases |args|
  {
    if args == [] then f else ApplyAll(App(f, args[0]), args[1..])
  }

  datatype Out = Out(t: Term, cost: nat)

  /** One head step with its interactions: a reference unfolds for none, APP-LAM, APP-MAT and OP2 count one. */
  function Step(d: Def, t: Term): Option<Out> {
    match t
    case App(f, x) =>
      (match f
       case Ref(i) => if i == d.self then Some(Out(App(Inst(d.code, []), x), 0)) else None
       case Fun(b, env) => Some(Out(Inst(b, env + [x]), 1))
       case Mat(k, h, m, env) =>
         if x.Ctr? then
           if x.name == k then Some(Out(ApplyAll(Inst(h, env), x.args), 1)) else Some(Out(App(Inst(m, env), x), 1))
         else
           (match Step(d, x) case None => None case Some(o) => Some(Out(App(f, o.t), o.cost)))
       case _ => match Step(d, f) case None => None case Some(o) => Some(Out(App(o.t, x), o.cost)))
    case Op2(o, l, r) =>
      if l.Num? then
        if r.Num? && o == 0 then Some(Out(Num((l.n + r.n) % WORD), 1))
        else (match Step(d, r) case None => None case Some(s) => Some(Out(Op2(o, l, s.t), s.cost)))
      else (match Step(d, l) case None => None case Some(s) => Some(Out(Op2(o, s.t, r), s.cost)))
    case _ => None
  }

  /** In at most `k` steps `t` goes to `u` with `c` interactions; below a unary constructor they may go on. */
  predicate Goes(d: Def, t: Term, u: Term, c: nat, k: nat)
    decreases k
  {
    || (t == u && c == 0)
    || (k > 0 && Step(d, t).Some? && Step(d, t).value.cost <= c
        && Goes(d, Step(d, t).value.t, u, c - Step(d, t).value.cost, k - 1))
    || (k > 0 && Unary(t) && Unary(u) && t.name == u.name && Goes(d, t.args[0], u.args[0], c, k - 1))
  }

  predicate Unary(t: Term) {
    t.Ctr? && |t.args| == 1
  }

  // ---------------------------------------------------------------------------
  // Shapes
  // ---------------------------------------------------------------------------

  datatype Loop = Loop(zero: nat, succ: nat, tail: bool)

  predicate IsSelf2(c: Code, self: nat, x: Code, y: Code) {
    c.CApp? && c.x == y && c.f.CApp? && c.f.x == x && c.f.f == CRef(self)
  }

  /** `aot_match_loop_add` */
  function MatchAdd(d: Def): Option<Loop> {
    var c := d.code;
    if !c.CMat? || !c.hit.CLam? || c.hit.body != CVar(1) || !c.mis.CMat? || c.mis.mis != CNum(0) then None
    else if !c.mis.hit.CLam? || !c.mis.hit.body.CLam? then None
    else
      var body := c.mis.hit.body.body;
      if body.CCtr1? && body.name == c.mis.name && IsSelf2(body.x, d.self, CVar(1), CVar(2))
        then Some(Loop(c.name, c.mis.name, false))
      else if IsSelf2(body, d.self, CVar(1), CCtr1(c.mis.name, CVar(2))) then Some(Loop(c.name, c.mis.name, true))
      else None
  }

  /** `aot_match_loop_u32` */
  function MatchU32(d: Def): Option<Loop> {
    var c := d.code;
    if !c.CMat? || !c.mis.CMat? || c.mis.mis != CNum(0) || !c.mis.hit.CLam? then None
    else if c.hit == CNum(0) then
      if c.mis.hit.body == COp2(0, CNum(1), CApp(CRef(d.self), CVar(1)))
        then Some(Loop(c.name, c.mis.name, false))
        else None
    else if !c.hit.CLam? || c.hit.body != CVar(1) || !c.mis.hit.body.CLam? then None
    else if IsSelf2(c.mis.hit.body.body, d.self, CVar(1), COp2(0, CNum(1), CVar(2)))
      then Some(Loop(c.name, c.mis.name, true))
    else None
  }

  // ---------------------------------------------------------------------------
  // Inputs
  // ---------------------------------------------------------------------------

  /** `n` constructors around `e` */
  function Wrap(k: nat, n: nat, e: Term): Term {
    if n == 0 then e else Ctr(k, [Wrap(k, n - 1, e)])
  }

  function WrapAdd(n: nat, e: Term): Term {
    if n == 0 then e else Op2(0, Num(1), WrapAdd(n - 1, e))
  }

  /** What the recursion ends on: zero, or anything that is not a constructor. */
  predicate Ends(e: Term, l: Loop) {
    e == Ctr(l.zero, []) || !e.Ctr?
  }

  function Call2(d: Def, a: Term, b: Term): Term {
    App(App(Ref(d.self), a), b)
  }

  /** The call with its definition unfolded, as the emitted code leaves a stuck one. */
  function Left2(d: Def, a: Term, b: Term): Term {
    App(App(Inst(d.code, []), a), b)
  }

  // ---------------------------------------------------------------------------
  // Unfolding
  // ---------------------------------------------------------------------------

  /** Exactly `k` head steps. */
  predicate Heads(d: Def, t: Term, u: Term, c: nat, k: nat)
    decreases k
  {
    if k == 0 then t == u && c == 0
    else
      && Step(d, t).Some? && Step(d, t).value.cost <= c
      && Heads(d, Step(d, t).value.t, u, c - Step(d, t).value.cost, k - 1)
  }

  lemma Then(d: Def, t: Term, u: Term, c: nat, k: nat)
    requires Step(d, t).Some? && Heads(d, Step(d, t).value.t, u, c, k)
    ensures Heads(d, t, u, c + Step(d, t).value.cost, k + 1)
  {
  }

  lemma {:induction false} HeadsGo(d: Def, t: Term, u: Term, c: nat, k: nat, v: Term, c': nat, k': nat)
    requires Heads(d, t, u, c, k) && Goes(d, u, v, c', k')
    ensures Goes(d, t, v, c + c', k + k')
    decreases k
  {
    if k > 0 {
      HeadsGo(d, Step(d, t).value.t, u, c - Step(d, t).value.cost, k - 1, v, c', k');
    }
  }

  lemma {:induction false} HeadsHeads(d: Def, t: Term, u: Term, c: nat, k: nat, v: Term, c': nat, k': nat)
    requires Heads(d, t, u, c, k) && Heads(d, u, v, c', k')
    ensures Heads(d, t, v, c + c', k + k')
    decreases k
  {
    if k > 0 {
      HeadsHeads(d, Step(d, t).value.t, u, c - Step(d, t).value.cost, k - 1, v, c', k');
    }
  }

  /** A sum with a number on the left steps on the right. */
  lemma {:induction false} HeadsRight(d: Def, n: nat, t: Term, u: Term, c: nat, k: nat)
    requires Heads(d, t, u, c, k)
    ensures Heads(d, Op2(0, Num(n), t), Op2(0, Num(n), u), c, k)
    decreases k
  {
    if k > 0 {
      var s := Step(d, t).value;
      assert !t.Num?;
      HeadsRight(d, n, s.t, u, c - s.cost, k - 1);
    }
  }

  /** A zero gives the second argument, for two interactions. */
  lemma ZeroGoes(d: Def, zero: nat, b: Term)
    requires d.code.CMat? && d.code.name == zero && d.code.hit == CLam(CVar(1))
    ensures Heads(d, Call2(d, Ctr(zero, []), b), b, 2, 3)
  {
    var z := Ctr(zero, []);
    var t1 := Left2(d, z, b);
    var t2 := App(Fun(CVar(1), []), b);
    assert Step(d, t1) == Some(Out(t2, 1));
    assert Inst(CVar(1), [] + [b]) == b;
    Then(d, t2, b, 0, 0);
    Then(d, t1, b, 1, 1);
    Then(d, Call2(d, z, b), b, 2, 2);
  }

  predicate Shape(d: Def, zero: nat, succ: nat) {
    d.code.CMat? && d.code.name == zero && d.code.mis.CMat? && d.code.mis.name == succ && zero != succ
  }

  /** The definition is unfolded and its second case taken: two interactions. */
  lemma SuccCase(d: Def, zero: nat, succ: nat, p: Term)
    requires Shape(d, zero, succ)
    ensures Heads(d, App(Ref(d.self), Ctr(succ, [p])), App(Inst(d.code.mis.hit, []), p), 2, 3)
  {
    var x := Ctr(succ, [p]);
    var t3 := App(Inst(d.code.mis.hit, []), p);
    ApplyOne(Inst(d.code.mis.hit, []), p);
    Then(d, App(Inst(d.code.mis, []), x), t3, 0, 0);
    Then(d, App(Inst(d.code, []), x), t3, 1, 1);
    Then(d, App(Ref(d.self), x), t3, 2, 2);
  }

  lemma ApplyOne(f: Term, x: Term)
    ensures ApplyAll(f, [x]) == App(f, x)
  {
    assert ApplyAll(App(f, x), [x][1..]) == App(f, x);
  }

  /** A function steps with its argument waiting. */
  lemma {:induction false} HeadsLeft(d: Def, t: Term, u: Term, c: nat, k: nat, b: Term)
    requires Heads(d, t, u, c, k)
    ensures Heads(d, App(t, b), App(u, b), c, k)
    decreases k
  {
    if k > 0 {
      var s := Step(d, t).value;
      assert t.App? || t.Op2?;
      HeadsLeft(d, s.t, u, c - s.cost, k - 1, b);
    }
  }

  lemma SelfInst(c: Code, d: Def, x: Code, y: Code, env: seq<Term>)
    requires IsSelf2(c, d.self, x, y)
    ensures Inst(c, env) == Call2(d, Inst(x, env), Inst(y, env))
  {
    assert Inst(c.f, env) == App(Inst(c.f.f, env), Inst(x, env));
    assert Inst(c.f.f, env) == Ref(d.self);
  }

  /** A call of two arguments on a successor: two more interactions bind the field and the second one. */
  lemma SuccCase2(d: Def, zero: nat, succ: nat, body: Code, p: Term, b: Term)
    requires Shape(d, zero, succ) && d.code.mis.hit == CLam(CLam(body))
    ensures Heads(d, Call2(d, Ctr(succ, [p]), b), Inst(body, [p, b]), 4, 5)
  {
    SuccCase(d, zero, succ, p);
    HeadsLeft(d, App(Ref(d.self), Ctr(succ, [p])), App(Fun(CLam(body), []), p), 2, 3, b);
    var t3 := App(App(Fun(CLam(body), []), p), b);
    var t4 := App(Fun(body, [p]), b);
    assert [] + [p] == [p] && [p] + [b] == [p, b];
    Then(d, t4, Inst(body, [p, b]), 0, 0);
    assert Step(d, t3) == Some(Out(t4, 1));
    Then(d, t3, Inst(body, [p, b]), 1, 1);
    HeadsHeads(d, Call2(d, Ctr(succ, [p]), b), t3, 2, 3, Inst(body, [p, b]), 2, 2);
  }

  /** What a call is left with when its argument is not a constructor. */
  lemma StuckGoes(d: Def, e: Term, b: Term)
    ensures Heads(d, Call2(d, e, b), Left2(d, e, b), 0, 1)
    ensures Heads(d, App(Ref(d.self), e), App(Inst(d.code, []), e), 0, 1)
  {
    Then(d, Call2(d, e, b), Left2(d, e, b), 0, 0);
    Then(d, App(Ref(d.self), e), App(Inst(d.code, []), e), 0, 0);
  }

  /** What the recursion ends with, and its interactions. */
  function End2(d: Def, l: Loop, e: Term, b: Term): Term {
    if e.Ctr? then b else Left2(d, e, b)
  }

  function Last(e: Term): nat {
    if e.Ctr? then 2 else 0
  }

  lemma EndGoes(d: Def, l: Loop, e: Term, b: Term)
    requires d.code.CMat? && d.code.name == l.zero && d.code.hit == CLam(CVar(1)) && Ends(e, l)
    ensures Heads(d, Call2(d, e, b), End2(d, l, e, b), Last(e), if e.Ctr? then 3 else 1)
    ensures Goes(d, Call2(d, e, b), End2(d, l, e, b), Last(e), 3)
  {
    var r := End2(d, l, e, b);
    if e.Ctr? {
      ZeroGoes(d, l.zero, b);
      HeadsGo(d, Call2(d, e, b), r, 2, 3, r, 0, 0);
    } else {
      StuckGoes(d, e, b);
      HeadsGo(d, Call2(d, e, b), r, 0, 1, r, 0, 2);
    }
  }

  // ---------------------------------------------------------------------------
  // The recursions
  // ---------------------------------------------------------------------------

  /** `add` makes `n` successors around what it ends with, in `4n` interactions and those of the end. */
  lemma {:induction false} AddGoes(d: Def, l: Loop, n: nat, e: Term, b: Term)
    requires MatchAdd(d) == Some(l) && !l.tail && l.zero != l.succ && Ends(e, l)
    ensures Goes(d, Call2(d, Wrap(l.succ, n, e), b), Wrap(l.succ, n, End2(d, l, e, b)), 4 * n + Last(e), 6 * n + 3)
    decreases n
  {
    if n == 0 {
      EndGoes(d, l, e, b);
    } else {
      var p := Wrap(l.succ, n - 1, e);
      var r := Wrap(l.succ, n - 1, End2(d, l, e, b));
      AddGoes(d, l, n - 1, e, b);
      SuccCase2(d, l.zero, l.succ, d.code.mis.hit.body.body, p, b);
      var t := Ctr(l.succ, [Call2(d, p, b)]);
      SelfInst(d.code.mis.hit.body.body.x, d, CVar(1), CVar(2), [p, b]);
      assert Goes(d, t, Ctr(l.succ, [r]), 4 * (n - 1) + Last(e), 6 * (n - 1) + 3 + 1);
      HeadsGo(d, Call2(d, Ctr(l.succ, [p]), b), t, 4, 5, Ctr(l.succ, [r]), 4 * (n - 1) + Last(e), 6 * (n - 1) + 3 + 1);
    }
  }

  /** One turn of `add` with the accumulator. */
  lemma AddTurn(d: Def, l: Loop, p: Term, b: Term)
    requires MatchAdd(d) == Some(l) && l.tail && l.zero != l.succ
    ensures Heads(d, Call2(d, Ctr(l.succ, [p]), b), Call2(d, p, Ctr(l.succ, [b])), 4, 5)
  {
    var y := CCtr1(l.succ, CVar(2));
    SelfInst(d.code.mis.hit.body.body, d, CVar(1), y, [p, b]);
    assert Inst(y, [p, b]) == Ctr(l.succ, [Inst(CVar(2), [p, b])]);
    SuccCase2(d, l.zero, l.succ, d.code.mis.hit.body.body, p, b);
  }

  /** One turn of the sum with the accumulator. */
  lemma U32Turn(d: Def, l: Loop, p: Term, b: Term)
    requires MatchU32(d) == Some(l) && l.tail && l.zero != l.succ
    ensures Heads(d, Call2(d, Ctr(l.succ, [p]), b), Call2(d, p, Op2(0, Num(1), b)), 4, 5)
  {
    var y := COp2(0, CNum(1), CVar(2));
    SelfInst(d.code.mis.hit.body.body, d, CVar(1), y, [p, b]);
    assert Inst(y, [p, b]) == Op2(0, Inst(CNum(1), [p, b]), Inst(CVar(2), [p, b]));
    SuccCase2(d, l.zero, l.succ, d.code.mis.hit.body.body, p, b);
  }

  lemma {:induction false} WrapIn(k: nat, n: nat, e: Term)
    ensures Wrap(k, n, Ctr(k, [e])) == Wrap(k, n + 1, e)
  {
    if n > 0 {
      WrapIn(k, n - 1, e);
    }
  }

  lemma {:induction false} AddInside(n: nat, e: Term)
    ensures WrapAdd(n, Op2(0, Num(1), e)) == WrapAdd(n + 1, e)
  {
    if n > 0 {
      AddInside(n - 1, e);
    }
  }

  lemma {:induction false} AddTailGoes(d: Def, l: Loop, n: nat, e: Term, b: Term)
    requires MatchAdd(d) == Some(l) && l.tail && l.zero != l.succ
    ensures Heads(d, Call2(d, Wrap(l.succ, n, e), b), Call2(d, e, Wrap(l.succ, n, b)), 4 * n, 5 * n)
    decreases n
  {
    if n > 0 {
      var p, b1 := Wrap(l.succ, n - 1, e), Ctr(l.succ, [b]);
      AddTurn(d, l, p, b);
      AddTailGoes(d, l, n - 1, e, b1);
      WrapIn(l.succ, n - 1, b);
      HeadsHeads(d, Call2(d, Wrap(l.succ, n, e), b), Call2(d, p, b1), 4, 5, Call2(d, e, Wrap(l.succ, n, b)),
                 4 * (n - 1), 5 * (n - 1));
    }
  }

  lemma {:induction false} U32TailGoes(d: Def, l: Loop, n: nat, e: Term, b: Term)
    requires MatchU32(d) == Some(l) && l.tail && l.zero != l.succ
    ensures Heads(d, Call2(d, Wrap(l.succ, n, e), b), Call2(d, e, WrapAdd(n, b)), 4 * n, 5 * n)
    decreases n
  {
    if n > 0 {
      var p, b1 := Wrap(l.succ, n - 1, e), Op2(0, Num(1), b);
      U32Turn(d, l, p, b);
      U32TailGoes(d, l, n - 1, e, b1);
      AddInside(n - 1, b);
      HeadsHeads(d, Call2(d, Wrap(l.succ, n, e), b), Call2(d, p, b1), 4, 5, Call2(d, e, WrapAdd(n, b)), 4 * (n - 1),
                 5 * (n - 1));
    }
  }

  /** The sums left over are done one by one. */
  lemma {:induction false} SumsGo(d: Def, n: nat, x: nat)
    requires x < WORD
    ensures Heads(d, WrapAdd(n, Num(x)), Num((n + x) % WORD), n, n)
    decreases n
  {
    if n > 0 {
      SumsGo(d, n - 1, x);
      var m := (n - 1 + x) % WORD;
      HeadsRight(d, 1, WrapAdd(n - 1, Num(x)), Num(m), n - 1, n - 1);
      assert (1 + m) % WORD == (n + x) % WORD;
      Then(d, Op2(0, Num(1), Num(m)), Num((n + x) % WORD), 0, 0);
      HeadsHeads(d, WrapAdd(n, Num(x)), Op2(0, Num(1), Num(m)), n - 1, n - 1, Num((n + x) % WORD), 1, 1);
    }
  }

  function End1(d: Def, e: Term): Term {
    if e.Ctr? then Num(0) else App(Inst(d.code, []), e)
  }

  /** The sum without an accumulator leaves `n` sums around what it ends with. */
  lemma {:induction false} U32Goes(d: Def, l: Loop, n: nat, e: Term)
    requires MatchU32(d) == Some(l) && !l.tail && l.zero != l.succ && Ends(e, l)
    ensures Heads(d, App(Ref(d.self), Wrap(l.succ, n, e)), WrapAdd(n, End1(d, e)),
                  3 * n + (if e.Ctr? then 1 else 0), 4 * n + (if e.Ctr? then 2 else 1))
    decreases n
  {
    if n == 0 {
      if e.Ctr? {
        Then(d, App(Inst(d.code, []), e), Num(0), 0, 0);
        Then(d, App(Ref(d.self), e), Num(0), 1, 1);
      } else {
        StuckGoes(d, e, e);
      }
    } else {
      var p := Wrap(l.succ, n - 1, e);
      var t0 := App(Ref(d.self), Ctr(l.succ, [p]));
      var t2 := Op2(0, Num(1), App(Ref(d.self), p));
      var c, k := 3 * (n - 1) + (if e.Ctr? then 1 else 0), 4 * (n - 1) + (if e.Ctr? then 2 else 1);
      SuccCase(d, l.zero, l.succ, p);
      var t1 := App(Inst(d.code.mis.hit, []), p);
      U32Body(d, p);
      Then(d, t1, t2, 0, 0);
      HeadsHeads(d, t0, t1, 2, 3, t2, 1, 1);
      U32Goes(d, l, n - 1, e);
      HeadsRight(d, 1, App(Ref(d.self), p), WrapAdd(n - 1, End1(d, e)), c, k);
      HeadsHeads(d, t0, t2, 3, 4, WrapAdd(n, End1(d, e)), c, k);
    }
  }

  lemma U32Body(d: Def, p: Term)
    ensures Inst(COp2(0, CNum(1), CApp(CRef(d.self), CVar(1))), [] + [p]) == Op2(0, Num(1), App(Ref(d.self), p))
  {
    var c := CApp(CRef(d.self), CVar(1));
    assert [] + [p] == [p];
    assert Inst(c, [p]) == App(Inst(CRef(d.self), [p]), Inst(CVar(1), [p]));
  }

  // ---------------------------------------------------------------------------
  // The emitted loops
  // ---------------------------------------------------------------------------

  /** `aot_wrap_ctr1` */
  method WrapCtr1(k: nat, reps: nat, body: Term) returns (t: Term)
    ensures t == Wrap(k, reps, body)
  {
    t := body;
    for i := 0 to reps
      invariant t == Wrap(k, i, body)
    {
      t := Ctr(k, [t]);
    }
  }

  /** `aot_wrap_op2_num_lhs` for the sums with one */
  method WrapOp2NumLhs(reps: nat, body: Term) returns (t: Term)
    ensures t == WrapAdd(reps, body)
  {
    t := body;
    for i := 0 to reps
      invariant t == WrapAdd(i, body)
    {
      t := Op2(0, Num(1), t);
    }
  }

  predicate Is(t: Term, name: nat) {
    t.Ctr? && t.name == name
  }

  /** The loop with an accumulator goes where `n` unfoldings go, with the same interactions. */
  method AddTailLoop(d: Def, l: Loop, a: Term, b: Term, ghost n: nat, ghost e: Term) returns (r: Term, itrs: nat)
    requires MatchAdd(d) == Some(l) && l.tail && l.zero != l.succ && a == Wrap(l.succ, n, e) && Ends(e, l)
    ensures r == End2(d, l, e, Wrap(l.succ, n, b)) && itrs == 4 * n + Last(e)
    ensures Heads(d, Call2(d, a, b), r, itrs, 5 * n + (if e.Ctr? then 3 else 1))
  {
    var a0, b0 := a, b;
    ghost var m: nat := n;
    itrs := 0;
    while Is(a0, l.succ)
      invariant m <= n && a0 == Wrap(l.succ, m, e) && b0 == Wrap(l.succ, n - m, b) && itrs == 4 * (n - m)
      decreases m
    {
      itrs := itrs + 4;
      a0 := a0.args[0];
      b0 := Ctr(l.succ, [b0]);
      m := m - 1;
    }
    AddTailGoes(d, l, n, e, b);
    Tail(d, l, n, a, e, b, b0);
    if Is(a0, l.zero) {
      r, itrs := b0, itrs + 2;
    } else {
      r := Left2(d, a0, b0);
    }
  }

  /** The loop that counts. Its counter has 32 bits, so this goes where the recursion goes only up to there. */
  method AddLoop(d: Def, l: Loop, a: Term, b: Term, ghost n: nat, ghost e: Term) returns (r: Term, itrs: nat)
    requires MatchAdd(d) == Some(l) && !l.tail && l.zero != l.succ && a == Wrap(l.succ, n, e) && Ends(e, l)
    ensures r == Wrap(l.succ, n % WORD, End2(d, l, e, b)) && itrs == 4 * (n % WORD) + Last(e)
    ensures n < WORD ==> Goes(d, Call2(d, a, b), r, itrs, 6 * n + 3)
  {
    var a0, n0 := a, 0;
    ghost var m: nat := n;
    while Is(a0, l.succ)
      invariant m <= n && a0 == Wrap(l.succ, m, e) && n0 == (n - m) % WORD
      decreases m
    {
      a0 := a0.args[0];
      n0 := (n0 + 1) % WORD;
      m := m - 1;
    }
    AddGoes(d, l, n, e, b);
    if Is(a0, l.zero) {
      itrs := 4 * n0 + 2;
      r := WrapCtr1(l.succ, n0, b);
    } else {
      itrs := 4 * n0;
      r := WrapCtr1(l.succ, n0, Left2(d, a0, b));
    }
  }

  lemma U32Done(d: Def, t: Term, n: nat)
    requires Heads(d, t, WrapAdd(n, Num(0)), 3 * n + 1, 4 * n + 2)
    ensures Heads(d, t, Num(n % WORD), 4 * n + 1, 5 * n + 2)
  {
    SumsGo(d, n, 0);
    HeadsHeads(d, t, WrapAdd(n, Num(0)), 3 * n + 1, 4 * n + 2, Num(n % WORD), n, n);
  }

  /** The sum without an accumulator: the number is right whatever `n` is, the interactions up to 32 bits. */
  method U32Loop(d: Def, l: Loop, a: Term, ghost n: nat, ghost e: Term) returns (r: Term, itrs: nat)
    requires MatchU32(d) == Some(l) && !l.tail && l.zero != l.succ && a == Wrap(l.succ, n, e) && Ends(e, l)
    ensures e.Ctr? ==> itrs == 4 * (n % WORD) + 1 && Heads(d, App(Ref(d.self), a), r, 4 * n + 1, 5 * n + 2)
    ensures !e.Ctr? ==> r == WrapAdd(n % WORD, End1(d, e)) && itrs == 3 * (n % WORD)
    ensures !e.Ctr? && n < WORD ==> Heads(d, App(Ref(d.self), a), r, itrs, 4 * n + 1)
  {
    var a0, n0 := a, 0;
    ghost var m: nat := n;
    while Is(a0, l.succ)
      invariant m <= n && a0 == Wrap(l.succ, m, e) && n0 == (n - m) % WORD
      decreases m
    {
      a0 := a0.args[0];
      n0 := (n0 + 1) % WORD;
      m := m - 1;
    }
    U32Goes(d, l, n, e);
    if Is(a0, l.zero) {
      itrs := 4 * n0 + 1;
      r := Num(n0);
      U32Done(d, App(Ref(d.self), a), n);
    } else {
      itrs := 3 * n0;
      r := WrapOp2NumLhs(n0, App(Inst(d.code, []), a0));
    }
  }

  /** The accumulator: numbers are added on the way. */
  function Acc(n: nat, b: Term): Term {
    if b.Num? then Num((n + b.n) % WORD) else WrapAdd(n, b)
  }

  lemma Tail(d: Def, l: Loop, n: nat, a: Term, e: Term, b: Term, s: Term)
    requires d.code.CMat? && d.code.name == l.zero && d.code.hit == CLam(CVar(1)) && Ends(e, l)
    requires Heads(d, Call2(d, a, b), Call2(d, e, s), 4 * n, 5 * n)
    ensures Heads(d, Call2(d, a, b), End2(d, l, e, s), 4 * n + Last(e), 5 * n + (if e.Ctr? then 3 else 1))
  {
    EndGoes(d, l, e, s);
    HeadsHeads(d, Call2(d, a, b), Call2(d, e, s), 4 * n, 5 * n, End2(d, l, e, s), Last(e), if e.Ctr? then 3 else 1);
  }

  lemma U32TailSource(d: Def, l: Loop, n: nat, e: Term, b: Term)
    requires MatchU32(d) == Some(l) && l.tail && l.zero != l.succ && Ends(e, l)
    ensures Heads(d, Call2(d, Wrap(l.succ, n, e), b), End2(d, l, e, WrapAdd(n, b)),
                  4 * n + Last(e), 5 * n + (if e.Ctr? then 3 else 1))
  {
    U32TailGoes(d, l, n, e, b);
    assert d.code.hit == CLam(CVar(1));
    Tail(d, l, n, Wrap(l.succ, n, e), e, b, WrapAdd(n, b));
  }

  lemma AccGoes(d: Def, n: nat, b: Term)
    requires b.Num? ==> b.n < WORD
    ensures Heads(d, WrapAdd(n, b), Acc(n, b), if b.Num? then n else 0, if b.Num? then n else 0)
  {
    match b
    case Num(x) => SumsGo(d, n, x);
    case _ =>
  }

  lemma AccNext(n: nat, b: Term)
    ensures Acc(n + 1, b) == if b.Num? then Num((1 + Acc(n, b).n) % WORD) else Op2(0, Num(1), Acc(n, b))
    ensures Acc(n, b).Num? == b.Num? || n == 0
  {
  }

  /** The sum with an accumulator: it adds at once what the recursion leaves as sums, for one interaction each. */
  method U32TailLoop(d: Def, l: Loop, a: Term, b: Term, ghost n: nat, ghost e: Term) returns (r: Term, itrs: nat)
    requires MatchU32(d) == Some(l) && l.tail && l.zero != l.succ && a == Wrap(l.succ, n, e) && Ends(e, l)
    requires b.Num? ==> b.n < WORD
    ensures r == End2(d, l, e, Acc(n, b)) && itrs == (if b.Num? then 5 * n else 4 * n) + Last(e)
    ensures Heads(d, Call2(d, a, b), End2(d, l, e, WrapAdd(n, b)), 4 * n + Last(e), 5 * n + (if e.Ctr? then 3 else 1))
    ensures Heads(d, WrapAdd(n, b), Acc(n, b), if b.Num? then n else 0, if b.Num? then n else 0)
    ensures e.Ctr? && b.Num? ==> itrs == 5 * n + 2 && Heads(d, Call2(d, a, b), r, itrs, 6 * n + 3)
    ensures !b.Num? ==> Heads(d, Call2(d, a, b), r, itrs, 5 * n + (if e.Ctr? then 3 else 1))
  {
    var a0, b0 := a, b;
    ghost var m: nat := n;
    itrs := 0;
    while Is(a0, l.succ)
      invariant m <= n && a0 == Wrap(l.succ, m, e) && b0 == Acc(n - m, b)
      invariant itrs == (if b.Num? then 5 * (n - m) else 4 * (n - m))
      decreases m
    {
      AccNext(n - m, b);
      itrs := itrs + 4;
      if b0.Num? {
        itrs := itrs + 1;
        b0 := Num((1 + b0.n) % WORD);
      } else {
        b0 := Op2(0, Num(1), b0);
      }
      a0 := a0.args[0];
      m := m - 1;
    }
    U32TailSource(d, l, n, e, b);
    AccGoes(d, n, b);
    if e.Ctr? && b.Num? {
      HeadsHeads(d, Call2(d, a, b), WrapAdd(n, b), 4 * n + 2, 5 * n + 3, Acc(n, b), n, n);
    }
    if Is(a0, l.zero) {
      r, itrs := b0, itrs + 2;
    } else {
      r := Left2(d, a0, b0);
    }
  }

  // ---------------------------------------------------------------------------
  // Where the counter wraps
  // ---------------------------------------------------------------------------

  function Depth(t: Term): nat {
    if Unary(t) then 1 + Depth(t.args[0]) else 0
  }

  lemma {:induction false} WrapDepth(k: nat, n: nat, e: Term)
    ensures Depth(Wrap(k, n, e)) == n + Depth(e)
  {
    if n > 0 {
      WrapDepth(k, n - 1, e);
    }
  }

  /** The counting loop gives what the recursion gives exactly when the count fits 32 bits. */
  lemma AddLoopExact(k: nat, n: nat, e: Term)
    ensures Wrap(k, n % WORD, e) == Wrap(k, n, e) <==> n < WORD
  {
    WrapDepth(k, n, e);
    WrapDepth(k, n % WORD, e);
  }
}
