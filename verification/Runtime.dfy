/**
 The runtime as it changes its memory: allocation, the interactions as sequences of cell writes, and the
 two loops of the machine, `wnf` and `wnf_rebuild`. Each method leaves the memory that the rules and the
 steps of the machine prescribe.
 */
module Runtime {
  import opened U32Ops
  import opened Calculus
  import opened Heap
  import opened Rules
  import opened RulesDup
  import opened RulesEql
  import opened Interact
  import opened Machine
  import opened Ending

  /** The cells `t` points at are allocated. */
  ghost predicate Low(t: Term, next: Loc) {
    forall m :: InFoot(t, m) ==> m < next
  }

  ghost predicate Apart(t: Term, u: Term) {
    forall m :: InFoot(t, m) ==> !InFoot(u, m)
  }

  /** A frame and a term that meet: both are allocated, apart from each other. */
  ghost predicate Fit(f: Frame, t: Term, next: Loc) {
    Low(AsTerm(f), next) && Low(t, next) && Apart(AsTerm(f), t)
  }

  lemma NodeLow(t: Term, next: Loc, k: nat)
    requires Low(t, next) && t.Node? && k < Ari(t.head)
    ensures t.loc + k < next
  {
    assert InFoot(t, t.loc + k);
  }

  lemma NodeApart(t: Term, u: Term, k: nat)
    requires Apart(t, u) && t.Node? && k < Ari(t.head)
    ensures !InFoot(u, t.loc + k)
  {
    assert InFoot(t, t.loc + k);
  }

  /** The counter has not reached the limit before step `n`. A limit of zero is none. */
  ghost predicate StaysBelow(s: State, n: nat, limit: nat) {
    forall k: nat :: k < n ==> limit == 0 || Steps(s, k).itrs < limit
  }

  class Runtime {
    var h: Cells
    var next: Loc
    var stack: Stack
    var itrs: nat

    constructor (h: Cells, next: Loc)
      ensures this.h == h && this.next == next && stack == Nil && itrs == 0
    {
      this.h, this.next, stack, itrs := h, next, Nil, 0;
    }

    // -------------------------------------------------------------------------
    // Cells and nodes
    // -------------------------------------------------------------------------

    function HeapRead(l: Loc): Term
      reads `h
    {
      At(h, l)
    }

    method HeapSet(l: Loc, t: Term)
      modifies `h
      ensures h == old(h)[l := C(t)]
    {
      h := h[l := Cell(false, t)];
    }

    method HeapAlloc(n: nat) returns (at: Loc)
      modifies `next
      ensures at == old(next) && next == old(next) + n
    {
      at := next;
      next := next + n;
    }

    method HeapSubstCop(side: bit, loc: Loc, r0: Term, r1: Term) returns (t: Term)
      modifies `h
      ensures h == old(h)[loc := Cell(true, if side == 0 then r1 else r0)]
      ensures t == if side == 0 then r0 else r1
    {
      h := h[loc := Cell(true, if side == 0 then r1 else r0)];
      t := if side == 0 then r0 else r1;
    }

    /** `term_clone`: `val` goes into a new DUP cell. */
    method TermClone(lab: Label, val: Term) returns (k0: Term, k1: Term)
      modifies `h, `next
      ensures h == old(h)[old(next) := C(val)] && next == old(next) + 1
      ensures k0 == Dp(0, lab, old(next)) && k1 == Dp(1, lab, old(next))
    {
      var loc := HeapAlloc(1);
      HeapSet(loc, val);
      k0, k1 := Dp(0, lab, loc), Dp(1, lab, loc);
    }

    /** A node with two fields at `loc`. */
    method NewAt(head: Head, loc: Loc, a: Term, b: Term) returns (t: Term)
      requires Ari(head) == 2
      modifies `h
      ensures h == old(h)[loc := C(a)][loc + 1 := C(b)] && t == Node(head, loc)
    {
      HeapSet(loc, a);
      HeapSet(loc + 1, b);
      t := Node(head, loc);
    }

    method New(head: Head, a: Term, b: Term) returns (t: Term)
      requires Ari(head) == 2
      modifies `h, `next
      ensures h == old(h)[old(next) := C(a)][old(next) + 1 := C(b)] && next == old(next) + 2
      ensures t == Node(head, old(next))
    {
      var loc := HeapAlloc(2);
      t := NewAt(head, loc, a, b);
    }

    method NewInc(x: Term) returns (t: Term)
      modifies `h, `next
      ensures h == old(h)[old(next) := C(x)] && next == old(next) + 1 && t == Inc(old(next))
    {
      var loc := HeapAlloc(1);
      HeapSet(loc, x);
      t := Inc(loc);
    }

    // -------------------------------------------------------------------------
    // DUP
    // -------------------------------------------------------------------------

    method DupSup(lab: Label, loc: Loc, side: bit, supLab: Label, sup: Loc) returns (t: Term)
      requires loc < next
      modifies `h, `next
      ensures var out := if supLab == lab then AnnihilateOut(old(h), old(next), side, loc, sup)
                         else DupNodOut(old(next), side, lab, loc, HSup(supLab), sup);
              h == old(h) + out.ws && next == out.next && t == out.res
    {
      if lab == supLab {
        var tm0, tm1 := HeapRead(sup), HeapRead(sup + 1);
        t := HeapSubstCop(side, loc, tm0, tm1);
      } else {
        var base := HeapAlloc(4);
        var s0 := NewAt(HSup(supLab), base, Dp(0, lab, sup), Dp(0, lab, sup + 1));
        var s1 := NewAt(HSup(supLab), base + 2, Dp(1, lab, sup), Dp(1, lab, sup + 1));
        t := HeapSubstCop(side, loc, s0, s1);
        DupSupCells(old(h), base, side, lab, loc, supLab, sup);
      }
    }

    /** The loop of `wnf_dup_nod`: every field gets two readers. */
    method FillBlocks(block: Loc, lab: Label, at: Loc, ari: nat)
      modifies `h
      ensures h == old(h) + DupBlocks(block, lab, at, ari, ari)
    {
      var i := 0;
      ghost var h0 := h;
      assert h0 == h0 + DupBlocks(block, lab, at, ari, 0);
      while i < ari
        invariant 0 <= i <= ari && h == h0 + DupBlocks(block, lab, at, ari, i)
      {
        BlocksGrow(h0, block, lab, at, ari, i);
        HeapSet(block + i, Dp(0, lab, at + i));
        HeapSet(block + ari + i, Dp(1, lab, at + i));
        i := i + 1;
      }
    }

    method DupNod(lab: Label, loc: Loc, side: bit, term: Term) returns (t: Term)
      requires !term.Dp?
      modifies `h, `next
      ensures var out := if IsAtom(term) then DupAtomOut(old(next), loc, term, true)
                         else DupNodOut(old(next), side, lab, loc, term.head, term.loc);
              h == old(h) + out.ws && next == out.next && t == out.res
    {
      if IsAtom(term) {
        h := h[loc := Cell(true, term)];
        return term;
      }
      var ari, at := Ari(term.head), term.loc;
      var block := HeapAlloc(2 * ari);
      FillBlocks(block, lab, at, ari);
      t := HeapSubstCop(side, loc, Node(term.head, block), Node(term.head, block + ari));
    }

    // -------------------------------------------------------------------------
    // Superpositions and INC under an operation
    // -------------------------------------------------------------------------

    /** `wnf_op2_sup`, `wnf_and_sup`, `wnf_or_sup`, `wnf_eql_sup_l`: `y` is the other operand. */
    method BinSupL(k: Kind, loc: Loc, lab: Label, sup: Loc) returns (t: Term)
      requires Fit(FBin(k, loc), Sup(lab, sup), next)
      modifies `h, `next
      ensures var out := BinSupOut(old(h), old(next), k, loc, loc, lab, sup);
              h == old(h) + out.ws && next == out.next && t == out.res
    {
      ghost var h0 := h;
      FitPair(k, loc, Sup(lab, sup), next);
      var y := HeapRead(loc + 1);
      var k0, k1 := TermClone(lab, y);
      var a0, a1 := HeapRead(sup), HeapRead(sup + 1);
      var op0 := NewAt(HBin(k), loc, a0, k0);
      var op1 := New(HBin(k), a1, k1);
      t := NewAt(HSup(lab), sup, op0, op1);
      BinSupWritten(h0, h, old(next), k, loc, loc, lab, sup);
    }

    /** `wnf_eql_sup_r`. */
    method EqlSupR(loc: Loc, lab: Label, sup: Loc) returns (t: Term)
      requires Fit(FEqR(loc), Sup(lab, sup), next)
      modifies `h, `next
      ensures var out := BinSupOut(old(h), old(next), KEql, loc, loc + 1, lab, sup);
              h == old(h) + out.ws && next == out.next && t == out.res
    {
      ghost var h0 := h;
      FitPair(KEql, loc, Sup(lab, sup), next);
      var a := HeapRead(loc);
      var k0, k1 := TermClone(lab, a);
      var b0, b1 := HeapRead(sup), HeapRead(sup + 1);
      var eq0 := NewAt(HBin(KEql), loc, k0, b0);
      var eq1 := New(HBin(KEql), k1, b1);
      t := NewAt(HSup(lab), sup, eq0, eq1);
      BinSupWritten(h0, h, old(next), KEql, loc, loc + 1, lab, sup);
    }

    /** `wnf_or_inc` and `wnf_eql_inc_l`; `wnf_and_inc` leaves the second field alone. */
    method BinIncL(k: Kind, loc: Loc, inc: Loc) returns (t: Term)
      requires Fit(FBin(k, loc), Inc(inc), next) && !k.KOp2? && IsCell(h, loc + 1, At(h, loc + 1))
      modifies `h
      ensures var out := BinIncOut(old(h), old(next), k, loc, loc, loc, inc);
              h == old(h) + out.ws && next == out.next && t == out.res
    {
      FitPair(k, loc, Inc(inc), next);
      var a, b := HeapRead(inc), HeapRead(loc + 1);
      HeapSet(loc, a);
      if k != KAnd {
        HeapSet(loc + 1, b);
      }
      HeapSet(inc, Bin(k, loc));
      BinIncWritten(old(h), h, next, k, loc, inc);
      t := Inc(inc);
    }

    /** `wnf_op2_inc_x`. */
    method Op2IncX(opr: nat, loc: Loc, inc: Loc) returns (t: Term)
      requires Fit(FBin(KOp2(opr), loc), Inc(inc), next)
      modifies `h, `next
      ensures var out := BinIncOut(old(h), old(next), KOp2(opr), loc, loc, old(next), inc);
              h == old(h) + out.ws && next == out.next && t == out.res
    {
      FitPair(KOp2(opr), loc, Inc(inc), next);
      var x, y := HeapRead(inc), HeapRead(loc + 1);
      var op := New(HBin(KOp2(opr)), x, y);
      HeapSet(inc, op);
      t := Inc(inc);
    }

    /** `wnf_eql_inc_r`. */
    method EqlIncR(loc: Loc, inc: Loc) returns (t: Term)
      requires Fit(FEqR(loc), Inc(inc), next)
      modifies `h
      ensures var out := BinIncOut(old(h), old(next), KEql, loc, loc + 1, loc, inc);
              h == old(h) + out.ws && next == out.next && t == out.res
    {
      FitPair(KEql, loc, Inc(inc), next);
      var a, b := HeapRead(loc), HeapRead(inc);
      var eql := NewAt(HBin(KEql), loc, a, b);
      HeapSet(inc, eql);
      t := Inc(inc);
    }

    // -------------------------------------------------------------------------
    // The second operand of OP2
    // -------------------------------------------------------------------------

    method Op2NumSup(opr: nat, x: u32, lab: Label, sup: Loc) returns (t: Term)
      requires Low(Sup(lab, sup), next)
      modifies `h, `next
      ensures var out := NumSupOut(old(h), old(next), opr, x, lab, sup);
              h == old(h) + out.ws && next == out.next && t == out.res
    {
      NodeLow(Sup(lab, sup), next, 0);
      NodeLow(Sup(lab, sup), next, 1);
      var a := HeapRead(sup);
      var op0 := New(HBin(KOp2(opr)), Num(x), a);
      var b := HeapRead(sup + 1);
      var op1 := New(HBin(KOp2(opr)), Num(x), b);
      t := NewAt(HSup(lab), sup, op0, op1);
      NumSupWritten(old(h), h, old(next), opr, x, lab, sup);
    }

    method Op2IncY(opr: nat, x: u32, inc: Loc) returns (t: Term)
      requires Low(Inc(inc), next)
      modifies `h, `next
      ensures var out := NumIncOut(old(h), old(next), opr, x, inc);
              h == old(h) + out.ws && next == out.next && t == out.res
    {
      NodeLow(Inc(inc), next, 0);
      var y := HeapRead(inc);
      var op := New(HBin(KOp2(opr)), Num(x), y);
      HeapSet(inc, op);
      t := Inc(inc);
    }

    // -------------------------------------------------------------------------
    // EQL-CTR
    // -------------------------------------------------------------------------

    /** The loop of `wnf_eql_ctr`: one more `AND` for each field after the first. */
    method AndChain(ghost h0: Cells, r: Pair, result0: Term) returns (result: Term)
      requires r.n > 0 && Readable(r, next) && result0 == Eql(r.loc)
      requires h == h0 + ChainWrites(r, h0, next, 1)
      modifies `h, `next
      ensures h == h0 + ChainWrites(r, h0, old(next), r.n) && next == old(next) + 4 * (r.n - 1)
      ensures result == ChainTop(r, old(next), r.n)
    {
      var i := 1;
      ghost var base := next;
      result := result0;
      while i < r.n
        invariant 1 <= i <= r.n && next == base + 4 * (i - 1)
        invariant h == h0 + ChainWrites(r, h0, base, i) && result == ChainTop(r, base, i)
      {
        ChainField(r, h0, base, i);
        ChainGrow(r, h0, base, i);
        var x, y := HeapRead(r.a + i), HeapRead(r.b + i);
        var eq := New(HBin(KEql), x, y);
        result := New(HBin(KAnd), result, eq);
        i := i + 1;
      }
    }

    method EqlSuc(r: Pair) returns (t: Term)
      requires r.n == 1 && Readable(r, next)
      modifies `h, `next
      ensures h == old(h) + SucWrites(r, old(h), old(next)) && next == old(next) + 1 && t == Inc(old(next))
    {
      var x, y := HeapRead(r.a), HeapRead(r.b);
      var eq := NewAt(HBin(KEql), r.loc, x, y);
      t := NewInc(eq);
    }

    method EqlCon(r: Pair) returns (t: Term)
      requires r.n == 2 && Readable(r, next)
      modifies `h, `next
      ensures h == old(h) + ConWrites(r, old(h), old(next)) && next == old(next) + 6 && t == Inc(old(next) + 5)
    {
      ReadableField(r, next, 1);
      ConWritten(r, h, next);
      var x, y := HeapRead(r.a), HeapRead(r.b);
      var eqh := NewAt(HBin(KEql), r.loc, x, y);
      var x1, y1 := HeapRead(r.a + 1), HeapRead(r.b + 1);
      var e := New(HBin(KEql), x1, y1);
      var eqt := NewInc(e);
      var both := New(HBin(KAnd), eqh, eqt);
      t := NewInc(both);
    }

    method EqlOther(r: Pair) returns (t: Term)
      requires r.n > 0 && Readable(r, next)
      modifies `h, `next
      ensures h == old(h) + ChainWrites(r, old(h), old(next), r.n) && next == old(next) + 4 * (r.n - 1)
      ensures t == ChainTop(r, old(next), r.n)
    {
      ghost var h0 := h;
      var x, y := HeapRead(r.a), HeapRead(r.b);
      var eq := NewAt(HBin(KEql), r.loc, x, y);
      assert h == h0 + map[r.loc := C(x), r.loc + 1 := C(y)];
      t := AndChain(h0, r, eq);
    }

    method EqlCtr(loc: Loc, a: Term, b: Term) returns (t: Term)
      requires IsCtr(a) && IsCtr(b) && loc + 1 < next
      requires Low(a, next) && Low(b, next) && Apart(Eql(loc), a) && Apart(Eql(loc), b)
      modifies `h, `next
      ensures var out := ApplyCtrs(old(h), old(next), loc, a, b).out;
              h == old(h) + out.ws && next == out.next && t == out.res
    {
      NoWrites(h);
      if a.head != b.head {
        return Num(0);
      }
      var nam, arity := a.head.nam, a.head.n;
      if arity == 0 {
        return Num(1);
      }
      var r := Pair(nam, loc, a.loc, b.loc, arity);
      if nam == SYM_SUC && arity == 1 {
        t := EqlSuc(r);
      } else if nam == SYM_CON && arity == 2 {
        t := EqlCon(r);
      } else {
        t := EqlOther(r);
      }
    }

    // -------------------------------------------------------------------------
    // Back at a frame with a reduced field
    // -------------------------------------------------------------------------

    method OnDup(i: bit, lab: Label, loc: Loc, t: Term) returns (acted: bool, enter: bool, res: Term)
      modifies `h, `next
      requires loc < next
      ensures var a := ApplyDup(old(h), old(next), i, lab, loc, t);
              if a.Rewrite? then acted && h == old(h) + a.out.ws && a.out == Out(a.out.ws, res, next, enter)
              else !acted && h == old(h) && next == old(next)
    {
      acted, enter, res := true, t.Node?, t;
      match t
      case Dp(_, _, _) => acted := false;
      case Node(head, at) =>
        if head.HSup? {
          res := DupSup(lab, loc, i, head.lab, at);
        } else if head.HCtr? || head.HInc? || (head.HBin? && head.k.KOp2?) {
          res := DupNod(lab, loc, i, t);
        } else {
          acted := false;
        }
      case _ => res := DupNod(lab, loc, i, t);
    }

    method OnOp2(opr: nat, loc: Loc, t: Term) returns (acted: bool, enter: bool, res: Term)
      requires Fit(FBin(KOp2(opr), loc), t, next)
      modifies `h, `next
      ensures var a := ApplyOp2(old(h), old(next), opr, loc, t);
              if a.Rewrite? then acted && h == old(h) + a.out.ws && a.out == Out(a.out.ws, res, next, enter)
              else !acted && h == old(h) && next == old(next)
    {
      acted, enter, res := true, false, t;
      NoWrites(h);
      match t
      case Era => res := Era;
      case Num(n) =>
        var y := HeapRead(loc + 1);
        if y.Num? {
          res := Num(Op2U32(opr, n, y.n));
        } else {
          acted := false;
        }
      case Node(HSup(lab), sup) => res := BinSupL(KOp2(opr), loc, lab, sup);
      case Node(HInc, inc) => res := Op2IncX(opr, loc, inc);
      case _ => acted := false;
    }

    method OnNum(opr: nat, x: u32, t: Term) returns (acted: bool, enter: bool, res: Term)
      requires Low(t, next)
      modifies `h, `next
      ensures var a := ApplyNum(old(h), old(next), opr, x, t);
              if a.Rewrite? then acted && h == old(h) + a.out.ws && a.out == Out(a.out.ws, res, next, enter)
              else !acted && h == old(h) && next == old(next)
    {
      acted, enter, res := true, false, t;
      NoWrites(h);
      match t
      case Era => res := Era;
      case Num(n) => res := Num(Op2U32(opr, x, n));
      case Node(HSup(lab), sup) => res := Op2NumSup(opr, x, lab, sup);
      case Node(HInc, inc) => res := Op2IncY(opr, x, inc);
      case _ => acted := false;
    }

    method OnLogic(k: Kind, loc: Loc, t: Term) returns (acted: bool, enter: bool, res: Term)
      requires (k == KAnd || k == KOr) && Fit(FBin(k, loc), t, next) && IsCell(h, loc + 1, At(h, loc + 1))
      modifies `h, `next
      ensures var a := ApplyLogic(old(h), old(next), k, loc, t);
              if a.Rewrite? then acted && h == old(h) + a.out.ws && a.out == Out(a.out.ws, res, next, enter)
              else !acted && h == old(h) && next == old(next)
    {
      acted, enter, res := true, t.Num?, t;
      NoWrites(h);
      match t
      case Era => res := Era;
      case Num(n) =>
        if k == KAnd {
          if n == 0 { res := Num(0); } else { res := HeapRead(loc + 1); }
        } else {
          if n == 0 { res := HeapRead(loc + 1); } else { res := Num(1); }
        }
      case Node(HSup(lab), sup) => res := BinSupL(k, loc, lab, sup);
      case Node(HInc, inc) => res := BinIncL(k, loc, inc);
      case _ => acted := false;
    }

    method OnEql(loc: Loc, t: Term) returns (acted: bool, enter: bool, res: Term)
      requires Fit(FBin(KEql, loc), t, next) && IsCell(h, loc + 1, At(h, loc + 1))
      modifies `h, `next
      ensures var a := ApplyEql(old(h), old(next), loc, t);
              if a.Rewrite? then acted && h == old(h) + a.out.ws && a.out == Out(a.out.ws, res, next, enter)
              else !acted && h == old(h) && next == old(next)
    {
      acted, enter, res := true, false, t;
      NoWrites(h);
      match t
      case Era => res := Era;
      case Any => res := Num(1);
      case Node(HSup(lab), sup) => res := BinSupL(KEql, loc, lab, sup);
      case Node(HInc, inc) => res := BinIncL(KEql, loc, inc);
      case _ => acted := false;
    }

    method OnEqR(loc: Loc, t: Term) returns (enter: bool, res: Term)
      requires Fit(FEqR(loc), t, next) && Fit(FEqR(loc), At(h, loc), next) && loc + 1 < next
      modifies `h, `next
      ensures var a := ApplyEqR(old(h), old(next), loc, t);
              a.Rewrite? && h == old(h) + a.out.ws && a.out == Out(a.out.ws, res, next, enter)
    {
      enter, res := false, Num(0);
      NoWrites(h);
      var a := HeapRead(loc);
      if t.Era? {
        res := Era;
      } else if t.Any? {
        res := Num(1);
      } else if t.Node? && t.head.HSup? {
        res := EqlSupR(loc, t.head.lab, t.loc);
      } else if t.Node? && t.head.HInc? {
        res := EqlIncR(loc, t.loc);
      } else if a.Any? {
        res := Num(1);
      } else if a.Num? && t.Num? {
        res := Num(Truth(a.n == t.n));
      } else if IsCtr(a) && IsCtr(t) {
        res := EqlCtr(loc, a, t);
        enter := true;
      } else if a.Nam? && t.Nam? {
        res := Num(Truth(a == t));
      }
    }

    /** The dispatch on the frame and the reduced term. */
    method Interact(f: Frame, t: Term) returns (acted: bool, enter: bool, res: Term)
      requires Meets(h, next, f, t)
      modifies `h, `next
      ensures var a := Apply(old(h), old(next), f, t);
              if a.Rewrite? then acted && h == old(h) + a.out.ws && a.out == Out(a.out.ws, res, next, enter)
              else !acted && h == old(h) && next == old(next)
    {
      match f
      case FDp(i, lab, loc) => acted, enter, res := OnDup(i, lab, loc, t);
      case FBin(k, loc) =>
        if k.KOp2? {
          acted, enter, res := OnOp2(k.opr, loc, t);
        } else if k.KEql? {
          acted, enter, res := OnEql(loc, t);
        } else {
          acted, enter, res := OnLogic(k, loc, t);
        }
      case FNum(opr, x, _) => acted, enter, res := OnNum(opr, x, t);
      case FEqR(loc) =>
        enter, res := OnEqR(loc, t);
        acted := true;
    }

    // -------------------------------------------------------------------------
    // The machine
    // -------------------------------------------------------------------------

    function Now(enter: bool, cur: Term): State
      reads this
    {
      State(h, next, stack, enter, cur, itrs)
    }

    /** One frame of `wnf_rebuild`; the stuck cases of `wnf` do the same. */
    method PutBack(f: Frame, cur: Term) returns (res: Term)
      modifies `h, `next
      ensures var out := Unwind(old(next), f, cur); h == old(h) + out.ws && next == out.next && res == out.res
    {
      if f.FNum? {
        res := New(HBin(KOp2(f.opr)), Num(f.x), cur);
      } else {
        HeapSet(Hole(f), cur);
        res := AsTerm(f);
      }
    }

    method WnfRebuild(cur: Term) returns (res: Term)
      modifies this
      ensures stack.Nil? && itrs == old(itrs)
      ensures Now(false, res).(enter := Rebuild(old(Now(false, cur))).enter) == Rebuild(old(Now(false, cur)))
    {
      res := cur;
      while stack.Push?
        invariant itrs == old(itrs) && Rebuild(Now(false, res)) == Rebuild(old(Now(false, cur)))
        decreases stack
      {
        var f := stack.top;
        stack := stack.rest;
        res := PutBack(f, res);
      }
    }

    /** The part of `wnf` after the label `enter`. */
    method Enter(cur: Term) returns (enter: bool, res: Term)
      modifies `stack
      ensures Now(enter, res) == EnterStep(old(Now(true, cur)))
    {
      enter, res := true, cur;
      if cur.Dp? {
        if cur.loc in h && h[cur.loc].sub {
          res := h[cur.loc].term;
        } else {
          stack := Push(FDp(cur.side, cur.lab, cur.loc), stack);
          res := HeapRead(cur.loc);
        }
      } else if cur.Node? && cur.head.HBin? {
        stack := Push(FBin(cur.head.k, cur.loc), stack);
        res := HeapRead(cur.loc);
      } else if cur.Node? && cur.head.HPart? {
        stack := Push(FNum(cur.head.opr, cur.head.x, cur.loc), stack);
        res := HeapRead(cur.loc);
      } else {
        enter := false;
      }
    }

    /** The part of `wnf` after the label `apply`: one frame is popped. */
    method ApplyFrame(cur: Term) returns (enter: bool, res: Term)
      requires stack.Push? && Meets(h, next, stack.top, cur)
      modifies this
      ensures Now(enter, res) == ApplyStep(old(Now(false, cur)))
    {
      var f := stack.top;
      stack := stack.rest;
      var acted;
      acted, enter, res := Interact(f, cur);
      if acted {
        itrs := itrs + 1;
      } else if f.FBin? && f.k.KEql? {
        var b := HeapRead(f.loc + 1);
        HeapSet(f.loc, cur);
        stack := Push(FEqR(f.loc), stack);
        enter, res := true, b;
      } else if f.FBin? && f.k.KOp2? && cur.Num? {
        stack := Push(FNum(f.k.opr, cur.n, f.loc + 1), stack);
        enter, res := true, HeapRead(f.loc + 1);
      } else {
        enter := false;
        res := PutBack(f, cur);
      }
    }

    /**
     `wnf_at`: reduces cell `loc` to the end, or stops when `limit` interactions have been counted (unless it is 0); the
     limit is checked where `wnf` checks it, when it enters a term and when it is about to pop a frame. The result is a
     run of the machine; the heap stays in order, and all roots mean what they meant.
     */
    method WnfAt(loc: Loc, limit: nat, ghost live: map<Loc, Info>) returns (ghost n: nat, ghost live2: map<Loc, Info>)
      requires stack.Nil? && Ready(Memory(h, next, itrs), live, loc)
      modifies this
      ensures stack.Nil? && Memory(h, next, itrs) == Machine.WnfAt(old(Memory(h, next, itrs)), loc, n)
      ensures Finished(Steps(Start(old(Memory(h, next, itrs)), loc), n)) || (limit != 0 && limit <= itrs)
      ensures StaysBelow(Start(old(Memory(h, next, itrs)), loc), n, limit)
      ensures Ready(Memory(h, next, itrs), live2, loc) && Kept(Graph(old(h), live), Graph(h, live2), loc)
    {
      ghost var m := Memory(h, next, itrs);
      var enter, cur := true, HeapRead(loc);
      ghost var g := Graph(h, live);
      StartInv(m, live, loc);
      ghost var end := WnfEnds(m, live, loc);
      n := 0;
      while (enter || stack.Push?) && (limit == 0 || itrs < limit)
        invariant Now(enter, cur) == Steps(Start(m, loc), n) && Inv(Now(enter, cur), g, loc)
        invariant StaysBelow(Start(m, loc), n, limit)
        decreases end - n
      {
        StepsThen(Start(m, loc), n);
        assert n < end;
        ghost var g' := StepKeeps(Now(enter, cur), g, loc);
        if enter {
          enter, cur := Enter(cur);
        } else {
          ShowsMeets(h, next, stack.top, stack.rest, cur, g, loc);
          enter, cur := ApplyFrame(cur);
        }
        g := g';
        n := n + 1;
      }
      RebuildEnter(Now(enter, cur));
      var res := WnfRebuild(cur);
      HeapSet(loc, res);
      live2 := WnfAtKeeps(m, live, loc, n);
    }
  }

  /** Whether the machine enters or applies makes no difference to putting the stack back. */
  lemma {:induction false} RebuildEnter(s: State)
    ensures var (a, b) := (Rebuild(s), Rebuild(s.(enter := false))); a.(enter := b.enter) == b
  {
  }

  lemma {:induction false} StepsThen(s: State, n: nat)
    ensures Step(Steps(s, n)) == Steps(s, n + 1)
    decreases n
  {
    if n > 0 {
      StepsThen(Step(s), n - 1);
    }
  }

  /** A frame and the reduced term that comes back to it, in memory. */
  ghost predicate Meets(h: Cells, next: Loc, f: Frame, t: Term) {
    && Fit(f, t, next)
    && (f.FDp? ==> f.loc < next)
    && (f.FBin? ==> IsCell(h, f.loc + 1, At(h, f.loc + 1)))
    && (f.FEqR? ==> Fit(f, At(h, f.loc), next) && f.loc + 1 < next)
  }

  /** The nodes of a frame and of the superposition that meets it. */
  lemma FitPair(k: Kind, loc: Loc, t: Term, next: Loc)
    requires Low(Bin(k, loc), next) && Low(t, next) && Apart(Bin(k, loc), t) && t.Node? && Ari(t.head) > 0
    ensures loc + 1 < next && t.loc < next && t.loc != loc && t.loc != loc + 1
    ensures Ari(t.head) > 1 ==> t.loc + 1 < next && t.loc + 1 != loc
  {
    NodeLow(Bin(k, loc), next, 1);
    NodeLow(t, next, 0);
    NodeApart(Bin(k, loc), t, 0);
    NodeApart(Bin(k, loc), t, 1);
    if Ari(t.head) > 1 {
      NodeLow(t, next, 1);
    }
  }

  /** The fields of the two constructors are allocated, and apart from the `EQL` node. */
  ghost predicate Readable(r: Pair, next: Loc) {
    && r.loc + 1 < next
    && Low(Ctr(r.nam, r.n, r.a), next) && Low(Ctr(r.nam, r.n, r.b), next)
    && Apart(Eql(r.loc), Ctr(r.nam, r.n, r.a)) && Apart(Eql(r.loc), Ctr(r.nam, r.n, r.b))
  }

  lemma ReadableField(r: Pair, next: Loc, i: nat)
    requires Readable(r, next) && i < r.n
    ensures r.a + i < next && r.a + i != r.loc && r.a + i != r.loc + 1
    ensures r.b + i < next && r.b + i != r.loc && r.b + i != r.loc + 1
  {
    assert InFoot(Ctr(r.nam, r.n, r.a), r.a + i) && InFoot(Ctr(r.nam, r.n, r.b), r.b + i);
    assert InFoot(Eql(r.loc), r.loc) && InFoot(Eql(r.loc), r.loc + 1);
  }

  /** Fields not yet compared are still in place. */
  lemma ChainField(r: Pair, h: Cells, next: Loc, i: nat)
    requires Readable(r, next) && 0 < i < r.n
    ensures At(h + ChainWrites(r, h, next, i), r.a + i) == At(h, r.a + i)
    ensures At(h + ChainWrites(r, h, next, i), r.b + i) == At(h, r.b + i)
    ensures Readable(r, next + 4 * (i - 1))
  {
    ReadableField(r, next, i);
    ChainKeys(r, h, next, i);
  }

  lemma ChainGrow(r: Pair, h: Cells, next: Loc, i: nat)
    requires 0 < i < r.n
    ensures var e := next + 4 * (i - 1);
            var h' := (h + ChainWrites(r, h, next, i))[e := C(At(h, r.a + i))][e + 1 := C(At(h, r.b + i))];
            h'[e + 2 := C(ChainTop(r, next, i))][e + 2 + 1 := C(Eql(e))] == h + ChainWrites(r, h, next, i + 1)
  {
  }

  lemma ConWritten(r: Pair, h: Cells, e: Loc)
    requires r.loc + 1 < e
    ensures var h' := h[r.loc := C(At(h, r.a))][r.loc + 1 := C(At(h, r.b))]
                      [e := C(At(h, r.a + 1))][e + 1 := C(At(h, r.b + 1))];
            h'[e + 2 := C(Eql(e))][e + 2 + 1 := C(Eql(r.loc))][e + 2 + 1 + 1 := C(Inc(e + 2))]
              [e + 2 + 1 + 2 := C(Bin(KAnd, e + 2 + 1))]
            == h + ConWrites(r, h, e)
  {
  }

  lemma BinIncWritten(h: Cells, h': Cells, next: Loc, k: Kind, loc: Loc, inc: Loc)
    requires inc != loc && inc != loc + 1 && IsCell(h, loc + 1, At(h, loc + 1))
    requires var h1 := h[loc := C(At(h, inc))];
             h' == (if k != KAnd then h1[loc + 1 := C(At(h, loc + 1))] else h1)[inc := C(Bin(k, loc))]
    ensures h' == h + BinIncOut(h, next, k, loc, loc, loc, inc).ws
  {
  }

  lemma NumSupWritten(h: Cells, h': Cells, next: Loc, opr: nat, x: u32, lab: Label, sup: Loc)
    requires sup + 1 < next
    requires h' ==
               h[next := C(Num(x))][next + 1 := C(At(h, sup))][next + 2 := C(Num(x))][next + 2 + 1 := C(At(h, sup + 1))]
                    [sup := C(Bin(KOp2(opr), next))][sup + 1 := C(Bin(KOp2(opr), next + 2))]
    ensures h' == h + NumSupOut(h, next, opr, x, lab, sup).ws
  {
  }

  lemma BinSupWritten(h: Cells, h': Cells, next: Loc, k: Kind, loc: Loc, x: Loc, lab: Label, sup: Loc)
    requires (x == loc || x == loc + 1) && loc + 1 < next && sup + 1 < next && sup != loc && sup != loc + 1
    requires sup + 1 != loc
    requires var (a, b, y) := (C(At(h, sup)), C(At(h, sup + 1)), C(At(h, 2 * loc + 1 - x)));
             var (d0, d1) := (C(Dp(0, lab, next)), C(Dp(1, lab, next)));
             h' == if x == loc then
                     h[next := y][loc := a][loc + 1 := d0][next + 1 := b][next + 2 := d1]
                      [sup := C(Bin(k, loc))][sup + 1 := C(Bin(k, next + 1))]
                   else
                     h[next := y][loc := d0][loc + 1 := a][next + 1 := d1][next + 2 := b]
                      [sup := C(Bin(k, loc))][sup + 1 := C(Bin(k, next + 1))]
    ensures h' == h + BinSupOut(h, next, k, loc, x, lab, sup).ws
  {
  }

  lemma DupSupCells(h: Cells, next: Loc, i: bit, lab: Label, loc: Loc, supLab: Label, sup: Loc)
    requires loc < next
    ensures h[next := C(Dp(0, lab, sup))][next + 1 := C(Dp(0, lab, sup + 1))][next + 2 := C(Dp(1, lab, sup))]
             [next + 3 := C(Dp(1, lab, sup + 1))]
             [loc := Cell(true, Sup(supLab, if i == 0 then next + 2 else next))]
         == h + DupNodOut(next, i, lab, loc, HSup(supLab), sup).ws
  {
    assert DupBlocks(next, lab, sup, 2, 1) == map[next := C(Dp(0, lab, sup)), next + 2 := C(Dp(1, lab, sup))];
    assert DupBlocks(next, lab, sup, 2, 2) ==
        DupBlocks(next, lab, sup, 2, 1)[next + 1 := C(Dp(0, lab, sup + 1))][next + 3 := C(Dp(1, lab, sup + 1))];
  }

  /** One turn of the loop fills one more field of both blocks. */
  lemma BlocksGrow(h: Cells, block: Loc, lab: Label, at: Loc, ari: nat, i: nat)
    requires i < ari
    ensures (h + DupBlocks(block, lab, at, ari, i))[block + i := C(Dp(0, lab, at + i))]
            [block + ari + i := C(Dp(1, lab, at + i))]
         == h + DupBlocks(block, lab, at, ari, i + 1)
  {
  }

  /** A cell's term points at allocated cells, which no other cell's node contains. */
  lemma CellFits(g: Graph, next: Loc, p: Loc, f: Frame, l: Loc)
    requires Wf(g) && Fresh(g.live, next) && Holds(g, p, AsTerm(f)) && l in g.live && InFoot(AsTerm(f), l)
    ensures l in g.h && Fit(f, g.h[l].term, next) && l < next && (AsTerm(f).Node? ==> !g.h[l].sub)
  {
    var u, t := AsTerm(f), g.h[l].term;
    assert TermOk(g, p, u) && TermOk(g, l, t);
    forall m | InFoot(u, m)
      ensures m < next && !InFoot(t, m)
    {
      assert RefOk(g, p, u, m);
      assert RefOk(g, p, u, l);
      assert InFoot(t, m) ==> RefOk(g, l, t, m);
    }
    forall m | InFoot(t, m)
      ensures m < next
    {
      assert RefOk(g, l, t, m);
    }
  }

  lemma ShowsMeets(h: Cells, next: Loc, f: Frame, rest: Stack, t: Term, g: Graph, root: Loc)
    requires Shows(h, next, Push(f, rest), t, g, root)
    ensures Meets(h, next, f, t)
  {
    var p := Spot(root, rest);
    assert Spine(g, root, rest, AsTerm(f));
    HoleBelow(g, p, f);
    CellFits(g, next, p, f, Hole(f));
    if f.FBin? || f.FEqR? {
      var y := 2 * f.loc + 1 - Hole(f);
      assert TermOk(g, p, AsTerm(f)) && InFoot(AsTerm(f), y);
      CellFits(g, next, p, f, y);
      assert RefOk(g, p, AsTerm(f), y);
      if OnSpine(root, rest, y) {
        SpineRank(g, root, rest, AsTerm(f), y);
      }
      assert !OnSpine(root, Push(f, rest), y);
    }
  }
}
