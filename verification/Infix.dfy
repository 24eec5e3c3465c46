/**
 Infix operators, `clang/parse/term/app.c` and `clang/parse/term/opr.c`: precedence climbing over a row of
 atoms with an operator between any two. `===`, `.&.`, `.|.` and `<>` are taken whatever the level asked for.
 */
module Infix {
  datatype Opr =
    | OpAdd | OpSub | OpMul | OpDiv | OpMod | OpAnd | OpOr | OpXor | OpLsh | OpRsh | OpNot
    | OpEq | OpNe | OpLt | OpLe | OpGt | OpGe
    | Same | Both | Either | Cons          // ===  .&.  .|.  <>

  datatype Tree = Leaf(atom: nat) | Bin(op: Opr, l: Tree, r: Tree)

  /** An operator and the atom after it. */
  datatype Pair = Pair(op: Opr, atom: nat)

  predicate Special(op: Opr) {
    op.Same? || op.Both? || op.Either? || op.Cons?
  }

  /** `parse_term_opr_prec` */
  function Prec(op: Opr): nat {
    match op
    case OpOr => 1
    case OpAnd => 2
    case OpEq => 3
    case OpNe => 3
    case OpLt => 4
    case OpLe => 4
    case OpGt => 4
    case OpGe => 4
    case OpLsh => 5
    case OpRsh => 5
    case OpAdd => 6
    case OpSub => 6
    case OpMul => 7
    case OpDiv => 7
    case OpMod => 7
    case OpXor => 8
    case _ => 0
  }

  /** Whether an operator is taken at a level. */
  predicate Takes(op: Opr, level: nat) {
    Special(op) || Prec(op) >= level
  }

  /** The level its right operand is parsed at. */
  function Right(op: Opr): nat {
    match op
    case Same => 4
    case Both => 2
    case Either => 1
    case Cons => 0
    case _ => Prec(op) + 1
  }

  // ---------------------------------------------------------------------------
  // The parser
  // ---------------------------------------------------------------------------

  /** `parse_term_app_prec`: the tree, and what is left. */
  function Climb(f: Tree, rest: seq<Pair>, level: nat): (out: (Tree, seq<Pair>))
    ensures |out.1| <= |rest|
    decreases |rest|
  {
    if rest == [] || !Takes(rest[0].op, level) then (f, rest)
    else
      var (r, rest1) := Climb(Leaf(rest[0].atom), rest[1..], Right(rest[0].op));
      Climb(Bin(rest[0].op, f, r), rest1, level)
  }

  class Parser {
    var rest: seq<Pair>

    method AppPrec(f: Tree, level: nat) returns (t: Tree)
      modifies this
      ensures (t, rest) == Climb(f, old(rest), level)
      decreases |rest|
    {
      if rest == [] {
        return f;
      }
      var op, atom := rest[0].op, rest[0].atom;
      if Special(op) || Prec(op) >= level {
        rest := rest[1..];
        var rhs := AppPrec(Leaf(atom), Right(op));
        t := AppPrec(Bin(op, f, rhs), level);
      } else {
        t := f;
      }
    }

    /** `parse_term`, after its first atom: the whole row goes into the one tree that `Grouped` allows. */
    method Term(first: nat) returns (t: Tree)
      modifies this
      ensures rest == [] && Grouped(t) && First(t) == first && Rest(t) == old(rest)
    {
      ParseExact(first, rest, Climb(Leaf(first), rest, 0).0);
      t := AppPrec(Leaf(first), 0);
    }
  }

  // ---------------------------------------------------------------------------
  // Rows and trees
  // ---------------------------------------------------------------------------

  function First(t: Tree): nat {
    match t
    case Leaf(a) => a
    case Bin(_, l, _) => First(l)
  }

  function Rest(t: Tree): seq<Pair> {
    match t
    case Leaf(_) => []
    case Bin(op, l, r) => Rest(l) + [Pair(op, First(r))] + Rest(r)
  }

  /** No operator that ends the tree would have taken `op` into its right operand. */
  predicate Closed(t: Tree, op: Opr) {
    t.Leaf? || (!Takes(op, Right(t.op)) && Closed(t.r, op))
  }

  /** Every operator that starts the tree is taken at the level. */
  predicate Opened(t: Tree, level: nat) {
    t.Leaf? || (Takes(t.op, level) && Opened(t.l, level))
  }

  /** A left operand ends before the operator, a right one has all it takes. */
  predicate Grouped(t: Tree) {
    t.Leaf? || (Grouped(t.l) && Grouped(t.r) && Closed(t.l, t.op) && Opened(t.r, Right(t.op)))
  }

  predicate Follows(t: Tree, k: seq<Pair>) {
    k == [] || Closed(t, k[0].op)
  }

  predicate Stops(k: seq<Pair>, level: nat) {
    k == [] || !Takes(k[0].op, level)
  }

  /** Parsing drops nothing and moves nothing. */
  lemma {:induction false} Yield(f: Tree, rest: seq<Pair>, level: nat)
    ensures First(Climb(f, rest, level).0) == First(f)
    ensures Rest(Climb(f, rest, level).0) + Climb(f, rest, level).1 == Rest(f) + rest
    decreases |rest|
  {
    if rest != [] && Takes(rest[0].op, level) {
      var op, atom := rest[0].op, rest[0].atom;
      Yield(Leaf(atom), rest[1..], Right(op));
      var (r, rest1) := Climb(Leaf(atom), rest[1..], Right(op));
      Yield(Bin(op, f, r), rest1, level);
      assert Rest(Leaf(atom)) + rest[1..] == rest[1..];
      Regroup(Rest(f), rest, Rest(r), rest1);
    }
  }

  lemma Regroup(a: seq<Pair>, rest: seq<Pair>, b: seq<Pair>, c: seq<Pair>)
    requires rest != [] && b + c == rest[1..]
    ensures a + [rest[0]] + b + c == a + rest
  {
    assert a + [rest[0]] + b + c == a + ([rest[0]] + (b + c));
    assert rest == [rest[0]] + rest[1..];
  }

  /** What is parsed is grouped, and stops only before an operator that is not taken. */
  lemma {:induction false} Sound(f: Tree, rest: seq<Pair>, level: nat)
    requires Grouped(f) && Opened(f, level) && Follows(f, rest)
    ensures Grouped(Climb(f, rest, level).0) && Opened(Climb(f, rest, level).0, level)
    ensures Stops(Climb(f, rest, level).1, level) && Follows(Climb(f, rest, level).0, Climb(f, rest, level).1)
    decreases |rest|
  {
    if rest != [] && Takes(rest[0].op, level) {
      var op, atom := rest[0].op, rest[0].atom;
      Sound(Leaf(atom), rest[1..], Right(op));
      var (r, rest1) := Climb(Leaf(atom), rest[1..], Right(op));
      Sound(Bin(op, f, r), rest1, level);
    }
  }

  /** A grouped tree is parsed from its row, and the parser goes on with it as what it has so far. */
  lemma {:induction false} Exact(t: Tree, k: seq<Pair>, level: nat)
    requires Grouped(t) && Opened(t, level) && Follows(t, k)
    ensures Climb(Leaf(First(t)), Rest(t) + k, level) == Climb(t, k, level)
    decreases t
  {
    match t
    case Leaf(_) => assert Rest(t) + k == k;
    case Bin(op, l, r) =>
      var k1 := [Pair(op, First(r))] + (Rest(r) + k);
      assert Rest(t) + k == Rest(l) + k1;
      Exact(l, k1, level);
      Exact(r, k, Right(op));
      assert k1[1..] == Rest(r) + k;
  }

  /** A row parses to a tree exactly when the tree is grouped and has that row. */
  lemma ParseExact(first: nat, rest: seq<Pair>, t: Tree)
    ensures Climb(Leaf(first), rest, 0).1 == []
    ensures Climb(Leaf(first), rest, 0).0 == t <==> Grouped(t) && First(t) == first && Rest(t) == rest
  {
    Sound(Leaf(first), rest, 0);
    Yield(Leaf(first), rest, 0);
    var (u, k) := Climb(Leaf(first), rest, 0);
    assert Rest(u) + [] == Rest(u);
    if Grouped(t) && First(t) == first && Rest(t) == rest {
      AllOpened(t);
      Exact(t, [], 0);
      assert Rest(t) + [] == rest;
    }
  }

  lemma AllOpened(t: Tree)
    ensures Opened(t, 0)
  {
  }

  // ---------------------------------------------------------------------------
  // The table of precedences
  // ---------------------------------------------------------------------------

  /** The class of an operator, with `===`, `.&.` and `.|.` in the ones of `==`, `&&` and `||`. */
  function Class(op: Opr): nat {
    match op
    case Same => 3
    case Both => 2
    case Either => 1
    case _ => Prec(op)
  }

  /** The table read as usual: all operators group to the left, and tighter ones first. */
  predicate ByTable(t: Tree) {
    t.Leaf? ||
    (&& ByTable(t.l) && ByTable(t.r)
     && (t.l.Bin? ==> Class(t.l.op) >= Class(t.op))
     && (t.r.Bin? ==> Class(t.r.op) > Class(t.op)))
  }

  predicate NoCons(t: Tree) {
    t.Leaf? || (!t.op.Cons? && NoCons(t.l) && NoCons(t.r))
  }

  predicate Plain(rest: seq<Pair>) {
    forall i :: 0 <= i < |rest| ==> !Special(rest[i].op)
  }

  /** `.&.` and `.|.` take operators of their own class into their right operand. */
  predicate Soft(op: Opr) {
    op.Both? || op.Either?
  }

  /** The first operator of class `c` or below is of class `c`. */
  predicate Meets(rest: seq<Pair>, c: nat) {
    rest != [] && if Class(rest[0].op) > c then Meets(rest[1..], c) else Class(rest[0].op) == c
  }

  /** A special operator follows only a looser one, and `.&.` and `.|.` are not met by their own class. */
  predicate Orderly(rest: seq<Pair>) {
    rest == [] ||
    (&& Orderly(rest[1..])
     && (rest[1..] != [] && Special(rest[1].op) ==> Class(rest[1].op) > Class(rest[0].op))
     && (Soft(rest[0].op) ==> !Meets(rest[1..], Class(rest[0].op))))
  }

  predicate NoConsRow(rest: seq<Pair>) {
    forall i :: 0 <= i < |rest| ==> !rest[i].op.Cons?
  }

  predicate Above(rest: seq<Pair>, c: nat) {
    forall i :: 0 <= i < |rest| ==> Class(rest[i].op) >= c
  }

  lemma {:induction false} TableAbove(t: Tree)
    requires ByTable(t) && t.Bin?
    ensures Above(Rest(t), Class(t.op))
  {
    if t.l.Bin? {
      TableAbove(t.l);
    }
    if t.r.Bin? {
      TableAbove(t.r);
    }
  }

  lemma {:induction false} MeetsSkips(a: seq<Pair>, k: seq<Pair>, c: nat)
    requires Above(a, c)
    ensures Above(a, c + 1) ==> Meets(a + k, c) == Meets(k, c)
    ensures !Above(a, c + 1) ==> Meets(a + k, c)
  {
    if a == [] {
      assert a + k == k;
    } else {
      assert (a + k)[1..] == a[1..] + k;
      assert Above(a, c + 1) <==> Class(a[0].op) >= c + 1 && Above(a[1..], c + 1);
      MeetsSkips(a[1..], k, c);
    }
  }

  /** In the row of a grouped tree, and whatever follows it, order means grouping by the table. */
  lemma {:induction false} TableExact(t: Tree, k: seq<Pair>)
    requires Grouped(t) && NoCons(t) && Follows(t, k)
    ensures Orderly(Rest(t) + k) <==> ByTable(t) && Orderly(k)
    decreases t
  {
    match t
    case Leaf(_) => assert Rest(t) + k == k;
    case Bin(op, l, r) =>
      var k2 := Rest(r) + k;
      var k1 := [Pair(op, First(r))] + k2;
      assert Rest(t) + k == Rest(l) + k1;
      TableExact(l, k1);
      TableExact(r, k);
      assert k1[1..] == k2;
      ClosedClass(l, op);
      if ByTable(r) {
        Operand(t, k);
      }
  }

  /** A left operand is in order by itself. */
  lemma ClosedClass(l: Tree, op: Opr)
    requires Closed(l, op) && NoCons(l)
    ensures l.Bin? ==> !Special(op) && Class(l.op) >= Class(op)
  {
  }

  /** The right operand of a tree is in order when the row has it so. */
  lemma Operand(t: Tree, k: seq<Pair>)
    requires Grouped(t) && NoCons(t) && t.Bin? && Follows(t, k) && ByTable(t.r)
    ensures (&& (Rest(t.r) + k != [] && Special((Rest(t.r) + k)[0].op) ==> Class((Rest(t.r) + k)[0].op) > Class(t.op))
             && (Soft(t.op) ==> !Meets(Rest(t.r) + k, Class(t.op))))
            <==> (t.r.Bin? ==> Class(t.r.op) > Class(t.op))
  {
    var c := Class(t.op);
    if t.r.Leaf? {
      assert Rest(t.r) + k == k;
    } else {
      TableAbove(t.r);
      RowHead(t.r);
      if Class(t.r.op) > c {
        assert Above(Rest(t.r), c + 1);
        MeetsSkips(Rest(t.r), k, c);
      } else if Class(t.r.op) == c {
        RowHas(t.r);
        MeetsSkips(Rest(t.r), k, c);
      }
    }
  }

  lemma {:induction false} RowHead(t: Tree)
    requires t.Bin? && Grouped(t)
    ensures Rest(t) != [] && (Special(t.op) ==> Rest(t)[0].op == t.op)
  {
  }

  lemma RowHas(t: Tree)
    requires t.Bin?
    ensures !Above(Rest(t), Class(t.op) + 1)
  {
    assert Rest(t)[|Rest(t.l)|].op == t.op;
  }

  lemma {:induction false} NoConsExact(t: Tree)
    ensures NoCons(t) <==> NoConsRow(Rest(t))
  {
    if t.Bin? {
      NoConsExact(t.l);
      NoConsExact(t.r);
      var n := |Rest(t.l)|;
      assert Rest(t)[n].op == t.op;
      assert forall i :: 0 <= i < n ==> Rest(t)[i] == Rest(t.l)[i];
      assert forall i :: 0 <= i < |Rest(t.r)| ==> Rest(t)[n + 1 + i] == Rest(t.r)[i];
    }
  }

  /** The parser follows the table exactly on the rows that are in order. */
  lemma ByTableExact(first: nat, rest: seq<Pair>)
    requires NoConsRow(rest)
    ensures ByTable(Climb(Leaf(first), rest, 0).0) <==> Orderly(rest)
  {
    var t := Climb(Leaf(first), rest, 0).0;
    ParseExact(first, rest, t);
    NoConsExact(t);
    TableExact(t, []);
    assert Rest(t) + [] == rest;
  }

  lemma {:induction false} PlainOrderly(rest: seq<Pair>)
    requires Plain(rest)
    ensures Orderly(rest)
  {
    if rest != [] {
      PlainOrderly(rest[1..]);
    }
  }

  /** A tree of the table is grouped, if it has no special operator. */
  lemma {:induction false} TableGrouped(t: Tree)
    requires ByTable(t) && Plain(Rest(t))
    ensures Grouped(t)
    ensures forall op :: !Special(op) && (t.Bin? ==> Class(t.op) >= Class(op)) ==> Closed(t, op)
    ensures forall c: nat :: (t.Bin? ==> Class(t.op) >= c) ==> Opened(t, c)
  {
    if t.Bin? {
      PlainParts(t);
      TableGrouped(t.l);
      TableGrouped(t.r);
    }
  }

  lemma PlainParts(t: Tree)
    requires t.Bin? && Plain(Rest(t))
    ensures !Special(t.op) && Plain(Rest(t.l)) && Plain(Rest(t.r))
  {
    var n := |Rest(t.l)|;
    assert Rest(t)[n].op == t.op;
    assert forall i :: 0 <= i < n ==> Rest(t)[i] == Rest(t.l)[i];
    assert forall i :: 0 <= i < |Rest(t.r)| ==> Rest(t)[n + 1 + i] == Rest(t.r)[i];
  }

  /** Over the operators of the table, the parse is the only tree with the row that the table allows. */
  lemma TableUnique(first: nat, rest: seq<Pair>, t: Tree)
    requires Plain(rest)
    ensures Climb(Leaf(first), rest, 0).0 == t <==> ByTable(t) && First(t) == first && Rest(t) == rest
  {
    ParseExact(first, rest, t);
    if Rest(t) == rest && First(t) == first {
      PlainOrderly(rest);
      ByTableExact(first, rest);
      if ByTable(t) {
        TableGrouped(t);
      }
    }
  }

  /** In `a == b .&. c == d` all of the rest goes into the first `==`, though `.&.` is of the class of `&&`. */
  lemma BothIsGreedy()
    ensures Climb(Leaf(0), [Pair(OpEq, 1), Pair(Both, 2), Pair(OpEq, 3)], 0).0
         == Bin(OpEq, Leaf(0), Bin(Both, Leaf(1), Bin(OpEq, Leaf(2), Leaf(3))))
    ensures !ByTable(Bin(OpEq, Leaf(0), Bin(Both, Leaf(1), Bin(OpEq, Leaf(2), Leaf(3)))))
  {
    var rest := [Pair(OpEq, 1), Pair(Both, 2), Pair(OpEq, 3)];
    var inner := Bin(OpEq, Leaf(2), Leaf(3));
    var t := Bin(OpEq, Leaf(0), Bin(Both, Leaf(1), inner));
    assert Rest(inner) == [Pair(OpEq, 3)];
    assert Rest(t.r) == [Pair(Both, 2), Pair(OpEq, 3)];
    assert Rest(t) == rest;
    assert Grouped(inner) && Grouped(t.r);
    ParseExact(0, rest, t);
  }
}
