/**
 Lazy instantiation of book terms, `clang/wnf/alo_*.c`. An `ALO` pairs a book term with the list of the
 binders made so far; expanding it makes one layer of the term, with `ALO`s for its parts. The list hangs
 together by the second cells of the binders, innermost first. List and book location are packed in a word.
 */
module Alo {
  import AutoDup

  type Book = AutoDup.Book
  type Kind = AutoDup.Kind

  type Loc = int

  const TM := 0x100_0000          // 2^24: book locations
  const LS := 0x40_0000_0000      // 2^38: heap locations
  const EXT := 0x4_0000           // 2^18: the list's length in an `ALO`
  const MAX := 65536              // 2^16: the length that `wnf_alo_dup` takes

  /** A word of a book term. */
  datatype Word =
    | WRef(kind: Kind, ext: nat, lvl: nat)
    | WLam(at: Loc)
    | WDup(lab: nat, at: Loc)
    | WNode(tag: nat, n: nat, at: Loc)

  /** A word of the heap. `Link` is the number in the second cell of a binder, `Pair` the packed word. */
  datatype Term =
    | Var(loc: Loc)
    | Dp(side: nat, lab: nat, loc: Loc)
    | LamT(loc: Loc)
    | NodeT(tag: nat, n: nat, loc: Loc)
    | Free(kind: Kind, ext: nat, lvl: nat)
    | AloT(len: nat, at: Loc)
    | Link(prev: Loc)
    | Pair(word: nat)

  type Cells = map<Loc, Term>

  // ---------------------------------------------------------------------------
  // Packed words
  // ---------------------------------------------------------------------------

  /** Masking, shifting and or-ing. */
  function Pack(ls: nat, tm: nat): nat {
    (ls % LS) * TM + tm % TM
  }

  function UnpackLs(w: nat): nat {
    (w / TM) % LS
  }

  function UnpackTm(w: nat): nat {
    w % TM
  }

  lemma PackUnpack(ls: nat, tm: nat)
    requires ls < LS && tm < TM
    ensures UnpackLs(Pack(ls, tm)) == ls && UnpackTm(Pack(ls, tm)) == tm
  {
    assert Pack(ls, tm) == ls * TM + tm;
    assert (ls * TM + tm) / TM == ls;
  }

  // ---------------------------------------------------------------------------
  // The book
  // ---------------------------------------------------------------------------

  /** The book cells hold the terms `terms`. */
  ghost predicate IsBook(book: map<Loc, Word>, terms: map<Loc, Book>) {
    forall l :: l in terms ==> 0 <= l < TM && l in book && Encodes(book[l], terms, terms[l])
  }

  ghost predicate IsPart(terms: map<Loc, Book>, l: Loc, t: Book) {
    l in terms && terms[l] == t
  }

  ghost predicate IsParts(terms: map<Loc, Book>, l: Loc, ts: seq<Book>) {
    forall i :: 0 <= i < |ts| ==> IsPart(terms, l + i, ts[i])
  }

  ghost predicate Encodes(w: Word, terms: map<Loc, Book>, t: Book) {
    match t
    case Ref(kind, ext, lvl) => w == WRef(kind, ext, lvl)
    case Lam(b) => w.WLam? && IsPart(terms, w.at, b)
    case Dup(lab, v, b) => w.WDup? && w.lab == lab && IsPart(terms, w.at, v) && IsPart(terms, w.at + 1, b)
    case Node(tag, args) => w.WNode? && w.tag == tag && w.n == |args| <= 16 && IsParts(terms, w.at, args)
  }

  // ---------------------------------------------------------------------------
  // Binder lists
  // ---------------------------------------------------------------------------

  /** The list from `ls` on is the environment `env`, its last binder first. */
  ghost predicate Linked(h: Cells, ls: Loc, env: seq<Loc>)
    decreases |env|
  {
    if env == [] then ls == 0
    else
      var n := |env| - 1;
      ls == env[n] && 0 < ls < LS && ls + 1 in h && h[ls + 1].Link? && Linked(h, h[ls + 1].prev, env[..n])
  }

  /** What a reference becomes: `it` is the binder found, or 0. */
  function Found(kind: Kind, ext: nat, lvl: nat, it: Loc): Term {
    if it == 0 then Free(kind, ext, lvl)
    else match kind
      case BJV => Var(it)
      case BJ0 => Dp(0, ext, it)
      case BJ1 => Dp(1, ext, it)
  }

  /** The reference in an environment, eagerly. */
  function Lookup(kind: Kind, ext: nat, lvl: nat, env: seq<Loc>): Term {
    if 1 <= lvl <= |env| then Found(kind, ext, lvl, env[lvl - 1]) else Free(kind, ext, lvl)
  }

  // ---------------------------------------------------------------------------
  // Instances
  // ---------------------------------------------------------------------------

  /** The term `x` is the `ALO` of the term `t` in the environment `env`. */
  ghost predicate AloOf(h: Cells, x: Term, terms: map<Loc, Book>, t: Book, env: seq<Loc>) {
    && x.AloT? && x.len == |env|
    && if env == [] then IsPart(terms, x.at, t)
       else
         x.at in h && h[x.at].Pair?
         && IsPart(terms, UnpackTm(h[x.at].word), t) && Linked(h, UnpackLs(h[x.at].word), env)
  }

  ghost predicate IsAlo(h: Cells, c: Loc, terms: map<Loc, Book>, t: Book, env: seq<Loc>) {
    c in h && AloOf(h, h[c], terms, t, env)
  }

  /** Cell `c` holds the term `t` in the environment `env`, as far as it is expanded. A `DUP` leaves its body. */
  ghost predicate Partly(h: Cells, c: Loc, terms: map<Loc, Book>, t: Book, env: seq<Loc>)
    decreases t, 1
  {
    IsAlo(h, c, terms, t, env) || Layer(h, c, terms, t, env)
  }

  ghost predicate Layer(h: Cells, c: Loc, terms: map<Loc, Book>, t: Book, env: seq<Loc>)
    decreases t, 0
  {
    c in h &&
    match t
    case Ref(kind, ext, lvl) => h[c] == Lookup(kind, ext, lvl, env)
    case Lam(b) => h[c].LamT? && Later(c, h[c].loc, env) && Partly(h, h[c].loc, terms, b, env + [h[c].loc])
    case Dup(_, v, b) => exists d: Loc ::
      Later(c, d, env) && Partly(h, d, terms, v, env) && Partly(h, c, terms, b, env + [d])
    case Node(tag, args) =>
      && h[c].NodeT? && h[c].tag == tag && h[c].n == |args| && (args != [] ==> c < h[c].loc)
      && forall i :: 0 <= i < |args| ==> Partly(h, h[c].loc + i, terms, args[i], env)
  }

  /** A binder is made after the cell it is for, and is not yet in scope. */
  ghost predicate Later(c: Loc, d: Loc, env: seq<Loc>) {
    c < d && d !in env
  }

  /** The term with the whole environment substituted at once. */
  ghost predicate Instance(h: Cells, c: Loc, t: Book, env: seq<Loc>)
    decreases t
  {
    c in h &&
    match t
    case Ref(kind, ext, lvl) => h[c] == Lookup(kind, ext, lvl, env)
    case Lam(b) => h[c].LamT? && Later(c, h[c].loc, env) && Instance(h, h[c].loc, b, env + [h[c].loc])
    case Dup(_, v, b) => exists d: Loc :: Later(c, d, env) && Instance(h, d, v, env) && Instance(h, c, b, env + [d])
    case Node(tag, args) =>
      && h[c].NodeT? && h[c].tag == tag && h[c].n == |args| && (args != [] ==> c < h[c].loc)
      && forall i :: 0 <= i < |args| ==> Instance(h, h[c].loc + i, args[i], env)
  }

  ghost predicate NoAlo(h: Cells) {
    forall c :: c in h ==> !h[c].AloT?
  }

  /** When no `ALO` is left, the lazy instance is the eager one. */
  lemma {:induction false} Complete(h: Cells, c: Loc, terms: map<Loc, Book>, t: Book, env: seq<Loc>)
    requires Partly(h, c, terms, t, env) && NoAlo(h)
    ensures Instance(h, c, t, env)
    decreases t
  {
    match t
    case Ref(_, _, _) =>
    case Lam(b) => Complete(h, h[c].loc, terms, b, env + [h[c].loc]);
    case Dup(_, v, b) =>
      var d :| Later(c, d, env) && Partly(h, d, terms, v, env) && Partly(h, c, terms, b, env + [d]);
      Complete(h, d, terms, v, env);
      Complete(h, c, terms, b, env + [d]);
    case Node(_, args) =>
      forall i | 0 <= i < |args| {
        Complete(h, h[c].loc + i, terms, args[i], env);
      }
  }

  // ---------------------------------------------------------------------------
  // Ownership
  // ---------------------------------------------------------------------------

  /** The term is the only one that points to cell `l`: an `ALO` to its word, a binder or a node to its block. */
  predicate Claims(x: Term, l: Loc) {
    match x
    case AloT(len, at) => len > 0 && l == at
    case LamT(loc) => loc <= l < loc + 2
    case NodeT(_, n, loc) => loc <= l < loc + n
    case _ => false
  }

  ghost predicate Owned(h: Cells) {
    forall a, b, l :: a in h && b in h && a != b && Claims(h[a], l) ==> !Claims(h[b], l)
  }

  ghost predicate Under(h: Cells, next: Loc) {
    && 0 < next
    && (forall l :: l in h ==> 0 < l < next)
    && forall a, l :: a in h && Claims(h[a], l) ==> l < next
  }

  /** What an expansion of cell `a` did: it changed `a`, the word of its `ALO`, and cells from `next` on. */
  ghost predicate Touches(h: Cells, h': Cells, a: Loc, next: Loc) {
    && a in h && h[a].AloT? && a in h'
    && (forall l :: l in h && l != a ==> l in h' && (h'[l] == h[l] || (Claims(h[a], l) && h[l].Pair? && h'[l].Pair?)))
    && forall l :: l in h' && l !in h ==> next <= l
  }

  /** The cells changed own new cells, or the old word, and no two of them the same. */
  ghost predicate Apart(h: Cells, h': Cells, a: Loc, next: Loc)
    requires a in h
  {
    && (forall x, l :: x in h' && (x == a || next <= x) && Claims(h'[x], l) ==> next <= l || Claims(h[a], l))
    && forall x, y, l ::
         x in h' && y in h' && (x == a || next <= x) && (y == a || next <= y) && x != y && Claims(h'[x], l) ==>
           !Claims(h'[y], l)
  }

  lemma OwnedStays(h: Cells, h': Cells, a: Loc, next: Loc)
    requires Owned(h) && Under(h, next) && Touches(h, h', a, next) && Apart(h, h', a, next)
    ensures Owned(h')
  {
    forall x, y, l | x in h' && y in h' && x != y && Claims(h'[x], l)
      ensures !Claims(h'[y], l)
    {
      if x != a && x in h {
        assert Claims(h[x], l);
      }
    }
  }

  // ---------------------------------------------------------------------------
  // One expansion leaves the rest alone
  // ---------------------------------------------------------------------------

  lemma {:induction false} LinksStay(h: Cells, h': Cells, a: Loc, next: Loc, ls: Loc, env: seq<Loc>)
    requires Linked(h, ls, env) && Touches(h, h', a, next)
    ensures Linked(h', ls, env)
    decreases |env|
  {
    if env != [] {
      LinksStay(h, h', a, next, h[ls + 1].prev, env[..|env| - 1]);
    }
  }

  lemma {:induction false} SameEnv(h: Cells, ls: Loc, env: seq<Loc>, other: seq<Loc>)
    requires Linked(h, ls, env) && Linked(h, ls, other) && |env| == |other|
    ensures env == other
    decreases |env|
  {
    var n := |env| - 1;
    if env != [] {
      SameEnv(h, h[ls + 1].prev, env[..n], other[..n]);
      assert env == env[..n] + [ls] && other == other[..n] + [ls];
    }
  }

  /** An `ALO` says which term it stands for. */
  lemma SameAlo(h: Cells, c: Loc, terms: map<Loc, Book>, t: Book, env: seq<Loc>, u: Book, other: seq<Loc>)
    requires IsAlo(h, c, terms, t, env) && IsAlo(h, c, terms, u, other)
    ensures t == u && env == other
  {
    if env != [] {
      SameEnv(h, UnpackLs(h[h[c].at].word), env, other);
    }
  }

  lemma AloStays(h: Cells, h': Cells, a: Loc, next: Loc, c: Loc, terms: map<Loc, Book>, t: Book, env: seq<Loc>)
    requires Owned(h) && Touches(h, h', a, next) && IsAlo(h, c, terms, t, env) && c != a
    ensures IsAlo(h', c, terms, t, env)
  {
    assert h'[c] == h[c];
    if env != [] {
      assert Claims(h[c], h[c].at);
      LinksStay(h, h', a, next, UnpackLs(h[h[c].at].word), env);
    }
  }

  /** What holds a term still holds it after another cell, or itself, was expanded. */
  lemma {:induction false} PartlyStays(h: Cells, h': Cells, a: Loc, next: Loc, u: Book, e: seq<Loc>,
                                       c: Loc, terms: map<Loc, Book>, t: Book, env: seq<Loc>)
    requires Owned(h) && Touches(h, h', a, next) && Partly(h, c, terms, t, env)
    requires IsAlo(h, a, terms, u, e) && Partly(h', a, terms, u, e)
    ensures Partly(h', c, terms, t, env)
    decreases t
  {
    if IsAlo(h, c, terms, t, env) {
      if c == a {
        SameAlo(h, a, terms, t, env, u, e);
      } else {
        AloStays(h, h', a, next, c, terms, t, env);
      }
    } else {
      match t
      case Ref(_, _, _) =>
      case Lam(b) => PartlyStays(h, h', a, next, u, e, h[c].loc, terms, b, env + [h[c].loc]);
      case Dup(_, v, b) =>
        var d :| Later(c, d, env) && Partly(h, d, terms, v, env) && Partly(h, c, terms, b, env + [d]);
        PartlyStays(h, h', a, next, u, e, d, terms, v, env);
        PartlyStays(h, h', a, next, u, e, c, terms, b, env + [d]);
        InHeap(h', c, terms, b, env + [d]);
      case Node(_, args) =>
        forall i | 0 <= i < |args| {
          PartlyStays(h, h', a, next, u, e, h[c].loc + i, terms, args[i], env);
        }
    }
  }

  lemma InHeap(h: Cells, c: Loc, terms: map<Loc, Book>, t: Book, env: seq<Loc>)
    requires Partly(h, c, terms, t, env)
    ensures c in h
  {
  }

  lemma {:induction false} EnvUnder(h: Cells, next: Loc, ls: Loc, env: seq<Loc>)
    requires Under(h, next) && Linked(h, ls, env)
    ensures forall d :: d in env ==> d < next
    decreases |env|
  {
    if env != [] {
      var n := |env| - 1;
      EnvUnder(h, next, h[ls + 1].prev, env[..n]);
      assert env == env[..n] + [ls];
    }
  }
}
