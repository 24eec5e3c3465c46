/**
 Auto-dup on the heap: `auto_dup_go` overwrites the references of a term where they are, counting uses as it
 goes, and `parse_auto_dup` then builds the chain around the term.
 */
module AutoDupHeap {
  import opened AutoDup

  type Loc = int

  /** A word of the heap; the fields of a node are the cells from `at` on. */
  datatype Word =
    | WRef(kind: Kind, ext: nat, lvl: nat)
    | WLam(at: Loc)
    | WDup(lab: nat, at: Loc)
    | WNode(tag: nat, n: nat, at: Loc)

  /** Where the parts of a term are. */
  datatype Place = Place(loc: Loc, kids: seq<Place>)

  /** Cell `p.loc` holds the term `t`, and its parts are where `p` says. */
  ghost predicate Holds(h: map<Loc, Word>, p: Place, t: Book)
    decreases t
  {
    p.loc in h &&
    match t
    case Ref(kind, ext, lvl) => h[p.loc] == WRef(kind, ext, lvl) && p.kids == []
    case Lam(b) => h[p.loc].WLam? && |p.kids| == 1 && p.kids[0].loc == h[p.loc].at && Holds(h, p.kids[0], b)
    case Dup(l, v, b) =>
      && h[p.loc].WDup? && h[p.loc].lab == l && |p.kids| == 2
      && p.kids[0].loc == h[p.loc].at && Holds(h, p.kids[0], v)
      && p.kids[1].loc == h[p.loc].at + 1 && Holds(h, p.kids[1], b)
    case Node(tag, args) =>
      && h[p.loc].WNode? && h[p.loc].tag == tag && h[p.loc].n == |args| == |p.kids|
      && forall i :: 0 <= i < |args| ==> p.kids[i].loc == h[p.loc].at + i && Holds(h, p.kids[i], args[i])
  }

  function Foot(p: Place): set<Loc>
    decreases p, 0
  {
    {p.loc} + FootAll(p.kids)
  }

  function FootAll(ps: seq<Place>): set<Loc>
    decreases ps, 1
  {
    if ps == [] then {} else Foot(ps[0]) + FootAll(ps[1..])
  }

  /** The term is a tree: no cell is used twice. */
  predicate Tidy(p: Place)
    decreases p
  {
    && p.loc !in FootAll(p.kids)
    && (forall i :: 0 <= i < |p.kids| ==> Tidy(p.kids[i]))
    && (forall i, j :: 0 <= i < j < |p.kids| ==> Foot(p.kids[i]) !! Foot(p.kids[j]))
  }

  lemma {:induction false} FootIn(ps: seq<Place>, i: nat)
    requires i < |ps|
    ensures Foot(ps[i]) <= FootAll(ps)
  {
    if i > 0 {
      FootIn(ps[1..], i - 1);
    }
  }

  ghost predicate SameOn(h: map<Loc, Word>, h': map<Loc, Word>, s: set<Loc>) {
    forall l :: l in s && l in h ==> l in h' && h'[l] == h[l]
  }

  /** Only the cells of a term matter to it. */
  lemma {:induction false} Frame(h: map<Loc, Word>, h': map<Loc, Word>, p: Place, t: Book)
    requires Holds(h, p, t) && SameOn(h, h', Foot(p))
    ensures Holds(h', p, t)
    decreases t
  {
    assert p.loc in Foot(p);
    match t
    case Ref(_, _, _) =>
    case Lam(b) =>
      FootIn(p.kids, 0);
      Frame(h, h', p.kids[0], b);
    case Dup(_, v, b) =>
      FootIn(p.kids, 0);
      FootIn(p.kids, 1);
      Frame(h, h', p.kids[0], v);
      Frame(h, h', p.kids[1], b);
    case Node(_, args) =>
      forall i | 0 <= i < |args|
        ensures Holds(h', p.kids[i], args[i])
      {
        FootIn(p.kids, i);
        Frame(h, h', p.kids[i], args[i]);
      }
  }

  lemma {:induction false} GoAllAt(ts: seq<Book>, g: Target, c: Chain, use: nat, i: nat)
    requires c.n > 0 && i < |ts|
    ensures GoAll(ts, g, c, use)[i] == Go(ts[i], g, c, use + CountAll(ts[..i], g))
  {
    if i > 0 {
      GoAllAt(ts[1..], g, c, use + Count(ts[0], g), i - 1);
      assert ts[..i][1..] == ts[1..][..i - 1];
    }
  }

  lemma CountNext(ts: seq<Book>, g: Target, i: nat)
    requires i < |ts|
    ensures CountAll(ts[..i + 1], g) == CountAll(ts[..i], g) + Count(ts[i], g)
  {
    assert ts[..i + 1] == ts[..i] + [ts[i]];
    Append(ts[..i], [ts[i]], g);
    One(ts[i], g);
  }

  /** The first label that is not for auto-dup. */
  const DYN_LAB := 0x3FFFF

  class Parser {
    var h: map<Loc, Word>
    var next: Loc
    var freshLab: nat

    /** `auto_dup_go`; `use` is the counter before and after. */
    method GoAt(loc: Loc, g: Target, c: Chain, use: nat, ghost p: Place, ghost t: Book) returns (use': nat)
      requires c.n > 0 && p.loc == loc && Holds(h, p, t) && Tidy(p)
      modifies `h
      ensures Holds(h, p, Go(t, g, c, use)) && use' == use + Count(t, g)
      ensures h.Keys == old(h).Keys && forall l :: l in h && l !in Foot(p) ==> h[l] == old(h)[l]
      decreases t, 1
    {
      var w := h[loc];
      use' := use;
      match w
      case WRef(kind, ext, lvl) =>
        if kind == g.kind && lvl == g.lvl && (g.kind == BJV || ext == g.ext) {
          h := h[loc := if use < c.n then WRef(BJ0, c.lab + use, c.base + 1 + use)
                 else WRef(BJ1, c.lab + c.n - 1, c.base + c.n)];
          use' := use + 1;
        } else if lvl > c.base {
          h := h[loc := WRef(kind, ext, lvl + c.n)];
        }
      case WLam(at) =>
        FootIn(p.kids, 0);
        use' := GoAt(at, g, c, use, p.kids[0], t.body);
      case WDup(_, at) =>
        use' := GoDup(at, g, c, use, p, t);
      case WNode(_, n, at) =>
        use' := GoFields(at, n, g, c, use, p, t);
    }

    method GoDup(at: Loc, g: Target, c: Chain, use: nat, ghost p: Place, ghost t: Book) returns (use': nat)
      requires c.n > 0 && Holds(h, p, t) && Tidy(p) && t.Dup? && h[p.loc].at == at
      modifies `h
      ensures Holds(h, p, Go(t, g, c, use)) && use' == use + Count(t, g)
      ensures h.Keys == old(h).Keys && forall l :: l in h && l !in Foot(p) ==> h[l] == old(h)[l]
      decreases t, 0
    {
      ghost var p0, p1 := p.kids[0], p.kids[1];
      FootIn(p.kids, 0);
      FootIn(p.kids, 1);
      ghost var h0 := h;
      use' := GoAt(at, g, c, use, p0, t.val);
      Frame(h0, h, p1, t.body);
      ghost var h1 := h;
      use' := GoAt(at + 1, g, c, use', p1, t.body);
      Frame(h1, h, p0, Go(t.val, g, c, use));
    }

    /** The loop over the fields of a node. */
    method GoFields(at: Loc, n: nat, g: Target, c: Chain, use: nat, ghost p: Place, ghost t: Book) returns (use': nat)
      requires c.n > 0 && Holds(h, p, t) && Tidy(p) && t.Node? && h[p.loc].at == at && n == |t.args|
      modifies `h
      ensures Holds(h, p, Go(t, g, c, use)) && use' == use + Count(t, g)
      ensures h.Keys == old(h).Keys && forall l :: l in h && l !in Foot(p) ==> h[l] == old(h)[l]
      decreases t, 0
    {
      ghost var ps, ts := p.kids, t.args;
      ghost var h0 := h;
      use' := use;
      var i := 0;
      assert ts[..0] == [];
      while i < n
        invariant 0 <= i <= n && use' == use + CountAll(ts[..i], g) && Part(h, ps, ts, g, c, use, i)
        invariant h.Keys == h0.Keys && forall l :: l in h && l !in FootAll(ps) ==> h[l] == h0[l]
      {
        ghost var h1 := h;
        FootIn(ps, i);
        use' := GoAt(at + i, g, c, use', ps[i], ts[i]);
        CountNext(ts, g, i);
        PartStep(h1, h, ps, ts, g, c, use, i);
        i := i + 1;
      }
      assert ts[..n] == ts;
      PartDone(h, p, t, at, g, c, use);
    }

    /** `parse_auto_dup`: below the root first, then the chain from the inside out. It fails when labels run out. */
    method ParseAutoDup(loc: Loc, g: Target, base: nat, uses: nat, ghost p: Place, ghost t: Book)
      returns (ok: bool, res: Word, ghost q: Place, ghost u: Book)
      requires p.loc == loc && Holds(h, p, t) && Tidy(p) && (forall l :: l in h ==> l < next)
      modifies this
      ensures ok <==> uses <= 1 || (old(freshLab) < DYN_LAB && old(freshLab) + uses - 1 <= DYN_LAB)
      ensures ok ==> u == Expand(t, g, base, old(freshLab), uses) && Holds(h[q.loc := res], q, u)
      ensures ok ==> freshLab == old(freshLab) + (if uses <= 1 then 0 else uses - 1)
    {
      ok, res, q, u := true, h[loc], p, t;
      if uses <= 1 {
        assert h[loc := res] == h;
        return;
      }
      var n := uses - 1;
      if freshLab >= DYN_LAB || freshLab + n > DYN_LAB {
        ok := false;
        return;
      }
      var c := Chain(base, n, freshLab);
      freshLab := freshLab + n;
      if !h[loc].WRef? {
        var _ := GoAt(loc, g, c, 0, p, t);
      }
      u := GoBelow(t, g, c);
      res, q, u := WrapUp(loc, g, c, p, u);
    }

    /** One more binder around the term `t`, whose top word is `w`. */
    method WrapOne(g: Target, c: Chain, i: nat, w: Word, ghost p: Place, ghost t: Book)
      returns (res: Word, ghost q: Place, ghost u: Book)
      requires c.n > i && Holds(h[p.loc := w], p, t) && p.loc !in FootAll(p.kids) && FootAll(p.kids) <= h.Keys
      requires forall l :: l in h ==> l < next
      modifies `h, `next
      ensures u == Dup(c.lab + i, Source(g, c, i), t) && Holds(h[q.loc := res], q, u)
      ensures q.loc !in FootAll(q.kids) && FootAll(q.kids) <= h.Keys && forall l :: l in h ==> l < next
    {
      var v := if i == 0 then WRef(g.kind, g.ext, g.lvl) else WRef(BJ1, c.lab + i - 1, c.base + i);
      var at := next;
      next := next + 2;
      Grow(h, p, t, w, at, v, Source(g, c, i), c.lab + i);
      h := h[at := v][at + 1 := w];
      q := Place(next, [Place(at, []), Place(at + 1, p.kids)]);
      res := WDup(c.lab + i, at);
      u := Dup(c.lab + i, Source(g, c, i), t);
    }

    /** The chain-building loop; the term under construction is kept in `res`, not in a cell. */
    method WrapUp(loc: Loc, g: Target, c: Chain, ghost p: Place, ghost t: Book)
      returns (res: Word, ghost q: Place, ghost u: Book)
      requires p.loc == loc && Holds(h, p, t) && c.n > 0 && loc !in FootAll(p.kids) && (forall l :: l in h ==> l < next)
      modifies `h, `next
      ensures u == Wrap(t, g, c, 0) && Holds(h[q.loc := res], q, u)
    {
      res, q, u := h[loc], p, t;
      assert h[loc := res] == h;
      KidsThere(h, p, t);
      var i := c.n;
      while i > 0
        invariant 0 <= i <= c.n && u == Wrap(t, g, c, i) && Holds(h[q.loc := res], q, u)
        invariant q.loc !in FootAll(q.kids) && FootAll(q.kids) <= h.Keys
        invariant forall l :: l in h ==> l < next
        decreases i
      {
        i := i - 1;
        res, q, u := WrapOne(g, c, i, res, q, u);
      }
    }
  }

  /** One more binder around the term `u`. */
  lemma Grow(h: map<Loc, Word>, q: Place, u: Book, res: Word, at: Loc, v: Word, src: Book, lab: nat)
    requires Holds(h[q.loc := res], q, u) && q.loc !in FootAll(q.kids) && FootAll(q.kids) <= h.Keys
    requires (forall l :: l in h ==> l < at) && src.Ref? && v == WRef(src.kind, src.ext, src.lvl)
    ensures var (h2, q2) := (h[at := v][at + 1 := res], Place(at + 2, [Place(at, []), Place(at + 1, q.kids)]));
            && Holds(h2[at + 2 := WDup(lab, at)], q2, Dup(lab, src, u))
            && q2.loc !in FootAll(q2.kids) && FootAll(q2.kids) <= h2.Keys
  {
    var h2 := h[at := v][at + 1 := res];
    Move(h[q.loc := res], h2[at + 2 := WDup(lab, at)], q, at + 1, u);
    TwoKids(Place(at, []), Place(at + 1, q.kids));
    assert Foot(Place(at, [])) == {at} && Foot(Place(at + 1, q.kids)) == {at + 1} + FootAll(q.kids);
  }

  lemma TwoKids(p: Place, q: Place)
    ensures FootAll([p, q]) == Foot(p) + Foot(q)
  {
    assert [p, q][1..] == [q] && [q][1..] == [];
    assert FootAll([q]) == Foot(q) + FootAll([]);
  }

  /** A term that holds is in the heap. */
  lemma {:induction false} Present(h: map<Loc, Word>, p: Place, t: Book)
    requires Holds(h, p, t)
    ensures Foot(p) <= h.Keys
    decreases t, 1
  {
    KidsThere(h, p, t);
  }

  lemma {:induction false} KidsThere(h: map<Loc, Word>, p: Place, t: Book)
    requires Holds(h, p, t)
    ensures FootAll(p.kids) <= h.Keys
    decreases t, 0
  {
    match t
    case Ref(_, _, _) =>
    case Lam(b) =>
      Present(h, p.kids[0], b);
      assert p.kids[1..] == [];
    case Dup(_, v, b) =>
      Present(h, p.kids[0], v);
      Present(h, p.kids[1], b);
      assert p.kids == [p.kids[0], p.kids[1]];
      TwoKids(p.kids[0], p.kids[1]);
    case Node(_, args) =>
      forall i | 0 <= i < |p.kids|
        ensures Foot(p.kids[i]) <= h.Keys
      {
        Present(h, p.kids[i], args[i]);
      }
      AllWithin(p.kids, h.Keys);
  }

  lemma {:induction false} AllWithin(ps: seq<Place>, s: set<Loc>)
    requires forall i :: 0 <= i < |ps| ==> Foot(ps[i]) <= s
    ensures FootAll(ps) <= s
  {
    if ps != [] {
      AllWithin(ps[1..], s);
    }
  }

  /** A term whose root word goes to another cell. */
  lemma Move(h: map<Loc, Word>, h': map<Loc, Word>, q: Place, to: Loc, t: Book)
    requires Holds(h, q, t) && SameOn(h, h', FootAll(q.kids)) && to in h' && h'[to] == h[q.loc]
    ensures Holds(h', Place(to, q.kids), t)
  {
    forall i, u | 0 <= i < |q.kids| && Holds(h, q.kids[i], u)
      ensures Holds(h', q.kids[i], u)
    {
      FootIn(q.kids, i);
      Frame(h, h', q.kids[i], u);
    }
  }

  /** What field `k` becomes. */
  function Want(ts: seq<Book>, g: Target, c: Chain, use: nat, k: nat): Book
    requires c.n > 0 && k < |ts|
  {
    Go(ts[k], g, c, use + CountAll(ts[..k], g))
  }

  /** The fields before `i` are rewritten, the others are not yet. */
  ghost predicate Part(h: map<Loc, Word>, ps: seq<Place>, ts: seq<Book>, g: Target, c: Chain, use: nat, i: nat)
    requires c.n > 0
  {
    && i <= |ps| == |ts|
    && (forall k :: 0 <= k < i ==> Holds(h, ps[k], Want(ts, g, c, use, k)))
    && (forall k :: i <= k < |ps| ==> Holds(h, ps[k], ts[k]))
  }

  /** Rewriting one field leaves the others. */
  lemma OtherField(h: map<Loc, Word>, h': map<Loc, Word>, ps: seq<Place>, i: nat, k: nat, t: Book)
    requires i < |ps| && k < |ps| && k != i && Foot(ps[k]) !! Foot(ps[i]) && h'.Keys == h.Keys && Holds(h, ps[k], t)
    requires forall l :: l in h && l !in Foot(ps[i]) ==> h'[l] == h[l]
    ensures Holds(h', ps[k], t)
  {
    Frame(h, h', ps[k], t);
  }

  lemma PartStep(h: map<Loc, Word>, h': map<Loc, Word>, ps: seq<Place>, ts: seq<Book>, g: Target, c: Chain, use: nat,
                 i: nat)
    requires c.n > 0 && i < |ps| && Part(h, ps, ts, g, c, use, i) && h'.Keys == h.Keys
    requires forall l :: l in h && l !in Foot(ps[i]) ==> h'[l] == h[l]
    requires forall k, j :: 0 <= k < j < |ps| ==> Foot(ps[k]) !! Foot(ps[j])
    requires Holds(h', ps[i], Want(ts, g, c, use, i))
    ensures Part(h', ps, ts, g, c, use, i + 1)
  {
    forall k | 0 <= k < i {
      OtherField(h, h', ps, i, k, Want(ts, g, c, use, k));
    }
    forall k | i < k < |ps| {
      OtherField(h, h', ps, i, k, ts[k]);
    }
  }

  lemma PartDone(h: map<Loc, Word>, p: Place, t: Book, at: Loc, g: Target, c: Chain, use: nat)
    requires c.n > 0 && t.Node? && p.loc in h && h[p.loc] == WNode(t.tag, |t.args|, at) && |p.kids| == |t.args|
    requires forall i :: 0 <= i < |p.kids| ==> p.kids[i].loc == at + i
    requires Part(h, p.kids, t.args, g, c, use, |t.args|)
    ensures Holds(h, p, Go(t, g, c, use))
  {
    var us := GoAll(t.args, g, c, use);
    forall k | 0 <= k < |us|
      ensures us[k] == Want(t.args, g, c, use, k)
    {
      GoAllAt(t.args, g, c, use, k);
    }
    NodeHolds(h, p, t.tag, at, us);
  }

  lemma NodeHolds(h: map<Loc, Word>, p: Place, tag: nat, at: Loc, us: seq<Book>)
    requires p.loc in h && h[p.loc] == WNode(tag, |us|, at) && |p.kids| == |us|
    requires forall i :: 0 <= i < |us| ==> p.kids[i].loc == at + i && Holds(h, p.kids[i], us[i])
    ensures Holds(h, p, Node(tag, us))
  {
  }
}
