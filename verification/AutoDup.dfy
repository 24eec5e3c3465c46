/**
 Auto-dup, `clang/parse/auto_dup.c`: a binder that is used several times is rewritten into a chain of
 `DUP` binders, one for each use but the last. Terms refer to binders by level, counted from the outside.
 */
module AutoDup {
  /** How a reference is written: to a variable, or to one side of a `DUP`. */
  datatype Kind = BJV | BJ0 | BJ1

  /** Desugared terms. A reference is to the binder at level `lvl`, the outermost being 1. */
  datatype Book =
    | Ref(kind: Kind, ext: nat, lvl: nat)
    | Lam(body: Book)
    | Dup(lab: nat, val: Book, body: Book)
    | Node(tag: nat, args: seq<Book>)

  /** The references to be replaced. */
  datatype Target = Target(kind: Kind, ext: nat, lvl: nat)

  predicate Hits(t: Book, g: Target) {
    t.Ref? && t.kind == g.kind && t.lvl == g.lvl && (g.kind == BJV || t.ext == g.ext)
  }

  // ---------------------------------------------------------------------------
  // Counting uses
  // ---------------------------------------------------------------------------

  function Count(t: Book, g: Target): nat
    decreases t, 0
  {
    match t
    case Ref(_, _, _) => if Hits(t, g) then 1 else 0
    case Lam(b) => Count(b, g)
    case Dup(_, v, b) => Count(v, g) + Count(b, g)
    case Node(_, args) => CountAll(args, g)
  }

  function CountAll(ts: seq<Book>, g: Target): nat
    decreases ts, 1
  {
    if ts == [] then 0 else Count(ts[0], g) + CountAll(ts[1..], g)
  }

  /** The terms directly below, in order. */
  function Children(t: Book): seq<Book> {
    match t
    case Ref(_, _, _) => []
    case Lam(b) => [b]
    case Dup(_, v, b) => [v, b]
    case Node(_, args) => args
  }

  function Size(t: Book): nat
    decreases t, 0
  {
    match t
    case Ref(_, _, _) => 1
    case Lam(b) => 1 + Size(b)
    case Dup(_, v, b) => 1 + Size(v) + Size(b)
    case Node(_, args) => 1 + SizeAll(args)
  }

  function SizeAll(ts: seq<Book>): nat
    decreases ts, 1
  {
    if ts == [] then 0 else Size(ts[0]) + SizeAll(ts[1..])
  }

  lemma {:induction false} Append(ts: seq<Book>, us: seq<Book>, g: Target)
    ensures CountAll(ts + us, g) == CountAll(ts, g) + CountAll(us, g)
    ensures SizeAll(ts + us) == SizeAll(ts) + SizeAll(us)
  {
    if ts == [] {
      assert ts + us == us;
    } else {
      Append(ts[1..], us, g);
      assert (ts + us)[1..] == ts[1..] + us;
    }
  }

  lemma One(t: Book, g: Target)
    ensures CountAll([t], g) == Count(t, g) && SizeAll([t]) == Size(t)
  {
    assert [t][1..] == [];
  }

  lemma Below(t: Book, g: Target)
    ensures Count(t, g) == (if Hits(t, g) then 1 else 0) + CountAll(Children(t), g)
    ensures Size(t) == 1 + SizeAll(Children(t))
  {
    match t
    case Lam(b) => One(b, g);
    case Dup(_, v, b) =>
      One(b, g);
      assert [v, b][1..] == [b];
    case _ =>
  }

  /** `count_uses`, with its explicit stack. */
  method CountUses(t: Book, g: Target) returns (uses: nat)
    ensures uses == Count(t, g)
  {
    var stack := [t];
    uses := 0;
    One(t, g);
    while stack != []
      invariant uses + CountAll(stack, g) == Count(t, g)
      decreases SizeAll(stack)
    {
      var n := |stack| - 1;
      var u := stack[n];
      Append(stack[..n], [u], g);
      assert stack == stack[..n] + [u];
      One(u, g);
      Below(u, g);
      Append(stack[..n], Children(u), g);
      if Hits(u, g) {
        uses := uses + 1;
      }
      stack := stack[..n] + Children(u);
    }
  }

  // ---------------------------------------------------------------------------
  // The rewrite
  // ---------------------------------------------------------------------------

  /** `n` new binders follow the `base` outer ones; their labels are `lab`, `lab + 1` and so on. */
  datatype Chain = Chain(base: nat, n: nat, lab: nat)

  /** What the `use`-th use becomes. */
  function Use(c: Chain, use: nat): Book
    requires c.n > 0
  {
    if use < c.n then Ref(BJ0, c.lab + use, c.base + 1 + use) else Ref(BJ1, c.lab + c.n - 1, c.base + c.n)
  }

  /** `auto_dup_go`, when `use` uses have been replaced before. */
  function Go(t: Book, g: Target, c: Chain, use: nat): Book
    requires c.n > 0
    decreases t, 0
  {
    match t
    case Ref(kind, ext, lvl) =>
      if Hits(t, g) then Use(c, use) else if lvl > c.base then Ref(kind, ext, lvl + c.n) else t
    case Lam(b) => Lam(Go(b, g, c, use))
    case Dup(l, v, b) => Dup(l, Go(v, g, c, use), Go(b, g, c, use + Count(v, g)))
    case Node(tag, args) => Node(tag, GoAll(args, g, c, use))
  }

  function GoAll(ts: seq<Book>, g: Target, c: Chain, use: nat): (us: seq<Book>)
    requires c.n > 0
    ensures |us| == |ts|
    decreases ts, 1
  {
    if ts == [] then [] else [Go(ts[0], g, c, use)] + GoAll(ts[1..], g, c, use + Count(ts[0], g))
  }

  /** What the `i`-th new binder binds: the target, or the rest of the previous one. */
  function Source(g: Target, c: Chain, i: nat): Book {
    if i == 0 then Ref(g.kind, g.ext, g.lvl) else Ref(BJ1, c.lab + i - 1, c.base + i)
  }

  /** The new binders from the `i`-th on, around `body`. */
  function Wrap(body: Book, g: Target, c: Chain, i: nat): Book
    decreases c.n - i
  {
    if i >= c.n then body else Dup(c.lab + i, Source(g, c, i), Wrap(body, g, c, i + 1))
  }

  /** The rewrite starts below `body` itself. */
  function GoBelow(body: Book, g: Target, c: Chain): Book
    requires c.n > 0
  {
    if body.Ref? then body else Go(body, g, c, 0)
  }

  /** `parse_auto_dup`, when the target is used `uses` times. */
  function Expand(body: Book, g: Target, base: nat, lab: nat, uses: nat): Book {
    if uses <= 1 then body
    else
      var c := Chain(base, uses - 1, lab);
      Wrap(GoBelow(body, g, c), g, c, 0)
  }

  // ---------------------------------------------------------------------------
  // Reading back
  // ---------------------------------------------------------------------------

  /** Terms without sharing: variables are numbered by the lambdas outside, `DUP`s are unfolded. */
  datatype Tree = Var(k: nat) | Abs(body: Tree) | App(tag: nat, args: seq<Tree>) | Free(kind: Kind, ext: nat, lvl: nat)

  /** Both sides of a `DUP` stand for its value. */
  function Read(t: Book, env: seq<Tree>, k: nat): Tree
    decreases t, 0
  {
    match t
    case Ref(kind, ext, lvl) => if 1 <= lvl <= |env| then env[lvl - 1] else Free(kind, ext, lvl)
    case Lam(b) => Abs(Read(b, env + [Var(k)], k + 1))
    case Dup(_, v, b) => Read(b, env + [Read(v, env, k)], k)
    case Node(tag, args) => App(tag, ReadAll(args, env, k))
  }

  function ReadAll(ts: seq<Book>, env: seq<Tree>, k: nat): seq<Tree>
    decreases ts, 1
  {
    if ts == [] then [] else [Read(ts[0], env, k)] + ReadAll(ts[1..], env, k)
  }

  /** References are to binders around them; `depth` of them are outside. */
  predicate Scoped(t: Book, depth: nat)
    decreases t, 0
  {
    match t
    case Ref(_, _, lvl) => 1 <= lvl <= depth
    case Lam(b) => Scoped(b, depth + 1)
    case Dup(_, v, b) => Scoped(v, depth) && Scoped(b, depth + 1)
    case Node(_, args) => ScopedAll(args, depth)
  }

  predicate ScopedAll(ts: seq<Book>, depth: nat)
    decreases ts, 1
  {
    ts == [] || (Scoped(ts[0], depth) && ScopedAll(ts[1..], depth))
  }

  // ---------------------------------------------------------------------------
  // The rewrite keeps what the term stands for
  // ---------------------------------------------------------------------------

  function Repeat(v: Tree, n: nat): seq<Tree> {
    seq(n, _ => v)
  }

  /** Under the new binders, which all stand for the target's value `v`; `inner` are the binders of the term. */
  lemma {:induction false} GoRead(t: Book, g: Target, c: Chain, use: nat, env: seq<Tree>, inner: seq<Tree>, k: nat)
    requires c.n > 0 && |env| == c.base && 1 <= g.lvl <= c.base
    requires Scoped(t, c.base + |inner|)
    ensures Read(Go(t, g, c, use), env + Repeat(env[g.lvl - 1], c.n) + inner, k) == Read(t, env + inner, k)
    decreases t, 0
  {
    var mid := env + Repeat(env[g.lvl - 1], c.n);
    match t
    case Ref(_, _, _) =>
    case Lam(b) =>
      GoRead(b, g, c, use, env, inner + [Var(k)], k + 1);
      assert mid + inner + [Var(k)] == mid + (inner + [Var(k)]) && env + inner + [Var(k)] == env + (inner + [Var(k)]);
    case Dup(_, v, b) =>
      GoRead(v, g, c, use, env, inner, k);
      var w := [Read(v, env + inner, k)];
      GoRead(b, g, c, use + Count(v, g), env, inner + w, k);
      assert mid + inner + w == mid + (inner + w) && env + inner + w == env + (inner + w);
    case Node(_, args) => GoReadAll(args, g, c, use, env, inner, k);
  }

  lemma {:induction false} GoReadAll(ts: seq<Book>, g: Target, c: Chain, use: nat, env: seq<Tree>, inner: seq<Tree>,
                                     k: nat)
    requires c.n > 0 && |env| == c.base && 1 <= g.lvl <= c.base
    requires ScopedAll(ts, c.base + |inner|)
    ensures ReadAll(GoAll(ts, g, c, use), env + Repeat(env[g.lvl - 1], c.n) + inner, k) == ReadAll(ts, env + inner, k)
    decreases ts, 1
  {
    if ts != [] {
      GoRead(ts[0], g, c, use, env, inner, k);
      GoReadAll(ts[1..], g, c, use + Count(ts[0], g), env, inner, k);
    }
  }

  /** All new binders stand for the target's value. */
  lemma {:induction false} WrapRead(body: Book, g: Target, c: Chain, i: nat, env: seq<Tree>, k: nat)
    requires |env| == c.base && 1 <= g.lvl <= c.base && i <= c.n
    ensures Read(Wrap(body, g, c, i), env + Repeat(env[g.lvl - 1], i), k) ==
              Read(body, env + Repeat(env[g.lvl - 1], c.n), k)
    decreases c.n - i
  {
    if i < c.n {
      var v := env[g.lvl - 1];
      WrapRead(body, g, c, i + 1, env, k);
      assert env + Repeat(v, i) + [v] == env + Repeat(v, i + 1);
      assert Read(Source(g, c, i), env + Repeat(v, i), k) == v;
    }
  }

  /** The rewritten term stands for the same tree, however many uses are claimed. */
  lemma ExpandKeeps(body: Book, g: Target, base: nat, lab: nat, uses: nat, env: seq<Tree>, k: nat)
    requires |env| == base && 1 <= g.lvl <= base && Scoped(body, base)
    ensures Read(Expand(body, g, base, lab, uses), env, k) == Read(body, env, k)
  {
    if uses > 1 {
      var c := Chain(base, uses - 1, lab);
      assert env + Repeat(env[g.lvl - 1], 0) == env;
      WrapRead(GoBelow(body, g, c), g, c, 0, env, k);
      GoRead(body, g, c, 0, env, [], k);
      assert env + Repeat(env[g.lvl - 1], c.n) + [] == env + Repeat(env[g.lvl - 1], c.n) && env + [] == env;
    }
  }

  // ---------------------------------------------------------------------------
  // The rewrite is linear
  // ---------------------------------------------------------------------------

  function Hit(t: Book, h: Target): nat {
    if Hits(t, h) then 1 else 0
  }

  /** How many of the uses from `a` up to `b` become references `h`. */
  function Tally(c: Chain, h: Target, a: nat, b: nat): nat
    requires c.n > 0
    decreases b - a
  {
    if a >= b then 0 else Hit(Use(c, a), h) + Tally(c, h, a + 1, b)
  }

  lemma {:induction false} TallySplit(c: Chain, h: Target, a: nat, m: nat, b: nat)
    requires c.n > 0 && a <= m <= b
    ensures Tally(c, h, a, b) == Tally(c, h, a, m) + Tally(c, h, m, b)
    decreases m - a
  {
    if a < m {
      TallySplit(c, h, a + 1, m, b);
    }
  }

  /** `h` is not `g`: no reference is both. */
  predicate Apart(g: Target, h: Target) {
    g.kind != h.kind || g.lvl != h.lvl || (g.kind != BJV && g.ext != h.ext)
  }

  /** A reference `h` below the first new binder is kept if it is not the target; above, it is a new one. */
  predicate Tracked(g: Target, c: Chain, h: Target) {
    g.lvl <= c.base && h.lvl <= c.base + c.n && (h.lvl <= c.base ==> h == g || Apart(g, h))
  }

  /** The references to `h` that `Go` leaves alone. */
  function Left(t: Book, g: Target, c: Chain, h: Target): nat {
    if h != g && h.lvl <= c.base then Count(t, h) else 0
  }

  lemma RefCount(t: Book, g: Target, c: Chain, use: nat, h: Target)
    requires c.n > 0 && Tracked(g, c, h) && t.Ref?
    ensures Count(Go(t, g, c, use), h) == Left(t, g, c, h) + Tally(c, h, use, use + Count(t, g))
  {
    assert Tally(c, h, use, use + 1) == Hit(Use(c, use), h) + Tally(c, h, use + 1, use + 1);
  }

  lemma DupCount(t: Book, g: Target, c: Chain, use: nat, h: Target, mid: nat)
    requires c.n > 0 && t.Dup? && mid == use + Count(t.val, g)
    requires Count(Go(t.val, g, c, use), h) == Left(t.val, g, c, h) + Tally(c, h, use, mid)
    requires Count(Go(t.body, g, c, mid), h) == Left(t.body, g, c, h) + Tally(c, h, mid, mid + Count(t.body, g))
    ensures Count(Go(t, g, c, use), h) == Left(t, g, c, h) + Tally(c, h, use, use + Count(t, g))
  {
    TallySplit(c, h, use, mid, use + Count(t, g));
  }

  lemma {:induction false} GoCount(t: Book, g: Target, c: Chain, use: nat, h: Target)
    requires c.n > 0 && Tracked(g, c, h)
    ensures Count(Go(t, g, c, use), h) == Left(t, g, c, h) + Tally(c, h, use, use + Count(t, g))
    decreases t, 0
  {
    match t
    case Ref(_, _, _) => RefCount(t, g, c, use, h);
    case Lam(b) => GoCount(b, g, c, use, h);
    case Dup(_, v, b) =>
      GoCount(v, g, c, use, h);
      GoCount(b, g, c, use + Count(v, g), h);
      DupCount(t, g, c, use, h, use + Count(v, g));
    case Node(_, args) => GoCountAll(args, g, c, use, h);
  }

  lemma {:induction false} GoCountAll(ts: seq<Book>, g: Target, c: Chain, use: nat, h: Target)
    requires c.n > 0 && Tracked(g, c, h)
    ensures CountAll(GoAll(ts, g, c, use), h) ==
              (if h != g && h.lvl <= c.base then CountAll(ts, h) else 0) + Tally(c, h, use, use + CountAll(ts, g))
    decreases ts, 1
  {
    if ts != [] {
      GoCount(ts[0], g, c, use, h);
      GoCountAll(ts[1..], g, c, use + Count(ts[0], g), h);
      TallySplit(c, h, use, use + Count(ts[0], g), use + CountAll(ts, g));
    }
  }

  /** How many of the new binders from the `i`-th on bind a reference `h`. */
  function Sources(g: Target, c: Chain, h: Target, i: nat): nat
    decreases c.n - i
  {
    if i >= c.n then 0 else Hit(Source(g, c, i), h) + Sources(g, c, h, i + 1)
  }

  lemma {:induction false} WrapCount(body: Book, g: Target, c: Chain, h: Target, i: nat)
    ensures Count(Wrap(body, g, c, i), h) == Count(body, h) + Sources(g, c, h, i)
    decreases c.n - i
  {
    if i < c.n {
      WrapCount(body, g, c, h, i + 1);
    }
  }

  /** Only new binder `at` can bind a reference to level `base + at`; only the first one binds the target. */
  lemma {:induction false} SourcesAt(g: Target, c: Chain, h: Target, i: nat, at: nat)
    requires forall j :: i <= j < c.n && j != at ==> !Hits(Source(g, c, j), h)
    ensures Sources(g, c, h, i) == if i <= at < c.n then Hit(Source(g, c, at), h) else 0
    decreases c.n - i
  {
    if i < c.n {
      SourcesAt(g, c, h, i + 1, at);
    }
  }

  lemma {:induction false} TallyAt(c: Chain, h: Target, a: nat, b: nat, at: nat)
    requires c.n > 0 && forall u: nat :: a <= u < b && u != at ==> !Hits(Use(c, u), h)
    ensures Tally(c, h, a, b) == if a <= at < b then Hit(Use(c, at), h) else 0
    decreases b - a
  {
    if a < b {
      TallyAt(c, h, a + 1, b, at);
    }
  }

  /** References `h` in the result, when `uses` is the number of uses. */
  lemma ResultCount(body: Book, g: Target, base: nat, lab: nat, h: Target)
    requires Count(body, g) > 1 && Tracked(g, Chain(base, Count(body, g) - 1, lab), h)
    ensures var n := Count(body, g) - 1; var c := Chain(base, n, lab);
            Count(Expand(body, g, base, lab, n + 1), h)
            == (if h != g && h.lvl <= base then Count(body, h) else 0) + Tally(c, h, 0, n + 1) + Sources(g, c, h, 0)
  {
    var c := Chain(base, Count(body, g) - 1, lab);
    GoCount(body, g, c, 0, h);
    WrapCount(Go(body, g, c, 0), g, c, h, 0);
  }

  /** The target is used once: the chain hangs on it. */
  lemma TargetOnce(body: Book, g: Target, base: nat, lab: nat)
    requires g.lvl <= base && Count(body, g) > 1
    ensures Count(Expand(body, g, base, lab, Count(body, g)), g) == 1
  {
    var c := Chain(base, Count(body, g) - 1, lab);
    ResultCount(body, g, base, lab, g);
    SourcesAt(g, c, g, 0, 0);
    TallyAt(c, g, 0, c.n + 1, c.n + 1);
  }

  /** Each side of each new binder is used once. */
  lemma SidesOnce(body: Book, g: Target, base: nat, lab: nat, i: nat)
    requires g.lvl <= base && i + 1 < Count(body, g)
    ensures Count(Expand(body, g, base, lab, Count(body, g)), Target(BJ0, lab + i, base + 1 + i)) == 1
    ensures Count(Expand(body, g, base, lab, Count(body, g)), Target(BJ1, lab + i, base + 1 + i)) == 1
  {
    var c := Chain(base, Count(body, g) - 1, lab);
    var h0, h1 := Target(BJ0, lab + i, base + 1 + i), Target(BJ1, lab + i, base + 1 + i);
    ResultCount(body, g, base, lab, h0);
    ResultCount(body, g, base, lab, h1);
    TallyAt(c, h0, 0, c.n + 1, i);
    SourcesAt(g, c, h0, 0, c.n);
    TallyAt(c, h1, 0, c.n + 1, c.n);
    SourcesAt(g, c, h1, 0, i + 1);
  }

  /** Other references to outer binders are untouched. */
  lemma OthersStay(body: Book, g: Target, base: nat, lab: nat, h: Target)
    requires g.lvl <= base && h.lvl <= base && Apart(g, h)
    ensures Count(Expand(body, g, base, lab, Count(body, g)), h) == Count(body, h)
  {
    if Count(body, g) > 1 {
      var c := Chain(base, Count(body, g) - 1, lab);
      ResultCount(body, g, base, lab, h);
      TallyAt(c, h, 0, c.n + 1, c.n + 1);
      SourcesAt(g, c, h, 0, c.n);
    }
  }

  // ---------------------------------------------------------------------------
  // The rewrite keeps terms in scope, and two rewrites compose
  // ---------------------------------------------------------------------------

  lemma {:induction false} GoScoped(t: Book, g: Target, c: Chain, use: nat, d: nat)
    requires c.n > 0 && Scoped(t, c.base + d)
    ensures Scoped(Go(t, g, c, use), c.base + c.n + d)
    decreases t, 0
  {
    match t
    case Ref(_, _, _) =>
    case Lam(b) => GoScoped(b, g, c, use, d + 1);
    case Dup(_, v, b) =>
      GoScoped(v, g, c, use, d);
      GoScoped(b, g, c, use + Count(v, g), d + 1);
    case Node(_, args) => GoScopedAll(args, g, c, use, d);
  }

  lemma {:induction false} GoScopedAll(ts: seq<Book>, g: Target, c: Chain, use: nat, d: nat)
    requires c.n > 0 && ScopedAll(ts, c.base + d)
    ensures ScopedAll(GoAll(ts, g, c, use), c.base + c.n + d)
    decreases ts, 1
  {
    if ts != [] {
      GoScoped(ts[0], g, c, use, d);
      GoScopedAll(ts[1..], g, c, use + Count(ts[0], g), d);
    }
  }

  lemma {:induction false} WrapScoped(body: Book, g: Target, c: Chain, i: nat)
    requires Scoped(body, c.base + c.n) && 1 <= g.lvl <= c.base && i <= c.n
    ensures Scoped(Wrap(body, g, c, i), c.base + i)
    decreases c.n - i
  {
    if i < c.n {
      WrapScoped(body, g, c, i + 1);
    }
  }

  lemma ExpandScoped(body: Book, g: Target, base: nat, lab: nat, uses: nat)
    requires 1 <= g.lvl <= base && Scoped(body, base)
    ensures Scoped(Expand(body, g, base, lab, uses), base)
  {
    if uses > 1 {
      var c := Chain(base, uses - 1, lab);
      GoScoped(body, g, c, 0, 0);
      WrapScoped(GoBelow(body, g, c), g, c, 0);
    }
  }

  /** Both variables of a cloned binder, as the parser of `DUP` terms rewrites them: the second one last. */
  function Expand2(body: Book, g1: Target, g0: Target, base: nat, lab: nat): Book {
    var uses1, uses0 := Count(body, g1), Count(body, g0);
    Expand(Expand(body, g1, base, lab, uses1), g0, base, if uses1 > 1 then lab + uses1 - 1 else lab, uses0)
  }

  /** Two rewrites keep the meaning, and leave at most one use of either variable. */
  lemma TwoRewrites(body: Book, g1: Target, g0: Target, base: nat, lab: nat, env: seq<Tree>, k: nat)
    requires |env| == base && 1 <= g1.lvl <= base && 1 <= g0.lvl <= base && Apart(g1, g0) && Scoped(body, base)
    ensures Read(Expand2(body, g1, g0, base, lab), env, k) == Read(body, env, k)
    ensures Count(Expand2(body, g1, g0, base, lab), g0) == (if Count(body, g0) > 1 then 1 else Count(body, g0))
    ensures Count(Expand2(body, g1, g0, base, lab), g1) == (if Count(body, g1) > 1 then 1 else Count(body, g1))
  {
    var uses1 := Count(body, g1);
    var once := Expand(body, g1, base, lab, uses1);
    var lab0 := if uses1 > 1 then lab + uses1 - 1 else lab;
    ExpandKeeps(body, g1, base, lab, uses1, env, k);
    ExpandScoped(body, g1, base, lab, uses1);
    ExpandKeeps(once, g0, base, lab0, Count(body, g0), env, k);
    OthersStay(body, g1, base, lab, g0);
    OthersStay(once, g0, base, lab0, g1);
    if uses1 > 1 {
      TargetOnce(body, g1, base, lab);
    }
    if Count(once, g0) > 1 {
      TargetOnce(once, g0, base, lab0);
    }
  }

  /** References to binders inside the term move up by the number of new binders. */
  lemma {:induction false} GoShift(t: Book, g: Target, c: Chain, use: nat, h: Target)
    requires c.n > 0 && g.lvl <= c.base < h.lvl
    ensures Count(Go(t, g, c, use), h.(lvl := h.lvl + c.n)) == Count(t, h)
    decreases t, 0
  {
    match t
    case Ref(_, _, _) =>
    case Lam(b) => GoShift(b, g, c, use, h);
    case Dup(_, v, b) =>
      GoShift(v, g, c, use, h);
      GoShift(b, g, c, use + Count(v, g), h);
    case Node(_, args) => GoShiftAll(args, g, c, use, h);
  }

  lemma {:induction false} GoShiftAll(ts: seq<Book>, g: Target, c: Chain, use: nat, h: Target)
    requires c.n > 0 && g.lvl <= c.base < h.lvl
    ensures CountAll(GoAll(ts, g, c, use), h.(lvl := h.lvl + c.n)) == CountAll(ts, h)
    decreases ts, 1
  {
    if ts != [] {
      GoShift(ts[0], g, c, use, h);
      GoShiftAll(ts[1..], g, c, use + Count(ts[0], g), h);
    }
  }

  lemma InnerShift(body: Book, g: Target, base: nat, lab: nat, uses: nat, h: Target)
    requires g.lvl <= base < h.lvl && !body.Ref?
    ensures Count(Expand(body, g, base, lab, uses), h.(lvl := h.lvl + if uses > 1 then uses - 1 else 0)) ==
              Count(body, h)
  {
    if uses > 1 {
      var c := Chain(base, uses - 1, lab);
      var h' := h.(lvl := h.lvl + c.n);
      GoShift(body, g, c, 0, h);
      WrapCount(GoBelow(body, g, c), g, c, h', 0);
      SourcesAt(g, c, h', 0, c.n);
    }
  }

  /** The second rewrite leaves the chain of the first one linear. */
  lemma FirstChainStays(body: Book, g1: Target, g0: Target, base: nat, lab: nat, i: nat)
    requires g1.lvl <= base && g0.lvl <= base && i + 1 < Count(body, g1)
    ensures var up := if Count(body, g0) > 1 then Count(body, g0) - 1 else 0;
            && Count(Expand2(body, g1, g0, base, lab), Target(BJ0, lab + i, base + 1 + i + up)) == 1
            && Count(Expand2(body, g1, g0, base, lab), Target(BJ1, lab + i, base + 1 + i + up)) == 1
  {
    var uses1 := Count(body, g1);
    var once := Expand(body, g1, base, lab, uses1);
    SidesOnce(body, g1, base, lab, i);
    InnerShift(once, g0, base, lab + uses1 - 1, Count(body, g0), Target(BJ0, lab + i, base + 1 + i));
    InnerShift(once, g0, base, lab + uses1 - 1, Count(body, g0), Target(BJ1, lab + i, base + 1 + i));
  }
}
