/**
 The expansion rules of `ALO` as they write the heap: binders and blocks are new, the packed word of the
 expanded `ALO` is used again for one of the parts.
 */
module AloHeap {
  import opened Alo
  import AutoDup

  // ---------------------------------------------------------------------------
  // What a heap of lazy instances keeps
  // ---------------------------------------------------------------------------

  /** At most `n` binders are nested in the term. */
  ghost predicate Shallow(t: Book, n: nat) {
    match t
    case Ref(_, _, _) => true
    case Lam(b) => n > 0 && Shallow(b, n - 1)
    case Dup(_, v, b) => n > 0 && Shallow(v, n) && Shallow(b, n - 1)
    case Node(_, args) => forall i :: 0 <= i < |args| ==> Shallow(args[i], n)
  }

  ghost predicate Room(t: Book, env: seq<Loc>) {
    |env| <= MAX && Shallow(t, MAX - |env|)
  }

  ghost predicate Fits(h: Cells, c: Loc, terms: map<Loc, Book>) {
    exists t, env :: IsAlo(h, c, terms, t, env) && Room(t, env)
  }

  ghost predicate Known(h: Cells, terms: map<Loc, Book>) {
    forall c :: c in h && h[c].AloT? ==> Fits(h, c, terms)
  }

  ghost predicate Good(h: Cells, next: Loc, terms: map<Loc, Book>) {
    Under(h, next) && Owned(h) && Known(h, terms)
  }

  /** What an expansion step at cell `a` has to show of the cells it wrote. */
  ghost predicate Step(h: Cells, next: Loc, h': Cells, next': Loc, a: Loc, terms: map<Loc, Book>) {
    && Touches(h, h', a, next) && Apart(h, h', a, next) && Under(h', next')
    && forall c :: c in h' && (c == a || next <= c) && h'[c].AloT? ==> Fits(h', c, terms)
  }

  // ---------------------------------------------------------------------------
  // What is left to expand
  // ---------------------------------------------------------------------------

  /** The `ALO` in a cell, with the term and the environment it stands for. */
  datatype Job = Job(cell: Loc, t: Book, env: seq<Loc>)

  /** The number of words of a book term. */
  function Bulk(t: Book): nat
    decreases t, 0
  {
    match t
    case Ref(_, _, _) => 1
    case Lam(b) => 1 + Bulk(b)
    case Dup(_, v, b) => 1 + Bulk(v) + Bulk(b)
    case Node(_, args) => 1 + BulkAll(args)
  }

  function BulkAll(ts: seq<Book>): nat
    decreases ts, 1
  {
    if ts == [] then 0 else Bulk(ts[0]) + BulkAll(ts[1..])
  }

  function JobBulk(jobs: seq<Job>): nat {
    if jobs == [] then 0 else Bulk(jobs[0].t) + JobBulk(jobs[1..])
  }

  ghost predicate IsJob(h: Cells, job: Job, terms: map<Loc, Book>) {
    IsAlo(h, job.cell, terms, job.t, job.env) && Room(job.t, job.env)
  }

  predicate HasJob(jobs: seq<Job>, c: Loc) {
    exists i :: 0 <= i < |jobs| && jobs[i].cell == c
  }

  /** Jobs in cells of their own. */
  ghost predicate AreJobs(h: Cells, jobs: seq<Job>, terms: map<Loc, Book>) {
    && (forall i :: 0 <= i < |jobs| ==> IsJob(h, jobs[i], terms))
    && (forall i, j :: 0 <= i < j < |jobs| ==> jobs[i].cell != jobs[j].cell)
  }

  /** All `ALO`s of the heap. */
  ghost predicate AllJobs(h: Cells, jobs: seq<Job>, terms: map<Loc, Book>) {
    AreJobs(h, jobs, terms) && forall c :: c in h && h[c].AloT? ==> HasJob(jobs, c)
  }

  /** The `ALO`s that the expansion of cell `a` made. */
  ghost predicate MadeJobs(h: Cells, jobs: seq<Job>, a: Loc, next: Loc, terms: map<Loc, Book>) {
    && AreJobs(h, jobs, terms)
    && (forall i :: 0 <= i < |jobs| ==> jobs[i].cell == a || next <= jobs[i].cell)
    && (forall c :: c in h && (c == a || next <= c) && h[c].AloT? ==> HasJob(jobs, c))
  }

  /** The expansion of `t` made jobs that are smaller, all together. */
  ghost predicate Made(h: Cells, a: Loc, next: Loc, terms: map<Loc, Book>, t: Book) {
    exists jobs :: MadeJobs(h, jobs, a, next, terms) && JobBulk(jobs) < Bulk(t)
  }

  lemma BulkOne(job: Job)
    ensures JobBulk([job]) == Bulk(job.t)
  {
    assert [job][1..] == [] && JobBulk([]) == 0;
  }

  lemma OneMade(h: Cells, a: Loc, next: Loc, terms: map<Loc, Book>, t: Book, job: Job)
    requires IsJob(h, job, terms) && next <= job.cell && Bulk(job.t) < Bulk(t)
    requires forall c :: c in h && (c == a || next <= c) && h[c].AloT? ==> c == job.cell
    ensures Made(h, a, next, terms, t)
  {
    var jobs := [job];
    BulkOne(job);
    assert jobs[0].cell == job.cell;
    assert HasJob(jobs, job.cell);
    assert MadeJobs(h, jobs, a, next, terms);
  }

  lemma TwoMade(h: Cells, a: Loc, next: Loc, terms: map<Loc, Book>, t: Book, job: Job, job': Job)
    requires IsJob(h, job, terms) && next <= job.cell && IsJob(h, job', terms) && job'.cell == a < next
    requires Bulk(job.t) + Bulk(job'.t) < Bulk(t)
    requires forall c :: c in h && (c == a || next <= c) && h[c].AloT? ==> c == job.cell || c == a
    ensures Made(h, a, next, terms, t)
  {
    var jobs := [job, job'];
    assert jobs[0].cell == job.cell && jobs[1].cell == a && jobs[1..] == [job'] && [job'][1..] == [];
    BulkOne(job');
    assert JobBulk(jobs) == Bulk(job.t) + JobBulk(jobs[1..]);
    assert HasJob(jobs, job.cell) && HasJob(jobs, a);
    assert MadeJobs(h, jobs, a, next, terms);
  }

  lemma NoneMade(h: Cells, a: Loc, next: Loc, terms: map<Loc, Book>, t: Book)
    requires forall c :: c in h && (c == a || next <= c) ==> !h[c].AloT?
    ensures Made(h, a, next, terms, t)
  {
    var jobs: seq<Job> := [];
    assert MadeJobs(h, jobs, a, next, terms);
    assert Bulk(t) > 0;
  }

  function PartJobs(blk: Loc, ts: seq<Book>, env: seq<Loc>): seq<Job> {
    seq(|ts|, i requires 0 <= i < |ts| => Job(blk + i, ts[i], env))
  }

  lemma {:induction false} PartsBulk(blk: Loc, ts: seq<Book>, env: seq<Loc>)
    ensures JobBulk(PartJobs(blk, ts, env)) == BulkAll(ts)
    decreases |ts|
  {
    if ts != [] {
      PartsBulk(blk + 1, ts[1..], env);
      assert PartJobs(blk, ts, env)[1..] == PartJobs(blk + 1, ts[1..], env);
    }
  }

  lemma StepGood(h: Cells, next: Loc, h': Cells, next': Loc, a: Loc, terms: map<Loc, Book>)
    requires Good(h, next, terms) && Step(h, next, h', next', a, terms)
    ensures Good(h', next', terms)
  {
    OwnedStays(h, h', a, next);
    forall c | c in h' && h'[c].AloT?
      ensures Fits(h', c, terms)
    {
      if c != a && c < next {
        assert h'[c] == h[c] && Fits(h, c, terms);
        var t, env :| IsAlo(h, c, terms, t, env) && Room(t, env);
        AloStays(h, h', a, next, c, terms, t, env);
      }
    }
  }

  lemma AloMade(h: Cells, c: Loc, w: Loc, ls: nat, at: nat, terms: map<Loc, Book>, t: Book, env: seq<Loc>)
    requires c in h && h[c] == AloT(|env|, w) && w in h && h[w] == Pair(Pack(ls, at))
    requires env != [] && Linked(h, ls, env) && IsPart(terms, at, t) && at < TM
    ensures IsAlo(h, c, terms, t, env)
  {
    PackUnpack(ls, at);
  }

  lemma LinkMade(h: Cells, d: Loc, ls: Loc, env: seq<Loc>)
    requires Linked(h, ls, env) && 0 < d < LS && d + 1 in h && h[d + 1] == Link(ls)
    ensures Linked(h, d, env + [d])
  {
    assert (env + [d])[..|env|] == env;
  }

  /** The `ALO` in cell `a` unpacks to the list `ls`, of length `len`, and the book location of `t`. */
  ghost predicate Opens(h: Cells, a: Loc, terms: map<Loc, Book>, t: Book, env: seq<Loc>, ls: nat, len: nat) {
    IsAlo(h, a, terms, t, env) && len == |env| && Linked(h, ls, env)
  }

  lemma {:induction false} BulkAppend(a: seq<Job>, b: seq<Job>)
    ensures JobBulk(a + b) == JobBulk(a) + JobBulk(b)
  {
    if a == [] {
      assert a + b == b;
    } else {
      BulkAppend(a[1..], b);
      assert (a + b)[1..] == a[1..] + b;
    }
  }

  lemma BulkWithout(jobs: seq<Job>, i: nat)
    requires i < |jobs|
    ensures JobBulk(jobs) == JobBulk(jobs[..i] + jobs[i + 1..]) + Bulk(jobs[i].t) && Bulk(jobs[i].t) > 0
  {
    BulkAppend(jobs[..i], jobs[i..]);
    BulkAppend(jobs[..i], jobs[i + 1..]);
    assert jobs == jobs[..i] + jobs[i..] && jobs[i..][1..] == jobs[i + 1..];
  }

  /** The job in another cell is still there. */
  lemma JobStays(h: Cells, h': Cells, next: Loc, a: Loc, terms: map<Loc, Book>, job: Job)
    requires Owned(h) && Touches(h, h', a, next) && IsJob(h, job, terms) && job.cell != a
    ensures IsJob(h', job, terms)
  {
    AloStays(h, h', a, next, job.cell, terms, job.t, job.env);
  }

  /** The jobs after the expansion of cell `a`. */
  lemma JobsOn(h: Cells, h': Cells, next: Loc, a: Loc, terms: map<Loc, Book>, jobs: seq<Job>, i: nat, made: seq<Job>)
    requires Owned(h) && Under(h, next) && Touches(h, h', a, next) && AllJobs(h, jobs, terms) && i < |jobs|
    requires jobs[i].cell == a
    requires MadeJobs(h', made, a, next, terms) && JobBulk(made) < Bulk(jobs[i].t)
    ensures var jobs' := jobs[..i] + jobs[i + 1..] + made; AllJobs(h', jobs', terms) && JobBulk(jobs') < JobBulk(jobs)
  {
    var rest := jobs[..i] + jobs[i + 1..];
    BulkWithout(jobs, i);
    BulkAppend(rest, made);
    forall k | 0 <= k < |rest|
      ensures IsJob(h', rest[k], terms) && rest[k].cell != a && rest[k].cell < next
    {
      assert rest[k] == jobs[if k < i then k else k + 1];
      assert IsJob(h, rest[k], terms);
      JobStays(h, h', next, a, terms, rest[k]);
    }
    RestDistinct(h, jobs, i, terms);
    forall c | c in h' && h'[c].AloT?
      ensures HasJob(rest + made, c)
    {
      OldOrMade(h, h', next, a, terms, jobs, i, made, c);
    }
  }

  lemma RestDistinct(h: Cells, jobs: seq<Job>, i: nat, terms: map<Loc, Book>)
    requires AreJobs(h, jobs, terms) && i < |jobs|
    ensures var rest := jobs[..i] + jobs[i + 1..]; forall j, k :: 0 <= j < k < |rest| ==> rest[j].cell != rest[k].cell
  {
    var rest := jobs[..i] + jobs[i + 1..];
    forall j, k | 0 <= j < k < |rest|
      ensures rest[j].cell != rest[k].cell
    {
      assert rest[j] == jobs[if j < i then j else j + 1] && rest[k] == jobs[if k < i then k else k + 1];
    }
  }

  lemma OldOrMade(h: Cells, h': Cells, next: Loc, a: Loc, terms: map<Loc, Book>, jobs: seq<Job>, i: nat, made: seq<Job>,
                  c: Loc)
    requires Under(h, next) && Touches(h, h', a, next) && AllJobs(h, jobs, terms) && i < |jobs| && jobs[i].cell == a
    requires MadeJobs(h', made, a, next, terms) && c in h' && h'[c].AloT?
    ensures HasJob(jobs[..i] + jobs[i + 1..] + made, c)
  {
    var rest := jobs[..i] + jobs[i + 1..];
    if c == a || next <= c {
      var k :| 0 <= k < |made| && made[k].cell == c;
      assert (rest + made)[|rest| + k].cell == c;
    } else {
      assert c in h && h[c].AloT?;
      var k :| 0 <= k < |jobs| && jobs[k].cell == c;
      assert (rest + made)[if k < i then k else k - 1].cell == c;
    }
  }

  // ---------------------------------------------------------------------------
  // A lambda
  // ---------------------------------------------------------------------------

  function LamCells(h: Cells, next: nat, alo: Loc, ls: nat, len: nat, at: nat): Cells {
    var w := if len > 0 then alo else next + 2;
    h[w := Pair(Pack(next, at))][next := AloT((len + 1) % EXT, w)][next + 1 := Link(ls)]
  }

  lemma LamTouches(h: Cells, next: nat, h': Cells, a: Loc, alo: Loc, ls: nat, len: nat, at: nat)
    requires Under(h, next) && a in h && h[a].AloT? && h[a].len == len < EXT - 1
    requires len > 0 ==> alo == h[a].at && alo in h && h[alo].Pair?
    requires h' == LamCells(h, next, alo, ls, len, at)[a := LamT(next)]
    ensures Touches(h, h', a, next) && Apart(h, h', a, next) && Under(h', next + (if len > 0 then 2 else 3))
    ensures a != next
    ensures forall c :: c in h' && (c == a || next <= c) && h'[c].AloT? ==> c == next
  {
    assert len > 0 ==> Claims(h[a], alo);
  }

  lemma LamAlo(h: Cells, next: nat, h': Cells, a: Loc, w: Loc, ls: nat, at: nat, terms: map<Loc, Book>, b: Book,
               env: seq<Loc>)
    requires Touches(h, h', a, next) && Linked(h, ls, env) && 0 < next < LS
    requires IsPart(terms, at, b) && at < TM && w in h' && next in h' && next + 1 in h'
    requires h'[next] == AloT(|env| + 1, w) && h'[next + 1] == Link(ls) && h'[w] == Pair(Pack(next, at))
    ensures IsAlo(h', next, terms, b, env + [next])
  {
    LinksStay(h, h', a, next, ls, env);
    LinkMade(h', next, ls, env);
    AloMade(h', next, w, next, at, terms, b, env + [next]);
  }

  lemma LamStep(h: Cells, next: nat, h': Cells, a: Loc, alo: Loc, ls: nat, len: nat, at: nat, terms: map<Loc, Book>,
                b: Book, env: seq<Loc>)
    requires Under(h, next) && Opens(h, a, terms, AutoDup.Lam(b), env, ls, len) && Room(AutoDup.Lam(b), env)
    requires IsPart(terms, at, b) && at < TM && next < LS && (len > 0 ==> alo == h[a].at)
    requires h' == LamCells(h, next, alo, ls, len, at)[a := LamT(next)]
    ensures Step(h, next, h', next + (if len > 0 then 2 else 3), a, terms)
    ensures Partly(h', a, terms, AutoDup.Lam(b), env) && Made(h', a, next, terms, AutoDup.Lam(b))
  {
    LamTouches(h, next, h', a, alo, ls, len, at);
    LamAlo(h, next, h', a, if len > 0 then alo else next + 2, ls, at, terms, b, env);
    EnvUnder(h, next, ls, env);
    LamLayer(h, next, h', a, terms, b, env);
    OneMade(h', a, next, terms, AutoDup.Lam(b), Job(next, b, env + [next]));
  }

  lemma LamLayer(h: Cells, next: nat, h': Cells, a: Loc, terms: map<Loc, Book>, b: Book, env: seq<Loc>)
    requires a in h' && h'[a] == LamT(next) && a < next && next !in env && IsAlo(h', next, terms, b, env + [next])
    requires Room(AutoDup.Lam(b), env)
    ensures Fits(h', next, terms) && Partly(h', a, terms, AutoDup.Lam(b), env) && Room(b, env + [next])
  {
    assert Room(b, env + [next]);
  }

  // ---------------------------------------------------------------------------
  // A dup
  // ---------------------------------------------------------------------------

  /** The length is cut to 16 bits. */
  function DupCells(h: Cells, next: nat, alo: Loc, ls: nat, len: nat, at: nat): Cells {
    var cut := len % MAX;
    var v := if cut == 0 then AloT(0, at) else AloT(cut % EXT, alo);
    var h1 := if cut == 0 then h else h[alo := Pair(Pack(ls, at))];
    h1[next := v][next + 1 := Link(ls)][next + 2 := Pair(Pack(next, at + 1))]
  }

  function DupBody(next: nat, len: nat): Term {
    AloT((len % MAX + 1) % EXT, next + 2)
  }

  lemma DupTouches(h: Cells, next: nat, h': Cells, a: Loc, alo: Loc, ls: nat, len: nat, at: nat)
    requires Under(h, next) && a in h && h[a].AloT? && h[a].len == len < MAX
    requires len > 0 ==> alo == h[a].at && alo in h && h[alo].Pair?
    requires h' == DupCells(h, next, alo, ls, len, at)[a := DupBody(next, len)]
    ensures Touches(h, h', a, next) && a != next
    ensures forall c :: c in h' && (c == a || next <= c) && h'[c].AloT? ==> c == next || c == a
    ensures next in h' && h'[next] == AloT(len, if len == 0 then at else alo)
    ensures len > 0 ==> alo in h' && h'[alo] == Pair(Pack(ls, at))
    ensures next + 1 in h' && h'[next + 1] == Link(ls) && next + 2 in h' && h'[next + 2] == Pair(Pack(next, at + 1))
    ensures h'[a] == AloT(len + 1, next + 2)
  {
    assert len > 0 ==> Claims(h[a], alo);
  }

  lemma DupApart(h: Cells, next: nat, h': Cells, a: Loc, alo: Loc, ls: nat, len: nat, at: nat)
    requires Under(h, next) && a in h && h[a].AloT? && h[a].len == len < MAX
    requires len > 0 ==> alo == h[a].at && alo in h && h[alo].Pair?
    requires h' == DupCells(h, next, alo, ls, len, at)[a := DupBody(next, len)]
    ensures Apart(h, h', a, next) && Under(h', next + 3)
  {
    assert len > 0 ==> Claims(h[a], alo);
  }

  lemma DupAlos(h: Cells, next: nat, h': Cells, a: Loc, alo: Loc, ls: nat, at: nat, terms: map<Loc, Book>, v: Book,
                b: Book, env: seq<Loc>)
    requires Touches(h, h', a, next) && Linked(h, ls, env) && 0 < next < LS
    requires IsPart(terms, at, v) && IsPart(terms, at + 1, b) && at + 1 < TM
    requires next in h' && h'[next] == AloT(|env|, if env == [] then at else alo)
    requires env != [] ==> alo in h' && h'[alo] == Pair(Pack(ls, at))
    requires next + 1 in h' && h'[next + 1] == Link(ls) && next + 2 in h' && h'[next + 2] == Pair(Pack(next, at + 1))
    requires h'[a] == AloT(|env| + 1, next + 2)
    ensures IsAlo(h', next, terms, v, env) && IsAlo(h', a, terms, b, env + [next])
  {
    LinksStay(h, h', a, next, ls, env);
    LinkMade(h', next, ls, env);
    AloMade(h', a, next + 2, next, at + 1, terms, b, env + [next]);
    if env != [] {
      AloMade(h', next, alo, ls, at, terms, v, env);
    }
  }

  lemma DupStep(h: Cells, next: nat, h': Cells, a: Loc, alo: Loc, ls: nat, len: nat, at: nat, terms: map<Loc, Book>,
                t: Book, env: seq<Loc>)
    requires t.Dup? && Under(h, next) && Opens(h, a, terms, t, env, ls, len) && Room(t, env)
    requires IsPart(terms, at, t.val) && IsPart(terms, at + 1, t.body) && at + 1 < TM && next < LS
    requires len > 0 ==> alo == h[a].at
    requires h' == DupCells(h, next, alo, ls, len, at)[a := DupBody(next, len)]
    ensures Step(h, next, h', next + 3, a, terms)
    ensures Partly(h', a, terms, t, env) && Made(h', a, next, terms, t)
  {
    DupTouches(h, next, h', a, alo, ls, len, at);
    DupApart(h, next, h', a, alo, ls, len, at);
    DupAlos(h, next, h', a, alo, ls, at, terms, t.val, t.body, env);
    EnvUnder(h, next, ls, env);
    DupLayer(h, next, h', a, terms, t, env);
    TwoMade(h', a, next, terms, t, Job(next, t.val, env), Job(a, t.body, env + [next]));
  }

  lemma DupLayer(h: Cells, next: nat, h': Cells, a: Loc, terms: map<Loc, Book>, t: Book, env: seq<Loc>)
    requires t.Dup? && a < next && next !in env && Room(t, env)
    requires IsAlo(h', next, terms, t.val, env) && IsAlo(h', a, terms, t.body, env + [next])
    ensures Fits(h', next, terms) && Fits(h', a, terms) && Partly(h', a, terms, t, env)
    ensures Room(t.val, env) && Room(t.body, env + [next])
  {
    assert Room(t.val, env) && Room(t.body, env + [next]);
    assert Later(a, next, env);
  }

  lemma TooDeep(h: Cells, next: nat, a: Loc, alo: Loc, ls: nat, at: nat, terms: map<Loc, Book>, v: Book, b: Book,
                env: seq<Loc>)
    requires |env| >= MAX && a != next
    ensures !IsAlo(DupCells(h, next, alo, ls, |env|, at)[a := DupBody(next, |env|)], next, terms, v, env)
    ensures !IsAlo(DupCells(h, next, alo, ls, |env|, at)[a := DupBody(next, |env|)], a, terms, b, env + [next])
  {
  }

  /** The length cut to 16 bits keeps the environment of both parts exactly when it fits: otherwise both lose it. */
  lemma DupExact(h: Cells, next: nat, h': Cells, a: Loc, alo: Loc, ls: nat, len: nat, at: nat, terms: map<Loc, Book>,
                 t: Book, env: seq<Loc>)
    requires t.Dup? && Under(h, next) && Opens(h, a, terms, t, env, ls, len)
    requires IsPart(terms, at, t.val) && IsPart(terms, at + 1, t.body) && at + 1 < TM && next < LS
    requires len > 0 ==> alo == h[a].at
    requires h' == DupCells(h, next, alo, ls, len, at)[a := DupBody(next, len)]
    ensures IsAlo(h', next, terms, t.val, env) <==> len < MAX
    ensures IsAlo(h', a, terms, t.body, env + [next]) <==> len < MAX
  {
    if len < MAX {
      DupTouches(h, next, h', a, alo, ls, len, at);
      DupAlos(h, next, h', a, alo, ls, at, terms, t.val, t.body, env);
    } else {
      TooDeep(h, next, a, alo, ls, at, terms, t.val, t.body, env);
    }
  }

  // ---------------------------------------------------------------------------
  // Any other node
  // ---------------------------------------------------------------------------

  function Arg(next: nat, alo: Loc, len: nat, at: nat, i: nat): Term {
    if len == 0 then AloT(0, at + i) else AloT(len % EXT, if i == 0 then alo else next + i - 1)
  }

  function Block(next: nat, len: nat, n: nat): nat
    requires n > 0
  {
    if len == 0 then next else next + n - 1
  }

  predicate Between(lo: Loc, l: Loc, hi: Loc) {
    lo <= l < hi
  }

  ghost predicate NodWrites(h: Cells, next: nat, h': Cells, alo: Loc, ls: nat, len: nat, at: nat, n: nat)
    requires n > 0
  {
    var blk := Block(next, len, n);
    && (forall l :: l in h' <==> l in h || next <= l < blk + n)
    && (forall l :: l in h && l < next && !(len > 0 && l == alo) ==> h'[l] == h[l])
    && (len > 0 && alo in h ==> h'[alo] == Pair(Pack(ls, at)))
    && (forall l :: Between(next, l, blk) ==> l in h' && h'[l] == Pair(Pack(ls, at + (l - next) + 1)))
    && (forall l :: Between(blk, l, blk + n) ==> l in h' && h'[l] == Arg(next, alo, len, at, l - blk))
  }

  lemma NodClaims(h: Cells, next: nat, g: Cells, h': Cells, a: Loc, alo: Loc, ls: nat, len: nat, at: nat, tag: nat,
                  n: nat)
    requires n > 0 && Under(h, next) && a in h && h[a].AloT? && h[a].len == len < EXT
    requires len > 0 ==> alo == h[a].at && alo in h && h[alo].Pair?
    requires NodWrites(h, next, g, alo, ls, len, at, n) && h' == g[a := NodeT(tag, n, Block(next, len, n))]
    ensures Touches(h, h', a, next) && Apart(h, h', a, next)
  {
    assert len > 0 ==> Claims(h[a], alo);
    var blk := Block(next, len, n);
    forall x, l | x in h' && (x == a || next <= x) && Claims(h'[x], l)
      ensures next <= l || Claims(h[a], l)
      ensures x == a || (blk <= x < blk + n && l == (if x == blk then alo else next + (x - blk) - 1) && len > 0)
    {
      NodClaim(h, next, g, h', a, alo, ls, len, at, tag, n, x, l);
    }
  }

  /** What a cell written claims: the node its block, an argument its word. */
  lemma NodClaim(h: Cells, next: nat, g: Cells, h': Cells, a: Loc, alo: Loc, ls: nat, len: nat, at: nat, tag: nat,
                 n: nat, x: Loc, l: Loc)
    requires n > 0 && Under(h, next) && a in h && len < EXT && a < next
    requires NodWrites(h, next, g, alo, ls, len, at, n) && h' == g[a := NodeT(tag, n, Block(next, len, n))]
    requires x in h' && (x == a || next <= x) && Claims(h'[x], l)
    ensures x == a ==> Block(next, len, n) <= l < Block(next, len, n) + n
    ensures x != a ==> Block(next, len, n) <= x < Block(next, len, n) + n && len > 0
    ensures x != a ==> l == (if x == Block(next, len, n) then alo else next + (x - Block(next, len, n)) - 1)
  {
    var blk := Block(next, len, n);
    if x != a {
      assert h'[x] == g[x] && next <= x < blk + n;
      assert x < blk ==> Between(next, x, blk);
      assert x >= blk ==> Between(blk, x, blk + n);
    }
  }

  lemma NodUnder(h: Cells, next: nat, g: Cells, h': Cells, a: Loc, alo: Loc, ls: nat, len: nat, at: nat, tag: nat,
                 n: nat)
    requires n > 0 && Under(h, next) && a in h && h[a].AloT? && h[a].len == len < EXT
    requires len > 0 ==> alo == h[a].at && alo in h && h[alo].Pair?
    requires NodWrites(h, next, g, alo, ls, len, at, n) && h' == g[a := NodeT(tag, n, Block(next, len, n))]
    ensures Under(h', Block(next, len, n) + n)
  {
    assert len > 0 ==> Claims(h[a], alo);
    forall x, l | x in h' && Claims(h'[x], l)
      ensures l < Block(next, len, n) + n
    {
      if x == a || next <= x {
        NodClaim(h, next, g, h', a, alo, ls, len, at, tag, n, x, l);
      }
    }
  }

  lemma NodArg(h: Cells, next: nat, g: Cells, h': Cells, a: Loc, alo: Loc, ls: nat, len: nat, at: nat, tag: nat, n: nat,
               i: nat)
    requires i < n && a < next && (len > 0 ==> alo in h && alo != a && alo < next)
    requires NodWrites(h, next, g, alo, ls, len, at, n) && h' == g[a := NodeT(tag, n, Block(next, len, n))]
    ensures Block(next, len, n) + i in h' && h'[Block(next, len, n) + i] == Arg(next, alo, len, at, i)
    ensures len > 0 ==> (if i == 0 then alo else next + i - 1) in h'
    ensures len > 0 ==> h'[if i == 0 then alo else next + i - 1] == Pair(Pack(ls, at + i))
  {
    var blk := Block(next, len, n);
    assert Between(blk, blk + i, blk + n);
    assert len > 0 && i > 0 ==> Between(next, next + i - 1, blk);
  }

  lemma NodAlo(h: Cells, next: nat, g: Cells, h': Cells, a: Loc, alo: Loc, ls: nat, at: nat, tag: nat, n: nat, i: nat,
               terms: map<Loc, Book>, t: Book, env: seq<Loc>)
    requires i < n && a < next && Linked(h', ls, env) && IsPart(terms, at + i, t) && at + i < TM && |env| < EXT
    requires env != [] ==> alo in h && alo != a && alo < next
    requires NodWrites(h, next, g, alo, ls, |env|, at, n) && h' == g[a := NodeT(tag, n, Block(next, |env|, n))]
    ensures IsAlo(h', Block(next, |env|, n) + i, terms, t, env)
  {
    NodArg(h, next, g, h', a, alo, ls, |env|, at, tag, n, i);
    if env != [] {
      AloMade(h', Block(next, |env|, n) + i, if i == 0 then alo else next + i - 1, ls, at + i, terms, t, env);
    }
  }

  ghost predicate AreAlos(h: Cells, blk: Loc, terms: map<Loc, Book>, args: seq<Book>, env: seq<Loc>) {
    forall i :: 0 <= i < |args| ==> IsAlo(h, blk + i, terms, args[i], env)
  }

  lemma NodLayer(h: Cells, a: Loc, blk: Loc, terms: map<Loc, Book>, t: Book, env: seq<Loc>)
    requires t.Node? && a in h && h[a] == NodeT(t.tag, |t.args|, blk) && Room(t, env)
    requires AreAlos(h, blk, terms, t.args, env) && a < blk
    ensures Partly(h, a, terms, t, env)
    ensures forall c :: Between(blk, c, blk + |t.args|) ==> Fits(h, c, terms)
  {
    forall c | Between(blk, c, blk + |t.args|)
      ensures Fits(h, c, terms)
    {
      var i := c - blk;
      assert IsAlo(h, blk + i, terms, t.args[i], env) && Room(t.args[i], env);
    }
  }

  lemma NodStep(h: Cells, next: nat, g: Cells, h': Cells, a: Loc, alo: Loc, ls: nat, len: nat, at: nat,
                terms: map<Loc, Book>, t: Book, env: seq<Loc>)
    requires t.Node? && t.args != [] && Under(h, next) && Opens(h, a, terms, t, env, ls, len) && Room(t, env)
    requires IsParts(terms, at, t.args) && at + |t.args| <= TM && (len > 0 ==> alo == h[a].at)
    requires NodWrites(h, next, g, alo, ls, len, at, |t.args|)
    requires h' == g[a := NodeT(t.tag, |t.args|, Block(next, len, |t.args|))]
    ensures Step(h, next, h', Block(next, len, |t.args|) + |t.args|, a, terms)
    ensures Partly(h', a, terms, t, env) && Made(h', a, next, terms, t)
  {
    var n := |t.args|;
    var blk := Block(next, len, n);
    assert len > 0 ==> Claims(h[a], alo);
    NodClaims(h, next, g, h', a, alo, ls, len, at, t.tag, n);
    NodUnder(h, next, g, h', a, alo, ls, len, at, t.tag, n);
    LinksStay(h, h', a, next, ls, env);
    forall i | 0 <= i < n {
      NodAlo(h, next, g, h', a, alo, ls, at, t.tag, n, i, terms, t.args[i], env);
    }
    NodLayer(h', a, blk, terms, t, env);
    forall c | c in h' && (c == a || next <= c) && h'[c].AloT?
      ensures Fits(h', c, terms)
    {
      NodNew(h, next, g, h', a, alo, ls, len, at, t.tag, n, c);
      assert Between(blk, c, blk + n);
    }
    forall c | c in h' && (c == a || next <= c) && h'[c].AloT?
      ensures Between(blk, c, blk + n)
    {
      NodNew(h, next, g, h', a, alo, ls, len, at, t.tag, n, c);
    }
    PartsMade(h', a, next, blk, terms, t, env);
  }

  lemma PartsMade(h: Cells, a: Loc, next: Loc, blk: Loc, terms: map<Loc, Book>, t: Book, env: seq<Loc>)
    requires t.Node? && Room(t, env) && AreAlos(h, blk, terms, t.args, env) && next <= blk
    requires forall c :: c in h && (c == a || next <= c) && h[c].AloT? ==> Between(blk, c, blk + |t.args|)
    ensures Made(h, a, next, terms, t)
  {
    var jobs := PartJobs(blk, t.args, env);
    PartsBulk(blk, t.args, env);
    forall i | 0 <= i < |jobs|
      ensures IsJob(h, jobs[i], terms)
    {
      assert IsAlo(h, blk + i, terms, t.args[i], env) && Room(t.args[i], env);
    }
    forall c | c in h && (c == a || next <= c) && h[c].AloT?
      ensures HasJob(jobs, c)
    {
      assert jobs[c - blk].cell == c;
    }
    assert MadeJobs(h, jobs, a, next, terms);
  }

  lemma NodNew(h: Cells, next: nat, g: Cells, h': Cells, a: Loc, alo: Loc, ls: nat, len: nat, at: nat, tag: nat, n: nat,
               c: Loc)
    requires n > 0 && Under(h, next) && a in h && a < next
    requires NodWrites(h, next, g, alo, ls, len, at, n) && h' == g[a := NodeT(tag, n, Block(next, len, n))]
    requires c in h' && (c == a || next <= c) && h'[c].AloT?
    ensures Block(next, len, n) <= c < Block(next, len, n) + n
  {
    assert c < Block(next, len, n) ==> Between(next, c, Block(next, len, n));
  }

  // ---------------------------------------------------------------------------
  // References and terms without parts
  // ---------------------------------------------------------------------------

  lemma AtomStep(h: Cells, next: nat, h': Cells, a: Loc, ls: nat, len: nat, terms: map<Loc, Book>, t: Book,
                 env: seq<Loc>, x: Term)
    requires Under(h, next) && Opens(h, a, terms, t, env, ls, len) && h' == h[a := x]
    requires (t.Ref? && x == Lookup(t.kind, t.ext, t.lvl, env))
          || (t.Node? && t.args == [] && x.NodeT? && x.tag == t.tag && x.n == 0)
    ensures Step(h, next, h', next, a, terms)
    ensures Partly(h', a, terms, t, env) && Made(h', a, next, terms, t)
  {
    NoneMade(h', a, next, terms, t);
  }

  lemma PartsBelow(book: map<Loc, Word>, terms: map<Loc, Book>, at: Loc, ts: seq<Book>)
    requires IsBook(book, terms) && IsParts(terms, at, ts) && ts != []
    ensures 0 <= at && at + |ts| <= TM
  {
    assert IsPart(terms, at + 0, ts[0]) && IsPart(terms, at + (|ts| - 1), ts[|ts| - 1]);
  }

  // ---------------------------------------------------------------------------
  // The rules
  // ---------------------------------------------------------------------------

  /** A heap bank with the book its `ALO`s refer to. */
  class Bank {
    var cells: Cells
    var next: nat
    const book: map<Loc, Word>
    ghost const terms: map<Loc, Book>

    ghost predicate Valid()
      reads this
    {
      IsBook(book, terms) && Good(cells, next, terms)
    }

    /** A bank with one instance of the book term at `tm`, in cell 1. */
    constructor (book: map<Loc, Word>, tm: Loc, ghost terms: map<Loc, Book>)
      requires IsBook(book, terms) && tm in terms && Shallow(terms[tm], MAX)
      ensures Valid() && this.book == book && this.terms == terms && 1 in cells
      ensures IsAlo(cells, 1, terms, terms[tm], []) && AllJobs(cells, [Job(1, terms[tm], [])], terms)
    {
      this.book, this.terms := book, terms;
      cells, next := map[1 := AloT(0, tm)], 2;
      new;
      assert IsAlo(cells, 1, terms, terms[tm], []) && Room(terms[tm], []);
      assert [Job(1, terms[tm], [])][0].cell == 1;
    }

    method HeapAlloc(size: nat) returns (at: nat)
      modifies this`next
      ensures at == old(next) && next == old(next) + size
    {
      at := next;
      next := next + size;
    }

    method HeapSet(loc: Loc, t: Term)
      modifies this`cells
      ensures cells == old(cells)[loc := t]
    {
      cells := cells[loc := t];
    }

    method NewAlo(ls: nat, len: nat, tm: nat) returns (t: Term)
      modifies this
      ensures next == old(next) + (if len == 0 then 0 else 1)
      ensures cells == if len == 0 then old(cells) else old(cells)[old(next) := Pair(Pack(ls, tm))]
      ensures t == if len == 0 then AloT(0, tm) else AloT(len % EXT, old(next))
    {
      if len == 0 {
        return AloT(0, tm);
      }
      var alo := HeapAlloc(1);
      HeapSet(alo, Pair(Pack(ls, tm)));
      t := AloT(len % EXT, alo);
    }

    method NewAloAt(alo: Loc, ls: nat, len: nat, tm: nat) returns (t: Term)
      modifies this`cells
      ensures cells == if len == 0 then old(cells) else old(cells)[alo := Pair(Pack(ls, tm))]
      ensures t == if len == 0 then AloT(0, tm) else AloT(len % EXT, alo)
    {
      if len == 0 {
        return AloT(0, tm);
      }
      HeapSet(alo, Pair(Pack(ls, tm)));
      t := AloT(len % EXT, alo);
    }

    /** `wnf_alo_lam` */
    method AloLam(alo: Loc, ls: nat, len: nat, lamBody: nat) returns (t: Term)
      modifies this
      ensures cells == LamCells(old(cells), old(next), alo, ls, len, lamBody) && t == LamT(old(next))
      ensures next == old(next) + (if len > 0 then 2 else 3)
    {
      var bind := HeapAlloc(2);
      var loc := alo;
      if len == 0 {
        loc := HeapAlloc(1);
      }
      var x := NewAloAt(loc, bind, len + 1, lamBody);
      HeapSet(bind, x);
      HeapSet(bind + 1, Link(ls));
      t := LamT(bind);
    }

    /** `wnf_alo_dup`, which takes the length as a `u16` */
    method AloDup(alo: Loc, ls: nat, len: nat, bookLoc: nat) returns (t: Term)
      modifies this
      ensures cells == DupCells(old(cells), old(next), alo, ls, len, bookLoc) && t == DupBody(old(next), len)
      ensures next == old(next) + 3
    {
      var cut := len % MAX;
      var bind := HeapAlloc(2);
      var v := NewAloAt(alo, ls, cut, bookLoc);
      HeapSet(bind, v);
      HeapSet(bind + 1, Link(ls));
      t := NewAlo(bind, cut + 1, bookLoc + 1);
    }

    /** `term_new_at`: the arguments fill the block at `loc`. */
    method NewAt(loc: nat, tag: nat, args: seq<Term>) returns (t: Term)
      requires forall l :: l in cells ==> l < loc
      modifies this`cells
      ensures forall l :: l in cells <==> l in old(cells) || loc <= l < loc + |args|
      ensures forall l :: l in old(cells) ==> cells[l] == old(cells)[l]
      ensures forall l :: Between(loc, l, loc + |args|) ==> l in cells && cells[l] == args[l - loc]
      ensures t == NodeT(tag, |args|, loc)
    {
      var i := 0;
      while i < |args|
        invariant 0 <= i <= |args|
        invariant forall l :: l in cells <==> l in old(cells) || loc <= l < loc + i
        invariant forall l :: l in old(cells) ==> cells[l] == old(cells)[l]
        invariant forall l :: Between(loc, l, loc + i) ==> l in cells && cells[l] == args[l - loc]
      {
        HeapSet(loc + i, args[i]);
        i := i + 1;
      }
      t := NodeT(tag, |args|, loc);
    }

    /** The first part uses the old word again, the others have new ones. */
    method Parts(alo: Loc, ls: nat, len: nat, n: nat, loc: nat) returns (args: seq<Term>)
      requires n > 0 && len < EXT && forall l :: l in cells ==> l < next
      requires len > 0 ==> alo in cells
      modifies this
      ensures |args| == n && next == Block(old(next), len, n)
      ensures forall l :: l in cells <==> l in old(cells) || old(next) <= l < next
      ensures forall l :: l in old(cells) && !(len > 0 && l == alo) ==> cells[l] == old(cells)[l]
      ensures len > 0 ==> cells[alo] == Pair(Pack(ls, loc))
      ensures forall l :: Between(old(next), l, next) ==>
                l in cells && cells[l] == Pair(Pack(ls, loc + (l - old(next)) + 1))
      ensures forall j :: 0 <= j < n ==> args[j] == Arg(old(next), alo, len, loc, j)
    {
      var x := NewAloAt(alo, ls, len, loc);
      args := [x];
      var i := 1;
      while i < n
        invariant 1 <= i <= n && |args| == i && next == Block(old(next), len, i)
        invariant forall l :: l in cells <==> l in old(cells) || old(next) <= l < next
        invariant forall l :: l in old(cells) && !(len > 0 && l == alo) ==> cells[l] == old(cells)[l]
        invariant len > 0 ==> cells[alo] == Pair(Pack(ls, loc))
        invariant forall l :: Between(old(next), l, next) ==>
                    l in cells && cells[l] == Pair(Pack(ls, loc + (l - old(next)) + 1))
        invariant forall j :: 0 <= j < i ==> args[j] == Arg(old(next), alo, len, loc, j)
      {
        x := NewAlo(ls, len, loc + i);
        args := args + [x];
        i := i + 1;
      }
    }

    /** `wnf_alo_nod` */
    method AloNod(alo: Loc, ls: nat, len: nat, tag: nat, n: nat, loc: nat) returns (t: Term)
      requires n > 0 && len < EXT && forall l :: l in cells ==> l < next
      requires len > 0 ==> alo in cells
      modifies this
      ensures NodWrites(old(cells), old(next), cells, alo, ls, len, loc, n)
      ensures t == NodeT(tag, n, Block(old(next), len, n)) && next == Block(old(next), len, n) + n
    {
      var args := Parts(alo, ls, len, n, loc);
      var blk := HeapAlloc(n);
      t := NewAt(blk, tag, args);
    }

    /** `wnf_alo_var` and `wnf_alo_cop`: the walk along the list reaches the binder of the level. */
    method AloRef(ls: Loc, len: nat, kind: Kind, ext: nat, lvl: nat, ghost env: seq<Loc>) returns (t: Term)
      requires Linked(cells, ls, env) && len == |env|
      ensures t == Lookup(kind, ext, lvl, env)
    {
      if lvl == 0 || lvl > len {
        return Free(kind, ext, lvl);
      }
      var idx := len - lvl;
      var it, i := ls, 0;
      assert env[..len] == env;
      while i < idx && it != 0
        invariant 0 <= i <= idx && Linked(cells, it, env[..len - i])
      {
        assert env[..len - i][..len - i - 1] == env[..len - i - 1];
        it := match cells[it + 1] { case Link(prev) => prev };
        i := i + 1;
      }
      t := Found(kind, ext, lvl, it);
    }

    /** A node with fields, put in the cell of the `ALO`. */
    method Fields(a: Loc, alo: Loc, ls: nat, len: nat, tag: nat, n: nat, at: Loc, ghost t: Book, ghost env: seq<Loc>)
      requires IsBook(book, terms) && Under(cells, next) && Opens(cells, a, terms, t, env, ls, len) && Room(t, env)
      requires t.Node? && t.tag == tag && 0 < n == |t.args| <= 16 && IsParts(terms, at, t.args)
      requires len > 0 ==> alo == cells[a].at
      modifies this
      ensures next <= old(next) + 31
      ensures Step(old(cells), old(next), cells, next, a, terms) && Partly(cells, a, terms, t, env)
      ensures Made(cells, a, old(next), terms, t)
    {
      ghost var h, nx := cells, next;
      PartsBelow(book, terms, at, t.args);
      var x := AloNod(alo, ls, len, tag, n, at);
      ghost var g := cells;
      HeapSet(a, x);
      NodStep(h, nx, g, cells, a, alo, ls, len, at, terms, t, env);
    }

    /** One layer, by the kind of the book term `w`, put in the cell of the `ALO`. */
    method Layer(a: Loc, w: Word, alo: Loc, ls: nat, len: nat, ghost t: Book, ghost env: seq<Loc>)
      requires IsBook(book, terms) && Encodes(w, terms, t) && Under(cells, next) && next < LS
      requires Opens(cells, a, terms, t, env, ls, len) && Room(t, env) && (len > 0 ==> alo == cells[a].at)
      modifies this
      ensures next <= old(next) + 31
      ensures Step(old(cells), old(next), cells, next, a, terms) && Partly(cells, a, terms, t, env)
      ensures Made(cells, a, old(next), terms, t)
    {
      ghost var h, nx := cells, next;
      var x: Term;
      match w
      case WRef(kind, ext, lvl) =>
        x := AloRef(ls, len, kind, ext, lvl, env);
        HeapSet(a, x);
        AtomStep(h, nx, cells, a, ls, len, terms, t, env, x);
      case WLam(at) =>
        x := AloLam(alo, ls, len, at);
        HeapSet(a, x);
        LamStep(h, nx, cells, a, alo, ls, len, at, terms, t.body, env);
      case WDup(_, at) =>
        x := AloDup(alo, ls, len, at);
        HeapSet(a, x);
        DupStep(h, nx, cells, a, alo, ls, len, at, terms, t, env);
      case WNode(tag, n, at) =>
        if n == 0 {
          HeapSet(a, NodeT(tag, 0, at));
          AtomStep(h, nx, cells, a, ls, len, terms, t, env, NodeT(tag, 0, at));
        } else {
          Fields(a, alo, ls, len, tag, n, at, t, env);
        }
    }

    /** The `ALO` case of `wnf`: the word is unpacked and its layer made. */
    method Expand(a: Loc, ghost t: Book, ghost env: seq<Loc>)
      requires Valid() && IsAlo(cells, a, terms, t, env) && Room(t, env) && next < LS
      modifies this
      ensures Valid() && next <= old(next) + 31
      ensures Touches(old(cells), cells, a, old(next)) && Partly(cells, a, terms, t, env)
      ensures Made(cells, a, old(next), terms, t)
    {
      var len, alo := cells[a].len, cells[a].at;
      var ls, tm := 0, alo;
      if len > 0 {
        ls, tm := UnpackLs(cells[alo].word), UnpackTm(cells[alo].word);
      }
      ghost var h, nx := cells, next;
      Layer(a, book[tm], alo, ls, len, t, env);
      StepGood(h, nx, cells, next, a, terms);
    }

    /** Any cells, in any order: what held a term still holds it, and without an `ALO` left it is the whole instance. */
    method ExpandAll(order: seq<Loc>, ghost root: Loc, ghost t: Book, ghost env: seq<Loc>)
      requires Valid() && next + 31 * |order| < LS && Partly(cells, root, terms, t, env)
      modifies this
      ensures Valid() && Partly(cells, root, terms, t, env)
      ensures NoAlo(cells) ==> Instance(cells, root, t, env)
    {
      var i := 0;
      while i < |order|
        invariant 0 <= i <= |order| && next + 31 * (|order| - i) < LS
        invariant Valid() && Partly(cells, root, terms, t, env)
      {
        if order[i] in cells && cells[order[i]].AloT? {
          assert Fits(cells, order[i], terms);
          ghost var u, e :| IsAlo(cells, order[i], terms, u, e) && Room(u, e);
          ghost var h, nx := cells, next;
          Expand(order[i], u, e);
          PartlyStays(h, cells, order[i], nx, u, e, root, terms, t, env);
        }
        i := i + 1;
      }
      if NoAlo(cells) {
        Complete(cells, root, terms, t, env);
      }
    }

    /** Expanding whichever `ALO` one likes comes to an end, with the whole instance. */
    method Exhaust(ghost start: seq<Job>, ghost root: Loc, ghost t: Book, ghost env: seq<Loc>)
      requires Valid() && AllJobs(cells, start, terms) && next + 31 * JobBulk(start) < LS
      requires Partly(cells, root, terms, t, env)
      modifies this
      ensures Valid() && NoAlo(cells) && Instance(cells, root, t, env)
    {
      ghost var jobs := start;
      while exists c :: c in cells && cells[c].AloT?
        invariant Valid() && AllJobs(cells, jobs, terms) && next + 31 * JobBulk(jobs) < LS
        invariant Partly(cells, root, terms, t, env)
        decreases JobBulk(jobs)
      {
        var a :| a in cells && cells[a].AloT?;
        assert HasJob(jobs, a);
        ghost var i :| 0 <= i < |jobs| && jobs[i].cell == a;
        assert IsJob(cells, jobs[i], terms);
        ghost var h, nx := cells, next;
        BulkWithout(jobs, i);
        Expand(a, jobs[i].t, jobs[i].env);
        ghost var made :| MadeJobs(cells, made, a, nx, terms) && JobBulk(made) < Bulk(jobs[i].t);
        PartlyStays(h, cells, a, nx, jobs[i].t, jobs[i].env, root, terms, t, env);
        JobsOn(h, cells, nx, a, terms, jobs, i, made);
        jobs := jobs[..i] + jobs[i + 1..] + made;
      }
      Complete(cells, root, terms, t, env);
    }
  }
}
