/**
 The key queue of `clang/data/wspq.c`: a row of buckets per worker, a mask of the buckets that may hold
 tasks, and stealing between workers. Operations are taken as a whole; the deque inside a bucket is the
 subject of `ChaseLev`. With one worker it is a priority queue, first in first out within a key.
 */
module KeyQueue {
  datatype Task<T> = Task(key: nat, item: T)

  const BRACKETS := 64
  const STEAL_ATTEMPTS := 2

  /** `wspq_key_bucket`. */
  function Bucket(key: nat): nat {
    if key >= BRACKETS then BRACKETS - 1 else key
  }

  // ---------------------------------------------------------------------------
  // Priority queues
  // ---------------------------------------------------------------------------

  /** A queue in the order its tasks leave it: by key, and by age within a key. */
  function Insert<T>(q: seq<Task<T>>, t: Task<T>): seq<Task<T>> {
    if q == [] || t.key < q[0].key then [t] + q else [q[0]] + Insert(q[1..], t)
  }

  function Push2<T>(q: seq<Task<T>>, key: nat, a: T, b: T): seq<Task<T>> {
    Insert(Insert(q, Task(Bucket(key), a)), Task(Bucket(key), b))
  }

  lemma {:induction false} InsertIn<T>(q: seq<Task<T>>, t: Task<T>)
    ensures forall u :: u in Insert(q, t) <==> u == t || u in q
    ensures |Insert(q, t)| == |q| + 1
  {
    if q != [] && q[0].key <= t.key {
      InsertIn(q[1..], t);
      assert q == [q[0]] + q[1..];
    }
  }

  /** A task whose key no other exceeds goes to the end. */
  lemma {:induction false} InsertLast<T>(q: seq<Task<T>>, t: Task<T>)
    requires forall i :: 0 <= i < |q| ==> q[i].key <= t.key
    ensures Insert(q, t) == q + [t]
  {
    if q != [] {
      InsertLast(q[1..], t);
      assert q + [t] == [q[0]] + (q[1..] + [t]);
    }
  }

  // ---------------------------------------------------------------------------
  // Buckets
  // ---------------------------------------------------------------------------

  /** One worker's buckets, oldest task first, and its mask. */
  datatype Bank<T> = Bank(mask: seq<bool>, q: seq<seq<T>>)

  function Tagged<T>(key: nat, xs: seq<T>): seq<Task<T>> {
    seq(|xs|, i requires 0 <= i < |xs| => Task(key, xs[i]))
  }

  /** The tasks of the buckets from `b` on, in order. */
  function Listing<T>(q: seq<seq<T>>, b: nat): seq<Task<T>>
    requires b <= |q|
    decreases |q| - b
  {
    if b == |q| then [] else Tagged(b, q[b]) + Listing(q, b + 1)
  }

  predicate BankOk<T(!new)>(k: Bank<T>) {
    |k.mask| == |k.q| == BRACKETS && forall b :: 0 <= b < BRACKETS && k.q[b] != [] ==> k.mask[b]
  }

  /** Bucket `b` is the first one that is not empty. */
  predicate IsFirst<T(!new)>(q: seq<seq<T>>, b: nat) {
    b < |q| && q[b] != [] && forall i :: 0 <= i < b ==> q[i] == []
  }

  lemma {:induction false} ListingKeys<T>(q: seq<seq<T>>, b: nat)
    requires b <= |q|
    ensures forall t :: t in Listing(q, b) ==> b <= t.key < |q|
    decreases |q| - b
  {
    if b < |q| {
      ListingKeys(q, b + 1);
    }
  }

  lemma {:induction false} InsertPast<T>(xs: seq<Task<T>>, q: seq<Task<T>>, t: Task<T>)
    requires forall i :: 0 <= i < |xs| ==> xs[i].key <= t.key
    ensures Insert(xs + q, t) == xs + Insert(q, t)
  {
    if xs == [] {
      assert xs + q == q;
    } else {
      InsertPast(xs[1..], q, t);
      assert (xs + q)[1..] == xs[1..] + q;
    }
  }

  lemma {:induction false} ListingSame<T>(q: seq<seq<T>>, q': seq<seq<T>>, b: nat)
    requires b <= |q| == |q'| && forall i :: b <= i < |q| ==> q[i] == q'[i]
    ensures Listing(q, b) == Listing(q', b)
    decreases |q| - b
  {
    if b < |q| {
      ListingSame(q, q', b + 1);
    }
  }

  /** Appending to a bucket is inserting in the queue. */
  lemma {:induction false} PushListing<T>(q: seq<seq<T>>, k: nat, x: T, b: nat)
    requires b <= k < |q|
    ensures Listing(q[k := q[k] + [x]], b) == Insert(Listing(q, b), Task(k, x))
    decreases |q| - b
  {
    var q' := q[k := q[k] + [x]];
    var rest := Listing(q, b + 1);
    if b == k {
      ListingSame(q, q', b + 1);
      ListingKeys(q, b + 1);
      InsertPast(Tagged(b, q[b]), rest, Task(k, x));
      assert rest != [] ==> rest[0] in rest;
      assert Tagged(b, q'[b]) == Tagged(b, q[b]) + [Task(k, x)];
    } else {
      PushListing(q, k, x, b + 1);
      InsertPast(Tagged(b, q[b]), rest, Task(k, x));
    }
  }

  /** Taking the oldest task of the first bucket in use is taking the head of the queue. */
  lemma {:induction false} PopListing<T(!new)>(q: seq<seq<T>>, k: nat, b: nat)
    requires b <= k && IsFirst(q, k)
    ensures Listing(q, b) == [Task(k, q[k][0])] + Listing(q[k := q[k][1..]], b)
    decreases |q| - b
  {
    var q' := q[k := q[k][1..]];
    if b == k {
      ListingSame(q, q', b + 1);
      assert Tagged(b, q[b]) == [Task(k, q[k][0])] + Tagged(b, q'[b]);
    } else {
      PopListing(q, k, b + 1);
      assert q[b] == [] && q'[b] == [];
    }
  }

  lemma {:induction false} EmptyListing<T>(q: seq<seq<T>>, b: nat)
    requires b <= |q| && forall i :: b <= i < |q| ==> q[i] == []
    ensures Listing(q, b) == []
    decreases |q| - b
  {
    if b < |q| {
      EmptyListing(q, b + 1);
    }
  }

  // ---------------------------------------------------------------------------
  // All workers
  // ---------------------------------------------------------------------------

  /** Every task of every worker, with its bucket. */
  ghost function Total<T>(bank: seq<Bank<T>>): multiset<Task<T>> {
    if bank == [] then multiset{} else multiset(Listing(bank[0].q, 0)) + Total(bank[1..])
  }

  lemma Swap<T>(a: multiset<Task<T>>, a': multiset<Task<T>>, c: multiset<Task<T>>, x: multiset<Task<T>>,
                y: multiset<Task<T>>)
    requires a' + x == a + y
    ensures (a' + c) + x == (a + c) + y && (c + a') + x == (c + a) + y
  {
    assert (a' + c) + x == (a' + x) + c;
    assert (c + a') + x == (a' + x) + c;
    assert (a + y) + c == (a + c) + y;
  }

  lemma {:induction false} TotalUpdate<T>(bank: seq<Bank<T>>, t: nat, k: Bank<T>, x: multiset<Task<T>>,
                                          y: multiset<Task<T>>)
    requires t < |bank| && multiset(Listing(k.q, 0)) + x == multiset(Listing(bank[t].q, 0)) + y
    ensures Total(bank[t := k]) + x == Total(bank) + y
  {
    var head, rest := multiset(Listing(bank[0].q, 0)), bank[1..];
    if t == 0 {
      assert bank[0 := k][1..] == rest;
      Swap(head, multiset(Listing(k.q, 0)), Total(rest), x, y);
    } else {
      TotalUpdate(rest, t - 1, k, x, y);
      assert bank[t := k][1..] == rest[t - 1 := k];
      Swap(Total(rest), Total(rest[t - 1 := k]), head, x, y);
    }
  }

  lemma {:induction false} InsertMultiset<T>(q: seq<Task<T>>, t: Task<T>)
    ensures multiset(Insert(q, t)) == multiset(q) + multiset{t}
  {
    if q != [] && q[0].key <= t.key {
      InsertMultiset(q[1..], t);
      assert q == [q[0]] + q[1..];
    }
  }

  function Pushed<T>(k: Bank<T>, b: nat, x: T): Bank<T>
    requires b < |k.mask| && b < |k.q|
  {
    Bank(k.mask[b := true], k.q[b := k.q[b] + [x]])
  }

  lemma PushedOk<T(!new)>(k: Bank<T>, b: nat, x: T)
    requires BankOk(k) && b < BRACKETS
    ensures BankOk(Pushed(k, b, x)) && Listing(Pushed(k, b, x).q, 0) == Insert(Listing(k.q, 0), Task(b, x))
  {
    PushListing(k.q, b, x, 0);
  }

  lemma PushTotal<T>(bank: seq<Bank<T>>, tid: nat, b: nat, x: T)
    requires tid < |bank| && b < |bank[tid].mask| && b < |bank[tid].q|
    ensures Total(bank[tid := Pushed(bank[tid], b, x)]) == Total(bank) + multiset{Task(b, x)}
  {
    var k := bank[tid];
    PushListing(k.q, b, x, 0);
    InsertMultiset(Listing(k.q, 0), Task(b, x));
    TotalUpdate(bank, tid, Pushed(k, b, x), multiset{}, multiset{Task(b, x)});
  }

  /** All a push does to the banks. */
  lemma PushAll<T(!new)>(bank: seq<Bank<T>>, tid: nat, b: nat, x: T)
    requires tid < |bank| && b < BRACKETS && BankOk(bank[tid]) && forall t :: 0 <= t < |bank| ==> BankOk(bank[t])
    ensures var bank' := bank[tid := Pushed(bank[tid], b, x)];
            && (forall t :: 0 <= t < |bank'| ==> BankOk(bank'[t]))
            && Listing(bank'[tid].q, 0) == Insert(Listing(bank[tid].q, 0), Task(b, x))
            && Total(bank') == Total(bank) + multiset{Task(b, x)}
  {
    PushedOk(bank[tid], b, x);
    PushTotal(bank, tid, b, x);
  }

  function Stolen<T>(k: Bank<T>, b: nat): Bank<T>
    requires b < |k.q| && k.q[b] != []
  {
    k.(q := k.q[b := k.q[b][1..]])
  }

  lemma Concat<T>(xs: seq<Task<T>>, ys: seq<Task<T>>)
    ensures multiset(xs + ys) == multiset(xs) + multiset(ys)
  {
  }

  lemma {:induction false} StealListing<T>(q: seq<seq<T>>, k: nat, b: nat)
    requires b <= k < |q| && q[k] != []
    ensures multiset(Listing(q[k := q[k][1..]], b)) + multiset{Task(k, q[k][0])} == multiset(Listing(q, b))
    decreases |q| - b
  {
    var q' := q[k := q[k][1..]];
    Concat(Tagged(b, q[b]), Listing(q, b + 1));
    Concat(Tagged(b, q'[b]), Listing(q', b + 1));
    if b == k {
      ListingSame(q, q', b + 1);
      TakeFirst(k, q[k]);
    } else {
      StealListing(q, k, b + 1);
    }
  }

  lemma TakeFirst<T>(k: nat, xs: seq<T>)
    requires xs != []
    ensures multiset(Tagged(k, xs)) == multiset{Task(k, xs[0])} + multiset(Tagged(k, xs[1..]))
  {
    assert Tagged(k, xs) == [Task(k, xs[0])] + Tagged(k, xs[1..]);
    Concat([Task(k, xs[0])], Tagged(k, xs[1..]));
  }

  lemma StealTotal<T>(bank: seq<Bank<T>>, v: nat, b: nat)
    requires v < |bank| && b < |bank[v].q| && bank[v].q[b] != []
    ensures Total(bank[v := Stolen(bank[v], b)]) + multiset{Task(b, bank[v].q[b][0])} == Total(bank)
  {
    var k := bank[v];
    StealListing(k.q, b, 0);
    TotalUpdate(bank, v, Stolen(k, b), multiset{Task(b, k.q[b][0])}, multiset{});
  }

  /** `got` tasks have moved from bucket `b` of worker `v` to that of worker `me`, oldest first. */
  ghost predicate HasMoved<T(!new)>(bank: seq<Bank<T>>, bank': seq<Bank<T>>, v: nat, me: nat, b: nat, got: nat)
    requires v < |bank| && me < |bank| && BankOk(bank[v]) && BankOk(bank[me])
  {
    && |bank'| == |bank| && v != me && b < BRACKETS && got <= |bank[v].q[b]|
    && (forall t :: 0 <= t < |bank| && t != me && t != v ==> bank'[t] == bank[t])
    && bank'[v] == bank[v].(q := bank[v].q[b := bank[v].q[b][got..]])
    && bank'[me].q == bank[me].q[b := bank[me].q[b] + bank[v].q[b][..got]]
    && (got == 0 ==> bank'[me] == bank[me])
  }

  lemma NothingMoved<T(!new)>(bank: seq<Bank<T>>, bank': seq<Bank<T>>, v: nat, me: nat, b: nat)
    requires v < |bank| && me < |bank| && BankOk(bank[v]) && BankOk(bank[me]) && HasMoved(bank, bank', v, me, b, 0)
    ensures bank' == bank
  {
    assert bank'[v].q == bank[v].q;
  }

  lemma MoveNone<T(!new)>(bank: seq<Bank<T>>, v: nat, me: nat, b: nat)
    requires v < |bank| && me < |bank| && v != me && BankOk(bank[v]) && BankOk(bank[me]) && b < BRACKETS
    ensures HasMoved(bank, bank, v, me, b, 0)
  {
    assert bank[me].q[b] + bank[v].q[b][..0] == bank[me].q[b];
    assert bank[v].q[b][0..] == bank[v].q[b];
  }

  lemma MoveOne<T(!new)>(bank0: seq<Bank<T>>, bank: seq<Bank<T>>, bank': seq<Bank<T>>,
                         v: nat, me: nat, b: nat, got: nat)
    requires v < |bank0| && me < |bank0| && BankOk(bank0[v]) && BankOk(bank0[me])
    requires HasMoved(bank0, bank, v, me, b, got)
    requires |bank| == |bank'| && BankOk(bank[v]) && BankOk(bank[me]) && bank[v].q[b] != []
    requires bank'[v] == Stolen(bank[v], b) && bank'[me] == Pushed(bank[me], b, bank[v].q[b][0])
    requires forall t :: 0 <= t < |bank| && t != me && t != v ==> bank'[t] == bank[t]
    ensures HasMoved(bank0, bank', v, me, b, got + 1)
  {
    var xs := bank0[v].q[b];
    assert xs[got..][1..] == xs[got + 1..];
    assert xs[..got] + [xs[got]] == xs[..got + 1];
    assert bank0[me].q[b] + xs[..got] + [xs[got]] == bank0[me].q[b] + xs[..got + 1];
  }

  // ---------------------------------------------------------------------------
  // The queue
  // ---------------------------------------------------------------------------

  class Wspq<T(0,!new)> {
    var bank: seq<Bank<T>>

    ghost predicate Valid()
      reads this
    {
      |bank| > 0 && forall t :: 0 <= t < |bank| ==> BankOk(bank[t])
    }

    /** The queue of worker `t`. */
    ghost function Queue(t: nat): seq<Task<T>>
      reads this
      requires Valid() && t < |bank|
    {
      Listing(bank[t].q, 0)
    }

    constructor (n: nat)
      requires n > 0
      ensures Valid() && |bank| == n && forall t :: 0 <= t < n ==> Queue(t) == []
    {
      var empty: Bank<T> := Bank(seq(BRACKETS, i => false), seq(BRACKETS, i => []));
      bank := seq(n, i => empty);
      new;
      EmptyListing(empty.q, 0);
    }

    method Push(tid: nat, key: nat, task: T)
      requires Valid() && tid < |bank|
      modifies this
      ensures Valid() && |bank| == old(|bank|) && (forall t :: 0 <= t < |bank| && t != tid ==> bank[t] == old(bank[t]))
      ensures bank[tid] == Pushed(old(bank[tid]), Bucket(key), task)
      ensures Queue(tid) == Insert(old(Queue(tid)), Task(Bucket(key), task))
      ensures Total(bank) == old(Total(bank)) + multiset{Task(Bucket(key), task)}
    {
      var b := Bucket(key);
      PushAll(bank, tid, b, task);
      bank := bank[tid := Pushed(bank[tid], b, task)];
    }

    /** `wspq_lsb64`: the first bucket marked in the mask, or `BRACKETS`. */
    method LowestBit(mask: seq<bool>) returns (b: nat)
      ensures b <= |mask| && (forall i :: 0 <= i < b ==> !mask[i]) && (b < |mask| ==> mask[b])
    {
      b := 0;
      while b < |mask| && !mask[b]
        invariant b <= |mask| && forall i :: 0 <= i < b ==> !mask[i]
      {
        b := b + 1;
      }
    }

    /** Takes a task from the first bucket that has one: the oldest if there is one worker, else the newest. */
    method Pop(tid: nat) returns (ok: bool, key: nat, task: T)
      requires Valid() && tid < |bank|
      modifies this
      ensures Valid() && |bank| == old(|bank|) && (forall t :: 0 <= t < |bank| && t != tid ==> bank[t] == old(bank[t]))
      ensures !ok ==> old(Queue(tid)) == [] && bank[tid].q == old(bank[tid].q)
      ensures ok ==> IsFirst(old(bank[tid].q), key)
      ensures ok && |bank| == 1 ==> old(Queue(tid)) == [Task(key, task)] + Queue(tid)
      ensures ok && |bank| > 1 ==>
                var xs := old(bank[tid].q)[key];
                task == xs[|xs| - 1] && bank[tid].q == old(bank[tid].q)[key := xs[..|xs| - 1]]
    {
      var n := |bank|;
      ghost var q0 := bank[tid].q;
      ghost var others := bank;
      var m := bank[tid].mask;
      var b := LowestBit(m);
      ok := false;
      key := 0;
      while b < BRACKETS
        invariant Valid() && |bank| == n && |m| == BRACKETS && b <= BRACKETS
        invariant forall t :: 0 <= t < |bank| && t != tid ==> bank[t] == others[t]
        invariant bank[tid].q == q0 && (b < BRACKETS ==> m[b])
        invariant forall i :: 0 <= i < b ==> q0[i] == [] && !m[i]
        invariant forall i :: b <= i < BRACKETS && q0[i] != [] ==> m[i]
        decreases BRACKETS - b
      {
        var k := bank[tid];
        if k.q[b] != [] {
          if n == 1 {
            PopListing(k.q, b, 0);
            task := k.q[b][0];
            bank := bank[tid := k.(q := k.q[b := k.q[b][1..]])];
          } else {
            task := k.q[b][|k.q[b]| - 1];
            bank := bank[tid := k.(q := k.q[b := k.q[b][..|k.q[b]| - 1]])];
          }
          return true, b, task;
        }
        bank := bank[tid := k.(mask := k.mask[b := false])];
        ghost var m0, b0 := m, b;
        m := m[b := false];
        b := LowestBit(m);
        forall i | 0 <= i < b
          ensures q0[i] == []
        {
          assert i != b0 ==> m[i] == m0[i];
        }
      }
      EmptyListing(q0, 0);
      task := *;
    }
  
    method StealOne(v: nat, me: nat, b: nat)
      requires Valid() && v < |bank| && me < |bank| && v != me && b < BRACKETS && bank[v].q[b] != []
      modifies this
      ensures Valid() && |bank| == old(|bank|) && Total(bank) == old(Total(bank))
      ensures bank[v] == Stolen(old(bank[v]), b) && bank[me] == Pushed(old(bank[me]), b, old(bank[v]).q[b][0])
      ensures forall t :: 0 <= t < |bank| && t != me && t != v ==> bank[t] == old(bank[t])
    {
      var task := bank[v].q[b][0];
      StealTotal(bank, v, b);
      bank := bank[v := Stolen(bank[v], b)];
      Push(me, b, task);
    }

    /** The loop of `wspq_steal_some` that empties the victim's bucket. */
    method StealBatch(v: nat, me: nat, b: nat, maxBatch: nat) returns (got: nat)
      requires Valid() && v < |bank| && me < |bank| && v != me && b < BRACKETS
      modifies this
      ensures Valid() && HasMoved(old(bank), bank, v, me, b, got) && Total(bank) == old(Total(bank))
      ensures got == maxBatch || (got < maxBatch && got == |old(bank)[v].q[b]|)
    {
      got := 0;
      ghost var bank0 := bank;
      MoveNone(bank, v, me, b);
      while got < maxBatch && bank[v].q[b] != []
        invariant Valid() && HasMoved(bank0, bank, v, me, b, got) && got <= maxBatch
        invariant Total(bank) == Total(bank0)
      {
        ghost var bank1 := bank;
        StealOne(v, me, b);
        MoveOne(bank0, bank1, bank, v, me, b, got);
        got := got + 1;
      }
    }

    /**
     Steals up to `maxBatch` tasks from one other worker, from its first bucket in use, below the thief's own
     first one if `restrict`. No task is lost, copied or moved to another bucket.
     */
    method StealSome(me: nat, maxBatch: nat, restrict: bool, cursor: nat) returns (got: nat, cursor': nat)
      requires Valid() && me < |bank|
      modifies this
      ensures Valid() && |bank| == old(|bank|) && Total(bank) == old(Total(bank))
      ensures got == 0 ==> forall t :: 0 <= t < |bank| ==> bank[t].q == old(bank)[t].q
      ensures got > 0 ==> exists v: nat, b: nat :: v < |bank| && HasMoved(old(bank), bank, v, me, b, got)
    {
      var n := |bank|;
      got, cursor' := 0, cursor;
      if n <= 1 {
        return;
      }
      var limit := BRACKETS;
      if restrict {
        limit := LowestBit(bank[me].mask);
      }
      ghost var bank0 := bank;
      var k := 0;
      while k < STEAL_ATTEMPTS
        invariant Valid() && |bank| == n && k <= STEAL_ATTEMPTS && got == 0
        invariant Total(bank) == Total(bank0) && bank == bank0
      {
        var v := (cursor + k) % n;
        if v != me {
          var b := LowestBit(bank[v].mask);
          if b < limit {
            got := StealBatch(v, me, b, maxBatch);
            if got > 0 {
              cursor' := v + 1;
              return;
            }
            NothingMoved(bank0, bank, v, me, b);
          }
        }
        k := k + 1;
      }
      cursor' := cursor + STEAL_ATTEMPTS;
    }
  }
}
