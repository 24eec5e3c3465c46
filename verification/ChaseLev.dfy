/**
 The work-stealing deque of `clang/data/wsq.c` as a state machine.

 One owner and any number of thieves interleave sequentially consistent steps: one load, store,
 buffer access or compare-and-swap each. `Items` reads the ring as the queue it stands for, and
 every concrete step is shown to be a step of that queue (`StepRefines`). Exactly-once delivery is a
 consequence for whole runs.
 */
module ChaseLev {
  type Task = int

  /** Where the owner is inside `wsq_push` or `wsq_pop`, with the values it has loaded so far. */
  datatype OwnerPc =
    | Idle
    | PushGotBot(x: Task, b: nat)
    | PushGotTop(x: Task, b: nat, t: nat)
    | PushWrote(x: Task, b: nat)
    | PopGotBot(b: nat)
    | PopStoredBot(b1: nat)
    | PopGotTop(b1: nat, t: nat)
    | PopGotTask(b1: nat, t: nat, x: Task)
    | PopWon(t: nat, x: Task)
    | PopLost(t: nat)

  /** Where a thief is inside `wsq_steal`. */
  datatype ThiefPc =
    | Resting
    | GotTop(t: nat)
    | SawTask(t: nat)
    | GotTask(t: nat, x: Task)

  /** `pushed` and `returned` record the run; no step reads them. */
  datatype State = State(
    top: nat, bot: nat, buf: seq<Task>,
    owner: OwnerPc, thieves: map<nat, ThiefPc>,
    pushed: multiset<Task>, returned: multiset<Task>)

  /** What one actor does next. `Owner` and `Thief` continue the call that is under way. */
  datatype Action =
    | CallPush(x: Task)
    | CallPop
    | Owner
    | CallSteal(i: nat)
    | Thief(i: nat)

  /** What a step does to the queue the deque stands for. */
  datatype Event =
    | Quiet
    | Append(x: Task)
    | TakeLast(x: Task)
    | TakeFirst(x: Task)
    | FoundEmpty

  // ---------------------------------------------------------------------------
  // Steps
  // ---------------------------------------------------------------------------

  predicate Enabled(s: State, a: Action) {
    && 0 < |s.buf|
    && match a
       case CallPush(_) => s.owner.Idle?
       case CallPop => s.owner.Idle?
       case Owner => !s.owner.Idle?
       case CallSteal(i) => i in s.thieves && s.thieves[i].Resting?
       case Thief(i) => i in s.thieves && !s.thieves[i].Resting?
  }

  /** The ring slot of index `i`: the remainder that masking takes when the capacity is a power of two. */
  function Slot(cap: nat, i: nat): (k: nat)
    requires 0 < cap
    ensures k < cap
  {
    if i < cap then i else Slot(cap, i - cap)
  }

  /** The task stored at index `i`. */
  function At(buf: seq<Task>, i: nat): Task
    requires 0 < |buf|
  {
    buf[Slot(|buf|, i)]
  }

  /** `wsq_push` and `wsq_pop` after their first load. */
  function OwnerStep(s: State): (State, Event)
    requires Enabled(s, Owner)
  {
    match s.owner
    case PushGotBot(x, b) =>
      (s.(owner := PushGotTop(x, b, s.top)), Quiet)
    case PushGotTop(x, b, t) =>
      if b - t >= |s.buf| then (s.(owner := Idle), Quiet)
      else (s.(owner := PushWrote(x, b), buf := s.buf[Slot(|s.buf|, b) := x]), Quiet)
    case PushWrote(x, b) =>
      (s.(owner := Idle, bot := b + 1, pushed := s.pushed + multiset{x}), Append(x))
    case PopGotBot(b) =>
      if b == 0 then (s.(owner := Idle), FoundEmpty)
      else (s.(owner := PopStoredBot(b - 1), bot := b - 1), Quiet)
    case PopStoredBot(b1) =>
      (s.(owner := PopGotTop(b1, s.top)),
       if s.top < b1 then TakeLast(At(s.buf, b1)) else if b1 < s.top then FoundEmpty else Quiet)
    case PopGotTop(b1, t) =>
      if t <= b1 then (s.(owner := PopGotTask(b1, t, At(s.buf, b1))), Quiet)
      else (s.(owner := Idle, bot := t), Quiet)
    case PopGotTask(b1, t, x) =>
      if t < b1 then (s.(owner := Idle, returned := s.returned + multiset{x}), Quiet)
      else if s.top == t then (s.(owner := PopWon(t, x), top := t + 1), TakeFirst(x))
      else (s.(owner := PopLost(t)), FoundEmpty)
    case PopWon(t, x) =>
      (s.(owner := Idle, bot := t + 1, returned := s.returned + multiset{x}), Quiet)
    case PopLost(t) =>
      (s.(owner := Idle, bot := t + 1), Quiet)
  }

  /** `wsq_steal` after its first load. */
  function ThiefStep(s: State, i: nat): (State, Event)
    requires Enabled(s, Thief(i))
  {
    match s.thieves[i]
    case GotTop(t) =>
      (s.(thieves := s.thieves[i := if t >= s.bot then Resting else SawTask(t)]), Quiet)
    case SawTask(t) =>
      (s.(thieves := s.thieves[i := GotTask(t, At(s.buf, t))]), Quiet)
    case GotTask(t, x) =>
      if s.top == t then
        (s.(thieves := s.thieves[i := Resting], top := t + 1, returned := s.returned + multiset{x}), TakeFirst(x))
      else
        (s.(thieves := s.thieves[i := Resting]), Quiet)
  }

  function Step(s: State, a: Action): (State, Event)
    requires Enabled(s, a)
  {
    match a
    case CallPush(x) => (s.(owner := PushGotBot(x, s.bot)), Quiet)
    case CallPop => (s.(owner := PopGotBot(s.bot)), Quiet)
    case Owner => OwnerStep(s)
    case CallSteal(i) => (s.(thieves := s.thieves[i := GotTop(s.top)]), Quiet)
    case Thief(i) => ThiefStep(s, i)
  }

  // ---------------------------------------------------------------------------
  // The queue behind the ring
  // ---------------------------------------------------------------------------

  /**
   One past the last task still in the queue. It differs from `bot` only inside a pop: the store of
   `bot - 1` takes nothing by itself.
   */
  function End(s: State): nat {
    match s.owner
    case PopStoredBot(b1) => b1 + 1
    case PopGotTop(b1, t) => if t < b1 then b1 else b1 + 1
    case PopGotTask(b1, t, _) => if t < b1 then b1 else b1 + 1
    case PopWon(t, _) => t + 1
    case PopLost(t) => t + 1
    case _ => s.bot
  }

  function Items(s: State): (q: seq<Task>)
    requires 0 < |s.buf| && s.top <= End(s)
  {
    Stretch(s.buf, s.top, End(s))
  }

  /** The tasks at indices `i` up to but not including `j`. */
  function Stretch(buf: seq<Task>, i: nat, j: nat): (q: seq<Task>)
    requires 0 < |buf| && i <= j
    ensures |q| == j - i
    ensures forall k: nat :: k < |q| ==> q[k] == At(buf, i + k)
  {
    seq(j - i, k requires 0 <= k => At(buf, i + k))
  }

  /** The task the owner has taken out of the queue but not yet returned. */
  function InHand(s: State): multiset<Task>
    requires 0 < |s.buf|
  {
    match s.owner
    case PopGotTop(b1, t) => if t < b1 then multiset{At(s.buf, b1)} else multiset{}
    case PopGotTask(b1, t, x) => if t < b1 then multiset{x} else multiset{}
    case PopWon(_, x) => multiset{x}
    case _ => multiset{}
  }

  /** What each event means for a plain double-ended queue. */
  ghost predicate QueueStep(q: seq<Task>, e: Event, q': seq<Task>) {
    match e
    case Quiet => q' == q
    case Append(x) => q' == q + [x]
    case TakeLast(x) => q != [] && x == q[|q| - 1] && q' == q[..|q| - 1]
    case TakeFirst(x) => q != [] && x == q[0] && q' == q[1..]
    case FoundEmpty => q == [] && q' == []
  }

  // ---------------------------------------------------------------------------
  // Invariant
  // ---------------------------------------------------------------------------

  predicate OwnerInv(s: State)
    requires 0 < |s.buf|
  {
    match s.owner
    case Idle => true
    case PushGotBot(_, b) => b == s.bot
    case PushGotTop(_, b, t) => b == s.bot && t <= s.top
    case PushWrote(x, b) => b == s.bot && b - s.top < |s.buf| && At(s.buf, b) == x
    case PopGotBot(b) => b == s.bot
    case PopStoredBot(b1) => s.bot == b1
    case PopGotTop(b1, t) => s.bot == b1 && t <= s.top && (b1 < t ==> t == s.top)
    case PopGotTask(b1, t, x) => s.bot == b1 && t <= s.top && t <= b1 && x == At(s.buf, b1)
    case PopWon(t, _) => s.bot == t && s.top == t + 1
    case PopLost(t) => s.bot == t && s.top == t + 1
  }

  /** A thief that still has a chance (`t` is the current top) knows a task is there, and which. */
  predicate ThiefInv(s: State, pc: ThiefPc)
    requires 0 < |s.buf|
  {
    match pc
    case Resting => true
    case GotTop(t) => t <= s.top
    case SawTask(t) => t <= s.top && (t == s.top ==> t < End(s))
    case GotTask(t, x) => t <= s.top && (t == s.top ==> t < End(s) && x == At(s.buf, t))
  }

  predicate Shape(s: State) {
    && 0 < |s.buf|
    && s.top <= End(s) <= s.top + |s.buf|
    && s.bot <= End(s)
    && OwnerInv(s)
  }

  predicate ThievesInv(s: State)
    requires 0 < |s.buf|
  {
    forall i :: i in s.thieves ==> ThiefInv(s, s.thieves[i])
  }

  /** Every task pushed so far is returned, in the owner's hand or queued, exactly as often. */
  ghost predicate Accounted(s: State)
    requires 0 < |s.buf| && s.top <= End(s)
  {
    s.pushed == s.returned + InHand(s) + multiset(Items(s))
  }

  ghost predicate Inv(s: State) {
    Shape(s) && ThievesInv(s) && Accounted(s)
  }

  predicate Init(s: State) {
    && 0 < |s.buf|
    && s.top == 0 && s.bot == 0 && s.owner == Idle
    && (forall i :: i in s.thieves ==> s.thieves[i] == Resting)
    && s.pushed == multiset{} && s.returned == multiset{}
  }

  // ---------------------------------------------------------------------------
  // Every step is a queue step
  // ---------------------------------------------------------------------------

  lemma {:induction false} SlotIsRemainder(cap: nat, i: nat)
    requires 0 < cap
    ensures Slot(cap, i) == i % cap
  {
    if cap <= i {
      SlotIsRemainder(cap, i - cap);
      RemainderShift(cap, i - cap);
    }
  }

  lemma RemainderShift(cap: nat, i: nat)
    requires 0 < cap
    ensures (i + cap) % cap == i % cap
  {
    var d := (i + cap) / cap - i / cap - 1;
    assert cap * d == i % cap - (i + cap) % cap;
    MultiplesAreFar(cap, d);
  }

  lemma MultiplesAreFar(cap: int, d: int)
    requires 0 < cap
    ensures 1 <= d ==> cap <= cap * d
    ensures d <= -1 ==> cap * d <= -cap
  {
  }

  /** Two indices less than a lap apart use different slots. */
  lemma {:induction false} SlotsDiffer(i: nat, j: nat, cap: nat)
    requires i < j < i + cap
    ensures Slot(cap, i) != Slot(cap, j)
  {
    if cap <= i {
      SlotsDiffer(i - cap, j - cap, cap);
    }
  }

  /** Writing the slot of `bot` leaves every queued task where it is. */
  lemma WriteKeepsTasks(s: State, x: Task, k: nat)
    requires 0 < |s.buf| && s.bot - |s.buf| < k < s.bot
    ensures At(s.buf[Slot(|s.buf|, s.bot) := x], k) == At(s.buf, k)
  {
    SlotsDiffer(k, s.bot, |s.buf|);
  }

  lemma OwnerStepShape(s: State)
    requires Shape(s) && Enabled(s, Owner)
    ensures Shape(OwnerStep(s).0)
  {
  }

  /** No owner step misleads a thief: a queued task's slot is not overwritten, nor taken without a CAS. */
  lemma OwnerStepKeepsThieves(s: State)
    requires Shape(s) && ThievesInv(s) && Enabled(s, Owner)
    ensures ThievesInv(OwnerStep(s).0)
  {
    var s' := OwnerStep(s).0;
    forall i | i in s'.thieves
      ensures ThiefInv(s', s'.thieves[i])
    {
      assert ThiefInv(s, s.thieves[i]);
      if s.owner.PushGotTop? && s'.owner.PushWrote? && s.thieves[i].GotTask? && s.thieves[i].t == s.top {
        WriteKeepsTasks(s, s.owner.x, s.top);
      }
    }
  }

  /** How each owner step changes the queue. */
  lemma GotTopQueue(s: State)
    requires Shape(s) && s.owner.PushGotTop? && Shape(OwnerStep(s).0)
    ensures Items(OwnerStep(s).0) == Items(s)
  {
    var s' := OwnerStep(s).0;
    if s'.owner.PushWrote? {
      forall k: nat | s.top <= k < s.bot
        ensures At(s'.buf, k) == At(s.buf, k)
      {
        WriteKeepsTasks(s, s.owner.x, k);
      }
    }
  }

  lemma StoredBotQueue(s: State)
    requires Shape(s) && s.owner.PopStoredBot? && Shape(OwnerStep(s).0)
    ensures var (s', e) := OwnerStep(s); QueueStep(Items(s), e, Items(s'))
  {
    var (s', e) := OwnerStep(s);
    var q, q' := Items(s), Items(s');
    assert if e.TakeLast? then q' == q[..|q| - 1] else q' == q;
  }

  lemma GotTaskQueue(s: State)
    requires Shape(s) && s.owner.PopGotTask? && Shape(OwnerStep(s).0)
    ensures var (s', e) := OwnerStep(s); QueueStep(Items(s), e, Items(s'))
  {
    var (s', e) := OwnerStep(s);
    var q, q' := Items(s), Items(s');
    assert if e.TakeFirst? then q == [e.x] && q' == [] else q' == q;
  }

  lemma OtherQueue(s: State)
    requires Shape(s) && Enabled(s, Owner) && Shape(OwnerStep(s).0)
    requires !s.owner.PushGotTop? && !s.owner.PopStoredBot? && !s.owner.PopGotTask?
    ensures var (s', e) := OwnerStep(s); QueueStep(Items(s), e, Items(s'))
  {
    var (s', e) := OwnerStep(s);
    var q, q' := Items(s), Items(s');
    assert if e.Append? then q' == q + [e.x] else q' == q;
  }

  lemma OwnerStepQueue(s: State)
    requires Shape(s) && Enabled(s, Owner) && Shape(OwnerStep(s).0)
    ensures var (s', e) := OwnerStep(s); QueueStep(Items(s), e, Items(s'))
  {
    match s.owner
    case PushGotTop(_, _, _) => GotTopQueue(s);
    case PopStoredBot(_) => StoredBotQueue(s);
    case PopGotTask(_, _, _) => GotTaskQueue(s);
    case _ => OtherQueue(s);
  }

  /** A queue step moves tasks exactly as its event says. */
  lemma QueueStepCounts(q: seq<Task>, e: Event, q': seq<Task>)
    requires QueueStep(q, e, q')
    ensures match e
            case Append(x) => multiset(q') == multiset(q) + multiset{x}
            case TakeLast(x) => multiset(q) == multiset(q') + multiset{x}
            case TakeFirst(x) => multiset(q) == multiset(q') + multiset{x}
            case _ => multiset(q') == multiset(q)
  {
    match e
    case TakeLast(x) => assert q == q' + [x];
    case TakeFirst(x) => assert q == [x] + q';
    case _ =>
  }

  /** What the event adds to the tasks pushed, and to the tasks taken out. */
  ghost predicate Ledger(s: State, e: Event, s': State)
    requires 0 < |s.buf| && 0 < |s'.buf|
  {
    match e
    case Append(x) =>
      s'.pushed == s.pushed + multiset{x} && s'.returned + InHand(s') == s.returned + InHand(s)
    case TakeLast(x) =>
      s'.pushed == s.pushed && s'.returned + InHand(s') == s.returned + InHand(s) + multiset{x}
    case TakeFirst(x) =>
      s'.pushed == s.pushed && s'.returned + InHand(s') == s.returned + InHand(s) + multiset{x}
    case _ =>
      s'.pushed == s.pushed && s'.returned + InHand(s') == s.returned + InHand(s)
  }

  lemma StoredBotLedger(s: State)
    requires Shape(s) && s.owner.PopStoredBot?
    ensures var (s', e) := OwnerStep(s); Ledger(s, e, s')
  {
  }

  lemma GotTopLedger(s: State)
    requires Shape(s) && s.owner.PopGotTop?
    ensures var (s', e) := OwnerStep(s); Ledger(s, e, s')
  {
  }

  lemma GotTaskLedger(s: State)
    requires Shape(s) && s.owner.PopGotTask?
    ensures var (s', e) := OwnerStep(s); Ledger(s, e, s')
  {
  }

  lemma OtherLedger(s: State)
    requires Shape(s) && Enabled(s, Owner) && !s.owner.PopStoredBot? && !s.owner.PopGotTop? && !s.owner.PopGotTask?
    ensures var (s', e) := OwnerStep(s); Ledger(s, e, s')
  {
  }

  lemma OwnerStepLedger(s: State)
    requires Shape(s) && Enabled(s, Owner)
    ensures Ledger(s, OwnerStep(s).1, OwnerStep(s).0)
  {
    match s.owner
    case PopStoredBot(_) => StoredBotLedger(s);
    case PopGotTop(_, _) => GotTopLedger(s);
    case PopGotTask(_, _, _) => GotTaskLedger(s);
    case _ => OtherLedger(s);
  }

  lemma ThiefStepLedger(s: State, i: nat)
    requires Shape(s) && ThievesInv(s) && Enabled(s, Thief(i))
    ensures var (s', e) := ThiefStep(s, i); Ledger(s, e, s')
  {
    assert ThiefInv(s, s.thieves[i]);
    assert InHand(ThiefStep(s, i).0) == InHand(s);
  }

  lemma LedgerAccounts(s: State, e: Event, s': State)
    requires Shape(s) && Shape(s') && Accounted(s)
    requires Ledger(s, e, s') && QueueStep(Items(s), e, Items(s'))
    ensures Accounted(s')
  {
    QueueStepCounts(Items(s), e, Items(s'));
  }

  lemma ThiefStepShape(s: State, i: nat)
    requires Shape(s) && ThievesInv(s) && Enabled(s, Thief(i))
    ensures Shape(ThiefStep(s, i).0)
  {
    assert ThiefInv(s, s.thieves[i]);
  }

  lemma ThiefStepKeepsThieves(s: State, i: nat)
    requires Shape(s) && ThievesInv(s) && Enabled(s, Thief(i)) && Shape(ThiefStep(s, i).0)
    ensures ThievesInv(ThiefStep(s, i).0)
  {
    assert ThiefInv(s, s.thieves[i]);
    var s' := ThiefStep(s, i).0;
    forall j | j in s'.thieves
      ensures ThiefInv(s', s'.thieves[j])
    {
      assert ThiefInv(s, s.thieves[j]);
    }
  }

  lemma ThiefStepQueue(s: State, i: nat)
    requires Shape(s) && ThievesInv(s) && Enabled(s, Thief(i)) && Shape(ThiefStep(s, i).0)
    ensures var (s', e) := ThiefStep(s, i);
            QueueStep(Items(s), e, Items(s'))
  {
    assert ThiefInv(s, s.thieves[i]);
    var (s', e) := ThiefStep(s, i);
    var q, q' := Items(s), Items(s');
    if e.TakeFirst? {
      assert q' == q[1..];
    } else {
      assert q' == q;
    }
  }

  /** Refinement: whatever an actor does, the queue changes by exactly the reported event. */
  lemma StepRefines(s: State, a: Action)
    requires Inv(s) && Enabled(s, a)
    ensures var (s', e) := Step(s, a);
            Inv(s') && QueueStep(Items(s), e, Items(s'))
  {
    var (s', e) := Step(s, a);
    match a
    case Owner =>
      OwnerStepShape(s);
      OwnerStepKeepsThieves(s);
      OwnerStepQueue(s);
      OwnerStepLedger(s);
      LedgerAccounts(s, e, s');
    case Thief(i) =>
      ThiefStepShape(s, i);
      ThiefStepKeepsThieves(s, i);
      ThiefStepQueue(s, i);
      ThiefStepLedger(s, i);
      LedgerAccounts(s, e, s');
    case _ =>
      forall j | j in s'.thieves
        ensures ThiefInv(s', s'.thieves[j])
      {
        assert j in s.thieves ==> ThiefInv(s, s.thieves[j]);
      }
      assert Items(s') == Items(s);
  }

  // ---------------------------------------------------------------------------
  // Whole runs
  // ---------------------------------------------------------------------------

  ghost predicate CanRun(s: State, run: seq<Action>)
    decreases |run|
  {
    run != [] ==> Enabled(s, run[0]) && CanRun(Step(s, run[0]).0, run[1..])
  }

  ghost function After(s: State, run: seq<Action>): State
    requires CanRun(s, run)
    decreases |run|
  {
    if run == [] then s else After(Step(s, run[0]).0, run[1..])
  }

  /** The queue events of a run, in order. */
  ghost function Events(s: State, run: seq<Action>): seq<Event>
    requires CanRun(s, run)
    decreases |run|
  {
    if run == [] then [] else var (s', e) := Step(s, run[0]); [e] + Events(s', run[1..])
  }

  /** `q'` is what a plain queue holds after the events, each of them possible when it happens. */
  ghost predicate QueueRun(q: seq<Task>, es: seq<Event>, q': seq<Task>)
    decreases |es|
  {
    if es == [] then q' == q
    else exists m :: QueueStep(q, es[0], m) && QueueRun(m, es[1..], q')
  }

  /** In every interleaving the deque behaves as one atomic double-ended queue. */
  lemma {:induction false} RunRefines(s: State, run: seq<Action>)
    requires Inv(s) && CanRun(s, run)
    ensures Inv(After(s, run))
    ensures QueueRun(Items(s), Events(s, run), Items(After(s, run)))
    decreases |run|
  {
    if run != [] {
      StepRefines(s, run[0]);
      var (s', e) := Step(s, run[0]);
      RunRefines(s', run[1..]);
      assert Events(s, run)[1..] == Events(s', run[1..]);
    }
  }

  /**
   Exactly-once delivery, and the capacity: in every state of every run each pushed task has been
   returned, is in the hand of the owner or is queued, and no more than one of these.
   */
  lemma ExactlyOnce(s: State, run: seq<Action>)
    requires Init(s) && CanRun(s, run)
    ensures var s' := After(s, run);
            && 0 < |s'.buf| && s'.top <= End(s')
            && s'.pushed == s'.returned + InHand(s') + multiset(Items(s'))
            && s'.bot - s'.top <= |s'.buf|
            && (s'.owner.Idle? ==> s'.top <= s'.bot && InHand(s') == multiset{})
  {
    assert Items(s) == [];
    RunRefines(s, run);
  }

  /** A task pushed once is never returned twice, and not returned while still queued. */
  lemma NeverTwice(s: State, run: seq<Action>, x: Task)
    requires Init(s) && CanRun(s, run) && After(s, run).pushed[x] <= 1
    ensures var s' := After(s, run);
            0 < |s'.buf| && s'.top <= End(s') && s'.returned[x] <= 1 && (x in Items(s') ==> s'.returned[x] == 0)
  {
    ExactlyOnce(s, run);
    var s' := After(s, run);
    assert x in Items(s') ==> multiset(Items(s'))[x] > 0;
  }

  /**
   A compare-and-swap that succeeds returns the task at the index it compared, although the slot was
   read earlier and the ring may have wrapped since.
   */
  lemma WonStealIsCurrent(s: State, i: nat)
    requires Inv(s) && Enabled(s, Thief(i)) && s.thieves[i].GotTask? && s.thieves[i].t == s.top
    ensures s.top < End(s) && s.thieves[i].x == Items(s)[0] == At(s.buf, s.thieves[i].t)
  {
    assert ThiefInv(s, s.thieves[i]);
  }

  /**
   Once the owner has seen `t < b1` it takes the task at `b1` without a compare-and-swap: until it
   returns, no thief's compare-and-swap on that index can succeed.
   */
  lemma LastTaskIsSafe(s: State, i: nat)
    requires Inv(s) && i in s.thieves
    requires (s.owner.PopGotTop? || s.owner.PopGotTask?) && s.owner.t < s.owner.b1
    ensures s.thieves[i].SawTask? || s.thieves[i].GotTask? ==> s.thieves[i].t < s.owner.b1
    ensures s.thieves[i].GotTop? && s.thieves[i].t >= s.owner.b1 ==> ThiefStep(s, i).0.thieves[i] == Resting
  {
    assert ThiefInv(s, s.thieves[i]);
  }
}
