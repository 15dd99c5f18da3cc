/** Single flight: a per-key lock handed out through a map of weak entries, and
    the sessions that fetch under it. */
module FetchLocks {
  import opened Events

  datatype CacheKey = CacheKey(instrument: Instrument, kind: EventKind, from: Timestamp, to: Timestamp, adjustment: nat)

  type LockId = nat
  type TaskId = nat

  /** Where a session is in the read-through protocol for its key. `Checked`
      found the range not covered, before it asked for the lock; `Fetching` has
      `left` uncovered segments to go. `Waiting`, `Holding` and `Fetching` keep
      the lock allocation alive; nothing else does. */
  datatype Pc =
    | Start
    | Checked
    | Waiting(lock: LockId)
    | Holding(lock: LockId)
    | Fetching(lock: LockId, left: nat)
    | Done(coalesced: bool, fetched: bool)
    | Cancelled

  datatype Task = Task(key: CacheKey, pc: Pc)

  /** `slots` is the map of weak entries: an entry whose lock no task keeps
      alive is a tombstone. `filled` are the keys whose range is covered. Per
      key, `calls` and `coalesced` are the accounting counters of provider
      fetches and coalesced waiters; `fetchers` is the number of sessions that
      went on to fetch, `holes` the uncovered segments they found. */
  datatype State = State(
    slots: map<CacheKey, LockId>,
    nextLock: LockId,
    tasks: map<TaskId, Task>,
    filled: set<CacheKey>,
    fetchers: map<CacheKey, nat>,
    holes: map<CacheKey, nat>,
    calls: map<CacheKey, nat>,
    coalesced: map<CacheKey, nat>)

  predicate Uses(p: Pc, l: LockId) {
    (p.Waiting? || p.Holding? || p.Fetching?) && p.lock == l
  }

  predicate Owns(p: Pc, l: LockId) {
    (p.Holding? || p.Fetching?) && p.lock == l
  }

  predicate Alive(s: State, l: LockId) {
    exists t :: t in s.tasks && Uses(s.tasks[t].pc, l)
  }

  predicate Held(s: State, l: LockId) {
    exists t :: t in s.tasks && Owns(s.tasks[t].pc, l)
  }

  /** Upgrade the weak entry, or replace a tombstone with a fresh lock. */
  function AcquireLock(s: State, k: CacheKey): (State, LockId) {
    if k in s.slots && Alive(s, s.slots[k]) then (s, s.slots[k])
    else (s.(slots := s.slots[k := s.nextLock], nextLock := s.nextLock + 1), s.nextLock)
  }

  function Count(m: map<CacheKey, nat>, k: CacheKey): nat {
    if k in m then m[k] else 0
  }

  datatype Step =
    | Spawn(t: TaskId, key: CacheKey)
    | Precheck(t: TaskId)
    | Acquire(t: TaskId)
    | Lock(t: TaskId)
    | Recheck(t: TaskId, gaps: nat)
    | Call(t: TaskId)
    | Finish(t: TaskId)
    | Cancel(t: TaskId)
    | Fill(key: CacheKey)

  function With(s: State, t: TaskId, pc: Pc): State
    requires t in s.tasks
  {
    s.(tasks := s.tasks[t := s.tasks[t].(pc := pc)])
  }

  predicate Enabled(s: State, st: Step) {
    match st
    case Spawn(t, _) => t !in s.tasks
    case Precheck(t) => t in s.tasks && s.tasks[t].pc.Start?
    case Lock(t) => t in s.tasks && s.tasks[t].pc.Waiting? && !Held(s, s.tasks[t].pc.lock)
    case Acquire(t) => t in s.tasks && s.tasks[t].pc.Checked?
    case Recheck(t, gaps) => t in s.tasks && s.tasks[t].pc.Holding? && (gaps == 0 <==> s.tasks[t].key in s.filled)
    case Call(t) => t in s.tasks && s.tasks[t].pc.Fetching? && s.tasks[t].pc.left > 0
    case Finish(t) => t in s.tasks && s.tasks[t].pc.Fetching? && s.tasks[t].pc.left == 0
    case Cancel(t) => t in s.tasks && !s.tasks[t].pc.Done?
    case Fill(_) => true
  }

  /** A read-write session whose `gaps()`, fetches and stores succeed: the
      unlocked pre-check either finds the range covered or goes for the slot;
      under the slot it checks again, and calls the provider once for each
      segment still uncovered. A guard dropped mid-way (`Cancel`) releases the slot. `Fill` is coverage
      arriving from elsewhere. */
  function Apply(s: State, st: Step): State
    requires Enabled(s, st)
  {
    match st
    case Spawn(t, k) => s.(tasks := s.tasks[t := Task(k, Start)])
    case Precheck(t) =>
      var k := s.tasks[t].key;
      With(s, t, if k in s.filled then Done(false, false) else Checked)
    case Acquire(t) =>
      var (s', l) := AcquireLock(s, s.tasks[t].key);
      With(s', t, Waiting(l))
    case Lock(t) => With(s, t, Holding(s.tasks[t].pc.lock))
    case Recheck(t, gaps) =>
      var k := s.tasks[t].key;
      if gaps == 0
      then With(s.(coalesced := s.coalesced[k := Count(s.coalesced, k) + 1]), t, Done(true, false))
      else
        With(s.(fetchers := s.fetchers[k := Count(s.fetchers, k) + 1], holes := s.holes[k := Count(s.holes, k) + gaps]),
             t, Fetching(s.tasks[t].pc.lock, gaps))
    case Call(t) =>
      var k, pc := s.tasks[t].key, s.tasks[t].pc;
      With(s.(calls := s.calls[k := Count(s.calls, k) + 1]), t, pc.(left := pc.left - 1))
    case Finish(t) =>
      With(s.(filled := s.filled + {s.tasks[t].key}), t, Done(false, true))
    case Cancel(t) => With(s, t, Cancelled)
    case Fill(k) => s.(filled := s.filled + {k})
  }

  const Initial: State := State(map[], 0, map[], {}, map[], map[], map[], map[])

  predicate Runs(s: State, steps: seq<Step>, t: State)
    decreases |steps|
  {
    if steps == [] then s == t
    else Enabled(s, steps[0]) && Runs(Apply(s, steps[0]), steps[1..], t)
  }

  // ---------------------------------------------------------- the lock itself

  /** All tasks using one key share the lock its slot points to; no lock serves
      two keys; no two tasks hold one lock. */
  ghost predicate SharedLocks(s: State) {
    && (forall k | k in s.slots :: s.slots[k] < s.nextLock)
    && (forall k, k' | k in s.slots && k' in s.slots && k != k' :: s.slots[k] != s.slots[k'])
    && (forall t, l | t in s.tasks && Uses(s.tasks[t].pc, l) ::
          s.tasks[t].key in s.slots && s.slots[s.tasks[t].key] == l)
    && (forall t, t', l | t in s.tasks && t' in s.tasks && Owns(s.tasks[t].pc, l) && Owns(s.tasks[t'].pc, l) :: t == t')
  }

  lemma WithKeepsShared(s: State, t: TaskId, pc: Pc)
    requires SharedLocks(s) && t in s.tasks
    requires forall l | Uses(pc, l) :: s.tasks[t].key in s.slots && s.slots[s.tasks[t].key] == l
    requires forall l | Owns(pc, l) :: forall t' | t' in s.tasks && Owns(s.tasks[t'].pc, l) :: t' == t
    ensures SharedLocks(With(s, t, pc))
  {
  }

  lemma AcquireKeepsShared(s: State, k: CacheKey)
    requires SharedLocks(s)
    ensures var (s', l) := AcquireLock(s, k);
      SharedLocks(s') && s'.tasks == s.tasks && k in s'.slots && s'.slots[k] == l
  {
    if !(k in s.slots && Alive(s, s.slots[k])) {
      assert forall t, l | t in s.tasks && Uses(s.tasks[t].pc, l) :: s.tasks[t].key != k;
    }
  }

  /** Only the map and the tasks matter to the locks. */
  lemma SameLocks(s: State, s': State)
    requires SharedLocks(s) && s'.slots == s.slots && s'.nextLock == s.nextLock && s'.tasks == s.tasks
    ensures SharedLocks(s')
  {
  }

  /** A task that owns its lock may do anything but change it. */
  lemma OwnerKeepsShared(s: State, s': State, t: TaskId, pc: Pc)
    requires SharedLocks(s) && t in s.tasks && (s.tasks[t].pc.Holding? || s.tasks[t].pc.Fetching?)
    requires pc.Fetching? ==> pc.lock == s.tasks[t].pc.lock
    requires pc.Fetching? || pc.Done? || pc.Cancelled?
    requires s'.slots == s.slots && s'.nextLock == s.nextLock && s'.tasks == With(s, t, pc).tasks
    ensures SharedLocks(s')
  {
    var l := s.tasks[t].pc.lock;
    assert Owns(s.tasks[t].pc, l) && Uses(s.tasks[t].pc, l);
    WithKeepsShared(s, t, pc);
    SameLocks(With(s, t, pc), s');
  }

  lemma AcquireStepKeepsShared(s: State, t: TaskId)
    requires SharedLocks(s) && Enabled(s, Acquire(t))
    ensures SharedLocks(Apply(s, Acquire(t)))
  {
    var (s', l) := AcquireLock(s, s.tasks[t].key);
    AcquireKeepsShared(s, s.tasks[t].key);
    WithKeepsShared(s', t, Waiting(l));
  }

  lemma LockKeepsShared(s: State, t: TaskId)
    requires SharedLocks(s) && Enabled(s, Lock(t))
    ensures SharedLocks(Apply(s, Lock(t)))
  {
    var l := s.tasks[t].pc.lock;
    assert Uses(s.tasks[t].pc, l) && forall t' | t' in s.tasks :: !Owns(s.tasks[t'].pc, l);
    WithKeepsShared(s, t, Holding(l));
  }

  lemma RecheckKeepsShared(s: State, t: TaskId, gaps: nat)
    requires SharedLocks(s) && Enabled(s, Recheck(t, gaps))
    ensures SharedLocks(Apply(s, Recheck(t, gaps)))
  {
    OwnerKeepsShared(s, Apply(s, Recheck(t, gaps)), t,
                     if gaps == 0 then Done(true, false) else Fetching(s.tasks[t].pc.lock, gaps));
  }

  lemma CallKeepsShared(s: State, t: TaskId)
    requires SharedLocks(s) && Enabled(s, Call(t))
    ensures SharedLocks(Apply(s, Call(t)))
  {
    OwnerKeepsShared(s, Apply(s, Call(t)), t, Fetching(s.tasks[t].pc.lock, s.tasks[t].pc.left - 1));
  }

  lemma FinishKeepsShared(s: State, t: TaskId)
    requires SharedLocks(s) && Enabled(s, Finish(t))
    ensures SharedLocks(Apply(s, Finish(t)))
  {
    OwnerKeepsShared(s, Apply(s, Finish(t)), t, Done(false, true));
  }

  lemma SpawnKeepsShared(s: State, t: TaskId, k: CacheKey)
    requires SharedLocks(s) && t !in s.tasks
    ensures SharedLocks(Apply(s, Spawn(t, k)))
  {
  }

  lemma StepKeepsShared(s: State, st: Step)
    requires SharedLocks(s) && Enabled(s, st)
    ensures SharedLocks(Apply(s, st))
  {
    match st
    case Precheck(t) => WithKeepsShared(s, t, if s.tasks[t].key in s.filled then Done(false, false) else Checked);
    case Acquire(t) => AcquireStepKeepsShared(s, t);
    case Lock(t) => LockKeepsShared(s, t);
    case Cancel(t) => WithKeepsShared(s, t, Cancelled);
    case Spawn(t, k) => SpawnKeepsShared(s, t, k);
    case Fill(_) => SameLocks(s, Apply(s, st));
    case Recheck(t, gaps) => RecheckKeepsShared(s, t, gaps);
    case Call(t) => CallKeepsShared(s, t);
    case Finish(t) => FinishKeepsShared(s, t);
  }

  /** Every step but `Fill` touches one task, and never its key. */
  lemma StepTouchesOneTask(s: State, st: Step)
    requires Enabled(s, st) && !st.Fill?
    ensures var s' := Apply(s, st);
      && st.t in s'.tasks && s'.tasks == s.tasks[st.t := s'.tasks[st.t]]
      && (st.t in s.tasks ==> s'.tasks[st.t].key == s.tasks[st.t].key && !s.tasks[st.t].pc.Done?)
  {
  }

  // ------------------------------------------------------------ single flight

  predicate FetchedTask(s: State, t: TaskId, k: CacheKey) {
    t in s.tasks && s.tasks[t].key == k && s.tasks[t].pc.Fetching?
  }

  /** Before the range is covered, every counted fetcher but a cancelled one is
      still at it under the slot; while it is nobody else is past the slot. */
  ghost predicate OneFetch(s: State, cancelled: set<CacheKey>) {
    && (forall k | k !in cancelled :: Count(s.fetchers, k) <= 1)
    && (forall t | t in s.tasks && s.tasks[t].pc.Fetching? :: Count(s.fetchers, s.tasks[t].key) >= 1)
    && (forall k | k !in cancelled && Count(s.fetchers, k) == 1 ::
          k in s.filled || exists t :: FetchedTask(s, t, k))
  }

  /** Keys one of whose fetches was cancelled mid-way. */
  function Interrupted(s: State, st: Step): set<CacheKey> {
    if st.Cancel? && st.t in s.tasks && s.tasks[st.t].pc.Fetching? then {s.tasks[st.t].key} else {}
  }

  /** A fetch about to start finds nobody else fetching its key. */
  lemma HolderIsAlone(s: State, a: TaskId, b: TaskId)
    requires SharedLocks(s) && a in s.tasks && b in s.tasks && s.tasks[a].key == s.tasks[b].key
    requires s.tasks[a].pc.Holding?
    ensures !s.tasks[b].pc.Fetching?
  {
    var l := s.tasks[a].pc.lock;
    assert Uses(s.tasks[a].pc, l) && Owns(s.tasks[a].pc, l);
    if s.tasks[b].pc.Fetching? {
      assert Uses(s.tasks[b].pc, s.tasks[b].pc.lock);
      assert Owns(s.tasks[b].pc, l);
    }
  }

  /** A session past the re-check is the one fetcher of its key. */
  lemma StartKeepsOneFetch(s: State, s': State, t: TaskId, cancelled: set<CacheKey>)
    requires SharedLocks(s) && OneFetch(s, cancelled) && t in s.tasks && s.tasks[t].pc.Holding?
    requires s.tasks[t].key !in s.filled && s'.filled == s.filled
    requires s'.fetchers == s.fetchers[s.tasks[t].key := Count(s.fetchers, s.tasks[t].key) + 1]
    requires FetchedTask(s', t, s.tasks[t].key) && s'.tasks == s.tasks[t := s'.tasks[t]]
    ensures OneFetch(s', cancelled)
  {
    var k := s.tasks[t].key;
    if k !in cancelled && Count(s.fetchers, k) == 1 {
      var b :| FetchedTask(s, b, k);
      HolderIsAlone(s, t, b);
    }
    forall j | j != k && j !in cancelled && Count(s'.fetchers, j) == 1
      ensures j in s'.filled || exists b :: FetchedTask(s', b, j)
    {
      if j !in s.filled {
        var b :| FetchedTask(s, b, j);
        assert FetchedTask(s', b, j);
      }
    }
  }

  predicate Starts(st: Step) {
    st.Recheck? && st.gaps > 0
  }

  /** What a step that starts no fetch does to fetching. */
  lemma QuietEffect(s: State, st: Step)
    requires Enabled(s, st) && !Starts(st)
    ensures var s' := Apply(s, st);
      && s'.fetchers == s.fetchers && s.filled <= s'.filled
      && (st.Fill? ==> s'.tasks == s.tasks)
      && (!st.Fill? && st.t in s'.tasks && s'.tasks[st.t].pc.Fetching? ==> st.t in s.tasks && s.tasks[st.t].pc.Fetching?)
      && (!st.Fill? && st.t in s.tasks && s.tasks[st.t].pc.Fetching? ==>
            s.tasks[st.t].key in s'.filled + Interrupted(s, st) || FetchedTask(s', st.t, s.tasks[st.t].key))
  {
  }

  lemma StepKeepsOneFetch(s: State, st: Step, cancelled: set<CacheKey>)
    requires SharedLocks(s) && OneFetch(s, cancelled) && Enabled(s, st)
    ensures OneFetch(Apply(s, st), cancelled + Interrupted(s, st))
  {
    if Starts(st) {
      StartKeepsOneFetch(s, Apply(s, st), st.t, cancelled);
      assert cancelled + {} == cancelled;
    } else {
      QuietEffect(s, st);
      QuietStepKeepsOneFetch(s, Apply(s, st), st, cancelled, Interrupted(s, st));
    }
  }

  lemma QuietStepKeepsOneFetch(s: State, s': State, st: Step, cancelled: set<CacheKey>, more: set<CacheKey>)
    requires OneFetch(s, cancelled) && Enabled(s, st) && s' == Apply(s, st)
    requires s'.fetchers == s.fetchers && s.filled <= s'.filled && (st.Fill? ==> s'.tasks == s.tasks)
    requires !st.Fill? && st.t in s'.tasks && s'.tasks[st.t].pc.Fetching? ==> st.t in s.tasks && s.tasks[st.t].pc.Fetching?
    requires !st.Fill? && st.t in s.tasks && s.tasks[st.t].pc.Fetching? ==>
      s.tasks[st.t].key in s'.filled + more || FetchedTask(s', st.t, s.tasks[st.t].key)
    ensures OneFetch(s', cancelled + more)
  {
    if !st.Fill? {
      StepTouchesOneTask(s, st);
    }
    QuietKeepsOneFetch(s, s', cancelled, cancelled + more);
  }

  /** A step that starts no fetch, and ends one only by filling or by
      cancellation. */
  lemma QuietKeepsOneFetch(s: State, s': State, cancelled: set<CacheKey>, cancelled': set<CacheKey>)
    requires OneFetch(s, cancelled) && s'.fetchers == s.fetchers && s.filled <= s'.filled && cancelled <= cancelled'
    requires forall t | t in s'.tasks && s'.tasks[t].pc.Fetching? :: FetchedTask(s, t, s'.tasks[t].key)
    requires forall t | t in s.tasks && s.tasks[t].pc.Fetching? ::
      s.tasks[t].key in s'.filled + cancelled' || FetchedTask(s', t, s.tasks[t].key)
    ensures OneFetch(s', cancelled')
  {
    forall k | k !in cancelled' && Count(s'.fetchers, k) == 1
      ensures k in s'.filled || exists t :: FetchedTask(s', t, k)
    {
      if k !in s'.filled {
        var t :| FetchedTask(s, t, k);
        assert FetchedTask(s', t, k);
      }
    }
  }

  /** Calls made and calls to go add up to the segments found uncovered. */
  ghost predicate TallyOf(s: State, k: CacheKey) {
    && (forall t | FetchedTask(s, t, k) :: Count(s.calls, k) + s.tasks[t].pc.left == Count(s.holes, k))
    && ((forall t :: !FetchedTask(s, t, k)) ==> Count(s.calls, k) == Count(s.holes, k))
  }

  ghost predicate Tally(s: State, cancelled: set<CacheKey>) {
    forall k | k !in cancelled :: TallyOf(s, k)
  }

  lemma FetcherIsAlone(s: State, a: TaskId, b: TaskId, k: CacheKey)
    requires SharedLocks(s) && FetchedTask(s, a, k) && FetchedTask(s, b, k)
    ensures a == b
  {
    assert Uses(s.tasks[a].pc, s.tasks[a].pc.lock) && Uses(s.tasks[b].pc, s.tasks[b].pc.lock);
    assert Owns(s.tasks[a].pc, s.tasks[a].pc.lock) && Owns(s.tasks[b].pc, s.tasks[b].pc.lock);
  }

  /** One key's tally after one task changed: `made` calls, `found` segments. */
  lemma TallyMoves(s: State, s': State, t: TaskId, k: CacheKey, made: nat, found: nat)
    requires SharedLocks(s) && TallyOf(s, k) && t in s.tasks && s.tasks[t].key == k
    requires t in s'.tasks && s'.tasks == s.tasks[t := s'.tasks[t]] && s'.tasks[t].key == k
    requires Count(s'.calls, k) == Count(s.calls, k) + made && Count(s'.holes, k) == Count(s.holes, k) + found
    requires (if s'.tasks[t].pc.Fetching? then s'.tasks[t].pc.left else 0) + made
          == (if s.tasks[t].pc.Fetching? then s.tasks[t].pc.left else 0) + found
    requires s.tasks[t].pc.Fetching? || s.tasks[t].pc.Holding? || (made == found == 0 && !s'.tasks[t].pc.Fetching?)
    ensures TallyOf(s', k)
  {
    assert forall b | b != t :: FetchedTask(s', b, k) <==> FetchedTask(s, b, k);
    if s.tasks[t].pc.Fetching? {
      assert FetchedTask(s, t, k);
      forall b | b != t
        ensures !FetchedTask(s, b, k)
      {
        if FetchedTask(s, b, k) {
          FetcherIsAlone(s, t, b, k);
        }
      }
    } else if s.tasks[t].pc.Holding? {
      forall b
        ensures !FetchedTask(s, b, k)
      {
        if FetchedTask(s, b, k) {
          HolderIsAlone(s, t, b);
        }
      }
    } else {
      assert !FetchedTask(s, t, k) && !FetchedTask(s', t, k);
    }
    assert s'.tasks[t].pc.Fetching? ==> FetchedTask(s', t, k);
  }

  lemma TallyElsewhere(s: State, s': State, t: TaskId, k: CacheKey)
    requires TallyOf(s, k) && t in s'.tasks && s'.tasks == s.tasks[t := s'.tasks[t]]
    requires t in s.tasks ==> s.tasks[t].key != k
    requires s'.tasks[t].key != k || s'.tasks[t].pc.Start?
    requires Count(s'.calls, k) == Count(s.calls, k) && Count(s'.holes, k) == Count(s.holes, k)
    ensures TallyOf(s', k)
  {
    assert forall b :: FetchedTask(s', b, k) <==> FetchedTask(s, b, k);
  }

  lemma StepCounts(s: State, st: Step, k: CacheKey)
    requires Enabled(s, st)
    ensures var s', own := Apply(s, st), !st.Fill? && st.t in s.tasks && s.tasks[st.t].key == k;
      && Count(s'.calls, k) == Count(s.calls, k) + (if st.Call? && own then 1 else 0)
      && Count(s'.holes, k) == Count(s.holes, k) + (if st.Recheck? && own then st.gaps else 0)
  {
  }

  lemma StepKeepsTallyOf(s: State, st: Step, k: CacheKey)
    requires SharedLocks(s) && TallyOf(s, k) && Enabled(s, st) && k !in Interrupted(s, st)
    ensures TallyOf(Apply(s, st), k)
  {
    var s' := Apply(s, st);
    StepCounts(s, st, k);
    if st.Fill? {
      assert forall b :: FetchedTask(s', b, k) <==> FetchedTask(s, b, k);
    } else {
      StepTouchesOneTask(s, st);
      if st.t in s.tasks && s.tasks[st.t].key == k {
        TallyMoves(s, s', st.t, k, if st.Call? then 1 else 0, if st.Recheck? then st.gaps else 0);
      } else {
        TallyElsewhere(s, s', st.t, k);
      }
    }
  }

  lemma StepKeepsTally(s: State, st: Step, cancelled: set<CacheKey>)
    requires SharedLocks(s) && Tally(s, cancelled) && Enabled(s, st)
    ensures Tally(Apply(s, st), cancelled + Interrupted(s, st))
  {
    forall k | k !in cancelled + Interrupted(s, st)
      ensures TallyOf(Apply(s, st), k)
    {
      StepKeepsTallyOf(s, st, k);
    }
  }

  function AllInterrupted(s: State, steps: seq<Step>, t: State): set<CacheKey>
    requires Runs(s, steps, t)
    decreases |steps|
  {
    if steps == [] then {}
    else Interrupted(s, steps[0]) + AllInterrupted(Apply(s, steps[0]), steps[1..], t)
  }

  lemma {:induction false} RunKeepsOneFetch(s: State, steps: seq<Step>, t: State, cancelled: set<CacheKey>)
    requires SharedLocks(s) && OneFetch(s, cancelled) && Tally(s, cancelled) && Runs(s, steps, t)
    ensures SharedLocks(t) && OneFetch(t, cancelled + AllInterrupted(s, steps, t))
    ensures Tally(t, cancelled + AllInterrupted(s, steps, t))
    decreases |steps|
  {
    if steps == [] {
      assert cancelled + {} == cancelled;
    } else {
      StepKeepsShared(s, steps[0]);
      StepKeepsOneFetch(s, steps[0], cancelled);
      StepKeepsTally(s, steps[0], cancelled);
      var s' := Apply(s, steps[0]);
      RunKeepsOneFetch(s', steps[1..], t, cancelled + Interrupted(s, steps[0]));
      assert cancelled + Interrupted(s, steps[0]) + AllInterrupted(s', steps[1..], t)
          == cancelled + AllInterrupted(s, steps, t);
    }
  }

  /** Under every interleaving of acquire, wait, cancel and drop, tasks on one
      key share one lock and at most one of them is past it. */
  lemma AtMostOneHolderPerKey(steps: seq<Step>, s: State, a: TaskId, b: TaskId)
    requires Runs(Initial, steps, s)
    requires a in s.tasks && b in s.tasks && s.tasks[a].key == s.tasks[b].key
    requires s.tasks[a].pc.Holding? || s.tasks[a].pc.Fetching?
    requires s.tasks[b].pc.Waiting? || s.tasks[b].pc.Holding? || s.tasks[b].pc.Fetching?
    ensures s.tasks[a].pc.lock == s.tasks[b].pc.lock
    ensures s.tasks[b].pc.Waiting? || a == b
  {
    RunKeepsOneFetch(Initial, steps, s, {});
    assert Uses(s.tasks[a].pc, s.tasks[a].pc.lock) && Uses(s.tasks[b].pc, s.tasks[b].pc.lock);
    assert Owns(s.tasks[a].pc, s.tasks[a].pc.lock);
    assert !s.tasks[b].pc.Waiting? ==> Owns(s.tasks[b].pc, s.tasks[b].pc.lock);
  }

  /** Among any number of sessions on one key none of whose fetches is
      cancelled mid-way, at most one fetches; and it calls the provider at most
      once for each segment it found uncovered, exactly once when it is done. */
  lemma AtMostOneSessionFetches(steps: seq<Step>, s: State, k: CacheKey)
    requires Runs(Initial, steps, s) && k !in AllInterrupted(Initial, steps, s)
    ensures Count(s.fetchers, k) <= 1 && Count(s.calls, k) <= Count(s.holes, k)
    ensures (forall t :: !FetchedTask(s, t, k)) ==> Count(s.calls, k) == Count(s.holes, k)
  {
    RunKeepsOneFetch(Initial, steps, s, {});
    assert TallyOf(s, k);
  }

  // ------------------------------------------------------- coalesced, counted

  function CoalescedTasks(tasks: map<TaskId, Task>, k: CacheKey): set<TaskId> {
    set t | t in tasks && tasks[t] == Task(k, Done(true, false))
  }

  lemma UpdatedCoalesced(tasks: map<TaskId, Task>, t: TaskId, task: Task, k: CacheKey)
    requires t in tasks ==> !tasks[t].pc.Done?
    ensures |CoalescedTasks(tasks[t := task], k)|
         == |CoalescedTasks(tasks, k)| + if task == Task(k, Done(true, false)) then 1 else 0
  {
    var before, after := CoalescedTasks(tasks, k), CoalescedTasks(tasks[t := task], k);
    assert t !in before && after - {t} == before;
    assert after == before || after == before + {t};
  }

  lemma StepKeepsCoalesced(s: State, st: Step, k: CacheKey)
    requires Enabled(s, st) && Count(s.coalesced, k) == |CoalescedTasks(s.tasks, k)|
    ensures Count(Apply(s, st).coalesced, k) == |CoalescedTasks(Apply(s, st).tasks, k)|
  {
    if !st.Fill? {
      StepTouchesOneTask(s, st);
      var task := Apply(s, st).tasks[st.t];
      UpdatedCoalesced(s.tasks, st.t, task, k);
    }
  }

  lemma {:induction false} RunKeepsCoalesced(s: State, steps: seq<Step>, t: State, k: CacheKey)
    requires Runs(s, steps, t) && Count(s.coalesced, k) == |CoalescedTasks(s.tasks, k)|
    ensures Count(t.coalesced, k) == |CoalescedTasks(t.tasks, k)|
    decreases |steps|
  {
    if steps != [] {
      StepKeepsCoalesced(s, steps[0], k);
      RunKeepsCoalesced(Apply(s, steps[0]), steps[1..], t, k);
    }
  }

  /** The coalesced counter is exactly the number of sessions that waited for
      the slot and found their range filled. */
  lemma EveryCoalescedWaiterIsCounted(steps: seq<Step>, s: State, k: CacheKey)
    requires Runs(Initial, steps, s)
    ensures Count(s.coalesced, k) == |CoalescedTasks(s.tasks, k)|
  {
    assert CoalescedTasks(Initial.tasks, k) == {};
    RunKeepsCoalesced(Initial, steps, s, k);
  }

  /** A session that is done, or is cancelled, lets the next waiter in. */
  lemma SlotIsReleased(s: State, t: TaskId, u: TaskId, st: Step)
    requires SharedLocks(s) && Enabled(s, st) && (st == Cancel(t) || st == Finish(t)) && t != u
    requires t in s.tasks && u in s.tasks && s.tasks[u].pc.Waiting? && Owns(s.tasks[t].pc, s.tasks[u].pc.lock)
    ensures Enabled(Apply(s, st), Lock(u))
  {
    var l := s.tasks[u].pc.lock;
    assert forall x | x in s.tasks && Owns(s.tasks[x].pc, l) :: x == t;
  }

  // --------------------------------------------------- what one session goes through

  lemma RunsCons(s: State, st: Step, rest: seq<Step>, t: State)
    requires Enabled(s, st) && Runs(Apply(s, st), rest, t)
    ensures Runs(s, [st] + rest, t)
  {
    assert ([st] + rest)[1..] == rest;
  }

  /** The rest of a fetch: one provider call per segment left, then coverage. */
  lemma {:induction false} FetchToTheEnd(s: State, t: TaskId) returns (steps: seq<Step>, end: State)
    requires t in s.tasks && s.tasks[t].pc.Fetching?
    ensures Runs(s, steps, end) && t in end.tasks && end.tasks[t] == Task(s.tasks[t].key, Done(false, true))
    ensures Count(end.calls, s.tasks[t].key) == Count(s.calls, s.tasks[t].key) + s.tasks[t].pc.left
    ensures s.tasks[t].key in end.filled && end.coalesced == s.coalesced && end.fetchers == s.fetchers
    decreases s.tasks[t].pc.left
  {
    if s.tasks[t].pc.left == 0 {
      end := Apply(s, Finish(t));
      assert Runs(end, [], end);
      RunsCons(s, Finish(t), [], end);
      steps := [Finish(t)];
    } else {
      steps, end := FetchToTheEnd(Apply(s, Call(t)), t);
      RunsCons(s, Call(t), steps, end);
      steps := [Call(t)] + steps;
    }
  }

  /** Nobody else is on this key. */
  predicate Alone(s: State, t: TaskId, k: CacheKey) {
    forall u | u in s.tasks && u != t && s.tasks[u].key == k :: s.tasks[u].pc.Done? || s.tasks[u].pc.Cancelled?
  }

  lemma FreshLockIsFree(s: State, t: TaskId)
    requires SharedLocks(s) && Enabled(s, Acquire(t)) && Alone(s, t, s.tasks[t].key)
    ensures Enabled(Apply(s, Acquire(t)), Lock(t))
  {
    var k := s.tasks[t].key;
    assert forall u, l | u in s.tasks && Uses(s.tasks[u].pc, l) :: s.tasks[u].key != k;
    var s' := Apply(s, Acquire(t));
    var l := s'.tasks[t].pc.lock;
    forall u | u in s'.tasks
      ensures !Owns(s'.tasks[u].pc, l)
    {
      if u != t && Owns(s.tasks[u].pc, l) {
        assert Uses(s.tasks[u].pc, l);
      }
    }
  }

  /** From the lock on. */
  lemma HoldingSession(s: State, t: TaskId, gaps: nat) returns (steps: seq<Step>, end: State)
    requires Enabled(s, Lock(t)) && (gaps == 0 <==> s.tasks[t].key in s.filled)
    ensures Runs(s, steps, end) && t in end.tasks && s.tasks[t].key in end.filled
    ensures var k := s.tasks[t].key;
      && end.tasks[t] == Task(k, if gaps == 0 then Done(true, false) else Done(false, true))
      && Count(end.calls, k) == Count(s.calls, k) + gaps
      && Count(end.fetchers, k) == Count(s.fetchers, k) + (if gaps == 0 then 0 else 1)
      && Count(end.coalesced, k) == Count(s.coalesced, k) + (if gaps == 0 then 1 else 0)
  {
    var s1 := Apply(s, Lock(t));
    var s2 := Apply(s1, Recheck(t, gaps));
    if gaps == 0 {
      steps, end := [], s2;
      assert Runs(s2, [], s2);
    } else {
      steps, end := FetchToTheEnd(s2, t);
    }
    RunsCons(s1, Recheck(t, gaps), steps, end);
    RunsCons(s, Lock(t), [Recheck(t, gaps)] + steps, end);
    steps := [Lock(t)] + ([Recheck(t, gaps)] + steps);
  }

  /** A session nobody interferes with: on a covered range it touches neither slot
      nor provider and coalesces nothing; else it calls the provider once for each
      uncovered segment and leaves the range covered. */
  lemma UncontendedSession(s: State, t: TaskId, k: CacheKey, gaps: nat) returns (steps: seq<Step>, end: State)
    requires SharedLocks(s) && t !in s.tasks && Alone(s, t, k) && (gaps == 0 <==> k in s.filled)
    ensures Runs(s, steps, end) && t in end.tasks && k in end.filled
    ensures end.tasks[t] == Task(k, Done(false, gaps > 0))
    ensures Count(end.calls, k) == Count(s.calls, k) + gaps && Count(end.coalesced, k) == Count(s.coalesced, k)
    ensures gaps == 0 ==> end.slots == s.slots && end.fetchers == s.fetchers
  {
    var s1 := Apply(s, Spawn(t, k));
    SpawnKeepsShared(s, t, k);
    var s2 := Apply(s1, Precheck(t));
    StepKeepsShared(s1, Precheck(t));
    if gaps == 0 {
      steps, end := [], s2;
      assert Runs(s2, [], s2);
    } else {
      FreshLockIsFree(s2, t);
      var s3 := Apply(s2, Acquire(t));
      steps, end := HoldingSession(s3, t, gaps);
      RunsCons(s2, Acquire(t), steps, end);
      steps := [Acquire(t)] + steps;
    }
    RunsCons(s1, Precheck(t), steps, end);
    RunsCons(s, Spawn(t, k), [Precheck(t)] + steps, end);
    steps := [Spawn(t, k)] + ([Precheck(t)] + steps);
  }

  // ------------------------------------------------------- the map, in place

  /** The shared map itself: `strong` are the lock allocations some task keeps
      alive at the moment of the call. */
  class Locks {
    var slots: map<CacheKey, LockId>
    var nextLock: LockId

    constructor ()
      ensures slots == map[] && nextLock == 0
    {
      slots, nextLock := map[], 0;
    }

    method Acquire(k: CacheKey, strong: set<LockId>) returns (l: LockId)
      modifies this
      ensures forall s: State | s.slots == old(slots) && s.nextLock == old(nextLock)
          && (forall n :: n in strong <==> Alive(s, n)) ::
        AcquireLock(s, k) == (s.(slots := slots, nextLock := nextLock), l)
    {
      if k in slots && slots[k] in strong {
        l := slots[k];
      } else {
        l := nextLock;
        nextLock := nextLock + 1;
        slots := slots[k := l];
      }
    }
  }
}
