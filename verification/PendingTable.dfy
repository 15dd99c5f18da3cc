/** The WebSocket client's pending-request table with its `closed` latch. */
module PendingTable {

  type RequestId = nat

  datatype Reply = Reply(id: RequestId, ok: bool)

  /** The receiving half of a registered request's reply channel: its sender is
      still in the table, has delivered a reply, or was dropped. */
  datatype Slot = Open | Got(reply: Reply) | Hung

  /** Where one request is. `Writing` while its frame is being sent, `Awaiting`
      once sent; the rest is what the caller gets back. */
  datatype Fate =
    | Writing(slot: Slot)
    | Awaiting
    | Answered(reply: Reply)
    | WriteFailed
    | ClosedWhileWaiting
    | Refused

  predicate Undecided(f: Fate) {
    f.Writing? || f.Awaiting?
  }

  /** Its sender is still in the table. */
  predicate Registered(f: Fate) {
    f == Writing(Open) || f == Awaiting
  }

  /** The shared table (`map` and `closed` behind one mutex) with, for every id
      ever requested, where that request is. */
  datatype State = State(nextId: RequestId, pending: set<RequestId>, closed: bool, fates: map<RequestId, Fate>)

  /** Ids count up from one. */
  const FIRST: RequestId := 1

  const Initial: State := State(FIRST, {}, false, map[])

  datatype Step =
    | Request
    | WriteOk(id: RequestId)
    | WriteError(id: RequestId)
    | Receive(reply: Reply)
    | ReaderExit

  predicate Enabled(s: State, st: Step) {
    match st
    case Request => true
    case WriteOk(id) => id in s.fates && s.fates[id].Writing?
    case WriteError(id) => id in s.fates && s.fates[id].Writing?
    case Receive(_) => !s.closed
    case ReaderExit => !s.closed
  }

  function Sent(slot: Slot): Fate {
    match slot
    case Open => Awaiting
    case Got(r) => Answered(r)
    case Hung => ClosedWhileWaiting
  }

  /** A reply reaches a request that is still writing, or one that awaits it. */
  function Deliver(f: Fate, r: Reply): Fate {
    if f.Writing? then Writing(Got(r)) else Answered(r)
  }

  function HangUp(f: Fate): Fate {
    if f.Writing? then Writing(Hung) else ClosedWhileWaiting
  }

  /** `Request` is check-closed-and-insert under the lock; a failed write takes
      its own entry out again; a reply is routed by its id, if present; the
      exiting reader latches `closed` and drops every sender at once. */
  function Apply(s: State, st: Step): State
    requires Enabled(s, st)
  {
    match st
    case Request =>
      var id := s.nextId;
      if s.closed then s.(nextId := id + 1, fates := s.fates[id := Refused])
      else s.(nextId := id + 1, pending := s.pending + {id}, fates := s.fates[id := Writing(Open)])
    case WriteOk(id) => s.(fates := s.fates[id := Sent(s.fates[id].slot)])
    case WriteError(id) => s.(pending := s.pending - {id}, fates := s.fates[id := WriteFailed])
    case Receive(r) =>
      if r.id in s.pending && r.id in s.fates
      then s.(pending := s.pending - {r.id}, fates := s.fates[r.id := Deliver(s.fates[r.id], r)])
      else s
    case ReaderExit =>
      s.(closed := true, pending := {},
         fates := map id | id in s.fates :: if id in s.pending then HangUp(s.fates[id]) else s.fates[id])
  }

  predicate Runs(s: State, steps: seq<Step>, t: State)
    decreases |steps|
  {
    if steps == [] then s == t
    else Enabled(s, steps[0]) && Runs(Apply(s, steps[0]), steps[1..], t)
  }

  predicate OwnReply(id: RequestId, f: Fate) {
    && (f.Answered? ==> f.reply.id == id)
    && (f.Writing? && f.slot.Got? ==> f.slot.reply.id == id)
  }

  /** The table holds exactly the registered requests. */
  ghost predicate Sound(s: State) {
    && (forall id | id in s.pending :: id in s.fates)
    && (forall id | id in s.fates :: id < s.nextId && (Registered(s.fates[id]) <==> id in s.pending))
    && (forall id: RequestId | FIRST <= id < s.nextId :: id in s.fates)
    && (forall id | id in s.fates :: OwnReply(id, s.fates[id]))
    && (s.closed ==> s.pending == {})
  }

  ghost predicate Settled(s: State, t: State) {
    && (forall id | id in s.fates && !Undecided(s.fates[id]) :: id in t.fates && t.fates[id] == s.fates[id])
    && (s.closed ==> t.closed) && s.nextId <= t.nextId
  }

  lemma StepKeepsSound(s: State, st: Step)
    requires Sound(s) && Enabled(s, st)
    ensures Sound(Apply(s, st)) && Settled(s, Apply(s, st))
  {
  }

  lemma {:induction false} RunKeepsSound(s: State, steps: seq<Step>, t: State)
    requires Sound(s) && Runs(s, steps, t)
    ensures Sound(t) && Settled(s, t)
    decreases |steps|
  {
    if steps != [] {
      StepKeepsSound(s, steps[0]);
      RunKeepsSound(Apply(s, steps[0]), steps[1..], t);
    }
  }

  // ------------------------------------------------------- what a request gets back

  /** The first thing the reader does that concerns request `id`. */
  datatype Signal = NoSignal | Replied(reply: Reply) | ReaderGone

  function SignalBy(st: Step, id: RequestId): Signal {
    match st
    case Receive(r) => if r.id == id then Replied(r) else NoSignal
    case ReaderExit => ReaderGone
    case _ => NoSignal
  }

  function FirstSignal(steps: seq<Step>, id: RequestId): Signal
    decreases |steps|, 0
  {
    if steps == [] then NoSignal else Heard(SignalBy(steps[0], id), steps[1..], id)
  }

  /** The first of a signal already there and those in `steps`. */
  function Heard(signal: Signal, steps: seq<Step>, id: RequestId): Signal
    decreases |steps|, 1
  {
    if signal == NoSignal then FirstSignal(steps, id) else signal
  }

  /** What a written request gets back. */
  function Result(signal: Signal): Fate {
    match signal
    case Replied(r) => Answered(r)
    case ReaderGone => ClosedWhileWaiting
    case NoSignal => Awaiting
  }

  /** What becomes of a registered request, told from the steps taken since: a
      failed write decides; else it is answered by the first reply with its id,
      or closed by the reader's exit, whichever came first, once it is written. */
  function Verdict(signal: Signal, steps: seq<Step>, id: RequestId): Fate {
    if WriteError(id) in steps then WriteFailed
    else if WriteOk(id) in steps then Result(signal)
    else
      match signal
      case Replied(r) => Writing(Got(r))
      case ReaderGone => Writing(Hung)
      case NoSignal => Writing(Open)
  }

  predicate Signalled(slot: Slot, signal: Signal) {
    match signal
    case Replied(r) => slot == Got(r)
    case ReaderGone => slot == Hung
    case NoSignal => slot == Open
  }

  /** Decided requests are left alone. */
  lemma {:induction false} DecidedIsFinal(s: State, steps: seq<Step>, t: State, id: RequestId)
    requires Sound(s) && Runs(s, steps, t) && id in s.fates && !Undecided(s.fates[id])
    ensures id in t.fates && t.fates[id] == s.fates[id]
    ensures WriteOk(id) !in steps && WriteError(id) !in steps
    decreases |steps|
  {
    if steps != [] {
      StepKeepsSound(s, steps[0]);
      DecidedIsFinal(Apply(s, steps[0]), steps[1..], t, id);
    }
  }

  /** A written request waits for the first signal. */
  lemma {:induction false} AwaitingFollowsTheReader(s: State, steps: seq<Step>, t: State, id: RequestId)
    requires Sound(s) && Runs(s, steps, t) && id in s.fates && s.fates[id] == Awaiting
    ensures id in t.fates && WriteOk(id) !in steps && WriteError(id) !in steps
    ensures t.fates[id] == Result(FirstSignal(steps, id))
    decreases |steps|
  {
    if steps != [] {
      var s' := Apply(s, steps[0]);
      StepKeepsSound(s, steps[0]);
      if s'.fates[id] == Awaiting {
        AwaitingFollowsTheReader(s', steps[1..], t, id);
      } else {
        DecidedIsFinal(s', steps[1..], t, id);
      }
    }
  }

  /** One step of a request still being written. */
  lemma WritingStep(s: State, st: Step, id: RequestId, signal: Signal)
    requires Sound(s) && Enabled(s, st) && id in s.fates && s.fates[id].Writing? && Signalled(s.fates[id].slot, signal)
    ensures id in Apply(s, st).fates
    ensures var f := Apply(s, st).fates[id];
      && (st == WriteError(id) ==> f == WriteFailed)
      && (st == WriteOk(id) ==> f == Result(signal))
      && (st != WriteError(id) && st != WriteOk(id) ==>
            f.Writing? && Signalled(f.slot, if signal == NoSignal then SignalBy(st, id) else signal))
  {
  }

  lemma {:induction false} WritingFollowsTheSteps(s: State, steps: seq<Step>, t: State, id: RequestId, signal: Signal)
    requires Sound(s) && Runs(s, steps, t) && id in s.fates && s.fates[id].Writing? && Signalled(s.fates[id].slot, signal)
    ensures id in t.fates && t.fates[id] == Verdict(Heard(signal, steps, id), steps, id)
    decreases |steps|
  {
    if steps != [] {
      var st, rest, s' := steps[0], steps[1..], Apply(s, steps[0]);
      StepKeepsSound(s, st);
      WritingStep(s, st, id, signal);
      assert steps == [st] + rest;
      if st == WriteError(id) {
        DecidedIsFinal(s', rest, t, id);
      } else if st == WriteOk(id) {
        WrittenFollowsTheReader(s', rest, t, id, signal);
      } else {
        WritingFollowsTheSteps(s', rest, t, id, if signal == NoSignal then SignalBy(st, id) else signal);
      }
    }
  }

  lemma WrittenFollowsTheReader(s: State, steps: seq<Step>, t: State, id: RequestId, signal: Signal)
    requires Sound(s) && Runs(s, steps, t) && id in s.fates
    requires s.fates[id] == Result(signal)
    ensures id in t.fates && WriteError(id) !in steps
    ensures t.fates[id] == Result(Heard(signal, steps, id))
  {
    if signal == NoSignal {
      AwaitingFollowsTheReader(s, steps, t, id);
    } else {
      DecidedIsFinal(s, steps, t, id);
    }
  }

  lemma {:induction false} ClosedIffReaderExited(s: State, steps: seq<Step>, t: State)
    requires Runs(s, steps, t)
    ensures t.closed <==> s.closed || ReaderExit in steps
    decreases |steps|
  {
    if steps != [] {
      ClosedIffReaderExited(Apply(s, steps[0]), steps[1..], t);
    }
  }

  /** In every run, what a request gets back is determined by the steps since: it
      is refused if and only if the reader had exited; it fails if and only if its
      write fails; it is answered with `r` if and only if its write succeeds and
      `r` is the first reply with its id, received before the reader exits; it is
      closed if and only if its write succeeds and the reader exits first. */
  lemma FateIsDeterminedByTheSteps(before: seq<Step>, s: State, after: seq<Step>, t: State)
    requires Runs(Initial, before, s) && Runs(Apply(s, Request), after, t)
    ensures var id := s.nextId;
      && id in t.fates
      && t.fates[id] == if ReaderExit in before then Refused else Verdict(FirstSignal(after, id), after, id)
  {
    RunKeepsSound(Initial, before, s);
    StepKeepsSound(s, Request);
    ClosedIffReaderExited(Initial, before, s);
    var s', id := Apply(s, Request), s.nextId;
    if s.closed {
      DecidedIsFinal(s', after, t, id);
    } else {
      WritingFollowsTheSteps(s', after, t, id, NoSignal);
    }
  }

  /** In every reachable state each request is in exactly one place, what its
      caller gets back is final, an answer is always the reply with the
      request's own id, and a caller blocked on a reply is in the table. */
  lemma EveryRequestHasOneFinalFate(before: seq<Step>, s: State, after: seq<Step>, t: State, id: RequestId)
    requires Runs(Initial, before, s) && Runs(s, after, t) && FIRST <= id < s.nextId
    ensures id in s.fates && id in t.fates
    ensures !Undecided(s.fates[id]) ==> t.fates[id] == s.fates[id]
    ensures t.fates[id].Answered? ==> t.fates[id].reply.id == id
    ensures t.fates[id] == Awaiting ==> id in t.pending
    ensures t.closed ==> t.pending == {}
  {
    RunKeepsSound(Initial, before, s);
    RunKeepsSound(s, after, t);
  }

  /** Once the reader has exited no caller is blocked on a reply, a request
      still being written cannot block either, and whoever asks later is
      refused instead of registering. */
  lemma NobodyWaitsAfterReaderExit(before: seq<Step>, s: State, after: seq<Step>, t: State, id: RequestId)
    requires Runs(Initial, before, s) && s.closed && Runs(s, after, t) && id in t.fates
    ensures t.closed && t.pending == {} && t.fates[id] != Awaiting
    ensures t.fates[id].Writing? ==> Sent(t.fates[id].slot) != Awaiting
    ensures id >= s.nextId ==> t.fates[id] == Refused
  {
    RunKeepsSound(Initial, before, s);
    RunKeepsSound(s, after, t);
    LateRequestsAreRefused(s, after, t, s.nextId);
  }

  lemma {:induction false} LateRequestsAreRefused(s: State, steps: seq<Step>, t: State, from: RequestId)
    requires Sound(s) && s.closed && Runs(s, steps, t)
    requires forall id | id in s.fates && from <= id :: s.fates[id] == Refused
    ensures forall id | id in t.fates && from <= id :: t.fates[id] == Refused
    decreases |steps|
  {
    if steps != [] {
      StepKeepsSound(s, steps[0]);
      LateRequestsAreRefused(Apply(s, steps[0]), steps[1..], t, from);
    }
  }

  /** The table in place, one method per critical section; `run` is the state
      of the protocol it implements. */
  class Table {
    var pending: set<RequestId>
    var closed: bool
    var nextId: RequestId
    ghost var run: State

    ghost predicate Valid()
      reads this
    {
      Sound(run) && run.pending == pending && run.closed == closed && run.nextId == nextId
    }

    constructor ()
      ensures Valid() && run == Initial
    {
      pending, closed, nextId, run := {}, false, FIRST, Initial;
    }

    /** Take the next id and register it, unless the reader is gone. */
    method Register() returns (id: RequestId, accepted: bool)
      requires Valid()
      modifies this
      ensures Valid() && run == Apply(old(run), Request)
      ensures id == old(nextId) && accepted == !old(closed)
      ensures run.fates[id] == if accepted then Writing(Open) else Refused
    {
      id := nextId;
      nextId := nextId + 1;
      accepted := !closed;
      StepKeepsSound(run, Request);
      run := Apply(run, Request);
      if accepted {
        pending := pending + {id};
      }
    }

    /** The frame could not be written: no reply will come for it. */
    method Forget(id: RequestId)
      requires Valid() && Enabled(run, WriteError(id))
      modifies this
      ensures Valid() && run == Apply(old(run), WriteError(id))
    {
      StepKeepsSound(run, WriteError(id));
      run := Apply(run, WriteError(id));
      pending := pending - {id};
    }

    /** A reply arrived: it is handed to its requester, if there is one. */
    method Route(reply: Reply) returns (found: bool)
      requires Valid() && Enabled(run, Receive(reply))
      modifies this
      ensures Valid() && run == Apply(old(run), Receive(reply))
      ensures found <==> reply.id in old(run).fates && Registered(old(run).fates[reply.id])
    {
      found := reply.id in pending;
      StepKeepsSound(run, Receive(reply));
      run := Apply(run, Receive(reply));
      pending := pending - {reply.id};
    }

    /** The reader exits. */
    method CloseAndClear()
      requires Valid() && Enabled(run, ReaderExit)
      modifies this
      ensures Valid() && run == Apply(old(run), ReaderExit)
      ensures forall id | id in run.fates :: !Registered(run.fates[id])
    {
      StepKeepsSound(run, ReaderExit);
      run := Apply(run, ReaderExit);
      closed := true;
      pending := {};
    }
  }
}
