/** The per-client data-plane sink: intern, announce a new symbol, then publish,
    with any number of deliveries in flight and any send failing. */
module Sinks {
  import opened Events
  import opened SymbolTables
  import opened Payloads

  /** What reached the two services, in publication order; `ev` is the event a
      sample was made from. */
  datatype Pub = PubAnnouncement(a: Announcement) | PubData(pod: DataPayload, ev: MarketEvent)

  type TaskId = nat

  /** One `deliver` call between its critical sections and sends. */
  datatype Task =
    | Announcing(ev: MarketEvent, pod: DataPayload, a: Announcement)
    | Marking(ev: MarketEvent, pod: DataPayload)
    | Ready(ev: MarketEvent, pod: DataPayload)

  datatype State = State(table: Table, announced: set<SymbolId>, log: seq<Pub>, tasks: map<TaskId, Task>)

  const Initial: State := State(Table(map[], []), {}, [], map[])

  datatype Step =
    | Begin(t: TaskId, ev: MarketEvent)
    | SendAnnouncement(t: TaskId, ok: bool)
    | Mark(t: TaskId)
    | SendData(t: TaskId, ok: bool)
    | Republish(id: SymbolId)

  predicate Enabled(s: State, st: Step, accepts: string -> bool) {
    match st
    case Begin(t, _) => t !in s.tasks
    case SendAnnouncement(t, _) => t in s.tasks && s.tasks[t].Announcing?
    case Mark(t) => t in s.tasks && s.tasks[t].Marking?
    case SendData(t, _) => t in s.tasks && s.tasks[t].Ready?
    case Republish(id) => Announce(s.table, id, accepts).Some?
  }

  /** The critical section of `deliver`: decide from the announced set, without
      marking, what is still to be announced. */
  function Plan(ev: MarketEvent, pod: DataPayload, t: Table, announced: set<SymbolId>, accepts: string -> bool): Task {
    if pod.symbol != CONNECTION && pod.symbol !in announced then
      match Announce(t, pod.symbol, accepts)
      case Some(a) => Announcing(ev, pod, a)
      case None => Ready(ev, pod)
    else Ready(ev, pod)
  }

  function Apply(s: State, st: Step, accepts: string -> bool): State
    requires Enabled(s, st, accepts)
  {
    match st
    case Begin(t, ev) =>
      (match ToPod(ev, s.table)
       case Encoded(pod, table) =>
         s.(table := table, tasks := s.tasks[t := Plan(ev, pod, table, s.announced, accepts)])
       case _ => s)
    case SendAnnouncement(t, ok) =>
      if ok then s.(log := s.log + [PubAnnouncement(s.tasks[t].a)], tasks := s.tasks[t := Marking(s.tasks[t].ev, s.tasks[t].pod)])
      else s.(tasks := s.tasks - {t})
    case Mark(t) =>
      s.(announced := s.announced + {s.tasks[t].pod.symbol}, tasks := s.tasks[t := Ready(s.tasks[t].ev, s.tasks[t].pod)])
    case SendData(t, ok) =>
      if ok then s.(log := s.log + [PubData(s.tasks[t].pod, s.tasks[t].ev)], tasks := s.tasks - {t})
      else s.(tasks := s.tasks - {t})
    case Republish(id) =>
      s.(log := s.log + [PubAnnouncement(Announce(s.table, id, accepts).value)])
  }

  predicate Runs(s: State, steps: seq<Step>, t: State, accepts: string -> bool)
    decreases |steps|
  {
    if steps == [] then s == t
    else Enabled(s, steps[0], accepts) && Runs(Apply(s, steps[0], accepts), steps[1..], t, accepts)
  }

  // ------------------------------------------------------ announce before data

  predicate Published(log: seq<Pub>, id: SymbolId) {
    exists n :: 0 <= n < |log| && log[n].PubAnnouncement? && log[n].a.id == id
  }

  /** The symbol is not a real one, its tuple cannot be announced, or its
      announcement is already out. */
  predicate Cleared(id: SymbolId, log: seq<Pub>, t: Table, accepts: string -> bool) {
    id == CONNECTION || (id < |t.reverse| && (accepts(Encode(t.reverse[id])) ==> Published(log, id)))
  }

  predicate TaskOk(task: Task, s: State, accepts: string -> bool) {
    match task
    case Announcing(_, pod, a) => a.id == pod.symbol && Announce(s.table, pod.symbol, accepts) == Some(a)
    case Marking(_, pod) => pod.symbol < |s.table.reverse| && Published(s.log, pod.symbol)
    case Ready(_, pod) => Cleared(pod.symbol, s.log, s.table, accepts)
  }

  ghost predicate Sound(s: State, accepts: string -> bool) {
    && Dense(s.table)
    && (forall t | t in s.tasks :: TaskOk(s.tasks[t], s, accepts))
    && (forall id | id in s.announced :: Published(s.log, id))
    && (forall n | 0 <= n < |s.log| && s.log[n].PubAnnouncement? :: Announce(s.table, s.log[n].a.id, accepts) == Some(s.log[n].a))
    && (forall n | 0 <= n < |s.log| && s.log[n].PubData? :: Cleared(s.log[n].pod.symbol, s.log[..n], s.table, accepts))
  }

  lemma PublishedGrows(log: seq<Pub>, p: Pub, id: SymbolId)
    ensures Published(log, id) ==> Published(log + [p], id)
    ensures p.PubAnnouncement? && p.a.id == id ==> Published(log + [p], id)
  {
    if Published(log, id) {
      var n :| 0 <= n < |log| && log[n].PubAnnouncement? && log[n].a.id == id;
      assert (log + [p])[n] == log[n];
    }
    assert (log + [p])[|log|] == p;
  }

  /** Interning more symbols and publishing more keeps tasks and log sound. */
  lemma GrowingKeepsOk(s: State, s': State, task: Task, accepts: string -> bool)
    requires s.table.reverse <= s'.table.reverse
    requires s'.log == s.log || exists p :: s'.log == s.log + [p]
    requires TaskOk(task, s, accepts)
    ensures TaskOk(task, s', accepts)
  {
    if s'.log != s.log {
      var p :| s'.log == s.log + [p];
      PublishedGrows(s.log, p, task.pod.symbol);
    }
  }

  lemma LogGrows(s: State, p: Pub, accepts: string -> bool)
    requires Sound(s, accepts)
    requires p.PubAnnouncement? ==> Announce(s.table, p.a.id, accepts) == Some(p.a)
    requires p.PubData? ==> Cleared(p.pod.symbol, s.log, s.table, accepts)
    ensures Sound(s.(log := s.log + [p]), accepts)
  {
    var s' := s.(log := s.log + [p]);
    forall t | t in s'.tasks
      ensures TaskOk(s'.tasks[t], s', accepts)
    {
      GrowingKeepsOk(s, s', s.tasks[t], accepts);
    }
    forall id | id in s'.announced
      ensures Published(s'.log, id)
    {
      PublishedGrows(s.log, p, id);
    }
    forall n | 0 <= n < |s'.log|
      ensures s'.log[n] == if n < |s.log| then s.log[n] else p
      ensures s'.log[..n] == s.log[..n]
    {
    }
  }

  lemma TableGrows(s: State, t: Table, accepts: string -> bool)
    requires Sound(s, accepts) && Dense(t) && s.table.reverse <= t.reverse
    ensures Sound(s.(table := t), accepts)
  {
    var s' := s.(table := t);
    forall u | u in s'.tasks
      ensures TaskOk(s'.tasks[u], s', accepts)
    {
      GrowingKeepsOk(s, s', s.tasks[u], accepts);
    }
  }

  lemma TaskAdded(s: State, t: TaskId, task: Task, accepts: string -> bool)
    requires Sound(s, accepts) && TaskOk(task, s, accepts)
    ensures Sound(s.(tasks := s.tasks[t := task]), accepts)
  {
    var s' := s.(tasks := s.tasks[t := task]);
    forall u | u in s'.tasks
      ensures TaskOk(s'.tasks[u], s', accepts)
    {
      if u != t {
        assert TaskOk(s.tasks[u], s, accepts);
      }
    }
  }

  lemma BeginKeepsSound(s: State, t: TaskId, ev: MarketEvent, accepts: string -> bool)
    requires Sound(s, accepts) && Enabled(s, Begin(t, ev), accepts)
    ensures Sound(Apply(s, Begin(t, ev), accepts), accepts)
  {
    if ToPod(ev, s.table).Encoded? {
      var pod, table := ToPod(ev, s.table).pod, ToPod(ev, s.table).table;
      if Named(ev).Some? {
        InternKeepsDense(s.table, Named(ev).value);
      }
      TableGrows(s, table, accepts);
      assert pod.symbol == CONNECTION || pod.symbol < |table.reverse|;
      assert pod.symbol in s.announced ==> Published(s.log, pod.symbol);
      TaskAdded(s.(table := table), t, Plan(ev, pod, table, s.announced, accepts), accepts);
    }
  }

  lemma TaskRemoved(s: State, t: TaskId, accepts: string -> bool)
    requires Sound(s, accepts)
    ensures Sound(s.(tasks := s.tasks - {t}), accepts)
  {
    var s' := s.(tasks := s.tasks - {t});
    forall u | u in s'.tasks
      ensures TaskOk(s'.tasks[u], s', accepts)
    {
      assert TaskOk(s.tasks[u], s, accepts);
    }
  }

  lemma AnnouncedKeepsSound(s: State, t: TaskId, accepts: string -> bool)
    requires Sound(s, accepts) && Enabled(s, SendAnnouncement(t, true), accepts)
    ensures Sound(Apply(s, SendAnnouncement(t, true), accepts), accepts)
  {
    assert TaskOk(s.tasks[t], s, accepts);
    var p, pod := PubAnnouncement(s.tasks[t].a), s.tasks[t].pod;
    LogGrows(s, p, accepts);
    PublishedGrows(s.log, p, pod.symbol);
    TaskAdded(s.(log := s.log + [p]), t, Marking(s.tasks[t].ev, pod), accepts);
  }

  lemma SentKeepsSound(s: State, t: TaskId, accepts: string -> bool)
    requires Sound(s, accepts) && Enabled(s, SendData(t, true), accepts)
    ensures Sound(Apply(s, SendData(t, true), accepts), accepts)
  {
    assert TaskOk(s.tasks[t], s, accepts);
    var p := PubData(s.tasks[t].pod, s.tasks[t].ev);
    LogGrows(s, p, accepts);
    TaskRemoved(s.(log := s.log + [p]), t, accepts);
  }

  lemma MarkKeepsSound(s: State, t: TaskId, accepts: string -> bool)
    requires Sound(s, accepts) && Enabled(s, Mark(t), accepts)
    ensures Sound(Apply(s, Mark(t), accepts), accepts)
  {
    assert TaskOk(s.tasks[t], s, accepts);
    var pod := s.tasks[t].pod;
    TaskAdded(s, t, Ready(s.tasks[t].ev, pod), accepts);
    var s1 := s.(tasks := s.tasks[t := Ready(s.tasks[t].ev, pod)]);
    var s' := Apply(s, Mark(t), accepts);
    forall u | u in s'.tasks
      ensures TaskOk(s'.tasks[u], s', accepts)
    {
      assert TaskOk(s1.tasks[u], s1, accepts);
    }
  }

  lemma StepKeepsSound(s: State, st: Step, accepts: string -> bool)
    requires Sound(s, accepts) && Enabled(s, st, accepts)
    ensures Sound(Apply(s, st, accepts), accepts)
  {
    match st
    case Begin(t, ev) => BeginKeepsSound(s, t, ev, accepts);
    case SendAnnouncement(t, ok) =>
      if ok {
        AnnouncedKeepsSound(s, t, accepts);
      } else {
        TaskRemoved(s, t, accepts);
      }
    case Mark(t) => MarkKeepsSound(s, t, accepts);
    case SendData(t, ok) =>
      if ok {
        SentKeepsSound(s, t, accepts);
      } else {
        TaskRemoved(s, t, accepts);
      }
    case Republish(id) => LogGrows(s, PubAnnouncement(Announce(s.table, id, accepts).value), accepts);
  }

  lemma {:induction false} RunKeepsSound(s: State, steps: seq<Step>, t: State, accepts: string -> bool)
    requires Sound(s, accepts) && Runs(s, steps, t, accepts)
    ensures Sound(t, accepts)
    decreases |steps|
  {
    if steps != [] {
      StepKeepsSound(s, steps[0], accepts);
      RunKeepsSound(Apply(s, steps[0], accepts), steps[1..], t, accepts);
    }
  }

  /** In every run, with any send failing and any number of deliveries in
      flight: a data sample of a real symbol carries an interned id, and is
      published only after that symbol's announcement, provided the string type
      accepts its tuple; if it does not, the symbol is never announced at all.
      So announce-before-data holds for a published symbol exactly when its
      tuple is accepted. */
  lemma AnnounceBeforeDataIffTupleAccepted(
    steps: seq<Step>, s: State, accepts: string -> bool, n: nat)
    requires Runs(Initial, steps, s, accepts)
    requires n < |s.log| && s.log[n].PubData? && s.log[n].pod.symbol != CONNECTION
    ensures Dense(s.table) && s.log[n].pod.symbol < |s.table.reverse|
    ensures Published(s.log[..n], s.log[n].pod.symbol) <==> accepts(Encode(s.table.reverse[s.log[n].pod.symbol]))
  {
    RunKeepsSound(Initial, steps, s, accepts);
    var id := s.log[n].pod.symbol;
    assert Cleared(id, s.log[..n], s.table, accepts);
    if Published(s.log[..n], id) {
      var m :| 0 <= m < |s.log[..n]| && s.log[..n][m].PubAnnouncement? && s.log[..n][m].a.id == id;
      assert s.log[m].PubAnnouncement?;
    }
  }

  /** The failing side is reachable, for every string type and every event of an
      instrument whose tuple is short enough to be interned and which that type
      does not take: its data goes out although nothing was ever announced. */
  lemma UnacceptedTupleIsPublishedUnannounced(ev: MarketEvent, accepts: string -> bool)
      returns (s: State, pod: DataPayload)
    requires Named(ev).Some? && ByteLen(Encode(Named(ev).value)) <= CAPACITY && !accepts(Encode(Named(ev).value))
    ensures Runs(Initial, [Begin(0, ev), SendData(0, true)], s, accepts)
    ensures s.log == [PubData(pod, ev)] && pod.symbol != CONNECTION && !Published(s.log, pod.symbol)
  {
    var steps := [Begin(0, ev), SendData(0, true)];
    var i := Named(ev).value;
    assert Intern(Initial.table, i) == Known(Table(map[i := 0], [i]), 0);
    var s1 := Apply(Initial, steps[0], accepts);
    pod := s1.tasks[0].pod;
    assert s1.tasks[0] == Ready(ev, pod);
    s := Apply(s1, steps[1], accepts);
    assert s.log == [PubData(pod, ev)];
    assert steps[1..][1..] == [] && Runs(s, [], s, accepts);
    assert Runs(s1, steps[1..], s, accepts);
  }

  lemma RunsCons(s: State, st: Step, rest: seq<Step>, t: State, accepts: string -> bool)
    requires Enabled(s, st, accepts) && Runs(Apply(s, st, accepts), rest, t, accepts)
    ensures Runs(s, [st] + rest, t, accepts)
  {
    assert ([st] + rest)[1..] == rest;
  }

  /** Whether a delivery has to announce its symbol first. */
  predicate Due(s: State, pod: DataPayload, t: Table, accepts: string -> bool) {
    && pod.symbol != CONNECTION && pod.symbol !in s.announced
    && pod.symbol < |t.reverse| && accepts(Encode(t.reverse[pod.symbol]))
  }

  /** An uncontended delivery whose sends succeed publishes the sample, after its
      announcement if and only if that is due, and is over; an announced symbol is
      marked, so that it is not announced again. */
  lemma UncontendedDelivery(s: State, t: TaskId, ev: MarketEvent, accepts: string -> bool)
      returns (steps: seq<Step>, end: State)
    requires t !in s.tasks && ToPod(ev, s.table).Encoded?
    ensures Runs(s, steps, end, accepts)
    ensures var r := ToPod(ev, s.table);
      var due := Due(s, r.pod, r.table, accepts);
      var text := if due then [PubAnnouncement(Announcement(r.pod.symbol, Encode(r.table.reverse[r.pod.symbol])))] else [];
      && end.table == r.table && end.tasks == s.tasks && end.log == s.log + text + [PubData(r.pod, ev)]
      && end.announced == s.announced + if due then {r.pod.symbol} else {}
  {
    var r := ToPod(ev, s.table);
    var s1 := Apply(s, Begin(t, ev), accepts);
    if Due(s, r.pod, r.table, accepts) {
      var s2 := Apply(s1, SendAnnouncement(t, true), accepts);
      var s3 := Apply(s2, Mark(t), accepts);
      end := Apply(s3, SendData(t, true), accepts);
      assert Runs(end, [], end, accepts);
      RunsCons(s3, SendData(t, true), [], end, accepts);
      RunsCons(s2, Mark(t), [SendData(t, true)], end, accepts);
      RunsCons(s1, SendAnnouncement(t, true), [Mark(t)] + [SendData(t, true)], end, accepts);
      steps := [SendAnnouncement(t, true)] + ([Mark(t)] + [SendData(t, true)]);
    } else {
      end := Apply(s1, SendData(t, true), accepts);
      assert Runs(end, [], end, accepts);
      RunsCons(s1, SendData(t, true), [], end, accepts);
      steps := [SendData(t, true)];
      assert s.log + [] == s.log;
    }
    RunsCons(s, Begin(t, ev), steps, end, accepts);
    steps := [Begin(t, ev)] + steps;
    assert end.tasks == s.tasks;
  }

  /** Every announcement ever published names what its id was interned for, so
      any resolver fed from the log agrees with the table. */
  lemma {:induction false} PublishedAnnouncementsAgree(
    steps: seq<Step>, s: State, accepts: string -> bool, r: Resolver, n: nat)
    requires Runs(Initial, steps, s, accepts) && Agrees(r, s.table)
    requires n < |s.log| && s.log[n].PubAnnouncement?
    ensures Agrees(Resolve(r, s.log[n].a), s.table)
  {
    RunKeepsSound(Initial, steps, s, accepts);
    ResolverAgreesWithTable(r, s.table, s.log[n].a, accepts, s.table);
  }

  // -------------------------------------------------------- one delivery, in place

  const REANNOUNCE_INTERVAL: nat := 256

  /** What a caller is told. */
  datatype Outcome = Delivered | Rejected

  /** Which of the sends one `deliver` makes succeed: the announcement, the data
      sample, and how many of a periodic republish's before one fails. */
  datatype Sends = Sends(announcement: bool, data: bool, republished: nat)

  /** Announcements of the first `n` interned instruments, in id order. */
  function Announcements(t: Table, n: nat, accepts: string -> bool): seq<Pub>
    requires n <= |t.reverse|
  {
    if n == 0 then []
    else
      Announcements(t, n - 1, accepts)
      + match Announce(t, n - 1, accepts) case Some(a) => [PubAnnouncement(a)] case None => []
  }

  function Whole(t: Table, accepts: string -> bool): seq<Pub> {
    Announcements(t, |t.reverse|, accepts)
  }

  function Take(pubs: seq<Pub>, n: nat): seq<Pub> {
    if n <= |pubs| then pubs[..n] else pubs
  }

  /** What a delivery puts on the two services ahead of, and after, its sample. */
  function Ahead(plan: Task): seq<Pub> {
    if plan.Announcing? then [PubAnnouncement(plan.a)] else []
  }

  class DataSink {
    var forward: map<Instrument, SymbolId>
    var reverse: seq<Instrument>
    var announced: set<SymbolId>
    var sends: nat
    var log: seq<Pub>

    constructor ()
      ensures forward == map[] && reverse == [] && announced == {} && sends == 0 && log == []
    {
      forward, reverse, announced, sends, log := map[], [], {}, 0, [];
    }

    /** Republish the whole table in id order; the first failing send ends it. */
    method RepublishAll(succeeding: nat, accepts: string -> bool) returns (ok: bool)
      modifies this`log
      ensures var all := Whole(Table(forward, reverse), accepts);
        log == old(log) + Take(all, succeeding) && (ok <==> |all| <= succeeding)
    {
      var t := Table(forward, reverse);
      var pending := [];
      for n := 0 to |reverse|
        invariant pending == Announcements(t, n, accepts)
      {
        match Announce(t, n, accepts)
        case Some(a) => pending := pending + [PubAnnouncement(a)];
        case None =>
      }
      var sent := 0;
      while sent < |pending| && sent < succeeding
        invariant sent <= |pending| && sent <= succeeding && log == old(log) + pending[..sent]
      {
        log := log + [pending[sent]];
        sent := sent + 1;
      }
      ok := sent == |pending|;
    }

    /** One uncontended delivery: the announcement, if due, goes out before the
        sample and is marked only once it is out. The last clauses say exactly
        when the caller is told `Rejected` although the sample went out: the
        periodic republish after it failed. A caller that resends then publishes
        it twice. */
    method Deliver(ev: MarketEvent, ok: Sends, accepts: string -> bool) returns (outcome: Outcome)
      modifies this
      ensures var r := ToPod(ev, Table(old(forward), old(reverse)));
        match r
        case Suppressed => outcome == Delivered && unchanged(this)
        case Refused(_) => outcome == Rejected && unchanged(this)
        case Encoded(pod, t) =>
          var plan, all := Plan(ev, pod, t, old(announced), accepts), Whole(t, accepts);
          && forward == t.forward && reverse == t.reverse
          && (if plan.Announcing? && !ok.announcement
              then outcome == Rejected && log == old(log) && announced == old(announced) && sends == old(sends)
              else
                && announced == old(announced) + (if plan.Announcing? then {pod.symbol} else {})
                && (if !ok.data then outcome == Rejected && log == old(log) + Ahead(plan) && sends == old(sends)
                    else
                      var due := sends % REANNOUNCE_INTERVAL == 0;
                      && sends == old(sends) + 1
                      && log == old(log) + Ahead(plan) + [PubData(pod, ev)] + (if due then Take(all, ok.republished) else [])
                      && (outcome == Rejected <==> due && ok.republished < |all|)))
    {
      match ToPod(ev, Table(forward, reverse))
      case Suppressed => outcome := Delivered;
      case Refused(_) => outcome := Rejected;
      case Encoded(pod, t) =>
        forward, reverse := t.forward, t.reverse;
        match Plan(ev, pod, t, announced, accepts) {
          case Announcing(_, _, a) =>
            if !ok.announcement {
              return Rejected;
            }
            log := log + [PubAnnouncement(a)];
            announced := announced + {pod.symbol};
          case _ =>
        }
        if !ok.data {
          return Rejected;
        }
        log := log + [PubData(pod, ev)];
        outcome := Finish(ok.republished, accepts);
    }

    /** Count a sent sample; every so often, republish the table. */
    method Finish(succeeding: nat, accepts: string -> bool) returns (outcome: Outcome)
      modifies this`log, this`sends
      ensures sends == old(sends) + 1
      ensures var all, due := Whole(Table(forward, reverse), accepts), sends % REANNOUNCE_INTERVAL == 0;
        && log == old(log) + (if due then Take(all, succeeding) else [])
        && (outcome == Rejected <==> due && succeeding < |all|)
    {
      sends := sends + 1;
      outcome := Delivered;
      if sends % REANNOUNCE_INTERVAL == 0 {
        var fine := RepublishAll(succeeding, accepts);
        outcome := if fine then Delivered else Rejected;
      }
    }
  }
}
