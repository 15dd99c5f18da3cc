/** Publisher and subscriber end to end: whatever part of a sink's log reaches a
    subscriber, in whatever interleaving, is given back as the published events. */
module Transport {
  import opened Events
  import opened SymbolTables
  import opened Payloads
  import opened HoldBuffers
  import S = Sinks

  // ----------------------------------------- published samples read back

  /** The sample reads, under the table, as the event it was made from. */
  predicate ReadsBack(pod: DataPayload, ev: MarketEvent, t: Table) {
    FromPod(pod, Full(t)) == Event(Recovered(ev))
  }

  ghost predicate Readable(s: S.State) {
    && Dense(s.table)
    && (forall t | t in s.tasks :: ReadsBack(s.tasks[t].pod, s.tasks[t].ev, s.table))
    && (forall n | 0 <= n < |s.log| && s.log[n].PubData? :: ReadsBack(s.log[n].pod, s.log[n].ev, s.table))
  }

  lemma EncodedReadsBack(ev: MarketEvent, t: Table)
    requires Dense(t) && ToPod(ev, t).Encoded?
    ensures var r := ToPod(ev, t); Dense(r.table) && t.reverse <= r.table.reverse && ReadsBack(r.pod, ev, r.table)
  {
    if Named(ev).Some? {
      InternKeepsDense(t, Named(ev).value);
    }
    FullAgrees(ToPod(ev, t).table);
    FromPodInvertsToPodIffProviderMatches(ev, t, Full(ToPod(ev, t).table));
  }

  /** Interning more never changes what an earlier sample reads as. */
  lemma TableKeepsReadable(s: S.State, t: Table)
    requires Readable(s) && Dense(t) && s.table.reverse <= t.reverse
    ensures Readable(s.(table := t))
  {
    forall u | u in s.tasks
      ensures ReadsBack(s.tasks[u].pod, s.tasks[u].ev, t)
    {
      SameReading(s.tasks[u].pod, s.table, t);
    }
    forall n | 0 <= n < |s.log| && s.log[n].PubData?
      ensures ReadsBack(s.log[n].pod, s.log[n].ev, t)
    {
      SameReading(s.log[n].pod, s.table, t);
    }
  }

  lemma BeginKeepsReadable(s: S.State, t: S.TaskId, ev: MarketEvent, accepts: string -> bool)
    requires Readable(s) && S.Enabled(s, S.Begin(t, ev), accepts)
    ensures Readable(S.Apply(s, S.Begin(t, ev), accepts))
  {
    if ToPod(ev, s.table).Encoded? {
      EncodedReadsBack(ev, s.table);
      TableKeepsReadable(s, ToPod(ev, s.table).table);
    }
  }

  lemma StepKeepsReadable(s: S.State, st: S.Step, accepts: string -> bool)
    requires Readable(s) && S.Enabled(s, st, accepts)
    ensures Readable(S.Apply(s, st, accepts))
  {
    if st.Begin? {
      BeginKeepsReadable(s, st.t, st.ev, accepts);
    }
  }

  lemma {:induction false} RunKeepsReadable(s: S.State, steps: seq<S.Step>, t: S.State, accepts: string -> bool)
    requires Readable(s) && S.Runs(s, steps, t, accepts)
    ensures Readable(t)
    decreases |steps|
  {
    if steps != [] {
      StepKeepsReadable(s, steps[0], accepts);
      RunKeepsReadable(S.Apply(s, steps[0], accepts), steps[1..], t, accepts);
    }
  }

  /** In every run of a sink, with any send failing, any number of deliveries in
      flight, suppressed controls and refused tuples among the events: each
      published sample reads, under the sink's table at any later time, as the
      event it was made from. */
  lemma PublishedSamplesReadBack(steps: seq<S.Step>, s: S.State, accepts: string -> bool, n: nat)
    requires S.Runs(S.Initial, steps, s, accepts) && n < |s.log| && s.log[n].PubData?
    ensures ReadsBack(s.log[n].pod, s.log[n].ev, s.table)
    ensures FromPod(s.log[n].pod, Full(s.table)) == Event(s.log[n].ev) <==> ProviderMatches(s.log[n].ev)
  {
    RunKeepsReadable(S.Initial, steps, s, accepts);
    RecoveredIffProviderMatches(s.log[n].ev);
  }

  // ------------------------------------------------------ what a subscriber gets

  /** Every announcement the subscriber hears was published. */
  predicate Heard(inputs: seq<Input>, log: seq<S.Pub>) {
    forall i | i in inputs && i.Announced? :: S.PubAnnouncement(i.a) in log
  }

  /** Some of the published samples: any selection, in any order. */
  predicate Selection(seen: seq<S.Pub>, log: seq<S.Pub>) {
    forall n | 0 <= n < |seen| :: seen[n].PubData? && seen[n] in log
  }

  function Pods(seen: seq<S.Pub>): (r: seq<DataPayload>)
    requires forall n | 0 <= n < |seen| :: seen[n].PubData?
    ensures |r| == |seen|
  {
    seq(|seen|, n requires 0 <= n < |seen| => seen[n].pod)
  }

  /** The events behind the samples, as the wire can carry them. */
  function Origins(seen: seq<S.Pub>): (r: seq<MarketEvent>)
    requires forall n | 0 <= n < |seen| :: seen[n].PubData?
    ensures |r| == |seen|
  {
    seq(|seen|, n requires 0 <= n < |seen| => Recovered(seen[n].ev))
  }

  /** A sink's announcements tell the truth about its table. */
  lemma SinkAnnouncementsAreTrue(steps: seq<S.Step>, s: S.State, accepts: string -> bool, inputs: seq<Input>)
    requires S.Runs(S.Initial, steps, s, accepts) && Heard(inputs, s.log)
    ensures TrueAnnouncements(inputs, s.table)
  {
    S.RunKeepsSound(S.Initial, steps, s, accepts);
    forall i | i in inputs && i.Announced? && Decode(i.a.text).Ok?
      ensures i.a.id < |s.table.reverse| && Decode(i.a.text).instrument == s.table.reverse[i.a.id]
    {
      var n :| 0 <= n < |s.log| && s.log[n] == S.PubAnnouncement(i.a);
      assert Announce(s.table, i.a.id, accepts) == Some(i.a);
      DecodeInvertsEncodeIffNoSeparator(s.table.reverse[i.a.id]);
    }
  }

  /** End to end, over every run of a sink and every interleaving of the two
      services at the subscriber: for every symbol it can resolve, and for
      `SessionClosing`, the events given back are exactly the events behind the
      samples it received, in order; verbatim, if every per-symbol control among
      them names its instrument's provider. */
  lemma SubscriberReproducesPublishedEvents(
    steps: seq<S.Step>, s: S.State, accepts: string -> bool, inputs: seq<Input>, seen: seq<S.Pub>, lane: Lane)
    requires S.Runs(S.Initial, steps, s, accepts)
    requires Heard(inputs, s.log) && Selection(seen, s.log) && After(inputs).received == Pods(seen)
    requires Resolvable(lane, After(inputs).hold.resolver)
    ensures var run := After(inputs);
      |run.out| == |run.sent| && EventsFor(lane, run.out, run.sent) == EventsFor(lane, Origins(seen), Pods(seen))
    ensures forall n | 0 <= n < |seen| && ProviderMatches(seen[n].ev) :: Origins(seen)[n] == seen[n].ev
  {
    var run, t := After(inputs), s.table;
    SinkAnnouncementsAreTrue(steps, s, accepts, inputs);
    HoldBufferReproducesEachSymbol(inputs, t, lane);
    SelectionReads(steps, s, accepts, seen);
    EventsForAreReadings(lane, run.out, run.sent, t);
    EventsForAreReadings(lane, Origins(seen), Pods(seen), t);
    forall n | 0 <= n < |seen| && ProviderMatches(seen[n].ev)
      ensures Origins(seen)[n] == seen[n].ev
    {
      RecoveredIffProviderMatches(seen[n].ev);
    }
  }

  lemma SelectionReads(steps: seq<S.Step>, s: S.State, accepts: string -> bool, seen: seq<S.Pub>)
    requires S.Runs(S.Initial, steps, s, accepts) && Selection(seen, s.log)
    ensures Reads(Origins(seen), Pods(seen), s.table)
  {
    forall n | 0 <= n < |seen|
      ensures FromPod(Pods(seen)[n], Full(s.table)) == Event(Origins(seen)[n])
    {
      var m :| 0 <= m < |s.log| && s.log[m] == seen[n];
      PublishedSamplesReadBack(steps, s, accepts, m);
    }
  }

  /** A symbol is resolved, for good, by any published announcement of it whose
      tuple holds no separator in its free-text fields. */
  lemma {:induction false} AnnouncedSymbolsResolve(
    steps: seq<S.Step>, s: S.State, accepts: string -> bool, inputs: seq<Input>, a: Announcement)
    requires S.Runs(S.Initial, steps, s, accepts) && Heard(inputs, s.log) && Announced(a) in inputs
    ensures a.id < |s.table.reverse|
    ensures var i := s.table.reverse[a.id];
      SEP !in i.provider && SEP !in i.symbol ==> a.id in After(inputs).hold.resolver
    decreases |inputs|
  {
    S.RunKeepsSound(S.Initial, steps, s, accepts);
    var n :| 0 <= n < |s.log| && s.log[n] == S.PubAnnouncement(a);
    assert Announce(s.table, a.id, accepts) == Some(a);
    DecodeInvertsEncodeIffNoSeparator(s.table.reverse[a.id]);
    var front, last := inputs[..|inputs| - 1], inputs[|inputs| - 1];
    if last != Announced(a) {
      assert Announced(a) in front && forall i | i in front :: i in inputs;
      AnnouncedSymbolsResolve(steps, s, accepts, front, a);
    }
  }
}
