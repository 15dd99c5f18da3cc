/** The client multiplexer's connection-scoped control coalescer: which of the
    interleaved substream events reach the client at all. */
module Coalescing {
  import opened Events

  datatype ConnState = Connected | Disconnected

  /** Last forwarded connection state and error text, per provider. */
  datatype Seen = Seen(conn: map<string, ConnState>, errors: map<string, string>)

  const NothingSeen: Seen := Seen(map[], map[])

  datatype Verdict = Verdict(seen: Seen, forward: bool)

  function NoteConn(seen: Seen, provider: string, state: ConnState): Verdict {
    if provider in seen.conn && seen.conn[provider] == state then Verdict(seen, false)
    else Verdict(seen.(conn := seen.conn[provider := state]), true)
  }

  function NoteError(seen: Seen, provider: string, message: string): Verdict {
    if provider in seen.errors && seen.errors[provider] == message then Verdict(seen, false)
    else Verdict(seen.(errors := seen.errors[provider := message]), true)
  }

  function Admit(seen: Seen, ev: MarketEvent): (v: Verdict)
    ensures Accountable(ev) ==> v == Verdict(seen, true)
  {
    if !ev.Control? then Verdict(seen, true)
    else
      match ev.control
      case SessionClosing => Verdict(seen, false)
      case ProviderConnected(p) => NoteConn(seen, p, Connected)
      case ProviderDisconnected(p, _, _) => NoteConn(seen, p, Disconnected)
      case ProviderError(p, m) => NoteError(seen, p, m)
      case SubscriptionChanged(_, _, _, _) => Verdict(seen, true)
      case Gap(_, _, _) => Verdict(seen, true)
  }

  /** What reaches the client out of the merged substreams, in order. */
  function Forwarded(seen: Seen, merged: seq<MarketEvent>): seq<MarketEvent>
    decreases |merged|
  {
    if merged == [] then []
    else
      var v := Admit(seen, merged[0]);
      (if v.forward then [merged[0]] else []) + Forwarded(v.seen, merged[1..])
  }

  // ------------------------------------------------- reference description

  function ConnAt(provider: string, ev: MarketEvent): seq<ConnState> {
    if ev.Control? && ev.control == ProviderConnected(provider) then [Connected]
    else if ev.Control? && ev.control.ProviderDisconnected? && ev.control.provider == provider then [Disconnected]
    else []
  }

  function ConnOf(provider: string, evs: seq<MarketEvent>): seq<ConnState> {
    if evs == [] then [] else ConnAt(provider, evs[0]) + ConnOf(provider, evs[1..])
  }

  function ErrorAt(provider: string, ev: MarketEvent): seq<string> {
    if ev.Control? && ev.control.ProviderError? && ev.control.provider == provider then [ev.control.message] else []
  }

  function ErrorsOf(provider: string, evs: seq<MarketEvent>): seq<string> {
    if evs == [] then [] else ErrorAt(provider, evs[0]) + ErrorsOf(provider, evs[1..])
  }

  predicate PassesThrough(ev: MarketEvent) {
    Accountable(ev) || ev.control.SubscriptionChanged?
  }

  function PassThrough(evs: seq<MarketEvent>): seq<MarketEvent> {
    if evs == [] then []
    else (if PassesThrough(evs[0]) then [evs[0]] else []) + PassThrough(evs[1..])
  }

  /** Adjacent repeats removed, given the element before the first. */
  function Dedup<T(==)>(before: Option<T>, xs: seq<T>): seq<T>
    decreases |xs|
  {
    if xs == [] then []
    else if before == Some(xs[0]) then Dedup(before, xs[1..])
    else [xs[0]] + Dedup(Some(xs[0]), xs[1..])
  }

  function Lookup<V>(m: map<string, V>, k: string): Option<V> {
    if k in m then Some(m[k]) else None
  }

  // ---------------------------------------------------------------- theorems

  /** The forwarded stream, one merged event at a time. */
  lemma ForwardedHead(p: string, seen: Seen, merged: seq<MarketEvent>)
    requires merged != []
    ensures var v := Admit(seen, merged[0]); var rest := Forwarded(v.seen, merged[1..]);
      && ConnOf(p, Forwarded(seen, merged)) == (if v.forward then ConnAt(p, merged[0]) else []) + ConnOf(p, rest)
      && ErrorsOf(p, Forwarded(seen, merged)) == (if v.forward then ErrorAt(p, merged[0]) else []) + ErrorsOf(p, rest)
      && PassThrough(Forwarded(seen, merged))
           == (if v.forward && PassesThrough(merged[0]) then [merged[0]] else []) + PassThrough(rest)
  {
    var v := Admit(seen, merged[0]);
    var rest := Forwarded(v.seen, merged[1..]);
    if v.forward {
      assert ([merged[0]] + rest)[1..] == rest;
    } else {
      assert Forwarded(seen, merged) == [] + rest == rest;
    }
  }

  /** `before` then at most one more element. */
  lemma DedupStep<T>(before: Option<T>, c: seq<T>, after: Option<T>, forward: bool, xs: seq<T>)
    requires |c| <= 1
    requires c == [] ==> after == before
    requires c != [] ==> after == Some(c[0]) && (forward <==> before != Some(c[0]))
    ensures (if forward then c else []) + Dedup(after, xs) == Dedup(before, c + xs)
  {
    if c == [] {
      assert c + xs == xs;
    } else {
      assert (c + xs)[1..] == xs && c == [c[0]];
    }
  }

  lemma AdmitConn(p: string, seen: Seen, ev: MarketEvent)
    ensures var v, c := Admit(seen, ev), ConnAt(p, ev);
      && |c| <= 1
      && (c == [] ==> Lookup(v.seen.conn, p) == Lookup(seen.conn, p))
      && (c != [] ==> Lookup(v.seen.conn, p) == Some(c[0]) && (v.forward <==> Lookup(seen.conn, p) != Some(c[0])))
  {
  }

  lemma AdmitError(p: string, seen: Seen, ev: MarketEvent)
    ensures var v, c := Admit(seen, ev), ErrorAt(p, ev);
      && |c| <= 1
      && (c == [] ==> Lookup(v.seen.errors, p) == Lookup(seen.errors, p))
      && (c != [] ==> Lookup(v.seen.errors, p) == Some(c[0]) && (v.forward <==> Lookup(seen.errors, p) != Some(c[0])))
  {
  }

  /** Whatever the interleaving, the connect/disconnect controls a client is
      given for each provider are the merged ones with adjacent repeats removed. */
  lemma {:induction false} ConnectionControlsAreDeduplicated(p: string, seen: Seen, merged: seq<MarketEvent>)
    ensures ConnOf(p, Forwarded(seen, merged)) == Dedup(Lookup(seen.conn, p), ConnOf(p, merged))
    decreases |merged|
  {
    if merged != [] {
      var v := Admit(seen, merged[0]);
      ForwardedHead(p, seen, merged);
      ConnectionControlsAreDeduplicated(p, v.seen, merged[1..]);
      AdmitConn(p, seen, merged[0]);
      DedupStep(Lookup(seen.conn, p), ConnAt(p, merged[0]), Lookup(v.seen.conn, p), v.forward, ConnOf(p, merged[1..]));
    }
  }

  /** Likewise for each provider's error texts. */
  lemma {:induction false} ErrorsAreDeduplicated(p: string, seen: Seen, merged: seq<MarketEvent>)
    ensures ErrorsOf(p, Forwarded(seen, merged)) == Dedup(Lookup(seen.errors, p), ErrorsOf(p, merged))
    decreases |merged|
  {
    if merged != [] {
      var v := Admit(seen, merged[0]);
      ForwardedHead(p, seen, merged);
      ErrorsAreDeduplicated(p, v.seen, merged[1..]);
      AdmitError(p, seen, merged[0]);
      DedupStep(Lookup(seen.errors, p), ErrorAt(p, merged[0]), Lookup(v.seen.errors, p), v.forward,
                ErrorsOf(p, merged[1..]));
    }
  }

  /** Data, `Gap` and `SubscriptionChanged` events pass unchanged, in order. */
  lemma {:induction false} EverythingElsePassesUnchanged(seen: Seen, merged: seq<MarketEvent>)
    ensures PassThrough(Forwarded(seen, merged)) == PassThrough(merged)
    decreases |merged|
  {
    if merged != [] {
      ForwardedHead("", seen, merged);
      EverythingElsePassesUnchanged(Admit(seen, merged[0]).seen, merged[1..]);
    }
  }

  lemma {:induction false} DedupHasNoRepeats<T>(before: Option<T>, xs: seq<T>)
    ensures var d := Dedup(before, xs);
      && (d != [] ==> before != Some(d[0]))
      && (forall n | 0 <= n < |d| - 1 :: d[n] != d[n + 1])
    decreases |xs|
  {
    if xs != [] {
      if before == Some(xs[0]) {
        DedupHasNoRepeats(before, xs[1..]);
      } else {
        DedupHasNoRepeats(Some(xs[0]), xs[1..]);
      }
    }
  }

  /** A client sees each provider's connects and disconnects alternate. */
  lemma ConnectionControlsAlternate(p: string, merged: seq<MarketEvent>, n: nat)
    requires n + 1 < |ConnOf(p, Forwarded(NothingSeen, merged))|
    ensures var c := ConnOf(p, Forwarded(NothingSeen, merged)); c[n] != c[n + 1]
  {
    ConnectionControlsAreDeduplicated(p, NothingSeen, merged);
    DedupHasNoRepeats<ConnState>(None, ConnOf(p, merged));
  }

  /** `a` is `b` with some elements left out. */
  predicate PartOf<T(==)>(a: seq<T>, b: seq<T>) {
    if a == [] then true
    else if b == [] then false
    else (a[0] == b[0] && PartOf(a[1..], b[1..])) || PartOf(a, b[1..])
  }

  /** The client is given merged events verbatim and in order, and never a
      substream's own `SessionClosing`. */
  lemma {:induction false} ForwardedIsPartOfTheMerge(seen: Seen, merged: seq<MarketEvent>)
    ensures PartOf(Forwarded(seen, merged), merged)
    ensures forall ev | ev in Forwarded(seen, merged) :: !(ev.Control? && ev.control.SessionClosing?)
    decreases |merged|
  {
    if merged != [] {
      var v := Admit(seen, merged[0]);
      var rest := Forwarded(v.seen, merged[1..]);
      ForwardedIsPartOfTheMerge(v.seen, merged[1..]);
      if v.forward {
        assert ([merged[0]] + rest)[1..] == rest;
      } else {
        assert Forwarded(seen, merged) == [] + rest == rest;
      }
    }
  }
}
