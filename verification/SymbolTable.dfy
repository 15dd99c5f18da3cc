/** Sink-local symbol interning, and the tuple encoding announcements carry. */
module SymbolTables {
  import opened Events
  import opened Text

  /** ASCII unit separator. */
  const SEP: char := '\U{1F}'

  const CAPACITY: nat := 64

  type SymbolId = nat

  /** `u32::MAX`, reserved for connection-scoped controls. */
  const CONNECTION: SymbolId := 0xFFFF_FFFF

  // ---------------------------------------------------------------- encoding

  function AssetName(a: AssetClass): string {
    match a
    case Equity => "equity"
    case Etf => "etf"
    case Crypto => "crypto"
  }

  function ParseAssetClass(s: string): Option<AssetClass> {
    if s == "equity" then Some(Equity)
    else if s == "etf" then Some(Etf)
    else if s == "crypto" then Some(Crypto)
    else None
  }

  function Encode(i: Instrument): string {
    i.provider + [SEP] + AssetName(i.assetClass) + [SEP] + i.symbol
  }

  /** Encoded length in UTF-8 bytes. */
  function ByteLen(s: string): nat {
    if s == "" then 0 else ByteLen(s[1..]) + CharLen(s[0])
  }

  function CharLen(c: char): nat {
    if c < '\U{80}' then 1 else if c < '\U{800}' then 2 else if c < '\U{10000}' then 3 else 4
  }

  datatype Decoded = Ok(instrument: Instrument) | MalformedTuple | UnknownAssetClass

  function Decode(s: string): Decoded {
    var parts := Split(s, SEP);
    if |parts| != 3 then MalformedTuple
    else
      match ParseAssetClass(parts[1])
      case None => UnknownAssetClass
      case Some(a) => Ok(Instrument(parts[0], a, parts[2]))
  }

  lemma NoSeparatorInAssetName(a: AssetClass)
    ensures SEP !in AssetName(a) && Occurrences(AssetName(a), SEP) == 0
  {
    SplitCounts(AssetName(a), SEP);
  }

  /** The tuple on the wire: provider, asset class, symbol. */
  lemma TupleOnTheWire(i: Instrument)
    requires SEP !in i.provider && SEP !in i.symbol
    ensures Split(Encode(i), SEP) ==
      [i.provider, match i.assetClass case Equity => "equity" case Etf => "etf" case Crypto => "crypto", i.symbol]
  {
    var name := AssetName(i.assetClass);
    NoSeparatorInAssetName(i.assetClass);
    assert Encode(i) == i.provider + [SEP] + (name + [SEP] + i.symbol);
    SplitField(i.provider, name + [SEP] + i.symbol, SEP);
    SplitField(name, i.symbol, SEP);
    SplitCounts(i.symbol, SEP);
  }

  /** The tuple encoding round-trips exactly when neither free-text field
      contains the separator; otherwise the decoder rejects the tuple. */
  lemma DecodeInvertsEncodeIffNoSeparator(i: Instrument)
    ensures Decode(Encode(i)) == Ok(i) <==> SEP !in i.provider && SEP !in i.symbol
    ensures Decode(Encode(i)) != Ok(i) ==> Decode(Encode(i)) == MalformedTuple
  {
    var name := AssetName(i.assetClass);
    NoSeparatorInAssetName(i.assetClass);
    var tail := name + [SEP] + i.symbol;
    assert Encode(i) == i.provider + [SEP] + tail;
    if SEP !in i.provider && SEP !in i.symbol {
      SplitField(i.provider, tail, SEP);
      SplitField(name, i.symbol, SEP);
      SplitCounts(i.symbol, SEP);
    } else {
      SplitCounts(i.provider, SEP);
      SplitCounts(i.symbol, SEP);
      OccurrencesConcat(i.provider + [SEP], tail, SEP);
      OccurrencesConcat(i.provider, [SEP], SEP);
      OccurrencesConcat(name + [SEP], i.symbol, SEP);
      OccurrencesConcat(name, [SEP], SEP);
      assert Occurrences([SEP], SEP) == 1;
      SplitCounts(Encode(i), SEP);
    }
  }

  // --------------------------------------------------------------- interning

  datatype Table = Table(forward: map<Instrument, SymbolId>, reverse: seq<Instrument>)

  datatype Interned = Known(table: Table, id: SymbolId) | TooLong(encodedLen: nat) | SpaceExhausted

  function Intern(t: Table, i: Instrument): Interned {
    if i in t.forward then Known(t, t.forward[i])
    else if ByteLen(Encode(i)) > CAPACITY then TooLong(ByteLen(Encode(i)))
    else if |t.reverse| >= CONNECTION then SpaceExhausted
    else Known(Table(t.forward[i := |t.reverse|], t.reverse + [i]), |t.reverse|)
  }

  /** Ids are dense, injective and never the reserved one. */
  predicate Dense(t: Table) {
    && |t.reverse| <= CONNECTION
    && (forall i | i in t.forward :: t.forward[i] < |t.reverse| && t.reverse[t.forward[i]] == i)
    && (forall n | 0 <= n < |t.reverse| :: t.reverse[n] in t.forward && t.forward[t.reverse[n]] == n)
  }

  /** Interning keeps ids dense and never reassigns one. */
  lemma InternKeepsDense(t: Table, i: Instrument)
    requires Dense(t) && Intern(t, i).Known?
    ensures var r := Intern(t, i);
      && Dense(r.table) && t.reverse <= r.table.reverse
      && r.id < |r.table.reverse| && r.id != CONNECTION && r.table.reverse[r.id] == i
  {
  }

  /** An instrument is interned if and only if it already is, or its tuple fits
      the wire and an id below the reserved one is left; a new one gets the next
      id, and nothing else changes. */
  lemma InternsIffItFits(t: Table, i: Instrument)
    requires Dense(t)
    ensures Intern(t, i).Known? <==> i in t.reverse || (ByteLen(Encode(i)) <= CAPACITY && |t.reverse| < CONNECTION)
    ensures Intern(t, i).TooLong? <==> i !in t.reverse && ByteLen(Encode(i)) > CAPACITY
    ensures Intern(t, i).Known? ==>
      Intern(t, i).table.reverse == if i in t.reverse then t.reverse else t.reverse + [i]
  {
    assert i in t.reverse <==> i in t.forward;
  }

  datatype Announcement = Announcement(id: SymbolId, text: string)

  /** `accepts` is what the fixed-capacity string type takes; it is not part of
      this model, so everything is stated for every such predicate. */
  function Announce(t: Table, id: SymbolId, accepts: string -> bool): Option<Announcement> {
    if id < |t.reverse| && accepts(Encode(t.reverse[id])) then Some(Announcement(id, Encode(t.reverse[id]))) else None
  }

  class SymbolTable {
    var forward: map<Instrument, SymbolId>
    var reverse: seq<Instrument>

    function State(): Table
      reads this
    {
      Table(forward, reverse)
    }

    constructor ()
      ensures State() == Table(map[], [])
    {
      forward, reverse := map[], [];
    }

    method InternInstrument(i: Instrument) returns (r: Interned)
      modifies this
      ensures r == Intern(old(State()), i)
      ensures State() == if r.Known? then r.table else old(State())
    {
      if i in forward {
        return Known(Table(forward, reverse), forward[i]);
      }
      var len := ByteLen(Encode(i));
      if len > CAPACITY {
        return TooLong(len);
      }
      if |reverse| >= CONNECTION {
        return SpaceExhausted;
      }
      var id := |reverse|;
      forward := forward[i := id];
      reverse := reverse + [i];
      r := Known(Table(forward, reverse), id);
    }
  }

  // --------------------------------------------------------------- resolving

  type Resolver = map<SymbolId, Instrument>

  /** Upsert a well-formed announcement; a malformed one changes nothing. */
  function Resolve(r: Resolver, a: Announcement): Resolver {
    match Decode(a.text)
    case Ok(i) => r[a.id := i]
    case _ => r
  }

  /** Every entry is what the table interned under that id. */
  predicate Agrees(r: Resolver, t: Table) {
    forall id | id in r :: id < |t.reverse| && r[id] == t.reverse[id]
  }

  /** Applying any announcement the table makes keeps the resolver agreeing with
      the table, now and after any further interning. */
  lemma ResolverAgreesWithTable(r: Resolver, t: Table, a: Announcement, accepts: string -> bool, t': Table)
    requires Agrees(r, t) && Announce(t, a.id, accepts) == Some(a) && t.reverse <= t'.reverse
    ensures Agrees(Resolve(r, a), t) && Agrees(Resolve(r, a), t') && r.Keys <= Resolve(r, a).Keys
    ensures SEP !in t.reverse[a.id].provider && SEP !in t.reverse[a.id].symbol ==> a.id in Resolve(r, a)
  {
    DecodeInvertsEncodeIffNoSeparator(t.reverse[a.id]);
  }
}
