/** Service names of the shared-memory transport: a daemon's prefix, the names
    derived from it, and the parser of an advertised name. A text is its
    sequence of bytes. */
module Naming {
  import opened Events
  import opened Text

  const DATA: string := "/v3/data/"
  const SYMBOLS: string := "/v3/symbols/"
  const RESERVED: string := "iox2_"

  predicate StartsWith(s: string, p: string) {
    |p| <= |s| && s[..|p|] == p
  }

  /** What the transport runtime accepts; `limit` is its longest name. */
  predicate ValidServiceName(s: string, limit: nat) {
    s != "" && |s| <= limit && !StartsWith(s, RESERVED)
  }

  function DataName(prefix: string, client: nat): string {
    prefix + DATA + Decimal(client)
  }

  function AnnouncementName(prefix: string, client: nat): string {
    prefix + SYMBOLS + Decimal(client)
  }

  /** The one check a prefix gets: its longest name is valid. */
  predicate AcceptedPrefix(prefix: string, limit: nat) {
    prefix != "" && ValidServiceName(AnnouncementName(prefix, U64_MAX), limit)
  }

  function ScopedText(prefix: string, secs: nat, pid: nat): string {
    prefix + "/" + Decimal(secs) + "-" + Decimal(pid)
  }

  /** Scope a prefix to one process; refused when it no longer fits. */
  function BootScoped(prefix: string, secs: nat, pid: nat, limit: nat): Option<string> {
    if AcceptedPrefix(ScopedText(prefix, secs, pid), limit) then Some(ScopedText(prefix, secs, pid)) else None
  }

  datatype DataServiceName = DataServiceName(prefix: string, client: nat)

  predicate WellFormed(n: DataServiceName, limit: nat) {
    AcceptedPrefix(n.prefix, limit) && n.client <= U64_MAX
  }

  function Print(n: DataServiceName): string {
    DataName(n.prefix, n.client)
  }

  predicate MarkerAt(s: string, n: nat) {
    n + |DATA| <= |s| && s[n..n + |DATA|] == DATA
  }

  /** The last marker at or before `n`. */
  function LastMarkerUpTo(s: string, n: nat): (at: Option<nat>)
    ensures at.Some? ==> MarkerAt(s, at.value)
  {
    if MarkerAt(s, n) then Some(n)
    else if n == 0 then None
    else LastMarkerUpTo(s, n - 1)
  }

  function Parse(s: string, limit: nat): Option<DataServiceName> {
    match LastMarkerUpTo(s, |s|)
    case None => None
    case Some(at) =>
      var id := s[at + |DATA|..];
      if id == "" || !Digits(id) || Value(id) > U64_MAX || !AcceptedPrefix(s[..at], limit) then None
      else Some(DataServiceName(s[..at], Value(id)))
  }

  // ---------------------------------------------------------------- the marker

  lemma {:induction false} LastMarkerFound(s: string, n: nat, at: nat)
    requires at <= n && MarkerAt(s, at)
    requires forall k | at < k <= n :: !MarkerAt(s, k)
    ensures LastMarkerUpTo(s, n) == Some(at)
    decreases n
  {
    if n > at {
      LastMarkerFound(s, n - 1, at);
    }
  }

  /** Whatever the prefix holds, no marker starts later than the real one: a
      marker ends in a slash, and only digits follow. */
  lemma NoLaterMarker(prefix: string, id: string, k: nat)
    requires Digits(id) && k > |prefix|
    ensures !MarkerAt(prefix + DATA + id, k)
  {
    var s := prefix + DATA + id;
    if k + |DATA| <= |s| {
      assert s[k + 8] == id[k - |prefix| - 1];
      assert s[k..k + 9][8] != '/';
    }
  }

  lemma MarkerIsAfterPrefix(prefix: string, id: string)
    requires Digits(id)
    ensures var s := prefix + DATA + id;
      LastMarkerUpTo(s, |s|) == Some(|prefix|)
      && s[..|prefix|] == prefix && s[|prefix| + |DATA|..] == id
  {
    var s := prefix + DATA + id;
    assert MarkerAt(s, |prefix|);
    forall k | |prefix| < k <= |s| ensures !MarkerAt(s, k) {
      NoLaterMarker(prefix, id, k);
    }
    LastMarkerFound(s, |s|, |prefix|);
  }

  // --------------------------------------------------------------- round trips

  /** A text parses exactly when it is an accepted prefix, the marker and an
      in-range numeral, and then it names them: for every way of cutting it so. */
  lemma ParsesLayout(prefix: string, id: string, limit: nat)
    requires id != "" && Digits(id)
    ensures Parse(prefix + DATA + id, limit) ==
      if AcceptedPrefix(prefix, limit) && Value(id) <= U64_MAX then Some(DataServiceName(prefix, Value(id))) else None
  {
    MarkerIsAfterPrefix(prefix, id);
  }

  /** Printing then parsing is the identity, even when the prefix itself
      contains the marker; and only a well-formed name survives. */
  lemma ParseInvertsPrint(n: DataServiceName, limit: nat)
    ensures Parse(Print(n), limit) == if WellFormed(n, limit) then Some(n) else None
  {
    DecimalValue(n.client);
    ParsesLayout(n.prefix, Decimal(n.client), limit);
  }

  lemma CutAround(s: string, m: string, at: nat)
    requires at + |m| <= |s| && s[at..at + |m|] == m
    ensures s == s[..at] + m + s[at + |m|..]
  {
  }

  lemma ParsedIsLayout(s: string, limit: nat) returns (id: string)
    requires Parse(s, limit).Some?
    ensures WellFormed(Parse(s, limit).value, limit)
    ensures id != "" && Digits(id) && Value(id) == Parse(s, limit).value.client
    ensures s == Parse(s, limit).value.prefix + DATA + id
  {
    var at := LastMarkerUpTo(s, |s|).value;
    id := s[at + |DATA|..];
    CutAround(s, DATA, at);
  }

  /** Parsing then printing gives the text back up to leading zeros of the id. */
  lemma PrintInvertsParseUpToZeros(s: string, limit: nat) returns (zeros: nat)
    requires Parse(s, limit).Some?
    ensures var n := Parse(s, limit).value;
      WellFormed(n, limit)
      && Print(n) == n.prefix + DATA + Decimal(n.client)
      && s == n.prefix + DATA + (Zeros(zeros) + Decimal(n.client))
    ensures Print(Parse(s, limit).value) == s <==> zeros == 0
  {
    var id := ParsedIsLayout(s, limit);
    zeros := NumeralIsZerosThenDecimal(id);
    var n := Parse(s, limit).value;
    assert |s| == |Print(n)| + zeros;
    if zeros == 0 {
      assert Zeros(0) + Decimal(n.client) == Decimal(n.client);
    }
  }

  // ------------------------------------------------------------------ validity

  lemma SlashIsNotReserved(prefix: string, tail: string)
    requires tail != "" && tail[0] == '/' && |prefix| < |RESERVED|
    ensures !StartsWith(prefix + tail, RESERVED)
  {
    var s := prefix + tail;
    assert RESERVED[|prefix|] != '/';
    if |s| >= 5 {
      assert s[..5][|prefix|] == '/';
    }
  }

  /** A prefix followed by a slash meets the reserved namespace only by itself. */
  lemma ReservedDependsOnPrefix(prefix: string, tail: string, tail': string)
    requires tail != "" && tail' != "" && tail[0] == '/' && tail'[0] == '/'
    ensures StartsWith(prefix + tail, RESERVED) <==> StartsWith(prefix + tail', RESERVED)
  {
    if |prefix| < |RESERVED| {
      SlashIsNotReserved(prefix, tail);
      SlashIsNotReserved(prefix, tail');
    } else {
      assert (prefix + tail)[..5] == prefix[..5] == (prefix + tail')[..5];
    }
  }

  lemma ShorterTailIsValid(prefix: string, longest: string, tail: string, limit: nat)
    requires ValidServiceName(prefix + longest, limit)
    requires tail != "" && longest != "" && tail[0] == '/' && longest[0] == '/' && |tail| <= |longest|
    ensures ValidServiceName(prefix + tail, limit)
  {
    ReservedDependsOnPrefix(prefix, longest, tail);
  }

  lemma NamesUpTo(prefix: string, client: nat, max: nat, limit: nat)
    requires ValidServiceName(AnnouncementName(prefix, max), limit) && client <= max
    ensures ValidServiceName(DataName(prefix, client), limit)
    ensures ValidServiceName(AnnouncementName(prefix, client), limit)
  {
    DecimalLength(client, max);
    ConcatAssoc(prefix, SYMBOLS, Decimal(max));
    ConcatAssoc(prefix, SYMBOLS, Decimal(client));
    ConcatAssoc(prefix, DATA, Decimal(client));
    ShorterTailIsValid(prefix, SYMBOLS + Decimal(max), DATA + Decimal(client), limit);
    ShorterTailIsValid(prefix, SYMBOLS + Decimal(max), SYMBOLS + Decimal(client), limit);
  }

  /** Both names of every client under an accepted prefix are valid. */
  lemma DerivedNamesAreValid(prefix: string, client: nat, limit: nat)
    requires AcceptedPrefix(prefix, limit) && client <= U64_MAX
    ensures ValidServiceName(DataName(prefix, client), limit)
    ensures ValidServiceName(AnnouncementName(prefix, client), limit)
  {
    NamesUpTo(prefix, client, U64_MAX, limit);
  }

  /** What a daemon advertises under a boot-scoped prefix it was granted, a
      consumer parses back, and both services can be created. */
  lemma AdvertisedNameIsUsable(prefix: string, secs: nat, pid: nat, client: nat, limit: nat)
    requires BootScoped(prefix, secs, pid, limit).Some? && client <= U64_MAX
    ensures var scoped := BootScoped(prefix, secs, pid, limit).value;
      && ValidServiceName(DataName(scoped, client), limit) && ValidServiceName(AnnouncementName(scoped, client), limit)
      && Parse(DataName(scoped, client), limit) == Some(DataServiceName(scoped, client))
  {
    var scoped := BootScoped(prefix, secs, pid, limit).value;
    DerivedNamesAreValid(scoped, client, limit);
    ParseInvertsPrint(DataServiceName(scoped, client), limit);
  }

  ghost predicate AllNamesValid(prefix: string, limit: nat) {
    forall client: nat | client <= U64_MAX ::
      ValidServiceName(DataName(prefix, client), limit) && ValidServiceName(AnnouncementName(prefix, client), limit)
  }

  /** The one check is also the least: it accepts exactly the non-empty prefixes
      all of whose names are valid. */
  lemma AcceptedIffAllNamesValid(prefix: string, limit: nat)
    ensures AcceptedPrefix(prefix, limit) <==> prefix != "" && AllNamesValid(prefix, limit)
  {
    if AcceptedPrefix(prefix, limit) {
      forall client: nat | client <= U64_MAX
        ensures ValidServiceName(DataName(prefix, client), limit) && ValidServiceName(AnnouncementName(prefix, client), limit)
      {
        DerivedNamesAreValid(prefix, client, limit);
      }
    } else if prefix != "" {
      assert !ValidServiceName(AnnouncementName(prefix, U64_MAX), limit);
    }
  }

  // --------------------------------------------------------------- collisions

  lemma DecimalHasNo(n: nat, c: char)
    requires !IsDigit(c)
    ensures c !in Decimal(n)
  {
  }

  /** Boot scoping is injective in the prefix, the start time and the process. */
  lemma BootScopingIsInjective(p: string, secs: nat, pid: nat, p': string, secs': nat, pid': nat)
    requires ScopedText(p, secs, pid) == ScopedText(p', secs', pid')
    ensures p == p' && secs == secs' && pid == pid'
  {
    DecimalHasNo(pid, '-');
    DecimalHasNo(pid', '-');
    LastCutIsUnique(p + "/" + Decimal(secs), Decimal(pid), p' + "/" + Decimal(secs'), Decimal(pid'), '-');
    DecimalHasNo(secs, '/');
    DecimalHasNo(secs', '/');
    LastCutIsUnique(p, Decimal(secs), p', Decimal(secs'), '/');
    DecimalInjective(pid, pid');
    DecimalInjective(secs, secs');
  }

  /** Names of the same client slot under two processes, or of two clients under
      one, never meet: the data name determines all four coordinates. */
  lemma DataNamesNeverCollide(p: string, secs: nat, pid: nat, c: nat, p': string, secs': nat, pid': nat, c': nat)
    requires DataName(ScopedText(p, secs, pid), c) == DataName(ScopedText(p', secs', pid'), c')
    ensures p == p' && secs == secs' && pid == pid' && c == c'
  {
    var a, b := ScopedText(p, secs, pid), ScopedText(p', secs', pid');
    MarkerIsAfterPrefix(a, Decimal(c));
    MarkerIsAfterPrefix(b, Decimal(c'));
    assert a == b;
    BootScopingIsInjective(p, secs, pid, p', secs', pid');
    DecimalInjective(c, c');
  }

  lemma CutAtLastSlash(prefix: string, id: nat)
    ensures DataName(prefix, id) == (prefix + "/v3/data") + ['/'] + Decimal(id)
    ensures AnnouncementName(prefix, id) == (prefix + "/v3/symbols") + ['/'] + Decimal(id)
    ensures '/' !in Decimal(id)
  {
    DecimalHasNo(id, '/');
  }

  /** No client's data service is any client's announcement service. */
  lemma DataNameIsNoAnnouncementName(p: string, c: nat, p': string, c': nat)
    ensures DataName(p, c) != AnnouncementName(p', c')
  {
    CutAtLastSlash(p, c);
    CutAtLastSlash(p', c');
    var a, b := p + "/v3/data", p' + "/v3/symbols";
    assert a[|a| - 1] == 'a' && b[|b| - 1] == 's';
    if DataName(p, c) == AnnouncementName(p', c') {
      LastCutIsUnique(a, Decimal(c), b, Decimal(c'), '/');
    }
  }

  /** The name another wire version would print. */
  function VersionedName(prefix: string, version: nat, id: nat): string {
    (((prefix + "/") + ("v" + Decimal(version))) + "/" + "data") + "/" + Decimal(id)
  }

  /** A data name of another wire version does not parse, even if its prefix
      mentions this version's marker. */
  lemma OtherVersionsAreRefused(prefix: string, version: nat, id: nat, limit: nat)
    requires version != 3
    ensures Parse(VersionedName(prefix, version, id), limit).None?
  {
    var s := VersionedName(prefix, version, id);
    if Parse(s, limit).Some? {
      var numeral := ParsedIsLayout(s, limit);
      var p := Parse(s, limit).value.prefix;
      SameVersion(prefix, version, id, p, numeral);
    }
  }

  lemma SameVersion(prefix: string, version: nat, id: nat, p: string, numeral: string)
    requires Digits(numeral) && VersionedName(prefix, version, id) == p + DATA + numeral
    ensures version == 3
  {
    DecimalHasNo(id, '/');
    DecimalHasNo(version, '/');
    var v := "v" + Decimal(version);
    assert p + DATA + numeral == ((p + "/" + "v3") + "/" + "data") + "/" + numeral;
    LastCutIsUnique(((prefix + "/") + v) + "/" + "data", Decimal(id), (p + "/" + "v3") + "/" + "data", numeral, '/');
    LastCutIsUnique((prefix + "/") + v, "data", p + "/" + "v3", "data", '/');
    LastCutIsUnique(prefix, v, p, "v3", '/');
    assert Decimal(version) == v[1..] == "3";
    assert Decimal(3) == "3";
    DecimalInjective(version, 3);
  }
}
