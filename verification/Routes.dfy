/**
 Canonical route destinations and the identity check of a route inventory
 (crates/nexus-discovery/src/routes.rs). How an address is written is a parameter
 that is only assumed to read back what it writes.
 */
module Routes {
  import opened Common
  import opened Prefixes

  const MAX_ROUTES: nat := 128

  /** Reading and writing of addresses. */
  datatype AddressText = AddressText(parse: string -> Option<Ip>, show: Ip -> string)

  ghost predicate Faithful(t: AddressText) {
    && (forall ip :: InRange(ip) ==>
          t.parse(t.show(ip)) == Some(ip) && '/' !in t.show(ip) && |t.show(ip)| <= 64)
    && (forall v :: t.parse(v).Some? ==> InRange(t.parse(v).value))
  }

  // ----- Decimal prefix lengths -----

  function Digit(d: nat): char
    requires d < 10
  {
    "0123456789"[d]
  }

  predicate IsDigit(c: char) {
    '0' <= c <= '9'
  }

  function Decimal(n: nat): string {
    if n < 10 then [Digit(n)] else Decimal(n / 10) + [Digit(n % 10)]
  }

  predicate AllDigits(s: string) {
    forall i :: 0 <= i < |s| ==> IsDigit(s[i])
  }

  function Number(s: string): nat
    requires AllDigits(s)
  {
    if s == [] then 0 else 10 * Number(s[..|s| - 1]) + (s[|s| - 1] as int - '0' as int)
  }

  lemma {:induction false} DecimalReadsBack(n: nat)
    ensures Decimal(n) != [] && AllDigits(Decimal(n)) && Number(Decimal(n)) == n
    ensures n < 1000 ==> |Decimal(n)| <= 3
  {
    if n >= 10 {
      DecimalReadsBack(n / 10);
      assert Decimal(n)[..|Decimal(n)| - 1] == Decimal(n / 10);
      if n < 1000 { assert n / 10 / 10 < 10; }
    }
  }

  // ----- Destinations -----

  /** The part before the first slash and the part after it. */
  function SplitOnce(v: string): Option<(string, string)> {
    if v == [] then None
    else if v[0] == '/' then Some(([], v[1..]))
    else
      match SplitOnce(v[1..])
      case None => None
      case Some(parts) => Some(([v[0]] + parts.0, parts.1))
  }

  lemma {:induction false} SplitJoined(a: string, b: string)
    requires '/' !in a
    ensures SplitOnce(a + "/" + b) == Some((a, b))
  {
    var v := a + "/" + b;
    if a == [] {
      assert v[1..] == b;
    } else {
      SplitJoined(a[1..], b);
      assert v[1..] == a[1..] + "/" + b;
      assert [a[0]] + a[1..] == a;
    }
  }

  function Address(t: AddressText, v: string, f: Family): Option<Ip> {
    if |v| > 64 then None
    else
      match t.parse(v)
      case None => None
      case Some(ip) => if ip.family == f then Some(ip) else None
  }

  /** An address and the number of its leading bits that count. */
  datatype Prefix = Prefix(bits: nat, length: nat)

  /** The prefix a destination is written as, aligned or not. */
  function ReadPrefix(t: AddressText, v: string, f: Family): Option<Prefix> {
    if v == "default" then Some(Prefix(0, 0))
    else if |v| > 68 then None
    else
      match SplitOnce(v)
      case None =>
        (match Address(t, v, f)
         case None => None
         case Some(ip) => Some(Prefix(ip.bits, Width(f))))
      case Some((raw, length)) =>
        if length == [] || !AllDigits(length) || Number(length) > 0xffff_ffff || Number(length) > Width(f) then None
        else
          match Address(t, raw, f)
          case None => None
          case Some(ip) => Some(Prefix(ip.bits, Number(length)))
  }

  lemma PowerFits(k: nat)
    requires k < 128
    ensures ShiftLeft(1, k) == Pow2(k)
  {
    hide Pow2;
    Pow2Grows(k, 128);
    SmallRemainder(Pow2(k), WORD);
  }

  /** The bits that are not part of the prefix; no shift reaches the word size. */
  function HostMask(width: nat, length: nat): nat
    requires length <= width <= 128
  {
    if width - length == 128 then WORD - 1
    else
      PowerFits(width - length);
      ShiftLeft(1, width - length) - 1
  }

  function Destination(t: AddressText, v: string, f: Family): Result<string> {
    if v == "default" then Ok(v)
    else
      match ReadPrefix(t, v, f)
      case None => Err(Discovery)
      case Some(p) =>
        if And(p.bits, HostMask(Width(f), p.length)) != 0 then Err(Discovery)
        else Ok(Canonical(t, f, p))
  }

  function Canonical(t: AddressText, f: Family, p: Prefix): string {
    if p.length == 0 then "default" else t.show(Ip(f, p.bits)) + "/" + Decimal(p.length)
  }

  /** How many addresses a prefix of this length covers. */
  function Span(f: Family, p: Prefix): (r: nat)
    requires p.length <= Width(f)
    ensures r > 0
  {
    Pow2(Width(f) - p.length)
  }

  ghost predicate Fits(f: Family, p: Prefix) {
    p.length <= Width(f) && p.bits < Pow2(Width(f))
  }

  ghost predicate Aligned(f: Family, p: Prefix) {
    Fits(f, p) && p.bits % Span(f, p) == 0
  }

  /** Address `n` agrees with the prefix in the bits that count. */
  ghost predicate Covers(f: Family, p: Prefix, n: nat)
    requires p.length <= Width(f)
  {
    n < Pow2(Width(f)) && n / Span(f, p) == p.bits / Span(f, p)
  }

  lemma ReadPrefixFits(t: AddressText, v: string, f: Family)
    requires Faithful(t) && ReadPrefix(t, v, f).Some?
    ensures Fits(f, ReadPrefix(t, v, f).value)
  {
    hide Pow2;
    Pow2Grows(0, Width(f));
    Pow2Base();
  }

  lemma HostMaskIs(width: nat, length: nat)
    requires length <= width <= 128
    ensures HostMask(width, length) == Pow2(width - length) - 1
  {
    hide Pow2, ShiftLeft;
    if width - length < 128 { PowerFits(width - length); }
  }

  /** A destination is accepted exactly when it is a well-formed, aligned prefix. */
  lemma AcceptsExactly(t: AddressText, v: string, f: Family)
    requires Faithful(t)
    ensures Destination(t, v, f).Ok? <==> ReadPrefix(t, v, f).Some? && Aligned(f, ReadPrefix(t, v, f).value)
    ensures Destination(t, v, f).Ok? ==> Destination(t, v, f).value == Canonical(t, f, ReadPrefix(t, v, f).value)
  {
    hide Pow2, And, ReadPrefix, HostMask, Faithful;
    if v == "default" {
      DefaultIsAligned(t, f);
    } else if ReadPrefix(t, v, f).Some? {
      var p := ReadPrefix(t, v, f).value;
      ReadPrefixFits(t, v, f);
      HostMaskIs(Width(f), p.length);
      AndLowBits(p.bits, Width(f) - p.length);
    }
  }

  lemma DefaultIsAligned(t: AddressText, f: Family)
    ensures ReadPrefix(t, "default", f) == Some(Prefix(0, 0)) && Aligned(f, Prefix(0, 0))
  {
    hide Pow2;
  }

  /** The canonical form of an aligned prefix reads back as that prefix. */
  lemma CanonicalReadsBack(t: AddressText, f: Family, p: Prefix)
    requires Faithful(t) && Aligned(f, p)
    ensures ReadPrefix(t, Canonical(t, f, p), f) == Some(p)
  {
    hide Pow2, Decimal, Number;
    if p.length == 0 {
      SmallRemainder(p.bits, Span(f, p));
    } else {
      var ip := Ip(f, p.bits);
      assert InRange(ip) && t.parse(t.show(ip)) == Some(ip);
      SplitJoined(t.show(ip), Decimal(p.length));
      DecimalReadsBack(p.length);
      assert '/' in t.show(ip) + "/" + Decimal(p.length) && '/' !in "default";
    }
  }

  lemma {:induction false} NothingToSplit(v: string)
    ensures SplitOnce(v).None? <==> '/' !in v
    ensures SplitOnce(v).Some? ==> var (a, b) := SplitOnce(v).value; v == a + "/" + b && '/' !in a
  {
    if v != [] && v[0] != '/' {
      NothingToSplit(v[1..]);
      assert v == [v[0]] + v[1..];
    } else if v != [] {
      assert v == [] + "/" + v[1..];
    }
  }

  /** An address alone is a route to that one host. */
  lemma HostRoute(t: AddressText, v: string, f: Family, ip: Ip)
    requires Faithful(t) && Address(t, v, f) == Some(ip) && '/' !in v && v != "default"
    ensures Destination(t, v, f) == Ok(t.show(ip) + "/" + Decimal(Width(f)))
  {
    hide Pow2, Decimal, And, HostMask, Faithful;
    NothingToSplit(v);
    ReadPrefixFits(t, v, f);
    var p := Prefix(ip.bits, Width(f));
    assert ReadPrefix(t, v, f) == Some(p);
    WholeAddressIsAligned(f, p);
    AcceptsExactly(t, v, f);
  }

  lemma WholeAddressIsAligned(f: Family, p: Prefix)
    requires Fits(f, p) && p.length == Width(f)
    ensures Aligned(f, p)
  {
    Pow2Base();
  }

  /**
   An address with a length is a route to the addresses that share so many leading bits, and is accepted exactly
   if its remaining bits are zero; with length zero it is the default route.
   */
  lemma PrefixRoute(t: AddressText, raw: string, f: Family, ip: Ip, k: nat)
    requires Faithful(t) && Address(t, raw, f) == Some(ip) && '/' !in raw && k <= Width(f)
    ensures Destination(t, raw + "/" + Decimal(k), f) ==
      if ip.bits % Pow2(Width(f) - k) != 0 then Err(Discovery)
      else if k == 0 then Ok("default")
      else Ok(t.show(ip) + "/" + Decimal(k))
  {
    hide Pow2, Decimal, Number, And, HostMask, Faithful;
    var v := raw + "/" + Decimal(k);
    SplitJoined(raw, Decimal(k));
    DecimalReadsBack(k);
    assert '/' in v && '/' !in "default";
    assert ReadPrefix(t, v, f) == Some(Prefix(ip.bits, k));
    ReadPrefixFits(t, v, f);
    AcceptsExactly(t, v, f);
    RefusedIsDiscovery(t, v, f);
  }

  lemma RefusedIsDiscovery(t: AddressText, v: string, f: Family)
    ensures Destination(t, v, f).Err? ==> Destination(t, v, f) == Err(Discovery)
  {
    hide ReadPrefix, And, HostMask;
  }

  /** Nothing else is accepted. */
  lemma NothingElseIsARoute(t: AddressText, v: string, f: Family)
    requires Destination(t, v, f).Ok?
    ensures
      || v == "default"
      || ('/' !in v && Address(t, v, f).Some?)
      || exists raw, digits :: v == raw + "/" + digits && '/' !in raw && Address(t, raw, f).Some?
                               && digits != [] && AllDigits(digits) && Number(digits) <= Width(f)
  {
    hide And, HostMask, Number, AllDigits;
    NothingToSplit(v);
  }

  /** Canonical forms are accepted unchanged. */
  lemma Idempotent(t: AddressText, v: string, f: Family)
    requires Faithful(t) && Destination(t, v, f).Ok?
    ensures Destination(t, Destination(t, v, f).value, f) == Destination(t, v, f)
  {
    hide Destination, Canonical, ReadPrefix, Faithful;
    AcceptsExactly(t, v, f);
    var p := ReadPrefix(t, v, f).value;
    CanonicalReadsBack(t, f, p);
    AcceptsExactly(t, Canonical(t, f, p), f);
  }

  ghost predicate Within(n: nat, start: nat, span: nat) {
    start <= n < start + span
  }

  /** An aligned prefix covers an interval that lies within the address space. */
  lemma CoversInterval(f: Family, p: Prefix, n: nat)
    requires Aligned(f, p)
    ensures p.bits + Span(f, p) <= Pow2(Width(f))
    ensures Covers(f, p, n) <==> Within(n, p.bits, Span(f, p))
  {
    hide Pow2;
    var m, q := Span(f, p), p.bits / Span(f, p);
    Pow2Sum(p.length, Width(f) - p.length);
    ExactMultiple(p.bits, m);
    MultipleBelow(q, Pow2(p.length), m);
    QuotientInterval(n, m, q);
  }

  lemma ExactMultiple(a: nat, m: nat)
    requires m > 0 && a % m == 0
    ensures a == a / m * m
  {
  }

  lemma MultipleBelow(q: nat, r: nat, m: nat)
    requires q * m < r * m && m > 0
    ensures q * m + m <= r * m
  {
    Distribute(r, q, m);
    MultipleIsFar(m, r - q);
  }

  lemma QuotientInterval(n: nat, m: nat, q: nat)
    requires m > 0
    ensures n / m == q <==> Within(n, q * m, m)
  {
    if q * m <= n < q * m + m { RemainderIs(n, m, q, n - q * m); }
  }

  /** Different aligned prefixes cover different sets of addresses. */
  lemma SameAddresses(f: Family, p: Prefix, r: Prefix)
    requires Aligned(f, p) && Aligned(f, r)
    requires forall n: nat :: Covers(f, p, n) <==> Covers(f, r, n)
    ensures p == r
  {
    hide Pow2, Covers;
    forall n: nat
      ensures Within(n, p.bits, Span(f, p)) <==> Within(n, r.bits, Span(f, r))
    {
      CoversInterval(f, p, n);
      CoversInterval(f, r, n);
      assert Covers(f, p, n) <==> Covers(f, r, n);
    }
    SameInterval(p.bits, Span(f, p), r.bits, Span(f, r));
    if p.length < r.length { Pow2Grows(Width(f) - r.length, Width(f) - p.length); }
    if r.length < p.length { Pow2Grows(Width(f) - p.length, Width(f) - r.length); }
  }

  lemma SameInterval(a: nat, s: nat, b: nat, u: nat)
    requires s > 0 && u > 0
    requires forall n: nat :: Within(n, a, s) <==> Within(n, b, u)
    ensures a == b && s == u
  {
    assert Within(a, a, s) && Within(a + s - 1, a, s);
    assert Within(b, b, u) && Within(b + u - 1, b, u);
  }

  /** Two accepted destinations have the same canonical form exactly when they cover the same addresses. */
  lemma CanonicalExactly(t: AddressText, v: string, w: string, f: Family)
    requires Faithful(t) && Destination(t, v, f).Ok? && Destination(t, w, f).Ok?
    ensures ReadPrefix(t, v, f).Some? && ReadPrefix(t, w, f).Some?
    ensures Aligned(f, ReadPrefix(t, v, f).value) && Aligned(f, ReadPrefix(t, w, f).value)
    ensures Destination(t, v, f) == Destination(t, w, f) <==>
      forall n: nat :: Covers(f, ReadPrefix(t, v, f).value, n) <==> Covers(f, ReadPrefix(t, w, f).value, n)
  {
    hide Destination, Canonical, ReadPrefix, Faithful, Covers;
    AcceptsExactly(t, v, f);
    AcceptsExactly(t, w, f);
    var p, r := ReadPrefix(t, v, f).value, ReadPrefix(t, w, f).value;
    CanonicalReadsBack(t, f, p);
    CanonicalReadsBack(t, f, r);
    if forall n: nat :: Covers(f, p, n) <==> Covers(f, r, n) { SameAddresses(f, p, r); }
  }

  // ----- Route inventories -----

  datatype Label = Named(name: string) | Numbered(number: nat)

  /** A row of the inventory, as it was decoded. */
  datatype Row = Row(
    destination: string, interface: string, gateway: Option<string>, metric: Option<nat>, kind: Option<string>,
    protocol: Option<Label>, scope: Option<string>, source: Option<string>, table: Option<Label>,
    flags: seq<string>, preference: Option<string>)

  datatype Identity = Identity(destination: string, gateway: Option<string>, interface: string, metric: Option<nat>)

  /** Flags and preference describe a route; they are not part of its identity. */
  datatype Entry = Entry(identity: Identity, onLink: bool, linkDown: bool, preference: Option<string>)

  predicate IsTokenChar(c: char) {
    IsDigit(c) || 'a' <= c <= 'z' || 'A' <= c <= 'Z' || c in "_-.:@"
  }

  predicate IsToken(v: string, bound: nat) {
    0 < |v| <= bound && forall i :: 0 <= i < |v| ==> IsTokenChar(v[i])
  }

  predicate ProtocolOk(protocol: Label) {
    match protocol
    case Named(name) => IsToken(name, 32)
    case Numbered(number) => number <= 255
  }

  predicate FlagsOk(flags: seq<string>) {
    && (forall flag <- flags :: flag in {"onlink", "linkdown"})
    && (forall i, j :: 0 <= i < j < |flags| ==> flags[i] != flags[j])
  }

  /** The checks of the fields that do not enter the identity of a route, and of the interface. */
  predicate FieldsOk(t: AddressText, row: Row, f: Family) {
    && IsToken(row.interface, 64)
    && (row.kind.Some? ==> row.kind.value == "unicast")
    && (row.protocol.Some? ==> ProtocolOk(row.protocol.value))
    && (row.scope.Some? ==> row.scope.value in {"global", "universe", "link", "host"})
    && (row.source.Some? ==> Address(t, row.source.value, f).Some?)
    && (row.table.Some? ==> row.table.value in {Named("main"), Numbered(254)})
    && (row.preference.Some? ==> f.Ipv6? && row.preference.value in {"low", "medium", "high"})
  }

  function EntryOf(t: AddressText, row: Row, f: Family): Result<Entry> {
    if !FieldsOk(t, row, f) || !FlagsOk(row.flags) then Err(Discovery)
    else
      match Destination(t, row.destination, f)
      case Err(code) => Err(code)
      case Ok(destination) =>
        match ShownGateway(t, row.gateway, f)
        case Err(code) => Err(code)
        case Ok(gateway) =>
          Ok(Entry(Identity(destination, gateway, row.interface, row.metric),
                   "onlink" in row.flags, "linkdown" in row.flags, row.preference))
  }

  function ShownGateway(t: AddressText, gateway: Option<string>, f: Family): Result<Option<string>> {
    match gateway
    case None => Ok(None)
    case Some(raw) =>
      match Address(t, raw, f)
      case None => Err(Discovery)
      case Some(ip) => Ok(Some(t.show(ip)))
  }

  /** The loop over the flags of a row: each of them is known, and none comes twice. */
  method ReadFlags(flags: seq<string>) returns (r: Option<set<string>>)
    ensures r.Some? <==> FlagsOk(flags)
    ensures r.Some? ==> forall flag :: flag in r.value <==> flag in flags
  {
    var seen := {};
    for n := 0 to |flags|
      invariant forall flag :: flag in seen <==> flag in flags[..n]
      invariant FlagsOk(flags[..n])
    {
      var flag := flags[n];
      assert flags[..n + 1] == flags[..n] + [flag];
      if flag !in {"onlink", "linkdown"} || flag in seen {
        assert flag in flags;
        if flag in flags[..n] {
          var i :| 0 <= i < n && flags[..n][i] == flag;
          assert flags[i] == flags[n];
        }
        return None;
      }
      seen := seen + {flag};
    }
    assert flags[..|flags|] == flags;
    return Some(seen);
  }

  /** The body of the loop over the rows. */
  method ReadRow(t: AddressText, row: Row, f: Family) returns (r: Result<Entry>)
    ensures r.Ok? <==> EntryOf(t, row, f).Ok?
    ensures r.Ok? ==> r == EntryOf(t, row, f)
  {
    hide FieldsOk, FlagsOk, Destination, Address;
    if !FieldsOk(t, row, f) { return Err(Discovery); }
    var flags := ReadFlags(row.flags);
    if flags.None? { return Err(Discovery); }
    var destination := Destination(t, row.destination, f);
    if destination.Err? { return Err(destination.code); }
    var gateway := ShownGateway(t, row.gateway, f);
    if gateway.Err? { return Err(gateway.code); }
    return Ok(Entry(Identity(destination.value, gateway.value, row.interface, row.metric),
                    "onlink" in flags.value, "linkdown" in flags.value, row.preference));
  }

  ghost predicate RowsRead(t: AddressText, rows: seq<Row>, f: Family) {
    forall i :: 0 <= i < |rows| ==> EntryOf(t, rows[i], f).Ok?
  }

  ghost predicate NothingRepeats(t: AddressText, rows: seq<Row>, f: Family)
    requires RowsRead(t, rows, f)
  {
    forall i, j :: 0 <= i < j < |rows| ==>
      EntryOf(t, rows[i], f).value.identity != EntryOf(t, rows[j], f).value.identity
  }

  /** One bad or repeated row rejects the whole inventory; otherwise no row is left out. */
  method ParseRoutes(t: AddressText, rows: seq<Row>, f: Family) returns (r: Result<seq<Entry>>)
    ensures r.Ok? <==> |rows| <= MAX_ROUTES && RowsRead(t, rows, f) && NothingRepeats(t, rows, f)
    ensures r.Ok? ==> |r.value| == |rows| && forall i :: 0 <= i < |rows| ==> Ok(r.value[i]) == EntryOf(t, rows[i], f)
  {
    hide EntryOf;
    if |rows| > MAX_ROUTES { return Err(Discovery); }
    var entries := [];
    var identities := {};
    for n := 0 to |rows|
      invariant |entries| == n
      invariant forall i :: 0 <= i < n ==> Ok(entries[i]) == EntryOf(t, rows[i], f)
      invariant forall i, j :: 0 <= i < j < n ==> entries[i].identity != entries[j].identity
      invariant identities == set i | 0 <= i < n :: entries[i].identity
    {
      var entry := ReadRow(t, rows[n], f);
      if entry.Err? { return Err(Discovery); }
      if entry.value.identity in identities { return Err(Discovery); }
      identities := identities + {entry.value.identity};
      entries := entries + [entry.value];
    }
    return Ok(entries);
  }

  /** Two rows cover the same addresses. */
  ghost predicate SameReach(t: AddressText, a: Row, b: Row, f: Family) {
    var p, q := ReadPrefix(t, a.destination, f), ReadPrefix(t, b.destination, f);
    && p.Some? && q.Some? && Fits(f, p.value) && Fits(f, q.value)
    && forall n: nat :: Covers(f, p.value, n) <==> Covers(f, q.value, n)
  }

  /** Gateways are shown alike exactly if they are the same address, however they are written. */
  lemma GatewaysExactly(t: AddressText, a: Option<string>, b: Option<string>, f: Family)
    requires Faithful(t) && ShownGateway(t, a, f).Ok? && ShownGateway(t, b, f).Ok?
    ensures ShownGateway(t, a, f) == ShownGateway(t, b, f) <==>
      a.Some? == b.Some? && (a.Some? ==> Address(t, a.value, f) == Address(t, b.value, f))
  {
    if a.Some? && b.Some? {
      var x, y := Address(t, a.value, f).value, Address(t, b.value, f).value;
      assert InRange(x) && InRange(y) && t.parse(t.show(x)) == Some(x) && t.parse(t.show(y)) == Some(y);
    }
  }

  /** Rows have the same identity exactly if gateway, interface, metric and the addresses they cover agree. */
  lemma IdentityExactly(t: AddressText, a: Row, b: Row, f: Family)
    requires Faithful(t) && EntryOf(t, a, f).Ok? && EntryOf(t, b, f).Ok?
    ensures EntryOf(t, a, f).value.identity == EntryOf(t, b, f).value.identity <==>
      && ShownGateway(t, a.gateway, f) == ShownGateway(t, b.gateway, f)
      && a.interface == b.interface && a.metric == b.metric && SameReach(t, a, b, f)
  {
    hide Destination, ReadPrefix, Faithful, Covers, FieldsOk, FlagsOk, ShownGateway;
    CanonicalExactly(t, a.destination, b.destination, f);
  }

  /** In an accepted inventory, rows with the same gateway, interface and metric differ in some address. */
  lemma RoutesAreUnambiguous(t: AddressText, rows: seq<Row>, f: Family, i: nat, j: nat)
    requires Faithful(t) && RowsRead(t, rows, f) && NothingRepeats(t, rows, f) && i < j < |rows|
    requires ShownGateway(t, rows[i].gateway, f) == ShownGateway(t, rows[j].gateway, f)
    requires rows[i].interface == rows[j].interface && rows[i].metric == rows[j].metric
    ensures ReadPrefix(t, rows[i].destination, f).Some? && ReadPrefix(t, rows[j].destination, f).Some?
    ensures var p, q := ReadPrefix(t, rows[i].destination, f).value, ReadPrefix(t, rows[j].destination, f).value;
      Aligned(f, p) && Aligned(f, q) && exists n: nat :: Covers(f, p, n) != Covers(f, q, n)
  {
    hide Destination, ReadPrefix, Faithful, Covers, FieldsOk, FlagsOk, ShownGateway;
    assert EntryOf(t, rows[i], f).value.identity != EntryOf(t, rows[j], f).value.identity;
    IdentityExactly(t, rows[i], rows[j], f);
    CanonicalExactly(t, rows[i].destination, rows[j].destination, f);
  }
}
