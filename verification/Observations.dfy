/**
 The cache of actionable service observations
 (crates/nexus-core/src/service_observations.rs). `Next` says what each critical section
 may do; the class `ObservationStore` is the code; `ObservationRuns` has the theorems about runs.
 */
module Observations {
  import opened Common
  import opened AuthorityStore

  const OBSERVATION_TTL: nat := 120
  const MAX_HOST_SETS: nat := 64
  const MAX_ACTIONABLE: nat := 4096
  const MAX_ROWS: nat := 512

  type Id = nat

  // ----- Rows -----

  datatype Ids = Ids(resetFailed: Option<Id>, tryRestart: Option<Id>, reload: Option<Id>, start: Option<Id>)

  const NO_IDS := Ids(None, None, None, None)

  /** A service as it was observed; `ids` is filled in by `publish`. */
  datatype Row = Row(unit: string, load: string, active: string, sub: string,
                     canReload: bool, canStart: bool, ids: Ids)

  function IdOf(row: Row, o: Operation): Option<Id> {
    match o
    case ResetFailed => row.ids.resetFailed
    case TryRestart => row.ids.tryRestart
    case Reload => row.ids.reload
    case Start => row.ids.start
  }

  predicate Matches(row: Row, o: Operation) {
    && row.load == "loaded"
    && match o
       case ResetFailed => row.active == "failed" && row.sub == "failed"
       case TryRestart => row.active == "active" && row.sub == "running"
       case Reload => row.active == "active" && row.sub == "running" && row.canReload
       case Start => row.active == "inactive" && row.sub == "dead" && row.canStart
  }

  const SUFFIX := ".service"

  predicate ValidPart(p: string) {
    p != [] && Alphanumeric(p[0]) && forall i :: 1 <= i < |p| ==> Alphanumeric(p[i]) || p[i] in "_.:-"
  }

  predicate Alphanumeric(c: char) {
    '0' <= c <= '9' || 'a' <= c <= 'z' || 'A' <= c <= 'Z'
  }

  /** `name.service` or `name@instance.service`, with the suffix occurring once. */
  predicate ValidUnit(u: string) {
    && |SUFFIX| <= |u| <= 255
    && (forall i :: 0 <= i <= |u| - |SUFFIX| ==> (SuffixAt(u, i) <==> i == |u| - |SUFFIX|))
    && ValidStem(u[..|u| - |SUFFIX|])
  }

  predicate SuffixAt(u: string, i: nat) {
    i + |SUFFIX| <= |u| && u[i..i + |SUFFIX|] == SUFFIX
  }

  predicate ValidStem(stem: string) {
    || ValidPart(stem)
    || exists k :: 0 <= k < |stem| && stem[k] == '@' && ValidPart(stem[..k]) && ValidPart(stem[k + 1..])
  }

  /** An operation that a row is offered for. */
  predicate Actionable(row: Row, o: Operation) {
    ValidUnit(row.unit) && Matches(row, o)
  }

  // ----- The cache -----

  datatype Observation = Observation(operation: Operation, unit: string)

  datatype ObservationSet = ObservationSet(binding: Binding, issuedAt: nat, expiresAt: nat,
                                           entries: map<Id, Observation>)

  type Sets = map<HostId, ObservationSet>

  datatype Cache = Cache(sets: Sets, newest: map<HostId, nat>, sealed: bool, nextId: Id)

  const EMPTY_CACHE := Cache(map[], map[], false, 0)

  function Newest(c: Cache, host: HostId): nat {
    if host in c.newest then c.newest[host] else 0
  }

  function Live(sets: Sets, now: nat): Sets {
    map h | h in sets && sets[h].expiresAt > now :: sets[h]
  }

  /** How many ids are held in all. */
  ghost function Count(sets: Sets): nat
    decreases |sets|
  {
    if sets == map[] then 0
    else
      var h :| h in sets;
      |sets[h].entries| + Count(sets - {h})
  }

  lemma {:induction false} CountSplits(sets: Sets, h: HostId)
    requires h in sets
    ensures Count(sets) == |sets[h].entries| + Count(sets - {h})
    decreases |sets|
  {
    var g :| g in sets && Count(sets) == |sets[g].entries| + Count(sets - {g});
    if g != h {
      var a, b := sets - {g}, sets - {h};
      assert a[h] == sets[h] && b[g] == sets[g] && a - {h} == b - {g};
      CountSplits(a, h);
      CountSplits(b, g);
    }
  }

  lemma {:induction false} CountShrinks(a: Sets, b: Sets)
    requires a.Keys <= b.Keys && forall h <- a :: a[h] == b[h]
    ensures Count(a) <= Count(b) && |a| <= |b|
    decreases |a|
  {
    if a != map[] {
      var h :| h in a;
      CountSplits(a, h);
      CountSplits(b, h);
      CountShrinks(a - {h}, b - {h});
    }
  }

  /** Room for one more set with `extra` ids. */
  ghost predicate HasRoom(sets: Sets, extra: nat) {
    |sets| < MAX_HOST_SETS && Count(sets) + extra <= MAX_ACTIONABLE
  }

  /** `after` is a part of `before` in which nothing older than an evicted set is kept. */
  ghost predicate KeepsNewest(before: Sets, after: Sets) {
    && after.Keys <= before.Keys
    && (forall h <- after :: after[h] == before[h])
    && (forall k, e | k in after && e in before && e !in after :: before[e].issuedAt <= before[k].issuedAt)
  }

  /** Evicting oldest first until there is room, and no longer. */
  ghost predicate Evicted(before: Sets, after: Sets, extra: nat) {
    && KeepsNewest(before, after)
    && HasRoom(after, extra)
    && (after != before ==> exists h :: h in before && h !in after && !HasRoom(after[h := before[h]], extra))
  }

  /** The rows after `publish`, and the observations behind their ids. */
  ghost predicate Tagged(rows: seq<Row>, tagged: seq<Row>, entries: map<Id, Observation>, from: Id, to: Id) {
    && |tagged| == |rows|
    && (forall i :: 0 <= i < |rows| ==> TaggedRow(rows[i], tagged[i], entries))
    && (forall id <- entries :: from <= id < to && SomeRow(tagged, id, entries[id].operation))
  }

  ghost predicate TaggedRow(row: Row, tagged: Row, entries: map<Id, Observation>) {
    && tagged == row.(ids := tagged.ids)
    && (forall o: Operation :: IdOf(tagged, o).Some? <==> Actionable(row, o))
    && (forall o: Operation :: IdOf(tagged, o).Some? ==>
          IdOf(tagged, o).value in entries && entries[IdOf(tagged, o).value] == Observation(o, row.unit))
  }

  ghost predicate SomeRow(tagged: seq<Row>, id: Id, o: Operation) {
    exists i :: 0 <= i < |tagged| && IdOf(tagged[i], o) == Some(id)
  }

  datatype Snapshot = Snapshot(host: HostId, session: HostSessionId, rows: seq<Row>)

  // ----- Critical sections -----

  datatype Step =
    | Begin(host: HostId, sequence: Result<nat>)
    | Publish(binding: Binding, request: nat, snapshot: Snapshot, now: nat, published: Result<seq<Row>>)
    | Resolve(operation: Operation, id: Id, expected: Binding, now: nat, unit: Result<string>)
    | RevokeHost(host: HostId)
    | RevokeSession(host: HostId, session: HostSessionId)
    | Seal

  function Bumped(c: Cache, host: HostId): Cache {
    c.(newest := c.newest[host := SaturatingAdd(Newest(c, host), 1)])
  }

  predicate MayPublish(c: Cache, binding: Binding, request: nat, snapshot: Snapshot) {
    && snapshot.host == binding.host && snapshot.session == binding.session && |snapshot.rows| <= MAX_ROWS
    && !c.sealed && binding.host in c.newest && c.newest[binding.host] == request
  }

  /** A successful publish: what it replaces, evicts and adds. */
  ghost predicate Publishes(c: Cache, binding: Binding, snapshot: Snapshot, now: nat, tagged: seq<Row>, d: Cache) {
    var host := binding.host;
    && d.newest == c.newest && !d.sealed && d.nextId >= c.nextId
    && host in d.sets
    && d.sets[host].binding == binding
    && d.sets[host].issuedAt == now && d.sets[host].expiresAt == now + OBSERVATION_TTL
    && Tagged(snapshot.rows, tagged, d.sets[host].entries, c.nextId, d.nextId)
    && |d.sets[host].entries| <= 2 * |snapshot.rows|
    && Evicted(Live(c.sets, now) - {host}, d.sets - {host}, |d.sets[host].entries|)
  }

  /** The observation behind `id`, if it is live and the binding is exactly the one it was made for. */
  function Lookup(sets: Sets, id: Id, expected: Binding): Option<Observation> {
    if expected.host in sets && sets[expected.host].binding == expected && id in sets[expected.host].entries
    then Some(sets[expected.host].entries[id]) else None
  }

  ghost predicate Next(c: Cache, step: Step, d: Cache) {
    match step
    case Begin(host, sequence) =>
      if c.sealed then d == c && sequence == Err(Conflict)
      else d == Bumped(c, host) && sequence == Ok(Newest(d, host))
    case Publish(binding, request, snapshot, now, published) =>
      if MayPublish(c, binding, request, snapshot)
      then published.Ok? && Publishes(c, binding, snapshot, now, published.value, d)
      else d == c && published == Err(Conflict)
    case Resolve(operation, id, expected, now, unit) =>
      && d == c.(sets := Live(c.sets, now))
      && unit == (match Lookup(d.sets, id, expected)
                  case Some(observation) =>
                    if observation.operation == operation then Ok(observation.unit) else Err(Conflict)
                  case None => Err(Conflict))
    case RevokeHost(host) => d == Bumped(c.(sets := c.sets - {host}), host)
    case RevokeSession(host, session) =>
      d == Bumped(if host in c.sets && c.sets[host].binding.session == session then c.(sets := c.sets - {host}) else c,
                  host)
    case Seal => d == c.(sets := map[], newest := map[], sealed := true)
  }

  /** Some of the oldest sets are gone, and with any fewer there was no room. */
  ghost predicate Evicting(before: Sets, sets: Sets, extra: nat) {
    && KeepsNewest(before, sets)
    && (sets != before ==> exists h :: h in before && h !in sets && !HasRoom(sets[h := before[h]], extra))
  }

  lemma NothingEvicted(sets: Sets, extra: nat)
    ensures Evicting(sets, sets, extra)
    ensures extra <= MAX_ACTIONABLE ==> HasRoom(map[], extra)
  {
  }

  /** The oldest set goes next. */
  lemma EvictOne(before: Sets, sets: Sets, oldest: HostId, extra: nat)
    requires Evicting(before, sets, extra) && oldest in sets && !HasRoom(sets, extra)
    requires forall h <- sets :: sets[oldest].issuedAt <= sets[h].issuedAt
    ensures Evicting(before, sets - {oldest}, extra)
  {
    assert (sets - {oldest})[oldest := before[oldest]] == sets;
  }

  lemma EvictedEnough(before: Sets, sets: Sets, extra: nat)
    requires Evicting(before, sets, extra) && HasRoom(sets, extra)
    ensures Evicted(before, sets, extra) && sets.Keys <= before.Keys
  {
  }

  ghost predicate Offers(tagged: Row, operations: set<Operation>) {
    forall o: Operation :: IdOf(tagged, o).Some? <==> o in operations
  }

  /**
   What a tagged row is offered for: a failed service to be reset, a running one to be restarted and, if it can,
   reloaded, a dead one, if it can, to be started; in every other state, unloaded or with a bad name, nothing.
   */
  lemma OffersExactly(row: Row, tagged: Row, entries: map<Id, Observation>)
    requires TaggedRow(row, tagged, entries)
    ensures Offers(tagged,
      if !ValidUnit(row.unit) || row.load != "loaded" then {}
      else if (row.active, row.sub) == ("failed", "failed") then {ResetFailed}
      else if (row.active, row.sub) == ("active", "running") then {TryRestart} + if row.canReload then {Reload} else {}
      else if (row.active, row.sub) == ("inactive", "dead") && row.canStart then {Start}
      else {})
  {
    hide ValidUnit;
    assert "failed" != "active" && "failed" != "inactive" && "active" != "inactive" by {
      assert "failed"[0] != "active"[0] && |"active"| != |"inactive"| && |"failed"| != |"inactive"|;
    }
  }

  // ----- The code -----

  /** A row matches at most two operations. */
  lemma AtMostTwo(row: Row)
    ensures !(Matches(row, ResetFailed) && (Matches(row, TryRestart) || Matches(row, Start)))
    ensures !(Matches(row, TryRestart) && Matches(row, Start))
    ensures Matches(row, Reload) ==> Matches(row, TryRestart)
  {
  }

  /** The body of the loop over the rows of a snapshot. */
  method TagRow(row: Row, nextId: Id) returns (tagged: Row, entries: map<Id, Observation>, next: Id)
    ensures TaggedRow(row, tagged, entries)
    ensures forall id <- entries :: nextId <= id < next && IdOf(tagged, entries[id].operation) == Some(id)
    ensures |entries| <= 2 && nextId <= next
  {
    AtMostTwo(row);
    tagged, entries, next := row.(ids := NO_IDS), map[], nextId;
    if !ValidUnit(row.unit) { return; }
    hide ValidUnit;
    if Matches(row, ResetFailed) {
      tagged := tagged.(ids := tagged.ids.(resetFailed := Some(next)));
      entries := entries[next := Observation(ResetFailed, row.unit)];
      next := next + 1;
    }
    if Matches(row, TryRestart) {
      tagged := tagged.(ids := tagged.ids.(tryRestart := Some(next)));
      entries := entries[next := Observation(TryRestart, row.unit)];
      next := next + 1;
    }
    if Matches(row, Reload) {
      tagged := tagged.(ids := tagged.ids.(reload := Some(next)));
      entries := entries[next := Observation(Reload, row.unit)];
      next := next + 1;
    }
    if Matches(row, Start) {
      tagged := tagged.(ids := tagged.ids.(start := Some(next)));
      entries := entries[next := Observation(Start, row.unit)];
      next := next + 1;
    }
  }

  lemma TaggedRowGrows(row: Row, tagged: Row, entries: map<Id, Observation>, more: map<Id, Observation>)
    requires TaggedRow(row, tagged, entries)
    requires entries.Keys !! more.Keys
    ensures TaggedRow(row, tagged, entries + more) && TaggedRow(row, tagged, more + entries)
  {
  }

  lemma MergeSize(a: map<Id, Observation>, b: map<Id, Observation>)
    ensures |a + b| <= |a| + |b|
  {
    assert (a + b).Keys == a.Keys + b.Keys;
    UnionSize(a.Keys, b.Keys);
  }

  lemma UnionSize(a: set<Id>, b: set<Id>)
    ensures |a + b| <= |a| + |b|
  {
    assert a + b == a + (b - a);
  }

  /** One more tagged row. */
  lemma TaggedExtends(rows: seq<Row>, tagged: seq<Row>, entries: map<Id, Observation>, from: Id, middle: Id,
                      row: Row, more: map<Id, Observation>, t: Row, to: Id)
    requires Tagged(rows, tagged, entries, from, middle) && from <= middle <= to
    requires TaggedRow(row, t, more)
    requires forall id <- more :: middle <= id < to && IdOf(t, more[id].operation) == Some(id)
    ensures Tagged(rows + [row], tagged + [t], entries + more, from, to)
  {
    hide IdOf, TaggedRow;
    assert entries.Keys !! more.Keys;
    TaggedRowGrows(row, t, more, entries);
    forall i | 0 <= i < |rows|
      ensures TaggedRow(rows[i], tagged[i], entries + more)
    {
      TaggedRowGrows(rows[i], tagged[i], entries, more);
    }
    forall id | id in entries + more
      ensures from <= id < to && SomeRow(tagged + [t], id, (entries + more)[id].operation)
    {
      var all := tagged + [t];
      if id in more {
        assert IdOf(all[|tagged|], more[id].operation) == Some(id);
      } else {
        var i :| 0 <= i < |tagged| && IdOf(tagged[i], entries[id].operation) == Some(id);
        assert IdOf(all[i], entries[id].operation) == Some(id);
      }
    }
  }

  lemma NothingTagged(n: Id)
    ensures Tagged([], [], map[], n, n)
  {
  }

  method TagRows(rows: seq<Row>, nextId: Id) returns (tagged: seq<Row>, entries: map<Id, Observation>, next: Id)
    ensures Tagged(rows, tagged, entries, nextId, next) && nextId <= next
    ensures |entries| <= 2 * |rows|
  {
    hide Tagged, TaggedRow;
    tagged, entries, next := [], map[], nextId;
    NothingTagged(nextId);
    for n := 0 to |rows|
      invariant Tagged(rows[..n], tagged, entries, nextId, next) && nextId <= next
      invariant |entries| <= 2 * n
    {
      var t, more, to := TagRow(rows[n], next);
      TaggedExtends(rows[..n], tagged, entries, nextId, next, rows[n], more, t, to);
      MergeSize(entries, more);
      assert rows[..n + 1] == rows[..n] + [rows[n]];
      tagged, entries, next := tagged + [t], entries + more, to;
    }
    assert rows[..|rows|] == rows;
  }

  lemma LiveIsPart(sets: Sets, now: nat)
    ensures Count(Live(sets, now)) <= Count(sets) && |Live(sets, now)| <= |sets|
  {
    CountShrinks(Live(sets, now), sets);
  }

  class ObservationStore {
    var sets: Sets
    var newest: map<HostId, nat>
    var isSealed: bool
    var nextId: Id

    ghost function Contents(): Cache
      reads this
    {
      Cache(sets, newest, isSealed, nextId)
    }

    constructor ()
      ensures Contents() == EMPTY_CACHE
    {
      sets, newest, isSealed, nextId := map[], map[], false, 0;
    }

    method BumpRequest(host: HostId) returns (sequence: nat)
      modifies this`newest
      ensures Contents() == Bumped(old(Contents()), host) && sequence == Newest(Contents(), host)
    {
      sequence := SaturatingAdd(if host in newest then newest[host] else 0, 1);
      newest := newest[host := sequence];
    }

    method BeginRequest(host: HostId) returns (r: Result<nat>)
      modifies this`newest
      ensures Next(old(Contents()), Begin(host, r), Contents())
    {
      if isSealed { return Err(Conflict); }
      var sequence := BumpRequest(host);
      return Ok(sequence);
    }

    method RemoveExpired(now: nat)
      modifies this`sets
      ensures sets == Live(old(sets), now)
    {
      sets := map h | h in sets && sets[h].expiresAt > now :: sets[h];
    }

    method ActionableCount() returns (total: nat)
      ensures total == Count(sets)
    {
      total := 0;
      var rest := sets;
      while rest != map[]
        invariant rest.Keys <= sets.Keys && total + Count(rest) == Count(sets)
        decreases |rest|
      {
        var h :| h in rest;
        CountSplits(rest, h);
        total := total + |rest[h].entries|;
        rest := rest - {h};
      }
    }

    method Oldest() returns (host: Option<HostId>)
      ensures host.None? ==> sets == map[]
      ensures host.Some? ==> host.value in sets && forall h <- sets :: sets[host.value].issuedAt <= sets[h].issuedAt
    {
      host := None;
      var rest := sets.Keys;
      while rest != {}
        invariant rest <= sets.Keys
        invariant host.None? ==> rest == sets.Keys
        invariant host.Some? ==>
          host.value in sets && forall h <- sets :: h !in rest ==> sets[host.value].issuedAt <= sets[h].issuedAt
        decreases rest
      {
        var h :| h in rest;
        if host.None? || sets[h].issuedAt < sets[host.value].issuedAt { host := Some(h); }
        rest := rest - {h};
      }
    }

    method EvictOldest(extra: nat)
      requires extra <= MAX_ACTIONABLE
      modifies this`sets
      ensures Evicted(old(sets), sets, extra) && sets.Keys <= old(sets.Keys)
    {
      hide Count, Evicting;
      ghost var before := sets;
      NothingEvicted(sets, extra);
      while true
        invariant Evicting(before, sets, extra)
        decreases |sets|
      {
        var count := ActionableCount();
        if |sets| < MAX_HOST_SETS && SaturatingAdd(count, extra) <= MAX_ACTIONABLE { break; }
        var oldest := Oldest();
        if oldest.None? { break; }
        EvictOne(before, sets, oldest.value, extra);
        sets := sets - {oldest.value};
      }
      EvictedEnough(before, sets, extra);
    }

    method PublishSnapshot(binding: Binding, request: nat, snapshot: Snapshot, now: nat) returns (r: Result<seq<Row>>)
      modifies this
      ensures Next(old(Contents()), Publish(binding, request, snapshot, now, r), Contents())
    {
      hide Tagged, Evicted, Live;
      if snapshot.host != binding.host || snapshot.session != binding.session || |snapshot.rows| > MAX_ROWS {
        return Err(Conflict);
      }
      if isSealed || binding.host !in newest || newest[binding.host] != request { return Err(Conflict); }
      RemoveExpired(now);
      sets := sets - {binding.host};
      var tagged, entries, next := TagRows(snapshot.rows, nextId);
      nextId := next;
      EvictOldest(|entries|);
      ghost var kept := sets;
      sets := sets[binding.host := ObservationSet(binding, now, now + OBSERVATION_TTL, entries)];
      assert sets - {binding.host} == kept;
      return Ok(tagged);
    }

    /** The four typed lookups differ only in `operation`. */
    method ResolveAs(operation: Operation, id: Id, expected: Binding, now: nat) returns (r: Result<string>)
      modifies this`sets
      ensures Next(old(Contents()), Resolve(operation, id, expected, now, r), Contents())
    {
      RemoveExpired(now);
      if expected.host !in sets { return Err(Conflict); }
      var found := sets[expected.host];
      if found.binding != expected || id !in found.entries { return Err(Conflict); }
      if found.entries[id].operation != operation { return Err(Conflict); }
      return Ok(found.entries[id].unit);
    }

    method RevokeForHost(host: HostId)
      modifies this`sets, this`newest
      ensures Next(old(Contents()), RevokeHost(host), Contents())
    {
      sets := sets - {host};
      var _ := BumpRequest(host);
    }

    method RevokeForSession(host: HostId, session: HostSessionId)
      modifies this`sets, this`newest
      ensures Next(old(Contents()), RevokeSession(host, session), Contents())
    {
      if host in sets && sets[host].binding.session == session { sets := sets - {host}; }
      var _ := BumpRequest(host);
    }

    method SealAndRevokeAll()
      modifies this`sets, this`newest, this`isSealed
      ensures Next(old(Contents()), Seal, Contents())
    {
      isSealed, sets, newest := true, map[], map[];
    }
  }
}
