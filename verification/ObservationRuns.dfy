/**
 Runs of the observation cache: any interleaving of requests, publications, lookups,
 revocations and the final seal, with the history of which id was issued for what.
 The clock is read before the lock is taken, so nothing is assumed about the order of
 the times that successive steps use.
 */
module ObservationRuns {
  import opened Common
  import opened AuthorityStore
  import opened Observations

  /** What an id was issued for. */
  datatype Issue = Issue(binding: Binding, operation: Operation, unit: string, expiresAt: nat)

  datatype System = System(cache: Cache, issued: map<Id, Issue>)

  const INITIAL := System(EMPTY_CACHE, map[])

  function IssuedWith(o: ObservationSet): map<Id, Issue> {
    map id | id in o.entries :: Issue(o.binding, o.entries[id].operation, o.entries[id].unit, o.expiresAt)
  }

  /** A critical section of the cache, with new ids entered in the history. */
  ghost predicate Becomes(s: System, step: Step, t: System) {
    && Next(s.cache, step, t.cache)
    && t.issued == if Succeeds(step) then s.issued + NewIds(step, t.cache) else s.issued
  }

  predicate Succeeds(step: Step) {
    step.Publish? && step.published.Ok?
  }

  function NewIds(step: Step, c: Cache): map<Id, Issue>
    requires step.Publish?
  {
    if step.binding.host in c.sets then IssuedWith(c.sets[step.binding.host]) else map[]
  }

  // ----- Invariant -----

  /** A set is kept under its own host and agrees with the history. */
  ghost predicate SetInv(s: System, h: HostId)
    requires h in s.cache.sets
  {
    var o := s.cache.sets[h];
    && o.binding.host == h && o.expiresAt == o.issuedAt + OBSERVATION_TTL
    && forall id <- o.entries ::
         id in s.issued && s.issued[id] == Issue(o.binding, o.entries[id].operation, o.entries[id].unit, o.expiresAt)
  }

  ghost predicate Bounded(c: Cache) {
    |c.sets| <= MAX_HOST_SETS && Count(c.sets) <= MAX_ACTIONABLE
  }

  ghost predicate Inv(s: System) {
    && Bounded(s.cache)
    && (forall h <- s.cache.sets :: SetInv(s, h))
    && (forall id <- s.issued :: id < s.cache.nextId)
    && (forall h <- s.cache.newest :: s.cache.newest[h] <= U64_MAX)
    && (s.cache.sealed ==> s.cache.sets == map[])
  }

  lemma PublishKeepsBound(c: Cache, step: Step, d: Cache)
    requires Next(c, step, d) && Succeeds(step)
    ensures Bounded(d)
  {
    hide Tagged, Live;
    var host := step.binding.host;
    var kept := d.sets - {host};
    assert d.sets == kept[host := d.sets[host]];
    CountSplits(d.sets, host);
  }

  lemma NothingCounted()
    ensures Count(map[]) == 0
  {
  }

  lemma StepKeepsBound(c: Cache, step: Step, d: Cache)
    requires Bounded(c) && Next(c, step, d)
    ensures Bounded(d)
  {
    hide Publishes, Live, Count;
    match step {
      case Publish(_, _, _, _, published) => if published.Ok? { PublishKeepsBound(c, step, d); }
      case Resolve(_, _, _, now, _) => LiveIsPart(c.sets, now);
      case RevokeHost(host) => CountShrinks(d.sets, c.sets);
      case RevokeSession(host, _) => CountShrinks(d.sets, c.sets);
      case Seal => NothingCounted();
      case _ =>
    }
  }

  /** Every set that is there afterwards was there before, or is the one just published. */
  lemma SetsComeFrom(c: Cache, step: Step, d: Cache, h: HostId)
    requires Next(c, step, d) && h in d.sets
    ensures (Succeeds(step) && h == step.binding.host) || (h in c.sets && d.sets[h] == c.sets[h])
  {
    hide Tagged, HasRoom;
    if Succeeds(step) && h != step.binding.host {
      assert h in d.sets - {step.binding.host};
    }
  }

  /** The ids of a published set are new. */
  lemma PublishedIdsAreNew(c: Cache, step: Step, d: Cache)
    requires Next(c, step, d) && Succeeds(step)
    ensures step.binding.host in d.sets && c.nextId <= d.nextId
    ensures d.sets[step.binding.host].binding == step.binding
    ensures d.sets[step.binding.host].issuedAt == step.now
    ensures d.sets[step.binding.host].expiresAt == step.now + OBSERVATION_TTL
    ensures forall id <- d.sets[step.binding.host].entries :: c.nextId <= id < d.nextId
  {
    hide Evicted, Live, TaggedRow;
  }

  lemma StepKeepsSets(s: System, step: Step, t: System)
    requires Inv(s) && Becomes(s, step, t)
    ensures forall h <- t.cache.sets :: SetInv(t, h)
  {
    hide Next, Bounded;
    if Succeeds(step) { PublishedIdsAreNew(s.cache, step, t.cache); }
    forall h | h in t.cache.sets
      ensures SetInv(t, h)
    {
      SetsComeFrom(s.cache, step, t.cache, h);
      if h in s.cache.sets { assert SetInv(s, h); }
    }
  }

  lemma StepKeepsRest(s: System, step: Step, t: System)
    requires Inv(s) && Becomes(s, step, t)
    ensures forall id <- t.issued :: id < t.cache.nextId
    ensures forall h <- t.cache.newest :: t.cache.newest[h] <= U64_MAX
    ensures t.cache.sealed ==> t.cache.sets == map[]
  {
    hide SetInv, Bounded, Tagged, Evicted, Live;
    if Succeeds(step) { PublishedIdsAreNew(s.cache, step, t.cache); }
    if step.Resolve? { NothingLive(step.now); }
  }

  lemma NothingLive(now: nat)
    ensures Live(map[], now) == map[]
  {
  }

  lemma StepKeepsInv(s: System, step: Step, t: System)
    requires Inv(s) && Becomes(s, step, t)
    ensures Inv(t)
  {
    hide Next, SetInv, Bounded;
    StepKeepsBound(s.cache, step, t.cache);
    StepKeepsSets(s, step, t);
    StepKeepsRest(s, step, t);
  }

  // ----- Runs -----

  ghost predicate IsRun(states: seq<System>, steps: seq<Step>) {
    && |states| == |steps| + 1 && states[0] == INITIAL
    && forall i :: 0 <= i < |steps| ==> Becomes(states[i], steps[i], states[i + 1])
  }

  /** At every point: at most 64 sets, at most 4096 ids, and agreement with the history. */
  lemma {:induction false} RunKeepsInv(states: seq<System>, steps: seq<Step>, n: nat)
    requires IsRun(states, steps) && n <= |steps|
    ensures Inv(states[n])
  {
    hide Becomes;
    if n == 0 {
      InitialInv();
    } else {
      RunKeepsInv(states, steps, n - 1);
      assert Becomes(states[n - 1], steps[n - 1], states[n - 1 + 1]);
      StepKeepsInv(states[n - 1], steps[n - 1], states[n]);
    }
  }

  lemma InitialInv()
    ensures Inv(INITIAL)
  {
  }

  // ----- Typing -----

  /** An id shown in a published row enters the history as what the row shows. */
  lemma ShownIdIsIssued(s: System, step: Step, t: System, i: nat, o: Operation)
    requires Becomes(s, step, t) && Succeeds(step) && i < |step.published.value|
    requires IdOf(step.published.value[i], o).Some?
    ensures var id := IdOf(step.published.value[i], o).value;
      id in t.issued && t.issued[id] == Issue(step.binding, o, step.published.value[i].unit, step.now + OBSERVATION_TTL)
  {
    hide Evicted, Live, IdOf;
    var row := step.published.value[i];
    assert TaggedRow(step.snapshot.rows[i], row, t.cache.sets[step.binding.host].entries);
  }

  /** The history is never rewritten. */
  lemma StepKeepsHistory(s: System, step: Step, t: System, id: Id)
    requires Inv(s) && Becomes(s, step, t) && id in s.issued
    ensures id in t.issued && t.issued[id] == s.issued[id]
  {
    hide Next, SetInv, Bounded;
    if Succeeds(step) { PublishedIdsAreNew(s.cache, step, t.cache); }
  }

  lemma {:induction false} HistoryStays(states: seq<System>, steps: seq<Step>, n: nat, m: nat, id: Id)
    requires IsRun(states, steps) && n <= m <= |steps| && id in states[n].issued
    ensures id in states[m].issued && states[m].issued[id] == states[n].issued[id]
  {
    hide Becomes, Inv;
    if n < m {
      HistoryStays(states, steps, n, m - 1, id);
      RunKeepsInv(states, steps, m - 1);
      assert Becomes(states[m - 1], steps[m - 1], states[m - 1 + 1]);
      StepKeepsHistory(states[m - 1], steps[m - 1], states[m], id);
    }
  }

  /** A lookup succeeds only as what the id was issued for, and before it expires. */
  lemma ResolvedAsIssued(s: System, step: Step, t: System)
    requires Inv(s) && Becomes(s, step, t) && step.Resolve? && step.unit.Ok?
    ensures step.id in s.issued
    ensures var issue := s.issued[step.id];
      issue.operation == step.operation && issue.binding == step.expected && issue.unit == step.unit.value
      && step.now < issue.expiresAt
  {
    hide Bounded;
    assert SetInv(s, step.expected.host);
  }

  /**
   Typing over every run: an id that a publication showed for an operation of a row
   resolves, if at all, only as that operation, for exactly that binding, to that row's
   unit and within the time to live.
   */
  lemma IdsAreTyped(states: seq<System>, steps: seq<Step>, k: nat, i: nat, o: Operation, n: nat)
    requires IsRun(states, steps) && k < n < |steps|
    requires Succeeds(steps[k]) && i < |steps[k].published.value|
    requires IdOf(steps[k].published.value[i], o).Some?
    requires steps[n].Resolve? && Some(steps[n].id) == IdOf(steps[k].published.value[i], o) && steps[n].unit.Ok?
    ensures steps[n].operation == o && steps[n].expected == steps[k].binding
    ensures steps[n].unit.value == steps[k].published.value[i].unit
    ensures steps[n].now < steps[k].now + OBSERVATION_TTL
  {
    hide Becomes, Inv, IdOf;
    assert Becomes(states[k], steps[k], states[k + 1]);
    assert Becomes(states[n], steps[n], states[n + 1]);
    ShownIdIsIssued(states[k], steps[k], states[k + 1], i, o);
    HistoryStays(states, steps, k + 1, n, steps[n].id);
    RunKeepsInv(states, steps, n);
    ResolvedAsIssued(states[n], steps[n], states[n + 1]);
  }

  /** The ways in which the set of a host ends. */
  ghost predicate Ends(s: System, step: Step, t: System, host: HostId) {
    && host in s.cache.sets
    && match step
    case Begin(_, _) => false
    case Publish(binding, _, _, now, published) =>
      && published.Ok?
      && (binding.host == host || s.cache.sets[host].expiresAt <= now
          || (host !in t.cache.sets && NothingOlderKept(s.cache.sets[host], t.cache.sets - {binding.host})))
    case Resolve(_, _, _, now, _) => s.cache.sets[host].expiresAt <= now
    case RevokeHost(h) => h == host
    case RevokeSession(h, session) => h == host && s.cache.sets[host].binding.session == session
    case Seal => true
  }

  ghost predicate NothingOlderKept(o: ObservationSet, sets: Sets) {
    forall h <- sets :: o.issuedAt <= sets[h].issuedAt
  }

  lemma SetStaysOrEnds(s: System, step: Step, t: System, host: HostId)
    requires Inv(s) && Becomes(s, step, t) && host in s.cache.sets
    ensures (host in t.cache.sets && t.cache.sets[host] == s.cache.sets[host]) || Ends(s, step, t, host)
  {
    hide Tagged, HasRoom, Bounded, IssuedWith;
    if Succeeds(step) {
      PublishEnds(s, step, t, host);
    }
  }

  lemma PublishEnds(s: System, step: Step, t: System, host: HostId)
    requires Inv(s) && Becomes(s, step, t) && host in s.cache.sets && Succeeds(step)
    ensures (host in t.cache.sets && t.cache.sets[host] == s.cache.sets[host]) || Ends(s, step, t, host)
  {
    hide Tagged, HasRoom, Bounded, IssuedWith;
    var before := Live(s.cache.sets, step.now) - {step.binding.host};
    var after := t.cache.sets - {step.binding.host};
    assert SetInv(s, host);
    if host in t.cache.sets { SetsComeFrom(s.cache, step, t.cache, host); }
    if step.binding.host != host && host !in t.cache.sets && s.cache.sets[host].expiresAt > step.now {
      assert host in before && host !in after;
      assert NothingOlderKept(s.cache.sets[host], after);
    }
  }

  ghost predicate Undisturbed(states: seq<System>, steps: seq<Step>, n: nat, m: nat, host: HostId)
    requires n <= m <= |steps| < |states|
  {
    forall j :: n <= j < m ==> !Ends(states[j], steps[j], states[j + 1], host)
  }

  lemma {:induction false} SetPersists(states: seq<System>, steps: seq<Step>, n: nat, m: nat, host: HostId)
    requires IsRun(states, steps) && n <= m <= |steps| && host in states[n].cache.sets
    requires Undisturbed(states, steps, n, m, host)
    ensures host in states[m].cache.sets && states[m].cache.sets[host] == states[n].cache.sets[host]
  {
    hide Becomes, Inv, Ends;
    if n < m {
      SetPersists(states, steps, n, m - 1, host);
      RunKeepsInv(states, steps, m - 1);
      assert Becomes(states[m - 1], steps[m - 1], states[m - 1 + 1]);
      SetStaysOrEnds(states[m - 1], steps[m - 1], states[m], host);
      assert !Ends(states[m - 1], steps[m - 1], states[m - 1 + 1], host);
    }
  }

  /** Every id that a publication showed resolves as what it was shown for, until its set ends. */
  lemma ShownIdResolves(states: seq<System>, steps: seq<Step>, k: nat, i: nat, o: Operation, n: nat)
    requires IsRun(states, steps) && k < n < |steps|
    requires Succeeds(steps[k]) && i < |steps[k].published.value|
    requires IdOf(steps[k].published.value[i], o).Some?
    requires Undisturbed(states, steps, k + 1, n + 1, steps[k].binding.host)
    requires steps[n].Resolve? && Some(steps[n].id) == IdOf(steps[k].published.value[i], o)
    requires steps[n].operation == o && steps[n].expected == steps[k].binding
    ensures steps[n].unit == Ok(steps[k].published.value[i].unit)
  {
    hide Inv, IdOf, Evicted, Live, SetInv;
    var host := steps[k].binding.host;
    assert Becomes(states[k], steps[k], states[k + 1]);
    assert Becomes(states[n], steps[n], states[n + 1]);
    assert TaggedRow(steps[k].snapshot.rows[i], steps[k].published.value[i], states[k + 1].cache.sets[host].entries);
    SetPersists(states, steps, k + 1, n + 1, host);
  }

  // ----- Freshness -----

  /** A later request or a revocation for the host. */
  ghost predicate Bumps(step: Step, host: HostId) {
    || (step.Begin? && step.host == host && step.sequence.Ok?)
    || (step.RevokeHost? && step.host == host)
    || (step.RevokeSession? && step.host == host)
  }

  lemma StepNewest(s: System, step: Step, t: System, host: HostId)
    requires Inv(s) && Becomes(s, step, t) && !t.cache.sealed
    ensures !s.cache.sealed
    ensures Newest(t.cache, host) ==
      if Bumps(step, host) then SaturatingAdd(Newest(s.cache, host), 1) else Newest(s.cache, host)
    ensures host in s.cache.newest || Bumps(step, host) <==> host in t.cache.newest
  {
    hide Bounded, SetInv, Evicted, Tagged, Live, IssuedWith;
  }

  ghost predicate BumpedBetween(steps: seq<Step>, n: nat, m: nat, host: HostId)
    requires n <= m <= |steps|
  {
    exists i :: n <= i < m && Bumps(steps[i], host)
  }

  /** While the cache is not sealed, the newest request of a host stays put exactly as long as nothing bumps it. */
  lemma {:induction false} NewestMoves(states: seq<System>, steps: seq<Step>, n: nat, m: nat, host: HostId)
    requires IsRun(states, steps) && n <= m <= |steps| && !states[m].cache.sealed && host in states[n].cache.newest
    ensures !states[n].cache.sealed && host in states[m].cache.newest
    ensures Newest(states[n].cache, host) <= Newest(states[m].cache, host)
    ensures Newest(states[n].cache, host) < U64_MAX ==>
      (Newest(states[n].cache, host) == Newest(states[m].cache, host) <==> !BumpedBetween(steps, n, m, host))
    ensures Newest(states[n].cache, host) == U64_MAX ==> Newest(states[m].cache, host) == U64_MAX
  {
    hide Becomes, Bumps, Bounded, SetInv;
    RunKeepsInv(states, steps, m);
    RunKeepsInv(states, steps, n);
    if n < m {
      RunKeepsInv(states, steps, m - 1);
      assert Becomes(states[m - 1], steps[m - 1], states[m - 1 + 1]);
      StepNewest(states[m - 1], steps[m - 1], states[m], host);
      NewestMoves(states, steps, n, m - 1, host);
    }
  }

  /**
   Freshness, exactly: a well-formed publication answering a request succeeds if and only if
   no later request or revocation came in between, unless the request counter was already
   at its maximum.
   */
  lemma FreshExactly(states: seq<System>, steps: seq<Step>, n: nat, m: nat)
    requires IsRun(states, steps) && n < m < |steps|
    requires steps[n].Begin? && steps[n].sequence.Ok?
    requires steps[m].Publish? && steps[m].binding.host == steps[n].host && steps[m].request == steps[n].sequence.value
    ensures steps[m].published.Ok? <==>
      && steps[m].snapshot.host == steps[m].binding.host && steps[m].snapshot.session == steps[m].binding.session
      && |steps[m].snapshot.rows| <= MAX_ROWS && !states[m].cache.sealed
      && (!BumpedBetween(steps, n + 1, m, steps[n].host) || steps[m].request == U64_MAX)
  {
    hide Bumps, Bounded, SetInv, Publishes;
    var host := steps[n].host;
    assert Becomes(states[n], steps[n], states[n + 1]);
    assert Becomes(states[m], steps[m], states[m + 1]);
    if !states[m].cache.sealed { NewestMoves(states, steps, n + 1, m, host); }
    RunKeepsInv(states, steps, m);
  }

  /**
   The exception is real. A publication that answers a superseded request succeeds if and only if the
   counter had run up to its maximum: then the newer request was given the same number.
   */
  lemma SupersededPublishesOnlyAtMaximum(c: Cache, first: Step, d: Cache, second: Step, e: Cache,
                                         answer: Step, f: Cache)
    requires Next(c, first, d) && Next(d, second, e) && Next(e, answer, f)
    requires first.Begin? && !c.sealed && Newest(c, first.host) <= U64_MAX
    requires second.Begin? && second.host == first.host
    requires answer.Publish? && answer.binding.host == first.host && answer.snapshot.host == answer.binding.host
    requires answer.snapshot.session == answer.binding.session && |answer.snapshot.rows| <= MAX_ROWS
    requires first.sequence.Ok? && answer.request == first.sequence.value
    ensures answer.published.Ok? <==> Newest(c, first.host) >= U64_MAX - 1
    ensures answer.published.Ok? ==> first.sequence == second.sequence == Ok(U64_MAX)
  {
    hide Publishes;
    assert Newest(d, first.host) == SaturatingAdd(Newest(c, first.host), 1);
    assert Newest(e, first.host) == SaturatingAdd(Newest(d, first.host), 1);
  }

  /** The cache of a host that has made `n` requests and nothing else has happened. */
  function AfterRequests(host: HostId, n: nat): Cache {
    EMPTY_CACHE.(newest := if n == 0 then map[] else map[host := n])
  }

  lemma OneMoreRequest(host: HostId, n: nat)
    requires n < U64_MAX
    ensures Next(AfterRequests(host, n), Begin(host, Ok(n + 1)), AfterRequests(host, n + 1))
  {
    assert map[host := n][host := n + 1] == map[host := n + 1];
  }

  /** One step more at the end of a run. */
  lemma ExtendRun(states: seq<System>, steps: seq<Step>, step: Step, t: System)
    requires IsRun(states, steps) && Becomes(states[|steps|], step, t)
    ensures IsRun(states + [t], steps + [step])
  {
    hide Becomes;
    var longer, more := states + [t], steps + [step];
    forall i | 0 <= i < |more|
      ensures Becomes(longer[i], more[i], longer[i + 1])
    {
      if i < |steps| { assert Becomes(states[i], steps[i], states[i + 1]); }
    }
  }

  /** Every number up to the maximum is reached by a run. */
  lemma RequestsReach(host: HostId, n: nat) returns (states: seq<System>, steps: seq<Step>)
    requires n <= U64_MAX
    ensures IsRun(states, steps) && |steps| == n && states[n] == System(AfterRequests(host, n), map[])
  {
    hide AfterRequests, Next;
    states, steps := [INITIAL], [];
    NothingRequested(host);
    for k := 0 to n
      invariant IsRun(states, steps) && |steps| == k && states[k] == System(AfterRequests(host, k), map[])
    {
      OneMoreRequest(host, k);
      var t := System(AfterRequests(host, k + 1), map[]);
      ExtendRun(states, steps, Begin(host, Ok(k + 1)), t);
      states, steps := states + [t], steps + [Begin(host, Ok(k + 1))];
    }
  }

  lemma NothingRequested(host: HostId)
    ensures AfterRequests(host, 0) == EMPTY_CACHE
  {
  }

  /** A publication without rows, in a cache without sets. */
  lemma EmptySnapshotPublishes(c: Cache, binding: Binding, now: nat) returns (answer: Step, d: Cache)
    requires c.sets == map[] && !c.sealed && binding.host in c.newest
    ensures answer.Publish? && answer.binding == binding && answer.request == c.newest[binding.host]
    ensures answer.published == Ok([]) && Next(c, answer, d)
  {
    answer := Publish(binding, c.newest[binding.host], Snapshot(binding.host, binding.session, []), now, Ok([]));
    d := c.(sets := map[binding.host := ObservationSet(binding, now, now + OBSERVATION_TTL, map[])]);
    var others := d.sets - {binding.host};
    assert Live(c.sets, now) - {binding.host} == map[] == others;
    assert HasRoom(others, 0);
  }

  /** A run in which a superseded request is answered, and the answer is published. */
  lemma SupersededRun(binding: Binding, now: nat) returns (states: seq<System>, steps: seq<Step>, n: nat)
    ensures IsRun(states, steps) && |steps| == n + 3
    ensures steps[n] == Begin(binding.host, Ok(U64_MAX)) && steps[n + 1] == Begin(binding.host, Ok(U64_MAX))
    ensures steps[n + 2].Publish? && steps[n + 2].binding == binding && steps[n + 2].request == U64_MAX
    ensures steps[n + 2].published.Ok?
  {
    hide IsRun, IssuedWith;
    var host, max := binding.host, System(AfterRequests(binding.host, U64_MAX), map[]);
    n := U64_MAX - 1;
    states, steps := RequestsReach(host, n);
    RunLength(states, steps);
    OneMoreRequest(host, n);
    var begin := Begin(host, Ok(U64_MAX));
    ExtendRun(states, steps, begin, max);
    states, steps := states + [max], steps + [begin];
    SaturatedRequest(host);
    ExtendRun(states, steps, begin, max);
    states, steps := states + [max], steps + [begin];
    var answer, d := EmptySnapshotPublishes(max.cache, binding, now);
    var t := System(d, max.issued + NewIds(answer, d));
    ExtendRun(states, steps, answer, t);
    states, steps := states + [t], steps + [answer];
  }

  lemma RunLength(states: seq<System>, steps: seq<Step>)
    requires IsRun(states, steps)
    ensures |states| == |steps| + 1
  {
  }

  lemma SaturatedRequest(host: HostId)
    ensures var c := AfterRequests(host, U64_MAX); Next(c, Begin(host, Ok(U64_MAX)), c)
  {
    assert map[host := U64_MAX][host := U64_MAX] == map[host := U64_MAX];
  }

  /** A publication cannot succeed after the seal, nor any lookup. */
  lemma {:induction false} SealedIsFinal(states: seq<System>, steps: seq<Step>, n: nat, m: nat)
    requires IsRun(states, steps) && n < m <= |steps| && steps[n].Seal?
    ensures states[m].cache.sealed && states[m].cache.sets == map[] && (m == n + 1 ==> states[m].cache.newest == map[])
    ensures m < |steps| ==> !Succeeds(steps[m]) && !(steps[m].Resolve? && steps[m].unit.Ok?)
  {
    hide Bounded, SetInv, Publishes, IssuedWith;
    RunKeepsInv(states, steps, m);
    assert Becomes(states[m - 1], steps[m - 1], states[m - 1 + 1]);
    if m - 1 > n { SealedIsFinal(states, steps, n, m - 1); }
    if m < |steps| { assert Becomes(states[m], steps[m], states[m + 1]); }
  }

  // ----- Revocation -----

  /** The id was issued, and no set has it any more. */
  ghost predicate Withdrawn(s: System, id: Id) {
    id in s.issued && forall h <- s.cache.sets :: id !in s.cache.sets[h].entries
  }

  /** The step withdraws everything that was issued for the binding. */
  predicate Withdraws(step: Step, binding: Binding) {
    || (step.RevokeHost? && step.host == binding.host)
    || (step.RevokeSession? && step.host == binding.host && step.session == binding.session)
    || (Succeeds(step) && step.binding.host == binding.host)
    || step.Seal?
  }

  lemma WithdrawalReaches(s: System, step: Step, t: System, id: Id)
    requires Inv(s) && Inv(t) && Becomes(s, step, t) && id in s.issued && Withdraws(step, s.issued[id].binding)
    ensures Withdrawn(t, id)
  {
    hide Bounded, Evicted, Live, IdOf;
    StepKeepsHistory(s, step, t, id);
    forall h <- t.cache.sets ensures id !in t.cache.sets[h].entries {
      assert SetInv(t, h);
      if h in s.cache.sets { assert SetInv(s, h); }
    }
  }

  lemma WithdrawnStays(s: System, step: Step, t: System, id: Id)
    requires Inv(s) && Becomes(s, step, t) && Withdrawn(s, id)
    ensures Withdrawn(t, id)
  {
    hide Bounded, SetInv;
    StepKeepsHistory(s, step, t, id);
    forall h <- t.cache.sets ensures id !in t.cache.sets[h].entries {
      hide Next, Becomes;
      SetsComeFrom(s.cache, step, t.cache, h);
      if Succeeds(step) { PublishedIdsAreNew(s.cache, step, t.cache); }
    }
  }

  lemma {:induction false} WithdrawnForGood(states: seq<System>, steps: seq<Step>, n: nat, m: nat, id: Id)
    requires IsRun(states, steps) && n <= m <= |steps| && Withdrawn(states[n], id)
    ensures Withdrawn(states[m], id)
  {
    hide Becomes, Inv, Withdrawn;
    if n < m {
      WithdrawnForGood(states, steps, n, m - 1, id);
      RunKeepsInv(states, steps, m - 1);
      assert Becomes(states[m - 1], steps[m - 1], states[m - 1 + 1]);
      WithdrawnStays(states[m - 1], steps[m - 1], states[m], id);
    }
  }

  /**
   Over every run: once its host or session is revoked, its host is published anew or the cache is sealed, an id
   never resolves again, whatever happens afterwards.
   */
  lemma RevokedIdsAreDead(states: seq<System>, steps: seq<Step>, k: nat, i: nat, o: Operation, r: nat, n: nat)
    requires IsRun(states, steps) && k < r < n < |steps|
    requires Succeeds(steps[k]) && i < |steps[k].published.value|
    requires IdOf(steps[k].published.value[i], o).Some?
    requires Withdraws(steps[r], steps[k].binding)
    requires steps[n].Resolve? && Some(steps[n].id) == IdOf(steps[k].published.value[i], o)
    ensures steps[n].unit.Err?
  {
    hide Becomes, Inv, IdOf, Withdrawn;
    var id := steps[n].id;
    assert Becomes(states[k], steps[k], states[k + 1]);
    ShownIdIsIssued(states[k], steps[k], states[k + 1], i, o);
    HistoryStays(states, steps, k + 1, r, id);
    RunKeepsInv(states, steps, r);
    RunKeepsInv(states, steps, r + 1);
    assert Becomes(states[r], steps[r], states[r + 1]);
    WithdrawalReaches(states[r], steps[r], states[r + 1], id);
    WithdrawnForGood(states, steps, r + 1, n, id);
    assert Becomes(states[n], steps[n], states[n + 1]);
    WithdrawnIsUnknown(states[n], steps[n], states[n + 1]);
  }

  lemma WithdrawnIsUnknown(s: System, step: Step, t: System)
    requires Becomes(s, step, t) && step.Resolve? && Withdrawn(s, step.id)
    ensures step.unit.Err?
  {
  }
}
