/**
 The one-shot authority store for remote operations: pending plans, an index by host, and a
 seal. `Authorities` and its functions say what each critical section does, `Plans` is the
 simple store it implements (at most one unexpired plan per host), and the class `Store` is
 the code.
 */
module AuthorityStore {
  import opened Common

  const PLAN_TTL: nat := 120

  type PlanId = nat

  /** The identity of an authenticated backend session. */
  datatype Binding = Binding(host: HostId, session: HostSessionId, generation: nat)

  datatype Operation = ResetFailed | TryRestart | Reload | Start

  datatype Risk = Moderate | High

  function RiskOf(o: Operation): Risk {
    if o.ResetFailed? then Moderate else High
  }

  datatype Authority = Authority(binding: Binding, operation: Operation, risk: Risk, unit: string,
                                 issuedAt: nat, expiresAt: nat)

  datatype Authorities = Authorities(pending: map<PlanId, Authority>, byHost: map<HostId, PlanId>, sealed: bool)

  datatype Receipt = Receipt(id: PlanId, binding: Binding, risk: Risk, expiresAt: nat, superseded: Option<PlanId>)

  const EMPTY := Authorities(map[], map[], false)

  // ----- What each critical section does -----

  /** `remove_id` drops the host's index entry only if it points to this plan. */
  function RemoveId(s: Authorities, id: PlanId): Authorities {
    if id !in s.pending then s
    else
      var host := s.pending[id].binding.host;
      Authorities(s.pending - {id},
                  if host in s.byHost && s.byHost[host] == id then s.byHost - {host} else s.byHost,
                  s.sealed)
  }

  function Expired(s: Authorities, now: nat): set<PlanId> {
    set id | id in s.pending && s.pending[id].expiresAt <= now
  }

  function Without(s: Authorities, gone: set<PlanId>): Authorities {
    Authorities(s.pending - gone, map h | h in s.byHost && s.byHost[h] !in gone :: s.byHost[h], s.sealed)
  }

  function RemoveExpired(s: Authorities, now: nat): Authorities {
    Without(s, Expired(s, now))
  }

  /** The host's plan, if any, gives way to a new one. */
  function Replace(s: Authorities, id: PlanId, a: Authority): Authorities {
    var host := a.binding.host;
    var rest := if host in s.byHost then s.pending - {s.byHost[host]} else s.pending;
    Authorities(rest[id := a], s.byHost[host := id], s.sealed)
  }

  function Insert(s: Authorities, id: PlanId, draft: Binding, current: Binding, o: Operation, unit: string, now: nat)
    : (Authorities, Result<Receipt>)
  {
    if draft != current || s.sealed then (s, Err(ErrorCode.Conflict))
    else
      var live := RemoveExpired(s, now);
      var superseded := if draft.host in live.byHost then Some(live.byHost[draft.host]) else None;
      (Replace(live, id, Authority(draft, o, RiskOf(o), unit, now, now + PLAN_TTL)),
       Ok(Receipt(id, draft, RiskOf(o), now + PLAN_TTL, superseded)))
  }

  /** The checks that consume and discard share; `None` means the plan may be taken. */
  function Refusal(s: Authorities, id: PlanId, expected: Binding, o: Operation): Option<ErrorCode>
    requires id in s.pending
  {
    if s.pending[id].binding != expected then Some(ErrorCode.Conflict)
    else if s.pending[id].operation != o || s.pending[id].risk != RiskOf(o) then Some(ErrorCode.Policy)
    else None
  }

  function Consume(s: Authorities, id: PlanId, expected: Binding, o: Operation, now: nat)
    : (Authorities, Result<Authority>)
  {
    if id in s.pending && s.pending[id].expiresAt <= now then (RemoveId(s, id), Err(ErrorCode.Conflict))
    else if id !in s.pending then (s, Err(ErrorCode.Conflict))
    else if Refusal(s, id, expected, o).Some? then (s, Err(Refusal(s, id, expected, o).value))
    else (RemoveId(s, id), Ok(s.pending[id]))
  }

  function Discard(s: Authorities, id: PlanId, expected: Binding, o: Operation, now: nat)
    : (Authorities, Result<bool>)
  {
    if id in s.pending && s.pending[id].expiresAt <= now then (RemoveId(s, id), Ok(false))
    else if id !in s.pending then (s, Ok(false))
    else if Refusal(s, id, expected, o).Some? then (s, Err(Refusal(s, id, expected, o).value))
    else (RemoveId(s, id), Ok(true))
  }

  function RevokeHost(s: Authorities, host: HostId): (Authorities, bool) {
    if host !in s.byHost then (s, false)
    else (s.(pending := s.pending - {s.byHost[host]}, byHost := s.byHost - {host}), s.byHost[host] in s.pending)
  }

  function RevokeSession(s: Authorities, host: HostId, session: HostSessionId): (Authorities, bool) {
    if host in s.byHost && s.byHost[host] in s.pending && s.pending[s.byHost[host]].binding.session == session
    then (RemoveId(s, s.byHost[host]), true)
    else (s, false)
  }

  function RevokeAll(s: Authorities): Authorities {
    s.(pending := map[], byHost := map[])
  }

  function Seal(s: Authorities): Authorities {
    Authorities(map[], map[], true)
  }

  /** The expiry task of one plan. */
  function Expire(s: Authorities, id: PlanId, expires: nat): Authorities {
    if id in s.pending && s.pending[id].expiresAt == expires then RemoveId(s, id) else s
  }

  // ----- The invariant -----

  /** `pending` and `byHost` are inverse to each other, and a sealed store is empty. */
  ghost predicate Inverse(s: Authorities) {
    && (forall id <- s.pending ::
          s.pending[id].binding.host in s.byHost && s.byHost[s.pending[id].binding.host] == id)
    && (forall h <- s.byHost :: s.byHost[h] in s.pending && s.pending[s.byHost[h]].binding.host == h)
    && (s.sealed ==> s.pending == map[])
  }

  lemma RemoveIdKeepsInverse(s: Authorities, id: PlanId)
    requires Inverse(s)
    ensures Inverse(RemoveId(s, id)) && RemoveId(s, id).pending == s.pending - {id}
  {
  }

  lemma WithoutNone(s: Authorities)
    ensures Without(s, {}) == s
  {
  }

  lemma WithoutOneMore(s: Authorities, gone: set<PlanId>, id: PlanId)
    requires Inverse(s) && id in s.pending && id !in gone
    ensures RemoveId(Without(s, gone), id) == Without(s, gone + {id})
  {
  }

  lemma RemoveExpiredKeepsInverse(s: Authorities, now: nat)
    requires Inverse(s)
    ensures Inverse(RemoveExpired(s, now))
  {
  }

  lemma InsertKeepsInverse(s: Authorities, id: PlanId, b: Binding, c: Binding, o: Operation, unit: string, now: nat)
    requires Inverse(s) && id !in s.pending
    ensures Inverse(Insert(s, id, b, c, o, unit, now).0)
  {
    hide Without, Replace, Inverse, View;
    if b == c && !s.sealed {
      ExpiredAreInvisible(s, now);
      ReplaceKeepsInverse(RemoveExpired(s, now), id, Authority(b, o, RiskOf(o), unit, now, now + PLAN_TTL));
    }
  }

  /** Every operation keeps the two maps inverse. */
  lemma OperationsKeepInverse(s: Authorities, id: PlanId, b: Binding, c: Binding, o: Operation, unit: string, now: nat)
    requires Inverse(s)
    ensures id !in s.pending ==> Inverse(Insert(s, id, b, c, o, unit, now).0)
    ensures Inverse(Consume(s, id, b, o, now).0) && Inverse(Discard(s, id, b, o, now).0)
    ensures Inverse(RevokeHost(s, b.host).0) && Inverse(RevokeSession(s, b.host, b.session).0)
    ensures Inverse(RevokeAll(s)) && Inverse(Seal(s)) && Inverse(Expire(s, id, now))
  {
    hide RemoveId, Insert, View;
    RemoveIdKeepsInverse(s, id);
    if b.host in s.byHost { RemovalRefines(s, b.host, now); }
    if id !in s.pending { InsertKeepsInverse(s, id, b, c, o, unit, now); }
  }

  // ----- The simple store it implements -----

  /** At most one plan per host. */
  type Plans = map<HostId, (PlanId, Authority)>

  /** The unexpired plans at time `now`. */
  function View(s: Authorities, now: nat): Plans
    requires Inverse(s)
  {
    map h | h in s.byHost && s.pending[s.byHost[h]].expiresAt > now :: (s.byHost[h], s.pending[s.byHost[h]])
  }

  lemma ExpiredAreInvisible(s: Authorities, now: nat)
    requires Inverse(s)
    ensures var live := RemoveExpired(s, now);
      && Inverse(live) && View(live, now) == View(s, now)
      && live.byHost == (map h | h in View(s, now) :: View(s, now)[h].0)
      && live.pending.Keys <= s.pending.Keys && live.sealed == s.sealed
  {
    RemoveExpiredKeepsInverse(s, now);
  }

  lemma ReplaceKeepsInverse(s: Authorities, id: PlanId, a: Authority)
    requires Inverse(s) && id !in s.pending && !s.sealed
    ensures Inverse(Replace(s, id, a))
  {
    var t := Replace(s, id, a);
    forall h <- t.byHost
      ensures t.byHost[h] in t.pending && t.pending[t.byHost[h]].binding.host == h
    {
    }
  }

  lemma ReplaceRefines(s: Authorities, id: PlanId, a: Authority, now: nat)
    requires Inverse(s) && id !in s.pending && !s.sealed && a.expiresAt > now
    ensures Inverse(Replace(s, id, a))
    ensures View(Replace(s, id, a), now) == View(s, now)[a.binding.host := (id, a)]
  {
    ReplaceKeepsInverse(s, id, a);
    var t := Replace(s, id, a);
    forall h <- s.byHost | h != a.binding.host
      ensures t.byHost[h] == s.byHost[h] && t.pending[t.byHost[h]] == s.pending[s.byHost[h]]
    {
    }
  }

  /** Publication replaces the host's unexpired plan, if any, and the receipt names exactly that plan. */
  lemma InsertRefines(s: Authorities, id: PlanId, draft: Binding, current: Binding,
                      o: Operation, unit: string, now: nat)
    requires Inverse(s) && id !in s.pending
    ensures var (t, r) := Insert(s, id, draft, current, o, unit, now);
      && Inverse(t)
      && (r.Ok? <==> draft == current && !s.sealed)
      && (r.Ok? ==>
            && View(t, now) == View(s, now)[draft.host :=
                 (id, Authority(draft, o, RiskOf(o), unit, now, now + PLAN_TTL))]
            && (var (plan, a) := View(t, now)[draft.host];
                r.value.id == plan && r.value.binding == a.binding == draft && r.value.risk == a.risk
                && r.value.expiresAt == a.expiresAt)
            && r.value.superseded ==
                 (if draft.host in View(s, now) then Some(View(s, now)[draft.host].0) else None))
      && (r.Err? ==> r.code == ErrorCode.Conflict && t == s)
  {
    hide RemoveExpired, View, Inverse;
    if draft == current && !s.sealed {
      RemoveExpiredKeepsInverse(s, now);
      ExpiredAreInvisible(s, now);
      ReplaceRefines(RemoveExpired(s, now), id, Authority(draft, o, RiskOf(o), unit, now, now + PLAN_TTL), now);
    }
  }

  /** A plan is taken exactly when it is its host's unexpired plan and identity and operation match. */
  ghost predicate Takes(v: Plans, id: PlanId, b: Binding, o: Operation) {
    b.host in v && v[b.host].0 == id && v[b.host].1.binding == b
    && v[b.host].1.operation == o && v[b.host].1.risk == RiskOf(o)
  }

  /** The plan is there, for exactly this binding. */
  ghost predicate IsBound(v: Plans, id: PlanId, b: Binding) {
    b.host in v && v[b.host].0 == id && v[b.host].1.binding == b
  }

  /** Asking for a plan leaves the others as they are, and does not keep it past its deadline. */
  ghost predicate IsSettled(s: Authorities, t: Authorities, id: PlanId, now: nat) {
    && t.sealed == s.sealed && t.pending - {id} == s.pending - {id}
    && (id in t.pending ==> now < t.pending[id].expiresAt)
  }

  lemma ConsumeRefines(s: Authorities, id: PlanId, b: Binding, o: Operation, now: nat)
    requires Inverse(s)
    ensures var (t, r) := Consume(s, id, b, o, now);
      && Inverse(t)
      && (r.Ok? <==> Takes(View(s, now), id, b, o))
      && (r.Err? ==> r.code == if IsBound(View(s, now), id, b) then ErrorCode.Policy else ErrorCode.Conflict)
      && (if r.Ok? then r.value == View(s, now)[b.host].1 && View(t, now) == View(s, now) - {b.host}
          else View(t, now) == View(s, now))
  {
    hide RemoveId;
    if id in s.pending { RemovalRefines(s, s.pending[id].binding.host, now); }
  }

  lemma DiscardRefines(s: Authorities, id: PlanId, b: Binding, o: Operation, now: nat)
    requires Inverse(s)
    ensures var (t, r) := Discard(s, id, b, o, now);
      && Inverse(t)
      && (r == Ok(true) <==> Takes(View(s, now), id, b, o))
      && (r == Ok(false) <==> forall h <- View(s, now) :: View(s, now)[h].0 != id)
      && (r.Err? ==> r.code == if IsBound(View(s, now), id, b) then ErrorCode.Policy else ErrorCode.Conflict)
      && View(t, now) == if r == Ok(true) then View(s, now) - {b.host} else View(s, now)
  {
    hide RemoveId;
    if id in s.pending {
      var host := s.pending[id].binding.host;
      RemovalRefines(s, host, now);
      assert now < s.pending[id].expiresAt ==> host in View(s, now) && View(s, now)[host].0 == id;
    }
  }

  lemma AskingSettles(s: Authorities, id: PlanId, b: Binding, o: Operation, now: nat)
    ensures IsSettled(s, Consume(s, id, b, o, now).0, id, now) && IsSettled(s, Discard(s, id, b, o, now).0, id, now)
  {
  }

  /** Nothing is consumed at or after its deadline, and what was consumed is gone. */
  lemma ConsumedInTime(s: Authorities, id: PlanId, b: Binding, o: Operation, now: nat)
    requires Inverse(s) && Consume(s, id, b, o, now).1.Ok?
    ensures id in s.pending && now < s.pending[id].expiresAt
    ensures var t := Consume(s, id, b, o, now).0; id !in t.pending && b.host !in t.byHost
    ensures forall later :: Consume(Consume(s, id, b, o, now).0, id, b, o, later).1.Err?
  {
  }

  /** Removing the plan of a host removes it from view, and nothing else. */
  lemma RemovalRefines(s: Authorities, host: HostId, now: nat)
    requires Inverse(s) && host in s.byHost
    ensures var t := RemoveId(s, s.byHost[host]); Inverse(t) && View(t, now) == View(s, now) - {host}
    ensures RevokeHost(s, host) == (RemoveId(s, s.byHost[host]), true)
  {
    RemoveIdKeepsInverse(s, s.byHost[host]);
  }

  /** Revocation removes exactly what it names. */
  lemma RevocationRefines(s: Authorities, host: HostId, session: HostSessionId, now: nat)
    requires Inverse(s)
    ensures var (t, r) := RevokeHost(s, host);
      && Inverse(t) && View(t, now) == View(s, now) - {host}
      && (r <==> exists p <- s.pending :: s.pending[p].binding.host == host)
    ensures var (t, r) := RevokeSession(s, host, session);
      && Inverse(t) && (r <==> exists p <- s.pending ::
           s.pending[p].binding.host == host && s.pending[p].binding.session == session)
      && View(t, now) == (if host in View(s, now) && View(s, now)[host].1.binding.session == session
                          then View(s, now) - {host} else View(s, now))
  {
    if host in s.byHost {
      hide RemoveId;
      RemovalRefines(s, host, now);
    }
  }

  /** The seal and `revoke_all` leave nothing; an expiry task removes nothing that is still valid. */
  lemma ClearingRefines(s: Authorities, id: PlanId, expires: nat, now: nat)
    requires Inverse(s)
    ensures Inverse(Seal(s)) && View(Seal(s), now) == map[]
    ensures Inverse(RevokeAll(s)) && View(RevokeAll(s), now) == map[]
    ensures expires <= now ==> Inverse(Expire(s, id, expires)) && View(Expire(s, id, expires), now) == View(s, now)
    ensures id in Expire(s, id, expires).pending <==> id in s.pending && s.pending[id].expiresAt != expires
  {
    hide RemoveId;
    if id in s.pending { RemovalRefines(s, s.pending[id].binding.host, now); }
  }

  // ----- The code -----

  class Store {
    var pending: map<PlanId, Authority>
    var byHost: map<HostId, PlanId>
    var isSealed: bool

    ghost function State(): Authorities
      reads this
    {
      Authorities(pending, byHost, isSealed)
    }

    constructor ()
      ensures State() == EMPTY && Inverse(State())
    {
      pending, byHost, isSealed := map[], map[], false;
    }

    method DropId(id: PlanId) returns (removed: Option<Authority>)
      modifies this`pending, this`byHost
      ensures State() == RemoveId(old(State()), id)
      ensures removed == if id in old(pending) then Some(old(pending)[id]) else None
    {
      if id !in pending { return None; }
      var authority := pending[id];
      pending := pending - {id};
      if authority.binding.host in byHost && byHost[authority.binding.host] == id {
        byHost := byHost - {authority.binding.host};
      }
      return Some(authority);
    }

    method DropExpired(now: nat)
      requires Inverse(State())
      modifies this`pending, this`byHost
      ensures State() == RemoveExpired(old(State()), now) && Inverse(State())
    {
      hide Inverse, Without, RemoveId;
      var expired := set id | id in pending && pending[id].expiresAt <= now;
      var rest := expired;
      WithoutNone(State());
      assert expired - rest == {};
      while rest != {}
        invariant rest <= expired && Inverse(State()) && State() == Without(old(State()), expired - rest)
        decreases rest
      {
        var id :| id in rest;
        RemoveIdKeepsInverse(State(), id);
        WithoutOneMore(old(State()), expired - rest, id);
        assert expired - rest + {id} == expired - (rest - {id});
        var _ := DropId(id);
        rest := rest - {id};
      }
      assert expired - {} == expired == Expired(old(State()), now);
    }

    method Publish(id: PlanId, draft: Binding, current: Binding, o: Operation, unit: string, now: nat)
      returns (r: Result<Receipt>)
      requires Inverse(State()) && id !in pending
      modifies this
      ensures (State(), r) == Insert(old(State()), id, draft, current, o, unit, now) && Inverse(State())
    {
      hide Inverse, RemoveExpired, Consume, Discard, RevokeHost, RevokeSession, Expire;
      OperationsKeepInverse(State(), id, draft, current, o, unit, now);
      if draft != current { return Err(ErrorCode.Conflict); }
      if isSealed { return Err(ErrorCode.Conflict); }
      DropExpired(now);
      var superseded := None;
      if draft.host in byHost {
        superseded := Some(byHost[draft.host]);
        byHost := byHost - {draft.host};
        pending := pending - {superseded.value};
      }
      pending := pending[id := Authority(draft, o, RiskOf(o), unit, now, now + PLAN_TTL)];
      byHost := byHost[draft.host := id];
      assert byHost == RemoveExpired(old(State()), now).byHost[draft.host := id];
      return Ok(Receipt(id, draft, RiskOf(o), now + PLAN_TTL, superseded));
    }

    method Take(id: PlanId, expected: Binding, o: Operation, now: nat) returns (r: Result<Authority>)
      requires Inverse(State())
      modifies this`pending, this`byHost
      ensures (State(), r) == Consume(old(State()), id, expected, o, now) && Inverse(State())
    {
      OperationsKeepInverse(State(), id, expected, expected, o, "", now);
      if id in pending && pending[id].expiresAt <= now {
        var _ := DropId(id);
        return Err(ErrorCode.Conflict);
      }
      if id !in pending { return Err(ErrorCode.Conflict); }
      if pending[id].binding != expected { return Err(ErrorCode.Conflict); }
      if pending[id].operation != o || pending[id].risk != RiskOf(o) { return Err(ErrorCode.Policy); }
      var removed := DropId(id);
      return Ok(removed.value);
    }

    method Forget(id: PlanId, expected: Binding, o: Operation, now: nat) returns (r: Result<bool>)
      requires Inverse(State())
      modifies this`pending, this`byHost
      ensures (State(), r) == Discard(old(State()), id, expected, o, now) && Inverse(State())
    {
      OperationsKeepInverse(State(), id, expected, expected, o, "", now);
      if id in pending && pending[id].expiresAt <= now {
        var _ := DropId(id);
        return Ok(false);
      }
      if id !in pending { return Ok(false); }
      if pending[id].binding != expected { return Err(ErrorCode.Conflict); }
      if pending[id].operation != o || pending[id].risk != RiskOf(o) { return Err(ErrorCode.Policy); }
      var removed := DropId(id);
      return Ok(removed.Some?);
    }

    method RevokeForHost(host: HostId) returns (revoked: bool)
      requires Inverse(State())
      modifies this`pending, this`byHost
      ensures (State(), revoked) == RevokeHost(old(State()), host) && Inverse(State())
    {
      if host !in byHost { return false; }
      var id := byHost[host];
      byHost := byHost - {host};
      revoked := id in pending;
      pending := pending - {id};
    }

    method RevokeForSession(host: HostId, session: HostSessionId) returns (revoked: bool)
      requires Inverse(State())
      modifies this`pending, this`byHost
      ensures (State(), revoked) == RevokeSession(old(State()), host, session) && Inverse(State())
    {
      if host !in byHost { return false; }
      var id := byHost[host];
      RemoveIdKeepsInverse(State(), id);
      if id in pending && pending[id].binding.session == session {
        var removed := DropId(id);
        return removed.Some?;
      }
      return false;
    }

    method SealAndRevokeAll()
      modifies this
      ensures State() == Seal(old(State())) && Inverse(State())
    {
      isSealed, pending, byHost := true, map[], map[];
    }
  }
}
