/**
 The store of file-operation plans and editor documents: two maps, linked by the way an
 editor document is in use. The functions on `Store` say what each critical section does;
 the class `FilePlanStore` is the code, proved against them. Every critical section reads
 the clock once.
 */
module FilePlans {
  import opened Common
  import RemotePaths

  const PLAN_LIFETIME: nat := 5 * 60
  const DOCUMENT_LIFETIME: nat := 60 * 60
  const PLAN_CAP: nat := 100

  type PlanId = nat
  type DocumentId = nat

  datatype DocumentUse = Ready | Planning(reservation: PlanId) | Pending(plan: PlanId)

  datatype Document = Document(owner: Owner, path: string, expires: nat, use: DocumentUse)

  /** What an approved plan would do; `owner` is the connection it was made for. */
  datatype Plan = Plan(owner: Owner, payload: seq<byte>)

  /** `plan` is taken out when the plan is executed. */
  datatype StoredPlan = StoredPlan(plan: Option<Plan>, expires: nat, document: Option<DocumentId>)

  datatype Store = Store(plans: map<PlanId, StoredPlan>, documents: map<DocumentId, Document>)

  // ----- What each critical section does -----

  /** `release_editor_reservation`: only the expected use is released, and an expired document is dropped. */
  function Release(documents: map<DocumentId, Document>, id: DocumentId, expected: DocumentUse, now: nat)
    : (r: (map<DocumentId, Document>, bool))
  {
    if id !in documents || documents[id].use != expected then (documents, false)
    else if documents[id].expires <= now then (documents - {id}, false)
    else (documents[id := documents[id].(use := Ready)], true)
  }

  function ReleaseIf(documents: map<DocumentId, Document>, id: Option<DocumentId>, expected: DocumentUse, now: nat)
    : map<DocumentId, Document>
  {
    if id.Some? then Release(documents, id.value, expected, now).0 else documents
  }

  /** The document a new registration of `path` retires: expired ones and the one it replaces. */
  predicate Retires(d: Document, owner: Owner, path: string, now: nat) {
    d.expires <= now || (d.owner == owner && d.path == path)
  }

  function RetiredBy(documents: map<DocumentId, Document>, owner: Owner, path: string, now: nat): set<DocumentId> {
    set d | d in documents && Retires(documents[d], owner, path, now)
  }

  function WithoutDocuments(plans: map<PlanId, StoredPlan>, retired: set<DocumentId>): map<PlanId, StoredPlan> {
    map p | p in plans && !(plans[p].document.Some? && plans[p].document.value in retired) :: plans[p]
  }

  function Register(s: Store, id: DocumentId, owner: Owner, path: string, now: nat): (Store, Result<DocumentId>) {
    if !RemotePaths.ValidPath(path) then (s, Err(FilePolicy))
    else
      var retired := RetiredBy(s.documents, owner, path, now);
      var kept := Store(WithoutDocuments(s.plans, retired), s.documents - retired);
      if |kept.documents| >= PLAN_CAP then (kept, Err(FilePolicy))
      else (kept.(documents := kept.documents[id := Document(owner, path, now + DOCUMENT_LIFETIME, Ready)]), Ok(id))
  }

  /** Drops plan `p` if it belongs to document `id`. */
  function WithoutPlanOf(plans: map<PlanId, StoredPlan>, p: PlanId, id: DocumentId): map<PlanId, StoredPlan> {
    if p in plans && plans[p].document == Some(id) then plans - {p} else plans
  }

  /** A document goes together with the plan it is pending on. */
  function Retire(s: Store, id: DocumentId): Store
    requires id in s.documents
  {
    Store(if s.documents[id].use.Pending? then WithoutPlanOf(s.plans, s.documents[id].use.plan, id) else s.plans,
          s.documents - {id})
  }

  function DiscardDocument(s: Store, id: DocumentId, owner: Owner): (Store, Result<()>) {
    if id !in s.documents then (s, Ok(()))
    else if s.documents[id].owner != owner then (s, Err(FilePolicy))
    else (Retire(s, id), Ok(()))
  }

  predicate CanReserve(s: Store, id: DocumentId, owner: Owner, now: nat) {
    && id in s.documents && s.documents[id].expires > now
    && s.documents[id].owner == owner && s.documents[id].use.Ready?
  }

  /** The first critical section of `plan_editor_save`. */
  function Reserve(s: Store, id: DocumentId, owner: Owner, reservation: PlanId, now: nat): (Store, Result<()>) {
    if CanReserve(s, id, owner, now)
    then (s.(documents := s.documents[id := s.documents[id].(use := Planning(reservation))]), Ok(()))
    else (s, Err(FilePolicy))
  }

  function Live(plans: map<PlanId, StoredPlan>, now: nat): map<PlanId, StoredPlan> {
    map p | p in plans && plans[p].expires > now && plans[p].plan.Some? :: plans[p]
  }

  /** `insert_with_id` forgets expired and executed plans, then stores the new one if it fits. */
  function Insert(plans: map<PlanId, StoredPlan>, id: PlanId, plan: Plan, document: Option<DocumentId>, now: nat)
    : (map<PlanId, StoredPlan>, Result<()>)
  {
    var live := Live(plans, now);
    if |live| >= PLAN_CAP then (live, Err(FilePolicy))
    else (live[id := StoredPlan(Some(plan), now + PLAN_LIFETIME, document)], Ok(()))
  }

  predicate Reserved(s: Store, id: DocumentId, reservation: PlanId) {
    id in s.documents && s.documents[id].use == Planning(reservation)
  }

  /** The last critical section of `plan_editor_save`. */
  function Publish(s: Store, id: DocumentId, owner: Owner, reservation: PlanId, payload: seq<byte>, now: nat)
    : (Store, Result<()>)
  {
    if !Reserved(s, id, reservation) || s.documents[id].expires <= now || s.documents[id].owner != owner
    then (s, Err(FilePolicy))
    else
      var (plans, r) := Insert(s.plans, reservation, Plan(owner, payload), Some(id), now);
      if r.Err? then (s.(plans := plans), r)
      else (Store(plans, s.documents[id := s.documents[id].(use := Pending(reservation))]), r)
  }

  function Discard(s: Store, id: PlanId, owner: Owner, now: nat): (Store, Result<bool>) {
    if id !in s.plans then (s, Ok(false))
    else
      var stored := s.plans[id];
      var rest := s.plans - {id};
      if stored.expires <= now
      then (Store(rest, ReleaseIf(s.documents, stored.document, Pending(id), now)), Ok(false))
      else if stored.plan.None? then (s.(plans := rest), Ok(false))
      else if stored.plan.value.owner != owner then (s, Err(FilePolicy))
      else if stored.document.None? then (s.(plans := rest), Ok(true))
      else
        var (documents, released) := Release(s.documents, stored.document.value, Pending(id), now);
        (Store(rest, documents), Ok(released))
  }

  predicate Authorized(s: Store, id: PlanId, document: DocumentId, owner: Owner, now: nat) {
    && document in s.documents && s.documents[document].expires > now
    && s.documents[document].use == Pending(id) && s.documents[document].owner == owner
  }

  /** A plan is executable through its deadline, not past it. */
  function Consume(s: Store, id: PlanId, owner: Owner, now: nat): (Store, Result<Plan>) {
    if id !in s.plans then (s, Err(FilePolicy))
    else
      var stored := s.plans[id];
      if now > stored.expires
      then (Store(s.plans - {id}, ReleaseIf(s.documents, stored.document, Pending(id), now)), Err(FilePolicy))
      else if stored.plan.None? || stored.plan.value.owner != owner then (s, Err(FilePolicy))
      else if stored.document.Some? && !Authorized(s, id, stored.document.value, owner, now)
      then (s.(plans := s.plans - {id}), Err(FilePolicy))
      else (Store(s.plans[id := stored.(plan := None)],
                  if stored.document.Some? then s.documents - {stored.document.value} else s.documents),
            Ok(stored.plan.value))
  }

  /** The task that runs at a plan's deadline. */
  function PlanExpires(s: Store, id: PlanId, expires: nat, document: Option<DocumentId>, now: nat): Store {
    Store(if id in s.plans && s.plans[id].expires == expires then s.plans - {id} else s.plans,
          ReleaseIf(s.documents, document, Pending(id), now))
  }

  /** The task that runs at a document's deadline. */
  function DocumentExpires(s: Store, id: DocumentId, expires: nat): Store {
    if id in s.documents && s.documents[id].expires == expires then Retire(s, id) else s
  }

  function RevokeSession(s: Store, host: HostId, session: HostSessionId): Store {
    Store(map p | p in s.plans && s.plans[p].plan.Some?
            && !(s.plans[p].plan.value.owner.host == host && s.plans[p].plan.value.owner.session == session)
            :: s.plans[p],
          map d | d in s.documents
            && !(s.documents[d].owner.host == host && s.documents[d].owner.session == session) :: s.documents[d])
  }

  // ----- The code -----

  class FilePlanStore {
    var plans: map<PlanId, StoredPlan>
    var documents: map<DocumentId, Document>

    ghost function State(): Store
      reads this
    {
      Store(plans, documents)
    }

    constructor ()
      ensures State() == Store(map[], map[])
    {
      plans, documents := map[], map[];
    }

    method ReleaseReservation(id: DocumentId, expected: DocumentUse, now: nat) returns (released: bool)
      modifies this`documents
      ensures (documents, released) == Release(old(documents), id, expected, now)
    {
      if id !in documents { return false; }
      if documents[id].use != expected { return false; }
      if documents[id].expires <= now {
        documents := documents - {id};
        return false;
      }
      documents := documents[id := documents[id].(use := Ready)];
      return true;
    }

    method RegisterDocument(id: DocumentId, owner: Owner, path: string, now: nat) returns (r: Result<DocumentId>)
      modifies this
      ensures (State(), r) == Register(old(State()), id, owner, path, now)
    {
      if !RemotePaths.ValidPath(path) { return Err(FilePolicy); }
      var retired: set<DocumentId> := {};
      var rest := documents.Keys;
      while rest != {}
        invariant rest <= documents.Keys
        invariant retired == set d | d in documents && d !in rest && Retires(documents[d], owner, path, now)
        decreases rest
      {
        var d :| d in rest;
        if documents[d].expires <= now || (documents[d].owner == owner && documents[d].path == path) {
          retired := retired + {d};
        }
        rest := rest - {d};
      }
      assert retired == RetiredBy(documents, owner, path, now);
      documents := documents - retired;
      if retired != {} {
        plans := WithoutDocuments(plans, retired);
      } else {
        assert WithoutDocuments(plans, retired) == plans;
      }
      if |documents| >= PLAN_CAP { return Err(FilePolicy); }
      documents := documents[id := Document(owner, path, now + DOCUMENT_LIFETIME, Ready)];
      return Ok(id);
    }

    method CloseDocument(id: DocumentId, owner: Owner) returns (r: Result<()>)
      modifies this
      ensures (State(), r) == DiscardDocument(old(State()), id, owner)
    {
      if id !in documents { return Ok(()); }
      if documents[id].owner != owner { return Err(FilePolicy); }
      RetireDocument(id);
      return Ok(());
    }

    method RetireDocument(id: DocumentId)
      requires id in documents
      modifies this
      ensures State() == Retire(old(State()), id)
    {
      var use := documents[id].use;
      documents := documents - {id};
      if use.Pending? && use.plan in plans && plans[use.plan].document == Some(id) {
        plans := plans - {use.plan};
      }
    }

    method ReserveDocument(id: DocumentId, owner: Owner, reservation: PlanId, now: nat) returns (r: Result<()>)
      modifies this`documents
      ensures (State(), r) == Reserve(old(State()), id, owner, reservation, now)
    {
      if id !in documents { return Err(FilePolicy); }
      if documents[id].expires <= now || documents[id].owner != owner { return Err(FilePolicy); }
      if documents[id].use != Ready { return Err(FilePolicy); }
      documents := documents[id := documents[id].(use := Planning(reservation))];
      return Ok(());
    }

    method InsertPlan(id: PlanId, plan: Plan, document: Option<DocumentId>, now: nat) returns (r: Result<()>)
      modifies this`plans
      ensures (plans, r) == Insert(old(plans), id, plan, document, now)
    {
      plans := Live(plans, now);
      if |plans| >= PLAN_CAP { return Err(FilePolicy); }
      plans := plans[id := StoredPlan(Some(plan), now + PLAN_LIFETIME, document)];
      return Ok(());
    }

    method PublishSave(id: DocumentId, owner: Owner, reservation: PlanId, payload: seq<byte>, now: nat)
      returns (r: Result<()>)
      modifies this
      ensures (State(), r) == Publish(old(State()), id, owner, reservation, payload, now)
    {
      if id !in documents { return Err(FilePolicy); }
      if documents[id].expires <= now || documents[id].use != Planning(reservation) || documents[id].owner != owner {
        return Err(FilePolicy);
      }
      r := InsertPlan(reservation, Plan(owner, payload), Some(id), now);
      if r.Ok? {
        documents := documents[id := documents[id].(use := Pending(reservation))];
      }
    }

    method DiscardPlan(id: PlanId, owner: Owner, now: nat) returns (r: Result<bool>)
      modifies this
      ensures (State(), r) == Discard(old(State()), id, owner, now)
    {
      if id !in plans { return Ok(false); }
      var stored := plans[id];
      if stored.expires <= now {
        plans := plans - {id};
        if stored.document.Some? {
          var _ := ReleaseReservation(stored.document.value, Pending(id), now);
        }
        return Ok(false);
      }
      if stored.plan.None? {
        plans := plans - {id};
        return Ok(false);
      }
      if stored.plan.value.owner != owner { return Err(FilePolicy); }
      plans := plans - {id};
      if stored.document.Some? {
        var released := ReleaseReservation(stored.document.value, Pending(id), now);
        return Ok(released);
      }
      return Ok(true);
    }

    method ConsumePlan(id: PlanId, owner: Owner, now: nat) returns (r: Result<Plan>)
      modifies this
      ensures (State(), r) == Consume(old(State()), id, owner, now)
    {
      if id in plans && now > plans[id].expires {
        var document := plans[id].document;
        plans := plans - {id};
        if document.Some? {
          var _ := ReleaseReservation(document.value, Pending(id), now);
        }
        return Err(FilePolicy);
      }
      if id !in plans { return Err(FilePolicy); }
      var stored := plans[id];
      if stored.plan.None? || stored.plan.value.owner != owner { return Err(FilePolicy); }
      if stored.document.Some? {
        if !Authorized(Store(plans, documents), id, stored.document.value, owner, now) {
          plans := plans - {id};
          return Err(FilePolicy);
        }
        documents := documents - {stored.document.value};
      }
      plans := plans[id := stored.(plan := None)];
      return Ok(stored.plan.value);
    }

    method ExpirePlan(id: PlanId, expires: nat, document: Option<DocumentId>, now: nat)
      modifies this
      ensures State() == PlanExpires(old(State()), id, expires, document, now)
    {
      if id in plans && plans[id].expires == expires {
        plans := plans - {id};
      }
      if document.Some? {
        var _ := ReleaseReservation(document.value, Pending(id), now);
      }
    }

    method ExpireDocument(id: DocumentId, expires: nat)
      modifies this
      ensures State() == DocumentExpires(old(State()), id, expires)
    {
      if id in documents && documents[id].expires == expires {
        RetireDocument(id);
      }
    }

    method RevokeForSession(host: HostId, session: HostSessionId)
      modifies this
      ensures State() == RevokeSession(old(State()), host, session)
    {
      documents := map d | d in documents
        && (documents[d].owner.host != host || documents[d].owner.session != session) :: documents[d];
      plans := map p | p in plans && plans[p].plan.Some?
        && (plans[p].plan.value.owner.host != host || plans[p].plan.value.owner.session != session) :: plans[p];
    }
  }
}
