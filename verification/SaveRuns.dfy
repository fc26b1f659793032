/**
 An editor save from the opening of its document to its execution, in runs of the plan and document store: when
 a document opens, what may happen in between without harm, and that the save then goes through as planned.
 */
module SaveRuns {
  import opened Common
  import opened FilePlans
  import opened FilePlanRuns
  import RemotePaths

  /** The calls that end what plan `id` has begun with document `d`. */
  predicate Disturbs(call: Call, d: DocumentId, id: PlanId, document: Document) {
    match call
    case Open(_, owner, path) => owner == document.owner && path == document.path
    case Close(e, owner) => e == d && owner == document.owner
    case BeginSave(e, owner, _) => document.use.Ready? && e == d && owner == document.owner
    case FinishSave(i, _) => i == id
    case DropGuard(i) => i == id
    case DiscardCall(i, owner) => i == id && owner == document.owner
    case Execute(i, owner) => i == id && owner == document.owner
    case Revoke(host, session) => host == document.owner.host && session == document.owner.session
    case ClearDocuments => true
    case ClearPlans => document.use.Pending?
    case _ => false
  }

  ghost predicate Has(s: Store, d: DocumentId, document: Document) {
    d in s.documents && s.documents[d] == document
  }

  /** The document is free, or plan `id` uses it. */
  ghost predicate IsFor(document: Document, id: PlanId) {
    document.use.Ready? || document.use == Planning(id) || document.use == Pending(id)
  }

  // ----- Opening -----

  /** The documents that an opening of `path` leaves alone: unexpired, and not this connection's of this path. */
  ghost function Others(s: Store, owner: Owner, path: string, now: nat): set<DocumentId> {
    set e | e in s.documents && now < s.documents[e].expires
            && !(s.documents[e].owner == owner && s.documents[e].path == path)
  }

  ghost predicate GoesWith(s: Store, p: PlanId, gone: set<DocumentId>)
    requires p in s.plans
  {
    s.plans[p].document.Some? && s.plans[p].document.value in gone
  }

  lemma OthersAreKept(s: Store, owner: Owner, path: string, now: nat)
    ensures (s.documents - RetiredBy(s.documents, owner, path, now)).Keys == Others(s, owner, path, now)
    ensures RetiredBy(s.documents, owner, path, now) == s.documents.Keys - Others(s, owner, path, now)
  {
  }

  /** The store once an opening has retired what it retires. */
  function Kept(s: Store, owner: Owner, path: string, now: nat): Store {
    var retired := RetiredBy(s.documents, owner, path, now);
    Store(WithoutDocuments(s.plans, retired), s.documents - retired)
  }

  lemma KeptDocuments(s: Store, owner: Owner, path: string, now: nat)
    ensures Kept(s, owner, path, now).documents.Keys == Others(s, owner, path, now)
    ensures |Kept(s, owner, path, now).documents| == |Others(s, owner, path, now)|
  {
    hide RetiredBy, Others, WithoutDocuments;
    OthersAreKept(s, owner, path, now);
    var documents := Kept(s, owner, path, now).documents;
    assert |documents| == |documents.Keys|;
  }

  lemma RegisterApplies(s: Store, d: DocumentId, owner: Owner, path: string, now: nat)
    ensures var kept := Kept(s, owner, path, now);
      Register(s, d, owner, path, now) ==
        if !RemotePaths.ValidPath(path) then (s, Err(FilePolicy))
        else if |kept.documents| >= PLAN_CAP then (kept, Err(FilePolicy))
        else (kept.(documents := kept.documents[d := Document(owner, path, now + DOCUMENT_LIFETIME, Ready)]), Ok(d))
  {
    hide RemotePaths.ValidPath, RetiredBy, WithoutDocuments;
  }

  /**
   A document opens exactly if its path is acceptable and fewer than 100 other documents are open. Then it is
   there, free and for an hour, besides those others.
   */
  lemma OpensExactly(s: Store, d: DocumentId, owner: Owner, path: string, now: nat)
    requires d !in s.documents
    ensures var (t, r) := Register(s, d, owner, path, now);
      && (r == Ok(d) <==> RemotePaths.ValidPath(path) && |Others(s, owner, path, now)| < PLAN_CAP)
      && (r != Ok(d) ==> r == Err(FilePolicy))
      && (r == Ok(d) ==>
            && Has(t, d, Document(owner, path, now + DOCUMENT_LIFETIME, Ready))
            && t.documents.Keys == Others(s, owner, path, now) + {d})
  {
    hide RemotePaths.ValidPath, Kept, Others, Register;
    KeptDocuments(s, owner, path, now);
    RegisterApplies(s, d, owner, path, now);
  }

  /** Opening leaves the other documents as they were, and every plan but those of documents that went. */
  lemma OpeningLeavesOthers(s: Store, d: DocumentId, owner: Owner, path: string, now: nat)
    requires d !in s.documents
    ensures var t := Register(s, d, owner, path, now).0;
      && (forall e <- Others(s, owner, path, now) :: Has(t, e, s.documents[e]))
      && (forall p <- s.plans :: !GoesWith(s, p, s.documents.Keys - Others(s, owner, path, now)) ==>
            p in t.plans && t.plans[p] == s.plans[p])
  {
    hide RemotePaths.ValidPath, RetiredBy;
    OthersAreKept(s, owner, path, now);
  }

  // ----- Documents -----

  lemma OpenKeepsDocument(s: Store, e: DocumentId, owner: Owner, path: string, now: nat,
                          d: DocumentId, document: Document)
    requires Has(s, d, document) && e != d && now < document.expires
    requires owner != document.owner || path != document.path
    ensures Has(Register(s, e, owner, path, now).0, d, document)
  {
  }

  lemma PlanningKeepsDocument(y: System, step: Step, d: DocumentId, id: PlanId, document: Document)
    requires Inv(y) && Enabled(y, step) && step.now < document.expires && IsPlanningCall(step.call)
    requires Has(y.store, d, document) && IsFor(document, id) && !Disturbs(step.call, d, id, document)
    ensures Has(Apply(y, step).store, d, document)
  {
    hide Register, PlansOk, PendingsOk, PlannersOk, EventsOk;
    assert DocumentOk(y, d);
    match step.call {
      case Open(e, owner, path) => OpenKeepsDocument(y.store, e, owner, path, step.now, d, document);
      case Close(_, _) =>
      case BeginSave(_, _, _) =>
      case FinishSave(_, _) =>
    }
  }

  lemma UseKeepsDocument(y: System, step: Step, d: DocumentId, id: PlanId, document: Document)
    requires Inv(y) && Enabled(y, step) && step.now < document.expires
    requires step.call.DiscardCall? || step.call.Execute?
    requires Has(y.store, d, document) && IsFor(document, id) && !Disturbs(step.call, d, id, document)
    requires document.use.Pending? && id in y.store.plans ==> step.now < y.store.plans[id].expires
    requires document.use.Pending? && IsLive(y.store, id) ==> y.store.plans[id].plan.value.owner == document.owner
    ensures Has(Apply(y, step).store, d, document)
  {
    hide PlansOk, PendingsOk, PlannersOk, EventsOk, DocumentsOk;
    match step.call {
      case DiscardCall(_, _) =>
      case Execute(_, _) =>
    }
  }

  lemma ExpiryKeepsDocument(s: Store, i: PlanId, expires: nat, e: Option<DocumentId>, now: nat,
                            d: DocumentId, document: Document)
    requires Has(s, d, document) && document.use != Pending(i)
    ensures Has(PlanExpires(s, i, expires, e, now), d, document)
  {
  }

  lemma OtherExpiryKeepsDocument(s: Store, e: DocumentId, expires: nat, d: DocumentId, document: Document)
    requires Has(s, d, document) && e != d
    ensures Has(DocumentExpires(s, e, expires), d, document)
  {
  }

  lemma TimersKeepDocument(y: System, step: Step, d: DocumentId, id: PlanId, document: Document)
    requires Inv(y) && Enabled(y, step) && step.now < document.expires
    requires step.call.PlanTimer? || step.call.DocumentTimer?
    requires Has(y.store, d, document) && IsFor(document, id)
    requires document.use.Pending? && id in y.planTimers ==> step.now < y.planTimers[id].0
    ensures Has(Apply(y, step).store, d, document)
  {
    hide PlansOk, PendingsOk, PlannersOk, EventsOk, Bounded, PlanExpires, DocumentExpires;
    assert DocumentOk(y, d);
    match step.call {
      case PlanTimer(i) =>
        ExpiryKeepsDocument(y.store, i, y.planTimers[i].0, y.planTimers[i].1, step.now, d, document);
      case DocumentTimer(e) => OtherExpiryKeepsDocument(y.store, e, y.documentTimers[e], d, document);
    }
  }

  lemma OthersKeepDocument(y: System, step: Step, d: DocumentId, id: PlanId, document: Document)
    requires Enabled(y, step) && !IsPlanningCall(step.call) && !step.call.DiscardCall? && !step.call.Execute?
    requires !step.call.PlanTimer? && !step.call.DocumentTimer?
    requires Has(y.store, d, document) && IsFor(document, id) && !Disturbs(step.call, d, id, document)
    ensures Has(Apply(y, step).store, d, document)
  {
  }

  // ----- Free documents -----

  /** While it is free, a document stays as it is, whatever else happens. */
  lemma FreeStays(y: System, step: Step, d: DocumentId, id: PlanId, document: Document)
    requires Inv(y) && Enabled(y, step) && step.now < document.expires
    requires Has(y.store, d, document) && document.use.Ready? && !Disturbs(step.call, d, id, document)
    ensures Has(Apply(y, step).store, d, document)
  {
    hide Apply, Disturbs, Has;
    if IsPlanningCall(step.call) {
      PlanningKeepsDocument(y, step, d, id, document);
    } else if step.call.DiscardCall? || step.call.Execute? {
      UseKeepsDocument(y, step, d, id, document);
    } else if step.call.PlanTimer? || step.call.DocumentTimer? {
      TimersKeepDocument(y, step, d, id, document);
    } else {
      OthersKeepDocument(y, step, d, id, document);
    }
  }

  lemma {:induction false} FreePersists(states: seq<System>, steps: seq<Step>, i: nat, j: nat,
                                        d: DocumentId, id: PlanId, document: Document)
    requires IsRun(states, steps) && i <= j < |states|
    requires Has(states[i].store, d, document) && document.use.Ready?
    requires Calm(steps, i, j, d, id, document, document.expires)
    ensures Has(states[j].store, d, document)
  {
    hide Has, Disturbs, Inv, Apply, Enabled;
    if i < j {
      FreePersists(states, steps, i, j - 1, d, id, document);
      RunKeepsInv(states, steps, j - 1);
      assert Becomes(states[j - 1], steps[j - 1], states[j - 1 + 1]);
      FreeStays(states[j - 1], steps[j - 1], d, id, document);
    }
  }

  // ----- Reservations -----

  /** While it is reserved, a document stays as it is, whatever else happens. */
  lemma ReservationStays(y: System, step: Step, d: DocumentId, id: PlanId, document: Document)
    requires Inv(y) && Enabled(y, step) && step.now < document.expires
    requires Has(y.store, d, document) && document.use == Planning(id) && !Disturbs(step.call, d, id, document)
    ensures Has(Apply(y, step).store, d, document)
  {
    hide Apply, Disturbs, Has;
    ReservedIsUnpublished(y, d, id, document);
    if IsPlanningCall(step.call) {
      PlanningKeepsDocument(y, step, d, id, document);
    } else if step.call.DiscardCall? || step.call.Execute? {
      UseKeepsDocument(y, step, d, id, document);
    } else if step.call.PlanTimer? || step.call.DocumentTimer? {
      TimersKeepDocument(y, step, d, id, document);
    } else {
      OthersKeepDocument(y, step, d, id, document);
    }
  }

  /** A reserved document's plan does not exist yet. */
  lemma ReservedIsUnpublished(y: System, d: DocumentId, id: PlanId, document: Document)
    requires Inv(y) && Has(y.store, d, document) && document.use == Planning(id)
    ensures id !in y.store.plans && id !in y.planTimers && id in y.planners && y.planners[id].document == d
  {
    assert DocumentOk(y, d);
    assert PlannerOk(y, id);
  }

  ghost predicate Calm(steps: seq<Step>, i: nat, j: nat, d: DocumentId, id: PlanId, document: Document, deadline: nat)
    requires i <= j <= |steps|
  {
    forall k :: i <= k < j ==> !Disturbs(steps[k].call, d, id, document) && steps[k].now < deadline
  }

  lemma {:induction false} ReservationPersists(states: seq<System>, steps: seq<Step>, i: nat, j: nat,
                                               d: DocumentId, id: PlanId, document: Document)
    requires IsRun(states, steps) && i <= j < |states|
    requires Has(states[i].store, d, document) && document.use == Planning(id)
    requires Calm(steps, i, j, d, id, document, document.expires)
    ensures Has(states[j].store, d, document)
  {
    hide Has, Disturbs, Inv, Apply, Enabled;
    if i < j {
      ReservationPersists(states, steps, i, j - 1, d, id, document);
      RunKeepsInv(states, steps, j - 1);
      assert Becomes(states[j - 1], steps[j - 1], states[j - 1 + 1]);
      ReservationStays(states[j - 1], steps[j - 1], d, id, document);
    }
  }

  // ----- Published saves -----

  /** The save is published and waits for its execution. */
  ghost predicate Waits(s: Store, d: DocumentId, id: PlanId, document: Document, payload: seq<byte>, deadline: nat) {
    && Has(s, d, document) && document.use == Pending(id)
    && id in s.plans && s.plans[id] == StoredPlan(Some(Plan(document.owner, payload)), deadline, Some(d))
  }

  lemma OpenKeepsPlan(s: Store, e: DocumentId, owner: Owner, path: string, now: nat, d: DocumentId, id: PlanId)
    requires id in s.plans && s.plans[id].document == Some(d) && d in s.documents && now < s.documents[d].expires
    requires owner != s.documents[d].owner || path != s.documents[d].path
    ensures var t := Register(s, e, owner, path, now).0; id in t.plans && t.plans[id] == s.plans[id]
  {
  }

  lemma PublishKeepsPlan(s: Store, e: DocumentId, owner: Owner, r: PlanId, payload: seq<byte>, now: nat, id: PlanId)
    requires id in s.plans && s.plans[id].plan.Some? && now < s.plans[id].expires && r != id
    ensures var t := Publish(s, e, owner, r, payload, now).0; id in t.plans && t.plans[id] == s.plans[id]
  {
  }

  lemma PlanningKeepsPlan(y: System, step: Step, d: DocumentId, id: PlanId, document: Document,
                          payload: seq<byte>, deadline: nat)
    requires Inv(y) && Enabled(y, step) && step.now < document.expires && step.now < deadline
    requires IsPlanningCall(step.call) && !Disturbs(step.call, d, id, document)
    requires Waits(y.store, d, id, document, payload, deadline)
    ensures var t := Apply(y, step).store; id in t.plans && t.plans[id] == y.store.plans[id]
  {
    hide Register, Publish, Inv;
    match step.call {
      case Open(e, owner, path) => OpenKeepsPlan(y.store, e, owner, path, step.now, d, id);
      case Close(_, _) =>
      case BeginSave(_, _, _) =>
      case FinishSave(r, other) =>
        var p := y.planners[r];
        PublishKeepsPlan(y.store, p.document, p.owner, r, other, step.now, id);
    }
  }

  lemma UseKeepsPlan(y: System, step: Step, d: DocumentId, id: PlanId, document: Document,
                     payload: seq<byte>, deadline: nat)
    requires Enabled(y, step) && step.now < document.expires && step.now < deadline
    requires (step.call.DiscardCall? || step.call.Execute?) && !Disturbs(step.call, d, id, document)
    requires Waits(y.store, d, id, document, payload, deadline)
    ensures var t := Apply(y, step).store; id in t.plans && t.plans[id] == y.store.plans[id]
  {
    match step.call {
      case DiscardCall(_, _) =>
      case Execute(_, _) =>
    }
  }

  lemma OthersKeepPlan(y: System, step: Step, d: DocumentId, id: PlanId, document: Document,
                       payload: seq<byte>, deadline: nat)
    requires Inv(y) && Enabled(y, step) && step.now < document.expires && step.now < deadline
    requires !IsPlanningCall(step.call) && !step.call.DiscardCall? && !step.call.Execute?
    requires !Disturbs(step.call, d, id, document) && Waits(y.store, d, id, document, payload, deadline)
    ensures var t := Apply(y, step).store; id in t.plans && t.plans[id] == y.store.plans[id]
  {
    hide PendingsOk, PlannersOk, EventsOk, DocumentsOk;
    assert PlanOk(y, id);
    match step.call {
      case MakePlan(_, _) =>
      case PlanTimer(_) =>
      case DocumentTimer(_) =>
      case Revoke(_, _) =>
      case _ =>
    }
  }

  /** While a published save waits, it stays as it is, whatever else happens. */
  lemma SaveStays(y: System, step: Step, d: DocumentId, id: PlanId, document: Document,
                  payload: seq<byte>, deadline: nat)
    requires Inv(y) && Enabled(y, step) && step.now < document.expires && step.now < deadline
    requires !Disturbs(step.call, d, id, document) && Waits(y.store, d, id, document, payload, deadline)
    ensures Waits(Apply(y, step).store, d, id, document, payload, deadline)
  {
    hide Apply, Disturbs, Has;
    StoredPlanFacts(y, id);
    if IsPlanningCall(step.call) {
      PlanningKeepsDocument(y, step, d, id, document);
      PlanningKeepsPlan(y, step, d, id, document, payload, deadline);
    } else if step.call.DiscardCall? || step.call.Execute? {
      UseKeepsDocument(y, step, d, id, document);
      UseKeepsPlan(y, step, d, id, document, payload, deadline);
    } else {
      if step.call.PlanTimer? || step.call.DocumentTimer? {
        TimersKeepDocument(y, step, d, id, document);
      } else {
        OthersKeepDocument(y, step, d, id, document);
      }
      OthersKeepPlan(y, step, d, id, document, payload, deadline);
    }
  }

  lemma {:induction false} SavePersists(states: seq<System>, steps: seq<Step>, i: nat, j: nat, d: DocumentId,
                                        id: PlanId, document: Document, payload: seq<byte>, deadline: nat)
    requires IsRun(states, steps) && i <= j < |states|
    requires Waits(states[i].store, d, id, document, payload, deadline)
    requires Calm(steps, i, j, d, id, document, document.expires) && Calm(steps, i, j, d, id, document, deadline)
    ensures Waits(states[j].store, d, id, document, payload, deadline)
  {
    hide Waits, Disturbs, Inv, Apply, Enabled;
    if i < j {
      SavePersists(states, steps, i, j - 1, d, id, document, payload, deadline);
      RunKeepsInv(states, steps, j - 1);
      assert Becomes(states[j - 1], steps[j - 1], states[j - 1 + 1]);
      SaveStays(states[j - 1], steps[j - 1], d, id, document, payload, deadline);
    }
  }

  // ----- From reservation to execution -----

  /** The plans that count against the limit: not expired and not executed. */
  ghost function Unfinished(s: Store, now: nat): set<PlanId> {
    set p | p in s.plans && now < s.plans[p].expires && s.plans[p].plan.Some?
  }

  lemma LiveAreUnfinished(s: Store, now: nat)
    ensures Live(s.plans, now).Keys == Unfinished(s, now) && |Live(s.plans, now)| == |Unfinished(s, now)|
  {
    assert |Live(s.plans, now)| == |Live(s.plans, now).Keys|;
  }

  /** A planner that still has its reservation publishes what it planned, if there is room. */
  lemma ReservedPublishes(y: System, step: Step, d: DocumentId, id: PlanId, document: Document, payload: seq<byte>)
    requires Inv(y) && Enabled(y, step) && step.call == FinishSave(id, payload)
    requires Has(y.store, d, document) && document.use == Planning(id) && y.planners[id].owner == document.owner
    requires step.now < document.expires && |Unfinished(y.store, step.now)| < PLAN_CAP
    ensures Waits(Apply(y, step).store, d, id, document.(use := Pending(id)), payload, step.now + PLAN_LIFETIME)
  {
    hide Inv, Apply, Publish, Live;
    ReservedIsUnpublished(y, d, id, document);
    FinishSaveApplies(y, step);
    LiveAreUnfinished(y.store, step.now);
  }

  /** A published save that is executed in time yields what was planned and retires its document. */
  lemma WaitingIsExecuted(y: System, step: Step, d: DocumentId, id: PlanId, document: Document,
                          payload: seq<byte>, deadline: nat)
    requires Enabled(y, step) && step.call == Execute(id, document.owner)
    requires Waits(y.store, d, id, document, payload, deadline)
    requires step.now < document.expires && step.now <= deadline
    ensures Consume(y.store, id, document.owner, step.now).1 == Ok(Plan(document.owner, payload))
    ensures Apply(y, step).events == y.events + [Consumed(id)]
    ensures d !in Apply(y, step).store.documents
  {
  }

  /**
   A save goes through in every run: its document, once reserved, is published with what was planned, and
   executed by the deadlines yields exactly that and retires the document, as long as nobody in between closes
   or reopens the document, discards or executes the plan, or revokes the connection, and its planner lives on.
   Whatever else other planners, callers and timers do does not matter.
   */
  lemma SaveGoesThrough(states: seq<System>, steps: seq<Step>, k: nat, m: nat, n: nat,
                        d: DocumentId, owner: Owner, id: PlanId, payload: seq<byte>)
    requires IsRun(states, steps) && k < m < n < |steps|
    requires steps[k].call == BeginSave(d, owner, id) && CanReserve(states[k].store, d, owner, steps[k].now)
    requires steps[m].call == FinishSave(id, payload) && |Unfinished(states[m].store, steps[m].now)| < PLAN_CAP
    requires steps[n].call == Execute(id, owner)
    requires var document, deadline := states[k].store.documents[d], steps[m].now + PLAN_LIFETIME;
      && Calm(steps, k + 1, m, d, id, document.(use := Planning(id)), document.expires)
      && Calm(steps, m + 1, n, d, id, document.(use := Pending(id)), document.expires)
      && Calm(steps, m + 1, n, d, id, document.(use := Pending(id)), deadline)
      && steps[m].now < document.expires && steps[n].now < document.expires && steps[n].now <= deadline
    ensures Consume(states[n].store, id, owner, steps[n].now).1 == Ok(Plan(owner, payload))
    ensures states[n + 1].events == states[n].events + [Consumed(id)]
    ensures d !in states[n + 1].store.documents
  {
    hide Inv, Apply, Enabled, Disturbs, Calm, Waits;
    var document := states[k].store.documents[d];
    var deadline := steps[m].now + PLAN_LIFETIME;
    assert Becomes(states[k], steps[k], states[k + 1]);
    ReserveWorks(states[k], steps[k], d, owner, id);
    ReservationPersists(states, steps, k + 1, m, d, id, document.(use := Planning(id)));
    RunKeepsInv(states, steps, m);
    RunGoesForward(states, steps, k + 1, m);
    assert Becomes(states[m], steps[m], states[m + 1]);
    ReservedPublishes(states[m], steps[m], d, id, document.(use := Planning(id)), payload);
    SavePersists(states, steps, m + 1, n, d, id, document.(use := Pending(id)), payload, deadline);
    assert Becomes(states[n], steps[n], states[n + 1]);
    WaitingIsExecuted(states[n], steps[n], d, id, document.(use := Pending(id)), payload, deadline);
  }

  lemma ReserveWorks(y: System, step: Step, d: DocumentId, owner: Owner, id: PlanId)
    requires Enabled(y, step) && step.call == BeginSave(d, owner, id) && CanReserve(y.store, d, owner, step.now)
    ensures var u := Apply(y, step);
      && Has(u.store, d, y.store.documents[d].(use := Planning(id)))
      && id in u.planners && u.planners[id] == Planner(d, owner, Busy)
  {
  }

  /** A document that opens can be reserved, as long as nobody else takes it and it has not expired. */
  lemma OpenedIsReserved(states: seq<System>, steps: seq<Step>, h: nat, k: nat,
                         d: DocumentId, owner: Owner, path: string, id: PlanId)
    requires IsRun(states, steps) && h < k < |steps|
    requires steps[h].call == Open(d, owner, path) && RemotePaths.ValidPath(path)
    requires |Others(states[h].store, owner, path, steps[h].now)| < PLAN_CAP
    requires steps[k].call == BeginSave(d, owner, id) && steps[k].now < steps[h].now + DOCUMENT_LIFETIME
    requires var document := Document(owner, path, steps[h].now + DOCUMENT_LIFETIME, Ready);
      Calm(steps, h + 1, k, d, id, document, document.expires)
    ensures var document := Document(owner, path, steps[h].now + DOCUMENT_LIFETIME, Ready);
      && Has(states[k].store, d, document)
      && Reserve(states[k].store, d, owner, id, steps[k].now).1.Ok?
      && Has(states[k + 1].store, d, document.(use := Planning(id)))
      && id in states[k + 1].planners && states[k + 1].planners[id] == Planner(d, owner, Busy)
  {
    hide Inv, Apply, Disturbs, Calm, Register, RemotePaths.ValidPath;
    var document := Document(owner, path, steps[h].now + DOCUMENT_LIFETIME, Ready);
    assert Becomes(states[h], steps[h], states[h + 1]);
    OpenWorks(states[h], steps[h], d, owner, path);
    RunKeepsInv(states, steps, h);
    NewDocument(states[h], d);
    OpensExactly(states[h].store, d, owner, path, steps[h].now);
    FreePersists(states, steps, h + 1, k, d, id, document);
    assert Becomes(states[k], steps[k], states[k + 1]);
    ReserveWorks(states[k], steps[k], d, owner, id);
  }

  lemma OpenWorks(y: System, step: Step, d: DocumentId, owner: Owner, path: string)
    requires Enabled(y, step) && step.call == Open(d, owner, path)
    ensures Apply(y, step).store == Register(y.store, d, owner, path, step.now).0
    ensures d !in y.issuedDocuments
  {
    hide Register;
  }

  lemma NewDocument(y: System, d: DocumentId)
    requires Inv(y) && d !in y.issuedDocuments
    ensures d !in y.store.documents
  {
    assert DocumentsOk(y);
  }

  // ----- Plans without a document -----

  predicate Ends(call: Call, id: PlanId, owner: Owner) {
    match call
    case DiscardCall(i, o) => i == id && o == owner
    case Execute(i, o) => i == id && o == owner
    case Revoke(host, session) => host == owner.host && session == owner.session
    case ClearPlans => true
    case _ => false
  }

  ghost predicate Stands(s: Store, id: PlanId, plan: Plan, deadline: nat) {
    id in s.plans && s.plans[id] == StoredPlan(Some(plan), deadline, None)
  }

  lemma StoredIsNotPlanned(y: System, id: PlanId)
    requires Inv(y) && id in y.store.plans
    ensures id in y.issuedPlans && id in y.planTimers && y.planTimers[id].0 == y.store.plans[id].expires
    ensures id in y.planners ==> y.planners[id].status.Finished?
  {
    assert PlanOk(y, id);
    if id in y.planners { assert PlannerOk(y, id); }
  }

  lemma SavesLeavePlan(y: System, step: Step, id: PlanId, plan: Plan, deadline: nat)
    requires Inv(y) && Enabled(y, step) && step.now < deadline && Stands(y.store, id, plan, deadline)
    requires IsPlanningCall(step.call)
    ensures Stands(Apply(y, step).store, id, plan, deadline)
  {
    hide Inv, Register, Publish;
    StoredIsNotPlanned(y, id);
    match step.call {
      case Open(e, owner, path) => OpenLeavesPlan(y.store, e, owner, path, step.now, id);
      case Close(_, _) =>
      case BeginSave(_, _, _) =>
      case FinishSave(r, other) =>
        var p := y.planners[r];
        PublishKeepsPlan(y.store, p.document, p.owner, r, other, step.now, id);
    }
  }

  lemma OpenLeavesPlan(s: Store, e: DocumentId, owner: Owner, path: string, now: nat, id: PlanId)
    requires id in s.plans && s.plans[id].document.None?
    ensures var t := Register(s, e, owner, path, now).0; id in t.plans && t.plans[id] == s.plans[id]
  {
  }

  /** While a plan waits it stays as it is, whatever else happens. */
  lemma PlanStays(y: System, step: Step, id: PlanId, plan: Plan, deadline: nat)
    requires Inv(y) && Enabled(y, step) && step.now < deadline && Stands(y.store, id, plan, deadline)
    requires !Ends(step.call, id, plan.owner)
    ensures Stands(Apply(y, step).store, id, plan, deadline)
  {
    hide Inv, Register, Publish;
    if IsPlanningCall(step.call) {
      SavesLeavePlan(y, step, id, plan, deadline);
    } else {
      StoredIsNotPlanned(y, id);
      match step.call {
        case MakePlan(_, _) =>
        case DiscardCall(_, _) =>
        case Execute(_, _) =>
        case PlanTimer(_) =>
        case DocumentTimer(_) =>
        case Revoke(_, _) =>
        case _ =>
      }
    }
  }

  ghost predicate Quiet(steps: seq<Step>, i: nat, j: nat, id: PlanId, owner: Owner, deadline: nat)
    requires i <= j <= |steps|
  {
    forall k :: i <= k < j ==> !Ends(steps[k].call, id, owner) && steps[k].now < deadline
  }

  lemma {:induction false} PlanPersists(states: seq<System>, steps: seq<Step>, i: nat, j: nat,
                                        id: PlanId, plan: Plan, deadline: nat)
    requires IsRun(states, steps) && i <= j < |states| && Stands(states[i].store, id, plan, deadline)
    requires Quiet(steps, i, j, id, plan.owner, deadline)
    ensures Stands(states[j].store, id, plan, deadline)
  {
    hide Stands, Ends, Inv, Apply, Enabled;
    if i < j {
      PlanPersists(states, steps, i, j - 1, id, plan, deadline);
      RunKeepsInv(states, steps, j - 1);
      assert Becomes(states[j - 1], steps[j - 1], states[j - 1 + 1]);
      PlanStays(states[j - 1], steps[j - 1], id, plan, deadline);
    }
  }

  /** There is room for a plan exactly if fewer than the limit are unexpired and not yet executed. */
  lemma PlanIsMade(y: System, step: Step, id: PlanId, plan: Plan)
    requires Enabled(y, step) && step.call == MakePlan(id, plan) && Inv(y)
    ensures |Unfinished(y.store, step.now)| < PLAN_CAP <==>
      Stands(Apply(y, step).store, id, plan, step.now + PLAN_LIFETIME)
    ensures var t := Apply(y, step).store;
      && t.documents == y.store.documents
      && t.plans.Keys - {id} == Unfinished(y.store, step.now)
      && forall p <- t.plans :: p != id ==> t.plans[p] == y.store.plans[p]
  {
    hide Inv, Apply, Enabled, Unfinished, Insert;
    MakePlanInserts(y, step);
    NewPlan(y, id);
    InsertExactly(y.store, id, plan, step.now);
  }

  lemma MakePlanInserts(y: System, step: Step)
    requires Enabled(y, step) && step.call.MakePlan?
    ensures Apply(y, step).store ==
      y.store.(plans := Insert(y.store.plans, step.call.id, step.call.plan, None, step.now).0)
    ensures step.call.id !in y.issuedPlans
  {
    hide Insert;
  }

  lemma InsertExactly(s: Store, id: PlanId, plan: Plan, now: nat)
    requires id !in s.plans
    ensures var t := s.(plans := Insert(s.plans, id, plan, None, now).0);
      && (|Unfinished(s, now)| < PLAN_CAP <==> Stands(t, id, plan, now + PLAN_LIFETIME))
      && t.plans.Keys - {id} == Unfinished(s, now)
      && forall p <- t.plans :: p != id ==> p in s.plans && t.plans[p] == s.plans[p]
  {
    LiveAreUnfinished(s, now);
    var live := Live(s.plans, now);
    var stored := StoredPlan(Some(plan), now + PLAN_LIFETIME, None);
    assert id !in live && live[id := stored].Keys - {id} == live.Keys && live.Keys - {id} == live.Keys;
  }

  lemma NewPlan(y: System, id: PlanId)
    requires Inv(y) && id !in y.issuedPlans
    ensures id !in y.store.plans
  {
    assert PlansOk(y);
  }

  lemma StandingIsExecuted(y: System, step: Step, id: PlanId, plan: Plan, deadline: nat)
    requires Enabled(y, step) && step.call == Execute(id, plan.owner) && step.now <= deadline
    requires Stands(y.store, id, plan, deadline)
    ensures Consume(y.store, id, plan.owner, step.now).1 == Ok(plan)
    ensures var u := Apply(y, step);
      u.events == y.events + [Consumed(id)] && u.store.documents == y.store.documents
  {
  }

  /**
   A plan goes through in every run: made while there is room, and executed by its connection by the deadline, it
   yields exactly what was approved, as long as the connection has not discarded or executed it before, or been
   revoked. Whatever other callers, planners and timers do does not matter.
   */
  lemma PlanGoesThrough(states: seq<System>, steps: seq<Step>, k: nat, n: nat, id: PlanId, plan: Plan)
    requires IsRun(states, steps) && k < n < |steps|
    requires steps[k].call == MakePlan(id, plan) && |Unfinished(states[k].store, steps[k].now)| < PLAN_CAP
    requires steps[n].call == Execute(id, plan.owner) && steps[n].now <= steps[k].now + PLAN_LIFETIME
    requires Quiet(steps, k + 1, n, id, plan.owner, steps[k].now + PLAN_LIFETIME)
    ensures Consume(states[n].store, id, plan.owner, steps[n].now).1 == Ok(plan)
    ensures states[n + 1].events == states[n].events + [Consumed(id)]
    ensures states[n + 1].store.documents == states[n].store.documents
  {
    hide Inv, Apply, Enabled, Ends, Quiet, Stands;
    var deadline := steps[k].now + PLAN_LIFETIME;
    RunKeepsInv(states, steps, k);
    assert Becomes(states[k], steps[k], states[k + 1]);
    PlanIsMade(states[k], steps[k], id, plan);
    PlanPersists(states, steps, k + 1, n, id, plan, deadline);
    assert Becomes(states[n], steps[n], states[n + 1]);
    StandingIsExecuted(states[n], steps[n], id, plan, deadline);
  }
}
