/**
 Runs of the plan and document store: every interleaving of user calls, planning tasks that
 span several critical sections, dropped planning tasks, expiry tasks and revocations.
 */
module FilePlanRuns {
  import opened Common
  import opened FilePlans
  import RemotePaths

  /** A call of `plan_editor_save` after its reservation. */
  datatype Planner = Planner(document: DocumentId, owner: Owner, status: Status)
  datatype Status =
    | Busy      // awaiting the remote checks
    | Failing   // about to drop its guard
    | Finished

  datatype Event = Consumed(id: PlanId) | Discarded(id: PlanId)

  datatype System = System(
    store: Store,
    clock: nat,
    issuedPlans: set<PlanId>,
    issuedDocuments: set<DocumentId>,
    planners: map<PlanId, Planner>,
    planTimers: map<PlanId, (nat, Option<DocumentId>)>,
    documentTimers: map<DocumentId, nat>,
    events: seq<Event>,
    plansCleared: bool               // the second half of `revoke_all` has run
  )

  const INITIAL := System(Store(map[], map[]), 0, {}, {}, map[], map[], map[], [], false)

  datatype Call =
    | Open(document: DocumentId, owner: Owner, path: string)
    | Close(document: DocumentId, owner: Owner)
    | BeginSave(document: DocumentId, owner: Owner, id: PlanId)
    | FinishSave(id: PlanId, payload: seq<byte>)
    | DropGuard(id: PlanId)
    | MakePlan(id: PlanId, plan: Plan)
    | DiscardCall(id: PlanId, owner: Owner)
    | Execute(id: PlanId, owner: Owner)
    | PlanTimer(id: PlanId)
    | DocumentTimer(document: DocumentId)
    | Revoke(host: HostId, session: HostSessionId)
    | ClearDocuments
    | ClearPlans

  datatype Step = Step(call: Call, now: nat)

  predicate Enabled(y: System, step: Step) {
    && y.clock <= step.now
    && match step.call
       case Open(d, _, _) => d !in y.issuedDocuments
       case BeginSave(_, _, id) => id !in y.issuedPlans
       case FinishSave(id, _) => id in y.planners && y.planners[id].status.Busy?
       case DropGuard(id) => id in y.planners && !y.planners[id].status.Finished?
       case MakePlan(id, _) => id !in y.issuedPlans
       case PlanTimer(id) => id in y.planTimers && y.planTimers[id].0 <= step.now
       case DocumentTimer(d) => d in y.documentTimers && y.documentTimers[d] <= step.now
       case _ => true
  }

  function WithStatus(y: System, id: PlanId, status: Status): System
    requires id in y.planners
  {
    y.(planners := y.planners[id := y.planners[id].(status := status)])
  }

  function Apply(y: System, step: Step): System
    requires Enabled(y, step)
  {
    var s, now := y.store, step.now;
    var z := y.(clock := now);
    match step.call
    case Open(d, owner, path) =>
      var (t, r) := Register(s, d, owner, path, now);
      if r.Err? then z.(store := t)
      else z.(store := t, issuedDocuments := y.issuedDocuments + {d},
              documentTimers := y.documentTimers[d := now + DOCUMENT_LIFETIME])
    case Close(d, owner) => z.(store := DiscardDocument(s, d, owner).0)
    case BeginSave(d, owner, id) =>
      var (t, r) := Reserve(s, d, owner, id, now);
      z.(store := t, issuedPlans := y.issuedPlans + {id},
         planners := y.planners[id := Planner(d, owner, if r.Ok? then Busy else Finished)])
    case FinishSave(id, payload) =>
      var p := y.planners[id];
      var (t, r) := Publish(s, p.document, p.owner, id, payload, now);
      if r.Err? then WithStatus(z, id, Failing).(store := t)
      else WithStatus(z, id, Finished).(store := t,
             planTimers := y.planTimers[id := (now + PLAN_LIFETIME, Some(p.document))])
    case DropGuard(id) =>
      WithStatus(z, id, Finished).(store :=
        s.(documents := Release(s.documents, y.planners[id].document, Planning(id), now).0))
    case MakePlan(id, plan) =>
      var (plans, r) := Insert(s.plans, id, plan, None, now);
      z.(store := s.(plans := plans), issuedPlans := y.issuedPlans + {id},
         planTimers := if r.Ok? then y.planTimers[id := (now + PLAN_LIFETIME, None)] else y.planTimers)
    case DiscardCall(id, owner) =>
      var (t, r) := Discard(s, id, owner, now);
      z.(store := t, events := if r == Ok(true) then y.events + [Discarded(id)] else y.events)
    case Execute(id, owner) =>
      var (t, r) := Consume(s, id, owner, now);
      z.(store := t, events := if r.Ok? then y.events + [Consumed(id)] else y.events)
    case PlanTimer(id) =>
      z.(store := PlanExpires(s, id, y.planTimers[id].0, y.planTimers[id].1, now), planTimers := y.planTimers - {id})
    case DocumentTimer(d) =>
      z.(store := DocumentExpires(s, d, y.documentTimers[d]), documentTimers := y.documentTimers - {d})
    case Revoke(host, session) => z.(store := RevokeSession(s, host, session))
    case ClearDocuments => z.(store := s.(documents := map[]))
    case ClearPlans => z.(store := s.(plans := map[]), plansCleared := true)
  }

  // ----- The invariant -----

  ghost predicate IsLive(s: Store, p: PlanId) {
    p in s.plans && s.plans[p].plan.Some?
  }

  /** A live editor plan whose document is open finds it pending on this very plan, for the same connection. */
  ghost predicate Linked(s: Store, p: PlanId)
    requires p in s.plans
  {
    var stored := s.plans[p];
    stored.plan.Some? && stored.document.Some? && stored.document.value in s.documents ==>
      && s.documents[stored.document.value].use == Pending(p)
      && s.documents[stored.document.value].owner == stored.plan.value.owner
  }

  ghost predicate PlanOk(y: System, p: PlanId)
    requires p in y.store.plans
  {
    var stored := y.store.plans[p];
    && p in y.issuedPlans
    && p in y.planTimers && y.planTimers[p] == (stored.expires, stored.document)
    && (stored.document.Some? ==> stored.document.value in y.issuedDocuments)
    && Linked(y.store, p)
  }

  /** Who will release a document that is in use. */
  ghost predicate DocumentOk(y: System, d: DocumentId)
    requires d in y.store.documents
  {
    var document := y.store.documents[d];
    && d in y.issuedDocuments
    && d in y.documentTimers && y.documentTimers[d] == document.expires
    && match document.use
       case Ready => true
       case Planning(r) =>
         r in y.planners && y.planners[r].document == d && !y.planners[r].status.Finished?
       case Pending(p) =>
         p in y.issuedPlans && p in y.planTimers && y.planTimers[p].1 == Some(d)
  }

  /** A pending document has its live plan, or one of the two deadlines has passed. */
  ghost predicate PendingOk(y: System, d: DocumentId)
    requires d in y.store.documents
  {
    var document := y.store.documents[d];
    document.use.Pending? ==>
      var p := document.use.plan;
      || y.plansCleared
      || document.expires <= y.clock
      || (p in y.planTimers && y.planTimers[p].0 <= y.clock)
      || (IsLive(y.store, p) && y.store.plans[p].document == Some(d))
  }

  ghost predicate PlannerOk(y: System, r: PlanId)
    requires r in y.planners
  {
    && r in y.issuedPlans
    && (!y.planners[r].status.Finished? ==> r !in y.store.plans && r !in y.planTimers)
  }

  ghost predicate EventsOk(y: System) {
    && (forall e <- y.events :: e.id in y.issuedPlans && !IsLive(y.store, e.id))
    && (forall e <- y.events :: e.id in y.planners ==> y.planners[e.id].status.Finished?)
    && (forall i, j :: 0 <= i < j < |y.events| ==> y.events[i].id != y.events[j].id)
  }

  ghost predicate Bounded(y: System) {
    && |y.store.plans| <= PLAN_CAP && |y.store.documents| <= PLAN_CAP
    && y.planTimers.Keys <= y.issuedPlans
    && y.documentTimers.Keys <= y.issuedDocuments
  }

  ghost predicate PlansOk(y: System) {
    forall p <- y.store.plans :: PlanOk(y, p)
  }

  ghost predicate DocumentsOk(y: System) {
    forall d <- y.store.documents :: DocumentOk(y, d)
  }

  ghost predicate PendingsOk(y: System) {
    forall d <- y.store.documents :: PendingOk(y, d)
  }

  ghost predicate PlannersOk(y: System) {
    forall r <- y.planners :: PlannerOk(y, r)
  }

  ghost predicate Inv(y: System) {
    Bounded(y) && PlansOk(y) && DocumentsOk(y) && PendingsOk(y) && PlannersOk(y) && EventsOk(y)
  }

  lemma InitialInv()
    ensures Inv(INITIAL)
  {
  }

  // ----- The changes a step is made of -----

  lemma SubmapSize<K, V>(m: map<K, V>, n: map<K, V>)
    requires m.Keys <= n.Keys
    ensures |m| <= |n|
  {
    SubsetSize(m.Keys, n.Keys);
    assert |m| == |m.Keys| && |n| == |n.Keys|;
  }

  ghost predicate IsSubmap<K, V>(m: map<K, V>, n: map<K, V>) {
    m.Keys <= n.Keys && forall k <- m :: m[k] == n[k]
  }

  lemma TimePasses(y: System, now: nat)
    requires Inv(y) && y.clock <= now
    ensures Inv(y.(clock := now))
  {
  }

  /** Forgetting executed plans and plans past their deadline strands no document. */
  lemma ForgetPlans(y: System, plans: map<PlanId, StoredPlan>)
    requires Inv(y) && IsSubmap(plans, y.store.plans)
    requires forall p <- y.store.plans :: p !in plans ==>
      y.store.plans[p].plan.None? || y.store.plans[p].expires <= y.clock
    ensures Inv(y.(store := y.store.(plans := plans)))
  {
    SubmapSize(plans, y.store.plans);
  }

  /** Removing documents, and plans that no remaining document is pending on. */
  lemma RetireMany(y: System, s: Store)
    requires Inv(y) && IsSubmap(s.plans, y.store.plans) && IsSubmap(s.documents, y.store.documents)
    requires forall p <- y.store.plans | p !in s.plans && y.store.plans[p].plan.Some? ::
               y.store.plans[p].document.Some? ==> y.store.plans[p].document.value !in s.documents
    ensures Inv(y.(store := s))
  {
    SubmapSize(s.plans, y.store.plans);
    SubmapSize(s.documents, y.store.documents);
  }

  function PlanDropped(y: System, id: PlanId, document: Option<DocumentId>, now: nat): System {
    y.(store := Store(y.store.plans - {id}, ReleaseIf(y.store.documents, document, Pending(id), now)))
  }

  lemma PlanDroppedLinks(y: System, id: PlanId, document: Option<DocumentId>, now: nat)
    requires Inv(y) && id in y.planTimers && y.planTimers[id].1 == document
    ensures PlansOk(PlanDropped(y, id, document, now)) && DocumentsOk(PlanDropped(y, id, document, now))
  {
    hide EventsOk, PendingsOk, PlannersOk, Bounded;
  }

  lemma PlanDroppedPendings(y: System, id: PlanId, document: Option<DocumentId>, now: nat)
    requires Inv(y) && id in y.planTimers && y.planTimers[id].1 == document
    ensures PendingsOk(PlanDropped(y, id, document, now))
  {
    hide EventsOk, PlannersOk, Bounded, PlansOk, Linked;
    var u := PlanDropped(y, id, document, now);
    forall d <- u.store.documents ensures PendingOk(u, d) {
      if u.store.documents[d].use.Pending? {
        assert u.store.documents[d] == y.store.documents[d];
        assert DocumentOk(y, d) && PendingOk(y, d);
      }
    }
  }

  lemma PlanDroppedBounds(y: System, id: PlanId, document: Option<DocumentId>, now: nat)
    requires Bounded(y)
    ensures Bounded(PlanDropped(y, id, document, now))
  {
    SubmapSize(y.store.plans - {id}, y.store.plans);
    SubmapSize(ReleaseIf(y.store.documents, document, Pending(id), now), y.store.documents);
  }

  lemma PlanDroppedRest(y: System, id: PlanId, document: Option<DocumentId>, now: nat)
    requires PlannersOk(y) && EventsOk(y)
    ensures PlannersOk(PlanDropped(y, id, document, now)) && EventsOk(PlanDropped(y, id, document, now))
  {
    hide ReleaseIf;
  }

  /** A plan goes and the document pending on it is released or dropped. */
  lemma DropPlanAndRelease(y: System, id: PlanId, document: Option<DocumentId>, now: nat)
    requires Inv(y) && id in y.planTimers && y.planTimers[id].1 == document
    ensures Inv(PlanDropped(y, id, document, now))
  {
    hide DocumentsOk, PendingsOk, PlansOk, PlannersOk, EventsOk, Bounded;
    PlanDroppedBounds(y, id, document, now);
    PlanDroppedRest(y, id, document, now);
    PlanDroppedLinks(y, id, document, now);
    PlanDroppedPendings(y, id, document, now);
  }

  function PlanAdded(y: System, id: PlanId, plan: Plan): System {
    y.(store := y.store.(plans := y.store.plans[id := StoredPlan(Some(plan), y.clock + PLAN_LIFETIME, None)]),
       issuedPlans := y.issuedPlans + {id},
       planTimers := y.planTimers[id := (y.clock + PLAN_LIFETIME, None)])
  }

  lemma PlanAddedLinks(y: System, id: PlanId, plan: Plan)
    requires Inv(y) && id !in y.issuedPlans
    ensures PlansOk(PlanAdded(y, id, plan)) && DocumentsOk(PlanAdded(y, id, plan))
  {
    hide EventsOk, PendingsOk;
  }

  lemma PlanAddedPendings(y: System, id: PlanId, plan: Plan)
    requires Inv(y) && id !in y.issuedPlans
    ensures PendingsOk(PlanAdded(y, id, plan)) && PlannersOk(PlanAdded(y, id, plan))
  {
  }

  lemma AddPlan(y: System, id: PlanId, plan: Plan)
    requires Inv(y) && id !in y.issuedPlans && |y.store.plans| < PLAN_CAP
    ensures Inv(PlanAdded(y, id, plan))
  {
    PlanAddedLinks(y, id, plan);
    PlanAddedPendings(y, id, plan);
  }

  function SaveAdded(y: System, id: PlanId, plan: Plan): System
    requires id in y.planners && y.planners[id].document in y.store.documents
  {
    var d := y.planners[id].document;
    WithStatus(y, id, Finished).(
      store := Store(y.store.plans[id := StoredPlan(Some(plan), y.clock + PLAN_LIFETIME, Some(d))],
                     y.store.documents[d := y.store.documents[d].(use := Pending(id))]),
      planTimers := y.planTimers[id := (y.clock + PLAN_LIFETIME, Some(d))])
  }

  ghost predicate MayAddSave(y: System, id: PlanId, plan: Plan) {
    && id in y.planners && !y.planners[id].status.Finished?
    && Reserved(y.store, y.planners[id].document, id)
    && y.store.documents[y.planners[id].document].owner == plan.owner
  }

  lemma SaveAddedLinks(y: System, id: PlanId, plan: Plan)
    requires Inv(y) && MayAddSave(y, id, plan)
    ensures PlansOk(SaveAdded(y, id, plan)) && DocumentsOk(SaveAdded(y, id, plan))
  {
    hide EventsOk, PendingsOk;
  }

  lemma SaveAddedPendings(y: System, id: PlanId, plan: Plan)
    requires Inv(y) && MayAddSave(y, id, plan)
    ensures PendingsOk(SaveAdded(y, id, plan))
  {
    hide PlansOk, EventsOk, Bounded;
    var u := SaveAdded(y, id, plan);
    forall d <- u.store.documents ensures PendingOk(u, d) {
      assert PendingOk(y, d) && DocumentOk(y, d);
    }
  }

  lemma SaveAddedRest(y: System, id: PlanId, plan: Plan)
    requires Inv(y) && MayAddSave(y, id, plan) && |y.store.plans| < PLAN_CAP
    ensures var u := SaveAdded(y, id, plan); Bounded(u) && PendingsOk(u) && PlannersOk(u) && EventsOk(u)
  {
    SaveAddedPendings(y, id, plan);
    hide PlansOk, PendingsOk, DocumentsOk;
    var u := SaveAdded(y, id, plan);
    SubmapSize(u.store.documents, y.store.documents);
    forall r <- u.planners ensures PlannerOk(u, r) {
      assert PlannerOk(y, r);
    }
  }

  lemma AddSave(y: System, id: PlanId, plan: Plan)
    requires Inv(y) && MayAddSave(y, id, plan) && |y.store.plans| < PLAN_CAP
    ensures Inv(SaveAdded(y, id, plan))
  {
    hide DocumentsOk, PendingsOk, PlansOk, PlannersOk, EventsOk, Bounded;
    SaveAddedLinks(y, id, plan);
    SaveAddedRest(y, id, plan);
  }

  lemma AddEvent(y: System, e: Event)
    requires Inv(y) && e.id in y.issuedPlans && !IsLive(y.store, e.id)
    requires forall x <- y.events :: x.id != e.id
    requires e.id in y.planners ==> y.planners[e.id].status.Finished?
    ensures Inv(y.(events := y.events + [e]))
  {
  }

  function PlanTaken(y: System, id: PlanId): System
    requires id in y.store.plans
  {
    var stored := y.store.plans[id];
    y.(store := Store(y.store.plans[id := stored.(plan := None)],
                      if stored.document.Some? then y.store.documents - {stored.document.value}
                      else y.store.documents))
  }

  lemma PlanTakenLinks(y: System, id: PlanId)
    requires Inv(y) && IsLive(y.store, id)
    ensures PlansOk(PlanTaken(y, id)) && DocumentsOk(PlanTaken(y, id))
  {
    hide EventsOk, PendingsOk, PlannersOk;
  }

  lemma PlanTakenPendings(y: System, id: PlanId)
    requires Inv(y) && IsLive(y.store, id)
    ensures PendingsOk(PlanTaken(y, id)) && PlannersOk(PlanTaken(y, id))
  {
    hide EventsOk;
  }

  /** Execution takes the plan out and retires its document. */
  lemma TakePlan(y: System, id: PlanId)
    requires Inv(y) && IsLive(y.store, id)
    ensures Inv(PlanTaken(y, id))
  {
    var u := PlanTaken(y, id);
    SubmapSize(u.store.documents, y.store.documents);
    assert u.store.plans.Keys == y.store.plans.Keys;
    SubmapSize(u.store.plans, y.store.plans);
    PlanTakenLinks(y, id);
    PlanTakenPendings(y, id);
  }

  // ----- Each step keeps the invariant -----

  lemma AddDocument(y: System, d: DocumentId, owner: Owner, path: string)
    requires Inv(y) && d !in y.issuedDocuments && |y.store.documents| < PLAN_CAP
    ensures Inv(y.(store := y.store.(documents :=
                     y.store.documents[d := Document(owner, path, y.clock + DOCUMENT_LIFETIME, Ready)]),
                   issuedDocuments := y.issuedDocuments + {d},
                   documentTimers := y.documentTimers[d := y.clock + DOCUMENT_LIFETIME]))
  {
  }

  lemma RetiringKeepsInv(y: System, owner: Owner, path: string, now: nat)
    requires Inv(y)
    ensures var retired := RetiredBy(y.store.documents, owner, path, now);
      Inv(y.(store := Store(WithoutDocuments(y.store.plans, retired), y.store.documents - retired)))
  {
    var retired := RetiredBy(y.store.documents, owner, path, now);
    RetireMany(y, Store(WithoutDocuments(y.store.plans, retired), y.store.documents - retired));
  }

  lemma OpenKeepsInv(y: System, step: Step)
    requires Inv(y) && Enabled(y, step) && step.call.Open?
    ensures Inv(Apply(y, step))
  {
    hide Inv, RetiredBy, WithoutDocuments, RemotePaths.ValidPath;
    var Open(d, owner, path) := step.call;
    var z := y.(clock := step.now);
    TimePasses(y, step.now);
    if RemotePaths.ValidPath(path) {
      var retired := RetiredBy(y.store.documents, owner, path, step.now);
      var kept := Store(WithoutDocuments(y.store.plans, retired), y.store.documents - retired);
      RetiringKeepsInv(z, owner, path, step.now);
      if |kept.documents| < PLAN_CAP { AddDocument(z.(store := kept), d, owner, path); }
    }
  }

  lemma CloseKeepsInv(y: System, step: Step)
    requires Inv(y) && Enabled(y, step) && step.call.Close?
    ensures Inv(Apply(y, step))
  {
    TimePasses(y, step.now);
    RetireMany(y.(clock := step.now), DiscardDocument(y.store, step.call.document, step.call.owner).0);
  }

  function SaveBegun(y: System, d: DocumentId, owner: Owner, id: PlanId, now: nat): System {
    var (t, r) := Reserve(y.store, d, owner, id, now);
    y.(store := t, issuedPlans := y.issuedPlans + {id},
       planners := y.planners[id := Planner(d, owner, if r.Ok? then Busy else Finished)])
  }

  lemma SaveBegunDocuments(y: System, d: DocumentId, owner: Owner, id: PlanId, now: nat)
    requires Inv(y) && id !in y.issuedPlans
    ensures DocumentsOk(SaveBegun(y, d, owner, id, now)) && PendingsOk(SaveBegun(y, d, owner, id, now))
  {
    hide EventsOk, PlansOk;
    var u := SaveBegun(y, d, owner, id, now);
    forall o <- u.store.documents ensures DocumentOk(u, o) && PendingOk(u, o) {
      assert DocumentOk(y, o) && PendingOk(y, o);
      if o == d && u.store.documents[o].use.Planning? && u.store.documents[o].use.reservation != id {
        assert y.planners[u.store.documents[o].use.reservation].document == o;
      }
    }
  }

  lemma SaveBegunRest(y: System, d: DocumentId, owner: Owner, id: PlanId, now: nat)
    requires Inv(y) && id !in y.issuedPlans
    ensures var u := SaveBegun(y, d, owner, id, now); Bounded(u) && PlansOk(u) && PlannersOk(u) && EventsOk(u)
  {
    hide DocumentsOk, PendingsOk;
    SubmapSize(SaveBegun(y, d, owner, id, now).store.documents, y.store.documents);
  }

  lemma BeginSaveKeepsInv(y: System, step: Step)
    requires Inv(y) && Enabled(y, step) && step.call.BeginSave?
    ensures Inv(Apply(y, step))
  {
    hide DocumentsOk, PendingsOk, PlansOk, PlannersOk, EventsOk, Bounded, Reserve;
    var BeginSave(d, owner, id) := step.call;
    TimePasses(y, step.now);
    SaveBegunDocuments(y.(clock := step.now), d, owner, id, step.now);
    SaveBegunRest(y.(clock := step.now), d, owner, id, step.now);
  }

  lemma FailSave(y: System, id: PlanId)
    requires Inv(y) && id in y.planners && y.planners[id].status.Busy?
    ensures Inv(WithStatus(y, id, Failing))
  {
  }

  /** The planner's document is still reserved for it, and its connection's. */
  ghost predicate MayPublish(y: System, id: PlanId, now: nat)
    requires id in y.planners
  {
    var p := y.planners[id];
    Reserved(y.store, p.document, id) && y.store.documents[p.document].expires > now
    && y.store.documents[p.document].owner == p.owner
  }

  /** What the end of a save comes to, branch by branch. */
  lemma FinishSaveApplies(y: System, step: Step)
    requires Enabled(y, step) && step.call.FinishSave?
    ensures var FinishSave(id, payload) := step.call;
      var p, z, pruned := y.planners[id], y.(clock := step.now), Pruned(y, step.now);
      var r := Publish(y.store, p.document, p.owner, id, payload, step.now).1;
      && (r.Ok? <==> MayPublish(y, id, step.now) && |pruned.store.plans| < PLAN_CAP)
      && (r.Ok? ==> Apply(y, step) == SaveAdded(pruned, id, Plan(p.owner, payload)))
      && (r.Err? ==> Apply(y, step) == WithStatus(if MayPublish(y, id, step.now) then pruned else z, id, Failing))
  {
    hide Live;
  }

  lemma FinishSaveKeepsInv(y: System, step: Step)
    requires Inv(y) && Enabled(y, step) && step.call.FinishSave?
    ensures Inv(Apply(y, step))
  {
    hide Inv, Apply, Publish, Live;
    var FinishSave(id, payload) := step.call;
    var p := y.planners[id];
    FinishSaveApplies(y, step);
    TimePasses(y, step.now);
    PrunedKeepsInv(y, step.now);
    if Publish(y.store, p.document, p.owner, id, payload, step.now).1.Ok? {
      AddSave(Pruned(y, step.now), id, Plan(p.owner, payload));
    } else {
      FailSave(y.(clock := step.now), id);
      FailSave(Pruned(y, step.now), id);
    }
  }

  function GuardDropped(y: System, id: PlanId, now: nat): System
    requires id in y.planners
  {
    WithStatus(y, id, Finished).(store :=
      y.store.(documents := Release(y.store.documents, y.planners[id].document, Planning(id), now).0))
  }

  lemma GuardDroppedDocuments(y: System, id: PlanId, now: nat)
    requires Inv(y) && id in y.planners && !y.planners[id].status.Finished?
    ensures DocumentsOk(GuardDropped(y, id, now)) && PendingsOk(GuardDropped(y, id, now))
  {
    hide EventsOk, PlannersOk, Bounded, PlansOk;
    var u := GuardDropped(y, id, now);
    forall d <- u.store.documents ensures DocumentOk(u, d) && PendingOk(u, d) {
      assert DocumentOk(y, d) && PendingOk(y, d);
    }
  }

  lemma GuardDroppedRest(y: System, id: PlanId, now: nat)
    requires Inv(y) && id in y.planners && !y.planners[id].status.Finished?
    ensures var u := GuardDropped(y, id, now); Bounded(u) && PlansOk(u) && PlannersOk(u) && EventsOk(u)
  {
    SubmapSize(GuardDropped(y, id, now).store.documents, y.store.documents);
  }

  lemma DropGuardKeepsInv(y: System, step: Step)
    requires Inv(y) && Enabled(y, step) && step.call.DropGuard?
    ensures Inv(Apply(y, step))
  {
    hide DocumentsOk, PendingsOk, PlansOk, PlannersOk, EventsOk, Bounded;
    TimePasses(y, step.now);
    GuardDroppedDocuments(y.(clock := step.now), step.call.id, step.now);
    GuardDroppedRest(y.(clock := step.now), step.call.id, step.now);
  }

  lemma IssuePlan(y: System, id: PlanId)
    requires Inv(y)
    ensures Inv(y.(issuedPlans := y.issuedPlans + {id}))
  {
  }

  /** The system at `now`, without the plans that a new one makes the store forget. */
  function Pruned(y: System, now: nat): System {
    y.(clock := now, store := y.store.(plans := Live(y.store.plans, now)))
  }

  lemma MakePlanApplies(y: System, step: Step)
    requires Enabled(y, step) && step.call.MakePlan?
    ensures var MakePlan(id, plan) := step.call;
      var pruned := Pruned(y, step.now);
      Apply(y, step) ==
        if |pruned.store.plans| < PLAN_CAP then PlanAdded(pruned, id, plan)
        else pruned.(issuedPlans := pruned.issuedPlans + {id})
  {
    hide Live;
  }

  lemma PrunedKeepsInv(y: System, now: nat)
    requires Inv(y) && y.clock <= now
    ensures Inv(Pruned(y, now))
  {
    hide Inv;
    TimePasses(y, now);
    ForgetPlans(y.(clock := now), Live(y.store.plans, now));
  }

  lemma MakePlanKeepsInv(y: System, step: Step)
    requires Inv(y) && Enabled(y, step) && step.call.MakePlan?
    ensures Inv(Apply(y, step))
  {
    hide Inv, Apply, PlanAdded, Live;
    MakePlanApplies(y, step);
    var MakePlan(id, plan) := step.call;
    var pruned := Pruned(y, step.now);
    PrunedKeepsInv(y, step.now);
    if |pruned.store.plans| < PLAN_CAP {
      AddPlan(pruned, id, plan);
    } else {
      IssuePlan(pruned, id);
    }
  }

  lemma StoredPlanFacts(y: System, id: PlanId)
    requires Inv(y) && id in y.store.plans
    ensures id in y.planTimers && y.planTimers[id] == (y.store.plans[id].expires, y.store.plans[id].document)
    ensures id in y.issuedPlans && (id in y.planners ==> y.planners[id].status.Finished?)
    ensures IsLive(y.store, id) ==> forall e <- y.events :: e.id != id
  {
    assert PlanOk(y, id);
    if id in y.planners { assert PlannerOk(y, id); }
  }

  lemma DiscardKeepsInv(y: System, step: Step)
    requires Inv(y) && Enabled(y, step) && step.call.DiscardCall?
    ensures Inv(Apply(y, step))
  {
    hide Inv;
    var DiscardCall(id, owner) := step.call;
    var z := y.(clock := step.now);
    TimePasses(y, step.now);
    if id in y.store.plans {
      var stored := y.store.plans[id];
      StoredPlanFacts(z, id);
      DropPlanAndRelease(z, id, stored.document, step.now);
      if stored.expires > step.now && stored.plan.None? {
        ForgetPlans(z, y.store.plans - {id});
      } else if Discard(y.store, id, owner, step.now).1 == Ok(true) {
        AddEvent(PlanDropped(z, id, stored.document, step.now), Discarded(id));
      }
    }
  }

  /** What an execution comes to, branch by branch. */
  lemma ExecuteApplies(y: System, step: Step)
    requires Enabled(y, step) && step.call.Execute?
    ensures var Execute(id, owner) := step.call;
      var z := y.(clock := step.now);
      Apply(y, step) ==
        if id !in y.store.plans then z
        else if step.now > y.store.plans[id].expires then PlanDropped(z, id, y.store.plans[id].document, step.now)
        else if !IsLive(y.store, id) || y.store.plans[id].plan.value.owner != owner then z
        else if y.store.plans[id].document.Some?
                && !Authorized(y.store, id, y.store.plans[id].document.value, owner, step.now)
        then z.(store := y.store.(plans := y.store.plans - {id}))
        else PlanTaken(z, id).(events := y.events + [Consumed(id)])
  {
    hide ReleaseIf, Authorized;
  }

  lemma ExecuteKeepsInv(y: System, step: Step)
    requires Inv(y) && Enabled(y, step) && step.call.Execute?
    ensures Inv(Apply(y, step))
  {
    hide Inv, Apply, PlanDropped, Authorized;
    ExecuteApplies(y, step);
    var Execute(id, owner) := step.call;
    var z := y.(clock := step.now);
    TimePasses(y, step.now);
    if id in y.store.plans {
      var stored := y.store.plans[id];
      StoredPlanFacts(z, id);
      if step.now > stored.expires {
        DropPlanAndRelease(z, id, stored.document, step.now);
      } else if IsLive(y.store, id) && stored.plan.value.owner == owner {
        if stored.document.Some? && !Authorized(y.store, id, stored.document.value, owner, step.now) {
          DropUnauthorized(z, id);
        } else {
          TakePlan(z, id);
          AddEvent(PlanTaken(z, id), Consumed(id));
        }
      }
    }
  }

  /** A plan that execution refuses because its document is gone or expired strands nothing. */
  lemma DropUnauthorized(y: System, id: PlanId)
    requires Inv(y) && IsLive(y.store, id) && y.store.plans[id].document.Some?
    requires !Authorized(y.store, id, y.store.plans[id].document.value, y.store.plans[id].plan.value.owner, y.clock)
    ensures Inv(y.(store := y.store.(plans := y.store.plans - {id})))
  {
    var d := y.store.plans[id].document.value;
    assert PlanOk(y, id);
    if d !in y.store.documents {
      RetireMany(y, y.store.(plans := y.store.plans - {id}));
    } else {
      assert y.store.documents[d].expires <= y.clock;
      DropStale(y, id, d);
    }
  }

  lemma DropStale(y: System, id: PlanId, d: DocumentId)
    requires Inv(y) && IsLive(y.store, id) && y.store.plans[id].document == Some(d)
    requires d in y.store.documents && y.store.documents[d].expires <= y.clock
    ensures Inv(y.(store := y.store.(plans := y.store.plans - {id})))
  {
    var u := y.(store := y.store.(plans := y.store.plans - {id}));
    SubmapSize(u.store.plans, y.store.plans);
    forall o <- u.store.documents ensures PendingOk(u, o) {
      assert PendingOk(y, o);
    }
  }

  lemma RemovePlanTimer(y: System, id: PlanId)
    requires Inv(y) && id !in y.store.plans
    requires forall d <- y.store.documents :: y.store.documents[d].use != Pending(id)
    ensures Inv(y.(planTimers := y.planTimers - {id}))
  {
    var u := y.(planTimers := y.planTimers - {id});
    forall p <- u.store.plans ensures PlanOk(u, p) {
      assert PlanOk(y, p);
    }
    forall d <- u.store.documents ensures DocumentOk(u, d) && PendingOk(u, d) {
      assert DocumentOk(y, d) && PendingOk(y, d);
    }
    forall r <- u.planners ensures PlannerOk(u, r) {
      assert PlannerOk(y, r);
    }
  }

  lemma NothingPendsOnDropped(y: System, id: PlanId, now: nat)
    requires Inv(y) && id in y.planTimers
    ensures forall d <- PlanDropped(y, id, y.planTimers[id].1, now).store.documents ::
              PlanDropped(y, id, y.planTimers[id].1, now).store.documents[d].use != Pending(id)
  {
    hide EventsOk, PlannersOk, Bounded, PlansOk, PendingsOk;
    var u := PlanDropped(y, id, y.planTimers[id].1, now);
    forall d <- u.store.documents ensures u.store.documents[d].use != Pending(id) {
      assert DocumentOk(y, d);
    }
  }

  lemma PlanTimerKeepsInv(y: System, step: Step)
    requires Inv(y) && Enabled(y, step) && step.call.PlanTimer?
    ensures Inv(Apply(y, step))
  {
    hide Inv;
    var id := step.call.id;
    var z := y.(clock := step.now);
    TimePasses(y, step.now);
    DropPlanAndRelease(z, id, y.planTimers[id].1, step.now);
    if id in y.store.plans {
      StoredPlanFacts(y, id);
    } else {
      assert y.store.plans - {id} == y.store.plans;
    }
    var u := PlanDropped(z, id, y.planTimers[id].1, step.now);
    NothingPendsOnDropped(z, id, step.now);
    RemovePlanTimer(u, id);
  }

  lemma RemoveDocumentTimer(y: System, d: DocumentId)
    requires Inv(y) && d !in y.store.documents
    ensures Inv(y.(documentTimers := y.documentTimers - {d}))
  {
  }

  lemma DocumentTimerKeepsInv(y: System, step: Step)
    requires Inv(y) && Enabled(y, step) && step.call.DocumentTimer?
    ensures Inv(Apply(y, step))
  {
    var d := step.call.document;
    var z := y.(clock := step.now);
    TimePasses(y, step.now);
    if d in y.store.documents {
      assert DocumentOk(y, d);
      RetireMany(z, Retire(y.store, d));
    }
    RemoveDocumentTimer(z.(store := DocumentExpires(y.store, d, y.documentTimers[d])), d);
  }

  lemma RevokeKeepsInv(y: System, step: Step)
    requires Inv(y) && Enabled(y, step) && step.call.Revoke?
    ensures Inv(Apply(y, step))
  {
    TimePasses(y, step.now);
    RetireMany(y.(clock := step.now), RevokeSession(y.store, step.call.host, step.call.session));
  }

  lemma ClearKeepsInv(y: System, step: Step)
    requires Inv(y) && Enabled(y, step) && (step.call.ClearDocuments? || step.call.ClearPlans?)
    ensures Inv(Apply(y, step))
  {
  }

  lemma StepKeepsInv(y: System, step: Step)
    requires Inv(y) && Enabled(y, step)
    ensures Inv(Apply(y, step))
  {
    match step.call
    case Open(_, _, _) => OpenKeepsInv(y, step);
    case Close(_, _) => CloseKeepsInv(y, step);
    case BeginSave(_, _, _) => BeginSaveKeepsInv(y, step);
    case FinishSave(_, _) => FinishSaveKeepsInv(y, step);
    case DropGuard(_) => DropGuardKeepsInv(y, step);
    case MakePlan(_, _) => MakePlanKeepsInv(y, step);
    case DiscardCall(_, _) => DiscardKeepsInv(y, step);
    case Execute(_, _) => ExecuteKeepsInv(y, step);
    case PlanTimer(_) => PlanTimerKeepsInv(y, step);
    case DocumentTimer(_) => DocumentTimerKeepsInv(y, step);
    case Revoke(_, _) => RevokeKeepsInv(y, step);
    case ClearDocuments => ClearKeepsInv(y, step);
    case ClearPlans => ClearKeepsInv(y, step);
  }

  // ----- What is true later, once it is true -----

  ghost predicate DocumentLater(s: Store, t: Store, d: DocumentId) {
    d in t.documents ==>
      && d in s.documents
      && t.documents[d] == s.documents[d].(use := t.documents[d].use)
  }

  ghost predicate PlannerLater(y: System, u: System, r: PlanId)
    requires r in y.planners
  {
    && r in u.planners
    && u.planners[r] == y.planners[r].(status := u.planners[r].status)
    && (y.planners[r].status.Finished? ==> u.planners[r].status.Finished?)
    && (Reserved(u.store, y.planners[r].document, r) ==> Reserved(y.store, y.planners[r].document, r))
  }

  /** Documents do not come back and keep their deadline; reservations that are lost stay lost. */
  ghost predicate Later(y: System, u: System) {
    && y.clock <= u.clock
    && y.issuedPlans <= u.issuedPlans && y.issuedDocuments <= u.issuedDocuments
    && y.events <= u.events
    && (forall d <- y.issuedDocuments :: DocumentLater(y.store, u.store, d))
    && (forall r <- y.planners :: PlannerLater(y, u, r))
  }

  lemma LaterIsTransitive(y: System, u: System, v: System)
    requires Later(y, u) && Later(u, v)
    ensures Later(y, v)
  {
    forall d <- y.issuedDocuments ensures DocumentLater(y.store, v.store, d) {
      assert DocumentLater(y.store, u.store, d) && DocumentLater(u.store, v.store, d);
    }
    forall r <- y.planners ensures PlannerLater(y, v, r) {
      assert PlannerLater(y, u, r) && PlannerLater(u, v, r);
    }
  }

  ghost predicate IsPlanningCall(c: Call) {
    c.Open? || c.Close? || c.BeginSave? || c.FinishSave?
  }

  ghost predicate IsPlanCall(c: Call) {
    c.DiscardCall? || c.Execute? || c.PlanTimer? || c.MakePlan?
  }

  lemma PlanningDocuments(y: System, step: Step, d: DocumentId)
    requires Enabled(y, step) && d in y.issuedDocuments && IsPlanningCall(step.call)
    ensures DocumentLater(y.store, Apply(y, step).store, d)
  {
    match step.call {
      case Open(_, _, _) =>
      case Close(_, _) =>
      case BeginSave(_, _, _) =>
      case FinishSave(_, _) =>
    }
  }

  lemma DiscardDocuments(s: Store, id: PlanId, owner: Owner, now: nat, d: DocumentId)
    ensures DocumentLater(s, Discard(s, id, owner, now).0, d)
  {
  }

  lemma ConsumeDocuments(s: Store, id: PlanId, owner: Owner, now: nat, d: DocumentId)
    ensures DocumentLater(s, Consume(s, id, owner, now).0, d)
  {
  }

  lemma PlanCallDocuments(y: System, step: Step, d: DocumentId)
    requires Enabled(y, step) && d in y.issuedDocuments && IsPlanCall(step.call)
    ensures DocumentLater(y.store, Apply(y, step).store, d)
  {
    hide Insert, Discard, Consume;
    if step.call.DiscardCall? {
      DiscardDocuments(y.store, step.call.id, step.call.owner, step.now, d);
    } else if step.call.Execute? {
      ConsumeDocuments(y.store, step.call.id, step.call.owner, step.now, d);
    }
  }

  lemma OtherDocuments(y: System, step: Step, d: DocumentId)
    requires Enabled(y, step) && d in y.issuedDocuments && !IsPlanningCall(step.call) && !IsPlanCall(step.call)
    ensures DocumentLater(y.store, Apply(y, step).store, d)
  {
  }

  lemma StepDocuments(y: System, step: Step, d: DocumentId)
    requires Enabled(y, step) && d in y.issuedDocuments
    ensures DocumentLater(y.store, Apply(y, step).store, d)
  {
    hide DocumentLater;
    if IsPlanningCall(step.call) {
      PlanningDocuments(y, step, d);
    } else if IsPlanCall(step.call) {
      PlanCallDocuments(y, step, d);
    } else {
      OtherDocuments(y, step, d);
    }
  }

  lemma PublishReservations(s: Store, id: DocumentId, owner: Owner, reservation: PlanId, payload: seq<byte>, now: nat,
                            d: DocumentId, r: PlanId)
    requires Reserved(Publish(s, id, owner, reservation, payload, now).0, d, r)
    ensures Reserved(s, d, r)
  {
  }

  lemma RegisterReservations(s: Store, id: DocumentId, owner: Owner, path: string, now: nat, d: DocumentId, r: PlanId)
    requires Reserved(Register(s, id, owner, path, now).0, d, r)
    ensures Reserved(s, d, r)
  {
  }

  /** None of these calls makes a reservation, except for the caller's own. */
  lemma PlanningReservations(y: System, step: Step, d: DocumentId, r: PlanId)
    requires Enabled(y, step) && IsPlanningCall(step.call) && r in y.issuedPlans
    requires Reserved(Apply(y, step).store, d, r)
    ensures Reserved(y.store, d, r)
  {
    hide Publish, Register;
    match step.call {
      case Open(id, owner, path) => RegisterReservations(y.store, id, owner, path, step.now, d, r);
      case Close(_, _) =>
      case BeginSave(_, _, _) =>
      case FinishSave(id, payload) =>
        PublishReservations(y.store, y.planners[id].document, y.planners[id].owner, id, payload, step.now, d, r);
    }
  }

  lemma PlanningPlanners(y: System, step: Step, r: PlanId)
    requires PlannersOk(y) && Enabled(y, step) && r in y.planners && IsPlanningCall(step.call)
    ensures PlannerLater(y, Apply(y, step), r)
  {
    hide Publish, Register, Reserve, DiscardDocument, Reserved;
    assert PlannerOk(y, r);
    var d := y.planners[r].document;
    if Reserved(Apply(y, step).store, d, r) { PlanningReservations(y, step, d, r); }
    match step.call {
      case Open(_, _, _) =>
      case Close(_, _) =>
      case BeginSave(_, _, _) =>
      case FinishSave(_, _) =>
    }
  }

  lemma PlanCallPlanners(y: System, step: Step, r: PlanId)
    requires Enabled(y, step) && r in y.planners && IsPlanCall(step.call)
    ensures PlannerLater(y, Apply(y, step), r)
  {
  }

  lemma OtherPlanners(y: System, step: Step, r: PlanId)
    requires Enabled(y, step) && r in y.planners && !IsPlanningCall(step.call) && !IsPlanCall(step.call)
    ensures PlannerLater(y, Apply(y, step), r)
  {
  }

  lemma StepPlanners(y: System, step: Step, r: PlanId)
    requires Inv(y) && Enabled(y, step) && r in y.planners
    ensures PlannerLater(y, Apply(y, step), r)
  {
    hide PlannerLater, PlansOk, DocumentsOk, PendingsOk, EventsOk;
    if IsPlanningCall(step.call) {
      PlanningPlanners(y, step, r);
    } else if IsPlanCall(step.call) {
      PlanCallPlanners(y, step, r);
    } else {
      OtherPlanners(y, step, r);
    }
  }

  lemma StepEvents(y: System, step: Step)
    requires Enabled(y, step)
    ensures y.events <= Apply(y, step).events
  {
    hide Register, Reserve, Publish, Insert, Discard, Consume, Release;
    hide PlanExpires, DocumentExpires, DiscardDocument, RevokeSession, WithStatus;
    if step.call.DiscardCall? || step.call.Execute? {
      assert Apply(y, step).events == y.events || Apply(y, step).events[..|y.events|] == y.events;
    } else {
      StepWithoutEvent(y, step);
    }
  }

  lemma StepWithoutEvent(y: System, step: Step)
    requires Enabled(y, step) && !step.call.DiscardCall? && !step.call.Execute?
    ensures Apply(y, step).events == y.events
  {
    hide Register, Reserve, Publish, Insert, Discard, Consume, Release;
    hide PlanExpires, DocumentExpires, DiscardDocument, RevokeSession;
    match step.call {
      case Open(_, _, _) =>
      case FinishSave(_, _) =>
      case _ =>
    }
  }

  lemma StepClock(y: System, step: Step)
    requires Enabled(y, step)
    ensures Apply(y, step).clock == step.now >= y.clock
  {
    hide Register, Reserve, Publish, Insert, Discard, Consume, Release;
    hide PlanExpires, DocumentExpires, DiscardDocument, RevokeSession;
    match step.call {
      case Open(_, _, _) =>
      case FinishSave(_, _) =>
      case _ =>
    }
  }

  lemma StepIssues(y: System, step: Step)
    requires Enabled(y, step)
    ensures y.issuedPlans <= Apply(y, step).issuedPlans && y.issuedDocuments <= Apply(y, step).issuedDocuments
  {
    hide Register, Reserve, Publish, Insert, Discard, Consume, Release;
    hide PlanExpires, DocumentExpires, DiscardDocument, RevokeSession;
    match step.call {
      case Open(_, _, _) =>
      case FinishSave(_, _) =>
      case _ =>
    }
  }

  lemma StepLater(y: System, step: Step)
    requires Inv(y) && Enabled(y, step)
    ensures Later(y, Apply(y, step))
  {
    hide Inv, DocumentLater, PlannerLater, Apply;
    var u := Apply(y, step);
    StepEvents(y, step);
    StepClock(y, step);
    StepIssues(y, step);
    forall d <- y.issuedDocuments ensures DocumentLater(y.store, u.store, d) {
      StepDocuments(y, step, d);
    }
    forall r <- y.planners ensures PlannerLater(y, u, r) {
      StepPlanners(y, step, r);
    }
  }

  // ----- Runs -----

  ghost predicate Becomes(y: System, step: Step, u: System) {
    Enabled(y, step) && u == Apply(y, step)
  }

  ghost predicate IsRun(states: seq<System>, steps: seq<Step>) {
    && |states| == |steps| + 1
    && states[0] == INITIAL
    && forall i | 0 <= i < |steps| :: Becomes(states[i], steps[i], states[i + 1])
  }

  lemma {:induction false} RunKeepsInv(states: seq<System>, steps: seq<Step>, i: nat)
    requires IsRun(states, steps) && i < |states|
    ensures Inv(states[i])
  {
    hide Inv;
    if i == 0 {
      InitialInv();
    } else {
      RunKeepsInv(states, steps, i - 1);
      assert Becomes(states[i - 1], steps[i - 1], states[i]);
      StepKeepsInv(states[i - 1], steps[i - 1]);
    }
  }

  lemma {:induction false} RunGoesForward(states: seq<System>, steps: seq<Step>, i: nat, j: nat)
    requires IsRun(states, steps) && i <= j < |states|
    ensures Later(states[i], states[j])
    decreases j - i
  {
    hide Inv;
    if i < j {
      RunKeepsInv(states, steps, j - 1);
      assert Becomes(states[j - 1], steps[j - 1], states[j]);
      StepLater(states[j - 1], steps[j - 1]);
      RunGoesForward(states, steps, i, j - 1);
      LaterIsTransitive(states[i], states[j - 1], states[j]);
    }
  }

  // ----- The theorems about runs -----

  /** The step executes plan `id`, or discards it with success. */
  ghost predicate UsesUp(y: System, step: Step, id: PlanId) {
    match step.call
    case Execute(p, owner) => p == id && Consume(y.store, p, owner, step.now).1.Ok?
    case DiscardCall(p, owner) => p == id && Discard(y.store, p, owner, step.now).1 == Ok(true)
    case _ => false
  }

  lemma UsingUpIsRecorded(y: System, step: Step, id: PlanId)
    requires Inv(y) && Enabled(y, step) && UsesUp(y, step, id)
    ensures IsLive(y.store, id) && Apply(y, step).events != [] && Apply(y, step).events[|y.events|].id == id
    ensures |Apply(y, step).events| == |y.events| + 1
  {
  }

  /** For each plan, one execution or one successful discard, never two of them. */
  lemma PlansAreOneShot(states: seq<System>, steps: seq<Step>, i: nat, j: nat, id: PlanId)
    requires IsRun(states, steps) && i < j < |steps|
    requires UsesUp(states[i], steps[i], id)
    ensures !UsesUp(states[j], steps[j], id)
  {
    hide Inv;
    RunKeepsInv(states, steps, i);
    RunKeepsInv(states, steps, j);
    assert Becomes(states[i], steps[i], states[i + 1]) && Becomes(states[j], steps[j], states[j + 1]);
    UsingUpIsRecorded(states[i], steps[i], id);
    RunGoesForward(states, steps, i + 1, j);
    assert states[j].events[|states[i].events|] in states[j].events;
    UsedUpIsNotLive(states[j], states[j].events[|states[i].events|]);
    if UsesUp(states[j], steps[j], id) {
      UsingUpIsRecorded(states[j], steps[j], id);
    }
  }

  lemma UsedUpIsNotLive(y: System, e: Event)
    requires Inv(y) && e in y.events
    ensures !IsLive(y.store, e.id)
  {
  }

  /** Execution happens within the plan's lifetime, for its own connection, and yields exactly the approved plan. */
  lemma ExecutionIsAuthorized(y: System, id: PlanId, owner: Owner, now: nat)
    requires Inv(y) && y.clock <= now
    ensures var (t, r) := Consume(y.store, id, owner, now);
      && (r.Ok? <==>
            && IsLive(y.store, id) && y.store.plans[id].plan.value.owner == owner
            && now <= y.store.plans[id].expires
            && (y.store.plans[id].document.Some? ==>
                  var d := y.store.plans[id].document.value;
                  d in y.store.documents && y.store.documents[d].expires > now))
      && (r.Ok? ==> Some(r.value) == y.store.plans[id].plan)
  {
    if id in y.store.plans { assert PlanOk(y, id); }
  }

  /** A plan that exists, or whose planning task is over, is from now on at most executed or forgotten. */
  ghost predicate PlanLater(s: Store, t: Store, p: PlanId) {
    p in t.plans ==>
      p in s.plans && (t.plans[p] == s.plans[p] || t.plans[p] == s.plans[p].(plan := None))
  }

  ghost predicate Settled(y: System, p: PlanId) {
    p in y.issuedPlans && (p in y.planners ==> y.planners[p].status.Finished?)
  }

  lemma StepKeepsSettled(y: System, step: Step, p: PlanId)
    requires Inv(y) && Enabled(y, step) && Settled(y, p)
    ensures Settled(Apply(y, step), p)
  {
    hide Apply, Inv, Enabled;
    StepIssues(y, step);
    if p in y.planners {
      StepPlanners(y, step, p);
    } else {
      PlannersAreIssued(y, step, p);
    }
  }

  lemma PlannersAreIssued(y: System, step: Step, p: PlanId)
    requires Enabled(y, step) && p in y.issuedPlans && p !in y.planners
    ensures p !in Apply(y, step).planners
  {
    hide Register, Reserve, Publish, Insert, Discard, Consume, Release;
    hide PlanExpires, DocumentExpires, DiscardDocument, RevokeSession;
    if !IsPlanningCall(step.call) && !step.call.DropGuard? { OtherCallsKeepPlanners(y, step); }
  }

  lemma OtherCallsKeepPlanners(y: System, step: Step)
    requires Enabled(y, step) && !IsPlanningCall(step.call) && !step.call.DropGuard?
    ensures Apply(y, step).planners == y.planners
  {
    hide Register, Reserve, Publish, Insert, Discard, Consume, Release, WithStatus;
    hide PlanExpires, DocumentExpires, DiscardDocument, RevokeSession;
  }

  lemma PublishPlans(s: Store, id: DocumentId, owner: Owner, r: PlanId, payload: seq<byte>, now: nat, p: PlanId)
    requires p != r
    ensures PlanLater(s, Publish(s, id, owner, r, payload, now).0, p)
  {
  }

  lemma InsertPlans(s: Store, id: PlanId, plan: Plan, now: nat, p: PlanId)
    requires p != id
    ensures PlanLater(s, s.(plans := Insert(s.plans, id, plan, None, now).0), p)
  {
  }

  lemma RegisterPlans(s: Store, d: DocumentId, owner: Owner, path: string, now: nat, p: PlanId)
    ensures PlanLater(s, Register(s, d, owner, path, now).0, p)
    ensures PlanLater(s, DiscardDocument(s, d, owner).0, p)
    ensures PlanLater(s, DocumentExpires(s, d, now), p)
  {
  }

  lemma UsePlans(s: Store, id: PlanId, owner: Owner, now: nat, p: PlanId)
    ensures PlanLater(s, Discard(s, id, owner, now).0, p)
    ensures PlanLater(s, Consume(s, id, owner, now).0, p)
  {
    hide Release;
  }

  lemma StepPlans(y: System, step: Step, p: PlanId)
    requires Enabled(y, step) && Settled(y, p)
    ensures PlanLater(y.store, Apply(y, step).store, p)
  {
    hide Register, Publish, Insert, Discard, Consume, Release;
    hide DocumentExpires, DiscardDocument;
    var s, now := y.store, step.now;
    match step.call {
      case Open(d, owner, path) => RegisterPlans(s, d, owner, path, now, p);
      case Close(d, owner) => RegisterPlans(s, d, owner, "", now, p);
      case FinishSave(id, payload) =>
        PublishPlans(s, y.planners[id].document, y.planners[id].owner, id, payload, now, p);
      case MakePlan(id, plan) => InsertPlans(s, id, plan, now, p);
      case DiscardCall(id, owner) => UsePlans(s, id, owner, now, p);
      case Execute(id, owner) => UsePlans(s, id, owner, now, p);
      case DocumentTimer(d) => RegisterPlans(s, d, Owner(0, 0, 0), "", y.documentTimers[d], p);
      case _ =>
    }
  }

  lemma {:induction false} PlansNeverChange(states: seq<System>, steps: seq<Step>, i: nat, j: nat, p: PlanId)
    requires IsRun(states, steps) && i <= j < |states| && Settled(states[i], p)
    ensures Settled(states[j], p) && PlanLater(states[i].store, states[j].store, p)
  {
    hide Inv, Apply, Enabled, Settled;
    if i < j {
      PlansNeverChange(states, steps, i, j - 1, p);
      RunKeepsInv(states, steps, j - 1);
      var y, step := states[j - 1], steps[j - 1];
      assert Becomes(states[j - 1], steps[j - 1], states[j - 1 + 1]);
      StepKeepsSettled(y, step, p);
      StepPlans(y, step, p);
    }
  }

  /** Whatever happens after a plan was stored, executing it yields exactly that plan. */
  lemma ExecutedAsApproved(states: seq<System>, steps: seq<Step>, i: nat, j: nat, p: PlanId, owner: Owner)
    requires IsRun(states, steps) && i <= j < |steps| && p in states[i].store.plans
    requires steps[j].call == Execute(p, owner) && UsesUp(states[j], steps[j], p)
    ensures states[i].store.plans[p].plan.Some?
    ensures Consume(states[j].store, p, owner, steps[j].now).1 == Ok(states[i].store.plans[p].plan.value)
  {
    hide Inv, Apply, Enabled;
    RunKeepsInv(states, steps, i);
    StoredPlanFacts(states[i], p);
    PlansNeverChange(states, steps, i, j, p);
  }

  /** Executing an editor plan retires its document for good. */
  lemma ExecutionRetiresDocument(states: seq<System>, steps: seq<Step>, i: nat, j: nat, id: PlanId, d: DocumentId)
    requires IsRun(states, steps) && i < j < |states|
    requires steps[i].call.Execute? && UsesUp(states[i], steps[i], id) && states[i].store.plans[id].document == Some(d)
    ensures d !in states[j].store.documents
  {
    RunKeepsInv(states, steps, i);
    assert PlanOk(states[i], id);
    RunGoesForward(states, steps, i + 1, j);
    assert Becomes(states[i], steps[i], states[i + 1]);
    assert DocumentLater(states[i + 1].store, states[j].store, d);
  }

  /**
   A planning task whose document was closed, replaced, expired, revoked or reserved anew while it
   was waiting can never publish its plan.
   */
  lemma LostReservationNeverPublishes(states: seq<System>, steps: seq<Step>, i: nat, j: nat,
                                      id: PlanId, payload: seq<byte>)
    requires IsRun(states, steps) && i <= j < |states|
    requires id in states[i].planners && !Reserved(states[i].store, states[i].planners[id].document, id)
    ensures id in states[j].planners
    ensures forall now :: Publish(states[j].store, states[j].planners[id].document, states[j].planners[id].owner,
                                  id, payload, now) == (states[j].store, Err(FilePolicy))
  {
    hide Inv;
    RunGoesForward(states, steps, i, j);
    assert PlannerLater(states[i], states[j], id);
  }

  /** A document has at most one live plan, and that plan is the one it is pending on. */
  lemma DocumentsHaveOnePlan(states: seq<System>, steps: seq<Step>, i: nat, p: PlanId, q: PlanId)
    requires IsRun(states, steps) && i < |states|
    requires IsLive(states[i].store, p) && IsLive(states[i].store, q)
    requires states[i].store.plans[p].document.Some?
    requires states[i].store.plans[p].document == states[i].store.plans[q].document
    requires states[i].store.plans[p].document.value in states[i].store.documents
    ensures p == q
    ensures states[i].store.documents[states[i].store.plans[p].document.value].use == Pending(p)
    ensures states[i].store.documents[states[i].store.plans[p].document.value].owner
            == states[i].store.plans[p].plan.value.owner
  {
    RunKeepsInv(states, steps, i);
    assert PlanOk(states[i], p) && PlanOk(states[i], q);
  }

  /**
   A pending document has its live plan or a passed deadline, unless `revoke_all` cleared the plans;
   in every case an expiry task is still due for it, and that task frees or drops it.
   */
  lemma PendingDocumentsAreFreed(states: seq<System>, steps: seq<Step>, i: nat, d: DocumentId, p: PlanId, now: nat)
    requires IsRun(states, steps) && i < |states|
    requires d in states[i].store.documents && states[i].store.documents[d].use == Pending(p)
    ensures var y := states[i];
      && p in y.planTimers && y.planTimers[p].1 == Some(d)
      && (|| y.plansCleared
          || y.store.documents[d].expires <= y.clock
          || y.planTimers[p].0 <= y.clock
          || (IsLive(y.store, p) && y.store.plans[p].document == Some(d)))
      && (now >= y.clock && now >= y.planTimers[p].0 ==>
            var u := Apply(y, Step(PlanTimer(p), now));
            d in u.store.documents ==> u.store.documents[d].use.Ready? && u.store.documents[d].expires > now)
  {
    RunKeepsInv(states, steps, i);
    assert DocumentOk(states[i], d) && PendingOk(states[i], d);
  }

  /** A reserved document has its planning task, whose guard will release it. */
  lemma ReservationsHaveOwners(states: seq<System>, steps: seq<Step>, i: nat, d: DocumentId, r: PlanId)
    requires IsRun(states, steps) && i < |states|
    requires Reserved(states[i].store, d, r)
    ensures r in states[i].planners && states[i].planners[r].document == d
    ensures !states[i].planners[r].status.Finished?
  {
    RunKeepsInv(states, steps, i);
    assert DocumentOk(states[i], d);
  }

  /** A discard takes back exactly a live, unexpired plan of its own connection, and frees its document. */
  lemma DiscardIsAuthorized(y: System, id: PlanId, owner: Owner, now: nat)
    requires Inv(y) && y.clock <= now
    ensures var (t, r) := Discard(y.store, id, owner, now);
      && (r == Ok(true) <==>
            && IsLive(y.store, id) && y.store.plans[id].plan.value.owner == owner
            && now < y.store.plans[id].expires
            && (y.store.plans[id].document.Some? ==>
                  var d := y.store.plans[id].document.value;
                  d in y.store.documents && y.store.documents[d].expires > now))
      && (if r.Ok? then id !in t.plans else t == y.store)
      && (r.Err? <==>
            IsLive(y.store, id) && now < y.store.plans[id].expires && y.store.plans[id].plan.value.owner != owner)
      && (r == Ok(true) ==>
            && t.plans == y.store.plans - {id}
            && forall d <- y.store.documents ::
                 var document := y.store.documents[d];
                 d in t.documents
                 && t.documents[d] == if document.use == Pending(id) then document.(use := Ready) else document)
  {
    if id in y.store.plans { assert PlanOk(y, id); }
    forall d <- y.store.documents ensures DocumentOk(y, d) {}
  }

  /** Closing a document touches it and its own pending plan, for its own connection only. */
  lemma CloseIsScoped(y: System, d: DocumentId, owner: Owner)
    requires Inv(y)
    ensures var (t, r) := DiscardDocument(y.store, d, owner);
      && (r.Err? <==> d in y.store.documents && y.store.documents[d].owner != owner)
      && (r.Err? ==> t == y.store)
      && (r.Ok? ==> t.documents == y.store.documents - {d})
      && (forall p <- y.store.plans :: p !in t.plans ==>
            y.store.plans[p].document == Some(d) && d in y.store.documents && y.store.documents[d].use == Pending(p))
      && (r.Ok? && d in y.store.documents ==> forall p <- t.plans :: IsLive(t, p) ==> t.plans[p].document != Some(d))
  {
    forall p <- y.store.plans ensures PlanOk(y, p) {}
  }

  /** Revoking a session leaves nothing of it, and everything else that could still be used. */
  lemma RevocationIsExact(s: Store, host: HostId, session: HostSessionId)
    ensures var t := RevokeSession(s, host, session);
      && (forall p <- s.plans :: p in t.plans <==>
            IsLive(s, p) && (s.plans[p].plan.value.owner.host, s.plans[p].plan.value.owner.session) != (host, session))
      && (forall d <- s.documents :: d in t.documents <==>
            (s.documents[d].owner.host, s.documents[d].owner.session) != (host, session))
      && (forall p <- t.plans :: p in s.plans && t.plans[p] == s.plans[p])
      && (forall d <- t.documents :: d in s.documents && t.documents[d] == s.documents[d])
  {
  }

  /** No operation moves a document's deadline, and a document that is gone never returns. */
  lemma DeadlinesNeverMove(states: seq<System>, steps: seq<Step>, i: nat, j: nat, d: DocumentId)
    requires IsRun(states, steps) && i <= j < |states| && d in states[i].issuedDocuments
    ensures d in states[j].store.documents ==>
              && d in states[i].store.documents
              && states[j].store.documents[d].expires == states[i].store.documents[d].expires
              && states[j].store.documents[d].owner == states[i].store.documents[d].owner
              && states[j].store.documents[d].path == states[i].store.documents[d].path
  {
    hide Inv;
    RunGoesForward(states, steps, i, j);
    assert DocumentLater(states[i].store, states[j].store, d);
  }

  /** A dropped planning guard gives back its own reservation and disturbs nothing else. */
  lemma GuardReleasesOnlyItsOwn(states: seq<System>, steps: seq<Step>, i: nat, r: PlanId, now: nat)
    requires IsRun(states, steps) && i < |states| && Enabled(states[i], Step(DropGuard(r), now))
    ensures var y, u := states[i], Apply(states[i], Step(DropGuard(r), now));
      && u.store.plans == y.store.plans
      && !Reserved(u.store, y.planners[r].document, r)
      && (forall d <- y.store.documents :: !Reserved(y.store, d, r) ==>
            d in u.store.documents && u.store.documents[d] == y.store.documents[d])
  {
  }

  /** The store never outgrows its caps. */
  lemma StoreIsBounded(states: seq<System>, steps: seq<Step>, i: nat)
    requires IsRun(states, steps) && i < |states|
    ensures |states[i].store.plans| <= PLAN_CAP && |states[i].store.documents| <= PLAN_CAP
  {
    RunKeepsInv(states, steps, i);
  }

  /** A connection has at most one document for a path. */
  ghost predicate OnePerPath(s: Store) {
    forall d, e | d in s.documents && e in s.documents ::
      s.documents[d].owner == s.documents[e].owner && s.documents[d].path == s.documents[e].path ==> d == e
  }

  lemma RegisterKeepsOnePerPath(s: Store, d: DocumentId, owner: Owner, path: string, now: nat)
    requires OnePerPath(s)
    ensures OnePerPath(Register(s, d, owner, path, now).0)
  {
    hide WithoutDocuments;
  }

  lemma OtherCallsIssueNoDocument(y: System, step: Step)
    requires Enabled(y, step) && !step.call.Open?
    ensures Apply(y, step).issuedDocuments == y.issuedDocuments
  {
    hide Register, Reserve, Publish, Insert, Discard, Consume, Release;
    hide PlanExpires, DocumentExpires, DiscardDocument, RevokeSession;
    match step.call {
      case FinishSave(_, _) =>
      case _ =>
    }
  }

  lemma StepKeepsOnePerPath(y: System, step: Step)
    requires Inv(y) && Enabled(y, step) && OnePerPath(y.store)
    ensures OnePerPath(Apply(y, step).store)
  {
    var u := Apply(y, step);
    if step.call.Open? {
      OpenKeepsOnePerPath(y, step);
    } else {
      hide Apply, PlansOk, PendingsOk, PlannersOk, EventsOk, Bounded;
      StepKeepsInv(y, step);
      OtherCallsIssueNoDocument(y, step);
      forall d <- u.store.documents
        ensures d in y.store.documents
        ensures u.store.documents[d].owner == y.store.documents[d].owner
        ensures u.store.documents[d].path == y.store.documents[d].path
      {
        assert DocumentOk(u, d);
        StepDocuments(y, step, d);
      }
    }
  }

  lemma OpenKeepsOnePerPath(y: System, step: Step)
    requires Enabled(y, step) && OnePerPath(y.store) && step.call.Open?
    ensures OnePerPath(Apply(y, step).store)
  {
    hide Register, OnePerPath;
    RegisterKeepsOnePerPath(y.store, step.call.document, step.call.owner, step.call.path, step.now);
  }

  /** Opening a path again replaces the connection's earlier document of that path. */
  lemma {:induction false} DocumentsAreUniquePerPath(states: seq<System>, steps: seq<Step>, i: nat)
    requires IsRun(states, steps) && i < |states|
    ensures OnePerPath(states[i].store)
  {
    hide Inv, Apply, Enabled;
    if i > 0 {
      DocumentsAreUniquePerPath(states, steps, i - 1);
      RunKeepsInv(states, steps, i - 1);
      assert Becomes(states[i - 1], steps[i - 1], states[i - 1 + 1]);
      StepKeepsOnePerPath(states[i - 1], steps[i - 1]);
    }
  }
}
