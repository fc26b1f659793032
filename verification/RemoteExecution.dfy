/**
 Runs of the remote-operation foundation: concurrent `execute` calls, each a sequence of
 critical sections and awaits, with lifecycle guards, planning, discards, revocations,
 expiry tasks and shutdown in between.
 */
module RemoteExecution {
  import opened Common
  import opened AuthorityStore

  type ExecId = nat

  datatype Holder = Execution(e: ExecId) | Lifecycle(g: nat)

  datatype Return =
    | Refused                  // sealed, busy, missing, stale, expired or mistyped
    | CancelledBeforeDispatch
    | RevalidationFailed
    | Transported
    | Dropped                  // the caller dropped the future

  /** The statements of `execute` that have been passed. */
  datatype Pc =
    | Entered | Unsealed | HostHeld | Admitted | Checked
    | Taken | Revalidating | Revalidated | Cleared | Dispatching
    | Returned(how: Return)

  datatype Exec = Exec(
    plan: PlanId, binding: Binding, operation: Operation,
    cancelled: bool,
    pc: Pc,
    authority: Option<Authority>,  // set by consumption and never taken back
    revalidated: bool,             // the revalidator approved that authority
    sent: bool                     // the transport was called
  )

  datatype System = System(
    store: Authorities,
    issued: set<PlanId>,
    gates: map<HostId, Holder>,   // the locked host gates
    global: Option<ExecId>,       // who holds the only permit
    execs: map<ExecId, Exec>,
    dispatched: seq<ExecId>       // calls of the transport, in order
  )

  const INITIAL := System(EMPTY, {}, map[], None, map[], [])

  datatype Step =
    | Plan(id: PlanId, draft: Binding, current: Binding, operation: Operation, unit: string, now: nat)
    | DiscardPlan(id: PlanId, binding: Binding, operation: Operation, now: nat)
    | RevokeForHost(host: HostId)
    | RevokeForSession(host: HostId, session: HostSessionId)
    | ExpirePlan(id: PlanId, expires: nat)
    | Shutdown
    | Lock(g: nat, host: HostId)
    | Unlock(host: HostId)
    | Call(e: ExecId, plan: PlanId, binding: Binding, operation: Operation)
    | CancelCall(e: ExecId)
    | Advance(e: ExecId, ok: bool, now: nat)   // `ok`: what revalidation answers
    | DropCall(e: ExecId)

  predicate HoldsHost(pc: Pc) {
    pc.HostHeld? || HoldsGlobal(pc)
  }

  predicate HoldsGlobal(pc: Pc) {
    pc.Admitted? || pc.Checked? || pc.Taken? || pc.Revalidating? || pc.Revalidated? || pc.Cleared? || pc.Dispatching?
  }

  predicate Enabled(s: System, step: Step) {
    match step
    case Plan(id, _, _, _, _, _) => id !in s.issued
    case Lock(_, host) => host !in s.gates
    case Unlock(host) => host in s.gates && s.gates[host].Lifecycle?
    case Call(e, _, _, _) => e !in s.execs
    case CancelCall(e) => e in s.execs
    case Advance(e, _, _) => e in s.execs && !s.execs[e].pc.Returned?
    case DropCall(e) => e in s.execs && (s.execs[e].pc.Revalidating? || s.execs[e].pc.Dispatching?)
    case _ => true
  }

  /** Moves one execution; its permits follow from where it is. */
  function Move(s: System, e: ExecId, to: Exec): System
    requires e in s.execs
  {
    var was := s.execs[e];
    s.(execs := s.execs[e := to],
       gates := if HoldsHost(to.pc) then s.gates[was.binding.host := Execution(e)]
                else if HoldsHost(was.pc) then s.gates - {was.binding.host}
                else s.gates,
       global := if HoldsGlobal(to.pc) then Some(e) else if HoldsGlobal(was.pc) then None else s.global)
  }

  function NextPc(s: System, x: Exec, ok: bool): Pc {
    match x.pc
    case Entered => if s.store.sealed then Returned(Refused) else Unsealed
    case Unsealed => if x.binding.host in s.gates then Returned(Refused) else HostHeld
    case HostHeld => if s.global.Some? then Returned(Refused) else Admitted
    case Admitted => if s.store.sealed then Returned(Refused) else Checked
    case Taken => if x.cancelled then Returned(CancelledBeforeDispatch) else Revalidating
    case Revalidating =>
      if ok then Revalidated
      else Returned(if x.cancelled then CancelledBeforeDispatch else RevalidationFailed)
    case Revalidated => if s.store.sealed || x.cancelled then Returned(CancelledBeforeDispatch) else Cleared
    case Cleared => Dispatching
    case _ => Returned(Transported)
  }

  function Advanced(s: System, e: ExecId, ok: bool, now: nat): System
    requires e in s.execs
  {
    var x := s.execs[e];
    if x.pc.Checked? then
      var (store, r) := Consume(s.store, x.plan, x.binding, x.operation, now);
      Move(s.(store := store), e,
           if r.Ok? then x.(pc := Taken, authority := Some(r.value)) else x.(pc := Returned(Refused)))
    else if x.pc.Cleared? then
      Move(s.(dispatched := s.dispatched + [e]), e, x.(pc := Dispatching, sent := true))
    else
      Move(s, e, x.(pc := NextPc(s, x, ok), revalidated := x.revalidated || (x.pc.Revalidating? && ok)))
  }

  function Apply(s: System, step: Step): System
    requires Enabled(s, step)
  {
    match step
    case Plan(id, draft, current, o, unit, now) =>
      s.(store := Insert(s.store, id, draft, current, o, unit, now).0, issued := s.issued + {id})
    case DiscardPlan(id, b, o, now) => s.(store := Discard(s.store, id, b, o, now).0)
    case RevokeForHost(host) => s.(store := RevokeHost(s.store, host).0)
    case RevokeForSession(host, session) => s.(store := RevokeSession(s.store, host, session).0)
    case ExpirePlan(id, expires) => s.(store := Expire(s.store, id, expires))
    case Shutdown => s.(store := Seal(s.store))
    case Lock(g, host) => s.(gates := s.gates[host := Lifecycle(g)])
    case Unlock(host) => s.(gates := s.gates - {host})
    case Call(e, plan, b, o) => s.(execs := s.execs[e := Exec(plan, b, o, false, Entered, None, false, false)])
    case CancelCall(e) => s.(execs := s.execs[e := s.execs[e].(cancelled := true)])
    case Advance(e, ok, now) => Advanced(s, e, ok, now)
    case DropCall(e) => Move(s, e, s.execs[e].(pc := Returned(Dropped)))
  }

  // ----- The invariant -----

  ghost predicate GateInv(s: System) {
    && (forall e <- s.execs :: HoldsHost(s.execs[e].pc) ==>
          s.execs[e].binding.host in s.gates && s.gates[s.execs[e].binding.host] == Execution(e))
    && (forall h <- s.gates :: s.gates[h].Execution? ==>
          s.gates[h].e in s.execs && HoldsHost(s.execs[s.gates[h].e].pc) && s.execs[s.gates[h].e].binding.host == h)
    && (forall e <- s.execs :: HoldsGlobal(s.execs[e].pc) <==> s.global == Some(e))
    && (s.global.Some? ==> s.global.value in s.execs)
  }

  /** Where an execution is determines whether it has consumed and whether it has dispatched. */
  ghost predicate ExecInv(s: System, e: ExecId)
    requires e in s.execs
  {
    var x := s.execs[e];
    && (x.pc.Taken? || x.pc.Revalidating? || x.pc.Revalidated? || x.pc.Cleared? || x.pc.Dispatching? ==>
          x.authority.Some?)
    && (HoldsGlobal(x.pc) && x.authority.Some? ==> !x.pc.Admitted? && !x.pc.Checked?)
    && (x.authority.Some? ==>
          && x.authority.value.binding == x.binding && x.authority.value.operation == x.operation
          && x.plan in s.issued && x.plan !in s.store.pending
          && (HoldsGlobal(x.pc) || x.pc.Returned?))
    && (x.sent ==> x.authority.Some? && (x.pc.Dispatching? || x.pc.Returned?))
    && (x.pc.Dispatching? ==> x.sent)
    && (x.pc.Revalidated? || x.pc.Cleared? || x.sent ==> x.revalidated)
    && (x.revalidated ==> x.pc.Revalidated? || x.pc.Cleared? || x.pc.Dispatching? || x.pc.Returned?)
    && (x.sent <==> e in s.dispatched)
  }

  /** No plan is consumed by two executions. */
  ghost predicate OneTaker(s: System) {
    forall e, f | e in s.execs && f in s.execs && s.execs[e].authority.Some? && s.execs[f].authority.Some? ::
      s.execs[e].plan == s.execs[f].plan ==> e == f
  }

  ghost predicate ExecsInv(s: System) {
    && (forall e <- s.execs :: ExecInv(s, e))
    && OneTaker(s)
    && NoDuplicates(s.dispatched)
    && (forall e <- s.dispatched :: e in s.execs)
  }

  ghost predicate Inv(s: System) {
    Inverse(s.store) && s.store.pending.Keys <= s.issued && GateInv(s) && ExecsInv(s)
  }

  lemma InitialInv()
    ensures Inv(INITIAL)
  {
  }

  lemma MoveKeepsGates(s: System, e: ExecId, to: Exec)
    requires GateInv(s) && e in s.execs
    requires to.binding == s.execs[e].binding
    requires HoldsHost(to.pc) && !HoldsHost(s.execs[e].pc) ==> to.binding.host !in s.gates
    requires HoldsGlobal(to.pc) && !HoldsGlobal(s.execs[e].pc) ==> s.global.None?
    ensures GateInv(Move(s, e, to))
  {
  }

  /** Steps on the store alone: nothing consumed comes back. */
  lemma StoreStepKeepsInv(s: System, store: Authorities, issued: set<PlanId>)
    requires Inv(s) && Inverse(store) && s.issued <= issued && store.pending.Keys <= issued
    requires forall p <- store.pending :: p in s.store.pending || p !in s.issued
    ensures Inv(s.(store := store, issued := issued))
  {
  }

  lemma StoreStepShrinks(s: Authorities, step: Step)
    requires Inverse(s)
    requires step.DiscardPlan? || step.RevokeForHost? || step.RevokeForSession? || step.ExpirePlan? || step.Shutdown?
    ensures var t := Apply(System(s, {}, map[], None, map[], []), step).store;
      Inverse(t) && t.pending.Keys <= s.pending.Keys
  {
    match step
    case DiscardPlan(id, b, o, now) => OperationsKeepInverse(s, id, b, b, o, "", now);
    case RevokeForHost(host) => OperationsKeepInverse(s, 0, Binding(host, 0, 0), Binding(host, 0, 0), Start, "", 0);
    case RevokeForSession(host, session) =>
      OperationsKeepInverse(s, 0, Binding(host, session, 0), Binding(host, session, 0), Start, "", 0);
    case ExpirePlan(id, expires) =>
      OperationsKeepInverse(s, id, Binding(0, 0, 0), Binding(0, 0, 0), Start, "", expires);
    case _ =>
  }

  lemma PlanKeepsInv(s: System, step: Step)
    requires Inv(s) && Enabled(s, step) && step.Plan?
    ensures Inv(Apply(s, step))
  {
    hide GateInv, ExecInv;
    OperationsKeepInverse(s.store, step.id, step.draft, step.current, step.operation, step.unit, step.now);
    StoreStepKeepsInv(s, Apply(s, step).store, s.issued + {step.id});
  }

  /** What consuming does to the pending plans. */
  lemma ConsumeTakes(s: Authorities, id: PlanId, b: Binding, o: Operation, now: nat)
    requires Inverse(s)
    ensures var (t, r) := Consume(s, id, b, o, now);
      && t.pending.Keys <= s.pending.Keys
      && (r.Ok? ==> id in s.pending && id !in t.pending && r.value == s.pending[id])
      && (r.Ok? ==> r.value.binding == b && r.value.operation == o)
  {
    RemoveIdKeepsInverse(s, id);
  }

  /** Consumption makes the plan disappear, so nobody else took or can take it. */
  lemma TakeKeepsExecs(s: System, e: ExecId, now: nat)
    requires Inv(s) && e in s.execs && s.execs[e].pc.Checked?
    ensures ExecsInv(Advanced(s, e, true, now))
  {
    hide GateInv, Consume, Inverse;
    var x := s.execs[e];
    ConsumeTakes(s.store, x.plan, x.binding, x.operation, now);
  }

  lemma DispatchKeepsExecs(s: System, e: ExecId)
    requires Inv(s) && e in s.execs && s.execs[e].pc.Cleared?
    ensures ExecsInv(Advanced(s, e, true, 0))
  {
    hide GateInv, Inverse;
    assert ExecInv(s, e);
  }

  lemma PlainAdvanceKeepsExecs(s: System, e: ExecId, ok: bool)
    requires Inv(s) && e in s.execs && !s.execs[e].pc.Checked? && !s.execs[e].pc.Cleared? && !s.execs[e].pc.Returned?
    ensures ExecsInv(Advanced(s, e, ok, 0))
  {
    hide GateInv, Inverse;
    assert ExecInv(s, e);
  }

  lemma AdvanceKeepsInv(s: System, e: ExecId, ok: bool, now: nat)
    requires Inv(s) && Enabled(s, Advance(e, ok, now))
    ensures Inv(Apply(s, Advance(e, ok, now)))
  {
    hide ExecsInv, GateInv, Inverse;
    var x := s.execs[e];
    OperationsKeepInverse(s.store, x.plan, x.binding, x.binding, x.operation, "", now);
    AdvanceGates(s, e, ok, now);
    if x.pc.Checked? {
      TakeKeepsExecs(s, e, now);
    } else if x.pc.Cleared? {
      DispatchKeepsExecs(s, e);
    } else {
      PlainAdvanceKeepsExecs(s, e, ok);
    }
  }

  lemma AdvanceGates(s: System, e: ExecId, ok: bool, now: nat)
    requires GateInv(s) && e in s.execs
    ensures GateInv(Advanced(s, e, ok, now))
  {
    hide Consume;
    var t := s.(store := Advanced(s, e, ok, now).store, dispatched := Advanced(s, e, ok, now).dispatched);
    MoveKeepsGates(t, e, Advanced(s, e, ok, now).execs[e]);
  }

  lemma StepKeepsInv(s: System, step: Step)
    requires Inv(s) && Enabled(s, step)
    ensures Inv(Apply(s, step))
  {
    if step.Advance? {
      AdvanceKeepsInv(s, step.e, step.ok, step.now);
    } else if step.Plan? {
      PlanKeepsInv(s, step);
    } else if step.DropCall? {
      MoveKeepsGates(s, step.e, Apply(s, step).execs[step.e]);
    } else if step.Lock? || step.Unlock? || step.Call? || step.CancelCall? {
      CallStepKeepsInv(s, step);
    } else {
      StoreStepShrinks(s.store, step);
      StoreStepKeepsInv(s, Apply(s, step).store, s.issued);
    }
  }

  lemma CallStepKeepsInv(s: System, step: Step)
    requires Inv(s) && Enabled(s, step) && (step.Lock? || step.Unlock? || step.Call? || step.CancelCall?)
    ensures Inv(Apply(s, step))
  {
    hide ExecsInv, GateInv, Inverse;
    CallStepKeepsGates(s, step);
    CallStepKeepsExecs(s, step);
  }

  lemma CallStepKeepsGates(s: System, step: Step)
    requires GateInv(s) && Enabled(s, step) && (step.Lock? || step.Unlock? || step.Call? || step.CancelCall?)
    ensures GateInv(Apply(s, step))
  {
  }

  lemma CallStepKeepsExecs(s: System, step: Step)
    requires ExecsInv(s) && Enabled(s, step) && (step.Lock? || step.Unlock? || step.Call? || step.CancelCall?)
    ensures ExecsInv(Apply(s, step))
  {
    match step {
      case Lock(_, _) =>
      case Unlock(_) =>
      case Call(_, _, _, _) =>
      case CancelCall(_) =>
    }
  }

  // ----- What is true later, once it is true -----

  /** Has not dispatched and is not past the last look at the seal. */
  ghost predicate Harmless(x: Exec) {
    !x.sent && !x.pc.Cleared?
  }

  ghost predicate Later(s: System, u: System) {
    && s.execs.Keys <= u.execs.Keys
    && (forall e <- s.execs ::
          u.execs[e].plan == s.execs[e].plan && u.execs[e].binding == s.execs[e].binding
          && (s.execs[e].authority.Some? ==> u.execs[e].authority == s.execs[e].authority)
          && (s.execs[e].cancelled ==> u.execs[e].cancelled && (Harmless(s.execs[e]) ==> Harmless(u.execs[e]))))
    && (s.store.sealed ==>
          && u.store.sealed
          && forall e <- u.execs :: (e !in s.execs || Harmless(s.execs[e])) ==> Harmless(u.execs[e]))
  }

  lemma LaterIsTransitive(s: System, u: System, v: System)
    requires Later(s, u) && Later(u, v)
    ensures Later(s, v)
  {
  }

  lemma StoreStepsKeepSeal(s: System, step: Step)
    requires Enabled(s, step) && s.store.sealed
    ensures Apply(s, step).store.sealed
  {
  }

  /** What an execution keeps while it advances; nothing else moves. */
  lemma AdvancesOne(s: System, e: ExecId, ok: bool, now: nat)
    requires Enabled(s, Advance(e, ok, now)) && ExecInv(s, e)
    ensures var u, x := Advanced(s, e, ok, now), s.execs[e];
      && e in u.execs && u.execs == s.execs[e := u.execs[e]]
      && u.execs[e].plan == x.plan && u.execs[e].binding == x.binding && u.execs[e].cancelled == x.cancelled
      && (x.authority.Some? ==> u.execs[e].authority == x.authority)
      && (s.store.sealed || x.cancelled ==> Harmless(x) ==> Harmless(u.execs[e]))
  {
    hide Consume;
    match s.execs[e].pc {
      case Checked =>
      case Cleared =>
      case _ =>
    }
  }

  lemma AdvanceLater(s: System, e: ExecId, ok: bool, now: nat)
    requires Enabled(s, Advance(e, ok, now)) && ExecInv(s, e)
    requires s.store.sealed ==> Advanced(s, e, ok, now).store.sealed
    ensures Later(s, Advanced(s, e, ok, now))
  {
    hide Advanced;
    AdvancesOne(s, e, ok, now);
  }

  lemma OtherStepLater(s: System, step: Step)
    requires Enabled(s, step) && !step.Advance?
    requires s.store.sealed ==> Apply(s, step).store.sealed
    ensures Later(s, Apply(s, step))
  {
    hide Insert, Discard, RevokeHost, RevokeSession, Expire, Advanced;
  }

  lemma StepLater(s: System, step: Step)
    requires Inv(s) && Enabled(s, step)
    ensures Later(s, Apply(s, step))
  {
    hide Later, GateInv, Inverse, OneTaker;
    if s.store.sealed { StoreStepsKeepSeal(s, step); }
    if step.Advance? {
      AdvanceLater(s, step.e, step.ok, step.now);
    } else {
      OtherStepLater(s, step);
    }
  }

  // ----- Runs -----

  ghost predicate Becomes(s: System, step: Step, u: System) {
    Enabled(s, step) && u == Apply(s, step)
  }

  ghost predicate IsRun(states: seq<System>, steps: seq<Step>) {
    && |states| == |steps| + 1
    && states[0] == INITIAL
    && forall i | 0 <= i < |steps| :: Becomes(states[i], steps[i], states[i + 1])
  }

  lemma {:induction false} RunKeepsInv(states: seq<System>, steps: seq<Step>, i: nat)
    requires IsRun(states, steps) && i < |states|
    ensures Inv(states[i])
  {
    hide Inv;
    if i == 0 {
      InitialInv();
    } else {
      RunKeepsInv(states, steps, i - 1);
      assert Becomes(states[i - 1], steps[i - 1], states[i]);
      StepKeepsInv(states[i - 1], steps[i - 1]);
    }
  }

  lemma {:induction false} RunGoesForward(states: seq<System>, steps: seq<Step>, i: nat, j: nat)
    requires IsRun(states, steps) && i <= j < |states|
    ensures Later(states[i], states[j])
    decreases j - i
  {
    hide Inv;
    if i < j {
      RunKeepsInv(states, steps, j - 1);
      assert Becomes(states[j - 1], steps[j - 1], states[j]);
      StepLater(states[j - 1], steps[j - 1]);
      RunGoesForward(states, steps, i, j - 1);
      LaterIsTransitive(states[i], states[j - 1], states[j]);
    }
  }

  // ----- The theorems about runs -----

  /** Each plan reaches the transport at most once, and only with the identity it was approved for. */
  lemma PlansDispatchOnce(states: seq<System>, steps: seq<Step>, n: nat, i: nat, j: nat)
    requires IsRun(states, steps) && n < |states|
    requires i < |states[n].dispatched| && j < |states[n].dispatched|
    ensures states[n].dispatched[i] in states[n].execs && states[n].dispatched[j] in states[n].execs
    ensures states[n].execs[states[n].dispatched[i]].plan == states[n].execs[states[n].dispatched[j]].plan ==> i == j
    ensures var x := states[n].execs[states[n].dispatched[i]];
      && x.authority.Some? && x.authority.value.binding == x.binding && x.authority.value.operation == x.operation
      && x.revalidated
      && x.plan in states[n].issued && x.plan !in states[n].store.pending
  {
    RunKeepsInv(states, steps, n);
    var s := states[n];
    assert s.dispatched[i] in s.dispatched && s.dispatched[j] in s.dispatched;
    assert ExecInv(s, s.dispatched[i]) && ExecInv(s, s.dispatched[j]);
  }

  /** At most one dispatch is in flight, and none overlaps a lifecycle guard of its host. */
  lemma DispatchIsAlone(states: seq<System>, steps: seq<Step>, n: nat, e: ExecId, f: ExecId)
    requires IsRun(states, steps) && n < |states|
    requires e in states[n].execs && states[n].execs[e].pc.Dispatching?
    ensures f in states[n].execs && states[n].execs[f].pc.Dispatching? ==> f == e
    ensures states[n].execs[e].binding.host in states[n].gates
    ensures states[n].gates[states[n].execs[e].binding.host] == Execution(e)
  {
    RunKeepsInv(states, steps, n);
  }

  /** A busy rejection, and every refusal before consumption, leaves pending authority unchanged. */
  lemma BusyKeepsAuthority(s: System, e: ExecId, ok: bool, now: nat)
    requires Enabled(s, Advance(e, ok, now))
    requires !s.execs[e].pc.Checked?
    ensures Apply(s, Advance(e, ok, now)).store == s.store
    ensures s.execs[e].pc.Unsealed? && s.execs[e].binding.host in s.gates ==>
              Apply(s, Advance(e, ok, now)) == s.(execs := s.execs[e := s.execs[e].(pc := Returned(Refused))])
    ensures s.execs[e].pc.HostHeld? && s.global.Some? ==>
              Apply(s, Advance(e, ok, now)).execs[e].pc == Returned(Refused)
  {
  }

  /**
   The seal: once shutdown has begun, the store stays empty for good, and the only executions that
   may still dispatch are those that were already past their last look at the seal.
   */
  lemma SealStopsDispatch(states: seq<System>, steps: seq<Step>, i: nat, j: nat, e: ExecId)
    requires IsRun(states, steps) && i <= j < |states| && states[i].store.sealed
    ensures states[j].store.sealed && states[j].store.pending == map[] && states[j].store.byHost == map[]
    ensures e in states[j].dispatched && e !in states[i].dispatched ==>
              e in states[i].execs && states[i].execs[e].pc.Cleared?
  {
    RunKeepsInv(states, steps, i);
    RunKeepsInv(states, steps, j);
    RunGoesForward(states, steps, i, j);
    if e in states[j].dispatched { assert ExecInv(states[j], e); }
    if e in states[i].execs { assert ExecInv(states[i], e); }
  }

  /** A cancellation that comes before the last check prevents the dispatch for good. */
  lemma CancelStopsDispatch(states: seq<System>, steps: seq<Step>, i: nat, j: nat, e: ExecId)
    requires IsRun(states, steps) && i <= j < |states|
    requires e in states[i].execs && states[i].execs[e].cancelled && !states[i].execs[e].pc.Cleared?
    ensures e in states[j].dispatched ==> e in states[i].dispatched
  {
    hide GateInv, Inverse, OneTaker;
    RunKeepsInv(states, steps, i);
    RunKeepsInv(states, steps, j);
    RunGoesForward(states, steps, i, j);
    assert ExecInv(states[i], e);
    if e in states[j].dispatched { assert ExecInv(states[j], e); }
  }

  /** Consumption is final: the same plan is never consumed by another execution, before or after. */
  lemma ConsumptionIsFinal(states: seq<System>, steps: seq<Step>, i: nat, j: nat, e: ExecId, f: ExecId)
    requires IsRun(states, steps) && i <= j < |states|
    requires e in states[i].execs && states[i].execs[e].authority.Some?
    requires f in states[j].execs && states[j].execs[f].authority.Some?
    requires states[i].execs[e].plan == states[j].execs[f].plan
    ensures e == f && states[j].execs[f].authority == states[i].execs[e].authority
  {
    RunKeepsInv(states, steps, j);
    RunGoesForward(states, steps, i, j);
  }
}
