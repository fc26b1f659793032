/**
 How executions of approved operations return: what each answer says about the command, why it was given, and
 that a call that nothing stands in the way of reaches the transport.
 */
module ExecutionAnswers {
  import opened Common
  import opened AuthorityStore
  import opened RemoteExecution

  // ----- What an answer says -----

  /** What is known of the command once the call has returned. */
  ghost predicate AnswerInv(x: Exec, closed: bool) {
    x.pc.Returned? ==>
      match x.pc.how
      case Transported => x.sent
      case CancelledBeforeDispatch => !x.sent && x.authority.Some? && (x.cancelled || closed)
      case RevalidationFailed => !x.sent && !x.revalidated && x.authority.Some?
      case Refused => !x.sent && x.authority.None?
      case Dropped => x.authority.Some?
  }

  ghost predicate AnswersInv(s: System) {
    forall e <- s.execs :: AnswerInv(s.execs[e], s.store.sealed)
  }

  lemma AdvanceAnswers(s: System, e: ExecId, ok: bool, now: nat)
    requires Inv(s) && Enabled(s, Advance(e, ok, now))
    ensures AnswerInv(Advanced(s, e, ok, now).execs[e], s.store.sealed)
  {
    hide Consume, GateInv, Inverse;
    assert ExecInv(s, e);
    match s.execs[e].pc {
      case Checked =>
      case Cleared =>
      case _ =>
    }
  }

  lemma AdvanceKeepsSeal(s: System, e: ExecId, ok: bool, now: nat)
    requires Enabled(s, Advance(e, ok, now))
    ensures Advanced(s, e, ok, now).store.sealed == s.store.sealed
  {
  }

  lemma StepKeepsAnswers(s: System, step: Step)
    requires Inv(s) && AnswersInv(s) && Enabled(s, step)
    ensures AnswersInv(Apply(s, step))
  {
    hide Inv, Consume, Insert, Discard, RevokeHost, RevokeSession, Expire;
    if s.store.sealed { StoreStepsKeepSeal(s, step); }
    match step {
      case Advance(e, ok, now) =>
        AdvanceAnswers(s, e, ok, now);
        AdvanceKeepsSeal(s, e, ok, now);
      case DropCall(e) => DropAnswers(s, e);
      case Call(_, _, _, _) =>
      case CancelCall(_) =>
      case _ =>
    }
  }

  lemma DropAnswers(s: System, e: ExecId)
    requires Inv(s) && Enabled(s, DropCall(e))
    ensures s.execs[e].authority.Some?
  {
    assert ExecInv(s, e);
  }

  lemma {:induction false} RunKeepsAnswers(states: seq<System>, steps: seq<Step>, n: nat)
    requires IsRun(states, steps) && n < |states|
    ensures AnswersInv(states[n])
  {
    hide Inv, Apply, Enabled;
    if n > 0 {
      RunKeepsAnswers(states, steps, n - 1);
      RunKeepsInv(states, steps, n - 1);
      assert Becomes(states[n - 1], steps[n - 1], states[n - 1 + 1]);
      StepKeepsAnswers(states[n - 1], steps[n - 1]);
    }
  }

  /**
   In every run, a call that has returned and was not dropped reports its transport exactly if it reached it, and
   otherwise says truly that it did not, and whether it used its plan up.
   */
  lemma AnswersAreHonest(states: seq<System>, steps: seq<Step>, n: nat, e: ExecId)
    requires IsRun(states, steps) && n < |states| && e in states[n].execs
    requires states[n].execs[e].pc.Returned? && !states[n].execs[e].pc.how.Dropped?
    ensures var x, how := states[n].execs[e], states[n].execs[e].pc.how;
      && (how.Transported? <==> x.sent)
      && (x.sent <==> e in states[n].dispatched)
      && (how.Refused? <==> x.authority.None?)
      && (how.CancelledBeforeDispatch? ==> x.cancelled || states[n].store.sealed)
      && (how.RevalidationFailed? ==> !x.revalidated)
  {
    RunKeepsAnswers(states, steps, n);
    RunKeepsInv(states, steps, n);
    assert ExecInv(states[n], e);
  }

  // ----- Why it was given -----

  /**
   What a call is refused for at each of its steps: a seal, somebody else at its host, somebody else with the only
   permit, a plan that is not there to be taken.
   */
  ghost predicate MustRefuse(s: System, e: ExecId, now: nat)
    requires Inverse(s.store) && e in s.execs
  {
    var x := s.execs[e];
    match x.pc
    case Entered | Admitted => s.store.sealed
    case Unsealed => x.binding.host in s.gates && s.gates[x.binding.host] != Execution(e)
    case HostHeld => s.global.Some? && s.global.value != e
    case Checked => !Takes(View(s.store, now), x.plan, x.binding, x.operation)
    case _ => false
  }

  ghost predicate Why(s: System, e: ExecId, ok: bool, now: nat, how: Return)
    requires Inverse(s.store) && e in s.execs
  {
    var x := s.execs[e];
    match how
    case Refused => MustRefuse(s, e, now)
    case CancelledBeforeDispatch => x.cancelled || s.store.sealed
    case RevalidationFailed => x.pc.Revalidating? && !ok && !x.cancelled
    case Transported => e in s.dispatched
    case Dropped => false
  }

  lemma AdvanceHasReason(s: System, e: ExecId, ok: bool, now: nat)
    requires Inv(s) && Enabled(s, Advance(e, ok, now))
    ensures var pc := Advanced(s, e, ok, now).execs[e].pc; pc.Returned? ==> Why(s, e, ok, now, pc.how)
    ensures Advanced(s, e, ok, now).execs[e].pc == Returned(Refused) <==> MustRefuse(s, e, now)
  {
    hide View, Takes, Consume;
    assert ExecInv(s, e);
    var x := s.execs[e];
    match x.pc {
      case Checked => ConsumeRefines(s.store, x.plan, x.binding, x.operation, now);
      case Unsealed =>
      case HostHeld =>
      case _ =>
    }
  }

  ghost predicate Answered(s: System, step: Step, e: ExecId, how: Return) {
    && Inverse(s.store) && step.Advance? && step.e == e && e in s.execs && !s.execs[e].pc.Returned?
    && Why(s, e, step.ok, step.now, how)
  }

  lemma OtherStepsAnswerNothing(s: System, step: Step, e: ExecId)
    requires Enabled(s, step) && !(step.Advance? && step.e == e) && !(step.DropCall? && step.e == e)
    requires e in Apply(s, step).execs && Apply(s, step).execs[e].pc.Returned?
    ensures e in s.execs && s.execs[e].pc == Apply(s, step).execs[e].pc
  {
    hide Consume, Insert, Discard, RevokeHost, RevokeSession, Expire;
    match step {
      case Advance(_, _, _) =>
      case DropCall(_) =>
      case Call(_, _, _, _) =>
      case CancelCall(_) =>
      case _ =>
    }
  }

  /** Every answer was given at some step of the call, for a reason that held then. */
  lemma {:induction false} AnswersHaveReasons(states: seq<System>, steps: seq<Step>, n: nat, e: ExecId)
    requires IsRun(states, steps) && n < |states| && e in states[n].execs
    requires states[n].execs[e].pc.Returned? && !states[n].execs[e].pc.how.Dropped?
    ensures exists j :: 0 <= j < n && Answered(states[j], steps[j], e, states[n].execs[e].pc.how)
  {
    hide Inv, Apply, Why, Inverse;
    if n > 0 {
      var s, step := states[n - 1], steps[n - 1];
      RunKeepsInv(states, steps, n - 1);
      assert Becomes(s, step, states[n - 1 + 1]);
      if step.Advance? && step.e == e {
        InvHasInverse(s);
        AdvanceHasReason(s, e, step.ok, step.now);
        AdvanceIsAdvanced(s, step);
        assert Answered(states[n - 1], steps[n - 1], e, states[n].execs[e].pc.how);
      } else if step.DropCall? && step.e == e {
        DropIsDropped(s, step);
      } else {
        OtherStepsAnswerNothing(s, step, e);
        AnswersHaveReasons(states, steps, n - 1, e);
      }
    }
  }

  lemma InvHasInverse(s: System)
    requires Inv(s)
    ensures Inverse(s.store)
  {
  }

  lemma AdvanceIsAdvanced(s: System, step: Step)
    requires Enabled(s, step) && step.Advance?
    ensures Apply(s, step) == Advanced(s, step.e, step.ok, step.now) && !s.execs[step.e].pc.Returned?
  {
  }

  lemma DropIsDropped(s: System, step: Step)
    requires Enabled(s, step) && step.DropCall?
    ensures step.e in Apply(s, step).execs && Apply(s, step).execs[step.e].pc == Returned(Dropped)
  {
  }

  /** How many of its ten steps a call has taken. */
  function Stage(pc: Pc): nat {
    match pc
    case Entered => 0
    case Unsealed => 1
    case HostHeld => 2
    case Admitted => 3
    case Checked => 4
    case Taken => 5
    case Revalidating => 6
    case Revalidated => 7
    case Cleared => 8
    case Dispatching => 9
    case Returned(_) => 10
  }

  // ----- Seals and cancellations -----

  /** The call is not past step `k`, or has returned from there; before its fifth step it has not taken its plan. */
  ghost predicate Halted(x: Exec, k: nat) {
    && (Stage(x.pc) <= k || (x.pc.Returned? && !x.pc.how.Transported?))
    && (k < 5 ==> x.authority.None?)
  }

  /** The call has just looked for the seal, or for its cancellation, and cannot go on without looking again. */
  ghost predicate Stops(s: System, x: Exec, k: nat) {
    (s.store.sealed && (k == 0 || k == 3 || k == 7)) || (x.cancelled && (k == 5 || k == 7))
  }

  lemma StepKeepsHalted(s: System, step: Step, e: ExecId, k: nat)
    requires Enabled(s, step) && e in s.execs && Stops(s, s.execs[e], k) && Halted(s.execs[e], k)
    ensures var u := Apply(s, step); e in u.execs && Stops(u, u.execs[e], k) && Halted(u.execs[e], k)
  {
    hide Consume, Insert, Discard, RevokeHost, RevokeSession, Expire;
    if s.store.sealed { StoreStepsKeepSeal(s, step); }
    match step {
      case Advance(o, ok, now) => if o == e { AdvanceKeepsHalted(s, e, ok, now, k); }
      case Call(_, _, _, _) =>
      case CancelCall(_) =>
      case DropCall(_) =>
      case _ =>
    }
  }

  lemma AdvanceKeepsHalted(s: System, e: ExecId, ok: bool, now: nat, k: nat)
    requires Enabled(s, Advance(e, ok, now)) && Stops(s, s.execs[e], k) && Halted(s.execs[e], k)
    ensures var u := Advanced(s, e, ok, now);
      e in u.execs && u.execs[e].cancelled == s.execs[e].cancelled && Halted(u.execs[e], k)
  {
    hide Consume;
    match s.execs[e].pc {
      case Checked =>
      case Cleared =>
      case _ =>
    }
  }

  lemma {:induction false} HaltedForGood(states: seq<System>, steps: seq<Step>, i: nat, n: nat, e: ExecId, k: nat)
    requires IsRun(states, steps) && i <= n < |states| && e in states[i].execs
    requires Stops(states[i], states[i].execs[e], k) && Halted(states[i].execs[e], k)
    ensures e in states[n].execs && Stops(states[n], states[n].execs[e], k) && Halted(states[n].execs[e], k)
  {
    hide Apply, Enabled, Stops, Halted;
    if i < n {
      HaltedForGood(states, steps, i, n - 1, e, k);
      assert Becomes(states[n - 1], steps[n - 1], states[n - 1 + 1]);
      StepKeepsHalted(states[n - 1], steps[n - 1], e, k);
    }
  }

  /** A call that comes after the seal gets nowhere. */
  lemma {:induction false} LateCallsHalt(states: seq<System>, steps: seq<Step>, i: nat, n: nat, e: ExecId)
    requires IsRun(states, steps) && i <= n < |states| && states[i].store.sealed
    requires e !in states[i].execs && e in states[n].execs
    ensures states[n].store.sealed && Halted(states[n].execs[e], 0)
  {
    hide Apply, Enabled, Halted;
    var s, step := states[n - 1], steps[n - 1];
    assert Becomes(s, step, states[n - 1 + 1]);
    SealStays(states, steps, i, n - 1);
    if e in s.execs {
      LateCallsHalt(states, steps, i, n - 1, e);
      StepKeepsHalted(s, step, e, 0);
    } else {
      NewCallEnters(s, step, e);
    }
  }

  lemma {:induction false} SealStays(states: seq<System>, steps: seq<Step>, i: nat, n: nat)
    requires IsRun(states, steps) && i <= n < |states| && states[i].store.sealed
    ensures states[n].store.sealed
  {
    hide Apply, Enabled;
    if i < n {
      SealStays(states, steps, i, n - 1);
      assert Becomes(states[n - 1], steps[n - 1], states[n - 1 + 1]);
      StoreStepsKeepSeal(states[n - 1], steps[n - 1]);
    }
  }

  lemma NewCallEnters(s: System, step: Step, e: ExecId)
    requires Enabled(s, step) && s.store.sealed && e !in s.execs && e in Apply(s, step).execs
    ensures Apply(s, step).execs[e].pc.Entered? && Halted(Apply(s, step).execs[e], 0) && Apply(s, step).store.sealed
  {
    hide Consume, Insert, Discard, RevokeHost, RevokeSession, Expire;
    match step {
      case Call(_, _, _, _) =>
      case Advance(_, _, _) =>
      case DropCall(_) =>
      case CancelCall(_) =>
      case _ =>
    }
  }

  /**
   A shutdown in every run: a call made after it never holds a host or the permit, one without the permit yet never
   takes its plan, and one whose revalidation is not over is never dispatched.
   */
  lemma SealStops(states: seq<System>, steps: seq<Step>, i: nat, n: nat, e: ExecId)
    requires IsRun(states, steps) && i < n < |states| && steps[i].Shutdown? && e in states[n].execs
    ensures e !in states[i].execs ==> !HoldsHost(states[n].execs[e].pc)
    ensures e !in states[i].execs || Stage(states[i].execs[e].pc) <= 3 ==>
      !states[n].execs[e].pc.Checked? && states[n].execs[e].authority.None?
    ensures e !in states[i].execs || Stage(states[i].execs[e].pc) <= 7 ==>
      !states[n].execs[e].pc.Dispatching? && states[n].execs[e].pc != Returned(Transported)
  {
    hide Apply, Enabled;
    assert Becomes(states[i], steps[i], states[i + 1]);
    ShutdownSeals(states[i], steps[i]);
    if e !in states[i].execs {
      LateCallsHalt(states, steps, i + 1, n, e);
    } else {
      RunKeepsInv(states, steps, i);
      NoPlanYet(states[i], e);
      if Stage(states[i].execs[e].pc) <= 3 { HaltedForGood(states, steps, i + 1, n, e, 3); }
      if Stage(states[i].execs[e].pc) <= 7 { HaltedForGood(states, steps, i + 1, n, e, 7); }
    }
  }

  lemma NoPlanYet(s: System, e: ExecId)
    requires Inv(s) && e in s.execs
    ensures Stage(s.execs[e].pc) <= 4 ==> s.execs[e].authority.None?
  {
    assert ExecInv(s, e);
  }

  lemma ShutdownSeals(s: System, step: Step)
    requires Enabled(s, step) && step.Shutdown?
    ensures Apply(s, step).store.sealed && Apply(s, step).execs == s.execs
  {
  }

  /** A cancellation in every run: it is answered before the revalidation if that has not begun, and otherwise after. */
  lemma CancelStops(states: seq<System>, steps: seq<Step>, i: nat, n: nat, e: ExecId)
    requires IsRun(states, steps) && i < n < |states| && steps[i] == CancelCall(e) && e in states[i].execs
    ensures e in states[n].execs
    ensures Stage(states[i].execs[e].pc) <= 5 ==> !states[n].execs[e].pc.Revalidating?
    ensures Stage(states[i].execs[e].pc) <= 7 ==>
      !states[n].execs[e].pc.Dispatching? && states[n].execs[e].pc != Returned(Transported)
  {
    hide Apply, Enabled;
    assert Becomes(states[i], steps[i], states[i + 1]);
    CancelIsSeen(states[i], steps[i]);
    if Stage(states[i].execs[e].pc) <= 5 { HaltedForGood(states, steps, i + 1, n, e, 5); }
    if Stage(states[i].execs[e].pc) <= 7 {
      HaltedForGood(states, steps, i + 1, n, e, 7);
    } else {
      CallsStay(states, steps, i + 1, n, e);
    }
  }

  lemma CancelIsSeen(s: System, step: Step)
    requires Enabled(s, step) && step.CancelCall?
    ensures step.e in Apply(s, step).execs && Apply(s, step).execs[step.e] == s.execs[step.e].(cancelled := true)
  {
  }

  lemma {:induction false} CallsStay(states: seq<System>, steps: seq<Step>, i: nat, n: nat, e: ExecId)
    requires IsRun(states, steps) && i <= n < |states| && e in states[i].execs
    ensures e in states[n].execs
  {
    hide Apply, Enabled;
    if i < n {
      CallsStay(states, steps, i, n - 1, e);
      assert Becomes(states[n - 1], steps[n - 1], states[n - 1 + 1]);
      CallStays(states[n - 1], steps[n - 1], e);
    }
  }

  lemma CallStays(s: System, step: Step, e: ExecId)
    requires Enabled(s, step) && e in s.execs
    ensures e in Apply(s, step).execs
  {
    hide Consume, Insert, Discard, RevokeHost, RevokeSession, Expire;
  }

  // ----- Calls that go through -----

  /** The plan can be taken by this call until its deadline. */
  predicate Takeable(s: Authorities, plan: PlanId, b: Binding, o: Operation, deadline: nat) {
    && plan in s.pending && s.pending[plan].binding == b && s.pending[plan].operation == o
    && s.pending[plan].risk == RiskOf(o) && s.pending[plan].expiresAt == deadline
  }

  /** Nothing stands in the way of the rest of the call. */
  ghost predicate OnTrack(s: System, e: ExecId, plan: PlanId, b: Binding, o: Operation, deadline: nat) {
    && e in s.execs && !s.store.sealed
    && var x := s.execs[e];
       && x.plan == plan && x.binding == b && x.operation == o && !x.cancelled
       && (Stage(x.pc) <= 1 ==> b.host !in s.gates)
       && (Stage(x.pc) <= 2 ==> s.global.None?)
       && (Stage(x.pc) <= 4 ==> Takeable(s.store, plan, b, o, deadline))
       && (Stage(x.pc) >= 9 ==> x.sent)
       && (x.pc.Returned? ==> x.pc.how.Transported?)
  }

  lemma AdvanceStaysOnTrack(s: System, e: ExecId, now: nat, plan: PlanId, b: Binding, o: Operation, deadline: nat)
    requires OnTrack(s, e, plan, b, o, deadline) && Enabled(s, Advance(e, true, now)) && now < deadline
    ensures var u := Apply(s, Advance(e, true, now));
      && OnTrack(u, e, plan, b, o, deadline) && Stage(u.execs[e].pc) == Stage(s.execs[e].pc) + 1
      && (u.execs[e].pc.Dispatching? ==> u.dispatched == s.dispatched + [e])
  {
    match s.execs[e].pc {
      case Checked =>
      case Cleared =>
      case _ =>
    }
  }

  /** A step of somebody else that touches neither the call nor what it needs. */
  ghost predicate LeavesAlone(s: System, u: System, e: ExecId, plan: PlanId, host: HostId) {
    && e in s.execs && e in u.execs && u.execs[e] == s.execs[e]
    && u.global == s.global && (host in u.gates <==> host in s.gates)
    && u.store.sealed == s.store.sealed
    && (plan in s.store.pending ==> plan in u.store.pending && u.store.pending[plan] == s.store.pending[plan])
  }

  /** The call advances in time and with its revalidation approved, or is left alone. */
  ghost predicate IsFine(s: System, step: Step, u: System, e: ExecId, plan: PlanId, host: HostId, deadline: nat) {
    if step.Advance? && step.e == e then step.ok && step.now < deadline else LeavesAlone(s, u, e, plan, host)
  }

  ghost predicate Undisturbed(states: seq<System>, steps: seq<Step>, i: nat, n: nat,
                              e: ExecId, plan: PlanId, host: HostId, deadline: nat)
    requires |states| == |steps| + 1 && i <= n <= |steps|
  {
    forall k :: i <= k < n ==> IsFine(states[k], steps[k], states[k + 1], e, plan, host, deadline)
  }

  /** How often the call advanced. */
  ghost function Turns(steps: seq<Step>, i: nat, n: nat, e: ExecId): nat
    requires i <= n <= |steps|
  {
    if i == n then 0
    else Turns(steps, i, n - 1, e) + if steps[n - 1].Advance? && steps[n - 1].e == e then 1 else 0
  }

  lemma {:induction false} UndisturbedAdvances(states: seq<System>, steps: seq<Step>, i: nat, n: nat,
                                               e: ExecId, plan: PlanId, b: Binding, o: Operation, deadline: nat)
    requires IsRun(states, steps) && i <= n <= |steps|
    requires OnTrack(states[i], e, plan, b, o, deadline) && states[i].execs[e].pc.Entered?
    requires Undisturbed(states, steps, i, n, e, plan, b.host, deadline)
    ensures OnTrack(states[n], e, plan, b, o, deadline)
    ensures Stage(states[n].execs[e].pc) == Turns(steps, i, n, e)
  {
    hide Apply, Enabled, LeavesAlone, Takeable;
    if i < n {
      UndisturbedAdvances(states, steps, i, n - 1, e, plan, b, o, deadline);
      var s, step := states[n - 1], steps[n - 1];
      assert Becomes(s, step, states[n - 1 + 1]);
      assert IsFine(s, step, states[n - 1 + 1], e, plan, b.host, deadline);
      if step.Advance? && step.e == e {
        AdvanceStaysOnTrack(s, e, step.now, plan, b, o, deadline);
      } else {
        LeftAloneStaysOnTrack(s, states[n], e, plan, b, o, deadline);
      }
    }
  }

  lemma LeftAloneStaysOnTrack(s: System, u: System, e: ExecId, plan: PlanId, b: Binding, o: Operation, deadline: nat)
    requires OnTrack(s, e, plan, b, o, deadline) && LeavesAlone(s, u, e, plan, b.host)
    ensures OnTrack(u, e, plan, b, o, deadline) && u.execs[e] == s.execs[e]
  {
  }

  lemma CallIsOnTrack(s: System, e: ExecId, plan: PlanId, b: Binding, o: Operation, deadline: nat)
    requires Enabled(s, Call(e, plan, b, o)) && !s.store.sealed && b.host !in s.gates && s.global.None?
    requires Takeable(s.store, plan, b, o, deadline)
    ensures var u := Apply(s, Call(e, plan, b, o)); OnTrack(u, e, plan, b, o, deadline) && u.execs[e].pc.Entered?
  {
  }

  /**
   A call of an approved, unexpired plan on an idle host reaches the transport and returns its answer, as long as
   its revalidation approves, nobody cancels it, and nobody else takes the plan, the host or the permit.
   */
  lemma UndisturbedTransports(states: seq<System>, steps: seq<Step>, i: nat, n: nat,
                              e: ExecId, plan: PlanId, b: Binding, o: Operation, deadline: nat)
    requires IsRun(states, steps) && i < n <= |steps| && steps[i] == Call(e, plan, b, o)
    requires !states[i].store.sealed && b.host !in states[i].gates && states[i].global.None?
    requires Takeable(states[i].store, plan, b, o, deadline)
    requires Undisturbed(states, steps, i + 1, n, e, plan, b.host, deadline)
    ensures e in states[n].execs
    ensures Turns(steps, i + 1, n, e) >= 9 ==> e in states[n].dispatched
    ensures Turns(steps, i + 1, n, e) == 10 ==> states[n].execs[e].pc == Returned(Transported)
  {
    hide Apply, Enabled, Undisturbed, Turns, Takeable;
    assert Becomes(states[i], steps[i], states[i + 1]);
    CallIsOnTrack(states[i], e, plan, b, o, deadline);
    UndisturbedAdvances(states, steps, i + 1, n, e, plan, b, o, deadline);
    RunKeepsInv(states, steps, n);
    assert ExecInv(states[n], e);
  }
}
