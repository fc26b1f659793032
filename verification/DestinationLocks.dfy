/**
 The queueing part of a transfer task: two semaphores, then a mutex per destination that
 lives in a shared registry and is removed from it when its reference count says that
 nobody else uses it.
 */
module DestinationLocks {
  import opened Common

  const GLOBAL_ACTIVE: nat := 4
  const HOST_ACTIVE: nat := 2

  type TaskId = nat
  type LockId = nat
  type Key = string

  /** `l` is the mutex whose reference the task keeps until it is gone. */
  datatype Pc =
    | AwaitHost
    | AwaitGlobal
    | Admitted
    | AwaitLock(l: LockId)
    | Working(l: LockId)
    | Unlocked(l: LockId)               // the mutex is free again, both permits are held
    | HostOnly(l: LockId)
    | Released(l: LockId)
    | Checked(l: LockId, permits: bool) // the registry was inspected; `permits`: on the cancel path
    | Gone

  datatype Task = Task(host: HostId, key: Key, pc: Pc)

  datatype State = State(
    tasks: map<TaskId, Task>,
    registry: map<Key, LockId>,
    locked: set<LockId>,
    nextLock: LockId,
    globalFree: int,
    hostFree: map<HostId, int>
  )

  const INITIAL := State(map[], map[], {}, 0, GLOBAL_ACTIVE, map[])

  predicate HoldsHost(pc: Pc) {
    pc.AwaitGlobal? || HoldsGlobal(pc) || pc.HostOnly?
  }

  predicate HoldsGlobal(pc: Pc) {
    pc.Admitted? || pc.AwaitLock? || pc.Working? || pc.Unlocked? || (pc.Checked? && pc.permits)
  }

  predicate Refers(pc: Pc) {
    pc.AwaitLock? || pc.Working? || pc.Unlocked? || pc.HostOnly? || pc.Released? || pc.Checked?
  }

  function HostFree(s: State, host: HostId): int {
    if host in s.hostFree then s.hostFree[host] else HOST_ACTIVE
  }

  ghost function Users(s: State, l: LockId): set<TaskId> {
    set t | t in s.tasks && Refers(s.tasks[t].pc) && s.tasks[t].pc.l == l
  }

  ghost function Listings(s: State, l: LockId): set<Key> {
    set k | k in s.registry && s.registry[k] == l
  }

  /** `Arc::strong_count`: the registry's references and those of the tasks. */
  ghost function StrongCount(s: State, l: LockId): nat {
    |Listings(s, l)| + |Users(s, l)|
  }

  datatype Step =
    | Spawn(t: TaskId, host: HostId, key: Key)
    | Acquire(t: TaskId)      // a permit or the mutex
    | LookUp(t: TaskId)       // clone the registry's mutex, creating it if needed
    | Release(t: TaskId)      // the transfer is over; mutex, global and host permit, one by one
    | Inspect(t: TaskId)      // remove the registry entry when the count is 2
    | Cancel(t: TaskId)       // cancelled while waiting
    | Leave(t: TaskId)        // the last reference and any remaining permits go
    | Abort(t: TaskId)        // the runtime drops the task

  ghost predicate Enabled(s: State, step: Step) {
    if step.Spawn? then step.t !in s.tasks
    else
      step.t in s.tasks &&
      var pc := s.tasks[step.t].pc;
      match step
      case Acquire(t) =>
        || (pc.AwaitHost? && HostFree(s, s.tasks[t].host) > 0)
        || (pc.AwaitGlobal? && s.globalFree > 0)
        || (pc.AwaitLock? && pc.l !in s.locked)
      case LookUp(_) => pc.Admitted?
      case Release(_) => pc.Working? || pc.Unlocked? || pc.HostOnly?
      case Inspect(_) => pc.Released?
      case Cancel(_) => pc.AwaitHost? || pc.AwaitGlobal? || pc.AwaitLock?
      case Leave(_) => pc.Checked?
      case Abort(_) => pc.AwaitHost? || pc.AwaitGlobal? || pc.AwaitLock? || pc.Working?
      case _ => false
  }

  function Move(s: State, t: TaskId, pc: Pc): State
    requires t in s.tasks
  {
    var was := s.tasks[t];
    s.(tasks := s.tasks[t := was.(pc := pc)],
       globalFree := s.globalFree + (if HoldsGlobal(was.pc) then 1 else 0) - (if HoldsGlobal(pc) then 1 else 0),
       hostFree := s.hostFree[was.host :=
         HostFree(s, was.host) + (if HoldsHost(was.pc) then 1 else 0) - (if HoldsHost(pc) then 1 else 0)],
       locked := if pc.Working? then s.locked + {pc.l}
                 else if was.pc.Working? then s.locked - {was.pc.l}
                 else s.locked)
  }

  ghost function Inspected(s: State, t: TaskId, l: LockId): State
    requires t in s.tasks
  {
    if StrongCount(s, l) == 2 then s.(registry := s.registry - {s.tasks[t].key}) else s
  }

  ghost function Apply(s: State, step: Step): State
    requires Enabled(s, step)
  {
    if step.Spawn? then s.(tasks := s.tasks[step.t := Task(step.host, step.key, AwaitHost)])
    else
      var t := step.t;
      var task := s.tasks[t];
      match step
      case Acquire(_) =>
        Move(s, t, match task.pc
                   case AwaitHost => AwaitGlobal
                   case AwaitGlobal => Admitted
                   case _ => Working(task.pc.l))
      case LookUp(_) =>
        if task.key in s.registry then Move(s, t, AwaitLock(s.registry[task.key]))
        else Move(s.(registry := s.registry[task.key := s.nextLock], nextLock := s.nextLock + 1),
                  t, AwaitLock(s.nextLock))
      case Release(_) =>
        Move(s, t, match task.pc
                   case Working(l) => Unlocked(l)
                   case Unlocked(l) => HostOnly(l)
                   case _ => Released(task.pc.l))
      case Inspect(_) => Move(Inspected(s, t, task.pc.l), t, Checked(task.pc.l, false))
      case Cancel(_) =>
        if task.pc.AwaitLock? then Move(Inspected(s, t, task.pc.l), t, Checked(task.pc.l, true))
        else Move(s, t, Gone)
      case Leave(_) => Move(s, t, Gone)
      case _ => Move(s, t, Gone)
  }

  // ----- The invariant -----

  ghost function GlobalHolders(s: State): set<TaskId> {
    set t | t in s.tasks && HoldsGlobal(s.tasks[t].pc)
  }

  ghost function HostHolders(s: State, host: HostId): set<TaskId> {
    set t | t in s.tasks && s.tasks[t].host == host && HoldsHost(s.tasks[t].pc)
  }

  /** Permits are conserved. */
  ghost predicate PermitInv(s: State) {
    && s.globalFree >= 0 && s.globalFree + |GlobalHolders(s)| == GLOBAL_ACTIVE
    && forall host :: HostFree(s, host) >= 0 && HostFree(s, host) + |HostHolders(s, host)| == HOST_ACTIVE
  }

  /** A task that has not inspected the registry since holds exactly the mutex listed for its key. */
  ghost predicate Current(pc: Pc) {
    Refers(pc) && !pc.Checked?
  }

  ghost predicate RegistryInv(s: State) {
    && (forall k <- s.registry :: s.registry[k] < s.nextLock)
    && (forall j, k :: j in s.registry && k in s.registry && s.registry[j] == s.registry[k] ==> j == k)
    && (forall t <- s.tasks :: Refers(s.tasks[t].pc) ==> s.tasks[t].pc.l < s.nextLock)
    && (forall t <- s.tasks :: Current(s.tasks[t].pc) ==>
          s.tasks[t].key in s.registry && s.registry[s.tasks[t].key] == s.tasks[t].pc.l)
  }

  ghost predicate LockInv(s: State) {
    && (forall l <- s.locked :: l < s.nextLock)
    && (forall t <- s.tasks :: s.tasks[t].pc.Working? ==> s.tasks[t].pc.l in s.locked)
    && (forall l <- s.locked :: exists t :: t in s.tasks && s.tasks[t].pc == Working(l))
    && (forall t, o :: t in s.tasks && o in s.tasks && s.tasks[t].pc.Working? && s.tasks[o].pc == s.tasks[t].pc
          ==> t == o)
  }

  ghost predicate Inv(s: State) {
    PermitInv(s) && RegistryInv(s) && LockInv(s)
  }

  lemma InitialInv()
    ensures Inv(INITIAL)
  {
    assert GlobalHolders(INITIAL) == {};
    assert forall host :: HostHolders(INITIAL, host) == {};
  }

  /** Sets that differ at most in `x` differ in size accordingly. */
  lemma OneApart<T>(a: set<T>, b: set<T>, x: T)
    requires a - {x} == b - {x}
    ensures |b| + (if x in a then 1 else 0) == |a| + (if x in b then 1 else 0)
  {
    assert x in a ==> a == (a - {x}) + {x};
    assert x in b ==> b == (b - {x}) + {x};
    assert x !in a ==> a == a - {x};
    assert x !in b ==> b == b - {x};
  }

  /** The new program counters a step may lead to never hold a permit that was not free. */
  lemma MoveKeepsPermits(s: State, t: TaskId, pc: Pc)
    requires PermitInv(s) && t in s.tasks
    requires HoldsGlobal(pc) && !HoldsGlobal(s.tasks[t].pc) ==> s.globalFree > 0
    requires HoldsHost(pc) && !HoldsHost(s.tasks[t].pc) ==> HostFree(s, s.tasks[t].host) > 0
    ensures PermitInv(Move(s, t, pc))
  {
    var u := Move(s, t, pc);
    var host := s.tasks[t].host;
    OneApart(GlobalHolders(s), GlobalHolders(u), t);
    OneApart(HostHolders(s, host), HostHolders(u, host), t);
    forall other ensures HostFree(u, other) >= 0 && HostFree(u, other) + |HostHolders(u, other)| == HOST_ACTIVE {
      assert HostFree(s, other) + |HostHolders(s, other)| == HOST_ACTIVE;
      if other != host { assert HostHolders(u, other) == HostHolders(s, other); }
    }
  }

  /** A step that keeps every reference, or drops the mover's. */
  lemma MoveKeepsRegistry(s: State, t: TaskId, pc: Pc)
    requires RegistryInv(s) && t in s.tasks
    requires Refers(pc) ==> pc.l < s.nextLock
    requires Current(pc) ==> s.tasks[t].key in s.registry && s.registry[s.tasks[t].key] == pc.l
    ensures RegistryInv(Move(s, t, pc))
  {
  }

  lemma MoveKeepsLocks(s: State, t: TaskId, pc: Pc)
    requires LockInv(s) && t in s.tasks
    requires pc.Working? ==> pc.l < s.nextLock && pc.l !in s.locked && !s.tasks[t].pc.Working?
    ensures LockInv(Move(s, t, pc))
  {
    var u := Move(s, t, pc);
    forall l <- u.locked ensures exists o :: o in u.tasks && u.tasks[o].pc == Working(l) {
      if pc == Working(l) {
        assert u.tasks[t].pc == Working(l);
      } else {
        var o :| o in s.tasks && s.tasks[o].pc == Working(l);
        assert u.tasks[o].pc == Working(l);
      }
    }
  }

  lemma PairSize<T>(a: T, b: T, s: set<T>)
    requires a in s && b in s && a != b
    ensures |s| >= 2
  {
    SubsetSize({a, b}, s);
  }

  /** A count of 2 is the registry's reference and the inspecting task's own: nobody else depends on the entry. */
  lemma CountTwoMeansAlone(s: State, t: TaskId, o: TaskId)
    requires RegistryInv(s) && t in s.tasks && Current(s.tasks[t].pc)
    requires StrongCount(s, s.tasks[t].pc.l) == 2
    requires o in s.tasks && o != t && Current(s.tasks[o].pc)
    ensures s.tasks[o].key != s.tasks[t].key
  {
    var l := s.tasks[t].pc.l;
    assert Listings(s, l) == {s.tasks[t].key};
    if s.tasks[o].key == s.tasks[t].key {
      PairSize(t, o, Users(s, l));
    }
  }

  lemma InspectKeepsRegistry(s: State, t: TaskId, permits: bool)
    requires RegistryInv(s) && t in s.tasks && Current(s.tasks[t].pc)
    ensures RegistryInv(Move(Inspected(s, t, s.tasks[t].pc.l), t, Checked(s.tasks[t].pc.l, permits)))
  {
    var u := Move(Inspected(s, t, s.tasks[t].pc.l), t, Checked(s.tasks[t].pc.l, permits));
    forall o <- u.tasks | Current(u.tasks[o].pc)
      ensures u.tasks[o].key in u.registry && u.registry[u.tasks[o].key] == u.tasks[o].pc.l
    {
      if StrongCount(s, s.tasks[t].pc.l) == 2 { CountTwoMeansAlone(s, t, o); }
    }
  }

  lemma SpawnKeepsInv(s: State, t: TaskId, host: HostId, key: Key)
    requires Inv(s) && t !in s.tasks
    ensures Inv(Apply(s, Spawn(t, host, key)))
  {
    var u := Apply(s, Spawn(t, host, key));
    assert GlobalHolders(u) == GlobalHolders(s);
    forall h ensures HostHolders(u, h) == HostHolders(s, h) && HostFree(u, h) == HostFree(s, h) { }
    forall l <- u.locked ensures exists o :: o in u.tasks && u.tasks[o].pc == Working(l) {
      var o :| o in s.tasks && s.tasks[o].pc == Working(l);
      assert u.tasks[o].pc == Working(l);
    }
  }

  /** Changing only the registry leaves permits and locks alone. */
  lemma RegistryChangeKeepsRest(s: State, registry: map<Key, LockId>, nextLock: LockId)
    requires PermitInv(s) && LockInv(s) && s.nextLock <= nextLock
    ensures PermitInv(s.(registry := registry, nextLock := nextLock))
    ensures LockInv(s.(registry := registry, nextLock := nextLock))
  {
    var u := s.(registry := registry, nextLock := nextLock);
    assert GlobalHolders(u) == GlobalHolders(s);
    forall h ensures HostHolders(u, h) == HostHolders(s, h) && HostFree(u, h) == HostFree(s, h) { }
    forall l <- u.locked ensures exists o :: o in u.tasks && u.tasks[o].pc == Working(l) {
      var o :| o in s.tasks && s.tasks[o].pc == Working(l);
    }
  }

  lemma NewEntryKeepsRegistry(s: State, key: Key)
    requires RegistryInv(s) && key !in s.registry
    ensures RegistryInv(s.(registry := s.registry[key := s.nextLock], nextLock := s.nextLock + 1))
  {
  }

  /** The registry with an entry for `key`. */
  function WithEntry(s: State, key: Key): State {
    if key in s.registry then s
    else s.(registry := s.registry[key := s.nextLock], nextLock := s.nextLock + 1)
  }

  lemma EntryKeepsInv(s: State, key: Key)
    requires Inv(s)
    ensures Inv(WithEntry(s, key))
    ensures key in WithEntry(s, key).registry && WithEntry(s, key).registry[key] < WithEntry(s, key).nextLock
  {
    hide PermitInv, LockInv;
    var u := WithEntry(s, key);
    RegistryChangeKeepsRest(s, u.registry, u.nextLock);
    if key !in s.registry { NewEntryKeepsRegistry(s, key); }
  }

  lemma LookUpKeepsInv(s: State, t: TaskId)
    requires Inv(s) && Enabled(s, LookUp(t))
    ensures Inv(Apply(s, LookUp(t)))
  {
    hide PermitInv, LockInv, RegistryInv;
    var key := s.tasks[t].key;
    EntryKeepsInv(s, key);
    var u := WithEntry(s, key);
    var pc := AwaitLock(u.registry[key]);
    MoveKeepsPermits(u, t, pc);
    MoveKeepsRegistry(u, t, pc);
    MoveKeepsLocks(u, t, pc);
  }

  lemma InspectKeepsInv(s: State, t: TaskId, permits: bool)
    requires Inv(s) && t in s.tasks && Current(s.tasks[t].pc)
    requires if permits then s.tasks[t].pc.AwaitLock? else s.tasks[t].pc.Released?
    ensures Inv(Move(Inspected(s, t, s.tasks[t].pc.l), t, Checked(s.tasks[t].pc.l, permits)))
  {
    var u, pc := Inspected(s, t, s.tasks[t].pc.l), Checked(s.tasks[t].pc.l, permits);
    InspectKeepsRegistry(s, t, permits);
    RegistryChangeKeepsRest(s, u.registry, u.nextLock);
    MoveKeepsPermits(u, t, pc);
    MoveKeepsLocks(u, t, pc);
  }

  lemma StepKeepsInv(s: State, step: Step)
    requires Inv(s) && Enabled(s, step)
    ensures Inv(Apply(s, step))
  {
    var t := step.t;
    if step.Spawn? {
      SpawnKeepsInv(s, t, step.host, step.key);
    } else if step.LookUp? {
      LookUpKeepsInv(s, t);
    } else if step.Inspect? {
      InspectKeepsInv(s, t, false);
    } else if step.Cancel? && s.tasks[t].pc.AwaitLock? {
      InspectKeepsInv(s, t, true);
    } else {
      var pc := Apply(s, step).tasks[t].pc;
      MoveKeepsPermits(s, t, pc);
      MoveKeepsRegistry(s, t, pc);
      MoveKeepsLocks(s, t, pc);
    }
  }

  // ----- The theorems about runs -----

  ghost predicate IsRun(states: seq<State>, steps: seq<Step>) {
    && |states| == |steps| + 1
    && states[0] == INITIAL
    && forall i | 0 <= i < |steps| :: Becomes(states[i], steps[i], states[i + 1])
  }

  ghost predicate Becomes(s: State, step: Step, u: State) {
    Enabled(s, step) && u == Apply(s, step)
  }

  lemma {:induction false} RunKeepsInv(states: seq<State>, steps: seq<Step>, i: nat)
    requires IsRun(states, steps) && i < |states|
    ensures Inv(states[i])
  {
    if i == 0 {
      InitialInv();
    } else {
      RunKeepsInv(states, steps, i - 1);
      assert Becomes(states[i - 1], steps[i - 1], states[i]);
      StepKeepsInv(states[i - 1], steps[i - 1]);
    }
  }

  ghost function WorkingOn(s: State, host: HostId): set<TaskId> {
    set t | t in s.tasks && s.tasks[t].pc.Working? && s.tasks[t].host == host
  }

  ghost function AtWork(s: State): set<TaskId> {
    set t | t in s.tasks && s.tasks[t].pc.Working?
  }

  /** At every point of every run, two transfers to the same destination never work together. */
  lemma DestinationsAreExclusive(states: seq<State>, steps: seq<Step>, i: nat, t: TaskId, o: TaskId)
    requires IsRun(states, steps) && i < |states|
    requires t in AtWork(states[i]) && o in AtWork(states[i])
    requires states[i].tasks[t].key == states[i].tasks[o].key
    ensures t == o
  {
    RunKeepsInv(states, steps, i);
  }

  /** At most four transfers work at once, and at most two for one host. */
  lemma WorkIsBounded(states: seq<State>, steps: seq<Step>, i: nat, host: HostId)
    requires IsRun(states, steps) && i < |states|
    ensures |AtWork(states[i])| <= GLOBAL_ACTIVE
    ensures |WorkingOn(states[i], host)| <= HOST_ACTIVE
  {
    RunKeepsInv(states, steps, i);
    var s := states[i];
    SubsetSize(AtWork(s), GlobalHolders(s));
    SubsetSize(WorkingOn(s, host), HostHolders(s, host));
    assert HostFree(s, host) >= 0;
  }

  /** A step that gets a task closer to its end without cancelling or dropping it. */
  ghost predicate Progress(step: Step) {
    step.Acquire? || step.LookUp? || step.Release? || step.Inspect? || step.Leave?
  }

  /**
   The order host permit, global permit, destination lock never deadlocks: while a task is
   unfinished, some task can make progress without any cancellation.
   */
  lemma NeverStuck(states: seq<State>, steps: seq<Step>, i: nat, t: TaskId)
    requires IsRun(states, steps) && i < |states|
    requires t in states[i].tasks && !states[i].tasks[t].pc.Gone?
    ensures exists step :: Progress(step) && Enabled(states[i], step)
  {
    RunKeepsInv(states, steps, i);
    var s := states[i];
    if o :| o in s.tasks && s.tasks[o].pc.Admitted? {
      assert Enabled(s, LookUp(o));
    } else if o :| o in s.tasks && (s.tasks[o].pc.Working? || s.tasks[o].pc.Unlocked? || s.tasks[o].pc.HostOnly?) {
      assert Enabled(s, Release(o));
    } else if o :| o in s.tasks && s.tasks[o].pc.Released? {
      assert Enabled(s, Inspect(o));
    } else if o :| o in s.tasks && s.tasks[o].pc.Checked? {
      assert Enabled(s, Leave(o));
    } else if o :| o in s.tasks && s.tasks[o].pc.AwaitLock? {
      assert Enabled(s, Acquire(o));
    } else if o :| o in s.tasks && s.tasks[o].pc.AwaitGlobal? {
      assert GlobalHolders(s) == {};
      assert Enabled(s, Acquire(o));
    } else {
      assert HostHolders(s, s.tasks[t].host) == {};
      assert HostFree(s, s.tasks[t].host) == HOST_ACTIVE;
      assert Enabled(s, Acquire(t));
    }
  }

  // ----- Everything comes to an end -----

  /** How many steps a task has before it at most. */
  function Rank(pc: Pc): nat {
    match pc
    case AwaitHost => 9
    case AwaitGlobal => 8
    case Admitted => 7
    case AwaitLock(_) => 6
    case Working(_) => 5
    case Unlocked(_) => 4
    case HostOnly(_) => 3
    case Released(_) => 2
    case Checked(_, _) => 1
    case Gone => 0
  }

  ghost function Left(tasks: map<TaskId, Task>): nat
    decreases |tasks|
  {
    if tasks == map[] then 0
    else
      var t :| t in tasks;
      Rank(tasks[t].pc) + Left(tasks - {t})
  }

  lemma {:induction false} LeftSplits(tasks: map<TaskId, Task>, t: TaskId)
    requires t in tasks
    ensures Left(tasks) == Rank(tasks[t].pc) + Left(tasks - {t})
    decreases |tasks|
  {
    hide Rank;
    var o :| o in tasks && Left(tasks) == Rank(tasks[o].pc) + Left(tasks - {o});
    if o != t {
      LeftSplits(tasks - {o}, t);
      LeftSplits(tasks - {t}, o);
      assert tasks - {o} - {t} == tasks - {t} - {o};
    }
  }

  lemma MoveLowers(s: State, t: TaskId, pc: Pc)
    requires t in s.tasks && Rank(pc) < Rank(s.tasks[t].pc)
    ensures Left(Move(s, t, pc).tasks) < Left(s.tasks)
  {
    var tasks := Move(s, t, pc).tasks;
    LeftSplits(s.tasks, t);
    LeftSplits(tasks, t);
    assert tasks - {t} == s.tasks - {t};
  }

  /** Every step but the arrival of a new task leaves fewer steps to be taken. */
  lemma StepLowers(s: State, step: Step)
    requires Enabled(s, step) && !step.Spawn?
    ensures Left(Apply(s, step).tasks) < Left(s.tasks)
  {
    var u := Apply(s, step);
    var t := step.t;
    hide Left, StrongCount;
    MoveLowers(s, t, u.tasks[t].pc);
    assert Move(s, t, u.tasks[t].pc).tasks == u.tasks;
  }

  /** Without new tasks, a run takes no more steps than are left. */
  lemma {:induction false} RunsAreShort(states: seq<State>, steps: seq<Step>, i: nat, j: nat)
    requires IsRun(states, steps) && i <= j < |states|
    requires forall k :: i <= k < j ==> !steps[k].Spawn?
    ensures j - i <= Left(states[i].tasks) - Left(states[j].tasks)
  {
    if i < j {
      RunsAreShort(states, steps, i, j - 1);
      assert Becomes(states[j - 1], steps[j - 1], states[j]);
      hide Left, Apply, Enabled;
      StepLowers(states[j - 1], steps[j - 1]);
    }
  }

  /** So every task ends: a run that goes on until nothing can move leaves no task behind. */
  lemma AllTasksEnd(states: seq<State>, steps: seq<Step>, i: nat)
    requires IsRun(states, steps) && i < |states|
    requires forall step :: Progress(step) ==> !Enabled(states[i], step)
    ensures forall t <- states[i].tasks :: states[i].tasks[t].pc.Gone?
  {
    forall t <- states[i].tasks
      ensures states[i].tasks[t].pc.Gone?
    {
      if !states[i].tasks[t].pc.Gone? { NeverStuck(states, steps, i, t); }
    }
  }

  // ----- What stays in the registry -----

  /** The step looks whether its lock can be removed from the registry. */
  predicate Inspects(s: State, step: Step) {
    step.t in s.tasks && (step.Inspect? || (step.Cancel? && s.tasks[step.t].pc.AwaitLock?))
  }

  /** Somebody else refers to the lock as well. */
  ghost predicate IsShared(s: State, t: TaskId, l: LockId) {
    exists o :: o != t && o in Users(s, l)
  }

  lemma OnlyUser(s: State, t: TaskId, l: LockId)
    requires t in Users(s, l) && !IsShared(s, t, l)
    ensures Users(s, l) == {t}
  {
  }

  /** An inspection removes the entry exactly if nobody else refers to the lock. */
  lemma InspectionRemovesExactly(s: State, step: Step)
    requires Inv(s) && Enabled(s, step) && Inspects(s, step)
    ensures var t, l := step.t, s.tasks[step.t].pc.l;
      Apply(s, step).registry == if IsShared(s, t, l) then s.registry else s.registry - {s.tasks[t].key}
  {
    hide PermitInv, LockInv;
    var t := step.t;
    var l := s.tasks[t].pc.l;
    assert Listings(s, l) == {s.tasks[t].key};
    assert t in Users(s, l);
    if IsShared(s, t, l) {
      var o :| o != t && o in Users(s, l);
      PairSize(t, o, Users(s, l));
    } else {
      OnlyUser(s, t, l);
    }
  }

  /** A user of the lock leaves without the entry: it was not alone when it looked, or the runtime dropped it. */
  ghost predicate LeavesEntry(s: State, step: Step, l: LockId) {
    && step.t in s.tasks && Refers(s.tasks[step.t].pc) && s.tasks[step.t].pc.l == l
    && (step.Abort? || (Inspects(s, step) && IsShared(s, step.t, l)))
  }

  /** Some task that refers to the lock has not looked yet. */
  ghost predicate HasUser(s: State, l: LockId) {
    exists t :: t in s.tasks && Current(s.tasks[t].pc) && s.tasks[t].pc.l == l
  }

  lemma MoveKeepsUser(s: State, t: TaskId, pc: Pc, l: LockId)
    requires t in s.tasks && HasUser(s, l)
    requires Current(s.tasks[t].pc) && s.tasks[t].pc.l == l ==> Current(pc) && pc.l == l
    ensures HasUser(Move(s, t, pc), l)
  {
    var o :| o in s.tasks && Current(s.tasks[o].pc) && s.tasks[o].pc.l == l;
    assert Move(s, t, pc).tasks[o].pc == if o == t then pc else s.tasks[o].pc;
  }

  lemma SameTasks(s: State, u: State, t: TaskId, l: LockId)
    requires t in s.tasks && t in u.tasks && u.tasks == Move(s, t, u.tasks[t].pc).tasks
    requires HasUser(Move(s, t, u.tasks[t].pc), l)
    ensures HasUser(u, l)
  {
  }

  lemma InspectionKeepsUser(s: State, step: Step, k: Key)
    requires Inv(s) && Enabled(s, step) && Inspects(s, step) && k in Apply(s, step).registry
    requires HasUser(s, Apply(s, step).registry[k])
    requires !LeavesEntry(s, step, Apply(s, step).registry[k])
    ensures HasUser(Apply(s, step), Apply(s, step).registry[k])
  {
    hide PermitInv, LockInv, IsShared, StrongCount;
    var u := Apply(s, step);
    InspectionRemovesExactly(s, step);
    MoveKeepsUser(s, step.t, u.tasks[step.t].pc, u.registry[k]);
    SameTasks(s, u, step.t, u.registry[k]);
  }

  /** Entries do not lose their last user in any other way. */
  lemma StepKeepsUser(s: State, step: Step, k: Key)
    requires Inv(s) && Enabled(s, step) && k in Apply(s, step).registry
    requires k in s.registry ==> HasUser(s, s.registry[k])
    requires !LeavesEntry(s, step, Apply(s, step).registry[k])
    ensures HasUser(Apply(s, step), Apply(s, step).registry[k])
  {
    hide PermitInv, LockInv, IsShared, StrongCount, HoldsGlobal, HoldsHost;
    var u := Apply(s, step);
    var l := u.registry[k];
    if Inspects(s, step) {
      InspectionKeepsUser(s, step, k);
    } else if step.Spawn? {
      var o :| o in s.tasks && Current(s.tasks[o].pc) && s.tasks[o].pc.l == l;
      assert u.tasks[o] == s.tasks[o];
    } else if step.LookUp? && s.tasks[step.t].key == k {
      assert u.tasks[step.t].pc == AwaitLock(l);
    } else {
      MoveKeepsUser(s, step.t, u.tasks[step.t].pc, l);
      SameTasks(s, u, step.t, l);
    }
  }

  ghost predicate LeftBefore(states: seq<State>, steps: seq<Step>, n: nat, l: LockId)
    requires n <= |steps| && n <= |states|
  {
    exists i :: 0 <= i < n && LeavesEntry(states[i], steps[i], l)
  }

  lemma StepKeepsEntry(s: State, step: Step, k: Key)
    requires Enabled(s, step) && k in s.registry && k in Apply(s, step).registry
    ensures Apply(s, step).registry[k] == s.registry[k]
  {
  }

  /**
   An entry that no task is going to look after stays behind only if a task that shared the lock looked before
   the others had let go of it, or was dropped by the runtime.
   */
  lemma {:induction false} LeftoversHaveCauses(states: seq<State>, steps: seq<Step>, n: nat, k: Key)
    requires IsRun(states, steps) && n < |states| && k in states[n].registry
    ensures HasUser(states[n], states[n].registry[k]) || LeftBefore(states, steps, n, states[n].registry[k])
  {
    hide Inv, Apply, Enabled, LeavesEntry, HasUser;
    if n > 0 {
      var s, step := states[n - 1], steps[n - 1];
      RunKeepsInv(states, steps, n - 1);
      assert Becomes(s, step, states[n - 1 + 1]);
      if k in s.registry {
        LeftoversHaveCauses(states, steps, n - 1, k);
        StepKeepsEntry(s, step, k);
      }
      if !LeavesEntry(s, step, states[n].registry[k]) && (k in s.registry ==> HasUser(s, s.registry[k])) {
        StepKeepsUser(s, step, k);
      }
    }
  }

  function Permits(pc: Pc): (int, int) {
    (if HoldsGlobal(pc) then 1 else 0, if HoldsHost(pc) then 1 else 0)
  }

  /** Two tasks for the same destination, neither of which has the mutex. */
  function Two(host: HostId, key: Key, a: Pc, b: Pc, registry: map<Key, LockId>): State {
    State(map[0 := Task(host, key, a), 1 := Task(host, key, b)], registry, {}, |registry|,
          GLOBAL_ACTIVE - Permits(a).0 - Permits(b).0, map[host := HOST_ACTIVE - Permits(a).1 - Permits(b).1])
  }

  lemma FirstMoves(host: HostId, key: Key, a: Pc, b: Pc, pc: Pc, registry: map<Key, LockId>)
    requires !a.Working? && !b.Working? && !pc.Working?
    ensures Move(Two(host, key, a, b, registry), 0, pc) == Two(host, key, pc, b, registry)
  {
    hide HoldsGlobal, HoldsHost;
    OneTaskMoves(Task(host, key, a), Task(host, key, b), Task(host, key, pc));
    SamePermits(host, HOST_ACTIVE - Permits(a).1 - Permits(b).1, HOST_ACTIVE - Permits(pc).1 - Permits(b).1);
  }

  lemma SecondMoves(host: HostId, key: Key, a: Pc, b: Pc, pc: Pc, registry: map<Key, LockId>)
    requires !a.Working? && !b.Working? && !pc.Working?
    ensures Move(Two(host, key, a, b, registry), 1, pc) == Two(host, key, a, pc, registry)
  {
    hide HoldsGlobal, HoldsHost;
    OneTaskMoves(Task(host, key, a), Task(host, key, b), Task(host, key, pc));
    SamePermits(host, HOST_ACTIVE - Permits(a).1 - Permits(b).1, HOST_ACTIVE - Permits(a).1 - Permits(pc).1);
  }

  lemma OneTaskMoves(a: Task, b: Task, c: Task)
    ensures map[0 := a, 1 := b][0 := c] == map[0 := c, 1 := b]
    ensures map[0 := a, 1 := b][1 := c] == map[0 := a, 1 := c]
  {
  }

  lemma SamePermits(host: HostId, m: int, n: int)
    ensures map[host := m][host := n] == map[host := n]
  {
  }

  lemma CancelOfTwo(host: HostId, key: Key, a: Pc, b: Pc, t: TaskId)
    requires t <= 1 && (if t == 0 then a else b) == AwaitLock(0)
    requires !a.Working? && !b.Working? && Refers(a) && Refers(b) && a.l == 0 && b.l == 0
    ensures var s := Two(host, key, a, b, map[key := 0]);
      Enabled(s, Cancel(t)) && Apply(s, Cancel(t)) == Move(s, t, Checked(0, true))
  {
    hide Move;
    var s := Two(host, key, a, b, map[key := 0]);
    assert Users(s, 0) == {0, 1} && Listings(s, 0) == {key};
  }

  lemma BothSpawn(host: HostId, key: Key) returns (one: State, two: State)
    ensures Becomes(INITIAL, Spawn(0, host, key), one)
    ensures Becomes(one, Spawn(1, host, key), two)
    ensures Becomes(two, Acquire(0), Two(host, key, AwaitGlobal, AwaitHost, map[]))
  {
    var task := Task(host, key, AwaitHost);
    one := INITIAL.(tasks := map[0 := task]);
    two := INITIAL.(tasks := map[0 := task, 1 := task]);
    assert map[0 := task][1 := task] == map[0 := task, 1 := task];
    assert map[0 := task, 1 := task][0 := task.(pc := AwaitGlobal)]
        == map[0 := task.(pc := AwaitGlobal), 1 := task];
  }

  lemma BothAreAdmitted(host: HostId, key: Key)
    ensures var at := (a, b) => Two(host, key, a, b, map[]);
      && Becomes(at(AwaitGlobal, AwaitHost), Acquire(0), at(Admitted, AwaitHost))
      && Becomes(at(Admitted, AwaitHost), Acquire(1), at(Admitted, AwaitGlobal))
      && Becomes(at(Admitted, AwaitGlobal), Acquire(1), at(Admitted, Admitted))
  {
    FirstMoves(host, key, AwaitGlobal, AwaitHost, Admitted, map[]);
    SecondMoves(host, key, Admitted, AwaitHost, AwaitGlobal, map[]);
    SecondMoves(host, key, Admitted, AwaitGlobal, Admitted, map[]);
  }

  lemma BothLookUp(host: HostId, key: Key)
    ensures var at := (a, b) => Two(host, key, a, b, map[key := 0]);
      && Becomes(Two(host, key, Admitted, Admitted, map[]), LookUp(0), at(AwaitLock(0), Admitted))
      && Becomes(at(AwaitLock(0), Admitted), LookUp(1), at(AwaitLock(0), AwaitLock(0)))
  {
    FirstMoves(host, key, Admitted, Admitted, AwaitLock(0), map[key := 0]);
    SecondMoves(host, key, AwaitLock(0), Admitted, AwaitLock(0), map[key := 0]);
    var s := Two(host, key, Admitted, Admitted, map[]);
    var none: map<Key, LockId> := map[];
    assert none[key := 0] == map[key := 0];
    assert s.(registry := map[key := 0], nextLock := 1) == Two(host, key, Admitted, Admitted, map[key := 0]);
  }

  lemma BothCancel(host: HostId, key: Key)
    ensures var at := (a, b) => Two(host, key, a, b, map[key := 0]);
      && Becomes(at(AwaitLock(0), AwaitLock(0)), Cancel(0), at(Checked(0, true), AwaitLock(0)))
      && Becomes(at(Checked(0, true), AwaitLock(0)), Cancel(1), at(Checked(0, true), Checked(0, true)))
  {
    hide Move, Apply, Enabled;
    var wait, looked, list := AwaitLock(0), Checked(0, true), map[key := 0];
    CancelOfTwo(host, key, wait, wait, 0);
    CancelOfTwo(host, key, looked, wait, 1);
    FirstMoves(host, key, wait, wait, looked, list);
    SecondMoves(host, key, looked, wait, looked, list);
  }

  lemma BothLeave(host: HostId, key: Key)
    ensures var at := (a, b) => Two(host, key, a, b, map[key := 0]);
      && Becomes(at(Checked(0, true), Checked(0, true)), Leave(0), at(Gone, Checked(0, true)))
      && Becomes(at(Gone, Checked(0, true)), Leave(1), at(Gone, Gone))
  {
    hide Move, StrongCount, Inspected, Permits, HostFree;
    FirstMoves(host, key, Checked(0, true), Checked(0, true), Gone, map[key := 0]);
    SecondMoves(host, key, Gone, Checked(0, true), Gone, map[key := 0]);
  }

  lemma TwoAreGone(host: HostId, key: Key)
    ensures var s := Two(host, key, Gone, Gone, map[key := 0]);
      key in s.registry && forall t <- s.tasks :: s.tasks[t].pc.Gone?
  {
  }

  /** Two tasks that look before either has let go of the mutex leave an entry that no task refers to. */
  lemma LeftoverRun(host: HostId, key: Key) returns (states: seq<State>, steps: seq<Step>)
    ensures IsRun(states, steps) && |steps| == 12
    ensures key in states[12].registry && forall t <- states[12].tasks :: states[12].tasks[t].pc.Gone?
  {
    hide Becomes, Two;
    TwoAreGone(host, key);
    var one, two := BothSpawn(host, key);
    BothAreAdmitted(host, key);
    BothLookUp(host, key);
    BothCancel(host, key);
    BothLeave(host, key);
    var wait, looked := AwaitLock(0), Checked(0, true);
    var before := (a, b) => Two(host, key, a, b, map[]);
    var after := (a, b) => Two(host, key, a, b, map[key := 0]);
    states := [
      INITIAL, one, two, before(AwaitGlobal, AwaitHost), before(Admitted, AwaitHost),
      before(Admitted, AwaitGlobal), before(Admitted, Admitted), after(wait, Admitted), after(wait, wait),
      after(looked, wait), after(looked, looked), after(Gone, looked), after(Gone, Gone)];
    steps := [
      Spawn(0, host, key), Spawn(1, host, key), Acquire(0), Acquire(0), Acquire(1), Acquire(1), LookUp(0), LookUp(1),
      Cancel(0), Cancel(1), Leave(0), Leave(1)];
  }

  /** After the transfer its mutex, its global and its host permit come back one by one, in this order. */
  lemma ReleasesOneByOne(s: State, t: TaskId)
    requires Inv(s) && Enabled(s, Release(t))
    ensures var u, pc, host := Apply(s, Release(t)), s.tasks[t].pc, s.tasks[t].host;
      && u.locked == (if pc.Working? then s.locked - {pc.l} else s.locked)
      && u.globalFree == s.globalFree + (if pc.Unlocked? then 1 else 0)
      && HostFree(u, host) == HostFree(s, host) + (if pc.HostOnly? then 1 else 0)
      && (pc.Working? ==> Enabled(u, Release(t)) && u.tasks[t].pc.Unlocked?)
      && (pc.Unlocked? ==> Enabled(u, Release(t)) && u.tasks[t].pc.HostOnly?)
      && (pc.HostOnly? ==> Enabled(u, Inspect(t)))
  {
    hide Inv, StrongCount;
  }
}
