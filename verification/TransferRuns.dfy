/**
 Runs of the whole transfer manager: any number of jobs, each stepping through its task
 protocol, interleaved with admissions, cancellations, disconnects, shutdown, dropped tasks
 and the cleanup tasks they leave behind. Every step is one critical section or one request.
 */
module TransferRuns {
  import opened Common
  import opened TaskProtocol
  import opened JobTable

  /** How a task's future came to its end. */
  datatype Exit = Ended(phase: Phase, outcome: TransferState) | GaveUp | Aborted

  datatype Pc =
    | AwaitHost | AwaitGlobal | Admitted | AwaitDestination
    | Running(phase: Phase)
    | Marking(phase: Phase)                           // a guard removal failed; not yet recorded
    | Finishing(phase: Phase, outcome: TransferState)
    | Gone(exit: Exit)

  /** The task that a dropped staging guard spawns. */
  datatype Cleaner = NoCleaner | Removing | Noting | Reporting | Closing

  /** What became of the staging file of a job; `Doubtful`: perhaps created, and nobody's to remove. */
  datatype Staging = Free | Doubtful | Held | Clean | Unconfirmed | Orphaned

  datatype Task = Task(owner: Owner, pc: Pc, cleaner: Cleaner, staging: Staging, history: seq<Action>)

  datatype System = System(table: Table, tasks: map<JobId, Task>)

  const INITIAL := System(Table(map[], [], {}, {}, false), map[])

  // ----- The steps of one job -----

  datatype Move =
    | Advance                                      // a permit or the destination lock was acquired
    | GiveUp                                       // cancelled while waiting
    | Act(action: Action)
    | Mark
    | End(outcome: TransferState)
    | Report
    | Drop(inRuntime: bool, sent: Option<Action>)  // the runtime drops the task at an await
    | CleanerRemove(ok: bool)
    | CleanerNote
    | CleanerReport
    | CleanerClose

  predicate Waiting(pc: Pc) {
    pc.AwaitHost? || pc.AwaitGlobal? || pc.AwaitDestination?
  }

  /** A dropped task hands a staging file to its guard exactly in these states. */
  predicate HoldsGuard(pc: Pc) {
    pc.Running? && HoldsStaging(pc.phase)
  }

  predicate CanMove(t: Table, id: JobId, task: Task, m: Move) {
    match m
    case Advance => Waiting(task.pc) || task.pc.Admitted?
    case GiveUp => Waiting(task.pc) && id in t.jobs && t.jobs[id].token
    case Act(a) => task.pc.Running? && Allowed(task.pc.phase, a) && (a.EnterFinalizing? ==> MayFinalize(t, id))
    case Mark => task.pc.Marking?
    case End(outcome) =>
      && task.pc.Running? && CanEnd(task.pc.phase, outcome)
      && (outcome.Cancelled? ==> id in t.jobs && t.jobs[id].token)
    case Report => task.pc.Finishing? && Terminal(task.pc.outcome)
    case Drop(_, sent) =>
      && (Waiting(task.pc) || task.pc.Running?)
      && (sent.Some? ==> task.pc.Running? && Allowed(task.pc.phase, sent.value) && IsRemoteRequest(sent.value))
    case CleanerRemove(_) => task.cleaner.Removing?
    case CleanerNote => task.cleaner.Noting?
    case CleanerReport => task.cleaner.Reporting?
    case CleanerClose => task.cleaner.Closing?
  }

  function StagingAfter(before: Staging, a: Action): Staging {
    match a
    case Create(r) => if r.Confirmed? then Held else if r.Lost? then Doubtful else before
    case Unlink(r) => if r.Confirmed? then Clean else before
    case Rename(r) => if r.Confirmed? then Clean else before
    case GuardRemove(ok) => if ok then Clean else Unconfirmed
    case _ => before
  }

  function TaskAfter(t: Table, id: JobId, task: Task, m: Move): Task
    requires CanMove(t, id, task, m)
  {
    match m
    case Advance =>
      task.(pc := match task.pc
                  case AwaitHost => AwaitGlobal
                  case AwaitGlobal => Admitted
                  case Admitted => AwaitDestination
                  case _ => Running(Idle))
    case GiveUp => task.(pc := Gone(GaveUp))
    case Act(a) =>
      var next := Next(task.pc.phase, a);
      task.(pc := if a == GuardRemove(false) then Marking(next) else Running(next),
            staging := StagingAfter(task.staging, a),
            history := task.history + [a])
    case Mark => task.(pc := Running(task.pc.phase))
    case End(outcome) => task.(pc := Finishing(task.pc.phase, outcome))
    case Report => task.(pc := Gone(Ended(task.pc.phase, task.pc.outcome)))
    case Drop(inRuntime, sent) =>
      task.(pc := Gone(Aborted),
            history := if sent.Some? then task.history + [sent.value] else task.history,
            cleaner := if HoldsGuard(task.pc) && inRuntime then Removing else task.cleaner,
            staging := if HoldsGuard(task.pc) && !inRuntime then Orphaned
                       else if sent.Some? && sent.value.Create? then Doubtful
                       else task.staging)
    case CleanerRemove(ok) =>
      task.(cleaner := if ok then Reporting else Noting,
            staging := if ok then Clean else Unconfirmed,
            history := task.history + [GuardRemove(ok)])
    case CleanerNote => task.(cleaner := Reporting)
    case CleanerReport => task.(cleaner := Closing)
    case CleanerClose => task.(cleaner := NoCleaner)
  }

  /** The critical section that goes with a move. */
  function TableAfter(t: Table, id: JobId, task: Task, m: Move): Table
    requires CanMove(t, id, task, m)
  {
    match m
    case Advance => if task.pc.Admitted? then SetState(t, id, Preparing) else t
    case GiveUp => SetState(t, id, TransferState.Cancelled)
    case Act(a) =>
      if a.SetTransferring? then SetState(t, id, Transferring)
      else if a.EnterFinalizing? then Finalize(t, id)
      else t
    case Mark => MarkUnconfirmed(t, id)
    case End(_) => t
    case Report =>
      // `set_state` for Completed and Cancelled, `finish_error` and `finish_unknown` otherwise.
      if task.pc.outcome.Completed? || task.pc.outcome.Cancelled?
      then SetState(t, id, task.pc.outcome)
      else Finish(t, id, task.pc.outcome)
    case Drop(inRuntime, _) =>
      // Outside a runtime the guard cannot remove anything: it only reports the failure.
      if !HoldsGuard(task.pc) then t
      else
        var listed := t.(cleanupTasks := t.cleanupTasks + {id});
        if inRuntime then listed else Finish(listed, id, TransferState.Failed)
    case CleanerRemove(_) => t
    case CleanerNote => MarkUnconfirmed(t, id)
    case CleanerReport => Finish(t, id, TransferState.Failed)
    case CleanerClose => t.(cleanupTasks := t.cleanupTasks - {id})
  }

  // ----- The steps of the system -----

  datatype Step =
    | Submit(batch: seq<(JobId, Owner)>)
    | CancelOne(id: JobId, owner: Owner)
    | DisconnectOne(session: Session)
    | ShutDown
    | Step(id: JobId, move: Move)

  ghost predicate Enabled(s: System, step: Step) {
    match step
    case Submit(batch) => FreshBatch(s.table, batch) && forall job <- batch :: job.0 !in s.tasks
    case CancelOne(_, _) | DisconnectOne(_) | ShutDown => true
    case Step(id, m) => id in s.tasks && CanMove(s.table, id, s.tasks[id], m)
  }

  function NewTask(owner: Owner): Task {
    Task(owner, AwaitHost, NoCleaner, Free, [])
  }

  /** The tasks of an accepted batch, all waiting. */
  function Spawn(tasks: map<JobId, Task>, batch: seq<(JobId, Owner)>): map<JobId, Task> {
    if batch == [] then tasks
    else Spawn(tasks, batch[..|batch| - 1])[batch[|batch| - 1].0 := NewTask(batch[|batch| - 1].1)]
  }

  ghost function Apply(s: System, step: Step): System
    requires Enabled(s, step)
  {
    match step
    case Submit(batch) =>
      var (table, r) := Enqueue(s.table, batch);
      System(table, if r.Ok? then Spawn(s.tasks, batch) else s.tasks)
    case CancelOne(id, owner) => s.(table := Cancel(s.table, id, owner).0)
    case DisconnectOne(session) => s.(table := Disconnect(s.table, session))
    case ShutDown => s.(table := Shutdown(s.table))
    case Step(id, m) =>
      System(TableAfter(s.table, id, s.tasks[id], m),
             s.tasks[id := TaskAfter(s.table, id, s.tasks[id], m)])
  }

  // ----- The invariant of every reachable state -----

  function RecordOf(t: Table, id: JobId): Option<JobRecord> {
    if id in t.jobs then Some(t.jobs[id]) else None
  }

  /** The actions of a task that was not dropped are a run of the task protocol. */
  ghost predicate HistoryInv(task: Task) {
    match task.pc
    case Running(p) => Replay(task.history) == Some(p)
    case Marking(p) => Replay(task.history) == Some(p)
    case Finishing(p, outcome) => Replay(task.history) == Some(p) && CanEnd(p, outcome)
    case Gone(Ended(p, outcome)) => Replay(task.history) == Some(p) && CanEnd(p, outcome)
    case Gone(Aborted) => true
    case _ => task.history == []
  }

  /** What a task and its record know of each other. */
  ghost predicate RecordInv(task: Task, r: JobRecord) {
    && r.owner == task.owner
    && (r.state.CancelRequested? || r.state.Cancelled? ==> r.token)
    && (task.pc.Finishing? && task.pc.outcome.Cancelled? ==> r.token)
    && (r.state.Finalizing? ==> !r.token)
    && (!task.pc.Gone? ==> !Terminal(r.state))
    && (task.pc.Running? && PastFinalizing(task.pc.phase) ==> r.state.Finalizing?)
    && (Waiting(task.pc) || task.pc.Admitted? || task.pc == Running(Idle) ==> !r.state.Finalizing?)
    && (task.pc.Gone? && task.pc.exit.Ended? ==> r.state == task.pc.exit.outcome)
    && (task.pc.Gone? && task.pc.exit.GaveUp? ==> r.state.Cancelled?)
    && (task.staging.Orphaned? ==> Terminal(r.state))
    && (!task.cleaner.NoCleaner? ==> (task.cleaner.Closing? <==> Terminal(r.state)))
    && (task.staging.Unconfirmed? ==> r.cleanupUnconfirmed || task.pc.Marking? || task.cleaner.Noting?)
  }

  /** A commit is sent only while finalizing, and what comes after it is an ending. */
  ghost predicate CommitInv(task: Task, r: JobRecord) {
    Commits(task.history) != [] ==> !r.token && (r.state.Finalizing? || Terminal(r.state))
  }

  /** Nothing that a task can still do concerns a staging file whose creation was not confirmed. */
  predicate PastDoubtfulCreation(pc: Pc) {
    pc == Running(Closed(true)) || (pc.Finishing? && pc.phase == Closed(true)) || pc.Gone?
  }

  /** Who is responsible for the staging file, and which records cannot be forgotten yet. */
  ghost predicate StagingInv(task: Task, listed: bool) {
    && (Waiting(task.pc) || task.pc.Admitted? ==> task.staging.Free?)
    && (task.staging.Doubtful? ==> task.cleaner.NoCleaner? && PastDoubtfulCreation(task.pc))
    && (task.staging.Held? <==> HoldsGuard(task.pc) || task.cleaner.Removing?)
    && (task.pc == Running(Idle) || task.pc == Running(Streaming) ==> task.staging.Free?)
    && (task.pc.Marking? ==> task.staging.Unconfirmed? && task.pc.phase.Settled?)
    && (!task.cleaner.NoCleaner? ==> task.pc == Gone(Aborted))
    && (task.cleaner.Noting? ==> task.staging.Unconfirmed?)
    && (task.staging.Orphaned? ==> task.pc == Gone(Aborted) && task.cleaner.NoCleaner?)
    && (listed <==> !task.cleaner.NoCleaner? || task.staging.Orphaned?)
  }

  /** All that holds of a task and of its record, while it has one. */
  ghost predicate TaskInv(task: Task, record: Option<JobRecord>, listed: bool) {
    && HistoryInv(task)
    && StagingInv(task, listed)
    && (record.Some? ==> RecordInv(task, record.value) && CommitInv(task, record.value))
    && (record.None? ==>
          && task.pc.Gone? && task.cleaner.NoCleaner?
          && (task.staging.Free? || task.staging.Clean? || task.staging.Doubtful?))
  }

  ghost predicate Inv(s: System) {
    && WellFormed(s.table)
    && s.table.jobs.Keys <= s.tasks.Keys
    && forall id <- s.tasks :: TaskInv(s.tasks[id], RecordOf(s.table, id), id in s.table.cleanupTasks)
  }

  lemma InitialInv()
    ensures Inv(INITIAL)
  {
    assert ActiveIds(INITIAL.table.jobs) == {};
  }

  // ----- Each step keeps it -----

  /** What a move does to the job's own record. */
  function RecordAfter(task: Task, r: JobRecord, m: Move): JobRecord {
    match m
    case Advance => if task.pc.Admitted? then WithState(r, Preparing) else r
    case GiveUp => WithState(r, TransferState.Cancelled)
    case Act(a) =>
      if a.SetTransferring? then WithState(r, Transferring)
      else if a.EnterFinalizing? then r.(state := TransferState.Finalizing)
      else r
    case Mark => r.(cleanupUnconfirmed := true)
    case CleanerNote => r.(cleanupUnconfirmed := true)
    case Report => if task.pc.Finishing? then WithState(r, task.pc.outcome) else r
    case Drop(inRuntime, _) => if HoldsGuard(task.pc) && !inRuntime then WithState(r, TransferState.Failed) else r
    case CleanerReport => WithState(r, TransferState.Failed)
    case _ => r
  }

  /** Whether the job is listed among the cleanup tasks after a move. */
  function ListedAfter(task: Task, listed: bool, m: Move): bool {
    if m.Drop? then listed || HoldsGuard(task.pc)
    else listed && !m.CleanerClose?
  }

  /** The action a move adds to the job's history. */
  function Added(m: Move): Option<Action> {
    match m
    case Act(a) => Some(a)
    case Drop(_, sent) => sent
    case CleanerRemove(ok) => Some(GuardRemove(ok))
    case _ => None
  }

  lemma AddedCommits(t: Table, id: JobId, task: Task, m: Move)
    requires CanMove(t, id, task, m)
    ensures var h := TaskAfter(t, id, task, m).history;
      && h == task.history + (if Added(m).Some? then [Added(m).value] else [])
      && Commits(h) == Commits(task.history)
           + (if Added(m).Some? && IsCommit(Added(m).value) then [Added(m).value] else [])
  {
    if Added(m).Some? { CommitsExtends(task.history, Added(m).value); }
  }

  lemma MoveKeepsHistoryInv(t: Table, id: JobId, task: Task, m: Move)
    requires CanMove(t, id, task, m) && HistoryInv(task)
    requires !task.cleaner.NoCleaner? ==> task.pc == Gone(Aborted)
    ensures HistoryInv(TaskAfter(t, id, task, m))
  {
    if m.Act? { ReplayExtends(task.history, m.action); }
  }

  lemma MoveKeepsRecordInv(t: Table, id: JobId, task: Task, m: Move)
    requires id in t.jobs && CanMove(t, id, task, m)
    requires TaskInv(task, Some(t.jobs[id]), id in t.cleanupTasks)
    ensures RecordInv(TaskAfter(t, id, task, m), RecordAfter(task, t.jobs[id], m))
  {
    hide HistoryInv, CommitInv;
    match m {
      case Act(_) =>
      case Drop(_, _) =>
      case _ =>
    }
  }

  lemma MoveKeepsCommitInv(t: Table, id: JobId, task: Task, m: Move)
    requires id in t.jobs && CanMove(t, id, task, m)
    requires TaskInv(task, Some(t.jobs[id]), id in t.cleanupTasks)
    ensures CommitInv(TaskAfter(t, id, task, m), RecordAfter(task, t.jobs[id], m))
  {
    hide Commits, Replay;
    if task.pc.Running? { ReplayExplains(task.history); }
    AddedCommits(t, id, task, m);
  }

  /** One job's move keeps its own invariant. */
  lemma MoveKeepsStagingInv(t: Table, id: JobId, task: Task, m: Move, listed: bool)
    requires CanMove(t, id, task, m) && StagingInv(task, listed)
    ensures StagingInv(TaskAfter(t, id, task, m), ListedAfter(task, listed, m))
  {
    match m {
      case Act(_) =>
      case Drop(_, _) =>
      case _ =>
    }
  }

  lemma MoveKeepsTaskInv(t: Table, id: JobId, task: Task, m: Move)
    requires id in t.jobs && CanMove(t, id, task, m)
    requires TaskInv(task, Some(t.jobs[id]), id in t.cleanupTasks)
    requires t.jobs[id].hasSpec <==> !Terminal(t.jobs[id].state)
    ensures TaskInv(TaskAfter(t, id, task, m), Some(RecordAfter(task, t.jobs[id], m)),
                    ListedAfter(task, id in t.cleanupTasks, m))
    ensures RecordAfter(task, t.jobs[id], m).hasSpec <==> !Terminal(RecordAfter(task, t.jobs[id], m).state)
    ensures Terminal(t.jobs[id].state) ==> RecordAfter(task, t.jobs[id], m) == t.jobs[id]
  {
    MoveKeepsHistoryInv(t, id, task, m);
    MoveKeepsStagingInv(t, id, task, m, id in t.cleanupTasks);
    MoveKeepsRecordInv(t, id, task, m);
    MoveKeepsCommitInv(t, id, task, m);
    hide HistoryInv, CommitInv, StagingInv, TaskAfter, ListedAfter;
  }

  lemma ForgettingKeepsTaskInv(task: Task, r: JobRecord)
    requires TaskInv(task, Some(r), false)
    requires Terminal(r.state) && !r.cleanupUnconfirmed
    ensures TaskInv(task, None, false)
  {
  }

  /** The only jobs a table may lose. */
  ghost predicate Forgettable(r: JobRecord, listed: bool) {
    Terminal(r.state) && !r.cleanupUnconfirmed && !listed
  }

  function Put(t: Table, id: JobId, r: JobRecord, listed: bool): Table {
    t.(jobs := t.jobs[id := r],
       cleanupTasks := if listed then t.cleanupTasks + {id} else t.cleanupTasks - {id})
  }

  lemma TableMoves(t: Table, id: JobId, task: Task, m: Move)
    requires WellFormed(t) && id in t.jobs && CanMove(t, id, task, m)
    ensures var u := Put(t, id, RecordAfter(task, t.jobs[id], m), ListedAfter(task, id in t.cleanupTasks, m));
      TableAfter(t, id, task, m) == u || TableAfter(t, id, task, m) == Trim(u)
  {
    assert t.jobs[id := t.jobs[id]] == t.jobs;
    assert id in t.cleanupTasks ==> t.cleanupTasks + {id} == t.cleanupTasks;
    assert id !in t.cleanupTasks ==> t.cleanupTasks - {id} == t.cleanupTasks;
  }

  lemma PutKeepsWellFormed(t: Table, id: JobId, r: JobRecord, listed: bool)
    requires WellFormed(t) && id in t.jobs
    requires r.hasSpec <==> !Terminal(r.state)
    requires Terminal(t.jobs[id].state) ==> Terminal(r.state)
    ensures WellFormed(Put(t, id, r, listed))
  {
    StoreKeepsWellFormed(t, id, r);
  }

  /** `u` agrees with `t` on every job but `id`, except that finished jobs may be forgotten. */
  ghost predicate Differs(t: Table, u: Table, id: JobId, r: JobRecord, listed: bool) {
    && (forall o :: o in u.cleanupTasks <==> if o == id then listed else o in t.cleanupTasks)
    && (forall o <- u.jobs :: o in t.jobs && u.jobs[o] == if o == id then r else t.jobs[o])
    && (forall o <- t.jobs :: o !in u.jobs ==>
          if o == id then Forgettable(r, listed) else Forgettable(t.jobs[o], o in t.cleanupTasks))
  }

  lemma PutDiffers(t: Table, id: JobId, r: JobRecord, listed: bool)
    requires id in t.jobs && WellFormed(Put(t, id, r, listed))
    ensures Differs(t, Put(t, id, r, listed), id, r, listed)
    ensures WellFormed(Trim(Put(t, id, r, listed)))
    ensures Differs(t, Trim(Put(t, id, r, listed)), id, r, listed)
  {
    hide WellFormed, Trim;
    var u := Put(t, id, r, listed);
    TrimOnlyForgets(u);
    forall o <- t.jobs | o !in Trim(u).jobs
      ensures if o == id then Forgettable(r, listed) else Forgettable(t.jobs[o], o in t.cleanupTasks)
    {
      assert Eligible(u, o);
    }
  }

  lemma MoveDiffers(t: Table, id: JobId, task: Task, m: Move, r: JobRecord, listed: bool)
    requires WellFormed(t) && id in t.jobs && CanMove(t, id, task, m)
    requires r == RecordAfter(task, t.jobs[id], m) && listed == ListedAfter(task, id in t.cleanupTasks, m)
    requires r.hasSpec <==> !Terminal(r.state)
    requires Terminal(t.jobs[id].state) ==> r == t.jobs[id]
    ensures WellFormed(TableAfter(t, id, task, m))
    ensures Differs(t, TableAfter(t, id, task, m), id, r, listed)
  {
    TableMoves(t, id, task, m);
    PutKeepsWellFormed(t, id, r, listed);
    PutDiffers(t, id, r, listed);
  }

  lemma DiffersKeepsInv(s: System, u: System, id: JobId, r: JobRecord, listed: bool)
    requires Inv(s) && id in s.table.jobs
    requires u.tasks.Keys == s.tasks.Keys && forall o <- s.tasks :: o != id ==> u.tasks[o] == s.tasks[o]
    requires WellFormed(u.table) && Differs(s.table, u.table, id, r, listed)
    requires TaskInv(u.tasks[id], Some(r), listed)
    ensures Inv(u)
  {
    forall o <- u.tasks ensures TaskInv(u.tasks[o], RecordOf(u.table, o), o in u.table.cleanupTasks) {
      if o in s.table.jobs && o !in u.table.jobs {
        ForgettingKeepsTaskInv(u.tasks[o], if o == id then r else s.table.jobs[o]);
      }
    }
  }

  /** A move presupposes the job's record: only finished jobs are forgotten, and those do not move. */
  lemma MoverIsKnown(s: System, id: JobId, m: Move)
    requires Inv(s) && Enabled(s, Step(id, m))
    ensures id in s.table.jobs
  {
  }

  lemma MoveKeepsInv(s: System, id: JobId, m: Move)
    requires Inv(s) && Enabled(s, Step(id, m))
    ensures Inv(Apply(s, Step(id, m)))
  {
    hide HistoryInv, RecordInv, CommitInv, RecordAfter, ListedAfter, TableAfter, Differs;
    MoverIsKnown(s, id, m);
    var t, task := s.table, s.tasks[id];
    var r, listed := RecordAfter(task, t.jobs[id], m), ListedAfter(task, id in t.cleanupTasks, m);
    MoveKeepsTaskInv(t, id, task, m);
    MoveDiffers(t, id, task, m, r, listed);
    DiffersKeepsInv(s, Apply(s, Step(id, m)), id, r, listed);
  }

  lemma CancelRequestKeepsInv(s: System, t: Table)
    requires Inv(s)
    requires t.jobs.Keys == s.table.jobs.Keys && t.order == s.table.order && t.cleanupTasks == s.table.cleanupTasks
    requires forall id <- t.jobs :: t.jobs[id] == s.table.jobs[id] || t.jobs[id] == RequestCancel(s.table.jobs[id])
    ensures Inv(s.(table := t))
  {
    CancelKeepsWellFormed(s.table, t);
    forall id <- s.tasks ensures TaskInv(s.tasks[id], RecordOf(t, id), id in t.cleanupTasks) {
      if id in t.jobs { RequestKeepsTaskInv(s.tasks[id], s.table.jobs[id], id in t.cleanupTasks); }
    }
  }

  lemma RequestKeepsTaskInv(task: Task, r: JobRecord, listed: bool)
    requires TaskInv(task, Some(r), listed)
    ensures TaskInv(task, Some(RequestCancel(r)), listed)
  {
  }

  lemma LastOfBatchIsNew(rest: seq<(JobId, Owner)>, id: JobId, owner: Owner)
    requires forall i, j :: 0 <= i < j < |rest| + 1 ==> (rest + [(id, owner)])[i].0 != (rest + [(id, owner)])[j].0
    ensures id !in BatchIds(rest)
  {
    forall i | 0 <= i < |rest| ensures rest[i].0 != id {
      assert (rest + [(id, owner)])[i].0 != (rest + [(id, owner)])[|rest|].0;
    }
  }

  lemma {:induction false} SpawnAddsBatch(tasks: map<JobId, Task>, batch: seq<(JobId, Owner)>)
    requires forall i, j :: 0 <= i < j < |batch| ==> batch[i].0 != batch[j].0
    requires forall job <- batch :: job.0 !in tasks
    ensures Spawn(tasks, batch).Keys == tasks.Keys + BatchIds(batch)
    ensures forall id <- tasks :: Spawn(tasks, batch)[id] == tasks[id]
    ensures forall job <- batch :: Spawn(tasks, batch)[job.0] == NewTask(job.1)
  {
    if batch != [] {
      var rest := batch[..|batch| - 1];
      var (id, owner) := batch[|batch| - 1];
      assert batch == rest + [(id, owner)];
      SpawnAddsBatch(tasks, rest);
      BatchIdsExtends(rest, id, owner);
      LastOfBatchIsNew(rest, id, owner);
      forall job <- batch ensures Spawn(tasks, batch)[job.0] == NewTask(job.1) {
        assert job == (id, owner) || (job in rest && job.0 in BatchIds(rest));
      }
    }
  }

  lemma NewTaskInv(owner: Owner)
    ensures TaskInv(NewTask(owner), Some(NewRecord(owner)), false)
  {
  }

  lemma SubmitKeepsTaskInv(s: System, batch: seq<(JobId, Owner)>, id: JobId)
    requires Inv(s) && Enabled(s, Submit(batch)) && id in Apply(s, Submit(batch)).tasks
    ensures var u := Apply(s, Submit(batch));
      TaskInv(u.tasks[id], RecordOf(u.table, id), id in u.table.cleanupTasks)
  {
    hide HistoryInv, RecordInv, CommitInv, StagingInv, Spawn;
    EnqueueAllOrNothing(s.table, batch);
    SpawnAddsBatch(s.tasks, batch);
    TrimOnlyForgets(s.table);
    var u := Apply(s, Submit(batch));
    if id in s.tasks {
      if id in s.table.jobs && id !in u.table.jobs {
        ForgettingKeepsTaskInv(s.tasks[id], s.table.jobs[id]);
      }
    } else {
      var job :| job in batch && job.0 == id;
      NewTaskInv(job.1);
    }
  }

  lemma SubmitKeepsInv(s: System, batch: seq<(JobId, Owner)>)
    requires Inv(s) && Enabled(s, Submit(batch))
    ensures Inv(Apply(s, Submit(batch)))
  {
    hide TaskInv, Spawn;
    EnqueueAllOrNothing(s.table, batch);
    SpawnAddsBatch(s.tasks, batch);
    TrimOnlyForgets(s.table);
    var u := Apply(s, Submit(batch));
    forall id <- u.tasks ensures TaskInv(u.tasks[id], RecordOf(u.table, id), id in u.table.cleanupTasks) {
      SubmitKeepsTaskInv(s, batch, id);
    }
  }

  lemma StepKeepsInv(s: System, step: Step)
    requires Inv(s) && Enabled(s, step)
    ensures Inv(Apply(s, step))
  {
    hide Inv;
    match step
    case Submit(batch) => SubmitKeepsInv(s, batch);
    case Step(id, m) => MoveKeepsInv(s, id, m);
    case _ => CancelRequestKeepsInv(s, Apply(s, step).table);
  }

  // ----- What is true later, once it is true -----

  /** A finished or forgotten job sends nothing more; one with an accepted cancellation commits nothing more. */
  ghost predicate HistoryLater(task: Task, r: Option<JobRecord>, task': Task) {
    && task.history <= task'.history
    && (r.None? || Terminal(r.value.state) ==> task'.history == task.history)
    && (r.None? || r.value.token ==> Commits(task'.history) == Commits(task.history))
  }

  /** Endings are absorbing, cancellations are not taken back, and finalization excludes them. */
  ghost predicate RecordLater(r: JobRecord, r': JobRecord) {
    && (Terminal(r.state) ==> r' == r)
    && (r.token ==> r'.token)
    && (r.state.Finalizing? ==> !r'.token && (r'.state.Finalizing? || Terminal(r'.state)))
  }

  /** What every step keeps of one job. */
  ghost predicate Later(task: Task, r: Option<JobRecord>, task': Task, r': Option<JobRecord>) {
    && task'.owner == task.owner
    && HistoryLater(task, r, task')
    && (r'.Some? ==> r.Some? && RecordLater(r.value, r'.value))
    && (task.staging.Unconfirmed? ==> task'.staging.Unconfirmed?)
  }

  lemma LaterIsTransitive(a: Task, ra: Option<JobRecord>, b: Task, rb: Option<JobRecord>,
                          c: Task, rc: Option<JobRecord>)
    requires Later(a, ra, b, rb) && Later(b, rb, c, rc)
    ensures Later(a, ra, c, rc)
  {
    assert a.history <= c.history;
  }

  ghost predicate SystemLater(s: System, u: System) {
    && s.tasks.Keys <= u.tasks.Keys
    && s.table.disconnecting <= u.table.disconnecting
    && (s.table.shuttingDown ==> u.table.shuttingDown)
    && (forall id <- s.tasks :: Later(s.tasks[id], RecordOf(s.table, id), u.tasks[id], RecordOf(u.table, id)))
    && (forall id <- u.tasks :: id !in s.tasks ==>
          !s.table.shuttingDown && (u.tasks[id].owner.host, u.tasks[id].owner.session) !in s.table.disconnecting)
  }

  lemma SystemLaterIsTransitive(s: System, u: System, v: System)
    requires SystemLater(s, u) && SystemLater(u, v)
    ensures SystemLater(s, v)
  {
    forall id <- s.tasks
      ensures Later(s.tasks[id], RecordOf(s.table, id), v.tasks[id], RecordOf(v.table, id))
    {
      LaterIsTransitive(s.tasks[id], RecordOf(s.table, id), u.tasks[id], RecordOf(u.table, id),
                        v.tasks[id], RecordOf(v.table, id));
    }
  }

  lemma SystemLaterIsReflexive(s: System)
    requires Inv(s)
    ensures SystemLater(s, s)
  {
    forall id <- s.tasks ensures Later(s.tasks[id], RecordOf(s.table, id), s.tasks[id], RecordOf(s.table, id)) {
      RestLater(s.tasks[id], RecordOf(s.table, id), id in s.table.cleanupTasks, RecordOf(s.table, id));
    }
  }

  lemma CommitsExtends(h: seq<Action>, a: Action)
    ensures Commits(h + [a]) == Commits(h) + (if IsCommit(a) then [a] else [])
  {
    assert (h + [a])[..|h|] == h;
  }

  /** A job that does not move, whose record may get a cancel request or be forgotten. */
  lemma RestLater(task: Task, r: Option<JobRecord>, listed: bool, r': Option<JobRecord>)
    requires TaskInv(task, r, listed)
    requires r' == r || r'.None? || (r.Some? && r' == Some(RequestCancel(r.value)))
    ensures Later(task, r, task, r')
  {
  }

  lemma MoverHistoryLater(t: Table, id: JobId, task: Task, m: Move)
    requires id in t.jobs && CanMove(t, id, task, m)
    requires TaskInv(task, Some(t.jobs[id]), id in t.cleanupTasks)
    ensures HistoryLater(task, Some(t.jobs[id]), TaskAfter(t, id, task, m))
  {
    hide Commits, Replay;
    AddedCommits(t, id, task, m);
  }

  lemma MoverRecordLater(t: Table, id: JobId, task: Task, m: Move)
    requires id in t.jobs && CanMove(t, id, task, m)
    requires TaskInv(task, Some(t.jobs[id]), id in t.cleanupTasks)
    ensures RecordLater(t.jobs[id], RecordAfter(task, t.jobs[id], m))
    ensures task.staging.Unconfirmed? ==> TaskAfter(t, id, task, m).staging.Unconfirmed?
  {
  }

  /** The jobs that did not move, at most forgotten. */
  lemma DiffersLater(s: System, u: System, id: JobId, r: JobRecord, listed: bool)
    requires Inv(s) && id in s.table.jobs
    requires u.tasks.Keys == s.tasks.Keys && forall o <- s.tasks :: o != id ==> u.tasks[o] == s.tasks[o]
    requires Differs(s.table, u.table, id, r, listed)
    ensures forall o <- s.tasks :: o != id ==>
              Later(s.tasks[o], RecordOf(s.table, o), u.tasks[o], RecordOf(u.table, o))
  {
    hide WellFormed, TaskInv, Later;
    forall o <- s.tasks | o != id
      ensures Later(s.tasks[o], RecordOf(s.table, o), u.tasks[o], RecordOf(u.table, o))
    {
      RestLater(s.tasks[o], RecordOf(s.table, o), o in s.table.cleanupTasks, RecordOf(u.table, o));
    }
  }

  lemma MoverLater(s: System, id: JobId, m: Move)
    requires Inv(s) && Enabled(s, Step(id, m)) && id in s.table.jobs
    requires RecordOf(TableAfter(s.table, id, s.tasks[id], m), id)
               in {None, Some(RecordAfter(s.tasks[id], s.table.jobs[id], m))}
    ensures Later(s.tasks[id], RecordOf(s.table, id),
                  TaskAfter(s.table, id, s.tasks[id], m), RecordOf(TableAfter(s.table, id, s.tasks[id], m), id))
  {
    hide WellFormed, TaskInv, HistoryLater, RecordLater, RecordAfter, TableAfter;
    MoverHistoryLater(s.table, id, s.tasks[id], m);
    MoverRecordLater(s.table, id, s.tasks[id], m);
  }

  lemma MoveLater(s: System, id: JobId, m: Move)
    requires Inv(s) && Enabled(s, Step(id, m))
    ensures SystemLater(s, Apply(s, Step(id, m)))
  {
    hide TaskInv, Later, TableAfter, TaskAfter, RecordAfter, ListedAfter;
    MoverIsKnown(s, id, m);
    var t, task, u := s.table, s.tasks[id], Apply(s, Step(id, m));
    var r, listed := RecordAfter(task, t.jobs[id], m), ListedAfter(task, id in t.cleanupTasks, m);
    MoveKeepsTaskInv(t, id, task, m);
    MoveDiffers(t, id, task, m, r, listed);
    SealsUnmoved(t, id, task, m, r, listed);
    DiffersLater(s, u, id, r, listed);
    MoverLater(s, id, m);
  }

  lemma SealsUnmoved(t: Table, id: JobId, task: Task, m: Move, r: JobRecord, listed: bool)
    requires WellFormed(t) && id in t.jobs && CanMove(t, id, task, m)
    requires r == RecordAfter(task, t.jobs[id], m) && listed == ListedAfter(task, id in t.cleanupTasks, m)
    requires r.hasSpec <==> !Terminal(r.state)
    requires Terminal(t.jobs[id].state) ==> r == t.jobs[id]
    ensures TableAfter(t, id, task, m).disconnecting == t.disconnecting
    ensures TableAfter(t, id, task, m).shuttingDown == t.shuttingDown
  {
    TableMoves(t, id, task, m);
    PutKeepsWellFormed(t, id, r, listed);
    TrimOnlyForgets(Put(t, id, r, listed));
  }

  /** A sealed session and a manager that is shutting down admit nothing. */
  lemma SubmitRespectsSeals(s: System, batch: seq<(JobId, Owner)>)
    requires Inv(s) && Enabled(s, Submit(batch))
    ensures var u := Apply(s, Submit(batch));
      && u.tasks.Keys >= s.tasks.Keys
      && u.table.disconnecting == s.table.disconnecting && u.table.shuttingDown == s.table.shuttingDown
      && forall id <- u.tasks :: id !in s.tasks ==>
           !s.table.shuttingDown && (u.tasks[id].owner.host, u.tasks[id].owner.session) !in s.table.disconnecting
  {
    EnqueueAllOrNothing(s.table, batch);
    SpawnAddsBatch(s.tasks, batch);
    TrimOnlyForgets(s.table);
    var u := Apply(s, Submit(batch));
    forall id <- u.tasks | id !in s.tasks
      ensures !s.table.shuttingDown && (u.tasks[id].owner.host, u.tasks[id].owner.session) !in s.table.disconnecting
    {
      var job :| job in batch && job.0 == id;
    }
  }

  lemma SubmitLater(s: System, batch: seq<(JobId, Owner)>)
    requires Inv(s) && Enabled(s, Submit(batch))
    ensures SystemLater(s, Apply(s, Submit(batch)))
  {
    SubmitRespectsSeals(s, batch);
    EnqueueAllOrNothing(s.table, batch);
    SpawnAddsBatch(s.tasks, batch);
    var u := Apply(s, Submit(batch));
    forall id <- s.tasks ensures Later(s.tasks[id], RecordOf(s.table, id), u.tasks[id], RecordOf(u.table, id)) {
      SubmitKeepsRecord(s, batch, id);
      RestLater(s.tasks[id], RecordOf(s.table, id), id in s.table.cleanupTasks, RecordOf(u.table, id));
    }
  }

  lemma SubmitKeepsRecord(s: System, batch: seq<(JobId, Owner)>, id: JobId)
    requires Inv(s) && Enabled(s, Submit(batch)) && id in s.tasks
    ensures RecordOf(Apply(s, Submit(batch)).table, id) in {None, RecordOf(s.table, id)}
  {
    EnqueueAllOrNothing(s.table, batch);
    TrimOnlyForgets(s.table);
  }

  lemma CancelRequestLater(s: System, step: Step)
    requires Inv(s) && !step.Submit? && !step.Step?
    ensures SystemLater(s, Apply(s, step))
  {
    var u := Apply(s, step);
    forall id <- s.tasks ensures Later(s.tasks[id], RecordOf(s.table, id), u.tasks[id], RecordOf(u.table, id)) {
      RestLater(s.tasks[id], RecordOf(s.table, id), id in s.table.cleanupTasks, RecordOf(u.table, id));
    }
  }

  lemma StepLater(s: System, step: Step)
    requires Inv(s) && Enabled(s, step)
    ensures SystemLater(s, Apply(s, step))
  {
    match step
    case Submit(batch) => SubmitLater(s, batch);
    case Step(id, m) => MoveLater(s, id, m);
    case _ => CancelRequestLater(s, step);
  }

  // ----- Runs -----

  ghost predicate IsRun(states: seq<System>, steps: seq<Step>) {
    && |states| == |steps| + 1
    && states[0] == INITIAL
    && forall i | 0 <= i < |steps| :: Becomes(states[i], steps[i], states[i + 1])
  }

  ghost predicate Becomes(s: System, step: Step, u: System) {
    Enabled(s, step) && u == Apply(s, step)
  }

  lemma BecomesLater(s: System, step: Step, u: System)
    requires Inv(s) && Becomes(s, step, u)
    ensures Inv(u) && SystemLater(s, u)
  {
    StepKeepsInv(s, step);
    StepLater(s, step);
  }

  lemma {:induction false} RunKeepsInv(states: seq<System>, steps: seq<Step>, i: nat)
    requires IsRun(states, steps) && i < |states|
    ensures Inv(states[i])
  {
    if i == 0 {
      InitialInv();
    } else {
      RunKeepsInv(states, steps, i - 1);
      BecomesLater(states[i - 1], steps[i - 1], states[i]);
    }
  }

  lemma {:induction false} RunGoesForward(states: seq<System>, steps: seq<Step>, i: nat, j: nat)
    requires IsRun(states, steps) && i <= j < |states|
    ensures SystemLater(states[i], states[j])
    decreases j - i
  {
    if i == j {
      RunKeepsInv(states, steps, i);
      SystemLaterIsReflexive(states[i]);
    } else {
      RunKeepsInv(states, steps, j - 1);
      BecomesLater(states[j - 1], steps[j - 1], states[j]);
      RunGoesForward(states, steps, i, j - 1);
      SystemLaterIsTransitive(states[i], states[j - 1], states[j]);
    }
  }

  // ----- The theorems about runs -----

  ghost predicate Belongs(task: Task, session: Session) {
    (task.owner.host, task.owner.session) == session
  }

  function HistoryOf(s: System, id: JobId): seq<Action> {
    if id in s.tasks then s.tasks[id].history else []
  }

  /** One job at two points of a run. */
  lemma RunLater(states: seq<System>, steps: seq<Step>, i: nat, j: nat, id: JobId)
    requires IsRun(states, steps) && i <= j < |states| && id in states[i].tasks
    ensures id in states[j].tasks
    ensures Later(states[i].tasks[id], RecordOf(states[i].table, id),
                  states[j].tasks[id], RecordOf(states[j].table, id))
    ensures TaskInv(states[i].tasks[id], RecordOf(states[i].table, id), id in states[i].table.cleanupTasks)
    ensures TaskInv(states[j].tasks[id], RecordOf(states[j].table, id), id in states[j].table.cleanupTasks)
  {
    RunKeepsInv(states, steps, i);
    RunKeepsInv(states, steps, j);
    RunGoesForward(states, steps, i, j);
  }

  lemma RunKnowsJob(states: seq<System>, steps: seq<Step>, i: nat, id: JobId)
    requires IsRun(states, steps) && i < |states| && id in states[i].table.jobs
    ensures id in states[i].tasks
  {
    RunKeepsInv(states, steps, i);
  }

  /** Once a job has a terminal state, it keeps that very record until the history forgets it. */
  lemma TerminalIsAbsorbing(states: seq<System>, steps: seq<Step>, i: nat, j: nat, id: JobId)
    requires IsRun(states, steps) && i <= j < |states|
    requires id in states[i].table.jobs && Terminal(states[i].table.jobs[id].state)
    ensures RecordOf(states[j].table, id) in {None, RecordOf(states[i].table, id)}
    ensures HistoryOf(states[j], id) == HistoryOf(states[i], id)
  {
    RunKnowsJob(states, steps, i, id);
    RunLater(states, steps, i, j, id);
  }

  /**
   Once a cancel, disconnect or shutdown request was accepted for a job, the job has sent no commit and
   never sends one, although later steps may show it as Preparing or Transferring again.
   */
  lemma AcceptedCancelPreventsCommit(states: seq<System>, steps: seq<Step>, i: nat, j: nat, id: JobId)
    requires IsRun(states, steps) && i <= j < |states|
    requires id in states[i].table.jobs && states[i].table.jobs[id].token
    ensures Commits(HistoryOf(states[j], id)) == []
  {
    RunKnowsJob(states, steps, i, id);
    RunLater(states, steps, i, j, id);
  }

  /** The call asks this job to stop. */
  predicate Asks(step: Step, id: JobId, r: JobRecord) {
    match step
    case CancelOne(o, owner) => o == id && owner == r.owner
    case DisconnectOne(session) => session == SessionOf(r)
    case ShutDown => true
    case _ => false
  }

  /**
   A cancel, disconnect or shutdown that reaches a job is accepted exactly if the job is queued,
   preparing or transferring; then the job never sends a commit. In no other case does it change the job.
   */
  lemma RequestStopsJob(states: seq<System>, steps: seq<Step>, i: nat, j: nat, id: JobId)
    requires IsRun(states, steps) && i < j < |states| && id in states[i].table.jobs
    requires steps[i].CancelOne? || steps[i].DisconnectOne? || steps[i].ShutDown?
    ensures id in states[i + 1].table.jobs
    ensures var r, u := states[i].table.jobs[id], states[i + 1].table.jobs[id];
      && (u != r <==> Asks(steps[i], id, r) && (r.state.Queued? || r.state.Preparing? || r.state.Transferring?))
      && (u != r ==> u.state.CancelRequested? && u.token && Commits(HistoryOf(states[j], id)) == [])
  {
    hide Commits, Inv;
    RunKeepsInv(states, steps, i);
    assert Becomes(states[i], steps[i], states[i + 1]);
    if states[i + 1].table.jobs[id].token { AcceptedCancelPreventsCommit(states, steps, i + 1, j, id); }
  }

  /** Once a job is finalizing, no cancel request changes it any more. */
  lemma FinalizingIsNotCancelled(states: seq<System>, steps: seq<Step>, i: nat, j: nat, id: JobId)
    requires IsRun(states, steps) && i <= j < |states|
    requires id in states[i].table.jobs && states[i].table.jobs[id].state.Finalizing?
    ensures id in states[j].table.jobs ==>
              !states[j].table.jobs[id].token && !states[j].table.jobs[id].state.CancelRequested?
  {
    RunKnowsJob(states, steps, i, id);
    RunLater(states, steps, i, j, id);
  }

  /** The outcome shown for a job whose task was not dropped is honest about what it sent. */
  lemma ShownOutcomeIsHonest(states: seq<System>, steps: seq<Step>, i: nat, id: JobId)
    requires IsRun(states, steps) && i < |states|
    requires id in states[i].table.jobs && Terminal(states[i].table.jobs[id].state)
    requires id in states[i].tasks && states[i].tasks[id].pc != Gone(Aborted)
    ensures var outcome, h := states[i].table.jobs[id].state, HistoryOf(states[i], id);
      && (outcome.Failed? || outcome.Cancelled? ==> AllRefused(Commits(h)))
      && (outcome.Completed? ==>
            || (Skip in h && Commits(h) == [])
            || (|Commits(h)| == 1 && IsCommit(Commits(h)[0]) && Commits(h)[0].reply.Confirmed?))
      && (forall c <- Commits(h) :: IsCommit(c) && (c.reply.Lost? ==> outcome.OutcomeUnknown?))
      && Removals(h) <= 1 && (Removals(h) == 1 ==> Create(Confirmed) in h)
  {
    RunLater(states, steps, i, i, id);
    var task := states[i].tasks[id];
    if task.pc.exit.Ended? { EndingIsHonest(task.history, task.pc.exit.outcome); }
  }

  ghost predicate SealedAndQuiet(s: System, session: Session) {
    session in s.table.disconnecting && Quiet(s.table, session)
  }

  /**
   A successful `quiesce_session` is a stable seal: from then on the session stays quiet, no job is
   admitted for it, and no job of it sends another request.
   */
  lemma QuiesceSeals(states: seq<System>, steps: seq<Step>, i: nat, j: nat, session: Session)
    requires IsRun(states, steps) && i <= j < |states|
    requires SealedAndQuiet(states[i], session)
    ensures SealedAndQuiet(states[j], session)
    ensures forall id <- states[j].tasks :: Belongs(states[j].tasks[id], session) ==>
              id in states[i].tasks && HistoryOf(states[j], id) == HistoryOf(states[i], id)
  {
    var s, u := states[i], states[j];
    RunKeepsInv(states, steps, j);
    RunGoesForward(states, steps, i, j);
    forall id <- u.tasks | Belongs(u.tasks[id], session)
      ensures id in s.tasks && HistoryOf(u, id) == HistoryOf(s, id)
      ensures id in u.table.jobs ==> u.table.jobs[id] == s.table.jobs[id]
    {
      RunLater(states, steps, i, j, id);
    }
  }

  /** A staging removal that failed is never forgotten: the session is not quiet again. */
  lemma FailedRemovalIsRemembered(states: seq<System>, steps: seq<Step>, i: nat, j: nat, id: JobId)
    requires IsRun(states, steps) && i <= j < |states|
    requires id in states[i].tasks && states[i].tasks[id].staging.Unconfirmed?
    ensures id in states[j].table.jobs && id in states[j].tasks
    ensures !Quiet(states[j].table, (states[j].tasks[id].owner.host, states[j].tasks[id].owner.session))
  {
    RunLater(states, steps, i, j, id);
  }

  // ----- What quiescence says about staging files -----

  ghost predicate IsOrphan(s: System, id: JobId) {
    id in s.tasks && s.tasks[id].staging.Orphaned?
  }

  /** A task that holds a staging file is dropped where no runtime can run its cleanup. */
  ghost predicate OrphaningDrop(s: System, step: Step, id: JobId) {
    && step.Step? && step.id == id && step.move.Drop? && !step.move.inRuntime
    && id in s.tasks && HoldsGuard(s.tasks[id].pc)
  }

  lemma StepOrphans(s: System, step: Step, u: System, id: JobId)
    requires Inv(s) && Becomes(s, step, u)
    ensures IsOrphan(u, id) <==> IsOrphan(s, id) || OrphaningDrop(s, step, id)
  {
    hide HistoryInv, RecordInv, CommitInv, TableAfter, WellFormed;
    if step.Submit? {
      SpawnAddsBatch(s.tasks, step.batch);
    } else if step.Step? {
      MoverIsKnown(s, step.id, step.move);
    }
  }

  lemma {:induction false} OrphansCome(states: seq<System>, steps: seq<Step>, n: nat, id: JobId)
    requires IsRun(states, steps) && n < |states|
    ensures IsOrphan(states[n], id) <==> exists k :: 0 <= k < n && OrphaningDrop(states[k], steps[k], id)
  {
    hide Inv, Becomes;
    if n > 0 {
      OrphansCome(states, steps, n - 1, id);
      RunKeepsInv(states, steps, n - 1);
      StepOrphans(states[n - 1], steps[n - 1], states[n], id);
    }
  }

  // ----- Creations whose reply was lost -----

  ghost predicate IsDoubtful(s: System, id: JobId) {
    id in s.tasks && s.tasks[id].staging.Doubtful?
  }

  /** A creation is sent and its reply never arrives, or its sender is dropped before it does. */
  ghost predicate DoubtfulCreation(s: System, step: Step, id: JobId) {
    && step.Step? && step.id == id && id in s.tasks
    && (step.move == Act(Create(Lost)) || (step.move.Drop? && step.move.sent.Some? && step.move.sent.value.Create?))
  }

  lemma StepDoubts(s: System, step: Step, u: System, id: JobId)
    requires Inv(s) && Becomes(s, step, u)
    ensures IsDoubtful(u, id) <==> IsDoubtful(s, id) || DoubtfulCreation(s, step, id)
  {
    if step.Submit? {
      SpawnAddsBatch(s.tasks, step.batch);
    } else if step.Step? {
      MoverIsKnown(s, step.id, step.move);
      MoverDoubts(s.table, step.id, s.tasks[step.id], step.move);
    }
  }

  lemma MoverDoubts(t: Table, id: JobId, task: Task, m: Move)
    requires id in t.jobs && CanMove(t, id, task, m)
    requires TaskInv(task, Some(t.jobs[id]), id in t.cleanupTasks)
    ensures TaskAfter(t, id, task, m).staging.Doubtful? <==>
      || task.staging.Doubtful? || m == Act(Create(Lost))
      || (m.Drop? && m.sent.Some? && m.sent.value.Create?)
  {
    hide Replay, Commits;
  }

  lemma {:induction false} DoubtsCome(states: seq<System>, steps: seq<Step>, n: nat, id: JobId)
    requires IsRun(states, steps) && n < |states|
    ensures IsDoubtful(states[n], id) <==> exists k :: 0 <= k < n && DoubtfulCreation(states[k], steps[k], id)
  {
    hide Inv, Becomes;
    if n > 0 {
      DoubtsCome(states, steps, n - 1, id);
      RunKeepsInv(states, steps, n - 1);
      StepDoubts(states[n - 1], steps[n - 1], states[n], id);
    }
  }

  // ----- What quiescence says about all of them -----

  lemma QuietStaging(s: System, id: JobId, session: Session)
    requires Inv(s) && Quiet(s.table, session) && id in s.tasks && Belongs(s.tasks[id], session)
    ensures var staging := s.tasks[id].staging;
      staging.Free? || staging.Clean? || staging.Doubtful? || staging.Orphaned?
  {
  }

  /** Every staging file that the session created or may have created is known to be gone. */
  ghost predicate StagingGone(s: System, session: Session) {
    forall id <- s.tasks :: Belongs(s.tasks[id], session) ==> s.tasks[id].staging.Free? || s.tasks[id].staging.Clean?
  }

  ghost predicate NeverOrphaned(states: seq<System>, steps: seq<Step>, n: nat, session: Session)
    requires n <= |steps| <= |states|
  {
    forall k, id | 0 <= k < n && OrphaningDrop(states[k], steps[k], id) :: !Belongs(states[k].tasks[id], session)
  }

  ghost predicate CreationsAnswered(states: seq<System>, steps: seq<Step>, n: nat, session: Session)
    requires n <= |steps| <= |states|
  {
    forall k, id | 0 <= k < n && DoubtfulCreation(states[k], steps[k], id) :: !Belongs(states[k].tasks[id], session)
  }

  /** The cause of whatever is left lies in the session's own past, and every such cause leaves something. */
  lemma LeftoversHaveCauses(states: seq<System>, steps: seq<Step>, n: nat, session: Session, id: JobId)
    requires IsRun(states, steps) && n < |states| && id in states[n].tasks && Belongs(states[n].tasks[id], session)
    requires IsOrphan(states[n], id) || IsDoubtful(states[n], id)
    ensures !(NeverOrphaned(states, steps, n, session) && CreationsAnswered(states, steps, n, session))
  {
    hide Inv, Becomes, TaskInv;
    OrphansCome(states, steps, n, id);
    DoubtsCome(states, steps, n, id);
    var k :| 0 <= k < n && (OrphaningDrop(states[k], steps[k], id) || DoubtfulCreation(states[k], steps[k], id));
    RunLater(states, steps, k, n, id);
  }

  lemma CausesLeaveSomething(states: seq<System>, steps: seq<Step>, n: nat, k: nat, id: JobId)
    requires IsRun(states, steps) && k < n < |states|
    requires OrphaningDrop(states[k], steps[k], id) || DoubtfulCreation(states[k], steps[k], id)
    ensures id in states[n].tasks && states[n].tasks[id].owner == states[k].tasks[id].owner
    ensures IsOrphan(states[n], id) || IsDoubtful(states[n], id)
  {
    hide Inv, Becomes, TaskInv;
    OrphansCome(states, steps, n, id);
    DoubtsCome(states, steps, n, id);
    RunLater(states, steps, k, n, id);
  }

  /**
   When a session is quiet, every staging file it created or may have created is known to be gone,
   exactly when no task of it was dropped outside a runtime while it held one, and no creation of it
   went without a reply.
   */
  lemma QuietMeansCleanExactly(states: seq<System>, steps: seq<Step>, n: nat, session: Session)
    requires IsRun(states, steps) && n < |states|
    requires Quiet(states[n].table, session)
    ensures StagingGone(states[n], session) <==>
      NeverOrphaned(states, steps, n, session) && CreationsAnswered(states, steps, n, session)
  {
    hide Becomes, TaskInv;
    RunKeepsInv(states, steps, n);
    if StagingGone(states[n], session) {
      forall k, id | 0 <= k < n && (OrphaningDrop(states[k], steps[k], id) || DoubtfulCreation(states[k], steps[k], id))
        ensures !Belongs(states[k].tasks[id], session)
      {
        CausesLeaveSomething(states, steps, n, k, id);
      }
    } else {
      var id :| id in states[n].tasks && Belongs(states[n].tasks[id], session)
                && !states[n].tasks[id].staging.Free? && !states[n].tasks[id].staging.Clean?;
      QuietStaging(states[n], id, session);
      LeftoversHaveCauses(states, steps, n, session, id);
    }
  }

  // A job on one record, for the run below.
  function Solo(pc: Pc, staging: Staging, history: seq<Action>, state: TransferState,
                listed: bool, sealed: bool): System {
    System(Table(map[0 := JobRecord(Owner(0, 0, 0), state, false, !Terminal(state), false)], [0],
                 if sealed then {(0, 0)} else {}, if listed then {0} else {}, false),
           map[0 := Task(Owner(0, 0, 0), pc, NoCleaner, staging, history)])
  }

  lemma SoloNeedsNoTrim(t: Table)
    requires |t.jobs.Keys| <= 1
    ensures Trim(t) == t
  {
    SubsetSize(TerminalIds(t.jobs), t.jobs.Keys);
  }

  lemma SoloSubmitted()
    ensures Becomes(INITIAL, Submit([(0, Owner(0, 0, 0))]), Solo(AwaitHost, Free, [], Queued, false, false))
  {
    SoloNeedsNoTrim(INITIAL.table);
    assert ActiveIds(INITIAL.table.jobs) == {};
    var batch := [(0, Owner(0, 0, 0))];
    assert batch[..0] == [];
    assert AddAll(INITIAL.table, batch) == Solo(AwaitHost, Free, [], Queued, false, false).table;
  }

  lemma SoloGetsPermits()
    ensures Becomes(Solo(AwaitHost, Free, [], Queued, false, false), Step(0, Advance),
                    Solo(AwaitGlobal, Free, [], Queued, false, false))
    ensures Becomes(Solo(AwaitGlobal, Free, [], Queued, false, false), Step(0, Advance),
                    Solo(Admitted, Free, [], Queued, false, false))
  {
  }

  lemma SoloAdvances()
    ensures Becomes(Solo(Admitted, Free, [], Queued, false, false), Step(0, Advance),
                    Solo(AwaitDestination, Free, [], Preparing, false, false))
    ensures Becomes(Solo(AwaitDestination, Free, [], Preparing, false, false), Step(0, Advance),
                    Solo(Running(Idle), Free, [], Preparing, false, false))
  {
  }

  lemma SoloTransfers()
    ensures Becomes(Solo(Running(Idle), Free, [], Preparing, false, false), Step(0, Act(SetTransferring)),
                    Solo(Running(Streaming), Free, [SetTransferring], Transferring, false, false))
  {
    assert [] + [SetTransferring] == [SetTransferring];
  }

  lemma SoloCreates()
    ensures Becomes(Solo(Running(Streaming), Free, [SetTransferring], Transferring, false, false),
                    Step(0, Act(Create(Confirmed))),
                    Solo(Running(Owned), Held, [SetTransferring, Create(Confirmed)], Transferring, false, false))
  {
    assert [SetTransferring] + [Create(Confirmed)] == [SetTransferring, Create(Confirmed)];
  }

  lemma SoloDrops(h: seq<Action>)
    ensures Becomes(Solo(Running(Owned), Held, h, Transferring, false, false), Step(0, Drop(false, None)),
                    Solo(Gone(Aborted), Orphaned, h, TransferState.Failed, true, false))
  {
    var s, u := Solo(Running(Owned), Held, h, Transferring, false, false),
                Solo(Gone(Aborted), Orphaned, h, TransferState.Failed, true, false);
    SoloNeedsNoTrim(u.table);
    assert s.table.jobs[0 := WithState(s.table.jobs[0], TransferState.Failed)] == u.table.jobs;
    assert s.table.cleanupTasks + {0} == u.table.cleanupTasks;
    assert TableAfter(s.table, 0, s.tasks[0], Drop(false, None)) == u.table;
    assert Apply(s, Step(0, Drop(false, None))).tasks == u.tasks;
  }

  lemma SoloDisconnects(task: Task, state: TransferState, listed: bool)
    requires Terminal(state) && task.owner == Owner(0, 0, 0) && task.cleaner.NoCleaner?
    ensures Becomes(Solo(task.pc, task.staging, task.history, state, listed, false), DisconnectOne((0, 0)),
                    Solo(task.pc, task.staging, task.history, state, listed, true))
  {
    var s := Solo(task.pc, task.staging, task.history, state, listed, false);
    assert Disconnect(s.table, (0, 0)).jobs == s.table.jobs;
  }

  /** A run goes on along a path of steps. */
  lemma Along(states: seq<System>, steps: seq<Step>, path: seq<System>, more: seq<Step>)
    requires IsRun(states, steps) && |path| == |more| + 1 && path[0] == states[|states| - 1]
    requires forall i :: 0 <= i < |more| ==> Becomes(path[i], more[i], path[i + 1])
    ensures IsRun(states + path[1..], steps + more)
  {
    hide Becomes;
    var all, done := states + path[1..], steps + more;
    forall i | 0 <= i < |done|
      ensures Becomes(all[i], done[i], all[i + 1])
    {
      if i >= |steps| {
        var k := i - |steps|;
        assert all[i] == path[k] && all[i + 1] == path[k + 1] && done[i] == more[k];
        assert Becomes(path[k], more[k], path[k + 1]);
      }
    }
  }

  lemma RunToIdle() returns (states: seq<System>, steps: seq<Step>)
    ensures IsRun(states, steps)
    ensures states[|states| - 1] == Solo(Running(Idle), Free, [], Preparing, false, false)
  {
    hide Becomes;
    SoloSubmitted();
    SoloGetsPermits();
    SoloAdvances();
    var path := [INITIAL, Solo(AwaitHost, Free, [], Queued, false, false),
                 Solo(AwaitGlobal, Free, [], Queued, false, false), Solo(Admitted, Free, [], Queued, false, false),
                 Solo(AwaitDestination, Free, [], Preparing, false, false),
                 Solo(Running(Idle), Free, [], Preparing, false, false)];
    var more := [Submit([(0, Owner(0, 0, 0))]), Step(0, Advance), Step(0, Advance), Step(0, Advance), Step(0, Advance)];
    Along([INITIAL], [], path, more);
    states, steps := [INITIAL] + path[1..], [] + more;
  }

  /** A session can be reported quiet although a dropped task's staging file is still on the server. */
  lemma QuietWithOrphan() returns (states: seq<System>, steps: seq<Step>)
    ensures IsRun(states, steps)
    ensures SealedAndQuiet(states[|states| - 1], (0, 0)) && IsOrphan(states[|states| - 1], 0)
  {
    hide Becomes;
    states, steps := RunToIdle();
    var h := [SetTransferring, Create(Confirmed)];
    var more := [Step(0, Act(SetTransferring)), Step(0, Act(Create(Confirmed))), Step(0, Drop(false, None)),
                 DisconnectOne((0, 0))];
    var path := [Solo(Running(Idle), Free, [], Preparing, false, false),
                 Solo(Running(Streaming), Free, [SetTransferring], Transferring, false, false),
                 Solo(Running(Owned), Held, h, Transferring, false, false),
                 Solo(Gone(Aborted), Orphaned, h, TransferState.Failed, true, false),
                 Solo(Gone(Aborted), Orphaned, h, TransferState.Failed, true, true)];
    SoloTransfers();
    SoloCreates();
    SoloDrops(h);
    SoloDisconnects(path[3].tasks[0], TransferState.Failed, true);
    Along(states, steps, path, more);
    states, steps := states + path[1..], steps + more;
  }

  lemma SoloLosesReply()
    ensures Becomes(Solo(Running(Streaming), Free, [SetTransferring], Transferring, false, false),
                    Step(0, Act(Create(Lost))),
                    Solo(Running(Closed(true)), Doubtful, [SetTransferring, Create(Lost)], Transferring, false, false))
  {
    assert [SetTransferring] + [Create(Lost)] == [SetTransferring, Create(Lost)];
  }

  lemma SoloEndsUnknown(h: seq<Action>)
    ensures Becomes(Solo(Running(Closed(true)), Doubtful, h, Transferring, false, false),
                    Step(0, End(TransferState.OutcomeUnknown)),
                    Solo(Finishing(Closed(true), TransferState.OutcomeUnknown), Doubtful, h,
                         Transferring, false, false))
  {
  }

  lemma SoloReportsUnknown(h: seq<Action>)
    ensures Becomes(Solo(Finishing(Closed(true), TransferState.OutcomeUnknown), Doubtful, h,
                         Transferring, false, false),
                    Step(0, Report),
                    Solo(Gone(Ended(Closed(true), TransferState.OutcomeUnknown)), Doubtful, h,
                         TransferState.OutcomeUnknown, false, false))
  {
    hide Trim;
    var unknown := TransferState.OutcomeUnknown;
    var s, u := Solo(Finishing(Closed(true), unknown), Doubtful, h, Transferring, false, false),
                Solo(Gone(Ended(Closed(true), unknown)), Doubtful, h, unknown, false, false);
    SoloNeedsNoTrim(u.table);
    assert s.table.jobs[0 := WithState(s.table.jobs[0], unknown)] == u.table.jobs;
    assert TableAfter(s.table, 0, s.tasks[0], Report) == u.table;
    assert Apply(s, Step(0, Report)).tasks == u.tasks;
  }

  lemma WithoutOrphansNeverOrphaned(states: seq<System>, steps: seq<Step>, n: nat, session: Session)
    requires IsRun(states, steps) && n < |states| && forall id :: !IsOrphan(states[n], id)
    ensures NeverOrphaned(states, steps, n, session)
  {
    if !NeverOrphaned(states, steps, n, session) {
      var k, id :| 0 <= k < n && OrphaningDrop(states[k], steps[k], id);
      OrphansCome(states, steps, n, id);
    }
  }

  /** So it can after a creation whose reply was lost: the job is over, and the file may be there. */
  lemma QuietWithDoubt() returns (states: seq<System>, steps: seq<Step>)
    ensures IsRun(states, steps)
    ensures SealedAndQuiet(states[|states| - 1], (0, 0)) && IsDoubtful(states[|states| - 1], 0)
    ensures NeverOrphaned(states, steps, |steps|, (0, 0))
  {
    hide Becomes;
    states, steps := RunToIdle();
    var h, unknown := [SetTransferring, Create(Lost)], TransferState.OutcomeUnknown;
    var more := [Step(0, Act(SetTransferring)), Step(0, Act(Create(Lost))), Step(0, End(unknown)), Step(0, Report),
                 DisconnectOne((0, 0))];
    var path := [Solo(Running(Idle), Free, [], Preparing, false, false),
                 Solo(Running(Streaming), Free, [SetTransferring], Transferring, false, false),
                 Solo(Running(Closed(true)), Doubtful, h, Transferring, false, false),
                 Solo(Finishing(Closed(true), unknown), Doubtful, h, Transferring, false, false),
                 Solo(Gone(Ended(Closed(true), unknown)), Doubtful, h, unknown, false, false),
                 Solo(Gone(Ended(Closed(true), unknown)), Doubtful, h, unknown, false, true)];
    SoloTransfers();
    SoloLosesReply();
    SoloEndsUnknown(h);
    SoloReportsUnknown(h);
    SoloDisconnects(path[4].tasks[0], unknown, false);
    Along(states, steps, path, more);
    states, steps := states + path[1..], steps + more;
    WithoutOrphansNeverOrphaned(states, steps, |steps|, (0, 0));
  }
}
