/**
 What the job table shows of unfinished jobs and keeps of finished ones, in runs of the transfer manager: the
 state shown says how far the task is, and the history is cut back to its limit whenever a job ends.
 */
module TransferHistory {
  import opened Common
  import opened TaskProtocol
  import opened JobTable
  import opened TransferRuns

  // ----- States shown -----

  /** The state shown for a job whose task is at `pc`; a cancel request shows instead until the next change. */
  function Expected(pc: Pc): Option<TransferState> {
    match pc
    case AwaitHost | AwaitGlobal | Admitted => Some(Queued)
    case AwaitDestination | Running(Idle) | Running(Skipped) => Some(Preparing)
    case Running(Streaming) | Running(Owned) | Running(Closed(_)) => Some(Transferring)
    case Running(Final(_)) | Running(Linked) | Running(Committed) | Running(CommitFailed(_, _)) =>
      Some(TransferState.Finalizing)
    case _ => None
  }

  ghost predicate Shows(task: Task, r: JobRecord) {
    Expected(task.pc).Some? ==>
      r.state == Expected(task.pc).value || (r.state.CancelRequested? && !Expected(task.pc).value.Finalizing?)
  }

  ghost predicate AllShow(s: System) {
    forall id <- s.table.jobs :: id in s.tasks ==> Shows(s.tasks[id], s.table.jobs[id])
  }

  lemma MoveShows(t: Table, id: JobId, task: Task, m: Move)
    requires id in t.jobs && CanMove(t, id, task, m) && Shows(task, t.jobs[id])
    requires TaskInv(task, Some(t.jobs[id]), id in t.cleanupTasks)
    ensures Shows(TaskAfter(t, id, task, m), RecordAfter(task, t.jobs[id], m))
  {
    hide HistoryInv, CommitInv;
    match m {
      case Act(_) =>
      case Advance =>
      case _ =>
    }
  }

  lemma StepShows(s: System, step: Step)
    requires Inv(s) && Enabled(s, step) && AllShow(s)
    ensures AllShow(Apply(s, step))
  {
    hide Inv, AllShow;
    match step {
      case Submit(batch) => SubmitShows(s, batch);
      case Step(id, m) => MoverShows(s, id, m);
      case _ => RequestShows(s, step);
    }
  }

  lemma RequestShows(s: System, step: Step)
    requires AllShow(s) && (step.CancelOne? || step.DisconnectOne? || step.ShutDown?)
    ensures AllShow(Apply(s, step))
  {
  }

  lemma SubmitShows(s: System, batch: seq<(JobId, Owner)>)
    requires Inv(s) && Enabled(s, Submit(batch)) && AllShow(s)
    ensures AllShow(Apply(s, Submit(batch)))
  {
    hide Inv, Apply, Shows, Enabled;
    var u := Apply(s, Submit(batch));
    forall id <- u.table.jobs | id in u.tasks
      ensures Shows(u.tasks[id], u.table.jobs[id])
    {
      SubmittedIsQueued(s, batch, id);
      if id !in s.tasks { QueuedShows(u.table.jobs[id].owner); }
    }
  }

  lemma QueuedShows(owner: Owner)
    ensures Shows(NewTask(owner), NewRecord(owner))
  {
  }

  lemma SubmittedIsQueued(s: System, batch: seq<(JobId, Owner)>, id: JobId)
    requires Inv(s) && Enabled(s, Submit(batch)) && id in Apply(s, Submit(batch)).table.jobs
    ensures var u := Apply(s, Submit(batch));
      && id in u.tasks
      && (if id in s.tasks then id in s.table.jobs && u.tasks[id] == s.tasks[id] && u.table.jobs[id] == s.table.jobs[id]
          else var owner := u.table.jobs[id].owner;
               u.tasks[id] == NewTask(owner) && u.table.jobs[id] == NewRecord(owner))
  {
    hide TaskInv, Spawn, Trim, AddAll;
    EnqueueAllOrNothing(s.table, batch);
    SpawnAddsBatch(s.tasks, batch);
    TrimOnlyForgets(s.table);
    if id !in s.table.jobs {
      var job :| job in batch && job.0 == id;
    }
  }

  lemma MoverShows(s: System, id: JobId, m: Move)
    requires Inv(s) && Enabled(s, Step(id, m)) && AllShow(s)
    ensures AllShow(Apply(s, Step(id, m)))
  {
    hide TaskInv, RecordAfter, ListedAfter, TableAfter, Shows;
    MoverIsKnown(s, id, m);
    var t, task := s.table, s.tasks[id];
    var r, listed := RecordAfter(task, t.jobs[id], m), ListedAfter(task, id in t.cleanupTasks, m);
    MoveShows(t, id, task, m);
    MoveKeepsTaskInv(t, id, task, m);
    MoveDiffers(t, id, task, m, r, listed);
  }

  /** In every run the state shown for a job is the one that belongs to where its task is, or a cancel request. */
  lemma {:induction false} ShownStateFollows(states: seq<System>, steps: seq<Step>, n: nat)
    requires IsRun(states, steps) && n < |states|
    ensures AllShow(states[n])
  {
    hide Inv, Apply, Enabled;
    if n > 0 {
      ShownStateFollows(states, steps, n - 1);
      RunKeepsInv(states, steps, n - 1);
      assert Becomes(states[n - 1], steps[n - 1], states[n - 1 + 1]);
      StepShows(states[n - 1], steps[n - 1]);
    }
  }

  // ----- The history -----

  /** The history is within its limit, or nothing in it may be forgotten. */
  ghost predicate Tidy(t: Table) {
    |TerminalIds(t.jobs)| <= HISTORY_CAP || forall id <- t.jobs :: !Eligible(t, id)
  }

  /** The move ends the job. */
  predicate Finishes(task: Task, m: Move) {
    m.GiveUp? || m.Report? || m.CleanerReport? || (m.Drop? && !m.inRuntime && HoldsGuard(task.pc))
  }

  predicate EndsJob(s: System, step: Step) {
    step.Step? && step.id in s.tasks && Finishes(s.tasks[step.id], step.move)
  }

  lemma TrimTidies(t: Table)
    requires WellFormed(t)
    ensures Tidy(Trim(t))
  {
    hide Trim;
    TrimRemovesOldest(t);
  }

  lemma FinishingTrims(t: Table, id: JobId, task: Task, m: Move)
    requires id in t.jobs && CanMove(t, id, task, m) && Finishes(task, m)
    ensures TableAfter(t, id, task, m) ==
      Trim(Put(t, id, RecordAfter(task, t.jobs[id], m), ListedAfter(task, id in t.cleanupTasks, m)))
  {
    hide Trim;
    assert id in t.cleanupTasks ==> t.cleanupTasks + {id} == t.cleanupTasks;
    assert id !in t.cleanupTasks ==> t.cleanupTasks - {id} == t.cleanupTasks;
  }

  lemma FinishedIsTidy(s: System, id: JobId, m: Move)
    requires Inv(s) && Enabled(s, Step(id, m)) && Finishes(s.tasks[id], m)
    ensures Tidy(Apply(s, Step(id, m)).table)
  {
    hide TaskInv, RecordAfter, ListedAfter, TableAfter, Tidy, Trim;
    MoverIsKnown(s, id, m);
    var t, task := s.table, s.tasks[id];
    var r, listed := RecordAfter(task, t.jobs[id], m), ListedAfter(task, id in t.cleanupTasks, m);
    MoveKeepsTaskInv(t, id, task, m);
    FinishingTrims(t, id, task, m);
    PutKeepsWellFormed(t, id, r, listed);
    TrimTidies(Put(t, id, r, listed));
  }

  /** A change that ends no job and makes none forgettable. */
  lemma NothingToForget(t: Table, u: Table)
    requires Tidy(t) && TerminalIds(u.jobs) == TerminalIds(t.jobs)
    requires forall id <- u.jobs :: Eligible(u, id) ==> Eligible(t, id)
    ensures Tidy(u)
  {
  }

  lemma OtherMoves(t: Table, id: JobId, task: Task, m: Move)
    requires id in t.jobs && CanMove(t, id, task, m) && !Finishes(task, m) && !m.CleanerClose?
    requires TaskInv(task, Some(t.jobs[id]), id in t.cleanupTasks)
    ensures var u := TableAfter(t, id, task, m);
      TerminalIds(u.jobs) == TerminalIds(t.jobs) && forall o <- u.jobs :: Eligible(u, o) ==> Eligible(t, o)
  {
    hide HistoryInv, CommitInv, Trim;
    match m {
      case Act(_) =>
      case Advance =>
      case Drop(_, _) =>
      case _ =>
    }
  }

  lemma StepKeepsTidy(s: System, step: Step)
    requires Inv(s) && Enabled(s, step) && Tidy(s.table) && !(step.Step? && step.move.CleanerClose?)
    ensures Tidy(Apply(s, step).table)
  {
    hide TaskInv, Trim, Tidy;
    match step {
      case Submit(batch) => SubmitKeepsTidy(s, batch);
      case Step(id, m) =>
        MoverIsKnown(s, id, m);
        if Finishes(s.tasks[id], m) {
          FinishedIsTidy(s, id, m);
        } else {
          OtherMoves(s.table, id, s.tasks[id], m);
          NothingToForget(s.table, Apply(s, step).table);
        }
      case _ => RequestKeepsTidy(s, step);
    }
  }

  lemma RequestKeepsTidy(s: System, step: Step)
    requires Tidy(s.table) && (step.CancelOne? || step.DisconnectOne? || step.ShutDown?)
    ensures Tidy(Apply(s, step).table)
  {
    var u := Apply(s, step).table;
    assert TerminalIds(u.jobs) == TerminalIds(s.table.jobs);
    NothingToForget(s.table, u);
  }

  lemma SubmitKeepsTidy(s: System, batch: seq<(JobId, Owner)>)
    requires Inv(s) && Enabled(s, Submit(batch)) && Tidy(s.table)
    ensures Tidy(Apply(s, Submit(batch)).table)
  {
    hide TaskInv, Spawn, Trim, Tidy;
    EnqueueAllOrNothing(s.table, batch);
    TrimTidies(s.table);
    var (u, r) := Enqueue(s.table, batch);
    if r.Ok? && batch != [] {
      NothingToForget(Trim(s.table), u);
    }
  }

  /** A cleanup task has ended since the last job did. */
  ghost predicate ClosedSince(states: seq<System>, steps: seq<Step>, n: nat)
    requires n <= |steps| && n <= |states|
  {
    exists i :: 0 <= i < n && steps[i].Step? && steps[i].move.CleanerClose? && NoneFinishes(states, steps, i, n)
  }

  ghost predicate NoneFinishes(states: seq<System>, steps: seq<Step>, i: nat, n: nat)
    requires i <= n <= |steps| && n <= |states|
  {
    forall k :: i <= k < n ==> !EndsJob(states[k], steps[k])
  }

  /**
   In every run, whenever a job ends the history is cut back to its limit, or to jobs whose cleanup is pending or
   unconfirmed. It can be longer at other times only because such a cleanup came to its end since.
   */
  lemma {:induction false} HistoryIsBounded(states: seq<System>, steps: seq<Step>, n: nat)
    requires IsRun(states, steps) && n < |states|
    ensures n > 0 && EndsJob(states[n - 1], steps[n - 1]) ==> Tidy(states[n].table)
    ensures !Tidy(states[n].table) ==> ClosedSince(states, steps, n)
  {
    hide Inv, Apply, Finishes, Tidy;
    if n == 0 {
      NothingIsTidy();
    } else {
      var s, step := states[n - 1], steps[n - 1];
      HistoryIsBounded(states, steps, n - 1);
      RunKeepsInv(states, steps, n - 1);
      assert Becomes(s, step, states[n - 1 + 1]);
      if EndsJob(s, step) {
        FinishedIsTidy(s, step.id, step.move);
      } else if step.Step? && step.move.CleanerClose? {
        CloseEndsNothing(s, step);
        assert NoneFinishes(states, steps, n - 1, n);
      } else if Tidy(s.table) {
        StepKeepsTidy(s, step);
      } else {
        var i :| 0 <= i < n - 1 && steps[i].Step? && steps[i].move.CleanerClose?
                 && NoneFinishes(states, steps, i, n - 1);
        assert NoneFinishes(states, steps, i, n);
      }
    }
  }

  lemma CloseEndsNothing(s: System, step: Step)
    requires step.Step? && step.move.CleanerClose?
    ensures !EndsJob(s, step)
  {
  }

  lemma NothingIsTidy()
    ensures Tidy(INITIAL.table)
  {
  }
}
