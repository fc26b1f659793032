/**
 What the calls of the transfer manager come to, said of the calls made before them in a run: which batches are
 admitted, which jobs are cancelled, and which may finalize.
 */
module TransferRequests {
  import opened Common
  import opened TaskProtocol
  import opened JobTable
  import opened TransferRuns

  // ----- Seals -----

  /** The step ends the admission of this session's jobs. */
  predicate Seals(step: Step, session: Session) {
    step.ShutDown? || (step.DisconnectOne? && step.session == session)
  }

  ghost predicate SealedBefore(steps: seq<Step>, n: nat, session: Session)
    requires n <= |steps|
  {
    exists i :: 0 <= i < n && Seals(steps[i], session)
  }

  predicate Closed(t: Table, session: Session) {
    t.shuttingDown || session in t.disconnecting
  }

  lemma MoveKeepsSeals(s: System, id: JobId, m: Move)
    requires Inv(s) && Enabled(s, Step(id, m))
    ensures var t := Apply(s, Step(id, m)).table;
      t.disconnecting == s.table.disconnecting && t.shuttingDown == s.table.shuttingDown
  {
    hide HistoryInv, RecordInv, CommitInv, StagingInv, Trim;
    MoverIsKnown(s, id, m);
    var t, task := s.table, s.tasks[id];
    MoveKeepsTaskInv(t, id, task, m);
    TableMoves(t, id, task, m);
    var r, listed := RecordAfter(task, t.jobs[id], m), ListedAfter(task, id in t.cleanupTasks, m);
    PutKeepsWellFormed(t, id, r, listed);
    TrimOnlyForgets(Put(t, id, r, listed));
  }

  lemma StepSeals(s: System, step: Step, session: Session)
    requires Inv(s) && Enabled(s, step)
    ensures Closed(Apply(s, step).table, session) <==> Closed(s.table, session) || Seals(step, session)
  {
    hide Inv;
    match step {
      case Submit(batch) => SubmitRespectsSeals(s, batch);
      case Step(id, m) => MoveKeepsSeals(s, id, m);
      case _ =>
    }
  }

  /** A session is closed exactly if it was disconnected, or the manager was shut down, earlier in the run. */
  lemma {:induction false} SealsCome(states: seq<System>, steps: seq<Step>, n: nat, session: Session)
    requires IsRun(states, steps) && n < |states|
    ensures Closed(states[n].table, session) <==> SealedBefore(steps, n, session)
  {
    hide Inv, Apply, Enabled, Closed, Seals;
    if n == 0 {
      NothingIsClosed(session);
    } else {
      SealsCome(states, steps, n - 1, session);
      RunKeepsInv(states, steps, n - 1);
      assert Becomes(states[n - 1], steps[n - 1], states[n - 1 + 1]);
      StepSeals(states[n - 1], steps[n - 1], session);
    }
  }

  lemma NothingIsClosed(session: Session)
    ensures !Closed(INITIAL.table, session)
  {
  }

  // ----- Admission -----

  /** One of the batch's sessions is closed. */
  ghost predicate BatchSealedBefore(steps: seq<Step>, n: nat, batch: seq<(JobId, Owner)>)
    requires n <= |steps|
  {
    exists job <- batch :: SealedBefore(steps, n, (job.1.host, job.1.session))
  }

  /**
   A batch is admitted exactly if none of its sessions was disconnected and the manager was not shut down before,
   and it fits as a whole within 100 unfinished jobs. It is refused as cancelled exactly in the first case.
   */
  lemma AdmissionExactly(states: seq<System>, steps: seq<Step>, n: nat, batch: seq<(JobId, Owner)>)
    requires IsRun(states, steps) && n < |states| && batch != [] && Enabled(states[n], Submit(batch))
    ensures var r := Enqueue(states[n].table, batch).1;
      && (r == Err(ErrorCode.Cancelled) <==> BatchSealedBefore(steps, n, batch))
      && (r.Ok? <==> !BatchSealedBefore(steps, n, batch) && |ActiveIds(states[n].table.jobs)| + |batch| <= JOB_CAP)
      && (r.Err? ==> r.code.Cancelled? || r.code.Transfer?)
  {
    hide Inv, SealedBefore, Trim, AddAll;
    RunKeepsTable(states, steps, n);
    var t := states[n].table;
    EnqueueAllOrNothing(t, batch);
    forall job <- batch
      ensures Closed(t, (job.1.host, job.1.session)) <==> SealedBefore(steps, n, (job.1.host, job.1.session))
    {
      SealsCome(states, steps, n, (job.1.host, job.1.session));
    }
    assert batch[0] in batch;
  }

  lemma RunKeepsTable(states: seq<System>, steps: seq<Step>, n: nat)
    requires IsRun(states, steps) && n < |states|
    ensures WellFormed(states[n].table)
  {
    RunKeepsInv(states, steps, n);
  }

  /** After a shutdown no job ever comes in again, and every batch is refused as cancelled. */
  lemma ShutdownIsFinal(states: seq<System>, steps: seq<Step>, i: nat, j: nat)
    requires IsRun(states, steps) && i < j < |states| && steps[i].ShutDown?
    ensures states[j].tasks.Keys == states[i].tasks.Keys
    ensures forall batch :: batch != [] && Enabled(states[j], Submit(batch)) ==>
      Enqueue(states[j].table, batch).1 == Err(ErrorCode.Cancelled)
  {
    hide Inv, Enqueue, SealedBefore;
    assert Becomes(states[i], steps[i], states[i + 1]);
    RunKeepsInv(states, steps, i);
    RunGoesForward(states, steps, i + 1, j);
    forall batch: seq<(JobId, Owner)> | batch != [] && Enabled(states[j], Submit(batch))
      ensures Enqueue(states[j].table, batch).1 == Err(ErrorCode.Cancelled)
    {
      AdmissionExactly(states, steps, j, batch);
      assert batch[0] in batch;
      SealedAt(steps, i, j, (batch[0].1.host, batch[0].1.session));
    }
  }

  /** A shutdown seals the sessions of all unfinished jobs one by one as well. */
  lemma ShutdownSealsSessions(states: seq<System>, steps: seq<Step>, i: nat, j: nat, id: JobId)
    requires IsRun(states, steps) && i < j < |states| && steps[i].ShutDown?
    requires id in states[j].table.jobs && !Terminal(states[j].table.jobs[id].state)
    ensures SessionOf(states[j].table.jobs[id]) in states[j].table.disconnecting
  {
    hide Inv, Later, HistoryLater, Commits;
    assert Becomes(states[i], steps[i], states[i + 1]);
    ShutdownIsFinal(states, steps, i, j);
    RunGoesForward(states, steps, i, j);
    RunGoesForward(states, steps, i + 1, j);
    RunKnowsOwner(states, steps, j, id);
    UnfinishedBefore(states[i], states[j], id);
    RunKnowsOwner(states, steps, i, id);
  }

  lemma RunKnowsOwner(states: seq<System>, steps: seq<Step>, n: nat, id: JobId)
    requires IsRun(states, steps) && n < |states| && id in states[n].table.jobs
    ensures id in states[n].tasks && states[n].table.jobs[id].owner == states[n].tasks[id].owner
  {
    RunKeepsInv(states, steps, n);
  }

  lemma UnfinishedBefore(s: System, u: System, id: JobId)
    requires SystemLater(s, u) && id in s.tasks && id in u.table.jobs && !Terminal(u.table.jobs[id].state)
    ensures id in s.table.jobs && !Terminal(s.table.jobs[id].state) && u.tasks[id].owner == s.tasks[id].owner
  {
    assert Later(s.tasks[id], RecordOf(s.table, id), u.tasks[id], RecordOf(u.table, id));
  }

  /** After a disconnect no job of the session ever comes in again, and every batch with one is refused. */
  lemma DisconnectIsFinal(states: seq<System>, steps: seq<Step>, i: nat, j: nat, session: Session)
    requires IsRun(states, steps) && i < j < |states| && steps[i] == DisconnectOne(session)
    ensures forall id <- states[j].tasks :: Belongs(states[j].tasks[id], session) ==> id in states[i].tasks
    ensures forall batch, job: (JobId, Owner) :: Enabled(states[j], Submit(batch)) && job in batch ==>
      (job.1.host, job.1.session) == session ==> Enqueue(states[j].table, batch).1 == Err(ErrorCode.Cancelled)
  {
    hide Inv, Enqueue, SealedBefore;
    assert Becomes(states[i], steps[i], states[i + 1]);
    RunKeepsInv(states, steps, i);
    RunGoesForward(states, steps, i + 1, j);
    forall batch: seq<(JobId, Owner)>, job: (JobId, Owner) | Enabled(states[j], Submit(batch)) && job in batch
      ensures (job.1.host, job.1.session) == session ==> Enqueue(states[j].table, batch).1 == Err(ErrorCode.Cancelled)
    {
      AdmissionExactly(states, steps, j, batch);
      SealedAt(steps, i, j, session);
    }
  }

  lemma SealedAt(steps: seq<Step>, i: nat, j: nat, session: Session)
    requires i < j <= |steps| && Seals(steps[i], session)
    ensures SealedBefore(steps, j, session)
  {
  }

  // ----- Cancellation -----

  /** A cancel, disconnect or shutdown reaches the job while it can still be cancelled. */
  ghost predicate Reaches(s: System, step: Step, id: JobId) {
    id in s.table.jobs && Asks(step, id, s.table.jobs[id]) && Cancellable(s.table.jobs[id].state)
  }

  lemma MoveKeepsTokens(s: System, mover: JobId, m: Move, id: JobId)
    requires Inv(s) && Enabled(s, Step(mover, m))
    ensures var t := Apply(s, Step(mover, m)).table;
      id in t.jobs ==> id in s.table.jobs && t.jobs[id].token == s.table.jobs[id].token
  {
    hide HistoryInv, RecordInv, CommitInv, StagingInv, TableAfter;
    MoverIsKnown(s, mover, m);
    var t, task := s.table, s.tasks[mover];
    var r, listed := RecordAfter(task, t.jobs[mover], m), ListedAfter(task, mover in t.cleanupTasks, m);
    MoveKeepsTaskInv(t, mover, task, m);
    MoveDiffers(t, mover, task, m, r, listed);
  }

  lemma SubmitKeepsTokens(s: System, batch: seq<(JobId, Owner)>, id: JobId)
    requires Inv(s) && Enabled(s, Submit(batch))
    ensures var t := Apply(s, Submit(batch)).table;
      id in t.jobs ==> t.jobs[id].token == (id in s.table.jobs && s.table.jobs[id].token)
  {
    hide HistoryInv, RecordInv, CommitInv, StagingInv, Trim;
    EnqueueAllOrNothing(s.table, batch);
    TrimOnlyForgets(s.table);
    var t := Apply(s, Submit(batch)).table;
    if id in t.jobs && id !in s.table.jobs {
      var job :| job in batch && job.0 == id;
    }
  }

  lemma StepTokens(s: System, step: Step, id: JobId)
    requires Inv(s) && Enabled(s, step) && id in Apply(s, step).table.jobs
    ensures Apply(s, step).table.jobs[id].token <==>
      (id in s.table.jobs && s.table.jobs[id].token) || Reaches(s, step, id)
  {
    hide Inv;
    match step {
      case Submit(batch) => SubmitKeepsTokens(s, batch, id);
      case Step(mover, m) => MoveKeepsTokens(s, mover, m, id);
      case _ =>
    }
  }

  lemma JobsComeOnce(s: System, step: Step, id: JobId)
    requires Inv(s) && Enabled(s, step) && id in Apply(s, step).table.jobs && id !in s.table.jobs
    ensures step.Submit? && id !in s.tasks
  {
    hide HistoryInv, RecordInv, CommitInv, StagingInv, Trim;
    match step {
      case Submit(batch) =>
        EnqueueAllOrNothing(s.table, batch);
        TrimOnlyForgets(s.table);
      case Step(mover, m) => MoveKeepsTokens(s, mover, m, id);
      case _ =>
    }
  }

  ghost predicate ReachedBefore(states: seq<System>, steps: seq<Step>, n: nat, id: JobId)
    requires n <= |steps| && n <= |states|
  {
    exists i :: 0 <= i < n && Reaches(states[i], steps[i], id)
  }

  /** Before a job is known, nothing reaches it. */
  lemma UnknownIsNotReached(states: seq<System>, steps: seq<Step>, n: nat, id: JobId)
    requires IsRun(states, steps) && n < |states| && id !in states[n].tasks
    ensures !ReachedBefore(states, steps, n, id)
  {
    hide Inv, Apply, Enabled;
    forall i | 0 <= i < n
      ensures !Reaches(states[i], steps[i], id)
    {
      RunGoesForward(states, steps, i, n);
      if id in states[i].table.jobs { RunKnowsJob(states, steps, i, id); }
    }
  }

  /** A job's cancellation token is set exactly if a request reached it in time earlier in the run. */
  lemma {:induction false} TokensCome(states: seq<System>, steps: seq<Step>, n: nat, id: JobId)
    requires IsRun(states, steps) && n < |states| && id in states[n].table.jobs
    ensures states[n].table.jobs[id].token <==> ReachedBefore(states, steps, n, id)
  {
    hide Inv, Apply, Enabled, Reaches;
    if n > 0 {
      var s, step := states[n - 1], steps[n - 1];
      RunKeepsInv(states, steps, n - 1);
      assert Becomes(s, step, states[n - 1 + 1]);
      StepTokens(s, step, id);
      if id in s.table.jobs {
        TokensCome(states, steps, n - 1, id);
      } else {
        JobsComeOnce(s, step, id);
        UnknownIsNotReached(states, steps, n - 1, id);
      }
    }
  }

  /** A job may enter finalization exactly if no request reached it in time. */
  lemma FinalizationExactly(states: seq<System>, steps: seq<Step>, n: nat, id: JobId)
    requires IsRun(states, steps) && n < |states| && id in states[n].table.jobs
    ensures MayFinalize(states[n].table, id) <==> !ReachedBefore(states, steps, n, id)
  {
    hide ReachedBefore;
    TokensCome(states, steps, n, id);
    RunKeepsInv(states, steps, n);
  }

  /** Cancelled is shown only for a job that a request reached in time. */
  lemma CancelledWasReached(states: seq<System>, steps: seq<Step>, n: nat, id: JobId)
    requires IsRun(states, steps) && n < |states| && id in states[n].table.jobs
    requires states[n].table.jobs[id].state.Cancelled? || states[n].table.jobs[id].state.CancelRequested?
    ensures ReachedBefore(states, steps, n, id)
  {
    hide ReachedBefore;
    TokensCome(states, steps, n, id);
    RunKeepsInv(states, steps, n);
  }

  /** The answer of `cancel`: only the owner of a known job may ask, and asking is always allowed to them. */
  lemma CancelAnswers(states: seq<System>, steps: seq<Step>, n: nat, id: JobId, owner: Owner)
    requires IsRun(states, steps) && n < |steps| && steps[n] == CancelOne(id, owner)
    ensures var r := Cancel(states[n].table, id, owner).1;
      && (r.Ok? <==>
            id in states[n].table.jobs && id in states[n].tasks && states[n].tasks[id].owner == owner)
      && (r == Err(ErrorCode.Transfer) <==> id !in states[n].table.jobs)
      && (r.Err? ==> r.code.Transfer? || r.code.Policy?)
      && (r.Err? ==> states[n + 1] == states[n])
      && (r.Ok? && Cancellable(states[n].table.jobs[id].state) ==>
            states[n + 1].table.jobs[id].state.CancelRequested? && states[n + 1].table.jobs[id].token)
      && (forall o <- states[n].table.jobs :: o != id ==> states[n + 1].table.jobs[o] == states[n].table.jobs[o])
  {
    assert Becomes(states[n], steps[n], states[n + 1]);
    RunKeepsInv(states, steps, n);
    if id in states[n].table.jobs { RunKnowsJob(states, steps, n, id); }
  }
}
