/**
 The transfer manager's shared state and its critical sections: the job table, the
 admission queue, the bounded history and the session seals.

 `Table` and the functions on it say what each critical section does; the class
 `TransferManager` is the code, proved against them.
 */
module JobTable {
  import opened Common
  import opened TaskProtocol

  const JOB_CAP: nat := 100
  const HISTORY_CAP: nat := 100

  type JobId = nat

  /** The cancellation token is shared by the record and the job's task. */
  datatype JobRecord = JobRecord(
    owner: Owner,
    state: TransferState,
    token: bool,
    hasSpec: bool,
    cleanupUnconfirmed: bool
  )

  type Session = (HostId, HostSessionId)

  datatype Table = Table(
    jobs: map<JobId, JobRecord>,
    order: seq<JobId>,
    disconnecting: set<Session>,
    cleanupTasks: set<JobId>,
    shuttingDown: bool
  )

  function SessionOf(r: JobRecord): Session {
    (r.owner.host, r.owner.session)
  }

  // ----- The table's invariant -----

  function TerminalIds(jobs: map<JobId, JobRecord>): set<JobId> {
    set id | id in jobs && Terminal(jobs[id].state)
  }

  function ActiveIds(jobs: map<JobId, JobRecord>): set<JobId> {
    set id | id in jobs && !Terminal(jobs[id].state)
  }

  /** `order` lists exactly the jobs, once each; history keeps no specification; the queue is bounded. */
  ghost predicate WellFormed(t: Table) {
    && NoDuplicates(t.order)
    && (forall id :: id in t.order <==> id in t.jobs)
    && (forall id <- t.jobs :: t.jobs[id].hasSpec <==> !Terminal(t.jobs[id].state))
    && |ActiveIds(t.jobs)| <= JOB_CAP
    && t.cleanupTasks <= t.jobs.Keys
  }

  // ----- Trimming -----

  predicate Eligible(t: Table, id: JobId) {
    && id in t.jobs
    && Terminal(t.jobs[id].state)
    && !t.jobs[id].cleanupUnconfirmed
    && id !in t.cleanupTasks
  }

  /** The position of the oldest job that may be forgotten, or the length of `order`. */
  function OldestEligible(t: Table, from: nat): (k: nat)
    requires from <= |t.order|
    ensures from <= k <= |t.order|
    ensures k < |t.order| ==> Eligible(t, t.order[k])
    ensures forall i :: from <= i < k ==> !Eligible(t, t.order[i])
    decreases |t.order| - from
  {
    if from == |t.order| || Eligible(t, t.order[from]) then from else OldestEligible(t, from + 1)
  }

  function Forget(t: Table, k: nat): Table
    requires k < |t.order|
  {
    t.(jobs := t.jobs - {t.order[k]}, order := t.order[..k] + t.order[k + 1..])
  }

  /** What `trim_history_locked` leaves. */
  function Trim(t: Table): Table
    decreases |t.order|
  {
    var k := OldestEligible(t, 0);
    if |TerminalIds(t.jobs)| > HISTORY_CAP && k < |t.order| then Trim(Forget(t, k)) else t
  }

  ghost predicate Before<T>(s: seq<T>, a: T, b: T) {
    exists i, j :: 0 <= i < j < |s| && s[i] == a && s[j] == b
  }

  /** `u` is `t` without some of its oldest forgettable jobs. */
  ghost predicate Trimmed(t: Table, u: Table) {
    && u == t.(jobs := u.jobs, order := u.order)
    && u.jobs.Keys <= t.jobs.Keys
    && (forall id <- u.jobs :: u.jobs[id] == t.jobs[id])
    && (forall id <- t.jobs :: id !in u.jobs ==> Eligible(t, id))
    && (forall gone, kept | gone in t.jobs && gone !in u.jobs && kept in u.jobs && Eligible(t, kept) ::
          Before(t.order, gone, kept))
  }

  lemma ForgettingKeepsIds(jobs: map<JobId, JobRecord>, id: JobId)
    requires id in jobs && Terminal(jobs[id].state)
    ensures ActiveIds(jobs - {id}) == ActiveIds(jobs)
    ensures TerminalIds(jobs - {id}) == TerminalIds(jobs) - {id}
  {
  }

  lemma ForgetWellFormed(t: Table, k: nat)
    requires WellFormed(t) && k < |t.order| && Eligible(t, t.order[k])
    ensures WellFormed(Forget(t, k))
    ensures TerminalIds(Forget(t, k).jobs) == TerminalIds(t.jobs) - {t.order[k]}
  {
    hide ActiveIds, TerminalIds;
    ForgettingKeepsIds(t.jobs, t.order[k]);
    var u := Forget(t, k);
    assert forall id :: id in u.order <==> id in t.order && id != t.order[k];
  }

  lemma ForgetKeepsOrder(t: Table, k: nat, a: JobId, b: JobId)
    requires k < |t.order|
    requires Before(Forget(t, k).order, a, b)
    ensures Before(t.order, a, b)
  {
    var u := Forget(t, k).order;
    var i, j :| 0 <= i < j < |u| && u[i] == a && u[j] == b;
    var i' := if i < k then i else i + 1;
    var j' := if j < k then j else j + 1;
    assert t.order[i'] == a && t.order[j'] == b;
  }

  /** The first forgotten job is older than every job that could have been forgotten instead. */
  lemma OldestIsFirst(t: Table, k: nat, kept: JobId)
    requires WellFormed(t) && k < |t.order| && k == OldestEligible(t, 0)
    requires kept in t.jobs && kept != t.order[k] && Eligible(t, kept)
    ensures Before(t.order, t.order[k], kept)
  {
    var j :| 0 <= j < |t.order| && t.order[j] == kept;
  }

  lemma TrimmedOneMore(t: Table, k: nat, v: Table)
    requires WellFormed(t) && k < |t.order| && k == OldestEligible(t, 0)
    requires Trimmed(Forget(t, k), v)
    ensures Trimmed(t, v)
  {
    var first, u := t.order[k], Forget(t, k);
    forall gone, kept | gone in t.jobs && gone !in v.jobs && kept in v.jobs && Eligible(t, kept)
      ensures Before(t.order, gone, kept)
    {
      assert Eligible(u, kept);
      if gone == first {
        OldestIsFirst(t, k, kept);
      } else {
        ForgetKeepsOrder(t, k, gone, kept);
      }
    }
  }

  /**
   Trimming keeps the table well formed and removes only the oldest forgettable jobs. It stops
   only when the history fits or everything left awaits cleanup, and never goes below the cap.
   */
  lemma {:induction false} TrimRemovesOldest(t: Table)
    requires WellFormed(t)
    ensures WellFormed(Trim(t)) && Trimmed(t, Trim(t))
    ensures |TerminalIds(Trim(t).jobs)| <= HISTORY_CAP || forall id <- Trim(t).jobs :: !Eligible(Trim(t), id)
    ensures Trim(t) != t ==> |TerminalIds(Trim(t).jobs)| >= HISTORY_CAP
    decreases |t.order|
  {
    var k := OldestEligible(t, 0);
    if |TerminalIds(t.jobs)| > HISTORY_CAP && k < |t.order| {
      ForgetWellFormed(t, k);
      TrimRemovesOldest(Forget(t, k));
      TrimmedOneMore(t, k, Trim(t));
    } else if k == |t.order| {
      forall id <- t.jobs ensures !Eligible(t, id) {
        var i :| 0 <= i < |t.order| && t.order[i] == id;
      }
    }
  }

  // ----- The critical sections -----

  function RequestCancel(r: JobRecord): JobRecord {
    if Cancellable(r.state) then r.(state := CancelRequested, token := true) else r
  }

  function Cancel(t: Table, id: JobId, owner: Owner): (Table, Result<()>) {
    if id !in t.jobs then (t, Err(ErrorCode.Transfer))
    else if t.jobs[id].owner != owner then (t, Err(ErrorCode.Policy))
    else (t.(jobs := t.jobs[id := RequestCancel(t.jobs[id])]), Ok(()))
  }

  function Disconnect(t: Table, session: Session): Table {
    t.(disconnecting := t.disconnecting + {session},
       jobs := map id | id in t.jobs ::
         if SessionOf(t.jobs[id]) == session then RequestCancel(t.jobs[id]) else t.jobs[id])
  }

  function Shutdown(t: Table): Table {
    t.(shuttingDown := true,
       disconnecting := t.disconnecting
         + set id | id in t.jobs && !Terminal(t.jobs[id].state) :: SessionOf(t.jobs[id]),
       jobs := map id | id in t.jobs :: RequestCancel(t.jobs[id]))
  }

  function NewRecord(owner: Owner): JobRecord {
    JobRecord(owner, Queued, false, true, false)
  }

  function AddAll(t: Table, batch: seq<(JobId, Owner)>): Table {
    if batch == [] then t
    else
      var u := AddAll(t, batch[..|batch| - 1]);
      var (id, owner) := batch[|batch| - 1];
      AddOne(u, id, owner)
  }

  function AddOne(t: Table, id: JobId, owner: Owner): Table {
    t.(jobs := t.jobs[id := NewRecord(owner)], order := t.order + [id])
  }

  predicate Sealed(t: Table, batch: seq<(JobId, Owner)>) {
    t.shuttingDown || exists job <- batch :: (job.1.host, job.1.session) in t.disconnecting
  }

  /** `enqueue_batch`: the whole batch or nothing. The history is trimmed even if the batch is too large. */
  function Enqueue(t: Table, batch: seq<(JobId, Owner)>): (Table, Result<()>) {
    if batch == [] then (t, Ok(()))
    else if Sealed(t, batch) then (t, Err(ErrorCode.Cancelled))
    else
      var u := Trim(t);
      if |ActiveIds(u.jobs)| + |batch| > JOB_CAP then (u, Err(ErrorCode.Transfer)) else (AddAll(u, batch), Ok(()))
  }

  function WithState(r: JobRecord, next: TransferState): JobRecord {
    r.(state := next, hasSpec := r.hasSpec && !Terminal(next))
  }

  /** `set_state` overwrites whatever state the job had. */
  function SetState(t: Table, id: JobId, next: TransferState): Table {
    if id !in t.jobs then t
    else
      var u := t.(jobs := t.jobs[id := WithState(t.jobs[id], next)]);
      if Terminal(next) then Trim(u) else u
  }

  /** `finish_error` and `finish_unknown` trim even when the job is gone. */
  function Finish(t: Table, id: JobId, next: TransferState): Table
    requires Terminal(next)
  {
    Trim(if id !in t.jobs then t else t.(jobs := t.jobs[id := WithState(t.jobs[id], next)]))
  }

  predicate MayFinalize(t: Table, id: JobId) {
    id in t.jobs && !t.jobs[id].token && !t.jobs[id].state.CancelRequested?
  }

  function Finalize(t: Table, id: JobId): Table
    requires MayFinalize(t, id)
  {
    t.(jobs := t.jobs[id := t.jobs[id].(state := TransferState.Finalizing)])
  }

  function MarkUnconfirmed(t: Table, id: JobId): Table {
    if id in t.jobs then t.(jobs := t.jobs[id := t.jobs[id].(cleanupUnconfirmed := true)]) else t
  }

  /** The last look of `quiesce_session`. */
  predicate Quiet(t: Table, session: Session) {
    && (forall id <- t.jobs :: SessionOf(t.jobs[id]) == session ==> !t.jobs[id].cleanupUnconfirmed)
    && (forall id <- t.jobs :: SessionOf(t.jobs[id]) == session ==> Terminal(t.jobs[id].state))
  }

  // ----- What every critical section keeps -----

  lemma StoreKeepsWellFormed(t: Table, id: JobId, r: JobRecord)
    requires WellFormed(t) && id in t.jobs
    requires r.hasSpec <==> !Terminal(r.state)
    requires Terminal(t.jobs[id].state) ==> Terminal(r.state)
    ensures WellFormed(t.(jobs := t.jobs[id := r]))
  {
    var u := t.(jobs := t.jobs[id := r]);
    SubsetSize(ActiveIds(u.jobs), ActiveIds(t.jobs));
  }

  /** Requests to cancel end nothing and admit nothing. */
  lemma CancelKeepsWellFormed(t: Table, u: Table)
    requires WellFormed(t)
    requires u.jobs.Keys == t.jobs.Keys && u.order == t.order && u.cleanupTasks == t.cleanupTasks
    requires forall id <- t.jobs :: u.jobs[id] == t.jobs[id] || u.jobs[id] == RequestCancel(t.jobs[id])
    ensures WellFormed(u)
  {
    assert ActiveIds(u.jobs) == ActiveIds(t.jobs);
  }

  ghost predicate FreshBatch(t: Table, batch: seq<(JobId, Owner)>) {
    && (forall job <- batch :: job.0 !in t.jobs)
    && (forall i, j :: 0 <= i < j < |batch| ==> batch[i].0 != batch[j].0)
  }

  ghost function BatchIds(batch: seq<(JobId, Owner)>): set<JobId> {
    set job <- batch :: job.0
  }

  lemma OneMoreActive(jobs: map<JobId, JobRecord>, id: JobId, r: JobRecord)
    requires id !in jobs && !Terminal(r.state)
    ensures |ActiveIds(jobs[id := r])| == |ActiveIds(jobs)| + 1
  {
    assert ActiveIds(jobs[id := r]) == ActiveIds(jobs) + {id};
  }

  lemma AddOneKeepsWellFormed(t: Table, id: JobId, owner: Owner)
    requires WellFormed(t) && id !in t.jobs && |ActiveIds(t.jobs)| < JOB_CAP
    ensures WellFormed(AddOne(t, id, owner))
    ensures |ActiveIds(AddOne(t, id, owner).jobs)| == |ActiveIds(t.jobs)| + 1
  {
    hide NoDuplicates, ActiveIds;
    AddOneListsJobs(t, id, owner);
    OneMoreActive(t.jobs, id, NewRecord(owner));
  }

  lemma AddOneListsJobs(t: Table, id: JobId, owner: Owner)
    requires WellFormed(t) && id !in t.jobs
    ensures var u := AddOne(t, id, owner);
      NoDuplicates(u.order) && forall o :: o in u.order <==> o in u.jobs
  {
    var u := AddOne(t, id, owner);
    assert forall o :: o in u.order <==> o in t.order || o == id;
  }

  /** `u` is `t` with the batch queued. */
  ghost predicate Queues(t: Table, batch: seq<(JobId, Owner)>, u: Table) {
    && u == t.(jobs := u.jobs, order := u.order)
    && u.jobs.Keys == t.jobs.Keys + BatchIds(batch)
    && (forall id <- t.jobs :: u.jobs[id] == t.jobs[id])
    && (forall job <- batch :: u.jobs[job.0] == NewRecord(job.1))
    && t.order <= u.order && |u.order| == |t.order| + |batch|
    && (forall i :: 0 <= i < |batch| ==> u.order[|t.order| + i] == batch[i].0)
  }

  lemma BatchIdsExtends(batch: seq<(JobId, Owner)>, id: JobId, owner: Owner)
    ensures BatchIds(batch + [(id, owner)]) == BatchIds(batch) + {id}
  {
    var all := batch + [(id, owner)];
    assert all[|batch|] == (id, owner);
    forall i | 0 <= i < |batch| ensures batch[i].0 in BatchIds(all) {
      assert all[i] == batch[i];
    }
  }

  lemma QueuesOneMore(t: Table, batch: seq<(JobId, Owner)>, u: Table, id: JobId, owner: Owner)
    requires Queues(t, batch, u) && id !in t.jobs && id !in BatchIds(batch)
    ensures Queues(t, batch + [(id, owner)], AddOne(u, id, owner))
  {
    BatchIdsExtends(batch, id, owner);
    var v := AddOne(u, id, owner);
    forall job <- batch + [(id, owner)] ensures v.jobs[job.0] == NewRecord(job.1) {
      assert job in batch ==> job.0 in BatchIds(batch);
    }
  }

  lemma {:induction false} AddAllQueues(t: Table, batch: seq<(JobId, Owner)>)
    requires FreshBatch(t, batch)
    ensures Queues(t, batch, AddAll(t, batch))
  {
    if batch != [] {
      var rest := batch[..|batch| - 1];
      var (id, owner) := batch[|batch| - 1];
      AddAllQueues(t, rest);
      assert batch == rest + [(id, owner)];
      QueuesOneMore(t, rest, AddAll(t, rest), id, owner);
    }
  }

  lemma {:induction false} AddAllKeepsWellFormed(t: Table, batch: seq<(JobId, Owner)>)
    requires WellFormed(t) && FreshBatch(t, batch)
    requires |ActiveIds(t.jobs)| + |batch| <= JOB_CAP
    ensures WellFormed(AddAll(t, batch))
    ensures |ActiveIds(AddAll(t, batch).jobs)| == |ActiveIds(t.jobs)| + |batch|
  {
    if batch != [] {
      var rest := batch[..|batch| - 1];
      var (id, owner) := batch[|batch| - 1];
      AddAllKeepsWellFormed(t, rest);
      AddAllQueues(t, rest);
      AddOneKeepsWellFormed(AddAll(t, rest), id, owner);
    }
  }

  /** Whatever happened to the table, no job was changed, and only forgettable ones are gone. */
  ghost predicate OnlyForgets(t: Table, u: Table) {
    && (forall id <- t.jobs :: id !in u.jobs ==> Eligible(t, id))
    && (forall id <- u.jobs :: id in t.jobs ==> u.jobs[id] == t.jobs[id])
  }

  lemma TrimOnlyForgets(t: Table)
    requires WellFormed(t)
    ensures WellFormed(Trim(t)) && OnlyForgets(t, Trim(t))
    ensures Trim(t) == t.(jobs := Trim(t).jobs, order := Trim(t).order)
    ensures Trim(t).jobs.Keys <= t.jobs.Keys && ActiveIds(Trim(t).jobs) == ActiveIds(t.jobs)
  {
    TrimRemovesOldest(t);
  }

  lemma AcceptedBatch(t: Table, u: Table, batch: seq<(JobId, Owner)>)
    requires WellFormed(u) && OnlyForgets(t, u) && u.jobs.Keys <= t.jobs.Keys
    requires FreshBatch(t, batch) && |ActiveIds(u.jobs)| + |batch| <= JOB_CAP
    ensures WellFormed(AddAll(u, batch)) && OnlyForgets(t, AddAll(u, batch)) && Queues(u, batch, AddAll(u, batch))
    ensures |ActiveIds(AddAll(u, batch).jobs)| == |ActiveIds(u.jobs)| + |batch|
  {
    AddAllKeepsWellFormed(u, batch);
    AddAllQueues(u, batch);
  }

  /**
   Admission is all or nothing: an accepted batch is queued as a whole behind what was there and
   within the cap; a refused one leaves no trace but a trimmed history.
   */
  lemma EnqueueAllOrNothing(t: Table, batch: seq<(JobId, Owner)>)
    requires WellFormed(t) && FreshBatch(t, batch)
    ensures var (u, r) := Enqueue(t, batch);
      && WellFormed(u) && OnlyForgets(t, u)
      && (r.Ok? && batch != [] ==>
            && !Sealed(t, batch)
            && Queues(Trim(t), batch, u)
            && |ActiveIds(u.jobs)| == |ActiveIds(t.jobs)| + |batch| <= JOB_CAP)
      && (batch != [] ==> (r.Ok? <==> !Sealed(t, batch) && |ActiveIds(t.jobs)| + |batch| <= JOB_CAP))
      && (r.Err? || batch == [] ==> u == t || u == Trim(t))
  {
    TrimOnlyForgets(t);
    if batch != [] && !Sealed(t, batch) && |ActiveIds(t.jobs)| + |batch| <= JOB_CAP {
      AcceptedBatch(t, Trim(t), batch);
    }
  }
}
