/** The code of the transfer manager's critical sections, proved against `JobTable`. */
module TransferManager {
  import opened Common
  import opened TaskProtocol
  import opened JobTable

  class Manager {
    var jobs: map<JobId, JobRecord>
    var order: seq<JobId>
    var disconnecting: set<Session>
    var cleanupTasks: set<JobId>
    var shuttingDown: bool

    ghost function State(): Table
      reads this
    {
      Table(jobs, order, disconnecting, cleanupTasks, shuttingDown)
    }

    constructor ()
      ensures State() == Table(map[], [], {}, {}, false) && WellFormed(State())
    {
      jobs, order, disconnecting, cleanupTasks, shuttingDown := map[], [], {}, {}, false;
      new;
      assert ActiveIds(jobs) == {};
    }

    /** The position of the oldest job that may be forgotten. */
    method FindOldestEligible() returns (k: nat)
      ensures k == OldestEligible(State(), 0)
    {
      k := 0;
      while k < |order|
        && !(order[k] in jobs && Terminal(jobs[order[k]].state)
             && !jobs[order[k]].cleanupUnconfirmed && order[k] !in cleanupTasks)
        invariant k <= |order|
        invariant OldestEligible(State(), 0) == OldestEligible(State(), k)
      {
        k := k + 1;
      }
    }

    method TrimHistory()
      modifies this`jobs, this`order
      ensures State() == Trim(old(State()))
    {
      while |TerminalIds(jobs)| > HISTORY_CAP
        invariant Trim(State()) == Trim(old(State()))
        decreases |order|
      {
        var index := FindOldestEligible();
        if index == |order| { break; }
        jobs, order := jobs - {order[index]}, order[..index] + order[index + 1..];
      }
    }

    method CancelJob(id: JobId, owner: Owner) returns (r: Result<()>)
      modifies this`jobs
      ensures (State(), r) == Cancel(old(State()), id, owner)
    {
      if id !in jobs { return Err(ErrorCode.Transfer); }
      if jobs[id].owner != owner { return Err(ErrorCode.Policy); }
      if Cancellable(jobs[id].state) {
        jobs := jobs[id := jobs[id].(state := CancelRequested, token := true)];
      } else {
        assert jobs[id := jobs[id]] == jobs;
      }
      return Ok(());
    }

    /** The shared loop of `disconnect` and `shutdown` over the jobs chosen by `all` or `session`. */
    method CancelMatching(all: bool, session: Session)
      modifies this`jobs
      ensures jobs == map id | id in old(jobs) ::
                if all || SessionOf(old(jobs)[id]) == session then RequestCancel(old(jobs)[id]) else old(jobs)[id]
    {
      var rest := jobs.Keys;
      while rest != {}
        invariant rest <= old(jobs).Keys == jobs.Keys
        invariant forall id <- rest :: jobs[id] == old(jobs)[id]
        invariant forall id <- old(jobs) :: id !in rest ==>
                    jobs[id] == if all || SessionOf(old(jobs)[id]) == session
                                then RequestCancel(old(jobs)[id]) else old(jobs)[id]
        decreases rest
      {
        var id :| id in rest;
        if (all || SessionOf(jobs[id]) == session) && Cancellable(jobs[id].state) {
          jobs := jobs[id := jobs[id].(state := CancelRequested, token := true)];
        }
        rest := rest - {id};
      }
    }

    method DisconnectSession(session: Session)
      modifies this`jobs, this`disconnecting
      ensures State() == Disconnect(old(State()), session)
    {
      disconnecting := disconnecting + {session};
      CancelMatching(false, session);
    }

    method BeginShutdown()
      modifies this`jobs, this`disconnecting, this`shuttingDown
      ensures State() == Shutdown(old(State()))
    {
      shuttingDown := true;
      disconnecting := disconnecting
        + set id | id in jobs && !Terminal(jobs[id].state) :: SessionOf(jobs[id]);
      CancelMatching(true, (0, 0));
    }

    method EnqueueBatch(batch: seq<(JobId, Owner)>) returns (r: Result<()>)
      modifies this`jobs, this`order
      ensures (State(), r) == Enqueue(old(State()), batch)
    {
      if batch == [] { return Ok(()); }
      if shuttingDown || exists job <- batch :: (job.1.host, job.1.session) in disconnecting {
        return Err(ErrorCode.Cancelled);
      }
      TrimHistory();
      if |ActiveIds(jobs)| + |batch| > JOB_CAP {
        return Err(ErrorCode.Transfer);
      }
      ghost var base := State();
      for i := 0 to |batch|
        invariant State() == AddAll(base, batch[..i])
      {
        assert batch[..i + 1][..i] == batch[..i];
        order, jobs := order + [batch[i].0], jobs[batch[i].0 := NewRecord(batch[i].1)];
      }
      assert batch[..|batch|] == batch;
      return Ok(());
    }

    method StoreState(id: JobId, next: TransferState)
      modifies this`jobs, this`order
      ensures State() == SetState(old(State()), id, next)
    {
      if id in jobs {
        jobs := jobs[id := WithState(jobs[id], next)];
        if Terminal(next) { TrimHistory(); }
      }
    }

    method FinishJob(id: JobId, next: TransferState)
      requires Terminal(next)
      modifies this`jobs, this`order
      ensures State() == Finish(old(State()), id, next)
    {
      if id in jobs {
        jobs := jobs[id := WithState(jobs[id], next)];
      }
      TrimHistory();
    }

    /** `enter_finalizing`: the job's own decision between cancellation and finalization. */
    method TryFinalize(id: JobId) returns (r: Result<()>)
      modifies this`jobs
      ensures r.Ok? <==> MayFinalize(old(State()), id)
      ensures r.Err? ==> r.code == if id in old(jobs) then ErrorCode.Cancelled else ErrorCode.Transfer
      ensures State() == if r.Ok? then Finalize(old(State()), id) else old(State())
    {
      if id !in jobs { return Err(ErrorCode.Transfer); }
      if jobs[id].token || jobs[id].state.CancelRequested? { return Err(ErrorCode.Cancelled); }
      jobs := jobs[id := jobs[id].(state := TransferState.Finalizing)];
      return Ok(());
    }

    /** The last critical section of `quiesce_session`. */
    method LookQuiet(session: Session) returns (quiet: bool)
      ensures quiet <==> Quiet(State(), session)
    {
      if exists id <- jobs :: SessionOf(jobs[id]) == session && jobs[id].cleanupUnconfirmed { return false; }
      if exists id <- jobs :: SessionOf(jobs[id]) == session && !Terminal(jobs[id].state) { return false; }
      return true;
    }
  }
}
