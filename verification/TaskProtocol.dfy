/**
 The externally visible protocol of one transfer task: which remote requests,
 job-state changes and endings are possible in which order.

 `StagedTransfer` shows that the sequential code of every transfer follows this
 automaton under every environment; `TransferRuns` lets each task of the manager
 take any step the automaton allows.
 */
module TaskProtocol {
  import opened Common

  datatype TransferState =
    | Queued | Preparing | Transferring | CancelRequested | Finalizing
    | Completed | Failed | Cancelled | OutcomeUnknown

  predicate Terminal(s: TransferState) {
    s.Completed? || s.Failed? || s.Cancelled? || s.OutcomeUnknown?
  }

  /** The states in which a cancel, disconnect or shutdown request is accepted. */
  predicate Cancellable(s: TransferState) {
    s.Queued? || s.Preparing? || s.Transferring?
  }

  /** What the client learned about a mutating request. */
  datatype Reply = Confirmed | Refused | Lost

  datatype Phase =
    | Idle                                   // job not yet shown as transferring
    | Skipped                                // approved as a Skip: nothing to do
    | Streaming                              // transferring; no remote staging owned
    | Owned                                  // exclusive creation confirmed, guard armed
    | Final(owned: bool)                     // past the point of accepting cancellation
    | Linked                                 // final name linked, staging name still there
    | Committed                              // the commit was confirmed
    | CommitFailed(owned: bool, maybe: bool) // not confirmed; `maybe`: it may have happened
    | Settled(maybe: bool)                   // the guard asked to remove the staging file
    | Closed(maybe: bool)                    // staging not created; `maybe`: reply lost

  datatype Action =
    | Inspect                       // a request that changes nothing
    | Skip
    | SetTransferring
    | Create(reply: Reply)          // exclusive creation of the staging file
    | Feed                          // write, sync, close or set attributes of staging
    | EnterFinalizing
    | Link(reply: Reply)            // hardlink staging to the final name
    | Unlink(reply: Reply)          // remove the staging name after a confirmed link
    | Rename(reply: Reply)          // posix-rename staging over the final name
    | Persist(reply: Reply)         // move the local temporary file to the final name
    | GuardRemove(confirmed: bool)  // the staging guard removes its file

  predicate IsRemoteRequest(a: Action) {
    !a.Skip? && !a.SetTransferring? && !a.EnterFinalizing? && !a.Persist?
  }

  predicate IsCommit(a: Action) {
    a.Link? || a.Rename? || a.Persist?
  }

  /** The phases in which the guard is responsible for an existing staging file. */
  predicate HoldsStaging(p: Phase) {
    p.Owned? || p.Linked? || p == Final(true) || (p.CommitFailed? && p.owned)
  }

  /** The phases reached only through an accepted `EnterFinalizing`, before the guard settles. */
  predicate PastFinalizing(p: Phase) {
    p.Final? || p.Linked? || p.Committed? || p.CommitFailed?
  }

  predicate Allowed(p: Phase, a: Action) {
    match a
    case Inspect => p.Idle? || p.Streaming? || p.Owned? || p.Final?
    case Skip => p.Idle?
    case SetTransferring => p.Idle?
    case Create(_) => p.Streaming?
    case Feed => p.Owned?
    case EnterFinalizing => p.Owned? || p.Streaming?
    case Link(_) => p == Final(true)
    case Unlink(_) => p.Linked?
    case Rename(_) => p == Final(true)
    case Persist(_) => p == Final(false)
    case GuardRemove(_) => HoldsStaging(p) && !p.Linked?
  }

  function Next(p: Phase, a: Action): Phase
    requires Allowed(p, a)
  {
    match a
    case Inspect | Feed => p
    case Skip => Skipped
    case SetTransferring => Streaming
    case Create(r) => if r.Confirmed? then Owned else Closed(r.Lost?)
    case EnterFinalizing => Final(p.Owned?)
    case Link(r) => if r.Confirmed? then Linked else CommitFailed(true, r.Lost?)
    case Unlink(r) => if r.Confirmed? then Committed else CommitFailed(true, true)
    case Rename(r) => if r.Confirmed? then Committed else CommitFailed(true, r.Lost?)
    case Persist(r) => if r.Confirmed? then Committed else CommitFailed(false, r.Lost?)
    case GuardRemove(_) => Settled(p.CommitFailed? && p.maybe)
  }

  /** The outcomes with which a task may end in phase `p`. */
  predicate CanEnd(p: Phase, outcome: TransferState) {
    match p
    case Idle | Streaming => outcome.Failed? || outcome.Cancelled?
    case Skipped | Committed => outcome.Completed?
    case Final(owned) => !owned && outcome.Failed?
    case Owned | Linked => false
    case CommitFailed(owned, maybe) => !owned && EndsUnconfirmed(maybe, outcome)
    case Settled(maybe) => EndsUnconfirmed(maybe, outcome)
    case Closed(maybe) => EndsUnconfirmed(maybe, outcome)
  }

  predicate EndsUnconfirmed(maybe: bool, outcome: TransferState) {
    if maybe then outcome.OutcomeUnknown? else outcome.Failed? || outcome.Cancelled?
  }

  // ----- Whole action sequences -----

  /** The phase an action sequence leads to, if the protocol allows the sequence. */
  function Replay(h: seq<Action>): Option<Phase> {
    if h == [] then Some(Idle)
    else
      var before := Replay(h[..|h| - 1]);
      var a := h[|h| - 1];
      if before.Some? && Allowed(before.value, a) then Some(Next(before.value, a)) else None
  }

  lemma ReplayExtends(h: seq<Action>, a: Action)
    ensures Replay(h + [a]) ==
            if Replay(h).Some? && Allowed(Replay(h).value, a) then Some(Next(Replay(h).value, a)) else None
  {
    assert (h + [a])[..|h|] == h;
  }

  function Commits(h: seq<Action>): seq<Action> {
    if h == [] then []
    else Commits(h[..|h| - 1]) + (if IsCommit(h[|h| - 1]) then [h[|h| - 1]] else [])
  }

  function Removals(h: seq<Action>): nat {
    if h == [] then 0
    else Removals(h[..|h| - 1]) + (if h[|h| - 1].GuardRemove? then 1 else 0)
  }

  ghost predicate AllRefused(commits: seq<Action>) {
    forall c <- commits :: IsCommit(c) && c.reply.Refused?
  }

  predicate InDoubt(p: Phase) {
    (p.CommitFailed? && p.maybe) || (p.Settled? && p.maybe)
  }

  /** What these commits, this many removals, an ownership and a skip lead to. */
  ghost predicate Fits(p: Phase, commits: seq<Action>, removals: nat, owned: bool, skipped: bool) {
    && |commits| <= 1
    && (forall c <- commits :: IsCommit(c) && (c.reply.Lost? ==> InDoubt(p)))
    && removals == (if p.Settled? then 1 else 0)
    && (HoldsStaging(p) || p.Settled? ==> owned)
    && (p.Skipped? ==> skipped)
    && match p
       case Linked | Committed => commits != [] && IsCommit(commits[0]) && commits[0].reply.Confirmed?
       case CommitFailed(_, maybe) => maybe || AllRefused(commits)
       case Settled(maybe) => maybe || AllRefused(commits)
       case _ => commits == []
  }

  /** The phase tells what a sequence that led to it has done. */
  ghost predicate Explains(p: Phase, h: seq<Action>) {
    Fits(p, Commits(h), Removals(h), Create(Confirmed) in h, Skip in h)
  }

  lemma FitsMore(p: Phase, commits: seq<Action>, removals: nat, owned: bool, skipped: bool, a: Action)
    requires Fits(p, commits, removals, owned, skipped) && Allowed(p, a)
    ensures Fits(Next(p, a), commits + if IsCommit(a) then [a] else [], removals + if a.GuardRemove? then 1 else 0,
                 owned || a == Create(Confirmed), skipped || a.Skip?)
  {
    if IsCommit(a) {
      assert commits == [] && commits + [a] == [a];
    } else {
      assert commits + [] == commits;
    }
  }

  lemma {:induction false} ReplayExplains(h: seq<Action>)
    requires Replay(h).Some?
    ensures Explains(Replay(h).value, h)
  {
    if h != [] {
      var before, a := h[..|h| - 1], h[|h| - 1];
      ReplayExplains(before);
      FitsMore(Replay(before).value, Commits(before), Removals(before), Create(Confirmed) in before, Skip in before, a);
      assert h == before + [a];
      hide Fits;
    }
  }

  lemma {:induction false} ReplayPrefix(h: seq<Action>, i: nat)
    requires Replay(h).Some? && i < |h|
    ensures Replay(h[..i]).Some? && Allowed(Replay(h[..i]).value, h[i])
    ensures Replay(h[..i + 1]) == Some(Next(Replay(h[..i]).value, h[i]))
  {
    if i + 1 < |h| {
      ReplayPrefix(h[..|h| - 1], i);
      assert h[..|h| - 1][..i] == h[..i] && h[..|h| - 1][..i + 1] == h[..i + 1];
    } else {
      assert h[..i + 1] == h;
    }
  }

  /** What may come next, in every sequence that the protocol allows, after each action that decides something. */
  lemma WhatFollows(h: seq<Action>, i: nat)
    requires Replay(h).Some? && i + 1 < |h|
    ensures var a, b := h[i], h[i + 1];
      && !a.Skip? && !a.Persist? && !a.GuardRemove? && a != Rename(Confirmed) && a != Unlink(Confirmed)
      && (a.Create? ==> a.reply.Confirmed?)
      && (a == Link(Confirmed) ==> b.Unlink?)
      && (a.Link? && !a.reply.Confirmed? ==> b.GuardRemove?)
      && (a.Rename? || a.Unlink? ==> b.GuardRemove?)
  {
    hide Replay;
    ReplayPrefix(h, i);
    ReplayPrefix(h, i + 1);
  }

  /**
   Outcome honesty, for every sequence the protocol allows and every ending it allows:
   Failed and Cancelled leave the destination untouched, Completed is a Skip or exactly one
   confirmed commit, and a commit whose reply was lost ends as OutcomeUnknown.
   */
  lemma EndingIsHonest(h: seq<Action>, outcome: TransferState)
    requires Replay(h).Some? && CanEnd(Replay(h).value, outcome)
    ensures Terminal(outcome)
    ensures outcome.Failed? || outcome.Cancelled? ==> AllRefused(Commits(h))
    ensures outcome.Completed? ==>
              || (Skip in h && Commits(h) == [])
              || (|Commits(h)| == 1 && IsCommit(Commits(h)[0]) && Commits(h)[0].reply.Confirmed?)
    ensures forall c <- Commits(h) :: IsCommit(c) && (c.reply.Lost? ==> outcome.OutcomeUnknown?)
    ensures Removals(h) <= 1 && (Removals(h) == 1 ==> Create(Confirmed) in h)
  {
    ReplayExplains(h);
  }
}
