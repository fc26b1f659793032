/**
 Classification of what happened to a mutating command run over an SSH exec
 channel (crates/nexus-ssh/src/systemd_reload.rs; the other systemd transports
 use the same machine). The receive loop is proved against a description of whole
 message traces: which message decided, and what every earlier message was.
 The messages are those of sections 5.4, 6.5 and 6.10 of RFC 4254.
 */
module ExecChannel {
  import Common

  datatype Message =
    | Success                    // the exec request was accepted
    | Failure                    // the exec request was refused
    | ExitStatus(status: nat)
    | ExitSignal
    | Data(length: nat)          // stdout or stderr
    | Eof
    | WindowAdjusted
    | Close
    | Other

  datatype NotDispatchedReason = Cancelled | Timeout | Connection | Rejected

  datatype UnknownReason = Cancelled | Timeout | ConnectionLost | OutputLimit

  datatype TransportOutcome =
    | NotDispatched(why: NotDispatchedReason)
    | Confirmed(success: bool)
    | Unknown(reason: UnknownReason)

  datatype OperationOutcome = Success | Failed | Cancelled | OutcomeUnknown

  datatype Handling = Continue | Complete(outcome: TransportOutcome)

  const OUTPUT_LIMIT: nat := 8 * 1024

  const CONNECTION_LOST := Unknown(UnknownReason.ConnectionLost)

  function Classify(o: TransportOutcome): OperationOutcome {
    match o
    case NotDispatched(Cancelled) => OperationOutcome.Cancelled
    case NotDispatched(_) => OperationOutcome.Failed
    case Confirmed(true) => OperationOutcome.Success
    case Confirmed(false) => OperationOutcome.Failed
    case Unknown(_) => OperationOutcome.OutcomeUnknown
  }

  // ----- Traces -----

  predicate Accepted(trace: seq<Message>) {
    Message.Success in trace
  }

  predicate Evidence(trace: seq<Message>) {
    exists i :: 0 <= i < |trace| && trace[i].Data?
  }

  /** How many bytes of output a trace carries. */
  function Output(trace: seq<Message>): nat {
    if trace == [] then 0
    else Output(trace[..|trace| - 1]) + (var m := trace[|trace| - 1]; if m.Data? then m.length else 0)
  }

  /** A message that says nothing about the command. */
  predicate Quiet(m: Message) {
    m.Eof? || m.WindowAdjusted?
  }

  predicate AllQuiet(trace: seq<Message>) {
    forall i :: 0 <= i < |trace| ==> Quiet(trace[i])
  }

  predicate Exit(m: Message) {
    m.ExitStatus? || m.ExitSignal?
  }

  /**
   A trace after which the channel is still being read: nothing in it ends the
   exchange, it is accepted at most once, anything out of the ordinary comes after
   acceptance, and its output is within the limit.
   */
  ghost predicate Open(trace: seq<Message>) {
    && (forall i :: 0 <= i < |trace| ==> !trace[i].Failure? && !Exit(trace[i]) && !trace[i].Close?)
    && (forall i, j :: 0 <= i < j < |trace| && trace[i].Success? ==> !trace[j].Success?)
    && (forall i :: 0 <= i < |trace| && trace[i].Other? ==> Accepted(trace[..i]))
    && Output(trace) <= OUTPUT_LIMIT
  }

  /** The server refused the request, and nothing before that hints that the command ran. */
  ghost predicate RefusedAt(trace: seq<Message>, k: nat) {
    k < |trace| && trace[k].Failure? && AllQuiet(trace[..k])
  }

  /** The command's exit was reported on an open channel. */
  ghost predicate ExitAt(trace: seq<Message>, k: nat, success: bool) {
    && k < |trace| && Open(trace[..k]) && Exit(trace[k])
    && (success <==> trace[k] == ExitStatus(0))
  }

  ghost predicate OverflowAt(trace: seq<Message>, k: nat) {
    k < |trace| && Open(trace[..k]) && trace[k].Data? && Output(trace[..k + 1]) > OUTPUT_LIMIT
  }

  /** The trace ends, or is cut short by a message that does not fit where it stands. */
  ghost predicate LostAt(trace: seq<Message>, k: nat) {
    && k <= |trace| && Open(trace[..k])
    && (k < |trace| ==>
          || trace[k].Close?
          || (trace[k].Success? && Accepted(trace[..k]))
          || (trace[k].Failure? && !AllQuiet(trace[..k]))
          || (trace[k].Other? && !Accepted(trace[..k])))
  }

  /** `o` is what a trace comes to, and `k` is the place where that is decided. */
  ghost predicate StopsAt(trace: seq<Message>, k: nat, o: TransportOutcome) {
    match o
    case NotDispatched(why) => why.Rejected? && RefusedAt(trace, k)
    case Confirmed(success) => ExitAt(trace, k, success)
    case Unknown(OutputLimit) => OverflowAt(trace, k)
    case Unknown(ConnectionLost) => LostAt(trace, k)
    case Unknown(_) => false
  }

  /** The outcome of reading a whole trace, said without reference to how it is read. */
  ghost predicate Decides(trace: seq<Message>, o: TransportOutcome) {
    exists k: nat :: StopsAt(trace, k, o)
  }

  lemma {:induction false} OutputGrows(trace: seq<Message>, k: nat)
    requires k <= |trace|
    ensures Output(trace[..k]) <= Output(trace)
    decreases |trace|
  {
    if k < |trace| {
      OutputGrows(trace[..|trace| - 1], k);
      assert trace[..|trace| - 1][..k] == trace[..k];
    } else {
      assert trace[..k] == trace;
    }
  }

  lemma OpenPrefix(trace: seq<Message>, k: nat)
    requires Open(trace) && k <= |trace|
    ensures Open(trace[..k])
  {
    OutputGrows(trace, k);
    forall i | 0 <= i < k && trace[i].Other?
      ensures Accepted(trace[..k][..i])
    {
      assert trace[..k][..i] == trace[..i];
    }
  }

  lemma ClosedStays(trace: seq<Message>, k: nat, n: nat)
    requires k <= n <= |trace| && !Open(trace[..k])
    ensures !Open(trace[..n])
  {
    assert trace[..n][..k] == trace[..k];
    if Open(trace[..n]) { OpenPrefix(trace[..n], k); }
  }

  /** A quiet trace carries no output. */
  lemma {:induction false} QuietIsOpen(trace: seq<Message>)
    requires AllQuiet(trace)
    ensures Open(trace) && Output(trace) == 0
  {
    if trace != [] {
      QuietIsOpen(trace[..|trace| - 1]);
    }
  }

  /** Up to the deciding message the channel is open; with it, no longer. */
  lemma StopIsFirst(trace: seq<Message>, k: nat, o: TransportOutcome)
    requires StopsAt(trace, k, o)
    ensures k <= |trace| && Open(trace[..k])
    ensures k < |trace| ==> !Open(trace[..k + 1])
  {
    if o.NotDispatched? { QuietIsOpen(trace[..k]); }
    if k < |trace| {
      var p := trace[..k + 1];
      assert p[..k] == trace[..k] && p[k] == trace[k];
      if trace[k].Success? {
        var i :| 0 <= i < k && trace[..k][i].Success?;
        assert p[i].Success? && p[k].Success?;
      }
    }
  }

  /** No trace has two outcomes. */
  lemma DecisionIsUnique(trace: seq<Message>, o: TransportOutcome, u: TransportOutcome)
    requires Decides(trace, o) && Decides(trace, u)
    ensures o == u
  {
    var k: nat :| StopsAt(trace, k, o);
    var l: nat :| StopsAt(trace, l, u);
    StopIsFirst(trace, k, o);
    StopIsFirst(trace, l, u);
    if k < l { ClosedStays(trace, k + 1, l); }
    if l < k { ClosedStays(trace, l + 1, k); }
  }

  lemma DecidedAt(trace: seq<Message>, o: TransportOutcome, k: nat, u: TransportOutcome)
    requires Decides(trace, o) && StopsAt(trace, k, u)
    ensures o == u
  {
    DecisionIsUnique(trace, o, u);
  }

  /** What the last message did to a trace that was open before it. */
  lemma Extend(trace: seq<Message>, m: Message)
    requires Open(trace)
    ensures Output(trace) <= OUTPUT_LIMIT
    ensures Output(trace + [m]) == Output(trace) + if m.Data? then m.length else 0
    ensures Accepted(trace + [m]) <==> Accepted(trace) || m.Success?
    ensures Evidence(trace + [m]) <==> Evidence(trace) || m.Data?
    ensures Open(trace + [m]) <==>
      && !m.Failure? && !Exit(m) && !m.Close?
      && (m.Success? ==> !Accepted(trace)) && (m.Other? ==> Accepted(trace))
      && Output(trace + [m]) <= OUTPUT_LIMIT
  {
    var p := trace + [m];
    assert p[..|trace|] == trace && p[|trace|] == m;
    forall i | 0 <= i < |trace|
      ensures p[..i] == trace[..i]
    {
    }
    if m.Success? && Accepted(trace) {
      var i :| 0 <= i < |trace| && trace[i].Success?;
      assert p[i].Success?;
    }
  }

  /** An open trace without acceptance or output is a quiet one. */
  lemma OpenWithoutEvidence(trace: seq<Message>)
    requires Open(trace)
    ensures !Accepted(trace) && !Evidence(trace) <==> AllQuiet(trace)
  {
    if !Accepted(trace) && !Evidence(trace) {
      forall i | 0 <= i < |trace|
        ensures Quiet(trace[i])
      {
        assert trace[i] in trace && Message.Success !in trace[..i];
      }
    }
  }

  /** Which last messages decide a trace that was open before them, and what they decide. */
  lemma Stops(trace: seq<Message>, m: Message)
    requires Open(trace)
    ensures m.Failure? && !Accepted(trace) && !Evidence(trace) ==>
      StopsAt(trace + [m], |trace|, NotDispatched(Rejected))
    ensures
      || m.Close? || (m.Success? && Accepted(trace)) || (m.Other? && !Accepted(trace))
      || (m.Failure? && (Accepted(trace) || Evidence(trace)))
      ==> StopsAt(trace + [m], |trace|, CONNECTION_LOST)
    ensures Exit(m) ==> StopsAt(trace + [m], |trace|, Confirmed(m == ExitStatus(0)))
    ensures m.Data? && Output(trace) + m.length > OUTPUT_LIMIT ==>
      StopsAt(trace + [m], |trace|, Unknown(OutputLimit))
  {
    hide Open, Accepted, Evidence, AllQuiet;
    Extend(trace, m);
    OpenWithoutEvidence(trace);
    var p := trace + [m];
    assert p[..|trace|] == trace && p[..|trace| + 1] == p && p[|trace|] == m;
  }

  lemma StopCarries(trace: seq<Message>, k: nat, o: TransportOutcome)
    requires k < |trace| && StopsAt(trace[..k + 1], k, o)
    ensures StopsAt(trace, k, o) && Decides(trace, o)
  {
    var p := trace[..k + 1];
    assert p[..k] == trace[..k] && p[..k + 1] == p;
    assert StopsAt(trace, k, o);
  }

  /** What the message at the first place after which the channel is not open decides. */
  lemma ClosingDecides(trace: seq<Message>, k: nat) returns (o: TransportOutcome)
    requires k < |trace| && Open(trace[..k]) && !Open(trace[..k + 1])
    ensures Decides(trace, o)
  {
    var past, m := trace[..k], trace[k];
    assert trace[..k + 1] == past + [m];
    Extend(past, m);
    Stops(past, m);
    o := match m
      case Failure => if Accepted(past) || Evidence(past) then CONNECTION_LOST else NotDispatched(Rejected)
      case ExitStatus(_) | ExitSignal => Confirmed(m == ExitStatus(0))
      case Data(_) => Unknown(OutputLimit)
      case _ => CONNECTION_LOST;
    hide Open, StopsAt, Accepted, Evidence, Output;
    StopCarries(trace, k, o);
  }

  /** Either the channel is open after `n` messages, or the trace is decided. */
  lemma {:induction false} OpenOrDecided(trace: seq<Message>, n: nat)
    requires n <= |trace|
    ensures Open(trace[..n]) || exists o :: Decides(trace, o)
  {
    hide Open, Decides;
    if n == 0 {
      QuietIsOpen(trace[..n]);
    } else {
      OpenOrDecided(trace, n - 1);
      if Open(trace[..n - 1]) && !Open(trace[..n]) {
        var o := ClosingDecides(trace, n - 1);
      }
    }
  }

  /** Every trace has exactly one outcome. */
  lemma ExactlyOneOutcome(trace: seq<Message>)
    ensures exists o :: Decides(trace, o)
    ensures forall o, u :: Decides(trace, o) && Decides(trace, u) ==> o == u
  {
    OpenOrDecided(trace, |trace|);
    if Open(trace[..|trace|]) {
      assert StopsAt(trace, |trace|, CONNECTION_LOST);
      assert Decides(trace, CONNECTION_LOST);
    }
    forall o, u | Decides(trace, o) && Decides(trace, u)
      ensures o == u
    {
      DecisionIsUnique(trace, o, u);
    }
  }

  // ----- The receive loop -----

  /** The three variables that the loop lends to `handle_message`, and what has been received. */
  class Receiver {
    var accepted: bool
    var executionEvidence: bool
    var outputBytes: nat
    ghost var received: seq<Message>

    ghost predicate Valid()
      reads this
    {
      && Open(received)
      && accepted == Accepted(received)
      && executionEvidence == Evidence(received)
      && outputBytes == Output(received)
    }

    constructor ()
      ensures Valid() && received == []
    {
      accepted, executionEvidence, outputBytes, received := false, false, 0, [];
    }

    method HandleMessage(message: Message) returns (r: Handling)
      requires Valid()
      modifies this
      ensures received == old(received) + [message]
      ensures r.Continue? ==> Valid()
      ensures r.Complete? ==> StopsAt(received, |old(received)|, r.outcome)
    {
      hide Open, StopsAt, Accepted, Evidence, Output;
      var past := received;
      received := past + [message];
      Extend(past, message);
      Stops(past, message);
      match message {
        case Success =>
          if !accepted {
            accepted := true;
            return Continue;
          }
          return Complete(CONNECTION_LOST);
        case Failure =>
          if !accepted && !executionEvidence {
            return Complete(NotDispatched(Rejected));
          }
          return Complete(CONNECTION_LOST);
        case ExitStatus(status) =>
          return Complete(Confirmed(status == 0));
        case ExitSignal =>
          return Complete(Confirmed(false));
        case Data(length) =>
          executionEvidence := true;
          outputBytes := Common.SaturatingAdd(outputBytes, length);
          if outputBytes > OUTPUT_LIMIT {
            return Complete(Unknown(OutputLimit));
          }
          return Continue;
        case Eof =>
          return Continue;
        case WindowAdjusted =>
          return Continue;
        case Close =>
          return Complete(CONNECTION_LOST);
        case Other =>
          if !accepted {
            return Complete(CONNECTION_LOST);
          }
          return Continue;
      }
    }
  }

  /**
   Reads messages until one decides or the stream ends. `within` is how many
   messages arrive before the request future is dropped; then there is no outcome.
   */
  method AwaitOutcome(trace: seq<Message>, within: nat) returns (r: Handling)
    ensures r.Complete? ==> Decides(trace, r.outcome)
    ensures r.Complete? && within <= |trace| ==> exists k: nat :: k < within && StopsAt(trace, k, r.outcome)
    ensures r.Continue? ==> within <= |trace| && Open(trace[..within])
  {
    var receiver := new Receiver();
    var i := 0;
    while i < within
      invariant i <= within && i <= |trace|
      invariant fresh(receiver) && receiver.Valid() && receiver.received == trace[..i]
      decreases within - i
    {
      if i == |trace| {
        assert StopsAt(trace, |trace|, CONNECTION_LOST);
        return Complete(CONNECTION_LOST);
      }
      r := receiver.HandleMessage(trace[i]);
      assert trace[..i] + [trace[i]] == trace[..i + 1];
      if r.Complete? {
        StopCarries(trace, i, r.outcome);
        return;
      }
      i := i + 1;
    }
    r := Continue;
  }

  // ----- Dispatch -----

  datatype Opening = Opened | OpenFailed | OpenTimedOut | OpenCancelled | LifetimeEnded

  datatype Interrupt = Interrupt(afterMessages: nat, reason: UnknownReason)

  /**
   What the environment does during one dispatch: the connection and the caller
   before it, the attempt to open a channel, whether the exec request could be
   written, the messages that come back, and possibly the event that drops the
   request (the caller's cancellation, the end of the connection, the deadline).
   With `written` false, such an event comes while the request is being written.
   */
  datatype Environment = Environment(
    closed: bool, cancelled: bool, opening: Opening, written: bool, trace: seq<Message>,
    interrupt: Common.Option<Interrupt>)

  ghost predicate Possible(env: Environment) {
    env.interrupt.Some? ==> !env.interrupt.value.reason.OutputLimit?
  }

  /** How many messages are read at most. */
  function Budget(env: Environment): nat {
    if env.interrupt.Some? then env.interrupt.value.afterMessages else |env.trace| + 1
  }

  /** The request is dropped while the channel is still being read. */
  ghost predicate Dropped(env: Environment) {
    Budget(env) <= |env.trace| && Open(env.trace[..Budget(env)])
  }

  /**
   `requested` becomes true just before the exec request is issued: from there on the
   command may run on the host.
   */
  method Dispatch(env: Environment) returns (r: TransportOutcome, requested: bool)
    requires Possible(env)
    ensures requested <==> !env.closed && !env.cancelled && env.opening.Opened?
    ensures !requested ==> r.NotDispatched? && !r.why.Rejected?
    ensures Classify(r).Cancelled? <==> !env.closed && (env.cancelled || env.opening.OpenCancelled?)
    ensures r == NotDispatched(NotDispatchedReason.Timeout) <==>
      !env.closed && !env.cancelled && env.opening.OpenTimedOut?
    ensures requested && !r.Unknown? ==> env.written && Decides(env.trace, r)
    ensures requested && env.interrupt.None? ==>
      if env.written then Decides(env.trace, r) else r == CONNECTION_LOST
    ensures requested && env.interrupt.Some? && (env.written ==> Dropped(env)) ==>
      r == Unknown(env.interrupt.value.reason)
    ensures requested && env.interrupt.Some? && env.written && !Dropped(env) ==> Decides(env.trace, r)
  {
    requested := false;
    if env.closed { return NotDispatched(Connection), false; }
    if env.cancelled { return NotDispatched(NotDispatchedReason.Cancelled), false; }
    match env.opening {
      case OpenCancelled => return NotDispatched(NotDispatchedReason.Cancelled), false;
      case LifetimeEnded => return NotDispatched(Connection), false;
      case OpenTimedOut => return NotDispatched(NotDispatchedReason.Timeout), false;
      case OpenFailed => return NotDispatched(Connection), false;
      case Opened =>
    }
    requested := true;
    if !env.written {
      r := if env.interrupt.Some? then Unknown(env.interrupt.value.reason) else CONNECTION_LOST;
    } else {
      var handling := AwaitOutcome(env.trace, Budget(env));
      if handling.Complete? {
        r := handling.outcome;
        if env.interrupt.Some? && Budget(env) <= |env.trace| {
          ghost var k: nat :| k < Budget(env) && StopsAt(env.trace, k, r);
          StopIsFirst(env.trace, k, r);
          ClosedStays(env.trace, k + 1, Budget(env));
        }
      } else {
        r := Unknown(env.interrupt.value.reason);
      }
    }
  }

  // ----- What an outcome says -----

  /**
   For the outcome of a trace: it is a refusal exactly when only end-of-file and
   window messages come before a failure message, and a success exactly when exit
   status 0 is reported on an open channel.
   */
  lemma OutcomeMeans(trace: seq<Message>, o: TransportOutcome)
    requires Decides(trace, o)
    ensures o == NotDispatched(Rejected) <==> exists k: nat :: RefusedAt(trace, k)
    ensures Classify(o).Success? <==> exists k: nat :: ExitAt(trace, k, true)
    ensures o == Unknown(OutputLimit) <==> exists k: nat :: OverflowAt(trace, k)
    ensures o == CONNECTION_LOST <==> exists k: nat :: LostAt(trace, k)
    ensures Classify(o).Failed? <==>
      (exists k: nat :: ExitAt(trace, k, false)) || (exists k: nat :: RefusedAt(trace, k))
    ensures Classify(o).OutcomeUnknown? <==>
      (exists k: nat :: OverflowAt(trace, k)) || (exists k: nat :: LostAt(trace, k))
  {
    if k: nat :| ExitAt(trace, k, false) { DecidedAt(trace, o, k, Confirmed(false)); }
    if k: nat :| RefusedAt(trace, k) { DecidedAt(trace, o, k, NotDispatched(Rejected)); }
    if k: nat :| ExitAt(trace, k, true) { DecidedAt(trace, o, k, Confirmed(true)); }
    if k: nat :| OverflowAt(trace, k) { DecidedAt(trace, o, k, Unknown(OutputLimit)); }
    if k: nat :| LostAt(trace, k) { DecidedAt(trace, o, k, CONNECTION_LOST); }
  }

  /** Once the command was accepted or produced output, only an exit message gives certainty. */
  lemma WithoutExitIsUnknown(trace: seq<Message>, o: TransportOutcome, k: nat)
    requires StopsAt(trace, k, o)
    requires Accepted(trace[..k]) || Evidence(trace[..k])
    requires k < |trace| ==> !Exit(trace[k])
    ensures Classify(o).OutcomeUnknown?
  {
    if o.NotDispatched? {
      QuietIsOpen(trace[..k]);
      OpenWithoutEvidence(trace[..k]);
    }
  }
}
