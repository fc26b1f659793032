/**
 What a transfer is approved to do, what it has done so far, and what must fit together while it runs.
 `StagedTransfer` is the code; this module holds everything about it that is a value.
 */
module TransferTrace {
  import opened Common
  import opened TaskProtocol
  import opened RemotePaths
  import opened RemoteFiles

  // ----- Specifications -----

  datatype DestinationAction<T> = SkipExisting | CreateNew | ReplaceExisting(expected: T)

  datatype Spec =
    | Upload(input: seq<byte>, size: nat, destination: string, action: DestinationAction<EntryIdentity>)
    | EditorSave(bytes: seq<byte>, expected: EditorRevision, original: seq<byte>, path: string)
    | Download(source: string, identity: EntryIdentity, expectedSize: Option<nat>,
               fileName: string, localAction: DestinationAction<nat>)

  predicate IsSkip(spec: Spec) {
    (spec.Upload? && spec.action.SkipExisting?) || (spec.Download? && spec.localAction.SkipExisting?)
  }

  predicate CreatesNew(spec: Spec) {
    (spec.Upload? && spec.action.CreateNew?) || (spec.Download? && spec.localAction.CreateNew?)
  }

  function Approved<T>(action: DestinationAction<T>): Option<T> {
    if action.ReplaceExisting? then Some(action.expected) else None
  }

  /** The remote path that a transfer is about, and the local name it may write. */
  function SubjectOf(spec: Spec): string {
    match spec
    case Upload(_, _, destination, _) => destination
    case EditorSave(_, _, _, path) => path
    case Download(source, _, _, _, _) => source
  }

  function LocalName(spec: Spec): string {
    if spec.Download? then spec.fileName else ""
  }

  function DestinationOf(spec: Spec): string {
    if spec.Download? then spec.fileName else SubjectOf(spec)
  }

  /** The content a confirmed commit of `spec` must have put at the destination. */
  predicate Approves(spec: Spec, content: seq<byte>) {
    match spec
    case Upload(input, size, _, _) => content == input && |input| == size
    case EditorSave(bytes, _, _, _) => content == bytes
    case Download(_, _, size, _, _) => size.Some? ==> |content| == size.value
  }

  /** The terminal state that `spawn_job` assigns to the result of `run_transfer`. */
  function OutcomeOf(r: Result<()>): TransferState {
    match r
    case Ok(_) => TransferState.Completed
    case Err(code) =>
      if code.Cancelled? then TransferState.Cancelled
      else if code.OutcomeUnknown? then TransferState.OutcomeUnknown
      else TransferState.Failed
  }

  predicate Plain(code: ErrorCode) {
    !code.OutcomeUnknown? && !code.Cancelled?
  }

  /** The server has the extension that the commit needs. */
  predicate Supported(action: DestinationAction<EntryIdentity>, hardlink: bool, posixRename: bool) {
    if action.CreateNew? then hardlink else posixRename
  }

  /** What stands in the way of a transfer whatever the environment does, seen from the call alone. */
  predicate CanSucceed(spec: Spec, hardlink: bool, posixRename: bool, id: string) {
    match spec
    case Upload(input, size, destination, action) =>
      && Supported(action, hardlink, posixRename) && |input| == size <= U64_MAX
      && StagingPath(destination, PartName(id)).Ok?
    case EditorSave(bytes, _, _, path) => posixRename && |bytes| <= U64_MAX && StagingPath(path, EditName(id)).Ok?
    case Download(source, _, _, _, _) => ValidPath(source) && Listable(source)
  }

  predicate TooLarge(revision: EditorRevision) {
    revision.identity.size.Some? && revision.identity.size.value > MAX_EDITOR_BYTES
  }

  // ----- What a task has done -----

  /** What the task made sure of: each step that had to succeed before a commit, and what it found. */
  datatype Sight =
    | SawEntry(name: string, identity: Option<EntryIdentity>)
    | SawRevision(name: string, revision: EditorRevision)
    | ReadDocument(name: string, content: seq<byte>)
    | SawLocal(name: string, file: Option<nat>)
    | CheckedLocal                            // the local source or directory is still the selected one
    | Synced                                  // the server confirmed that the staged bytes are on disk
    | ClosedStaging                           // the server confirmed that the staging file is closed
    | KeptMetadata(revision: EditorRevision)  // the staging file has the owner and permissions of the original
    | ReadAll                                 // the source was read to its end, closed and flushed
    | SyncedLocal                             // the local temporary file is on disk

  /** A file was opened for reading: what its name denoted at that moment. */
  datatype Opening = Opening(name: string, content: seq<byte>)

  /**
   A commit request: what the destination saw, what the client was told, all it had made sure of, the
   files it had read, and whether these stayed as they were while they were read and were read to their end.
   */
  datatype Commit = Commit(target: string, executed: bool, reply: Reply, content: seq<byte>, clobbered: bool,
                           looks: seq<Sight>, moments: seq<World>, files: seq<Opening>, steady: bool)

  /** What really happened on the server, independently of what the client was told. */
  datatype Ledger = Ledger(
    inode: nat,            // the file object of the confirmed creation
    written: seq<byte>,    // the bytes of all executed writes, in order
    commits: seq<Commit>,  // the commit requests sent
    removals: nat,         // removals asked for by the staging guard
    absent: bool           // the server confirmed that the staging name is gone
  )

  const EMPTY_LEDGER := Ledger(0, [], [], 0, false)

  /** The job's record in the manager, and its cancellation token. */
  datatype Job = Job(state: TransferState, token: bool)

  /** The staging guard. */
  datatype Guard = Guard(armed: bool, owned: bool, unconfirmed: bool)

  datatype Trace = Trace(
    phase: Phase,
    log: seq<Action>,        // the actions that changed the phase, in order
    book: Ledger,
    looks: seq<Sight>,
    moments: seq<World>,     // the outside at the time of each look
    files: seq<Opening>,
    changed: bool,           // a file changed while it was being read, or the server ended it too early
    tampered: bool           // another writer changed the owned staging file before the commit
  )

  const NOTHING_DONE := Trace(Idle, [], EMPTY_LEDGER, [], [], [], false, false)

  function Acted(t: Trace, a: Action): Trace
    requires Allowed(t.phase, a)
  {
    t.(phase := Next(t.phase, a), log := t.log + [a])
  }

  /** The task changed nothing, and made sure of `seen`. */
  ghost predicate OnlySaw(t: Trace, u: Trace, seen: seq<Sight>) {
    && u == t.(looks := t.looks + seen, moments := u.moments, tampered := u.tampered)
    && (seen == [] ==> u.moments == t.moments)
  }

  /** The task changed nothing: it looked and read. */
  ghost predicate OnlyRead(t: Trace, u: Trace) {
    && u == t.(looks := u.looks, moments := u.moments, files := u.files, changed := u.changed, tampered := u.tampered)
    && (t.changed ==> u.changed)
  }

  /** Every commit was sent to `target`, after these looks, and after reading these files. */
  ghost predicate Sent(b: Ledger, target: string, looks: seq<Sight>, files: seq<Opening>, steady: bool) {
    forall c <- b.commits :: c.target == target && c.looks == looks && c.files == files && c.steady == steady
  }

  // ----- What a look is worth -----

  /** What the environment answered at the point that led to `w`. */
  function AnswerAt(w: World): Env
    requires w.now > 0
  {
    w.script(w.now - 1)
  }

  function LocalIdentityAt(files: LocalFiles, name: string): Option<nat> {
    if name in files then Some(files[name].identity) else None
  }

  /** The sight is what the environment answered and what there was to be seen in `w`. */
  ghost predicate Answered(s: Sight, w: World)
    requires w.now > 0
  {
    var e := AnswerAt(w);
    match s
    case SawEntry(name, identity) =>
      || (e.fate.Perform? && identity == IdentityAt(EntryAt(w.remote, User(name))))
      || (e.fate == Refuse(NoSuchFile) && identity.None?)
    case SawRevision(name, revision) =>
      var entry := EntryAt(w.remote, User(name));
      e.fate.Perform? && entry.Some? && RevisionOf(entry.value.1.attributes) == Some(revision)
    case ReadDocument(_, _) => e.fate.Perform?
    case SawLocal(name, file) => e.localOk && file == LocalIdentityAt(w.local, name)
    case CheckedLocal => e.localOk
    case Synced => e.fate.Perform?
    case ClosedStaging => e.fate.Perform?
    case KeptMetadata(revision) =>
      var staging := EntryAt(w.remote, Staging);
      e.fate.Perform? && staging.Some? && Preserves(staging.value.1.attributes, revision)
    case ReadAll => e.fate.Perform? && e.localOk
    case SyncedLocal => e.localOk
  }

  /** Each of the looks was really answered, one after the other, before point `now` of the script. */
  ghost predicate Heard(looks: seq<Sight>, moments: seq<World>, script: nat -> Env, now: nat) {
    && |moments| == |looks|
    && (forall i :: 0 <= i < |moments| ==>
          0 < moments[i].now <= now && moments[i].script == script && Answered(looks[i], moments[i]))
    && (forall i, j :: 0 <= i < j < |moments| ==> moments[i].now <= moments[j].now)
  }

  /** So were all that a commit was sent after. */
  ghost predicate AllHeard(looks: seq<Sight>, moments: seq<World>, commits: seq<Commit>, script: nat -> Env, now: nat) {
    && Heard(looks, moments, script, now)
    && forall c <- commits :: Heard(c.looks, c.moments, script, now)
  }

  lemma HeardLater(looks: seq<Sight>, moments: seq<World>, commits: seq<Commit>, script: nat -> Env, now: nat)
    requires AllHeard(looks, moments, commits, script, now)
    ensures AllHeard(looks, moments, commits, script, now + 1)
  {
    hide Answered;
  }

  function Repeated(w: World, n: nat): seq<World> {
    seq(n, _ => w)
  }

  lemma HeardMore(looks: seq<Sight>, moments: seq<World>, commits: seq<Commit>, w: World, seen: seq<Sight>)
    requires AllHeard(looks, moments, commits, w.script, w.now) && w.now > 0
    requires forall s <- seen :: Answered(s, w)
    ensures AllHeard(looks + seen, moments + Repeated(w, |seen|), commits, w.script, w.now)
  {
    hide Answered;
  }

  lemma HeardCommit(looks: seq<Sight>, moments: seq<World>, script: nat -> Env, now: nat, c: Commit)
    requires Heard(looks, moments, script, now) && c.looks == looks && c.moments == moments
    ensures AllHeard(looks, moments, [c], script, now)
  {
    hide Answered;
  }

  // ----- Who cancelled -----

  /** Somebody asked for a cancellation between two points of the script. */
  ghost predicate Asked(script: nat -> Env, start: nat, now: nat) {
    exists n :: start <= n < now && script(n).cancel
  }

  /** A token that was set before the task stays set, and it is set only if somebody asked. */
  ghost predicate Explained(token: bool, before: bool, script: nat -> Env, start: nat, now: nat) {
    && start <= now
    && (before ==> token)
    && (token ==> before || Asked(script, start, now))
  }

  lemma ExplainedLater(j: Job, before: bool, script: nat -> Env, start: nat, now: nat)
    requires Explained(j.token, before, script, start, now)
    ensures Explained(Requested(j, script(now).cancel).token, before, script, start, now + 1)
  {
  }

  // ----- What must have happened before a commit -----

  /** What a complete staging file has been through. */
  function Stored(fsync: bool): seq<Sight> {
    if fsync then [Synced, ClosedStaging] else [ClosedStaging]
  }

  /** An upload looks once at what it replaces, and twice at what it must not replace. */
  function DestinationLooks(destination: string, action: DestinationAction<EntryIdentity>): seq<Sight> {
    var look := SawEntry(destination, Approved(action));
    if action.CreateNew? then [look, look] else [look]
  }

  function FinalLooks(destination: string, action: DestinationAction<EntryIdentity>): seq<Sight> {
    [CheckedLocal] + DestinationLooks(destination, action)
  }

  function UploadLooks(destination: string, action: DestinationAction<EntryIdentity>, fsync: bool): seq<Sight> {
    [CheckedLocal] + Stored(fsync) + FinalLooks(destination, action)
  }

  /** The destination of a save is looked at, and then read. */
  function DocumentLooks(path: string, expected: EditorRevision, original: seq<byte>): seq<Sight> {
    [SawRevision(path, expected), ReadDocument(path, original)]
  }

  function EditorLooks(path: string, expected: EditorRevision, original: seq<byte>, fsync: bool): seq<Sight> {
    var looks := DocumentLooks(path, expected, original);
    looks + Stored(fsync) + ([KeptMetadata(expected)] + looks + looks)
  }

  function SourceLooks(source: string, identity: EntryIdentity): seq<Sight> {
    var look := SawEntry(source, Some(identity));
    [look, CheckedLocal, ReadAll, look, SyncedLocal]
  }

  function TargetLooks(fileName: string, action: DestinationAction<nat>): seq<Sight> {
    [CheckedLocal, SawLocal(fileName, Approved(action))]
  }

  /** Everything that must have succeeded, in this order and as approved, before the commit is sent. */
  function ApprovedLooks(spec: Spec, fsync: bool): seq<Sight> {
    match spec
    case Upload(_, _, destination, action) => UploadLooks(destination, action, fsync)
    case EditorSave(_, expected, original, path) => EditorLooks(path, expected, original, fsync)
    case Download(source, identity, _, fileName, action) =>
      SourceLooks(source, identity) + TargetLooks(fileName, action)
  }

  function Thrice(o: Opening): seq<Opening> {
    [o, o, o]
  }

  /** What the files that were read must have contained when they were opened. */
  function ApprovedOpenings(spec: Spec, content: seq<byte>): seq<Opening> {
    match spec
    case Upload(_, _, _, _) => []
    case EditorSave(_, _, original, path) => Thrice(Opening(path, original))
    case Download(source, _, _, _, _) => [Opening(source, content)]
  }

  /** Every commit goes where it was approved to go, after every check, and of what was really read. */
  ghost predicate SentAsApproved(b: Ledger, spec: Spec, fsync: bool) {
    forall c <- b.commits ::
      && c.target == DestinationOf(spec)
      && c.looks == ApprovedLooks(spec, fsync)
      && (c.steady ==> c.files == ApprovedOpenings(spec, c.content))
  }

  lemma SentAreApproved(b: Ledger, spec: Spec, fsync: bool, files: seq<Opening>, steady: bool)
    requires Sent(b, DestinationOf(spec), ApprovedLooks(spec, fsync), files, steady)
    requires steady ==> forall c <- b.commits :: files == ApprovedOpenings(spec, c.content)
    ensures SentAsApproved(b, spec, fsync)
  {
  }

  // ----- What holds between the code's steps -----

  /** Finalizing and an accepted cancellation exclude each other. */
  ghost predicate StateMatches(p: Phase, b: Ledger, state: TransferState, token: bool) {
    && !Terminal(state)
    && (PastFinalizing(p) || b.commits != [] ==> state.Finalizing?)
    && (state.CancelRequested? ==> token)
    && (state.Finalizing? ==> !token)
  }

  ghost predicate GuardMatches(p: Phase, b: Ledger, armed: bool, owned: bool, unconfirmed: bool) {
    && (HoldsStaging(p) ==> armed && owned)
    && (owned ==> HoldsStaging(p) || p.Committed? || p.Settled?)
    && (p.Settled? ==> owned && !armed && (b.absent || unconfirmed))
    && (unconfirmed ==> p.Settled?)
  }

  ghost predicate NoEffect(b: Ledger) {
    forall c <- b.commits :: !c.executed && !c.reply.Lost?
  }

  ghost predicate BookMatches(p: Phase, b: Ledger) {
    && |b.commits| <= 1
    && b.removals == (if p.Settled? then 1 else 0)
    && match p
       case Linked | Committed => b.commits != [] && b.commits[0].executed && b.commits[0].reply.Confirmed?
       case CommitFailed(_, maybe) => maybe || NoEffect(b)
       case Settled(maybe) => maybe || NoEffect(b)
       case _ => b.commits == []
  }

  /** Untampered, the staging file holds the executed writes, and so did every commit. */
  ghost predicate ContentMatches(p: Phase, b: Ledger, fs: FileSystem) {
    && (p.Owned? || p == Final(true) ==> Staged(fs) == Some((b.inode, b.written)))
    && (b.commits != [] && b.commits[0].executed ==> b.commits[0].content == b.written)
  }

  ghost predicate Consistent(t: Trace, j: Job, g: Guard, fs: FileSystem) {
    && Replay(t.log) == Some(t.phase)
    && StateMatches(t.phase, t.book, j.state, j.token)
    && GuardMatches(t.phase, t.book, g.armed, g.owned, g.unconfirmed)
    && BookMatches(t.phase, t.book)
    && (!t.tampered ==> ContentMatches(t.phase, t.book, fs))
  }

  /** How a commit reports: confirmed, certainly without effect, or unknown. */
  ghost predicate CommitResult(r: Result<()>, p: Phase) {
    match r
    case Ok(_) => p.Committed?
    case Err(code) =>
      && !code.Cancelled?
      && (p == Final(true) || (p.CommitFailed? && p.owned))
      && (code.OutcomeUnknown? <==> p == CommitFailed(true, true))
  }

  ghost predicate Unclobbered(b: Ledger) {
    forall c <- b.commits :: !c.clobbered
  }

  /** Whether the environment touched a staging file that the task is filling or about to commit. */
  predicate Tampers(t: Trace, before: FileSystem, after: FileSystem) {
    (t.phase.Owned? || t.phase == Final(true)) && Staged(after) != Staged(before)
  }

  function Requested(j: Job, cancel: bool): Job {
    if cancel && Cancellable(j.state) then Job(TransferState.CancelRequested, true) else j
  }

  // ----- Each step keeps it -----

  lemma TickKeeps(t: Trace, j: Job, g: Guard, fs: FileSystem, after: FileSystem, cancel: bool)
    requires Consistent(t, j, g, fs)
    ensures Consistent(t.(tampered := t.tampered || Tampers(t, fs, after)), Requested(j, cancel), g, after)
  {
    hide Replay, GuardMatches, BookMatches;
  }

  /** What was looked at or read is no matter of consistency. */
  lemma SeeKeeps(t: Trace, j: Job, g: Guard, fs: FileSystem,
                 looks: seq<Sight>, moments: seq<World>, files: seq<Opening>, changed: bool)
    requires Consistent(t, j, g, fs)
    ensures Consistent(t.(looks := looks, moments := moments, files := files, changed := changed), j, g, fs)
  {
  }

  /** Neither is anything on the server but the staging file. */
  lemma SameStagedKeeps(t: Trace, j: Job, g: Guard, fs: FileSystem, after: FileSystem)
    requires Consistent(t, j, g, fs) && Staged(after) == Staged(fs)
    ensures Consistent(t, j, g, after)
  {
    hide Replay, StateMatches, GuardMatches, BookMatches;
  }

  lemma CreateKeeps(t: Trace, j: Job, g: Guard, reply: Reply, handle: nat, fs: FileSystem, after: FileSystem)
    requires Consistent(t, j, g, fs) && t.phase.Streaming? && g.armed && !g.owned && t.book == EMPTY_LEDGER
    requires reply.Confirmed? ==> Staged(after) == Some((handle, []))
    ensures Consistent(Acted(t, Create(reply)).(book := t.book.(inode := handle)), j,
                       g.(owned := reply.Confirmed?), after)
  {
    hide Replay;
    ReplayExtends(t.log, Create(reply));
  }

  lemma OwnedContent(t: Trace, j: Job, g: Guard, fs: FileSystem)
    requires Consistent(t, j, g, fs) && (t.phase.Owned? || t.phase == Final(true))
    ensures !t.tampered ==> Staged(fs) == Some((t.book.inode, t.book.written))
    ensures t.book.commits == []
  {
    hide Replay, StateMatches, GuardMatches;
  }

  lemma WriteKeeps(t: Trace, j: Job, g: Guard, fs: FileSystem, written: seq<byte>, after: FileSystem)
    requires Consistent(t, j, g, fs) && t.phase.Owned?
    requires !t.tampered ==> Staged(after) == Some((t.book.inode, written))
    ensures Consistent(t.(book := t.book.(written := written)), j, g, after)
  {
    hide Replay;
  }

  /** A commit request, whichever it is. */
  lemma CommitKeeps(t: Trace, j: Job, g: Guard, fs: FileSystem, a: Action, c: Commit, after: FileSystem)
    requires Consistent(t, j, g, fs) && IsCommit(a) && Allowed(t.phase, a) && c.reply == a.reply
    requires c.reply.Confirmed? ==> c.executed
    requires c.reply.Refused? ==> !c.executed
    requires c.executed && !t.tampered ==> c.content == t.book.written
    ensures Consistent(Acted(t, a).(book := t.book.(commits := [c])), j, g, after)
  {
    hide Replay;
    ReplayExtends(t.log, a);
  }

  lemma UnlinkKeeps(t: Trace, j: Job, g: Guard, fs: FileSystem, reply: Reply, after: FileSystem)
    requires Consistent(t, j, g, fs) && t.phase.Linked?
    ensures Consistent(Acted(t, Unlink(reply)), j, g, after)
  {
    hide Replay;
    ReplayExtends(t.log, Unlink(reply));
  }

  lemma RemoveKeeps(t: Trace, j: Job, g: Guard, fs: FileSystem, ok: bool, after: FileSystem)
    requires Consistent(t, j, g, fs) && g.owned && Allowed(t.phase, GuardRemove(ok))
    ensures Consistent(Acted(t, GuardRemove(ok)).(book := t.book.(removals := 1, absent := ok)), j,
                       g.(armed := false, unconfirmed := g.unconfirmed || !ok), after)
  {
    hide Replay;
    ReplayExtends(t.log, GuardRemove(ok));
  }

  /** The guard is armed for what it owns exactly as long as there is something to remove. */
  lemma GuardHolds(t: Trace, j: Job, g: Guard, fs: FileSystem)
    requires Consistent(t, j, g, fs)
    ensures HoldsStaging(t.phase) ==> g.armed && g.owned
    ensures g.armed && g.owned && !t.phase.Linked? && !t.phase.Committed? ==> Allowed(t.phase, GuardRemove(true))
  {
    hide Replay, BookMatches, StateMatches, ContentMatches;
  }

  lemma ArmKeeps(t: Trace, j: Job, g: Guard, fs: FileSystem)
    requires Consistent(t, j, g, fs) && t.phase.Idle?
    ensures Consistent(t, j, g.(armed := true), fs) && !g.owned
  {
    hide Replay, BookMatches, StateMatches, ContentMatches;
  }

  lemma DisarmKeeps(t: Trace, j: Job, g: Guard, fs: FileSystem)
    requires Consistent(t, j, g, fs) && (t.phase.Committed? || !HoldsStaging(t.phase))
    ensures Consistent(t, j, g.(armed := false), fs)
  {
    hide Replay, BookMatches, StateMatches, ContentMatches;
  }

  lemma CancelHasToken(t: Trace, j: Job, g: Guard, fs: FileSystem)
    requires Consistent(t, j, g, fs)
    ensures j.state.CancelRequested? ==> j.token
  {
    hide Replay, BookMatches, GuardMatches, ContentMatches;
  }

  lemma FinalizeKeeps(t: Trace, j: Job, g: Guard, fs: FileSystem)
    requires Consistent(t, j, g, fs) && Allowed(t.phase, EnterFinalizing) && !j.token && !j.state.CancelRequested?
    ensures Consistent(Acted(t, EnterFinalizing), j.(state := TransferState.Finalizing), g, fs)
  {
    hide Replay;
    ReplayExtends(t.log, EnterFinalizing);
  }

  lemma ShowKeeps(t: Trace, j: Job, g: Guard, fs: FileSystem)
    requires Consistent(t, j, g, fs) && t.phase.Idle?
    ensures Consistent(Acted(t, SetTransferring), j.(state := TransferState.Transferring), g, fs)
  {
    hide Replay;
    ReplayExtends(t.log, SetTransferring);
  }

  lemma ReadKeeps(t: Trace, j: Job, g: Guard, fs: FileSystem, content: seq<byte>)
    requires Consistent(t, j, g, fs) && t.phase.Streaming?
    ensures Consistent(t.(book := t.book.(written := content)), j, g, fs)
  {
    hide Replay;
  }

  // ----- What it means for the outcome -----

  /** The outcome is honest about the destination, and about the staging file. */
  ghost predicate Honest(t: Trace, g: Guard, outcome: TransferState, spec: Spec) {
    && Terminal(outcome) && CanEnd(t.phase, outcome)
    && (outcome.Failed? || outcome.Cancelled? ==> NoEffect(t.book))
    && (outcome.Completed? ==>
          && |t.book.commits| == 1 && t.book.commits[0].executed && t.book.commits[0].reply.Confirmed?
          && (!t.tampered ==> Approves(spec, t.book.commits[0].content)))
    && |t.book.commits| <= 1
    && (t.book.commits != [] && t.book.commits[0].reply.Lost? ==> outcome.OutcomeUnknown?)
    && t.book.removals <= 1 && (t.book.removals == 1 ==> g.owned)
    && (g.owned ==> outcome.Completed? || t.book.absent || g.unconfirmed)
  }

  /** An approved skip is done without a single request. */
  lemma SkippingDoesNothing(spec: Spec, fsync: bool)
    ensures var t := Acted(NOTHING_DONE, Skip);
      && Replay(t.log) == Some(t.phase) && CanEnd(t.phase, TransferState.Completed)
      && t.book == EMPTY_LEDGER && SentAsApproved(t.book, spec, fsync)
  {
    ReplayExtends([], Skip);
  }

  lemma CommittedIsNotCancelled(t: Trace, j: Job, g: Guard, fs: FileSystem)
    requires Consistent(t, j, g, fs)
    ensures t.phase.Committed? ==> !j.token
  {
    hide Replay, GuardMatches, BookMatches, ContentMatches;
  }

  lemma OutcomeIsHonest(t: Trace, j: Job, g: Guard, fs: FileSystem, r: Result<()>, spec: Spec)
    requires Consistent(t, j, g, fs) && CanEnd(t.phase, OutcomeOf(r))
    requires r.Ok? ==> t.phase.Committed? && Approves(spec, t.book.written)
    ensures Honest(t, g, OutcomeOf(r), spec) && Replay(t.log) == Some(t.phase)
    ensures j.token ==> t.book.commits == []
  {
    hide Replay, Approves, Staged;
  }
}
