/**
 One transfer task, as the sequential code of the SFTP client and of the transfer runner, against an
 arbitrary environment. Before every request, and before every look at the cancellation token, the
 environment acts. The contracts hold for every script of the environment; the clauses that start with
 `old(Calm())` say what becomes of the task when nothing in the script stands in its way.
 */
module StagedTransfer {
  import opened Common
  import opened TaskProtocol
  import opened RemotePaths
  import opened RemoteFiles
  import opened TransferTrace
  import opened UndisturbedTransfers

  datatype StagedUploadResult =
    | Streamed(bytes: nat)
    | NotCreated(code: ErrorCode)
    | OwnedFailure(code: ErrorCode)
    | CreationOutcomeUnknown

  function Min(a: nat, b: nat): nat {
    if a < b then a else b
  }

  class TransferTask {
    // What the server supports, and the size of one write.
    const hardlink: bool
    const posixRename: bool
    const fsync: bool
    const chunk: nat

    // The job's identifier, which makes its staging name unique, and what it is approved to do.
    const id: string
    const spec: Spec

    // What the environment is going to do, and what had happened when the task started.
    const script: nat -> Env
    const start: nat
    const asked: bool

    var world: World
    var job: Job
    var guard: Guard
    ghost var trace: Trace

    ghost predicate Valid()
      reads this
    {
      && chunk > 0 && world.script == script && Consistent(trace, job, guard, world.remote)
      && AllHeard(trace.looks, trace.moments, trace.book.commits, script, world.now)
      && Explained(job.token, asked, script, start, world.now)
    }

    /** Nothing has stood in the way so far, and nothing is going to. */
    ghost predicate Calm()
      reads this
    {
      CalmFor(trace, world, spec)
    }

    ghost function Here(): Scene
      reads this`world
    {
      SceneOf(world, spec)
    }

    function Subject(): string {
      SubjectOf(spec)
    }

    /** The task holds its permits and its destination lock and has done nothing yet. */
    ghost predicate Ready()
      reads this
    {
      && Valid() && trace == NOTHING_DONE && guard == Guard(false, false, false)
      && start == world.now && asked == job.token
    }

    constructor (hardlink: bool, posixRename: bool, fsync: bool, chunk: nat, id: string, spec: Spec,
                 world: World, job: Job)
      requires chunk > 0
      requires job.state.Preparing? || (job.state.CancelRequested? && job.token)
      ensures Ready() && this.world == world && this.job == job && this.spec == spec && this.id == id
      ensures this.script == world.script
    {
      this.hardlink, this.posixRename, this.fsync, this.chunk := hardlink, posixRename, fsync, chunk;
      this.id, this.spec, this.world, this.job := id, spec, world, job;
      script, start, asked := world.script, world.now, job.token;
      guard, trace := Guard(false, false, false), NOTHING_DONE;
    }

    /** The environment acts; then the task learns what it decided. */
    method Tick() returns (e: Env)
      requires Valid()
      modifies this
      ensures Valid() && guard == old(guard) && OnlySaw(old(trace), trace, [])
      ensures e == script(old(world.now)) && world == Passed(old(world))
      ensures world.now == old(world.now) + 1 && AnswerAt(world) == e
      ensures job == Requested(old(job), e.cancel)
      ensures trace.tampered <==> old(trace.tampered) || Tampers(old(trace), old(world.remote), world.remote)
      ensures old(Calm()) ==> Calm() && Here() == old(Here()) && Obliging(e)
    {
      hide Consistent, AllHeard, Explained, Tampers, CalmFor, SceneOf;
      e := world.script(world.now);
      var passed := Passed(world);
      if Calm() { CalmTick(trace, world, spec); }
      TickKeeps(trace, job, guard, world.remote, passed.remote, e.cancel);
      HeardLater(trace.looks, trace.moments, trace.book.commits, script, world.now);
      ExplainedLater(job, asked, script, start, world.now);
      trace := trace.(tampered := trace.tampered || Tampers(trace, world.remote, passed.remote));
      world := passed;
      if e.cancel && Cancellable(job.state) { job := Job(TransferState.CancelRequested, true); }
    }

    /** The environment acts while a file is open for reading. */
    method TickReading(handle: nat) returns (e: Env)
      requires Valid()
      modifies this
      ensures Valid() && guard == old(guard)
      ensures OnlyRead(old(trace), trace) && trace.looks == old(trace.looks) && trace.files == old(trace.files)
      ensures trace.changed <==>
        old(trace.changed) || ContentOf(world.remote, handle) != old(ContentOf(world.remote, handle))
      ensures e == script(old(world.now)) && world.now == old(world.now) + 1
      ensures job == Requested(old(job), e.cancel)
      ensures old(Calm()) && old(Here()).remote.Some? && old(Here()).remote.value.0 == handle ==>
        Calm() && Here() == old(Here()) && Obliging(e) && !trace.changed
    {
      hide Consistent, AllHeard, Explained, CalmFor, SceneOf, Passed, Tampers;
      ghost var before := world.remote;
      if Calm() { CalmTick(trace, world, spec); }
      e := Tick();
      ghost var changed := trace.changed || ContentOf(world.remote, handle) != ContentOf(before, handle);
      SeeKeeps(trace, job, guard, world.remote, trace.looks, trace.moments, trace.files, changed);
      trace := trace.(changed := changed);
    }

    /** The task made sure of something: what the environment answered last, or what was there to be seen. */
    ghost method See(seen: seq<Sight>)
      requires Valid() && world.now > 0 && forall s <- seen :: Answered(s, world)
      modifies this`trace
      ensures Valid() && trace == old(trace).(looks := old(trace.looks) + seen, moments := trace.moments)
      ensures trace.moments == old(trace.moments) + Repeated(world, |seen|)
      ensures old(Calm()) ==> Calm()
    {
      hide Consistent, AllHeard, Explained, CalmFor, Answered;
      ghost var moments := trace.moments + Repeated(world, |seen|);
      ghost var after := trace.(looks := trace.looks + seen, moments := moments);
      if Calm() { CalmGoesOn(trace, world, spec, after); }
      SeeKeeps(trace, job, guard, world.remote, trace.looks + seen, moments, trace.files, trace.changed);
      HeardMore(trace.looks, trace.moments, trace.book.commits, world, seen);
      trace := after;
    }

    // ----- Looks and reads -----

    /** The local source or the local directory is still the selected one. */
    method CheckLocal() returns (ok: bool)
      requires Valid()
      modifies this
      ensures Valid() && guard == old(guard) && OnlySaw(old(trace), trace, if ok then [CheckedLocal] else [])
      ensures ok <==> script(old(world.now)).localOk
      ensures old(Calm()) ==> ok && Calm() && Here() == old(Here())
    {
      hide Consistent, AllHeard, Explained, CalmFor, SceneOf, Passed, Tampers;
      var e := Tick();
      if e.localOk { See([CheckedLocal]); }
      return e.localOk;
    }

    /** `identity`: an lstat whose "no such file" answer is a result, not an error. */
    method LookUp() returns (r: Result<Option<EntryIdentity>>)
      requires Valid() && Allowed(trace.phase, Inspect)
      modifies this
      ensures Valid() && guard == old(guard)
      ensures OnlySaw(old(trace), trace, if r.Ok? then [SawEntry(Subject(), r.value)] else [])
      ensures r.Ok? ==> ValidPath(Subject())
      ensures r.Ok? && r.value.Some? ==> r.value == IdentityAt(EntryAt(world.remote, User(Subject())))
      ensures r.Err? ==> Plain(r.code)
      ensures old(Calm()) && ValidPath(Subject()) ==>
        Calm() && Here() == old(Here()) && r == Ok(IdentityAt(Here().remote))
    {
      hide Consistent, AllHeard, Explained, CalmFor, EntryAt, IdentityAt, Passed, Tampers, ValidPath;
      if !ValidPath(Subject()) { return Err(FilePolicy); }
      var e := Tick();
      if e.fate.Perform? {
        r := Ok(IdentityAt(EntryAt(world.remote, User(Subject()))));
      } else if e.fate == Refuse(NoSuchFile) {
        r := Ok(None);
      } else {
        return Err(RequestError(e.fate));
      }
      See([SawEntry(Subject(), r.value)]);
    }

    /** `editor_revision`: only a regular file with complete metadata has one. */
    method EditorRevisionOf() returns (r: Result<EditorRevision>)
      requires Valid() && Allowed(trace.phase, Inspect)
      modifies this
      ensures Valid() && guard == old(guard) && OnlySaw(old(trace), trace, [])
      ensures r.Ok? ==>
        var entry := EntryAt(world.remote, User(Subject()));
        ValidPath(Subject()) && entry.Some? && RevisionOf(entry.value.1.attributes) == Some(r.value)
      ensures r.Ok? ==> world.now > 0 && AnswerAt(world).fate.Perform?
      ensures r.Err? ==> Plain(r.code)
      ensures old(Calm()) && ValidPath(Subject()) ==> Calm() && Here() == old(Here())
      ensures old(Calm()) && ValidPath(Subject()) && Here().remote.Some? ==>
        var revision := RevisionOf(Here().remote.value.1.attributes);
        revision.Some? ==> r == Ok(revision.value)
    {
      hide Consistent, AllHeard, Explained, CalmFor, EntryAt, RevisionOf, Passed, Tampers, ValidPath;
      if !ValidPath(Subject()) { return Err(FilePolicy); }
      var e := Tick();
      if !e.fate.Perform? { return Err(RequestError(e.fate)); }
      var entry := EntryAt(world.remote, User(Subject()));
      if entry.None? { return Err(NotFound); }
      var revision := RevisionOf(entry.value.1.attributes);
      return if revision.Some? then Ok(revision.value) else Err(FilePolicy);
    }

    /** Opens the subject for reading. */
    method Open() returns (r: Result<nat>, ghost content: seq<byte>)
      requires Valid() && Allowed(trace.phase, Inspect)
      modifies this
      ensures Valid() && guard == old(guard)
      ensures r.Err? ==> OnlySaw(old(trace), trace, []) && Plain(r.code)
      ensures r.Ok? ==>
        && trace == old(trace).(files := old(trace.files) + [Opening(Subject(), content)], tampered := trace.tampered)
        && ContentOf(world.remote, r.value) == Some(content)
      ensures old(Calm()) && old(Here()).remote.Some? ==>
        Calm() && Here() == old(Here()) && r.Ok? && IsOpen(Here(), r.value, content)
    {
      hide Consistent, AllHeard, Explained, CalmFor, Passed, Tampers;
      var e := Tick();
      if !e.fate.Perform? { return Err(RequestError(e.fate)), []; }
      var entry := EntryAt(world.remote, User(Subject()));
      if entry.None? { return Err(NotFound), []; }
      content := entry.value.1.content;
      ghost var after := trace.(files := trace.files + [Opening(Subject(), content)]);
      if Calm() { CalmGoesOn(trace, world, spec, after); }
      SeeKeeps(trace, job, guard, world.remote, trace.looks, trace.moments, after.files, trace.changed);
      trace := after;
      r := Ok(entry.value.0);
    }

    /** The attributes of an open file must still be those of `expected`. */
    method ConfirmRevision(handle: nat, expected: EditorRevision) returns (failure: Option<ErrorCode>)
      requires Valid() && Allowed(trace.phase, Inspect)
      modifies this
      ensures Valid() && guard == old(guard)
      ensures OnlyRead(old(trace), trace) && trace.looks == old(trace.looks) && trace.files == old(trace.files)
      ensures !trace.changed ==> ContentOf(world.remote, handle) == old(ContentOf(world.remote, handle))
      ensures failure.None? ==>
        handle in world.remote.nodes && Matches(world.remote.nodes[handle].attributes, expected)
      ensures failure.Some? ==> Plain(failure.value)
      ensures old(Calm()) && old(Here()).remote.Some? && old(Here()).remote.value.0 == handle ==>
        && Calm() && Here() == old(Here())
        && (Matches(Here().remote.value.1.attributes, expected) ==> failure.None?)
    {
      hide Consistent, AllHeard, Explained, CalmFor, Matches;
      var e := TickReading(handle);
      if !e.fate.Perform? { return Some(RequestError(e.fate)); }
      if handle !in world.remote.nodes { return Some(SftpProtocol); }
      return if Matches(world.remote.nodes[handle].attributes, expected) then None else Some(ErrorCode.Conflict);
    }

    /** One read request. A server that answers Eof ends the file, whether or not it is at its end. */
    method ReadAt(handle: nat, offset: nat) returns (r: Result<seq<byte>>, e: Env)
      requires Valid()
      modifies this
      ensures Valid() && guard == old(guard) && job == Requested(old(job), e.cancel)
      ensures OnlyRead(old(trace), trace) && trace.looks == old(trace.looks) && trace.files == old(trace.files)
      ensures e == script(old(world.now)) && world.now == old(world.now) + 1
      ensures !trace.changed ==> ContentOf(world.remote, handle) == old(ContentOf(world.remote, handle))
      ensures r.Ok? <==> (e.fate.Perform? && handle in world.remote.nodes) || e.fate == Refuse(Eof)
      ensures r.Ok? && !trace.changed ==>
        handle in world.remote.nodes && Continues(world.remote.nodes[handle].content, offset, r.value)
      ensures r.Err? ==> Plain(r.code)
      ensures old(Calm()) && old(Here()).remote.Some? && old(Here()).remote.value.0 == handle ==>
        Calm() && Here() == old(Here()) && Obliging(e) && !trace.changed && r.Ok?
    {
      hide Consistent, AllHeard, Explained, CalmFor, SceneOf, Piece, RequestError, Passed;
      e := TickReading(handle);
      if Calm() && Here().remote.Some? { CalmSubjectIsThere(trace, world, spec); }
      if e.fate == Refuse(Eof) {
        ghost var early := handle !in world.remote.nodes || offset < |world.remote.nodes[handle].content|;
        SeeKeeps(trace, job, guard, world.remote, trace.looks, trace.moments, trace.files, trace.changed || early);
        trace := trace.(changed := trace.changed || early);
        return Ok([]), e;
      }
      if !e.fate.Perform? { return Err(RequestError(e.fate)), e; }
      if handle !in world.remote.nodes { return Err(SftpProtocol), e; }
      return Ok(Piece(world.remote.nodes[handle].content, offset, e.size)), e;
    }

    /** The read loop of `read_editor_bytes`: each read continues where the last one ended. */
    method ReadBounded(handle: nat, ghost content: seq<byte>) returns (failure: Option<ErrorCode>, bytes: seq<byte>)
      requires Valid()
      requires !trace.changed ==> ContentOf(world.remote, handle) == Some(content)
      modifies this
      ensures Valid() && guard == old(guard)
      ensures OnlyRead(old(trace), trace) && trace.looks == old(trace.looks) && trace.files == old(trace.files)
      ensures failure.None? ==> |bytes| <= MAX_EDITOR_BYTES && (!trace.changed ==> bytes == content)
      ensures failure.Some? ==> Plain(failure.value)
      ensures old(Calm()) && IsOpen(old(Here()), handle, content) && |content| <= MAX_EDITOR_BYTES ==>
        Calm() && Here() == old(Here()) && failure.None? && bytes == content
    {
      hide Consistent, AllHeard, Explained, CalmFor, SceneOf, Piece, RequestError;
      bytes, failure := [], None;
      while |bytes| <= MAX_EDITOR_BYTES
        invariant Valid() && guard == old(guard)
        invariant OnlyRead(old(trace), trace) && trace.looks == old(trace.looks) && trace.files == old(trace.files)
        invariant |bytes| <= MAX_EDITOR_BYTES + 1
        invariant !trace.changed ==> ContentOf(world.remote, handle) == Some(content) && bytes <= content
        invariant old(Calm()) && IsOpen(old(Here()), handle, content) ==>
          Calm() && Here() == old(Here()) && (bytes != [] ==> !trace.changed)
        decreases MAX_EDITOR_BYTES + 1 - |bytes|
      {
        var remaining := MAX_EDITOR_BYTES + 1 - |bytes|;
        var data, _ := ReadAt(handle, |bytes|);
        if data.Err? { return Some(data.code), bytes; }
        if data.value == [] { return None, bytes; }
        if |data.value| > remaining { return Some(FilePolicy), bytes; }
        bytes := bytes + data.value;
      }
      failure := Some(FilePolicy);
    }

    /** `read_editor_bytes`: a bounded read between two looks at the open file that show the same revision. */
    method ReadEditorBytes() returns (r: Result<seq<byte>>, ghost shown: Option<EditorRevision>)
      requires Valid() && Allowed(trace.phase, Inspect)
      modifies this
      ensures Valid() && guard == old(guard)
      ensures OnlyRead(old(trace), trace) && trace.looks == old(trace.looks)
      ensures r.Ok? ==> |r.value| <= MAX_EDITOR_BYTES && world.now > 0 && AnswerAt(world).fate.Perform?
      ensures r.Ok? ==> shown.Some? && !TooLarge(shown.value)
      ensures r.Ok? && !trace.changed ==> trace.files == old(trace.files) + [Opening(Subject(), r.value)]
      ensures r.Err? ==> Plain(r.code)
      ensures old(Calm()) && ValidPath(Subject()) && Readable(old(Here()).remote) ==>
        Calm() && Here() == old(Here()) && r == Ok(Here().remote.value.1.content)
    {
      hide Consistent, AllHeard, Explained, CalmFor, SceneOf, RevisionOf, Matches, ValidPath, EntryAt, ContentOf;
      hide TooLarge;
      hide Passed, Tampers;
      var before := EditorRevisionOf();
      if before.Err? { return Err(before.code), None; }
      shown := Some(before.value);
      if TooLarge(before.value) { return Err(FilePolicy), shown; }
      var open, content := Open();
      if open.Err? { return Err(open.code), shown; }
      if old(Calm()) && Readable(Here().remote) { RevisionMatches(Here().remote.value.1.attributes); }
      var failure, bytes, _ := ReadConfirmed(open.value, before.value, content);
      var close := Tick();
      if failure.Some? { return Err(failure.value), shown; }
      if !close.fate.Perform? { return Err(RequestError(close.fate)), shown; }
      return Ok(bytes), shown;
    }

    /** The part of `read_editor_bytes` that works on the open file. */
    method ReadConfirmed(handle: nat, before: EditorRevision, ghost content: seq<byte>)
      returns (failure: Option<ErrorCode>, bytes: seq<byte>, ghost first: FileSystem)
      requires Valid() && Allowed(trace.phase, Inspect)
      requires ContentOf(world.remote, handle) == Some(content)
      modifies this
      ensures Valid() && guard == old(guard)
      ensures OnlyRead(old(trace), trace) && trace.looks == old(trace.looks) && trace.files == old(trace.files)
      ensures failure.None? ==>
        && |bytes| <= MAX_EDITOR_BYTES && (!trace.changed ==> bytes == content)
        && handle in first.nodes && Matches(first.nodes[handle].attributes, before)
        && handle in world.remote.nodes && Matches(world.remote.nodes[handle].attributes, before)
      ensures failure.Some? ==> Plain(failure.value)
      ensures old(Calm()) && IsOpen(old(Here()), handle, content) && |content| <= MAX_EDITOR_BYTES &&
              Matches(old(Here()).remote.value.1.attributes, before) ==>
        Calm() && Here() == old(Here()) && failure.None? && bytes == content
    {
      hide Consistent, AllHeard, Explained, CalmFor, SceneOf, Matches, ContentOf;
      failure := ConfirmRevision(handle, before);
      first := world.remote;
      if failure.Some? { return failure, [], first; }
      failure, bytes := ReadBounded(handle, content);
      if failure.Some? { return failure, [], first; }
      failure := ConfirmRevision(handle, before);
    }

    /** The destination still has the approved revision and the approved bytes. */
    method CheckUnchanged(expected: EditorRevision, original: seq<byte>) returns (failure: Option<ErrorCode>)
      requires Valid() && Allowed(trace.phase, Inspect)
      modifies this
      ensures Valid() && guard == old(guard) && OnlyRead(old(trace), trace)
      ensures failure.None? ==>
        && ValidPath(Subject()) && |original| <= MAX_EDITOR_BYTES
        && trace.looks == old(trace.looks) + DocumentLooks(Subject(), expected, original)
        && (!trace.changed ==> trace.files == old(trace.files) + [Opening(Subject(), original)])
      ensures failure.Some? ==> Plain(failure.value)
      ensures old(Calm()) && ValidPath(Subject()) && DocumentAsApproved(old(Here()).remote, expected, original) ==>
        Calm() && Here() == old(Here()) && failure.None?
    {
      hide Consistent, AllHeard, Explained, CalmFor, SceneOf, RevisionOf, ValidPath, EntryAt, TooLarge;
      var current := EditorRevisionOf();
      if current.Err? { return Some(current.code); }
      if current.value != expected { return Some(ErrorCode.Conflict); }
      See([SawRevision(Subject(), current.value)]);
      var bytes, _ := ReadEditorBytes();
      if bytes.Err? { return Some(bytes.code); }
      if bytes.value != original { return Some(ErrorCode.Conflict); }
      See([ReadDocument(Subject(), bytes.value)]);
      return None;
    }

    // ----- The staging file -----

    /** The exclusive creation that establishes ownership of the staging file. */
    method CreateStaging() returns (reply: Reply, handle: nat, code: ErrorCode)
      requires Valid() && trace.phase.Streaming? && guard == Guard(true, false, guard.unconfirmed)
      requires trace.book == EMPTY_LEDGER
      modifies this
      ensures Valid() && guard == old(guard).(owned := reply.Confirmed?)
      ensures trace == Acted(old(trace), Create(reply)).(
                book := EMPTY_LEDGER.(inode := handle), tampered := trace.tampered)
      ensures Plain(code)
      ensures old(Calm()) && old(Here()).staging.None? ==>
        reply.Confirmed? && Calm() && Here() == old(Here()).(staging := Here().staging)
    {
      hide Consistent, AllHeard, Explained, CalmFor, CanCreate, EntryAt, Next, MapStatus, StatusOf, Passed, Tampers;
      var e := Tick();
      var fs := world.remote;
      handle := fs.next;
      if Calm() && Here().staging.None? { CalmCreate(trace, world, spec, NewFile(e)); }
      var (after, answer) := ServeCreate(fs, e);
      reply := answer;
      CreateKeeps(trace, job, guard, reply, handle, fs, after);
      world := world.(remote := after);
      trace := Acted(trace, Create(reply)).(book := EMPTY_LEDGER.(inode := handle));
      guard := guard.(owned := reply.Confirmed?);
      code := MapStatus(StatusOf(e.fate));
    }

    /** One write request on the open handle. */
    method Write(handle: nat, offset: nat, data: seq<byte>) returns (failure: Option<ErrorCode>)
      requires Valid() && trace.phase.Owned? && handle == trace.book.inode && offset == |trace.book.written|
      modifies this
      ensures Valid() && guard == old(guard)
      ensures OnlySaw(old(trace).(book := old(trace.book).(written := trace.book.written)), trace, [])
      ensures failure.None? ==> trace.book.written == old(trace.book.written) + data
      ensures failure.Some? ==> Plain(failure.value)
      ensures old(job.token) ==> job.token
      ensures old(Calm()) ==> failure.None? && Calm() && Here() == old(Here()).(staging := Here().staging)
    {
      hide Consistent, AllHeard, Explained, CalmFor, SceneOf, WriteAt, Passed, Tampers;
      var e := Tick();
      var fs := world.remote;
      if Calm() { CalmWrite(trace, world, spec, data, e); }
      var feasible := handle in fs.nodes;
      if Executes(e.fate, feasible) {
        var after := Written(fs, handle, offset, data, e);
        OwnedContent(trace, job, guard, fs);
        WriteAtEnd(trace.book.written, data);
        WriteKeeps(trace, job, guard, fs, trace.book.written + data, after);
        world := world.(remote := after);
        trace := trace.(book := trace.book.(written := trace.book.written + data));
      }
      failure := if ReplyTo(e.fate, feasible).Confirmed? then None else Some(RequestError(e.fate));
    }

    /** The streaming loop of `upload_staged`: confirmed writes at contiguous offsets. */
    method Stream(handle: nat, input: seq<byte>) returns (failure: Option<ErrorCode>, confirmed: nat)
      requires Valid() && trace.phase.Owned? && handle == trace.book.inode && trace.book.written == []
      modifies this
      ensures Valid() && guard == old(guard)
      ensures OnlySaw(old(trace).(book := old(trace.book).(written := trace.book.written)), trace, [])
      ensures failure.Some? ==> !failure.value.OutcomeUnknown? && (failure.value.Cancelled? ==> job.token)
      ensures old(job.token) ==> job.token
      ensures failure.None? ==> confirmed == |input| <= U64_MAX && trace.book.written == input
      ensures old(Calm()) && |input| <= U64_MAX ==>
        && Calm() && Here() == old(Here()).(staging := Here().staging)
        && (failure.Some? ==> failure.value.Cancelled?)
    {
      hide Consistent, AllHeard, Explained, CalmFor, SceneOf, RequestError, Passed, Tampers;
      confirmed, failure := 0, None;
      while confirmed < |input|
        invariant Valid() && guard == old(guard) && (old(job.token) ==> job.token)
        invariant OnlySaw(old(trace).(book := old(trace.book).(written := trace.book.written)), trace, [])
        invariant confirmed <= |input| && confirmed <= U64_MAX && trace.book.written == input[..confirmed]
        invariant old(Calm()) ==> Calm() && Here() == old(Here()).(staging := Here().staging)
      {
        var count;
        failure, count := ReadInput(|input| - confirmed);
        if failure.Some? { return; }
        failure := Write(handle, confirmed, input[confirmed..confirmed + count]);
        if failure.Some? { return; }
        assert input[..confirmed] + input[confirmed..confirmed + count] == input[..confirmed + count];
        if confirmed + count > U64_MAX { return Some(ErrorCode.Transfer), confirmed; }
        confirmed := confirmed + count;
      }
      // The read that finds the end of the input.
      var none;
      failure, none := ReadInput(0);
    }

    /** One read from the local input, in a race with the cancellation token. */
    method ReadInput(left: nat) returns (failure: Option<ErrorCode>, count: nat)
      requires Valid()
      modifies this
      ensures Valid() && guard == old(guard) && OnlySaw(old(trace), trace, [])
      ensures count <= left && (count == 0 <==> left == 0)
      ensures failure.Some? ==> !failure.value.OutcomeUnknown? && (failure.value.Cancelled? ==> job.token)
      ensures failure.None? ==> !old(job.token) && script(old(world.now)).localOk
      ensures old(job.token) ==> job.token
      ensures old(Calm()) ==> Calm() && Here() == old(Here()) && (failure.Some? ==> failure.value.Cancelled?)
    {
      hide Consistent, AllHeard, Explained, SceneOf, Passed, Tampers;
      count := Min(chunk, left);
      if job.token { return Some(ErrorCode.Cancelled), count; }
      var e := Tick();
      count := Min(1 + e.size, Min(chunk, left));
      if job.token && e.race { return Some(ErrorCode.Cancelled), count; }
      return if e.localOk then None else Some(LocalAccess), count;
    }

    /** `fsync@openssh.com` on the staging file. */
    method SyncStaging() returns (failure: Option<ErrorCode>)
      requires Valid() && trace.phase.Owned?
      modifies this
      ensures Valid() && guard == old(guard)
      ensures OnlySaw(old(trace), trace, if failure.None? then [Synced] else [])
      ensures failure.None? <==> script(old(world.now)).fate.Perform?
      ensures failure.Some? ==> Plain(failure.value)
      ensures old(job.token) ==> job.token
      ensures old(Calm()) ==> failure.None? && Calm() && Here() == old(Here())
    {
      hide Consistent, AllHeard, Explained, CalmFor, SceneOf, RequestError, Passed, Tampers;
      var e := Tick();
      if !e.fate.Perform? { return Some(RequestError(e.fate)); }
      See([Synced]);
      return None;
    }

    /** The close request on the staging file. */
    method CloseStaging() returns (failure: Option<ErrorCode>)
      requires Valid() && trace.phase.Owned?
      modifies this
      ensures Valid() && guard == old(guard)
      ensures OnlySaw(old(trace), trace, if failure.None? then [ClosedStaging] else [])
      ensures failure.None? <==> script(old(world.now)).fate.Perform?
      ensures failure.Some? ==> Plain(failure.value)
      ensures old(job.token) ==> job.token
      ensures old(Calm()) ==> failure.None? && Calm() && Here() == old(Here())
    {
      hide Consistent, AllHeard, Explained, CalmFor, SceneOf, RequestError, Passed, Tampers;
      var e := Tick();
      if !e.fate.Perform? { return Some(RequestError(e.fate)); }
      See([ClosedStaging]);
      return None;
    }

    /** `upload_staged`: exclusive creation, streaming, optional sync, close. */
    method UploadStaged(input: seq<byte>) returns (r: StagedUploadResult)
      requires Valid() && trace.phase.Streaming? && guard == Guard(true, false, guard.unconfirmed)
      requires trace.book == EMPTY_LEDGER
      modifies this
      ensures Valid() && trace.book.commits == []
      ensures trace.files == old(trace.files) && trace.changed == old(trace.changed)
      ensures match r
              case Streamed(n) =>
                && trace.phase.Owned? && n == |input| <= U64_MAX && trace.book.written == input
                && trace.looks == old(trace.looks) + Stored(fsync)
              case NotCreated(code) => trace.phase == Closed(false) && Plain(code)
              case OwnedFailure(code) =>
                trace.phase.Owned? && !code.OutcomeUnknown? && (code.Cancelled? ==> job.token)
              case CreationOutcomeUnknown => trace.phase == Closed(true)
      ensures old(Calm()) && old(Here()).staging.None? && |input| <= U64_MAX ==>
        && Calm() && Here() == old(Here()).(staging := Here().staging)
        && (r.Streamed? || (r.OwnedFailure? && r.code.Cancelled?))
    {
      hide Consistent, AllHeard, Explained, CalmFor, SceneOf, RequestError, Passed, Tampers;
      var reply, handle, code := CreateStaging();
      if reply.Refused? { return NotCreated(code); }
      if reply.Lost? { return CreationOutcomeUnknown; }
      var failure, confirmed := Stream(handle, input);
      if failure.None? && fsync {
        failure := SyncStaging();
      }
      var closing := CloseStaging();
      if failure.None? { failure := closing; }
      return if failure.Some? then OwnedFailure(failure.value) else Streamed(confirmed);
    }

    /** An lstat of the staging file. */
    method LookAtStaging() returns (r: Result<Attributes>)
      requires Valid() && trace.phase.Owned?
      modifies this
      ensures Valid() && guard == old(guard) && OnlySaw(old(trace), trace, [])
      ensures r.Ok? ==>
        var entry := EntryAt(world.remote, Staging);
        && entry.Some? && entry.value.1.attributes == r.value
        && world.now > 0 && AnswerAt(world).fate.Perform?
      ensures r.Err? ==> Plain(r.code)
      ensures old(Calm()) ==>
        Calm() && Here() == old(Here()) && Here().staging.Some? && r == Ok(Here().staging.value.1.attributes)
          && IsRegular(r.value)
    {
      hide Consistent, AllHeard, Explained, CalmFor, EntryAt, Passed, Tampers;
      var e := Tick();
      if Calm() { CalmHoldsStaging(trace, world, spec); }
      if !e.fate.Perform? { return Err(RequestError(e.fate)); }
      var entry := EntryAt(world.remote, Staging);
      return if entry.Some? then Ok(entry.value.1.attributes) else Err(NotFound);
    }

    /** A setstat of the staging file. */
    method AmendStaging(owner: Option<(nat, nat)>, permissions: Option<nat>) returns (failure: Option<ErrorCode>)
      requires Valid() && trace.phase.Owned? && (permissions.Some? ==> permissions.value < MODE_BITS)
      modifies this
      ensures Valid() && guard == old(guard) && OnlySaw(old(trace), trace, [])
      ensures failure.Some? ==> Plain(failure.value)
      ensures old(Calm()) ==>
        && failure.None? && Calm() && old(Here()).staging.Some? && Here().staging.Some?
        && Here() == old(Here()).(staging := Here().staging)
        && Here().staging.value.1.attributes
           == Amended(old(Here()).staging.value.1.attributes, owner, permissions)
    {
      hide Consistent, AllHeard, Explained, CalmFor, Amended, IsRegular, Passed, Tampers;
      var e := Tick();
      var fs := world.remote;
      var entry := EntryAt(fs, Staging);
      if Calm() { CalmHoldsStaging(trace, world, spec); }
      if Executes(e.fate, entry.Some?) {
        var attributes := Amended(entry.value.1.attributes, owner, permissions);
        AmendedStaysRegular(entry.value.1.attributes, owner, permissions);
        if Calm() { CalmRestate(trace, world, spec, attributes); }
        var after := Restated(fs, attributes);
        SameStagedKeeps(trace, job, guard, fs, after);
        world := world.(remote := after);
      }
      failure := if ReplyTo(e.fate, entry.Some?).Confirmed? then None else Some(RequestError(e.fate));
    }

    /** `preserve_editor_metadata`: look, set what differs, look again. */
    method PreserveEditorMetadata(expected: EditorRevision) returns (r: Result<()>)
      requires Valid() && trace.phase.Owned?
      modifies this
      ensures Valid() && guard == old(guard)
      ensures OnlySaw(old(trace), trace, if r.Ok? then [KeptMetadata(expected)] else [])
      ensures r.Ok? ==>
        var entry := EntryAt(world.remote, Staging); entry.Some? && Preserves(entry.value.1.attributes, expected)
      ensures r.Err? ==> Plain(r.code)
      ensures old(Calm()) ==>
        && r.Ok? && Calm() && Here() == old(Here()).(staging := Here().staging)
        && Here().staging.Some? && Preserves(Here().staging.value.1.attributes, expected)
    {
      hide Consistent, AllHeard, Explained, CalmFor, SceneOf, EntryAt, Amended, Preserves, HasOwner;
      var current := LookAtStaging();
      if current.Err? { return Err(current.code); }
      if !IsRegular(current.value) { return Err(FilePolicy); }
      AmendmentsPreserve(current.value, expected);
      var failure := None;
      if !HasOwner(current.value, expected.uid, expected.gid) {
        failure := AmendStaging(Some((expected.uid, expected.gid)), None);
        if failure.Some? { return Err(failure.value); }
      }
      failure := AmendStaging(None, Some(expected.mode % MODE_BITS));
      if failure.Some? { return Err(failure.value); }
      var again := LookAtStaging();
      if again.Err? { return Err(again.code); }
      if !Preserves(again.value, expected) { return Err(FilePolicy); }
      See([KeptMetadata(expected)]);
      return Ok(());
    }

    // ----- Commits -----

    /** Puts a commit request on record, with all that was made sure of before. */
    ghost method Send(a: Action, target: string, executed: bool, content: seq<byte>, clobbered: bool, fs: FileSystem)
      requires chunk > 0 && Consistent(trace, job, guard, fs) && IsCommit(a) && Allowed(trace.phase, a)
      requires world.script == script
      requires AllHeard(trace.looks, trace.moments, trace.book.commits, script, world.now)
      requires Explained(job.token, asked, script, start, world.now)
      requires (a.reply.Confirmed? ==> executed) && (a.reply.Refused? ==> !executed)
      requires executed && !trace.tampered ==> content == trace.book.written
      modifies this`trace
      ensures Valid()
      ensures trace == old(trace).(phase := Next(old(trace.phase), a), log := trace.log, book := trace.book)
      ensures trace.book.written == old(trace.book.written)
      ensures Sent(trace.book, target, old(trace.looks), old(trace.files), !old(trace.changed))
      ensures forall c <- trace.book.commits :: c.content == content && c.clobbered == clobbered
    {
      hide Consistent, Heard, Explained;
      var c := Commit(target, executed, a.reply, content, clobbered,
                      trace.looks, trace.moments, trace.files, !trace.changed);
      HeardCommit(trace.looks, trace.moments, script, world.now, c);
      CommitKeeps(trace, job, guard, fs, a, c, world.remote);
      trace := Acted(trace, a).(book := trace.book.(commits := [c]));
    }

    /** The hardlink request of `commit_new`: it can only take a free name. */
    method LinkFinal() returns (reply: Reply, code: ErrorCode)
      requires Valid() && trace.phase == Final(true)
      modifies this
      ensures Valid() && guard == old(guard)
      ensures trace.phase == Next(Final(true), Link(reply)) && trace.book.written == old(trace.book.written)
      ensures Unclobbered(trace.book)
      ensures Sent(trace.book, Subject(), old(trace.looks), old(trace.files), !old(trace.changed))
      ensures Plain(code)
      ensures old(Calm()) && old(Here()).remote.None? ==>
        && reply.Confirmed? && Calm() && Here().staging.Some?
        && Here() == old(Here()).(remote := old(Here()).staging)
    {
      hide Consistent, AllHeard, Explained, CalmFor, SceneOf, Passed, Tampers, Staged, MapStatus, StatusOf, EntryAt;
      hide IsRegular;
      hide Sent;
      var e := Tick();
      var fs := world.remote;
      ghost var sending, outside := trace, world;
      if Calm() { CalmHoldsStaging(trace, world, spec); }
      var feasible := Staging in fs.names && fs.names[Staging] in fs.nodes && User(Subject()) !in fs.names;
      reply := ReplyTo(e.fate, feasible);
      var executes := Executes(e.fate, feasible);
      if executes { world := world.(remote := HardLinked(fs, User(Subject()))); }
      OwnedContent(trace, job, guard, fs);
      assert trace.looks == old(trace.looks);
      Send(Link(reply), Subject(), executes, StagedContent(fs), executes && User(Subject()) in fs.names, fs);
      if old(Calm()) && old(Here()).remote.None? { CalmLink(sending, outside, spec, trace); }
      code := MapStatus(StatusOf(e.fate));
    }

    /** The last request of `commit_new`: the final name exists, the staging name goes. */
    method UnlinkStaging() returns (reply: Reply)
      requires Valid() && trace.phase.Linked?
      modifies this
      ensures Valid() && guard == old(guard)
      ensures OnlySaw(Acted(old(trace), Unlink(reply)), trace, [])
      ensures old(Calm()) && old(Here()).staging.Some? ==>
        reply.Confirmed? && Calm() && Here() == old(Here()).(staging := None)
    {
      hide Consistent, AllHeard, Explained, CalmFor, Removed, Passed, Tampers;
      var e := Tick();
      var fs := world.remote;
      ghost var sending, outside := trace, world;
      var present := Staging in fs.names;
      reply := ReplyTo(e.fate, present);
      if Executes(e.fate, present) { world := world.(remote := Removed(fs, Staging)); }
      UnlinkKeeps(trace, job, guard, fs, reply, world.remote);
      trace := Acted(trace, Unlink(reply));
      if old(Calm()) && old(Here()).staging.Some? { CalmUnlink(sending, outside, spec, trace); }
    }

    /** `commit_new`: hardlink the staging file to a free name, then remove the staging name. */
    method CommitNew() returns (r: Result<()>)
      requires Valid() && trace.phase == Final(true)
      modifies this
      ensures Valid() && guard == old(guard) && CommitResult(r, trace.phase)
      ensures trace.book.written == old(trace.book.written) && Unclobbered(trace.book)
      ensures Sent(trace.book, Subject(), old(trace.looks) + [SawEntry(Subject(), None)],
                   old(trace.files), !old(trace.changed))
      ensures r.Ok? ==> hardlink
      ensures old(Calm()) && hardlink && ValidPath(Subject()) && old(Here()).remote.None? ==>
        r.Ok? && Calm() && Here() == old(Here()).(remote := old(Here()).staging, staging := None)
    {
      hide Consistent, AllHeard, Explained, CalmFor, SceneOf, EntryAt, ValidPath;
      OwnedContent(trace, job, guard, world.remote);
      if !hardlink { return Err(SftpUnavailable); }
      var existing := LookUp();
      if existing.Err? { return Err(existing.code); }
      if existing.value.Some? { return Err(ErrorCode.Conflict); }
      var linked, code := LinkFinal();
      if linked.Refused? { return Err(code); }
      if linked.Lost? { return Err(ErrorCode.OutcomeUnknown); }
      var reply := UnlinkStaging();
      return if reply.Confirmed? then Ok(()) else Err(ErrorCode.OutcomeUnknown);
    }

    /** The posix-rename request of `commit_replace`. */
    method RenameFinal() returns (reply: Reply, code: ErrorCode)
      requires Valid() && trace.phase == Final(true)
      modifies this
      ensures Valid() && guard == old(guard)
      ensures trace.phase == Next(Final(true), Rename(reply)) && trace.book.written == old(trace.book.written)
      ensures Sent(trace.book, Subject(), old(trace.looks), old(trace.files), !old(trace.changed))
      ensures Plain(code)
      ensures old(Calm()) ==>
        reply.Confirmed? && Calm() && Here() == old(Here()).(remote := old(Here()).staging, staging := None)
    {
      hide Consistent, AllHeard, Explained, CalmFor, SceneOf, Passed, Tampers, Staged, MapStatus, StatusOf, EntryAt;
      hide IsRegular;
      hide Sent;
      var e := Tick();
      var fs := world.remote;
      ghost var sending, outside := trace, world;
      if Calm() { CalmHoldsStaging(trace, world, spec); }
      var feasible := Staging in fs.names && fs.names[Staging] in fs.nodes;
      reply := ReplyTo(e.fate, feasible);
      // A refusal that the session reports as an error is not understood as a refusal.
      if reply.Refused? && e.race { reply := Lost; }
      var executes := Executes(e.fate, feasible);
      if executes { world := world.(remote := Renamed(fs, User(Subject()))); }
      OwnedContent(trace, job, guard, fs);
      assert trace.looks == old(trace.looks);
      Send(Rename(reply), Subject(), executes, StagedContent(fs), User(Subject()) in fs.names, fs);
      if old(Calm()) { CalmRename(sending, outside, spec, trace); }
      code := MapStatus(StatusOf(e.fate));
    }

    /** `commit_replace`: one posix-rename of the staging file over the destination. */
    method CommitReplace() returns (r: Result<()>)
      requires Valid() && trace.phase == Final(true)
      modifies this
      ensures Valid() && guard == old(guard) && CommitResult(r, trace.phase)
      ensures trace.book.written == old(trace.book.written)
      ensures Sent(trace.book, Subject(), old(trace.looks), old(trace.files), !old(trace.changed))
      ensures r.Ok? ==> posixRename
      ensures old(Calm()) && posixRename ==>
        r.Ok? && Calm() && Here() == old(Here()).(remote := old(Here()).staging, staging := None)
    {
      hide Consistent, AllHeard, Explained, CalmFor, SceneOf;
      OwnedContent(trace, job, guard, world.remote);
      if !posixRename { return Err(SftpUnavailable); }
      var reply, code := RenameFinal();
      return match reply
        case Confirmed => Ok(())
        case Refused => Err(code)
        case Lost => Err(ErrorCode.OutcomeUnknown);
    }

    // ----- The staging guard -----

    /** `remove_owned_staging`, asked for by the guard only after exclusive creation was confirmed. */
    method RemoveOwnedStaging() returns (r: Result<()>)
      requires Valid() && guard.owned && Allowed(trace.phase, GuardRemove(true))
      modifies this
      ensures Consistent(trace, job, guard.(armed := false, unconfirmed := guard.unconfirmed || r.Err?), world.remote)
      ensures world.script == script && AllHeard(trace.looks, trace.moments, trace.book.commits, script, world.now)
      ensures guard == old(guard)
      ensures OnlySaw(Acted(old(trace), GuardRemove(r.Ok?)).(book := old(trace.book).(removals := 1, absent := r.Ok?)),
                      trace, [])
      ensures r.Err? ==> Plain(r.code)
      ensures (old(job.token) ==> job.token) && Explained(job.token, asked, script, start, world.now)
      ensures old(Calm()) ==> r.Ok? && Here() == old(Here()).(staging := None)
    {
      hide Consistent, AllHeard, Explained, CalmFor, SceneOf, Passed, Tampers, Removed, Next, RemovalResult;
      hide EntryAt, MapStatus, Staged, IsRegular, InHand;
      var e := Tick();
      var fs := world.remote;
      var present := Staging in fs.names;
      r := RemovalResult(e.fate);
      if Calm() { SceneAfterRemoval(trace, world, spec); }
      var after := if Executes(e.fate, present) then Removed(fs, Staging) else fs;
      RemoveKeeps(trace, job, guard, fs, r.Ok?, after);
      world := world.(remote := after);
      trace := Acted(trace, GuardRemove(r.Ok?)).(book := trace.book.(removals := 1, absent := r.Ok?));
    }

    /** `RemoteStagingGuard::cleanup`. */
    method Cleanup() returns (r: Result<()>)
      requires Valid() && !trace.phase.Linked? && !trace.phase.Committed?
      modifies this
      ensures Valid() && trace.book.commits == old(trace.book.commits)
      ensures HoldsStaging(old(trace.phase)) ==>
        && trace.phase == Settled(old(trace.phase).CommitFailed? && old(trace.phase).maybe)
        && trace.book.absent == r.Ok? && guard.unconfirmed == (old(guard.unconfirmed) || r.Err?)
      ensures r.Err? ==> Plain(r.code)
      ensures old(job.token) ==> job.token
      ensures old(Calm()) && HoldsStaging(old(trace.phase)) ==> r.Ok? && Here() == old(Here()).(staging := None)
    {
      hide Consistent, AllHeard, Explained, CalmFor, SceneOf;
      GuardHolds(trace, job, guard, world.remote);
      r := Ok(());
      if guard.armed && guard.owned {
        r := RemoveOwnedStaging();
        guard := guard.(armed := false, unconfirmed := guard.unconfirmed || r.Err?);
      } else {
        DisarmKeeps(trace, job, guard, world.remote);
        guard := guard.(armed := false);
      }
    }

    /** `guard.cleanup().await?` followed by the failure that made it necessary. */
    method CleanupThen(code: ErrorCode) returns (r: Result<()>)
      requires Valid() && HoldsStaging(trace.phase) && !trace.phase.Linked?
      requires !code.OutcomeUnknown? && !trace.phase.CommitFailed?
      modifies this
      ensures Valid() && trace.phase == Settled(false) && trace.book.commits == old(trace.book.commits)
      ensures r.Err? && !r.code.OutcomeUnknown?
      ensures old(job.token) ==> job.token
      ensures old(Calm()) ==> r.code == code && Here() == old(Here()).(staging := None)
      ensures if trace.book.absent then r.code == code else guard.unconfirmed && Plain(r.code)
    {
      hide Consistent, AllHeard, Explained, CalmFor, SceneOf;
      r := Cleanup();
      if r.Ok? { r := Err(code); }
    }

    /**
     The end of an upload whose streaming failed. If the staging file is known to be gone, an accepted
     cancellation is what is reported, and otherwise the failure; a failed cleanup is reported as such.
     */
    method Abandon(code: ErrorCode) returns (r: Result<()>)
      requires Valid() && trace.phase.Owned? && !code.OutcomeUnknown?
      modifies this
      ensures Valid() && trace.book.commits == old(trace.book.commits)
      ensures r.Err? && CanEnd(trace.phase, OutcomeOf(r))
      ensures if trace.book.absent then r.code == (if job.token then ErrorCode.Cancelled else code)
              else guard.unconfirmed && Plain(r.code)
      ensures old(job.token) ==> job.token
      ensures old(Calm()) ==> trace.book.absent && Here() == old(Here()).(staging := None)
    {
      hide Consistent, AllHeard, Explained, CalmFor, SceneOf;
      r := Cleanup();
      if r.Ok? { r := Err(if job.token then ErrorCode.Cancelled else code); }
    }

    // ----- The job's record -----

    /** `enter_finalizing`: the last look at cancellation, in the manager's critical section. */
    method TryFinalize() returns (r: Result<()>)
      requires Valid() && Allowed(trace.phase, EnterFinalizing)
      modifies this
      ensures Valid() && guard == old(guard)
      ensures OnlySaw(if r.Ok? then Acted(old(trace), EnterFinalizing) else old(trace), trace, [])
      ensures r.Ok? <==> !job.token
      ensures r.Ok? ==> job.state.Finalizing?
      ensures r.Err? ==> r.code.Cancelled?
      ensures old(Calm()) ==> Calm() && Here() == old(Here())
    {
      hide Consistent, AllHeard, Explained, CalmFor, Passed, Tampers, SceneOf;
      var _ := Tick();
      if job.token || job.state.CancelRequested? {
        CancelHasToken(trace, job, guard, world.remote);
        return Err(ErrorCode.Cancelled);
      }
      FinalizeKeeps(trace, job, guard, world.remote);
      ghost var seeing := trace;
      job := job.(state := TransferState.Finalizing);
      trace := Acted(trace, EnterFinalizing);
      if old(Calm()) { CalmGoesOn(seeing, world, spec, trace); }
      return Ok(());
    }

    /** `set_state(Transferring)`, which overwrites even a `CancelRequested`; the token stays. */
    method ShowTransferring()
      requires Valid() && trace.phase.Idle?
      modifies this
      ensures Valid() && guard == old(guard)
      ensures job == Requested(old(job), script(old(world.now)).cancel).(state := TransferState.Transferring)
      ensures OnlySaw(Acted(old(trace), SetTransferring), trace, [])
      ensures old(Calm()) ==> Calm() && Here() == old(Here())
    {
      hide Consistent, AllHeard, Explained, CalmFor, Passed, Tampers, SceneOf;
      var _ := Tick();
      ShowKeeps(trace, job, guard, world.remote);
      ghost var seeing := trace;
      job := job.(state := TransferState.Transferring);
      trace := Acted(trace, SetTransferring);
      if old(Calm()) { CalmGoesOn(seeing, world, spec, trace); }
    }

    // ----- Uploads -----

    /** `RemoteStagingGuard::new`, before the staging file exists. */
    method ArmGuard()
      requires Valid() && trace.phase.Idle?
      modifies this`guard
      ensures Valid() && guard == old(guard).(armed := true) && !guard.owned
    {
      hide Consistent, AllHeard, Explained;
      ArmKeeps(trace, job, guard, world.remote);
      guard := guard.(armed := true);
    }

    /** The common first half of both uploads: guard, exclusive creation, streaming. */
    method StageFile(input: seq<byte>) returns (r: Result<nat>)
      requires Valid() && trace.phase.Idle? && trace.book == EMPTY_LEDGER
      modifies this
      ensures Valid() && trace.book.commits == []
      ensures r.Ok? ==>
        && trace.files == old(trace.files) && trace.changed == old(trace.changed)
        && trace.phase.Owned? && r.value == |input| <= U64_MAX && trace.book.written == input
        && trace.looks == old(trace.looks) + Stored(fsync)
      ensures r.Err? ==> CanEnd(trace.phase, OutcomeOf(Err(r.code))) && (r.code.Cancelled? ==> job.token)
      ensures old(Calm()) && old(Here()).staging.None? && |input| <= U64_MAX ==>
        if r.Ok? then Calm() && Here() == old(Here()).(staging := Here().staging)
        else r.code.Cancelled? && Here() == old(Here())
    {
      hide Consistent, AllHeard, Explained, CalmFor, SceneOf, Stored;
      ArmGuard();
      ShowTransferring();
      var streamed := UploadStaged(input);
      match streamed
      case NotCreated(code) => return Err(code);
      case CreationOutcomeUnknown => return Err(ErrorCode.OutcomeUnknown);
      case OwnedFailure(code) =>
        var abandoned := Abandon(code);
        return Err(abandoned.code);
      case Streamed(count) => return Ok(count);
    }

    /** `run_upload`; the input is whatever the selected local handle yields. */
    method RunUpload() returns (r: Result<()>)
      requires Ready() && spec.Upload? && !spec.action.SkipExisting?
      modifies this
      ensures Valid() && CanEnd(trace.phase, OutcomeOf(r))
      ensures r.Ok? ==> trace.phase.Committed? && Approves(spec, trace.book.written)
      ensures r.Ok? ==> CanSucceed(spec, hardlink, posixRename, id)
      ensures r.Err? && r.code.Cancelled? ==> job.token
      ensures spec.action.CreateNew? ==> Unclobbered(trace.book)
      ensures SentAsApproved(trace.book, spec, fsync)
      ensures old(Calm()) && AsApproved(spec, old(Here())) && CanSucceed(spec, hardlink, posixRename, id) ==>
        if r.Ok? then Accomplished(spec, old(Here()), Here()) else r.code.Cancelled? && Here() == old(Here())
    {
      hide Consistent, AllHeard, Explained, CalmFor, SceneOf, FinalLooks, Stored, StagingPath, ValidPath, Passed;
      hide Tampers;
      var selected := CheckLocal();
      if !selected { return Err(LocalAccess); }
      var staging := StagingPath(Subject(), PartName(id));
      if staging.Err? { return Err(staging.code); }
      var staged := StageFile(spec.input);
      if staged.Err? { return Err(staged.code); }
      if staged.value != spec.size {
        r := CleanupThen(ErrorCode.Transfer);
      } else {
        assert trace.looks + FinalLooks(Subject(), spec.action) == ApprovedLooks(spec, fsync);
        ghost var steady := !trace.changed;
        r := FinalizeUpload();
        SentAreApproved(trace.book, spec, fsync, [], steady);
      }
    }

    /** The part of `run_upload` after the staging file is complete. */
    method FinalizeUpload() returns (r: Result<()>)
      requires Valid() && trace.phase.Owned? && trace.book.commits == []
      requires spec.Upload? && !spec.action.SkipExisting?
      modifies this
      ensures Valid() && CanEnd(trace.phase, OutcomeOf(r))
      ensures r.Ok? ==> trace.phase.Committed? && trace.book.written == old(trace.book.written)
      ensures r.Ok? ==> Supported(spec.action, hardlink, posixRename)
      ensures r.Err? && r.code.Cancelled? ==> job.token
      ensures spec.action.CreateNew? ==> Unclobbered(trace.book)
      ensures Sent(trace.book, Subject(), old(trace.looks) + FinalLooks(Subject(), spec.action),
                   old(trace.files), !old(trace.changed))
      ensures old(Calm()) && ValidPath(Subject()) && Supported(spec.action, hardlink, posixRename) &&
              IdentityAt(old(Here()).remote) == Approved(spec.action) ==>
        if r.Ok? then Delivered(Here(), old(trace.book.written))
        else r.code.Cancelled? && Here() == old(Here()).(staging := None)
    {
      hide Consistent, AllHeard, Explained, CalmFor, SceneOf, DestinationLooks, ValidPath, Passed, Tampers, IdentityAt;
      var validated := CheckLocal();
      if !validated {
        r := CleanupThen(LocalAccess);
        return;
      }
      if job.token {
        r := CleanupThen(ErrorCode.Cancelled);
        return;
      }
      var entered := TryFinalize();
      if entered.Err? {
        r := CleanupThen(entered.code);
        return;
      }
      assert old(trace.looks) + FinalLooks(Subject(), spec.action)
          == trace.looks + DestinationLooks(Subject(), spec.action);
      r := CommitUpload();
    }

    /** The part of `run_upload` after entering finalization. */
    method CommitUpload() returns (r: Result<()>)
      requires Valid() && trace.phase == Final(true) && trace.book.commits == []
      requires spec.Upload? && !spec.action.SkipExisting?
      modifies this
      ensures Valid() && CanEnd(trace.phase, OutcomeOf(r))
      ensures r.Ok? ==> trace.phase.Committed? && trace.book.written == old(trace.book.written)
      ensures r.Ok? ==> Supported(spec.action, hardlink, posixRename)
      ensures r.Err? ==> !r.code.Cancelled?
      ensures spec.action.CreateNew? ==> Unclobbered(trace.book)
      ensures Sent(trace.book, Subject(), old(trace.looks) + DestinationLooks(Subject(), spec.action),
                   old(trace.files), !old(trace.changed))
      ensures old(Calm()) && ValidPath(Subject()) && Supported(spec.action, hardlink, posixRename) &&
              IdentityAt(old(Here()).remote) == Approved(spec.action) ==>
        r.Ok? && Delivered(Here(), old(trace.book.written))
    {
      hide Consistent, AllHeard, Explained, CalmFor, SceneOf, EntryAt, ValidPath;
      var current := LookUp();
      if current.Err? {
        r := CleanupThen(current.code);
        return;
      }
      if current.value != Approved(spec.action) {
        r := CleanupThen(ErrorCode.Conflict);
        return;
      }
      if Calm() { CalmHoldsStaging(trace, world, spec); }
      if spec.action.CreateNew? {
        r := CommitNew();
      } else {
        r := CommitReplace();
      }
      r := AfterCommit(r);
    }

    /** The common end of both remote transfers: disarm the guard, or clean up and keep the doubt. */
    method AfterCommit(result: Result<()>) returns (r: Result<()>)
      requires Valid() && CommitResult(result, trace.phase)
      modifies this
      ensures Valid() && CanEnd(trace.phase, OutcomeOf(r))
      ensures trace.book.commits == old(trace.book.commits)
      ensures r.Ok? <==> result.Ok?
      ensures r.Ok? ==> trace == old(trace) && world == old(world) && job == old(job)
      ensures result.Err? ==>
        r == result || (!trace.book.absent && guard.unconfirmed && !result.code.OutcomeUnknown? && Plain(r.code))
    {
      hide Consistent, AllHeard, Explained;
      if result.Ok? {
        DisarmKeeps(trace, job, guard, world.remote);
        guard := guard.(armed := false);
        return result;
      }
      var cleaned := Cleanup();
      return if cleaned.Ok? || result.code.OutcomeUnknown? then result else cleaned;
    }

    // ----- Editor saves -----

    /** `run_editor_save`. */
    method RunEditorSave() returns (r: Result<()>)
      requires Ready() && spec.EditorSave?
      modifies this
      ensures Valid() && CanEnd(trace.phase, OutcomeOf(r))
      ensures r.Ok? ==> trace.phase.Committed? && Approves(spec, trace.book.written)
      ensures r.Ok? ==> CanSucceed(spec, hardlink, posixRename, id)
      ensures r.Err? && r.code.Cancelled? ==> job.token
      ensures SentAsApproved(trace.book, spec, fsync)
      ensures old(Calm()) && AsApproved(spec, old(Here())) && CanSucceed(spec, hardlink, posixRename, id) ==>
        if r.Ok? then Accomplished(spec, old(Here()), Here()) else r.code.Cancelled? && Here() == old(Here())
    {
      hide Consistent, AllHeard, Explained, CalmFor, SceneOf, Stored, ValidPath, Preserves, DocumentAsApproved;
      hide StagingPath;
      var changed := CheckUnchanged(spec.expected, spec.original);
      if changed.Some? { return Err(changed.value); }
      var staging := StagingPath(Subject(), EditName(id));
      if staging.Err? { return Err(staging.code); }
      var staged := StageFile(spec.bytes);
      if staged.Err? { return Err(staged.code); }
      // All of the bytes were streamed, so the source's comparison of the counts cannot fail here.
      r := FinalizeEditorSave();
    }

    /** The checks of `run_editor_save` between streaming and finalization. */
    method CheckStaged() returns (failure: Option<ErrorCode>)
      requires Valid() && trace.phase.Owned? && spec.EditorSave?
      modifies this
      ensures Valid() && guard == old(guard) && OnlyRead(old(trace), trace)
      ensures failure.Some? ==> Plain(failure.value)
      ensures failure.None? ==>
        var looks := DocumentLooks(Subject(), spec.expected, spec.original);
        var file := Opening(Subject(), spec.original);
        && trace.looks == old(trace.looks) + ([KeptMetadata(spec.expected)] + looks + looks)
        && (!trace.changed ==> trace.files == old(trace.files) + [file, file])
      ensures old(Calm()) && ValidPath(Subject()) &&
              DocumentAsApproved(old(Here()).remote, spec.expected, spec.original) ==>
        && failure.None? && Calm() && Here() == old(Here()).(staging := Here().staging)
        && Here().staging.Some? && Preserves(Here().staging.value.1.attributes, spec.expected)
    {
      hide Consistent, AllHeard, Explained, CalmFor, SceneOf, ValidPath, Preserves, EntryAt, DocumentAsApproved;
      var preserved := PreserveEditorMetadata(spec.expected);
      if preserved.Err? { return Some(preserved.code); }
      failure := CheckUnchanged(spec.expected, spec.original);
      if failure.None? {
        failure := CheckUnchanged(spec.expected, spec.original);
      }
    }

    /** The part of `run_editor_save` after the staging file is complete. */
    method FinalizeEditorSave() returns (r: Result<()>)
      requires Valid() && trace.phase.Owned? && trace.book.commits == [] && spec.EditorSave?
      requires trace.looks == DocumentLooks(Subject(), spec.expected, spec.original) + Stored(fsync)
      requires !trace.changed ==> trace.files == [Opening(Subject(), spec.original)]
      modifies this
      ensures Valid() && CanEnd(trace.phase, OutcomeOf(r))
      ensures r.Ok? ==> trace.phase.Committed? && trace.book.written == old(trace.book.written) && posixRename
      ensures r.Err? && r.code.Cancelled? ==> job.token
      ensures SentAsApproved(trace.book, spec, fsync)
      ensures old(Calm()) && ValidPath(Subject()) && posixRename &&
              DocumentAsApproved(old(Here()).remote, spec.expected, spec.original) ==>
        if r.Ok?
        then Delivered(Here(), old(trace.book.written)) && Preserves(Here().remote.value.1.attributes, spec.expected)
        else r.code.Cancelled? && Here() == old(Here()).(staging := None)
    {
      hide Consistent, AllHeard, Explained, CalmFor, SceneOf, Stored, ValidPath, Preserves, DocumentAsApproved;
      var failure := CheckStaged();
      if failure.Some? {
        r := CleanupThen(failure.value);
        return;
      }
      var entered := TryFinalize();
      if entered.Err? {
        r := CleanupThen(entered.code);
        return;
      }
      r := CommitEditorSave();
    }

    /** The part of `run_editor_save` after entering finalization. */
    method CommitEditorSave() returns (r: Result<()>)
      requires Valid() && trace.phase == Final(true) && spec.EditorSave?
      requires trace.looks == ApprovedLooks(spec, fsync)
      requires !trace.changed ==> trace.files == Thrice(Opening(Subject(), spec.original))
      modifies this
      ensures Valid() && CanEnd(trace.phase, OutcomeOf(r))
      ensures r.Ok? ==> trace.phase.Committed? && trace.book.written == old(trace.book.written) && posixRename
      ensures r.Err? ==> !r.code.Cancelled?
      ensures SentAsApproved(trace.book, spec, fsync)
      ensures old(Calm()) && posixRename ==>
        && r.Ok? && old(Here()).staging.Some? && Here() == old(Here()).(remote := old(Here()).staging, staging := None)
        && Delivered(Here(), old(trace.book.written))
    {
      hide Consistent, AllHeard, Explained, CalmFor, SceneOf, ApprovedLooks;
      if Calm() { CalmHoldsStaging(trace, world, spec); }
      ghost var files, steady := trace.files, !trace.changed;
      r := CommitReplace();
      SentAreApproved(trace.book, spec, fsync, files, steady);
      r := AfterCommit(r);
    }

    // ----- Downloads -----

    /** `stat`, as far as `download` needs it: the entry must be one that can be shown, and a regular file. */
    method CheckRegular() returns (failure: Option<ErrorCode>)
      requires Valid() && Allowed(trace.phase, Inspect)
      modifies this
      ensures Valid() && guard == old(guard) && OnlySaw(old(trace), trace, [])
      ensures failure.None? ==>
        var entry := EntryAt(world.remote, User(Subject()));
        ValidPath(Subject()) && Listable(Subject()) && entry.Some? && IsRegular(entry.value.1.attributes)
      ensures failure.Some? ==> Plain(failure.value)
      ensures old(Calm()) && ValidPath(Subject()) && Listable(Subject()) && old(Here()).remote.Some? &&
              IsRegular(old(Here()).remote.value.1.attributes) ==>
        Calm() && Here() == old(Here()) && failure.None?
    {
      hide Consistent, AllHeard, Explained, CalmFor, EntryAt, Passed, Tampers, ValidPath, Listable, IsRegular;
      if !ValidPath(Subject()) { return Some(FilePolicy); }
      var e := Tick();
      if !e.fate.Perform? { return Some(RequestError(e.fate)); }
      var entry := EntryAt(world.remote, User(Subject()));
      if entry.None? { return Some(NotFound); }
      return if Listable(Subject()) && IsRegular(entry.value.1.attributes) then None else Some(FilePolicy);
    }

    /** The read loop of `download`: each read continues where the last one ended. */
    method ReadToEnd(handle: nat, ghost source: seq<byte>) returns (failure: Option<ErrorCode>, content: seq<byte>)
      requires Valid() && trace.phase.Streaming? && trace.book == EMPTY_LEDGER
      requires ContentOf(world.remote, handle) == Some(source)
      modifies this
      ensures Valid()
      ensures OnlyRead(old(trace).(book := EMPTY_LEDGER.(written := content)), trace)
      ensures trace.looks == old(trace.looks) && trace.files == old(trace.files)
      ensures failure.None? && !trace.changed ==> content == source
      ensures failure.Some? ==> !failure.value.OutcomeUnknown? && (failure.value.Cancelled? ==> job.token)
      ensures old(Calm()) && IsOpen(old(Here()), handle, source) && |source| <= U64_MAX ==>
        && Calm() && Here() == old(Here())
        && if failure.None? then content == source else failure.value.Cancelled?
    {
      hide Consistent, AllHeard, Explained, CalmFor, SceneOf, ContentOf, IsOpen;
      content, failure := [], None;
      var more := true;
      while more
        invariant Valid() && failure.None?
        invariant OnlyRead(old(trace).(book := EMPTY_LEDGER.(written := content)), trace)
        invariant trace.looks == old(trace.looks) && trace.files == old(trace.files)
        invariant |content| <= U64_MAX
        invariant !trace.changed ==> Received(world, handle, content, source, more)
        invariant old(Calm()) && IsOpen(old(Here()), handle, source) ==>
          Calm() && Here() == old(Here()) && (!more ==> !trace.changed)
        decreases U64_MAX - |content|, more
      {
        var data;
        failure, data := Receive(handle, content, source);
        if failure.Some? { return; }
        content, more := content + data, data != [];
      }
    }

    /** One turn of the loop: what is read is appended to what there is. */
    method Receive(handle: nat, content: seq<byte>, ghost source: seq<byte>)
      returns (failure: Option<ErrorCode>, data: seq<byte>)
      requires Valid() && trace.phase.Streaming? && trace.book == EMPTY_LEDGER.(written := content)
      requires !trace.changed ==> Received(world, handle, content, source, true)
      modifies this
      ensures Valid()
      ensures OnlyRead(old(trace).(book := EMPTY_LEDGER.(written := content + data)), trace)
      ensures trace.looks == old(trace.looks) && trace.files == old(trace.files)
      ensures failure.None? ==>
        && (data != [] ==> |content + data| <= U64_MAX)
        && (!trace.changed ==> Received(world, handle, content + data, source, data != []))
      ensures failure.Some? ==>
        data == [] && !failure.value.OutcomeUnknown? && (failure.value.Cancelled? ==> job.token)
      ensures old(Calm()) && IsOpen(old(Here()), handle, source) ==>
        && Calm() && Here() == old(Here()) && !trace.changed
        && (failure.Some? && |source| <= U64_MAX ==> failure.value.Cancelled?)
    {
      hide Consistent, AllHeard, Explained, CalmFor, SceneOf, RequestError;
      failure, data := ReadPiece(handle, |content|, source);
      assert content + [] == content;
      if failure.Some? { return failure, []; }
      if |content| + |data| > U64_MAX { return Some(ErrorCode.Transfer), []; }
      if data != [] { Append(content, data); }
    }

    /** The task has received more of the source. */
    ghost method Append(content: seq<byte>, data: seq<byte>)
      requires Valid() && trace.phase.Streaming?
      modifies this`trace
      ensures Valid() && trace == old(trace).(book := old(trace.book).(written := content + data))
      ensures old(Calm()) ==> Calm()
    {
      hide Consistent, AllHeard, Explained, CalmFor;
      ghost var after := trace.(book := trace.book.(written := content + data));
      ReadKeeps(trace, job, guard, world.remote, content + data);
      if Calm() { CalmGoesOn(trace, world, spec, after); }
      trace := after;
    }

    /** One read of `download`, in a race with the cancellation token; what it yields goes to the local file. */
    method ReadPiece(handle: nat, offset: nat, ghost source: seq<byte>)
      returns (failure: Option<ErrorCode>, data: seq<byte>)
      requires Valid()
      requires !trace.changed ==> ContentOf(world.remote, handle) == Some(source) && offset <= |source|
      modifies this
      ensures Valid() && guard == old(guard)
      ensures OnlyRead(old(trace), trace) && trace.looks == old(trace.looks) && trace.files == old(trace.files)
      ensures !trace.changed ==> ContentOf(world.remote, handle) == Some(source)
      ensures failure.None? && !trace.changed ==> Continues(source, offset, data)
      ensures failure.None? ==>
        && !old(job.token)
        && var e := script(old(world.now)); (e.fate.Perform? && (data != [] ==> e.localOk)) || e.fate == Refuse(Eof)
      ensures failure.Some? ==> !failure.value.OutcomeUnknown? && (failure.value.Cancelled? ==> job.token)
      ensures old(Calm()) && IsOpen(old(Here()), handle, source) ==>
        Calm() && Here() == old(Here()) && !trace.changed && (failure.Some? ==> failure.value.Cancelled?)
    {
      hide Consistent, AllHeard, Explained, CalmFor, SceneOf, Piece, RequestError;
      data := [];
      if Calm() { CalmIsSteady(trace, world, spec); }
      if job.token { return Some(ErrorCode.Cancelled), data; }
      var reply, e := ReadAt(handle, offset);
      if job.token && e.race { return Some(ErrorCode.Cancelled), data; }
      if reply.Err? { return Some(reply.code), data; }
      data := reply.value;
      failure := if data != [] && !e.localOk then Some(LocalAccess) else None;
    }

    /** The close request on the source, and the flush of the temporary file. */
    method FinishReading() returns (failure: Option<ErrorCode>)
      requires Valid()
      modifies this
      ensures Valid() && guard == old(guard)
      ensures OnlySaw(old(trace), trace, if failure.None? then [ReadAll] else [])
      ensures var e := script(old(world.now)); failure.None? <==> e.fate.Perform? && e.localOk
      ensures failure.Some? ==> Plain(failure.value)
      ensures old(job.token) ==> job.token
      ensures old(Calm()) ==> failure.None? && Calm() && Here() == old(Here())
    {
      hide Consistent, AllHeard, Explained, CalmFor, SceneOf, RequestError, Passed, Tampers;
      var e := Tick();
      if !e.fate.Perform? { return Some(RequestError(e.fate)); }
      if !e.localOk { return Some(LocalAccess); }
      See([ReadAll]);
      return None;
    }

    /** `download`: the source, read at contiguous offsets up to its end, in the temporary file. */
    method Download() returns (r: Result<seq<byte>>)
      requires Valid() && trace.phase.Streaming? && trace.book == EMPTY_LEDGER
      modifies this
      ensures Valid() && trace.book.commits == [] && trace.phase.Streaming?
      ensures r.Ok? ==>
        && trace.book == EMPTY_LEDGER.(written := r.value) && trace.looks == old(trace.looks) + [ReadAll]
        && (old(trace.changed) ==> trace.changed)
        && (!trace.changed ==> trace.files == old(trace.files) + [Opening(Subject(), r.value)])
        && ValidPath(Subject()) && Listable(Subject())
      ensures r.Err? ==> !r.code.OutcomeUnknown? && (r.code.Cancelled? ==> job.token)
      ensures old(Calm()) && ValidPath(Subject()) && Listable(Subject()) && old(Here()).remote.Some? &&
              IsRegular(old(Here()).remote.value.1.attributes) &&
              |old(Here()).remote.value.1.content| <= U64_MAX ==>
        && Calm() && Here() == old(Here())
        && if r.Ok? then r.value == Here().remote.value.1.content else r.code.Cancelled?
    {
      hide Consistent, AllHeard, Explained, CalmFor, SceneOf, EntryAt, ValidPath, Listable, IsRegular, ContentOf;
      hide Passed, Tampers;
      hide RequestError;
      var failure := CheckRegular();
      if failure.Some? { return Err(failure.value); }
      var open, source := Open();
      if open.Err? { return Err(open.code); }
      var content;
      failure, content := ReadToEnd(open.value, source);
      if failure.Some? {
        var _ := Tick();  // the handle is closed, and the reply does not matter
        return Err(failure.value);
      }
      failure := FinishReading();
      return if failure.Some? then Err(failure.value) else Ok(content);
    }

    /** The move of the temporary file to its final name. */
    method MoveIntoPlace(content: seq<byte>, replace: bool) returns (reply: Reply)
      requires Valid() && trace.phase == Final(false) && trace.book == EMPTY_LEDGER.(written := content)
      requires spec.Download?
      modifies this
      ensures Valid() && trace.phase == Next(Final(false), Persist(reply)) && (replace ==> !reply.Refused?)
      ensures trace.book.written == content && (reply.Lost? ==> replace)
      ensures Sent(trace.book, spec.fileName, old(trace.looks), old(trace.files), !old(trace.changed))
      ensures forall c <- trace.book.commits :: c.content == content && (!replace ==> !c.clobbered)
      ensures old(Calm()) && (replace || old(Here()).local.None?) ==>
        && reply.Confirmed? && Here().remote == old(Here()).remote
        && Here().local.Some? && Here().local.value.content == content
    {
      hide Consistent, AllHeard, Explained, CalmFor, SceneOf, Passed, Tampers, Sent;
      var e := Tick();
      var name, file := spec.fileName, LocalFile(e.serial, content);
      SceneAfterPersisting(world, spec, file);
      var feasible := replace || name !in world.local;
      reply := if e.fate.Perform? && feasible then Confirmed else if replace then Lost else Refused;
      var executes := reply.Confirmed? || (replace && e.fate == Drop(true));
      assert trace.looks == old(trace.looks);
      Send(Persist(reply), name, executes, content, executes && name in world.local, world.remote);
      if executes { world := world.(local := world.local[name := file]); }
    }

    /**
     `persist` and `persist_noclobber`. A failing no-clobber move has no effect; a failing
     replacing move may have had one, which is why it is reported as unknown.
     */
    method PersistLocal(content: seq<byte>, replace: bool) returns (r: Result<()>)
      requires Valid() && trace.phase == Final(false) && trace.book == EMPTY_LEDGER.(written := content)
      requires spec.Download?
      modifies this
      ensures Valid() && CanEnd(trace.phase, OutcomeOf(r))
      ensures r.Ok? ==> trace.phase.Committed?
      ensures r.Err? ==> !r.code.Cancelled?
      ensures trace.book.written == content
      ensures Sent(trace.book, spec.fileName, old(trace.looks), old(trace.files), !old(trace.changed))
      ensures forall c <- trace.book.commits :: c.content == content
      ensures !replace ==> Unclobbered(trace.book)
      ensures old(Calm()) && (replace || old(Here()).local.None?) ==>
        && r.Ok? && Here().remote == old(Here()).remote
        && Here().local.Some? && Here().local.value.content == content
    {
      hide Consistent, AllHeard, Explained, CalmFor, SceneOf, Sent;
      var reply := MoveIntoPlace(content, replace);
      return match reply
        case Confirmed => Ok(())
        case Refused => Err(ErrorCode.Conflict)
        case Lost => Err(ErrorCode.OutcomeUnknown);
    }

    /** The source still has the approved identity. */
    method CheckSource() returns (failure: Option<ErrorCode>)
      requires Valid() && Allowed(trace.phase, Inspect) && spec.Download?
      modifies this
      ensures Valid() && guard == old(guard)
      ensures trace == old(trace).(looks := trace.looks, moments := trace.moments, tampered := trace.tampered)
      ensures failure.None? ==> trace.looks == old(trace.looks) + [SawEntry(Subject(), Some(spec.identity))]
      ensures failure.Some? ==> Plain(failure.value)
      ensures old(Calm()) && ValidPath(Subject()) && IdentityAt(old(Here()).remote) == Some(spec.identity) ==>
        Calm() && Here() == old(Here()) && failure.None?
    {
      hide Consistent, AllHeard, Explained, CalmFor, SceneOf, EntryAt, IdentityAt, ValidPath;
      var current := LookUp();
      if current.Err? { return Some(current.code); }
      return if current.value != Some(spec.identity) then Some(ErrorCode.Conflict) else None;
    }

    /** The part of `run_download_with_staging` that reads the source. */
    method ReadSource() returns (r: Result<seq<byte>>)
      requires Ready() && spec.Download?
      modifies this
      ensures Valid()
      ensures r.Ok? ==>
        && trace.looks == SourceLooks(Subject(), spec.identity)
        && (!trace.changed ==> trace.files == [Opening(Subject(), r.value)])
        && trace.phase.Streaming? && trace.book == EMPTY_LEDGER.(written := r.value)
        && (spec.expectedSize.Some? ==> |r.value| == spec.expectedSize.value)
        && ValidPath(Subject()) && Listable(Subject())
      ensures r.Err? ==> trace.book.commits == [] && CanEnd(trace.phase, OutcomeOf(Err(r.code)))
      ensures r.Err? && r.code.Cancelled? ==> job.token
      ensures old(Calm()) && ValidPath(Subject()) && Listable(Subject()) &&
              SourceAsApproved(old(Here()).remote, spec.identity, spec.expectedSize) ==>
        && Calm() && Here() == old(Here())
        && if r.Ok? then r.value == Here().remote.value.1.content else r.code.Cancelled?
    {
      hide Consistent, AllHeard, Explained, CalmFor, SceneOf, ValidPath, Listable, Passed, Tampers;
      var changed := CheckSource();
      if changed.Some? { return Err(changed.value); }
      var directory := CheckLocal();
      if !directory { return Err(LocalAccess); }
      ShowTransferring();
      var downloaded := Download();
      if downloaded.Err? {
        return if job.token then Err(ErrorCode.Cancelled) else Err(downloaded.code);
      }
      changed := CheckComplete(|downloaded.value|);
      return if changed.Some? then Err(changed.value) else downloaded;
    }

    /** The sync of the local temporary file. */
    method SyncLocal() returns (ok: bool)
      requires Valid()
      modifies this
      ensures Valid() && guard == old(guard) && OnlySaw(old(trace), trace, if ok then [SyncedLocal] else [])
      ensures ok <==> script(old(world.now)).localOk
      ensures old(job.token) ==> job.token
      ensures old(Calm()) ==> ok && Calm() && Here() == old(Here())
    {
      hide Consistent, AllHeard, Explained, CalmFor, SceneOf, Passed, Tampers;
      var e := Tick();
      if e.localOk { See([SyncedLocal]); }
      return e.localOk;
    }

    /** The checks of `run_download_with_staging` between reading and finalization. */
    method CheckComplete(count: nat) returns (failure: Option<ErrorCode>)
      requires Valid() && trace.phase.Streaming? && spec.Download?
      modifies this
      ensures Valid()
      ensures trace == old(trace).(looks := trace.looks, moments := trace.moments, tampered := trace.tampered)
      ensures failure.None? ==>
        && trace.looks == old(trace.looks) + [SawEntry(Subject(), Some(spec.identity)), SyncedLocal]
        && (spec.expectedSize.Some? ==> count == spec.expectedSize.value)
      ensures failure.Some? ==> !failure.value.OutcomeUnknown? && (failure.value.Cancelled? ==> job.token)
      ensures old(Calm()) && ValidPath(Subject()) && IdentityAt(old(Here()).remote) == Some(spec.identity) &&
              (spec.expectedSize.Some? ==> count == spec.expectedSize.value) ==>
        Calm() && Here() == old(Here()) && (failure.Some? ==> failure.value.Cancelled?)
    {
      hide Consistent, AllHeard, Explained, CalmFor, SceneOf, IdentityAt, ValidPath, Passed, Tampers;
      if spec.expectedSize.Some? && spec.expectedSize.value != count { return Some(ErrorCode.Transfer); }
      failure := CheckSource();
      if failure.Some? { return; }
      var synced := SyncLocal();
      if !synced { return Some(ErrorCode.Transfer); }
      return if job.token then Some(ErrorCode.Cancelled) else None;
    }

    /** The local target is what was approved. */
    method CheckTarget() returns (failure: Option<ErrorCode>)
      requires Valid() && spec.Download?
      modifies this
      ensures Valid() && guard == old(guard)
      ensures trace == old(trace).(looks := trace.looks, moments := trace.moments, tampered := trace.tampered)
      ensures failure.None? ==> trace.looks == old(trace.looks) + TargetLooks(spec.fileName, spec.localAction)
      ensures failure.Some? ==> Plain(failure.value)
      ensures old(Calm()) && LocalIdentity(old(Here()).local) == Approved(spec.localAction) ==>
        Calm() && Here() == old(Here()) && failure.None?
    {
      hide Consistent, AllHeard, Explained, CalmFor, EntryAt, Passed, Tampers;
      var look := Tick();
      if !look.localOk { return Some(LocalAccess); }
      var current := LocalIdentityAt(world.local, spec.fileName);
      See([CheckedLocal, SawLocal(spec.fileName, current)]);
      return if current != Approved(spec.localAction) then Some(ErrorCode.Conflict) else None;
    }

    /** The part of `run_download_with_staging` after the temporary file is complete. */
    method FinalizeDownload(content: seq<byte>) returns (r: Result<()>)
      requires Valid() && trace.phase.Streaming? && trace.book == EMPTY_LEDGER.(written := content)
      requires spec.Download? && !spec.localAction.SkipExisting?
      modifies this
      ensures Valid() && CanEnd(trace.phase, OutcomeOf(r))
      ensures r.Ok? ==> trace.phase.Committed? && trace.book.written == content
      ensures r.Err? && r.code.Cancelled? ==> job.token
      ensures spec.localAction.CreateNew? ==> Unclobbered(trace.book)
      ensures Sent(trace.book, spec.fileName, old(trace.looks) + TargetLooks(spec.fileName, spec.localAction),
                   old(trace.files), !old(trace.changed))
      ensures forall c <- trace.book.commits :: c.content == content
      ensures old(Calm()) && LocalIdentity(old(Here()).local) == Approved(spec.localAction) ==>
        if r.Ok?
        then Here().remote == old(Here()).remote && Here().local.Some? && Here().local.value.content == content
        else r.code.Cancelled? && Here() == old(Here())
    {
      hide Consistent, AllHeard, Explained, CalmFor, SceneOf, TargetLooks;
      var entered := TryFinalize();
      if entered.Err? { return entered; }
      var failure := CheckTarget();
      if failure.Some? { return Err(failure.value); }
      r := PersistLocal(content, spec.localAction.ReplaceExisting?);
    }

    /** `run_download_with_staging`. */
    method RunDownload() returns (r: Result<()>)
      requires Ready() && spec.Download? && !spec.localAction.SkipExisting?
      modifies this
      ensures Valid() && CanEnd(trace.phase, OutcomeOf(r))
      ensures r.Ok? ==> trace.phase.Committed? && Approves(spec, trace.book.written)
      ensures r.Ok? ==> CanSucceed(spec, hardlink, posixRename, id)
      ensures r.Err? && r.code.Cancelled? ==> job.token
      ensures spec.localAction.CreateNew? ==> Unclobbered(trace.book)
      ensures SentAsApproved(trace.book, spec, fsync)
      ensures old(Calm()) && AsApproved(spec, old(Here())) && CanSucceed(spec, hardlink, posixRename, id) ==>
        if r.Ok? then Accomplished(spec, old(Here()), Here()) else r.code.Cancelled? && Here() == old(Here())
    {
      hide Consistent, AllHeard, Explained, CalmFor, SceneOf, NoEffect, ValidPath, Listable, SourceLooks, TargetLooks;
      var content := ReadSource();
      if content.Err? { return Err(content.code); }
      ghost var files, steady := trace.files, !trace.changed;
      r := FinalizeDownload(content.value);
      SentAreApproved(trace.book, spec, fsync, files, steady);
    }

    // ----- The whole task -----

    /**
     `run_transfer`, and the terminal state `spawn_job` derives from its result. Whatever the
     environment did, the outcome is honest about the destination and about the staging file.
     */
    method RunTransfer() returns (outcome: TransferState)
      requires Ready()
      modifies this
      // The task's actions are a run of the task protocol, and it ends where the protocol lets it.
      ensures Replay(trace.log) == Some(trace.phase) && Terminal(outcome) && CanEnd(trace.phase, outcome)
      // A skip does nothing. Otherwise the outcome is honest: Failed and Cancelled mean that nothing happened at
      // the destination, and Completed that exactly the approved bytes were put there, once; a lost reply to the
      // commit is never reported as anything but unknown. The guard asks once, only for what it owns, and an
      // owned staging file is never forgotten.
      ensures if IsSkip(spec) then outcome.Completed? && trace.book == EMPTY_LEDGER
              else Honest(trace, guard, outcome, spec)
      // An accepted cancellation excludes a commit; CreateNew never replaces a competitor.
      ensures job.token ==> trace.book.commits == []
      ensures CreatesNew(spec) ==> Unclobbered(trace.book)
      // A commit goes to the approved destination, only after every check, in order, as approved; and what a
      // download commits is what its source held, unless that changed or was ended early while it was read.
      ensures SentAsApproved(trace.book, spec, fsync)
      // Each of these checks was really answered that way by the environment, one after the other.
      ensures forall c <- trace.book.commits :: Heard(c.looks, c.moments, script, world.now)
      // Cancelled is said only of a job that somebody cancelled, before the task started or while it ran.
      ensures outcome.Cancelled? ==> job.token
      ensures old(job.token) ==> job.token
      ensures job.token ==> old(job.token) || Asked(script, old(world.now), world.now)
      // Only what can succeed completes. Undisturbed, it does, and leaves what it should; cancelled in time, it
      // leaves everything as it was.
      ensures outcome.Completed? && !IsSkip(spec) ==> CanSucceed(spec, hardlink, posixRename, id)
      ensures Undisturbed(spec, old(world)) && !IsSkip(spec) && CanSucceed(spec, hardlink, posixRename, id) ==>
        var before, after := SceneOf(old(world), spec), SceneOf(world, spec);
        if job.token then outcome.Cancelled? && after == before
        else outcome.Completed? && Accomplished(spec, before, after)
    {
      hide Heard, CalmFor, SceneOf, Peaceful, CanSucceed, AsApproved, Consistent, Honest, Replay, CanEnd;
      hide Accomplished, Approves;
      if IsSkip(spec) {
        SkippingDoesNothing(spec, fsync);
        trace := Acted(trace, Skip);
        return TransferState.Completed;
      }
      if Undisturbed(spec, world) { CalmAtStart(trace, world, spec); }
      var r;
      match spec {
        case Upload(_, _, _, _) => r := RunUpload();
        case EditorSave(_, _, _, _) => r := RunEditorSave();
        case Download(_, _, _, _, _) => r := RunDownload();
      }
      OutcomeIsHonest(trace, job, guard, world.remote, r, spec);
      CommittedIsNotCancelled(trace, job, guard, world.remote);
      outcome := OutcomeOf(r);
    }
  }
}
