/**
 The server's side of a transfer: a remote tree, what each SFTP request does to it, and an environment
 that acts between any two requests. The environment is an endless script. At each of its points it lets
 other writers change both file systems in any way, may deliver a cancel request, and decides whether the
 next request is performed, refused, or loses its reply. The requests are those of sections 6.3 to 6.5 of
 draft-ietf-secsh-filexfer-02 and the OpenSSH hardlink, posix-rename and fsync extensions.
 */
module RemoteFiles {
  import opened Common
  import opened TaskProtocol

  // ----- The tree -----

  /** The job's staging name carries its fresh job id, so no approved path equals it. */
  datatype Path = User(name: string) | Staging

  datatype EntryKind = File | Directory | Symlink | Other | Unknown
  datatype EntryIdentity = EntryIdentity(kind: EntryKind, size: Option<nat>, modified: Option<nat>)
  datatype EditorRevision = EditorRevision(identity: EntryIdentity, mode: nat, uid: nat, gid: nat)

  /** What the server tells about a file; it may leave fields out. */
  datatype Attributes = Attributes(kind: EntryKind, size: Option<nat>, modified: Option<nat>,
                                   mode: Option<nat>, uid: Option<nat>, gid: Option<nat>)

  datatype Node = Node(content: seq<byte>, attributes: Attributes)

  /** Names lead to file objects; `next` is the number of the next object. */
  datatype FileSystem = FileSystem(names: map<Path, nat>, nodes: map<nat, Node>, next: nat)

  type Entry = Option<(nat, Node)>

  /** No name leads nowhere, and the next number is free. */
  ghost predicate Sound(fs: FileSystem) {
    (forall p <- fs.names :: fs.names[p] in fs.nodes) && (forall n <- fs.nodes :: n < fs.next)
  }

  function EntryAt(fs: FileSystem, p: Path): Entry {
    if p in fs.names && fs.names[p] in fs.nodes then Some((fs.names[p], fs.nodes[fs.names[p]])) else None
  }

  /** What the staging name denotes: the file object and its content. */
  function Staged(fs: FileSystem): Option<(nat, seq<byte>)> {
    match EntryAt(fs, Staging)
    case None => None
    case Some((n, node)) => Some((n, node.content))
  }

  function ContentOf(fs: FileSystem, handle: nat): Option<seq<byte>> {
    if handle in fs.nodes then Some(fs.nodes[handle].content) else None
  }

  // ----- Attributes -----

  /** Without a mode there is no telling what kind of entry it is. */
  function IdentityOf(a: Attributes): EntryIdentity {
    EntryIdentity(if a.mode.None? then Unknown else a.kind, a.size, a.modified)
  }

  function IdentityAt(entry: Entry): Option<EntryIdentity> {
    if entry.Some? then Some(IdentityOf(entry.value.1.attributes)) else None
  }

  predicate IsRegular(a: Attributes) {
    a.mode.Some? && a.kind.File?
  }

  /** Only a regular file that shows all of its metadata can be edited. */
  function RevisionOf(a: Attributes): Option<EditorRevision> {
    if IsRegular(a) && a.uid.Some? && a.gid.Some? && a.size.Some? && a.modified.Some?
    then Some(EditorRevision(IdentityOf(a), a.mode.value, a.uid.value, a.gid.value))
    else None
  }

  predicate Matches(a: Attributes, r: EditorRevision) {
    IdentityOf(a) == r.identity && a.mode == Some(r.mode) && a.uid == Some(r.uid) && a.gid == Some(r.gid)
  }

  /** Attributes match a revision exactly if they show that very revision. */
  lemma MatchesExactly(a: Attributes, b: Attributes)
    requires RevisionOf(b).Some?
    ensures Matches(a, RevisionOf(b).value) <==> RevisionOf(a) == RevisionOf(b)
    ensures RevisionOf(b).value.identity.kind.File?
  {
  }

  const MODE_BITS: nat := 0x1000         // the low twelve bits of a mode are permissions
  const REGULAR_FILE: nat := 0x8000
  const OWNER_ONLY: nat := 0x180         // read and write for the owner

  /** The file has the owner and the permissions of `r`. */
  predicate Preserves(a: Attributes, r: EditorRevision) {
    IsRegular(a) && HasOwner(a, r.uid, r.gid) && a.mode.value % MODE_BITS == r.mode % MODE_BITS
  }

  lemma PreservesExactly(a: Attributes, b: Attributes)
    requires RevisionOf(b).Some?
    ensures Preserves(a, RevisionOf(b).value) <==>
      && a.kind.File? && a.uid == b.uid && a.gid == b.gid
      && a.mode.Some? && a.mode.value % MODE_BITS == b.mode.value % MODE_BITS
  {
  }

  function WithOwner(a: Attributes, uid: nat, gid: nat): Attributes {
    a.(uid := Some(uid), gid := Some(gid))
  }

  function WithPermissions(a: Attributes, permissions: nat): Attributes
    requires permissions < MODE_BITS
  {
    a.(mode := if a.mode.Some? then Some(a.mode.value / MODE_BITS * MODE_BITS + permissions) else None)
  }

  lemma PermissionsStick(a: Attributes, permissions: nat)
    requires permissions < MODE_BITS
    ensures var b := WithPermissions(a, permissions);
      IsRegular(b) == IsRegular(a) && b.uid == a.uid && b.gid == a.gid
      && (b.mode.Some? ==> b.mode.value % MODE_BITS == permissions)
  {
  }

  /** What a `setstat` request makes of the attributes. */
  function Amended(a: Attributes, owner: Option<(nat, nat)>, permissions: Option<nat>): Attributes
    requires permissions.Some? ==> permissions.value < MODE_BITS
  {
    var b := if owner.Some? then WithOwner(a, owner.value.0, owner.value.1) else a;
    if permissions.Some? then WithPermissions(b, permissions.value) else b
  }

  lemma AmendedStaysRegular(a: Attributes, owner: Option<(nat, nat)>, permissions: Option<nat>)
    requires permissions.Some? ==> permissions.value < MODE_BITS
    ensures IsRegular(Amended(a, owner, permissions)) == IsRegular(a)
  {
  }

  predicate HasOwner(a: Attributes, uid: nat, gid: nat) {
    a.uid == Some(uid) && a.gid == Some(gid)
  }

  /** Setting the owner where it differs, and then the permissions, is enough. */
  lemma AmendmentsPreserve(a: Attributes, r: EditorRevision)
    requires IsRegular(a)
    ensures var owned := if HasOwner(a, r.uid, r.gid) then a else Amended(a, Some((r.uid, r.gid)), None);
      Preserves(Amended(owned, None, Some(r.mode % MODE_BITS)), r)
  {
    PermissionsStick(a, r.mode % MODE_BITS);
  }

  // ----- What requests do -----

  /** A write at `offset`; a gap past the end reads as zero bytes. */
  function WriteAt(content: seq<byte>, offset: nat, data: seq<byte>): seq<byte> {
    var base := if |content| < offset then content + seq(offset - |content|, _ => 0 as byte) else content;
    base[..offset] + data + (if offset + |data| < |base| then base[offset + |data|..] else [])
  }

  lemma WriteAtEnd(content: seq<byte>, data: seq<byte>)
    ensures WriteAt(content, |content|, data) == content + data
  {
  }

  /** The data are what the content holds from `offset` on, and empty only at its end. */
  ghost predicate Continues(content: seq<byte>, offset: nat, data: seq<byte>) {
    && (data == [] ==> offset >= |content|)
    && (offset <= |content| ==>
          offset + |data| <= |content| && content[..offset] + data == content[..offset + |data|])
  }

  /** The reply to a read at `offset`: some bytes, as many as the server likes, and none only at the end. */
  function Piece(content: seq<byte>, offset: nat, size: nat): (r: seq<byte>)
    ensures Continues(content, offset, r) && (offset >= |content| ==> r == [])
  {
    if offset >= |content| then []
    else
      var end := if offset + 1 + size < |content| then offset + 1 + size else |content|;
      content[offset..end]
  }

  predicate CanCreate(fs: FileSystem) {
    Staging !in fs.names && fs.next !in fs.nodes
  }

  /** A new file as the client asks for it; the server adds what it likes. */
  function NewFile(e: Env): Node {
    Node([], Attributes(File, Some(0), e.stamp, Some(REGULAR_FILE + OWNER_ONLY), e.uid, e.gid))
  }

  function Created(fs: FileSystem, node: Node): FileSystem {
    FileSystem(fs.names[Staging := fs.next], fs.nodes[fs.next := node], fs.next + 1)
  }

  function Written(fs: FileSystem, handle: nat, offset: nat, data: seq<byte>, e: Env): FileSystem
    requires handle in fs.nodes
  {
    var node := fs.nodes[handle];
    var content := WriteAt(node.content, offset, data);
    fs.(nodes := fs.nodes[handle := Node(content, node.attributes.(size := Some(|content|), modified := e.stamp))])
  }

  function Restated(fs: FileSystem, attributes: Attributes): FileSystem
    requires EntryAt(fs, Staging).Some?
  {
    var (n, node) := EntryAt(fs, Staging).value;
    fs.(nodes := fs.nodes[n := node.(attributes := attributes)])
  }

  /** `hardlink` gives the staging file a second name. It is refused unless `to` is free. */
  function HardLinked(fs: FileSystem, to: Path): FileSystem
    requires Staging in fs.names
  {
    fs.(names := fs.names[to := fs.names[Staging]])
  }

  /** `posix-rename` moves the staging name over `to`, whatever `to` denoted. */
  function Renamed(fs: FileSystem, to: Path): FileSystem
    requires Staging in fs.names
  {
    fs.(names := (fs.names - {Staging})[to := fs.names[Staging]])
  }

  function Removed(fs: FileSystem, p: Path): FileSystem {
    fs.(names := fs.names - {p})
  }

  function StagedContent(fs: FileSystem): seq<byte> {
    if Staged(fs).Some? then Staged(fs).value.1 else []
  }

  // ----- The environment -----

  datatype LocalFile = LocalFile(identity: nat, content: seq<byte>)
  type LocalFiles = map<string, LocalFile>

  datatype Status = Eof | NoSuchFile | PermissionDenied | OpUnsupported | NoConnection | ConnectionLost | Failure

  function MapStatus(s: Status): (code: ErrorCode)
    ensures !code.OutcomeUnknown? && !code.Cancelled?
    ensures (code.NotFound? <==> s.NoSuchFile?) && (code.Connection? <==> s.NoConnection? || s.ConnectionLost?)
    ensures (code.SftpDenied? <==> s.PermissionDenied?) && (code.SftpUnavailable? <==> s.OpUnsupported?)
  {
    match s
    case NoSuchFile => NotFound
    case PermissionDenied => SftpDenied
    case OpUnsupported => SftpUnavailable
    case NoConnection | ConnectionLost => Connection
    case Eof | Failure => SftpProtocol
  }

  /** The server performs a request if it can, refuses it, or its reply never arrives. */
  datatype Fate = Perform | Refuse(status: Status) | Drop(executed: bool)

  function ReplyTo(f: Fate, feasible: bool): Reply {
    match f
    case Perform => if feasible then Confirmed else Refused
    case Refuse(_) => Refused
    case Drop(_) => Lost
  }

  predicate Executes(f: Fate, feasible: bool) {
    feasible && (f.Perform? || (f.Drop? && f.executed))
  }

  function StatusOf(f: Fate): Status {
    if f.Refuse? then f.status else Failure
  }

  /** `map_error`: a status is authoritative, a missing reply is a timeout or a broken stream. */
  function RequestError(f: Fate): (code: ErrorCode)
    ensures !code.OutcomeUnknown? && !code.Cancelled?
    ensures (code.Timeout? <==> f.Drop?) && (code.NotFound? <==> f == Refuse(NoSuchFile))
    ensures code.SftpDenied? <==> f == Refuse(PermissionDenied)
  {
    if f.Drop? then Timeout else MapStatus(StatusOf(f))
  }

  /** An answer that the name does not exist is as good as its removal. */
  function RemovalResult(f: Fate): (r: Result<()>)
    ensures f.Perform? ==> r.Ok?
    ensures r.Err? ==> !r.code.OutcomeUnknown? && !r.code.Cancelled?
  {
    match f
    case Perform => Ok(())
    case Refuse(status) => if status.NoSuchFile? then Ok(()) else Err(MapStatus(status))
    case Drop(_) => Err(SftpProtocol)
  }

  lemma RemovalSucceedsExactly(f: Fate)
    ensures RemovalResult(f).Ok? <==> f.Perform? || f == Refuse(NoSuchFile)
  {
  }

  /** The server's side of the exclusive creation. */
  function ServeCreate(fs: FileSystem, e: Env): (r: (FileSystem, Reply))
    ensures r.1.Confirmed? ==> CanCreate(fs) && EntryAt(r.0, Staging) == Some((fs.next, NewFile(e)))
    ensures e.fate.Perform? && CanCreate(fs) ==> r.1.Confirmed?
  {
    (if Executes(e.fate, CanCreate(fs)) then Created(fs, NewFile(e)) else fs, ReplyTo(e.fate, CanCreate(fs)))
  }

  /** A lost reply to a creation says nothing: the file may be there all the same. */
  lemma LostCreationMayLeaveFile(fs: FileSystem, e: Env)
    requires CanCreate(fs) && e.fate.Drop?
    ensures ServeCreate(fs, e).1.Lost?
    ensures EntryAt(ServeCreate(fs, e).0, Staging).Some? <==> e.fate.executed
  {
  }

  datatype Env = Env(
    meddle: FileSystem -> FileSystem,   // what other writers do to the remote tree
    meddleLocal: LocalFiles -> LocalFiles,
    cancel: bool,                       // a cancel, disconnect or shutdown call arrives
    fate: Fate,
    race: bool,                         // how a race with the cancellation token ends, or a reply is understood
    localOk: bool,                      // whether a local validation or local I/O succeeds
    size: nat,                          // how much a read returns
    serial: nat,                        // the identity of a new local file
    stamp: Option<nat>, uid: Option<nat>, gid: Option<nat>
  )

  /** Both file systems, and what the environment is going to do from point `now` on. */
  datatype World = World(remote: FileSystem, local: LocalFiles, script: nat -> Env, now: nat)

  /** The environment acts. */
  function Passed(w: World): World {
    var e := w.script(w.now);
    World(e.meddle(w.remote), e.meddleLocal(w.local), w.script, w.now + 1)
  }
}
