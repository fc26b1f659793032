/**
 What it takes for a transfer to succeed, said of the script of the environment and of the file systems
 before the transfer starts: requests are performed, other writers leave alone what the transfer is about,
 and everything is as it was approved. Somebody may cancel.
 */
module UndisturbedTransfers {
  import opened Common
  import opened TaskProtocol
  import opened RemotePaths
  import opened RemoteFiles
  import opened TransferTrace

  /** The part of the outside that a transfer is about. */
  datatype Scene = Scene(staging: Entry, remote: Entry, local: Option<LocalFile>)

  function SceneOf(w: World, spec: Spec): Scene {
    Scene(EntryAt(w.remote, Staging), EntryAt(w.remote, User(SubjectOf(spec))),
          if LocalName(spec) in w.local then Some(w.local[LocalName(spec)]) else None)
  }

  /** Other writers act, but not on the staging file or the subject of the transfer. */
  ghost predicate LeavesAlone(e: Env, spec: Spec) {
    && (forall fs :: Sound(fs) ==>
          && Sound(e.meddle(fs))
          && EntryAt(e.meddle(fs), Staging) == EntryAt(fs, Staging)
          && EntryAt(e.meddle(fs), User(SubjectOf(spec))) == EntryAt(fs, User(SubjectOf(spec))))
    && (forall m :: SameLocal(m, e.meddleLocal(m), LocalName(spec)))
  }

  ghost predicate SameLocal(m: LocalFiles, n: LocalFiles, name: string) {
    (name in m <==> name in n) && (name in m ==> m[name] == n[name])
  }

  predicate Obliging(e: Env) {
    e.fate.Perform? && e.localOk
  }

  ghost predicate Harmless(e: Env, spec: Spec) {
    Obliging(e) && LeavesAlone(e, spec)
  }

  ghost predicate Peaceful(w: World, spec: Spec) {
    forall n :: n >= w.now ==> Harmless(w.script(n), spec)
  }

  /** The editor can open it. */
  predicate Readable(entry: Entry) {
    && entry.Some? && |entry.value.1.content| <= MAX_EDITOR_BYTES
    && var revision := RevisionOf(entry.value.1.attributes); revision.Some? && !TooLarge(revision.value)
  }

  lemma RevisionMatches(a: Attributes)
    requires RevisionOf(a).Some?
    ensures Matches(a, RevisionOf(a).value)
  {
  }

  /** A script in which nobody does anything is peaceful, whatever the transfer. */
  lemma IdleScriptIsPeaceful(w: World, spec: Spec)
    requires forall n :: Obliging(w.script(n))
    requires forall n, fs :: w.script(n).meddle(fs) == fs
    requires forall n, m :: w.script(n).meddleLocal(m) == m
    ensures Peaceful(w, spec)
  {
    forall n | n >= w.now
      ensures Harmless(w.script(n), spec)
    {
      forall m
        ensures SameLocal(m, w.script(n).meddleLocal(m), LocalName(spec))
      {
      }
    }
  }

  /** The document is still what was approved, and it is one that the editor opens. */
  predicate DocumentAsApproved(entry: Entry, expected: EditorRevision, original: seq<byte>) {
    && entry.Some? && RevisionOf(entry.value.1.attributes) == Some(expected) && entry.value.1.content == original
    && |original| <= MAX_EDITOR_BYTES && !TooLarge(expected)
  }

  predicate SourceAsApproved(entry: Entry, identity: EntryIdentity, size: Option<nat>) {
    && entry.Some? && IdentityOf(entry.value.1.attributes) == identity && identity.kind.File?
    && |entry.value.1.content| <= U64_MAX && (size.Some? ==> |entry.value.1.content| == size.value)
  }

  function LocalIdentity(file: Option<LocalFile>): Option<nat> {
    if file.Some? then Some(file.value.identity) else None
  }

  predicate AsApproved(spec: Spec, s: Scene) {
    match spec
    case Upload(_, _, _, action) => s.staging.None? && IdentityAt(s.remote) == Approved(action)
    case EditorSave(_, expected, original, _) => s.staging.None? && DocumentAsApproved(s.remote, expected, original)
    case Download(_, identity, size, _, action) =>
      SourceAsApproved(s.remote, identity, size) && LocalIdentity(s.local) == Approved(action)
  }

  /** The subject is this file object, with this content. */
  predicate IsOpen(s: Scene, handle: nat, content: seq<byte>) {
    s.remote.Some? && s.remote.value.0 == handle && s.remote.value.1.content == content
  }

  /** Of the open file with content `source` this much was read; if there is no more, then all of it. */
  ghost predicate Received(w: World, handle: nat, content: seq<byte>, source: seq<byte>, more: bool) {
    ContentOf(w.remote, handle) == Some(source) && content <= source && (!more ==> content == source)
  }

  /** Nothing in the script or in the file systems stands in the way; somebody may cancel. */
  ghost predicate Undisturbed(spec: Spec, w: World) {
    Sound(w.remote) && Peaceful(w, spec) && AsApproved(spec, SceneOf(w, spec))
  }

  /** The subject has the content, and no staging file is left. */
  predicate Delivered(s: Scene, content: seq<byte>) {
    s.staging.None? && s.remote.Some? && s.remote.value.1.content == content
  }

  /** What an undisturbed transfer leaves behind. */
  predicate Accomplished(spec: Spec, before: Scene, after: Scene) {
    match spec
    case Upload(input, _, _, _) => Delivered(after, input)
    case EditorSave(bytes, expected, _, _) =>
      Delivered(after, bytes) && Preserves(after.remote.value.1.attributes, expected)
    case Download(_, _, _, _, _) =>
      && before.remote.Some? && after.remote == before.remote
      && after.local.Some? && after.local.value.content == before.remote.value.1.content
  }

  // ----- While it runs -----

  /** The staging file is the task's own, regular and untouched, and another file than the subject. */
  ghost predicate InHand(t: Trace, s: Scene) {
    t.phase.Owned? || t.phase == Final(true) ==>
      && s.staging.Some? && s.staging.value.0 == t.book.inode
      && s.staging.value.1.content == t.book.written && IsRegular(s.staging.value.1.attributes)
      && (s.remote.Some? ==> s.remote.value.0 != t.book.inode)
  }

  ghost predicate CalmFor(t: Trace, w: World, spec: Spec) {
    && Sound(w.remote) && Peaceful(w, spec)
    && !t.tampered && !t.changed && InHand(t, SceneOf(w, spec))
  }

  lemma CalmAtStart(t: Trace, w: World, spec: Spec)
    requires Undisturbed(spec, w) && t == NOTHING_DONE
    ensures CalmFor(t, w, spec)
  {
  }

  lemma PeaceGoesOn(w: World, spec: Spec)
    requires Sound(w.remote) && Peaceful(w, spec)
    ensures Sound(Passed(w).remote) && Peaceful(Passed(w), spec) && SceneOf(Passed(w), spec) == SceneOf(w, spec)
    ensures Obliging(w.script(w.now))
  {
    var e := w.script(w.now);
    assert Harmless(e, spec);
    assert SameLocal(w.local, e.meddleLocal(w.local), LocalName(spec));
  }

  lemma CalmTick(t: Trace, w: World, spec: Spec)
    requires CalmFor(t, w, spec)
    ensures CalmFor(t, Passed(w), spec) && SceneOf(Passed(w), spec) == SceneOf(w, spec)
    ensures Obliging(w.script(w.now)) && !Tampers(t, w.remote, Passed(w).remote) && !t.changed
    ensures SceneOf(w, spec).remote.Some? ==>
      var h := SceneOf(w, spec).remote.value.0; ContentOf(Passed(w).remote, h) == ContentOf(w.remote, h)
  {
    hide Peaceful;
    PeaceGoesOn(w, spec);
    assert SceneOf(w, spec).staging == EntryAt(w.remote, Staging);
    assert SceneOf(Passed(w), spec).staging == EntryAt(Passed(w).remote, Staging);
  }

  /** Steps that leave the file systems alone. */
  lemma CalmGoesOn(t: Trace, w: World, spec: Spec, u: Trace)
    requires CalmFor(t, w, spec) && u.tampered == t.tampered && u.changed == t.changed
    requires u.phase.Owned? || u.phase == Final(true) ==> u.book == t.book && (t.phase.Owned? || t.phase == Final(true))
    ensures CalmFor(u, w, spec)
  {
    hide Peaceful, Sound;
  }

  lemma CalmIsSteady(t: Trace, w: World, spec: Spec)
    requires CalmFor(t, w, spec)
    ensures !t.changed
  {
  }

  lemma CalmSubjectIsThere(t: Trace, w: World, spec: Spec)
    requires CalmFor(t, w, spec) && SceneOf(w, spec).remote.Some?
    ensures SceneOf(w, spec).remote.value.0 in w.remote.nodes && !t.changed
  {
  }

  lemma CalmHoldsStaging(t: Trace, w: World, spec: Spec)
    requires CalmFor(t, w, spec) && (t.phase.Owned? || t.phase == Final(true))
    ensures Staging in w.remote.names && w.remote.names[Staging] in w.remote.nodes
    ensures SceneOf(w, spec).remote.None? ==> User(SubjectOf(spec)) !in w.remote.names
    ensures var s := SceneOf(w, spec);
      s.staging.Some? && s.staging.value.1.content == t.book.written && IsRegular(s.staging.value.1.attributes)
  {
    hide Peaceful;
  }

  lemma CalmCreate(t: Trace, w: World, spec: Spec, node: Node)
    requires CalmFor(t, w, spec) && t.phase.Streaming? && t.book == EMPTY_LEDGER && SceneOf(w, spec).staging.None?
    requires node.content == [] && IsRegular(node.attributes)
    ensures CanCreate(w.remote)
    ensures var u := w.(remote := Created(w.remote, node));
      && CalmFor(Acted(t, Create(Confirmed)).(book := EMPTY_LEDGER.(inode := w.remote.next)), u, spec)
      && SceneOf(u, spec) == SceneOf(w, spec).(staging := Some((w.remote.next, node)))
  {
  }

  lemma CalmWrite(t: Trace, w: World, spec: Spec, data: seq<byte>, e: Env)
    requires CalmFor(t, w, spec) && t.phase.Owned?
    ensures t.book.inode in w.remote.nodes
    ensures var written := t.book.written + data;
      var u := w.(remote := Written(w.remote, t.book.inode, |t.book.written|, data, e));
      && CalmFor(t.(book := t.book.(written := written)), u, spec)
      && SceneOf(u, spec) == SceneOf(w, spec).(staging := SceneOf(u, spec).staging)
  {
    WriteAtEnd(t.book.written, data);
  }

  lemma CalmRestate(t: Trace, w: World, spec: Spec, attributes: Attributes)
    requires CalmFor(t, w, spec) && t.phase.Owned? && IsRegular(attributes)
    ensures EntryAt(w.remote, Staging).Some?
    ensures var u := w.(remote := Restated(w.remote, attributes));
      && CalmFor(t, u, spec)
      && SceneOf(u, spec) == SceneOf(w, spec).(staging := Some((t.book.inode, Node(t.book.written, attributes))))
  {
  }

  lemma CalmLink(t: Trace, w: World, spec: Spec, u: Trace)
    requires CalmFor(t, w, spec) && t.phase == Final(true) && SceneOf(w, spec).remote.None?
    requires u.phase.Linked? && u.tampered == t.tampered && u.changed == t.changed
    ensures Staging in w.remote.names
    ensures var v := w.(remote := HardLinked(w.remote, User(SubjectOf(spec))));
      && CalmFor(u, v, spec)
      && SceneOf(v, spec) == SceneOf(w, spec).(remote := SceneOf(w, spec).staging)
  {
  }

  lemma CalmRename(t: Trace, w: World, spec: Spec, u: Trace)
    requires CalmFor(t, w, spec) && t.phase == Final(true)
    requires u.phase.Committed? && u.tampered == t.tampered && u.changed == t.changed
    ensures Staging in w.remote.names
    ensures var v := w.(remote := Renamed(w.remote, User(SubjectOf(spec))));
      && CalmFor(u, v, spec)
      && SceneOf(v, spec) == SceneOf(w, spec).(remote := SceneOf(w, spec).staging, staging := None)
  {
  }

  lemma CalmUnlink(t: Trace, w: World, spec: Spec, u: Trace)
    requires CalmFor(t, w, spec) && SceneOf(w, spec).staging.Some?
    requires u.phase.Committed? && u.tampered == t.tampered && u.changed == t.changed
    ensures Staging in w.remote.names
    ensures var v := w.(remote := Removed(w.remote, Staging));
      CalmFor(u, v, spec) && SceneOf(v, spec) == SceneOf(w, spec).(staging := None)
  {
  }

  lemma SceneAfterPersisting(w: World, spec: Spec, file: LocalFile)
    ensures SceneOf(w.(local := w.local[LocalName(spec) := file]), spec) == SceneOf(w, spec).(local := Some(file))
    ensures SceneOf(w, spec).local.None? <==> LocalName(spec) !in w.local
  {
  }

  /** The guard's removal takes the staging name away again. */
  lemma SceneAfterRemoval(t: Trace, w: World, spec: Spec)
    requires CalmFor(t, w, spec)
    ensures SceneOf(w.(remote := Removed(w.remote, Staging)), spec) == SceneOf(w, spec).(staging := None)
    ensures Staging !in w.remote.names ==> SceneOf(w, spec).staging.None?
  {
  }
}
