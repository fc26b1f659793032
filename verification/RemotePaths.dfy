/**
 Remote path names (crates/nexus-sftp/src/path.rs), as far as transfers depend on them: which
 paths are accepted, and where the staging file of a destination goes. Lengths are in bytes of UTF-8.
 */
module RemotePaths {
  import opened Common

  const MAX_PATH_BYTES: nat := 4096
  const MAX_NAME_BYTES: nat := 255

  function CharBytes(c: char): (n: nat)
    ensures 1 <= n <= 4
  {
    var code := c as int;
    if code < 0x80 then 1 else if code < 0x800 then 2 else if code < 0x1_0000 then 3 else 4
  }

  function Bytes(s: string): nat {
    if s == [] then 0 else CharBytes(s[0]) + Bytes(s[1..])
  }

  predicate ValidPath(path: string) {
    path != [] && Bytes(path) <= MAX_PATH_BYTES && '\0' !in path
  }

  predicate ValidChild(name: string) {
    name != [] && name != "." && name != ".." && '/' !in name && '\0' !in name && Bytes(name) <= MAX_NAME_BYTES
  }

  function TrimSlashes(s: string): string {
    if s != [] && s[|s| - 1] == '/' then TrimSlashes(s[..|s| - 1]) else s
  }

  /** The parts before and after the last slash. */
  function SplitLast(s: string): Option<(string, string)> {
    if s == [] then None
    else if s[|s| - 1] == '/' then Some((s[..|s| - 1], []))
    else
      match SplitLast(s[..|s| - 1])
      case None => None
      case Some(parts) => Some((parts.0, parts.1 + [s[|s| - 1]]))
  }

  function Parent(path: string): string {
    if path == "/" then "/"
    else
      match SplitLast(TrimSlashes(path))
      case None => "."
      case Some(parts) => if parts.0 == [] then "/" else parts.0
  }

  function ParentRemote(path: string): Result<string> {
    if ValidPath(path) then Ok(Parent(path)) else Err(FilePolicy)
  }

  function Joined(parent: string, child: string): string {
    if parent == "/" then "/" + child else TrimSlashes(parent) + "/" + child
  }

  function JoinRemote(parent: string, child: string): Result<string> {
    if ValidPath(parent) && ValidChild(child) && ValidPath(Joined(parent, child)) then Ok(Joined(parent, child))
    else Err(FilePolicy)
  }

  /** Where a file with this name would be staged for `destination`. */
  function StagingPath(destination: string, name: string): (r: Result<string>)
    ensures r.Ok? ==> ValidPath(destination)
    ensures r.Err? ==> r.code.FilePolicy?
  {
    match ParentRemote(destination)
    case Err(code) => Err(code)
    case Ok(parent) => JoinRemote(parent, name)
  }

  /** The name of an entry as `stat` shows it, and whether it accepts it. */
  predicate Listable(path: string) {
    var trimmed := TrimSlashes(path);
    var name := match SplitLast(trimmed) case None => trimmed case Some(parts) => parts.1;
    var parent := match SplitLast(path) case None => "" case Some(parts) => parts.0;
    ValidChild(name) && (parent != [] ==> JoinRemote(parent, name).Ok?)
  }

  predicate IsHex(id: string) {
    |id| == 32 && forall i :: 0 <= i < |id| ==> '0' <= id[i] <= '9' || 'a' <= id[i] <= 'f'
  }

  function PartName(id: string): string {
    ".nexusops-" + id + ".part"
  }

  function EditName(id: string): string {
    ".nexusops-" + id + ".edit.part"
  }

  // ----- Lemmas -----

  lemma {:induction false} BytesConcat(a: string, b: string)
    ensures Bytes(a + b) == Bytes(a) + Bytes(b)
  {
    if a == [] {
      assert a + b == b;
    } else {
      BytesConcat(a[1..], b);
      assert (a + b)[1..] == a[1..] + b;
    }
  }

  lemma {:induction false} TrimIsPrefix(s: string)
    ensures TrimSlashes(s) <= s
  {
    if s != [] && s[|s| - 1] == '/' { TrimIsPrefix(s[..|s| - 1]); }
  }

  lemma {:induction false} SplitLastJoins(s: string)
    ensures SplitLast(s).Some? <==> '/' in s
    ensures SplitLast(s).Some? ==>
      var (before, after) := SplitLast(s).value; s == before + "/" + after && '/' !in after
  {
    if s != [] && s[|s| - 1] != '/' {
      SplitLastJoins(s[..|s| - 1]);
      assert s == s[..|s| - 1] + [s[|s| - 1]];
    } else if s != [] {
      assert s == s[..|s| - 1] + "/" + [];
    }
  }

  lemma PrefixIsShorter(a: string, s: string)
    requires a <= s
    ensures Bytes(a) <= Bytes(s) && ('\0' in a ==> '\0' in s)
  {
    BytesConcat(a, s[|a|..]);
    assert s == a + s[|a|..];
  }

  /** The parent of an accepted path is accepted. */
  lemma ParentIsValid(path: string)
    requires ValidPath(path)
    ensures ValidPath(Parent(path))
  {
    var trimmed := TrimSlashes(path);
    TrimIsPrefix(path);
    PrefixIsShorter(trimmed, path);
    SplitLastJoins(trimmed);
    assert Bytes(".") == 1 && Bytes("/") == 1;
    if SplitLast(trimmed).Some? {
      PrefixIsShorter(SplitLast(trimmed).value.0, trimmed);
    }
  }

  lemma JoinedIsClean(parent: string, child: string)
    requires ValidPath(parent) && ValidChild(child)
    ensures Joined(parent, child) != [] && '\0' !in Joined(parent, child)
    ensures Bytes(Joined(parent, child)) ==
      (if parent == "/" then 0 else Bytes(TrimSlashes(parent))) + 1 + Bytes(child)
  {
    TrimIsPrefix(parent);
    PrefixIsShorter(TrimSlashes(parent), parent);
    assert Bytes("/") == 1;
    BytesConcat("/", child);
    BytesConcat(TrimSlashes(parent) + "/", child);
    BytesConcat(TrimSlashes(parent), "/");
  }

  /** A staging path exists exactly if the destination is accepted and its directory leaves room for the name. */
  lemma StagingPathExactly(destination: string, name: string)
    requires ValidChild(name)
    ensures StagingPath(destination, name).Ok? <==>
      && ValidPath(destination)
      && (if Parent(destination) == "/" then 0 else Bytes(TrimSlashes(Parent(destination)))) + 1 + Bytes(name)
           <= MAX_PATH_BYTES
  {
    if ValidPath(destination) {
      ParentIsValid(destination);
      JoinedIsClean(Parent(destination), name);
    }
  }

  lemma {:induction false} AsciiBytes(s: string)
    requires forall i :: 0 <= i < |s| ==> s[i] as int < 0x80
    ensures Bytes(s) == |s|
  {
    if s != [] { AsciiBytes(s[1..]); }
  }

  /** The names of staging files are accepted as names; how long they are. */
  lemma StagingNames(id: string)
    requires IsHex(id)
    ensures ValidChild(PartName(id)) && Bytes(PartName(id)) == 47
    ensures ValidChild(EditName(id)) && Bytes(EditName(id)) == 52
  {
    AsciiBytes(PartName(id));
    AsciiBytes(EditName(id));
    assert PartName(id)[0] == '.' && PartName(id)[1] == 'n';
    assert EditName(id)[0] == '.' && EditName(id)[1] == 'n';
  }

  lemma SplitAfterSlash(dir: string, name: string)
    requires name != [] && '/' !in name
    ensures TrimSlashes(dir + "/" + name) == dir + "/" + name
    ensures SplitLast(dir + "/" + name) == Some((dir, name))
  {
    var path := dir + "/" + name;
    SplitLastJoins(path);
    var (before, after) := SplitLast(path).value;
    assert path[|dir|] == '/' && forall i :: |dir| < i < |path| ==> path[i] == name[i - |dir| - 1];
    assert path[|before|] == '/' && forall i :: |before| < i < |path| ==> path[i] == after[i - |before| - 1];
    assert |before| == |dir|;
    assert before == path[..|dir|] == dir && after == path[|dir| + 1..] == name;
  }

  /** In a directory with a long path an accepted destination may leave no room for its staging file. */
  lemma LongDirectoryIsRefused(dir: string, name: string, id: string)
    requires ValidPath(dir + "/" + name) && dir != [] && dir[|dir| - 1] != '/' && ValidChild(name) && IsHex(id)
    ensures StagingPath(dir + "/" + name, PartName(id)).Ok? <==> Bytes(dir) + 48 <= MAX_PATH_BYTES
    ensures StagingPath(dir + "/" + name, EditName(id)).Ok? <==> Bytes(dir) + 53 <= MAX_PATH_BYTES
  {
    hide Bytes, SplitLast, TrimSlashes, StagingPath, PartName, EditName;
    SplitAfterSlash(dir, name);
    NothingToTrim(dir);
    StagingNames(id);
    var path := dir + "/" + name;
    assert |path| > 1;
    assert Parent(path) == dir;
    StagingPathExactly(path, PartName(id));
    StagingPathExactly(path, EditName(id));
  }

  /** A file is staged under the new name in its own directory: the root, the current one or any other. */
  lemma StagedBeside(dir: string, name: string, staged: string)
    requires ValidChild(name) && ValidChild(staged)
    ensures StagingPath(name, staged).Ok? ==> StagingPath(name, staged).value == "./" + staged
    ensures StagingPath("/" + name, staged).Ok? ==> StagingPath("/" + name, staged).value == "/" + staged
    ensures dir != [] && dir[|dir| - 1] != '/' && StagingPath(dir + "/" + name, staged).Ok? ==>
      StagingPath(dir + "/" + name, staged).value == dir + "/" + staged
  {
    hide Bytes, SplitLast, TrimSlashes;
    SplitAfterSlash(dir, name);
    SplitAfterSlash([], name);
    assert [] + "/" + name == "/" + name;
    if dir != [] && dir[|dir| - 1] != '/' { NothingToTrim(dir); }
    NothingToTrim(".");
    NothingToTrim(name);
    NoSlash(name);
    assert |dir + "/" + name| > 1 && |"/" + name| > 1;
  }

  lemma {:induction false} NoSlash(name: string)
    requires '/' !in name
    ensures SplitLast(name) == None
  {
    if name != [] { NoSlash(name[..|name| - 1]); }
  }

  lemma NothingToTrim(s: string)
    requires s != [] && s[|s| - 1] != '/'
    ensures TrimSlashes(s) == s && s != "/"
  {
  }

  /** Such a destination exists: both of its staging names are refused, although the path itself is accepted. */
  lemma RoomlessDestination() returns (destination: string, id: string)
    ensures ValidPath(destination) && IsHex(id)
    ensures StagingPath(destination, PartName(id)).Err? && StagingPath(destination, EditName(id)).Err?
  {
    hide Bytes, StagingPath, TrimSlashes, SplitLast;
    var dir, name := seq(4060, _ => 'a'), "b";
    id := seq(32, _ => '0');
    destination := dir + "/" + name;
    AsciiBytes(dir);
    AsciiBytes(name);
    AsciiBytes(destination);
    assert '\0' !in destination;
    LongDirectoryIsRefused(dir, name, id);
  }
}
