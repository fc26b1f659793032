/** Types shared by the models: results, error codes and connection identities. */
module Common {
  datatype Option<+T> = None | Some(value: T)

  datatype Result<+T> = Ok(value: T) | Err(code: ErrorCode)

  /** The error codes that the modelled code produces or branches on. */
  datatype ErrorCode =
    | Cancelled
    | OutcomeUnknown
    | Conflict
    | Policy
    | FilePolicy
    | NotFound
    | SftpDenied
    | SftpUnavailable
    | SftpProtocol
    | Connection
    | Timeout
    | LocalAccess
    | Transfer
    | Discovery

  newtype byte = x: int | 0 <= x < 256

  type HostId = nat
  type HostSessionId = nat
  type SftpSessionId = nat

  /** A connection as both the transfer manager and the file-plan store identify it. */
  datatype Owner = Owner(host: HostId, session: HostSessionId, sftp: SftpSessionId)

  const U64_MAX: nat := 0xffff_ffff_ffff_ffff

  function SaturatingAdd(a: nat, b: nat): (r: nat)
    ensures a <= U64_MAX ==> r <= U64_MAX && (r == a + b || r == U64_MAX < a + b)
  {
    if a + b > U64_MAX then U64_MAX else a + b
  }

  /** What the remote editor reads and writes at most. */
  const MAX_EDITOR_BYTES: nat := 1024 * 1024

  ghost predicate NoDuplicates<T>(s: seq<T>) {
    forall i, j :: 0 <= i < j < |s| ==> s[i] != s[j]
  }

  lemma SubsetSize<T>(a: set<T>, b: set<T>)
    requires a <= b
    ensures |a| <= |b|
  {
    if a != {} {
      var x :| x in a;
      SubsetSize(a - {x}, b - {x});
    }
  }
}
