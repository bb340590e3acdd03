/** Values shared by the transfer store and the remote-edit lifecycle. */
module Common {

  datatype Option<+T> = None | Some(value: T)

  /** 64-bit identifiers; Dafny checks that no operation on them overflows. */
  newtype u64 = x: int | 0 <= x < 0x1_0000_0000_0000_0000

  /** `SystemTime` as signed nanoseconds from the Unix epoch. */
  type Timestamp = int

  const NANOS_PER_SECOND := 1_000_000_000

  datatype Direction = Upload | Download

  datatype Endpoint = Local(path: string) | Remote(path: string)

  datatype MetadataPolicy = MetadataPolicy(permissions: bool, mtime: bool, symlinks: bool)

  datatype RenameStrategy = AppendCopySuffix | ExplicitName(name: string)

  datatype ConflictPolicy = Ask | OverwriteAll | SkipAll | RenameAll(strategy: RenameStrategy)

  datatype ErrorCode =
    | AuthFailed | HostKeyMismatch | LocalNetworkPermissionDenied | PermissionDenied
    | FileExists | NotFound | UnsupportedSymlink | MetadataPreservationFailed | ChannelClosed
    | NetworkTimeout | NetworkError | ServerDisconnected | Cancelled | Unknown

  datatype UserFacingError = UserFacingError(
    code: ErrorCode, title: string, message: string, detail: Option<string>, retryable: bool)

  /** `iter().position(..)`: the first element that passes the test. */
  function FirstIndex<T(!new)>(s: seq<T>, test: T -> bool): (r: Option<nat>)
    ensures r.Some? ==> r.value < |s| && test(s[r.value])
    ensures r.Some? ==> forall i | 0 <= i < r.value :: !test(s[i])
    ensures r.None? ==> forall i | 0 <= i < |s| :: !test(s[i])
  {
    if s == [] then None
    else if test(s[0]) then Some(0)
    else
      assert forall i | 1 <= i < |s| :: s[i] == s[1..][i - 1];
      match FirstIndex(s[1..], test)
      case None => None
      case Some(i) => Some(i + 1)
  }

  /** `Vec::retain`. */
  function Retain<T(!new)>(s: seq<T>, keep: T -> bool): (r: seq<T>)
    ensures forall x :: x in r <==> x in s && keep(x)
    ensures |r| <= |s|
    ensures |r| == |s| <==> r == s
  {
    if s == [] then []
    else if keep(s[0]) then [s[0]] + Retain(s[1..], keep)
    else Retain(s[1..], keep)
  }

  lemma {:induction false} RetainTwice<T(!new)>(s: seq<T>, a: T -> bool, b: T -> bool, both: T -> bool)
    requires forall x | x in s :: both(x) == (a(x) && b(x))
    ensures Retain(Retain(s, a), b) == Retain(s, both)
  {
    if s != [] {
      RetainTwice(s[1..], a, b, both);
    }
  }

  lemma {:induction false} RetainAgree<T(!new)>(s: seq<T>, a: T -> bool, b: T -> bool)
    requires forall x | x in s :: a(x) == b(x)
    ensures Retain(s, a) == Retain(s, b)
  {
    if s != [] {
      RetainAgree(s[1..], a, b);
    }
  }

  lemma {:induction false} RetainOneMore<T(!new)>(s: seq<T>, x: T, keep: T -> bool)
    ensures Retain(s + [x], keep) == Retain(s, keep) + (if keep(x) then [x] else [])
  {
    if s == [] {
      assert s + [x] == [x] && [x][1..] == [];
    } else {
      RetainOneMore(s[1..], x, keep);
      assert (s + [x])[1..] == s[1..] + [x];
    }
  }
}
