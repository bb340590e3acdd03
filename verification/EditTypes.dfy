/** Remote-edit sessions, the intents that move them and the effects they ask for. */
module EditTypes {
  import opened Common

  type TabId = nat
  type SessionId = nat
  type CheckId = nat
  type ProfileId = nat

  datatype PoolIdentity = Saved(fingerprint: string) | Ephemeral(session: nat)

  datatype ConnectionKey = ConnectionKey(host: string, port: nat, username: string, identity: PoolIdentity)

  datatype Snapshot = Snapshot(size: Option<nat>, modifiedAt: Option<Timestamp>)

  /** Size and mtime of the temp file, read by the caller. */
  datatype LocalFacts = LocalFacts(size: nat, mtime: Timestamp)

  datatype Phase = Downloading | Editing | CheckingRemote | UploadingBack | RemoteConflict

  datatype Session = Session(
    id: SessionId,
    remotePath: string,
    ioPath: string,
    tabId: TabId,
    epoch: nat,
    profileId: ProfileId,
    key: ConnectionKey,
    tempPath: string,
    phase: Phase,
    snapshot: Snapshot,
    pendingCheck: Option<CheckId>,
    checkingMtime: Option<Timestamp>,
    localModified: bool,
    localBaseline: Option<LocalFacts>)

  datatype PendingEdit = PendingEdit(
    remotePath: string,
    ioPath: string,
    size: Option<nat>,
    modifiedAt: Option<Timestamp>,
    epoch: nat,
    key: ConnectionKey,
    tabId: TabId,
    profileId: ProfileId)

  datatype Choice = Overwrite | DiscardLocal | Later

  datatype Notice =
    | StillDownloading | CheckingServerFile | ReviewConflictBeforeReopen
    | LinkRepointed(conflict: bool) | PhaseBlocked(phase: Phase) | WrongConnection
    | LocalChangedDuringCheck | ServerCheckFailed | UploadStartFailed
    | DownloadFailed(fileName: string) | Uploaded | UploadFailed | UnsafeFileName

  datatype Command =
    | StartTransfer(tabId: TabId, epoch: nat, profileId: ProfileId, direction: Direction,
                    source: Endpoint, destination: Endpoint,
                    metadataPolicy: MetadataPolicy, conflictPolicy: ConflictPolicy)
    | CheckSnapshot(tabId: TabId, epoch: nat, sessionId: SessionId, checkId: CheckId, path: string)

  datatype Rollback = RevertCheckRollback | RestoreConflict | AbortDownloadRollback

  datatype Effect =
    | Dispatch(tabId: TabId, sessionId: SessionId, command: Command, rollback: Rollback)
    | OpenEditor(tabId: TabId, tempPath: string)
    | DeleteTempDir(path: string)
    | RebaseListing(tabId: TabId, path: string, snapshot: Snapshot)
    | NoticeTo(tabId: TabId, notice: Notice)

  datatype BeginResult = Start(pending: PendingEdit, effects: seq<Effect>) | Handled(effects: seq<Effect>)

  datatype StartResult = Started(sessionId: SessionId, tempPath: string, command: Command) | Refused(notice: Notice)

  datatype UploadRequest = Check(command: Command) | Rejected(notice: Notice)

  datatype CheckOutcome = Matched(snapshot: Snapshot) | CheckFailed

  datatype CheckResult = CheckResult(
    tabId: TabId, epoch: nat, sessionId: SessionId, checkId: CheckId, path: string, outcome: CheckOutcome)

  datatype Finished = Finished(direction: Direction, source: Endpoint, destination: Endpoint, succeeded: bool)

  // ----- what the transfers of a session are -----

  /** The command sends the temp file of `s` to its write-through path, in its tab and epoch, overwriting. */
  predicate UploadsBack(command: Command, s: Session) {
    && command.StartTransfer?
    && command.tabId == s.tabId && command.epoch == s.epoch && command.profileId == s.profileId
    && command.direction == Direction.Upload
    && command.source == Local(s.tempPath) && command.destination == Remote(s.ioPath)
    && command.conflictPolicy == OverwriteAll && command.metadataPolicy == MetadataPolicy(true, true, true)
  }

  /** The command fetches the write-through path of `s` into its temp file. */
  predicate Fetches(command: Command, s: Session) {
    && command.StartTransfer?
    && command.tabId == s.tabId && command.epoch == s.epoch && command.profileId == s.profileId
    && command.direction == Download
    && command.source == Remote(s.ioPath) && command.destination == Local(s.tempPath)
    && command.conflictPolicy == OverwriteAll && command.metadataPolicy == MetadataPolicy(true, true, true)
  }

  // ----- timestamps at whole-second granularity -----

  function TruncatedToSecs(t: Timestamp): Timestamp {
    if t < 0 then 0 else t - t % NANOS_PER_SECOND
  }

  function Truncated(s: Snapshot): Snapshot {
    s.(modifiedAt := match s.modifiedAt case None => None case Some(t) => Some(TruncatedToSecs(t)))
  }

  predicate AgreesAtSeconds(a: Snapshot, b: Snapshot) {
    Truncated(a) == Truncated(b)
  }

  // ----- file names and temp paths -----

  /** Length of `path` up to and including its last slash. */
  function AfterLastSlash(path: string): (n: nat)
    ensures n <= |path|
  {
    if path == "" then 0
    else if path[|path| - 1] == '/' then |path|
    else AfterLastSlash(path[..|path| - 1])
  }

  /** `Path::file_name`: the last component, past trailing slashes and dots; none for `..` or a root. */
  function FileName(path: string): Option<string>
    decreases |path|
  {
    var cut := AfterLastSlash(path);
    var tail := path[cut..];
    if tail == ".." then None
    else if tail != "" && tail != "." then Some(tail)
    else if cut == 0 then None
    else FileName(path[..cut - 1])
  }

  predicate IsBidiOrControl(c: char) {
    || c <= '\U{001F}' || '\U{007F}' <= c <= '\U{009F}'
    || c == '\U{200E}' || c == '\U{200F}' || c == '\U{061C}'
    || '\U{202A}' <= c <= '\U{202E}'
    || '\U{2066}' <= c <= '\U{2069}'
  }

  function SafeFileName(path: string): Option<string> {
    match FileName(path)
    case None => None
    case Some(name) => if exists i | 0 <= i < |name| :: IsBidiOrControl(name[i]) then None else Some(name)
  }

  function Digit(n: nat): (c: char)
    requires n < 10
    ensures c != '/'
  {
    "0123456789"[n]
  }

  function Decimal(n: nat): (s: string)
    ensures s != "" && '/' !in s
  {
    if n < 10 then [Digit(n)] else Decimal(n / 10) + [Digit(n % 10)]
  }

  function TempPath(dir: string, runId: string, id: SessionId, name: string): string {
    dir + "/" + runId + "/" + Decimal(id) + "/" + name
  }

  lemma {:induction false} DecimalInjective(a: nat, b: nat)
    requires Decimal(a) == Decimal(b)
    ensures a == b
  {
    var s, t := Decimal(a), Decimal(b);
    assert |s| >= 2 <==> a >= 10;
    assert |t| >= 2 <==> b >= 10;
    assert s[|s| - 1] == Digit(a % 10) && t[|t| - 1] == Digit(b % 10);
    if a >= 10 && b >= 10 {
      assert s[..|s| - 1] == Decimal(a / 10) && t[..|t| - 1] == Decimal(b / 10);
      DecimalInjective(a / 10, b / 10);
    }
  }

  /** The number that a string of digits writes. */
  function Reads(s: string): int {
    if s == "" then 0 else 10 * Reads(s[..|s| - 1]) + (s[|s| - 1] as int - '0' as int)
  }

  lemma {:induction false} DecimalReads(n: nat)
    ensures Reads(Decimal(n)) == n
  {
    assert Digit(n % 10) as int - '0' as int == n % 10;
    if n < 10 {
      assert Decimal(n)[..0] == "";
    } else {
      DecimalReads(n / 10);
      assert Decimal(n)[..|Decimal(n)| - 1] == Decimal(n / 10);
    }
  }

  /** The digits end where the first slash stands. */
  lemma SlashEndsDigits(a: string, b: string, x: string, y: string)
    requires '/' !in a && '/' !in b && a + "/" + x == b + "/" + y
    ensures a == b
  {
    var s, t := a + "/" + x, b + "/" + y;
    assert s[|a|] == '/' && t[|b|] == '/';
    assert s[..|a|] == a && t[..|b|] == b;
    assert forall i | 0 <= i < |a| :: s[i] == a[i];
    assert forall i | 0 <= i < |b| :: t[i] == b[i];
  }

  /** Temp paths of different sessions differ, whatever the files are called. */
  lemma TempPathsDiffer(dir: string, runId: string, a: SessionId, b: SessionId, x: string, y: string)
    requires TempPath(dir, runId, a, x) == TempPath(dir, runId, b, y)
    ensures a == b
  {
    var prefix := dir + "/" + runId + "/";
    var s, t := Decimal(a) + "/" + x, Decimal(b) + "/" + y;
    assert TempPath(dir, runId, a, x) == prefix + s;
    assert TempPath(dir, runId, b, y) == prefix + t;
    assert (prefix + s)[|prefix|..] == s && (prefix + t)[|prefix|..] == t;
    SlashEndsDigits(Decimal(a), Decimal(b), x, y);
    DecimalInjective(a, b);
  }
}
