/**
 The remote-edit lifecycle as functions on values: what every intent makes of
 the session list, and which effects it asks for.
 */
module EditSpec {
  import opened Common
  import opened EditTypes

  datatype Edits = Edits(sessions: seq<Session>, nextId: SessionId, nextCheckId: CheckId, dir: string, runId: string)

  // ----- looking sessions up -----

  function Last(sessions: seq<Session>, test: Session -> bool): (r: Option<nat>)
    ensures r.Some? ==> r.value < |sessions| && test(sessions[r.value])
    ensures r.None? ==> forall i | 0 <= i < |sessions| :: !test(sessions[i])
  {
    if sessions == [] then None
    else if test(sessions[|sessions| - 1]) then Some(|sessions| - 1)
    else Last(sessions[..|sessions| - 1], test)
  }

  function HasId(id: SessionId): Session -> bool { (s: Session) => s.id == id }
  function HasTemp(path: string): Session -> bool { (s: Session) => s.tempPath == path }
  function BoundTo(key: ConnectionKey, io: string): Session -> bool { (s: Session) => s.key == key && s.ioPath == io }
  function OpenedAs(key: ConnectionKey, remote: string): Session -> bool {
    (s: Session) => s.key == key && s.remotePath == remote
  }
  function OnTab(tab: TabId): Session -> bool { (s: Session) => s.tabId == tab }
  function OffTab(tab: TabId): Session -> bool { (s: Session) => s.tabId != tab }

  function Find(e: Edits, id: SessionId): (r: Option<nat>)
    ensures r.Some? ==> r.value < |e.sessions| && e.sessions[r.value].id == id
    ensures r.None? ==> forall i | 0 <= i < |e.sessions| :: e.sessions[i].id != id
  {
    FirstIndex(e.sessions, HasId(id))
  }

  function Put(e: Edits, i: nat, s: Session): Edits
    requires i < |e.sessions|
  {
    e.(sessions := e.sessions[i := s])
  }

  function RemoveAt(e: Edits, i: nat): Edits
    requires i < |e.sessions|
  {
    e.(sessions := e.sessions[..i] + e.sessions[i + 1..])
  }

  // ----- opening -----

  function RemoveForTab(e: Edits, tab: TabId): (Edits, seq<Session>) {
    (e.(sessions := Retain(e.sessions, OffTab(tab))), Retain(e.sessions, OnTab(tab)))
  }

  function CleanUps(removed: seq<Session>): seq<Effect> {
    if removed == [] then []
    else CleanUps(removed[..|removed| - 1]) + [DeleteTempDir(removed[|removed| - 1].tempPath)]
  }

  function BlockedBy(phase: Phase): Notice
    requires phase.Downloading? || phase.CheckingRemote? || phase.RemoteConflict?
  {
    match phase
    case Downloading => StillDownloading
    case CheckingRemote => CheckingServerFile
    case RemoteConflict => ReviewConflictBeforeReopen
  }

  /** The session a re-pointed link left behind, if `pending` meets one. */
  function Repointed(e: Edits, pending: PendingEdit): (r: Option<nat>)
    ensures r.Some? ==> r.value < |e.sessions| && e.sessions[r.value].ioPath != pending.ioPath
  {
    match Last(e.sessions, OpenedAs(pending.key, pending.remotePath))
    case None => None
    case Some(i) => if e.sessions[i].ioPath != pending.ioPath then Some(i) else None
  }

  function Begin(e: Edits, pending: PendingEdit, live: TabId -> bool): (Edits, BeginResult) {
    match Repointed(e, pending)
    case None => Deduplicate(e, pending, live, [])
    case Some(i) =>
      var found := e.sessions[i];
      if live(found.tabId) then
        (e, Handled([NoticeTo(pending.tabId, LinkRepointed(found.phase.RemoteConflict?))]))
      else
        var (reaped, removed) := RemoveForTab(e, found.tabId);
        Deduplicate(reaped, pending, live, CleanUps(removed))
  }

  function Deduplicate(e: Edits, pending: PendingEdit, live: TabId -> bool, reaped: seq<Effect>): (Edits, BeginResult) {
    match FirstIndex(e.sessions, BoundTo(pending.key, pending.ioPath))
    case None => (e, Start(pending, reaped))
    case Some(i) =>
      var found := e.sessions[i];
      if !live(found.tabId) then
        var (rest, removed) := RemoveForTab(e, found.tabId);
        (rest, Start(pending, reaped + CleanUps(removed)))
      else if found.phase.Editing? || found.phase.UploadingBack? then
        (e, Handled([OpenEditor(found.tabId, found.tempPath)]))
      else
        (e, Handled([NoticeTo(pending.tabId, BlockedBy(found.phase))]))
  }

  function NewSession(e: Edits, pending: PendingEdit, name: string): Session {
    Session(e.nextId, pending.remotePath, pending.ioPath, pending.tabId, pending.epoch, pending.profileId, pending.key,
            TempPath(e.dir, e.runId, e.nextId, name), Downloading, Snapshot(pending.size, pending.modifiedAt),
            None, None, false, None)
  }

  const DEFAULT_METADATA := MetadataPolicy(true, true, true)

  function DownloadCommand(s: Session): Command {
    StartTransfer(s.tabId, s.epoch, s.profileId, Download, Remote(s.ioPath), Local(s.tempPath),
                  DEFAULT_METADATA, OverwriteAll)
  }

  function UploadCommand(s: Session): Command {
    StartTransfer(s.tabId, s.epoch, s.profileId, Upload, Local(s.tempPath), Remote(s.ioPath),
                  DEFAULT_METADATA, OverwriteAll)
  }

  function StartDownload(e: Edits, pending: PendingEdit): (Edits, StartResult) {
    match SafeFileName(pending.remotePath)
    case None => (e, Refused(UnsafeFileName))
    case Some(name) =>
      var s := NewSession(e, pending, name);
      (e.(sessions := e.sessions + [s], nextId := e.nextId + 1), Started(s.id, s.tempPath, DownloadCommand(s)))
  }

  function AbortDownload(e: Edits, id: SessionId): (Edits, seq<Effect>) {
    match Find(e, id)
    case None => (e, [])
    case Some(i) =>
      if !e.sessions[i].phase.Downloading? then (e, [])
      else (RemoveAt(e, i), [DeleteTempDir(e.sessions[i].tempPath)])
  }

  // ----- uploading -----

  function RequestUpload(e: Edits, id: SessionId, epoch: nat, key: ConnectionKey, mtime: Timestamp)
    : (Edits, UploadRequest)
  {
    var check := e.nextCheckId;
    var e := e.(nextCheckId := check + 1);
    match Find(e, id)
    case None => (e, Rejected(ServerCheckFailed))
    case Some(i) =>
      var s := e.sessions[i];
      if !s.phase.Editing? then (e, Rejected(PhaseBlocked(s.phase)))
      else if s.key != key then (e, Rejected(WrongConnection))
      else
        (Put(e, i, s.(phase := CheckingRemote, epoch := epoch,
                      pendingCheck := Some(check), checkingMtime := Some(mtime))),
         Check(CheckSnapshot(s.tabId, epoch, id, check, s.ioPath)))
  }

  function Unchecked(s: Session, phase: Phase): Session {
    s.(phase := phase, pendingCheck := None, checkingMtime := None)
  }

  function RevertCheck(e: Edits, id: SessionId): Edits {
    match Find(e, id)
    case None => e
    case Some(i) => Put(e, i, Unchecked(e.sessions[i], Editing))
  }

  predicate Applicable(s: Session, r: CheckResult) {
    && s.phase.CheckingRemote?
    && s.pendingCheck == Some(r.checkId)
    && s.checkingMtime.Some?
    && s.ioPath == r.path
    && r.tabId == s.tabId
    && r.epoch == s.epoch
  }

  function OnCheckResult(e: Edits, r: CheckResult, mtime: Option<Timestamp>): (Edits, seq<Effect>) {
    match Find(e, r.sessionId)
    case None => (e, [])
    case Some(i) =>
      var s := e.sessions[i];
      if !Applicable(s, r) then (e, [])
      else if mtime != s.checkingMtime then
        (RevertCheck(e, r.sessionId), [NoticeTo(s.tabId, LocalChangedDuringCheck)])
      else match r.outcome
        case CheckFailed => (RevertCheck(e, r.sessionId), [NoticeTo(s.tabId, ServerCheckFailed)])
        case Matched(snapshot) =>
          if snapshot == s.snapshot then
            (Put(e, i, Unchecked(s, UploadingBack)),
             [Dispatch(s.tabId, r.sessionId, UploadCommand(s), RevertCheckRollback)])
          else
            (Put(e, i, Unchecked(s, RemoteConflict)), [])
  }

  function TransferTemp(f: Finished): Option<string> {
    if f.destination.Local? then Some(f.destination.path)
    else if f.source.Local? then Some(f.source.path)
    else None
  }

  predicate MatchesPhase(s: Session, f: Finished) {
    match s.phase
    case Downloading => f.direction == Download && f.source == Remote(s.ioPath)
    case UploadingBack => f.direction == Upload && f.destination == Remote(s.ioPath)
    case _ => false
  }

  function DisplayName(path: string): string {
    match FileName(path) case None => "" case Some(name) => name
  }

  function SnapshotOf(facts: LocalFacts): Snapshot {
    Truncated(Snapshot(Some(facts.size), Some(facts.mtime)))
  }

  function AfterDownload(s: Session, facts: Option<LocalFacts>): Session {
    s.(phase := Editing, localModified := false, localBaseline := facts)
  }

  function AfterUpload(s: Session, succeeded: bool, facts: Option<LocalFacts>): Session {
    if !succeeded then s.(phase := Editing)
    else
      s.(phase := Editing, localModified := false, localBaseline := facts,
         snapshot := match facts case None => s.snapshot case Some(f) => SnapshotOf(f))
  }

  function OnTransferFinished(e: Edits, f: Finished, facts: Option<LocalFacts>): (Edits, seq<Effect>) {
    match TransferTemp(f)
    case None => (e, [])
    case Some(path) =>
      match FirstIndex(e.sessions, HasTemp(path))
      case None => (e, [])
      case Some(i) =>
        var s := e.sessions[i];
        if !MatchesPhase(s, f) then (e, [])
        else if s.phase.Downloading? && !f.succeeded then
          (RemoveAt(e, i), [DeleteTempDir(path), NoticeTo(s.tabId, DownloadFailed(DisplayName(s.remotePath)))])
        else if s.phase.Downloading? then
          (Put(e, i, AfterDownload(s, facts)), [OpenEditor(s.tabId, path)])
        else
          (Put(e, i, AfterUpload(s, f.succeeded, facts)),
           (if f.succeeded && facts.Some? then [RebaseListing(s.tabId, s.ioPath, SnapshotOf(facts.value))] else [])
           + [NoticeTo(s.tabId, if f.succeeded then Uploaded else UploadFailed)])
  }

  // ----- conflicts and rollbacks -----

  function Reopened(s: Session): PendingEdit {
    PendingEdit(s.remotePath, s.ioPath, s.snapshot.size, s.snapshot.modifiedAt, s.epoch, s.key, s.tabId, s.profileId)
  }

  function ResolveConflict(e: Edits, id: SessionId, choice: Choice): (Edits, seq<Effect>) {
    match Find(e, id)
    case None => (e, [])
    case Some(i) =>
      var s := e.sessions[i];
      if !s.phase.RemoteConflict? then (e, [])
      else match choice
        case Overwrite =>
          (Put(e, i, s.(phase := UploadingBack)), [Dispatch(s.tabId, id, UploadCommand(s), RestoreConflict)])
        case Later => (Put(e, i, s.(phase := Editing)), [])
        case DiscardLocal =>
          var (after, started) := StartDownload(RemoveAt(e, i), Reopened(s));
          (after, [DeleteTempDir(s.tempPath)] + StartEffects(s.tabId, started))
  }

  function StartEffects(tab: TabId, r: StartResult): seq<Effect> {
    match r
    case Started(id, _, command) => [Dispatch(tab, id, command, AbortDownloadRollback)]
    case Refused(notice) => [NoticeTo(tab, notice)]
  }

  function DispatchFailed(e: Edits, id: SessionId, rollback: Rollback): (Edits, seq<Effect>) {
    match rollback
    case RevertCheckRollback => (RevertCheck(e, id), [])
    case AbortDownloadRollback => AbortDownload(e, id)
    case RestoreConflict =>
      match Find(e, id)
      case None => (e, [])
      case Some(i) =>
        if e.sessions[i].phase.UploadingBack? then (Put(e, i, e.sessions[i].(phase := RemoteConflict)), []) else (e, [])
  }

  // ----- local changes, listings, tabs -----

  function RecordLocalModified(e: Edits, id: SessionId, path: string, facts: Option<LocalFacts>): (Edits, bool) {
    match Find(e, id)
    case None => (e, false)
    case Some(i) =>
      var s := e.sessions[i];
      if !s.phase.Editing? || s.tempPath != path then (e, false)
      else if facts.Some? && s.localBaseline == facts then (e, false)
      else (Put(e, i, s.(localModified := true)), true)
  }

  datatype Listed = Listed(path: string, snapshot: Snapshot)

  /** The first listed entry at `path`. */
  function ListedAt(listing: seq<Listed>, path: string): Option<Snapshot> {
    if listing == [] then None
    else if listing[0].path == path then Some(listing[0].snapshot)
    else ListedAt(listing[1..], path)
  }

  /** What an editing session on the listed tab adopts, if anything. */
  function Adoption(s: Session, tab: TabId, listing: seq<Listed>): Option<Snapshot> {
    if !s.phase.Editing? || s.tabId != tab || s.ioPath != s.remotePath then None
    else match ListedAt(listing, s.remotePath)
      case None => None
      case Some(listed) => if AgreesAtSeconds(s.snapshot, listed) then Some(listed) else None
  }

  function Adopted(s: Session, tab: TabId, listing: seq<Listed>): Session {
    match Adoption(s, tab, listing)
    case None => s
    case Some(snapshot) => s.(snapshot := snapshot)
  }

  function AdoptListing(e: Edits, tab: TabId, listing: seq<Listed>): Edits {
    e.(sessions := seq(|e.sessions|, i requires 0 <= i < |e.sessions| => Adopted(e.sessions[i], tab, listing)))
  }

  function Reconnected(s: Session, tab: TabId, epoch: nat): Session {
    if s.tabId != tab then s
    else (if s.phase.CheckingRemote? then Unchecked(s, Editing) else s).(epoch := epoch)
  }

  function UpdateEpoch(e: Edits, tab: TabId, epoch: nat): Edits {
    e.(sessions := seq(|e.sessions|, i requires 0 <= i < |e.sessions| => Reconnected(e.sessions[i], tab, epoch)))
  }

  // ----- every intent, in one step -----

  datatype Intent =
    | BeginOnly(pending: PendingEdit, live: TabId -> bool)
    | StartOnly(pending: PendingEdit)
    | Open(pending: PendingEdit, live: TabId -> bool)
    | Abort(id: SessionId)
    | AskUpload(id: SessionId, epoch: nat, key: ConnectionKey, mtime: Timestamp)
    | Revert(id: SessionId)
    | CheckReturned(result: CheckResult, current: Option<Timestamp>)
    | TransferEnded(finished: Finished, facts: Option<LocalFacts>)
    | Resolve(id: SessionId, choice: Choice)
    | LocalChange(id: SessionId, path: string, facts: Option<LocalFacts>)
    | ListingLoaded(tab: TabId, listing: seq<Listed>)
    | Reconnect(tab: TabId, epoch: nat)
    | CloseTab(tab: TabId)

  /** `start_download` with the dispatch its caller makes of the command. */
  function StartStep(e: Edits, pending: PendingEdit): (Edits, seq<Effect>) {
    var (after, started) := StartDownload(e, pending);
    (after, StartEffects(pending.tabId, started))
  }

  /**
   The state an intent leaves and the effects its caller executes. Sending the
   check command and the first download are dispatches with the rollback the
   caller applies by hand; the sessions of a closed tab are deleted by the caller.
   `Open` is `begin` followed at once by the download it allows.
   */
  function Step(e: Edits, intent: Intent): (Edits, seq<Effect>) {
    match intent
    case BeginOnly(pending, live) => var (after, r) := Begin(e, pending, live); (after, r.effects)
    case StartOnly(pending) => StartStep(e, pending)
    case Open(pending, live) =>
      var (after, r) := Begin(e, pending, live);
      (match r
       case Handled(effects) => (after, effects)
       case Start(p, effects) => var (last, more) := StartStep(after, p); (last, effects + more))
    case Abort(id) => AbortDownload(e, id)
    case AskUpload(id, epoch, key, mtime) =>
      var (after, r) := RequestUpload(e, id, epoch, key, mtime);
      (match r
       case Rejected(_) => (after, [])
       case Check(command) => (after, [Dispatch(command.tabId, id, command, RevertCheckRollback)]))
    case Revert(id) => (RevertCheck(e, id), [])
    case CheckReturned(result, current) => OnCheckResult(e, result, current)
    case TransferEnded(finished, facts) => OnTransferFinished(e, finished, facts)
    case Resolve(id, choice) => ResolveConflict(e, id, choice)
    case LocalChange(id, path, facts) => (RecordLocalModified(e, id, path, facts).0, [])
    case ListingLoaded(tab, listing) => (AdoptListing(e, tab, listing), [])
    case Reconnect(tab, epoch) => (UpdateEpoch(e, tab, epoch), [])
    case CloseTab(tab) => var (after, removed) := RemoveForTab(e, tab); (after, CleanUps(removed))
  }
}
