/**
 What each intent does, told in the fields of sessions and the effects it asks for.
 The functions of `EditSpec` are proved to do exactly this, so nothing here depends
 on how they are written.
 */
module EditMeanings {
  import opened Common
  import opened EditTypes
  import opened EditSpec
  import opened EditInvariant

  ghost predicate At(e: Edits, i: nat, id: SessionId) {
    i < |e.sessions| && e.sessions[i].id == id
  }

  ghost predicate NoSession(e: Edits, id: SessionId) {
    forall s | s in e.sessions :: s.id != id
  }

  /** Session `i` has become `s`, and nothing else has changed. */
  ghost predicate OnlySession(e: Edits, f: Edits, i: nat, s: Session)
    requires i < |e.sessions|
  {
    f == e.(sessions := e.sessions[i := s])
  }

  /** Session `i` is gone, and nothing else has changed. */
  ghost predicate OnlyWithout(e: Edits, f: Edits, i: nat)
    requires i < |e.sessions|
  {
    f == e.(sessions := e.sessions[..i] + e.sessions[i + 1..])
  }

  lemma FindAt(e: Edits, i: nat)
    requires Inv(e) && i < |e.sessions|
    ensures Find(e, e.sessions[i].id) == Some(i)
  {
    SameIdSameSession(e, i, Find(e, e.sessions[i].id).value);
  }

  // ----- file names -----

  /** The name is one real component of the path, with nothing but slashes and dots after it. */
  ghost predicate LastComponent(path: string, name: string) {
    && name != "" && '/' !in name && name != "." && name != ".."
    && exists head: string, tail: string :: ComponentAt(path, head, name, tail)
  }

  ghost predicate ComponentAt(path: string, head: string, name: string, tail: string) {
    && path == head + name + tail
    && (head == "" || head[|head| - 1] == '/')
    && (tail == "" || tail[0] == '/')
    && forall c | c in tail :: c == '/' || c == '.'
  }

  lemma {:induction false} AfterLastSlashMeans(path: string)
    ensures var n := AfterLastSlash(path); (n == 0 || path[n - 1] == '/') && '/' !in path[n..]
  {
    if path != "" && path[|path| - 1] != '/' {
      AfterLastSlashMeans(path[..|path| - 1]);
      var n := AfterLastSlash(path);
      assert path[n..] == path[..|path| - 1][n..] + [path[|path| - 1]];
    }
  }

  lemma {:induction false} FileNameMeans(path: string)
    ensures FileName(path).Some? ==> LastComponent(path, FileName(path).value)
    decreases |path|
  {
    AfterLastSlashMeans(path);
    var cut := AfterLastSlash(path);
    var tail := path[cut..];
    if tail == ".." {
    } else if tail != "" && tail != "." {
      assert path == path[..cut] + tail + "";
      assert ComponentAt(path, path[..cut], tail, "");
    } else if cut > 0 && FileName(path[..cut - 1]).Some? {
      FileNameMeans(path[..cut - 1]);
      assert path == path[..cut - 1] + "/" + tail;
      LongerTail(path, path[..cut - 1], tail, FileName(path[..cut - 1]).value);
    }
  }

  lemma LongerTail(path: string, front: string, tail: string, name: string)
    requires path == front + "/" + tail && (tail == "" || tail == ".") && LastComponent(front, name)
    ensures LastComponent(path, name)
  {
    var head, end: string :| ComponentAt(front, head, name, end);
    assert path == head + name + (end + "/" + tail);
    assert ComponentAt(path, head, name, end + "/" + tail);
  }

  /** A plain name after a slash is found. */
  lemma PlainNameFound(dir: string, name: string)
    requires name != "" && '/' !in name && name != "." && name != ".."
    ensures FileName(dir + "/" + name) == Some(name)
  {
    var path := dir + "/" + name;
    SlashBefore(dir, name);
    assert path[|dir| + 1..] == name;
  }

  lemma {:induction false} SlashBefore(dir: string, name: string)
    requires '/' !in name
    ensures AfterLastSlash(dir + "/" + name) == |dir| + 1
    decreases |name|
  {
    var path := dir + "/" + name;
    if name == "" {
      assert path[|path| - 1] == '/';
    } else {
      assert path[|path| - 1] == name[|name| - 1];
      SlashBefore(dir, name[..|name| - 1]);
      assert path[..|path| - 1] == dir + "/" + name[..|name| - 1];
    }
  }

  /** A name that goes to disk is the path's last component, without control or direction characters. */
  lemma SafeNameMeans(path: string)
    ensures SafeFileName(path).Some? ==>
              LastComponent(path, SafeFileName(path).value) && forall c | c in SafeFileName(path).value :: Harmless(c)
    ensures SafeFileName(path).None? && FileName(path).Some? ==> exists c :: c in FileName(path).value && !Harmless(c)
  {
    FileNameMeans(path);
    if FileName(path).Some? {
      var name := FileName(path).value;
      assert forall i | 0 <= i < |name| :: name[i] in name;
      assert forall c: char :: Harmless(c) <==> !IsBidiOrControl(c);
    }
  }

  /** Not a control character, a direction mark, or an embedding, override or isolate of direction. */
  predicate Harmless(c: char) {
    && '\U{001F}' < c && (c < '\U{007F}' || '\U{009F}' < c)
    && c !in {'\U{061C}', '\U{200E}', '\U{200F}'}
    && c !in {'\U{202A}', '\U{202B}', '\U{202C}', '\U{202D}', '\U{202E}'}
    && c !in {'\U{2066}', '\U{2067}', '\U{2068}', '\U{2069}'}
  }

  // ----- the first download -----

  /** `s` is a new session for `pending`: it takes the next id and waits for its download. */
  ghost predicate NewFor(e: Edits, pending: PendingEdit, s: Session) {
    && s.id == e.nextId
    && s.remotePath == pending.remotePath && s.ioPath == pending.ioPath
    && s.tabId == pending.tabId && s.epoch == pending.epoch && s.profileId == pending.profileId
    && s.key == pending.key
    && s.phase == Downloading
    && s.snapshot == Snapshot(pending.size, pending.modifiedAt)
    && s.pendingCheck == None && s.checkingMtime == None && !s.localModified && s.localBaseline == None
    && SafeFileName(pending.remotePath).Some?
    && s.tempPath == e.dir + "/" + e.runId + "/" + Decimal(e.nextId) + "/" + SafeFileName(pending.remotePath).value
  }

  /** A file with an unsafe name is refused; any other gets a new session at the end and the command that fetches it. */
  ghost predicate DownloadStarted(e: Edits, pending: PendingEdit, f: Edits, r: StartResult) {
    match SafeFileName(pending.remotePath)
    case None => f == e && r == Refused(UnsafeFileName)
    case Some(_) =>
      && |f.sessions| == |e.sessions| + 1
      && var s := f.sessions[|e.sessions|];
      && f == e.(sessions := e.sessions + [s], nextId := e.nextId + 1)
      && NewFor(e, pending, s)
      && r.Started? && r.sessionId == s.id && r.tempPath == s.tempPath && Fetches(r.command, s)
  }

  lemma StartMeans(e: Edits, pending: PendingEdit)
    ensures DownloadStarted(e, pending, StartDownload(e, pending).0, StartDownload(e, pending).1)
  {
  }

  /** A download that was not sent is forgotten with its temp directory; any other session is left alone. */
  ghost predicate DownloadAborted(e: Edits, id: SessionId, f: Edits, effects: seq<Effect>) {
    && (NoSession(e, id) ==> f == e && effects == [])
    && forall i: nat | At(e, i, id) ::
         if e.sessions[i].phase.Downloading?
         then OnlyWithout(e, f, i) && effects == [DeleteTempDir(e.sessions[i].tempPath)]
         else f == e && effects == []
  }

  lemma AbortMeans(e: Edits, id: SessionId)
    requires Inv(e)
    ensures DownloadAborted(e, id, AbortDownload(e, id).0, AbortDownload(e, id).1)
  {
    forall i: nat | At(e, i, id)
      ensures Find(e, id) == Some(i)
    {
      FindAt(e, i);
    }
  }

  // ----- checking before an upload -----

  /**
   An editing session of the given connection goes to check under a new check id,
   remembering the epoch and the local mtime. The check id is used up in any case.
   */
  ghost predicate UploadAsked(e: Edits, id: SessionId, epoch: nat, key: ConnectionKey, mtime: Timestamp,
                              f: Edits, r: UploadRequest)
  {
    var counted := e.(nextCheckId := e.nextCheckId + 1);
    && (NoSession(e, id) ==> f == counted && r == Rejected(ServerCheckFailed))
    && forall i: nat | At(e, i, id) ::
         var s := e.sessions[i];
         if !s.phase.Editing? then f == counted && r == Rejected(PhaseBlocked(s.phase))
         else if s.key != key then f == counted && r == Rejected(WrongConnection)
         else
           && OnlySession(counted, f, i, s.(phase := CheckingRemote, epoch := epoch,
                                            pendingCheck := Some(e.nextCheckId), checkingMtime := Some(mtime)))
           && r == Check(CheckSnapshot(s.tabId, epoch, id, e.nextCheckId, s.ioPath))
  }

  lemma RequestMeans(e: Edits, id: SessionId, epoch: nat, key: ConnectionKey, mtime: Timestamp)
    requires Inv(e)
    ensures UploadAsked(e, id, epoch, key, mtime,
                        RequestUpload(e, id, epoch, key, mtime).0, RequestUpload(e, id, epoch, key, mtime).1)
  {
    forall i: nat | At(e, i, id)
      ensures Find(e.(nextCheckId := e.nextCheckId + 1), id) == Some(i)
    {
      FindAt(e, i);
    }
  }

  /** The session is editing again and waits for no check, whatever it was doing. */
  ghost predicate CheckReverted(e: Edits, id: SessionId, f: Edits) {
    && (NoSession(e, id) ==> f == e)
    && forall i: nat | At(e, i, id) ::
         OnlySession(e, f, i, e.sessions[i].(phase := Editing, pendingCheck := None, checkingMtime := None))
  }

  lemma RevertMeans(e: Edits, id: SessionId)
    requires Inv(e)
    ensures CheckReverted(e, id, RevertCheck(e, id))
  {
    forall i: nat | At(e, i, id)
      ensures Find(e, id) == Some(i)
    {
      FindAt(e, i);
    }
  }

  /** The result answers the check that `s` is waiting for. */
  ghost predicate Answers(r: CheckResult, s: Session) {
    && s.id == r.sessionId && s.phase.CheckingRemote? && s.pendingCheck == Some(r.checkId)
    && s.tabId == r.tabId && s.epoch == r.epoch && s.ioPath == r.path
  }

  /** Session `i` has left its check for `phase`, and nothing else has changed. */
  ghost predicate LeftCheck(e: Edits, f: Edits, i: nat, phase: Phase)
    requires i < |e.sessions|
  {
    OnlySession(e, f, i, e.sessions[i].(phase := phase, pendingCheck := None, checkingMtime := None))
  }

  /**
   A result that answers no waiting check is dropped. One that does sends the session
   back to editing if the file changed meanwhile or the check failed, to upload if
   the server's file is the baseline, and into conflict if it is not.
   */
  ghost predicate CheckAnswered(e: Edits, r: CheckResult, mtime: Option<Timestamp>, f: Edits, effects: seq<Effect>) {
    && ((forall s | s in e.sessions :: !Answers(r, s)) ==> f == e && effects == [])
    && forall i | 0 <= i < |e.sessions| && Answers(r, e.sessions[i]) ::
         var s := e.sessions[i];
         if mtime != s.checkingMtime
         then LeftCheck(e, f, i, Editing) && effects == [NoticeTo(s.tabId, LocalChangedDuringCheck)]
         else match r.outcome
           case CheckFailed => LeftCheck(e, f, i, Editing) && effects == [NoticeTo(s.tabId, ServerCheckFailed)]
           case Matched(snapshot) =>
             if snapshot == s.snapshot
             then
               && LeftCheck(e, f, i, UploadingBack)
               && |effects| == 1 && effects[0].Dispatch?
               && effects[0].tabId == s.tabId && effects[0].sessionId == s.id
               && effects[0].rollback == RevertCheckRollback && UploadsBack(effects[0].command, s)
             else LeftCheck(e, f, i, RemoteConflict) && effects == []
  }

  lemma CheckMeans(e: Edits, r: CheckResult, mtime: Option<Timestamp>)
    requires Inv(e)
    ensures CheckAnswered(e, r, mtime, OnCheckResult(e, r, mtime).0, OnCheckResult(e, r, mtime).1)
  {
    if Find(e, r.sessionId).Some? {
      assert e.sessions[Find(e, r.sessionId).value] in e.sessions;
    }
    forall i | 0 <= i < |e.sessions| && Answers(r, e.sessions[i])
      ensures Find(e, r.sessionId) == Some(i) && e.sessions[i].checkingMtime.Some?
    {
      FindAt(e, i);
      assert SessionOk(e, e.sessions[i]);
    }
  }

  // ----- finished transfers -----

  /** The report is of the download that `s` waits for. */
  ghost predicate EndsDownload(f: Finished, s: Session) {
    && s.phase.Downloading? && f.direction == Download
    && f.source == Remote(s.ioPath) && f.destination == Local(s.tempPath)
  }

  /** The report is of the upload that `s` waits for. */
  ghost predicate EndsUpload(f: Finished, s: Session) {
    && s.phase.UploadingBack? && f.direction == Direction.Upload
    && f.source == Local(s.tempPath) && f.destination == Remote(s.ioPath)
  }

  /** The baseline an upload leaves: the size and mtime of the file sent, in whole seconds. */
  ghost predicate BaselineOf(facts: LocalFacts, snapshot: Snapshot) {
    && snapshot.size == Some(facts.size)
    && snapshot.modifiedAt.Some?
    && var t := snapshot.modifiedAt.value;
    && t % NANOS_PER_SECOND == 0
    && if facts.mtime < 0 then t == 0 else t <= facts.mtime < t + NANOS_PER_SECOND
  }

  ghost predicate DownloadLanded(e: Edits, i: nat, succeeded: bool, facts: Option<LocalFacts>,
                                 f: Edits, effects: seq<Effect>)
    requires i < |e.sessions|
  {
    var s := e.sessions[i];
    if succeeded
    then
      && OnlySession(e, f, i, s.(phase := Editing, localModified := false, localBaseline := facts))
      && effects == [OpenEditor(s.tabId, s.tempPath)]
    else
      && OnlyWithout(e, f, i)
      && |effects| == 2 && effects[0] == DeleteTempDir(s.tempPath)
      && effects[1].NoticeTo? && effects[1].tabId == s.tabId && effects[1].notice.DownloadFailed?
      && LastComponent(s.remotePath, effects[1].notice.fileName)
  }

  ghost predicate UploadLanded(e: Edits, i: nat, succeeded: bool, facts: Option<LocalFacts>,
                               f: Edits, effects: seq<Effect>)
    requires i < |e.sessions|
  {
    var s := e.sessions[i];
    if !succeeded
    then OnlySession(e, f, i, s.(phase := Editing)) && effects == [NoticeTo(s.tabId, UploadFailed)]
    else match facts
      case None =>
        && OnlySession(e, f, i, s.(phase := Editing, localModified := false, localBaseline := None))
        && effects == [NoticeTo(s.tabId, Uploaded)]
      case Some(known) =>
        && i < |f.sessions|
        && var snapshot := f.sessions[i].snapshot;
        && BaselineOf(known, snapshot)
        && OnlySession(e, f, i, s.(phase := Editing, localModified := false, localBaseline := facts,
                                   snapshot := snapshot))
        && effects == [RebaseListing(s.tabId, s.ioPath, snapshot), NoticeTo(s.tabId, Uploaded)]
  }

  /**
   A report that no session waits for changes nothing. A download leaves its session
   editing, or gone with its temp directory; an upload leaves it editing, and if it
   succeeded, unmodified on a new baseline.
   */
  ghost predicate TransferLanded(e: Edits, finished: Finished, facts: Option<LocalFacts>, f: Edits,
                                 effects: seq<Effect>)
  {
    && ((forall s | s in e.sessions :: !EndsDownload(finished, s) && !EndsUpload(finished, s)) ==>
          f == e && effects == [])
    && (forall i | 0 <= i < |e.sessions| && EndsDownload(finished, e.sessions[i]) ::
          DownloadLanded(e, i, finished.succeeded, facts, f, effects))
    && (forall i | 0 <= i < |e.sessions| && EndsUpload(finished, e.sessions[i]) ::
          UploadLanded(e, i, finished.succeeded, facts, f, effects))
  }

  lemma TempAt(e: Edits, i: nat)
    requires Inv(e) && i < |e.sessions|
    ensures FirstIndex(e.sessions, HasTemp(e.sessions[i].tempPath)) == Some(i)
  {
    SameIdSameSession(e, i, FirstIndex(e.sessions, HasTemp(e.sessions[i].tempPath)).value);
  }

  lemma SnapshotMeans(facts: LocalFacts)
    ensures BaselineOf(facts, SnapshotOf(facts))
  {
  }

  lemma FinishedMeans(e: Edits, finished: Finished, facts: Option<LocalFacts>)
    requires Inv(e)
    ensures TransferLanded(e, finished, facts,
                           OnTransferFinished(e, finished, facts).0, OnTransferFinished(e, finished, facts).1)
  {
    var (f, effects) := OnTransferFinished(e, finished, facts);
    forall i | 0 <= i < |e.sessions| && EndsDownload(finished, e.sessions[i])
      ensures DownloadLanded(e, i, finished.succeeded, facts, f, effects)
    {
      TempAt(e, i);
      SafeNameMeans(e.sessions[i].remotePath);
      assert SessionOk(e, e.sessions[i]);
    }
    forall i | 0 <= i < |e.sessions| && EndsUpload(finished, e.sessions[i])
      ensures UploadLanded(e, i, finished.succeeded, facts, f, effects)
    {
      TempAt(e, i);
      if facts.Some? {
        SnapshotMeans(facts.value);
      }
    }
    if forall s | s in e.sessions :: !EndsDownload(finished, s) && !EndsUpload(finished, s) {
      UnmatchedStays(e, finished, facts);
    }
  }

  lemma UnmatchedStays(e: Edits, finished: Finished, facts: Option<LocalFacts>)
    requires Inv(e)
    requires forall s | s in e.sessions :: !EndsDownload(finished, s) && !EndsUpload(finished, s)
    ensures OnTransferFinished(e, finished, facts) == (e, [])
  {
    if TransferTemp(finished).Some? && FirstIndex(e.sessions, HasTemp(TransferTemp(finished).value)).Some? {
      var s := e.sessions[FirstIndex(e.sessions, HasTemp(TransferTemp(finished).value)).value];
      assert s in e.sessions && s.tempPath == TransferTemp(finished).value;
    }
  }

  // ----- conflicts and rollbacks -----

  /**
   A session in conflict uploads over the server's file, goes on editing, or starts
   afresh: its temp directory goes, and a new session fetches the file again. A
   session that is not in conflict is left alone.
   */
  ghost predicate ConflictResolved(e: Edits, id: SessionId, choice: Choice, f: Edits, effects: seq<Effect>) {
    && (NoSession(e, id) ==> f == e && effects == [])
    && forall i: nat | At(e, i, id) ::
         var s := e.sessions[i];
         if !s.phase.RemoteConflict? then f == e && effects == []
         else match choice
           case Overwrite =>
             && OnlySession(e, f, i, s.(phase := UploadingBack))
             && |effects| == 1 && effects[0].Dispatch?
             && effects[0].tabId == s.tabId && effects[0].sessionId == id
             && effects[0].rollback == RestoreConflict && UploadsBack(effects[0].command, s)
           case Later => OnlySession(e, f, i, s.(phase := Editing)) && effects == []
           case DiscardLocal => StartedAfresh(e, i, f, effects)
  }

  ghost predicate StartedAfresh(e: Edits, i: nat, f: Edits, effects: seq<Effect>)
    requires i < |e.sessions|
  {
    var s := e.sessions[i];
    && |f.sessions| == |e.sessions|
    && var n := f.sessions[|e.sessions| - 1];
    && f == e.(sessions := e.sessions[..i] + e.sessions[i + 1..] + [n], nextId := e.nextId + 1)
    && n.id == e.nextId && n.phase == Downloading
    && n.remotePath == s.remotePath && n.ioPath == s.ioPath && n.tabId == s.tabId && n.epoch == s.epoch
    && n.profileId == s.profileId && n.key == s.key && n.snapshot == s.snapshot
    && !n.localModified && n.localBaseline == None && n.pendingCheck == None
    && |effects| == 2 && effects[0] == DeleteTempDir(s.tempPath)
    && effects[1].Dispatch? && effects[1].tabId == s.tabId && effects[1].sessionId == n.id
    && effects[1].rollback == AbortDownloadRollback && Fetches(effects[1].command, n)
  }

  lemma ResolveMeans(e: Edits, id: SessionId, choice: Choice)
    requires Inv(e)
    ensures ConflictResolved(e, id, choice, ResolveConflict(e, id, choice).0, ResolveConflict(e, id, choice).1)
  {
    forall i: nat | At(e, i, id)
      ensures Find(e, id) == Some(i)
      ensures choice == DiscardLocal && e.sessions[i].phase.RemoteConflict? ==>
                StartedAfresh(e, i, ResolveConflict(e, id, choice).0, ResolveConflict(e, id, choice).1)
    {
      FindAt(e, i);
      assert SessionOk(e, e.sessions[i]);
    }
  }

  /** Each rollback undoes what its command had prepared, and nothing else. */
  ghost predicate DispatchUndone(e: Edits, id: SessionId, rollback: Rollback, f: Edits, effects: seq<Effect>) {
    match rollback
    case RevertCheckRollback => CheckReverted(e, id, f) && effects == []
    case AbortDownloadRollback => DownloadAborted(e, id, f, effects)
    case RestoreConflict =>
      && effects == []
      && (NoSession(e, id) ==> f == e)
      && forall i: nat | At(e, i, id) ::
           if e.sessions[i].phase.UploadingBack? then OnlySession(e, f, i, e.sessions[i].(phase := RemoteConflict))
           else f == e
  }

  lemma DispatchFailedMeans(e: Edits, id: SessionId, rollback: Rollback)
    requires Inv(e)
    ensures DispatchUndone(e, id, rollback, DispatchFailed(e, id, rollback).0, DispatchFailed(e, id, rollback).1)
  {
    AbortMeans(e, id);
    RevertMeans(e, id);
    forall i: nat | At(e, i, id)
      ensures Find(e, id) == Some(i)
    {
      FindAt(e, i);
    }
  }

  // ----- local changes, listings, tabs -----

  /** A change of the temp file marks an editing session modified, unless it is the write we made ourselves. */
  ghost predicate ChangeSeen(e: Edits, id: SessionId, path: string, facts: Option<LocalFacts>, f: Edits, redraw: bool) {
    && (NoSession(e, id) ==> f == e && !redraw)
    && forall i: nat | At(e, i, id) ::
         var s := e.sessions[i];
         if s.phase.Editing? && s.tempPath == path && (facts.None? || s.localBaseline != facts)
         then OnlySession(e, f, i, s.(localModified := true)) && redraw
         else f == e && !redraw
  }

  lemma ModifiedMeans(e: Edits, id: SessionId, path: string, facts: Option<LocalFacts>)
    requires Inv(e)
    ensures ChangeSeen(e, id, path, facts,
                       RecordLocalModified(e, id, path, facts).0, RecordLocalModified(e, id, path, facts).1)
  {
    forall i: nat | At(e, i, id)
      ensures Find(e, id) == Some(i)
    {
      FindAt(e, i);
    }
  }

  /** The second of a time; times before the epoch count as its first. */
  function Second(t: Timestamp): nat {
    if t < 0 then 0 else t / NANOS_PER_SECOND
  }

  /** Same size, and both times unknown or in the same second. */
  ghost predicate SameToTheSecond(a: Snapshot, b: Snapshot) {
    && a.size == b.size
    && (a.modifiedAt.Some? <==> b.modifiedAt.Some?)
    && (a.modifiedAt.Some? ==> Second(a.modifiedAt.value) == Second(b.modifiedAt.value))
  }

  /** The listing's first entry at the session's path, which the session takes over. */
  ghost predicate Adopts(s: Session, tab: TabId, listing: seq<Listed>, k: nat) {
    && s.phase.Editing? && s.tabId == tab && s.ioPath == s.remotePath
    && k < |listing| && listing[k].path == s.remotePath
    && (forall j | 0 <= j < k :: listing[j].path != s.remotePath)
    && SameToTheSecond(s.snapshot, listing[k].snapshot)
  }

  /** Editing sessions of the tab take over what the listing says of their file, if it is the same to the second. */
  ghost predicate BaselinesAdopted(e: Edits, tab: TabId, listing: seq<Listed>, f: Edits) {
    && |f.sessions| == |e.sessions| && f == e.(sessions := f.sessions)
    && forall i | 0 <= i < |e.sessions| ::
         && (forall k: nat | Adopts(e.sessions[i], tab, listing, k) ::
               f.sessions[i] == e.sessions[i].(snapshot := listing[k].snapshot))
         && ((forall k: nat :: !Adopts(e.sessions[i], tab, listing, k)) ==> f.sessions[i] == e.sessions[i])
  }

  lemma {:induction false} ListedAtMeans(listing: seq<Listed>, path: string)
    ensures match ListedAt(listing, path)
            case None => forall k | 0 <= k < |listing| :: listing[k].path != path
            case Some(snapshot) =>
              exists k | 0 <= k < |listing| ::
                listing[k] == Listed(path, snapshot) && forall j | 0 <= j < k :: listing[j].path != path
  {
    if listing != [] {
      var rest := listing[1..];
      ListedAtMeans(rest, path);
      assert forall k | 1 <= k < |listing| :: listing[k] == rest[k - 1];
      if listing[0].path != path && ListedAt(rest, path).Some? {
        var k :| 0 <= k < |rest| && rest[k] == Listed(path, ListedAt(rest, path).value)
                 && forall j | 0 <= j < k :: rest[j].path != path;
        assert listing[k + 1] == rest[k];
      }
    }
  }

  lemma AgreementMeans(a: Snapshot, b: Snapshot)
    ensures AgreesAtSeconds(a, b) <==> SameToTheSecond(a, b)
  {
    if a.modifiedAt.Some? && b.modifiedAt.Some? {
      TruncationMeans(a.modifiedAt.value);
      TruncationMeans(b.modifiedAt.value);
    }
  }

  lemma TruncationMeans(t: Timestamp)
    ensures TruncatedToSecs(t) == Second(t) * NANOS_PER_SECOND
  {
  }

  lemma AdoptionMeans(s: Session, tab: TabId, listing: seq<Listed>)
    ensures forall k: nat | Adopts(s, tab, listing, k) ::
              Adopted(s, tab, listing) == s.(snapshot := listing[k].snapshot)
    ensures (forall k: nat :: !Adopts(s, tab, listing, k)) ==> Adopted(s, tab, listing) == s
  {
    ListedAtMeans(listing, s.remotePath);
    if ListedAt(listing, s.remotePath).Some? {
      var listed := ListedAt(listing, s.remotePath).value;
      AgreementMeans(s.snapshot, listed);
      var n :| 0 <= n < |listing| && listing[n] == Listed(s.remotePath, listed)
               && forall j | 0 <= j < n :: listing[j].path != s.remotePath;
      forall k: nat | Adopts(s, tab, listing, k)
        ensures k == n
      {
      }
      assert Adoption(s, tab, listing).Some? ==> Adopts(s, tab, listing, n);
    }
  }

  lemma ListingMeans(e: Edits, tab: TabId, listing: seq<Listed>)
    ensures BaselinesAdopted(e, tab, listing, AdoptListing(e, tab, listing))
  {
    forall i | 0 <= i < |e.sessions|
      ensures var s := e.sessions[i];
              && (forall k: nat | Adopts(s, tab, listing, k) ::
                    Adopted(s, tab, listing) == s.(snapshot := listing[k].snapshot))
              && ((forall k: nat :: !Adopts(s, tab, listing, k)) ==> Adopted(s, tab, listing) == s)
    {
      AdoptionMeans(e.sessions[i], tab, listing);
    }
  }

  /** Sessions of the tab take the new epoch; one that was checking goes back to editing. */
  ghost predicate EpochTaken(e: Edits, tab: TabId, epoch: nat, f: Edits) {
    && |f.sessions| == |e.sessions| && f == e.(sessions := f.sessions)
    && forall i | 0 <= i < |e.sessions| ::
         var s := e.sessions[i];
         f.sessions[i] ==
           if s.tabId != tab then s
           else if s.phase.CheckingRemote?
                then s.(epoch := epoch, phase := Editing, pendingCheck := None, checkingMtime := None)
                else s.(epoch := epoch)
  }

  lemma ReconnectMeans(e: Edits, tab: TabId, epoch: nat)
    ensures EpochTaken(e, tab, epoch, UpdateEpoch(e, tab, epoch))
  {
  }

  /** The sessions of the tab are gone, the others stay in order, and each one gone has its temp directory deleted. */
  ghost predicate TabReaped(e: Edits, tab: TabId, f: Edits, effects: seq<Effect>) {
    && f == e.(sessions := f.sessions) && PairsApart(f.sessions)
    && (forall s :: s in f.sessions <==> s in e.sessions && s.tabId != tab)
    && (forall s | s in e.sessions && s.tabId == tab :: DeleteTempDir(s.tempPath) in effects)
    && (forall effect | effect in effects ::
          effect.DeleteTempDir? && exists s :: s in e.sessions && s.tabId == tab && effect.path == s.tempPath)
    && |effects| + |f.sessions| == |e.sessions|
  }

  lemma {:induction false} CleanUpsMean(removed: seq<Session>)
    ensures |CleanUps(removed)| == |removed|
    ensures forall k | 0 <= k < |removed| :: CleanUps(removed)[k] == DeleteTempDir(removed[k].tempPath)
  {
    if removed != [] {
      CleanUpsMean(removed[..|removed| - 1]);
    }
  }

  lemma {:induction false} SplitSizes(sessions: seq<Session>, tab: TabId)
    ensures |Retain(sessions, OnTab(tab))| + |Retain(sessions, OffTab(tab))| == |sessions|
  {
    if sessions != [] {
      SplitSizes(sessions[1..], tab);
    }
  }

  lemma ReapMeans(e: Edits, tab: TabId)
    requires Inv(e)
    ensures TabReaped(e, tab, RemoveForTab(e, tab).0, CleanUps(RemoveForTab(e, tab).1))
  {
    var removed := RemoveForTab(e, tab).1;
    RetainKeepsPairs(e.sessions, OffTab(tab));
    SplitSizes(e.sessions, tab);
    CleanUpsMean(removed);
    forall s | s in e.sessions && s.tabId == tab
      ensures DeleteTempDir(s.tempPath) in CleanUps(removed)
    {
      var k :| 0 <= k < |removed| && removed[k] == s;
      assert CleanUps(removed)[k] == DeleteTempDir(s.tempPath);
    }
    forall effect | effect in CleanUps(removed)
      ensures effect.DeleteTempDir? && exists s :: s in e.sessions && s.tabId == tab && effect.path == s.tempPath
    {
      var k :| 0 <= k < |removed| && CleanUps(removed)[k] == effect;
      assert removed[k] in removed;
    }
  }

  // ----- opening -----

  ghost predicate Holds(s: Session, pending: PendingEdit) {
    s.key == pending.key && s.ioPath == pending.ioPath
  }

  /** Session `i` is the newest one opened under the requested path. */
  ghost predicate NewestNamed(e: Edits, pending: PendingEdit, i: nat) {
    && i < |e.sessions|
    && e.sessions[i].key == pending.key && e.sessions[i].remotePath == pending.remotePath
    && forall j | i < j < |e.sessions| ::
         !(e.sessions[j].key == pending.key && e.sessions[j].remotePath == pending.remotePath)
  }

  /** Session `i` is the first one that writes to the requested file. */
  ghost predicate FirstHolder(e: Edits, pending: PendingEdit, i: nat) {
    i < |e.sessions| && Holds(e.sessions[i], pending) && forall j | 0 <= j < i :: !Holds(e.sessions[j], pending)
  }

  /** What a live holder of the file says: its copy is opened, or the user is told why not. */
  ghost predicate HolderAnswers(s: Session, pending: PendingEdit, effects: seq<Effect>) {
    match s.phase
    case Editing => effects == [OpenEditor(s.tabId, s.tempPath)]
    case UploadingBack => effects == [OpenEditor(s.tabId, s.tempPath)]
    case Downloading => effects == [NoticeTo(pending.tabId, StillDownloading)]
    case CheckingRemote => effects == [NoticeTo(pending.tabId, CheckingServerFile)]
    case RemoteConflict => effects == [NoticeTo(pending.tabId, ReviewConflictBeforeReopen)]
  }

  /** With `reaped` cleaned up already, a live holder answers; a dead one is reaped with its tab and the edit starts. */
  ghost predicate Deduplicated(e: Edits, pending: PendingEdit, live: TabId -> bool, reaped: seq<Effect>,
                               f: Edits, r: BeginResult)
  {
    && ((forall s | s in e.sessions :: !Holds(s, pending)) ==> f == e && r == BeginResult.Start(pending, reaped))
    && forall i: nat | FirstHolder(e, pending, i) :: HeldBy(e, e.sessions[i], pending, live, reaped, f, r)
  }

  ghost predicate HeldBy(e: Edits, s: Session, pending: PendingEdit, live: TabId -> bool, reaped: seq<Effect>,
                         f: Edits, r: BeginResult)
  {
    if live(s.tabId) then f == e && r.Handled? && HolderAnswers(s, pending, r.effects)
    else
      && r.Start? && r.pending == pending
      && |reaped| <= |r.effects| && r.effects[..|reaped|] == reaped
      && TabReaped(e, s.tabId, f, r.effects[|reaped|..])
  }

  /** The newest session of the requested path, if it writes elsewhere by now, blocks the edit or is reaped first. */
  ghost predicate Begun(e: Edits, pending: PendingEdit, live: TabId -> bool, f: Edits, r: BeginResult) {
    && ((forall i: nat :: NewestNamed(e, pending, i) ==> e.sessions[i].ioPath == pending.ioPath) ==>
          Deduplicated(e, pending, live, [], f, r))
    && forall i: nat | NewestNamed(e, pending, i) && e.sessions[i].ioPath != pending.ioPath ::
         var s := e.sessions[i];
         if live(s.tabId)
         then f == e && r == Handled([NoticeTo(pending.tabId, LinkRepointed(s.phase.RemoteConflict?))])
         else exists g, reaped ::
           TabReaped(e, s.tabId, g, reaped) && Inv(g) && Deduplicated(g, pending, live, reaped, f, r)
  }

  lemma FirstHolderIs(e: Edits, pending: PendingEdit, i: nat)
    requires FirstHolder(e, pending, i)
    ensures FirstIndex(e.sessions, BoundTo(pending.key, pending.ioPath)) == Some(i)
  {
  }

  lemma DeduplicateMeans(e: Edits, pending: PendingEdit, live: TabId -> bool, reaped: seq<Effect>)
    requires Inv(e)
    ensures Deduplicated(e, pending, live, reaped,
                         Deduplicate(e, pending, live, reaped).0, Deduplicate(e, pending, live, reaped).1)
  {
    match FirstIndex(e.sessions, BoundTo(pending.key, pending.ioPath))
    case None =>
      assert forall s | s in e.sessions :: !Holds(s, pending);
    case Some(n) =>
      assert FirstHolder(e, pending, n) && e.sessions[n] in e.sessions;
      forall i: nat | FirstHolder(e, pending, i)
        ensures i == n
      {
        FirstHolderIs(e, pending, i);
      }
      HolderMeans(e, pending, live, reaped, n);
  }

  lemma HolderMeans(e: Edits, pending: PendingEdit, live: TabId -> bool, reaped: seq<Effect>, n: nat)
    requires Inv(e) && FirstIndex(e.sessions, BoundTo(pending.key, pending.ioPath)) == Some(n)
    ensures HeldBy(e, e.sessions[n], pending, live, reaped,
                   Deduplicate(e, pending, live, reaped).0, Deduplicate(e, pending, live, reaped).1)
  {
    if !live(e.sessions[n].tabId) {
      DeadHolderReaped(e, e.sessions[n].tabId, reaped);
    }
  }

  lemma DeadHolderReaped(e: Edits, tab: TabId, reaped: seq<Effect>)
    requires Inv(e)
    ensures var effects := reaped + CleanUps(RemoveForTab(e, tab).1);
            && effects[..|reaped|] == reaped
            && TabReaped(e, tab, RemoveForTab(e, tab).0, effects[|reaped|..])
  {
    ReapMeans(e, tab);
    var more := CleanUps(RemoveForTab(e, tab).1);
    assert (reaped + more)[|reaped|..] == more;
  }

  lemma {:induction false} LastIs(sessions: seq<Session>, test: Session -> bool)
    ensures match Last(sessions, test)
            case None => true
            case Some(i) => forall j | i < j < |sessions| :: !test(sessions[j])
  {
    if sessions != [] && !test(sessions[|sessions| - 1]) {
      LastIs(sessions[..|sessions| - 1], test);
    }
  }

  lemma NewestIsLast(e: Edits, pending: PendingEdit)
    ensures forall i: nat :: NewestNamed(e, pending, i) <==>
                               Last(e.sessions, OpenedAs(pending.key, pending.remotePath)) == Some(i)
  {
    LastIs(e.sessions, OpenedAs(pending.key, pending.remotePath));
  }

  lemma BeginMeans(e: Edits, pending: PendingEdit, live: TabId -> bool)
    requires Inv(e)
    ensures Begun(e, pending, live, Begin(e, pending, live).0, Begin(e, pending, live).1)
  {
    NewestIsLast(e, pending);
    match Repointed(e, pending)
    case None => DeduplicateMeans(e, pending, live, []);
    case Some(i) =>
      assert NewestNamed(e, pending, i);
      var tab := e.sessions[i].tabId;
      var (g, removed) := RemoveForTab(e, tab);
      ReapMeans(e, tab);
      RetainKeepsInv(e, OffTab(tab));
      DeduplicateMeans(g, pending, live, CleanUps(removed));
  }
}
