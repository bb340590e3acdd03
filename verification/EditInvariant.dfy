/** What every reachable list of edit sessions satisfies. */
module EditInvariant {
  import opened Common
  import opened EditTypes
  import opened EditSpec

  /** A session's ids come from the counters, its check fields match its phase, its temp path is its own. */
  ghost predicate SessionOk(e: Edits, s: Session) {
    && s.id < e.nextId
    && (s.pendingCheck.Some? <==> s.phase.CheckingRemote?)
    && (s.checkingMtime.Some? <==> s.phase.CheckingRemote?)
    && (s.pendingCheck.Some? ==> s.pendingCheck.value < e.nextCheckId)
    && SafeFileName(s.remotePath).Some?
    && s.tempPath == TempPath(e.dir, e.runId, s.id, SafeFileName(s.remotePath).value)
  }

  /** Neither the session id nor a pending check id is shared. */
  ghost predicate Apart(a: Session, b: Session) {
    a.id < b.id && (a.pendingCheck.Some? ==> a.pendingCheck != b.pendingCheck)
  }

  ghost predicate PairsApart(sessions: seq<Session>) {
    forall i, j | 0 <= i < j < |sessions| :: Apart(sessions[i], sessions[j])
  }

  ghost predicate Inv(e: Edits) {
    && (forall s | s in e.sessions :: SessionOk(e, s))
    && PairsApart(e.sessions)
  }

  // ----- building blocks -----

  lemma SameIdSameSession(e: Edits, i: nat, j: nat)
    requires Inv(e) && i < |e.sessions| && j < |e.sessions|
    requires e.sessions[i].id == e.sessions[j].id || e.sessions[i].tempPath == e.sessions[j].tempPath
    ensures i == j
  {
    var a, b := e.sessions[i], e.sessions[j];
    assert SessionOk(e, a) && SessionOk(e, b);
    if a.tempPath == b.tempPath {
      TempPathsDiffer(e.dir, e.runId, a.id, b.id,
                      SafeFileName(a.remotePath).value, SafeFileName(b.remotePath).value);
    }
    assert i < j ==> Apart(a, b);
    assert j < i ==> Apart(b, a);
  }

  /** The session keeps what identifies it. */
  ghost predicate SameIdentity(a: Session, b: Session) {
    && a.id == b.id && a.remotePath == b.remotePath && a.ioPath == b.ioPath
    && a.tabId == b.tabId && a.key == b.key && a.tempPath == b.tempPath && a.profileId == b.profileId
  }

  /** Each session is edited in place, and no pending check id appears that was not there. */
  lemma EditedKeepsInv(e: Edits, f: Edits)
    requires Inv(e) && f == e.(sessions := f.sessions) && |f.sessions| == |e.sessions|
    requires forall i | 0 <= i < |e.sessions| ::
               && SameIdentity(e.sessions[i], f.sessions[i])
               && (f.sessions[i].pendingCheck == e.sessions[i].pendingCheck || f.sessions[i].pendingCheck.None?)
               && (f.sessions[i].pendingCheck.Some? <==> f.sessions[i].phase.CheckingRemote?)
               && (f.sessions[i].checkingMtime.Some? <==> f.sessions[i].phase.CheckingRemote?)
    ensures Inv(f)
  {
    forall s | s in f.sessions
      ensures SessionOk(f, s)
    {
      var i :| 0 <= i < |f.sessions| && f.sessions[i] == s;
      assert SessionOk(e, e.sessions[i]);
    }
    forall i, j | 0 <= i < j < |f.sessions|
      ensures Apart(f.sessions[i], f.sessions[j])
    {
      assert Apart(e.sessions[i], e.sessions[j]);
    }
  }

  lemma {:induction false} RetainKeepsPairs(sessions: seq<Session>, keep: Session -> bool)
    requires PairsApart(sessions)
    ensures PairsApart(Retain(sessions, keep))
  {
    if sessions != [] {
      var rest := sessions[1..];
      RetainKeepsPairs(rest, keep);
      forall s | s in Retain(rest, keep)
        ensures Apart(sessions[0], s)
      {
        var i :| 0 <= i < |rest| && rest[i] == s;
        assert Apart(sessions[0], sessions[i + 1]);
      }
    }
  }

  lemma RetainKeepsInv(e: Edits, keep: Session -> bool)
    requires Inv(e)
    ensures Inv(e.(sessions := Retain(e.sessions, keep)))
  {
    RetainKeepsPairs(e.sessions, keep);
    forall s | s in Retain(e.sessions, keep)
      ensures SessionOk(e.(sessions := Retain(e.sessions, keep)), s)
    {
      assert SessionOk(e, s);
    }
  }

  lemma RemovedElements(sessions: seq<Session>, i: nat)
    requires i < |sessions|
    ensures forall s :: s in sessions[..i] + sessions[i + 1..] ==> s in sessions
    ensures forall s :: s in sessions ==> s == sessions[i] || s in sessions[..i] + sessions[i + 1..]
  {
  }

  lemma RemovedPairs(sessions: seq<Session>, i: nat)
    requires i < |sessions| && PairsApart(sessions)
    ensures PairsApart(sessions[..i] + sessions[i + 1..])
    ensures forall s | s in sessions[..i] + sessions[i + 1..] :: s.id != sessions[i].id
  {
  }

  lemma RemoveKeepsInv(e: Edits, i: nat)
    requires Inv(e) && i < |e.sessions|
    ensures Inv(RemoveAt(e, i))
    ensures forall s :: s in RemoveAt(e, i).sessions <==> s in e.sessions && s.id != e.sessions[i].id
  {
    RemovedElements(e.sessions, i);
    RemovedPairs(e.sessions, i);
    var f := RemoveAt(e, i);
    forall s | s in f.sessions
      ensures SessionOk(f, s)
    {
      assert SessionOk(e, s);
    }
  }

  lemma StartKeepsInv(e: Edits, pending: PendingEdit)
    requires Inv(e)
    ensures Inv(StartDownload(e, pending).0)
  {
    if SafeFileName(pending.remotePath).Some? {
      var f := StartDownload(e, pending).0;
      forall s | s in f.sessions
        ensures SessionOk(f, s)
      {
        assert s in e.sessions ==> SessionOk(e, s);
      }
      forall i, j | 0 <= i < j < |f.sessions|
        ensures Apart(f.sessions[i], f.sessions[j])
      {
        assert SessionOk(e, e.sessions[i]);
        assert j < |e.sessions| ==> Apart(e.sessions[i], e.sessions[j]);
      }
    }
  }

  lemma BeginKeepsInv(e: Edits, pending: PendingEdit, live: TabId -> bool)
    requires Inv(e)
    ensures Inv(Begin(e, pending, live).0)
  {
    match Repointed(e, pending)
    case None => DeduplicateKeepsInv(e, pending, live, []);
    case Some(i) =>
      var (reaped, removed) := RemoveForTab(e, e.sessions[i].tabId);
      RetainKeepsInv(e, OffTab(e.sessions[i].tabId));
      DeduplicateKeepsInv(reaped, pending, live, CleanUps(removed));
  }

  lemma DeduplicateKeepsInv(e: Edits, pending: PendingEdit, live: TabId -> bool, reaped: seq<Effect>)
    requires Inv(e)
    ensures Inv(Deduplicate(e, pending, live, reaped).0)
  {
    match FirstIndex(e.sessions, BoundTo(pending.key, pending.ioPath))
    case None =>
    case Some(i) => RetainKeepsInv(e, OffTab(e.sessions[i].tabId));
  }

  /** A new check id for one session: it is above all others. */
  lemma NewCheckKeepsInv(e: Edits, i: nat, s: Session)
    requires Inv(e) && i < |e.sessions| && SameIdentity(e.sessions[i], s)
    requires s.phase.CheckingRemote? && s.pendingCheck == Some(e.nextCheckId) && s.checkingMtime.Some?
    ensures Inv(Put(e, i, s).(nextCheckId := e.nextCheckId + 1))
  {
    var f := Put(e, i, s).(nextCheckId := e.nextCheckId + 1);
    forall t | t in f.sessions
      ensures SessionOk(f, t)
    {
      assert SessionOk(e, e.sessions[i]);
      assert t == s || SessionOk(e, t);
    }
    forall j, k | 0 <= j < k < |f.sessions|
      ensures Apart(f.sessions[j], f.sessions[k])
    {
      assert Apart(e.sessions[j], e.sessions[k]);
      assert SessionOk(e, e.sessions[j]) && SessionOk(e, e.sessions[k]);
    }
  }

  lemma CounterKeepsInv(e: Edits)
    requires Inv(e)
    ensures Inv(e.(nextCheckId := e.nextCheckId + 1))
  {
  }

  lemma RequestKeepsInv(e: Edits, id: SessionId, epoch: nat, key: ConnectionKey, mtime: Timestamp)
    requires Inv(e)
    ensures Inv(RequestUpload(e, id, epoch, key, mtime).0)
  {
    CounterKeepsInv(e);
    match Find(e, id)
    case None =>
    case Some(i) =>
      var s := e.sessions[i];
      NewCheckKeepsInv(e, i, s.(phase := CheckingRemote, epoch := epoch, pendingCheck := Some(e.nextCheckId),
                                checkingMtime := Some(mtime)));
  }

  lemma PutKeepsInv(e: Edits, i: nat, s: Session)
    requires Inv(e) && i < |e.sessions| && SameIdentity(e.sessions[i], s)
    requires s.pendingCheck == e.sessions[i].pendingCheck || s.pendingCheck.None?
    requires s.pendingCheck.Some? <==> s.phase.CheckingRemote?
    requires s.checkingMtime.Some? <==> s.phase.CheckingRemote?
    ensures Inv(Put(e, i, s))
  {
    forall j | 0 <= j < |e.sessions|
      ensures SessionOk(e, e.sessions[j])
    {
    }
    EditedKeepsInv(e, Put(e, i, s));
  }

  lemma RevertKeepsInv(e: Edits, id: SessionId)
    requires Inv(e)
    ensures Inv(RevertCheck(e, id))
  {
    if Find(e, id).Some? {
      var i := Find(e, id).value;
      PutKeepsInv(e, i, Unchecked(e.sessions[i], Editing));
    }
  }

  lemma AbortKeepsInv(e: Edits, id: SessionId)
    requires Inv(e)
    ensures Inv(AbortDownload(e, id).0)
  {
    if Find(e, id).Some? {
      RemoveKeepsInv(e, Find(e, id).value);
    }
  }

  lemma CheckKeepsInv(e: Edits, r: CheckResult, mtime: Option<Timestamp>)
    requires Inv(e)
    ensures Inv(OnCheckResult(e, r, mtime).0)
  {
    RevertKeepsInv(e, r.sessionId);
    if Find(e, r.sessionId).Some? {
      var i := Find(e, r.sessionId).value;
      PutKeepsInv(e, i, Unchecked(e.sessions[i], UploadingBack));
      PutKeepsInv(e, i, Unchecked(e.sessions[i], RemoteConflict));
    }
  }

  lemma FinishedKeepsInv(e: Edits, f: Finished, facts: Option<LocalFacts>)
    requires Inv(e)
    ensures Inv(OnTransferFinished(e, f, facts).0)
  {
    if TransferTemp(f).Some? && FirstIndex(e.sessions, HasTemp(TransferTemp(f).value)).Some? {
      var i := FirstIndex(e.sessions, HasTemp(TransferTemp(f).value)).value;
      var s := e.sessions[i];
      assert SessionOk(e, s);
      RemoveKeepsInv(e, i);
      if MatchesPhase(s, f) {
        PutKeepsInv(e, i, AfterDownload(s, facts));
        PutKeepsInv(e, i, AfterUpload(s, f.succeeded, facts));
      }
    }
  }

  lemma ResolveKeepsInv(e: Edits, id: SessionId, choice: Choice)
    requires Inv(e)
    ensures Inv(ResolveConflict(e, id, choice).0)
  {
    if Find(e, id).Some? {
      var i := Find(e, id).value;
      var s := e.sessions[i];
      assert SessionOk(e, s);
      if s.phase.RemoteConflict? {
        PutKeepsInv(e, i, s.(phase := UploadingBack));
        PutKeepsInv(e, i, s.(phase := Editing));
        RemoveKeepsInv(e, i);
        StartKeepsInv(RemoveAt(e, i), Reopened(s));
      }
    }
  }

  lemma DispatchFailedKeepsInv(e: Edits, id: SessionId, rollback: Rollback)
    requires Inv(e)
    ensures Inv(DispatchFailed(e, id, rollback).0)
  {
    RevertKeepsInv(e, id);
    AbortKeepsInv(e, id);
    if Find(e, id).Some? {
      var i := Find(e, id).value;
      assert SessionOk(e, e.sessions[i]);
      if e.sessions[i].phase.UploadingBack? {
        PutKeepsInv(e, i, e.sessions[i].(phase := RemoteConflict));
      }
    }
  }

  lemma ModifiedKeepsInv(e: Edits, id: SessionId, path: string, facts: Option<LocalFacts>)
    requires Inv(e)
    ensures Inv(RecordLocalModified(e, id, path, facts).0)
  {
    if Find(e, id).Some? {
      var i := Find(e, id).value;
      assert SessionOk(e, e.sessions[i]);
      PutKeepsInv(e, i, e.sessions[i].(localModified := true));
    }
  }

  lemma ListingKeepsInv(e: Edits, tab: TabId, listing: seq<Listed>)
    requires Inv(e)
    ensures Inv(AdoptListing(e, tab, listing))
  {
    assert forall i | 0 <= i < |e.sessions| :: SessionOk(e, e.sessions[i]);
    EditedKeepsInv(e, AdoptListing(e, tab, listing));
  }

  lemma ReconnectKeepsInv(e: Edits, tab: TabId, epoch: nat)
    requires Inv(e)
    ensures Inv(UpdateEpoch(e, tab, epoch))
  {
    assert forall i | 0 <= i < |e.sessions| :: SessionOk(e, e.sessions[i]);
    EditedKeepsInv(e, UpdateEpoch(e, tab, epoch));
  }

  /** Every intent, from any environment, keeps the invariant. */
  lemma StepKeepsInv(e: Edits, intent: Intent)
    requires Inv(e)
    ensures Inv(Step(e, intent).0)
  {
    match intent
    case BeginOnly(pending, live) => BeginKeepsInv(e, pending, live);
    case StartOnly(pending) => StartKeepsInv(e, pending);
    case Open(pending, live) =>
      BeginKeepsInv(e, pending, live);
      BeginEchoes(e, pending, live);
      StartKeepsInv(Begin(e, pending, live).0, pending);
    case Abort(id) => AbortKeepsInv(e, id);
    case AskUpload(id, epoch, key, mtime) => RequestKeepsInv(e, id, epoch, key, mtime);
    case Revert(id) => RevertKeepsInv(e, id);
    case CheckReturned(result, current) => CheckKeepsInv(e, result, current);
    case TransferEnded(finished, facts) => FinishedKeepsInv(e, finished, facts);
    case Resolve(id, choice) => ResolveKeepsInv(e, id, choice);
    case LocalChange(id, path, facts) => ModifiedKeepsInv(e, id, path, facts);
    case ListingLoaded(tab, listing) => ListingKeepsInv(e, tab, listing);
    case Reconnect(tab, epoch) => ReconnectKeepsInv(e, tab, epoch);
    case CloseTab(tab) => RetainKeepsInv(e, OffTab(tab));
  }

  /** `begin` hands the request back as it was. */
  lemma BeginEchoes(e: Edits, pending: PendingEdit, live: TabId -> bool)
    ensures var r := Begin(e, pending, live).1; r.Start? ==> r.pending == pending
  {
  }

  // ----- listings never move a baseline by a second or more -----

  /** Any number of listings for any tabs, one after another. */
  function AdoptAll(e: Edits, listings: seq<(TabId, seq<Listed>)>): Edits {
    if listings == [] then e
    else
      var last := listings[|listings| - 1];
      AdoptListing(AdoptAll(e, listings[..|listings| - 1]), last.0, last.1)
  }

  /** Listings change nothing but baselines, and those only below whole seconds. */
  lemma {:induction false} ListingsKeepBaselines(e: Edits, listings: seq<(TabId, seq<Listed>)>)
    ensures var f := AdoptAll(e, listings);
            && |f.sessions| == |e.sessions|
            && forall i | 0 <= i < |e.sessions| ::
                 && f.sessions[i] == e.sessions[i].(snapshot := f.sessions[i].snapshot)
                 && AgreesAtSeconds(f.sessions[i].snapshot, e.sessions[i].snapshot)
  {
    if listings != [] {
      ListingsKeepBaselines(e, listings[..|listings| - 1]);
    }
  }
}
