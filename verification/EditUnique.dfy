/** No two sessions write to, or were opened as, the same file of one connection. */
module EditUnique {
  import opened Common
  import opened EditTypes
  import opened EditSpec
  import opened EditInvariant
  import opened EditWorld

  predicate Clash(a: Session, b: Session) {
    a.key == b.key && (a.ioPath == b.ioPath || a.remotePath == b.remotePath)
  }

  predicate ClashesWith(s: Session, pending: PendingEdit) {
    s.key == pending.key && (s.ioPath == pending.ioPath || s.remotePath == pending.remotePath)
  }

  /** Sessions that clash are one session. */
  ghost predicate Unique(e: Edits) {
    forall s, t | s in e.sessions && t in e.sessions && Clash(s, t) :: s.id == t.id
  }

  ghost predicate NoneClashes(e: Edits, pending: PendingEdit) {
    forall s | s in e.sessions :: !ClashesWith(s, pending)
  }

  // ----- opening -----

  lemma DeduplicateClears(e: Edits, pending: PendingEdit, live: TabId -> bool, reaped: seq<Effect>)
    requires Unique(e) && Inv(e)
    requires forall s | s in e.sessions && s.key == pending.key && s.remotePath == pending.remotePath ::
               s.ioPath == pending.ioPath
    ensures var (f, r) := Deduplicate(e, pending, live, reaped);
            r.Start? ==> NoneClashes(f, pending)
  {
    match FirstIndex(e.sessions, BoundTo(pending.key, pending.ioPath))
    case None =>
    case Some(i) =>
      var found := e.sessions[i];
      assert found in e.sessions;
      forall s | s in e.sessions && ClashesWith(s, pending)
        ensures s.tabId == found.tabId
      {
        assert Clash(s, found);
        var j :| 0 <= j < |e.sessions| && e.sessions[j] == s;
        SameIdSameSession(e, i, j);
      }
  }

  lemma SubsetUnique(e: Edits, f: Edits)
    requires Unique(e) && forall s | s in f.sessions :: s in e.sessions
    ensures Unique(f)
  {
  }

  lemma BeginSubset(e: Edits, pending: PendingEdit, live: TabId -> bool)
    ensures forall s | s in Begin(e, pending, live).0.sessions :: s in e.sessions
  {
  }

  /** All sessions opened under one path on one connection are one session. */
  lemma OneOpened(e: Edits, i: nat, s: Session)
    requires Unique(e) && Inv(e) && i < |e.sessions| && s in e.sessions
    requires s.key == e.sessions[i].key && s.remotePath == e.sessions[i].remotePath
    ensures s == e.sessions[i]
  {
  }

  lemma DeadLinkClears(e: Edits, pending: PendingEdit, live: TabId -> bool, i: nat)
    requires Unique(e) && Inv(e) && i < |e.sessions| && OpenedAs(pending.key, pending.remotePath)(e.sessions[i])
    ensures var (reaped, removed) := RemoveForTab(e, e.sessions[i].tabId);
            var (f, r) := Deduplicate(reaped, pending, live, CleanUps(removed));
            r.Start? ==> NoneClashes(f, pending)
  {
    var (reaped, removed) := RemoveForTab(e, e.sessions[i].tabId);
    RetainKeepsInv(e, OffTab(e.sessions[i].tabId));
    SubsetUnique(e, reaped);
    forall s | s in reaped.sessions
      ensures !(s.key == pending.key && s.remotePath == pending.remotePath)
    {
      if s.key == pending.key && s.remotePath == pending.remotePath {
        OneOpened(e, i, s);
      }
    }
    DeduplicateClears(reaped, pending, live, CleanUps(removed));
  }

  lemma LiveLinkClears(e: Edits, pending: PendingEdit, live: TabId -> bool, i: nat)
    requires Unique(e) && Inv(e) && i < |e.sessions| && OpenedAs(pending.key, pending.remotePath)(e.sessions[i])
    requires e.sessions[i].ioPath == pending.ioPath
    ensures var (f, r) := Deduplicate(e, pending, live, []);
            r.Start? ==> NoneClashes(f, pending)
  {
    forall s | s in e.sessions && s.key == pending.key && s.remotePath == pending.remotePath
      ensures s.ioPath == pending.ioPath
    {
      OneOpened(e, i, s);
    }
    DeduplicateClears(e, pending, live, []);
  }

  /** When `begin` allows a download, nothing is left that would clash with it. */
  lemma BeginClears(e: Edits, pending: PendingEdit, live: TabId -> bool)
    requires Unique(e) && Inv(e)
    ensures Unique(Begin(e, pending, live).0)
    ensures Begin(e, pending, live).1.Start? ==> NoneClashes(Begin(e, pending, live).0, pending)
  {
    BeginSubset(e, pending, live);
    SubsetUnique(e, Begin(e, pending, live).0);
    match Last(e.sessions, OpenedAs(pending.key, pending.remotePath))
    case None => DeduplicateClears(e, pending, live, []);
    case Some(i) =>
      if e.sessions[i].ioPath == pending.ioPath {
        LiveLinkClears(e, pending, live, i);
      } else {
        DeadLinkClears(e, pending, live, i);
      }
  }

  /**
   Starting a download without asking `begin` in the same step is safe exactly
   when no session holds the file at that moment.
   */
  lemma StartUniqueIff(e: Edits, pending: PendingEdit)
    requires Inv(e) && Unique(e)
    ensures Unique(StartDownload(e, pending).0) <==> SafeFileName(pending.remotePath).None? || NoneClashes(e, pending)
  {
  }

  // ----- everything else edits in place or removes -----

  lemma InPlaceUnique(e: Edits, f: Edits)
    requires Unique(e) && |f.sessions| == |e.sessions|
    requires forall i | 0 <= i < |e.sessions| :: SameIdentity(e.sessions[i], f.sessions[i])
    ensures Unique(f)
  {
  }

  lemma RemoveUnique(e: Edits, i: nat)
    requires Unique(e) && i < |e.sessions|
    ensures Unique(RemoveAt(e, i))
  {
  }

  lemma DispatchFailedUnique(e: Edits, id: SessionId, rollback: Rollback)
    requires Unique(e)
    ensures Unique(DispatchFailed(e, id, rollback).0)
  {
    if Find(e, id).Some? {
      RemoveUnique(e, Find(e, id).value);
    }
    if !rollback.AbortDownloadRollback? {
      InPlaceUnique(e, DispatchFailed(e, id, rollback).0);
    }
  }

  lemma FinishedUnique(e: Edits, f: Finished, facts: Option<LocalFacts>)
    requires Unique(e)
    ensures Unique(OnTransferFinished(e, f, facts).0)
  {
    var g := OnTransferFinished(e, f, facts).0;
    if |g.sessions| == |e.sessions| {
      InPlaceUnique(e, g);
    } else {
      RemoveUnique(e, FirstIndex(e.sessions, HasTemp(TransferTemp(f).value)).value);
    }
  }

  lemma DiscardUnique(e: Edits, i: nat)
    requires Inv(e) && Unique(e) && i < |e.sessions|
    ensures Unique(StartDownload(RemoveAt(e, i), Reopened(e.sessions[i])).0)
  {
    RemoveKeepsInv(e, i);
    RemoveUnique(e, i);
    forall s | s in RemoveAt(e, i).sessions
      ensures !ClashesWith(s, Reopened(e.sessions[i]))
    {
      assert s in e.sessions && e.sessions[i] in e.sessions;
      assert Clash(s, e.sessions[i]) <==> ClashesWith(s, Reopened(e.sessions[i]));
    }
    StartUniqueIff(RemoveAt(e, i), Reopened(e.sessions[i]));
  }

  lemma ResolveUnique(e: Edits, id: SessionId, choice: Choice)
    requires Inv(e) && Unique(e)
    ensures Unique(ResolveConflict(e, id, choice).0)
  {
    if Find(e, id).Some? {
      DiscardUnique(e, Find(e, id).value);
    }
    if choice != DiscardLocal {
      InPlaceUnique(e, ResolveConflict(e, id, choice).0);
    }
  }

  lemma OpenUnique(e: Edits, pending: PendingEdit, live: TabId -> bool)
    requires Inv(e) && Unique(e)
    ensures Unique(Step(e, Open(pending, live)).0)
  {
    BeginClears(e, pending, live);
    BeginEchoes(e, pending, live);
    BeginKeepsInv(e, pending, live);
    StartUniqueIff(Begin(e, pending, live).0, pending);
  }

  lemma StepUnique(e: Edits, intent: Intent)
    requires Inv(e) && Unique(e) && !intent.StartOnly?
    ensures Unique(Step(e, intent).0)
  {
    match intent
    case BeginOnly(pending, live) => BeginClears(e, pending, live);
    case Open(pending, live) => OpenUnique(e, pending, live);
    case Abort(id) => DispatchFailedUnique(e, id, AbortDownloadRollback);
    case TransferEnded(finished, facts) => FinishedUnique(e, finished, facts);
    case Resolve(id, choice) => ResolveUnique(e, id, choice);
    case CloseTab(tab) => SubsetUnique(e, RemoveForTab(e, tab).0);
    case _ => OtherStepUnique(e, intent);
  }

  lemma OtherStepUnique(e: Edits, intent: Intent)
    requires Unique(e)
    requires intent.AskUpload? || intent.Revert? || intent.CheckReturned? || intent.LocalChange?
             || intent.ListingLoaded? || intent.Reconnect?
    ensures Unique(Step(e, intent).0)
  {
    match intent
    case AskUpload(id, epoch, key, mtime) => RequestUnique(e, id, epoch, key, mtime);
    case Revert(id) => DispatchFailedUnique(e, id, RevertCheckRollback);
    case CheckReturned(r, current) => ResultUnique(e, r, current);
    case LocalChange(id, path, facts) => ModifiedUnique(e, id, path, facts);
    case ListingLoaded(tab, listing) => ListingUnique(e, tab, listing);
    case Reconnect(tab, epoch) => ReconnectUnique(e, tab, epoch);
  }

  lemma ListingUnique(e: Edits, tab: TabId, listing: seq<Listed>)
    requires Unique(e)
    ensures Unique(AdoptListing(e, tab, listing))
  {
    InPlaceUnique(e, AdoptListing(e, tab, listing));
  }

  lemma ReconnectUnique(e: Edits, tab: TabId, epoch: nat)
    requires Unique(e)
    ensures Unique(UpdateEpoch(e, tab, epoch))
  {
    InPlaceUnique(e, UpdateEpoch(e, tab, epoch));
  }

  lemma RequestUnique(e: Edits, id: SessionId, epoch: nat, key: ConnectionKey, mtime: Timestamp)
    requires Unique(e)
    ensures Unique(RequestUpload(e, id, epoch, key, mtime).0)
  {
  }

  lemma ResultUnique(e: Edits, r: CheckResult, current: Option<Timestamp>)
    requires Unique(e)
    ensures Unique(OnCheckResult(e, r, current).0)
  {
    InPlaceUnique(e, OnCheckResult(e, r, current).0);
  }

  lemma ModifiedUnique(e: Edits, id: SessionId, path: string, facts: Option<LocalFacts>)
    requires Unique(e)
    ensures Unique(RecordLocalModified(e, id, path, facts).0)
  {
    InPlaceUnique(e, RecordLocalModified(e, id, path, facts).0);
  }

  lemma {:induction false} ExecuteUnique(w: World, effects: seq<Effect>, answers: nat -> bool, n: nat)
    requires Unique(w.edits)
    ensures Unique(Execute(w, effects, answers, n).edits)
    decreases Dispatches(effects), |effects|
  {
    if effects != [] {
      var rest := effects[1..];
      match effects[0]
      case Dispatch(_, id, command, rollback) =>
        if answers(n) {
          ExecuteUnique(w.(delivered := w.delivered + [Delivery(id, command)]), rest, answers, n + 1);
        } else {
          var (edits, followUp) := DispatchFailed(w.edits, id, rollback);
          DispatchFailedUnique(w.edits, id, rollback);
          FollowUpNeverDispatches(w.edits, id, rollback);
          DispatchesAdd(followUp, rest);
          ExecuteUnique(w.(edits := edits), followUp + rest, answers, n + 1);
        }
      case DeleteTempDir(path) => ExecuteUnique(w.(deleted := w.deleted + [path]), rest, answers, n);
      case _ => ExecuteUnique(w, rest, answers, n);
    }
  }

  /**
   When every download starts in the step that asked `begin`, no reachable state
   has two sessions for one file: not by write-through path, not by opened path.
   */
  lemma {:induction false} RunUnique(w: World, turns: seq<Turn>)
    requires Inv(w.edits) && Unique(w.edits)
    requires forall k | 0 <= k < |turns| :: !turns[k].intent.StartOnly?
    ensures Unique(Run(w, turns).edits)
  {
    if turns != [] {
      var front, last := turns[..|turns| - 1], turns[|turns| - 1];
      RunUnique(w, front);
      RunKeepsInv(w, front);
      PlayUnique(Run(w, front), last);
    }
  }

  lemma PlayUnique(w: World, turn: Turn)
    requires Inv(w.edits) && Unique(w.edits) && !turn.intent.StartOnly?
    ensures Unique(Play(w, turn).edits)
  {
    StepUnique(w.edits, turn.intent);
    ExecuteUnique(Stepped(w, turn.intent), Step(w.edits, turn.intent).1, turn.answers, 0);
  }

  /**
   Two windows ask for the same file before either has confirmed its download:
   both are told to start, both commands enter the channel, the sessions clash.
   */
  lemma LateStartsClash(w: World, a: PendingEdit, b: PendingEdit, live: TabId -> bool, answers: nat -> bool)
    requires w.edits.sessions == [] && answers(0)
    requires a.tabId != b.tabId && a.key == b.key && (a.ioPath == b.ioPath || a.remotePath == b.remotePath)
    requires SafeFileName(a.remotePath).Some? && SafeFileName(b.remotePath).Some?
    ensures var askedOnce := Play(w, Turn(BeginOnly(a, live), answers));
            var askedTwice := Play(askedOnce, Turn(BeginOnly(b, live), answers));
            && Begin(w.edits, a, live).1.Start? && Begin(askedOnce.edits, b, live).1.Start?
            && !Unique(Play(Play(askedTwice, Turn(StartOnly(a), answers)), Turn(StartOnly(b), answers)).edits)
  {
    var askedOnce := Play(w, Turn(BeginOnly(a, live), answers));
    AskedWhenEmpty(w, a, live, answers);
    AskedWhenEmpty(askedOnce, b, live, answers);
    var askedTwice := Play(askedOnce, Turn(BeginOnly(b, live), answers));
    StartEnters(askedTwice, a, answers);
    var one := Play(askedTwice, Turn(StartOnly(a), answers));
    StartEnters(one, b, answers);
    TwoStartsClash(askedTwice.edits, a, b);
  }

  lemma AskedWhenEmpty(w: World, pending: PendingEdit, live: TabId -> bool, answers: nat -> bool)
    requires w.edits.sessions == []
    ensures Begin(w.edits, pending, live).1.Start?
    ensures Play(w, Turn(BeginOnly(pending, live), answers)).edits == w.edits
  {
    assert Step(w.edits, BeginOnly(pending, live)) == (w.edits, []);
  }

  lemma StartEnters(w: World, pending: PendingEdit, answers: nat -> bool)
    requires answers(0)
    ensures Play(w, Turn(StartOnly(pending), answers)).edits == StartDownload(w.edits, pending).0
  {
    var effects := StartStep(w.edits, pending).1;
    assert effects[1..] == [];
    var s := Stepped(w, StartOnly(pending));
    if effects[0].Dispatch? {
      var d := s.(delivered := s.delivered + [Delivery(effects[0].sessionId, effects[0].command)]);
      assert Execute(d, [], answers, 1) == d;
    } else {
      assert Execute(s, [], answers, 0) == s;
    }
  }

  lemma TwoStartsClash(e: Edits, a: PendingEdit, b: PendingEdit)
    requires a.key == b.key && (a.ioPath == b.ioPath || a.remotePath == b.remotePath)
    requires SafeFileName(a.remotePath).Some? && SafeFileName(b.remotePath).Some?
    ensures !Unique(StartDownload(StartDownload(e, a).0, b).0)
  {
    var first := NewSession(e, a, SafeFileName(a.remotePath).value);
    var f := StartDownload(StartDownload(e, a).0, b).0;
    assert f.sessions[|e.sessions|] == first;
    assert Clash(first, f.sessions[|e.sessions| + 1]);
  }
}
