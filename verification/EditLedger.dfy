/**
 Accounting for temp paths over whole runs: each path issued is with a live
 session, or was handed out for deletion once, or was lost; and it is lost only
 when `begin` reaps a dead tab and then answers without the cleanup.
 */
module EditLedger {
  import opened Common
  import opened EditTypes
  import opened EditSpec
  import opened EditInvariant
  import opened EditWorld
  import opened EditUploads

  ghost predicate NoRepeats(paths: seq<string>) {
    forall i, j | 0 <= i < j < |paths| :: paths[i] != paths[j]
  }

  ghost predicate IssuedBefore(e: Edits, path: string) {
    exists id: SessionId, name: string | id < e.nextId :: path == TempPath(e.dir, e.runId, id, name)
  }

  /** The ledger: paths issued are those of live sessions, those gone and those lost, with no overlap. */
  ghost predicate Balanced(e: Edits, issued: seq<string>, gone: seq<string>, lost: set<string>) {
    && NoRepeats(issued) && NoRepeats(gone)
    && Temps(e) !! SetOf(gone) && Temps(e) !! lost && SetOf(gone) !! lost
    && SetOf(issued) == Temps(e) + SetOf(gone) + lost
    && forall p | p in issued :: IssuedBefore(e, p)
  }

  /** One move from `e` to `f` that deletes `gone`, issues `issued` and loses `lost`. */
  ghost predicate Books(e: Edits, f: Edits, gone: seq<string>, issued: seq<string>, lost: set<string>) {
    && e.dir == f.dir && e.runId == f.runId
    && NoRepeats(gone)
    && Temps(f) !! SetOf(gone) && Temps(f) !! lost && SetOf(gone) !! lost
    && SetOf(gone) + lost <= Temps(e)
    && Temps(e) + SetOf(issued) == Temps(f) + SetOf(gone) + lost
    && if f.nextId == e.nextId then issued == []
       else f.nextId == e.nextId + 1 && |issued| == 1
            && exists name: string :: issued[0] == TempPath(e.dir, e.runId, e.nextId, name)
  }

  lemma NoRepeatsJoin(a: seq<string>, b: seq<string>)
    requires NoRepeats(a) && NoRepeats(b) && SetOf(a) !! SetOf(b)
    ensures NoRepeats(a + b) && SetOf(a + b) == SetOf(a) + SetOf(b)
  {
    forall i, j | 0 <= i < j < |a + b|
      ensures (a + b)[i] != (a + b)[j]
    {
      if i < |a| <= j {
        assert a[i] in SetOf(a) && b[j - |a|] in SetOf(b);
      }
    }
  }

  lemma SwapNoRepeats(a: seq<string>, b: seq<string>, c: seq<string>)
    requires NoRepeats(a + c) && NoRepeats(b) && SetOf(b) !! SetOf(a + c)
    ensures NoRepeats(a + (b + c)) && SetOf(a + (b + c)) == SetOf(a + c) + SetOf(b)
  {
    assert NoRepeats(a) by {
      assert forall i | 0 <= i < |a| :: a[i] == (a + c)[i];
    }
    assert NoRepeats(c) by {
      assert forall i | 0 <= i < |c| :: c[i] == (a + c)[|a| + i];
    }
    forall i, j | 0 <= i < |a| && 0 <= j < |c|
      ensures a[i] != c[j]
    {
      assert (a + c)[i] != (a + c)[|a| + j];
    }
    NoRepeatsJoin(b, c);
    NoRepeatsJoin(a, b + c);
  }

  lemma NewPathIsFresh(e: Edits, issued: seq<string>, name: string)
    requires forall p | p in issued :: IssuedBefore(e, p)
    ensures TempPath(e.dir, e.runId, e.nextId, name) !in issued
  {
    var path := TempPath(e.dir, e.runId, e.nextId, name);
    if path in issued {
      var id: SessionId, other: string :| id < e.nextId && path == TempPath(e.dir, e.runId, id, other);
      TempPathsDiffer(e.dir, e.runId, e.nextId, id, name, other);
    }
  }

  lemma BooksKeepBalance(e: Edits, f: Edits, issued: seq<string>, deleted: seq<string>, rest: seq<string>,
                         lost: set<string>, gone: seq<string>, new1: seq<string>, lost1: set<string>)
    requires Balanced(e, issued, deleted + rest, lost)
    requires Books(e, f, gone, new1, lost1)
    ensures Balanced(f, issued + new1, deleted + (gone + rest), lost + lost1)
  {
    assert SetOf(gone) !! SetOf(deleted + rest);
    SwapNoRepeats(deleted, gone, rest);
    if new1 != [] {
      var name: string :| new1[0] == TempPath(e.dir, e.runId, e.nextId, name);
      NewPathIsFresh(e, issued, name);
    }
    assert SetOf(new1) !! SetOf(issued);
    NoRepeatsJoin(issued, new1);
    forall p | p in issued + new1
      ensures IssuedBefore(f, p)
    {
      if p in issued {
        var id: SessionId, name: string :| id < e.nextId && p == TempPath(e.dir, e.runId, id, name);
        assert id < f.nextId && p == TempPath(f.dir, f.runId, id, name);
      }
    }
  }

  // ----- the books of each kind of move -----

  lemma InPlaceBooks(e: Edits, f: Edits)
    requires f == e.(sessions := f.sessions, nextCheckId := f.nextCheckId) && |f.sessions| == |e.sessions|
    requires forall i | 0 <= i < |e.sessions| :: f.sessions[i].tempPath == e.sessions[i].tempPath
    ensures Books(e, f, [], [], {})
  {
  }

  lemma NothingDeleted(effects: seq<Effect>)
    requires forall effect | effect in effects :: !effect.DeleteTempDir?
    ensures Deletions(effects) == []
  {
  }

  /** An intent that edits in place and asks for no cleanup. */
  lemma QuietBooks(e: Edits, f: Edits, effects: seq<Effect>)
    requires f == e.(sessions := f.sessions, nextCheckId := f.nextCheckId) && |f.sessions| == |e.sessions|
    requires forall i | 0 <= i < |e.sessions| :: f.sessions[i].tempPath == e.sessions[i].tempPath
    requires forall effect | effect in effects :: !effect.DeleteTempDir?
    ensures Books(e, f, Deletions(effects), Issued(e, f), {})
  {
  }

  lemma RemoveBooks(e: Edits, i: nat)
    requires Inv(e) && i < |e.sessions|
    ensures Books(e, RemoveAt(e, i), [e.sessions[i].tempPath], [], {})
  {
    RemovedElements(e.sessions, i);
    RemoveKeepsInv(e, i);
    var path := e.sessions[i].tempPath;
    assert e.sessions[i] in e.sessions;
    forall s | s in RemoveAt(e, i).sessions
      ensures s.tempPath != path
    {
      var j :| 0 <= j < |e.sessions| && e.sessions[j] == s;
      if s.tempPath == path {
        SameIdSameSession(e, i, j);
      }
    }
    forall p | p in Temps(e)
      ensures p in Temps(RemoveAt(e, i)) + {path}
    {
      var s :| s in e.sessions && s.tempPath == p;
      assert s == e.sessions[i] || s in RemoveAt(e, i).sessions;
    }
  }

  function TempsOf(sessions: seq<Session>): seq<string> {
    seq(|sessions|, i requires 0 <= i < |sessions| => sessions[i].tempPath)
  }

  lemma {:induction false} CleanUpDeletions(removed: seq<Session>)
    ensures Deletions(CleanUps(removed)) == TempsOf(removed)
  {
    if removed != [] {
      var front, last := removed[..|removed| - 1], removed[|removed| - 1];
      CleanUpDeletions(front);
      DeletionsAdd(CleanUps(front), [DeleteTempDir(last.tempPath)]);
    }
  }

  lemma {:induction false} DeletionsAdd(a: seq<Effect>, b: seq<Effect>)
    ensures Deletions(a + b) == Deletions(a) + Deletions(b)
  {
    if a == [] {
      assert a + b == b;
    } else {
      DeletionsAdd(a[1..], b);
      assert (a + b)[1..] == a[1..] + b;
    }
  }

  lemma DistinctTemps(e: Edits)
    requires Inv(e)
    ensures NoRepeats(TempsOf(e.sessions))
  {
    forall i, j | 0 <= i < j < |e.sessions|
      ensures e.sessions[i].tempPath != e.sessions[j].tempPath
    {
      if e.sessions[i].tempPath == e.sessions[j].tempPath {
        SameIdSameSession(e, i, j);
      }
    }
  }

  lemma TempsOfSet(e: Edits)
    ensures SetOf(TempsOf(e.sessions)) == Temps(e)
  {
    var paths := TempsOf(e.sessions);
    forall s | s in e.sessions
      ensures s.tempPath in paths
    {
      var i :| 0 <= i < |e.sessions| && e.sessions[i] == s;
      assert paths[i] == s.tempPath;
    }
    forall p | p in paths
      ensures p in Temps(e)
    {
      var i :| 0 <= i < |paths| && paths[i] == p;
      assert e.sessions[i] in e.sessions && e.sessions[i].tempPath == p;
    }
  }

  lemma OnAndOffTab(e: Edits, tab: TabId)
    requires Inv(e)
    ensures var on := e.(sessions := Retain(e.sessions, OnTab(tab)));
            var off := e.(sessions := Retain(e.sessions, OffTab(tab)));
            Temps(on) !! Temps(off) && Temps(on) + Temps(off) == Temps(e)
  {
    var on, off := e.(sessions := Retain(e.sessions, OnTab(tab))), e.(sessions := Retain(e.sessions, OffTab(tab)));
    forall s, t | s in off.sessions && t in on.sessions
      ensures s.tempPath != t.tempPath
    {
      var i :| 0 <= i < |e.sessions| && e.sessions[i] == s;
      var j :| 0 <= j < |e.sessions| && e.sessions[j] == t;
      if s.tempPath == t.tempPath {
        SameIdSameSession(e, i, j);
      }
    }
    forall s | s in e.sessions
      ensures s in on.sessions || s in off.sessions
    {
    }
  }

  /** The sessions of `tab` go; their paths are deleted, or lost when nobody executes the cleanup. */
  lemma ReapBooks(e: Edits, tab: TabId)
    requires Inv(e)
    ensures var (f, removed) := RemoveForTab(e, tab);
            && Books(e, f, TempsOf(removed), [], {})
            && Books(e, f, [], [], SetOf(TempsOf(removed)))
  {
    var on := e.(sessions := Retain(e.sessions, OnTab(tab)));
    RetainKeepsInv(e, OnTab(tab));
    DistinctTemps(on);
    TempsOfSet(on);
    OnAndOffTab(e, tab);
  }

  lemma StartBooks(e: Edits, pending: PendingEdit)
    requires Inv(e)
    ensures Books(e, StartDownload(e, pending).0, [], Issued(e, StartDownload(e, pending).0), {})
  {
  }

  /** First a move that issues nothing, then one that deletes or issues. */
  lemma BooksJoin(e: Edits, f: Edits, g: Edits, gone1: seq<string>, lost1: set<string>,
                  gone2: seq<string>, new2: seq<string>)
    requires Books(e, f, gone1, [], lost1) && Books(f, g, gone2, new2, {})
    requires SetOf(new2) !! Temps(e)
    ensures Books(e, g, gone1 + gone2, new2, lost1)
  {
    NoRepeatsJoin(gone1, gone2);
  }

  lemma NewIsNotLive(e: Edits, f: Edits, gone: seq<string>, new1: seq<string>, lost: set<string>, b: Edits)
    requires Inv(b) && Books(e, f, gone, new1, lost) && b.nextId == e.nextId && b.dir == e.dir && b.runId == e.runId
    ensures SetOf(new1) !! Temps(b)
  {
    if p :| p in SetOf(new1) && p in Temps(b) {
      var name: string :| p == TempPath(e.dir, e.runId, e.nextId, name);
      var s :| s in b.sessions && s.tempPath == p;
      assert SessionOk(b, s);
      TempPathsDiffer(e.dir, e.runId, e.nextId, s.id, name, SafeFileName(s.remotePath).value);
    }
  }

  // ----- begin -----

  /** `begin` meets a re-pointed link of a dead tab, reaps it, and then finds a live session for the new target. */
  ghost predicate DropsCleanUp(e: Edits, pending: PendingEdit, live: TabId -> bool) {
    && Repointed(e, pending).Some?
    && var dead := e.sessions[Repointed(e, pending).value].tabId;
    && !live(dead)
    && var rest := RemoveForTab(e, dead).0.sessions;
    && FirstIndex(rest, BoundTo(pending.key, pending.ioPath)).Some?
    && live(rest[FirstIndex(rest, BoundTo(pending.key, pending.ioPath)).value].tabId)
  }

  /** What that loses: the temp paths of the dead tab. */
  ghost function Dropped(e: Edits, pending: PendingEdit, live: TabId -> bool): set<string> {
    if DropsCleanUp(e, pending, live)
    then SetOf(TempsOf(RemoveForTab(e, e.sessions[Repointed(e, pending).value].tabId).1)) else {}
  }

  lemma DroppedIsSomething(e: Edits, pending: PendingEdit, live: TabId -> bool)
    ensures Dropped(e, pending, live) != {} <==> DropsCleanUp(e, pending, live)
  {
    if DropsCleanUp(e, pending, live) {
      var found := e.sessions[Repointed(e, pending).value];
      var removed := RemoveForTab(e, found.tabId).1;
      assert found in removed;
      assert removed[0].tempPath == TempsOf(removed)[0];
      assert TempsOf(removed)[0] in Dropped(e, pending, live);
    }
  }

  /** The paths of the dead session `begin` finds for the file itself, and of its tab. */
  ghost function DeadHolder(e: Edits, pending: PendingEdit, live: TabId -> bool): seq<string> {
    match FirstIndex(e.sessions, BoundTo(pending.key, pending.ioPath))
    case None => []
    case Some(i) => if live(e.sessions[i].tabId) then [] else TempsOf(RemoveForTab(e, e.sessions[i].tabId).1)
  }

  lemma DeduplicateBooks(e: Edits, pending: PendingEdit, live: TabId -> bool, reaped: seq<Effect>)
    requires Inv(e)
    ensures var (f, r) := Deduplicate(e, pending, live, reaped);
            && Books(e, f, DeadHolder(e, pending, live), [], {})
            && (r.Handled? ==> f == e && Deletions(r.effects) == [] && DeadHolder(e, pending, live) == [])
            && (r.Start? ==> Deletions(r.effects) == Deletions(reaped) + DeadHolder(e, pending, live))
  {
    match FirstIndex(e.sessions, BoundTo(pending.key, pending.ioPath))
    case None => InPlaceBooks(e, e);
    case Some(i) =>
      if live(e.sessions[i].tabId) {
        InPlaceBooks(e, e);
      } else {
        ReapBooks(e, e.sessions[i].tabId);
        ReapDeletions(RemoveForTab(e, e.sessions[i].tabId).1, reaped);
      }
  }

  lemma ReapDeletions(removed: seq<Session>, reaped: seq<Effect>)
    ensures Deletions(reaped + CleanUps(removed)) == Deletions(reaped) + TempsOf(removed)
  {
    CleanUpDeletions(removed);
    DeletionsAdd(reaped, CleanUps(removed));
  }

  lemma BeginBooks(e: Edits, pending: PendingEdit, live: TabId -> bool)
    requires Inv(e)
    ensures var (f, r) := Begin(e, pending, live);
            Books(e, f, Deletions(r.effects), [], Dropped(e, pending, live))
  {
    match Repointed(e, pending)
    case None =>
      DeduplicateBooks(e, pending, live, []);
      assert Deletions([]) + DeadHolder(e, pending, live) == DeadHolder(e, pending, live);
    case Some(i) =>
      if live(e.sessions[i].tabId) {
        InPlaceBooks(e, e);
      } else {
        DeadLinkBooks(e, pending, live, i);
      }
  }

  lemma DeadLinkBooks(e: Edits, pending: PendingEdit, live: TabId -> bool, i: nat)
    requires Inv(e) && Repointed(e, pending) == Some(i) && !live(e.sessions[i].tabId)
    ensures var (f, r) := Begin(e, pending, live);
            Books(e, f, Deletions(r.effects), [], Dropped(e, pending, live))
  {
    var tab := e.sessions[i].tabId;
    var (rest, removed) := RemoveForTab(e, tab);
    ReapBooks(e, tab);
    RetainKeepsInv(e, OffTab(tab));
    CleanUpDeletions(removed);
    DeduplicateBooks(rest, pending, live, CleanUps(removed));
    var (f, r) := Deduplicate(rest, pending, live, CleanUps(removed));
    if r.Start? {
      BooksJoin(e, rest, f, TempsOf(removed), {}, DeadHolder(rest, pending, live), []);
    }
  }

  // ----- every intent -----

  lemma AbortBooks(e: Edits, id: SessionId)
    requires Inv(e)
    ensures Books(e, AbortDownload(e, id).0, Deletions(AbortDownload(e, id).1), [], {})
  {
    InPlaceBooks(e, e);
    if Find(e, id).Some? {
      RemoveBooks(e, Find(e, id).value);
    }
  }

  lemma FinishedBooks(e: Edits, f: Finished, facts: Option<LocalFacts>)
    requires Inv(e)
    ensures var (g, effects) := OnTransferFinished(e, f, facts);
            Books(e, g, Deletions(effects), [], {})
  {
    var (g, effects) := OnTransferFinished(e, f, facts);
    if |g.sessions| == |e.sessions| {
      QuietBooks(e, g, effects);
    } else {
      RemoveBooks(e, FirstIndex(e.sessions, HasTemp(TransferTemp(f).value)).value);
      DeletionsAdd(effects[..1], effects[1..]);
      assert effects[..1] + effects[1..] == effects;
    }
  }

  lemma DiscardBooks(e: Edits, i: nat)
    requires Inv(e) && i < |e.sessions|
    ensures var g := StartDownload(RemoveAt(e, i), Reopened(e.sessions[i])).0;
            Books(e, g, [e.sessions[i].tempPath], Issued(e, g), {})
  {
    var r := RemoveAt(e, i);
    RemoveBooks(e, i);
    RemoveKeepsInv(e, i);
    StartBooks(r, Reopened(e.sessions[i]));
    var g := StartDownload(r, Reopened(e.sessions[i])).0;
    NewIsNotLive(r, g, [], Issued(r, g), {}, e);
    BooksJoin(e, r, g, [e.sessions[i].tempPath], {}, [], Issued(r, g));
    assert [e.sessions[i].tempPath] + [] == [e.sessions[i].tempPath];
  }

  lemma DiscardDeletions(s: Session, started: StartResult)
    ensures Deletions([DeleteTempDir(s.tempPath)] + StartEffects(s.tabId, started)) == [s.tempPath]
  {
    var effects := StartEffects(s.tabId, started);
    NothingDeleted(effects);
    assert ([DeleteTempDir(s.tempPath)] + effects)[1..] == effects;
  }

  lemma ResolveBooks(e: Edits, id: SessionId, choice: Choice)
    requires Inv(e)
    ensures var (g, effects) := ResolveConflict(e, id, choice);
            Books(e, g, Deletions(effects), Issued(e, g), {})
  {
    var (g, effects) := ResolveConflict(e, id, choice);
    match Find(e, id)
    case None => InPlaceBooks(e, e);
    case Some(i) =>
      if choice == DiscardLocal && e.sessions[i].phase.RemoteConflict? {
        DiscardBooks(e, i);
        var s := e.sessions[i];
        DiscardDeletions(s, StartDownload(RemoveAt(e, i), Reopened(s)).1);
      } else {
        QuietBooks(e, g, effects);
      }
  }

  lemma OpenBooks(e: Edits, pending: PendingEdit, live: TabId -> bool)
    requires Inv(e)
    ensures var (g, effects) := Step(e, Open(pending, live));
            Books(e, g, Deletions(effects), Issued(e, g), Dropped(e, pending, live))
  {
    var (f, r) := Begin(e, pending, live);
    BeginBooks(e, pending, live);
    BeginKeepsInv(e, pending, live);
    BeginEchoes(e, pending, live);
    if r.Start? {
      OpenedBooks(e, f, pending, r.effects, Dropped(e, pending, live));
    }
  }

  lemma OpenedBooks(e: Edits, f: Edits, pending: PendingEdit, cleanup: seq<Effect>, dropped: set<string>)
    requires Inv(e) && Inv(f) && Books(e, f, Deletions(cleanup), [], dropped)
    ensures var (g, more) := StartStep(f, pending);
            Books(e, g, Deletions(cleanup + more), Issued(e, g), dropped)
  {
    StartBooks(f, pending);
    var (g, more) := StartStep(f, pending);
    StartAfter(e, f, g, cleanup, more, dropped);
  }

  lemma StartAfter(e: Edits, f: Edits, g: Edits, cleanup: seq<Effect>, more: seq<Effect>, dropped: set<string>)
    requires Inv(e) && Books(e, f, Deletions(cleanup), [], dropped)
    requires Books(f, g, [], Issued(f, g), {}) && Deletions(more) == []
    ensures Books(e, g, Deletions(cleanup + more), Issued(f, g), dropped)
  {
    NewIsNotLive(f, g, [], Issued(f, g), {}, e);
    BooksJoin(e, f, g, Deletions(cleanup), dropped, [], Issued(f, g));
    DeletionsAdd(cleanup, more);
    assert Deletions(cleanup) + [] == Deletions(cleanup);
  }

  /** What an intent loses: nothing, unless it is a `begin` that drops its cleanup. */
  ghost function Loses(e: Edits, intent: Intent): set<string> {
    match intent
    case BeginOnly(pending, live) => Dropped(e, pending, live)
    case Open(pending, live) => Dropped(e, pending, live)
    case _ => {}
  }

  lemma StepBooks(e: Edits, intent: Intent)
    requires Inv(e)
    ensures var (f, effects) := Step(e, intent);
            Books(e, f, Deletions(effects), Issued(e, f), Loses(e, intent))
  {
    match intent
    case BeginOnly(pending, live) => BeginBooks(e, pending, live);
    case StartOnly(pending) => StartBooks(e, pending);
    case Open(pending, live) => OpenBooks(e, pending, live);
    case Abort(id) => AbortBooks(e, id);
    case TransferEnded(finished, facts) => FinishedBooks(e, finished, facts);
    case Resolve(id, choice) => ResolveBooks(e, id, choice);
    case CloseTab(tab) =>
      ReapBooks(e, tab);
      CleanUpDeletions(RemoveForTab(e, tab).1);
    case _ => OtherBooks(e, intent);
  }

  lemma OtherBooks(e: Edits, intent: Intent)
    requires intent.AskUpload? || intent.Revert? || intent.CheckReturned? || intent.LocalChange?
             || intent.ListingLoaded? || intent.Reconnect?
    ensures var (f, effects) := Step(e, intent);
            Books(e, f, Deletions(effects), Issued(e, f), {})
  {
    match intent
    case AskUpload(id, epoch, key, mtime) => RequestBooks(e, id, epoch, key, mtime);
    case Revert(id) => RevertBooks(e, id);
    case CheckReturned(r, current) => ResultBooks(e, r, current);
    case LocalChange(id, path, facts) => ModifiedBooks(e, id, path, facts);
    case ListingLoaded(tab, listing) => ListingBooks(e, tab, listing);
    case Reconnect(tab, epoch) => ReconnectBooks(e, tab, epoch);
  }

  lemma RevertBooks(e: Edits, id: SessionId)
    ensures Books(e, RevertCheck(e, id), [], Issued(e, RevertCheck(e, id)), {})
  {
    QuietBooks(e, RevertCheck(e, id), []);
  }

  lemma ListingBooks(e: Edits, tab: TabId, listing: seq<Listed>)
    ensures Books(e, AdoptListing(e, tab, listing), [], Issued(e, AdoptListing(e, tab, listing)), {})
  {
    QuietBooks(e, AdoptListing(e, tab, listing), []);
  }

  lemma ReconnectBooks(e: Edits, tab: TabId, epoch: nat)
    ensures Books(e, UpdateEpoch(e, tab, epoch), [], Issued(e, UpdateEpoch(e, tab, epoch)), {})
  {
    QuietBooks(e, UpdateEpoch(e, tab, epoch), []);
  }

  lemma RequestBooks(e: Edits, id: SessionId, epoch: nat, key: ConnectionKey, mtime: Timestamp)
    ensures var (f, effects) := Step(e, AskUpload(id, epoch, key, mtime));
            Books(e, f, Deletions(effects), Issued(e, f), {})
  {
    var (f, effects) := Step(e, AskUpload(id, epoch, key, mtime));
    QuietBooks(e, f, effects);
  }

  lemma ResultBooks(e: Edits, r: CheckResult, current: Option<Timestamp>)
    ensures var (f, effects) := OnCheckResult(e, r, current);
            Books(e, f, Deletions(effects), Issued(e, f), {})
  {
    var (f, effects) := OnCheckResult(e, r, current);
    QuietBooks(e, f, effects);
  }

  lemma ModifiedBooks(e: Edits, id: SessionId, path: string, facts: Option<LocalFacts>)
    ensures var f := RecordLocalModified(e, id, path, facts).0;
            Books(e, f, Deletions([]), Issued(e, f), {})
  {
    QuietBooks(e, RecordLocalModified(e, id, path, facts).0, []);
  }

  lemma DispatchFailedBooks(e: Edits, id: SessionId, rollback: Rollback)
    requires Inv(e)
    ensures var (f, effects) := DispatchFailed(e, id, rollback);
            Books(e, f, Deletions(effects), [], {})
  {
    if rollback.AbortDownloadRollback? {
      AbortBooks(e, id);
    } else {
      InPlaceBooks(e, DispatchFailed(e, id, rollback).0);
    }
  }

  // ----- whole runs -----

  ghost predicate Ledger(w: World, pending: seq<string>) {
    Inv(w.edits) && Balanced(w.edits, w.issued, w.deleted + pending, w.lost)
  }

  lemma {:induction false} ExecuteBalances(w: World, effects: seq<Effect>, answers: nat -> bool, n: nat)
    requires Ledger(w, Deletions(effects))
    ensures Ledger(Execute(w, effects, answers, n), [])
    decreases Dispatches(effects), |effects|
  {
    if effects != [] {
      var rest := effects[1..];
      match effects[0]
      case Dispatch(_, id, command, rollback) =>
        if answers(n) {
          ExecuteBalances(w.(delivered := w.delivered + [Delivery(id, command)]), rest, answers, n + 1);
        } else {
          var (edits, followUp) := DispatchFailed(w.edits, id, rollback);
          DispatchFailedBooks(w.edits, id, rollback);
          DispatchFailedKeepsInv(w.edits, id, rollback);
          BooksKeepBalance(w.edits, edits, w.issued, w.deleted, Deletions(rest), w.lost, Deletions(followUp), [], {});
          assert w.issued + [] == w.issued && w.lost + {} == w.lost;
          DeletionsAdd(followUp, rest);
          FollowUpNeverDispatches(w.edits, id, rollback);
          DispatchesAdd(followUp, rest);
          ExecuteBalances(w.(edits := edits), followUp + rest, answers, n + 1);
        }
      case DeleteTempDir(path) =>
        assert w.deleted + ([path] + Deletions(rest)) == (w.deleted + [path]) + Deletions(rest);
        ExecuteBalances(w.(deleted := w.deleted + [path]), rest, answers, n);
      case _ => ExecuteBalances(w, rest, answers, n);
    }
  }

  /** The paths missing after a step are those `Loses` names. */
  lemma SteppedBalances(w: World, intent: Intent)
    requires Ledger(w, [])
    ensures Ledger(Stepped(w, intent), Deletions(Step(w.edits, intent).1))
    ensures Stepped(w, intent).lost == w.lost + Loses(w.edits, intent)
  {
    var (f, effects) := Step(w.edits, intent);
    var gone, new1, lost1 := Deletions(effects), Issued(w.edits, f), Loses(w.edits, intent);
    StepBooks(w.edits, intent);
    StepKeepsInv(w.edits, intent);
    BooksKeepBalance(w.edits, f, w.issued, w.deleted, [], w.lost, gone, new1, lost1);
    assert gone + [] == gone;
    assert Temps(w.edits) + SetOf(new1) - Temps(f) - SetOf(gone) == lost1;
  }

  /**
   Over every run the ledger balances: paths issued are distinct, each is live,
   or handed out for deletion exactly once, or lost.
   */
  lemma {:induction false} RunBalances(w: World, turns: seq<Turn>)
    requires Ledger(w, [])
    ensures Ledger(Run(w, turns), [])
  {
    if turns != [] {
      var front, last := turns[..|turns| - 1], turns[|turns| - 1];
      RunBalances(w, front);
      PlayBalances(Run(w, front), last);
    }
  }

  lemma PlayBalances(w: World, turn: Turn)
    requires Ledger(w, [])
    ensures Ledger(Play(w, turn), [])
  {
    SteppedBalances(w, turn.intent);
    ExecuteBalances(Stepped(w, turn.intent), Step(w.edits, turn.intent).1, turn.answers, 0);
  }

  lemma FreshBalances(dir: string, runId: string)
    ensures Ledger(Fresh(dir, runId), [])
  {
  }

  lemma {:induction false} ExecuteLosesNothing(w: World, effects: seq<Effect>, answers: nat -> bool, n: nat)
    ensures Execute(w, effects, answers, n).lost == w.lost
    decreases Dispatches(effects), |effects|
  {
    if effects != [] {
      var rest := effects[1..];
      match effects[0]
      case Dispatch(_, id, command, rollback) =>
        if answers(n) {
          ExecuteLosesNothing(w.(delivered := w.delivered + [Delivery(id, command)]), rest, answers, n + 1);
        } else {
          var (edits, followUp) := DispatchFailed(w.edits, id, rollback);
          FollowUpNeverDispatches(w.edits, id, rollback);
          DispatchesAdd(followUp, rest);
          ExecuteLosesNothing(w.(edits := edits), followUp + rest, answers, n + 1);
        }
      case DeleteTempDir(path) => ExecuteLosesNothing(w.(deleted := w.deleted + [path]), rest, answers, n);
      case _ => ExecuteLosesNothing(w, rest, answers, n);
    }
  }

  /**
   A turn of a balanced world loses a path exactly when it is a `begin` that
   reaps a dead tab for a re-pointed link and then finds the new target held by
   a live session; it then loses the temp paths of that dead tab.
   */
  lemma LosesExactlyWhenDropped(w: World, turn: Turn)
    requires Ledger(w, [])
    ensures Play(w, turn).lost == w.lost + Loses(w.edits, turn.intent)
    ensures Play(w, turn).lost != w.lost <==>
            && (turn.intent.BeginOnly? || turn.intent.Open?)
            && DropsCleanUp(w.edits, turn.intent.pending, turn.intent.live)
  {
    SteppedBalances(w, turn.intent);
    ExecuteLosesNothing(Stepped(w, turn.intent), Step(w.edits, turn.intent).1, turn.answers, 0);
    StepBooks(w.edits, turn.intent);
    assert w.deleted + [] == w.deleted;
    assert Loses(w.edits, turn.intent) !! w.lost;
    if turn.intent.BeginOnly? || turn.intent.Open? {
      DroppedIsSomething(w.edits, turn.intent.pending, turn.intent.live);
    }
  }

  const HERE := ConnectionKey("host", 22, "me", Ephemeral(1))
  const LINK := PendingEdit("/l", "/a", None, None, 1, HERE, 1, 0)
  const FILE := PendingEdit("/b", "/b", None, None, 1, HERE, 2, 0)

  function AnyTab(): TabId -> bool { (tab: TabId) => true }
  function TabTwoOnly(): TabId -> bool { (tab: TabId) => tab == 2 }
  function AllEnter(): nat -> bool { (n: nat) => true }

  // A link is opened on tab 1, a file on tab 2; tab 1 goes; the link, re-pointed at that file, is opened again.
  function OpenLink(): Turn { Turn(Open(LINK, AnyTab()), AllEnter()) }
  function OpenFile(): Turn { Turn(Open(FILE, AnyTab()), AllEnter()) }
  function OpenAgain(): Turn { Turn(Open(LINK.(ioPath := "/b"), TabTwoOnly()), AllEnter()) }

  /**
   The loss does happen in a run from the empty lifecycle: the last answer reopens
   the file, and the link's temp path is neither live nor ever handed out.
   */
  lemma DropHappens(dir: string, runId: string)
    ensures var v := Run(Fresh(dir, runId), [OpenLink(), OpenFile(), OpenAgain()]);
            var path := TempPath(dir, runId, 1, "l");
            path in v.issued && path in v.lost && path !in Temps(v.edits) && path !in v.deleted
  {
    var w := Fresh(dir, runId);
    RunOfThree(w, OpenLink(), OpenFile(), OpenAgain());
    var two := Play(Play(w, OpenLink()), OpenFile());
    PlayBalances(w, OpenLink());
    PlayBalances(Play(w, OpenLink()), OpenFile());
    TwoOpened(w);
    LinkLost(two, TempPath(dir, runId, 1, "l"));
  }

  lemma RunOfThree(w: World, a: Turn, b: Turn, c: Turn)
    ensures Run(w, [a, b, c]) == Play(Play(Play(w, a), b), c)
  {
    RunOneMore(w, [], a);
    RunOneMore(w, [a], b);
    RunOneMore(w, [a, b], c);
    assert [] + [a] == [a] && [a] + [b] == [a, b] && [a, b] + [c] == [a, b, c];
  }

  lemma RunOneMore(w: World, turns: seq<Turn>, turn: Turn)
    ensures Run(w, turns + [turn]) == Play(Run(w, turns), turn)
  {
    assert (turns + [turn])[..|turns|] == turns;
  }

  lemma LinkLost(w: World, path: string)
    requires Ledger(w, []) && LinkAndFile(w.edits) && w.edits.sessions[0].tempPath == path
    ensures var v := Play(w, OpenAgain());
            path in v.issued && path in v.lost && path !in Temps(v.edits) && path !in v.deleted
  {
    DropState(w.edits, w.edits.sessions[0], w.edits.sessions[1]);
    LosesExactlyWhenDropped(w, OpenAgain());
    PlayBalances(w, OpenAgain());
    LostIsGone(Play(w, OpenAgain()), path);
  }

  lemma LostIsGone(w: World, path: string)
    requires Ledger(w, []) && path in w.lost
    ensures path in w.issued && path !in Temps(w.edits) && path !in w.deleted
  {
    assert w.deleted + [] == w.deleted;
    assert path in SetOf(w.issued) && path !in SetOf(w.deleted);
  }

  ghost predicate LinkAndFile(e: Edits) {
    && |e.sessions| == 2
    && var link, file := e.sessions[0], e.sessions[1];
    && link.key == HERE && link.remotePath == "/l" && link.ioPath == "/a" && link.tabId == 1
    && file.key == HERE && file.remotePath == "/b" && file.ioPath == "/b" && file.tabId == 2
  }

  lemma TwoOpened(w: World)
    requires w.edits.sessions == []
    ensures var two := Play(Play(w, OpenLink()), OpenFile()).edits;
            && LinkAndFile(two)
            && two.sessions[0].tempPath == TempPath(w.edits.dir, w.edits.runId, w.edits.nextId, "l")
  {
    OpenStarts(w, LINK, AnyTab(), AllEnter(), "l");
    OpenStarts(Play(w, OpenLink()), FILE, AnyTab(), AllEnter(), "b");
  }

  lemma DropState(e: Edits, link: Session, file: Session)
    requires LinkAndFile(e) && e.sessions == [link, file]
    ensures DropsCleanUp(e, LINK.(ioPath := "/b"), TabTwoOnly())
    ensures link.tempPath in Dropped(e, LINK.(ioPath := "/b"), TabTwoOnly())
  {
    assert [link, file][..1] == [link] && [link, file][1..] == [file];
    assert Last(e.sessions, OpenedAs(HERE, "/l")) == Some(0);
    assert Retain(e.sessions, OffTab(1)) == [file];
    assert Retain(e.sessions, OnTab(1)) == [link] by {
      assert Retain([file], OnTab(1)) == [];
    }
    assert TempsOf([link])[0] == link.tempPath;
  }

  /** Opening a file that no session holds registers its session, if the download enters the channel. */
  lemma OpenStarts(w: World, pending: PendingEdit, live: TabId -> bool, answers: nat -> bool, name: string)
    requires forall s | s in w.edits.sessions :: s.ioPath != pending.ioPath && s.remotePath != pending.remotePath
    requires answers(0) && |name| == 1 && name[0] != '/' && name[0] != '.' && !IsBidiOrControl(name[0])
    requires pending.remotePath == "/" + name
    ensures var v := Play(w, Turn(Open(pending, live), answers));
            v.edits == w.edits.(sessions := w.edits.sessions + [NewSession(w.edits, pending, name)],
                                nextId := w.edits.nextId + 1)
  {
    NameOf(name);
    NothingHeld(w.edits, pending, live);
    var effects := Step(w.edits, Open(pending, live)).1;
    assert effects == StartStep(w.edits, pending).1;
    var s := Stepped(w, Open(pending, live));
    assert effects[1..] == [];
    var d := s.(delivered := s.delivered + [Delivery(effects[0].sessionId, effects[0].command)]);
    assert Execute(d, [], answers, 1) == d;
  }

  lemma NothingHeld(e: Edits, pending: PendingEdit, live: TabId -> bool)
    requires forall s | s in e.sessions :: s.ioPath != pending.ioPath && s.remotePath != pending.remotePath
    ensures Begin(e, pending, live) == (e, BeginResult.Start(pending, []))
  {
  }

  lemma NameOf(name: string)
    requires |name| == 1 && name[0] != '/' && name[0] != '.' && !IsBidiOrControl(name[0])
    ensures SafeFileName("/" + name) == Some(name)
  {
    var path := "/" + name;
    assert path[..1] == "/" && path[1..] == name;
    assert AfterLastSlash(path) == 1;
  }
}
