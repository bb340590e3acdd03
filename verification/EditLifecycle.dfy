/**
 The lifecycle object of the program, which edits its session list in place, and
 the executor of its effects. Each method is proved against the functions of
 `EditSpec` and `EditWorld`.
 */
module EditLifecycles {
  import opened Common
  import opened EditTypes
  import opened EditSpec
  import opened EditInvariant
  import opened EditMeanings
  import opened EditWorld
  import opened EditLedger

  class EditLifecycle {
    var sessions: seq<Session>
    var nextId: SessionId
    var nextCheckId: CheckId
    const dir: string
    const runId: string

    ghost function Value(): Edits
      reads this
    {
      Edits(sessions, nextId, nextCheckId, dir, runId)
    }

    constructor (dir: string, runId: string)
      ensures Value() == Fresh(dir, runId).edits && Inv(Value())
    {
      this.dir, this.runId := dir, runId;
      sessions, nextId, nextCheckId := [], 1, 1;
    }

    // ----- the session store -----

    method NextCheckId() returns (id: CheckId)
      modifies this`nextCheckId
      ensures id == old(nextCheckId) && nextCheckId == id + 1
    {
      id := nextCheckId;
      nextCheckId := nextCheckId + 1;
    }

    method RemoveAt(i: nat)
      requires i < |sessions|
      modifies this`sessions
      ensures Value() == EditSpec.RemoveAt(old(Value()), i)
    {
      sessions := sessions[..i] + sessions[i + 1..];
    }

    /** Walk the list with an index that stays put after a removal. */
    method RemoveForTab(tab: TabId) returns (removed: seq<Session>)
      modifies this`sessions
      ensures (Value(), removed) == EditSpec.RemoveForTab(old(Value()), tab)
    {
      removed := [];
      var index := 0;
      ghost var seen: seq<Session> := [];
      while index < |sessions|
        invariant Walked(old(sessions), tab, seen, sessions, index, removed)
        decreases |sessions| - index
      {
        WalkOn(old(sessions), tab, seen, sessions, index, removed);
        seen := seen + [sessions[index]];
        if sessions[index].tabId == tab {
          removed := removed + [sessions[index]];
          sessions := sessions[..index] + sessions[index + 1..];
        } else {
          index := index + 1;
        }
      }
      assert sessions[..index] == sessions && seen + [] == seen;
    }

    method UpdateEpochForTab(tab: TabId, epoch: nat)
      modifies this`sessions
      ensures Value() == UpdateEpoch(old(Value()), tab, epoch)
      ensures old(Inv(Value())) ==> Inv(Value()) && EpochTaken(old(Value()), tab, epoch, Value())
    {
      if Inv(Value()) {
        ReconnectKeepsInv(Value(), tab, epoch);
        ReconnectMeans(Value(), tab, epoch);
      }
      for i := 0 to |sessions|
        invariant |sessions| == |old(sessions)|
        invariant forall k | 0 <= k < |sessions| ::
                    sessions[k] == if k < i then Reconnected(old(sessions)[k], tab, epoch) else old(sessions)[k]
      {
        if sessions[i].tabId == tab {
          if sessions[i].phase.CheckingRemote? {
            sessions := sessions[i := sessions[i].(phase := Editing, pendingCheck := None, checkingMtime := None)];
          }
          sessions := sessions[i := sessions[i].(epoch := epoch)];
        }
      }
    }

    /** What each editing session of the tab would adopt, with the session's id. */
    method CollectAdoptions(tab: TabId, listing: seq<Listed>)
      returns (adoptions: seq<(SessionId, Snapshot)>, ghost origins: seq<nat>)
      ensures AdoptionsFor(Value(), tab, listing, adoptions, origins, |sessions|)
    {
      adoptions, origins := [], [];
      for i := 0 to |sessions|
        invariant AdoptionsFor(Value(), tab, listing, adoptions, origins, i)
      {
        match Adoption(sessions[i], tab, listing) {
          case None =>
          case Some(snapshot) =>
            adoptions := adoptions + [(sessions[i].id, snapshot)];
            origins := origins + [i];
        }
      }
    }

    /** First the adoptions are collected by session id, then each is applied by looking the id up. */
    method AdoptListingBaselines(tab: TabId, listing: seq<Listed>)
      modifies this`sessions
      ensures old(Inv(Value())) ==> Value() == AdoptListing(old(Value()), tab, listing)
      ensures old(Inv(Value())) ==> Inv(Value()) && BaselinesAdopted(old(Value()), tab, listing, Value())
    {
      if Inv(Value()) {
        ListingKeepsInv(Value(), tab, listing);
        ListingMeans(Value(), tab, listing);
      }
      ghost var before := Value();
      var adoptions; ghost var origins;
      adoptions, origins := CollectAdoptions(tab, listing);
      for j := 0 to |adoptions|
        invariant |sessions| == |before.sessions|
        invariant Inv(before) ==>
                    forall k | 0 <= k < |sessions| ::
                      sessions[k] == if k in origins[..j] then Adopted(before.sessions[k], tab, listing)
                                     else before.sessions[k]
      {
        var found := FirstIndex(sessions, HasId(adoptions[j].0));
        if Inv(before) {
          AdoptionFound(before, Value(), origins[j], found);
          OneMoreOrigin(origins, j);
        }
        if found.Some? {
          sessions := sessions[found.value := sessions[found.value].(snapshot := adoptions[j].1)];
        }
      }
      assert origins[..|adoptions|] == origins;
    }

    // ----- opening -----

    method ReapTab(tab: TabId) returns (effects: seq<Effect>)
      modifies this`sessions
      ensures Value() == EditSpec.RemoveForTab(old(Value()), tab).0
      ensures effects == CleanUps(EditSpec.RemoveForTab(old(Value()), tab).1)
      ensures old(Inv(Value())) ==> Inv(Value()) && TabReaped(old(Value()), tab, Value(), effects)
    {
      if Inv(Value()) {
        RetainKeepsInv(Value(), OffTab(tab));
        ReapMeans(Value(), tab);
      }
      var removed := RemoveForTab(tab);
      effects := [];
      for i := 0 to |removed|
        invariant effects == CleanUps(removed[..i])
      {
        effects := effects + [DeleteTempDir(removed[i].tempPath)];
        assert removed[..i + 1][..i] == removed[..i];
      }
      assert removed[..|removed|] == removed;
    }

    method Begin(pending: PendingEdit, live: TabId -> bool) returns (r: BeginResult)
      modifies this`sessions
      ensures (Value(), r) == EditSpec.Begin(old(Value()), pending, live)
      ensures old(Inv(Value())) ==> Inv(Value()) && Begun(old(Value()), pending, live, Value(), r)
    {
      if Inv(Value()) {
        BeginKeepsInv(Value(), pending, live);
        BeginMeans(Value(), pending, live);
      }
      var reaped: seq<Effect> := [];
      var stale := Last(sessions, OpenedAs(pending.key, pending.remotePath));
      if stale.Some? && sessions[stale.value].ioPath != pending.ioPath {
        var existing := sessions[stale.value];
        if live(existing.tabId) {
          return Handled([NoticeTo(pending.tabId, LinkRepointed(existing.phase.RemoteConflict?))]);
        }
        reaped := ReapTab(existing.tabId);
      }
      var holder := FirstIndex(sessions, BoundTo(pending.key, pending.ioPath));
      if holder.Some? {
        var existing := sessions[holder.value];
        if live(existing.tabId) {
          if existing.phase.Editing? || existing.phase.UploadingBack? {
            return Handled([OpenEditor(existing.tabId, existing.tempPath)]);
          }
          return Handled([NoticeTo(pending.tabId, BlockedBy(existing.phase))]);
        }
        var more := ReapTab(existing.tabId);
        reaped := reaped + more;
      }
      return BeginResult.Start(pending, reaped);
    }

    method StartDownload(pending: PendingEdit) returns (r: StartResult)
      modifies this`sessions, this`nextId
      ensures (Value(), r) == EditSpec.StartDownload(old(Value()), pending)
      ensures old(Inv(Value())) ==> Inv(Value()) && DownloadStarted(old(Value()), pending, Value(), r)
    {
      if Inv(Value()) {
        StartKeepsInv(Value(), pending);
        StartMeans(Value(), pending);
      }
      var name := SafeFileName(pending.remotePath);
      if name.None? {
        return Refused(UnsafeFileName);
      }
      var id := nextId;
      nextId := nextId + 1;
      var s := Session(id, pending.remotePath, pending.ioPath, pending.tabId, pending.epoch, pending.profileId,
                       pending.key, TempPath(dir, runId, id, name.value), Downloading,
                       Snapshot(pending.size, pending.modifiedAt), None, None, false, None);
      sessions := sessions + [s];
      return Started(id, s.tempPath, DownloadCommand(s));
    }

    method AbortDownload(id: SessionId) returns (effects: seq<Effect>)
      modifies this`sessions
      ensures (Value(), effects) == EditSpec.AbortDownload(old(Value()), id)
      ensures old(Inv(Value())) ==> Inv(Value()) && DownloadAborted(old(Value()), id, Value(), effects)
    {
      if Inv(Value()) {
        AbortKeepsInv(Value(), id);
        AbortMeans(Value(), id);
      }
      var found := FirstIndex(sessions, HasId(id));
      if found.None? || !sessions[found.value].phase.Downloading? {
        return [];
      }
      var path := sessions[found.value].tempPath;
      RemoveAt(found.value);
      return [DeleteTempDir(path)];
    }

    // ----- uploading -----

    method RequestUpload(id: SessionId, epoch: nat, key: ConnectionKey, mtime: Timestamp) returns (r: UploadRequest)
      modifies this`sessions, this`nextCheckId
      ensures (Value(), r) == EditSpec.RequestUpload(old(Value()), id, epoch, key, mtime)
      ensures old(Inv(Value())) ==> Inv(Value()) && UploadAsked(old(Value()), id, epoch, key, mtime, Value(), r)
    {
      if Inv(Value()) {
        RequestKeepsInv(Value(), id, epoch, key, mtime);
        RequestMeans(Value(), id, epoch, key, mtime);
      }
      var check := NextCheckId();
      var found := FirstIndex(sessions, HasId(id));
      if found.None? {
        return Rejected(ServerCheckFailed);
      }
      var s := sessions[found.value];
      if !s.phase.Editing? {
        return Rejected(PhaseBlocked(s.phase));
      }
      if s.key != key {
        return Rejected(WrongConnection);
      }
      sessions := sessions[found.value := s.(phase := CheckingRemote, epoch := epoch,
                                             pendingCheck := Some(check), checkingMtime := Some(mtime))];
      return Check(CheckSnapshot(s.tabId, epoch, id, check, s.ioPath));
    }

    method RevertCheck(id: SessionId)
      modifies this`sessions
      ensures Value() == EditSpec.RevertCheck(old(Value()), id)
      ensures old(Inv(Value())) ==> Inv(Value()) && CheckReverted(old(Value()), id, Value())
    {
      if Inv(Value()) {
        RevertKeepsInv(Value(), id);
        RevertMeans(Value(), id);
      }
      var found := FirstIndex(sessions, HasId(id));
      if found.Some? {
        var s := sessions[found.value];
        sessions := sessions[found.value := s.(phase := Editing, pendingCheck := None, checkingMtime := None)];
      }
    }

    method OnCheckResult(result: CheckResult, current: Option<Timestamp>) returns (effects: seq<Effect>)
      modifies this`sessions
      ensures (Value(), effects) == EditSpec.OnCheckResult(old(Value()), result, current)
      ensures old(Inv(Value())) ==> Inv(Value()) && CheckAnswered(old(Value()), result, current, Value(), effects)
    {
      if Inv(Value()) {
        CheckKeepsInv(Value(), result, current);
        CheckMeans(Value(), result, current);
      }
      var found := FirstIndex(sessions, HasId(result.sessionId));
      if found.None? || !Applicable(sessions[found.value], result) {
        return [];
      }
      var s := sessions[found.value];
      if current != s.checkingMtime {
        RevertCheck(result.sessionId);
        return [NoticeTo(s.tabId, LocalChangedDuringCheck)];
      }
      match result.outcome
      case CheckFailed =>
        RevertCheck(result.sessionId);
        return [NoticeTo(s.tabId, ServerCheckFailed)];
      case Matched(snapshot) =>
        var unchanged_ := snapshot == s.snapshot;
        sessions := sessions[found.value := s.(phase := if unchanged_ then UploadingBack else RemoteConflict,
                                               pendingCheck := None, checkingMtime := None)];
        if unchanged_ {
          return [Dispatch(s.tabId, result.sessionId, UploadCommand(s), RevertCheckRollback)];
        }
        return [];
    }

    method OnTransferFinished(finished: Finished, facts: Option<LocalFacts>) returns (effects: seq<Effect>)
      modifies this`sessions
      ensures (Value(), effects) == EditSpec.OnTransferFinished(old(Value()), finished, facts)
      ensures old(Inv(Value())) ==> Inv(Value()) && TransferLanded(old(Value()), finished, facts, Value(), effects)
    {
      if Inv(Value()) {
        FinishedKeepsInv(Value(), finished, facts);
        FinishedMeans(Value(), finished, facts);
      }
      var temp := TransferTemp(finished);
      if temp.None? {
        return [];
      }
      var found := FirstIndex(sessions, HasTemp(temp.value));
      if found.None? || !MatchesPhase(sessions[found.value], finished) {
        return [];
      }
      var i := found.value;
      var s := sessions[i];
      if s.phase.Downloading? && !finished.succeeded {
        RemoveAt(i);
        return [DeleteTempDir(temp.value), NoticeTo(s.tabId, DownloadFailed(DisplayName(s.remotePath)))];
      }
      if s.phase.Downloading? {
        sessions := sessions[i := s.(phase := Editing, localModified := false, localBaseline := facts)];
        return [OpenEditor(s.tabId, temp.value)];
      }
      s := s.(phase := Editing);
      effects := [];
      if finished.succeeded {
        s := s.(localModified := false, localBaseline := facts);
        if facts.Some? {
          s := s.(snapshot := SnapshotOf(facts.value));
          effects := [RebaseListing(s.tabId, s.ioPath, SnapshotOf(facts.value))];
        }
      }
      sessions := sessions[i := s];
      effects := effects + [NoticeTo(s.tabId, if finished.succeeded then Uploaded else UploadFailed)];
    }

    // ----- conflicts and rollbacks -----

    method ResolveConflict(id: SessionId, choice: Choice) returns (effects: seq<Effect>)
      modifies this`sessions, this`nextId
      ensures (Value(), effects) == EditSpec.ResolveConflict(old(Value()), id, choice)
      ensures old(Inv(Value())) ==> Inv(Value()) && ConflictResolved(old(Value()), id, choice, Value(), effects)
    {
      if Inv(Value()) {
        ResolveKeepsInv(Value(), id, choice);
        ResolveMeans(Value(), id, choice);
      }
      var found := FirstIndex(sessions, HasId(id));
      if found.None? || !sessions[found.value].phase.RemoteConflict? {
        return [];
      }
      var i := found.value;
      var s := sessions[i];
      match choice
      case Overwrite =>
        sessions := sessions[i := s.(phase := UploadingBack)];
        return [Dispatch(s.tabId, id, UploadCommand(s), RestoreConflict)];
      case Later =>
        sessions := sessions[i := s.(phase := Editing)];
        return [];
      case DiscardLocal =>
        RemoveAt(i);
        var started := StartDownload(Reopened(s));
        return [DeleteTempDir(s.tempPath)] + StartEffects(s.tabId, started);
    }

    method DispatchFailed(id: SessionId, rollback: Rollback) returns (effects: seq<Effect>)
      modifies this`sessions
      ensures (Value(), effects) == EditSpec.DispatchFailed(old(Value()), id, rollback)
      ensures old(Inv(Value())) ==> Inv(Value()) && DispatchUndone(old(Value()), id, rollback, Value(), effects)
    {
      if Inv(Value()) {
        DispatchFailedKeepsInv(Value(), id, rollback);
        DispatchFailedMeans(Value(), id, rollback);
      }
      effects := [];
      match rollback
      case RevertCheckRollback =>
        RevertCheck(id);
      case AbortDownloadRollback =>
        effects := AbortDownload(id);
      case RestoreConflict =>
        var found := FirstIndex(sessions, HasId(id));
        if found.Some? && sessions[found.value].phase.UploadingBack? {
          sessions := sessions[found.value := sessions[found.value].(phase := RemoteConflict)];
        }
    }

    method RecordLocalModified(id: SessionId, path: string, facts: Option<LocalFacts>) returns (redraw: bool)
      modifies this`sessions
      ensures (Value(), redraw) == EditSpec.RecordLocalModified(old(Value()), id, path, facts)
      ensures old(Inv(Value())) ==> Inv(Value()) && ChangeSeen(old(Value()), id, path, facts, Value(), redraw)
    {
      if Inv(Value()) {
        ModifiedKeepsInv(Value(), id, path, facts);
        ModifiedMeans(Value(), id, path, facts);
      }
      var found := FirstIndex(sessions, HasId(id));
      if found.None? {
        return false;
      }
      var s := sessions[found.value];
      if !s.phase.Editing? || s.tempPath != path {
        return false;
      }
      if facts.Some? && s.localBaseline.Some? && s.localBaseline.value.size == facts.value.size
         && s.localBaseline.value.mtime == facts.value.mtime {
        return false;
      }
      sessions := sessions[found.value := s.(localModified := true)];
      return true;
    }

    // ----- every intent, with the effects its caller executes -----

    /** One intent as its caller carries it out; the effects are still to be executed. */
    method ApplyIntent(intent: Intent) returns (effects: seq<Effect>)
      modifies this
      ensures old(Inv(Value())) ==> (Value(), effects) == Step(old(Value()), intent)
    {
      if intent.CheckReturned? || intent.TransferEnded? || intent.Resolve? {
        effects := ApplyAnswer(intent);
      } else if MovesOneEdit(intent) {
        effects := ApplyToEdit(intent);
      } else if intent.BeginOnly? || intent.StartOnly? || intent.Open? {
        effects := ApplyOpening(intent);
      } else {
        effects := ApplyToTab(intent);
      }
    }

    method ApplyToEdit(intent: Intent) returns (effects: seq<Effect>)
      requires MovesOneEdit(intent)
      modifies this
      ensures (Value(), effects) == Step(old(Value()), intent)
    {
      effects := [];
      match intent {
        case Abort(id) =>
          effects := AbortDownload(id);
        case AskUpload(id, epoch, key, mtime) =>
          var asked := RequestUpload(id, epoch, key, mtime);
          if asked.Check? {
            effects := [Dispatch(asked.command.tabId, id, asked.command, RevertCheckRollback)];
          }
        case Revert(id) =>
          RevertCheck(id);
        case LocalChange(id, path, facts) =>
          var redraw := RecordLocalModified(id, path, facts);
      }
    }

    method ApplyAnswer(intent: Intent) returns (effects: seq<Effect>)
      requires intent.CheckReturned? || intent.TransferEnded? || intent.Resolve?
      modifies this
      ensures (Value(), effects) == Step(old(Value()), intent)
    {
      match intent {
        case CheckReturned(result, current) =>
          effects := OnCheckResult(result, current);
        case TransferEnded(finished, facts) =>
          effects := OnTransferFinished(finished, facts);
        case Resolve(id, choice) =>
          effects := ResolveConflict(id, choice);
      }
    }

    method ApplyOpening(intent: Intent) returns (effects: seq<Effect>)
      requires intent.BeginOnly? || intent.StartOnly? || intent.Open?
      modifies this
      ensures (Value(), effects) == Step(old(Value()), intent)
    {
      match intent {
        case BeginOnly(pending, live) =>
          effects := AskEdit(pending, live);
        case StartOnly(pending) =>
          var started := StartDownload(pending);
          effects := StartEffects(pending.tabId, started);
        case Open(pending, live) =>
          effects := OpenEdit(pending, live);
      }
    }

    method ApplyToTab(intent: Intent) returns (effects: seq<Effect>)
      requires intent.ListingLoaded? || intent.Reconnect? || intent.CloseTab?
      modifies this
      ensures old(Inv(Value())) ==> (Value(), effects) == Step(old(Value()), intent)
    {
      effects := [];
      match intent {
        case ListingLoaded(tab, listing) =>
          effects := TakeListing(tab, listing);
        case Reconnect(tab, epoch) =>
          UpdateEpochForTab(tab, epoch);
        case CloseTab(tab) =>
          effects := CloseEdits(tab);
      }
    }

    method CloseEdits(tab: TabId) returns (effects: seq<Effect>)
      modifies this`sessions
      ensures (Value(), effects) == Step(old(Value()), CloseTab(tab))
    {
      effects := ReapTab(tab);
    }

    method TakeListing(tab: TabId, listing: seq<Listed>) returns (effects: seq<Effect>)
      modifies this`sessions
      ensures old(Inv(Value())) ==> (Value(), effects) == Step(old(Value()), ListingLoaded(tab, listing))
    {
      effects := [];
      AdoptListingBaselines(tab, listing);
    }

    /** `begin` alone, with the cleanup it hands back. */
    method AskEdit(pending: PendingEdit, live: TabId -> bool) returns (effects: seq<Effect>)
      modifies this`sessions
      ensures (Value(), effects) == Step(old(Value()), BeginOnly(pending, live))
    {
      var begun := Begin(pending, live);
      effects := begun.effects;
    }

    /** `begin`, and at once the download it allows. */
    method OpenEdit(pending: PendingEdit, live: TabId -> bool) returns (effects: seq<Effect>)
      modifies this
      ensures (Value(), effects) == Step(old(Value()), Open(pending, live))
      ensures old(Inv(Value())) ==> Inv(Value())
    {
      ghost var before := Value();
      var begun := Begin(pending, live);
      effects := begun.effects;
      if begun.Start? {
        assert EditSpec.Begin(before, pending, live) == (Value(), BeginResult.Start(begun.pending, effects));
        var started := StartDownload(begun.pending);
        effects := effects + StartEffects(begun.pending.tabId, started);
      }
    }
  }

  /** The user or the watcher asks something of one session that is already there. */
  predicate MovesOneEdit(intent: Intent) {
    intent.Abort? || intent.AskUpload? || intent.Revert? || intent.LocalChange?
  }

  /** `seen` has been sorted into the kept front of the list and the removed ones; the rest is to come. */
  ghost predicate Walked(all: seq<Session>, tab: TabId, seen: seq<Session>, list: seq<Session>, index: nat,
                         removed: seq<Session>)
  {
    && index <= |list|
    && all == seen + list[index..]
    && list[..index] == Retain(seen, OffTab(tab))
    && removed == Retain(seen, OnTab(tab))
  }

  lemma WalkOn(all: seq<Session>, tab: TabId, seen: seq<Session>, list: seq<Session>, index: nat, removed: seq<Session>)
    requires Walked(all, tab, seen, list, index, removed) && index < |list|
    ensures list[index].tabId == tab ==>
              Walked(all, tab, seen + [list[index]], list[..index] + list[index + 1..], index, removed + [list[index]])
    ensures list[index].tabId != tab ==> Walked(all, tab, seen + [list[index]], list, index + 1, removed)
  {
    var head := list[index];
    RetainOneMore(seen, head, OffTab(tab));
    RetainOneMore(seen, head, OnTab(tab));
    MoveOne(seen, list, index);
  }

  lemma MoveOne(seen: seq<Session>, list: seq<Session>, i: nat)
    requires i < |list|
    ensures seen + list[i..] == (seen + [list[i]]) + list[i + 1..]
    ensures list[..i + 1] == list[..i] + [list[i]]
    ensures (list[..i] + list[i + 1..])[..i] == list[..i]
    ensures (list[..i] + list[i + 1..])[i..] == list[i + 1..]
  {
  }

  /** The adoptions collected from the first `i` sessions, and where each came from. */
  ghost predicate AdoptionsFor(e: Edits, tab: TabId, listing: seq<Listed>, adoptions: seq<(SessionId, Snapshot)>,
                               origins: seq<nat>, i: nat)
  {
    && |adoptions| == |origins| && i <= |e.sessions|
    && (forall j | 0 <= j < |origins| ::
          && origins[j] < i
          && adoptions[j].0 == e.sessions[origins[j]].id
          && Adoption(e.sessions[origins[j]], tab, listing) == Some(adoptions[j].1))
    && (forall k | 0 <= k < i :: k in origins <==> Adoption(e.sessions[k], tab, listing).Some?)
  }

  lemma OneMoreOrigin(origins: seq<nat>, j: nat)
    requires j < |origins|
    ensures origins[..j + 1] == origins[..j] + [origins[j]]
  {
  }

  lemma AdoptionFound(before: Edits, now: Edits, origin: nat, found: Option<nat>)
    requires Inv(before) && origin < |before.sessions| && |now.sessions| == |before.sessions|
    requires forall k | 0 <= k < |before.sessions| :: now.sessions[k].id == before.sessions[k].id
    requires found == FirstIndex(now.sessions, HasId(before.sessions[origin].id))
    ensures found == Some(origin)
  {
  }

  /** The window or coordinator that executes effects: the channel may refuse any command. */
  class EffectHost {
    const lifecycle: EditLifecycle
    var answers: nat -> bool
    var asked: nat
    var delivered: seq<Delivery>
    var deleted: seq<string>
    ghost var issued: seq<string>
    ghost var lost: set<string>

    constructor (lifecycle: EditLifecycle, answers: nat -> bool)
      ensures this.lifecycle == lifecycle && this.answers == answers && asked == 0
      ensures View() == World(lifecycle.Value(), [], [], {}, [])
    {
      this.lifecycle, this.answers := lifecycle, answers;
      asked, delivered, deleted, issued, lost := 0, [], [], [], {};
    }

    /** The lifecycle and the history so far. */
    ghost function View(): World
      reads this, lifecycle
    {
      World(lifecycle.Value(), issued, deleted, lost, delivered)
    }

    /** Whether `command` entered the runtime channel. */
    method DispatchCommand(id: SessionId, command: Command) returns (entered: bool)
      modifies this`asked, this`delivered
      ensures entered == answers(old(asked)) && asked == old(asked) + 1
      ensures delivered == if entered then old(delivered) + [Delivery(id, command)] else old(delivered)
    {
      entered := answers(asked);
      asked := asked + 1;
      if entered {
        delivered := delivered + [Delivery(id, command)];
      }
    }

    /**
     Execute effects in order. A failed dispatch rolls its session back and the
     follow-up effects, which never dispatch, are executed by the same policy.
     */
    method ExecuteEffects(effects: seq<Effect>)
      modifies this`asked, this`delivered, this`deleted, lifecycle
      ensures View() == Execute(old(View()), effects, answers, old(asked))
      ensures Dispatches(effects) == 0 ==> asked == old(asked)
      decreases Dispatches(effects)
    {
      ghost var start := View();
      ghost var begun := asked;
      var i := 0;
      assert effects[0..] == effects;
      while i < |effects|
        invariant 0 <= i <= |effects|
        invariant Execute(start, effects, answers, begun) == Execute(View(), effects[i..], answers, asked)
        invariant Dispatches(effects) >= Dispatches(effects[i..])
        invariant Dispatches(effects) == 0 ==> asked == begun
      {
        ghost var here := View();
        ghost var n := asked;
        ExecuteSplits(here, effects[i..], answers, n);
        assert effects[i..][1..] == effects[i + 1..];
        match effects[i] {
          case Dispatch(tab, id, command, rollback) =>
            var entered := DispatchCommand(id, command);
            if !entered {
              FollowUpNeverDispatches(here.edits, id, rollback);
              var followUp := lifecycle.DispatchFailed(id, rollback);
              ExecuteEffects(followUp);
            }
          case DeleteTempDir(path) =>
            deleted := deleted + [path];
          case _ =>
        }
        assert View() == ExecuteOne(here, effects[i], answers, n);
        i := i + 1;
      }
    }

    /** One turn: the intent reaches the lifecycle, and its effects are executed. */
    method PlayTurn(turn: Turn)
      requires Inv(lifecycle.Value())
      modifies this, lifecycle
      ensures View() == Play(old(View()), turn)
      ensures Inv(lifecycle.Value())
    {
      ghost var before := View();
      answers, asked := turn.answers, 0;
      var effects := lifecycle.ApplyIntent(turn.intent);
      issued, lost := Stepped(before, turn.intent).issued, Stepped(before, turn.intent).lost;
      StepKeepsInv(before.edits, turn.intent);
      ExecuteKeepsInv(Stepped(before, turn.intent), effects, turn.answers, 0);
      ExecuteEffects(effects);
    }

    /**
     Any turns at all: the object ends where the run ends, so that what is proved
     of runs is proved of it. Its temp paths stay accounted for.
     */
    method PlayAll(turns: seq<Turn>)
      requires Inv(lifecycle.Value())
      modifies this, lifecycle
      ensures View() == Run(old(View()), turns)
      ensures Inv(lifecycle.Value())
      ensures old(Ledger(View(), [])) ==> Ledger(View(), [])
    {
      ghost var start := View();
      if Ledger(start, []) {
        RunBalances(start, turns);
      }
      assert turns[..|turns|] == turns;
      for i := 0 to |turns|
        invariant View() == Run(start, turns[..i]) && Inv(lifecycle.Value())
      {
        RunStep(start, turns, i);
        PlayTurn(turns[i]);
      }
    }
  }

  /** One effect with everything that follows from it, the way the recursive executor runs it. */
  ghost function ExecuteOne(w: World, effect: Effect, answers: nat -> bool, n: nat): World {
    match effect
    case Dispatch(_, id, command, rollback) =>
      if answers(n) then w.(delivered := w.delivered + [Delivery(id, command)])
      else
        var (edits, followUp) := DispatchFailed(w.edits, id, rollback);
        Execute(w.(edits := edits), followUp, answers, n + 1)
    case DeleteTempDir(path) => w.(deleted := w.deleted + [path])
    case _ => w
  }

  lemma ExecuteSplits(w: World, effects: seq<Effect>, answers: nat -> bool, n: nat)
    requires effects != []
    ensures Execute(w, effects, answers, n) ==
            Execute(ExecuteOne(w, effects[0], answers, n), effects[1..], answers,
                    if effects[0].Dispatch? then n + 1 else n)
  {
    if effects[0].Dispatch? && !answers(n) {
      var (edits, followUp) := DispatchFailed(w.edits, effects[0].sessionId, effects[0].rollback);
      FollowUpNeverDispatches(w.edits, effects[0].sessionId, effects[0].rollback);
      ExecuteAppend(w.(edits := edits), followUp, effects[1..], answers, n + 1);
    }
  }

  /** Effects without a dispatch run first leave the rest to run from where they end. */
  lemma {:induction false} ExecuteAppend(w: World, a: seq<Effect>, b: seq<Effect>, answers: nat -> bool, n: nat)
    requires Dispatches(a) == 0
    ensures Execute(w, a + b, answers, n) == Execute(Execute(w, a, answers, n), b, answers, n)
    decreases |a|
  {
    if a == [] {
      assert a + b == b;
    } else {
      assert (a + b)[1..] == a[1..] + b;
      var next := if a[0].DeleteTempDir? then w.(deleted := w.deleted + [a[0].path]) else w;
      ExecuteAppend(next, a[1..], b, answers, n);
    }
  }
}
