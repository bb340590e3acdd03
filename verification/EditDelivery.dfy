/** No session waits for a transfer that was never delivered, and failed dispatches are undone. */
module EditDelivery {
  import opened Common
  import opened EditTypes
  import opened EditSpec
  import opened EditInvariant
  import opened EditWorld
  import opened EditChannel
  import opened EditUploads

  predicate InFlight(s: Session) {
    s.phase.Downloading? || s.phase.UploadingBack?
  }

  /** The very command a session in flight is waiting for, epoch and all. */
  predicate Carries(command: Command, s: Session) {
    match s.phase
    case Downloading => Fetches(command, s)
    case UploadingBack => UploadsBack(command, s)
    case _ => false
  }

  ghost predicate Delivered(sent: seq<Delivery>, s: Session) {
    exists d :: d in sent && d.sessionId == s.id && Carries(d.command, s)
  }

  /** A dispatch still to be executed whose failure takes the session out of flight. */
  predicate Launches(effect: Effect, s: Session) {
    && effect.Dispatch? && effect.sessionId == s.id && Carries(effect.command, s)
    && (effect.rollback.AbortDownloadRollback? <==> s.phase.Downloading?)
  }

  ghost predicate Awaited(effects: seq<Effect>, s: Session) {
    exists effect :: effect in effects && Launches(effect, s)
  }

  /** In flight since before the turn, or by a command that the turn has sent or is about to send. */
  ghost predicate Covered(before: Edits, e: Edits, sent: seq<Delivery>, effects: seq<Effect>) {
    forall s | s in e.sessions && InFlight(s) ::
      StillInFlight(before, s) || Delivered(sent, s) || Awaited(effects, s)
  }

  // ----- a step puts sessions in flight only with a dispatch -----

  /** The session was already in flight the same way. */
  ghost predicate StillInFlight(e: Edits, s: Session) {
    exists t :: t in e.sessions && SameIdentity(t, s) && t.phase == s.phase
  }

  ghost predicate Launched(e: Edits, f: Edits, effects: seq<Effect>) {
    forall s | s in f.sessions && InFlight(s) :: StillInFlight(e, s) || Awaited(effects, s)
  }

  lemma SubsetLaunched(e: Edits, f: Edits, effects: seq<Effect>)
    requires forall s | s in f.sessions && InFlight(s) :: s in e.sessions
    ensures Launched(e, f, effects)
  {
  }

  lemma InPlaceLaunched(e: Edits, f: Edits, effects: seq<Effect>)
    requires |f.sessions| == |e.sessions|
    requires forall i | 0 <= i < |e.sessions| ::
               SameIdentity(e.sessions[i], f.sessions[i])
               && (InFlight(f.sessions[i]) ==>
                     f.sessions[i].phase == e.sessions[i].phase || Awaited(effects, f.sessions[i]))
    ensures Launched(e, f, effects)
  {
  }

  lemma StartLaunched(e: Edits, b: Edits, pending: PendingEdit, before: seq<Effect>)
    requires forall s | s in b.sessions :: s in e.sessions
    ensures Launched(e, StartStep(b, pending).0, before + StartStep(b, pending).1)
  {
    var (f, effects) := StartStep(b, pending);
    forall s | s in f.sessions && InFlight(s)
      ensures StillInFlight(e, s) || Awaited(before + effects, s)
    {
      if s in b.sessions {
        assert SameIdentity(s, s);
      } else {
        assert Launches(effects[0], s);
        assert effects[0] in before + effects;
      }
    }
  }

  lemma ResultLaunched(e: Edits, r: CheckResult, current: Option<Timestamp>)
    ensures Launched(e, OnCheckResult(e, r, current).0, OnCheckResult(e, r, current).1)
  {
    var (f, effects) := OnCheckResult(e, r, current);
    if effects != [] && effects[0].Dispatch? {
      var i := Find(e, r.sessionId).value;
      assert Launches(effects[0], f.sessions[i]);
    }
    InPlaceLaunched(e, f, effects);
  }

  lemma ResolveLaunched(e: Edits, id: SessionId, choice: Choice)
    ensures Launched(e, ResolveConflict(e, id, choice).0, ResolveConflict(e, id, choice).1)
  {
    var (f, effects) := ResolveConflict(e, id, choice);
    match Find(e, id)
    case None => SubsetLaunched(e, e, effects);
    case Some(i) =>
      if choice == DiscardLocal && e.sessions[i].phase.RemoteConflict? {
        RemovedElements(e.sessions, i);
        StartLaunched(e, RemoveAt(e, i), Reopened(e.sessions[i]), [DeleteTempDir(e.sessions[i].tempPath)]);
      } else {
        if effects != [] {
          assert Launches(effects[0], f.sessions[i]);
        }
        InPlaceLaunched(e, f, effects);
      }
  }

  lemma FinishedLaunched(e: Edits, f: Finished, facts: Option<LocalFacts>)
    ensures Launched(e, OnTransferFinished(e, f, facts).0, OnTransferFinished(e, f, facts).1)
  {
  }

  lemma RequestLaunched(e: Edits, id: SessionId, epoch: nat, key: ConnectionKey, mtime: Timestamp, effects: seq<Effect>)
    ensures Launched(e, RequestUpload(e, id, epoch, key, mtime).0, effects)
  {
  }

  lemma RollbackLaunched(e: Edits, id: SessionId, rollback: Rollback, effects: seq<Effect>)
    ensures Launched(e, DispatchFailed(e, id, rollback).0, effects)
  {
  }

  lemma ModifiedLaunched(e: Edits, id: SessionId, path: string, facts: Option<LocalFacts>)
    ensures Launched(e, RecordLocalModified(e, id, path, facts).0, [])
  {
  }

  lemma OpenLaunched(e: Edits, pending: PendingEdit, live: TabId -> bool)
    ensures Launched(e, Step(e, Open(pending, live)).0, Step(e, Open(pending, live)).1)
  {
    BeginChecks(e, pending, live);
    BeginEchoes(e, pending, live);
    var (f, r) := Begin(e, pending, live);
    if r.Handled? {
      SubsetLaunched(e, f, r.effects);
    } else {
      StartLaunched(e, f, pending, r.effects);
    }
  }

  lemma StepLaunched(e: Edits, intent: Intent)
    ensures Launched(e, Step(e, intent).0, Step(e, intent).1)
  {
    match intent
    case BeginOnly(pending, live) =>
      BeginChecks(e, pending, live);
      SubsetLaunched(e, Begin(e, pending, live).0, Begin(e, pending, live).1.effects);
    case StartOnly(pending) =>
      StartLaunched(e, e, pending, []);
      assert [] + StartStep(e, pending).1 == StartStep(e, pending).1;
    case Open(pending, live) => OpenLaunched(e, pending, live);
    case Abort(id) => RollbackLaunched(e, id, AbortDownloadRollback, AbortDownload(e, id).1);
    case AskUpload(id, epoch, key, mtime) => RequestLaunched(e, id, epoch, key, mtime, Step(e, intent).1);
    case Revert(id) => RollbackLaunched(e, id, RevertCheckRollback, []);
    case CheckReturned(r, current) => ResultLaunched(e, r, current);
    case TransferEnded(finished, facts) => FinishedLaunched(e, finished, facts);
    case Resolve(id, choice) => ResolveLaunched(e, id, choice);
    case LocalChange(id, path, facts) => ModifiedLaunched(e, id, path, facts);
    case ListingLoaded(tab, listing) => InPlaceLaunched(e, AdoptListing(e, tab, listing), []);
    case Reconnect(tab, epoch) => InPlaceLaunched(e, UpdateEpoch(e, tab, epoch), []);
    case CloseTab(tab) => SubsetLaunched(e, RemoveForTab(e, tab).0, CleanUps(RemoveForTab(e, tab).1));
  }

  // ----- executing -----

  /** A failed dispatch takes its own session out of flight and touches no other. */
  lemma RollbackGrounds(e: Edits, effect: Effect)
    requires Inv(e) && effect.Dispatch?
    ensures var f := DispatchFailed(e, effect.sessionId, effect.rollback).0;
            forall s | s in f.sessions && InFlight(s) :: s in e.sessions && !Launches(effect, s)
  {
  }

  lemma RollbackCovers(before: Edits, e: Edits, sent: seq<Delivery>, effect: Effect, rest: seq<Effect>)
    requires Inv(e) && effect.Dispatch? && Covered(before, e, sent, [effect] + rest)
    ensures var (f, followUp) := DispatchFailed(e, effect.sessionId, effect.rollback);
            Covered(before, f, sent, followUp + rest)
  {
    var (f, followUp) := DispatchFailed(e, effect.sessionId, effect.rollback);
    RollbackGrounds(e, effect);
    forall s | s in f.sessions && InFlight(s) && !StillInFlight(before, s) && !Delivered(sent, s)
      ensures Awaited(followUp + rest, s)
    {
      var x :| x in [effect] + rest && Launches(x, s);
      assert x in followUp + rest;
    }
  }

  lemma DeliveryCovers(before: Edits, e: Edits, sent: seq<Delivery>, effect: Effect, rest: seq<Effect>)
    requires effect.Dispatch? && Covered(before, e, sent, [effect] + rest)
    ensures Covered(before, e, sent + [Delivery(effect.sessionId, effect.command)], rest)
  {
    var more := sent + [Delivery(effect.sessionId, effect.command)];
    forall s | s in e.sessions && InFlight(s) && !StillInFlight(before, s)
      ensures Delivered(more, s) || Awaited(rest, s)
    {
      if Delivered(sent, s) {
        var d :| d in sent && d.sessionId == s.id && Carries(d.command, s);
        assert d in more;
      } else {
        var x :| x in [effect] + rest && Launches(x, s);
        assert x == effect ==> more[|sent|].sessionId == s.id;
      }
    }
  }

  lemma QuietCovers(before: Edits, e: Edits, sent: seq<Delivery>, effect: Effect, rest: seq<Effect>)
    requires !effect.Dispatch? && Covered(before, e, sent, [effect] + rest)
    ensures Covered(before, e, sent, rest)
  {
  }

  lemma {:induction false} ExecuteCovers(before: Edits, w: World, sent: seq<Delivery>, effects: seq<Effect>,
                                         answers: nat -> bool, n: nat)
    requires Inv(w.edits) && Covered(before, w.edits, sent, effects)
    ensures Covered(before, Execute(w, effects, answers, n).edits, sent + Admitted(effects, answers, n), [])
    decreases Dispatches(effects), |effects|
  {
    if effects == [] {
      assert sent + [] == sent;
    } else {
      var head, rest := effects[0], effects[1..];
      assert effects == [head] + rest;
      match head
      case Dispatch(_, id, command, rollback) =>
        if answers(n) {
          var d := Delivery(id, command);
          DeliveryCovers(before, w.edits, sent, head, rest);
          ExecuteCovers(before, w.(delivered := w.delivered + [d]), sent + [d], rest, answers, n + 1);
          SentInTurn(sent, d, Admitted(rest, answers, n + 1));
        } else {
          var (edits, followUp) := DispatchFailed(w.edits, id, rollback);
          RollbackCovers(before, w.edits, sent, head, rest);
          DispatchFailedKeepsInv(w.edits, id, rollback);
          FollowUpNeverDispatches(w.edits, id, rollback);
          DispatchesAdd(followUp, rest);
          AdmittedSkips(followUp, rest, answers, n + 1);
          ExecuteCovers(before, w.(edits := edits), sent, followUp + rest, answers, n + 1);
        }
      case DeleteTempDir(path) =>
        QuietCovers(before, w.edits, sent, head, rest);
        ExecuteCovers(before, w.(deleted := w.deleted + [path]), sent, rest, answers, n);
      case _ =>
        QuietCovers(before, w.edits, sent, head, rest);
        ExecuteCovers(before, w, sent, rest, answers, n);
    }
  }

  lemma SentInTurn(sent: seq<Delivery>, d: Delivery, more: seq<Delivery>)
    ensures (sent + [d]) + more == sent + ([d] + more)
  {
  }

  /**
   After any turn, under any pattern of failed dispatches, a session in flight was
   in flight before, or this very turn delivered the command it waits for.
   */
  lemma TurnCovers(w: World, turn: Turn, s: Session)
    requires Inv(w.edits) && s in Play(w, turn).edits.sessions && InFlight(s)
    ensures StillInFlight(w.edits, s) || Delivered(SentBy(w, turn), s)
    ensures Play(w, turn).delivered == w.delivered + SentBy(w, turn)
  {
    var effects := Step(w.edits, turn.intent).1;
    StepLaunched(w.edits, turn.intent);
    StepKeepsInv(w.edits, turn.intent);
    ExecuteCovers(w.edits, Stepped(w, turn.intent), [], effects, turn.answers, 0);
    assert [] + SentBy(w, turn) == SentBy(w, turn);
    assert !Awaited([], s);
    PlaySends(w, turn);
  }

  /** From state `k` of the run to its end the session has been in flight the same way. */
  ghost predicate InFlightSince(w: World, turns: seq<Turn>, k: nat, s: Session) {
    forall j | k <= j <= |turns| :: StillInFlight(Run(w, turns[..j]).edits, s)
  }

  /** Turn `k` put the session in flight and delivered the command it has been waiting for ever since. */
  ghost predicate LaunchedAt(w: World, turns: seq<Turn>, k: nat, s: Session)
    requires k < |turns|
  {
    && InFlightSince(w, turns, k + 1, s)
    && exists t | t in Run(w, turns[..k + 1]).edits.sessions ::
         SameIdentity(t, s) && t.phase == s.phase && Delivered(Sent(w, turns, k), t)
  }

  lemma StillFollows(e: Edits, t: Session, s: Session)
    requires StillInFlight(e, t) && SameIdentity(t, s) && t.phase == s.phase
    ensures StillInFlight(e, s)
  {
  }

  lemma PrefixOfFront(turns: seq<Turn>, k: nat)
    requires k < |turns|
    ensures turns[..|turns| - 1][..k] == turns[..k]
  {
  }

  lemma OneMoreTurn(w: World, turns: seq<Turn>, k: nat, t: Session, s: Session)
    requires turns != [] && k < |turns| && InFlightSince(w, turns[..|turns| - 1], k, t)
    requires SameIdentity(t, s) && t.phase == s.phase && s in Run(w, turns).edits.sessions
    ensures InFlightSince(w, turns, k, s)
  {
    forall j | k <= j <= |turns|
      ensures StillInFlight(Run(w, turns[..j]).edits, s)
    {
      if j < |turns| {
        PrefixOfFront(turns, j);
        StillFollows(Run(w, turns[..j]).edits, t, s);
      } else {
        assert turns[..j] == turns;
      }
    }
  }

  lemma LaunchFollows(w: World, turns: seq<Turn>, k: nat, t: Session, s: Session)
    requires k < |turns| - 1 && LaunchedAt(w, turns[..|turns| - 1], k, t)
    requires SameIdentity(t, s) && t.phase == s.phase && s in Run(w, turns).edits.sessions
    ensures LaunchedAt(w, turns, k, s)
  {
    OneMoreTurn(w, turns, k + 1, t, s);
    PrefixOfFront(turns, k);
    PrefixOfFront(turns, k + 1);
    var u :| u in Run(w, turns[..k + 1]).edits.sessions
             && SameIdentity(u, t) && u.phase == t.phase && Delivered(Sent(w, turns, k), u);
    assert SameIdentity(u, s) && u.phase == s.phase;
  }

  lemma LaunchedNow(w: World, turns: seq<Turn>, s: Session)
    requires turns != [] && s in Run(w, turns).edits.sessions
    requires Delivered(Sent(w, turns, |turns| - 1), s)
    ensures LaunchedAt(w, turns, |turns| - 1, s)
  {
    assert turns[..|turns|] == turns && SameIdentity(s, s);
  }

  /**
   Over every run, under every pattern of failed dispatches: a session that is
   downloading or uploading was put there by a turn that delivered its command and
   has been in flight ever since, if it was not so from the start.
   */
  lemma {:induction false} RunCovers(w: World, turns: seq<Turn>, s: Session)
    requires Inv(w.edits) && s in Run(w, turns).edits.sessions && InFlight(s)
    ensures InFlightSince(w, turns, 0, s) || exists k | 0 <= k < |turns| :: LaunchedAt(w, turns, k, s)
  {
    if turns == [] {
      assert SameIdentity(s, s);
    } else {
      var last := |turns| - 1;
      RunKeepsInv(w, turns[..last]);
      TurnCovers(Run(w, turns[..last]), turns[last], s);
      if Delivered(Sent(w, turns, last), s) {
        LaunchedNow(w, turns, s);
      } else {
        var t :| t in Run(w, turns[..last]).edits.sessions && SameIdentity(t, s) && t.phase == s.phase;
        RunCovers(w, turns[..last], t);
        if InFlightSince(w, turns[..last], 0, t) {
          OneMoreTurn(w, turns, 0, t, s);
        } else {
          var k :| 0 <= k < last && LaunchedAt(w, turns[..last], k, t);
          LaunchFollows(w, turns, k, t, s);
        }
      }
    }
  }

  /** Of a lifecycle that started empty, every session in flight has a delivered command. */
  lemma FreshRunCovers(dir: string, runId: string, turns: seq<Turn>, s: Session)
    requires s in Run(Fresh(dir, runId), turns).edits.sessions && InFlight(s)
    ensures exists k | 0 <= k < |turns| :: LaunchedAt(Fresh(dir, runId), turns, k, s)
  {
    RunCovers(Fresh(dir, runId), turns, s);
    assert !StillInFlight(Run(Fresh(dir, runId), turns[..0]).edits, s);
  }

  // ----- a delivered command can be answered -----

  /**
   The transfer a session waits for, finished either way, takes the session out of
   flight: the runtime reports it by the command's own source and destination.
   */
  lemma FinishedTransferLands(e: Edits, s: Session, command: Command, succeeded: bool, facts: Option<LocalFacts>)
    requires Inv(e) && s in e.sessions && InFlight(s) && Carries(command, s)
    ensures var f := OnTransferFinished(e, Finished(command.direction, command.source, command.destination, succeeded),
                                        facts).0;
            forall t | t in f.sessions && t.id == s.id :: t.phase.Editing?
  {
    var finished := Finished(command.direction, command.source, command.destination, succeeded);
    var f := OnTransferFinished(e, finished, facts).0;
    var i :| 0 <= i < |e.sessions| && e.sessions[i] == s;
    var n := FirstIndex(e.sessions, HasTemp(s.tempPath)).value;
    SameIdSameSession(e, i, n);
    RemoveKeepsInv(e, i);
    forall t | t in f.sessions && t.id == s.id
      ensures t.phase.Editing?
    {
      if |f.sessions| == |e.sessions| {
        var j :| 0 <= j < |f.sessions| && f.sessions[j] == t;
        SameIdSameSession(e, i, j);
      }
    }
  }

  // ----- what a failed dispatch restores -----

  lemma {:induction false} QuietKeepsEdits(w: World, effects: seq<Effect>, answers: nat -> bool, n: nat)
    requires Dispatches(effects) == 0
    ensures Execute(w, effects, answers, n).edits == w.edits
    decreases |effects|
  {
    if effects != [] {
      var next := if effects[0].DeleteTempDir? then w.(deleted := w.deleted + [effects[0].path]) else w;
      QuietKeepsEdits(next, effects[1..], answers, n);
    }
  }

  lemma ExecuteOneFailure(w: World, effect: Effect, answers: nat -> bool)
    requires effect.Dispatch? && !answers(0)
    ensures Execute(w, [effect], answers, 0).edits == DispatchFailed(w.edits, effect.sessionId, effect.rollback).0
  {
    var (edits, followUp) := DispatchFailed(w.edits, effect.sessionId, effect.rollback);
    assert [effect][1..] == [] && followUp + [] == followUp;
    FollowUpNeverDispatches(w.edits, effect.sessionId, effect.rollback);
    QuietKeepsEdits(w.(edits := edits), followUp, answers, 1);
  }

  /** An overwrite whose upload was not delivered leaves everything as it was. */
  lemma FailedOverwriteRestores(w: World, id: SessionId, answers: nat -> bool)
    requires Inv(w.edits) && !answers(0)
    ensures Play(w, Turn(Resolve(id, Overwrite), answers)).edits == w.edits
  {
    var (f, effects) := ResolveConflict(w.edits, id, Overwrite);
    if effects != [] {
      var i := Find(w.edits, id).value;
      ExecuteOneFailure(Stepped(w, Resolve(id, Overwrite)), effects[0], answers);
      assert f.sessions[i].id == id;
      SameIdSameSession(w.edits, i, Find(f, id).value);
      assert f.sessions[i := w.edits.sessions[i]] == w.edits.sessions;
    }
  }

  /** A first download that was not delivered leaves the session list as it was. */
  lemma FailedDownloadRestores(w: World, pending: PendingEdit, answers: nat -> bool)
    requires Inv(w.edits) && !answers(0)
    ensures Play(w, Turn(StartOnly(pending), answers)).edits.sessions == w.edits.sessions
  {
    var e := w.edits;
    var (f, effects) := StartStep(e, pending);
    if effects[0].Dispatch? {
      ExecuteOneFailure(Stepped(w, StartOnly(pending)), effects[0], answers);
      StartKeepsInv(e, pending);
      var i := Find(f, e.nextId).value;
      assert f.sessions[|e.sessions|].id == e.nextId;
      SameIdSameSession(f, i, |e.sessions|);
      assert f.sessions[..i] + f.sessions[i + 1..] == e.sessions;
    } else {
      QuietKeepsEdits(Stepped(w, StartOnly(pending)), effects, answers, 0);
    }
  }

  /** A check that was not delivered leaves the session editing; only its epoch is the new one. */
  lemma FailedCheckReverts(w: World, id: SessionId, epoch: nat, key: ConnectionKey, mtime: Timestamp,
                           answers: nat -> bool)
    requires Inv(w.edits) && !answers(0)
    ensures var v := Play(w, Turn(AskUpload(id, epoch, key, mtime), answers)).edits;
            && |v.sessions| == |w.edits.sessions|
            && forall i | 0 <= i < |v.sessions| ::
                 v.sessions[i] == w.edits.sessions[i] ||
                 (w.edits.sessions[i].id == id && v.sessions[i] == w.edits.sessions[i].(epoch := epoch))
  {
    var intent := AskUpload(id, epoch, key, mtime);
    var (f, effects) := Step(w.edits, intent);
    if effects != [] {
      ExecuteOneFailure(Stepped(w, intent), effects[0], answers);
      RequestThenRevert(w.edits, id, epoch, key, mtime);
    }
  }

  lemma RequestThenRevert(e: Edits, id: SessionId, epoch: nat, key: ConnectionKey, mtime: Timestamp)
    requires Inv(e) && RequestUpload(e, id, epoch, key, mtime).1.Check?
    ensures var i, f := Find(e, id).value, RequestUpload(e, id, epoch, key, mtime).0;
            RevertCheck(f, id).sessions == e.sessions[i := e.sessions[i].(epoch := epoch)]
  {
    var i, f := Find(e, id).value, RequestUpload(e, id, epoch, key, mtime).0;
    assert SessionOk(e, e.sessions[i]);
    RequestKeepsInv(e, id, epoch, key, mtime);
    assert f.sessions[i].id == id;
    SameIdSameSession(f, i, Find(f, id).value);
  }
}
