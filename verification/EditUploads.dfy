/** Who may upload: a live check, once per check id, or an explicit overwrite. */
module EditUploads {
  import opened Common
  import opened EditTypes
  import opened EditSpec
  import opened EditInvariant
  import opened EditWorld
  import opened EditChannel

  predicate IsUpload(effect: Effect) {
    effect.Dispatch? && effect.command.StartTransfer? && effect.command.direction == Direction.Upload
  }

  /** The check that came back is the live one of `s`, nothing moved since, and the remote is unchanged. */
  ghost predicate LiveCheck(e: Edits, s: Session, r: CheckResult, current: Option<Timestamp>) {
    && s in e.sessions && s.id == r.sessionId
    && s.phase.CheckingRemote? && s.pendingCheck == Some(r.checkId)
    && s.tabId == r.tabId && s.epoch == r.epoch && s.ioPath == r.path
    && s.checkingMtime.Some? && current == s.checkingMtime
    && r.outcome == Matched(s.snapshot)
  }

  /** The two reasons for which `intent` may upload from session `s`. */
  ghost predicate MayUpload(e: Edits, intent: Intent, s: Session) {
    match intent
    case CheckReturned(r, current) => LiveCheck(e, s, r, current)
    case Resolve(id, choice) => choice == Overwrite && id == s.id && s.phase.RemoteConflict?
    case _ => false
  }

  ghost predicate Authorized(e: Edits, intent: Intent, effect: Effect)
    requires effect.Dispatch?
  {
    exists s | s in e.sessions ::
      && s.id == effect.sessionId && s.tabId == effect.tabId && UploadsBack(effect.command, s)
      && MayUpload(e, intent, s)
  }

  /** Every upload the lifecycle asks for is authorized. */
  lemma UploadsAreAuthorized(e: Edits, intent: Intent)
    ensures forall effect | effect in Step(e, intent).1 && IsUpload(effect) :: Authorized(e, intent, effect)
  {
    match intent
    case BeginOnly(pending, live) =>
      BeginDispatchesNothing(e, pending, live);
      NoneDispatched(Begin(e, pending, live).1.effects);
    case Open(pending, live) =>
      BeginDispatchesNothing(e, pending, live);
      NoneDispatched(Begin(e, pending, live).1.effects);
    case CloseTab(tab) =>
      CleanUpsDispatchNothing(RemoveForTab(e, tab).1);
      NoneDispatched(CleanUps(RemoveForTab(e, tab).1));
    case _ =>
  }

  /** And the other way round: a live check that finds the remote unchanged does upload. */
  lemma LiveCheckUploads(e: Edits, s: Session, r: CheckResult, current: Option<Timestamp>)
    requires Inv(e) && LiveCheck(e, s, r, current)
    ensures var effects := OnCheckResult(e, r, current).1;
            && |effects| == 1 && effects[0].Dispatch?
            && effects[0].tabId == s.tabId && effects[0].sessionId == s.id && UploadsBack(effects[0].command, s)
  {
  }

  // ----- over whole runs, what reaches the channel -----

  /** `intent`, arriving in `e`, entitles a session to this very upload. */
  ghost predicate Justifies(e: Edits, intent: Intent, d: Delivery) {
    exists s | s in e.sessions :: s.id == d.sessionId && UploadsBack(d.command, s) && MayUpload(e, intent, s)
  }

  predicate IsUploadCommand(command: Command) {
    command.StartTransfer? && command.direction == Direction.Upload
  }

  /** Whatever upload a turn sends, its own intent entitles the session to it. */
  lemma TurnUploadsJustified(w: World, turn: Turn, d: Delivery)
    requires d in SentBy(w, turn) && IsUploadCommand(d.command)
    ensures Justifies(w.edits, turn.intent, d)
  {
    PlaySends(w, turn);
    var effects := Step(w.edits, turn.intent).1;
    UploadsAreAuthorized(w.edits, turn.intent);
    var effect :| effect in effects && effect.Dispatch? && d == Delivery(effect.sessionId, effect.command);
    assert IsUpload(effect) && Authorized(w.edits, turn.intent, effect);
  }

  /**
   Over every run, every upload in the channel, equal ones counted apart, was sent
   by a turn of its own whose intent was the live check of that session, or its
   explicit overwrite.
   */
  lemma RunUploadsJustified(w: World, turns: seq<Turn>, n: nat)
    requires |w.delivered| <= n < |Run(w, turns).delivered| && IsUploadCommand(Run(w, turns).delivered[n].command)
    ensures exists k | 0 <= k < |turns| ::
              DeliveredAt(w, turns, k, n)
              && Justifies(Run(w, turns[..k]).edits, turns[k].intent, Run(w, turns).delivered[n])
  {
    EveryDeliverySent(w, turns, n);
    var k :| 0 <= k < |turns| && DeliveredAt(w, turns, k, n);
    TurnUploadsJustified(Run(w, turns[..k]), turns[k], Run(w, turns).delivered[n]);
  }

  // ----- one upload per check id -----

  /** No session waits for check `c`, and none ever will. */
  ghost predicate Spent(e: Edits, c: CheckId) {
    c < e.nextCheckId && forall s | s in e.sessions :: s.pendingCheck != Some(c)
  }

  /** `f` waits for no check that `e` did not wait for, fresh ones aside. */
  ghost predicate NoOldCheckReturns(e: Edits, f: Edits) {
    && e.nextCheckId <= f.nextCheckId
    && forall s | s in f.sessions && s.pendingCheck.Some? ::
         s.pendingCheck.value >= e.nextCheckId || exists t | t in e.sessions :: t.pendingCheck == s.pendingCheck
  }

  lemma SpentStays(e: Edits, f: Edits, c: CheckId)
    requires Spent(e, c) && NoOldCheckReturns(e, f)
    ensures Spent(f, c)
  {
  }

  lemma PutChecks(e: Edits, i: nat, s: Session)
    requires i < |e.sessions|
    requires s.pendingCheck.Some? ==> s.pendingCheck == e.sessions[i].pendingCheck
    ensures NoOldCheckReturns(e, Put(e, i, s))
  {
  }

  lemma StepChecks(e: Edits, intent: Intent)
    ensures NoOldCheckReturns(e, Step(e, intent).0)
  {
    match intent
    case BeginOnly(pending, live) => BeginChecks(e, pending, live);
    case StartOnly(pending) => StartChecks(e, e, pending);
    case Open(pending, live) => OpenChecks(e, pending, live);
    case Abort(id) => DispatchFailedChecks(e, id, AbortDownloadRollback);
    case AskUpload(id, epoch, key, mtime) => RequestChecks(e, id, epoch, key, mtime);
    case Revert(id) => DispatchFailedChecks(e, id, RevertCheckRollback);
    case CheckReturned(r, current) => ResultChecks(e, r, current);
    case TransferEnded(finished, facts) => FinishedChecks(e, finished, facts);
    case Resolve(id, choice) => ResolveChecks(e, id, choice);
    case LocalChange(id, path, facts) => ModifiedChecks(e, id, path, facts);
    case ListingLoaded(tab, listing) => InPlaceChecks(e, AdoptListing(e, tab, listing));
    case Reconnect(tab, epoch) => InPlaceChecks(e, UpdateEpoch(e, tab, epoch));
    case CloseTab(tab) => FewerChecks(e, RemoveForTab(e, tab).0);
  }

  lemma OpenChecks(e: Edits, pending: PendingEdit, live: TabId -> bool)
    ensures NoOldCheckReturns(e, Step(e, Open(pending, live)).0)
  {
    BeginChecks(e, pending, live);
    BeginEchoes(e, pending, live);
    StartChecks(e, Begin(e, pending, live).0, pending);
  }

  lemma ModifiedChecks(e: Edits, id: SessionId, path: string, facts: Option<LocalFacts>)
    ensures NoOldCheckReturns(e, RecordLocalModified(e, id, path, facts).0)
  {
    var f := RecordLocalModified(e, id, path, facts).0;
    if f != e {
      PutChecks(e, Find(e, id).value, f.sessions[Find(e, id).value]);
    }
  }

  lemma InPlaceChecks(e: Edits, f: Edits)
    requires |f.sessions| == |e.sessions| && f.nextCheckId == e.nextCheckId
    requires forall i | 0 <= i < |e.sessions| ::
               f.sessions[i].pendingCheck.Some? ==> f.sessions[i].pendingCheck == e.sessions[i].pendingCheck
    ensures NoOldCheckReturns(e, f)
  {
  }

  lemma BeginChecks(e: Edits, pending: PendingEdit, live: TabId -> bool)
    ensures forall s | s in Begin(e, pending, live).0.sessions :: s in e.sessions
    ensures NoOldCheckReturns(e, Begin(e, pending, live).0)
  {
  }

  lemma StartChecks(e: Edits, b: Edits, pending: PendingEdit)
    requires NoOldCheckReturns(e, b)
    ensures NoOldCheckReturns(e, StartDownload(b, pending).0)
  {
  }

  lemma RequestChecks(e: Edits, id: SessionId, epoch: nat, key: ConnectionKey, mtime: Timestamp)
    ensures NoOldCheckReturns(e, RequestUpload(e, id, epoch, key, mtime).0)
  {
  }

  lemma ResultChecks(e: Edits, r: CheckResult, current: Option<Timestamp>)
    ensures NoOldCheckReturns(e, OnCheckResult(e, r, current).0)
  {
  }

  /** Every session that waits for a check was there before. */
  lemma FewerChecks(e: Edits, f: Edits)
    requires e.nextCheckId <= f.nextCheckId
    requires forall s | s in f.sessions && s.pendingCheck.Some? :: s in e.sessions
    ensures NoOldCheckReturns(e, f)
  {
  }

  lemma FinishedChecks(e: Edits, f: Finished, facts: Option<LocalFacts>)
    ensures NoOldCheckReturns(e, OnTransferFinished(e, f, facts).0)
  {
  }

  lemma ResolveChecks(e: Edits, id: SessionId, choice: Choice)
    ensures NoOldCheckReturns(e, ResolveConflict(e, id, choice).0)
  {
  }

  lemma DispatchFailedChecks(e: Edits, id: SessionId, rollback: Rollback)
    ensures NoOldCheckReturns(e, DispatchFailed(e, id, rollback).0)
  {
  }

  lemma {:induction false} ExecuteKeepsSpent(w: World, effects: seq<Effect>, answers: nat -> bool, n: nat, c: CheckId)
    requires Spent(w.edits, c)
    ensures Spent(Execute(w, effects, answers, n).edits, c)
    decreases Dispatches(effects), |effects|
  {
    if effects != [] {
      var rest := effects[1..];
      match effects[0]
      case Dispatch(_, id, command, rollback) =>
        if answers(n) {
          ExecuteKeepsSpent(w.(delivered := w.delivered + [Delivery(id, command)]), rest, answers, n + 1, c);
        } else {
          var (edits, followUp) := DispatchFailed(w.edits, id, rollback);
          DispatchFailedChecks(w.edits, id, rollback);
          SpentStays(w.edits, edits, c);
          FollowUpNeverDispatches(w.edits, id, rollback);
          DispatchesAdd(followUp, rest);
          ExecuteKeepsSpent(w.(edits := edits), followUp + rest, answers, n + 1, c);
        }
      case DeleteTempDir(path) => ExecuteKeepsSpent(w.(deleted := w.deleted + [path]), rest, answers, n, c);
      case _ => ExecuteKeepsSpent(w, rest, answers, n, c);
    }
  }

  lemma PlayKeepsSpent(w: World, turn: Turn, c: CheckId)
    requires Spent(w.edits, c)
    ensures Spent(Play(w, turn).edits, c)
  {
    StepChecks(w.edits, turn.intent);
    SpentStays(w.edits, Step(w.edits, turn.intent).0, c);
    ExecuteKeepsSpent(Stepped(w, turn.intent), Step(w.edits, turn.intent).1, turn.answers, 0, c);
  }

  lemma NextKeepsSpent(w: World, turns: seq<Turn>, k: nat, c: CheckId)
    requires k < |turns| && Spent(Run(w, turns[..k]).edits, c)
    ensures Spent(Run(w, turns[..k + 1]).edits, c)
  {
    RunStep(w, turns, k);
    PlayKeepsSpent(Run(w, turns[..k]), turns[k], c);
  }

  lemma {:induction false} RunKeepsSpent(w: World, turns: seq<Turn>, i: nat, j: nat, c: CheckId)
    requires i <= j <= |turns| && Spent(Run(w, turns[..i]).edits, c)
    ensures Spent(Run(w, turns[..j]).edits, c)
    decreases j - i
  {
    if i < j {
      NextKeepsSpent(w, turns, i, c);
      RunKeepsSpent(w, turns, i + 1, j, c);
    }
  }

  /** The result of check `c` makes the lifecycle ask for an upload. */
  ghost predicate CheckUploads(e: Edits, intent: Intent, c: CheckId) {
    && intent.CheckReturned? && intent.result.checkId == c
    && exists effect :: effect in Step(e, intent).1 && IsUpload(effect)
  }

  lemma UploadSpends(e: Edits, intent: Intent, c: CheckId)
    requires Inv(e) && CheckUploads(e, intent, c)
    ensures Spent(Step(e, intent).0, c)
  {
    var i := Find(e, intent.result.sessionId).value;
    var f := Step(e, intent).0;
    assert SessionOk(e, e.sessions[i]);
    forall s | s in f.sessions
      ensures s.pendingCheck != Some(c)
    {
      var j :| 0 <= j < |f.sessions| && f.sessions[j] == s;
      assert i < j ==> Apart(e.sessions[i], e.sessions[j]);
      assert j < i ==> Apart(e.sessions[j], e.sessions[i]);
    }
  }

  /** Over every run, whatever the environment returns, a check id authorizes at most one upload. */
  lemma OneUploadPerCheck(w: World, turns: seq<Turn>, i: nat, j: nat, c: CheckId)
    requires Inv(w.edits) && i < j < |turns|
    requires CheckUploads(Run(w, turns[..i]).edits, turns[i].intent, c)
    ensures !CheckUploads(Run(w, turns[..j]).edits, turns[j].intent, c)
  {
    var v := Run(w, turns[..i]);
    RunKeepsInv(w, turns[..i]);
    RunStep(w, turns, i);
    UploadSpends(v.edits, turns[i].intent, c);
    ExecuteKeepsSpent(Stepped(v, turns[i].intent), Step(v.edits, turns[i].intent).1, turns[i].answers, 0, c);
    RunKeepsSpent(w, turns, i + 1, j, c);
    SpentNeverUploads(Run(w, turns[..j]).edits, turns[j].intent, c);
  }

  lemma SpentNeverUploads(e: Edits, intent: Intent, c: CheckId)
    requires Spent(e, c)
    ensures !CheckUploads(e, intent, c)
  {
  }

  /** The `n`-th delivery is an upload that the result of check `c` brought about. */
  ghost predicate CheckDelivered(w: World, turns: seq<Turn>, n: nat, c: CheckId)
    requires n < |Run(w, turns).delivered|
  {
    && IsUploadCommand(Run(w, turns).delivered[n].command)
    && exists k | 0 <= k < |turns| ::
         DeliveredAt(w, turns, k, n) && turns[k].intent.CheckReturned? && turns[k].intent.result.checkId == c
  }

  lemma DeliveredWasAsked(w: World, turn: Turn, d: Delivery, c: CheckId)
    requires SentBy(w, turn) == [d] && IsUploadCommand(d.command)
    requires turn.intent.CheckReturned? && turn.intent.result.checkId == c
    ensures CheckUploads(w.edits, turn.intent, c)
  {
    PlaySends(w, turn);
    var effects := Step(w.edits, turn.intent).1;
    assert d in SentBy(w, turn);
    var effect :| effect in effects && effect.Dispatch? && d == Delivery(effect.sessionId, effect.command);
    assert IsUpload(effect);
  }

  /** And so a check id brings about at most one delivery of an upload. */
  lemma OneDeliveryPerCheck(w: World, turns: seq<Turn>, m: nat, n: nat, c: CheckId)
    requires Inv(w.edits) && m < n < |Run(w, turns).delivered|
    requires CheckDelivered(w, turns, m, c)
    ensures !CheckDelivered(w, turns, n, c)
  {
    if CheckDelivered(w, turns, n, c) {
      var i :| 0 <= i < |turns| && DeliveredAt(w, turns, i, m)
               && turns[i].intent.CheckReturned? && turns[i].intent.result.checkId == c;
      var j :| 0 <= j < |turns| && DeliveredAt(w, turns, j, n)
               && turns[j].intent.CheckReturned? && turns[j].intent.result.checkId == c;
      DeliveriesInOrder(w, turns, i, j, m, n);
      DeliveredWasAsked(Run(w, turns[..i]), turns[i], Run(w, turns).delivered[m], c);
      DeliveredWasAsked(Run(w, turns[..j]), turns[j], Run(w, turns).delivered[n], c);
      OneUploadPerCheck(w, turns, i, j, c);
    }
  }
}
