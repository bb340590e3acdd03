/**
 What enters the runtime channel, delivery by delivery: executing sends exactly
 the admitted commands, each once and in order, and a turn sends at most one. So
 every position of the delivery history belongs to exactly one turn.
 */
module EditChannel {
  import opened Common
  import opened EditTypes
  import opened EditSpec
  import opened EditInvariant
  import opened EditWorld

  /** The commands among `effects` that the channel takes, the `n`-th dispatch being the first. */
  function Admitted(effects: seq<Effect>, answers: nat -> bool, n: nat): seq<Delivery> {
    if effects == [] then []
    else match effects[0]
      case Dispatch(_, id, command, _) =>
        (if answers(n) then [Delivery(id, command)] else []) + Admitted(effects[1..], answers, n + 1)
      case _ => Admitted(effects[1..], answers, n)
  }

  lemma {:induction false} AdmittedSkips(quiet: seq<Effect>, rest: seq<Effect>, answers: nat -> bool, n: nat)
    requires Dispatches(quiet) == 0
    ensures Admitted(quiet + rest, answers, n) == Admitted(rest, answers, n)
  {
    if quiet == [] {
      assert quiet + rest == rest;
    } else {
      AdmittedSkips(quiet[1..], rest, answers, n);
      assert (quiet + rest)[1..] == quiet[1..] + rest;
    }
  }

  /** Executing sends exactly the admitted commands, each once, in order; rollbacks add nothing. */
  lemma {:induction false} ExecuteSends(w: World, effects: seq<Effect>, answers: nat -> bool, n: nat)
    ensures Execute(w, effects, answers, n).delivered == w.delivered + Admitted(effects, answers, n)
    decreases Dispatches(effects), |effects|
  {
    if effects != [] {
      var rest := effects[1..];
      match effects[0]
      case Dispatch(_, id, command, rollback) =>
        if answers(n) {
          ExecuteSends(w.(delivered := w.delivered + [Delivery(id, command)]), rest, answers, n + 1);
        } else {
          var (edits, followUp) := DispatchFailed(w.edits, id, rollback);
          FollowUpNeverDispatches(w.edits, id, rollback);
          DispatchesAdd(followUp, rest);
          AdmittedSkips(followUp, rest, answers, n + 1);
          ExecuteSends(w.(edits := edits), followUp + rest, answers, n + 1);
        }
      case DeleteTempDir(path) => ExecuteSends(w.(deleted := w.deleted + [path]), rest, answers, n);
      case _ => ExecuteSends(w, rest, answers, n);
    }
  }

  /** The delivery was asked for by one of the effects. */
  ghost predicate AskedFor(effects: seq<Effect>, d: Delivery) {
    exists effect :: effect in effects && effect.Dispatch? && d == Delivery(effect.sessionId, effect.command)
  }

  lemma {:induction false} AdmittedWereAsked(effects: seq<Effect>, answers: nat -> bool, n: nat)
    ensures |Admitted(effects, answers, n)| <= Dispatches(effects)
    ensures forall d | d in Admitted(effects, answers, n) :: AskedFor(effects, d)
  {
    if effects != [] {
      var next := if effects[0].Dispatch? then n + 1 else n;
      AdmittedWereAsked(effects[1..], answers, next);
      forall d | d in Admitted(effects, answers, n)
        ensures AskedFor(effects, d)
      {
        if d in Admitted(effects[1..], answers, next) {
          AskedForMore(effects, d);
        } else {
          assert effects[0] in effects;
        }
      }
    }
  }

  lemma AskedForMore(effects: seq<Effect>, d: Delivery)
    requires effects != [] && AskedFor(effects[1..], d)
    ensures AskedFor(effects, d)
  {
  }

  // ----- one dispatch per step -----

  lemma {:induction false} NoneDispatched(effects: seq<Effect>)
    requires Dispatches(effects) == 0
    ensures forall effect | effect in effects :: !effect.Dispatch?
  {
    if effects != [] {
      NoneDispatched(effects[1..]);
      assert effects == [effects[0]] + effects[1..];
    }
  }

  lemma {:induction false} CleanUpsDispatchNothing(removed: seq<Session>)
    ensures Dispatches(CleanUps(removed)) == 0
  {
    if removed != [] {
      var front, last := removed[..|removed| - 1], DeleteTempDir(removed[|removed| - 1].tempPath);
      CleanUpsDispatchNothing(front);
      DispatchesAdd(CleanUps(front), [last]);
    }
  }

  lemma DeduplicateDispatchesNothing(e: Edits, pending: PendingEdit, live: TabId -> bool, reaped: seq<Effect>)
    requires Dispatches(reaped) == 0
    ensures Dispatches(Deduplicate(e, pending, live, reaped).1.effects) == 0
  {
    match FirstIndex(e.sessions, BoundTo(pending.key, pending.ioPath))
    case None =>
    case Some(i) =>
      var removed := RemoveForTab(e, e.sessions[i].tabId).1;
      CleanUpsDispatchNothing(removed);
      DispatchesAdd(reaped, CleanUps(removed));
  }

  lemma BeginDispatchesNothing(e: Edits, pending: PendingEdit, live: TabId -> bool)
    ensures Dispatches(Begin(e, pending, live).1.effects) == 0
  {
    match Repointed(e, pending)
    case None => DeduplicateDispatchesNothing(e, pending, live, []);
    case Some(i) =>
      var (reaped, removed) := RemoveForTab(e, e.sessions[i].tabId);
      CleanUpsDispatchNothing(removed);
      DeduplicateDispatchesNothing(reaped, pending, live, CleanUps(removed));
  }

  lemma OpenDispatchesOnce(e: Edits, pending: PendingEdit, live: TabId -> bool)
    ensures Dispatches(Step(e, Open(pending, live)).1) <= 1
  {
    BeginDispatchesNothing(e, pending, live);
    var (f, r) := Begin(e, pending, live);
    if r.Start? {
      DispatchesAdd(r.effects, StartStep(f, r.pending).1);
    }
  }

  lemma ResolveDispatchesOnce(e: Edits, id: SessionId, choice: Choice)
    ensures Dispatches(ResolveConflict(e, id, choice).1) <= 1
  {
    if Find(e, id).Some? {
      var i := Find(e, id).value;
      var started := StartDownload(RemoveAt(e, i), Reopened(e.sessions[i])).1;
      DispatchesAdd([DeleteTempDir(e.sessions[i].tempPath)], StartEffects(e.sessions[i].tabId, started));
    }
  }

  lemma FinishedDispatchesNothing(e: Edits, f: Finished, facts: Option<LocalFacts>)
    ensures Dispatches(OnTransferFinished(e, f, facts).1) == 0
  {
    QuietDispatchesNothing(OnTransferFinished(e, f, facts).1);
  }

  lemma {:induction false} QuietDispatchesNothing(effects: seq<Effect>)
    requires forall i | 0 <= i < |effects| :: !effects[i].Dispatch?
    ensures Dispatches(effects) == 0
  {
    if effects != [] {
      QuietDispatchesNothing(effects[1..]);
    }
  }

  /** No intent asks for more than one command. */
  lemma StepDispatchesOnce(e: Edits, intent: Intent)
    ensures Dispatches(Step(e, intent).1) <= 1
  {
    match intent
    case BeginOnly(pending, live) => BeginDispatchesNothing(e, pending, live);
    case Open(pending, live) => OpenDispatchesOnce(e, pending, live);
    case Resolve(id, choice) => ResolveDispatchesOnce(e, id, choice);
    case TransferEnded(finished, facts) => FinishedDispatchesNothing(e, finished, facts);
    case CloseTab(tab) => CleanUpsDispatchNothing(RemoveForTab(e, tab).1);
    case AskUpload(_, _, _, _) => ShortDispatchesOnce(Step(e, intent).1);
    case CheckReturned(_, _) => ShortDispatchesOnce(Step(e, intent).1);
    case _ =>
  }

  lemma ShortDispatchesOnce(effects: seq<Effect>)
    requires |effects| <= 1
    ensures Dispatches(effects) <= 1
  {
  }

  // ----- which turn sent what -----

  /** What turn `k` of a run sends. */
  ghost function Sent(w: World, turns: seq<Turn>, k: nat): seq<Delivery>
    requires k < |turns|
  {
    SentBy(Run(w, turns[..k]), turns[k])
  }

  ghost function SentBy(w: World, turn: Turn): seq<Delivery> {
    Admitted(Step(w.edits, turn.intent).1, turn.answers, 0)
  }

  lemma PlaySends(w: World, turn: Turn)
    ensures Play(w, turn).delivered == w.delivered + SentBy(w, turn)
    ensures |SentBy(w, turn)| <= 1
    ensures forall d | d in SentBy(w, turn) :: AskedFor(Step(w.edits, turn.intent).1, d)
  {
    var effects := Step(w.edits, turn.intent).1;
    ExecuteSends(Stepped(w, turn.intent), effects, turn.answers, 0);
    AdmittedWereAsked(effects, turn.answers, 0);
    StepDispatchesOnce(w.edits, turn.intent);
  }

  /** The `n`-th delivery of the history is what turn `k` sent. */
  ghost predicate DeliveredAt(w: World, turns: seq<Turn>, k: nat, n: nat)
    requires k < |turns| && n < |Run(w, turns).delivered|
  {
    n == |Run(w, turns[..k]).delivered| && Sent(w, turns, k) == [Run(w, turns).delivered[n]]
  }

  lemma DeliveredInPrefix(w: World, turns: seq<Turn>, k: nat, n: nat)
    requires k < |turns| - 1 && n < |Run(w, turns[..|turns| - 1]).delivered|
    requires DeliveredAt(w, turns[..|turns| - 1], k, n)
    ensures n < |Run(w, turns).delivered| && DeliveredAt(w, turns, k, n)
  {
    var front := turns[..|turns| - 1];
    assert front[..k] == turns[..k];
    PlaySends(Run(w, front), turns[|turns| - 1]);
  }

  lemma LastSends(w: World, turns: seq<Turn>, n: nat)
    requires turns != [] && |Run(w, turns[..|turns| - 1]).delivered| <= n < |Run(w, turns).delivered|
    ensures DeliveredAt(w, turns, |turns| - 1, n)
  {
    PlaySends(Run(w, turns[..|turns| - 1]), turns[|turns| - 1]);
  }

  /** Each delivery of a run was sent by a turn of its own. */
  lemma {:induction false} EveryDeliverySent(w: World, turns: seq<Turn>, n: nat)
    requires |w.delivered| <= n < |Run(w, turns).delivered|
    ensures exists k | 0 <= k < |turns| :: DeliveredAt(w, turns, k, n)
  {
    var last := |turns| - 1;
    if n < |Run(w, turns[..last]).delivered| {
      EveryDeliverySent(w, turns[..last], n);
      var k :| 0 <= k < last && DeliveredAt(w, turns[..last], k, n);
      DeliveredInPrefix(w, turns, k, n);
    } else {
      LastSends(w, turns, n);
    }
  }

  lemma HistoryGrowsOnce(w: World, turns: seq<Turn>, k: nat)
    requires k < |turns|
    ensures |Run(w, turns[..k + 1]).delivered| == |Run(w, turns[..k]).delivered| + |Sent(w, turns, k)|
  {
    RunStep(w, turns, k);
    PlaySends(Run(w, turns[..k]), turns[k]);
  }

  /** The history only grows. */
  lemma {:induction false} HistoryGrows(w: World, turns: seq<Turn>, i: nat, j: nat)
    requires i <= j <= |turns|
    ensures |Run(w, turns[..i]).delivered| <= |Run(w, turns[..j]).delivered|
    decreases j - i
  {
    if i < j {
      HistoryGrowsOnce(w, turns, i);
      HistoryGrows(w, turns, i + 1, j);
    }
  }

  /** Later deliveries come from later turns. */
  lemma DeliveriesInOrder(w: World, turns: seq<Turn>, i: nat, j: nat, m: nat, n: nat)
    requires i < |turns| && j < |turns| && m < n < |Run(w, turns).delivered|
    requires DeliveredAt(w, turns, i, m) && DeliveredAt(w, turns, j, n)
    ensures i < j
  {
    if j <= i {
      HistoryGrows(w, turns, j, i);
    }
  }
}
