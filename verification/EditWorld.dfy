/**
 Whole runs of the lifecycle: every turn applies one intent and executes its
 effects, any dispatch of which may fail. The environment is arbitrary: any
 sequence of intents is a run, so results may be duplicated, late or reordered.
 */
module EditWorld {
  import opened Common
  import opened EditTypes
  import opened EditSpec
  import opened EditInvariant

  datatype Delivery = Delivery(sessionId: SessionId, command: Command)

  /**
   The lifecycle with its history: temp paths issued, temp paths handed out
   for deletion in order, temp paths dropped without either, commands delivered.
   */
  datatype World = World(
    edits: Edits,
    issued: seq<string>,
    deleted: seq<string>,
    lost: set<string>,
    delivered: seq<Delivery>)

  function Fresh(dir: string, runId: string): World {
    World(Edits([], 1, 1, dir, runId), [], [], {}, [])
  }

  function Dispatches(effects: seq<Effect>): nat {
    if effects == [] then 0 else (if effects[0].Dispatch? then 1 else 0) + Dispatches(effects[1..])
  }

  /** A rollback may ask for cleanup, never for another dispatch. */
  lemma FollowUpNeverDispatches(e: Edits, id: SessionId, rollback: Rollback)
    ensures Dispatches(DispatchFailed(e, id, rollback).1) == 0
  {
  }

  lemma {:induction false} DispatchesAdd(a: seq<Effect>, b: seq<Effect>)
    ensures Dispatches(a + b) == Dispatches(a) + Dispatches(b)
  {
    if a == [] {
      assert a + b == b;
    } else {
      DispatchesAdd(a[1..], b);
      assert (a + b)[1..] == a[1..] + b;
    }
  }

  /**
   Execute effects in order; `answers(n)` tells whether the `n`-th dispatch enters
   the channel. A failed dispatch rolls back and its follow-up runs next.
   */
  function Execute(w: World, effects: seq<Effect>, answers: nat -> bool, n: nat): World
    decreases Dispatches(effects), |effects|
  {
    if effects == [] then w
    else
      var rest := effects[1..];
      match effects[0]
      case Dispatch(_, id, command, rollback) =>
        if answers(n) then
          Execute(w.(delivered := w.delivered + [Delivery(id, command)]), rest, answers, n + 1)
        else
          var (edits, followUp) := DispatchFailed(w.edits, id, rollback);
          FollowUpNeverDispatches(w.edits, id, rollback);
          DispatchesAdd(followUp, rest);
          Execute(w.(edits := edits), followUp + rest, answers, n + 1)
      case DeleteTempDir(path) => Execute(w.(deleted := w.deleted + [path]), rest, answers, n)
      case _ => Execute(w, rest, answers, n)
  }

  function Deletions(effects: seq<Effect>): seq<string> {
    if effects == [] then []
    else if effects[0].DeleteTempDir? then [effects[0].path] + Deletions(effects[1..])
    else Deletions(effects[1..])
  }

  ghost function Temps(e: Edits): set<string> {
    set s | s in e.sessions :: s.tempPath
  }

  function SetOf(paths: seq<string>): set<string> {
    set p | p in paths
  }

  /** The temp path of the session a step registered, if it registered one. */
  function Issued(e: Edits, f: Edits): seq<string> {
    if f.nextId > e.nextId && f.sessions != [] then [f.sessions[|f.sessions| - 1].tempPath] else []
  }

  /** Apply the intent: the state moves, and nothing has been executed yet. */
  ghost function Stepped(w: World, intent: Intent): World {
    var (edits, effects) := Step(w.edits, intent);
    var issued := Issued(w.edits, edits);
    w.(edits := edits,
       issued := w.issued + issued,
       lost := w.lost + (Temps(w.edits) + SetOf(issued) - Temps(edits) - SetOf(Deletions(effects))))
  }

  datatype Turn = Turn(intent: Intent, answers: nat -> bool)

  ghost function Play(w: World, turn: Turn): World {
    Execute(Stepped(w, turn.intent), Step(w.edits, turn.intent).1, turn.answers, 0)
  }

  ghost function Run(w: World, turns: seq<Turn>): World {
    if turns == [] then w else Play(Run(w, turns[..|turns| - 1]), turns[|turns| - 1])
  }

  lemma RunStep(w: World, turns: seq<Turn>, k: nat)
    requires k < |turns|
    ensures Run(w, turns[..k + 1]) == Play(Run(w, turns[..k]), turns[k])
  {
    assert turns[..k + 1][..k] == turns[..k];
  }

  lemma {:induction false} ExecuteKeepsInv(w: World, effects: seq<Effect>, answers: nat -> bool, n: nat)
    requires Inv(w.edits)
    ensures Inv(Execute(w, effects, answers, n).edits)
    decreases Dispatches(effects), |effects|
  {
    if effects != [] {
      var rest := effects[1..];
      match effects[0]
      case Dispatch(_, id, command, rollback) =>
        if answers(n) {
          ExecuteKeepsInv(w.(delivered := w.delivered + [Delivery(id, command)]), rest, answers, n + 1);
        } else {
          var (edits, followUp) := DispatchFailed(w.edits, id, rollback);
          DispatchFailedKeepsInv(w.edits, id, rollback);
          FollowUpNeverDispatches(w.edits, id, rollback);
          DispatchesAdd(followUp, rest);
          ExecuteKeepsInv(w.(edits := edits), followUp + rest, answers, n + 1);
        }
      case DeleteTempDir(path) => ExecuteKeepsInv(w.(deleted := w.deleted + [path]), rest, answers, n);
      case _ => ExecuteKeepsInv(w, rest, answers, n);
    }
  }

  /** In every reachable state check fields match the phase and ids are fresh and unshared. */
  lemma {:induction false} RunKeepsInv(w: World, turns: seq<Turn>)
    requires Inv(w.edits)
    ensures Inv(Run(w, turns).edits)
  {
    if turns != [] {
      var front, last := turns[..|turns| - 1], turns[|turns| - 1];
      RunKeepsInv(w, front);
      StepKeepsInv(Run(w, front).edits, last.intent);
      ExecuteKeepsInv(Stepped(Run(w, front), last.intent), Step(Run(w, front).edits, last.intent).1, last.answers, 0);
    }
  }
}
