/**
 The edit-watcher debouncer: a notify callback, a worker thread and `Drop` share a
 pending map under one lock and a condition variable. Each critical section is
 one atomic step; emissions happen outside the lock; time never runs backwards.

 `Next` is every step any thread can take, spurious wake-ups included, and what is
 proved holds in every interleaving.
 */
module Debounce {
  import opened Common

  type SessionId = nat

  /** A pending save; `stamp` numbers the saves in the order they arrived. */
  datatype Entry = Entry(path: string, deadline: nat, stamp: nat)

  datatype Due = Due(id: SessionId, entry: Entry)

  /**
   Where the worker is: at the top of its loop; between the two critical
   sections, with what it still has to emit, the wait it decided on, and the
   generation and time it saw; waiting; or gone. `lag` is how long it emitted.
   */
  datatype Worker =
    | AtTop
    | Emitting(due: seq<Due>, wait: Option<nat>, observed: nat, collectedAt: nat)
    | Waiting(notified: bool)
    | WaitingUntil(until: nat, lag: int, notified: bool)
    | Exited

  datatype Save = Save(id: SessionId, path: string, at: nat)

  datatype Emission = Emission(id: SessionId, path: string, stamp: nat, at: nat)

  datatype State = State(
    pending: map<SessionId, Entry>,
    stopped: bool,
    generation: nat,
    worker: Worker,
    now: nat,
    debounce: nat,
    saves: seq<Save>,
    emitted: seq<Emission>)

  // ----- the steps -----

  /** Notifying reaches the worker only if it is waiting at that moment. */
  function Notified(worker: Worker): Worker {
    match worker
    case Waiting(_) => Waiting(true)
    case WaitingUntil(until, lag, _) => WaitingUntil(until, lag, true)
    case _ => worker
  }

  function SaveStep(s: State, id: SessionId, path: string): State {
    s.(pending := s.pending[id := Entry(path, s.now + s.debounce, |s.saves|)],
       generation := s.generation + 1,
       worker := Notified(s.worker),
       saves := s.saves + [Save(id, path, s.now)])
  }

  function DropStep(s: State): State {
    s.(stopped := true, worker := Notified(s.worker))
  }

  function ReadyIds(pending: map<SessionId, Entry>, now: nat): set<SessionId> {
    set id | id in pending && pending[id].deadline <= now
  }

  /** The ready entries, each once, in whatever order the hash map yields them. */
  ghost predicate IsReadyList(pending: map<SessionId, Entry>, now: nat, due: seq<Due>) {
    && (forall k | 0 <= k < |due| :: due[k].id in ReadyIds(pending, now) && due[k].entry == pending[due[k].id])
    && (forall id | id in ReadyIds(pending, now) :: exists k :: 0 <= k < |due| && due[k].id == id)
    && (forall j, k | 0 <= j < k < |due| :: due[j].id != due[k].id)
  }

  /** The wait the worker decides on: none, up to the earliest deadline, or 10 ms if that has passed. */
  ghost predicate IsWait(pending: map<SessionId, Entry>, now: nat, wait: Option<nat>) {
    match wait
    case None => pending == map[]
    case Some(time) =>
      exists first | first in pending ::
        && (forall id | id in pending :: pending[first].deadline <= pending[id].deadline)
        && time == if pending[first].deadline > now then pending[first].deadline - now else 10
  }

  ghost predicate CollectNext(s: State, t: State) {
    && s.worker.AtTop?
    && if s.stopped then t == s.(worker := Exited)
       else
         && t.worker.Emitting?
         && IsReadyList(s.pending, s.now, t.worker.due)
         && t.pending == s.pending - ReadyIds(s.pending, s.now)
         && IsWait(t.pending, s.now, t.worker.wait)
         && t == s.(pending := t.pending, worker := Emitting(t.worker.due, t.worker.wait, s.generation, s.now))
  }

  ghost predicate EmitNext(s: State, t: State) {
    && s.worker.Emitting? && s.worker.due != []
    && var d := s.worker.due[0];
       t == s.(worker := s.worker.(due := s.worker.due[1..]),
               emitted := s.emitted + [Emission(d.id, d.entry.path, d.entry.stamp, s.now)])
  }

  ghost predicate DecideNext(s: State, t: State) {
    && s.worker.Emitting? && s.worker.due == []
    && t == s.(worker :=
                 if s.stopped then Exited
                 else if s.generation != s.worker.observed then AtTop
                 else match s.worker.wait
                   case None => Waiting(false)
                   case Some(time) => WaitingUntil(s.now + time, s.now - s.worker.collectedAt, false))
  }

  ghost predicate WakeNext(s: State, t: State) {
    (s.worker.Waiting? || s.worker.WaitingUntil?) && t == s.(worker := AtTop)
  }

  ghost predicate WorkerNext(s: State, t: State) {
    CollectNext(s, t) || EmitNext(s, t) || DecideNext(s, t) || WakeNext(s, t)
  }

  ghost predicate Next(s: State, t: State) {
    || (exists id, path :: t == SaveStep(s, id, path))
    || t == DropStep(s)
    || (t == s.(now := t.now) && s.now <= t.now)
    || WorkerNext(s, t)
  }

  ghost predicate Init(s: State) {
    && s.pending == map[] && !s.stopped && s.generation == 0 && s.worker == AtTop
    && s.saves == [] && s.emitted == []
  }

  // ----- the invariant -----

  /** The entry is the save it is stamped with, and due one debounce after it. */
  ghost predicate Stamped(s: State, id: SessionId, e: Entry) {
    && e.stamp < |s.saves|
    && s.saves[e.stamp].id == id && s.saves[e.stamp].path == e.path
    && e.deadline == s.saves[e.stamp].at + s.debounce
  }

  /** No save of `id` follows save `k` before time `until`. */
  ghost predicate QuietAfter(s: State, id: SessionId, k: nat, until: nat) {
    forall j | k < j < |s.saves| && s.saves[j].id == id :: s.saves[j].at >= until
  }

  /** A pending entry is the latest save of its session. */
  ghost predicate PendingOk(s: State) {
    forall id | id in s.pending ::
      Stamped(s, id, s.pending[id]) && forall j | s.pending[id].stamp < j < |s.saves| :: s.saves[j].id != id
  }

  /** What is about to be emitted was due when it was collected, with no save in between. */
  ghost predicate DueOk(s: State, d: Due, collectedAt: nat) {
    && Stamped(s, d.id, d.entry)
    && d.entry.deadline <= collectedAt
    && QuietAfter(s, d.id, d.entry.stamp, collectedAt)
  }

  ghost predicate EmissionOk(s: State, e: Emission) {
    && e.stamp < |s.saves|
    && s.saves[e.stamp].id == e.id && s.saves[e.stamp].path == e.path
    && s.saves[e.stamp].at + s.debounce <= e.at <= s.now
    && QuietAfter(s, e.id, e.stamp, s.saves[e.stamp].at + s.debounce)
  }

  /** `time` is the earliest deadline in the map. */
  ghost predicate Earliest(pending: map<SessionId, Entry>, time: int) {
    && (exists id :: id in pending && pending[id].deadline == time)
    && forall id | id in pending :: time <= pending[id].deadline
  }

  ghost predicate WorkerOk(s: State) {
    match s.worker
    case AtTop => true
    case Exited => s.stopped
    case Emitting(due, wait, observed, collectedAt) =>
      && collectedAt <= s.now && observed <= s.generation
      && (forall k | 0 <= k < |due| :: DueOk(s, due[k], collectedAt))
      && (forall j, k | 0 <= j < k < |due| :: due[j].entry.stamp != due[k].entry.stamp)
      && (observed == s.generation ==>
            match wait
            case None => s.pending == map[]
            case Some(time) => Earliest(s.pending, collectedAt + time))
    case Waiting(notified) => !notified ==> s.pending == map[] && !s.stopped
    case WaitingUntil(until, lag, notified) => !notified ==> !s.stopped && Earliest(s.pending, until - lag)
  }

  /** No save is both pending and collected, or emitted twice. */
  ghost predicate StampsOnce(s: State) {
    && (forall e | e in s.emitted :: StampFree(s, e.stamp))
    && (forall i, j | 0 <= i < j < |s.emitted| :: s.emitted[i].stamp != s.emitted[j].stamp)
    && (s.worker.Emitting? ==>
          forall k | 0 <= k < |s.worker.due| ::
            forall id | id in s.pending :: s.pending[id].stamp != s.worker.due[k].entry.stamp)
  }

  /** Nothing pending or collected carries this stamp. */
  ghost predicate StampFree(s: State, stamp: nat) {
    && (forall id | id in s.pending :: s.pending[id].stamp != stamp)
    && (s.worker.Emitting? ==> forall k | 0 <= k < |s.worker.due| :: s.worker.due[k].entry.stamp != stamp)
  }

  /** Save `i`, or a later one of the same session, is pending, being emitted, or emitted. */
  ghost predicate Covered(s: State, i: nat)
    requires i < |s.saves|
  {
    var id := s.saves[i].id;
    || (id in s.pending && s.pending[id].stamp >= i)
    || (s.worker.Emitting?
        && exists k :: 0 <= k < |s.worker.due| && s.worker.due[k].id == id && s.worker.due[k].entry.stamp >= i)
    || (exists k :: 0 <= k < |s.emitted| && s.emitted[k].id == id && s.emitted[k].stamp >= i)
  }

  ghost predicate Inv(s: State) {
    && (forall i | 0 <= i < |s.saves| :: s.saves[i].at <= s.now)
    && PendingOk(s)
    && WorkerOk(s)
    && (forall e | e in s.emitted :: EmissionOk(s, e))
    && StampsOnce(s)
    && (forall i | 0 <= i < |s.saves| :: Covered(s, i))
  }

  lemma InitInv(s: State)
    requires Init(s)
    ensures Inv(s)
  {
  }

  // ----- every step keeps it -----

  lemma SaveKeepsWorker(s: State, id: SessionId, path: string)
    requires Inv(s)
    ensures PendingOk(SaveStep(s, id, path)) && WorkerOk(SaveStep(s, id, path))
  {
    var t := SaveStep(s, id, path);
    assert forall i | 0 <= i < |s.saves| :: t.saves[i] == s.saves[i];
    if s.worker.Emitting? {
      forall k | 0 <= k < |s.worker.due|
        ensures DueOk(t, s.worker.due[k], s.worker.collectedAt)
      {
        assert DueOk(s, s.worker.due[k], s.worker.collectedAt);
      }
    }
  }

  lemma SaveKeepsEmissions(s: State, id: SessionId, path: string)
    requires Inv(s)
    ensures var t := SaveStep(s, id, path);
            (forall e | e in t.emitted :: EmissionOk(t, e)) && StampsOnce(t)
  {
  }

  lemma SaveKeepsCover(s: State, id: SessionId, path: string)
    requires Inv(s)
    ensures var t := SaveStep(s, id, path);
            forall i | 0 <= i < |t.saves| :: Covered(t, i)
  {
    var t := SaveStep(s, id, path);
    forall i | 0 <= i < |t.saves|
      ensures Covered(t, i)
    {
      if i < |s.saves| {
        assert t.saves[i] == s.saves[i] && Covered(s, i);
      }
    }
  }

  lemma DropKeepsInv(s: State)
    requires Inv(s)
    ensures Inv(DropStep(s))
  {
    var t := DropStep(s);
    forall e | e in t.emitted
      ensures EmissionOk(t, e) && StampFree(t, e.stamp)
    {
      assert EmissionOk(s, e) && StampFree(s, e.stamp);
    }
    if s.worker.Emitting? {
      forall k | 0 <= k < |s.worker.due|
        ensures DueOk(t, s.worker.due[k], s.worker.collectedAt)
      {
        assert DueOk(s, s.worker.due[k], s.worker.collectedAt);
      }
    }
    forall i | 0 <= i < |t.saves|
      ensures Covered(t, i)
    {
      assert Covered(s, i);
    }
  }

  lemma TickKeepsInv(s: State, t: State)
    requires Inv(s) && t == s.(now := t.now) && s.now <= t.now
    ensures Inv(t)
  {
    forall e | e in t.emitted
      ensures EmissionOk(t, e) && StampFree(t, e.stamp)
    {
      assert EmissionOk(s, e) && StampFree(s, e.stamp);
    }
    if s.worker.Emitting? {
      forall k | 0 <= k < |s.worker.due|
        ensures DueOk(t, s.worker.due[k], s.worker.collectedAt)
      {
        assert DueOk(s, s.worker.due[k], s.worker.collectedAt);
      }
    }
    forall i | 0 <= i < |t.saves|
      ensures Covered(t, i)
    {
      assert Covered(s, i);
    }
  }

  lemma CollectFacts(s: State, t: State)
    requires Inv(s) && CollectNext(s, t) && !s.stopped
    ensures PendingOk(t) && WorkerOk(t) && (forall e | e in t.emitted :: EmissionOk(t, e)) && StampsOnce(t)
  {
    var due := t.worker.due;
    forall k | 0 <= k < |due|
      ensures DueOk(t, due[k], s.now)
    {
      assert Stamped(s, due[k].id, s.pending[due[k].id]);
    }
    forall j, k | 0 <= j < k < |due|
      ensures due[j].entry.stamp != due[k].entry.stamp
    {
      assert Stamped(s, due[j].id, due[j].entry) && Stamped(s, due[k].id, due[k].entry);
    }
    forall k, id | 0 <= k < |due| && id in t.pending
      ensures t.pending[id].stamp != due[k].entry.stamp
    {
      assert Stamped(s, id, s.pending[id]) && Stamped(s, due[k].id, due[k].entry);
    }
    forall e | e in t.emitted
      ensures EmissionOk(t, e) && StampFree(t, e.stamp)
    {
      assert EmissionOk(s, e) && StampFree(s, e.stamp);
      assert forall k | 0 <= k < |due| :: s.pending[due[k].id].stamp != e.stamp;
    }
  }

  lemma CollectCover(s: State, t: State)
    requires Inv(s) && CollectNext(s, t) && !s.stopped
    ensures forall i | 0 <= i < |t.saves| :: Covered(t, i)
  {
    forall i | 0 <= i < |t.saves|
      ensures Covered(t, i)
    {
      assert Covered(s, i);
      var id := s.saves[i].id;
      if id in ReadyIds(s.pending, s.now) && s.pending[id].stamp >= i {
        var k :| 0 <= k < |t.worker.due| && t.worker.due[k].id == id;
        assert t.worker.due[k].entry == s.pending[id];
      }
    }
  }

  /** Steps that leave the map, the saves and the emissions alone, and have nothing left to emit. */
  lemma MovedKeepsInv(s: State, t: State)
    requires Inv(s) && t == s.(worker := t.worker) && WorkerOk(t)
    requires !t.worker.Emitting? && (s.worker.Emitting? ==> s.worker.due == [])
    ensures Inv(t)
  {
    forall e | e in t.emitted
      ensures EmissionOk(t, e) && StampFree(t, e.stamp)
    {
      assert EmissionOk(s, e) && StampFree(s, e.stamp);
    }
    forall i | 0 <= i < |t.saves|
      ensures Covered(t, i)
    {
      assert Covered(s, i);
    }
  }

  lemma CollectKeepsInv(s: State, t: State)
    requires Inv(s) && CollectNext(s, t)
    ensures Inv(t)
  {
    if s.stopped {
      MovedKeepsInv(s, t);
    } else {
      CollectFacts(s, t);
      CollectCover(s, t);
    }
  }

  lemma EmitFacts(s: State, t: State)
    requires Inv(s) && EmitNext(s, t)
    ensures PendingOk(t) && WorkerOk(t) && (forall e | e in t.emitted :: EmissionOk(t, e)) && StampsOnce(t)
  {
    var due, new1 := s.worker.due, t.emitted[|s.emitted|];
    assert DueOk(s, due[0], s.worker.collectedAt);
    assert forall k | 0 <= k < |t.worker.due| :: t.worker.due[k] == due[k + 1];
    forall k | 0 <= k < |t.worker.due|
      ensures DueOk(t, t.worker.due[k], s.worker.collectedAt)
    {
      assert DueOk(s, due[k + 1], s.worker.collectedAt);
    }
    assert EmissionOk(t, new1) && StampFree(t, new1.stamp);
    forall e | e in s.emitted
      ensures EmissionOk(t, e) && StampFree(t, e.stamp) && e.stamp != new1.stamp
    {
      assert EmissionOk(s, e) && StampFree(s, e.stamp);
    }
    assert forall e :: e in t.emitted <==> e in s.emitted || e == new1;
  }

  lemma EmitCover(s: State, t: State)
    requires Inv(s) && EmitNext(s, t)
    ensures forall i | 0 <= i < |t.saves| :: Covered(t, i)
  {
    forall i | 0 <= i < |t.saves|
      ensures Covered(t, i)
    {
      assert Covered(s, i);
      var id := s.saves[i].id;
      if k :| 0 <= k < |s.worker.due| && s.worker.due[k].id == id && s.worker.due[k].entry.stamp >= i {
        if k == 0 {
          assert t.emitted[|s.emitted|].id == id;
        } else {
          assert t.worker.due[k - 1] == s.worker.due[k];
        }
      }
      if k :| 0 <= k < |s.emitted| && s.emitted[k].id == id && s.emitted[k].stamp >= i {
        assert t.emitted[k] == s.emitted[k];
      }
    }
  }

  lemma NextKeepsInv(s: State, t: State)
    requires Inv(s) && Next(s, t)
    ensures Inv(t)
  {
    if id, path :| t == SaveStep(s, id, path) {
      SaveKeepsWorker(s, id, path);
      SaveKeepsEmissions(s, id, path);
      SaveKeepsCover(s, id, path);
    } else if t == DropStep(s) {
      DropKeepsInv(s);
    } else if t == s.(now := t.now) && s.now <= t.now {
      TickKeepsInv(s, t);
    } else if CollectNext(s, t) {
      CollectKeepsInv(s, t);
    } else if EmitNext(s, t) {
      EmitFacts(s, t);
      EmitCover(s, t);
    } else {
      MovedKeepsInv(s, t);
    }
  }

  // ----- whole runs -----

  ghost predicate Run(states: seq<State>) {
    && states != [] && Init(states[0])
    && forall i | 0 <= i < |states| - 1 :: Next(states[i], states[i + 1])
  }

  lemma {:induction false} RunKeepsInv(states: seq<State>, i: nat)
    requires Run(states) && i < |states|
    ensures Inv(states[i])
    decreases i
  {
    if i == 0 {
      InitInv(states[0]);
    } else {
      RunKeepsInv(states, i - 1);
      assert Next(states[i - 1], states[i - 1 + 1]);
      NextKeepsInv(states[i - 1], states[i]);
    }
  }

  /** No lost wake-up: an un-notified worker without a timeout has nothing to do. */
  lemma NoLostWakeup(states: seq<State>, i: nat)
    requires Run(states) && i < |states|
    ensures states[i].worker == Waiting(false) ==> states[i].pending == map[] && !states[i].stopped
    ensures states[i].worker.WaitingUntil? && !states[i].worker.notified ==>
              && !states[i].stopped
              && Earliest(states[i].pending, states[i].worker.until - states[i].worker.lag)
  {
    RunKeepsInv(states, i);
  }

  /** No save is lost: it, or a later one of its session, is pending, being emitted, or emitted. */
  lemma EverySaveCovered(states: seq<State>, i: nat, n: nat)
    requires Run(states) && i < |states| && n < |states[i].saves|
    ensures Covered(states[i], n)
  {
    RunKeepsInv(states, i);
  }

  /**
   An emission reports a real save, not before its debounce has passed, never
   twice, and only if its session stayed quiet for the whole debounce.
   */
  lemma EmissionsAreDebounced(states: seq<State>, i: nat, k: nat)
    requires Run(states) && i < |states| && k < |states[i].emitted|
    ensures var s, e := states[i], states[i].emitted[k];
            && e.stamp < |s.saves| && s.saves[e.stamp].id == e.id && s.saves[e.stamp].path == e.path
            && s.saves[e.stamp].at + s.debounce <= e.at
            && (forall j | e.stamp < j < |s.saves| && s.saves[j].id == e.id ::
                  s.saves[j].at >= s.saves[e.stamp].at + s.debounce)
            && (forall m | 0 <= m < |s.emitted| && m != k :: s.emitted[m].stamp != e.stamp)
  {
    RunKeepsInv(states, i);
    assert EmissionOk(states[i], states[i].emitted[k]);
  }

  // ----- what the worker's two critical sections do -----

  /**
   Collecting takes exactly what is due, each session once, and leaves exactly what
   is not; a stopped worker collects nothing and is gone.
   */
  lemma CollectTakesDue(s: State, t: State)
    requires CollectNext(s, t)
    ensures s.stopped ==> t.worker.Exited? && t.pending == s.pending
    ensures !s.stopped ==>
              && t.worker.Emitting?
              && (forall id :: id in t.pending <==> id in s.pending && s.pending[id].deadline > s.now)
              && (forall id | id in t.pending :: t.pending[id] == s.pending[id])
              && (forall id | id in s.pending && s.pending[id].deadline <= s.now ::
                    Due(id, s.pending[id]) in t.worker.due)
              && (forall d | d in t.worker.due :: d.id in s.pending && d.entry == s.pending[d.id]
                                                  && d.entry.deadline <= s.now)
  {
  }

  /**
   Having emitted, a stopped worker is gone, and one that missed a save starts over.
   Otherwise it sleeps: for good if nothing is pending, else until the earliest
   deadline, late by no more than the time it spent emitting.
   */
  lemma DecideMeans(s: State, t: State)
    requires Inv(s) && DecideNext(s, t)
    ensures s.stopped ==> t.worker.Exited?
    ensures !s.stopped && s.worker.observed != s.generation ==> t.worker.AtTop?
    ensures !s.stopped && s.worker.observed == s.generation ==>
              if s.pending == map[] then t.worker == Waiting(false)
              else && t.worker.WaitingUntil? && !t.worker.notified
                   && t.worker.lag == s.now - s.worker.collectedAt
                   && Earliest(s.pending, t.worker.until - t.worker.lag)
  {
  }

  /** A save always counts as one the worker has not seen. */
  lemma SaveIsNoticed(s: State, id: SessionId, path: string)
    requires Inv(s) && s.worker.Emitting?
    ensures SaveStep(s, id, path).worker == s.worker && SaveStep(s, id, path).generation != s.worker.observed
  {
  }

  // ----- dropping -----

  /** How many more steps a stopped worker can take. */
  function StepsLeft(worker: Worker): nat {
    match worker
    case Exited => 0
    case AtTop => 1
    case Emitting(due, _, _, _) => |due| + 1
    case Waiting(_) => 2
    case WaitingUntil(_, _, _) => 2
  }

  /** After `Drop` the worker is never left asleep, and each of its steps brings it nearer to its end. */
  lemma StoppedWorkerEnds(s: State, t: State)
    requires Inv(s) && s.stopped && Next(s, t)
    ensures t.stopped
    ensures s.worker.Waiting? || s.worker.WaitingUntil? ==> s.worker.notified
    ensures WorkerNext(s, t) ==> StepsLeft(t.worker) < StepsLeft(s.worker)
    ensures !WorkerNext(s, t) ==> StepsLeft(t.worker) == StepsLeft(s.worker)
  {
  }

  /** A worker that has not ended can always take a step. */
  lemma WorkerNeverStuck(s: State, t: State)
    requires Inv(s) && s.stopped && !s.worker.Exited?
    requires t == s.(worker := if s.worker.Emitting? && s.worker.due != [] then s.worker.(due := s.worker.due[1..])
                               else if s.worker.Emitting? || s.worker.AtTop? then Exited else AtTop,
                     emitted := if s.worker.Emitting? && s.worker.due != []
                                then s.emitted + [Emission(s.worker.due[0].id, s.worker.due[0].entry.path,
                                                           s.worker.due[0].entry.stamp, s.now)]
                                else s.emitted)
    ensures WorkerNext(s, t)
  {
  }

  // ----- the watcher -----

  class EditWatcher {
    var pending: map<SessionId, Entry>
    var stopped: bool
    var generation: nat
    var worker: Worker
    var now: nat
    const debounce: nat
    ghost var saves: seq<Save>
    ghost var emitted: seq<Emission>
    var stamps: nat

    ghost function Value(): State
      reads this
    {
      State(pending, stopped, generation, worker, now, debounce, saves, emitted)
    }

    ghost predicate Valid()
      reads this
    {
      Inv(Value()) && stamps == |saves|
    }

    constructor (debounce: nat, now: nat)
      ensures Valid() && Init(Value()) && this.debounce == debounce && this.now == now
    {
      this.debounce, this.now := debounce, now;
      pending, stopped, generation, worker, saves, emitted, stamps := map[], false, 0, AtTop, [], [], 0;
      new;
      InitInv(Value());
    }

    method NotifyWorker()
      modifies this`worker
      ensures worker == Notified(old(worker))
    {
      match worker
      case Waiting(_) =>
        worker := Waiting(true);
      case WaitingUntil(until, lag, _) =>
        worker := WaitingUntil(until, lag, true);
      case _ =>
    }

    /** The notify callback, for one path of one event. */
    method OnEvent(id: SessionId, path: string)
      requires Valid()
      modifies this
      ensures Valid() && Value() == SaveStep(old(Value()), id, path)
    {
      ghost var before := Value();
      var deadline := now + debounce;
      pending := pending[id := Entry(path, deadline, stamps)];
      generation := generation + 1;
      saves, stamps := saves + [Save(id, path, now)], stamps + 1;
      NotifyWorker();
      assert Value() == SaveStep(before, id, path);
      NextKeepsInv(before, Value());
    }

    /** `Drop`: stop and wake the worker. */
    method DropWatcher()
      requires Valid()
      modifies this
      ensures Valid() && Value() == DropStep(old(Value()))
    {
      ghost var before := Value();
      stopped := true;
      NotifyWorker();
      NextKeepsInv(before, Value());
    }

    /** The earliest deadline left, found by going through the values. */
    method EarliestWait() returns (wait: Option<nat>)
      ensures IsWait(pending, now, wait)
    {
      var ids := pending.Keys;
      if ids == {} {
        return None;
      }
      var first :| first in ids;
      ids := ids - {first};
      while ids != {}
        invariant first in pending && ids <= pending.Keys
        invariant forall id | id in pending && id !in ids :: pending[first].deadline <= pending[id].deadline
        decreases |ids|
      {
        var id :| id in ids;
        if pending[id].deadline < pending[first].deadline {
          first := id;
        }
        ids := ids - {id};
      }
      wait := Some(if pending[first].deadline > now then pending[first].deadline - now else 10);
    }

    /** Remove the entries that are due, in the order the map yields them. */
    method TakeDue() returns (due: seq<Due>)
      modifies this`pending
      ensures IsReadyList(old(pending), now, due)
      ensures pending == old(pending) - ReadyIds(old(pending), now)
    {
      var readyIds := ReadyIds(pending, now);
      ghost var all, ready, taken: set<SessionId> := pending, readyIds, {};
      due := [];
      while readyIds != {}
        invariant Taking(all, ready, taken, readyIds, pending, due)
        decreases |readyIds|
      {
        var id :| id in readyIds;
        TakeOne(all, ready, taken, readyIds, pending, due, id);
        due := due + [Due(id, pending[id])];
        pending := pending - {id};
        readyIds := readyIds - {id};
        taken := taken + {id};
      }
      assert taken == ready;
    }

    /** The first critical section: take what is due, decide how long to wait for the rest. */
    method Collect()
      requires Valid() && worker.AtTop?
      modifies this`pending, this`worker
      ensures Valid() && CollectNext(old(Value()), Value())
    {
      ghost var before := Value();
      if stopped {
        worker := Exited;
      } else {
        var due := TakeDue();
        var wait := EarliestWait();
        worker := Emitting(due, wait, generation, now);
      }
      assert CollectNext(before, Value());
      CollectKeepsInv(before, Value());
    }

    /** Outside the lock: report one collected save. */
    method EmitOne() returns (id: SessionId, path: string)
      requires Valid() && worker.Emitting? && worker.due != []
      modifies this`worker, this`emitted
      ensures Valid() && EmitNext(old(Value()), Value())
      ensures id == old(worker).due[0].id && path == old(worker).due[0].entry.path
    {
      ghost var before := Value();
      var d := worker.due[0];
      id, path := d.id, d.entry.path;
      emitted := emitted + [Emission(d.id, d.entry.path, d.entry.stamp, now)];
      worker := worker.(due := worker.due[1..]);
      NextKeepsInv(before, Value());
    }

    /** The second critical section: exit, start over, or go to sleep. */
    method Decide()
      requires Valid() && worker.Emitting? && worker.due == []
      modifies this`worker
      ensures Valid() && DecideNext(old(Value()), Value())
    {
      ghost var before := Value();
      if stopped {
        worker := Exited;
      } else if generation != worker.observed {
        worker := AtTop;
      } else if worker.wait.None? {
        worker := Waiting(false);
      } else {
        worker := WaitingUntil(now + worker.wait.value, now - worker.collectedAt, false);
      }
      NextKeepsInv(before, Value());
    }

    /** Leaving the wait: notified, timed out or spuriously. */
    method Wake()
      requires Valid() && (worker.Waiting? || worker.WaitingUntil?)
      modifies this`worker
      ensures Valid() && WakeNext(old(Value()), Value())
    {
      ghost var before := Value();
      worker := AtTop;
      NextKeepsInv(before, Value());
    }

    method Tick(later: nat)
      requires Valid() && now <= later
      modifies this`now
      ensures Valid() && Value() == old(Value()).(now := later)
    {
      ghost var before := Value();
      now := later;
      NextKeepsInv(before, Value());
    }
  }

  /** `due` lists exactly the entries of `ids`, each once. */
  ghost predicate Taken(pending: map<SessionId, Entry>, ids: set<SessionId>, due: seq<Due>) {
    && ids <= pending.Keys
    && (forall k | 0 <= k < |due| :: due[k].id in ids && due[k].entry == pending[due[k].id])
    && (forall id | id in ids :: exists k :: 0 <= k < |due| && due[k].id == id)
    && (forall j, k | 0 <= j < k < |due| :: due[j].id != due[k].id)
  }

  /** Of the `ready` ids, `taken` have moved from the map to the list and `rest` have not. */
  ghost predicate Taking(all: map<SessionId, Entry>, ready: set<SessionId>, taken: set<SessionId>, rest: set<SessionId>,
                         pending: map<SessionId, Entry>, due: seq<Due>)
  {
    && rest !! taken && rest + taken == ready && ready <= all.Keys
    && pending == all - taken
    && Taken(all, taken, due)
  }

  lemma TakeOne(all: map<SessionId, Entry>, ready: set<SessionId>, taken: set<SessionId>, rest: set<SessionId>,
                pending: map<SessionId, Entry>, due: seq<Due>, id: SessionId)
    requires Taking(all, ready, taken, rest, pending, due) && id in rest
    ensures id in pending
    ensures Taking(all, ready, taken + {id}, rest - {id}, pending - {id}, due + [Due(id, pending[id])])
  {
    ListOne(all, taken, due, id);
  }

  lemma ListOne(pending: map<SessionId, Entry>, ids: set<SessionId>, due: seq<Due>, id: SessionId)
    requires Taken(pending, ids, due) && id in pending && id !in ids
    ensures Taken(pending, ids + {id}, due + [Due(id, pending[id])])
  {
    var more := due + [Due(id, pending[id])];
    forall x | x in ids + {id}
      ensures exists k :: 0 <= k < |more| && more[k].id == x
    {
      if x in ids {
        var k :| 0 <= k < |due| && due[k].id == x;
        assert more[k] == due[k];
      } else {
        assert more[|due|].id == x;
      }
    }
  }
}
