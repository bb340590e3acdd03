/** What the transfer reducer promises, over single events and over whole runs. */
module TransferTheorems {
  import opened Common
  import opened IdMatching
  import opened Transfers
  import opened NaiveTransfers

  // ----- every event keeps the invariant -----

  /** Plans untouched and no job lost: the invariant carries over. */
  lemma OtherJobsKeepValid(v: Naive, w: Naive)
    requires Valid(v)
    requires w.plans == v.plans && v.jobs.Keys <= w.jobs.Keys
    requires JobsKeyed(w.jobs) && DistinctConflicts(w.conflicts)
    ensures Valid(w)
  {
  }

  /** A plan that keeps its root and its children keeps the invariant whatever its state. */
  lemma PlanStateKeepsValid(v: Naive, p: PlanId, state: PlanState)
    requires Valid(v) && p in v.plans
    ensures Valid(WithPlanState(v, p, state))
  {
  }

  lemma {:induction false} AddAbsentMeans(jobs: map<TransferId, Job>, batch: seq<Job>)
    ensures AddAbsent(jobs, batch).Keys == jobs.Keys + BatchIds(batch)
    ensures forall t | t in jobs :: AddAbsent(jobs, batch)[t] == jobs[t]
    ensures JobsKeyed(jobs) ==> JobsKeyed(AddAbsent(jobs, batch))
  {
    if batch != [] {
      var rest, last := batch[..|batch| - 1], batch[|batch| - 1];
      AddAbsentMeans(jobs, rest);
      assert batch == rest + [last];
      assert BatchIds(batch) == BatchIds(rest) + {last.id};
    }
  }

  lemma {:induction false} UpsertMeans(conflicts: seq<Conflict>, c: Conflict)
    requires DistinctConflicts(conflicts)
    ensures DistinctConflicts(UpsertConflict(conflicts, c))
    ensures forall x :: x in UpsertConflict(conflicts, c) <==> x == c || (x in conflicts && x.id != c.id)
    ensures UpsertConflict(UpsertConflict(conflicts, c), c) == UpsertConflict(conflicts, c)
  {
    if conflicts != [] {
      var rest := conflicts[1..];
      assert forall x | x in rest :: x.id != conflicts[0].id;
      UpsertMeans(rest, c);
      assert conflicts == [conflicts[0]] + rest;
    }
  }

  lemma {:induction false} RetainDistinct(conflicts: seq<Conflict>, keep: Conflict -> bool)
    requires DistinctConflicts(conflicts)
    ensures DistinctConflicts(Retain(conflicts, keep))
  {
    if conflicts != [] {
      RetainDistinct(conflicts[1..], keep);
      assert forall x | x in conflicts[1..] :: x.id != conflicts[0].id;
    }
  }

  lemma StartKeepsValid(v: Naive, plan: Plan, rootJob: Job)
    requires Valid(v) && WellFormed(v, PlanStartedEvent(plan, rootJob))
    ensures Valid(StartPlan(v, plan, rootJob))
  {
    var w := StartPlan(v, plan, rootJob);
    if plan.id in v.plans {
      OtherJobsKeepValid(v, w);
    } else {
      forall q | q in w.plans
        ensures PlanBacked(w, q)
        ensures q != plan.id ==> JobsOf(w.plans[q]) == JobsOf(v.plans[q]) && plan.rootJobId !in JobsOf(w.plans[q])
      {
        if q != plan.id {
          assert PlanBacked(v, q);
        }
      }
      assert JobsOf(w.plans[plan.id]) == {plan.rootJobId};
      forall q, r | q in w.plans && r in w.plans && q != r
        ensures PlansApart(w, q, r)
      {
        if q != plan.id && r != plan.id {
          assert PlansApart(v, q, r);
        }
      }
    }
  }

  /** The jobs of the grown plan are its old ones and ids that no other plan has. */
  lemma GrownJobs(v: Naive, p: PlanId, batch: seq<Job>, count: nat, bytes: Option<nat>)
    requires p in v.plans && GoodBatch(v, p, batch)
    ensures forall id | id in JobsOf(GrowPlan(v.plans[p], batch, count, bytes)) ::
              id in JobsOf(v.plans[p]) || (id in BatchIds(batch) && FreeFor(v, p, id))
  {
  }

  lemma GrowKeepsValid(v: Naive, p: PlanId, plan: NaivePlan, jobs: map<TransferId, Job>)
    requires Valid(v) && p in v.plans && JobsKeyed(jobs) && v.jobs.Keys + JobsOf(plan) <= jobs.Keys
    requires plan.head.id == p && plan.head.childJobs == [] && plan.head.rootJobId == v.plans[p].head.rootJobId
    requires plan.head.rootJobId !in plan.children
    requires forall id | id in JobsOf(plan) :: id in JobsOf(v.plans[p]) || FreeFor(v, p, id)
    ensures Valid(v.(plans := v.plans[p := plan], jobs := jobs))
  {
  }

  lemma ExtendKeepsValid(v: Naive, p: PlanId, batch: seq<Job>, count: nat, bytes: Option<nat>)
    requires Valid(v) && WellFormed(v, PlanProgressEvent(p, batch, count, bytes))
    ensures Valid(ExtendPlan(v, p, batch, count, bytes))
  {
    AddAbsentMeans(v.jobs, batch);
    if p !in v.plans {
      OtherJobsKeepValid(v, ExtendPlan(v, p, batch, count, bytes));
    } else if !PlanTerminal(v.plans[p].head.state) {
      assert PlanBacked(v, p);
      var plan := GrowPlan(v.plans[p], batch, count, bytes);
      GrownJobs(v, p, batch, count, bytes);
      RootStaysOut(v, p, batch);
      GrowKeepsValid(v, p, plan, AddAbsent(v.jobs, batch));
    }
  }

  lemma RootStaysOut(v: Naive, p: PlanId, batch: seq<Job>)
    requires Valid(v) && p in v.plans && GoodBatch(v, p, batch)
    ensures v.plans[p].head.rootJobId !in v.plans[p].children + BatchIds(batch)
  {
  }

  lemma CloseKeepsValid(v: Naive, p: PlanId)
    requires Valid(v) && p in v.plans
    ensures Valid(ClosePlan(v, p))
  {
    var state := if SomeChildFailed(v, p) then PlanFailed(SOME_FILES_FAILED) else PlanCompleted;
    PlanStateKeepsValid(v, p, state);
    OtherJobsKeepValid(WithPlanState(v, p, state), ClosePlan(v, p));
  }

  lemma SettleKeepsValid(v: Naive, t: TransferId)
    requires Valid(v)
    ensures Valid(SettlePlan(v, t))
  {
    forall p | p in v.plans
      ensures Valid(ClosePlan(v, p)) && Valid(v.(justFinished := Some(p)))
    {
      CloseKeepsValid(v, p);
      OtherJobsKeepValid(v, v.(justFinished := Some(p)));
    }
  }

  lemma LandedKeepsValid(v: Naive, t: TransferId, state: JobState)
    requires Valid(v)
    ensures Valid(Landed(v, t, state))
  {
    RetainDistinct(v.conflicts, OfOtherJobs(t));
    OtherJobsKeepValid(v, Landed(v, t, state));
  }

  lemma FinishKeepsValid(v: Naive, t: TransferId, state: JobState)
    requires Valid(v)
    ensures Valid(FinishJob(v, t, state))
  {
    LandedKeepsValid(v, t, state);
    SettleKeepsValid(Landed(v, t, state), t);
  }

  lemma EndPlanningKeepsValid(v: Naive, p: PlanId)
    requires Valid(v)
    ensures Valid(EndPlanning(v, p))
  {
    if p in v.plans {
      var state := if v.plans[p].children == {} then PlanCompleted else PlanQueued;
      PlanStateKeepsValid(v, p, state);
      if !PlanTerminal(v.plans[p].head.state) {
        OtherJobsKeepValid(WithPlanState(v, p, state), EndPlanning(v, p));
      }
    }
  }

  lemma CancelKeepsValid(v: Naive, p: PlanId)
    requires Valid(v)
    ensures Valid(CancelPlan(v, p))
  {
    if p in v.plans && CancelPlan(v, p) != v {
      PlanStateKeepsValid(v, p, PlanCancelled);
      OtherJobsKeepValid(WithPlanState(v, p, PlanCancelled), CancelPlan(v, p));
    }
  }

  lemma FailKeepsValid(v: Naive, p: PlanId, error: UserFacingError)
    requires Valid(v)
    ensures Valid(FailPlan(v, p, error))
  {
    if p in v.plans {
      PlanStateKeepsValid(v, p, PlanFailed(error));
      OtherJobsKeepValid(WithPlanState(v, p, PlanFailed(error)), FailPlan(v, p, error));
    }
  }

  lemma RaiseKeepsValid(v: Naive, c: Conflict)
    requires Valid(v)
    ensures Valid(RaiseConflict(v, c))
  {
    UpsertMeans(v.conflicts, c);
    OtherJobsKeepValid(v, RaiseConflict(v, c));
  }

  /** Roots and children always have a job, ids stay with one plan, conflicts stay distinct. */
  lemma ApplyKeepsValid(v: Naive, e: Event, now: Timestamp)
    requires Valid(v) && WellFormed(v, e)
    ensures Valid(Apply(v, e, now))
  {
    var u := v.(justFinished := None);
    OtherJobsKeepValid(v, u);
    match e
    case PlanStartedEvent(plan, rootJob) => StartKeepsValid(u, plan, rootJob);
    case PlanProgressEvent(p, batch, count, bytes) => ExtendKeepsValid(u, p, batch, count, bytes);
    case PlanCompletedEvent(p) => EndPlanningKeepsValid(u, p);
    case PlanCancelledEvent(p) => CancelKeepsValid(u, p);
    case PlanFailedEvent(p, error) => FailKeepsValid(u, p, error);
    case ConflictEvent(_, _, _, _, _, _, _) => RaiseKeepsValid(u, NewConflict(e, now));
    case CompletedEvent(t) => FinishKeepsValid(u, t, Completed);
    case SkippedEvent(t) => FinishKeepsValid(u, t, Skipped);
    case FailedEvent(t, error) => FinishKeepsValid(u, t, Failed(error, error.retryable));
    case RunningEvent(job) => OtherJobsKeepValid(u, u.(jobs := u.jobs[job.id := job]));
    case ProgressEvent(t, done, total) => OtherJobsKeepValid(u, ReportProgress(u, t, done, total, now));
    case WarningEvent(w) => OtherJobsKeepValid(u, AddWarning(u, w));
  }

  // ----- plans only move up -----

  /** The plan keeps its root and its children, does not move down, and is frozen once terminal. */
  ghost predicate PlanRises(a: NaivePlan, b: NaivePlan) {
    && b.head.rootJobId == a.head.rootJobId
    && a.children <= b.children
    && Rank(a.head.state) <= Rank(b.head.state)
    && (PlanTerminal(a.head.state) ==>
          && b.children == a.children
          && b.head.plannedCount == a.head.plannedCount
          && b.head.totalBytes == a.head.totalBytes)
  }

  ghost predicate PlansRise(a: Naive, b: Naive) {
    forall p | p in a.plans :: p in b.plans && PlanRises(a.plans[p], b.plans[p])
  }

  lemma FinishRaisesPlans(v: Naive, t: TransferId, state: JobState)
    ensures PlansRise(v, FinishJob(v, t, state))
  {
  }

  lemma ExtendRaisesPlans(v: Naive, p: PlanId, batch: seq<Job>, count: nat, bytes: Option<nat>)
    ensures PlansRise(v, ExtendPlan(v, p, batch, count, bytes))
  {
  }

  lemma EndPlanningRaisesPlans(v: Naive, p: PlanId)
    ensures PlansRise(v, EndPlanning(v, p))
  {
  }

  lemma FailRaisesPlans(v: Naive, p: PlanId, error: UserFacingError)
    ensures PlansRise(v, FailPlan(v, p, error))
  {
  }

  lemma CancelRaisesPlans(v: Naive, p: PlanId)
    ensures PlansRise(v, CancelPlan(v, p))
  {
  }

  /** Holds of every event in every state, well-formed or not. */
  lemma ApplyRaisesPlans(v: Naive, e: Event, now: Timestamp)
    ensures PlansRise(v, Apply(v, e, now))
  {
    if IsPlanEvent(e) {
      PlanEventRaisesPlans(v.(justFinished := None), e, now);
    } else {
      JobEventRaisesPlans(v.(justFinished := None), e, now);
    }
  }

  lemma PlanEventRaisesPlans(v: Naive, e: Event, now: Timestamp)
    requires IsPlanEvent(e)
    ensures PlansRise(v, Reduce(v, e, now))
  {
    match e
    case PlanStartedEvent(plan, rootJob) => StartRaisesPlans(v, plan, rootJob);
    case PlanProgressEvent(p, batch, count, bytes) => ExtendRaisesPlans(v, p, batch, count, bytes);
    case PlanCompletedEvent(p) => EndPlanningRaisesPlans(v, p);
    case PlanCancelledEvent(p) => CancelRaisesPlans(v, p);
    case PlanFailedEvent(p, error) => FailRaisesPlans(v, p, error);
  }

  lemma JobEventRaisesPlans(v: Naive, e: Event, now: Timestamp)
    requires !IsPlanEvent(e)
    ensures PlansRise(v, Reduce(v, e, now))
  {
    if FinishesJob(e) {
      FinishRaisesPlans(v, e.transferId, EndState(e));
    } else {
      OtherEventKeepsPlans(v, e, now);
      RisesInPlace(v);
    }
  }

  lemma OtherEventKeepsPlans(v: Naive, e: Event, now: Timestamp)
    requires !IsPlanEvent(e) && !FinishesJob(e)
    ensures Reduce(v, e, now).plans == v.plans
  {
  }

  lemma StartRaisesPlans(v: Naive, plan: Plan, rootJob: Job)
    ensures PlansRise(v, StartPlan(v, plan, rootJob))
  {
  }

  // ----- which plan a finished job settles -----

  lemma SettleOwned(v: Naive, p: PlanId, t: TransferId)
    requires Valid(v) && Owns(v, p, t)
    ensures SettlePlan(v, t) ==
            if !PlanTerminal(v.plans[p].head.state) && AllChildrenDone(v, p) then ClosePlan(v, p) else v
  {
  }

  lemma SettleChildlessRoot(v: Naive, p: PlanId, t: TransferId)
    requires Valid(v) && ChildlessRoot(v, p, t)
    ensures SettlePlan(v, t) == v.(justFinished := Some(p))
  {
  }

  /** The events that bring a job to an end, and the state they bring it to. */
  predicate FinishesJob(e: Event) {
    e.CompletedEvent? || e.SkippedEvent? || e.FailedEvent?
  }

  function EndState(e: Event): JobState
    requires FinishesJob(e)
  {
    match e
    case CompletedEvent(_) => Completed
    case SkippedEvent(_) => Skipped
    case FailedEvent(_, error) => Failed(error, error.retryable)
  }

  /**
   A job event on a child of an unfinished plan ends the plan exactly when every
   published child has ended; the plan fails iff a child failed, the root
   follows the plan, and the plan is reported as just finished iff it ended here.
   */
  lemma LastChildEndsPlan(v: Naive, e: Event, now: Timestamp, p: PlanId)
    requires Valid(v) && FinishesJob(e) && Owns(v, p, e.transferId)
    requires !PlanTerminal(v.plans[p].head.state)
    ensures PlanSettled(v, Apply(v, e, now), p, e.transferId, EndState(e))
  {
    var u := v.(justFinished := None);
    OtherJobsKeepValid(v, u);
    ApplyFinish(v, e, now);
    ChildLands(u, e.transferId, EndState(e), p);
  }

  ghost predicate PlanSettled(v: Naive, w: Naive, p: PlanId, t: TransferId, state: JobState)
    requires p in v.plans && t in v.plans[p].children
  {
    && v.plans[p].children <= w.jobs.Keys && p in w.plans && w.plans[p].head.rootJobId in w.jobs
    && w.jobs[t].state == state
    && var done := forall c | c in v.plans[p].children :: JobTerminal(w.jobs[c].state);
       var failed := exists c :: c in v.plans[p].children && w.jobs[c].state.Failed?;
       var root := w.jobs[w.plans[p].head.rootJobId].state;
    && (PlanTerminal(w.plans[p].head.state) <==> done)
    && (w.plans[p].head.state.PlanFailed? <==> done && failed)
    && (done ==> (root.Failed? <==> failed) && (root.Completed? <==> !failed))
    && w.justFinished == (if done then Some(p) else None)
  }

  lemma ReduceFinish(v: Naive, e: Event, now: Timestamp)
    requires FinishesJob(e)
    ensures Reduce(v, e, now) == FinishJob(v, e.transferId, EndState(e))
  {
  }

  lemma ApplyFinish(v: Naive, e: Event, now: Timestamp)
    requires FinishesJob(e)
    ensures Apply(v, e, now) == FinishJob(v.(justFinished := None), e.transferId, EndState(e))
  {
  }

  lemma ChildLands(v: Naive, t: TransferId, state: JobState, p: PlanId)
    requires Valid(v) && v.justFinished == None && Owns(v, p, t) && JobTerminal(state)
    requires !PlanTerminal(v.plans[p].head.state)
    ensures PlanSettled(v, FinishJob(v, t, state), p, t, state)
  {
    LandedKeepsValid(v, t, state);
    var l := Landed(v, t, state);
    assert Owns(l, p, t);
    SettleOwned(l, p, t);
    assert PlanBacked(l, p);
    if AllChildrenDone(l, p) {
      ClosedIsSettled(v, l, t, state, p);
    } else {
      OpenIsSettled(v, l, t, state, p);
    }
  }

  lemma ClosedIsSettled(v: Naive, l: Naive, t: TransferId, state: JobState, p: PlanId)
    requires p in v.plans && l.plans == v.plans && t in v.plans[p].children && PlanBacked(l, p) && AllChildrenDone(l, p)
    requires l.jobs[t].state == state
    ensures PlanSettled(v, ClosePlan(l, p), p, t, state)
  {
  }

  lemma OpenIsSettled(v: Naive, l: Naive, t: TransferId, state: JobState, p: PlanId)
    requires p in v.plans && l.plans == v.plans && t in v.plans[p].children
    requires PlanBacked(l, p) && !AllChildrenDone(l, p)
    requires l.jobs[t].state == state && l.justFinished == None && !PlanTerminal(l.plans[p].head.state)
    ensures PlanSettled(v, l, p, t, state)
  {
  }

  // ----- replaying an event changes nothing -----

  lemma SetStatesTwice(jobs: map<TransferId, Job>, ids: set<TransferId>, state: JobState)
    ensures SetStates(SetStates(jobs, ids, state), ids, state) == SetStates(jobs, ids, state)
  {
  }

  lemma {:induction false} AddAbsentKnown(jobs: map<TransferId, Job>, batch: seq<Job>)
    requires BatchIds(batch) <= jobs.Keys
    ensures AddAbsent(jobs, batch) == jobs
  {
    if batch != [] {
      var rest, last := batch[..|batch| - 1], batch[|batch| - 1];
      assert last in batch && forall j | j in rest :: j in batch;
      AddAbsentKnown(jobs, rest);
    }
  }

  /** A state in which the event has already been applied is left alone by the next one. */
  lemma SettledAgain(l: Naive, w: Naive, t: TransferId)
    requires Valid(l) && w == SettlePlan(l, t).(justFinished := None)
    requires t in l.jobs ==> JobTerminal(l.jobs[t].state)
    ensures Same(SettlePlan(w, t), w)
    ensures w.conflicts == l.conflicts && w.jobs.Keys == l.jobs.Keys
    ensures t in l.jobs ==> w.jobs[t] == l.jobs[t]
  {
    SettleKeepsValid(l, t);
    OtherJobsKeepValid(SettlePlan(l, t), w);
    if p :| Owns(l, p, t) {
      OwnerSettledAgain(l, w, p, t);
    } else {
      assert w.plans == l.plans && w.jobs == l.jobs && w.conflicts == l.conflicts;
      assert forall p :: Owns(w, p, t) ==> Owns(l, p, t);
    }
  }

  lemma OwnerSettledAgain(l: Naive, w: Naive, p: PlanId, t: TransferId)
    requires Valid(l) && Valid(w) && w == SettlePlan(l, t).(justFinished := None) && Owns(l, p, t)
    ensures Same(SettlePlan(w, t), w)
    ensures w.conflicts == l.conflicts && w.jobs.Keys == l.jobs.Keys
    ensures t in l.jobs ==> w.jobs[t] == l.jobs[t]
  {
    SettleOwned(l, p, t);
    assert PlanBacked(l, p) && Owns(w, p, t);
    SettleOwned(w, p, t);
  }

  lemma LandedFixpoint(conflicts: seq<Conflict>, w: Naive, t: TransferId, state: JobState)
    requires w.conflicts == Retain(conflicts, OfOtherJobs(t))
    requires t in w.jobs ==> w.jobs[t].state == state
    ensures Landed(w, t, state) == w
  {
    RetainTwice(conflicts, OfOtherJobs(t), OfOtherJobs(t), OfOtherJobs(t));
    assert SetStates(w.jobs, {t}, state) == w.jobs;
  }

  lemma FinishTwice(v: Naive, t: TransferId, state: JobState)
    requires Valid(v) && JobTerminal(state)
    ensures Same(FinishJob(FinishJob(v, t, state).(justFinished := None), t, state), FinishJob(v, t, state))
  {
    LandedKeepsValid(v, t, state);
    var w := FinishJob(v, t, state).(justFinished := None);
    SettledAgain(Landed(v, t, state), w, t);
    LandedFixpoint(v.conflicts, w, t, state);
  }

  lemma CancelTwice(v: Naive, p: PlanId)
    ensures Same(CancelPlan(CancelPlan(v, p).(justFinished := None), p), CancelPlan(v, p))
  {
  }

  lemma FailTwice(v: Naive, p: PlanId, error: UserFacingError)
    ensures Same(FailPlan(FailPlan(v, p, error).(justFinished := None), p, error), FailPlan(v, p, error))
  {
  }

  lemma ExtendTwice(v: Naive, p: PlanId, batch: seq<Job>, count: nat, bytes: Option<nat>)
    ensures ExtendPlan(ExtendPlan(v, p, batch, count, bytes), p, batch, count, bytes)
            == ExtendPlan(v, p, batch, count, bytes)
  {
    AddAbsentMeans(v.jobs, batch);
    AddAbsentKnown(AddAbsent(v.jobs, batch), batch);
    if p in v.plans && !PlanTerminal(v.plans[p].head.state) {
      var grown := GrowPlan(v.plans[p], batch, count, bytes);
      assert grown.children + BatchIds(batch) == grown.children;
    }
  }

  lemma EndPlanningTwice(v: Naive, p: PlanId)
    ensures EndPlanning(EndPlanning(v, p), p) == EndPlanning(v, p)
  {
  }

  lemma RaiseTwice(v: Naive, c: Conflict)
    requires Valid(v)
    ensures RaiseConflict(RaiseConflict(v, c), c) == RaiseConflict(v, c)
  {
    UpsertMeans(v.conflicts, c);
    SetStatesTwice(v.jobs, {c.transferId}, WaitingForConflict(c.planId, c.id));
  }

  /** The reducer is idempotent: the same event at the same clock changes nothing the second time. */
  lemma ReplayChangesNothing(v: Naive, e: Event, now: Timestamp)
    requires Valid(v) && WellFormed(v, e)
    ensures Same(Apply(Apply(v, e, now), e, now), Apply(v, e, now))
  {
    var u := v.(justFinished := None);
    OtherJobsKeepValid(v, u);
    match e
    case PlanStartedEvent(plan, rootJob) =>
    case PlanProgressEvent(p, batch, count, bytes) => ExtendTwice(u, p, batch, count, bytes);
    case PlanCompletedEvent(p) => EndPlanningTwice(u, p);
    case PlanCancelledEvent(p) => CancelTwice(u, p);
    case PlanFailedEvent(p, error) => FailTwice(u, p, error);
    case ConflictEvent(_, _, _, _, _, _, _) => RaiseTwice(u, NewConflict(e, now));
    case CompletedEvent(t) => FinishTwice(u, t, Completed);
    case SkippedEvent(t) => FinishTwice(u, t, Skipped);
    case FailedEvent(t, error) => FinishTwice(u, t, Failed(error, error.retryable));
    case ProgressEvent(t, done, total) => ReportTwice(u, t, done, total, now);
    case WarningEvent(w) => assert AddWarning(AddWarning(u, w), w) == AddWarning(u, w);
    case RunningEvent(job) =>
  }

  lemma ReportTwice(v: Naive, t: TransferId, done: nat, total: Option<nat>, now: Timestamp)
    ensures ReportProgress(ReportProgress(v, t, done, total, now), t, done, total, now)
            == ReportProgress(v, t, done, total, now)
  {
  }

  /** An event that was well-formed once may be delivered again. */
  lemma ReplayStaysWellFormed(v: Naive, e: Event, now: Timestamp)
    requires Valid(v) && WellFormed(v, e)
    ensures WellFormed(Apply(v, e, now), e)
  {
  }

  // ----- cancelling -----

  /**
   Cancelling skips exactly the unfinished jobs of the plan, and the plan
   becomes cancelled iff there was one.
   */
  lemma CancelSkipsUnfinished(v: Naive, p: PlanId, now: Timestamp)
    requires Valid(v) && p in v.plans
    requires !v.plans[p].head.state.PlanCancelled? && !v.plans[p].head.state.PlanFailed?
    ensures var w := Apply(v, PlanCancelledEvent(p), now);
            var open := set t | t in JobsOf(v.plans[p]) && !JobTerminal(v.jobs[t].state);
            && w.jobs.Keys == v.jobs.Keys
            && (forall t | t in v.jobs ::
                  w.jobs[t] == if t in open then v.jobs[t].(state := Skipped) else v.jobs[t])
            && w.plans.Keys == v.plans.Keys
            && (forall q | q in v.plans && q != p :: w.plans[q] == v.plans[q])
            && (w.plans[p].head.state.PlanCancelled? <==> open != {})
            && w.justFinished == (if open != {} then Some(p) else None)
  {
    SkippedJobs(v.(justFinished := None), p);
  }

  lemma SkippedJobs(v: Naive, p: PlanId)
    requires p in v.plans
    ensures var open := set t | t in JobsOf(v.plans[p]) && t in v.jobs && !JobTerminal(v.jobs[t].state);
            var jobs := SkipUnfinished(v.jobs, JobsOf(v.plans[p]));
            && (forall t | t in v.jobs ::
                  jobs[t] == if t in open then v.jobs[t].(state := Skipped) else v.jobs[t])
            && (jobs == v.jobs <==> open == {})
  {
    var jobs := SkipUnfinished(v.jobs, JobsOf(v.plans[p]));
    if t :| t in JobsOf(v.plans[p]) && t in v.jobs && !JobTerminal(v.jobs[t].state) {
      assert jobs[t] != v.jobs[t];
    }
  }

  // ----- whole runs -----

  datatype Timed = Timed(event: Event, now: Timestamp)

  ghost function Run(v: Naive, events: seq<Timed>): Naive {
    if events == [] then v
    else
      var last := events[|events| - 1];
      Apply(Run(v, events[..|events| - 1]), last.event, last.now)
  }

  ghost predicate WellFormedRun(v: Naive, events: seq<Timed>) {
    events == [] ||
    (WellFormedRun(v, events[..|events| - 1])
     && WellFormed(Run(v, events[..|events| - 1]), events[|events| - 1].event))
  }

  lemma {:induction false} RunKeepsValid(v: Naive, events: seq<Timed>)
    requires Valid(v) && WellFormedRun(v, events)
    ensures Valid(Run(v, events))
  {
    if events != [] {
      var front, last := events[..|events| - 1], events[|events| - 1];
      RunKeepsValid(v, front);
      ApplyKeepsValid(Run(v, front), last.event, last.now);
    }
  }

  lemma {:induction false} PrefixWellFormed(v: Naive, events: seq<Timed>, k: nat)
    requires WellFormedRun(v, events) && k <= |events|
    ensures WellFormedRun(v, events[..k])
    ensures k < |events| ==> WellFormed(Run(v, events[..k]), events[k].event)
    ensures k < |events| ==> Run(v, events[..k + 1]) == Apply(Run(v, events[..k]), events[k].event, events[k].now)
    decreases |events|
  {
    if k == |events| {
      assert events[..k] == events;
    } else {
      RunStep(v, events, k);
      var front := events[..|events| - 1];
      if k < |front| {
        PrefixWellFormed(v, front, k);
        assert front[..k] == events[..k];
      }
    }
  }

  lemma RunStep(v: Naive, events: seq<Timed>, k: nat)
    requires k < |events|
    ensures Run(v, events[..k + 1]) == Apply(Run(v, events[..k]), events[k].event, events[k].now)
  {
    assert events[..k + 1][..k] == events[..k];
  }

  /** Between two points of any run plans only rise. */
  lemma {:induction false} RunRaisesPlans(v: Naive, events: seq<Timed>, i: nat, j: nat)
    requires i <= j <= |events|
    ensures PlansRise(Run(v, events[..i]), Run(v, events[..j]))
    decreases j - i
  {
    if i < j {
      RunRaisesPlans(v, events, i, j - 1);
      RunStep(v, events, j - 1);
      ApplyRaisesPlans(Run(v, events[..j - 1]), events[j - 1].event, events[j - 1].now);
      RisesOn(Run(v, events[..i]), Run(v, events[..j - 1]), Run(v, events[..j]));
    } else {
      RisesInPlace(Run(v, events[..i]));
    }
  }

  lemma RisesOn(a: Naive, b: Naive, c: Naive)
    requires PlansRise(a, b) && PlansRise(b, c)
    ensures PlansRise(a, c)
  {
  }

  lemma RisesInPlace(a: Naive)
    ensures PlansRise(a, a)
  {
  }

  /** The `k`-th event is a job event that reports plan `p` as just finished. */
  ghost predicate JobEventNames(v: Naive, events: seq<Timed>, k: nat, p: PlanId)
    requires k < |events|
  {
    FinishesJob(events[k].event) && Run(v, events[..k + 1]).justFinished == Some(p)
  }

  /** A job event names a plan with children only by ending it, and never one that had ended. */
  lemma NamingEndsPlan(v: Naive, e: Event, now: Timestamp, p: PlanId)
    requires FinishesJob(e) && Apply(v, e, now).justFinished == Some(p)
    ensures p in v.plans
    ensures v.plans[p].children != {} ==>
              && !PlanTerminal(v.plans[p].head.state)
              && p in Apply(v, e, now).plans && PlanTerminal(Apply(v, e, now).plans[p].head.state)
  {
    ApplyFinish(v, e, now);
    SettleNames(Landed(v.(justFinished := None), e.transferId, EndState(e)), e.transferId, p);
  }

  lemma SettleNames(l: Naive, t: TransferId, p: PlanId)
    requires l.justFinished == None && SettlePlan(l, t).justFinished == Some(p)
    ensures p in l.plans
    ensures l.plans[p].children == {} ==> ChildlessRoot(l, p, t)
    ensures l.plans[p].children != {} ==>
              !PlanTerminal(l.plans[p].head.state) && SettlePlan(l, t) == ClosePlan(l, p)
  {
  }

  lemma NotNamedAgain(mid: Naive, late: Naive, e: Event, now: Timestamp, p: PlanId)
    requires FinishesJob(e) && PlansRise(mid, late)
    requires p in mid.plans && PlanTerminal(mid.plans[p].head.state) && mid.plans[p].children != {}
    ensures Apply(late, e, now).justFinished != Some(p)
  {
    if Apply(late, e, now).justFinished == Some(p) {
      NamingEndsPlan(late, e, now, p);
    }
  }

  /** Over a whole run, job events name a plan that has children at most once. */
  lemma NamedAtMostOnce(events: seq<Timed>, i: nat, j: nat, p: PlanId)
    requires i < j < |events|
    requires JobEventNames(EMPTY, events, i, p)
    requires p in Run(EMPTY, events[..i]).plans ==> Run(EMPTY, events[..i]).plans[p].children != {}
    ensures !JobEventNames(EMPTY, events, j, p)
  {
    RunStep(EMPTY, events, i);
    RunStep(EMPTY, events, j);
    NamingEndsPlan(Run(EMPTY, events[..i]), events[i].event, events[i].now, p);
    RunRaisesPlans(EMPTY, events, i, i + 1);
    RunRaisesPlans(EMPTY, events, i + 1, j);
    if FinishesJob(events[j].event) {
      NotNamedAgain(Run(EMPTY, events[..i + 1]), Run(EMPTY, events[..j]), events[j].event, events[j].now, p);
    }
  }

  /**
   A plan without children is not covered by that: a job event that named a plan
   names it again when it is delivered again exactly if the plan has no children.
   */
  lemma ReplayNamesChildlessPlans(v: Naive, e: Event, now: Timestamp, p: PlanId)
    requires Valid(v) && FinishesJob(e) && Apply(v, e, now).justFinished == Some(p)
    ensures p in v.plans
    ensures Apply(Apply(v, e, now), e, now).justFinished == Some(p) <==> v.plans[p].children == {}
  {
    NamingEndsPlan(v, e, now, p);
    if v.plans[p].children != {} {
      ApplyRaisesPlans(v, e, now);
      NotNamedAgain(Apply(v, e, now), Apply(v, e, now), e, now, p);
    } else {
      ChildlessNamedAgain(v, e, now, p);
    }
  }

  lemma ChildlessNamedAgain(v: Naive, e: Event, now: Timestamp, p: PlanId)
    requires Valid(v) && FinishesJob(e) && Apply(v, e, now).justFinished == Some(p)
    requires p in v.plans && v.plans[p].children == {}
    ensures Apply(Apply(v, e, now), e, now).justFinished == Some(p)
  {
    ApplyFinish(v, e, now);
    SettleNames(Landed(v.(justFinished := None), e.transferId, EndState(e)), e.transferId, p);
    ApplyKeepsValid(v, e, now);
    ChildlessRootSettles(v, e, now, p);
    ChildlessRootSettles(Apply(v, e, now), e, now, p);
  }

  /** The root of a plan without children finished: only the report changes, not the plans. */
  lemma ChildlessRootSettles(v: Naive, e: Event, now: Timestamp, p: PlanId)
    requires Valid(v) && FinishesJob(e) && ChildlessRoot(v, p, e.transferId)
    ensures Apply(v, e, now).justFinished == Some(p) && Apply(v, e, now).plans == v.plans
  {
    var u := v.(justFinished := None);
    OtherJobsKeepValid(v, u);
    LandedKeepsValid(u, e.transferId, EndState(e));
    SettleChildlessRoot(Landed(u, e.transferId, EndState(e)), p, e.transferId);
    ApplyFinish(v, e, now);
  }

  /** A plan is started and its root, which has no children, reported completed twice. */
  function StartedAndCompletedTwice(plan: Plan, root: Job, now: Timestamp): seq<Timed> {
    [Timed(PlanStartedEvent(plan, root), now), Timed(CompletedEvent(root.id), now), Timed(CompletedEvent(root.id), now)]
  }

  /** Such a run is well-formed, and both reports name the plan as just finished. */
  lemma ChildlessPlanNamedTwice(plan: Plan, root: Job, now: Timestamp)
    requires plan.childJobs == [] && root.id == plan.rootJobId
    ensures var events := StartedAndCompletedTwice(plan, root, now);
            && WellFormedRun(EMPTY, events)
            && JobEventNames(EMPTY, events, 1, plan.id) && JobEventNames(EMPTY, events, 2, plan.id)
  {
    var started, finished := Timed(PlanStartedEvent(plan, root), now), Timed(CompletedEvent(root.id), now);
    var one := Apply(EMPTY, started.event, now);
    var two := Apply(one, finished.event, now);
    ApplyKeepsValid(EMPTY, started.event, now);
    ChildlessRootSettles(one, finished.event, now, plan.id);
    ApplyKeepsValid(one, finished.event, now);
    ChildlessRootSettles(two, finished.event, now, plan.id);
    RunOfThree(EMPTY, started, finished, finished);
  }

  /** A run of three events, one at a time. */
  lemma RunOfThree(v: Naive, a: Timed, b: Timed, c: Timed)
    ensures var events := [a, b, c];
            var one := Apply(v, a.event, a.now);
            var two := Apply(one, b.event, b.now);
            && Run(v, events[..2]) == two && Run(v, events[..3]) == Apply(two, c.event, c.now)
            && (WellFormedRun(v, events) <==>
                  WellFormed(v, a.event) && WellFormed(one, b.event) && WellFormed(two, c.event))
  {
    RunOneMore(v, [], a);
    RunOneMore(v, [a], b);
    RunOneMore(v, [a, b], c);
    assert [] + [a] == [a] && [a] + [b] == [a, b] && [a, b] + [c] == [a, b, c];
    assert [a, b, c][..2] == [a, b] && [a, b, c][..3] == [a, b, c];
  }

  lemma RunOneMore(v: Naive, events: seq<Timed>, last: Timed)
    ensures Run(v, events + [last]) == Apply(Run(v, events), last.event, last.now)
    ensures WellFormedRun(v, events + [last]) <==> WellFormedRun(v, events) && WellFormed(Run(v, events), last.event)
  {
    assert (events + [last])[..|events|] == events;
  }
}
