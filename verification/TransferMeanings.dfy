/**
 What each runtime event does to plans, jobs and conflicts, told in their own
 fields and states only. The reducer is proved to do exactly this, so nothing
 here depends on how it is written.
 */
module TransferMeanings {
  import opened Common
  import opened IdMatching
  import opened Transfers
  import opened NaiveTransfers
  import opened TransferTheorems

  /** Only the job at `t` differs, if there is one, and only in its state. */
  ghost predicate OnlyState(v: Naive, w: Naive, t: TransferId, state: JobState) {
    && w.jobs.Keys == v.jobs.Keys
    && forall u | u in v.jobs :: w.jobs[u] == if u == t then v.jobs[u].(state := state) else v.jobs[u]
  }

  /** Only plan `p` and its root differ, and only in their states. */
  ghost predicate OnlyPlanAndRoot(v: Naive, w: Naive, p: PlanId, plan: PlanState, root: JobState)
    requires p in v.plans
  {
    && OnlyPlanState(v, w, p, plan)
    && OnlyState(v, w, v.plans[p].head.rootJobId, root)
  }

  ghost predicate OnlyPlanState(v: Naive, w: Naive, p: PlanId, state: PlanState)
    requires p in v.plans
  {
    && w.plans.Keys == v.plans.Keys
    && (forall q | q in v.plans && q != p :: w.plans[q] == v.plans[q])
    && w.plans[p].children == v.plans[p].children
    && w.plans[p].head == v.plans[p].head.(state := state)
  }

  ghost predicate Unmoved(v: Naive, w: Naive) {
    w.plans == v.plans && w.jobs == v.jobs && w.conflicts == v.conflicts
  }

  // ----- plan events -----

  /** A new plan id gets the plan, a new root id its job; known ones stay as they are. */
  ghost predicate PlanStarted(v: Naive, plan: Plan, root: Job, w: Naive) {
    && w.conflicts == v.conflicts
    && w.plans.Keys == v.plans.Keys + {plan.id}
    && (forall q | q in v.plans :: w.plans[q] == v.plans[q])
    && (plan.id !in v.plans ==>
          && w.plans[plan.id].head == plan.(childJobs := [])
          && forall c :: c in w.plans[plan.id].children <==> c in plan.childJobs)
    && w.jobs.Keys == v.jobs.Keys + {root.id}
    && (forall t | t in v.jobs :: w.jobs[t] == v.jobs[t])
    && (root.id !in v.jobs ==> w.jobs[root.id] == root)
  }

  /**
   A finished plan takes no more progress. Any other gets the batch as children and
   a larger count with its size; jobs that were not known are stored as they came.
   */
  ghost predicate PlanProgressed(v: Naive, p: PlanId, batch: seq<Job>, count: nat, bytes: Option<nat>, w: Naive) {
    if p in v.plans && (v.plans[p].head.state.PlanCompleted? || v.plans[p].head.state.PlanCancelled?
                        || v.plans[p].head.state.PlanFailed?)
    then Unmoved(v, w)
    else
      && w.conflicts == v.conflicts
      && BatchStored(v, batch, w)
      && w.plans.Keys == v.plans.Keys
      && (forall q | q in v.plans && q != p :: w.plans[q] == v.plans[q])
      && (p in v.plans ==>
            && (forall c :: c in w.plans[p].children <==>
                  c in v.plans[p].children || exists i :: 0 <= i < |batch| && batch[i].id == c)
            && w.plans[p].head ==
               if v.plans[p].head.plannedCount < count
               then v.plans[p].head.(plannedCount := count, totalBytes := bytes) else v.plans[p].head)
  }

  ghost predicate BatchStored(v: Naive, batch: seq<Job>, w: Naive) {
    && (forall t :: t in w.jobs <==> t in v.jobs || exists i :: 0 <= i < |batch| && batch[i].id == t)
    && (forall t | t in v.jobs :: w.jobs[t] == v.jobs[t])
    && (forall i | 0 <= i < |batch| :: batch[i].id in w.jobs
                                       && (batch[i].id !in v.jobs ==> w.jobs[batch[i].id] == batch[i]))
  }

  /** When planning ends, a plan without children is done with its root, one with children is queued with it. */
  ghost predicate PlanningEnded(v: Naive, p: PlanId, w: Naive) {
    if p !in v.plans || v.plans[p].head.state.PlanCompleted? || v.plans[p].head.state.PlanCancelled?
       || v.plans[p].head.state.PlanFailed?
    then Unmoved(v, w)
    else
      && w.conflicts == v.conflicts
      && if v.plans[p].children == {} then OnlyPlanAndRoot(v, w, p, PlanCompleted, Completed)
         else OnlyPlanAndRoot(v, w, p, PlanQueued, Queued)
  }

  /** A job of the plan that can still be cancelled. */
  ghost predicate Open(v: Naive, p: PlanId, t: TransferId)
    requires p in v.plans
  {
    && t in v.jobs && (t == v.plans[p].head.rootJobId || t in v.plans[p].children)
    && !v.jobs[t].state.Completed? && !v.jobs[t].state.Skipped? && !v.jobs[t].state.Failed?
  }

  /** Cancelling skips the open jobs of the plan; with none, or a plan cancelled or failed already, nothing happens. */
  ghost predicate PlanCancelledBy(v: Naive, p: PlanId, w: Naive) {
    if p !in v.plans || v.plans[p].head.state.PlanCancelled? || v.plans[p].head.state.PlanFailed?
       || !exists t :: Open(v, p, t)
    then Unmoved(v, w) && w.justFinished == None
    else
      && w.conflicts == v.conflicts && w.justFinished == Some(p)
      && OnlyPlanState(v, w, p, PlanCancelled)
      && w.jobs.Keys == v.jobs.Keys
      && forall t | t in v.jobs :: w.jobs[t] == if Open(v, p, t) then v.jobs[t].(state := Skipped) else v.jobs[t]
  }

  /** A failed plan fails its root and every child with the same error, whatever they were. */
  ghost predicate PlanFailedBy(v: Naive, p: PlanId, error: UserFacingError, w: Naive) {
    if p !in v.plans then Unmoved(v, w) && w.justFinished == None
    else
      && w.conflicts == v.conflicts
      && OnlyPlanState(v, w, p, PlanFailed(error))
      && w.jobs.Keys == v.jobs.Keys
      && (forall t | t in v.jobs ::
            w.jobs[t] == if t == v.plans[p].head.rootJobId || t in v.plans[p].children
                         then v.jobs[t].(state := Failed(error, error.retryable)) else v.jobs[t])
      && w.justFinished == (if Unmoved(v, w) then None else Some(p))
  }

  // ----- job events -----

  /** A running snapshot replaces the job, or adds it. */
  ghost predicate SnapshotTaken(v: Naive, job: Job, w: Naive) {
    && w.plans == v.plans && w.conflicts == v.conflicts
    && w.jobs.Keys == v.jobs.Keys + {job.id} && w.jobs[job.id] == job
    && forall t | t in v.jobs && t != job.id :: w.jobs[t] == v.jobs[t]
  }

  /** The job waits for this request, which replaces the pending one of its id or joins at the end. */
  ghost predicate ConflictRaised(v: Naive, c: Conflict, w: Naive) {
    && w.plans == v.plans
    && OnlyState(v, w, c.transferId, WaitingForConflict(c.planId, c.id))
    && (if i :| 0 <= i < |v.conflicts| && v.conflicts[i].id == c.id then w.conflicts == v.conflicts[i := c]
        else w.conflicts == v.conflicts + [c])
  }

  /**
   Progress makes a live job run with these bytes, from its old start if it was
   running and from now if not. A job that is done or being cancelled is left alone.
   */
  ghost predicate ProgressReported(v: Naive, t: TransferId, done: nat, total: Option<nat>, now: Timestamp, w: Naive) {
    if t !in v.jobs || v.jobs[t].state.Completed? || v.jobs[t].state.Skipped? || v.jobs[t].state.Failed?
       || v.jobs[t].state.Cancelling?
    then Unmoved(v, w)
    else
      && w.plans == v.plans && w.conflicts == v.conflicts
      && OnlyState(v, w, t, Running(done, total,
                                    match v.jobs[t].state case Running(_, _, start) => start case _ => now))
  }

  /** A warning its job does not have yet is added to it. */
  ghost predicate WarningAdded(v: Naive, warning: Warning, w: Naive) {
    var t := warning.transferId;
    if t !in v.jobs || warning in v.jobs[t].warnings then Unmoved(v, w)
    else
      && w.plans == v.plans && w.conflicts == v.conflicts
      && w.jobs.Keys == v.jobs.Keys
      && w.jobs[t] == v.jobs[t].(warnings := v.jobs[t].warnings + [warning])
      && forall u | u in v.jobs && u != t :: w.jobs[u] == v.jobs[u]
  }

  /** The unfinished plan `p` has `t` among its children, and all its children are done in `w`. */
  ghost predicate EndsHere(v: Naive, p: PlanId, t: TransferId, w: Naive) {
    && p in v.plans && t in v.plans[p].children
    && (v.plans[p].head.state.PlanPlanning? || v.plans[p].head.state.PlanQueued?)
    && forall c | c in v.plans[p].children ::
         c in w.jobs && (w.jobs[c].state.Completed? || w.jobs[c].state.Skipped? || w.jobs[c].state.Failed?)
  }

  const MIXED_OUTCOME := UserFacingError(
    Unknown, "Transfer finished with failures", "Some files could not be transferred.", None, false)

  /** The outcome of a plan whose children are all done. */
  ghost predicate TookOutcome(v: Naive, p: PlanId, w: Naive)
    requires p in v.plans && p in w.plans && v.plans[p].head.rootJobId in v.jobs && v.plans[p].head.rootJobId in w.jobs
  {
    var root := v.plans[p].head.rootJobId;
    var failed := exists c :: c in v.plans[p].children && c in w.jobs && w.jobs[c].state.Failed?;
    && w.plans[p].children == v.plans[p].children
    && w.plans[p].head == v.plans[p].head.(state := if failed then PlanFailed(MIXED_OUTCOME) else PlanCompleted)
    && w.jobs[root] == v.jobs[root].(state := if failed then Failed(MIXED_OUTCOME, true) else Completed)
  }

  /**
   A finished job takes its end state and loses its conflicts. The plan this ends,
   if any, takes its children's outcome with its root; nothing else moves.
   */
  ghost predicate JobFinished(v: Naive, t: TransferId, state: JobState, w: Naive) {
    && FinishedJobs(v, t, state, w)
    && FinishedPlans(v, t, w)
    && (forall c :: c in w.conflicts <==> c in v.conflicts && c.transferId != t)
    && FinishReported(v, t, w)
  }

  /** `u` is the root of a plan that ends here. */
  ghost predicate RootEndsHere(v: Naive, u: TransferId, t: TransferId, w: Naive) {
    exists p :: EndsHere(v, p, t, w) && v.plans[p].head.rootJobId == u
  }

  ghost predicate FinishedJobs(v: Naive, t: TransferId, state: JobState, w: Naive) {
    && w.jobs.Keys == v.jobs.Keys
    && forall u | u in v.jobs && !RootEndsHere(v, u, t, w) ::
         w.jobs[u] == if u == t then v.jobs[u].(state := state) else v.jobs[u]
  }

  ghost predicate FinishedPlans(v: Naive, t: TransferId, w: Naive) {
    && w.plans.Keys == v.plans.Keys
    && forall p | p in v.plans ::
         if EndsHere(v, p, t, w)
         then v.plans[p].head.rootJobId in v.jobs && v.plans[p].head.rootJobId in w.jobs && TookOutcome(v, p, w)
         else w.plans[p] == v.plans[p]
  }

  /** The plan that ends here is reported, or else the plan without children whose root this is. */
  ghost predicate FinishReported(v: Naive, t: TransferId, w: Naive) {
    forall p: PlanId :: w.justFinished == Some(p) <==>
      EndsHere(v, p, t, w) || (p in v.plans && v.plans[p].children == {} && v.plans[p].head.rootJobId == t)
  }

  // ----- every event -----

  /** What the event makes of `v`, whatever was reported before. */
  ghost predicate Means(v: Naive, e: Event, now: Timestamp, w: Naive) {
    Effect(v.(justFinished := None), e, now, w)
  }

  ghost predicate Effect(v: Naive, e: Event, now: Timestamp, w: Naive) {
    match e
    case PlanStartedEvent(plan, root) => PlanStarted(v, plan, root, w) && w.justFinished == None
    case PlanProgressEvent(p, batch, count, bytes) =>
      PlanProgressed(v, p, batch, count, bytes, w) && w.justFinished == None
    case PlanCompletedEvent(p) => PlanningEnded(v, p, w) && w.justFinished == None
    case PlanCancelledEvent(p) => PlanCancelledBy(v, p, w)
    case PlanFailedEvent(p, error) => PlanFailedBy(v, p, error, w)
    case RunningEvent(job) => SnapshotTaken(v, job, w) && w.justFinished == None
    case ConflictEvent(id, plan, t, source, destination, size, modified) =>
      && ConflictRaised(v, Conflict(id, plan, t, source, destination, size, modified, now), w)
      && w.justFinished == None
    case ProgressEvent(t, done, total) => ProgressReported(v, t, done, total, now, w) && w.justFinished == None
    case WarningEvent(warning) => WarningAdded(v, warning, w) && w.justFinished == None
    case CompletedEvent(t) => JobFinished(v, t, Completed, w)
    case SkippedEvent(t) => JobFinished(v, t, Skipped, w)
    case FailedEvent(t, error) => JobFinished(v, t, Failed(error, error.retryable), w)
  }

  lemma ProgressMeans(v: Naive, t: TransferId, done: nat, total: Option<nat>, now: Timestamp)
    ensures ProgressReported(v, t, done, total, now, Apply(v, ProgressEvent(t, done, total), now))
  {
  }

  lemma WarningMeans(v: Naive, warning: Warning, now: Timestamp)
    ensures WarningAdded(v, warning, Apply(v, WarningEvent(warning), now))
  {
  }

  lemma {:induction false} UpsertPlaces(conflicts: seq<Conflict>, c: Conflict)
    requires DistinctConflicts(conflicts)
    ensures forall i | 0 <= i < |conflicts| && conflicts[i].id == c.id ::
              UpsertConflict(conflicts, c) == conflicts[i := c]
    ensures (forall i | 0 <= i < |conflicts| :: conflicts[i].id != c.id) ==>
              UpsertConflict(conflicts, c) == conflicts + [c]
  {
    if conflicts != [] {
      var rest := conflicts[1..];
      UpsertPlaces(rest, c);
      forall i | 0 <= i < |conflicts| && conflicts[i].id == c.id
        ensures UpsertConflict(conflicts, c) == conflicts[i := c]
      {
        if i > 0 {
          assert rest[i - 1] == conflicts[i];
        }
      }
    }
  }

  lemma ConflictMeans(v: Naive, c: Conflict)
    requires DistinctConflicts(v.conflicts)
    ensures ConflictRaised(v, c, RaiseConflict(v, c))
  {
    UpsertPlaces(v.conflicts, c);
  }

  lemma StartMeans(v: Naive, plan: Plan, root: Job)
    ensures PlanStarted(v, plan, root, StartPlan(v, plan, root))
  {
  }

  lemma {:induction false} AddedAsGiven(jobs: map<TransferId, Job>, batch: seq<Job>, i: nat)
    requires AscendingBatch(batch) && i < |batch| && batch[i].id !in jobs
    ensures batch[i].id in AddAbsent(jobs, batch) && AddAbsent(jobs, batch)[batch[i].id] == batch[i]
    decreases |batch|
  {
    var front, last := batch[..|batch| - 1], batch[|batch| - 1];
    if i < |front| {
      AddedAsGiven(jobs, front, i);
    } else {
      AddAbsentMeans(jobs, front);
      assert last.id !in BatchIds(front) by {
        assert forall j | j in front :: j.id < last.id;
      }
    }
  }

  lemma BatchIdsMean(batch: seq<Job>)
    ensures forall t :: t in BatchIds(batch) <==> exists i :: 0 <= i < |batch| && batch[i].id == t
  {
    forall i | 0 <= i < |batch|
      ensures batch[i].id in BatchIds(batch)
    {
      assert batch[i] in batch;
    }
  }

  lemma AddAbsentStores(v: Naive, batch: seq<Job>)
    requires AscendingBatch(batch)
    ensures BatchStored(v, batch, v.(jobs := AddAbsent(v.jobs, batch)))
  {
    AddAbsentMeans(v.jobs, batch);
    BatchIdsMean(batch);
    forall i | 0 <= i < |batch| && batch[i].id !in v.jobs
      ensures AddAbsent(v.jobs, batch)[batch[i].id] == batch[i]
    {
      AddedAsGiven(v.jobs, batch, i);
    }
  }

  lemma ExtendMeans(v: Naive, p: PlanId, batch: seq<Job>, count: nat, bytes: Option<nat>)
    requires WellFormed(v, PlanProgressEvent(p, batch, count, bytes))
    ensures PlanProgressed(v, p, batch, count, bytes, ExtendPlan(v, p, batch, count, bytes))
  {
    if p !in v.plans || !PlanTerminal(v.plans[p].head.state) {
      AddAbsentStores(v, batch);
      BatchIdsMean(batch);
    }
  }

  lemma EndPlanningMeans(v: Naive, p: PlanId)
    ensures PlanningEnded(v, p, EndPlanning(v, p))
  {
  }

  lemma CancelMeans(v: Naive, p: PlanId)
    requires Valid(v) && v.justFinished == None
    ensures PlanCancelledBy(v, p, CancelPlan(v, p))
  {
    if p in v.plans {
      assert PlanBacked(v, p);
      SkippedJobs(v, p);
      assert forall t | t in JobsOf(v.plans[p]) :: Open(v, p, t) <==> !JobTerminal(v.jobs[t].state);
    }
  }

  lemma FailMeans(v: Naive, p: PlanId, error: UserFacingError)
    requires v.justFinished == None
    ensures PlanFailedBy(v, p, error, FailPlan(v, p, error))
  {
  }

  // ----- finishing -----

  lemma OwnerIsOne(v: Naive, p: PlanId, q: PlanId, t: TransferId)
    requires Valid(v) && p in v.plans && q in v.plans && t in JobsOf(v.plans[p]) && t in JobsOf(v.plans[q])
    ensures p == q
  {
    assert p != q ==> PlansApart(v, p, q);
  }

  /** Only the owner of the job can end, and a root without children has none. */
  lemma OnlyOwnerEnds(v: Naive, p: PlanId, t: TransferId, w: Naive)
    requires Valid(v) && Owns(v, p, t)
    ensures forall q :: EndsHere(v, q, t, w) ==> q == p
    ensures forall q :: !ChildlessRoot(v, q, t)
  {
    forall q
      ensures EndsHere(v, q, t, w) ==> q == p
      ensures !ChildlessRoot(v, q, t)
    {
      if q in v.plans && t in JobsOf(v.plans[q]) {
        OwnerIsOne(v, p, q, t);
      }
    }
  }

  lemma ClosedFinishes(v: Naive, t: TransferId, state: JobState, p: PlanId)
    requires Valid(v) && v.justFinished == None && JobTerminal(state) && Owns(v, p, t)
    requires !PlanTerminal(v.plans[p].head.state) && AllChildrenDone(Landed(v, t, state), p)
    ensures JobFinished(v, t, state, ClosePlan(Landed(v, t, state), p))
  {
    var l := Landed(v, t, state);
    var w := ClosePlan(l, p);
    assert PlanBacked(v, p);
    ClosedOutcome(v, l, p);
    ClosedFields(v, l, p);
    OnlyOwnerEnds(v, p, t, w);
    ClosingFinishes(v, t, state, p, w);
  }

  lemma ClosedFields(v: Naive, l: Naive, p: PlanId)
    requires p in v.plans && l.plans == v.plans && AllChildrenDone(l, p)
    ensures var w := ClosePlan(l, p);
            && w.plans.Keys == v.plans.Keys && (forall q | q in v.plans && q != p :: w.plans[q] == v.plans[q])
            && w.jobs.Keys == l.jobs.Keys
            && (forall u | u in l.jobs && u != v.plans[p].head.rootJobId :: w.jobs[u] == l.jobs[u])
            && w.conflicts == l.conflicts && w.justFinished == Some(p)
  {
  }

  lemma ClosingFinishes(v: Naive, t: TransferId, state: JobState, p: PlanId, w: Naive)
    requires EndsHere(v, p, t, w) && w.plans.Keys == v.plans.Keys && w.jobs.Keys == v.jobs.Keys
    requires forall q :: EndsHere(v, q, t, w) ==> q == p
    requires forall q :: !ChildlessRoot(v, q, t)
    requires v.plans[p].head.rootJobId in v.jobs && TookOutcome(v, p, w)
    requires forall q | q in v.plans && q != p :: w.plans[q] == v.plans[q]
    requires forall u | u in v.jobs && u != v.plans[p].head.rootJobId ::
               w.jobs[u] == if u == t then v.jobs[u].(state := state) else v.jobs[u]
    requires forall c :: c in w.conflicts <==> c in v.conflicts && c.transferId != t
    requires w.justFinished == Some(p)
    ensures JobFinished(v, t, state, w)
  {
    ClosedPlans(v, t, p, w);
    ClosedJobs(v, t, state, p, w);
    forall q: PlanId
      ensures q in v.plans && v.plans[q].children == {} ==> v.plans[q].head.rootJobId != t
    {
      assert !ChildlessRoot(v, q, t);
    }
  }

  lemma ClosedOutcome(v: Naive, l: Naive, p: PlanId)
    requires p in v.plans && l.plans == v.plans && l.jobs.Keys == v.jobs.Keys && PlanBacked(v, p)
    requires v.plans[p].head.rootJobId in v.jobs
             && l.jobs[v.plans[p].head.rootJobId] == v.jobs[v.plans[p].head.rootJobId]
    requires AllChildrenDone(l, p)
    ensures TookOutcome(v, p, ClosePlan(l, p))
    ensures forall c | c in v.plans[p].children :: c in l.jobs && ClosePlan(l, p).jobs[c] == l.jobs[c]
  {
  }

  lemma ClosedPlans(v: Naive, t: TransferId, p: PlanId, w: Naive)
    requires EndsHere(v, p, t, w) && forall q :: EndsHere(v, q, t, w) ==> q == p
    requires v.plans[p].head.rootJobId in v.jobs && v.plans[p].head.rootJobId in w.jobs && w.plans.Keys == v.plans.Keys
    requires TookOutcome(v, p, w)
    requires forall q | q in v.plans && q != p :: w.plans[q] == v.plans[q]
    ensures FinishedPlans(v, t, w)
  {
  }

  lemma ClosedJobs(v: Naive, t: TransferId, state: JobState, p: PlanId, w: Naive)
    requires EndsHere(v, p, t, w) && w.jobs.Keys == v.jobs.Keys
    requires forall u | u in v.jobs && u != v.plans[p].head.rootJobId ::
               w.jobs[u] == if u == t then v.jobs[u].(state := state) else v.jobs[u]
    ensures FinishedJobs(v, t, state, w)
  {
    forall u | u in v.jobs && !RootEndsHere(v, u, t, w)
      ensures w.jobs[u] == if u == t then v.jobs[u].(state := state) else v.jobs[u]
    {
      assert u != v.plans[p].head.rootJobId;
    }
  }

  /** No plan ends: the job has landed and that is all, but for the report. */
  lemma OpenFinishes(v: Naive, t: TransferId, state: JobState, w: Naive)
    requires w == Landed(v, t, state).(justFinished := w.justFinished)
    requires forall p :: !EndsHere(v, p, t, w)
    requires forall p: PlanId :: w.justFinished == Some(p) <==> ChildlessRoot(v, p, t)
    ensures JobFinished(v, t, state, w)
  {
  }

  lemma NothingEnds(v: Naive, t: TransferId, state: JobState, w: Naive)
    requires w.jobs == Landed(v, t, state).jobs
    requires forall p | Owns(v, p, t) ::
               PlanTerminal(v.plans[p].head.state) || !AllChildrenDone(Landed(v, t, state), p)
    ensures forall p :: !EndsHere(v, p, t, w)
  {
    forall p
      ensures !EndsHere(v, p, t, w)
    {
      if EndsHere(v, p, t, w) {
        assert Owns(v, p, t);
        assert AllChildrenDone(Landed(v, t, state), p);
      }
    }
  }

  lemma FinishMeans(v: Naive, t: TransferId, state: JobState)
    requires Valid(v) && v.justFinished == None && JobTerminal(state)
    ensures JobFinished(v, t, state, FinishJob(v, t, state))
  {
    var l := Landed(v, t, state);
    LandedKeepsValid(v, t, state);
    if p :| Owns(v, p, t) {
      assert Owns(l, p, t);
      SettleOwned(l, p, t);
      OnlyOwnerEnds(v, p, t, l);
      if !PlanTerminal(v.plans[p].head.state) && AllChildrenDone(l, p) {
        ClosedFinishes(v, t, state, p);
      } else {
        assert forall q | Owns(v, q, t) :: q == p by {
          forall q | Owns(v, q, t) ensures q == p { OwnerUnique(v, p, q, t); }
        }
        NothingEnds(v, t, state, l);
        OpenFinishes(v, t, state, l);
      }
    } else {
      UnownedFinishes(v, l, t);
      NothingEnds(v, t, state, FinishJob(v, t, state));
      OpenFinishes(v, t, state, FinishJob(v, t, state));
    }
  }

  lemma OwnerUnique(v: Naive, p: PlanId, q: PlanId, t: TransferId)
    requires Valid(v) && Owns(v, p, t) && Owns(v, q, t)
    ensures p == q
  {
    OwnerIsOne(v, p, q, t);
  }

  lemma UnownedFinishes(v: Naive, l: Naive, t: TransferId)
    requires Valid(l) && l.plans == v.plans && l.justFinished == None && forall p :: !Owns(v, p, t)
    ensures SettlePlan(l, t) == l.(justFinished := SettlePlan(l, t).justFinished)
    ensures forall p: PlanId :: SettlePlan(l, t).justFinished == Some(p) <==> ChildlessRoot(v, p, t)
  {
    assert forall p :: !Owns(l, p, t) by {
      assert forall p :: Owns(l, p, t) ==> Owns(v, p, t);
    }
    forall p: PlanId
      ensures SettlePlan(l, t).justFinished == Some(p) <==> ChildlessRoot(v, p, t)
    {
      assert ChildlessRoot(l, p, t) <==> ChildlessRoot(v, p, t);
      if ChildlessRoot(l, p, t) {
        SettleChildlessRoot(l, p, t);
      }
    }
  }

  /** The reducer does to every field what its event says. */
  lemma ApplyMeans(v: Naive, e: Event, now: Timestamp)
    requires Valid(v) && WellFormed(v, e)
    ensures Means(v, e, now, Apply(v, e, now))
  {
    var u := v.(justFinished := None);
    OtherJobsKeepValid(v, u);
    if IsPlanEvent(e) {
      PlanEventMeans(u, e, now);
    } else {
      JobEventMeans(u, e, now);
    }
  }

  lemma PlanEventMeans(v: Naive, e: Event, now: Timestamp)
    requires IsPlanEvent(e) && Valid(v) && WellFormed(v, e) && v.justFinished == None
    ensures Effect(v, e, now, Reduce(v, e, now))
  {
    match e
    case PlanStartedEvent(plan, root) => StartMeans(v, plan, root);
    case PlanProgressEvent(p, batch, count, bytes) => ExtendMeans(v, p, batch, count, bytes);
    case PlanCompletedEvent(p) => EndPlanningMeans(v, p);
    case PlanCancelledEvent(p) => CancelMeans(v, p);
    case PlanFailedEvent(p, error) => FailMeans(v, p, error);
  }

  lemma JobEventMeans(v: Naive, e: Event, now: Timestamp)
    requires !IsPlanEvent(e) && Valid(v) && v.justFinished == None
    ensures Effect(v, e, now, Reduce(v, e, now))
  {
    match e
    case RunningEvent(job) =>
    case ConflictEvent(_, _, _, _, _, _, _) => ConflictMeans(v, NewConflict(e, now));
    case ProgressEvent(t, done, total) => ProgressMeans(v, t, done, total, now);
    case WarningEvent(warning) => WarningMeans(v, warning, now);
    case CompletedEvent(t) => FinishMeans(v, t, Completed);
    case SkippedEvent(t) => FinishMeans(v, t, Skipped);
    case FailedEvent(t, error) => FinishMeans(v, t, Failed(error, error.retryable));
  }
}
