/**
 The transfer reducer in its simplest form: jobs in a map, each plan with a set
 of children, every operation a scan of the whole map. Nothing here is ordered,
 searched or sliced. The store of the program is proved against this one.
 */
module NaiveTransfers {
  import opened Common
  import opened IdMatching
  import opened Transfers

  /** A plan whose published children are a set; `head.childJobs` is unused and empty. */
  datatype NaivePlan = NaivePlan(head: Plan, children: set<TransferId>)

  datatype Naive = Naive(
    plans: map<PlanId, NaivePlan>,
    jobs: map<TransferId, Job>,
    conflicts: seq<Conflict>,
    justFinished: Option<PlanId>)

  const EMPTY := Naive(map[], map[], [], None)

  function SetOf(ids: seq<TransferId>): set<TransferId> {
    set x | x in ids
  }

  // ----- job maps -----

  function AddIfAbsent(jobs: map<TransferId, Job>, job: Job): map<TransferId, Job> {
    if job.id in jobs then jobs else jobs[job.id := job]
  }

  function AddAbsent(jobs: map<TransferId, Job>, batch: seq<Job>): map<TransferId, Job> {
    if batch == [] then jobs
    else AddIfAbsent(AddAbsent(jobs, batch[..|batch| - 1]), batch[|batch| - 1])
  }

  function SetStates(jobs: map<TransferId, Job>, ids: set<TransferId>, state: JobState): map<TransferId, Job> {
    map id | id in jobs :: if id in ids then jobs[id].(state := state) else jobs[id]
  }

  function SkipUnfinished(jobs: map<TransferId, Job>, ids: set<TransferId>): map<TransferId, Job> {
    map id | id in jobs ::
      if id in ids && !JobTerminal(jobs[id].state) then jobs[id].(state := Skipped) else jobs[id]
  }

  // ----- looking plans up by scanning all of them -----

  ghost predicate Owns(v: Naive, p: PlanId, t: TransferId) {
    p in v.plans && t in v.plans[p].children
  }

  ghost predicate ChildlessRoot(v: Naive, p: PlanId, t: TransferId) {
    p in v.plans && v.plans[p].head.rootJobId == t && v.plans[p].children == {}
  }

  ghost function JobsOf(plan: NaivePlan): set<TransferId> {
    {plan.head.rootJobId} + plan.children
  }

  // ----- one function per event -----

  ghost function StartPlan(v: Naive, plan: Plan, rootJob: Job): Naive {
    v.(plans := if plan.id in v.plans then v.plans
                else v.plans[plan.id := NaivePlan(plan.(childJobs := []), SetOf(plan.childJobs))],
       jobs := AddIfAbsent(v.jobs, rootJob))
  }

  function BatchIds(batch: seq<Job>): set<TransferId> {
    set j | j in batch :: j.id
  }

  ghost function GrowPlan(plan: NaivePlan, batch: seq<Job>, count: nat, bytes: Option<nat>): NaivePlan {
    var head := if count > plan.head.plannedCount
                then plan.head.(plannedCount := count, totalBytes := bytes) else plan.head;
    NaivePlan(head, plan.children + BatchIds(batch))
  }

  ghost function ExtendPlan(v: Naive, p: PlanId, batch: seq<Job>, count: nat, bytes: Option<nat>): Naive {
    if p in v.plans && PlanTerminal(v.plans[p].head.state) then v
    else v.(plans := if p in v.plans then v.plans[p := GrowPlan(v.plans[p], batch, count, bytes)] else v.plans,
            jobs := AddAbsent(v.jobs, batch))
  }

  ghost function WithPlanState(v: Naive, p: PlanId, state: PlanState): Naive
    requires p in v.plans
  {
    v.(plans := v.plans[p := v.plans[p].(head := v.plans[p].head.(state := state))])
  }

  ghost function EndPlanning(v: Naive, p: PlanId): Naive {
    if p !in v.plans || PlanTerminal(v.plans[p].head.state) then v
    else
      var plan := v.plans[p];
      var empty := plan.children == {};
      WithPlanState(v, p, if empty then PlanCompleted else PlanQueued)
      .(jobs := SetStates(v.jobs, {plan.head.rootJobId}, if empty then Completed else Queued))
  }

  ghost function CancelPlan(v: Naive, p: PlanId): Naive {
    if p !in v.plans || v.plans[p].head.state.PlanCancelled? || v.plans[p].head.state.PlanFailed? then v
    else
      var jobs := SkipUnfinished(v.jobs, JobsOf(v.plans[p]));
      if jobs == v.jobs then v
      else WithPlanState(v, p, PlanCancelled).(jobs := jobs, justFinished := Some(p))
  }

  ghost function FailPlan(v: Naive, p: PlanId, error: UserFacingError): Naive {
    if p !in v.plans then v
    else
      var failed := WithPlanState(v, p, PlanFailed(error))
                    .(jobs := SetStates(v.jobs, JobsOf(v.plans[p]), Failed(error, error.retryable)));
      if Same(failed, v) then failed else failed.(justFinished := Some(p))
  }

  ghost function UpsertConflict(conflicts: seq<Conflict>, c: Conflict): (r: seq<Conflict>)
  {
    if conflicts == [] then [c]
    else if conflicts[0].id == c.id then [c] + conflicts[1..]
    else [conflicts[0]] + UpsertConflict(conflicts[1..], c)
  }

  ghost function RaiseConflict(v: Naive, c: Conflict): Naive {
    v.(jobs := SetStates(v.jobs, {c.transferId}, WaitingForConflict(c.planId, c.id)),
       conflicts := UpsertConflict(v.conflicts, c))
  }

  ghost function ReportProgress(v: Naive, t: TransferId, done: nat, total: Option<nat>, now: Timestamp): Naive {
    if t !in v.jobs || JobTerminal(v.jobs[t].state) || v.jobs[t].state.Cancelling? then v
    else
      var started := if v.jobs[t].state.Running? then v.jobs[t].state.startedAt else now;
      v.(jobs := SetStates(v.jobs, {t}, Running(done, total, started)))
  }

  ghost function AddWarning(v: Naive, w: Warning): Naive {
    if w.transferId !in v.jobs || w in v.jobs[w.transferId].warnings then v
    else
      var job := v.jobs[w.transferId];
      v.(jobs := v.jobs[w.transferId := job.(warnings := job.warnings + [w])])
  }

  ghost function SetJob(v: Naive, job: Job): Naive {
    v.(jobs := v.jobs[job.id := job])
  }

  ghost predicate AllChildrenDone(v: Naive, p: PlanId)
    requires p in v.plans
  {
    forall c | c in v.plans[p].children :: c in v.jobs && JobTerminal(v.jobs[c].state)
  }

  ghost predicate SomeChildFailed(v: Naive, p: PlanId)
    requires p in v.plans
  {
    exists c :: c in v.plans[p].children && c in v.jobs && v.jobs[c].state.Failed?
  }

  /** The plan's last child landed: the plan and its root take the outcome of the children. */
  ghost function ClosePlan(v: Naive, p: PlanId): Naive
    requires p in v.plans
  {
    var failed := SomeChildFailed(v, p);
    WithPlanState(v, p, if failed then PlanFailed(SOME_FILES_FAILED) else PlanCompleted)
    .(jobs := SetStates(v.jobs, {v.plans[p].head.rootJobId},
                        if failed then Failed(SOME_FILES_FAILED, true) else Completed),
      justFinished := Some(p))
  }

  ghost function SettlePlan(v: Naive, t: TransferId): Naive {
    if p :| Owns(v, p, t) then
      if !PlanTerminal(v.plans[p].head.state) && AllChildrenDone(v, p) then ClosePlan(v, p) else v
    else if p :| ChildlessRoot(v, p, t) then v.(justFinished := Some(p))
    else v
  }

  function OfOtherJobs(t: TransferId): Conflict -> bool {
    (c: Conflict) => c.transferId != t
  }

  /** A job reached its end and its conflicts are gone, before its plan is looked at. */
  ghost function Landed(v: Naive, t: TransferId, state: JobState): Naive {
    v.(jobs := SetStates(v.jobs, {t}, state), conflicts := Retain(v.conflicts, OfOtherJobs(t)))
  }

  ghost function FinishJob(v: Naive, t: TransferId, state: JobState): Naive {
    SettlePlan(Landed(v, t, state), t)
  }

  ghost function Apply(v: Naive, e: Event, now: Timestamp): Naive {
    Reduce(v.(justFinished := None), e, now)
  }

  /** What the event does once the last report is forgotten. */
  ghost function Reduce(v: Naive, e: Event, now: Timestamp): Naive {
    match e
    case PlanStartedEvent(plan, rootJob) => StartPlan(v, plan, rootJob)
    case PlanProgressEvent(p, batch, count, bytes) => ExtendPlan(v, p, batch, count, bytes)
    case PlanCompletedEvent(p) => EndPlanning(v, p)
    case PlanCancelledEvent(p) => CancelPlan(v, p)
    case PlanFailedEvent(p, error) => FailPlan(v, p, error)
    case RunningEvent(job) => SetJob(v, job)
    case ConflictEvent(_, _, _, _, _, _, _) => RaiseConflict(v, NewConflict(e, now))
    case ProgressEvent(t, done, total) => ReportProgress(v, t, done, total, now)
    case WarningEvent(w) => AddWarning(v, w)
    case CompletedEvent(t) => FinishJob(v, t, Completed)
    case SkippedEvent(t) => FinishJob(v, t, Skipped)
    case FailedEvent(t, error) => FinishJob(v, t, Failed(error, error.retryable))
  }

  /** Equal plans, jobs and pending conflicts; `justFinished` only describes the last event. */
  ghost predicate Same(a: Naive, b: Naive) {
    a.plans == b.plans && a.jobs == b.jobs && a.conflicts == b.conflicts
  }

  // ----- invariant and well-formed events -----

  ghost predicate DistinctConflicts(conflicts: seq<Conflict>) {
    forall i, j | 0 <= i < j < |conflicts| :: conflicts[i].id != conflicts[j].id
  }

  ghost predicate JobsKeyed(jobs: map<TransferId, Job>) {
    forall t | t in jobs :: jobs[t].id == t
  }

  /** Every root and every child of a plan has a job. */
  ghost predicate PlanBacked(v: Naive, p: PlanId)
    requires p in v.plans
  {
    && v.plans[p].head.id == p && v.plans[p].head.childJobs == []
    && JobsOf(v.plans[p]) <= v.jobs.Keys
    && v.plans[p].head.rootJobId !in v.plans[p].children
  }

  ghost predicate PlansApart(v: Naive, p: PlanId, q: PlanId)
    requires p in v.plans && q in v.plans
  {
    JobsOf(v.plans[p]) !! JobsOf(v.plans[q])
  }

  ghost predicate Valid(v: Naive) {
    && JobsKeyed(v.jobs)
    && DistinctConflicts(v.conflicts)
    && (forall p | p in v.plans :: PlanBacked(v, p))
    && (forall p, q | p in v.plans && q in v.plans && p != q :: PlansApart(v, p, q))
  }

  /** `id` is neither the root nor a child of a plan other than `p`, nor the root of `p`. */
  ghost predicate FreeFor(v: Naive, p: PlanId, id: TransferId) {
    && (forall q | q in v.plans && q != p :: id !in JobsOf(v.plans[q]))
    && (p in v.plans ==> v.plans[p].head.rootJobId != id)
  }

  ghost predicate AscendingBatch(batch: seq<Job>) {
    forall i, j | 0 <= i < j < |batch| :: batch[i].id < batch[j].id
  }

  /**
   What the planner guarantees of an event, given the state it arrives in: a
   plan starts without children under an unused root id, and a progress batch is
   ascending, each id being a known child or a fresh id above the last child.
   */
  ghost predicate WellFormed(v: Naive, e: Event) {
    match e
    case PlanStartedEvent(plan, rootJob) =>
      && plan.childJobs == [] && rootJob.id == plan.rootJobId
      && (plan.id in v.plans || FreeFor(v, plan.id, plan.rootJobId))
    case PlanProgressEvent(p, batch, _, _) =>
      (p in v.plans && PlanTerminal(v.plans[p].head.state)) || GoodBatch(v, p, batch)
    case _ => true
  }

  ghost predicate GoodBatch(v: Naive, p: PlanId, batch: seq<Job>) {
    && AscendingBatch(batch)
    && (p in v.plans ==>
          forall i | 0 <= i < |batch| :: batch[i].id in v.plans[p].children || GoodNewChild(v, p, batch[i].id))
  }

  ghost predicate GoodNewChild(v: Naive, p: PlanId, id: TransferId)
    requires p in v.plans
  {
    FreeFor(v, p, id) && forall c | c in v.plans[p].children :: c < id
  }
}
