/**
 The vectors behind the transfer store: how they read as maps, how they are
 searched, and why the contiguous slice and the appended batch are exact.
 */
module TransferVectors {
  import opened Common
  import opened IdMatching
  import opened Transfers
  import opened NaiveTransfers
  import opened TransferTheorems
  import opened TransferMeanings

  datatype StoreValue = StoreValue(
    plans: seq<Plan>, jobs: seq<Job>, conflicts: seq<Conflict>, justFinished: Option<PlanId>)

  // ----- the naive reading of the vectors -----

  function JobIds(jobs: seq<Job>): (ids: seq<TransferId>)
    ensures |ids| == |jobs| && forall i | 0 <= i < |jobs| :: ids[i] == jobs[i].id
  {
    seq(|jobs|, i requires 0 <= i < |jobs| => jobs[i].id)
  }

  ghost predicate JobsAscending(jobs: seq<Job>) {
    forall i, j | 0 <= i < j < |jobs| :: jobs[i].id < jobs[j].id
  }

  ghost function JobMap(jobs: seq<Job>): map<TransferId, Job> {
    map t | t in SetOf(JobIds(jobs)) :: jobs[Position(jobs, t).value]
  }

  /** `m` is the map view of the vector. */
  ghost predicate ReadsAs(jobs: seq<Job>, m: map<TransferId, Job>) {
    && (forall i | 0 <= i < |jobs| :: jobs[i].id in m && m[jobs[i].id] == jobs[i])
    && m.Keys <= SetOf(JobIds(jobs))
  }

  lemma JobMapReads(jobs: seq<Job>)
    requires JobsAscending(jobs)
    ensures ReadsAs(jobs, JobMap(jobs))
  {
  }

  lemma ReadsAsIsJobMap(jobs: seq<Job>, m: map<TransferId, Job>)
    requires JobsAscending(jobs) && ReadsAs(jobs, m)
    ensures m == JobMap(jobs)
  {
  }

  function NaiveOf(plan: Plan): NaivePlan {
    NaivePlan(plan.(childJobs := []), SetOf(plan.childJobs))
  }

  ghost predicate PlansDistinct(plans: seq<Plan>) {
    forall i, j | 0 <= i < j < |plans| :: plans[i].id != plans[j].id
  }

  function WithId(p: PlanId): Plan -> bool {
    (plan: Plan) => plan.id == p
  }

  function PlanIds(plans: seq<Plan>): (ids: seq<PlanId>)
    ensures |ids| == |plans| && forall i | 0 <= i < |plans| :: ids[i] == plans[i].id
  {
    seq(|plans|, i requires 0 <= i < |plans| => plans[i].id)
  }

  ghost function PlanMap(plans: seq<Plan>): map<PlanId, NaivePlan> {
    map p | p in PlanIds(plans) :: NaiveOf(plans[FirstIndex(plans, WithId(p)).value])
  }

  ghost predicate PlansReadAs(plans: seq<Plan>, m: map<PlanId, NaivePlan>) {
    && (forall i | 0 <= i < |plans| :: plans[i].id in m && m[plans[i].id] == NaiveOf(plans[i]))
    && (forall p | p in m :: p in PlanIds(plans))
  }

  lemma PlanMapReads(plans: seq<Plan>)
    requires PlansDistinct(plans)
    ensures PlansReadAs(plans, PlanMap(plans))
  {
  }

  lemma PlansReadAsIsPlanMap(plans: seq<Plan>, m: map<PlanId, NaivePlan>)
    requires PlansDistinct(plans) && PlansReadAs(plans, m)
    ensures m == PlanMap(plans)
  {
  }

  ghost predicate Ordered(s: StoreValue) {
    && JobsAscending(s.jobs)
    && PlansDistinct(s.plans)
    && forall i | 0 <= i < |s.plans| :: Ascending(s.plans[i].childJobs)
  }

  ghost function View(s: StoreValue): Naive {
    Naive(PlanMap(s.plans), JobMap(s.jobs), s.conflicts, s.justFinished)
  }

  /** Jobs and children strictly ascending, and the naive invariant on top. */
  ghost predicate Good(s: StoreValue) {
    Ordered(s) && Valid(View(s))
  }

  /** Plans keep their place; none moves down, loses a child, or changes once terminal. */
  ghost predicate PlansOnlyRise(a: seq<Plan>, b: seq<Plan>) {
    && |a| <= |b|
    && forall i | 0 <= i < |a| :: PlanOnlyRises(a[i], b[i])
  }

  ghost predicate PlanOnlyRises(a: Plan, b: Plan) {
    && b.id == a.id && b.rootJobId == a.rootJobId
    && a.childJobs <= b.childJobs
    && Rank(a.state) <= Rank(b.state)
    && (PlanTerminal(a.state) ==>
          b.childJobs == a.childJobs && b.plannedCount == a.plannedCount && b.totalBytes == a.totalBytes)
  }

  // ----- searching -----

  function Position(jobs: seq<Job>, id: TransferId): (r: Option<nat>)
    ensures r.Some? ==> r.value < |jobs| && jobs[r.value].id == id
    ensures r.None? ==> forall i | 0 <= i < |jobs| :: jobs[i].id != id
  {
    FirstIndex(jobs, (job: Job) => job.id == id)
  }

  /** Binary search first, a linear scan when it misses: right on every vector, ordered or not. */
  function FindJobIndex(jobs: seq<Job>, id: TransferId): (r: Option<nat>)
    ensures r.Some? ==> r.value < |jobs| && jobs[r.value].id == id
    ensures r.None? ==> forall i | 0 <= i < |jobs| :: jobs[i].id != id
  {
    match Search(JobIds(jobs), id)
    case Found(i) => Some(i)
    case Missing(_) => Position(jobs, id)
  }

  // ----- the contiguous-slice shortcut -----

  /** `child_jobs_slice_range`: first and last index of the jobs of these children, when they are contiguous. */
  function SliceRange(children: seq<TransferId>, jobs: seq<Job>): (r: Option<(nat, nat)>)
    ensures r.Some? ==> r.value.0 <= r.value.1 < |jobs| && r.value.1 - r.value.0 + 1 == |children|
  {
    if children == [] then None
    else match (FindJobIndex(jobs, children[0]), FindJobIndex(jobs, children[|children| - 1]))
      case (Some(lo), Some(hi)) => if hi >= lo && hi - lo + 1 == |children| then Some((lo, hi)) else None
      case _ => None
  }

  ghost predicate HaveJobs(children: seq<TransferId>, jobs: seq<Job>) {
    forall k | 0 <= k < |children| :: exists i :: 0 <= i < |jobs| && jobs[i].id == children[k]
  }

  lemma {:induction false} NotLeftOf(children: seq<TransferId>, jobs: seq<Job>, lo: nat, k: nat, i: nat)
    requires JobsAscending(jobs) && Ascending(children) && HaveJobs(children, jobs)
    requires k < |children| && i < |jobs| && jobs[i].id == children[k]
    requires lo < |jobs| && jobs[lo].id == children[0]
    ensures i >= lo + k
    decreases k
  {
    if k == 0 {
      assert i == lo;
    } else {
      var h :| 0 <= h < |jobs| && jobs[h].id == children[k - 1];
      NotLeftOf(children, jobs, lo, k - 1, h);
      assert h < i;
    }
  }

  lemma {:induction false} NotRightOf(children: seq<TransferId>, jobs: seq<Job>, hi: nat, k: nat, i: nat)
    requires JobsAscending(jobs) && Ascending(children) && HaveJobs(children, jobs)
    requires k < |children| && i < |jobs| && jobs[i].id == children[k]
    requires hi < |jobs| && jobs[hi].id == children[|children| - 1]
    ensures i + (|children| - 1 - k) <= hi
    decreases |children| - k
  {
    if k == |children| - 1 {
      assert i == hi;
    } else {
      var h :| 0 <= h < |jobs| && jobs[h].id == children[k + 1];
      NotRightOf(children, jobs, hi, k + 1, h);
      assert i < h;
    }
  }

  /** The slice and the children go in step. */
  lemma SliceInStep(children: seq<TransferId>, jobs: seq<Job>)
    requires JobsAscending(jobs) && Ascending(children) && HaveJobs(children, jobs)
    requires SliceRange(children, jobs).Some?
    ensures forall k | 0 <= k < |children| :: jobs[SliceRange(children, jobs).value.0 + k].id == children[k]
  {
    var (lo, hi) := SliceRange(children, jobs).value;
    assert jobs[lo].id == children[0] && jobs[hi].id == children[|children| - 1];
    forall k | 0 <= k < |children|
      ensures jobs[lo + k].id == children[k]
    {
      var i :| 0 <= i < |jobs| && jobs[i].id == children[k];
      NotLeftOf(children, jobs, lo, k, i);
      NotRightOf(children, jobs, hi, k, i);
    }
  }

  /** The slice holds exactly the jobs of the children. */
  lemma SliceIsChildren(children: seq<TransferId>, jobs: seq<Job>)
    requires JobsAscending(jobs) && Ascending(children) && HaveJobs(children, jobs)
    requires SliceRange(children, jobs).Some?
    ensures var (lo, hi) := SliceRange(children, jobs).value;
            forall i | 0 <= i < |jobs| :: lo <= i <= hi <==> jobs[i].id in children
  {
    var (lo, hi) := SliceRange(children, jobs).value;
    SliceInStep(children, jobs);
    InStepIsMembership(children, jobs, lo);
  }

  lemma InStepIsMembership(children: seq<TransferId>, jobs: seq<Job>, lo: nat)
    requires JobsAscending(jobs) && lo + |children| <= |jobs|
    requires forall k | 0 <= k < |children| :: jobs[lo + k].id == children[k]
    ensures forall i | 0 <= i < |jobs| :: lo <= i < lo + |children| <==> jobs[i].id in children
  {
    forall i | 0 <= i < |jobs|
      ensures lo <= i < lo + |children| <==> jobs[i].id in children
    {
      if lo <= i < lo + |children| {
        assert jobs[lo + (i - lo)].id == children[i - lo];
      }
      if k :| 0 <= k < |children| && children[k] == jobs[i].id {
        assert jobs[lo + k].id == jobs[i].id;
      }
    }
  }

  // ----- vectors and maps -----

  /** `after` is `jobs` with `job` put in at `pos`. */
  ghost predicate Inserted(jobs: seq<Job>, pos: nat, job: Job, after: seq<Job>) {
    && |after| == |jobs| + 1 && pos <= |jobs| && after[pos] == job
    && (forall i | 0 <= i < pos :: after[i] == jobs[i])
    && (forall i | pos < i < |after| :: after[i] == jobs[i - 1])
  }

  lemma InsertKeepsOrder(jobs: seq<Job>, pos: nat, job: Job, after: seq<Job>)
    requires JobsAscending(jobs) && Inserted(jobs, pos, job, after)
    requires forall i | 0 <= i < pos :: jobs[i].id < job.id
    requires forall i | pos <= i < |jobs| :: job.id < jobs[i].id
    ensures JobsAscending(after)
  {
  }

  lemma InsertedIds(jobs: seq<Job>, pos: nat, job: Job, after: seq<Job>)
    requires Inserted(jobs, pos, job, after)
    ensures SetOf(JobIds(jobs)) + {job.id} <= SetOf(JobIds(after))
  {
    forall i | 0 <= i < |jobs|
      ensures JobIds(jobs)[i] in JobIds(after)
    {
      assert JobIds(after)[if i < pos then i else i + 1] == jobs[i].id;
    }
    assert JobIds(after)[pos] == job.id;
  }

  lemma InsertReads(jobs: seq<Job>, pos: nat, job: Job, after: seq<Job>, m: map<TransferId, Job>)
    requires ReadsAs(jobs, m) && job.id !in m && Inserted(jobs, pos, job, after)
    ensures ReadsAs(after, m[job.id := job])
  {
    InsertedIds(jobs, pos, job, after);
    forall i | 0 <= i < |after| && i != pos
      ensures after[i].id in m && m[after[i].id] == after[i]
    {
      assert after[i] == jobs[if i < pos then i else i - 1];
    }
  }

  lemma InsertAt(jobs: seq<Job>, pos: nat, job: Job, after: seq<Job>)
    requires JobsAscending(jobs) && Splits(JobIds(jobs), job.id, pos) && Inserted(jobs, pos, job, after)
    ensures JobsAscending(after)
    ensures job.id !in JobMap(jobs)
    ensures JobMap(after) == JobMap(jobs)[job.id := job]
  {
    var ids := JobIds(jobs);
    assert forall i | 0 <= i < |jobs| :: ids[i] == jobs[i].id;
    assert job.id !in ids;
    InsertKeepsOrder(jobs, pos, job, after);
    JobMapReads(jobs);
    InsertReads(jobs, pos, job, after, JobMap(jobs));
    ReadsAsIsJobMap(after, JobMap(jobs)[job.id := job]);
  }

  lemma ReplaceAt(jobs: seq<Job>, k: nat, job: Job)
    requires JobsAscending(jobs) && k < |jobs| && job.id == jobs[k].id
    ensures JobsAscending(jobs[k := job])
    ensures job.id in JobMap(jobs) && JobMap(jobs)[job.id] == jobs[k]
    ensures JobMap(jobs[k := job]) == JobMap(jobs)[job.id := job]
  {
    var after := jobs[k := job];
    JobMapReads(jobs);
    ReplacedReads(jobs, k, job, JobMap(jobs));
    ReadsAsIsJobMap(after, JobMap(jobs)[job.id := job]);
  }

  /** Setting the job a search found. */
  lemma FoundAndSet(jobs: seq<Job>, k: nat, job: Job)
    requires k < |jobs| && job.id == jobs[k].id
    ensures JobsAscending(jobs) ==>
              && JobsAscending(jobs[k := job])
              && job.id in JobMap(jobs)
              && JobMap(jobs[k := job]) == JobMap(jobs)[job.id := job]
              && (jobs[k] == job <==> JobMap(jobs)[job.id := job] == JobMap(jobs))
  {
    if JobsAscending(jobs) {
      ReplaceAt(jobs, k, job);
      assert JobMap(jobs)[job.id := job][job.id] == job;
    }
  }

  /** Putting a job where a search missed it. */
  lemma MissingAndPut(jobs: seq<Job>, pos: nat, job: Job)
    requires pos <= |jobs| && Search(JobIds(jobs), job.id) == Missing(pos)
    ensures var after := jobs[..pos] + [job] + jobs[pos..];
            JobsAscending(jobs) ==>
              && JobsAscending(after)
              && job.id !in JobMap(jobs)
              && JobMap(after) == JobMap(jobs)[job.id := job]
              && JobMap(after) != JobMap(jobs)
  {
    if JobsAscending(jobs) {
      IdsAscend(jobs);
      InsertAt(jobs, pos, job, jobs[..pos] + [job] + jobs[pos..]);
    }
  }

  lemma ReplacedReads(jobs: seq<Job>, k: nat, job: Job, m: map<TransferId, Job>)
    requires JobsAscending(jobs) && k < |jobs| && job.id == jobs[k].id && ReadsAs(jobs, m)
    ensures JobsAscending(jobs[k := job])
    ensures ReadsAs(jobs[k := job], m[job.id := job])
  {
    SameIds(jobs, jobs[k := job]);
  }

  lemma SameIds(before: seq<Job>, after: seq<Job>)
    requires |after| == |before| && forall i | 0 <= i < |before| :: after[i].id == before[i].id
    ensures JobIds(after) == JobIds(before)
  {
  }

  /** `after` is `before` with the jobs named in `ids` repainted. */
  ghost predicate Painted(before: seq<Job>, after: seq<Job>, ids: set<TransferId>, paint: Job -> Job) {
    && |after| == |before|
    && forall i | 0 <= i < |before| :: after[i] == if before[i].id in ids then paint(before[i]) else before[i]
  }

  lemma PaintedMap(before: seq<Job>, after: seq<Job>, ids: set<TransferId>, paint: Job -> Job, m: map<TransferId, Job>)
    requires JobsAscending(before) && Painted(before, after, ids, paint)
    requires forall j :: paint(j).id == j.id
    requires m.Keys == JobMap(before).Keys
    requires forall t | t in m :: m[t] == if t in ids then paint(JobMap(before)[t]) else JobMap(before)[t]
    ensures JobsAscending(after) && JobMap(after) == m
    ensures after == before <==> m == JobMap(before)
  {
    JobMapReads(before);
    PaintedReads(before, after, ids, paint, JobMap(before), m);
    ReadsAsIsJobMap(after, m);
  }

  lemma PaintedReads(before: seq<Job>, after: seq<Job>, ids: set<TransferId>, paint: Job -> Job,
                     m: map<TransferId, Job>, n: map<TransferId, Job>)
    requires JobsAscending(before) && Painted(before, after, ids, paint) && ReadsAs(before, m)
    requires forall j :: paint(j).id == j.id
    requires n.Keys == m.Keys && forall t | t in n :: n[t] == if t in ids then paint(m[t]) else m[t]
    ensures JobsAscending(after) && ReadsAs(after, n)
    ensures after == before <==> n == m
  {
    SameIds(before, after);
    if n == m {
      forall i | 0 <= i < |before|
        ensures after[i] == before[i]
      {
        assert after[i].id == before[i].id;
      }
    }
  }

  function SetTo(state: JobState): Job -> Job {
    (j: Job) => j.(state := state)
  }

  function SkipOpen(): Job -> Job {
    (j: Job) => if JobTerminal(j.state) then j else j.(state := Skipped)
  }

  lemma PlanReplaced(plans: seq<Plan>, k: nat, plan: Plan)
    requires PlansDistinct(plans) && k < |plans| && plan.id == plans[k].id
    ensures PlansDistinct(plans[k := plan])
    ensures plan.id in PlanMap(plans) && PlanMap(plans)[plan.id] == NaiveOf(plans[k])
    ensures PlanMap(plans[k := plan]) == PlanMap(plans)[plan.id := NaiveOf(plan)]
  {
    PlanMapReads(plans);
    ReplacedPlanReads(plans, k, plan, PlanMap(plans));
    PlansReadAsIsPlanMap(plans[k := plan], PlanMap(plans)[plan.id := NaiveOf(plan)]);
  }

  lemma ReplacedPlanReads(plans: seq<Plan>, k: nat, plan: Plan, m: map<PlanId, NaivePlan>)
    requires PlansDistinct(plans) && k < |plans| && plan.id == plans[k].id && PlansReadAs(plans, m)
    ensures PlansDistinct(plans[k := plan]) && PlansReadAs(plans[k := plan], m[plan.id := NaiveOf(plan)])
  {
    assert PlanIds(plans[k := plan]) == PlanIds(plans);
  }

  lemma PlanAppended(plans: seq<Plan>, plan: Plan)
    requires PlansDistinct(plans) && forall i | 0 <= i < |plans| :: plans[i].id != plan.id
    ensures PlansDistinct(plans + [plan])
    ensures plan.id !in PlanMap(plans)
    ensures PlanMap(plans + [plan]) == PlanMap(plans)[plan.id := NaiveOf(plan)]
  {
    PlanMapReads(plans);
    AppendedPlanReads(plans, plan, PlanMap(plans));
    PlansReadAsIsPlanMap(plans + [plan], PlanMap(plans)[plan.id := NaiveOf(plan)]);
  }

  lemma AppendedPlanReads(plans: seq<Plan>, plan: Plan, m: map<PlanId, NaivePlan>)
    requires PlansDistinct(plans) && forall i | 0 <= i < |plans| :: plans[i].id != plan.id
    requires PlansReadAs(plans, m)
    ensures PlansDistinct(plans + [plan]) && plan.id !in m
    ensures PlansReadAs(plans + [plan], m[plan.id := NaiveOf(plan)])
  {
    assert PlanIds(plans + [plan]) == PlanIds(plans) + [plan.id];
  }

  lemma IdsAscend(jobs: seq<Job>)
    requires JobsAscending(jobs)
    ensures NonDescending(JobIds(jobs))
  {
  }

  // ----- growing by a batch -----

  lemma AppendKeepsOrder(jobs: seq<Job>, batch: seq<Job>)
    requires JobsAscending(jobs) && AscendingBatch(batch)
    requires jobs != [] && batch != [] ==> jobs[|jobs| - 1].id < batch[0].id
    ensures JobsAscending(jobs + batch)
  {
  }

  lemma LastIsAbove(jobs: seq<Job>, batch: seq<Job>)
    requires JobsAscending(jobs) && AscendingBatch(batch) && batch != []
    requires jobs != [] ==> jobs[|jobs| - 1].id < batch[0].id
    ensures var front := jobs + batch[..|batch| - 1];
            forall i | 0 <= i < |front| :: front[i].id < batch[|batch| - 1].id
  {
  }

  lemma AppendAdds(jobs: seq<Job>, job: Job)
    requires JobsAscending(jobs) && forall i | 0 <= i < |jobs| :: jobs[i].id < job.id
    ensures JobMap(jobs + [job]) == AddIfAbsent(JobMap(jobs), job)
  {
    AppendOne(jobs, job);
  }

  lemma SplitLast(jobs: seq<Job>, batch: seq<Job>)
    requires batch != []
    ensures jobs + batch == (jobs + batch[..|batch| - 1]) + [batch[|batch| - 1]]
  {
  }

  lemma AppendLast(jobs: seq<Job>, batch: seq<Job>)
    requires JobsAscending(jobs) && AscendingBatch(batch) && batch != []
    requires jobs != [] ==> jobs[|jobs| - 1].id < batch[0].id
    ensures JobMap(jobs + batch) == AddIfAbsent(JobMap(jobs + batch[..|batch| - 1]), batch[|batch| - 1])
  {
    var rest := batch[..|batch| - 1];
    AppendKeepsOrder(jobs, rest);
    LastIsAbove(jobs, batch);
    AppendAdds(jobs + rest, batch[|batch| - 1]);
    SplitLast(jobs, batch);
  }

  lemma AddLast(m: map<TransferId, Job>, batch: seq<Job>)
    requires batch != []
    ensures AddAbsent(m, batch) == AddIfAbsent(AddAbsent(m, batch[..|batch| - 1]), batch[|batch| - 1])
  {
  }

  lemma {:induction false} AppendBatch(jobs: seq<Job>, batch: seq<Job>)
    requires JobsAscending(jobs) && AscendingBatch(batch)
    requires jobs != [] && batch != [] ==> jobs[|jobs| - 1].id < batch[0].id
    ensures JobMap(jobs + batch) == AddAbsent(JobMap(jobs), batch)
    decreases |batch|
  {
    if batch == [] {
      assert jobs + batch == jobs;
    } else {
      AppendBatch(jobs, batch[..|batch| - 1]);
      AppendLast(jobs, batch);
      AddLast(JobMap(jobs), batch);
    }
  }

  lemma FirstInBatch(batch: seq<Job>)
    requires batch != []
    ensures batch[0].id in BatchIds(batch)
  {
  }

  lemma AbsentFromMap(jobs: seq<Job>, id: TransferId)
    requires forall i | 0 <= i < |jobs| :: jobs[i].id != id
    ensures id !in JobMap(jobs)
  {
  }

  lemma AppendIsNew(jobs: seq<Job>, batch: seq<Job>)
    requires JobsAscending(jobs) && AscendingBatch(batch) && batch != []
    requires jobs != [] ==> jobs[|jobs| - 1].id < batch[0].id
    ensures AddAbsent(JobMap(jobs), batch) != JobMap(jobs)
  {
    AddAbsentMeans(JobMap(jobs), batch);
    FirstInBatch(batch);
    AbsentFromMap(jobs, batch[0].id);
    assert batch[0].id in AddAbsent(JobMap(jobs), batch).Keys;
  }

  lemma AppendOne(jobs: seq<Job>, job: Job)
    requires JobsAscending(jobs) && forall i | 0 <= i < |jobs| :: jobs[i].id < job.id
    ensures JobsAscending(jobs + [job])
    ensures job.id !in JobMap(jobs) && JobMap(jobs + [job]) == JobMap(jobs)[job.id := job]
  {
    var ids := JobIds(jobs);
    assert forall i | 0 <= i < |jobs| :: ids[i] == jobs[i].id;
    InsertAt(jobs, |jobs|, job, jobs + [job]);
  }

  /** The ids of a batch that are not children yet, in batch order. */
  function FreshIds(batch: seq<Job>, matcher: IdMatcher): seq<TransferId> {
    if batch == [] then []
    else
      var front := FreshIds(batch[..|batch| - 1], matcher);
      if Contains(matcher, batch[|batch| - 1].id) then front else front + [batch[|batch| - 1].id]
  }

  lemma {:induction false} FreshIdsMeans(batch: seq<Job>, children: seq<TransferId>)
    requires AscendingBatch(batch)
    ensures var added := FreshIds(batch, NewMatcher(children));
            && Ascending(added)
            && (forall x :: x in added <==> x in BatchIds(batch) && x !in children)
  {
    if batch != [] {
      var rest, last := batch[..|batch| - 1], batch[|batch| - 1];
      FreshIdsMeans(rest, children);
      MatcherIsMembership(children, last.id);
      assert BatchIds(batch) == BatchIds(rest) + {last.id} by {
        assert batch == rest + [last];
      }
      var front := FreshIds(rest, NewMatcher(children));
      forall i | 0 <= i < |front|
        ensures front[i] < last.id
      {
        assert front[i] in BatchIds(rest);
        var j :| j in rest && j.id == front[i];
      }
    }
  }

  lemma AppendAscending(a: seq<TransferId>, b: seq<TransferId>)
    requires Ascending(a) && Ascending(b) && forall x, y | x in a && y in b :: x < y
    ensures Ascending(a + b)
    ensures SetOf(a + b) == SetOf(a) + SetOf(b)
  {
    forall i, j | 0 <= i < j < |a + b|
      ensures (a + b)[i] < (a + b)[j]
    {
      if i < |a| <= j {
        assert a[i] in a && b[j - |a|] in b;
      }
    }
  }

  /** A plan may take this batch: known children and new ids above the last child. */
  ghost predicate Takes(children: seq<TransferId>, batch: seq<Job>) {
    && Ascending(children) && AscendingBatch(batch)
    && forall i | 0 <= i < |batch| :: batch[i].id in children || forall c | c in children :: c < batch[i].id
  }

  /** The slow path: the new child list is ascending and holds the old and the new ids. */
  lemma GrownBySearch(children: seq<TransferId>, batch: seq<Job>)
    requires Takes(children, batch)
    ensures var added := FreshIds(batch, NewMatcher(children));
            && Ascending(children + added)
            && SetOf(children + added) == SetOf(children) + BatchIds(batch)
            && (added == [] <==> BatchIds(batch) <= SetOf(children))
  {
    FreshIdsMeans(batch, children);
    var added := FreshIds(batch, NewMatcher(children));
    forall x, y | x in children && y in added
      ensures x < y
    {
      var j :| j in batch && j.id == y;
    }
    AppendAscending(children, added);
    if added != [] {
      assert added[0] in BatchIds(batch) && added[0] !in children;
    }
  }

  /** The fast path: a batch that starts above the last child is appended as it is. */
  lemma GrownByAppend(children: seq<TransferId>, batch: seq<Job>)
    requires Takes(children, batch) && batch != []
    requires children != [] ==> children[|children| - 1] < batch[0].id
    ensures Ascending(children + JobIds(batch))
    ensures SetOf(children + JobIds(batch)) == SetOf(children) + BatchIds(batch)
    ensures !(BatchIds(batch) <= SetOf(children))
  {
    var ids := JobIds(batch);
    assert forall i | 0 <= i < |batch| :: ids[i] == batch[i].id && ids[i] in BatchIds(batch);
    assert SetOf(ids) == BatchIds(batch);
    assert forall c | c in children :: c <= children[|children| - 1];
    AppendAscending(children, ids);
    assert ids[0] in BatchIds(batch) && ids[0] !in children;
  }

  /** A plan with its count, size and child list grown is the naive plan grown. */
  lemma GrownPlan(before: Plan, after: Plan, batch: seq<Job>, count: nat, bytes: Option<nat>, added: bool)
    requires after == (if count > before.plannedCount
                       then before.(plannedCount := count, totalBytes := bytes, childJobs := after.childJobs)
                       else before.(childJobs := after.childJobs))
    requires before.childJobs <= after.childJobs && (!added ==> after.childJobs == before.childJobs)
    ensures !PlanTerminal(before.state) ==> PlanOnlyRises(before, after)
    ensures SetOf(after.childJobs) == SetOf(before.childJobs) + BatchIds(batch)
            && (added <==> SetOf(after.childJobs) != SetOf(before.childJobs)) ==>
              && NaiveOf(after) == GrowPlan(NaiveOf(before), batch, count, bytes)
              && (count > before.plannedCount || added <==> NaiveOf(after) != NaiveOf(before))
  {
  }

  lemma {:induction false} AscendingSize(ids: seq<TransferId>)
    requires Ascending(ids)
    ensures |SetOf(ids)| == |ids|
  {
    if ids != [] {
      var front, last := ids[..|ids| - 1], ids[|ids| - 1];
      AscendingSize(front);
      assert ids == front + [last];
      assert SetOf(ids) == SetOf(front) + {last};
    }
  }

  // ----- conflicts -----

  function FindConflict(conflicts: seq<Conflict>, id: RequestId): (r: Option<nat>)
    ensures r.Some? ==> r.value < |conflicts| && conflicts[r.value].id == id
    ensures r.None? ==> forall i | 0 <= i < |conflicts| :: conflicts[i].id != id
  {
    FirstIndex(conflicts, (c: Conflict) => c.id == id)
  }

  lemma {:induction false} UpsertByIndex(conflicts: seq<Conflict>, c: Conflict)
    ensures UpsertConflict(conflicts, c) ==
            match FindConflict(conflicts, c.id)
            case Some(k) => conflicts[k := c]
            case None => conflicts + [c]
  {
    if conflicts != [] {
      UpsertByIndex(conflicts[1..], c);
    }
  }

  /** The ids of the conflicts a job is waiting on. */
  function ConflictIdsOf(conflicts: seq<Conflict>, t: TransferId): (r: seq<RequestId>)
    ensures forall id :: id in r <==> exists c :: c in conflicts && c.transferId == t && c.id == id
  {
    if conflicts == [] then []
    else
      var rest := ConflictIdsOf(conflicts[1..], t);
      assert forall c :: c in conflicts <==> c == conflicts[0] || c in conflicts[1..];
      if conflicts[0].transferId == t then [conflicts[0].id] + rest else rest
  }

  // ----- what a good store says of one plan -----

  lemma PlanFacts(s: StoreValue, k: nat)
    requires Good(s) && k < |s.plans|
    ensures s.plans[k].id in View(s).plans && View(s).plans[s.plans[k].id] == NaiveOf(s.plans[k])
    ensures s.plans[k].rootJobId !in s.plans[k].childJobs
    ensures HaveJobs(s.plans[k].childJobs, s.jobs)
    ensures Position(s.jobs, s.plans[k].rootJobId).Some?
    ensures Ascending(s.plans[k].childJobs)
  {
    PlanMapReads(s.plans);
    var plan := s.plans[k];
    assert PlanBacked(View(s), plan.id);
    assert {plan.rootJobId} + SetOf(plan.childJobs) == JobsOf(NaiveOf(plan));
    KnownJobs(s.jobs, plan.rootJobId, plan.childJobs);
  }

  /** Ids of the map are ids of the vector. */
  lemma KnownJobs(jobs: seq<Job>, root: TransferId, children: seq<TransferId>)
    requires {root} + SetOf(children) <= JobMap(jobs).Keys
    ensures Position(jobs, root).Some? && HaveJobs(children, jobs)
  {
    forall t | t in JobIds(jobs)
      ensures exists i :: 0 <= i < |jobs| && jobs[i].id == t
    {
      var i :| 0 <= i < |jobs| && JobIds(jobs)[i] == t;
      assert jobs[i].id == t;
    }
    assert root in JobIds(jobs);
    assert forall k | 0 <= k < |children| :: children[k] in SetOf(children);
  }

  lemma NoPlanNamed(s: StoreValue, p: PlanId)
    requires Ordered(s) && FirstIndex(s.plans, WithId(p)).None?
    ensures p !in View(s).plans
  {
  }

  function OwnsChild(t: TransferId): Plan -> bool {
    (plan: Plan) => HasChild(plan.childJobs, t)
  }

  function RootWithoutChildren(t: TransferId): Plan -> bool {
    (plan: Plan) => plan.rootJobId == t && plan.childJobs == []
  }

  lemma NoPlanPasses(s: StoreValue, t: TransferId)
    requires Ordered(s)
    ensures FirstIndex(s.plans, OwnsChild(t)).None? ==> forall p :: !Owns(View(s), p, t)
    ensures FirstIndex(s.plans, RootWithoutChildren(t)).None? ==> forall p :: !ChildlessRoot(View(s), p, t)
  {
    PlanMapReads(s.plans);
    forall p | p in View(s).plans
      ensures FirstIndex(s.plans, OwnsChild(t)).None? ==> !Owns(View(s), p, t)
      ensures FirstIndex(s.plans, RootWithoutChildren(t)).None? ==> !ChildlessRoot(View(s), p, t)
    {
      var plan := s.plans[FirstIndex(s.plans, WithId(p)).value];
      assert View(s).plans[p] == NaiveOf(plan);
      if plan.childJobs != [] {
        assert plan.childJobs[0] in SetOf(plan.childJobs);
      }
    }
  }

  /** Changing the state of one plan, as the vector and as the map see it. */
  lemma PlanStateView(s: StoreValue, k: nat, state: PlanState)
    requires Ordered(s) && k < |s.plans|
    ensures var after := s.(plans := s.plans[k := s.plans[k].(state := state)]);
            && Ordered(after)
            && s.plans[k].id in View(s).plans
            && View(after) == WithPlanState(View(s), s.plans[k].id, state)
  {
    PlanReplaced(s.plans, k, s.plans[k].(state := state));
  }

  lemma SetStatesView(before: seq<Job>, after: seq<Job>, ids: set<TransferId>, state: JobState)
    requires JobsAscending(before) && Painted(before, after, ids, SetTo(state))
    ensures JobsAscending(after) && JobMap(after) == SetStates(JobMap(before), ids, state)
    ensures after == before <==> JobMap(after) == JobMap(before)
  {
    var m, n := JobMap(before), SetStates(JobMap(before), ids, state);
    assert forall t | t in n :: n[t] == if t in ids then SetTo(state)(m[t]) else m[t];
    PaintedMap(before, after, ids, SetTo(state), n);
  }

  lemma SkipOpenView(before: seq<Job>, after: seq<Job>, ids: set<TransferId>)
    requires JobsAscending(before) && Painted(before, after, ids, SkipOpen())
    ensures JobsAscending(after) && JobMap(after) == SkipUnfinished(JobMap(before), ids)
    ensures after == before <==> JobMap(after) == JobMap(before)
  {
    PaintedMap(before, after, ids, SkipOpen(), SkipUnfinished(JobMap(before), ids));
  }

  /** The children's jobs, found in the vector and in the map. */
  lemma ChildrenView(s: StoreValue, k: nat)
    requires Good(s) && k < |s.plans|
    ensures var p := s.plans[k].id;
            && p in View(s).plans
            && (AllChildrenDone(View(s), p) <==>
                  forall i | 0 <= i < |s.jobs| :: s.jobs[i].id in s.plans[k].childJobs ==> JobTerminal(s.jobs[i].state))
            && (SomeChildFailed(View(s), p) <==>
                  exists i :: 0 <= i < |s.jobs| && s.jobs[i].id in s.plans[k].childJobs && s.jobs[i].state.Failed?)
  {
    PlanFacts(s, k);
    JobMapReads(s.jobs);
    var p, children := s.plans[k].id, s.plans[k].childJobs;
    forall c | c in children
      ensures var i := Position(s.jobs, c).value; c in JobMap(s.jobs) && JobMap(s.jobs)[c] == s.jobs[i]
      ensures Position(s.jobs, c).Some? && s.jobs[Position(s.jobs, c).value].id == c
    {
      var n :| 0 <= n < |children| && children[n] == c;
      var i :| 0 <= i < |s.jobs| && s.jobs[i].id == children[n];
    }
  }

  lemma BatchIsTaken(s: StoreValue, k: nat, batch: seq<Job>)
    requires Good(s) && k < |s.plans| && GoodBatch(View(s), s.plans[k].id, batch)
    ensures Takes(s.plans[k].childJobs, batch)
  {
    PlanFacts(s, k);
    forall i | 0 <= i < |batch|
      ensures batch[i].id in s.plans[k].childJobs || forall c | c in s.plans[k].childJobs :: c < batch[i].id
    {
      var v, p := View(s), s.plans[k].id;
      assert batch[i].id in v.plans[p].children || GoodNewChild(v, p, batch[i].id);
      assert forall c | c in s.plans[k].childJobs :: c in v.plans[p].children;
    }
  }

  /** `after` is ordered, reads as `expected`, and `changed` tells whether anything moved. */
  ghost predicate Refines(before: StoreValue, after: StoreValue, expected: Naive, changed: bool) {
    && Ordered(after)
    && View(after) == expected
    && (changed <==> !Same(expected, View(before)))
  }

  lemma NothingMoved(s: StoreValue, expected: Naive)
    requires Ordered(s) && expected == View(s)
    ensures Refines(s, s, expected, false)
  {
  }

  lemma StartPlanRefines(before: StoreValue, after: StoreValue, plan: Plan, rootJob: Job,
                         inserted: bool, jobInserted: bool)
    requires Ordered(before) && Ascending(plan.childJobs)
    requires inserted <==> FirstIndex(before.plans, WithId(plan.id)).None?
    requires after == before.(plans := if inserted then before.plans + [plan] else before.plans, jobs := after.jobs)
    requires JobsAscending(after.jobs) && JobMap(after.jobs) == AddIfAbsent(JobMap(before.jobs), rootJob)
    requires jobInserted <==> rootJob.id !in JobMap(before.jobs)
    ensures Refines(before, after, StartPlan(View(before), plan, rootJob), inserted || jobInserted)
  {
    if inserted {
      PlanAppended(before.plans, plan);
    } else {
      KnownPlan(before.plans, plan.id);
    }
    StartChanges(View(before), plan, rootJob);
    assert View(after) == StartPlan(View(before), plan, rootJob);
  }

  lemma StartChanges(v: Naive, plan: Plan, rootJob: Job)
    ensures Same(StartPlan(v, plan, rootJob), v) == (plan.id in v.plans && rootJob.id in v.jobs)
  {
  }

  lemma KnownPlan(plans: seq<Plan>, p: PlanId)
    requires FirstIndex(plans, WithId(p)).Some?
    ensures p in PlanMap(plans)
  {
    assert PlanIds(plans)[FirstIndex(plans, WithId(p)).value] == p;
  }

  lemma GrowPlanRefines(before: StoreValue, after: StoreValue, k: nat, batch: seq<Job>, count: nat, bytes: Option<nat>,
                        planChanged: bool, jobsChanged: bool)
    requires Ordered(before) && k < |before.plans| && !PlanTerminal(before.plans[k].state)
    requires k < |after.plans| && after.plans == before.plans[k := after.plans[k]]
    requires after == before.(plans := after.plans, jobs := after.jobs)
    requires after.plans[k].id == before.plans[k].id && Ascending(after.plans[k].childJobs)
    requires NaiveOf(after.plans[k]) == GrowPlan(NaiveOf(before.plans[k]), batch, count, bytes)
    requires planChanged <==> NaiveOf(after.plans[k]) != NaiveOf(before.plans[k])
    requires JobsAscending(after.jobs) && JobMap(after.jobs) == AddAbsent(JobMap(before.jobs), batch)
    requires jobsChanged <==> JobMap(after.jobs) != JobMap(before.jobs)
    ensures Refines(before, after, ExtendPlan(View(before), before.plans[k].id, batch, count, bytes),
                    planChanged || jobsChanged)
  {
    PlanReplaced(before.plans, k, after.plans[k]);
    ExtendView(View(before), before.plans[k].id, batch, count, bytes, NaiveOf(after.plans[k]), JobMap(after.jobs));
  }

  lemma ExtendView(v: Naive, p: PlanId, batch: seq<Job>, count: nat, bytes: Option<nat>, plan: NaivePlan,
                   jobs: map<TransferId, Job>)
    requires p in v.plans && !PlanTerminal(v.plans[p].head.state)
    requires plan == GrowPlan(v.plans[p], batch, count, bytes) && jobs == AddAbsent(v.jobs, batch)
    ensures ExtendPlan(v, p, batch, count, bytes) == v.(plans := v.plans[p := plan], jobs := jobs)
    ensures Same(ExtendPlan(v, p, batch, count, bytes), v) <==> plan == v.plans[p] && jobs == v.jobs
  {
  }

  /** A batch for a plan that has not ended, or for a plan nobody has started. */
  lemma ExtendRefines(before: StoreValue, after: StoreValue, p: PlanId, batch: seq<Job>, count: nat, bytes: Option<nat>,
                      planChanged: bool, jobsChanged: bool)
    requires after == before.(plans := after.plans, jobs := after.jobs)
    requires match FirstIndex(before.plans, WithId(p))
             case None => after.plans == before.plans && !planChanged
             case Some(k) =>
               && k < |after.plans| && after.plans == before.plans[k := after.plans[k]]
               && after.plans[k].id == before.plans[k].id && !PlanTerminal(before.plans[k].state)
               && (Takes(before.plans[k].childJobs, batch) ==>
                     && Ascending(after.plans[k].childJobs)
                     && NaiveOf(after.plans[k]) == GrowPlan(NaiveOf(before.plans[k]), batch, count, bytes)
                     && (planChanged <==> NaiveOf(after.plans[k]) != NaiveOf(before.plans[k])))
    requires JobsAscending(before.jobs) && AscendingBatch(batch) ==>
               && JobsAscending(after.jobs)
               && JobMap(after.jobs) == AddAbsent(JobMap(before.jobs), batch)
               && (jobsChanged <==> JobMap(after.jobs) != JobMap(before.jobs))
    ensures Good(before) && WellFormed(View(before), PlanProgressEvent(p, batch, count, bytes)) ==>
              Refines(before, after, ExtendPlan(View(before), p, batch, count, bytes), planChanged || jobsChanged)
  {
    if Good(before) && WellFormed(View(before), PlanProgressEvent(p, batch, count, bytes)) {
      match FirstIndex(before.plans, WithId(p))
      case None => NoPlanNamed(before, p);
      case Some(k) =>
        PlanFacts(before, k);
        BatchIsTaken(before, k, batch);
        GrowPlanRefines(before, after, k, batch, count, bytes, planChanged, jobsChanged);
    }
  }

  lemma ExtendEndedRefines(s: StoreValue, p: PlanId, batch: seq<Job>, count: nat, bytes: Option<nat>)
    requires FirstIndex(s.plans, WithId(p)).Some? && PlanTerminal(s.plans[FirstIndex(s.plans, WithId(p)).value].state)
    ensures Good(s) ==> Refines(s, s, ExtendPlan(View(s), p, batch, count, bytes), false)
  {
  }

  lemma ReportRefines(before: StoreValue, after: StoreValue, i: nat, done: nat, total: Option<nat>, now: Timestamp,
                      changed: bool)
    requires Ordered(before) && i < |before.jobs|
    requires var job := before.jobs[i];
             var state := Running(done, total, if job.state.Running? then job.state.startedAt else now);
             && !JobTerminal(job.state) && !job.state.Cancelling?
             && after == before.(jobs := before.jobs[i := job.(state := state)])
             && (changed <==> job.state != state)
    ensures Refines(before, after, ReportProgress(View(before), before.jobs[i].id, done, total, now), changed)
  {
    var job := before.jobs[i];
    var state := Running(done, total, if job.state.Running? then job.state.startedAt else now);
    SetStatesView(before.jobs, after.jobs, {job.id}, state);
    assert after.jobs == before.jobs <==> after.jobs[i] == before.jobs[i];
    assert job.id in JobMap(before.jobs) && JobMap(before.jobs)[job.id] == job by {
      JobMapReads(before.jobs);
    }
    ReportView(View(before), job, done, total, now, JobMap(after.jobs));
  }

  lemma ReportView(v: Naive, job: Job, done: nat, total: Option<nat>, now: Timestamp, jobs: map<TransferId, Job>)
    requires job.id in v.jobs && v.jobs[job.id] == job && !JobTerminal(job.state) && !job.state.Cancelling?
    requires var started := if job.state.Running? then job.state.startedAt else now;
             jobs == SetStates(v.jobs, {job.id}, Running(done, total, started))
    ensures ReportProgress(v, job.id, done, total, now) == v.(jobs := jobs)
  {
  }

  /** What a scan of a plan's children found. */
  datatype Survey = StillOpen | AllEnded(anyFailed: bool, finished: nat)

  /** The survey is right about the children's jobs, and counted each of them once. */
  ghost predicate Surveyed(jobs: seq<Job>, children: seq<TransferId>, r: Survey) {
    && (r.StillOpen? <==> exists i :: 0 <= i < |jobs| && jobs[i].id in children && !JobTerminal(jobs[i].state))
    && (r.AllEnded? ==>
          && r.finished == |children|
          && (r.anyFailed <==> exists i :: 0 <= i < |jobs| && jobs[i].id in children && jobs[i].state.Failed?))
  }

  /** What a backward scan knows of the jobs from `i` on; `seen` are the children it met. */
  ghost predicate Scanned(jobs: seq<Job>, children: seq<TransferId>, i: nat, anyFailed: bool, finished: nat,
                          seen: set<TransferId>)
  {
    && i <= |jobs|
    && (forall k | i <= k < |jobs| && jobs[k].id in children :: JobTerminal(jobs[k].state) && jobs[k].id in seen)
    && anyFailed == (exists k :: i <= k < |jobs| && jobs[k].id in children && jobs[k].state.Failed?)
    && seen <= SetOf(children)
    && (JobsAscending(jobs) ==> |seen| == finished && forall t | t in seen :: i < |jobs| && jobs[i].id <= t)
  }

  lemma ScanOne(jobs: seq<Job>, children: seq<TransferId>, i: nat, anyFailed: bool, finished: nat,
                seen: set<TransferId>)
    requires i < |jobs| && Scanned(jobs, children, i + 1, anyFailed, finished, seen)
    ensures jobs[i].id !in children ==> Scanned(jobs, children, i, anyFailed, finished, seen)
    ensures jobs[i].id in children && JobTerminal(jobs[i].state) ==>
              Scanned(jobs, children, i, anyFailed || jobs[i].state.Failed?, finished + 1, seen + {jobs[i].id})
  {
    if JobsAscending(jobs) && i + 1 < |jobs| {
      assert jobs[i].id < jobs[i + 1].id;
    }
  }

  lemma AllSeen(jobs: seq<Job>, children: seq<TransferId>, anyFailed: bool, finished: nat, seen: set<TransferId>)
    requires Scanned(jobs, children, 0, anyFailed, finished, seen)
    requires JobsAscending(jobs) && Ascending(children) && HaveJobs(children, jobs)
    ensures finished == |children|
  {
    AscendingSize(children);
    assert seen == SetOf(children);
  }

  /** What the fast paths need of a plan; a good store gives it (`PlanFacts`). */
  ghost predicate PlanReady(s: StoreValue, k: nat)
    requires k < |s.plans|
  {
    && JobsAscending(s.jobs)
    && Ascending(s.plans[k].childJobs)
    && HaveJobs(s.plans[k].childJobs, s.jobs)
    && s.plans[k].rootJobId !in s.plans[k].childJobs
  }

  ghost predicate EndPlanningDone(before: StoreValue, after: StoreValue, p: PlanId, changed: bool) {
    var found := FirstIndex(before.plans, WithId(p));
    if found.None? || PlanTerminal(before.plans[found.value].state) then after == before && !changed
    else
      var k := found.value;
      var empty := before.plans[k].childJobs == [];
      var planState := if empty then PlanCompleted else PlanQueued;
      && after == before.(plans := before.plans[k := before.plans[k].(state := planState)], jobs := after.jobs)
      && (JobsAscending(before.jobs) ==>
            Painted(before.jobs, after.jobs, {before.plans[k].rootJobId}, SetTo(if empty then Completed else Queued)))
      && (changed <==> before.plans[k].state != planState || after.jobs != before.jobs)
  }

  lemma EndPlanningRefines(before: StoreValue, after: StoreValue, p: PlanId, changed: bool)
    requires EndPlanningDone(before, after, p, changed)
    ensures Good(before) ==> Refines(before, after, EndPlanning(View(before), p), changed)
  {
    if Good(before) {
      var found := FirstIndex(before.plans, WithId(p));
      if found.None? {
        NoPlanNamed(before, p);
      } else {
        PlanFacts(before, found.value);
        if !PlanTerminal(before.plans[found.value].state) {
          EndPlanningAt(before, after, found.value, changed);
        }
      }
    }
  }

  lemma EndPlanningAt(before: StoreValue, after: StoreValue, k: nat, changed: bool)
    requires Good(before) && k < |before.plans| && !PlanTerminal(before.plans[k].state)
    requires after == before.(plans := after.plans, jobs := after.jobs)
    requires var empty := before.plans[k].childJobs == [];
             var planState := if empty then PlanCompleted else PlanQueued;
             && after.plans == before.plans[k := before.plans[k].(state := planState)]
             && Painted(before.jobs, after.jobs, {before.plans[k].rootJobId},
                        SetTo(if empty then Completed else Queued))
             && (changed <==> before.plans[k].state != planState || after.jobs != before.jobs)
    ensures Refines(before, after, EndPlanning(View(before), before.plans[k].id), changed)
  {
    var plan, empty := before.plans[k], before.plans[k].childJobs == [];
    PlanFacts(before, k);
    assert !empty ==> plan.childJobs[0] in SetOf(plan.childJobs);
    assert NaiveOf(plan).children == {} <==> empty;
    PlanStateView(before, k, if empty then PlanCompleted else PlanQueued);
    SetStatesView(before.jobs, after.jobs, {plan.rootJobId}, if empty then Completed else Queued);
    PlanStateMoves(View(before), plan.id, if empty then PlanCompleted else PlanQueued);
  }

  lemma PlanStateMoves(v: Naive, p: PlanId, state: PlanState)
    requires p in v.plans
    ensures WithPlanState(v, p, state).plans == v.plans <==> v.plans[p].head.state == state
  {
  }

  ghost predicate FailPlanDone(before: StoreValue, after: StoreValue, p: PlanId, error: UserFacingError,
                               changed: bool)
  {
    match FirstIndex(before.plans, WithId(p))
    case None => after == before && !changed
    case Some(k) =>
      var plan := before.plans[k];
      && after == before.(plans := before.plans[k := plan.(state := PlanFailed(error))], jobs := after.jobs,
                          justFinished := if changed then Some(p) else before.justFinished)
      && (PlanReady(before, k) ==>
            && Painted(before.jobs, after.jobs, {plan.rootJobId} + SetOf(plan.childJobs),
                       SetTo(Failed(error, error.retryable)))
            && (changed <==> plan.state != PlanFailed(error) || after.jobs != before.jobs))
  }

  lemma FailPlanRefines(before: StoreValue, after: StoreValue, p: PlanId, error: UserFacingError, changed: bool)
    requires FailPlanDone(before, after, p, error, changed)
    ensures Good(before) ==> Refines(before, after, FailPlan(View(before), p, error), changed)
  {
    if Good(before) {
      match FirstIndex(before.plans, WithId(p))
      case None => NoPlanNamed(before, p);
      case Some(k) =>
        var plan := before.plans[k];
        PlanFacts(before, k);
        PlanStateView(before, k, PlanFailed(error));
        assert JobsOf(NaiveOf(plan)) == {plan.rootJobId} + SetOf(plan.childJobs);
        SetStatesView(before.jobs, after.jobs, JobsOf(NaiveOf(plan)), Failed(error, error.retryable));
        PlanStateMoves(View(before), plan.id, PlanFailed(error));
    }
  }

  ghost predicate CancelPlanDone(before: StoreValue, after: StoreValue, p: PlanId, changed: bool) {
    var found := FirstIndex(before.plans, WithId(p));
    if found.None? || before.plans[found.value].state.PlanCancelled? || before.plans[found.value].state.PlanFailed?
    then after == before && !changed
    else
      var k := found.value;
      var plan := before.plans[k];
      && (PlanReady(before, k) ==>
            && Painted(before.jobs, after.jobs, {plan.rootJobId} + SetOf(plan.childJobs), SkipOpen())
            && (changed <==> after.jobs != before.jobs))
      && after == if changed then before.(plans := before.plans[k := plan.(state := PlanCancelled)],
                                          jobs := after.jobs, justFinished := Some(p))
                  else before.(jobs := after.jobs)
  }

  lemma CancelPlanRefines(before: StoreValue, after: StoreValue, p: PlanId, changed: bool)
    requires CancelPlanDone(before, after, p, changed)
    ensures Good(before) ==> Refines(before, after, CancelPlan(View(before), p), changed)
  {
    if Good(before) {
      match FirstIndex(before.plans, WithId(p))
      case None => NoPlanNamed(before, p);
      case Some(k) =>
        var plan := before.plans[k];
        PlanFacts(before, k);
        if !plan.state.PlanCancelled? && !plan.state.PlanFailed? {
          PlanStateView(before, k, PlanCancelled);
          assert JobsOf(NaiveOf(plan)) == {plan.rootJobId} + SetOf(plan.childJobs);
          SkipOpenView(before.jobs, after.jobs, JobsOf(NaiveOf(plan)));
        }
    }
  }

  lemma OnePainted(jobs: seq<Job>, i: nat, state: JobState)
    requires JobsAscending(jobs) && i < |jobs|
    ensures Painted(jobs, jobs[i := jobs[i].(state := state)], {jobs[i].id}, SetTo(state))
  {
  }

  lemma ClosePlanRefines(before: StoreValue, after: StoreValue, k: nat, anyFailed: bool)
    requires Good(before) && k < |before.plans| && !PlanTerminal(before.plans[k].state)
    requires Closed(before, after, k, anyFailed)
    requires anyFailed <==> SomeChildFailed(View(before), before.plans[k].id)
    ensures before.plans[k].id in View(before).plans
    ensures Refines(before, after, ClosePlan(View(before), before.plans[k].id), true)
  {
    var plan := before.plans[k];
    var planState := if anyFailed then PlanFailed(SOME_FILES_FAILED) else PlanCompleted;
    var rootState := if anyFailed then Failed(SOME_FILES_FAILED, true) else Completed;
    PlanFacts(before, k);
    PlanStateView(before, k, planState);
    OnePainted(before.jobs, Position(before.jobs, plan.rootJobId).value, rootState);
    SetStatesView(before.jobs, after.jobs, {plan.rootJobId}, rootState);
    PlanStateMoves(View(before), plan.id, planState);
  }

  /** Plan `k` and its root took the outcome of the children. */
  ghost predicate Closed(before: StoreValue, after: StoreValue, k: nat, anyFailed: bool)
    requires k < |before.plans|
  {
    var plan := before.plans[k];
    var root := Position(before.jobs, plan.rootJobId);
    && after == before.(plans := before.plans[k := plan.(state := if anyFailed then PlanFailed(SOME_FILES_FAILED)
                                                                  else PlanCompleted)],
                        jobs := after.jobs, justFinished := Some(plan.id))
    && (root.Some? ==>
          after.jobs == before.jobs[root.value := before.jobs[root.value].(
                                      state := if anyFailed then Failed(SOME_FILES_FAILED, true) else Completed)])
  }

  lemma FinalizeRefines(before: StoreValue, after: StoreValue, t: TransferId, k: nat, survey: Survey, changed: bool)
    requires k < |before.plans| && OwnsChild(t)(before.plans[k]) && !PlanTerminal(before.plans[k].state)
    requires JobsAscending(before.jobs) && Ascending(before.plans[k].childJobs)
             && HaveJobs(before.plans[k].childJobs, before.jobs) ==>
               Surveyed(before.jobs, before.plans[k].childJobs, survey)
    requires changed <==> survey.AllEnded? && survey.finished == |before.plans[k].childJobs|
    requires if changed then Closed(before, after, k, survey.anyFailed) else after == before
    ensures Good(before) ==> Refines(before, after, SettlePlan(View(before), t), changed)
  {
    if Good(before) {
      PlanFacts(before, k);
      ChildrenView(before, k);
      SettleOwned(View(before), before.plans[k].id, t);
      if changed {
        ClosePlanRefines(before, after, k, survey.anyFailed);
      }
    }
  }

  lemma NothingToFinalize(before: StoreValue, after: StoreValue, t: TransferId, changed: bool)
    requires !changed
    requires match FirstIndex(before.plans, OwnsChild(t))
             case Some(k) => PlanTerminal(before.plans[k].state) && after == before
             case None =>
               after == match FirstIndex(before.plans, RootWithoutChildren(t))
                        case None => before
                        case Some(k) => before.(justFinished := Some(before.plans[k].id))
    ensures Good(before) ==> Refines(before, after, SettlePlan(View(before), t), changed)
  {
    if Good(before) {
      NoPlanPasses(before, t);
      match FirstIndex(before.plans, OwnsChild(t))
      case Some(k) =>
        PlanFacts(before, k);
        SettleOwned(View(before), before.plans[k].id, t);
      case None =>
        if k :| 0 <= k < |before.plans| && FirstIndex(before.plans, RootWithoutChildren(t)) == Some(k) {
          PlanFacts(before, k);
          SettleChildlessRoot(View(before), before.plans[k].id, t);
        }
    }
  }

  /** If settling changes anything, it changes the plans. */
  lemma SettleChangesPlans(v: Naive, t: TransferId)
    ensures Same(SettlePlan(v, t), v) <==> SettlePlan(v, t).plans == v.plans
  {
  }

  function OtherConflict(id: RequestId): Conflict -> bool {
    (c: Conflict) => c.id != id
  }

  function NotAmong(ids: seq<RequestId>): Conflict -> bool {
    (c: Conflict) => c.id !in ids
  }

  /** The job repainted and its conflicts dropped: the naive landing, before any plan is settled. */
  lemma JobLanded(before: StoreValue, landed: StoreValue, t: TransferId, state: JobState,
                  jobChanged: bool, conflictsChanged: bool)
    requires landed == before.(jobs := landed.jobs, conflicts := landed.conflicts)
    requires JobsAscending(before.jobs) ==> Painted(before.jobs, landed.jobs, {t}, SetTo(state))
    requires DistinctConflicts(before.conflicts) ==> landed.conflicts == Retain(before.conflicts, OfOtherJobs(t))
    requires jobChanged <==> landed.jobs != before.jobs
    requires conflictsChanged <==> landed.conflicts != before.conflicts
    ensures Good(before) ==>
              && Good(landed) && View(landed) == Landed(View(before), t, state)
              && (jobChanged || conflictsChanged <==> !Same(View(landed), View(before)))
  {
    if Good(before) {
      SetStatesView(before.jobs, landed.jobs, {t}, state);
      LandedKeepsValid(View(before), t, state);
    }
  }

  lemma FinishRefines(before: StoreValue, landed: StoreValue, after: StoreValue, t: TransferId, state: JobState,
                      landedChanged: bool, planChanged: bool)
    requires View(landed) == Landed(View(before), t, state)
    requires landedChanged <==> !Same(View(landed), View(before))
    requires Refines(landed, after, SettlePlan(View(landed), t), planChanged)
    ensures Refines(before, after, FinishJob(View(before), t, state), landedChanged || planChanged)
  {
    SettleChangesPlans(View(landed), t);
  }

  lemma DropOneMore(conflicts: seq<Conflict>, ids: seq<RequestId>, i: nat)
    requires i < |ids|
    ensures Retain(Retain(conflicts, NotAmong(ids[..i])), OtherConflict(ids[i]))
            == Retain(conflicts, NotAmong(ids[..i + 1]))
    ensures |Retain(conflicts, NotAmong(ids[..i + 1]))| <= |Retain(conflicts, NotAmong(ids[..i]))| <= |conflicts|
    ensures Retain(conflicts, NotAmong(ids[..i + 1])) == conflicts ==>
              Retain(conflicts, NotAmong(ids[..i])) == conflicts
  {
    assert ids[..i + 1] == ids[..i] + [ids[i]];
    RetainTwice(conflicts, NotAmong(ids[..i]), OtherConflict(ids[i]), NotAmong(ids[..i + 1]));
  }

  lemma RetainAll(conflicts: seq<Conflict>, keep: Conflict -> bool)
    requires forall c | c in conflicts :: keep(c)
    ensures Retain(conflicts, keep) == conflicts
  {
  }

  /** With distinct request ids, dropping a job's requests by id drops exactly that job's conflicts. */
  lemma SameConflictsKept(conflicts: seq<Conflict>, t: TransferId)
    requires DistinctConflicts(conflicts)
    ensures Retain(conflicts, NotAmong(ConflictIdsOf(conflicts, t))) == Retain(conflicts, OfOtherJobs(t))
  {
    forall c | c in conflicts
      ensures NotAmong(ConflictIdsOf(conflicts, t))(c) == OfOtherJobs(t)(c)
    {
      if d :| d in conflicts && d.transferId == t && d.id == c.id {
        var i :| 0 <= i < |conflicts| && conflicts[i] == c;
        var j :| 0 <= j < |conflicts| && conflicts[j] == d;
        assert i == j;
      }
    }
    RetainAgree(conflicts, NotAmong(ConflictIdsOf(conflicts, t)), OfOtherJobs(t));
  }

  /** Forgetting the last report leaves a good store good and reads the same otherwise. */
  lemma ClearedIsGood(before: StoreValue, after: StoreValue)
    requires after == before.(justFinished := None)
    ensures Good(before) ==> Good(after) && View(after) == View(before).(justFinished := None)
  {
    if Good(before) {
      OtherJobsKeepValid(View(before), View(after));
    }
  }

  /** A store that acted as the naive reducer on a good state is good again. */
  lemma EventApplied(before: StoreValue, cleared: StoreValue, after: StoreValue, e: Event, now: Timestamp,
                     changed: bool)
    requires Good(before) && WellFormed(View(before), e) && cleared == before.(justFinished := None)
    requires Refines(cleared, after, Reduce(View(cleared), e, now), changed)
    ensures Good(after) && Refines(before, after, Apply(View(before), e, now), changed)
    ensures Means(View(before), e, now, View(after)) && (changed <==> !Unmoved(View(before), View(after)))
  {
    ApplyKeepsValid(View(before), e, now);
    ApplyMeans(View(before), e, now);
  }

  lemma StateRises(plans: seq<Plan>, k: nat, state: PlanState)
    requires k < |plans| && Rank(plans[k].state) <= Rank(state)
    ensures PlansOnlyRise(plans, plans[k := plans[k].(state := state)])
  {
  }

  lemma RisesUnmoved(plans: seq<Plan>)
    ensures PlansOnlyRise(plans, plans)
  {
  }

  lemma RiseByAppending(plans: seq<Plan>, plan: Plan)
    ensures PlansOnlyRise(plans, plans) && PlansOnlyRise(plans, plans + [plan])
  {
  }

  lemma RiseTransitive(a: seq<Plan>, b: seq<Plan>, c: seq<Plan>)
    requires PlansOnlyRise(a, b) && PlansOnlyRise(b, c)
    ensures PlansOnlyRise(a, c)
  {
  }
}
