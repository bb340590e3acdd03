/**
 The transfer store of the program: vectors updated in place, with its fast
 paths. Every event is proved to act as in the naive reducer.
 */
module TransferStores {
  import opened Common
  import opened IdMatching
  import opened Transfers
  import opened NaiveTransfers
  import opened TransferTheorems
  import opened TransferMeanings
  import opened TransferVectors

  class TransferStore {
    var plans: seq<Plan>
    var jobs: seq<Job>
    var pendingConflicts: seq<Conflict>
    var justFinishedPlan: Option<PlanId>

    ghost function Value(): StoreValue
      reads this
    {
      StoreValue(plans, jobs, pendingConflicts, justFinishedPlan)
    }

    constructor ()
      ensures Good(Value()) && View(Value()) == EMPTY
    {
      plans, jobs, pendingConflicts, justFinishedPlan := [], [], [], None;
    }

    // ----- single jobs -----

    method InsertJob(job: Job) returns (inserted: bool)
      modifies this`jobs
      ensures JobsAscending(old(jobs)) ==>
                && JobsAscending(jobs)
                && JobMap(jobs) == AddIfAbsent(JobMap(old(jobs)), job)
                && (inserted <==> job.id !in JobMap(old(jobs)))
      ensures !inserted ==> jobs == old(jobs)
    {
      ghost var before := jobs;
      match Search(JobIds(jobs), job.id) {
        case Found(index) =>
          inserted := false;
          FoundAndSet(before, index, jobs[index]);
        case Missing(pos) =>
          jobs := jobs[..pos] + [job] + jobs[pos..];
          inserted := true;
          MissingAndPut(before, pos, job);
      }
    }

    method UpsertJob(job: Job) returns (changed: bool)
      modifies this`jobs
      ensures JobsAscending(old(jobs)) ==>
                && JobsAscending(jobs)
                && JobMap(jobs) == JobMap(old(jobs))[job.id := job]
                && (changed <==> JobMap(jobs) != JobMap(old(jobs)))
    {
      ghost var before := jobs;
      match Search(JobIds(jobs), job.id) {
        case Found(index) =>
          changed := jobs[index] != job;
          if changed {
            jobs := jobs[index := job];
          }
          FoundAndSet(before, index, job);
        case Missing(pos) =>
          jobs := jobs[..pos] + [job] + jobs[pos..];
          changed := true;
          MissingAndPut(before, pos, job);
      }
    }

    /** `set_job_state` and `cancel_job_if_unfinished`: repaint one job. */
    method PaintJob(id: TransferId, paint: Job -> Job) returns (changed: bool)
      modifies this`jobs
      ensures |jobs| == |old(jobs)|
      ensures JobsAscending(old(jobs)) ==> Painted(old(jobs), jobs, {id}, paint)
      ensures changed <==> jobs != old(jobs)
    {
      match FindJobIndex(jobs, id)
      case None =>
        return false;
      case Some(index) =>
        var painted := paint(jobs[index]);
        if painted == jobs[index] {
          return false;
        }
        jobs := jobs[index := painted];
        return true;
    }

    // ----- all jobs of a plan -----

    /**
     Repaint the root and the children of a plan: the root alone, the root and a
     contiguous slice, or one scan with the matcher.
     */
    method PaintPlanJobs(root: TransferId, children: seq<TransferId>, paint: Job -> Job) returns (changed: bool)
      modifies this`jobs
      ensures JobsAscending(old(jobs)) && Ascending(children) && HaveJobs(children, old(jobs)) && root !in children
              ==> Painted(old(jobs), jobs, {root} + SetOf(children), paint) && (changed <==> jobs != old(jobs))
    {
      ghost var before := jobs;
      if children == [] {
        changed := PaintJob(root, paint);
      } else {
        match SliceRange(children, jobs)
        case Some(range) =>
          var rootChanged := PaintJob(root, paint);
          var sliceChanged := PaintSlice(range.0, range.1, paint);
          changed := rootChanged || sliceChanged;
          if JobsAscending(before) && Ascending(children) && HaveJobs(children, before) && root !in children {
            SliceIsChildren(children, before);
          }
        case None =>
          changed := PaintScan(root, children, paint);
      }
    }

    method PaintSlice(lo: nat, hi: nat, paint: Job -> Job) returns (changed: bool)
      requires lo <= hi < |jobs|
      modifies this`jobs
      ensures |jobs| == |old(jobs)|
      ensures forall i | 0 <= i < |jobs| ::
                jobs[i] == if lo <= i <= hi then paint(old(jobs)[i]) else old(jobs)[i]
      ensures changed <==> jobs != old(jobs)
    {
      changed := false;
      for i := lo to hi + 1
        invariant |jobs| == |old(jobs)|
        invariant forall k | 0 <= k < |jobs| :: jobs[k] == if lo <= k < i then paint(old(jobs)[k]) else old(jobs)[k]
        invariant changed <==> jobs != old(jobs)
      {
        if paint(jobs[i]) != jobs[i] {
          jobs := jobs[i := paint(jobs[i])];
          assert jobs[i] != old(jobs)[i];
          changed := true;
        }
      }
    }

    method PaintScan(root: TransferId, children: seq<TransferId>, paint: Job -> Job) returns (changed: bool)
      modifies this`jobs
      ensures Painted(old(jobs), jobs, {root} + SetOf(children), paint)
      ensures changed <==> jobs != old(jobs)
    {
      var matcher := NewMatcher(children);
      changed := false;
      for i := 0 to |jobs|
        invariant |jobs| == |old(jobs)|
        invariant forall k | 0 <= k < |jobs| ::
                    jobs[k] == if k < i && old(jobs)[k].id in {root} + SetOf(children)
                               then paint(old(jobs)[k]) else old(jobs)[k]
        invariant changed <==> jobs != old(jobs)
      {
        MatcherIsMembership(children, jobs[i].id);
        if (jobs[i].id == root || Contains(matcher, jobs[i].id)) && paint(jobs[i]) != jobs[i] {
          jobs := jobs[i := paint(jobs[i])];
          assert jobs[i] != old(jobs)[i];
          changed := true;
        }
      }
    }

    // ----- plan events -----

    method InsertPlan(plan: Plan) returns (inserted: bool)
      modifies this`plans
      ensures inserted <==> FirstIndex(old(plans), WithId(plan.id)).None?
      ensures plans == if inserted then old(plans) + [plan] else old(plans)
    {
      if FirstIndex(plans, WithId(plan.id)).Some? {
        return false;
      }
      plans := plans + [plan];
      return true;
    }

    method StartPlan(plan: Plan, rootJob: Job) returns (changed: bool)
      modifies this
      ensures PlansOnlyRise(old(plans), plans)
      ensures old(Ordered(Value())) && Ascending(plan.childJobs) ==>
                Refines(old(Value()), Value(), NaiveTransfers.StartPlan(View(old(Value())), plan, rootJob), changed)
    {
      ghost var before := Value();
      var inserted := InsertPlan(plan);
      var jobInserted := InsertJob(rootJob);
      changed := inserted || jobInserted;
      if Ordered(before) && Ascending(plan.childJobs) {
        StartPlanRefines(before, Value(), plan, rootJob, inserted, jobInserted);
      }
      RiseByAppending(before.plans, plan);
    }

    /** The part of `PlanProgress` that grows the plan itself. */
    method GrowPlanAt(k: nat, batch: seq<Job>, count: nat, bytes: Option<nat>) returns (changed: bool)
      requires k < |plans|
      requires !PlanTerminal(plans[k].state)
      modifies this`plans
      ensures |plans| == |old(plans)| && plans == old(plans)[k := plans[k]]
      ensures PlanOnlyRises(old(plans)[k], plans[k])
      ensures Takes(old(plans)[k].childJobs, batch) ==>
                && Ascending(plans[k].childJobs)
                && NaiveOf(plans[k]) == GrowPlan(NaiveOf(old(plans)[k]), batch, count, bytes)
                && (changed <==> NaiveOf(plans[k]) != NaiveOf(old(plans)[k]))
    {
      var plan := plans[k];
      var children := plan.childJobs;
      changed := false;
      if count > plan.plannedCount {
        plan := plan.(plannedCount := count, totalBytes := bytes);
        changed := true;
      }
      var grown, added := GrowChildren(children, batch);
      plan := plan.(childJobs := grown);
      changed := changed || added;
      GrownPlan(plans[k], plan, batch, count, bytes, added);
      plans := plans[k := plan];
    }

    /** The child list grows by the batch: appended as it is when it starts above the last child, else searched. */
    method GrowChildren(children: seq<TransferId>, batch: seq<Job>) returns (grown: seq<TransferId>, added: bool)
      ensures children <= grown && (!added ==> grown == children)
      ensures Takes(children, batch) ==>
                && Ascending(grown)
                && SetOf(grown) == SetOf(children) + BatchIds(batch)
                && (added <==> SetOf(grown) != SetOf(children))
    {
      if batch != [] && (children != [] ==> batch[0].id > children[|children| - 1]) {
        grown, added := children, true;
        for i := 0 to |batch|
          invariant grown == children + JobIds(batch[..i])
        {
          grown := grown + [batch[i].id];
          assert JobIds(batch[..i + 1]) == JobIds(batch[..i]) + [batch[i].id];
        }
        assert batch[..|batch|] == batch;
        if Takes(children, batch) {
          GrownByAppend(children, batch);
        }
      } else {
        var toAdd := FreshIds(batch, NewMatcher(children));
        grown, added := children + toAdd, toAdd != [];
        if Takes(children, batch) {
          GrownBySearch(children, batch);
        }
      }
    }

    /** The part of `PlanProgress` that stores the jobs of the batch. */
    method AddJobs(batch: seq<Job>) returns (changed: bool)
      modifies this`jobs
      ensures JobsAscending(old(jobs)) && AscendingBatch(batch) ==>
                && JobsAscending(jobs)
                && JobMap(jobs) == AddAbsent(JobMap(old(jobs)), batch)
                && (changed <==> JobMap(jobs) != JobMap(old(jobs)))
    {
      ghost var before := jobs;
      changed := false;
      if batch != [] && (jobs != [] ==> batch[0].id > jobs[|jobs| - 1].id) {
        for i := 0 to |batch|
          invariant jobs == before + batch[..i]
        {
          jobs := jobs + [batch[i]];
        }
        assert batch[..|batch|] == batch;
        changed := true;
        if JobsAscending(before) && AscendingBatch(batch) {
          AppendKeepsOrder(before, batch);
          AppendBatch(before, batch);
          AppendIsNew(before, batch);
        }
      } else {
        for i := 0 to |batch|
          invariant JobsAscending(before) ==>
                      && JobsAscending(jobs)
                      && JobMap(jobs) == AddAbsent(JobMap(before), batch[..i])
                      && JobMap(before).Keys <= JobMap(jobs).Keys
                      && (changed <==> JobMap(jobs) != JobMap(before))
        {
          assert batch[..i + 1][..i] == batch[..i];
          var inserted := InsertJob(batch[i]);
          changed := changed || inserted;
        }
        assert batch[..|batch|] == batch;
      }
    }

    method ExtendPlan(p: PlanId, batch: seq<Job>, count: nat, bytes: Option<nat>) returns (changed: bool)
      modifies this
      ensures PlansOnlyRise(old(plans), plans)
      ensures old(Good(Value())) && old(WellFormed(View(Value()), PlanProgressEvent(p, batch, count, bytes))) ==>
                Refines(old(Value()), Value(),
                        NaiveTransfers.ExtendPlan(View(old(Value())), p, batch, count, bytes), changed)
    {
      ghost var before := Value();
      changed := false;
      var found := FirstIndex(plans, WithId(p));
      if found.None? || !PlanTerminal(plans[found.value].state) {
        var planChanged := false;
        if found.Some? {
          planChanged := GrowPlanAt(found.value, batch, count, bytes);
        }
        var jobsChanged := AddJobs(batch);
        changed := planChanged || jobsChanged;
        ExtendRefines(before, Value(), p, batch, count, bytes, planChanged, jobsChanged);
      } else {
        ExtendEndedRefines(before, p, batch, count, bytes);
      }
    }

    method EndPlanning(p: PlanId) returns (changed: bool)
      modifies this
      ensures PlansOnlyRise(old(plans), plans)
      ensures old(Good(Value())) ==>
                Refines(old(Value()), Value(), NaiveTransfers.EndPlanning(View(old(Value())), p), changed)
    {
      ghost var before := Value();
      changed := false;
      var found := FirstIndex(plans, WithId(p));
      if found.Some? && !PlanTerminal(plans[found.value].state) {
        var k := found.value;
        var planState := if plans[k].childJobs == [] then PlanCompleted else PlanQueued;
        var rootState := if plans[k].childJobs == [] then Completed else Queued;
        var planChanged := plans[k].state != planState;
        plans := plans[k := plans[k].(state := planState)];
        var rootChanged := PaintJob(plans[k].rootJobId, SetTo(rootState));
        changed := planChanged || rootChanged;
      }
      EndPlanningRefines(before, Value(), p, changed);
    }

    method FailPlan(p: PlanId, error: UserFacingError) returns (changed: bool)
      modifies this
      ensures PlansOnlyRise(old(plans), plans)
      ensures old(Good(Value())) ==>
                Refines(old(Value()), Value(), NaiveTransfers.FailPlan(View(old(Value())), p, error), changed)
    {
      ghost var before := Value();
      changed := false;
      var found := FirstIndex(plans, WithId(p));
      if found.Some? {
        var k := found.value;
        var planChanged := plans[k].state != PlanFailed(error);
        plans := plans[k := plans[k].(state := PlanFailed(error))];
        var jobsChanged := PaintPlanJobs(plans[k].rootJobId, plans[k].childJobs, SetTo(Failed(error, error.retryable)));
        changed := planChanged || jobsChanged;
        justFinishedPlan := if changed then Some(p) else justFinishedPlan;
      }
      FailPlanRefines(before, Value(), p, error, changed);
    }

    method CancelPlan(p: PlanId) returns (changed: bool)
      modifies this
      ensures PlansOnlyRise(old(plans), plans)
      ensures old(Good(Value())) ==>
                Refines(old(Value()), Value(), NaiveTransfers.CancelPlan(View(old(Value())), p), changed)
    {
      ghost var before := Value();
      changed := false;
      var found := FirstIndex(plans, WithId(p));
      if found.Some? && !plans[found.value].state.PlanCancelled? && !plans[found.value].state.PlanFailed? {
        var k := found.value;
        changed := PaintPlanJobs(plans[k].rootJobId, plans[k].childJobs, SkipOpen());
        if changed {
          StateRises(plans, k, PlanCancelled);
          plans := plans[k := plans[k].(state := PlanCancelled)];
          justFinishedPlan := Some(p);
        }
      }
      CancelPlanRefines(before, Value(), p, changed);
    }

    // ----- job events -----

    method SurveySlice(lo: nat, hi: nat) returns (r: Survey)
      requires lo <= hi < |jobs|
      ensures r.StillOpen? <==> exists i :: lo <= i <= hi && !JobTerminal(jobs[i].state)
      ensures r.AllEnded? ==> r.finished == hi - lo + 1
                              && (r.anyFailed <==> exists i :: lo <= i <= hi && jobs[i].state.Failed?)
    {
      var anyFailed, finished := false, 0;
      for i := hi + 1 downto lo
        invariant forall k | i <= k <= hi :: JobTerminal(jobs[k].state)
        invariant finished == hi + 1 - i
        invariant anyFailed <==> exists k :: i <= k <= hi && jobs[k].state.Failed?
      {
        match jobs[i].state {
          case Completed | Skipped =>
            finished := finished + 1;
          case Failed(_, _) =>
            anyFailed := true;
            finished := finished + 1;
          case _ =>
            return StillOpen;
        }
      }
      return AllEnded(anyFailed, finished);
    }

    method SurveyScan(children: seq<TransferId>) returns (r: Survey)
      ensures r.StillOpen? <==> exists i :: 0 <= i < |jobs| && jobs[i].id in children && !JobTerminal(jobs[i].state)
      ensures r.AllEnded? ==>
                (r.anyFailed <==> exists i :: 0 <= i < |jobs| && jobs[i].id in children && jobs[i].state.Failed?)
      ensures r.AllEnded? && JobsAscending(jobs) && Ascending(children) && HaveJobs(children, jobs) ==>
                r.finished == |children|
    {
      var matcher := NewMatcher(children);
      var anyFailed, finished := false, 0;
      ghost var seen: set<TransferId> := {};
      for i := |jobs| downto 0
        invariant Scanned(jobs, children, i, anyFailed, finished, seen)
      {
        MatcherIsMembership(children, jobs[i].id);
        ScanOne(jobs, children, i, anyFailed, finished, seen);
        if !Contains(matcher, jobs[i].id) {
          continue;
        }
        match jobs[i].state {
          case Completed | Skipped =>
            finished := finished + 1;
          case Failed(_, _) =>
            anyFailed := true;
            finished := finished + 1;
          case _ =>
            return StillOpen;
        }
        seen := seen + {jobs[i].id};
      }
      if JobsAscending(jobs) && Ascending(children) && HaveJobs(children, jobs) {
        AllSeen(jobs, children, anyFailed, finished, seen);
      }
      return AllEnded(anyFailed, finished);
    }

    /** Whether a plan's children have all ended: over the slice when there is one, else by scanning. */
    method SurveyChildren(children: seq<TransferId>) returns (r: Survey)
      ensures JobsAscending(jobs) && Ascending(children) && HaveJobs(children, jobs) ==> Surveyed(jobs, children, r)
    {
      match SliceRange(children, jobs)
      case Some(range) =>
        r := SurveySlice(range.0, range.1);
        if JobsAscending(jobs) && Ascending(children) && HaveJobs(children, jobs) {
          SliceIsChildren(children, jobs);
        }
      case None =>
        r := SurveyScan(children);
    }

    method ClosePlanAt(k: nat, anyFailed: bool)
      requires k < |plans| && !PlanTerminal(plans[k].state)
      modifies this
      ensures PlansOnlyRise(old(plans), plans)
      ensures Closed(old(Value()), Value(), k, anyFailed)
    {
      var planState := if anyFailed then PlanFailed(SOME_FILES_FAILED) else PlanCompleted;
      var rootState := if anyFailed then Failed(SOME_FILES_FAILED, true) else Completed;
      var root := plans[k].rootJobId;
      plans := plans[k := plans[k].(state := planState)];
      var index := Position(jobs, root);
      if index.Some? {
        jobs := jobs[index.value := jobs[index.value].(state := rootState)];
      }
      justFinishedPlan := Some(plans[k].id);
    }

    method FinalizePlanForJob(t: TransferId) returns (changed: bool)
      modifies this
      ensures PlansOnlyRise(old(plans), plans)
      ensures pendingConflicts == old(pendingConflicts)
      ensures old(Good(Value())) ==>
                Refines(old(Value()), Value(), SettlePlan(View(old(Value())), t), changed)
    {
      ghost var before := Value();
      changed := false;
      var owner := FirstIndex(plans, OwnsChild(t));
      if owner.None? {
        var root := FirstIndex(plans, RootWithoutChildren(t));
        if root.Some? {
          justFinishedPlan := Some(plans[root.value].id);
        }
      } else if !PlanTerminal(plans[owner.value].state) {
        var k := owner.value;
        var survey := SurveyChildren(plans[k].childJobs);
        if survey.AllEnded? && survey.finished == |plans[k].childJobs| {
          ClosePlanAt(k, survey.anyFailed);
          changed := true;
        }
        FinalizeRefines(before, Value(), t, k, survey, changed);
      }
      if owner.None? || PlanTerminal(before.plans[owner.value].state) {
        NothingToFinalize(before, Value(), t, changed);
      }
    }

    method RemoveConflict(id: RequestId) returns (removed: bool)
      modifies this`pendingConflicts
      ensures pendingConflicts == Retain(old(pendingConflicts), OtherConflict(id))
      ensures removed <==> pendingConflicts != old(pendingConflicts)
    {
      var kept := Retain(pendingConflicts, OtherConflict(id));
      removed := |kept| != |pendingConflicts|;
      pendingConflicts := kept;
    }

    /** Drop the conflicts a finished job was waiting on, one request at a time. */
    method RemoveConflictsOf(t: TransferId) returns (removed: bool)
      modifies this`pendingConflicts
      ensures DistinctConflicts(old(pendingConflicts)) ==>
                pendingConflicts == Retain(old(pendingConflicts), OfOtherJobs(t))
      ensures removed <==> pendingConflicts != old(pendingConflicts)
    {
      var before := pendingConflicts;
      var ids := ConflictIdsOf(before, t);
      removed := false;
      RetainAll(before, NotAmong([]));
      for i := 0 to |ids|
        invariant pendingConflicts == Retain(before, NotAmong(ids[..i]))
        invariant removed <==> pendingConflicts != before
      {
        DropOneMore(before, ids, i);
        var one := RemoveConflict(ids[i]);
        removed := removed || one;
      }
      assert ids[..|ids|] == ids;
      if DistinctConflicts(before) {
        SameConflictsKept(before, t);
      }
    }

    method SetTransferTerminal(t: TransferId, state: JobState) returns (changed: bool)
      modifies this
      ensures PlansOnlyRise(old(plans), plans)
      ensures old(Good(Value())) ==>
                Refines(old(Value()), Value(), FinishJob(View(old(Value())), t, state), changed)
    {
      ghost var before := Value();
      var jobChanged := PaintJob(t, SetTo(state));
      var conflictsChanged := RemoveConflictsOf(t);
      ghost var landed := Value();
      JobLanded(before, landed, t, state, jobChanged, conflictsChanged);
      var planChanged := FinalizePlanForJob(t);
      changed := jobChanged || conflictsChanged || planChanged;
      if Good(before) {
        FinishRefines(before, landed, Value(), t, state, jobChanged || conflictsChanged, planChanged);
      }
    }

    method TakeSnapshot(job: Job) returns (changed: bool)
      modifies this`jobs
      ensures old(Ordered(Value())) ==>
                Refines(old(Value()), Value(), SetJob(View(old(Value())), job), changed)
    {
      ghost var before := Value();
      changed := UpsertJob(job);
      if Ordered(before) {
        assert View(Value()) == SetJob(View(before), job);
      }
    }

    method UpsertConflict(c: Conflict) returns (changed: bool)
      modifies this`pendingConflicts
      ensures pendingConflicts == NaiveTransfers.UpsertConflict(old(pendingConflicts), c)
      ensures changed <==> pendingConflicts != old(pendingConflicts)
    {
      UpsertByIndex(pendingConflicts, c);
      match FindConflict(pendingConflicts, c.id)
      case Some(k) =>
        if pendingConflicts[k] == c {
          return false;
        }
        pendingConflicts := pendingConflicts[k := c];
        return true;
      case None =>
        pendingConflicts := pendingConflicts + [c];
        return true;
    }

    method RaiseConflict(c: Conflict) returns (changed: bool)
      modifies this`jobs, this`pendingConflicts
      ensures old(Ordered(Value())) ==>
                Refines(old(Value()), Value(), NaiveTransfers.RaiseConflict(View(old(Value())), c), changed)
    {
      ghost var before := Value();
      var state := WaitingForConflict(c.planId, c.id);
      var waiting := PaintJob(c.transferId, SetTo(state));
      var raised := UpsertConflict(c);
      changed := waiting || raised;
      if Ordered(before) {
        SetStatesView(before.jobs, jobs, {c.transferId}, state);
      }
    }

    method ReportProgress(t: TransferId, done: nat, total: Option<nat>, now: Timestamp) returns (changed: bool)
      modifies this`jobs
      ensures old(Ordered(Value())) ==>
                Refines(old(Value()), Value(),
                        NaiveTransfers.ReportProgress(View(old(Value())), t, done, total, now), changed)
      ensures match FindJobIndex(old(jobs), t)
              case None => jobs == old(jobs) && !changed
              case Some(i) =>
                match old(jobs)[i].state
                case Completed => jobs == old(jobs) && !changed
                case Skipped => jobs == old(jobs) && !changed
                case Failed(_, _) => jobs == old(jobs) && !changed
                case Cancelling => jobs == old(jobs) && !changed
                case Running(_, _, start) => jobs == old(jobs)[i := old(jobs)[i].(state := Running(done, total, start))]
                case _ => jobs == old(jobs)[i := old(jobs)[i].(state := Running(done, total, now))]
    {
      ghost var before := Value();
      if Ordered(before) {
        JobMapReads(jobs);
      }
      match FindJobIndex(jobs, t)
      case None =>
        if Ordered(before) {
          NothingMoved(before, View(before));
        }
        return false;
      case Some(i) =>
        if JobTerminal(jobs[i].state) || jobs[i].state.Cancelling? {
          if Ordered(before) {
            NothingMoved(before, View(before));
          }
          return false;
        }
        var started := if jobs[i].state.Running? then jobs[i].state.startedAt else now;
        var state := Running(done, total, started);
        changed := jobs[i].state != state;
        if changed {
          jobs := jobs[i := jobs[i].(state := state)];
        }
        if Ordered(before) {
          ReportRefines(before, Value(), i, done, total, now, changed);
        }
    }

    method AddWarning(w: Warning) returns (changed: bool)
      modifies this`jobs
      ensures old(Ordered(Value())) ==>
                Refines(old(Value()), Value(), NaiveTransfers.AddWarning(View(old(Value())), w), changed)
    {
      ghost var before := Value();
      if Ordered(before) {
        JobMapReads(jobs);
      }
      match FindJobIndex(jobs, w.transferId)
      case None =>
        return false;
      case Some(i) =>
        if w in jobs[i].warnings {
          return false;
        }
        if Ordered(before) {
          ReplaceAt(jobs, i, jobs[i].(warnings := jobs[i].warnings + [w]));
        }
        jobs := jobs[i := jobs[i].(warnings := jobs[i].warnings + [w])];
        return true;
    }

    // ----- the reducer -----

    method ApplyPlanEvent(e: Event, now: Timestamp) returns (changed: bool)
      requires IsPlanEvent(e)
      modifies this
      ensures PlansOnlyRise(old(plans), plans)
      ensures old(Good(Value())) && WellFormed(View(old(Value())), e) ==>
                Refines(old(Value()), Value(), Reduce(View(old(Value())), e, now), changed)
    {
      match e
      case PlanStartedEvent(plan, rootJob) =>
        changed := StartPlan(plan, rootJob);
      case PlanProgressEvent(p, batch, count, bytes) =>
        changed := ExtendPlan(p, batch, count, bytes);
      case PlanCompletedEvent(p) =>
        changed := EndPlanning(p);
      case PlanCancelledEvent(p) =>
        changed := CancelPlan(p);
      case PlanFailedEvent(p, error) =>
        changed := FailPlan(p, error);
    }

    method ApplyJobEvent(e: Event, now: Timestamp) returns (changed: bool)
      requires !IsPlanEvent(e) && !FinishesJob(e)
      modifies this`jobs, this`pendingConflicts
      ensures old(Ordered(Value())) ==>
                Refines(old(Value()), Value(), Reduce(View(old(Value())), e, now), changed)
    {
      match e
      case RunningEvent(job) =>
        changed := TakeSnapshot(job);
      case ConflictEvent(_, _, _, _, _, _, _) =>
        changed := RaiseConflict(NewConflict(e, now));
      case ProgressEvent(t, done, total) =>
        changed := ReportProgress(t, done, total, now);
      case WarningEvent(w) =>
        changed := AddWarning(w);
    }

    method FinishTransfer(e: Event, now: Timestamp) returns (changed: bool)
      requires FinishesJob(e)
      modifies this
      ensures PlansOnlyRise(old(plans), plans)
      ensures old(Good(Value())) ==> Refines(old(Value()), Value(), Reduce(View(old(Value())), e, now), changed)
    {
      ReduceFinish(View(Value()), e, now);
      changed := SetTransferTerminal(e.transferId, EndState(e));
    }

    /**
     Apply one runtime event. Whatever the state and the event, plans only rise.
     From a good store a well-formed event leaves a good store, acts exactly as in
     the naive reducer, does to every field what the event means, and returns true
     iff plans, jobs or conflicts changed.
     */
    method ApplyEvent(e: Event, now: Timestamp) returns (changed: bool)
      modifies this
      ensures PlansOnlyRise(old(plans), plans)
      ensures old(Good(Value())) && WellFormed(View(old(Value())), e) ==>
                && Good(Value())
                && Refines(old(Value()), Value(), Apply(View(old(Value())), e, now), changed)
      ensures old(Good(Value())) && WellFormed(View(old(Value())), e) ==>
                && Means(View(old(Value())), e, now, View(Value()))
                && (changed <==> !Unmoved(View(old(Value())), View(Value())))
    {
      ghost var before := Value();
      justFinishedPlan := None;
      ghost var cleared := Value();
      ClearedIsGood(before, cleared);
      if IsPlanEvent(e) {
        changed := ApplyPlanEvent(e, now);
      } else if FinishesJob(e) {
        changed := FinishTransfer(e, now);
      } else {
        changed := ApplyJobEvent(e, now);
        RisesUnmoved(plans);
      }
      if Good(before) && WellFormed(View(before), e) {
        EventApplied(before, cleared, Value(), e, now, changed);
      }
    }

    /** The same event delivered twice at the same clock: the second time it reports no change, and makes none. */
    method ApplyTwice(e: Event, now: Timestamp) returns (changed: bool, again: bool)
      modifies this
      ensures old(Good(Value())) && WellFormed(View(old(Value())), e) ==>
                && Good(Value())
                && changed == !Same(View(Value()), View(old(Value())))
                && !again
                && Same(View(Value()), Apply(View(old(Value())), e, now))
    {
      ghost var before := Value();
      changed := ApplyEvent(e, now);
      if Good(before) && WellFormed(View(before), e) {
        ReplayStaysWellFormed(View(before), e, now);
        ReplayChangesNothing(View(before), e, now);
      }
      again := ApplyEvent(e, now);
    }

    /**
     A whole run. Plans only rise along any sequence of events; a well-formed run
     from a good store ends where the naive reducer ends.
     */
    method ApplyAll(events: seq<Timed>)
      modifies this
      ensures PlansOnlyRise(old(plans), plans)
      ensures old(Good(Value())) && WellFormedRun(View(old(Value())), events) ==>
                Good(Value()) && View(Value()) == Run(View(old(Value())), events)
    {
      ghost var start := Value();
      assert events[..|events|] == events;
      for i := 0 to |events|
        invariant PlansOnlyRise(start.plans, plans)
        invariant Good(start) && WellFormedRun(View(start), events) ==>
                    Good(Value()) && View(Value()) == Run(View(start), events[..i])
      {
        if Good(start) && WellFormedRun(View(start), events) {
          PrefixWellFormed(View(start), events, i);
        }
        ghost var plansBefore := plans;
        var changed := ApplyEvent(events[i].event, events[i].now);
        RiseTransitive(start.plans, plansBefore, plans);
      }
    }
  }
}
