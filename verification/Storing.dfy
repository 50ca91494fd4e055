/** Every reachable state can be stored: what a snapshot needs of a job, beyond the invariant, is kept
    by every operation. */
module Storing {
  import opened Bytes
  import opened Results
  import opened Utf8
  import opened Model
  import opened Policies
  import opened Order
  import opened Sums
  import opened Arbitration
  import opened Traffic
  import opened Authorities
  import opened Operations
  import opened Invariants
  import opened Preservation
  import opened Steps
  import opened Requests
  import opened Bursts
  import opened Jobs
  import opened Records

  // ---------------------------------------------------------------------------
  // What is kept
  // ---------------------------------------------------------------------------

  predicate BurstOk(step: Option<Step>) {
    step.Some? && step.value.burst.Some? ==> Text(step.value.burst.value.reason)
  }

  ghost predicate ReportOk(c: Contract, r: Report) {
    && |r.phases| <= c.maxPhases
    && (Bounded(c) ==> forall p :: p in r.phases ==> p.bytesCompleted <= p.bytesCommitted)
  }

  ghost predicate ReportsOk(c: Contract, history: seq<Report>) {
    forall r :: r in history ==> ReportOk(c, r)
  }

  ghost predicate StoreOk(config: Config, job: Job) {
    && Text(job.name) && job.generation != 0 && job.boot.Valid()
    && |job.retiredList| <= config.maxRetired
    && job.ids.intent > 0 && job.ids.burst > 0
    && BurstOk(job.step)
    && ReportsOk(job.contract, job.history)
  }

  /** A change that touches nothing a snapshot checks. */
  ghost predicate Bystander(a: Job, b: Job) {
    && b.name == a.name && b.generation == a.generation && b.boot == a.boot && b.contract == a.contract
    && b.retiredList == a.retiredList && b.history == a.history
    && a.ids.intent <= b.ids.intent && a.ids.burst <= b.ids.burst
    && (BurstOk(a.step) ==> BurstOk(b.step))
  }

  lemma BystanderKeeps(config: Config, a: Job, b: Job)
    requires StoreOk(config, a) && Bystander(a, b)
    ensures StoreOk(config, b)
  {
    hide ReportsOk, Text;
  }

  // ---------------------------------------------------------------------------
  // Reports
  // ---------------------------------------------------------------------------

  lemma {:induction false} SummariesOk(c: Contract, step: Step, ids: seq<nat>)
    requires Bounded(c) ==> forall p :: p in step.phases ==>
               step.phases[p].id == p && PhaseAccOf(step, p).bytesCompleted <= PhaseAccOf(step, p).bytesCommitted
    ensures |Summaries(step, ids)| <= |ids|
    ensures Bounded(c) ==> forall p :: p in Summaries(step, ids) ==> p.bytesCompleted <= p.bytesCommitted
    decreases |ids|
  {
    hide Bounded, PhaseAccOf;
    if ids != [] {
      SummariesOk(c, step, ids[1..]);
    }
  }

  lemma PhaseBytes(policy: Policy, job: Job, lost: nat)
    requires job.step.Some? && StepOk(policy, job, job.step.value, lost)
    ensures var step := job.step.value;
      && (set k | k in step.phaseOrder) == step.phases.Keys && |step.phases| <= job.contract.maxPhases
      && (Bounded(job.contract) ==> forall p :: p in step.phases ==>
            step.phases[p].id == p && PhaseAccOf(step, p).bytesCompleted <= PhaseAccOf(step, p).bytesCommitted)
  {
    hide FlowsOk, TotalsOk, CountsOk, PhaseCountsOk, FlowDecisionsOk, Bounded, Wide, Sum, PhaseSum, Ascending,
         PhaseSpecError, WithinBudget;
  }

  lemma ClosedPhases(step: Step, d: Disposition, at: nat, c: Contract)
    requires Bounded(c) ==> forall p :: p in step.phases ==>
               step.phases[p].id == p && PhaseAccOf(step, p).bytesCompleted <= PhaseAccOf(step, p).bytesCommitted
    ensures var closed := step.(phases := ClosePhases(step.phases, d, at));
      Bounded(c) ==> forall p :: p in closed.phases ==>
        closed.phases[p].id == p && PhaseAccOf(closed, p).bytesCompleted <= PhaseAccOf(closed, p).bytesCommitted
  {
    hide Bounded;
  }

  lemma ReportIsOk(env: Env, policy: Policy, job: Job, d: Disposition, cancelled: bool, lost: nat)
    requires job.step.Some? && StepOk(policy, job, job.step.value, lost)
    ensures ReportOk(job.contract, CloseStep(env, job, d, cancelled).reply.report)
  {
    hide StepOk, Summaries, Bounded, SortedIds, PhaseAccOf, ClosePhases;
    var step := job.step.value.(phases := ClosePhases(job.step.value.phases, d, env.now));
    PhaseBytes(policy, job, lost);
    ClosedPhases(job.step.value, d, env.now, job.contract);
    var ids := set k | k in step.phaseOrder;
    assert ids == job.step.value.phases.Keys;
    assert |ids| <= job.contract.maxPhases;
    SummariesOk(job.contract, step, SortedIds(ids));
  }

  lemma PushKeepsReports(c: Contract, history: seq<Report>, report: Report, cap: nat)
    requires ReportsOk(c, history) && ReportOk(c, report)
    ensures ReportsOk(c, PushHistory(history, report, cap))
  {
    hide ReportOk;
    assert forall r :: r in history + [report] ==> r in history || r == report;
  }

  lemma CloseStepStores(env: Env, policy: Policy, job: Job, d: Disposition, cancelled: bool, past: Past)
    requires Open(env.config, policy, job, past) && StoreOk(env.config, job)
    ensures StoreOk(env.config, CloseStep(env, job, d, cancelled).job)
  {
    hide JobOk, BuildReport, ClosePhases, Text, ReportsOk, ReportOk, PushHistory;
    StepIsOk(env.config, policy, job, past);
    ReportIsOk(env, policy, job, d, cancelled, past.lost);
    PushKeepsReports(job.contract, job.history, CloseStep(env, job, d, cancelled).reply.report, job.contract.historySteps);
  }

  lemma StepIsOk(config: Config, policy: Policy, job: Job, past: Past)
    requires Open(config, policy, job, past)
    ensures StepOk(policy, job, job.step.value, past.lost)
  {
    hide StepOk, LoadOk, ReceiptsOk, DecisionsOk, GroupsOk, TopologyOk, HistoryOk, ContractError;
  }

  lemma TrimmedIsBystander(a: Job, b: Job)
    requires a.step.Some? && Trimmed(a, b)
    ensures Bystander(a, b)
  {
    hide Text;
  }

  lemma RefusalIsBystander(env: Env, job: Job, fence: Fence, onStep: bool)
    ensures Bystander(job, RecordRefusal(env, job, fence, onStep))
  {
    hide Text;
  }

  lemma FenceStepStores(env: Env, policy: Policy, job: Job, reason: ErrorCode, past: Past)
    requires JobOk(env.config, policy, job, past) && StoreOk(env.config, job)
    ensures StoreOk(env.config, FenceIfOpen(env, job, reason))
  {
    hide JobOk, StoreOk, CancelAll, CloseStep, Trimmed, Bystander;
    if job.step.Some? {
      var step := job.step.value;
      var fence := Fence(reason, env.now, step.id, 0, 0, step.incarnation, job.incarnation, job.epoch, job.epoch, 0);
      var fenced := RecordRefusal(env, job, fence, true);
      RefusalKeeps(env, policy, job, fence, true, past);
      RefusalIsBystander(env, job, fence, true);
      BystanderKeeps(env.config, job, fenced);
      CancelAllKeeps(env, policy, fenced, reason, past);
      var empty := CancelAll(env, fenced, reason);
      TrimmedIsBystander(fenced, empty);
      BystanderKeeps(env.config, fenced, empty);
      CloseStepStores(env, policy, empty, Fenced, empty.step.value.acc.cancelled > 0, past);
    }
  }

  // ---------------------------------------------------------------------------
  // Operation by operation
  // ---------------------------------------------------------------------------

  lemma RefuseStores(env: Env, job: Job, fence: Fence, onStep: bool)
    requires StoreOk(env.config, job)
    ensures StoreOk(env.config, RecordRefusal(env, job, fence, onStep))
  {
    hide StoreOk, Bystander, RecordRefusal;
    RefusalIsBystander(env, job, fence, onStep);
    BystanderKeeps(env.config, job, RecordRefusal(env, job, fence, onStep));
  }

  lemma GroupAndEvidenceStore(env: Env, job: Job, op: JobOp, past: Past)
    requires JobOk(env.config, env.policy, job, past) && StoreOk(env.config, job)
    requires op.RegisterGroup? || op.Publish?
    requires job.step.Some? ==> Keyed(job.step.value.flows)
    ensures StoreOk(env.config, Perform(env, job, op).job)
  {
    hide JobOk, JobVerdict, RecordRefusal, Invalidate, Text, ReportsOk, Keyed, GroupError, FirstLinkError;
    var v := Resolve(env.policy, job, op.token, NeedJob);
    RefuseStores(env, job, FenceOf(env, job, op.token, v.error), v.onStep);
    InvalidateKeeps(env, env.policy, job, STALE_TOPOLOGY_GENERATION, past);
    if job.step.None? {
      NothingInvalidated(env, job);
    } else {
      TrimmedIsBystander(job, Invalidate(env, job, STALE_TOPOLOGY_GENERATION));
    }
  }

  lemma RetireCurrentStores(env: Env, job: Job, cause: ErrorCode)
    requires StoreOk(env.config, job)
    ensures StoreOk(env.config, RetireCurrent(env, job, cause))
  {
    hide Text, ReportsOk;
  }

  lemma EndingsStore(env: Env, job: Job, op: JobOp, past: Past)
    requires JobOk(env.config, env.policy, job, past) && StoreOk(env.config, job)
    requires op.RetireJob? || op.RetireIncarnation? || op.Replace?
    requires job.step.Some? ==> Keyed(job.step.value.flows)
    ensures StoreOk(env.config, Perform(env, job, op).job)
  {
    hide JobOk, JobVerdict, RecordRefusal, FenceIfOpen, Text, ReportsOk, Keyed, BurstOk, RetireCurrent;
    var reason := if op.RetireJob? then JOB_RETIRED else INCARNATION_RETIRED;
    var quiet := FenceIfOpen(env, job, reason);
    FenceStepStores(env, env.policy, job, reason, past);
    if op.RetireJob? || op.RetireIncarnation? {
      var v := Resolve(env.policy, job, op.token, NeedJob);
      RefuseStores(env, job, FenceOf(env, job, op.token, v.error), v.onStep);
      RetireCurrentStores(env, quiet, INCARNATION_RETIRED);
    } else {
      RetireCurrentStores(env, quiet, op.cause);
    }
  }

  lemma StepsAndPhasesStore(env: Env, job: Job, op: JobOp, past: Past)
    requires JobOk(env.config, env.policy, job, past) && StoreOk(env.config, job)
    requires op.BeginStep? || op.BeginPhase? || op.EndPhase?
    requires job.step.Some? ==> Keyed(job.step.value.flows)
    ensures StoreOk(env.config, Perform(env, job, op).job)
  {
    hide JobOk, JobVerdict, RecordRefusal, ClosePhase, Text, ReportsOk, Keyed, PhaseSpecError, BuildReport, Trimmed;
    var v := Resolve(env.policy, job, op.token, if op.BeginStep? then NeedJob else NeedStep);
    RefuseStores(env, job, FenceOf(env, job, op.token, v.error), v.onStep);
    if op.EndPhase? && v.error == OK && op.phase in job.step.value.phases {
      ClosePhaseKeeps(env, job, op.phase, op.disposition, past);
      var r := ClosePhase(env, job, op.phase, op.disposition);
      TrimmedIsBystander(job, r.(step := Some(r.step.value.(phases := job.step.value.phases))));
    }
  }

  lemma EndStepStores(env: Env, job: Job, t: Token, end: StepEnd, past: Past)
    requires JobOk(env.config, env.policy, job, past) && StoreOk(env.config, job)
    ensures StoreOk(env.config, DoEndStep(env, job, t, end).job)
  {
    hide JobOk, JobVerdict, RecordRefusal, CancelAll, CloseStep, StoreOk, Trimmed, Bystander;
    var v := Resolve(env.policy, job, t, NeedStep);
    RefuseStores(env, job, FenceOf(env, job, t, v.error), v.onStep);
    if v.error == OK {
      var empty := CancelAll(env, job, CANCELLED);
      CancelAllKeeps(env, env.policy, job, CANCELLED, past);
      TrimmedIsBystander(job, empty);
      BystanderKeeps(env.config, job, empty);
      CloseStepStores(env, env.policy, empty, if end == StepCancelled then Cancelled else Completed,
                      end != StepCompleted || job.step.value.flows != map[], past);
    }
  }

  lemma RequestStores(env: Env, job: Job, i: Intent, past: Past)
    requires JobOk(env.config, env.policy, job, past) && StoreOk(env.config, job) && EnvOk(env)
    requires job.step.Some? ==> Keyed(job.step.value.flows)
    ensures StoreOk(env.config, DoRequest(env, job, i).job)
  {
    hide JobOk, JobVerdict, Decide, EnvOk, Keyed, IntentError, StoreOk, Bystander, ConcludeUnbound;
    var v := Resolve(env.policy, job, i.token, NeedPhase);
    UnboundIsBystander(env, job, i, v);
    BystanderKeeps(env.config, job, ConcludeUnbound(env, job, i, v).job);
    if v.error == OK && IntentError(i) == OK {
      BoundBy(env.policy, job, i);
      DecideIsBystander(env, job, i, past);
      BystanderKeeps(env.config, job, Decide(env, job, i).job);
    }
  }

  lemma UnboundIsBystander(env: Env, job: Job, i: Intent, v: Verdict)
    ensures Bystander(job, ConcludeUnbound(env, job, i, v).job)
  {
    hide Push, Text;
  }

  lemma DecideIsBystander(env: Env, job: Job, i: Intent, past: Past)
    requires Open(env.config, env.policy, job, past) && Bound(job, i) && EnvOk(env) && Keyed(job.step.value.flows)
    ensures Bystander(job, Decide(env, job, i).job)
  {
    hide JobOk, Judge, CancelEach, EnvOk, Keyed, Push, CountStep, CountPhase, Acquire, Text;
    if Judge(env, job, i).Allowed? {
      RoomFits(env, job, i, past);
    }
  }

  lemma FlowsAndBurstsStore(env: Env, job: Job, op: JobOp, past: Past)
    requires JobOk(env.config, env.policy, job, past) && StoreOk(env.config, job)
    requires op.Complete? || op.RevalidateFlow? || op.EndBurst?
    requires job.step.Some? ==> Keyed(job.step.value.flows)
    ensures StoreOk(env.config, Perform(env, job, op).job)
  {
    hide JobOk, JobVerdict, Push, Fewer, SettleStep, SettlePhase, PhaseAccOf, Release, Text, ReportsOk, Keyed, Find,
         MappedClass, EffectivePriority, RecordRefusal;
    var v := Resolve(env.policy, job, op.token, NeedStep);
    match op
    case Complete(t, intent, bytes, cancelled) => CompleteIsBystander(env, job, t, intent, bytes, cancelled);
    case RevalidateFlow(t, intent) => RefuseStores(env, job, FenceOf(env, job, t, v.error), v.onStep);
    case EndBurst(t, burst) => RefuseStores(env, job, FenceOf(env, job, t, v.error), v.onStep);
  }

  lemma CompleteIsBystander(env: Env, job: Job, t: Token, intent: nat, bytes: nat, cancelled: bool)
    ensures Bystander(job, DoComplete(env, job, t, intent, bytes, cancelled).job)
  {
    hide JobVerdict, Push, Fewer, SettleStep, SettlePhase, PhaseAccOf, Release, Text;
  }

  lemma BeginBurstStores(env: Env, job: Job, t: Token, group: nat, expected: nat, deadlineAt: nat, reason: bytes,
                         past: Past)
    requires JobOk(env.config, env.policy, job, past) && StoreOk(env.config, job)
    ensures StoreOk(env.config, DoBeginBurst(env, job, t, group, expected, deadlineAt, reason).job)
  {
    hide JobOk, JobVerdict, RecordRefusal, IsolateEach, Tolerated, ReportsOk, TextError;
    var v := Resolve(env.policy, job, t, NeedStep);
    RefuseStores(env, job, FenceOf(env, job, t, v.error), v.onStep);
    if v.error == OK {
      var flows := job.step.value.flows;
      IsolateEachKeeps(env, Isolation(job, 0, 0), SortedIds(InGroup(flows, group)),
                       job.ids.burst, past);
    }
  }

  lemma PacingStores(env: Env, job: Job, t: Token, group: nat, expected: nat, arrived: nat, spare: bool)
    requires StoreOk(env.config, job)
    ensures StoreOk(env.config, DoPacing(env, job, t, group, expected, arrived, spare).job)
  {
    hide JobVerdict, RecordRefusal, StoreOk;
    var v := Resolve(env.policy, job, t, NeedStep);
    RefuseStores(env, job, FenceOf(env, job, t, v.error), v.onStep);
  }

  lemma PerformStores(env: Env, job: Job, op: JobOp, past: Past)
    requires JobOk(env.config, env.policy, job, past) && StoreOk(env.config, job) && EnvOk(env)
    requires job.step.Some? ==> Keyed(job.step.value.flows)
    ensures StoreOk(env.config, Perform(env, job, op).job)
  {
    hide JobOk, EnvOk, Keyed, StoreOk;
    hide DoRegisterGroup, DoPublish, DoRetireJob, DoBeginStep, DoBeginPhase, DoEndPhase, DoEndStep, DoRequest,
         DoComplete, DoRevalidate, DoBeginBurst, DoEndBurst, DoReplace, DoRetireIncarnation, DoPacing;
    match op
    case EndStep(t, end) => EndStepStores(env, job, t, end, past);
    case Request(i) => RequestStores(env, job, i, past);
    case BeginBurst(t, group, expected, deadlineAt, reason) =>
      BeginBurstStores(env, job, t, group, expected, deadlineAt, reason, past);
    case EvaluatePacing(t, group, expected, arrived, spare) =>
      PacingStores(env, job, t, group, expected, arrived, spare);
    case _ =>
      if op.RegisterGroup? || op.Publish? {
        GroupAndEvidenceStore(env, job, op, past);
      } else if op.RetireJob? || op.RetireIncarnation? || op.Replace? {
        EndingsStore(env, job, op, past);
      } else if op.BeginStep? || op.BeginPhase? || op.EndPhase? {
        StepsAndPhasesStore(env, job, op, past);
      } else {
        FlowsAndBurstsStore(env, job, op, past);
      }
  }
}
