/** Every operation keeps a job's invariant, only moves its generations forward, and never puts it
    over capacity or breaks a burst's isolation. */
module Jobs {
  import opened Bytes
  import opened Results
  import opened Model
  import opened Policies
  import opened Order
  import opened Sums
  import opened Arbitration
  import opened Traffic
  import opened Authorities
  import opened Operations
  import opened Invariants
  import opened Preservation
  import opened Steps
  import opened Requests
  import opened Bursts

  // ---------------------------------------------------------------------------
  // How a job may change
  // ---------------------------------------------------------------------------

  /** Generations, incarnations and steps only move forward; a step that is not open stays closed. */
  ghost predicate Advances(a: Job, b: Job) {
    && b.id == a.id && b.name == a.name && b.generation == a.generation && b.contract == a.contract
    && b.epoch == a.epoch
    && a.incarnation <= b.incarnation
    && (b.incarnation == a.incarnation ==> b.boot == a.boot)
    && a.retiredSet <= b.retiredSet && a.groups.Keys <= b.groups.Keys
    && (a.retired ==> b.retired)
    && a.topology.generation <= b.topology.generation
    && (b.topology.generation == a.topology.generation ==> b.topology == a.topology)
    && a.highestStep <= b.highestStep && a.lastClosedStep <= b.lastClosedStep
    && (b.step.Some? ==>
          || b.step.value.id > a.highestStep
          || (a.step.Some? && b.step.value.id == a.step.value.id && b.step.value.incarnation == a.step.value.incarnation))
    && a.ids.intent <= b.ids.intent && a.ids.phase <= b.ids.phase && a.ids.burst <= b.ids.burst
    && a.ids.incarnation <= b.ids.incarnation && a.ids.topology <= b.ids.topology
  }

  /** No group is charged more, no flow appears or changes, no burst begins. */
  ghost predicate Shrinks(a: Job, b: Job) {
    && b.topology == a.topology
    && (forall g :: Get(b.load.bps, g) <= Get(a.load.bps, g))
    && (b.step.Some? ==>
          && a.step.Some?
          && (b.step.value.burst == a.step.value.burst || (b.step.value.burst.Some? && !b.step.value.burst.value.active))
          && (forall k :: k in b.step.value.flows ==>
                k in a.step.value.flows && b.step.value.flows[k] == a.step.value.flows[k]))
  }

  lemma ShrinksKeepsSafety(policy: Policy, a: Job, b: Job)
    requires Shrinks(a, b)
    ensures CapacityOk(a.topology.links, a.load) ==> CapacityOk(b.topology.links, b.load)
    ensures b.step.Some? && IsolationOk(policy.classes, a.step.value) ==> IsolationOk(policy.classes, b.step.value)
  {
    hide Tolerated;
  }

  /** A step opened by the operation has no past. */
  ghost function PastAfter(a: Job, b: Job, past: Past): Past {
    if a.step.None? && b.step.Some? then past.(lost := 0) else past
  }

  ghost predicate Kept(env: Env, a: Job, b: Job, past: Past) {
    JobOk(env.config, env.policy, b, PastAfter(a, b, past)) && Advances(a, b)
  }

  lemma SameIsKept(env: Env, job: Job, past: Past)
    requires JobOk(env.config, env.policy, job, past)
    ensures Kept(env, job, job, past) && Shrinks(job, job)
  {
    hide JobOk;
  }

  // ---------------------------------------------------------------------------
  // Operation by operation
  // ---------------------------------------------------------------------------

  lemma RefuseKept(env: Env, job: Job, fence: Fence, onStep: bool, past: Past)
    requires JobOk(env.config, env.policy, job, past)
    ensures var r := RecordRefusal(env, job, fence, onStep); Kept(env, job, r, past) && Shrinks(job, r)
  {
    hide JobOk;
    RefusalKeeps(env, env.policy, job, fence, onStep, past);
  }

  lemma RefusalIsLight(env: Env, job: Job, fence: Fence, onStep: bool)
    ensures var r := RecordRefusal(env, job, fence, onStep); r.load == job.load && r.groups == job.groups
  {}

  /** The operation registers a group that a live flow already names. */
  ghost predicate Tears(a: Job, b: Job, op: JobOp) {
    && op.RegisterGroup? && op.registered.id !in a.groups && op.registered.id in b.groups
    && Named(LiveFlows(a), op.registered.id)
  }

  ghost function Marked(a: Job, b: Job, op: JobOp, past: Past): Past {
    past.(torn := past.torn || Tears(a, b, op))
  }

  lemma RegisterGroupKept(env: Env, job: Job, t: Token, g: Group, past: Past)
    requires JobOk(env.config, env.policy, job, past)
    ensures var r := DoRegisterGroup(env, job, t, g).job; Kept(env, job, r, Marked(job, r, RegisterGroup(t, g), past))
  {
    hide JobOk, JobVerdict, Kept, Shrinks, RecordRefusal, AddGroup, GroupError;
    var v := Resolve(env.policy, job, t, NeedJob);
    SameIsKept(env, job, past);
    if v.error != OK {
      RefuseKept(env, job, FenceOf(env, job, t, v.error), v.onStep, past);
      RefusalIsLight(env, job, FenceOf(env, job, t, v.error), v.onStep);
    } else if GroupError(g) == OK && g.id !in job.groups && |job.groups| < job.contract.maxGroups {
      var marked := past.(torn := past.torn || Named(LiveFlows(job), g.id));
      AddGroupKeeps(env.config, env.policy, job, g, past);
      AddGroupKept(env, job, g, marked);
    }
  }

  lemma AddGroupKept(env: Env, job: Job, g: Group, past: Past)
    requires JobOk(env.config, env.policy, AddGroup(job, g), past)
    ensures Kept(env, job, AddGroup(job, g), past) && g.id in AddGroup(job, g).groups
  {
    hide JobOk;
  }

  lemma RegisterGroupShrinks(env: Env, job: Job, t: Token, g: Group, past: Past)
    requires JobOk(env.config, env.policy, job, past)
    ensures Shrinks(job, DoRegisterGroup(env, job, t, g).job)
  {
    hide JobOk, JobVerdict, Kept, RecordRefusal, GroupError;
    var v := Resolve(env.policy, job, t, NeedJob);
    SameIsKept(env, job, past);
    RefuseKept(env, job, FenceOf(env, job, t, v.error), v.onStep, past);
  }

  lemma RetireJobKept(env: Env, job: Job, t: Token, past: Past)
    requires JobOk(env.config, env.policy, job, past)
    ensures var r := DoRetireJob(env, job, t).job; Kept(env, job, r, past) && Shrinks(job, r)
  {
    hide JobOk, JobVerdict, RecordRefusal, FenceIfOpen, LifecycleOk;
    var v := Resolve(env.policy, job, t, NeedJob);
    RefuseKept(env, job, FenceOf(env, job, t, v.error), v.onStep, past);
    StepIsNewest(env, job, past);
    FenceIfOpenKeeps(env, env.policy, job, JOB_RETIRED, past);
    RetiredKeeps(env.config, env.policy, FenceIfOpen(env, job, JOB_RETIRED), past);
  }

  lemma StepIsNewest(env: Env, job: Job, past: Past)
    requires JobOk(env.config, env.policy, job, past)
    ensures job.step.Some? ==> job.lastClosedStep < job.step.value.id == job.highestStep
    ensures job.incarnation < job.ids.incarnation
  {}

  lemma BeginStepKept(env: Env, job: Job, t: Token, id: nat, deadlineAt: nat, slack: nat, past: Past)
    requires JobOk(env.config, env.policy, job, past)
    ensures var r := DoBeginStep(env, job, t, id, deadlineAt, slack).job;
      && Kept(env, job, r, past)
      && (forall g :: Get(r.load.bps, g) == Get(job.load.bps, g))
      && (Shrinks(job, r) || (r.topology == job.topology && r.step.Some? && r.step.value.flows == map[]))
  {
    hide JobOk, RecordRefusal, BuildReport, Shrinks;
    var v := Resolve(env.policy, job, t, NeedJob);
    if id == 0 || (v.error == OK && (job.step.Some? || id <= job.highestStep)) {
      SameIsKept(env, job, past);
    } else if v.error != OK {
      RefuseKept(env, job, FenceOf(env, job, t, v.error), v.onStep, past);
      RefusalIsLight(env, job, FenceOf(env, job, t, v.error), v.onStep);
    } else {
      NewStepKeeps(env, job, id, deadlineAt, slack, past);
    }
  }

  lemma BeginPhaseKept(env: Env, job: Job, t: Token, spec: PhaseSpec, past: Past)
    requires JobOk(env.config, env.policy, job, past)
    ensures var r := DoBeginPhase(env, job, t, spec).job; Kept(env, job, r, past) && Shrinks(job, r)
  {
    hide JobOk, RecordRefusal, JobVerdict, PhaseSpecError;
    var v := Resolve(env.policy, job, t, NeedStep);
    SameIsKept(env, job, past);
    RefuseKept(env, job, FenceOf(env, job, t, v.error), v.onStep, past);
    if PhaseSpecError(spec) == OK && v.error == OK && spec.group in job.groups
      && |job.step.value.phases| < job.contract.maxPhases {
      OpenPhaseKeeps(env, job, spec, past);
    }
  }

  lemma EndPhaseKept(env: Env, job: Job, t: Token, phase: nat, d: Disposition, past: Past)
    requires JobOk(env.config, env.policy, job, past)
    ensures var r := DoEndPhase(env, job, t, phase, d).job; Kept(env, job, r, past) && Shrinks(job, r)
  {
    hide JobOk, RecordRefusal, JobVerdict, ClosePhase;
    var v := Resolve(env.policy, job, t, NeedStep);
    SameIsKept(env, job, past);
    RefuseKept(env, job, FenceOf(env, job, t, v.error), v.onStep, past);
    if v.error == OK && phase in job.step.value.phases {
      ClosePhaseKeeps(env, job, phase, d, past);
    }
  }

  lemma EndStepKept(env: Env, job: Job, t: Token, end: StepEnd, past: Past)
    requires JobOk(env.config, env.policy, job, past)
    ensures var r := DoEndStep(env, job, t, end).job; Kept(env, job, r, past) && Shrinks(job, r)
  {
    hide JobOk, RecordRefusal, JobVerdict, CancelAll, CloseStep, ClosedOnly;
    var v := Resolve(env.policy, job, t, NeedStep);
    SameIsKept(env, job, past);
    RefuseKept(env, job, FenceOf(env, job, t, v.error), v.onStep, past);
    if v.error == OK {
      var empty := CancelAll(env, job, CANCELLED);
      var d := if end == StepCancelled then Cancelled else Completed;
      var cancelled := end != StepCompleted || job.step.value.flows != map[];
      CancelAllKeeps(env, env.policy, job, CANCELLED, past);
      CloseStepKeeps(env, env.policy, empty, d, cancelled, past);
      ClosesOnly(env, job, empty, d, cancelled);
      StepIsNewest(env, job, past);
      ClosedIsKept(env, job, CloseStep(env, empty, d, cancelled).job, past);
    }
  }

  lemma ClosedIsKept(env: Env, a: Job, b: Job, past: Past)
    requires a.step.Some? && ClosedOnly(a, b) && JobOk(env.config, env.policy, b, past)
    requires a.lastClosedStep < a.step.value.id
    ensures Kept(env, a, b, past) && Shrinks(a, b)
  {
    hide JobOk;
  }

  lemma CompleteKept(env: Env, job: Job, t: Token, intent: nat, bytes: nat, cancelled: bool, past: Past)
    requires JobOk(env.config, env.policy, job, past)
    ensures var r := DoComplete(env, job, t, intent, bytes, cancelled).job; Kept(env, job, r, past) && Shrinks(job, r)
  {
    hide JobOk, JobVerdict, Push, Fewer, SettlePhase, SettleStep, PhaseAccOf, Release;
    CompleteKeeps(env, job, t, intent, bytes, cancelled, past);
    forall f: Flow, g: nat ensures Get(Release(job.load, f).bps, g) <= Get(job.load.bps, g) {
      ReleaseLowers(job.load, f, g);
    }
  }

  lemma RevalidateKept(env: Env, job: Job, t: Token, intent: nat, past: Past)
    requires JobOk(env.config, env.policy, job, past)
    ensures var r := DoRevalidate(env, job, t, intent).job; Kept(env, job, r, past) && Shrinks(job, r)
  {
    hide JobOk, JobVerdict, Find, MappedClass, EffectivePriority;
    RevalidateKeeps(env, job, t, intent, past);
  }

  lemma BeginBurstKept(env: Env, job: Job, t: Token, group: nat, expected: nat, deadlineAt: nat, reason: bytes, past: Past)
    requires JobOk(env.config, env.policy, job, past)
    ensures var r := DoBeginBurst(env, job, t, group, expected, deadlineAt, reason).job;
      && Kept(env, job, r, past)
      && (Shrinks(job, r) || (
            && r.topology == job.topology && r.step.Some? && IsolationOk(env.policy.classes, r.step.value)
            && forall g :: Get(r.load.bps, g) <= Get(job.load.bps, g)))
  {
    hide JobOk, JobVerdict, RecordRefusal, OpenBurst;
    var v := Resolve(env.policy, job, t, NeedStep);
    SameIsKept(env, job, past);
    RefuseKept(env, job, FenceOf(env, job, t, v.error), v.onStep, past);
    if v.error == OK {
      OpenBurstKeeps(env, job, group, expected, deadlineAt, reason, past);
      OpenBurstAdvances(env, job, group, expected, deadlineAt, reason, past);
    }
  }

  lemma OpenBurstAdvances(env: Env, job: Job, group: nat, expected: nat, deadlineAt: nat, reason: bytes, past: Past)
    requires Open(env.config, env.policy, job, past)
    ensures Advances(job, OpenBurst(env, job, group, expected, deadlineAt, reason))
  {
    hide JobOk, IsolateEach, Tolerated;
    var flows := job.step.value.flows;
    IsolateEachKeeps(env, Isolation(job, 0, 0), SortedIds(InGroup(flows, group)), job.ids.burst,
                     past);
  }

  lemma EndBurstKept(env: Env, job: Job, t: Token, burst: nat, past: Past)
    requires JobOk(env.config, env.policy, job, past)
    ensures var r := DoEndBurst(env, job, t, burst).job; Kept(env, job, r, past) && Shrinks(job, r)
  {
    hide JobOk, JobVerdict, RecordRefusal;
    var v := Resolve(env.policy, job, t, NeedStep);
    SameIsKept(env, job, past);
    RefuseKept(env, job, FenceOf(env, job, t, v.error), v.onStep, past);
    if v.error == OK && job.step.value.burst.Some? {
      BurstIsFree(env, job, job.ids.burst, Some(job.step.value.burst.value.(active := false)), past);
    }
  }

  lemma ReplaceKept(env: Env, job: Job, op: JobOp, past: Past)
    requires JobOk(env.config, env.policy, job, past) && op.Replace?
    ensures var r := DoReplace(env, job, op).job; Kept(env, job, r, past) && Shrinks(job, r)
  {
    hide JobOk, FenceIfOpen;
    SameIsKept(env, job, past);
    StepIsNewest(env, job, past);
    FenceIfOpenKeeps(env, env.policy, job, INCARNATION_RETIRED, past);
    ReplaceKeeps(env, env.policy, FenceIfOpen(env, job, INCARNATION_RETIRED), op.boot, op.cause, past);
  }

  lemma RetireIncarnationKept(env: Env, job: Job, t: Token, past: Past)
    requires JobOk(env.config, env.policy, job, past)
    ensures var r := DoRetireIncarnation(env, job, t).job; Kept(env, job, r, past) && Shrinks(job, r)
  {
    hide JobOk, JobVerdict, RecordRefusal, FenceIfOpen;
    var v := Resolve(env.policy, job, t, NeedJob);
    RefuseKept(env, job, FenceOf(env, job, t, v.error), v.onStep, past);
    StepIsNewest(env, job, past);
    FenceIfOpenKeeps(env, env.policy, job, INCARNATION_RETIRED, past);
    RetireKeeps(env, env.policy, FenceIfOpen(env, job, INCARNATION_RETIRED), INCARNATION_RETIRED, past);
  }

  // ---------------------------------------------------------------------------
  // New evidence
  // ---------------------------------------------------------------------------

  lemma PacingKept(env: Env, job: Job, t: Token, group: nat, expected: nat, arrived: nat, spare: bool, past: Past)
    requires JobOk(env.config, env.policy, job, past)
    ensures var r := DoPacing(env, job, t, group, expected, arrived, spare).job; Kept(env, job, r, past) && Shrinks(job, r)
  {
    hide JobOk, JobVerdict, RecordRefusal, Kept, Shrinks;
    var v := Resolve(env.policy, job, t, NeedStep);
    SameIsKept(env, job, past);
    RefuseKept(env, job, FenceOf(env, job, t, v.error), v.onStep, past);
  }

  /** The live flows that new evidence would leave in place. */
  ghost function Survivors(p: Policy, job: Job): map<nat, Flow> {
    if job.step.None? then map[] else
    map k | k in job.step.value.flows && !Invalidates(p, job.step.value, job.step.value.flows[k]) :: job.step.value.flows[k]
  }

  lemma PublishKept(env: Env, job: Job, t: Token, evidence: Label, links: seq<Link>, past: Past)
    requires JobOk(env.config, env.policy, job, past)
    ensures Kept(env, job, DoPublish(env, job, t, evidence, links).job, past)
  {
    hide JobOk, JobVerdict, RecordRefusal, Invalidate, ValidLinks, FirstLinkError;
    var v := Resolve(env.policy, job, t, NeedJob);
    SameIsKept(env, job, past);
    RefuseKept(env, job, FenceOf(env, job, t, v.error), v.onStep, past);
    if v.error == OK && job.ids.topology > 0 && LinksError(links) == OK {
      LinksErrorIff(links);
      RepublishKeeps(env, job, evidence, links, past);
      InvalidateKeeps(env, env.policy, job, STALE_TOPOLOGY_GENERATION, past);
      InvalidateFrame(env, job, STALE_TOPOLOGY_GENERATION, past);
      EvidenceIsOlder(env, job, past);
      if job.step.None? {
        NothingInvalidated(env, job);
      }
    }
  }

  lemma EvidenceIsOlder(env: Env, job: Job, past: Past)
    requires JobOk(env.config, env.policy, job, past)
    ensures job.topology.generation < job.ids.topology
  {}

  /** After republication every group is within capacity exactly when the surviving flows fit the
      new evidence. */
  lemma RepublishCapacityIff(env: Env, job: Job, evidence: Label, links: seq<Link>, past: Past)
    requires JobOk(env.config, env.policy, job, past) && !past.torn
    ensures CapacityOk(links, Republish(env, job, evidence, links).load) <==>
      forall l :: l in links ==> Sum(GroupRate(l.group), Survivors(env.policy, job)) <= l.Available()
    ensures env.policy.strict ==> CapacityOk(links, Republish(env, job, evidence, links).load)
  {
    hide JobOk, Invalidate, Sum;
    var kept := Invalidate(env, job, STALE_TOPOLOGY_GENERATION);
    InvalidateKeeps(env, env.policy, job, STALE_TOPOLOGY_GENERATION, past);
    SurvivorsOf(env, job, past);
    LoadIsSum(env, kept, past);
    assert env.policy.strict ==> Survivors(env.policy, job) == map[];
    forall l | l in links ensures env.policy.strict ==> Sum(GroupRate(l.group), Survivors(env.policy, job)) == 0 {
      SumEmpty(GroupRate(l.group));
    }
  }

  /** Evidence without capacity for the group of a surviving flow. */
  function Drained(f: Flow): seq<Link> {
    [Link(f.group, 0, 0, Synthetic, [])]
  }

  lemma DrainedIsAcceptable(f: Flow)
    requires f.group != 0
    ensures LinksError(Drained(f)) == OK
  {
    var links := Drained(f);
    assert LinkError(links[0]) == OK;
    assert FirstLinkError(f.group, links[1..]) == OK;
    assert FirstLinkError(0, links) == OK;
  }

  /** A surviving flow with a rate is over capacity under drained evidence. */
  lemma DrainedOverfills(env: Env, job: Job, evidence: Label, past: Past, k: nat)
    requires JobOk(env.config, env.policy, job, past) && !past.torn
    requires k in Survivors(env.policy, job) && Survivors(env.policy, job)[k].minBps > 0
    ensures var links := Drained(Survivors(env.policy, job)[k]);
      LinksError(links) == OK && !CapacityOk(links, Republish(env, job, evidence, links).load)
  {
    hide JobOk, Republish, Survivors, CapacityOk;
    var f := Survivors(env.policy, job)[k];
    var links := Drained(f);
    SurvivorIsLive(env, job, past, k);
    DrainedIsAcceptable(f);
    SumAtLeast(GroupRate(f.group), Survivors(env.policy, job), k);
    assert links[0] in links && links[0].Available() == 0 && Weigh(GroupRate(f.group), f) == f.minBps;
    RepublishCapacityIff(env, job, evidence, links, past);
  }

  lemma SurvivorIsLive(env: Env, job: Job, past: Past, k: nat)
    requires JobOk(env.config, env.policy, job, past) && k in Survivors(env.policy, job)
    ensures Survivors(env.policy, job)[k].group != 0
  {
    hide GroupsOk, TopologyOk, HistoryOk, ContractError, LifecycleOk, DecisionsOk, ReceiptsOk, FencesOk, PhasesOk,
         TotalsOk, BytesOk, CountsOk, PhaseCountsOk, FlowDecisionsOk, Wide, Sum, LoadOk, Bounded, Invalidates;
    assert FlowOk(env.policy.classes, job.step.value.flows[k], job.step.value.phases);
  }

  /** Without such a flow the surviving load is nothing, and fits any evidence. */
  lemma NothingOverfills(env: Env, job: Job, evidence: Label, links: seq<Link>, past: Past)
    requires JobOk(env.config, env.policy, job, past) && !past.torn
    requires forall k :: k in Survivors(env.policy, job) ==> Survivors(env.policy, job)[k].minBps == 0
    ensures CapacityOk(links, Republish(env, job, evidence, links).load)
  {
    hide JobOk, Republish, Survivors, CapacityOk;
    RepublishCapacityIff(env, job, evidence, links, past);
    forall l | l in links ensures Sum(GroupRate(l.group), Survivors(env.policy, job)) <= l.Available() {
      SumZero(GroupRate(l.group), Survivors(env.policy, job));
    }
  }

  lemma SurvivorsOf(env: Env, job: Job, past: Past)
    requires JobOk(env.config, env.policy, job, past)
    ensures LiveFlows(Invalidate(env, job, STALE_TOPOLOGY_GENERATION)) == Survivors(env.policy, job)
  {
    hide JobOk, Invalidate, Invalidates;
    InvalidateKeeps(env, env.policy, job, STALE_TOPOLOGY_GENERATION, past);
    if job.step.None? {
      NothingInvalidated(env, job);
    }
  }

  lemma NothingInvalidated(env: Env, job: Job)
    requires job.step.None?
    ensures Invalidate(env, job, STALE_TOPOLOGY_GENERATION) == job
  {}

  lemma LoadIsSum(env: Env, job: Job, past: Past)
    requires JobOk(env.config, env.policy, job, past) && !past.torn
    ensures forall g :: Get(job.load.bps, g) == Sum(GroupRate(g), LiveFlows(job))
  {
    hide Sum;
    forall g ensures Get(job.load.bps, g) == Sum(GroupRate(g), LiveFlows(job)) {
      assert GroupLoadOk(true, job.load, LiveFlows(job), g);
    }
  }

  lemma PublishKeepsIsolation(env: Env, job: Job, t: Token, evidence: Label, links: seq<Link>, past: Past)
    requires JobOk(env.config, env.policy, job, past)
    requires job.step.Some? ==> IsolationOk(env.policy.classes, job.step.value)
    ensures var r := DoPublish(env, job, t, evidence, links).job;
      r.step.Some? ==> IsolationOk(env.policy.classes, r.step.value)
  {
    hide JobOk, JobVerdict, Invalidate, Invalidates, Tolerated, FirstLinkError;
    InvalidateKeeps(env, env.policy, job, STALE_TOPOLOGY_GENERATION, past);
    if job.step.None? {
      NothingInvalidated(env, job);
    }
  }

  // ---------------------------------------------------------------------------
  // Requests
  // ---------------------------------------------------------------------------

  lemma BoundBy(policy: Policy, job: Job, i: Intent)
    requires Accepts(policy, job, i.token, NeedPhase) && IntentError(i) == OK
    ensures Bound(job, i)
  {
    hide JobVerdict;
  }

  lemma RequestKept(env: Env, job: Job, i: Intent, past: Past)
    requires JobOk(env.config, env.policy, job, past) && EnvOk(env)
    requires job.step.Some? ==> Keyed(job.step.value.flows)
    ensures Kept(env, job, DoRequest(env, job, i).job, past)
  {
    hide JobOk, JobVerdict, Decide, EnvOk, Keyed, IntentError;
    var v := Resolve(env.policy, job, i.token, NeedPhase);
    SameIsKept(env, job, past);
    if IntentError(i) == OK {
      if v.error != OK {
        UnboundKeeps(env, job, i, v, past);
      } else {
        BoundBy(env.policy, job, i);
        DecideKeeps(env, job, i, past);
        DecideAdvances(env, job, i, past);
      }
    }
  }

  lemma DecideAdvances(env: Env, job: Job, i: Intent, past: Past)
    requires Open(env.config, env.policy, job, past) && Bound(job, i) && EnvOk(env) && Keyed(job.step.value.flows)
    ensures Advances(job, Decide(env, job, i).job) && Decide(env, job, i).job.step.Some?
  {
    hide JobOk, Judge, CancelEach, EnvOk, Keyed, Push, CountStep, CountPhase, Acquire, AdmitStep;
    AdmitLeavesTheStep(env, job, i, past);
  }

  lemma AdmitLeavesTheStep(env: Env, job: Job, i: Intent, past: Past)
    requires Open(env.config, env.policy, job, past) && Bound(job, i) && EnvOk(env) && Keyed(job.step.value.flows)
    ensures var j := Judge(env, job, i);
      j.Allowed? ==>
        var room := CancelEach(env, job, j.victims, NO_CAPACITY, Some(Defer));
        && room == job.(load := room.load, step := room.step, ledger := room.ledger)
        && room.step.value == job.step.value.(flows := room.step.value.flows, acc := room.step.value.acc,
             phaseAcc := room.step.value.phaseAcc, phaseFlows := room.step.value.phaseFlows)
        && AdmitStep(room.step.value, FlowFor(env, job, i, j)).id == job.step.value.id
        && AdmitStep(room.step.value, FlowFor(env, job, i, j)).incarnation == job.step.value.incarnation
  {
    hide JobOk, Judge, CancelEach, EnvOk, Keyed;
    if Judge(env, job, i).Allowed? {
      RoomFits(env, job, i, past);
    }
  }

  /** What a decision does to the groups' charges and to the live flows. */
  lemma DecideKeepsSafety(env: Env, job: Job, i: Intent, past: Past)
    requires Open(env.config, env.policy, job, past) && Bound(job, i) && EnvOk(env) && Keyed(job.step.value.flows)
    requires CapacityOk(job.topology.links, job.load) && !past.torn
    ensures var r := Decide(env, job, i).job; CapacityOk(r.topology.links, r.load)
  {
    hide Judge, CancelEach, EnvOk, Keyed, Push, CountStep, CountPhase, AdmitStep, JobOk, FindLink;
    var j := Judge(env, job, i);
    if j.Allowed? {
      var room := CancelEach(env, job, j.victims, NO_CAPACITY, Some(Defer));
      var f := FlowFor(env, job, i, j);
      RoomFits(env, job, i, past);
      forall l | l in job.topology.links ensures Get(Acquire(room.load, f).bps, l.group) <= l.Available() {
        assert Get(room.load.bps, l.group) <= Get(job.load.bps, l.group);
        if l.group == i.group {
          LinksAreSorted(env, job, past);
          LinkIsUnique(job.topology.links, l);
        }
      }
    }
  }

  lemma LinksAreSorted(env: Env, job: Job, past: Past)
    requires JobOk(env.config, env.policy, job, past)
    ensures LinksAscend(job.topology.links)
  {}

  lemma DecideKeepsIsolation(env: Env, job: Job, i: Intent, past: Past)
    requires Open(env.config, env.policy, job, past) && Bound(job, i) && EnvOk(env) && Keyed(job.step.value.flows)
    requires IsolationOk(env.policy.classes, job.step.value)
    ensures var r := Decide(env, job, i).job; r.step.Some? ==> IsolationOk(env.policy.classes, r.step.value)
  {
    hide Judge, CancelEach, EnvOk, Keyed, Push, CountStep, CountPhase, JobOk, Find, EffectivePriority, Acquire;
    var j := Judge(env, job, i);
    if j.Allowed? {
      AllowedPassed(env, job, i);
      RoomFits(env, job, i, past);
    }
  }

  // ---------------------------------------------------------------------------
  // Every operation
  // ---------------------------------------------------------------------------

  /** Every operation keeps the invariant and only moves the job forward. */
  lemma PerformKept(env: Env, job: Job, op: JobOp, past: Past)
    requires JobOk(env.config, env.policy, job, past) && EnvOk(env)
    requires job.step.Some? ==> Keyed(job.step.value.flows)
    ensures var r := Perform(env, job, op).job; Kept(env, job, r, Marked(job, r, op, past))
  {
    hide JobOk, EnvOk, Kept, Shrinks, Keyed;
    hide DoRegisterGroup, DoPublish, DoRetireJob, DoBeginStep, DoBeginPhase, DoEndPhase, DoEndStep, DoRequest,
         DoComplete, DoRevalidate, DoBeginBurst, DoEndBurst, DoReplace, DoRetireIncarnation, DoPacing;
    match op
    case RegisterGroup(t, g) => RegisterGroupKept(env, job, t, g, past);
    case Publish(t, evidence, links) => PublishKept(env, job, t, evidence, links, past);
    case RetireJob(t) => RetireJobKept(env, job, t, past);
    case BeginStep(t, step, deadlineAt, slack) => BeginStepKept(env, job, t, step, deadlineAt, slack, past);
    case BeginPhase(t, spec) => BeginPhaseKept(env, job, t, spec, past);
    case EndPhase(t, phase, d) => EndPhaseKept(env, job, t, phase, d, past);
    case EndStep(t, end) => EndStepKept(env, job, t, end, past);
    case Request(i) => RequestKept(env, job, i, past);
    case Complete(t, intent, bytes, cancelled) => CompleteKept(env, job, t, intent, bytes, cancelled, past);
    case RevalidateFlow(t, intent) => RevalidateKept(env, job, t, intent, past);
    case BeginBurst(t, group, expected, deadlineAt, reason) =>
      BeginBurstKept(env, job, t, group, expected, deadlineAt, reason, past);
    case EndBurst(t, burst) => EndBurstKept(env, job, t, burst, past);
    case Replace(_, _, _, _, _, _, _) => ReplaceKept(env, job, op, past);
    case RetireIncarnation(t) => RetireIncarnationKept(env, job, t, past);
    case EvaluatePacing(t, group, expected, arrived, spare) =>
      PacingKept(env, job, t, group, expected, arrived, spare, past);
  }

  /** Operations that neither publish, admit, open a step nor begin a burst only shrink the load. */
  lemma OthersShrink(env: Env, job: Job, op: JobOp, past: Past)
    requires JobOk(env.config, env.policy, job, past)
    requires job.step.Some? ==> Keyed(job.step.value.flows)
    requires !op.Publish? && !op.BeginStep? && !op.Request? && !op.BeginBurst?
    ensures Shrinks(job, Perform(env, job, op).job)
  {
    hide JobOk, EnvOk, Kept, Shrinks, Keyed;
    hide DoRegisterGroup, DoPublish, DoRetireJob, DoBeginStep, DoBeginPhase, DoEndPhase, DoEndStep, DoRequest,
         DoComplete, DoRevalidate, DoBeginBurst, DoEndBurst, DoReplace, DoRetireIncarnation, DoPacing;
    match op
    case RegisterGroup(t, g) => RegisterGroupShrinks(env, job, t, g, past);
    case RetireJob(t) => RetireJobKept(env, job, t, past);
    case BeginPhase(t, spec) => BeginPhaseKept(env, job, t, spec, past);
    case EndPhase(t, phase, d) => EndPhaseKept(env, job, t, phase, d, past);
    case EndStep(t, end) => EndStepKept(env, job, t, end, past);
    case Complete(t, intent, bytes, cancelled) => CompleteKept(env, job, t, intent, bytes, cancelled, past);
    case RevalidateFlow(t, intent) => RevalidateKept(env, job, t, intent, past);
    case EndBurst(t, burst) => EndBurstKept(env, job, t, burst, past);
    case Replace(_, _, _, _, _, _, _) => ReplaceKept(env, job, op, past);
    case RetireIncarnation(t) => RetireIncarnationKept(env, job, t, past);
    case EvaluatePacing(t, group, expected, arrived, spare) =>
      PacingKept(env, job, t, group, expected, arrived, spare, past);
  }

  lemma RefusedIsLight(env: Env, job: Job, i: Intent, v: Verdict, past: Past)
    requires JobOk(env.config, env.policy, job, past)
    ensures Shrinks(job, ConcludeUnbound(env, job, i, v).job)
  {
    hide JobOk, Push;
  }

  /** No operation takes a group over capacity, republication under a strict policy included. */
  lemma PerformKeepsCapacity(env: Env, job: Job, op: JobOp, past: Past)
    requires JobOk(env.config, env.policy, job, past) && EnvOk(env)
    requires job.step.Some? ==> Keyed(job.step.value.flows)
    requires CapacityOk(job.topology.links, job.load) && !past.torn
    requires op.Publish? ==> env.policy.strict
    ensures var r := Perform(env, job, op).job; CapacityOk(r.topology.links, r.load)
  {
    hide JobOk, EnvOk, Kept, Keyed, CapacityOk, Shrinks, Decide, Republish, RecordRefusal, JobVerdict, IsolationOk,
         FirstLinkError, IntentError, ConcludeUnbound;
    hide DoRegisterGroup, DoRetireJob, DoBeginPhase, DoEndPhase, DoEndStep, DoComplete, DoRevalidate, DoBeginBurst,
         DoEndBurst, DoReplace, DoRetireIncarnation, DoBeginStep, DoPacing;
    match op
    case Publish(t, evidence, links) =>
      var v := Resolve(env.policy, job, t, NeedJob);
      RefuseKept(env, job, FenceOf(env, job, t, v.error), v.onStep, past);
      ShrinksKeepsSafety(env.policy, job, Refuse(env, job, t, v).job);
      RepublishCapacityIff(env, job, evidence, links, past);
      RepublishedLinks(env, job, evidence, links);
    case BeginStep(t, step, deadlineAt, slack) =>
      BeginStepKept(env, job, t, step, deadlineAt, slack, past);
      LighterFits(job, DoBeginStep(env, job, t, step, deadlineAt, slack).job);
    case BeginBurst(t, group, expected, deadlineAt, reason) =>
      BeginBurstKept(env, job, t, group, expected, deadlineAt, reason, past);
      LighterFits(job, DoBeginBurst(env, job, t, group, expected, deadlineAt, reason).job);
    case Request(i) =>
      var v := Resolve(env.policy, job, i.token, NeedPhase);
      RefusedIsLight(env, job, i, v, past);
      ShrinksKeepsSafety(env.policy, job, ConcludeUnbound(env, job, i, v).job);
      if v.error == OK && IntentError(i) == OK {
        BoundBy(env.policy, job, i);
        DecideKeepsSafety(env, job, i, past);
      }
    case _ =>
      OthersShrink(env, job, op, past);
      ShrinksKeepsSafety(env.policy, job, Perform(env, job, op).job);
  }

  /** Evidence keeps naming only registered groups when what is published does. */
  lemma PerformKeepsEvidence(env: Env, job: Job, op: JobOp, past: Past)
    requires JobOk(env.config, env.policy, job, past) && EnvOk(env)
    requires job.step.Some? ==> Keyed(job.step.value.flows)
    requires EvidenceRegistered(job)
    requires op.Publish? ==> forall l :: l in op.links ==> l.group in job.groups
    ensures EvidenceRegistered(Perform(env, job, op).job)
  {
    hide JobOk, EnvOk, Keyed, Shrinks, Decide, RecordRefusal, JobVerdict, FirstLinkError, IntentError,
         ConcludeUnbound, EvidenceRegistered, Advances, Invalidate;
    hide DoRegisterGroup, DoRetireJob, DoBeginPhase, DoEndPhase, DoEndStep, DoComplete, DoRevalidate, DoBeginBurst,
         DoEndBurst, DoReplace, DoRetireIncarnation, DoBeginStep, DoPacing;
    PerformKept(env, job, op, past);
    var r := Perform(env, job, op).job;
    match op
    case Publish(t, evidence, links) =>
      var v := Resolve(env.policy, job, t, NeedJob);
      RefuseKept(env, job, FenceOf(env, job, t, v.error), v.onStep, past);
      EvidenceStays(job, Refuse(env, job, t, v).job);
      EvidenceGrows(job, r);
    case BeginStep(t, step, deadlineAt, slack) =>
      BeginStepKept(env, job, t, step, deadlineAt, slack, past);
      EvidenceStays(job, r);
    case BeginBurst(t, group, expected, deadlineAt, reason) =>
      BeginBurstKept(env, job, t, group, expected, deadlineAt, reason, past);
      EvidenceStays(job, r);
    case Request(i) =>
      var v := Resolve(env.policy, job, i.token, NeedPhase);
      RefusedIsLight(env, job, i, v, past);
      if v.error == OK && IntentError(i) == OK {
        BoundBy(env.policy, job, i);
        DecideKeepsLinks(env, job, i, past);
      }
      EvidenceStays(job, r);
    case _ =>
      OthersShrink(env, job, op, past);
      EvidenceStays(job, r);
  }

  lemma EvidenceStays(a: Job, b: Job)
    ensures EvidenceRegistered(a) && Advances(a, b) && (Shrinks(a, b) || b.topology == a.topology) ==> EvidenceRegistered(b)
  {}

  lemma EvidenceGrows(a: Job, b: Job)
    ensures Advances(a, b) && (forall l :: l in b.topology.links ==> l.group in a.groups) ==> EvidenceRegistered(b)
  {}

  lemma DecideKeepsLinks(env: Env, job: Job, i: Intent, past: Past)
    requires Open(env.config, env.policy, job, past) && Bound(job, i) && EnvOk(env) && Keyed(job.step.value.flows)
    ensures Decide(env, job, i).job.topology == job.topology
  {
    hide Judge, CancelEach, EnvOk, Keyed, Push, CountStep, CountPhase, AdmitStep, JobOk, Acquire;
    if Judge(env, job, i).Allowed? {
      RoomFits(env, job, i, past);
    }
  }

  lemma RepublishedLinks(env: Env, job: Job, evidence: Label, links: seq<Link>)
    ensures Republish(env, job, evidence, links).topology.links == links
  {}

  lemma LighterFits(a: Job, b: Job)
    requires CapacityOk(a.topology.links, a.load)
    requires Shrinks(a, b) || (b.topology == a.topology && forall g :: Get(b.load.bps, g) <= Get(a.load.bps, g))
    ensures CapacityOk(b.topology.links, b.load)
  {}

  /** No operation lets an untolerated flow share its group with an active burst. */
  lemma PerformKeepsIsolation(env: Env, job: Job, op: JobOp, past: Past)
    requires JobOk(env.config, env.policy, job, past) && EnvOk(env)
    requires job.step.Some? ==> Keyed(job.step.value.flows) && IsolationOk(env.policy.classes, job.step.value)
    ensures var r := Perform(env, job, op).job; r.step.Some? ==> IsolationOk(env.policy.classes, r.step.value)
  {
    hide JobOk, EnvOk, Kept, Keyed, IsolationOk, Decide, RecordRefusal, JobVerdict, IntentError, ConcludeUnbound,
         Shrinks;
    hide DoRegisterGroup, DoPublish, DoRetireJob, DoBeginPhase, DoEndPhase, DoEndStep, DoComplete, DoRevalidate,
         DoBeginBurst, DoEndBurst, DoReplace, DoRetireIncarnation, DoBeginStep, DoPacing;
    match op
    case Publish(t, evidence, links) => PublishKeepsIsolation(env, job, t, evidence, links, past);
    case BeginStep(t, step, deadlineAt, slack) =>
      BeginStepKept(env, job, t, step, deadlineAt, slack, past);
      ShrinksIfSo(env.policy, job, DoBeginStep(env, job, t, step, deadlineAt, slack).job);
    case BeginBurst(t, group, expected, deadlineAt, reason) =>
      BeginBurstKept(env, job, t, group, expected, deadlineAt, reason, past);
      ShrinksIfSo(env.policy, job, DoBeginBurst(env, job, t, group, expected, deadlineAt, reason).job);
    case Request(i) =>
      var v := Resolve(env.policy, job, i.token, NeedPhase);
      RefusedIsLight(env, job, i, v, past);
      ShrinksIfSo(env.policy, job, ConcludeUnbound(env, job, i, v).job);
      if v.error == OK && IntentError(i) == OK {
        BoundBy(env.policy, job, i);
        DecideKeepsIsolation(env, job, i, past);
      }
    case _ =>
      OthersShrink(env, job, op, past);
      ShrinksIfSo(env.policy, job, Perform(env, job, op).job);
  }

  lemma ShrinksIfSo(policy: Policy, a: Job, b: Job)
    requires a.step.Some? ==> IsolationOk(policy.classes, a.step.value)
    ensures Shrinks(a, b) && b.step.Some? ==> IsolationOk(policy.classes, b.step.value)
    ensures b.step.Some? && b.step.value.flows == map[] ==> IsolationOk(policy.classes, b.step.value)
  {
    hide Tolerated;
  }
}
