/** The step's total rate is exact while evidence covers every live flow, whatever the contract allows. */
module Rates {
  import opened Bytes
  import opened Results
  import opened Utf8
  import opened Codec
  import opened Model
  import opened Policies
  import opened Order
  import opened Sums
  import opened Arbitration
  import opened Traffic
  import opened Authorities
  import opened Operations
  import opened Invariants
  import opened Preservation
  import opened Steps
  import opened Requests
  import opened Jobs
  import opened Durable
  import opened Runs
  import opened Laws
  import opened Safety

  // ---------------------------------------------------------------------------
  // What covered flows can add up to
  // ---------------------------------------------------------------------------

  /** The evidence speaks of the group of every flow. */
  ghost predicate Covered(links: seq<Link>, flows: map<nat, Flow>) {
    forall k :: k in flows ==> exists l :: l in links && l.group == flows[k].group
  }

  ghost predicate EachGroupFits(flows: map<nat, Flow>) {
    forall g :: Sum(GroupRate(g), flows) <= MAX_RATE_BPS
  }

  function Outside(flows: map<nat, Flow>, g: nat): map<nat, Flow> {
    map k | k in flows && flows[k].group != g :: flows[k]
  }

  lemma {:induction false} OutsideSums(flows: map<nat, Flow>, g: nat, h: nat)
    ensures Sum(Rate, flows) == Sum(GroupRate(g), flows) + Sum(Rate, Outside(flows, g))
    ensures Sum(GroupRate(h), Outside(flows, g)) <= Sum(GroupRate(h), flows)
    decreases |flows|
  {
    hide Sum;
    if flows == map[] {
      assert Outside(flows, g) == map[];
      SumEmpty(Rate);
      SumEmpty(GroupRate(g));
      SumEmpty(GroupRate(h));
    } else {
      var k :| k in flows;
      var fewer := flows - {k};
      OutsideSums(fewer, g, h);
      SumRemove(Rate, flows, k);
      SumRemove(GroupRate(g), flows, k);
      SumRemove(GroupRate(h), flows, k);
      if flows[k].group == g {
        assert Outside(fewer, g) == Outside(flows, g);
      } else {
        assert Outside(fewer, g) == Outside(flows, g) - {k};
        SumRemove(Rate, Outside(flows, g), k);
        SumRemove(GroupRate(h), Outside(flows, g), k);
      }
    }
  }

  /** Each link carries at most the largest rate. */
  lemma {:induction false} CoveredBound(links: seq<Link>, flows: map<nat, Flow>)
    requires Covered(links, flows) && EachGroupFits(flows)
    ensures Sum(Rate, flows) <= |links| * MAX_RATE_BPS
    decreases |links|
  {
    hide Sum;
    if links == [] {
      assert flows == map[];
      SumEmpty(Rate);
    } else {
      var g := links[0].group;
      var rest := Outside(flows, g);
      OutsideSums(flows, g, g);
      forall k | k in rest ensures exists l :: l in links[1..] && l.group == rest[k].group {
        var l :| l in links && l.group == flows[k].group;
        assert l in links[1..];
      }
      forall h ensures Sum(GroupRate(h), rest) <= MAX_RATE_BPS {
        OutsideSums(flows, g, h);
      }
      CoveredBound(links[1..], rest);
      assert Sum(GroupRate(g), flows) <= MAX_RATE_BPS;
    }
  }

  // ---------------------------------------------------------------------------
  // The step's total rate, operation by operation
  // ---------------------------------------------------------------------------

  ghost predicate Exact(links: seq<Link>, a: StepAcc, flows: map<nat, Flow>) {
    a.activeMin == Sum(Rate, flows) && Covered(links, flows)
  }

  ghost predicate RatesOk(job: Job) {
    job.step.Some? ==> Exact(job.topology.links, job.step.value.acc, job.step.value.flows)
  }

  /** What charges and flows have to do with it, and nothing else. */
  ghost predicate SameRates(a: Job, b: Job) {
    && a.step.Some? && b.step.Some? && b.topology.links == a.topology.links
    && b.step.value.flows == a.step.value.flows && b.step.value.acc.activeMin == a.step.value.acc.activeMin
  }

  lemma CancelOneRates(env: Env, job: Job, id: nat, reason: ErrorCode, mark: Option<Outcome>)
    requires job.step.Some? && Keyed(job.step.value.flows) && RatesOk(job)
    ensures var r := CancelOne(env, job, id, reason, mark);
      RatesOk(r) && Keyed(r.step.value.flows) && r.topology == job.topology
  {
    hide Sum, Push, Mark, SettlePhase, Fewer, Release, PhaseAccOf;
    if id in job.step.value.flows {
      SumRemove(Rate, job.step.value.flows, id);
    }
  }

  lemma {:induction false} CancelEachRates(env: Env, job: Job, ids: seq<nat>, reason: ErrorCode, mark: Option<Outcome>)
    requires job.step.Some? && Keyed(job.step.value.flows) && RatesOk(job)
    ensures var r := CancelEach(env, job, ids, reason, mark);
      RatesOk(r) && Keyed(r.step.value.flows) && r.topology == job.topology
    decreases |ids|
  {
    hide CancelOne, RatesOk, Keyed;
    if ids != [] {
      CancelOneRates(env, job, ids[0], reason, mark);
      CancelEachRates(env, CancelOne(env, job, ids[0], reason, mark), ids[1..], reason, mark);
    }
  }

  lemma CompleteRates(env: Env, job: Job, f: Flow, completed: bool, bytes: nat, reason: ErrorCode)
    requires job.step.Some? && RatesOk(job) && f.intent in job.step.value.flows && job.step.value.flows[f.intent] == f
    ensures RatesOk(CloseFlow(env, job, f, completed, bytes, reason))
  {
    hide Sum, Push, SettlePhase, Fewer, Release, PhaseAccOf, Add64;
    SumRemove(Rate, job.step.value.flows, f.intent);
  }

  lemma ThrottleRates(job: Job, f: Flow, ceiling: nat, burst: nat)
    requires job.step.Some? && Keyed(job.step.value.flows) && RatesOk(job) && ceiling <= f.minBps
    requires f.intent in job.step.value.flows && job.step.value.flows[f.intent] == f
    ensures var r := ThrottleFlow(job, f, ceiling, burst);
      RatesOk(r) && Keyed(r.step.value.flows) && r.topology == job.topology
  {
    hide Sum, MarkThrottled, Lower;
    var flows, r := job.step.value.flows, ThrottleFlow(job, f, ceiling, burst);
    SumRemove(Rate, flows, f.intent);
    SumPut(Rate, flows, f.intent, r.step.value.flows[f.intent]);
    forall k | k in r.step.value.flows ensures exists l :: l in job.topology.links && l.group == r.step.value.flows[k].group {
      assert k in flows && r.step.value.flows[k].group == flows[k].group;
    }
  }

  lemma IsolateOneRates(env: Env, s: Isolation, id: nat, burst: nat)
    requires s.job.step.Some? && Keyed(s.job.step.value.flows) && RatesOk(s.job)
    ensures var r := IsolateOne(env, s, id, burst).job;
      RatesOk(r) && Keyed(r.step.value.flows) && r.topology == s.job.topology
  {
    hide CancelOne, ThrottleFlow, RatesOk, Find;
    var flows := s.job.step.value.flows;
    if id in flows {
      CancelOneRates(env, s.job, id, ISOLATION_ACTIVE, Some(Defer));
      var spec := Find(env.policy.classes, flows[id].cls);
      if spec.Some? && flows[id].minBps > spec.value.isolationCeiling {
        ThrottleRates(s.job, flows[id], spec.value.isolationCeiling, burst);
      }
    }
  }

  lemma {:induction false} IsolateEachRates(env: Env, s: Isolation, ids: seq<nat>, burst: nat)
    requires s.job.step.Some? && Keyed(s.job.step.value.flows) && RatesOk(s.job)
    ensures RatesOk(IsolateEach(env, s, ids, burst).job)
    decreases |ids|
  {
    hide IsolateOne, RatesOk, Keyed;
    if ids != [] {
      IsolateOneRates(env, s, ids[0], burst);
      IsolateEachRates(env, IsolateOne(env, s, ids[0], burst), ids[1..], burst);
    }
  }

  lemma SameStays(a: Job, b: Job)
    requires RatesOk(a) && (SameRates(a, b) || b.step.None?)
    ensures RatesOk(b)
  {
    hide Sum;
  }

  // ---------------------------------------------------------------------------
  // Admission
  // ---------------------------------------------------------------------------

  /** Charging one more flow, within its group's capacity, to covered flows: the total does not wrap. */
  lemma OneMoreFits(links: seq<Link>, flows: map<nat, Flow>, f: Flow)
    requires Covered(links, flows) && EachGroupFits(flows) && |links| <= MAX_COLLECTION_ITEMS
    requires f.intent !in flows && (exists l :: l in links && l.group == f.group)
    requires Sum(GroupRate(f.group), flows) + f.minBps <= MAX_RATE_BPS
    ensures Covered(links, flows[f.intent := f])
    ensures Sum(Rate, flows[f.intent := f]) == Sum(Rate, flows) + f.minBps < WRAP64
  {
    hide Sum;
    var more := flows[f.intent := f];
    assert flows - {f.intent} == flows;
    SumPut(Rate, flows, f.intent, f);
    forall g ensures Sum(GroupRate(g), more) <= MAX_RATE_BPS {
      SumPut(GroupRate(g), flows, f.intent, f);
    }
    forall k | k in more ensures exists l :: l in links && l.group == more[k].group {
      assert k == f.intent || k in flows;
    }
    CoveredBound(links, more);
  }

  lemma LoadBounds(config: Config, policy: Policy, job: Job, past: Past)
    requires Open(config, policy, job, past) && !past.torn
    ensures EachGroupFits(job.step.value.flows) && |job.topology.links| <= MAX_COLLECTION_ITEMS
    ensures forall g :: Get(job.load.bps, g) == Sum(GroupRate(g), job.step.value.flows)
    ensures job.ids.intent !in job.step.value.flows
  {
    hide Sum, GroupsOk, HistoryOk, DecisionsOk, ReceiptsOk, PhasesOk, KeysOk, TotalsOk, BytesOk, CountsOk,
         PhaseCountsOk, FlowDecisionsOk, Bounded, Wide, ContractError, LinksAscend, LinkError, FlowOk, LoadOk;
    LoadOf(config, policy, job, past);
    LoadSums(job.load, job.step.value.flows);
  }

  lemma LoadSums(load: Load, flows: map<nat, Flow>)
    requires LoadOk(true, load, flows)
    ensures EachGroupFits(flows) && forall g :: Get(load.bps, g) == Sum(GroupRate(g), flows)
  {
    hide Sum;
    forall g ensures Get(load.bps, g) == Sum(GroupRate(g), flows) <= MAX_RATE_BPS {
      assert GroupLoadOk(true, load, flows, g);
    }
  }

  lemma AdmitRates(env: Env, room: Job, f: Flow, d: Decision, past: Past)
    requires Open(env.config, env.policy, room, past) && RatesOk(room) && !past.torn
    requires f.intent == room.ids.intent && (exists l :: l in room.topology.links && l.group == f.group)
    requires Get(room.load.bps, f.group) + f.minBps <= MAX_RATE_BPS
    ensures RatesOk(AdmitFlow(env, room, f, d))
  {
    hide JobOk, Sum, Push, CountPhase, PhaseAccOf, Acquire, EachGroupFits, Covered;
    LoadBounds(env.config, env.policy, room, past);
    OneMoreFits(room.topology.links, room.step.value.flows, f);
  }

  lemma ConcludeRates(env: Env, job: Job, phase: nat, d: Decision)
    requires job.step.Some?
    ensures SameRates(job, Conclude(env, job, phase, d))
  {
    hide Push, CountPhase, PhaseAccOf;
  }

  lemma DecideRates(env: Env, job: Job, i: Intent, past: Past)
    requires Open(env.config, env.policy, job, past) && Bound(job, i) && EnvOk(env) && Keyed(job.step.value.flows)
    requires RatesOk(job) && !past.torn
    ensures RatesOk(Decide(env, job, i).job)
  {
    hide Judge, Arbitrate, FindLink, CancelEach, JobOk, EnvOk, Conclude, AdmitFlow, RatesOk, Keyed, DecisionFor;
    var j := Judge(env, job, i);
    var d := if j == Denied(INTERNAL) then BaseDecision(env, job, i, UnknownPhase) else DecisionFor(env, job, i, j);
    if j.Allowed? {
      var room := CancelEach(env, job, j.victims, NO_CAPACITY, Some(Defer));
      RoomFits(env, job, i, past);
      CancelEachRates(env, job, j.victims, NO_CAPACITY, Some(Defer));
      RoomKeepsIds(job, room);
      AdmitRates(env, room, FlowFor(env, job, i, j), d, past);
    } else {
      ConcludeRates(env, job, i.token.phase, d);
      SameStays(job, Decide(env, job, i).job);
    }
  }

  lemma RoomKeepsIds(job: Job, room: Job)
    requires job.step.Some? && Trimmed(job, room)
    ensures room.ids.intent == job.ids.intent
  {}

  // ---------------------------------------------------------------------------
  // Any operation
  // ---------------------------------------------------------------------------

  lemma RefuseRates(env: Env, job: Job, fence: Fence, onStep: bool)
    requires RatesOk(job)
    ensures RatesOk(RecordRefusal(env, job, fence, onStep))
  {
    hide Sum;
  }

  lemma InvalidateRates(env: Env, job: Job, cause: ErrorCode)
    requires RatesOk(job) && (job.step.Some? ==> Keyed(job.step.value.flows))
    ensures RatesOk(Invalidate(env, job, cause)) && Invalidate(env, job, cause).topology == job.topology
  {
    hide CancelEach, RatesOk, Keyed, Doomed, SortedIds;
    if job.step.Some? {
      CancelEachRates(env, job, SortedIds(Doomed(env.policy, job.step.value)), cause, Some(Revalidate));
    }
  }

  lemma DoCompleteRates(env: Env, job: Job, t: Token, intent: nat, bytes: nat, cancelled: bool)
    requires RatesOk(job) && (job.step.Some? ==> Keyed(job.step.value.flows))
    ensures RatesOk(DoComplete(env, job, t, intent, bytes, cancelled).job)
  {
    hide JobVerdict, CloseFlow, RatesOk, RecordRefusal;
    var v := Resolve(env.policy, job, t, NeedStep);
    var plain := Fence(OK, env.now, t.step, t.phase, intent, 0, 0, 0, 0, 0);
    RefuseRates(env, job, FenceOf(env, job, t, v.error), v.onStep);
    RefuseRates(env, job, FenceOf(env, job, t, FLOW_ALREADY_CLOSED), v.onStep);
    RefuseRates(env, job, plain.(reason := FLOW_ALREADY_CLOSED), true);
    RefuseRates(env, job, plain.(reason := FLOW_NOT_ACTIVE), true);
    if v.error == OK && intent in job.step.value.flows {
      CompleteRates(env, job, job.step.value.flows[intent], !cancelled, bytes, CANCELLED);
    }
  }

  lemma PhaseRates(env: Env, job: Job, phase: nat, d: Disposition)
    requires job.step.Some? && phase in job.step.value.phases && Keyed(job.step.value.flows) && RatesOk(job)
    ensures RatesOk(ClosePhase(env, job, phase, d))
  {
    hide CancelEach, Keyed, SortedIds, Sum, Covered;
    CancelEachRates(env, job, SortedIds(InPhase(job.step.value.flows, phase)), CANCELLED, None);
  }

  lemma BurstRates(env: Env, job: Job, group: nat, expected: nat, deadlineAt: nat, reason: bytes)
    requires job.step.Some? && Keyed(job.step.value.flows) && RatesOk(job)
    ensures RatesOk(OpenBurst(env, job, group, expected, deadlineAt, reason))
  {
    hide IsolateEach, Keyed, SortedIds, Sum, Covered;
    IsolateEachRates(env, Isolation(job, 0, 0), SortedIds(InGroup(job.step.value.flows, group)), job.ids.burst);
  }

  /** Under a strict policy nothing survives new evidence, so nothing is left uncovered by it. */
  lemma RepublishRates(env: Env, job: Job, evidence: Label, links: seq<Link>, past: Past)
    requires JobOk(env.config, env.policy, job, past) && RatesOk(job) && env.policy.strict
    requires job.step.Some? ==> Keyed(job.step.value.flows)
    ensures RatesOk(Republish(env, job, evidence, links))
  {
    hide JobOk, Invalidate, Sum, Keyed;
    InvalidateRates(env, job, STALE_TOPOLOGY_GENERATION);
    InvalidateKeeps(env, env.policy, job, STALE_TOPOLOGY_GENERATION, past);
    if job.step.Some? {
      SurvivorsOf(env, job, past);
      assert LiveFlows(Invalidate(env, job, STALE_TOPOLOGY_GENERATION)) == map[];
    } else {
      NothingInvalidated(env, job);
    }
  }

  lemma RequestRates(env: Env, job: Job, i: Intent, past: Past)
    requires JobOk(env.config, env.policy, job, past) && EnvOk(env) && RatesOk(job) && !past.torn
    requires job.step.Some? ==> Keyed(job.step.value.flows)
    ensures RatesOk(DoRequest(env, job, i).job)
  {
    hide JobOk, EnvOk, JobVerdict, Decide, RatesOk, Keyed, IntentError, RecordRefusal;
    var v := Resolve(env.policy, job, i.token, NeedPhase);
    var fenced := RecordRefusal(env, job, FenceOf(env, job, i.token, v.error), v.onStep);
    RefuseRates(env, job, FenceOf(env, job, i.token, v.error), v.onStep);
    UnboundRates(fenced, ConcludeUnbound(env, job, i, v).job);
    if v.error == OK && IntentError(i) == OK {
      BoundBy(env.policy, job, i);
      DecideRates(env, job, i, past);
    }
  }

  lemma UnboundRates(fenced: Job, r: Job)
    requires RatesOk(fenced) && r.step == fenced.step && r.topology == fenced.topology
    ensures RatesOk(r)
  {}

  /** No operation loses the exact total, republication under a strict policy included. */
  lemma PerformKeepsRates(env: Env, job: Job, op: JobOp, past: Past)
    requires JobOk(env.config, env.policy, job, past) && EnvOk(env) && RatesOk(job) && !past.torn
    requires job.step.Some? ==> Keyed(job.step.value.flows)
    requires op.Publish? ==> env.policy.strict
    ensures RatesOk(Perform(env, job, op).job)
  {
    hide JobOk, EnvOk, Keyed, JobVerdict, RecordRefusal, DoRequest, DoComplete, ClosePhase, OpenBurst, Republish,
         CancelAll, Sum, Covered, FirstLinkError, GroupError, PhaseSpecError;
    match op
    case Request(i) => RequestRates(env, job, i, past);
    case Complete(t, intent, bytes, cancelled) => DoCompleteRates(env, job, t, intent, bytes, cancelled);
    case Replace(_, _, _, _, _, _, _) =>
    case other =>
      var t := op.token;
      var v := Resolve(env.policy, job, t, if NeedsJob(op) then NeedJob else NeedStep);
      RefuseRates(env, job, FenceOf(env, job, t, v.error), v.onStep);
      if v.error == OK {
        AcceptedRates(env, job, op, past);
      }
  }

  predicate NeedsJob(op: JobOp) {
    op.RegisterGroup? || op.Publish? || op.RetireJob? || op.BeginStep? || op.RetireIncarnation?
  }

  predicate EndsStep(op: JobOp) {
    op.RetireJob? || op.EndStep? || op.RetireIncarnation?
  }

  lemma AcceptedRates(env: Env, job: Job, op: JobOp, past: Past)
    requires JobOk(env.config, env.policy, job, past) && EnvOk(env) && RatesOk(job)
    requires job.step.Some? ==> Keyed(job.step.value.flows)
    requires op.Publish? ==> env.policy.strict
    requires !op.Request? && !op.Complete? && !op.Replace?
    requires Resolve(env.policy, job, op.token, if NeedsJob(op) then NeedJob else NeedStep).error == OK
    ensures RatesOk(Perform(env, job, op).job)
  {
    hide JobOk, EnvOk, Keyed, JobVerdict, Perform, Resolve;
    if EndsStep(op) {
      EndingLeavesNoStep(env, job, op);
      SameStays(job, Perform(env, job, op).job);
    } else {
      OpenRates(env, job, op, past);
    }
  }

  lemma EndingLeavesNoStep(env: Env, job: Job, op: JobOp)
    requires EndsStep(op)
    requires Resolve(env.policy, job, op.token, if NeedsJob(op) then NeedJob else NeedStep).error == OK
    ensures Perform(env, job, op).job.step.None?
  {
    hide JobVerdict, CancelAll, BuildReport, PushHistory, ClosePhases, RecordFence;
  }

  lemma OpenRates(env: Env, job: Job, op: JobOp, past: Past)
    requires JobOk(env.config, env.policy, job, past) && EnvOk(env) && RatesOk(job)
    requires job.step.Some? ==> Keyed(job.step.value.flows)
    requires op.Publish? ==> env.policy.strict
    requires !op.Request? && !op.Complete? && !op.Replace? && !EndsStep(op)
    requires Resolve(env.policy, job, op.token, if NeedsJob(op) then NeedJob else NeedStep).error == OK
    ensures RatesOk(Perform(env, job, op).job)
  {
    hide JobOk, EnvOk, Keyed, RatesOk, Resolve, ClosePhase, OpenBurst, Republish, FirstLinkError, BuildReport, NewStep,
         DoRegisterGroup, DoBeginPhase, DoRevalidate, DoEndBurst, DoPacing;
    match op
    case Publish(t, evidence, links) => RepublishRates(env, job, evidence, links, past);
    case BeginStep(t, step, deadlineAt, slack) => NewStepRates(env, job, step, deadlineAt, slack);
    case EndPhase(t, phase, d) =>
      StepIsOpen(env, job, t);
      if phase in job.step.value.phases {
        PhaseRates(env, job, phase, d);
      }
    case BeginBurst(t, group, expected, deadlineAt, reason) =>
      StepIsOpen(env, job, t);
      BurstRates(env, job, group, expected, deadlineAt, reason);
    case _ =>
      QuietRates(env, job, op);
      SameStays(job, Perform(env, job, op).job);
  }

  lemma StepIsOpen(env: Env, job: Job, t: Token)
    requires Resolve(env.policy, job, t, NeedStep).error == OK
    ensures job.step.Some?
  {
    hide JobVerdict;
  }

  predicate Quiet(op: JobOp) {
    op.RegisterGroup? || op.BeginPhase? || op.RevalidateFlow? || op.EndBurst? || op.EvaluatePacing?
  }

  lemma QuietRates(env: Env, job: Job, op: JobOp)
    requires Quiet(op) && Resolve(env.policy, job, op.token, if NeedsJob(op) then NeedJob else NeedStep).error == OK
    ensures var r := Perform(env, job, op).job; if job.step.Some? then SameRates(job, r) else r.step.None?
  {
    hide JobVerdict, GroupError, PhaseSpecError, EffectivePriority, MappedClass, Find, Refuse, PacingError;
  }

  lemma NewStepRates(env: Env, job: Job, step: nat, deadlineAt: nat, slack: nat)
    ensures RatesOk(job.(step := Some(NewStep(env, job, step, deadlineAt, slack)), highestStep := step))
  {
    hide Exact;
    NothingRates(job.topology.links);
  }

  lemma NothingRates(links: seq<Link>)
    ensures Exact(links, NO_STEP_ACC, map[])
  {
    SumEmpty(Rate);
  }

  // ---------------------------------------------------------------------------
  // Any run
  // ---------------------------------------------------------------------------

  ghost predicate AllRates(w: World) {
    forall k :: k in w.state.jobs && k in w.pasts && !w.pasts[k].torn ==> RatesOk(w.state.jobs[k])
  }

  lemma EpochRates(job: Job, epoch: nat)
    requires RatesOk(job)
    ensures RatesOk(job.(epoch := epoch))
  {}

  lemma DurableRates(job: Job)
    ensures RatesOk(DurableJob(job))
  {
    hide Exact;
    NothingRates(job.topology.links);
    if job.step.Some? {
      DurableLeaves(job.step.value);
      NoFlowsExact(job.topology.links, DurableStep(job.step.value).acc);
    }
  }

  lemma NoFlowsExact(links: seq<Link>, a: StepAcc)
    requires a.activeMin == 0
    ensures Exact(links, a, map[])
  {
    SumEmpty(Rate);
  }

  lemma CallKeepsRates(w: World, call: Call, k: nat)
    requires WorldOk(w) && Permitted(w.state, call) && StrictPublication(w.state, call)
    requires k in After(w, call).state.jobs
    requires k in w.state.jobs && k in w.pasts && !w.pasts[k].torn ==> RatesOk(w.state.jobs[k])
    ensures !PastFor(w, After(w, call).state, call, k).torn ==> RatesOk(After(w, call).state.jobs[k])
  {
    hide JobOk, ValidPolicy, Perform, RebaseEach, DurableJob, PolicyError, ContractError, Invalidate, RatesOk, EnvOk,
         Stranger;
    var s := w.state;
    if k in s.jobs && !call.Restart? && w.pasts[k].torn {
      StaysTorn(w, call, k);
    } else if k in s.jobs {
      assert Runs.Entry(s, k, w.pasts[k]);
      WorldIsKeyed(w, k);
      match call
      case Register(r) =>
      case SetPolicy(p) => InvalidateRates(Env(s.config, p, s.now + 1), s.jobs[k], POLICY_INVALIDATED);
      case Rebase(epoch, walk) =>
        RebaseAt(s.jobs, walk, epoch, k);
        EpochRates(s.jobs[k], After(w, call).state.jobs[k].epoch);
      case OnJob(op) =>
        if TargetOf(op) == k {
          EnvIsOk(w);
          PerformKeepsRates(EnvOf(Tick(s)), s.jobs[k], op, w.pasts[k]);
        }
      case Restart => DurableRates(s.jobs[k]);
    } else {
      NewJobIsIdle(w, call, k);
      IdleRates(After(w, call).state.jobs[k]);
    }
  }

  lemma IdleRates(job: Job)
    requires job.step.None?
    ensures RatesOk(job)
  {}

  lemma {:induction false} RunKeepsRates(w: World, calls: seq<Call>)
    requires WorldOk(w) && Legal(w, calls) && StrictlyPublished(w, calls) && AllRates(w)
    ensures AllRates(RunFrom(w, calls))
    decreases |calls|
  {
    hide WorldOk, Apply, PastFor, RatesOk, StrictPublication, Permitted;
    if calls != [] {
      AfterKeeps(w, calls[0]);
      var v := After(w, calls[0]);
      forall k | k in v.state.jobs && k in v.pasts && !v.pasts[k].torn ensures RatesOk(v.state.jobs[k]) {
        CallKeepsRates(w, calls[0], k);
      }
      RunKeepsRates(After(w, calls[0]), calls[1..]);
    }
  }

  /** From a fresh fabric, over every run that publishes evidence only under strict policies, the total rate of
      an open step is the sum over its live flows, for every contract; and each flow's group has evidence. */
  lemma TotalRateIsExact(w: World, calls: seq<Call>, k: nat, job: Job)
    requires Starts(w) && StrictlyPublished(w, calls)
    requires Reaches(w, calls, k, job) && Untorn(w, calls, k) && job.step.Some?
    ensures job.step.value.acc.activeMin == Sum(Rate, job.step.value.flows) <= |job.topology.links| * MAX_RATE_BPS
    ensures Covered(job.topology.links, job.step.value.flows)
  {
    hide WorldOk, Legal, RunFrom, JobOk, Sum, Covered, StrictlyPublished, EachGroupFits;
    RunKeepsRates(w, calls);
    assert RatesOk(job);
    EveryJobIsOk(w, calls, k);
    var v := RunFrom(w, calls);
    LoadBounds(v.state.config, v.state.policy, job, v.pasts[k]);
    CoveredBound(job.topology.links, job.step.value.flows);
  }
}
