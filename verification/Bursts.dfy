/** Completion, revalidation, checkpoint bursts and incarnations keep a job's invariant. */
module Bursts {
  import opened Bytes
  import opened Results
  import opened Model
  import opened Policies
  import opened Order
  import opened Sums
  import opened Traffic
  import opened Authorities
  import opened Operations
  import opened Invariants
  import opened Accounting
  import opened Preservation
  import opened Steps

  // ---------------------------------------------------------------------------
  // Refused requests, completions, revalidations
  // ---------------------------------------------------------------------------

  lemma UnboundKeepsStep(config: Config, policy: Policy, job: Job, d: Decision, past: Past)
    requires Open(config, policy, job, past)
    ensures StepOk(policy, job.(ids := job.ids.(intent := job.ids.intent + 1), ledger := job.ledger.(decisions :=
                     Push(job.ledger.decisions, config.maxDecisions, job.ids.intent, d))),
                   job.step.value, past.lost)
  {
    hide PhasesOk, KeysOk, FlowsOk, TotalsOk, BytesOk, CountsOk, PhaseCountsOk, Sum, Bounded, Wide, FlowDecisionsOk,
         LoadOk, ReceiptsOk, DecisionsOk, GroupsOk, TopologyOk, HistoryOk, ContractError, Push, LifecycleOk, FencesOk;
    var step := job.step.value;
    NotYetIssued(policy, job, past.lost);
    MoreFlowsOk(policy.classes, step.flows, step.phases, job.contract.maxActiveFlows, job.ids.intent);
    PushKeepsFlowDecisions(job.ledger.decisions, config.maxDecisions, past.first, job.ids.intent, d, step.flows, step.id);
  }

  lemma UnboundKeeps(env: Env, job: Job, i: Intent, v: Verdict, past: Past)
    requires JobOk(env.config, env.policy, job, past)
    ensures JobOk(env.config, env.policy, ConcludeUnbound(env, job, i, v).job, past)
  {
    hide StepOk, LoadOk, ReceiptsOk, DecisionsOk, GroupsOk, TopologyOk, HistoryOk, ContractError, Push;
    var fenced := RecordRefusal(env, job, FenceOf(env, job, i.token, v.error), v.onStep);
    var d := BaseDecision(env, job, i, UnknownPhase).(outcome := Reject, reason := v.error, priority := 0);
    RefusalKeeps(env, env.policy, job, FenceOf(env, job, i.token, v.error), v.onStep, past);
    if job.step.Some? {
      UnboundKeepsStep(env.config, env.policy, fenced, d, past);
    }
    ReceiptsLater(job.ledger.receipts, env.config.maxReceipts, LiveFlows(job), job.ids.intent);
    PushKeepsDecisions(job.ledger.decisions, env.config.maxDecisions, past.first, job.ids.intent, d);
  }

  lemma CompleteKeeps(env: Env, job: Job, t: Token, intent: nat, bytes: nat, cancelled: bool, past: Past)
    requires JobOk(env.config, env.policy, job, past)
    ensures JobOk(env.config, env.policy, DoComplete(env, job, t, intent, bytes, cancelled).job, past)
  {
    hide JobOk, CloseFlow, RecordRefusal, JobVerdict, PhaseVerdict;
    var v := Resolve(env.policy, job, t, NeedStep);
    var plain := Fence(OK, env.now, t.step, t.phase, intent, 0, 0, 0, 0, 0);
    var r := DoComplete(env, job, t, intent, bytes, cancelled).job;
    if v.error != OK {
      var error := if intent in job.ledger.receipts.items then FLOW_ALREADY_CLOSED else v.error;
      assert r == RecordRefusal(env, job, FenceOf(env, job, t, error), v.onStep);
      RefusalKeeps(env, env.policy, job, FenceOf(env, job, t, error), v.onStep, past);
    } else if intent !in job.step.value.flows {
      var error := if intent in job.ledger.receipts.items then FLOW_ALREADY_CLOSED else FLOW_NOT_ACTIVE;
      assert r == RecordRefusal(env, job, plain.(reason := error), true);
      RefusalKeeps(env, env.policy, job, plain.(reason := error), true, past);
    } else if bytes > job.contract.maxBytesPerIntent {
      assert r == job;
    } else {
      CloseKeepsJob(env, env.policy, job, intent, !cancelled, bytes, CANCELLED, past);
    }
  }

  /** Rewriting a retained decision keeps the invariant if it still states what is charged. */
  lemma RewriteKeeps(config: Config, policy: Policy, job: Job, k: nat, d: Decision, past: Past)
    requires Open(config, policy, job, past) && k in job.ledger.decisions.items
    requires forall f: Flow, n: nat :: Matches(job.ledger.decisions.items[k], f, n) ==> Matches(d, f, n)
    ensures JobOk(config, policy,
      job.(ledger := job.ledger.(decisions := job.ledger.decisions.(items := job.ledger.decisions.items[k := d]))), past)
  {
    hide LoadOk, ReceiptsOk, GroupsOk, TopologyOk, HistoryOk, ContractError, PhasesOk, KeysOk, FlowsOk, TotalsOk,
         BytesOk, CountsOk, PhaseCountsOk, Bounded, Wide, Sum, Matches;
  }

  lemma RevalidateKeeps(env: Env, job: Job, t: Token, intent: nat, past: Past)
    requires JobOk(env.config, env.policy, job, past)
    ensures JobOk(env.config, env.policy, DoRevalidate(env, job, t, intent).job, past)
  {
    hide JobOk, Find, EffectivePriority, MappedClass, JobVerdict, RecordRefusal, PhaseVerdict;
    var v := Resolve(env.policy, job, t, NeedStep);
    var r := DoRevalidate(env, job, t, intent).job;
    if v.error != OK {
      RefusalKeeps(env, env.policy, job, FenceOf(env, job, t, v.error), v.onStep, past);
    } else if r != job {
      RewriteKeeps(env.config, env.policy, job, intent, r.ledger.decisions.items[intent], past);
    }
  }

  // ---------------------------------------------------------------------------
  // Bursts
  // ---------------------------------------------------------------------------

  /** The same flow, at most at a lower rate. */
  predicate SameFlow(f: Flow, g: Flow) {
    && g.minBps <= f.minBps && g.maxBps <= f.maxBps
    && g == f.(minBps := g.minBps, maxBps := g.maxBps, throttled := g.throttled)
  }

  /** What isolating flows leaves alone. */
  ghost predicate Quieted(a: Job, b: Job)
    requires a.step.Some?
  {
    && b.step.Some?
    && var s, t := a.step.value, b.step.value;
      && b == a.(load := b.load, step := b.step, ledger := b.ledger)
      && t == s.(flows := t.flows, acc := t.acc, phaseAcc := t.phaseAcc, phaseFlows := t.phaseFlows)
      && (forall k :: k in t.flows ==> k in s.flows && SameFlow(s.flows[k], t.flows[k]))
      && forall g :: Get(b.load.bps, g) <= Get(a.load.bps, g)
  }

  lemma CloseQuiets(a: Job, b: Job)
    requires a.step.Some? && Trimmed(a, b)
    ensures Quieted(a, b)
  {}

  lemma ThrottleQuiets(job: Job, k: nat, ceiling: nat, burst: nat)
    requires job.step.Some? && k in job.step.value.flows && job.step.value.flows[k].intent == k
    requires ceiling <= job.step.value.flows[k].minBps
    ensures Quieted(job, ThrottleFlow(job, job.step.value.flows[k], ceiling, burst))
  {}

  /** One flow after isolation: tolerated or gone, and every other flow untouched. */
  lemma IsolateOneKeeps(env: Env, s: Isolation, id: nat, burst: nat, past: Past)
    requires Open(env.config, env.policy, s.job, past)
    ensures var r := IsolateOne(env, s, id, burst).job;
      && Open(env.config, env.policy, r, past) && Quieted(s.job, r)
      && (id in r.step.value.flows ==> Tolerated(env.policy.classes, r.step.value.flows[id]))
      && forall k :: k in r.step.value.flows && k != id ==> r.step.value.flows[k] == s.job.step.value.flows[k]
  {
    hide JobOk, CancelOne, ThrottleFlow, Find;
    var flows := s.job.step.value.flows;
    if id in flows {
      var f := flows[id];
      LiveFlow(env, s.job, id, past);
      var spec := Find(env.policy.classes, f.cls).value;
      if f.cls == CheckpointService || spec.barrierCritical {
      } else if spec.isolationCeiling == 0 {
        CancelKeeps(env, env.policy, s.job, id, ISOLATION_ACTIVE, Some(Defer), past);
        CloseQuiets(s.job, CancelOne(env, s.job, id, ISOLATION_ACTIVE, Some(Defer)));
      } else if f.minBps > spec.isolationCeiling {
        ThrottleKeeps(env.config, env.policy, s.job, id, spec.isolationCeiling, burst, past);
        ThrottleQuiets(s.job, id, spec.isolationCeiling, burst);
      }
    }
  }

  lemma LiveFlow(env: Env, job: Job, k: nat, past: Past)
    requires Open(env.config, env.policy, job, past) && k in job.step.value.flows
    ensures job.step.value.flows[k].intent == k && Find(env.policy.classes, job.step.value.flows[k].cls).Some?
  {
    assert FlowOk(env.policy.classes, job.step.value.flows[k], job.step.value.phases);
  }

  lemma QuietedOnward(a: Job, b: Job, c: Job)
    requires a.step.Some? && Quieted(a, b) && Quieted(b, c)
    ensures Quieted(a, c)
  {}

  lemma {:induction false} IsolateEachKeeps(env: Env, s: Isolation, ids: seq<nat>, burst: nat, past: Past)
    requires Open(env.config, env.policy, s.job, past)
    ensures var r := IsolateEach(env, s, ids, burst).job;
      && Open(env.config, env.policy, r, past) && Quieted(s.job, r)
      && (forall k :: k in r.step.value.flows && k in ids ==> Tolerated(env.policy.classes, r.step.value.flows[k]))
      && forall k :: k in r.step.value.flows && k !in ids ==> r.step.value.flows[k] == s.job.step.value.flows[k]
    decreases |ids|
  {
    hide JobOk, IsolateOne, Tolerated;
    if ids != [] {
      var next := IsolateOne(env, s, ids[0], burst);
      IsolateOneKeeps(env, s, ids[0], burst, past);
      IsolateEachKeeps(env, next, ids[1..], burst, past);
      QuietedOnward(s.job, next.job, IsolateEach(env, s, ids, burst).job);
      assert forall k :: k in ids <==> k == ids[0] || k in ids[1..];
    } else {
      assert s.job == s.job.(load := s.job.load);
    }
  }

  lemma OpenBurstKeeps(env: Env, job: Job, group: nat, expected: nat, deadlineAt: nat, reason: bytes, past: Past)
    requires Open(env.config, env.policy, job, past)
    ensures var r := OpenBurst(env, job, group, expected, deadlineAt, reason);
      && Open(env.config, env.policy, r, past)
      && IsolationOk(env.policy.classes, r.step.value)
      && (forall g :: Get(r.load.bps, g) <= Get(job.load.bps, g))
      && r.topology == job.topology
  {
    hide JobOk, IsolateEach, Tolerated;
    var id, flows := job.ids.burst, job.step.value.flows;
    var inside := InGroup(flows, group);
    SortedIdsMembers(inside);
    IsolateEachKeeps(env, Isolation(job, 0, 0), SortedIds(inside), id, past);
    var s := IsolateEach(env, Isolation(job, 0, 0), SortedIds(inside), id);
    var burst := Burst(id, group, expected, env.now, deadlineAt, reason, s.displaced, s.throttled, true);
    BurstIsFree(env, s.job, id + 1, Some(burst), past);
  }

  /** The burst record and its allocator are in no other table. */
  lemma BurstIsFree(env: Env, job: Job, next: nat, burst: Option<Burst>, past: Past)
    requires Open(env.config, env.policy, job, past)
    ensures Open(env.config, env.policy,
                 job.(ids := job.ids.(burst := next), step := Some(job.step.value.(burst := burst))), past)
  {
    hide LoadOk, ReceiptsOk, GroupsOk, TopologyOk, HistoryOk, ContractError, PhasesOk, KeysOk, FlowsOk, DecisionsOk,
         TotalsOk, BytesOk, CountsOk, PhaseCountsOk, Bounded, Wide, FlowDecisionsOk;
  }

  // ---------------------------------------------------------------------------
  // Incarnations
  // ---------------------------------------------------------------------------

  lemma RetireKeeps(env: Env, policy: Policy, job: Job, cause: ErrorCode, past: Past)
    requires JobOk(env.config, policy, job, past) && job.step.None?
    ensures JobOk(env.config, policy, RetireCurrent(env, job, cause), past)
  {
    hide LoadOk, ReceiptsOk, GroupsOk, TopologyOk, HistoryOk, ContractError, DecisionsOk;
  }

  lemma ReplaceKeeps(env: Env, policy: Policy, job: Job, boot: Boot, cause: ErrorCode, past: Past)
    requires JobOk(env.config, policy, job, past) && job.step.None?
    ensures var retired := RetireCurrent(env, job, cause);
      JobOk(env.config, policy, retired.(incarnation := job.ids.incarnation,
        ids := retired.ids.(incarnation := job.ids.incarnation + 1), boot := boot), past)
  {
    hide LoadOk, ReceiptsOk, GroupsOk, TopologyOk, HistoryOk, ContractError, DecisionsOk;
  }

  lemma RetiredKeeps(config: Config, policy: Policy, job: Job, past: Past)
    requires JobOk(config, policy, job, past) && job.step.None?
    ensures JobOk(config, policy, job.(retired := true), past)
  {
    hide LoadOk, ReceiptsOk, GroupsOk, TopologyOk, HistoryOk, ContractError, DecisionsOk;
  }
}
