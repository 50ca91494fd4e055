/** What callers are promised about decisions, flows and accounting, in every reachable state. */
module Laws {
  import opened Results
  import opened Model
  import opened Policies
  import opened Order
  import opened Sums
  import opened Arbitration
  import opened Traffic
  import opened Authorities
  import opened Operations
  import opened Invariants
  import opened Accounting
  import opened Preservation
  import opened Steps
  import opened Requests
  import opened Bursts
  import opened Jobs
  import opened Durable
  import opened Runs

  // ---------------------------------------------------------------------------
  // Redundant counters
  // ---------------------------------------------------------------------------

  /** After any run of permitted calls every job satisfies the invariant, whose parts follow. */
  lemma EveryJobIsOk(w: World, calls: seq<Call>, k: nat)
    requires WorldOk(w) && Legal(w, calls) && k in RunFrom(w, calls).state.jobs
    ensures var v := RunFrom(w, calls);
      k in v.pasts && JobOk(v.state.config, v.state.policy, v.state.jobs[k], v.pasts[k]) && EnvOk(EnvOf(v.state))
  {
    hide WorldOk, After, RunFrom, Legal, Permitted, JobOk;
    RunKeeps(w, calls);
    EntryOf(RunFrom(w, calls), k);
  }

  lemma EntryOf(w: World, k: nat)
    requires WorldOk(w) && k in w.state.jobs
    ensures k in w.pasts && JobOk(w.state.config, w.state.policy, w.state.jobs[k], w.pasts[k])
    ensures EnvOk(EnvOf(w.state))
  {
    hide JobOk, ValidPolicy;
    assert Entry(w.state, k, w.pasts[k]);
  }

  lemma CountersOf(config: Config, policy: Policy, job: Job, past: Past, g: nat)
    requires JobOk(config, policy, job, past)
    ensures !past.torn ==>
      && Get(job.load.bps, g) == Sum(GroupRate(g), LiveFlows(job)) <= MAX_RATE_BPS
      && Get(job.load.flows, g) == Sum(GroupCount(g), LiveFlows(job))
    ensures job.step.Some? ==>
              var step := job.step.value;
              && step.acc.activeFlows == |step.flows| <= job.contract.maxActiveFlows
              && step.acc.activeMin <= Sum(Rate, step.flows)
              && (Wide(job.contract) ==> step.acc.activeMin == Sum(Rate, step.flows))
              && forall p :: p in step.phases ==>
                   p in step.phaseFlows && step.phaseFlows[p] == Sum(PhaseCount(p), step.flows)
  {
    hide GroupsOk, TopologyOk, HistoryOk, ContractError, LifecycleOk, DecisionsOk, ReceiptsOk, FencesOk, PhasesOk,
         BytesOk, CountsOk, PhaseCountsOk, FlowDecisionsOk, FlowOk, Bounded, Wide, Sum;
    assert GroupLoadOk(!past.torn, job.load, LiveFlows(job), g);
    if job.step.Some? {
      CountIsSize(job.step.value.flows);
    }
  }

  /** After any run the counters of a job are the sums over its live flows; those of its groups, while no group was
      registered that a live flow named. The step's total rate is too when the flows are few enough; it is never
      more. */
  lemma CountersAgree(w: World, calls: seq<Call>, k: nat, job: Job, g: nat)
    requires Reaches(w, calls, k, job)
    ensures Untorn(w, calls, k) ==>
      && Get(job.load.bps, g) == Sum(GroupRate(g), LiveFlows(job)) <= MAX_RATE_BPS
      && Get(job.load.flows, g) == Sum(GroupCount(g), LiveFlows(job))
    ensures job.step.Some? ==>
              var step := job.step.value;
              && step.acc.activeFlows == |step.flows| <= job.contract.maxActiveFlows
              && step.acc.activeMin <= Sum(Rate, step.flows)
              && (Wide(job.contract) ==> step.acc.activeMin == Sum(Rate, step.flows))
              && forall p :: p in step.phases ==>
                   p in step.phaseFlows && step.phaseFlows[p] == Sum(PhaseCount(p), step.flows)
  {
    hide WorldOk, Legal, RunFrom, JobOk, Sum, Wide;
    EveryJobIsOk(w, calls, k);
    var v := RunFrom(w, calls);
    CountersOf(v.state.config, v.state.policy, job, v.pasts[k], g);
  }

  // ---------------------------------------------------------------------------
  // Bytes and outcomes
  // ---------------------------------------------------------------------------

  lemma BytesOf(config: Config, policy: Policy, job: Job, past: Past)
    requires Open(config, policy, job, past) && Bounded(job.contract)
    ensures var step, c := job.step.value, job.contract;
      && step.acc.bytesCommitted == step.acc.bytesCompleted + step.acc.bytesCancelled + Sum(Estimate, step.flows)
      && |step.flows| <= c.maxActiveFlows
      && step.acc.bytesCommitted <= c.maxBytesPerStep + (c.maxActiveFlows - |step.flows|) * c.maxBytesPerIntent < WRAP64
      && forall p :: p in step.phases ==>
           && p in step.phaseAcc
           && step.phaseAcc[p].bytesCommitted == step.phaseAcc[p].bytesCompleted + Sum(PhaseEstimate(p), step.flows)
  {
    hide GroupsOk, TopologyOk, HistoryOk, ContractError, LifecycleOk, DecisionsOk, ReceiptsOk, FencesOk, PhasesOk,
         TotalsOk, CountsOk, PhaseCountsOk, FlowDecisionsOk, FlowOk, Wide, Sum, PhaseSum, LoadOk, WithinBudget, Bounded;
    var c, live := job.contract, |job.step.value.flows|;
    CountIsSize(job.step.value.flows);
    Reserve(c, job.step.value.acc.bytesCommitted, live);
  }

  lemma Reserve(c: Contract, committed: nat, live: nat)
    requires WithinBudget(c, committed, live) && live <= c.maxActiveFlows && Bounded(c)
    ensures committed <= c.maxBytesPerStep + (c.maxActiveFlows - live) * c.maxBytesPerIntent < WRAP64
  {
    assert (c.maxActiveFlows - live) * c.maxBytesPerIntent
        == c.maxActiveFlows * c.maxBytesPerIntent - live * c.maxBytesPerIntent;
  }

  /** After any run every committed byte is completed, cancelled or estimated by a live flow, in the step
      and in each phase; what is committed never exceeds the step's limit by more than the flows that may
      still be opened could report. */
  lemma BytesBalance(w: World, calls: seq<Call>, k: nat, job: Job)
    requires Reaches(w, calls, k, job) && job.step.Some? && Bounded(job.contract)
    ensures var step, c := job.step.value, job.contract;
      && step.acc.bytesCommitted == step.acc.bytesCompleted + step.acc.bytesCancelled + Sum(Estimate, step.flows)
      && |step.flows| <= c.maxActiveFlows
      && step.acc.bytesCommitted <= c.maxBytesPerStep + (c.maxActiveFlows - |step.flows|) * c.maxBytesPerIntent < WRAP64
      && forall p :: p in step.phases ==>
           && p in step.phaseAcc
           && step.phaseAcc[p].bytesCommitted == step.phaseAcc[p].bytesCompleted + Sum(PhaseEstimate(p), step.flows)
  {
    hide WorldOk, Legal, RunFrom, JobOk, Sum, Bounded;
    EveryJobIsOk(w, calls, k);
    var v := RunFrom(w, calls);
    BytesOf(v.state.config, v.state.policy, job, v.pasts[k]);
  }

  lemma OutcomesOf(config: Config, policy: Policy, job: Job, past: Past)
    requires Open(config, policy, job, past)
    ensures var step := job.step.value;
      var a := step.acc;
      && a.admitted + a.deferred + a.throttled <= step.intentsSeen
      && a.rejected == (step.intentsSeen - a.admitted - a.deferred - a.throttled) % WRAP32
      && a.admitted == a.completed + a.cancelled + |step.flows| + past.lost
      && PhaseSum(Admitted, step.phaseAcc) == a.admitted && PhaseSum(Deferred, step.phaseAcc) == a.deferred
      && PhaseSum(Completions, step.phaseAcc) == a.completed && PhaseSum(Cancellations, step.phaseAcc) == a.cancelled
      && PhaseSum(Rejected, step.phaseAcc) % WRAP32 == a.rejected
      && forall f :: f in step.flows ==>
           step.flows[f].phase in step.phases && step.phases[step.flows[f].phase].Active()
  {
    hide GroupsOk, TopologyOk, HistoryOk, ContractError, LifecycleOk, DecisionsOk, ReceiptsOk, FencesOk, PhasesOk,
         TotalsOk, BytesOk, FlowDecisionsOk, Wide, Sum, PhaseSum, LoadOk, Bounded;
    CountIsSize(job.step.value.flows);
    forall f | f in job.step.value.flows
      ensures job.step.value.flows[f].phase in job.step.value.phases
           && job.step.value.phases[job.step.value.flows[f].phase].Active()
    {
      assert FlowOk(policy.classes, job.step.value.flows[f], job.step.value.phases);
    }
  }

  /** After any run every intent seen by a step has exactly one outcome, every admitted flow is live,
      completed, cancelled or lost to a restart, the step's totals are the sums over its phases, and no
      live flow belongs to a closed phase. */
  lemma OutcomesBalance(w: World, calls: seq<Call>, k: nat, job: Job)
    requires Reaches(w, calls, k, job) && job.step.Some?
    ensures k in RunFrom(w, calls).pasts
    ensures var step := job.step.value;
      var a := step.acc;
      && a.admitted + a.deferred + a.throttled <= step.intentsSeen
      && a.rejected == (step.intentsSeen - a.admitted - a.deferred - a.throttled) % WRAP32
      && a.admitted == a.completed + a.cancelled + |step.flows| + RunFrom(w, calls).pasts[k].lost
      && PhaseSum(Admitted, step.phaseAcc) == a.admitted && PhaseSum(Deferred, step.phaseAcc) == a.deferred
      && PhaseSum(Completions, step.phaseAcc) == a.completed && PhaseSum(Cancellations, step.phaseAcc) == a.cancelled
      && PhaseSum(Rejected, step.phaseAcc) % WRAP32 == a.rejected
      && forall f :: f in step.flows ==>
           step.flows[f].phase in step.phases && step.phases[step.flows[f].phase].Active()
  {
    hide WorldOk, Legal, RunFrom, JobOk, PhaseSum;
    EveryJobIsOk(w, calls, k);
    var v := RunFrom(w, calls);
    OutcomesOf(v.state.config, v.state.policy, job, v.pasts[k]);
  }

  /** The only thing that loses flows is a restart: no operation changes the deficit of an open step. */
  lemma OnlyRestartsLoseFlows(env: Env, job: Job, op: JobOp, past: Past)
    requires Open(env.config, env.policy, job, past) && EnvOk(env) && Keyed(job.step.value.flows)
    ensures var r := Perform(env, job, op).job;
      r.step.Some? ==>
        var a := r.step.value.acc; a.admitted == a.completed + a.cancelled + |r.step.value.flows| + past.lost
  {
    hide JobOk, Perform, EnvOk, Tears, Keyed;
    PerformKept(env, job, op, past);
    var r := Perform(env, job, op).job;
    if r.step.Some? {
      OutcomesOf(env.config, env.policy, r, PastAfter(job, r, Marked(job, r, op, past)));
    }
  }

  /** The reports of ended and fenced steps are balanced. */
  lemma ReportsBalance(env: Env, job: Job, t: Token, end: StepEnd, reason: ErrorCode, past: Past)
    requires Open(env.config, env.policy, job, past) && Bounded(job.contract)
    ensures DoEndStep(env, job, t, end).reply.StepReport? ==> Balanced(DoEndStep(env, job, t, end).reply.report.acc)
    ensures Balanced(FenceStep(env, job, reason).reply.report.acc)
  {
    hide JobOk, JobVerdict, CancelAll, CloseStep, Wide, Bounded, Balanced, FenceStep;
    FenceStepKeeps(env, env.policy, job, reason, past);
    var empty := CancelAll(env, job, CANCELLED);
    CancelAllKeeps(env, env.policy, job, CANCELLED, past);
    CloseStepKeeps(env, env.policy, empty, if end == StepCancelled then Cancelled else Completed,
                   end != StepCompleted || job.step.value.flows != map[], past);
  }

  // ---------------------------------------------------------------------------
  // Requests
  // ---------------------------------------------------------------------------

  /** Same flows, same charges, same committed bytes, same receipts. */
  ghost predicate Uncharged(a: Job, b: Job) {
    && b.load == a.load && LiveFlows(b) == LiveFlows(a) && b.ledger.receipts == a.ledger.receipts
    && (a.step.Some? ==>
          && b.step.Some?
          && b.step.value.acc.bytesCommitted == a.step.value.acc.bytesCommitted
          && b.step.value.acc.activeMin == a.step.value.acc.activeMin)
  }

  lemma ConcludeIsUncharged(env: Env, job: Job, phase: nat, d: Decision)
    requires job.step.Some?
    ensures Uncharged(job, Conclude(env, job, phase, d))
  {
    hide Push, CountPhase;
  }

  lemma UnboundIsUncharged(env: Env, job: Job, i: Intent, v: Verdict)
    ensures Uncharged(job, ConcludeUnbound(env, job, i, v).job)
  {
    hide Push;
  }

  lemma DecideIsUncharged(env: Env, job: Job, i: Intent)
    requires job.step.Some? && i.token.phase in job.step.value.phases
    requires var reply := Decide(env, job, i).reply; !reply.Decided? || reply.decision.outcome != Admit
    ensures Uncharged(job, Decide(env, job, i).job)
  {
    hide Judge, CancelEach, Conclude, AdmitFlow;
    var j := Judge(env, job, i);
    if j != Denied(INTERNAL) && !j.Allowed? {
      ConcludeIsUncharged(env, job, i.token.phase, DecisionFor(env, job, i, j));
    }
  }

  /** A decision other than admission changes no flow, no charge, no committed byte and no receipt. */
  lemma OnlyAdmissionCharges(env: Env, job: Job, i: Intent)
    requires var reply := DoRequest(env, job, i).reply; !reply.Decided? || reply.decision.outcome != Admit
    ensures Uncharged(job, DoRequest(env, job, i).job)
  {
    hide Uncharged, Decide, ConcludeUnbound, IntentError, JobVerdict;
    var v := Resolve(env.policy, job, i.token, NeedPhase);
    NothingIsUncharged(job);
    UnboundIsUncharged(env, job, i, v);
    if IntentError(i) == OK && v.error == OK {
      DecideIsUncharged(env, job, i);
    }
  }

  lemma NothingIsUncharged(job: Job)
    ensures Uncharged(job, job)
  {}

  lemma UnknownJudged(env: Env, job: Job, i: Intent)
    requires job.step.Some? && i.token.phase in job.step.value.phases && Keyed(job.step.value.flows)
    requires job.step.value.phases[i.token.phase].spec.cls == UnknownPhase && ValidPolicy(env.policy)
    requires forall k :: k in job.step.value.flows ==> job.step.value.flows[k].priority <= 255
    requires Judge(env, job, i).Allowed?
    ensures var j := Judge(env, job, i);
      && job.contract.allowUnknownPhase
      && j.cls == BestEffort && !j.isolated && j.victims == []
      && (env.policy.unknownCeiling != 0 ==> j.maxBps <= env.policy.unknownCeiling)
      && Find(env.policy.classes, BestEffort).Some?
      && (var ceiling := CeilingFor(env.policy, Find(env.policy.classes, BestEffort).value, true);
          ceiling != 0 ==> j.maxBps <= ceiling)
  {
    hide Arbitrate, Find, EffectivePriority, Judge;
    AllowedPassed(env, job, i);
    ArbitrationOf(env, job, i);
    PhasesAreServed(env.policy, UnknownPhase);
    var spec := Find(env.policy.classes, Judge(env, job, i).cls).value;
    var ceiling := CeilingFor(env.policy, spec, true);
    WorstPriorityDisplacesNothing(env.policy, job.topology.links, Get(job.load.bps, i.group), job.step.value.flows,
      i.group, 255, Max(i.minBps, spec.floor), if ceiling != 0 then Min(i.maxBps, ceiling) else i.maxBps);
  }

  lemma UnknownDeclared(env: Env, job: Job, i: Intent)
    requires job.step.Some? && i.token.phase in job.step.value.phases && Keyed(job.step.value.flows)
    requires job.step.value.phases[i.token.phase].spec.cls == UnknownPhase && Judge(env, job, i).Allowed?
    ensures i.declared == UnknownPhase
  {
    hide Arbitrate, Find, EffectivePriority, JudgeRate;
  }

  /** The request admits an intent of an Unknown phase. */
  ghost predicate AdmitsUnknown(e: Effect) {
    e.reply.Decided? && e.reply.decision.outcome == Admit && e.reply.decision.phaseClass == UnknownPhase
  }

  /** After any run an admission in an Unknown phase is best effort, not isolated, claims no class,
      displaces nothing, changes no other flow, and stays under the policy's unknown ceiling when there
      is one. */
  lemma UnknownIsConservative(w: World, calls: seq<Call>, k: nat, job: Job, i: Intent)
    requires Reaches(w, calls, k, job)
    requires AdmitsUnknown(DoRequest(EnvOf(Tick(RunFrom(w, calls).state)), job, i))
    ensures var e, p := DoRequest(EnvOf(Tick(RunFrom(w, calls).state)), job, i), RunFrom(w, calls).state.policy;
      var d := e.reply.decision;
      && job.contract.allowUnknownPhase && i.declared == UnknownPhase
      && d.cls == BestEffort && !d.isolated
      && e.job.step.Some? && (forall f :: f in LiveFlows(job) ==> f in LiveFlows(e.job) && LiveFlows(e.job)[f] == LiveFlows(job)[f])
      && |LiveFlows(e.job)| == |LiveFlows(job)| + 1
      && d.minBps <= d.maxBps <= MAX_RATE_BPS
      && (p.unknownCeiling != 0 ==> d.maxBps <= p.unknownCeiling)
      && Find(p.classes, BestEffort).Some?
      && (var ceiling := CeilingFor(p, Find(p.classes, BestEffort).value, true); ceiling != 0 ==> d.maxBps <= ceiling)
  {
    hide WorldOk, Legal, RunFrom, JobOk, DoRequest, AdmitsUnknown, Keyed, EnvOk;
    RunKeeps(w, calls);
    var v := RunFrom(w, calls);
    EntryOf(v, k);
    WorldIsKeyed(v, k);
    EnvIsOk(v);
    UnknownAdmission(EnvOf(Tick(v.state)), job, i, v.pasts[k]);
  }

  lemma UnknownAdmission(env: Env, job: Job, i: Intent, past: Past)
    requires JobOk(env.config, env.policy, job, past) && EnvOk(env)
    requires job.step.Some? ==> Keyed(job.step.value.flows)
    requires AdmitsUnknown(DoRequest(env, job, i))
    ensures var e := DoRequest(env, job, i);
      var d := e.reply.decision;
      && job.contract.allowUnknownPhase && i.declared == UnknownPhase
      && d.cls == BestEffort && !d.isolated
      && job.step.Some? && e.job.step.Some?
      && job.ids.intent !in LiveFlows(job) && LiveFlows(e.job).Keys == LiveFlows(job).Keys + {job.ids.intent}
      && (forall f :: f in LiveFlows(job) ==> LiveFlows(e.job)[f] == LiveFlows(job)[f])
      && d.minBps <= d.maxBps <= MAX_RATE_BPS
      && (env.policy.unknownCeiling != 0 ==> d.maxBps <= env.policy.unknownCeiling)
      && Find(env.policy.classes, BestEffort).Some?
      && (var ceiling := CeilingFor(env.policy, Find(env.policy.classes, BestEffort).value, true);
          ceiling != 0 ==> d.maxBps <= ceiling)
  {
    hide JobOk, Judge, Keyed, Conclude, JobVerdict, ValidPolicy, CancelEach;
    BoundBy(env.policy, job, i);
    var j := Judge(env, job, i);
    NotYetIssuedHere(env.config, env.policy, job, past);
    UnknownJudged(env, job, i);
    UnknownDeclared(env, job, i);
    RateIsLegal(env, job, i);
    AdmittedFlows(env, job, i);
  }

  lemma NotYetIssuedHere(config: Config, policy: Policy, job: Job, past: Past)
    requires JobOk(config, policy, job, past)
    ensures job.ids.intent !in LiveFlows(job)
    ensures forall f :: f in LiveFlows(job) ==> LiveFlows(job)[f].priority <= 255
  {
    hide GroupsOk, TopologyOk, HistoryOk, ContractError, LifecycleOk, DecisionsOk, ReceiptsOk, FencesOk, PhasesOk,
         TotalsOk, BytesOk, CountsOk, PhaseCountsOk, FlowDecisionsOk, Wide, Sum, LoadOk, Bounded;
  }

  lemma RateIsLegal(env: Env, job: Job, i: Intent)
    requires job.step.Some? && i.token.phase in job.step.value.phases && Keyed(job.step.value.flows)
    requires Judge(env, job, i).Allowed? && IntentError(i) == OK
    requires ValidPolicy(env.policy)
    ensures var j := Judge(env, job, i); j.minBps <= j.maxBps <= MAX_RATE_BPS
  {
    hide Judge, Find, EffectivePriority, Arbitrate;
    ArbitrationOf(env, job, i);
    var spec := Find(env.policy.classes, Judge(env, job, i).cls).value;
    assert SpecError(spec) == OK;
    var ceiling := CeilingFor(env.policy, spec, job.step.value.phases[i.token.phase].spec.cls == UnknownPhase);
    GrantIsMinimal(env.policy, job.topology.links, Get(job.load.bps, i.group), job.step.value.flows, i.group,
      if job.step.value.phases[i.token.phase].spec.cls == UnknownPhase then 255 else Judge(env, job, i).priority,
      Max(i.minBps, spec.floor), if ceiling != 0 then Min(i.maxBps, ceiling) else i.maxBps);
  }

  lemma AdmittedFlows(env: Env, job: Job, i: Intent)
    requires job.step.Some? && i.token.phase in job.step.value.phases
    requires Judge(env, job, i).Allowed? && Judge(env, job, i).victims == []
    ensures var r := Decide(env, job, i).job;
      r.step.Some? && LiveFlows(r) == LiveFlows(job)[job.ids.intent := FlowFor(env, job, i, Judge(env, job, i))]
  {
    hide Judge;
  }

  /** After any run a live flow carries an issued id, belongs to an active phase, has a class of the
      current policy, and in an Unknown phase is best effort and not isolated. */
  lemma FlowOf(w: World, calls: seq<Call>, k: nat, job: Job, f: nat)
    requires Reaches(w, calls, k, job) && f in LiveFlows(job)
    ensures var flow, phases := LiveFlows(job)[f], job.step.value.phases;
      && flow.intent == f < job.ids.intent && flow.group != 0 && flow.minBps <= flow.maxBps
      && flow.phase in phases && phases[flow.phase].Active()
      && Find(RunFrom(w, calls).state.policy.classes, flow.cls).Some?
      && (phases[flow.phase].spec.cls == UnknownPhase ==> flow.cls == BestEffort && !flow.isolated)
  {
    hide WorldOk, Legal, RunFrom, JobOk, Find;
    EveryJobIsOk(w, calls, k);
    var v := RunFrom(w, calls);
    FlowFactsOf(v.state.config, v.state.policy, job, v.pasts[k], f);
  }

  lemma FlowFactsOf(config: Config, policy: Policy, job: Job, past: Past, f: nat)
    requires JobOk(config, policy, job, past) && f in LiveFlows(job)
    ensures FlowOk(policy.classes, LiveFlows(job)[f], job.step.value.phases)
    ensures LiveFlows(job)[f].intent == f < job.ids.intent
  {
    hide GroupsOk, TopologyOk, HistoryOk, ContractError, LifecycleOk, DecisionsOk, ReceiptsOk, FencesOk, PhasesOk,
         TotalsOk, BytesOk, CountsOk, PhaseCountsOk, FlowDecisionsOk, Wide, Sum, LoadOk, Bounded;
  }

  // ---------------------------------------------------------------------------
  // Completion and revalidation
  // ---------------------------------------------------------------------------

  /** Completing a flow credits exactly the reported bytes in place of the estimate, releases exactly
      the flow's rate, and removes only that flow. */
  lemma CompletionCredits(env: Env, job: Job, t: Token, intent: nat, bytes: nat, past: Past)
    requires Open(env.config, env.policy, job, past) && Bounded(job.contract)
    requires Accepts(env.policy, job, t, NeedStep) && intent in job.step.value.flows
    requires bytes <= job.contract.maxBytesPerIntent
    ensures var f := job.step.value.flows[intent];
      var r := DoComplete(env, job, t, intent, bytes, false).job;
      && r.step.Some? && r.step.value.flows == job.step.value.flows - {intent}
      && r.step.value.acc.bytesCompleted == job.step.value.acc.bytesCompleted + bytes
      && r.step.value.acc.bytesCommitted + f.bytesEstimate == job.step.value.acc.bytesCommitted + bytes
      && Get(r.load.bps, f.group) == Sub(Get(job.load.bps, f.group), f.minBps)
      && (!past.torn ==> f.minBps <= Get(job.load.bps, f.group))
      && r.step.value.acc.completed == job.step.value.acc.completed + 1
  {
    hide JobOk, Bounded, JobVerdict, SettleStep, SettlePhase, Fewer, PhaseAccOf, Push, Release;
    var f := job.step.value.flows[intent];
    LiveFlow(env, job, intent, past);
    CountersOf(env.config, env.policy, job, past, f.group);
    SumAtLeast(GroupRate(f.group), job.step.value.flows, intent);
    ReleaseGives(job.load, f);
    CreditFits(env.config, env.policy, job, past, intent, bytes);
    SettleCredits(job.step.value.acc, f, bytes);
  }

  lemma ReleaseGives(load: Load, f: Flow)
    ensures Get(Release(load, f).bps, f.group) == Sub(Get(load.bps, f.group), f.minBps)
  {}

  lemma SettleCredits(a: StepAcc, f: Flow, bytes: nat)
    requires f.bytesEstimate <= a.bytesCommitted && a.bytesCommitted - f.bytesEstimate + bytes < WRAP64
    requires a.bytesCompleted + bytes < WRAP64 && a.completed + 1 < WRAP32
    ensures var b := SettleStep(a, f, true, bytes);
      && b.bytesCompleted == a.bytesCompleted + bytes
      && b.bytesCommitted + f.bytesEstimate == a.bytesCommitted + bytes
      && b.completed == a.completed + 1
  {}

  lemma CreditFits(config: Config, policy: Policy, job: Job, past: Past, k: nat, bytes: nat)
    requires Open(config, policy, job, past) && Bounded(job.contract) && k in job.step.value.flows
    requires bytes <= job.contract.maxBytesPerIntent
    ensures var a, f := job.step.value.acc, job.step.value.flows[k];
      && f.bytesEstimate <= a.bytesCommitted && a.bytesCommitted - f.bytesEstimate + bytes < WRAP64
      && a.bytesCompleted + bytes < WRAP64 && a.completed + 1 < WRAP32
  {
    hide GroupsOk, TopologyOk, HistoryOk, ContractError, LifecycleOk, DecisionsOk, ReceiptsOk, FencesOk, PhasesOk,
         TotalsOk, CountsOk, PhaseCountsOk, FlowDecisionsOk, FlowOk, Wide, Sum, PhaseSum, LoadOk, WithinBudget, Bounded;
    var c, a := job.contract, job.step.value.acc;
    var flows: map<nat, Flow> := job.step.value.flows;
    var others: map<nat, Flow> := flows - {k};
    var rest := Sum(Count, others);
    SumAtLeast(Estimate, flows, k);
    SumRemove(Count, flows, k);
    BudgetReturns(c, a.bytesCommitted, rest, flows[k].bytesEstimate, bytes);
    BudgetFits(c, a.bytesCommitted - flows[k].bytesEstimate + bytes, rest);
    CompletedFits(config, policy, job, past);
  }

  lemma CompletedFits(config: Config, policy: Policy, job: Job, past: Past)
    requires Open(config, policy, job, past) && job.step.value.flows != map[]
    ensures job.step.value.acc.completed + job.step.value.acc.cancelled + 1 < WRAP32
  {
    hide GroupsOk, TopologyOk, HistoryOk, ContractError, LifecycleOk, DecisionsOk, ReceiptsOk, FencesOk, PhasesOk,
         TotalsOk, BytesOk, FlowDecisionsOk, Wide, Sum, PhaseCountsOk, LoadOk, Bounded, FlowOk;
    CountIsSize(job.step.value.flows);
    ContractLimits(job.contract);
  }

  /** A completion is answered with its receipt exactly when receipts are retained at all; without
      retention the flow is closed and the caller is told of an internal error. */
  lemma CompletionReceiptIff(env: Env, job: Job, t: Token, intent: nat, bytes: nat, cancelled: bool, past: Past)
    requires Open(env.config, env.policy, job, past)
    requires Accepts(env.policy, job, t, NeedStep) && intent in job.step.value.flows
    requires bytes <= job.contract.maxBytesPerIntent
    ensures var e := DoComplete(env, job, t, intent, bytes, cancelled);
      && intent !in LiveFlows(e.job)
      && (e.reply.Closed? <==> env.config.maxReceipts > 0)
      && (e.reply.Closed? ==>
            && e.reply.receipt.intent == intent
            && e.reply.receipt.bytesCredited == (if cancelled then 0 else bytes)
            && e.reply.receipt.releasedMinBps == job.step.value.flows[intent].minBps)
      && (!e.reply.Closed? ==> e.reply == Refused(INTERNAL))
  {
    hide JobOk, JobVerdict, Settle, Release;
    var f := job.step.value.flows[intent];
    LiveFlow(env, job, intent, past);
    ReceiptsOf(env.config, env.policy, job, past);
    var receipt := Receipt(intent, if cancelled then CANCELLED else OK, env.now, if cancelled then 0 else bytes, f.minBps);
    PushKeepsReceipts(job.ledger.receipts, env.config.maxReceipts, job.step.value.flows, job.ids.intent, intent, receipt);
    ClosedIsGoneFor(job.step.value, f, !cancelled, bytes);
  }

  lemma ReceiptsOf(config: Config, policy: Policy, job: Job, past: Past)
    requires Open(config, policy, job, past)
    ensures ReceiptsOk(job.ledger.receipts, config.maxReceipts, job.step.value.flows, job.ids.intent)
    ensures forall k :: k in job.step.value.flows ==> k < job.ids.intent
  {
    hide GroupsOk, TopologyOk, HistoryOk, ContractError, LifecycleOk, DecisionsOk, ReceiptsOk, FencesOk, PhasesOk,
         TotalsOk, BytesOk, FlowDecisionsOk, Wide, PhaseCountsOk, LoadOk, Bounded, FlowOk, CountsOk;
  }

  lemma ClosedIsGoneFor(step: Step, f: Flow, completed: bool, bytes: nat)
    ensures f.intent !in Settle(step, f, completed, bytes).flows
  {}

  /** A decision found still valid is the decision of a live flow of the open step, and states exactly
      the rates charged for it. */
  lemma RevalidationIsHonest(env: Env, job: Job, t: Token, intent: nat, past: Past)
    requires JobOk(env.config, env.policy, job, past)
    requires var reply := DoRevalidate(env, job, t, intent).reply; reply.Revalidation? && reply.valid
    ensures var e := DoRevalidate(env, job, t, intent);
      && job.step.Some? && intent in job.step.value.flows && e.reply.retained.Some?
      && (var f, d := job.step.value.flows[intent], e.reply.retained.value;
        && d.minBps == f.minBps && d.maxBps == f.maxBps && d.group == f.group && d.cls == f.cls
        && d.token.step == job.step.value.id && (d.outcome == Admit || d.outcome == Outcome.Throttle)
        && d.policyGeneration >= env.policy.generation)
      && e.job.load == job.load && LiveFlows(e.job) == LiveFlows(job)
  {
    hide GroupsOk, TopologyOk, HistoryOk, ContractError, LifecycleOk, DecisionsOk, ReceiptsOk, FencesOk, PhasesOk,
         TotalsOk, BytesOk, Wide, PhaseCountsOk, LoadOk, Bounded, FlowsOk, CountsOk, JobVerdict, Find, MappedClass,
         EffectivePriority, RecordRefusal;
  }

  // ---------------------------------------------------------------------------
  // Retention
  // ---------------------------------------------------------------------------

  /** After any run the retained decisions are exactly the newest ones of this life, as many as the cap
      allows, in issue order and without duplicates. */
  lemma NewestDecisionsRetained(w: World, calls: seq<Call>, k: nat, job: Job)
    requires Reaches(w, calls, k, job)
    ensures k in RunFrom(w, calls).pasts && RunFrom(w, calls).pasts[k].first <= job.ids.intent
    ensures var first := RunFrom(w, calls).pasts[k].first;
      var kept := Min(job.ids.intent - first, RunFrom(w, calls).state.config.maxDecisions);
      && |job.ledger.decisions.order| == kept
      && (forall i :: 0 <= i < kept ==> job.ledger.decisions.order[i] == job.ids.intent - kept + i)
      && forall d: nat :: d in job.ledger.decisions.items <==> job.ids.intent - kept <= d < job.ids.intent
  {
    hide WorldOk, Legal, RunFrom, JobOk;
    EveryJobIsOk(w, calls, k);
    var v := RunFrom(w, calls);
    DecisionsOf(v.state.config, v.state.policy, job, v.pasts[k]);
  }

  lemma DecisionsOf(config: Config, policy: Policy, job: Job, past: Past)
    requires JobOk(config, policy, job, past)
    ensures DecisionsOk(job.ledger.decisions, config.maxDecisions, past.first, job.ids.intent)
  {}

  /** A life begins with the first intent at registration, and again at each restart. */
  lemma {:induction false} LifeBegins(w: World, calls: seq<Call>, k: nat)
    requires WorldOk(w) && Legal(w, calls) && k in w.state.jobs
    requires forall i :: 0 <= i < |calls| ==> !calls[i].Restart?
    ensures k in w.pasts && k in RunFrom(w, calls).pasts
    ensures RunFrom(w, calls).pasts[k].first == w.pasts[k].first
    ensures k in After(w, Restart).pasts && After(w, Restart).pasts[k].first == w.state.jobs[k].ids.intent
    decreases |calls|
  {
    hide WorldOk, Apply, Permitted, DurableJob;
    EntryOf(w, k);
    RestartsLife(w, k);
    if calls != [] {
      AfterKeeps(w, calls[0]);
      CallKeepsLife(w, calls[0], k);
      LifeBegins(After(w, calls[0]), calls[1..], k);
    }
  }

  lemma RestartsLife(w: World, k: nat)
    requires k in w.state.jobs && k in w.pasts
    ensures k in After(w, Restart).pasts && After(w, Restart).pasts[k].first == w.state.jobs[k].ids.intent
  {
    hide DurableJob;
  }

  lemma CallKeepsLife(w: World, call: Call, k: nat)
    requires WorldOk(w) && Permitted(w.state, call) && k in w.state.jobs && k in w.pasts && !call.Restart?
    ensures k in After(w, call).state.jobs && k in After(w, call).pasts
    ensures After(w, call).pasts[k].first == w.pasts[k].first
  {
    hide WorldOk, Perform, RebaseEach, PolicyError, ContractError, Invalidate, Stranger;
    if call.Rebase? {
      RebaseKeys(w.state.jobs, call.walk, call.epoch);
    }
  }

  // ---------------------------------------------------------------------------
  // Rebasing
  // ---------------------------------------------------------------------------

  predicate AllBehind(jobs: map<nat, Job>, epoch: nat) {
    forall k :: k in jobs ==> jobs[k].epoch < epoch
  }

  lemma {:induction false} RebaseReaches(jobs: map<nat, Job>, walk: seq<nat>, epoch: nat)
    requires Distinct(walk) && forall k :: k in walk ==> k in jobs
    ensures var r := RebaseEach(jobs, walk, epoch);
      && (r.ok <==> forall k :: k in walk ==> jobs[k].epoch < epoch)
      && (r.ok ==> forall k :: k in walk ==> k in r.jobs && r.jobs[k].epoch == epoch)
      && (forall k :: k in jobs && k !in walk ==> k in r.jobs && r.jobs[k] == jobs[k])
    decreases |walk|
  {
    if walk != [] {
      var head := walk[0];
      assert head in walk;
      assert forall k :: k in walk <==> k == head || k in walk[1..];
      if jobs[head].epoch < epoch {
        RebaseReaches(jobs[head := jobs[head].(epoch := epoch)], walk[1..], epoch);
      } else {
        assert RebaseEach(jobs, walk, epoch) == Rebased(jobs, false);
      }
    }
  }

  /** Whatever the walk, a rebase succeeds exactly when every job is behind the epoch, and then every
      job carries it. */
  lemma RebaseSucceedsIff(jobs: map<nat, Job>, walk: seq<nat>, epoch: nat)
    requires Walks(walk, jobs)
    ensures RebaseEach(jobs, walk, epoch).ok <==> AllBehind(jobs, epoch)
    ensures RebaseEach(jobs, walk, epoch).ok ==>
              RebaseEach(jobs, walk, epoch).jobs == map k | k in jobs :: jobs[k].(epoch := epoch)
  {
    RebaseReaches(jobs, walk, epoch);
    RebaseFrame(jobs, walk, epoch);
  }

  ghost predicate Walks(walk: seq<nat>, jobs: map<nat, Job>) {
    Distinct(walk) && forall k :: k in walk <==> k in jobs
  }

  /** With mixed epochs some walk rebases a job and then refuses. */
  lemma PartialRebase(jobs: map<nat, Job>, epoch: nat, k: nat) returns (walk: seq<nat>)
    requires !AllBehind(jobs, epoch) && k in jobs && jobs[k].epoch < epoch
    ensures Walks(walk, jobs) && !RebaseEach(jobs, walk, epoch).ok && RebaseEach(jobs, walk, epoch).jobs != jobs
  {
    hide SortedIds;
    var rest := SortedIds(jobs.Keys - {k});
    SortedIdsMembers(jobs.Keys - {k});
    walk := [k] + rest;
    assert forall j :: j in walk <==> j == k || j in rest;
    assert walk[1..] == rest;
    RebaseSucceedsIff(jobs, walk, epoch);
    RebaseAt(jobs[k := jobs[k].(epoch := epoch)], rest, epoch, k);
  }

  lemma NothingRebased(jobs: map<nat, Job>, walk: seq<nat>, epoch: nat)
    requires Walks(walk, jobs) && forall k :: k in jobs ==> jobs[k].epoch >= epoch
    ensures RebaseEach(jobs, walk, epoch).jobs == jobs
  {
    assert walk != [] ==> walk[0] in walk;
  }

  /** A refused rebase leaves every job as it was, for every walk, exactly when no job was behind. */
  lemma RefusedRebaseIff(jobs: map<nat, Job>, epoch: nat)
    requires !AllBehind(jobs, epoch)
    ensures (forall walk :: Walks(walk, jobs) ==> RebaseEach(jobs, walk, epoch).jobs == jobs)
       <==> forall k :: k in jobs ==> jobs[k].epoch >= epoch
  {
    hide Walks, RebaseEach;
    if k :| k in jobs && jobs[k].epoch < epoch {
      var walk := PartialRebase(jobs, epoch, k);
    } else {
      forall walk | Walks(walk, jobs) ensures RebaseEach(jobs, walk, epoch).jobs == jobs {
        NothingRebased(jobs, walk, epoch);
      }
    }
  }
}
