/** Every building block of the operations keeps a job's invariant. */
module Preservation {
  import opened Results
  import opened Model
  import opened Policies
  import opened Sums
  import opened Arbitration
  import opened Traffic
  import opened Operations
  import opened Invariants
  import opened Accounting

  ghost predicate Open(config: Config, policy: Policy, job: Job, past: Past) {
    job.step.Some? && JobOk(config, policy, job, past)
  }

  // ---------------------------------------------------------------------------
  // Closing flows
  // ---------------------------------------------------------------------------

  lemma FewerFlowsOk(classes: seq<ClassSpec>, flows: map<nat, Flow>, k: nat, phases: map<nat, Phase>,
                     limit: nat, next: nat)
    requires FlowsOk(classes, flows, phases, limit, next) && k in flows
    ensures FlowsOk(classes, flows - {k}, phases, limit, next)
  {
    hide FlowOk;
    assert |flows - {k}| == |flows| - 1;
  }

  lemma SettleKeepsTables(step: Step, k: nat, completed: bool, bytes: nat, classes: seq<ClassSpec>,
                          limit: nat, next: nat)
    requires FlowsOk(classes, step.flows, step.phases, limit, next) && k in step.flows
    requires KeysOk(step.phases, step.phaseAcc, step.phaseFlows)
    ensures var f, s := step.flows[k], Settle(step, step.flows[k], completed, bytes);
      && f.intent == k < next && f.phase in step.phaseAcc && PhaseAccOf(step, f.phase) == step.phaseAcc[f.phase]
      && KeysOk(s.phases, s.phaseAcc, s.phaseFlows)
  {}

  lemma CloseKeepsStep(policy: Policy, job: Job, closed: Job, k: nat, completed: bool, bytes: nat, lost: nat)
    requires job.step.Some? && closed.step.Some? && StepOk(policy, job, job.step.value, lost)
    requires job.contract.maxIntents < WRAP32
    requires k in job.step.value.flows && bytes <= job.contract.maxBytesPerIntent
    requires closed.step.value == Settle(job.step.value, job.step.value.flows[k], completed, bytes)
    requires closed == job.(load := closed.load, step := closed.step, ledger := closed.ledger)
    requires closed.ledger.decisions == job.ledger.decisions
    ensures StepOk(policy, closed, closed.step.value, lost)
  {
    hide PhasesOk, KeysOk, FlowsOk, TotalsOk, BytesOk, PhaseCountsOk, Sum, Bounded, Wide, SettleStep,
         SettlePhase, Fewer, PhaseAccOf, Matches;
    var step, c := job.step.value, job.contract;
    var f := step.flows[k];
    SettleKeepsTables(step, k, completed, bytes, policy.classes, c.maxActiveFlows, job.ids.intent);
    FewerFlowsOk(policy.classes, step.flows, k, step.phases, c.maxActiveFlows, job.ids.intent);
    SettleKeepsTotals(Wide(c), step.acc, step.phaseFlows, step.flows, k, completed, bytes);
    if Bounded(c) {
      SettleKeepsBytes(c, step.acc, step.phaseAcc, step.flows, k, completed, bytes);
    }
    SumRemove(Count, step.flows, k);
    SettleKeepsCounts(step.acc, step.intentsSeen, c.maxIntents, Sum(Count, step.flows - {k}), lost, f, completed, bytes);
    SettleKeepsPhaseCounts(step.acc, step.phaseAcc, f, completed, bytes);
  }

  lemma ContractLimits(c: Contract)
    requires ContractError(c) == OK
    ensures c.maxIntents <= 0x100_0000 && c.maxActiveFlows <= 0x100_0000 && 0 < c.historySteps
  {}

  lemma CloseKeepsJob(env: Env, policy: Policy, job: Job, k: nat, completed: bool, bytes: nat, reason: ErrorCode,
                      past: Past)
    requires Open(env.config, policy, job, past)
    requires k in job.step.value.flows && bytes <= job.contract.maxBytesPerIntent
    ensures Open(env.config, policy, CloseFlow(env, job, job.step.value.flows[k], completed, bytes, reason), past)
  {
    hide PhasesOk, KeysOk, FlowOk, TotalsOk, BytesOk, CountsOk, PhaseCountsOk, FlowDecisionsOk, LoadOk,
         ReceiptsOk, DecisionsOk, GroupsOk, TopologyOk, HistoryOk, ContractError, Push, Release, Bounded,
         Wide, SettleStep, SettlePhase, Fewer, PhaseAccOf;
    var flows := job.step.value.flows;
    var closed := CloseFlow(env, job, flows[k], completed, bytes, reason);
    var receipt := Receipt(k, if completed then OK else reason, env.now, if completed then bytes else 0, flows[k].minBps);
    ContractLimits(job.contract);
    CloseKeepsStep(policy, job, closed, k, completed, bytes, past.lost);
    ReleaseKeepsLoad(!past.torn, job.load, flows, k);
    PushKeepsReceipts(job.ledger.receipts, env.config.maxReceipts, flows, job.ids.intent, k, receipt);
  }

  // ---------------------------------------------------------------------------
  // Cancelling flows one after another
  // ---------------------------------------------------------------------------

  /** What cancelling flows leaves alone: everything but the counters, the flows and the records. */
  ghost predicate Trimmed(a: Job, b: Job)
    requires a.step.Some?
  {
    && b.step.Some?
    && var s, t := a.step.value, b.step.value;
      && b == a.(load := b.load, step := b.step, ledger := b.ledger)
      && t == s.(flows := t.flows, acc := t.acc, phaseAcc := t.phaseAcc, phaseFlows := t.phaseFlows)
      && t.acc.bytesCommitted <= s.acc.bytesCommitted
      && (forall k :: k in t.flows ==> k in s.flows && t.flows[k] == s.flows[k])
      && b.ledger.decisions.order == a.ledger.decisions.order
      && b.ledger.decisions.items.Keys == a.ledger.decisions.items.Keys
      && forall g :: Get(b.load.bps, g) <= Get(a.load.bps, g)
  }

  lemma MarkKeeps(job: Job, id: nat, outcome: Outcome, reason: ErrorCode, policy: Policy, config: Config, past: Past)
    requires Open(config, policy, job, past) && id !in job.step.value.flows
    ensures Open(config, policy, job.(ledger := Mark(job.ledger, id, outcome, reason)), past)
  {
    hide PhasesOk, KeysOk, FlowsOk, TotalsOk, BytesOk, CountsOk, PhaseCountsOk, LoadOk, ReceiptsOk, GroupsOk,
         TopologyOk, HistoryOk, ContractError, Bounded, Wide, Matches;
  }

  lemma ReleaseLowers(load: Load, f: Flow, g: nat)
    ensures Get(Release(load, f).bps, g) <= Get(load.bps, g)
  {}

  lemma CloseKeepsFrame(env: Env, job: Job, f: Flow, reason: ErrorCode)
    requires job.step.Some? && f.intent in job.step.value.flows
    ensures Trimmed(job, CloseFlow(env, job, f, false, 0, reason))
  {
    hide Push, Get, Fewer, SettlePhase, PhaseAccOf;
    forall g ensures Get(Release(job.load, f).bps, g) <= Get(job.load.bps, g) {
      ReleaseLowers(job.load, f, g);
    }
    hide Release;
  }

  lemma CancelKeepsFrame(env: Env, job: Job, id: nat, reason: ErrorCode, mark: Option<Outcome>)
    requires job.step.Some? && Keyed(job.step.value.flows)
    ensures var r := CancelOne(env, job, id, reason, mark);
      Trimmed(job, r) && r.step.value.flows == job.step.value.flows - {id}
  {
    hide Push, Get, Fewer, SettlePhase, PhaseAccOf, Release;
    var flows := job.step.value.flows;
    if id in flows {
      assert flows[id].intent == id;
      CloseKeepsFrame(env, job, flows[id], reason);
    } else {
      assert flows - {id} == flows;
    }
  }

  lemma CancelKeeps(env: Env, policy: Policy, job: Job, id: nat, reason: ErrorCode, mark: Option<Outcome>, past: Past)
    requires Open(env.config, policy, job, past)
    ensures var r := CancelOne(env, job, id, reason, mark);
      && Open(env.config, policy, r, past)
      && Trimmed(job, r) && r.step.value.flows == job.step.value.flows - {id}
  {
    FlowsAreKeyed(env.config, policy, job, past);
    CancelKeepsFrame(env, job, id, reason, mark);
    hide JobOk, Trimmed, Settle, Push, Mark, Release;
    if id in job.step.value.flows {
      var closed := CloseFlow(env, job, job.step.value.flows[id], false, 0, reason);
      CloseKeepsJob(env, policy, job, id, false, 0, reason, past);
      if mark.Some? {
        ClosedIsGone(policy, job, id, env.config, past);
        MarkKeeps(closed, id, mark.value, reason, policy, env.config, past);
      }
    }
  }

  lemma FlowsAreKeyed(config: Config, policy: Policy, job: Job, past: Past)
    requires Open(config, policy, job, past)
    ensures Keyed(job.step.value.flows)
  {}

  lemma ClosedIsGone(policy: Policy, job: Job, id: nat, config: Config, past: Past)
    requires Open(config, policy, job, past) && id in job.step.value.flows
    ensures id !in Settle(job.step.value, job.step.value.flows[id], false, 0).flows
  {
    assert job.step.value.flows[id].intent == id;
  }

  lemma {:induction false} CancelEachKeeps(env: Env, policy: Policy, job: Job, ids: seq<nat>, reason: ErrorCode,
                                           mark: Option<Outcome>, past: Past)
    requires Open(env.config, policy, job, past)
    ensures var r := CancelEach(env, job, ids, reason, mark);
      && Open(env.config, policy, r, past)
      && Trimmed(job, r)
      && r.step.value.flows == job.step.value.flows - (set k | k in ids)
    decreases |ids|
  {
    hide JobOk, CancelOne;
    if ids == [] {
      assert job.step.value.flows - (set k | k in ids) == job.step.value.flows;
    } else {
      var next := CancelOne(env, job, ids[0], reason, mark);
      CancelKeeps(env, policy, job, ids[0], reason, mark, past);
      CancelEachKeeps(env, policy, next, ids[1..], reason, mark, past);
      assert (set k | k in ids) == {ids[0]} + (set k | k in ids[1..]);
    }
  }

  // ---------------------------------------------------------------------------
  // Concluding a request
  // ---------------------------------------------------------------------------

  lemma MoreFlowsOk(classes: seq<ClassSpec>, flows: map<nat, Flow>, phases: map<nat, Phase>,
                    limit: nat, next: nat)
    requires FlowsOk(classes, flows, phases, limit, next)
    ensures FlowsOk(classes, flows, phases, limit, next + 1)
  {
    hide FlowOk;
  }

  lemma CountKeepsTables(step: Step, phase: nat, outcome: Outcome)
    requires KeysOk(step.phases, step.phaseAcc, step.phaseFlows) && phase in step.phases
    ensures phase in step.phaseAcc && PhaseAccOf(step, phase) == step.phaseAcc[phase]
    ensures KeysOk(step.phases, step.phaseAcc[phase := CountPhase(step.phaseAcc[phase], outcome)], step.phaseFlows)
  {}

  lemma CountKeepsTotals(wide: bool, a: StepAcc, phaseFlows: map<nat, nat>, flows: map<nat, Flow>, outcome: Outcome)
    requires TotalsOk(wide, a, phaseFlows, flows)
    ensures TotalsOk(wide, CountStep(a, outcome), phaseFlows, flows)
  {
    hide Sum;
  }

  lemma PushKeepsFlowDecisions(d: Fifo<Decision>, cap: nat, first: nat, next: nat, v: Decision,
                               flows: map<nat, Flow>, step: nat)
    requires DecisionsOk(d, cap, first, next) && FlowDecisionsOk(d.items, flows, step)
    requires next in flows ==> Matches(v, flows[next], step)
    ensures FlowDecisionsOk(Push(d, cap, next, v).items, flows, step)
  {
    PushKeepsDecisions(d, cap, first, next, v);
    hide Matches, Push;
    forall k | k in flows && k in Push(d, cap, next, v).items
      ensures Matches(Push(d, cap, next, v).items[k], flows[k], step)
    {
      if k != next {
        assert k in d.items;
      }
    }
  }

  lemma ReceiptsLater(r: Fifo<Receipt>, cap: nat, flows: map<nat, Flow>, next: nat)
    requires ReceiptsOk(r, cap, flows, next)
    ensures ReceiptsOk(r, cap, flows, next + 1)
  {}

  /** An outcome other than admission is counted and retained, and changes nothing else. */
  lemma ConcludeKeeps(env: Env, job: Job, phase: nat, d: Decision, past: Past)
    requires Open(env.config, env.policy, job, past)
    requires phase in job.step.value.phases && d.intent == job.ids.intent
    requires d.outcome == Reject || (d.outcome == Defer && job.step.value.intentsSeen < job.contract.maxIntents)
    ensures Open(env.config, env.policy, Conclude(env, job, phase, d), past)
  {
    hide LoadOk, ReceiptsOk, DecisionsOk, GroupsOk, TopologyOk, HistoryOk, ContractError, Push, CountStep, CountPhase,
         PhaseAccOf, StepOk;
    ConcludeKeepsStep(env, job, phase, d, past);
    ReceiptsLater(job.ledger.receipts, env.config.maxReceipts, job.step.value.flows, job.ids.intent);
    PushKeepsDecisions(job.ledger.decisions, env.config.maxDecisions, past.first, job.ids.intent, d);
  }

  lemma ConcludeKeepsStep(env: Env, job: Job, phase: nat, d: Decision, past: Past)
    requires Open(env.config, env.policy, job, past)
    requires phase in job.step.value.phases && d.intent == job.ids.intent
    requires d.outcome == Reject || (d.outcome == Defer && job.step.value.intentsSeen < job.contract.maxIntents)
    ensures var r := Conclude(env, job, phase, d); StepOk(env.policy, r, r.step.value, past.lost)
  {
    hide PhasesOk, KeysOk, FlowsOk, TotalsOk, BytesOk, CountsOk, PhaseCountsOk, Sum, Bounded, Wide, CountStep,
         CountPhase, PhaseAccOf, FlowDecisionsOk, LoadOk, ReceiptsOk, DecisionsOk, GroupsOk, TopologyOk, HistoryOk,
         ContractError, Push, LifecycleOk;
    var step, c, next := job.step.value, job.contract, job.ids.intent;
    ContractLimits(c);
    NotYetIssued(env.policy, job, past.lost);
    CountKeepsTables(step, phase, d.outcome);
    MoreFlowsOk(env.policy.classes, step.flows, step.phases, c.maxActiveFlows, next);
    CountKeepsTotals(Wide(c), step.acc, step.phaseFlows, step.flows, d.outcome);
    if Bounded(c) {
      CountKeepsBytes(c, step.acc, step.phaseAcc, step.flows, phase, d.outcome);
    }
    CountKeepsCounts(step.acc, step.intentsSeen, c.maxIntents, Sum(Count, step.flows), past.lost, d.outcome);
    CountsFit(step.acc, step.intentsSeen, c.maxIntents, Sum(Count, step.flows), past.lost);
    CountKeepsPhaseCounts(step.acc, step.phaseAcc, phase, d.outcome);
    PushKeepsFlowDecisions(job.ledger.decisions, env.config.maxDecisions, past.first, next, d, step.flows, step.id);
  }

  lemma NotYetIssued(policy: Policy, job: Job, lost: nat)
    requires job.step.Some? && StepOk(policy, job, job.step.value, lost)
    ensures job.ids.intent !in job.step.value.flows
  {}

  lemma CountsFit(a: StepAcc, seen: nat, limit: nat, live: nat, lost: nat)
    requires CountsOk(a, seen, limit, live, lost)
    ensures a.admitted + a.deferred + a.throttled <= limit
    ensures a.completed + a.cancelled + live + lost == a.admitted
  {}

  // ---------------------------------------------------------------------------
  // Admitting a flow
  // ---------------------------------------------------------------------------

  /** What arbitration and the earlier checks have established when a flow is charged. */
  ghost predicate Admissible(env: Env, job: Job, f: Flow, d: Decision)
    requires job.step.Some?
  {
    var step, c := job.step.value, job.contract;
    && f.intent == job.ids.intent == d.intent
    && FlowOk(env.policy.classes, f, step.phases)
    && Get(job.load.bps, f.group) + f.minBps <= MAX_RATE_BPS
    && step.acc.bytesCommitted + f.bytesEstimate <= c.maxBytesPerStep
    && |step.flows| < c.maxActiveFlows
    && step.intentsSeen < c.maxIntents
    && d.outcome == Admit && Matches(d, f, step.id)
  }

  lemma AddFlowOk(classes: seq<ClassSpec>, flows: map<nat, Flow>, f: Flow, phases: map<nat, Phase>,
                  limit: nat, next: nat)
    requires FlowsOk(classes, flows, phases, limit, next) && |flows| < limit
    requires f.intent == next && FlowOk(classes, f, phases)
    ensures FlowsOk(classes, flows[next := f], phases, limit, next + 1)
  {
    hide FlowOk;
    assert next !in flows;
    assert |flows[next := f]| == |flows| + 1;
  }

  lemma AdmitKeepsTables(step: Step, f: Flow)
    requires KeysOk(step.phases, step.phaseAcc, step.phaseFlows) && f.phase in step.phases
    ensures f.phase in step.phaseAcc
    ensures var s := AdmitStep(step, f);
      && KeysOk(s.phases, s.phaseAcc, s.phaseFlows)
      && s.flows == step.flows[f.intent := f]
      && s == step.(flows := s.flows, acc := s.acc, phaseAcc := s.phaseAcc, phaseFlows := s.phaseFlows)
  {}

  lemma AdmitLeavesCounts(step: Step, f: Flow, limit: nat, live: nat, lost: nat)
    requires CountsOk(step.acc, step.intentsSeen, limit, live, lost)
    ensures CountsOk(AdmitStep(step, f).acc, step.intentsSeen, limit, live, lost)
  {}

  /** With few enough flows the total rate cannot wrap, because no flow exceeds the largest rate. */
  lemma TotalRateFits(flows: map<nat, Flow>, c: Contract)
    requires (forall k :: k in flows ==> flows[k].minBps <= MAX_RATE_BPS) && Wide(c) && |flows| <= c.maxActiveFlows
    ensures Sum(Rate, flows) < WRAP64
  {
    hide Sum;
    RateBound(flows, MAX_RATE_BPS);
    Mul(|flows|, c.maxActiveFlows, MAX_RATE_BPS);
  }

  lemma DecisionsAreIssued(d: Fifo<Decision>, cap: nat, first: nat, next: nat, flows: map<nat, Flow>, f: Flow, step: nat)
    requires DecisionsOk(d, cap, first, next) && FlowDecisionsOk(d.items, flows, step)
    ensures FlowDecisionsOk(d.items, flows[next := f], step)
  {
    hide Matches;
    assert next !in d.items;
  }

  lemma AdmitKeepsLoad(env: Env, job: Job, f: Flow, d: Decision, past: Past)
    requires Open(env.config, env.policy, job, past) && Admissible(env, job, f, d)
    ensures LoadOk(!past.torn, Acquire(job.load, f), job.step.value.flows[f.intent := f])
    ensures Wide(job.contract) ==> Sum(Rate, job.step.value.flows[f.intent := f]) < WRAP64
  {
    hide PhasesOk, KeysOk, TotalsOk, BytesOk, CountsOk, PhaseCountsOk, Sum, Bounded, Wide, FlowDecisionsOk, LoadOk,
         ReceiptsOk, DecisionsOk, TopologyOk, HistoryOk, ContractError, LifecycleOk, Matches, FlowsOk, Acquire;
    ContractLimits(job.contract);
    NotYetIssued(env.policy, job, past.lost);
    AcquireKeepsLoad(!past.torn, job.load, job.step.value.flows, f.intent, f);
    if Wide(job.contract) {
      assert |job.step.value.flows[f.intent := f]| <= |job.step.value.flows| + 1;
      RatesFit(env.policy, job, past.lost);
      TotalRateFits(job.step.value.flows[f.intent := f], job.contract);
    }
  }

  lemma RatesFit(policy: Policy, job: Job, lost: nat)
    requires job.step.Some? && StepOk(policy, job, job.step.value, lost)
    ensures forall k :: k in job.step.value.flows ==> job.step.value.flows[k].minBps <= MAX_RATE_BPS
  {
    hide PhasesOk, KeysOk, TotalsOk, BytesOk, CountsOk, PhaseCountsOk, FlowDecisionsOk, Bounded, Wide, Sum;
  }

  lemma AdmitKeepsStep(env: Env, job: Job, f: Flow, d: Decision, past: Past)
    requires Open(env.config, env.policy, job, past) && Admissible(env, job, f, d)
    ensures var r := AdmitFlow(env, job, f, d); StepOk(env.policy, r, r.step.value, past.lost)
  {
    hide PhasesOk, KeysOk, FlowOk, FlowsOk, TotalsOk, BytesOk, CountsOk, PhaseCountsOk, Sum, Bounded, Wide, CountStep,
         CountPhase, PhaseAccOf, FlowDecisionsOk, LoadOk, ReceiptsOk, DecisionsOk, GroupsOk, TopologyOk, HistoryOk,
         ContractError, Push, LifecycleOk, AdmitStep, Matches, Acquire;
    var step, c, next := job.step.value, job.contract, job.ids.intent;
    var s := AdmitStep(step, f);
    ContractLimits(c);
    NotYetIssued(env.policy, job, past.lost);
    AdmitKeepsLoad(env, job, f, d, past);
    AdmitPhase(env, job, f, d);
    AddFlowOk(env.policy.classes, step.flows, f, step.phases, c.maxActiveFlows, next);
    AdmitKeepsTables(step, f);
    CountKeepsTables(s, f.phase, Admit);
    AdmitKeepsTotals(Wide(c), step, f);
    CountKeepsTotals(Wide(c), s.acc, s.phaseFlows, s.flows, Admit);
    if Bounded(c) {
      AdmitKeepsBytes(c, step, f);
      CountKeepsBytes(c, s.acc, s.phaseAcc, s.flows, f.phase, Admit);
    }
    SumAdd(Count, step.flows, next, f);
    AdmitLeavesCounts(step, f, c.maxIntents, Sum(Count, step.flows), past.lost);
    AdmitKeepsCounts(s.acc, step.intentsSeen, c.maxIntents, Sum(Count, step.flows), past.lost);
    CountsFit(s.acc, step.intentsSeen, c.maxIntents, Sum(Count, step.flows), past.lost);
    AdmitKeepsPhaseCounts(step, f);
    CountKeepsPhaseCounts(s.acc, s.phaseAcc, f.phase, Admit);
    DecisionsAreIssued(job.ledger.decisions, env.config.maxDecisions, past.first, next, step.flows, f, step.id);
    PushKeepsFlowDecisions(job.ledger.decisions, env.config.maxDecisions, past.first, next, d, s.flows, step.id);
  }

  lemma AdmitPhase(env: Env, job: Job, f: Flow, d: Decision)
    requires job.step.Some? && Admissible(env, job, f, d)
    ensures f.phase in job.step.value.phases
  {}

  /** Charging an admissible flow keeps the job's invariant. */
  lemma AdmitKeeps(env: Env, job: Job, f: Flow, d: Decision, past: Past)
    requires Open(env.config, env.policy, job, past) && Admissible(env, job, f, d)
    ensures Open(env.config, env.policy, AdmitFlow(env, job, f, d), past)
  {
    hide LoadOk, DecisionsOk, GroupsOk, TopologyOk, HistoryOk, ContractError, Push, CountStep, CountPhase, PhaseAccOf,
         StepOk, Acquire, FlowOk, Matches, ReceiptsOk;
    AdmitKeepsStep(env, job, f, d, past);
    AdmitKeepsLoad(env, job, f, d, past);
    AdmitKeepsReceipts(job.ledger.receipts, env.config.maxReceipts, job.step.value.flows, job.ids.intent, f);
    PushKeepsDecisions(job.ledger.decisions, env.config.maxDecisions, past.first, job.ids.intent, d);
  }

  lemma AdmitKeepsReceipts(r: Fifo<Receipt>, cap: nat, flows: map<nat, Flow>, next: nat, f: Flow)
    requires ReceiptsOk(r, cap, flows, next)
    ensures ReceiptsOk(r, cap, flows[next := f], next + 1)
  {}

  // ---------------------------------------------------------------------------
  // Throttling a flow
  // ---------------------------------------------------------------------------

  lemma ThrottleKeepsStep(policy: Policy, job: Job, k: nat, ceiling: nat, burst: nat, lost: nat)
    requires job.step.Some? && StepOk(policy, job, job.step.value, lost)
    requires k in job.step.value.flows && ceiling <= job.step.value.flows[k].minBps
    ensures var r := ThrottleFlow(job, job.step.value.flows[k], ceiling, burst); StepOk(policy, r, r.step.value, lost)
  {
    hide PhasesOk, KeysOk, FlowsOk, TotalsOk, BytesOk, CountsOk, PhaseCountsOk, Sum, Bounded, Wide, FlowDecisionsOk,
         LoadOk, Lower;
    var step, c := job.step.value, job.contract;
    var f := step.flows[k];
    var g := Throttled(f, ceiling);
    FlowFacts(policy, job, k, lost);
    ThrottleKeepsFlows(policy.classes, step.flows, k, ceiling, step.phases, c.maxActiveFlows, job.ids.intent);
    ThrottleKeepsTotals(Wide(c), step.acc, step.phaseFlows, step.flows, k, g);
    if Bounded(c) {
      ThrottleKeepsBytes(c, step.acc, step.phaseAcc, step.flows, k, g, Sub(step.acc.activeMin, f.minBps - ceiling));
    }
    SumReplace(Count, step.flows, k, g);
    ThrottleLeavesCounts(step.acc, step.intentsSeen, c.maxIntents, Sum(Count, step.flows), lost, step.phaseAcc,
                         Sub(step.acc.activeMin, f.minBps - ceiling));
    ThrottleKeepsFlowDecisions(job, k, ceiling, burst);
  }

  function Throttled(f: Flow, ceiling: nat): Flow {
    f.(minBps := ceiling, maxBps := Min(f.maxBps, ceiling), throttled := true)
  }

  lemma FlowFacts(policy: Policy, job: Job, k: nat, lost: nat)
    requires job.step.Some? && StepOk(policy, job, job.step.value, lost) && k in job.step.value.flows
    ensures var f := job.step.value.flows[k];
      f.intent == k && k < job.ids.intent && FlowOk(policy.classes, f, job.step.value.phases)
  {}

  lemma ThrottleKeepsFlows(classes: seq<ClassSpec>, flows: map<nat, Flow>, k: nat, ceiling: nat,
                           phases: map<nat, Phase>, limit: nat, next: nat)
    requires FlowsOk(classes, flows, phases, limit, next)
    requires k in flows && ceiling <= flows[k].minBps
    ensures FlowsOk(classes, flows[k := Throttled(flows[k], ceiling)], phases, limit, next)
  {
    assert flows[k := Throttled(flows[k], ceiling)].Keys == flows.Keys;
    assert |flows[k := Throttled(flows[k], ceiling)]| == |flows|;
  }

  lemma ThrottleLeavesCounts(a: StepAcc, seen: nat, limit: nat, live: nat, lost: nat, accs: map<nat, PhaseAcc>,
                             activeMin: nat)
    requires CountsOk(a, seen, limit, live, lost) && PhaseCountsOk(a, accs)
    ensures CountsOk(a.(activeMin := activeMin), seen, limit, live, lost)
    ensures PhaseCountsOk(a.(activeMin := activeMin), accs)
  {
    hide PhaseSum;
  }

  lemma ThrottleKeepsFlowDecisions(job: Job, k: nat, ceiling: nat, burst: nat)
    requires job.step.Some? && k in job.step.value.flows && job.step.value.flows[k].intent == k
    requires ceiling <= job.step.value.flows[k].minBps
    requires FlowDecisionsOk(job.ledger.decisions.items, job.step.value.flows, job.step.value.id)
    ensures var r := ThrottleFlow(job, job.step.value.flows[k], ceiling, burst);
      FlowDecisionsOk(r.ledger.decisions.items, r.step.value.flows, job.step.value.id)
  {
    hide Lower;
  }

  /** Reducing a live flow's grant keeps the job's invariant. */
  lemma ThrottleKeeps(config: Config, policy: Policy, job: Job, k: nat, ceiling: nat, burst: nat, past: Past)
    requires Open(config, policy, job, past)
    requires k in job.step.value.flows && ceiling <= job.step.value.flows[k].minBps
    ensures var r := ThrottleFlow(job, job.step.value.flows[k], ceiling, burst);
      && Open(config, policy, r, past)
      && r.step.value.flows == job.step.value.flows[k := Throttled(job.step.value.flows[k], ceiling)]
  {
    hide LoadOk, GroupsOk, TopologyOk, HistoryOk, ContractError, StepOk, Lower, FlowOk, ReceiptsOk;
    var f := job.step.value.flows[k];
    FlowFacts(policy, job, k, past.lost);
    ThrottleKeepsStep(policy, job, k, ceiling, burst, past.lost);
    ThrottleKeepsLoad(!past.torn, job.load, job.step.value.flows, k, Throttled(f, ceiling));
    ThrottleKeepsReceipts(job.ledger.receipts, config.maxReceipts, job.step.value.flows, job.ids.intent, k,
                          Throttled(f, ceiling));
  }

  lemma ThrottleKeepsReceipts(r: Fifo<Receipt>, cap: nat, flows: map<nat, Flow>, next: nat, k: nat, g: Flow)
    requires ReceiptsOk(r, cap, flows, next) && k in flows
    ensures ReceiptsOk(r, cap, flows[k := g], next)
  {}
}
