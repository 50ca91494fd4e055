/** What holds of every job between calls. Each predicate speaks only of the tables it names. */
module Invariants {
  import opened Results
  import opened Model
  import opened Policies
  import opened Order
  import opened Sums
  import opened Operations

  // ---------------------------------------------------------------------------
  // Tables
  // ---------------------------------------------------------------------------

  ghost predicate Distinct(s: seq<nat>) {
    forall i, j :: 0 <= i < j < |s| ==> s[i] != s[j]
  }

  ghost predicate GroupsOk(groups: map<nat, Group>, order: seq<nat>, limit: nat) {
    && |groups| <= limit
    && Distinct(order)
    && (forall k :: k in order <==> k in groups)
    && forall k :: k in groups ==> groups[k].id == k && GroupError(groups[k]) == OK
  }

  ghost predicate TopologyOk(t: Topology, next: nat) {
    && ValidLinks(t.links)
    && t.generation < next
    && (t.generation == 0 ==> t.links == [])
  }

  ghost predicate PhasesOk(phases: map<nat, Phase>, order: seq<nat>, groups: map<nat, Group>, limit: nat, next: nat) {
    && |phases| <= limit
    && Ascending(order)
    && (forall k :: k in order <==> k in phases)
    && forall k :: k in phases ==>
         && 0 < k < next && phases[k].id == k
         && PhaseSpecError(phases[k].spec) == OK && phases[k].spec.group in groups
  }

  ghost predicate KeysOk(phases: map<nat, Phase>, phaseAcc: map<nat, PhaseAcc>, phaseFlows: map<nat, nat>) {
    phaseAcc.Keys == phases.Keys && phaseFlows.Keys == phases.Keys
  }

  /** A live flow belongs to an active phase and is never better treated than best effort in an Unknown
      phase. Its group has evidence at admission, and need not be registered. */
  ghost predicate FlowOk(classes: seq<ClassSpec>, f: Flow, phases: map<nat, Phase>) {
    && f.phase in phases && phases[f.phase].Active()
    && f.group != 0
    && f.minBps <= f.maxBps && f.minBps <= MAX_RATE_BPS
    && f.priority <= 255
    && Find(classes, f.cls).Some?
    && (phases[f.phase].spec.cls == UnknownPhase ==> f.cls == BestEffort && !f.isolated)
  }

  ghost predicate FlowsOk(classes: seq<ClassSpec>, flows: map<nat, Flow>, phases: map<nat, Phase>,
                          limit: nat, next: nat) {
    && |flows| <= limit
    && forall k :: k in flows ==> k < next && flows[k].intent == k && FlowOk(classes, flows[k], phases)
  }

  // ---------------------------------------------------------------------------
  // Redundant counters
  // ---------------------------------------------------------------------------

  /** No group is charged more than the largest rate, and while they are exact the group counters are the
      sums over the live flows. */
  ghost predicate LoadOk(exact: bool, load: Load, flows: map<nat, Flow>) {
    forall g :: GroupLoadOk(exact, load, flows, g)
  }

  ghost predicate GroupLoadOk(exact: bool, load: Load, flows: map<nat, Flow>, g: nat) {
    && Get(load.bps, g) <= MAX_RATE_BPS
    && (exact ==> Get(load.bps, g) == Sum(GroupRate(g), flows) && Get(load.flows, g) == Sum(GroupCount(g), flows))
  }

  /** Few enough flows that their total rate fits 64 bits. */
  predicate Wide(c: Contract) {
    c.maxActiveFlows * MAX_RATE_BPS < WRAP64
  }

  ghost predicate TotalsOk(wide: bool, acc: StepAcc, phaseFlows: map<nat, nat>, flows: map<nat, Flow>) {
    && acc.activeFlows == Sum(Count, flows)
    && acc.activeMin <= Sum(Rate, flows)
    && (wide ==> acc.activeMin == Sum(Rate, flows))
    && forall p :: p in phaseFlows ==> phaseFlows[p] == Sum(PhaseCount(p), flows)
  }

  /** Small enough that no byte counter of a step can wrap. */
  predicate Bounded(c: Contract) {
    c.maxBytesPerStep + c.maxActiveFlows * c.maxBytesPerIntent < WRAP64
  }

  /** What `live` flows may still add to the committed bytes is held in reserve. */
  predicate WithinBudget(c: Contract, committed: nat, live: nat) {
    committed + live * c.maxBytesPerIntent <= c.maxBytesPerStep + c.maxActiveFlows * c.maxBytesPerIntent
  }

  ghost predicate BytesOk(c: Contract, acc: StepAcc, phaseAcc: map<nat, PhaseAcc>, flows: map<nat, Flow>) {
    && acc.bytesCommitted == acc.bytesCompleted + acc.bytesCancelled + Sum(Estimate, flows)
    && WithinBudget(c, acc.bytesCommitted, Sum(Count, flows))
    && PhaseSum(BytesDone, phaseAcc) == acc.bytesCompleted
    && forall p :: p in phaseAcc ==>
         phaseAcc[p].bytesCommitted == phaseAcc[p].bytesCompleted + Sum(PhaseEstimate(p), flows)
  }

  /** Every intent has one outcome, every admitted flow is live, closed, or was lost in a restart. */
  ghost predicate CountsOk(acc: StepAcc, seen: nat, limit: nat, live: nat, lost: nat) {
    && acc.admitted + acc.deferred + acc.throttled <= seen
    && acc.admitted + acc.deferred + acc.throttled <= limit
    && acc.rejected == (seen - (acc.admitted + acc.deferred + acc.throttled)) % WRAP32
    && acc.admitted == acc.completed + acc.cancelled + live + lost
  }

  ghost predicate PhaseCountsOk(acc: StepAcc, phaseAcc: map<nat, PhaseAcc>) {
    && PhaseSum(Admitted, phaseAcc) == acc.admitted
    && PhaseSum(Deferred, phaseAcc) == acc.deferred
    && PhaseSum(Throttled, phaseAcc) == acc.throttled
    && PhaseSum(Rejected, phaseAcc) % WRAP32 == acc.rejected
    && PhaseSum(Completions, phaseAcc) == acc.completed
    && PhaseSum(Cancellations, phaseAcc) == acc.cancelled
    && forall p :: p in phaseAcc ==> phaseAcc[p].rejected < WRAP32
  }

  // ---------------------------------------------------------------------------
  // Retained records
  // ---------------------------------------------------------------------------

  /** The decision of a live flow states exactly what is charged for it. */
  ghost predicate Matches(d: Decision, f: Flow, step: nat) {
    && (d.invalidated || d.outcome == Admit || d.outcome == Throttle)
    && d.token.step == step
    && d.group == f.group && d.phase == f.phase && d.cls == f.cls && d.priority == f.priority
    && d.minBps == f.minBps && d.maxBps == f.maxBps && d.bytesEstimate == f.bytesEstimate
  }

  /** The newest decisions since intent `first`, as many as are kept, and no others. */
  ghost predicate DecisionsOk(d: Fifo<Decision>, cap: nat, first: nat, next: nat) {
    && first <= next
    && |d.order| == Min(next - first, cap)
    && (forall i :: 0 <= i < |d.order| ==> d.order[i] == next - |d.order| + i)
    && forall k :: k in d.items <==> next - |d.order| <= k < next
  }

  ghost predicate FlowDecisionsOk(d: map<nat, Decision>, flows: map<nat, Flow>, step: nat) {
    forall k :: k in flows && k in d ==> Matches(d[k], flows[k], step)
  }

  ghost predicate ReceiptsOk(r: Fifo<Receipt>, cap: nat, flows: map<nat, Flow>, next: nat) {
    && |r.order| <= cap
    && Distinct(r.order)
    && (forall k :: k in r.order <==> k in r.items)
    && forall k :: k in r.items ==> k < next && k !in flows && r.items[k].intent == k
  }

  // ---------------------------------------------------------------------------
  // Lifecycle
  // ---------------------------------------------------------------------------

  ghost predicate LifecycleOk(job: Job) {
    && 0 < job.incarnation < job.ids.incarnation
    && (forall i :: i in job.retiredSet ==> i <= job.incarnation)
    && (forall r :: r in job.retiredList ==> r.incarnation in job.retiredSet)
    && job.lastClosedStep <= job.highestStep
    && match job.step
       case None => true
       case Some(step) =>
         && 0 < step.id == job.highestStep
         && job.lastClosedStep < step.id
         && step.incarnation == job.incarnation
         && job.incarnation !in job.retiredSet
         && !job.retired
  }

  predicate Balanced(acc: StepAcc) {
    acc.activeFlows == 0 && acc.activeMin == 0 && acc.bytesCommitted == acc.bytesCompleted + acc.bytesCancelled
  }

  ghost predicate FencesOk(config: Config, job: Job) {
    && (job.step.Some? ==> |job.step.value.fences| <= config.maxFences)
    && forall r :: r in job.history ==> |r.fences| <= config.maxFences
  }

  ghost predicate HistoryOk(history: seq<Report>, c: Contract, last: nat) {
    && |history| <= c.historySteps
    && (forall i, j :: 0 <= i < j < |history| ==> history[i].step < history[j].step)
    && (forall r :: r in history ==> r.step <= last)
    && (Bounded(c) ==> forall r :: r in history ==> Balanced(r.acc))
  }

  // ---------------------------------------------------------------------------
  // Together
  // ---------------------------------------------------------------------------

  /** Facts about the past that no field records: intents issued before `first` and admitted flows
      `lost` belong to earlier lives of the process; in this life a group was registered while a live
      flow named it, if `torn`. */
  datatype Past = Past(first: nat, lost: nat, torn: bool)

  ghost predicate StepOk(policy: Policy, job: Job, step: Step, lost: nat) {
    var c := job.contract;
    && PhasesOk(step.phases, step.phaseOrder, job.groups, c.maxPhases, job.ids.phase)
    && KeysOk(step.phases, step.phaseAcc, step.phaseFlows)
    && FlowsOk(policy.classes, step.flows, step.phases, c.maxActiveFlows, job.ids.intent)
    && TotalsOk(Wide(c), step.acc, step.phaseFlows, step.flows)
    && (Bounded(c) ==> BytesOk(c, step.acc, step.phaseAcc, step.flows))
    && CountsOk(step.acc, step.intentsSeen, c.maxIntents, Sum(Count, step.flows), lost)
    && PhaseCountsOk(step.acc, step.phaseAcc)
    && FlowDecisionsOk(job.ledger.decisions.items, step.flows, step.id)
  }

  ghost predicate JobOk(config: Config, policy: Policy, job: Job, past: Past) {
    && ContractError(job.contract) == OK
    && GroupsOk(job.groups, job.groupOrder, job.contract.maxGroups)
    && TopologyOk(job.topology, job.ids.topology)
    && LifecycleOk(job)
    && HistoryOk(job.history, job.contract, job.lastClosedStep)
    && LoadOk(!past.torn, job.load, LiveFlows(job))
    && DecisionsOk(job.ledger.decisions, config.maxDecisions, past.first, job.ids.intent)
    && ReceiptsOk(job.ledger.receipts, config.maxReceipts, LiveFlows(job), job.ids.intent)
    && FencesOk(config, job)
    && job.ids.phase > 0
    && (job.step.Some? ==> StepOk(policy, job, job.step.value, past.lost))
  }

  // ---------------------------------------------------------------------------
  // Safety
  // ---------------------------------------------------------------------------

  /** Evidence for an unregistered group is accepted, but a snapshot of it cannot be read back. */
  predicate EvidenceRegistered(job: Job) {
    forall l :: l in job.topology.links ==> l.group in job.groups
  }

  /** No group carries more than its evidence leaves available. */
  ghost predicate CapacityOk(links: seq<Link>, load: Load) {
    forall l :: l in links ==> Get(load.bps, l.group) <= l.Available()
  }

  /** What a checkpoint burst tolerates on its group. */
  predicate Tolerated(classes: seq<ClassSpec>, f: Flow) {
    f.cls == CheckpointService ||
    var spec := Find(classes, f.cls);
    spec.Some? && (spec.value.barrierCritical || f.minBps <= spec.value.isolationCeiling != 0)
  }

  ghost predicate IsolationOk(classes: seq<ClassSpec>, step: Step) {
    forall k :: k in step.flows && Operations.Isolated(step, step.flows[k].group) ==> Tolerated(classes, step.flows[k])
  }
}
