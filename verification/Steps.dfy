/** Registration and the lifecycle of steps and phases keep a job's invariant. */
module Steps {
  import opened Results
  import opened Model
  import opened Policies
  import opened Order
  import opened Sums
  import opened Traffic
  import opened Authorities
  import opened Operations
  import opened Invariants
  import opened Preservation

  // ---------------------------------------------------------------------------
  // Refusals
  // ---------------------------------------------------------------------------

  lemma RefusalKeeps(env: Env, policy: Policy, job: Job, fence: Fence, onStep: bool, past: Past)
    requires JobOk(env.config, policy, job, past)
    ensures JobOk(env.config, policy, RecordRefusal(env, job, fence, onStep), past)
  {
    hide LoadOk, ReceiptsOk, DecisionsOk, GroupsOk, TopologyOk, HistoryOk, ContractError, PhasesOk, KeysOk, FlowsOk,
         TotalsOk, BytesOk, CountsOk, PhaseCountsOk, FlowDecisionsOk, Bounded, Wide;
  }

  // ---------------------------------------------------------------------------
  // Groups and evidence
  // ---------------------------------------------------------------------------

  lemma AddGroupKeepsGroups(groups: map<nat, Group>, order: seq<nat>, limit: nat, g: Group)
    requires GroupsOk(groups, order, limit) && g.id !in groups && |groups| < limit && GroupError(g) == OK
    ensures GroupsOk(groups[g.id := g], order + [g.id], limit)
  {
    assert |groups[g.id := g]| == |groups| + 1;
  }

  /** Some live flow names the group. */
  ghost predicate Named(flows: map<nat, Flow>, g: nat) {
    exists k :: k in flows && flows[k].group == g
  }

  /** Zeroing the counters of a group without live flows is harmless. */
  lemma AddGroupKeepsLoad(exact: bool, load: Load, flows: map<nat, Flow>, g: nat)
    requires LoadOk(exact, load, flows)
    ensures LoadOk(exact && !Named(flows, g), Load(load.bps[g := 0], load.flows[g := 0]), flows)
  {
    hide Sum;
    var zeroed := Load(load.bps[g := 0], load.flows[g := 0]);
    if !Named(flows, g) {
      SumZero(GroupRate(g), flows);
      SumZero(GroupCount(g), flows);
    }
    var still := exact && !Named(flows, g);
    forall h ensures GroupLoadOk(still, zeroed, flows, h) {
      assert GroupLoadOk(exact, load, flows, h);
    }
  }

  lemma AddGroupKeepsPhases(phases: map<nat, Phase>, order: seq<nat>, groups: map<nat, Group>, g: Group, limit: nat,
                            next: nat)
    requires PhasesOk(phases, order, groups, limit, next)
    ensures PhasesOk(phases, order, groups[g.id := g], limit, next)
  {
    hide PhaseSpecError, Ascending;
  }

  lemma AddGroupKeepsStep(policy: Policy, job: Job, g: Group, lost: nat)
    requires job.step.Some? && StepOk(policy, job, job.step.value, lost)
    ensures StepOk(policy, AddGroup(job, g), job.step.value, lost)
  {
    hide PhasesOk, KeysOk, FlowsOk, TotalsOk, BytesOk, CountsOk, PhaseCountsOk, FlowDecisionsOk, Bounded, Wide;
    var step, c := job.step.value, job.contract;
    AddGroupKeepsPhases(step.phases, step.phaseOrder, job.groups, g, c.maxPhases, job.ids.phase);
  }

  lemma AddGroupKeeps(config: Config, policy: Policy, job: Job, g: Group, past: Past)
    requires JobOk(config, policy, job, past)
    requires GroupError(g) == OK && g.id !in job.groups && |job.groups| < job.contract.maxGroups
    ensures JobOk(config, policy, AddGroup(job, g), past.(torn := past.torn || Named(LiveFlows(job), g.id)))
  {
    hide LoadOk, ReceiptsOk, DecisionsOk, GroupsOk, HistoryOk, ContractError, StepOk, ValidLinks;
    AddGroupKeepsGroups(job.groups, job.groupOrder, job.contract.maxGroups, g);
    if job.step.Some? {
      AddGroupKeepsStep(policy, job, g, past.lost);
    }
    AddGroupKeepsLoad(!past.torn, job.load, LiveFlows(job), g.id);
  }

  /** Registering a group zeroes its counters, so agreement survives exactly when it has no live flow. */
  lemma RegisteringZeroes(load: Load, flows: map<nat, Flow>, g: nat)
    requires LoadOk(true, load, flows)
    ensures LoadOk(true, Load(load.bps[g := 0], load.flows[g := 0]), flows) <==> !Named(flows, g)
  {
    var zeroed := Load(load.bps[g := 0], load.flows[g := 0]);
    if !Named(flows, g) {
      AddGroupKeepsLoad(true, load, flows, g);
    } else {
      GroupCountZero(flows, g);
      assert Get(zeroed.flows, g) == 0;
      assert !GroupLoadOk(true, zeroed, flows, g);
    }
  }

  lemma InvalidateKeeps(env: Env, policy: Policy, job: Job, cause: ErrorCode, past: Past)
    requires JobOk(env.config, policy, job, past)
    ensures JobOk(env.config, policy, Invalidate(env, job, cause), past)
    ensures job.step.Some? ==>
      var r := Invalidate(env, job, cause);
      && Trimmed(job, r)
      && r.step.value.flows == map k | k in job.step.value.flows
           && !Invalidates(env.policy, job.step.value, job.step.value.flows[k]) :: job.step.value.flows[k]
  {
    hide JobOk, Invalidates, CancelEach, Trimmed;
    if job.step.Some? {
      var step := job.step.value;
      var gone := Doomed(env.policy, step);
      SortedIdsMembers(gone);
      CancelEachKeeps(env, policy, job, SortedIds(gone), cause, Some(Revalidate), past);
      assert (set k | k in SortedIds(gone)) == gone;
    }
  }

  lemma RepublishKeeps(env: Env, job: Job, evidence: Label, links: seq<Link>, past: Past)
    requires JobOk(env.config, env.policy, job, past) && job.ids.topology > 0
    requires ValidLinks(links)
    ensures JobOk(env.config, env.policy, Republish(env, job, evidence, links), past)
  {
    hide LoadOk, ReceiptsOk, DecisionsOk, GroupsOk, HistoryOk, ContractError, ValidLinks, PhasesOk, KeysOk, FlowsOk,
         TotalsOk, BytesOk, CountsOk, PhaseCountsOk, FlowDecisionsOk, Bounded, Wide, Invalidate;
    InvalidateKeeps(env, env.policy, job, STALE_TOPOLOGY_GENERATION, past);
    InvalidateFrame(env, job, STALE_TOPOLOGY_GENERATION, past);
  }

  lemma InvalidateFrame(env: Env, job: Job, cause: ErrorCode, past: Past)
    requires job.step.Some? ==> Trimmed(job, Invalidate(env, job, cause))
    ensures var r := Invalidate(env, job, cause);
      r == job.(load := r.load, step := r.step, ledger := r.ledger)
  {}

  // ---------------------------------------------------------------------------
  // Closing a step
  // ---------------------------------------------------------------------------

  lemma EmptyIsBalanced(policy: Policy, job: Job, lost: nat)
    requires job.step.Some? && StepOk(policy, job, job.step.value, lost) && job.step.value.flows == map[]
    requires Bounded(job.contract)
    ensures Balanced(job.step.value.acc)
  {
    hide PhasesOk, KeysOk, FlowsOk, CountsOk, PhaseCountsOk, FlowDecisionsOk, Bounded, Wide, Sum, PhaseSum;
    SumEmpty(Count);
    SumEmpty(Rate);
    SumEmpty(Estimate);
  }

  lemma PushKeepsHistory(history: seq<Report>, report: Report, c: Contract, last: nat)
    requires HistoryOk(history, c, last) && last < report.step && 0 < c.historySteps
    requires Bounded(c) ==> Balanced(report.acc)
    ensures HistoryOk(PushHistory(history, report, c.historySteps), c, report.step)
    ensures forall r :: r in PushHistory(history, report, c.historySteps) ==> r == report || r in history
  {
    hide Wide, Bounded, Balanced;
    var all := history + [report];
    assert forall r :: r in all ==> r == report || r in history;
    forall i, j | 0 <= i < j < |all| ensures all[i].step < all[j].step {
      if j == |history| {
        assert history[i] in history;
      }
    }
  }

  lemma CloseStepKeeps(env: Env, policy: Policy, job: Job, d: Disposition, cancelled: bool, past: Past)
    requires Open(env.config, policy, job, past) && job.step.value.flows == map[]
    ensures JobOk(env.config, policy, CloseStep(env, job, d, cancelled).job, past)
    ensures CloseStep(env, job, d, cancelled).reply.report.step == job.step.value.id
    ensures Bounded(job.contract) ==> Balanced(CloseStep(env, job, d, cancelled).reply.report.acc)
  {
    hide LoadOk, ReceiptsOk, DecisionsOk, GroupsOk, HistoryOk, ContractError, TopologyOk, StepOk, Bounded, Wide,
         PushHistory, Summaries, ClosePhases;
    var report := CloseStep(env, job, d, cancelled).reply.report;
    if Bounded(job.contract) {
      EmptyIsBalanced(policy, job, past.lost);
    }
    ContractLimits(job.contract);
    PushKeepsHistory(job.history, report, job.contract, job.lastClosedStep);
  }

  lemma CancelAllKeeps(env: Env, policy: Policy, job: Job, reason: ErrorCode, past: Past)
    requires Open(env.config, policy, job, past)
    ensures var r := CancelAll(env, job, reason);
      Open(env.config, policy, r, past) && Trimmed(job, r) && r.step.value.flows == map[]
  {
    hide JobOk, Trimmed, CancelEach;
    SortedIdsMembers(job.step.value.flows.Keys);
    CancelEachKeeps(env, policy, job, SortedIds(job.step.value.flows.Keys), reason, Some(Reject), past);
  }

  /** Fencing an open step leaves the job without one, and its report balanced. */
  lemma FenceStepKeeps(env: Env, policy: Policy, job: Job, reason: ErrorCode, past: Past)
    requires Open(env.config, policy, job, past)
    ensures JobOk(env.config, policy, FenceStep(env, job, reason).job, past)
    ensures ClosedOnly(job, FenceStep(env, job, reason).job)
    ensures Bounded(job.contract) ==> Balanced(FenceStep(env, job, reason).reply.report.acc)
  {
    hide JobOk, CancelAll, CloseStep, Balanced, Bounded, Wide;
    var step := job.step.value;
    var fence := Fence(reason, env.now, step.id, 0, 0, step.incarnation, job.incarnation, job.epoch, job.epoch, 0);
    var fenced := RecordRefusal(env, job, fence, true);
    RefusalKeeps(env, policy, job, fence, true, past);
    CancelAllKeeps(env, policy, fenced, reason, past);
    var empty := CancelAll(env, fenced, reason);
    CloseStepKeeps(env, policy, empty, Fenced, empty.step.value.acc.cancelled > 0, past);
    ClosesOnly(env, fenced, empty, Fenced, empty.step.value.acc.cancelled > 0);
  }

  /** Closing a step changes the counters, the records and the history, and opens nothing. */
  ghost predicate ClosedOnly(a: Job, b: Job)
    requires a.step.Some?
  {
    && b == a.(load := b.load, step := None, ledger := b.ledger, lastClosedStep := a.step.value.id, history := b.history)
    && b.ledger.decisions.order == a.ledger.decisions.order
    && forall g :: Get(b.load.bps, g) <= Get(a.load.bps, g)
  }

  lemma ClosesOnly(env: Env, a: Job, b: Job, d: Disposition, cancelled: bool)
    requires a.step.Some? && Trimmed(a, b)
    ensures ClosedOnly(a, CloseStep(env, b, d, cancelled).job)
  {
    hide ClosePhases, Summaries, PushHistory;
  }

  lemma FenceIfOpenKeeps(env: Env, policy: Policy, job: Job, reason: ErrorCode, past: Past)
    requires JobOk(env.config, policy, job, past)
    ensures var r := FenceIfOpen(env, job, reason);
      && JobOk(env.config, policy, r, past) && r.step.None?
      && (if job.step.Some? then ClosedOnly(job, r) else r == job)
  {
    hide JobOk, FenceStep, ClosedOnly, Balanced;
    if job.step.Some? {
      FenceStepKeeps(env, policy, job, reason, past);
      ClosedHasNoStep(job, FenceStep(env, job, reason).job);
    }
  }

  lemma ClosedHasNoStep(a: Job, b: Job)
    requires a.step.Some? && ClosedOnly(a, b)
    ensures b.step.None?
  {}

  // ---------------------------------------------------------------------------
  // Opening a step and its phases
  // ---------------------------------------------------------------------------

  lemma NewStepKeeps(env: Env, job: Job, id: nat, deadlineAt: nat, slack: nat, past: Past)
    requires JobOk(env.config, env.policy, job, past) && job.step.None? && id > job.highestStep
    requires !job.retired && job.incarnation !in job.retiredSet
    ensures JobOk(env.config, env.policy,
                  job.(step := Some(NewStep(env, job, id, deadlineAt, slack)), highestStep := id), past.(lost := 0))
  {
    hide LoadOk, ReceiptsOk, DecisionsOk, GroupsOk, HistoryOk, ContractError, TopologyOk, StepOk;
    NewStepIsOk(env, job, id, deadlineAt, slack);
  }

  lemma NewStepIsOk(env: Env, job: Job, id: nat, deadlineAt: nat, slack: nat)
    requires job.ids.phase > 0
    ensures var step := NewStep(env, job, id, deadlineAt, slack);
      StepOk(env.policy, job.(step := Some(step), highestStep := id), step, 0)
  {
    hide Sum, PhaseSum;
    NothingSums();
    NothingFits(job.contract);
  }

  lemma NothingSums()
    ensures forall w :: Sum(w, map[]) == 0
    ensures forall w :: PhaseSum(w, map[]) == 0
  {}

  lemma NothingFits(c: Contract)
    ensures WithinBudget(c, 0, 0)
  {}

  lemma NewPhaseKeepsTable(step: Step, groups: map<nat, Group>, limit: nat, next: nat, phase: Phase)
    requires PhasesOk(step.phases, step.phaseOrder, groups, limit, next) && |step.phases| < limit && next > 0
    requires KeysOk(step.phases, step.phaseAcc, step.phaseFlows)
    requires phase.id == next && PhaseSpecError(phase.spec) == OK && phase.spec.group in groups
    ensures next !in step.phases && next !in step.phaseAcc
    ensures PhasesOk(step.phases[next := phase], step.phaseOrder + [next], groups, limit, next + 1)
    ensures KeysOk(step.phases[next := phase], step.phaseAcc[next := NO_PHASE_ACC], step.phaseFlows[next := 0])
  {
    NewPhaseInOrder(step.phases, step.phaseOrder, groups, limit, next, phase);
    hide PhasesOk;
  }

  lemma NewPhaseInOrder(phases: map<nat, Phase>, order: seq<nat>, groups: map<nat, Group>, limit: nat, next: nat,
                        phase: Phase)
    requires PhasesOk(phases, order, groups, limit, next) && |phases| < limit && next > 0
    requires phase.id == next && PhaseSpecError(phase.spec) == OK && phase.spec.group in groups
    ensures next !in phases
    ensures PhasesOk(phases[next := phase], order + [next], groups, limit, next + 1)
  {
    hide PhaseSpecError, Ascending;
    AscendingAppend(order, next);
    assert forall k :: k in order + [next] <==> k in order || k == next;
    assert |phases[next := phase]| == |phases| + 1;
  }

  lemma NewPhaseKeepsFlows(classes: seq<ClassSpec>, flows: map<nat, Flow>, phases: map<nat, Phase>,
                           limit: nat, next: nat, phase: Phase)
    requires FlowsOk(classes, flows, phases, limit, next) && phase.id !in phases
    ensures FlowsOk(classes, flows, phases[phase.id := phase], limit, next)
    ensures Sum(PhaseCount(phase.id), flows) == 0 == Sum(PhaseEstimate(phase.id), flows)
  {
    hide Sum;
    forall k | k in flows
      ensures FlowOk(classes, flows[k], phases[phase.id := phase]) && flows[k].phase != phase.id
    {
      assert FlowOk(classes, flows[k], phases);
    }
    SumZero(PhaseCount(phase.id), flows);
    SumZero(PhaseEstimate(phase.id), flows);
  }

  lemma NewPhaseKeepsCounters(c: Contract, a: StepAcc, accs: map<nat, PhaseAcc>, phaseFlows: map<nat, nat>,
                              flows: map<nat, Flow>, p: nat)
    requires TotalsOk(Wide(c), a, phaseFlows, flows) && (Bounded(c) ==> BytesOk(c, a, accs, flows))
    requires PhaseCountsOk(a, accs) && p !in accs
    requires Sum(PhaseCount(p), flows) == 0 == Sum(PhaseEstimate(p), flows)
    ensures TotalsOk(Wide(c), a, phaseFlows[p := 0], flows)
    ensures Bounded(c) ==> BytesOk(c, a, accs[p := NO_PHASE_ACC], flows)
    ensures PhaseCountsOk(a, accs[p := NO_PHASE_ACC])
  {
    hide Sum, PhaseSum, WithinBudget, Bounded, Wide;
    assert accs - {p} == accs;
    var more := accs[p := NO_PHASE_ACC];
    forall w ensures PhaseSum(w, more) == PhaseSum(w, accs) {
      PhaseSumPut(w, accs, p, NO_PHASE_ACC);
    }
    assert Bounded(c) ==> PhaseSum(BytesDone, more) == a.bytesCompleted;
  }

  lemma OpenPhaseKeepsStep(env: Env, job: Job, spec: PhaseSpec, past: Past)
    requires Open(env.config, env.policy, job, past)
    requires PhaseSpecError(spec) == OK && spec.group in job.groups && |job.step.value.phases| < job.contract.maxPhases
    ensures var r := OpenPhase(env, job, spec); StepOk(env.policy, r, r.step.value, past.lost)
  {
    hide PhasesOk, KeysOk, FlowsOk, TotalsOk, BytesOk, CountsOk, PhaseCountsOk, FlowDecisionsOk, Bounded, Wide, Sum,
         LoadOk, ReceiptsOk, DecisionsOk, GroupsOk, HistoryOk, ContractError, TopologyOk, FencesOk, LifecycleOk,
         PhaseSpecError;
    var step, c, next := job.step.value, job.contract, job.ids.phase;
    var phase := Phase(next, spec, env.now, 0, Undecided);
    NewPhaseKeepsTable(step, job.groups, c.maxPhases, next, phase);
    NewPhaseKeepsFlows(env.policy.classes, step.flows, step.phases, c.maxActiveFlows, job.ids.intent, phase);
    NewPhaseKeepsCounters(c, step.acc, step.phaseAcc, step.phaseFlows, step.flows, next);
  }

  lemma OpenPhaseKeeps(env: Env, job: Job, spec: PhaseSpec, past: Past)
    requires Open(env.config, env.policy, job, past)
    requires PhaseSpecError(spec) == OK && spec.group in job.groups && |job.step.value.phases| < job.contract.maxPhases
    ensures JobOk(env.config, env.policy, OpenPhase(env, job, spec), past)
  {
    hide StepOk, LoadOk, ReceiptsOk, DecisionsOk, GroupsOk, HistoryOk, ContractError, TopologyOk, PhaseSpecError;
    OpenPhaseKeepsStep(env, job, spec, past);
  }

  lemma ClosedPhaseKeepsFlows(classes: seq<ClassSpec>, flows: map<nat, Flow>, phases: map<nat, Phase>,
                              limit: nat, next: nat, p: nat, closed: Phase)
    requires FlowsOk(classes, flows, phases, limit, next) && p in phases
    requires forall k :: k in flows ==> flows[k].phase != p
    ensures FlowsOk(classes, flows, phases[p := closed], limit, next)
  {
    forall k | k in flows ensures FlowOk(classes, flows[k], phases[p := closed]) {
      assert FlowOk(classes, flows[k], phases);
    }
  }

  lemma ClosedPhaseKeepsTable(step: Step, groups: map<nat, Group>, limit: nat, next: nat, p: nat, closed: Phase)
    requires PhasesOk(step.phases, step.phaseOrder, groups, limit, next) && p in step.phases
    requires KeysOk(step.phases, step.phaseAcc, step.phaseFlows)
    requires closed.id == p && closed.spec == step.phases[p].spec
    ensures PhasesOk(step.phases[p := closed], step.phaseOrder, groups, limit, next)
    ensures KeysOk(step.phases[p := closed], step.phaseAcc, step.phaseFlows)
  {
    hide PhaseSpecError, Ascending;
    assert step.phases[p := closed].Keys == step.phases.Keys;
    assert |step.phases[p := closed]| == |step.phases|;
  }

  lemma ClosePhaseKeepsStep(policy: Policy, job: Job, p: nat, closed: Phase, lost: nat)
    requires job.step.Some? && StepOk(policy, job, job.step.value, lost)
    requires p in job.step.value.phases && closed.id == p && closed.spec == job.step.value.phases[p].spec
    requires forall k :: k in job.step.value.flows ==> job.step.value.flows[k].phase != p
    ensures StepOk(policy, job, job.step.value.(phases := job.step.value.phases[p := closed]), lost)
  {
    hide PhasesOk, KeysOk, FlowsOk, TotalsOk, BytesOk, CountsOk, PhaseCountsOk, FlowDecisionsOk, Bounded, Wide, Sum;
    var step, c := job.step.value, job.contract;
    ClosedPhaseKeepsFlows(policy.classes, step.flows, step.phases, c.maxActiveFlows, job.ids.intent, p, closed);
    ClosedPhaseKeepsTable(step, job.groups, c.maxPhases, job.ids.phase, p, closed);
  }

  lemma CancelPhaseKeeps(env: Env, job: Job, p: nat, past: Past)
    requires Open(env.config, env.policy, job, past)
    ensures var flows := job.step.value.flows;
      var r := CancelEach(env, job, SortedIds(InPhase(flows, p)), CANCELLED, None);
      && Open(env.config, env.policy, r, past) && Trimmed(job, r)
      && forall k :: k in r.step.value.flows ==> r.step.value.flows[k].phase != p
  {
    hide JobOk, CancelEach;
    var flows := job.step.value.flows;
    var gone := InPhase(flows, p);
    SortedIdsMembers(gone);
    CancelEachKeeps(env, env.policy, job, SortedIds(gone), CANCELLED, None, past);
  }

  /** Closing a phase closes its flows first, so no live flow belongs to a closed phase. */
  lemma ClosePhaseKeeps(env: Env, job: Job, p: nat, d: Disposition, past: Past)
    requires Open(env.config, env.policy, job, past) && p in job.step.value.phases
    ensures JobOk(env.config, env.policy, ClosePhase(env, job, p, d), past)
    ensures var r := ClosePhase(env, job, p, d);
      && r.step.Some?
      && Trimmed(job, r.(step := Some(r.step.value.(phases := job.step.value.phases))))
      && forall k :: k in r.step.value.flows ==> r.step.value.flows[k].phase != p
  {
    hide JobOk, CancelEach;
    var flows := job.step.value.flows;
    CancelPhaseKeeps(env, job, p, past);
    var rest := CancelEach(env, job, SortedIds(InPhase(flows, p)), CANCELLED, None);
    var closed := job.step.value.phases[p].(disposition := d, closedAt := env.now);
    PhaseIsKeyed(env, job, p, past);
    ReplacePhaseKeeps(env, rest, p, closed, past);
  }

  lemma PhaseIsKeyed(env: Env, job: Job, p: nat, past: Past)
    requires Open(env.config, env.policy, job, past) && p in job.step.value.phases
    ensures job.step.value.phases[p].id == p
  {}

  lemma ReplacePhaseKeeps(env: Env, job: Job, p: nat, closed: Phase, past: Past)
    requires Open(env.config, env.policy, job, past)
    requires p in job.step.value.phases && closed.id == p && closed.spec == job.step.value.phases[p].spec
    requires forall k :: k in job.step.value.flows ==> job.step.value.flows[k].phase != p
    ensures JobOk(env.config, env.policy,
                  job.(step := Some(job.step.value.(phases := job.step.value.phases[p := closed]))), past)
  {
    hide LoadOk, ReceiptsOk, DecisionsOk, GroupsOk, HistoryOk, ContractError, TopologyOk, PhasesOk, KeysOk, FlowsOk,
         TotalsOk, BytesOk, CountsOk, PhaseCountsOk, FlowDecisionsOk, Bounded, Wide, Sum;
    ClosePhaseKeepsStep(env.policy, job, p, closed, past.lost);
  }
}
