/** A job as the program holds it: fields updated in place by loops over hash tables. Every method is
    proved to do exactly what the corresponding function says. */
module LiveJobs {
  import opened Bytes
  import opened Results
  import opened Utf8
  import opened Codec
  import opened Model
  import opened Policies
  import opened Order
  import opened Sums
  import opened Arbitration
  import opened Traffic
  import opened Authorities
  import opened Operations
  import opened Invariants
  import opened Preservation
  import opened Requests
  import opened Jobs

  // ---------------------------------------------------------------------------
  // Bounded queues
  // ---------------------------------------------------------------------------

  /** Append a record, then evict from the front while there are too many. */
  method Retain<T>(f: Fifo<T>, cap: nat, id: nat, v: T) returns (r: Fifo<T>)
    ensures r == Push(f, cap, id, v)
  {
    var items, order := f.items[id := v], f.order + [id];
    var all := order;
    ghost var evicted := 0;
    while |order| > cap
      invariant 0 <= evicted <= |all| && order == all[evicted..]
      invariant evicted > 0 ==> |order| >= cap
      invariant items == f.items[id := v] - (set k | k in all[..evicted])
    {
      assert all[..evicted + 1] == all[..evicted] + [order[0]];
      items := items - {order[0]};
      order := order[1..];
      evicted := evicted + 1;
    }
    return Fifo(items, order);
  }

  /** Append a report, then drop the oldest while there are too many. */
  method AppendReport(history: seq<Report>, report: Report, cap: nat) returns (r: seq<Report>)
    ensures r == PushHistory(history, report, cap)
  {
    r := history + [report];
    ghost var all, dropped := r, 0;
    var bound := Max(1, cap);
    while |r| > bound
      invariant 0 <= dropped <= |all| && r == all[dropped..]
      invariant dropped > 0 ==> |r| >= bound
    {
      r := r[1..];
      dropped := dropped + 1;
    }
  }

  /** Drop the oldest retired incarnations while there are too many. */
  method DropOldest<T>(list: seq<T>, cap: nat) returns (r: seq<T>)
    ensures r == Newest(list, cap)
  {
    r := list;
    ghost var dropped := 0;
    while |r| > cap
      invariant 0 <= dropped <= |list| && r == list[dropped..]
      invariant dropped > 0 ==> |r| >= cap
    {
      r := r[1..];
      dropped := dropped + 1;
    }
  }

  // ---------------------------------------------------------------------------
  // Walks over hash tables, in any order
  // ---------------------------------------------------------------------------

  /** Close every active phase. */
  method CloseAllPhases(phases: map<nat, Phase>, d: Disposition, at: nat) returns (r: map<nat, Phase>)
    ensures r == ClosePhases(phases, d, at)
  {
    r := phases;
    var todo := phases.Keys;
    while todo != {}
      invariant todo <= phases.Keys && r.Keys == phases.Keys
      invariant forall k :: k in phases && k in todo ==> r[k] == phases[k]
      invariant forall k :: k in phases && k !in todo ==>
        r[k] == if phases[k].Active() then phases[k].(disposition := d, closedAt := at) else phases[k]
      decreases |todo|
    {
      var k :| k in todo;
      if r[k].Active() {
        r := r[k := r[k].(disposition := d, closedAt := at)];
      }
      todo := todo - {k};
    }
  }

  method Summarise(step: Step, ids: seq<nat>) returns (r: seq<PhaseSummary>)
    ensures r == Summaries(step, ids)
  {
    r := [];
    var i := 0;
    while i < |ids|
      invariant 0 <= i <= |ids|
      invariant r + Summaries(step, ids[i..]) == Summaries(step, ids)
    {
      assert ids[i..][0] == ids[i] && ids[i..][1..] == ids[i + 1..];
      if ids[i] in step.phases {
        r := r + [Summarize(step, step.phases[ids[i]])];
      }
      i := i + 1;
    }
    assert r + [] == r;
  }

  method FlowsOfPhase(flows: map<nat, Flow>, phase: nat) returns (r: set<nat>)
    ensures r == InPhase(flows, phase)
  {
    r := {};
    var todo := flows.Keys;
    while todo != {}
      invariant todo <= flows.Keys
      invariant r == set k | k in flows && flows[k].phase == phase && k !in todo
      decreases |todo|
    {
      var k :| k in todo;
      if flows[k].phase == phase {
        r := r + {k};
      }
      todo := todo - {k};
    }
  }

  method FlowsOfGroup(flows: map<nat, Flow>, group: nat) returns (r: set<nat>)
    ensures r == InGroup(flows, group)
  {
    r := {};
    var todo := flows.Keys;
    while todo != {}
      invariant todo <= flows.Keys
      invariant r == set k | k in flows && flows[k].group == group && k !in todo
      decreases |todo|
    {
      var k :| k in todo;
      if flows[k].group == group {
        r := r + {k};
      }
      todo := todo - {k};
    }
  }

  method FindDoomed(p: Policy, step: Step) returns (r: set<nat>)
    ensures r == Doomed(p, step)
  {
    r := {};
    var todo := step.flows.Keys;
    while todo != {}
      invariant todo <= step.flows.Keys
      invariant r == set k | k in step.flows && Invalidates(p, step, step.flows[k]) && k !in todo
      decreases |todo|
    {
      var k :| k in todo;
      if Invalidates(p, step, step.flows[k]) {
        r := r + {k};
      }
      todo := todo - {k};
    }
  }

  // ---------------------------------------------------------------------------
  // The job
  // ---------------------------------------------------------------------------

  class LiveJob {
    const id: nat
    const name: bytes
    const generation: nat
    const contract: Contract
    var incarnation: nat
    var boot: Boot
    var epoch: nat
    var retired: bool
    var groups: map<nat, Group>
    var groupOrder: seq<nat>
    var utilized: map<nat, nat>
    var activeFlows: map<nat, nat>
    var topology: Topology
    var retiredList: seq<Retired>
    var retiredSet: set<nat>
    var highestStep: nat
    var lastClosedStep: nat
    var step: Option<Step>
    var history: seq<Report>
    var decisions: Fifo<Decision>
    var receipts: Fifo<Receipt>
    var ids: Allocators

    /** The job's value, the state the functions speak about. */
    function Value(): Job
      reads this
    {
      Job(id, name, generation, contract, incarnation, boot, epoch, retired, groups, groupOrder,
          Load(utilized, activeFlows), topology, retiredList, retiredSet, highestStep, lastClosedStep, step, history,
          Ledger(decisions, receipts), ids)
    }

    constructor (job: Job)
      ensures Value() == job
    {
      id, name, generation, contract := job.id, job.name, job.generation, job.contract;
      incarnation, boot, epoch, retired := job.incarnation, job.boot, job.epoch, job.retired;
      groups, groupOrder, utilized, activeFlows := job.groups, job.groupOrder, job.load.bps, job.load.flows;
      topology, retiredList, retiredSet := job.topology, job.retiredList, job.retiredSet;
      highestStep, lastClosedStep, step, history := job.highestStep, job.lastClosedStep, job.step, job.history;
      decisions, receipts, ids := job.ledger.decisions, job.ledger.receipts, job.ids;
    }

    method RebaseTo(e: nat) returns (ok: bool)
      modifies this`epoch
      ensures ok == (old(Value()).epoch < e)
      ensures Value() == if ok then old(Value()).(epoch := e) else old(Value())
    {
      ok := epoch < e;
      if ok {
        epoch := e;
      }
    }

    // -------------------------------------------------------------------------
    // Utilisation, receipts, decisions
    // -------------------------------------------------------------------------

    method AcquireUtilization(f: Flow)
      modifies this`utilized, this`activeFlows
      ensures Load(utilized, activeFlows) == Acquire(old(Load(utilized, activeFlows)), f)
    {
      utilized := utilized[f.group := Add64(Get(utilized, f.group), f.minBps)];
      activeFlows := activeFlows[f.group := Inc32(Get(activeFlows, f.group))];
    }

    method ReleaseUtilization(f: Flow)
      modifies this`utilized, this`activeFlows
      ensures Load(utilized, activeFlows) == Release(old(Load(utilized, activeFlows)), f)
    {
      if f.group in utilized {
        utilized := utilized[f.group := if utilized[f.group] >= f.minBps then utilized[f.group] - f.minBps else 0];
      }
      if f.group in activeFlows && activeFlows[f.group] > 0 {
        activeFlows := activeFlows[f.group := activeFlows[f.group] - 1];
      }
      assert forall m: map<nat, nat>, k: nat :: k in m && m[k] == 0 ==> m[k := 0] == m;
    }

    method MarkDecision(k: nat, outcome: Outcome, reason: ErrorCode)
      modifies this`decisions
      ensures Ledger(decisions, receipts) == Mark(old(Ledger(decisions, receipts)), k, outcome, reason)
    {
      if k in decisions.items {
        var d := decisions.items[k].(outcome := outcome, reason := reason, invalidated := true);
        decisions := decisions.(items := decisions.items[k := d]);
      }
    }

    // -------------------------------------------------------------------------
    // Closing flows
    // -------------------------------------------------------------------------

    /** The step's and the phase's accounting after a flow is closed. */
    static method SettleAccounts(s: Step, f: Flow, completed: bool, bytes: nat) returns (a: StepAcc, p: PhaseAcc)
      ensures a == SettleStep(s.acc, f, completed, bytes)
      ensures p == SettlePhase(PhaseAccOf(s, f.phase), f, completed, bytes)
    {
      a, p := s.acc, PhaseAccOf(s, f.phase);
      if a.activeFlows > 0 {
        a := a.(activeFlows := a.activeFlows - 1);
      }
      a := a.(activeMin := if a.activeMin >= f.minBps then a.activeMin - f.minBps else 0);
      a := a.(bytesCommitted := if a.bytesCommitted >= f.bytesEstimate then a.bytesCommitted - f.bytesEstimate else 0);
      p := p.(bytesCommitted := if p.bytesCommitted >= f.bytesEstimate then p.bytesCommitted - f.bytesEstimate else 0);
      if completed {
        a := a.(bytesCommitted := Add64(a.bytesCommitted, bytes), bytesCompleted := Add64(a.bytesCompleted, bytes),
                completed := Inc32(a.completed));
        p := p.(bytesCommitted := Add64(p.bytesCommitted, bytes), bytesCompleted := Add64(p.bytesCompleted, bytes),
                completed := Inc32(p.completed));
      } else {
        a := a.(cancelled := Inc32(a.cancelled));
        p := p.(cancelled := Inc32(p.cancelled));
      }
    }

    method CloseFlow(env: Env, f: Flow, completed: bool, bytes: nat, reason: ErrorCode)
      requires step.Some?
      modifies this
      ensures Value() == Traffic.CloseFlow(env, old(Value()), f, completed, bytes, reason)
    {
      hide Release, SettleStep, SettlePhase, PhaseAccOf, Push, Fewer;
      ReleaseUtilization(f);
      var s := step.value;
      var a, p := SettleAccounts(s, f, completed, bytes);
      s := s.(acc := a, phaseAcc := s.phaseAcc[f.phase := p], phaseFlows := Fewer(s.phaseFlows, f.phase),
              flows := s.flows - {f.intent});
      assert s == Settle(old(step.value), f, completed, bytes);
      hide Settle;
      var receipt := Receipt(f.intent, if completed then OK else reason, env.now, if completed then bytes else 0, f.minBps);
      receipts := Retain(receipts, env.config.maxReceipts, f.intent, receipt);
      step := Some(s);
    }

    /** Cancel the listed flows in ascending order of intent. */
    method CancelFlows(env: Env, victims: seq<nat>, reason: ErrorCode, mark: Option<Outcome>)
      requires step.Some?
      modifies this
      ensures step.Some? && Value() == CancelEach(env, old(Value()), victims, reason, mark)
    {
      hide Traffic.CloseFlow, Mark;
      var i := 0;
      while i < |victims|
        invariant 0 <= i <= |victims|
        invariant step.Some?
        invariant CancelEach(env, Value(), victims[i..], reason, mark) == CancelEach(env, old(Value()), victims, reason, mark)
      {
        assert victims[i..][0] == victims[i] && victims[i..][1..] == victims[i + 1..];
        CancelFlow(env, victims[i], reason, mark);
        i := i + 1;
      }
    }

    method CancelFlow(env: Env, k: nat, reason: ErrorCode, mark: Option<Outcome>)
      requires step.Some?
      modifies this
      ensures step.Some? && Value() == CancelOne(env, old(Value()), k, reason, mark)
    {
      if k in step.value.flows {
        CloseFlow(env, step.value.flows[k], false, 0, reason);
        if mark.Some? {
          MarkDecision(k, mark.value, reason);
        }
      }
    }

    method CancelAllFlows(env: Env, reason: ErrorCode)
      requires step.Some?
      modifies this
      ensures step.Some? && Value() == CancelAll(env, old(Value()), reason)
    {
      hide CancelEach;
      var order := SortIds(step.value.flows.Keys);
      CancelFlows(env, order, reason, Some(Reject));
    }

    method InvalidateForChange(env: Env, cause: ErrorCode)
      modifies this
      ensures Value() == Invalidate(env, old(Value()), cause)
    {
      hide CancelEach, Doomed;
      if step.None? {
        return;
      }
      var doomed := FindDoomed(env.policy, step.value);
      var victims := SortIds(doomed);
      CancelFlows(env, victims, cause, Some(Revalidate));
    }

    // -------------------------------------------------------------------------
    // Authority
    // -------------------------------------------------------------------------

    /** The checks, one after another. */
    method ResolveAuthority(policy: Policy, t: Token, need: Need) returns (v: Verdict)
      ensures v == Resolve(policy, Value(), t, need)
    {
      if retired {
        return Verdict(JOB_RETIRED, false);
      }
      if t.jobGeneration != generation {
        return Verdict(STALE_JOB_GENERATION, false);
      }
      if epoch != 0 && t.epoch != epoch {
        return Verdict(STALE_EPOCH, false);
      }
      if t.incarnation != incarnation {
        if t.incarnation in retiredSet {
          return Verdict(INCARNATION_RETIRED, false);
        }
        return Verdict(STALE_INCARNATION, false);
      }
      if t.incarnation in retiredSet {
        return Verdict(INCARNATION_RETIRED, false);
      }
      if t.boot != boot {
        return Verdict(STALE_BOOT_IDENTITY, false);
      }
      if t.contractGeneration != contract.generation {
        return Verdict(STALE_CONTRACT_GENERATION, false);
      }
      if topology.generation != 0 && t.topologyGeneration != topology.generation {
        return Verdict(STALE_TOPOLOGY_GENERATION, false);
      }
      if t.policyGeneration != 0 && t.policyGeneration > policy.generation {
        return Verdict(STALE_POLICY_GENERATION, false);
      }
      if need == NeedJob {
        return Verdict(OK, false);
      }
      if step.None? {
        return Verdict(STEP_NOT_ACTIVE, false);
      }
      var s := step.value;
      if t.step == 0 {
        return Verdict(STALE_STEP, true);
      }
      if t.step != s.id {
        return Verdict(STALE_STEP, true);
      }
      if t.incarnation != s.incarnation {
        return Verdict(STALE_INCARNATION, true);
      }
      if need == NeedStep {
        return Verdict(OK, true);
      }
      if t.phase !in s.phases {
        return Verdict(STALE_PHASE, true);
      }
      if !s.phases[t.phase].Active() {
        return Verdict(PHASE_NOT_ACTIVE, true);
      }
      return Verdict(OK, true);
    }

    method RecordFenceEvent(env: Env, fence: Fence, onStep: bool)
      modifies this`step
      ensures Value() == RecordRefusal(env, old(Value()), fence, onStep)
    {
      if onStep && step.Some? {
        var s := step.value;
        s := s.(fencesObserved := s.fencesObserved + 1);
        if |s.fences| < env.config.maxFences {
          s := s.(fences := s.fences + [fence]);
        }
        step := Some(s);
      }
    }

    method Refuse(env: Env, t: Token, v: Verdict) returns (reply: Reply)
      modifies this`step
      ensures Effect(Value(), reply) == Operations.Refuse(env, old(Value()), t, v)
    {
      RecordFenceEvent(env, FenceOf(env, Value(), t, v.error), v.onStep);
      return Refused(v.error);
    }

    // -------------------------------------------------------------------------
    // Closing a step
    // -------------------------------------------------------------------------

    /** Close the step's phases, report on it and forget it. */
    method FinishStep(env: Env, d: Disposition, cancelled: bool) returns (reply: Reply)
      requires step.Some?
      modifies this
      ensures Effect(Value(), reply) == CloseStep(env, old(Value()), d, cancelled)
    {
      hide ClosePhases, Summaries, SortedIds, PushHistory;
      var phases := CloseAllPhases(step.value.phases, d, env.now);
      var s := step.value.(phases := phases);
      var order := SortIds(set k | k in s.phaseOrder);
      var summaries := Summarise(s, order);
      var report := Report(s.id, generation, s.openedAt, env.now, summaries, s.acc.(closed := true), s.fences,
                           s.fencesObserved, cancelled);
      assert report == BuildReport(old(Value()), s, env.now, true, cancelled);
      hide BuildReport;
      history := AppendReport(history, report, contract.historySteps);
      lastClosedStep := s.id;
      step := None;
      return StepReport(report);
    }

    method FenceOpenStep(env: Env, reason: ErrorCode)
      modifies this
      ensures Value() == FenceIfOpen(env, old(Value()), reason)
    {
      hide CancelAll, CloseStep;
      if step.None? {
        return;
      }
      var s := step.value;
      var fence := Fence(reason, env.now, s.id, 0, 0, s.incarnation, incarnation, epoch, epoch, 0);
      RecordFenceEvent(env, fence, true);
      CancelAllFlows(env, reason);
      var report := FinishStep(env, Fenced, step.value.acc.cancelled > 0);
    }

    // -------------------------------------------------------------------------
    // Registration and evidence
    // -------------------------------------------------------------------------

    method RegisterGroup(env: Env, t: Token, g: Group) returns (reply: Reply)
      modifies this
      ensures Effect(Value(), reply) == DoRegisterGroup(env, old(Value()), t, g)
    {
      hide JobVerdict, StepVerdict, PhaseVerdict, GroupError;
      var v := ResolveAuthority(env.policy, t, NeedJob);
      if v.error != OK {
        reply := Refuse(env, t, v);
        return;
      }
      if GroupError(g) != OK {
        return Refused(GroupError(g));
      }
      if g.id in groups {
        return Refused(ALREADY_EXISTS);
      }
      if |groups| >= contract.maxGroups {
        return Refused(CONTRACT_LIMIT_EXCEEDED);
      }
      groups := groups[g.id := g];
      groupOrder := groupOrder + [g.id];
      utilized := utilized[g.id := 0];
      activeFlows := activeFlows[g.id := 0];
      return Done;
    }

    method Publish(env: Env, t: Token, evidence: Label, links: seq<Link>) returns (reply: Reply)
      modifies this
      ensures Effect(Value(), reply) == DoPublish(env, old(Value()), t, evidence, links)
    {
      hide JobVerdict, StepVerdict, PhaseVerdict, Invalidate, FirstLinkError;
      var v := ResolveAuthority(env.policy, t, NeedJob);
      if v.error != OK {
        reply := Refuse(env, t, v);
        return;
      }
      if ids.topology == 0 {
        return Refused(INVALID_ARGUMENT);
      }
      var error := ValidateLinks(links);
      if error != OK {
        return Refused(error);
      }
      var minted := ids.topology;
      InvalidateForChange(env, STALE_TOPOLOGY_GENERATION);
      ids := ids.(topology := minted + 1);
      topology := Topology(minted, evidence, links);
      return Number(minted);
    }

    method RetireJob(env: Env, t: Token) returns (reply: Reply)
      modifies this
      ensures Effect(Value(), reply) == DoRetireJob(env, old(Value()), t)
    {
      hide JobVerdict, StepVerdict, PhaseVerdict, FenceIfOpen;
      var v := ResolveAuthority(env.policy, t, NeedJob);
      if v.error != OK {
        reply := Refuse(env, t, v);
        return;
      }
      FenceOpenStep(env, JOB_RETIRED);
      retired := true;
      return Done;
    }

    // -------------------------------------------------------------------------
    // Steps and phases
    // -------------------------------------------------------------------------

    method BeginStep(env: Env, t: Token, stepId: nat, deadlineAt: nat, slack: nat) returns (reply: Reply)
      modifies this
      ensures Effect(Value(), reply) == DoBeginStep(env, old(Value()), t, stepId, deadlineAt, slack)
    {
      hide JobVerdict, StepVerdict, PhaseVerdict, Summaries, SortedIds;
      if stepId == 0 {
        return Refused(INVALID_ARGUMENT);
      }
      var v := ResolveAuthority(env.policy, t, NeedJob);
      if v.error != OK {
        reply := Refuse(env, t, v);
        return;
      }
      if step.Some? {
        return Refused(CONFLICT);
      }
      if stepId <= highestStep {
        return Refused(STALE_STEP);
      }
      var s := NewStep(env, Value(), stepId, deadlineAt, slack);
      step := Some(s);
      highestStep := stepId;
      var order := SortIds(set k | k in s.phaseOrder);
      var summaries := Summarise(s, order);
      return StepReport(Report(s.id, generation, s.openedAt, 0, summaries, s.acc.(closed := false), s.fences,
                               s.fencesObserved, false));
    }

    method BeginPhase(env: Env, t: Token, spec: PhaseSpec) returns (reply: Reply)
      modifies this
      ensures Effect(Value(), reply) == DoBeginPhase(env, old(Value()), t, spec)
    {
      hide JobVerdict, StepVerdict, PhaseVerdict, PhaseSpecError;
      if PhaseSpecError(spec) != OK {
        return Refused(PhaseSpecError(spec));
      }
      var v := ResolveAuthority(env.policy, t, NeedStep);
      if v.error != OK {
        reply := Refuse(env, t, v);
        return;
      }
      if spec.group !in groups {
        return Refused(UNKNOWN_GROUP);
      }
      var s := step.value;
      if |s.phases| >= contract.maxPhases {
        return Refused(CONTRACT_LIMIT_EXCEEDED);
      }
      var k := ids.phase;
      ids := ids.(phase := k + 1);
      var record := Phase(k, spec, env.now, 0, Undecided);
      s := s.(phases := s.phases[k := record]);
      s := s.(phaseOrder := s.phaseOrder + [k]);
      s := s.(phaseAcc := s.phaseAcc[k := NO_PHASE_ACC]);
      s := s.(phaseFlows := s.phaseFlows[k := 0]);
      step := Some(s);
      return PhaseRecord(record);
    }

    method EndPhase(env: Env, t: Token, phase: nat, d: Disposition) returns (reply: Reply)
      modifies this
      ensures Effect(Value(), reply) == DoEndPhase(env, old(Value()), t, phase, d)
    {
      hide JobVerdict, StepVerdict, PhaseVerdict, CancelEach, InPhase, SortedIds;
      if d == Undecided {
        return Refused(INVALID_ARGUMENT);
      }
      var v := ResolveAuthority(env.policy, t, NeedStep);
      if v.error != OK {
        reply := Refuse(env, t, v);
        return;
      }
      if phase !in step.value.phases {
        return Refused(STALE_PHASE);
      }
      var record := step.value.phases[phase];
      if !record.Active() {
        return Refused(PHASE_ALREADY_CLOSED);
      }
      var doomed := FlowsOfPhase(step.value.flows, phase);
      var order := SortIds(doomed);
      CancelFlows(env, order, CANCELLED, None);
      record := record.(disposition := d, closedAt := env.now);
      step := Some(step.value.(phases := step.value.phases[phase := record]));
      return PhaseRecord(record);
    }

    method EndStep(env: Env, t: Token, end: StepEnd) returns (reply: Reply)
      modifies this
      ensures Effect(Value(), reply) == DoEndStep(env, old(Value()), t, end)
    {
      hide JobVerdict, StepVerdict, PhaseVerdict, CancelEach, CloseStep;
      var v := ResolveAuthority(env.policy, t, NeedStep);
      if v.error != OK {
        reply := Refuse(env, t, v);
        return;
      }
      var cancelled := end != StepCompleted;
      if step.value.flows != map[] {
        CancelAllFlows(env, CANCELLED);
        cancelled := true;
      } else {
        NothingToCancel(env, Value(), CANCELLED);
      }
      reply := FinishStep(env, if end == StepCancelled then Cancelled else Completed, cancelled);
    }

    // -------------------------------------------------------------------------
    // Traffic
    // -------------------------------------------------------------------------

    /** The checks on a request, one after another, ending in arbitration. */
    method JudgeRequest(env: Env, i: Intent, ghost past: Past) returns (j: Judgement)
      requires step.Some? && i.token.phase in step.value.phases && i.maxBps <= MAX_RATE_BPS
      requires Keyed(step.value.flows) && JobOk(env.config, env.policy, Value(), past)
      ensures j == Judge(env, Value(), i)
    {
      hide JobOk, Keyed, JudgeRate, EffectivePriority, Find, ClassForPhase, DeferOrDeny, Operations.Isolated;
      var s := step.value;
      if s.intentsSeen + 1 > contract.maxIntents {
        return Denied(CONTRACT_LIMIT_EXCEEDED);
      }
      var phaseClass := s.phases[i.token.phase].spec.cls;
      var unknown := phaseClass == UnknownPhase;
      if i.declared != UnknownPhase && i.declared != phaseClass {
        return Denied(CONFLICT);
      }
      if unknown && !contract.allowUnknownPhase {
        return Denied(CONSERVATIVE_UNKNOWN_PHASE);
      }
      var cls := ClassForPhase(env.policy, phaseClass);
      var found := Find(env.policy.classes, cls);
      if found.None? {
        return Denied(INTERNAL);
      }
      var spec := found.value;
      var isolation := Operations.Isolated(s, i.group);
      var priority := EffectivePriority(env.policy, cls, isolation);
      if isolation && cls != CheckpointService && !spec.barrierCritical {
        return DeferOrDeny(env, spec, i, priority, ISOLATION_ACTIVE);
      }
      j := JudgeRates(env, i, spec, unknown, priority, isolation, past);
    }

    method JudgeRates(env: Env, i: Intent, spec: ClassSpec, unknown: bool, priority: nat, isolation: bool,
                      ghost past: Past) returns (j: Judgement)
      requires step.Some? && Keyed(step.value.flows) && i.maxBps <= MAX_RATE_BPS
      requires JobOk(env.config, env.policy, Value(), past)
      ensures j == JudgeRate(env, Value(), i, spec, unknown, priority, isolation)
    {
      hide JobOk, Keyed, Arbitrate, DeferOrDeny;
      var s := step.value;
      var ceiling := CeilingFor(env.policy, spec, unknown);
      if ceiling != 0 && i.minBps > ceiling {
        return Denied(RATE_ABOVE_CEILING);
      }
      var most := if ceiling != 0 then Min(i.maxBps, ceiling) else i.maxBps;
      var least := Max(i.minBps, spec.floor);
      if least > most {
        return Denied(RATE_ABOVE_CEILING);
      }
      if i.bytesEstimate > contract.maxBytesPerIntent {
        return Denied(CONTRACT_LIMIT_EXCEEDED);
      }
      if s.acc.bytesCommitted + i.bytesEstimate >= WRAP64
         || s.acc.bytesCommitted + i.bytesEstimate > contract.maxBytesPerStep {
        return Denied(CONTRACT_LIMIT_EXCEEDED);
      }
      var cap := Min(contract.maxActiveFlows, env.policy.maxActiveFlows);
      if |s.flows| >= cap {
        return Denied(RESOURCE_EXHAUSTED);
      }
      ArbitrationFacts(env.config, env.policy, Value(), past);
      var a := ArbitrateCapacity(env.policy, topology.links, Get(utilized, i.group), s.flows, i.group,
                                 if unknown then 255 else priority, least, most);
      match a
      case NoEvidence => return Denied(MISSING_TOPOLOGY_EVIDENCE);
      case NoCapacity => return DeferOrDeny(env, spec, i, priority, NO_CAPACITY);
      case Granted(minBps, maxBps, victims) =>
        return Allowed(spec.cls, priority, minBps, maxBps, victims, isolation && spec.cls == CheckpointService);
    }

    method FinishDecision(env: Env, phase: nat, d: Decision)
      requires step.Some? && phase in step.value.phases
      modifies this
      ensures Value() == Conclude(env, old(Value()), phase, d)
    {
      hide Push, CountStep, CountPhase, PhaseAccOf;
      ids := ids.(intent := ids.intent + 1);
      var s := step.value;
      var counted := CountPhase(PhaseAccOf(s, phase), d.outcome);
      step := Some(s.(intentsSeen := s.intentsSeen + 1, acc := CountStep(s.acc, d.outcome),
                      phaseAcc := s.phaseAcc[phase := counted]));
      decisions := Retain(decisions, env.config.maxDecisions, d.intent, d);
    }

    /** Charge an admitted flow to its group, its step and its phase. */
    method ChargeFlow(f: Flow)
      requires step.Some?
      modifies this
      ensures Value() == old(Value()).(load := Acquire(old(Value()).load, f), step := Some(AdmitStep(old(step.value), f)))
    {
      hide Acquire;
      AcquireUtilization(f);
      var s := step.value;
      var a, p := s.acc, PhaseAccOf(s, f.phase);
      s := s.(flows := s.flows[f.intent := f]);
      a := a.(activeFlows := Inc32(a.activeFlows), activeMin := Add64(a.activeMin, f.minBps),
              grantedMin := Add64(a.grantedMin, f.minBps), bytesCommitted := Add64(a.bytesCommitted, f.bytesEstimate));
      p := p.(bytesCommitted := Add64(p.bytesCommitted, f.bytesEstimate));
      s := s.(acc := a, phaseAcc := s.phaseAcc[f.phase := p]);
      if f.phase in s.phaseFlows {
        s := s.(phaseFlows := s.phaseFlows[f.phase := Inc32(s.phaseFlows[f.phase])]);
      }
      step := Some(s);
    }

    method RefuseRequest(env: Env, i: Intent, v: Verdict) returns (reply: Reply)
      modifies this
      ensures Effect(Value(), reply) == ConcludeUnbound(env, old(Value()), i, v)
    {
      hide Push, RecordFence;
      var d := BaseDecision(env, Value(), i, UnknownPhase).(outcome := Reject, reason := v.error, priority := 0);
      RecordFenceEvent(env, FenceOf(env, Value(), i.token, v.error), v.onStep);
      ids := ids.(intent := ids.intent + 1);
      decisions := Retain(decisions, env.config.maxDecisions, d.intent, d);
      return Decided(d);
    }

    method RequestTraffic(env: Env, i: Intent, ghost past: Past) returns (reply: Reply)
      requires JobOk(env.config, env.policy, Value(), past) && EnvOk(env)
      requires step.Some? ==> Keyed(step.value.flows)
      modifies this
      ensures Effect(Value(), reply) == DoRequest(env, old(Value()), i)
    {
      hide JobVerdict, StepVerdict, PhaseVerdict, Decide, IntentError, JobOk, EnvOk, Keyed;
      if IntentError(i) != OK {
        return Refused(IntentError(i));
      }
      var v := ResolveAuthority(env.policy, i.token, NeedPhase);
      if v.error != OK {
        reply := RefuseRequest(env, i, v);
        return;
      }
      BoundBy(env.policy, Value(), i);
      reply := DecideRequest(env, i, past);
    }

    method DecideRequest(env: Env, i: Intent, ghost past: Past) returns (reply: Reply)
      requires JobOk(env.config, env.policy, Value(), past) && EnvOk(env) && Bound(Value(), i)
      requires Keyed(step.value.flows)
      modifies this
      ensures Effect(Value(), reply) == Decide(env, old(Value()), i)
    {
      hide Judge, JobOk, EnvOk, Keyed, CancelEach, Conclude, AdmitStep, Acquire, DecisionFor;
      var j := JudgeRequest(env, i, past);
      ValidEnv(env);
      NeverInternal(env, Value(), i);
      var d := DecisionFor(env, Value(), i, j);
      if j.Allowed? {
        AdmitLeavesTheStep(env, Value(), i, past);
        var f := FlowFor(env, Value(), i, j);
        CancelFlows(env, j.victims, NO_CAPACITY, Some(Defer));
        AdmitKeepsPhases(step.value, f);
        ChargeFlow(f);
        FinishDecision(env, f.phase, d);
      } else {
        FinishDecision(env, i.token.phase, d);
      }
      return Decided(d);
    }

    method CompleteFlow(env: Env, t: Token, intent: nat, bytes: nat, cancelled: bool) returns (reply: Reply)
      modifies this
      ensures Effect(Value(), reply) == DoComplete(env, old(Value()), t, intent, bytes, cancelled)
    {
      hide JobVerdict, StepVerdict, PhaseVerdict, Settle, Push, Release, RecordFence;
      var v := ResolveAuthority(env.policy, t, NeedStep);
      var fence := Fence(OK, env.now, t.step, t.phase, intent, 0, 0, 0, 0, 0);
      if v.error != OK {
        if intent in receipts.items {
          RecordFenceEvent(env, FenceOf(env, Value(), t, FLOW_ALREADY_CLOSED), v.onStep);
          return Refused(FLOW_ALREADY_CLOSED);
        }
        reply := Refuse(env, t, v);
        return;
      }
      if intent !in step.value.flows {
        if intent in receipts.items {
          RecordFenceEvent(env, fence.(reason := FLOW_ALREADY_CLOSED), true);
          return Refused(FLOW_ALREADY_CLOSED);
        }
        RecordFenceEvent(env, fence.(reason := FLOW_NOT_ACTIVE), true);
        return Refused(FLOW_NOT_ACTIVE);
      }
      if bytes > contract.maxBytesPerIntent {
        return Refused(CONTRACT_LIMIT_EXCEEDED);
      }
      CloseFlow(env, step.value.flows[intent], !cancelled, bytes, CANCELLED);
      if intent !in receipts.items {
        return Refused(INTERNAL);
      }
      return Closed(receipts.items[intent]);
    }

    method RevalidateDecision(env: Env, t: Token, intent: nat) returns (reply: Reply)
      modifies this
      ensures Effect(Value(), reply) == DoRevalidate(env, old(Value()), t, intent)
    {
      hide JobVerdict, StepVerdict, PhaseVerdict, MappedClass, EffectivePriority, Find, Operations.Isolated,
           RecordFence;
      var v := ResolveAuthority(env.policy, t, NeedStep);
      if v.error != OK {
        reply := Refuse(env, t, v);
        return;
      }
      if intent !in decisions.items {
        return Revalidation(false, NOT_REGISTERED, None);
      }
      var s, d := step.value, decisions.items[intent];
      if d.token.step != s.id {
        return Revalidation(false, STALE_STEP, Some(d));
      }
      if d.invalidated {
        return Revalidation(false, d.reason, Some(d));
      }
      var active := intent in s.flows;
      var reason := if active then OK else FLOW_NOT_ACTIVE;
      if d.policyGeneration < env.policy.generation {
        var renewed := d.(policyGeneration := env.policy.generation);
        var invalidated := env.policy.strict;
        var mapped := MappedClass(env.policy, s, d.phase);
        var priority := EffectivePriority(env.policy, mapped, Operations.Isolated(s, d.group));
        if !invalidated {
          invalidated := mapped != d.cls || priority != d.priority || Find(env.policy.classes, mapped).None?;
        }
        if invalidated {
          renewed := renewed.(invalidated := true, outcome := Outcome.Revalidate, reason := POLICY_INVALIDATED);
          decisions := decisions.(items := decisions.items[intent := renewed]);
          return Revalidation(false, POLICY_INVALIDATED, Some(renewed));
        }
        renewed := renewed.(cls := mapped, priority := priority);
        decisions := decisions.(items := decisions.items[intent := renewed]);
        return Revalidation(active, reason, Some(renewed));
      }
      return Revalidation(active, reason, Some(d));
    }

    // -------------------------------------------------------------------------
    // Bursts
    // -------------------------------------------------------------------------

    method LowerUtilization(group: nat, delta: nat)
      modifies this`utilized
      ensures Load(utilized, activeFlows) == Lower(old(Load(utilized, activeFlows)), group, delta)
    {
      utilized := utilized[group := if Get(utilized, group) >= delta then Get(utilized, group) - delta else 0];
    }

    method MarkThrottle(g: Flow, burst: nat)
      modifies this`decisions
      ensures decisions == MarkThrottled(old(decisions), g, burst)
    {
      if g.intent in decisions.items {
        var d := decisions.items[g.intent].(outcome := Outcome.Throttle, minBps := g.minBps, maxBps := g.maxBps,
                                            isolated := true, burst := burst);
        decisions := decisions.(items := decisions.items[g.intent := d]);
      }
    }

    method ThrottleTo(f: Flow, ceiling: nat, burst: nat)
      requires step.Some? && ceiling <= f.minBps
      modifies this
      ensures Value() == ThrottleFlow(old(Value()), f, ceiling, burst)
    {
      hide Lower, MarkThrottled;
      var delta := f.minBps - ceiling;
      LowerUtilization(f.group, delta);
      var s := step.value;
      var a := s.acc.(activeMin := if s.acc.activeMin >= delta then s.acc.activeMin - delta else 0);
      var g := f.(minBps := ceiling, maxBps := Min(f.maxBps, ceiling), throttled := true);
      step := Some(s.(acc := a, flows := s.flows[f.intent := g]));
      MarkThrottle(g, burst);
    }

    /** Displace, throttle or leave one flow of the isolated group. */
    method IsolateFlow(env: Env, k: nat, burst: nat, displaced: nat, throttled: nat) returns (d: nat, t: nat)
      requires step.Some?
      modifies this
      ensures step.Some?
      ensures Isolation(Value(), d, t) == IsolateOne(env, Isolation(old(Value()), displaced, throttled), k, burst)
    {
      hide CancelOne, ThrottleFlow, Find;
      d, t := displaced, throttled;
      if k !in step.value.flows {
        return;
      }
      var f := step.value.flows[k];
      var spec := Find(env.policy.classes, f.cls);
      if spec.None? {
        return;
      }
      if f.cls == CheckpointService || spec.value.barrierCritical {
        return;
      }
      if spec.value.isolationCeiling == 0 {
        CancelFlow(env, k, ISOLATION_ACTIVE, Some(Defer));
        d := Inc32(d);
        return;
      }
      if f.minBps > spec.value.isolationCeiling {
        ThrottleTo(f, spec.value.isolationCeiling, burst);
        t := Inc32(t);
      }
    }

    method IsolateFlows(env: Env, order: seq<nat>, burst: nat) returns (d: nat, t: nat)
      requires step.Some?
      modifies this
      ensures step.Some?
      ensures Isolation(Value(), d, t) == IsolateEach(env, Isolation(old(Value()), 0, 0), order, burst)
    {
      hide IsolateOne;
      d, t := 0, 0;
      var i := 0;
      while i < |order|
        invariant 0 <= i <= |order|
        invariant step.Some?
        invariant IsolateEach(env, Isolation(Value(), d, t), order[i..], burst)
               == IsolateEach(env, Isolation(old(Value()), 0, 0), order, burst)
      {
        assert order[i..][0] == order[i] && order[i..][1..] == order[i + 1..];
        d, t := IsolateFlow(env, order[i], burst, d, t);
        i := i + 1;
      }
    }

    method BeginBurst(env: Env, t: Token, group: nat, expected: nat, deadlineAt: nat, reason: bytes)
      returns (reply: Reply)
      modifies this
      ensures Effect(Value(), reply) == DoBeginBurst(env, old(Value()), t, group, expected, deadlineAt, reason)
    {
      hide JobVerdict, StepVerdict, PhaseVerdict, IsolateEach, InGroup, SortedIds, TextError;
      if TextError(reason, MAX_STRING_BYTES) != OK {
        return Refused(TextError(reason, MAX_STRING_BYTES));
      }
      var v := ResolveAuthority(env.policy, t, NeedStep);
      if v.error != OK {
        reply := Refuse(env, t, v);
        return;
      }
      if group !in groups {
        return Refused(UNKNOWN_GROUP);
      }
      if step.value.burst.Some? && step.value.burst.value.active {
        return Refused(BURST_ALREADY_ACTIVE);
      }
      var minted := ids.burst;
      var inside := FlowsOfGroup(step.value.flows, group);
      var order := SortIds(inside);
      var displaced, throttled := IsolateFlows(env, order, minted);
      ids := ids.(burst := minted + 1);
      var burst := Burst(minted, group, expected, env.now, deadlineAt, reason, displaced, throttled, true);
      step := Some(step.value.(burst := Some(burst)));
      return Number(minted);
    }

    method EndBurst(env: Env, t: Token, burst: nat) returns (reply: Reply)
      modifies this
      ensures Effect(Value(), reply) == DoEndBurst(env, old(Value()), t, burst)
    {
      hide JobVerdict, StepVerdict, PhaseVerdict, RecordFence;
      var v := ResolveAuthority(env.policy, t, NeedStep);
      if v.error != OK {
        reply := Refuse(env, t, v);
        return;
      }
      var s := step.value;
      if s.burst.None? || !s.burst.value.active {
        return Refused(BURST_NOT_ACTIVE);
      }
      if s.burst.value.id != burst {
        return Refused(NOT_FOUND);
      }
      step := Some(s.(burst := Some(s.burst.value.(active := false))));
      return Done;
    }

    // -------------------------------------------------------------------------
    // Incarnations
    // -------------------------------------------------------------------------

    method RetireNow(env: Env, cause: ErrorCode)
      modifies this`retiredSet, this`retiredList
      ensures Value() == RetireCurrent(env, old(Value()), cause)
    {
      hide Newest;
      retiredSet := retiredSet + {incarnation};
      retiredList := DropOldest(retiredList + [Retired(incarnation, boot, env.now, cause)], env.config.maxRetired);
    }

    method AdmitReplacement(env: Env, op: JobOp) returns (reply: Reply)
      requires op.Replace?
      modifies this
      ensures Effect(Value(), reply) == DoReplace(env, old(Value()), op)
    {
      hide FenceIfOpen, RetireCurrent;
      if retired {
        return Refused(JOB_RETIRED);
      }
      if op.jobGeneration != generation {
        return Refused(STALE_JOB_GENERATION);
      }
      if epoch != 0 && op.epoch != epoch {
        return Refused(STALE_EPOCH);
      }
      if !op.boot.Valid() {
        return Refused(INVALID_ARGUMENT);
      }
      if op.boot == boot {
        return Refused(CONFLICT);
      }
      if op.expected != incarnation {
        return Refused(STALE_INCARNATION);
      }
      if op.resumeStep != 0 && op.resumeStep <= highestStep {
        return Refused(STALE_STEP);
      }
      FenceOpenStep(env, INCARNATION_RETIRED);
      RetireNow(env, op.cause);
      var minted := ids.incarnation;
      incarnation := minted;
      ids := ids.(incarnation := minted + 1);
      boot := op.boot;
      return Number(minted);
    }

    method RetireIncarnation(env: Env, t: Token) returns (reply: Reply)
      modifies this
      ensures Effect(Value(), reply) == DoRetireIncarnation(env, old(Value()), t)
    {
      hide JobVerdict, StepVerdict, PhaseVerdict, FenceIfOpen, RetireCurrent;
      var v := ResolveAuthority(env.policy, t, NeedJob);
      if v.error != OK {
        reply := Refuse(env, t, v);
        return;
      }
      FenceOpenStep(env, INCARNATION_RETIRED);
      RetireNow(env, INCARNATION_RETIRED);
      return Done;
    }

    /** Advises without changing anything; only a refusal leaves a fence. */
    method EvaluatePacing(env: Env, t: Token, group: nat, expected: nat, arrived: nat, spare: bool) returns (reply: Reply)
      modifies this`step
      ensures Effect(Value(), reply) == DoPacing(env, old(Value()), t, group, expected, arrived, spare)
    {
      hide JobVerdict, StepVerdict, PhaseVerdict;
      if expected == 0 {
        return Refused(INVALID_ARGUMENT);
      }
      if arrived > expected {
        return Refused(INVALID_ARGUMENT);
      }
      var v := ResolveAuthority(env.policy, t, NeedStep);
      if v.error != OK {
        reply := Refuse(env, t, v);
        return;
      }
      if group !in groups {
        return Refused(UNKNOWN_GROUP);
      }
      if !spare {
        return Refused(RESOURCE_EXHAUSTED);
      }
      return Done;
    }

    // -------------------------------------------------------------------------
    // Any operation
    // -------------------------------------------------------------------------

    method Execute(env: Env, op: JobOp, ghost past: Past) returns (reply: Reply)
      requires JobOk(env.config, env.policy, Value(), past) && EnvOk(env)
      requires Value().step.Some? ==> Keyed(Value().step.value.flows)
      modifies this
      ensures Effect(Value(), reply) == Perform(env, old(Value()), op)
    {
      hide JobOk, EnvOk, Keyed;
      hide DoRegisterGroup, DoPublish, DoRetireJob, DoBeginStep, DoBeginPhase, DoEndPhase, DoEndStep, DoRequest,
           DoComplete, DoRevalidate, DoBeginBurst, DoEndBurst, DoReplace, DoRetireIncarnation, DoPacing;
      match op
      case RegisterGroup(t, g) => reply := RegisterGroup(env, t, g);
      case Publish(t, evidence, links) => reply := Publish(env, t, evidence, links);
      case RetireJob(t) => reply := RetireJob(env, t);
      case BeginStep(t, s, deadlineAt, slack) => reply := BeginStep(env, t, s, deadlineAt, slack);
      case BeginPhase(t, spec) => reply := BeginPhase(env, t, spec);
      case EndPhase(t, phase, d) => reply := EndPhase(env, t, phase, d);
      case EndStep(t, end) => reply := EndStep(env, t, end);
      case Request(i) => reply := RequestTraffic(env, i, past);
      case Complete(t, intent, bytes, cancelled) => reply := CompleteFlow(env, t, intent, bytes, cancelled);
      case RevalidateFlow(t, intent) => reply := RevalidateDecision(env, t, intent);
      case BeginBurst(t, group, expected, deadlineAt, reason) =>
        reply := BeginBurst(env, t, group, expected, deadlineAt, reason);
      case EndBurst(t, burst) => reply := EndBurst(env, t, burst);
      case Replace(_, _, _, _, _, _, _) => reply := AdmitReplacement(env, op);
      case RetireIncarnation(t) => reply := RetireIncarnation(env, t);
      case EvaluatePacing(t, group, expected, arrived, spare) =>
        reply := EvaluatePacing(env, t, group, expected, arrived, spare);
    }
  }

  lemma AdmitKeepsPhases(step: Step, f: Flow)
    ensures AdmitStep(step, f).phases == step.phases
  {}

  lemma NothingToCancel(env: Env, job: Job, reason: ErrorCode)
    requires job.step.Some? && job.step.value.flows == map[]
    ensures CancelAll(env, job, reason) == job
  {}

  /** What arbitration relies on: ordered evidence, and rates within range. */
  lemma ArbitrationFacts(config: Config, policy: Policy, job: Job, past: Past)
    requires Open(config, policy, job, past)
    ensures LinksAscend(job.topology.links)
    ensures forall k :: k in job.step.value.flows ==> job.step.value.flows[k].minBps <= MAX_RATE_BPS
    ensures forall l :: l in job.topology.links ==> l.capacity <= MAX_RATE_BPS
  {
    hide Sum, StepOk, DecisionsOk, ReceiptsOk, GroupsOk, HistoryOk, ContractError, LifecycleOk, FencesOk;
    RatesFit(policy, job, past.lost);
    forall l | l in job.topology.links ensures l.capacity <= MAX_RATE_BPS {
      assert LinkError(l) == OK;
    }
  }
}
