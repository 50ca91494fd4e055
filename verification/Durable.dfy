/** What survives a restart: registration, generations, evidence, closed history and the structure of
    an open step. Live flows, decisions and receipts do not. */
module Durable {
  import opened Results
  import opened Model
  import opened Policies
  import opened Order
  import opened Sums
  import opened Traffic
  import opened Invariants
  import opened Accounting

  function DurablePhaseAcc(step: Step, p: nat): PhaseAcc {
    var a := PhaseAccOf(step, p);
    a.(bytesCommitted := a.bytesCompleted)
  }

  /** Bytes committed to flows that cannot be seen after a restart are dropped. */
  function DurableStep(step: Step): Step {
    step.(
      flows := map[],
      phaseAcc := map p | p in step.phases :: DurablePhaseAcc(step, p),
      phaseFlows := map p | p in step.phases :: 0,
      acc := step.acc.(activeFlows := 0, activeMin := 0,
                       bytesCommitted := Add64(step.acc.bytesCompleted, step.acc.bytesCancelled)))
  }

  function NoLoad(groups: map<nat, Group>): Load {
    Load(map g | g in groups :: 0, map g | g in groups :: 0)
  }

  function IncarnationsOf(list: seq<Retired>): set<nat> {
    set r | r in list :: r.incarnation
  }

  ghost function DurableJob(job: Job): Job {
    job.(
      groupOrder := SortedIds(job.groups.Keys),
      load := NoLoad(job.groups),
      retiredSet := IncarnationsOf(job.retiredList),
      step := if job.step.Some? then Some(DurableStep(job.step.value)) else None,
      ledger := NO_LEDGER)
  }

  ghost function DurableState(s: State): State {
    s.(jobs := map k | k in s.jobs :: DurableJob(s.jobs[k]))
  }

  /** A second restart changes nothing: the projection is a projection. */
  lemma DurableTwice(job: Job)
    ensures DurableJob(DurableJob(job)) == DurableJob(job)
  {
    if job.step.Some? {
      var once := DurableStep(job.step.value);
      assert DurableStep(once).phaseAcc == once.phaseAcc;
      assert DurableStep(once).phaseFlows == once.phaseFlows;
    }
  }

  // ---------------------------------------------------------------------------
  // The invariant survives
  // ---------------------------------------------------------------------------

  /** After a restart every intent so far belongs to the past, the live flows are lost, and the counters start
      anew. */
  ghost function PastRestart(job: Job, past: Past): Past {
    Past(job.ids.intent, past.lost + Sum(Count, LiveFlows(job)), false)
  }

  lemma DurablePhaseSums(step: Step)
    requires KeysOk(step.phases, step.phaseAcc, step.phaseFlows)
    ensures forall w :: PhaseSum(w, DurableStep(step).phaseAcc) == PhaseSum(w, step.phaseAcc)
  {
    forall w ensures PhaseSum(w, DurableStep(step).phaseAcc) == PhaseSum(w, step.phaseAcc) {
      assert PhaseWeights(w, DurableStep(step).phaseAcc) == PhaseWeights(w, step.phaseAcc);
    }
  }

  lemma DurableKeepsBytes(c: Contract, step: Step)
    requires Bounded(c) && BytesOk(c, step.acc, step.phaseAcc, step.flows)
    requires KeysOk(step.phases, step.phaseAcc, step.phaseFlows)
    ensures var d := DurableStep(step); BytesOk(c, d.acc, d.phaseAcc, d.flows)
  {
    hide Sum, PhaseSum;
    forall w ensures Sum(w, map[]) == 0 {
      SumEmpty(w);
    }
    DurablePhaseSums(step);
    BudgetFits(c, step.acc.bytesCommitted, Sum(Count, step.flows));
    FewerInBudget(c, step.acc.bytesCommitted, Sum(Count, step.flows), DurableStep(step).acc.bytesCommitted);
  }

  lemma FewerInBudget(c: Contract, committed: nat, live: nat, less: nat)
    requires WithinBudget(c, committed, live) && less <= committed
    ensures WithinBudget(c, less, 0)
  {}

  lemma DurableKeepsTables(step: Step)
    requires KeysOk(step.phases, step.phaseAcc, step.phaseFlows)
    ensures var d := DurableStep(step); KeysOk(d.phases, d.phaseAcc, d.phaseFlows)
  {}

  lemma DurableKeepsPhaseCounts(step: Step)
    requires KeysOk(step.phases, step.phaseAcc, step.phaseFlows) && PhaseCountsOk(step.acc, step.phaseAcc)
    ensures var d := DurableStep(step); PhaseCountsOk(d.acc, d.phaseAcc)
  {
    DurablePhaseSums(step);
    hide PhaseSum;
  }

  lemma DurableKeepsTotals(wide: bool, step: Step)
    ensures var d := DurableStep(step); TotalsOk(wide, d.acc, d.phaseFlows, d.flows)
  {
    hide Sum;
    forall w ensures Sum(w, map[]) == 0 {
      SumEmpty(w);
    }
  }

  lemma DurableLeaves(step: Step)
    ensures var d := DurableStep(step);
      && d.flows == map[] && d.id == step.id && d.incarnation == step.incarnation && d.fences == step.fences
      && d.burst == step.burst && d.phases == step.phases && d.phaseOrder == step.phaseOrder
      && d.intentsSeen == step.intentsSeen
  {}

  lemma DurableKeepsCounts(step: Step, limit: nat, lost: nat)
    requires CountsOk(step.acc, step.intentsSeen, limit, Sum(Count, step.flows), lost)
    ensures CountsOk(DurableStep(step).acc, step.intentsSeen, limit, 0, lost + Sum(Count, step.flows))
  {
    hide Sum;
  }

  lemma NoFlowsOk(classes: seq<ClassSpec>, phases: map<nat, Phase>, limit: nat, next: nat)
    ensures FlowsOk(classes, map[], phases, limit, next)
    ensures forall step: nat, d: map<nat, Decision> :: FlowDecisionsOk(d, map[], step)
  {}

  lemma DurableKeepsStep(policy: Policy, job: Job, past: Past)
    requires job.step.Some? && StepOk(policy, job, job.step.value, past.lost)
    ensures StepOk(policy, DurableJob(job), DurableStep(job.step.value), PastRestart(job, past).lost)
  {
    hide PhasesOk, KeysOk, FlowsOk, TotalsOk, BytesOk, CountsOk, PhaseCountsOk, FlowDecisionsOk, Bounded, Wide, Sum,
         DurableStep, NoLoad;
    var step, c := job.step.value, job.contract;
    DurableLeaves(step);
    NoFlowsOk(policy.classes, step.phases, c.maxActiveFlows, job.ids.intent);
    DurableKeepsTables(step);
    DurableKeepsTotals(Wide(c), step);
    if Bounded(c) {
      DurableKeepsBytes(c, step);
    }
    DurableKeepsPhaseCounts(step);
    DurableKeepsCounts(step, c.maxIntents, past.lost);
    SumEmpty(Count);
  }

  lemma DurableKeepsGroups(job: Job)
    requires GroupsOk(job.groups, job.groupOrder, job.contract.maxGroups)
    ensures GroupsOk(job.groups, SortedIds(job.groups.Keys), job.contract.maxGroups)
    ensures LoadOk(true, NoLoad(job.groups), map[])
  {
    hide Sum, GroupError;
    SortedIdsMembers(job.groups.Keys);
    forall g ensures GroupLoadOk(true, NoLoad(job.groups), map[], g) {
      SumEmpty(GroupRate(g));
      SumEmpty(GroupCount(g));
    }
  }

  lemma DurableKeeps(config: Config, policy: Policy, job: Job, past: Past)
    requires JobOk(config, policy, job, past)
    ensures JobOk(config, policy, DurableJob(job), PastRestart(job, past))
  {
    hide LoadOk, GroupsOk, TopologyOk, HistoryOk, ContractError, StepOk, DurableStep, NoLoad, Sum;
    DurableKeepsGroups(job);
    if job.step.Some? {
      DurableKeepsStep(policy, job, past);
      DurableLeaves(job.step.value);
    }
  }
}
