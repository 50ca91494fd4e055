/** Which of the states the fabric can reach its own snapshot carries and restores. */
module Restorable {
  import opened Results
  import opened Utf8
  import opened Codec
  import opened Model
  import opened Policies
  import opened Order
  import opened Sums
  import opened Traffic
  import opened Operations
  import opened Invariants
  import opened Preservation
  import opened Steps
  import opened Requests
  import opened Jobs
  import opened Durable
  import opened Listing
  import opened Records
  import opened OpenSteps
  import opened Snapshot
  import opened Limits
  import opened Storing
  import opened Runs

  // ---------------------------------------------------------------------------
  // Numbers of the program's widths
  // ---------------------------------------------------------------------------

  ghost predicate StepInRange(step: Step) {
    && step.jobGeneration < U64_LIMIT && step.openedAt < U64_LIMIT && step.deadlineAt < U64_LIMIT
    && step.slack < U64_LIMIT && step.intentsSeen < U64_LIMIT && step.fencesObserved < U64_LIMIT
    && StepAccFits(step.acc)
    && (forall p :: p in step.phaseAcc ==> PhaseAccFits(step.phaseAcc[p]))
    && (forall p :: p in step.phases ==>
          var r := step.phases[p];
          r.spec.deadlineAt < U64_LIMIT && r.openedAt < U64_LIMIT && r.closedAt < U64_LIMIT)
    && (forall f :: f in step.fences ==> FenceFits(f))
    && (step.burst.Some? ==>
          var b := step.burst.value;
          && b.id < U64_LIMIT && b.group < U64_LIMIT && b.expectedBytes < U64_LIMIT && b.openedAt < U64_LIMIT
          && b.deadlineAt < U64_LIMIT && b.displaced < U32_LIMIT && b.throttled < U32_LIMIT)
  }

  ghost predicate ReportInRange(r: Report) {
    && r.jobGeneration < U64_LIMIT && r.openedAt < U64_LIMIT && r.closedAt < U64_LIMIT && r.fencesObserved < U64_LIMIT
    && StepAccFits(r.acc)
    && (forall p :: p in r.phases ==> SummaryFits(p))
    && (forall f :: f in r.fences ==> FenceFits(f))
  }

  /** Every number fits the field the program keeps it in. */
  ghost predicate JobInRange(job: Job) {
    && job.id < U64_LIMIT && job.generation < U64_LIMIT && job.boot.hi < U64_LIMIT && job.boot.lo < U64_LIMIT
    && job.epoch < U64_LIMIT && job.contract.generation < U64_LIMIT && job.highestStep < U64_LIMIT
    && (forall g :: g in job.groups ==> g < U64_LIMIT)
    && (forall l :: l in job.topology.links ==> l.group < U64_LIMIT)
    && (forall r :: r in job.retiredList ==> RetiredFits(r))
    && (job.step.Some? ==> StepInRange(job.step.value))
    && (forall r :: r in job.history ==> ReportInRange(r))
    && job.ids.intent < U64_LIMIT && job.ids.phase < U64_LIMIT && job.ids.burst < U64_LIMIT
    && job.ids.incarnation < U64_LIMIT && job.ids.topology < U64_LIMIT
  }

  ghost predicate PolicyInRange(p: Policy) {
    && p.generation < U64_LIMIT && (forall s :: s in p.classes ==> s.weight < U32_LIMIT && s.isolationCeiling < U64_LIMIT)
    && p.isolationPriority < U8_LIMIT
  }

  ghost predicate ConfigInRange(c: Config) {
    c.maxJobs < U32_LIMIT && c.maxFences < U32_LIMIT && c.maxRetired < U32_LIMIT
  }

  ghost predicate StateInRange(s: State) {
    && s.now < U64_LIMIT && s.nextJob < U64_LIMIT && ConfigInRange(s.config) && PolicyInRange(s.policy)
    && forall k :: k in s.jobs ==> JobInRange(s.jobs[k])
  }

  // ---------------------------------------------------------------------------
  // What is written of a job
  // ---------------------------------------------------------------------------

  lemma HeadFitsNow(config: Config, job: Job)
    requires ContractError(job.contract) == OK && StoreOk(config, job) && JobInRange(job) && job.id != 0
    requires 0 < job.incarnation < job.ids.incarnation
    ensures HeadFits(job)
  {
    hide TextError, ReportsOk;
  }

  lemma GroupsFitNow(job: Job)
    requires GroupsOk(job.groups, job.groupOrder, job.contract.maxGroups) && ContractError(job.contract) == OK
    requires forall g :: g in job.groups ==> g < U64_LIMIT
    ensures GroupsFit(job)
  {
    hide TextError;
  }

  lemma TopologyWrittenNow(job: Job)
    requires TopologyOk(job.topology, job.ids.topology) && job.ids.topology < U64_LIMIT
    requires forall l :: l in job.topology.links ==> l.group < U64_LIMIT
    ensures TopologyWritten(job.topology) && job.topology.generation < job.ids.topology
  {
    hide TextError, FirstLinkError, LinksAscend;
    LinksErrorIff(job.topology.links);
    forall l | l in job.topology.links ensures LinkFits(l) {
      assert LinkError(l) == OK;
    }
  }

  lemma PhasesWrittenNow(policy: Policy, job: Job, lost: nat)
    requires job.step.Some? && StepOk(policy, job, job.step.value, lost)
    requires StepInRange(job.step.value) && job.ids.phase < U64_LIMIT && job.contract.maxPhases < U32_LIMIT
    requires forall g :: g in job.groups ==> g < U64_LIMIT
    ensures PhasesWritten(job.step.value, job.groups.Keys) && |job.step.value.phaseOrder| <= job.contract.maxPhases
  {
    hide FlowsOk, TotalsOk, CountsOk, PhaseCountsOk, FlowDecisionsOk, Bounded, Wide, Sum, PhaseSum, Ascending,
         WithinBudget, StepAccFits, FenceFits, PhaseAccFits, TextError;
    var step := job.step.value;
    AscendingCovers(step.phaseOrder, step.phases);
    forall k | k in step.phases
      ensures step.phases[k].id == k != 0 && PhaseFits(step.phases[k]) && step.phases[k].spec.group in job.groups
      ensures PhaseAccFits(PhaseAccOf(step, k))
    {
      assert PhaseSpecError(step.phases[k].spec) == OK;
      assert k in step.phaseAcc;
    }
  }

  lemma AscendingCovers(order: seq<nat>, phases: map<nat, Phase>)
    requires Ascending(order) && forall k :: k in order <==> k in phases
    ensures |order| == |phases|
  {
    AscendingSize(order, phases.Keys);
  }

  lemma PhaseLimit(c: Contract)
    requires ContractError(c) == OK
    ensures c.maxPhases < U32_LIMIT
  {
    hide TextError;
  }

  lemma StepWrittenNow(config: Config, policy: Policy, job: Job, past: Past)
    requires Open(config, policy, job, past) && StoreOk(config, job) && JobInRange(job) && config.maxFences < U32_LIMIT
    ensures StepWritten(job.step.value, job.groups.Keys) && |job.step.value.phaseOrder| <= job.contract.maxPhases
  {
    hide LoadOk, ReceiptsOk, DecisionsOk, GroupsOk, TopologyOk, HistoryOk, ContractError, StepOk, Bounded, Wide,
         TextError, StepAccFits, PhaseAccFits, FenceFits, ReportsOk, ReportInRange, PhasesWritten;
    PhaseLimit(job.contract);
    PhasesWrittenNow(policy, job, past.lost);
  }

  lemma HistoryWrittenNow(config: Config, job: Job)
    requires HistoryOk(job.history, job.contract, job.lastClosedStep) && FencesOk(config, job)
    requires ContractError(job.contract) == OK && ReportsOk(job.contract, job.history)
    requires config.maxFences < U32_LIMIT && job.lastClosedStep < U64_LIMIT
    requires forall r :: r in job.history ==> ReportInRange(r)
    ensures HistoryWritten(job)
  {
    hide StepAccFits, FenceFits, SummaryFits, Bounded, Wide, Balanced, TextError;
    forall r | r in job.history ensures ReportHeld(r) {
      assert ReportInRange(r) && ReportOk(job.contract, r);
    }
  }

  /** A job that satisfies the invariant, in numbers of the program's widths, can be written. */
  lemma JobWrittenNow(config: Config, policy: Policy, job: Job, past: Past)
    requires JobOk(config, policy, job, past) && StoreOk(config, job) && JobInRange(job) && job.id != 0
    requires ConfigInRange(config)
    ensures JobWritten(job)
  {
    hide LoadOk, ReceiptsOk, DecisionsOk, GroupsOk, TopologyOk, HistoryOk, ContractError, StepOk, Bounded, Wide,
         TextError, RetiredFits, ReportsOk, ReportInRange, HistoryWritten, StepWritten, StepInRange, GroupsFit,
         TopologyWritten, HeadFits;
    HeadFitsNow(config, job);
    GroupsFitNow(job);
    TopologyWrittenNow(job);
    if job.step.Some? {
      StepWrittenNow(config, policy, job, past);
    }
    HistoryWrittenNow(config, job);
  }

  // ---------------------------------------------------------------------------
  // What can be read back
  // ---------------------------------------------------------------------------

  /** Limits under which a snapshot of this job can be read back; a caller can check them when the fabric
      is configured and the job registered. */
  predicate Limited(config: Config, c: Contract) {
    && config.maxFences <= MAX_FENCES && config.maxRetired <= MAX_RETIRED
    && c.maxPhases <= MAX_PHASES && Bounded(c)
  }

  lemma BalancedIsSettled(a: StepAcc)
    requires Balanced(a) && StepAccFits(a)
    ensures Settled(a)
  {}

  lemma ReportReadableNow(config: Config, job: Job, r: Report)
    requires HistoryOk(job.history, job.contract, job.lastClosedStep) && FencesOk(config, job)
    requires ReportsOk(job.contract, job.history) && Limited(config, job.contract)
    requires r in job.history && StepAccFits(r.acc)
    ensures ReportReadable(r)
  {
    hide StepAccFits, Bounded, Balanced, Settled;
    assert ReportOk(job.contract, r) && Balanced(r.acc);
    BalancedIsSettled(r.acc);
  }

  lemma StepReadableNow(config: Config, policy: Policy, job: Job, past: Past)
    requires Open(config, policy, job, past) && Limited(config, job.contract)
    requires |job.step.value.phaseOrder| <= job.contract.maxPhases
    ensures StepReadable(job.step.value)
  {
    hide LoadOk, ReceiptsOk, DecisionsOk, GroupsOk, TopologyOk, HistoryOk, ContractError, StepOk, Bounded, PhaseAccOf;
    PhaseBytes(policy, job, past.lost);
  }

  /** Within these limits a snapshot of the job is read back as soon as its evidence names registered groups. */
  lemma JobReadableNow(config: Config, policy: Policy, job: Job, past: Past)
    requires JobOk(config, policy, job, past) && StoreOk(config, job) && JobInRange(job)
    requires ConfigInRange(config) && Limited(config, job.contract) && EvidenceRegistered(job)
    ensures JobReadable(job)
  {
    hide LoadOk, ReceiptsOk, DecisionsOk, GroupsOk, TopologyOk, HistoryOk, ContractError, StepOk, Bounded, Wide,
         ReportsOk, StepReadable, ReportReadable, StepAccFits, FenceFits, Limited, StepWritten;
    if job.step.Some? {
      StepWrittenNow(config, policy, job, past);
      StepReadableNow(config, policy, job, past);
    }
    forall r | r in job.history ensures ReportReadable(r) {
      ReportReadableNow(config, job, r);
    }
    LimitedRetires(config, job);
  }

  lemma LimitedRetires(config: Config, job: Job)
    requires StoreOk(config, job) && Limited(config, job.contract)
    ensures |job.retiredList| <= MAX_RETIRED
  {
    hide ReportsOk, Bounded;
  }

  // ---------------------------------------------------------------------------
  // Every reachable state
  // ---------------------------------------------------------------------------

  ghost predicate AllStoreOk(s: State) {
    forall k :: k in s.jobs ==> StoreOk(s.config, s.jobs[k])
  }

  lemma CallStoresOne(w: World, call: Call, k: nat)
    requires WorldOk(w) && Permitted(w.state, call) && k in After(w, call).state.jobs
    requires k in w.state.jobs ==> StoreOk(w.state.config, w.state.jobs[k])
    ensures StoreOk(w.state.config, After(w, call).state.jobs[k])
  {
    hide JobOk, ValidPolicy, Perform, RebaseEach, DoSetPolicy, ContractError, EnvOk, Stranger, DurableJob,
         StoreOk, NewJob;
    var s := w.state;
    if k in s.jobs {
      assert Runs.Entry(s, k, w.pasts[k]);
      match call
      case Register(r) =>
      case SetPolicy(p) => PolicyStores(w, p, k);
      case Rebase(epoch, walk) =>
        RebaseAt(s.jobs, walk, epoch, k);
        EpochStores(s.config, s.jobs[k], After(w, call).state.jobs[k].epoch);
      case OnJob(op) =>
        if TargetOf(op) == k {
          EnvIsOk(w);
          WorldIsKeyed(w, k);
          PerformStores(EnvOf(Tick(s)), s.jobs[k], op, w.pasts[k]);
        }
      case Restart => DurableStores(s.config, s.jobs[k]);
    } else {
      NewStores(w, call, k);
    }
  }

  lemma PolicyStores(w: World, p: Policy, k: nat)
    requires WorldOk(w) && Permitted(w.state, SetPolicy(p)) && k in w.state.jobs
    requires StoreOk(w.state.config, w.state.jobs[k])
    ensures k in DoSetPolicy(Tick(w.state), p).state.jobs
    ensures StoreOk(w.state.config, DoSetPolicy(Tick(w.state), p).state.jobs[k])
  {
    hide JobOk, Invalidate, PolicyError, ValidPolicy, StoreOk, Trimmed, Bystander;
    var s, job := Tick(w.state), w.state.jobs[k];
    var env := Env(s.config, p, s.now);
    assert Runs.Entry(w.state, k, w.pasts[k]);
    InvalidateKeeps(env, s.policy, job, POLICY_INVALIDATED, w.pasts[k]);
    if job.step.Some? {
      TrimmedIsBystander(job, Invalidate(env, job, POLICY_INVALIDATED));
      BystanderKeeps(s.config, job, Invalidate(env, job, POLICY_INVALIDATED));
    } else {
      NothingToInvalidate(env, job);
    }
  }

  lemma EpochStores(config: Config, job: Job, epoch: nat)
    requires StoreOk(config, job)
    ensures StoreOk(config, job.(epoch := epoch))
  {
    hide ReportsOk, TextError;
  }

  lemma DurableStores(config: Config, job: Job)
    requires StoreOk(config, job)
    ensures StoreOk(config, DurableJob(job))
  {
    hide ReportsOk, TextError;
    if job.step.Some? {
      DurableLeaves(job.step.value);
    }
  }

  lemma NewStores(w: World, call: Call, k: nat)
    requires WorldOk(w) && Permitted(w.state, call) && k in After(w, call).state.jobs && k !in w.state.jobs
    ensures StoreOk(w.state.config, After(w, call).state.jobs[k])
  {
    hide JobOk, ValidPolicy, Perform, RebaseEach, DurableJob, DoSetPolicy, ContractError, EnvOk, TextError;
    match call
    case Register(r) =>
    case SetPolicy(p) => SetPolicyKeys(w, p);
    case Rebase(epoch, walk) => RebaseKeys(w.state.jobs, walk, epoch);
    case OnJob(op) =>
    case Restart =>
  }

  lemma SetPolicyKeys(w: World, p: Policy)
    requires Permitted(w.state, SetPolicy(p))
    ensures DoSetPolicy(Tick(w.state), p).state.jobs.Keys == w.state.jobs.Keys
  {
    hide Invalidate, PolicyError;
  }

  lemma {:induction false} RunStores(w: World, calls: seq<Call>)
    requires WorldOk(w) && Legal(w, calls) && AllStoreOk(w.state)
    ensures AllStoreOk(RunFrom(w, calls).state) && RunFrom(w, calls).state.config == w.state.config
    decreases |calls|
  {
    hide WorldOk, StoreOk, Permitted;
    if calls != [] {
      AfterKeeps(w, calls[0]);
      ConfigIsFixed(w, calls[0]);
      forall k | k in After(w, calls[0]).state.jobs ensures StoreOk(w.state.config, After(w, calls[0]).state.jobs[k]) {
        CallStoresOne(w, calls[0], k);
      }
      RunStores(After(w, calls[0]), calls[1..]);
    }
  }

  lemma ConfigIsFixed(w: World, call: Call)
    requires WorldOk(w) && Permitted(w.state, call)
    ensures After(w, call).state.config == w.state.config
  {
    hide WorldOk, RebaseEach, Perform, Invalidate, PolicyError, ContractError;
  }

  /** The classes of a valid policy are distinct, so there are no more of them than there are services. */
  lemma {:induction false} ClassesBound(classes: seq<ClassSpec>, services: seq<ServiceClass>)
    requires forall i, j :: 0 <= i < j < |classes| ==> !Clash(classes[i], classes[j])
    requires forall s :: s in classes ==> s.cls in services
    ensures |classes| <= |services|
    decreases |services|
  {
    assert classes == [] || classes[0] in classes;
    if services != [] {
      if i :| 0 <= i < |classes| && classes[i].cls == services[0] {
        ClassesBound(classes[..i] + classes[i + 1..], services[1..]);
      } else {
        ClassesBound(classes, services[1..]);
      }
    }
  }

  lemma PolicyFitsNow(p: Policy)
    requires ValidPolicy(p) && PolicyInRange(p)
    ensures PolicyFits(p) && PolicyError(p) == OK
  {
    hide Find;
    PolicyErrorIff(p);
    forall s | s in p.classes ensures s.cls in SERVICES && SpecFits(s) {
      ServiceNamed(s.cls);
      assert SpecError(s) == OK;
    }
    ClassesBound(p.classes, SERVICES);
  }

  lemma StateWrittenNow(w: World)
    requires WorldOk(w) && AllStoreOk(w.state) && StateInRange(w.state)
    ensures StateWritten(w.state)
  {
    hide JobOk, ValidPolicy, StoreOk, JobInRange, JobWritten, PolicyFits, PolicyError, Add64, PolicyInRange;
    PolicyFitsNow(w.state.policy);
    forall k | k in w.state.jobs
      ensures JobWritten(w.state.jobs[k]) && w.state.jobs[k].id == k && Add64(k, 1) <= w.state.nextJob
    {
      assert Runs.Entry(w.state, k, w.pasts[k]);
      JobWrittenNow(w.state.config, w.state.policy, w.state.jobs[k], w.pasts[k]);
    }
  }

  /** The snapshot is read back exactly when the state is readable, and then as its durable projection. */
  ghost predicate Restores(s: State) {
    Serialize(s).Success? ==>
      && (Deserialize(s.config, Serialize(s).value).Success? <==> Readable(s))
      && (Readable(s) ==> Deserialize(s.config, Serialize(s).value) == Success(DurableState(s)))
  }

  /** Whatever the fabric has done since it was started, its snapshot can be restored exactly when its
      evidence names registered groups, no list is longer than the reader allows and no counter of bytes
      has wrapped; what is restored is the durable projection of its state. */
  lemma EveryRunIsRestorable(w: World, calls: seq<Call>, s: State)
    requires WorldOk(w) && AllStoreOk(w.state) && Legal(w, calls) && s == RunFrom(w, calls).state && StateInRange(s)
    ensures Restores(s)
  {
    hide WorldOk, StateInRange, AllStoreOk, StateWritten, Readable, Deserialize, Serialize, DurableState, Permitted;
    RunKeeps(w, calls);
    RunStores(w, calls);
    StateWrittenNow(RunFrom(w, calls));
    if Serialize(s).Success? {
      StateReadIff(s);
    }
  }

  /** Under limits that can be checked in advance, registered evidence is all a snapshot needs. */
  lemma LimitedIsReadable(w: World, calls: seq<Call>, s: State)
    requires WorldOk(w) && AllStoreOk(w.state) && Legal(w, calls) && s == RunFrom(w, calls).state && StateInRange(s)
    requires forall k :: k in s.jobs ==> Limited(s.config, s.jobs[k].contract)
    ensures Readable(s) <==> forall k :: k in s.jobs ==> EvidenceRegistered(s.jobs[k])
  {
    hide WorldOk, Legal, RunFrom, AllStoreOk, JobInRange, Limited, JobOk, StoreOk, JobReadable, PolicyInRange,
         EvidenceRegistered;
    RunKeeps(w, calls);
    RunStores(w, calls);
    forall k | k in s.jobs ensures JobReadable(s.jobs[k]) <==> EvidenceRegistered(s.jobs[k]) {
      ReadableIsRegistered(s.jobs[k]);
      if EvidenceRegistered(s.jobs[k]) {
        LimitedJobIsReadable(RunFrom(w, calls), k);
      }
    }
  }

  lemma LimitedJobIsReadable(w: World, k: nat)
    requires WorldOk(w) && AllStoreOk(w.state) && StateInRange(w.state) && k in w.state.jobs
    requires Limited(w.state.config, w.state.jobs[k].contract) && EvidenceRegistered(w.state.jobs[k])
    ensures JobReadable(w.state.jobs[k])
  {
    hide JobOk, ValidPolicy, StoreOk, JobInRange, JobReadable, Limited, EvidenceRegistered, PolicyInRange, Add64;
    assert Runs.Entry(w.state, k, w.pasts[k]);
    JobReadableNow(w.state.config, w.state.policy, w.state.jobs[k], w.pasts[k]);
  }

  lemma ReadableIsRegistered(job: Job)
    ensures JobReadable(job) ==> EvidenceRegistered(job)
  {}

  // ---------------------------------------------------------------------------
  // Fixed points
  // ---------------------------------------------------------------------------

  /** After one restore, a snapshot and a restore change nothing more. */
  lemma RestoreIsFixed(s: State)
    ensures DurableState(DurableState(s)) == DurableState(s)
    ensures StateBytes(DurableState(DurableState(s))) == StateBytes(DurableState(s))
  {
    hide DurableJob, StateBytes;
    forall k | k in s.jobs ensures DurableJob(DurableJob(s.jobs[k])) == DurableJob(s.jobs[k]) {
      DurableTwice(s.jobs[k]);
    }
    assert DurableState(DurableState(s)).jobs == DurableState(s).jobs;
  }
}
