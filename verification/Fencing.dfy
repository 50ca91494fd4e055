/** Fencing over every continuation: what has been superseded is never accepted again. */
module Fencing {
  import opened Results
  import opened Model
  import opened Policies
  import opened Authorities
  import opened Operations
  import opened Invariants
  import opened Steps
  import opened Requests
  import opened Jobs
  import opened Durable
  import opened Runs

  /** What only moves forward in a job's life, restarts included. */
  ghost predicate Later(a: Job, b: Job) {
    && b.id == a.id && b.generation == a.generation && b.contract == a.contract
    && a.incarnation <= b.incarnation
    && a.epoch <= b.epoch
    && (a.retired ==> b.retired)
    && a.topology.generation <= b.topology.generation
    && (b.topology.generation == a.topology.generation ==> b.topology == a.topology)
    && a.highestStep <= b.highestStep && a.lastClosedStep <= b.lastClosedStep
    && (b.step.Some? ==>
          || b.step.value.id > a.highestStep
          || (a.step.Some? && b.step.value.id == a.step.value.id && b.step.value.incarnation == a.step.value.incarnation))
    && a.ids.intent <= b.ids.intent
  }

  lemma LaterOnward(a: Job, b: Job, c: Job)
    requires Later(a, b) && Later(b, c)
    ensures Later(a, c)
  {}

  lemma SameIsLater(a: Job)
    requires a.step.Some? ==> a.step.value.id <= a.highestStep
    ensures Later(a, a)
  {}

  lemma AdvancesIsLater(a: Job, b: Job)
    requires Advances(a, b)
    ensures Later(a, b)
  {}

  lemma DurableIsLater(job: Job)
    ensures Later(job, DurableJob(job))
  {
    if job.step.Some? {
      assert DurableStep(job.step.value).id == job.step.value.id;
    }
  }

  lemma InvalidatedIsLater(s: State, p: Policy, job: Job, past: Past)
    requires JobOk(s.config, s.policy, job, past)
    ensures Later(job, Invalidate(Env(s.config, p, s.now), job, POLICY_INVALIDATED))
  {
    hide JobOk, Invalidate;
    var env := Env(s.config, p, s.now);
    StepIsNewest(Env(s.config, s.policy, s.now), job, past);
    InvalidateKeeps(env, s.policy, job, POLICY_INVALIDATED, past);
    if job.step.None? {
      NothingToInvalidate(env, job);
    }
  }

  lemma SetPolicyLater(w: World, p: Policy, k: nat)
    requires WorldOk(w) && Permitted(w.state, SetPolicy(p)) && k in w.state.jobs
    ensures k in DoSetPolicy(Tick(w.state), p).state.jobs
    ensures Later(w.state.jobs[k], DoSetPolicy(Tick(w.state), p).state.jobs[k])
  {
    hide JobOk, Invalidate, PolicyError, ValidPolicy, Later;
    assert Entry(w.state, k, w.pasts[k]);
    InvalidatedIsLater(Tick(w.state), p, w.state.jobs[k], w.pasts[k]);
    NewestIsLater(w, k);
  }

  lemma NewestStep(w: World, k: nat)
    requires WorldOk(w) && k in w.state.jobs
    ensures var job := w.state.jobs[k]; job.step.Some? ==> job.step.value.id == job.highestStep
  {
    hide ValidPolicy;
    assert Entry(w.state, k, w.pasts[k]);
    StepIsNewest(EnvOf(w.state), w.state.jobs[k], w.pasts[k]);
  }

  lemma OnJobLater(w: World, op: JobOp, k: nat)
    requires WorldOk(w) && Permitted(w.state, OnJob(op)) && k in w.state.jobs
    ensures k in After(w, OnJob(op)).state.jobs
    ensures Later(w.state.jobs[k], After(w, OnJob(op)).state.jobs[k])
  {
    hide JobOk, ValidPolicy, Perform, EnvOk, Stranger, Advances;
    var job, env := w.state.jobs[k], EnvOf(Tick(w.state));
    assert Entry(w.state, k, w.pasts[k]);
    NewestStep(w, k);
    if TargetOf(op) == k {
      EnvIsOk(w);
      WorldIsKeyed(w, k);
      PerformKept(env, job, op, w.pasts[k]);
      AdvancesIsLater(job, Perform(env, job, op).job);
    }
  }

  /** Every call only moves every job forward. */
  lemma CallIsLater(w: World, call: Call, k: nat)
    requires WorldOk(w) && Permitted(w.state, call) && k in w.state.jobs
    ensures k in After(w, call).state.jobs
    ensures Later(w.state.jobs[k], After(w, call).state.jobs[k])
  {
    hide JobOk, ValidPolicy, Perform, RebaseEach, DurableJob, PolicyError, ContractError, Entry;
    NewestStep(w, k);
    match call
    case Register(r) => SameIsLater(w.state.jobs[k]);
    case SetPolicy(p) => SetPolicyLater(w, p, k);
    case Rebase(epoch, walk) => RebaseAt(w.state.jobs, walk, epoch, k);
    case OnJob(op) => OnJobLater(w, op, k);
    case Restart => DurableIsLater(w.state.jobs[k]);
  }

  /** Over any run, restarts included, every job only moves forward. */
  lemma {:induction false} RunIsLater(w: World, calls: seq<Call>, k: nat)
    requires WorldOk(w) && Legal(w, calls) && k in w.state.jobs
    ensures k in RunFrom(w, calls).state.jobs
    ensures Later(w.state.jobs[k], RunFrom(w, calls).state.jobs[k])
    decreases |calls|
  {
    hide WorldOk, After, Later, Permitted;
    if calls == [] {
      NewestIsLater(w, k);
    } else {
      AfterKeeps(w, calls[0]);
      CallIsLater(w, calls[0], k);
      RunIsLater(After(w, calls[0]), calls[1..], k);
      LaterOnward(w.state.jobs[k], After(w, calls[0]).state.jobs[k], RunFrom(w, calls).state.jobs[k]);
    }
  }

  lemma NewestIsLater(w: World, k: nat)
    requires WorldOk(w) && k in w.state.jobs
    ensures Later(w.state.jobs[k], w.state.jobs[k])
  {
    NewestStep(w, k);
    hide WorldOk;
  }

  // ---------------------------------------------------------------------------
  // Superseded tokens
  // ---------------------------------------------------------------------------

  /** The token's incarnation was replaced, its epoch rebased past, or its evidence republished. */
  predicate Superseded(job: Job, t: Token) {
    t.incarnation < job.incarnation || t.epoch < job.epoch || t.topologyGeneration < job.topology.generation
  }

  lemma SupersededIsRefused(policy: Policy, job: Job, t: Token, need: Need)
    requires Superseded(job, t)
    ensures !Accepts(policy, job, t, need)
  {
    AcceptsIff(policy, job, t, need);
  }

  /** Once superseded, a token is refused by every operation after every continuation. */
  lemma SupersededForever(w: World, calls: seq<Call>, k: nat, t: Token, need: Need)
    requires WorldOk(w) && Legal(w, calls) && k in w.state.jobs && Superseded(w.state.jobs[k], t)
    ensures k in RunFrom(w, calls).state.jobs
    ensures var v := RunFrom(w, calls).state; !Accepts(v.policy, v.jobs[k], t, need)
  {
    hide WorldOk, After, Accepts;
    RunIsLater(w, calls, k);
    var v := RunFrom(w, calls).state;
    SupersededIsRefused(v.policy, v.jobs[k], t, need);
  }

  // ---------------------------------------------------------------------------
  // Closed steps
  // ---------------------------------------------------------------------------

  /** The step was opened or passed over, and is not open now. */
  predicate StepIsOver(job: Job, n: nat) {
    n <= job.highestStep && !(job.step.Some? && job.step.value.id == n)
  }

  lemma OverStaysOver(a: Job, b: Job, n: nat)
    requires Later(a, b) && StepIsOver(a, n)
    ensures StepIsOver(b, n)
  {}

  lemma OverIsRefused(env: Env, job: Job, t: Token, n: nat, need: Need, deadlineAt: nat, slack: nat)
    requires StepIsOver(job, n)
    ensures t.step == n && need != NeedJob ==> !Accepts(env.policy, job, t, need)
    ensures var e := DoBeginStep(env, job, t, n, deadlineAt, slack); e.reply.Refused? && e.job == job
  {
    AcceptsIff(env.policy, job, t, need);
  }

  /** Once a step is over, no step-scoped operation accepts its tokens and its id cannot be opened
      again, by this incarnation or a replacement, after any continuation. */
  lemma OverForever(w: World, calls: seq<Call>, k: nat, n: nat, t: Token, need: Need, deadlineAt: nat, slack: nat)
    requires WorldOk(w) && Legal(w, calls) && k in w.state.jobs && StepIsOver(w.state.jobs[k], n)
    ensures k in RunFrom(w, calls).state.jobs
    ensures var v := RunFrom(w, calls).state;
      && (t.step == n && need != NeedJob ==> !Accepts(v.policy, v.jobs[k], t, need))
      && var e := DoBeginStep(EnvOf(v), v.jobs[k], t, n, deadlineAt, slack); e.reply.Refused? && e.job == v.jobs[k]
  {
    hide WorldOk, After, Accepts, DoBeginStep, Later, StepIsOver;
    RunIsLater(w, calls, k);
    var v := RunFrom(w, calls).state;
    OverStaysOver(w.state.jobs[k], v.jobs[k], n);
    OverIsRefused(EnvOf(v), v.jobs[k], t, n, need, deadlineAt, slack);
  }

  // ---------------------------------------------------------------------------
  // What a replacement and a retirement achieve
  // ---------------------------------------------------------------------------

  /** A replacement supersedes every token of the incarnation it replaces and ends its step. */
  lemma ReplacementSupersedes(env: Env, job: Job, op: JobOp, t: Token, past: Past)
    requires JobOk(env.config, env.policy, job, past) && op.Replace?
    requires DoReplace(env, job, op).reply.Number? && t.incarnation <= job.incarnation
    ensures var r := DoReplace(env, job, op).job;
      && r.incarnation == job.ids.incarnation > job.incarnation && r.boot == op.boot != job.boot
      && r.step.None? && LiveFlows(r) == map[] && r.highestStep == job.highestStep
      && Superseded(r, t)
      && (job.step.Some? ==> StepIsOver(r, job.step.value.id))
  {
    hide JobOk, FenceIfOpen;
    StepIsNewest(env, job, past);
    FenceIfOpenKeeps(env, env.policy, job, INCARNATION_RETIRED, past);
  }

  /** A retired incarnation is refused at once, and after a restart exactly when the retired list
      has room for it. */
  lemma RetirementSurvives(env: Env, job: Job, t: Token, need: Need, past: Past)
    requires JobOk(env.config, env.policy, job, past)
    requires DoRetireIncarnation(env, job, t).reply.Done?
    ensures var r := DoRetireIncarnation(env, job, t).job;
      && !Accepts(env.policy, r, t, need)
      && (Accepts(env.policy, DurableJob(r), t, NeedJob) <==> env.config.maxRetired == 0)
  {
    hide JobOk, FenceIfOpen, RecordRefusal;
    FenceIfOpenKeeps(env, env.policy, job, INCARNATION_RETIRED, past);
    var r := DoRetireIncarnation(env, job, t).job;
    AcceptsIff(env.policy, job, t, NeedJob);
    AcceptsIff(env.policy, r, t, need);
    AcceptsIff(env.policy, DurableJob(r), t, NeedJob);
    if env.config.maxRetired == 0 {
      assert r.retiredList == [];
    } else {
      assert r.retiredList[|r.retiredList| - 1].incarnation == job.incarnation;
    }
  }
}
