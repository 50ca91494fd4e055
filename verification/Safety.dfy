/** Capacity and isolation over whole runs, and the exact conditions where the program gives them up. */
module Safety {
  import opened Results
  import opened Model
  import opened Policies
  import opened Authorities
  import opened Operations
  import opened Invariants
  import opened Steps
  import opened Requests
  import opened Jobs
  import opened Durable
  import opened Runs
  import opened Laws

  // ---------------------------------------------------------------------------
  // Capacity
  // ---------------------------------------------------------------------------

  /** Every job whose counters are exact is within capacity. */
  ghost predicate WithinCapacity(w: World) {
    forall k :: k in w.state.jobs && k in w.pasts && !w.pasts[k].torn ==>
      CapacityOk(w.state.jobs[k].topology.links, w.state.jobs[k].load)
  }

  /** Evidence is republished only while the policy invalidates strictly. */
  ghost predicate StrictPublication(s: State, call: Call) {
    call.OnJob? && call.op.Publish? ==> s.policy.strict
  }

  lemma InvalidationFits(env: Env, policy: Policy, job: Job, past: Past)
    requires JobOk(env.config, policy, job, past) && CapacityOk(job.topology.links, job.load)
    ensures var r := Invalidate(env, job, POLICY_INVALIDATED); CapacityOk(r.topology.links, r.load)
  {
    hide JobOk, Invalidate;
    InvalidateKeeps(env, policy, job, POLICY_INVALIDATED, past);
    if job.step.None? {
      NothingToInvalidate(env, job);
    }
  }

  lemma NoLoadFits(job: Job)
    ensures CapacityOk(DurableJob(job).topology.links, DurableJob(job).load)
  {}

  lemma FitsElsewhere(a: Job, b: Job)
    requires b.topology == a.topology && b.load == a.load && CapacityOk(a.topology.links, a.load)
    ensures CapacityOk(b.topology.links, b.load)
  {}

  lemma CallKeepsCapacityOf(w: World, call: Call, k: nat)
    requires WorldOk(w) && Permitted(w.state, call) && StrictPublication(w.state, call)
    requires k in After(w, call).state.jobs
    requires k in w.state.jobs && k in w.pasts && !w.pasts[k].torn ==>
               CapacityOk(w.state.jobs[k].topology.links, w.state.jobs[k].load)
    ensures !PastFor(w, After(w, call).state, call, k).torn ==>
              var r := After(w, call).state.jobs[k]; CapacityOk(r.topology.links, r.load)
  {
    hide JobOk, ValidPolicy, Perform, RebaseEach, DurableJob, PolicyError, ContractError, Invalidate, CapacityOk, EnvOk,
         Stranger, Tears;
    var s := w.state;
    if k in s.jobs && !call.Restart? && w.pasts[k].torn {
      StaysTorn(w, call, k);
    } else if k in s.jobs {
      assert Entry(s, k, w.pasts[k]);
      match call
      case Register(r) =>
      case SetPolicy(p) =>
        InvalidationFits(Env(s.config, p, s.now + 1), s.policy, s.jobs[k], w.pasts[k]);
      case Rebase(epoch, walk) =>
        RebaseAt(s.jobs, walk, epoch, k);
        FitsElsewhere(s.jobs[k], After(w, call).state.jobs[k]);
      case OnJob(op) =>
        if TargetOf(op) == k {
          EnvIsOk(w);
          WorldIsKeyed(w, k);
          PerformKeepsCapacity(EnvOf(Tick(s)), s.jobs[k], op, w.pasts[k]);
        }
      case Restart => NoLoadFits(s.jobs[k]);
    } else {
      NewJobFits(w, call, k);
    }
  }

  lemma StaysTorn(w: World, call: Call, k: nat)
    requires k in w.state.jobs && k in w.pasts && k in After(w, call).state.jobs && !call.Restart? && w.pasts[k].torn
    ensures PastFor(w, After(w, call).state, call, k).torn
  {
    hide Apply, Tears;
  }

  lemma NewJobFits(w: World, call: Call, k: nat)
    requires WorldOk(w) && Permitted(w.state, call) && k in After(w, call).state.jobs && k !in w.state.jobs
    ensures var r := After(w, call).state.jobs[k]; CapacityOk(r.topology.links, r.load)
  {
    hide JobOk, ValidPolicy, Perform, RebaseEach, DurableJob, PolicyError, ContractError, Invalidate, EnvOk;
    if call.Rebase? {
      RebaseKeys(w.state.jobs, call.walk, call.epoch);
    }
  }

  lemma CallKeepsCapacity(w: World, call: Call)
    requires WorldOk(w) && Permitted(w.state, call) && StrictPublication(w.state, call) && WithinCapacity(w)
    ensures WithinCapacity(After(w, call))
  {
    hide WorldOk, Apply, CapacityOk, StrictPublication, PastFor;
    var v := After(w, call);
    forall k | k in v.state.jobs && k in v.pasts && !v.pasts[k].torn
      ensures CapacityOk(v.state.jobs[k].topology.links, v.state.jobs[k].load)
    {
      CallKeepsCapacityOf(w, call, k);
    }
  }

  ghost predicate StrictlyPublished(w: World, calls: seq<Call>)
    decreases |calls|
  {
    calls == [] || (StrictPublication(w.state, calls[0]) && StrictlyPublished(After(w, calls[0]), calls[1..]))
  }

  /** Over every run, admission, preemption, throttling, completion, policy changes and restarts
      included, no group is charged more than its capacity less its reserve, while no group is registered that a
      live flow names. */
  lemma {:induction false} RunKeepsCapacity(w: World, calls: seq<Call>)
    requires WorldOk(w) && Legal(w, calls) && StrictlyPublished(w, calls) && WithinCapacity(w)
    ensures WithinCapacity(RunFrom(w, calls))
    decreases |calls|
  {
    hide WorldOk, After, WithinCapacity, StrictPublication, Permitted;
    if calls != [] {
      AfterKeeps(w, calls[0]);
      CallKeepsCapacity(w, calls[0]);
      RunKeepsCapacity(After(w, calls[0]), calls[1..]);
    }
  }

  /** No call registers a group that a live flow of its job names. */
  ghost predicate Undisturbed(w: World, calls: seq<Call>)
    decreases |calls|
  {
    calls == [] || (!Disturbs(w.state, calls[0]) && Undisturbed(After(w, calls[0]), calls[1..]))
  }

  ghost predicate Disturbs(s: State, call: Call) {
    && call.OnJob? && TargetOf(call.op) in s.jobs && TargetOf(call.op) in Apply(s, call).state.jobs
    && Tears(s.jobs[TargetOf(call.op)], Apply(s, call).state.jobs[TargetOf(call.op)], call.op)
  }

  ghost predicate AllExact(w: World) {
    forall k :: k in w.pasts ==> !w.pasts[k].torn
  }

  /** Only such a registration tears the counters, and a restart mends them. */
  lemma {:induction false} UndisturbedIsUntorn(w: World, calls: seq<Call>)
    requires AllExact(w) && Undisturbed(w, calls)
    ensures AllExact(RunFrom(w, calls))
    decreases |calls|
  {
    hide Apply, Tears;
    if calls != [] {
      UndisturbedIsUntorn(After(w, calls[0]), calls[1..]);
    }
  }

  // ---------------------------------------------------------------------------
  // Isolation
  // ---------------------------------------------------------------------------

  ghost predicate Isolated(s: State) {
    forall k :: k in s.jobs && s.jobs[k].step.Some? ==> IsolationOk(s.policy.classes, s.jobs[k].step.value)
  }

  /** The policy is replaced only by one that invalidates strictly. */
  ghost predicate StrictPolicies(call: Call) {
    call.SetPolicy? ==> call.policy.strict
  }

  lemma StrictInvalidationEmpties(env: Env, policy: Policy, job: Job, past: Past)
    requires JobOk(env.config, policy, job, past) && env.policy.strict
    ensures var r := Invalidate(env, job, POLICY_INVALIDATED); r.step.Some? ==> r.step.value.flows == map[]
  {
    hide JobOk, Invalidate;
    InvalidateKeeps(env, policy, job, POLICY_INVALIDATED, past);
    if job.step.None? {
      NothingToInvalidate(env, job);
    }
  }

  lemma EmptyIsIsolated(classes: seq<ClassSpec>, step: Step)
    requires step.flows == map[]
    ensures IsolationOk(classes, step)
  {}

  lemma PolicyKeepsIsolationOf(w: World, p: Policy, k: nat)
    requires WorldOk(w) && Permitted(w.state, SetPolicy(p)) && p.strict && k in w.state.jobs
    requires w.state.jobs[k].step.Some? ==> IsolationOk(w.state.policy.classes, w.state.jobs[k].step.value)
    ensures k in DoSetPolicy(Tick(w.state), p).state.jobs
    ensures var t := DoSetPolicy(Tick(w.state), p).state;
      t.jobs[k].step.Some? ==> IsolationOk(t.policy.classes, t.jobs[k].step.value)
  {
    hide JobOk, ValidPolicy, PolicyError, Invalidate, IsolationOk;
    var s := Tick(w.state);
    assert Entry(w.state, k, w.pasts[k]);
    if PolicyError(p) == OK && p.generation > s.policy.generation {
      var t := DoSetPolicy(s, p).state;
      StrictInvalidationEmpties(Env(s.config, p, s.now), s.policy, s.jobs[k], w.pasts[k]);
      if t.jobs[k].step.Some? {
        EmptyIsIsolated(p.classes, t.jobs[k].step.value);
      }
    }
  }

  lemma CallKeepsIsolationOf(w: World, call: Call, k: nat)
    requires WorldOk(w) && Permitted(w.state, call) && StrictPolicies(call)
    requires k in After(w, call).state.jobs && After(w, call).state.jobs[k].step.Some?
    requires k in w.state.jobs && w.state.jobs[k].step.Some? ==>
               IsolationOk(w.state.policy.classes, w.state.jobs[k].step.value)
    ensures IsolationOk(After(w, call).state.policy.classes, After(w, call).state.jobs[k].step.value)
  {
    hide JobOk, ValidPolicy, Perform, RebaseEach, ContractError, DoSetPolicy, IsolationOk, EnvOk, Stranger,
         DurableStep;
    var s := w.state;
    if k in s.jobs {
      assert Entry(s, k, w.pasts[k]);
      match call
      case Register(r) =>
      case SetPolicy(p) => PolicyKeepsIsolationOf(w, p, k);
      case Rebase(epoch, walk) => RebaseAt(s.jobs, walk, epoch, k);
      case OnJob(op) =>
        if TargetOf(op) == k {
          EnvIsOk(w);
          WorldIsKeyed(w, k);
          PerformKeepsIsolation(EnvOf(Tick(s)), s.jobs[k], op, w.pasts[k]);
        }
      case Restart =>
        DurableLeaves(s.jobs[k].step.value);
        EmptyIsIsolated(s.policy.classes, DurableStep(s.jobs[k].step.value));
    } else {
      NewJobIsIdle(w, call, k);
    }
  }

  lemma NewJobIsIdle(w: World, call: Call, k: nat)
    requires WorldOk(w) && Permitted(w.state, call) && k in After(w, call).state.jobs && k !in w.state.jobs
    ensures After(w, call).state.jobs[k].step.None?
  {
    hide JobOk, ValidPolicy, Perform, RebaseEach, DurableJob, PolicyError, ContractError, Invalidate, EnvOk;
    if call.Rebase? {
      RebaseKeys(w.state.jobs, call.walk, call.epoch);
    }
  }

  lemma CallKeepsIsolation(w: World, call: Call)
    requires WorldOk(w) && Permitted(w.state, call) && StrictPolicies(call) && Isolated(w.state)
    ensures Isolated(After(w, call).state)
  {
    hide WorldOk, After, IsolationOk, StrictPolicies;
    forall k | k in After(w, call).state.jobs && After(w, call).state.jobs[k].step.Some?
      ensures IsolationOk(After(w, call).state.policy.classes, After(w, call).state.jobs[k].step.value)
    {
      CallKeepsIsolationOf(w, call, k);
    }
  }

  /** Over every run whose policies are strict, a burst's group carries only tolerated flows. */
  lemma {:induction false} RunKeepsIsolation(w: World, calls: seq<Call>)
    requires WorldOk(w) && Legal(w, calls) && Isolated(w.state)
    requires forall i :: 0 <= i < |calls| ==> StrictPolicies(calls[i])
    ensures Isolated(RunFrom(w, calls).state)
    decreases |calls|
  {
    hide WorldOk, After, Isolated, StrictPolicies, Permitted;
    if calls != [] {
      AfterKeeps(w, calls[0]);
      CallKeepsIsolation(w, calls[0]);
      RunKeepsIsolation(After(w, calls[0]), calls[1..]);
    }
  }

  // ---------------------------------------------------------------------------
  // Exact conditions
  // ---------------------------------------------------------------------------

  /** Every flow the new policy leaves on a burst's group is one it tolerates there. */
  ghost predicate StaysTolerated(p: Policy, job: Job) {
    job.step.Some? ==>
      forall f :: f in Survivors(p, job) && Operations.Isolated(job.step.value, Survivors(p, job)[f].group) ==>
        Tolerated(p.classes, Survivors(p, job)[f])
  }

  /** After any run a policy, strict or not, keeps a job isolated exactly when it tolerates what survives it. */
  lemma PolicyIsolationIff(w: World, calls: seq<Call>, k: nat, job: Job, p: Policy)
    requires Reaches(w, calls, k, job)
    requires PolicyError(p) == OK && p.generation > RunFrom(w, calls).state.policy.generation
    ensures var t := Apply(RunFrom(w, calls).state, SetPolicy(p)).state;
      && t.policy == p && k in t.jobs
      && ((t.jobs[k].step.Some? ==> IsolationOk(p.classes, t.jobs[k].step.value)) <==> StaysTolerated(p, job))
  {
    hide WorldOk, Legal, RunFrom, JobOk, PolicyError, Invalidate, IsolationOk, StaysTolerated;
    EveryJobIsOk(w, calls, k);
    var v := RunFrom(w, calls);
    var env := Env(v.state.config, p, v.state.now + 1);
    InvalidationIsolationIff(env, v.state.policy, job, v.pasts[k]);
  }

  lemma InvalidationIsolationIff(env: Env, policy: Policy, job: Job, past: Past)
    requires JobOk(env.config, policy, job, past)
    ensures var r := Invalidate(env, job, POLICY_INVALIDATED);
      (r.step.Some? ==> IsolationOk(env.policy.classes, r.step.value)) <==> StaysTolerated(env.policy, job)
  {
    hide JobOk, Invalidate, Invalidates, Tolerated;
    InvalidateKeeps(env, policy, job, POLICY_INVALIDATED, past);
    if job.step.None? {
      NothingToInvalidate(env, job);
    } else {
      assert Invalidate(env, job, POLICY_INVALIDATED).step.value.flows == Survivors(env.policy, job);
    }
  }

  /** Publishing these links is accepted and leaves a group charged beyond its capacity. */
  ghost predicate Overfills(env: Env, job: Job, t: Token, evidence: Label, links: seq<Link>) {
    var e := DoPublish(env, job, t, evidence, links);
    e.reply.Number? && !CapacityOk(e.job.topology.links, e.job.load)
  }

  /** After any run some evidence that a holder of authority may publish leaves a group over capacity
      exactly when a flow with a rate survives the publication. Under a strict policy none does. */
  lemma OverfillIff(w: World, calls: seq<Call>, k: nat, job: Job, t: Token, evidence: Label)
    requires Reaches(w, calls, k, job) && Untorn(w, calls, k) && Accepts(RunFrom(w, calls).state.policy, job, t, NeedJob)
    ensures var env := EnvOf(Tick(RunFrom(w, calls).state));
      (exists links :: Overfills(env, job, t, evidence, links)) <==>
        exists f :: f in Survivors(env.policy, job) && Survivors(env.policy, job)[f].minBps > 0
  {
    hide WorldOk, Legal, RunFrom, JobOk, Republish, Survivors, CapacityOk, FirstLinkError, JobVerdict;
    EveryJobIsOk(w, calls, k);
    var v := RunFrom(w, calls);
    var env := EnvOf(Tick(v.state));
    EvidenceIsOlder(env, job, v.pasts[k]);
    if f :| f in Survivors(env.policy, job) && Survivors(env.policy, job)[f].minBps > 0 {
      DrainedOverfills(env, job, evidence, v.pasts[k], f);
      RepublishedLinks(env, job, evidence, Drained(Survivors(env.policy, job)[f]));
      assert Overfills(env, job, t, evidence, Drained(Survivors(env.policy, job)[f]));
    } else {
      forall links ensures !Overfills(env, job, t, evidence, links) {
        NothingOverfills(env, job, evidence, links, v.pasts[k]);
        RepublishedLinks(env, job, evidence, links);
      }
    }
  }

  /** After any run, registering a new group leaves the counters right exactly when no live flow names it. */
  lemma RegistrationAgreesIff(w: World, calls: seq<Call>, k: nat, job: Job, t: Token, g: Group)
    requires Reaches(w, calls, k, job) && Untorn(w, calls, k)
    requires DoRegisterGroup(EnvOf(Tick(RunFrom(w, calls).state)), job, t, g).reply.Done?
    ensures var r := DoRegisterGroup(EnvOf(Tick(RunFrom(w, calls).state)), job, t, g).job;
      LoadOk(true, r.load, LiveFlows(r)) <==> !Named(LiveFlows(job), g.id)
  {
    hide WorldOk, Legal, RunFrom, JobOk, LoadOk, GroupError, JobVerdict;
    EveryJobIsOk(w, calls, k);
    var v := RunFrom(w, calls);
    LoadOf(v.state.config, v.state.policy, job, v.pasts[k]);
    RegisteringZeroes(job.load, LiveFlows(job), g.id);
  }

  lemma LoadOf(config: Config, policy: Policy, job: Job, past: Past)
    requires JobOk(config, policy, job, past) && !past.torn
    ensures LoadOk(true, job.load, LiveFlows(job))
  {}

  // ---------------------------------------------------------------------------
  // Registered evidence
  // ---------------------------------------------------------------------------

  ghost predicate AllRegistered(s: State) {
    forall k :: k in s.jobs ==> EvidenceRegistered(s.jobs[k])
  }

  /** What is published names only registered groups. */
  ghost predicate Publishable(s: State, call: Call) {
    call.OnJob? && call.op.Publish? && TargetOf(call.op) in s.jobs ==>
      forall l :: l in call.op.links ==> l.group in s.jobs[TargetOf(call.op)].groups
  }

  ghost predicate WellPublished(w: World, calls: seq<Call>)
    decreases |calls|
  {
    calls == [] || (Publishable(w.state, calls[0]) && WellPublished(After(w, calls[0]), calls[1..]))
  }

  lemma CallKeepsEvidence(w: World, call: Call, k: nat)
    requires WorldOk(w) && Permitted(w.state, call) && Publishable(w.state, call) && AllRegistered(w.state)
    requires k in After(w, call).state.jobs
    ensures EvidenceRegistered(After(w, call).state.jobs[k])
  {
    hide JobOk, ValidPolicy, Perform, RebaseEach, DurableStep, PolicyError, ContractError, Invalidate, EnvOk, Stranger;
    var s := w.state;
    if k in s.jobs {
      assert Entry(s, k, w.pasts[k]);
      match call
      case Register(r) =>
      case SetPolicy(p) =>
        InvalidateKeeps(Env(s.config, p, s.now + 1), s.policy, s.jobs[k], POLICY_INVALIDATED, w.pasts[k]);
        InvalidateFrame(Env(s.config, p, s.now + 1), s.jobs[k], POLICY_INVALIDATED, w.pasts[k]);
      case Rebase(epoch, walk) => RebaseAt(s.jobs, walk, epoch, k);
      case OnJob(op) =>
        if TargetOf(op) == k {
          EnvIsOk(w);
          WorldIsKeyed(w, k);
          PerformKeepsEvidence(EnvOf(Tick(s)), s.jobs[k], op, w.pasts[k]);
        }
      case Restart =>
    } else {
      NewJobHasNoEvidence(w, call, k);
    }
  }

  lemma NewJobHasNoEvidence(w: World, call: Call, k: nat)
    requires WorldOk(w) && Permitted(w.state, call) && k in After(w, call).state.jobs && k !in w.state.jobs
    ensures After(w, call).state.jobs[k].topology.links == []
  {
    hide JobOk, ValidPolicy, Perform, RebaseEach, DurableJob, PolicyError, ContractError, Invalidate, EnvOk;
    if call.Rebase? {
      RebaseKeys(w.state.jobs, call.walk, call.epoch);
    }
  }

  /** Over every run that publishes evidence only for registered groups, evidence names only those, which
      is what its snapshots need. */
  lemma {:induction false} RunKeepsEvidence(w: World, calls: seq<Call>)
    requires WorldOk(w) && Legal(w, calls) && WellPublished(w, calls) && AllRegistered(w.state)
    ensures AllRegistered(RunFrom(w, calls).state)
    decreases |calls|
  {
    hide WorldOk, After, EvidenceRegistered, Publishable, Permitted;
    if calls != [] {
      AfterKeeps(w, calls[0]);
      forall k | k in After(w, calls[0]).state.jobs ensures EvidenceRegistered(After(w, calls[0]).state.jobs[k]) {
        CallKeepsEvidence(w, calls[0], k);
      }
      RunKeepsEvidence(After(w, calls[0]), calls[1..]);
    }
  }
}
