/** Live flows over time: a flow keeps its identity, class and group while it lives, its rates never
    rise, and once closed it never lives again. */
module Descent {
  import opened Bytes
  import opened Results
  import opened Model
  import opened Policies
  import opened Order
  import opened Arbitration
  import opened Traffic
  import opened Authorities
  import opened Operations
  import opened Invariants
  import opened Preservation
  import opened Steps
  import opened Requests
  import opened Bursts
  import opened Jobs
  import opened Durable
  import opened Runs
  import opened Fencing

  /** Every live flow of `b` was live in `a`, at no lower rates, or carries an id `a` had not issued. */
  ghost predicate Descends(a: Job, b: Job) {
    forall k :: k in LiveFlows(b) ==>
      k >= a.ids.intent || (k in LiveFlows(a) && SameFlow(LiveFlows(a)[k], LiveFlows(b)[k]))
  }

  lemma ShrinksDescends(a: Job, b: Job)
    requires Shrinks(a, b)
    ensures Descends(a, b)
  {}

  lemma SameDescends(a: Job, b: Job)
    requires LiveFlows(b) == LiveFlows(a) || LiveFlows(b) == map[]
    ensures Descends(a, b)
  {}

  lemma DescendsOnward(a: Job, b: Job, c: Job)
    requires Descends(a, b) && Descends(b, c) && a.ids.intent <= b.ids.intent
    ensures Descends(a, c)
  {}

  lemma InvalidateDescends(env: Env, policy: Policy, job: Job, cause: ErrorCode, past: Past)
    requires JobOk(env.config, policy, job, past)
    ensures Descends(job, Invalidate(env, job, cause))
  {
    hide JobOk, Invalidate, Invalidates;
    InvalidateKeeps(env, policy, job, cause, past);
    if job.step.None? {
      Idle(env, job, cause);
    }
  }

  lemma Idle(env: Env, job: Job, cause: ErrorCode)
    requires job.step.None?
    ensures Invalidate(env, job, cause) == job
  {}

  lemma PublishDescends(env: Env, job: Job, t: Token, evidence: Label, links: seq<Link>, past: Past)
    requires JobOk(env.config, env.policy, job, past)
    ensures Descends(job, DoPublish(env, job, t, evidence, links).job)
  {
    hide JobOk, Invalidate, JobVerdict, FirstLinkError;
    InvalidateDescends(env, env.policy, job, STALE_TOPOLOGY_GENERATION, past);
  }

  lemma DecideDescends(env: Env, job: Job, i: Intent, past: Past)
    requires Open(env.config, env.policy, job, past) && Bound(job, i) && EnvOk(env) && Keyed(job.step.value.flows)
    ensures Descends(job, Decide(env, job, i).job)
  {
    hide Judge, CancelEach, EnvOk, Keyed, Push, CountStep, CountPhase, JobOk, Acquire;
    if Judge(env, job, i).Allowed? {
      RoomFits(env, job, i, past);
    }
  }

  lemma RequestDescends(env: Env, job: Job, i: Intent, past: Past)
    requires JobOk(env.config, env.policy, job, past) && EnvOk(env)
    requires job.step.Some? ==> Keyed(job.step.value.flows)
    ensures Descends(job, DoRequest(env, job, i).job)
  {
    hide JobOk, JobVerdict, Decide, EnvOk, Keyed, IntentError, Descends, ConcludeUnbound;
    var v := Resolve(env.policy, job, i.token, NeedPhase);
    SameDescends(job, job);
    RefusedIsLight(env, job, i, v, past);
    ShrinksDescends(job, ConcludeUnbound(env, job, i, v).job);
    if v.error == OK && IntentError(i) == OK {
      BoundBy(env.policy, job, i);
      DecideDescends(env, job, i, past);
    }
  }

  lemma OpenBurstDescends(env: Env, job: Job, group: nat, expected: nat, deadlineAt: nat, reason: bytes, past: Past)
    requires Open(env.config, env.policy, job, past)
    ensures Descends(job, OpenBurst(env, job, group, expected, deadlineAt, reason))
  {
    hide JobOk, IsolateEach, Tolerated;
    var flows := job.step.value.flows;
    IsolateEachKeeps(env, Isolation(job, 0, 0), SortedIds(InGroup(flows, group)), job.ids.burst,
                     past);
  }

  lemma BeginBurstDescends(env: Env, job: Job, t: Token, group: nat, expected: nat, deadlineAt: nat, reason: bytes,
                           past: Past)
    requires JobOk(env.config, env.policy, job, past)
    ensures Descends(job, DoBeginBurst(env, job, t, group, expected, deadlineAt, reason).job)
  {
    hide JobOk, JobVerdict, RecordRefusal, OpenBurst;
    var v := Resolve(env.policy, job, t, NeedStep);
    RefuseKept(env, job, FenceOf(env, job, t, v.error), v.onStep, past);
    if v.error == OK {
      OpenBurstDescends(env, job, group, expected, deadlineAt, reason, past);
    }
  }

  lemma BeginStepDescends(env: Env, job: Job, t: Token, id: nat, deadlineAt: nat, slack: nat, past: Past)
    requires JobOk(env.config, env.policy, job, past)
    ensures Descends(job, DoBeginStep(env, job, t, id, deadlineAt, slack).job)
  {
    hide JobOk, Shrinks, Descends, DoBeginStep;
    BeginStepKept(env, job, t, id, deadlineAt, slack, past);
    var r := DoBeginStep(env, job, t, id, deadlineAt, slack).job;
    if Shrinks(job, r) {
      ShrinksDescends(job, r);
    } else {
      SameDescends(job, r);
    }
  }

  /** Through any operation a live flow keeps its class, group and phase and gains no rate, and every
      other live flow has a fresh id. */
  lemma PerformDescends(env: Env, job: Job, op: JobOp, past: Past)
    requires JobOk(env.config, env.policy, job, past) && EnvOk(env)
    requires job.step.Some? ==> Keyed(job.step.value.flows)
    ensures Descends(job, Perform(env, job, op).job)
  {
    hide JobOk, EnvOk, Keyed, Descends, Shrinks;
    hide DoRegisterGroup, DoPublish, DoRetireJob, DoBeginStep, DoBeginPhase, DoEndPhase, DoEndStep, DoRequest,
         DoComplete, DoRevalidate, DoBeginBurst, DoEndBurst, DoReplace, DoRetireIncarnation, DoPacing;
    match op
    case Publish(t, evidence, links) => PublishDescends(env, job, t, evidence, links, past);
    case BeginStep(t, step, deadlineAt, slack) => BeginStepDescends(env, job, t, step, deadlineAt, slack, past);
    case Request(i) => RequestDescends(env, job, i, past);
    case BeginBurst(t, group, expected, deadlineAt, reason) =>
      BeginBurstDescends(env, job, t, group, expected, deadlineAt, reason, past);
    case _ =>
      OthersShrink(env, job, op, past);
      ShrinksDescends(job, Perform(env, job, op).job);
  }

  lemma DurableDescends(job: Job)
    ensures Descends(job, DurableJob(job))
  {
    if job.step.Some? {
      DurableLeaves(job.step.value);
    }
  }

  lemma PolicyDescends(w: World, p: Policy, k: nat)
    requires WorldOk(w) && Permitted(w.state, SetPolicy(p)) && k in w.state.jobs
    ensures k in DoSetPolicy(Tick(w.state), p).state.jobs
    ensures Descends(w.state.jobs[k], DoSetPolicy(Tick(w.state), p).state.jobs[k])
  {
    hide JobOk, Invalidate, PolicyError, ValidPolicy, Descends;
    var s := Tick(w.state);
    assert Entry(w.state, k, w.pasts[k]);
    InvalidateDescends(Env(s.config, p, s.now), s.policy, w.state.jobs[k], POLICY_INVALIDATED, w.pasts[k]);
    SameDescends(w.state.jobs[k], w.state.jobs[k]);
  }

  lemma CallDescends(w: World, call: Call, k: nat)
    requires WorldOk(w) && Permitted(w.state, call) && k in w.state.jobs
    ensures k in After(w, call).state.jobs
    ensures Descends(w.state.jobs[k], After(w, call).state.jobs[k])
  {
    hide JobOk, ValidPolicy, Perform, RebaseEach, DoSetPolicy, ContractError, EnvOk, Stranger, DurableJob,
         Descends;
    var s := w.state;
    assert Entry(s, k, w.pasts[k]);
    SameDescends(s.jobs[k], s.jobs[k]);
    match call
    case Register(r) =>
    case SetPolicy(p) => PolicyDescends(w, p, k);
    case Rebase(epoch, walk) =>
      RebaseAt(s.jobs, walk, epoch, k);
      SameDescends(s.jobs[k], After(w, call).state.jobs[k]);
    case OnJob(op) =>
      if TargetOf(op) == k {
        EnvIsOk(w);
        WorldIsKeyed(w, k);
        PerformDescends(EnvOf(Tick(s)), s.jobs[k], op, w.pasts[k]);
      }
    case Restart => DurableDescends(s.jobs[k]);
  }

  /** Over any run a flow that is live before and after is the same flow at no higher rate, and a
      closed or refused intent never becomes live. */
  lemma {:induction false} RunDescends(w: World, calls: seq<Call>, k: nat)
    requires WorldOk(w) && Legal(w, calls) && k in w.state.jobs
    ensures k in RunFrom(w, calls).state.jobs
    ensures Descends(w.state.jobs[k], RunFrom(w, calls).state.jobs[k])
    decreases |calls|
  {
    hide WorldOk, After, Descends, Permitted, Later;
    if calls == [] {
      SameDescends(w.state.jobs[k], w.state.jobs[k]);
    } else {
      AfterKeeps(w, calls[0]);
      CallIsLater(w, calls[0], k);
      CallDescends(w, calls[0], k);
      RunDescends(After(w, calls[0]), calls[1..], k);
      IntentsIssued(w.state.jobs[k], After(w, calls[0]).state.jobs[k]);
      DescendsOnward(w.state.jobs[k], After(w, calls[0]).state.jobs[k], RunFrom(w, calls).state.jobs[k]);
    }
  }

  lemma IntentsIssued(a: Job, b: Job)
    requires Later(a, b)
    ensures a.ids.intent <= b.ids.intent
  {}
}
