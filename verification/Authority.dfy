/** Who may act on a job: every token is compared with the job's current generations. */
module Authorities {
  import opened Results
  import opened Model
  import opened Traffic

  /** What an operation needs beyond the job itself. */
  datatype Need = NeedJob | NeedStep | NeedPhase

  /** The first failing check, and whether the open step had been reached when it failed. */
  datatype Verdict = Verdict(error: ErrorCode, onStep: bool)

  function JobVerdict(policy: Policy, job: Job, t: Token): ErrorCode {
    if job.retired then JOB_RETIRED
    else if t.jobGeneration != job.generation then STALE_JOB_GENERATION
    else if job.epoch != 0 && t.epoch != job.epoch then STALE_EPOCH
    else if t.incarnation != job.incarnation then
      if t.incarnation in job.retiredSet then INCARNATION_RETIRED else STALE_INCARNATION
    else if t.incarnation in job.retiredSet then INCARNATION_RETIRED
    else if t.boot != job.boot then STALE_BOOT_IDENTITY
    else if t.contractGeneration != job.contract.generation then STALE_CONTRACT_GENERATION
    else if job.topology.generation != 0 && t.topologyGeneration != job.topology.generation then
      STALE_TOPOLOGY_GENERATION
    else if t.policyGeneration != 0 && t.policyGeneration > policy.generation then STALE_POLICY_GENERATION
    else OK
  }

  function StepVerdict(step: Step, t: Token): ErrorCode {
    if t.step == 0 || t.step != step.id then STALE_STEP
    else if t.incarnation != step.incarnation then STALE_INCARNATION
    else OK
  }

  function PhaseVerdict(step: Step, t: Token): ErrorCode {
    if t.phase !in step.phases then STALE_PHASE
    else if !step.phases[t.phase].Active() then PHASE_NOT_ACTIVE
    else OK
  }

  function Resolve(policy: Policy, job: Job, t: Token, need: Need): Verdict {
    if JobVerdict(policy, job, t) != OK then Verdict(JobVerdict(policy, job, t), false)
    else if need == NeedJob then Verdict(OK, false)
    else if job.step.None? then Verdict(STEP_NOT_ACTIVE, false)
    else if StepVerdict(job.step.value, t) != OK then Verdict(StepVerdict(job.step.value, t), true)
    else if need == NeedStep then Verdict(OK, true)
    else Verdict(PhaseVerdict(job.step.value, t), true)
  }

  predicate Accepts(policy: Policy, job: Job, t: Token, need: Need) {
    Resolve(policy, job, t, need).error == OK
  }

  /** Acceptance, as the generations a token must carry. */
  lemma AcceptsIff(policy: Policy, job: Job, t: Token, need: Need)
    ensures Accepts(policy, job, t, need) <==>
      && !job.retired
      && t.jobGeneration == job.generation
      && (job.epoch == 0 || t.epoch == job.epoch)
      && t.incarnation == job.incarnation && t.incarnation !in job.retiredSet
      && t.boot == job.boot
      && t.contractGeneration == job.contract.generation
      && (job.topology.generation == 0 || t.topologyGeneration == job.topology.generation)
      && t.policyGeneration <= policy.generation
      && (need != NeedJob ==>
            && job.step.Some? && t.step == job.step.value.id && t.step != 0
            && t.incarnation == job.step.value.incarnation)
      && (need == NeedPhase ==> t.phase in job.step.value.phases && job.step.value.phases[t.phase].Active())
  {}

  function FenceOf(env: Env, job: Job, t: Token, error: ErrorCode): Fence {
    Fence(error, env.now, t.step, t.phase, 0, t.incarnation, job.incarnation, t.epoch, job.epoch, t.sequence)
  }

  /** A refusal is recorded on the open step when the token got that far. */
  function RecordRefusal(env: Env, job: Job, fence: Fence, onStep: bool): Job {
    if onStep && job.step.Some? then job.(step := Some(RecordFence(env.config, job.step.value, fence))) else job
  }
}
