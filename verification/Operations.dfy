/** The operations on one job, as functions from its state to its next state and the reply. */
module Operations {
  import opened Bytes
  import opened Results
  import opened Utf8
  import opened Codec
  import opened Model
  import opened Policies
  import opened Order
  import opened Arbitration
  import opened Traffic
  import opened Authorities

  datatype StepEnd = StepCompleted | StepCancelled | StepFenced

  /** One call on one job. */
  datatype JobOp =
    | RegisterGroup(token: Token, registered: Group)
    | Publish(token: Token, evidence: Label, links: seq<Link>)
    | RetireJob(token: Token)
    | BeginStep(token: Token, step: nat, deadlineAt: nat, slack: nat)
    | BeginPhase(token: Token, spec: PhaseSpec)
    | EndPhase(token: Token, phase: nat, disposition: Disposition)
    | EndStep(token: Token, end: StepEnd)
    | Request(request: Intent)
    | Complete(token: Token, intent: nat, bytes: nat, cancelled: bool)
    | RevalidateFlow(token: Token, intent: nat)
    | BeginBurst(token: Token, group: nat, expectedBytes: nat, deadlineAt: nat, reason: bytes)
    | EndBurst(token: Token, burst: nat)
    | Replace(job: nat, jobGeneration: nat, boot: Boot, expected: nat, epoch: nat, resumeStep: nat, cause: ErrorCode)
    | RetireIncarnation(token: Token)
    | EvaluatePacing(token: Token, group: nat, expected: nat, arrived: nat, spare: bool)

  datatype Reply =
    | Refused(error: ErrorCode)
    | Done
    | Number(value: nat)
    | StepReport(report: Report)
    | PhaseRecord(phase: Phase)
    | Decided(decision: Decision)
    | Closed(receipt: Receipt)
    | Revalidation(valid: bool, reason: ErrorCode, retained: Option<Decision>)

  datatype Effect = Effect(job: Job, reply: Reply)

  // ---------------------------------------------------------------------------
  // Refusals
  // ---------------------------------------------------------------------------

  function Refuse(env: Env, job: Job, t: Token, v: Verdict): Effect {
    Effect(RecordRefusal(env, job, FenceOf(env, job, t, v.error), v.onStep), Refused(v.error))
  }

  // ---------------------------------------------------------------------------
  // Isolation and priority
  // ---------------------------------------------------------------------------

  predicate Isolated(step: Step, group: nat) {
    step.burst.Some? && step.burst.value.active && step.burst.value.group == group
  }

  function EffectivePriority(p: Policy, cls: ServiceClass, isolation: bool): nat {
    var spec := Find(p.classes, cls);
    var base := if spec.Some? then spec.value.priority else 200;
    if !isolation then base
    else if cls == CheckpointService then p.isolationPriority
    else if spec.Some? && spec.value.barrierCritical then base
    else Max(base, Min(200, p.isolationPriority + 1))
  }

  function MappedClass(p: Policy, step: Step, phase: nat): ServiceClass {
    if phase in step.phases then ClassForPhase(p, step.phases[phase].spec.cls) else UnknownService
  }

  function InPhase(flows: map<nat, Flow>, phase: nat): set<nat> {
    set k | k in flows && flows[k].phase == phase
  }

  function InGroup(flows: map<nat, Flow>, group: nat): set<nat> {
    set k | k in flows && flows[k].group == group
  }

  // ---------------------------------------------------------------------------
  // Closing a step
  // ---------------------------------------------------------------------------

  function Summarize(step: Step, p: Phase): PhaseSummary {
    var a := PhaseAccOf(step, p.id);
    PhaseSummary(p.id, p.spec.cls, p.spec.group, p.spec.criticality, p.disposition, p.openedAt, p.closedAt,
                 a.admitted, a.deferred, a.rejected, a.completed, a.cancelled, a.bytesCommitted, a.bytesCompleted)
  }

  function Summaries(step: Step, ids: seq<nat>): seq<PhaseSummary>
    decreases |ids|
  {
    if ids == [] then []
    else (if ids[0] in step.phases then [Summarize(step, step.phases[ids[0]])] else []) + Summaries(step, ids[1..])
  }

  ghost function BuildReport(job: Job, step: Step, closedAt: nat, closed: bool, cancelled: bool): Report {
    Report(step.id, job.generation, step.openedAt, closedAt, Summaries(step, SortedIds(set k | k in step.phaseOrder)),
           step.acc.(closed := closed), step.fences, step.fencesObserved, cancelled)
  }

  /** Keep the newest reports, at least one. */
  function PushHistory(history: seq<Report>, report: Report, cap: nat): seq<Report> {
    var all := history + [report];
    var bound := Max(1, cap);
    if |all| > bound then all[|all| - bound..] else all
  }

  function ClosePhases(phases: map<nat, Phase>, d: Disposition, at: nat): map<nat, Phase> {
    map k | k in phases :: if phases[k].Active() then phases[k].(disposition := d, closedAt := at) else phases[k]
  }

  /** Close the open step, whose flows are all gone. */
  ghost function CloseStep(env: Env, job: Job, d: Disposition, cancelled: bool): Effect
    requires job.step.Some?
  {
    var step := job.step.value.(phases := ClosePhases(job.step.value.phases, d, env.now));
    var report := BuildReport(job, step, env.now, true, cancelled);
    Effect(job.(lastClosedStep := step.id, step := None,
                history := PushHistory(job.history, report, job.contract.historySteps)),
           StepReport(report))
  }

  ghost function CancelAll(env: Env, job: Job, reason: ErrorCode): (r: Job)
    requires job.step.Some?
    ensures r.step.Some?
  {
    CancelEach(env, job, SortedIds(job.step.value.flows.Keys), reason, Some(Reject))
  }

  /** The open step's authority is gone: fence it and close it. */
  ghost function FenceStep(env: Env, job: Job, reason: ErrorCode): Effect
    requires job.step.Some?
  {
    var step := job.step.value;
    var fence := Fence(reason, env.now, step.id, 0, 0, step.incarnation, job.incarnation, job.epoch, job.epoch, 0);
    var fenced := job.(step := Some(RecordFence(env.config, step, fence)));
    var empty := CancelAll(env, fenced, reason);
    CloseStep(env, empty, Fenced, empty.step.value.acc.cancelled > 0)
  }

  ghost function FenceIfOpen(env: Env, job: Job, reason: ErrorCode): Job {
    if job.step.Some? then FenceStep(env, job, reason).job else job
  }

  // ---------------------------------------------------------------------------
  // Invalidation when the policy or the evidence changes
  // ---------------------------------------------------------------------------

  predicate Invalidates(p: Policy, step: Step, f: Flow) {
    p.strict ||
    var mapped := MappedClass(p, step, f.phase);
    var spec := Find(p.classes, mapped);
    || mapped != f.cls
    || EffectivePriority(p, mapped, Isolated(step, f.group)) != f.priority
    || spec.None?
    || (spec.value.ceiling != 0 && f.minBps > spec.value.ceiling)
  }

  function Doomed(p: Policy, step: Step): set<nat> {
    set k | k in step.flows && Invalidates(p, step, step.flows[k])
  }

  ghost function Invalidate(env: Env, job: Job, cause: ErrorCode): Job {
    if job.step.None? then job else
    var step := job.step.value;
    CancelEach(env, job, SortedIds(Doomed(env.policy, step)), cause, Some(Revalidate))
  }

  // ---------------------------------------------------------------------------
  // Registration
  // ---------------------------------------------------------------------------

  function DoRegisterGroup(env: Env, job: Job, t: Token, g: Group): Effect {
    var v := Resolve(env.policy, job, t, NeedJob);
    if v.error != OK then Refuse(env, job, t, v)
    else if GroupError(g) != OK then Effect(job, Refused(GroupError(g)))
    else if g.id in job.groups then Effect(job, Refused(ALREADY_EXISTS))
    else if |job.groups| >= job.contract.maxGroups then Effect(job, Refused(CONTRACT_LIMIT_EXCEEDED))
    else Effect(AddGroup(job, g), Done)
  }

  function AddGroup(job: Job, g: Group): Job {
    job.(groups := job.groups[g.id := g], groupOrder := job.groupOrder + [g.id],
         load := Load(job.load.bps[g.id := 0], job.load.flows[g.id := 0]))
  }

  ghost function DoPublish(env: Env, job: Job, t: Token, evidence: Label, links: seq<Link>): Effect {
    var v := Resolve(env.policy, job, t, NeedJob);
    if v.error != OK then Refuse(env, job, t, v)
    else if job.ids.topology == 0 then Effect(job, Refused(INVALID_ARGUMENT))
    else if LinksError(links) != OK then Effect(job, Refused(LinksError(links)))
    else Effect(Republish(env, job, evidence, links), Number(job.ids.topology))
  }

  /** New evidence mints a generation and invalidates what was granted under the old one. */
  ghost function Republish(env: Env, job: Job, evidence: Label, links: seq<Link>): Job {
    var generation := job.ids.topology;
    var kept := Invalidate(env, job, STALE_TOPOLOGY_GENERATION);
    kept.(topology := Topology(generation, evidence, links), ids := kept.ids.(topology := generation + 1))
  }

  ghost function DoRetireJob(env: Env, job: Job, t: Token): Effect {
    var v := Resolve(env.policy, job, t, NeedJob);
    if v.error != OK then Refuse(env, job, t, v)
    else Effect(FenceIfOpen(env, job, JOB_RETIRED).(retired := true), Done)
  }

  // ---------------------------------------------------------------------------
  // Steps and phases
  // ---------------------------------------------------------------------------

  function NewStep(env: Env, job: Job, id: nat, deadlineAt: nat, slack: nat): Step {
    Step(id, job.generation, job.incarnation, env.now, deadlineAt, slack, map[], [], map[], map[], map[],
         NO_STEP_ACC, [], 0, 0, None)
  }

  ghost function DoBeginStep(env: Env, job: Job, t: Token, id: nat, deadlineAt: nat, slack: nat): Effect {
    var v := Resolve(env.policy, job, t, NeedJob);
    if id == 0 then Effect(job, Refused(INVALID_ARGUMENT))
    else if v.error != OK then Refuse(env, job, t, v)
    else if job.step.Some? then Effect(job, Refused(CONFLICT))
    else if id <= job.highestStep then Effect(job, Refused(STALE_STEP))
    else
      var step := NewStep(env, job, id, deadlineAt, slack);
      Effect(job.(step := Some(step), highestStep := id), StepReport(BuildReport(job, step, 0, false, false)))
  }

  const MAX_SLACK := 0x100_0000_0000

  function PhaseSpecError(spec: PhaseSpec): ErrorCode {
    if TextError(spec.hint, MAX_STRING_BYTES) != OK then TextError(spec.hint, MAX_STRING_BYTES)
    else if spec.group == 0 then INVALID_ARGUMENT
    else if spec.slack > MAX_SLACK then OUT_OF_RANGE
    else OK
  }

  function OpenPhase(env: Env, job: Job, spec: PhaseSpec): Job
    requires job.step.Some?
  {
    var id := job.ids.phase;
    var step := job.step.value;
    job.(ids := job.ids.(phase := id + 1),
         step := Some(step.(phases := step.phases[id := Phase(id, spec, env.now, 0, Undecided)],
                            phaseOrder := step.phaseOrder + [id],
                            phaseAcc := step.phaseAcc[id := NO_PHASE_ACC],
                            phaseFlows := step.phaseFlows[id := 0])))
  }

  function DoBeginPhase(env: Env, job: Job, t: Token, spec: PhaseSpec): Effect {
    var v := Resolve(env.policy, job, t, NeedStep);
    if PhaseSpecError(spec) != OK then Effect(job, Refused(PhaseSpecError(spec)))
    else if v.error != OK then Refuse(env, job, t, v)
    else if spec.group !in job.groups then Effect(job, Refused(UNKNOWN_GROUP))
    else if |job.step.value.phases| >= job.contract.maxPhases then Effect(job, Refused(CONTRACT_LIMIT_EXCEEDED))
    else Effect(OpenPhase(env, job, spec), PhaseRecord(Phase(job.ids.phase, spec, env.now, 0, Undecided)))
  }

  ghost function ClosePhase(env: Env, job: Job, phase: nat, d: Disposition): Job
    requires job.step.Some? && phase in job.step.value.phases
  {
    var flows := job.step.value.flows;
    var rest := CancelEach(env, job, SortedIds(InPhase(flows, phase)), CANCELLED, None);
    var step := rest.step.value;
    var closed := job.step.value.phases[phase].(disposition := d, closedAt := env.now);
    rest.(step := Some(step.(phases := step.phases[phase := closed])))
  }

  ghost function DoEndPhase(env: Env, job: Job, t: Token, phase: nat, d: Disposition): Effect {
    var v := Resolve(env.policy, job, t, NeedStep);
    if d == Undecided then Effect(job, Refused(INVALID_ARGUMENT))
    else if v.error != OK then Refuse(env, job, t, v)
    else if phase !in job.step.value.phases then Effect(job, Refused(STALE_PHASE))
    else if !job.step.value.phases[phase].Active() then Effect(job, Refused(PHASE_ALREADY_CLOSED))
    else
      var r := ClosePhase(env, job, phase, d);
      Effect(r, PhaseRecord(job.step.value.phases[phase].(disposition := d, closedAt := env.now)))
  }

  ghost function DoEndStep(env: Env, job: Job, t: Token, end: StepEnd): Effect {
    var v := Resolve(env.policy, job, t, NeedStep);
    if v.error != OK then Refuse(env, job, t, v)
    else
      var empty := CancelAll(env, job, CANCELLED);
      CloseStep(env, empty, if end == StepCancelled then Cancelled else Completed,
                end != StepCompleted || job.step.value.flows != map[])
  }

  // ---------------------------------------------------------------------------
  // Requesting traffic
  // ---------------------------------------------------------------------------

  function IntentError(i: Intent): ErrorCode {
    if i.group == 0 || i.token.job == 0 || i.token.step == 0 || i.token.phase == 0 || i.token.incarnation == 0
    then INVALID_ARGUMENT
    else if i.minBps > i.maxBps then INVALID_ARGUMENT
    else if i.maxBps > MAX_RATE_BPS then OUT_OF_RANGE
    else if i.bytesEstimate > MAX_INTENT_BYTES then OUT_OF_RANGE
    else if i.participants == 0 || i.participants > 0x40_0000 then OUT_OF_RANGE
    else TextError(i.purpose, MAX_STRING_BYTES)
  }

  /** What is decided about a request, before anything is changed. */
  datatype Judgement =
    | Denied(reason: ErrorCode)
    | Postponed(reason: ErrorCode, cls: ServiceClass, priority: nat, until: nat)
    | Allowed(cls: ServiceClass, priority: nat, minBps: nat, maxBps: nat, victims: seq<nat>, isolated: bool)

  /** The rate ceiling: an Unknown phase is also held to the policy's unknown ceiling. */
  function CeilingFor(p: Policy, spec: ClassSpec, unknown: bool): nat {
    if !unknown then spec.ceiling
    else if spec.ceiling == 0 then p.unknownCeiling
    else Min(spec.ceiling, p.unknownCeiling)
  }

  function DeferOrDeny(env: Env, spec: ClassSpec, i: Intent, priority: nat, reason: ErrorCode): Judgement {
    if spec.deferrable && i.allowDefer
    then Postponed(reason, spec.cls, priority, env.now + env.policy.backoff * (priority + 1))
    else Denied(reason)
  }

  /** The checks in the program's order. */
  ghost function Judge(env: Env, job: Job, i: Intent): Judgement
    requires job.step.Some? && i.token.phase in job.step.value.phases
  {
    var step, p := job.step.value, env.policy;
    var phaseClass := step.phases[i.token.phase].spec.cls;
    var unknown := phaseClass == UnknownPhase;
    var found := Find(p.classes, ClassForPhase(p, phaseClass));
    if step.intentsSeen + 1 > job.contract.maxIntents then Denied(CONTRACT_LIMIT_EXCEEDED)
    else if i.declared != UnknownPhase && i.declared != phaseClass then Denied(CONFLICT)
    else if unknown && !job.contract.allowUnknownPhase then Denied(CONSERVATIVE_UNKNOWN_PHASE)
    else if found.None? then Denied(INTERNAL)
    else
      var spec := found.value;
      var isolation := Isolated(step, i.group);
      var priority := EffectivePriority(p, spec.cls, isolation);
      if isolation && spec.cls != CheckpointService && !spec.barrierCritical
      then DeferOrDeny(env, spec, i, priority, ISOLATION_ACTIVE)
      else JudgeRate(env, job, i, spec, unknown, priority, isolation)
  }

  ghost function JudgeRate(env: Env, job: Job, i: Intent, spec: ClassSpec, unknown: bool, priority: nat,
                           isolation: bool): Judgement
    requires job.step.Some?
  {
    var step := job.step.value;
    var ceiling := CeilingFor(env.policy, spec, unknown);
    var most := if ceiling != 0 then Min(i.maxBps, ceiling) else i.maxBps;
    var least := Max(i.minBps, spec.floor);
    if ceiling != 0 && i.minBps > ceiling then Denied(RATE_ABOVE_CEILING)
    else if least > most then Denied(RATE_ABOVE_CEILING)
    else if i.bytesEstimate > job.contract.maxBytesPerIntent then Denied(CONTRACT_LIMIT_EXCEEDED)
    else if step.acc.bytesCommitted + i.bytesEstimate >= WRAP64
         || step.acc.bytesCommitted + i.bytesEstimate > job.contract.maxBytesPerStep
    then Denied(CONTRACT_LIMIT_EXCEEDED)
    else if |step.flows| >= Min(job.contract.maxActiveFlows, env.policy.maxActiveFlows)
    then Denied(RESOURCE_EXHAUSTED)
    else
      match Arbitrate(env.policy, job.topology.links, Get(job.load.bps, i.group), step.flows, i.group,
                      if unknown then 255 else priority, least, most)
      case NoEvidence => Denied(MISSING_TOPOLOGY_EVIDENCE)
      case NoCapacity => DeferOrDeny(env, spec, i, priority, NO_CAPACITY)
      case Granted(minBps, maxBps, victims) =>
        Allowed(spec.cls, priority, minBps, maxBps, victims, isolation && spec.cls == CheckpointService)
  }

  function BaseDecision(env: Env, job: Job, i: Intent, phaseClass: PhaseClass): Decision {
    Decision(job.ids.intent, i.token, i.group, i.token.phase, phaseClass, job.contract.generation,
             job.topology.generation, env.policy.generation, Reject, INTERNAL, UnknownService, 255, 0, 0,
             i.bytesEstimate, env.now, 0, false, false, 0, job.topology.evidence)
  }

  function DecisionFor(env: Env, job: Job, i: Intent, j: Judgement): Decision
    requires job.step.Some? && i.token.phase in job.step.value.phases
  {
    var step := job.step.value;
    var base := BaseDecision(env, job, i, step.phases[i.token.phase].spec.cls);
    match j
    case Denied(reason) => base.(outcome := Reject, reason := reason, priority := 0)
    case Postponed(reason, cls, priority, until) =>
      base.(outcome := Defer, reason := reason, cls := cls, priority := priority, deferUntil := until)
    case Allowed(cls, priority, minBps, maxBps, _, isolated) =>
      base.(outcome := Admit, reason := OK, cls := cls, priority := priority, minBps := minBps, maxBps := maxBps,
            isolated := isolated, burst := if isolated && step.burst.Some? then step.burst.value.id else 0)
  }

  /** Mint the intent, count its outcome and retain the decision. */
  function Conclude(env: Env, job: Job, phase: nat, d: Decision): Job
    requires job.step.Some?
  {
    var step := job.step.value;
    job.(ids := job.ids.(intent := job.ids.intent + 1),
         step := Some(step.(intentsSeen := step.intentsSeen + 1, acc := CountStep(step.acc, d.outcome),
                            phaseAcc := step.phaseAcc[phase := CountPhase(PhaseAccOf(step, phase), d.outcome)])),
         ledger := job.ledger.(decisions := Push(job.ledger.decisions, env.config.maxDecisions, d.intent, d)))
  }

  /** A refusal for lack of authority is decided and retained, but counted nowhere. */
  function ConcludeUnbound(env: Env, job: Job, i: Intent, v: Verdict): Effect {
    var fenced := RecordRefusal(env, job, FenceOf(env, job, i.token, v.error), v.onStep);
    var d := BaseDecision(env, job, i, UnknownPhase).(outcome := Reject, reason := v.error, priority := 0);
    Effect(fenced.(ids := fenced.ids.(intent := fenced.ids.intent + 1),
                   ledger := fenced.ledger.(decisions :=
                     Push(fenced.ledger.decisions, env.config.maxDecisions, d.intent, d))),
           Decided(d))
  }

  function FlowFor(env: Env, job: Job, i: Intent, j: Judgement): Flow
    requires j.Allowed?
  {
    Flow(job.ids.intent, i.group, i.token.phase, j.cls, j.priority, j.minBps, j.maxBps, i.bytesEstimate, env.now,
         j.isolated, false)
  }

  /** Displace the victims, charge the flow, and conclude. */
  function AdmitFlow(env: Env, job: Job, f: Flow, d: Decision): Job
    requires job.step.Some?
  {
    Conclude(env, job.(load := Acquire(job.load, f), step := Some(AdmitStep(job.step.value, f))), f.phase, d)
  }

  ghost function Decide(env: Env, job: Job, i: Intent): Effect
    requires job.step.Some? && i.token.phase in job.step.value.phases
  {
    var j := Judge(env, job, i);
    if j == Denied(INTERNAL) then
      Effect(job.(ids := job.ids.(intent := job.ids.intent + 1),
                  step := Some(job.step.value.(intentsSeen := job.step.value.intentsSeen + 1))), Refused(INTERNAL))
    else
      var d := DecisionFor(env, job, i, j);
      if !j.Allowed? then Effect(Conclude(env, job, i.token.phase, d), Decided(d))
      else
        var room := CancelEach(env, job, j.victims, NO_CAPACITY, Some(Defer));
        Effect(AdmitFlow(env, room, FlowFor(env, job, i, j), d), Decided(d))
  }

  ghost function DoRequest(env: Env, job: Job, i: Intent): Effect
  {
    var v := Resolve(env.policy, job, i.token, NeedPhase);
    if IntentError(i) != OK then Effect(job, Refused(IntentError(i)))
    else if v.error != OK then ConcludeUnbound(env, job, i, v)
    else Decide(env, job, i)
  }

  // ---------------------------------------------------------------------------
  // Completing and revalidating a flow
  // ---------------------------------------------------------------------------

  function DoComplete(env: Env, job: Job, t: Token, intent: nat, bytes: nat, cancelled: bool): Effect {
    var v := Resolve(env.policy, job, t, NeedStep);
    var receipts := job.ledger.receipts.items;
    var plain := Fence(OK, env.now, t.step, t.phase, intent, 0, 0, 0, 0, 0);
    if v.error != OK then
      if intent in receipts then
        var fence := FenceOf(env, job, t, FLOW_ALREADY_CLOSED);
        Effect(RecordRefusal(env, job, fence, v.onStep), Refused(FLOW_ALREADY_CLOSED))
      else Refuse(env, job, t, v)
    else if intent !in job.step.value.flows then
      var error := if intent in receipts then FLOW_ALREADY_CLOSED else FLOW_NOT_ACTIVE;
      Effect(RecordRefusal(env, job, plain.(reason := error), true), Refused(error))
    else if bytes > job.contract.maxBytesPerIntent then Effect(job, Refused(CONTRACT_LIMIT_EXCEEDED))
    else
      var r := CloseFlow(env, job, job.step.value.flows[intent], !cancelled, bytes, CANCELLED);
      Effect(r, if intent in r.ledger.receipts.items then Closed(r.ledger.receipts.items[intent])
                else Refused(INTERNAL))
  }

  function DoRevalidate(env: Env, job: Job, t: Token, intent: nat): Effect {
    var v := Resolve(env.policy, job, t, NeedStep);
    var items := job.ledger.decisions.items;
    if v.error != OK then Refuse(env, job, t, v)
    else if intent !in items then Effect(job, Revalidation(false, NOT_REGISTERED, None))
    else
      var step, d := job.step.value, items[intent];
      var active := intent in step.flows;
      var reason := if active then OK else FLOW_NOT_ACTIVE;
      if d.token.step != step.id then Effect(job, Revalidation(false, STALE_STEP, Some(d)))
      else if d.invalidated then Effect(job, Revalidation(false, d.reason, Some(d)))
      else if d.policyGeneration >= env.policy.generation then Effect(job, Revalidation(active, reason, Some(d)))
      else
        var mapped := MappedClass(env.policy, step, d.phase);
        var priority := EffectivePriority(env.policy, mapped, Isolated(step, d.group));
        var stale := env.policy.strict || mapped != d.cls || priority != d.priority
                     || Find(env.policy.classes, mapped).None?;
        var renewed := d.(policyGeneration := env.policy.generation);
        var next := if stale
          then renewed.(invalidated := true, outcome := Revalidate, reason := POLICY_INVALIDATED)
          else renewed.(cls := mapped, priority := priority);
        Effect(job.(ledger := job.ledger.(decisions := job.ledger.decisions.(items := items[intent := next]))),
               if stale then Revalidation(false, POLICY_INVALIDATED, Some(next))
               else Revalidation(active, reason, Some(next)))
  }

  // ---------------------------------------------------------------------------
  // Checkpoint bursts
  // ---------------------------------------------------------------------------

  datatype Isolation = Isolation(job: Job, displaced: nat, throttled: nat)

  /** Displace, throttle or leave one flow of the isolated group. */
  function IsolateOne(env: Env, s: Isolation, id: nat, burst: nat): (r: Isolation)
    requires s.job.step.Some?
    ensures r.job.step.Some?
  {
    var flows := s.job.step.value.flows;
    if id !in flows then s else
    var f := flows[id];
    var spec := Find(env.policy.classes, f.cls);
    if spec.None? || f.cls == CheckpointService || spec.value.barrierCritical then s
    else if spec.value.isolationCeiling == 0 then
      s.(job := CancelOne(env, s.job, id, ISOLATION_ACTIVE, Some(Defer)), displaced := Inc32(s.displaced))
    else if f.minBps > spec.value.isolationCeiling then
      s.(job := ThrottleFlow(s.job, f, spec.value.isolationCeiling, burst), throttled := Inc32(s.throttled))
    else s
  }

  function IsolateEach(env: Env, s: Isolation, ids: seq<nat>, burst: nat): (r: Isolation)
    requires s.job.step.Some?
    ensures r.job.step.Some?
    decreases |ids|
  {
    if ids == [] then s else IsolateEach(env, IsolateOne(env, s, ids[0], burst), ids[1..], burst)
  }

  ghost function OpenBurst(env: Env, job: Job, group: nat, expected: nat, deadlineAt: nat, reason: bytes): Job
    requires job.step.Some?
  {
    var id, flows := job.ids.burst, job.step.value.flows;
    var s := IsolateEach(env, Isolation(job, 0, 0), SortedIds(InGroup(flows, group)), id);
    var burst := Burst(id, group, expected, env.now, deadlineAt, reason, s.displaced, s.throttled, true);
    s.job.(ids := s.job.ids.(burst := id + 1), step := Some(s.job.step.value.(burst := Some(burst))))
  }

  ghost function DoBeginBurst(env: Env, job: Job, t: Token, group: nat, expected: nat, deadlineAt: nat,
                              reason: bytes): Effect {
    var v := Resolve(env.policy, job, t, NeedStep);
    if TextError(reason, MAX_STRING_BYTES) != OK then Effect(job, Refused(TextError(reason, MAX_STRING_BYTES)))
    else if v.error != OK then Refuse(env, job, t, v)
    else if group !in job.groups then Effect(job, Refused(UNKNOWN_GROUP))
    else if job.step.value.burst.Some? && job.step.value.burst.value.active
    then Effect(job, Refused(BURST_ALREADY_ACTIVE))
    else Effect(OpenBurst(env, job, group, expected, deadlineAt, reason), Number(job.ids.burst))
  }

  function DoEndBurst(env: Env, job: Job, t: Token, burst: nat): Effect {
    var v := Resolve(env.policy, job, t, NeedStep);
    if v.error != OK then Refuse(env, job, t, v)
    else
      var step := job.step.value;
      if step.burst.None? || !step.burst.value.active then Effect(job, Refused(BURST_NOT_ACTIVE))
      else if step.burst.value.id != burst then Effect(job, Refused(NOT_FOUND))
      else Effect(job.(step := Some(step.(burst := Some(step.burst.value.(active := false))))), Done)
  }

  // ---------------------------------------------------------------------------
  // Incarnations
  // ---------------------------------------------------------------------------

  function Newest<T>(s: seq<T>, cap: nat): seq<T> {
    if |s| > cap then s[|s| - cap..] else s
  }

  function RetireCurrent(env: Env, job: Job, cause: ErrorCode): Job {
    var r := Retired(job.incarnation, job.boot, env.now, cause);
    job.(retiredSet := job.retiredSet + {job.incarnation},
         retiredList := Newest(job.retiredList + [r], env.config.maxRetired))
  }

  ghost function DoReplace(env: Env, job: Job, op: JobOp): Effect
    requires op.Replace?
  {
    if job.retired then Effect(job, Refused(JOB_RETIRED))
    else if op.jobGeneration != job.generation then Effect(job, Refused(STALE_JOB_GENERATION))
    else if job.epoch != 0 && op.epoch != job.epoch then Effect(job, Refused(STALE_EPOCH))
    else if !op.boot.Valid() then Effect(job, Refused(INVALID_ARGUMENT))
    else if op.boot == job.boot then Effect(job, Refused(CONFLICT))
    else if op.expected != job.incarnation then Effect(job, Refused(STALE_INCARNATION))
    else if op.resumeStep != 0 && op.resumeStep <= job.highestStep then Effect(job, Refused(STALE_STEP))
    else
      var quiet := FenceIfOpen(env, job, INCARNATION_RETIRED);
      var retired := RetireCurrent(env, quiet, op.cause);
      var minted := retired.ids.incarnation;
      Effect(retired.(incarnation := minted, ids := retired.ids.(incarnation := minted + 1), boot := op.boot),
             Number(minted))
  }

  ghost function DoRetireIncarnation(env: Env, job: Job, t: Token): Effect {
    var v := Resolve(env.policy, job, t, NeedJob);
    if v.error != OK then Refuse(env, job, t, v)
    else Effect(RetireCurrent(env, FenceIfOpen(env, job, INCARNATION_RETIRED), INCARNATION_RETIRED), Done)
  }

  // ---------------------------------------------------------------------------
  // Pacing
  // ---------------------------------------------------------------------------

  function PacingError(expected: nat, arrived: nat): ErrorCode {
    if expected == 0 || arrived > expected then INVALID_ARGUMENT else OK
  }

  /** `spare` is whether the job's budget of pacing records has room. What is advised is not modelled. */
  function DoPacing(env: Env, job: Job, t: Token, group: nat, expected: nat, arrived: nat, spare: bool): Effect {
    var v := Resolve(env.policy, job, t, NeedStep);
    if PacingError(expected, arrived) != OK then Effect(job, Refused(PacingError(expected, arrived)))
    else if v.error != OK then Refuse(env, job, t, v)
    else if group !in job.groups then Effect(job, Refused(UNKNOWN_GROUP))
    else if !spare then Effect(job, Refused(RESOURCE_EXHAUSTED))
    else Effect(job, Done)
  }

  // ---------------------------------------------------------------------------
  // All of them
  // ---------------------------------------------------------------------------

  function TargetOf(op: JobOp): nat {
    match op
    case Request(i) => i.token.job
    case Replace(id, _, _, _, _, _, _) => id
    case other => other.token.job
  }

  ghost function Perform(env: Env, job: Job, op: JobOp): Effect
  {
    match op
    case RegisterGroup(t, g) => DoRegisterGroup(env, job, t, g)
    case Publish(t, evidence, links) => DoPublish(env, job, t, evidence, links)
    case RetireJob(t) => DoRetireJob(env, job, t)
    case BeginStep(t, step, deadlineAt, slack) => DoBeginStep(env, job, t, step, deadlineAt, slack)
    case BeginPhase(t, spec) => DoBeginPhase(env, job, t, spec)
    case EndPhase(t, phase, d) => DoEndPhase(env, job, t, phase, d)
    case EndStep(t, end) => DoEndStep(env, job, t, end)
    case Request(i) => DoRequest(env, job, i)
    case Complete(t, intent, bytes, cancelled) => DoComplete(env, job, t, intent, bytes, cancelled)
    case RevalidateFlow(t, intent) => DoRevalidate(env, job, t, intent)
    case BeginBurst(t, group, expected, deadlineAt, reason) =>
      DoBeginBurst(env, job, t, group, expected, deadlineAt, reason)
    case EndBurst(t, burst) => DoEndBurst(env, job, t, burst)
    case Replace(_, _, _, _, _, _, _) => DoReplace(env, job, op)
    case RetireIncarnation(t) => DoRetireIncarnation(env, job, t)
    case EvaluatePacing(t, group, expected, arrived, spare) => DoPacing(env, job, t, group, expected, arrived, spare)
  }
}
