/** The parts every operation on a job is built from: charging, closing and throttling a flow,
    retaining records, and recording a fence. */
module Traffic {
  import opened Results
  import opened Model

  // ---------------------------------------------------------------------------
  // Bounded retention
  // ---------------------------------------------------------------------------

  /** Add a record and forget the oldest ones above the cap. */
  function Push<T>(f: Fifo<T>, cap: nat, id: nat, v: T): Fifo<T> {
    var order := f.order + [id];
    var evicted := if |order| > cap then |order| - cap else 0;
    Fifo(f.items[id := v] - (set k | k in order[..evicted]), order[evicted..])
  }

  function Mark(l: Ledger, id: nat, outcome: Outcome, reason: ErrorCode): Ledger {
    if id in l.decisions.items then
      var d := l.decisions.items[id].(outcome := outcome, reason := reason, invalidated := true);
      l.(decisions := l.decisions.(items := l.decisions.items[id := d]))
    else l
  }

  // ---------------------------------------------------------------------------
  // Charging a group
  // ---------------------------------------------------------------------------

  function Acquire(load: Load, f: Flow): Load {
    Load(load.bps[f.group := Add64(Get(load.bps, f.group), f.minBps)],
         load.flows[f.group := Inc32(Get(load.flows, f.group))])
  }

  function Release(load: Load, f: Flow): Load {
    Load(if f.group in load.bps then load.bps[f.group := Sub(load.bps[f.group], f.minBps)] else load.bps,
         if f.group in load.flows then load.flows[f.group := Sub(load.flows[f.group], 1)] else load.flows)
  }

  function Lower(load: Load, group: nat, delta: nat): Load {
    load.(bps := load.bps[group := Sub(Get(load.bps, group), delta)])
  }

  // ---------------------------------------------------------------------------
  // Closing a flow
  // ---------------------------------------------------------------------------

  function PhaseAccOf(step: Step, phase: nat): PhaseAcc {
    if phase in step.phaseAcc then step.phaseAcc[phase] else NO_PHASE_ACC
  }

  function SettleStep(a: StepAcc, f: Flow, completed: bool, bytes: nat): StepAcc {
    var rest := Sub(a.bytesCommitted, f.bytesEstimate);
    var b := a.(activeFlows := Sub(a.activeFlows, 1), activeMin := Sub(a.activeMin, f.minBps));
    if completed then
      b.(bytesCommitted := Add64(rest, bytes), bytesCompleted := Add64(a.bytesCompleted, bytes),
         completed := Inc32(a.completed))
    else b.(bytesCommitted := rest, cancelled := Inc32(a.cancelled))
  }

  function SettlePhase(a: PhaseAcc, f: Flow, completed: bool, bytes: nat): PhaseAcc {
    var rest := Sub(a.bytesCommitted, f.bytesEstimate);
    if completed then
      a.(bytesCommitted := Add64(rest, bytes), bytesCompleted := Add64(a.bytesCompleted, bytes),
         completed := Inc32(a.completed))
    else a.(bytesCommitted := rest, cancelled := Inc32(a.cancelled))
  }

  function Fewer(m: map<nat, nat>, k: nat): map<nat, nat> {
    if k in m then m[k := Sub(m[k], 1)] else m
  }

  function Settle(step: Step, f: Flow, completed: bool, bytes: nat): Step {
    step.(
      acc := SettleStep(step.acc, f, completed, bytes),
      phaseAcc := step.phaseAcc[f.phase := SettlePhase(PhaseAccOf(step, f.phase), f, completed, bytes)],
      phaseFlows := Fewer(step.phaseFlows, f.phase),
      flows := step.flows - {f.intent})
  }

  function CloseFlow(env: Env, job: Job, f: Flow, completed: bool, bytes: nat, reason: ErrorCode): Job
    requires job.step.Some?
  {
    var receipt := Receipt(f.intent, if completed then OK else reason, env.now,
                           if completed then bytes else 0, f.minBps);
    job.(
      load := Release(job.load, f),
      step := Some(Settle(job.step.value, f, completed, bytes)),
      ledger := job.ledger.(receipts := Push(job.ledger.receipts, env.config.maxReceipts, f.intent, receipt)))
  }

  /** Cancel the listed flows in order; `mark` is what their retained decisions become. */
  function CancelEach(env: Env, job: Job, ids: seq<nat>, reason: ErrorCode, mark: Option<Outcome>): (r: Job)
    requires job.step.Some?
    ensures r.step.Some?
    decreases |ids|
  {
    if ids == [] then job
    else CancelEach(env, CancelOne(env, job, ids[0], reason, mark), ids[1..], reason, mark)
  }

  function CancelOne(env: Env, job: Job, id: nat, reason: ErrorCode, mark: Option<Outcome>): (r: Job)
    requires job.step.Some?
    ensures r.step.Some?
  {
    if id !in job.step.value.flows then job else
    var closed := CloseFlow(env, job, job.step.value.flows[id], false, 0, reason);
    if mark.None? then closed else closed.(ledger := Mark(closed.ledger, id, mark.value, reason))
  }

  // ---------------------------------------------------------------------------
  // Admitting and throttling a flow
  // ---------------------------------------------------------------------------

  function AdmitStep(step: Step, f: Flow): Step {
    var a := step.acc;
    var p := PhaseAccOf(step, f.phase);
    step.(
      flows := step.flows[f.intent := f],
      acc := a.(activeFlows := Inc32(a.activeFlows), activeMin := Add64(a.activeMin, f.minBps),
                grantedMin := Add64(a.grantedMin, f.minBps),
                bytesCommitted := Add64(a.bytesCommitted, f.bytesEstimate)),
      phaseAcc := step.phaseAcc[f.phase := p.(bytesCommitted := Add64(p.bytesCommitted, f.bytesEstimate))],
      phaseFlows := if f.phase in step.phaseFlows then step.phaseFlows[f.phase := Inc32(step.phaseFlows[f.phase])]
                    else step.phaseFlows)
  }

  /** Reduce a flow's grant to `ceiling` for the burst `burst`. */
  function ThrottleFlow(job: Job, f: Flow, ceiling: nat, burst: nat): (r: Job)
    requires job.step.Some? && ceiling <= f.minBps
    ensures r.step.Some?
  {
    var delta := f.minBps - ceiling;
    var step := job.step.value;
    var g := f.(minBps := ceiling, maxBps := Min(f.maxBps, ceiling), throttled := true);
    job.(
      load := Lower(job.load, f.group, delta),
      step := Some(step.(acc := step.acc.(activeMin := Sub(step.acc.activeMin, delta)),
                         flows := step.flows[f.intent := g])),
      ledger := job.ledger.(decisions := MarkThrottled(job.ledger.decisions, g, burst)))
  }

  /** The retained decision of a throttled flow, if there is one, states its new rates. */
  function MarkThrottled(d: Fifo<Decision>, g: Flow, burst: nat): Fifo<Decision> {
    if g.intent !in d.items then d else
    d.(items := d.items[g.intent := d.items[g.intent].(outcome := Outcome.Throttle, minBps := g.minBps,
         maxBps := g.maxBps, isolated := true, burst := burst)])
  }

  // ---------------------------------------------------------------------------
  // Counting an outcome, recording a fence
  // ---------------------------------------------------------------------------

  /** Every decision of an open phase is counted once, in the step and in the phase. */
  function CountStep(a: StepAcc, outcome: Outcome): StepAcc {
    match outcome
    case Admit => a.(admitted := Inc32(a.admitted))
    case Throttle => a.(throttled := Inc32(a.throttled))
    case Defer => a.(deferred := Inc32(a.deferred))
    case Reject => a.(rejected := Inc32(a.rejected))
    case Revalidate => a.(rejected := Inc32(a.rejected))
  }

  function CountPhase(a: PhaseAcc, outcome: Outcome): PhaseAcc {
    match outcome
    case Admit => a.(admitted := Inc32(a.admitted))
    case Throttle => a.(throttled := Inc32(a.throttled))
    case Defer => a.(deferred := Inc32(a.deferred))
    case Reject => a.(rejected := Inc32(a.rejected))
    case Revalidate => a.(rejected := Inc32(a.rejected))
  }

  function RecordFence(config: Config, step: Step, fence: Fence): Step {
    step.(fencesObserved := step.fencesObserved + 1,
          fences := if |step.fences| < config.maxFences then step.fences + [fence] else step.fences)
  }
}
