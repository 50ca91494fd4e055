/** The values the fabric stores: policy, contract, evidence, and the state of one job. */
module Model {
  import opened Bytes
  import opened Results

  const MAX_RATE_BPS := 1_000_000_000_000_000
  const MAX_INTENT_BYTES := 0x4_0000_0000_0000

  // ---------------------------------------------------------------------------
  // Enumerations, in wire order
  // ---------------------------------------------------------------------------

  datatype PhaseClass = UnknownPhase | ForwardComm | BackwardComm | GradientSync | ParameterSync
                      | PipelineTransfer | DataIngest | Checkpoint | Recovery | Control

  datatype ServiceClass = UnknownService | BestEffort | IngestService | PipelineService | ActivationService
                        | CheckpointService | ParameterService | GradientService | RecoveryService
                        | BarrierService | ControlService

  datatype Criticality = UnknownCriticality | BestEffortCriticality | SoftCriticality | HardCriticality

  /** `Undecided` is a phase that is still open. */
  datatype Disposition = Undecided | Completed | Cancelled | Fenced

  datatype Label = Unsupported | Synthetic | Real

  datatype Kind = UnknownKind | Data | Tensor | Pipeline | Expert | ContextReplica | OptimizerShard

  datatype Outcome = Admit | Defer | Reject | Revalidate | Throttle

  // ---------------------------------------------------------------------------
  // Policy, contract, evidence
  // ---------------------------------------------------------------------------

  datatype ClassSpec = ClassSpec(
    cls: ServiceClass, priority: nat, weight: nat, floor: nat, ceiling: nat, isolationCeiling: nat,
    preemptible: bool, barrierCritical: bool, deferrable: bool)

  const PHASE_CLASSES := 10

  /** The service class of each phase class: an array of fixed size. */
  type ClassMap = m: seq<ServiceClass> | |m| == PHASE_CLASSES witness seq(PHASE_CLASSES, _ => BestEffort)

  datatype Policy = Policy(
    generation: nat, phaseMap: ClassMap, classes: seq<ClassSpec>, unknownCeiling: nat,
    isolationPriority: nat, strict: bool, allowPreemption: bool, maxActiveFlows: nat,
    maxHistory: nat, maxClauses: nat, backoff: nat)

  datatype Contract = Contract(
    generation: nat, name: bytes, maxGroups: nat, maxPhases: nat, maxIntents: nat, maxActiveFlows: nat,
    maxBytesPerStep: nat, maxBytesPerIntent: nat, historySteps: nat, allowUnknownPhase: bool)

  datatype Link = Link(group: nat, capacity: nat, reserved: nat, evidence: Label, source: bytes) {
    function Available(): nat {
      if capacity > reserved then capacity - reserved else 0
    }
  }

  datatype Topology = Topology(generation: nat, evidence: Label, links: seq<Link>)

  datatype Group = Group(id: nat, kind: Kind, members: nat, name: bytes)

  datatype Boot = Boot(hi: nat, lo: nat) {
    predicate Valid() {
      hi != 0 || lo != 0
    }
  }

  // ---------------------------------------------------------------------------
  // Authority
  // ---------------------------------------------------------------------------

  datatype Token = Token(
    job: nat, jobGeneration: nat, incarnation: nat, boot: Boot, epoch: nat, contractGeneration: nat,
    topologyGeneration: nat, policyGeneration: nat, step: nat, phase: nat, sequence: nat)

  datatype Fence = Fence(
    reason: ErrorCode, at: nat, step: nat, phase: nat, intent: nat, observedIncarnation: nat,
    currentIncarnation: nat, observedEpoch: nat, currentEpoch: nat, sequence: nat)

  // ---------------------------------------------------------------------------
  // Traffic
  // ---------------------------------------------------------------------------

  datatype Intent = Intent(
    token: Token, group: nat, declared: PhaseClass, purpose: bytes, minBps: nat, maxBps: nat,
    bytesEstimate: nat, participants: nat, allowDefer: bool)

  datatype Flow = Flow(
    intent: nat, group: nat, phase: nat, cls: ServiceClass, priority: nat, minBps: nat, maxBps: nat,
    bytesEstimate: nat, grantedAt: nat, isolated: bool, throttled: bool)

  datatype Decision = Decision(
    intent: nat, token: Token, group: nat, phase: nat, phaseClass: PhaseClass, contractGeneration: nat,
    topologyGeneration: nat, policyGeneration: nat, outcome: Outcome, reason: ErrorCode,
    cls: ServiceClass, priority: nat, minBps: nat, maxBps: nat, bytesEstimate: nat, issuedAt: nat,
    deferUntil: nat, isolated: bool, invalidated: bool, burst: nat, evidence: Label)

  datatype Receipt = Receipt(intent: nat, reason: ErrorCode, at: nat, bytesCredited: nat, releasedMinBps: nat)

  // ---------------------------------------------------------------------------
  // Steps and phases
  // ---------------------------------------------------------------------------

  datatype PhaseSpec = PhaseSpec(
    cls: PhaseClass, group: nat, criticality: Criticality, deadlineAt: nat, slack: nat, hint: bytes)

  datatype Phase = Phase(id: nat, spec: PhaseSpec, openedAt: nat, closedAt: nat, disposition: Disposition) {
    predicate Active() {
      disposition == Undecided
    }
  }

  datatype PhaseAcc = PhaseAcc(
    admitted: nat, deferred: nat, rejected: nat, throttled: nat, completed: nat, cancelled: nat,
    bytesCommitted: nat, bytesCompleted: nat)

  const NO_PHASE_ACC := PhaseAcc(0, 0, 0, 0, 0, 0, 0, 0)

  datatype StepAcc = StepAcc(
    admitted: nat, deferred: nat, rejected: nat, throttled: nat, completed: nat, cancelled: nat, fenced: nat,
    activeFlows: nat, bytesRequested: nat, bytesCommitted: nat, bytesCompleted: nat, bytesCancelled: nat,
    grantedMin: nat, activeMin: nat, closed: bool)

  const NO_STEP_ACC := StepAcc(0, 0, 0, 0, 0, 0, 0, 0, 0, 0, 0, 0, 0, 0, false)

  datatype Burst = Burst(
    id: nat, group: nat, expectedBytes: nat, openedAt: nat, deadlineAt: nat, reason: bytes,
    displaced: nat, throttled: nat, active: bool)

  datatype Step = Step(
    id: nat, jobGeneration: nat, incarnation: nat, openedAt: nat, deadlineAt: nat, slack: nat,
    phases: map<nat, Phase>, phaseOrder: seq<nat>, phaseAcc: map<nat, PhaseAcc>, flows: map<nat, Flow>,
    phaseFlows: map<nat, nat>, acc: StepAcc, fences: seq<Fence>, fencesObserved: nat, intentsSeen: nat,
    burst: Option<Burst>)

  datatype PhaseSummary = PhaseSummary(
    id: nat, cls: PhaseClass, group: nat, criticality: Criticality, disposition: Disposition,
    openedAt: nat, closedAt: nat, admitted: nat, deferred: nat, rejected: nat, completed: nat,
    cancelled: nat, bytesCommitted: nat, bytesCompleted: nat)

  datatype Report = Report(
    step: nat, jobGeneration: nat, openedAt: nat, closedAt: nat, phases: seq<PhaseSummary>, acc: StepAcc,
    fences: seq<Fence>, fencesObserved: nat, withCancellation: bool)

  // ---------------------------------------------------------------------------
  // Jobs and the whole state
  // ---------------------------------------------------------------------------

  datatype Retired = Retired(incarnation: nat, boot: Boot, at: nat, cause: ErrorCode)

  /** Redundant per-group counters over the live flows. */
  datatype Load = Load(bps: map<nat, nat>, flows: map<nat, nat>)

  /** Records with the order they were added in; only the newest are retained. */
  datatype Fifo<T> = Fifo(items: map<nat, T>, order: seq<nat>)

  /** Bounded retention of decisions and receipts. */
  datatype Ledger = Ledger(decisions: Fifo<Decision>, receipts: Fifo<Receipt>)

  const NO_LEDGER := Ledger(Fifo(map[], []), Fifo(map[], []))

  /** The next identifier of each kind. */
  datatype Allocators = Allocators(intent: nat, phase: nat, burst: nat, incarnation: nat, topology: nat)

  datatype Job = Job(
    id: nat, name: bytes, generation: nat, contract: Contract, incarnation: nat, boot: Boot, epoch: nat,
    retired: bool, groups: map<nat, Group>, groupOrder: seq<nat>, load: Load, topology: Topology,
    retiredList: seq<Retired>, retiredSet: set<nat>, highestStep: nat, lastClosedStep: nat,
    step: Option<Step>, history: seq<Report>, ledger: Ledger, ids: Allocators)

  datatype Config = Config(
    maxJobs: nat, maxRetired: nat, maxDecisions: nat, maxReceipts: nat, maxFences: nat)

  /** What every operation on a job reads and never writes. */
  datatype Env = Env(config: Config, policy: Policy, now: nat)

  datatype State = State(config: Config, now: nat, policy: Policy, jobs: map<nat, Job>, nextJob: nat)

  // ---------------------------------------------------------------------------
  // Machine arithmetic and maps with a default
  // ---------------------------------------------------------------------------

  const WRAP64 := 0x1_0000_0000_0000_0000
  const WRAP32 := 0x1_0000_0000

  /** Unsigned 64-bit addition of two 64-bit values. */
  function Add64(a: nat, b: nat): nat {
    if a + b < WRAP64 then a + b else (a + b) % WRAP64
  }

  function Inc32(a: nat): nat {
    if a + 1 < WRAP32 then a + 1 else 0
  }

  /** Subtraction that clamps at zero. */
  function Sub(a: nat, b: nat): nat {
    if a >= b then a - b else 0
  }

  function Get(m: map<nat, nat>, k: nat): nat {
    if k in m then m[k] else 0
  }

  function Min(a: nat, b: nat): nat {
    if a <= b then a else b
  }

  function Max(a: nat, b: nat): nat {
    if a >= b then a else b
  }

  function LiveFlows(job: Job): map<nat, Flow> {
    if job.step.Some? then job.step.value.flows else map[]
  }
}
