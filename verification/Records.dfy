/** The records of a snapshot: how each is written, read back strictly, and that reading inverts
    writing. */
module Records {
  import opened Bytes
  import opened Results
  import opened Utf8
  import opened Codec
  import opened Model
  import opened Policies
  import opened Listing

  const MAX_FENCES := 64
  const MAX_PHASES := 4096
  const MAX_HISTORY := 1024
  const MAX_RETIRED := 4096
  const MAX_GROUPS := 65536
  const SERVICE_CLASSES := 11

  predicate Text(t: bytes) {
    TextError(t, MAX_STRING_BYTES) == OK
  }

  // ---------------------------------------------------------------------------
  // Contract
  // ---------------------------------------------------------------------------

  predicate ContractFits(c: Contract) {
    && c.generation < U64_LIMIT && Text(c.name)
    && c.maxGroups < U32_LIMIT && c.maxPhases < U32_LIMIT && c.maxIntents < U32_LIMIT && c.maxActiveFlows < U32_LIMIT
    && c.maxBytesPerStep < U64_LIMIT && c.maxBytesPerIntent < U64_LIMIT && c.historySteps < U32_LIMIT
  }

  function WriteContract(c: Contract, rest: bytes): bytes {
    PutU64(c.generation, PutString(c.name, PutU32(c.maxGroups, PutU32(c.maxPhases, PutU32(c.maxIntents,
    PutU32(c.maxActiveFlows, PutU64(c.maxBytesPerStep, PutU64(c.maxBytesPerIntent, PutU32(c.historySteps,
    PutBool(c.allowUnknownPhase, rest))))))))))
  }

  function ReadContract(b: bytes): (r: Read<Contract>)
    ensures r.Got? ==> ContractError(r.value) == OK
  {
    var (generation, b1) :- GetU64(b);
    var (name, b2) :- GetString(b1);
    var (maxGroups, b3) :- GetU32(b2);
    var (maxPhases, b4) :- GetU32(b3);
    var (maxIntents, b5) :- GetU32(b4);
    var (maxActiveFlows, b6) :- GetU32(b5);
    var (maxBytesPerStep, b7) :- GetU64(b6);
    var (maxBytesPerIntent, b8) :- GetU64(b7);
    var (historySteps, b9) :- GetU32(b8);
    var (allowUnknownPhase, b10) :- GetBool(b9);
    var c := Contract(generation, name, maxGroups, maxPhases, maxIntents, maxActiveFlows, maxBytesPerStep,
                      maxBytesPerIntent, historySteps, allowUnknownPhase);
    if ContractError(c) != OK then Bad(ContractError(c)) else Got(c, b10)
  }

  lemma ContractRoundTrip(c: Contract, rest: bytes)
    requires ContractFits(c) && ContractError(c) == OK
    ensures ReadContract(WriteContract(c, rest)) == Got(c, rest)
  {
    hide PutU64, PutU32, PutString, PutBool, GetU64, GetU32, GetString, GetBool, ContractError;
  }

  // ---------------------------------------------------------------------------
  // Accounting
  // ---------------------------------------------------------------------------

  predicate StepAccFits(a: StepAcc) {
    && a.admitted < U32_LIMIT && a.deferred < U32_LIMIT && a.rejected < U32_LIMIT && a.throttled < U32_LIMIT
    && a.completed < U32_LIMIT && a.cancelled < U32_LIMIT && a.fenced < U32_LIMIT && a.activeFlows < U32_LIMIT
    && a.bytesRequested < U64_LIMIT && a.bytesCommitted < U64_LIMIT && a.bytesCompleted < U64_LIMIT
    && a.bytesCancelled < U64_LIMIT && a.grantedMin < U64_LIMIT && a.activeMin < U64_LIMIT
  }

  function WriteStepAcc(a: StepAcc, rest: bytes): bytes {
    PutU32(a.admitted, PutU32(a.deferred, PutU32(a.rejected, PutU32(a.throttled, PutU32(a.completed,
    PutU32(a.cancelled, PutU32(a.fenced, PutU32(a.activeFlows, PutU64(a.bytesRequested, PutU64(a.bytesCommitted,
    PutU64(a.bytesCompleted, PutU64(a.bytesCancelled, PutU64(a.grantedMin, PutU64(a.activeMin,
    PutBool(a.closed, rest)))))))))))))))
  }

  function ReadCounters(b: bytes): Read<StepAcc> {
    var (admitted, b1) :- GetU32(b);
    var (deferred, b2) :- GetU32(b1);
    var (rejected, b3) :- GetU32(b2);
    var (throttled, b4) :- GetU32(b3);
    var (completed, b5) :- GetU32(b4);
    var (cancelled, b6) :- GetU32(b5);
    var (fenced, b7) :- GetU32(b6);
    var (activeFlows, b8) :- GetU32(b7);
    Got(StepAcc(admitted, deferred, rejected, throttled, completed, cancelled, fenced, activeFlows, 0, 0, 0, 0, 0, 0,
                false), b8)
  }

  /** The sum of the outcome counters cannot overflow, so the program's overflow exit is dead. */
  function ReadStepAcc(b: bytes): Read<StepAcc> {
    var (counters, b8) :- ReadCounters(b);
    var (bytesRequested, b9) :- GetU64(b8);
    var (bytesCommitted, b10) :- GetU64(b9);
    var (bytesCompleted, b11) :- GetU64(b10);
    var (bytesCancelled, b12) :- GetU64(b11);
    var (grantedMin, b13) :- GetU64(b12);
    var (activeMin, b14) :- GetU64(b13);
    var (closed, b15) :- GetBool(b14);
    if Add64(bytesCompleted, bytesCancelled) > bytesCommitted then Bad(CORRUPT_STATE)
    else if CounterSum(counters) >= WRAP64 then Bad(CORRUPT_STATE)
    else Got(counters.(bytesRequested := bytesRequested, bytesCommitted := bytesCommitted,
                       bytesCompleted := bytesCompleted, bytesCancelled := bytesCancelled, grantedMin := grantedMin,
                       activeMin := activeMin, closed := closed), b15)
  }

  function CounterSum(a: StepAcc): nat {
    a.admitted + a.deferred + a.rejected + a.throttled + a.completed + a.cancelled + a.fenced
  }

  lemma StepAccRoundTrip(a: StepAcc, rest: bytes)
    requires StepAccFits(a) && Add64(a.bytesCompleted, a.bytesCancelled) <= a.bytesCommitted
    ensures ReadStepAcc(WriteStepAcc(a, rest)) == Got(a, rest)
  {
    hide PutU64, PutU32, PutBool, GetU64, GetU32, GetBool, Add64;
  }

  lemma StepAccRead(b: bytes)
    requires ReadStepAcc(b).Got?
    ensures var a := ReadStepAcc(b).value;
      && Add64(a.bytesCompleted, a.bytesCancelled) <= a.bytesCommitted < U64_LIMIT
      && a.bytesCompleted < U64_LIMIT && a.bytesCancelled < U64_LIMIT
  {
    hide GetU64, GetU32, GetBool, Add64;
  }

  predicate PhaseAccFits(a: PhaseAcc) {
    && a.admitted < U32_LIMIT && a.deferred < U32_LIMIT && a.rejected < U32_LIMIT && a.throttled < U32_LIMIT
    && a.completed < U32_LIMIT && a.cancelled < U32_LIMIT
    && a.bytesCommitted < U64_LIMIT && a.bytesCompleted < U64_LIMIT
  }

  function WritePhaseAcc(a: PhaseAcc, rest: bytes): bytes {
    PutU32(a.admitted, PutU32(a.deferred, PutU32(a.rejected, PutU32(a.throttled, PutU32(a.completed,
    PutU32(a.cancelled, PutU64(a.bytesCommitted, PutU64(a.bytesCompleted, rest))))))))
  }

  function ReadPhaseAcc(b: bytes): (r: Read<PhaseAcc>)
    ensures r.Got? ==> r.value.bytesCompleted <= r.value.bytesCommitted
  {
    var (admitted, b1) :- GetU32(b);
    var (deferred, b2) :- GetU32(b1);
    var (rejected, b3) :- GetU32(b2);
    var (throttled, b4) :- GetU32(b3);
    var (completed, b5) :- GetU32(b4);
    var (cancelled, b6) :- GetU32(b5);
    var (bytesCommitted, b7) :- GetU64(b6);
    var (bytesCompleted, b8) :- GetU64(b7);
    if bytesCompleted > bytesCommitted then Bad(CORRUPT_STATE)
    else Got(PhaseAcc(admitted, deferred, rejected, throttled, completed, cancelled, bytesCommitted, bytesCompleted), b8)
  }

  lemma PhaseAccRoundTrip(a: PhaseAcc, rest: bytes)
    requires PhaseAccFits(a) && a.bytesCompleted <= a.bytesCommitted
    ensures ReadPhaseAcc(WritePhaseAcc(a, rest)) == Got(a, rest)
  {
    hide PutU64, PutU32, GetU64, GetU32;
  }

  // ---------------------------------------------------------------------------
  // Fences
  // ---------------------------------------------------------------------------

  predicate FenceFits(f: Fence) {
    && f.at < U64_LIMIT && f.step < U64_LIMIT && f.phase < U64_LIMIT && f.intent < U64_LIMIT
    && f.observedIncarnation < U64_LIMIT && f.currentIncarnation < U64_LIMIT && f.observedEpoch < U64_LIMIT
    && f.currentEpoch < U64_LIMIT && f.sequence < U64_LIMIT
  }

  function WriteFence(f: Fence, rest: bytes): bytes {
    PutU16(f.reason, PutU64(f.at, PutU64(f.step, PutU64(f.phase, PutU64(f.intent, PutU64(f.observedIncarnation,
    PutU64(f.currentIncarnation, PutU64(f.observedEpoch, PutU64(f.currentEpoch, PutU64(f.sequence, rest))))))))))
  }

  function ReadFence(b: bytes): Read<Fence> {
    var (reason, b1) :- GetU16(b);
    var (at, b2) :- GetU64(b1);
    var (step, b3) :- GetU64(b2);
    var (phase, b4) :- GetU64(b3);
    var (intent, b5) :- GetU64(b4);
    var (observedIncarnation, b6) :- GetU64(b5);
    var (currentIncarnation, b7) :- GetU64(b6);
    var (observedEpoch, b8) :- GetU64(b7);
    var (currentEpoch, b9) :- GetU64(b8);
    var (sequence, b10) :- GetU64(b9);
    Got(Fence(reason, at, step, phase, intent, observedIncarnation, currentIncarnation, observedEpoch, currentEpoch,
              sequence), b10)
  }

  lemma FenceRoundTrip(f: Fence, rest: bytes)
    requires FenceFits(f)
    ensures ReadFence(WriteFence(f, rest)) == Got(f, rest)
  {
    hide PutU64, PutU16, GetU64, GetU16;
  }

  datatype FenceLog = FenceLog(fences: seq<Fence>, observed: nat)

  ghost predicate FenceLogFits(l: FenceLog) {
    l.observed < U64_LIMIT && |l.fences| <= MAX_FENCES && forall f :: f in l.fences ==> FenceFits(f)
  }

  function WriteFences(l: FenceLog, rest: bytes): bytes {
    PutU64(l.observed, PutU32(|l.fences|, PutMany(WriteFence, l.fences, rest)))
  }

  function FenceReader(): (seq<Fence>, bytes) -> Read<Fence> {
    (done: seq<Fence>, b: bytes) => ReadFence(b)
  }

  function ReadFences(b: bytes): Read<FenceLog> {
    var (observed, b1) :- GetU64(b);
    var (count, b2) :- GetCount(MAX_FENCES, b1);
    var (fences, b3) :- GetMany(FenceReader(), count, [], b2);
    Got(FenceLog(fences, observed), b3)
  }

  lemma FencesRoundTrip(l: FenceLog, rest: bytes)
    requires FenceLogFits(l)
    ensures ReadFences(WriteFences(l, rest)) == Got(l, rest)
  {
    hide PutU64, PutU32, GetU64, GetU32, WriteFence, ReadFence;
    forall i, r | 0 <= i < |l.fences|
      ensures FenceReader()([] + l.fences[..i], WriteFence(l.fences[i], r)) == Got(l.fences[i], r)
    {
      assert l.fences[i] in l.fences;
      FenceRoundTrip(l.fences[i], r);
    }
    ManyRoundTrip(WriteFence, FenceReader(), l.fences, l.fences, [], rest);
    assert [] + l.fences == l.fences;
  }

  // ---------------------------------------------------------------------------
  // Phases
  // ---------------------------------------------------------------------------

  predicate PhaseFits(p: Phase) {
    && p.id < U64_LIMIT && p.spec.group < U64_LIMIT && p.spec.deadlineAt < U64_LIMIT && p.spec.slack < U64_LIMIT
    && Text(p.spec.hint) && p.openedAt < U64_LIMIT && p.closedAt < U64_LIMIT
  }

  function WritePhase(p: Phase, rest: bytes): bytes {
    PutU64(p.id, PutName(PHASES, p.spec.cls, PutU64(p.spec.group, PutName(CRITICALITIES, p.spec.criticality,
    PutU64(p.spec.deadlineAt, PutU64(p.spec.slack, PutString(p.spec.hint, PutName(DISPOSITIONS, p.disposition,
    PutU64(p.openedAt, PutU64(p.closedAt, rest))))))))))
  }

  function ReadPhase(b: bytes): (r: Read<Phase>)
    ensures r.Got? ==> r.value.id != 0
  {
    var (id, b1) :- GetU64(b);
    if id == 0 then Bad(CORRUPT_STATE) else
    var (cls, b2) :- GetName(PHASES, b1);
    var (group, b3) :- GetU64(b2);
    var (criticality, b4) :- GetName(CRITICALITIES, b3);
    var (deadlineAt, b5) :- GetU64(b4);
    var (slack, b6) :- GetU64(b5);
    var (hint, b7) :- GetString(b6);
    var (disposition, b8) :- GetName(DISPOSITIONS, b7);
    var (openedAt, b9) :- GetU64(b8);
    var (closedAt, b10) :- GetU64(b9);
    Got(Phase(id, PhaseSpec(cls, group, criticality, deadlineAt, slack, hint), openedAt, closedAt, disposition), b10)
  }

  lemma PhaseRoundTrip(p: Phase, rest: bytes)
    requires PhaseFits(p) && p.id != 0
    ensures ReadPhase(WritePhase(p, rest)) == Got(p, rest)
  {
    hide PutU64, GetU64, PutString, GetString, PutName, GetName;
    PhaseNamed(p.spec.cls);
    SmallNamed(p.spec.criticality, p.disposition, Real);
    forall r {:trigger PutName(PHASES, p.spec.cls, r)}
      ensures GetName(PHASES, PutName(PHASES, p.spec.cls, r)) == Got(p.spec.cls, r)
    {
      NameRoundTrip(PHASES, p.spec.cls, r);
    }
    forall r {:trigger PutName(CRITICALITIES, p.spec.criticality, r)}
      ensures GetName(CRITICALITIES, PutName(CRITICALITIES, p.spec.criticality, r)) == Got(p.spec.criticality, r)
    {
      NameRoundTrip(CRITICALITIES, p.spec.criticality, r);
    }
    forall r {:trigger PutName(DISPOSITIONS, p.disposition, r)}
      ensures GetName(DISPOSITIONS, PutName(DISPOSITIONS, p.disposition, r)) == Got(p.disposition, r)
    {
      NameRoundTrip(DISPOSITIONS, p.disposition, r);
    }
  }

  // ---------------------------------------------------------------------------
  // Reports
  // ---------------------------------------------------------------------------

  predicate SummaryFits(p: PhaseSummary) {
    && p.id < U64_LIMIT && p.group < U64_LIMIT && p.openedAt < U64_LIMIT && p.closedAt < U64_LIMIT
    && p.admitted < U32_LIMIT && p.deferred < U32_LIMIT && p.rejected < U32_LIMIT && p.completed < U32_LIMIT
    && p.cancelled < U32_LIMIT && p.bytesCommitted < U64_LIMIT && p.bytesCompleted < U64_LIMIT
  }

  function WriteSummary(p: PhaseSummary, rest: bytes): bytes {
    PutU64(p.id, PutName(PHASES, p.cls, PutU64(p.group, PutName(CRITICALITIES, p.criticality,
    PutName(DISPOSITIONS, p.disposition, PutU64(p.openedAt, PutU64(p.closedAt, PutU32(p.admitted, PutU32(p.deferred,
    PutU32(p.rejected, PutU32(p.completed, PutU32(p.cancelled, PutU64(p.bytesCommitted,
    PutU64(p.bytesCompleted, rest))))))))))))))
  }

  function ReadSummaryTotals(p: PhaseSummary, b: bytes): Read<PhaseSummary> {
    var (admitted, b8) :- GetU32(b);
    var (deferred, b9) :- GetU32(b8);
    var (rejected, b10) :- GetU32(b9);
    var (completed, b11) :- GetU32(b10);
    var (cancelled, b12) :- GetU32(b11);
    var (bytesCommitted, b13) :- GetU64(b12);
    var (bytesCompleted, b14) :- GetU64(b13);
    if bytesCompleted > bytesCommitted then Bad(CORRUPT_STATE)
    else Got(p.(admitted := admitted, deferred := deferred, rejected := rejected, completed := completed,
                cancelled := cancelled, bytesCommitted := bytesCommitted, bytesCompleted := bytesCompleted), b14)
  }

  function ReadSummary(b: bytes): Read<PhaseSummary> {
    var (id, b1) :- GetU64(b);
    var (cls, b2) :- GetName(PHASES, b1);
    var (group, b3) :- GetU64(b2);
    var (criticality, b4) :- GetName(CRITICALITIES, b3);
    var (disposition, b5) :- GetName(DISPOSITIONS, b4);
    var (openedAt, b6) :- GetU64(b5);
    var (closedAt, b7) :- GetU64(b6);
    ReadSummaryTotals(
      PhaseSummary(id, cls, group, criticality, disposition, openedAt, closedAt, 0, 0, 0, 0, 0, 0, 0), b7)
  }

  lemma NamesRoundTrip(cls: PhaseClass, c: Criticality, d: Disposition)
    ensures forall r: bytes :: GetName(PHASES, PutName(PHASES, cls, r)) == Got(cls, r)
    ensures forall r: bytes :: GetName(CRITICALITIES, PutName(CRITICALITIES, c, r)) == Got(c, r)
    ensures forall r: bytes :: GetName(DISPOSITIONS, PutName(DISPOSITIONS, d, r)) == Got(d, r)
  {
    PhaseNamed(cls);
    SmallNamed(c, d, Real);
    forall r: bytes
      ensures GetName(PHASES, PutName(PHASES, cls, r)) == Got(cls, r)
      ensures GetName(CRITICALITIES, PutName(CRITICALITIES, c, r)) == Got(c, r)
      ensures GetName(DISPOSITIONS, PutName(DISPOSITIONS, d, r)) == Got(d, r)
    {
      NameRoundTrip(PHASES, cls, r);
      NameRoundTrip(CRITICALITIES, c, r);
      NameRoundTrip(DISPOSITIONS, d, r);
    }
  }

  lemma SummaryRoundTrip(p: PhaseSummary, rest: bytes)
    requires SummaryFits(p) && p.bytesCompleted <= p.bytesCommitted
    ensures ReadSummary(WriteSummary(p, rest)) == Got(p, rest)
  {
    hide PutU64, GetU64, PutU32, GetU32, PutName, GetName;
    NamesRoundTrip(p.cls, p.criticality, p.disposition);
  }

  ghost predicate ReportFits(r: Report) {
    && r.step < U64_LIMIT && r.jobGeneration < U64_LIMIT && r.openedAt < U64_LIMIT && r.closedAt < U64_LIMIT
    && |r.phases| <= MAX_PHASES && (forall p :: p in r.phases ==> SummaryFits(p) && p.bytesCompleted <= p.bytesCommitted)
    && StepAccFits(r.acc) && Settled(r.acc) && FenceLogFits(FenceLog(r.fences, r.fencesObserved))
  }

  /** Balanced, in the program's 64-bit arithmetic. */
  predicate Settled(a: StepAcc) {
    a.activeFlows == 0 && a.activeMin == 0 && a.bytesCommitted == Add64(a.bytesCompleted, a.bytesCancelled)
  }

  function WriteReport(r: Report, rest: bytes): bytes {
    PutU64(r.step, PutU64(r.jobGeneration, PutU64(r.openedAt, PutU64(r.closedAt, PutU32(|r.phases|,
    PutMany(WriteSummary, r.phases, WriteStepAcc(r.acc, WriteFences(FenceLog(r.fences, r.fencesObserved),
    PutBool(r.withCancellation, rest)))))))))
  }

  function SummaryReader(): (seq<PhaseSummary>, bytes) -> Read<PhaseSummary> {
    (done: seq<PhaseSummary>, b: bytes) => ReadSummary(b)
  }

  function ReadReport(b: bytes): Read<Report> {
    var (step, b1) :- GetU64(b);
    var (jobGeneration, b2) :- GetU64(b1);
    var (openedAt, b3) :- GetU64(b2);
    var (closedAt, b4) :- GetU64(b3);
    var (count, b5) :- GetCount(MAX_PHASES, b4);
    var (phases, b6) :- GetMany(SummaryReader(), count, [], b5);
    var (acc, b7) :- ReadStepAcc(b6);
    var (log, b8) :- ReadFences(b7);
    var (withCancellation, b9) :- GetBool(b8);
    if !Settled(acc) then Bad(CORRUPT_STATE)
    else Got(Report(step, jobGeneration, openedAt, closedAt, phases, acc, log.fences, log.observed, withCancellation), b9)
  }

  lemma SummariesRoundTrip(phases: seq<PhaseSummary>, rest: bytes)
    requires forall p :: p in phases ==> SummaryFits(p) && p.bytesCompleted <= p.bytesCommitted
    ensures GetMany(SummaryReader(), |phases|, [], PutMany(WriteSummary, phases, rest)) == Got(phases, rest)
  {
    hide WriteSummary, ReadSummary, SummaryFits;
    forall i, r | 0 <= i < |phases|
      ensures SummaryReader()([] + phases[..i], WriteSummary(phases[i], r)) == Got(phases[i], r)
    {
      assert phases[i] in phases;
      SummaryRoundTrip(phases[i], r);
    }
    ManyRoundTrip(WriteSummary, SummaryReader(), phases, phases, [], rest);
    assert [] + phases == phases;
  }

  lemma ReportRoundTrip(r: Report, rest: bytes)
    requires ReportFits(r)
    ensures ReadReport(WriteReport(r, rest)) == Got(r, rest)
  {
    hide PutU64, GetU64, PutU32, GetU32, PutBool, GetBool, WriteStepAcc, ReadStepAcc, WriteFences, ReadFences,
         PutMany, GetMany, Add64, StepAccFits, FenceLogFits, SummaryFits, WriteSummary;
    var log := FenceLog(r.fences, r.fencesObserved);
    var b8 := PutBool(r.withCancellation, rest);
    var b7 := WriteFences(log, b8);
    var b6 := WriteStepAcc(r.acc, b7);
    FencesRoundTrip(log, b8);
    StepAccRoundTrip(r.acc, b7);
    SummariesRoundTrip(r.phases, b6);
  }

  // ---------------------------------------------------------------------------
  // Policy
  // ---------------------------------------------------------------------------

  predicate SpecFits(s: ClassSpec) {
    && s.priority < U8_LIMIT && s.weight < U32_LIMIT && s.floor < U64_LIMIT && s.ceiling < U64_LIMIT
    && s.isolationCeiling < U64_LIMIT
  }

  function WriteSpec(s: ClassSpec, rest: bytes): bytes {
    PutName(SERVICES, s.cls, PutU8(s.priority, PutU32(s.weight, PutU64(s.floor, PutU64(s.ceiling,
    PutU64(s.isolationCeiling, PutBool(s.preemptible, PutBool(s.barrierCritical, PutBool(s.deferrable, rest)))))))))
  }

  function ReadSpec(b: bytes): Read<ClassSpec> {
    var (cls, b1) :- GetName(SERVICES, b);
    var (priority, b2) :- GetU8(b1);
    var (weight, b3) :- GetU32(b2);
    var (floor, b4) :- GetU64(b3);
    var (ceiling, b5) :- GetU64(b4);
    var (isolationCeiling, b6) :- GetU64(b5);
    var (preemptible, b7) :- GetBool(b6);
    var (barrierCritical, b8) :- GetBool(b7);
    var (deferrable, b9) :- GetBool(b8);
    Got(ClassSpec(cls, priority, weight, floor, ceiling, isolationCeiling, preemptible, barrierCritical, deferrable), b9)
  }

  lemma ServiceRoundTrip(c: ServiceClass)
    ensures forall r: bytes :: GetName(SERVICES, PutName(SERVICES, c, r)) == Got(c, r)
  {
    ServiceNamed(c);
    forall r: bytes ensures GetName(SERVICES, PutName(SERVICES, c, r)) == Got(c, r) {
      NameRoundTrip(SERVICES, c, r);
    }
  }

  lemma SpecRoundTrip(s: ClassSpec, rest: bytes)
    requires SpecFits(s)
    ensures ReadSpec(WriteSpec(s, rest)) == Got(s, rest)
  {
    hide PutU64, GetU64, PutU32, GetU32, PutU8, GetU8, PutBool, GetBool, PutName, GetName;
    ServiceRoundTrip(s.cls);
  }

  ghost predicate PolicyFits(p: Policy) {
    && p.generation < U64_LIMIT
    && |p.classes| <= SERVICE_CLASSES && (forall s :: s in p.classes ==> SpecFits(s))
    && p.unknownCeiling < U64_LIMIT && p.isolationPriority < U8_LIMIT && p.maxActiveFlows < U32_LIMIT
    && p.maxHistory < U32_LIMIT && p.maxClauses < U32_LIMIT && p.backoff < U64_LIMIT
  }

  function WriteService(c: ServiceClass, rest: bytes): bytes {
    PutName(SERVICES, c, rest)
  }

  function WriteLimits(p: Policy, rest: bytes): bytes {
    PutU64(p.unknownCeiling, PutU8(p.isolationPriority, PutBool(p.strict, PutBool(p.allowPreemption,
    PutU32(p.maxActiveFlows, PutU32(p.maxHistory, PutU32(p.maxClauses, PutU64(p.backoff, rest))))))))
  }

  function ReadLimits(p: Policy, b: bytes): Read<Policy> {
    var (unknownCeiling, b1) :- GetU64(b);
    var (isolationPriority, b2) :- GetU8(b1);
    var (strict, b3) :- GetBool(b2);
    var (allowPreemption, b4) :- GetBool(b3);
    var (maxActiveFlows, b5) :- GetU32(b4);
    var (maxHistory, b6) :- GetU32(b5);
    var (maxClauses, b7) :- GetU32(b6);
    var (backoff, b8) :- GetU64(b7);
    Got(p.(unknownCeiling := unknownCeiling, isolationPriority := isolationPriority, strict := strict,
           allowPreemption := allowPreemption, maxActiveFlows := maxActiveFlows, maxHistory := maxHistory,
           maxClauses := maxClauses, backoff := backoff), b8)
  }

  lemma LimitsRoundTrip(p: Policy, q: Policy, rest: bytes)
    requires PolicyFits(p) && q == p.(unknownCeiling := 0, isolationPriority := 0, strict := false,
      allowPreemption := false, maxActiveFlows := 0, maxHistory := 0, maxClauses := 0, backoff := 0)
    ensures ReadLimits(q, WriteLimits(p, rest)) == Got(p, rest)
  {
    hide PutU64, GetU64, PutU32, GetU32, PutU8, GetU8, PutBool, GetBool;
  }

  function WritePolicy(p: Policy, rest: bytes): bytes {
    PutU64(p.generation, PutMany(WriteService, p.phaseMap, PutU32(|p.classes|,
    PutMany(WriteSpec, p.classes, WriteLimits(p, rest)))))
  }

  function ServiceReader(): (seq<ServiceClass>, bytes) -> Read<ServiceClass> {
    (done: seq<ServiceClass>, b: bytes) => GetName(SERVICES, b)
  }

  function SpecReader(): (seq<ClassSpec>, bytes) -> Read<ClassSpec> {
    (done: seq<ClassSpec>, b: bytes) => ReadSpec(b)
  }

  /** A policy before its fields are read. */
  function Unread(generation: nat): Policy {
    Policy(generation, seq(PHASE_CLASSES, _ => UnknownService), [], 0, 0, false, false, 0, 0, 0, 0)
  }

  function ReadPhaseMap(p: Policy, b: bytes): Read<Policy> {
    var r := GetMany(ServiceReader(), |p.phaseMap|, [], b);
    if r.Bad? then Bad(r.error) else
    ManyRead(ServiceReader(), |p.phaseMap|, [], b);
    Got(p.(phaseMap := r.value), r.rest)
  }

  ghost function ReadPolicy(b: bytes): (r: Read<Policy>)
    ensures r.Got? ==> PolicyError(r.value) == OK
  {
    var (generation, b1) :- GetU64(b);
    var (mapped, b2) :- ReadPhaseMap(Unread(generation), b1);
    var (count, b3) :- GetCount(SERVICE_CLASSES, b2);
    var (classes, b4) :- GetMany(SpecReader(), count, [], b3);
    var (p, b5) :- ReadLimits(mapped.(classes := classes), b4);
    if PolicyError(p) != OK then Bad(PolicyError(p)) else Got(p, b5)
  }

  lemma PolicyRoundTrip(p: Policy, rest: bytes)
    requires PolicyFits(p) && PolicyError(p) == OK
    ensures ReadPolicy(WritePolicy(p, rest)) == Got(p, rest)
  {
    hide PutU64, GetU64, PutU32, GetU32, WriteLimits, ReadLimits, PutMany, GetMany, WriteSpec, ReadSpec, SpecFits,
         PolicyError, WriteService, PutName, GetName;
    var b4 := WriteLimits(p, rest);
    var b3 := PutMany(WriteSpec, p.classes, b4);
    LimitsRoundTrip(p, Unread(p.generation).(phaseMap := p.phaseMap, classes := p.classes), rest);
    SpecsRoundTrip(p.classes, b4);
    ServicesRoundTrip(p.phaseMap, PutU32(|p.classes|, b3));
  }

  lemma SpecsRoundTrip(classes: seq<ClassSpec>, rest: bytes)
    requires forall s :: s in classes ==> SpecFits(s)
    ensures GetMany(SpecReader(), |classes|, [], PutMany(WriteSpec, classes, rest)) == Got(classes, rest)
  {
    hide WriteSpec, ReadSpec, SpecFits;
    forall i, r | 0 <= i < |classes|
      ensures SpecReader()([] + classes[..i], WriteSpec(classes[i], r)) == Got(classes[i], r)
    {
      assert classes[i] in classes;
      SpecRoundTrip(classes[i], r);
    }
    ManyRoundTrip(WriteSpec, SpecReader(), classes, classes, [], rest);
    assert [] + classes == classes;
  }

  lemma ServicesRoundTrip(phaseMap: seq<ServiceClass>, rest: bytes)
    ensures GetMany(ServiceReader(), |phaseMap|, [], PutMany(WriteService, phaseMap, rest)) == Got(phaseMap, rest)
  {
    hide PutName, GetName;
    forall i, r | 0 <= i < |phaseMap|
      ensures ServiceReader()([] + phaseMap[..i], WriteService(phaseMap[i], r)) == Got(phaseMap[i], r)
    {
      ServiceRoundTrip(phaseMap[i]);
    }
    ManyRoundTrip(WriteService, ServiceReader(), phaseMap, phaseMap, [], rest);
    assert [] + phaseMap == phaseMap;
  }

  // ---------------------------------------------------------------------------
  // Groups, links, retired incarnations
  // ---------------------------------------------------------------------------

  predicate GroupFits(g: Group) {
    g.id < U64_LIMIT && g.members < U32_LIMIT && Text(g.name)
  }

  function WriteGroup(g: Group, rest: bytes): bytes {
    PutU64(g.id, PutName(KINDS, g.kind, PutU32(g.members, PutString(g.name, rest))))
  }

  /** A group in ascending order after those read so far. */
  function ReadGroup(done: seq<Group>, b: bytes): Read<Group> {
    var (id, b1) :- GetU64(b);
    var (kind, b2) :- GetName(KINDS, b1);
    var (members, b3) :- GetU32(b2);
    var (name, b4) :- GetString(b3);
    var g := Group(id, kind, members, name);
    if GroupError(g) != OK then Bad(GroupError(g))
    else if done != [] && done[|done| - 1].id >= id then Bad(CORRUPT_STATE)
    else Got(g, b4)
  }

  lemma GroupRoundTrip(done: seq<Group>, g: Group, rest: bytes)
    requires GroupFits(g) && GroupError(g) == OK && (done != [] ==> done[|done| - 1].id < g.id)
    ensures ReadGroup(done, WriteGroup(g, rest)) == Got(g, rest)
  {
    hide PutU64, GetU64, PutU32, GetU32, PutString, GetString, PutName, GetName, GroupError;
    KindNamed(g.kind);
    NameRoundTrip(KINDS, g.kind, PutU32(g.members, PutString(g.name, rest)));
  }

  predicate LinkFits(l: Link) {
    l.group < U64_LIMIT && l.capacity < U64_LIMIT && l.reserved < U64_LIMIT && Text(l.source)
  }

  function WriteLink(l: Link, rest: bytes): bytes {
    PutU64(l.group, PutU64(l.capacity, PutU64(l.reserved, PutName(LABELS, l.evidence, PutString(l.source, rest)))))
  }

  /** Evidence for a registered group, in ascending order after the links read so far. */
  function ReadLink(groups: set<nat>, done: seq<Link>, b: bytes): Read<Link> {
    var (group, b1) :- GetU64(b);
    var (capacity, b2) :- GetU64(b1);
    var (reserved, b3) :- GetU64(b2);
    var (evidence, b4) :- GetName(LABELS, b3);
    var (source, b5) :- GetString(b4);
    if group !in groups then Bad(CORRUPT_STATE)
    else if done != [] && done[|done| - 1].group >= group then Bad(CORRUPT_STATE)
    else Got(Link(group, capacity, reserved, evidence, source), b5)
  }

  lemma LinkRoundTrip(groups: set<nat>, done: seq<Link>, l: Link, rest: bytes)
    requires LinkFits(l) && l.group in groups && (done != [] ==> done[|done| - 1].group < l.group)
    ensures ReadLink(groups, done, WriteLink(l, rest)) == Got(l, rest)
  {
    hide PutU64, GetU64, PutString, GetString, PutName, GetName;
    SmallNamed(HardCriticality, Fenced, l.evidence);
    NameRoundTrip(LABELS, l.evidence, PutString(l.source, rest));
  }

  predicate RetiredFits(r: Retired) {
    r.incarnation < U64_LIMIT && r.boot.hi < U64_LIMIT && r.boot.lo < U64_LIMIT && r.at < U64_LIMIT
  }

  function WriteRetired(r: Retired, rest: bytes): bytes {
    PutU64(r.incarnation, PutU64(r.boot.hi, PutU64(r.boot.lo, PutU64(r.at, PutU16(r.cause, rest)))))
  }

  function ReadRetired(b: bytes): Read<Retired> {
    var (incarnation, b1) :- GetU64(b);
    var (hi, b2) :- GetU64(b1);
    var (lo, b3) :- GetU64(b2);
    var (at, b4) :- GetU64(b3);
    var (cause, b5) :- GetU16(b4);
    Got(Retired(incarnation, Boot(hi, lo), at, cause), b5)
  }

  lemma RetiredRoundTrip(r: Retired, rest: bytes)
    requires RetiredFits(r)
    ensures ReadRetired(WriteRetired(r, rest)) == Got(r, rest)
  {
    hide PutU64, GetU64, PutU16, GetU16;
  }
}
