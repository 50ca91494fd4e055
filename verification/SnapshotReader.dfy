/** The program's snapshot reader: a bounded cursor, counted loops, and a check after every record. Each
    method is proved to accept, refuse and yield exactly what the corresponding function does. */
module SnapshotReader {
  import opened Bytes
  import opened Results
  import opened Codec
  import opened Model
  import opened Policies
  import opened Listing
  import opened Records
  import opened OpenSteps
  import opened Durable
  import opened Snapshot

  method TakeName<T>(r: ByteReader, names: seq<T>) returns (v: Result<T>)
    requires r.Valid()
    modifies r
    ensures r.Valid() && r.Outcome(v, GetName(names, old(r.Remaining())))
  {
    var raw :- r.U8();
    if raw >= |names| {
      return Failure(BAD_ENCODING);
    }
    return Success(names[raw]);
  }

  method TakeContract(r: ByteReader) returns (v: Result<Contract>)
    requires r.Valid()
    modifies r
    ensures r.Valid() && r.Outcome(v, ReadContract(old(r.Remaining())))
  {
    hide GetU64, GetU32, GetString, GetBool, ContractError, ByteReader.Remaining;
    var generation :- r.U64();
    var name :- r.String();
    var maxGroups :- r.U32();
    var maxPhases :- r.U32();
    var maxIntents :- r.U32();
    var maxActiveFlows :- r.U32();
    var maxBytesPerStep :- r.U64();
    var maxBytesPerIntent :- r.U64();
    var historySteps :- r.U32();
    var allowUnknownPhase :- r.Flag();
    var c := Contract(generation, name, maxGroups, maxPhases, maxIntents, maxActiveFlows, maxBytesPerStep,
                      maxBytesPerIntent, historySteps, allowUnknownPhase);
    if ContractError(c) != OK {
      return Failure(ContractError(c));
    }
    return Success(c);
  }

  method TakeStepAcc(r: ByteReader) returns (v: Result<StepAcc>)
    requires r.Valid()
    modifies r
    ensures r.Valid() && r.Outcome(v, ReadStepAcc(old(r.Remaining())))
  {
    hide GetU64, GetU32, GetBool, ByteReader.Remaining, ReadCounters, Add64;
    var counters :- TakeCounters(r);
    var bytesRequested :- r.U64();
    var bytesCommitted :- r.U64();
    var bytesCompleted :- r.U64();
    var bytesCancelled :- r.U64();
    var grantedMin :- r.U64();
    var activeMin :- r.U64();
    var closed :- r.Flag();
    if Add64(bytesCompleted, bytesCancelled) > bytesCommitted {
      return Failure(CORRUPT_STATE);
    }
    if CounterSum(counters) >= WRAP64 {
      return Failure(CORRUPT_STATE);
    }
    return Success(counters.(bytesRequested := bytesRequested, bytesCommitted := bytesCommitted,
                             bytesCompleted := bytesCompleted, bytesCancelled := bytesCancelled,
                             grantedMin := grantedMin, activeMin := activeMin, closed := closed));
  }

  method TakeCounters(r: ByteReader) returns (v: Result<StepAcc>)
    requires r.Valid()
    modifies r
    ensures r.Valid() && r.Outcome(v, ReadCounters(old(r.Remaining())))
  {
    hide GetU32, ByteReader.Remaining;
    var admitted :- r.U32();
    var deferred :- r.U32();
    var rejected :- r.U32();
    var throttled :- r.U32();
    var completed :- r.U32();
    var cancelled :- r.U32();
    var fenced :- r.U32();
    var activeFlows :- r.U32();
    return Success(StepAcc(admitted, deferred, rejected, throttled, completed, cancelled, fenced, activeFlows,
                           0, 0, 0, 0, 0, 0, false));
  }

  method TakePhaseAcc(r: ByteReader) returns (v: Result<PhaseAcc>)
    requires r.Valid()
    modifies r
    ensures r.Valid() && r.Outcome(v, ReadPhaseAcc(old(r.Remaining())))
  {
    hide GetU32, GetU64, ByteReader.Remaining;
    var admitted :- r.U32();
    var deferred :- r.U32();
    var rejected :- r.U32();
    var throttled :- r.U32();
    var completed :- r.U32();
    var cancelled :- r.U32();
    var bytesCommitted :- r.U64();
    var bytesCompleted :- r.U64();
    if bytesCompleted > bytesCommitted {
      return Failure(CORRUPT_STATE);
    }
    return Success(PhaseAcc(admitted, deferred, rejected, throttled, completed, cancelled, bytesCommitted,
                            bytesCompleted));
  }

  method TakeFence(r: ByteReader) returns (v: Result<Fence>)
    requires r.Valid()
    modifies r
    ensures r.Valid() && r.Outcome(v, ReadFence(old(r.Remaining())))
  {
    hide GetU16, GetU64, ByteReader.Remaining;
    var reason :- r.U16();
    var at :- r.U64();
    var step :- r.U64();
    var phase :- r.U64();
    var intent :- r.U64();
    var observedIncarnation :- r.U64();
    var currentIncarnation :- r.U64();
    var observedEpoch :- r.U64();
    var currentEpoch :- r.U64();
    var sequence :- r.U64();
    return Success(Fence(reason, at, step, phase, intent, observedIncarnation, currentIncarnation, observedEpoch,
                         currentEpoch, sequence));
  }

  method TakeFences(r: ByteReader) returns (v: Result<FenceLog>)
    requires r.Valid()
    modifies r
    ensures r.Valid() && r.Outcome(v, ReadFences(old(r.Remaining())))
  {
    hide GetU64, GetU32, ReadFence, ByteReader.Remaining;
    var observed :- r.U64();
    var count :- r.Count(MAX_FENCES);
    var fences: seq<Fence> := [];
    ghost var whole := GetMany(FenceReader(), count, [], r.Remaining());
    var i := 0;
    while i < count
      invariant 0 <= i <= count && r.Valid()
      invariant GetMany(FenceReader(), count - i, fences, r.Remaining()) == whole
    {
      var fence :- TakeFence(r);
      fences := fences + [fence];
      i := i + 1;
    }
    return Success(FenceLog(fences, observed));
  }

  // ---------------------------------------------------------------------------
  // Phases and reports
  // ---------------------------------------------------------------------------

  method TakePhase(r: ByteReader) returns (v: Result<Phase>)
    requires r.Valid()
    modifies r
    ensures r.Valid() && r.Outcome(v, ReadPhase(old(r.Remaining())))
  {
    hide GetU64, GetString, GetName, ByteReader.Remaining;
    var id :- r.U64();
    if id == 0 {
      return Failure(CORRUPT_STATE);
    }
    var cls :- TakeName(r, PHASES);
    var group :- r.U64();
    var criticality :- TakeName(r, CRITICALITIES);
    var deadlineAt :- r.U64();
    var slack :- r.U64();
    var hint :- r.String();
    var disposition :- TakeName(r, DISPOSITIONS);
    var openedAt :- r.U64();
    var closedAt :- r.U64();
    return Success(Phase(id, PhaseSpec(cls, group, criticality, deadlineAt, slack, hint), openedAt, closedAt,
                         disposition));
  }

  method TakeSummary(r: ByteReader) returns (v: Result<PhaseSummary>)
    requires r.Valid()
    modifies r
    ensures r.Valid() && r.Outcome(v, ReadSummary(old(r.Remaining())))
  {
    hide GetU64, GetU32, GetName, ByteReader.Remaining, ReadSummaryTotals;
    var id :- r.U64();
    var cls :- TakeName(r, PHASES);
    var group :- r.U64();
    var criticality :- TakeName(r, CRITICALITIES);
    var disposition :- TakeName(r, DISPOSITIONS);
    var openedAt :- r.U64();
    var closedAt :- r.U64();
    v := TakeSummaryTotals(r,
      PhaseSummary(id, cls, group, criticality, disposition, openedAt, closedAt, 0, 0, 0, 0, 0, 0, 0));
  }

  method TakeSummaryTotals(r: ByteReader, p: PhaseSummary) returns (v: Result<PhaseSummary>)
    requires r.Valid()
    modifies r
    ensures r.Valid() && r.Outcome(v, ReadSummaryTotals(p, old(r.Remaining())))
  {
    hide GetU64, GetU32, ByteReader.Remaining;
    var admitted :- r.U32();
    var deferred :- r.U32();
    var rejected :- r.U32();
    var completed :- r.U32();
    var cancelled :- r.U32();
    var bytesCommitted :- r.U64();
    var bytesCompleted :- r.U64();
    if bytesCompleted > bytesCommitted {
      return Failure(CORRUPT_STATE);
    }
    return Success(p.(admitted := admitted, deferred := deferred, rejected := rejected, completed := completed,
                      cancelled := cancelled, bytesCommitted := bytesCommitted, bytesCompleted := bytesCompleted));
  }

  method TakeSummaries(r: ByteReader, count: nat) returns (v: Result<seq<PhaseSummary>>)
    requires r.Valid()
    modifies r
    ensures r.Valid() && r.Outcome(v, GetMany(SummaryReader(), count, [], old(r.Remaining())))
  {
    hide ReadSummary, ByteReader.Remaining;
    var items: seq<PhaseSummary> := [];
    ghost var whole := GetMany(SummaryReader(), count, [], r.Remaining());
    var i := 0;
    while i < count
      invariant 0 <= i <= count && r.Valid()
      invariant GetMany(SummaryReader(), count - i, items, r.Remaining()) == whole
    {
      var item :- TakeSummary(r);
      items := items + [item];
      i := i + 1;
    }
    return Success(items);
  }

  method TakeReport(r: ByteReader) returns (v: Result<Report>)
    requires r.Valid()
    modifies r
    ensures r.Valid() && r.Outcome(v, ReadReport(old(r.Remaining())))
  {
    hide GetU64, GetCount, GetBool, GetMany, ReadStepAcc, ReadFences, Settled, ByteReader.Remaining;
    var step :- r.U64();
    var jobGeneration :- r.U64();
    var openedAt :- r.U64();
    var closedAt :- r.U64();
    var count :- r.Count(MAX_PHASES);
    var phases :- TakeSummaries(r, count);
    var acc :- TakeStepAcc(r);
    var log :- TakeFences(r);
    var withCancellation :- r.Flag();
    if !Settled(acc) {
      return Failure(CORRUPT_STATE);
    }
    return Success(Report(step, jobGeneration, openedAt, closedAt, phases, acc, log.fences, log.observed,
                          withCancellation));
  }

  // ---------------------------------------------------------------------------
  // Policy
  // ---------------------------------------------------------------------------

  method TakeSpec(r: ByteReader) returns (v: Result<ClassSpec>)
    requires r.Valid()
    modifies r
    ensures r.Valid() && r.Outcome(v, ReadSpec(old(r.Remaining())))
  {
    hide GetU64, GetU32, GetU8, GetBool, GetName, ByteReader.Remaining;
    var cls :- TakeName(r, SERVICES);
    var priority :- r.U8();
    var weight :- r.U32();
    var floor :- r.U64();
    var ceiling :- r.U64();
    var isolationCeiling :- r.U64();
    var preemptible :- r.Flag();
    var barrierCritical :- r.Flag();
    var deferrable :- r.Flag();
    return Success(ClassSpec(cls, priority, weight, floor, ceiling, isolationCeiling, preemptible, barrierCritical,
                             deferrable));
  }

  method TakePhaseMap(r: ByteReader, p: Policy) returns (v: Result<Policy>)
    requires r.Valid()
    modifies r
    ensures r.Valid() && r.Outcome(v, ReadPhaseMap(p, old(r.Remaining())))
  {
    hide GetName, ByteReader.Remaining;
    var items: seq<ServiceClass> := [];
    var count := |p.phaseMap|;
    ghost var whole := GetMany(ServiceReader(), count, [], r.Remaining());
    var i := 0;
    while i < count
      invariant 0 <= i <= count && r.Valid() && |items| == i
      invariant GetMany(ServiceReader(), count - i, items, r.Remaining()) == whole
    {
      var item :- TakeName(r, SERVICES);
      items := items + [item];
      i := i + 1;
    }
    return Success(p.(phaseMap := items));
  }

  method TakeSpecs(r: ByteReader, count: nat) returns (v: Result<seq<ClassSpec>>)
    requires r.Valid()
    modifies r
    ensures r.Valid() && r.Outcome(v, GetMany(SpecReader(), count, [], old(r.Remaining())))
  {
    hide ReadSpec, ByteReader.Remaining;
    var items: seq<ClassSpec> := [];
    ghost var whole := GetMany(SpecReader(), count, [], r.Remaining());
    var i := 0;
    while i < count
      invariant 0 <= i <= count && r.Valid()
      invariant GetMany(SpecReader(), count - i, items, r.Remaining()) == whole
    {
      var item :- TakeSpec(r);
      items := items + [item];
      i := i + 1;
    }
    return Success(items);
  }

  method TakeLimits(r: ByteReader, p: Policy) returns (v: Result<Policy>)
    requires r.Valid()
    modifies r
    ensures r.Valid() && r.Outcome(v, ReadLimits(p, old(r.Remaining())))
  {
    hide GetU64, GetU32, GetU8, GetBool, ByteReader.Remaining;
    var unknownCeiling :- r.U64();
    var isolationPriority :- r.U8();
    var strict :- r.Flag();
    var allowPreemption :- r.Flag();
    var maxActiveFlows :- r.U32();
    var maxHistory :- r.U32();
    var maxClauses :- r.U32();
    var backoff :- r.U64();
    return Success(p.(unknownCeiling := unknownCeiling, isolationPriority := isolationPriority, strict := strict,
                      allowPreemption := allowPreemption, maxActiveFlows := maxActiveFlows, maxHistory := maxHistory,
                      maxClauses := maxClauses, backoff := backoff));
  }

  method TakePolicy(r: ByteReader) returns (v: Result<Policy>)
    requires r.Valid()
    modifies r
    ensures r.Valid() && r.Outcome(v, ReadPolicy(old(r.Remaining())))
  {
    hide GetU64, GetCount, GetMany, ReadPhaseMap, ReadLimits, PolicyError, ByteReader.Remaining;
    var generation :- r.U64();
    var mapped :- TakePhaseMap(r, Unread(generation));
    var count :- r.Count(SERVICE_CLASSES);
    var classes :- TakeSpecs(r, count);
    var p :- TakeLimits(r, mapped.(classes := classes));
    var error := ValidatePolicy(p);
    if error != OK {
      return Failure(error);
    }
    return Success(p);
  }

  // ---------------------------------------------------------------------------
  // Open steps
  // ---------------------------------------------------------------------------

  method TakeEntries(r: ByteReader, groups: set<nat>, count: nat) returns (v: Result<seq<Entry>>)
    requires r.Valid()
    modifies r
    ensures r.Valid() && r.Outcome(v, GetMany(EntryReader(groups), count, [], old(r.Remaining())))
  {
    hide ReadPhase, ReadPhaseAcc, ByteReader.Remaining;
    var items: seq<Entry> := [];
    ghost var whole := GetMany(EntryReader(groups), count, [], r.Remaining());
    var i := 0;
    while i < count
      invariant 0 <= i <= count && r.Valid()
      invariant GetMany(EntryReader(groups), count - i, items, r.Remaining()) == whole
    {
      var phase :- TakePhase(r);
      if phase.spec.group !in groups {
        return Failure(CORRUPT_STATE);
      }
      if items != [] && items[|items| - 1].phase.id >= phase.id {
        return Failure(CORRUPT_STATE);
      }
      var acc :- TakePhaseAcc(r);
      items := items + [OpenSteps.Entry(phase, acc.(bytesCommitted := acc.bytesCompleted))];
      i := i + 1;
    }
    return Success(items);
  }

  method TakeBurst(r: ByteReader) returns (v: Result<Option<Burst>>)
    requires r.Valid()
    modifies r
    ensures r.Valid() && r.Outcome(v, ReadBurst(old(r.Remaining())))
  {
    hide GetU64, GetU32, GetBool, GetString, ByteReader.Remaining;
    var has :- r.Flag();
    if !has {
      return Success(None);
    }
    var id :- r.U64();
    var group :- r.U64();
    var expectedBytes :- r.U64();
    var openedAt :- r.U64();
    var deadlineAt :- r.U64();
    var reason :- r.String();
    var displaced :- r.U32();
    var throttled :- r.U32();
    var active :- r.Flag();
    return Success(Some(Burst(id, group, expectedBytes, openedAt, deadlineAt, reason, displaced, throttled, active)));
  }

  method TakeStepHead(r: ByteReader) returns (v: Result<Step>)
    requires r.Valid()
    modifies r
    ensures r.Valid() && r.Outcome(v, ReadStepHead(old(r.Remaining())))
  {
    hide GetU64, ByteReader.Remaining;
    var id :- r.U64();
    if id == 0 {
      return Failure(CORRUPT_STATE);
    }
    var jobGeneration :- r.U64();
    var incarnation :- r.U64();
    var openedAt :- r.U64();
    var deadlineAt :- r.U64();
    var slack :- r.U64();
    return Success(Step(id, jobGeneration, incarnation, openedAt, deadlineAt, slack, map[], [], map[], map[], map[],
                        NO_STEP_ACC, [], 0, 0, None));
  }

  /** Fill the phase tables entry by entry. */
  method FillTables(head: Step, entries: seq<Entry>) returns (step: Step)
    ensures step == Filled(head, entries)
  {
    var ids := IdsOf(entries);
    var phases, accs, flows := map[], map[], map[];
    var i := |entries|;
    while i > 0
      invariant 0 <= i <= |entries|
      invariant phases == Table(ids[i..], PhasesOf(entries)[i..])
      invariant accs == Table(ids[i..], AccsOf(entries)[i..])
      invariant flows == Table(ids[i..], NoFlowsOf(entries)[i..])
    {
      i := i - 1;
      var e := entries[i];
      phases := phases[e.phase.id := e.phase];
      accs := accs[e.phase.id := e.acc];
      flows := flows[e.phase.id := 0];
    }
    assert ids[0..] == ids && PhasesOf(entries)[0..] == PhasesOf(entries);
    assert AccsOf(entries)[0..] == AccsOf(entries) && NoFlowsOf(entries)[0..] == NoFlowsOf(entries);
    return head.(phases := phases, phaseOrder := ids, phaseAcc := accs, phaseFlows := flows);
  }

  method TakeOpenStep(r: ByteReader, groups: set<nat>, epoch: nat) returns (v: Result<Step>)
    requires r.Valid()
    modifies r
    ensures r.Valid() && r.Outcome(v, ReadOpenStep(groups, epoch, old(r.Remaining())))
  {
    hide ReadStepHead, GetCount, GetMany, ReadStepTail, Reconcile, Filled, ByteReader.Remaining;
    var head :- TakeStepHead(r);
    var count :- r.Count(MAX_PHASES);
    var entries :- TakeEntries(r, groups, count);
    var filled := FillTables(head, entries);
    var step :- TakeStepTail(r, filled);
    return Success(Reconcile(step, epoch));
  }

  method TakeStepTail(r: ByteReader, step: Step) returns (v: Result<Step>)
    requires r.Valid()
    modifies r
    ensures r.Valid() && r.Outcome(v, ReadStepTail(step, old(r.Remaining())))
  {
    hide ReadStepAcc, ReadFences, GetU64, ReadBurst, ByteReader.Remaining;
    var acc :- TakeStepAcc(r);
    acc := acc.(activeFlows := 0, activeMin := 0);
    var log :- TakeFences(r);
    var intentsSeen :- r.U64();
    var burst :- TakeBurst(r);
    return Success(step.(acc := acc, fences := log.fences, fencesObserved := log.observed, intentsSeen := intentsSeen,
                         burst := burst));
  }

  // ---------------------------------------------------------------------------
  // Jobs
  // ---------------------------------------------------------------------------

  method TakeHead(r: ByteReader) returns (v: Result<Job>)
    requires r.Valid()
    modifies r
    ensures r.Valid() && r.Outcome(v, ReadHead(old(r.Remaining())))
  {
    hide GetU64, GetString, GetBool, ReadContract, ByteReader.Remaining;
    var id :- r.U64();
    if id == 0 {
      return Failure(CORRUPT_STATE);
    }
    var name :- r.String();
    var generation :- r.U64();
    if generation == 0 {
      return Failure(CORRUPT_STATE);
    }
    var incarnation :- r.U64();
    if incarnation == 0 {
      return Failure(CORRUPT_STATE);
    }
    var hi :- r.U64();
    var lo :- r.U64();
    if !Boot(hi, lo).Valid() {
      return Failure(CORRUPT_STATE);
    }
    var epoch :- r.U64();
    var retired :- r.Flag();
    var contract :- TakeContract(r);
    return Success(Bare(id, name, generation, contract, incarnation, Boot(hi, lo), epoch, retired));
  }

  method TakeGroups(r: ByteReader, job: Job) returns (v: Result<Job>)
    requires r.Valid()
    modifies r
    ensures r.Valid() && r.Outcome(v, ReadGroups(job, old(r.Remaining())))
  {
    hide GetU64, GetU32, GetString, GetName, GroupError, WithGroups, ByteReader.Remaining;
    var count :- r.Count(MAX_GROUPS);
    if count > job.contract.maxGroups {
      return Failure(CORRUPT_STATE);
    }
    var items: seq<Group> := [];
    ghost var whole := GetMany(GroupReader(), count, [], r.Remaining());
    var i := 0;
    while i < count
      invariant 0 <= i <= count && r.Valid()
      invariant GetMany(GroupReader(), count - i, items, r.Remaining()) == whole
    {
      var id :- r.U64();
      var kind :- TakeName(r, KINDS);
      var members :- r.U32();
      var name :- r.String();
      var g := Group(id, kind, members, name);
      if GroupError(g) != OK {
        return Failure(GroupError(g));
      }
      if items != [] && items[|items| - 1].id >= id {
        return Failure(CORRUPT_STATE);
      }
      items := items + [g];
      i := i + 1;
    }
    return Success(WithGroups(job, items));
  }

  method TakeTopology(r: ByteReader, job: Job) returns (v: Result<Job>)
    requires r.Valid()
    modifies r
    ensures r.Valid() && r.Outcome(v, ReadTopology(job, old(r.Remaining())))
  {
    hide GetU64, GetString, GetName, GetU32, FirstLinkError, ByteReader.Remaining;
    var generation :- r.U64();
    var evidence :- TakeName(r, LABELS);
    var count :- r.Count(MAX_COLLECTION_ITEMS);
    var links: seq<Link> := [];
    ghost var whole := GetMany(LinkReader(job.groups.Keys), count, [], r.Remaining());
    var i := 0;
    while i < count
      invariant 0 <= i <= count && r.Valid()
      invariant GetMany(LinkReader(job.groups.Keys), count - i, links, r.Remaining()) == whole
    {
      var group :- r.U64();
      var capacity :- r.U64();
      var reserved :- r.U64();
      var evidenceLabel :- TakeName(r, LABELS);
      var source :- r.String();
      if group !in job.groups {
        return Failure(CORRUPT_STATE);
      }
      if links != [] && links[|links| - 1].group >= group {
        return Failure(CORRUPT_STATE);
      }
      links := links + [Link(group, capacity, reserved, evidenceLabel, source)];
      i := i + 1;
    }
    if generation != 0 || links != [] {
      if generation == 0 {
        return Failure(INVALID_ARGUMENT);
      }
      var error := ValidateLinks(links);
      if error != OK {
        return Failure(error);
      }
    }
    return Success(job.(topology := Topology(generation, evidence, links)));
  }

  method TakeRetirements(r: ByteReader, job: Job) returns (v: Result<Job>)
    requires r.Valid()
    modifies r
    ensures r.Valid() && r.Outcome(v, ReadRetirements(job, old(r.Remaining())))
  {
    hide GetU64, GetU16, GetU32, ByteReader.Remaining;
    var count :- r.Count(MAX_RETIRED);
    var list: seq<Retired> := [];
    var incarnations: set<nat> := {};
    ghost var whole := GetMany(RetiredReader(), count, [], r.Remaining());
    var i := 0;
    while i < count
      invariant 0 <= i <= count && r.Valid()
      invariant incarnations == IncarnationsOf(list)
      invariant GetMany(RetiredReader(), count - i, list, r.Remaining()) == whole
    {
      var incarnation :- r.U64();
      var hi :- r.U64();
      var lo :- r.U64();
      var at :- r.U64();
      var cause :- r.U16();
      incarnations := incarnations + {incarnation};
      list := list + [Retired(incarnation, Boot(hi, lo), at, cause)];
      i := i + 1;
    }
    return Success(job.(retiredList := list, retiredSet := incarnations));
  }

  method TakeSteps(r: ByteReader, job: Job) returns (v: Result<Job>)
    requires r.Valid()
    modifies r
    ensures r.Valid() && r.Outcome(v, ReadSteps(job, old(r.Remaining())))
  {
    hide GetU64, GetBool, ReadOpenStep, ByteReader.Remaining;
    var highest :- r.U64();
    var lastClosed :- r.U64();
    if lastClosed > highest {
      return Failure(CORRUPT_STATE);
    }
    var stepOpen :- r.Flag();
    if !stepOpen {
      return Success(job.(highestStep := highest, lastClosedStep := lastClosed, step := None));
    }
    var step :- TakeOpenStep(r, job.groups.Keys, job.epoch);
    if step.id > highest {
      return Failure(CORRUPT_STATE);
    }
    return Success(job.(highestStep := highest, lastClosedStep := lastClosed, step := Some(step)));
  }

  method TakeHistory(r: ByteReader, job: Job) returns (v: Result<Job>)
    requires r.Valid()
    modifies r
    ensures r.Valid() && r.Outcome(v, ReadHistory(job, old(r.Remaining())))
  {
    hide GetU32, ReadReport, ByteReader.Remaining;
    var count :- r.Count(MAX_HISTORY);
    var history: seq<Report> := [];
    ghost var whole := GetMany(ReportReader(), count, [], r.Remaining());
    var i := 0;
    while i < count
      invariant 0 <= i <= count && r.Valid()
      invariant GetMany(ReportReader(), count - i, history, r.Remaining()) == whole
    {
      var report :- TakeReport(r);
      if history != [] && history[|history| - 1].step >= report.step {
        return Failure(CORRUPT_STATE);
      }
      history := history + [report];
      i := i + 1;
    }
    if |history| > job.contract.historySteps {
      return Failure(CORRUPT_STATE);
    }
    return Success(job.(history := history));
  }

  method TakeAllocators(r: ByteReader, job: Job) returns (v: Result<Job>)
    requires r.Valid()
    modifies r
    ensures r.Valid() && r.Outcome(v, ReadAllocators(job, old(r.Remaining())))
  {
    hide GetU64, ByteReader.Remaining;
    var intent :- r.U64();
    var phase :- r.U64();
    var burst :- r.U64();
    var incarnation :- r.U64();
    var topology :- r.U64();
    if intent == 0 || phase == 0 || burst == 0 || incarnation <= job.incarnation || topology == 0 {
      return Failure(CORRUPT_STATE);
    }
    if topology <= job.topology.generation {
      return Failure(CORRUPT_STATE);
    }
    return Success(job.(ids := Allocators(intent, phase, burst, incarnation, topology)));
  }

  method TakeJob(r: ByteReader) returns (v: Result<Job>)
    requires r.Valid()
    modifies r
    ensures r.Valid() && r.Outcome(v, ReadJob(old(r.Remaining())))
  {
    hide ReadHead, ReadGroups, ReadTopology, ReadRetirements, ReadSteps, ReadHistory, ReadAllocators,
         ByteReader.Remaining;
    var job :- TakeHead(r);
    job :- TakeGroups(r, job);
    job :- TakeTopology(r, job);
    job :- TakeRetirements(r, job);
    job :- TakeSteps(r, job);
    job :- TakeHistory(r, job);
    v := TakeAllocators(r, job);
  }

  // ---------------------------------------------------------------------------
  // The state
  // ---------------------------------------------------------------------------

  method TakeJobList(r: ByteReader, count: nat) returns (v: Result<seq<Job>>)
    requires r.Valid()
    modifies r
    ensures r.Valid() && r.Outcome(v, GetMany(JobReader(), count, [], old(r.Remaining())))
  {
    hide ReadJob, ByteReader.Remaining;
    var jobs: seq<Job> := [];
    ghost var whole := GetMany(JobReader(), count, [], r.Remaining());
    var i := 0;
    while i < count
      invariant 0 <= i <= count && r.Valid()
      invariant GetMany(JobReader(), count - i, jobs, r.Remaining()) == whole
    {
      var job :- TakeJob(r);
      if jobs != [] && jobs[|jobs| - 1].id >= job.id {
        return Failure(CORRUPT_STATE);
      }
      jobs := jobs + [job];
      i := i + 1;
    }
    return Success(jobs);
  }

  method TakeJobs(r: ByteReader, s: State) returns (v: Result<State>)
    requires r.Valid()
    modifies r
    ensures r.Valid() && r.Outcome(v, ReadJobs(s, old(r.Remaining())))
  {
    hide GetCount, GetMany, GetU32, Table, PastAll;
    var count :- r.Count(s.config.maxJobs);
    var jobs :- TakeJobList(r, count);
    var trailer :- r.U32();
    if trailer != STATE_TRAILER {
      return Failure(CORRUPT_STATE);
    }
    if r.offset != |r.data| {
      return Failure(TRAILING_GARBAGE);
    }
    return Success(s.(jobs := Table(IdsOfJobs(jobs), jobs), nextJob := PastAll(s.nextJob, jobs)));
  }

  method TakeState(r: ByteReader, config: Config) returns (v: Result<State>)
    requires r.Valid()
    modifies r
    ensures r.Valid() && r.Outcome(v, ReadState(config, old(r.Remaining())))
  {
    hide GetU32, GetU16, GetU64, ReadPolicy, ReadJobs, ByteReader.Remaining;
    var magic :- r.U32();
    if magic != STATE_MAGIC {
      return Failure(CORRUPT_STATE);
    }
    var format :- r.U16();
    if format != STATE_FORMAT {
      return Failure(INCOMPATIBLE_STATE);
    }
    var reserved :- r.U16();
    if reserved != 0 {
      return Failure(CORRUPT_STATE);
    }
    var now :- r.U64();
    var policy :- TakePolicy(r);
    var nextJob :- r.U64();
    if nextJob == 0 {
      return Failure(CORRUPT_STATE);
    }
    v := TakeJobs(r, State(config, now, policy, map[], nextJob));
  }

  /** Restore a state from bytes of any origin. */
  method DeserializeState(config: Config, b: bytes) returns (v: Result<State>)
    ensures v == Deserialize(config, b)
  {
    hide ReadState, ByteReader.Remaining;
    if b == [] {
      return Failure(PARTIAL_STATE);
    }
    if |b| > MAX_SNAPSHOT_BYTES {
      return Failure(STATE_TOO_LARGE);
    }
    var r := new ByteReader(b);
    v := TakeState(r, config);
  }
}
