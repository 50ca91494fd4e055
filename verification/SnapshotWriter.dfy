/** The program's snapshot writer: appends to a bounded buffer, record by record, loop by loop. Each
    method is proved to write exactly the bytes of the corresponding function, or to leave the writer
    refused because the whole does not fit. */
module SnapshotWriter {
  import opened Bytes
  import opened Results
  import opened Codec
  import opened Model
  import opened Order
  import opened Policies
  import opened Traffic
  import opened Listing
  import opened Records
  import opened OpenSteps
  import opened Snapshot
  import opened Limits

  // ---------------------------------------------------------------------------
  // Records
  // ---------------------------------------------------------------------------

  lemma ManyStep<T(!new)>(write: (T, bytes) -> bytes, items: seq<T>, i: nat)
    requires i < |items|
    ensures forall tail :: PutMany(write, items[i..], tail) == write(items[i], PutMany(write, items[i + 1..], tail))
  {
    assert items[i..][0] == items[i] && items[i..][1..] == items[i + 1..];
  }

  lemma ManyEnds<T(!new)>(write: (T, bytes) -> bytes, items: seq<T>)
    ensures items[0..] == items
    ensures forall tail :: PutMany(write, items[|items|..], tail) == tail
  {}

  method PutLabelled<T(==)>(w: ByteWriter, names: seq<T>, v: T)
    requires v in names && |names| <= U8_LIMIT
    modifies w
    ensures forall tail, total :: old(w.Pending(PutName(names, v, tail), total)) ==> w.Pending(tail, total)
  {
    w.U8(Code(names, v));
  }

  method PutContract(w: ByteWriter, c: Contract)
    requires ContractFits(c)
    modifies w
    ensures forall tail, total :: old(w.Pending(WriteContract(c, tail), total)) ==> w.Pending(tail, total)
  {
    hide PutU64, PutU32, PutString, PutBool, ByteWriter.Pending;
    TextIsShort(c.name);
    w.U64(c.generation);
    w.Text(c.name);
    w.U32(c.maxGroups);
    w.U32(c.maxPhases);
    w.U32(c.maxIntents);
    w.U32(c.maxActiveFlows);
    w.U64(c.maxBytesPerStep);
    w.U64(c.maxBytesPerIntent);
    w.U32(c.historySteps);
    w.Flag(c.allowUnknownPhase);
  }

  lemma TextIsShort(t: bytes)
    requires Text(t)
    ensures |t| <= MAX_STRING_BYTES
  {}

  method PutStepAcc(w: ByteWriter, a: StepAcc)
    requires StepAccFits(a)
    modifies w
    ensures forall tail, total :: old(w.Pending(WriteStepAcc(a, tail), total)) ==> w.Pending(tail, total)
  {
    hide PutU64, PutU32, PutBool, ByteWriter.Pending;
    w.U32(a.admitted);
    w.U32(a.deferred);
    w.U32(a.rejected);
    w.U32(a.throttled);
    w.U32(a.completed);
    w.U32(a.cancelled);
    w.U32(a.fenced);
    w.U32(a.activeFlows);
    w.U64(a.bytesRequested);
    w.U64(a.bytesCommitted);
    w.U64(a.bytesCompleted);
    w.U64(a.bytesCancelled);
    w.U64(a.grantedMin);
    w.U64(a.activeMin);
    w.Flag(a.closed);
  }

  method PutPhaseAcc(w: ByteWriter, a: PhaseAcc)
    requires PhaseAccFits(a)
    modifies w
    ensures forall tail, total :: old(w.Pending(WritePhaseAcc(a, tail), total)) ==> w.Pending(tail, total)
  {
    hide PutU64, PutU32, ByteWriter.Pending;
    w.U32(a.admitted);
    w.U32(a.deferred);
    w.U32(a.rejected);
    w.U32(a.throttled);
    w.U32(a.completed);
    w.U32(a.cancelled);
    w.U64(a.bytesCommitted);
    w.U64(a.bytesCompleted);
  }

  method PutFence(w: ByteWriter, f: Fence)
    requires FenceFits(f)
    modifies w
    ensures forall tail, total :: old(w.Pending(WriteFence(f, tail), total)) ==> w.Pending(tail, total)
  {
    hide PutU64, PutU16, ByteWriter.Pending;
    w.U16(f.reason);
    w.U64(f.at);
    w.U64(f.step);
    w.U64(f.phase);
    w.U64(f.intent);
    w.U64(f.observedIncarnation);
    w.U64(f.currentIncarnation);
    w.U64(f.observedEpoch);
    w.U64(f.currentEpoch);
    w.U64(f.sequence);
  }

  method PutEachFence(w: ByteWriter, items: seq<Fence>)
    requires forall f :: f in items ==> FenceFits(f)
    modifies w
    ensures forall tail, total :: old(w.Pending(PutMany(WriteFence, items, tail), total)) ==> w.Pending(tail, total)
  {
    hide PutMany, WriteFence, FenceFits, ByteWriter.Pending;
    ManyEnds(WriteFence, items);
    var i := 0;
    while i < |items|
      invariant 0 <= i <= |items|
      invariant forall tail, total :: old(w.Pending(PutMany(WriteFence, items, tail), total)) ==>
        w.Pending(PutMany(WriteFence, items[i..], tail), total)
    {
      ManyStep(WriteFence, items, i);
      assert items[i] in items;
      PutFence(w, items[i]);
      i := i + 1;
    }
  }

  method PutFences(w: ByteWriter, l: FenceLog)
    requires FencesHeld(l)
    modifies w
    ensures forall tail, total :: old(w.Pending(WriteFences(l, tail), total)) ==> w.Pending(tail, total)
  {
    hide PutU64, PutU32, PutMany, WriteFence, FenceFits, ByteWriter.Pending;
    w.U64(l.observed);
    w.U32(|l.fences|);
    PutEachFence(w, l.fences);
  }

  method PutPhase(w: ByteWriter, p: Phase)
    requires PhaseFits(p)
    modifies w
    ensures forall tail, total :: old(w.Pending(WritePhase(p, tail), total)) ==> w.Pending(tail, total)
  {
    hide PutU64, PutString, PutName, ByteWriter.Pending;
    TextIsShort(p.spec.hint);
    PhaseNamed(p.spec.cls);
    SmallNamed(p.spec.criticality, p.disposition, Real);
    w.U64(p.id);
    PutLabelled(w, PHASES, p.spec.cls);
    w.U64(p.spec.group);
    PutLabelled(w, CRITICALITIES, p.spec.criticality);
    w.U64(p.spec.deadlineAt);
    w.U64(p.spec.slack);
    w.Text(p.spec.hint);
    PutLabelled(w, DISPOSITIONS, p.disposition);
    w.U64(p.openedAt);
    w.U64(p.closedAt);
  }

  method PutSummary(w: ByteWriter, p: PhaseSummary)
    requires SummaryFits(p)
    modifies w
    ensures forall tail, total :: old(w.Pending(WriteSummary(p, tail), total)) ==> w.Pending(tail, total)
  {
    hide PutU64, PutU32, PutName, ByteWriter.Pending;
    PhaseNamed(p.cls);
    SmallNamed(p.criticality, p.disposition, Real);
    w.U64(p.id);
    PutLabelled(w, PHASES, p.cls);
    w.U64(p.group);
    PutLabelled(w, CRITICALITIES, p.criticality);
    PutLabelled(w, DISPOSITIONS, p.disposition);
    w.U64(p.openedAt);
    w.U64(p.closedAt);
    w.U32(p.admitted);
    w.U32(p.deferred);
    w.U32(p.rejected);
    w.U32(p.completed);
    w.U32(p.cancelled);
    w.U64(p.bytesCommitted);
    w.U64(p.bytesCompleted);
  }

  method PutReport(w: ByteWriter, r: Report)
    requires ReportHeld(r)
    modifies w
    ensures forall tail, total :: old(w.Pending(WriteReport(r, tail), total)) ==> w.Pending(tail, total)
  {
    hide PutU64, PutU32, PutBool, PutMany, WriteSummary, SummaryFits, WriteStepAcc, StepAccFits, Settled, WriteFences,
         FencesHeld, ByteWriter.Pending;
    w.U64(r.step);
    w.U64(r.jobGeneration);
    w.U64(r.openedAt);
    w.U64(r.closedAt);
    w.U32(|r.phases|);
    PutEachSummary(w, r.phases);
    PutStepAcc(w, r.acc);
    PutFences(w, FenceLog(r.fences, r.fencesObserved));
    w.Flag(r.withCancellation);
  }

  method PutEachSummary(w: ByteWriter, items: seq<PhaseSummary>)
    requires forall p :: p in items ==> SummaryFits(p)
    modifies w
    ensures forall tail, total :: old(w.Pending(PutMany(WriteSummary, items, tail), total)) ==> w.Pending(tail, total)
  {
    hide PutMany, WriteSummary, SummaryFits, ByteWriter.Pending;
    ManyEnds(WriteSummary, items);
    var i := 0;
    while i < |items|
      invariant 0 <= i <= |items|
      invariant forall tail, total :: old(w.Pending(PutMany(WriteSummary, items, tail), total)) ==>
        w.Pending(PutMany(WriteSummary, items[i..], tail), total)
    {
      ManyStep(WriteSummary, items, i);
      assert items[i] in items;
      PutSummary(w, items[i]);
      i := i + 1;
    }
  }

  method PutSpec(w: ByteWriter, s: ClassSpec)
    requires SpecFits(s)
    modifies w
    ensures forall tail, total :: old(w.Pending(WriteSpec(s, tail), total)) ==> w.Pending(tail, total)
  {
    hide PutU64, PutU32, PutU8, PutBool, PutName, ByteWriter.Pending;
    ServiceNamed(s.cls);
    PutLabelled(w, SERVICES, s.cls);
    w.U8(s.priority);
    w.U32(s.weight);
    w.U64(s.floor);
    w.U64(s.ceiling);
    w.U64(s.isolationCeiling);
    w.Flag(s.preemptible);
    w.Flag(s.barrierCritical);
    w.Flag(s.deferrable);
  }

  method PutPolicy(w: ByteWriter, p: Policy)
    requires PolicyHeld(p)
    modifies w
    ensures forall tail, total :: old(w.Pending(WritePolicy(p, tail), total)) ==> w.Pending(tail, total)
  {
    hide PutU64, PutU32, PutU8, PutBool, PutMany, WriteService, WriteSpec, SpecFits, ByteWriter.Pending;
    w.U64(p.generation);
    PutEachService(w, p.phaseMap);
    w.U32(|p.classes|);
    PutEachSpec(w, p.classes);
    w.U64(p.unknownCeiling);
    w.U8(p.isolationPriority);
    w.Flag(p.strict);
    w.Flag(p.allowPreemption);
    w.U32(p.maxActiveFlows);
    w.U32(p.maxHistory);
    w.U32(p.maxClauses);
    w.U64(p.backoff);
  }

  method PutEachService(w: ByteWriter, items: seq<ServiceClass>)
    modifies w
    ensures forall tail, total :: old(w.Pending(PutMany(WriteService, items, tail), total)) ==> w.Pending(tail, total)
  {
    hide PutMany, PutName, ByteWriter.Pending;
    ManyEnds(WriteService, items);
    var i := 0;
    while i < |items|
      invariant 0 <= i <= |items|
      invariant forall tail, total :: old(w.Pending(PutMany(WriteService, items, tail), total)) ==>
        w.Pending(PutMany(WriteService, items[i..], tail), total)
    {
      ManyStep(WriteService, items, i);
      ServiceNamed(items[i]);
      PutLabelled(w, SERVICES, items[i]);
      i := i + 1;
    }
  }

  method PutEachSpec(w: ByteWriter, items: seq<ClassSpec>)
    requires forall s :: s in items ==> SpecFits(s)
    modifies w
    ensures forall tail, total :: old(w.Pending(PutMany(WriteSpec, items, tail), total)) ==> w.Pending(tail, total)
  {
    hide PutMany, WriteSpec, SpecFits, ByteWriter.Pending;
    ManyEnds(WriteSpec, items);
    var i := 0;
    while i < |items|
      invariant 0 <= i <= |items|
      invariant forall tail, total :: old(w.Pending(PutMany(WriteSpec, items, tail), total)) ==>
        w.Pending(PutMany(WriteSpec, items[i..], tail), total)
    {
      ManyStep(WriteSpec, items, i);
      assert items[i] in items;
      PutSpec(w, items[i]);
      i := i + 1;
    }
  }

  // ---------------------------------------------------------------------------
  // Open steps
  // ---------------------------------------------------------------------------

  method PutEntry(w: ByteWriter, e: Entry)
    requires PhaseFits(e.phase) && PhaseAccFits(e.acc)
    modifies w
    ensures forall tail, total :: old(w.Pending(WriteEntry(e, tail), total)) ==> w.Pending(tail, total)
  {
    hide WritePhase, WritePhaseAcc, PhaseFits, PhaseAccFits, ByteWriter.Pending;
    PutPhase(w, e.phase);
    PutPhaseAcc(w, e.acc);
  }

  method PutEachEntry(w: ByteWriter, items: seq<Entry>)
    requires forall e :: e in items ==> PhaseFits(e.phase) && PhaseAccFits(e.acc)
    modifies w
    ensures forall tail, total :: old(w.Pending(PutMany(WriteEntry, items, tail), total)) ==> w.Pending(tail, total)
  {
    hide PutMany, WriteEntry, PhaseFits, PhaseAccFits, ByteWriter.Pending;
    ManyEnds(WriteEntry, items);
    var i := 0;
    while i < |items|
      invariant 0 <= i <= |items|
      invariant forall tail, total :: old(w.Pending(PutMany(WriteEntry, items, tail), total)) ==>
        w.Pending(PutMany(WriteEntry, items[i..], tail), total)
    {
      ManyStep(WriteEntry, items, i);
      assert items[i] in items;
      PutEntry(w, items[i]);
      i := i + 1;
    }
  }

  method PutBurst(w: ByteWriter, burst: Option<Burst>)
    requires burst.Some? ==> BurstFits(burst.value)
    modifies w
    ensures forall tail, total :: old(w.Pending(WriteBurst(burst, tail), total)) ==> w.Pending(tail, total)
  {
    hide PutU64, PutU32, PutBool, PutString, ByteWriter.Pending;
    match burst
    case None => w.Flag(false);
    case Some(b) =>
      TextIsShort(b.reason);
      w.Flag(true);
      w.U64(b.id);
      w.U64(b.group);
      w.U64(b.expectedBytes);
      w.U64(b.openedAt);
      w.U64(b.deadlineAt);
      w.Text(b.reason);
      w.U32(b.displaced);
      w.U32(b.throttled);
      w.Flag(b.active);
  }

  /** Collect the recorded phases in sorted order, looking each up in the phase tables. */
  method CollectEntries(step: Step) returns (r: seq<Entry>)
    ensures r == Entries(step)
  {
    hide SortedIds;
    var ids := SortIds(set k | k in step.phaseOrder && k in step.phases);
    SortedIdsMembers(set k | k in step.phaseOrder && k in step.phases);
    r := [];
    var i := 0;
    while i < |ids|
      invariant 0 <= i <= |ids| && |r| == i
      invariant forall j :: 0 <= j < i ==> ids[j] in step.phases && r[j] == EntryTable(step)[ids[j]]
    {
      assert ids[i] in ids;
      r := r + [OpenSteps.Entry(step.phases[ids[i]], PhaseAccOf(step, ids[i]))];
      i := i + 1;
    }
  }

  /** The open step, with its volatile commitment released. */
  method PutOpenStep(w: ByteWriter, step: Step)
    requires StepHeld(step)
    modifies w
    ensures forall tail, total :: old(w.Pending(WriteOpenStep(step, tail), total)) ==> w.Pending(tail, total)
  {
    hide PutU64, PutU32, PutMany, Entries, WriteStepAcc, WriteFences, WriteBurst, StepAccFits, FencesHeld, BurstFits,
         PhaseFits, PhaseAccFits, WriteEntry, ByteWriter.Pending;
    w.U64(step.id);
    w.U64(step.jobGeneration);
    w.U64(step.incarnation);
    w.U64(step.openedAt);
    w.U64(step.deadlineAt);
    w.U64(step.slack);
    var entries := CollectEntries(step);
    w.U32(|entries|);
    PutEachEntry(w, entries);
    var normalized := step.acc;
    normalized := normalized.(activeFlows := 0, activeMin := 0);
    normalized := normalized.(bytesCommitted := Add64(normalized.bytesCompleted, normalized.bytesCancelled));
    NormalizedFits(step.acc);
    PutStepAcc(w, normalized);
    PutFences(w, FenceLog(step.fences, step.fencesObserved));
    w.U64(step.intentsSeen);
    PutBurst(w, step.burst);
  }

  lemma NormalizedFits(a: StepAcc)
    requires StepAccFits(a)
    ensures StepAccFits(Normalized(a))
  {}

  // ---------------------------------------------------------------------------
  // Jobs
  // ---------------------------------------------------------------------------

  method PutHead(w: ByteWriter, job: Job)
    requires HeadHeld(job)
    modifies w
    ensures forall tail, total :: old(w.Pending(WriteHead(job, tail), total)) ==> w.Pending(tail, total)
  {
    hide PutU64, PutString, PutBool, WriteContract, ContractFits, ByteWriter.Pending;
    TextIsShort(job.name);
    w.U64(job.id);
    w.Text(job.name);
    w.U64(job.generation);
    w.U64(job.incarnation);
    w.U64(job.boot.hi);
    w.U64(job.boot.lo);
    w.U64(job.epoch);
    w.Flag(job.retired);
    PutContract(w, job.contract);
  }

  method PutGroup(w: ByteWriter, g: Group)
    requires GroupFits(g)
    modifies w
    ensures forall tail, total :: old(w.Pending(WriteGroup(g, tail), total)) ==> w.Pending(tail, total)
  {
    hide PutU64, PutU32, PutString, PutName, ByteWriter.Pending;
    TextIsShort(g.name);
    KindNamed(g.kind);
    w.U64(g.id);
    PutLabelled(w, KINDS, g.kind);
    w.U32(g.members);
    w.Text(g.name);
  }

  method CollectGroups(job: Job) returns (r: seq<Group>)
    ensures r == GroupList(job)
  {
    hide SortedIds;
    var ids := SortIds(set k | k in job.groupOrder && k in job.groups);
    SortedIdsMembers(set k | k in job.groupOrder && k in job.groups);
    r := [];
    var i := 0;
    while i < |ids|
      invariant 0 <= i <= |ids| && |r| == i
      invariant forall j :: 0 <= j < i ==> ids[j] in job.groups && r[j] == job.groups[ids[j]]
    {
      assert ids[i] in ids;
      r := r + [job.groups[ids[i]]];
      i := i + 1;
    }
  }

  method PutEachGroup(w: ByteWriter, items: seq<Group>)
    requires forall g :: g in items ==> GroupFits(g)
    modifies w
    ensures forall tail, total :: old(w.Pending(PutMany(WriteGroup, items, tail), total)) ==> w.Pending(tail, total)
  {
    hide PutMany, WriteGroup, GroupFits, ByteWriter.Pending;
    ManyEnds(WriteGroup, items);
    var i := 0;
    while i < |items|
      invariant 0 <= i <= |items|
      invariant forall tail, total :: old(w.Pending(PutMany(WriteGroup, items, tail), total)) ==>
        w.Pending(PutMany(WriteGroup, items[i..], tail), total)
    {
      ManyStep(WriteGroup, items, i);
      assert items[i] in items;
      PutGroup(w, items[i]);
      i := i + 1;
    }
  }

  method PutGroups(w: ByteWriter, job: Job)
    requires GroupsHeld(job)
    modifies w
    ensures forall tail, total :: old(w.Pending(WriteGroups(job, tail), total)) ==> w.Pending(tail, total)
  {
    hide PutU32, PutMany, GroupList, WriteGroup, GroupFits, ByteWriter.Pending;
    var list := CollectGroups(job);
    w.U32(|list|);
    PutEachGroup(w, list);
  }

  method PutLink(w: ByteWriter, l: Link)
    requires LinkFits(l)
    modifies w
    ensures forall tail, total :: old(w.Pending(WriteLink(l, tail), total)) ==> w.Pending(tail, total)
  {
    hide PutU64, PutString, PutName, ByteWriter.Pending;
    TextIsShort(l.source);
    SmallNamed(HardCriticality, Fenced, l.evidence);
    w.U64(l.group);
    w.U64(l.capacity);
    w.U64(l.reserved);
    PutLabelled(w, LABELS, l.evidence);
    w.Text(l.source);
  }

  method PutEachLink(w: ByteWriter, items: seq<Link>)
    requires forall l :: l in items ==> LinkFits(l)
    modifies w
    ensures forall tail, total :: old(w.Pending(PutMany(WriteLink, items, tail), total)) ==> w.Pending(tail, total)
  {
    hide PutMany, WriteLink, LinkFits, ByteWriter.Pending;
    ManyEnds(WriteLink, items);
    var i := 0;
    while i < |items|
      invariant 0 <= i <= |items|
      invariant forall tail, total :: old(w.Pending(PutMany(WriteLink, items, tail), total)) ==>
        w.Pending(PutMany(WriteLink, items[i..], tail), total)
    {
      ManyStep(WriteLink, items, i);
      assert items[i] in items;
      PutLink(w, items[i]);
      i := i + 1;
    }
  }

  method PutTopology(w: ByteWriter, t: Topology)
    requires TopologyHeld(t)
    modifies w
    ensures forall tail, total :: old(w.Pending(WriteTopology(t, tail), total)) ==> w.Pending(tail, total)
  {
    hide PutU64, PutU32, PutName, PutMany, WriteLink, LinkFits, ByteWriter.Pending;
    SmallNamed(HardCriticality, Fenced, t.evidence);
    w.U64(t.generation);
    PutLabelled(w, LABELS, t.evidence);
    w.U32(|t.links|);
    PutEachLink(w, t.links);
  }

  method PutRetired(w: ByteWriter, r: Retired)
    requires RetiredFits(r)
    modifies w
    ensures forall tail, total :: old(w.Pending(WriteRetired(r, tail), total)) ==> w.Pending(tail, total)
  {
    hide PutU64, PutU16, ByteWriter.Pending;
    w.U64(r.incarnation);
    w.U64(r.boot.hi);
    w.U64(r.boot.lo);
    w.U64(r.at);
    w.U16(r.cause);
  }

  method PutEachRetired(w: ByteWriter, items: seq<Retired>)
    requires forall r :: r in items ==> RetiredFits(r)
    modifies w
    ensures forall tail, total :: old(w.Pending(PutMany(WriteRetired, items, tail), total)) ==> w.Pending(tail, total)
  {
    hide PutMany, WriteRetired, RetiredFits, ByteWriter.Pending;
    ManyEnds(WriteRetired, items);
    var i := 0;
    while i < |items|
      invariant 0 <= i <= |items|
      invariant forall tail, total :: old(w.Pending(PutMany(WriteRetired, items, tail), total)) ==>
        w.Pending(PutMany(WriteRetired, items[i..], tail), total)
    {
      ManyStep(WriteRetired, items, i);
      assert items[i] in items;
      PutRetired(w, items[i]);
      i := i + 1;
    }
  }

  method PutRetirements(w: ByteWriter, job: Job)
    requires RetirementsHeld(job)
    modifies w
    ensures forall tail, total :: old(w.Pending(WriteRetirements(job, tail), total)) ==> w.Pending(tail, total)
  {
    hide PutU32, PutMany, WriteRetired, RetiredFits, ByteWriter.Pending;
    var list := job.retiredList;
    w.U32(|list|);
    PutEachRetired(w, list);
  }

  method PutSteps(w: ByteWriter, job: Job)
    requires StepsHeld(job)
    modifies w
    ensures forall tail, total :: old(w.Pending(WriteSteps(job, tail), total)) ==> w.Pending(tail, total)
  {
    hide PutU64, PutBool, WriteOpenStep, StepHeld, ByteWriter.Pending;
    w.U64(job.highestStep);
    w.U64(job.lastClosedStep);
    if job.step.Some? {
      w.Flag(true);
      PutOpenStep(w, job.step.value);
    } else {
      w.Flag(false);
    }
  }

  method PutEachReport(w: ByteWriter, items: seq<Report>)
    requires forall r :: r in items ==> ReportHeld(r)
    modifies w
    ensures forall tail, total :: old(w.Pending(PutMany(WriteReport, items, tail), total)) ==> w.Pending(tail, total)
  {
    hide PutMany, WriteReport, ReportHeld, ByteWriter.Pending;
    ManyEnds(WriteReport, items);
    var i := 0;
    while i < |items|
      invariant 0 <= i <= |items|
      invariant forall tail, total :: old(w.Pending(PutMany(WriteReport, items, tail), total)) ==>
        w.Pending(PutMany(WriteReport, items[i..], tail), total)
    {
      ManyStep(WriteReport, items, i);
      assert items[i] in items;
      PutReport(w, items[i]);
      i := i + 1;
    }
  }

  method PutHistory(w: ByteWriter, job: Job)
    requires HistoryHeld(job)
    modifies w
    ensures forall tail, total :: old(w.Pending(WriteHistory(job, tail), total)) ==> w.Pending(tail, total)
  {
    hide PutU32, PutMany, WriteReport, ReportHeld, ByteWriter.Pending;
    var list := job.history;
    w.U32(|list|);
    PutEachReport(w, list);
  }

  method PutAllocators(w: ByteWriter, job: Job)
    requires AllocatorsHeld(job.ids)
    modifies w
    ensures forall tail, total :: old(w.Pending(WriteAllocators(job.ids, tail), total)) ==> w.Pending(tail, total)
  {
    hide PutU64, ByteWriter.Pending;
    w.U64(job.ids.intent);
    w.U64(job.ids.phase);
    w.U64(job.ids.burst);
    w.U64(job.ids.incarnation);
    w.U64(job.ids.topology);
  }

  method PutJob(w: ByteWriter, job: Job)
    requires JobHeld(job)
    modifies w
    ensures forall tail, total :: old(w.Pending(WriteJob(job, tail), total)) ==> w.Pending(tail, total)
  {
    hide WriteHead, WriteGroups, WriteTopology, WriteRetirements, WriteSteps, WriteHistory, WriteAllocators, HeadHeld,
         GroupsHeld, TopologyHeld, RetirementsHeld, StepsHeld, HistoryHeld, AllocatorsHeld, ByteWriter.Pending;
    PutHead(w, job);
    PutGroups(w, job);
    PutTopology(w, job.topology);
    PutRetirements(w, job);
    PutSteps(w, job);
    PutHistory(w, job);
    PutAllocators(w, job);
  }

  method CollectJobs(s: State) returns (r: seq<Job>)
    ensures r == JobList(s)
  {
    hide SortedIds;
    var ids := SortIds(s.jobs.Keys);
    SortedIdsMembers(s.jobs.Keys);
    r := [];
    var i := 0;
    while i < |ids|
      invariant 0 <= i <= |ids| && |r| == i
      invariant forall j :: 0 <= j < i ==> ids[j] in s.jobs && r[j] == s.jobs[ids[j]]
    {
      assert ids[i] in ids;
      r := r + [s.jobs[ids[i]]];
      i := i + 1;
    }
  }

  method PutEachJob(w: ByteWriter, jobs: seq<Job>)
    requires forall i :: 0 <= i < |jobs| ==> JobHeld(jobs[i])
    modifies w
    ensures forall tail, total :: old(w.Pending(PutMany(WriteJob, jobs, tail), total)) ==> w.Pending(tail, total)
  {
    hide PutMany, WriteJob, JobHeld, ByteWriter.Pending;
    ManyEnds(WriteJob, jobs);
    var i := 0;
    while i < |jobs|
      invariant 0 <= i <= |jobs|
      invariant forall tail, total :: old(w.Pending(PutMany(WriteJob, jobs, tail), total)) ==>
        w.Pending(PutMany(WriteJob, jobs[i..], tail), total)
    {
      ManyStep(WriteJob, jobs, i);
      PutJob(w, jobs[i]);
      i := i + 1;
    }
  }

  lemma JobsAreHeld(s: State)
    requires StateHeld(s)
    ensures forall i :: 0 <= i < |JobList(s)| ==> JobHeld(JobList(s)[i])
  {
    hide JobHeld, PolicyHeld, SortedIds;
    SortedIdsMembers(s.jobs.Keys);
    var ids := SortedIds(s.jobs.Keys);
    assert forall i :: 0 <= i < |ids| ==> ids[i] in s.jobs;
  }

  method PutState(w: ByteWriter, s: State, ghost total: bytes)
    requires StateHeld(s) && w.Pending(StateBytes(s), total)
    modifies w
    ensures w.Pending([], total)
  {
    hide PutU64, PutU32, PutU16, PutMany, WritePolicy, JobList, WriteJob, JobHeld, PolicyHeld, ByteWriter.Pending,
         SortedIds;
    JobsAreHeld(s);
    w.U32(STATE_MAGIC);
    w.U16(STATE_FORMAT);
    w.U16(0);
    w.U64(s.now);
    PutPolicy(w, s.policy);
    w.U64(s.nextJob);
    var jobs := CollectJobs(s);
    w.U32(|jobs|);
    PutEachJob(w, jobs);
    w.U32(STATE_TRAILER);
  }

  /** Serialise a state. The bytes do not depend on the order in which any table is walked. */
  method SerializeState(s: State) returns (r: Result<bytes>)
    requires StateHeld(s)
    ensures r == Serialize(s)
  {
    hide StateBytes, StateHeld;
    var w := new ByteWriter(MAX_SNAPSHOT_BYTES);
    assert [] + StateBytes(s) == StateBytes(s);
    PutState(w, s, StateBytes(s));
    assert w.buffer + [] == w.buffer;
    if w.error != OK {
      return Failure(w.error);
    }
    return Success(w.buffer);
  }
}
