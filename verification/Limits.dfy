/** What a snapshot can be written of, and when it can be read back: each limit is exact. */
module Limits {
  import opened Bytes
  import opened Results
  import opened Codec
  import opened Model
  import opened Policies
  import opened Order
  import opened Traffic
  import opened Listing
  import opened Records
  import opened OpenSteps
  import opened Durable
  import opened Snapshot

  // ---------------------------------------------------------------------------
  // What the writer needs: numbers of their fields' widths and texts that were validated
  // ---------------------------------------------------------------------------

  ghost predicate FencesHeld(l: FenceLog) {
    l.observed < U64_LIMIT && |l.fences| < U32_LIMIT && forall f :: f in l.fences ==> FenceFits(f)
  }

  ghost predicate ReportHeld(r: Report) {
    && r.step < U64_LIMIT && r.jobGeneration < U64_LIMIT && r.openedAt < U64_LIMIT && r.closedAt < U64_LIMIT
    && |r.phases| < U32_LIMIT && (forall p :: p in r.phases ==> SummaryFits(p))
    && StepAccFits(r.acc) && FencesHeld(FenceLog(r.fences, r.fencesObserved))
  }

  ghost predicate PolicyHeld(p: Policy) {
    && p.generation < U64_LIMIT
    && |p.classes| < U32_LIMIT && (forall s :: s in p.classes ==> SpecFits(s))
    && p.unknownCeiling < U64_LIMIT && p.isolationPriority < U8_LIMIT && p.maxActiveFlows < U32_LIMIT
    && p.maxHistory < U32_LIMIT && p.maxClauses < U32_LIMIT && p.backoff < U64_LIMIT
  }

  ghost predicate EntriesHeld(step: Step) {
    |Entries(step)| < U32_LIMIT && forall e :: e in Entries(step) ==> PhaseFits(e.phase) && PhaseAccFits(e.acc)
  }

  ghost predicate StepHeld(step: Step) {
    && step.id < U64_LIMIT && step.jobGeneration < U64_LIMIT && step.incarnation < U64_LIMIT
    && step.openedAt < U64_LIMIT && step.deadlineAt < U64_LIMIT && step.slack < U64_LIMIT && step.intentsSeen < U64_LIMIT
    && EntriesHeld(step) && StepAccFits(step.acc) && FencesHeld(FenceLog(step.fences, step.fencesObserved))
    && (step.burst.Some? ==> BurstFits(step.burst.value))
  }

  ghost predicate HeadHeld(job: Job) {
    && job.id < U64_LIMIT && Text(job.name) && job.generation < U64_LIMIT && job.incarnation < U64_LIMIT
    && job.boot.hi < U64_LIMIT && job.boot.lo < U64_LIMIT && job.epoch < U64_LIMIT && ContractFits(job.contract)
  }

  ghost predicate GroupsHeld(job: Job) {
    |GroupList(job)| < U32_LIMIT && forall g :: g in GroupList(job) ==> GroupFits(g)
  }

  ghost predicate TopologyHeld(t: Topology) {
    t.generation < U64_LIMIT && |t.links| < U32_LIMIT && forall l :: l in t.links ==> LinkFits(l)
  }

  ghost predicate RetirementsHeld(job: Job) {
    |job.retiredList| < U32_LIMIT && forall r :: r in job.retiredList ==> RetiredFits(r)
  }

  ghost predicate StepsHeld(job: Job) {
    job.highestStep < U64_LIMIT && job.lastClosedStep < U64_LIMIT && (job.step.Some? ==> StepHeld(job.step.value))
  }

  ghost predicate HistoryHeld(job: Job) {
    |job.history| < U32_LIMIT && forall r :: r in job.history ==> ReportHeld(r)
  }

  predicate AllocatorsHeld(a: Allocators) {
    a.intent < U64_LIMIT && a.phase < U64_LIMIT && a.burst < U64_LIMIT && a.incarnation < U64_LIMIT && a.topology < U64_LIMIT
  }

  ghost predicate JobHeld(job: Job) {
    && HeadHeld(job) && GroupsHeld(job) && TopologyHeld(job.topology) && RetirementsHeld(job) && StepsHeld(job)
    && HistoryHeld(job) && AllocatorsHeld(job.ids)
  }

  ghost predicate StateHeld(s: State) {
    && s.now < U64_LIMIT && s.nextJob < U64_LIMIT && PolicyHeld(s.policy) && |s.jobs| < U32_LIMIT
    && forall k :: k in s.jobs ==> JobHeld(s.jobs[k])
  }

  // ---------------------------------------------------------------------------
  // What every reachable state has besides: tables that agree, valid contracts, groups and links
  // ---------------------------------------------------------------------------

  ghost predicate PhasesWritten(step: Step, groups: set<nat>) {
    && Ascending(step.phaseOrder) && (forall k :: k in step.phaseOrder <==> k in step.phases)
    && |step.phaseOrder| < U32_LIMIT
    && forall k :: k in step.phases ==>
         && step.phases[k].id == k != 0 && PhaseFits(step.phases[k]) && step.phases[k].spec.group in groups
         && PhaseAccFits(PhaseAccOf(step, k))
  }

  ghost predicate StepWritten(step: Step, groups: set<nat>) {
    && 0 < step.id < U64_LIMIT && step.jobGeneration < U64_LIMIT && step.incarnation < U64_LIMIT
    && step.openedAt < U64_LIMIT && step.deadlineAt < U64_LIMIT && step.slack < U64_LIMIT && step.intentsSeen < U64_LIMIT
    && PhasesWritten(step, groups) && StepAccFits(step.acc) && FencesHeld(FenceLog(step.fences, step.fencesObserved))
    && (step.burst.Some? ==> BurstFits(step.burst.value))
  }

  ghost predicate TopologyWritten(t: Topology) {
    t.generation < U64_LIMIT && TopologyError(t) == OK && ValidLinks(t.links) && forall l :: l in t.links ==> LinkFits(l)
  }

  ghost predicate StepsWritten(job: Job) {
    && job.lastClosedStep <= job.highestStep < U64_LIMIT
    && (job.step.Some? ==> StepWritten(job.step.value, job.groups.Keys) && job.step.value.id <= job.highestStep)
  }

  ghost predicate HistoryWritten(job: Job) {
    && |job.history| <= job.contract.historySteps && |job.history| <= MAX_HISTORY
    && (forall i, j :: 0 <= i < j < |job.history| ==> job.history[i].step < job.history[j].step)
    && forall r :: r in job.history ==> ReportHeld(r)
  }

  ghost predicate JobWritten(job: Job) {
    && HeadFits(job) && GroupsFit(job) && TopologyWritten(job.topology) && RetirementsHeld(job)
    && StepsWritten(job) && HistoryWritten(job) && AllocatorsFit(job)
  }

  ghost predicate StateWritten(s: State) {
    && s.now < U64_LIMIT && 0 < s.nextJob < U64_LIMIT && s.config.maxJobs < U32_LIMIT
    && PolicyFits(s.policy) && PolicyError(s.policy) == OK
    && |s.jobs| <= s.config.maxJobs
    && forall k :: k in s.jobs ==> s.jobs[k].id == k && Add64(k, 1) <= s.nextJob && JobWritten(s.jobs[k])
  }

  // ---------------------------------------------------------------------------
  // What the reader accepts
  // ---------------------------------------------------------------------------

  ghost predicate BytesSettled(step: Step) {
    forall k :: k in step.phases ==> PhaseAccOf(step, k).bytesCompleted <= PhaseAccOf(step, k).bytesCommitted
  }

  ghost predicate StepReadable(step: Step) {
    |step.phaseOrder| <= MAX_PHASES && |step.fences| <= MAX_FENCES && BytesSettled(step)
  }

  ghost predicate ReportReadable(r: Report) {
    && |r.phases| <= MAX_PHASES && |r.fences| <= MAX_FENCES && Settled(r.acc)
    && forall p :: p in r.phases ==> p.bytesCompleted <= p.bytesCommitted
  }

  /** Evidence names registered groups, no list is too long, and no counter of bytes has wrapped. */
  ghost predicate JobReadable(job: Job) {
    && (forall l :: l in job.topology.links ==> l.group in job.groups)
    && |job.retiredList| <= MAX_RETIRED
    && (job.step.Some? ==> StepReadable(job.step.value))
    && forall r :: r in job.history ==> ReportReadable(r)
  }

  ghost predicate Readable(s: State) {
    forall k :: k in s.jobs ==> JobReadable(s.jobs[k])
  }

  // ---------------------------------------------------------------------------
  // Lists
  // ---------------------------------------------------------------------------

  /** If reading an item takes exactly what was written and tells that it is good, a list read is all good. */
  lemma {:induction false} AllGood<T(!new), U(!new)>(
    write: (T, bytes) -> bytes, read: (seq<U>, bytes) -> Read<U>, items: seq<T>, good: T -> bool, done: seq<U>, rest: bytes)
    requires forall i, d, r :: 0 <= i < |items| && read(d, write(items[i], r)).Got? ==>
               good(items[i]) && read(d, write(items[i], r)).rest == r
    requires GetMany(read, |items|, done, PutMany(write, items, rest)).Got?
    ensures forall i :: 0 <= i < |items| ==> good(items[i])
    decreases |items|
  {
    if items != [] {
      var tail := PutMany(write, items[1..], rest);
      ManyFirst(write, read, items, done, rest);
      assert read(done, write(items[0], tail)).rest == tail;
      forall i, d, r | 0 <= i < |items[1..]| && read(d, write(items[1..][i], r)).Got?
        ensures good(items[1..][i]) && read(d, write(items[1..][i], r)).rest == r
      {
        assert items[1..][i] == items[i + 1];
      }
      AllGood(write, read, items[1..], good, done + [read(done, write(items[0], tail)).value], rest);
      forall i | 0 <= i < |items| ensures good(items[i]) {
        if i > 0 {
          assert items[i] == items[1..][i - 1];
        }
      }
    }
  }

  // ---------------------------------------------------------------------------
  // Fences, retirements, evidence
  // ---------------------------------------------------------------------------

  /** A written fence log is read back exactly when it holds at most sixty-four events. */
  lemma FencesReadIff(l: FenceLog, rest: bytes)
    requires l.observed < U64_LIMIT && |l.fences| < U32_LIMIT && forall f :: f in l.fences ==> FenceFits(f)
    ensures ReadFences(WriteFences(l, rest)).Got? <==> |l.fences| <= MAX_FENCES
  {
    hide PutU64, GetU64, PutU32, GetU32, PutMany, GetMany, FenceFits;
    if |l.fences| <= MAX_FENCES {
      FencesRoundTrip(l, rest);
    }
  }

  /** A written list of retired incarnations is read back exactly when it holds at most 4096. */
  lemma RetirementsReadIff(job: Job, bare: Job, rest: bytes)
    requires |job.retiredList| < U32_LIMIT && forall r :: r in job.retiredList ==> RetiredFits(r)
    ensures ReadRetirements(bare, WriteRetirements(job, rest)).Got? <==> |job.retiredList| <= MAX_RETIRED
  {
    hide PutU32, GetU32, PutMany, GetMany, RetiredFits;
    if |job.retiredList| <= MAX_RETIRED {
      RetirementsRoundTrip(job, bare, rest);
    }
  }

  lemma {:induction false} LinksReadSame(links: seq<Link>, groups: set<nat>, done: seq<Link>, rest: bytes)
    requires forall l :: l in links ==> LinkFits(l)
    ensures var r := GetMany(LinkReader(groups), |links|, done, PutMany(WriteLink, links, rest));
      r == Bad(CORRUPT_STATE) || (r.Got? && forall l :: l in links ==> l.group in groups)
    decreases |links|
  {
    hide WriteLink, LinkFits, ReadLink;
    if links != [] {
      assert links[0] in links;
      LinkReadsItself(groups, done, links[0], PutMany(WriteLink, links[1..], rest));
      LinksReadSame(links[1..], groups, done + [links[0]], rest);
      assert forall l :: l in links ==> l == links[0] || l in links[1..];
    }
  }

  lemma LinkReadsItself(groups: set<nat>, done: seq<Link>, l: Link, rest: bytes)
    requires LinkFits(l)
    ensures var r := ReadLink(groups, done, WriteLink(l, rest));
      r == Bad(CORRUPT_STATE) || (r == Got(l, rest) && l.group in groups)
  {
    hide PutU64, GetU64, PutString, GetString, PutName, GetName;
    SmallNamed(HardCriticality, Fenced, l.evidence);
    NameRoundTrip(LABELS, l.evidence, PutString(l.source, rest));
  }

  /** Written evidence is read back exactly when every link names a registered group; otherwise the state is
      corrupt. */
  lemma EvidenceReadIff(t: Topology, job: Job, rest: bytes)
    requires t.generation < U64_LIMIT && TopologyError(t) == OK && ValidLinks(t.links)
    requires forall l :: l in t.links ==> LinkFits(l)
    ensures var r := ReadTopology(job, WriteTopology(t, rest));
      && (r.Got? <==> forall l :: l in t.links ==> l.group in job.groups)
      && (r.Bad? ==> r.error == CORRUPT_STATE)
  {
    hide WriteLink, LinkFits, PutU64, GetU64, PutU32, GetU32, PutName, GetName, PutMany, GetMany, FirstLinkError,
         LinkError;
    if forall l :: l in t.links ==> l.group in job.groups {
      TopologyRoundTrip(t, job, rest);
    } else {
      SmallNamed(HardCriticality, Fenced, t.evidence);
      NameRoundTrip(LABELS, t.evidence, PutU32(|t.links|, PutMany(WriteLink, t.links, rest)));
      LinksReadSame(t.links, job.groups.Keys, [], rest);
    }
  }

  /** A job whose evidence names a group that is not registered is refused as corrupt. */
  lemma UnregisteredIsCorrupt(job: Job, rest: bytes)
    requires JobWritten(job) && exists l :: l in job.topology.links && l.group !in job.groups
    ensures ReadJob(WriteJob(job, rest)) == Bad(CORRUPT_STATE)
  {
    hide WriteHead, ReadHead, WriteGroups, ReadGroups, WriteTopology, ReadTopology, WriteRetirements, ReadRetirements,
         WriteSteps, ReadSteps, WriteHistory, ReadHistory, WriteAllocators, ReadAllocators, HeadFits, GroupsFit,
         RetirementsHeld, StepsWritten, HistoryWritten, AllocatorsFit, NoLoad, TopologyError, ValidLinks, LinkFits,
         SortedIds;
    var b3 := WriteRetirements(job, WriteSteps(job, WriteHistory(job, WriteAllocators(job.ids, rest))));
    var b2 := WriteTopology(job.topology, b3);
    var head := Bare(job.id, job.name, job.generation, job.contract, job.incarnation, job.boot, job.epoch, job.retired);
    HeadRoundTrip(job, WriteGroups(job, b2));
    GroupsRoundTrip(job, head, b2);
    EvidenceReadIff(job.topology, head.(groups := job.groups, groupOrder := SortedIds(job.groups.Keys),
                                        load := NoLoad(job.groups)), b3);
  }

  // ---------------------------------------------------------------------------
  // Open steps
  // ---------------------------------------------------------------------------

  lemma PhaseAccReads(a: PhaseAcc, rest: bytes)
    requires PhaseAccFits(a)
    ensures ReadPhaseAcc(WritePhaseAcc(a, rest)).Got? <==> a.bytesCompleted <= a.bytesCommitted
    ensures ReadPhaseAcc(WritePhaseAcc(a, rest)).Got? ==> ReadPhaseAcc(WritePhaseAcc(a, rest)) == Got(a, rest)
  {
    hide PutU64, PutU32, GetU64, GetU32;
  }

  lemma EntryReads(groups: set<nat>, done: seq<Entry>, e: Entry, rest: bytes)
    requires PhaseFits(e.phase) && e.phase.id != 0 && PhaseAccFits(e.acc)
    requires ReadEntry(groups, done, WriteEntry(e, rest)).Got?
    ensures ReadEntry(groups, done, WriteEntry(e, rest)).rest == rest && e.acc.bytesCompleted <= e.acc.bytesCommitted
  {
    hide WritePhase, ReadPhase, WritePhaseAcc, ReadPhaseAcc, PhaseFits, PhaseAccFits;
    PhaseRoundTrip(e.phase, WritePhaseAcc(e.acc, rest));
    PhaseAccReads(e.acc, rest);
  }

  lemma EntriesReadGood(groups: set<nat>, entries: seq<Entry>, rest: bytes)
    requires forall e :: e in entries ==> PhaseFits(e.phase) && e.phase.id != 0 && PhaseAccFits(e.acc)
    requires GetMany(EntryReader(groups), |entries|, [], PutMany(WriteEntry, entries, rest)).Got?
    ensures forall e :: e in entries ==> e.acc.bytesCompleted <= e.acc.bytesCommitted
  {
    hide WriteEntry, ReadEntry, PhaseFits, PhaseAccFits;
    var good := (e: Entry) => e.acc.bytesCompleted <= e.acc.bytesCommitted;
    forall i, d, r | 0 <= i < |entries| && EntryReader(groups)(d, WriteEntry(entries[i], r)).Got?
      ensures good(entries[i]) && EntryReader(groups)(d, WriteEntry(entries[i], r)).rest == r
    {
      assert entries[i] in entries;
      EntryReads(groups, d, entries[i], r);
    }
    AllGood(WriteEntry, EntryReader(groups), entries, good, [], rest);
  }

  lemma EntryWritten(step: Step, groups: set<nat>, i: nat)
    requires PhasesWritten(step, groups) && i < |step.phaseOrder|
    ensures |Entries(step)| == |step.phaseOrder| && step.phaseOrder[i] in step.phases
    ensures var e := Entries(step)[i];
      && PhaseFits(e.phase) && e.phase.id == step.phaseOrder[i] != 0 && e.phase.spec.group in groups
      && PhaseAccFits(e.acc) && e.acc == PhaseAccOf(step, step.phaseOrder[i])
  {
    hide PhaseAccOf, PhaseFits, PhaseAccFits, Entries, PhaseIds;
    EntriesListed(step);
  }

  /** The entries of a written step are those of its phases, in order. */
  lemma EntriesWritten(step: Step, groups: set<nat>)
    requires PhasesWritten(step, groups)
    ensures |Entries(step)| == |step.phaseOrder| < U32_LIMIT
    ensures forall e :: e in Entries(step) ==> PhaseFits(e.phase) && e.phase.id != 0 && PhaseAccFits(e.acc)
    ensures (forall e :: e in Entries(step) ==> e.acc.bytesCompleted <= e.acc.bytesCommitted) ==> BytesSettled(step)
  {
    hide PhaseAccOf, PhaseFits, PhaseAccFits, Entries, PhasesWritten;
    EntriesCount(step, groups);
    forall i | 0 <= i < |Entries(step)|
      ensures var e := Entries(step)[i]; PhaseFits(e.phase) && e.phase.id != 0 && PhaseAccFits(e.acc)
    {
      EntryWritten(step, groups, i);
    }
    if forall e :: e in Entries(step) ==> e.acc.bytesCompleted <= e.acc.bytesCommitted {
      forall k | k in step.phases ensures PhaseAccOf(step, k).bytesCompleted <= PhaseAccOf(step, k).bytesCommitted {
        var i := PlaceOf(step, groups, k);
        EntryWritten(step, groups, i);
        assert Entries(step)[i] in Entries(step);
      }
    }
  }

  lemma PlaceOf(step: Step, groups: set<nat>, k: nat) returns (i: nat)
    requires PhasesWritten(step, groups) && k in step.phases
    ensures i < |step.phaseOrder| && step.phaseOrder[i] == k
  {
    hide PhaseAccOf, PhaseFits, PhaseAccFits, Ascending;
    i :| 0 <= i < |step.phaseOrder| && step.phaseOrder[i] == k;
  }

  lemma EntriesCount(step: Step, groups: set<nat>)
    requires PhasesWritten(step, groups)
    ensures |Entries(step)| == |step.phaseOrder| < U32_LIMIT
  {
    hide PhaseAccOf, PhaseFits, PhaseAccFits, Entries, PhaseIds;
    EntriesListed(step);
  }

  lemma StepFitsIff(step: Step, groups: set<nat>)
    requires StepWritten(step, groups)
    ensures StepReadable(step) ==> StepFits(step, groups)
  {
    hide PhaseAccOf, PhaseFits, PhaseAccFits, StepAccFits, FenceFits, BurstFits, Ascending;
  }

  /** An open step is read back exactly when it has at most 4096 phases and 64 fences, and no phase has
      completed more bytes than it committed. */
  lemma StepReadIff(step: Step, groups: set<nat>, epoch: nat, rest: bytes)
    requires StepWritten(step, groups)
    ensures ReadOpenStep(groups, epoch, WriteOpenStep(step, rest)).Got? <==> StepReadable(step)
  {
    hide ReadOpenStep, WriteOpenStep, StepWritten, StepReadable, StepFits;
    if StepReadable(step) {
      StepFitsIff(step, groups);
      OpenStepRoundTrip(step, groups, epoch, rest);
    } else if ReadOpenStep(groups, epoch, WriteOpenStep(step, rest)).Got? {
      StepIsRefused(step, groups, epoch, rest);
    }
  }

  lemma StepIsRefused(step: Step, groups: set<nat>, epoch: nat, rest: bytes)
    requires StepWritten(step, groups) && ReadOpenStep(groups, epoch, WriteOpenStep(step, rest)).Got?
    ensures StepReadable(step)
  {
    hide PutU64, GetU64, PutU32, GetU32, PutMany, GetMany, Entries, ReadStepHead, WriteStepTail, ReadStepTail,
         StepAccFits, FenceFits, BurstFits, Filled, Reconcile, PhasesWritten, PhaseFits, PhaseAccFits, BytesSettled;
    var entries, tail := Entries(step), WriteStepTail(step, rest);
    EntriesWritten(step, groups);
    StepHeadRoundTrip(step, PutU32(|entries|, PutMany(WriteEntry, entries, tail)));
    EntriesReadGood(groups, entries, tail);
    if |step.fences| > MAX_FENCES {
      StepTailRefused(step, groups, rest);
    }
  }

  /** If the phases of a written step are fine, its fences are all that can be refused. */
  lemma StepTailRefused(step: Step, groups: set<nat>, rest: bytes)
    requires StepWritten(step, groups) && |step.fences| > MAX_FENCES && |Entries(step)| <= MAX_PHASES
    requires forall e :: e in Entries(step) ==> e.acc.bytesCompleted <= e.acc.bytesCommitted
    ensures var entries := Entries(step);
      var r := GetMany(EntryReader(groups), |entries|, [], PutMany(WriteEntry, entries, WriteStepTail(step, rest)));
      r.Got? && forall filled :: ReadStepTail(filled, r.rest).Bad?
  {
    hide WriteStepAcc, ReadStepAcc, WriteFences, ReadFences, WriteBurst, PutU64, StepAccFits, FenceFits, WriteEntry,
         ReadEntry, GetMany, PutMany, BurstFits, PhaseFits, PhaseAccFits;
    EntriesOfWritten(step, groups);
    EntriesRoundTrip(groups, Entries(step), WriteStepTail(step, rest));
    var log := FenceLog(step.fences, step.fencesObserved);
    var b2 := PutU64(step.intentsSeen, WriteBurst(step.burst, rest));
    NormalizedReads(step.acc, WriteFences(log, b2));
    FencesReadIff(log, b2);
  }

  lemma NormalizedReads(a: StepAcc, rest: bytes)
    requires StepAccFits(a)
    ensures ReadStepAcc(WriteStepAcc(Normalized(a), rest)) == Got(Normalized(a), rest)
  {
    StepAccRoundTrip(Normalized(a), rest);
  }

  lemma EntriesOfWritten(step: Step, groups: set<nat>)
    requires PhasesWritten(step, groups)
    requires forall e :: e in Entries(step) ==> e.acc.bytesCompleted <= e.acc.bytesCommitted
    ensures forall e :: e in Entries(step) ==> EntryFits(groups, e)
    ensures forall i, j :: 0 <= i < j < |Entries(step)| ==> Entries(step)[i].phase.id < Entries(step)[j].phase.id
  {
    hide PhaseAccOf, PhaseFits, PhaseAccFits, Entries, PhasesWritten;
    EntriesCount(step, groups);
    PhasesAscend(step, groups);
    forall i | 0 <= i < |Entries(step)|
      ensures EntryFits(groups, Entries(step)[i]) && Entries(step)[i].phase.id == step.phaseOrder[i]
    {
      EntryWritten(step, groups, i);
      assert Entries(step)[i] in Entries(step);
    }
  }

  lemma PhasesAscend(step: Step, groups: set<nat>)
    requires PhasesWritten(step, groups)
    ensures Ascending(step.phaseOrder)
  {}

  // ---------------------------------------------------------------------------
  // Reports
  // ---------------------------------------------------------------------------

  lemma SummaryReads(p: PhaseSummary, rest: bytes)
    requires SummaryFits(p)
    ensures ReadSummary(WriteSummary(p, rest)).Got? ==>
      p.bytesCompleted <= p.bytesCommitted && ReadSummary(WriteSummary(p, rest)).rest == rest
  {
    hide PutU64, GetU64, PutU32, GetU32, PutName, GetName;
    NamesRoundTrip(p.cls, p.criticality, p.disposition);
  }

  lemma SummariesReadGood(phases: seq<PhaseSummary>, rest: bytes)
    requires forall p :: p in phases ==> SummaryFits(p)
    requires GetMany(SummaryReader(), |phases|, [], PutMany(WriteSummary, phases, rest)).Got?
    ensures forall p :: p in phases ==> p.bytesCompleted <= p.bytesCommitted
  {
    hide WriteSummary, ReadSummary, SummaryFits;
    var good := (p: PhaseSummary) => p.bytesCompleted <= p.bytesCommitted;
    forall i, d, r | 0 <= i < |phases| && SummaryReader()(d, WriteSummary(phases[i], r)).Got?
      ensures good(phases[i]) && SummaryReader()(d, WriteSummary(phases[i], r)).rest == r
    {
      assert phases[i] in phases;
      SummaryReads(phases[i], r);
    }
    AllGood(WriteSummary, SummaryReader(), phases, good, [], rest);
  }

  lemma StepAccReads(a: StepAcc, rest: bytes)
    requires StepAccFits(a)
    ensures ReadStepAcc(WriteStepAcc(a, rest)).Got? ==> ReadStepAcc(WriteStepAcc(a, rest)) == Got(a, rest)
    ensures Settled(a) ==> ReadStepAcc(WriteStepAcc(a, rest)).Got?
  {
    hide PutU64, PutU32, PutBool, GetU64, GetU32, GetBool, Add64;
  }

  /** A report is read back exactly when it is settled, within the limits, and no phase in it has completed
      more bytes than it committed. */
  lemma ReportReadIff(r: Report, rest: bytes)
    requires ReportHeld(r)
    ensures ReadReport(WriteReport(r, rest)).Got? <==> ReportReadable(r)
    ensures ReadReport(WriteReport(r, rest)).Got? ==> ReadReport(WriteReport(r, rest)) == Got(r, rest)
  {
    hide PutU64, GetU64, PutU32, GetU32, PutBool, GetBool, WriteStepAcc, ReadStepAcc, WriteFences, ReadFences, PutMany,
         GetMany, Add64, StepAccFits, SummaryFits, WriteSummary, FenceFits, Settled;
    if ReportReadable(r) {
      ReportRoundTrip(r, rest);
    } else if ReadReport(WriteReport(r, rest)).Got? {
      var log := FenceLog(r.fences, r.fencesObserved);
      var b8 := PutBool(r.withCancellation, rest);
      var b7 := WriteFences(log, b8);
      SummariesReadGood(r.phases, WriteStepAcc(r.acc, b7));
      SummariesRoundTrip(r.phases, WriteStepAcc(r.acc, b7));
      StepAccReads(r.acc, b7);
      FencesReadIff(log, b8);
    }
  }

  lemma HistoryReadIff(job: Job, bare: Job, rest: bytes)
    requires HistoryWritten(job) && bare.contract == job.contract
    ensures ReadHistory(bare, WriteHistory(job, rest)).Got? <==> forall r :: r in job.history ==> ReportReadable(r)
  {
    hide PutU32, GetU32, PutMany, GetMany, WriteReport, ReadReport, ReportHeld, ReportReadable, StepAccFits,
         SummaryFits, FenceFits, Settled;
    if forall r :: r in job.history ==> ReportReadable(r) {
      HistoryFitsIff(job);
      HistoryRoundTrip(job, bare, rest);
    } else if ReadHistory(bare, WriteHistory(job, rest)).Got? {
      ReportsReadGood(job.history, rest);
    }
  }

  lemma HistoryFitsIff(job: Job)
    requires HistoryWritten(job) && forall r :: r in job.history ==> ReportReadable(r)
    ensures HistoryFits(job)
  {
    hide StepAccFits, SummaryFits, FenceFits, Settled;
    forall r | r in job.history ensures ReportFits(r) {
      assert ReportReadable(r) && ReportHeld(r);
    }
  }

  lemma ReportsReadGood(reports: seq<Report>, rest: bytes)
    requires forall r :: r in reports ==> ReportHeld(r)
    requires GetMany(ReportReader(), |reports|, [], PutMany(WriteReport, reports, rest)).Got?
    ensures forall r :: r in reports ==> ReportReadable(r)
  {
    hide WriteReport, ReadReport, ReportHeld, ReportReadable;
    ghost var good := ReportGood();
    forall i, d, b | 0 <= i < |reports| && ReportReader()(d, WriteReport(reports[i], b)).Got?
      ensures good(reports[i]) && ReportReader()(d, WriteReport(reports[i], b)).rest == b
    {
      assert reports[i] in reports;
      ReportReadIff(reports[i], b);
    }
    AllGood(WriteReport, ReportReader(), reports, good, [], rest);
    assert forall r :: r in reports ==> good(r);
  }

  ghost function ReportGood(): Report -> bool {
    (r: Report) => ReportReadable(r)
  }

  // ---------------------------------------------------------------------------
  // Jobs and states
  // ---------------------------------------------------------------------------

  lemma JobFitsIff(job: Job)
    requires JobWritten(job) && JobReadable(job)
    ensures JobFits(job)
  {
    hide HeadFits, GroupsFit, TopologyError, ValidLinks, LinkFits, StepWritten, StepReadable, StepFits, HistoryWritten,
         ReportReadable, HistoryFits, RetiredFits, AllocatorsFit;
    HistoryFitsIff(job);
    if job.step.Some? {
      StepFitsIff(job.step.value, job.groups.Keys);
    }
  }

  lemma StepsReadIff(job: Job, bare: Job, rest: bytes)
    requires StepsWritten(job) && bare.groups == job.groups
    requires ReadSteps(bare, WriteSteps(job, rest)).Got?
    ensures job.step.Some? ==> StepReadable(job.step.value)
  {
    hide PutU64, GetU64, PutBool, GetBool, WriteOpenStep, ReadOpenStep, StepWritten, StepReadable;
    if job.step.Some? {
      StepReadIff(job.step.value, job.groups.Keys, bare.epoch, rest);
    }
  }

  /** A written job is read back exactly when its evidence names registered groups, no list in it is too
      long and no counter of bytes has wrapped. */
  lemma JobReadIff(job: Job, rest: bytes)
    requires JobWritten(job)
    ensures ReadJob(WriteJob(job, rest)).Got? <==> JobReadable(job)
    ensures JobReadable(job) ==> ReadJob(WriteJob(job, rest)) == Got(DurableJob(job), rest)
  {
    hide WriteJob, ReadJob, DurableJob, JobFits, JobWritten, JobReadable;
    if JobReadable(job) {
      JobFitsIff(job);
      JobRoundTrip(job, rest);
    } else if ReadJob(WriteJob(job, rest)).Got? {
      JobIsRefused(job, rest);
    }
  }

  lemma JobIsRefused(job: Job, rest: bytes)
    requires JobWritten(job) && ReadJob(WriteJob(job, rest)).Got?
    ensures JobReadable(job)
  {
    hide WriteHead, ReadHead, WriteGroups, ReadGroups, WriteTopology, ReadTopology, WriteRetirements, ReadRetirements,
         WriteSteps, ReadSteps, WriteHistory, ReadHistory, WriteAllocators, ReadAllocators, HeadFits, GroupsFit,
         TopologyFits, StepsWritten, HistoryWritten, AllocatorsFit, NoLoad, DurableStep, TopologyError, ValidLinks,
         LinkFits, RetiredFits, StepReadable, ReportReadable, SortedIds;
    var b6 := WriteAllocators(job.ids, rest);
    var b5 := WriteHistory(job, b6);
    var b4 := WriteSteps(job, b5);
    var b3 := WriteRetirements(job, b4);
    var b2 := WriteTopology(job.topology, b3);
    var head := Bare(job.id, job.name, job.generation, job.contract, job.incarnation, job.boot, job.epoch, job.retired);
    HeadRoundTrip(job, WriteGroups(job, b2));
    GroupsRoundTrip(job, head, b2);
    var grouped := head.(groups := job.groups, groupOrder := SortedIds(job.groups.Keys), load := NoLoad(job.groups));
    EvidenceReadIff(job.topology, grouped, b3);
    TopologyRoundTripWritten(job.topology, grouped, b3);
    var linked := grouped.(topology := job.topology);
    RetirementsReadIff(job, linked, b4);
    RetirementsRoundTrip(job, linked, b4);
    var fenced := ReadRetirements(linked, b3).value;
    RetirementsLeave(linked, b3);
    StepsReadIff(job, fenced, b5);
    StepsRoundTripReadable(job, fenced, b5);
    var stepped := ReadSteps(fenced, b4).value;
    HistoryReadIff(job, stepped, b6);
  }

  lemma TopologyRoundTripWritten(t: Topology, job: Job, rest: bytes)
    requires TopologyWritten(t) && forall l :: l in t.links ==> l.group in job.groups
    ensures ReadTopology(job, WriteTopology(t, rest)) == Got(job.(topology := t), rest)
  {
    hide ReadTopology, WriteTopology, TopologyError, ValidLinks, LinkFits;
    TopologyRoundTrip(t, job, rest);
  }

  lemma RetirementsLeave(job: Job, b: bytes)
    requires ReadRetirements(job, b).Got?
    ensures var r := ReadRetirements(job, b).value; r.groups == job.groups && r.contract == job.contract
  {
    hide GetMany, GetU32;
  }

  lemma StepsRoundTripReadable(job: Job, bare: Job, rest: bytes)
    requires StepsWritten(job) && bare.groups == job.groups && (job.step.Some? ==> StepReadable(job.step.value))
    ensures var r := ReadSteps(bare, WriteSteps(job, rest)); r.Got? && r.rest == rest && r.value.contract == bare.contract
  {
    hide ReadSteps, WriteSteps, StepWritten, StepReadable, StepFits, DurableStep;
    if job.step.Some? {
      StepFitsIff(job.step.value, job.groups.Keys);
    }
    StepsRoundTrip(job, bare, rest);
  }

  lemma StateFitsIff(s: State)
    requires StateWritten(s) && Readable(s)
    ensures StateFits(s)
  {
    hide JobFits, JobWritten, JobReadable, PolicyFits, PolicyError, Add64;
    forall k | k in s.jobs ensures JobFits(s.jobs[k]) {
      JobFitsIff(s.jobs[k]);
    }
  }

  ghost function JobGood(): Job -> bool {
    (job: Job) => JobReadable(job)
  }

  lemma JobsReadGood(jobs: seq<Job>, rest: bytes)
    requires forall job :: job in jobs ==> JobWritten(job)
    requires GetMany(JobReader(), |jobs|, [], PutMany(WriteJob, jobs, rest)).Got?
    ensures forall job :: job in jobs ==> JobReadable(job)
  {
    hide WriteJob, ReadJob, JobWritten, JobReadable, DurableJob;
    ghost var good := JobGood();
    forall i, d, b | 0 <= i < |jobs| && JobReader()(d, WriteJob(jobs[i], b)).Got?
      ensures good(jobs[i]) && JobReader()(d, WriteJob(jobs[i], b)).rest == b
    {
      assert jobs[i] in jobs;
      JobReadIff(jobs[i], b);
    }
    AllGood(WriteJob, JobReader(), jobs, good, [], rest);
    assert forall job :: job in jobs ==> good(job);
  }

  /** A written state is restored exactly when it is readable, and then as its durable projection. */
  lemma StateReadIff(s: State)
    requires StateWritten(s) && Serialize(s).Success?
    ensures Deserialize(s.config, Serialize(s).value).Success? <==> Readable(s)
    ensures Readable(s) ==> Deserialize(s.config, Serialize(s).value) == Success(DurableState(s))
  {
    hide StateBytes, Deserialize, DurableState, StateFits, StateWritten, Readable;
    if Readable(s) {
      StateFitsIff(s);
      SnapshotRoundTrip(s);
    } else if Deserialize(s.config, Serialize(s).value).Success? {
      StateIsRefused(s);
    }
  }

  lemma StateIsRefused(s: State)
    requires StateWritten(s) && Serialize(s).Success? && Deserialize(s.config, Serialize(s).value).Success?
    ensures Readable(s)
  {
    hide WriteJob, PutMany, GetMany, PutU64, GetU64, PutU32, GetU32, PutU16, GetU16, WritePolicy, ReadPolicy,
         PolicyFits, PolicyError, JobWritten, JobReadable, Add64, Table, PastAll, JobList;
    var jobs, end := JobList(s), PutU32(STATE_TRAILER, []);
    PolicyRoundTrip(s.policy, PutU64(s.nextJob, PutU32(|s.jobs|, PutMany(WriteJob, jobs, end))));
    JobListWritten(s);
    JobsReadGood(jobs, end);
    JobListHolds(s);
  }

  /** The snapshot of a lone job whose evidence names a group that is not registered is refused as corrupt. */
  lemma LoneJobIsCorrupt(s: State, k: nat)
    requires StateWritten(s) && Serialize(s).Success? && k in s.jobs && s.jobs.Keys == {k}
    requires exists l :: l in s.jobs[k].topology.links && l.group !in s.jobs[k].groups
    ensures Deserialize(s.config, Serialize(s).value) == Failure(CORRUPT_STATE)
  {
    hide WriteJob, ReadJob, PutU64, GetU64, PutU32, GetU32, PutU16, GetU16, WritePolicy, ReadPolicy, PolicyFits,
         PolicyError, JobWritten, Add64, Table, PastAll, JobList;
    var jobs, end := JobList(s), PutU32(STATE_TRAILER, []);
    PolicyRoundTrip(s.policy, PutU64(s.nextJob, PutU32(|s.jobs|, PutMany(WriteJob, jobs, end))));
    LoneJobIsListed(s, k);
    UnregisteredIsCorrupt(s.jobs[k], end);
    assert jobs[1..] == [] && PutMany(WriteJob, [], end) == end;
    assert PutMany(WriteJob, jobs, end) == WriteJob(jobs[0], end);
    BytesNotEmpty(s);
  }

  lemma LoneJobIsListed(s: State, k: nat)
    requires k in s.jobs && s.jobs.Keys == {k}
    ensures JobList(s) == [s.jobs[k]]
  {
    hide JobList;
    JobListHolds(s);
    assert s.jobs.Keys == {k} && |s.jobs| == |s.jobs.Keys| == 1;
  }

  lemma JobListWritten(s: State)
    requires StateWritten(s)
    ensures forall job :: job in JobList(s) ==> JobWritten(job)
  {
    hide JobWritten, PolicyFits, PolicyError, SortedIds;
    SortedIdsMembers(s.jobs.Keys);
    var ids := SortedIds(s.jobs.Keys);
    assert forall i :: 0 <= i < |ids| ==> ids[i] in s.jobs;
  }

  lemma JobListHolds(s: State)
    ensures forall k :: k in s.jobs ==> s.jobs[k] in JobList(s)
  {
    hide SortedIds;
    SortedIdsMembers(s.jobs.Keys);
    var ids, list := SortedIds(s.jobs.Keys), JobList(s);
    forall k | k in s.jobs ensures s.jobs[k] in list {
      var i :| 0 <= i < |ids| && ids[i] == k;
      assert list[i] == s.jobs[k];
    }
  }

  // ---------------------------------------------------------------------------
  // Whatever is reachable can be written
  // ---------------------------------------------------------------------------

  lemma StepWrittenIsHeld(step: Step, groups: set<nat>)
    requires StepWritten(step, groups)
    ensures StepHeld(step)
  {
    hide StepAccFits, FencesHeld, BurstFits, Entries, PhaseFits, PhaseAccFits, PhasesWritten;
    EntriesWritten(step, groups);
  }

  lemma GroupsThatFitAreHeld(job: Job)
    requires GroupsFit(job)
    ensures GroupsHeld(job)
  {
    hide GroupFits, GroupError, GroupList, Table;
    GroupsInOrder(job);
    GroupsBound(job);
  }

  lemma JobWrittenIsHeld(job: Job)
    requires JobWritten(job)
    ensures JobHeld(job)
  {
    hide ContractError, TopologyError, FirstLinkError, LinksAscend, LinkFits, LinkError, RetiredFits, StepWritten,
         StepHeld, GroupsFit, GroupsHeld, ReportHeld, ContractFits;
    GroupsThatFitAreHeld(job);
    if job.step.Some? {
      StepWrittenIsHeld(job.step.value, job.groups.Keys);
    }
  }

  lemma StateWrittenIsHeld(s: State)
    requires StateWritten(s)
    ensures StateHeld(s)
  {
    hide JobWritten, JobHeld, PolicyError, SpecFits, Add64;
    forall k | k in s.jobs ensures JobHeld(s.jobs[k]) {
      JobWrittenIsHeld(s.jobs[k]);
    }
  }
}
