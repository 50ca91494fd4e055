/** When a restore is invisible in the bytes of the next snapshot. */
module ByteIdentity {
  import opened Bytes
  import opened Codec
  import opened Model
  import opened Policies
  import opened Order
  import opened Traffic
  import opened Listing
  import opened Records
  import opened OpenSteps
  import opened Durable
  import opened Snapshot
  import opened Sums
  import opened Invariants
  import opened Limits
  import opened Restorable
  import opened Runs
  import opened Laws

  /** No phase of the open step has committed bytes that were not completed. */
  ghost predicate StepSettled(step: Step) {
    forall k :: k in step.phases ==> PhaseAccOf(step, k).bytesCommitted == PhaseAccOf(step, k).bytesCompleted
  }

  ghost predicate JobSettled(job: Job) {
    job.step.Some? ==> StepSettled(job.step.value)
  }

  // ---------------------------------------------------------------------------
  // Phase entries
  // ---------------------------------------------------------------------------

  lemma EntryInjective(groups: set<nat>, a: Entry, b: Entry, r: bytes, s: bytes)
    requires EntryFits(groups, a) && EntryFits(groups, b) && WriteEntry(a, r) == WriteEntry(b, s)
    ensures a == b && r == s
  {
    hide WritePhase, ReadPhase, WritePhaseAcc, ReadPhaseAcc, PhaseFits, PhaseAccFits;
    PhaseRoundTrip(a.phase, WritePhaseAcc(a.acc, r));
    PhaseRoundTrip(b.phase, WritePhaseAcc(b.acc, s));
    PhaseAccRoundTrip(a.acc, r);
    PhaseAccRoundTrip(b.acc, s);
  }

  lemma {:induction false} EntriesInjective(groups: set<nat>, a: seq<Entry>, b: seq<Entry>, r: bytes, s: bytes)
    requires |a| == |b| && forall e :: e in a || e in b ==> EntryFits(groups, e)
    requires PutMany(WriteEntry, a, r) == PutMany(WriteEntry, b, s)
    ensures a == b && r == s
    decreases |a|
  {
    hide WriteEntry, EntryFits;
    if a != [] {
      EntryInjective(groups, a[0], b[0], PutMany(WriteEntry, a[1..], r), PutMany(WriteEntry, b[1..], s));
      EntriesInjective(groups, a[1..], b[1..], r, s);
      assert a == [a[0]] + a[1..] && b == [b[0]] + b[1..];
    }
  }

  // ---------------------------------------------------------------------------
  // Open steps
  // ---------------------------------------------------------------------------

  lemma DurableEntries(step: Step, groups: set<nat>)
    requires PhasesFit(step, groups)
    ensures Entries(DurableStep(step)) == AllReleased(Entries(step))
    ensures forall e :: e in Entries(DurableStep(step)) ==> EntryFits(groups, e)
    ensures Entries(DurableStep(step)) == Entries(step) <==> StepSettled(step)
  {
    hide PhaseFits, Entries, PhaseIds;
    var d := DurableStep(step);
    EntriesInOrder(step, groups);
    DurablePhasesFit(step, groups);
    EntriesInOrder(d, groups);
    forall i | 0 <= i < |Entries(step)|
      ensures Entries(d)[i] == Entries(step)[i] <==>
        PhaseAccOf(step, step.phaseOrder[i]).bytesCommitted == PhaseAccOf(step, step.phaseOrder[i]).bytesCompleted
    {}
    if Entries(d) == Entries(step) {
      forall k | k in step.phases
        ensures PhaseAccOf(step, k).bytesCommitted == PhaseAccOf(step, k).bytesCompleted
      {
        var i :| 0 <= i < |step.phaseOrder| && step.phaseOrder[i] == k;
        assert Entries(d)[i] == Entries(step)[i];
      }
    }
  }

  lemma DurablePhasesFit(step: Step, groups: set<nat>)
    requires PhasesFit(step, groups)
    ensures PhasesFit(DurableStep(step), groups)
  {
    hide PhaseFits, Ascending;
  }

  lemma StepTailsAgree(step: Step, r: bytes)
    ensures WriteStepTail(DurableStep(step), r) == WriteStepTail(step, r)
  {
    hide WriteStepAcc, WriteFences, WriteBurst, PutU64;
  }

  /** The written step and its written durable form agree exactly when the step is settled. */
  lemma StepBytesIff(step: Step, groups: set<nat>, r: bytes, s: bytes)
    requires StepFits(step, groups)
    ensures WriteOpenStep(DurableStep(step), r) == WriteOpenStep(step, s) <==> StepSettled(step) && r == s
  {
    hide PutU64, GetU64, PutU32, GetU32, PutMany, WriteEntry, WriteStepTail, ReadStepTail, PhasesFit, StepAccFits,
         FenceLogFits, BurstFits, Entries, EntryFits, AllReleased, StepSettled;
    var d := DurableStep(step);
    EntriesFitIn(step, groups);
    DurableEntries(step, groups);
    StepTailsAgree(step, r);
    StepTailRoundTrip(step, step, r);
    StepTailRoundTrip(step, step, s);
    if WriteOpenStep(d, r) == WriteOpenStep(step, s) {
      EntriesInjective(groups, Entries(d), Entries(step), WriteStepTail(d, r), WriteStepTail(step, s));
    }
  }

  // ---------------------------------------------------------------------------
  // Jobs
  // ---------------------------------------------------------------------------

  /** Everything a job writes before its steps, and everything after. */
  ghost function WriteBefore(job: Job, rest: bytes): bytes {
    WriteHead(job, WriteGroups(job, WriteTopology(job.topology, WriteRetirements(job, rest))))
  }

  function WriteAfter(job: Job, rest: bytes): bytes {
    WriteHistory(job, WriteAllocators(job.ids, rest))
  }

  lemma SameGroups(a: Job, b: Job)
    requires a.groups == b.groups
    requires forall k :: k in a.groupOrder <==> k in a.groups
    requires forall k :: k in b.groupOrder <==> k in b.groups
    ensures GroupList(a) == GroupList(b)
  {
    hide SortedIds;
    GroupIdsAre(a);
    GroupIdsAre(b);
  }

  lemma GroupIdsAre(job: Job)
    requires forall k :: k in job.groupOrder <==> k in job.groups
    ensures GroupIds(job) == SortedIds(job.groups.Keys)
  {
    hide SortedIds;
    var ids := set k | k in job.groupOrder && k in job.groups;
    assert ids == job.groups.Keys;
    SortedIdsMembers(ids);
  }

  lemma JobParts(job: Job, r: bytes)
    requires JobFits(job)
    ensures WriteJob(job, r) == WriteBefore(job, WriteSteps(job, WriteAfter(job, r)))
    ensures WriteJob(DurableJob(job), r) == WriteBefore(job, WriteSteps(DurableJob(job), WriteAfter(job, r)))
  {
    hide PutU64, PutU32, PutBool, PutString, WriteContract, PutMany, WriteTopology, WriteAllocators, WriteSteps,
         HeadFits, TopologyFits, RetirementsFit, StepsFit, HistoryFits, AllocatorsFit, GroupFits, GroupError, SortedIds;
    var d := DurableJob(job);
    SortedIdsMembers(job.groups.Keys);
    assert d.groups == job.groups && d.groupOrder == SortedIds(job.groups.Keys);
    assert forall k :: k in d.groupOrder <==> k in job.groups.Keys;
    assert GroupsFit(job);
    SameGroups(job, d);
  }

  lemma BeforeCancels(job: Job, r: bytes, s: bytes)
    requires JobFits(job) && WriteBefore(job, r) == WriteBefore(job, s)
    ensures r == s
  {
    hide WriteHead, ReadHead, WriteGroups, ReadGroups, WriteTopology, ReadTopology, WriteRetirements, ReadRetirements,
         HeadFits, GroupsFit, TopologyFits, RetirementsFit, StepsFit, HistoryFits, AllocatorsFit, NoLoad;
    var r1, s1 := WriteRetirements(job, r), WriteRetirements(job, s);
    var r2, s2 := WriteTopology(job.topology, r1), WriteTopology(job.topology, s1);
    HeadRoundTrip(job, WriteGroups(job, r2));
    HeadRoundTrip(job, WriteGroups(job, s2));
    GroupsRoundTrip(job, job, r2);
    GroupsRoundTrip(job, job, s2);
    TopologyRoundTrip(job.topology, job, r1);
    TopologyRoundTrip(job.topology, job, s1);
    RetirementsRoundTrip(job, job, r);
    RetirementsRoundTrip(job, job, s);
  }

  lemma AfterCancels(job: Job, r: bytes, s: bytes)
    requires JobFits(job) && WriteAfter(job, r) == WriteAfter(job, s)
    ensures r == s
  {
    hide WriteHistory, ReadHistory, WriteAllocators, ReadAllocators, HeadFits, GroupsFit, TopologyFits, RetirementsFit,
         StepsFit, HistoryFits, AllocatorsFit;
    HistoryRoundTrip(job, job, WriteAllocators(job.ids, r));
    HistoryRoundTrip(job, job, WriteAllocators(job.ids, s));
    AllocatorsRoundTrip(job, job, r);
    AllocatorsRoundTrip(job, job, s);
  }

  lemma StepsBytesIff(job: Job, r: bytes, s: bytes)
    requires StepsFit(job)
    ensures WriteSteps(DurableJob(job), r) == WriteSteps(job, s) <==> JobSettled(job) && r == s
  {
    hide PutU64, GetU64, PutBool, GetBool, WriteOpenStep, StepFits, DurableStep, StepSettled, NoLoad, SortedIds;
    if job.step.Some? {
      StepBytesIff(job.step.value, job.groups.Keys, r, s);
    }
  }

  lemma JobBytesIff(job: Job, r: bytes, s: bytes)
    requires JobFits(job)
    ensures WriteJob(DurableJob(job), r) == WriteJob(job, s) <==> JobSettled(job) && r == s
  {
    hide WriteJob, WriteBefore, WriteAfter, WriteSteps, DurableJob, JobSettled, HeadFits, GroupsFit, TopologyFits,
         RetirementsFit, StepsFit, HistoryFits, AllocatorsFit;
    JobParts(job, r);
    JobParts(job, s);
    StepsBytesIff(job, WriteAfter(job, r), WriteAfter(job, s));
    if WriteJob(DurableJob(job), r) == WriteJob(job, s) {
      BeforeCancels(job, WriteSteps(DurableJob(job), WriteAfter(job, r)), WriteSteps(job, WriteAfter(job, s)));
      AfterCancels(job, r, s);
    }
  }

  lemma {:induction false} JobsBytesIff(jobs: seq<Job>, images: seq<Job>, r: bytes, s: bytes)
    requires |images| == |jobs|
    requires forall i :: 0 <= i < |jobs| ==> JobFits(jobs[i]) && images[i] == DurableJob(jobs[i])
    ensures PutMany(WriteJob, images, r) == PutMany(WriteJob, jobs, s) <==>
      (forall j :: j in jobs ==> JobSettled(j)) && r == s
    decreases |jobs|
  {
    hide WriteJob, JobFits, DurableJob, JobSettled;
    if jobs != [] {
      var r1, s1 := PutMany(WriteJob, images[1..], r), PutMany(WriteJob, jobs[1..], s);
      JobBytesIff(jobs[0], r1, s1);
      JobsBytesIff(jobs[1..], images[1..], r, s);
      assert forall j :: j in jobs <==> j == jobs[0] || j in jobs[1..];
    }
  }

  // ---------------------------------------------------------------------------
  // The state
  // ---------------------------------------------------------------------------

  lemma SameJobs(s: State)
    ensures JobList(DurableState(s)) == DurableList(s) && |DurableState(s).jobs| == |s.jobs|
  {
    hide DurableJob, SortedIds;
    assert DurableState(s).jobs.Keys == s.jobs.Keys;
    SortedIdsMembers(s.jobs.Keys);
    var ids := SortedIds(s.jobs.Keys);
    assert forall i :: 0 <= i < |ids| ==> ids[i] in s.jobs;
  }

  /** A restore leaves the bytes of the next snapshot as they were exactly when no phase of an open step
      has committed bytes that it has not completed. */
  lemma RestoreIsInvisibleIff(s: State)
    requires StateFits(s)
    ensures StateBytes(DurableState(s)) == StateBytes(s) <==> forall k :: k in s.jobs ==> JobSettled(s.jobs[k])
  {
    hide PutMany, PutU32, WriteJob, JobFits, DurableJob, JobList, DurableList, JobSettled, PolicyFits, PolicyError,
         Add64, SortedIds, DurableState, StateBytes;
    var end := PutU32(STATE_TRAILER, []);
    JobIdsSorted(s);
    DurableItems(s);
    JobsBytesIff(JobList(s), DurableList(s), end, end);
    JobListCovers(s);
    HeaderCancels(s, PutMany(WriteJob, DurableList(s), end), PutMany(WriteJob, JobList(s), end));
    SameHeader(s);
  }

  /** The state's bytes up to its jobs. */
  function WriteHeader(s: State, jobs: bytes): bytes {
    PutU32(STATE_MAGIC, PutU16(STATE_FORMAT, PutU16(0, PutU64(s.now, WritePolicy(s.policy, PutU64(s.nextJob,
      PutU32(|s.jobs|, jobs)))))))
  }

  lemma HeaderCancels(s: State, a: bytes, b: bytes)
    requires StateFits(s)
    ensures WriteHeader(s, a) == WriteHeader(s, b) ==> a == b
  {
    hide PutU64, GetU64, PutU32, GetU32, PutU16, GetU16, WritePolicy, ReadPolicy, JobFits, PolicyFits, PolicyError,
         Add64;
    PolicyRoundTrip(s.policy, PutU64(s.nextJob, PutU32(|s.jobs|, a)));
    PolicyRoundTrip(s.policy, PutU64(s.nextJob, PutU32(|s.jobs|, b)));
  }

  lemma SameHeader(s: State)
    ensures var end := PutU32(STATE_TRAILER, []);
      && StateBytes(s) == WriteHeader(s, PutMany(WriteJob, JobList(s), end))
      && StateBytes(DurableState(s)) == WriteHeader(s, PutMany(WriteJob, DurableList(s), end))
  {
    hide PutMany, PutU64, PutU32, PutU16, WritePolicy, WriteJob, JobList, DurableList, DurableState;
    SameJobs(s);
    SameRest(s);
  }

  lemma SameRest(s: State)
    ensures DurableState(s).now == s.now && DurableState(s).policy == s.policy && DurableState(s).nextJob == s.nextJob
  {}

  lemma JobListCovers(s: State)
    ensures (forall j :: j in JobList(s) ==> JobSettled(j)) <==> forall k :: k in s.jobs ==> JobSettled(s.jobs[k])
  {
    hide JobSettled, SortedIds;
    SortedIdsMembers(s.jobs.Keys);
    var ids, list := SortedIds(s.jobs.Keys), JobList(s);
    forall k | k in s.jobs ensures s.jobs[k] in list {
      var i :| 0 <= i < |ids| && ids[i] == k;
      assert list[i] == s.jobs[k];
    }
    forall j | j in list ensures exists k :: k in s.jobs && s.jobs[k] == j {
      var i :| 0 <= i < |list| && list[i] == j;
      assert ids[i] in s.jobs;
    }
  }

  // ---------------------------------------------------------------------------
  // Reachable states
  // ---------------------------------------------------------------------------

  /** No live flow of the job estimates any bytes: nothing is in flight. */
  ghost predicate NothingInFlight(job: Job) {
    job.step.Some? ==> forall p :: p in job.step.value.phases ==> Sum(PhaseEstimate(p), job.step.value.flows) == 0
  }

  lemma SettledIff(w: World, calls: seq<Call>, k: nat, job: Job)
    requires Reaches(w, calls, k, job) && Bounded(job.contract)
    ensures JobSettled(job) <==> NothingInFlight(job)
  {
    hide WorldOk, Legal, RunFrom, Sum, Bounded;
    if job.step.Some? {
      BytesBalance(w, calls, k, job);
    }
  }

  lemma IdleHasNothingInFlight(job: Job)
    requires LiveFlows(job) == map[]
    ensures NothingInFlight(job)
  {
    hide Sum;
    forall p ensures Sum(PhaseEstimate(p), map[]) == 0 {
      SumEmpty(PhaseEstimate(p));
    }
  }

  /** After any run whose snapshot can be read back, a restore is invisible in the next snapshot's bytes
      exactly when no bytes are in flight in any phase; in particular it is when no flow is live. */
  lemma RunIsInvisibleIff(w: World, calls: seq<Call>, s: State)
    requires WorldOk(w) && AllStoreOk(w.state) && Legal(w, calls) && s == RunFrom(w, calls).state && StateInRange(s)
    requires Readable(s) && forall k :: k in s.jobs ==> Bounded(s.jobs[k].contract)
    ensures StateBytes(DurableState(s)) == StateBytes(s) <==> forall k :: k in s.jobs ==> NothingInFlight(s.jobs[k])
    ensures (forall k :: k in s.jobs ==> LiveFlows(s.jobs[k]) == map[]) ==> StateBytes(DurableState(s)) == StateBytes(s)
  {
    hide WorldOk, Legal, RunFrom, AllStoreOk, StateFits, StateWritten, StateInRange, Readable, StateBytes, DurableState,
         NothingInFlight, JobSettled, Bounded;
    RunKeeps(w, calls);
    RunStores(w, calls);
    StateWrittenNow(RunFrom(w, calls));
    StateFitsIff(s);
    RestoreIsInvisibleIff(s);
    forall k | k in s.jobs ensures JobSettled(s.jobs[k]) <==> NothingInFlight(s.jobs[k]) {
      SettledIff(w, calls, k, s.jobs[k]);
    }
    if forall k :: k in s.jobs ==> LiveFlows(s.jobs[k]) == map[] {
      forall k | k in s.jobs ensures NothingInFlight(s.jobs[k]) {
        IdleHasNothingInFlight(s.jobs[k]);
      }
    }
  }
}
