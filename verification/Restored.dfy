/** What any accepted snapshot restores to, whoever wrote it. */
module Restored {
  import opened Bytes
  import opened Results
  import opened Codec
  import opened Model
  import opened Policies
  import opened Order
  import opened Listing
  import opened Records
  import opened OpenSteps
  import opened Durable
  import opened Snapshot

  // ---------------------------------------------------------------------------
  // What is promised
  // ---------------------------------------------------------------------------

  /** An open step without flows, whose phases belong to registered groups and whose committed bytes are
      all accounted for in 64-bit arithmetic. */
  ghost predicate SoundStep(step: Step, groups: map<nat, Group>) {
    && step.id != 0
    && step.flows == map[]
    && Settled(step.acc)
    && Ascending(step.phaseOrder) && |step.phaseOrder| <= MAX_PHASES
    && (forall k :: k in step.phases <==> k in step.phaseOrder)
    && step.phaseAcc.Keys == step.phases.Keys == step.phaseFlows.Keys
    && (forall k :: k in step.phases ==> step.phases[k].id == k != 0 && step.phases[k].spec.group in groups)
    && (forall k :: k in step.phaseAcc ==> step.phaseAcc[k].bytesCommitted == step.phaseAcc[k].bytesCompleted)
    && (forall k :: k in step.phaseFlows ==> step.phaseFlows[k] == 0)
    && |step.fences| <= MAX_FENCES
  }

  ghost predicate SoundJob(job: Job) {
    && job.id != 0 && job.generation != 0 && job.incarnation != 0 && job.boot.Valid()
    && ContractError(job.contract) == OK
    && Ascending(job.groupOrder) && |job.groupOrder| <= job.contract.maxGroups
    && (forall k :: k in job.groups <==> k in job.groupOrder)
    && (forall k :: k in job.groups ==> job.groups[k].id == k && GroupError(job.groups[k]) == OK)
    && job.load == NoLoad(job.groups)
    && ValidLinks(job.topology.links) && (forall l :: l in job.topology.links ==> l.group in job.groups)
    && (job.topology.generation == 0 ==> job.topology.links == [])
    && job.retiredSet == IncarnationsOf(job.retiredList)
    && job.lastClosedStep <= job.highestStep
    && (job.step.Some? ==> SoundStep(job.step.value, job.groups) && job.step.value.id <= job.highestStep)
    && (forall i, j :: 0 <= i < j < |job.history| ==> job.history[i].step < job.history[j].step)
    && (forall r :: r in job.history ==> Settled(r.acc)) && |job.history| <= job.contract.historySteps
    && job.ledger == NO_LEDGER
    && job.incarnation < job.ids.incarnation && job.topology.generation < job.ids.topology
  }

  // ---------------------------------------------------------------------------
  // Open steps
  // ---------------------------------------------------------------------------

  lemma {:induction false} OrderedBySteps(ids: seq<nat>)
    requires forall i :: 0 < i < |ids| ==> ids[i - 1] < ids[i]
    ensures Ascending(ids)
    decreases |ids|
  {
    if ids != [] {
      var front := ids[..|ids| - 1];
      OrderedBySteps(front);
      forall i, j | 0 <= i < j < |ids| ensures ids[i] < ids[j] {
        if j == |ids| - 1 && i < j - 1 {
          assert front[i] < front[j - 1];
        } else if j < |ids| - 1 {
          assert front[i] < front[j];
        }
      }
    }
  }

  ghost predicate SoundEntries(groups: set<nat>, entries: seq<Entry>) {
    && Ascending(IdsOf(entries))
    && forall i :: 0 <= i < |entries| ==>
         && entries[i].phase.id != 0 && entries[i].phase.spec.group in groups
         && entries[i].acc.bytesCommitted == entries[i].acc.bytesCompleted
  }

  lemma EntryRead(groups: set<nat>, done: seq<Entry>, item: Entry)
    requires Reads(EntryReader(groups), done, item)
    ensures item.phase.id != 0 && item.phase.spec.group in groups
    ensures item.acc.bytesCommitted == item.acc.bytesCompleted
    ensures done != [] ==> done[|done| - 1].phase.id < item.phase.id
  {
    hide ReadPhase, ReadPhaseAcc;
  }

  lemma EntriesRead(groups: set<nat>, count: nat, b: bytes)
    requires GetMany(EntryReader(groups), count, [], b).Got?
    ensures |GetMany(EntryReader(groups), count, [], b).value| == count
    ensures SoundEntries(groups, GetMany(EntryReader(groups), count, [], b).value)
  {
    hide ReadEntry, GetMany;
    var entries := GetMany(EntryReader(groups), count, [], b).value;
    ManyRead(EntryReader(groups), count, [], b);
    forall i | 0 <= i < |entries|
      ensures entries[i].phase.id != 0 && entries[i].phase.spec.group in groups
           && entries[i].acc.bytesCommitted == entries[i].acc.bytesCompleted
           && (i > 0 ==> entries[i - 1].phase.id < entries[i].phase.id)
    {
      EntryRead(groups, entries[..i], entries[i]);
    }
    OrderedBySteps(IdsOf(entries));
  }

  lemma FilledIsSound(head: Step, groups: map<nat, Group>, entries: seq<Entry>)
    requires SoundEntries(groups.Keys, entries)
    ensures var s := Filled(head, entries);
      && Ascending(s.phaseOrder) && |s.phaseOrder| == |entries|
      && (forall k :: k in s.phases <==> k in s.phaseOrder)
      && s.phaseAcc.Keys == s.phases.Keys == s.phaseFlows.Keys
      && (forall k :: k in s.phases ==> s.phases[k].id == k != 0 && s.phases[k].spec.group in groups)
      && (forall k :: k in s.phaseAcc ==> s.phaseAcc[k].bytesCommitted == s.phaseAcc[k].bytesCompleted)
      && (forall k :: k in s.phaseFlows ==> s.phaseFlows[k] == 0)
  {
    hide Table, Ascending;
    var ids := IdsOf(entries);
    TableKeys(ids, PhasesOf(entries));
    TableKeys(ids, AccsOf(entries));
    TableKeys(ids, NoFlowsOf(entries));
    forall k | k in ids
      ensures var s := Filled(head, entries);
        && s.phases[k].id == k != 0 && s.phases[k].spec.group in groups
        && s.phaseAcc[k].bytesCommitted == s.phaseAcc[k].bytesCompleted && s.phaseFlows[k] == 0
    {
      var i :| 0 <= i < |ids| && ids[i] == k;
      TableAt(ids, PhasesOf(entries), i);
      TableAt(ids, AccsOf(entries), i);
      TableAt(ids, NoFlowsOf(entries), i);
    }
  }

  /** Reconciliation accounts for every committed byte. */
  lemma ReconciledIsSettled(step: Step, epoch: nat)
    requires step.acc.activeFlows == 0 && step.acc.activeMin == 0
    requires Add64(step.acc.bytesCompleted, step.acc.bytesCancelled) <= step.acc.bytesCommitted < WRAP64
    requires step.acc.bytesCompleted < WRAP64 && step.acc.bytesCancelled < WRAP64
    ensures Settled(Reconcile(step, epoch).acc)
  {}

  lemma StepTailRead(step: Step, b: bytes)
    requires ReadStepTail(step, b).Got?
    ensures var r := ReadStepTail(step, b).value;
      && r == step.(acc := r.acc, fences := r.fences, fencesObserved := r.fencesObserved,
                    intentsSeen := r.intentsSeen, burst := r.burst)
      && r.acc.activeFlows == 0 && r.acc.activeMin == 0
      && Add64(r.acc.bytesCompleted, r.acc.bytesCancelled) <= r.acc.bytesCommitted < WRAP64
      && r.acc.bytesCompleted < WRAP64 && r.acc.bytesCancelled < WRAP64
      && |r.fences| <= MAX_FENCES
  {
    hide ReadStepAcc, GetU64, ReadBurst, GetMany, GetU32, Add64;
    StepAccRead(b);
    var b1 := ReadStepAcc(b).rest;
    FencesRead(b1);
    hide ReadFences;
  }

  lemma FencesRead(b: bytes)
    requires ReadFences(b).Got?
    ensures |ReadFences(b).value.fences| <= MAX_FENCES
  {
    hide ReadFence, GetMany, GetU64, GetU32;
    var b1 := GetU64(b).rest;
    ManyRead(FenceReader(), GetCount(MAX_FENCES, b1).value, [], GetCount(MAX_FENCES, b1).rest);
  }

  lemma OpenStepRead(groups: map<nat, Group>, epoch: nat, b: bytes)
    requires ReadOpenStep(groups.Keys, epoch, b).Got?
    ensures SoundStep(ReadOpenStep(groups.Keys, epoch, b).value, groups)
  {
    hide GetMany, ReadStepTail, Filled, SoundEntries, GetU32, Add64, Settled, Reconcile, GetU64;
    var head, b1 := ReadStepHead(b).value, ReadStepHead(b).rest;
    var count, b2 := GetCount(MAX_PHASES, b1).value, GetCount(MAX_PHASES, b1).rest;
    var entries := GetMany(EntryReader(groups.Keys), count, [], b2);
    EntriesRead(groups.Keys, count, b2);
    FilledIsSound(head, groups, entries.value);
    FilledKeepsHead(head, entries.value);
    var step := ReadStepTail(Filled(head, entries.value), entries.rest).value;
    StepTailRead(Filled(head, entries.value), entries.rest);
    ReconciledIsSettled(step, epoch);
    ReconcileLeaves(step, epoch);
  }

  lemma FilledKeepsHead(head: Step, entries: seq<Entry>)
    ensures Filled(head, entries).id == head.id && Filled(head, entries).flows == head.flows
  {}

  lemma ReconcileLeaves(step: Step, epoch: nat)
    ensures var r := Reconcile(step, epoch);
      && r == step.(acc := r.acc, fences := r.fences, fencesObserved := r.fencesObserved)
      && (|step.fences| <= MAX_FENCES ==> |r.fences| <= MAX_FENCES)
  {}

  // ---------------------------------------------------------------------------
  // Jobs
  // ---------------------------------------------------------------------------

  lemma GroupsRead(job: Job, b: bytes)
    requires ReadGroups(job, b).Got?
    ensures var r := ReadGroups(job, b).value;
      && r == job.(groups := r.groups, groupOrder := r.groupOrder, load := NoLoad(r.groups))
      && Ascending(r.groupOrder) && |r.groupOrder| <= job.contract.maxGroups
      && (forall k :: k in r.groups <==> k in r.groupOrder)
      && forall k :: k in r.groups ==> r.groups[k].id == k && GroupError(r.groups[k]) == OK
  {
    hide GetMany, GetU32, GroupError, Table, Ascending, ReadGroup;
    var count, b1 := GetCount(MAX_GROUPS, b).value, GetCount(MAX_GROUPS, b).rest;
    var list := GetMany(GroupReader(), count, [], b1).value;
    var ids := IdsOfGroups(list);
    ManyRead(GroupReader(), count, [], b1);
    forall i | 0 <= i < |list|
      ensures GroupError(list[i]) == OK && (i > 0 ==> list[i - 1].id < list[i].id)
    {
      GroupRead(list[..i], list[i]);
    }
    OrderedBySteps(ids);
    TableKeys(ids, list);
    forall k | k in ids ensures Table(ids, list)[k].id == k && GroupError(Table(ids, list)[k]) == OK {
      var i :| 0 <= i < |ids| && ids[i] == k;
      TableAt(ids, list, i);
    }
  }

  lemma GroupRead(done: seq<Group>, item: Group)
    requires Reads(GroupReader(), done, item)
    ensures GroupError(item) == OK && (done != [] ==> done[|done| - 1].id < item.id)
  {
    hide GetU64, GetU32, GetString, GetName, GroupError;
  }

  lemma LinkRead(groups: set<nat>, done: seq<Link>, item: Link)
    requires Reads(LinkReader(groups), done, item)
    ensures item.group in groups
  {
    hide GetU64, GetString, GetName;
  }

  lemma TopologyRead(job: Job, b: bytes)
    requires ReadTopology(job, b).Got?
    ensures var r := ReadTopology(job, b).value;
      && r == job.(topology := r.topology)
      && ValidLinks(r.topology.links) && (forall l :: l in r.topology.links ==> l.group in job.groups)
      && (r.topology.generation == 0 ==> r.topology.links == [])
  {
    hide GetMany, GetU64, GetU32, GetName, ReadLink, FirstLinkError, LinkError;
    var r := ReadTopology(job, b).value;
    var b2 := GetName(LABELS, GetU64(b).rest).rest;
    var count, b3 := GetCount(MAX_COLLECTION_ITEMS, b2).value, GetCount(MAX_COLLECTION_ITEMS, b2).rest;
    ManyRead(LinkReader(job.groups.Keys), count, [], b3);
    var links := r.topology.links;
    forall l | l in links ensures l.group in job.groups {
      var i :| 0 <= i < |links| && links[i] == l;
      LinkRead(job.groups.Keys, links[..i], links[i]);
    }
    LinksErrorIff(links);
  }

  lemma StepsRead(job: Job, b: bytes)
    requires ReadSteps(job, b).Got?
    ensures var r := ReadSteps(job, b).value;
      && r == job.(highestStep := r.highestStep, lastClosedStep := r.lastClosedStep, step := r.step)
      && r.lastClosedStep <= r.highestStep
      && (r.step.Some? ==> SoundStep(r.step.value, job.groups) && r.step.value.id <= r.highestStep)
  {
    hide GetU64, GetBool, ReadOpenStep, SoundStep;
    var b2 := GetU64(GetU64(b).rest).rest;
    if GetBool(b2).value {
      OpenStepRead(job.groups, job.epoch, GetBool(b2).rest);
    }
  }

  lemma ReportRead(done: seq<Report>, item: Report)
    requires Reads(ReportReader(), done, item)
    ensures Settled(item.acc) && (done != [] ==> done[|done| - 1].step < item.step)
  {
    hide GetU64, GetCount, GetMany, ReadStepAcc, ReadFences, GetBool, Settled;
  }

  lemma HistoryRead(job: Job, b: bytes)
    requires ReadHistory(job, b).Got?
    ensures var r := ReadHistory(job, b).value;
      && r == job.(history := r.history)
      && (forall i, j :: 0 <= i < j < |r.history| ==> r.history[i].step < r.history[j].step)
      && (forall h :: h in r.history ==> Settled(h.acc)) && |r.history| <= job.contract.historySteps
  {
    hide GetMany, GetU32, ReadNextReport, Settled;
    var count, b1 := GetCount(MAX_HISTORY, b).value, GetCount(MAX_HISTORY, b).rest;
    var history := ReadHistory(job, b).value.history;
    ManyRead(ReportReader(), count, [], b1);
    forall i | 0 <= i < |history|
      ensures Settled(history[i].acc) && (i > 0 ==> history[i - 1].step < history[i].step)
    {
      ReportRead(history[..i], history[i]);
    }
    var ids := seq(|history|, i requires 0 <= i < |history| => history[i].step);
    OrderedBySteps(ids);
    forall i, j | 0 <= i < j < |history| ensures history[i].step < history[j].step {
      assert ids[i] < ids[j];
    }
  }

  lemma HeadRead(b: bytes)
    requires ReadHead(b).Got?
    ensures var r := ReadHead(b).value;
      && r == Bare(r.id, r.name, r.generation, r.contract, r.incarnation, r.boot, r.epoch, r.retired)
      && r.id != 0 && r.generation != 0 && r.incarnation != 0 && r.boot.Valid() && ContractError(r.contract) == OK
  {
    hide GetU64, GetString, GetBool, ReadContract, ContractError;
  }

  lemma RetirementsRead(job: Job, b: bytes)
    requires ReadRetirements(job, b).Got?
    ensures var r := ReadRetirements(job, b).value;
      && r == job.(retiredList := r.retiredList, retiredSet := r.retiredSet)
      && r.retiredSet == IncarnationsOf(r.retiredList)
  {
    hide GetMany, GetU32, IncarnationsOf;
  }

  lemma AllocatorsRead(job: Job, b: bytes)
    requires ReadAllocators(job, b).Got?
    ensures var r := ReadAllocators(job, b).value;
      r == job.(ids := r.ids) && job.incarnation < r.ids.incarnation && job.topology.generation < r.ids.topology
  {
    hide GetU64;
  }

  lemma JobRead(b: bytes)
    requires ReadJob(b).Got?
    ensures SoundJob(ReadJob(b).value)
  {
    hide ReadHead, ReadGroups, ReadTopology, ReadRetirements, ReadSteps, ReadHistory, ReadAllocators, SoundStep,
         Settled, NoLoad, ContractError, GroupError, LinksAscend, LinkError, ValidLinks, Ascending;
    var head := ReadHead(b);
    var grouped := ReadGroups(head.value, head.rest);
    var linked := ReadTopology(grouped.value, grouped.rest);
    var fenced := ReadRetirements(linked.value, linked.rest);
    var stepped := ReadSteps(fenced.value, fenced.rest);
    var reported := ReadHistory(stepped.value, stepped.rest);
    HeadRead(b);
    GroupsRead(head.value, head.rest);
    TopologyRead(grouped.value, grouped.rest);
    RetirementsRead(linked.value, linked.rest);
    StepsRead(fenced.value, fenced.rest);
    HistoryRead(stepped.value, stepped.rest);
    AllocatorsRead(reported.value, reported.rest);
  }

  // ---------------------------------------------------------------------------
  // The state
  // ---------------------------------------------------------------------------

  lemma NextJobRead(done: seq<Job>, item: Job)
    requires Reads(JobReader(), done, item)
    ensures SoundJob(item) && (done != [] ==> done[|done| - 1].id < item.id)
  {
    hide ReadJob, SoundJob;
    var b :| JobReader()(done, b).Got? && JobReader()(done, b).value == item;
    JobRead(b);
  }

  lemma {:induction false} PastEach(next: nat, jobs: seq<Job>)
    ensures next <= PastAll(next, jobs)
    ensures forall i :: 0 <= i < |jobs| ==> Add64(jobs[i].id, 1) <= PastAll(next, jobs)
    decreases |jobs|
  {
    hide Add64;
    if jobs != [] {
      PastEach(Max(next, Add64(jobs[0].id, 1)), jobs[1..]);
      assert forall i :: 0 < i < |jobs| ==> jobs[i] == jobs[1..][i - 1];
    }
  }

  ghost predicate SoundState(s: State) {
    && ValidPolicy(s.policy)
    && 0 < s.nextJob && |s.jobs| <= s.config.maxJobs
    && forall k :: k in s.jobs ==> s.jobs[k].id == k && Add64(k, 1) <= s.nextJob && SoundJob(s.jobs[k])
  }

  lemma JobsRead(s: State, b: bytes)
    requires ReadJobs(s, b).Got? && 0 < s.nextJob
    ensures var r := ReadJobs(s, b).value;
      && r == s.(jobs := r.jobs, nextJob := r.nextJob) && s.nextJob <= r.nextJob
      && |r.jobs| <= s.config.maxJobs
      && forall k :: k in r.jobs ==> r.jobs[k].id == k && Add64(k, 1) <= r.nextJob && SoundJob(r.jobs[k])
  {
    hide GetMany, GetU32, ReadNextJob, SoundJob, Table, Ascending, Add64, PastAll;
    var count, b1 := GetCount(s.config.maxJobs, b).value, GetCount(s.config.maxJobs, b).rest;
    var list := GetMany(JobReader(), count, [], b1).value;
    var ids := IdsOfJobs(list);
    ManyRead(JobReader(), count, [], b1);
    forall i | 0 <= i < |list| ensures SoundJob(list[i]) && (i > 0 ==> list[i - 1].id < list[i].id) {
      NextJobRead(list[..i], list[i]);
    }
    OrderedBySteps(ids);
    TableKeys(ids, list);
    PastEach(s.nextJob, list);
    forall k | k in ids
      ensures Table(ids, list)[k].id == k && SoundJob(Table(ids, list)[k]) && Add64(k, 1) <= PastAll(s.nextJob, list)
    {
      var i :| 0 <= i < |ids| && ids[i] == k;
      TableAt(ids, list, i);
    }
    assert Table(ids, list).Keys == set k | k in ids;
    AscendingSize(ids, Table(ids, list).Keys);
  }

  /** Any bytes that are accepted restore a sound state, whoever wrote them. */
  lemma AcceptedIsSound(config: Config, b: bytes)
    requires Deserialize(config, b).Success?
    ensures SoundState(Deserialize(config, b).value) && Deserialize(config, b).value.config == config
  {
    hide GetU32, GetU16, GetU64, ReadPolicy, ReadJobs, SoundJob, ValidPolicy, PolicyError, Add64;
    var b3 := GetU16(GetU16(GetU32(b).rest).rest).rest;
    var policy := ReadPolicy(GetU64(b3).rest);
    var next := GetU64(policy.rest);
    PolicyErrorIff(policy.value);
    JobsRead(State(config, GetU64(b3).value, policy.value, map[], next.value), next.rest);
  }
}
