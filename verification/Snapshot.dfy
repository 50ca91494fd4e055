/** The snapshot: the durable part of the fabric's state as bytes, and the strict way back. */
module Snapshot {
  import opened Bytes
  import opened Results
  import opened Codec
  import opened Model
  import opened Policies
  import opened Order
  import opened Listing
  import opened Records
  import opened OpenSteps
  import opened Durable

  const STATE_MAGIC := 0x53465454
  const STATE_TRAILER := 0x45504F44
  const STATE_FORMAT := 1

  // ---------------------------------------------------------------------------
  // A job: identity and contract
  // ---------------------------------------------------------------------------

  function WriteHead(job: Job, rest: bytes): bytes {
    PutU64(job.id, PutString(job.name, PutU64(job.generation, PutU64(job.incarnation, PutU64(job.boot.hi,
    PutU64(job.boot.lo, PutU64(job.epoch, PutBool(job.retired, WriteContract(job.contract, rest)))))))))
  }

  function Bare(id: nat, name: bytes, generation: nat, contract: Contract, incarnation: nat, boot: Boot, epoch: nat,
                retired: bool): Job {
    Job(id, name, generation, contract, incarnation, boot, epoch, retired, map[], [], Load(map[], map[]),
        Topology(0, Unsupported, []), [], {}, 0, 0, None, [], NO_LEDGER, Allocators(1, 1, 1, 1, 1))
  }

  function ReadHead(b: bytes): Read<Job> {
    var (id, b1) :- GetU64(b);
    if id == 0 then Bad(CORRUPT_STATE) else
    var (name, b2) :- GetString(b1);
    var (generation, b3) :- GetU64(b2);
    if generation == 0 then Bad(CORRUPT_STATE) else
    var (incarnation, b4) :- GetU64(b3);
    if incarnation == 0 then Bad(CORRUPT_STATE) else
    var (hi, b5) :- GetU64(b4);
    var (lo, b6) :- GetU64(b5);
    if !Boot(hi, lo).Valid() then Bad(CORRUPT_STATE) else
    var (epoch, b7) :- GetU64(b6);
    var (retired, b8) :- GetBool(b7);
    var (contract, b9) :- ReadContract(b8);
    Got(Bare(id, name, generation, contract, incarnation, Boot(hi, lo), epoch, retired), b9)
  }

  predicate HeadFits(job: Job) {
    && 0 < job.id < U64_LIMIT && Text(job.name) && 0 < job.generation < U64_LIMIT && 0 < job.incarnation < U64_LIMIT
    && job.boot.hi < U64_LIMIT && job.boot.lo < U64_LIMIT && job.boot.Valid() && job.epoch < U64_LIMIT
    && ContractFits(job.contract) && ContractError(job.contract) == OK
  }

  lemma HeadRoundTrip(job: Job, rest: bytes)
    requires HeadFits(job)
    ensures ReadHead(WriteHead(job, rest))
         == Got(Bare(job.id, job.name, job.generation, job.contract, job.incarnation, job.boot, job.epoch, job.retired),
                rest)
  {
    hide PutU64, GetU64, PutBool, GetBool, PutString, GetString, WriteContract, ReadContract, ContractFits,
         ContractError;
    ContractRoundTrip(job.contract, rest);
  }

  // ---------------------------------------------------------------------------
  // Groups
  // ---------------------------------------------------------------------------

  ghost function GroupIds(job: Job): seq<nat> {
    SortedIds(set k | k in job.groupOrder && k in job.groups)
  }

  ghost function GroupList(job: Job): (r: seq<Group>)
    ensures |r| == |GroupIds(job)|
  {
    SortedIdsMembers(set k | k in job.groupOrder && k in job.groups);
    Pick(GroupIds(job), job.groups)
  }

  ghost function WriteGroups(job: Job, rest: bytes): bytes {
    PutU32(|GroupList(job)|, PutMany(WriteGroup, GroupList(job), rest))
  }

  function GroupReader(): (seq<Group>, bytes) -> Read<Group> {
    (done: seq<Group>, b: bytes) => ReadGroup(done, b)
  }

  function IdsOfGroups(groups: seq<Group>): seq<nat> {
    seq(|groups|, i requires 0 <= i < |groups| => groups[i].id)
  }

  function WithGroups(job: Job, list: seq<Group>): Job {
    var ids := IdsOfGroups(list);
    job.(groups := Table(ids, list), groupOrder := ids, load := NoLoad(Table(ids, list)))
  }

  function ReadGroups(job: Job, b: bytes): Read<Job> {
    var (count, b1) :- GetCount(MAX_GROUPS, b);
    if count > job.contract.maxGroups then Bad(CORRUPT_STATE) else
    var (list, b2) :- GetMany(GroupReader(), count, [], b1);
    Got(WithGroups(job, list), b2)
  }

  ghost predicate GroupsFit(job: Job) {
    && (forall k :: k in job.groupOrder <==> k in job.groups)
    && |job.groups| <= job.contract.maxGroups && |job.groups| <= MAX_GROUPS
    && forall k :: k in job.groups ==>
         job.groups[k].id == k && GroupFits(job.groups[k]) && GroupError(job.groups[k]) == OK
  }

  lemma GroupIdsSorted(job: Job)
    requires GroupsFit(job)
    ensures GroupIds(job) == SortedIds(job.groups.Keys) && Ascending(GroupIds(job))
    ensures forall k :: k in GroupIds(job) <==> k in job.groups
  {
    hide GroupFits, GroupError, SortedIds, Ascending;
    var ids := set k | k in job.groupOrder && k in job.groups;
    assert ids == job.groups.Keys;
    SortedIdsMembers(ids);
  }

  lemma GroupsInOrder(job: Job)
    requires GroupsFit(job)
    ensures |GroupList(job)| == |job.groups| == |GroupIds(job)|
    ensures Table(GroupIds(job), GroupList(job)) == job.groups
    ensures GroupIds(job) == IdsOfGroups(GroupList(job))
    ensures forall i :: 0 <= i < |GroupList(job)| ==>
              GroupFits(GroupList(job)[i]) && GroupError(GroupList(job)[i]) == OK
  {
    hide GroupFits, GroupError, Table;
    GroupIdsSorted(job);
    var ids := GroupIds(job);
    assert forall i :: 0 <= i < |ids| ==> ids[i] in job.groups;
    TableOfPick(ids, job.groups);
  }

  lemma GroupsRoundTrip(job: Job, bare: Job, rest: bytes)
    requires GroupsFit(job) && bare.contract == job.contract
    ensures ReadGroups(bare, WriteGroups(job, rest))
         == Got(bare.(groups := job.groups, groupOrder := SortedIds(job.groups.Keys), load := NoLoad(job.groups)), rest)
  {
    hide WriteGroup, ReadGroup, GroupFits, GroupError, PutU32, GetU32, NoLoad, GroupList, GroupIds, PutMany, GetMany,
         Table, GroupsFit, SortedIds, Ascending, IdsOfGroups, GroupReader;
    GroupsInOrder(job);
    GroupIdsSorted(job);
    GroupsBound(job);
    GroupListRoundTrip(GroupList(job), rest);
  }

  lemma GroupListRoundTrip(list: seq<Group>, rest: bytes)
    requires Ascending(IdsOfGroups(list))
    requires forall i :: 0 <= i < |list| ==> GroupFits(list[i]) && GroupError(list[i]) == OK
    ensures GetMany(GroupReader(), |list|, [], PutMany(WriteGroup, list, rest)) == Got(list, rest)
  {
    hide WriteGroup, ReadGroup, GroupFits, GroupError, Ascending;
    forall i, r | 0 <= i < |list| ensures GroupReader()([] + list[..i], WriteGroup(list[i], r)) == Got(list[i], r) {
      assert [] + list[..i] == list[..i];
      if i > 0 {
        AscendingStep(IdsOfGroups(list), i);
      }
      GroupRoundTrip(list[..i], list[i], r);
    }
    ManyRoundTrip(WriteGroup, GroupReader(), list, list, [], rest);
    assert [] + list == list;
  }

  lemma GroupsBound(job: Job)
    requires GroupsFit(job)
    ensures |job.groups| <= MAX_GROUPS && |job.groups| <= job.contract.maxGroups
  {}

  // ---------------------------------------------------------------------------
  // Evidence
  // ---------------------------------------------------------------------------

  function WriteTopology(t: Topology, rest: bytes): bytes {
    PutU64(t.generation, PutName(LABELS, t.evidence, PutU32(|t.links|, PutMany(WriteLink, t.links, rest))))
  }

  function LinkReader(groups: set<nat>): (seq<Link>, bytes) -> Read<Link> {
    (done: seq<Link>, b: bytes) => ReadLink(groups, done, b)
  }

  function TopologyError(t: Topology): ErrorCode {
    if t.generation == 0 && t.links == [] then OK
    else if t.generation == 0 then INVALID_ARGUMENT
    else LinksError(t.links)
  }

  function ReadTopology(job: Job, b: bytes): Read<Job> {
    var (generation, b1) :- GetU64(b);
    var (evidence, b2) :- GetName(LABELS, b1);
    var (count, b3) :- GetCount(MAX_COLLECTION_ITEMS, b2);
    var (links, b4) :- GetMany(LinkReader(job.groups.Keys), count, [], b3);
    var t := Topology(generation, evidence, links);
    if TopologyError(t) != OK then Bad(TopologyError(t)) else Got(job.(topology := t), b4)
  }

  ghost predicate TopologyFits(t: Topology, groups: set<nat>) {
    && t.generation < U64_LIMIT && TopologyError(t) == OK && ValidLinks(t.links)
    && forall l :: l in t.links ==> LinkFits(l) && l.group in groups
  }

  lemma LinksRoundTrip(links: seq<Link>, groups: set<nat>, rest: bytes)
    requires LinksAscend(links) && forall l :: l in links ==> LinkFits(l) && l.group in groups
    ensures GetMany(LinkReader(groups), |links|, [], PutMany(WriteLink, links, rest)) == Got(links, rest)
  {
    hide WriteLink, ReadLink, LinkFits;
    forall i, r | 0 <= i < |links|
      ensures LinkReader(groups)([] + links[..i], WriteLink(links[i], r)) == Got(links[i], r)
    {
      assert links[i] in links;
      assert [] + links[..i] == links[..i];
      LinkRoundTrip(groups, links[..i], links[i], r);
    }
    ManyRoundTrip(WriteLink, LinkReader(groups), links, links, [], rest);
    assert [] + links == links;
  }

  lemma TopologyRoundTrip(t: Topology, job: Job, rest: bytes)
    requires TopologyFits(t, job.groups.Keys)
    ensures ReadTopology(job, WriteTopology(t, rest)) == Got(job.(topology := t), rest)
  {
    hide WriteLink, ReadLink, LinkFits, PutU64, GetU64, PutU32, GetU32, PutName, GetName, PutMany, GetMany,
         FirstLinkError, LinkError;
    SmallNamed(HardCriticality, Fenced, t.evidence);
    NameRoundTrip(LABELS, t.evidence, PutU32(|t.links|, PutMany(WriteLink, t.links, rest)));
    LinksRoundTrip(t.links, job.groups.Keys, rest);
  }

  // ---------------------------------------------------------------------------
  // Retired incarnations, steps, history, allocators
  // ---------------------------------------------------------------------------

  function WriteRetirements(job: Job, rest: bytes): bytes {
    PutU32(|job.retiredList|, PutMany(WriteRetired, job.retiredList, rest))
  }

  function RetiredReader(): (seq<Retired>, bytes) -> Read<Retired> {
    (done: seq<Retired>, b: bytes) => ReadRetired(b)
  }

  function ReadRetirements(job: Job, b: bytes): Read<Job> {
    var (count, b1) :- GetCount(MAX_RETIRED, b);
    var (list, b2) :- GetMany(RetiredReader(), count, [], b1);
    Got(job.(retiredList := list, retiredSet := IncarnationsOf(list)), b2)
  }

  ghost predicate RetirementsFit(job: Job) {
    |job.retiredList| <= MAX_RETIRED && forall r :: r in job.retiredList ==> RetiredFits(r)
  }

  lemma RetirementsRoundTrip(job: Job, bare: Job, rest: bytes)
    requires RetirementsFit(job)
    ensures ReadRetirements(bare, WriteRetirements(job, rest))
         == Got(bare.(retiredList := job.retiredList, retiredSet := IncarnationsOf(job.retiredList)), rest)
  {
    hide WriteRetired, ReadRetired, RetiredFits, PutU32, GetU32;
    var list := job.retiredList;
    forall i, r | 0 <= i < |list| ensures RetiredReader()([] + list[..i], WriteRetired(list[i], r)) == Got(list[i], r) {
      assert list[i] in list;
      RetiredRoundTrip(list[i], r);
    }
    ManyRoundTrip(WriteRetired, RetiredReader(), list, list, [], rest);
    assert [] + list == list;
  }

  ghost function WriteSteps(job: Job, rest: bytes): bytes {
    PutU64(job.highestStep, PutU64(job.lastClosedStep,
      if job.step.Some? then PutBool(true, WriteOpenStep(job.step.value, rest)) else PutBool(false, rest)))
  }

  function ReadSteps(job: Job, b: bytes): Read<Job> {
    var (highest, b1) :- GetU64(b);
    var (lastClosed, b2) :- GetU64(b1);
    if lastClosed > highest then Bad(CORRUPT_STATE) else
    var (open, b3) :- GetBool(b2);
    if !open then Got(job.(highestStep := highest, lastClosedStep := lastClosed, step := None), b3) else
    var (step, b4) :- ReadOpenStep(job.groups.Keys, job.epoch, b3);
    if step.id > highest then Bad(CORRUPT_STATE)
    else Got(job.(highestStep := highest, lastClosedStep := lastClosed, step := Some(step)), b4)
  }

  ghost predicate StepsFit(job: Job) {
    && job.lastClosedStep <= job.highestStep < U64_LIMIT
    && (job.step.Some? ==> StepFits(job.step.value, job.groups.Keys) && job.step.value.id <= job.highestStep)
  }

  lemma StepsRoundTrip(job: Job, bare: Job, rest: bytes)
    requires StepsFit(job) && bare.groups == job.groups
    ensures ReadSteps(bare, WriteSteps(job, rest))
         == Got(bare.(highestStep := job.highestStep, lastClosedStep := job.lastClosedStep,
                      step := if job.step.Some? then Some(DurableStep(job.step.value)) else None), rest)
  {
    hide PutU64, GetU64, PutBool, GetBool, WriteOpenStep, ReadOpenStep, StepFits, DurableStep;
    if job.step.Some? {
      OpenStepRoundTrip(job.step.value, job.groups.Keys, bare.epoch, rest);
      DurableStepId(job.step.value);
    }
  }

  lemma DurableStepId(step: Step)
    ensures DurableStep(step).id == step.id
  {}

  function WriteHistory(job: Job, rest: bytes): bytes {
    PutU32(|job.history|, PutMany(WriteReport, job.history, rest))
  }

  function ReadNextReport(done: seq<Report>, b: bytes): Read<Report> {
    var (r, b1) :- ReadReport(b);
    if done != [] && done[|done| - 1].step >= r.step then Bad(CORRUPT_STATE) else Got(r, b1)
  }

  function ReportReader(): (seq<Report>, bytes) -> Read<Report> {
    (done: seq<Report>, b: bytes) => ReadNextReport(done, b)
  }

  function ReadHistory(job: Job, b: bytes): Read<Job> {
    var (count, b1) :- GetCount(MAX_HISTORY, b);
    var (history, b2) :- GetMany(ReportReader(), count, [], b1);
    if |history| > job.contract.historySteps then Bad(CORRUPT_STATE) else Got(job.(history := history), b2)
  }

  ghost predicate HistoryFits(job: Job) {
    && |job.history| <= job.contract.historySteps && |job.history| <= MAX_HISTORY
    && (forall i, j :: 0 <= i < j < |job.history| ==> job.history[i].step < job.history[j].step)
    && forall r :: r in job.history ==> ReportFits(r)
  }

  lemma HistoryRoundTrip(job: Job, bare: Job, rest: bytes)
    requires HistoryFits(job) && bare.contract == job.contract
    ensures ReadHistory(bare, WriteHistory(job, rest)) == Got(bare.(history := job.history), rest)
  {
    hide WriteReport, ReadReport, ReportFits, PutU32, GetU32;
    var list := job.history;
    forall i, r | 0 <= i < |list| ensures ReportReader()([] + list[..i], WriteReport(list[i], r)) == Got(list[i], r) {
      assert list[i] in list;
      assert [] + list[..i] == list[..i];
      ReportRoundTrip(list[i], r);
    }
    ManyRoundTrip(WriteReport, ReportReader(), list, list, [], rest);
    assert [] + list == list;
  }

  function WriteAllocators(a: Allocators, rest: bytes): bytes {
    PutU64(a.intent, PutU64(a.phase, PutU64(a.burst, PutU64(a.incarnation, PutU64(a.topology, rest)))))
  }

  function ReadAllocators(job: Job, b: bytes): Read<Job> {
    var (intent, b1) :- GetU64(b);
    var (phase, b2) :- GetU64(b1);
    var (burst, b3) :- GetU64(b2);
    var (incarnation, b4) :- GetU64(b3);
    var (topology, b5) :- GetU64(b4);
    if intent == 0 || phase == 0 || burst == 0 || incarnation <= job.incarnation || topology == 0
    then Bad(CORRUPT_STATE)
    else if topology <= job.topology.generation then Bad(CORRUPT_STATE)
    else Got(job.(ids := Allocators(intent, phase, burst, incarnation, topology)), b5)
  }

  predicate AllocatorsFit(job: Job) {
    && 0 < job.ids.intent < U64_LIMIT && 0 < job.ids.phase < U64_LIMIT && 0 < job.ids.burst < U64_LIMIT
    && job.incarnation < job.ids.incarnation < U64_LIMIT && job.topology.generation < job.ids.topology < U64_LIMIT
  }

  lemma AllocatorsRoundTrip(job: Job, bare: Job, rest: bytes)
    requires AllocatorsFit(job) && bare.incarnation == job.incarnation && bare.topology == job.topology
    ensures ReadAllocators(bare, WriteAllocators(job.ids, rest)) == Got(bare.(ids := job.ids), rest)
  {
    hide PutU64, GetU64;
  }

  // ---------------------------------------------------------------------------
  // A whole job
  // ---------------------------------------------------------------------------

  ghost function WriteJob(job: Job, rest: bytes): bytes {
    WriteHead(job, WriteGroups(job, WriteTopology(job.topology, WriteRetirements(job, WriteSteps(job,
      WriteHistory(job, WriteAllocators(job.ids, rest)))))))
  }

  function ReadJob(b: bytes): Read<Job> {
    var (head, b1) :- ReadHead(b);
    var (grouped, b2) :- ReadGroups(head, b1);
    var (linked, b3) :- ReadTopology(grouped, b2);
    var (fenced, b4) :- ReadRetirements(linked, b3);
    var (stepped, b5) :- ReadSteps(fenced, b4);
    var (reported, b6) :- ReadHistory(stepped, b5);
    ReadAllocators(reported, b6)
  }

  /** A job that a snapshot can carry. */
  ghost predicate JobFits(job: Job) {
    && HeadFits(job) && GroupsFit(job) && TopologyFits(job.topology, job.groups.Keys) && RetirementsFit(job)
    && StepsFit(job) && HistoryFits(job) && AllocatorsFit(job)
  }

  /** Reading a written job gives its durable projection. */
  lemma JobRoundTrip(job: Job, rest: bytes)
    requires JobFits(job)
    ensures ReadJob(WriteJob(job, rest)) == Got(DurableJob(job), rest)
  {
    hide WriteHead, ReadHead, WriteGroups, ReadGroups, WriteTopology, ReadTopology, WriteRetirements, ReadRetirements,
         WriteSteps, ReadSteps, WriteHistory, ReadHistory, WriteAllocators, ReadAllocators, HeadFits, GroupsFit,
         TopologyFits, RetirementsFit, StepsFit, HistoryFits, AllocatorsFit, NoLoad, DurableStep;
    var b6 := WriteAllocators(job.ids, rest);
    var b5 := WriteHistory(job, b6);
    var b4 := WriteSteps(job, b5);
    var b3 := WriteRetirements(job, b4);
    var b2 := WriteTopology(job.topology, b3);
    var b1 := WriteGroups(job, b2);
    var head := Bare(job.id, job.name, job.generation, job.contract, job.incarnation, job.boot, job.epoch, job.retired);
    HeadRoundTrip(job, b1);
    GroupsRoundTrip(job, head, b2);
    var grouped := head.(groups := job.groups, groupOrder := SortedIds(job.groups.Keys), load := NoLoad(job.groups));
    TopologyRoundTrip(job.topology, grouped, b3);
    var linked := grouped.(topology := job.topology);
    RetirementsRoundTrip(job, linked, b4);
    var fenced := ReadRetirements(linked, b3).value;
    StepsRoundTrip(job, fenced, b5);
    var stepped := ReadSteps(fenced, b4).value;
    HistoryRoundTrip(job, stepped, b6);
    AllocatorsRoundTrip(job, stepped.(history := job.history), rest);
  }

  // ---------------------------------------------------------------------------
  // The whole state
  // ---------------------------------------------------------------------------

  ghost function JobList(s: State): (r: seq<Job>)
    ensures |r| == |s.jobs|
  {
    SortedIdsMembers(s.jobs.Keys);
    Pick(SortedIds(s.jobs.Keys), s.jobs)
  }

  ghost function StateBytes(s: State): bytes {
    PutU32(STATE_MAGIC, PutU16(STATE_FORMAT, PutU16(0, PutU64(s.now, WritePolicy(s.policy, PutU64(s.nextJob,
    PutU32(|s.jobs|, PutMany(WriteJob, JobList(s), PutU32(STATE_TRAILER, [])))))))))
  }

  function ReadNextJob(done: seq<Job>, b: bytes): Read<Job> {
    var (job, b1) :- ReadJob(b);
    if done != [] && done[|done| - 1].id >= job.id then Bad(CORRUPT_STATE) else Got(job, b1)
  }

  function JobReader(): (seq<Job>, bytes) -> Read<Job> {
    (done: seq<Job>, b: bytes) => ReadNextJob(done, b)
  }

  function IdsOfJobs(jobs: seq<Job>): seq<nat> {
    seq(|jobs|, i requires 0 <= i < |jobs| => jobs[i].id)
  }

  function PastAll(next: nat, jobs: seq<Job>): nat
    decreases |jobs|
  {
    if jobs == [] then next else PastAll(Max(next, Add64(jobs[0].id, 1)), jobs[1..])
  }

  ghost function ReadState(config: Config, b: bytes): Read<State> {
    var (magic, b1) :- GetU32(b);
    if magic != STATE_MAGIC then Bad(CORRUPT_STATE) else
    var (format, b2) :- GetU16(b1);
    if format != STATE_FORMAT then Bad(INCOMPATIBLE_STATE) else
    var (reserved, b3) :- GetU16(b2);
    if reserved != 0 then Bad(CORRUPT_STATE) else
    var (now, b4) :- GetU64(b3);
    var (policy, b5) :- ReadPolicy(b4);
    var (nextJob, b6) :- GetU64(b5);
    if nextJob == 0 then Bad(CORRUPT_STATE) else
    ReadJobs(State(config, now, policy, map[], nextJob), b6)
  }

  function ReadJobs(s: State, b: bytes): Read<State> {
    var (count, b1) :- GetCount(s.config.maxJobs, b);
    var (jobs, b2) :- GetMany(JobReader(), count, [], b1);
    var (trailer, b3) :- GetU32(b2);
    if trailer != STATE_TRAILER then Bad(CORRUPT_STATE)
    else if b3 != [] then Bad(TRAILING_GARBAGE)
    else Got(s.(jobs := Table(IdsOfJobs(jobs), jobs), nextJob := PastAll(s.nextJob, jobs)), b3)
  }

  ghost function Serialize(s: State): Result<bytes> {
    if |StateBytes(s)| > MAX_SNAPSHOT_BYTES then Failure(TOO_LARGE) else Success(StateBytes(s))
  }

  ghost function Deserialize(config: Config, b: bytes): Result<State> {
    if b == [] then Failure(PARTIAL_STATE)
    else if |b| > MAX_SNAPSHOT_BYTES then Failure(STATE_TOO_LARGE)
    else
      match ReadState(config, b)
      case Got(s, _) => Success(s)
      case Bad(error) => Failure(error)
  }

  /** A state that a snapshot can carry. */
  ghost predicate StateFits(s: State) {
    && s.now < U64_LIMIT && 0 < s.nextJob < U64_LIMIT && s.config.maxJobs < U32_LIMIT
    && PolicyFits(s.policy) && PolicyError(s.policy) == OK
    && |s.jobs| <= s.config.maxJobs
    && forall k :: k in s.jobs ==> s.jobs[k].id == k && Add64(k, 1) <= s.nextJob && JobFits(s.jobs[k])
  }

  // ---------------------------------------------------------------------------
  // Round trip of a state
  // ---------------------------------------------------------------------------

  ghost function DurableList(s: State): (r: seq<Job>)
    ensures |r| == |s.jobs|
  {
    seq(|s.jobs|, i requires 0 <= i < |s.jobs| => DurableJob(JobList(s)[i]))
  }

  lemma JobIdsSorted(s: State)
    requires StateFits(s)
    ensures Ascending(SortedIds(s.jobs.Keys))
    ensures forall k :: k in SortedIds(s.jobs.Keys) <==> k in s.jobs
    ensures forall i :: 0 <= i < |JobList(s)| ==>
              && JobList(s)[i].id == SortedIds(s.jobs.Keys)[i]
              && JobFits(JobList(s)[i]) && Add64(JobList(s)[i].id, 1) <= s.nextJob
  {
    hide JobFits, PolicyFits, PolicyError, Add64, Ascending, SortedIds;
    var ids := SortedIds(s.jobs.Keys);
    SortedIdsMembers(s.jobs.Keys);
    assert forall i :: 0 <= i < |ids| ==> ids[i] in s.jobs;
  }

  lemma DurableTable(s: State)
    ensures Table(SortedIds(s.jobs.Keys), DurableList(s)) == DurableState(s).jobs
  {
    hide Table, SortedIds, DurableJob;
    var ids := SortedIds(s.jobs.Keys);
    SortedIdsMembers(s.jobs.Keys);
    var durable := DurableState(s).jobs;
    TableOfPick(ids, durable);
    assert Pick(ids, durable) == DurableList(s);
    assert (map k | k in ids :: durable[k]) == durable;
  }

  lemma JobsInOrder(s: State)
    requires StateFits(s)
    ensures IdsOfJobs(JobList(s)) == SortedIds(s.jobs.Keys) == IdsOfJobs(DurableList(s))
  {
    hide JobFits, StateFits, SortedIds, DurableJob, JobList, DurableList;
    JobIdsSorted(s);
    DurableIds(s);
  }

  lemma DurableItems(s: State)
    ensures forall i :: 0 <= i < |s.jobs| ==> DurableList(s)[i] == DurableJob(JobList(s)[i])
  {}

  lemma DurableIds(s: State)
    ensures forall i :: 0 <= i < |s.jobs| ==> DurableList(s)[i].id == JobList(s)[i].id
  {}

  lemma {:induction false} NothingPast(next: nat, jobs: seq<Job>)
    requires forall i :: 0 <= i < |jobs| ==> Add64(jobs[i].id, 1) <= next
    ensures PastAll(next, jobs) == next
    decreases |jobs|
  {
    hide Add64;
    if jobs != [] {
      NothingPast(next, jobs[1..]);
    }
  }

  lemma SameId(job: Job)
    ensures DurableJob(job).id == job.id
  {}

  lemma JobListRoundTrip(list: seq<Job>, images: seq<Job>, rest: bytes)
    requires |images| == |list| && Ascending(IdsOfJobs(list))
    requires forall i :: 0 <= i < |list| ==> JobFits(list[i]) && images[i] == DurableJob(list[i])
    ensures GetMany(JobReader(), |list|, [], PutMany(WriteJob, list, rest)) == Got(images, rest)
  {
    hide WriteJob, ReadJob, JobFits, Ascending, DurableJob;
    forall i, r | 0 <= i < |list| ensures JobReader()([] + images[..i], WriteJob(list[i], r)) == Got(images[i], r) {
      assert [] + images[..i] == images[..i];
      JobRoundTrip(list[i], r);
      SameId(list[i]);
      if i > 0 {
        SameId(list[i - 1]);
        AscendingStep(IdsOfJobs(list), i);
      }
    }
    ManyRoundTrip(WriteJob, JobReader(), list, images, [], rest);
    assert [] + images == images;
  }

  lemma JobsRoundTrip(s: State)
    requires StateFits(s)
    ensures ReadJobs(s.(jobs := map[]), PutU32(|s.jobs|, PutMany(WriteJob, JobList(s), PutU32(STATE_TRAILER, []))))
         == Got(DurableState(s), [])
  {
    hide WriteJob, ReadJob, JobFits, GetMany, PutMany, PutU32, GetU32, Table, PolicyFits, PolicyError, DurableJob,
         JobList, DurableList, SortedIds, PastAll, Add64, IdsOfJobs, Ascending;
    JobsInOrder(s);
    JobIdsSorted(s);
    DurableItems(s);
    DurableIds(s);
    DurableTable(s);
    JobListRoundTrip(JobList(s), DurableList(s), PutU32(STATE_TRAILER, []));
    NothingPast(s.nextJob, DurableList(s));
  }

  lemma StateRoundTrip(s: State)
    requires StateFits(s)
    ensures ReadState(s.config, StateBytes(s)) == Got(DurableState(s), [])
  {
    hide WriteJob, PutMany, PutU64, GetU64, PutU32, GetU32, PutU16, GetU16, WritePolicy, ReadPolicy, ReadJobs,
         DurableState, PolicyFits, PolicyError, JobFits, Add64;
    JobsRoundTrip(s);
    PolicyRoundTrip(s.policy, PutU64(s.nextJob, PutU32(|s.jobs|, PutMany(WriteJob, JobList(s), PutU32(STATE_TRAILER, [])))));
  }

  /** What is serialised is restored as its durable projection: no flows, no decisions, no receipts,
      no utilisation, and an open step with every committed byte accounted for. */
  lemma SnapshotRoundTrip(s: State)
    requires StateFits(s) && Serialize(s).Success?
    ensures Deserialize(s.config, Serialize(s).value) == Success(DurableState(s))
  {
    hide StateBytes, ReadState, DurableState, StateFits;
    StateRoundTrip(s);
    BytesNotEmpty(s);
  }

  lemma BytesNotEmpty(s: State)
    ensures StateBytes(s) != []
  {
    hide PutMany, PutU64, PutU32, PutU16, WritePolicy, JobList, WriteJob;
    var rest := PutU16(STATE_FORMAT, PutU16(0, PutU64(s.now, WritePolicy(s.policy, PutU64(s.nextJob,
      PutU32(|s.jobs|, PutMany(WriteJob, JobList(s), PutU32(STATE_TRAILER, []))))))));
    assert GetU32(PutU32(STATE_MAGIC, rest)) == Got(STATE_MAGIC, rest);
  }
}
