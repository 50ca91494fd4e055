/** How many bytes a snapshot of an idle job takes. */
module Sizes {
  import opened Bytes
  import opened Results
  import opened Utf8
  import opened Codec
  import opened Model
  import opened Policies
  import opened Order
  import opened Traffic
  import opened Listing
  import opened Records
  import opened Snapshot
  import opened Limits

  lemma PutWidths()
    ensures forall v: nat, rest: bytes :: |PutU8(v, rest)| == 1 + |rest|
    ensures forall v: nat, rest: bytes :: |PutU16(v, rest)| == 2 + |rest|
    ensures forall v: nat, rest: bytes :: |PutU32(v, rest)| == 4 + |rest|
    ensures forall v: nat, rest: bytes :: |PutU64(v, rest)| == 8 + |rest|
    ensures forall v: bool, rest: bytes :: |PutBool(v, rest)| == 1 + |rest|
    ensures forall text: bytes, rest: bytes :: |PutString(text, rest)| == 4 + |text| + |rest|
  {}

  lemma {:induction false} ManySize<T(!new)>(write: (T, bytes) -> bytes, items: seq<T>, rest: bytes, size: nat)
    requires forall i, r :: 0 <= i < |items| ==> |write(items[i], r)| <= size + |r|
    ensures |PutMany(write, items, rest)| <= size * |items| + |rest|
    decreases |items|
  {
    if items != [] {
      forall i, r | 0 <= i < |items[1..]| ensures |write(items[1..][i], r)| <= size + |r| {
        assert items[1..][i] == items[i + 1];
      }
      ManySize(write, items[1..], rest, size);
      assert |write(items[0], PutMany(write, items[1..], rest))| <= size + |PutMany(write, items[1..], rest)|;
      assert size * |items| == size * |items[1..]| + size;
    } else {
      assert size * |items| == 0;
    }
  }

  lemma SpecSize(s: ClassSpec, rest: bytes)
    ensures |WriteSpec(s, rest)| <= 50 + |rest|
  {
    hide PutU8, PutU32, PutU64, PutBool;
    PutWidths();
  }

  lemma LimitsSize(p: Policy, rest: bytes)
    ensures |WriteLimits(p, rest)| <= 50 + |rest|
  {
    hide PutU8, PutU32, PutU64, PutBool;
    PutWidths();
  }

  lemma ServiceSize(c: ServiceClass, rest: bytes)
    ensures |WriteService(c, rest)| <= 1 + |rest|
  {
    hide PutU8;
    PutWidths();
  }

  lemma PolicySize(p: Policy, rest: bytes)
    requires |p.classes| <= SERVICE_CLASSES
    ensures |WritePolicy(p, rest)| <= 1000 + |rest|
  {
    hide PutU32, PutU64, WriteSpec, WriteService, WriteLimits;
    PutWidths();
    var b1 := WriteLimits(p, rest);
    var b2 := PutMany(WriteSpec, p.classes, b1);
    LimitsSize(p, rest);
    forall i, r | 0 <= i < |p.classes| ensures |WriteSpec(p.classes[i], r)| <= 50 + |r| {
      SpecSize(p.classes[i], r);
    }
    ManySize(WriteSpec, p.classes, b1, 50);
    forall i, r | 0 <= i < |p.phaseMap| ensures |WriteService(p.phaseMap[i], r)| <= 1 + |r| {
      ServiceSize(p.phaseMap[i], r);
    }
    ManySize(WriteService, p.phaseMap, PutU32(|p.classes|, b2), 1);
  }

  lemma TextSize(t: bytes)
    requires Text(t)
    ensures |t| <= MAX_STRING_BYTES
  {}

  lemma HeadSize(job: Job, rest: bytes)
    requires HeadFits(job)
    ensures |WriteHead(job, rest)| <= 1000 + |rest|
  {
    hide PutU32, PutU64, PutBool, PutString, TextError;
    PutWidths();
    TextSize(job.name);
    TextSize(job.contract.name);
  }

  lemma GroupsSize(job: Job, rest: bytes)
    requires GroupsFit(job)
    ensures |WriteGroups(job, rest)| <= 4 + 300 * |job.groups| + |rest|
  {
    hide GroupError, GroupList, GroupIds, Table, GroupsFit, PutU8, PutU32, PutU64, PutString, TextError;
    PutWidths();
    GroupsInOrder(job);
    var list := GroupList(job);
    forall i, r | 0 <= i < |list| ensures |WriteGroup(list[i], r)| <= 300 + |r| {
      TextSize(list[i].name);
    }
    ManySize(WriteGroup, list, rest, 300);
  }

  lemma TopologySize(t: Topology, rest: bytes)
    requires TopologyWritten(t)
    ensures |WriteTopology(t, rest)| <= 13 + 300 * |t.links| + |rest|
  {
    hide TopologyError, ValidLinks, PutU8, PutU32, PutU64, PutString, TextError;
    PutWidths();
    forall i, r | 0 <= i < |t.links| ensures |WriteLink(t.links[i], r)| <= 300 + |r| {
      assert t.links[i] in t.links;
      TextSize(t.links[i].source);
    }
    ManySize(WriteLink, t.links, rest, 300);
  }

  /** No step is open, none is remembered, and no incarnation is. */
  predicate Quiet(job: Job) {
    job.step.None? && job.history == [] && job.retiredList == [] && |job.groups| <= 2 && |job.topology.links| <= 2
  }

  lemma QuietSize(job: Job, rest: bytes)
    requires JobWritten(job) && Quiet(job)
    ensures |WriteJob(job, rest)| <= 4000 + |rest|
  {
    hide WriteHead, WriteGroups, WriteTopology, HeadFits, GroupsFit, TopologyWritten, StepsWritten, HistoryWritten,
         AllocatorsFit, PutU32, PutU64, PutBool;
    PutWidths();
    var b4 := WriteSteps(job, WriteHistory(job, WriteAllocators(job.ids, rest)));
    var b3 := WriteRetirements(job, b4);
    var b2 := WriteTopology(job.topology, b3);
    TopologySize(job.topology, b3);
    GroupsSize(job, b2);
    HeadSize(job, WriteGroups(job, b2));
  }

  /** A snapshot of few quiet jobs is within the limit. */
  lemma QuietSerializes(s: State)
    requires StateWritten(s) && |s.jobs| <= 1000 && forall k :: k in s.jobs ==> Quiet(s.jobs[k])
    ensures Serialize(s).Success?
  {
    hide WriteJob, JobWritten, Quiet, WritePolicy, JobList, PutU16, PutU32, PutU64, Add64, PolicyError;
    PutWidths();
    var jobs, end := JobList(s), PutU32(STATE_TRAILER, []);
    JobsAreQuiet(s);
    forall i, r | 0 <= i < |jobs| ensures |WriteJob(jobs[i], r)| <= 4000 + |r| {
      QuietSize(jobs[i], r);
    }
    ManySize(WriteJob, jobs, end, 4000);
    PolicySize(s.policy, PutU64(s.nextJob, PutU32(|s.jobs|, PutMany(WriteJob, jobs, end))));
  }

  lemma JobsAreQuiet(s: State)
    requires StateWritten(s) && forall k :: k in s.jobs ==> Quiet(s.jobs[k])
    ensures forall i :: 0 <= i < |JobList(s)| ==> JobWritten(JobList(s)[i]) && Quiet(JobList(s)[i])
  {
    hide JobWritten, Quiet, Add64, PolicyError, PolicyFits, SortedIds;
    SortedIdsMembers(s.jobs.Keys);
    var ids := SortedIds(s.jobs.Keys);
    assert forall i :: 0 <= i < |ids| ==> ids[i] in s.jobs;
  }
}
