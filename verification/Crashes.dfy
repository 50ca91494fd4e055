/** Histories of the program's own requests that reach the crashes after which it gives less than it promises. */
module Crashes {
  import opened Bytes
  import opened Results
  import Utf8
  import opened Codec
  import opened Model
  import opened Policies
  import opened Order
  import opened Listing
  import opened Records
  import opened Authorities
  import opened Operations
  import opened Invariants
  import opened Jobs
  import opened Durable
  import opened Snapshot
  import opened Limits
  import opened Sizes
  import opened StateFile
  import opened Storing
  import opened Restorable
  import opened Runs
  import opened Laws
  import opened Durability
  import opened Witnesses

  // ---------------------------------------------------------------------------
  // Histories, one happening longer
  // ---------------------------------------------------------------------------

  ghost predicate Leads(m: Machine, hs: seq<Happening>, n: Machine) {
    MachineOk(m) && History(m, hs) && AtEnd(m, hs) == n && MachineOk(n)
  }

  lemma {:induction false} OneMore(m: Machine, hs: seq<Happening>, h: Happening)
    requires History(m, hs) && Possible(AtEnd(m, hs), h)
    ensures History(m, hs + [h]) && AtEnd(m, hs + [h]) == Happens(AtEnd(m, hs), h)
    decreases |hs|
  {
    hide Possible, Happens;
    if hs == [] {
      assert hs + [h] == [h] && [h][1..] == [];
      assert History(Happens(m, h), []) && AtEnd(Happens(m, h), []) == Happens(m, h);
    } else {
      OneMore(Happens(m, hs[0]), hs[1..], h);
      assert (hs + [h])[1..] == hs[1..] + [h];
    }
  }

  lemma Then(m: Machine, hs: seq<Happening>, n: Machine, h: Happening) returns (longer: seq<Happening>)
    requires Leads(m, hs, n) && Possible(n, h)
    ensures Leads(m, longer, Happens(n, h))
  {
    hide MachineOk, Possible, Happens, History, AtEnd;
    OneMore(m, hs, h);
    HappensKeeps(n, h);
    longer := hs + [h];
  }

  lemma Starting(w: World, temp: bytes)
    requires Starts(w)
    ensures Leads(FirstLife(w, temp), [], FirstLife(w, temp))
  {
    hide MachineOk, Possible, Happens, Starts;
    FirstLifeIsOk(w, temp);
  }

  // ---------------------------------------------------------------------------
  // One commit, one request
  // ---------------------------------------------------------------------------

  ghost predicate QuietState(s: State) {
    StateInRange(s) && |s.jobs| <= 1000 && forall k :: k in s.jobs ==> Quiet(s.jobs[k])
  }

  lemma SnapshotTaken(m: Machine)
    requires MachineOk(m) && m.stage == Mutated && !m.degraded && QuietState(Now(m).state)
    ensures Possible(m, Progress(TakeSnapshot))
    ensures Happens(m, Progress(TakeSnapshot)) == m.(stage := Snapped(StateBytes(Now(m).state)))
  {
    hide WorldOk, AllStoreOk, Uniform, RunFrom, Legal, StateBytes, FileBytes, Covers, StateInRange, StateWritten, Quiet;
    StateWrittenNow(Now(m));
    QuietSerializes(Now(m).state);
  }

  /** The machine after a commit that went well. */
  ghost function Saved(m: Machine): Machine {
    var file := FileBytes(Contents(Commit(m)));
    m.(stage := Idle, disk := Some(file), image := Some(Commit(m)), temp := file, saved := |m.calls|, acked := |m.calls|,
       sequence := m.sequence + 1, stored := m.sequence + 1)
  }

  lemma FileReplaced(m: Machine)
    requires MachineOk(m) && m.stage == Snapped(StateBytes(Now(m).state)) && m.sequence + 1 < U64_LIMIT
    ensures Possible(m, Progress(WriteTemporary))
    ensures Possible(Happens(m, Progress(WriteTemporary)), Progress(RenameOver))
    ensures Happens(Happens(m, Progress(WriteTemporary)), Progress(RenameOver)) ==
      Saved(m).(stage := Renamed, acked := m.acked, sequence := m.sequence, stored := m.stored)
  {
    hide WorldOk, AllStoreOk, Uniform, RunFrom, Legal, StateBytes, FileBytes, Covers, StageOk, StateInRange;
  }

  lemma Acknowledged(m: Machine)
    requires m.stage == Renamed && m.sequence + 1 < U64_LIMIT
    ensures Possible(m, Progress(Acknowledge))
    ensures Happens(m, Progress(Acknowledge)) ==
      m.(stage := Idle, acked := |m.calls|, sequence := m.sequence + 1, stored := m.sequence + 1)
  {}

  /** Snapshot, write, rename, acknowledge: nothing fails. */
  lemma CommitsWell(m: Machine, hs: seq<Happening>, n: Machine) returns (longer: seq<Happening>)
    requires Leads(m, hs, n) && n.stage == Mutated && !n.degraded && n.sequence + 1 < U64_LIMIT
    requires QuietState(Now(n).state)
    ensures Leads(m, longer, Saved(n))
  {
    hide MachineOk, Possible, Happens, History, AtEnd, QuietState, RunFrom, StateBytes, FileBytes, Advance;
    SnapshotTaken(n);
    longer := Then(m, hs, n, Progress(TakeSnapshot));
    var taken := n.(stage := Snapped(StateBytes(Now(n).state)));
    FileReplaced(taken);
    longer := Then(m, longer, taken, Progress(WriteTemporary));
    var written := Happens(taken, Progress(WriteTemporary));
    longer := Then(m, longer, written, Progress(RenameOver));
    var renamed := Happens(written, Progress(RenameOver));
    Acknowledged(renamed);
    longer := Then(m, longer, renamed, Progress(Acknowledge));
  }

  ghost function Asked(m: Machine, call: Call): Machine {
    m.(calls := m.calls + [call], epoch := NextEpoch(Now(m), call, m.epoch), stage := Mutated)
  }

  lemma Dispatches(m: Machine, hs: seq<Happening>, n: Machine, call: Call) returns (longer: seq<Happening>)
    requires Leads(m, hs, n) && n.stage == Idle && Served(n, call) && Commits(call) && Accepted(Now(n), call)
    ensures Leads(m, longer, Asked(n, call)) && Now(Asked(n, call)) == After(Now(n), call)
  {
    hide WorldOk, AllStoreOk, Uniform, RunFrom, Legal, StateBytes, FileBytes, Covers, StageOk, History, AtEnd, After,
         Permitted, Accepted, Commits, Walks;
    RunOneMore(n.start, n.calls, call);
    longer := Then(m, hs, n, Progress(Dispatch(call)));
  }

  // ---------------------------------------------------------------------------
  // Everything so far is acknowledged and on the disk
  // ---------------------------------------------------------------------------

  /** After the history the machine is idle in state `s`, which its file holds, at commit `sequence`. */
  ghost predicate AtRest(m: Machine, hs: seq<Happening>, n: Machine, s: State, epoch: nat, sequence: nat) {
    && Leads(m, hs, n) && n.stage == Idle && !n.degraded && n.sequence == sequence && n.epoch == epoch
    && Now(n).state == s && n.acked == |n.calls|
    && n.image.Some? && n.image.value.world.state == s && n.image.value.epoch == epoch && n.disk.Some?
  }

  lemma Baseline(w: World, temp: bytes) returns (hs: seq<Happening>, n: Machine)
    requires Starts(w) && StateInRange(w.state)
    ensures AtRest(FirstLife(w, temp), hs, n, w.state, 1, 1) && n.calls == []
  {
    hide MachineOk, StateInRange, WorldOk, StateBytes, FileBytes, History, AtEnd;
    Starting(w, temp);
    hs := CommitsWell(FirstLife(w, temp), [], FirstLife(w, temp));
    n := Saved(FirstLife(w, temp));
  }

  /** The request takes state `s` to state `t`, and is acknowledged only once that is committed. */
  ghost predicate Servable(n: Machine, s: State, call: Call, t: State) {
    && Served(n, call) && Commits(call) && QuietState(t)
    && Apply(s, call).state == t && !Apply(s, call).reply.Refused?
  }

  function EpochAfter(call: Call, epoch: nat): nat {
    if call.Rebase? then call.epoch else epoch
  }

  lemma Serves(m: Machine, hs: seq<Happening>, n: Machine, s: State, epoch: nat, sequence: nat, call: Call, t: State)
    returns (longer: seq<Happening>, next: Machine)
    requires AtRest(m, hs, n, s, epoch, sequence) && sequence < 1000 && Servable(n, s, call, t)
    ensures AtRest(m, longer, next, t, EpochAfter(call, epoch), sequence + 1) && next.calls == n.calls + [call]
  {
    hide MachineOk, QuietState, StateBytes, FileBytes, History, AtEnd, Leads, Served, Commits, RunFrom, Apply;
    longer := Dispatches(m, hs, n, call);
    var asked := Asked(n, call);
    longer := CommitsWell(m, longer, asked);
    next := Saved(asked);
  }

  // ---------------------------------------------------------------------------
  // One registered job
  // ---------------------------------------------------------------------------

  /** The job registered by the first request, at an epoch. */
  function Newborn(epoch: nat): Job {
    NewJob(1, REGISTRATION).(epoch := epoch)
  }

  function Only(config: Config, now: nat, job: Job): State {
    State(config, now, DefaultPolicy(1), map[1 := job], 2)
  }

  const SOON := 0x1000_0000
  const LAST_EPOCH: nat := U64_LIMIT - 1
  const LAST_CALL := Rebase(LAST_EPOCH, [1])

  /** The program's coordinator on an empty disk. */
  ghost function Newcomer(config: Config, now: nat, temp: bytes): Machine {
    FirstLife(Born(config, now, DefaultPolicy(1)), temp)
  }

  ghost predicate Roomy(config: Config) {
    ConfigInRange(config) && config.maxJobs > 0
  }

  /** What the file of the machine holds. */
  function OnDisk(m: Machine): bytes {
    if m.disk.Some? then m.disk.value else []
  }

  lemma DefaultInRange()
    ensures PolicyInRange(DefaultPolicy(1))
  {
    assert forall s :: s in DEFAULT_CLASSES ==> s.weight < U32_LIMIT && s.isolationCeiling < U64_LIMIT;
  }

  lemma DefaultPriority()
    ensures DefaultPolicy(1).isolationPriority == 2
  {}

  lemma BornIsFine(config: Config, now: nat)
    requires Roomy(config) && now < SOON
    ensures Starts(Born(config, now, DefaultPolicy(1))) && StateInRange(Born(config, now, DefaultPolicy(1)).state)
  {
    hide ValidPolicy, DefaultPolicy, PolicyInRange;
    DefaultPolicyIsValid(1);
    DefaultInRange();
    DefaultPriority();
  }

  lemma OnlyIsQuiet(config: Config, now: nat, job: Job)
    requires Roomy(config) && now < U64_LIMIT && JobInRange(job) && Quiet(job)
    ensures QuietState(Only(config, now, job))
  {
    hide JobInRange, Quiet, DefaultPolicy, PolicyInRange;
    DefaultInRange();
  }

  lemma FirstRegistration(config: Config, now: nat)
    requires Roomy(config) && now < SOON
    ensures Apply(Born(config, now, DefaultPolicy(1)).state, Register(REGISTRATION))
         == Applied(Only(config, now + 1, Newborn(1)), Number(1))
    ensures Permitted(Born(config, now, DefaultPolicy(1)).state, Register(REGISTRATION))
    ensures JobInRange(Newborn(1)) && Quiet(Newborn(1))
  {
    hide ContractError, DefaultPolicy;
    ConstantsAreValid();
    assert Utf8.TextError([], MAX_STRING_BYTES) == OK;
  }

  /** The job is registered, and that is acknowledged. */
  lemma Registered(config: Config, now: nat, temp: bytes) returns (hs: seq<Happening>, n: Machine)
    requires Roomy(config) && now < SOON
    ensures n.calls == [Register(REGISTRATION)]
    ensures AtRest(Newcomer(config, now, temp), hs, n, Only(config, now + 1, Newborn(1)), 1, 2)
  {
    hide AtRest, Starts, StateInRange, Apply, Permitted, QuietState, JobInRange, Quiet, DefaultPolicy, Roomy;
    var w := Born(config, now, DefaultPolicy(1));
    BornIsFine(config, now);
    hs, n := Baseline(w, temp);
    FirstRegistration(config, now);
    OnlyIsQuiet(config, now + 1, Newborn(1));
    AtRestIs(FirstLife(w, temp), hs, n, w.state, 1, 1);
    hs, n := Serves(FirstLife(w, temp), hs, n, w.state, 1, 1, Register(REGISTRATION),
                    Only(config, now + 1, Newborn(1)));
  }

  lemma AtRestIs(m: Machine, hs: seq<Happening>, n: Machine, s: State, epoch: nat, sequence: nat)
    requires AtRest(m, hs, n, s, epoch, sequence)
    ensures Now(n).state == s && n.epoch == epoch
  {}

  // ---------------------------------------------------------------------------
  // The last epoch
  // ---------------------------------------------------------------------------

  lemma RebasesTo(config: Config, now: nat, from: nat, epoch: nat)
    requires from < epoch
    ensures Apply(Only(config, now, Newborn(from)), Rebase(epoch, [1]))
         == Applied(Only(config, now + 1, Newborn(epoch)), Done)
    ensures Permitted(Only(config, now, Newborn(from)), Rebase(epoch, [1]))
    ensures Walks([1], Only(config, now, Newborn(from)).jobs)
  {
    hide DefaultPolicy, NewJob;
    var jobs := map[1 := Newborn(from)];
    assert [1][1..] == [];
    assert RebaseEach(jobs[1 := Newborn(epoch)], [], epoch) == Rebased(map[1 := Newborn(epoch)], true);
    assert RebaseEach(jobs, [1], epoch) == Rebased(map[1 := Newborn(epoch)], true);
  }

  /** Everything so far was acknowledged, and no start from the file succeeds. */
  ghost predicate Lost(m: Machine, config: Config, error: ErrorCode) {
    && m.stage == Idle && m.acked == |m.calls|
    && forall walk :: Walks(walk, Now(m).state.jobs) ==> Durability.Boot(config, OnDisk(m), walk) == Failure(error)
  }

  /** A client rebases onto the last epoch: it is acknowledged, and no later start succeeds. */
  lemma LastEpochBreaks(config: Config, now: nat, temp: bytes) returns (hs: seq<Happening>, m: Machine)
    requires Roomy(config) && now < SOON
    ensures m.calls == [Register(REGISTRATION), LAST_CALL]
    ensures Leads(Newcomer(config, now, temp), hs, m) && Lost(m, config, INVALID_ARGUMENT)
  {
    hide AtRest, Starts, Apply, Permitted, QuietState, JobInRange, Quiet, Newborn, DefaultPolicy, Roomy,
         Durability.Boot, Walks, MachineOk;
    var first, last := Newcomer(config, now, temp), LAST_EPOCH;
    hs, m := Registered(config, now, temp);
    var s, t := Only(config, now + 1, Newborn(1)), Only(config, now + 2, Newborn(last));
    RebasesTo(config, now + 1, 1, last);
    NewbornIsQuiet(config, now + 2, last);
    AtRestIs(first, hs, m, s, 1, 2);
    hs, m := Serves(first, hs, m, s, 1, 2, Rebase(last, [1]), t);
    RestFields(first, hs, m, t, last, 3);
    NewbornIsReadable(config, now + 2, last);
    forall walk | Walks(walk, t.jobs) ensures Durability.Boot(config, OnDisk(m), walk) == Failure(INVALID_ARGUMENT) {
      RestsOn(first, hs, m, t, last, 3, walk);
    }
  }

  lemma RestImage(m: Machine, hs: seq<Happening>, n: Machine, s: State, epoch: nat, sequence: nat)
    requires AtRest(m, hs, n, s, epoch, sequence)
    ensures Leads(m, hs, n) && n.stage == Idle && !n.degraded && n.disk.Some?
    ensures n.image.Some? && n.image.value.world.state == s && n.image.value.epoch == epoch
  {}

  lemma ServedRebase(m: Machine, s: State, call: Call)
    requires Now(m).state == s && call.Rebase? && call.epoch < U64_LIMIT && Walks(call.walk, s.jobs)
    ensures Served(m, call)
  {
    hide RunFrom, Walks;
  }

  lemma RestFields(m: Machine, hs: seq<Happening>, n: Machine, s: State, epoch: nat, sequence: nat)
    requires AtRest(m, hs, n, s, epoch, sequence)
    ensures Leads(m, hs, n) && n.stage == Idle && n.acked == |n.calls| && Now(n).state == s
  {}

  /** What a coordinator at rest would boot into. */
  lemma RestsOn(m: Machine, hs: seq<Happening>, n: Machine, s: State, epoch: nat, sequence: nat, walk: seq<nat>)
    requires AtRest(m, hs, n, s, epoch, sequence) && Walks(walk, s.jobs)
    ensures var r := Durability.Boot(s.config, OnDisk(n), walk);
      && (r.Success? <==> Readable(s) && epoch + 1 < U64_LIMIT)
      && (Readable(s) && epoch + 1 == U64_LIMIT ==> r == Failure(INVALID_ARGUMENT))
  {
    hide MachineOk, History, AtEnd, Walks, Readable, Durability.Boot, FileBytes, StateBytes, RunFrom, Restarted;
    CrashLosesNothing(n, walk);
  }

  lemma NewbornIsQuiet(config: Config, now: nat, epoch: nat)
    requires Roomy(config) && now < U64_LIMIT && epoch < U64_LIMIT
    ensures QuietState(Only(config, now, Newborn(epoch)))
  {
    hide ContractError;
    OnlyIsQuiet(config, now, Newborn(epoch));
  }

  lemma NewbornIsReadable(config: Config, now: nat, epoch: nat)
    ensures Readable(Only(config, now, Newborn(epoch)))
  {}

  // ---------------------------------------------------------------------------
  // Evidence for a group that is not registered
  // ---------------------------------------------------------------------------

  function Grouped(): Job {
    AddGroup(Newborn(1), GROUP)
  }

  function Linked(): Job {
    Grouped().(topology := Topology(1, Real, LINKS), ids := Allocators(1, 1, 1, 2, 2))
  }

  const GROUP_CALL := OnJob(RegisterGroup(Holder(0, 0, 0), GROUP))
  const LINKS_CALL := OnJob(Publish(Holder(0, 0, 0), Real, LINKS))

  lemma GroupsAndLinks(config: Config, now: nat)
    requires config.maxJobs > 0
    ensures Apply(Only(config, now, Newborn(1)), GROUP_CALL) == Applied(Only(config, now + 1, Grouped()), Done)
    ensures Permitted(Only(config, now, Newborn(1)), GROUP_CALL)
    ensures Apply(Only(config, now, Grouped()), LINKS_CALL) == Applied(Only(config, now + 1, Linked()), Number(1))
    ensures Permitted(Only(config, now, Grouped()), LINKS_CALL)
  {
    hide DoRegisterGroup, DoPublish, DefaultPolicy, Fresh, Published, AddGroup;
    RegistersGroup(EnvOf(Tick(Only(config, now, Newborn(1)))), Newborn(1));
    Publishes(EnvOf(Tick(Only(config, now, Grouped()))), Grouped());
    assert map[1 := Newborn(1)][1 := Grouped()] == map[1 := Grouped()];
    assert map[1 := Grouped()][1 := Linked()] == map[1 := Linked()];
  }

  lemma LinkedIsQuiet()
    ensures JobInRange(Grouped()) && Quiet(Grouped()) && JobInRange(Linked()) && Quiet(Linked())
    ensures LINKS[1] in Linked().topology.links && LINKS[1].group !in Linked().groups
  {
    hide ContractError;
    assert Linked().groups.Keys == {1};
    assert |Linked().groups| == |Linked().groups.Keys|;
    assert Grouped().groups == Linked().groups;
  }

  /** Evidence is published for a group that is not registered: it is acknowledged, and no later start
      succeeds. */
  lemma UnregisteredBreaks(config: Config, now: nat, temp: bytes) returns (hs: seq<Happening>, m: Machine)
    requires Roomy(config) && now < SOON
    ensures m.calls == [Register(REGISTRATION), GROUP_CALL, LINKS_CALL]
    ensures Leads(Newcomer(config, now, temp), hs, m) && Lost(m, config, CORRUPT_STATE)
  {
    hide AtRest, Starts, Apply, Permitted, QuietState, JobInRange, Quiet, Newborn, Grouped, Linked, DefaultPolicy,
         Durability.Boot, Walks, MachineOk, Newcomer;
    var first := Newcomer(config, now, temp);
    hs, m := Registered(config, now, temp);
    GroupsAndLinks(config, now + 1);
    GroupsAndLinks(config, now + 2);
    LinkedIsQuiet();
    var s, t, u := Only(config, now + 1, Newborn(1)), Only(config, now + 2, Grouped()), Only(config, now + 3, Linked());
    OnlyIsQuiet(config, now + 2, Grouped());
    OnlyIsQuiet(config, now + 3, Linked());
    AtRestIs(first, hs, m, s, 1, 2);
    hs, m := Serves(first, hs, m, s, 1, 2, GROUP_CALL, t);
    AtRestIs(first, hs, m, t, 1, 3);
    hs, m := Serves(first, hs, m, t, 1, 3, LINKS_CALL, u);
    RestFields(first, hs, m, u, 1, 4);
    forall walk | Walks(walk, u.jobs) ensures Durability.Boot(config, OnDisk(m), walk) == Failure(CORRUPT_STATE) {
      LinkedIsCorrupt(first, hs, m, u, 1, 4, walk);
    }
  }

  lemma LinkedIsCorrupt(m: Machine, hs: seq<Happening>, n: Machine, s: State, epoch: nat, sequence: nat, walk: seq<nat>)
    requires AtRest(m, hs, n, s, epoch, sequence) && s.jobs == map[1 := Linked()]
    ensures Durability.Boot(s.config, OnDisk(n), walk) == Failure(CORRUPT_STATE)
  {
    hide History, AtEnd, Linked, FileBytes, StateBytes, RunFrom, Legal, Uniform, WorldOk, AllStoreOk, StateInRange,
         StateWritten, Apply, Deserialize, DecodeFile, StageOk;
    var i := n.image.value;
    LinkedIsQuiet();
    StateWrittenNow(i.world);
    assert s.jobs.Keys == {1};
    LoneJobIsCorrupt(s, 1);
    DecodeEncodedFile(Contents(i), MAX_SNAPSHOT_BYTES);
  }

  // ---------------------------------------------------------------------------
  // A rebase whose commit fails
  // ---------------------------------------------------------------------------

  ghost predicate AcceptedBy(s: State, k: nat, t: Token) {
    k in s.jobs && Accepts(s.policy, s.jobs[k], t, NeedJob)
  }

  const AHEAD: Token := Holder(0, 0, 0).(epoch := 2)

  lemma AheadIsAccepted(config: Config, now: nat)
    ensures AcceptedBy(Only(config, now, Newborn(2)), 1, AHEAD)
  {
    hide DefaultPolicy;
    AcceptsIff(DefaultPolicy(1), Newborn(2), AHEAD, NeedJob);
  }

  lemma NewbornIsDurable(config: Config, now: nat)
    ensures DurableState(Only(config, now, Newborn(1))) == Only(config, now, Newborn(1))
  {
    hide DefaultPolicy;
    SortedIdsMembers({});
    assert DurableJob(Newborn(1)) == Newborn(1);
    assert DurableState(Only(config, now, Newborn(1))).jobs == map[1 := Newborn(1)];
  }

  /** The write of the request's commit fails. */
  lemma FailsToCommit(m: Machine, hs: seq<Happening>, n: Machine, torn: bytes) returns (longer: seq<Happening>)
    requires Leads(m, hs, n) && n.stage == Mutated && !n.degraded && QuietState(Now(n).state)
    ensures Leads(m, longer, n.(temp := torn, degraded := true, stage := Idle))
  {
    hide MachineOk, History, AtEnd, QuietState, RunFrom, StateBytes, FileBytes;
    SnapshotTaken(n);
    longer := Then(m, hs, n, Progress(TakeSnapshot));
    longer := Then(m, longer, n.(stage := Snapped(StateBytes(Now(n).state))), Progress(FailToWrite(torn)));
  }

  lemma RebornAfterRegistration(m: Machine, hs: seq<Happening>, n: Machine, config: Config, now: nat, temp: bytes)
    requires n.image.Some? && n.disk.Some? && n.image.value.epoch == 1
    requires n.image.value.world.state == Only(config, now, Newborn(1))
    ensures Possible(n, CrashAndRestart([1], temp))
    ensures var r := Happens(n, CrashAndRestart([1], temp));
      r.epoch == 2 && Now(r).state == Only(config, now + 1, Newborn(2))
  {
    hide DefaultPolicy, Newborn, DurableState, StateInRange, FileBytes, StateBytes, RebaseEach;
    NewbornIsReadable(config, now, 1);
    NewbornIsDurable(config, now);
    RebasesTo(config, now, 1, 2);
  }

  /** A rebase takes effect in memory, its commit fails, and the coordinator crashes: the token that the dead
      life accepted at the epoch it had run ahead to is accepted by the next life. */
  lemma UncommittedRebaseBreaks(config: Config, now: nat, torn: bytes, temp: bytes)
    returns (hs: seq<Happening>, m: Machine)
    requires Roomy(config) && now < SOON
    ensures Leads(Newcomer(config, now, temp), hs, m) && m.image.Some? && m.image.value.epoch < m.epoch
    ensures AcceptedBy(Now(m).state, 1, AHEAD) && Possible(m, CrashAndRestart([1], temp))
    ensures AcceptedBy(Now(Happens(m, CrashAndRestart([1], temp))).state, 1, AHEAD)
  {
    hide AtRest, Starts, Apply, Permitted, QuietState, Newborn, DefaultPolicy, Roomy, MachineOk, Newcomer, Possible,
         Happens, AcceptedBy, Served, History, AtEnd, RunFrom;
    var first := Newcomer(config, now, temp);
    hs, m := Registered(config, now, temp);
    var s, t, call := Only(config, now + 1, Newborn(1)), Only(config, now + 2, Newborn(2)), Rebase(2, [1]);
    RebasesTo(config, now + 1, 1, 2);
    NewbornIsQuiet(config, now + 2, 2);
    RestImage(first, hs, m, s, 1, 2);
    AtRestIs(first, hs, m, s, 1, 2);
    ServedRebase(m, s, call);
    hs := Dispatches(first, hs, m, call);
    var asked := Asked(m, call);
    hs := FailsToCommit(first, hs, asked, torn);
    m := asked.(temp := torn, degraded := true, stage := Idle);
    RebornAfterRegistration(first, hs, m, config, now + 1, temp);
    AheadIsAccepted(config, now + 2);
  }
}
