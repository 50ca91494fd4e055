/** The commit protocol under crashes: mutate, snapshot, write the temporary file, rename, acknowledge;
    restart from the file onto the next epoch, if the file can be read back. Requests are dispatched one
    at a time. */
module Durability {
  import opened Bytes
  import opened Results
  import opened Codec
  import opened Model
  import opened Policies
  import opened Authorities
  import opened Operations
  import opened Invariants
  import opened Steps
  import opened Requests
  import opened Jobs
  import Order
  import Records
  import opened Durable
  import opened Snapshot
  import opened Limits
  import opened StateFile
  import opened Storing
  import opened Restorable
  import opened Runs
  import opened Fencing
  import opened Laws

  // ---------------------------------------------------------------------------
  // The coordinator and its disk
  // ---------------------------------------------------------------------------

  /** What was committed: the state reached by a world, under an epoch and a commit sequence. */
  datatype Image = Image(epoch: nat, sequence: nat, world: World)

  ghost function Contents(i: Image): Stored {
    Stored(i.epoch, i.sequence, StateBytes(i.world.state))
  }

  /** How far the request being dispatched has come; `Down` when the coordinator did not start. */
  datatype Stage = Idle | Mutated | Snapped(payload: bytes) | Written | Renamed | Down

  /** One life of the coordinator: the world it started from, the calls made since, how many of them the
      file on disk covers (`saved`), and how many are covered by acknowledged commits (`acked`). The
      image records which commit put the file there. */
  datatype Machine = Machine(
    start: World, calls: seq<Call>, saved: nat, acked: nat, epoch: nat, sequence: nat, stored: nat, degraded: bool,
    stage: Stage, disk: Option<bytes>, image: Option<Image>, temp: bytes)

  ghost function Now(m: Machine): World {
    RunFrom(m.start, m.calls)
  }

  /** The operations whose success is acknowledged only after a commit. */
  predicate Commits(call: Call) {
    match call
    case Register(_) => true
    case SetPolicy(_) => true
    case Rebase(_, _) => true
    case OnJob(op) =>
      && !op.Request? && !op.Complete? && !op.RevalidateFlow? && !op.BeginBurst? && !op.EndBurst? && !op.EvaluatePacing?
    case Restart => false
  }

  // ---------------------------------------------------------------------------
  // Epochs
  // ---------------------------------------------------------------------------

  ghost predicate Uniform(s: State, epoch: nat) {
    forall k :: k in s.jobs ==> s.jobs[k].epoch == epoch
  }

  /** The calls the coordinator makes: jobs are registered at its own epoch, and a rebase to any 64-bit
      epoch walks the job table. */
  ghost predicate Served(m: Machine, call: Call) {
    && Permitted(Now(m).state, call)
    && match call
       case Register(r) => r.epoch == m.epoch
       case Rebase(epoch, walk) => epoch < U64_LIMIT && Walks(walk, Now(m).state.jobs)
       case Restart => false
       case _ => true
  }

  ghost predicate Accepted(w: World, call: Call) {
    !Apply(w.state, call).reply.Refused?
  }

  ghost function NextEpoch(w: World, call: Call, epoch: nat): nat {
    if call.Rebase? && Accepted(w, call) then call.epoch else epoch
  }

  /** A rebase over uniform epochs moves every job or none. */
  lemma RebaseKeepsUniform(jobs: map<nat, Job>, walk: seq<nat>, target: nat, epoch: nat)
    requires Walks(walk, jobs) && forall k :: k in jobs ==> jobs[k].epoch == epoch
    ensures var r := RebaseEach(jobs, walk, target);
      && r.jobs.Keys == jobs.Keys
      && (r.ok ==> forall k :: k in jobs ==> r.jobs[k].epoch == target)
      && (!r.ok ==> r.jobs == jobs)
  {
    hide RebaseEach, Walks;
    RebaseSucceedsIff(jobs, walk, target);
    RebaseKeys(jobs, walk, target);
    if !RebaseEach(jobs, walk, target).ok {
      NothingRebased(jobs, walk, target);
    }
  }

  lemma OperationKeepsEpoch(w: World, op: JobOp, k: nat)
    requires WorldOk(w) && Permitted(w.state, OnJob(op)) && k in w.state.jobs
    ensures k in After(w, OnJob(op)).state.jobs
    ensures After(w, OnJob(op)).state.jobs[k].epoch == w.state.jobs[k].epoch
  {
    hide JobOk, ValidPolicy, Perform, EnvOk, Stranger;
    assert Runs.Entry(w.state, k, w.pasts[k]);
    if TargetOf(op) == k {
      EnvIsOk(w);
      WorldIsKeyed(w, k);
      PerformKept(EnvOf(Tick(w.state)), w.state.jobs[k], op, w.pasts[k]);
    }
  }

  lemma PolicyKeepsEpoch(w: World, p: Policy, k: nat)
    requires WorldOk(w) && Permitted(w.state, SetPolicy(p)) && k in w.state.jobs
    ensures k in DoSetPolicy(Tick(w.state), p).state.jobs
    ensures DoSetPolicy(Tick(w.state), p).state.jobs[k].epoch == w.state.jobs[k].epoch
  {
    hide JobOk, Invalidate, PolicyError, ValidPolicy;
    var s := Tick(w.state);
    assert Runs.Entry(w.state, k, w.pasts[k]);
    InvalidateKeeps(Env(s.config, p, s.now), s.policy, w.state.jobs[k], POLICY_INVALIDATED, w.pasts[k]);
    if w.state.jobs[k].step.None? {
      NothingToInvalidate(Env(s.config, p, s.now), w.state.jobs[k]);
    }
  }

  lemma CallKeepsUniform(w: World, call: Call, epoch: nat)
    requires WorldOk(w) && Permitted(w.state, call) && Uniform(w.state, epoch) && !call.Restart?
    requires call.Register? ==> call.registration.epoch == epoch
    requires call.Rebase? ==> Walks(call.walk, w.state.jobs)
    ensures Uniform(After(w, call).state, NextEpoch(w, call, epoch))
  {
    hide JobOk, ValidPolicy, Perform, RebaseEach, DoSetPolicy, ContractError, EnvOk, Stranger, Walks, WorldOk;
    if call.Rebase? {
      RebaseKeepsUniform(w.state.jobs, call.walk, call.epoch, epoch);
    }
    forall k | k in After(w, call).state.jobs
      ensures After(w, call).state.jobs[k].epoch == NextEpoch(w, call, epoch)
    {
      match call
      case SetPolicy(p) =>
        SetPolicyKeys(w, p);
        PolicyKeepsEpoch(w, p, k);
      case OnJob(op) =>
        if k in w.state.jobs {
          OperationKeepsEpoch(w, op, k);
        }
      case _ =>
    }
  }

  // ---------------------------------------------------------------------------
  // Runs, one call longer
  // ---------------------------------------------------------------------------

  lemma {:induction false} PrefixIsLegal(w: World, calls: seq<Call>, n: nat)
    requires WorldOk(w) && Legal(w, calls) && n <= |calls|
    ensures Legal(w, calls[..n])
    decreases |calls|
  {
    hide WorldOk, After, Permitted;
    if n > 0 {
      AfterKeeps(w, calls[0]);
      PrefixIsLegal(After(w, calls[0]), calls[1..], n - 1);
      assert calls[..n][1..] == calls[1..][..n - 1];
    }
  }

  // ---------------------------------------------------------------------------
  // The protocol
  // ---------------------------------------------------------------------------

  /** Until the directory is synchronised a crash may also leave the file from before the rename; that is
      the crash one event earlier. */
  datatype Event =
    | Dispatch(call: Call)
    | TakeSnapshot
    | WriteTemporary
    | FailToWrite(torn: bytes)
    | RenameOver
    | FailToRename
    | FailToSync
    | Acknowledge

  ghost predicate Enabled(m: Machine, e: Event) {
    match e
    case Dispatch(call) => m.stage == Idle && Served(m, call)
    case TakeSnapshot => m.stage == Mutated && StateInRange(Now(m).state)
    case WriteTemporary => m.stage.Snapped?
    case FailToWrite(_) => m.stage.Snapped?
    case RenameOver => m.stage == Written
    case FailToRename => m.stage == Written
    case FailToSync => m.stage == Renamed
    case Acknowledge => m.stage == Renamed
  }

  /** The sequence number of the next commit, in 64 bits. */
  ghost function NextSequence(m: Machine): nat {
    Add64(m.sequence, 1)
  }

  ghost function Commit(m: Machine): Image {
    Image(m.epoch, NextSequence(m), Now(m))
  }

  /** An event that is not enabled changes nothing. */
  ghost function Advance(m: Machine, e: Event): Machine {
    if !Enabled(m, e) then m else
    match e
    case Dispatch(call) =>
      m.(calls := m.calls + [call], epoch := NextEpoch(Now(m), call, m.epoch),
         stage := if Commits(call) && Accepted(Now(m), call) then Mutated else Idle)
    case TakeSnapshot =>
      m.(stage := if m.degraded || Serialize(Now(m).state).Failure? then Idle else Snapped(Serialize(Now(m).state).value))
    case WriteTemporary =>
      if NextSequence(m) <= m.stored && m.stored != 0 then m.(degraded := true, stage := Idle)
      else m.(temp := FileBytes(Stored(m.epoch, NextSequence(m), m.stage.payload)), stage := Written)
    case FailToWrite(torn) => m.(temp := torn, degraded := true, stage := Idle)
    case RenameOver => m.(disk := Some(m.temp), image := Some(Commit(m)), saved := |m.calls|, stage := Renamed)
    case FailToRename => m.(degraded := true, stage := Idle)
    case FailToSync => m.(degraded := true, stage := Idle)
    case Acknowledge =>
      m.(sequence := NextSequence(m), stored := NextSequence(m), acked := |m.calls|, stage := Idle)
  }

  // ---------------------------------------------------------------------------
  // What holds at every point
  // ---------------------------------------------------------------------------

  /** What a commit may have put on the disk. */
  ghost predicate Committed(i: Image) {
    && WorldOk(i.world) && AllStoreOk(i.world.state) && StateInRange(i.world.state)
    && |StateBytes(i.world.state)| <= MAX_SNAPSHOT_BYTES
    && Contents(i).InRange() && Uniform(i.world.state, i.epoch)
  }

  /** Its evidence names registered groups, no list in it is too long, no counter of bytes has wrapped, and
      there is an epoch after its own. */
  ghost predicate Bootable(i: Image) {
    Readable(i.world.state) && i.epoch + 1 < U64_LIMIT
  }

  /** The world after a restart from an image: restored, then rebased onto the next epoch. */
  ghost function Restarted(i: Image, walk: seq<nat>): World
  {
    After(After(i.world, Restart), Rebase(i.epoch + 1, walk))
  }

  /** The file holds the state after the first `saved` calls, or, before the first commit of this life,
      what this life was restarted from. */
  ghost predicate Covers(m: Machine)
    requires m.image.Some? && m.saved <= |m.calls|
  {
    var i := m.image.value;
    && Committed(i)
    && (|| i.world == RunFrom(m.start, m.calls[..m.saved])
        || (m.saved == 0 && exists walk :: m.start == Restarted(i, walk)))
  }

  ghost predicate StageOk(m: Machine) {
    var s := Now(m).state;
    match m.stage
    case Snapped(payload) => payload == StateBytes(s) && StateInRange(s) && |payload| <= MAX_SNAPSHOT_BYTES
    case Written => m.temp == FileBytes(Contents(Commit(m))) && Committed(Commit(m))
    case Renamed => m.saved == |m.calls|
    case _ => true
  }

  ghost predicate MachineOk(m: Machine) {
    && WorldOk(m.start) && AllStoreOk(m.start.state) && Legal(m.start, m.calls)
    && WorldOk(Now(m)) && AllStoreOk(Now(m).state)
    && m.acked <= m.saved <= |m.calls|
    && Uniform(Now(m).state, m.epoch) && 0 < m.epoch < U64_LIMIT && m.sequence < U64_LIMIT
    && m.stored <= m.sequence
    && (m.disk.Some? <==> m.image.Some?)
    && (m.disk.Some? ==> m.disk.value == FileBytes(Contents(m.image.value)) && Covers(m))
    && (m.disk.None? ==> m.saved == 0)
    && StageOk(m)
  }

  // ---------------------------------------------------------------------------
  // Every event keeps it
  // ---------------------------------------------------------------------------

  lemma EpochStaysInRange(m: Machine, call: Call)
    requires 0 < m.epoch < U64_LIMIT && Served(m, call)
    ensures 0 < NextEpoch(Now(m), call, m.epoch) < U64_LIMIT
  {
    hide RebaseEach, Walks, RunFrom, Permitted;
  }

  lemma DispatchKeeps(m: Machine, call: Call)
    requires MachineOk(m) && Enabled(m, Dispatch(call))
    ensures MachineOk(Advance(m, Dispatch(call)))
  {
    hide WorldOk, After, Permitted, AllStoreOk, Uniform, Committed, RunFrom, Legal, Accepted, StateBytes, FileBytes,
         Restarted;
    var n := Advance(m, Dispatch(call));
    RunOneMore(m.start, m.calls, call);
    AfterKeeps(Now(m), call);
    CallKeepsUniform(Now(m), call, m.epoch);
    EpochStaysInRange(m, call);
    StoresOneMore(Now(m), call);
    assert n.calls[..m.saved] == m.calls[..m.saved];
  }

  lemma StoresOneMore(w: World, call: Call)
    requires WorldOk(w) && Permitted(w.state, call) && AllStoreOk(w.state)
    ensures AllStoreOk(After(w, call).state)
  {
    hide WorldOk, StoreOk, Permitted;
    ConfigIsFixed(w, call);
    forall k | k in After(w, call).state.jobs ensures StoreOk(w.state.config, After(w, call).state.jobs[k]) {
      CallStoresOne(w, call, k);
    }
  }

  lemma SnapshotKeeps(m: Machine)
    requires MachineOk(m) && Enabled(m, TakeSnapshot)
    ensures MachineOk(Advance(m, TakeSnapshot))
  {
    hide WorldOk, AllStoreOk, Uniform, Committed, RunFrom, Legal, StateBytes, FileBytes, Restarted, StateInRange;
  }

  lemma WriteKeeps(m: Machine)
    requires MachineOk(m) && Enabled(m, WriteTemporary)
    ensures MachineOk(Advance(m, WriteTemporary))
  {
    hide WorldOk, AllStoreOk, Uniform, RunFrom, Legal, StateBytes, FileBytes, Restarted, StateInRange;
  }

  lemma RenameKeeps(m: Machine)
    requires MachineOk(m) && Enabled(m, RenameOver)
    ensures MachineOk(Advance(m, RenameOver))
  {
    hide WorldOk, AllStoreOk, Uniform, RunFrom, Legal, StateBytes, FileBytes, Restarted, StateInRange;
    assert m.calls[..|m.calls|] == m.calls;
  }

  lemma OthersKeep(m: Machine, e: Event)
    requires MachineOk(m) && Enabled(m, e) && (e.FailToWrite? || e.FailToRename? || e.FailToSync? || e.Acknowledge?)
    ensures MachineOk(Advance(m, e))
  {
    hide WorldOk, AllStoreOk, Uniform, RunFrom, Legal, StateBytes, FileBytes, Restarted, StateInRange, Committed;
  }

  /** Every event of the protocol keeps the machine's invariant. */
  lemma AdvanceKeeps(m: Machine, e: Event)
    requires MachineOk(m) && Enabled(m, e)
    ensures MachineOk(Advance(m, e))
  {
    hide MachineOk, Advance, Enabled, NextEpoch;
    match e
    case Dispatch(call) => DispatchKeeps(m, call);
    case TakeSnapshot => SnapshotKeeps(m);
    case WriteTemporary => WriteKeeps(m);
    case RenameOver => RenameKeeps(m);
    case _ => OthersKeep(m, e);
  }

  /** The store refuses a sequence number only when 64 bits have run out of them. */
  lemma SequenceRefusedIff(m: Machine)
    requires MachineOk(m) && Enabled(m, WriteTemporary)
    ensures Advance(m, WriteTemporary).stage == Idle <==> m.sequence + 1 == U64_LIMIT && m.stored != 0
    ensures Advance(m, WriteTemporary).stage == Idle ==> Advance(m, WriteTemporary).degraded
  {
    hide WorldOk, AllStoreOk, Uniform, RunFrom, Legal, StateBytes, FileBytes, Covers, StageOk;
  }

  // ---------------------------------------------------------------------------
  // Crash and restart
  // ---------------------------------------------------------------------------

  /** Starting from a file: decode it, restore its state, rebase every job onto the next epoch. The next
      epoch is computed in 64 bits, and there is none after the last. */
  ghost function Boot(config: Config, file: bytes, walk: seq<nat>): Result<State> {
    var stored :- DecodeFile(file, MAX_SNAPSHOT_BYTES);
    Revive(config, stored, walk)
  }

  ghost function Revive(config: Config, stored: Stored, walk: seq<nat>): Result<State> {
    var s :- Deserialize(config, stored.payload);
    var r := Apply(s, Rebase(Add64(stored.epoch, 1), walk));
    if r.reply.Refused? then Failure(r.reply.error) else Success(r.state)
  }

  /** The next life of the coordinator. Whatever the temporary file holds is never read. */
  ghost function Reborn(i: Image, walk: seq<nat>, disk: bytes, temp: bytes): Machine {
    Machine(Restarted(i, walk), [], 0, 0, i.epoch + 1, i.sequence, 0, false, Mutated, Some(disk), Some(i), temp)
  }

  lemma RestartedState(i: Image, walk: seq<nat>)
    requires Committed(i) && Walks(walk, i.world.state.jobs)
    ensures WorldOk(Restarted(i, walk)) && AllStoreOk(Restarted(i, walk).state)
    ensures Restarted(i, walk).state == DoRebase(Tick(DurableState(i.world.state)), i.epoch + 1, walk).state
    ensures DoRebase(Tick(DurableState(i.world.state)), i.epoch + 1, walk).reply == Done
    ensures Uniform(Restarted(i, walk).state, i.epoch + 1)
  {
    hide WorldOk, AllStoreOk, StateInRange, StateBytes, RebaseEach, DurableJob, Permitted, Walks;
    Permits(i.world.state, Restart);
    var w := After(i.world, Restart);
    Permits(w.state, Rebase(i.epoch + 1, walk));
    AfterKeeps(i.world, Restart);
    AfterKeeps(w, Rebase(i.epoch + 1, walk));
    StoresOneMore(i.world, Restart);
    StoresOneMore(w, Rebase(i.epoch + 1, walk));
    DurableWalks(i.world.state, walk);
    DurableUniform(i.world.state, i.epoch);
    RebaseSucceedsIff(w.state.jobs, walk, i.epoch + 1);
  }

  lemma DurableInRange(job: Job, epoch: nat)
    requires JobInRange(job) && epoch < U64_LIMIT
    ensures JobInRange(DurableJob(job).(epoch := epoch))
  {
    hide Order.SortedIds, NoLoad, Records.FenceFits, ReportInRange, Records.RetiredFits, StepInRange, DurableStep;
    if job.step.Some? {
      DurableStepInRange(job.step.value);
    }
  }

  lemma DurableStepInRange(step: Step)
    requires StepInRange(step)
    ensures StepInRange(DurableStep(step))
  {
    hide Records.FenceFits;
  }

  /** The numbers of a restarted state fit when the clock has room for one more tick. */
  lemma RestartedInRange(i: Image, walk: seq<nat>)
    requires Committed(i) && Walks(walk, i.world.state.jobs)
    requires i.epoch + 1 < U64_LIMIT && i.world.state.now + 1 < U64_LIMIT
    ensures StateInRange(Restarted(i, walk).state)
  {
    hide WorldOk, AllStoreOk, StateBytes, JobInRange, DurableJob, RebaseEach, Walks, PolicyInRange;
    RestartedState(i, walk);
    var s := DurableState(i.world.state);
    RebaseKeys(s.jobs, walk, i.epoch + 1);
    forall k | k in s.jobs ensures JobInRange(Restarted(i, walk).state.jobs[k]) {
      RebaseAt(s.jobs, walk, i.epoch + 1, k);
      DurableInRange(i.world.state.jobs[k], Restarted(i, walk).state.jobs[k].epoch);
    }
  }

  lemma Permits(s: State, call: Call)
    requires call.Restart? || call.Rebase?
    ensures Permitted(s, call)
  {}

  lemma DurableWalks(s: State, walk: seq<nat>)
    requires Walks(walk, s.jobs)
    ensures Walks(walk, DurableState(s).jobs)
  {
    hide DurableJob;
  }

  lemma DurableUniform(s: State, epoch: nat)
    requires Uniform(s, epoch)
    ensures Uniform(DurableState(s), epoch) && AllBehind(DurableState(s).jobs, epoch + 1)
  {}

  ghost predicate BootsIff(i: Image, file: bytes, walk: seq<nat>) {
    var r := Boot(i.world.state.config, file, walk);
    && (r.Success? <==> Bootable(i))
    && (Bootable(i) ==> r == Success(Restarted(i, walk).state))
    && (Readable(i.world.state) && i.epoch + 1 == U64_LIMIT ==> r == Failure(INVALID_ARGUMENT))
  }

  /** The file of a commit boots exactly when its image is bootable, however the job table is walked: what
      is restored is the durable projection of the committed state, and every job is rebased. After the
      last epoch there is none, and the start is refused. */
  lemma ImageBootsIff(i: Image, walk: seq<nat>)
    requires Committed(i) && Walks(walk, i.world.state.jobs)
    ensures BootsIff(i, FileBytes(Contents(i)), walk)
  {
    hide WorldOk, AllStoreOk, StateBytes, Deserialize, FileBytes, DecodeFile, DurableState, Restarted, DoRebase, Walks,
         Readable, StateInRange;
    DecodeEncodedFile(Contents(i), MAX_SNAPSHOT_BYTES);
    StateWrittenNow(i.world);
    StateReadIff(i.world.state);
    RestartedState(i, walk);
  }

  /** The file, if there is one, is the image of a commit that covers everything acknowledged; without one
      nothing was acknowledged. */
  ghost predicate NothingLost(m: Machine) {
    && m.acked <= m.saved <= |m.calls|
    && (m.disk.Some? ==> m.image.Some? && m.disk.value == FileBytes(Contents(m.image.value)) && Covers(m))
    && (m.disk.None? ==> m.acked == 0)
  }

  ghost predicate RestartsIff(m: Machine, walk: seq<nat>) {
    m.disk.Some? && m.image.Some? && Walks(walk, m.image.value.world.state.jobs) ==>
      BootsIff(m.image.value, m.disk.value, walk)
  }

  lemma MachineLosesNothing(m: Machine)
    requires MachineOk(m)
    ensures NothingLost(m)
  {
    hide WorldOk, AllStoreOk, Uniform, RunFrom, Legal, StateBytes, FileBytes, Covers, StageOk;
  }

  /** A crash at any point of the protocol: the file on disk is the image of a commit that covers every
      acknowledged one, and it boots exactly when that image is bootable. */
  lemma CrashLosesNothing(m: Machine, walk: seq<nat>)
    requires MachineOk(m)
    ensures NothingLost(m) && RestartsIff(m, walk)
  {
    hide WorldOk, AllStoreOk, StateBytes, FileBytes, BootsIff, Uniform, Walks, StateInRange, NothingLost, RunFrom,
         Legal;
    MachineLosesNothing(m);
    if m.disk.Some? && m.image.Some? && Walks(walk, m.image.value.world.state.jobs) {
      ImageBootsIff(m.image.value, walk);
    }
  }

  /** The machine it boots into satisfies the invariant again. */
  lemma CrashIsSafe(m: Machine, walk: seq<nat>, temp: bytes)
    requires MachineOk(m) && m.disk.Some?
    requires Walks(walk, m.image.value.world.state.jobs) && Bootable(m.image.value)
    ensures MachineOk(Reborn(m.image.value, walk, m.disk.value, temp))
  {
    hide WorldOk, AllStoreOk, StateBytes, FileBytes, Restarted, Uniform, Walks, StateInRange, Readable;
    RestartedState(m.image.value, walk);
    RebornIsOk(m.image.value, walk, m.disk.value, temp);
  }

  // ---------------------------------------------------------------------------
  // Tokens across a crash
  // ---------------------------------------------------------------------------

  ghost predicate RefusedBy(s: State, k: nat, t: Token)
    requires k in s.jobs
  {
    forall need :: !Accepts(s.policy, s.jobs[k], t, need)
  }

  /** No operation on job `k` accepts the token after any continuation. */
  ghost predicate RefusedForever(w: World, k: nat, t: Token) {
    forall calls :: Legal(w, calls) && k in RunFrom(w, calls).state.jobs ==> RefusedBy(RunFrom(w, calls).state, k, t)
  }

  /** A token that but for its epoch fits a restarted job is refused by it forever exactly when its epoch
      is at most the stored one. */
  lemma CrashFencesIff(i: Image, walk: seq<nat>, k: nat, t: Token)
    requires Committed(i) && Bootable(i) && Walks(walk, i.world.state.jobs) && k in Restarted(i, walk).state.jobs
    requires var s := Restarted(i, walk).state; Accepts(s.policy, s.jobs[k].(epoch := t.epoch), t, NeedJob)
    ensures RefusedForever(Restarted(i, walk), k, t) <==> t.epoch <= i.epoch
  {
    hide WorldOk, AllStoreOk, StateBytes, Restarted, Walks, StateInRange, RunFrom, Legal, RefusedForever, Resolve,
         Superseded;
    RestartedState(i, walk);
    var w := Restarted(i, walk);
    if t.epoch <= i.epoch {
      OlderIsSuperseded(w.state.jobs[k], t);
      RefusedOnwards(w, k, t);
    } else {
      RestartedWalks(i, walk);
      ReachesEpoch(w, i.epoch + 1, walk, k, t);
    }
  }

  lemma OlderIsSuperseded(job: Job, t: Token)
    requires t.epoch < job.epoch
    ensures Superseded(job, t)
  {}

  lemma RefusedOnwards(w: World, k: nat, t: Token)
    requires WorldOk(w) && k in w.state.jobs && Superseded(w.state.jobs[k], t)
    ensures RefusedForever(w, k, t)
  {
    hide WorldOk, Superseded, RunFrom, Legal, Resolve;
    forall calls | Legal(w, calls) && k in RunFrom(w, calls).state.jobs ensures RefusedBy(RunFrom(w, calls).state, k, t) {
      forall need ensures !Accepts(RunFrom(w, calls).state.policy, RunFrom(w, calls).state.jobs[k], t, need) {
        SupersededForever(w, calls, k, t, need);
      }
    }
  }

  lemma RestartedWalks(i: Image, walk: seq<nat>)
    requires Committed(i) && Walks(walk, i.world.state.jobs)
    ensures Walks(walk, Restarted(i, walk).state.jobs)
  {
    hide WorldOk, AllStoreOk, StateInRange, StateBytes, RebaseEach, DurableJob, Distinct;
    RebaseKeys(DurableState(i.world.state).jobs, walk, i.epoch + 1);
  }

  /** Some continuation brings every job to a later epoch. */
  lemma ReachesEpoch(w: World, epoch: nat, walk: seq<nat>, k: nat, t: Token)
    requires WorldOk(w) && Uniform(w.state, epoch) && Walks(walk, w.state.jobs) && k in w.state.jobs
    requires 0 < epoch <= t.epoch && Accepts(w.state.policy, w.state.jobs[k].(epoch := t.epoch), t, NeedJob)
    ensures !RefusedForever(w, k, t)
  {
    hide WorldOk, Resolve, RebaseEach, Walks;
    if t.epoch == epoch {
      assert w.state.jobs[k].(epoch := t.epoch) == w.state.jobs[k];
      assert Legal(w, []) && RunFrom(w, []) == w;
      assert !RefusedBy(w.state, k, t);
    } else {
      var call := Rebase(t.epoch, walk);
      RebaseSucceedsIff(w.state.jobs, walk, t.epoch);
      assert After(w, call).state.jobs[k] == w.state.jobs[k].(epoch := t.epoch);
      assert [call][1..] == [];
      assert Legal(After(w, call), []) && Legal(w, [call]);
      assert RunFrom(After(w, call), []) == After(w, call);
      assert RunFrom(w, [call]) == After(w, call);
      assert !RefusedBy(After(w, call).state, k, t);
    }
  }

  /** Every token a life accepted before it crashed is refused forever after, provided its epoch in memory
      had not run ahead of the stored one by a rebase whose commit did not reach the disk. */
  lemma DeadLifeIsFenced(m: Machine, walk: seq<nat>, k: nat, t: Token, need: Need)
    requires MachineOk(m) && m.disk.Some? && Walks(walk, m.image.value.world.state.jobs)
    requires k in Now(m).state.jobs && Accepts(Now(m).state.policy, Now(m).state.jobs[k], t, need)
    requires Bootable(m.image.value) && m.epoch <= m.image.value.epoch && k in Restarted(m.image.value, walk).state.jobs
    ensures RefusedForever(Restarted(m.image.value, walk), k, t)
  {
    hide WorldOk, AllStoreOk, StateBytes, FileBytes, Restarted, Walks, StateInRange, RunFrom, Legal, RefusedForever,
         Superseded, Resolve;
    AcceptsIff(Now(m).state.policy, Now(m).state.jobs[k], t, need);
    RestartedState(m.image.value, walk);
    OlderIsSuperseded(Restarted(m.image.value, walk).state.jobs[k], t);
    RefusedOnwards(Restarted(m.image.value, walk), k, t);
  }

  lemma RebornIsOk(i: Image, walk: seq<nat>, disk: bytes, temp: bytes)
    requires Committed(i) && i.epoch + 1 < U64_LIMIT && disk == FileBytes(Contents(i))
    requires WorldOk(Restarted(i, walk)) && AllStoreOk(Restarted(i, walk).state)
    requires Uniform(Restarted(i, walk).state, i.epoch + 1)
    ensures MachineOk(Reborn(i, walk, disk, temp))
  {
    hide WorldOk, AllStoreOk, StateBytes, FileBytes, Restarted, Uniform, StateInRange;
  }

  // ---------------------------------------------------------------------------
  // Every history
  // ---------------------------------------------------------------------------

  /** Something that happens to the machine: an event of the protocol, a crash and a start from the file, or
      from an empty disk when nothing was ever committed. */
  datatype Happening =
    | Progress(event: Event)
    | CrashAndRestart(walk: seq<nat>, temp: bytes)
    | CrashAndBegin(world: World, temp: bytes)

  ghost predicate Possible(m: Machine, h: Happening) {
    match h
    case Progress(e) => Enabled(m, e)
    case CrashAndRestart(walk, _) => m.disk.Some? && m.image.Some? && Walks(walk, m.image.value.world.state.jobs)
    case CrashAndBegin(w, _) => m.disk.None? && Starts(w)
  }

  /** A fresh coordinator, before its baseline commit. */
  ghost function FirstLife(w: World, temp: bytes): Machine {
    Machine(w, [], 0, 0, 1, 0, 0, false, Mutated, None, None, temp)
  }

  /** A coordinator that cannot boot from the file stays down and leaves the file alone. */
  ghost function Happens(m: Machine, h: Happening): Machine {
    if !Possible(m, h) then m else
    match h
    case Progress(e) => Advance(m, e)
    case CrashAndRestart(walk, temp) =>
      if Bootable(m.image.value) then Reborn(m.image.value, walk, m.disk.value, temp) else m.(stage := Down, temp := temp)
    case CrashAndBegin(w, temp) => FirstLife(w, temp)
  }

  lemma FirstLifeIsOk(w: World, temp: bytes)
    requires Starts(w)
    ensures MachineOk(FirstLife(w, temp))
  {
    hide JobOk, ValidPolicy;
    StartIsOk(w);
  }

  lemma DownIsOk(m: Machine, temp: bytes)
    requires MachineOk(m)
    ensures MachineOk(m.(stage := Down, temp := temp))
  {
    hide WorldOk, AllStoreOk, Uniform, RunFrom, Legal, StateBytes, FileBytes, Committed, Restarted;
  }

  lemma HappensKeeps(m: Machine, h: Happening)
    requires MachineOk(m) && Possible(m, h)
    ensures MachineOk(Happens(m, h))
  {
    hide MachineOk, Advance, Enabled, NextEpoch, Reborn, Walks, FirstLife, Starts, Bootable;
    match h
    case Progress(e) => AdvanceKeeps(m, e);
    case CrashAndRestart(walk, temp) =>
      if Bootable(m.image.value) {
        CrashIsSafe(m, walk, temp);
      } else {
        DownIsOk(m, temp);
      }
    case CrashAndBegin(w, temp) => FirstLifeIsOk(w, temp);
  }

  ghost predicate History(m: Machine, hs: seq<Happening>)
    decreases |hs|
  {
    hs == [] || (Possible(m, hs[0]) && History(Happens(m, hs[0]), hs[1..]))
  }

  ghost function AtEnd(m: Machine, hs: seq<Happening>): Machine
    decreases |hs|
  {
    if hs == [] then m else AtEnd(Happens(m, hs[0]), hs[1..])
  }

  lemma {:induction false} HistoryKeeps(m: Machine, hs: seq<Happening>)
    requires MachineOk(m) && History(m, hs)
    ensures MachineOk(AtEnd(m, hs))
    decreases |hs|
  {
    hide MachineOk, Happens, Possible;
    if hs != [] {
      HappensKeeps(m, hs[0]);
      HistoryKeeps(Happens(m, hs[0]), hs[1..]);
    }
  }

  /** From an empty disk, after any history of requests, failures, crashes and restarts, the file covers
      everything acknowledged; and it boots exactly when its image is bootable. */
  lemma EveryHistoryIsSafe(w: World, temp: bytes, hs: seq<Happening>, walk: seq<nat>)
    requires Starts(w) && History(FirstLife(w, temp), hs)
    ensures var m := AtEnd(FirstLife(w, temp), hs); NothingLost(m) && RestartsIff(m, walk)
  {
    hide Starts, History, AtEnd, FirstLife, MachineOk, NothingLost, RestartsIff;
    FirstLifeIsOk(w, temp);
    HistoryKeeps(FirstLife(w, temp), hs);
    CrashLosesNothing(AtEnd(FirstLife(w, temp), hs), walk);
  }

  ghost predicate IsDown(m: Machine) {
    m.stage == Down && m.disk.Some? && m.image.Some? && !Bootable(m.image.value)
  }

  lemma NothingHappens(m: Machine, h: Happening)
    requires IsDown(m)
    ensures var n := Happens(m, h); IsDown(n) && n.disk == m.disk && n.image == m.image
  {
    hide Bootable, Walks, Starts, RunFrom, Legal, StateInRange, WorldOk, Commit, NextSequence, NextEpoch, FileBytes;
    match h
    case Progress(e) => assert !Enabled(m, e);
    case CrashAndRestart(walk, temp) => assert IsDown(m.(stage := Down, temp := temp));
    case CrashAndBegin(w, temp) => assert !Possible(m, h);
  }

  /** A coordinator whose file does not boot never starts again, and the file stays. */
  lemma {:induction false} StaysDown(m: Machine, hs: seq<Happening>)
    requires IsDown(m)
    ensures var n := AtEnd(m, hs); IsDown(n) && n.disk == m.disk && n.image == m.image
    decreases |hs|
  {
    hide IsDown, Happens;
    if hs != [] {
      NothingHappens(m, hs[0]);
      StaysDown(Happens(m, hs[0]), hs[1..]);
    }
  }
}
