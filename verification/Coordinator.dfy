/** The program's commit and start-up against a disk, step by step, matched with the commit protocol. */
module Coordinators {
  import opened Bytes
  import opened Results
  import opened Codec
  import opened Model
  import opened Policies
  import opened Order
  import opened Invariants
  import opened Durable
  import opened Snapshot
  import opened Limits
  import opened SnapshotWriter
  import opened SnapshotReader
  import opened Sizes
  import opened StateFile
  import opened Restorable
  import opened Runs
  import opened Laws
  import opened Durability
  import opened LiveJobs
  import opened Fabrics

  /** What goes wrong with the file system during one commit. */
  datatype Fault = NoFault | WriteFails | FlushFails | ReplaceFails | SyncFails

  /** What goes wrong with it while the file is loaded. `LookFails` is an error of the check that the file exists. */
  datatype ReadFault = ReadsWell | LookFails | StatFails | OpenFails | ReadsShort

  class StateStore {
    var file: Option<bytes>
    var temporary: Option<bytes>
    var lastSequence: nat

    constructor (file: Option<bytes>)
      ensures this.file == file && lastSequence == 0
    {
      this.file, temporary, lastSequence := file, None, 0;
    }

    predicate Accepts(s: Stored)
      reads this
    {
      (lastSequence == 0 || s.sequence > lastSequence) && |s.payload| <= MAX_SNAPSHOT_BYTES
    }

    /** Write the temporary file, flush it, put it in place, synchronise the directory. Whatever fails, the
        file in place is the old one or the whole new one; success means the new one. */
    method Commit(s: Stored, fault: Fault) returns (status: ErrorCode)
      requires s.InRange()
      modifies this
      ensures status == OK <==> old(Accepts(s)) && fault == NoFault
      ensures file == if old(Accepts(s)) && (fault == NoFault || fault == SyncFails) then Some(FileBytes(s)) else old(file)
      ensures lastSequence == if status == OK then s.sequence else old(lastSequence)
    {
      hide FileBytes;
      if s.sequence <= lastSequence && lastSequence != 0 {
        return CONFLICT;
      }
      var encoded := Encode(s);
      if encoded.Failure? {
        return encoded.error;
      }
      if fault == WriteFails {
        temporary := None;
        return IO_ERROR;
      }
      temporary := Some(encoded.value);
      if fault == FlushFails || fault == ReplaceFails {
        return IO_ERROR;
      }
      file, temporary := temporary, None;
      if fault == SyncFails {
        return IO_ERROR;
      }
      lastSequence := s.sequence;
      return OK;
    }

    /** A file that cannot be looked up counts as absent; one that cannot be read is an error. */
    method Load(maxPayload: nat, fault: ReadFault) returns (r: Result<Option<Stored>>)
      ensures r == Success(None) <==> file.None? || fault == LookFails
      ensures file.Some? && fault != LookFails && fault != ReadsWell ==> r.Failure?
      ensures file.Some? && fault == ReadsWell ==>
        match DecodeFile(file.value, maxPayload)
        case Success(stored) => r == Success(Some(stored))
        case Failure(error) => r == Failure(error)
      ensures file.Some? && fault == StatFails ==> r == Failure(IO_ERROR)
      ensures file.Some? && |file.value| <= maxPayload + FILE_HEADER_BYTES + 8 ==>
        && (fault == OpenFails ==> r == Failure(IO_ERROR))
        && (fault == ReadsShort ==> r == Failure(PARTIAL_STATE))
    {
      if file.None? || fault == LookFails {
        return Success(None);
      }
      if fault == StatFails {
        return Failure(IO_ERROR);
      }
      if |file.value| > maxPayload + FILE_HEADER_BYTES + 8 {
        return Failure(STATE_TOO_LARGE);
      }
      if fault == OpenFails {
        return Failure(IO_ERROR);
      }
      if fault == ReadsShort && file.value != [] {
        return Failure(PARTIAL_STATE);
      }
      var stored :- Decode(file.value, maxPayload);
      return Success(Some(stored));
    }
  }

  // ---------------------------------------------------------------------------
  // One commit
  // ---------------------------------------------------------------------------

  /** The events of one commit of the protocol, up to the fault that stops it. */
  ghost function CommitRun(m: Machine, fault: Fault, torn: bytes): Machine
  {
    var snapped := Advance(m, TakeSnapshot);
    if snapped.stage == Idle then snapped
    else if fault == WriteFails then Advance(snapped, FailToWrite(torn))
    else
      var written := Advance(snapped, WriteTemporary);
      if written.stage == Idle then written
      else if fault == FlushFails || fault == ReplaceFails then Advance(written, FailToRename)
      else
        var renamed := Advance(written, RenameOver);
        Advance(renamed, if fault == SyncFails then FailToSync else Acknowledge)
  }

  /** No sequence number is left for this store. */
  ghost predicate RunOut(m: Machine) {
    m.sequence + 1 == U64_LIMIT && m.stored != 0
  }

  /** Where one commit leaves the protocol, fault by fault. */
  lemma CommitRunOutcome(m: Machine, fault: Fault, torn: bytes)
    requires m.stage == Mutated && StateInRange(Now(m).state) && m.stored <= m.sequence < U64_LIMIT
    ensures var n, snapshot := CommitRun(m, fault, torn), Serialize(Now(m).state);
      if m.degraded || snapshot.Failure? then n == m.(stage := Idle)
      else
        var good, next := fault == NoFault && !RunOut(m), Add64(m.sequence, 1);
        && n.epoch == m.epoch && n.degraded == !good
        && n.disk == (if !RunOut(m) && (fault == NoFault || fault == SyncFails)
                      then Some(FileBytes(Stored(m.epoch, next, snapshot.value))) else m.disk)
        && n.sequence == (if good then next else m.sequence)
        && n.stored == (if good then next else m.stored)
        && n.acked == (if good then |m.calls| else m.acked)
  {
    hide RunFrom, StateInRange, StateBytes, FileBytes;
  }

  /** Rebuild a fabric from a restored state, job by job. */
  method Adopt(s: State) returns (f: Fabric)
    ensures fresh(f) && fresh(f.jobs.Values) && f.Separate() && f.Whole() == s
  {
    hide LiveJob.Value;
    f := new Fabric(s.config, s.now, s.policy);
    var todo := s.jobs.Keys;
    while todo != {}
      invariant todo <= s.jobs.Keys && f.Separate() && fresh(f.jobs.Values)
      invariant f.config == s.config && f.now == s.now && f.policy == s.policy
      invariant f.Values() == map k | k in s.jobs && k !in todo :: s.jobs[k]
      decreases |todo|
    {
      var k :| k in todo;
      assert k !in f.Values();
      f.Insert(k, s.jobs[k]);
      todo := todo - {k};
    }
    f.nextJob := s.nextJob;
    assert f.Values() == s.jobs;
  }

  /** What a commit needs of the machine, which its invariant and numbers that fit provide. */
  ghost predicate CanCommit(m: Machine) {
    && WorldOk(Now(m)) && AllStoreOk(Now(m).state) && StateInRange(Now(m).state)
    && m.stage == Mutated && m.epoch < U64_LIMIT && m.stored <= m.sequence < U64_LIMIT
  }

  lemma MachineCanCommit(m: Machine)
    requires MachineOk(m) && m.stage == Mutated && StateInRange(Now(m).state)
    ensures CanCommit(m)
  {
    hide WorldOk, AllStoreOk, Uniform, RunFrom, Legal, StateBytes, FileBytes, Covers, StateInRange, StageOk;
  }

  class Coordinator {
    const store: StateStore
    const fabric: Fabric
    var epoch: nat
    var sequence: nat
    var degraded: bool

    constructor (store: StateStore, fabric: Fabric, epoch: nat, sequence: nat)
      ensures this.store == store && this.fabric == fabric
      ensures this.epoch == epoch && this.sequence == sequence && !degraded
    {
      this.store, this.fabric, this.epoch, this.sequence, degraded := store, fabric, epoch, sequence, false;
    }

    /** The coordinator and its disk are at the point the protocol has reached. */
    ghost predicate At(m: Machine)
      reads this, store
    {
      && epoch == m.epoch && sequence == m.sequence && degraded == m.degraded
      && store.file == m.disk && store.lastSequence == m.stored
    }

    /** Snapshot, write, rename, acknowledge. A failed snapshot only refuses the request; a failed write
        degrades the coordinator for good. The outcome is that of the protocol's events. */
    method CommitState(fault: Fault, ghost m: Machine, ghost torn: bytes) returns (status: ErrorCode)
      requires At(m) && fabric.Whole() == Now(m).state && CanCommit(m)
      modifies this, store
      ensures At(CommitRun(m, fault, torn))
      ensures status == OK <==> !m.degraded && Serialize(Now(m).state).Success? && fault == NoFault && !RunOut(m)
      ensures status == OK ==> CommitRun(m, fault, torn).acked == |m.calls|
    {
      hide CommitRun, WorldOk, AllStoreOk, RunFrom, StateBytes, FileBytes, StateInRange, StateWritten;
      CommitRunOutcome(m, fault, torn);
      StateWrittenNow(Now(m));
      if degraded {
        return NOT_READY;
      }
      StateWrittenIsHeld(fabric.Whole());
      var snapshot := SerializeState(fabric.Whole());
      if snapshot.Failure? {
        return snapshot.error;
      }
      var next := Add64(sequence, 1);
      status := store.Commit(Stored(epoch, next, snapshot.value), fault);
      if status != OK {
        degraded := true;
        return;
      }
      sequence := next;
    }

    /** Restore whatever the disk holds: a stored state is rebased onto the next epoch, an empty disk starts at
        epoch one. */
    static method Recover(config: Config, start: nat, policy: Policy, store: StateStore, reading: ReadFault)
      returns (r: Result<Coordinator>, ghost walk: seq<nat>)
      ensures Absent(store.file, reading) ==> Booted(Success(State(config, start, policy, map[], 1)), r)
      ensures Absent(store.file, reading) ==> r.value.epoch == 1 && r.value.sequence == 0
      ensures store.file.Some? && reading == ReadsWell ==> Booted(Durability.Boot(config, Contained(store.file), walk), r)
      ensures r.Success? ==> fresh(r.value) && r.value.store == store && !r.value.degraded
      ensures r.Success? && !Absent(store.file, reading) ==>
        r.value.epoch == Add64(StoredIn(store.file).epoch, 1) && r.value.sequence == StoredIn(store.file).sequence
      ensures !Absent(store.file, reading) && reading != ReadsWell ==> r.Failure?
      ensures store.file.Some? && reading == ReadsWell ==> WalksRestored(config, Contained(store.file), walk)
      ensures r.Success? ==> fresh(r.value.fabric)
    {
      hide DecodeFile, Durability.Revive, RestoredWalk, Booted;
      walk := [];
      var loaded := store.Load(MAX_SNAPSHOT_BYTES, reading);
      if loaded.Failure? {
        BootedFailure(loaded.error);
        return Failure(loaded.error), walk;
      }
      if loaded.value.None? {
        var empty := new Fabric(config, start, policy);
        var first := new Coordinator(store, empty, 1, 0);
        r := Success(first);
        BootedSuccess(empty.Whole(), r);
        return;
      }
      r, walk := Rebuild(config, loaded.value.value, store);
    }

    /** Restore the stored state and rebase every job onto the next epoch. */
    static method Rebuild(config: Config, stored: Stored, store: StateStore)
      returns (r: Result<Coordinator>, ghost walk: seq<nat>)
      ensures Booted(Durability.Revive(config, stored, walk), r)
      ensures r.Success? ==> fresh(r.value) && fresh(r.value.fabric) && r.value.store == store && !r.value.degraded
      ensures r.Success? ==> r.value.epoch == Add64(stored.epoch, 1) && r.value.sequence == stored.sequence
      ensures RestoredWalk(config, stored, walk)
    {
      hide Deserialize, DoRebase, Walks;
      walk := [];
      var restored := DeserializeState(config, stored.payload);
      if restored.Failure? {
        return Failure(restored.error), walk;
      }
      var fabric := Adopt(restored.value);
      var reply;
      reply, walk := fabric.RebaseEpoch(Add64(stored.epoch, 1));
      if Add64(stored.epoch, 1) == 0 {
        walk := AnyWalk(restored.value.jobs);
      }
      if reply.Refused? {
        return Failure(reply.error), walk;
      }
      var c := new Coordinator(store, fabric, Add64(stored.epoch, 1), stored.sequence);
      return Success(c), walk;
    }

    /** Restore, and commit the baseline before serving. A file whose look-up fails is taken for absent: the
        coordinator begins anew and its baseline replaces the file. */
    static method Start(config: Config, start: nat, policy: Policy, store: StateStore, reading: ReadFault, writing: Fault,
                        ghost image: Option<Image>, ghost torn: bytes)
      returns (r: Result<Coordinator>, ghost m: Machine)
      requires store.lastSequence == 0 && CanBegin(config, start, policy) && Holds(store.file, image, config)
      modifies store
      ensures Ready(old(store.file), image, reading) ==>
        && Begins(m, config, start, policy, old(store.file), image, reading)
        && store.file == CommitRun(m, writing, torn).disk
        && (r.Success? <==> Serialize(Now(m).state).Success? && writing == NoFault)
        && (r.Success? ==> r.value.store == store && Underway(r, CommitRun(m, writing, torn), Now(m).state))
      ensures !Ready(old(store.file), image, reading) ==> r.Failure? && store.file == old(store.file)
    {
      hide CommitRun, CanCommit, Begins, CanBegin, Holds, Bootable, Durability.Boot, DecodeFile, Serialize, RunFrom,
           BegunFrom, WalksRestored;
      var recovered, walk := Recover(config, start, policy, store, reading);
      ReadyIff(config, start, policy, store.file, image, reading, walk);
      BegunFields(config, start, policy, store.file, image, reading, walk);
      m := BegunFrom(config, start, policy, store.file, image, reading, walk);
      if recovered.Failure? {
        return Failure(recovered.error), m;
      }
      var c := recovered.value;
      var status := c.CommitState(writing, m, torn);
      if status != OK {
        return Failure(status), m;
      }
      return Success(c), m;
    }
  }

  /** The file, if there is one, is that of a commit by a coordinator configured alike, and its clock can tick. */
  ghost predicate Holds(file: Option<bytes>, image: Option<Image>, config: Config) {
    file.Some? ==>
      && image.Some? && Committed(image.value) && file.value == FileBytes(Contents(image.value))
      && image.value.world.state.config == config && image.value.world.state.now + 1 < U64_LIMIT
  }

  function Empty(config: Config, start: nat, policy: Policy): World {
    World(State(config, start, policy, map[], 1), map[])
  }

  ghost predicate CanBegin(config: Config, start: nat, policy: Policy) {
    Starts(Empty(config, start, policy)) && StateInRange(Empty(config, start, policy).state)
  }

  /** The disk can be taken for empty, or holds an image that boots. */
  ghost predicate Ready(file: Option<bytes>, image: Option<Image>, reading: ReadFault) {
    Absent(file, reading) || (reading == ReadsWell && image.Some? && Bootable(image.value))
  }

  ghost function BegunFrom(config: Config, start: nat, policy: Policy, file: Option<bytes>, image: Option<Image>,
                           reading: ReadFault, walk: seq<nat>): Machine {
    if Absent(file, reading) || image.None? then FirstLife(Empty(config, start, policy), []).(disk := file, image := image)
    else Reborn(image.value, walk, file.value, [])
  }

  /** The machine of a coordinator that recovered is where `Start` says, and can commit. */
  lemma ReadyIff(config: Config, start: nat, policy: Policy, file: Option<bytes>, image: Option<Image>, reading: ReadFault,
                 walk: seq<nat>)
    requires CanBegin(config, start, policy) && Holds(file, image, config)
    requires file.Some? && reading == ReadsWell ==> WalksRestored(config, Contained(file), walk)
    ensures var m := BegunFrom(config, start, policy, file, image, reading, walk);
      && (Ready(file, image, reading) ==> Begins(m, config, start, policy, file, image, reading) && CanCommit(m))
      && (file.Some? && reading == ReadsWell ==>
            var r := Durability.Boot(config, Contained(file), walk);
            (r.Success? <==> Ready(file, image, reading)) && (r.Success? ==> r == Success(Now(m).state)))
      && (Absent(file, reading) ==> Now(m).state == State(config, start, policy, map[], 1))
  {
    hide WorldOk, AllStoreOk, StateBytes, FileBytes, Restarted, StateInRange, Durability.Boot, WalksRestored, Uniform,
         Walks, Readable;
    if Absent(file, reading) {
      EmptyCanCommit(config, start, policy, file, image);
    } else if reading == ReadsWell {
      var i := image.value;
      BootsFrom(i, walk);
      if Bootable(i) {
        RestartedState(i, walk);
        RestartedInRange(i, walk);
      }
    }
  }

  lemma EmptyCanCommit(config: Config, start: nat, policy: Policy, file: Option<bytes>, image: Option<Image>)
    requires CanBegin(config, start, policy)
    ensures CanCommit(FirstLife(Empty(config, start, policy), []).(disk := file, image := image))
  {
    hide WorldOk, StateInRange;
    StartIsOk(Empty(config, start, policy));
  }

  /** Whatever the disk holds, when its look-up fails the baseline commit puts the empty state in its place. */
  lemma OverlookedIsReplaced(config: Config, start: nat, policy: Policy, file: Option<bytes>, image: Option<Image>,
                             torn: bytes)
    requires CanBegin(config, start, policy)
    ensures var w := Empty(config, start, policy);
      var m := FirstLife(w, []).(disk := file, image := image);
      && Begins(m, config, start, policy, file, image, LookFails)
      && CommitRun(m, NoFault, torn).disk == Some(FileBytes(Stored(1, 1, StateBytes(w.state))))
  {
    hide WorldOk, AllStoreOk, StateInRange, StateBytes, FileBytes, CommitRun, StateWritten;
    var w := Empty(config, start, policy);
    var m := FirstLife(w, []).(disk := file, image := image);
    EmptyCanCommit(config, start, policy, file, image);
    StateWrittenNow(w);
    QuietSerializes(w.state);
    CommitRunOutcome(m, NoFault, torn);
  }

  lemma BegunFields(config: Config, start: nat, policy: Policy, file: Option<bytes>, image: Option<Image>,
                    reading: ReadFault, walk: seq<nat>)
    requires Holds(file, image, config)
    ensures var m := BegunFrom(config, start, policy, file, image, reading, walk);
      && m.disk == file && !m.degraded && m.stored == 0
      && (Absent(file, reading) ==> m.epoch == 1 && m.sequence == 0)
      && (!Absent(file, reading) && Ready(file, image, reading) ==>
            m.epoch == Add64(StoredIn(file).epoch, 1) && m.sequence == StoredIn(file).sequence)
  {
    hide WorldOk, AllStoreOk, StateBytes, FileBytes, DecodeFile, Restarted, StateInRange, Uniform, Readable;
    if !Absent(file, reading) {
      DecodeEncodedFile(Contents(image.value), MAX_SNAPSHOT_BYTES);
    }
  }

  /** The machine is at the first commit of a new life. */
  ghost predicate Begins(m: Machine, config: Config, start: nat, policy: Policy, file: Option<bytes>,
                         image: Option<Image>, reading: ReadFault) {
    if Absent(file, reading) then m == FirstLife(Empty(config, start, policy), []).(disk := file, image := image)
    else
      image.Some? && exists walk ::
        Walks(walk, image.value.world.state.jobs) && m == Reborn(image.value, walk, file.value, [])
  }

  /** The walk covers the jobs the stored state restores. */
  ghost predicate RestoredWalk(config: Config, stored: Stored, walk: seq<nat>) {
    var s := Deserialize(config, stored.payload);
    s.Success? ==> Walks(walk, s.value.jobs)
  }

  ghost predicate WalksRestored(config: Config, file: bytes, walk: seq<nat>) {
    var d := DecodeFile(file, MAX_SNAPSHOT_BYTES);
    d.Success? ==> RestoredWalk(config, d.value, walk)
  }

  ghost function AnyWalk(jobs: map<nat, Job>): (walk: seq<nat>)
    ensures Walks(walk, jobs)
  {
    SortedIdsMembers(jobs.Keys);
    AscendingIsDistinct(SortedIds(jobs.Keys));
    SortedIds(jobs.Keys)
  }

  lemma {:induction false} AscendingIsDistinct(s: seq<nat>)
    requires Ascending(s)
    ensures Distinct(s)
  {}

  lemma BootsFrom(i: Image, walk: seq<nat>)
    requires Committed(i) && WalksRestored(i.world.state.config, FileBytes(Contents(i)), walk)
    ensures var r := Durability.Boot(i.world.state.config, FileBytes(Contents(i)), walk);
      && (r.Success? <==> Bootable(i))
      && (Bootable(i) ==> r == Success(Restarted(i, walk).state) && Walks(walk, i.world.state.jobs))
  {
    hide WorldOk, AllStoreOk, StateBytes, Deserialize, FileBytes, DecodeFile, Restarted, DoRebase, Walks, Readable,
         StateInRange, StateWritten;
    DecodeEncodedFile(Contents(i), MAX_SNAPSHOT_BYTES);
    StateWrittenNow(i.world);
    StateReadIff(i.world.state);
    if Readable(i.world.state) {
      SameWalks(walk, i.world.state);
      ImageBootsIff(i, walk);
    }
  }

  lemma SameWalks(walk: seq<nat>, s: State)
    ensures Walks(walk, DurableState(s).jobs) <==> Walks(walk, s.jobs)
  {
    hide DurableJob;
  }

  function Contained(file: Option<bytes>): bytes {
    if file.Some? then file.value else []
  }

  /** What the file stores, if it can be decoded. */
  function StoredIn(file: Option<bytes>): Stored {
    var d := DecodeFile(Contained(file), MAX_SNAPSHOT_BYTES);
    if d.Success? then d.value else Stored(0, 0, [])
  }

  ghost predicate Absent(file: Option<bytes>, reading: ReadFault) {
    file.None? || reading == LookFails
  }

  lemma BootedFailure(error: ErrorCode)
    ensures Booted(Failure(error), Failure(error))
  {}

  lemma BootedSuccess(s: State, r: Result<Coordinator>)
    requires r.Success? && r.value.fabric.Whole() == s
    ensures Booted(Success(s), r)
  {}

  /** The coordinator that started, and its disk, are at a point of the protocol. */
  ghost predicate Underway(r: Result<Coordinator>, m: Machine, s: State)
    reads if r.Success? then {r.value, r.value.store, r.value.fabric} + r.value.fabric.jobs.Values else {}
  {
    r.Success? && r.value.At(m) && r.value.fabric.Whole() == s
  }

  ghost predicate Booted(booted: Result<State>, r: Result<Coordinator>)
    reads if r.Success? then {r.value, r.value.fabric} + r.value.fabric.jobs.Values else {}
  {
    match booted
    case Success(s) => r.Success? && r.value.fabric.Whole() == s
    case Failure(error) => r == Failure(error)
  }
}
