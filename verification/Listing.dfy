/** Counted lists and enumerations in the byte codec. */
module Listing {
  import opened Bytes
  import opened Results
  import opened Codec
  import opened Model
  import opened Order

  // ---------------------------------------------------------------------------
  // Lists
  // ---------------------------------------------------------------------------

  /** Read `n` items; each reader sees what was read before it. */
  function GetMany<U>(read: (seq<U>, bytes) -> Read<U>, n: nat, done: seq<U>, b: bytes): Read<seq<U>>
    decreases n
  {
    if n == 0 then Got(done, b) else
    var (item, b1) :- read(done, b);
    GetMany(read, n - 1, done + [item], b1)
  }

  function PutMany<T>(write: (T, bytes) -> bytes, items: seq<T>, rest: bytes): bytes
    decreases |items|
  {
    if items == [] then rest else write(items[0], PutMany(write, items[1..], rest))
  }

  /** If every item reads back, in its place, as its image, so does the list. */
  lemma {:induction false} ManyRoundTrip<T(!new), U(!new)>(
    write: (T, bytes) -> bytes, read: (seq<U>, bytes) -> Read<U>, items: seq<T>, images: seq<U>, done: seq<U>, rest: bytes)
    requires |items| == |images|
    requires forall i, r :: 0 <= i < |items| ==> read(done + images[..i], write(items[i], r)) == Got(images[i], r)
    ensures GetMany(read, |items|, done, PutMany(write, items, rest)) == Got(done + images, rest)
    decreases |items|
  {
    if items == [] {
      assert done + images == done;
    } else {
      assert done + images[..0] == done;
      assert read(done + images[..0], write(items[0], PutMany(write, items[1..], rest))).Got?;
      forall i, r | 0 <= i < |items[1..]|
        ensures read(done + [images[0]] + images[1..][..i], write(items[1..][i], r)) == Got(images[1..][i], r)
      {
        assert done + [images[0]] + images[1..][..i] == done + images[..i + 1];
        assert read(done + images[..i + 1], write(items[i + 1], r)) == Got(images[i + 1], r);
      }
      ManyRoundTrip(write, read, items[1..], images[1..], done + [images[0]], rest);
      assert done + [images[0]] + images[1..] == done + images;
    }
  }

  lemma ManyFirst<T(!new), U(!new)>(
    write: (T, bytes) -> bytes, read: (seq<U>, bytes) -> Read<U>, items: seq<T>, done: seq<U>, rest: bytes)
    requires items != [] && GetMany(read, |items|, done, PutMany(write, items, rest)).Got?
    ensures var first := read(done, write(items[0], PutMany(write, items[1..], rest)));
      first.Got? && GetMany(read, |items| - 1, done + [first.value], first.rest).Got?
  {}

  /** The reader accepts `item` from some bytes, after `done`. */
  ghost predicate Reads<U(!new)>(read: (seq<U>, bytes) -> Read<U>, done: seq<U>, item: U) {
    exists b :: read(done, b).Got? && read(done, b).value == item
  }

  /** A list read has as many items as were asked for, each accepted by its reader. */
  lemma {:induction false} ManyRead<U(!new)>(read: (seq<U>, bytes) -> Read<U>, n: nat, done: seq<U>, b: bytes)
    requires GetMany(read, n, done, b).Got?
    ensures var r := GetMany(read, n, done, b).value;
      && |r| == |done| + n && r[..|done|] == done
      && forall i :: |done| <= i < |r| ==> Reads(read, r[..i], r[i])
    decreases n
  {
    if n > 0 {
      var item := read(done, b).value;
      var r := GetMany(read, n, done, b).value;
      assert Reads(read, done, item);
      hide Reads;
      ManyRead(read, n - 1, done + [item], read(done, b).rest);
      assert r[..|done| + 1] == done + [item];
      assert r[..|done|] == done && r[|done|] == item;
    } else {
      assert done[..|done|] == done;
    }
  }

  // ---------------------------------------------------------------------------
  // Tables written in key order
  // ---------------------------------------------------------------------------

  /** The records of a table in the given order. */
  function Pick<V>(ids: seq<nat>, m: map<nat, V>): seq<V>
    requires forall k :: k in ids ==> k in m
  {
    seq(|ids|, i requires 0 <= i < |ids| => m[ids[i]])
  }

  /** The table with the given keys and records. */
  function Table<V>(ids: seq<nat>, vals: seq<V>): map<nat, V>
    requires |ids| == |vals|
    decreases |ids|
  {
    if ids == [] then map[] else Table(ids[1..], vals[1..])[ids[0] := vals[0]]
  }

  lemma {:induction false} TableOfPick<V>(ids: seq<nat>, m: map<nat, V>)
    requires forall k :: k in ids ==> k in m
    ensures Table(ids, Pick(ids, m)) == map k | k in ids :: m[k]
    decreases |ids|
  {
    if ids != [] {
      assert forall k :: k in ids <==> k == ids[0] || k in ids[1..];
      TableOfPick(ids[1..], m);
      assert Pick(ids, m)[1..] == Pick(ids[1..], m);
    }
  }

  lemma {:induction false} TableKeys<V>(ids: seq<nat>, vals: seq<V>)
    requires |ids| == |vals|
    ensures forall k :: k in Table(ids, vals) <==> k in ids
    decreases |ids|
  {
    if ids != [] {
      TableKeys(ids[1..], vals[1..]);
      assert forall k :: k in ids <==> k == ids[0] || k in ids[1..];
    }
  }

  lemma {:induction false} TableAt<V>(ids: seq<nat>, vals: seq<V>, i: nat)
    requires |ids| == |vals| && Ascending(ids) && i < |ids|
    ensures ids[i] in Table(ids, vals) && Table(ids, vals)[ids[i]] == vals[i]
    decreases |ids|
  {
    if i > 0 {
      assert ids[1..][i - 1] == ids[i] && vals[1..][i - 1] == vals[i];
      TableAt(ids[1..], vals[1..], i - 1);
    }
  }

  // ---------------------------------------------------------------------------
  // Enumerations
  // ---------------------------------------------------------------------------

  const PHASES: seq<PhaseClass> :=
    [UnknownPhase, ForwardComm, BackwardComm, GradientSync, ParameterSync, PipelineTransfer, DataIngest, Checkpoint,
     Recovery, Control]

  const SERVICES: seq<ServiceClass> :=
    [UnknownService, BestEffort, IngestService, PipelineService, ActivationService, CheckpointService, ParameterService,
     GradientService, RecoveryService, BarrierService, ControlService]

  const CRITICALITIES: seq<Criticality> := [UnknownCriticality, BestEffortCriticality, SoftCriticality, HardCriticality]

  const DISPOSITIONS: seq<Disposition> := [Undecided, Completed, Cancelled, Fenced]

  const LABELS: seq<Label> := [Unsupported, Synthetic, Real]

  const KINDS: seq<Kind> := [UnknownKind, Data, Tensor, Pipeline, Expert, ContextReplica, OptimizerShard]

  /** The position of a member in an enumeration. */
  function Code<T(==)>(names: seq<T>, v: T): (i: nat)
    ensures v in names ==> i < |names| && names[i] == v
    decreases |names|
  {
    if names == [] || names[0] == v then 0 else 1 + Code(names[1..], v)
  }

  lemma PhaseNamed(v: PhaseClass)
    ensures v in PHASES
  {
    assert PHASES[0] == UnknownPhase && PHASES[1] == ForwardComm && PHASES[2] == BackwardComm
        && PHASES[3] == GradientSync && PHASES[4] == ParameterSync && PHASES[5] == PipelineTransfer
        && PHASES[6] == DataIngest && PHASES[7] == Checkpoint && PHASES[8] == Recovery && PHASES[9] == Control;
  }

  lemma ServiceNamed(v: ServiceClass)
    ensures v in SERVICES
  {
    assert SERVICES[0] == UnknownService && SERVICES[1] == BestEffort && SERVICES[2] == IngestService
        && SERVICES[3] == PipelineService && SERVICES[4] == ActivationService && SERVICES[5] == CheckpointService
        && SERVICES[6] == ParameterService && SERVICES[7] == GradientService && SERVICES[8] == RecoveryService
        && SERVICES[9] == BarrierService && SERVICES[10] == ControlService;
  }

  lemma SmallNamed(c: Criticality, d: Disposition, l: Label)
    ensures c in CRITICALITIES && d in DISPOSITIONS && l in LABELS
  {
    assert CRITICALITIES[0] == UnknownCriticality && CRITICALITIES[1] == BestEffortCriticality
        && CRITICALITIES[2] == SoftCriticality && CRITICALITIES[3] == HardCriticality;
    assert DISPOSITIONS[0] == Undecided && DISPOSITIONS[1] == Completed && DISPOSITIONS[2] == Cancelled
        && DISPOSITIONS[3] == Fenced;
    assert LABELS[0] == Unsupported && LABELS[1] == Synthetic && LABELS[2] == Real;
  }

  lemma KindNamed(v: Kind)
    ensures v in KINDS
  {
    assert KINDS[0] == UnknownKind && KINDS[1] == Data && KINDS[2] == Tensor && KINDS[3] == Pipeline
        && KINDS[4] == Expert && KINDS[5] == ContextReplica && KINDS[6] == OptimizerShard;
  }

  function PutName<T(==)>(names: seq<T>, v: T, rest: bytes): bytes {
    PutU8(Code(names, v), rest)
  }

  function GetName<T>(names: seq<T>, b: bytes): (r: Read<T>)
    ensures r.Got? ==> r.value in names
  {
    var (raw, b1) :- GetU8(b);
    if raw >= |names| then Bad(BAD_ENCODING) else Got(names[raw], b1)
  }

  lemma NameRoundTrip<T>(names: seq<T>, v: T, rest: bytes)
    requires v in names && |names| <= U8_LIMIT
    ensures GetName(names, PutName(names, v, rest)) == Got(v, rest)
  {}
}
