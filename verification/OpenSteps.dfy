/** An open step in a snapshot: written reconciled, read back strictly and reconciled again. */
module OpenSteps {
  import opened Bytes
  import opened Results
  import opened Codec
  import opened Model
  import opened Order
  import opened Traffic
  import opened Listing
  import opened Records
  import opened Durable

  // ---------------------------------------------------------------------------
  // Phases with their accounting
  // ---------------------------------------------------------------------------

  datatype Entry = Entry(phase: Phase, acc: PhaseAcc)

  function WriteEntry(e: Entry, rest: bytes): bytes {
    WritePhase(e.phase, WritePhaseAcc(e.acc, rest))
  }

  /** A phase of a registered group, in ascending order after the phases read so far. What its flows
      had committed is not carried over. */
  function ReadEntry(groups: set<nat>, done: seq<Entry>, b: bytes): Read<Entry> {
    var (phase, b1) :- ReadPhase(b);
    if phase.spec.group !in groups then Bad(CORRUPT_STATE)
    else if done != [] && done[|done| - 1].phase.id >= phase.id then Bad(CORRUPT_STATE)
    else
      var (acc, b2) :- ReadPhaseAcc(b1);
      Got(Entry(phase, acc.(bytesCommitted := acc.bytesCompleted)), b2)
  }

  function EntryReader(groups: set<nat>): (seq<Entry>, bytes) -> Read<Entry> {
    (done: seq<Entry>, b: bytes) => ReadEntry(groups, done, b)
  }

  function Released(e: Entry): Entry {
    e.(acc := e.acc.(bytesCommitted := e.acc.bytesCompleted))
  }

  function AllReleased(entries: seq<Entry>): seq<Entry> {
    seq(|entries|, i requires 0 <= i < |entries| => Released(entries[i]))
  }

  function IdsOf(entries: seq<Entry>): seq<nat> {
    seq(|entries|, i requires 0 <= i < |entries| => entries[i].phase.id)
  }

  function PhasesOf(entries: seq<Entry>): seq<Phase> {
    seq(|entries|, i requires 0 <= i < |entries| => entries[i].phase)
  }

  function AccsOf(entries: seq<Entry>): seq<PhaseAcc> {
    seq(|entries|, i requires 0 <= i < |entries| => entries[i].acc)
  }

  function NoFlowsOf(entries: seq<Entry>): seq<nat> {
    seq(|entries|, _ => 0)
  }

  ghost predicate EntryFits(groups: set<nat>, e: Entry) {
    && PhaseFits(e.phase) && e.phase.id != 0 && e.phase.spec.group in groups
    && PhaseAccFits(e.acc) && e.acc.bytesCompleted <= e.acc.bytesCommitted
  }

  lemma EntryRoundTrip(groups: set<nat>, done: seq<Entry>, e: Entry, rest: bytes)
    requires EntryFits(groups, e) && (done != [] ==> done[|done| - 1].phase.id < e.phase.id)
    ensures ReadEntry(groups, done, WriteEntry(e, rest)) == Got(Released(e), rest)
  {
    hide WritePhase, ReadPhase, WritePhaseAcc, ReadPhaseAcc, PhaseFits, PhaseAccFits;
    PhaseRoundTrip(e.phase, WritePhaseAcc(e.acc, rest));
    PhaseAccRoundTrip(e.acc, rest);
  }

  lemma EntriesRoundTrip(groups: set<nat>, entries: seq<Entry>, rest: bytes)
    requires forall e :: e in entries ==> EntryFits(groups, e)
    requires forall i, j :: 0 <= i < j < |entries| ==> entries[i].phase.id < entries[j].phase.id
    ensures GetMany(EntryReader(groups), |entries|, [], PutMany(WriteEntry, entries, rest))
         == Got(AllReleased(entries), rest)
  {
    hide WriteEntry, ReadEntry, EntryFits;
    var images := AllReleased(entries);
    forall i, r | 0 <= i < |entries|
      ensures EntryReader(groups)([] + images[..i], WriteEntry(entries[i], r)) == Got(images[i], r)
    {
      assert entries[i] in entries;
      assert [] + images[..i] == images[..i];
      EntryRoundTrip(groups, images[..i], entries[i], r);
    }
    ManyRoundTrip(WriteEntry, EntryReader(groups), entries, images, [], rest);
    assert [] + images == images;
  }

  // ---------------------------------------------------------------------------
  // The burst
  // ---------------------------------------------------------------------------

  predicate BurstFits(b: Burst) {
    && b.id < U64_LIMIT && b.group < U64_LIMIT && b.expectedBytes < U64_LIMIT && b.openedAt < U64_LIMIT
    && b.deadlineAt < U64_LIMIT && Text(b.reason) && b.displaced < U32_LIMIT && b.throttled < U32_LIMIT
  }

  function WriteBurst(burst: Option<Burst>, rest: bytes): bytes {
    match burst
    case None => PutBool(false, rest)
    case Some(b) =>
      PutBool(true, PutU64(b.id, PutU64(b.group, PutU64(b.expectedBytes, PutU64(b.openedAt, PutU64(b.deadlineAt,
      PutString(b.reason, PutU32(b.displaced, PutU32(b.throttled, PutBool(b.active, rest))))))))))
  }

  function ReadBurst(b: bytes): Read<Option<Burst>> {
    var (has, b0) :- GetBool(b);
    if !has then Got(None, b0) else
    var (id, b1) :- GetU64(b0);
    var (group, b2) :- GetU64(b1);
    var (expectedBytes, b3) :- GetU64(b2);
    var (openedAt, b4) :- GetU64(b3);
    var (deadlineAt, b5) :- GetU64(b4);
    var (reason, b6) :- GetString(b5);
    var (displaced, b7) :- GetU32(b6);
    var (throttled, b8) :- GetU32(b7);
    var (active, b9) :- GetBool(b8);
    Got(Some(Burst(id, group, expectedBytes, openedAt, deadlineAt, reason, displaced, throttled, active)), b9)
  }

  lemma BurstRoundTrip(burst: Option<Burst>, rest: bytes)
    requires burst.Some? ==> BurstFits(burst.value)
    ensures ReadBurst(WriteBurst(burst, rest)) == Got(burst, rest)
  {
    hide PutU64, GetU64, PutU32, GetU32, PutBool, GetBool, PutString, GetString;
  }

  // ---------------------------------------------------------------------------
  // The step
  // ---------------------------------------------------------------------------

  /** The ids of the recorded phases, sorted. */
  ghost function PhaseIds(step: Step): seq<nat> {
    SortedIds(set k | k in step.phaseOrder && k in step.phases)
  }

  function EntryTable(step: Step): map<nat, Entry> {
    map k | k in step.phases :: Entry(step.phases[k], PhaseAccOf(step, k))
  }

  ghost function Entries(step: Step): (r: seq<Entry>)
    ensures |r| == |PhaseIds(step)|
  {
    SortedIdsMembers(set k | k in step.phaseOrder && k in step.phases);
    Pick(PhaseIds(step), EntryTable(step))
  }

  /** Live flows are not written: only what was completed or cancelled stays committed. */
  function Normalized(a: StepAcc): StepAcc {
    a.(activeFlows := 0, activeMin := 0, bytesCommitted := Add64(a.bytesCompleted, a.bytesCancelled))
  }

  ghost function WriteOpenStep(step: Step, rest: bytes): bytes {
    PutU64(step.id, PutU64(step.jobGeneration, PutU64(step.incarnation, PutU64(step.openedAt, PutU64(step.deadlineAt,
    PutU64(step.slack, PutU32(|Entries(step)|, PutMany(WriteEntry, Entries(step), WriteStepTail(step, rest)))))))))
  }

  function WriteStepTail(step: Step, rest: bytes): bytes {
    WriteStepAcc(Normalized(step.acc), WriteFences(FenceLog(step.fences, step.fencesObserved),
      PutU64(step.intentsSeen, WriteBurst(step.burst, rest))))
  }

  /** Committed bytes that nothing accounts for are booked as cancelled, and a fence says so. */
  function Reconcile(step: Step, epoch: nat): Step {
    var a := step.acc;
    var closed := Add64(a.bytesCompleted, a.bytesCancelled);
    if a.bytesCommitted <= closed then step else
    var fence := Fence(STALE_EPOCH, step.openedAt, step.id, 0, 0, 0, 0, epoch, epoch, 0);
    step.(acc := a.(bytesCancelled := Add64(a.bytesCancelled, a.bytesCommitted - closed)),
          fencesObserved := Add64(step.fencesObserved, 1),
          fences := if |step.fences| < MAX_FENCES then step.fences + [fence] else step.fences)
  }

  function ReadStepHead(b: bytes): (r: Read<Step>)
    ensures r.Got? ==> r.value.id != 0
  {
    var (id, b1) :- GetU64(b);
    if id == 0 then Bad(CORRUPT_STATE) else
    var (jobGeneration, b2) :- GetU64(b1);
    var (incarnation, b3) :- GetU64(b2);
    var (openedAt, b4) :- GetU64(b3);
    var (deadlineAt, b5) :- GetU64(b4);
    var (slack, b6) :- GetU64(b5);
    Got(Step(id, jobGeneration, incarnation, openedAt, deadlineAt, slack, map[], [], map[], map[], map[], NO_STEP_ACC,
             [], 0, 0, None), b6)
  }

  /** The phase tables of the entries read. */
  function Filled(head: Step, entries: seq<Entry>): Step {
    var ids := IdsOf(entries);
    head.(phases := Table(ids, PhasesOf(entries)), phaseOrder := ids, phaseAcc := Table(ids, AccsOf(entries)),
          phaseFlows := Table(ids, NoFlowsOf(entries)))
  }

  function ReadStepTail(step: Step, b: bytes): Read<Step> {
    var (acc, b1) :- ReadStepAcc(b);
    var (log, b2) :- ReadFences(b1);
    var (intentsSeen, b3) :- GetU64(b2);
    var (burst, b4) :- ReadBurst(b3);
    Got(step.(acc := acc.(activeFlows := 0, activeMin := 0), fences := log.fences, fencesObserved := log.observed,
              intentsSeen := intentsSeen, burst := burst), b4)
  }

  function ReadOpenStep(groups: set<nat>, epoch: nat, b: bytes): Read<Step> {
    var (head, b1) :- ReadStepHead(b);
    var (count, b2) :- GetCount(MAX_PHASES, b1);
    var (entries, b3) :- GetMany(EntryReader(groups), count, [], b2);
    var (step, b4) :- ReadStepTail(Filled(head, entries), b3);
    Got(Reconcile(step, epoch), b4)
  }

  // ---------------------------------------------------------------------------
  // Round trip
  // ---------------------------------------------------------------------------

  /** A step that a snapshot can carry: its tables agree, its phases belong to registered groups, and
      its numbers fit. */
  ghost predicate StepFits(step: Step, groups: set<nat>) {
    && 0 < step.id < U64_LIMIT && step.jobGeneration < U64_LIMIT && step.incarnation < U64_LIMIT
    && step.openedAt < U64_LIMIT && step.deadlineAt < U64_LIMIT && step.slack < U64_LIMIT
    && step.intentsSeen < U64_LIMIT
    && PhasesFit(step, groups)
    && StepAccFits(step.acc)
    && FenceLogFits(FenceLog(step.fences, step.fencesObserved))
    && (step.burst.Some? ==> BurstFits(step.burst.value))
  }

  ghost predicate PhasesFit(step: Step, groups: set<nat>) {
    && Ascending(step.phaseOrder) && (forall k :: k in step.phaseOrder <==> k in step.phases)
    && |step.phaseOrder| <= MAX_PHASES
    && forall k :: k in step.phases ==>
         step.phases[k].id == k && EntryFits(groups, Entry(step.phases[k], PhaseAccOf(step, k)))
  }

  /** The entries are those of the recorded phases, in their order. */
  lemma EntriesListed(step: Step)
    requires Ascending(step.phaseOrder) && forall k :: k in step.phaseOrder <==> k in step.phases
    ensures PhaseIds(step) == step.phaseOrder && |Entries(step)| == |step.phaseOrder|
    ensures forall i :: 0 <= i < |Entries(step)| ==>
              && step.phaseOrder[i] in step.phases
              && Entries(step)[i] == Entry(step.phases[step.phaseOrder[i]], PhaseAccOf(step, step.phaseOrder[i]))
  {
    hide PhaseAccOf;
    var ids := set k | k in step.phaseOrder && k in step.phases;
    SortedIdsMembers(ids);
    AscendingIsSorted(step.phaseOrder, ids);
  }

  lemma EntriesInOrder(step: Step, groups: set<nat>)
    requires PhasesFit(step, groups)
    ensures PhaseIds(step) == step.phaseOrder && |Entries(step)| == |step.phaseOrder|
    ensures forall i :: 0 <= i < |Entries(step)| ==>
              && step.phaseOrder[i] in step.phases
              && Entries(step)[i] == Entry(step.phases[step.phaseOrder[i]], PhaseAccOf(step, step.phaseOrder[i]))
              && Entries(step)[i].phase.id == step.phaseOrder[i]
              && EntryFits(groups, Entries(step)[i])
  {
    hide PhaseAccOf, EntryFits, Entries, PhaseIds;
    EntriesListed(step);
  }

  lemma FilledIsDurable(step: Step, groups: set<nat>, head: Step)
    requires PhasesFit(step, groups)
    ensures var d := DurableStep(step);
      Filled(head, AllReleased(Entries(step))) == head.(phases := d.phases, phaseOrder := d.phaseOrder,
        phaseAcc := d.phaseAcc, phaseFlows := d.phaseFlows)
  {
    hide PhaseAccOf, EntryFits, Entries, PhaseIds, PhasesFit, Table;
    EntriesInOrder(step, groups);
    OrderCovers(step, groups);
    var images, d, ids := AllReleased(Entries(step)), DurableStep(step), step.phaseOrder;
    assert IdsOf(images) == ids;
    FillsTable(ids, d.phases, PhasesOf(images));
    FillsTable(ids, d.phaseAcc, AccsOf(images));
    FillsTable(ids, d.phaseFlows, NoFlowsOf(images));
  }

  lemma OrderCovers(step: Step, groups: set<nat>)
    requires PhasesFit(step, groups)
    ensures forall k :: k in step.phaseOrder <==> k in step.phases
  {}

  lemma FillsTable<V>(ids: seq<nat>, m: map<nat, V>, vals: seq<V>)
    requires forall k :: k in ids <==> k in m
    requires |vals| == |ids| && forall i :: 0 <= i < |ids| ==> vals[i] == m[ids[i]]
    ensures Table(ids, vals) == m
  {
    TableOfPick(ids, m);
    assert vals == Pick(ids, m);
  }

  lemma StepTailRoundTrip(step: Step, filled: Step, rest: bytes)
    requires StepAccFits(step.acc) && FenceLogFits(FenceLog(step.fences, step.fencesObserved))
    requires step.intentsSeen < U64_LIMIT && (step.burst.Some? ==> BurstFits(step.burst.value))
    ensures ReadStepTail(filled, WriteStepTail(step, rest)) == Got(filled.(acc := Normalized(step.acc),
      fences := step.fences, fencesObserved := step.fencesObserved, intentsSeen := step.intentsSeen,
      burst := step.burst), rest)
  {
    hide WriteStepAcc, ReadStepAcc, WriteFences, ReadFences, WriteBurst, ReadBurst, PutU64, GetU64, FenceLogFits,
         BurstFits;
    var log := FenceLog(step.fences, step.fencesObserved);
    var b3 := WriteBurst(step.burst, rest);
    var b2 := PutU64(step.intentsSeen, b3);
    StepAccRoundTrip(Normalized(step.acc), WriteFences(log, b2));
    FencesRoundTrip(log, b2);
    BurstRoundTrip(step.burst, rest);
  }

  lemma StepHeadRoundTrip(step: Step, rest: bytes)
    requires 0 < step.id < U64_LIMIT && step.jobGeneration < U64_LIMIT && step.incarnation < U64_LIMIT
    requires step.openedAt < U64_LIMIT && step.deadlineAt < U64_LIMIT && step.slack < U64_LIMIT
    ensures ReadStepHead(PutU64(step.id, PutU64(step.jobGeneration, PutU64(step.incarnation, PutU64(step.openedAt,
              PutU64(step.deadlineAt, PutU64(step.slack, rest)))))))
         == Got(Step(step.id, step.jobGeneration, step.incarnation, step.openedAt, step.deadlineAt, step.slack,
                     map[], [], map[], map[], map[], NO_STEP_ACC, [], 0, 0, None), rest)
  {
    hide PutU64, GetU64;
  }

  /** Reading a written open step gives its durable form, and nothing needs reconciling. */
  lemma OpenStepRoundTrip(step: Step, groups: set<nat>, epoch: nat, rest: bytes)
    requires StepFits(step, groups)
    ensures ReadOpenStep(groups, epoch, WriteOpenStep(step, rest)) == Got(DurableStep(step), rest)
  {
    hide PutU64, GetU64, PutU32, GetU32, PutMany, GetMany, WriteStepTail, ReadStepTail, ReadStepHead, Filled,
         PhasesFit, StepAccFits, FenceLogFits, BurstFits, Entries, EntryFits, AllReleased;
    var entries := Entries(step);
    var images := AllReleased(entries);
    var tail := WriteStepTail(step, rest);
    var head := Step(step.id, step.jobGeneration, step.incarnation, step.openedAt, step.deadlineAt, step.slack,
                     map[], [], map[], map[], map[], NO_STEP_ACC, [], 0, 0, None);
    StepHeadRoundTrip(step, PutU32(|entries|, PutMany(WriteEntry, entries, tail)));
    EntriesFitIn(step, groups);
    EntriesRoundTrip(groups, entries, tail);
    FilledIsDurable(step, groups, head);
    StepTailRoundTrip(step, Filled(head, images), rest);
  }

  lemma EntriesFitIn(step: Step, groups: set<nat>)
    requires PhasesFit(step, groups)
    ensures |Entries(step)| <= MAX_PHASES
    ensures forall e :: e in Entries(step) ==> EntryFits(groups, e)
    ensures forall i, j :: 0 <= i < j < |Entries(step)| ==> Entries(step)[i].phase.id < Entries(step)[j].phase.id
  {
    hide EntryFits;
    EntriesInOrder(step, groups);
  }
}
