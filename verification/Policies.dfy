/** Validation and lookup of policies, contracts, groups and capacity evidence. */
module Policies {
  import opened Results
  import opened Utf8
  import opened Codec
  import opened Model

  function PhaseIndex(c: PhaseClass): (i: nat)
    ensures i < PHASE_CLASSES
  {
    match c
    case UnknownPhase => 0
    case ForwardComm => 1
    case BackwardComm => 2
    case GradientSync => 3
    case ParameterSync => 4
    case PipelineTransfer => 5
    case DataIngest => 6
    case Checkpoint => 7
    case Recovery => 8
    case Control => 9
  }

  // ---------------------------------------------------------------------------
  // Policy
  // ---------------------------------------------------------------------------

  /** The first definition of a class. */
  function Find(classes: seq<ClassSpec>, cls: ServiceClass): (r: Option<ClassSpec>)
    ensures r.Some? ==> r.value in classes && r.value.cls == cls
    ensures r.None? ==> forall s :: s in classes ==> s.cls != cls
    decreases |classes|
  {
    if classes == [] then None
    else if classes[0].cls == cls then Some(classes[0])
    else Find(classes[1..], cls)
  }

  function ClassForPhase(p: Policy, c: PhaseClass): ServiceClass {
    if PhaseIndex(c) >= |p.phaseMap| then BestEffort else p.phaseMap[PhaseIndex(c)]
  }

  function SpecError(s: ClassSpec): ErrorCode {
    if s.cls == UnknownService then INVALID_ARGUMENT
    else if s.priority > 200 then OUT_OF_RANGE
    else if s.weight == 0 then INVALID_ARGUMENT
    else if s.ceiling != 0 && s.ceiling < s.floor then INVALID_ARGUMENT
    else if s.ceiling > MAX_RATE_BPS || s.floor > MAX_RATE_BPS then OUT_OF_RANGE
    else OK
  }

  predicate Clash(a: ClassSpec, b: ClassSpec) {
    a.priority == b.priority || a.cls == b.cls
  }

  /** What an accepted policy guarantees. */
  ghost predicate ValidPolicy(p: Policy) {
    && p.generation != 0
    && p.classes != []
    && (forall s :: s in p.classes ==> SpecError(s) == OK)
    && (forall i, j :: 0 <= i < j < |p.classes| ==> !Clash(p.classes[i], p.classes[j]))
    && p.phaseMap[0] == BestEffort
    && (forall c :: c in p.phaseMap ==> c != UnknownService && Find(p.classes, c).Some?)
    && LimitsError(p) == OK
  }

  function LimitsError(p: Policy): ErrorCode {
    if p.unknownCeiling > MAX_RATE_BPS then OUT_OF_RANGE
    else if p.maxClauses == 0 || p.maxClauses > 64 then OUT_OF_RANGE
    else if p.maxHistory == 0 || p.maxHistory > 1024 then OUT_OF_RANGE
    else if p.maxActiveFlows == 0 || p.maxActiveFlows > 0x100_0000 then OUT_OF_RANGE
    else if p.backoff == 0 || p.backoff > 0x100_0000 then OUT_OF_RANGE
    else OK
  }

  function FirstSpecError(classes: seq<ClassSpec>): ErrorCode
    decreases |classes|
  {
    if classes == [] then OK
    else if SpecError(classes[0]) != OK then SpecError(classes[0])
    else FirstSpecError(classes[1..])
  }

  ghost predicate Clashes(classes: seq<ClassSpec>) {
    exists i, j :: 0 <= i < j < |classes| && Clash(classes[i], classes[j])
  }

  predicate Unserved(p: Policy, c: ServiceClass) {
    c == UnknownService || Find(p.classes, c).None?
  }

  /** The first failing check, in the program's order. */
  ghost function PolicyError(p: Policy): ErrorCode
  {
    if p.generation == 0 then INVALID_ARGUMENT
    else if p.classes == [] then INVALID_ARGUMENT
    else if FirstSpecError(p.classes) != OK then FirstSpecError(p.classes)
    else if Clashes(p.classes) then CONFLICT
    else if p.phaseMap[0] != BestEffort then CONSERVATIVE_UNKNOWN_PHASE
    else if exists i :: 0 <= i < |p.phaseMap| && Unserved(p, p.phaseMap[i]) then INVALID_ARGUMENT
    else LimitsError(p)
  }

  lemma {:induction false} SpecsValid(classes: seq<ClassSpec>)
    ensures FirstSpecError(classes) == OK <==> forall s :: s in classes ==> SpecError(s) == OK
    decreases |classes|
  {
    if classes != [] {
      SpecsValid(classes[1..]);
      assert forall s :: s in classes <==> s == classes[0] || s in classes[1..];
    }
  }

  /** The checks pass exactly on the policies with the stated guarantees. */
  lemma PolicyErrorIff(p: Policy)
    ensures PolicyError(p) == OK <==> ValidPolicy(p)
  {
    SpecsValid(p.classes);
    forall i | 0 <= i < |p.phaseMap| ensures p.phaseMap[i] in p.phaseMap {}
    assert forall c :: c in p.phaseMap ==> exists i :: 0 <= i < |p.phaseMap| && p.phaseMap[i] == c;
  }

  /** The program's loops. */
  method ValidatePolicy(p: Policy) returns (error: ErrorCode)
    ensures error == PolicyError(p)
  {
    if p.generation == 0 {
      return INVALID_ARGUMENT;
    }
    if p.classes == [] {
      return INVALID_ARGUMENT;
    }
    var i := 0;
    while i < |p.classes|
      invariant 0 <= i <= |p.classes|
      invariant FirstSpecError(p.classes) == FirstSpecError(p.classes[i..])
    {
      assert p.classes[i..][0] == p.classes[i] && p.classes[i..][1..] == p.classes[i + 1..];
      if SpecError(p.classes[i]) != OK {
        return SpecError(p.classes[i]);
      }
      i := i + 1;
    }
    var clash := FindClash(p.classes);
    if clash {
      return CONFLICT;
    }
    if p.phaseMap[0] != BestEffort {
      return CONSERVATIVE_UNKNOWN_PHASE;
    }
    i := 0;
    while i < PHASE_CLASSES
      invariant 0 <= i <= PHASE_CLASSES
      invariant forall k :: 0 <= k < i ==> !Unserved(p, p.phaseMap[k])
    {
      if p.phaseMap[i] == UnknownService || Find(p.classes, p.phaseMap[i]).None? {
        assert Unserved(p, p.phaseMap[i]);
        return INVALID_ARGUMENT;
      }
      i := i + 1;
    }
    return LimitsError(p);
  }

  method FindClash(classes: seq<ClassSpec>) returns (clash: bool)
    ensures clash == Clashes(classes)
  {
    var i := 0;
    while i < |classes|
      invariant 0 <= i <= |classes|
      invariant forall a, b :: 0 <= a < b < |classes| && a < i ==> !Clash(classes[a], classes[b])
    {
      var j := i + 1;
      while j < |classes|
        invariant i < j <= |classes|
        invariant forall b :: i < b < j ==> !Clash(classes[i], classes[b])
      {
        if classes[i].priority == classes[j].priority || classes[i].cls == classes[j].cls {
          assert Clash(classes[i], classes[j]);
          return true;
        }
        j := j + 1;
      }
      i := i + 1;
    }
    return false;
  }

  /** A valid policy gives every phase class a configured service class, Unknown only best effort. */
  lemma PhasesAreServed(p: Policy, c: PhaseClass)
    requires ValidPolicy(p)
    ensures Find(p.classes, ClassForPhase(p, c)).Some?
    ensures ClassForPhase(p, UnknownPhase) == BestEffort
  {
    assert p.phaseMap[PhaseIndex(c)] in p.phaseMap;
  }

  /** The built-in service classes, most urgent first. */
  const DEFAULT_CLASSES: seq<ClassSpec> := [
    ClassSpec(ControlService, 0, 4, 0, 0, 0, false, true, false),
    ClassSpec(BarrierService, 1, 8, 0, 0, 0, false, true, false),
    ClassSpec(RecoveryService, 2, 8, 0, 0, 0, false, true, true),
    ClassSpec(GradientService, 3, 16, 0, 0, 0, false, false, true),
    ClassSpec(ParameterService, 4, 16, 0, 0, 0, false, false, true),
    ClassSpec(CheckpointService, 5, 8, 0, 0, MAX_RATE_BPS, true, false, false),
    ClassSpec(ActivationService, 6, 12, 0, 0, 0, true, false, true),
    ClassSpec(PipelineService, 7, 12, 0, 0, 0, true, false, true),
    ClassSpec(IngestService, 8, 4, 0, 0, 0, true, false, true),
    ClassSpec(BestEffort, 9, 1, 0, 0, 0, true, false, true)]

  const DEFAULT_PHASE_MAP: seq<ServiceClass> := [
    BestEffort, ActivationService, ActivationService, GradientService, ParameterService, PipelineService, IngestService,
    CheckpointService, RecoveryService, ControlService]

  /** The policy a fabric is born with. */
  function DefaultPolicy(generation: nat): Policy {
    Policy(generation, DEFAULT_PHASE_MAP, DEFAULT_CLASSES, 1_000_000_000, 2, true, true, 4096, 32, 8, 4)
  }

  lemma DefaultClassAt(i: nat)
    requires i < |DEFAULT_CLASSES|
    ensures DEFAULT_CLASSES[i].priority == i && SpecError(DEFAULT_CLASSES[i]) == OK
    ensures DEFAULT_CLASSES[i].cls != UnknownService
  {}

  /** Under any generation but zero the built-in policy passes its own validation, and its best-effort
      class is the least urgent: nothing in an Unknown phase ever displaces a flow. */
  lemma DefaultPolicyIsValid(generation: nat)
    ensures ValidPolicy(DefaultPolicy(generation)) <==> generation != 0
    ensures forall s :: s in DEFAULT_CLASSES && s.cls != BestEffort ==> s.priority < 9
  {
    var classes := DEFAULT_CLASSES;
    forall i | 0 <= i < |classes| ensures classes[i].priority == i && SpecError(classes[i]) == OK {
      DefaultClassAt(i);
    }
    forall i, j | 0 <= i < j < |classes| ensures !Clash(classes[i], classes[j]) {
      DefaultClassesDiffer(i, j);
    }
    forall c | c in DEFAULT_PHASE_MAP ensures c != UnknownService && Find(classes, c).Some? {
      DefaultIsServed(c);
    }
  }

  lemma DefaultClassesDiffer(i: nat, j: nat)
    requires i < j < |DEFAULT_CLASSES|
    ensures !Clash(DEFAULT_CLASSES[i], DEFAULT_CLASSES[j])
  {}

  lemma DefaultIsServed(c: ServiceClass)
    requires c != UnknownService
    ensures Find(DEFAULT_CLASSES, c).Some?
  {
    hide Find;
    var s := DEFAULT_CLASSES;
    assert s[0].cls == ControlService && s[1].cls == BarrierService && s[2].cls == RecoveryService
        && s[3].cls == GradientService && s[4].cls == ParameterService && s[5].cls == CheckpointService
        && s[6].cls == ActivationService && s[7].cls == PipelineService && s[8].cls == IngestService
        && s[9].cls == BestEffort;
  }

  // ---------------------------------------------------------------------------
  // Contract and groups
  // ---------------------------------------------------------------------------

  function ContractError(c: Contract): ErrorCode {
    if TextError(c.name, MAX_STRING_BYTES) != OK then TextError(c.name, MAX_STRING_BYTES)
    else if c.maxGroups == 0 || c.maxGroups > 0x1_0000 then OUT_OF_RANGE
    else if c.maxPhases == 0 || c.maxPhases > 0x1_0000 then OUT_OF_RANGE
    else if c.maxIntents == 0 || c.maxIntents > 0x100_0000 then OUT_OF_RANGE
    else if c.maxActiveFlows == 0 || c.maxActiveFlows > 0x100_0000 then OUT_OF_RANGE
    else if c.maxBytesPerStep == 0 || c.maxBytesPerStep > 0x1000_0000_0000_0000 then OUT_OF_RANGE
    else if c.maxBytesPerIntent == 0 || c.maxBytesPerIntent > c.maxBytesPerStep then OUT_OF_RANGE
    else if c.historySteps == 0 || c.historySteps > 1024 then OUT_OF_RANGE
    else OK
  }

  function GroupError(g: Group): ErrorCode {
    if g.id == 0 then INVALID_ARGUMENT
    else if g.members == 0 then INVALID_ARGUMENT
    else if g.members > 0x40_0000 then OUT_OF_RANGE
    else TextError(g.name, MAX_STRING_BYTES)
  }

  // ---------------------------------------------------------------------------
  // Capacity evidence
  // ---------------------------------------------------------------------------

  function LinkError(l: Link): ErrorCode {
    if l.group == 0 then INVALID_ARGUMENT
    else if l.capacity > MAX_RATE_BPS then OUT_OF_RANGE
    else if l.reserved > l.capacity then INVALID_ARGUMENT
    else TextError(l.source, MAX_STRING_BYTES)
  }

  /** Valid links in strictly ascending group order. */
  ghost predicate ValidLinks(links: seq<Link>) {
    && |links| <= MAX_COLLECTION_ITEMS
    && (forall l :: l in links ==> LinkError(l) == OK)
    && LinksAscend(links)
  }

  ghost predicate LinksAscend(links: seq<Link>) {
    forall i, j :: 0 <= i < j < |links| ==> links[i].group < links[j].group
  }

  /** The first failing check over the links that follow the group `previous`. */
  function FirstLinkError(previous: nat, links: seq<Link>): ErrorCode
    decreases |links|
  {
    if links == [] then OK
    else if LinkError(links[0]) != OK then LinkError(links[0])
    else if previous >= links[0].group then CONFLICT
    else FirstLinkError(links[0].group, links[1..])
  }

  function LinksError(links: seq<Link>): ErrorCode {
    if |links| > MAX_COLLECTION_ITEMS then TOO_LARGE else FirstLinkError(0, links)
  }

  lemma {:induction false} FirstLinkErrorIff(previous: nat, links: seq<Link>)
    ensures FirstLinkError(previous, links) == OK <==>
      && (forall l :: l in links ==> LinkError(l) == OK && previous < l.group)
      && LinksAscend(links)
    decreases |links|
  {
    if links != [] {
      var rest := links[1..];
      FirstLinkErrorIff(links[0].group, rest);
      assert forall l :: l in links <==> l == links[0] || l in rest;
      if LinksAscend(links) {
        assert forall l :: l in rest ==> links[0].group < l.group;
        assert LinksAscend(rest);
      }
    }
  }

  lemma LinksErrorIff(links: seq<Link>)
    ensures LinksError(links) == OK <==> ValidLinks(links)
  {
    FirstLinkErrorIff(0, links);
  }

  method ValidateLinks(links: seq<Link>) returns (error: ErrorCode)
    ensures error == LinksError(links)
  {
    if |links| > MAX_COLLECTION_ITEMS {
      return TOO_LARGE;
    }
    var i := 0;
    while i < |links|
      invariant 0 <= i <= |links|
      invariant i > 0 ==> links[i - 1].group > 0
      invariant LinksError(links) == FirstLinkError(if i == 0 then 0 else links[i - 1].group, links[i..])
    {
      assert links[i..][0] == links[i] && links[i..][1..] == links[i + 1..];
      if LinkError(links[i]) != OK {
        return LinkError(links[i]);
      }
      if i > 0 && links[i - 1].group >= links[i].group {
        return CONFLICT;
      }
      i := i + 1;
    }
    return OK;
  }

  /** The link evidence of a group. */
  function FindLink(links: seq<Link>, group: nat): (r: Option<Link>)
    ensures r.Some? ==> r.value in links && r.value.group == group
    ensures r.None? ==> forall l :: l in links ==> l.group != group
    decreases |links|
  {
    if links == [] then None
    else if links[0].group == group then Some(links[0])
    else FindLink(links[1..], group)
  }

  /** In ascending links the evidence found is the only evidence of its group. */
  lemma LinkIsUnique(links: seq<Link>, l: Link)
    requires LinksAscend(links) && l in links
    ensures FindLink(links, l.group) == Some(l)
  {
    var found := FindLink(links, l.group).value;
    var i :| 0 <= i < |links| && links[i] == l;
    var j :| 0 <= j < |links| && links[j] == found;
    assert i == j;
  }

  /** The program's binary search. */
  method LowerBound(links: seq<Link>, group: nat) returns (r: Option<Link>)
    requires LinksAscend(links)
    ensures r == FindLink(links, group)
  {
    var lo, hi := 0, |links|;
    while lo < hi
      invariant 0 <= lo <= hi <= |links|
      invariant forall k :: 0 <= k < lo ==> links[k].group < group
      invariant forall k :: hi <= k < |links| ==> links[k].group >= group
    {
      var mid := (lo + hi) / 2;
      if links[mid].group < group {
        lo := mid + 1;
      } else {
        hi := mid;
      }
    }
    if lo == |links| || links[lo].group != group {
      return None;
    }
    LinkIsUnique(links, links[lo]);
    return Some(links[lo]);
  }
}
