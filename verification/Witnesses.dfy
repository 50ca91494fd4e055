/** Runs of the program's own calls that reach the inputs on which it gives less than it promises. */
module Witnesses {
  import opened Results
  import opened Utf8
  import opened Codec
  import opened Model
  import opened Policies
  import opened Order
  import opened Arbitration
  import opened Traffic
  import opened Authorities
  import opened Operations
  import opened Invariants
  import opened Requests
  import opened Jobs
  import opened Runs
  import opened Laws
  import opened Safety

  // ---------------------------------------------------------------------------
  // A job with an open Unknown phase, and evidence for one registered group and one that is not
  // ---------------------------------------------------------------------------

  const MOST_BYTES := 0x1000_0000_0000_0000
  const CONTRACT := Contract(1, [], 4, 4, 32, 32, MOST_BYTES, MOST_BYTES, 1, true)
  const REGISTRATION := Registration(1, [], Boot(1, 1), CONTRACT, 1, 1)
  const GROUP := Group(1, Data, 1, [])
  const STRANGER := Group(2, Data, 1, [])
  const LINKS := [Link(1, MAX_RATE_BPS, 0, Real, []), Link(2, MAX_RATE_BPS, 0, Real, [])]
  const SPEC := PhaseSpec(UnknownPhase, 1, SoftCriticality, 0, 0, [])

  function Holder(topology: nat, step: nat, phase: nat): Token {
    Token(1, 1, 1, Boot(1, 1), 1, 1, topology, 0, step, phase, 0)
  }

  function Asking(group: nat, minBps: nat, maxBps: nat): Intent {
    Intent(Holder(1, 1, 1), group, UnknownPhase, [], minBps, maxBps, 0, 1, false)
  }

  /** The job is the only one, after permitted calls, and its policy has not changed. */
  ghost predicate At(w: World, calls: seq<Call>, job: Job) {
    && WorldOk(w) && Legal(w, calls)
    && RunFrom(w, calls).state.jobs == map[1 := job]
    && RunFrom(w, calls).state.policy == w.state.policy
    && Untorn(w, calls, 1)
  }

  /** One more permitted call on the job. */
  lemma Next(w: World, calls: seq<Call>, job: Job, op: JobOp) returns (longer: seq<Call>, next: Job)
    requires At(w, calls, job) && TargetOf(op) == 1 && (op.RegisterGroup? ==> LiveFlows(job) == map[])
    ensures At(w, longer, next) && longer == calls + [OnJob(op)]
    ensures next == Perform(EnvOf(Tick(RunFrom(w, calls).state)), job, op).job
  {
    hide WorldOk, RunFrom, Legal, Perform;
    RunKeeps(w, calls);
    var v := RunFrom(w, calls);
    longer := calls + [OnJob(op)];
    next := Perform(EnvOf(Tick(v.state)), job, op).job;
    RunOneMore(w, calls, OnJob(op));
    AfterKeeps(v, OnJob(op));
    assert map[1 := job][1 := next] == map[1 := next];
  }

  /** What the fields of a job that was just registered say of its authority. */
  ghost predicate Fresh(job: Job, topology: nat) {
    && job.generation == 1 && job.contract == CONTRACT && job.incarnation == 1 && job.boot == Boot(1, 1) && job.epoch == 1
    && !job.retired && job.retiredSet == {} && job.topology.generation == topology && job.ledger == NO_LEDGER
    && job.load.bps == map[1 := 0] && job.load.flows == map[1 := 0] && job.groups == map[1 := GROUP]
    && job.highestStep <= 1
  }

  ghost predicate Published(job: Job) {
    Fresh(job, 1) && job.topology.links == LINKS && job.ids.phase == 1 && job.ids.intent == 1
  }

  /** An Unknown phase is open and nothing flows. */
  ghost predicate Prepared(job: Job) {
    && Published(job.(ids := job.ids.(phase := 1)))
    && job.step.Some?
    && var s := job.step.value;
      && s.id == 1 && s.incarnation == 1 && s.flows == map[] && s.intentsSeen == 0 && s.acc == NO_STEP_ACC
      && s.burst == None && 1 in s.phases && s.phases[1].spec == SPEC && s.phases[1].Active()
  }

  lemma ConstantsAreValid()
    ensures ContractError(CONTRACT) == OK && GroupError(GROUP) == OK && GroupError(STRANGER) == OK
    ensures PhaseSpecError(SPEC) == OK && LinksError(LINKS) == OK
  {
    assert TextError([], MAX_STRING_BYTES) == OK;
    assert LINKS[1..] == [LINKS[1]] && [LINKS[1]][1..] == [];
    assert FirstLinkError(2, []) == OK;
    assert FirstLinkError(1, [LINKS[1]]) == OK;
  }

  lemma Registers(w: World) returns (calls: seq<Call>, job: Job)
    requires Starts(w) && w.state.config.maxJobs > 0
    ensures At(w, calls, job) && job == NewJob(1, REGISTRATION)
  {
    hide ContractError;
    var call := Register(REGISTRATION);
    calls, job := [call], NewJob(1, REGISTRATION);
    StartIsOk(w);
    ConstantsAreValid();
    assert TextError([], MAX_STRING_BYTES) == OK;
    assert ContractFor(REGISTRATION) == CONTRACT;
    assert [call][1..] == [];
    assert Legal(After(w, call), []) && RunFrom(After(w, call), []) == After(w, call);
    assert RunFrom(w, [call]) == After(w, call);
  }

  lemma RegistersGroup(env: Env, job: Job)
    requires job == NewJob(1, REGISTRATION)
    ensures DoRegisterGroup(env, job, Holder(0, 0, 0), GROUP).reply == Done
    ensures var r := DoRegisterGroup(env, job, Holder(0, 0, 0), GROUP).job;
      r == AddGroup(job, GROUP) && Fresh(r, 0) && r.step.None? && r.ids == Allocators(1, 1, 1, 2, 1) && r.highestStep == 0
  {
    hide GroupError, JobVerdict;
    ConstantsAreValid();
    AcceptsIff(env.policy, job, Holder(0, 0, 0), NeedJob);
  }

  lemma Publishes(env: Env, job: Job)
    requires Fresh(job, 0) && job.step.None? && job.ids == Allocators(1, 1, 1, 2, 1) && job.highestStep == 0
    ensures DoPublish(env, job, Holder(0, 0, 0), Real, LINKS).reply == Number(1)
    ensures var r := DoPublish(env, job, Holder(0, 0, 0), Real, LINKS).job;
      && r == job.(topology := Topology(1, Real, LINKS), ids := Allocators(1, 1, 1, 2, 2))
      && Published(r) && r.step.None? && r.highestStep == 0
  {
    hide JobVerdict, FirstLinkError;
    ConstantsAreValid();
    AcceptsIff(env.policy, job, Holder(0, 0, 0), NeedJob);
  }

  lemma Begins(env: Env, job: Job)
    requires Published(job) && job.step.None? && job.highestStep == 0
    ensures var r := DoBeginStep(env, job, Holder(1, 0, 0), 1, 0, 0).job;
      && Published(r) && r.step == Some(NewStep(env, job, 1, 0, 0))
  {
    hide JobVerdict;
    AcceptsIff(env.policy, job, Holder(1, 0, 0), NeedJob);
  }

  lemma Opens(env: Env, before: Env, base: Job, job: Job)
    requires Published(job) && base.generation == 1 && base.incarnation == 1
    requires job.step == Some(NewStep(before, base, 1, 0, 0))
    ensures Prepared(DoBeginPhase(env, job, Holder(1, 1, 0), SPEC).job)
  {
    hide JobVerdict, PhaseSpecError;
    ConstantsAreValid();
    AcceptsIff(env.policy, job, Holder(1, 1, 0), NeedStep);
  }

  /** Five calls on a fresh fabric, under any policy, prepare the job. */
  lemma Prepare(w: World) returns (calls: seq<Call>, job: Job)
    requires Starts(w) && w.state.config.maxJobs > 0
    ensures At(w, calls, job) && Prepared(job)
  {
    hide At, RunFrom, Fresh, Published, Prepared, DoRegisterGroup, DoPublish, DoBeginStep, DoBeginPhase, NewStep;
    calls, job := Registers(w);
    RegistersGroup(EnvOf(Tick(RunFrom(w, calls).state)), job);
    calls, job := Next(w, calls, job, RegisterGroup(Holder(0, 0, 0), GROUP));
    Publishes(EnvOf(Tick(RunFrom(w, calls).state)), job);
    calls, job := Next(w, calls, job, Publish(Holder(0, 0, 0), Real, LINKS));
    var base, env := job, EnvOf(Tick(RunFrom(w, calls).state));
    Begins(env, job);
    calls, job := Next(w, calls, job, BeginStep(Holder(1, 0, 0), 1, 0, 0));
    PublishedFields(base);
    Opens(EnvOf(Tick(RunFrom(w, calls).state)), env, base, job);
    calls, job := Next(w, calls, job, BeginPhase(Holder(1, 1, 0), SPEC));
  }

  lemma PublishedFields(job: Job)
    requires Published(job)
    ensures job.generation == 1 && job.incarnation == 1
  {}

  // ---------------------------------------------------------------------------
  // A request in the open phase
  // ---------------------------------------------------------------------------

  /** The best-effort class of a policy. */
  function BestEffortSpec(p: Policy): ClassSpec
    requires ValidPolicy(p)
  {
    PhasesAreServed(p, UnknownPhase);
    Find(p.classes, BestEffort).value
  }

  lemma LinkOfGroup(group: nat)
    requires group == 1 || group == 2
    ensures FindLink(LINKS, group) == Some(Link(group, MAX_RATE_BPS, 0, Real, []))
  {
    assert LINKS[1..][0] == LINKS[1];
    assert FindLink(LINKS[1..], 2) == Some(LINKS[1]);
  }

  /** On an idle group with all its capacity free a request is granted what it asks, up to its ceiling. */
  lemma Grants(env: Env, job: Job, group: nat, minBps: nat, maxBps: nat)
    requires Prepared(job) && (group == 1 || group == 2) && EnvOk(env) && minBps <= maxBps <= MAX_RATE_BPS
    requires var spec := BestEffortSpec(env.policy);
      var ceiling := CeilingFor(env.policy, spec, true);
      && (ceiling != 0 ==> minBps <= ceiling)
      && Max(minBps, spec.floor) <= (if ceiling != 0 then Min(maxBps, ceiling) else maxBps)
    ensures var spec := BestEffortSpec(env.policy);
      var ceiling := CeilingFor(env.policy, spec, true);
      Judge(env, job, Asking(group, minBps, maxBps)) ==
        Allowed(BestEffort, EffectivePriority(env.policy, BestEffort, false), Max(minBps, spec.floor),
                if ceiling != 0 then Min(maxBps, ceiling) else maxBps, [], false)
  {
    hide Find, FindLink, EffectivePriority, Ranking, Candidates;
    PhasesAreServed(env.policy, UnknownPhase);
    LinkOfGroup(group);
    assert Victims(map[], [], MAX_RATE_BPS, Max(minBps, BestEffortSpec(env.policy).floor)) == [];
    assert LimitsError(env.policy) == OK;
  }

  lemma Decides(env: Env, job: Job, group: nat, minBps: nat, maxBps: nat)
    requires Prepared(job) && EnvOk(env) && minBps <= maxBps <= MAX_RATE_BPS && (group == 1 || group == 2)
    requires Judge(env, job, Asking(group, minBps, maxBps)).Allowed?
    requires Judge(env, job, Asking(group, minBps, maxBps)).victims == []
    ensures var i := Asking(group, minBps, maxBps);
      var e, j := DoRequest(env, job, i), Judge(env, job, i);
      && AdmitsUnknown(e) && e.reply.decision.maxBps == j.maxBps
      && e.job.step.Some? && LiveFlows(e.job) == map[1 := FlowFor(env, job, i, j)]
      && e.job.step.value.phases == job.step.value.phases && e.job.step.value.burst == None
      && e.job.step.value.id == 1 && e.job.step.value.incarnation == 1
      && e.job.groups == job.groups
      && Fresh(e.job.(load := job.load, ledger := NO_LEDGER), 1)
  {
    hide Judge, JobVerdict, Conclude, Push;
    var i := Asking(group, minBps, maxBps);
    assert TextError([], MAX_STRING_BYTES) == OK;
    AcceptsIff(env.policy, job, i.token, NeedPhase);
    AdmittedFlows(env, job, i);
    AdmittedRest(env, job, i);
  }

  lemma AdmittedRest(env: Env, job: Job, i: Intent)
    requires job.step.Some? && i.token.phase in job.step.value.phases
    requires Judge(env, job, i).Allowed? && Judge(env, job, i).victims == []
    ensures var e := Decide(env, job, i);
      && e.reply == Decided(DecisionFor(env, job, i, Judge(env, job, i)))
      && e.job == job.(load := e.job.load, step := e.job.step, ledger := e.job.ledger, ids := e.job.ids)
      && e.job.step.Some? && e.job.step.value.phases == job.step.value.phases
      && e.job.step.value.burst == job.step.value.burst
      && e.job.step.value.id == job.step.value.id && e.job.step.value.incarnation == job.step.value.incarnation
  {
    hide Judge, Push, CountPhase, CountStep;
  }

  lemma ReachesAt(w: World, calls: seq<Call>, job: Job)
    requires At(w, calls, job)
    ensures Reaches(w, calls, 1, job) && Untorn(w, calls, 1) && RunFrom(w, calls).state.policy == w.state.policy
  {
    hide WorldOk, Legal, RunFrom;
  }

  lemma EnvAt(w: World, calls: seq<Call>, job: Job)
    requires At(w, calls, job)
    ensures EnvOk(EnvOf(Tick(RunFrom(w, calls).state))) && EnvOf(Tick(RunFrom(w, calls).state)).policy == w.state.policy
  {
    hide WorldOk, Legal, RunFrom;
    RunKeeps(w, calls);
    EnvIsOk(RunFrom(w, calls));
  }

  // ---------------------------------------------------------------------------
  // The class ceiling of an Unknown phase
  // ---------------------------------------------------------------------------

  /** After these calls on a fresh fabric, under policy `p`, the intent is admitted in an Unknown phase at
      a rate above the bound. */
  ghost predicate Exceeds(w: World, calls: seq<Call>, k: nat, job: Job, i: Intent, p: Policy, bound: nat) {
    && Starts(w) && Reaches(w, calls, k, job) && RunFrom(w, calls).state.policy == p
    && var e := DoRequest(EnvOf(Tick(RunFrom(w, calls).state)), job, i);
      AdmitsUnknown(e) && e.reply.decision.maxBps > bound
  }

  ghost predicate AdmitsAbove(p: Policy, bound: nat) {
    exists w, calls, k, job, i :: Exceeds(w, calls, k, job, i, p, bound)
  }

  lemma NeverExceeds(w: World, calls: seq<Call>, k: nat, job: Job, i: Intent, p: Policy)
    requires ValidPolicy(p) && BestEffortSpec(p).ceiling != 0
    requires Exceeds(w, calls, k, job, i, p, BestEffortSpec(p).ceiling)
    ensures p.unknownCeiling == 0 && BestEffortSpec(p).ceiling < MAX_RATE_BPS
  {
    hide Starts, Reaches, RunFrom, DoRequest, Find, ValidPolicy;
    UnknownIsConservative(w, calls, k, job, i);
  }

  lemma ExceedsWithout(p: Policy)
    requires ValidPolicy(p) && p.isolationPriority <= 255 && p.unknownCeiling == 0
    requires 0 < BestEffortSpec(p).ceiling < MAX_RATE_BPS
    ensures AdmitsAbove(p, BestEffortSpec(p).ceiling)
  {
    hide At, RunFrom, Prepared, Judge, DoRequest, Reaches, EffectivePriority, AdmitsUnknown, Find, ValidPolicy, EnvOk;
    var w := World(State(Config(1, 1, 1, 1, 1), 0, p, map[], 1), map[]);
    var bound := BestEffortSpec(p).ceiling;
    var calls, job := Prepare(w);
    var env := EnvOf(Tick(RunFrom(w, calls).state));
    ReachesAt(w, calls, job);
    EnvAt(w, calls, job);
    FloorFits(p);
    Grants(env, job, 1, 0, bound + 1);
    Decides(env, job, 1, 0, bound + 1);
    assert Exceeds(w, calls, 1, job, Asking(1, 0, bound + 1), p, bound);
  }

  lemma FloorFits(p: Policy)
    requires ValidPolicy(p)
    ensures var spec := BestEffortSpec(p); spec.ceiling != 0 ==> spec.floor <= spec.ceiling
  {
    assert SpecError(BestEffortSpec(p)) == OK;
  }

  /** Some run admits an intent of an Unknown phase above its class ceiling exactly when the policy's
      unknown ceiling is zero, and the class ceiling is below the largest rate there is. */
  lemma UnknownCeilingIff(p: Policy)
    requires ValidPolicy(p) && p.isolationPriority <= 255 && BestEffortSpec(p).ceiling != 0
    ensures AdmitsAbove(p, BestEffortSpec(p).ceiling) <==>
      p.unknownCeiling == 0 && BestEffortSpec(p).ceiling < MAX_RATE_BPS
  {
    hide Exceeds, BestEffortSpec, ValidPolicy;
    if AdmitsAbove(p, BestEffortSpec(p).ceiling) {
      var w, calls, k, job, i :| Exceeds(w, calls, k, job, i, p, BestEffortSpec(p).ceiling);
      NeverExceeds(w, calls, k, job, i, p);
    }
    if p.unknownCeiling == 0 && BestEffortSpec(p).ceiling < MAX_RATE_BPS {
      ExceedsWithout(p);
    }
  }

  // ---------------------------------------------------------------------------
  // Registration and publication
  // ---------------------------------------------------------------------------

  function Born(config: Config, now: nat, p: Policy): World {
    World(State(config, now, p, map[], 1), map[])
  }

  /** One flow of the given rate is live on the given group, in the open Unknown phase. */
  ghost predicate Flowing(job: Job, p: Policy, group: nat, rate: nat) {
    && job.step.Some? && LiveFlows(job).Keys == {1} && job.groups == map[1 := GROUP]
    && Fresh(job.(load := Load(map[1 := 0], map[1 := 0]), ledger := NO_LEDGER), 1)
    && var f := LiveFlows(job)[1];
      && f.intent == 1 && f.group == group && f.minBps == rate && f.phase == 1 && f.cls == BestEffort
      && f.priority == EffectivePriority(p, BestEffort, false)
      && 1 in job.step.value.phases && job.step.value.phases[1].spec == SPEC && job.step.value.burst == None
      && job.step.value.id == 1 && job.step.value.incarnation == 1
  }

  /** A flow of the given rate on the given group of the prepared job. */
  lemma FlowsUnder(config: Config, now: nat, p: Policy, group: nat, rate: nat) returns (calls: seq<Call>, job: Job)
    requires config.maxJobs > 0 && (group == 1 || group == 2) && ValidPolicy(p) && p.isolationPriority <= 255
    requires BestEffortSpec(p).floor == 0 && BestEffortSpec(p).ceiling == 0 && rate <= p.unknownCeiling
    ensures Starts(Born(config, now, p)) && At(Born(config, now, p), calls, job) && Flowing(job, p, group, rate)
  {
    hide RunFrom, Legal, WorldOk, Prepared, Judge, DoRequest, EffectivePriority, AdmitsUnknown, Find, ValidPolicy,
         EnvOk, Fresh;
    var w := Born(config, now, p);
    var before, prepared := Prepare(w);
    var env := EnvOf(Tick(RunFrom(w, before).state));
    EnvAt(w, before, prepared);
    UnknownLimit(p);
    Grants(env, prepared, group, rate, rate);
    Decides(env, prepared, group, rate, rate);
    PreparedFields(prepared);
    calls, job := Next(w, before, prepared, Request(Asking(group, rate, rate)));
  }

  lemma UnknownLimit(p: Policy)
    requires ValidPolicy(p)
    ensures p.unknownCeiling <= MAX_RATE_BPS
  {}

  /** A flow of one bit per second on the given group, under the built-in policy. */
  lemma Flows(config: Config, now: nat, strict: bool, group: nat) returns (calls: seq<Call>, job: Job)
    requires config.maxJobs > 0 && (group == 1 || group == 2)
    ensures var p := DefaultPolicy(1).(strict := strict);
      Starts(Born(config, now, p)) && At(Born(config, now, p), calls, job) && Flowing(job, p, group, 1)
  {
    hide At, Flowing, ValidPolicy, Starts, Find;
    var p := DefaultPolicy(1).(strict := strict);
    RelaxedIsValid(strict);
    DefaultBestEffort(p);
    calls, job := FlowsUnder(config, now, p, group, 1);
  }

  lemma PreparedFields(job: Job)
    requires Prepared(job)
    ensures job.load == Load(map[1 := 0], map[1 := 0]) && job.groups == map[1 := GROUP]
    ensures job.step.Some? && 1 in job.step.value.phases && job.step.value.phases[1].spec == SPEC
    ensures job.step.value.id == 1 && job.step.value.incarnation == 1 && job.ids.intent == 1
  {}

  lemma RelaxedIsValid(strict: bool)
    ensures ValidPolicy(DefaultPolicy(1).(strict := strict))
  {
    hide Find;
    DefaultPolicyIsValid(1);
  }

  lemma DefaultBestEffort(p: Policy)
    requires ValidPolicy(p) && p.classes == DEFAULT_CLASSES
    ensures BestEffortSpec(p).floor == 0 && BestEffortSpec(p).ceiling == 0
  {
    hide Find, ValidPolicy;
    assert forall s :: s in DEFAULT_CLASSES ==> s.floor == 0 && s.ceiling == 0;
    PhasesAreServed(p, UnknownPhase);
  }

  /** A run of the program as configured: evidence for a group that is not registered, a flow on it, then
      its registration, after which the group's counters say nothing flows. */
  lemma RegistrationBreaks(config: Config, now: nat) returns (calls: seq<Call>, job: Job)
    requires config.maxJobs > 0
    ensures var w := Born(config, now, DefaultPolicy(1));
      && Starts(w) && Reaches(w, calls, 1, job)
      && var e := DoRegisterGroup(EnvOf(Tick(RunFrom(w, calls).state)), job, Holder(1, 0, 0), STRANGER);
        e.reply.Done? && !LoadOk(true, e.job.load, LiveFlows(e.job))
  {
    hide At, RunFrom, Reaches, LoadOk, JobVerdict, GroupError, EffectivePriority;
    calls, job := Flows(config, now, true, 2);
    var w := Born(config, now, DefaultPolicy(1));
    var v := RunFrom(w, calls);
    ReachesAt(w, calls, job);
    ConstantsAreValid();
    AcceptsIff(v.state.policy, job, Holder(1, 0, 0), NeedJob);
    RegistrationAgreesIff(w, calls, 1, job, Holder(1, 0, 0), STRANGER);
  }

  /** A run under the built-in policy without strict invalidation: a flow survives new evidence that leaves
      its group no capacity. */
  lemma PublicationOverfills(config: Config, now: nat) returns (calls: seq<Call>, job: Job, links: seq<Link>)
    requires config.maxJobs > 0
    ensures var w := Born(config, now, DefaultPolicy(1).(strict := false));
      && Starts(w) && Reaches(w, calls, 1, job)
      && Overfills(EnvOf(Tick(RunFrom(w, calls).state)), job, Holder(1, 0, 0), Real, links)
  {
    hide At, RunFrom, Reaches, JobVerdict, EffectivePriority, Overfills, Find;
    calls, job := Flows(config, now, false, 1);
    var p := DefaultPolicy(1).(strict := false);
    var w := Born(config, now, p);
    var v := RunFrom(w, calls);
    ReachesAt(w, calls, job);
    AcceptsIff(v.state.policy, job, Holder(1, 0, 0), NeedJob);
    RelaxedIsValid(false);
    DefaultBestEffort(p);
    PhasesAreServed(p, UnknownPhase);
    assert 1 in Survivors(p, job) && Survivors(p, job)[1].minBps > 0;
    OverfillIff(w, calls, 1, job, Holder(1, 0, 0), Real);
    links :| Overfills(EnvOf(Tick(v.state)), job, Holder(1, 0, 0), Real, links);
  }

  // ---------------------------------------------------------------------------
  // A policy that tolerates less
  // ---------------------------------------------------------------------------

  function SoftSpec(ceiling: nat): ClassSpec {
    ClassSpec(BestEffort, 9, 1, 0, 0, ceiling, true, false, true)
  }

  /** The built-in policy without strict invalidation, and best-effort flows held to a rate during bursts. */
  function Soft(generation: nat, ceiling: nat): Policy {
    DefaultPolicy(generation).(strict := false, classes := DEFAULT_CLASSES[9 := SoftSpec(ceiling)])
  }

  lemma SoftClassAt(ceiling: nat, i: nat)
    requires i < |DEFAULT_CLASSES|
    ensures var s := DEFAULT_CLASSES[9 := SoftSpec(ceiling)][i];
      s.cls == DEFAULT_CLASSES[i].cls && s.priority == DEFAULT_CLASSES[i].priority && SpecError(s) == OK
  {
    DefaultClassAt(i);
    assert DEFAULT_CLASSES[9] == SoftSpec(0);
  }

  lemma {:induction false} SameClassesFound(a: seq<ClassSpec>, b: seq<ClassSpec>, c: ServiceClass)
    requires |a| == |b| && forall i :: 0 <= i < |a| ==> a[i].cls == b[i].cls
    ensures Find(a, c).Some? <==> Find(b, c).Some?
    decreases |a|
  {
    if a != [] {
      SameClassesFound(a[1..], b[1..], c);
    }
  }

  /** A valid policy stays valid with other classes that pass the same checks. */
  lemma Reclassed(p: Policy, classes: seq<ClassSpec>)
    requires ValidPolicy(p) && |classes| == |p.classes|
    requires forall i :: 0 <= i < |classes| ==>
               && classes[i].cls == p.classes[i].cls && classes[i].priority == p.classes[i].priority
               && SpecError(classes[i]) == OK
    ensures ValidPolicy(p.(strict := false, classes := classes))
  {
    hide Find, SpecError;
    var q := p.(strict := false, classes := classes);
    forall c | c in q.phaseMap ensures c != UnknownService && Find(classes, c).Some? {
      SameClassesFound(classes, p.classes, c);
    }
  }

  lemma SoftIsValid(generation: nat, ceiling: nat)
    requires generation != 0
    ensures ValidPolicy(Soft(generation, ceiling))
    ensures Find(Soft(generation, ceiling).classes, BestEffort) == Some(SoftSpec(ceiling))
    ensures BestEffortSpec(Soft(generation, ceiling)) == SoftSpec(ceiling)
  {
    hide Find, SpecError, ValidPolicy;
    DefaultPolicyIsValid(generation);
    forall i | 0 <= i < |DEFAULT_CLASSES| {
      SoftClassAt(ceiling, i);
    }
    Reclassed(DefaultPolicy(generation), DEFAULT_CLASSES[9 := SoftSpec(ceiling)]);
    SoftFound(ceiling);
    PhasesAreServed(Soft(generation, ceiling), UnknownPhase);
  }

  lemma SoftFound(ceiling: nat)
    ensures Find(DEFAULT_CLASSES[9 := SoftSpec(ceiling)], BestEffort) == Some(SoftSpec(ceiling))
  {
    hide Find;
    var classes := DEFAULT_CLASSES[9 := SoftSpec(ceiling)];
    assert classes[9] in classes && classes[9].cls == BestEffort;
    assert forall i :: 0 <= i < 9 ==> classes[i] == DEFAULT_CLASSES[i] && classes[i].cls != BestEffort;
  }

  /** The flow after the burst has held it to the rate. */
  function Held(f: Flow, ceiling: nat): Flow {
    f.(minBps := ceiling, maxBps := Min(f.maxBps, ceiling), throttled := true)
  }

  lemma BurstHolds(env: Env, job: Job, ceiling: nat)
    requires Flowing(job, Soft(1, ceiling), 1, ceiling + 1) && ceiling > 0 && env.policy == Soft(1, ceiling)
    ensures var r := DoBeginBurst(env, job, Holder(1, 1, 0), 1, 0, 0, []).job;
      && r.step.Some? && r.step.value.flows == map[1 := Held(LiveFlows(job)[1], ceiling)]
      && Operations.Isolated(r.step.value, 1) && r.step.value.phases == job.step.value.phases
  {
    hide JobVerdict, EffectivePriority, Find, Lower, MarkThrottled;
    assert Utf8.TextError([], MAX_STRING_BYTES) == OK;
    AcceptsIff(env.policy, job, Holder(1, 1, 0), NeedStep);
    SoftIsValid(1, ceiling);
    var flows := job.step.value.flows;
    var ids := InGroup(flows, 1);
    assert forall k :: k in [1] <==> k in ids;
    AscendingIsSorted([1], ids);
    assert [1][1..] == [];
    var s := IsolateOne(env, Isolation(job, 0, 0), 1, job.ids.burst);
    assert IsolateEach(env, Isolation(job, 0, 0), [1], job.ids.burst) == IsolateEach(env, s, [], job.ids.burst) == s;
    assert s.job.step.value.flows == map[1 := Held(flows[1], ceiling)];
  }

  /** What was held to five is tolerated at five, and neither revalidated nor tolerated at three. */
  lemma HeldIsStranded(before: Job, job: Job)
    requires Flowing(before, Soft(1, 5), 1, 6) && job.step.Some? && Operations.Isolated(job.step.value, 1)
    requires job.step.value.flows == map[1 := Held(LiveFlows(before)[1], 5)]
    requires job.step.value.phases == before.step.value.phases
    ensures IsolationOk(Soft(1, 5).classes, job.step.value) && !StaysTolerated(Soft(2, 3), job)
    ensures 1 in LiveFlows(job) && LiveFlows(job)[1].throttled
  {
    hide Find;
    SoftIsValid(1, 5);
    SoftIsValid(2, 3);
    PhasesAreServed(Soft(2, 3), UnknownPhase);
    assert 1 in Survivors(Soft(2, 3), job);
  }

  lemma SoftFields(generation: nat, ceiling: nat)
    ensures var p := Soft(generation, ceiling);
      && p.generation == generation && p.isolationPriority <= 255 && p.unknownCeiling == 1_000_000_000
  {}

  /** A run under a policy that holds best-effort flows to a rate during bursts: a flow is held to it, and
      then a policy that tolerates less is accepted and leaves the flow on the burst's group. */
  lemma PolicyUnisolates(config: Config, now: nat) returns (calls: seq<Call>, job: Job)
    requires config.maxJobs > 0
    ensures var w := Born(config, now, Soft(1, 5)); Starts(w) && Reaches(w, calls, 1, job)
    ensures job.step.Some? && IsolationOk(Soft(1, 5).classes, job.step.value)
    ensures 1 in LiveFlows(job) && LiveFlows(job)[1].throttled
    ensures var e := Apply(RunFrom(Born(config, now, Soft(1, 5)), calls).state, SetPolicy(Soft(2, 3)));
      && e.reply == Number(2) && 1 in e.state.jobs && e.state.jobs[1].step.Some?
      && !IsolationOk(Soft(2, 3).classes, e.state.jobs[1].step.value)
  {
    hide At, RunFrom, Reaches, Flowing, EffectivePriority, Find, ValidPolicy, IsolationOk, Starts, DoBeginBurst,
         StaysTolerated, Soft, PolicyError, Invalidate;
    var p, q := Soft(1, 5), Soft(2, 3);
    var w := Born(config, now, p);
    SoftIsValid(1, 5);
    SoftIsValid(2, 3);
    PolicyErrorIff(q);
    SoftFields(1, 5);
    SoftFields(2, 3);
    var before, flowing := FlowsUnder(config, now, p, 1, 6);
    EnvAt(w, before, flowing);
    BurstHolds(EnvOf(Tick(RunFrom(w, before).state)), flowing, 5);
    calls, job := Next(w, before, flowing, BeginBurst(Holder(1, 1, 0), 1, 0, 0, []));
    FlowingStep(flowing, p, 6);
    ReachesAt(w, calls, job);
    HeldIsStranded(flowing, job);
    PolicyIsolationIff(w, calls, 1, job, q);
  }

  lemma FlowingStep(job: Job, p: Policy, rate: nat)
    requires Flowing(job, p, 1, rate)
    ensures job.step.Some? && 1 in LiveFlows(job)
  {}

  // ---------------------------------------------------------------------------
  // A rebase over mixed epochs
  // ---------------------------------------------------------------------------

  /** A second job, registered at a later epoch. */
  const LATER := REGISTRATION.(job := 2, epoch := 5)

  lemma RegistersAnother(config: Config, now: nat, p: Policy)
    requires config.maxJobs > 1
    ensures var s := State(config, now, p, map[1 := NewJob(1, REGISTRATION)], 2);
      && Permitted(s, Register(LATER))
      && Apply(s, Register(LATER)).state ==
           State(config, now + 1, p, map[1 := NewJob(1, REGISTRATION), 2 := NewJob(2, LATER)], 3)
  {
    hide ContractError;
    ConstantsAreValid();
    assert Utf8.TextError([], MAX_STRING_BYTES) == OK;
    assert ContractFor(LATER) == CONTRACT;
  }

  lemma RegistersFirst(config: Config, now: nat, p: Policy)
    requires config.maxJobs > 0
    ensures Permitted(Born(config, now, p).state, Register(REGISTRATION))
    ensures Apply(Born(config, now, p).state, Register(REGISTRATION)).state ==
      State(config, now + 1, p, map[1 := NewJob(1, REGISTRATION)], 2)
  {
    hide ContractError;
    ConstantsAreValid();
    assert Utf8.TextError([], MAX_STRING_BYTES) == OK;
    assert ContractFor(REGISTRATION) == CONTRACT;
  }

  lemma SplitsJobs(a: Job, b: Job)
    requires a.epoch == 1 && b.epoch == 5
    ensures RebaseEach(map[1 := a, 2 := b], [1, 2], 3) == Rebased(map[1 := a.(epoch := 3), 2 := b], false)
  {
    assert [1, 2][1..] == [2];
    var moved := map[1 := a, 2 := b][1 := a.(epoch := 3)];
    assert moved == map[1 := a.(epoch := 3), 2 := b];
    assert RebaseEach(moved, [2], 3) == Rebased(moved, false);
  }

  /** Two jobs are registered at epochs one and five; a rebase to three is refused, and the first job is
      then at epoch three. */
  lemma RebaseSplits(config: Config, now: nat, p: Policy)
    requires config.maxJobs > 1 && ValidPolicy(p) && p.isolationPriority <= 255
    ensures var w, calls := Born(config, now, p), [Register(REGISTRATION), Register(LATER)];
      && Starts(w) && Legal(w, calls)
      && var s := RunFrom(w, calls).state;
        && Walks([1, 2], s.jobs) && s.jobs[1].epoch == 1
        && var e := Apply(s, Rebase(3, [1, 2]));
          e.reply == Refused(CONFLICT) && 1 in e.state.jobs && e.state.jobs[1].epoch == 3
  {
    hide ValidPolicy, NewJob, ContractError;
    var w, calls := Born(config, now, p), [Register(REGISTRATION), Register(LATER)];
    RegistersFirst(config, now, p);
    RegistersAnother(config, now + 1, p);
    NewEpochs();
    var first := After(w, calls[0]);
    assert calls[1..] == [Register(LATER)] && calls[1..][1..] == [];
    var second := After(first, Register(LATER));
    assert Legal(second, []) && RunFrom(second, []) == second;
    assert Legal(first, calls[1..]) && RunFrom(first, calls[1..]) == second;
    SplitsJobs(NewJob(1, REGISTRATION), NewJob(2, LATER));
  }

  lemma NewEpochs()
    ensures NewJob(1, REGISTRATION).epoch == 1 && NewJob(2, LATER).epoch == 5
  {}
}
