/** A run of the program's own calls in which the byte counters of a step wrap: what `Bounded` excludes. */
module Wraps {
  import opened Results
  import Utf8
  import opened Codec
  import opened Model
  import opened Policies
  import opened Order
  import opened Arbitration
  import opened Traffic
  import opened Authorities
  import opened Operations
  import opened Invariants
  import opened Requests
  import opened Jobs
  import opened Records
  import opened Runs
  import opened Laws
  import opened Safety
  import opened Witnesses

  // ---------------------------------------------------------------------------
  // Seventeen flows, the first of which estimates five bytes and the others none
  // ---------------------------------------------------------------------------

  function Expected(k: nat): nat {
    if k == 1 then 5 else 0
  }

  function Ask(k: nat): Intent {
    Asking(1, 0, 1).(bytesEstimate := Expected(k))
  }

  /** The holder of the authority, whatever was charged to the group and retained. */
  ghost predicate Holds(job: Job) {
    && Fresh(job.(load := Load(map[1 := 0], map[1 := 0]), ledger := NO_LEDGER), 1)
    && job.step.Some? && job.step.value.id == 1 && job.step.value.incarnation == 1
  }

  ghost predicate Live(flows: map<nat, Flow>) {
    forall k :: k in flows ==> flows[k].intent == k && flows[k].phase == 1 && flows[k].bytesEstimate == Expected(k)
  }

  /** The first `n` requests were admitted. */
  ghost predicate Loaded(job: Job, n: nat) {
    && Holds(job) && job.topology.links == LINKS && Get(job.load.bps, 1) == 0 && job.ids.intent == n + 1
    && var s := job.step.value;
      && s.intentsSeen == n && s.burst == None && 1 in s.phases && s.phases[1].spec == SPEC && s.phases[1].Active()
      && |s.flows| == n && (forall k :: k in s.flows <==> 1 <= k <= n) && Live(s.flows)
      && s.acc.bytesCommitted == (if n == 0 then 0 else 5) && s.acc.bytesCompleted == 0 && s.acc.bytesCancelled == 0
  }

  lemma PreparedIsLoaded(job: Job)
    requires Prepared(job)
    ensures Loaded(job, 0)
  {}

  lemma DefaultRates()
    ensures var p := DefaultPolicy(1); ValidPolicy(p) && BestEffortSpec(p).floor == 0 && BestEffortSpec(p).ceiling == 0
  {
    hide ValidPolicy;
    DefaultPolicyIsValid(1);
    DefaultBestEffort(DefaultPolicy(1));
  }

  lemma GrantsNothing(env: Env, job: Job, n: nat)
    requires Loaded(job, n) && n < 17 && env.policy == DefaultPolicy(1)
    ensures var j := Judge(env, job, Ask(n + 1)); j.Allowed? && j.victims == [] && j.minBps == 0
  {
    hide Find, EffectivePriority, Live, Fresh, DefaultPolicy, JudgeRate, ValidPolicy;
    DefaultRates();
    PhasesAreServed(env.policy, UnknownPhase);
    HoldsContract(job);
    RatesNothing(env, job, n, BestEffortSpec(env.policy), EffectivePriority(env.policy, BestEffort, false));
  }

  lemma RatesNothing(env: Env, job: Job, n: nat, spec: ClassSpec, priority: nat)
    requires Loaded(job, n) && n < 17 && env.policy == DefaultPolicy(1) && spec.floor == 0 && spec.ceiling == 0
    ensures var j := JudgeRate(env, job, Ask(n + 1), spec, true, priority, false);
      j.Allowed? && j.victims == [] && j.minBps == 0
  {
    hide FindLink, Ranking, Candidates, Live, Fresh;
    LinkOfGroup(1);
    HoldsContract(job);
    assert Victims(job.step.value.flows, [], MAX_RATE_BPS, 0) == [];
  }

  lemma HoldsContract(job: Job)
    requires Holds(job)
    ensures job.contract == CONTRACT
  {}

  lemma LoadsOne(env: Env, job: Job, n: nat)
    requires Loaded(job, n) && n < 17 && env.policy == DefaultPolicy(1)
    ensures Loaded(DoRequest(env, job, Ask(n + 1)).job, n + 1)
  {
    hide Judge, JobVerdict, Push, Live;
    var i := Ask(n + 1);
    assert Utf8.TextError([], MAX_STRING_BYTES) == OK;
    AcceptsIff(env.policy, job, i.token, NeedPhase);
    GrantsNothing(env, job, n);
    var f := FlowFor(env, job, i, Judge(env, job, i));
    var r := DoRequest(env, job, i).job;
    assert r.step.value.flows == job.step.value.flows[n + 1 := f];
    LiveWith(job.step.value.flows, f);
  }

  lemma LiveWith(flows: map<nat, Flow>, f: Flow)
    requires Live(flows) && f.phase == 1 && f.bytesEstimate == Expected(f.intent)
    ensures Live(flows[f.intent := f])
  {}

  // ---------------------------------------------------------------------------
  // Their completions
  // ---------------------------------------------------------------------------

  /** The flows after the first `m` of the later ones are done, and what the step has counted. */
  ghost predicate Drained(job: Job, m: nat, committed: nat, completed: nat) {
    && Holds(job)
    && var s := job.step.value;
      && (forall k :: k in s.flows <==> k == 1 || m + 2 <= k <= 17) && Live(s.flows)
      && s.acc.bytesCommitted == committed && s.acc.bytesCompleted == completed && s.acc.bytesCancelled == 0
  }

  lemma LoadedIsDrained(job: Job)
    requires Loaded(job, 17)
    ensures Drained(job, 0, 5, 0)
  {}

  lemma DrainsOne(env: Env, job: Job, m: nat, committed: nat, completed: nat, bytes: nat)
    requires Drained(job, m, committed, completed) && m < 16 && bytes <= MOST_BYTES
    ensures Drained(DoComplete(env, job, Holder(1, 1, 0), m + 2, bytes, false).job, m + 1,
                    Add64(committed, bytes), Add64(completed, bytes))
  {
    hide JobVerdict, Push, Live, SettlePhase, Fewer, Add64;
    AcceptsIff(env.policy, job, Holder(1, 1, 0), NeedStep);
    var flows := job.step.value.flows;
    LiveAt(flows, m + 2);
    LiveWithout(flows, m + 2);
  }

  lemma LiveAt(flows: map<nat, Flow>, k: nat)
    requires Live(flows) && k in flows
    ensures flows[k].intent == k && flows[k].bytesEstimate == Expected(k)
  {}

  lemma LiveWithout(flows: map<nat, Flow>, k: nat)
    requires Live(flows)
    ensures Live(flows - {k})
  {}

  /** Cancelling the flow that estimated five bytes takes them from a counter that holds two. */
  lemma EndsShort(env: Env, job: Job, completed: nat)
    requires Drained(job, 16, 2, completed) && completed > 0
    ensures var e := DoEndStep(env, job, Holder(1, 1, 0), StepCompleted);
      && e.reply.StepReport?
      && var a := e.reply.report.acc; a.bytesCommitted == 0 && a.bytesCompleted == completed && a.bytesCancelled == 0
  {
    hide JobVerdict, Push, Live, SettlePhase, Fewer, Summaries, ClosePhases, SortedIds;
    AcceptsIff(env.policy, job, Holder(1, 1, 0), NeedStep);
    var flows := job.step.value.flows;
    assert flows.Keys == {1};
    assert forall k :: k in [1] <==> k in flows.Keys;
    AscendingIsSorted([1], flows.Keys);
    LiveAt(flows, 1);
    assert [1][1..] == [];
    var one := CancelOne(env, job, 1, CANCELLED, Some(Reject));
    assert CancelEach(env, job, [1], CANCELLED, Some(Reject)) == CancelEach(env, one, [], CANCELLED, Some(Reject)) == one;
  }

  // ---------------------------------------------------------------------------
  // The run
  // ---------------------------------------------------------------------------

  lemma LoadsAll(w: World, before: seq<Call>, prepared: Job) returns (calls: seq<Call>, job: Job)
    requires At(w, before, prepared) && Loaded(prepared, 0) && w.state.policy == DefaultPolicy(1)
    ensures At(w, calls, job) && Loaded(job, 17)
  {
    hide At, Loaded, RunFrom, DoRequest, DefaultPolicy;
    calls, job := before, prepared;
    for n := 0 to 17
      invariant At(w, calls, job) && Loaded(job, n)
    {
      EnvAt(w, calls, job);
      LoadsOne(EnvOf(Tick(RunFrom(w, calls).state)), job, n);
      calls, job := Next(w, calls, job, Request(Ask(n + 1)));
    }
  }

  lemma DrainsAll(w: World, before: seq<Call>, loaded: Job) returns (calls: seq<Call>, job: Job)
    requires At(w, before, loaded) && Drained(loaded, 0, 5, 0)
    ensures At(w, calls, job) && Drained(job, 16, 2, U64_LIMIT - 3)
  {
    hide At, Drained, RunFrom, DoComplete;
    calls, job := before, loaded;
    for m := 0 to 15
      invariant At(w, calls, job) && Drained(job, m, 5 + m * MOST_BYTES, m * MOST_BYTES)
    {
      DrainsOne(EnvOf(Tick(RunFrom(w, calls).state)), job, m, 5 + m * MOST_BYTES, m * MOST_BYTES, MOST_BYTES);
      calls, job := Next(w, calls, job, Complete(Holder(1, 1, 0), m + 2, MOST_BYTES, false));
    }
    DrainsOne(EnvOf(Tick(RunFrom(w, calls).state)), job, 15, 5 + 15 * MOST_BYTES, 15 * MOST_BYTES, MOST_BYTES - 3);
    calls, job := Next(w, calls, job, Complete(Holder(1, 1, 0), 17, MOST_BYTES - 3, false));
  }

  /** Under the built-in policy and a contract that is accepted but not bounded, a run ends a step whose
      report does not balance, so that no snapshot that retains it can be read back. */
  lemma CountersWrap(config: Config, now: nat) returns (calls: seq<Call>, job: Job)
    requires config.maxJobs > 0
    ensures var w := Born(config, now, DefaultPolicy(1)); Starts(w) && Reaches(w, calls, 1, job) && !Bounded(job.contract)
    ensures var env := EnvOf(Tick(RunFrom(Born(config, now, DefaultPolicy(1)), calls).state));
      var e := DoEndStep(env, job, Holder(1, 1, 0), StepCompleted);
      e.reply.StepReport? && !Balanced(e.reply.report.acc) && !Settled(e.reply.report.acc)
  {
    hide At, Loaded, Drained, RunFrom, Prepared, Reaches, Starts, DoEndStep, DefaultPolicy;
    var w := Born(config, now, DefaultPolicy(1));
    FreshStart(config, now);
    var before, prepared := Prepare(w);
    PreparedIsLoaded(prepared);
    calls, job := LoadsAll(w, before, prepared);
    LoadedIsDrained(job);
    calls, job := DrainsAll(w, calls, job);
    ReachesAt(w, calls, job);
    EndsShort(EnvOf(Tick(RunFrom(w, calls).state)), job, U64_LIMIT - 3);
    DrainedContract(job);
  }

  lemma FreshStart(config: Config, now: nat)
    ensures Starts(Born(config, now, DefaultPolicy(1)))
  {
    hide ValidPolicy;
    DefaultPolicyIsValid(1);
  }

  lemma DrainedContract(job: Job)
    requires Drained(job, 16, 2, U64_LIMIT - 3)
    ensures job.contract == CONTRACT && !Bounded(job.contract)
  {
    hide Live, Fresh;
    HoldsContract(job);
  }
}
