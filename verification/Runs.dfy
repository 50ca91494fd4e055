/** The whole fabric as a state machine, and what holds after any sequence of calls. */
module Runs {
  import opened Bytes
  import opened Results
  import opened Utf8
  import opened Codec
  import opened Model
  import opened Policies
  import opened Sums
  import opened Arbitration
  import opened Operations
  import opened Invariants
  import opened Preservation
  import opened Steps
  import opened Requests
  import opened Jobs
  import opened Durable

  // ---------------------------------------------------------------------------
  // Calls
  // ---------------------------------------------------------------------------

  datatype Registration = Registration(
    job: nat, name: bytes, boot: Boot, contract: Contract, incarnation: nat, epoch: nat)

  /** One call on the fabric. A rebase carries the order in which the job table happened to be
      walked; `Restart` is a snapshot followed by its restoration. */
  datatype Call =
    | Register(registration: Registration)
    | SetPolicy(policy: Policy)
    | Rebase(epoch: nat, walk: seq<nat>)
    | OnJob(op: JobOp)
    | Restart

  datatype Applied = Applied(state: State, reply: Reply)

  function EnvOf(s: State): Env {
    Env(s.config, s.policy, s.now)
  }

  // ---------------------------------------------------------------------------
  // Registration
  // ---------------------------------------------------------------------------

  function JobIdFor(s: State, r: Registration): nat {
    if r.job == 0 then s.nextJob else r.job
  }

  function ContractFor(r: Registration): Contract {
    r.contract.(generation := 1, name := if r.contract.name == [] then r.name else r.contract.name)
  }

  function NewJob(id: nat, r: Registration): Job {
    var incarnation := if r.incarnation == 0 then 1 else r.incarnation;
    Job(id, r.name, 1, ContractFor(r), incarnation, r.boot, r.epoch, false, map[], [], Load(map[], map[]),
        Topology(0, Unsupported, []), [], {}, 0, 0, None, [], NO_LEDGER,
        Allocators(1, 1, 1, Add64(incarnation, 1), 1))
  }

  /** The checks made before an identifier is reserved. */
  function RegistrationError(s: State, r: Registration): ErrorCode {
    if |s.jobs| >= s.config.maxJobs then RESOURCE_EXHAUSTED
    else if TextError(r.name, MAX_STRING_BYTES) != OK then TextError(r.name, MAX_STRING_BYTES)
    else if !r.boot.Valid() then INVALID_ARGUMENT
    else if JobIdFor(s, r) in s.jobs then ALREADY_EXISTS
    else OK
  }

  /** The identifier is reserved even when the contract is then refused. */
  function Reserve(s: State, id: nat, r: Registration): Applied {
    var reserved := s.(nextJob := Max(s.nextJob, Add64(id, 1)));
    if id == 0 then Applied(reserved, Refused(INVALID_ARGUMENT))
    else if ContractError(ContractFor(r)) != OK then Applied(reserved, Refused(ContractError(ContractFor(r))))
    else Applied(reserved.(jobs := s.jobs[id := NewJob(id, r)]), Number(id))
  }

  function DoRegister(s: State, r: Registration): Applied {
    if RegistrationError(s, r) != OK then Applied(s, Refused(RegistrationError(s, r)))
    else Reserve(s, JobIdFor(s, r), r)
  }

  // ---------------------------------------------------------------------------
  // Policy and epoch
  // ---------------------------------------------------------------------------

  ghost function DoSetPolicy(s: State, p: Policy): Applied {
    if PolicyError(p) != OK then Applied(s, Refused(PolicyError(p)))
    else if p.generation <= s.policy.generation then Applied(s, Refused(CONFLICT))
    else
      var env := Env(s.config, p, s.now);
      Applied(s.(policy := p, jobs := map k | k in s.jobs :: Invalidate(env, s.jobs[k], POLICY_INVALIDATED)),
              Number(p.generation))
  }

  datatype Rebased = Rebased(jobs: map<nat, Job>, ok: bool)

  /** Walk the jobs until one is already at or past the epoch. */
  function RebaseEach(jobs: map<nat, Job>, walk: seq<nat>, epoch: nat): Rebased
    decreases |walk|
  {
    if walk == [] then Rebased(jobs, true)
    else if walk[0] !in jobs then RebaseEach(jobs, walk[1..], epoch)
    else if jobs[walk[0]].epoch >= epoch then Rebased(jobs, false)
    else RebaseEach(jobs[walk[0] := jobs[walk[0]].(epoch := epoch)], walk[1..], epoch)
  }

  function DoRebase(s: State, epoch: nat, walk: seq<nat>): Applied {
    var r := RebaseEach(s.jobs, walk, epoch);
    Applied(s.(jobs := r.jobs), if r.ok then Done else Refused(CONFLICT))
  }

  // ---------------------------------------------------------------------------
  // Any call
  // ---------------------------------------------------------------------------

  function Tick(s: State): State {
    s.(now := s.now + 1)
  }

  /** What a call naming no registered job replies; nothing changes. */
  function Stranger(op: JobOp): Reply {
    match op
    case Request(i) =>
      if IntentError(i) != OK then Refused(IntentError(i)) else
      Decided(Decision(0, i.token, i.group, 0, UnknownPhase, 0, 0, 0, Reject, UNKNOWN_JOB, UnknownService, 255, 0, 0,
                       i.bytesEstimate, 0, 0, false, false, 0, Unsupported))
    case BeginPhase(_, spec) => Refused(if PhaseSpecError(spec) != OK then PhaseSpecError(spec) else UNKNOWN_JOB)
    case BeginStep(_, step, _, _) => Refused(if step == 0 then INVALID_ARGUMENT else UNKNOWN_JOB)
    case EndPhase(_, _, d) => Refused(if d == Undecided then INVALID_ARGUMENT else UNKNOWN_JOB)
    case BeginBurst(_, _, _, _, reason) =>
      Refused(if TextError(reason, MAX_STRING_BYTES) != OK then TextError(reason, MAX_STRING_BYTES) else UNKNOWN_JOB)
    case EvaluatePacing(_, _, expected, arrived, _) =>
      Refused(if PacingError(expected, arrived) != OK then PacingError(expected, arrived) else UNKNOWN_JOB)
    case _ => Refused(UNKNOWN_JOB)
  }

  ghost function Apply(s: State, call: Call): Applied {
    match call
    case Register(r) => DoRegister(Tick(s), r)
    case SetPolicy(p) => DoSetPolicy(Tick(s), p)
    case Rebase(epoch, walk) => if epoch == 0 then Applied(s, Refused(INVALID_ARGUMENT)) else DoRebase(Tick(s), epoch, walk)
    case OnJob(op) =>
      var t := Tick(s);
      var id := TargetOf(op);
      if id !in t.jobs then Applied(t, Stranger(op)) else
      var e := Perform(EnvOf(t), t.jobs[id], op);
      Applied(t.(jobs := t.jobs[id := e.job]), e.reply)
    case Restart => Applied(DurableState(s), Done)
  }

  // ---------------------------------------------------------------------------
  // The invariant of the fabric
  // ---------------------------------------------------------------------------

  /** The state and, for each job, what no field records about its past. */
  datatype World = World(state: State, pasts: map<nat, Past>)

  ghost predicate Entry(s: State, k: nat, past: Past) {
    && k in s.jobs
    && s.jobs[k].id == k && k != 0 && Add64(k, 1) <= s.nextJob
    && JobOk(s.config, s.policy, s.jobs[k], past)
  }

  ghost predicate WorldOk(w: World) {
    var s := w.state;
    && ValidPolicy(s.policy) && s.policy.isolationPriority <= 255
    && |s.jobs| <= s.config.maxJobs
    && 0 < s.nextJob
    && w.pasts.Keys == s.jobs.Keys
    && forall k :: k in s.jobs ==> Entry(s, k, w.pasts[k])
  }

  /** What is asked of callers: numbers of the program's widths, and no use of the last incarnation number. */
  ghost predicate Permitted(s: State, call: Call) {
    match call
    case Register(r) => r.incarnation + 1 < WRAP64
    case SetPolicy(p) => p.isolationPriority <= 255
    case _ => true
  }

  lemma WorldIsKeyed(w: World, k: nat)
    requires WorldOk(w) && k in w.state.jobs
    ensures w.state.jobs[k].step.Some? ==> Keyed(w.state.jobs[k].step.value.flows)
  {
    hide ValidPolicy;
    assert Entry(w.state, k, w.pasts[k]);
  }

  ghost function PastFor(w: World, t: State, call: Call, k: nat): Past {
    if k !in w.state.jobs || k !in w.pasts || k !in t.jobs then Past(1, 0, false)
    else if call.Restart? then PastRestart(w.state.jobs[k], w.pasts[k])
    else if call.OnJob? && TargetOf(call.op) == k then
      PastAfter(w.state.jobs[k], t.jobs[k], Marked(w.state.jobs[k], t.jobs[k], call.op, w.pasts[k]))
    else PastAfter(w.state.jobs[k], t.jobs[k], w.pasts[k])
  }

  ghost function After(w: World, call: Call): World {
    var t := Apply(w.state, call).state;
    World(t, map k | k in t.jobs :: PastFor(w, t, call, k))
  }

  // ---------------------------------------------------------------------------
  // Every call keeps it
  // ---------------------------------------------------------------------------

  lemma NewJobOk(config: Config, policy: Policy, id: nat, r: Registration)
    requires ContractError(ContractFor(r)) == OK && r.incarnation + 1 < WRAP64
    ensures JobOk(config, policy, NewJob(id, r), Past(1, 0, false))
  {
    hide Sum, ContractError;
    NothingSums();
    ContractLimits(ContractFor(r));
  }

  /** A job registered under the last incarnation number has none left to mint. */
  lemma NewJobMintsIff(id: nat, r: Registration)
    requires r.incarnation < WRAP64
    ensures LifecycleOk(NewJob(id, r)) <==> r.incarnation + 1 < WRAP64
  {}

  lemma RegisterAdds(s: State, r: Registration)
    ensures var t, id := DoRegister(s, r).state, JobIdFor(s, r);
      && t == s.(jobs := t.jobs, nextJob := t.nextJob) && s.nextJob <= t.nextJob
      && (t.jobs == s.jobs || (
            && id !in s.jobs && id != 0 && |s.jobs| < s.config.maxJobs && Add64(id, 1) <= t.nextJob
            && ContractError(ContractFor(r)) == OK && t.jobs == s.jobs[id := NewJob(id, r)]))
  {
    hide ContractError;
  }

  lemma EntryLater(s: State, t: State, k: nat, past: Past)
    requires k in s.jobs && k in t.jobs && t.jobs[k] == s.jobs[k] && Entry(s, k, past)
    requires t.config == s.config && t.policy == s.policy && s.nextJob <= t.nextJob
    ensures Entry(t, k, past)
  {
    hide JobOk;
  }

  lemma RegisterKeeps(w: World, r: Registration)
    requires WorldOk(w) && Permitted(w.state, Register(r))
    ensures WorldOk(After(w, Register(r)))
  {
    hide JobOk, ContractError, DoRegister, NewJob, Entry, PastFor, ValidPolicy;
    var s, v := w.state, After(w, Register(r));
    var t, id := v.state, JobIdFor(w.state, r);
    RegisterAdds(Tick(s), r);
    if id !in s.jobs {
      assert |s.jobs[id := NewJob(id, r)]| == |s.jobs| + 1;
    }
    forall k | k in t.jobs ensures Entry(t, k, v.pasts[k]) {
      RegisterEntry(w, t, r, k);
    }
  }

  lemma RegisterEntry(w: World, t: State, r: Registration, k: nat)
    requires t == DoRegister(Tick(w.state), r).state && k in t.jobs && r.incarnation + 1 < WRAP64
    requires k in w.state.jobs ==> k in w.pasts && Entry(w.state, k, w.pasts[k])
    ensures Entry(t, k, PastFor(w, t, Register(r), k))
  {
    hide JobOk, ContractError, DoRegister, NewJob, Entry;
    RegisterAdds(Tick(w.state), r);
    if k in w.state.jobs {
      EntryLater(w.state, t, k, w.pasts[k]);
    } else {
      NewEntry(t, k, r);
    }
  }

  lemma NewEntry(t: State, id: nat, r: Registration)
    requires id in t.jobs && t.jobs[id] == NewJob(id, r) && id != 0 && Add64(id, 1) <= t.nextJob
    requires ContractError(ContractFor(r)) == OK && r.incarnation + 1 < WRAP64
    ensures Entry(t, id, Past(1, 0, false))
  {
    hide JobOk, ContractError;
    NewJobOk(t.config, t.policy, id, r);
  }

  lemma InvalidatedOk(s: State, p: Policy, job: Job, past: Past)
    requires JobOk(s.config, s.policy, job, past) && ValidPolicy(p)
    ensures var r := Invalidate(Env(s.config, p, s.now), job, POLICY_INVALIDATED);
      && JobOk(s.config, p, r, past) && r.id == job.id
      && (job.step.None? <==> r.step.None?)
  {
    hide LoadOk, ReceiptsOk, DecisionsOk, GroupsOk, TopologyOk, HistoryOk, ContractError, PhasesOk, KeysOk,
         FlowsOk, TotalsOk, BytesOk, CountsOk, PhaseCountsOk, FlowDecisionsOk, Bounded, Wide, LifecycleOk, FencesOk,
         Invalidate, Sum;
    var env := Env(s.config, p, s.now);
    InvalidateKeeps(env, s.policy, job, POLICY_INVALIDATED, past);
    if job.step.Some? {
      var r := Invalidate(env, job, POLICY_INVALIDATED);
      SurvivorsServed(s.policy, p, job, r);
    } else {
      NothingToInvalidate(env, job);
    }
  }

  lemma NothingToInvalidate(env: Env, job: Job)
    requires job.step.None?
    ensures Invalidate(env, job, POLICY_INVALIDATED) == job
  {}

  /** A flow survives a new policy only with the class the new policy gives its phase. */
  lemma SurvivorsServed(before: Policy, p: Policy, job: Job, r: Job)
    requires job.step.Some? && Trimmed(job, r)
    requires r.step.value.flows == map k | k in job.step.value.flows
               && !Invalidates(p, job.step.value, job.step.value.flows[k]) :: job.step.value.flows[k]
    requires FlowsOk(before.classes, r.step.value.flows, r.step.value.phases, r.contract.maxActiveFlows, r.ids.intent)
    ensures FlowsOk(p.classes, r.step.value.flows, r.step.value.phases, r.contract.maxActiveFlows, r.ids.intent)
  {
    hide Find, EffectivePriority;
    var flows, phases := r.step.value.flows, r.step.value.phases;
    forall k | k in flows ensures FlowOk(p.classes, flows[k], phases) {
      assert FlowOk(before.classes, flows[k], phases);
    }
  }

  lemma SetPolicyEntry(w: World, t: State, p: Policy, k: nat)
    requires t == DoSetPolicy(Tick(w.state), p).state && k in t.jobs && k in w.pasts
    requires k in w.state.jobs && Entry(w.state, k, w.pasts[k])
    ensures Entry(t, k, PastFor(w, t, SetPolicy(p), k))
  {
    hide JobOk, Invalidate, PolicyError, ValidPolicy;
    var s := Tick(w.state);
    if PolicyError(p) == OK && p.generation > s.policy.generation {
      PolicyErrorIff(p);
      InvalidatedOk(s, p, s.jobs[k], w.pasts[k]);
    }
  }

  lemma SetPolicyKeeps(w: World, p: Policy)
    requires WorldOk(w) && Permitted(w.state, SetPolicy(p))
    ensures WorldOk(After(w, SetPolicy(p)))
  {
    hide JobOk, Entry, Invalidate, PolicyError, ValidPolicy, PastFor;
    var s, v := Tick(w.state), After(w, SetPolicy(p));
    PolicyErrorIff(p);
    assert v.state.jobs.Keys == s.jobs.Keys;
    assert |v.state.jobs| == |s.jobs|;
    forall k | k in v.state.jobs ensures Entry(v.state, k, v.pasts[k]) {
      SetPolicyEntry(w, v.state, p, k);
    }
  }

  /** A walk changes epochs and nothing else. */
  lemma {:induction false} RebaseFrame(jobs: map<nat, Job>, walk: seq<nat>, epoch: nat)
    ensures var r := RebaseEach(jobs, walk, epoch).jobs;
      && r.Keys == jobs.Keys
      && forall k :: k in jobs ==>
           r[k] == jobs[k].(epoch := r[k].epoch) && (r[k].epoch == jobs[k].epoch || jobs[k].epoch < r[k].epoch == epoch)
    decreases |walk|
  {
    if walk != [] && walk[0] in jobs && jobs[walk[0]].epoch < epoch {
      RebaseFrame(jobs[walk[0] := jobs[walk[0]].(epoch := epoch)], walk[1..], epoch);
    } else if walk != [] && walk[0] !in jobs {
      RebaseFrame(jobs, walk[1..], epoch);
    }
  }

  lemma EpochIsFree(config: Config, policy: Policy, job: Job, epoch: nat, past: Past)
    requires JobOk(config, policy, job, past)
    ensures JobOk(config, policy, job.(epoch := epoch), past)
  {
    hide LoadOk, ReceiptsOk, DecisionsOk, GroupsOk, TopologyOk, HistoryOk, ContractError, PhasesOk, KeysOk,
         FlowsOk, TotalsOk, BytesOk, CountsOk, PhaseCountsOk, FlowDecisionsOk, Bounded, Wide;
  }

  lemma RebaseAt(jobs: map<nat, Job>, walk: seq<nat>, epoch: nat, k: nat)
    requires k in jobs
    ensures var r := RebaseEach(jobs, walk, epoch).jobs;
      k in r && r[k] == jobs[k].(epoch := r[k].epoch) && (r[k].epoch == jobs[k].epoch || jobs[k].epoch < r[k].epoch == epoch)
  {
    RebaseFrame(jobs, walk, epoch);
  }

  lemma RebaseKeys(jobs: map<nat, Job>, walk: seq<nat>, epoch: nat)
    ensures RebaseEach(jobs, walk, epoch).jobs.Keys == jobs.Keys
  {
    RebaseFrame(jobs, walk, epoch);
  }

  lemma RebaseEntry(w: World, t: State, epoch: nat, walk: seq<nat>, k: nat)
    requires k in w.state.jobs && k in w.pasts && Entry(w.state, k, w.pasts[k]) && k in t.jobs
    requires epoch == 0 ==> t == w.state
    requires epoch != 0 ==> t == DoRebase(Tick(w.state), epoch, walk).state
    ensures Entry(t, k, PastFor(w, t, Rebase(epoch, walk), k))
  {
    hide JobOk, RebaseEach;
    RebaseFrame(w.state.jobs, walk, epoch);
    EpochIsFree(w.state.config, w.state.policy, w.state.jobs[k], t.jobs[k].epoch, w.pasts[k]);
  }

  lemma RebaseKeeps(w: World, epoch: nat, walk: seq<nat>)
    requires WorldOk(w) && Permitted(w.state, Rebase(epoch, walk))
    ensures WorldOk(After(w, Rebase(epoch, walk)))
  {
    hide JobOk, ValidPolicy, RebaseEach, Entry, PastFor;
    var s, v := w.state, After(w, Rebase(epoch, walk));
    RebaseKeys(s.jobs, walk, epoch);
    assert v.state.jobs.Keys == s.jobs.Keys;
    assert |v.state.jobs| == |s.jobs|;
    forall k | k in v.state.jobs ensures Entry(v.state, k, v.pasts[k]) {
      RebaseEntry(w, v.state, epoch, walk, k);
    }
  }

  lemma RestartEntry(w: World, t: State, k: nat)
    requires k in w.state.jobs && k in w.pasts && Entry(w.state, k, w.pasts[k]) && t == DurableState(w.state)
    ensures Entry(t, k, PastFor(w, t, Restart, k))
  {
    hide JobOk;
    DurableKeeps(w.state.config, w.state.policy, w.state.jobs[k], w.pasts[k]);
  }

  lemma RestartKeeps(w: World)
    requires WorldOk(w)
    ensures WorldOk(After(w, Restart))
  {
    hide JobOk, ValidPolicy, DurableJob, Entry, PastFor;
    var s, v := w.state, After(w, Restart);
    assert v.state.jobs.Keys == s.jobs.Keys;
    assert |v.state.jobs| == |s.jobs|;
    forall k | k in v.state.jobs ensures Entry(v.state, k, v.pasts[k]) {
      RestartEntry(w, v.state, k);
    }
  }

  lemma EnvIsOk(w: World)
    requires WorldOk(w)
    ensures EnvOk(EnvOf(Tick(w.state)))
  {
    hide ValidPolicy;
  }

  lemma OnJobKeeps(w: World, op: JobOp)
    requires WorldOk(w) && Permitted(w.state, OnJob(op))
    ensures WorldOk(After(w, OnJob(op)))
  {
    hide JobOk, ValidPolicy, Perform, Entry, Stranger, EnvOk;
    var s, t, v, id := w.state, Tick(w.state), After(w, OnJob(op)), TargetOf(op);
    assert v.state.jobs.Keys == s.jobs.Keys;
    assert |v.state.jobs| == |s.jobs|;
    forall k | k in v.state.jobs ensures Entry(v.state, k, v.pasts[k]) {
      if k == id {
        EnvIsOk(w);
        WorldIsKeyed(w, k);
        JobEntry(w, v.state, op, k);
      } else {
        EntryLater(s, v.state, k, w.pasts[k]);
      }
    }
  }

  lemma JobEntry(w: World, t: State, op: JobOp, k: nat)
    requires k in w.state.jobs && k in w.pasts && Entry(w.state, k, w.pasts[k]) && EnvOk(EnvOf(Tick(w.state)))
    requires TargetOf(op) == k
    requires w.state.jobs[k].step.Some? ==> Keyed(w.state.jobs[k].step.value.flows)
    requires var e := Perform(EnvOf(Tick(w.state)), w.state.jobs[k], op);
      t == Tick(w.state).(jobs := w.state.jobs[k := e.job])
    ensures Entry(t, k, PastFor(w, t, OnJob(op), k))
  {
    hide JobOk, Perform, EnvOk, Keyed, Tears;
    PerformKept(EnvOf(Tick(w.state)), w.state.jobs[k], op, w.pasts[k]);
  }

  /** Every permitted call keeps the invariant of the fabric. */
  lemma AfterKeeps(w: World, call: Call)
    requires WorldOk(w) && Permitted(w.state, call)
    ensures WorldOk(After(w, call))
  {
    hide WorldOk, After;
    match call
    case Register(r) => RegisterKeeps(w, r);
    case SetPolicy(p) => SetPolicyKeeps(w, p);
    case Rebase(epoch, walk) => RebaseKeeps(w, epoch, walk);
    case OnJob(op) => OnJobKeeps(w, op);
    case Restart => RestartKeeps(w);
  }

  // ---------------------------------------------------------------------------
  // Runs
  // ---------------------------------------------------------------------------

  /** A sequence of calls each of which is permitted when it is made. */
  ghost predicate Legal(w: World, calls: seq<Call>)
    decreases |calls|
  {
    calls == [] || (Permitted(w.state, calls[0]) && Legal(After(w, calls[0]), calls[1..]))
  }

  ghost function RunFrom(w: World, calls: seq<Call>): World
    decreases |calls|
  {
    if calls == [] then w else RunFrom(After(w, calls[0]), calls[1..])
  }

  lemma {:induction false} RunKeeps(w: World, calls: seq<Call>)
    requires WorldOk(w) && Legal(w, calls)
    ensures WorldOk(RunFrom(w, calls))
    decreases |calls|
  {
    hide WorldOk, After;
    if calls != [] {
      AfterKeeps(w, calls[0]);
      RunKeeps(After(w, calls[0]), calls[1..]);
    }
  }

  lemma {:induction false} RunOneMore(w: World, calls: seq<Call>, call: Call)
    requires WorldOk(w) && Legal(w, calls) && WorldOk(RunFrom(w, calls)) && Permitted(RunFrom(w, calls).state, call)
    ensures Legal(w, calls + [call]) && RunFrom(w, calls + [call]) == After(RunFrom(w, calls), call)
    decreases |calls|
  {
    hide WorldOk, After, Permitted;
    if calls == [] {
      assert calls + [call] == [call];
      assert [call][1..] == [];
      AfterKeeps(w, call);
    } else {
      AfterKeeps(w, calls[0]);
      RunOneMore(After(w, calls[0]), calls[1..], call);
      assert (calls + [call])[1..] == calls[1..] + [call];
    }
  }

  /** `job` is what job `k` has become after the calls. */
  ghost predicate Reaches(w: World, calls: seq<Call>, k: nat, job: Job) {
    && WorldOk(w) && Legal(w, calls)
    && k in RunFrom(w, calls).state.jobs && RunFrom(w, calls).state.jobs[k] == job
  }

  /** In its present life no group of job `k` was registered while a live flow named it. */
  ghost predicate Untorn(w: World, calls: seq<Call>, k: nat) {
    k in RunFrom(w, calls).pasts && !RunFrom(w, calls).pasts[k].torn
  }

  ghost predicate Starts(w: World) {
    && w.state.jobs == map[] && w.pasts == map[] && w.state.nextJob == 1
    && ValidPolicy(w.state.policy) && w.state.policy.isolationPriority <= 255
  }

  /** From a fresh fabric, every run of permitted calls keeps the invariant, restarts included. */
  lemma EveryRunIsOk(w: World, calls: seq<Call>)
    requires Starts(w) && Legal(w, calls)
    ensures WorldOk(w) && WorldOk(RunFrom(w, calls))
  {
    StartIsOk(w);
    RunKeeps(w, calls);
  }

  /** The program's own fresh fabric, with its built-in policy, is such a start. */
  lemma ProgramStarts(config: Config, now: nat)
    ensures Starts(World(State(config, now, DefaultPolicy(1), map[], 1), map[]))
  {
    DefaultPolicyIsValid(1);
  }

  lemma StartIsOk(w: World)
    requires Starts(w)
    ensures WorldOk(w)
  {}
}
