/** Requesting traffic: what is charged was decided, fits, and keeps the job's invariant. */
module Requests {
  import opened Results
  import opened Model
  import opened Policies
  import opened Sums
  import opened Arbitration
  import opened Traffic
  import opened Operations
  import opened Invariants
  import opened Preservation

  // ---------------------------------------------------------------------------
  // Room for the grant
  // ---------------------------------------------------------------------------

  /** Closing flows of a group takes exactly their rates off its sum. */
  lemma {:induction false} FreedLeaves(flows: map<nat, Flow>, ids: seq<nat>, g: nat)
    requires forall k :: k in ids ==> k in flows && flows[k].group == g
    requires Distinct(ids)
    ensures Sum(GroupRate(g), flows) == Sum(GroupRate(g), flows - (set k | k in ids)) + Freed(flows, ids)
    decreases |ids|
  {
    hide Sum;
    if ids == [] {
      assert flows - (set k | k in ids) == flows;
    } else {
      var k, rest := ids[0], ids[1..];
      assert k in ids;
      SumRemove(GroupRate(g), flows, k);
      forall j | j in rest ensures j in flows - {k} {
        assert j in ids;
      }
      FreedLeaves(flows - {k}, rest, g);
      FreedSame(flows, flows - {k}, rest);
      assert flows - (set j | j in ids) == (flows - {k}) - (set j | j in rest);
    }
  }

  lemma PrefixDistinct(flows: map<nat, Flow>, ranking: seq<nat>, n: nat)
    requires Ranked(flows, ranking) && n <= |ranking|
    ensures Distinct(ranking[..n])
  {
    RankedDistinct(flows, ranking);
  }

  /** The victims make room: what remains and the grant together exceed neither the available
      capacity nor, when the group was already over it, what was charged before. */
  lemma GrantFits(p: Policy, links: seq<Link>, flows: map<nat, Flow>, group: nat, priority: nat, minBps: nat, maxBps: nat)
    requires Keyed(flows)
    requires Arbitrate(p, links, Sum(GroupRate(group), flows), flows, group, priority, minBps, maxBps).Granted?
    ensures var used := Sum(GroupRate(group), flows);
      var a := Arbitrate(p, links, used, flows, group, priority, minBps, maxBps);
      && FindLink(links, group).Some?
      && (forall k :: k in a.victims ==> k in flows && flows[k].group == group)
      && Sum(GroupRate(group), flows - (set k | k in a.victims)) + a.minBps
         <= Max(used, FindLink(links, group).value.Available())
  {
    hide Ranking, Arbitrate, Find, FindLink, Sum;
    var used := Sum(GroupRate(group), flows);
    var a := Arbitrate(p, links, used, flows, group, priority, minBps, maxBps);
    var candidates := Candidates(p.classes, flows, group, priority);
    GrantIsMinimal(p, links, used, flows, group, priority, minBps, maxBps);
    RankingRanks(candidates);
    PrefixDistinct(candidates, Ranking(candidates), |a.victims|);
    FreedLeaves(flows, a.victims, group);
  }

  // ---------------------------------------------------------------------------
  // What an allowed request has passed
  // ---------------------------------------------------------------------------

  lemma PriorityFits(p: Policy, cls: ServiceClass, isolation: bool)
    requires ValidPolicy(p) && p.isolationPriority <= 255
    ensures EffectivePriority(p, cls, isolation) <= 255
  {
    var spec := Find(p.classes, cls);
    assert spec.Some? ==> SpecError(spec.value) == OK;
  }

  /** The request's class is the one its phase maps to, its rate respects every limit, and when it
      is admitted during a burst the burst tolerates it. */
  ghost predicate Passed(env: Env, job: Job, i: Intent, j: Judgement)
    requires j.Allowed? && job.step.Some? && i.token.phase in job.step.value.phases
  {
    var step, p := job.step.value, env.policy;
    var phaseClass := step.phases[i.token.phase].spec.cls;
    && step.intentsSeen < job.contract.maxIntents
    && j.cls == ClassForPhase(p, phaseClass) && Find(p.classes, j.cls).Some?
    && j.priority == EffectivePriority(p, j.cls, Isolated(step, i.group))
    && i.minBps <= j.minBps <= j.maxBps
    && (Isolated(step, i.group) ==> j.cls == CheckpointService || Find(p.classes, j.cls).value.barrierCritical)
    && (j.isolated <==> Isolated(step, i.group) && j.cls == CheckpointService)
    && step.acc.bytesCommitted + i.bytesEstimate <= job.contract.maxBytesPerStep
    && i.bytesEstimate <= job.contract.maxBytesPerIntent
    && |step.flows| < job.contract.maxActiveFlows
    && (phaseClass == UnknownPhase ==> job.contract.allowUnknownPhase)
    && (phaseClass == UnknownPhase && p.unknownCeiling != 0 ==> j.maxBps <= p.unknownCeiling)
    && var spec := Find(p.classes, j.cls).value;
      && (phaseClass != UnknownPhase && spec.ceiling != 0 ==> j.maxBps <= spec.ceiling)
      && spec.floor <= j.minBps
  }

  lemma AllowedPassed(env: Env, job: Job, i: Intent)
    requires job.step.Some? && i.token.phase in job.step.value.phases && Keyed(job.step.value.flows)
    requires Judge(env, job, i).Allowed?
    ensures Passed(env, job, i, Judge(env, job, i))
  {
    hide Arbitrate, Find, EffectivePriority;
    ArbitrationOf(env, job, i);
  }

  /** The arbitration an allowed request went through. */
  lemma ArbitrationOf(env: Env, job: Job, i: Intent)
    requires job.step.Some? && i.token.phase in job.step.value.phases && Keyed(job.step.value.flows)
    requires Judge(env, job, i).Allowed?
    ensures var step := job.step.value;
      var j := Judge(env, job, i);
      var unknown := step.phases[i.token.phase].spec.cls == UnknownPhase;
      var spec := Find(env.policy.classes, j.cls);
      && spec.Some?
      && var ceiling := CeilingFor(env.policy, spec.value, unknown);
        var a := Arbitrate(env.policy, job.topology.links, Get(job.load.bps, i.group), step.flows, i.group,
                           if unknown then 255 else j.priority, Max(i.minBps, spec.value.floor),
                           if ceiling != 0 then Min(i.maxBps, ceiling) else i.maxBps);
        && a == Granted(j.minBps, j.maxBps, j.victims)
        && Max(i.minBps, spec.value.floor) == j.minBps <= j.maxBps && j.minBps <= i.maxBps
        && (ceiling != 0 ==> j.maxBps <= ceiling)
  {
    hide Arbitrate, EffectivePriority, Find;
    var step := job.step.value;
    var found := Find(env.policy.classes, ClassForPhase(env.policy, step.phases[i.token.phase].spec.cls));
    var spec := found.value;
    var unknown := step.phases[i.token.phase].spec.cls == UnknownPhase;
    var ceiling := CeilingFor(env.policy, spec, unknown);
    GrantIsMinimal(env.policy, job.topology.links, Get(job.load.bps, i.group), step.flows, i.group,
                   if unknown then 255 else EffectivePriority(env.policy, spec.cls, Isolated(step, i.group)),
                   Max(i.minBps, spec.floor), if ceiling != 0 then Min(i.maxBps, ceiling) else i.maxBps);
  }

  // ---------------------------------------------------------------------------
  // Deciding keeps the invariant
  // ---------------------------------------------------------------------------

  ghost predicate EnvOk(env: Env) {
    ValidPolicy(env.policy) && env.policy.isolationPriority <= 255
  }

  /** The token names the open step and an active phase of it, and the rate asked for is one there can be. */
  ghost predicate Bound(job: Job, i: Intent) {
    && job.step.Some? && i.token.step == job.step.value.id
    && i.token.phase in job.step.value.phases && job.step.value.phases[i.token.phase].Active()
    && i.minBps <= i.maxBps <= MAX_RATE_BPS
  }

  /** A valid policy defines a class for every phase, so the program's internal-error exit is dead. */
  lemma NeverInternal(env: Env, job: Job, i: Intent)
    requires job.step.Some? && i.token.phase in job.step.value.phases && Keyed(job.step.value.flows)
    requires ValidPolicy(env.policy)
    ensures Judge(env, job, i) != Denied(INTERNAL)
  {
    hide Arbitrate, Find, EffectivePriority, ValidPolicy;
    PhasesAreServed(env.policy, job.step.value.phases[i.token.phase].spec.cls);
  }

  lemma PostponedInTime(env: Env, job: Job, i: Intent)
    requires job.step.Some? && i.token.phase in job.step.value.phases && Keyed(job.step.value.flows)
    ensures Judge(env, job, i).Postponed? ==> job.step.value.intentsSeen < job.contract.maxIntents
  {
    hide Arbitrate, Find, EffectivePriority;
  }

  lemma EvidenceIsBounded(job: Job, group: nat)
    requires TopologyOk(job.topology, job.ids.topology) && FindLink(job.topology.links, group).Some?
    ensures group != 0 && FindLink(job.topology.links, group).value.Available() <= MAX_RATE_BPS
  {
    var l := FindLink(job.topology.links, group).value;
    assert l in job.topology.links;
    assert LinkError(l) == OK;
  }

  /** Once the victims are gone the grant is within the largest rate, and within the group's capacity while the
      counters are exact. */
  lemma RoomFits(env: Env, job: Job, i: Intent, past: Past)
    requires Open(env.config, env.policy, job, past) && Bound(job, i) && EnvOk(env)
    requires Keyed(job.step.value.flows) && Judge(env, job, i).Allowed?
    ensures var j := Judge(env, job, i);
      var room := CancelEach(env, job, j.victims, NO_CAPACITY, Some(Defer));
      && Open(env.config, env.policy, room, past) && Trimmed(job, room)
      && i.group != 0
      && FindLink(job.topology.links, i.group).Some?
      && Get(room.load.bps, i.group) + j.minBps <= MAX_RATE_BPS
      && (!past.torn ==>
            Get(room.load.bps, i.group) + j.minBps
              <= Max(Get(job.load.bps, i.group), FindLink(job.topology.links, i.group).value.Available()))
  {
    hide Judge, Arbitrate, Find, FindLink, EffectivePriority, CancelEach, Trimmed, Sum, StepOk, TopologyOk, LoadOk,
         EnvOk, CeilingFor;
    var j := Judge(env, job, i);
    var flows := job.step.value.flows;
    ArbitrationOf(env, job, i);
    CancelEachKeeps(env, env.policy, job, j.victims, NO_CAPACITY, Some(Defer), past);
    var room := CancelEach(env, job, j.victims, NO_CAPACITY, Some(Defer));
    var unknown := job.step.value.phases[i.token.phase].spec.cls == UnknownPhase;
    var spec := Find(env.policy.classes, j.cls).value;
    var ceiling := CeilingFor(env.policy, spec, unknown);
    GrantIsCovered(env, job, i.group, if unknown then 255 else j.priority, Max(i.minBps, spec.floor),
                   if ceiling != 0 then Min(i.maxBps, ceiling) else i.maxBps);
    ChargedInRange(!past.torn, job, i.group);
    EvidenceIsBounded(job, i.group);
    if !past.torn {
      ChargedIsSum(job, i.group);
      ChargedIsSum(room, i.group);
      GrantFits(env.policy, job.topology.links, flows, i.group, if unknown then 255 else j.priority,
                Max(i.minBps, spec.floor), if ceiling != 0 then Min(i.maxBps, ceiling) else i.maxBps);
    }
  }

  /** Closing flows of a group lowers its counter by their rates, down to zero. */
  lemma {:induction false} CancelEachLowers(env: Env, job: Job, ids: seq<nat>, reason: ErrorCode, mark: Option<Outcome>,
                                            g: nat)
    requires job.step.Some? && Keyed(job.step.value.flows) && Distinct(ids)
    requires forall k :: k in ids ==> k in job.step.value.flows && job.step.value.flows[k].group == g
    ensures Get(CancelEach(env, job, ids, reason, mark).load.bps, g)
         == Sub(Get(job.load.bps, g), Freed(job.step.value.flows, ids))
    decreases |ids|
  {
    if ids != [] {
      var flows, next := job.step.value.flows, CancelOne(env, job, ids[0], reason, mark);
      assert ids[0] in ids;
      CancelOneLowers(env, job, ids[0], reason, mark, g);
      hide CancelOne;
      forall k | k in ids[1..] ensures k in next.step.value.flows && next.step.value.flows[k].group == g {
        assert k in ids;
      }
      CancelEachLowers(env, next, ids[1..], reason, mark, g);
      FreedSame(flows, next.step.value.flows, ids[1..]);
    }
  }

  lemma CancelOneLowers(env: Env, job: Job, id: nat, reason: ErrorCode, mark: Option<Outcome>, g: nat)
    requires job.step.Some? && Keyed(job.step.value.flows)
    requires id in job.step.value.flows && job.step.value.flows[id].group == g
    ensures var r := CancelOne(env, job, id, reason, mark);
      && Get(r.load.bps, g) == Sub(Get(job.load.bps, g), job.step.value.flows[id].minBps)
      && r.step.value.flows == job.step.value.flows - {id} && Keyed(r.step.value.flows)
  {
    hide Push, Mark, SettleStep, SettlePhase, Fewer;
  }

  /** What remains charged and the grant together: within the evidence or the earlier charge, or, when the counter
      was too low for what was closed, the grant alone. */
  lemma GrantIsCovered(env: Env, job: Job, group: nat, priority: nat, minBps: nat, maxBps: nat)
    requires job.step.Some? && Keyed(job.step.value.flows)
    requires Arbitrate(env.policy, job.topology.links, Get(job.load.bps, group), job.step.value.flows, group, priority,
                       minBps, maxBps).Granted?
    ensures var used := Get(job.load.bps, group);
      var a := Arbitrate(env.policy, job.topology.links, used, job.step.value.flows, group, priority, minBps, maxBps);
      && FindLink(job.topology.links, group).Some?
      && Get(CancelEach(env, job, a.victims, NO_CAPACITY, Some(Defer)).load.bps, group) + a.minBps
         <= Max(a.minBps, Max(used, FindLink(job.topology.links, group).value.Available()))
  {
    hide Ranking, Find, FindLink, CancelEach, Victims, Freed;
    var flows, used := job.step.value.flows, Get(job.load.bps, group);
    var a := Arbitrate(env.policy, job.topology.links, used, flows, group, priority, minBps, maxBps);
    var candidates := Candidates(env.policy.classes, flows, group, priority);
    GrantIsMinimal(env.policy, job.topology.links, used, flows, group, priority, minBps, maxBps);
    RankingRanks(candidates);
    PrefixDistinct(candidates, Ranking(candidates), |a.victims|);
    CancelEachLowers(env, job, a.victims, NO_CAPACITY, Some(Defer), group);
  }

  lemma ChargedInRange(exact: bool, job: Job, group: nat)
    requires job.step.Some? && LoadOk(exact, job.load, job.step.value.flows)
    ensures Get(job.load.bps, group) <= MAX_RATE_BPS
  {
    assert GroupLoadOk(exact, job.load, job.step.value.flows, group);
  }

  lemma ChargedIsSum(job: Job, group: nat)
    requires job.step.Some? && LoadOk(true, job.load, job.step.value.flows)
    ensures Get(job.load.bps, group) == Sum(GroupRate(group), job.step.value.flows) <= MAX_RATE_BPS
  {
    assert GroupLoadOk(true, job.load, job.step.value.flows, group);
  }

  lemma AllowedIsAdmissible(env: Env, job: Job, room: Job, i: Intent, past: Past)
    requires Open(env.config, env.policy, job, past) && Bound(job, i) && EnvOk(env)
    requires Keyed(job.step.value.flows) && Judge(env, job, i).Allowed?
    requires room == CancelEach(env, job, Judge(env, job, i).victims, NO_CAPACITY, Some(Defer))
    ensures var j := Judge(env, job, i);
      Admissible(env, room, FlowFor(env, job, i, j), DecisionFor(env, job, i, j))
  {
    hide Judge, Arbitrate, Find, FindLink, CancelEach, Sum, StepOk, TopologyOk, LoadOk, JobOk, ValidPolicy,
         EffectivePriority, Passed;
    AllowedPassed(env, job, i);
    RoomFits(env, job, i, past);
    AdmissibleFrom(env, job, room, i, Judge(env, job, i));
  }

  lemma AdmissibleFrom(env: Env, job: Job, room: Job, i: Intent, j: Judgement)
    requires Bound(job, i) && EnvOk(env) && j.Allowed? && Passed(env, job, i, j)
    requires Trimmed(job, room) && i.group != 0
    requires Get(room.load.bps, i.group) + j.minBps <= MAX_RATE_BPS
    ensures Admissible(env, room, FlowFor(env, job, i, j), DecisionFor(env, job, i, j))
  {
    hide Find, ValidPolicy, EffectivePriority;
    PriorityFits(env.policy, j.cls, Operations.Isolated(job.step.value, i.group));
    PhasesAreServed(env.policy, UnknownPhase);
    FewerFlows(job.step.value.flows, room.step.value.flows);
  }

  lemma FewerFlows(a: map<nat, Flow>, b: map<nat, Flow>)
    requires forall k :: k in b ==> k in a
    ensures |b| <= |a|
  {
    Subset(b.Keys, a.Keys);
  }

  lemma {:induction false} Subset(b: set<nat>, a: set<nat>)
    requires b <= a
    ensures |b| <= |a|
    decreases |b|
  {
    if b != {} {
      var k :| k in b;
      Subset(b - {k}, a - {k});
    }
  }

  /** Whatever is decided, the job's invariant survives. */
  lemma DecideKeeps(env: Env, job: Job, i: Intent, past: Past)
    requires Open(env.config, env.policy, job, past) && Bound(job, i) && EnvOk(env) && Keyed(job.step.value.flows)
    ensures JobOk(env.config, env.policy, Decide(env, job, i).job, past)
  {
    hide Judge, Arbitrate, Find, CancelEach, JobOk, EnvOk, Conclude, AdmitFlow, Admissible;
    var j := Judge(env, job, i);
    ValidEnv(env);
    NeverInternal(env, job, i);
    PostponedInTime(env, job, i);
    var d := DecisionFor(env, job, i, j);
    if j.Allowed? {
      var room := CancelEach(env, job, j.victims, NO_CAPACITY, Some(Defer));
      RoomFits(env, job, i, past);
      AllowedIsAdmissible(env, job, room, i, past);
      AdmitKeeps(env, room, FlowFor(env, job, i, j), d, past);
    } else {
      ConcludeKeeps(env, job, i.token.phase, d, past);
    }
  }

  lemma ValidEnv(env: Env)
    requires EnvOk(env)
    ensures ValidPolicy(env.policy)
  {}
}
