/** The fabric as the program holds it: a table of jobs updated in place, one call at a time. */
module Fabrics {
  import opened Results
  import opened Utf8
  import opened Codec
  import opened Model
  import opened Policies
  import opened Order
  import opened Arbitration
  import opened Operations
  import opened Invariants
  import opened Requests
  import opened Runs
  import opened Laws
  import opened LiveJobs

  class Fabric {
    const config: Config
    var now: nat
    var policy: Policy
    var jobs: map<nat, LiveJob>
    var nextJob: nat

    /** No two ids share a job object. */
    ghost predicate Separate()
      reads this
    {
      forall i, j :: i in jobs && j in jobs && i != j ==> jobs[i] != jobs[j]
    }

    function Values(): map<nat, Job>
      reads this, jobs.Values
    {
      map k | k in jobs :: jobs[k].Value()
    }

    /** The fabric's value, the state the functions speak about. */
    function Whole(): State
      reads this, jobs.Values
    {
      State(config, now, policy, Values(), nextJob)
    }

    constructor (config: Config, start: nat, policy: Policy)
      ensures Separate() && jobs == map[] && Whole() == State(config, start, policy, map[], 1)
    {
      this.config, now, this.policy, jobs, nextJob := config, start, policy, map[], 1;
      new;
      assert Values() == map[];
    }

    /** Add a job under a new id. */
    method Insert(id: nat, job: Job)
      requires Separate() && id !in jobs
      modifies this`jobs
      ensures Separate() && fresh(jobs.Values - old(jobs.Values))
      ensures Values() == old(Values())[id := job]
    {
      hide LiveJob.Value;
      var record := new LiveJob(job);
      jobs := jobs[id := record];
    }

    /** The checks made before an identifier is reserved. */
    function Objection(r: Registration): (error: ErrorCode)
      reads this, jobs.Values
      ensures error == RegistrationError(Whole(), r)
    {
      SameSize();
      if |jobs| >= config.maxJobs then RESOURCE_EXHAUSTED
      else if TextError(r.name, MAX_STRING_BYTES) != OK then TextError(r.name, MAX_STRING_BYTES)
      else if !r.boot.Valid() then INVALID_ARGUMENT
      else if (if r.job == 0 then nextJob else r.job) in jobs then ALREADY_EXISTS
      else OK
    }

    method Reserve(id: nat, r: Registration) returns (reply: Reply)
      requires Separate() && id !in jobs
      modifies this
      ensures Separate() && fresh(jobs.Values - old(jobs.Values))
      ensures Applied(Whole(), reply) == Runs.Reserve(old(Whole()), id, r)
    {
      hide ContractError, NewJob, LiveJob.Value, ContractFor, Add64;
      nextJob := Max(nextJob, Add64(id, 1));
      assert Values() == old(Values());
      if id == 0 {
        return Refused(INVALID_ARGUMENT);
      }
      var contract := ContractFor(r);
      if ContractError(contract) != OK {
        return Refused(ContractError(contract));
      }
      Insert(id, NewJob(id, r));
      return Number(id);
    }

    method Register(r: Registration) returns (reply: Reply)
      requires Separate()
      modifies this
      ensures Separate() && fresh(jobs.Values - old(jobs.Values))
      ensures Applied(Whole(), reply) == DoRegister(Tick(old(Whole())), r)
    {
      hide RegistrationError, LiveJob.Value, Objection, Runs.Reserve;
      now := now + 1;
      assert Values() == old(Values());
      assert Whole() == Tick(old(Whole()));
      var error := Objection(r);
      if error != OK {
        return Refused(error);
      }
      NotRegistered(Whole(), r);
      SameSize();
      reply := Reserve(if r.job == 0 then nextJob else r.job, r);
    }

    lemma SameSize()
      ensures |jobs| == |Values()| && jobs.Keys == Values().Keys
    {
      assert jobs.Keys == Values().Keys;
    }

    method SetPolicy(p: Policy) returns (reply: Reply)
      requires Separate()
      modifies this, jobs.Values
      ensures Separate() && jobs == old(jobs)
      ensures Applied(Whole(), reply) == DoSetPolicy(Tick(old(Whole())), p)
    {
      hide Invalidate, PolicyError, LiveJob.Value;
      now := now + 1;
      assert Values() == old(Values());
      var error := ValidatePolicy(p);
      if error != OK {
        return Refused(error);
      }
      if p.generation <= policy.generation {
        return Refused(CONFLICT);
      }
      policy := p;
      InvalidateAll(Env(config, p, now));
      return Number(p.generation);
    }

    /** Invalidate job after job, in whatever order the table is walked. */
    method InvalidateAll(env: Env)
      requires Separate()
      modifies jobs.Values
      ensures Values() == map k | k in old(Values()) :: Invalidate(env, old(Values())[k], POLICY_INVALIDATED)
    {
      hide Invalidate, LiveJob.Value;
      ghost var before := Values();
      var todo := jobs.Keys;
      while todo != {}
        invariant todo <= jobs.Keys
        invariant forall k :: k in jobs ==>
          jobs[k].Value() == if k in todo then before[k] else Invalidate(env, before[k], POLICY_INVALIDATED)
        decreases |todo|
      {
        var k :| k in todo;
        var job := jobs[k];
        job.InvalidateForChange(env, POLICY_INVALIDATED);
        todo := todo - {k};
      }
    }

    /** Rebase job after job until one is already at or past the epoch; `walk` is the order met. */
    method RebaseEpoch(epoch: nat) returns (reply: Reply, ghost walk: seq<nat>)
      requires Separate()
      modifies this, jobs.Values
      ensures Separate() && jobs == old(jobs)
      ensures epoch == 0 ==> Applied(Whole(), reply) == Applied(old(Whole()), Refused(INVALID_ARGUMENT))
      ensures epoch != 0 ==> Walks(walk, old(Values())) && Applied(Whole(), reply) == DoRebase(Tick(old(Whole())), epoch, walk)
    {
      hide RebaseEach, Walks, LiveJob.Value;
      walk := [];
      if epoch == 0 {
        return Refused(INVALID_ARGUMENT), walk;
      }
      now := now + 1;
      assert Values() == old(Values());
      var ok;
      ok, walk := RebaseJobs(epoch);
      return (if ok then Done else Refused(CONFLICT)), walk;
    }

    method RebaseJobs(epoch: nat) returns (ok: bool, ghost walk: seq<nat>)
      requires Separate()
      modifies jobs.Values
      ensures Walks(walk, old(Values()))
      ensures Rebased(Values(), ok) == RebaseEach(old(Values()), walk, epoch)
    {
      hide RebaseEach, LiveJob.Value;
      walk := [];
      var todo := jobs.Keys;
      RebaseNothing(Values(), epoch);
      while todo != {}
        invariant todo <= jobs.Keys
        invariant Distinct(walk) && forall k :: k in walk <==> k in jobs && k !in todo
        invariant RebaseEach(old(Values()), walk, epoch) == Rebased(Values(), true)
        decreases |todo|
      {
        var k :| k in todo;
        var job := jobs[k];
        ghost var before := Values();
        var moved := job.RebaseTo(epoch);
        if !moved {
          assert Values() == before;
          ghost var rest := Remaining(todo, k);
          RebaseStopsAfter(old(Values()), walk, before, k, rest, epoch);
          JoinWalk(walk, k, rest, todo, old(Values()));
          return false, walk + ([k] + rest);
        }
        assert Values() == before[k := before[k].(epoch := epoch)];
        RebaseOneAfter(old(Values()), walk, before, k, epoch);
        walk := walk + [k];
        todo := todo - {k};
      }
      ok := true;
    }

    /** Run one operation on its job. */
    method OnJob(op: JobOp, ghost pasts: map<nat, Past>) returns (reply: Reply)
      requires Separate() && WorldOk(World(Whole(), pasts)) && Permitted(Whole(), Call.OnJob(op))
      modifies this, jobs.Values
      ensures Separate() && jobs == old(jobs)
      ensures Applied(Whole(), reply) == Apply(old(Whole()), Call.OnJob(op))
    {
      hide WorldOk, Perform, JobOk, EnvOk, Keyed, LiveJob.Value, Permitted, Stranger;
      ghost var w := World(Whole(), pasts);
      var id := TargetOf(op);
      now := now + 1;
      assert Values() == old(Values());
      if id !in jobs {
        return Stranger(op);
      }
      ReadyToRun(w, id);
      var env := Env(config, policy, now);
      var job := jobs[id];
      reply := job.Execute(env, op, pasts[id]);
      assert Values() == old(Values())[id := job.Value()];
    }
  }

  // ---------------------------------------------------------------------------
  // Walks
  // ---------------------------------------------------------------------------

  lemma ReadyToRun(w: World, id: nat)
    requires WorldOk(w) && id in w.state.jobs
    ensures id in w.pasts && JobOk(w.state.config, w.state.policy, w.state.jobs[id], w.pasts[id])
    ensures EnvOk(EnvOf(Tick(w.state)))
    ensures w.state.jobs[id].step.Some? ==> Keyed(w.state.jobs[id].step.value.flows)
  {
    hide JobOk, ValidPolicy, Keyed;
    assert Entry(w.state, id, w.pasts[id]);
    EnvIsOk(w);
    WorldIsKeyed(w, id);
  }

  lemma NotRegistered(s: State, r: Registration)
    requires RegistrationError(s, r) == OK
    ensures JobIdFor(s, r) !in s.jobs
  {}

  lemma RebaseNothing(jobs: map<nat, Job>, epoch: nat)
    ensures RebaseEach(jobs, [], epoch) == Rebased(jobs, true)
  {}

  lemma RebaseOne(jobs: map<nat, Job>, k: nat, epoch: nat)
    requires k in jobs && jobs[k].epoch < epoch
    ensures RebaseEach(jobs, [k], epoch) == Rebased(jobs[k := jobs[k].(epoch := epoch)], true)
  {
    assert [k][1..] == [];
  }

  lemma RebaseStops(jobs: map<nat, Job>, k: nat, rest: seq<nat>, epoch: nat)
    requires k in jobs && jobs[k].epoch >= epoch
    ensures RebaseEach(jobs, [k] + rest, epoch) == Rebased(jobs, false)
  {}

  lemma {:induction false} RebaseAppend(jobs: map<nat, Job>, a: seq<nat>, b: seq<nat>, epoch: nat)
    requires RebaseEach(jobs, a, epoch).ok
    ensures RebaseEach(jobs, a + b, epoch) == RebaseEach(RebaseEach(jobs, a, epoch).jobs, b, epoch)
    decreases |a|
  {
    if a == [] {
      assert a + b == b;
    } else {
      assert (a + b)[1..] == a[1..] + b && (a + b)[0] == a[0];
      if a[0] !in jobs {
        RebaseAppend(jobs, a[1..], b, epoch);
      } else {
        RebaseAppend(jobs[a[0] := jobs[a[0]].(epoch := epoch)], a[1..], b, epoch);
      }
    }
  }

  lemma RebaseStopsAfter(jobs: map<nat, Job>, walk: seq<nat>, now: map<nat, Job>, k: nat, rest: seq<nat>, epoch: nat)
    requires RebaseEach(jobs, walk, epoch) == Rebased(now, true) && k in now && now[k].epoch >= epoch
    ensures RebaseEach(jobs, walk + ([k] + rest), epoch) == Rebased(now, false)
  {
    hide RebaseEach;
    RebaseStops(now, k, rest, epoch);
    RebaseAppend(jobs, walk, [k] + rest, epoch);
  }

  lemma RebaseOneAfter(jobs: map<nat, Job>, walk: seq<nat>, now: map<nat, Job>, k: nat, epoch: nat)
    requires RebaseEach(jobs, walk, epoch) == Rebased(now, true) && k in now && now[k].epoch < epoch
    ensures RebaseEach(jobs, walk + [k], epoch) == Rebased(now[k := now[k].(epoch := epoch)], true)
  {
    hide RebaseEach;
    RebaseOne(now, k, epoch);
    RebaseAppend(jobs, walk, [k], epoch);
  }

  ghost function Remaining(todo: set<nat>, k: nat): seq<nat> {
    SortedIds(todo - {k})
  }

  lemma JoinWalk(walk: seq<nat>, k: nat, rest: seq<nat>, todo: set<nat>, jobs: map<nat, Job>)
    requires Distinct(walk) && forall j :: j in walk <==> j in jobs && j !in todo
    requires todo <= jobs.Keys && k in todo && rest == Remaining(todo, k)
    ensures Walks(walk + ([k] + rest), jobs)
  {
    hide SortedIds;
    SortedIdsMembers(todo - {k});
    var all := walk + ([k] + rest);
    assert forall j :: j in all <==> j in walk || j == k || j in rest;
    forall i, j | 0 <= i < j < |all| ensures all[i] != all[j] {
      if i < |walk| <= j {
        assert all[i] in walk && (all[j] == k || all[j] in rest);
      } else if i == |walk| {
        assert all[j] in rest;
      }
    }
  }
}
