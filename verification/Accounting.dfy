/** Charging, closing and throttling one flow keep every redundant counter equal to its sum. */
module Accounting {
  import opened Model
  import opened Sums
  import opened Traffic
  import opened Invariants

  // ---------------------------------------------------------------------------
  // Removing a flow
  // ---------------------------------------------------------------------------

  lemma ReleaseKeepsLoad(exact: bool, load: Load, flows: map<nat, Flow>, k: nat)
    requires LoadOk(exact, load, flows) && k in flows
    ensures LoadOk(exact, Release(load, flows[k]), flows - {k})
  {
    hide Sum;
    var f := flows[k];
    forall g ensures GroupLoadOk(exact, Release(load, f), flows - {k}, g) {
      assert GroupLoadOk(exact, load, flows, g) && GroupLoadOk(exact, load, flows, f.group);
      SumRemove(GroupRate(g), flows, k);
      SumRemove(GroupCount(g), flows, k);
      SumRemove(GroupRate(f.group), flows, k);
      SumRemove(GroupCount(f.group), flows, k);
    }
  }

  lemma SettleKeepsTotals(wide: bool, a: StepAcc, phaseFlows: map<nat, nat>, flows: map<nat, Flow>, k: nat,
                          completed: bool, bytes: nat)
    requires TotalsOk(wide, a, phaseFlows, flows) && k in flows
    ensures TotalsOk(wide, SettleStep(a, flows[k], completed, bytes), Fewer(phaseFlows, flows[k].phase), flows - {k})
  {
    hide Sum;
    SumRemove(Count, flows, k);
    SumRemove(Rate, flows, k);
    forall p | p in phaseFlows
      ensures Fewer(phaseFlows, flows[k].phase)[p] == Sum(PhaseCount(p), flows - {k})
    {
      SumRemove(PhaseCount(p), flows, k);
    }
  }

  lemma BudgetReturns(c: Contract, committed: nat, live: nat, estimate: nat, bytes: nat)
    requires WithinBudget(c, committed, live + 1) && estimate <= committed && bytes <= c.maxBytesPerIntent
    ensures WithinBudget(c, committed - estimate + bytes, live)
  {
    assert (live + 1) * c.maxBytesPerIntent == live * c.maxBytesPerIntent + c.maxBytesPerIntent;
  }

  lemma BudgetFits(c: Contract, committed: nat, live: nat)
    requires WithinBudget(c, committed, live) && Bounded(c)
    ensures committed < WRAP64
  {}

  lemma SettleKeepsBytes(c: Contract, a: StepAcc, accs: map<nat, PhaseAcc>, flows: map<nat, Flow>, k: nat,
                         completed: bool, bytes: nat)
    requires Bounded(c) && BytesOk(c, a, accs, flows)
    requires k in flows && flows[k].phase in accs && bytes <= c.maxBytesPerIntent
    ensures var f := flows[k];
      BytesOk(c, SettleStep(a, f, completed, bytes), accs[f.phase := SettlePhase(accs[f.phase], f, completed, bytes)],
              flows - {k})
  {
    hide Sum, PhaseSum, WithinBudget, Bounded;
    var f := flows[k];
    var p, rest := f.phase, flows - {k};
    var settled := SettlePhase(accs[p], f, completed, bytes);
    var credit := if completed then bytes else 0;
    SumRemove(Count, flows, k);
    SumRemove(Estimate, flows, k);
    SumRemove(PhaseEstimate(p), flows, k);
    PhaseSumRemove(BytesDone, accs, p);
    PhaseSumPut(BytesDone, accs, p, settled);
    BudgetReturns(c, a.bytesCommitted, Sum(Count, rest), f.bytesEstimate, credit);
    BudgetFits(c, a.bytesCommitted - f.bytesEstimate + credit, Sum(Count, rest));
    EstimateByPhase(rest, p);
    forall q | q in accs && q != p ensures accs[q].bytesCommitted == accs[q].bytesCompleted + Sum(PhaseEstimate(q), rest)
    {
      SumRemove(PhaseEstimate(q), flows, k);
    }
  }

  lemma EstimateByPhase(flows: map<nat, Flow>, p: nat)
    ensures Sum(PhaseEstimate(p), flows) <= Sum(Estimate, flows)
  {
    SumBelow(PhaseEstimate(p), Estimate, flows);
  }

  lemma SettleKeepsCounts(a: StepAcc, seen: nat, limit: nat, live: nat, lost: nat, f: Flow, completed: bool, bytes: nat)
    requires CountsOk(a, seen, limit, live + 1, lost) && limit < WRAP32
    ensures CountsOk(SettleStep(a, f, completed, bytes), seen, limit, live, lost)
  {}

  lemma SettleKeepsPhaseCounts(a: StepAcc, accs: map<nat, PhaseAcc>, f: Flow, completed: bool, bytes: nat)
    requires PhaseCountsOk(a, accs) && f.phase in accs && a.completed + a.cancelled + 1 < WRAP32
    ensures PhaseCountsOk(SettleStep(a, f, completed, bytes),
                          accs[f.phase := SettlePhase(accs[f.phase], f, completed, bytes)])
  {
    hide PhaseSum;
    var settled := SettlePhase(accs[f.phase], f, completed, bytes);
    forall w
      ensures PhaseSum(w, accs[f.phase := settled]) + WeighPhase(w, accs[f.phase])
           == PhaseSum(w, accs) + WeighPhase(w, settled)
    {
      PhaseSumRemove(w, accs, f.phase);
      PhaseSumPut(w, accs, f.phase, settled);
    }
  }

  // ---------------------------------------------------------------------------
  // Adding a flow
  // ---------------------------------------------------------------------------

  lemma SumAdd(w: Weight, flows: map<nat, Flow>, k: nat, f: Flow)
    requires k !in flows
    ensures Sum(w, flows[k := f]) == Sum(w, flows) + Weigh(w, f)
  {
    SumPut(w, flows, k, f);
    assert flows - {k} == flows;
  }

  lemma AcquireKeepsLoad(exact: bool, load: Load, flows: map<nat, Flow>, k: nat, f: Flow)
    requires LoadOk(exact, load, flows) && k !in flows
    requires Get(load.bps, f.group) + f.minBps <= MAX_RATE_BPS && |flows| + 1 < WRAP32
    ensures LoadOk(exact, Acquire(load, f), flows[k := f])
  {
    hide GroupLoadOk;
    var grown := flows[k := f];
    forall g ensures GroupLoadOk(exact, Acquire(load, f), grown, g) {
      AcquireKeepsGroup(exact, load, flows, k, f, g);
    }
  }

  lemma AcquireKeepsGroup(exact: bool, load: Load, flows: map<nat, Flow>, k: nat, f: Flow, g: nat)
    requires GroupLoadOk(exact, load, flows, g) && GroupLoadOk(exact, load, flows, f.group) && k !in flows
    requires Get(load.bps, f.group) + f.minBps <= MAX_RATE_BPS && |flows| + 1 < WRAP32
    ensures GroupLoadOk(exact, Acquire(load, f), flows[k := f], g)
  {
    hide Sum;
    SumAdd(GroupRate(g), flows, k, f);
    SumAdd(GroupCount(g), flows, k, f);
    SumBelow(GroupCount(f.group), Count, flows);
    CountIsSize(flows);
  }

  lemma AdmitKeepsTotals(wide: bool, step: Step, f: Flow)
    requires TotalsOk(wide, step.acc, step.phaseFlows, step.flows)
    requires f.intent !in step.flows && |step.flows| + 1 < WRAP32
    requires wide ==> Sum(Rate, step.flows[f.intent := f]) < WRAP64
    ensures var s := AdmitStep(step, f); TotalsOk(wide, s.acc, s.phaseFlows, s.flows)
  {
    hide Sum;
    var flows, k := step.flows, f.intent;
    CountIsSize(flows);
    SumAdd(Count, flows, k, f);
    SumAdd(Rate, flows, k, f);
    forall p | p in step.phaseFlows
      ensures AdmitStep(step, f).phaseFlows[p] == Sum(PhaseCount(p), flows[k := f])
    {
      SumAdd(PhaseCount(p), flows, k, f);
      SumBelow(PhaseCount(p), Count, flows);
    }
  }

  lemma BudgetTaken(c: Contract, committed: nat, live: nat)
    requires committed <= c.maxBytesPerStep && live <= c.maxActiveFlows
    ensures WithinBudget(c, committed, live)
  {
    Mul(live, c.maxActiveFlows, c.maxBytesPerIntent);
  }

  lemma Mul(a: nat, b: nat, x: nat)
    requires a <= b
    ensures a * x <= b * x
  {}

  lemma AdmitKeepsBytes(c: Contract, step: Step, f: Flow)
    requires Bounded(c) && BytesOk(c, step.acc, step.phaseAcc, step.flows)
    requires f.intent !in step.flows && f.phase in step.phaseAcc
    requires step.acc.bytesCommitted + f.bytesEstimate <= c.maxBytesPerStep
    requires |step.flows| < c.maxActiveFlows
    ensures var s := AdmitStep(step, f); BytesOk(c, s.acc, s.phaseAcc, s.flows)
  {
    hide Sum, PhaseSum, WithinBudget, Bounded;
    var flows, k, accs := step.flows, f.intent, step.phaseAcc;
    var s := AdmitStep(step, f);
    CountIsSize(flows);
    SumAdd(Count, flows, k, f);
    SumAdd(Estimate, flows, k, f);
    BudgetTaken(c, step.acc.bytesCommitted + f.bytesEstimate, Sum(Count, flows) + 1);
    BudgetFits(c, step.acc.bytesCommitted + f.bytesEstimate, Sum(Count, flows) + 1);
    EstimateByPhase(flows, f.phase);
    PhaseSumRemove(BytesDone, accs, f.phase);
    PhaseSumPut(BytesDone, accs, f.phase, s.phaseAcc[f.phase]);
    forall p | p in s.phaseAcc
      ensures s.phaseAcc[p].bytesCommitted == s.phaseAcc[p].bytesCompleted + Sum(PhaseEstimate(p), s.flows)
    {
      SumAdd(PhaseEstimate(p), flows, k, f);
    }
  }

  lemma AdmitKeepsPhaseCounts(step: Step, f: Flow)
    requires PhaseCountsOk(step.acc, step.phaseAcc) && f.phase in step.phaseAcc
    ensures var s := AdmitStep(step, f); PhaseCountsOk(s.acc, s.phaseAcc)
  {
    hide PhaseSum;
    var accs, s := step.phaseAcc, AdmitStep(step, f);
    forall w ensures w != BytesDone ==> PhaseSum(w, s.phaseAcc) == PhaseSum(w, accs) {
      PhaseSumRemove(w, accs, f.phase);
      PhaseSumPut(w, accs, f.phase, s.phaseAcc[f.phase]);
    }
  }

  // ---------------------------------------------------------------------------
  // Throttling a flow
  // ---------------------------------------------------------------------------

  lemma SumReplace(w: Weight, flows: map<nat, Flow>, k: nat, f: Flow)
    requires k in flows
    ensures Sum(w, flows[k := f]) + Weigh(w, flows[k]) == Sum(w, flows) + Weigh(w, f)
  {
    SumRemove(w, flows, k);
    SumPut(w, flows, k, f);
  }

  /** A lower rate for the same flow. */
  ghost predicate Reduced(f: Flow, g: Flow) {
    && g.intent == f.intent && g.group == f.group && g.phase == f.phase && g.bytesEstimate == f.bytesEstimate
    && g.minBps <= f.minBps
  }

  lemma ThrottleKeepsLoad(exact: bool, load: Load, flows: map<nat, Flow>, k: nat, g: Flow)
    requires LoadOk(exact, load, flows) && k in flows && Reduced(flows[k], g)
    ensures LoadOk(exact, Lower(load, g.group, flows[k].minBps - g.minBps), flows[k := g])
  {
    hide GroupLoadOk;
    var reduced := flows[k := g];
    var lower := Lower(load, g.group, flows[k].minBps - g.minBps);
    forall h ensures GroupLoadOk(exact, lower, reduced, h) {
      ThrottleKeepsGroup(exact, load, flows, k, g, h);
    }
  }

  lemma ThrottleKeepsGroup(exact: bool, load: Load, flows: map<nat, Flow>, k: nat, g: Flow, h: nat)
    requires k in flows && Reduced(flows[k], g)
    requires GroupLoadOk(exact, load, flows, h) && GroupLoadOk(exact, load, flows, g.group)
    ensures GroupLoadOk(exact, Lower(load, g.group, flows[k].minBps - g.minBps), flows[k := g], h)
  {
    hide Sum;
    SumReplace(GroupRate(h), flows, k, g);
    SumReplace(GroupCount(h), flows, k, g);
    SumAtLeast(GroupRate(g.group), flows, k);
  }

  lemma ThrottleKeepsTotals(wide: bool, a: StepAcc, phaseFlows: map<nat, nat>, flows: map<nat, Flow>, k: nat, g: Flow)
    requires TotalsOk(wide, a, phaseFlows, flows) && k in flows && Reduced(flows[k], g)
    ensures TotalsOk(wide, a.(activeMin := Sub(a.activeMin, flows[k].minBps - g.minBps)), phaseFlows, flows[k := g])
  {
    hide Sum;
    SumReplace(Count, flows, k, g);
    SumReplace(Rate, flows, k, g);
    SumAtLeast(Rate, flows, k);
    forall p | p in phaseFlows ensures Sum(PhaseCount(p), flows[k := g]) == Sum(PhaseCount(p), flows) {
      SumReplace(PhaseCount(p), flows, k, g);
    }
  }

  lemma ThrottleKeepsBytes(c: Contract, a: StepAcc, accs: map<nat, PhaseAcc>, flows: map<nat, Flow>, k: nat, g: Flow,
                           activeMin: nat)
    requires BytesOk(c, a, accs, flows) && k in flows && Reduced(flows[k], g)
    ensures BytesOk(c, a.(activeMin := activeMin), accs, flows[k := g])
  {
    hide Sum, PhaseSum;
    SumReplace(Count, flows, k, g);
    SumReplace(Estimate, flows, k, g);
    forall p ensures Sum(PhaseEstimate(p), flows[k := g]) == Sum(PhaseEstimate(p), flows) {
      SumReplace(PhaseEstimate(p), flows, k, g);
    }
  }

  // ---------------------------------------------------------------------------
  // Counting an outcome
  // ---------------------------------------------------------------------------

  lemma CountKeepsCounts(a: StepAcc, seen: nat, limit: nat, live: nat, lost: nat, outcome: Outcome)
    requires CountsOk(a, seen, limit, live, lost) && limit < WRAP32
    requires outcome == Reject || (outcome == Defer && seen < limit)
    ensures CountsOk(CountStep(a, outcome), seen + 1, limit, live, lost)
  {
    Successor(seen - (a.admitted + a.deferred + a.throttled));
  }

  lemma AdmitKeepsCounts(a: StepAcc, seen: nat, limit: nat, live: nat, lost: nat)
    requires CountsOk(a, seen, limit, live, lost) && limit < WRAP32 && seen < limit
    ensures CountsOk(CountStep(a, Admit), seen + 1, limit, live + 1, lost)
  {}

  lemma Successor(n: nat)
    ensures (n + 1) % WRAP32 == if n % WRAP32 + 1 < WRAP32 then n % WRAP32 + 1 else 0
  {}

  lemma CountKeepsBytes(c: Contract, a: StepAcc, accs: map<nat, PhaseAcc>, flows: map<nat, Flow>, p: nat, outcome: Outcome)
    requires BytesOk(c, a, accs, flows) && p in accs
    ensures BytesOk(c, CountStep(a, outcome), accs[p := CountPhase(accs[p], outcome)], flows)
  {
    hide Sum, PhaseSum;
    PhaseSumRemove(BytesDone, accs, p);
    PhaseSumPut(BytesDone, accs, p, CountPhase(accs[p], outcome));
  }

  lemma CountKeepsPhaseCounts(a: StepAcc, accs: map<nat, PhaseAcc>, p: nat, outcome: Outcome)
    requires PhaseCountsOk(a, accs) && p in accs
    requires a.admitted + a.deferred + a.throttled + 1 < WRAP32
    ensures PhaseCountsOk(CountStep(a, outcome), accs[p := CountPhase(accs[p], outcome)])
  {
    hide PhaseSum;
    var counted := CountPhase(accs[p], outcome);
    forall w
      ensures PhaseSum(w, accs[p := counted]) == PhaseSum(w, accs - {p}) + WeighPhase(w, counted)
      ensures PhaseSum(w, accs) == PhaseSum(w, accs - {p}) + WeighPhase(w, accs[p])
    {
      PhaseSumRemove(w, accs, p);
      PhaseSumPut(w, accs, p, counted);
    }
    RejectionsWrap(PhaseSum(Rejected, accs - {p}), accs[p].rejected);
    Successor(PhaseSum(Rejected, accs));
  }

  /** A wrapped phase counter still has the right sum, modulo the counter's width. */
  lemma RejectionsWrap(others: nat, n: nat)
    requires n < WRAP32
    ensures (others + Inc32(n)) % WRAP32 == (others + n + 1) % WRAP32
  {}

  // ---------------------------------------------------------------------------
  // Retained records
  // ---------------------------------------------------------------------------

  lemma PushKeepsDecisions(d: Fifo<Decision>, cap: nat, first: nat, next: nat, v: Decision)
    requires DecisionsOk(d, cap, first, next)
    ensures DecisionsOk(Push(d, cap, next, v), cap, first, next + 1)
    ensures forall k :: k in Push(d, cap, next, v).items ==>
              Push(d, cap, next, v).items[k] == if k == next then v else d.items[k]
  {
    var order := d.order + [next];
    var low := next - |d.order|;
    var evicted := if |order| > cap then |order| - cap else 0;
    assert forall i :: 0 <= i < |order| ==> order[i] == low + i;
    forall k: nat ensures k in order[..evicted] <==> low <= k < low + evicted {
      if low <= k < low + evicted {
        assert order[..evicted][k - low] == k;
      }
    }
  }

  lemma DistinctSplit(s: seq<nat>, n: nat)
    requires Distinct(s) && n <= |s|
    ensures Distinct(s[n..])
    ensures forall k :: k in s[n..] <==> k in s && k !in s[..n]
  {
    assert s == s[..n] + s[n..];
    forall k | k in s[n..] ensures k !in s[..n] {
      var b :| 0 <= b < |s[n..]| && s[n..][b] == k;
      assert forall a :: 0 <= a < n ==> s[a] != s[n + b];
    }
  }

  ghost predicate Indexed<T>(f: Fifo<T>) {
    && Distinct(f.order)
    && forall k :: k in f.order <==> k in f.items
  }

  /** Eviction keeps the order and the table in agreement. */
  lemma PushKeepsIndex<T>(f: Fifo<T>, cap: nat, id: nat, v: T)
    requires Indexed(f) && id !in f.items
    ensures var p := Push(f, cap, id, v);
      && Indexed(p) && |p.order| <= cap
      && (forall k :: k in p.items ==> k == id || k in f.items)
      && (forall k :: k in p.items ==> p.items[k] == if k == id then v else f.items[k])
      && (cap > 0 ==> id in p.items)
  {
    var order := f.order + [id];
    var evicted := if |order| > cap then |order| - cap else 0;
    DistinctAppend(f.order, id);
    DistinctSplit(order, evicted);
    hide Distinct;
    assert forall j :: j in order <==> j in f.items || j == id;
    if cap > 0 {
      assert order[evicted..][|order| - evicted - 1] == id;
    }
  }

  lemma PushKeepsReceipts(r: Fifo<Receipt>, cap: nat, flows: map<nat, Flow>, next: nat, k: nat, v: Receipt)
    requires ReceiptsOk(r, cap, flows, next) && k in flows && k < next && v.intent == k
    ensures ReceiptsOk(Push(r, cap, k, v), cap, flows - {k}, next)
    ensures cap > 0 ==> k in Push(r, cap, k, v).items && Push(r, cap, k, v).items[k] == v
  {
    PushKeepsIndex(r, cap, k, v);
    hide Push, Distinct;
  }

  lemma DistinctAppend(s: seq<nat>, k: nat)
    requires Distinct(s) && k !in s
    ensures Distinct(s + [k])
  {}
}
