/** Finite sums over the live-flow and phase tables, the reference for every redundant counter. */
module Sums {
  import opened Model

  ghost function Total(m: map<nat, nat>): nat
    decreases |m|
  {
    if m == map[] then 0 else
    var k :| k in m;
    m[k] + Total(m - {k})
  }

  lemma {:induction false} TotalRemove(m: map<nat, nat>, k: nat)
    requires k in m
    ensures Total(m) == m[k] + Total(m - {k})
    decreases |m|
  {
    var j :| j in m && Total(m) == m[j] + Total(m - {j});
    if j != k {
      var mj, mk := m - {j}, m - {k};
      assert mj - {k} == mk - {j};
      TotalRemove(mj, k);
      TotalRemove(mk, j);
    }
  }

  lemma TotalPut(m: map<nat, nat>, k: nat, v: nat)
    ensures Total(m[k := v]) == v + Total(m - {k})
  {
    assert m[k := v] - {k} == m - {k};
    TotalRemove(m[k := v], k);
  }

  // ---------------------------------------------------------------------------
  // Flows
  // ---------------------------------------------------------------------------

  /** What is counted about a live flow. */
  datatype Weight = Count | Rate | Estimate | GroupRate(group: nat) | GroupCount(group: nat)
                  | PhaseCount(phase: nat) | PhaseEstimate(phase: nat)

  function Weigh(w: Weight, f: Flow): nat {
    match w
    case Count => 1
    case Rate => f.minBps
    case Estimate => f.bytesEstimate
    case GroupRate(g) => if f.group == g then f.minBps else 0
    case GroupCount(g) => if f.group == g then 1 else 0
    case PhaseCount(p) => if f.phase == p then 1 else 0
    case PhaseEstimate(p) => if f.phase == p then f.bytesEstimate else 0
  }

  function Weights(w: Weight, flows: map<nat, Flow>): map<nat, nat> {
    map k | k in flows :: Weigh(w, flows[k])
  }

  ghost function Sum(w: Weight, flows: map<nat, Flow>): nat {
    Total(Weights(w, flows))
  }

  lemma SumEmpty(w: Weight)
    ensures Sum(w, map[]) == 0
  {}

  lemma SumRemove(w: Weight, flows: map<nat, Flow>, k: nat)
    requires k in flows
    ensures Sum(w, flows) == Sum(w, flows - {k}) + Weigh(w, flows[k])
  {
    TotalRemove(Weights(w, flows), k);
    assert Weights(w, flows) - {k} == Weights(w, flows - {k});
  }

  lemma SumPut(w: Weight, flows: map<nat, Flow>, k: nat, f: Flow)
    ensures Sum(w, flows[k := f]) == Sum(w, flows - {k}) + Weigh(w, f)
  {
    TotalPut(Weights(w, flows), k, Weigh(w, f));
    assert Weights(w, flows)[k := Weigh(w, f)] == Weights(w, flows[k := f]);
    assert Weights(w, flows) - {k} == Weights(w, flows - {k});
  }

  lemma {:induction false} CountIsSize(flows: map<nat, Flow>)
    ensures Sum(Count, flows) == |flows|
    decreases |flows|
  {
    if flows != map[] {
      var k :| k in flows;
      SumRemove(Count, flows, k);
      CountIsSize(flows - {k});
    }
  }

  lemma SumAtLeast(w: Weight, flows: map<nat, Flow>, k: nat)
    requires k in flows
    ensures Weigh(w, flows[k]) <= Sum(w, flows)
  {
    SumRemove(w, flows, k);
  }

  /** A sum over no matching flow is zero, and a zero group count means no such flow. */
  lemma {:induction false} GroupCountZero(flows: map<nat, Flow>, g: nat)
    ensures Sum(GroupCount(g), flows) == 0 <==> forall k :: k in flows ==> flows[k].group != g
    decreases |flows|
  {
    if flows != map[] {
      var k :| k in flows;
      SumRemove(GroupCount(g), flows, k);
      GroupCountZero(flows - {k}, g);
      assert forall j :: j in flows <==> j == k || j in flows - {k};
    }
  }

  lemma {:induction false} SumZero(w: Weight, flows: map<nat, Flow>)
    requires forall k :: k in flows ==> Weigh(w, flows[k]) == 0
    ensures Sum(w, flows) == 0
    decreases |flows|
  {
    if flows != map[] {
      var k :| k in flows;
      SumRemove(w, flows, k);
      SumZero(w, flows - {k});
    }
  }

  /** One weight below another on every flow stays below in the sum. */
  lemma {:induction false} SumBelow(v: Weight, w: Weight, flows: map<nat, Flow>)
    requires forall k :: k in flows ==> Weigh(v, flows[k]) <= Weigh(w, flows[k])
    ensures Sum(v, flows) <= Sum(w, flows)
    decreases |flows|
  {
    if flows != map[] {
      var k :| k in flows;
      SumRemove(v, flows, k);
      SumRemove(w, flows, k);
      SumBelow(v, w, flows - {k});
    }
  }

  /** If every rate is bounded, so is the total. */
  lemma {:induction false} RateBound(flows: map<nat, Flow>, bound: nat)
    requires forall k :: k in flows ==> flows[k].minBps <= bound
    ensures Sum(Rate, flows) <= |flows| * bound
    decreases |flows|
  {
    hide Sum;
    if flows == map[] {
      SumEmpty(Rate);
    } else {
      var k :| k in flows;
      SumRemove(Rate, flows, k);
      assert |flows| == |flows - {k}| + 1;
      RateBound(flows - {k}, bound);
      Multiply(|flows - {k}|, bound);
    }
  }

  lemma Multiply(n: nat, bound: nat)
    ensures (n + 1) * bound == n * bound + bound
  {}

  // ---------------------------------------------------------------------------
  // Phases
  // ---------------------------------------------------------------------------

  /** What is counted about a phase's accounting. */
  datatype PhaseWeight = Admitted | Deferred | Throttled | Rejected | Completions | Cancellations | BytesDone

  function WeighPhase(w: PhaseWeight, a: PhaseAcc): nat {
    match w
    case Admitted => a.admitted
    case Deferred => a.deferred
    case Throttled => a.throttled
    case Rejected => a.rejected
    case Completions => a.completed
    case Cancellations => a.cancelled
    case BytesDone => a.bytesCompleted
  }

  function PhaseWeights(w: PhaseWeight, accs: map<nat, PhaseAcc>): map<nat, nat> {
    map k | k in accs :: WeighPhase(w, accs[k])
  }

  ghost function PhaseSum(w: PhaseWeight, accs: map<nat, PhaseAcc>): nat {
    Total(PhaseWeights(w, accs))
  }

  lemma PhaseSumRemove(w: PhaseWeight, accs: map<nat, PhaseAcc>, k: nat)
    requires k in accs
    ensures PhaseSum(w, accs) == PhaseSum(w, accs - {k}) + WeighPhase(w, accs[k])
  {
    TotalRemove(PhaseWeights(w, accs), k);
    assert PhaseWeights(w, accs) - {k} == PhaseWeights(w, accs - {k});
  }

  lemma PhaseSumPut(w: PhaseWeight, accs: map<nat, PhaseAcc>, k: nat, a: PhaseAcc)
    ensures PhaseSum(w, accs[k := a]) == PhaseSum(w, accs - {k}) + WeighPhase(w, a)
  {
    TotalPut(PhaseWeights(w, accs), k, WeighPhase(w, a));
    assert PhaseWeights(w, accs)[k := WeighPhase(w, a)] == PhaseWeights(w, accs[k := a]);
    assert PhaseWeights(w, accs) - {k} == PhaseWeights(w, accs - {k});
  }
}
