/** Capacity arbitration: which live flows, if any, are displaced so that a request fits. */
module Arbitration {
  import opened Model
  import opened Policies
  import opened Sums

  // ---------------------------------------------------------------------------
  // Eligible flows, least urgent first
  // ---------------------------------------------------------------------------

  /** May `f` be displaced by a request of this group and priority? Larger numbers are less urgent. */
  predicate Eligible(classes: seq<ClassSpec>, f: Flow, group: nat, priority: nat) {
    && f.group == group
    && f.priority > priority
    && var spec := Find(classes, f.cls);
       spec.Some? && spec.value.preemptible && !spec.value.barrierCritical
  }

  function Candidates(classes: seq<ClassSpec>, flows: map<nat, Flow>, group: nat, priority: nat): map<nat, Flow> {
    map k | k in flows && Eligible(classes, flows[k], group, priority) :: flows[k]
  }

  predicate Before(a: Flow, b: Flow) {
    a.priority > b.priority || (a.priority == b.priority && a.intent < b.intent)
  }

  /** Every flow is stored under its own intent id. */
  ghost predicate Keyed(flows: map<nat, Flow>) {
    forall k :: k in flows ==> flows[k].intent == k
  }

  ghost predicate Ranked(flows: map<nat, Flow>, r: seq<nat>) {
    && (forall k :: k in r ==> k in flows)
    && forall i, j :: 0 <= i < j < |r| ==> Before(flows[r[i]], flows[r[j]])
  }

  lemma {:induction false} FindFirst(flows: map<nat, Flow>) returns (k: nat)
    requires flows != map[] && Keyed(flows)
    ensures k in flows && forall j :: j in flows && j != k ==> Before(flows[k], flows[j])
    decreases |flows|
  {
    k :| k in flows;
    var rest := flows - {k};
    assert forall j :: j in flows ==> j == k || j in rest;
    if rest != map[] {
      var y := FindFirst(rest);
      if Before(flows[y], flows[k]) {
        k := y;
      } else {
        forall j | j in rest ensures Before(flows[k], flows[j]) {
          assert Before(flows[k], flows[y]) && rest[j] == flows[j];
          assert j != y ==> Before(rest[y], rest[j]);
        }
      }
    }
  }

  ghost predicate IsFirst(flows: map<nat, Flow>, k: nat) {
    k in flows && forall j :: j in flows && j != k ==> Before(flows[k], flows[j])
  }

  ghost function First(flows: map<nat, Flow>): (k: nat)
    requires flows != map[] && Keyed(flows)
    ensures IsFirst(flows, k)
  {
    FirstExists(flows);
    var k :| IsFirst(flows, k);
    k
  }

  lemma FirstExists(flows: map<nat, Flow>)
    requires flows != map[] && Keyed(flows)
    ensures exists k :: IsFirst(flows, k)
  {
    var k := FindFirst(flows);
    assert IsFirst(flows, k);
  }

  /** The candidates sorted by priority, then by intent. */
  ghost function Ranking(flows: map<nat, Flow>): seq<nat>
    decreases |flows|
  {
    if flows == map[] || !Keyed(flows) then [] else
    var k := First(flows);
    [k] + Ranking(flows - {k})
  }

  lemma {:induction false} RankingRanks(flows: map<nat, Flow>)
    requires Keyed(flows)
    ensures Ranked(flows, Ranking(flows))
    ensures forall k :: k in flows <==> k in Ranking(flows)
    decreases |flows|
  {
    if flows != map[] {
      var k := First(flows);
      RankingRanks(flows - {k});
      RankedCons(flows, k, Ranking(flows - {k}));
      assert forall j :: j in flows <==> j == k || j in flows - {k};
    }
  }

  lemma RankedCons(flows: map<nat, Flow>, k: nat, tail: seq<nat>)
    requires IsFirst(flows, k) && Ranked(flows - {k}, tail)
    ensures Ranked(flows, [k] + tail)
  {
    hide Before;
    assert forall j :: j in tail ==> j in flows - {k};
    assert forall j :: 0 <= j < |tail| ==> tail[j] in tail;
    forall j | 0 <= j < |tail| ensures Before(flows[k], flows[tail[j]]) {}
    forall i, j | 0 <= i < j < |tail| ensures Before(flows[tail[i]], flows[tail[j]]) {
      assert (flows - {k})[tail[i]] == flows[tail[i]];
    }
  }

  /** A ranked sequence is determined by its members. */
  lemma {:induction false} RankedUnique(flows: map<nat, Flow>, a: seq<nat>, b: seq<nat>)
    requires Keyed(flows) && Ranked(flows, a) && Ranked(flows, b)
    requires forall k :: k in a <==> k in b
    ensures a == b
    decreases |a|
  {
    assert a != [] ==> a[0] in b;
    assert b != [] ==> b[0] in a;
    if a != [] && b != [] {
      assert a[0] == b[0];
      forall k ensures k in a[1..] <==> k in b[1..] {
        assert k in a[1..] <==> k in a && k != a[0];
        assert k in b[1..] <==> k in b && k != b[0];
      }
      RankedUnique(flows, a[1..], b[1..]);
      assert a == [a[0]] + a[1..] && b == [b[0]] + b[1..];
    }
  }

  // ---------------------------------------------------------------------------
  // How many must go
  // ---------------------------------------------------------------------------

  function RateOf(flows: map<nat, Flow>, k: nat): nat {
    if k in flows then flows[k].minBps else 0
  }

  /** The rate released by closing the listed flows. */
  function Freed(flows: map<nat, Flow>, ids: seq<nat>): nat
    decreases |ids|
  {
    if ids == [] then 0 else RateOf(flows, ids[0]) + Freed(flows, ids[1..])
  }

  /** Take flows in rank order until the need is met. */
  function Victims(flows: map<nat, Flow>, ranking: seq<nat>, available: nat, need: nat): seq<nat>
    decreases |ranking|
  {
    if available >= need || ranking == [] then []
    else [ranking[0]] + Victims(flows, ranking[1..], available + RateOf(flows, ranking[0]), need)
  }

  /** The victims are the shortest prefix of the ranking that meets the need, or all of it. */
  lemma {:induction false} VictimsShortestPrefix(flows: map<nat, Flow>, ranking: seq<nat>, available: nat, need: nat)
    ensures var v := Victims(flows, ranking, available, need);
      && |v| <= |ranking| && v == ranking[..|v|]
      && (available + Freed(flows, v) >= need || v == ranking)
      && forall n :: 0 <= n < |v| ==> available + Freed(flows, ranking[..n]) < need
    decreases |ranking|
  {
    if available < need && ranking != [] {
      var head, tail := ranking[0], ranking[1..];
      var more := available + RateOf(flows, head);
      VictimsShortestPrefix(flows, tail, more, need);
      var w := Victims(flows, tail, more, need);
      var v := [head] + w;
      assert v[1..] == w;
      assert ranking == [head] + tail;
      assert v == ranking[..|v|];
      forall n | 0 <= n < |v| ensures available + Freed(flows, ranking[..n]) < need {
        if n > 0 {
          assert ranking[..n] == [head] + tail[..n - 1];
          assert ranking[..n][1..] == tail[..n - 1];
        }
      }
    }
  }

  lemma {:induction false} FreedPrefix(flows: map<nat, Flow>, ids: seq<nat>, n: nat)
    requires n <= |ids|
    ensures Freed(flows, ids[..n]) <= Freed(flows, ids)
    decreases |ids|
  {
    if n > 0 {
      assert ids[..n][1..] == ids[1..][..n - 1];
      FreedPrefix(flows, ids[1..], n - 1);
    }
  }

  /** Closing all of a set of flows frees the sum of their rates. */
  lemma {:induction false} FreedIsSum(flows: map<nat, Flow>, ids: seq<nat>, chosen: map<nat, Flow>)
    requires forall k :: k in ids ==> k in flows
    requires forall i, j :: 0 <= i < j < |ids| ==> ids[i] != ids[j]
    requires forall k :: k in chosen <==> k in ids
    requires forall k :: k in chosen ==> chosen[k] == flows[k]
    ensures Freed(flows, ids) == Sum(Rate, chosen)
    decreases |ids|
  {
    if ids == [] {
      assert chosen == map[];
    } else {
      assert ids[0] in ids;
      SumRemove(Rate, chosen, ids[0]);
      assert forall k :: k in ids[1..] ==> k in ids;
      forall k ensures k in chosen - {ids[0]} <==> k in ids[1..] {
        assert k in ids <==> k == ids[0] || k in ids[1..];
      }
      FreedIsSum(flows, ids[1..], chosen - {ids[0]});
    }
  }

  // ---------------------------------------------------------------------------
  // The decision
  // ---------------------------------------------------------------------------

  datatype Arbitrated = NoEvidence | NoCapacity | Granted(minBps: nat, maxBps: nat, victims: seq<nat>)

  ghost function Arbitrate(p: Policy, links: seq<Link>, used: nat, flows: map<nat, Flow>, group: nat,
                           priority: nat, minBps: nat, maxBps: nat): Arbitrated {
    var link := FindLink(links, group);
    if link.None? || link.value.evidence == Unsupported then NoEvidence else
    var free := Sub(link.value.Available(), used);
    var candidates := Candidates(p.classes, flows, group, priority);
    var ranking := if minBps > free && p.allowPreemption then Ranking(candidates) else [];
    var victims := Victims(flows, ranking, free, minBps);
    var available := free + Freed(flows, victims);
    if minBps <= available then Granted(minBps, Max(minBps, Min(maxBps, available)), victims) else NoCapacity
  }

  ghost predicate Usable(links: seq<Link>, group: nat) {
    var link := FindLink(links, group);
    link.Some? && link.value.evidence != Unsupported
  }

  /** A grant displaces the shortest sufficient prefix of the ranked eligible flows, nothing more. */
  lemma GrantIsMinimal(p: Policy, links: seq<Link>, used: nat, flows: map<nat, Flow>, group: nat,
                       priority: nat, minBps: nat, maxBps: nat)
    requires Keyed(flows)
    requires Arbitrate(p, links, used, flows, group, priority, minBps, maxBps).Granted?
    ensures var a := Arbitrate(p, links, used, flows, group, priority, minBps, maxBps);
      var ranking := Ranking(Candidates(p.classes, flows, group, priority));
      var free := Sub(FindLink(links, group).value.Available(), used);
      && Usable(links, group)
      && a.minBps == minBps <= a.maxBps <= Max(minBps, maxBps)
      && (a.victims != [] ==> p.allowPreemption)
      && |a.victims| <= |ranking| && a.victims == ranking[..|a.victims|]
      && (forall k :: k in a.victims ==> k in flows && Eligible(p.classes, flows[k], group, priority))
      && free + Freed(flows, a.victims) >= minBps
      && forall n :: 0 <= n < |a.victims| ==> free + Freed(flows, a.victims[..n]) < minBps
  {
    hide Before, Ranked, Eligible, Ranking;
    var candidates := Candidates(p.classes, flows, group, priority);
    var free := Sub(FindLink(links, group).value.Available(), used);
    var ranking := Ranking(candidates);
    RankingRanks(candidates);
    if minBps > free && p.allowPreemption {
      VictimsShortestPrefix(flows, ranking, free, minBps);
      var v := Victims(flows, ranking, free, minBps);
      assert forall n :: 0 <= n < |v| ==> v[..n] == ranking[..n];
      assert forall k :: k in v ==> k in ranking;
    } else {
      assert ranking[..0] == [];
    }
  }

  /** With usable evidence a request is refused exactly when all that may be displaced is not enough. */
  lemma RefusalIsForced(p: Policy, links: seq<Link>, used: nat, flows: map<nat, Flow>, group: nat,
                        priority: nat, minBps: nat, maxBps: nat)
    requires Keyed(flows) && Usable(links, group)
    ensures var a := Arbitrate(p, links, used, flows, group, priority, minBps, maxBps);
      var free := Sub(FindLink(links, group).value.Available(), used);
      var displaceable :=
        if p.allowPreemption then Sum(Rate, Candidates(p.classes, flows, group, priority)) else 0;
      a.NoCapacity? <==> free + displaceable < minBps
  {
    var candidates := Candidates(p.classes, flows, group, priority);
    var free := Sub(FindLink(links, group).value.Available(), used);
    RankingRanks(candidates);
    var ranking := Ranking(candidates);
    RankedDistinct(candidates, ranking);
    FreedIsSum(flows, ranking, candidates);
    VictimsShortestPrefix(flows, ranking, free, minBps);
    FreedPrefix(flows, ranking, |Victims(flows, ranking, free, minBps)|);
  }

  lemma RankedDistinct(flows: map<nat, Flow>, r: seq<nat>)
    requires Ranked(flows, r)
    ensures forall i, j :: 0 <= i < j < |r| ==> r[i] != r[j]
  {
    forall i, j | 0 <= i < j < |r| ensures r[i] != r[j] {
      assert Before(flows[r[i]], flows[r[j]]);
    }
  }

  lemma {:induction false} FreedSame(a: map<nat, Flow>, b: map<nat, Flow>, ids: seq<nat>)
    requires forall k :: k in ids ==> k in a && k in b && a[k] == b[k]
    ensures Freed(a, ids) == Freed(b, ids)
    decreases |ids|
  {
    if ids != [] {
      assert ids[0] in ids;
      assert forall k :: k in ids[1..] ==> k in ids;
      FreedSame(a, b, ids[1..]);
    }
  }

  /** A request more urgent than nothing displaces nothing. */
  lemma WorstPriorityDisplacesNothing(p: Policy, links: seq<Link>, used: nat, flows: map<nat, Flow>, group: nat,
                                      priority: nat, minBps: nat, maxBps: nat)
    requires Keyed(flows) && forall k :: k in flows ==> flows[k].priority <= priority
    requires Arbitrate(p, links, used, flows, group, priority, minBps, maxBps).Granted?
    ensures Arbitrate(p, links, used, flows, group, priority, minBps, maxBps).victims == []
  {
    hide Arbitrate, Ranking;
    var v := Arbitrate(p, links, used, flows, group, priority, minBps, maxBps).victims;
    assert v != [] ==> v[0] in v;
    assert forall k :: k in flows ==> !Eligible(p.classes, flows[k], group, priority);
    GrantIsMinimal(p, links, used, flows, group, priority, minBps, maxBps);
  }

  // ---------------------------------------------------------------------------
  // The program's loops
  // ---------------------------------------------------------------------------

  /** Place `k` by the sort order among flows already placed. */
  function Place(flows: map<nat, Flow>, k: nat, r: seq<nat>): seq<nat>
    requires k in flows && forall j :: j in r ==> j in flows
    decreases |r|
  {
    if r == [] || Before(flows[k], flows[r[0]]) then [k] + r else [r[0]] + Place(flows, k, r[1..])
  }

  lemma {:induction false} PlaceRanks(flows: map<nat, Flow>, k: nat, r: seq<nat>)
    requires Keyed(flows) && Ranked(flows, r) && k in flows && k !in r
    ensures Ranked(flows, Place(flows, k, r))
    ensures forall j :: j in Place(flows, k, r) <==> j == k || j in r
    decreases |r|
  {
    if r != [] && !Before(flows[k], flows[r[0]]) {
      assert r[0] in r;
      var rest := Place(flows, k, r[1..]);
      PlaceRanks(flows, k, r[1..]);
      assert forall j :: j in r <==> j == r[0] || j in r[1..];
      forall i | 0 <= i < |rest| ensures Before(flows[r[0]], flows[rest[i]]) {
        assert rest[i] in rest;
      }
    }
  }

  /** Collect the candidates from a table walked in any order, and sort them. */
  method Rank(p: Policy, flows: map<nat, Flow>, group: nat, priority: nat) returns (ranking: seq<nat>)
    requires Keyed(flows)
    ensures ranking == Ranking(Candidates(p.classes, flows, group, priority))
  {
    ghost var candidates := Candidates(p.classes, flows, group, priority);
    ranking := [];
    var todo := flows.Keys;
    while todo != {}
      invariant todo <= flows.Keys
      invariant forall k :: k in ranking <==> k in candidates && k !in todo
      invariant Ranked(flows, ranking)
      decreases |todo|
    {
      var k :| k in todo;
      if Eligible(p.classes, flows[k], group, priority) {
        PlaceRanks(flows, k, ranking);
        ranking := Place(flows, k, ranking);
      }
      todo := todo - {k};
    }
    RankingRanks(candidates);
    assert Ranked(flows, Ranking(candidates));
    RankedUnique(flows, ranking, Ranking(candidates));
  }

  /** The program's arbitration, in 64-bit arithmetic. The result does not depend on how the flow
      table is walked, and when no rate exceeds the largest there is nothing wraps. */
  method ArbitrateCapacity(p: Policy, links: seq<Link>, used: nat, flows: map<nat, Flow>, group: nat,
                           priority: nat, minBps: nat, maxBps: nat) returns (r: Arbitrated)
    requires Keyed(flows) && LinksAscend(links)
    requires minBps <= MAX_RATE_BPS && forall k :: k in flows ==> flows[k].minBps <= MAX_RATE_BPS
    requires forall l :: l in links ==> l.capacity <= MAX_RATE_BPS
    ensures r == Arbitrate(p, links, used, flows, group, priority, minBps, maxBps)
  {
    hide Find, Candidates, Ranking, Ranked, Eligible;
    var link := LowerBound(links, group);
    if link.None? || link.value.evidence == Unsupported {
      return NoEvidence;
    }
    var capacity := link.value.Available();
    var available := if capacity > used then capacity - used else 0;
    var victims := [];
    if minBps > available && p.allowPreemption {
      var ranking := Rank(p, flows, group, priority);
      RankingIsLive(p, flows, group, priority);
      victims, available := Displace(flows, ranking, available, minBps);
    } else {
      assert Freed(flows, []) == 0;
    }
    if minBps <= available {
      return Granted(minBps, Max(minBps, Min(maxBps, available)), victims);
    }
    return NoCapacity;
  }

  /** Walk the ranking until the request fits. */
  method Displace(flows: map<nat, Flow>, ranking: seq<nat>, free: nat, need: nat)
    returns (victims: seq<nat>, available: nat)
    requires forall k :: k in ranking ==> k in flows
    requires need <= MAX_RATE_BPS && free <= MAX_RATE_BPS && forall k :: k in ranking ==> flows[k].minBps <= MAX_RATE_BPS
    ensures victims == Victims(flows, ranking, free, need)
    ensures forall k :: k in victims ==> k in flows
    ensures available == free + Freed(flows, victims)
  {
    hide Freed, Victims;
    victims, available := [], free;
    var i := 0;
    FreedNothing(flows);
    assert ranking[0..] == ranking;
    while i < |ranking| && available < need
      invariant 0 <= i <= |ranking|
      invariant victims == ranking[..i]
      invariant available == free + Freed(flows, victims)
      invariant victims + Victims(flows, ranking[i..], available, need) == Victims(flows, ranking, free, need)
    {
      var flow := flows[ranking[i]];
      FreedPrefix(flows, ranking, i + 1);
      FreedSnoc(flows, ranking, i);
      VictimsStep(flows, ranking, i, victims, available, need);
      available := Add64(available, flow.minBps);
      victims := victims + [ranking[i]];
      i := i + 1;
    }
    VictimsDone(flows, ranking[i..], available, need);
    assert victims + [] == victims;
  }

  lemma FreedNothing(flows: map<nat, Flow>)
    ensures Freed(flows, []) == 0
  {}

  lemma VictimsDone(flows: map<nat, Flow>, ranking: seq<nat>, available: nat, need: nat)
    requires forall k :: k in ranking ==> k in flows
    requires available >= need || ranking == []
    ensures Victims(flows, ranking, available, need) == []
  {}

  lemma RankingIsLive(p: Policy, flows: map<nat, Flow>, group: nat, priority: nat)
    requires Keyed(flows)
    ensures forall k :: k in Ranking(Candidates(p.classes, flows, group, priority)) ==> k in flows
  {
    RankingRanks(Candidates(p.classes, flows, group, priority));
  }

  lemma VictimsStep(flows: map<nat, Flow>, ranking: seq<nat>, i: nat, taken: seq<nat>, available: nat, need: nat)
    requires i < |ranking| && taken == ranking[..i] && available < need
    requires forall k :: k in ranking ==> k in flows
    ensures taken + [ranking[i]] == ranking[..i + 1]
    ensures taken + Victims(flows, ranking[i..], available, need)
         == taken + [ranking[i]] + Victims(flows, ranking[i + 1..], available + flows[ranking[i]].minBps, need)
  {
    assert ranking[i..][0] == ranking[i] && ranking[i..][1..] == ranking[i + 1..];
  }

  lemma {:induction false} FreedSnoc(flows: map<nat, Flow>, ids: seq<nat>, i: nat)
    requires i < |ids| && forall k :: k in ids ==> k in flows
    ensures Freed(flows, ids[..i + 1]) == Freed(flows, ids[..i]) + flows[ids[i]].minBps
    decreases |ids|
  {
    if i > 0 {
      assert ids[..i + 1][1..] == ids[1..][..i];
      assert ids[..i][1..] == ids[1..][..i - 1];
      FreedSnoc(flows, ids[1..], i - 1);
    } else {
      assert ids[..1][1..] == [];
    }
  }
}
