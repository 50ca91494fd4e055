/** Identifier sets in ascending order: what sorting a hash table's keys yields, whatever order
    the table was walked in. */
module Order {

  ghost predicate Ascending(s: seq<nat>) {
    forall i, j :: 0 <= i < j < |s| ==> s[i] < s[j]
  }

  ghost function Least(s: set<nat>): (k: nat)
    requires s != {}
    ensures k in s && forall j :: j in s ==> k <= j
  {
    LeastExists(s);
    var k :| k in s && forall j :: j in s ==> k <= j;
    k
  }

  lemma LeastExists(s: set<nat>)
    requires s != {}
    ensures exists k :: k in s && forall j :: j in s ==> k <= j
  {
    var k := FindLeast(s);
  }

  lemma {:induction false} FindLeast(s: set<nat>) returns (k: nat)
    requires s != {}
    ensures k in s && forall j :: j in s ==> k <= j
    decreases |s|
  {
    k :| k in s;
    if s != {k} {
      var y := FindLeast(s - {k});
      assert forall j :: j in s ==> j == k || j in s - {k};
      if y < k {
        k := y;
      }
    }
  }

  ghost function SortedIds(s: set<nat>): (r: seq<nat>)
    ensures |r| == |s|
    decreases |s|
  {
    if s == {} then [] else
    var k := Least(s);
    [k] + SortedIds(s - {k})
  }

  lemma {:induction false} SortedIdsMembers(s: set<nat>)
    ensures Ascending(SortedIds(s))
    ensures forall k :: k in SortedIds(s) <==> k in s
    decreases |s|
  {
    if s != {} {
      var k := Least(s);
      var rest := SortedIds(s - {k});
      SortedIdsMembers(s - {k});
      assert forall j :: j in s <==> j == k || j in s - {k};
      forall i | 0 <= i < |rest| ensures k < rest[i] {
        assert rest[i] in s - {k};
      }
    }
  }

  /** An ascending sequence is determined by its members. */
  lemma {:induction false} AscendingUnique(a: seq<nat>, b: seq<nat>)
    requires Ascending(a) && Ascending(b) && |a| == |b|
    requires forall k :: k in a <==> k in b
    ensures a == b
    decreases |a|
  {
    if a != [] {
      assert a[0] in b && b[0] in a;
      assert a[0] == b[0];
      forall k ensures k in a[1..] <==> k in b[1..] {
        assert k in a[1..] <==> k in a && k != a[0];
        assert k in b[1..] <==> k in b && k != b[0];
      }
      AscendingUnique(a[1..], b[1..]);
      assert a == [a[0]] + a[1..] && b == [b[0]] + b[1..];
    }
  }

  lemma {:induction false} AscendingSize(a: seq<nat>, s: set<nat>)
    requires Ascending(a) && forall k :: k in a <==> k in s
    ensures |a| == |s|
    decreases |a|
  {
    if a == [] {
      assert s == {};
    } else {
      assert a[0] in s;
      forall k ensures k in a[1..] <==> k in s - {a[0]} {
        assert k in a[1..] <==> k in a && k != a[0];
      }
      AscendingSize(a[1..], s - {a[0]});
    }
  }

  /** Already-ascending keys are the sorted keys. */
  lemma AscendingIsSorted(a: seq<nat>, s: set<nat>)
    requires Ascending(a) && forall k :: k in a <==> k in s
    ensures a == SortedIds(s)
  {
    AscendingSize(a, s);
    SortedIdsMembers(s);
    AscendingUnique(a, SortedIds(s));
  }

  lemma AscendingStep(s: seq<nat>, i: nat)
    requires Ascending(s) && 0 < i < |s|
    ensures s[i - 1] < s[i]
  {}

  lemma AscendingAppend(s: seq<nat>, k: nat)
    requires Ascending(s) && forall j :: j in s ==> j < k
    ensures Ascending(s + [k])
    ensures forall j :: j in s + [k] <==> j in s || j == k
  {
    assert forall i :: 0 <= i < |s| ==> s[i] in s;
  }

  function Insert(k: nat, s: seq<nat>): seq<nat>
    decreases |s|
  {
    if s == [] || k < s[0] then [k] + s else [s[0]] + Insert(k, s[1..])
  }

  lemma {:induction false} InsertKeepsOrder(k: nat, s: seq<nat>)
    requires Ascending(s) && k !in s
    ensures Ascending(Insert(k, s))
    ensures forall j :: j in Insert(k, s) <==> j == k || j in s
    decreases |s|
  {
    if s != [] && s[0] <= k {
      var rest := Insert(k, s[1..]);
      InsertKeepsOrder(k, s[1..]);
      assert forall j :: j in s <==> j == s[0] || j in s[1..];
      forall i | 0 <= i < |rest| ensures s[0] < rest[i] {
        assert rest[i] in rest;
      }
    }
  }

  /** Sort a set walked in an arbitrary order. */
  method SortIds(s: set<nat>) returns (r: seq<nat>)
    ensures r == SortedIds(s)
  {
    r := [];
    var todo := s;
    while todo != {}
      invariant todo <= s && Ascending(r)
      invariant forall k :: k in r <==> k in s && k !in todo
      decreases |todo|
    {
      var k :| k in todo;
      InsertKeepsOrder(k, r);
      r := Insert(k, r);
      todo := todo - {k};
    }
    AscendingIsSorted(r, s);
  }
}
