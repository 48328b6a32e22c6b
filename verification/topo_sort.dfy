/**
  The dependency order the balance sheet presents its records in. The
  `TopologicalSort` extension it calls is not part of this model; this module
  supplies a sort with the contract that call relies on: a permutation of its
  input in which every parent comes before the records spending from it.
  Such an order exists exactly when the records have no dependency cycle, and
  the sort fails exactly when it does not exist.
 */
module TopoSort {
  import opened Basics
  import opened Seqs
  import opened Changes

  /** Every record comes after the records it spends from. */
  ghost predicate ParentsFirst(s: seq<Change>) {
    forall i, j | 0 <= i < |s| && 0 <= j < |s| && Spends(s[j], s[i]) && s[i].id != s[j].id :: i < j
  }

  /** `x` spends from no other record of `rest`. */
  predicate Ready(x: Change, rest: seq<Change>) {
    forall k | 0 <= k < |rest| :: Spends(x, rest[k]) ==> rest[k].id == x.id
  }

  /** The first ready record at or after position `from`. */
  function FirstReady(rest: seq<Change>, from: nat): (r: Option<nat>)
    requires from <= |rest|
    ensures r.Some? ==> from <= r.value < |rest| && Ready(rest[r.value], rest)
    ensures r.None? ==> forall k | from <= k < |rest| :: !Ready(rest[k], rest)
    decreases |rest| - from
  {
    if from == |rest| then None
    else if Ready(rest[from], rest) then Some(from)
    else FirstReady(rest, from + 1)
  }

  /** A ready record may go in front of an order of the others. */
  lemma PrependReady(x: Change, t: seq<Change>, rest: seq<Change>)
    requires Ready(x, rest) && ParentsFirst(t)
    requires forall y | y in t :: y in rest
    ensures ParentsFirst([x] + t)
  {
    var s := [x] + t;
    forall i | 1 <= i < |s| ensures !Spends(x, s[i]) || s[i].id == x.id {
      assert s[i] == t[i - 1] && t[i - 1] in t;
      var m :| 0 <= m < |rest| && rest[m] == s[i];
    }
    forall i, j | 0 <= i < |s| && 0 <= j < |s| && Spends(s[j], s[i]) && s[i].id != s[j].id
      ensures i < j
    {
      if i > 0 && j > 0 {
        assert s[i] == t[i - 1] && s[j] == t[j - 1];
      }
    }
  }

  /** Repeatedly takes the first record with no parent left among the rest. */
  function TopologicalSort(rest: seq<Change>): (r: Option<seq<Change>>)
    ensures r.Some? ==> multiset(r.value) == multiset(rest)
    ensures r.Some? ==> ParentsFirst(r.value)
    decreases |rest|
  {
    if rest == [] then Some([])
    else
      match FirstReady(rest, 0)
      case None => None
      case Some(k) =>
        match TopologicalSort(RemoveAt(rest, k))
        case None => None
        case Some(t) =>
          var x := rest[k];
          var s := [x] + t;
          assert multiset(s) == multiset(rest) by {
            assert multiset(s) == multiset{x} + multiset(t);
          }
          assert forall y | y in t :: y in rest by {
            forall y | y in t ensures y in rest {
              assert y in multiset(t);
            }
          }
          PrependReady(x, t, rest);
          Some(s)
  }

  /** Dropping one record from an order that puts parents first keeps it so. */
  lemma RemoveAtKeepsParentsFirst(s: seq<Change>, k: nat)
    requires k < |s|
    ensures ParentsFirst(s) ==> ParentsFirst(RemoveAt(s, k))
  {
    var r := RemoveAt(s, k);
    if ParentsFirst(s) {
      forall i, j | 0 <= i < |r| && 0 <= j < |r| && Spends(r[j], r[i]) && r[i].id != r[j].id
        ensures i < j
      {
        var i' := if i < k then i else i + 1;
        var j' := if j < k then j else j + 1;
        assert r[i] == s[i'] && r[j] == s[j'];
      }
    }
  }

  /** The sort fails only when no permutation of its input puts parents first. */
  lemma {:induction false} SortFailsOnlyOnCycle(rest: seq<Change>)
    ensures TopologicalSort(rest).None? ==>
      forall s | multiset(s) == multiset(rest) :: !ParentsFirst(s)
    decreases |rest|
  {
    if rest != [] {
      match FirstReady(rest, 0)
      case None =>
        forall s: seq<Change> | multiset(s) == multiset(rest) ensures !ParentsFirst(s) {
          assert rest[0] in multiset(s);
          assert |s| > 0;
          assert s[0] in multiset(rest);
          var k :| 0 <= k < |rest| && rest[k] == s[0];
          assert !Ready(rest[k], rest);
          var m :| 0 <= m < |rest| && Spends(rest[k], rest[m]) && rest[m].id != rest[k].id;
          assert rest[m] in multiset(s);
          var i :| 0 <= i < |s| && s[i] == rest[m];
          assert Spends(s[0], s[i]) && s[i].id != s[0].id && !(i < 0);
        }
      case Some(k) =>
        var rest' := RemoveAt(rest, k);
        SortFailsOnlyOnCycle(rest');
        if TopologicalSort(rest').None? {
          forall s: seq<Change> | multiset(s) == multiset(rest) ensures !ParentsFirst(s) {
            assert rest[k] in multiset(s);
            var i :| 0 <= i < |s| && s[i] == rest[k];
            RemoveAtKeepsParentsFirst(s, i);
            assert multiset(RemoveAt(s, i)) == multiset(rest');
          }
        }
    }
  }

  /** Every record comes before the records it spends from: the order of `All`. */
  ghost predicate SpendersFirst(s: seq<Change>) {
    forall i, j | 0 <= i < |s| && 0 <= j < |s| && Spends(s[i], s[j]) && s[i].id != s[j].id :: i < j
  }

  /** Reversing a parents-first order puts spenders first. */
  lemma ReverseSpendersFirst(s: seq<Change>)
    requires ParentsFirst(s)
    ensures SpendersFirst(Reverse(s))
  {
    var r := Reverse(s);
    forall i, j | 0 <= i < |r| && 0 <= j < |r| && Spends(r[i], r[j]) && r[i].id != r[j].id ensures i < j {
      assert r[i] == s[|s| - 1 - i] && r[j] == s[|s| - 1 - j];
    }
  }
}
