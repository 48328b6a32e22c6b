/**
  How `IndexAsync` cuts a stream of table entities into work units: LINQ
  `GroupBy` on the partition key, then `Partition(PartitionSize)` of each
  group into consecutive chunks, one `IndexCore` call per chunk.
 */
module Grouping {
  import opened Basics
  import opened Seqs

  type Key = string

  /** A table entity; only its keys matter to the indexer. */
  datatype Entity = Entity(partitionKey: Key, rowKey: Key)

  /** The maximum number of operations per batch (`PartitionSize`). */
  const PartitionSize: nat := 100

  /** One LINQ grouping: a key and the entities carrying it. */
  datatype Group = Group(key: Key, items: seq<Entity>)

  /** One `IndexCore(group.Key, batch)` call. */
  datatype Work = Work(key: Key, batch: seq<Entity>)

  function HasKey(k: Key): Entity -> bool {
    (e: Entity) => e.partitionKey == k
  }

  /** The keys present in `s`. */
  function KeysIn(s: seq<Entity>): set<Key> {
    set e | e in s :: e.partitionKey
  }

  function GroupKeys(gs: seq<Group>): set<Key> {
    set g | g in gs :: g.key
  }

  /** The position of the group with key `k`, if any. */
  function FindGroup(gs: seq<Group>, k: Key): (r: Option<nat>)
    ensures r.Some? ==> r.value < |gs| && gs[r.value].key == k
    ensures r.None? ==> k !in GroupKeys(gs)
    decreases |gs|
  {
    if gs == [] then None
    else if gs[|gs| - 1].key == k then Some(|gs| - 1)
    else
      var r := FindGroup(gs[..|gs| - 1], k);
      assert forall g | g in gs && g != gs[|gs| - 1] :: g in gs[..|gs| - 1];
      r
  }

  /** `GroupBy` adds each element to its key's grouping, opening a new one at the end for a new key. */
  function Place(gs: seq<Group>, e: Entity): seq<Group> {
    match FindGroup(gs, e.partitionKey)
    case Some(i) => Grow(gs, i, e)
    case None => Open(gs, e)
  }

  function GroupBy(s: seq<Entity>): seq<Group>
    decreases |s|
  {
    if s == [] then [] else Place(GroupBy(s[..|s| - 1]), s[|s| - 1])
  }

  function Items(gs: seq<Group>): seq<seq<Entity>>
  {
    seq(|gs|, i requires 0 <= i < |gs| => gs[i].items)
  }

  predicate DistinctKeys(gs: seq<Group>) {
    forall i, j | 0 <= i < |gs| && 0 <= j < |gs| && i != j :: gs[i].key != gs[j].key
  }

  /** Each group is the order-preserving filter of `s` by its key, and is not empty. */
  ghost predicate FiltersByKey(s: seq<Entity>, gs: seq<Group>) {
    forall g | g in gs :: g.items == Filter(s, HasKey(g.key)) && g.items != []
  }

  /** The groups together hold exactly the elements of `s`. */
  predicate Covers(s: seq<Entity>, gs: seq<Group>) {
    multiset(Flatten(Items(gs))) == multiset(s)
  }

  /** What `GroupBy(s)` is: one group per key, each the order-preserving filter of `s` by that key. */
  ghost predicate Grouped(s: seq<Entity>, gs: seq<Group>) {
    DistinctKeys(gs) && GroupKeys(gs) == KeysIn(s) && FiltersByKey(s, gs) && Covers(s, gs)
  }

  lemma FlattenUpdate(ss: seq<seq<Entity>>, i: nat, t: seq<Entity>)
    requires i < |ss|
    ensures multiset(Flatten(ss[i := t])) == multiset(Flatten(ss)) - multiset(ss[i]) + multiset(t)
    decreases |ss|
  {
    if i == 0 {
      assert ss[i := t][1..] == ss[1..];
    } else {
      FlattenUpdate(ss[1..], i - 1, t);
      assert ss[i := t][1..] == ss[1..][i - 1 := t];
      assert multiset(ss[1..][i - 1]) <= multiset(Flatten(ss[1..])) by {
        FlattenContains(ss[1..], i - 1);
      }
    }
  }

  lemma FlattenContains(ss: seq<seq<Entity>>, i: nat)
    requires i < |ss|
    ensures multiset(ss[i]) <= multiset(Flatten(ss))
    decreases |ss|
  {
    if i > 0 {
      FlattenContains(ss[1..], i - 1);
    }
  }

  lemma FlattenSnoc(ss: seq<seq<Entity>>, t: seq<Entity>)
    ensures Flatten(ss + [t]) == Flatten(ss) + t
  {
    FlattenAppend(ss, [t]);
    assert Flatten([t]) == t + Flatten([t][1..]);
  }

  lemma FilterSnocKey(s: seq<Entity>, e: Entity, k: Key)
    ensures Filter(s + [e], HasKey(k)) == Filter(s, HasKey(k)) + (if e.partitionKey == k then [e] else [])
  {
    FilterAppend(s, [e], HasKey(k));
    assert [e][1..] == [];
  }

  lemma KeysSnoc(s: seq<Entity>, e: Entity)
    ensures KeysIn(s + [e]) == KeysIn(s) + {e.partitionKey}
  {
    assert forall x | x in s + [e] :: x in s || x == e;
  }

  function Grow(gs: seq<Group>, i: nat, e: Entity): seq<Group>
    requires i < |gs|
  {
    gs[i := Group(gs[i].key, gs[i].items + [e])]
  }

  function Open(gs: seq<Group>, e: Entity): seq<Group> {
    gs + [Group(e.partitionKey, [e])]
  }

  lemma GrowKeys(gs: seq<Group>, i: nat, e: Entity)
    requires i < |gs|
    ensures GroupKeys(Grow(gs, i, e)) == GroupKeys(gs)
    ensures DistinctKeys(gs) ==> DistinctKeys(Grow(gs, i, e))
  {
    var gs' := Grow(gs, i, e);
    assert forall j | 0 <= j < |gs| :: gs'[j].key == gs[j].key;
    assert forall h | h in gs' :: exists j :: 0 <= j < |gs| && gs'[j] == h;
    assert forall h | h in gs :: exists j :: 0 <= j < |gs| && gs[j] == h;
  }

  lemma GrowFilters(s: seq<Entity>, gs: seq<Group>, i: nat, e: Entity)
    requires i < |gs| && gs[i].key == e.partitionKey
    requires DistinctKeys(gs) && FiltersByKey(s, gs)
    ensures FiltersByKey(s + [e], Grow(gs, i, e))
  {
    var gs' := Grow(gs, i, e);
    forall j | 0 <= j < |gs'| ensures gs'[j].items == Filter(s + [e], HasKey(gs'[j].key)) && gs'[j].items != [] {
      assert gs[j] in gs;
      FilterSnocKey(s, e, gs[j].key);
    }
  }

  lemma GrowCovers(s: seq<Entity>, gs: seq<Group>, i: nat, e: Entity)
    requires i < |gs| && Covers(s, gs)
    ensures Covers(s + [e], Grow(gs, i, e))
  {
    var gs' := Grow(gs, i, e);
    var t := gs[i].items + [e];
    assert Items(gs') == Items(gs)[i := t];
    FlattenUpdate(Items(gs), i, t);
    FlattenContains(Items(gs), i);
    var m, a := multiset(Flatten(Items(gs))), multiset(Items(gs)[i]);
    assert multiset(t) == a + multiset{e};
    assert m - a + a == m;
  }

  lemma OpenKeys(gs: seq<Group>, e: Entity)
    ensures GroupKeys(Open(gs, e)) == GroupKeys(gs) + {e.partitionKey}
    ensures DistinctKeys(gs) && e.partitionKey !in GroupKeys(gs) ==> DistinctKeys(Open(gs, e))
  {
    var gs' := Open(gs, e);
    assert forall h | h in gs' :: h in gs || h == gs'[|gs|];
    assert forall j | 0 <= j < |gs| :: gs'[j] == gs[j] && gs[j] in gs;
  }

  lemma OpenFilters(s: seq<Entity>, gs: seq<Group>, e: Entity)
    requires FiltersByKey(s, gs) && GroupKeys(gs) == KeysIn(s) && e.partitionKey !in GroupKeys(gs)
    ensures FiltersByKey(s + [e], Open(gs, e))
  {
    var k := e.partitionKey;
    var gs' := Open(gs, e);
    FilterSnocKey(s, e, k);
    assert forall x | x in s :: x.partitionKey in KeysIn(s);
    FilterNone(s, HasKey(k));
    forall j | 0 <= j < |gs'| ensures gs'[j].items == Filter(s + [e], HasKey(gs'[j].key)) && gs'[j].items != [] {
      if j < |gs| {
        assert gs'[j] == gs[j] && gs[j] in gs;
        FilterSnocKey(s, e, gs[j].key);
      }
    }
  }

  lemma OpenCovers(s: seq<Entity>, gs: seq<Group>, e: Entity)
    requires Covers(s, gs)
    ensures Covers(s + [e], Open(gs, e))
  {
    assert Items(Open(gs, e)) == Items(gs) + [[e]];
    FlattenSnoc(Items(gs), [e]);
  }

  /** One `Place` step keeps the grouping exact. */
  lemma PlaceGroups(s: seq<Entity>, gs: seq<Group>, e: Entity)
    requires Grouped(s, gs)
    ensures Grouped(s + [e], Place(gs, e))
  {
    KeysSnoc(s, e);
    match FindGroup(gs, e.partitionKey)
    case Some(i) =>
      assert Place(gs, e) == Grow(gs, i, e);
      GrowKeys(gs, i, e);
      GrowFilters(s, gs, i, e);
      GrowCovers(s, gs, i, e);
    case None =>
      assert Place(gs, e) == Open(gs, e);
      OpenKeys(gs, e);
      OpenFilters(s, gs, e);
      OpenCovers(s, gs, e);
  }

  lemma GroupedSnoc(s: seq<Entity>, gs: seq<Group>)
    requires s != [] && Grouped(s[..|s| - 1] + [s[|s| - 1]], gs)
    ensures Grouped(s, gs)
  {
    assert s[..|s| - 1] + [s[|s| - 1]] == s;
  }

  /** `GroupBy` yields one non-empty group per key, each its key's elements in input order, losing nothing. */
  lemma {:induction false} GroupByGroups(s: seq<Entity>)
    ensures Grouped(s, GroupBy(s))
    decreases |s|
  {
    if s == [] {
      assert Items([]) == [];
    } else {
      var pre, e := s[..|s| - 1], s[|s| - 1];
      GroupByGroups(pre);
      PlaceGroups(pre, GroupBy(pre), e);
      GroupedSnoc(s, GroupBy(s));
    }
  }

  /**
    `Partition(n)`: consecutive chunks of `n` elements, the last one shorter
    and none empty.
   */
  function Chunks(s: seq<Entity>, n: nat): (r: seq<seq<Entity>>)
    requires n > 0
    ensures Flatten(r) == s
    ensures forall c | c in r :: 0 < |c| <= n
    ensures forall i | 0 <= i < |r| - 1 :: |r[i]| == n
    decreases |s|
  {
    if s == [] then []
    else if |s| <= n then
      assert Flatten([s]) == s + Flatten([s][1..]);
      [s]
    else
      var rest := Chunks(s[n..], n);
      assert s == s[..n] + s[n..];
      assert ([s[..n]] + rest)[1..] == rest;
      [s[..n]] + rest
  }

  /**
    `Partition(PartitionSize)` makes as few chunks as it can: the length
    divided by `PartitionSize`, rounded up (250 entities make 3 batches).
   */
  lemma {:induction false} ChunkCount(s: seq<Entity>)
    ensures |Chunks(s, PartitionSize)| == (|s| + PartitionSize - 1) / PartitionSize
    decreases |s|
  {
    if |s| > PartitionSize {
      ChunkCount(s[PartitionSize..]);
    }
  }

  /** The work units of one group, in order. */
  function GroupWork(g: Group): seq<Work>
  {
    var cs := Chunks(g.items, PartitionSize);
    seq(|cs|, i requires 0 <= i < |cs| => Work(g.key, cs[i]))
  }

  function WorkOf(gs: seq<Group>): seq<Work>
    decreases |gs|
  {
    if gs == [] then [] else GroupWork(gs[0]) + WorkOf(gs[1..])
  }

  function Batches(ws: seq<Work>): seq<seq<Entity>>
  {
    seq(|ws|, i requires 0 <= i < |ws| => ws[i].batch)
  }

  /** The tasks `IndexAsync` creates, before they are started. */
  function Tasks(entities: seq<Entity>): seq<Work> {
    WorkOf(GroupBy(entities))
  }

  lemma GroupWorkBatches(g: Group)
    ensures Batches(GroupWork(g)) == Chunks(g.items, PartitionSize)
    ensures forall w | w in GroupWork(g) :: w.key == g.key && w.batch in Chunks(g.items, PartitionSize)
  {
  }

  lemma BatchesAppend(a: seq<Work>, b: seq<Work>)
    ensures Batches(a + b) == Batches(a) + Batches(b)
  {
  }

  /** Each group's elements are the group's work, as a multiset. */
  lemma {:induction false} WorkOfCovers(gs: seq<Group>)
    ensures multiset(Flatten(Batches(WorkOf(gs)))) == multiset(Flatten(Items(gs)))
    decreases |gs|
  {
    if gs != [] {
      WorkOfCovers(gs[1..]);
      WorkOfCons(gs);
      ItemsCons(gs);
    }
  }

  lemma WorkOfCons(gs: seq<Group>)
    requires gs != []
    ensures Flatten(Batches(WorkOf(gs))) == gs[0].items + Flatten(Batches(WorkOf(gs[1..])))
  {
    var here, rest := Batches(GroupWork(gs[0])), Batches(WorkOf(gs[1..]));
    GroupWorkBatches(gs[0]);
    BatchesAppend(GroupWork(gs[0]), WorkOf(gs[1..]));
    FlattenAppend(here, rest);
  }

  lemma ItemsCons(gs: seq<Group>)
    requires gs != []
    ensures Flatten(Items(gs)) == gs[0].items + Flatten(Items(gs[1..]))
  {
    assert Items(gs)[1..] == Items(gs[1..]);
  }

  /** A chunk holds only elements of the chunked sequence. */
  lemma ChunkMembers(s: seq<Entity>, c: seq<Entity>)
    requires c in Chunks(s, PartitionSize)
    ensures forall e | e in c :: e in s
  {
    var cs := Chunks(s, PartitionSize);
    var i :| 0 <= i < |cs| && cs[i] == c;
    FlattenContains(cs, i);
    assert forall e | e in c :: e in multiset(s);
  }

  /** Work cut from groups of single-key elements is single-key and bounded. */
  lemma {:induction false} WorkOfBounds(gs: seq<Group>)
    requires forall g, e | g in gs && e in g.items :: e.partitionKey == g.key
    ensures forall w | w in WorkOf(gs) ::
              0 < |w.batch| <= PartitionSize && forall e | e in w.batch :: e.partitionKey == w.key
    decreases |gs|
  {
    if gs != [] {
      var g := gs[0];
      assert forall h | h in gs[1..] :: h in gs;
      WorkOfBounds(gs[1..]);
      GroupWorkBatches(g);
      forall w | w in GroupWork(g) ensures 0 < |w.batch| <= PartitionSize && forall e | e in w.batch :: e.partitionKey == w.key {
        ChunkMembers(g.items, w.batch);
      }
    }
  }

  /**
    Every entity lands in exactly one task (as a multiset, the tasks' batches
    are the input), every batch is non-empty and at most `PartitionSize`
    long, and all entities of a task carry the task's partition key.
   */
  lemma TasksCoverEntities(entities: seq<Entity>)
    ensures multiset(Flatten(Batches(Tasks(entities)))) == multiset(entities)
    ensures forall w | w in Tasks(entities) ::
              0 < |w.batch| <= PartitionSize && forall e | e in w.batch :: e.partitionKey == w.key
  {
    var gs := GroupBy(entities);
    GroupByGroups(entities);
    WorkOfCovers(gs);
    WorkOfBounds(gs);
  }
}
