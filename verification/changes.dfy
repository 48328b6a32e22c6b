/**
  The balance-change record consumed by the balance sheet, the chain lookup it
  is checked against, and the replace rule that decides between two records.
 */
module Changes {
  import opened Basics
  import opened Seqs

  /** Transaction and block hashes (`uint256`), treated as opaque identifiers. */
  type TxId = int
  type BlockId = int

  /** A reference to output `n` of transaction `hash`. */
  datatype OutPoint = OutPoint(hash: TxId, n: int)

  /**
    One `OrderedBalanceChange`: the transaction, the block it was indexed in
    (absent while unconfirmed), the height stored in the record itself, the
    time it was first seen, and the outpoints it spends. The balance payload
    is carried by the source but never inspected here, so it is left out.
   */
  datatype Change = Change(
    id: TxId,
    blockId: Option<BlockId>,
    height: int,
    seenUtc: int,
    spent: seq<OutPoint>)

  /**
    Why the `BalanceSheet` constructor throws: a null chain
    (`ArgumentNullException`), `Dictionary.Add` meeting an outpoint already
    claimed (`ArgumentException`), or a dependency cycle the topological sort
    cannot order.
   */
  datatype SheetError = ChainIsNull | DuplicateSpend(outpoint: OutPoint) | CircularDependency

  predicate IsConfirmed(c: Change) {
    c.blockId.Some?
  }

  predicate IsUnconfirmed(c: Change) {
    c.blockId.None?
  }

  /** The chain as the heights of the blocks it knows (`ChainBase.TryGetHeight`). */
  type Chain = map<BlockId, int>

  /** An unconfirmed record, or one whose block the chain still knows. */
  predicate Resolves(chain: Chain, c: Change) {
    c.blockId.None? || c.blockId.value in chain
  }

  /** `x` spends an output of `y`. */
  predicate Spends(x: Change, y: Change) {
    exists i :: 0 <= i < |x.spent| && x.spent[i].hash == y.id
  }

  /** The two records share a spent outpoint. */
  predicate DoubleSpend(x: Change, y: Change) {
    exists i, j :: 0 <= i < |x.spent| && 0 <= j < |y.spent| && x.spent[i] == y.spent[j]
  }

  /**
    An independent ranking of records: confirmed above unconfirmed; among
    confirmed the lower height, among unconfirmed the later sighting, ranks higher.
   */
  function Tier(c: Change): int {
    if IsConfirmed(c) then 1 else 0
  }

  function Score(c: Change): int {
    if IsConfirmed(c) then -c.height else c.seenUtc
  }

  predicate Outranks(a: Change, b: Change) {
    Tier(a) > Tier(b) || (Tier(a) == Tier(b) && Score(a) > Score(b))
  }

  /**
    `BalanceSheet.ShouldReplace`: does `a` win over the conflicting `b`? The
    height compared is the record's own field, not the height just looked up.
   */
  function ShouldReplace(a: Change, b: Change): (r: bool)
    ensures r <==> Outranks(a, b)
  {
    if a.blockId.None? then
      if b.blockId.None? then a.seenUtc > b.seenUtc else false
    else
      if b.blockId.None? then true else a.height < b.height
  }

  /** The replace rule is a strict weak order: never both ways, never against itself. */
  lemma ShouldReplaceAsymmetric(a: Change, b: Change)
    ensures !(ShouldReplace(a, b) && ShouldReplace(b, a))
    ensures !ShouldReplace(a, a)
  {
  }

  lemma ShouldReplaceTransitive(a: Change, b: Change, c: Change)
    ensures ShouldReplace(a, b) && ShouldReplace(b, c) ==> ShouldReplace(a, c)
    ensures ShouldReplace(a, b) && !ShouldReplace(c, b) ==> ShouldReplace(a, c)
  {
  }

  /** Ids are unique, as the keys of `transactionsById` are. */
  predicate DistinctIds(s: seq<Change>) {
    forall i, j :: 0 <= i < |s| && 0 <= j < |s| && i != j ==> s[i].id != s[j].id
  }

  function Ids(s: seq<Change>): set<TxId> {
    set c | c in s :: c.id
  }

  /** `Dictionary.TryGetValue` on the dictionary the sequence stands for. */
  function Lookup(s: seq<Change>, id: TxId): (r: Option<Change>)
    ensures r.Some? ==> r.value in s && r.value.id == id
    ensures r.None? ==> id !in Ids(s)
    ensures DistinctIds(s) ==> forall c | c in s && c.id == id :: r == Some(c)
    decreases |s|
  {
    if s == [] then None
    else if s[0].id == id then Some(s[0])
    else
      var r := Lookup(s[1..], id);
      assert forall c | c in s && c != s[0] :: c in s[1..];
      assert DistinctIds(s) ==> DistinctIds(s[1..]) by {
        if DistinctIds(s) {
          forall i, j | 0 <= i < |s[1..]| && 0 <= j < |s[1..]| && i != j
            ensures s[1..][i].id != s[1..][j].id
          {
            assert s[1..][i] == s[i + 1] && s[1..][j] == s[j + 1];
          }
        }
      }
      r
  }

  /** The position of the record with the given id. */
  function IndexOfId(s: seq<Change>, id: TxId): (r: Option<nat>)
    ensures r.Some? ==> r.value < |s| && s[r.value].id == id
    ensures r.None? ==> id !in Ids(s)
    decreases |s|
  {
    if s == [] then None
    else if s[0].id == id then Some(0)
    else
      match IndexOfId(s[1..], id)
      case None =>
        assert forall c | c in s && c != s[0] :: c in s[1..];
        None
      case Some(k) => Some(k + 1)
  }

  /** `Dictionary.Remove` for every id in `ids`; the rest keep their order. */
  function RemoveIds(s: seq<Change>, ids: set<TxId>): (r: seq<Change>)
    ensures forall c | c in r :: c in s && c.id !in ids
    ensures forall c | c in s && c.id !in ids :: c in r
  {
    Filter(s, (c: Change) => c.id !in ids)
  }

  lemma {:induction false} FilterDistinct(s: seq<Change>, f: Change -> bool)
    requires DistinctIds(s)
    ensures DistinctIds(Filter(s, f))
    decreases |s|
  {
    if s != [] {
      var t := s[1..];
      assert DistinctIds(t) by {
        forall i, j | 0 <= i < |t| && 0 <= j < |t| && i != j
          ensures t[i].id != t[j].id
        {
          assert t[i] == s[i + 1] && t[j] == s[j + 1];
        }
      }
      FilterDistinct(t, f);
      var ft := Filter(t, f);
      if f(s[0]) {
        assert Filter(s, f) == [s[0]] + ft;
        forall c | c in ft ensures c.id != s[0].id {
          var k :| 0 <= k < |t| && t[k] == c;
          assert s[k + 1] == c;
        }
        var r := [s[0]] + ft;
        forall i, j | 0 <= i < |r| && 0 <= j < |r| && i != j
          ensures r[i].id != r[j].id
        {
          if i > 0 && j > 0 {
            assert r[i] == ft[i - 1] && r[j] == ft[j - 1];
          } else if i == 0 {
            assert r[j] == ft[j - 1] && r[j] in ft;
          } else {
            assert r[i] == ft[i - 1] && r[i] in ft;
          }
        }
      }
    }
  }

  lemma RemoveIdsDistinct(s: seq<Change>, ids: set<TxId>)
    requires DistinctIds(s)
    ensures DistinctIds(RemoveIds(s, ids))
  {
    FilterDistinct(s, (c: Change) => c.id !in ids);
  }

  /** Removing at least one present id strictly shrinks the dictionary. */
  lemma {:induction false} RemoveIdsShrinks(s: seq<Change>, ids: set<TxId>)
    requires exists c :: c in s && c.id in ids
    ensures |RemoveIds(s, ids)| < |s|
    decreases |s|
  {
    var f := (c: Change) => c.id !in ids;
    if s[0].id in ids {
      assert RemoveIds(s, ids) == Filter(s[1..], f);
    } else {
      var c :| c in s && c.id in ids;
      assert c in s[1..];
      RemoveIdsShrinks(s[1..], ids);
      assert RemoveIds(s, ids) == [s[0]] + RemoveIds(s[1..], ids);
    }
  }

  /** Dropping one record keeps ids distinct, and no remaining id is the dropped one's. */
  lemma RemoveAtDistinct(a: seq<Change>, k: nat)
    requires DistinctIds(a) && k < |a|
    ensures DistinctIds(RemoveAt(a, k))
    ensures forall d | d in RemoveAt(a, k) :: d.id != a[k].id
  {
    var a' := RemoveAt(a, k);
    forall i, j | 0 <= i < |a'| && 0 <= j < |a'| && i != j ensures a'[i].id != a'[j].id {
      var i' := if i < k then i else i + 1;
      var j' := if j < k then j else j + 1;
      assert a'[i] == a[i'] && a'[j] == a[j'];
    }
    forall d | d in a' ensures d.id != a[k].id {
      var m :| 0 <= m < |a'| && a'[m] == d;
      var m' := if m < k then m else m + 1;
      assert a[m'] == d;
    }
  }

  /** A permutation of records with distinct ids has distinct ids. */
  lemma {:induction false} PermutationKeepsDistinct(a: seq<Change>, b: seq<Change>)
    requires DistinctIds(a) && multiset(a) == multiset(b)
    ensures DistinctIds(b)
    decreases |b|
  {
    if b != [] {
      var b0, b' := b[0], b[1..];
      assert b == [b0] + b';
      assert b0 in multiset(a);
      var k :| 0 <= k < |a| && a[k] == b0;
      var a' := RemoveAt(a, k);
      RemoveAtDistinct(a, k);
      assert multiset(a') == multiset(b');
      PermutationKeepsDistinct(a', b');
      assert forall d | d in b' :: d in multiset(a');
      forall i, j | 0 <= i < |b| && 0 <= j < |b| && i != j ensures b[i].id != b[j].id {
        if i > 0 && j > 0 {
          assert b[i] == b'[i - 1] && b[j] == b'[j - 1];
        } else if i == 0 {
          assert b[j] == b'[j - 1] && b[j] in b';
        } else {
          assert b[i] == b'[i - 1] && b[i] in b';
        }
      }
    }
  }
}
