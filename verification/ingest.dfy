/**
  The first loop of the `BalanceSheet` constructor: drop records whose block
  the chain no longer knows, and keep one record per transaction id.
 */
module Ingestion {
  import opened Basics
  import opened Seqs
  import opened Changes

  /**
    What the loop leaves behind: the dictionary `transactionsById` (as a
    sequence in enumeration order), the records already sent to `Prunable`,
    and the losers collected in `ignoredTransactions`.
   */
  datatype Ingested = Ingested(byId: seq<Change>, prunable: seq<Change>, ignored: seq<Change>)

  /** One iteration of the loop, for record `c`. */
  function Admit(chain: Chain, st: Ingested, c: Change): Ingested {
    if !Resolves(chain, c) then
      st.(prunable := st.prunable + [c])
    else
      match IndexOfId(st.byId, c.id)
      case None => st.(byId := st.byId + [c])
      case Some(k) =>
        // Remove followed by Add of the same key reuses the freed slot,
        // so the winner takes the loser's place in enumeration order.
        if ShouldReplace(c, st.byId[k]) then
          st.(byId := st.byId[k := c], ignored := st.ignored + [st.byId[k]])
        else
          st.(ignored := st.ignored + [c])
  }

  /** The loop over all of `changes`, in input order. */
  function Ingest(chain: Chain, changes: seq<Change>): Ingested
    decreases |changes|
  {
    if changes == [] then Ingested([], [], [])
    else Admit(chain, Ingest(chain, changes[..|changes| - 1]), changes[|changes| - 1])
  }

  /** Record selectors, named once so that every filter uses the same one. */
  function IsResolved(chain: Chain): Change -> bool {
    (c: Change) => Resolves(chain, c)
  }

  function IsUnresolved(chain: Chain): Change -> bool {
    (c: Change) => !Resolves(chain, c)
  }

  /** The records the loop keeps looking at. */
  function Resolved(chain: Chain, changes: seq<Change>): seq<Change> {
    Filter(changes, IsResolved(chain))
  }

  /** The records the loop sends straight to `Prunable`. */
  function Unresolved(chain: Chain, changes: seq<Change>): seq<Change> {
    Filter(changes, IsUnresolved(chain))
  }

  /** The ids of the records whose block resolves. */
  function ResolvedIds(chain: Chain, changes: seq<Change>): set<TxId> {
    set c | c in changes && Resolves(chain, c) :: c.id
  }

  /**
    `w` is the record the replace rule picks for its id: no record with that
    id wins over it, and it wins over every such record seen before it, so of
    equally ranked records the first one seen is kept.
   */
  ghost predicate FirstBest(chain: Chain, changes: seq<Change>, w: Change) {
    exists k ::
      && 0 <= k < |changes|
      && changes[k] == w
      && Resolves(chain, w)
      && (forall j :: 0 <= j < |changes| && Resolves(chain, changes[j]) && changes[j].id == w.id
            ==> !ShouldReplace(changes[j], w))
      && (forall j :: 0 <= j < k && Resolves(chain, changes[j]) && changes[j].id == w.id
            ==> ShouldReplace(w, changes[j]))
  }

  lemma SplitLast(changes: seq<Change>)
    requires changes != []
    ensures changes == changes[..|changes| - 1] + [changes[|changes| - 1]]
  {
  }

  /** `Prunable` starts with exactly the unresolved records, in input order. */
  lemma {:induction false} IngestPrunable(chain: Chain, changes: seq<Change>)
    ensures Ingest(chain, changes).prunable == Unresolved(chain, changes)
    decreases |changes|
  {
    if changes != [] {
      var pre, c := changes[..|changes| - 1], changes[|changes| - 1];
      IngestPrunable(chain, pre);
      UnresolvedSnoc(chain, changes);
      assert Ingest(chain, changes).prunable == Admit(chain, Ingest(chain, pre), c).prunable;
    }
  }

  lemma UnresolvedSnoc(chain: Chain, changes: seq<Change>)
    requires changes != []
    ensures var c := changes[|changes| - 1];
      Unresolved(chain, changes) == Unresolved(chain, changes[..|changes| - 1]) + if Resolves(chain, c) then [] else [c]
  {
    var pre, c := changes[..|changes| - 1], changes[|changes| - 1];
    SplitLast(changes);
    FilterAppend(pre, [c], IsUnresolved(chain));
  }

  /** At most one record per id survives. */
  lemma {:induction false} IngestDistinct(chain: Chain, changes: seq<Change>)
    ensures DistinctIds(Ingest(chain, changes).byId)
    decreases |changes|
  {
    if changes != [] {
      var pre, c := changes[..|changes| - 1], changes[|changes| - 1];
      IngestDistinct(chain, pre);
      var b := Ingest(chain, pre).byId;
      if Resolves(chain, c) && IndexOfId(b, c.id).None? {
        var b' := b + [c];
        forall i, j | 0 <= i < |b'| && 0 <= j < |b'| && i != j
          ensures b'[i].id != b'[j].id
        {
          if i == |b| {
            assert b'[j] in b;
          } else if j == |b| {
            assert b'[i] in b;
          }
        }
      }
    }
  }

  lemma AdmitIds(chain: Chain, st: Ingested, c: Change)
    ensures Ids(Admit(chain, st, c).byId) == Ids(st.byId) + (if Resolves(chain, c) then {c.id} else {})
    ensures forall w | w in Admit(chain, st, c).byId :: w in st.byId || (w == c && Resolves(chain, c))
  {
    var b := st.byId;
    if Resolves(chain, c) {
      match IndexOfId(b, c.id)
      case None =>
        assert Admit(chain, st, c).byId == b + [c];
      case Some(k) =>
        if ShouldReplace(c, b[k]) {
          var b' := b[k := c];
          assert Admit(chain, st, c).byId == b';
          forall x | x in Ids(b) ensures x in Ids(b') {
            var i :| 0 <= i < |b| && b[i].id == x;
            assert b'[i].id == x;
          }
          forall w | w in b' ensures w in b || (w == c && Resolves(chain, c)) {
            var i :| 0 <= i < |b'| && b'[i] == w;
          }
        }
    }
  }

  lemma ResolvedIdsLast(chain: Chain, changes: seq<Change>)
    requires changes != []
    ensures ResolvedIds(chain, changes)
         == ResolvedIds(chain, changes[..|changes| - 1])
          + (if Resolves(chain, changes[|changes| - 1]) then {changes[|changes| - 1].id} else {})
  {
    SplitLast(changes);
  }

  /** Every resolved id keeps a record, and every kept record is a resolved input. */
  lemma {:induction false} IngestCovers(chain: Chain, changes: seq<Change>)
    ensures Ids(Ingest(chain, changes).byId) == ResolvedIds(chain, changes)
    ensures forall w | w in Ingest(chain, changes).byId :: w in changes && Resolves(chain, w)
    decreases |changes|
  {
    if changes != [] {
      var pre, c := changes[..|changes| - 1], changes[|changes| - 1];
      IngestCovers(chain, pre);
      var st := Ingest(chain, pre);
      assert Ingest(chain, changes) == Admit(chain, st, c);
      AdmitIds(chain, st, c);
      ResolvedIdsLast(chain, changes);
      forall w | w in Admit(chain, st, c).byId ensures w in changes && Resolves(chain, w) {
        if w in st.byId {
          assert w in pre;
        }
      }
    }
  }

  lemma AdmitConservation(chain: Chain, st: Ingested, c: Change)
    ensures multiset(Admit(chain, st, c).byId) + multiset(Admit(chain, st, c).ignored)
         == multiset(st.byId) + multiset(st.ignored) + (if Resolves(chain, c) then multiset{c} else multiset{})
  {
    if Resolves(chain, c) {
      match IndexOfId(st.byId, c.id)
      case None =>
      case Some(k) =>
        if ShouldReplace(c, st.byId[k]) {
          var b := st.byId;
          assert b == b[..k] + [b[k]] + b[k + 1..];
          assert b[k := c] == b[..k] + [c] + b[k + 1..];
        }
    }
  }

  /** Kept records and losers are, together, exactly the resolved inputs. */
  lemma {:induction false} IngestConservation(chain: Chain, changes: seq<Change>)
    ensures multiset(Ingest(chain, changes).byId) + multiset(Ingest(chain, changes).ignored)
         == multiset(Resolved(chain, changes))
    decreases |changes|
  {
    if changes != [] {
      var pre, c := changes[..|changes| - 1], changes[|changes| - 1];
      SplitLast(changes);
      IngestConservation(chain, pre);
      FilterAppend(pre, [c], IsResolved(chain));
      var st := Ingest(chain, pre);
      assert Ingest(chain, changes) == Admit(chain, st, c);
      AdmitConservation(chain, st, c);
    }
  }

  /** A best record stays best when the next record does not beat it. */
  lemma StaysBest(chain: Chain, pre: seq<Change>, c: Change, w: Change)
    requires FirstBest(chain, pre, w)
    requires !(Resolves(chain, c) && c.id == w.id && ShouldReplace(c, w))
    ensures FirstBest(chain, pre + [c], w)
  {
    var k :| && 0 <= k < |pre| && pre[k] == w && Resolves(chain, w)
      && (forall j :: 0 <= j < |pre| && Resolves(chain, pre[j]) && pre[j].id == w.id ==> !ShouldReplace(pre[j], w))
      && (forall j :: 0 <= j < k && Resolves(chain, pre[j]) && pre[j].id == w.id ==> ShouldReplace(w, pre[j]));
    var changes := pre + [c];
    assert changes[k] == w;
    forall j | 0 <= j < |changes| && Resolves(chain, changes[j]) && changes[j].id == w.id
      ensures !ShouldReplace(changes[j], w)
    {
      if j < |pre| {
        assert changes[j] == pre[j];
      }
    }
    forall j | 0 <= j < k && Resolves(chain, changes[j]) && changes[j].id == w.id
      ensures ShouldReplace(w, changes[j])
    {
      assert changes[j] == pre[j];
    }
  }

  /** The first resolved record with a fresh id is best for it. */
  lemma NewBest(chain: Chain, pre: seq<Change>, c: Change)
    requires Resolves(chain, c) && c.id !in ResolvedIds(chain, pre)
    ensures FirstBest(chain, pre + [c], c)
  {
    var changes := pre + [c];
    var n := |changes|;
    assert changes[n - 1] == c;
    forall j | 0 <= j < n - 1
      ensures !(Resolves(chain, changes[j]) && changes[j].id == c.id)
    {
      assert pre[j] == changes[j];
      assert pre[j] in pre;
    }
    ShouldReplaceAsymmetric(c, c);
  }

  /** A record beating the current best becomes best. */
  lemma TakesOver(chain: Chain, pre: seq<Change>, c: Change, w0: Change)
    requires FirstBest(chain, pre, w0)
    requires Resolves(chain, c) && c.id == w0.id && ShouldReplace(c, w0)
    ensures FirstBest(chain, pre + [c], c)
  {
    var k0 :| && 0 <= k0 < |pre| && pre[k0] == w0 && Resolves(chain, w0)
      && (forall j :: 0 <= j < |pre| && Resolves(chain, pre[j]) && pre[j].id == w0.id ==> !ShouldReplace(pre[j], w0))
      && (forall j :: 0 <= j < k0 && Resolves(chain, pre[j]) && pre[j].id == w0.id ==> ShouldReplace(w0, pre[j]));
    var changes := pre + [c];
    var n := |changes|;
    assert changes[n - 1] == c;
    forall j | 0 <= j < n - 1 && Resolves(chain, changes[j]) && changes[j].id == c.id
      ensures ShouldReplace(c, changes[j])
    {
      assert pre[j] == changes[j];
      ShouldReplaceTransitive(c, w0, changes[j]);
    }
    forall j | 0 <= j < n && Resolves(chain, changes[j]) && changes[j].id == c.id
      ensures !ShouldReplace(changes[j], c)
    {
      ShouldReplaceAsymmetric(c, changes[j]);
    }
  }

  lemma AdmitFirstBest(chain: Chain, pre: seq<Change>, st: Ingested, c: Change)
    requires DistinctIds(st.byId)
    requires Ids(st.byId) == ResolvedIds(chain, pre)
    requires forall w | w in st.byId :: FirstBest(chain, pre, w)
    ensures forall w | w in Admit(chain, st, c).byId :: FirstBest(chain, pre + [c], w)
  {
    var b := st.byId;
    var b' := Admit(chain, st, c).byId;
    if !Resolves(chain, c) {
      forall w | w in b' ensures FirstBest(chain, pre + [c], w) {
        StaysBest(chain, pre, c, w);
      }
    } else {
      match IndexOfId(b, c.id)
      case None =>
        assert b' == b + [c];
        forall w | w in b' ensures FirstBest(chain, pre + [c], w) {
          if w == c {
            NewBest(chain, pre, c);
          } else {
            assert w in b;
            StaysBest(chain, pre, c, w);
          }
        }
      case Some(k) =>
        if ShouldReplace(c, b[k]) {
          assert b' == b[k := c];
          forall w | w in b' ensures FirstBest(chain, pre + [c], w) {
            var i :| 0 <= i < |b'| && b'[i] == w;
            if i == k {
              TakesOver(chain, pre, c, b[k]);
            } else {
              assert b[i] == w && b[i].id != b[k].id;
              StaysBest(chain, pre, c, w);
            }
          }
        } else {
          assert b' == b;
          forall w | w in b' ensures FirstBest(chain, pre + [c], w) {
            var i :| 0 <= i < |b| && b[i] == w;
            if i != k {
              assert b[i].id != b[k].id;
            }
            StaysBest(chain, pre, c, w);
          }
        }
    }
  }

  /** Each kept record is the one the replace rule selects for its id. */
  lemma {:induction false} IngestPicksFirstBest(chain: Chain, changes: seq<Change>)
    ensures forall w | w in Ingest(chain, changes).byId :: FirstBest(chain, changes, w)
    decreases |changes|
  {
    if changes != [] {
      var pre, c := changes[..|changes| - 1], changes[|changes| - 1];
      SplitLast(changes);
      IngestPicksFirstBest(chain, pre);
      IngestDistinct(chain, pre);
      IngestCovers(chain, pre);
      assert Ingest(chain, changes) == Admit(chain, Ingest(chain, pre), c);
      AdmitFirstBest(chain, pre, Ingest(chain, pre), c);
    }
  }

  /** The replace rule selects at most one record per id. */
  lemma FirstBestUnique(chain: Chain, changes: seq<Change>, a: Change, b: Change)
    requires FirstBest(chain, changes, a) && FirstBest(chain, changes, b) && a.id == b.id
    ensures a == b
  {
    var ka :| 0 <= ka < |changes| && changes[ka] == a && Resolves(chain, a)
      && (forall j :: 0 <= j < |changes| && Resolves(chain, changes[j]) && changes[j].id == a.id ==> !ShouldReplace(changes[j], a))
      && (forall j :: 0 <= j < ka && Resolves(chain, changes[j]) && changes[j].id == a.id ==> ShouldReplace(a, changes[j]));
    var kb :| 0 <= kb < |changes| && changes[kb] == b && Resolves(chain, b)
      && (forall j :: 0 <= j < |changes| && Resolves(chain, changes[j]) && changes[j].id == b.id ==> !ShouldReplace(changes[j], b))
      && (forall j :: 0 <= j < kb && Resolves(chain, changes[j]) && changes[j].id == b.id ==> ShouldReplace(b, changes[j]));
    assert !ShouldReplace(changes[kb], a) && !ShouldReplace(changes[ka], b);
  }

  /** Conversely, the record the replace rule selects for an id is the one kept. */
  lemma IngestKeepsFirstBest(chain: Chain, changes: seq<Change>, w: Change)
    requires FirstBest(chain, changes, w)
    ensures w in Ingest(chain, changes).byId
  {
    var byId := Ingest(chain, changes).byId;
    IngestCovers(chain, changes);
    IngestPicksFirstBest(chain, changes);
    var k :| 0 <= k < |changes| && changes[k] == w && Resolves(chain, w);
    assert w.id in ResolvedIds(chain, changes);
    var v :| v in byId && v.id == w.id;
    FirstBestUnique(chain, changes, v, w);
  }
}
