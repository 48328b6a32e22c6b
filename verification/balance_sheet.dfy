/**
  The `BalanceSheet` constructor as a whole: ingestion, confirmed claims,
  the incoherence fix-up, conflict removal, the topological sort and the
  final split into `All`, `Confirmed`, `Unconfirmed`, `Prunable` and
  `ReplacedTransactions`.
 */
module Sheets {
  import opened Basics
  import opened Seqs
  import opened Changes
  import opened Ingestion
  import opened Claims
  import opened Conflicts
  import opened FixedPoint
  import opened TopoSort
  import opened Survival
  import opened Verdicts
  import opened Rivals

  /** The five lists a balance sheet exposes. */
  datatype Sheet = Sheet(
    all: seq<Change>,
    confirmed: seq<Change>,
    unconfirmed: seq<Change>,
    prunable: seq<Change>,
    replaced: seq<Change>)

  /**
    Everything up to and including conflict removal, for a non-null chain:
    the records left standing with their claims and loser lists.
   */
  function Reconcile(chain: Chain, changes: seq<Change>): (r: Result<Settled, SheetError>)
    ensures r.Failure? ==> r.error.DuplicateSpend?
    ensures r.Success? ==> DistinctIds(r.value.byId)
    ensures r.Success? ==> forall c | c in r.value.byId :: c in changes && Resolves(chain, c)
  {
    var ing := Ingest(chain, changes);
    IngestDistinct(chain, changes);
    IngestCovers(chain, changes);
    match ConfirmedClaims(ing.byId)
    case Failure(e) => Failure(e)
    case Success(spentBy) =>
      DropIncoherentKeepsConfirmed(ing.byId);
      RemoveConflicts(DropIncoherent(ing.byId), spentBy, [], ing.ignored)
  }

  /**
    The constructor. `All` is the sorted list reversed in place, and since
    `Confirmed` and `Unconfirmed` are filtered from that same list after the
    reversal, they follow the order of `All`.
   */
  function BalanceSheet(changes: seq<Change>, chain: Option<Chain>): (r: Result<Sheet, SheetError>)
    ensures chain.None? <==> r == Failure(ChainIsNull)
    ensures r.Success? ==> Reconcile(chain.value, changes).Success?
    ensures r.Success? ==> multiset(r.value.all) == multiset(Reconcile(chain.value, changes).value.byId)
    ensures r.Success? ==> SpendersFirst(r.value.all)
    ensures r.Success? ==> r.value.confirmed == Filter(r.value.all, IsConfirmed)
    ensures r.Success? ==> r.value.unconfirmed == Filter(r.value.all, IsUnconfirmed)
    ensures chain.Some? && Reconcile(chain.value, changes).Success? ==>
              (r.Failure? <==> forall s: seq<Change> | multiset(s) == multiset(Reconcile(chain.value, changes).value.byId)
                                  :: !ParentsFirst(s))
  {
    if chain.None? then Failure(ChainIsNull)
    else
      var ch := chain.value;
      match Reconcile(ch, changes)
      case Failure(e) => Failure(e)
      case Success(st) =>
        SortFailsOnlyOnCycle(st.byId);
        match TopologicalSort(st.byId)
        case None => Failure(CircularDependency)
        case Some(sorted) =>
          var all := Reverse(sorted);
          ReverseSpendersFirst(sorted);
          var ing := Ingest(ch, changes);
          Success(Sheet(all, Filter(all, IsConfirmed), Filter(all, IsUnconfirmed), ing.prunable + st.ignored, st.replaced))
  }

  /** The stages a successful constructor went through. */
  lemma Unpack(changes: seq<Change>, chain: Option<Chain>)
    requires BalanceSheet(changes, chain).Success?
    ensures chain.Some?
    ensures var ing := Ingest(chain.value, changes);
      && DistinctIds(ing.byId)
      && ConfirmedClaims(ing.byId).Success?
      && DistinctIds(DropIncoherent(ing.byId))
      && Reconcile(chain.value, changes) == RemoveConflicts(DropIncoherent(ing.byId), ConfirmedClaims(ing.byId).value, [], ing.ignored)
      && Reconcile(chain.value, changes).Success?
      && BalanceSheet(changes, chain).value.prunable == ing.prunable + Reconcile(chain.value, changes).value.ignored
      && BalanceSheet(changes, chain).value.replaced == Reconcile(chain.value, changes).value.replaced
  {
    var ing := Ingest(chain.value, changes);
    IngestDistinct(chain.value, changes);
    DropIncoherentKeepsConfirmed(ing.byId);
  }

  /** `All` holds one record per transaction id. */
  lemma SheetDistinct(changes: seq<Change>, chain: Option<Chain>)
    ensures var r := BalanceSheet(changes, chain); r.Success? ==> DistinctIds(r.value.all)
  {
    if BalanceSheet(changes, chain).Success? {
      var st := Reconcile(chain.value, changes).value;
      PermutationKeepsDistinct(st.byId, BalanceSheet(changes, chain).value.all);
    }
  }

  /**
    `All` holds only input records whose block is known (or that have none);
    the unresolved records open `Prunable`, in input order, followed by the
    records that lost to a same-id record.
   */
  lemma SheetPrunesUnresolved(changes: seq<Change>, chain: Option<Chain>)
    ensures var r := BalanceSheet(changes, chain); r.Success? ==>
      && (forall c | c in r.value.all :: c in changes && Resolves(chain.value, c))
      && Unresolved(chain.value, changes) + Ingest(chain.value, changes).ignored <= r.value.prunable
  {
    if BalanceSheet(changes, chain).Success? {
      var r := BalanceSheet(changes, chain).value;
      var st := Reconcile(chain.value, changes).value;
      assert forall c | c in r.all :: c in changes && Resolves(chain.value, c) by {
        assert forall c | c in r.all :: c in multiset(st.byId);
      }
      Unpack(changes, chain);
      var ing := Ingest(chain.value, changes);
      SettledAvoidsIncoherent(ing.byId, ConfirmedClaims(ing.byId).value, ing.ignored);
      IngestPrunable(chain.value, changes);
      PrefixAppend(ing.prunable, ing.ignored, st.ignored);
    }
  }

  /** `ReplacedTransactions` holds only unconfirmed input records. */
  lemma SheetReplacedUnconfirmed(changes: seq<Change>, chain: Option<Chain>)
    ensures var r := BalanceSheet(changes, chain); r.Success? ==>
      forall c | c in r.value.replaced :: c in changes && IsUnconfirmed(c)
  {
    if BalanceSheet(changes, chain).Success? {
      Unpack(changes, chain);
      var ing := Ingest(chain.value, changes);
      IngestCovers(chain.value, changes);
      DropIncoherentKeepsConfirmed(ing.byId);
    }
  }

  /** A confirmed record kept by the dedup loop reaches `All`. */
  lemma KeptConfirmedInAll(changes: seq<Change>, chain: Option<Chain>, c: Change)
    requires BalanceSheet(changes, chain).Success?
    requires chain.Some? && c in Ingest(chain.value, changes).byId && IsConfirmed(c)
    ensures c in BalanceSheet(changes, chain).value.all
  {
    Unpack(changes, chain);
    var ing := Ingest(chain.value, changes);
    DropIncoherentKeepsConfirmed(ing.byId);
    var st := Reconcile(chain.value, changes).value;
    assert c in st.byId;
    assert c in multiset(BalanceSheet(changes, chain).value.all);
  }

  /** Every confirmed record the replace rule selects for its id is in `All`. */
  lemma SheetKeepsConfirmedWinners(changes: seq<Change>, chain: Option<Chain>)
    ensures var r := BalanceSheet(changes, chain); r.Success? ==>
      forall c | IsConfirmed(c) && FirstBest(chain.value, changes, c) :: c in r.value.all
  {
    if BalanceSheet(changes, chain).Success? {
      forall c | IsConfirmed(c) && FirstBest(chain.value, changes, c) ensures c in BalanceSheet(changes, chain).value.all {
        IngestKeepsFirstBest(chain.value, changes, c);
        KeptConfirmedInAll(changes, chain, c);
      }
    }
  }

  /**
    An unconfirmed record the replace rule selects for its id reaches `All`
    and `Unconfirmed` when no record with another id spends any of its
    outpoints and no confirmed record spends from it: only a clash over an
    outpoint, or the incoherence fix-up, removes an unconfirmed record.
   */
  lemma SheetKeepsIsolated(changes: seq<Change>, chain: Option<Chain>)
    ensures var r := BalanceSheet(changes, chain); r.Success? ==>
      forall x | IsUnconfirmed(x) && FirstBest(chain.value, changes, x) && Isolated(changes, x)
                 && (forall d | d in changes && IsConfirmed(d) :: !Spends(d, x))
        :: x in r.value.all && x in r.value.unconfirmed
  {
    if BalanceSheet(changes, chain).Success? {
      forall x | IsUnconfirmed(x) && FirstBest(chain.value, changes, x) && Isolated(changes, x)
                 && (forall d | d in changes && IsConfirmed(d) :: !Spends(d, x))
        ensures x in BalanceSheet(changes, chain).value.all && x in BalanceSheet(changes, chain).value.unconfirmed
      {
        IsolatedInAll(changes, chain, x);
      }
    }
  }

  lemma IsolatedInAll(changes: seq<Change>, chain: Option<Chain>, x: Change)
    requires BalanceSheet(changes, chain).Success?
    requires IsUnconfirmed(x) && chain.Some? && FirstBest(chain.value, changes, x) && Isolated(changes, x)
    requires forall d | d in changes && IsConfirmed(d) :: !Spends(d, x)
    ensures x in BalanceSheet(changes, chain).value.all && x in BalanceSheet(changes, chain).value.unconfirmed
  {
    Unpack(changes, chain);
    var ing := Ingest(chain.value, changes);
    IngestKeepsFirstBest(chain.value, changes, x);
    IngestCovers(chain.value, changes);
    var kept := DropIncoherent(ing.byId);
    DropIncoherentKeepsConfirmed(ing.byId);
    DropIncoherentExactly(ing.byId, x);
    assert x in kept;
    assert Isolated(kept, x);
    var spentBy := ConfirmedClaims(ing.byId).value;
    UntouchedClaims(ing.byId, changes, x);
    RemoveConflictsKeeps(kept, spentBy, [], ing.ignored, x);
    var st := Reconcile(chain.value, changes).value;
    assert x in st.byId;
    assert x in multiset(BalanceSheet(changes, chain).value.all);
  }

  /** The confirmed claims name, for each outpoint, a record that spends it. */
  lemma ClaimsBacked(byId: seq<Change>)
    requires DistinctIds(byId) && ConfirmedClaims(byId).Success?
    ensures Backed(DropIncoherent(byId), ConfirmedClaims(byId).value)
  {
    var m := ConfirmedClaims(byId).value;
    var kept := DropIncoherent(byId);
    DropIncoherentKeepsConfirmed(byId);
    forall o, c | o in m && c in kept && c.id == m[o] ensures o in c.spent {
      assert o in SpendsOf(ConfirmedOf(byId));
      SpendsOfSource(ConfirmedOf(byId), o);
      var t :| t in ConfirmedOf(byId) && o in t.spent;
      SameId(byId, c, t);
    }
  }

  /**
    Why a record loses in the double-spend loop. Every record in
    `ReplacedTransactions` shares an outpoint with an unconfirmed input
    record of another id that it does not beat under the replace rule;
    every record the loop appends to `Prunable` shares one with such a
    confirmed record; and a record the replace rule selects for its id that
    no confirmed record spends from is missing from `All` only after losing
    such a clash.
   */
  lemma SheetLosersJustified(changes: seq<Change>, chain: Option<Chain>)
    ensures var r := BalanceSheet(changes, chain); r.Success? ==>
      var start := |Unresolved(chain.value, changes)| + |Ingest(chain.value, changes).ignored|;
      && start <= |r.value.prunable|
      && (forall y | y in r.value.replaced :: LostTo(changes, y, false))
      && (forall y | y in r.value.prunable[start..] :: LostTo(changes, y, true))
      && (forall x | FirstBest(chain.value, changes, x) && (forall d | d in changes && IsConfirmed(d) :: !Spends(d, x))
                     && x !in r.value.all :: Lost(changes, x))
  {
    if BalanceSheet(changes, chain).Success? {
      var r := BalanceSheet(changes, chain).value;
      Unpack(changes, chain);
      var ch := chain.value;
      var ing := Ingest(ch, changes);
      var kept := DropIncoherent(ing.byId);
      var spentBy := ConfirmedClaims(ing.byId).value;
      var st := Reconcile(ch, changes).value;
      IngestCovers(ch, changes);
      DropIncoherentKeepsConfirmed(ing.byId);
      ClaimsBacked(ing.byId);
      RemoveConflictsJustified(kept, spentBy, [], ing.ignored);
      IngestPrunable(ch, changes);
      PrunableTail(ing.prunable, ing.ignored, st.ignored);
      assert st.replaced[0..] == st.replaced;
      forall y | y in r.replaced ensures LostTo(changes, y, false) {
        LostToMono(kept, changes, y, false);
      }
      forall y | y in r.prunable[|ing.prunable| + |ing.ignored|..] ensures LostTo(changes, y, true) {
        LostToMono(kept, changes, y, true);
      }
      forall x | FirstBest(ch, changes, x) && (forall d | d in changes && IsConfirmed(d) :: !Spends(d, x)) && x !in r.all
        ensures Lost(changes, x)
      {
        LoserWasKept(changes, chain, x);
        assert x !in st.byId by {
          assert x in multiset(st.byId) ==> x in multiset(r.all);
        }
        if LostTo(kept, x, true) { LostToMono(kept, changes, x, true); } else { LostToMono(kept, changes, x, false); }
      }
    }
  }

  /** A record the replace rule selects, and that no confirmed record spends from, enters conflict removal. */
  lemma LoserWasKept(changes: seq<Change>, chain: Option<Chain>, x: Change)
    requires chain.Some? && FirstBest(chain.value, changes, x)
    requires forall d | d in changes && IsConfirmed(d) :: !Spends(d, x)
    ensures x in DropIncoherent(Ingest(chain.value, changes).byId)
  {
    var ing := Ingest(chain.value, changes);
    IngestKeepsFirstBest(chain.value, changes, x);
    IngestDistinct(chain.value, changes);
    IngestCovers(chain.value, changes);
    DropIncoherentKeepsConfirmed(ing.byId);
    if IsUnconfirmed(x) {
      DropIncoherentExactly(ing.byId, x);
    }
  }

  /** No record of `changes` with an id other than those of `a` and `b` spends an outpoint of either. */
  ghost predicate Secluded(changes: seq<Change>, a: Change, b: Change) {
    forall y | y in changes && y.id != a.id && y.id != b.id :: forall o | o in y.spent :: o !in a.spent && o !in b.spent
  }

  /**
    Two unconfirmed records the replace rule selects for their ids, that
    spend a common outpoint, whose outpoints no input record of a third id
    spends, and that no confirmed record spends from: the one the replace
    rule ranks higher reaches `All` and `Unconfirmed`, and the other is in
    `ReplacedTransactions` and not in `All`, whichever of the two the loop
    visits first.
   */
  lemma SheetSettlesRivals(changes: seq<Change>, chain: Option<Chain>, a: Change, b: Change)
    requires BalanceSheet(changes, chain).Success?
    requires chain.Some? && FirstBest(chain.value, changes, a) && FirstBest(chain.value, changes, b)
    requires Rivalry(a, b) && Shared(a, b) && NoDuplicates(a.spent) && NoDuplicates(b.spent)
    requires Secluded(changes, a, b)
    requires forall d | d in changes && IsConfirmed(d) :: !Spends(d, a) && !Spends(d, b)
    ensures var r := BalanceSheet(changes, chain).value;
      && b in r.all && b in r.unconfirmed
      && a in r.replaced && a !in r.all
  {
    Unpack(changes, chain);
    var ing := Ingest(chain.value, changes);
    LoserWasKept(changes, chain, a);
    LoserWasKept(changes, chain, b);
    IngestCovers(chain.value, changes);
    SettleRivals(ing.byId, changes, ing.ignored, a, b);
    var st := Reconcile(chain.value, changes).value;
    var r := BalanceSheet(changes, chain).value;
    assert b in multiset(r.all) && a !in multiset(r.all) by {
      assert b in multiset(st.byId) && a !in multiset(st.byId);
    }
  }

  /** Conflict removal from the confirmed claims settles the rivals by the replace rule. */
  lemma SettleRivals(byId: seq<Change>, changes: seq<Change>, ignored: seq<Change>, a: Change, b: Change)
    requires DistinctIds(byId) && a in DropIncoherent(byId) && b in DropIncoherent(byId)
    requires forall c | c in byId :: c in changes
    requires Rivalry(a, b) && Shared(a, b) && NoDuplicates(a.spent) && NoDuplicates(b.spent)
    requires Secluded(changes, a, b)
    requires ConfirmedClaims(byId).Success?
    requires DistinctIds(DropIncoherent(byId))
    requires RemoveConflicts(DropIncoherent(byId), ConfirmedClaims(byId).value, [], ignored).Success?
    ensures var st := RemoveConflicts(DropIncoherent(byId), ConfirmedClaims(byId).value, [], ignored).value;
      b in st.byId && a !in st.byId && a in st.replaced
  {
    var kept := DropIncoherent(byId);
    DropIncoherentKeepsConfirmed(byId);
    KeptApart(kept, changes, a, b);
    PairUntouched(byId, changes, a, b);
    RivalsSettled(kept, ConfirmedClaims(byId).value, [], ignored, a, b);
  }

  /** Among distinct records drawn from the input, the rivals are apart from the rest. */
  lemma KeptApart(kept: seq<Change>, changes: seq<Change>, a: Change, b: Change)
    requires DistinctIds(kept) && a in kept && b in kept
    requires forall c | c in kept :: c in changes
    requires Secluded(changes, a, b)
    ensures Apart(kept, a, b)
  {
  }

  /** The confirmed claims touch no outpoint of either rival and name neither. */
  lemma PairUntouched(byId: seq<Change>, changes: seq<Change>, a: Change, b: Change)
    requires DistinctIds(byId) && a in byId && b in byId && IsUnconfirmed(a) && IsUnconfirmed(b)
    requires forall c | c in byId :: c in changes
    requires Secluded(changes, a, b)
    requires ConfirmedClaims(byId).Success?
    ensures var m := ConfirmedClaims(byId).value;
      forall o | o in m :: o !in a.spent && o !in b.spent && m[o] != a.id && m[o] != b.id
  {
    var m := ConfirmedClaims(byId).value;
    forall o | o in m ensures o !in a.spent && o !in b.spent && m[o] != a.id && m[o] != b.id {
      assert o in SpendsOf(ConfirmedOf(byId));
      SpendsOfSource(ConfirmedOf(byId), o);
      var t :| t in ConfirmedOf(byId) && o in t.spent;
      assert t.id != a.id && t.id != b.id by {
        if t.id == a.id { SameId(byId, t, a); }
        if t.id == b.id { SameId(byId, t, b); }
      }
    }
  }

  /**
    An unconfirmed record the replace rule selects for its id, whose
    outpoints only confirmed input records of other ids spend, at least one
    of them selected for its own id, and that no confirmed record spends
    from, is in `Prunable`, and in neither `ReplacedTransactions` nor `All`.
   */
  lemma SheetIgnoresOutranked(changes: seq<Change>, chain: Option<Chain>, x: Change, d: Change)
    requires BalanceSheet(changes, chain).Success?
    requires chain.Some? && IsUnconfirmed(x) && FirstBest(chain.value, changes, x) && NoDuplicates(x.spent)
    requires forall y, o | y in changes && y.id != x.id && o in y.spent && o in x.spent :: IsConfirmed(y)
    requires IsConfirmed(d) && FirstBest(chain.value, changes, d) && Shared(x, d)
    requires forall c | c in changes && IsConfirmed(c) :: !Spends(c, x)
    ensures var r := BalanceSheet(changes, chain).value;
      x in r.prunable && x !in r.replaced && x !in r.all
  {
    Unpack(changes, chain);
    var ing := Ingest(chain.value, changes);
    var kept := DropIncoherent(ing.byId);
    var spentBy := ConfirmedClaims(ing.byId).value;
    LoserWasKept(changes, chain, x);
    IngestKeepsFirstBest(chain.value, changes, d);
    IngestCovers(chain.value, changes);
    DropIncoherentKeepsConfirmed(ing.byId);
    assert FacesConfirmed(kept, x);
    OutrankedClaims(ing.byId, x, d);
    ConfirmedLoser(kept, spentBy, [], ing.ignored, x);
    ClaimsBacked(ing.byId);
    RemoveConflictsJustified(kept, spentBy, [], ing.ignored);
    var st := Reconcile(chain.value, changes).value;
    var r := BalanceSheet(changes, chain).value;
    assert x !in st.replaced by {
      assert st.replaced[0..] == st.replaced;
    }
    assert x !in multiset(r.all) by {
      assert x !in multiset(st.byId);
    }
  }

  /** The confirmed claims name a confirmed record on every claimed outpoint of `x`, and claim the one `d` shares. */
  lemma OutrankedClaims(byId: seq<Change>, x: Change, d: Change)
    requires DistinctIds(byId) && d in byId && IsConfirmed(d) && Shared(x, d)
    requires ConfirmedClaims(byId).Success?
    ensures ClaimsConfirmed(DropIncoherent(byId), ConfirmedClaims(byId).value, x)
    ensures exists o | o in x.spent :: o in ConfirmedClaims(byId).value
  {
    var m := ConfirmedClaims(byId).value;
    var kept := DropIncoherent(byId);
    DropIncoherentKeepsConfirmed(byId);
    forall o | o in x.spent && o in m ensures Lookup(kept, m[o]).Some? && IsConfirmed(Lookup(kept, m[o]).value) {
      assert o in SpendsOf(ConfirmedOf(byId));
      SpendsOfSource(ConfirmedOf(byId), o);
      var t :| t in ConfirmedOf(byId) && o in t.spent;
      assert t in kept && m[o] == t.id;
    }
    var o :| o in x.spent && o in d.spent;
    assert d in ConfirmedOf(byId);
    assert o in m;
  }

  /** The confirmed claims touch no outpoint of an isolated unconfirmed record, nor name it. */
  lemma UntouchedClaims(byId: seq<Change>, changes: seq<Change>, x: Change)
    requires DistinctIds(byId) && x in byId && IsUnconfirmed(x) && Isolated(changes, x)
    requires forall c | c in byId :: c in changes
    requires ConfirmedClaims(byId).Success?
    ensures forall o | o in ConfirmedClaims(byId).value :: o !in x.spent && ConfirmedClaims(byId).value[o] != x.id
  {
    var m := ConfirmedClaims(byId).value;
    forall o | o in m ensures o !in x.spent && m[o] != x.id {
      assert o in SpendsOf(ConfirmedOf(byId));
      SpendsOfSource(ConfirmedOf(byId), o);
      var t :| t in ConfirmedOf(byId) && o in t.spent;
      assert t.id != x.id by {
        var i :| 0 <= i < |byId| && byId[i] == t;
        var j :| 0 <= j < |byId| && byId[j] == x;
      }
    }
  }

  /**
    No input record is lost: each is in `All`, `Prunable` or
    `ReplacedTransactions`, or is an unconfirmed record dropped as
    incoherent because a confirmed record of `All` spends from it.
   */
  lemma SheetAccountsForEveryChange(changes: seq<Change>, chain: Option<Chain>)
    ensures var r := BalanceSheet(changes, chain); r.Success? ==>
      forall c | c in changes ::
        || c in r.value.all || c in r.value.prunable || c in r.value.replaced
        || (IsUnconfirmed(c) && exists d :: d in r.value.all && IsConfirmed(d) && Spends(d, c))
  {
    if BalanceSheet(changes, chain).Success? {
      var r := BalanceSheet(changes, chain).value;
      Unpack(changes, chain);
      var ch := chain.value;
      var ing := Ingest(ch, changes);
      var byId := DropIncoherent(ing.byId);
      var st := Reconcile(ch, changes).value;
      IngestPrunable(ch, changes);
      IngestConservation(ch, changes);
      DropIncoherentKeepsConfirmed(ing.byId);
      forall c | c in changes
        ensures || c in r.all || c in r.prunable || c in r.replaced
                || (IsUnconfirmed(c) && exists d :: d in r.all && IsConfirmed(d) && Spends(d, c))
      {
        if !Resolves(ch, c) {
          assert c in Unresolved(ch, changes);
        } else {
          assert c in Resolved(ch, changes);
          assert c in multiset(ing.byId) + multiset(ing.ignored);
          if c in ing.ignored {
            assert c in st.ignored;
          } else if c in byId {
            assert c in st.byId || c in st.replaced || c in st.ignored;
            assert c in st.byId ==> c in multiset(r.all);
          } else {
            DropIncoherentExactly(ing.byId, c);
            var d :| d in ing.byId && IsConfirmed(d) && Spends(d, c);
            KeptConfirmedInAll(changes, chain, d);
          }
        }
      }
    }
  }

  /**
    The incoherent records disappear: no record with such an id is in
    `All`, in `ReplacedTransactions`, or among the conflict losers appended
    to `Prunable`.
   */
  lemma SheetDropsIncoherent(changes: seq<Change>, chain: Option<Chain>)
    ensures var r := BalanceSheet(changes, chain); r.Success? ==>
      var bad := IncoherentIds(Ingest(chain.value, changes).byId);
      var start := |Unresolved(chain.value, changes)| + |Ingest(chain.value, changes).ignored|;
      && start <= |r.value.prunable|
      && (forall c | c in r.value.all :: c.id !in bad)
      && (forall c | c in r.value.replaced :: c.id !in bad)
      && (forall c | c in r.value.prunable[start..] :: c.id !in bad)
  {
    if BalanceSheet(changes, chain).Success? {
      var r := BalanceSheet(changes, chain).value;
      Unpack(changes, chain);
      var ing := Ingest(chain.value, changes);
      var st := Reconcile(chain.value, changes).value;
      SettledAvoidsIncoherent(ing.byId, ConfirmedClaims(ing.byId).value, ing.ignored);
      IngestPrunable(chain.value, changes);
      PrunableTail(ing.prunable, ing.ignored, st.ignored);
      assert forall c | c in r.all :: c in multiset(st.byId);
    }
  }

  /** Conflict removal started from the fixed-up records never brings an incoherent id back. */
  lemma SettledAvoidsIncoherent(byId: seq<Change>, spentBy: map<OutPoint, TxId>, ignored: seq<Change>)
    requires DistinctIds(DropIncoherent(byId))
    requires RemoveConflicts(DropIncoherent(byId), spentBy, [], ignored).Success?
    ensures var st := RemoveConflicts(DropIncoherent(byId), spentBy, [], ignored).value;
      var bad := IncoherentIds(byId);
      && ignored <= st.ignored
      && (forall c | c in st.byId :: c.id !in bad)
      && (forall c | c in st.replaced :: c.id !in bad)
      && (forall c | c in st.ignored[|ignored|..] :: c.id !in bad)
  {
    var kept := DropIncoherent(byId);
    var st := RemoveConflicts(kept, spentBy, [], ignored).value;
    assert forall c | c in st.replaced :: c in kept by {
      assert st.replaced[0..] == st.replaced;
    }
  }

  lemma PrefixAppend(a: seq<Change>, b: seq<Change>, c: seq<Change>)
    requires b <= c
    ensures a + b <= a + c
  {
    assert (a + c)[..|a + b|] == a + b;
  }

  /** The records appended after the unresolved ones and the dedup losers. */
  lemma PrunableTail(unresolved: seq<Change>, losers: seq<Change>, ignored: seq<Change>)
    requires losers <= ignored
    ensures (unresolved + ignored)[|unresolved| + |losers|..] == ignored[|losers|..]
  {
  }

  /** The claims built from the confirmed records are the state the conflict loop starts from. */
  lemma ClaimsConfirmedOnly(byId: seq<Change>)
    requires DistinctIds(byId) && ConfirmedClaims(byId).Success?
    ensures ConfirmedOnly(DropIncoherent(byId), ConfirmedClaims(byId).value)
  {
    var m := ConfirmedClaims(byId).value;
    var kept := DropIncoherent(byId);
    DropIncoherentKeepsConfirmed(byId);
    forall o | o in m ensures m[o] in ConfirmedIds(kept) {
      assert o in SpendsOf(ConfirmedOf(byId));
      SpendsOfSource(ConfirmedOf(byId), o);
      var t :| t in ConfirmedOf(byId) && o in t.spent;
      assert t in kept;
    }
  }

  /**
    Conflict removal started from the confirmed claims of distinct records
    that list no outpoint twice succeeds, and its survivors hold the claims
    on every outpoint they spend.
   */
  lemma SettleFromClaims(byId: seq<Change>, ignored: seq<Change>)
    requires DistinctIds(byId) && SpendsDistinct(byId) && ConfirmedClaims(byId).Success?
    ensures DistinctIds(DropIncoherent(byId))
    ensures RemoveConflicts(DropIncoherent(byId), ConfirmedClaims(byId).value, [], ignored).Success?
    ensures ClaimsHeld(RemoveConflicts(DropIncoherent(byId), ConfirmedClaims(byId).value, [], ignored).value.byId,
                       RemoveConflicts(DropIncoherent(byId), ConfirmedClaims(byId).value, [], ignored).value.spentBy)
  {
    var kept := DropIncoherent(byId);
    DropIncoherentKeepsConfirmed(byId);
    assert SpendsDistinct(kept);
    ClaimsConfirmedOnly(byId);
    SettleHoldsClaims(kept, ConfirmedClaims(byId).value, [], ignored);
  }

  /**
    When no record lists an outpoint twice, conflict removal cannot fail once
    the confirmed claims are in, and the survivors hold the claims on every
    outpoint they spend.
   */
  lemma ReconcileHoldsClaims(chain: Chain, changes: seq<Change>)
    requires SpendsDistinct(changes)
    ensures ConfirmedClaims(Ingest(chain, changes).byId).Success? ==> Reconcile(chain, changes).Success?
    ensures Reconcile(chain, changes).Success? ==>
      ClaimsHeld(Reconcile(chain, changes).value.byId, Reconcile(chain, changes).value.spentBy)
  {
    var ing := Ingest(chain, changes);
    IngestDistinct(chain, changes);
    assert SpendsDistinct(ing.byId) by {
      IngestCovers(chain, changes);
    }
    if ConfirmedClaims(ing.byId).Success? {
      SettleFromClaims(ing.byId, ing.ignored);
    }
  }

  /** Claims held by a list of records are held by any permutation of it. */
  lemma ClaimsHeldPermuted(a: seq<Change>, b: seq<Change>, m: map<OutPoint, TxId>)
    requires ClaimsHeld(a, m) && multiset(a) == multiset(b)
    ensures ClaimsHeld(b, m)
  {
    forall c, o | c in b && o in c.spent ensures o in m && m[o] == c.id {
      assert c in multiset(a);
    }
  }

  /**
    When no record lists an outpoint twice, no two records of `All`
    spend the same outpoint.
   */
  lemma SheetConflictFree(changes: seq<Change>, chain: Option<Chain>)
    requires SpendsDistinct(changes)
    ensures var r := BalanceSheet(changes, chain); r.Success? ==>
      forall i, j | 0 <= i < |r.value.all| && 0 <= j < |r.value.all| && i != j :: !DoubleSpend(r.value.all[i], r.value.all[j])
  {
    if BalanceSheet(changes, chain).Success? {
      var all := BalanceSheet(changes, chain).value.all;
      var st := Reconcile(chain.value, changes).value;
      ReconcileHoldsClaims(chain.value, changes);
      ClaimsHeldPermuted(st.byId, all, st.spentBy);
      SheetDistinct(changes, chain);
      ClaimsExcludeDoubleSpends(all, st.spentBy);
    }
  }

  /** Confirmed records that double-spend make the constructor fail. */
  lemma SheetRejectsConfirmedDoubleSpend(changes: seq<Change>, chain: Option<Chain>)
    requires chain.Some?
    ensures !NoDuplicates(SpendsOf(ConfirmedOf(Ingest(chain.value, changes).byId))) ==>
      var r := BalanceSheet(changes, chain); r.Failure? && r.error.DuplicateSpend?
  {
  }

  /**
    When no record lists an outpoint twice, the constructor fails only for a
    null chain, for confirmed records that spend the same outpoint, or for
    survivors that admit no parents-first order.
   */
  lemma SheetFailures(changes: seq<Change>, chain: Option<Chain>)
    requires SpendsDistinct(changes)
    ensures var r := BalanceSheet(changes, chain); r.Failure? ==>
      || (chain.None? && r.error == ChainIsNull)
      || (chain.Some? && r.error.DuplicateSpend? && !NoDuplicates(SpendsOf(ConfirmedOf(Ingest(chain.value, changes).byId))))
      || (chain.Some? && r.error == CircularDependency && Reconcile(chain.value, changes).Success?
          && forall s: seq<Change> | multiset(s) == multiset(Reconcile(chain.value, changes).value.byId) :: !ParentsFirst(s))
  {
    if chain.Some? {
      ReconcileHoldsClaims(chain.value, changes);
    }
  }
}
