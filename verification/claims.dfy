/**
  The second loop of the `BalanceSheet` constructor: confirmed records claim
  the outpoints they spend in `spentBy`, and unconfirmed records that a
  confirmed record spends from are dropped as incoherent.
 */
module Claims {
  import opened Basics
  import opened Seqs
  import opened Changes

  /** The outpoints spent by `txs`, in enumeration order, repeats included. */
  function SpendsOf(txs: seq<Change>): (r: seq<OutPoint>)
    ensures forall t, o | t in txs && o in t.spent :: o in r
    decreases |txs|
  {
    if txs == [] then []
    else
      assert forall u | u in txs && u != txs[0] :: u in txs[1..];
      txs[0].spent + SpendsOf(txs[1..])
  }

  /** Every outpoint in `SpendsOf(txs)` comes from some record of `txs`. */
  lemma {:induction false} SpendsOfSource(txs: seq<Change>, o: OutPoint)
    requires o in SpendsOf(txs)
    ensures exists t :: t in txs && o in t.spent
    decreases |txs|
  {
    if o !in txs[0].spent {
      SpendsOfSource(txs[1..], o);
      var t :| t in txs[1..] && o in t.spent;
      assert t in txs;
    }
  }

  lemma NoDuplicatesAppend<T>(a: seq<T>, b: seq<T>)
    ensures NoDuplicates(a + b) <==> NoDuplicates(a) && NoDuplicates(b) && forall x | x in a :: x !in b
  {
    var ab := a + b;
    if NoDuplicates(ab) {
      forall i, j | 0 <= i < |b| && 0 <= j < |b| && i != j ensures b[i] != b[j] {
        assert ab[|a| + i] == b[i] && ab[|a| + j] == b[j];
      }
      forall i, j | 0 <= i < |a| && 0 <= j < |b| ensures a[i] != b[j] {
        assert ab[i] == a[i] && ab[|a| + j] == b[j];
      }
      forall i, j | 0 <= i < |a| && 0 <= j < |a| && i != j ensures a[i] != a[j] {
        assert ab[i] == a[i] && ab[j] == a[j];
      }
    }
    if NoDuplicates(a) && NoDuplicates(b) && forall x | x in a :: x !in b {
      forall i, j | 0 <= i < |ab| && 0 <= j < |ab| && i != j ensures ab[i] != ab[j] {
        if i < |a| && j >= |a| {
          assert ab[i] in a && ab[j] == b[j - |a|];
        } else if i >= |a| && j < |a| {
          assert ab[j] in a && ab[i] == b[i - |a|];
        }
      }
    }
  }

  /**
    `spentBy.Add(spent, id)` for each outpoint of one record: fails on the
    first outpoint already present; otherwise every outpoint now maps to `id`.
   */
  function ClaimOutpoints(outs: seq<OutPoint>, id: TxId, m: map<OutPoint, TxId>)
    : (r: Result<map<OutPoint, TxId>, SheetError>)
    ensures r.Failure? ==> r.error.DuplicateSpend?
    ensures r.Success? <==> NoDuplicates(outs) && forall o | o in outs :: o !in m
    ensures r.Success? ==> r.value.Keys == m.Keys + set o | o in outs
    ensures r.Success? ==> forall o | o in outs :: r.value[o] == id
    ensures r.Success? ==> forall o | o in m :: r.value[o] == m[o]
    decreases |outs|
  {
    if outs == [] then Success(m)
    else if outs[0] in m then Failure(DuplicateSpend(outs[0]))
    else
      NoDuplicatesAppend([outs[0]], outs[1..]);
      assert outs == [outs[0]] + outs[1..];
      ClaimOutpoints(outs[1..], id, m[outs[0] := id])
  }

  /**
    The claim loop over `txs` (the confirmed records, in enumeration order):
    it succeeds exactly when no outpoint is spent twice among them or already
    claimed, and then each outpoint maps to the record that spends it.
   */
  function ClaimAll(txs: seq<Change>, m: map<OutPoint, TxId>): (r: Result<map<OutPoint, TxId>, SheetError>)
    ensures r.Failure? ==> r.error.DuplicateSpend?
    ensures r.Success? <==> NoDuplicates(SpendsOf(txs)) && forall o | o in SpendsOf(txs) :: o !in m
    ensures r.Success? ==> r.value.Keys == m.Keys + set o | o in SpendsOf(txs)
    ensures r.Success? ==> forall t, o | t in txs && o in t.spent :: o in r.value && r.value[o] == t.id
    ensures r.Success? ==> forall o | o in m :: r.value[o] == m[o]
    decreases |txs|
  {
    if txs == [] then Success(m)
    else
      var t := txs[0];
      match ClaimOutpoints(t.spent, t.id, m)
      case Failure(e) =>
        NoDuplicatesAppend(t.spent, SpendsOf(txs[1..]));
        assert SpendsOf(txs) == t.spent + SpendsOf(txs[1..]);
        Failure(e)
      case Success(m1) =>
        var r := ClaimAll(txs[1..], m1);
        assert SpendsOf(txs) == t.spent + SpendsOf(txs[1..]);
        ClaimConsIff(t.spent, SpendsOf(txs[1..]), m, m1);
        if r.Failure? then r
        else
          ClaimConsKeys(t.spent, SpendsOf(txs[1..]), m, m1, r.value);
          ClaimConsValues(txs, m, m1, r.value);
          r
  }

  /** Claiming `a` first and then `b` succeeds exactly when claiming `a + b` at once would. */
  lemma ClaimConsIff(a: seq<OutPoint>, b: seq<OutPoint>, m: map<OutPoint, TxId>, m1: map<OutPoint, TxId>)
    requires NoDuplicates(a) && (forall o | o in a :: o !in m) && m1.Keys == m.Keys + set o | o in a
    ensures (NoDuplicates(b) && forall o | o in b :: o !in m1) <==> (NoDuplicates(a + b) && forall o | o in a + b :: o !in m)
  {
    NoDuplicatesAppend(a, b);
  }

  lemma ClaimConsKeys(a: seq<OutPoint>, b: seq<OutPoint>, m: map<OutPoint, TxId>, m1: map<OutPoint, TxId>, r: map<OutPoint, TxId>)
    requires m1.Keys == m.Keys + set o | o in a
    requires r.Keys == m1.Keys + set o | o in b
    ensures r.Keys == m.Keys + set o | o in a + b
  {
  }

  lemma ClaimConsValues(txs: seq<Change>, m: map<OutPoint, TxId>, m1: map<OutPoint, TxId>, r: map<OutPoint, TxId>)
    requires txs != []
    requires (forall o | o in txs[0].spent :: o in m1 && m1[o] == txs[0].id) && forall o | o in m :: o in m1 && m1[o] == m[o]
    requires forall t, o | t in txs[1..] && o in t.spent :: o in r && r[o] == t.id
    requires forall o | o in m1 :: o in r && r[o] == m1[o]
    ensures forall t, o | t in txs && o in t.spent :: o in r && r[o] == t.id
    ensures forall o | o in m :: o in r && r[o] == m[o]
  {
    assert forall u | u in txs && u != txs[0] :: u in txs[1..];
  }

  function ConfirmedOf(byId: seq<Change>): seq<Change> {
    Filter(byId, IsConfirmed)
  }

  function UnconfirmedOf(byId: seq<Change>): seq<Change> {
    Filter(byId, IsUnconfirmed)
  }

  /** The claim step of the constructor: `spentBy` built from the confirmed records. */
  function ConfirmedClaims(byId: seq<Change>): Result<map<OutPoint, TxId>, SheetError> {
    ClaimAll(ConfirmedOf(byId), map[])
  }

  /**
    The `incoherent` set: ids of unconfirmed records some confirmed record
    spends from. Its members are only read after every claim succeeded, so
    their order of discovery does not matter.
   */
  function IncoherentIds(byId: seq<Change>): set<TxId> {
    set c, o, u | c in byId && u in byId && o in c.spent && IsConfirmed(c) && IsUnconfirmed(u) && u.id == o.hash :: u.id
  }

  /** The incoherence fix-up: every incoherent id is removed from the dictionary. */
  function DropIncoherent(byId: seq<Change>): seq<Change> {
    RemoveIds(byId, IncoherentIds(byId))
  }

  /** The fix-up keeps every confirmed record and removes only unconfirmed ones. */
  lemma DropIncoherentKeepsConfirmed(byId: seq<Change>)
    requires DistinctIds(byId)
    ensures forall c | c in byId && IsConfirmed(c) :: c in DropIncoherent(byId)
    ensures forall c | c in byId && c !in DropIncoherent(byId) :: IsUnconfirmed(c)
    ensures DistinctIds(DropIncoherent(byId))
    ensures forall c | c in DropIncoherent(byId) :: c in byId
  {
    var bad := IncoherentIds(byId);
    forall c, u | c in byId && u in byId && IsConfirmed(c) && IsUnconfirmed(u) ensures c.id != u.id {
      var i :| 0 <= i < |byId| && byId[i] == c;
      var j :| 0 <= j < |byId| && byId[j] == u;
    }
    RemoveIdsDistinct(byId, bad);
  }

  /** An unconfirmed record is dropped exactly when a confirmed record spends from it. */
  lemma DropIncoherentExactly(byId: seq<Change>, u: Change)
    requires DistinctIds(byId) && u in byId && IsUnconfirmed(u)
    ensures u !in DropIncoherent(byId) <==> exists c :: c in byId && IsConfirmed(c) && Spends(c, u)
  {
    if u !in DropIncoherent(byId) {
      assert u.id in IncoherentIds(byId);
      var c, o, u' :| c in byId && u' in byId && o in c.spent && IsConfirmed(c) && IsUnconfirmed(u') && u'.id == o.hash && u'.id == u.id;
      var i :| 0 <= i < |c.spent| && c.spent[i] == o;
      assert Spends(c, u);
    }
    if exists c :: c in byId && IsConfirmed(c) && Spends(c, u) {
      var c :| c in byId && IsConfirmed(c) && Spends(c, u);
      var i :| 0 <= i < |c.spent| && c.spent[i].hash == u.id;
      assert c.spent[i] in c.spent;
      assert u.id in IncoherentIds(byId);
    }
  }
}
