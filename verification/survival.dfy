/**
  The other side of conflict removal: an unconfirmed record leaves the
  dictionary only by losing a clash over an outpoint. A record that shares
  no outpoint with any other record, and none with the claims the loop
  starts from, is never filed as a loser and survives every pass.
 */
module Survival {
  import opened Basics
  import opened Seqs
  import opened Changes
  import opened Claims
  import opened Conflicts

  /** No record of `byId` with another id spends an outpoint `x` spends. */
  ghost predicate Isolated(byId: seq<Change>, x: Change) {
    forall y, o | y in byId && y.id != x.id && o in y.spent :: o !in x.spent
  }

  /** The claims of `m` on the outpoints of `x` are all held by `x`, and `x` holds no other. */
  ghost predicate OwnClaims(m: map<OutPoint, TxId>, x: Change) {
    && (forall o | o in x.spent && o in m :: m[o] == x.id)
    && (forall o | o in m && m[o] == x.id :: o in x.spent)
  }

  lemma OwnClaimsAssign(m: map<OutPoint, TxId>, x: Change, o: OutPoint, id: TxId)
    requires OwnClaims(m, x)
    requires id == x.id ==> o in x.spent
    requires id != x.id ==> o !in x.spent
    ensures OwnClaims(m[o := id], x)
  {
  }

  /**
    Visiting the outpoints `outs` of `z` never files the isolated record `x`
    as a loser and leaves `x` holding exactly its own claims: when `z` is
    `x`, every outpoint it finds claimed is claimed by itself, and when `z`
    is another record, none of its outpoints is one of `x`'s.
   */
  lemma {:induction false} VisitSpares(byId: seq<Change>, z: Change, outs: seq<OutPoint>, p: Pass, x: Change)
    requires DistinctIds(byId) && z in byId && IsUnconfirmed(z) && x in byId
    requires forall o | o in outs :: o in z.spent
    requires Isolated(byId, x) && OwnClaims(p.spentBy, x) && x.id !in p.conflicts
    requires VisitOutpoints(byId, z, outs, p).Success?
    ensures OwnClaims(VisitOutpoints(byId, z, outs, p).value.spentBy, x)
    ensures x.id !in VisitOutpoints(byId, z, outs, p).value.conflicts
    decreases |outs|
  {
    if outs != [] {
      var o := outs[0];
      assert forall t | t in outs[1..] :: t in outs;
      assert z.id == x.id ==> z == x by {
        if z.id == x.id {
          var i :| 0 <= i < |byId| && byId[i] == z;
          var j :| 0 <= j < |byId| && byId[j] == x;
        }
      }
      assert z.id != x.id ==> o !in x.spent;
      if o in p.spentBy && Lookup(byId, p.spentBy[o]).Some? {
        var h := p.spentBy[o];
        var w := Lookup(byId, h).value;
        if h == z.id {
        } else if h in p.conflicts {
          OwnClaimsAssign(p.spentBy, x, o, z.id);
          VisitSpares(byId, z, outs[1..], p.(spentBy := p.spentBy[o := z.id]), x);
        } else if ShouldReplace(z, w) {
          assert h != x.id;
          OwnClaimsAssign(p.spentBy, x, o, z.id);
          var p' := File(p.(conflicts := p.conflicts + {h}, spentBy := p.spentBy[o := z.id]), w, w);
          VisitSpares(byId, z, outs[1..], p', x);
        } else {
          assert z.id != x.id;
          var p' := File(p.(conflicts := p.conflicts + {z.id}), z, w);
          VisitSpares(byId, z, outs[1..], p', x);
        }
      } else if o !in p.spentBy {
        OwnClaimsAssign(p.spentBy, x, o, z.id);
        VisitSpares(byId, z, outs[1..], p.(spentBy := p.spentBy[o := z.id]), x);
      }
    }
  }

  lemma {:induction false} VisitAllSpares(byId: seq<Change>, todo: seq<Change>, p: Pass, x: Change)
    requires DistinctIds(byId) && x in byId
    requires forall t | t in todo :: t in byId && IsUnconfirmed(t)
    requires Isolated(byId, x) && OwnClaims(p.spentBy, x) && x.id !in p.conflicts
    requires VisitAll(byId, todo, p).Success?
    ensures OwnClaims(VisitAll(byId, todo, p).value.spentBy, x)
    ensures x.id !in VisitAll(byId, todo, p).value.conflicts
    decreases |todo|
  {
    if todo != [] {
      var p1 := VisitOutpoints(byId, todo[0], todo[0].spent, p).value;
      VisitSpares(byId, todo[0], todo[0].spent, p, x);
      assert forall t | t in todo[1..] :: t in todo;
      VisitAllSpares(byId, todo[1..], p1, x);
    }
  }

  /**
    The `goto removeConflicts` loop keeps an unconfirmed record that shares
    no outpoint with another record when no claim it starts from touches
    the record's outpoints or names it.
   */
  lemma RemoveConflictsKeeps(byId: seq<Change>, spentBy: map<OutPoint, TxId>, replaced: seq<Change>, ignored: seq<Change>, x: Change)
    requires DistinctIds(byId) && x in byId && Isolated(byId, x)
    requires forall o | o in spentBy :: o !in x.spent && spentBy[o] != x.id
    requires RemoveConflicts(byId, spentBy, replaced, ignored).Success?
    ensures x in RemoveConflicts(byId, spentBy, replaced, ignored).value.byId
  {
    KeepsFrom(byId, spentBy, replaced, ignored, x);
  }

  /** The same, for any start in which `x` holds exactly its own claims. */
  lemma {:induction false} KeepsFrom(byId: seq<Change>, spentBy: map<OutPoint, TxId>, replaced: seq<Change>, ignored: seq<Change>, x: Change)
    requires DistinctIds(byId) && x in byId && Isolated(byId, x) && OwnClaims(spentBy, x)
    requires RemoveConflicts(byId, spentBy, replaced, ignored).Success?
    ensures x in RemoveConflicts(byId, spentBy, replaced, ignored).value.byId
    decreases |byId|
  {
    var p := ScanPass(byId, spentBy, replaced, ignored).value;
    VisitAllSpares(byId, UnconfirmedOf(byId), Pass(spentBy, {}, replaced, ignored), x);
    if p.conflicts != {} {
      var rest := RemoveIds(byId, p.conflicts);
      PassShrinks(byId, p);
      RemoveIdsDistinct(byId, p.conflicts);
      assert x in rest;
      assert RemoveConflicts(byId, spentBy, replaced, ignored) == RemoveConflicts(rest, p.spentBy, p.replaced, p.ignored);
      KeepsFrom(rest, p.spentBy, p.replaced, p.ignored, x);
    }
  }
}
