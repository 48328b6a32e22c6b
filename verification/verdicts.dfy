/**
  Why a record leaves in the double-spend loop. Every record the loop
  removes lost a clash over an outpoint it shares with a record of another
  id that it does not beat under the replace rule, and the list it is
  filed in is fixed by that record: `ReplacedTransactions` when it is
  unconfirmed, the ignored list when it is confirmed.
 */
module Verdicts {
  import opened Basics
  import opened Seqs
  import opened Changes
  import opened Claims
  import opened Conflicts

  /**
    `y` shares an outpoint with a record of `byId` of another id, confirmed
    or not as `confirmed` says, that `y` does not beat.
   */
  ghost predicate LostTo(byId: seq<Change>, y: Change, confirmed: bool) {
    exists z, o :: z in byId && z.id != y.id && IsConfirmed(z) == confirmed && o in y.spent && o in z.spent && !ShouldReplace(y, z)
  }

  ghost predicate Lost(byId: seq<Change>, y: Change) {
    LostTo(byId, y, true) || LostTo(byId, y, false)
  }

  /** Every claim names a record that spends the outpoint, when that record is still present. */
  ghost predicate Backed(byId: seq<Change>, m: map<OutPoint, TxId>) {
    forall o, c | o in m && c in byId && c.id == m[o] :: o in c.spent
  }

  /** Between `p` and `r`, every record marked and every record filed lost a clash, as above. */
  ghost predicate Justified(byId: seq<Change>, p: Pass, r: Pass) {
    && p.replaced <= r.replaced && p.ignored <= r.ignored
    && (forall y | y in byId && y.id in r.conflicts && y.id !in p.conflicts :: Lost(byId, y))
    && (forall y | y in r.replaced[|p.replaced|..] :: LostTo(byId, y, false))
    && (forall y | y in r.ignored[|p.ignored|..] :: LostTo(byId, y, true))
  }

  lemma JustifiedTrans(byId: seq<Change>, p: Pass, q: Pass, r: Pass)
    requires Justified(byId, p, q) && Justified(byId, q, r)
    ensures Justified(byId, p, r)
  {
    assert r.replaced[|p.replaced|..] == q.replaced[|p.replaced|..] + r.replaced[|q.replaced|..];
    assert r.ignored[|p.ignored|..] == q.ignored[|p.ignored|..] + r.ignored[|q.ignored|..];
  }

  lemma LostToMono(a: seq<Change>, b: seq<Change>, y: Change, confirmed: bool)
    requires forall c | c in a :: c in b
    requires LostTo(a, y, confirmed)
    ensures LostTo(b, y, confirmed)
  {
    var z, o :| z in a && z.id != y.id && IsConfirmed(z) == confirmed && o in y.spent && o in z.spent && !ShouldReplace(y, z);
    assert z in b;
  }

  /** Two records of a dictionary with one id are the same record. */
  lemma SameId(byId: seq<Change>, a: Change, b: Change)
    requires DistinctIds(byId) && a in byId && b in byId && a.id == b.id
    ensures a == b
  {
    var i :| 0 <= i < |byId| && byId[i] == a;
    var j :| 0 <= j < |byId| && byId[j] == b;
  }

  /**
    The visit of `x`'s outpoints `outs`: the record a replace marks lost to
    `x`, and `x`, when it is marked, lost to the claimant it met.
   */
  lemma {:induction false} VisitJustified(byId: seq<Change>, x: Change, outs: seq<OutPoint>, p: Pass)
    requires DistinctIds(byId) && x in byId && IsUnconfirmed(x)
    requires forall o | o in outs :: o in x.spent
    requires Backed(byId, p.spentBy)
    requires VisitOutpoints(byId, x, outs, p).Success?
    ensures Backed(byId, VisitOutpoints(byId, x, outs, p).value.spentBy)
    ensures Justified(byId, p, VisitOutpoints(byId, x, outs, p).value)
    decreases |outs|
  {
    if outs != [] {
      var o := outs[0];
      assert forall t | t in outs[1..] :: t in outs;
      if o in p.spentBy && Lookup(byId, p.spentBy[o]).Some? {
        var h := p.spentBy[o];
        var w := Lookup(byId, h).value;
        if h == x.id {
        } else if h in p.conflicts {
          var p' := p.(spentBy := p.spentBy[o := x.id]);
          VisitJustified(byId, x, outs[1..], p');
          JustifiedTrans(byId, p, p', VisitOutpoints(byId, x, outs[1..], p').value);
        } else if ShouldReplace(x, w) {
          var p' := File(p.(conflicts := p.conflicts + {h}, spentBy := p.spentBy[o := x.id]), w, w);
          ReplaceJustified(byId, x, o, p);
          VisitJustified(byId, x, outs[1..], p');
          JustifiedTrans(byId, p, p', VisitOutpoints(byId, x, outs[1..], p').value);
        } else {
          var p' := File(p.(conflicts := p.conflicts + {x.id}), x, w);
          LoseJustified(byId, x, o, p);
          VisitJustified(byId, x, outs[1..], p');
          JustifiedTrans(byId, p, p', VisitOutpoints(byId, x, outs[1..], p').value);
        }
      } else if o !in p.spentBy {
        var p' := p.(spentBy := p.spentBy[o := x.id]);
        VisitJustified(byId, x, outs[1..], p');
        JustifiedTrans(byId, p, p', VisitOutpoints(byId, x, outs[1..], p').value);
      }
    }
  }

  /** `x` takes outpoint `o` from a claimant it beats, which is marked and filed. */
  lemma ReplaceJustified(byId: seq<Change>, x: Change, o: OutPoint, p: Pass)
    requires DistinctIds(byId) && x in byId && IsUnconfirmed(x) && o in x.spent
    requires Backed(byId, p.spentBy) && o in p.spentBy && Lookup(byId, p.spentBy[o]).Some?
    requires p.spentBy[o] != x.id && ShouldReplace(x, Lookup(byId, p.spentBy[o]).value)
    ensures var w := Lookup(byId, p.spentBy[o]).value;
      var p' := File(p.(conflicts := p.conflicts + {p.spentBy[o]}, spentBy := p.spentBy[o := x.id]), w, w);
      Backed(byId, p'.spentBy) && Justified(byId, p, p')
  {
    var h := p.spentBy[o];
    var w := Lookup(byId, h).value;
    var p' := File(p.(conflicts := p.conflicts + {h}, spentBy := p.spentBy[o := x.id]), w, w);
    assert o in w.spent;
    assert IsUnconfirmed(w) && !ShouldReplace(w, x);
    assert LostTo(byId, w, false);
    assert p'.replaced[|p.replaced|..] == [w];
    forall y | y in byId && y.id in p'.conflicts && y.id !in p.conflicts ensures Lost(byId, y) {
      SameId(byId, y, w);
    }
  }

  /** `x` meets on outpoint `o` a claimant it does not beat, and is marked and filed. */
  lemma LoseJustified(byId: seq<Change>, x: Change, o: OutPoint, p: Pass)
    requires DistinctIds(byId) && x in byId && IsUnconfirmed(x) && o in x.spent
    requires Backed(byId, p.spentBy) && o in p.spentBy && Lookup(byId, p.spentBy[o]).Some?
    requires p.spentBy[o] != x.id && !ShouldReplace(x, Lookup(byId, p.spentBy[o]).value)
    ensures var w := Lookup(byId, p.spentBy[o]).value;
      var p' := File(p.(conflicts := p.conflicts + {x.id}), x, w);
      Backed(byId, p'.spentBy) && Justified(byId, p, p')
  {
  }

  lemma {:induction false} VisitAllJustified(byId: seq<Change>, todo: seq<Change>, p: Pass)
    requires DistinctIds(byId)
    requires forall t | t in todo :: t in byId && IsUnconfirmed(t)
    requires Backed(byId, p.spentBy)
    requires VisitAll(byId, todo, p).Success?
    ensures Backed(byId, VisitAll(byId, todo, p).value.spentBy)
    ensures Justified(byId, p, VisitAll(byId, todo, p).value)
    decreases |todo|
  {
    if todo != [] {
      var p1 := VisitOutpoints(byId, todo[0], todo[0].spent, p).value;
      VisitJustified(byId, todo[0], todo[0].spent, p);
      assert forall t | t in todo[1..] :: t in todo;
      VisitAllJustified(byId, todo[1..], p1);
      JustifiedTrans(byId, p, p1, VisitAll(byId, todo[1..], p1).value);
    }
  }

  /** One pass: every record it marks or files lost a clash to a record of another id. */
  lemma ScanPassJustified(byId: seq<Change>, spentBy: map<OutPoint, TxId>, replaced: seq<Change>, ignored: seq<Change>)
    requires DistinctIds(byId) && Backed(byId, spentBy)
    requires ScanPass(byId, spentBy, replaced, ignored).Success?
    ensures var r := ScanPass(byId, spentBy, replaced, ignored).value;
      && Backed(byId, r.spentBy)
      && (forall y | y in byId && y.id in r.conflicts :: Lost(byId, y))
      && (forall y | y in r.replaced[|replaced|..] :: LostTo(byId, y, false))
      && (forall y | y in r.ignored[|ignored|..] :: LostTo(byId, y, true))
  {
    VisitAllJustified(byId, UnconfirmedOf(byId), Pass(spentBy, {}, replaced, ignored));
  }

  /**
    The `goto removeConflicts` loop: a record of the input leaves only after
    losing a clash over a shared outpoint to a record of another id that it
    does not beat; it is filed in `ReplacedTransactions` only when that
    record is unconfirmed, and in the ignored list only when it is confirmed.
   */
  lemma {:induction false} RemoveConflictsJustified(byId: seq<Change>, spentBy: map<OutPoint, TxId>, replaced: seq<Change>, ignored: seq<Change>)
    requires DistinctIds(byId) && Backed(byId, spentBy)
    requires RemoveConflicts(byId, spentBy, replaced, ignored).Success?
    ensures var r := RemoveConflicts(byId, spentBy, replaced, ignored).value;
      && (forall c | c in byId && c !in r.byId :: Lost(byId, c))
      && (forall y | y in r.replaced[|replaced|..] :: LostTo(byId, y, false))
      && (forall y | y in r.ignored[|ignored|..] :: LostTo(byId, y, true))
    decreases |byId|
  {
    var p := ScanPass(byId, spentBy, replaced, ignored).value;
    ScanPassJustified(byId, spentBy, replaced, ignored);
    if p.conflicts != {} {
      var rest := RemoveIds(byId, p.conflicts);
      PassShrinks(byId, p);
      RemoveIdsDistinct(byId, p.conflicts);
      assert forall c | c in rest :: c in byId;
      RemoveConflictsJustified(rest, p.spentBy, p.replaced, p.ignored);
      var r := RemoveConflicts(rest, p.spentBy, p.replaced, p.ignored).value;
      assert RemoveConflicts(byId, spentBy, replaced, ignored).value == r;
      CombinePasses(byId, rest, p, r, replaced, ignored);
    }
  }

  /** The first pass's verdicts and those of the passes after it, over the larger dictionary. */
  lemma CombinePasses(byId: seq<Change>, rest: seq<Change>, p: Pass, r: Settled, replaced: seq<Change>, ignored: seq<Change>)
    requires forall c | c in rest :: c in byId
    requires forall c | c in byId && c.id !in p.conflicts :: c in rest
    requires replaced <= p.replaced <= r.replaced && ignored <= p.ignored <= r.ignored
    requires forall y | y in byId && y.id in p.conflicts :: Lost(byId, y)
    requires forall y | y in p.replaced[|replaced|..] :: LostTo(byId, y, false)
    requires forall y | y in p.ignored[|ignored|..] :: LostTo(byId, y, true)
    requires forall c | c in rest && c !in r.byId :: Lost(rest, c)
    requires forall y | y in r.replaced[|p.replaced|..] :: LostTo(rest, y, false)
    requires forall y | y in r.ignored[|p.ignored|..] :: LostTo(rest, y, true)
    ensures forall c | c in byId && c !in r.byId :: Lost(byId, c)
    ensures forall y | y in r.replaced[|replaced|..] :: LostTo(byId, y, false)
    ensures forall y | y in r.ignored[|ignored|..] :: LostTo(byId, y, true)
  {
    forall c | c in byId && c !in r.byId ensures Lost(byId, c) {
      if c.id !in p.conflicts {
        if LostTo(rest, c, true) { LostToMono(rest, byId, c, true); } else { LostToMono(rest, byId, c, false); }
      }
    }
    assert r.replaced[|replaced|..] == p.replaced[|replaced|..] + r.replaced[|p.replaced|..];
    assert r.ignored[|ignored|..] == p.ignored[|ignored|..] + r.ignored[|p.ignored|..];
    forall y | y in r.replaced[|p.replaced|..] ensures LostTo(byId, y, false) {
      LostToMono(rest, byId, y, false);
    }
    forall y | y in r.ignored[|p.ignored|..] ensures LostTo(byId, y, true) {
      LostToMono(rest, byId, y, true);
    }
  }
}
