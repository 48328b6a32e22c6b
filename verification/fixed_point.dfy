/**
  What the double-spend loop achieves when no record lists an outpoint twice:
  the first pass leaves every survivor holding the claim on each outpoint it
  spends, the second pass is then a no-op, and the survivors never share an
  outpoint. The `DuplicateSpend` failure of the pass cannot happen then.
 */
module FixedPoint {
  import opened Basics
  import opened Seqs
  import opened Changes
  import opened Claims
  import opened Conflicts

  /** Every record of `s` is the recorded claimant of each outpoint it spends. */
  ghost predicate ClaimsHeld(s: seq<Change>, m: map<OutPoint, TxId>) {
    forall c, o | c in s && o in c.spent :: o in m && m[o] == c.id
  }

  /** No record lists the same outpoint twice. */
  ghost predicate SpendsDistinct(s: seq<Change>) {
    forall c | c in s :: NoDuplicates(c.spent)
  }

  /** The state before the first pass: claims exactly for the confirmed records. */
  ghost predicate ConfirmedOnly(byId: seq<Change>, m: map<OutPoint, TxId>) {
    && (forall c, o | c in byId && IsConfirmed(c) && o in c.spent :: o in m && m[o] == c.id)
    && (forall o | o in m :: m[o] in ConfirmedIds(byId))
  }

  lemma TiersDisjoint(byId: seq<Change>)
    requires DistinctIds(byId)
    ensures ConfirmedIds(byId) !! UnconfirmedIds(byId)
  {
    forall c, u | c in byId && u in byId && IsConfirmed(c) && IsUnconfirmed(u) ensures c.id != u.id {
      var i :| 0 <= i < |byId| && byId[i] == c;
      var j :| 0 <= j < |byId| && byId[j] == u;
    }
  }

  /** Invariant of the first pass once the records `done` have been visited. */
  ghost predicate PassInv(byId: seq<Change>, done: seq<Change>, p: Pass) {
    && (forall c, o | c in byId && IsConfirmed(c) && o in c.spent :: o in p.spentBy && p.spentBy[o] == c.id)
    && (forall y, o | y in done && y.id !in p.conflicts && o in y.spent :: o in p.spentBy && p.spentBy[o] == y.id)
    && (forall o | o in p.spentBy :: p.spentBy[o] in ConfirmedIds(byId) || p.spentBy[o] in Ids(done))
    && p.conflicts <= UnconfirmedIds(byId)
  }

  /** Invariant of the visit of `x` once its outpoints `seen` have been handled. */
  ghost predicate VisitInv(byId: seq<Change>, done: seq<Change>, x: Change, seen: seq<OutPoint>, p: Pass) {
    && (forall c, o | c in byId && IsConfirmed(c) && o in c.spent :: o in p.spentBy && p.spentBy[o] == c.id)
    && (forall y, o | y in done && y.id !in p.conflicts && o in y.spent :: o in p.spentBy && p.spentBy[o] == y.id)
    && (x.id !in p.conflicts ==> forall o | o in seen :: o in p.spentBy && p.spentBy[o] == x.id)
    && (forall o | o in p.spentBy :: p.spentBy[o] in ConfirmedIds(byId) || p.spentBy[o] in Ids(done) || p.spentBy[o] == x.id)
    && (forall o | o in p.spentBy && p.spentBy[o] == x.id :: o in seen)
    && p.conflicts <= UnconfirmedIds(byId)
  }

  /** Handling outpoint `o` by making `x` its claimant keeps the visit invariant. */
  lemma ClaimStep(byId: seq<Change>, done: seq<Change>, x: Change, seen: seq<OutPoint>, o: OutPoint, p: Pass, p': Pass)
    requires VisitInv(byId, done, x, seen, p) && o !in seen
    requires p'.spentBy == p.spentBy[o := x.id]
    requires p.conflicts <= p'.conflicts <= UnconfirmedIds(byId)
    requires forall c | c in byId && IsConfirmed(c) :: o !in c.spent
    requires forall y | y in done && y.id !in p'.conflicts :: o !in y.spent
    ensures VisitInv(byId, done, x, seen + [o], p')
  {
  }

  /** Handling outpoint `o` by making `x` a loser keeps the visit invariant. */
  lemma LoseStep(byId: seq<Change>, done: seq<Change>, x: Change, seen: seq<OutPoint>, o: OutPoint, p: Pass, p': Pass)
    requires VisitInv(byId, done, x, seen, p)
    requires p'.spentBy == p.spentBy && p'.conflicts == p.conflicts + {x.id}
    requires x.id in UnconfirmedIds(byId)
    ensures VisitInv(byId, done, x, seen + [o], p')
  {
  }

  /** The visit of `x`, from the outpoints `seen` on, succeeds and leaves the pass invariant for `done + [x]`. */
  lemma {:induction false} FirstVisit(byId: seq<Change>, done: seq<Change>, x: Change, seen: seq<OutPoint>, outs: seq<OutPoint>, p: Pass)
    requires DistinctIds(byId) && x in byId && IsUnconfirmed(x)
    requires forall d | d in done :: d in byId
    requires x.id !in Ids(done)
    requires seen + outs == x.spent && NoDuplicates(x.spent)
    requires VisitInv(byId, done, x, seen, p)
    ensures VisitOutpoints(byId, x, outs, p).Success?
    ensures PassInv(byId, done + [x], VisitOutpoints(byId, x, outs, p).value)
    decreases |outs|, 1
  {
    TiersDisjoint(byId);
    if outs == [] {
      assert seen == x.spent;
      assert Ids(done + [x]) == Ids(done) + {x.id};
    } else if outs[0] in p.spentBy {
      FirstVisitClaimed(byId, done, x, seen, outs, p);
    } else {
      var o := outs[0];
      NextOutFresh(seen, outs, x.spent);
      assert seen + [o] + outs[1..] == x.spent;
      var p' := p.(spentBy := p.spentBy[o := x.id]);
      ClaimStep(byId, done, x, seen, o, p, p');
      assert VisitOutpoints(byId, x, outs, p) == VisitOutpoints(byId, x, outs[1..], p');
      FirstVisit(byId, done, x, seen + [o], outs[1..], p');
    }
  }

  /** The visit step for an outpoint another record has claimed. */
  lemma {:induction false} FirstVisitClaimed(byId: seq<Change>, done: seq<Change>, x: Change, seen: seq<OutPoint>, outs: seq<OutPoint>, p: Pass)
    requires DistinctIds(byId) && x in byId && IsUnconfirmed(x)
    requires forall d | d in done :: d in byId
    requires x.id !in Ids(done)
    requires seen + outs == x.spent && NoDuplicates(x.spent)
    requires VisitInv(byId, done, x, seen, p)
    requires outs != [] && outs[0] in p.spentBy
    ensures VisitOutpoints(byId, x, outs, p).Success?
    ensures PassInv(byId, done + [x], VisitOutpoints(byId, x, outs, p).value)
    decreases |outs|, 0
  {
    TiersDisjoint(byId);
    var o := outs[0];
    NextOutFresh(seen, outs, x.spent);
    assert seen + [o] + outs[1..] == x.spent;
    var h := p.spentBy[o];
    ClaimantKnown(byId, done, x, seen, p, o);
    var w := Lookup(byId, h).value;
    if h in p.conflicts {
      var p' := p.(spentBy := p.spentBy[o := x.id]);
      ClaimStep(byId, done, x, seen, o, p, p');
      assert VisitOutpoints(byId, x, outs, p) == VisitOutpoints(byId, x, outs[1..], p');
      FirstVisit(byId, done, x, seen + [o], outs[1..], p');
    } else if ShouldReplace(x, w) {
      assert IsUnconfirmed(w) && h in UnconfirmedIds(byId);
      var p' := File(p.(conflicts := p.conflicts + {h}, spentBy := p.spentBy[o := x.id]), w, w);
      assert h !in ConfirmedIds(byId);
      ClaimStep(byId, done, x, seen, o, p, p');
      assert VisitOutpoints(byId, x, outs, p) == VisitOutpoints(byId, x, outs[1..], p');
      FirstVisit(byId, done, x, seen + [o], outs[1..], p');
    } else {
      var p' := File(p.(conflicts := p.conflicts + {x.id}), x, w);
      assert x.id in UnconfirmedIds(byId);
      LoseStep(byId, done, x, seen, o, p, p');
      assert VisitOutpoints(byId, x, outs, p) == VisitOutpoints(byId, x, outs[1..], p');
      FirstVisit(byId, done, x, seen + [o], outs[1..], p');
    }
  }

  /** Of a list without repeats, the next outpoint to visit is not among those seen. */
  lemma NextOutFresh(seen: seq<OutPoint>, outs: seq<OutPoint>, spent: seq<OutPoint>)
    requires outs != [] && seen + outs == spent && NoDuplicates(spent)
    ensures outs[0] !in seen
  {
    forall i | 0 <= i < |seen| ensures seen[i] != outs[0] {
      assert spent[i] == seen[i] && spent[|seen|] == outs[0];
    }
  }

  /** A claimed outpoint not yet seen in the visit of `x` is held by another record of the dictionary. */
  lemma ClaimantKnown(byId: seq<Change>, done: seq<Change>, x: Change, seen: seq<OutPoint>, p: Pass, o: OutPoint)
    requires forall d | d in done :: d in byId
    requires VisitInv(byId, done, x, seen, p) && o in p.spentBy && o !in seen
    ensures p.spentBy[o] in Ids(byId) && p.spentBy[o] != x.id
  {
    var h := p.spentBy[o];
    if h in ConfirmedIds(byId) {
      var c :| c in byId && IsConfirmed(c) && c.id == h;
    } else if h in Ids(done) {
      var d :| d in done && d.id == h;
    }
  }

  /** With distinct ids along `done + todo`, the next record's id is not among those done. */
  lemma NextIdFresh(done: seq<Change>, todo: seq<Change>)
    requires todo != [] && DistinctIds(done + todo)
    ensures todo[0].id !in Ids(done)
  {
    var all := done + todo;
    forall d | d in done ensures d.id != todo[0].id {
      var i :| 0 <= i < |done| && done[i] == d;
      assert all[i] == d && all[|done|] == todo[0];
    }
  }

  /** A record not visited yet, and not confirmed, claims nothing when its visit starts. */
  lemma StartVisit(byId: seq<Change>, done: seq<Change>, x: Change, p: Pass)
    requires DistinctIds(byId) && x in byId && IsUnconfirmed(x) && x.id !in Ids(done)
    requires PassInv(byId, done, p)
    ensures VisitInv(byId, done, x, [], p)
  {
    TiersDisjoint(byId);
  }

  lemma {:induction false} FirstAll(byId: seq<Change>, done: seq<Change>, todo: seq<Change>, p: Pass)
    requires DistinctIds(byId) && DistinctIds(done + todo)
    requires forall t | t in done + todo :: t in byId && IsUnconfirmed(t) && NoDuplicates(t.spent)
    requires PassInv(byId, done, p)
    ensures VisitAll(byId, todo, p).Success?
    ensures PassInv(byId, done + todo, VisitAll(byId, todo, p).value)
    decreases |todo|
  {
    if todo == [] {
      assert done + todo == done;
    } else {
      var x := todo[0];
      assert x in done + todo;
      NextIdFresh(done, todo);
      StartVisit(byId, done, x, p);
      assert [] + x.spent == x.spent;
      FirstVisit(byId, done, x, [], x.spent, p);
      var p1 := VisitOutpoints(byId, x, x.spent, p).value;
      assert (done + [x]) + todo[1..] == done + todo;
      FirstAll(byId, done + [x], todo[1..], p1);
    }
  }

  /** The first pass succeeds and leaves every survivor holding its claims. */
  lemma FirstPass(byId: seq<Change>, spentBy: map<OutPoint, TxId>, replaced: seq<Change>, ignored: seq<Change>)
    requires DistinctIds(byId) && SpendsDistinct(byId) && ConfirmedOnly(byId, spentBy)
    ensures ScanPass(byId, spentBy, replaced, ignored).Success?
    ensures ClaimsHeld(RemoveIds(byId, ScanPass(byId, spentBy, replaced, ignored).value.conflicts),
                       ScanPass(byId, spentBy, replaced, ignored).value.spentBy)
  {
    var todo := UnconfirmedOf(byId);
    var p0 := Pass(spentBy, {}, replaced, ignored);
    var none: seq<Change> := [];
    assert PassInv(byId, none, p0) by {
      assert Ids(none) == {};
    }
    assert none + todo == todo;
    assert DistinctIds(none + todo) by {
      FilterDistinct(byId, IsUnconfirmed);
    }
    assert forall t | t in none + todo :: t in byId && IsUnconfirmed(t) && NoDuplicates(t.spent);
    FirstAll(byId, none, todo, p0);
    var p := VisitAll(byId, todo, p0).value;
    SurvivorsHold(byId, p);
  }

  lemma SurvivorsHold(byId: seq<Change>, p: Pass)
    requires PassInv(byId, UnconfirmedOf(byId), p)
    ensures ClaimsHeld(RemoveIds(byId, p.conflicts), p.spentBy)
  {
    forall c | c in RemoveIds(byId, p.conflicts)
      ensures forall o | o in c.spent :: o in p.spentBy && p.spentBy[o] == c.id
    {
      SurvivorHolds(byId, p, c);
    }
  }

  lemma SurvivorHolds(byId: seq<Change>, p: Pass, c: Change)
    requires PassInv(byId, UnconfirmedOf(byId), p) && c in byId && c.id !in p.conflicts
    ensures forall o | o in c.spent :: o in p.spentBy && p.spentBy[o] == c.id
  {
    if IsUnconfirmed(c) {
      assert c in UnconfirmedOf(byId);
    }
  }

  lemma {:induction false} QuietAll(byId: seq<Change>, todo: seq<Change>, p: Pass)
    requires DistinctIds(byId) && ClaimsHeld(byId, p.spentBy)
    requires forall t | t in todo :: t in byId && IsUnconfirmed(t)
    ensures VisitAll(byId, todo, p) == Success(p)
    decreases |todo|
  {
    if todo != [] {
      var x := todo[0];
      if x.spent != [] {
        assert x.spent[0] in x.spent;
      }
      assert VisitOutpoints(byId, x, x.spent, p) == Success(p);
      assert forall t | t in todo[1..] :: t in todo;
      QuietAll(byId, todo[1..], p);
    }
  }

  /** Once every record holds its claims, a pass changes nothing and finds no loser. */
  lemma QuietPass(byId: seq<Change>, spentBy: map<OutPoint, TxId>, replaced: seq<Change>, ignored: seq<Change>)
    requires DistinctIds(byId) && ClaimsHeld(byId, spentBy)
    ensures ScanPass(byId, spentBy, replaced, ignored) == Success(Pass(spentBy, {}, replaced, ignored))
  {
    QuietAll(byId, UnconfirmedOf(byId), Pass(spentBy, {}, replaced, ignored));
  }

  /**
    The loop ends after at most two passes without failing, and every survivor
    holds the claim on each outpoint it spends.
   */
  lemma SettleHoldsClaims(byId: seq<Change>, spentBy: map<OutPoint, TxId>, replaced: seq<Change>, ignored: seq<Change>)
    requires DistinctIds(byId) && SpendsDistinct(byId) && ConfirmedOnly(byId, spentBy)
    ensures RemoveConflicts(byId, spentBy, replaced, ignored).Success?
    ensures ClaimsHeld(RemoveConflicts(byId, spentBy, replaced, ignored).value.byId,
                       RemoveConflicts(byId, spentBy, replaced, ignored).value.spentBy)
  {
    FirstPass(byId, spentBy, replaced, ignored);
    var p := ScanPass(byId, spentBy, replaced, ignored).value;
    if p.conflicts == {} {
      FilterKeepsAll(byId, (c: Change) => c.id !in p.conflicts);
    } else {
      var rest := RemoveIds(byId, p.conflicts);
      RemoveIdsDistinct(byId, p.conflicts);
      QuietPass(rest, p.spentBy, p.replaced, p.ignored);
    }
  }

  /** Records that all hold their claims never spend the same outpoint. */
  lemma ClaimsExcludeDoubleSpends(s: seq<Change>, m: map<OutPoint, TxId>)
    requires DistinctIds(s) && ClaimsHeld(s, m)
    ensures forall i, j | 0 <= i < |s| && 0 <= j < |s| && i != j :: !DoubleSpend(s[i], s[j])
  {
    forall i, j | 0 <= i < |s| && 0 <= j < |s| && i != j ensures !DoubleSpend(s[i], s[j]) {
      assert s[i].id != s[j].id;
      forall a, b | 0 <= a < |s[i].spent| && 0 <= b < |s[j].spent| ensures s[i].spent[a] != s[j].spent[b] {
        assert s[i] in s && s[i].spent[a] in s[i].spent;
        assert s[j] in s && s[j].spent[b] in s[j].spent;
        assert m[s[i].spent[a]] == s[i].id;
        assert m[s[j].spent[b]] == s[j].id;
      }
    }
  }
}
