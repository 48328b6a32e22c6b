/**
  Who wins a clash in the double-spend loop. When two unconfirmed records
  spend a common outpoint and no other record touches their outpoints, the
  one the replace rule ranks higher stays and the other is filed in
  `ReplacedTransactions`, whichever of the two the loop visits first. An
  unconfirmed record whose outpoints are spent only by confirmed records
  is filed in the ignored list.
 */
module Rivals {
  import opened Basics
  import opened Seqs
  import opened Changes
  import opened Claims
  import opened Conflicts

  function OutsOf(s: seq<OutPoint>): set<OutPoint> {
    set o | o in s
  }

  lemma NoDuplicatesTail<T>(s: seq<T>)
    requires s != [] && NoDuplicates(s)
    ensures NoDuplicates(s[1..]) && s[0] !in s[1..]
  {
    assert s == [s[0]] + s[1..];
    NoDuplicatesAppend([s[0]], s[1..]);
  }

  /** Every claim naming an id of `ids` is on an outpoint of `area`. */
  ghost predicate KeysIn(m: map<OutPoint, TxId>, ids: set<TxId>, area: set<OutPoint>) {
    forall o | o in m && m[o] in ids :: o in area
  }

  /**
    A visit none of whose outpoints lies in `area` leaves the claims on
    `area` as they were; when the visited record's id is not in `ids` and
    every claim naming an id of `ids` lies in `area`, it also leaves that
    so, and marks no id of `ids`.
   */
  lemma {:induction false} VisitAvoids(byId: seq<Change>, z: Change, outs: seq<OutPoint>, p: Pass, area: set<OutPoint>, ids: set<TxId>)
    requires DistinctIds(byId) && z in byId && IsUnconfirmed(z)
    requires forall o | o in outs :: o !in area
    requires z.id !in ids && KeysIn(p.spentBy, ids, area)
    requires VisitOutpoints(byId, z, outs, p).Success?
    ensures var r := VisitOutpoints(byId, z, outs, p).value;
      && (forall o | o in area :: (o in r.spentBy <==> o in p.spentBy) && (o in p.spentBy ==> r.spentBy[o] == p.spentBy[o]))
      && KeysIn(r.spentBy, ids, area)
      && (forall i | i in ids :: i in r.conflicts <==> i in p.conflicts)
    decreases |outs|
  {
    if outs != [] {
      var o := outs[0];
      assert forall t | t in outs[1..] :: t in outs;
      if o in p.spentBy && Lookup(byId, p.spentBy[o]).Some? {
        var h := p.spentBy[o];
        var w := Lookup(byId, h).value;
        if h == z.id {
        } else if h in p.conflicts {
          VisitAvoids(byId, z, outs[1..], p.(spentBy := p.spentBy[o := z.id]), area, ids);
        } else if ShouldReplace(z, w) {
          assert h !in ids;
          VisitAvoids(byId, z, outs[1..], File(p.(conflicts := p.conflicts + {h}, spentBy := p.spentBy[o := z.id]), w, w), area, ids);
        } else {
          VisitAvoids(byId, z, outs[1..], File(p.(conflicts := p.conflicts + {z.id}), z, w), area, ids);
        }
      } else if o !in p.spentBy {
        VisitAvoids(byId, z, outs[1..], p.(spentBy := p.spentBy[o := z.id]), area, ids);
      }
    }
  }

  /** A visit that finds none of its outpoints claimed claims them all and marks and files nothing. */
  lemma {:induction false} VisitFresh(byId: seq<Change>, x: Change, outs: seq<OutPoint>, p: Pass)
    requires DistinctIds(byId) && x in byId && IsUnconfirmed(x)
    requires NoDuplicates(outs) && forall o | o in outs :: o !in p.spentBy
    ensures VisitOutpoints(byId, x, outs, p).Success?
    ensures var r := VisitOutpoints(byId, x, outs, p).value;
      && r.conflicts == p.conflicts && r.replaced == p.replaced && r.ignored == p.ignored
      && (forall o | o in outs :: o in r.spentBy && r.spentBy[o] == x.id)
      && (forall o | o in r.spentBy :: o in p.spentBy || o in outs)
      && (forall o | o in p.spentBy :: o in r.spentBy && r.spentBy[o] == p.spentBy[o])
    decreases |outs|
  {
    if outs != [] {
      NoDuplicatesTail(outs);
      VisitFresh(byId, x, outs[1..], p.(spentBy := p.spentBy[outs[0] := x.id]));
    }
  }

  /** `x` is marked, and filed in the ignored list when `confirmed`, else in `ReplacedTransactions`. */
  ghost predicate Into(p: Pass, x: Change, confirmed: bool) {
    && x.id in p.conflicts
    && if confirmed then x in p.ignored else x in p.replaced
  }

  /**
    The claim on `o` names a record of `byId` with another id, not marked in
    this pass, that `x` does not beat, and that is confirmed as `confirmed` says.
   */
  ghost predicate HeldAgainst(byId: seq<Change>, p: Pass, x: Change, o: OutPoint, confirmed: bool) {
    && o in p.spentBy && p.spentBy[o] != x.id && p.spentBy[o] !in p.conflicts
    && Lookup(byId, p.spentBy[o]).Some?
    && IsConfirmed(Lookup(byId, p.spentBy[o]).value) == confirmed
    && !ShouldReplace(x, Lookup(byId, p.spentBy[o]).value)
  }

  /**
    A visit of `x` whose claimed outpoints are all held against it, and
    that meets at least one such claim, marks `x` and files it in the list
    the claimants' kind selects.
   */
  lemma {:induction false} VisitLoses(byId: seq<Change>, x: Change, outs: seq<OutPoint>, p: Pass, confirmed: bool)
    requires DistinctIds(byId) && x in byId && IsUnconfirmed(x) && NoDuplicates(outs)
    requires forall o | o in outs && o in p.spentBy :: HeldAgainst(byId, p, x, o, confirmed)
    requires Into(p, x, confirmed) || exists o | o in outs :: o in p.spentBy
    ensures VisitOutpoints(byId, x, outs, p).Success?
    ensures Into(VisitOutpoints(byId, x, outs, p).value, x, confirmed)
    decreases |outs|
  {
    if outs != [] {
      var o := outs[0];
      NoDuplicatesTail(outs);
      if o in p.spentBy {
        var w := Lookup(byId, p.spentBy[o]).value;
        var p' := File(p.(conflicts := p.conflicts + {x.id}), x, w);
        assert forall t | t in outs[1..] && t in p'.spentBy :: HeldAgainst(byId, p', x, t, confirmed) by {
          forall t | t in outs[1..] && t in p'.spentBy ensures HeldAgainst(byId, p', x, t, confirmed) {
            assert t in outs && HeldAgainst(byId, p, x, t, confirmed);
          }
        }
        VisitLoses(byId, x, outs[1..], p', confirmed);
      } else {
        var p' := p.(spentBy := p.spentBy[o := x.id]);
        assert Into(p', x, confirmed) || exists t | t in outs[1..] :: t in p'.spentBy by {
          if !Into(p, x, confirmed) {
            var t :| t in outs && t in p.spentBy;
            assert t != o && t in outs[1..];
          }
        }
        assert forall t | t in outs[1..] && t in p'.spentBy :: HeldAgainst(byId, p', x, t, confirmed) by {
          forall t | t in outs[1..] && t in p'.spentBy ensures HeldAgainst(byId, p', x, t, confirmed) {
            assert t != o && t in outs;
          }
        }
        VisitLoses(byId, x, outs[1..], p', confirmed);
      }
    }
  }

  /**
    A visit of `x` whose claimed outpoints are all held by the unconfirmed
    record `w` that `x` beats marks `w` and files it in
    `ReplacedTransactions`, once it meets one such claim.
   */
  lemma {:induction false} VisitReplaces(byId: seq<Change>, x: Change, outs: seq<OutPoint>, p: Pass, w: Change)
    requires DistinctIds(byId) && x in byId && IsUnconfirmed(x) && NoDuplicates(outs)
    requires w in byId && IsUnconfirmed(w) && w.id != x.id && ShouldReplace(x, w)
    requires forall o | o in outs && o in p.spentBy :: p.spentBy[o] == w.id
    requires w.id in p.conflicts ==> w in p.replaced
    requires w.id in p.conflicts || exists o | o in outs :: o in p.spentBy
    ensures VisitOutpoints(byId, x, outs, p).Success?
    ensures w.id in VisitOutpoints(byId, x, outs, p).value.conflicts && w in VisitOutpoints(byId, x, outs, p).value.replaced
    decreases |outs|
  {
    if outs != [] {
      var o := outs[0];
      NoDuplicatesTail(outs);
      assert Lookup(byId, w.id) == Some(w);
      var p' := if o !in p.spentBy || w.id in p.conflicts then p.(spentBy := p.spentBy[o := x.id])
                else File(p.(conflicts := p.conflicts + {w.id}, spentBy := p.spentBy[o := x.id]), w, w);
      assert VisitOutpoints(byId, x, outs, p) == VisitOutpoints(byId, x, outs[1..], p');
      assert w.id in p'.conflicts || exists t | t in outs[1..] :: t in p'.spentBy by {
        if w.id !in p'.conflicts {
          var t :| t in outs && t in p.spentBy;
          assert t != o && t in outs[1..];
        }
      }
      assert forall t | t in outs[1..] && t in p'.spentBy :: p'.spentBy[t] == w.id by {
        forall t | t in outs[1..] && t in p'.spentBy ensures p'.spentBy[t] == w.id {
          assert t != o && t in outs;
        }
      }
      VisitReplaces(byId, x, outs[1..], p', w);
    }
  }

  /** `b` outranks `a`, both unconfirmed, under distinct ids. */
  predicate Rivalry(a: Change, b: Change) {
    a.id != b.id && IsUnconfirmed(a) && IsUnconfirmed(b) && ShouldReplace(b, a)
  }

  /** Some outpoint is spent by both `a` and `b`. */
  ghost predicate Shared(a: Change, b: Change) {
    exists o :: o in a.spent && o in b.spent
  }

  /** Every record of `byId` other than `a` and `b` has another id and spends none of their outpoints. */
  ghost predicate Apart(byId: seq<Change>, a: Change, b: Change) {
    forall y | y in byId ::
      y == a || y == b || (y.id != a.id && y.id != b.id && forall o | o in y.spent :: o !in a.spent && o !in b.spent)
  }

  function Area(a: Change, b: Change): set<OutPoint> {
    OutsOf(a.spent) + OutsOf(b.spent)
  }

  /** `x` holds every outpoint it spends, and every claim on an outpoint of `y` is on one of them. */
  ghost predicate Holds(m: map<OutPoint, TxId>, x: Change, y: Change) {
    && (forall o | o in x.spent :: o in m && m[o] == x.id)
    && (forall o | o in y.spent && o in m :: o in x.spent)
  }

  /**
    How far one pass has got with the rivals, by which of them it has
    visited: before either, no claim touches their outpoints; after one,
    that one holds all its outpoints and every claim on the pair's; after
    both, `a` is marked and in `ReplacedTransactions`.
   */
  ghost predicate Stage(p: Pass, a: Change, b: Change, aDone: bool, bDone: bool) {
    if aDone && bDone then a.id in p.conflicts && a in p.replaced
    else
      && a.id !in p.conflicts && b.id !in p.conflicts
      && KeysIn(p.spentBy, {a.id, b.id}, Area(a, b))
      && (!aDone && !bDone ==> forall o | o in Area(a, b) :: o !in p.spentBy)
      && (aDone ==> Holds(p.spentBy, a, b))
      && (bDone ==> Holds(p.spentBy, b, a))
  }

  /** A record other than the rivals is visited. */
  lemma PairOther(byId: seq<Change>, t: Change, p: Pass, a: Change, b: Change, aDone: bool, bDone: bool)
    requires DistinctIds(byId) && t in byId && IsUnconfirmed(t) && t != a && t != b
    requires Apart(byId, a, b) && !(aDone && bDone) && Stage(p, a, b, aDone, bDone)
    requires VisitOutpoints(byId, t, t.spent, p).Success?
    ensures Stage(VisitOutpoints(byId, t, t.spent, p).value, a, b, aDone, bDone)
  {
    VisitAvoids(byId, t, t.spent, p, Area(a, b), {a.id, b.id});
  }

  /** The first of the rivals to be visited claims all its outpoints. */
  lemma PairFirst(byId: seq<Change>, x: Change, p: Pass, a: Change, b: Change)
    requires DistinctIds(byId) && x in byId && IsUnconfirmed(x) && (x == a || x == b) && a != b
    requires NoDuplicates(x.spent) && Stage(p, a, b, false, false)
    ensures VisitOutpoints(byId, x, x.spent, p).Success?
    ensures Stage(VisitOutpoints(byId, x, x.spent, p).value, a, b, x == a, x == b)
  {
    VisitFresh(byId, x, x.spent, p);
  }

  /** The second of the rivals to be visited: `a` loses, or `b` takes over from `a`. */
  lemma PairSecond(byId: seq<Change>, x: Change, p: Pass, a: Change, b: Change)
    requires DistinctIds(byId) && a in byId && b in byId && Rivalry(a, b) && Shared(a, b)
    requires NoDuplicates(a.spent) && NoDuplicates(b.spent)
    requires x == a ==> Stage(p, a, b, false, true)
    requires x == b ==> Stage(p, a, b, true, false)
    requires x == a || x == b
    requires VisitOutpoints(byId, x, x.spent, p).Success?
    ensures Stage(VisitOutpoints(byId, x, x.spent, p).value, a, b, true, true)
  {
    var o :| o in a.spent && o in b.spent;
    assert Lookup(byId, b.id) == Some(b) && Lookup(byId, a.id) == Some(a);
    if x == a {
      ShouldReplaceAsymmetric(b, a);
      VisitLoses(byId, a, a.spent, p, false);
    } else {
      VisitReplaces(byId, b, b.spent, p, a);
    }
  }

  /** One visit of a pass keeps the stage, moving it on when it visits a rival. */
  lemma PairStep(byId: seq<Change>, t: Change, p: Pass, a: Change, b: Change, aDone: bool, bDone: bool)
    requires DistinctIds(byId) && t in byId && IsUnconfirmed(t)
    requires Rivalry(a, b) && Apart(byId, a, b) && a in byId && b in byId
    requires NoDuplicates(a.spent) && NoDuplicates(b.spent) && Shared(a, b)
    requires (t == a ==> !aDone) && (t == b ==> !bDone)
    requires Stage(p, a, b, aDone, bDone)
    requires VisitOutpoints(byId, t, t.spent, p).Success?
    ensures Stage(VisitOutpoints(byId, t, t.spent, p).value, a, b, aDone || t == a, bDone || t == b)
  {
    var r := VisitOutpoints(byId, t, t.spent, p).value;
    if aDone && bDone {
      assert p.replaced <= r.replaced;
    } else if t != a && t != b {
      PairOther(byId, t, p, a, b, aDone, bDone);
    } else if !aDone && !bDone {
      PairFirst(byId, t, p, a, b);
    } else {
      PairSecond(byId, t, p, a, b);
    }
  }

  /** A whole pass over `todo`, which lists no record twice, visits both rivals and marks `a`. */
  lemma {:induction false} PairPass(byId: seq<Change>, todo: seq<Change>, p: Pass, a: Change, b: Change)
    requires DistinctIds(byId) && NoDuplicates(todo)
    requires forall t | t in todo :: t in byId && IsUnconfirmed(t)
    requires Rivalry(a, b) && Apart(byId, a, b) && a in byId && b in byId
    requires NoDuplicates(a.spent) && NoDuplicates(b.spent) && Shared(a, b)
    requires Stage(p, a, b, a !in todo, b !in todo)
    requires VisitAll(byId, todo, p).Success?
    ensures Stage(VisitAll(byId, todo, p).value, a, b, true, true)
    decreases |todo|
  {
    if todo != [] {
      var t := todo[0];
      NoDuplicatesTail(todo);
      assert forall u | u in todo[1..] :: u in todo;
      assert a !in todo[1..] <==> a !in todo || t == a;
      assert b !in todo[1..] <==> b !in todo || t == b;
      PairStep(byId, t, p, a, b, a !in todo, b !in todo);
      PairPass(byId, todo[1..], VisitOutpoints(byId, t, t.spent, p).value, a, b);
    }
  }

  /** A dictionary with distinct ids lists each of its unconfirmed records once. */
  lemma UnconfirmedOnce(byId: seq<Change>)
    requires DistinctIds(byId)
    ensures NoDuplicates(UnconfirmedOf(byId))
  {
    FilterDistinct(byId, IsUnconfirmed);
  }

  /** The first pass, started from claims that touch neither rival's outpoints, marks `a` and files it in `ReplacedTransactions`. */
  lemma FirstPassMarks(byId: seq<Change>, spentBy: map<OutPoint, TxId>, replaced: seq<Change>, ignored: seq<Change>, a: Change, b: Change)
    requires DistinctIds(byId) && Rivalry(a, b) && Apart(byId, a, b) && a in byId && b in byId
    requires NoDuplicates(a.spent) && NoDuplicates(b.spent) && Shared(a, b)
    requires forall o | o in spentBy :: o !in a.spent && o !in b.spent && spentBy[o] != a.id && spentBy[o] != b.id
    requires ScanPass(byId, spentBy, replaced, ignored).Success?
    ensures a.id in ScanPass(byId, spentBy, replaced, ignored).value.conflicts
    ensures a in ScanPass(byId, spentBy, replaced, ignored).value.replaced
  {
    var start := Pass(spentBy, {}, replaced, ignored);
    UnconfirmedOnce(byId);
    assert Stage(start, a, b, false, false);
    PairPass(byId, UnconfirmedOf(byId), start, a, b);
  }

  /**
    The `goto removeConflicts` loop, started from claims that touch neither
    rival's outpoints: its first pass files `a` in `ReplacedTransactions`
    and removes it.
   */
  lemma RivalReplaced(byId: seq<Change>, spentBy: map<OutPoint, TxId>, replaced: seq<Change>, ignored: seq<Change>, a: Change, b: Change)
    requires DistinctIds(byId) && Rivalry(a, b) && Apart(byId, a, b) && a in byId && b in byId
    requires NoDuplicates(a.spent) && NoDuplicates(b.spent) && Shared(a, b)
    requires forall o | o in spentBy :: o !in a.spent && o !in b.spent && spentBy[o] != a.id && spentBy[o] != b.id
    requires RemoveConflicts(byId, spentBy, replaced, ignored).Success?
    ensures a !in RemoveConflicts(byId, spentBy, replaced, ignored).value.byId
    ensures a in RemoveConflicts(byId, spentBy, replaced, ignored).value.replaced
  {
    var p := ScanPass(byId, spentBy, replaced, ignored).value;
    FirstPassMarks(byId, spentBy, replaced, ignored, a, b);
    var rest := RemoveIds(byId, p.conflicts);
    PassShrinks(byId, p);
    RemoveIdsDistinct(byId, p.conflicts);
    assert RemoveConflicts(byId, spentBy, replaced, ignored) == RemoveConflicts(rest, p.spentBy, p.replaced, p.ignored);
    var r := RemoveConflicts(rest, p.spentBy, p.replaced, p.ignored).value;
    assert a !in rest;
    assert p.replaced <= r.replaced;
  }

  /**
    The claims as seen from the rivals: a claim naming `b` is on an outpoint
    of `b`, one naming `a` on an outpoint of `a`, and a claim on an outpoint
    of either names one of the two.
   */
  ghost predicate PairClaims(m: map<OutPoint, TxId>, a: Change, b: Change) {
    && (forall o | o in m && m[o] == b.id :: o in b.spent)
    && (forall o | o in m && m[o] == a.id :: o in a.spent)
    && (forall o | o in m && (o in a.spent || o in b.spent) :: m[o] == a.id || m[o] == b.id)
  }

  /** No visit marks `b`, the rival the replace rule ranks higher. */
  lemma {:induction false} VisitSparesRival(byId: seq<Change>, z: Change, outs: seq<OutPoint>, p: Pass, a: Change, b: Change)
    requires DistinctIds(byId) && z in byId && IsUnconfirmed(z) && b in byId
    requires forall o | o in outs :: o in z.spent
    requires Rivalry(a, b) && Apart(byId, a, b)
    requires PairClaims(p.spentBy, a, b) && b.id !in p.conflicts
    requires VisitOutpoints(byId, z, outs, p).Success?
    ensures PairClaims(VisitOutpoints(byId, z, outs, p).value.spentBy, a, b)
    ensures b.id !in VisitOutpoints(byId, z, outs, p).value.conflicts
    decreases |outs|
  {
    if outs != [] {
      var o := outs[0];
      assert forall t | t in outs[1..] :: t in outs;
      ClaimFits(byId, z, o, p.spentBy, a, b);
      if o in p.spentBy && Lookup(byId, p.spentBy[o]).Some? {
        var h := p.spentBy[o];
        var w := Lookup(byId, h).value;
        if h == z.id {
        } else if h in p.conflicts {
          VisitSparesRival(byId, z, outs[1..], p.(spentBy := p.spentBy[o := z.id]), a, b);
        } else if ShouldReplace(z, w) {
          RivalNotReplaced(byId, z, o, p.spentBy, a, b);
          VisitSparesRival(byId, z, outs[1..], File(p.(conflicts := p.conflicts + {h}, spentBy := p.spentBy[o := z.id]), w, w), a, b);
        } else {
          RivalNotBeaten(byId, z, o, p.spentBy, a, b);
          VisitSparesRival(byId, z, outs[1..], File(p.(conflicts := p.conflicts + {z.id}), z, w), a, b);
        }
      } else if o !in p.spentBy {
        VisitSparesRival(byId, z, outs[1..], p.(spentBy := p.spentBy[o := z.id]), a, b);
      }
    }
  }

  /** A record claiming one of its own outpoints keeps the claims as seen from the rivals. */
  lemma ClaimFits(byId: seq<Change>, z: Change, o: OutPoint, m: map<OutPoint, TxId>, a: Change, b: Change)
    requires z in byId && o in z.spent && Rivalry(a, b) && Apart(byId, a, b) && PairClaims(m, a, b)
    ensures PairClaims(m[o := z.id], a, b)
  {
  }

  /** A record never beats `b` on an outpoint `b` holds. */
  lemma RivalNotReplaced(byId: seq<Change>, z: Change, o: OutPoint, m: map<OutPoint, TxId>, a: Change, b: Change)
    requires DistinctIds(byId) && z in byId && b in byId && o in z.spent && Rivalry(a, b) && Apart(byId, a, b)
    requires PairClaims(m, a, b) && o in m && m[o] != z.id && Lookup(byId, m[o]).Some?
    requires ShouldReplace(z, Lookup(byId, m[o]).value)
    ensures m[o] != b.id
  {
  }

  /** `b` never loses a clash. */
  lemma RivalNotBeaten(byId: seq<Change>, z: Change, o: OutPoint, m: map<OutPoint, TxId>, a: Change, b: Change)
    requires DistinctIds(byId) && z in byId && o in z.spent && Rivalry(a, b) && Apart(byId, a, b)
    requires PairClaims(m, a, b) && o in m && m[o] != z.id && Lookup(byId, m[o]).Some?
    requires !ShouldReplace(z, Lookup(byId, m[o]).value)
    ensures z.id != b.id
  {
  }

  lemma {:induction false} VisitAllSparesRival(byId: seq<Change>, todo: seq<Change>, p: Pass, a: Change, b: Change)
    requires DistinctIds(byId) && b in byId && Rivalry(a, b) && Apart(byId, a, b)
    requires forall t | t in todo :: t in byId && IsUnconfirmed(t)
    requires PairClaims(p.spentBy, a, b) && b.id !in p.conflicts
    requires VisitAll(byId, todo, p).Success?
    ensures PairClaims(VisitAll(byId, todo, p).value.spentBy, a, b)
    ensures b.id !in VisitAll(byId, todo, p).value.conflicts
    decreases |todo|
  {
    if todo != [] {
      VisitSparesRival(byId, todo[0], todo[0].spent, p, a, b);
      assert forall t | t in todo[1..] :: t in todo;
      VisitAllSparesRival(byId, todo[1..], VisitOutpoints(byId, todo[0], todo[0].spent, p).value, a, b);
    }
  }

  /** The `goto removeConflicts` loop keeps `b` through every pass. */
  lemma {:induction false} RivalKept(byId: seq<Change>, spentBy: map<OutPoint, TxId>, replaced: seq<Change>, ignored: seq<Change>, a: Change, b: Change)
    requires DistinctIds(byId) && b in byId && Rivalry(a, b) && Apart(byId, a, b)
    requires PairClaims(spentBy, a, b)
    requires RemoveConflicts(byId, spentBy, replaced, ignored).Success?
    ensures b in RemoveConflicts(byId, spentBy, replaced, ignored).value.byId
    decreases |byId|
  {
    var p := ScanPass(byId, spentBy, replaced, ignored).value;
    VisitAllSparesRival(byId, UnconfirmedOf(byId), Pass(spentBy, {}, replaced, ignored), a, b);
    if p.conflicts != {} {
      var rest := RemoveIds(byId, p.conflicts);
      PassShrinks(byId, p);
      RemoveIdsDistinct(byId, p.conflicts);
      assert b in rest;
      assert RemoveConflicts(byId, spentBy, replaced, ignored) == RemoveConflicts(rest, p.spentBy, p.replaced, p.ignored);
      RivalKept(rest, p.spentBy, p.replaced, p.ignored, a, b);
    }
  }

  /**
    The loop settles an isolated pair of rivals by the replace rule: `b`
    stays and `a` is removed and filed in `ReplacedTransactions`.
   */
  lemma RivalsSettled(byId: seq<Change>, spentBy: map<OutPoint, TxId>, replaced: seq<Change>, ignored: seq<Change>, a: Change, b: Change)
    requires DistinctIds(byId) && Rivalry(a, b) && Apart(byId, a, b) && a in byId && b in byId
    requires NoDuplicates(a.spent) && NoDuplicates(b.spent) && Shared(a, b)
    requires forall o | o in spentBy :: o !in a.spent && o !in b.spent && spentBy[o] != a.id && spentBy[o] != b.id
    requires RemoveConflicts(byId, spentBy, replaced, ignored).Success?
    ensures var r := RemoveConflicts(byId, spentBy, replaced, ignored).value;
      b in r.byId && a !in r.byId && a in r.replaced
  {
    RivalReplaced(byId, spentBy, replaced, ignored, a, b);
    RivalKept(byId, spentBy, replaced, ignored, a, b);
  }

  /** Every record of `byId` with another id that spends an outpoint of `x` is confirmed. */
  ghost predicate FacesConfirmed(byId: seq<Change>, x: Change) {
    forall y, o | y in byId && y.id != x.id && o in y.spent && o in x.spent :: IsConfirmed(y)
  }

  /** Every claim on an outpoint of `x` names a confirmed record of `byId`. */
  ghost predicate ClaimsConfirmed(byId: seq<Change>, m: map<OutPoint, TxId>, x: Change) {
    forall o | o in x.spent && o in m :: Lookup(byId, m[o]).Some? && IsConfirmed(Lookup(byId, m[o]).value)
  }

  /**
    How far one pass has got with `x`: before its visit, the claims on its
    outpoints name confirmed records and there is at least one; after, `x`
    is marked and in the ignored list.
   */
  ghost predicate LoserStage(byId: seq<Change>, p: Pass, x: Change, done: bool) {
    if done then Into(p, x, true)
    else
      && ClaimsConfirmed(byId, p.spentBy, x)
      && (exists o | o in x.spent :: o in p.spentBy)
      && p.conflicts <= UnconfirmedIds(byId)
  }

  /** The visit of `x` meets only confirmed claimants and loses to them. */
  lemma LoserVisited(byId: seq<Change>, x: Change, p: Pass)
    requires DistinctIds(byId) && x in byId && IsUnconfirmed(x) && NoDuplicates(x.spent)
    requires LoserStage(byId, p, x, false)
    ensures VisitOutpoints(byId, x, x.spent, p).Success?
    ensures LoserStage(byId, VisitOutpoints(byId, x, x.spent, p).value, x, true)
  {
    forall o | o in x.spent && o in p.spentBy ensures HeldAgainst(byId, p, x, o, true) {
      var c := Lookup(byId, p.spentBy[o]).value;
      assert Lookup(byId, x.id) == Some(x);
      assert p.spentBy[o] !in UnconfirmedIds(byId);
    }
    VisitLoses(byId, x, x.spent, p, true);
  }

  /** One visit of a pass keeps the stage, moving it on when it visits `x`. */
  lemma LoserStep(byId: seq<Change>, t: Change, p: Pass, x: Change, done: bool)
    requires DistinctIds(byId) && t in byId && IsUnconfirmed(t) && x in byId && IsUnconfirmed(x)
    requires NoDuplicates(x.spent) && FacesConfirmed(byId, x)
    requires t == x ==> !done
    requires LoserStage(byId, p, x, done)
    requires VisitOutpoints(byId, t, t.spent, p).Success?
    ensures LoserStage(byId, VisitOutpoints(byId, t, t.spent, p).value, x, done || t == x)
  {
    var r := VisitOutpoints(byId, t, t.spent, p).value;
    if done {
      assert p.ignored <= r.ignored;
    } else if t == x {
      LoserVisited(byId, x, p);
    } else {
      LoserOther(byId, t, p, x);
    }
  }

  /** A visit of another unconfirmed record leaves the claims on the outpoints of `x` alone. */
  lemma LoserOther(byId: seq<Change>, t: Change, p: Pass, x: Change)
    requires DistinctIds(byId) && t in byId && IsUnconfirmed(t) && x in byId && IsUnconfirmed(x) && t != x
    requires FacesConfirmed(byId, x) && LoserStage(byId, p, x, false)
    requires VisitOutpoints(byId, t, t.spent, p).Success?
    ensures LoserStage(byId, VisitOutpoints(byId, t, t.spent, p).value, x, false)
  {
    var r := VisitOutpoints(byId, t, t.spent, p).value;
    assert t.id != x.id;
    VisitAvoids(byId, t, t.spent, p, OutsOf(x.spent), {});
    var o :| o in x.spent && o in p.spentBy;
    assert o in r.spentBy;
  }

  /** A whole pass over `todo`, which lists no record twice, marks `x` and files it in the ignored list. */
  lemma {:induction false} LoserPass(byId: seq<Change>, todo: seq<Change>, p: Pass, x: Change)
    requires DistinctIds(byId) && NoDuplicates(todo)
    requires forall t | t in todo :: t in byId && IsUnconfirmed(t)
    requires x in byId && IsUnconfirmed(x) && NoDuplicates(x.spent) && FacesConfirmed(byId, x)
    requires LoserStage(byId, p, x, x !in todo)
    requires VisitAll(byId, todo, p).Success?
    ensures LoserStage(byId, VisitAll(byId, todo, p).value, x, true)
    decreases |todo|
  {
    if todo != [] {
      var t := todo[0];
      NoDuplicatesTail(todo);
      assert forall u | u in todo[1..] :: u in todo;
      assert x !in todo[1..] <==> x !in todo || t == x;
      LoserStep(byId, t, p, x, x !in todo);
      LoserPass(byId, todo[1..], VisitOutpoints(byId, t, t.spent, p).value, x);
    }
  }

  /**
    The `goto removeConflicts` loop, started from claims that name a
    confirmed record on at least one outpoint of `x`, and a confirmed record
    on every claimed one, removes `x` in its first pass and files it in the
    ignored list, when only confirmed records share its outpoints.
   */
  lemma ConfirmedLoser(byId: seq<Change>, spentBy: map<OutPoint, TxId>, replaced: seq<Change>, ignored: seq<Change>, x: Change)
    requires DistinctIds(byId) && x in byId && IsUnconfirmed(x) && NoDuplicates(x.spent) && FacesConfirmed(byId, x)
    requires ClaimsConfirmed(byId, spentBy, x) && exists o | o in x.spent :: o in spentBy
    requires RemoveConflicts(byId, spentBy, replaced, ignored).Success?
    ensures x !in RemoveConflicts(byId, spentBy, replaced, ignored).value.byId
    ensures x in RemoveConflicts(byId, spentBy, replaced, ignored).value.ignored
  {
    var p := ScanPass(byId, spentBy, replaced, ignored).value;
    UnconfirmedOnce(byId);
    LoserPass(byId, UnconfirmedOf(byId), Pass(spentBy, {}, replaced, ignored), x);
    var rest := RemoveIds(byId, p.conflicts);
    PassShrinks(byId, p);
    RemoveIdsDistinct(byId, p.conflicts);
    assert RemoveConflicts(byId, spentBy, replaced, ignored) == RemoveConflicts(rest, p.spentBy, p.replaced, p.ignored);
    var r := RemoveConflicts(rest, p.spentBy, p.replaced, p.ignored).value;
    assert x !in rest;
    assert p.ignored <= r.ignored;
  }
}
