/**
  The double-spend loop of the `BalanceSheet` constructor (the
  `removeConflicts:` label and its `goto`): each pass scans the unconfirmed
  records, lets the replace rule settle every outpoint claimed twice, and
  removes the losers; the loop repeats until a pass finds no loser.
 */
module Conflicts {
  import opened Basics
  import opened Seqs
  import opened Changes
  import opened Claims

  /** The state one pass works on: `spentBy`, this pass's `conflicts`, and the two loser lists. */
  datatype Pass = Pass(
    spentBy: map<OutPoint, TxId>,
    conflicts: set<TxId>,
    replaced: seq<Change>,
    ignored: seq<Change>)

  function UnconfirmedIds(byId: seq<Change>): set<TxId> {
    set u | u in byId && IsUnconfirmed(u) :: u.id
  }

  function ConfirmedIds(byId: seq<Change>): set<TxId> {
    set c | c in byId && IsConfirmed(c) :: c.id
  }

  /**
    Files the loser of a conflict: into `ReplacedTransactions` when the
    record it clashed with (`conflicted`) is unconfirmed, else into
    `ignoredTransactions`.
   */
  function File(p: Pass, loser: Change, conflicted: Change): Pass {
    if IsUnconfirmed(conflicted) then p.(replaced := p.replaced + [loser])
    else p.(ignored := p.ignored + [loser])
  }

  /** `b` extends `a` with unconfirmed records of `byId` only. */
  ghost predicate Grows(a: seq<Change>, b: seq<Change>, byId: seq<Change>) {
    a <= b && forall c | c in b[|a|..] :: c in byId && IsUnconfirmed(c)
  }

  lemma GrowsTrans(a: seq<Change>, b: seq<Change>, c: seq<Change>, byId: seq<Change>)
    requires Grows(a, b, byId) && Grows(b, c, byId)
    ensures Grows(a, c, byId)
  {
    assert c[|a|..] == b[|a|..] + c[|b|..];
  }

  /** Every id in this pass's `conflicts` has had its record filed as a loser. */
  ghost predicate Filed(byId: seq<Change>, p: Pass) {
    forall c | c in byId && c.id in p.conflicts :: c in p.replaced || c in p.ignored
  }

  /**
    The inner loop over the outpoints `outs` of the unconfirmed record `x`.
    Stopping early is the `goto nextTransaction`; the failure is
    `spentBy.Add` meeting a key whose claimant has left the dictionary.
   */
  function VisitOutpoints(byId: seq<Change>, x: Change, outs: seq<OutPoint>, p: Pass): (r: Result<Pass, SheetError>)
    requires DistinctIds(byId) && x in byId && IsUnconfirmed(x)
    ensures r.Failure? ==> r.error.DuplicateSpend?
    ensures r.Success? ==> p.conflicts <= r.value.conflicts <= p.conflicts + UnconfirmedIds(byId)
    ensures r.Success? ==> Grows(p.replaced, r.value.replaced, byId) && Grows(p.ignored, r.value.ignored, byId)
    ensures r.Success? && Filed(byId, p) ==> Filed(byId, r.value)
    decreases |outs|
  {
    if outs == [] then Success(p)
    else
      var o := outs[0];
      if o in p.spentBy && Lookup(byId, p.spentBy[o]).Some? then
        var h := p.spentBy[o];
        var w := Lookup(byId, h).value;
        if h == x.id then
          Success(p)
        else if h in p.conflicts then
          VisitOutpoints(byId, x, outs[1..], p.(spentBy := p.spentBy[o := x.id]))
        else if ShouldReplace(x, w) then
          var p' := File(p.(conflicts := p.conflicts + {h}, spentBy := p.spentBy[o := x.id]), w, w);
          var r := VisitOutpoints(byId, x, outs[1..], p');
          assert Grows(p.replaced, p'.replaced, byId) && Grows(p.ignored, p'.ignored, byId);
          assert r.Success? ==> Grows(p.replaced, r.value.replaced, byId) && Grows(p.ignored, r.value.ignored, byId) by {
            if r.Success? {
              GrowsTrans(p.replaced, p'.replaced, r.value.replaced, byId);
              GrowsTrans(p.ignored, p'.ignored, r.value.ignored, byId);
            }
          }
          r
        else
          var p' := File(p.(conflicts := p.conflicts + {x.id}), x, w);
          var r := VisitOutpoints(byId, x, outs[1..], p');
          assert Grows(p.replaced, p'.replaced, byId) && Grows(p.ignored, p'.ignored, byId);
          assert r.Success? ==> Grows(p.replaced, r.value.replaced, byId) && Grows(p.ignored, r.value.ignored, byId) by {
            if r.Success? {
              GrowsTrans(p.replaced, p'.replaced, r.value.replaced, byId);
              GrowsTrans(p.ignored, p'.ignored, r.value.ignored, byId);
            }
          }
          r
      else if o in p.spentBy then
        Failure(DuplicateSpend(o))
      else
        VisitOutpoints(byId, x, outs[1..], p.(spentBy := p.spentBy[o := x.id]))
  }

  /** The outer loop of one pass, over the unconfirmed records `todo`. */
  function VisitAll(byId: seq<Change>, todo: seq<Change>, p: Pass): (r: Result<Pass, SheetError>)
    requires DistinctIds(byId)
    requires forall t | t in todo :: t in byId && IsUnconfirmed(t)
    ensures r.Failure? ==> r.error.DuplicateSpend?
    ensures r.Success? ==> p.conflicts <= r.value.conflicts <= p.conflicts + UnconfirmedIds(byId)
    ensures r.Success? ==> Grows(p.replaced, r.value.replaced, byId) && Grows(p.ignored, r.value.ignored, byId)
    ensures r.Success? && Filed(byId, p) ==> Filed(byId, r.value)
    decreases |todo|
  {
    if todo == [] then Success(p)
    else
      match VisitOutpoints(byId, todo[0], todo[0].spent, p)
      case Failure(e) => Failure(e)
      case Success(p1) =>
        assert forall t | t in todo[1..] :: t in todo;
        var r := VisitAll(byId, todo[1..], p1);
        assert r.Success? ==> Grows(p.replaced, r.value.replaced, byId) && Grows(p.ignored, r.value.ignored, byId) by {
          if r.Success? {
            GrowsTrans(p.replaced, p1.replaced, r.value.replaced, byId);
            GrowsTrans(p.ignored, p1.ignored, r.value.ignored, byId);
          }
        }
        r
  }

  /** One pass over the dictionary, starting with an empty `conflicts` set. */
  function ScanPass(byId: seq<Change>, spentBy: map<OutPoint, TxId>, replaced: seq<Change>, ignored: seq<Change>)
    : (r: Result<Pass, SheetError>)
    requires DistinctIds(byId)
    ensures r.Failure? ==> r.error.DuplicateSpend?
    ensures r.Success? ==> r.value.conflicts <= UnconfirmedIds(byId)
    ensures r.Success? ==> Grows(replaced, r.value.replaced, byId) && Grows(ignored, r.value.ignored, byId)
    ensures r.Success? ==> Filed(byId, r.value)
  {
    VisitAll(byId, UnconfirmedOf(byId), Pass(spentBy, {}, replaced, ignored))
  }

  /** What the loop leaves: the survivors, `spentBy`, and the two loser lists. */
  datatype Settled = Settled(
    byId: seq<Change>,
    spentBy: map<OutPoint, TxId>,
    replaced: seq<Change>,
    ignored: seq<Change>)

  /** Every id `conflicts` collects is in the dictionary, so a pass with a loser shrinks it. */
  lemma PassShrinks(byId: seq<Change>, p: Pass)
    requires p.conflicts != {} && p.conflicts <= UnconfirmedIds(byId)
    ensures |RemoveIds(byId, p.conflicts)| < |byId|
  {
    var h :| h in p.conflicts;
    var c :| c in byId && IsUnconfirmed(c) && c.id == h;
    RemoveIdsShrinks(byId, p.conflicts);
  }

  /**
    The `goto removeConflicts` loop. Survivors are records of the input;
    confirmed records always survive; every record that leaves is filed as a
    loser; the loser lists only grow, and only with unconfirmed records.
   */
  function RemoveConflicts(byId: seq<Change>, spentBy: map<OutPoint, TxId>, replaced: seq<Change>, ignored: seq<Change>)
    : (r: Result<Settled, SheetError>)
    requires DistinctIds(byId)
    ensures r.Failure? ==> r.error.DuplicateSpend?
    ensures r.Success? ==> DistinctIds(r.value.byId)
    ensures r.Success? ==> forall c | c in r.value.byId :: c in byId
    ensures r.Success? ==> forall c | c in byId && IsConfirmed(c) :: c in r.value.byId
    ensures r.Success? ==> forall c | c in byId :: c in r.value.byId || c in r.value.replaced || c in r.value.ignored
    ensures r.Success? ==> Grows(replaced, r.value.replaced, byId) && Grows(ignored, r.value.ignored, byId)
    decreases |byId|
  {
    match ScanPass(byId, spentBy, replaced, ignored)
    case Failure(e) => Failure(e)
    case Success(p) =>
      if p.conflicts == {} then
        FilterKeepsAll(byId, (c: Change) => c.id !in p.conflicts);
        Success(Settled(byId, p.spentBy, p.replaced, p.ignored))
      else
        var rest := RemoveIds(byId, p.conflicts);
        PassShrinks(byId, p);
        RemoveIdsDistinct(byId, p.conflicts);
        var r := RemoveConflicts(rest, p.spentBy, p.replaced, p.ignored);
        assert forall c | c in byId && IsConfirmed(c) :: c.id !in p.conflicts by {
          forall c, u | c in byId && u in byId && IsConfirmed(c) && IsUnconfirmed(u) ensures c.id != u.id {
            var i :| 0 <= i < |byId| && byId[i] == c;
            var j :| 0 <= j < |byId| && byId[j] == u;
          }
        }
        assert r.Success? ==> Grows(replaced, r.value.replaced, byId) && Grows(ignored, r.value.ignored, byId) by {
          if r.Success? {
            assert Grows(p.replaced, r.value.replaced, byId);
            assert Grows(p.ignored, r.value.ignored, byId);
            GrowsTrans(replaced, p.replaced, r.value.replaced, byId);
            GrowsTrans(ignored, p.ignored, r.value.ignored, byId);
          }
        }
        assert r.Success? ==> forall c | c in byId :: c in r.value.byId || c in r.value.replaced || c in r.value.ignored by {
          if r.Success? {
            forall c | c in byId ensures c in r.value.byId || c in r.value.replaced || c in r.value.ignored {
              if c.id in p.conflicts {
                assert c in p.replaced || c in p.ignored;
                assert p.replaced <= r.value.replaced && p.ignored <= r.value.ignored;
              } else {
                assert c in rest;
              }
            }
          }
        }
        r
  }
}
