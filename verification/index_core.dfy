/**
  `IndexCore`: one batch of insert-or-replace operations written through a
  local queue. A batch the service rejects as too large (HTTP 413) is split
  in two; a batch with one entity too large loses that operation and is
  retried; any other error is rethrown. The service's replies are an oracle
  sequence, one reply per backend call.
 */
module IndexCore {
  import opened Basics
  import opened Seqs
  import opened Grouping
  import opened StorageErrors

  /**
    `TableOperation.InsertOrReplace(entity)`. The operation objects are
    compared by reference; `slot` (the item's position) stands for that
    identity, so two operations on equal entities stay distinct.
   */
  datatype Op = InsertOrReplace(slot: nat, entity: Entity)

  /** What the service does with one backend call. */
  datatype Outcome = Completed | Threw(ex: Exn)

  /** A backend call: `ExecuteBatch` for two or more operations, `Execute` for one. */
  datatype Call = ExecuteBatch(ops: seq<Op>) | Execute(op: Op)

  /** How the loop ended. `OutOfReplies` stands for a run longer than the oracle. */
  datatype Status =
    | Finished
    | Rethrown(ex: Exn)
    | LookupFailed(fault: Fault)
    | OutOfReplies

  /** The initial batch: one operation per item, in order. */
  function Ops(items: seq<Entity>): (r: seq<Op>)
    ensures |r| == |items|
    ensures forall i | 0 <= i < |r| :: r[i].entity == items[i]
  {
    seq(|items|, i requires 0 <= i < |items| => InsertOrReplace(i, items[i]))
  }

  /** The first `Count / 2` operations and the remaining `Count - Count / 2`. */
  function Split(batch: seq<Op>): (r: (seq<Op>, seq<Op>))
    ensures r.0 + r.1 == batch
    ensures |r.0| == |batch| / 2 && |r.1| == |batch| - |batch| / 2
  {
    (batch[..|batch| / 2], batch[|batch| / 2..])
  }

  /** `List.Remove`: drop the first occurrence of `op`, if any. */
  function Remove(batch: seq<Op>, op: Op): (r: seq<Op>)
    ensures op in batch ==> multiset(r) == multiset(batch) - multiset{op}
    ensures op !in batch ==> r == batch
    decreases |batch|
  {
    if batch == [] then []
    else
      assert batch == [batch[0]] + batch[1..];
      if batch[0] == op then batch[1..] else [batch[0]] + Remove(batch[1..], op)
  }

  /** The position of the first occurrence of `op`. */
  function FirstIndex(batch: seq<Op>, op: Op): (i: nat)
    requires op in batch
    ensures i < |batch| && batch[i] == op && op !in batch[..i]
    decreases |batch|
  {
    if batch[0] == op then 0
    else
      assert op in batch[1..] by { assert batch == [batch[0]] + batch[1..]; }
      var j := FirstIndex(batch[1..], op);
      assert batch[..j + 1] == [batch[0]] + batch[1..][..j];
      j + 1
  }

  /**
    `List.Remove` takes out the first occurrence of `op` and keeps the order
    of the other operations, the order a later faulty-operation index points
    into.
   */
  lemma RemoveFirst(batch: seq<Op>, op: Op)
    requires op in batch
    ensures exists i | 0 <= i < |batch| :: batch[i] == op && op !in batch[..i] && Remove(batch, op) == batch[..i] + batch[i + 1..]
  {
    var i := FirstIndex(batch, op);
    RemoveAtFirst(batch, op);
    assert batch[i] == op && op !in batch[..i] && Remove(batch, op) == batch[..i] + batch[i + 1..];
  }

  lemma {:induction false} RemoveAtFirst(batch: seq<Op>, op: Op)
    requires op in batch
    ensures Remove(batch, op) == batch[..FirstIndex(batch, op)] + batch[FirstIndex(batch, op) + 1..]
    decreases |batch|
  {
    if batch[0] != op {
      var h, tail := batch[0], batch[1..];
      assert batch == [h] + tail;
      assert op in tail;
      RemoveAtFirst(tail, op);
      var j := FirstIndex(tail, op);
      ConsSlices(h, tail, j);
      calc {
        Remove(batch, op);
        [h] + Remove(tail, op);
        [h] + (tail[..j] + tail[j + 1..]);
        ([h] + tail[..j]) + tail[j + 1..];
      }
    }
  }

  lemma ConsSlices(h: Op, t: seq<Op>, j: nat)
    requires j < |t|
    ensures ([h] + t)[..j + 1] == [h] + t[..j]
    ensures ([h] + t)[j + 2..] == t[j + 1..]
  {
  }

  /** The call made for a non-empty batch. */
  function CallFor(batch: seq<Op>): (r: Call)
    requires batch != []
    ensures r.ExecuteBatch? <==> |batch| > 1
    ensures r.ExecuteBatch? ==> r.ops == batch
    ensures r.Execute? ==> batch == [r.op]
  {
    if |batch| > 1 then ExecuteBatch(batch) else Execute(batch[0])
  }

  /** The operations a call sends. */
  function CallOps(c: Call): seq<Op> {
    match c
    case ExecuteBatch(ops) => ops
    case Execute(op) => [op]
  }

  /** The operations of the calls the service answered with `Completed`, in call order. */
  function Accepted(calls: seq<Call>, replies: seq<Outcome>): seq<Op>
    requires |calls| <= |replies|
    decreases |calls|
  {
    if calls == [] then []
    else
      var k := |calls| - 1;
      Accepted(calls[..k], replies) + if replies[k] == Completed then CallOps(calls[k]) else []
  }

  lemma AcceptedSnoc(calls: seq<Call>, c: Call, replies: seq<Outcome>)
    requires |calls| < |replies|
    ensures Accepted(calls + [c], replies) == Accepted(calls, replies) + if replies[|calls|] == Completed then CallOps(c) else []
  {
    assert (calls + [c])[..|calls|] == calls;
  }

  lemma OpsDistinct(items: seq<Entity>)
    ensures NoDuplicates(Ops(items))
  {
  }

  /** No element occurs twice in a multiset built from a sequence without duplicates. */
  lemma {:induction false} NoDuplicatesCount<T>(s: seq<T>, x: T)
    requires NoDuplicates(s)
    ensures multiset(s)[x] <= 1
    decreases |s|
  {
    if s != [] {
      assert s == [s[0]] + s[1..];
      assert NoDuplicates(s[1..]) by {
        forall i, j | 0 <= i < |s| - 1 && 0 <= j < |s| - 1 && i != j ensures s[1..][i] != s[1..][j] {
          assert s[1..][i] == s[i + 1] && s[1..][j] == s[j + 1];
        }
      }
      NoDuplicatesCount(s[1..], x);
      assert s[0] !in s[1..] by {
        forall k | 0 <= k < |s| - 1 ensures s[1..][k] != s[0] {
          assert s[1..][k] == s[k + 1];
        }
      }
    }
  }

  /** The loop's state: the queue and what has become of the operations so far. */
  datatype Run = Run(
    queue: seq<seq<Op>>,
    next: nat,
    indexed: nat,
    committed: seq<Op>,
    dropped: seq<Op>,
    pending: seq<Op>,
    calls: seq<Call>,
    status: Status)

  /** Every operation of the initial batch is committed, dropped, pending or queued, exactly once. */
  ghost predicate Accounts(items: seq<Entity>, r: Run) {
    multiset(r.committed) + multiset(r.dropped) + multiset(r.pending) + multiset(Flatten(r.queue)) == multiset(Ops(items))
  }

  lemma FlattenCons(b: seq<Op>, q: seq<seq<Op>>)
    ensures Flatten([b] + q) == b + Flatten(q)
  {
    assert ([b] + q)[1..] == q;
  }

  lemma FlattenSnocOp(q: seq<seq<Op>>, b: seq<Op>)
    ensures Flatten(q + [b]) == Flatten(q) + b
  {
    FlattenAppend(q, [b]);
    FlattenCons(b, []);
  }

  /** The handling of the reply to the call for `batch`, already taken off the queue. */
  function Handle(r: Run, batch: seq<Op>, reply: Outcome): Run {
    match reply
    case Completed =>
      r.(indexed := r.indexed + |batch|, committed := r.committed + batch)
    case Threw(ex) =>
      if IsError413(ex) then
        var (first, second) := Split(batch);
        r.(queue := r.queue + [first] + [second])
      else if IsError(ex, EntityTooLarge) then
        match GetFaultyOperation(ex, batch)
        case Failure(f) => r.(status := LookupFailed(f), pending := batch)
        case Success(None) => r.(queue := r.queue + [batch])
        case Success(Some(op)) => r.(queue := r.queue + [Remove(batch, op)], dropped := r.dropped + [op])
      else
        r.(queue := r.queue + [batch], status := Rethrown(ex))
  }

  /** One iteration: dequeue a batch, call the service unless it is empty, handle the reply. */
  function Step(r: Run, replies: seq<Outcome>): (r': Run)
    requires r.queue != [] && r.next <= |replies|
    ensures r'.next <= |replies| && |r'.calls| == |r.calls| + (r'.next - r.next)
    ensures r'.next == r.next ==> |r'.queue| < |r.queue|
    ensures r.next <= r'.next <= r.next + 1
    ensures r'.indexed == r.indexed + (|r'.committed| - |r.committed|)
    ensures r.committed <= r'.committed
  {
    var batch, rest := r.queue[0], r.queue[1..];
    if batch == [] then r.(queue := rest)
    else if r.next == |replies| then r.(queue := rest, status := OutOfReplies, pending := batch)
    else Handle(r.(queue := rest, next := r.next + 1, calls := r.calls + [CallFor(batch)]), batch, replies[r.next])
  }

  /** Handling a reply keeps every operation accounted for. */
  lemma HandleAccounts(items: seq<Entity>, r: Run, batch: seq<Op>, reply: Outcome)
    requires r.pending == [] && multiset(r.committed) + multiset(r.dropped) + multiset(batch) + multiset(Flatten(r.queue)) == multiset(Ops(items))
    ensures Accounts(items, Handle(r, batch, reply))
  {
    if reply.Threw? {
      var ex := reply.ex;
      if IsError413(ex) {
        SplitAccounts(items, r, batch);
      } else if IsError(ex, EntityTooLarge) {
        TooLargeAccounts(items, r, batch, ex);
      } else {
        RequeueAccounts(items, r, Handle(r, batch, reply), batch, batch, []);
      }
    }
  }

  lemma TooLargeAccounts(items: seq<Entity>, r: Run, batch: seq<Op>, ex: Exn)
    requires r.pending == [] && multiset(r.committed) + multiset(r.dropped) + multiset(batch) + multiset(Flatten(r.queue)) == multiset(Ops(items))
    requires !IsError413(ex) && IsError(ex, EntityTooLarge)
    ensures Accounts(items, Handle(r, batch, Threw(ex)))
  {
    match GetFaultyOperation(ex, batch)
    case Failure(f) =>
    case Success(None) =>
    case Success(Some(op)) =>
      RequeueAccounts(items, r, Handle(r, batch, Threw(ex)), batch, Remove(batch, op), [op]);
  }

  /** Putting back what is left of the batch, and dropping the rest, accounts for the batch. */
  lemma RequeueAccounts(items: seq<Entity>, r: Run, r': Run, batch: seq<Op>, kept: seq<Op>, lost: seq<Op>)
    requires r.pending == [] && multiset(r.committed) + multiset(r.dropped) + multiset(batch) + multiset(Flatten(r.queue)) == multiset(Ops(items))
    requires multiset(kept) + multiset(lost) == multiset(batch)
    requires r'.committed == r.committed && r'.dropped == r.dropped + lost && r'.pending == [] && r'.queue == r.queue + [kept]
    ensures Accounts(items, r')
  {
    FlattenSnocOp(r.queue, kept);
    assert multiset(r'.dropped) == multiset(r.dropped) + multiset(lost);
  }

  /** Queuing both halves of a split batch accounts for the batch. */
  lemma SplitAccounts(items: seq<Entity>, r: Run, batch: seq<Op>)
    requires r.pending == [] && multiset(r.committed) + multiset(r.dropped) + multiset(batch) + multiset(Flatten(r.queue)) == multiset(Ops(items))
    ensures Accounts(items, r.(queue := r.queue + [Split(batch).0] + [Split(batch).1]))
  {
    var (first, second) := Split(batch);
    FlattenSnocOp(r.queue, first);
    FlattenSnocOp(r.queue + [first], second);
  }

  lemma StepAccounts(items: seq<Entity>, r: Run, replies: seq<Outcome>)
    requires r.queue != [] && r.next <= |replies| && r.pending == [] && Accounts(items, r)
    ensures Accounts(items, Step(r, replies))
  {
    var batch, rest := r.queue[0], r.queue[1..];
    var r1 := r.(queue := rest);
    assert multiset(r1.committed) + multiset(r1.dropped) + multiset(batch) + multiset(Flatten(r1.queue)) == multiset(Ops(items)) by {
      assert r.queue == [batch] + rest;
      FlattenCons(batch, rest);
    }
    if batch == [] {
      assert Step(r, replies) == r1;
    } else if r.next == |replies| {
      assert Step(r, replies) == r1.(status := OutOfReplies, pending := batch);
    } else {
      var r2 := r1.(next := r.next + 1, calls := r.calls + [CallFor(batch)]);
      HandleAccounts(items, r2, batch, replies[r.next]);
      assert Step(r, replies) == Handle(r2, batch, replies[r.next]);
    }
  }

  /** The loop stops on a rethrow only for errors it does not handle itself. */
  lemma StepRethrows(r: Run, replies: seq<Outcome>)
    requires r.queue != [] && r.next <= |replies| && r.status == Finished
    ensures Step(r, replies).status.Rethrown? ==>
      !IsError413(Step(r, replies).status.ex) && !IsError(Step(r, replies).status.ex, EntityTooLarge)
    ensures forall c | c in Step(r, replies).calls[|r.calls|..] :: c.ExecuteBatch? ==> |c.ops| > 1
    ensures Step(r, replies).calls[..|r.calls|] == r.calls
  {
  }

  /**
    What one iteration does with the batch at the head of the queue, for each
    kind of reply. Apart from the reply counter and the call log, a field the
    case does not name keeps its value.
   */
  lemma StepOutcomes(r: Run, replies: seq<Outcome>)
    requires r.queue != [] && r.next <= |replies|
    ensures r.queue[0] == [] ==> Step(r, replies) == r.(queue := r.queue[1..])
    ensures r.queue[0] != [] && r.next == |replies| ==>
      Step(r, replies) == r.(queue := r.queue[1..], status := OutOfReplies, pending := r.queue[0])
    ensures r.queue[0] != [] && r.next < |replies| ==>
      Step(r, replies).next == r.next + 1 && Step(r, replies).calls == r.calls + [CallFor(r.queue[0])]
    ensures r.queue[0] != [] && r.next < |replies| && replies[r.next] == Completed ==>
      var batch := r.queue[0];
      Step(r, replies).(next := r.next, calls := r.calls)
        == r.(queue := r.queue[1..], committed := r.committed + batch, indexed := r.indexed + |batch|)
    ensures r.queue[0] != [] && r.next < |replies| && replies[r.next].Threw? ==>
      var batch, rest, ex, s := r.queue[0], r.queue[1..], replies[r.next].ex, Step(r, replies).(next := r.next, calls := r.calls);
      && (IsError413(ex) ==> s == r.(queue := rest + [Split(batch).0, Split(batch).1]))
      && (!IsError413(ex) && IsError(ex, EntityTooLarge) && GetFaultyOperation(ex, batch).Failure? ==>
            s == r.(queue := rest, status := LookupFailed(GetFaultyOperation(ex, batch).error), pending := batch))
      && (!IsError413(ex) && IsError(ex, EntityTooLarge) && GetFaultyOperation(ex, batch) == Success(None) ==>
            s == r.(queue := rest + [batch]))
      && (!IsError413(ex) && IsError(ex, EntityTooLarge) && GetFaultyOperation(ex, batch).Success? && GetFaultyOperation(ex, batch).value.Some? ==>
            var op := GetFaultyOperation(ex, batch).value.value;
            s == r.(queue := rest + [Remove(batch, op)], dropped := r.dropped + [op]))
      && (!IsError413(ex) && !IsError(ex, EntityTooLarge) ==>
            s == r.(queue := rest + [batch], status := Rethrown(ex)))
  {
  }

  /** The committed operations are those of the calls answered `Completed`. */
  lemma StepKeepsAccepted(r: Run, replies: seq<Outcome>)
    requires r.queue != [] && r.next <= |replies| && |r.calls| == r.next
    requires r.committed == Accepted(r.calls, replies)
    ensures Step(r, replies).committed == Accepted(Step(r, replies).calls, replies)
  {
    StepOutcomes(r, replies);
    var batch := r.queue[0];
    if batch != [] && r.next < |replies| {
      AcceptedSnoc(r.calls, CallFor(batch), replies);
      assert CallOps(CallFor(batch)) == batch;
    }
  }

  /** Each way of stopping is traced to the reply that caused it. */
  lemma StepKeepsCause(r: Run, replies: seq<Outcome>)
    requires r.queue != [] && r.next <= |replies| && |r.calls| == r.next && r.status == Finished
    ensures var s := Step(r, replies);
      && (s.status == OutOfReplies ==> s.next == |replies|)
      && (s.status.Rethrown? ==> 0 < s.next && replies[s.next - 1] == Threw(s.status.ex))
      && (s.status.LookupFailed? ==> 0 < s.next && StoppedOnLookup(s.calls[s.next - 1], replies[s.next - 1], s.status.fault))
  {
    StepOutcomes(r, replies);
    var batch := r.queue[0];
    if batch != [] && r.next < |replies| {
      assert CallOps(CallFor(batch)) == batch;
    }
  }

  /**
    The call answered by an `EntityTooLarge` error whose faulty operation
    could not be looked up, ending the loop with `fault`.
   */
  ghost predicate StoppedOnLookup(c: Call, reply: Outcome, fault: Fault) {
    && reply.Threw? && !IsError413(reply.ex) && IsError(reply.ex, EntityTooLarge)
    && GetFaultyOperation(reply.ex, CallOps(c)) == Failure(fault)
  }

  /** No operation is both dropped and still to be sent, committed or pending. */
  lemma AccountsDisjoint(items: seq<Entity>, r: Run)
    requires Accounts(items, r)
    ensures forall o | o in r.dropped :: o !in r.committed && o !in r.pending && o !in Flatten(r.queue)
  {
    forall o | o in r.dropped ensures o !in r.committed && o !in r.pending && o !in Flatten(r.queue) {
      OpsDistinct(items);
      NoDuplicatesCount(Ops(items), o);
    }
  }

  /** An operation once dropped is never sent again. */
  lemma StepNeverRetries(items: seq<Entity>, r: Run, replies: seq<Outcome>)
    requires r.queue != [] && r.next <= |replies| && Accounts(items, r)
    ensures forall o, c | o in r.dropped && c in Step(r, replies).calls[|r.calls|..] :: o !in CallOps(c)
  {
    StepOutcomes(r, replies);
    AccountsDisjoint(items, r);
    var batch := r.queue[0];
    FlattenCons(batch, r.queue[1..]);
    assert r.queue == [batch] + r.queue[1..];
    if batch != [] && r.next < |replies| {
      assert Step(r, replies).calls[|r.calls|..] == [CallFor(batch)];
      assert CallOps(CallFor(batch)) == batch;
    } else {
      assert Step(r, replies).calls[|r.calls|..] == [];
    }
  }

  /** When the loop stops early, some operation is left pending. */
  lemma StepStops(r: Run, replies: seq<Outcome>)
    requires r.queue != [] && r.next <= |replies| && r.status == Finished
    ensures Step(r, replies).status != Finished ==>
      |Step(r, replies).pending| + |Flatten(Step(r, replies).queue)| > 0
  {
    var batch := r.queue[0];
    if batch != [] && r.next < |replies| {
      FlattenSnocOp(r.queue[1..], batch);
    }
  }

  /** What holds of the queue loop's state before and after each iteration. */
  ghost predicate LoopInv(items: seq<Entity>, replies: seq<Outcome>, r: Run) {
    CallsInv(replies, r) && OpsInv(items, r) && CauseInv(replies, r)
  }

  /** One call per reply used, no batch call for a single operation, and the accepted calls committed. */
  ghost predicate CallsInv(replies: seq<Outcome>, r: Run) {
    && r.next <= |replies| && |r.calls| == r.next
    && (forall c | c in r.calls :: c.ExecuteBatch? ==> |c.ops| > 1)
    && r.committed == Accepted(r.calls, replies)
  }

  /** Every operation accounted for, counted when committed, and some left over when stopping early. */
  ghost predicate OpsInv(items: seq<Entity>, r: Run) {
    && Accounts(items, r)
    && r.indexed == |r.committed|
    && (r.status == Finished ==> r.pending == [])
    && (r.status != Finished ==> |r.pending| + |Flatten(r.queue)| > 0)
  }

  /** Each way of stopping early, traced to the reply that caused it. */
  ghost predicate CauseInv(replies: seq<Outcome>, r: Run) {
    && r.next <= |replies| && |r.calls| == r.next
    && (r.status.Rethrown? ==> !IsError413(r.status.ex) && !IsError(r.status.ex, EntityTooLarge))
    && (r.status == OutOfReplies ==> r.next == |replies|)
    && (r.status.Rethrown? ==> 0 < r.next && replies[r.next - 1] == Threw(r.status.ex))
    && (r.status.LookupFailed? ==> 0 < r.next && StoppedOnLookup(r.calls[r.next - 1], replies[r.next - 1], r.status.fault))
  }

  /** An iteration of the queue loop keeps its invariant. */
  lemma StepKeepsInv(items: seq<Entity>, replies: seq<Outcome>, r: Run)
    requires LoopInv(items, replies, r) && r.queue != [] && r.status == Finished
    ensures LoopInv(items, replies, Step(r, replies))
  {
    StepKeepsCalls(replies, r);
    StepKeepsOps(items, replies, r);
    StepKeepsCauses(replies, r);
  }

  lemma StepKeepsCalls(replies: seq<Outcome>, r: Run)
    requires CallsInv(replies, r) && r.queue != [] && r.status == Finished
    ensures CallsInv(replies, Step(r, replies))
  {
    StepRethrows(r, replies);
    StepKeepsAccepted(r, replies);
    var r' := Step(r, replies);
    assert forall c | c in r'.calls :: c in r.calls || c in r'.calls[|r.calls|..] by {
      assert r'.calls == r'.calls[..|r.calls|] + r'.calls[|r.calls|..];
    }
  }

  lemma StepKeepsOps(items: seq<Entity>, replies: seq<Outcome>, r: Run)
    requires OpsInv(items, r) && r.queue != [] && r.next <= |replies| && r.status == Finished
    ensures OpsInv(items, Step(r, replies))
  {
    StepAccounts(items, r, replies);
    StepStops(r, replies);
  }

  lemma StepKeepsCauses(replies: seq<Outcome>, r: Run)
    requires CauseInv(replies, r) && r.queue != [] && r.status == Finished
    ensures CauseInv(replies, Step(r, replies))
  {
    StepRethrows(r, replies);
    StepKeepsCause(r, replies);
  }

  /** What the loop's final state says about the operations. */
  lemma Settles(items: seq<Entity>, r: Run)
    requires Accounts(items, r) && r.indexed == |r.committed|
    requires r.status == Finished ==> r.pending == [] && r.queue == []
    requires r.status != Finished ==> |r.pending| + |Flatten(r.queue)| > 0
    ensures var pending := r.pending + Flatten(r.queue);
      && multiset(r.committed) + multiset(r.dropped) + multiset(pending) == multiset(Ops(items))
      && r.indexed <= |items|
      && (forall o | o in r.dropped :: o !in r.committed && o !in pending)
      && (r.status == Finished <==> pending == [] && multiset(r.committed) + multiset(r.dropped) == multiset(Ops(items)))
  {
    var pending := r.pending + Flatten(r.queue);
    assert multiset(r.committed) + multiset(r.dropped) + multiset(pending) == multiset(Ops(items));
    assert |multiset(r.committed)| <= |multiset(Ops(items))|;
    AccountsDisjoint(items, r);
  }

  /**
    The queue loop over the operations for `items`, with `replies` answering
    the backend calls in turn. On return:
    - `committed` holds the operations of every call the service answered
      `Completed`, in call order, and the counter rose by exactly their
      number;
    - `dropped` holds the operations removed as too large, none of which was
      committed or is still pending;
    - an early stop is traced to the reply that caused it;
    - `pending` holds the rest: still queued when the loop stopped, or in the
      batch being handled when the lookup of the faulty operation threw;
    - together the three are the initial batch, so the counter never rises
      by more than `items.Count`.
   */
  method IndexCore(items: seq<Entity>, replies: seq<Outcome>)
    returns (indexed: nat, status: Status, committed: seq<Op>, dropped: seq<Op>, pending: seq<Op>, calls: seq<Call>)
    ensures multiset(committed) + multiset(dropped) + multiset(pending) == multiset(Ops(items))
    ensures indexed == |committed| <= |items|
    ensures forall o | o in dropped :: o !in committed && o !in pending
    ensures |calls| <= |replies| && committed == Accepted(calls, replies)
    ensures status == OutOfReplies ==> |calls| == |replies|
    ensures status.Rethrown? ==> 0 < |calls| && replies[|calls| - 1] == Threw(status.ex)
    ensures status.LookupFailed? ==> 0 < |calls| && StoppedOnLookup(calls[|calls| - 1], replies[|calls| - 1], status.fault)
    ensures status == Finished <==> pending == [] && multiset(committed) + multiset(dropped) == multiset(Ops(items))
    ensures status.Rethrown? ==> !IsError413(status.ex) && !IsError(status.ex, EntityTooLarge)
    ensures forall c | c in calls :: c.ExecuteBatch? ==> |c.ops| > 1
  {
    var r := Run([Ops(items)], 0, 0, [], [], [], [], Finished);
    FlattenCons(Ops(items), []);
    while r.queue != [] && r.status == Finished
      invariant LoopInv(items, replies, r)
      decreases |replies| - r.next, |r.queue|
    {
      StepKeepsInv(items, replies, r);
      r := Step(r, replies);
    }
    Settles(items, r);
    indexed, status, committed, dropped, calls := r.indexed, r.status, r.committed, r.dropped, r.calls;
    pending := r.pending + Flatten(r.queue);
  }

  /**
    A single-operation batch answered by 413 splits into an empty batch and
    itself: two iterations later the queue is back where it was, one reply
    spent. Replies that keep saying 413 keep the loop running.
   */
  lemma SingleOp413Repeats(r: Run, replies: seq<Outcome>, o: Op)
    requires r.queue == [[o]] && r.next < |replies| && r.status == Finished
    requires replies[r.next].Threw? && IsError413(replies[r.next].ex)
    ensures Step(r, replies).queue == [[], [o]]
    ensures Step(Step(r, replies), replies).queue == r.queue
    ensures Step(Step(r, replies), replies).next == r.next + 1
    ensures Step(Step(r, replies), replies).status == Finished
  {
    assert Split([o]) == ([], [o]);
  }

  lemma SizesAddUp(a: seq<Op>, b: seq<Op>, c: seq<Op>, items: seq<Entity>)
    requires multiset(a) + multiset(b) + multiset(c) == multiset(Ops(items))
    ensures |a| + |b| + |c| == |items|
  {
    assert |multiset(a) + multiset(b) + multiset(c)| == |multiset(Ops(items))|;
  }

  lemma BatchesPrefix(ws: seq<Work>, i: nat)
    requires i < |ws|
    ensures |Flatten(Batches(ws[..i + 1]))| == |Flatten(Batches(ws[..i]))| + |ws[i].batch|
  {
    assert Batches(ws[..i + 1]) == Batches(ws[..i]) + [ws[i].batch];
    FlattenSnoc(Batches(ws[..i]), ws[i].batch);
  }

  lemma TasksCount(entities: seq<Entity>)
    ensures |Flatten(Batches(Tasks(entities)))| == |entities|
  {
    TasksCoverEntities(entities);
    assert |multiset(Flatten(Batches(Tasks(entities))))| == |multiset(entities)|;
  }

  /**
    `IndexAsync` run one task after another: each task's `IndexCore` gets its
    own replies (`replies[i]`, none when missing). Over all tasks the counter
    plus the dropped operations never exceed the number of entities, and when
    every task finishes they add up to it.
   */
  method IndexAll(entities: seq<Entity>, replies: seq<seq<Outcome>>) returns (total: nat, dropped: nat, finished: bool)
    ensures total + dropped <= |entities|
    ensures finished ==> total + dropped == |entities|
  {
    var ws := Tasks(entities);
    total, dropped, finished := 0, 0, true;
    var waiting: nat := 0;
    var i := 0;
    while i < |ws|
      invariant i <= |ws|
      invariant total + dropped + waiting == |Flatten(Batches(ws[..i]))|
      invariant finished ==> waiting == 0
    {
      var outs := if i < |replies| then replies[i] else [];
      var indexed, status, committed, lost, pending, calls := IndexCore(ws[i].batch, outs);
      SizesAddUp(committed, lost, pending, ws[i].batch);
      BatchesPrefix(ws, i);
      total, dropped, waiting := total + indexed, dropped + |lost|, waiting + |pending|;
      finished := finished && status == Finished;
      i := i + 1;
    }
    assert ws[..i] == ws;
    TasksCount(entities);
  }
}
