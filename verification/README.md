# NBitcoin.Indexer: balance sheet and bulk table writes, in Dafny

This project models two parts of NBitcoin.Indexer and proves properties of them.

**The `BalanceSheet` constructor.** It takes the `OrderedBalanceChange` records
found for a wallet or address, plus the chain, and reconciles them. It:
- prunes records whose block the chain no longer knows;
- keeps one record per transaction id, chosen by `ShouldReplace`;
- lets confirmed records claim their spent outpoints;
- drops unconfirmed records that a confirmed record spends from ("incoherent");
- removes double-spending unconfirmed records by a repeated pass until none is
  left;
- orders the survivors so that parents come before spenders;
- exposes `All` (the reversed order), `Confirmed`, `Unconfirmed`, `Prunable`
  and `ReplacedTransactions`.

**The bulk indexer.** `IndexAsync` groups table entities by partition key and
cuts each group into batches of at most `PartitionSize` (100). Each batch goes
to `IndexCore`, whose local queue works as follows:
- a batch the service rejects with HTTP 413 is split in half;
- a batch with one entity too large loses the operation that the error message
  names by index;
- any other error is rethrown;
- a shared counter counts the entities written.

Files (one module each):
- `basics.dfy`: `Option`, `Result`.
- `seqs.dfy`: `Filter` (LINQ `Where`), `Reverse`, `RemoveAt`, `Flatten`.
- `changes.dfy`: records, chain, `ShouldReplace`, the dictionary as a sequence
  with distinct ids.
- `ingest.dfy`: the first loop (prune and dedup).
- `claims.dfy`: the claim loop and the incoherence fix-up.
- `conflicts.dfy`: the `removeConflicts` fixed point.
- `survival.dfy`: which unconfirmed records the fixed point is bound to keep.
- `verdicts.dfy`: why a record leaves the fixed point, and which loser list
  the record it lost to selects.
- `rivals.dfy`: who wins a clash between two unconfirmed records, and what
  happens to an unconfirmed record that only confirmed records contest.
- `fixed_point.dfy`: why the fixed point settles in two passes and leaves no
  double spend.
- `topo_sort.dfy`: the topological sort.
- `balance_sheet.dfy`: the constructor as a whole, with its end-to-end
  theorems.
- `grouping.dfy`: `GroupBy`, `Partition` and the task list.
- `storage_errors.dfy`: `IsError413`, `IsError`, `GetFaultyOperation`.
- `index_core.dfy`: the queue loop, and `IndexAsync` run task by task.

Modelling choices:
- `transactionsById` is a sequence with distinct ids, in dictionary
  enumeration order. Removing a key and adding it back reuses the freed slot,
  so a record that replaces another takes its place.
- Reference equality `conflicted == annotatedTransaction` is equality of ids,
  since the dictionary holds one record per id.
- `Dictionary.Add` on a key already present throws. This happens at
  `BalanceSheet.cs` lines 69 and 130, and the model returns it as
  `DuplicateSpend`.
- `IndexCore` gets the service's replies as a sequence, one reply per backend
  call. When the replies run out the loop stops with `OutOfReplies`. The
  source's loop need not terminate (see `IndexCore.SingleOp413Repeats`), so
  this bound stands in for termination.

Behaviour of the code the model keeps:
- When two confirmed records spend the same outpoint, `spentBy.Add` at
  `BalanceSheet.cs` line 69 throws, so the constructor fails with
  `DuplicateSpend` even though the chain is not null.
- Records that lose the dedup go to `Prunable`.
- `ShouldReplace` compares the `Height` stored in the record, not the height
  just looked up in the chain.
- `Confirmed` and `Unconfirmed` are filtered from the list after it was
  reversed in place. So they follow the order of `All`.

## Model

| member | source | states |
|---|---|---|
| Changes.ShouldReplace | NBitcoin.Indexer/BalanceSheet.cs:157-181 | the replace rule holds exactly when the first record outranks the second in an independent order: confirmed above unconfirmed, then the lower record height among confirmed, the later sighting among unconfirmed |
| Changes.ShouldReplaceAsymmetric | NBitcoin.Indexer/BalanceSheet.cs:157-181 | two records never replace each other both ways, and a record never replaces itself |
| Changes.ShouldReplaceTransitive | NBitcoin.Indexer/BalanceSheet.cs:157-181 | the replace rule is transitive, and a record that replaces `b` also replaces every record that does not replace `b` |
| Changes.Lookup | NBitcoin.Indexer/BalanceSheet.cs:42 | `TryGetValue` finds the record holding the id when there is one and reports absence otherwise |
| Changes.PermutationKeepsDistinct | NBitcoin.Indexer/BalanceSheet.cs:144-152 | reordering the dictionary's values keeps one record per id |
| Ingestion.IngestPrunable | NBitcoin.Indexer/BalanceSheet.cs:28-40 | the records sent to `Prunable` by the first loop are exactly the records with an unknown block, in input order |
| Ingestion.IngestDistinct | NBitcoin.Indexer/BalanceSheet.cs:42-58 | the dedup leaves at most one record per transaction id |
| Ingestion.IngestCovers | NBitcoin.Indexer/BalanceSheet.cs:28-58 | the ids kept are exactly the ids of the input records whose block resolves, and every kept record is such an input record |
| Ingestion.IngestConservation | NBitcoin.Indexer/BalanceSheet.cs:42-58 | kept records plus dedup losers are, as a multiset, the records whose block resolves: nothing is lost or invented |
| Ingestion.IngestPicksFirstBest | NBitcoin.Indexer/BalanceSheet.cs:42-58 | each kept record is the one the replace rule selects for its id: nothing with its id beats it, and it beats every earlier record with its id, so on ties the first one seen stays |
| Ingestion.IngestKeepsFirstBest | NBitcoin.Indexer/BalanceSheet.cs:42-58 | conversely, the record the replace rule selects for an id is the one kept |
| Ingestion.FirstBestUnique | NBitcoin.Indexer/BalanceSheet.cs:42-58 | the replace rule selects at most one record per id |
| Claims.ClaimOutpoints | NBitcoin.Indexer/BalanceSheet.cs:66-69 | claiming one record's outpoints succeeds exactly when it lists none twice and none is claimed yet, and then maps each of them to the record |
| Claims.ClaimAll | NBitcoin.Indexer/BalanceSheet.cs:62-77 | the claim loop over the confirmed records succeeds exactly when no outpoint occurs twice among their spends, and then every spent outpoint maps to the record spending it |
| Claims.SpendsOfSource | NBitcoin.Indexer/BalanceSheet.cs:64-66 | every claimed outpoint comes from some confirmed record |
| Claims.DropIncoherentKeepsConfirmed | NBitcoin.Indexer/BalanceSheet.cs:70-82 | the incoherence fix-up keeps every confirmed record, removes only unconfirmed ones, and keeps ids distinct |
| Claims.DropIncoherentExactly | NBitcoin.Indexer/BalanceSheet.cs:64-82 | an unconfirmed record is removed as incoherent exactly when some confirmed record spends one of its outputs |
| Conflicts.VisitOutpoints | NBitcoin.Indexer/BalanceSheet.cs:88-132 | one record's outpoints: the conflict set only grows, and only with unconfirmed ids; the loser lists only grow, and only with unconfirmed records; any failure is a duplicate claim (who wins and where the loser goes: `Verdicts.VisitJustified`) |
| Conflicts.ScanPass | NBitcoin.Indexer/BalanceSheet.cs:85-134 | one pass over the unconfirmed records marks only unconfirmed ids as conflicts, and every record whose id is marked is filed as a loser (why it was marked: `Verdicts.ScanPassJustified`) |
| Conflicts.RemoveConflicts | NBitcoin.Indexer/BalanceSheet.cs:84-141 | the repeated pass ends; survivors have distinct ids and come from its input; confirmed records survive; every input record survives or is filed in `ReplacedTransactions` or in the ignored list; both lists grow only with unconfirmed records (why a record leaves: `Verdicts.RemoveConflictsJustified`) |
| Conflicts.PassShrinks | NBitcoin.Indexer/BalanceSheet.cs:136-141 | a pass that found a conflict strictly shrinks the dictionary, so the `goto` repeats a bounded number of times |
| Survival.VisitSpares | NBitcoin.Indexer/BalanceSheet.cs:88-132 | visiting any record's outpoints never marks an isolated record as a conflict, and leaves it holding exactly the claims on its own outpoints |
| Survival.RemoveConflictsKeeps | NBitcoin.Indexer/BalanceSheet.cs:84-141 | an unconfirmed record that shares no outpoint with a record of another id survives conflict removal when no starting claim is on its outpoints or names it |
| Verdicts.ReplaceJustified | NBitcoin.Indexer/BalanceSheet.cs:100-114 | when the visited record beats the claimant of an outpoint, the claimant is marked and filed in `ReplacedTransactions`, having lost on that outpoint to an unconfirmed record of another id, and every claim still names a record that spends its outpoint |
| Verdicts.LoseJustified | NBitcoin.Indexer/BalanceSheet.cs:115-126 | when the visited record does not beat the claimant, the visited record is marked and filed in `ReplacedTransactions` if the claimant is unconfirmed and in the ignored list if it is confirmed, having lost to it on a shared outpoint |
| Verdicts.VisitJustified | NBitcoin.Indexer/BalanceSheet.cs:88-132 | over one record's visit, every record newly marked lost a clash over a shared outpoint to a record of another id that it does not beat; every record newly filed in `ReplacedTransactions` lost so to an unconfirmed record, every record newly filed in the ignored list to a confirmed one |
| Verdicts.ScanPassJustified | NBitcoin.Indexer/BalanceSheet.cs:85-134 | the same for one whole pass: every marked record lost such a clash, and the records the pass files went to the list the record they lost to selects |
| Verdicts.RemoveConflictsJustified | NBitcoin.Indexer/BalanceSheet.cs:84-141 | a record leaves conflict removal only after losing such a clash, and every record the loop adds to `ReplacedTransactions` lost to an unconfirmed record, every record it adds to the ignored list to a confirmed one |
| Rivals.VisitAvoids | NBitcoin.Indexer/BalanceSheet.cs:88-132 | a visit none of whose outpoints lies in a given set of outpoints leaves the claims on that set unchanged, and marks no record whose claims all lie in that set |
| Rivals.VisitFresh | NBitcoin.Indexer/BalanceSheet.cs:128-131 | a visit that finds none of its outpoints claimed claims every one of them and marks and files nothing |
| Rivals.VisitLoses | NBitcoin.Indexer/BalanceSheet.cs:115-126 | a visit whose claimed outpoints all belong to records the visited record does not beat, with at least one such claim, marks the visited record and files it in the list the claimants' kind selects |
| Rivals.VisitReplaces | NBitcoin.Indexer/BalanceSheet.cs:95-114 | a visit whose claimed outpoints are all held by one unconfirmed record that the visited record beats, with at least one such claim, marks that record and files it in `ReplacedTransactions` |
| Rivals.PairPass | NBitcoin.Indexer/BalanceSheet.cs:86-134 | a pass that visits both of two unconfirmed rivals with a shared outpoint, whose outpoints no one else touches, marks the lower-ranked rival and files it in `ReplacedTransactions`, whichever rival comes first |
| Rivals.FirstPassMarks | NBitcoin.Indexer/BalanceSheet.cs:85-134 | the first pass, started from claims that touch neither rival, marks the lower-ranked rival and files it in `ReplacedTransactions` |
| Rivals.RivalReplaced | NBitcoin.Indexer/BalanceSheet.cs:84-141 | conflict removal removes the lower-ranked rival and leaves it in `ReplacedTransactions` |
| Rivals.VisitSparesRival | NBitcoin.Indexer/BalanceSheet.cs:88-132 | no visit marks the higher-ranked rival: a claim on one of its outpoints is never taken over by a record it outranks, and it never meets a claimant it does not beat |
| Rivals.RivalKept | NBitcoin.Indexer/BalanceSheet.cs:84-141 | the higher-ranked rival survives every pass of conflict removal |
| Rivals.RivalsSettled | NBitcoin.Indexer/BalanceSheet.cs:84-141 | conflict removal settles an isolated pair of rivals by the replace rule: the higher-ranked one stays, the other leaves and is in `ReplacedTransactions` |
| Rivals.LoserPass | NBitcoin.Indexer/BalanceSheet.cs:86-134 | a pass over an unconfirmed record whose outpoints only confirmed records share, and at least one of which a confirmed record claims, marks it and files it in the ignored list |
| Rivals.ConfirmedLoser | NBitcoin.Indexer/BalanceSheet.cs:84-141 | conflict removal removes such a record and leaves it in the ignored list |
| FixedPoint.FirstPass | NBitcoin.Indexer/BalanceSheet.cs:84-134 | when no record lists an outpoint twice, the first pass cannot fail, and after it every record not marked holds the claim on each outpoint it spends |
| FixedPoint.QuietPass | NBitcoin.Indexer/BalanceSheet.cs:84-141 | a pass over records that already hold all their claims finds no conflict and changes nothing |
| FixedPoint.SettleHoldsClaims | NBitcoin.Indexer/BalanceSheet.cs:84-141 | when no record lists an outpoint twice, conflict removal cannot fail, and the survivors hold the claims on all the outpoints they spend |
| FixedPoint.ClaimsExcludeDoubleSpends | NBitcoin.Indexer/BalanceSheet.cs:84-141 | records with distinct ids that all hold their claims never spend a common outpoint |
| TopoSort.TopologicalSort | NBitcoin.Indexer/BalanceSheet.cs:144 | a successful sort is a permutation of the survivors in which every spent parent comes before its spender |
| TopoSort.SortFailsOnlyOnCycle | NBitcoin.Indexer/BalanceSheet.cs:144 | the sort fails only when no permutation of its input puts parents first |
| TopoSort.ReverseSpendersFirst | NBitcoin.Indexer/BalanceSheet.cs:151-152 | reversing a parents-first order puts every spender before the records it spends from |
| Sheets.Reconcile | NBitcoin.Indexer/BalanceSheet.cs:25-141 | the stages up to conflict removal: survivors have distinct ids and are input records whose block resolves; failures are duplicate claims |
| Sheets.BalanceSheet | NBitcoin.Indexer/BalanceSheet.cs:19-155 | a null chain fails, and it is the only cause of that error; `All` is a permutation of the survivors with spenders first; `Confirmed` and `Unconfirmed` are the order-preserving filters of `All`; once conflict removal succeeded, the constructor fails exactly when no parents-first order of the survivors exists |
| Sheets.SheetDistinct | NBitcoin.Indexer/BalanceSheet.cs:42-151 | `All` holds one record per transaction id |
| Sheets.SheetPrunesUnresolved | NBitcoin.Indexer/BalanceSheet.cs:28-149 | `All` holds only input records whose block resolves; `Prunable` begins with the unresolved records, in input order, followed by the dedup losers (the conflict losers after them: `Sheets.SheetLosersJustified`, `Sheets.SheetIgnoresOutranked`) |
| Sheets.SheetReplacedUnconfirmed | NBitcoin.Indexer/BalanceSheet.cs:100-126 | `ReplacedTransactions` holds only unconfirmed input records (which ones: `Sheets.SheetLosersJustified`, `Sheets.SheetSettlesRivals`) |
| Sheets.SheetKeepsConfirmedWinners | NBitcoin.Indexer/BalanceSheet.cs:42-151 | every confirmed record the replace rule selects for its id reaches `All` |
| Sheets.SheetKeepsIsolated | NBitcoin.Indexer/BalanceSheet.cs:19-155 | an unconfirmed record the replace rule selects for its id reaches `All` and `Unconfirmed` when no record of another id spends any of its outpoints and no confirmed record spends from it |
| Sheets.ClaimsBacked | NBitcoin.Indexer/BalanceSheet.cs:62-77 | every confirmed claim names a record that spends the claimed outpoint |
| Sheets.SheetLosersJustified | NBitcoin.Indexer/BalanceSheet.cs:84-149 | every record in `ReplacedTransactions` shares an outpoint with an unconfirmed input record of another id that it does not beat; every conflict loser appended to `Prunable` shares one with such a confirmed record; a record the replace rule selects for its id, that no confirmed record spends from, is missing from `All` only after losing such a clash |
| Sheets.SheetSettlesRivals | NBitcoin.Indexer/BalanceSheet.cs:19-155 | of two unconfirmed records the replace rule selects for their ids that spend a common outpoint, that no record of a third id touches and that no confirmed record spends from, the higher-ranked one is in `All` and `Unconfirmed`, and the other is in `ReplacedTransactions` and not in `All`, in either input order |
| Sheets.SheetIgnoresOutranked | NBitcoin.Indexer/BalanceSheet.cs:19-155 | an unconfirmed record the replace rule selects, whose outpoints only confirmed records of other ids share, one of them selected for its id, and that no confirmed record spends from, is in `Prunable` and in neither `ReplacedTransactions` nor `All` |
| Sheets.SheetAccountsForEveryChange | NBitcoin.Indexer/BalanceSheet.cs:28-155 | every input record is in `All`, `Prunable` or `ReplacedTransactions`, or is an unconfirmed record dropped because a confirmed record of `All` spends from it |
| Sheets.SheetDropsIncoherent | NBitcoin.Indexer/BalanceSheet.cs:70-82 | records with incoherent ids appear neither in `All`, nor in `ReplacedTransactions`, nor among the conflict losers appended to `Prunable` |
| Sheets.SheetConflictFree | NBitcoin.Indexer/BalanceSheet.cs:84-155 | when no record lists an outpoint twice, no two records of `All` spend the same outpoint |
| Sheets.ReconcileHoldsClaims | NBitcoin.Indexer/BalanceSheet.cs:62-141 | when no record lists an outpoint twice, the claim at line 130 never throws once the confirmed claims are in, and every survivor then holds the claim on each outpoint it spends |
| Sheets.SheetRejectsConfirmedDoubleSpend | NBitcoin.Indexer/BalanceSheet.cs:62-69 | confirmed dedup winners that spend one outpoint twice make the constructor throw at the claim |
| Sheets.SheetFailures | NBitcoin.Indexer/BalanceSheet.cs:19-144 | when no record lists an outpoint twice, the constructor fails only for a null chain, for a double spend among confirmed records, or for survivors that admit no parents-first order |
| Grouping.GroupByGroups | NBitcoin.Indexer/IndexTasks/IndexTableEntitiesTask.cs:55-56 | `GroupBy` yields one non-empty group per partition key, and each group is that key's entities in input order, so nothing is lost |
| Grouping.Chunks | NBitcoin.Indexer/IndexTasks/IndexTableEntitiesTask.cs:57-58 | `Partition(n)` cuts a group into consecutive chunks whose concatenation is the group; each chunk has 1 to n entities, and every chunk but the last has exactly n |
| Grouping.ChunkCount | NBitcoin.Indexer/IndexTasks/IndexTableEntitiesTask.cs:57-90 | a group yields its size divided by `PartitionSize`, rounded up, batches |
| Grouping.TasksCoverEntities | NBitcoin.Indexer/IndexTasks/IndexTableEntitiesTask.cs:53-90 | every entity is in exactly one task; each task has 1 to 100 entities, all carrying the task's partition key |
| StorageErrors.ClassifyStorageOnly | NBitcoin.Indexer/IndexTasks/IndexTableEntitiesTask.cs:175-213 | the 413 test and the error-code test hold only for storage exceptions with request information; the code test needs extended information and matches at most one code |
| StorageErrors.LeadingDigits | NBitcoin.Indexer/IndexTasks/IndexTableEntitiesTask.cs:191 | the match of `[0-9]*` is the longest run of digits at the start of the message, and it always succeeds |
| StorageErrors.ParseInt32 | NBitcoin.Indexer/IndexTasks/IndexTableEntitiesTask.cs:193 | `int.Parse` succeeds exactly on a non-empty run whose value is at most `int.MaxValue`; otherwise it gives a format or overflow error |
| StorageErrors.GetFaultyOperation | NBitcoin.Indexer/IndexTasks/IndexTableEntitiesTask.cs:183-196 | with no extended information the lookup returns null; with it, the lookup returns an operation of the batch or throws, never null |
| StorageErrors.DecimalValue | NBitcoin.Indexer/IndexTasks/IndexTableEntitiesTask.cs:193 | parsing the decimal spelling of a number gives the number back |
| StorageErrors.FaultyOperationByIndex | NBitcoin.Indexer/IndexTasks/IndexTableEntitiesTask.cs:183-196 | a message `k` followed by a non-digit names operation `k` when the batch has one; otherwise the lookup fails out of range, or with overflow above `int.MaxValue`; a message starting with a non-digit fails to parse |
| IndexCore.Split | NBitcoin.Indexer/IndexTasks/IndexTableEntitiesTask.cs:143-145 | the two halves are the first `Count / 2` operations and the remaining `Count - Count / 2`, and together they are the batch |
| IndexCore.Remove | NBitcoin.Indexer/IndexTasks/IndexTableEntitiesTask.cs:152 | `List.Remove` takes out one occurrence of a present operation and leaves the batch unchanged otherwise |
| IndexCore.RemoveFirst | NBitcoin.Indexer/IndexTasks/IndexTableEntitiesTask.cs:152 | the occurrence taken out is the first one, and the other operations keep their order |
| IndexCore.CallFor | NBitcoin.Indexer/IndexTasks/IndexTableEntitiesTask.cs:130-136 | a batch of two or more goes through `ExecuteBatch`, a single operation through `Execute` |
| IndexCore.Step | NBitcoin.Indexer/IndexTasks/IndexTableEntitiesTask.cs:123-161 | one iteration uses at most one reply and makes a call exactly when it uses one; an iteration that uses no reply shortens the queue; the counter rises by exactly the number of operations committed |
| IndexCore.StepOutcomes | NBitcoin.Indexer/IndexTasks/IndexTableEntitiesTask.cs:123-161 | per reply to the head batch, with every other field unchanged: an empty batch is just dequeued; `Completed` commits the batch and raises the counter by its size; 413 queues the two halves; `EntityTooLarge` with a named operation queues the batch without it and drops it, with no operation named queues the batch again, and with a failed lookup stops with the batch pending; any other error queues the batch again and stops with that error rethrown; with no reply left the loop stops with the batch pending |
| IndexCore.StepKeepsAccepted | NBitcoin.Indexer/IndexTasks/IndexTableEntitiesTask.cs:128-135 | the committed operations are always those of the calls answered `Completed`, in call order |
| IndexCore.StepNeverRetries | NBitcoin.Indexer/IndexTasks/IndexTableEntitiesTask.cs:148-152 | an operation already dropped is in no call an iteration makes, so a dropped operation is never sent again |
| IndexCore.StepAccounts | NBitcoin.Indexer/IndexTasks/IndexTableEntitiesTask.cs:123-161 | each iteration keeps every operation of the initial batch exactly once among the committed, dropped, pending and queued operations |
| IndexCore.StepRethrows | NBitcoin.Indexer/IndexTasks/IndexTableEntitiesTask.cs:139-160 | the loop stops on a rethrow only for errors other than 413 and `EntityTooLarge`, and every `ExecuteBatch` call carries at least two operations |
| IndexCore.StepKeepsCause | NBitcoin.Indexer/IndexTasks/IndexTableEntitiesTask.cs:137-160 | a stop is traced to its reply: running out means every reply was used; a rethrown error is the last reply; a failed lookup follows an `EntityTooLarge` reply whose faulty-operation lookup on the last call's operations failed with that fault |
| IndexCore.IndexCore | NBitcoin.Indexer/IndexTasks/IndexTableEntitiesTask.cs:102-163 | committed, dropped and pending operations together are the initial batch; committed are exactly the operations of the calls answered `Completed`, in call order, and the counter rises by exactly their number, so by at most `items.Count`; a dropped operation is neither committed nor pending; the loop finishes exactly when nothing is pending; a rethrown error is the last reply and is neither 413 nor `EntityTooLarge`; a failed lookup is traced to the last call's `EntityTooLarge` reply; running out of replies means all were used |
| IndexCore.SingleOp413Repeats | NBitcoin.Indexer/IndexTasks/IndexTableEntitiesTask.cs:141-147 | a one-operation batch answered by 413 becomes an empty batch and itself, so two iterations later the queue is unchanged with one reply spent |
| IndexCore.IndexAll | NBitcoin.Indexer/IndexTasks/IndexTableEntitiesTask.cs:53-66 | over all tasks, the entities counted plus those dropped never exceed the input, and equal it when every task finishes |

## Left out

- `NBitcoin.Indexer.Console/Program.cs`: it parses the command line and calls the indexer, which is I/O glue.
- Azure Table SDK details (`CloudTable`, `TableRequestOptions`, timeouts, `CreateIfNotExistsAsync`, `EnsureSetup`). Each backend call is reduced to an oracle reply, and an exception to the fields the indexer reads.
- Concurrency in `IndexAsync` and `Index`: parallel task start, `Task.WhenAll`, `AggregateException` unwrapping. `IndexAll` runs the tasks one after another. The tasks share only the counter, and addition does not depend on order.
- IndexCore.IndexCore: `Interlocked.Add` adds to `_IndexedEntities` (line 76), a 32-bit instance field summed over every `IndexCore` call of the task. The model counts one call's increment from 0, so a wrap-around of that shared counter once more than `int.MaxValue` entities were written in total is not modelled.
- `GetEntity` (reflection) and `IndexerTrace` logging: they only produce diagnostics.
- `Stopwatch` timing: nothing depends on it.
- `ProcessBlock`: it only throws `NotSupportedException`.
- The `TopologicalSort` and `Partition` extension methods are not part of this model. They are replaced by own definitions: a sort that repeatedly takes the first record spending from no other remaining record, and consecutive chunks of 100. The sort's failure on a cycle is `CircularDependency`.
- `ChainBase` internals: the chain is a map from block hash to height.
- The balance payload of each record is left out, because no step reads it. The `uint256` hashes and `DateTime` timestamps are integers: hashes are compared only for equality (lines 70 and 90-93) and timestamps only for order (line 163), both of which integers preserve.
- A null `changes` sequence: the `foreach` at `BalanceSheet.cs` line 28 would throw `NullReferenceException`, and a Dafny sequence cannot be null.
- IndexCore.IndexCore: the loop ends when the oracle's replies run out (`OutOfReplies`). The source's loop would keep going, for instance on repeated 413 replies to a single operation, so termination is not claimed.
- Sheets.SheetConflictFree and Sheets.SheetFailures: both assume no record lists the same outpoint twice. With such a duplicate, the `goto nextTransaction` at line 94 skips the rest of that record's outpoints, so surviving records may double-spend. Bitcoin consensus forbids duplicate inputs.
- Sheets.SheetSettlesRivals and Sheets.SheetIgnoresOutranked: both assume the records they name list no outpoint twice, for the same reason (line 94). They also cover only an isolated pair, or a record that only confirmed records contest. In a chain of clashes the outcome depends on the dictionary's enumeration order, which the model keeps but does not characterise.
