# Mempool Atlas, verified

A Dafny model of the parts of Mempool Atlas that decide what readers are told
about a node's mempool, with proofs. `dafny verify dfyconfig.toml` checks it.

## What is modelled

A source polls its node for mempool membership. Every complete snapshot becomes a
*generation* of the classification pipeline. Slice by slice, the pipeline fetches raw
transactions, resolves the scripts they spend in bounded and fair waves of RPC
requests, classifies what is complete and publishes each batch of records as the
next *revision* of its generation. A publisher encodes the current state under
optimistic locking, and web clients compare two sources.

| file | covers |
|---|---|
| `Base.dfy` | identifiers, transactions, RPC outcomes, size estimates, sums over maps |
| `ConfirmedCache.dfy` | the weighted LRU cache of confirmed scripts and its recency-list specification |
| `RoundRobin.dfy` | cyclic selection, shared by fact cursors and the source driver |
| `FactTable.dfy`, `SliceSteps.dfy` | the per-outpoint state machine and the value-level laws of waves, pressure and progress |
| `PickLog.dfy` | the history of a slice's fact waves and the fairness of each candidate's cursor |
| `Accounts.dfy` | what becomes of the transactions a slice was opened with, and how facts come to be exhausted |
| `PendingSlice.dfy` | the pending slice as an object updated in place, with its representation invariant |
| `Generation.dfy`, `ClassificationPipeline.dfy` | work tables, installation with carry-over, slices that may be superseded at every lock or await point, draining |
| `ConcurrentFetch.dfy` | the lanes-and-batches loop behind each wave, and what waves may rely on |
| `Etags.dfy`, `Publisher.dfy` | entity tags as text, the publisher's four optimistic publications under every interleaving |
| `Runtime.dfy` | one source's membership task and driver over pipeline and publisher: the readers' map refines the pipeline's table |
| `Driver.dfy` | the driver loop over sources: no lost wakeup, service within one round |
| `Lenses.dfy`, `Records.dfy` | classifier lenses, record producer, validator, materialized snapshots |
| `Assessments.dfy`, `Comparison.dfy`, `PolicyView.dfy` | policy assessments, the merge join of two snapshots, the memoised policy view |
| `Arc4.dfy` | the ARC4 cipher over a state array |

## How it is modelled

- RPC answers and membership installs are parameters. A slice takes an environment
  that answers each wave and says which snapshots are installed at each of its lock
  and await points; every theorem holds for all environments, under the stated
  honesty or calmness. `ConcurrentFetch.dfy` shows that the fetch loop provides the
  completeness that honesty asks for.
- The policy evaluator is a function of a transaction and its previous outputs. The
  pipeline's records keep that input, and soundness is stated about it: a script is
  the true one, and an absent one had an explicit null while its transaction was
  outside the membership. `Records.dfy` takes evaluator output with the promised
  shape and builds the published record.
- The publisher is driven by schedules. A flight is a publication together with the
  states it has read; a schedule interleaves any number of flights with poll starts
  and failing preparations. `Later` says how the state may differ between two
  moments, so revisions identify what they cover.
- The work gate of the runtime is kept: installs do not fall inside a slice there.
  The pipeline alone is proved for installs at every point of a slice, each point
  with its own installs.
- A source is wanted while the driver has it pending or active. Publishing a
  generation and announcing it to the driver are two steps, so a turn may fall in
  between. A slice that pauses can leave a fact whose last attempt was lost; no
  slice starts with one except the single turn that a late announcement gives to a
  generation that has already ended, and those that follow it.
- A candidate's cursor serves both kinds of wave. Fairness among its facts is stated
  over the turns a slice records, and `ResolveParents` says when the parent turns are
  over, but for outputs that a found parent lacks: exactly when the awaiting parents
  fit one wave that is not paused.
- A slice keeps books: every transaction it was opened with is held, has its verdict,
  was given up because it needs an exhausted fact, or was a victim of the byte limit.
  `Pipelines.SliceTraced` ties the books of one slice to what it publishes, and says
  what holds while the scripts of everything it holds fit the limit together.
- Ghost fields record what is only needed to state a property: the recency order,
  explicit nulls, selections, the turns of fact waves, the books of a slice, issued
  responses, the batches of a fetch, and the history of each generation.

## Findings

- Rule totals of the policy view count a transaction as often as it lists a rule,
  while its sample filter counts it once. They agree exactly when no transaction
  lists the rule twice (`PolicyViews.RuleFoldExact`). The loader of published
  snapshots refuses such lists (web/src/api.ts:371-380), so the view's own
  precondition is met for every snapshot it is given.
- The arms of the LRU cache for an index out of step with its entries, and the arm
  for non-terminal facts in classification, are dead.

## Model

| member | source | states |
|---|---|---|
| `ConfirmedCache.ConfirmedScriptCache.Get` | src/classification.rs:1426-1438 | a hit returns the stored script and makes the outpoint the most recent one, a miss changes nothing; also when the stamps are renumbered on the way |
| `ConfirmedCache.ConfirmedScriptCache.Insert` | src/classification.rs:1440-1485 | the recency list after an insertion in all four cases (conflict, too large, replacement, new), the returned flag, and that the shared ceiling holds afterwards |
| `ConfirmedCache.ConfirmedScriptCache.Remove` | src/classification.rs:1466-1471 | the outpoint leaves both indexes and gives back its bytes; the order of the others is unchanged |
| `ConfirmedCache.ConfirmedScriptCache.Admit` | src/classification.rs:1473-1484 | the new entry is the most recent one in both indexes and its bytes are counted |
| `ConfirmedCache.ConfirmedScriptCache.ReserveForOutputs` | src/classification.rs:1487-1489 | evicts oldest entries until the given output bytes and the cache fit the ceiling together |
| `ConfirmedCache.ConfirmedScriptCache.ShrinkTo` | src/classification.rs:1491-1510 | evicts exactly the specified prefix; the two arms for an index out of step with the entries are dead |
| `ConfirmedCache.ConfirmedScriptCache.AllocateStamp` | src/classification.rs:1512-1532 | a stamp above all others; at the largest u64 the entries are renumbered and their order is preserved exactly |
| `ConfirmedCache.ConfirmedScriptCache.Renumber` | src/classification.rs:1514-1528 | the index holds the same outpoints in the same order under stamps 0, 1, 2, ... |
| `ConfirmedCache.ConfirmedScriptCache.ListByStamp` | src/classification.rs:1514-1518 | walking the index in stamp order lists the recency order |
| `ConfirmedCache.ConfirmedScriptCache.constructor` | src/classification.rs:1416-1424 | an empty cache with the given ceiling |
| `ConfirmedCache.EvictMinimalPrefix` | src/classification.rs:1491-1510 | eviction removes a prefix of the oldest entries, what is left fits, and giving back the youngest victim would not fit |
| `ConfirmedCache.InsertOutcome` | src/classification.rs:1440-1485 | for every insertion: a conflicting script is purged and not replaced, an admitted script is most recent and fits the available room, other survivors keep their scripts |
| `ConfirmedCache.TouchOutcome` | src/classification.rs:1426-1438 | a lookup keeps scripts and bytes, moves the outpoint to the end and keeps the relative order of the rest |
| `ConfirmedCache.InsertGains` | src/classification.rs:1440-1485 | an insertion can add only the given outpoint with the given script |
| `ConfirmedCache.EvictTwice` | src/classification.rs:1487-1510 | making room twice evicts what making room once for the larger reservation evicts |
| `RoundRobin.ServedWithinOneRound` | src/classification.rs:2314-2337 | over turns that follow one cursor, a continuously eligible index is served before the cursor has gone round once |
| `RoundRobin.ReachedBetween` | src/classification.rs:2314-2337 | between two turns that serve the same index the cursor comes to every other index |
| `RoundRobin.ServedWhenReached` | src/classification.rs:2314-2337 | a turn serves an index exactly when it comes to it and finds it eligible |
| `PickLogs.NoRepeatBeforeOthers` | src/classification.rs:2314-2337 | over the recorded turns of a candidate: no fact is taken again before every other one that was eligible at each turn in between |
| `PickLogs.ParentTurnsOver` | src/classification.rs:1776-1839 | from a turn on at which none of a candidate's facts awaits a parent, all its turns are those of confirmed waves |
| `PickLogs.OpenFactFirst` | src/classification.rs:1841-1891 | from such a turn on, no fact is taken again before every other one that gettxout could be asked for at each confirmed turn |
| `PickLogs.TakenWithinRound` | src/classification.rs:2314-2337 | a fact that stays eligible is taken within as many recorded turns of its candidate as the candidate has facts |
| `RoundRobin.NoRepeatBeforeOthers` | src/classification.rs:2314-2337 | over turns that follow one cursor, an index is not served again before every other continuously eligible index |
| `Pending.PendingSlice.constructor` | src/classification.rs:1592-1623 | a slice over fetched transactions satisfies the whole representation invariant: each of them is held, with every fact in its initial source, and nothing has left |
| `Pending.PendingSlice.StoreScript` | src/classification.rs:2262-2291 | a script is stored for a waiting fact exactly when it fits the byte limit; a ready fact counts as stored; anything else is refused |
| `Pending.PendingSlice.MarkCapacityBlocked` | src/classification.rs:2040-2054 | a waiting fact becomes blocked and remembers its source; other facts are untouched |
| `Pending.PendingSlice.StoreOrBlock` | src/classification.rs:1723-1729 | a known script makes its fact ready, or blocked when it does not fit |
| `Pending.PendingSlice.DeferFact` | src/classification.rs:2033-2038 | the fact is deferred in both places that record it |
| `Pending.PendingSlice.DeferIfAttemptsExhausted` | src/classification.rs:2023-2031 | a fact is deferred exactly when it awaits an answer with no attempt left |
| `Pending.PendingSlice.HydrateFromCaches` | src/classification.rs:1688-1733 | every fact whose script the caches know is delivered or blocked by the byte limit, and no other fact changes; cached scripts survive |
| `Pending.PendingSlice.HydrateFromTransient` | src/classification.rs:1735-1774 | the same for blocked facts and the scripts fetched in this call |
| `Pending.PendingSlice.ActivateWaiting` | src/classification.rs:1633-1686 | candidates enter in queue order while the fact window allows; a lone candidate always enters; the rest would exceed the window |
| `Pending.PendingSlice.NextParentWave` | src/classification.rs:1776-1839 | distinct eligible parents of the membership within both wave limits, one attempt recorded for all their facts; all of them exactly when together they fit one wave; a wave that is not full leaves a candidate's parents only when one of them is too large beside the selected ones; the recorded turns are those of the selected parents and of the ones turned down |
| `Pending.PendingSlice.OfferParent` | src/classification.rs:1791-1834 | a visited candidate's parent joins the wave exactly when it is the first or its response fits beside the others'; otherwise nothing is selected |
| `Pending.PendingSlice.NextConfirmedWave` | src/classification.rs:1841-1891 | distinct eligible facts, one attempt each, up to the wave size or until none is left; fair rounds; the rotation resumes behind the last owner; one recorded turn for each selection, over exactly the facts still open |
| `Pending.PendingSlice.ConfirmedRound` | src/classification.rs:1852-1890 | in a round each visited candidate with an unselected eligible fact gets exactly one |
| `Pending.PendingSlice.VisitNext` | src/classification.rs:1857-1877 | a turn of the rotation moves the front candidate to the back and yields the first eligible fact in cyclic order from its cursor, which moves just behind it; the turn is recorded, and nothing changes without an eligible fact |
| `Pending.PendingSlice.PicksFair` | src/classification.rs:1776-1891 | in every valid slice, whatever waves it has been through: no fact of a candidate is taken again before every other one eligible at each turn in between; and once none of its facts awaited a parent, before every other one open to gettxout |
| `Pending.PendingSlice.RecordParentAttempt` | src/classification.rs:2010-2021 | an attempt is recorded for exactly the facts awaiting that parent |
| `Pending.PendingSlice.ApplyParentTransaction` | src/classification.rs:1893-1933 | each fact awaiting the parent becomes ready or blocked when the output exists, and is otherwise deferred exactly when its attempts are spent |
| `Pending.PendingSlice.ApplyParentAnswers` | src/classification.rs:459-486 | found parents are applied; unless fact waves are paused, unresolved ones turn to gettxout; a spent attempt is left exactly when the wave is paused and some fact's last attempt was recorded for a parent that was not found |
| `Pending.PendingSlice.FallBackParentsToGettxout` | src/classification.rs:1935-1952 | exactly the facts still awaiting those parents start over as fallback requests |
| `Pending.PendingSlice.ApplyConfirmedValue` | src/classification.rs:1954-2002 | the transition of one fact for each kind of gettxout answer; an absence is recorded only for an explicit null of a confirmed source |
| `Pending.PendingSlice.ApplyConfirmedValues` | src/classification.rs:515-524 | all answers of a wave are applied, the positive scripts are handed on, and if they fit together every one becomes ready; what it defers is deferred in both records |
| `Pending.PendingSlice.DeferOneCapacityBlockedFact` | src/classification.rs:2060-2075 | the first awaiting fact in rotation order becomes blocked, exactly when one awaits |
| `Pending.PendingSlice.DeferExhaustedCandidates` | src/classification.rs:2080-2108 | removes exactly the candidates that need a deferred fact, writes them down as given up, and drops the facts nobody needs any more |
| `Pending.PendingSlice.RemoveCandidates` | src/classification.rs:2293-2311 | facts without a remaining reference disappear, the rotation keeps its order, the bytes are recounted, and each transaction the slice was opened with stays accounted for |
| `Pending.PendingSlice.CountReferences` | src/classification.rs:2137-2147 | each outpoint's count is the number of active candidates that require it |
| `Pending.PendingSlice.SelectVictim` | src/classification.rs:2148-2177 | the victim is a blocked candidate that frees the most bytes, the first such in the rotation |
| `Pending.PendingSlice.DeferCapacityBlockedCandidate` | src/classification.rs:2136-2186 | removing the victim frees exactly the bytes predicted from the reference counts and is written down; without a victim nothing is blocked; there is none while everything the slice holds fits the limit |
| `Pending.PendingSlice.ClassifyReady` | src/classification.rs:2188-2260 | exactly the candidates with terminal facts are classified and removed, each with one record that is written down as its verdict; each record's evaluator input is sound; no other fact state can be met there |
| `Pending.PendingSlice.Evaluate` | src/classification.rs:2211-2236 | a coinbase is evaluated without previous outputs, any other transaction with one entry for each input, and it is retryable exactly when one is absent |
| `Pending.PendingSlice.GiveUpStuck` | src/classification.rs:528-533 | gives up exactly the active candidates that need an exhausted fact and keeps every other one; while any budget is left only the facts nobody needs any more go; the books say who left; when no wave can make progress, either the work measure shrinks or no fact awaits or has failed |
| `Accounts.Partition` | src/classification.rs:396-545 | each transaction held before is afterwards in exactly one place: still held, among the new records, newly given up, or newly a victim |
| `Accounts.RoomFor` | src/classification.rs:2262-2291 | while the scripts of everything held fit the byte limit together, every fact that is not ready has room beside those that are |
| `Accounts.AccountExhausted` | src/classification.rs:2080-2108 | when the candidates that need a deferred fact leave, each is written down with an exhausted fact it needs |
| `Accounts.AccountClassified` | src/classification.rs:2188-2260 | when candidates leave with their verdicts, each gets exactly one record, on a transaction that had none |
| `Accounts.ParentsLast` | src/classification.rs:459-486 | a parent wave exhausts a fact only if it had been asked for before, and leaves none to gettxout with an attempt behind it that had none |
| `Accounts.ConfirmedLast` | src/classification.rs:515-524 | a gettxout wave exhausts a fact only if it had been asked for before |
| `FactTable.SoleReference` | src/classification.rs:2162-2172 | an outpoint required by a candidate has one reference exactly when no other candidate requires it |
| `FactTable.RemoveFrees` | src/classification.rs:2162-2186 | ready bytes split into what survives a candidate's removal and what only it required |
| `FactTable.RotateOrdered` | src/classification.rs:1857-1861 | rotation keeps the queue a permutation of the active candidates |
| `FactTable.DeliveredEvolves` | src/classification.rs:1688-1733 | delivering known scripts never raises a fact's rank |
| `FactTable.ConfirmedAppliedEvolves` | src/classification.rs:1954-2002 | applying gettxout answers never raises a fact's rank |
| `FactTable.AttemptParentsProgress` | src/classification.rs:2010-2021 | an attempt on an eligible parent lowers the summed rank strictly |
| `FactTable.AttemptAllProgress` | src/classification.rs:2004-2008 | an attempt on an eligible outpoint lowers the summed rank strictly |
| `SliceSteps.VerdictSound` | src/classification.rs:2211-2236 | evaluator inputs built from sound facts are the true scripts, absent only for an explicit null outside the membership |
| `SliceSteps.NextCandidateFact` | src/classification.rs:2314-2337 | returns the first fact in cyclic order from the cursor that satisfies the condition, and leaves the cursor behind it |
| `SliceSteps.RoundFair` | src/classification.rs:1852-1890 | a candidate is two selections behind another only if it has nothing eligible left |
| `SliceSteps.WaveSizingSufficient` | src/classification.rs:53-59 | when one estimated response fits in the budget, all answers of a wave of that size fit together |
| `SliceSteps.ProbeWave` | src/classification.rs:1841-1850 | when no estimated response fits, the wave is a single probe, or empty without any budget |
| `SliceSteps.WaveSizeIs` | src/classification.rs:1842-1851 | a wave may ask for as many outpoints as the entry limit allows and estimated responses fit, and for one while any budget is left |
| `SliceSteps.FetchedKnown` | src/classification.rs:1735-1774 | a script counts as fetched in this call, and as usable for a blocked fact, exactly when the parent's output or the gettxout answer is there and, for the latter, the slice has no copy of its own |
| `FactTable.NeededBy` | src/classification.rs:1633-1642 | a coinbase needs nothing, every other transaction all the outpoints it spends |
| `SliceSteps.ConfirmedWaveProgress` | src/classification.rs:1841-1891 | a non-empty confirmed wave lowers the work measure strictly |
| `SliceSteps.ParentWaveProgress` | src/classification.rs:1776-1839 | a non-empty parent wave lowers the work measure strictly |
| `SliceSteps.ParentWaveSpent` | src/classification.rs:423-487 | after a parent wave no fact has spent its attempts, exactly if the wave met no systemic failure or every fact whose last attempt it recorded had its parent found |
| `SliceSteps.FitExactly` | src/classification.rs:1776-1839 | a wave within its limits that leaves a parent only for being full or too large asks for every parent exactly when their number and estimated bytes fit one wave |
| `SliceSteps.SettledExactly` | src/classification.rs:459-486 | after a parent wave without systemic failure the only facts awaiting a parent are outputs that a found parent lacks, exactly if the wave asked for every parent |
| `SliceSteps.QuietedTerminal` | src/classification.rs:2188-2203 | when nothing awaits, nothing failed and nothing is blocked, every candidate is terminal |
| `SliceSteps.ConfirmedWaveSpent` | src/classification.rs:489-525 | after a confirmed wave no fact has spent its attempts, exactly if every fact whose last attempt it recorded got an answer that is not a systemic failure |
| `SliceSteps.RawOutputsTrue` | src/classification.rs:1601-1611 | outputs recorded from true raw transactions are true |
| `SliceSteps.PreparedOk` | src/classification.rs:361-391 | found raw answers make a well-formed queue of distinct exact variants |
| `Generations.VariantsListed` | src/classification.rs:175-193 | the variant table lists exactly the membership's entries |
| `Generations.BoundedVariants` | src/classification.rs:2416-2437 | the longest prefix within the entry limit and the response estimate, with at least one variant admitted |
| `Generations.EligibleContents` | src/classification.rs:316-326 | the variants a slice chooses from are exactly the unattempted ones without a final classification; none is left exactly when the unstarted count is zero |
| `Generations.EligibleOrder` | src/classification.rs:316-334 | every variant that may be fetched is listed, never classified ones first, and otherwise in the order of the membership |
| `Generations.ProjectInsert` | src/runtime/publisher.rs:303-306 | updating the readers' map with a revision and updating the pipeline's table commute |
| `Generations.SelectedAtMostTwice` | src/classification.rs:335-381 | a variant whose selections are those recorded is selected at most twice |
| `Generations.InsertAllOk` | src/classification.rs:577-580 | merging records of current variants keeps the table sound |
| `Generations.Generation.SelectCandidates` | src/classification.rs:314-339 | chooses the longest prefix of the eligible variants within both limits, marks each attempted and lowers the raw budget by their number; none chosen means none unstarted |
| `Generations.Generation.AllowRawRetry` | src/classification.rs:374-381 | a retryable failure makes its variant eligible again the first time only |
| `Generations.Generation.InsertOutputs` | src/classification.rs:2387-2408 | outputs are cached exactly when they fit the ceiling in the place of an older entry, after evicting exactly as many confirmed scripts as needed; otherwise nothing changes |
| `Generations.Generation.constructor` | src/classification.rs:238-244 | a new generation has an empty table and no pending slice |
| `Pipelines.ClassificationPipeline.constructor` | src/classification.rs:124-145 | an empty pipeline with its own cache |
| `Pipelines.ClassificationPipeline.InstallSnapshot` | src/classification.rs:170-266 | the next generation's identifier, exactly the records and cached outputs that are still current carried over, the cache evicted for exactly their bytes, nothing attempted or pending, the published projection as revision zero, whether work is left; after the last identifier nothing changes |
| `Pipelines.ClassificationPipeline.Carry` | src/classification.rs:207-227 | exactly the records and outputs whose identifier and witness are still current survive |
| `Pipelines.ClassificationPipeline.InsertCarried` | src/classification.rs:228-236 | everything that survives is cached, and the confirmed scripts give way for exactly those bytes |
| `Pipelines.ClassificationPipeline.Interfere` | src/classification.rs:1110-1115 | what generations share (identifier, membership, table, outputs, cache) is exactly what installing the snapshots one by one leaves; a new generation has nothing attempted, no pending slice and revision zero |
| `Pipelines.ClassificationPipeline.StartSlice` | src/classification.rs:313-394 | the longest prefix of the eligible variants within both limits is fetched, everything found becomes the slice, exactly the first failures may be retried, and the raw budget shrinks by their number; nothing generations share is changed |
| `Pipelines.ClassificationPipeline.QueueFound` | src/classification.rs:361-391 | the slice holds exactly the found transactions with their outputs, every fact as it starts out, and there is none without any |
| `Pipelines.ClassificationPipeline.AllowRetries` | src/classification.rs:374-381 | exactly the variants that failed on their own for the first time become eligible again |
| `Pipelines.ClassificationPipeline.ResolveParents` | src/classification.rs:423-487 | one parent wave, unless paused: it is progress whatever the answers, it is empty only without capacity or eligible facts, the facts are what its answers make of them, when it leaves a spent attempt, and that it settles all parents exactly when they fit one wave; a replaced generation is noticed before anything is applied |
| `Pipelines.ClassificationPipeline.AskParents` | src/classification.rs:437-486 | the facts are exactly what the wave's answers make of them; without a systemic failure unresolved parents turn to gettxout; exactly when a spent attempt is left |
| `Pipelines.ClassificationPipeline.ResolvePrevouts` | src/classification.rs:489-525 | one fair gettxout wave, unless paused: it is progress whatever the answers, it is empty only without capacity or eligible facts, the facts are what the answers to this very wave make of them, every found script is admitted when an estimated response fits, and when it leaves a spent attempt |
| `Pipelines.ClassificationPipeline.RunWaves` | src/classification.rs:423-525 | one wave of each kind: the outputs and scripts of exactly what was found enter what is gathered, no fact still awaits a found parent's output, a fact whose script was found is ready or blocked, it pauses exactly when a wave met a systemic failure, and unless a fact had spent its attempts a wave was asked for or the waves are dry |
| `Pipelines.FoundParentGained` | src/classification.rs:461-472 | the outputs of a found parent are gathered whole, under the variant that was asked for |
| `Pipelines.CachedKnown` | src/classification.rs:1688-1733 | the caches know a waiting fact's script exactly when an output of the slice's own transactions or of a cached current variant is there for a mempool parent, or a confirmed script otherwise |
| `Pipelines.AtHandIsRecorded` | src/classification.rs:397-421 | while every script fits, a candidate whose facts are at the start terminal or known to the caches is published by the slice |
| `Pipelines.AnsweredIsRecorded` | src/classification.rs:489-527 | the same for a candidate whose facts the waves completed |
| `Pipelines.GivenUpAfterAttempts` | src/classification.rs:528-533 | a candidate is given up only for a fact it needs that was exhausted before, or had been asked for and still awaited an answer when the slice began |
| `Pipelines.FirstSliceKeeps` | src/classification.rs:340-545 | the first slice of what was fetched loses nothing: while every script fits, each found transaction is published by it or stays pending |
| `Pipelines.ClassificationPipeline.ApplyPrevouts` | src/classification.rs:515-524 | the facts are exactly what the answers make of them, the found scripts are handed on, nulls outside the membership are recorded as absences, and exactly when a spent attempt is left |
| `Pipelines.ClassificationPipeline.RecoverKnownFacts` | src/classification.rs:720-762 | each continuing pass removes a candidate; on return no candidate is terminal |
| `Pipelines.ClassificationPipeline.ResolveCapacityPressure` | src/classification.rs:770-794 | terminates; every record it makes is gathered; its normal return leaves no blocked fact whose script this call fetched, but for outputs of the slice's own transactions |
| `Pipelines.ClassificationPipeline.PressurePass` | src/classification.rs:770-794 | a pass that continues removed a candidate |
| `Pipelines.ClassificationPipeline.Settle` | src/classification.rs:527-544 | after dry waves the slice shrinks strictly; every candidate that is terminal when it begins has its record in what is gathered; on return no further candidate fits the window; a replacement changes nothing else that generations share |
| `Pipelines.ClassificationPipeline.MergeOutputs` | src/classification.rs:562-570 | every output is merged when all fit beside what is cached, nothing cached is lost, the shared ceiling holds, and confirmed scripts are evicted oldest first for no more room than the outputs need |
| `Pipelines.ClassificationPipeline.MergeScripts` | src/classification.rs:571-576 | every script is offered once beside the outputs: the cache is the fold of those insertions, and the ceiling holds |
| `Pipelines.ClassificationPipeline.MergeRecords` | src/classification.rs:577-580 | the table is the old one overridden in order, and its projection follows |
| `Pipelines.ClassificationPipeline.MergeAdvance` | src/classification.rs:562-580 | outputs, then confirmed scripts, then records: table, outputs and cache are exactly the specified merge |
| `Pipelines.ClassificationPipeline.Commit` | src/classification.rs:552-668 | when the generation was replaced, the replaced one is left as it was and the new one, its table and the cache are exactly what the installs left; otherwise table, outputs, cache, revision, pending slice and report are exactly the merge |
| `Pipelines.ClassificationPipeline.AdvanceSlice` | src/classification.rs:396-545 | unless a fact had spent its attempts, one pass over a slice lowers its measure strictly, whatever the answers are; every record made on the way is gathered, and a fact is exhausted only if it had been asked for before |
| `Pipelines.ClassificationPipeline.BeginSlice` | src/classification.rs:396-421 | what the caches know is delivered, every candidate whose facts are terminal then has its record in what is gathered, nothing else was written down, and the window is filled |
| `Pipelines.ClassificationPipeline.GatherSlice` | src/classification.rs:298-545 | everything before the merge leaves what generations share as it was but for cache lookups, or, when the generation is replaced, as the installs left it; every transaction held at the start is held at the end, recorded, given up for an exhausted fact, or a victim, and it pauses exactly when a fetch met a systemic failure |
| `Pipelines.ClassificationPipeline.RunSlice` | src/classification.rs:298-668 | a stale slice publishes nothing, and what generations share is exactly what the installs left; a merged one accounts for every transaction it held: each is still pending, among the published records, given up for an exhausted fact, or a victim; it publishes one revision exactly when it classified something, leaves table, outputs and cache exactly as merging what it gathered does, and, if no fact had spent its attempts, is complete or leaves strictly less to do, and leaves no such fact unless it paused |
| `Pipelines.ClassificationPipeline.ClassifyNext` | src/classification.rs:281-668 | only the expected current generation is advanced; a stale report means that what generations share is what the installs left, and that an unexpected generation and its slice are untouched; otherwise every candidate that was pending, or was opened from a found answer, is still pending, in the published revision, given up for an exhausted fact, or a victim, and table, outputs and cache are exactly the merge of what the slice gathered, on top of what was installed before it |
| `Pipelines.ClassificationPipeline.Drain` | src/classification.rs:276-668 | without replacement, asking again and again ends after finitely many slices, with nothing pending and nothing unstarted or with a fact whose last attempt was lost to a systemic failure; without such failures with the former |
| `Pipelines.ClassificationPipeline.CompleteMeansDone` | src/classification.rs:640-646 | a complete report says that nothing is pending or unstarted |
| `ConcurrentFetches.FetchConcurrently` | src/classification.rs:796-866 | answers are for distinct requests, one for every request unless a systemic failure was recorded or the generation replaced; the values are those of the finished batches in turn, and the fetch is systemic exactly when one of them failed; batches take the requests in order, a freed lane takes the next ones unless a batch has failed or the generation was replaced, and never more run than there are lanes |
| `ConcurrentFetches.RawFetchIsHonest` | src/classification.rs:796-866 | such a fetch of raw transactions gives a slice what it relies on |
| `ConcurrentFetches.PrevoutFetchIsHonest` | src/classification.rs:868-938 | such a fetch of previous outputs gives a slice what it relies on |
| `ConcurrentFetches.ReadBatch` | src/classification.rs:825-838 | a batch stops the fetch exactly when an answer is systemic or, of several, all are missing; in that last case every answer is replaced by a systemic failure, and otherwise each stays |
| `Etags.OpaqueInjective` | src/runtime/publisher.rs:632-648 | the tag text of one source determines observation time and response revision |
| `Etags.WeakDistinct` | src/api.rs:147-149 | weakly equal tags of one source are of the same revision |
| `Etags.ListingRoundTrip` | src/api.rs:137-145 | splitting and trimming a written list of tags gives the tags back |
| `Etags.EtagPlain` | src/model.rs:1243-1254 | tags of valid source identifiers contain no comma or surrounding blank |
| `Etags.HeaderMatches` | src/api.rs:137-145 | for lists of plain tags the header matches exactly when a listed tag is a star or weakly equal to the current one |
| `Publishing.LaterTransitive` | src/runtime/publisher.rs:28-41 | the relation between an earlier and a later state composes, so it holds across any interleaving |
| `Publishing.FlightLater` | src/runtime/publisher.rs:174-210 | what a publication in flight has read stays consistent with every later state |
| `Publishing.AssessedCounts` | src/model.rs:1202-1213 | the classified count of a published snapshot is the number of its records |
| `Publishing.FitsIsRetained` | src/model.rs:875-912 | for records as produced, fitting the membership is exactly what materialization demands |
| `Publishing.TagsDistinct` | src/runtime/publisher.rs:632-648 | no two responses of one publisher share a tag, even weakly |
| `Publishing.NotModifiedIffHeld` | src/api.rs:102-112 | a client that sends stars or tags it was given, on any number of header lines, gets not-modified exactly when it sends a star or the tag of the response cached now, whose body is the present state but for the poll time |
| `Publishing.CurrentStatePublisher.constructor` | src/runtime/publisher.rs:61-70 | the initial state is valid |
| `Publishing.CurrentStatePublisher.RecordPollStarted` | src/runtime/publisher.rs:88-92 | only the poll time and the status revision change; the cached body lags by nothing else |
| `Publishing.CurrentStatePublisher.SnapshotResponse` | src/runtime/publisher.rs:107-124 | the body says what the state is: waiting, failing, available or stale exactly by whether there is a snapshot and an error, the state's own error, observation time, counts, sizes and lifecycle, classified as many as there are records and unclassified the rest; a tag is given exactly with a snapshot and identifies that response |
| `Publishing.CurrentStatePublisher.TransactionDetail` | src/runtime/publisher.rs:525-550 | each of the four answers exactly when it applies; a detail is the record of the snapshot readers see, at its revision |
| `Publishing.CurrentStatePublisher.ReplaceCachedResponse` | src/runtime/publisher.rs:632-648 | the response revision and the tag move on together with the body |
| `Publishing.CurrentStatePublisher.BeginMembership` | src/runtime/publisher.rs:126-172 | each outcome exactly when it applies: the four errors, a generation that is not newer dropped, and a valid newer one prepared |
| `Publishing.CurrentStatePublisher.EncodeMembership` | src/runtime/publisher.rs:174-196 | a generation that is no longer newer is dropped; otherwise the response is encoded from the state read |
| `Publishing.CurrentStatePublisher.CommitMembership` | src/runtime/publisher.rs:198-239 | commits only a newer generation over an unmoved status, classifying exactly when work is left and complete otherwise, with a body that is exactly the new state; otherwise nothing changes |
| `Publishing.CurrentStatePublisher.BeginUpdate` | src/runtime/publisher.rs:242-320 | each outcome exactly when it applies: mismatch, dropped, gap, too many records, invalid, or encoded |
| `Publishing.CurrentStatePublisher.Accumulate` | src/runtime/publisher.rs:303-306 | the delta's records override the published ones in order |
| `Publishing.CurrentStatePublisher.CommitUpdate` | src/runtime/publisher.rs:321-379 | publishes the next revision on exactly the records it was computed from; drops out exactly when generation or revision moved; else encodes anew |
| `Publishing.CurrentStatePublisher.EncodeLifecycle` | src/runtime/publisher.rs:382-425 | dropped exactly for another generation, done exactly when the lifecycle is already there |
| `Publishing.CurrentStatePublisher.CommitLifecycle` | src/runtime/publisher.rs:427-459 | changes the lifecycle only, with a body that is exactly the new state |
| `Publishing.CurrentStatePublisher.EncodeFailure` | src/runtime/publisher.rs:462-492 | the response is encoded from the state read |
| `Publishing.CurrentStatePublisher.CommitFailure` | src/runtime/publisher.rs:494-522 | changes the failure only, with a body that is exactly the new state, or tries again because something moved |
| `Publishing.CurrentStatePublisher.AdvanceFlight` | src/runtime/publisher.rs:126-523 | one section of any publication keeps all invariants; a publication whose reads are still current finishes |
| `Publishing.CurrentStatePublisher.Run` | src/runtime/publisher.rs:88-523 | under every schedule of publications, poll starts and failing preparations: body current, tags distinct, generation and revisions only forward |
| `Runtimes.ProjectFits` | src/classification.rs:206-227 | what the pipeline publishes of its table belongs to its membership |
| `Runtimes.LogMore` | src/runtime/publisher.rs:348-357 | a revision extends the history and leaves its earlier revisions unchanged |
| `Runtimes.MembershipPublished` | src/runtime/publisher.rs:211-221 | publishing a generation at revision zero keeps readers on its carried map |
| `Runtimes.DeltaPublished` | src/runtime/publisher.rs:348-357 | publishing the revision in flight makes readers level with the history |
| `Runtimes.SliceLogged` | src/classification.rs:577-639 | a merged slice extends the log of the published generation by the revision in flight |
| `Runtimes.SourceRuntime.constructor` | src/runtime.rs:319-334 | a new source satisfies the system invariant |
| `Runtimes.SourceRuntime.Install` | src/runtime.rs:155-158 | a poll installs the next generation, logs it and queues its publication; earlier histories are unchanged; only the identifier overflow does nothing |
| `Runtimes.SourceRuntime.AdvanceMembership` | src/runtime.rs:181-208 | nothing is rejected; a section leaves an announcement to give exactly when it published a newer generation, whose lifecycle is classifying exactly when a variant of it is left to classify |
| `Runtimes.SourceRuntime.Announce` | src/runtime.rs:201-204 | the source becomes pending, once for each generation that was published |
| `Runtimes.SourceRuntime.CommitStart` | src/runtime.rs:184-200 | the published generation moves exactly on success, and only forward |
| `Runtimes.SourceRuntime.AdvanceFailure` | src/runtime.rs:210-214 | a failure publication leaves the generation alone |
| `Runtimes.SourceRuntime.PollStarted` | src/runtime.rs:149 | a poll start keeps the refinement |
| `Runtimes.SourceRuntime.TakeTurn` | src/runtime.rs:262-278 | a wanted source gets a turn on the published generation; a generation whose last slice did not go on gets one more turn at most, the one its own announcement asks for when it comes late |
| `Runtimes.SourceRuntime.Slice` | src/runtime.rs:279-284 | a slice that is not stale runs on the published generation, its membership and its revision, and unless that generation was reopened it is complete or leaves strictly less to do, whatever the node answers; a stale one changes no history and nothing the pipeline shares; what it adds is the next revision, its outcome becomes the publication that follows, and a generation counts as failed exactly when the slice overflowed or paused |
| `Runtimes.SourceRuntime.AdvanceTurn` | src/runtime.rs:527-555 | the lifecycle a turn publishes is classifying exactly when the turn goes on, paused exactly when it does not and the generation failed, and complete exactly otherwise, which for the current generation means no failure, nothing pending and nothing unstarted; the sequence and size errors are unreachable; after a turn that does not go on, with nothing announced since, no turn is to come |
| `Runtimes.SourceRuntime.AdvanceDelta` | src/runtime/publisher.rs:242-379 | the revision in flight is published, or dropped because its generation is no longer the published one |
| `Runtimes.SourceRuntime.AdvanceLifecycle` | src/runtime/publisher.rs:382-459 | a lifecycle publication leaves generation and revision alone |
| `Runtimes.SourceRuntime.Run` | src/runtime.rs:115-301 | every run keeps the refinement, published generations never go back, and a source that has ended with no turn to come is given none before a newer generation is published |
| `Runtimes.SourceRuntime.ReadersSee` | src/runtime/publisher.rs:335-357 | readers see the history of the published generation at the published revision, at most one behind; between turns the pipeline's own table |
| `Runtimes.SourceRuntime.ReadersTold` | src/runtime.rs:527-555 | between turns, readers of a generation whose last slice did not go on are told paused exactly when it failed and complete exactly when it did not, and of the current one only when nothing is left |
| `Drivers.NextSourceIsNext` | src/runtime.rs:262-266 | the choice is the first active source in cyclic order from the cursor and fails only when none is active |
| `Drivers.ServedWithinSources` | src/runtime.rs:262-298 | an active source is served within as many turns as there are sources, as its cyclic distance shrinks every turn |
| `Drivers.ClassificationDriver.MarkPending` | src/runtime.rs:243-251 | the source is pending before the notification is given |
| `Drivers.ClassificationDriver.Notify` | src/runtime.rs:252 | a notification leaves one stored permit |
| `Drivers.ClassificationDriver.Wake` | src/runtime.rs:257-259 | waking consumes the permit and starts over with the first source |
| `Drivers.ClassificationDriver.Take` | src/runtime.rs:303-309 | everything pending becomes active |
| `Drivers.ClassificationDriver.Choose` | src/runtime.rs:262-270 | serves the next active source, or sleeps exactly when none is active |
| `Drivers.ClassificationDriver.Serve` | src/runtime.rs:290-297 | a source stays active exactly when it continues, and the cursor moves behind it |
| `Drivers.ClassificationDriver.Run` | src/runtime.rs:243-309 | under every interleaving a pending source implies a permit, a scheduler about to notify, or a take ahead |
| `Drivers.ClassificationDriver.TakesPending` | src/runtime.rs:255-309 | once all notifications are given, pending sources are taken within four driver steps |
| `Drivers.ClassificationDriver.ServedInTurn` | src/runtime.rs:261-298 | since waking, every source found active was served within one turn per source |
| `Comparisons.CompareCurrentSnapshots` | web/src/comparison-model.ts:90-174 | regions of exactly the right transactions, strictly sorted; each entry shows both sides and whether their witness identifiers agree; counts, vsize conserved per side; skew and earlier side; an error exactly for one source |
| `Comparisons.ExactlyOneRegion` | web/src/comparison-model.ts:85-89 | each transaction of the union is in the one region its membership says |
| `Comparisons.FindComparedTransaction` | web/src/comparison-model.ts:181-201 | binary search finds the index exactly when the identifier is listed |
| `Comparisons.LookupComparisonTransaction` | web/src/comparison-model.ts:207-223 | finds a transaction exactly when it is in the union, at its only region and index |
| `Comparisons.PushCommon` | web/src/comparison-model.ts:129-136 | joining a shared transaction keeps regions, frontier and conserved totals |
| `PolicyViews.KeyInjective` | web/src/terrain.ts:257-285 | a signature key determines the violated and unknown rules |
| `PolicyViews.RuleFoldExact` | web/src/comparison-policy-view.ts:221-223 | the kept rule totals equal the direct fold exactly when no transaction lists the rule twice |
| `PolicyViews.DuplicateRuleCountsTwice` | web/src/comparison-policy-view.ts:221-223 | a list naming a rule twice makes its total count the transaction twice |
| `PolicyViews.KeptIsFold` | web/src/comparison-policy-view.ts:211-238 | for duplicate-free rule lists every kept total is the direct fold |
| `PolicyViews.FoldCounts` | web/src/comparison-policy-view.ts:211-238 | the direct fold is the number of matches and the sum of their sizes on that side |
| `PolicyViews.NothingKept` | web/src/comparison-policy-view.ts:484-492 | a count of zero means that no transaction matches and that the whole total is zero |
| `PolicyViews.SliceAccumulator.AddTransaction` | web/src/comparison-policy-view.ts:211-238 | all totals follow the transactions added so far, and the buckets together count what is violating |
| `PolicyViews.SignatureAdded` | web/src/comparison-policy-view.ts:224-238 | a violating transaction joins the bucket of its own signature |
| `PolicyViews.FinishSlice` | web/src/comparison-policy-view.ts:253-282 | buckets split into exact and partial ones whose counts add up to the violating count; signature totals are the direct folds |
| `PolicyViews.TopInserted` | web/src/comparison-policy-view.ts:377-396 | keeping the best twelve at each step loses nothing |
| `PolicyViews.AddToBoundedSample` | web/src/comparison-policy-view.ts:377-396 | the sample becomes the best twelve of itself and the entry |
| `PolicyViews.RankedOrder` | web/src/comparison-policy-view.ts:367-375 | the ranking is a sorted permutation of the entries |
| `PolicyViews.OnlyOneOrder` | web/src/comparison-policy-view.ts:367-375 | with distinct identifiers there is only one sorted permutation |
| `PolicyViews.Sample` | web/src/comparison-policy-view.ts:494-499 | one pass over a region yields the first twelve matches in sample order |
| `PolicyViews.MemoKeyInjective` | web/src/comparison-policy-view.ts:334-345 | memo keys, as text, tell region, effective side and filter apart |
| `PolicyViews.JoinedIsWellSided` | web/src/comparison-policy-view.ts:240-251 | comparisons made by the merge join have the entries a view requires |
| `PolicyViews.ComparisonPolicyView.constructor` | web/src/comparison-policy-view.ts:403-446 | every region and side has its finished slice |
| `PolicyViews.ComparisonPolicyView.PopulationFor` | web/src/comparison-policy-view.ts:459-503 | in any call order: for duplicate-free rule lists the count is the number of matches and the vsize their sum; the sample is the twelve largest matches, equal sizes by increasing identifier, and what is left out is no larger and comes later; the matches are exactly the entries the filter asks for; remembered results never change |
| `Arc4.Apply` | src/classifiers/arc4.rs:11-39 | each output byte is the data byte combined with the keystream byte of its position; an empty key changes nothing |
| `Arc4.SetUp` | src/classifiers/arc4.rs:15-25 | the in-place key setup computes the specified state |
| `Arc4.KeySetup` | src/classifiers/arc4.rs:15-25 | after every swap of the key setup the state is a permutation |
| `Arc4.Generate` | src/classifiers/arc4.rs:28-35 | after every output byte the state is a permutation |
| `Arc4.StateHoldsEveryByte` | src/classifiers/arc4.rs:15-33 | a state holds each of the 256 byte values |
| `Arc4.Involution` | src/classifiers/arc4.rs:9-39 | applying twice with one key gives the data back, for every key and length |
| `Arc4.XorDigits` | src/classifiers/arc4.rs:36 | each binary digit of a combined byte says whether the two digits differ |
| `Arc4.PrefixOfResult` | src/classifiers/arc4.rs:30-38 | applying to a prefix gives the prefix of the result |
| `Lenses.OrderedLabels` | src/classifiers.rs:156-162 | ordering keeps exactly the declared labels that were found, in the declared order |
| `Lenses.InOrderUnique` | src/classifiers.rs:156-162 | the labels that were found determine the ordered list, and so the primary label |
| `Lenses.PropertiesOf` | src/classifiers.rs:164-243 | reports exactly the properties that hold, in order: each script family exactly when its template matches a script on either side and no earlier one does; complete exactly when every spent script is known |
| `Lenses.ShapeOf` | src/classifiers.rs:245-333 | reports exactly the shapes that match, by their numbers, in order and the first as primary; the negative label only when complete and alone; no label only when nothing matches and facts are missing |
| `Lenses.MostRepeatedNonzeroOutput` | src/classifiers.rs:335-346 | the most repeated value above zero, the largest among equals |
| `Lenses.AllUnique` | src/classifiers.rs:348-351 | true exactly when no script occurs twice |
| `Lenses.DetectCoinjoin` | src/classifiers.rs:266-293 | the heuristic's conjunction, exactly |
| `Lenses.DataOf` | src/classifiers.rs:402-431 | exactly the fingerprints found in the declared order with the first as primary, or the label that none was |
| `Lenses.Bip110Result` | src/classifiers.rs:950-973 | one label, the verdict's; complete exactly when no rule is unknown; policy facts missing exactly otherwise |
| `Lenses.ClassifyTransaction` | src/classifiers.rs:124-136 | four results in catalog order, each exactly its lens's view of the transaction and as the validator demands |
| `Records.FromEvidence` | src/classification.rs:2515-2584 | details are the truncated outcomes, and the compact assessment is the one they imply: violated as soon as one rule is, else incomplete as soon as one is unknown, else compatible |
| `Records.EvidenceDetails` | src/classification.rs:2515-2584 | promised evidence yields valid details, and the primary rule is among the violated ones |
| `Records.Produce` | src/classification.rs:2236-2253 | every record built is accepted by the validator, with the lenses' results and the truncated outcomes |
| `Records.ResultValidIff` | src/model.rs:1095-1163 | the validator's set-size checks refuse exactly duplicates |
| `Records.ValidateResults` | src/model.rs:1095-1163 | accepts exactly complete, ordered, consistent lens results |
| `Records.ValidateDetail` | src/model.rs:1010-1066 | accepts exactly details with the rule's number, bounded exemplars, honest counts and a fitting verdict |
| `Records.Validate` | src/model.rs:967-1093 | accepts exactly the records whose results, details and assessment agree |
| `Records.NewObservation` | src/model.rs:914-964 | accepts exactly the observations whose snapshot and details agree |
| `Records.AssessedIffDetailed` | src/model.rs:951-959 | an entry carries an assessment exactly when the details have its transaction |
| `Records.AttachedAgrees` | src/model.rs:880-912 | attaching records gives an agreeing observation exactly when they are valid and belong to the membership |
| `Records.MaterializeRetained` | src/model.rs:875-912 | succeeds exactly for valid records of the membership in a representable snapshot, and then entries are assessed exactly when they have a record |
| `Records.Materialize` | src/model.rs:853-871 | exactly the records matching an entry's identifier and witness are kept, so valid records always materialize |
| `Records.SummarizePolicy` | src/model.rs:419-444 | each status count is the number of such entries, and together they count every entry once |

## Left out

- Diagnostic counters of a slice report (requests, bytes, failures), logging and elapsed times.
- `usize` saturation in byte sums: sums are unbounded naturals; every sum is bounded by a checked limit.
- Iteration order of `BTreeMap` loops in the pipeline: an arbitrary order is taken, so no result depends on it.
- Hashing, script templates and transaction decoding: identifiers are opaque, templates are parameters, a found raw answer is the requested variant.
- Numeric parsing of transaction identifiers from text, and the errors it can raise.
- Two concurrent callers of one generation's driver lock: they run one after the other, so one caller is modelled.
- Wrapping of status and response revisions at 2^64: they are unbounded.
- Publishing.Materialize: the bound 2^53 - 1 on revisions and totals is modelled in `Records.MaterializeRetained` only; the publisher's runs assume fewer updates.
- PickLogs.OpenFactFirst: while a candidate still awaits parents, a parent turn may carry the cursor past a fact that gettxout could be asked for; which one depends on later answers, so for such turns only facts eligible at each of them are covered.
- Runtimes.SourceRuntime.Run: preparation of a classification revision does not fail there, since produced records are valid; a task failure would drop a revision and end the generation's turns.
- Runtimes.SourceRuntime.Install: the overflow of generation identifiers at the largest u64 ends installation without a publication.
- Batch contents: how batches are cut by count and size is a parameter of the fetch loop that takes at least one request.
- Real time, timeouts, thread scheduling and poisoned locks.
- JSON text of bodies: encoding is taken to be injective, so a body is the response it encodes. The tag's numbers and separators are modelled as text.
- HTTP routing, compression, configuration and credentials.
- Inscription, Stamps, Counterparty and Omni fingerprints: the data lens takes the set of fingerprints found.
- Evidence payloads of lens results: only their presence is kept.
- Label counts of classifier summaries and the classifier catalog's descriptions.
- Order of signature buckets and the matrix rows of the policy view: presentation on top of the totals.
- Views, layout, drawing and navigation of the web client.
