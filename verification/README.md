# Eleel: a model of the execution-client multiplexer

Eleel lets many consensus clients share one execution layer. One of them, the controller, drives
the engine; the others are answered from five caches, each behind its own lock, that the controller's
calls fill. Handlers are asynchronous: they give up control at every lock, at the engine call and
while they sleep, so any number of them interleave.

The project has three layers.

* **Values.** `Lru` is a least-recently-used cache with its working-set property, `BaseFee` the
  EIP-1559 arithmetic ("Specification" section of EIP-1559), `PayloadIds` the identifier encoding,
  `NewPayloads` the decoding of newPayload requests, `PayloadBuilding` the dummy payload builder, and
  `Json` the parameters of requests.
* **The transition system.** `Protocol` has a task for every request in progress, a program counter
  broken at each await, the locks, the caches, and a history of what the engine answered. `Locks`,
  `Queues`, `FcuVerdicts`, `Lookups`, `Shadowing`, `Retention`, `Staleness`, `NonInterference`,
  `PayloadVerdicts`, `PayloadStability`, `PayloadRetention` and `SharedPayloads` prove properties of all
  its runs. `Answers` says what each look at a cache leads to, and `Outcomes` where each outcome of a run
  comes from.
  `Witnesses`, `ExactWitnesses` and `PayloadWitnesses` give runs from the start, put together in
  `Runs`, that show the failing cases to be real.
* **The program.** `Multiplexing.Multiplexer` and `PayloadBuilding.PayloadBuilder` are classes that
  update the caches in place. Each handler is a method with the source's control flow; at every await
  anything legal may happen to the rest of the system. Every handler is proved to be one task of a run
  of the transition system, so what holds of runs holds of it. `Service` says what each request asks
  for, read from its own parameters, and `Rpc` routes requests and answers batches.

Every induction is written out: the lemmas switch automatic induction off.

Assumed of the libraries: `get`, `get_mut`, `put` and `get_or_insert` of the lru crate (version 0.10)
promote their key, iteration and `contains` do not, and a miss changes nothing; 256-bit `+` and `*`
wrap; 64-bit additions wrap, as in a release build. Since version 1.67 of Rust a guard taken in an
operand of `&&` is dropped at the end of that operand, and the version 4 lock file needs a later one.
So a loose probe lets go of the justified lock before it takes the finalized one, and keeps only the
forkchoice lock throughout.

## Where the obvious claim is false

* A loose lookup is *not* atomic. Its safe hash may be evicted between its last two checks, and then
  it answers with a status that the whole lookup, done at once, would not give at its end.
  `LookupsAreAtomicExactlyWhen` gives the condition, `SafeWasCached` says what holds instead, and
  `LookupsCanStraddle` is a run, for every loose configuration, in which the safe and the finalized
  hash it found were never remembered together.
* A definite newPayload verdict *can* be overwritten, because the cache is written unconditionally.
  `AlteredExactlyWhen` says by which steps, `SettledUntilEvicted` that it does not happen while at most
  one controller call per hash is in flight, and `OverlapCanDowngrade` that from *every* reachable
  state with two such calls some continuation turns VALID into SYNCING. `DowngradeHappens` gives a run
  from the start, for every configuration and any two requests for one hash.
* Clients do not influence the controller under loose and head-only matching; under exact matching
  they do. `ProbeInertExactlyWhen` gives the condition, and `ClientChangesController` a run, for every
  exact configuration with room for two triples, in which a controller call ends from the cache that
  would have to ask the engine without the client.
* A cached definite verdict is not always found. Under head-only and loose matching the newest entry
  with the head decides, even if it is indefinite and an older one is not (`ExactHitGivesHeadOnlyHit`).
  `HiddenExactlyWhen` says which steps hide a verdict. Under head-only matching it does not happen while
  at most one controller call per head is in flight (`DefiniteIsFound`); `OverlapCanHide` shows that
  two suffice, and `NewSafeHashCanHide` that under loose matching not even that is needed, if the second call has a new safe hash.
* The 256-bit code does not always compute the rule (`MachineIsExactlyWhen`), and where it does not
  more gas can lower the fee (`WrappedRiseFalls`).
* The bound on a fee rise fails for an odd gas limit with a full block (`RiseBoundExactlyWhen`).
* Identifiers repeat, exactly after 2^64 builds (`IdsRepeatOnlyAfterWrap`).
* Building on a parent with a gas limit below 2 that used gas panics (`RegistersExactlyWhen`);
  `BuilderPanics` is a run for every configuration and every such parent.
* The finalized cache is sized by the justified setting, not by its own documented one
  (`Multiplexer.constructor`).
* Repeating a forkchoice update does not refresh the justified and finalized caches. Under loose
  matching a triple called VALID therefore goes unanswered once one of its hashes is forgotten, until
  the triple is evicted or another one brings the hash back (`RepeatingDoesNotHelp`,
  `StaleExactlyUntil`); only a lookup that had found the safe hash before can still answer
  (`StaleClientsAreMisled`). `StalenessIsReachable` and `CancellationLeavesStale` are runs that lead
  there.
* An identifier and its payload are evicted separately, so `ClientSharesId` and `BuiltPayloadIsServed`
  have separate conditions.

## Model

| member | source | states |
|---|---|---|
| BaseFee.ExpectedBaseFeePerGas | src/base_fee.rs:11-36 | the 256-bit computation fails, by division by zero, exactly for a gas limit below 2 with gas used |
| BaseFee.MachineIsExactlyWhen | src/base_fee.rs:16-35 | with a positive target the code computes the unbounded rule with a single division if and only if neither the product nor the new fee exceeds 256 bits; in particular the final subtraction never saturates |
| BaseFee.MachineRefinesRule | src/base_fee.rs:16-35 | below 2^192 that condition always holds, whatever the gas figures |
| BaseFee.NestedDivision | src/base_fee.rs:23-25 | dividing by the target and then by 8 rounds like dividing once by eight times the target |
| BaseFee.MonotoneInGasUsed | src/base_fee.rs:18-35 | more gas used never lowers the next fee, across all three branches |
| BaseFee.MonotoneInParentFee | src/base_fee.rs:18-35 | a higher parent fee never gives a lower next fee, in spite of the rounding |
| BaseFee.MachineIsMonotone | src/base_fee.rs:18-35 | wherever the code computes the rule, its result is monotone in both arguments together |
| BaseFee.WrappedRiseFalls | src/base_fee.rs:22-28 | where it does not, it need not be: at the highest fee one unit of gas over the target lowers the fee |
| BaseFee.FeeFollowsGas | src/base_fee.rs:18-35 | above the target the fee rises by at least one, at the target it stays, below it never rises; a full block raises it by its eighth or by one, an empty one lowers it by its eighth |
| BaseFee.OneBlockBounds | src/base_fee.rs:18-35 | one block lowers the fee by at most an eighth and raises it by at most an eighth or one |
| BaseFee.ChainBounds | src/base_fee.rs:16-35 | over n blocks: 7^n b0 <= 8^n bn and 8^n (bn + 8) <= 9^n (b0 + 8) |
| BaseFee.PositiveStaysPositive | src/base_fee.rs:29-35 | a positive fee never reaches zero over any bounded chain |
| BaseFee.RiseBoundExactlyWhen | src/base_fee.rs:20-28 | the bound on a rise holds at every fee if and only if at most twice the target is used |
| BaseFee.EmptyBlockStep | src/base_fee.rs:29-34 | an empty block lowers the fee by its eighth, strictly if and only if it is at least 8, and never below 7 from above |
| BaseFee.EmptyBlocksConverge | src/payload_builder.rs:98-110 | chains of the builder's own empty blocks bring the fee to exactly 7, or leave a lower one, within as many blocks as the fee, and it rests there |
| Lru.TouchFacts | src/multiplexer.rs:22-25 | a read loses nothing, changes no value and keeps the cache well formed |
| Lru.PutFacts | src/multiplexer.rs:22-25 | a write puts its key first and alters no other key that stays |
| Lru.WorkingSet | src/multiplexer.rs:22-25 | a key keeps its value over any operations that touch fewer distinct other keys than the cache holds |
| Lru.FullTurnEvicts | src/multiplexer.rs:22-25 | writing as many distinct other keys as the cache holds always evicts the key, so that bound is sharp |
| PayloadIds.RoundTrip | src/payload_builder.rs:92 | reading back the eight big-endian bytes of a counter gives the counter |
| PayloadIds.FromBeBytes | src/payload_builder.rs:286 | every eight bytes are the big-endian form of the number read from them |
| PayloadIds.Injective | src/payload_builder.rs:92 | two counters have the same bytes if and only if they are equal |
| PayloadIds.BigEndian | src/payload_builder.rs:92 | the most significant byte comes first |
| PayloadBuilding.RegisterKeeps | src/payload_builder.rs:66-237 | registering attributes, in every outcome, keeps counter, three caches and past builds consistent |
| PayloadBuilding.BuildCorresponds | src/payload_builder.rs:86-230 | what is built has the key's parent, timestamp, recipient and randao, the parent's number plus one, the fee of the recorded parent, the variant of the timestamp's fork and its own hash |
| PayloadBuilding.BuiltFeeFollowsRule | src/payload_builder.rs:106-110 | on an ordinary parent the built fee is the EIP-1559 rule and not zero unless the parent's is |
| PayloadBuilding.RegistersExactlyWhen | src/payload_builder.rs:71-89 | exactly when an identifier is given, and exactly when building panics |
| PayloadWitnesses.BuilderPanics | src/payload_builder.rs:106-110 | for every configuration, every payload with a gas limit below 2 that used gas and any attributes with a valid timestamp, a run from the start ends in the panic |
| PayloadBuilding.FailureLeavesNothing | src/payload_builder.rs:72-89 | a refused or failed request consumes no identifier and loses no entry |
| PayloadBuilding.FirstInfoIsKept | src/payload_builder.rs:254-276 | recording a payload keeps the first description of its hash, which has the payload's own number, state root, base fee, gas used and gas limit |
| PayloadBuilding.RecordKeeps | src/payload_builder.rs:254-276 | recording a payload the engine did not dismiss keeps the builder consistent |
| PayloadVerdicts.BuildsFollowParents | src/payload_builder.rs:87-110 | in every reachable state each build has a parent that the engine was sent and did not call invalid: its number is the parent's plus one, its state root the parent's, and its fee the one due after the parent's own fee, gas used and gas limit |
| PayloadBuilding.IdsRepeatOnlyAfterWrap | src/payload_builder.rs:92-234 | two builds share an identifier if and only if their ranks agree modulo 2^64; before that identifiers strictly increase |
| PayloadBuilding.ResidentIdsBelowNext | src/payload_builder.rs:232-234 | every resident identifier decodes to a number below the counter |
| PayloadBuilding.AttributesInjective | src/payload_builder.rs:82-84 | two resident keys share an identifier only if they are the same key |
| PayloadBuilding.StoredPayloadCorresponds | src/payload_builder.rs:278-289 | the payload under the identifier of a resident key is the one built for that key |
| PayloadBuilding.NeverFulu | src/payload_builder.rs:209-211 | no Fulu payload is ever stored |
| PayloadBuilding.PayloadBuilder.RegisterAttributes | src/payload_builder.rs:66-237 | the in-place method does exactly what the specification of registering says, early returns included |
| PayloadBuilding.PayloadBuilder.GetExistingPayloadId | src/payload_builder.rs:239-251 | a lookup promotes its key and gives its identifier |
| PayloadBuilding.PayloadBuilder.RegisterCanonicalPayload | src/payload_builder.rs:254-276 | in place, dismissed payloads are not recorded, others are, unless their hash is known, and promote it (`FirstInfoIsKept` says what is recorded) |
| PayloadBuilding.PayloadBuilder.GetPayload | src/payload_builder.rs:278-289 | a fetch promotes the identifier and gives its payload |
| Json.KeysSharedOnlyThroughV2 | src/fcu.rs:25-47 | a client can name the key of a controller's attributes only if the controller used version 2 |
| Json.ControllerFcuReads | src/fcu.rs:16-47 | which parameters a controller's forkchoice update must have, and that triple and attributes are read from them field by field, as V2 for version 2 and as V3 otherwise |
| Json.ClientFcuReads | src/fcu.rs:144-146 | the same for a client, always as V2 |
| Json.RoutedMethods | src/main.rs:146-171 | the methods that are served, and no others |
| Types.DefiniteVerdicts | src/fcu.rs:253-259 | definite are VALID, INVALID and INVALID_BLOCK_HASH |
| Types.SlotOfTimestamp | src/new_payload.rs:315-320 | slots are counted from the genesis time |
| Types.NoSlotExactlyWhen | src/new_payload.rs:315-320 | there is none exactly before genesis, or with slots of no length |
| NewPayloads.RoutedNeverPanics | src/new_payload.rs:169-206 | for a routed method the decoded version is the older of method and fork, Electra always has requests, Fulu never occurs, and no panic is reachable |
| NewPayloads.RequestCarries | src/new_payload.rs:169-313 | what is sent to the engine: the payload as it was read, and from version 3 on the request's own versioned hashes and beacon block root, in version 4 its execution requests |
| NewPayloads.DecodesExactlyWhen | src/new_payload.rs:209-313 | which parameters a routed newPayload must have, and that it is decoded exactly with them |
| NewPayloads.PanicsExactlyWhen | src/new_payload.rs:226-304 | for any method, decoding leads to a panic exactly when the method is not one of the four and the fork is none of Bellatrix, Capella and Deneb |
| NewPayloads.HighestIsMaximum | src/new_payload.rs:339-346 | the fold is an upper bound of the cached numbers, attained unless zero |
| NewPayloads.RecencyIsArithmetic | src/new_payload.rs:349-355 | the saturating comparison says recent exactly when number plus cutoff reaches every cached number |
| NewPayloads.RecencyUpwardClosed | src/new_payload.rs:349-355 | a block above a recent one is recent |
| Locks.WritesOnlyUnderLock | src/multiplexer.rs:20-24 | every cache is written only by a task that holds its lock |
| Locks.LockOfEach | src/fcu.rs:219-240 | each look and each update awaits the lock of its own cache, and only loose looks keep one besides |
| Protocol.SectionKeepsCaches | src/multiplexer.rs:59-74 | no critical section breaks the bound or the distinctness of any cache |
| Protocol.ReachableCachesOk | src/multiplexer.rs:59-74 | in every reachable state each cache has distinct keys and its configured size, the finalized one the justified size |
| Locks.MutualExclusion | src/fcu.rs:219 | in every reachable state each lock has at most one holder |
| Locks.DeadlockFree | src/fcu.rs:219-242 | a task that awaits a lock can be granted it after at most seven steps of lock holders, if a free lock may go to any waiter, and while the lock is taken some holder can step at once |
| Locks.SomeHolderSteps | src/fcu.rs:231-240 | following who waits for whom upward in lock rank always ends at a holder that can step |
| Queues.EveryQueueIsServed | src/fcu.rs:219-242 | whatever the order in which each lock's queue is served, first-in-first-out or other: an orderly run has at most eight lock steps for each task that was at a lock, and can go on exactly while somebody is at one |
| Queues.EveryWaiterIsServed | src/fcu.rs:219-242 | if the queues of locks that are waited for never run empty, an orderly run within that bound ends with all locks free and nobody waiting, and every task that awaited a lock was granted it |
| FcuVerdicts.ClientAnswersAreTraced | src/fcu.rs:164-182 | a client is told the made-up SYNCING or what the engine answered to the same triple (exact), the same head (head-only), or the same head with both other hashes from VALID triples (loose) |
| FcuVerdicts.StepTraced | src/fcu.rs:59-98 | every step keeps every cache entry, and everything a task carries, justified by the engine's replies |
| FcuVerdicts.HistoryIsTheEngines | src/fcu.rs:54-61 | every recorded reply was given by the engine to a controller call for exactly that triple or payload |
| Answers.FirstLookAnswers | src/fcu.rs:221-250 | what a look in the forkchoice cache leads to: the cached status if it is taken, and otherwise the engine, a sleep, or the made-up SYNCING |
| Answers.LaterLooksAnswer | src/fcu.rs:229-250 | and the looks for the safe and the finalized hash |
| Answers.ReplyIsPassedOn | src/fcu.rs:63-101 | the engine's reply is what the controller is told, news or not; only news is cached, and only a VALID that is news has its hashes recorded |
| Outcomes.ClientStatusWasFound | src/fcu.rs:151-182 | over every run, the status a client was told is one it found when it looked, or SYNCING after its last look missed |
| Outcomes.ControllerStatusIs | src/fcu.rs:49-112 | the status a controller was told is the engine's answer to this very call, asked once; or, without asking, a definite one it found |
| FcuVerdicts.DefiniteUntilEvicted | src/fcu.rs:65-80 | a definite verdict does not change while its triple stays cached, whatever runs concurrently |
| FcuVerdicts.ExactAnswersAgree | src/fcu.rs:222 | in exact mode all probes of a triple between two evictions are answered alike |
| Lookups.LookupsAreAtomicExactlyWhen | src/fcu.rs:214-251 | however its lock acquisitions interleave with other handlers, a lookup that ends gives what the whole lookup would give at once in that state if and only if it does not straddle the eviction of a safe hash it had found; exact and head-only lookups never do |
| Lookups.ReachableSnapshots | src/fcu.rs:219-240 | while a loose lookup is under way the forkchoice cache still shows the status it saw |
| Lookups.SafeWasCached | src/fcu.rs:231-240 | the safe hash of a loose lookup that awaits its last lock was cached at an earlier moment of that lookup, and the forkchoice cache has not changed since |
| Witnesses.LookupsCanStraddle | src/fcu.rs:231-240 | for every loose configuration a run from the start in which a client is told VALID although its safe and finalized hashes were never remembered together and the lookup done at once misses |
| Lookups.LooseLookupsRefineHeadOnly | src/fcu.rs:229-250 | in every reachable state, a loose lookup in flight that ends with a status ends with what head-only matching would answer at once in that state |
| FcuVerdicts.ExactHitGivesHeadOnlyHit | src/fcu.rs:221-228 | an exact hit implies a head-only hit if indefinite answers are allowed; otherwise exactly when the newest entry with that head is definite |
| FcuVerdicts.NewerIndefiniteShadows | src/fcu.rs:224-226 | caching an indefinite reply hides any older definite verdict with the same head from head-only lookups for a definite answer, in any cache |
| Shadowing.HiddenExactlyWhen | src/fcu.rs:65-80 | under head-only and loose matching, a step hides a definite verdict that stays cached exactly if it caches an indefinite reply for another triple with its head |
| Shadowing.DefiniteIsFound | src/fcu.rs:49-80 | under head-only matching, over every run with at most one controller call per head in flight, every cached definite verdict is found by a lookup for a definite answer |
| Witnesses.OverlapCanHide | src/fcu.rs:49-80 | for every head-only configuration with room for two and any two triples with one head, overlapping calls answered VALID and then SYNCING hide the VALID |
| Witnesses.NewSafeHashCanHide | src/fcu.rs:221-241 | for every loose configuration with room for two, a second call for the head with a new safe hash does so without any overlap |
| Retention.ExactPublicationKept | src/fcu.rs:63-80 | in exact mode a definite status is given to every later client, never the made-up one, until as many other triples as the cache holds are touched |
| Retention.LoosePublicationKept | src/fcu.rs:89-98 | in loose mode, after VALID and both hashes are recorded, every check of a client's probe succeeds with that status while the caches are not overrun and no other triple with the head is touched |
| Retention.RunPerformsOps | src/fcu.rs:214-251 | a run does to each cache exactly the listed operations, misses counting for nothing |
| Retention.FcuHeld | src/fcu.rs:65-80 | over any run a definite status is lost only by eviction |
| Retention.PublicationCompletes | src/fcu.rs:63-98 | once a controller is about to cache a VALID that is news, it can always finish: at most four steps, by tasks that hold a lock or are granted one, need lie between its three updates |
| Staleness.RepeatingDoesNotHelp | src/fcu.rs:65-98 | in loose mode, once a cached definite triple's safe or finalized hash is forgotten, no lookup that starts, or checks the safe hash, after that hits, however often the controller repeats the triple; a lookup past that check was past it before |
| Staleness.StaleExactlyUntil | src/fcu.rs:66-99 | that lasts through a step if and only if the triple stays cached and no other triple with the forgotten hash is newly called VALID |
| Staleness.BecomesStale | src/fcu.rs:89-98 | recording a new hash brings it about when the old one is next in line for eviction |
| Staleness.StaleClientsAreMisled | src/fcu.rs:167-182 | a client's last look at a stale triple gives the made-up SYNCING exactly when it had not already found the safe hash with its finalized hash still cached (or saw that same status); otherwise the cached verdict |
| Staleness.LostExactlyWhen | src/fcu.rs:66-98 | step by step, a loose lookup for a definite answer comes to miss exactly by a newer indefinite reply for its head, the eviction of the last entry with its head, or the eviction of its safe or finalized hash |
| Witnesses.StalenessIsReachable | src/fcu.rs:65-98 | for every configuration with room for more triples than hashes, a run from the start in which a triple outlives its safe hash |
| Witnesses.CancellationLeavesStale | src/fcu.rs:80-98 | for every configuration, a run in which a call cancelled between its updates leaves a VALID triple without its hashes |
| NonInterference.ClientsDoNotInterfere | src/fcu.rs:221-242 | in loose and head-only mode, deleting all client forkchoice steps from a run leaves a run with the same verdict caches and recency, engine exchange and controller statuses |
| NonInterference.ProbeInertExactlyWhen | src/fcu.rs:221-228 | a client's first look leaves the cache alone exactly when matching is not exact, or it misses, or its triple is already the most recent |
| NonInterference.ExactClientsInterfere | src/fcu.rs:222 | in exact mode a client can save the next entry in line from eviction by the controller |
| ExactWitnesses.ClientChangesController | src/fcu.rs:222 | for every exact configuration with room for two triples, a run in which a controller call ends with a cached VALID, while in the run without the client's steps it has to ask the engine |
| PayloadVerdicts.ClientAnswersAreTraced | src/new_payload.rs:104-164 | a client's answer is for a verified block hash, and is the engine's own for that hash, or SYNCING with verified versioned hashes |
| Answers.PayloadLookAnswers | src/new_payload.rs:322-334 | a look for a verdict ends with the cached status, at a last look whatever it is, before that if it is definite; otherwise with the engine, a sleep, SYNCING, or the refusal for wrong versioned hashes |
| Answers.WaitsExactlyWhen | src/new_payload.rs:119-128 | a client waits exactly if no cached payload is more than the cutoff ahead |
| Answers.VerdictIsStored | src/new_payload.rs:52-63 | the reply is stored with the payload's number, and passed on to the builder unless it is INVALID or INVALID_BLOCK_HASH |
| Outcomes.ClientVerdictWasFound | src/new_payload.rs:119-166 | over every run, the verdict a client was told was cached when it looked; SYNCING or the refusal means that at its last look there was none |
| Outcomes.ControllerVerdictIs | src/new_payload.rs:44-77 | the verdict a controller was told is the engine's answer to this very call, asked once; or, without asking, a definite one it found |
| Outcomes.RefusedForHashExactlyWhen | src/new_payload.rs:104-115 | a client's payload is refused for its block hash exactly if that is wrong |
| PayloadRetention.VerdictKept | src/new_payload.rs:52-59 | a stored verdict is given to every client that looks later, at a last look whatever it is, before that exactly if it is definite, until as many other hashes are touched as the cache holds or another reply for the hash is stored |
| PayloadRetention.RunPerformsPayloadOps | src/new_payload.rs:52-65 | a run does to the verdict cache and to the remembered parents exactly the listed operations |
| PayloadVerdicts.BuilderAlwaysConsistent | src/payload_builder.rs:76-294 | in every reachable state the builder's counter and caches agree with the builds that took place and with payloads the engine did not dismiss |
| PayloadVerdicts.IdsOverRuns | src/payload_builder.rs:232-234 | over every run two builds share an identifier exactly if their ranks agree modulo 2^64; with fewer builds identifiers strictly increase, stay below the counter and belong to one key each |
| PayloadVerdicts.FetchNeverPanics | src/payload_builder.rs:342-345 | no reachable fetch is answered with a Fulu payload |
| PayloadStability.AlteredExactlyWhen | src/new_payload.rs:52-59 | a step alters a settled verdict exactly when it stores a different reply for the same hash |
| PayloadStability.SettledUntilEvicted | src/new_payload.rs:44-59 | with at most one controller call per hash in flight a definite verdict stays until evicted |
| PayloadStability.OverlapCanDowngrade | src/new_payload.rs:44-59 | from any reachable state with two calls for one hash awaiting the engine, some continuation replaces VALID by SYNCING |
| PayloadWitnesses.OverlapIsReachable | src/new_payload.rs:44-53 | for every configuration and any two requests, six steps from the start lead to both awaiting the engine |
| PayloadWitnesses.DowngradeHappens | src/new_payload.rs:44-59 | for every configuration and any two requests for one hash, a run from the start stores VALID and then SYNCING |
| PayloadStability.WaitsAreBounded | src/new_payload.rs:119-128 | a client sleeps at most its wait divided by 50 ms, rounded up, and settles for less than a definite answer only when its time is up or its payload is old |
| SharedPayloads.ClientSharesId | src/fcu.rs:185-201 | after the controller is given an identifier, a client repeating head and attributes is given the same one, until as many other keys are touched as the builder remembers |
| SharedPayloads.BuiltPayloadIsServed | src/payload_builder.rs:278-289 | a built payload, which answers its attributes, is served under its identifier until as many other payloads are touched |
| SharedPayloads.GivenPayloadCorresponds | src/fcu.rs:185-201 | at any time the payload resident under the identifier given to a client was built for the client's own head and attributes |
| PayloadRetention.ParentKept | src/payload_builder.rs:86-89 | a payload passed on to the builder is never an unknown parent until as many other hashes are touched; an update that can be built upon it is given an identifier |
| Answers.AttributesAreUsed | src/fcu.rs:120-134 | a client is given the identifier remembered for its head and attributes; a controller that one, or one remembered from then on, or a refusal |
| Outcomes.IdWasGiven | src/fcu.rs:114-134 | over every run, an update without attributes is given no identifier, and one with attributes what the builder answered for its own head and attributes |
| Outcomes.GivenIdIsIssued | src/fcu.rs:185-201 | every identifier given belongs to a build for the caller's own head and attributes |
| Outcomes.FetchWasFound | src/payload_builder.rs:278-296 | a fetch is answered with what was stored under its identifier when it looked |
| Outcomes.OnlyControllersAreHeard | src/fcu.rs:54-61 | the engine is heard only in answer to a controller, about its own triple or payload |
| Outcomes.ClientsAreNotHeard | src/fcu.rs:144-209 | serving clients adds nothing to the exchange with the engine |
| Answers.BeginsAt | src/new_payload.rs:102-119 | where each request begins; a wrong block hash is refused before any cache is consulted |
| Service.RepliesAre | src/fcu.rs:129-141 | which reply each outcome becomes |
| Service.FetchReads | src/payload_builder.rs:292 | a fetch has one parameter, an identifier |
| Multiplexing.Multiplexer.constructor | src/multiplexer.rs:59-74 | start-up gives the initial state of the transition system, each cache with its configured size, the finalized one with the justified size |
| Multiplexing.Multiplexer.Launch | src/multiplexer.rs:59-74 | start-up fails exactly when a size in use is zero |
| Multiplexing.Multiplexer.GetCachedFcu | src/fcu.rs:214-251 | under any interleaving the lookup is the probe of the transition system and returns what it found |
| Multiplexing.Multiplexer.UpdateFcuCache | src/fcu.rs:63-80 | the reply is cached unless a definite verdict is there |
| Multiplexing.Multiplexer.PublishReply | src/fcu.rs:63-98 | a newly cached VALID goes on to record its safe and then its finalized hash |
| Multiplexing.Multiplexer.HandleControllerFcu | src/fcu.rs:16-142 | the handler is one task of a run for its own parameters, and its reply that task's outcome: the engine's status or a final one, with an identifier issued for its own head and attributes exactly if it sent some and they were not refused |
| Multiplexing.Multiplexer.WaitForFcu | src/fcu.rs:151-162 | the waiting loop ends with a definite status or with its time up, and the last sleep began in time |
| Multiplexing.Multiplexer.HandleFcu | src/fcu.rs:144-209 | the handler is one task of a run, never panics, its status is the made-up SYNCING or justified by the engine's replies, and its identifier what the builder remembered for its head and V2 attributes when it looked |
| Multiplexing.Multiplexer.HighestCachedPayloadNumber | src/new_payload.rs:339-346 | the loop computes the highest cached number |
| Multiplexing.Multiplexer.GetCachedPayloadStatus | src/new_payload.rs:322-334 | the promoting lookup is the payload probe of the transition system |
| Multiplexing.Multiplexer.HandleControllerNewPayload | src/new_payload.rs:21-80 | the handler is one task of a run, cannot panic on a routed method, and answers the engine's status or a final one, or the engine's failure |
| Multiplexing.Multiplexer.HandleNewPayload | src/new_payload.rs:82-167 | the handler is one task of a run, cannot panic on a routed method, and its answer is for a verified block hash and the engine's own or the made-up SYNCING |
| Multiplexing.Multiplexer.HandleGetPayload | src/payload_builder.rs:291-347 | the handler is one task of a run and never reaches the panic for Fulu |
| Rpc.ProcessClientRequest | src/main.rs:142-172 | a client request never panics; its reply carries its id and is the outcome of a client's task for the request's own parameters, on whose behalf the engine is never asked; "method not found" exactly for unrouted methods |
| Rpc.ProcessControllerRequest | src/main.rs:174-225 | a controller request is served by a controller's task for its own parameters, and answered with the engine's status or a final one; it can panic only in a forkchoice update |
| Rpc.HandleClientJsonRpc | src/main.rs:98-140 | an authorised batch of any length gets as many replies, the i-th being the outcome of a task that served the i-th request (sections 5 and 6 of JSON-RPC 2.0); an unauthorised or unreadable body gets one error and changes nothing |
| Rpc.HandleControllerJsonRpc | src/main.rs:174-225 | an authorised controller request gets the outcome of a controller's task that served it; others get an error and change nothing |

## Left out

- HTTP server, JSON parsing, logging, TOML and command line: a JSON value is given by what each deserialiser makes of it.
- JWT verification: an authorised flag.
- The engine: it may answer anything or fail; proxied calls, chain ID and capabilities give an opaque result with the request's id.
- Computing and verifying block hashes and versioned hashes: functions of the configuration, about which nothing is assumed.
- Genesis state and fork schedule: parameters of the configuration.
- Payload fields that are constant or carried through unchanged (bloom, receipts root, extra data, transactions, blob gas).
- Log output, and the message texts of errors.
- Fairness of the scheduler: a handler whose lock is never granted stays suspended, and no claim is made about it.
- Locks.DeadlockFree: its bound lets a free lock go to any waiter; the program's locks are first-in-first-out, for which `Queues.EveryWaiterIsServed` counts the queue.
- Retention.PublicationCompletes: its bound, too, does not count a queue.
- Queues.EveryWaiterIsServed: counts lock steps only; requests that arrive meanwhile add to the queues.
- NonInterference.ClientsDoNotInterfere: leaves out what the payload builder answers at the end of a controller's forkchoice update, because a client's lookup does promote the builder's keys.
