# Verified model of the limit order book

This project models the matching core of the exchange in Dafny and proves what it promises. It covers
the price-time-priority engine and its indexed book, the write-ahead journal with its CRC and its replay,
the lock-free single-producer ring, the blocking queue, the partitioned multi-symbol engine, the live
engine process with its viewer, and the latency histogram.

## How it is organised

The reference engine is a value (`Engine`): two queues of orders, best first, and one function per command.
It has no price levels, no cached totals, no index and no preflight. `Matching` states price-time priority
as a property and proves that it leaves exactly one possible execution. `OrderOutcomes` says what each command
must do in terms of order fields, prices and sums over the queues, without execution, insertion or a chain of
checks, and proves that these statements leave exactly one outcome, the engine's. `EngineInvariant`,
`EngineLaws`, `Fairness` and `Conservation` prove what holds over every run of commands.

The implementation is a pair of classes (`OrderBooks.OrderBook`, `MatchingEngines.MatchingEngine`) with
price levels, cached level totals, an id-to-node index and the capped preflight. Each method is proved to do
what the reference does, so every law about runs of the reference is a law about the implementation.
`BookAudit` is the book's self-check, proved to decide the declarative book invariant on arbitrary contents.

`Crc32`, `Codec`, `Journal` and `JournalLaws` take the journal from single bits to the statement that replaying a
journal reproduces the live run. `CrcDivision` shows which code the checksum is, by long division of polynomials,
and `RecordLayout` fixes every byte of a record and the verdict on any 48 bytes. `Live` puts journal, engine and
publication together as steps of a process that may stop at any instant, beside a viewer that reads possibly old
queue counters.

`Spsc`, `Mpmc`, `Partitioned`, `Live`, `AtomicHistogram` and the modules built on them are state machines. A
state machine's `Step` relates two states by one atomic access or one critical section of the program. An
`Execution` is any sequence of such steps, so a lemma about executions is about every interleaving. `Mpmc` is
proved to refine the simple `Channels.Channel`, and `Partitioned` is built on that channel; `PartitionedQueues`
puts the locking queue back in its place. `PartitionedWait` adds a thread inside `waitUntilIdle`, with spurious
wakeups and the notification of shutdown, and `PartitionedStrand` shows when that thread can be left asleep.
`Live` is built on histories without bound, and `LiveRings` puts the bounded rings of `Spsc` in their place.

## Results

- Every run of the engine keeps the book sorted by price and arrival, uncrossed, with live orders only and
  each id at most once; the class-based engine passes its own audit after every command.
- The preflight over level totals decides exactly what executing the order would do, so an accepted
  fill-or-kill order always fills, an accepted post-only order never trades, and the active-order cap is tested
  exactly when the order will rest.
- An order is accepted if and only if it has none of the seventeen faults, and otherwise the reason is the first
  in the documented order. Report, trades, both queues and all counters of every new order and every cancel are
  determined by statements over fields, prices and sums.
- Quantity is conserved over whole runs, for any group of order ids: all of them, or a single one.
- Every trade joins two accepted orders, a buy and a sell, at a price no higher than the buyer's limit and no lower
  than the seller's, and nothing that still rests had priority over an order that was hit. No id is accepted twice,
  so the order behind an id is the only one.
- Replaying the journal of any command list reproduces the engine, the trades and the reports. Any burst of up to
  32 bits in a journal, across a record boundary or not, stops every reader at the first record it changed. The
  checksum is the frame check sequence of ITU-T V.42.
- At every instant of the live process the complete records on file are those of the commands applied, plus at
  most the one in hand; once the engine is done the viewer can always come to its exit, and on the real rings it
  leaves only after it has received everything.
- The ring never loses, repeats, reorders or tears an item under stale counter reads and 64-bit wrap-around, and
  neither side ever waits for the other.
- The blocking queue is first-in first-out and loses no wakeup; after close nobody sleeps.
- Under every interleaving, each symbol of the partitioned engine behaves as one sequential engine fed
  in queue order, every future is set once, the pending count is exact and shutdown drains every queue. All of
  this holds on the real queues too, where no interleaving of callers, owners and shutdown deadlocks.
- When `waitUntilIdle` returns, every command whose submission had returned before the call is finished.
- A percentile bound of the histogram is the largest value of the bucket of the sample it stands for. It is below
  twice the sample exactly when the sample is at least one and outside the gap between 2^62 and 2^63. Concurrent
  recording ends in the state that recording the same values one by one would leave.

Two properties that a reader may expect do not hold.

- `waitUntilIdle` can sleep for ever on an idle engine, because a worker lowers the pending count and notifies without
  the waiter's mutex. `PartitionedStrand.FreshEngineStrands` shows it on a fresh engine.
  `PartitionedStrand.WaitMayStrandIff` shows that a wait about to test can be stranded if and only if some command is
  pending, on its way in, or can still come because the engine accepts.
- Recovery after a stop at any instant can fail, because both replay and append mode refuse a file with an unfinished
  record. `Live.RestartCanFail` gives the stops, and `Live.RestartIffNoTornRecord` shows that a restart succeeds if and
  only if the file length is a multiple of the record size.

## Model

| member | source | states |
|---|---|---|
| `Risk.ValidateDecidesLimits` | src/risk_manager.cpp:5-30 | the chain of checks with its division accepts exactly the orders within the kill switch, the quantity cap, the price collar, the exact price-times-quantity bound and the active-order cap |
| `Risk.SmallerStaysWithin` | src/risk_manager.cpp:13-24 | reducing a quantity never takes an order outside its limits |
| `Matching.ExecuteRespectsPriority` | src/matching_engine.cpp:87-113 | execution hits a prefix of the queue, at prices no worse than the taker's limit price, consumes all but the last maker whole, conserves quantity and stops only when done or out of reach |
| `Matching.PriorityDeterminesExecution` | docs/order_book.md:20-40 | price-time priority allows no other outcome than that execution |
| `OrderOutcomes.LeftIsShortfall` | src/order_book.cpp:137-162 | what execution leaves is the shortfall of the quantity resting at prices within the limit |
| `OrderOutcomes.ExecuteTakesShares` | src/matching_engine.cpp:87-113 | the loop takes from each order its share in closed form, the smaller of its quantity and what the orders before it leave |
| `OrderOutcomes.AdmissionIsFirstFault` | src/matching_engine.cpp:9-75 | an order is admitted exactly when it has no fault, and otherwise the reason is its first fault in the documented order |
| `OrderOutcomes.AcceptedIff` | docs/order_semantics.md:33-77 | acceptance, written out on the order's fields, consumed ids, limits, kill switch, active-order cap and the quantity within reach |
| `OrderOutcomes.OutcomeDetermined` | src/matching_engine.cpp:49-145 | the statements on report, all four statuses, trades, both queues, consumed ids and counters hold of exactly one outcome, the engine's |
| `OrderOutcomes.LeftoverExhausts` | src/matching_engine.cpp:87-94 | with quantity left over, every order still resting on the other side is priced beyond the limit, and against a market order none is left |
| `OrderOutcomes.CancelDetermined` | src/matching_engine.cpp:147-167 | the statements on a cancel hold of exactly one outcome, the engine's: which id leaves, the quantity reported, and the reason otherwise |
| `OrderOutcomes.CancelRemoves` | docs/order_semantics.md:49-65 | a cancel is accepted exactly for a resting id, which then rests nowhere, and every other id rests where it did |
| `OrderOutcomes.RunCounts` | include/matching_engine.hpp:42-46 | over any run the counters are the numbers of orders accepted, orders rejected and orders cancelled |
| `OrderOutcomes.NumberedFromOne` | include/matching_engine.hpp:56-64 | reports and trades of a run are numbered from one |
| `Matching.RemoveAt` | src/order_book.cpp:41-63 | removal deletes exactly the order found by id and keeps the order of the rest |
| `EngineInvariant.InsertKeepsOrder` | src/order_book.cpp:9-39 | a later arrival is placed behind every order at least as good |
| `EngineInvariant.InsertCannotFail` | src/matching_engine.cpp:115-122 | an admitted order's id is never already in the book, so the insertion assertion holds |
| `EngineInvariant.AcceptKeepsInv` | src/matching_engine.cpp:77-145 | accepting an order keeps the book sorted, live, distinct and uncrossed |
| `EngineInvariant.CancelKeepsInv` | src/matching_engine.cpp:147-167 | so does cancelling |
| `EngineInvariant.RunKeepsInv` | src/matching_engine.cpp:49-167 | so does every run |
| `EngineLaws.RunKeepsRisk` | src/matching_engine.cpp:60-68 | under fixed limits no run ever exceeds the active-order cap or rests an order outside its limits |
| `EngineLaws.RunNumbers` | src/matching_engine.cpp:49-145 | commands and trades are numbered without gaps or repeats over a run, one report per command |
| `EngineLaws.TradeCountFits` | src/matching_engine.cpp:124-133 | a command prints at most as many trades as units it executes, so the count fits the report's 32-bit field |
| `EngineLaws.TradesPaidByOrders` | src/matching_engine.cpp:87-122 | every trade finishes an order: over any run, trades printed and orders resting together are at most the commands |
| `EngineLaws.CountersFit` | include/matching_engine.hpp:56-64 | no 64-bit counter wraps as long as the commands themselves can be numbered, that is below 2^64 - 1 commands |
| `EngineLaws.TotalsFit` | include/order_book.hpp:19-22 | the quantities of all resting orders sum to less than 2^64 when the active-order cap is at most 2^32, or over at most 2^32 commands |
| `EngineLaws.OrderSemantics` | docs/order_semantics.md:20-77 | requested is executed plus remaining; accepted fill-or-kill fills, accepted post-only rests untouched, an order rests exactly when it may and something remains; a rejection changes no book and consumes no id |
| `EngineLaws.NoTradeThrough` | src/matching_engine.cpp:87-113 | each trade prints at its maker's price, no worse than the taker's limit price, and nothing left in the book had priority over a maker hit |
| `EngineLaws.ApplyIgnoresSequence` | src/journal.cpp:191-202 | the sequence number an order arrives with has no effect |
| `EngineLaws.RunIgnoresSequence` | src/journal.cpp:191-202 | nor do those of a whole run |
| `EngineLaws.RunConcat` | docs/persistence.md:52-58 | running two lists after each other is running their concatenation |
| `Fairness.RunIsFair` | src/matching_engine.cpp:87-122 | over every run, each resting order keeps the id, side, kind and price of the command accepted under its id, and each trade joins two different accepted orders, a buy and a sell, at a price both allow |
| `Fairness.TradesWithinLimits` | src/matching_engine.cpp:87-113 | whatever commands were accepted under a trade's two ids, they are a buy and a sell, and the price is at most a limit buyer's and at least a limit seller's |
| `EngineLaws.AcceptedOnce` | src/matching_engine.cpp:56-58 | no id is accepted by two commands of a run |
| `Conservation.ExecuteConserves` | src/matching_engine.cpp:87-113 | per group of ids, what makers hold after execution plus what was filled is what they held |
| `Conservation.ApplyBalances` | src/matching_engine.cpp:84-166 | one command balances accepted, traded, resting, cancelled and expired quantity for any group of ids |
| `Conservation.RunConserves` | src/matching_engine.cpp:84-166 | so does every run |
| `Conservation.LedgerReadsTape` | src/matching_engine.cpp:100-111 | the traded column of the ledger is read off the trades printed |
| `Conservation.RunConservesVolume` | src/matching_engine.cpp:84-166 | accepted quantity is twice the traded volume plus resting plus cancelled plus expired |
| `Conservation.OneCommandPerId` | src/matching_engine.cpp:56-58 | exactly one command of a run is accepted for a seen id and none for another, and the id's ledger opens with that command's quantity |
| `Conservation.OrderConserves` | src/matching_engine.cpp:84-166 | each accepted order, named by its accepting command, satisfies its own conservation equation |
| `PriceLevels.PushBackOk` | src/order_book.cpp:9-39 | adding to a level keeps the levels sorted, non-empty and their totals exact |
| `PriceLevels.PushBackInserts` | src/order_book.cpp:9-39 | flattened, adding to the back of a level is inserting by price and arrival |
| `PriceLevels.EraseNodeErases` | src/order_book.cpp:41-63 | erasing a list node at its price removes exactly that order and an emptied level, and keeps the totals exact |
| `PriceLevels.LookupFinds` | src/order_book.cpp:41-48 | following price and node from the index reads the indexed order |
| `BookIndex.IndexAdds` | src/order_book.cpp:9-39 | indexing a new order keeps index and levels in exact correspondence |
| `BookIndex.IndexErases` | src/order_book.cpp:41-63 | so does unindexing a cancelled one |
| `BookIndex.LevelContributes` | src/order_book.cpp:137-162 | a whole level inside the limit contributes its cached total, capped by what is left to fill |
| `BookIndex.TakeFront` | src/order_book.cpp:99-125 | taking quantity from the front order keeps levels, totals and index sound |
| `BookAudit.CheckLevel` | src/order_book.cpp:194-219 | the level check passes exactly when the level is sound and its ids are new |
| `BookAudit.CheckSide` | src/order_book.cpp:221-236 | the side check passes exactly when every level is sound and prices are strictly sorted |
| `BookAudit.CountDecidesCoverage` | src/order_book.cpp:238-238 | with distinct indexed orders, equal counts mean the index holds exactly the resting ids |
| `BookAudit.CheckBook` | src/order_book.cpp:187-239 | the check returns true if and only if the declarative book invariant holds, on any contents |
| `BookAudit.SoundBookMeans` | src/order_book.cpp:187-239 | a book that passes has every order in price and arrival order, no bid at or above an ask, no id twice, every order where the index says, nothing else indexed, and exact level totals |
| `OrderBooks.OrderBook.AddOrder` | src/order_book.cpp:9-39 | an order with a new id is inserted into its side's queue and the other side is unchanged; a duplicate is refused without effect |
| `OrderBooks.OrderBook.CancelOrder` | src/order_book.cpp:41-63 | a resting id is removed and returned; an unknown id changes nothing |
| `OrderBooks.OrderBook.ReduceFront` | src/order_book.cpp:99-125 | the best order loses the quantity, or leaves when it is used up |
| `OrderBooks.OrderBook.WouldCrossIffFills` | src/order_book.cpp:127-135 | the test on the best price holds exactly when executing would fill something |
| `OrderBooks.OrderBook.ExecutableQuantity` | src/order_book.cpp:137-162 | the capped sum of level totals equals what executing the order would fill |
| `OrderBooks.OrderBook.CountsOrders` | include/order_book.hpp:49-49 | the index size is the number of resting orders |
| `OrderBooks.OrderBook.CheckInvariants` | src/order_book.cpp:187-239 | the self-check decides the declarative invariant of this book |
| `MatchingEngines.MatchingEngine.Match` | src/matching_engine.cpp:87-113 | the order-by-order loop leaves the quantity, the opposite queue and the trades that the reference execution gives |
| `MatchingEngines.MatchingEngine.Admit` | src/matching_engine.cpp:53-75 | validation, duplicate test, preflight, risk, post-only and fill-or-kill checks give the reason the reference finds by executing |
| `MatchingEngines.MatchingEngine.ProcessOrder` | src/matching_engine.cpp:49-145 | new state, report and appended trades are the reference's |
| `MatchingEngines.MatchingEngine.Cancel` | src/matching_engine.cpp:147-167 | new state and report are the reference's |
| `MatchingEngines.MatchingEngine.PassesSelfCheck` | src/order_book.cpp:187-239 | every reachable engine's book satisfies the invariant its self-check decides |
| `Crc32.AbsorbPacked` | src/journal.cpp:62-72 | absorbing up to 32 bits is one xor followed by shifts |
| `Crc32.BurstChangesRegister` | src/journal.cpp:62-72 | two bit strings that differ only within a window of 32 bits leave different registers |
| `Crc32.Compute` | src/journal.cpp:62-72 | the nested loops compute the checksum of the bit string |
| `Crc32.ChecksumIffResidue` | src/journal.cpp:135-138 | a checksum matches exactly when the block with its checksum leaves the fixed residue |
| `Crc32.BurstBreaksBlock` | src/journal.cpp:135-138 | a burst of up to 32 bits anywhere in a checked block makes the check fail |
| `CrcDivision.PolynomialIsGenerator` | src/journal.cpp:62-72 | the constant is the V.42 generator, given by the exponents of its terms, without its leading term |
| `CrcDivision.ChecksumIsV42` | src/journal.cpp:62-72 | the checksum of any bytes is the complemented remainder of long division by that generator, of the message times x^32 with its first 32 bits inverted |
| `CrcDivision.ResidueValue` | src/journal.cpp:135-138 | the fixed residue is the one V.42 states |
| `Codec.ValueRoundTrip` | src/journal.cpp:23-60 | reading back a little-endian field gives the value written |
| `Codec.Put` | src/journal.cpp:23-38 | the put loop writes the little-endian bytes and no others |
| `Codec.Get` | src/journal.cpp:40-60 | the get loop assembles the little-endian value |
| `Codec.CheckRecord` | src/journal.cpp:116-140 | the reader's tests on the fields it assembled and the checksum it computed find the first fault of the record, or none |
| `Codec.DecodeRecord` | src/journal.cpp:191-202 | assembling the fields gives the decoded command |
| `Codec.RecordRoundTrip` | src/journal.cpp:276-297 | an encoded record validates under its own ordinal only and decodes to the command without its sequence number |
| `Codec.BurstRejected` | src/journal.cpp:116-140 | a valid record altered within any 32 consecutive bits fails validation under every ordinal |
| `Codec.WindowRejected` | src/journal.cpp:116-140 | in particular when altered within any four consecutive bytes |
| `RecordLayout.RecordIsLaidOut` | src/journal.cpp:276-297 | every byte of a record: letters, version, kind, the base-256 digits of each field, zeros and the checksum |
| `RecordLayout.CodesAre` | include/order.hpp:14-28 | which byte stands for each side, kind and time in force |
| `RecordLayout.VerdictIs` | src/journal.cpp:116-140 | for any 48 bytes, exactly when they are a record, and which of the five faults is reported, read off the bytes |
| `RecordLayout.DecodeReads` | src/journal.cpp:191-202 | the fields decoded from any 48 bytes are those whose digits stand there |
| `Journal.ReadNext` | src/journal.cpp:98-140 | one read gives the end of the file, truncation, or the verdict on the next record |
| `Journal.Scan` | src/journal.cpp:149-189 | finds the longest valid prefix, succeeds exactly on whole journals, and reports the offset and kind of the first fault |
| `Journal.Replay` | src/journal.cpp:332-387 | applies exactly the longest valid prefix to the live engine, agrees with the scan on success, count, offset and error, and counts exactly the new orders, cancels, acceptances, rejections and trades of that prefix |
| `Journal.CountsArePlaces` | src/journal.cpp:367-382 | the counts of new orders and acceptances are numbers of positions |
| `Journal.BuildRecord` | src/journal.cpp:276-297 | filling the zeroed buffer field by field gives the encoded record |
| `Journal.EventJournal.OpenTruncate` | src/journal.cpp:230-254 | opens an empty journal whose next record is the first |
| `Journal.EventJournal.OpenAppend` | src/journal.cpp:230-254 | opens exactly on whole journals and continues their ordinals |
| `Journal.EventJournal.Append` | src/journal.cpp:276-303 | appends the record or the part of it that fits, advances the ordinal only for a complete one even when its sync fails, and keeps a whole journal whole |
| `Journal.AppendExtends` | src/journal.cpp:276-303 | a whole journal with the next record appended is whole and holds one more command |
| `Journal.Restart` | apps/matching_engine_main.cpp:140-174 | starting with recovery succeeds exactly on whole journals, with the engine that the commands lead to and the journal ready to continue |
| `Journal.LongestPrefixUnique` | src/journal.cpp:163-186 | a file has only one longest valid prefix |
| `JournalLaws.JournalDecodes` | src/journal.cpp:276-303 | the journal of any command list decodes to that list without sequence numbers |
| `JournalLaws.ReplayEqualsLive` | docs/persistence.md:3-5 | replaying the journal of any command list gives the same engine, trades and reports as the live run |
| `JournalLaws.RecoveryContinues` | docs/persistence.md:52-58 | replaying and carrying on ends where one uninterrupted run ends |
| `JournalLaws.TornTail` | src/journal.cpp:352-356 | an unfinished last record loses only itself and is reported as truncation |
| `JournalLaws.BurstFound` | src/journal.cpp:345-365 | a burst of up to 32 bits anywhere in a journal, across a record boundary or not, makes every reader stop exactly at the first record changed, with the earlier commands |
| `JournalLaws.RecordsNumbered` | src/journal.cpp:276-303 | the records of a journal are numbered from one |
| `Words.MaskIsMod` | include/spsc_queue.hpp:154-156 | masking with a power of two less one is the remainder |
| `Words.PowerOfTwoTest` | include/spsc_queue.hpp:94-95 | the usual bit test accepts a positive number if and only if it is a power of two |
| `Words.WrapKeepsSlot` | include/spsc_queue.hpp:154-156 | wrapping a counter at 2^64 does not change its slot |
| `Words.WrapDifference` | include/spsc_queue.hpp:110-116 | the wrapped difference of two counters less than 2^64 apart is their true difference |
| `Spsc.ProducerKeeps` | include/spsc_queue.hpp:110-119 | every producer step keeps the ring invariant; it never writes a slot the consumer may still read |
| `Spsc.ConsumerKeeps` | include/spsc_queue.hpp:122-131 | every consumer step keeps it; it never reads a slot being written |
| `Spsc.AlwaysSafe` | include/spsc_queue.hpp:110-131 | in every execution what was popped is a prefix of what was pushed, whole and in order, and occupancy stays within capacity |
| `Spsc.RefusalsJustified` | include/spsc_queue.hpp:110-131 | a push is refused only if the ring was full, a pop only if it was empty, as of the counters observed |
| `Spsc.NeverBlocked` | include/spsc_queue.hpp:110-131 | inside an operation there is always a next step, whatever the other side does |
| `Mpmc.StepKeepsInv` | include/mpmc_queue.hpp:73-131 | every critical section, notification, wakeup and close step keeps the queue invariant |
| `Mpmc.AlwaysInv` | include/mpmc_queue.hpp:73-131 | in every execution, while open and a consumer sleeps un-notified, items are at most pending notifications plus woken consumers, likewise producers and free slots; once closed, whoever sleeps still has a closer about to notify |
| `Mpmc.AlwaysFifo` | include/mpmc_queue.hpp:73-119 | accepted items are the delivered ones followed by the buffer; size is at most the watermark and that at most capacity |
| `Mpmc.NobodyStranded` | include/mpmc_queue.hpp:73-131 | when only sleepers remain, consumers sleep only on an empty queue, producers only on a full one, and after close nobody sleeps |
| `Mpmc.ClosedFreezes` | include/mpmc_queue.hpp:121-131 | after close nothing is accepted and the queue stays closed |
| `Mpmc.WatermarkIsPeak` | include/mpmc_queue.hpp:73-94 | the watermark is the largest size the queue ever had |
| `Mpmc.FailsExactlyWhen` | include/mpmc_queue.hpp:71-119 | when each of push, try_push, pop and try_pop fails, as an if and only if, and that a failure moves nothing |
| `Mpmc.PopFailsOnlyWhenDrained` | include/mpmc_queue.hpp:96-107 | a blocking pop fails only when the queue is closed and everything ever accepted was delivered |
| `Mpmc.RunRefines` | include/mpmc_queue.hpp:73-131 | every step of every execution is one event of the simple channel |
| `Partitioned.ShardIndex` | include/partitioned_engine.hpp:246-248 | the masked hash is a shard of this engine, the hash modulo the shard count |
| `PartitionedLaws.StepKeepsInv` | include/partitioned_engine.hpp:135-182 | every step of callers, owners and shutdown keeps the system invariant |
| `PartitionedLaws.AlwaysInv` | include/partitioned_engine.hpp:254-316 | it holds in every state of every execution |
| `PartitionedLaws.SequentialPerSymbol` | include/partitioned_engine.hpp:246-310 | each symbol's engine, reports and trades are those of one sequential engine fed the symbol's commands in queue order, and no other queue holds commands for it |
| `PartitionedLaws.CommandsAreAll` | include/partitioned_engine.hpp:279-310 | those commands are all of the symbol's commands in the queue, each once and in order |
| `PartitionedLaws.ReturnTells` | include/partitioned_engine.hpp:254-266 | a call returns true exactly if its command is in the queue of its symbol's shard |
| `PartitionedLaws.RefusalJustified` | include/partitioned_engine.hpp:254-266 | a call is turned away only by shutdown, or, if it does not wait, by a full queue |
| `PartitionedLaws.ProgramOrder` | include/partitioned_engine.hpp:254-266 | a call that returned before another for the same symbol began is ahead of it in the queue |
| `PartitionedLaws.PromiseSetOnce` | include/partitioned_engine.hpp:135-165 | a promise is set at most once, with the sequential answer if the push succeeded and the shutdown rejection otherwise, the latter only once the engine stopped accepting |
| `PartitionedLaws.IdleMeansDone` | include/partitioned_engine.hpp:167-170 | pending is the exact number of commands in flight, never negative, and zero only if every accepted command is finished |
| `PartitionedLaws.QuiescentCounters` | include/partitioned_engine.hpp:207-222 | at rest submitted equals processed equals accepted plus rejected |
| `PartitionedLaws.ShutdownDrains` | include/partitioned_engine.hpp:172-182 | after shutdown joined its workers every accepted command was processed and every returned future is set |
| `PartitionedQueues.RefinesPartitioned` | include/partitioned_engine.hpp:254-310 | with the locking queues in place of the channels, every step is a step of the abstract engine or invisible to it |
| `PartitionedQueues.SequentialOnQueues` | include/partitioned_engine.hpp:246-310 | on the locking queues too each symbol acts as one sequential engine |
| `PartitionedQueues.PromisesOnQueues` | include/partitioned_engine.hpp:135-165 | there too a promise is set at most once, with the sequential answer or the shutdown rejection |
| `PartitionedQueues.CountsOnQueues` | include/partitioned_engine.hpp:167-182 | there too pending is exact and zero only if all is done, the statistics agree at rest, and a finished shutdown has drained every queue and set every returned future |
| `PartitionedQueues.OrderOnQueues` | include/partitioned_engine.hpp:254-266 | there too a call that returned before another for the same symbol began stays ahead of it |
| `PartitionedQueues.NoDeadlock` | include/partitioned_engine.hpp:172-182 | in every reachable state some thread can move on its own, or every call has returned, every accepted command is finished, nothing is pending, and a shutdown that began has joined every worker |
| `PartitionedWait.ReturnsAtZero` | include/partitioned_engine.hpp:167-170 | a wait returns only from a test that read zero, and at that test every accepted command was done, whatever traffic, spurious wakeups or shutdown came with it |
| `PartitionedWait.WaitCovers` | include/partitioned_engine.hpp:167-170 | when a wait returns, every command whose submission had returned true before the call is finished |
| `PartitionedStrand.WaitMayStrandIff` | include/partitioned_engine.hpp:167-170 | in every reachable state of the engine, a wait about to test can be left asleep with nobody to wake it if and only if some command is pending, has passed the accepting test, or the engine still accepts |
| `PartitionedStrand.FreshEngineStrands` | include/partitioned_engine.hpp:312-316 | from the initial state of every engine some schedule loses the notification for good |
| `PartitionedStrand.StrandedMeansIdle` | include/partitioned_engine.hpp:172-182 | a wait so left sleeps although nothing is pending, every accepted command is finished, every call has returned and no notification is under way |
| `Live.StopLeavesJournal` | apps/matching_engine_main.cpp:208-262 | stopped at any instant, the complete records on file describe the engine as it was or one journaled command further |
| `Live.RestartIffNoTornRecord` | apps/matching_engine_main.cpp:142-150 | a restart from such a file succeeds if and only if its length is a multiple of the record size, and then gives that engine |
| `Live.RestartCanFail` | src/journal.cpp:352-356 | for every session, command and proper part of its record, the stop inside that record leaves a file a restart refuses |
| `Live.PublishedIsJournaled` | docs/persistence.md:30-38 | everything published is a prefix of what the journaled commands produce |
| `Live.ViewerMissesNothing` | apps/market_viewer.cpp:71-150 | the viewer exits only after it received every trade and report of every applied command, once and in order |
| `Live.ViewerCanFinish` | apps/market_viewer.cpp:71-150 | once the engine is done, the viewer can always come to its exit by itself |
| `Live.ViewerInOrder` | apps/market_viewer.cpp:71-106 | at every instant it holds a prefix of them |
| `Live.StepKeepsInv` | apps/matching_engine_main.cpp:208-276 | every step of the process and of the viewer keeps write-ahead order, exact publication and the viewer's views |
| `LiveRings.RefinesLive` | apps/matching_engine_main.cpp:251-254 | with the bounded rings in place of the histories, every step is a step of the abstract process or invisible to it |
| `LiveRings.RingsLoseNothing` | apps/market_viewer.cpp:71-150 | a viewer that exited took from the rings exactly the trades and reports of the applied commands, whole and in order |
| `Histogram.BucketRange` | include/latency_histogram.hpp:72-77 | which values a bucket holds |
| `Histogram.BoundWithinFactorTwo` | include/latency_histogram.hpp:79-82 | the bucket's bound is at least the value, and below twice the value exactly outside zero and the gap between 2^62 and 2^63 |
| `Histogram.BoundIsLargest` | include/latency_histogram.hpp:79-82 | the bound of a bucket lies in it and is its largest value |
| `Histogram.EveryRankHasASample` | include/latency_histogram.hpp:84-94 | every rank up to the count has a sample |
| `Histogram.LatencyHistogram.Record` | include/latency_histogram.hpp:37-53 | called by one thread: buckets, count, wrapped total, minimum and maximum summarise the samples with the new one added |
| `Histogram.LatencyHistogram.PercentileUpperBound` | include/latency_histogram.hpp:84-94 | the bound of the bucket of the sample with the rank; the maximum past the last sample; rank zero is one |
| `Histogram.LatencyHistogram.Percentile` | include/latency_histogram.hpp:84-94 | at least the fraction asked for lies at or below the bound, which belongs to the bucket of a sample with less than that fraction below it |
| `AtomicHistogram.AlwaysInv` | include/latency_histogram.hpp:37-53 | in every interleaving of record calls, buckets, count and wrapped total are those of the calls that passed those steps, and each call past a compare-and-swap loop is within the extreme it raised or lowered |
| `AtomicHistogram.AllRecorded` | include/latency_histogram.hpp:37-53 | once all calls have returned, all five fields are what sequential recording of the same values in some order leaves |

## Left out

- POSIX calls, errno, descriptors and mapped memory: a journal file is a byte string, a write may stop after any byte, a sync may fail; power loss that drops kernel buffers is not modelled.
- Reading errors of the journal (the read call failing) and a missing file, which append mode treats as empty.
- Argument parsing, printing, heartbeats, signals and the wall-clock idle exit: the loop may stop whenever it polls, so it is not claimed to drain its input.
- Floating point: the rank of a percentile is rounded up over the reals, without rounding of the product, and there is no mean.
- The hardware memory model beyond this: a load of the other side's counter returns a value no older than the last one observed, and a release store read by an acquire load makes earlier stores visible.
- The element type's size and alignment, and a ring of capacity zero, which the bit test lets through but the ring never uses.
- Quality of the symbol hash: only that it is a function.
- The legacy sharded engine with its shared workers, which does not promise the order of commands for a symbol; `topLevels`, `bestBid`, `bestAsk` and `depth`, which read off a book whose contents are fully specified here; the trade log, which keeps the last trades of a symbol for display; and the enum tables.
- Changing limits or the kill switch during a run: both are fixed for a run.
- EngineLaws.CountersFit: the reference counts without bound; wrap-around from 2^64 - 1 commands on is not modelled.
- EngineLaws.TotalsFit: wrap-around of a level total in a book of more than 2^32 orders is not modelled.
- OrderBooks.OrderBook: the level maps are sorted sequences and the list iterators of the index are node numbers; allocation and pointer validity are not modelled. Level totals are unbounded; `TotalsFit` bounds them.
- BookAudit.CheckBook: the spread is computed without 64-bit wrap-around.
- Histogram.LatencyHistogram.Record: one thread at a time and at most 2^64 samples; the interleavings of the same steps are in `AtomicHistogram.AllRecorded`.
- PartitionedStrand.WaitMayStrandIff: a spurious wakeup would rescue a sleeping wait, so being stranded means that nothing but one would; the schedules counted contain none. The capacity is positive, as the queue's constructor demands.
- Partitioned: the trade counter, the trade log and the latency record of the owner loop, the snapshot and validate queries, and a constructor whose thread creation fails.
- Live: the shared header counters and the ring that feeds commands in are not modelled; a poll may return any command.
