# Verified model of the trading core

This project models, in Dafny, the deterministic matching state machine of a trading exchange core and
the crash protocols that make its output durable, and proves what they keep.

* **Order book** (`Types`, `Bits`, `Ordered`, `Pool`, `LevelIndex`, `Book`, `Store`, `StoreView`, `OrderBook`).
  A slab of order slots with a free list and tombstones, a 1024-tick price window with a two-level bitmap and
  an ordered overflow map, per-level aggregates, an id index and per-user counters. It stands for a plain book:
  per side, a map from price to the FIFO queue of live orders. Every operation of the class is proved to be the
  same operation on the plain book (`Shows()`).
* **Strategies and matching** (`Strategy`, `ProRata`, `Queues`, `Matching`, `Crossing`, `Priority`, `Prechecks`,
  `SelfTrade`, `Submission`, `Outcome`, `Remainder`, `Export`, `Engine`). The crossing loop as a function of the plain
  book, for every lawful allocation strategy and every self-trade policy; conservation, price, time and size priority,
  budgets, fill-or-kill, where every lot of an order goes, and the engine as a state machine. The class
  `MatchingEngine` runs the loop on the slab-backed book and is proved against that function.
* **Processor** (`Processing`, `Desk`, `Processor`, `Rendering`, `Restore`, `Recovery`, `History`). One shard's
  command processor, the orders its reports can come in, and what a snapshot and a restore keep.
* **What commands mean** (`Narration`, `Arrival`, `Amendment`, `CloseOut`, `Gate`, `Duplicate`, `Ledger`). The same
  processor told from outside: what a new order, an amendment, a cancel and a close-out do to every resting order and
  say in their reports, what halts, suspensions, limits and duplicate suppression hold back over whole runs, and
  positions as net trades.
* **Files** (`Bytes`, `Word`, `Checksum`, `Wire`, `ReportFrame`, `SnapshotFile`, `SavedDesk`, `RecordFile`). Frames,
  checksums and fingerprints, and files of fixed-size records, byte by byte.
* **Crash protocols** (`Journal`, `JournalFile`, `Shard`, `ShardRun`; `Batch`, `Outbox`, `OutboxReader`, `Proof`,
  `OutboxRun`, `OutboxRestart`, `OutboxWriter`, with `Sample` and `OutboxFailure` for concrete runs; `RaftLog`). The
  journal, the execution outbox with its application proofs and its desk, and the durable Raft log as state machines
  over the bytes on disk. A crash cuts the unsynced bytes anywhere, inside a record or a header too, a restart replays
  committed batches on the desk restored from the snapshot, and every claim about recovery ranges over whole runs.
* **Kernels** (`Ring`, `Sharding`, `Kline`, `Arithmetic`). The single-producer single-consumer ring under every
  interleaving, jump consistent hashing behind an invertible mixer, civil-date candle buckets.

Machine integers are written out: prices, quantities and ids are `u64` subset types, sums that the source adds
with overflow checks carry the bound as a precondition, budgets are 128-bit, ring indices, positions and hashes
wrap. Ghost functions (`Cross`, `Submit`, `Process`, ...) are the specifications; methods are proved equal to them.

Where code and documentation disagree the model follows the code, with the failing input and the exact condition:

* A fill-or-kill order is documented as all-or-nothing. The precheck counts the taker's own makers, so under
  self-trade prevention an admitted order can fill partially or not at all (`SelfTrades.PrecheckCountsOwnMakers`);
  `SelfTrades.FillOrKillExact` and `Outcomes.FillOrKill` give the exact condition.
* A budget buy that passed its precheck is documented to fill fully. At budget 0 a free level passes and is not
  taken (`Prechecks.ZeroBudgetPasses`); `SelfTrades.FillOrKillBudgetExact` and `Outcomes.FillOrKillBudget` give the
  exact condition.
* A budget sell is documented as a proceeds floor. A market order ignores its limit and with it the floor, and under
  cancel-maker a fill-or-kill one loses the makers its precheck counted (`Outcomes.MarketSellIgnoresFloor`);
  `Outcomes.BudgetSellExact` gives the exact condition. A market order with a nonzero price is an input of the
  engine's own interface: decoding a frame sets the price of a market order to 0.
* An amendment told as modified with n lots leaves n lots resting, except that prevention may have stopped and dropped
  it after a trade (`Amendments.ModifiedButGone`); `Amendments.ModifiedTellsWhatRests` gives the exact condition.
* A halted instrument and a suspended user take no new orders, but an amendment passes no gate and can trade, and the
  ledger, documented as net positions, does not book its trades (`Amendments.AmendmentTradesUnseen`). `Gates.HaltHolds`
  and `Gates.SuspensionHolds` say what is held back, `Ledgers.LedgerIsNet` what the ledger is the net of.
* Duplicate suppression covers nonzero ids only (`Desks.ZeroIdPassesGate`, `Desks.NewIdIsFresh`).
* The written allocation contract does not require distinct orders, and `validate` accepts an answer that over-fills
  an order (`Matching.ValidateAdmitsOverfill`); `Matching.ValidatedFits` gives the exact condition. `Lawful` adds
  distinctness, and all three strategies have it.
* Recovery is documented as equal to a full replay. A retry whose order no longer rests is forgotten by a snapshot
  (`Restores.RetryIsAccepted`); `Restores.RetryAfterRestore` says exactly when the retry is still refused. With a price
  guard replay reads another price than the live run did (`Histories.ReplayNeedsNoGuard`).
* Journal recovery fails, instead of yielding a prefix, when an id was journaled with two payloads
  (`ShardRuns.ConflictStaysDown`) or a crash tore a header (`ShardRuns.TornTruncation`); `ShardRuns.RestartsExactly`
  gives the exact condition.
* A journal cut inside a record keeps the cut: the writer appends behind it, the reader stops at it, and commands
  synced later are lost (`ShardRuns.CutRecordLoses`); `ShardRuns.EveryRunRecovers` gives the exact condition.
* A crash while a segment header is written leaves a file that cannot be reopened (`OutboxFailures.TornRotation`), and a
  proof written behind a cut one makes the proofs unreadable, so that the next start empties the newest segment
  (`OutboxFailures.CutProofDrops`). Replay is documented as exact. Cancels come in hash-map order
  (`OutboxFailures.ReorderedReplay`), and a snapshot forgets ids that do not rest (`OutboxFailures.RetriedReplay`), so a
  replay can fail its proof. `OutboxRestarts.RestartsExactly` gives the exact condition for a shard to come back,
  `OutboxRestarts.OnePrintsWhen` ties it to close-outs, `OutboxRestarts.RetryShows` says what a forgotten command does,
  and `Renderings.OneStreamExact` says which commands have one report stream.

## Model

| member | source | states |
|---|---|---|
| Bits.TestSet | src/book.rs:179-182 | setting a bit of an occupancy word adds that bit and no other |
| Bits.TestClear | src/book.rs:185-191 | clearing a bit of an occupancy word removes that bit and no other |
| Bits.TrailingZeros | src/book.rs:333-334 | the scan result is a set bit with no set bit below it; 64 exactly for the zero word |
| Bits.LeadingZeros | src/book.rs:344-345 | 63 minus the scan result is a set bit with no set bit above it; 64 exactly for the zero word |
| Bits.DropsLowestBit | src/book.rs:396 | `bits & (bits - 1)` clears the lowest set bit and keeps every other |
| Ordered.BitsAscending | src/book.rs:383-397 | the word loop visits exactly the set bits, each once, from low to high |
| Ordered.BitsDescending | src/book.rs:418-432 | the word loop visits exactly the set bits, each once, from high to low |
| Pools.OrderPool.Alloc | src/book.rs:63-74 | the order lands in a slot that was free or new; every other slot and the rest of the free list are unchanged |
| Pools.OrderPool.PopDeadFront | src/book.rs:268-274 | tombstones leave the front until a live order (or nothing) is there; exactly the popped slots are freed and the live queue is unchanged |
| Pools.OrderPool.Compact | src/book.rs:288-294 | exactly the tombstones leave and are freed; the live queue is unchanged and in order |
| LevelIndexes.ScanMin | src/book.rs:330-338 | the two bit scans find the lowest occupied window level, and the summary word is zero exactly when there is none |
| LevelIndexes.ScanMax | src/book.rs:341-349 | the two bit scans find the highest occupied window level |
| LevelIndexes.LowerIsLowest | src/book.rs:352-361 | the lower of the window minimum and the overflow minimum is the lowest occupied price, none exactly for an empty side |
| LevelIndexes.HigherIsHighest | src/book.rs:364-373 | the higher of the window maximum and the overflow maximum is the highest occupied price |
| LevelIndexes.WalkCovers | src/book.rs:376-406 | overflow below the window, window and overflow above it partition the occupied prices, for every base up to the largest price |
| LevelIndexes.LevelIndex.Push | src/book.rs:195-233 | the price's level gains the slot at its back with exact aggregates, every other level is unchanged, and the bitmap invariant is kept |
| LevelIndexes.LevelIndex.Get | src/book.rs:237-245 | returns the level exactly when it is present and live |
| LevelIndexes.LevelIndex.MinPrice | src/book.rs:352-361 | the true minimum of all occupied prices, in the window or not |
| LevelIndexes.LevelIndex.MaxPrice | src/book.rs:364-373 | the true maximum of all occupied prices |
| LevelIndexes.LevelIndex.PricesAscending | src/book.rs:376-406 | visits exactly the occupied prices in strictly ascending order |
| LevelIndexes.LevelIndex.PricesDescending | src/book.rs:409-439 | visits exactly the occupied prices in strictly descending order |
| LevelIndexes.LevelIndex.MaintainLevel | src/book.rs:264-322 | frees only tombstones, keeps the live queue, drops the level and its bit exactly when nothing lives there, and leaves it tidy |
| LevelIndexes.Reclaim | src/book.rs:267-296 | after the pass the front is live and tombstones number at most max(1022, live) |
| Stores.ShrunkQueues | src/book.rs:856-877 | bringing one live slot down changes its own queue as the plain operation does and no other queue |
| Stores.InsertedQueues | src/book.rs:719-724 | placing an order appends it to its own queue and changes no other |
| Stores.SweptQueues | src/book.rs:259-322 | reclaiming tombstones changes no queue of live orders |
| StoreViews.ViewUsers | src/book.rs:476-504 | the indexed ids of a user, which its open-order counter counts, are exactly the ids resting on the plain book, for every user |
| StoreViews.ViewIds | src/book.rs:447-454 | the id index holds exactly the resting ids, and ids are unique |
| StoreViews.EverySlotOnce | src/book.rs:62-79 | every slab slot is in exactly one place: the free list or one entry of one level queue |
| StoreViews.LevelsAreTidy | src/book.rs:264-322 | every level has a live front, exact quantity and live count, and at most max(1022, live) tombstones |
| OrderBooks.OrderBook.constructor | src/book.rs:465-474 | a new book is valid and shows the empty book |
| OrderBooks.OrderBook.TryInsert | src/book.rs:708-727 | refused exactly for zero quantity or a resting id, without change; otherwise the order joins the back of its queue |
| OrderBooks.OrderBook.Find | src/book.rs:816-819 | returns the resting order with the id, or none exactly when no order has it |
| OrderBooks.OrderBook.Cancel | src/book.rs:850-879 | removes exactly the order with the id from its queue and returns it, or changes nothing |
| OrderBooks.OrderBook.Reduce | src/book.rs:824-846 | lowers the order in place exactly when it rests with at least that quantity; reducing to zero removes it |
| OrderBooks.OrderBook.ApplyFills | src/book.rs:745-813 | the level's queue changes by exactly the fills, in order; filled makers leave |
| OrderBooks.OrderBook.LevelViewCapped | src/book.rs:606-652 | returns the shortest front of the live queue covering the cap, and the book shown is unchanged |
| OrderBooks.OrderBook.BestPrice | src/book.rs:551-556 | the best price of the plain book's side |
| OrderBooks.OrderBook.Ladder | src/book.rs:558-570 | every occupied price of a side, in order of priority |
| OrderBooks.OrderBook.CrossableQty | src/book.rs:680-704 | the sum of the lots at prices within the limit |
| OrderBooks.OrderBook.CostToFill | src/book.rs:656-678 | lots fillable and their exact total cost when taken best level first |
| OrderBooks.OrderBook.IterOrders | src/book.rs:509-511 | every resting order exactly once |
| OrderBooks.OrderBook.OrdersOfUser | src/book.rs:883-889 | the ids of the user's resting orders, each once |
| OrderBooks.OrderBook.UserOpenOrders | src/book.rs:476-478 | the number of the user's resting orders |
| Strategies.Validate | src/strategy/mod.rs:100-142 | accepts exactly the answers that are positive, name the order at their position, do not over-fill it and sum to min(incoming, total) |
| Strategies.GreedyHonours | src/strategy/mod.rs:60-71 | filling distinct positions greedily never over-fills, never repeats an order and spends min(lots, total) |
| Strategies.PriceTimeIsLawful | src/strategy/price_time.rs:25-41 | the FIFO strategy meets the contract, with distinct orders, on every view of live orders |
| Strategies.AllocateFifo | src/strategy/price_time.rs:25-41 | the sweep equals greedy filling in time order |
| Strategies.FifoOnCapped | src/strategy/price_time.rs:21-41 | FIFO allocates from the capped view exactly as from the whole level |
| Strategies.SizeOrderSorted | src/strategy/price_size.rs:35-42 | the size order is sorted by remaining descending, timestamp ascending, position ascending, and loses no lots |
| Strategies.SizePriorityIsLawful | src/strategy/price_size.rs:60-106 | size priority meets the contract, with distinct orders, on every view of live orders |
| Strategies.PopHeap | src/strategy/price_size.rs:92-96 | the popped entry is ahead of every other entry of the heap |
| Strategies.AllocateBySize | src/strategy/price_size.rs:60-106 | the heap loop equals greedy filling over the level sorted by size |
| ProRatas.RoundedIsFair | src/strategy/pro_rata.rs:50-129 | each order gets its floored share or one lot more, never more than its size, the extra lots go to the largest remainders, and the shares sum to the fillable lots |
| ProRatas.ExtraToLargest | src/strategy/pro_rata.rs:95-129 | of two orders of which one got an extra lot, it is the one with the larger remainder, then the earlier timestamp, then the earlier position |
| ProRatas.ProRataIsLawful | src/strategy/pro_rata.rs:50-129 | pro-rata meets the contract, with distinct orders, on every view of live orders |
| ProRatas.AllocateProRata | src/strategy/pro_rata.rs:50-129 | the three passes (floor, largest remainder, emit) equal the proportional answer |
| Queues.FillsFitExact | src/book.rs:763-780 | positive fills pass the over-fill assert one after the other exactly when no order is asked for more in all than it has |
| Matching.ValidatedFits | src/strategy/mod.rs:100-142 | an answer `validate` accepts for a view passes the asserts of the book exactly when its allocations to each position sum to at most the order there |
| Matching.ValidateAdmitsOverfill | src/strategy/mod.rs:100-142 | a concrete accepted answer takes two lots from an order of one and fails the assert |
| Matching.ShownIsFront | src/engine.rs:289-297 | what the strategy is shown is a non-empty live front of the level, enough for the lots wanted: the empty view is unreachable |
| Matching.TradingRound | src/engine.rs:333-380 | a trading round takes exactly min(lots affordable, level total), positive and within the order |
| Matching.AffordableIsPaid | src/engine.rs:283-288 | what the budget affords never costs more than the budget, so the saturating subtraction is exact |
| Matching.RoundProgress | src/engine.rs:266-382 | every round leaves a sound book and lowers the taker's remainder, or the number of resting orders: the loop terminates under every policy |
| Crossings.CrossConserves | src/engine.rs:257-383 | traded plus left is what came in, spent plus budget left is the budget, and the taker's own side is untouched |
| Crossings.MakersConserve | src/engine.rs:349-380 | each maker loses exactly what was traded with it, or was pulled by self-trade prevention |
| Crossings.TradesAreProper | src/engine.rs:299-369 | every trade prints at a resting maker's price within the taker's limit, and with prevention on never has equal users |
| Crossings.PricePriority | src/engine.rs:266-288 | trades go best price first and no level better than a traded price is left |
| Crossings.CrossEnds | src/engine.rs:266-288 | a run that is not stopped ends filled, with nothing to hit, out of limit, or unable to afford one lot |
| Priority.CrossKeepsTime | src/engine.rs:257-383 | crossing keeps every queue strictly sorted by timestamp |
| Priority.TimePriority | src/strategy/price_time.rs:25-41 | under FIFO, once a maker trades every older order at its price is emptied by the end of the run |
| Priority.GreedyInTurn | src/strategy/price_time.rs:25-41 | filling positions in turn gives lots to one only when every one ahead of it is filled |
| Priority.LargestFirst | src/strategy/price_size.rs:35-106 | under size priority an order gets lots only when every larger one of its level is filled, among equals every earlier one |
| Prechecks.OrdinaryIsAmple | src/engine.rs:199-200 | the 128-bit budget of an ordinary order covers any quantity at any price |
| Prechecks.FillsWhatIsCrossable | src/engine.rs:257-383 | an ordinary order without own makers fills exactly min(quantity, crossable lots): the budget never binds |
| Prechecks.ZeroBudgetPasses | src/engine.rs:221-225 | under every policy a concrete budget-0 buy passes the precheck and fills nothing |
| Prechecks.BudgetBuyEnds | src/engine.rs:283-288 | a budget buy never overspends and stops only when filled, stopped, out of book, or one more lot at the best price is unaffordable |
| Prechecks.BudgetSellEarns | src/engine.rs:206-214 | a limit budget sell that fills completely earns at least its budget |
| SelfTrades.CancelMakerIsAbsence | src/engine.rs:299-324 | under cancel-maker the taker makes exactly the trades it would make if its user had nothing resting on the side hit, for every buy and for every sell with the unlimited budget sells are given |
| SelfTrades.NotStoppedIsAllowed | src/engine.rs:299-324 | under cancel-taker and cancel-both a run that is not stopped is the run without prevention |
| SelfTrades.StoppedWhen | src/engine.rs:299-324 | under cancel-taker and cancel-both an order that would fill is stopped exactly when fewer lots lie ahead of the first own maker shown than it needs |
| SelfTrades.StoppedExactly | src/engine.rs:299-324 | an ordinary order is stopped exactly when an own maker lies within its limit and fewer lots lie ahead of it than the order wants |
| SelfTrades.StoppedTrades | src/engine.rs:299-324 | a stopped order has taken exactly the whole levels ahead of the level of its first own maker |
| SelfTrades.StoppedPulls | src/engine.rs:299-324 | cancel-taker pulls no maker; cancel-both pulls makers exactly when it stops the taker |
| SelfTrades.PulledWereOwn | src/engine.rs:306-316 | every maker prevention pulls rested on the side hit and is the taker's own |
| SelfTrades.FillOrKillExact | src/engine.rs:231-251 | an ordinary order fills completely exactly when the lots its policy leaves it cover it |
| SelfTrades.FillOrKillBudgetExact | src/engine.rs:217-251 | the same for a budget buy, with the budget covering those lots |
| SelfTrades.PrecheckCountsOwnMakers | src/engine.rs:231-236 | under every preventing policy a concrete order passes the fill-or-kill precheck and stays unfilled |
| Submissions.SubmitConserves | src/engine.rs:189-251 | filled is what traded; if something rests, filled plus rested is the quantity; if not, nothing of the order rests and its side is untouched; each status fits the filled lots; Remainders.RemainderRests says exactly when and where it rests |
| Submissions.LeftOverIsClear | src/engine.rs:266-281 | what is left of an ordinary limit order crosses nothing that still rests |
| Submissions.SubmittingKeeps | src/engine.rs:189-251 | a submission keeps the engine invariant: sound, uncrossed, time-ordered, stamps up to the counter |
| Submissions.StepKeeps | src/engine.rs:114-251 | entries, cancels, amendments and user-wide cancels keep the engine invariant |
| Submissions.ReachableStates | src/engine.rs:43-422 | in every state reachable from the empty engine best bid is below best ask, queues are in strict time order, ids are unique and only unfilled good-till-cancel limits rest |
| Outcomes.FillOrKill | src/engine.rs:231-251 | a fill-or-kill order (or budget sell) ends rejected or filled exactly when it is not admitted or the available lots cover it; always when no own maker rests opposite |
| Outcomes.FillOrKillBudget | src/engine.rs:217-251 | for every policy and user, a fill-or-kill budget buy ends rejected or filled exactly when the precheck fails, it asks for nothing, or its positive budget buys the lots its policy leaves it |
| Outcomes.TradesWithin | src/engine.rs:231-236 | while enough lots rest at a floor or better, a taker that pulls no maker trades at the floor or better only |
| Outcomes.BudgetsHold | src/engine.rs:199-236 | a budget buy spends at most its budget; a budget sell that fills under a binding floor (limit, or no floor, or fill-or-kill without cancel-maker) earns at least its budget |
| Outcomes.MarketSellIgnoresFloor | src/engine.rs:203-236 | every budget sell whose floor does not bind, fill-or-kill or not, has a book on which it fills and earns nothing |
| Outcomes.BudgetSellExact | src/engine.rs:203-236 | a budget sell of some quantity earns its budget whenever it fills, on every book, exactly when its floor binds |
| Outcomes.SubmissionTrades | src/engine.rs:189-383 | over a whole submission: best price first, proper trades only, makers lose exactly what they traded |
| Outcomes.ReductionKeepsPlace | src/engine.rs:151-162 | a reduction at the same price keeps the order's position and every other order of its queue |
| Outcomes.RestsAtBack | src/engine.rs:385-418 | what rests goes to the back of its queue with the newest stamp, behind older orders only |
| Remainders.RemainderRests | src/engine.rs:386-421 | a good-till-cancel limit rests, at its own price and nowhere else, exactly what it did not trade, unless prevention stops it; no other order leaves anything |
| Remainders.TradesWhatIsThere | src/engine.rs:189-383 | an order without a budget trades exactly the lots the book showed beforehand, under every policy: nothing when refused, the levels ahead of an own maker when stopped, else what is crossable up to its quantity |
| Remainders.StatusMeans | src/engine.rs:386-421 | the status of every submission, budgets included, by its precheck, the lots traded and whether it rests |
| Remainders.Bystanders | src/engine.rs:257-383 | each order resting before a submission: untouched on the taker's side, less exactly what it traded on the other, own makers under prevention whole or pulled and never traded with |
| Exports.RestoreExported | src/engine.rs:90-105 | re-inserting the orders sorted by stamp rebuilds exactly the exported book |
| Exports.ExportedIsRestorable | src/engine.rs:96-105 | what a book whose counts fit their counters exports can be re-inserted order by order |
| MatchingEngines.Execute | src/engine.rs:349-373 | the allocation loop produces exactly the trades, the fills, the remainder and the budget of the round |
| MatchingEngines.MatchingEngine.constructor | src/engine.rs:54-69 | a new engine is valid and empty, with its counter at 0 |
| MatchingEngines.MatchingEngine.PullOwn | src/engine.rs:306-316 | the user's makers of a view leave, front to back, and are noted in that order |
| MatchingEngines.MatchingEngine.CrossBook | src/engine.rs:257-383 | the loop on the slab-backed book ends in exactly the book, remainder, budget, trades and cancels of the crossing function |
| MatchingEngines.MatchingEngine.Prepare | src/engine.rs:194-236 | stamping, budget conversion and prechecks give exactly the specified ticket |
| MatchingEngines.MatchingEngine.Finalize | src/engine.rs:386-421 | the remainder rests or is dropped, with exactly the specified report |
| MatchingEngines.MatchingEngine.SubmitInto | src/engine.rs:189-251 | book and report after a submission are exactly those of the submission function, fixed by Remainders.RemainderRests, Remainders.TradesWhatIsThere, Remainders.StatusMeans and Remainders.Bystanders |
| MatchingEngines.MatchingEngine.CancelOrder | src/engine.rs:133-135 | the engine makes the cancel step; true exactly when the id rested |
| MatchingEngines.MatchingEngine.Modify | src/engine.rs:145-171 | the engine makes the amend step and reports what became of the order; Amendments.ReducedInPlace and Amendments.AmendedLots say what that step is |
| MatchingEngines.MatchingEngine.CancelAllForUser | src/engine.rs:114-120 | exactly the user's orders leave, whatever order they are listed in |
| MatchingEngines.MatchingEngine.ExportOrders | src/engine.rs:90-94 | every resting order once, sorted by stamp |
| MatchingEngines.MatchingEngine.Restore | src/engine.rs:99-105 | a fresh engine becomes the one rebuilt from the list, at the given sequence |
| Processing.VettedKeeps | src/risk.rs:87-117 | banding keeps id, user, side, quantity and instrument, and never makes an order rest that would not have |
| Desks.NewIdIsFresh | src/exchange.rs:999-1008 | a new order with a nonzero id that passes the duplicate gate has an id that rests nowhere: the duplicate-insert panic is unreachable |
| Desks.ZeroIdPassesGate | src/exchange.rs:1000-1008 | a concrete order with id 0 rests and passes the duplicate gate again while it rests |
| Desks.SubmittingOk | src/exchange.rs:1237-1252 | a submission below the cap keeps the open-order cap and rests only noted ids |
| Desks.RequoteOk | src/engine.rs:164-170 | a requote leaves its place before taking a new one, so the cap still holds |
| Desks.ProcessKeeps | src/exchange.rs:999-1187 | every command keeps the desk invariant: sound uncrossed books, resting ids noted, users within the cap |
| Desks.ReachableDesks | src/exchange.rs:999-1325 | over every run from a new processor: resting ids are noted, users within the cap, books sound, uncrossed, in time order |
| Narrations.TradesTold | src/exchange.rs:1276-1299 | one trade report for each trade, in order, with both ids, side, price, lots and the fees of price and lots; the lots told are those traded, in all and with each maker |
| Narrations.SubmissionTold | src/exchange.rs:1255-1325 | a submission is told accepted first and by its outcome last, with exactly its trades between |
| Narrations.CancelsTold | src/exchange.rs:1266-1274 | the makers told cancelled are exactly those prevention pulled |
| Arrivals.ArrivalLots | src/exchange.rs:1192-1325 | a good-till-cancel limit past the gates rests, at its price, all lots not told as traded, unless prevention stops it; any other order leaves nothing |
| Arrivals.ArrivalTold | src/exchange.rs:1255-1325 | the lots told are those the book showed; the last report is rejected, filled, partially filled with those lots, resting or cancelled, by exact conditions |
| Arrivals.ArrivalTrades | src/exchange.rs:1276-1299 | every trade told names the order as taker on its side, with its fees, at a price within its limit |
| Arrivals.ArrivalOthers | src/exchange.rs:1255-1299 | each maker loses exactly the lots it is told to have traded; an own maker under prevention is gone exactly when it is told cancelled; every other order keeps its lots |
| Gates.GateExactly | src/exchange.rs:1196-1238 | an order passes only off a halt, off a suspension and within quantity and notional limits, and each refusal names the first gate shut, exactly |
| Gates.GuardExactly | src/risk.rs:75-117 | what the guard passes is within the band as an inequality of price, reference and basis points; it changes only market orders, into limits that never rest; refusal is exact while reference times band fits the word |
| Gates.ProtectedAtEdge | src/risk.rs:105-116 | a protected market order has the last price at which a limit order would pass |
| Gates.ReachesBook | src/exchange.rs:1192-1260 | an order is told accepted only within every limit and under the open-order cap; otherwise it is refused in one report and no book or position changes |
| Gates.SwitchTakesHold | src/exchange.rs:1057-1085 | a halt or suspension that is no repeat takes hold of exactly its instrument or user, a resume lifts it, and each is told |
| Gates.HaltHolds | src/exchange.rs:1196-1206 | over every run without a resume no position on a halted instrument moves, each new order and close-out there is refused as halted, and only amendments may tell trades |
| Gates.HaltedBookShrinks | src/exchange.rs:1196-1206 | over every such run without amendments the halted book only loses orders and lots and its sequence stands still |
| Gates.SuspensionHolds | src/exchange.rs:1207-1215 | over every run without a reinstatement a suspended user gets no new resting order on any book, and each of their new orders and close-outs is refused |
| Gates.OtherBooks | src/exchange.rs:1057-1187 | a command leaves the books of other instruments alone |
| Amendments.CancelExactly | src/engine.rs:133-135 | a cancel takes all lots of the named order and of no other, and changes nothing when it does not rest |
| Amendments.ReducedInPlace | src/engine.rs:151-162 | an amendment at the same price to no more lots leaves the order at its position with the new lots, and every other order as it is |
| Amendments.AmendedLots | src/engine.rs:164-170 | after any other amendment the order rests at the new price and nowhere else, with the new quantity less the lots told as traded, unless prevention stops it; every trade told is within the new price |
| Amendments.AmendedOthers | src/engine.rs:164-170 | an amendment takes from each maker exactly the lots it is told to have traded and leaves its own side alone; own makers under prevention trade nothing |
| Amendments.AmendedPlace | src/engine.rs:164-170 | what rests of an amended order is at the back of the queue at the new price, with the newest stamp, behind older orders |
| Amendments.AmendedReport | src/exchange.rs:1130-1162 | an amendment tells its trades, of exactly the lots the book showed, and then filled, cancelled or modified by exact conditions |
| Amendments.ModifiedTellsWhatRests | src/exchange.rs:1142-1160 | an order told modified with n lots has n lots resting exactly when prevention did not stop it after a trade |
| Amendments.ModifiedButGone | src/exchange.rs:1142-1160 | a concrete quote moved through another's ask into an own one is told modified with four lots while nothing of it rests |
| Amendments.AmendmentTradesUnseen | src/exchange.rs:1103-1162 | a concrete amendment on a halted instrument by a suspended user tells lots traded and moves no position |
| Amendments.ModifyOnDesk | src/exchange.rs:1103-1162 | a modify command that finds its order changes that one book as the amendment does and nothing else, positions included |
| Amendments.ModifyInPlaceOnDesk | src/exchange.rs:1115-1130 | a modify that leaves the order in place tells the new lots, or that it is cancelled at zero |
| Amendments.NotFoundOnDesk | src/exchange.rs:1086-1114 | a cancel or modify of an order that does not rest changes no book and says so |
| Amendments.CancelOnDesk | src/exchange.rs:1086-1101 | a cancel command takes exactly the named order and tells cancelled exactly when it rested |
| CloseOuts.ClearedExactly | src/engine.rs:114-120 | clearing a user removes exactly their orders, on both sides |
| CloseOuts.CloseOutTrades | src/exchange.rs:1165-1187 | past the gates a force-close tells the cancelled ids first, leaves nothing of the user's resting, trades only as the close id on the close side, and takes min(lots asked, lots in reach once the user is cleared) |
| CloseOuts.CloseOutOthers | src/exchange.rs:1165-1187 | every other user's order keeps its lots less exactly what it is told to have traded |
| CloseOuts.PlainCloseOut | src/exchange.rs:1165-1187 | with no halt, suspension, binding quantity limit or guard every lot on the other side is in reach |
| CloseOuts.OnlyClears | src/exchange.rs:1165-1187 | a force-close of no lots, or refused by a gate, still clears the user and moves no position |
| CloseOuts.CloseOutMoves | src/exchange.rs:1165-1187 | the user's position moves by exactly the lots told, towards the close side |
| CloseOuts.Flattens | src/exchange.rs:1165-1187 | closing the whole position against enough lots leaves position 0 and nothing resting |
| Ledgers.BookedExactly | src/exchange.rs:1276-1290 | booking trades moves each user by lots bought less lots sold, on this instrument only, as a wrapped 64-bit number; user 0 is not booked |
| Ledgers.NewOrderMoves | src/exchange.rs:1192-1300 | a new order moves every user by what its trades bought and sold, and tells exactly those lots |
| Ledgers.LedgerIsNet | src/exchange.rs:1276-1290 | over every run a position is where it started plus all lots bought less all lots sold by the orders entered there, wrapped |
| Duplicates.RepeatsExactly | src/exchange.rs:999-1056 | over every run from a new processor a command is told a duplicate exactly when its id is nonzero and an earlier command carries it or, with the marks on, an earlier command of its stream that was no duplicate carries one as high |
| Duplicates.StreamsRise | src/exchange.rs:1009-1056 | with the marks on, the nonzero ids a stream gets through only rise, new orders and other commands apart |
| Restores.EnginesComeBack | src/exchange.rs:928-963 | the engines restored from a captured list equal the captured engines |
| Restores.RestoredIsAlike | src/exchange.rs:943-963 | a restored processor agrees on engines, cursors, halts, suspensions and positions, and notes exactly the resting ids |
| Restores.ProcessAlike | src/exchange.rs:999-1187 | a command the duplicate gates of two alike desks treat alike gets equal reports, leaves them alike, and leaves the gates agreeing on every other command |
| Restores.RecalledExact | src/exchange.rs:953-959 | a command is recalled exactly when the duplicate gates of the desk and of the desk restored from its snapshot treat it alike |
| Restores.RestoreIsBisimilar | src/exchange.rs:928-963 | after capture and restore every run of commands that are recalled (a new id, an order that rests, or an id the monotonic gate catches) gives equal reports and alike states |
| Restores.RetryAfterRestore | src/exchange.rs:953-959 | a repeated command is refused after a restore too exactly when its order rests or the cursor of its stream catches it |
| Restores.RetryIsAccepted | src/exchange.rs:953-959 | a concrete order processed by a new processor leaves nothing resting; its retry is refused before the snapshot and accepted after the restore |
| Processors.Processor.constructor | src/exchange.rs:848-866 | a new processor stands for the new desk |
| Processors.Processor.EngineFor | src/exchange.rs:900-907 | returns the instrument's engine, creating an empty one on first use, and changes no other |
| Processors.Processor.ProcessNew | src/exchange.rs:1192-1325 | state and reports are exactly those of the new-order function: gates in order, submission, positions, reports; Gates.ReachesBook, Arrivals.ArrivalLots, Arrivals.ArrivalTold and Ledgers.NewOrderMoves say what they are |
| Processors.Processor.ProcessModify | src/exchange.rs:1099-1162 | state and reports are exactly those of the amendment |
| Processors.Processor.Perform | src/exchange.rs:1057-1187 | a command past the gates yields the specified desk and a rendering of the specified reports; Amendments.ModifyOnDesk, Amendments.CancelOnDesk, CloseOuts.CloseOutTrades and Gates.SwitchTakesHold say what they are |
| Processors.Processor.Process | src/exchange.rs:999-1187 | a command yields the specified desk and a rendering of the specified reports, duplicates refused |
| Processors.InvariantAdmits | src/exchange.rs:999-1325 | on every reachable desk a command within the machine limits, with a nonzero id if it is a new order, meets every precondition, including the fresh insert id |
| Renderings.OneRenderingExact | src/exchange.rs:1171-1177 | what a command tells has one rendering exactly when no block of cancels holds two ids |
| Renderings.OneStreamExact | src/exchange.rs:1057-1187 | on every sound desk a command has one correct report stream exactly when it is not a force-close, past the gates, of a user with two or more resting orders |
| Renderings.RendersConcat | src/exchange.rs:1744-1748 | renderings of several commands in a row render what the commands tell in a row |
| Batches.BatchSettled | src/exchange.rs:1744-1748 | on every desk a batch has one report stream exactly when none of its commands, on the desk it meets, closes out a user with two orders or more |
| ReportFrames.CancelOrderShows | src/exchange.rs:2231-2242 | the fingerprint of a report stream tells two orders of the same two cancels apart |
| Recoveries.ExportState | src/exchange.rs:928-940 | every engine once, ordered by instrument, with its counter and its orders sorted by stamp |
| Recoveries.RestoreState | src/exchange.rs:943-963 | a new processor becomes exactly the restored desk |
| Recoveries.CapturedIsInstallable | src/exchange.rs:943-963 | what a reachable desk with counts within their counters exports meets the preconditions of the restore |
| Bytes.LeRoundTrip | src/wire.rs:139-146 | little-endian encoding of a number in range decodes to it |
| Bytes.FromLeRoundTrip | src/wire.rs:139-146 | every byte string is the little-endian encoding of its value |
| Checksums.SealedIsIntact | src/journal.rs:55-62 | bytes closed with their checksum pass the integrity test |
| Checksums.MixInjective | src/journal.rs:55-62 | absorbing the same bytes keeps two different hash states different |
| Checksums.OneByteDiffers | src/journal.rs:55-62 | texts that differ in one byte have different checksums |
| Wire.WireRoundTrip | src/wire.rs:196-389 | a command survives encode and decode exactly when its order is not yet accepted (and a market order carries the sentinel price) |
| Wire.DecodedIsSendable | src/wire.rs:196-249 | whatever a frame decodes to encodes and decodes to itself |
| Wire.EncodeInjective | src/wire.rs:344-389 | two sendable commands with equal frames are equal |
| Wire.EncodeCommand | src/wire.rs:344-404 | the in-place encoder fills the buffer with exactly the frame |
| Wire.BatchRoundTrip | src/wire.rs:54-90 | a batch of up to 10000 sendable commands decodes to exactly those commands and is never taken for a single frame |
| Wire.EntriesExactly | src/wire.rs:54-90 | an entry decodes exactly when it is one frame of a command or the batch entry of up to 10000 such frames, to their commands in order |
| Wire.LegacyRoundTrip | src/wire.rs:70-73 | a legacy entry decodes to its one command and equals no batch entry |
| SnapshotFiles.OrderRoundTrip | src/snapshot.rs:46-95 | every order survives its 56-byte encoding |
| SnapshotFiles.SnapshotRoundTrip | src/snapshot.rs:141-330 | every snapshot whose counts fit their fields loads back unchanged |
| SnapshotFiles.LegacyLoads | src/snapshot.rs:254-330 | a version-3 file loads as the same snapshot at Raft index 0 and restores the same desk |
| SnapshotFiles.Build | src/snapshot.rs:141-175 | the buffer built by successive appends is exactly the file |
| SnapshotFiles.TakeAll | src/snapshot.rs:271-274 | the reading loop equals the recursive parser, failing where it fails |
| SavedDesks.ReachedFits | src/exchange.rs:2005-2010 | every run keeps positions within what the file can hold |
| SavedDesks.SavedAndRestored | src/exchange.rs:1992-2024 | run, capture, write, load, restore: the file of every reachable desk loads, and every later run of recalled commands gives the same reports and alike states |
| Histories.ProcessSeen | src/exchange.rs:999-1008 | a command's nonzero id is noted whatever becomes of the command, no other id is, and the cursors of the streams only move up |
| Histories.RepeatChangesNothing | src/exchange.rs:1000-1008 | a command already noted leaves the state unchanged |
| Histories.ReferenceIrrelevant | src/risk.rs:87-117 | without a price guard the reference price changes neither state nor reports |
| Histories.GuardForks | src/risk.rs:87-117 | with any guard a concrete command leaves different states under two reference prices |
| Histories.ReplayNeedsNoGuard | src/exchange.rs:2147-2169 | replay is sure to agree with the live run whatever the price feed said exactly when no guard is configured |
| Journals.ReplayIsRun | src/exchange.rs:2147-2191 | replaying the records of a conflict-free stretch is running its commands: skipped retries change nothing |
| Journals.ReplayFailsOnConflict | src/exchange.rs:2171-2191 | replay fails exactly when some id comes back with another payload |
| Journals.RecoveredExact | src/exchange.rs:2135-2169 | recovery from a snapshot and a journal of the same history succeeds exactly without conflicting payloads, and then yields its desk and its last number |
| JournalFiles.RecReads | src/journal.rs:172-181 | a written record is intact and reads back as it was |
| JournalFiles.ReadsHeld | src/journal.rs:351-385 | a journal file, whatever was cut, reads as its whole records in front of the first cut, and opens exactly when its header is absent or whole |
| JournalFiles.ReachedAppends | src/journal.rs:172-187 | whatever part of the pending bytes reaches the file, the result is the file with that part appended |
| JournalFiles.ReadAll | src/journal.rs:351-385 | the reading loop equals the specified reading |
| JournalFiles.SomeStampShows | src/journal.rs:172-181 | for any bytes behind a cut record some timestamp leaves them failing the checksum |
| ShardRuns.CrashDisk | src/exchange.rs:1545-1566 | whatever a crash leaves of the unsynced bytes, the disk stands for a prefix of the history; it loses nothing durable unless a cut record is already in the file, and then falls back to that cut or to the snapshot |
| ShardRuns.Restarts | src/exchange.rs:2135-2169 | a restart succeeds exactly with a whole or absent header and no conflicting payloads beyond the snapshot, and continues at the desk and number of the history |
| ShardRuns.NextKeeps | src/exchange.rs:1545-1566 | commands, syncs, snapshots, truncations, restarts and crashes, inside truncation and start-up too, keep the shard invariant |
| ShardRuns.EveryRunRecovers | src/exchange.rs:1545-1566 | in every state of every run the desk is the one its commands lead to, journal numbers strictly increase, and a crash at any byte leaves a prefix that holds everything durable exactly when nothing was synced behind a cut record |
| ShardRuns.HeaderTornWhen | src/journal.rs:101-119 | over every run the journal header is torn exactly when some crash hit the writing of a header after its first and before its last byte |
| ShardRuns.RestartsExactly | src/exchange.rs:2135-2191 | over every run a restart succeeds exactly when no crash tore a header and no id beyond the snapshot came with two payloads, and then the desk is that of the history |
| ShardRuns.ConflictStaysDown | src/exchange.rs:2171-2191 | a concrete run journals one id with two payloads; after a crash no restart succeeds |
| ShardRuns.CutRecordLoses | src/journal.rs:343-385 | a concrete run syncs a command behind a cut record and loses it in the next crash |
| ShardRuns.TornTruncation | src/journal.rs:158-168 | from every running state with a fresh snapshot, a crash inside the truncation can be restarted from exactly when none or all of the header was written |
| Shards.JournalWriter.Append | src/journal.rs:172-187 | the record gets the next number and joins the pending bytes, handed to the system after 8192 records or when the interval is over |
| Shards.JournalWriter.SyncData | src/journal.rs:209-217 | every pending byte reaches the disk, behind what was there |
| Shards.JournalWriter.Truncate | src/journal.rs:158-168 | the file is exactly a stamped, synced, empty journal and the counter keeps counting |
| Shards.ReplayTail | src/exchange.rs:2147-2169 | the recovery loop on a processor ends in exactly the replayed desk, or fails exactly when replay does |
| Shards.SkipCovered | src/exchange.rs:2148-2152 | the loop drops exactly the records the snapshot covers and finds the highest number |
| Shards.RecoverStats | src/exchange.rs:2135-2169 | restore and replay on a new processor end in exactly the recovered desk and number, or fail exactly when recovery does |
| Outboxes.RecordReads | src/execution_outbox.rs:432-441 | a written record is intact and carries its Raft index |
| OutboxReaders.ReportRoundTrip | src/wire.rs:411-646 | every report is read back from its frame, kind, side, instrument, ids, price, lots and both fees, but for the reason of a rejection |
| OutboxReaders.FramesTellApart | src/wire.rs:411-525 | two reports have equal frames exactly when they differ at most in the reason of a rejection |
| OutboxReaders.RecordReadsBack | src/execution_outbox.rs:432-527 | a written record reads back with its group, index, ordinal and frame |
| OutboxReaders.ScanBatch | src/execution_outbox.rs:494-527 | the records of a batch read back in order, ordinals counting from 0, and reading goes on behind them |
| OutboxReaders.OutboxTells | src/execution_outbox.rs:432-527 | the records of applied batches read back as exactly their reports, in order, each with its batch index |
| OutboxReaders.ReadBatch | src/execution_outbox.rs:494-527 | the reading loop returns up to the asked number of the records from the offset, up to the first cut or spoilt one |
| OutboxReaders.ScanBehind | src/execution_outbox.rs:529-553 | reading on behind acknowledged records skips none and repeats none |
| Outboxes.TruncateAfterApplied | src/execution_outbox.rs:383-430 | the trimming loop keeps the header and exactly the leading whole, intact records up to the watermark |
| Outboxes.KeptLog | src/execution_outbox.rs:383-430 | trimming at a watermark keeps every record of the batches up to it and goes on behind them |
| Outboxes.HeaderReopens | src/execution_outbox.rs:150-179 | a segment header cut short reopens exactly when none or all of it is there |
| Proofs.ProofReads | src/asset_log.rs:300-305 | a written proof is intact and reads back as it was |
| Proofs.ReplayCanFail | src/asset_log.rs:362-380 | two correct renderings of one block of two cancels, one of which fails the proof of the other |
| Proofs.MarkAppends | src/asset_log.rs:285-307 | marking appends the proof, behind a header in a new file, whatever part of it reaches the disk |
| Proofs.LoadedExact | src/asset_log.rs:311-357 | loading succeeds exactly on a file whose header is whole and in which nothing a record long stands behind a cut proof, and yields the whole proofs |
| Proofs.LoadProofs | src/asset_log.rs:311-357 | the loading loop equals the specified loading |
| OutboxRuns.Starts | src/exchange.rs:700-728 | what a start makes of the files: it stays down on a torn header, empties the newest segment and stays down on unreadable proofs, and otherwise trims to exactly the marked batches and restores the snapshot |
| OutboxRuns.WatermarkIsHighest | src/exchange.rs:710-716 | the watermark is the highest index proven |
| OutboxRuns.NextKeeps | src/exchange.rs:1729-1903 | start, replay against the proofs, apply, sync, mark, rotation, snapshot, and crashes inside the batch, the mark, the rotation, the replays and the start keep the invariant of files, memory and desks |
| OutboxRuns.ExactlyOnce | src/exchange.rs:702-726 | over every run, whenever the shard is between batches the outbox across segments is exactly the records of the marked batches, in order, once each, each with the reports of the step that applied it |
| OutboxRuns.SpoiledWhen | src/execution_outbox.rs:150-163 | over every run a segment header is torn exactly when a crash hit its writing, and the proofs are unreadable exactly when a crash cut their header or a proof was written behind a cut one |
| OutboxRuns.DroppedContents | src/exchange.rs:710-714 | after a start with unreadable proofs the shard is down and only sealed segments are left |
| OutboxRuns.OnlyNewestIsTrimmed | src/execution_outbox.rs:216-252 | the sealed segments hold nothing past the watermark |
| OutboxRestarts.TellAlike | src/exchange.rs:1744-1748 | two desks that are alike, with duplicate gates that agree on a batch, tell the same, stay alike and go on agreeing |
| OutboxRestarts.SnapshotSame | src/exchange.rs:2036-2041 | the desk restored from a snapshot is as good as the one of a shard that was never down, for every later batch of recalled commands |
| OutboxRestarts.NeverDown | src/exchange.rs:1729-1903 | over every run whose snapshots recall the commands behind them, whatever the crashes and restarts, every marked batch rendered what its commands tell a shard that was never down, and the desk is alike to that shard's |
| OutboxRestarts.ReplayPasses | src/exchange.rs:1739-1756 | a replay passes its proof exactly when it has the fingerprint of the first run, and then goes on to the next batch |
| OutboxRestarts.ThroughExactly | src/exchange.rs:1739-1756 | a started shard gets through its replays, whatever order they come in, exactly when every batch to be replayed has one fingerprint |
| OutboxRestarts.RestartRuns | src/bin/raft_node.rs:265-325 | a start and the replays behind it, up to the first that fails, are a stretch of a run |
| OutboxRestarts.RestartsExactly | src/exchange.rs:700-728 | over every such run a shard that is down comes back, whatever order its reports come in, exactly when no crash tore a segment header, none spoiled the proofs, and every batch it replays has one fingerprint over all its orders |
| OutboxRestarts.OnePrintsWhen | src/exchange.rs:1739-1756 | batches have one fingerprint when no command closes out a user with two orders or more, and only then where a batch with several orders has two that differ in the fingerprint |
| OutboxRestarts.RetryShows | src/exchange.rs:953-959 | a command refused as a duplicate gives the same bytes on the restored desk exactly when that desk refuses it too, as it does when the order rests |
| OutboxFailures.TornRotation | src/execution_outbox.rs:150-179 | a concrete run marks one batch and crashes three bytes into the header of the next segment; no restart succeeds |
| OutboxFailures.CutProofDrops | src/asset_log.rs:311-357 | a concrete run crashes inside a mark, restarts, marks two batches, and the next start drops the report of a marked batch |
| OutboxFailures.ReorderedReplay | src/exchange.rs:1739-1756 | a concrete run without torn files rests two orders, closes their user out, and does not come back when the replay lists the cancels in the other order |
| OutboxFailures.RetriedReplay | src/exchange.rs:953-959 | a concrete run without torn files and force-closes processes an order, takes a snapshot and refuses the order when it comes again; no restart succeeds, because the restored desk accepts it |
| OutboxWriters.OutboxWriter.MaybeRotate | src/execution_outbox.rs:224-252 | rotates exactly when the size limit is reached, sealing everything written |
| OutboxWriters.OutboxWriter.RecordBatch | src/exchange.rs:1926-1970 | appends exactly the batch's records in ordinal order, without a barrier; OutboxReaders.OutboxTells reads the reports back from them |
| OutboxWriters.OutboxWriter.MarkApplied | src/asset_log.rs:285-307 | appends exactly the proof, behind a header in a new file, and leaves the outbox alone |
| OutboxWriters.ProcessAll | src/exchange.rs:1744-1748 | the loop leaves the processor at the desk behind the batch and returns a rendering of what the batch tells |
| OutboxWriters.OutboxWriter.WriteBatch | src/exchange.rs:1758-1903 | records, sync, proof, rotation, in that order: one more batch marked and the invariant kept |
| OutboxWriters.OutboxWriter.HandleCommitted | src/exchange.rs:1729-1903 | one committed batch on a processor: with a proof it is processed again and passes exactly when the proof does, the files untouched; without one the files go from invariant to invariant with one more batch marked, in a rendering of what its commands tell |
| RaftLogs.CutScan | src/raft_log.rs:173-233 | a record stream cut anywhere reads as exactly its whole records |
| RaftLogs.FoldEntries | src/raft_log.rs:384-407 | replaying entries drops the suffix they overwrite and leaves no gap |
| RaftLogs.CutRecovers | src/raft_log.rs:147-262 | for any cut of an unsynced append reopening recovers exactly the whole records, contiguous, commit within the log, file cut behind the last whole record |
| RaftLogs.CompactionRecovers | src/raft_log.rs:289-339 | compaction at k recovers the same hard state, the snapshot and exactly the redelivered commands above k |
| RaftLogs.DeliveredExactly | src/raft_log.rs:525-541 | delivered again are exactly the committed application entries above the snapshot that carry data |
| RaftLogs.DeliveredInOrder | src/raft_log.rs:525-541 | they come in the order of their indices, each once |
| RaftLogs.ReopenedIsFit | src/raft_log.rs:147-262 | whatever bytes the file holds, a log that reopens has no gap, nothing at or below its snapshot, and its commit within it |
| RaftLogs.EveryRunReopens | src/raft_log.rs:147-347 | in every state of every run of appends, commit advances, compactions and crashes the file reopens to the entries and snapshot in memory, commit not past it |
| RaftLogs.Open | src/raft_log.rs:147-262 | the recovery loop equals the specified reopening: torn tail cut, corruption, gaps and a commit past the end refused |
| RaftLogs.ReadsBackExactly | src/raft_log.rs:173-233 | a written record stream is read back exactly when every payload is at most 16 MiB |
| RaftLogs.ReopensExactly | src/raft_log.rs:147-262 | the file of every good log reopens exactly when every payload is at most 16 MiB |
| Rings.CapacityIs | src/lockfree.rs:39-52 | the capacity is a power of two, at least 2 and at least what was asked, less than twice that |
| Rings.FullTest | src/lockfree.rs:113-118 | the wrapping fullness tests are exact for the cached and for the real index |
| Rings.EmptyTest | src/lockfree.rs:146-151 | the emptiness tests are exact for the cached and for the real index |
| Rings.NextKeeps | src/lockfree.rs:107-160 | every atomic step of either end keeps the ring invariant |
| Rings.RefusalsAreTrue | src/lockfree.rs:113-151 | a push is refused only when the ring was full, a pop only when it was empty, at the step that looked |
| Rings.FifoUnderEveryInterleaving | src/lockfree.rs:107-160 | under every interleaving popped items are a prefix of pushed items, at most capacity in flight, no occupied slot written, no empty slot read |
| Sharding.JumpInRange | src/sharding.rs:254-265 | the hash is one of the buckets |
| Sharding.JumpIsConsistent | src/sharding.rs:254-265 | growing from n to m buckets leaves a key in place or moves it to a new bucket |
| Sharding.FirstBucketReached | src/sharding.rs:254-265 | for up to 2^31 buckets some key stays in bucket 0 |
| Sharding.NewestBucketReached | src/sharding.rs:254-265 | for every bucket number up to the root of 2^31 some key goes to it when it is the newest |
| Sharding.MixRoundTrip | src/sharding.rs:245-249 | the finalizer is a bijection: no two order ids share a key and every key is some order's |
| Sharding.VirtualDbsUsed | src/sharding.rs:167-180 | some order goes to the first virtual database and some to the last |
| Sharding.VirtualTablesUsed | src/sharding.rs:167-180 | some order goes to the first table of its virtual database and some to the last |
| Sharding.TablesUsed | src/sharding.rs:181-193 | with one virtual table some order goes to the first physical table and some to the last |
| Sharding.JumpConsistentHash | src/sharding.rs:254-265 | the loop terminates and computes the hash, its intermediate values within their machine types |
| Sharding.AddingDatabases | src/sharding.rs:167-193 | adding databases leaves an order where it is or moves it to a new database; virtual place and table stay |
| Sharding.AddingTables | src/sharding.rs:184-187 | adding tables leaves an order where it is or moves it to a new table of the same database |
| Sharding.PartitionBelongs | src/sharding.rs:199-208 | the partition is in range and congruent to the order's database |
| Sharding.PartitionsDoNotMix | src/sharding.rs:195-208 | orders of different databases never share a partition |
| Klines.EraIsFloor | src/kline.rs:67 | the shifted truncating division rounds down for every operand |
| Klines.YearFound | src/kline.rs:69-71 | the closed formula finds the year of every day of the era |
| Klines.DateRoundTrip | src/kline.rs:65-87 | converting a day to its date and back is the identity, for every day |
| Klines.DayRoundTrip | src/kline.rs:65-87 | converting a calendar date to its day and back is the identity, for every date of the calendar |
| Klines.DateIsOnCalendar | src/kline.rs:65-77 | every day converts to a date of the calendar, month lengths and leap years included |
| Klines.MonthsAreMonotone | src/kline.rs:100-104 | a later day never starts in an earlier month |
| Klines.WeekStartsOnMonday | src/kline.rs:93-99 | a week bucket starts on a Monday at most six days back; the days before the first Monday are one bucket at the epoch |
| Klines.BucketIsBelow | src/kline.rs:90-106 | a bucket starts at or before every second in it and not before the epoch |
| Klines.BucketIsIdempotent | src/kline.rs:90-106 | the start of a bucket is its own bucket's start |
| Klines.BucketsAreMonotone | src/kline.rs:90-106 | later seconds fall into the same or later buckets |

## Left out

- The consensus library (elections, replication, in-memory storage): its guarantees about what is appended appear as the discipline of appended entries.
- Follower snapshot installation: hard-state durability across it is not claimed.
- Batches inside the processor: commands are modelled flattened, as the shard hands them on.
- Per-asset journals and the index-only application list of older versions: the modelled shard marks batches with proofs, as it does when the Raft log is authoritative.
- Several shards sharing one proof directory: one shard is modelled.
- The window of committed ids at the Raft ingress: a batch is what the ingress hands on, and it is assumed that a replay is handed the same batch. The code does not ensure it: the live node drops a committed id from a mixed request, and after a compaction the window rebuilt at the start no longer knows that id and hands it on.
- Publisher cursors as files and deletion of published outbox segments, Kafka, shared cursors between replicas.
- The payload codec of Raft records: a parameter with a round-trip hypothesis.
- Weak memory effects in the ring: acquire and release operations are atomic steps; masking by capacity minus one is written as a remainder.
- Pre-faulting and capacity of the slab, pool statistics, depth ladders, state fingerprints, journal preallocation.
- Candle aggregation, fees (a function parameter), cluster maps, category routing, gateways, metrics, logging, CPU affinity.
- Strategy scratch buffers and the reuse of trade buffers between calls: results are returned instead.
- Processors.Processor.Process: the reports of a force-close are stated up to the order of its cancels, because the source lists them in hash-map order; Renderings.OneStreamExact says when that order is open.
- Desks.ProcessKeeps: new orders carry a nonzero id; Desks.ZeroIdPassesGate shows what id 0 does.
- Desks.ReachableDesks: the same, and commands stay within the machine limits (sequence counter, level sums, user counters).
- Processors.InvariantAdmits: new orders carry a nonzero id, as in Desks.ProcessKeeps.
- ShardRuns.NextKeeps: a command past a snapshot has an id that is new, or that rests in the snapshot, or that the monotonic gate catches (Restores.RetryAfterRestore says what happens otherwise), new orders carry a nonzero id, and the bytes across a cut record do not pass the checksum by coincidence.
- ShardRuns.EveryRunRecovers: the same conditions, for a processor without a price guard (Histories.ReplayNeedsNoGuard shows what a guard does to a replay).
- ShardRuns.RestartsExactly: the conditions of ShardRuns.EveryRunRecovers.
- ShardRuns.HeaderTornWhen: the conditions of ShardRuns.EveryRunRecovers.
- ShardRuns.Restarts: the bytes across a cut record do not pass the checksum by coincidence.
- JournalFiles.ReadsHeld: the bytes across a cut record do not pass the checksum by coincidence; JournalFiles.SomeStampShows gives a timestamp for which they do not.
- Proofs.LoadedExact: the bytes across a cut proof do not pass the checksum by coincidence.
- OutboxRuns.Starts: the condition of Proofs.LoadedExact.
- OutboxRuns.NextKeeps: the condition of Proofs.LoadedExact, for new orders with a nonzero id and commands within the machine limits.
- OutboxRuns.ExactlyOnce: the conditions of OutboxRuns.NextKeeps in every state of the run, for a shard without a price guard, as the Raft node sets it up.
- OutboxRuns.SpoiledWhen: the conditions of OutboxRuns.ExactlyOnce.
- OutboxRestarts.NeverDown: the conditions of OutboxRuns.ExactlyOnce, and a command past a snapshot has an id that is new, or that rests in the snapshot, or that the monotonic gate catches; OutboxRestarts.RetryShows and OutboxFailures.RetriedReplay say what happens otherwise.
- OutboxRestarts.RestartsExactly: the conditions of OutboxRestarts.NeverDown.
- OutboxRestarts.OnePrintsWhen: that two orders of one close-out differ in the 64-bit fingerprint is a hypothesis of its second half; OutboxFailures.ReorderedReplay is a run for which it is proved.
- OutboxRestarts.RestartRuns: the condition of Proofs.LoadedExact in every state of the run.
- RaftLogs.EveryRunReopens: payloads are at most 16 MiB; RaftLogs.ReopensExactly shows what a larger one does.
- Arrivals.ArrivalTold: that the lots told are those the book showed is stated for orders without a budget; Prechecks.BudgetBuyEnds and Outcomes.BudgetsHold speak of budgets.
- Gates.GuardExactly: when reference times band exceeds 64 bits the saturating product refuses prices inside the band; then only what passes is characterised.
- Gates.HaltHolds: commands stay within the machine limits and new orders carry a nonzero id, as in Desks.ProcessKeeps.
- Gates.SuspensionHolds: the same.
- Ledgers.LedgerIsNet: the same; trades of amendments are not booked by the source and are not part of the net.
- Duplicates.RepeatsExactly: the same.
- Sharding.NewestBucketReached: bucket numbers up to 46340; that every bucket is reached by some key is not claimed beyond these.
- Sharding.VirtualDbsUsed: up to 46341 virtual databases.
- Sharding.VirtualTablesUsed: up to 46341 tables per virtual database.
- Sharding.TablesUsed: up to 46341 tables, one virtual table; that every physical database is used is not claimed, because its key is drawn from the few virtual database numbers.
- Sharding.AddingDatabases: counts are 32-bit numbers; the source holds 64-bit counts and truncates them to 32 bits.
- Sharding.AddingTables: the same 32-bit counts.
- Sharding.PartitionBelongs: the same 32-bit counts.
- Sharding.PartitionsDoNotMix: the same 32-bit counts.
