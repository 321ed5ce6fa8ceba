# Arena trading: models and proofs

A Dafny 4.11 model of the trading arena's protocol and order logic, with proofs
of what it promises over whole runs. `dafny verify dfyconfig.toml` checks every
file.

The arena runs LLM analysts and automated traders against a prediction market.
A news feed hands article batches to the two arms of a matched experiment through
a barrier, an analyst turns each batch into a fair value under pacing rules, a bus
carries the fair values to two sizers, and those, the market makers and the
synthetic takers turn prices into orders. A recorder stores market outcomes, and
reports are computed from snapshots.

How the model is laid out:

- **Delivery.** `NewsFeed` holds the queues and the barrier as classes whose
  methods take the steps of a state machine. `PairedRuns` and `SubscriptionRuns`
  quantify over every interleaving of those steps, and `AnalystTurns` over the
  turns the analysts take; `ReferencePrices` says at which price batches form.
  `Clustering`, `BatchId` and `MatchedExperiment` cover what is published for a
  batch; `Doubles` is the finite binary64 values behind prices; `FairValueBus` is
  the broadcast to the sizers.
- **Sizing.** `Strategy` has decay, Kelly, Flat and order generation;
  `FlatChurn`, `MirrorSymmetry` and `Rebalance` prove their properties over
  sequences of rebalances, mirrored inputs and whole portfolios.
- **Order generators.** `SyntheticTraders` and `InventoryAware` are the takers,
  `Quotes` and `MarketMakers` the four quoting agents, with their symmetry and
  skew in `QuoteMirror`, `QuoteSkew` and `QuoteRungs`; `OrderClipping` is the
  simulator's clipper.
- **Runs and reports.** `Pacing` is the analyst's call discipline with the
  provider circuit, `Outcomes` and `Recorders` the outcome recorder under
  concurrency, `WindowPnl` and `Downsampling` two reports, `WebSocketFrames` the
  buffered frame reader of the resume script, against sections 5.2 and 5.3 of RFC
  6455.
- **Independent readings.** A module of rules says what the functions of another
  compute without using their definitions: as the largest quantity that fits, the
  growth-optimal stake, the exact condition for an order, a reply or a batch, a
  conserved value, a numeral that reads back. These are `StoryMatching`,
  `BatchText`, `SizingRules`, `PortfolioMarks`, `RebalanceRules`, `TakerRules`,
  `ClippingRules`, `MakerRules`, `MakerOrders`, `PacingRules`, `RecordingRules` and
  `WireRules`.
- **Shared.** `Wrappers`, `Reals`, `Orders`, `DropQueues` and `Sorting`.

Conventions. Code the source runs under a lock, or inside one database
transaction, is one atomic step; runs are finite sequences of such steps in any
order. Prices and money are exact reals, so IEEE rounding is not modelled, except
for the price in a batch, which is a finite double because its exact bits reach
the batch id. Truncation to nanos, `int()` and `math.floor` are modelled. Clocks,
random draws, prices, fills, replies and `tanh` or the decay power are inputs.

Where the code does not do what its documentation or a natural reading promises,
the model follows the code, a lemma names an input, and the exact condition is
proved where there is one:

- Flat's documentation calls its exit a one-shot stop. That holds, with at most
  three rebalances that trade, exactly when what Flat opens its exit rules do not
  close at once and no zero edge is topped up (`FlatChurn.FlatSettles`); a stop-loss
  fraction of zero churns for ever (`ChurnsForEver`). The third trade needs a book
  that still remembers the entry price of the other side and an edge of exactly
  `min_edge` (`TwiceUnlessStale`).
- Flat is symmetric in YES and NO except when `min_edge` lets a zero edge through
  (`MirrorSymmetry.SizingMirrors`, `ZeroEdgeBuysNoTwice`).
- The barrier does not check that an arm acknowledges only what it holds
  (`PairedRuns.UnheldAckSkipsABatch`); its two clients keep to that
  (`AnalystTurns.TurnsAreLegal`).
- A market in two groups is counted towards the last one listed, so the guard
  against buying a whole group does not protect the other
  (`SyntheticTraders.GroupNeverComplete` and `UncappedGroupCompletes`).
- Anchor and flash quotes rely on a positive spread and level spacing, which the
  constructors do not check (`MarketMakers.SelfTradesExactly`), and the averages of
  the other two makers on weights in [0, 1] (`MarketMakers.BoundsHoldExactly`).
- The makers' documentation says the middle falls as YES shares accumulate. That
  holds exactly when the skew has the right sign, which the constructors do not
  check (`QuoteSkew.LeansExactly`); YES asks fall with it except where pairs widen
  the balanced maker's spread (`QuoteRungs.PairsRaiseAsks`).
- The balanced maker is documented to buy only the cheap side and to stop buying the
  dear one a whole threshold away from the anchor. It buys the dear side too, and
  stops at half the threshold (`MakerRules.WantsExactly`, `DeviationDampens`); its
  pairs are unwound from fifty on, not a hundred (`MakerOrders.FractionsSold`).
- Two sizers can store different timestamps for one update that carries none, and
  one of them can forget it (`FairValueBus.SizersAgree`, `ForgettingDisagrees`).
- The call interval treats a last call at clock reading zero as no call
  (`Pacing.PacedExactly`).
- A frame read that times out after the header loses the header
  (`WebSocketFrames.FailureIsLosslessBeforeHeader`); the caller never repeats it.
- The clipper relies on its parser for non-negative quantities
  (`OrderClipping.NegativeQuantityInflates`, `AnswerIsSafe`).

## Model

| member | source | states |
|---|---|---|
| `NewsFeed.NewsSubscription.constructor` | arena/live/news_feed.py:235-244 | a new subscription has its bound and no pending articles |
| `NewsFeed.NewsSubscription.Deliver` | arena/live/news_feed.py:246-259 | the queue of the one market becomes the newest `max_queue` of itself and the article; no other market changes |
| `NewsFeed.NewsSubscription.Drain` | arena/live/news_feed.py:261-274 | hands over exactly the pending articles of one market and empties that queue only |
| `NewsFeed.NewsSubscription.RequeueFront` | arena/live/news_feed.py:276-291 | the failed batch goes ahead of newer evidence and overflow drops the newest; an empty batch changes nothing |
| `NewsFeed.MakeBarrier` | arena/live/news_feed.py:334-346 | refuses two equal arm names, otherwise starts with no active batch over the given subscription |
| `NewsFeed.PairedNewsBatchBarrier.constructor` | arena/live/news_feed.py:334-346 | the barrier knows exactly its two arms and holds no batch |
| `NewsFeed.PairedNewsBatchBarrier.DrainBatch` | arena/live/news_feed.py:357-377 | takes exactly the drain step of the run model on its market and leaves every other market alone; an unknown arm is an error without effect, and with no batch active a missing price or one outside (0, 1] hands out nothing and changes nothing |
| `NewsFeed.PairedNewsBatchBarrier.AckBatch` | arena/live/news_feed.py:379-388 | takes exactly the acknowledge step of the run model on its market |
| `NewsFeed.PairedNewsBatchBarrier.RetryBatch` | arena/live/news_feed.py:390-394 | takes exactly the retry step of the run model on its market |
| `PairedRuns.ArmsStayInStep` | arena/live/news_feed.py:323-394 | in every legal interleaving of deliveries and both arms' drains, acks and retries, the two acknowledged sequences are equal or one is exactly one batch ahead, and agree where both reach |
| `PairedRuns.HandedIsNextUnacknowledged` | arena/live/news_feed.py:357-388 | whatever a drain hands an arm is the first batch that arm has not acknowledged: never one it acked, never one beyond |
| `PairedRuns.SameBatchSameEvidence` | arena/live/news_feed.py:323-377 | every receipt, by either arm and however often retried, has non-empty articles and a price in (0, 1], and receipts of one batch are the same |
| `PairedRuns.UnheldAckSkipsABatch` | arena/live/news_feed.py:379-388 | the discipline is needed: an ack of a batch the arm does not hold retires a batch that arm never received |
| `PairedRuns.FormedBatchesAreFrozen` | arena/live/news_feed.py:361-371 | batches formed by any point of a run are a prefix of those formed later: no later article enters one |
| `PairedRuns.EvidenceIsConserved` | arena/live/news_feed.py:246-274 | formed batches and then the pending queue are an order-preserving subsequence of everything delivered, and an article is in it exactly when fewer than `max_queue` newer ones joined its collection before that closed |
| `PairedRuns.NewestMeans` | arena/live/news_feed.py:246-259 | a batch counted by index is the newest `max_queue` articles of its collection, as the bounded deque keeps them |
| `PairedRuns.StepKeepsGood` | arena/live/news_feed.py:323-394 | every legal step keeps the barrier invariant (evidence, active batch, both ledgers) |
| `PairedRuns.RunsAreGood` | arena/live/news_feed.py:323-394 | the barrier invariant holds after every legal run, for every market |
| `ReferencePrices.DrainWithoutBatch` | arena/live/news_feed.py:361-371 | with no batch active a drain freezes everything pending at exactly the price given and hands it over when that price is in (0, 1] and something is pending, and otherwise changes nothing |
| `ReferencePrices.DrainWithBatch` | arena/live/news_feed.py:357-377 | with one active, neither the price asked for nor the queue plays a part |
| `ReferencePrices.FormsExactly` | arena/live/news_feed.py:361-371 | a step of a run forms a batch exactly when it is a drain with a usable price, articles pending and none active |
| `ReferencePrices.FormedByItsDrain` | arena/live/news_feed.py:361-377 | over every run each formed batch goes back to one drain of its market, whose price is the batch's and whose queue is its articles |
| `ReferencePrices.DrainForms` | arena/live/news_feed.py:361-371 | and every such drain of a run forms one |
| `AnalystTurns.TurnsAreLegal` | arena/live/analyst.py:729-819 | every interleaving of deliveries and the two analysts' turns (drain, then for a handed batch one ack or retry, turns broken off by an exception included) is a legal run of the barrier: an analyst in mid-turn holds its batch |
| `AnalystTurns.HoldsOnlyInTurn` | arena/live/analyst.py:729-819 | where no turn is broken off, an arm holds a batch of a market exactly while its analyst is in that turn |
| `AnalystTurns.DrainHandsTheActiveBatch` | arena/live/news_feed.py:357-377 | then nothing is withheld: a drain between turns hands over the active batch unless that arm has acknowledged it |
| `AnalystTurns.HandedHasArticles` | arena/live/analyst.py:732-737 | a handed batch always has articles and a price in (0, 1], so the empty-batch branch never drops one |
| `SubscriptionRuns.DeliverMatchesQueue` | arena/live/news_feed.py:246-259 | positions in the run model move as the articles of the class do on delivery |
| `SubscriptionRuns.FailMatchesQueue` | arena/live/news_feed.py:276-291 | positions in the run model move as the articles of the class do on a retry |
| `SubscriptionRuns.RunsStayOrdered` | arena/live/news_feed.py:246-291 | with one batch in flight per market, in-flight then pending is strictly increasing in delivery order and the queue never exceeds its bound; every delivered article is in exactly one place |
| `SubscriptionRuns.FailureRestoresTheBatch` | arena/live/analyst.py:738-819 | a failed analysis puts the complete raw batch, not the deduplicated one, ahead of newer evidence, up to the queue bound |
| `Clustering.SameStoryIsSymmetric` | arena/live/analyst.py:222-225 | the pairwise test (same non-empty URL, or Jaccard similarity at the threshold) is symmetric |
| `Clustering.FindCluster` | arena/live/analyst.py:248-257 | the nested loop with its early exit finds the first cluster with a matching member |
| `Clustering.ClusterNearDuplicates` | arena/live/analyst.py:239-267 | the loop returns exactly the first-fit groups in founding order, each with its representative |
| `Clustering.GroupsPartition` | arena/live/analyst.py:244-262 | every article of the batch is in exactly one cluster, once |
| `Clustering.GroupsAreFirstFit` | arena/live/analyst.py:245-262 | members follow batch order, every later member matches an earlier one of its cluster, and no article matches an earlier member of an earlier cluster |
| `Clustering.FoundersAreDissimilar` | arena/live/analyst.py:247-259 | founders are pairwise dissimilar |
| `Clustering.BestIndexIsFirstBest` | arena/live/analyst.py:228-236 | the representative is a member that none outranks by text length, title length and date, and outranks all before it |
| `Clustering.Delegate` | arena/live/analyst.py:264-267 | the representative of a group is one of its members |
| `Clustering.Deduplicated` | arena/live/analyst.py:739-740 | one representative for each cluster, each a member of the batch |
| `StoryMatching.JaccardRange` | arena/live/analyst.py:222-225 | the similarity is 1 exactly for equal token sets, 0 exactly for disjoint ones, and between them otherwise |
| `StoryMatching.JaccardReaches` | arena/live/analyst.py:222-225 | the threshold multiplied out: common tokens at least threshold times all tokens |
| `StoryMatching.SharingRaises` | arena/live/analyst.py:222-225 | a token shared in addition never lowers the similarity and raises it unless the sets were equal |
| `StoryMatching.SameStoryMeans` | arena/live/analyst.py:248-257 | two articles are one story exactly with the same non-empty URL or enough common tokens |
| `StoryMatching.FoundersAreNew` | arena/live/analyst.py:245-262 | for any pairwise test an article founds a cluster exactly when it matches none before it |
| `StoryMatching.ClustersFollowStories` | arena/live/analyst.py:239-262 | in a batch an article founds a cluster exactly when it repeats none before it, and is alone when it repeats no other |
| `StoryMatching.CopiesNeverFound` | arena/live/analyst.py:248-257 | an article with the URL or the tokens of an earlier one never founds a cluster |
| `StoryMatching.OriginalsAreAlone` | arena/live/analyst.py:248-262 | one with a URL of its own and no token in common with any other is alone in its cluster |
| `StoryMatching.RepresentativeIsFullest` | arena/live/analyst.py:228-236 | a cluster is represented by the longest text, then the longest title, then the latest date, the first of them where several tie |
| `BatchId.IntTextInjective` | arena/live/fair_value_bus.py:45 | decimal market ids determine the market |
| `BatchId.HexTextInjective` | arena/live/fair_value_bus.py:44 | `float.hex` of finite doubles is injective |
| `BatchId.JoinInjective` | arena/live/fair_value_bus.py:45 | joining NUL-free parts by NUL loses nothing |
| `BatchId.SortIdentifies` | arena/live/fair_value_bus.py:43 | sorting the URLs forgets their order and nothing else |
| `BatchId.MaterialIdentifiesBatch` | arena/live/fair_value_bus.py:37-46 | the hashed text is equal exactly when market, price and URL multiset are equal, for NUL-free URLs |
| `BatchText.IntTextReads` | arena/live/fair_value_bus.py:45 | the market is its decimal numeral, which reads back as the market |
| `BatchText.HexTextReads` | arena/live/fair_value_bus.py:44 | the price is a hexadecimal numeral of sign, leading digit, thirteen fraction digits and power of two, which together are its exact value |
| `BatchText.UpToMeans` | arena/live/fair_value_bus.py:43 | URLs compare at their first difference: the one that ends there, or has the smaller code point, comes first |
| `BatchText.UrlsAreSorted` | arena/live/fair_value_bus.py:43 | the URLs stand in that order, each as often as in the batch |
| `BatchText.MaterialLayout` | arena/live/fair_value_bus.py:43-46 | tag, market, price and URLs, with one NUL between each two |
| `MatchedExperiment.MatchedIdentity` | arena/live/analyst.py:729-749 | both arms publish the same pre-hash material for the same barrier batch, in every legal run |
| `Doubles.UnitPriceIsUnit` | arena/live/news_feed.py:364-366 | the bit-level price test accepts exactly the doubles in (0, 1] |
| `WebSocketFrames.ParseEncode` | scripts/_ws_resume_check.py:53-66 | decoding an encoded frame gives its opcode and unmasked payload and leaves exactly the following bytes, for all three length forms, masked or not |
| `WebSocketFrames.ParseIsEncode` | scripts/_ws_resume_check.py:53-66 | conversely every accepted stream starts with the encoding of the frame reported |
| `WebSocketFrames.MaskedTwice` | scripts/_ws_resume_check.py:64-65 | unmasking undoes masking |
| `WebSocketFrames.FailureIsLosslessBeforeHeader` | scripts/_ws_resume_check.py:39-66 | a call that failed, repeated once more bytes are there, gives what an unbroken call would have given for every continuation exactly when fewer than two bytes had arrived; otherwise some continuation tells them apart |
| `WebSocketFrames.FailureCanDesynchronise` | scripts/_ws_resume_check.py:53-66 | otherwise the next call can read payload as a header: a concrete stream |
| `WebSocketFrames.Frames.constructor` | scripts/_ws_resume_check.py:35-37 | the reader starts from the handshake leftover |
| `WebSocketFrames.Frames.RecvN` | scripts/_ws_resume_check.py:39-51 | returns the next n bytes of buffer plus socket whatever the chunking, or the timeout or end of stream met, keeping what was read |
| `WebSocketFrames.Frames.ReadBody` | scripts/_ws_resume_check.py:62-66 | key and payload are read as the wire format says; on error exactly the completed fields are consumed |
| `WebSocketFrames.Frames.Next` | scripts/_ws_resume_check.py:53-66 | the outcome is that of the pure decoder on buffer plus unread bytes, and those become exactly its rest |
| `WebSocketFrames.Frames.ReadAll` | scripts/_ws_resume_check.py:53-66 | for every list of frames and every split of their bytes, successive calls return exactly their opcodes and payloads and leave exactly the tail |
| `WireRules.AcceptsExactly` | scripts/_ws_resume_check.py:53-66 | on the fields of the frame: a stream is accepted exactly when all of it is there; opcode, every payload byte and the rest are those of the stream, unmasked by the key byte of the same position modulo four |
| `WireRules.HeaderIsNeeded` | scripts/_ws_resume_check.py:53-62 | without its header or length field a stream is not accepted |
| `WireRules.MostSignificantFirst` | scripts/_ws_resume_check.py:58-61 | extended lengths are read most significant byte first |
| `WireRules.XorFlipsBits` | scripts/_ws_resume_check.py:64-65 | unmasking flips exactly the bits set in the key |
| `WireRules.LongFrames` | scripts/_ws_resume_check.py:58-61 | the two long frames of section 5.7 of RFC 6455 decode to their payloads |
| `WireRules.ObstacleIsFirst` | scripts/_ws_resume_check.py:39-51 | everything before the first obstacle arrives, and that is the deadline unless it is the empty chunk ending the stream |
| `Orders.AtPriceBounds` | arena/sybil_client/types.py:279-314 | truncation to nanos never raises a price and lowers it by less than one nano |
| `Strategy.FlatStrategy.constructor` | arena/live/strategy.py:229-240 | no entry prices yet |
| `Strategy.FlatStrategy.ForgetEntry` | arena/live/strategy.py:251-252 | forgets one market's entry price only |
| `Strategy.FlatStrategy.Target` | arena/live/strategy.py:254-316 | target and stored entry are those of the pure Flat step; other markets keep their entries |
| `SizingRules.OptimalIsUnique` | arena/live/strategy.py:152-194 | the growth-optimal stake, where the expected growth of the account stops rising, is one number: edge over one minus price |
| `SizingRules.KellyBetsOnYes` | arena/live/strategy.py:152-194 | with a YES edge Kelly targets the most YES shares that its fraction of the growth-optimal stake pays for, shrunk and capped, and no NO |
| `SizingRules.KellyBetsOnNo` | arena/live/strategy.py:152-194 | with a NO edge the same with the chance and price of the other outcome |
| `SizingRules.KellyThresholds` | arena/live/strategy.py:152-194 | below the exit edge or at a resolved price (outside 0.05 to 0.95) everything held is sold at the market; from there up to the entry edge nothing is ordered |
| `SizingRules.ShrinkRange` | arena/live/strategy.py:177-180 | the bet is shrunk to nothing exactly for a worthless estimate and not at all exactly for a fresh one held with full confidence |
| `SizingRules.ShrinkMultiplies` | arena/live/strategy.py:177-180 | confidence and freshness shrink alike and independently |
| `SizingRules.FlatDecides` | arena/live/strategy.py:254-316 | Flat case by case: stop and take-profit on the loss since entry, exits, holds and entries |
| `SizingRules.LimitsAreFair` | arena/live/strategy.py:322-371 | sales are offered at the market and purchases up to the fair value of their own outcome, to within a nano |
| `SizingRules.PurchasesAreLargest` | arena/live/strategy.py:322-371 | a purchase is the most the cash pays for at its limit, up to what is missing |
| `SizingRules.FreshnessStages` | arena/live/strategy.py:63-88 | an estimate counts in full up to its time to live, not at all from the hard expiry on, and lies between the market and itself in between |
| `SizingRules.FreshnessFades` | arena/live/strategy.py:63-88 | the older, the nearer to the market and the smaller the factor |
| `SizingRules.HalfLifeHalves` | arena/live/strategy.py:63-88 | one half-life past the time to live halves the remaining edge |
| `FlatChurn.RoundFillsOrders` | arena/live/strategy.py:322-371 | filling the orders of a rebalance reaches exactly the next book, and no orders means no change |
| `FlatChurn.TradesWithinRank` | arena/live/strategy.py:254-371 | unless Flat is restless, a rank read off the book bounds the number of rebalances that trade, over any number of them |
| `FlatChurn.MostTrades` | arena/live/strategy.py:254-371 | the rank is exact: some sequence of cash amounts makes Flat trade that often |
| `FlatChurn.FlatSettles` | arena/live/strategy.py:200-316 | for every configuration, price and fair value: from every book and with any cash Flat trades in at most three rebalances exactly when it is neither restless (what it opens, its exit rules close at once) nor topping up a zero edge that `min_edge` lets through |
| `FlatChurn.TwiceUnlessStale` | arena/live/strategy.py:254-316 | with an edge either way, in at most two exactly when the book is not stale (a holding kept with the other side's entry at an edge of exactly the minimum) |
| `FlatChurn.ConfiguredFlatSettles` | arena/live/strategy.py:229-240 | a positive `min_edge` and a positive stop-loss fraction rule out both exceptions |
| `FlatChurn.DefaultFlatCanTradeThrice` | arena/live/strategy.py:229-316 | a book that trades three times with the default parameters |
| `FlatChurn.ChurnsForEver` | arena/live/strategy.py:282-316 | a restless Flat opens and closes a share in every one of any number of rebalances |
| `FlatChurn.RestlessIsUnbounded` | arena/live/strategy.py:282-316 | so for every n some n rebalances all trade |
| `FlatChurn.ZeroStopIsRestless` | arena/live/strategy.py:282-289 | a stop-loss fraction of zero is restless |
| `MirrorSymmetry.DecayMirrors` | arena/live/strategy.py:63-88 | fair-value decay commutes with exchanging YES and NO |
| `MirrorSymmetry.KellyMirrors` | arena/live/strategy.py:152-194 | Kelly targets mirror, with no condition |
| `MirrorSymmetry.FlatMirrors` | arena/live/strategy.py:254-316 | Flat targets and stored entries mirror exactly when a zero edge is not let through |
| `MirrorSymmetry.OrdersMirror` | arena/live/strategy.py:322-371 | mirrored targets give the mirrored multiset of orders |
| `MirrorSymmetry.SizingMirrors` | arena/live/strategy.py:63-371 | the whole pipeline, decay to orders, mirrors its orders and next entry for all cash exactly when the input is not lopsided at its decayed fair value |
| `MirrorSymmetry.ZeroEdgeBuysNoTwice` | arena/live/strategy.py:299-316 | with a `min_edge` of zero and a fair value equal to the price, an input and its mirror both buy NO |
| `Rebalance.LiveTrader.constructor` | arena/live/trader.py:143-194 | a trader starts without estimates, with its strategy and freshness settings |
| `Rebalance.LiveTrader.ComputePortfolioValue` | arena/live/trader.py:314-326 | the loop computes balance plus marked positions, at least one cent |
| `Rebalance.LiveTrader.CloseMarket` | arena/live/trader.py:416-431 | sells what is held without a fair value, and forgets the estimate only when nothing is held |
| `Rebalance.LiveTrader.SizeMarket` | arena/live/trader.py:433-454 | target and orders from the cash above the floor |
| `Rebalance.LiveTrader.RebalanceMarket` | arena/live/trader.py:397-474 | one market takes exactly the step of the fold |
| `Rebalance.LiveTrader.RebalanceAll` | arena/live/trader.py:382-476 | orders, estimates and entries are those of the fold over the markets in any order, and all buys stay above the cash floor |
| `Rebalance.CashFloor` | arena/live/trader.py:384-476 | for any markets in any order the buys of one rebalance cost at most max(0, balance - 20% of portfolio value) |
| `Rebalance.SalesWithinHoldings` | arena/live/trader.py:397-474 | in the whole rebalance no outcome of a market is sold beyond its holding or both bought and sold |
| `Rebalance.TargetRaisesOneSide` | arena/live/strategy.py:152-316 | neither strategy ever raises both sides of a market |
| `PortfolioMarks.ExchangeKeepsValue` | arena/live/trader.py:314-326 | buying or selling any amount of a position at its mark leaves the portfolio value alone |
| `PortfolioMarks.OpeningKeepsValue` | arena/live/trader.py:314-326 | so does opening one |
| `PortfolioMarks.PairsAreDollars` | arena/live/trader.py:314-326 | a YES and a NO share of one market together add a dollar, at every price |
| `PortfolioMarks.UnpricedIsWorthless` | arena/live/trader.py:314-326 | a position in a market without a price adds nothing |
| `PortfolioMarks.CashCounts` | arena/live/trader.py:314-326 | without positions the value is the balance, but at least a cent |
| `PortfolioMarks.FifthIsKept` | arena/live/trader.py:384-476 | from cash alone the buys of one rebalance leave a fifth of it |
| `PortfolioMarks.ClosingSellsHoldings` | arena/live/trader.py:416-431 | closing a market offers exactly what is held, each outcome once |
| `RebalanceRules.HeldIsItsPosition` | arena/live/trader.py:403-404 | what is held of an outcome is the quantity of its one position |
| `RebalanceRules.ChecksExactly` | arena/live/trader.py:392-395 | a market is looked at exactly when it has a fair value or something is held in it |
| `RebalanceRules.ClosedExactly` | arena/live/trader.py:397-431 | without a usable fair value, or as good as resolved, exactly what is held is offered, and the estimate is forgotten exactly when that is nothing |
| `RebalanceRules.SizedExactly` | arena/live/trader.py:433-474 | any other market is sized at its own age and confidence, from the portfolio value and the cash above a fifth of it |
| `SyntheticTraders.BuyQtyFits` | arena/live/synthetic.py:126-130 | a purchase fits room, cash and budget |
| `SyntheticTraders.SellQtyFits` | arena/live/synthetic.py:133-138 | a sale fits the holding |
| `SyntheticTraders.OneOrderFits` | arena/live/synthetic.py:423-466 | the one order for a market is covered or within the inventory limit, and paid from the running cash |
| `SyntheticTraders.GenerateOrders` | arena/live/synthetic.py:360-421 | the loop over the chosen markets computes the specified running cash, group counts and orders |
| `SyntheticTraders.OffersAreSafe` | arena/live/synthetic.py:360-421 | a submission has at most one order per market, each fitting, all buys paid for by the starting cash |
| `SyntheticTraders.SafeSubmissionStaysSolvent` | arena/live/synthetic.py:379-421 | however a safe submission is filled, cash and holdings stay non-negative and no holding grows past the limit |
| `SyntheticTraders.CrossingNoiseStaysSafe` | arena/live/synthetic.py:360-421 | the same over every run of blocks, draws and partial fills at or better than limit |
| `SyntheticTraders.GroupNeverComplete` | arena/live/synthetic.py:401-417 | one submission never buys YES on every member of a capped group |
| `SyntheticTraders.OwnGroupIsCapped` | arena/live/synthetic.py:401-402 | a group all of whose members are counted towards it is capped |
| `SyntheticTraders.UncappedGroupCompletes` | arena/live/synthetic.py:401-417 | exactness: for any group that is not capped some solvent account and draws do buy YES on all members |
| `SyntheticTraders.OverlapEscapesTheCap` | arena/live/runner.py:1031-1034 | two overlapping groups, the last one listed winning, leave the first uncapped |
| `TakerRules.BuyQtyIsMost` | arena/live/synthetic.py:126-130 | a purchase is the most whole shares that fit the room and that budget and cash pay for |
| `TakerRules.SellQtyIsMost` | arena/live/synthetic.py:133-138 | a sale is the most that is held and that the budget is worth, or all of it without a budget |
| `TakerRules.ClampIsNearest` | arena/live/synthetic.py:97-98 | a price outside one to ninety-nine cents becomes the nearest inside |
| `TakerRules.OneOrderCrosses` | arena/live/synthetic.py:423-466 | whatever is drawn, the order is on an offered side, buying above or selling below the own price by the edge, for the most that fits; none exactly where nothing is offered or not one share fits |
| `TakerRules.EverySideArises` | arena/live/synthetic.py:436-450 | every side the market offers is traded on some draw |
| `TakerRules.MiddleFollowsReference` | arena/live/synthetic.py:383-399 | the middle starts from the external reference, else the last mark, else even odds, and moves by the jitter while tradable |
| `TakerRules.DirectionalOrderExactly` | arena/live/synthetic.py:172-255 | exactly when an order is placed, on which side, at which limit and for how many shares: the excess beyond the limit first, then the other side, then the target's side at the target |
| `TakerRules.DirectionalOrderMirrors` | arena/live/synthetic.py:172-255 | exchanging YES and NO exchanges the side of the order and nothing else |
| `TakerRules.FillIsExchange` | arena/live/synthetic.py:379-421 | a fill exchanges the shares of one outcome for their price and moves nothing else |
| `InventoryAware.DirectionalOrderIsDisciplined` | arena/live/synthetic.py:172-255 | an order is covered and paid for, never opens the second side, and changes exposure only towards the target or out of an excess |
| `InventoryAware.InventoryStaysSafe` | arena/live/synthetic.py:154-255 | over every run cash and holdings stay non-negative, no holding grows past the limit, and a one-sided holding never becomes two-sided |
| `Quotes.NoSelfTradeMeans` | arena/bots/market_maker.py:25-26 | no self-trade spelled out in nanos: YES bid plus NO bid below a dollar, ask above bid, two asks above a dollar |
| `Quotes.BuyOrders` | arena/bots/market_maker.py:395-417 | the ladder loop with its running spend computes the specified bids |
| `Quotes.SellOrders` | arena/bots/market_maker.py:419-435 | the ladder loop with its remaining stock computes the specified asks |
| `Quotes.BuyLadderIsPaid` | arena/bots/market_maker.py:395-417 | however many levels and however spaced, bids cost at most max(0, budget) |
| `Quotes.BuyLadderApart` | arena/bots/market_maker.py:395-417 | bids stay below the middle when every level does |
| `Quotes.SellLadderIsStocked` | arena/bots/market_maker.py:676-692 | however many levels and however spaced, asks offer at most the quantity given |
| `Quotes.SellLadderApart` | arena/bots/market_maker.py:676-692 | asks stay above the middle when every level lies at least a nano above it |
| `Quotes.LadderBidsExactly` | arena/bots/market_maker.py:395-417 | over every middle, budget and size, the YES and NO bid ladders cannot trade with each other exactly when the last level still lies below the middle |
| `MarketMakers.RecallKeepsBounds` | arena/bots/market_maker.py:294-323 | one price keeps both averages within [0.05, 0.95] and the history within its window, for weights in [0, 1] |
| `MarketMakers.RunKeepsBounds` | arena/bots/market_maker.py:294-323 | the same over every run of blocks, from any bounded memory |
| `MarketMakers.BoundsHoldExactly` | arena/bots/market_maker.py:294-302 | over every run from nothing remembered the averages stay within bounds exactly when their weights lie in [0, 1] |
| `MarketMakers.MarketApart` | arena/bots/market_maker.py:90-125 | whatever is remembered within the window, every quote of a market lies strictly on its own side of one price, for all four agents with sound parameters |
| `MarketMakers.NeverSelfTrades` | arena/bots/market_maker.py:485-568 | no block, from any memory, makes any of the four agents with sound parameters quote two orders that could trade with each other |
| `MarketMakers.SelfTradesExactly` | arena/bots/market_maker.py:90-125 | over every run and every block after it, an anchor or flash agent never quotes two orders that could trade with each other exactly when its parameters are sound: positive half-spread, positive widening where volatility can be seen, positive level spacing |
| `MarketMakers.AnchorApartExactly` | arena/bots/market_maker.py:104-123 | over every middle and all holdings the anchor orders cannot trade with each other exactly when the widened half-spread is positive |
| `MarketMakers.FlashApartExactly` | arena/bots/market_maker.py:217-236 | over every middle and for any number of levels the flash orders cannot trade with each other exactly when the level spacing is positive |
| `MarketMakers.UnsoundAnchorCrosses` | arena/bots/market_maker.py:90-125 | without a positive spread, a run after which two anchor bids meet |
| `MarketMakers.UnsoundFlashCrosses` | arena/bots/market_maker.py:217-236 | without a positive level spacing, a block in which two flash bids meet |
| `MarketMakers.FastAnchorWithinMeans` | arena/bots/market_maker.py:724-750 | each side's bids cost at most that side's budget and each side's asks at most the holding |
| `MarketMakers.BalancedWithinMeans` | arena/bots/market_maker.py:527-539 | each side's bids cost at most that side's budget |
| `MarketMakers.NetAsksAreStocked` | arena/bots/market_maker.py:541-553 | sales of the uneven part stay within the holding of that side |
| `MarketMakers.UnwindAsksAreStocked` | arena/bots/market_maker.py:555-566 | sales of matched pairs stay within the pairs held |
| `MarketMakers.FlashMarket` | arena/bots/market_maker.py:227-234 | the level loop computes the specified bids |
| `MarketMakers.FastAnchorMarket` | arena/bots/market_maker.py:714-750 | spread, bids and excess sales of one market, or the division by a zero position limit |
| `MarketMakers.Agent.constructor` | arena/bots/market_maker.py:290-292 | an agent starts with nothing remembered |
| `MarketMakers.Agent.UpdatePrices` | arena/bots/market_maker.py:294-302 | both averages move by their rates, or start at the first price |
| `MarketMakers.Agent.UpdateVolatility` | arena/bots/market_maker.py:304-323 | the price joins the window of its market and the multiplier is that of the new window |
| `MarketMakers.Agent.QuoteMarket` | arena/bots/market_maker.py:488-566 | one market takes exactly the specified step |
| `MarketMakers.Agent.QuoteBlock` | arena/bots/market_maker.py:485-568 | the loop over the markets, ended by an exception with the memory so far |
| `MarketMakers.Agent.OnBlock` | arena/bots/market_maker.py:694-752 | orders and memory are those of the specified block, and the orders cannot trade with each other |
| `QuoteSkew.EvenHoldingsQuoteTheReference` | arena/bots/market_maker.py:62-73 | with as many YES as NO shares a maker quotes around the market's price, or the one it remembers, clamped |
| `QuoteSkew.MoreYesLowersTheMiddle` | arena/bots/market_maker.py:62-73 | with the right sign of the skew, holding more YES never raises the middle and lowers it where no clamp binds |
| `QuoteSkew.LeansExactly` | arena/bots/market_maker.py:385-393 | over everything seen and remembered, holding more YES never raises the middle exactly when the skew has the right sign |
| `QuoteMirror.MiddleTurns` | arena/bots/market_maker.py:488-506 | with prices turned around and holdings exchanged the middle is turned around |
| `QuoteMirror.MarketMirrors` | arena/bots/market_maker.py:485-568 | and the orders of every maker are those with YES and NO exchanged, or it fails alike |
| `QuoteRungs.OrdersStandOnRungs` | arena/bots/market_maker.py:395-435 | every order of every maker stands on a rung: bids below and asks above the middle of their own outcome by the compressed spread and whole steps |
| `QuoteRungs.MoreYesLowersYesQuotes` | arena/bots/market_maker.py:485-568 | with more YES held no YES bid or ask of a level is higher, unless the balanced maker widens its spread for pairs |
| `QuoteRungs.PairsRaiseAsks` | arena/bots/market_maker.py:377-385 | the exception: YES shares that complete pairs can raise the asks |
| `MakerRules.SpanIsSwing` | arena/bots/market_maker.py:84-85 | the windowed volatility is the largest difference between two remembered prices |
| `MakerRules.SpreadFollowsSwing` | arena/bots/market_maker.py:304-323 | a calm market is quoted at the plain spread, and otherwise it widens in proportion to the swing or twice the last jump, up to the cap |
| `MakerRules.RememberKeepsLatest` | arena/bots/market_maker.py:310-314 | a window holds the latest price last, behind the latest of those before it |
| `MakerRules.WindowLength` | arena/bots/market_maker.py:304-314 | a window spans the lookback and one price more, two for the fast-anchor maker |
| `MakerRules.EmaClosesGap` | arena/bots/market_maker.py:294-302 | an average closes its share of the gap to the price |
| `MakerRules.TotalDampens` | arena/bots/market_maker.py:459-466 | beyond a hundred shares purchases shrink in proportion to the room left below the limit, and never under a tenth |
| `MakerRules.DeviationDampens` | arena/bots/market_maker.py:346-364 | the cheap side is bought in full, the dear side shrinks to nothing at half the threshold |
| `MakerRules.InventoryDampens` | arena/bots/market_maker.py:468-483 | purchases of the side held in excess shrink threefold with the excess |
| `MakerRules.WantsExactly` | arena/bots/market_maker.py:437-525 | the balanced maker wants a side exactly while it is less than half a threshold dearer than the anchor and less than a third of the limit in excess |
| `MakerRules.PairsWiden` | arena/bots/market_maker.py:377-385 | pairs widen the spread once they lock a tenth of the budget, and at three tenths have doubled it |
| `MakerOrders.BidTakesPart` | arena/bots/market_maker.py:395-417 | each level of bids is the most shares its 50, 30 or 20 percent of the side's money and the money left pay for |
| `MakerOrders.AskTakesPart` | arena/bots/market_maker.py:419-435 | each level of asks is its part of the shares on offer rounded down, at least one and at most what is left |
| `MakerOrders.SkipsExactly` | arena/bots/market_maker.py:325-344 | nothing is bought exactly after a jump over five cents, more than eight cents off the anchor, or along three moves one way |
| `MakerOrders.FractionsSold` | arena/bots/market_maker.py:437-473 | the fractions of the excess and of the pairs put up for sale |
| `MakerOrders.BalancedTrades` | arena/bots/market_maker.py:485-568 | side by side: the balanced maker buys only what it has reason to buy and does where the innermost bid is paid for; it sells only at prices no worse than the anchor, pairs or excess, and does where the innermost ask fits |
| `MakerOrders.FastAnchorTrades` | arena/bots/market_maker.py:694-752 | the fast-anchor maker bids on both sides at every inventory and sells a side exactly when it holds more than it keeps |
| `MakerOrders.ExcessIsShare` | arena/bots/market_maker.py:741-748 | it offers the excess doubled over the limit as a share of the holding, at most half |
| `MakerOrders.AnchorTrades` | arena/bots/market_maker.py:104-125 | the anchor maker bids on a side exactly below the position limit with a bid of a cent or more |
| `MakerOrders.BidIsLargest` | arena/bots/market_maker.py:116-123 | a single bid spends its dollars on whole shares, but buys at least one |
| `MakerOrders.FlashTrades` | arena/bots/market_maker.py:217-236 | the flash maker bids on both sides of every level, inside out |
| `MakerOrders.LevelsBound` | arena/bots/market_maker.py:395-435 | a ladder has no more orders than levels, and without levels none |
| `MakerOrders.FailsExactly` | arena/bots/market_maker.py:437-525 | the two ladder makers fail exactly by dividing by a zero position limit or threshold that is needed |
| `MakerOrders.BlockFailsExactly` | arena/bots/market_maker.py:485-568 | a block fails exactly when one of its markets does, and then hands out nothing |
| `FairValueBus.FairValueSubscription.constructor` | arena/live/fair_value_bus.py:84-93 | a new subscription has its bound and nothing pending |
| `FairValueBus.FairValueSubscription.Deliver` | arena/live/fair_value_bus.py:95-108 | the market's queue becomes the newest `max_queue` of itself and the update |
| `FairValueBus.FairValueSubscription.Drain` | arena/live/fair_value_bus.py:110-118 | hands over exactly one market's pending updates and empties that queue only |
| `FairValueBus.FairValueBus.constructor` | arena/live/fair_value_bus.py:129-132 | no subscribers |
| `FairValueBus.FairValueBus.Subscribe` | arena/live/fair_value_bus.py:134-146 | appends one new empty subscription; subscriptions stay distinct |
| `FairValueBus.FairValueBus.Unsubscribe` | arena/live/fair_value_bus.py:148-153 | removes exactly that subscription, or nothing |
| `FairValueBus.FairValueBus.Publish` | arena/live/fair_value_bus.py:155-159 | every subscriber gets the update, each under its own bound |
| `FairValueBus.Sizer.constructor` | arena/live/trader.py:175-191 | its own subscription, nothing stored yet |
| `FairValueBus.Sizer.DrainMarket` | arena/live/trader.py:501-514 | the stored values become those of the last update drained |
| `FairValueBus.Sizer.Forget` | arena/live/trader.py:337-343 | forgets one market only |
| `FairValueBus.RunTracks` | arena/live/fair_value_bus.py:95-159 | the invariant of every run: the queue is the newest part of what was published, drained updates keep their order, losses are counted |
| `FairValueBus.PrefixWithoutOverflow` | arena/live/fair_value_bus.py:76-82 | while nothing was dropped, one sizer's drained sequence is a prefix of the other's in every interleaving |
| `FairValueBus.DrainedInOrder` | arena/live/fair_value_bus.py:95-118 | with drops too, updates are taken in publishing order, none twice |
| `FairValueBus.SizersAgree` | arena/live/trader.py:330-335 | with room for one update, once both have drained they last saw the newest publication and store its fair value, confidence and texts; timestamps agree exactly when the update carried one or both stored it at the same moment |
| `FairValueBus.NoRoomNoUpdates` | arena/live/fair_value_bus.py:99-108 | with a bound of zero nothing ever arrives, at either sizer |
| `FairValueBus.StoredUnlessForgotten` | arena/live/trader.py:337-343 | either sizer, if it never forgot, stores something exactly when it drained something |
| `FairValueBus.ForgettingDisagrees` | arena/live/trader.py:429-430 | after a one-sided forget the two sizers differ |
| `WindowPnl.SortIsStable` | arena/scripts/calibration.py:633 | the sort orders by time, keeps the snapshots, and keeps row order within a moment |
| `WindowPnl.WindowIsRise` | arena/scripts/calibration.py:641-650 | a window has a profit exactly when a snapshot falls in it, and the profit is the rise of the standing level across it |
| `WindowPnl.WindowsAdd` | arena/scripts/calibration.py:634-650 | profit over [a, c) is profit over [a, b) plus profit over [b, c), an absent window counting as zero |
| `WindowPnl.OpenStartIsLevel` | arena/scripts/calibration.py:641-643 | without a start the profit is the last level before the end, where there is one |
| `WindowPnl.GroupRows` | arena/scripts/calibration.py:621-629 | rows are filed under their trader in row order, unusable ones skipped |
| `WindowPnl.FiledRowsHistory` | arena/scripts/calibration.py:621-629 | each trader's list is exactly that trader's usable rows |
| `WindowPnl.AllPnls` | arena/scripts/calibration.py:631-650 | the dictionary loop gives each trader the profit of its own list |
| `WindowPnl.PnlByTrader` | arena/scripts/calibration.py:600-652 | a trader is present exactly when its window profit exists, with that value |
| `Pacing.ProviderCircuit.constructor` | arena/live/provider_health.py:61-81 | a closed circuit |
| `Pacing.ProviderCircuit.RecordFailure` | arena/live/provider_health.py:89-110 | counts the failure and sets the retry time by kind and count |
| `Pacing.ProviderCircuit.RecordSuccess` | arena/live/provider_health.py:112-115 | closes the circuit |
| `Pacing.DefaultRateLimitDelays` | arena/live/provider_health.py:99-103 | the default rate-limit backoffs: 30, 60, 120, 240, then 300 seconds |
| `Pacing.RunsAreGood` | arena/live/analyst.py:700-819 | after every run the circuit and the interval mark are those of the attempts made, all paced and allowed |
| `Pacing.AttemptsArePaced` | arena/live/analyst.py:716-727 | no attempt starts inside a backoff, and consecutive ones are at least the interval apart unless the earlier started at clock zero |
| `Pacing.ZeroReadingIsNotSpaced` | arena/live/analyst.py:725-727 | the exception: a legal run from clock reading zero in which the second attempt starts before the interval has passed |
| `Pacing.PacedExactly` | arena/live/analyst.py:716-727 | over every legal run the interval is kept without exception exactly when the clock did not start at zero, there is no interval, or nothing may be spent |
| `Pacing.RateLimitsBackOff` | arena/live/provider_health.py:83-110 | after k rate-limit failures in a row the next attempt waits at least min(max, base * 2^(k-1)) from the end of the last |
| `Pacing.PausedForGood` | arena/live/analyst.py:390-398 | once a block starts with spend at or above the threshold no attempt is ever made again |
| `Pacing.Analyst.constructor` | arena/live/analyst.py:315-350 | spend restored, no call made, circuit closed |
| `Pacing.Analyst.CallProvider` | arena/live/analyst.py:801-819 | a call marks its start, is charged even when refused, and reaches the circuit |
| `Pacing.Analyst.OnBlock` | arena/live/analyst.py:700-819 | first block skipped, paused when spent, gated by the circuit, then turn by turn until too soon or a failure |
| `PacingRules.DelaysDouble` | arena/live/provider_health.py:92-110 | a refused key, spent credit and rate limit wait their base and twice as long with each failure up to their maximum; other failures do not wait |
| `PacingRules.TurnExactly` | arena/live/analyst.py:724-819 | a turn makes its call exactly unless the interval is running, and the block goes on unless it is or the call failed |
| `PacingRules.BlockExactly` | arena/live/analyst.py:700-719 | a block is looked at exactly when it is not the first, the spend is below the threshold and no backoff is running; otherwise nothing changes |
| `PacingRules.OpenBlocksAreServed` | arena/live/analyst.py:700-819 | where nothing stands in the way every market of the block is analysed, in order |
| `PacingRules.SpendIsCosts` | arena/live/analyst.py:390-398 | over every run the spend is what was restored plus what all calls cost |
| `Outcomes.Fetched` | arena/live/outcomes.py:92-156 | an error exactly for a malformed reply or, with an exact cohort, a missing market; a resolution exactly for a resolved reply, as the dollars paid, in [0, 1] |
| `Outcomes.WriteRows` | arena/live/outcomes.py:290-308 | the transaction loop computes the specified table and count, or the first conflict or stop |
| `Outcomes.WriteSettles` | arena/live/outcomes.py:290-306 | rows written so far: nothing lost, exactly the absent rows added, one per insertion counted, agreement within tolerance |
| `Recorders.CommitMeaning` | arena/live/outcomes.py:267-315 | a transaction that fails changes nothing; one that succeeds adds exactly the fetched markets that were absent and counts them and the rest |
| `Recorders.CommittedNeverChanges` | arena/live/outcomes.py:172-320 | in every interleaving of sweeps a committed outcome never changes |
| `Recorders.OnlySuccessWrites` | arena/live/outcomes.py:316-318 | the table changes only in the step that makes a sweep succeed; a failed or cancelled sweep leaves it as it was |
| `Recorders.RecordersAgree` | arena/live/outcomes.py:254-301 | successful sweeps that saw a market resolved all agree with the stored value within the tolerance |
| `Recorders.RunsAreGood` | arena/live/outcomes.py:172-320 | what every sweep knows stays true of the table through every run |
| `RecordingRules.BeginExactly` | arena/live/outcomes.py:159-169 | a sweep starts exactly with distinct non-negative markets |
| `RecordingRules.FetchesCollect` | arena/live/outcomes.py:242-254 | a sweep gets through its markets exactly when every reply is usable, and has then collected exactly the resolved ones, each with what its reply said |
| `RecordingRules.CheckExactly` | arena/live/outcomes.py:256-267 | it fails exactly on a conflict with the rows read at the start; a dry run ends with the counts it would have had, and only absent rows call for a transaction |
| `RecordingRules.CommitExactly` | arena/live/outcomes.py:267-308 | a transaction commits exactly when no check stops it and every row that appeared meanwhile is within 1e-12; the table is then the old one and exactly the absent rows as fetched |
| `OrderClipping.ValidateOrders` | arena/sim/llm_trader.py:446-489 | computes the specified list, which for an account that owes nothing and non-negative quantities is safe and left unchanged by clipping again |
| `OrderClipping.ClipOrders` | arena/sim/llm_trader.py:461-489 | the loop over the orders, with running holdings and cash |
| `OrderClipping.BuyQtyIsLargest` | arena/sim/llm_trader.py:473-481 | a clipped purchase is the largest that fits the order, the concentration cap and the cash |
| `OrderClipping.ClipPriceExact` | arena/sim/llm_trader.py:463-464 | a clamped price is a whole number of nanos in [0.01, 0.99] |
| `OrderClipping.ValidationIsSafe` | arena/sim/llm_trader.py:446-489 | sales per outcome within the holding, purchases within the cash, each within a quarter of the portfolio, prices in range, and clipping again changes nothing |
| `OrderClipping.ParseOrders` | arena/sim/llm_trader.py:436-442 | the parser keeps the lines for at least one share, so no quantity it passes on is negative |
| `OrderClipping.AnswerIsSafe` | arena/sim/llm_trader.py:426-489 | whatever the reply says, what is placed on news is safe for the account as it stands |
| `OrderClipping.RebalanceIsSafe` | arena/sim/llm_trader.py:667-706 | whatever the reply says, a rebalance sells within the holdings |
| `OrderClipping.NeverSoldTwice` | arena/sim/llm_trader.py:693-716 | a rebalance followed, before its fills, by an answer: together they sell no more of either outcome than was held before both |
| `OrderClipping.LlmTrader.constructor` | arena/sim/llm_trader.py:446-456 | a trader starts from its account |
| `OrderClipping.LlmTrader.OnBlock` | arena/sim/llm_trader.py:816-834 | parse, validate, drop what contradicts the fair value; the orders are safe for the account |
| `OrderClipping.LlmTrader.Rebalance` | arena/sim/llm_trader.py:667-716 | sales only, validated, taken off the local holdings, which stay non-negative |
| `OrderClipping.NegativeQuantityInflates` | arena/sim/llm_trader.py:467-472 | the parser's guard is needed: a negative quantity would let a later sale exceed the holding |
| `ClippingRules.SafeListsAreKept` | arena/sim/llm_trader.py:446-489 | validation changes nothing exactly where the list is safe already |
| `ClippingRules.EachIsCutToFit` | arena/sim/llm_trader.py:461-489 | each order is kept at the nearest tradable price for the most shares that fit, and dropped exactly where none does |
| `ClippingRules.CapIsQuarterOfValue` | arena/sim/llm_trader.py:446-460 | the cap is blind to trading at the mark and is a quarter of cash alone |
| `ClippingRules.AnswerTakesASide` | arena/sim/llm_trader.py:816-834 | of the validated orders exactly those on the side of the fair value are placed |
| `ClippingRules.LinesBecomeOrders` | arena/sim/llm_trader.py:436-442 | lines become orders one by one and in order; only lines for no shares fall away |
| `Downsampling.StrideCovers` | arena/live/read_api.py:384 | the stride is the least at which the rows fit the limit |
| `Downsampling.SampleShape` | arena/live/read_api.py:384-399 | the query returns multiples of the stride and the last row, at most one row too many |
| `Downsampling.KeptRows` | arena/live/read_api.py:384-401 | at most the limit, strictly increasing, last row always, first row for limits of two or more, all rows when they fit, and then no gap of two strides |

## Left out

- The exchange itself: the Rust crates, contracts and proof guests are not part of this model.
- HTTP, SQLite, RSS, LLM and metrics calls, prompts, logging and dashboards: foreign input and output, whose results are arbitrary inputs here.
- IEEE rounding of money and prices, NaN and infinities: the arithmetic is exact.
- SHA-256 and article tokenisation: the batch id is identified by the text that is hashed, and the token sets are an arbitrary function.
- Rejection reasons, decision records, price histories and order admission of the live trader: bookkeeping beside the orders.
- `SimpleMarketMaker`: its quotes around two independently floored prices make no self-trade claim.
- Total sales of the balanced maker across its net and matched-pair ladders: the code does not cap them jointly, so each ladder is bounded on its own.
- The text of an LLM reply in the simulator: its order lines are inputs, and a reply without a usable fair value places nothing.
- Negative queue bounds and volatility windows: the constructors take them, and the queue loops would then fail on an empty deque.
- Liveness of the barrier when an arm never returns: the code has no lease timeout.
- The outer loop of the outcome recorder and the chain identity check: both only decide when a sweep is abandoned.
- Exact identifiers in error messages, and which of several conflicts is reported first.
- SizersAgree: says nothing about a sizer that forgot the market, which stores nothing.
- NeverSelfTrades: for the balanced and fast-anchor makers the condition on the ladder is sufficient, not necessary, because the spreads a run can reach are not characterised; LadderBidsExactly is exact at a given spread.
- TwiceUnlessStale: an edge of exactly zero is left to MostTrades, which gives the exact number there.
- MoreYesLowersYesQuotes: says nothing about the asks of a balanced maker whose pairs widen its spread; PairsRaiseAsks shows that those can rise.
- BalancedTrades: for a positive position limit and deviation threshold and non-negative holdings; with a zero limit or threshold the code divides by zero, which BalancedQuotes models.
- FastAnchorTrades: for a positive position limit and a non-negative sell start, likewise.
