# FanticBet: a verified model of the money core

FanticBet takes bets in play money. This project models the part of it that moves and settles that money:
users, wallets, an append-only ledger, events with markets and outcomes, bets, and the operations on them:
registration and OAuth login, placing a bet, admin adjustment, creating, editing, cancelling and settling events,
the odds, event and settlement workers, plus the read side that reports the same money (profile statistics,
leaderboard with its cache, batched event feed).

## Two granularities

**Atomic calls.** `BankOps`, `Settlement`, `CatalogueOps`, `OddsSync` and `Service` describe every service call as a
function from one database to the next, or an error. `QuoteEffects` and `EditEffects` say what a feed sync and an
admin edit do to the prices on offer, and `LineDrift` which line decides a totals bet. `Runs`, `Lifecycle`,
`VoidNeutrality`, `Stats` and `Leaderboard` prove what holds over all runs of such calls; `Samples`, `Stranding` and
`FeedExamples` hold concrete ones. The coupling of event, market, outcome and bet statuses is proved at this
granularity only, because the services check their status guards outside the transaction.
`Store`, `MoneyServices`, `SettlementService`, `AdminServices`, `FeedWorkers` and `Workers` run the same calls one repository
statement at a time on mutable tables, with every statement and every commit allowed to be lost; every contract counts the
lost ones. Each service call is proved to carry out its atomic operation completely or to change nothing. The workers have
no transaction: each listed event is attempted, a lost statement gives up that event alone and leaves a prefix of its writes,
and running it again ends as if it had never been interrupted.

`Results`, `Accounts`, `QuoteMeaning`, `FeedRows`, `AdminRows`, `Creation` and `Rounding` say what these functions mean field by
field and number by number: which side a score pays, which user an address names, which line a market is offered at, which
rows a call writes and when it is accepted.

**Interleaved statements.** `ReadCommitted` lets the statements of any number of money transactions (settlements with
arbitrary plans, bets, adjustments, registrations) interleave. A row lock is held until its transaction ends, a
statement reads what is committed plus its own transaction's writes, a blocked statement waits, and any transaction
may fail at any point. `Interleaving` proves exactly-once payment and sound wallets for every schedule.
`Serializability` proves that every schedule commits the atomic operations, one after another, in commit order, which
ties the two granularities together. `EventJobs` derives the statements of a settlement from the plan of its event and
`Progress` says how far it gets while the rows it needs are free. A settlement settles the bets it listed; `Stragglers` says
exactly which it misses. `Deadlock`, `Crossing`, `Tangles` and `TwoClosings` say exactly when settlements wait for each other's
wallets for ever, and `DeadlockExample` applies that to a reachable database.

## Conventions

- Money is an unbounded `int`; `PayoutFitsInt64` says when a payout fits a BIGINT. Odds are thousandths
  (NUMERIC(8,3), always above 1000), lines hundredths (NUMERIC(6,2)); a value from outside is a `real` and is rounded
  half away from zero when stored, or refused.
- No row is ever deleted, so in the atomic model the id of a row is its position. Interleaved bets and users take ids
  from sequences, so rolled back inserts leave gaps.
- The signup bonus is non-negative wherever a registration succeeds, because the schema refuses a negative balance.
- Scores are absent, undecodable, or two integers.
- Clock readings, feed events, quotes, whether a league exists and which statements fail are parameters.
- `Sane` is what every single write of the catalogue keeps: references exist, prices are above 1.0, codes are unique
  per market, and a TOTALS market that has an outcome has a line.

## Where the code and its comments or intent differ

- internal/service/settlement.go:295-296 says that processing bets by ascending id orders wallet locks and so excludes
  deadlock. Bet order is not wallet order. `TwoClosings.TwoDeadlockExactlyWhen` says exactly when two closings can deadlock,
  `Tangles.DeadlockExactlyWhen` the same for any number, and `DeadlockExample.SettlementsCanDeadlock` shows two events that can.
  `Deadlock.OneOrderNoCycle` proves that one order of wallets common to all settlements would exclude it.
- internal/worker/odds_sync.go:167-168 treats the draw as optional. A draw that was stored and is no longer quoted stays on
  offer at its old price (`FeedExamples.WithdrawnDrawStaysOnOffer`); `QuoteEffects.MLIsCurrentExactlyWhen` says exactly when
  every outcome is current.
- Nothing in internal/service/admin_service.go:238-242 checks that an edited outcome belongs to the edited event.
  `EditEffects.EditStaysHomeExactlyWhen` says exactly when an edit touches no other event, `EditEffects.EditCanLeaveHome` shows
  one that does.
- internal/service/settlement.go:317-355 lists the pending bets once. A bet whose stake commits later stays pending on a settled
  outcome: `Stragglers.LeftPendingExactly` says exactly which, and `Stragglers.AnyBetCanBeMissed` that this can happen to every
  bet that can be placed.
- A bet freezes its price and payout (internal/service/betting_service.go:122-132) but not its line, which
  internal/worker/odds_sync.go:203-207 moves under pending bets. `LineDrift.LineOfPlacingDecidesExactlyWhen` says exactly when
  the line a bet was placed at decides it, `FeedExamples.MovedLineLosesTheBet` shows a bet on over 2.5 settled at 3.5.
- internal/repository/stats.go:133-136 expects NULL in the ROI expression only for a zero stake. It is NULL for every user
  without a win. The order is still right, because such a user's ROI of -1 is the strict minimum (`Stats.NullsLastIsRoiOrder`).
- internal/repository/event.go:118 rewrites the status of a feed event on every upsert, so a final status of a feed event
  is not absorbing and a feed message can strand a pending bet. `Runs.StepStrandsExactlyWhen` says exactly when and
  `Stranding.FeedCanStrandABet` shows a run.

## Model

| member | source | states |
|---|---|---|
| `Payout.PayoutIsFloor` | internal/service/betting_service.go:184-192 | for every storable stake and price the payout is the exact floor of stake times odds and is never below the stake |
| `Payout.PayoutFitsInt64` | internal/service/betting_service.go:184-192 | the payout fits a BIGINT at every storable price if and only if the stake is at most 92 233 721 290 884 |
| `Payout.SplittingNeverGains` | internal/service/betting_service.go:184-192 | splitting a stake into n bets at one price pays no more than one bet and less than n fantics less |
| `BankOps.PlaceBetExactly` | internal/service/betting_service.go:71-170 | a bet is taken if and only if the range, event, market, start time and balance conditions hold; then one wallet loses the stake, one pending bet appears with the outcome's current price, its event and the floor of stake times odds as payout, one ledger row records the debit, and nothing else changes |
| `BankOps.AdjustBalanceExactly` | internal/service/admin_service.go:302-340 | an adjustment succeeds if and only if it is not zero, the wallet exists and stays non-negative; then that wallet and one ledger row with the new balance change and nothing else; otherwise the error is the documented one |
| `BankOps.SettleBetConserves` | internal/service/settlement.go:328-355 | settling a pending bet cannot fail, and for every user wallet plus outstanding credit is unchanged |
| `BankOps.SettleBetsConserve` | internal/service/settlement.go:327-355 | the same over any list of distinct pending bets in any order; exactly the listed bets are decided |
| `BankOps.SettlementClosedForm` | internal/service/settlement.go:297-361 | in whatever order the pending bets of a plan are processed, each balance grows by the sum of its bets' payouts and refunds and exactly those bets get their result |
| `Ledger.AppendKeepsBankInv` | internal/repository/wallet_transaction.go:35-50 | appending one ledger row that continues its wallet's chain keeps the whole wallet contract: chain, single bonus, ownership of rows by bets, balance equation |
| `Ledger.EnrollKeepsBankInv` | internal/service/auth_service.go:76-115 | registration keeps the wallet contract: the new user's first and only bonus row opens a chain |
| `Ledger.AdjustKeepsBankInv` | internal/service/admin_service.go:302-340 | an admin adjustment keeps the wallet contract |
| `Ledger.StakeKeepsBankInv` | internal/service/betting_service.go:108-160 | placing a bet keeps the wallet contract: the new bet owns exactly its stake row |
| `Ledger.SettleBetKeepsBankInv` | internal/service/settlement.go:328-408 | settling one pending bet succeeds and keeps the wallet contract: won owns stake and payout, void stake and refund, lost the stake only |
| `Ledger.SettleBetsKeepBankInv` | internal/service/settlement.go:327-355 | a whole settlement loop keeps the wallet contract |
| `Ledger.LastRowIsBalance` | internal/domain/wallet.go:5-6 | the balance_after of a user's last ledger row is the user's balance |
| `Ledger.OneSignupBonus` | internal/service/auth_service.go:76-115 | two signup bonus rows of one user are the same row |
| `Ledger.FirstRowIsBonus` | internal/service/auth_service.go:76-115 | every user's first ledger row is the signup bonus |
| `Plans.BuildPlan` | internal/service/settlement.go:184-241 | the loops over markets and outcomes build the specified plan, with the same refusals for a non-final status and unusable scores |
| `Plans.ApplyMLPlan` | internal/service/settlement.go:247-256 | the loop gives every outcome of an ML market its specified verdict |
| `Plans.ApplyTotalsPlan` | internal/service/settlement.go:261-288 | the loop gives every outcome of a totals market its specified verdict, push and missing line included |
| `Plans.BuildCustomPlan` | internal/service/settlement.go:135-180 | the loops build the plan in which only the named outcome wins and a market without it is void |
| `Plans.PlanCustomMarket` | internal/service/settlement.go:143-177 | one custom market: the winner search and the results agree with the specified plan |
| `Plans.AtMostOneWinner` | internal/service/settlement.go:184-288 | no plan of any kind lets two outcomes of one market win |
| `Plans.TotalsAreDecisive` | internal/service/settlement.go:261-288 | over and under are both void on a push, otherwise one wins and the other loses |
| `Results.MatchGoesTo` | internal/service/settlement.go:451-460 | on an ML market home wins exactly when home scored more, away when away did, the draw when they scored alike, and every other outcome loses |
| `Results.TotalGoesTo` | internal/service/settlement.go:464-475 | over wins above the line and under below it, every outcome is void on it, and any other code loses off it |
| `Results.NobodyWins` | internal/service/settlement.go:190-235 | a custom market settled by a score and every market of a cancelled event are void |
| `Results.NamedWins` | internal/service/settlement.go:148-177 | the outcome the admin names wins, the others of its market lose, and the outcomes of every other market are void |
| `Results.MarketEnds` | internal/service/settlement.go:184-241 | a market ends settled when a score or a winner decides it and void when not |
| `Settlement.PlanCoversEvent` | internal/service/settlement.go:184-241 | a plan names exactly the outcomes and markets of its event, each with its verdict |
| `Settlement.SettleClosedForm` | internal/service/settlement.go:89-102 | settling an existing event never fails, closes exactly that event's rows, decides exactly its pending bets and credits each user exactly what they owe |
| `Settlement.EveryListedBetHasAResult` | internal/service/settlement.go:328-337 | the branch for a bet without a result is dead |
| `Settlement.ResettlingMovesNoMoney` | internal/service/settlement.go:86-131 | after a settlement, settling the same event again with any decision changes no wallet, bet or ledger row |
| `Settlement.SettlementIsIdempotent` | internal/service/settlement.go:86-102 | repeating SettleEvent with the same arguments leaves the whole database unchanged |
| `Settlement.CustomSettlementIsIdempotent` | internal/service/settlement.go:115-131 | repeating SettleCustomEvent with the same winner leaves the whole database unchanged |
| `Settlement.SettlementsCommute` | internal/service/settlement.go:297-361 | settling two different events in either order gives the same catalogue, bets and balances |
| `Results.SettleEventExactlyWhen` | internal/service/settlement.go:184-208 | SettleEvent accepts exactly a cancellation, or a settlement by two non-negative scores, of an event that exists |
| `Results.CloseWrites` | internal/service/settlement.go:297-361 | closing writes the event's status and score, its markets' statuses and its outcomes' results, and leaves every other row as it was |
| `Results.ScoreDecidesMatchBet` | internal/service/settlement.go:247-256 | after settlement by score a pending ML bet is won and credited its payout by exactly one ledger row if the match went to its side, else it is lost and no row names it |
| `Results.ScoreDecidesTotalsBet` | internal/service/settlement.go:261-288 | the same for a totals bet by the side of the line its code names, with the stake refunded by exactly one row on the line |
| `Results.ScoreRefundsCustomBet` | internal/service/settlement.go:222-235 | settlement by score refunds every pending bet of a custom market |
| `Results.CancellationRefunds` | internal/service/settlement.go:190-204 | cancelling an event refunds every pending bet on it |
| `Results.WinnerDecidesBet` | internal/service/settlement.go:159-177 | after SettleCustomEvent a pending bet on the named outcome is won and credited its payout, one on another outcome of its market lost without a row, one on another market of the event refunded |
| `CatalogueOps.InsertMarketKeepsSane` | internal/repository/market.go:48-62 | inserting a market keeps references valid, prices above 1.0, codes unique and every priced totals market lined |
| `CatalogueOps.UpsertOutcomeKeepsSane` | internal/repository/outcome.go:48-68 | upserting an outcome on (market_id, code) keeps that too, when its market is not an unlined totals market |
| `CatalogueOps.UpdateOddsKeepsSane` | internal/repository/outcome.go:180-212 | changing a price keeps that too |
| `CatalogueOps.UpdateLineKeepsSane` | internal/repository/market.go:156-169 | an accepted change of line, NULL included, keeps that too if and only if it does not take the line from a totals market that has outcomes |
| `CatalogueOps.SameKeysKeepSane` | internal/repository/outcome.go:162-178 | status and result updates keep that too |
| `OddsSync.MainLine` | internal/worker/odds_sync.go:339-359 | the main line is the earliest of the valid lines of least cost, and exists exactly when a line is valid |
| `QuoteMeaning.MainLineIsClosest` | internal/worker/odds_sync.go:339-359 | its over and under prices are together no farther from 1.9 than those of any usable line, and nearer than those of every earlier one |
| `QuoteMeaning.ClosestIsMainLine` | internal/worker/odds_sync.go:339-359 | and it is the only line of which that is true |
| `Rounding.StoredOddsIs` | migrations/000008_create_outcomes.up.sql:1-10 | a price is stored as the nearest thousandth, a half going up, and refused exactly when it rounds to 1.000 or less or needs more than eight digits |
| `Rounding.StoredLineIs` | migrations/000007_create_markets.up.sql:1-10 | a line is stored as the nearest hundredth and refused exactly when it needs more than six digits |
| `OddsSync.PickMainTotalsLine` | internal/worker/odds_sync.go:342-359 | the loop returns that line and its prices, ok exactly when there is one |
| `OddsSync.PickMLLine` | internal/worker/odds_sync.go:326-337 | the loop returns the first line with usable home and away prices, if any |
| `OddsSync.ChunkEvents` | internal/worker/odds_sync.go:255-265 | the batches concatenate to the input, none is empty or longer than size, and all but the last are full |
| `QuoteEffects.MLFollowsQuotes` | internal/worker/odds_sync.go:125-192 | after a complete sync the ML market is open when some line is usable and suspended otherwise; each quoted code has the quoted price, every other code the price it had, and the totals step does not disturb it |
| `QuoteEffects.TotalsFollowQuotes` | internal/worker/odds_sync.go:154-216 | after a complete sync the totals market is open with the main line when there is one and suspended otherwise; quoted codes have the main line's prices, every other code the price it had |
| `QuoteMeaning.MatchIsOffered` | internal/worker/odds_sync.go:169-192 | after a complete sync the match is open at the first line that prices home and away above 1.0: home at its home price, away at its away price, the draw at its draw price if it has one |
| `QuoteMeaning.MatchIsSuspended` | internal/worker/odds_sync.go:125-173 | without such a line the match is suspended and every price stays |
| `QuoteMeaning.TotalIsOffered` | internal/worker/odds_sync.go:197-216 | after a complete sync the total is open at the line priced closest to 1.90/1.90, rounded to hundredths, over at its over price and under at its under price |
| `QuoteMeaning.TotalIsSuspended` | internal/worker/odds_sync.go:125-201 | without a usable line the total is suspended and every price stays |
| `QuoteEffects.MLIsCurrentExactlyWhen` | internal/worker/odds_sync.go:169-192 | after a sync with a usable line every outcome of the ML market carries a current quote if and only if the line quotes every code the market already had |
| `FeedExamples.WithdrawnDrawStaysOnOffer` | internal/worker/odds_sync.go:180-191 | a run from the empty database after which a draw the bookmaker has withdrawn is still on offer, open, at its old price |
| `QuoteEffects.UpsertsPrice` | internal/worker/odds_sync.go:220-250 | a run of upserts gives the quoted codes of its market the last quoted price and leaves every other price of every market alone |
| `QuoteEffects.EventResumes` | internal/worker/odds_sync.go:125-216 | from any prefix of the writes of one sync, running the sync again ends in the same catalogue and with the same error as the uninterrupted sync |
| `OddsSync.ApplyEventTwice` | internal/worker/odds_sync.go:125-250 | applying the same quotes twice, even when the first attempt stopped on an error, changes nothing the second time and ends the same way |
| `EditEffects.EditsReprice` | internal/service/admin_service.go:238-242 | accepted edits give each outcome the last price they name for its id and change nothing else |
| `EditEffects.EditStaysHomeExactlyWhen` | internal/service/admin_service.go:219-244 | an accepted edit changes no outcome of another event if and only if the last price it names for one, where it names any, is the price that outcome has already |
| `EditEffects.EditCanLeaveHome` | internal/service/admin_service.go:238-242 | a run from the empty database: two custom events are created, and an accepted edit of the first reprices an outcome of the second |
| `AdminRows.EditExactlyWhen` | internal/service/admin_service.go:192-248 | an edit is accepted for an upcoming event of the right source with editable outcomes, and of the events it moves the start of that one alone |
| `AdminRows.EditCallsExactlyWhen` | internal/service/admin_service.go:579-635 | EditEvent edits custom events and EditMatch manual ones, only with prices above 1.0, and a match only in a known league |
| `AdminRows.GoLiveExactlyWhen` | internal/service/admin_service.go:665-704 | only an upcoming manual match goes live; then its status and the statuses of its markets move and nothing else |
| `AdminRows.SetScoresExactlyWhen` | internal/service/admin_service.go:712-750 | a non-negative score is accepted once, for an open manual match, and is the settlement of that match at that score |
| `AdminRows.SettleCustomExactlyWhen` | internal/service/admin_service.go:274-292 | a winner is accepted for an open custom event, and is the custom settlement with that winner |
| `AdminRows.CancelExactlyWhen` | internal/service/admin_service.go:192-269 | EditEvent cancels an open event of any source, EditMatch an open manual match, and either is the cancelling settlement |
| `AdminRows.FeedResultExactlyWhen` | internal/worker/settlement.go:100-126 | the worker closes exactly an open, started feed event with a final status and, unless cancelled, a usable score |
| `AdminRows.ListedForSettlement` | internal/worker/settlement.go:58-67 | the worker lists exactly the started feed events that are neither settled nor cancelled |
| `AdminRows.FeedOddsExactlyWhen` | internal/worker/odds_sync.go:73-83 | quotes are written for upcoming feed events only |
| `Creation.CreateMatchWrites` | internal/service/admin_service.go:486-575 | a created match is one upcoming manual event with open markets of the given kinds and lines, in order, each with exactly the given codes at their prices |
| `Creation.CreateMatchExactlyWhen` | internal/service/admin_service.go:778-837 | a match is created in a known league, with title, start and both teams, from ML markets and lined TOTALS markets with named outcomes of their codes priced above 1.0 and storable, one of them ML |
| `Creation.CreateCustomWrites` | internal/service/admin_service.go:125-186 | a created custom event is one upcoming event with one open market and outcomes opt_1 .. opt_N at their prices |
| `Creation.CreateCustomExactlyWhen` | internal/service/admin_service.go:859-880 | a custom event is created with a title, a start and two or more named outcomes with storable prices above 1.0 |
| `Lifecycle.BuildsKeepsInStep` | internal/service/admin_service.go:125-249 | creating and editing keep the coupled statuses of event, markets and outcomes |
| `Lifecycle.EvolvesKeepsInStep` | internal/worker/event_sync.go:56-118 | feed and odds writes keep the coupled statuses of admin events |
| `Lifecycle.SetMatchStatusKeepsInStep` | internal/service/admin_service.go:665-704 | going live keeps them: live means every market suspended |
| `Lifecycle.ClosedKeepsInStep` | internal/service/settlement.go:297-361 | closing an event keeps them: cancelled means void everywhere, an outcome has a result exactly when its event is final |
| `Service.ClosingIsSettleEvent` | internal/service/admin_service.go:255-292 | cancel, scores, custom winner and feed result are the settlement service's calls behind their guards |
| `Runs.StepKeepsInv` | internal/service/admin_service.go:125-750 | every atomic service call keeps the global invariant: sane catalogue, coupled statuses, bets matching their outcome's event and result, wallet contract, one user per email address |
| `Runs.ReachableKeepsInv` | internal/domain/wallet.go:5-6 | every state any run reaches from the empty database satisfies that invariant |
| `Runs.RunIsLater` | internal/service/admin_service.go:255-292 | over any run the ledger only grows, a bet keeps its price and payout, a decided bet its status, a closed admin event its status, markets and results |
| `Runs.LoginRegistersOnce` | internal/service/oauth_service.go:71-157 | after one login, any later login of the same identity after any run returns the same user and writes nothing, so there is one account and one bonus |
| `Accounts.RegisterExactlyWhen` | internal/service/auth_service.go:76-115 | a registration is refused as a conflict when some user has the address, and otherwise adds exactly that user, wallet and bonus row |
| `Accounts.OneUserPerAddress` | migrations/000001_create_users.up.sql:5 | in every reachable database two users with one address are the same user |
| `Accounts.OneBonusPerAddress` | internal/service/auth_service.go:76-115 | in every reachable database two signup bonus rows of one address are the same row, of the configured amount |
| `Accounts.LoginFindsAddress` | internal/service/oauth_service.go:84-101 | a new identity with a known address is linked to the user who has it, and no user, wallet or row is added |
| `Accounts.LoginOpensAccount` | internal/service/oauth_service.go:103-157 | a new identity with an address nobody has, or none, opens one account with one bonus |
| `Accounts.LoginFindsIdentity` | internal/service/oauth_service.go:72-82 | a known identity logs its user in, whatever address comes with it, and writes nothing |
| `Runs.EveryTotalsBetHasALine` | internal/service/settlement.go:261-266 | in every state of the invariant the totals market of a bet has a line, so the verdict for a missing line never decides a bet |
| `LineDrift.RunKeepsRows` | internal/repository/outcome.go:48-68 | over any run every market keeps its event and kind, every outcome its market and code |
| `LineDrift.LineAtSettlementDecides` | internal/service/settlement.go:222-230 | a settlement by score gives a pending totals bet the verdict of the line its market has then |
| `LineDrift.LineOfPlacingDecidesExactlyWhen` | internal/worker/odds_sync.go:203-207 | over any run between placing and settlement by score, a totals bet gets the verdict of the line it was placed at if and only if both lines call the score alike: over and under by the side it falls on, any other code by the push |
| `FeedExamples.MovedLineLosesTheBet` | internal/worker/odds_sync.go:203-207 | a run from the empty database in which a bet on over 2.5 is lost at three goals because the feed moved the line to 3.5 |
| `Runs.StepStrandsExactlyWhen` | internal/repository/event.go:99-125 | where no closed event has a pending bet, a step keeps it so if and only if it is not a feed message with a final status for an event that has pending bets |
| `Runs.RunLeavesNoneStuck` | internal/worker/event_sync.go:17-19 | while the feed honours its pending/live filter, no run leaves a pending bet on a settled or cancelled event of any source |
| `Stranding.FeedCanStrandABet` | internal/repository/event.go:118 | a concrete run from the empty database in which a feed message with a final status strands a pending bet |
| `FeedRows.UpsertRewrites` | internal/repository/event.go:99-131 | the row of the message's fixture takes the message's start and status, and its score if it has one; it is the row the fixture had or a new one, and every other event stays |
| `FeedRows.MessageWrites` | internal/worker/event_sync.go:56-118 | a message does that, adds an open unlined market of each of the two kinds the event lacks, and touches no other row |
| `FeedRows.OneEventPerFixture` | internal/repository/event.go:99-131 | in every reachable database a fixture of the feed has one row |
| `FeedRows.RunKeepsStart` | internal/repository/event.go:117 | over any run without a message for it a fixture keeps its start |
| `FeedRows.KickOffClosesBetting` | internal/service/betting_service.go:84-108 | from the start a message announces on, whatever else happens before another message for the fixture, no bet on it is accepted |
| `VoidNeutrality.CloseKeepsSim` | internal/service/settlement.go:344-347 | a settlement refunds to the full run exactly what the missing bets stop holding in the reduced run |
| `VoidNeutrality.StakeKeepsAhead` | internal/service/betting_service.go:117-120 | the balance guard still passes when earlier void bets were never placed |
| `VoidNeutrality.VoidBetsAreNeutral` | internal/service/settlement.go:389-408 | deleting from a run every bet that ends void leaves a legal run with the same final balances and the same other bets |
| `Stats.BalanceIsProfit` | internal/repository/stats.go:44-58 | a balance is signup bonus plus admin adjustments plus the profile's profit minus the stakes still pending |
| `Stats.StatsGrow` | internal/repository/stats.go:44-58 | one more bet of the user counts once in the total and once under its status; only won and lost bets add to the stakes, a won one adds its payout minus its stake to the profit and a lost one takes its stake |
| `Stats.RowAgreesWithStats` | internal/repository/stats.go:147-164 | an all-time leaderboard row has the profile's counts, staked and profit |
| `Stats.BrowserAgreesWithStats` | web/src/pages/MyBetsPage.tsx:222-229 | the browser's fold over a user's bets gives the server's profit |
| `Stats.NullsLastIsRoiOrder` | internal/repository/stats.go:133-140 | ordering by the SQL expression, NULL for users without wins, is ordering by exact ROI |
| `Stats.LeaderboardDescends` | internal/repository/stats.go:147-164 | any list in the order of the SQL query descends by exact ROI and every row equals the profile's numbers |
| `Stats.ListedExactlyWhen` | internal/repository/stats.go:111-118 | a user is on the leaderboard exactly with at least one won or lost bet and at least the threshold of them |
| `Leaderboard.SqlTransitive` | internal/repository/stats.go:133-140 | the ordering expression, NULLs and the tie-break by user included, is transitive |
| `Leaderboard.LeaderboardExists` | internal/repository/stats.go:147-164 | for every bet history there is a list that contains every eligible user once, in that order |
| `Leaderboard.LeaderboardIsUnique` | internal/repository/stats.go:147-164 | and there is only one |
| `EventTree.GetEvent` | internal/service/event_service.go:123-144 | the per-market queries build the specified tree, not found exactly for an unknown id |
| `EventTree.TreeHoldsMarkets` | internal/repository/market.go:80-107 | the tree lists the event's markets by ascending id, all of them and no others |
| `EventTree.TreeHoldsOutcomes` | internal/repository/outcome.go:87-113 | and under each market its outcomes by ascending id, all of them and no others |
| `EventTree.BatchContainsMarkets` | internal/repository/market.go:109-139 | selecting one event's rows from the batch result is that event's own query, in order |
| `EventTree.BatchContainsOutcomes` | internal/repository/outcome.go:115-145 | selecting one market's rows from the batch result is that market's own query, in order |
| `EventTree.GroupOutcomes` | internal/service/event_service.go:98-102 | the grouping loop gives every market exactly its rows of the batch, in order |
| `EventTree.GroupMarkets` | internal/service/event_service.go:103-109 | the grouping loop gives every event exactly its market trees, in order |
| `EventTree.ListEvents` | internal/service/event_service.go:69-119 | the batched page is, event by event and in page order, exactly the tree GetEvent builds |
| `LeaderboardCache.EveryAnswerIsRecent` | internal/service/stats_service.go:103-150 | over any interleaving of requests each answer is what the repository returned for the same key, in a call whose rows were cached at most 60 seconds before, and only successful calls are cached |
| `LeaderboardCache.FreshPageIsNotAskedAgain` | internal/service/stats_service.go:129-141 | for 60 seconds after a page is stored, whatever else runs, a request for it causes no repository call |
| `LeaderboardCache.StatsService.CacheGet` | internal/service/stats_service.go:129-141 | a page is returned exactly when cached and not older than the TTL |
| `LeaderboardCache.StatsService.CachePut` | internal/service/stats_service.go:146-150 | the page replaces its key's entry and no other |
| `LeaderboardCache.StatsService.GetLeaderboard` | internal/service/stats_service.go:103-125 | one request alone takes exactly the steps of the interleaved protocol |
| `Interleaving.ListPendingFits` | internal/repository/bet.go:160-188 | the listing statement returns committed pending bets on the plan's outcomes, by ascending id |
| `Interleaving.ListPendingIsComplete` | internal/repository/bet.go:160-188 | the listing statement misses none of them |
| `Interleaving.CommitIsCalm` | internal/repository/wallet.go:63-81 | a commit moves only rows whose locks its transaction holds, so nothing another open transaction relies on changes |
| `Interleaving.CommitKeepsBooks` | internal/repository/wallet.go:83-101 | a commit keeps balances equal to ledger sums and non-negative, ledger chains serial, and each bet's rows those its status dictates |
| `Interleaving.ScheduleKeepsInv` | internal/service/settlement.go:297-408 | every interleaving of settlement, bet, adjustment and registration statements, with failures anywhere, keeps that |
| `Interleaving.ScheduleExtends` | internal/repository/bet.go:190-206 | over every interleaving the committed ledger only grows and a decided bet never changes again |
| `Interleaving.NeverPaidTwice` | internal/service/settlement.go:297-361 | in every state any interleaving reaches, two committed rows that pay or refund one bet are the same row |
| `Interleaving.CommitDecidesListed` | internal/service/settlement.go:317-355 | a settlement commits its plan's result for every bet it listed and changes nothing else of the bet |
| `Stragglers.CommitLeavesExactly` | internal/service/settlement.go:317-355 | of the committed pending bets on its plan's outcomes a committing settlement leaves pending exactly those it did not list |
| `Stragglers.LeftPendingExactly` | internal/service/settlement.go:317-355 | over every interleaving between the listing statement and the commit: the bets left pending are exactly those not yet committed when the statement listed |
| `Stragglers.AnyBetCanBeMissed` | internal/service/settlement.go:317-355 | in every reachable database, any acceptable bet and any closing of its event have an interleaving that commits both, decides every other pending bet of the event and leaves the new bet pending |
| `Stragglers.ABetCanBeLeftPending` | internal/service/settlement.go:317-355 | the same for one reachable database: two users registered, an accepted bet on the winner of a custom event, and the accepted settlement of that event |
| `Deadlock.WaitingIsStuck` | internal/repository/wallet.go:63-81 | a transaction whose next wallet another one holds does nothing on its turns |
| `Deadlock.ScheduleKeepsHeld` | internal/repository/tx.go:44-68 | over every interleaving each locked wallet is held by an open transaction that has visited it |
| `Deadlock.OneOrderNoCycle` | internal/service/settlement.go:295-296 | if all settlements under way visit wallets in one common order, no cycle of transactions of any length, of whatever kind, waits for wallets |
| `Deadlock.OneOrderNoCycleFromRest` | internal/service/settlement.go:295-296 | the same from every database the atomic services reach |
| `Deadlock.CycleLasts` | internal/repository/tx.go:44-68 | whatever the other transactions do, a wait cycle stays until one of its own transactions is made to fail |
| `EventJobs.JobCoversEvent` | internal/service/settlement.go:297-315 | the statements of a settlement mark its event's markets and rule its event's outcomes with the decision's verdicts |
| `EventJobs.EventsAreApart` | internal/service/settlement.go:297-315 | settlements of different events write no market and no outcome in common |
| `Progress.RunsToList` | internal/service/settlement.go:300-325 | from its start a settlement gets to the list of its pending bets while the market and outcome rows of its plan are free |
| `Progress.SettlesMany` | internal/service/settlement.go:327-355 | a settlement gets past its next k bets while their wallet and bet rows are free |
| `Crossing.ScheduleKeepsTracked` | internal/service/settlement.go:317-325 | while settlements of different events run, fail and restart in any order, each finds the bets it would have found at first, or has decided them all |
| `Crossing.PaidIsHeld` | internal/repository/wallet.go:63-81 | a settlement holds the wallet of every bet it has paid or refunded |
| `Tangles.CycleIsRing` | internal/service/settlement.go:295-296 | in a wait cycle each settlement stands on its list of wallets in front of one that its neighbour has passed, and no two have passed a common wallet |
| `Tangles.StageAll` | internal/service/settlement.go:295-296 | settlements whose lists form such a ring can be run into that position one after another |
| `Tangles.DeadlockExactlyWhen` | internal/service/settlement.go:295-296 | in every reachable database, closings of any number of different events can reach a wait cycle if and only if the lists of wallets they credit form such a ring at some positions |
| `TwoClosings.SharedOutcomeExcludes` | internal/service/settlement.go:309-315 | two open settlements that rule a common outcome have not both listed their bets |
| `TwoClosings.TwoDeadlockExactlyWhen` | internal/service/settlement.go:295-296 | in every reachable database two closings can deadlock if and only if their events differ and their lists cross: each comes to a wallet the other has passed, and before that they share none |
| `DeadlockExample.SettlementsCanDeadlock` | internal/service/settlement.go:295-296 | a database that a run from the empty one reaches, with two custom events whose accepted settlements can deadlock |
| `Interleaving.AtRestKeepsInv` | internal/repository/tx.go:44-68 | every state atomic service calls reach is a sound start for interleaved statements |
| `Serializability.CommitIsAtomic` | internal/repository/tx.go:50-68 | at the moment a transaction commits, wallets, bets and ledger change exactly as its atomic version changes them |
| `Serializability.ScheduleIsSerial` | internal/repository/wallet.go:63-101 | every interleaving commits what its transactions would commit run one at a time in commit order |
| `Serializability.SchedulesFromRestAreSerial` | internal/repository/wallet.go:63-101 | the same from every database the atomic services reach |
| `Serializability.SchedulesKeepOneBonus` | internal/service/auth_service.go:76-115 | over every interleaving each user's first committed ledger row, and no other, is the signup bonus of the configured amount |
| `Serializability.SchedulesFromRestKeepOneBonus` | internal/service/auth_service.go:76-115 | the same from every database the atomic services reach |
| `Serializability.AdjustAgrees` | internal/service/admin_service.go:302-340 | the atomic version of an adjustment is the adjustment of the atomic model |
| `Serializability.StakeAgrees` | internal/service/betting_service.go:108-160 | the atomic version of a stake is the stake of the atomic model |
| `Serializability.EnrollAgrees` | internal/service/auth_service.go:76-115 | the atomic version of a registration is the registration of the atomic model |
| `Serializability.SettleAgrees` | internal/service/settlement.go:327-355 | the atomic version of a settlement is the settlement loop of the atomic model |
| `Serializability.ListAgrees` | internal/repository/bet.go:160-188 | the listing statement returns exactly the rows the atomic settlement works through, in the same order |
| `Store.Database.Begin` | internal/repository/tx.go:50-54 | remembers the state to return to, or fails without effect |
| `Store.Database.End` | internal/repository/tx.go:56-68 | keeps the state after a successful function and commit, restores the state before Begin otherwise |
| `Store.Database.WalletsUpdateBalance` | internal/repository/wallet.go:83-101 | adds the delta to one wallet and returns the new balance, refused below zero |
| `Store.Database.BetsListPendingByOutcomes` | internal/repository/bet.go:160-188 | lists ids and rows of the pending bets on the given outcomes; no statement for no outcomes |
| `Store.Database.OutcomesUpsert` | internal/repository/outcome.go:48-68 | inserts or reprices one outcome and returns its id, refused by the schema's checks, and keeps every earlier write's guarantees |
| `Store.Database.EventsUpsert` | internal/repository/event.go:99-131 | inserts or rewrites the feed event and returns its id; a missing score keeps the stored one |
| `Store.Database.MarketsUpdateLine` | internal/repository/market.go:156-169 | sets the line of one market or clears it, refused when the market is missing or the line out of range |
| `MoneyServices.BettingService.PlaceBet` | internal/service/betting_service.go:71-170 | statement by statement with a failure possible at each: the whole atomic bet, with the stored bet, its id and the new balance returned, or the database unchanged and that operation's error or a lost statement |
| `MoneyServices.AdjustBalance` | internal/service/admin_service.go:302-340 | the whole atomic adjustment, with the new balance returned, or nothing |
| `MoneyServices.Register` | internal/service/auth_service.go:76-115 | user, wallet, bonus and ledger row together, or nothing |
| `MoneyServices.LoginOrRegister` | internal/service/oauth_service.go:71-157 | each of the three scenarios completely, or nothing, with the user logged in |
| `MoneyServices.Move` | internal/service/settlement.go:366-408 | lock, update and ledger row are one atomic movement, or report its error |
| `SettlementService.ApplyPlanInTx` | internal/service/settlement.go:297-361 | the row-by-row loops of applyPlan compute the atomic settlement of the plan |
| `SettlementService.SettleEvent` | internal/service/settlement.go:89-102 | the whole settlement or nothing, whatever statement fails |
| `SettlementService.SettleCustomEvent` | internal/service/settlement.go:117-131 | the whole custom settlement or nothing |
| `AdminServices.ValidateCreateMatch` | internal/service/admin_service.go:778-806 | accepts exactly titled, dated matches with valid markets of which one is ML |
| `AdminServices.ValidateMatchMarket` | internal/service/admin_service.go:811-837 | accepts exactly ML and TOTALS markets with fitting outcome codes, labels, prices above 1.0 and, for TOTALS, a line |
| `AdminServices.ValidateCreate` | internal/service/admin_service.go:859-880 | accepts exactly titled, dated events with two or more labelled outcomes priced above 1.0 |
| `AdminServices.CreateMatch` | internal/service/admin_service.go:486-541 | event, markets and outcomes together, returning the ids of the event, its first market and all outcomes in input order, or nothing; every single insert keeps the catalogue sane |
| `AdminServices.CreateCustomEvent` | internal/service/admin_service.go:125-186 | event, market and outcomes opt_1..opt_N together, returning their ids in input order, or nothing |
| `AdminServices.Edit` | internal/service/admin_service.go:192-249 | EditEvent, and EditMatch at lines 579-635: an edit or cancellation carries out its atomic step completely or changes nothing |
| `AdminServices.EditDetails` | internal/service/admin_service.go:219-248 | all edits or none |
| `AdminServices.SetMatchStatus` | internal/service/admin_service.go:665-704 | the event goes live with all its markets suspended, or nothing changes |
| `AdminServices.CancelEvent` | internal/service/admin_service.go:255-269 | behind its guards, the whole cancelling settlement or nothing |
| `AdminServices.SettleCustom` | internal/service/admin_service.go:274-292 | behind its guards, the whole custom settlement or nothing |
| `AdminServices.SetMatchScores` | internal/service/admin_service.go:712-750 | behind its guards, the whole settlement by the entered score or nothing |
| `AdminServices.ProcessEvent` | internal/worker/settlement.go:100-126 | a final status settles the event completely or not at all, any other status does nothing |
| `FeedWorkers.ApplyEvent` | internal/worker/odds_sync.go:125-165 | without a transaction: unless a statement is lost it stops where the specification stops; in any case it leaves a prefix of the specified writes, and every single write keeps the catalogue sane |
| `FeedWorkers.ApplyML` | internal/worker/odds_sync.go:169-192 | the candidate loop upserts exactly the usable prices in order, then opens the market |
| `FeedWorkers.ApplyTotals` | internal/worker/odds_sync.go:197-216 | the line is stored before the first outcome, so the market is never priced without a line |
| `Workers.SyncOdds` | internal/worker/odds_sync.go:73-120 | every event of an answered batch of ten is attempted, in list order; the events given up half way are as many as the statements lost, all others are done completely, and every write keeps the catalogue sane |
| `Workers.CleanPassIsQuoteAll` | internal/worker/odds_sync.go:73-120 | a pass that loses no statement is the plain loop over the answered events |
| `Workers.AnsweredExactlyWhen` | internal/worker/odds_sync.go:84-99 | the attempted events are exactly the listed ones whose batch of ten was answered |
| `Workers.SyncEvents` | internal/worker/event_sync.go:56-88 | every event of every answered sport is attempted, in order; the events given up half way are as many as the statements lost, all others are done completely |
| `Workers.CleanPassIsSyncAll` | internal/worker/event_sync.go:56-88 | a pass that loses no statement is the plain loop over the received events |
| `Workers.ReceivedExactlyWhen` | internal/worker/event_sync.go:56-70 | the attempted events are exactly those of the sports that answered |
| `Workers.SettleFinished` | internal/worker/settlement.go:58-95 | the pass is a run of the atomic feed results of the listed events that have an answer, in order, one left out per statement lost, and the count is the number of accepted ones |
| `Workers.PassOpsExactlyWhen` | internal/worker/settlement.go:58-95 | the pass asks for exactly the listed events with an answer, each with the status and score it was given |
| `FeedWorkers.FindMarket` | internal/worker/odds_sync.go:279-286 | finds the event's first market of a kind |
| `FeedWorkers.SyncEvent` | internal/worker/event_sync.go:69-82 | upserts the event and gives it exactly the ML and TOTALS markets it lacks, counting them; a lost statement leaves a prefix of those writes |
| `FeedWorkers.SyncResumes` | internal/worker/event_sync.go:69-118 | from any prefix of those writes, receiving the event again ends in the same catalogue as the uninterrupted sync |
| `FeedWorkers.EnsureMarkets` | internal/worker/event_sync.go:93-118 | creates the missing markets only and counts them; a lost statement leaves none or the ML market alone; every write keeps the catalogue sane |

## Left out

- HTTP handlers, DTOs, middleware, configuration and the React UI other than the fold of `computeStats`: plumbing or presentation.
- The Odds-API client, retries and decoding: quotes and feed events are arbitrary inputs. Choosing the configured bookmaker's
  markets by name is an input too, so two bookmaker names equal up to case are not distinguished by map order.
- JWT, bcrypt, refresh tokens and the OAuth exchange. Only the effects on users, identities, wallets and the ledger are modelled.
- Leagues, titles, labels, questions, featured flags, profiles, timestamps of settlement and pagination.
- Floating-point win rate and ROI: exact fractions are compared instead, also where PostgreSQL divides with limited scale.
- The week and month periods of the leaderboard and its order by profit. The cache treats all periods alike.
- Wrap-around of balances and sums beyond int64; only the payout's bound is stated.
- The workers' logged totals (but the number of settled events), logging and cancellation, and the order by start time in which they
  list events: a listing here is in id order.
- The read statements of one plan or of one event lookup count as one statement that may fail; they change nothing either way.
- A commit that took effect although its acknowledgement was lost: a failed commit has no effect here.
- Interleaved edits, odds syncs and status changes: catalogue statements appear between money statements only as locks,
  so status coupling is not claimed there.
- The reads of PlaceBet before the wallet lock in the interleaved model: they fix the price a stake carries or refuse it, which
  is a failure at any point. The email check of a registration is such a failure as well.
- The ledger's own id sequence: interleaved rows are appended at commit. A wallet's row lock is held from before its ledger row
  is inserted until commit, so per wallet this is insertion order.
- Progress, and PostgreSQL's choice of a deadlock victim: a schedule may let a transaction wait for ever, or fail at any point.
- AdminServices.CreateMatch, AdminServices.CreateCustomEvent: the results are ids; the fields that the response echoes from
  the input are not repeated.
- Waits for rows other than wallets, and deadlocks in which bets or adjustments take part while lists still change:
  the exact conditions are for settlements among themselves.
- Store.Database.MarketsUpdateLine: clearing a line is modelled as the repository writes it, but no service or worker does it.
