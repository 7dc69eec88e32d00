# The money engine of xPredict: a model and its proofs

This project models how money moves through the prediction market's backend: the double-entry ledger
and every operation that posts to it. Players' wallets are recharged and given a sign-up bonus, bets
move stakes into a liability account per market, an early close pays the live value of a bet, a
resolution pays winners and sweeps losing stakes, a reversal undoes a resolution by compensating
entries, and an event settles or reverses all its child markets one transaction at a time.

Money is counted in units of 0.0001 and prices in millionths (`backend/app/db/types.py:20-23`).

## How it is laid out

| file | contents |
|---|---|
| `Money.dfy` | half-up rounding, payout, cash-out; the same in 28-digit Decimals |
| `Domain.dfy`, `Posting.dfy`, `Lifecycle.dfy` | rows, the ledger writer, the closed form of a bet and the legs of each transition |
| `Transactions.dfy`, `Invariant.dfy`, `Exactness.dfy` | units of work as functions, the invariant each keeps, exactly when each goes through |
| `Services.dfy`, `Settlement.dfy` | what each call does and exactly when, told by balances, rows and guards alone |
| `Runs.dfy`, `Guarantees.dfy`, `History.dfy`, `Journal.dfy`, `Ordering.dfy` | any sequence of units of work, and what holds in every state |
| `KeyText.dfy` | the text form of idempotency keys |
| `Plan.dfy`, `Portfolio.dfy`, `Positions.dfy`, `Reports.dfy` | settlement plan, portfolio and what its figures mean, house P&L, reconciliation, conservation |
| `Database.dfy`, `Engine.dfy` | books, markets and audit log; the services as a class changed step by step, each method proved against its unit of work |
| `Events.dfy`, `EventGuards.dfy`, `EventService.dfy`, `EventCalls.dfy`, `MixedCalls.dfy`, `Winners.dfy` | events over several child markets, with failures, retries and other work in between |
| `Concurrency.dfy`, `Interleavings.dfy`, `SoloRuns.dfy`, `StoredWinners.dfy`, `SettledSides.dfy` | transactions as interleaved processes with row locks |
| `Examples.dfy` | concrete runs on which the code and its comments part |

The central idea is one closed form per bet: what a bet in its present status has moved through each
account. The invariant says that every fold over the journal (per account, per tagged bet, and the house
P&L formula) equals the sum of these closed forms, that cached balances equal the journal and are not
negative, and that the idempotency keys in use tell the history of each bet. Every unit of work keeps it;
the results about house accounts, portfolio, P&L, reversal and reconciliation follow from it. The class
methods and their loops are proved to do exactly the units of work, and every interleaving of processes
is proved to be a serial run of units of work in commit order.

## Where the code and its comments differ

The model follows the code. Each point has its exact condition and a concrete run or input.

- Winnings can round to nothing below price 1 (`backend/app/settlement/service.py:177` says only at 1):
  `Money.NoWinningsIff`, `Money.NoWinningsBelowOne`.
- A reversal reopens the market only when it had settled bets (`backend/app/settlement/service.py:299-376`),
  so a full reversal does not always bring an event back to "open"
  (`backend/app/settlement/event_service.py:457-458`): `EventService.ReversePassStatus`,
  `Examples.ReversedIsNotOpen`. Reopening also keeps the stored winner.
- Resolving again after a reversal collides only for a bet that lands on a side it was settled on before
  (`backend/app/settlement/constants.py:66-70` says always): `Exactness.ResolveOkIff` with
  `Guarantees.SettleKeyIsHistory`, `Examples.OnlyTheSameSideCollides`.
- Calls for different outcomes can leave two YES winners; the derived status uses `any`
  (`backend/app/settlement/event_service.py:126-129` promises exactly one): `EventCalls.OneYesWinnerIff`,
  `Winners.TwoYesWinners`.
- `mark_resolved` reads the market row without a lock (`backend/app/settlement/adapters.py:41-63`), so two
  concurrent resolutions for different winners can both write it, the second over the first:
  `StoredWinners.WinnerIsStableIff`, `StoredWinners.RaceOverwrites`.
- A bet placed with an old OPEN snapshot after the market was resolved is settled by the next resolution, on
  whatever winner that names, while `mark_resolved` keeps the first one
  (`backend/app/settlement/adapters.py:57-60`), so the winning bets of a RESOLVED market need not be those on its
  stored winner: `SettledSides.SidesFollowIff`, `SettledSides.LateBetIsMisjudged`.
- An outcome's price may be 0 (`backend/alembic/versions/0004_phase6_polymarket_sync.py:85-87`) and placement
  accepts it. Such a bet can be lost, but it cannot be won or closed, and the owner's portfolio raises:
  `Portfolio.PortfolioRaisesIff`, `Examples.FreePriceBreaksPortfolio`.
- The admin's list of bets counts a closed bet as a full loss (`backend/app/admin/service.py:542-551`); the
  portfolio is the specification here: `Portfolio.AdminViewAgreesIff`, `Examples.AdminShowsLoss`.
- A reversal reads its bets without `FOR UPDATE` (`backend/app/settlement/service.py:283-296`); what protects it
  is the reverse key: `Invariant.StaleReversalFails`, `Interleavings.StaleReversalRollsBack`.

## Model

| member | source | states |
|---|---|---|
| `Money.HalfUp` | backend/app/settlement/payout.py:29-31 | Rounding to the ledger scale gives an integer at most half a unit from the exact quotient, ties upwards. |
| `Money.HalfUpUnique` | backend/app/settlement/payout.py:29-31 | No other integer meets that bound, so the bound is a definition of half-up rounding. |
| `Money.PayoutCoversStake` | backend/app/settlement/payout.py:34-49 | A winner at a price in (0, 1] is never paid less than the stake. |
| `Money.NoWinningsIff` | backend/app/settlement/service.py:177-187 | The winnings leg is skipped exactly when twice the stake times the distance of the price from 1 is below the price; the comment at line 177 names price 1 only. |
| `Money.NoWinningsBelowOne` | backend/app/settlement/service.py:177-187 | A concrete stake and a price below 1 for which the winnings round to nothing. |
| `Money.CashoutEndpoints` | backend/app/settlement/payout.py:62-81 | Cashing out at the entry price returns the stake, at price 1 the full payout, at price 0 nothing. |
| `Money.CashoutMonotone` | backend/app/settlement/payout.py:62-81 | A higher live price never lowers the cash-out. |
| `Money.CashoutAgainstStake` | backend/app/settlement/payout.py:62-81 | The cash-out is at least (at most) the stake when the live price is at least (at most) the entry price, and never above the payout. |
| `DecimalMoney.TwoStage` | backend/app/settlement/payout.py:29-49 | Rounding half-even on any fine grid and then half-up to the ledger scale is one exact half-up rounding: non-ties keep clear of the boundary and ties are exact. |
| `DecimalMoney.QuotientIsExact` | backend/app/settlement/payout.py:29-49 | Dividing at 28 significant digits and then quantizing equals exact half-up rounding for every divisor up to one million. |
| `DecimalMoney.PayoutIsExact` | backend/app/settlement/payout.py:34-81 | Hence compute_payout and cashout_value, as they compute in Decimals, are the exact integer formulas, for every six-digit price and every stake below 10^15 units. |
| `Exactness.PlacedStakesAreExact` | backend/app/core/config.py:99-101 | Every stake that placement accepts under the configured global maximum is paid out and cashed out exactly. |
| `Posting.PostAllEffect` | backend/app/wallet/service.py:121-181 | Posting a list of legs appends that many transfers and twice as many entries, moves every balance by the net of the legs and every fold over the journal by their reading, uses exactly their keys, none of which was in use, and never ends below zero. |
| `Posting.PostAllOkIff` | backend/alembic/versions/0004_phase3_wallet_ledger.py:119-156 | A pass over legs in which no account is both debited and credited goes through exactly when its keys are fresh and no debited account would end below zero: the floor after each single leg adds nothing. |
| `Ordering.OrderDoesNotMatter` | backend/app/settlement/service.py:210-221 | Every permutation of such legs succeeds or fails alike and ends with the same balances and the same journal totals. |
| `Ordering.PassOrderDoesNotMatter` | backend/app/settlement/service.py:161-221 | In particular every order of the legs of a resolution or a reversal. |
| `Ordering.CloseOrderDoesNotMatter` | backend/app/bets/service.py:323-381 | And of the legs of a cash-out. |
| `KeyText.SameTextIffSameKey` | backend/app/settlement/constants.py:47-71 | Two key strings are equal exactly when namespace, id and leg are, given fixed-length ids and client keys outside the namespaces, so keys can be treated as structured values. |
| `Lifecycle.PlaceMoves` | backend/app/bets/service.py:170-188 | Placement posts, on every account, exactly what a pending bet stands for. |
| `Lifecycle.SettleMoves` | backend/app/settlement/service.py:161-199 | The legs of one settlement are, on every account, the difference between the settled and the pending closed form of the bet. |
| `Lifecycle.ReverseMirrorsSettle` | backend/app/settlement/service.py:312-352 | Each reversal leg is the settlement leg with debit and credit exchanged and the same amount, although amounts are recomputed. |
| `Lifecycle.ReverseMoves` | backend/app/settlement/service.py:312-352 | The legs of one reversal are the difference between the pending and the settled closed form. |
| `Lifecycle.CloseMoves` | backend/app/bets/service.py:323-361 | The legs of a close are the difference between the closed and the pending closed form, in all its branches. |
| `Lifecycle.CloseLegsExact` | backend/app/bets/service.py:315-361 | All close legs are positive; they credit the wallet exactly the cash-out, drain exactly the stake, and charge gain or loss to the right house account. |
| `Lifecycle.BatchMoves` | backend/app/settlement/service.py:161-199 | A whole pass over any list of bets posts exactly the change of the sum of closed forms, on every account and for every tagged bet. |
| `Lifecycle.ReversalNegatesSettlement` | backend/app/settlement/service.py:309-352 | On every account a reversal pass is the negation of the settlement pass over the same bets. |
| `Lifecycle.BatchBetsAt` | backend/app/settlement/service.py:200 | A pass flips its own bets, each to its side (or back to pending), and no other. |
| `Lifecycle.BatchKeys` | backend/app/settlement/service.py:211-215 | The keys of a pass are exactly one per posted leg of each of its bets. |
| `Lifecycle.BatchKeysDistinct` | backend/app/settlement/service.py:211-215 | No key occurs twice in one pass. |
| `Lifecycle.BatchOneSided` | backend/app/settlement/service.py:161-199 | In one pass no account is both debited and credited. |
| `Transactions.PendingVerdicts` | backend/app/settlement/service.py:117-130 | The selection holds exactly the pending bets of the market, each once, judged by whether its outcome is the winner. |
| `Transactions.SettledVerdicts` | backend/app/settlement/service.py:283-296 | The selection holds exactly the settled bets of the market, each once, with the side it is on. |
| `Transactions.FindTransfer` | backend/app/wallet/service.py:251-260 | A duplicate funding key answers with the transfer that already carries it. |
| `Domain.MarketView.Find` | backend/app/bets/market_port.py:61-63 | The outcome lookup finds an outcome with that id exactly when there is one. |
| `Services.LegIsPosted` | backend/app/wallet/service.py:121-181 | From any state a leg is posted exactly when its amount is positive, both accounts exist, the debit balance covers it and its key is unused; then the amount moves from debit to credit and nowhere else, under one transfer with its kind, key, actor and bet, and two entries. |
| `Services.AccountsOpenOnce` | backend/app/wallet/service.py:93-115 | A user gets one wallet, empty; a market pool is opened empty once and otherwise left alone. |
| `Services.TransferMovesAmount` | backend/app/wallet/service.py:337-400 | A direct transfer goes through exactly when the amount is positive, both accounts exist, the debit balance covers it and the key is unused; then debit loses and credit gains the amount and no other balance changes. Each refusal has its own error. |
| `Services.TransferStep` | backend/app/wallet/service.py:337-400 | The same of the unit of work that runs and interleavings use. |
| `Services.FundingMovesAmount` | backend/app/wallet/service.py:220-261 | The shared body: on a fresh key the wallet gains and house promo loses the amount; on a used one nothing changes and the answer is the transfer that carries it. |
| `Services.RechargeMovesAmount` | backend/app/wallet/service.py:215-261 | A recharge goes through exactly for the house provider, a positive amount and an existing wallet, and if the key is fresh when house promo covers it; with the effect above. |
| `Services.BonusMovesAmount` | backend/app/wallet/service.py:291-331 | The same for the sign-up bonus, whose key is the user. |
| `Services.RechargeStep` | backend/app/wallet/service.py:187-261 | The same of a recharge as the unit of work that runs and interleavings use. |
| `Services.BonusStep` | backend/app/wallet/service.py:267-331 | The same of the bonus. |
| `Services.RechargeIsIdempotent` | backend/app/wallet/service.py:251-260 | Whatever is committed in between, a repeated recharge under the same key, for any amount and at any time, answers the first transfer and changes nothing. |
| `Services.BonusIsGrantedOnce` | backend/app/wallet/service.py:321-330 | The same for a second bonus of one user; a bonus to another user is not affected. |
| `Services.FundedOnce` | backend/app/wallet/service.py:283-331 | The same between any two points of a run. |
| `Services.QuoteIff` | backend/app/bets/service.py:105-135 | The guards on the snapshot, each spelled out with the error it answers with: positive stake, market there, OPEN and before its deadline, outcome listed, the market's own stake bounds or 1.0000 and 100000.0000. The price is one the market offers for that very outcome. |
| `Services.InsertsBet` | backend/app/bets/service.py:141-189 | The bet transaction goes through exactly when the wallet exists and covers the stake; it appends the pending bet and moves the stake from wallet to pool. |
| `Services.PlacementMovesStake` | backend/app/bets/service.py:141-189 | The unit of work, with all guards: exactly when it goes through, and the bet, transfer and balances it leaves. |
| `Services.PlaceBetMovesStake` | backend/app/bets/service.py:105-189 | The whole call, the pool's own unit of work included; a refused one may have opened the pool and has done nothing else. |
| `Services.CloseQuoteIff` | backend/app/bets/service.py:304-315 | The guards of a close on the snapshot, each with its error; the exit price is one the market offers for the bet's own outcome. |
| `Services.SaleOkIff` | backend/app/bets/service.py:277-385 | From any valid state and for any snapshot, a close goes through exactly when the bet exists, is the caller's and pending, the market is there, OPEN and before its deadline, lists the outcome, the bet's price is not 0, the pool has the stake and house promo covers the gain. |
| `Services.SalePays` | backend/app/bets/service.py:315-385 | Then the bet is CLOSED at that price, no other bet changes, and wallet, pool, house promo and house revenue move by the cash-out and its difference to the stake, no other account. |
| `Services.SaleErrors` | backend/app/bets/service.py:277-315 | Which refusal a close answers with: not the caller's, not pending, no market, not open, no outcome. |
| `Invariant.SeededIsValid` | backend/alembic/versions/0004_phase3_wallet_ledger.py:228-237 | The seeded database satisfies the invariant. |
| `Invariant.OutsideLegKeepsValid` | backend/app/wallet/service.py:121-181 | Recharges, bonuses and direct transfers keep the invariant. |
| `Invariant.InsertBetKeepsValid` | backend/app/bets/service.py:141-189 | Placement keeps it, whatever market snapshot it used. |
| `Invariant.CloseKeepsValid` | backend/app/bets/service.py:315-385 | An early close keeps it in every branch. |
| `Invariant.PassKeepsValid` | backend/app/settlement/service.py:110-221 | A resolution over any pending bets and a reversal over bets read earlier without a lock both keep it. |
| `Invariant.StaleReversalFails` | backend/app/settlement/service.py:283-296 | A reversal that read a bet before another reversal reopened it runs into the used key and rolls back. |
| `Runs.StepKeepsValid` | backend/app/wallet/service.py:121-181 | Every unit of work keeps the invariant and only appends to the journal. |
| `Runs.RunIsValid` | backend/alembic/versions/0004_phase3_wallet_ledger.py:119-156 | The invariant (balances equal the journal, none below zero, keys unique, journal equal to the closed forms of all bets) holds in every state of every run. |
| `Runs.RunExtends` | backend/app/settlement/service.py:270-273 | The journal of an earlier state is a prefix of the journal of a later one, and what placement locked never changes. |
| `Exactness.ResolveOkIff` | backend/app/settlement/service.py:110-221 | From any valid state a resolution goes through exactly when no winner has price 0, no bet lands on a side it was settled on before, house promo covers the winnings, and the pool still has the stakes. |
| `Exactness.PoolsHaveTheStakes` | backend/app/settlement/service.py:161-199 | The pool always has the stakes, unless direct transfers took money out of it: house promo is then the only floor a resolution can hit. |
| `Exactness.ReverseOkIff` | backend/app/settlement/service.py:275-277 | From any valid state a reversal of bets on their present side never collides on keys; it goes through exactly when every winner still has the payouts and house revenue the lost stakes. |
| `Exactness.RevenueHasTheLosses` | backend/app/settlement/service.py:275-277 | House revenue always has them, unless direct transfers took money out of it: only winners' wallets can then refuse. |
| `Exactness.SellOkIff` | backend/app/bets/service.py:277-385 | From any valid state a pending bet on an open market can be cashed out exactly when its price is not 0, its pool has the stake, and house promo covers the gain. |
| `Exactness.PoolHasTheStake` | backend/app/bets/service.py:323-361 | The pool always has the stake, unless direct transfers took money out of it. |
| `Exactness.CloseFresh` | backend/app/bets/constants.py:57-63 | A pending bet never collides on close keys. |
| `Exactness.BatchNet` | backend/app/settlement/service.py:161-199 | On every account: a settlement takes winnings from house promo and stakes from the pools and brings payouts to the wallets and lost stakes to house revenue, to the unit; a reversal takes all of it back. |
| `Exactness.SettleCoveredIff` | backend/app/settlement/service.py:161-199 | The floors a settlement pass could hit are those of house promo and of the pools, with the exact amounts. |
| `Exactness.ReverseCoveredIff` | backend/app/settlement/service.py:275-277 | The floors a reversal pass could hit are those of the winners' wallets and of house revenue, with the exact amounts. |
| `Settlement.ResolutionOkIff` | backend/app/settlement/service.py:109-221 | From any valid state a resolution goes through exactly when the market exists and is not voided, no winning bet has price 0, no bet lands on a side it was settled on before, house promo covers the winnings and the pool has the stakes. |
| `Settlement.ResolutionLeaves` | backend/app/settlement/service.py:146-256 | Then exactly the pending bets of the market are settled, each by whether it is on the winner; every account moves by the shares of those bets; the row is stamped with winner and time unless it was RESOLVED already; and the audit row tells actor, reason, number of bets, what house revenue gained and what reached the wallets. |
| `Settlement.ReversalOkIff` | backend/app/settlement/service.py:281-376 | A reversal goes through exactly when the market exists if it had a settled bet, every winner still has the payouts, and house revenue the lost stakes. |
| `Settlement.ReversalLeaves` | backend/app/settlement/service.py:298-391 | Then exactly the settled bets are pending again, every account gives back its share, the row is reopened if there was a settled bet and keeps its winner, and the audit row counts the bets. |
| `Settlement.SecondReversalChangesNothing` | backend/app/settlement/service.py:270-273 | A second reversal posts nothing, reopens nothing and answers 0. |
| `Guarantees.PoolHoldsPendingStakes` | backend/app/bets/service.py:141-189 | Each market's liability balance is the sum of the stakes of its pending bets plus what direct transfers moved there. |
| `Guarantees.HouseClosedForms` | backend/app/settlement/service.py:163-199 | House revenue is the lost stakes plus what closes below stake gave up; house promo is its opening minus funding, winnings of won bets and gains of closes above stake; each plus what direct transfers moved there. |
| `Guarantees.ReachableClosedForms` | backend/app/bets/service.py:323-385 | All of these closed forms, and no negative balance, in every state of every run. |
| `Runs.RunKeepsPlain` | backend/app/wallet/service.py:337-400 | In runs whose direct transfers go from wallet to wallet, they move nothing through house and pool accounts. |
| `Guarantees.BetMoneyIsExact` | backend/app/settlement/service.py:161-221 | The entries tagged with a bet always add up to exactly one of payout, nothing and cash-out for its owner, however often it was settled and reversed. |
| `Guarantees.ReversalIsInverse` | backend/app/settlement/service.py:309-373 | Whatever happened in between, a reversal changes every account by the negation of what settling the currently settled bets does, and the old journal is a prefix of the new one. |
| `Guarantees.ReversalReopensBets` | backend/app/settlement/service.py:353 | Exactly the settled bets of the market return to pending. |
| `Guarantees.ReversalClearsEntries` | backend/app/settlement/service.py:309-373 | Afterwards the entries of each reopened bet add up to its placement alone, on every account. |
| `Guarantees.SettleKeyIsHistory` | backend/app/settlement/constants.py:58-71 | A settle key is in use exactly when the bet was on that side at some earlier point of the run; with ResolveOkIff, resolving again collides exactly for a bet that lands on a side it was on before. The note at lines 66-70 says that it always collides. |
| `Guarantees.NewSettleKey` | backend/app/settlement/constants.py:47-55 | New settle keys come from resolutions only, for the bets and sides they hold. |
| `Guarantees.HistoryStep` | backend/app/settlement/constants.py:47-55 | A unit of work brings a settle key into use exactly when it moves the bet to that side. |
| `Guarantees.SideIsEnteredOnce` | backend/app/settlement/constants.py:47-71 | Once a bet has left a side by reversal it never comes back to it: at most one win and one loss per bet in any run. |
| `Guarantees.LeavingASide` | backend/app/settlement/service.py:309-373 | A bet leaves the side it was settled on only through a reversal, which uses that side's reverse key. |
| `History.OnePlacementEach` | backend/app/bets/service.py:170-188 | In any run every bet has exactly one placement transfer, and in every other transfer key, kind and bet tag say the same. |
| `History.RunKeepsOneResult` | backend/app/bets/service.py:323-361 | No bet ever uses both the winnings key and the loss key of a close. |
| `History.TransfersPerBetAreBounded` | backend/app/settlement/constants.py:47-71 | However long the run, at most nine transfers are about one bet. |
| `Plan.BuildSettlementPlan` | backend/app/settlement/plan.py:61-106 | The loop raises exactly when some winning bet has no defined payout, and otherwise classifies every bet in order and adds up payouts and losing stakes. |
| `Plan.JudgedIsLedgered` | backend/app/settlement/plan.py:77-100 | Every figure of a planned bet, a loser's pnl of minus the stake included, is what the ledger moves for it. |
| `Plan.PlanTotalsArePosted` | backend/app/settlement/plan.py:61-106 | For any bets the posted legs credit wallets by total_payout, house revenue by total_loser_stake, and drain the pools by the sum of all stakes. |
| `Portfolio.BuildPortfolio` | backend/app/bets/portfolio.py:106-187 | The loop raises exactly when some position has no defined value, and otherwise partitions the positions in order. |
| `Portfolio.PortfolioRefinesLedger` | backend/app/bets/service.py:192-247 | In every valid state a wallet holds its funding plus the realized results of the settled positions minus the stakes of the open ones. |
| `Portfolio.PortfolioRaisesIff` | backend/app/bets/portfolio.py:106-187 | A portfolio raises exactly when the player holds a pending bet placed at price 0; the missing exit price the code guards against cannot occur. |
| `Positions.LiveOddsIff` | backend/app/bets/service.py:209-235 | A position is priced exactly when its market can be read and lists its outcome, at a price the market offers for that outcome. |
| `Positions.CurrentValueIsCashout` | backend/app/bets/portfolio.py:111-136 | The current value of an open position is what closing it at that quote would pay, to the unit; without a quote it is the stake. |
| `Positions.PotentialIsTheWin` | backend/app/bets/portfolio.py:112-128 | The potential payout is what a win would put into the wallet. |
| `Positions.RealizedIsLedgered` | backend/app/bets/portfolio.py:138-184 | The realized result of a settled position is what the ledger has moved for that bet through the wallet; it counts as won exactly when it won or was closed for more than the stake. |
| `Positions.InputsDescend` | backend/app/bets/service.py:204-212 | The player's bets are read newest first. |
| `Positions.ViewHoldsAll` | backend/app/bets/portfolio.py:106-187 | Every bet becomes exactly one position, open when pending and settled otherwise. |
| `Positions.ViewKeepsOrder` | backend/app/bets/portfolio.py:106-187 | Both lists of a player's portfolio are newest first. |
| `Portfolio.AdminViewAgreesIff` | backend/app/admin/service.py:537-551 | The admin's list of bets shows no result for a pending bet, and for any other the portfolio's result exactly when the bet was not closed for more than nothing. |
| `Kpi.PnlCountsWindow` | backend/app/admin/kpi_service.py:160-166 | An entry counts in a window exactly when it was written at its start or later and before its end. |
| `Kpi.PnlIsAdditive` | backend/app/admin/kpi_service.py:103-167 | House P&L over a window is the sum over two adjacent windows. |
| `Kpi.CumulativePnl` | backend/app/admin/kpi_service.py:103-167 | Without a window the two sums are one signed fold over all entries. |
| `Kpi.PnlIsPresentPositions` | backend/app/admin/kpi_service.py:103-167 | Cumulative house P&L, a fold over every entry ever posted, is the stakes of the bets lost now minus the winnings of the bets won now. |
| `Reconciliation.Reconcile` | backend/app/wallet/reconcile.py:87-145 | Over any rows whatsoever every account but house promo is checked, and exactly those whose cache differs from the fold of their entries are reported, once each. |
| `Reconciliation.LedgerSumIsTotal` | backend/app/wallet/reconcile.py:89-106 | The grouped sum splits into what bets, funding and direct transfers moved. |
| `Reconciliation.NoDrift` | backend/app/wallet/reconcile.py:87-145 | In every valid state nothing is reported. |
| `Conservation.StepConserves` | backend/app/wallet/service.py:121-181 | Every unit of work keeps the sum of all balances. |
| `Conservation.RunConserves` | backend/app/wallet/service.py:121-181 | In every reachable state all balances together are the seed of house promo. |
| `Journal.RunKeepsJournal` | backend/app/wallet/service.py:121-181 | In every reachable state the journal is double-entry: each transfer owns one debit and one credit entry of the same positive amount, and the version of an account is the number of its debits. |
| `Database.TransactionsAreSteps` | backend/app/settlement/service.py:110-256 | Resolution and reversal of a whole market are units of work of the runs. |
| `Database.SecondResolveChangesNothing` | backend/app/settlement/adapters.py:57-65 | A second resolution, on any outcome, posts no leg and keeps the stored winner. |
| `Database.ReversalReopensMarketIff` | backend/app/settlement/service.py:299-376 | A reversal reopens the market exactly when it had a settled bet, touches no other market, and never forgets the winner. |
| `Engine.MoneyEngine.constructor` | backend/alembic/versions/0004_phase3_wallet_ledger.py:228-237 | A new database holds the two seeded accounts and nothing else. |
| `Engine.MoneyEngine.PostTransfer` | backend/app/wallet/service.py:121-181 | One transfer with two entries and two balance updates, or the constraint that refuses it. |
| `Engine.MoneyEngine.CreateWallet` | backend/app/wallet/service.py:93-115 | Succeeds exactly for a user without a wallet, and adds an empty one. |
| `Engine.MoneyEngine.FundWallet` | backend/app/wallet/service.py:220-261 | On a used key the answer is the transfer that carries it and nothing changes; on a fresh one the amount moves under a new transfer, or an error leaves everything as it was. |
| `Engine.MoneyEngine.Recharge` | backend/app/wallet/service.py:187-261 | Succeeds exactly for the house provider, a positive amount, an existing wallet and, on a fresh key, enough house promo; then funds once, or answers the earlier transfer. |
| `Engine.MoneyEngine.GrantSignupBonus` | backend/app/wallet/service.py:267-331 | The same under the user's own key: one bonus per user, ever. |
| `Engine.MoneyEngine.TransferMoney` | backend/app/wallet/service.py:337-400 | Succeeds exactly when the amount is positive, both accounts exist, the balance covers it and the key is unused; moves that amount between those accounts and nothing else, or leaves everything as it was. |
| `Engine.MoneyEngine.PlaceBet` | backend/app/bets/service.py:86-189 | Succeeds exactly when every guard holds, each spelled out; the new bet has what was asked for at a price the market offers for that outcome, and its stake is in the pool. Refused, it may have opened the pool and has done nothing else. |
| `Engine.MoneyEngine.AcceptBet` | backend/app/bets/service.py:141-189 | The bet transaction: balance check, bet row and transfer together, or nothing. |
| `Engine.MoneyEngine.PostSpecs` | backend/app/settlement/service.py:210-221 | The posting loop does what posting the whole list does, stopping at the first failure. |
| `Engine.MoneyEngine.SellPosition` | backend/app/bets/service.py:250-397 | Succeeds exactly when every guard holds, each spelled out; answers the cash-out at a price the market offers for the bet's outcome and pays it, or leaves everything as it was. |
| `Engine.CloseSpecs` | backend/app/bets/service.py:315-361 | The answered cash-out and the specs of the close legs. |
| `Engine.MoneyEngine.PayClose` | backend/app/bets/service.py:363-385 | Legs posted and bet marked CLOSED together, answering the cash-out, or everything as it was. |
| `Engine.MoneyEngine.SelectPending` | backend/app/settlement/service.py:117-130 | The loop over the bets selects the pending ones of the market. |
| `Engine.MoneyEngine.SelectSettled` | backend/app/settlement/service.py:283-296 | The loop over the bets selects the settled ones of the market. |
| `Engine.MoneyEngine.ApplyPlan` | backend/app/settlement/service.py:159-199 | The loop over the plan derives the legs of every bet and flips its status. |
| `Engine.MoneyEngine.ApplyReversal` | backend/app/settlement/service.py:309-353 | The loop over the settled bets derives the compensating legs and reopens each bet. |
| `Engine.MoneyEngine.SettlePending` | backend/app/settlement/service.py:109-256 | The body of the transaction: on success all tables and the plan are those of the whole resolution, otherwise it is its error, with whatever was already written left for the rollback. |
| `Engine.MoneyEngine.ResolveMarket` | backend/app/settlement/service.py:84-256 | Plan, flips, postings, market row and audit row together; any failure, even of mark_resolved after the postings, leaves everything as it was. |
| `Engine.MoneyEngine.ReverseAndReopen` | backend/app/settlement/service.py:298-376 | The compensating pass and then the market back to CLOSED, or the first error of the two. |
| `Engine.MoneyEngine.UndoSettled` | backend/app/settlement/service.py:281-391 | The same for the body of a reversal. |
| `Engine.MoneyEngine.ReverseSettlement` | backend/app/settlement/service.py:259-391 | Compensating postings, flips and the reopened market together; without a settled bet only the audit row is written and the market is not reopened. |
| `Engine.MoneyEngine.Rollback` | backend/app/settlement/service.py:104-107 | Leaving a transaction by an exception restores every table. |
| `Engine.MoneyEngine.PlanPending` | backend/app/settlement/service.py:110-144 | Selects the pending bets and plans them; raises exactly when one of them would win at price 0. |
| `Engine.MoneyEngine.SettleHeld` | backend/app/settlement/service.py:146-221 | Flips, then postings, equal the pass over the held bets, or its error. |
| `Engine.MoneyEngine.ReverseSeen` | backend/app/settlement/service.py:298-373 | The same for the settled bets of a reversal. |
| `Engine.SettleSpecs` | backend/app/settlement/service.py:161-199 | The specs of one planned bet are its settlement legs. |
| `Engine.ReverseSpecs` | backend/app/settlement/service.py:312-352 | The specs of one settled bet are its reversal legs. |
| `Engine.MoneyEngine.StampResolved` | backend/app/settlement/adapters.py:32-65 | Refuses a missing or voided market, leaves a resolved one alone, stamps any other. |
| `Engine.MoneyEngine.StampUnresolved` | backend/app/settlement/adapters.py:67-72 | Back to CLOSED; the stored winner stays. |
| `Engine.MoneyEngine.Positions` | backend/app/bets/service.py:204-227 | The loop collects exactly the player's bets, newest first, each with its live quote. |
| `Engine.MoneyEngine.GetPortfolio` | backend/app/bets/service.py:192-247 | Read-only; raises exactly for a pending bet at price 0, and otherwise the wallet balance is what the view adds up to. |
| `Engine.UnpayableIffPlanRaises` | backend/app/settlement/plan.py:77-79 | The plan of the selected bets raises exactly when a winner has price 0. |
| `EventModel.EventStatusIff` | backend/app/settlement/event_service.py:105-129 | Each of the four derived statuses, exactly; several YES winners still read as resolved. |
| `EventModel.StatusOfIff` | backend/app/settlement/event_service.py:619-625 | A child reads as a YES winner exactly when its stored winner is its first YES outcome. |
| `EventModel.FailedIffNotThrough` | backend/app/settlement/event_service.py:485-508 | Of the children tried, those reported as failed are exactly those that did not go through. |
| `EventModel.ChildDone` | backend/app/settlement/event_service.py:485-501 | A child that goes through joins those that are done; going through again pays nobody and keeps the stored winner. |
| `EventModel.RunFromStart` | backend/app/settlement/event_service.py:472-508 | After any attempts exactly the children that went through are settled, each on its outcome, and everything else is as it was at the start. |
| `EventModel.EventRetriesConverge` | backend/app/settlement/event_service.py:472-508 | Any two lists of child attempts that give each child the same outcome, settled or void, end alike once every child went through in both. |
| `EventModel.CompletedIsCompletable` | backend/app/settlement/event_service.py:472-508 | If any run of attempts ever took every child through, the starting state is completable: no winner at price 0, no key in the way, every child's row can be stamped, and house promo covers the winnings of all children together, as each pool does its stakes. |
| `EventModel.NextChildSucceeds` | backend/app/settlement/event_service.py:485-501 | From any point of a failure-free pass over a completable event the next child goes through. |
| `EventModel.FailureFreePassSucceeds` | backend/app/settlement/event_service.py:472-508 | So a pass without outside faults over a completable event has no failed child. |
| `EventModel.PassCompletesIff` | backend/app/settlement/event_service.py:472-508 | One pass without outside faults takes every child through exactly when the state it starts from is completable. |
| `EventModel.RetriesEqualOnePass` | backend/app/settlement/event_service.py:472-508 | Any such list that completed its children ends like one failure-free pass over them. |
| `EventCalls.TriesOkIff` | backend/app/settlement/event_service.py:240-302 | Whether a resolve_event call passes its guards depends on the children's outcomes and a non-blank reason only. |
| `EventCalls.TriesFollowAssignment` | backend/app/settlement/event_service.py:289-302 | A call that passes tries every child of the group, each on the outcome the group and the winning outcome determine. |
| `EventCalls.TriesStay` | backend/app/settlement/event_service.py:289-302 | The settle list is the same before and after any settling, so a retry builds the list of the first call. |
| `EventCalls.RetriedCallsEqualOneCall` | backend/app/settlement/event_service.py:293-325 | For one group and one winning outcome, however many resolve_event calls are made, by whomever, for whatever reasons, under any failures: once every child has gone through, balances, bets and child winners are those of one call without faults, which has no failed child. |
| `EventCalls.OneYesWinnerIff` | backend/app/settlement/event_service.py:125-129 | From any child rows, a resolve without failures leaves the winning child as the only YES winner exactly when every child already RESOLVED before the call agrees with that. |
| `EventCalls.RetriedOneYesWinnerIff` | backend/app/settlement/event_service.py:125-129 | The same over any number of calls, once every child has gone through. |
| `MixedCalls.MixedRunsConverge` | backend/app/settlement/event_service.py:293-325 | Between the resolve_event calls for one group and outcome other work may commit: funding, placements even on the children, closes, resolutions and reversals of bets of other markets. In any two such runs in which every child has gone through, the bets the group had at the start, the money that moved for each of them and the stored winners are the same. |
| `MixedCalls.OneCallCompletesIff` | backend/app/settlement/event_service.py:293-325 | One call without faults takes every child through exactly when its guards pass and the state it starts from is completable. |
| `MixedCalls.MixedRunEqualsOneCall` | backend/app/settlement/event_service.py:293-325 | Such a run, once complete, leaves the group as one call without faults at its start does if it takes every child through; and it does so exactly when house promo already covers the winnings of all children then, as each pool does its stakes. |
| `EventService.SettleChildren` | backend/app/settlement/event_service.py:472-508 | The loop records exactly the children whose transaction failed and keeps the others. |
| `EventService.ReverseChildren` | backend/app/settlement/event_service.py:511-551 | The same for reversals. |
| `EventService.SettleChild` | backend/app/settlement/event_service.py:485-507 | One child transaction that fails or crashes leaves everything as it was. |
| `EventService.ReverseChild` | backend/app/settlement/event_service.py:531-550 | The same for a reversal. |
| `EventService.UndoFailuresIff` | backend/app/settlement/event_service.py:529-551 | The children reported as failed are exactly those whose reversal failed when its turn came. |
| `EventGuards.LegIff` | backend/app/settlement/event_service.py:153-179 | The YES or NO outcome of a market is the one outcome with that label, when there is exactly one. |
| `EventGuards.BlankIff` | backend/app/settlement/event_service.py:182-190 | A reason is refused exactly when nothing is left of it after stripping both ends. |
| `EventGuards.VoidTriesIff` | backend/app/settlement/event_service.py:346-360 | void_event passes its guards exactly when a reason is given, the group exists and is not mirrored, and every child has exactly one NO outcome; it then tries every child once, on that outcome. |
| `EventGuards.ResolveTriesIff` | backend/app/settlement/event_service.py:241-302 | resolve_event passes its guards exactly when, further, the winning outcome is the one YES outcome of one child and belongs to no other, and every other child has one NO outcome; the winning child comes first. |
| `EventGuards.Holders` | backend/app/settlement/event_service.py:252-275 | Exactly the children that have the given outcome. |
| `EventGuards.NoTries` | backend/app/settlement/event_service.py:298-302 | Every listed child, in order, on its one NO outcome. |
| `EventService.ResolveEvent` | backend/app/settlement/event_service.py:218-325 | Guards change nothing; otherwise the winner is settled on YES, the others on NO, one audit row is written, and the derived status is read from the committed rows. |
| `EventService.VoidEvent` | backend/app/settlement/event_service.py:328-387 | The same with every child on NO; it is refused exactly when VoidTriesIff says so, and then nothing changes. |
| `EventService.ReverseEvent` | backend/app/settlement/event_service.py:390-466 | The same for reversing every child. |
| `EventService.ResolveListCoversGroup` | backend/app/settlement/event_service.py:293-302 | The settle list holds every child once, the winning one first. |
| `EventService.ResolveReadsResolved` | backend/app/settlement/event_service.py:606-626 | A failure-free resolve of unresolved children derives "resolved", with the chosen child the only YES winner. |
| `EventService.VoidReadsVoid` | backend/app/settlement/event_service.py:606-626 | A failure-free void of a non-empty group derives "void". |
| `EventService.ReversePassStatus` | backend/app/settlement/event_service.py:390-466 | After a failure-free reverse the children still RESOLVED are exactly those resolved without a settled bet, so "open" is derived exactly when there is none; the comment at lines 457-458 says always. |
| `Winners.FirstSuccessDecides` | backend/app/settlement/adapters.py:57-65 | Over passes with any winners and failures a child ends on the outcome of its first success. |
| `Winners.ResolvedRowStays` | backend/app/settlement/adapters.py:57-60 | No later pass changes a resolved child's row. |
| `Winners.YesWinnerIff` | backend/app/settlement/event_service.py:619-625 | Child by child, over passes with any winners: a child ends as a YES winner exactly when its first success was on its YES outcome, and one without a success keeps what it read as, a reopened child included. |
| `Winners.EventPass` | backend/app/settlement/event_service.py:262-302 | The lists of the example below are those that resolve_event builds. |
| `Winners.TwoYesWinners` | backend/app/settlement/event_service.py:125-129 | Two resolve_event calls, the first with a failed child, the second for another outcome, leave two YES winners and an event that reads as resolved. |
| `Examples.ReversedIsNotOpen` | backend/app/settlement/event_service.py:457-458 | A child resolved without bets stays RESOLVED through a failure-free reverse_event, so the event does not read "open". |
| `Examples.OnlyTheSameSideCollides` | backend/app/settlement/constants.py:66-70 | A run that places, resolves and reverses: resolving again on the other outcome goes through, resolving on the same one hits the duplicate key. |
| `Examples.AdminShowsLoss` | backend/app/admin/service.py:542-551 | A run ending in a cash-out of the whole stake: no loss in the portfolio, a full one in the admin's list. |
| `Examples.FreePriceBreaksPortfolio` | backend/app/bets/portfolio.py:112-114 | A placement at price 0 goes through, and the player's portfolio raises from then on. |
| `Concurrency.WriteIsStep` | backend/app/bets/service.py:141-189 | What a transaction computed before taking its locks is still what the unit of work would do when it writes. |
| `Concurrency.CommitWritesOnlyLocked` | backend/app/settlement/service.py:202-221 | A commit changes only bet rows and account rows it has locked. |
| `Concurrency.OthersUndisturbed` | backend/app/settlement/service.py:110-130 | No commit of another process invalidates what a process holding its locks relies on. |
| `Concurrency.ReversibleStays` | backend/app/settlement/service.py:283-296 | A settled bet read without a lock either stays as it was or its reverse key has been used. |
| `Concurrency.RestampUnraced` | backend/app/settlement/adapters.py:41-72 | If nobody wrote the market row between its read and its update, the update is what the adapter does alone. |
| `Concurrency.PendingAscend` | backend/app/settlement/service.py:117-130 | The rows of a resolution are locked in scan order, each once. |
| `Concurrency.StepKeepsSys` | backend/app/bets/service.py:141-189 | Every step of every process keeps locks exclusive and the books equal to the serial run of the commits so far. |
| `Interleavings.ExecutionIsSerial` | backend/app/wallet/service.py:370-400 | Every state of every interleaving is the result of the serial run in commit order, with one commit per answered call. |
| `SoloRuns.AloneIsTransaction` | backend/app/settlement/service.py:104-107 | From any reachable state, a call during which no other process moves is answered with success exactly when it succeeds as one transaction of the serial model, and leaves books and market rows as that does; otherwise it changes nothing. |
| `SoloRuns.AloneFinishes` | backend/app/wallet/service.py:230-249 | While nobody else holds a lock, a process can always be run to its end. |
| `Interleavings.StepCounts` | backend/app/settlement/service.py:104-107 | A step either commits one process and logs it once, or leaves the books as they were. |
| `Interleavings.OneTaker` | backend/app/bets/service.py:293-300 | A bet leaves PENDING by one close or one resolution, and at that moment no other process holds the row or is on its way to take the bet. |
| `Interleavings.LateCloseIsRefused` | backend/app/bets/service.py:293-300 | The loser of the race to close sees the new status once it gets the row, and changes nothing. |
| `Interleavings.LateResolveSkips` | backend/app/settlement/service.py:110-130 | A resolution that waited for a bet settled or closed meanwhile goes on without it, and holds it otherwise. |
| `Interleavings.StaleReversalRollsBack` | backend/app/settlement/constants.py:58-64 | The loser of two reversals changes nothing. |
| `Interleavings.CheckedPlacementCommits` | backend/app/bets/service.py:144-159 | A placement whose balance check passed commits: the balance is read only after both locks are held. |
| `Interleavings.CheckedTransferIsCovered` | backend/app/wallet/service.py:370-400 | A transfer whose balance check passed is stopped only by a used key or a missing credit account. |
| `Interleavings.InterleavedClosedForms` | backend/app/bets/service.py:141-189 | The closed forms, and no negative balance, in every state of every interleaving. |
| `Interleavings.InterleavedBetMoney` | backend/app/settlement/service.py:110-130 | In every interleaving each bet has paid exactly one of payout, nothing and cash-out. |
| `Interleavings.WaitsUpwards` | backend/app/wallet/service.py:230-239 | What a process waits for comes, in the lock order, after everything it holds. |
| `Interleavings.ClimbToMover` | backend/app/settlement/service.py:202-208 | From any unfinished process the wait-for edges lead to one that can step. |
| `Interleavings.DeadlockFree` | backend/app/bets/service.py:363-368 | In every reachable state with an unfinished transaction some transaction can step. |
| `Interleavings.StepDescends` | backend/app/settlement/service.py:355-360 | Every step lowers the remaining work, so no execution is infinite. |
| `Interleavings.UnblockedSteps` | backend/app/wallet/service.py:230-239 | A process that waits for nobody can always make its next step. |
| `Interleavings.EverybodyFinishes` | backend/app/bets/service.py:144-151 | Any reachable state can be run until every call is answered. |
| `StoredWinners.OverwriteIff` | backend/app/settlement/adapters.py:41-63 | The stored winner of a RESOLVED market changes exactly when a resolution commits that read the row earlier, unresolved, with a winner neither read nor stored. |
| `StoredWinners.WinnerIsStableIff` | backend/app/settlement/adapters.py:41-63 | In every interleaving of the calls a market unresolved at the start keeps the first winner stored on it exactly when all resolutions among the calls name the same winner. |
| `StoredWinners.RaceOverwrites` | backend/app/settlement/adapters.py:41-63 | For any two resolutions of one unresolved market that name different winners there is an interleaving in which the second replaces the winner that the first stored. |
| `StoredWinners.SettlersExclude` | backend/app/settlement/service.py:202-208 | Two resolutions of one market that both settle bets are never both between reading the row and writing it. |
| `SettledSides.StepJudges` | backend/app/settlement/service.py:117-130 | As long as all resolutions of a market name one winner, every unit of work leaves each of its settled bets judged by that winner, through reversals and late placements. |
| `SettledSides.LateBetIsMisjudged` | backend/app/settlement/adapters.py:57-60 | For any two resolutions of one unresolved market that name different winners, and a player with an old snapshot, there is an interleaving after which a bet on the stored winner is Lost: placed after the first resolution, settled by the second. |
| `SettledSides.SidesFollowIff` | backend/app/settlement/adapters.py:57-60 | Whatever other calls join in: in every state of every interleaving the Won bets of the RESOLVED market are those on its stored winner exactly when all resolutions of the market name the same winner. |

## Left out

- Web routers, schemas, error mapping, the frontend, logging, background-job plumbing, authentication, catalogue, price history and event editing: they hold no money rules.
- Session mechanics: a transaction is a copy of the tables that is kept or thrown away; in the interleaved model its writes appear at commit.
- NUMERIC(18,4) overflow and stakes finer than 0.0001: integers are unbounded and stakes are whole units.
- Ids: users, markets, outcomes and bets are numbers, a bet's id is its position in the table; the account order used for locking is any injective order.
- Clocks: every `now` is an argument and may be anything, so journal timestamps need not increase; a call's market check and its transaction use one `now`.
- The price-history writer, the live-bets bridge and the Polymarket synchronisation: market rows are arguments or change only by resolution and reversal; no other writer touches accounts.
- Client-chosen keys: they lie outside the `settle:`, `reverse:`, `close:` and `bonus:` namespaces.
- Interleavings.EverybodyFinishes: the lock order of bet rows is the order of their ids, as the scan has no ORDER BY.
- Interleavings.ExecutionIsSerial: says that the books are serial; the market row is not, and StoredWinners says exactly when. A lost connection is a crash that rolls back. A placement's call for the liability account is a unit of work of its own before it. Which error a refused call reports can differ when several apply, because legs are posted at commit.
- StoredWinners.WinnerIsStableIff: starts from the empty database and an unresolved market; StoredWinners.OverwriteIff covers any reachable state.
- SettledSides.SidesFollowIff: starts as the one above and asks what can happen when any further calls join in; whether a bet can be placed at all with the given calls alone is not decided.
- Concurrency.StepKeepsSys: row locks are those of `FOR UPDATE` and of updated bet and market rows; foreign-key share locks and the waiting of two inserts with one unique key are not modelled, the second insert simply sees the first key.
- Engine.MoneyEngine.SellPosition: the second read of the bet under its row lock is the same read in the serial engine; the race between them is in Concurrency and Interleavings.
- EventService.ResolveEvent: outcome labels are a flag for YES; a blank reason is one of spaces, tabs and line breaks only; a failing event-level audit write is not modelled. Retries are proved to converge for resolve calls; for void calls the attempt-list form in EventModel applies.
- MixedCalls.MixedRunsConverge: a run in which a bet of the group is closed or reversed between two calls is outside the statement; bets placed meanwhile are not compared. Rows of markets outside the group play no part.
- Audit rows carry ids, totals and counts; actor strings and resolution sources are not part of this model.
- Portfolio.BuildPortfolio: questions, slugs and labels shown with a position are left out.
