/** The whole database: books, markets and the audit log, and settlement as one transaction over them. */
module Database {
  import opened Domain
  import opened Lifecycle
  import opened Transactions
  import opened Invariant
  import opened Runs
  import opened Plan

  datatype MarketRow = MarketRow(view: MarketView, winner: Option<OutcomeId>, resolvedAt: Option<Time>)

  datatype AuditRow =
    | SettlementResolved(market: MarketId, winner: OutcomeId, actor: Option<UserId>, reason: string,
                         totalPayout: int, totalLoserStake: int, settled: nat)
    | SettlementReversed(market: MarketId, actor: Option<UserId>, reason: string, reversed: nat)
    | EventSettled(yes: Option<OutcomeId>, children: nat, failed: seq<MarketId>, reason: string)
    | EventReversed(children: nat, failed: seq<MarketId>, reason: string)

  datatype Db = Db(books: Books, markets: map<MarketId, MarketRow>, audit: seq<AuditRow>)

  /** `get_market`: the snapshot of one market. */
  function ViewOf(markets: map<MarketId, MarketRow>, m: MarketId): Option<MarketView> {
    if m in markets then Some(markets[m].view) else None
  }

  /** The row a resolution leaves: stamped, or as it was when already RESOLVED. */
  function Stamped(row: MarketRow, winner: OutcomeId, now: Time): MarketRow {
    if row.view.status == MarketResolved then row
    else MarketRow(row.view.(status := MarketResolved), Some(winner), Some(now))
  }

  function MarkResolved(markets: map<MarketId, MarketRow>, m: MarketId, winner: OutcomeId,
                        now: Time): Result<map<MarketId, MarketRow>>
  {
    if m !in markets then Err(MarketNotFound)
    else if markets[m].view.status == MarketVoided then Err(MarketCancelled)
    else Ok(markets[m := Stamped(markets[m], winner, now)])
  }

  /** Back to CLOSED; the stored winner stays. */
  function Unstamped(row: MarketRow): MarketRow {
    MarketRow(row.view.(status := MarketStopped), row.winner, None)
  }

  function MarkUnresolved(markets: map<MarketId, MarketRow>, m: MarketId): Result<map<MarketId, MarketRow>> {
    if m !in markets then Err(MarketNotFound) else Ok(markets[m := Unstamped(markets[m])])
  }

  /** The plan of a resolution over the bets it holds. */
  function PlanOf(bets: seq<Bet>, vs: seq<Verdict>, winner: OutcomeId): SettlementPlan
    requires SoundBets(bets) && InRange(bets, vs)
  {
    var facts := ToSettle(bets, vs);
    SettlementPlan(winner, JudgedAll(facts, winner), PayoutSum(JudgedAll(facts, winner)), LoserStakeSum(facts, winner))
  }

  function ResolvedAudit(m: MarketId, plan: SettlementPlan, actor: Option<UserId>, reason: string): AuditRow {
    SettlementResolved(m, plan.winner, actor, reason, plan.totalPayout, plan.totalLoserStake, |plan.settled|)
  }

  /** `resolve_market`: payouts, status flips, market and audit row, all or nothing. */
  function ResolveTx(db: Db, m: MarketId, winner: OutcomeId, reason: string, ctx: Context): Result<Db>
    requires SoundBets(db.books.bets)
  {
    var vs := PendingVerdicts(db.books.bets, m, winner);
    var books :- RunPass(db.books, vs, Settle, ctx);
    var markets :- MarkResolved(db.markets, m, winner, ctx.now);
    Ok(Db(books, markets, db.audit + [ResolvedAudit(m, PlanOf(db.books.bets, vs, winner), ctx.actor, reason)]))
  }

  /** `reverse_settlement`: the market is reopened only when there was a settled bet. */
  function ReverseTx(db: Db, m: MarketId, reason: string, ctx: Context): Result<Db>
    requires SoundBets(db.books.bets)
  {
    var vs := SettledVerdicts(db.books.bets, m);
    var books :- RunPass(db.books, vs, Reverse, ctx);
    var markets :- if vs == [] then Ok(db.markets) else MarkUnresolved(db.markets, m);
    Ok(Db(books, markets, db.audit + [SettlementReversed(m, ctx.actor, reason, |vs|)]))
  }

  function ResolveEventOf(db: Db, m: MarketId, winner: OutcomeId, ctx: Context): Event {
    Event(DoResolve(m, winner, PendingVerdicts(db.books.bets, m, winner)), ctx)
  }

  function ReverseEventOf(db: Db, m: MarketId, ctx: Context): Event {
    Event(DoReverse(m, SettledVerdicts(db.books.bets, m)), ctx)
  }

  /** On the books both transactions are units of work of the runs, so what holds in every run holds of them. */
  lemma TransactionsAreSteps(db: Db, m: MarketId, winner: OutcomeId, reason: string, ctx: Context)
    requires Valid(db.books)
    ensures Enabled(db.books, ResolveEventOf(db, m, winner, ctx).op)
    ensures Enabled(db.books, ReverseEventOf(db, m, ctx).op)
    ensures ResolveTx(db, m, winner, reason, ctx).Ok? ==>
      ResolveTx(db, m, winner, reason, ctx).value.books == Next(db.books, ResolveEventOf(db, m, winner, ctx))
    ensures ReverseTx(db, m, reason, ctx).Ok? ==>
      ReverseTx(db, m, reason, ctx).value.books == Next(db.books, ReverseEventOf(db, m, ctx))
  {
  }

  lemma ResolveTxKeepsValid(db: Db, m: MarketId, winner: OutcomeId, reason: string, ctx: Context)
    requires Valid(db.books)
    ensures ResolveTx(db, m, winner, reason, ctx).Ok? ==> Valid(ResolveTx(db, m, winner, reason, ctx).value.books)
  {
    TransactionsAreSteps(db, m, winner, reason, ctx);
    StepKeepsValid(db.books, ResolveEventOf(db, m, winner, ctx));
  }

  lemma ReverseTxKeepsValid(db: Db, m: MarketId, reason: string, ctx: Context)
    requires Valid(db.books)
    ensures ReverseTx(db, m, reason, ctx).Ok? ==> Valid(ReverseTx(db, m, reason, ctx).value.books)
  {
    TransactionsAreSteps(db, m, 0, reason, ctx);
    StepKeepsValid(db.books, ReverseEventOf(db, m, ctx));
  }

  lemma {:induction false} NothingPending(bets: seq<Bet>, m: MarketId, winner: OutcomeId)
    requires forall i | 0 <= i < |bets| && bets[i].market == m :: bets[i].status != Pending
    ensures PendingVerdicts(bets, m, winner) == []
  {
    if bets != [] {
      NothingPending(bets[..|bets| - 1], m, winner);
    }
  }

  lemma NoneLeftPending(bets: seq<Bet>, m: MarketId, winner: OutcomeId, other: OutcomeId)
    requires SoundBets(bets)
    ensures PendingVerdicts(BatchBets(bets, PendingVerdicts(bets, m, winner), Settle), m, other) == []
  {
    var vs := PendingVerdicts(bets, m, winner);
    var after := BatchBets(bets, vs, Settle);
    BatchBetsAt(bets, vs, Settle);
    forall i | 0 <= i < |after| && after[i].market == m ensures after[i].status != Pending {
      if bets[i].status == Pending && bets[i].market == m {
        assert Verdict(i, bets[i].outcome == winner) in vs;
      }
    }
    NothingPending(after, m, other);
  }

  lemma ReplayIsNoOp(db: Db, m: MarketId, other: OutcomeId, reason: string, ctx: Context)
    requires SoundBets(db.books.bets) && PendingVerdicts(db.books.bets, m, other) == []
    requires m in db.markets && db.markets[m].view.status == MarketResolved
    ensures ResolveTx(db, m, other, reason, ctx).Ok?
    ensures ResolveTx(db, m, other, reason, ctx).value.books == db.books
    ensures ResolveTx(db, m, other, reason, ctx).value.markets == db.markets
  {
  }

  /** A second resolution, on any outcome, posts no leg and keeps the stored winner. */
  lemma SecondResolveChangesNothing(db: Db, m: MarketId, winner: OutcomeId, other: OutcomeId,
                                    reason: string, ctx: Context, again: Context)
    requires Valid(db.books) && ResolveTx(db, m, winner, reason, ctx).Ok?
    ensures var done := ResolveTx(db, m, winner, reason, ctx).value;
      && Valid(done.books)
      && ResolveTx(done, m, other, reason, again).Ok?
      && ResolveTx(done, m, other, reason, again).value.books == done.books
      && ResolveTx(done, m, other, reason, again).value.markets == done.markets
  {
    var done := ResolveTx(db, m, winner, reason, ctx).value;
    PassKeepsValid(db.books, PendingVerdicts(db.books.bets, m, winner), Settle, ctx);
    NoneLeftPending(db.books.bets, m, winner, other);
    ReplayIsNoOp(done, m, other, reason, again);
  }

  predicate AnySettled(bets: seq<Bet>, m: MarketId) {
    exists i | 0 <= i < |bets| :: bets[i].market == m && bets[i].status in {Won, Lost}
  }

  lemma SettledIffAny(bets: seq<Bet>, m: MarketId)
    ensures SettledVerdicts(bets, m) != [] <==> AnySettled(bets, m)
  {
    var vs := SettledVerdicts(bets, m);
    forall i | 0 <= i < |bets| && bets[i].market == m && bets[i].status in {Won, Lost} ensures vs != [] {
      assert Verdict(i, bets[i].status == Won) in vs;
    }
    if vs != [] {
      assert vs[0] in vs;
    }
  }

  /** A reversal reopens the market exactly when it had a settled bet, and never forgets the winner. */
  lemma ReversalReopensMarketIff(db: Db, m: MarketId, reason: string, ctx: Context)
    requires SoundBets(db.books.bets) && ReverseTx(db, m, reason, ctx).Ok?
    ensures var after := ReverseTx(db, m, reason, ctx).value.markets;
      && after.Keys == db.markets.Keys
      && (forall k | k in after :: after[k].winner == db.markets[k].winner && (k != m ==> after[k] == db.markets[k]))
      && if AnySettled(db.books.bets, m)
         then m in after && after[m].view.status == MarketStopped && after[m].resolvedAt == None
         else after == db.markets
  {
    SettledIffAny(db.books.bets, m);
  }
}
