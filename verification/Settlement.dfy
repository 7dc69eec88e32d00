/** What resolving and reversing a market does, and exactly when it goes through: bets, money, row and audit. */
module Settlement {
  import opened Domain
  import opened Posting
  import opened Lifecycle
  import opened Transactions
  import opened Invariant
  import opened Exactness
  import opened Guarantees
  import opened Plan
  import opened Database

  /** The bets a call works on: the market's pending ones, or its settled ones. */
  predicate IsPending(bet: Bet, m: MarketId) {
    bet.market == m && bet.status == Pending
  }

  function CountPending(bets: seq<Bet>, m: MarketId): nat {
    |set i | 0 <= i < |bets| && IsPending(bets[i], m)|
  }

  function CountSettled(bets: seq<Bet>, m: MarketId): nat {
    |set i | 0 <= i < |bets| && IsSettled(bets[i], m)|
  }

  function IdSet(vs: seq<Verdict>): set<int> {
    set v | v in vs :: v.id
  }

  lemma IdSetCons(vs: seq<Verdict>)
    requires vs != [] && Distinct(vs)
    ensures IdSet(vs) == {vs[0].id} + IdSet(vs[1..]) && vs[0].id !in IdSet(vs[1..])
  {
    assert vs == [vs[0]] + vs[1..];
    forall v | v in vs[1..] ensures v.id != vs[0].id {
      var k :| 0 <= k < |vs[1..]| && vs[1..][k] == v;
      assert vs[k + 1] == v;
    }
  }

  lemma {:induction false} SelectionSize(vs: seq<Verdict>)
    requires Distinct(vs)
    ensures |vs| == |IdSet(vs)|
  {
    if vs != [] {
      DistinctTail(vs);
      IdSetCons(vs);
      SelectionSize(vs[1..]);
    }
  }

  lemma PendingCount(bets: seq<Bet>, m: MarketId, winner: OutcomeId)
    ensures |PendingVerdicts(bets, m, winner)| == CountPending(bets, m)
  {
    var vs := PendingVerdicts(bets, m, winner);
    forall i | 0 <= i < |bets| && IsPending(bets[i], m) ensures i in IdSet(vs) {
      assert Verdict(i, bets[i].outcome == winner) in vs;
    }
    assert IdSet(vs) == set i | 0 <= i < |bets| && IsPending(bets[i], m);
    SelectionSize(vs);
  }

  lemma SettledCount(bets: seq<Bet>, m: MarketId)
    ensures |SettledVerdicts(bets, m)| == CountSettled(bets, m)
  {
    var vs := SettledVerdicts(bets, m);
    forall i | 0 <= i < |bets| && IsSettled(bets[i], m) ensures i in IdSet(vs) {
      assert Verdict(i, bets[i].status == Won) in vs;
    }
    assert IdSet(vs) == set i | 0 <= i < |bets| && IsSettled(bets[i], m);
    SelectionSize(vs);
  }

  // ---------------------------------------------------------------------------
  // Resolution.
  // ---------------------------------------------------------------------------

  /** Exactly the market's pending bets were settled, each by whether it is on the winner. */
  predicate AllJudged(bets: seq<Bet>, after: seq<Bet>, m: MarketId, winner: OutcomeId) {
    && |after| == |bets|
    && forall i | 0 <= i < |bets| :: after[i] ==
         if IsPending(bets[i], m) then bets[i].(status := if bets[i].outcome == winner then Won else Lost) else bets[i]
  }

  /** A row that was not RESOLVED is stamped; one that was is left alone. No other row changes. */
  predicate RowStamped(markets: map<MarketId, MarketRow>, after: map<MarketId, MarketRow>, m: MarketId,
                       winner: OutcomeId, now: Time) {
    && m in markets && after.Keys == markets.Keys
    && (forall k | k in markets && k != m :: after[k] == markets[k])
    && if markets[m].view.status == MarketResolved then after[m] == markets[m]
       else
         && after[m].winner == Some(winner) && after[m].resolvedAt == Some(now)
         && after[m].view == markets[m].view.(status := MarketResolved)
  }

  /** The audit row says who resolved on what and why, how many bets were settled, what house revenue gained,
      and what reached the wallets out of the pools and house promo. */
  ghost predicate ResolutionAudited(db: Db, after: Db, m: MarketId, winner: OutcomeId, reason: string, ctx: Context) {
    && |after.audit| == |db.audit| + 1 && after.audit[..|db.audit|] == db.audit
    && var row := after.audit[|db.audit|];
       && row.SettlementResolved?
       && row.market == m && row.winner == winner && row.actor == ctx.actor && row.reason == reason
       && row.settled == CountPending(db.books.bets, m)
       && row.totalLoserStake == Balance(after.books, HouseRevenue) - Balance(db.books, HouseRevenue)
       && row.totalPayout + row.totalLoserStake ==
            Balance(db.books, HousePromo) - Balance(after.books, HousePromo)
            + Balance(db.books, Liability(m)) - Balance(after.books, Liability(m))
  }

  /** From any valid state, a resolution goes through exactly when the market exists and is not voided, no
      winner has price 0, no bet lands on a side it was settled on before, house promo covers the winnings,
      and the pool has the stakes. */
  lemma ResolutionOkIff(db: Db, m: MarketId, winner: OutcomeId, reason: string, ctx: Context)
    requires Valid(db.books)
    ensures var vs, b := PendingVerdicts(db.books.bets, m, winner), db.books;
      ResolveTx(db, m, winner, reason, ctx).Ok? <==>
      && m in db.markets && db.markets[m].view.status != MarketVoided
      && (forall i | 0 <= i < |b.bets| && IsPending(b.bets[i], m) ::
            && (b.bets[i].outcome == winner ==> b.bets[i].price > 0)
            && SettleKey(i, if b.bets[i].outcome == winner then StakeLeg else LossLeg) !in KeysOf(b.transfers))
      && WinningsOf(b.bets, vs) <= Balance(b, HousePromo)
      && StakesIn(b.bets, vs, m) <= Balance(b, Liability(m))
  {
    var vs, b := PendingVerdicts(db.books.bets, m, winner), db.books;
    ResolveOkIff(b, vs, ctx);
    NoWinnerBlocked(b, m, winner);
    OnlyItsPool(b, m, vs);
  }

  lemma NoWinnerBlocked(b: Books, m: MarketId, winner: OutcomeId)
    requires SoundBets(b.bets)
    ensures var vs := PendingVerdicts(b.bets, m, winner);
      !Unpayable(b.bets, vs) && (forall v | v in vs :: SettleKey(v.id, MainLeg(v.won)) !in KeysOf(b.transfers)) <==>
      forall i | 0 <= i < |b.bets| && IsPending(b.bets[i], m) ::
        && (b.bets[i].outcome == winner ==> b.bets[i].price > 0)
        && SettleKey(i, if b.bets[i].outcome == winner then StakeLeg else LossLeg) !in KeysOf(b.transfers)
  {
    var vs := PendingVerdicts(b.bets, m, winner);
    forall i | 0 <= i < |b.bets| && IsPending(b.bets[i], m) ensures Verdict(i, b.bets[i].outcome == winner) in vs {
    }
  }

  lemma OnlyItsPool(b: Books, m: MarketId, vs: seq<Verdict>)
    requires NonNegative(b) && InRange(b.bets, vs) && forall v | v in vs :: b.bets[v.id].market == m
    ensures (forall k :: StakesIn(b.bets, vs, k) <= Balance(b, Liability(k))) <==>
      StakesIn(b.bets, vs, m) <= Balance(b, Liability(m))
  {
    forall k | k != m ensures StakesIn(b.bets, vs, k) <= Balance(b, Liability(k)) {
      OtherStakes(b.bets, vs, m, k);
    }
  }

  lemma {:induction false} OtherStakes(bets: seq<Bet>, vs: seq<Verdict>, m: MarketId, k: MarketId)
    requires InRange(bets, vs) && k != m && forall v | v in vs :: bets[v.id].market == m
    ensures StakesIn(bets, vs, k) == 0
    decreases vs
  {
    if vs != [] {
      OtherStakes(bets, vs[1..], m, k);
    }
  }

  /** What it then leaves, to the unit on every account. */
  lemma ResolutionLeaves(db: Db, m: MarketId, winner: OutcomeId, reason: string, ctx: Context)
    requires Valid(db.books) && ResolveTx(db, m, winner, reason, ctx).Ok?
    ensures var after := ResolveTx(db, m, winner, reason, ctx).value;
      && AllJudged(db.books.bets, after.books.bets, m, winner)
      && RowStamped(db.markets, after.markets, m, winner, ctx.now)
      && (forall a :: Balance(after.books, a) ==
            Balance(db.books, a) + PassShare(db.books.bets, PendingVerdicts(db.books.bets, m, winner), a))
      && ResolutionAudited(db, after, m, winner, reason, ctx)
      && WrittenBy(db.books, after.books, ctx.actor, ctx.now)
  {
    var vs := PendingVerdicts(db.books.bets, m, winner);
    JudgesAll(db.books.bets, m, winner);
    PassMoves(db.books, vs, Settle, ctx);
    PostAllSigned(db.books, BatchLegs(db.books.bets, vs, Settle), ctx);
    StampsRow(db.markets, m, winner, ctx.now);
    AuditsResolution(db, m, winner, reason, ctx);
  }

  lemma StampsRow(markets: map<MarketId, MarketRow>, m: MarketId, winner: OutcomeId, now: Time)
    requires MarkResolved(markets, m, winner, now).Ok?
    ensures RowStamped(markets, MarkResolved(markets, m, winner, now).value, m, winner, now)
  {
  }

  lemma AuditsResolution(db: Db, m: MarketId, winner: OutcomeId, reason: string, ctx: Context)
    requires Valid(db.books) && ResolveTx(db, m, winner, reason, ctx).Ok?
    ensures ResolutionAudited(db, ResolveTx(db, m, winner, reason, ctx).value, m, winner, reason, ctx)
  {
    var vs := PendingVerdicts(db.books.bets, m, winner);
    PassMoves(db.books, vs, Settle, ctx);
    AuditTotals(db.books.bets, m, winner);
    PendingCount(db.books.bets, m, winner);
    var books := RunPass(db.books, vs, Settle, ctx).value;
    assert Balance(books, HouseRevenue) == Balance(db.books, HouseRevenue) + LossesOf(db.books.bets, vs);
    assert Balance(books, HousePromo) == Balance(db.books, HousePromo) - WinningsOf(db.books.bets, vs);
    assert Balance(books, Liability(m)) == Balance(db.books, Liability(m)) - StakesIn(db.books.bets, vs, m);
  }

  lemma JudgesAll(bets: seq<Bet>, m: MarketId, winner: OutcomeId)
    ensures AllJudged(bets, BatchBets(bets, PendingVerdicts(bets, m, winner), Settle), m, winner)
  {
    var vs := PendingVerdicts(bets, m, winner);
    BatchBetsAt(bets, vs, Settle);
    forall i | 0 <= i < |bets| && IsPending(bets[i], m) ensures Verdict(i, bets[i].outcome == winner) in vs {
    }
  }

  lemma PassMoves(b: Books, vs: seq<Verdict>, dir: Pass, ctx: Context)
    requires SoundBets(b.bets) && InRange(b.bets, vs) && RunPass(b, vs, dir, ctx).Ok?
    ensures forall a :: Balance(RunPass(b, vs, dir, ctx).value, a) ==
              Balance(b, a) + Sign(dir) * PassShare(b.bets, vs, a)
  {
    PostAllEffect(b, BatchLegs(b.bets, vs, dir), ctx);
    forall a ensures Net(BatchLegs(b.bets, vs, dir), a) == Sign(dir) * PassShare(b.bets, vs, a) {
      BatchNet(b.bets, vs, dir, a);
    }
  }

  /** The plan's totals in terms of what the pass moves. */
  lemma AuditTotals(bets: seq<Bet>, m: MarketId, winner: OutcomeId)
    requires SoundBets(bets) && !Unpayable(bets, PendingVerdicts(bets, m, winner))
    ensures var vs := PendingVerdicts(bets, m, winner);
      var plan := PlanOf(bets, vs, winner);
      && plan.totalLoserStake == LossesOf(bets, vs)
      && plan.totalPayout + plan.totalLoserStake == WinningsOf(bets, vs) + StakesIn(bets, vs, m)
      && |plan.settled| == |vs|
  {
    var vs := PendingVerdicts(bets, m, winner);
    PlanTotalsArePosted(bets, vs, winner);
    BatchNet(bets, vs, Settle, HouseRevenue);
    PlanFlows(bets, vs, m);
  }

  lemma {:induction false} PlanFlows(bets: seq<Bet>, vs: seq<Verdict>, m: MarketId)
    requires SoundBets(bets) && InRange(bets, vs) && !Unpayable(bets, vs)
    requires forall v | v in vs :: bets[v.id].market == m
    ensures WalletCredits(BatchLegs(bets, vs, Settle)) + LossesOf(bets, vs) ==
      WinningsOf(bets, vs) + StakesIn(bets, vs, m)
    decreases vs
  {
    if vs != [] {
      var v, rest := vs[0], vs[1..];
      UnpayableTail(bets, vs);
      PlanFlows(bets, rest, m);
      TurnFlows(v, bets[v.id]);
      FlowsConcat(TurnLegs(v, bets[v.id], Settle), BatchLegs(bets, rest, Settle));
    }
  }

  // ---------------------------------------------------------------------------
  // Reversal.
  // ---------------------------------------------------------------------------

  /** Exactly the market's settled bets are pending again. */
  predicate AllReopened(bets: seq<Bet>, after: seq<Bet>, m: MarketId) {
    && |after| == |bets|
    && forall i | 0 <= i < |bets| :: after[i] == if IsSettled(bets[i], m) then bets[i].(status := Pending) else bets[i]
  }

  /** With a settled bet the row goes back to CLOSED and keeps its winner; without one it is left alone. */
  predicate RowReopened(markets: map<MarketId, MarketRow>, after: map<MarketId, MarketRow>, m: MarketId, any: bool) {
    if !any then after == markets
    else
      && m in markets && after.Keys == markets.Keys
      && (forall k | k in markets && k != m :: after[k] == markets[k])
      && after[m].winner == markets[m].winner && after[m].resolvedAt == None
      && after[m].view == markets[m].view.(status := MarketStopped)
  }

  predicate ReversalAudited(db: Db, after: Db, m: MarketId, reason: string, ctx: Context) {
    after.audit == db.audit + [SettlementReversed(m, ctx.actor, reason, CountSettled(db.books.bets, m))]
  }

  /** From any valid state, a reversal goes through exactly when the market exists (or had no settled bet), every
      winner still has the payouts, and house revenue the lost stakes. */
  lemma ReversalOkIff(db: Db, m: MarketId, reason: string, ctx: Context)
    requires Valid(db.books)
    ensures var vs, b := SettledVerdicts(db.books.bets, m), db.books;
      ReverseTx(db, m, reason, ctx).Ok? <==>
      && (CountSettled(b.bets, m) > 0 ==> m in db.markets)
      && (forall user :: PayoutsTo(b.bets, vs, user) <= Balance(b, Wallet(user)))
      && LossesOf(b.bets, vs) <= Balance(b, HouseRevenue)
  {
    SettledCount(db.books.bets, m);
    ReverseOkIff(db.books, SettledVerdicts(db.books.bets, m), ctx);
  }

  lemma ReversalLeaves(db: Db, m: MarketId, reason: string, ctx: Context)
    requires Valid(db.books) && ReverseTx(db, m, reason, ctx).Ok?
    ensures var after := ReverseTx(db, m, reason, ctx).value;
      && AllReopened(db.books.bets, after.books.bets, m)
      && RowReopened(db.markets, after.markets, m, CountSettled(db.books.bets, m) > 0)
      && (forall a :: Balance(after.books, a) ==
            Balance(db.books, a) - PassShare(db.books.bets, SettledVerdicts(db.books.bets, m), a))
      && ReversalAudited(db, after, m, reason, ctx)
      && WrittenBy(db.books, after.books, ctx.actor, ctx.now)
  {
    var b, vs := db.books, SettledVerdicts(db.books.bets, m);
    ReopensAll(b.bets, m);
    PassMoves(b, vs, Reverse, ctx);
    PostAllSigned(b, BatchLegs(b.bets, vs, Reverse), ctx);
    SettledCount(b.bets, m);
  }

  lemma ReopensAll(bets: seq<Bet>, m: MarketId)
    ensures AllReopened(bets, BatchBets(bets, SettledVerdicts(bets, m), Reverse), m)
  {
    var vs := SettledVerdicts(bets, m);
    BatchBetsAt(bets, vs, Reverse);
    forall i | 0 <= i < |bets| && IsSettled(bets[i], m) ensures Verdict(i, bets[i].status == Won) in vs {
    }
  }

  /** A second reversal finds no settled bet: nothing is refunded twice and the rows stay. */
  lemma SecondReversalChangesNothing(db: Db, m: MarketId, reason: string, ctx: Context, again: Context)
    requires Valid(db.books) && ReverseTx(db, m, reason, ctx).Ok?
    ensures var done := ReverseTx(db, m, reason, ctx).value;
      && Valid(done.books)
      && ReverseTx(done, m, reason, again) ==
           Ok(done.(audit := done.audit + [SettlementReversed(m, again.actor, reason, 0)]))
  {
    var done := ReverseTx(db, m, reason, ctx).value;
    ReverseTxKeepsValid(db, m, reason, ctx);
    ReversalLeaves(db, m, reason, ctx);
    SettledIffAny(done.books.bets, m);
  }
}
