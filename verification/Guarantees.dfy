/** What the invariant means for each account, each bet and each key. */
module Guarantees {
  import opened Money
  import opened Domain
  import opened Posting
  import opened Lifecycle
  import opened Transactions
  import opened Invariant
  import opened Runs

  // ---------------------------------------------------------------------------
  // Closed forms of the house accounts and the pools.
  // ---------------------------------------------------------------------------

  function PendingStakes(bets: seq<Bet>, m: MarketId): int {
    if bets == [] then 0
    else
      var n := |bets| - 1;
      PendingStakes(bets[..n], m) + if bets[n].market == m && bets[n].status == Pending then bets[n].stake else 0
  }

  function LostStakes(bets: seq<Bet>): int {
    if bets == [] then 0
    else
      var n := |bets| - 1;
      LostStakes(bets[..n]) + if bets[n].status == Lost then bets[n].stake else 0
  }

  function WonWinnings(bets: seq<Bet>): int
    requires SoundBets(bets)
  {
    if bets == [] then 0
    else
      var n := |bets| - 1;
      WonWinnings(bets[..n]) + if bets[n].status == Won then Winnings(bets[n]) else 0
  }

  /** What players gave up by closing below their stake. */
  function CloseLosses(bets: seq<Bet>): int
    requires SoundBets(bets)
  {
    if bets == [] then 0
    else
      var n := |bets| - 1;
      CloseLosses(bets[..n])
      + if bets[n].status == Closed then PositivePart(bets[n].stake - CashoutAt(bets[n], bets[n].exitOdds.value)) else 0
  }

  /** What players gained by closing above their stake. */
  function CloseGains(bets: seq<Bet>): int
    requires SoundBets(bets)
  {
    if bets == [] then 0
    else
      var n := |bets| - 1;
      CloseGains(bets[..n])
      + if bets[n].status == Closed then PositivePart(CashoutAt(bets[n], bets[n].exitOdds.value) - bets[n].stake) else 0
  }

  lemma {:induction false} PoolTotal(bets: seq<Bet>, m: MarketId)
    requires SoundBets(bets)
    ensures BookTotal(bets, Book(Liability(m))) == PendingStakes(bets, m)
  {
    if bets != [] {
      PoolTotal(bets[..|bets| - 1], m);
    }
  }

  lemma {:induction false} HouseTotals(bets: seq<Bet>)
    requires SoundBets(bets)
    ensures BookTotal(bets, Book(HouseRevenue)) == LostStakes(bets) + CloseLosses(bets)
    ensures BookTotal(bets, Book(HousePromo)) == -WonWinnings(bets) - CloseGains(bets)
    ensures BookTotal(bets, HousePnl) == LostStakes(bets) - WonWinnings(bets)
  {
    if bets != [] {
      HouseTotals(bets[..|bets| - 1]);
    }
  }

  /** Each market's liability account holds exactly the stakes of its pending bets, plus what direct transfers
      put there, whatever snapshots the placements used. */
  lemma PoolHoldsPendingStakes(b: Books, m: MarketId)
    requires Valid(b)
    ensures Balance(b, Liability(m)) == PendingStakes(b.bets, m) + Total(b.entries, Plain(Liability(m)))
  {
    PoolTotal(b.bets, m);
    assert Balance(b, Liability(m)) == Ledger(b.entries, Liability(m));
  }

  lemma HouseClosedForms(b: Books)
    requires Valid(b)
    ensures Balance(b, HouseRevenue) == LostStakes(b.bets) + CloseLosses(b.bets) + Total(b.entries, Plain(HouseRevenue))
    ensures Balance(b, HousePromo) == OPENING_PROMO - Total(b.entries, Granted)
      - WonWinnings(b.bets) - CloseGains(b.bets) + Total(b.entries, Plain(HousePromo))
  {
    HouseTotals(b.bets);
    assert Balance(b, HouseRevenue) == Ledger(b.entries, HouseRevenue);
    assert Balance(b, HousePromo) == Ledger(b.entries, HousePromo);
  }

  /** The closed forms of the pools and the house accounts. */
  ghost predicate ClosedForms(b: Books, m: MarketId)
    requires SoundBets(b.bets)
  {
    && Balance(b, Liability(m)) == PendingStakes(b.bets, m) + Total(b.entries, Plain(Liability(m)))
    && Balance(b, HouseRevenue) == LostStakes(b.bets) + CloseLosses(b.bets) + Total(b.entries, Plain(HouseRevenue))
    && Balance(b, HousePromo) == OPENING_PROMO - Total(b.entries, Granted)
         - WonWinnings(b.bets) - CloseGains(b.bets) + Total(b.entries, Plain(HousePromo))
  }

  /** They hold, and no balance is negative, in every state of every run. */
  lemma ReachableClosedForms(states: seq<Books>, events: seq<Event>, k: nat, m: MarketId)
    requires IsRun(states, events) && k < |states|
    ensures Valid(states[k]) && NonNegative(states[k]) && ClosedForms(states[k], m)
    ensures (forall i | 0 <= i < k :: Ordinary(events[i].op)) ==> PlainOnWallets(states[k])
  {
    RunIsValid(states, events, k);
    if forall i | 0 <= i < k :: Ordinary(events[i].op) {
      RunKeepsPlain(states, events, k);
    }
    PoolHoldsPendingStakes(states[k], m);
    HouseClosedForms(states[k]);
  }

  // ---------------------------------------------------------------------------
  // One bet.
  // ---------------------------------------------------------------------------

  /** The entries tagged with one bet always add up to what its present status is worth: while pending
      the owner is down the stake, and each way out of pending pays exactly one of payout, nothing and
      cash-out, however often the bet was settled and reversed before. */
  lemma BetMoneyIsExact(b: Books, i: BetId)
    requires Valid(b) && i < |b.bets|
    ensures forall a :: Total(b.entries, Tagged(i, a)) == Stand(b.bets[i], a)
    ensures var bet := b.bets[i];
      Total(b.entries, Tagged(i, Wallet(bet.user))) + bet.stake ==
        match bet.status
        case Pending => 0
        case Won => Payout(bet.stake, bet.price)
        case Lost => 0
        case Closed => CashoutAt(bet, bet.exitOdds.value)
  {
    forall a ensures Total(b.entries, Tagged(i, a)) == Stand(b.bets[i], a) {
      BookTotalTagged(b.bets, i, a);
      assert BetGauge(Tagged(i, a));
    }
  }

  /** The books after reversing all settled bets of a market. */
  ghost function Reopened(b: Books, m: MarketId, ctx: Context): Books
    requires SoundBets(b.bets) && RunPass(b, SettledVerdicts(b.bets, m), Reverse, ctx).Ok?
  {
    RunPass(b, SettledVerdicts(b.bets, m), Reverse, ctx).value
  }

  /** A reversal changes every account by the negation of what settling its currently settled bets did,
      although the amounts are recomputed, and the old ledger is a prefix of the new one. */
  lemma ReversalIsInverse(b: Books, m: MarketId, ctx: Context)
    requires Valid(b) && RunPass(b, SettledVerdicts(b.bets, m), Reverse, ctx).Ok?
    ensures forall a ::
      Balance(Reopened(b, m, ctx), a) == Balance(b, a) - Net(BatchLegs(b.bets, SettledVerdicts(b.bets, m), Settle), a)
    ensures b.transfers <= Reopened(b, m, ctx).transfers && b.entries <= Reopened(b, m, ctx).entries
  {
    var vs := SettledVerdicts(b.bets, m);
    PostAllEffect(b, BatchLegs(b.bets, vs, Reverse), ctx);
    forall a ensures Balance(Reopened(b, m, ctx), a) == Balance(b, a) - Net(BatchLegs(b.bets, vs, Settle), a) {
      ReversalNegatesSettlement(b.bets, vs, a);
    }
  }

  predicate IsSettled(b: Bet, m: MarketId) {
    b.market == m && (b.status == Won || b.status == Lost)
  }

  /** Exactly the settled bets of the market return to PENDING. */
  lemma ReversalReopensBets(b: Books, m: MarketId, ctx: Context)
    requires SoundBets(b.bets) && RunPass(b, SettledVerdicts(b.bets, m), Reverse, ctx).Ok?
    ensures |Reopened(b, m, ctx).bets| == |b.bets|
    ensures forall i | 0 <= i < |b.bets| :: Reopened(b, m, ctx).bets[i] ==
              if IsSettled(b.bets[i], m) then b.bets[i].(status := Pending) else b.bets[i]
  {
    var vs := SettledVerdicts(b.bets, m);
    BatchBetsAt(b.bets, vs, Reverse);
    forall i | 0 <= i < |b.bets|
      ensures Reopened(b, m, ctx).bets[i] ==
        if IsSettled(b.bets[i], m) then b.bets[i].(status := Pending) else b.bets[i]
    {
      if IsSettled(b.bets[i], m) {
        assert Verdict(i, b.bets[i].status == Won) in vs;
      }
    }
  }

  /** After the reversal the entries of each reopened bet add up to its placement alone, on every account. */
  lemma ReversalClearsEntries(b: Books, m: MarketId, ctx: Context, i: BetId, a: Account)
    requires Valid(b) && RunPass(b, SettledVerdicts(b.bets, m), Reverse, ctx).Ok?
    requires i < |b.bets| && IsSettled(b.bets[i], m)
    ensures Total(Reopened(b, m, ctx).entries, Tagged(i, a)) == LegNet(PlaceLeg(i, b.bets[i]), a)
  {
    PassKeepsValid(b, SettledVerdicts(b.bets, m), Reverse, ctx);
    ReversalReopensBets(b, m, ctx);
    BetMoneyIsExact(Reopened(b, m, ctx), i);
  }

  // ---------------------------------------------------------------------------
  // Keys and history.
  // ---------------------------------------------------------------------------

  /** New settle keys come from resolutions only. */
  lemma NewSettleKey(b: Books, e: Event, i: BetId, leg: LegName)
    requires Valid(b) && Enabled(b, e.op)
    requires SettleKey(i, leg) in KeysOf(Next(b, e).transfers) && SettleKey(i, leg) !in KeysOf(b.transfers)
    ensures Step(b, e).Ok? && e.op.DoResolve?
    ensures exists v :: v in e.op.held && v.id == i && UsesLeg(b.bets[i], v.won, leg)
  {
    var legs := StepLegs(b, e);
    if legs == [] {
      NothingPosted(b, e);
    }
    StepIsPosting(b, e);
    PostAllEffect(b, legs, StepContext(e));
    match e.op
    case DoResolve(_, _, vs) => BatchKeys(b.bets, vs, Settle);
    case DoReverse(_, vs) => BatchKeys(b.bets, vs, Reverse);
    case DoSell(id, u, view) =>
      CloseKeysShape(id, b.bets[id], CloseQuote(b.bets[id], view, e.ctx.now).value, SettleKey(i, leg));
    case _ =>
  }

  lemma NothingPosted(b: Books, e: Event)
    requires Enabled(b, e.op) && StepLegs(b, e) == []
    ensures Next(b, e).transfers == b.transfers
  {
  }

  /** A resolution leaves every bet it holds on the side it was judged. */
  lemma ResolvedSide(b: Books, vs: seq<Verdict>, ctx: Context, v: Verdict)
    requires SoundBets(b.bets) && InRange(b.bets, vs) && Distinct(vs) && v in vs
    requires RunPass(b, vs, Settle, ctx).Ok?
    ensures |RunPass(b, vs, Settle, ctx).value.bets| == |b.bets|
    ensures RunPass(b, vs, Settle, ctx).value.bets[v.id].status == SideOf(v.won)
  {
    BatchBetsAt(b.bets, vs, Settle);
  }

  ghost predicate OnSide(b: Books, i: BetId, won: bool) {
    i < |b.bets| && b.bets[i].status == SideOf(won)
  }

  lemma NewKeyNewSide(b: Books, e: Event, i: BetId, won: bool)
    requires Valid(b) && Enabled(b, e.op)
    requires SettleKey(i, MainLeg(won)) in KeysOf(Next(b, e).transfers)
    requires SettleKey(i, MainLeg(won)) !in KeysOf(b.transfers)
    ensures OnSide(Next(b, e), i, won)
  {
    NewSettleKey(b, e, i, MainLeg(won));
    var v :| v in e.op.held && v.id == i && UsesLeg(b.bets[i], v.won, MainLeg(won));
    ResolvedSide(b, e.op.held, e.ctx, v);
  }

  lemma KeysGrow(xs: seq<Transfer>, ys: seq<Transfer>)
    requires xs <= ys
    ensures KeysOf(xs) <= KeysOf(ys)
  {
  }

  /** The settle key of a side comes into use when the bet gets there, and stays. */
  lemma HistoryStep(b: Books, e: Event, i: BetId, won: bool)
    requires Valid(b) && Enabled(b, e.op)
    ensures SettleKey(i, MainLeg(won)) in KeysOf(Next(b, e).transfers) <==>
      SettleKey(i, MainLeg(won)) in KeysOf(b.transfers) || OnSide(Next(b, e), i, won)
  {
    var key, after := SettleKey(i, MainLeg(won)), Next(b, e);
    StepKeepsValid(b, e);
    KeysGrow(b.transfers, after.transfers);
    if key in KeysOf(after.transfers) && key !in KeysOf(b.transfers) {
      NewKeyNewSide(b, e, i, won);
    }
    if OnSide(after, i, won) {
      assert BetKeys(i, after.bets[i], KeysOf(after.transfers));
    }
  }

  ghost predicate KeyFollowsSide(states: seq<Books>, i: BetId, won: bool) {
    forall k | 0 <= k < |states| - 1 ::
      SettleKey(i, MainLeg(won)) in KeysOf(states[k + 1].transfers) <==>
        SettleKey(i, MainLeg(won)) in KeysOf(states[k].transfers) || OnSide(states[k + 1], i, won)
  }

  lemma RunFollowsSide(states: seq<Books>, events: seq<Event>, i: BetId, won: bool)
    requires IsRun(states, events)
    ensures KeyFollowsSide(states, i, won)
  {
    forall k | 0 <= k < |states| - 1
      ensures SettleKey(i, MainLeg(won)) in KeysOf(states[k + 1].transfers) <==>
        SettleKey(i, MainLeg(won)) in KeysOf(states[k].transfers) || OnSide(states[k + 1], i, won)
    {
      RunIsValid(states, events, k);
      HistoryStep(states[k], events[k], i, won);
    }
  }

  lemma {:induction false} KeyIsHistory(states: seq<Books>, n: nat, i: BetId, won: bool)
    requires n < |states| && states[0] == Seeded() && KeyFollowsSide(states, i, won)
    ensures SettleKey(i, MainLeg(won)) in KeysOf(states[n].transfers) <==>
      exists k :: 0 <= k <= n && OnSide(states[k], i, won)
  {
    if n == 0 {
      assert KeysOf([]) == {};
    } else {
      KeyIsHistory(states, n - 1, i, won);
    }
  }

  /** The settle key of a side is used exactly when the bet was settled on that side at some point of the
      run. With `ResolveOkIff`: re-resolving collides on keys exactly when a bet lands on a side it was
      on before, and not whenever it follows a reversal. */
  lemma SettleKeyIsHistory(states: seq<Books>, events: seq<Event>, n: nat, i: BetId, won: bool)
    requires IsRun(states, events) && n < |states|
    ensures SettleKey(i, MainLeg(won)) in KeysOf(states[n].transfers) <==>
      exists k :: 0 <= k <= n && OnSide(states[k], i, won)
  {
    RunFollowsSide(states, events, i, won);
    KeyIsHistory(states, n, i, won);
  }

  /** In any run a bet is settled at most once as a win and at most once as a loss: once it has left a
      side by reversal it never comes back to it. */
  lemma SideIsEnteredOnce(states: seq<Books>, events: seq<Event>, j: nat, n: nat, i: BetId, won: bool)
    requires IsRun(states, events) && j <= n < |states|
    requires ReverseKey(i, MainLeg(won)) in KeysOf(states[j].transfers)
    ensures !OnSide(states[n], i, won)
  {
    RunIsValid(states, events, n);
    RunExtends(states, events, j, n);
    KeysGrow(states[j].transfers, states[n].transfers);
    if i < |states[n].bets| {
      assert BetKeys(i, states[n].bets[i], KeysOf(states[n].transfers));
    }
  }

  /** A bet leaves the side it was settled on only through a reversal of that side, which uses its key. */
  lemma LeavingASide(states: seq<Books>, events: seq<Event>, k: nat, i: BetId, won: bool)
    requires IsRun(states, events) && k + 1 < |states|
    requires OnSide(states[k], i, won) && !OnSide(states[k + 1], i, won)
    ensures ReverseKey(i, MainLeg(won)) in KeysOf(states[k + 1].transfers)
  {
    RunIsValid(states, events, k);
    RunStep(states, events, k);
    KeysGrow(states[k].transfers, states[k + 1].transfers);
    assert BetKeys(i, states[k].bets[i], KeysOf(states[k].transfers));
    assert BetKeys(i, states[k + 1].bets[i], KeysOf(states[k + 1].transfers));
  }
}
