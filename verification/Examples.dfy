/** Runs that show where the code does not do what its comments say. */
module Examples {
  import opened Money
  import opened Domain
  import opened Posting
  import opened Lifecycle
  import opened Transactions
  import opened Invariant
  import opened Exactness
  import opened Runs
  import opened Guarantees
  import opened Portfolio
  import opened Database
  import opened EventModel
  import opened EventGuards
  import opened EventService
  import opened Winners

  // ---------------------------------------------------------------------------
  // A funded player and one bet.
  // ---------------------------------------------------------------------------

  function View(price: Price): MarketView {
    MarketView(MarketOpen, 100, [Outcome(10, true, price), Outcome(11, false, 500_000)], None, None)
  }

  const SYSTEM := Context(None, 0)

  function Placement(price: Price): Event {
    Event(DoPlace(1, 1, 10, 10_000, Some(View(price))), SYSTEM)
  }

  /** Player 1 opens a wallet, gets 2.0000, and bets 1.0000 on outcome 10 of market 1. */
  function Prelude(price: Price): seq<Event> {
    [Event(OpenWallet(1), SYSTEM), Event(DoRecharge(1, 20_000, "first", House), SYSTEM),
     Event(EnsurePool(1), SYSTEM), Placement(price)]
  }

  function TheBet(price: Price): Bet {
    NewBet(1, 1, 10, 10_000, price)
  }

  lemma Recharged(b: Books)
    requires b == WithAccount(Seeded(), Wallet(1))
    ensures Step(b, Prelude(0)[1]).Ok?
    ensures var after := Next(b, Prelude(0)[1]);
      && after.bets == [] && after.accounts.Keys == {HousePromo, HouseRevenue, Wallet(1)}
      && after.accounts[Wallet(1)].balance == 20_000 && after.accounts[HousePromo].balance == OPENING_PROMO - 20_000
  {
    assert KeysOf([]) == {};
  }

  lemma Quoted(price: Price)
    ensures Quote(Some(View(price)), 10, 10_000, 0) == Ok(price)
    ensures View(price).IsOpen(0) && View(price).Find(10) == Some(Outcome(10, true, price))
  {
  }

  lemma PlacesBet(b: Books, price: Price)
    requires b.bets == [] && b.accounts.Keys == {HousePromo, HouseRevenue, Wallet(1)}
    requires b.accounts[Wallet(1)].balance == 20_000
    ensures Enabled(b, EnsurePool(1)) && Enabled(WithAccount(b, Liability(1)), Placement(price).op)
    ensures var after := Next(WithAccount(b, Liability(1)), Placement(price));
      && after.bets == [TheBet(price)]
      && Balance(after, Wallet(1)) == 10_000 && Balance(after, HousePromo) == Balance(b, HousePromo)
  {
    Quoted(price);
  }

  /** The run so far. */
  ghost predicate IsPrelude(states: seq<Books>, price: Price) {
    && IsRun(states, Prelude(price)) && Valid(states[4])
    && (forall k | 0 <= k < 4 :: states[k].bets == [])
    && states[4].bets == [TheBet(price)]
    && Balance(states[4], Wallet(1)) == 10_000 && Balance(states[4], HousePromo) == OPENING_PROMO - 20_000
    && PlainOnWallets(states[4])
  }

  lemma FourSteps(price: Price, b1: Books, b2: Books) returns (states: seq<Books>)
    requires b1 == WithAccount(Seeded(), Wallet(1)) && b2 == Next(b1, Prelude(price)[1])
    requires Enabled(b2, EnsurePool(1)) && Enabled(WithAccount(b2, Liability(1)), Placement(price).op)
    ensures IsRun(states, Prelude(price))
    ensures states[0] == Seeded() && states[1] == b1 && states[2] == b2 && states[3] == WithAccount(b2, Liability(1))
    ensures states[4] == Next(states[3], Placement(price))
  {
    var b3 := WithAccount(b2, Liability(1));
    states := [Seeded(), b1, b2, b3, Next(b3, Placement(price))];
    var events := Prelude(price);
    forall k | 0 <= k < 4 ensures Enabled(states[k], events[k].op) && states[k + 1] == Next(states[k], events[k]) {
      assert k == 0 || k == 1 || k == 2 || k == 3;
    }
  }

  lemma PreludeStates(price: Price) returns (states: seq<Books>)
    ensures IsRun(states, Prelude(price))
    ensures (forall k | 0 <= k < 4 :: states[k].bets == []) && states[4].bets == [TheBet(price)]
    ensures Balance(states[4], Wallet(1)) == 10_000 && Balance(states[4], HousePromo) == OPENING_PROMO - 20_000
  {
    var b1 := WithAccount(Seeded(), Wallet(1));
    var b2 := Next(b1, Prelude(price)[1]);
    Recharged(b1);
    assert Prelude(price)[1] == Prelude(0)[1];
    PlacesBet(b2, price);
    states := FourSteps(price, b1, b2);
  }

  lemma PreludeRuns(price: Price) returns (states: seq<Books>)
    ensures IsPrelude(states, price)
  {
    states := PreludeStates(price);
    RunIsValid(states, Prelude(price), 4);
    RunKeepsPlain(states, Prelude(price), 4);
  }

  lemma Extended(states: seq<Books>, events: seq<Event>, e: Event)
    requires IsRun(states, events) && Enabled(states[|events|], e.op)
    ensures IsRun(states + [Next(states[|events|], e)], events + [e])
    ensures Valid(Next(states[|events|], e))
  {
    var more, all := states + [Next(states[|events|], e)], events + [e];
    forall k | 0 <= k < |all| ensures Enabled(more[k], all[k].op) && more[k + 1] == Next(more[k], all[k]) {
      if k < |events| {
        assert states[k + 1] == Next(states[k], events[k]);
      }
    }
    RunIsValid(more, all, |all|);
  }

  // ---------------------------------------------------------------------------
  // A price of 0.
  // ---------------------------------------------------------------------------

  /** A placement at price 0 goes through, and from then on the player's portfolio raises. */
  lemma FreePriceBreaksPortfolio(quotes: map<MarketId, MarketView>) returns (states: seq<Books>)
    ensures IsRun(states, Prelude(0)) && Step(states[3], Placement(0)).Ok?
    ensures exists p | p in InputsOf(states[4].bets, 1, quotes) :: Raises(p)
  {
    states := PreludeRuns(0);
    assert states[4] == Next(states[3], Placement(0)) && states[4].bets != states[3].bets;
    assert states[4].bets[0].price == 0;
    PortfolioRaisesIff(states[4], 1, quotes);
  }

  // ---------------------------------------------------------------------------
  // A closed bet in the admin's list.
  // ---------------------------------------------------------------------------

  function Sale(): Event {
    Event(DoSell(0, 1, Some(View(500_000))), SYSTEM)
  }

  lemma SaleGoesThrough(b: Books)
    requires Waiting(b)
    ensures Enabled(b, Sale().op) && Next(b, Sale()).bets == [ClosedAt(TheBet(500_000), 500_000, 0)]
  {
    Quoted(500_000);
    CashoutEndpoints(10_000, 500_000);
    PoolHasTheStake(b, 0);
    SellOkIff(b, 0, View(500_000), 0);
  }

  /** A run ending in a cash-out of the whole stake: the portfolio shows no loss, the admin's list a full one. */
  lemma AdminShowsLoss(quotes: map<MarketId, MarketView>) returns (states: seq<Books>, events: seq<Event>)
    ensures IsRun(states, events) && |states[|events|].bets| == 1
    ensures var bet := states[|events|].bets[0];
      && bet.status == Closed && bet.stake == 10_000
      && SettledAs(InputOf(0, bet, quotes)).realizedPnl == 0
      && AdminPnl(bet) == Some(-10_000)
  {
    var begun := PreludeRuns(500_000);
    SaleGoesThrough(begun[4]);
    CashoutEndpoints(10_000, 500_000);
    Extended(begun, Prelude(500_000), Sale());
    states, events := begun + [Next(begun[4], Sale())], Prelude(500_000) + [Sale()];
    assert states[|events|] == Next(begun[4], Sale());
  }

  // ---------------------------------------------------------------------------
  // Resolving again after a reversal.
  // ---------------------------------------------------------------------------

  const RESOLVE_A := Event(DoResolve(1, 10, [Verdict(0, true)]), SYSTEM)
  const REVERSE := Event(DoReverse(1, [Verdict(0, true)]), SYSTEM)
  const RESOLVE_B := Event(DoResolve(1, 11, [Verdict(0, false)]), SYSTEM)

  /** The bet is alone and pending, and there is money for everybody. */
  ghost predicate Waiting(b: Books) {
    && Valid(b) && b.bets == [TheBet(500_000)] && PlainOnWallets(b)
    && Balance(b, Wallet(1)) == 10_000 && Balance(b, HousePromo) == OPENING_PROMO - 20_000
  }

  lemma OneVerdict(bets: seq<Bet>, won: bool)
    requires bets == [TheBet(500_000)] || bets == [Settled(TheBet(500_000), won)]
    ensures SoundBets(bets) && InRange(bets, [Verdict(0, won)])
    ensures Distinct([Verdict(0, won)]) && !Unpayable(bets, [Verdict(0, won)])
    ensures WinningsOf(bets, [Verdict(0, won)]) == if won then 10_000 else 0
    ensures LossesOf(bets, [Verdict(0, won)]) == if won then 0 else 10_000
    ensures forall user :: PayoutsTo(bets, [Verdict(0, won)], user) == if won && user == 1 then 20_000 else 0
  {
    assert [Verdict(0, won)][1..] == [];
  }

  lemma ResolvesOn(b: Books, won: bool)
    requires Waiting(b) && SettleKey(0, MainLeg(won)) !in KeysOf(b.transfers)
    ensures RunPass(b, [Verdict(0, won)], Settle, SYSTEM).Ok?
  {
    var vs := [Verdict(0, won)];
    OneVerdict(b.bets, won);
    forall m ensures StakesIn(b.bets, vs, m) <= Balance(b, Liability(m)) {
      PoolsHaveTheStakes(b, vs, m);
    }
    ResolveOkIff(b, vs, SYSTEM);
  }

  lemma ReversesWin(b: Books)
    requires Valid(b) && b.bets == [Settled(TheBet(500_000), true)] && Balance(b, Wallet(1)) == 30_000
    ensures RunPass(b, [Verdict(0, true)], Reverse, SYSTEM).Ok?
  {
    var vs := [Verdict(0, true)];
    OneVerdict(b.bets, true);
    BalanceNonNegative(b, HouseRevenue);
    forall user ensures PayoutsTo(b.bets, vs, user) <= Balance(b, Wallet(user)) {
      BalanceNonNegative(b, Wallet(user));
    }
    ReverseOkIff(b, vs, SYSTEM);
  }

  /** What a pass over the one bet leaves. */
  lemma PassLeaves(b: Books, won: bool, dir: Pass)
    requires Valid(b) && b.bets == (if dir == Settle then [TheBet(500_000)] else [Settled(TheBet(500_000), won)])
    requires RunPass(b, [Verdict(0, won)], dir, SYSTEM).Ok?
    ensures var after := RunPass(b, [Verdict(0, won)], dir, SYSTEM).value;
      && after.bets == (if dir == Settle then [Settled(TheBet(500_000), won)] else [TheBet(500_000)])
      && Balance(after, Wallet(1)) == Balance(b, Wallet(1)) + (if won then Sign(dir) * 20_000 else 0)
      && Balance(after, HousePromo) == Balance(b, HousePromo) - (if won then Sign(dir) * 10_000 else 0)
  {
    OneVerdict(b.bets, won);
    PostAllEffect(b, BatchLegs(b.bets, [Verdict(0, won)], dir), SYSTEM);
    PassMoves(b.bets, won, dir);
    PassFlips(b.bets, won, dir);
  }

  lemma PassFlips(bets: seq<Bet>, won: bool, dir: Pass)
    requires bets == (if dir == Settle then [TheBet(500_000)] else [Settled(TheBet(500_000), won)])
    ensures BatchBets(bets, [Verdict(0, won)], dir) ==
      if dir == Settle then [Settled(TheBet(500_000), won)] else [TheBet(500_000)]
  {
    BatchBetsAt(bets, [Verdict(0, won)], dir);
    assert Verdict(0, won) in [Verdict(0, won)];
  }

  lemma PassMoves(bets: seq<Bet>, won: bool, dir: Pass)
    requires bets == [TheBet(500_000)] || bets == [Settled(TheBet(500_000), won)]
    ensures SoundBets(bets) && InRange(bets, [Verdict(0, won)])
    ensures Net(BatchLegs(bets, [Verdict(0, won)], dir), Wallet(1)) == if won then Sign(dir) * 20_000 else 0
    ensures Net(BatchLegs(bets, [Verdict(0, won)], dir), HousePromo) == -(if won then Sign(dir) * 10_000 else 0)
  {
    OneVerdict(bets, won);
    BatchNet(bets, [Verdict(0, won)], dir, Wallet(1));
    BatchNet(bets, [Verdict(0, won)], dir, HousePromo);
  }

  /** Resolving the waiting bet on outcome 10 and reversing that leaves it waiting. */
  lemma ThereAndBack(b: Books)
    requires Waiting(b) && SettleKey(0, StakeLeg) !in KeysOf(b.transfers)
    ensures Enabled(b, RESOLVE_A.op) && Next(b, RESOLVE_A).bets == [Settled(TheBet(500_000), true)]
    ensures Enabled(Next(b, RESOLVE_A), REVERSE.op)
    ensures var after := Next(Next(b, RESOLVE_A), REVERSE);
      && after.bets == [TheBet(500_000)]
      && Balance(after, Wallet(1)) == 10_000 && Balance(after, HousePromo) == OPENING_PROMO - 20_000
  {
    ResolvesOn(b, true);
    PassLeaves(b, true, Settle);
    PassKeepsValid(b, [Verdict(0, true)], Settle, SYSTEM);
    var won := RunPass(b, [Verdict(0, true)], Settle, SYSTEM).value;
    ReversesWin(won);
    PassLeaves(won, true, Reverse);
  }

  lemma ReopenedStates() returns (states: seq<Books>, events: seq<Event>)
    ensures IsRun(states, events) && |events| == 6 && Valid(states[6]) && states[6].bets == [TheBet(500_000)]
    ensures Balance(states[6], Wallet(1)) == 10_000 && Balance(states[6], HousePromo) == OPENING_PROMO - 20_000
    ensures states[5].bets == [Settled(TheBet(500_000), true)]
    ensures (forall k | 0 <= k < 4 :: states[k].bets == []) && states[4].bets == [TheBet(500_000)]
    ensures forall k | 0 <= k < 6 :: Ordinary(events[k].op)
  {
    var begun := PreludeRuns(500_000);
    NoKeyYet(begun, Prelude(500_000), true);
    ThereAndBack(begun[4]);
    states, events := ExtendedTwice(begun, Prelude(500_000), RESOLVE_A, REVERSE);
  }

  /** Place, resolve on outcome 10, reverse. */
  lemma ReopenedRun() returns (states: seq<Books>, events: seq<Event>)
    ensures IsRun(states, events) && |events| == 6 && Waiting(states[6])
    ensures states[5].bets == [Settled(TheBet(500_000), true)]
    ensures (forall k | 0 <= k < 4 :: states[k].bets == []) && states[4].bets == [TheBet(500_000)]
  {
    states, events := ReopenedStates();
    RunKeepsPlain(states, events, 6);
  }

  lemma ExtendedTwice(states: seq<Books>, events: seq<Event>, e: Event, f: Event)
      returns (more: seq<Books>, all: seq<Event>)
    requires IsRun(states, events) && Enabled(states[|events|], e.op) && Enabled(Next(states[|events|], e), f.op)
    ensures IsRun(more, all) && all == events + [e, f] && Valid(more[|all|])
    ensures more == states + [Next(states[|events|], e), Next(Next(states[|events|], e), f)]
  {
    var mid := Next(states[|events|], e);
    Extended(states, events, e);
    Extended(states + [mid], events + [e], f);
    more, all := states + [mid, Next(mid, f)], events + [e, f];
    assert more == states + [mid] + [Next(mid, f)] && all == events + [e] + [f];
  }

  /** No side has been entered as long as the bet has only been placed. */
  lemma NoKeyYet(states: seq<Books>, events: seq<Event>, won: bool)
    requires IsRun(states, events) && |events| == 4
    requires (forall k | 0 <= k < 4 :: states[k].bets == []) && states[4].bets == [TheBet(500_000)]
    ensures SettleKey(0, MainLeg(won)) !in KeysOf(states[4].transfers)
  {
    SettleKeyIsHistory(states, events, 4, 0, won);
  }

  /** What `resolve_market` selects and posts first for the waiting bet. */
  lemma Selected(bets: seq<Bet>, winner: OutcomeId)
    requires bets == [TheBet(500_000)]
    ensures PendingVerdicts(bets, 1, winner) == [Verdict(0, winner == 10)]
  {
    assert bets[..0] == [];
  }

  lemma CollidesOn(b: Books, won: bool)
    requires Waiting(b) && SettleKey(0, MainLeg(won)) in KeysOf(b.transfers)
    ensures RunPass(b, [Verdict(0, won)], Settle, SYSTEM) == Err(DuplicateKey)
  {
    OneVerdict(b.bets, won);
    assert [Verdict(0, won)][1..] == [];
    assert BatchLegs(b.bets, [Verdict(0, won)], Settle)[0].key == Some(SettleKey(0, MainLeg(won)));
  }

  /** After the reversal, resolving on the other outcome goes through; resolving on the same one collides. */
  lemma OnlyTheSameSideCollides() returns (states: seq<Books>, events: seq<Event>)
    ensures IsRun(states, events) && |events| == 6
    ensures PendingVerdicts(states[6].bets, 1, 11) == RESOLVE_B.op.held
    ensures PendingVerdicts(states[6].bets, 1, 10) == RESOLVE_A.op.held
    ensures Enabled(states[6], RESOLVE_B.op) && Step(states[6], RESOLVE_B).Ok?
    ensures Enabled(states[6], RESOLVE_A.op) && Step(states[6], RESOLVE_A) == Err(DuplicateKey)
  {
    states, events := ReopenedRun();
    SettleKeyIsHistory(states, events, 6, 0, false);
    SettleKeyIsHistory(states, events, 6, 0, true);
    assert OnSide(states[5], 0, true);
    Selected(states[6].bets, 10);
    Selected(states[6].bets, 11);
    ResolvesOn(states[6], false);
    CollidesOn(states[6], true);
  }

  // ---------------------------------------------------------------------------
  // A reversal that does not reopen the event.
  // ---------------------------------------------------------------------------

  /** An event with one child and no bets. */
  function OneChild(): Db {
    Db(Seeded(), map[1 := Binary(10, 11)], [])
  }

  /** Resolved and then reversed, both without a failure, the event does not read "open" again. */
  lemma ReversedIsNotOpen()
    ensures Valid(OneChild().books) && Succeeds(OneChild(), Attempt(1, 10, false, 1), "final", None)
    ensures var resolved := After(OneChild(), Attempt(1, 10, false, 1), "final", None);
      && UndoFailures(resolved, UndosOf([1], NoneFails), "wrong", None) == []
      && var end := UndoAll(resolved, UndosOf([1], NoneFails), "wrong", None);
         && 1 in end.markets && DeriveEventStatus(Statuses(end.markets, [1])) != EventOpen
  {
    SeededIsValid();
    var start, t := OneChild(), Attempt(1, 10, false, 1);
    EmptyChildSucceeds(start, t);
    var resolved := After(start, t, "final", None);
    RowAfter(start, t, 1, "final", None);
    var undos := UndosOf([1], NoneFails);
    assert undos[0] == Undo(1, NoneFails(1).0, NoneFails(1).1) == Undo(1, false, 1);
    assert undos == [undos[0]] && undos[1..] == [];
    assert SettledVerdicts(resolved.books.bets, 1) == [];
    assert Undone(resolved, undos[0], "wrong", None);
    assert UndoFailures(resolved, undos, "wrong", None) == [];
    assert undos[0] in undos && UndoMarkets(undos) == {1};
    ReversePassStatus(resolved, undos, [1], "wrong", None);
    assert StillResolved(resolved, 1);
  }
}
