/** What each call of the wallet and bet services does, and exactly when it goes through, told by balances,
    rows and guards alone. */
module Services {
  import opened Money
  import opened Domain
  import opened Posting
  import opened Lifecycle
  import opened Transactions
  import opened Invariant
  import opened Exactness
  import opened Runs

  /** `amount` left `debit` and reached `credit`; every other balance is as it was. */
  ghost predicate Moved(b: Books, after: Books, debit: Account, credit: Account, amount: int) {
    forall a :: Balance(after, a) ==
      Balance(b, a) + (if a == credit then amount else 0) - (if a == debit then amount else 0)
  }

  /** One transfer was written, with its two entries. */
  predicate Recorded(b: Books, after: Books, t: Transfer, debit: Account, credit: Account, amount: int, now: Time) {
    && t.id == |b.transfers| && after.transfers == b.transfers + [t]
    && after.entries == b.entries + [Entry(t, debit, Debit, amount, now), Entry(t, credit, Credit, amount, now)]
  }

  predicate KeyFree(b: Books, key: Option<Key>) {
    key.Some? ==> forall t | t in b.transfers :: t.key != key
  }

  lemma KeyFreeIff(b: Books, key: Key)
    ensures KeyFree(b, Some(key)) <==> key !in KeysOf(b.transfers)
  {
  }

  /** Any leg, from any state. */
  lemma LegIsPosted(b: Books, leg: Leg, ctx: Context)
    ensures PostLeg(b, leg, ctx).Ok? <==>
      && leg.amount > 0 && leg.debit in b.accounts && leg.credit in b.accounts
      && leg.amount <= b.accounts[leg.debit].balance && KeyFree(b, leg.key)
    ensures PostLeg(b, leg, ctx).Ok? ==>
      var after := PostLeg(b, leg, ctx).value;
      && after.accounts.Keys == b.accounts.Keys && after.bets == b.bets
      && Moved(b, after, leg.debit, leg.credit, leg.amount)
      && Recorded(b, after, Transfer(|b.transfers|, leg.kind, leg.key, ctx.actor, leg.bet),
                  leg.debit, leg.credit, leg.amount, ctx.now)
  {
    if leg.key.Some? {
      KeyFreeIff(b, leg.key.value);
    }
  }

  // ---------------------------------------------------------------------------
  // Accounts.
  // ---------------------------------------------------------------------------

  /** An empty account was added. */
  predicate Opens(b: Books, after: Books, a: Account) {
    after == b.(accounts := b.accounts[a := AccountRow(0, 0)])
  }

  /** A user gets one wallet, empty; a market's pool is opened once, empty, and otherwise left alone. */
  lemma AccountsOpenOnce(b: Books, user: UserId, m: MarketId, ctx: Context)
    requires SoundBets(b.bets)
    ensures Step(b, Event(OpenWallet(user), ctx)).Ok? <==> Wallet(user) !in b.accounts
    ensures Wallet(user) !in b.accounts ==> Opens(b, Next(b, Event(OpenWallet(user), ctx)), Wallet(user))
    ensures Step(b, Event(EnsurePool(m), ctx)).Ok?
    ensures Liability(m) in b.accounts ==> Next(b, Event(EnsurePool(m), ctx)) == b
    ensures Liability(m) !in b.accounts ==> Opens(b, Next(b, Event(EnsurePool(m), ctx)), Liability(m))
  {
  }

  // ---------------------------------------------------------------------------
  // Direct transfers.
  // ---------------------------------------------------------------------------

  function TextKey(text: Option<string>): Option<Key> {
    if text.Some? then Some(ClientKey(text.value)) else None
  }

  predicate CanTransfer(b: Books, debit: Account, credit: Account, amount: int, text: Option<string>) {
    && amount > 0 && debit in b.accounts && credit in b.accounts
    && amount <= b.accounts[debit].balance && KeyFree(b, TextKey(text))
  }

  /** The amount moves from debit to credit under the given key, and nothing else happens. */
  ghost predicate Transferred(b: Books, after: Books, t: Transfer, debit: Account, credit: Account, amount: int,
                              text: Option<string>, ctx: Context) {
    && Moved(b, after, debit, credit, amount) && Recorded(b, after, t, debit, credit, amount, ctx.now)
    && t.kind == OtherTransfer && t.key == TextKey(text) && t.actor == ctx.actor && t.bet == None
    && after.accounts.Keys == b.accounts.Keys && after.bets == b.bets
  }

  /** What a direct transfer answers, whatever it is asked. */
  ghost predicate TransferAnswer(b: Books, r: Result<Books>, debit: Account, credit: Account, amount: int,
                                 text: Option<string>, ctx: Context) {
    && (r.Ok? <==> CanTransfer(b, debit, credit, amount, text))
    && (r.Ok? ==> Transferred(b, r.value, Transfer(|b.transfers|, OtherTransfer, TextKey(text), ctx.actor, None),
                              debit, credit, amount, text, ctx))
    && (r == Err(ValueError) <==> amount <= 0)
    && (r == Err(InsufficientBalance) <==> amount > 0 && debit in b.accounts && b.accounts[debit].balance < amount)
    && (r == Err(DuplicateKey) <==>
         amount > 0 && debit in b.accounts && amount <= b.accounts[debit].balance && !KeyFree(b, TextKey(text)))
  }

  lemma TransferMovesAmount(b: Books, debit: Account, credit: Account, amount: int, text: Option<string>, ctx: Context)
    ensures TransferAnswer(b, TransferFunds(b, debit, credit, amount, text, ctx), debit, credit, amount, text, ctx)
  {
    LegIsPosted(b, TransferLeg(debit, credit, amount, text), ctx);
    if text.Some? {
      KeyFreeIff(b, ClientKey(text.value));
    }
  }

  /** The same as a unit of work of a run. */
  lemma TransferStep(b: Books, debit: Account, credit: Account, amount: int, text: Option<string>, ctx: Context)
    requires SoundBets(b.bets)
    ensures TransferAnswer(b, Step(b, Event(DoTransfer(debit, credit, amount, text), ctx)),
                           debit, credit, amount, text, ctx)
  {
    TransferMovesAmount(b, debit, credit, amount, text, ctx);
  }

  // ---------------------------------------------------------------------------
  // Recharges and the sign-up bonus.
  // ---------------------------------------------------------------------------

  /** A used key needs only the wallet: the call answers with what is there. */
  predicate CanFund(b: Books, user: UserId, amount: int, key: Key) {
    && amount > 0 && Wallet(user) in b.accounts
    && (KeyFree(b, Some(key)) ==> HousePromo in b.accounts && amount <= b.accounts[HousePromo].balance)
  }

  /** On a fresh key the wallet gains what house promo loses; on a used one nothing changes and the answer
      is the transfer that carries it. */
  ghost predicate Funds(b: Books, after: Books, t: Transfer, user: UserId, amount: int, kind: Kind, key: Key,
                        now: Time) {
    && t.key == Some(key)
    && if KeyFree(b, Some(key)) then
         && Moved(b, after, HousePromo, Wallet(user), amount)
         && Recorded(b, after, t, HousePromo, Wallet(user), amount, now)
         && t.kind == kind && t.actor == None && t.bet == None
         && after.accounts.Keys == b.accounts.Keys && after.bets == b.bets
       else after == b && t in b.transfers
  }

  lemma FundingMovesAmount(b: Books, user: UserId, amount: int, kind: Kind, key: Key, now: Time)
    requires amount > 0
    ensures var r := Fund(b, FundingLeg(kind, key, user, amount), Context(None, now));
      && (r.Ok? <==> CanFund(b, user, amount, key))
      && (r.Ok? ==> Funds(b, r.value.books, r.value.transfer, user, amount, kind, key, now))
  {
    LegIsPosted(b, FundingLeg(kind, key, user, amount), Context(None, now));
    KeyFreeIff(b, key);
  }

  lemma RechargeMovesAmount(b: Books, user: UserId, amount: int, text: string, provider: Provider, now: Time)
    ensures var r := RechargeWallet(b, user, amount, text, provider, now);
      && (r.Ok? <==> provider == House && CanFund(b, user, amount, ClientKey(text)))
      && (r.Ok? ==> Funds(b, r.value.books, r.value.transfer, user, amount, Recharge, ClientKey(text), now))
      && (r == Err(NotImplemented) <==> provider == Stripe)
      && (r == Err(ValueError) <==> provider == UnknownProvider || (provider == House && amount <= 0))
  {
    if amount > 0 {
      FundingMovesAmount(b, user, amount, Recharge, ClientKey(text), now);
    }
  }

  lemma BonusMovesAmount(b: Books, user: UserId, amount: int, now: Time)
    ensures var r := GrantBonus(b, user, amount, now);
      && (r.Ok? <==> CanFund(b, user, amount, BonusKey(user)))
      && (r.Ok? ==> Funds(b, r.value.books, r.value.transfer, user, amount, SignupBonus, BonusKey(user), now))
      && (r == Err(ValueError) <==> amount <= 0)
  {
    if amount > 0 {
      FundingMovesAmount(b, user, amount, SignupBonus, BonusKey(user), now);
    }
  }

  /** The same of the units of work that runs and interleavings use. */
  lemma RechargeStep(b: Books, user: UserId, amount: int, text: string, provider: Provider, ctx: Context)
    requires SoundBets(b.bets)
    ensures var r := Step(b, Event(DoRecharge(user, amount, text, provider), ctx));
      && (r.Ok? <==> provider == House && CanFund(b, user, amount, ClientKey(text)))
      && (r.Ok? ==> exists t :: Funds(b, r.value, t, user, amount, Recharge, ClientKey(text), ctx.now))
  {
    RechargeMovesAmount(b, user, amount, text, provider, ctx.now);
  }

  lemma BonusStep(b: Books, user: UserId, amount: int, ctx: Context)
    requires SoundBets(b.bets)
    ensures var r := Step(b, Event(DoBonus(user, amount), ctx));
      && (r.Ok? <==> CanFund(b, user, amount, BonusKey(user)))
      && (r.Ok? ==> exists t :: Funds(b, r.value, t, user, amount, SignupBonus, BonusKey(user), ctx.now))
  {
    BonusMovesAmount(b, user, amount, ctx.now);
  }

  lemma OneCarrier(ts: seq<Transfer>, x: Transfer, y: Transfer)
    requires UniqueKeys(ts) && x in ts && y in ts && x.key.Some? && x.key == y.key
    ensures x == y
  {
  }

  /** Whatever is committed in between, a second recharge under the same key answers the first transfer and
      changes nothing, for any amount and at any time. */
  lemma RechargeIsIdempotent(b: Books, first: Receipt, user: UserId, amount: int, text: string, provider: Provider,
                             now: Time, later: Books, who: UserId, again: int, at: Time)
    requires RechargeWallet(b, user, amount, text, provider, now) == Ok(first)
    requires Valid(later) && first.books.transfers <= later.transfers
    requires Wallet(who) in later.accounts && again > 0
    ensures RechargeWallet(later, who, again, text, House, at) == Ok(Receipt(later, first.transfer))
  {
    RechargeMovesAmount(b, user, amount, text, provider, now);
    assert first.transfer in first.books.transfers;
    RechargeMovesAmount(later, who, again, text, House, at);
    OneCarrier(later.transfers, first.transfer, RechargeWallet(later, who, again, text, House, at).value.transfer);
  }

  /** The bonus is granted once per user, whatever is committed in between, and to each user separately. */
  lemma BonusIsGrantedOnce(b: Books, first: Receipt, user: UserId, amount: int, now: Time,
                           later: Books, again: int, at: Time)
    requires GrantBonus(b, user, amount, now) == Ok(first)
    requires Valid(later) && first.books.transfers <= later.transfers
    requires Wallet(user) in later.accounts && again > 0
    ensures GrantBonus(later, user, again, at) == Ok(Receipt(later, first.transfer))
    ensures forall other | other != user ::
              KeyFree(first.books, Some(BonusKey(other))) <==> KeyFree(b, Some(BonusKey(other)))
  {
    BonusMovesAmount(b, user, amount, now);
    assert first.transfer in first.books.transfers;
    BonusMovesAmount(later, user, again, at);
    OneCarrier(later.transfers, first.transfer, GrantBonus(later, user, again, at).value.transfer);
  }

  /** The same between any two points of a run: a wallet never goes away. */
  lemma FundedOnce(states: seq<Books>, events: seq<Event>, j: nat, k: nat, first: Receipt, again: int, at: Time)
    requires IsRun(states, events) && j < k < |states| && again > 0 && first.books == states[j + 1]
    requires events[j].op.DoRecharge? || events[j].op.DoBonus?
    requires var op := events[j].op;
      if op.DoRecharge? then
        RechargeWallet(states[j], op.payee, op.amount, op.text, op.provider, events[j].ctx.now) == Ok(first)
      else GrantBonus(states[j], op.newcomer, op.bonus, events[j].ctx.now) == Ok(first)
    ensures var op := events[j].op;
      if op.DoRecharge? then
        RechargeWallet(states[k], op.payee, again, op.text, House, at) == Ok(Receipt(states[k], first.transfer))
      else GrantBonus(states[k], op.newcomer, again, at) == Ok(Receipt(states[k], first.transfer))
  {
    var op, now := events[j].op, events[j].ctx.now;
    RunExtends(states, events, j + 1, k);
    RunIsValid(states, events, k);
    if op.DoRecharge? {
      RechargeMovesAmount(states[j], op.payee, op.amount, op.text, op.provider, now);
      RechargeIsIdempotent(states[j], first, op.payee, op.amount, op.text, op.provider, now,
                           states[k], op.payee, again, at);
    } else {
      BonusMovesAmount(states[j], op.newcomer, op.bonus, now);
      BonusIsGrantedOnce(states[j], first, op.newcomer, op.bonus, now, states[k], again, at);
    }
  }

  // ---------------------------------------------------------------------------
  // Placement.
  // ---------------------------------------------------------------------------

  /** There is a market, OPEN and before its deadline. */
  predicate Trading(market: Option<MarketView>, now: Time) {
    market.Some? && market.value.status == MarketOpen && now < market.value.deadline
  }

  /** The outcome is one of the market's, at that price. */
  predicate Offers(view: MarketView, outcome: OutcomeId, price: Price) {
    exists o | o in view.outcomes :: o.id == outcome && o.price == price
  }

  predicate Lists(view: MarketView, outcome: OutcomeId) {
    exists o | o in view.outcomes :: o.id == outcome
  }

  /** The market's own bounds where it has them, 1.0000 and 100000.0000 otherwise. */
  predicate InLimits(view: MarketView, stake: int) {
    && (if view.minStake.Some? then view.minStake.value <= stake else 10_000 <= stake)
    && (if view.maxStake.Some? then stake <= view.maxStake.value else stake <= 1_000_000_000)
  }

  /** Each guard on the snapshot, which error it answers with, and whose price is locked. */
  lemma QuoteIff(market: Option<MarketView>, outcome: OutcomeId, stake: int, now: Time)
    ensures var r := Quote(market, outcome, stake, now);
      && (r.Ok? <==>
           stake > 0 && Trading(market, now) && Lists(market.value, outcome) && InLimits(market.value, stake))
      && (r.Ok? ==> Offers(market.value, outcome, r.value))
      && (r == Err(ValueError) <==> stake <= 0)
      && (r == Err(MarketNotFound) <==> stake > 0 && market.None?)
      && (r == Err(MarketClosed) <==> stake > 0 && market.Some? && !Trading(market, now))
      && (r == Err(InvalidOutcome) <==> stake > 0 && Trading(market, now) && !Lists(market.value, outcome))
  {
    if market.Some? && market.value.Find(outcome).Some? {
      var o := market.value.Find(outcome).value;
      assert o in market.value.outcomes && o.id == outcome;
    }
  }

  predicate CanPlace(b: Books, market: Option<MarketView>, user: UserId, outcome: OutcomeId, stake: int, now: Time) {
    && stake > 0 && Trading(market, now) && Lists(market.value, outcome) && InLimits(market.value, stake)
    && Wallet(user) in b.accounts && stake <= b.accounts[Wallet(user)].balance
  }

  /** The new bet is pending, with what was asked for and a price that the market offers for that outcome. */
  predicate Accepted(b: Books, after: Books, view: MarketView, user: UserId, m: MarketId, outcome: OutcomeId,
                     stake: int) {
    && |after.bets| == |b.bets| + 1 && after.bets[..|b.bets|] == b.bets
    && var bet := after.bets[|b.bets|];
       && bet.user == user && bet.market == m && bet.outcome == outcome && bet.stake == stake
       && Offers(view, outcome, bet.price)
       && bet.status == Pending && bet.exitOdds == None && bet.closedAt == None
  }

  /** The bet is there and its stake has gone from the wallet to the market's pool. */
  ghost predicate Placed(b: Books, after: Books, view: MarketView, user: UserId, m: MarketId, outcome: OutcomeId,
                         stake: int, now: Time) {
    && Accepted(b, after, view, user, m, outcome, stake)
    && Moved(b, after, Wallet(user), Liability(m), stake)
    && Recorded(b, after, Transfer(|b.transfers|, BetPlaced, None, Some(user), Some(|b.bets|)),
                Wallet(user), Liability(m), stake, now)
    && after.accounts.Keys == b.accounts.Keys + {Liability(m)}
  }

  lemma InsertsBet(b: Books, user: UserId, m: MarketId, outcome: OutcomeId, stake: int, price: Price, now: Time)
    requires Liability(m) in b.accounts && stake > 0
    ensures var r := InsertBet(b, NewBet(user, m, outcome, stake, price), now);
      && (r.Ok? <==> Wallet(user) in b.accounts && stake <= b.accounts[Wallet(user)].balance)
      && (r.Ok? ==>
           && r.value.bets == b.bets + [Bet(user, m, outcome, stake, price, Pending, None, None)]
           && r.value.accounts.Keys == b.accounts.Keys
           && Moved(b, r.value, Wallet(user), Liability(m), stake)
           && Recorded(b, r.value, Transfer(|b.transfers|, BetPlaced, None, Some(user), Some(|b.bets|)),
                       Wallet(user), Liability(m), stake, now))
      && (r == Err(InsufficientBalance) <==> Wallet(user) in b.accounts && b.accounts[Wallet(user)].balance < stake)
  {
    var bet := NewBet(user, m, outcome, stake, price);
    LegIsPosted(b, PlaceLeg(|b.bets|, bet), Context(Some(user), now));
  }

  /** Placement as a unit of work, once the pool is there. */
  lemma PlacementMovesStake(b: Books, user: UserId, m: MarketId, outcome: OutcomeId, stake: int,
                            market: Option<MarketView>, ctx: Context)
    requires SoundBets(b.bets) && Liability(m) in b.accounts
    ensures var r := Step(b, Event(DoPlace(user, m, outcome, stake, market), ctx));
      && (r.Ok? <==> CanPlace(b, market, user, outcome, stake, ctx.now))
      && (r.Ok? ==> Placed(b, r.value, market.value, user, m, outcome, stake, ctx.now))
  {
    QuoteIff(market, outcome, stake, ctx.now);
    var price := Quote(market, outcome, stake, ctx.now);
    if price.Ok? {
      InsertsBet(b, user, m, outcome, stake, price.value, ctx.now);
    }
  }

  /** A refused placement may have opened the pool; nothing else happened. */
  ghost predicate Unplaced(b: Books, after: Books) {
    && after.bets == b.bets && after.transfers == b.transfers && after.entries == b.entries
    && forall a :: Balance(after, a) == Balance(b, a)
  }

  /** The whole call: the snapshot, then the pool in its own unit of work, then the bet. */
  lemma PlaceBetMovesStake(b: Books, market: Option<MarketView>, user: UserId, m: MarketId, outcome: OutcomeId,
                           stake: int, now: Time)
    ensures Quote(market, outcome, stake, now).Err? ==> !CanPlace(b, market, user, outcome, stake, now)
    ensures Unplaced(b, WithAccount(b, Liability(m)))
    ensures Quote(market, outcome, stake, now).Ok? ==>
      var price := Quote(market, outcome, stake, now).value;
      var r := InsertBet(WithAccount(b, Liability(m)), NewBet(user, m, outcome, stake, price), now);
      && (r.Ok? <==> CanPlace(b, market, user, outcome, stake, now))
      && (r.Ok? ==> Placed(b, r.value, market.value, user, m, outcome, stake, now))
  {
    QuoteIff(market, outcome, stake, now);
    var price := Quote(market, outcome, stake, now);
    if price.Ok? {
      InsertsBet(WithAccount(b, Liability(m)), user, m, outcome, stake, price.value, now);
    }
  }

  // ---------------------------------------------------------------------------
  // Early close.
  // ---------------------------------------------------------------------------

  predicate Owns(b: Books, id: BetId, user: UserId) {
    id < |b.bets| && b.bets[id].user == user
  }

  /** The player's pending bet, on a trading market that still lists its outcome. */
  predicate Closable(b: Books, id: BetId, user: UserId, market: Option<MarketView>, now: Time) {
    && Owns(b, id, user) && b.bets[id].status == Pending
    && Trading(market, now) && Lists(market.value, b.bets[id].outcome)
  }

  /** What a cash-out of `paid` moves through each account: the player has it, the pool lost the stake, and the
      difference is between house promo and house revenue. */
  function SaleShare(bet: Bet, paid: int, a: Account): int {
    match a
    case Wallet(user) => if user == bet.user then paid else 0
    case Liability(m) => if m == bet.market then -bet.stake else 0
    case HousePromo => if paid > bet.stake then bet.stake - paid else 0
    case HouseRevenue => if paid < bet.stake then bet.stake - paid else 0
  }

  /** The bet is CLOSED at `exit`, no other bet changed, and the cash-out has been paid. */
  ghost predicate Sold(b: Books, after: Books, id: BetId, exit: Price, now: Time)
    requires id < |b.bets| && b.bets[id].stake > 0
  {
    var bet := b.bets[id];
    && after.bets == b.bets[id := bet.(status := Closed, exitOdds := Some(exit), closedAt := Some(now))]
    && (forall a :: Balance(after, a) == Balance(b, a) + SaleShare(bet, CashoutAt(bet, exit), a))
    && WrittenBy(b, after, Some(bet.user), now)
  }

  lemma CloseQuoteIff(bet: Bet, market: Option<MarketView>, now: Time)
    ensures var r := CloseQuote(bet, market, now);
      && (r.Ok? <==> Trading(market, now) && Lists(market.value, bet.outcome) && PayoutDefined(bet.stake, bet.price))
      && (r.Ok? ==> Offers(market.value, bet.outcome, r.value) && r.value == market.value.Find(bet.outcome).value.price)
      && (r == Err(MarketNotFound) <==> market.None?)
      && (r == Err(MarketClosed) <==> market.Some? && !Trading(market, now))
      && (r == Err(InvalidOutcome) <==> Trading(market, now) && !Lists(market.value, bet.outcome))
  {
    if market.Some? && market.value.Find(bet.outcome).Some? {
      var o := market.value.Find(bet.outcome).value;
      assert o in market.value.outcomes && o.id == bet.outcome;
    }
  }

  /** Such a bet whose price is not 0 and whose pool has the stake, with house promo covering the gain. */
  predicate CanSell(b: Books, id: BetId, user: UserId, market: Option<MarketView>, now: Time)
    requires SoundBets(b.bets)
  {
    && Closable(b, id, user, market, now) && b.bets[id].price > 0
    && b.bets[id].stake <= Balance(b, Liability(b.bets[id].market))
    && CashoutAt(b.bets[id], market.value.Find(b.bets[id].outcome).value.price) - b.bets[id].stake
         <= Balance(b, HousePromo)
  }

  /** From any valid state and for any snapshot. */
  lemma SaleOkIff(b: Books, id: BetId, user: UserId, market: Option<MarketView>, ctx: Context)
    requires Valid(b)
    ensures Step(b, Event(DoSell(id, user, market), ctx)).Ok? <==> CanSell(b, id, user, market, ctx.now)
  {
    if id < |b.bets| {
      CloseQuoteIff(b.bets[id], market, ctx.now);
      if Closable(b, id, user, market, ctx.now) {
        SellOkIff(b, id, market.value, ctx.now);
      }
    }
  }

  /** The exit price is one that the market offers for the bet's own outcome, and the answer is the cash-out
      at that price. */
  ghost predicate SoldAtOffer(b: Books, after: Books, id: BetId, view: MarketView, paid: int, now: Time)
    requires id < |b.bets| && b.bets[id].stake > 0
  {
    && |after.bets| == |b.bets| && after.bets[id].exitOdds.Some?
    && var exit := after.bets[id].exitOdds.value;
       && Offers(view, b.bets[id].outcome, exit)
       && paid == CashoutAt(b.bets[id], exit)
       && Sold(b, after, id, exit, now)
  }

  lemma SalePays(b: Books, id: BetId, user: UserId, market: Option<MarketView>, ctx: Context)
    requires Valid(b) && Step(b, Event(DoSell(id, user, market), ctx)).Ok?
    ensures Closable(b, id, user, market, ctx.now)
    ensures var after := Next(b, Event(DoSell(id, user, market), ctx));
      && id < |after.bets| && after.bets[id].exitOdds.Some?
      && SoldAtOffer(b, after, id, market.value, CashoutAt(after.bets[id], after.bets[id].exitOdds.value), ctx.now)
  {
    CloseQuoteIff(b.bets[id], market, ctx.now);
    CloseSells(b, id, CloseQuote(b.bets[id], market, ctx.now).value, ctx.now);
  }

  lemma CloseSells(b: Books, id: BetId, exit: Price, now: Time)
    requires Valid(b) && id < |b.bets| && b.bets[id].price > 0 && CloseBet(b, id, exit, now).Ok?
    ensures Sold(b, CloseBet(b, id, exit, now).value, id, exit, now)
  {
    var legs := CloseLegs(id, b.bets[id], exit);
    PostAllEffect(b, legs, Context(Some(b.bets[id].user), now));
    PostAllSigned(b, legs, Context(Some(b.bets[id].user), now));
    forall a ensures Net(legs, a) == SaleShare(b.bets[id], CashoutAt(b.bets[id], exit), a) {
      CloseShare(id, b.bets[id], exit, a);
    }
  }

  lemma CloseShare(id: BetId, bet: Bet, exit: Price, a: Account)
    requires SoundBet(bet) && bet.price > 0
    ensures Net(CloseLegs(id, bet, exit), a) == SaleShare(bet, CashoutAt(bet, exit), a)
  {
    CloseLegsExact(id, bet, exit);
    NetShort(CloseLegs(id, bet, exit), a);
  }

  /** The constraints of the ledger: no service guard answers with one of them. */
  predicate LedgerError(e: Error) {
    e == DuplicateKey || e == AmountNotPositive || e == NoAccount || e == BalanceFloor
  }

  lemma {:induction false} PostingErrors(b: Books, legs: seq<Leg>, ctx: Context)
    ensures PostAll(b, legs, ctx).Err? ==> LedgerError(PostAll(b, legs, ctx).error)
    decreases legs
  {
    if legs != [] && PostLeg(b, legs[0], ctx).Ok? {
      PostingErrors(PostLeg(b, legs[0], ctx).value, legs[1..], ctx);
    }
  }

  /** Which refusal a close answers with. */
  lemma SaleErrors(b: Books, id: BetId, user: UserId, market: Option<MarketView>, ctx: Context)
    requires SoundBets(b.bets)
    ensures var r, mine := Step(b, Event(DoSell(id, user, market), ctx)), Owns(b, id, user);
      && (r == Err(BetNotFound) <==> !mine)
      && (r == Err(BetNotClosable) <==> mine && b.bets[id].status != Pending)
      && (mine && b.bets[id].status == Pending ==>
           && (market.None? ==> r == Err(MarketNotFound))
           && (market.Some? && !Trading(market, ctx.now) ==> r == Err(MarketClosed))
           && (Trading(market, ctx.now) && !Lists(market.value, b.bets[id].outcome) ==> r == Err(InvalidOutcome)))
  {
    if Owns(b, id, user) && b.bets[id].status == Pending {
      CloseQuoteIff(b.bets[id], market, ctx.now);
      var quote := CloseQuote(b.bets[id], market, ctx.now);
      if quote.Ok? {
        PostingErrors(b, CloseLegs(id, b.bets[id], quote.value), Context(Some(user), ctx.now));
      }
    }
  }

  /** The call as a unit of work whose actor is the player. */
  lemma SaleLaw(b: Books, id: BetId, user: UserId, market: Option<MarketView>, now: Time)
    requires Valid(b)
    ensures var r := SellPosition(b, id, user, market, now);
      && (r.Ok? <==> CanSell(b, id, user, market, now))
      && (r.Ok? ==>
           && id < |r.value.bets| && r.value.bets[id].exitOdds.Some?
           && SoldAtOffer(b, r.value, id, market.value,
                          CashoutAt(r.value.bets[id], r.value.bets[id].exitOdds.value), now))
  {
    SaleOkIff(b, id, user, market, Context(Some(user), now));
    if SellPosition(b, id, user, market, now).Ok? {
      SalePays(b, id, user, market, Context(Some(user), now));
    }
  }
}
