/** The units of work of the wallet, bet and settlement services, as functions on the books.
    An `Err` is a rollback: the books stay as they were. */
module Transactions {
  import opened Money
  import opened Domain
  import opened Posting
  import opened Lifecycle

  /** `create_wallet` and `_ensure_market_liability_account` insert a row with balance 0. */
  function WithAccount(b: Books, a: Account): Books {
    if a in b.accounts then b else b.(accounts := b.accounts[a := AccountRow(0, 0)])
  }

  function CreateWallet(b: Books, user: UserId): Result<Books> {
    if Wallet(user) in b.accounts then Err(DuplicateKey) else Ok(WithAccount(b, Wallet(user)))
  }

  // ---------------------------------------------------------------------------
  // Wallet service.
  // ---------------------------------------------------------------------------

  datatype Provider = House | Stripe | UnknownProvider

  /** The books after a funding call and the transfer it answers with. */
  datatype Receipt = Receipt(books: Books, transfer: Transfer)

  function FindTransfer(ts: seq<Transfer>, key: Key): (r: Transfer)
    requires key in KeysOf(ts)
    ensures r in ts && r.key == Some(key)
  {
    var n := |ts| - 1;
    if ts[n].key == Some(key) then ts[n]
    else
      assert key in KeysOf(ts[..n]) by {
        KeysOfSnoc(ts[..n], ts[n]);
        assert ts == ts[..n] + [ts[n]];
      }
      FindTransfer(ts[..n], key)
  }

  function FundingLeg(kind: Kind, key: Key, user: UserId, amount: int): Leg {
    Leg(kind, Some(key), HousePromo, Wallet(user), amount, None)
  }

  /** Shared by recharge and bonus: a duplicate key answers with the existing transfer. */
  function Fund(b: Books, leg: Leg, ctx: Context): Result<Receipt>
    requires leg.key.Some?
  {
    if leg.credit !in b.accounts then Err(NoAccount)
    else
      match PostLeg(b, leg, ctx)
      case Ok(after) => Ok(Receipt(after, TransferOf(leg, |b.transfers|, ctx)))
      case Err(e) =>
        if e == DuplicateKey then Ok(Receipt(b, FindTransfer(b.transfers, leg.key.value))) else Err(e)
  }

  function RechargeWallet(b: Books, user: UserId, amount: int, text: string, provider: Provider,
                          now: Time): Result<Receipt>
  {
    if provider == Stripe then Err(NotImplemented)
    else if provider != House || amount <= 0 then Err(ValueError)
    else Fund(b, FundingLeg(Recharge, ClientKey(text), user, amount), Context(None, now))
  }

  function GrantBonus(b: Books, user: UserId, amount: int, now: Time): Result<Receipt> {
    if amount <= 0 then Err(ValueError)
    else Fund(b, FundingLeg(SignupBonus, BonusKey(user), user, amount), Context(None, now))
  }

  function TransferLeg(debit: Account, credit: Account, amount: int, key: Option<string>): Leg {
    Leg(OtherTransfer, if key.Some? then Some(ClientKey(key.value)) else None, debit, credit, amount, None)
  }

  function TransferFunds(b: Books, debit: Account, credit: Account, amount: int, key: Option<string>,
                         ctx: Context): Result<Books>
  {
    if amount <= 0 then Err(ValueError)
    else if debit !in b.accounts then Err(NoAccount)
    else if b.accounts[debit].balance < amount then Err(InsufficientBalance)
    else PostLeg(b, TransferLeg(debit, credit, amount, key), ctx)
  }

  // ---------------------------------------------------------------------------
  // Bet service.
  // ---------------------------------------------------------------------------

  function GetOr<T>(x: Option<T>, default: T): T {
    if x.Some? then x.value else default
  }

  /** The checks made on the market snapshot before any transaction; the answer is the locked price. */
  function Quote(view: Option<MarketView>, outcome: OutcomeId, stake: int, now: Time): Result<Price> {
    if stake <= 0 then Err(ValueError)
    else if view.None? then Err(MarketNotFound)
    else if !view.value.IsOpen(now) then Err(MarketClosed)
    else if view.value.Find(outcome).None? then Err(InvalidOutcome)
    else if !(GetOr(view.value.minStake, BET_MIN_STAKE) <= stake <= GetOr(view.value.maxStake, BET_MAX_STAKE)) then
      Err(StakeOutOfRange)
    else Ok(view.value.Find(outcome).value.price)
  }

  function NewBet(user: UserId, market: MarketId, outcome: OutcomeId, stake: int, price: Price): Bet {
    Bet(user, market, outcome, stake, price, Pending, None, None)
  }

  /** The bet transaction: the liability account was ensured before, in its own unit of work. */
  function InsertBet(b: Books, bet: Bet, now: Time): Result<Books> {
    if Wallet(bet.user) !in b.accounts then Err(NoAccount)
    else if b.accounts[Wallet(bet.user)].balance < bet.stake then Err(InsufficientBalance)
    else
      var posted :- PostLeg(b, PlaceLeg(|b.bets|, bet), Context(Some(bet.user), now));
      Ok(posted.(bets := b.bets + [bet]))
  }

  function CloseQuote(bet: Bet, view: Option<MarketView>, now: Time): Result<Price> {
    if view.None? then Err(MarketNotFound)
    else if !view.value.IsOpen(now) then Err(MarketClosed)
    else if view.value.Find(bet.outcome).None? then Err(InvalidOutcome)
    else if !PayoutDefined(bet.stake, bet.price) then Err(ValueError)
    else Ok(view.value.Find(bet.outcome).value.price)
  }

  /** Post the close legs and mark the bet CLOSED at its exit price. */
  function CloseBet(b: Books, id: BetId, exit: Price, now: Time): Result<Books>
    requires SoundBets(b.bets) && id < |b.bets|
  {
    var posted :- PostAll(b, CloseLegs(id, b.bets[id], exit), Context(Some(b.bets[id].user), now));
    Ok(posted.(bets := b.bets[id := ClosedAt(b.bets[id], exit, now)]))
  }

  function SellPosition(b: Books, id: BetId, user: UserId, view: Option<MarketView>, now: Time): Result<Books>
    requires SoundBets(b.bets)
  {
    if id >= |b.bets| || b.bets[id].user != user then Err(BetNotFound)
    else if b.bets[id].status != Pending then Err(BetNotClosable)
    else
      var exit :- CloseQuote(b.bets[id], view, now);
      CloseBet(b, id, exit, now)
  }

  // ---------------------------------------------------------------------------
  // Settlement service.
  // ---------------------------------------------------------------------------

  /** A win whose payout cannot be computed: `compute_payout` raises at price 0. */
  predicate Unpayable(bets: seq<Bet>, vs: seq<Verdict>)
    requires InRange(bets, vs)
  {
    exists v | v in vs :: v.won && bets[v.id].price == 0
  }

  /** One settlement or reversal pass over the listed bets. */
  function RunPass(b: Books, vs: seq<Verdict>, dir: Pass, ctx: Context): Result<Books>
    requires SoundBets(b.bets) && InRange(b.bets, vs)
  {
    if Unpayable(b.bets, vs) then Err(ValueError)
    else
      var posted :- PostAll(b, BatchLegs(b.bets, vs, dir), ctx);
      Ok(posted.(bets := BatchBets(b.bets, vs, dir)))
  }

  /** `select ... where market_id = m and status = PENDING`, classified against the winner. */
  function PendingVerdicts(bets: seq<Bet>, m: MarketId, winner: OutcomeId): (r: seq<Verdict>)
    ensures forall v :: v in r <==>
      v.id < |bets| && bets[v.id].market == m && bets[v.id].status == Pending && v.won == (bets[v.id].outcome == winner)
    ensures Distinct(r)
  {
    if bets == [] then []
    else
      var n := |bets| - 1;
      PendingVerdicts(bets[..n], m, winner)
      + if bets[n].market == m && bets[n].status == Pending then [Verdict(n, bets[n].outcome == winner)] else []
  }

  /** `select ... where market_id = m and status in (SETTLED_WON, SETTLED_LOST)`. */
  function SettledVerdicts(bets: seq<Bet>, m: MarketId): (r: seq<Verdict>)
    ensures forall v :: v in r <==>
      v.id < |bets| && bets[v.id].market == m && bets[v.id].status == SideOf(v.won)
    ensures Distinct(r)
  {
    if bets == [] then []
    else
      var n := |bets| - 1;
      SettledVerdicts(bets[..n], m)
      + if bets[n].market == m && (bets[n].status == Won || bets[n].status == Lost)
        then [Verdict(n, bets[n].status == Won)] else []
  }

  lemma PendingSnoc(bets: seq<Bet>, bet: Bet, m: MarketId, winner: OutcomeId)
    ensures PendingVerdicts(bets + [bet], m, winner) == PendingVerdicts(bets, m, winner)
      + if bet.market == m && bet.status == Pending then [Verdict(|bets|, bet.outcome == winner)] else []
  {
    assert (bets + [bet])[..|bets|] == bets;
  }

  lemma SettledSnoc(bets: seq<Bet>, bet: Bet, m: MarketId)
    ensures SettledVerdicts(bets + [bet], m) == SettledVerdicts(bets, m)
      + if bet.market == m && (bet.status == Won || bet.status == Lost) then [Verdict(|bets|, bet.status == Won)]
        else []
  {
    assert (bets + [bet])[..|bets|] == bets;
  }
}
