/** The stored rows: accounts, transfers, entries, bets and markets. */
module Domain {
  import opened Money

  type UserId = nat
  type MarketId = nat
  type OutcomeId = nat
  /** Bets are inserted, never deleted: a bet's id is its position in `Books.bets`. */
  type BetId = nat
  type Time = int

  datatype Option<+T> = None | Some(value: T)

  /** Why a unit of work raised and was rolled back. */
  datatype Error =
    | DuplicateKey          // 23505 on transfers.idempotency_key
    | AmountNotPositive     // CHECK (amount > 0)
    | NoAccount             // scalar_one() on a missing wallet or liability account
    | BalanceFloor          // CHECK (balance >= 0)
    | InsufficientBalance
    | ValueError
    | NotImplemented
    | MarketNotFound
    | MarketClosed
    | MarketCancelled
    | InvalidOutcome
    | StakeOutOfRange
    | BetNotFound
    | BetNotClosable
    | Crashed

  datatype Result<+T> = Ok(value: T) | Err(error: Error) {
    predicate IsFailure() {
      Err?
    }

    function PropagateFailure<U>(): Result<U>
      requires Err?
    {
      Err(error)
    }

    function Extract(): T
      requires Ok?
    {
      value
    }
  }

  /** An account is identified by its (owner_type, owner_id, kind) key. */
  datatype Account =
    | HousePromo
    | HouseRevenue
    | Wallet(user: UserId)
    | Liability(market: MarketId)

  datatype AccountRow = AccountRow(balance: int, version: nat)

  datatype Kind =
    | BetPlaced
    | SettleStakeReturn | SettleWinnings | SettleLoss
    | ReverseStakeReturn | ReverseWinnings | ReverseLoss
    | CloseStakeReturn | CloseWinnings | CloseLoss
    | Recharge | SignupBonus
    | OtherTransfer

  datatype LegName = StakeLeg | WinLeg | LossLeg

  /** Idempotency keys by namespace: `settle:`, `reverse:`, `close:`, `bonus:`, and client-chosen ones. */
  datatype Key =
    | SettleKey(bet: BetId, leg: LegName)
    | ReverseKey(bet: BetId, leg: LegName)
    | CloseKey(bet: BetId, leg: LegName)
    | BonusKey(user: UserId)
    | ClientKey(text: string)

  /** One double-entry move that a service is about to post; `bet` is the metadata's bet_id. */
  datatype Leg = Leg(kind: Kind, key: Option<Key>, debit: Account, credit: Account, amount: int, bet: Option<BetId>)

  datatype Transfer = Transfer(id: nat, kind: Kind, key: Option<Key>, actor: Option<UserId>, bet: Option<BetId>)

  datatype Direction = Debit | Credit

  /** Transfers are immutable, so an entry's foreign key is represented by the row it points to. */
  datatype Entry = Entry(transfer: Transfer, account: Account, direction: Direction, amount: int, createdAt: Time)

  datatype Status = Pending | Won | Lost | Closed

  datatype Bet = Bet(
    user: UserId, market: MarketId, outcome: OutcomeId, stake: int, price: Price,
    status: Status, exitOdds: Option<Price>, closedAt: Option<Time>)

  /** The money side of the database. */
  datatype Books = Books(
    accounts: map<Account, AccountRow>, transfers: seq<Transfer>, entries: seq<Entry>, bets: seq<Bet>)

  datatype MarketStatus = MarketDraft | MarketOpen | MarketStopped | MarketResolved | MarketVoided

  datatype Outcome = Outcome(id: OutcomeId, isYes: bool, price: Price)

  /** A snapshot of a market as the read port hands it out (`bets/market_port.py`). */
  datatype MarketView = MarketView(
    status: MarketStatus, deadline: Time, outcomes: seq<Outcome>, minStake: Option<int>, maxStake: Option<int>)
  {
    /** OPEN and strictly before the deadline. */
    predicate IsOpen(now: Time) {
      status == MarketOpen && now < deadline
    }

    /** The first outcome with that id. */
    function Find(id: OutcomeId): (r: Option<Outcome>)
      ensures r.Some? ==> r.value in outcomes && r.value.id == id
      ensures r.None? <==> forall o | o in outcomes :: o.id != id
    {
      FindIn(outcomes, id)
    }
  }

  function FindIn(outcomes: seq<Outcome>, id: OutcomeId): (r: Option<Outcome>)
    ensures r.Some? ==> r.value in outcomes && r.value.id == id
    ensures r.None? <==> forall o | o in outcomes :: o.id != id
  {
    if outcomes == [] then None
    else if outcomes[0].id == id then Some(outcomes[0])
    else
      assert outcomes == [outcomes[0]] + outcomes[1..];
      FindIn(outcomes[1..], id)
  }

  /** Who acts, and the `now()` of the transaction. */
  datatype Context = Context(actor: Option<UserId>, now: Time)

  /** House promo is seeded with 1,000,000,000.0000 and no entries; every other account starts at 0. */
  const OPENING_PROMO: int := 10_000_000_000_000
  const BET_MIN_STAKE: int := 10_000
  const BET_MAX_STAKE: int := 1_000_000_000

  function Opening(a: Account): int {
    if a == HousePromo then OPENING_PROMO else 0
  }

  /** The migrated, empty database. */
  function Seeded(): Books {
    Books(map[HousePromo := AccountRow(OPENING_PROMO, 0), HouseRevenue := AccountRow(0, 0)], [], [], [])
  }

  function Balance(b: Books, a: Account): int {
    if a in b.accounts then b.accounts[a].balance else 0
  }

  /** The values of transfers.idempotency_key. */
  function KeysOf(ts: seq<Transfer>): set<Key> {
    set t | t in ts && t.key.Some? :: t.key.value
  }
}
