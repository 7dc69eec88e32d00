/** Exactly when settlement, reversal and early close go through. */
module Exactness {
  import opened Money
  import DecimalMoney
  import opened Domain
  import opened Posting
  import opened Lifecycle
  import opened Transactions
  import opened Invariant

  /** What winners of the batch get on top of their stakes. */
  function WinningsOf(bets: seq<Bet>, vs: seq<Verdict>): int
    requires SoundBets(bets) && InRange(bets, vs)
  {
    if vs == [] then 0
    else (if vs[0].won then Winnings(bets[vs[0].id]) else 0) + WinningsOf(bets, vs[1..])
  }

  /** What winning bets of `user` in the batch were paid in full. */
  function PayoutsTo(bets: seq<Bet>, vs: seq<Verdict>, user: UserId): int
    requires SoundBets(bets) && InRange(bets, vs)
  {
    if vs == [] then 0
    else
      var b := bets[vs[0].id];
      (if vs[0].won && b.user == user then Payout(b.stake, b.price) else 0) + PayoutsTo(bets, vs[1..], user)
  }

  /** The stakes of all listed bets of market `m`. */
  function StakesIn(bets: seq<Bet>, vs: seq<Verdict>, m: MarketId): int
    requires InRange(bets, vs)
  {
    if vs == [] then 0
    else (if bets[vs[0].id].market == m then bets[vs[0].id].stake else 0) + StakesIn(bets, vs[1..], m)
  }

  /** The stakes of the losing ones. */
  function LossesOf(bets: seq<Bet>, vs: seq<Verdict>): int
    requires InRange(bets, vs)
  {
    if vs == [] then 0 else (if vs[0].won then 0 else bets[vs[0].id].stake) + LossesOf(bets, vs[1..])
  }

  function Sign(dir: Pass): int {
    if dir == Settle then 1 else -1
  }

  /** What one listed bet moves through `a` in a pass. */
  function TurnShare(v: Verdict, b: Bet, a: Account): int
    requires b.stake > 0
  {
    match a
    case HousePromo => if v.won then -Winnings(b) else 0
    case HouseRevenue => if v.won then 0 else b.stake
    case Wallet(user) => if v.won && b.user == user then Payout(b.stake, b.price) else 0
    case Liability(m) => if b.market == m then -b.stake else 0
  }

  lemma TurnNet(v: Verdict, b: Bet, dir: Pass, a: Account)
    requires SoundBet(b) && (v.won ==> b.price > 0)
    ensures Net(TurnLegs(v, b, dir), a) == Sign(dir) * TurnShare(v, b, a)
  {
    if v.won {
      PayoutCoversStake(b.stake, b.price);
    }
    NetShort(TurnLegs(v, b, dir), a);
  }

  lemma UnpayableTail(bets: seq<Bet>, vs: seq<Verdict>)
    requires SoundBets(bets) && InRange(bets, vs) && !Unpayable(bets, vs) && vs != []
    ensures !Unpayable(bets, vs[1..]) && (vs[0].won ==> bets[vs[0].id].price > 0)
  {
  }

  /** What a whole pass moves through `a`, to the unit. */
  function PassShare(bets: seq<Bet>, vs: seq<Verdict>, a: Account): int
    requires SoundBets(bets) && InRange(bets, vs)
  {
    match a
    case HousePromo => -WinningsOf(bets, vs)
    case HouseRevenue => LossesOf(bets, vs)
    case Wallet(user) => PayoutsTo(bets, vs, user)
    case Liability(m) => -StakesIn(bets, vs, m)
  }

  /** A settlement takes the winnings from house promo and the stakes from the pools, and brings the payouts
      to the wallets and the lost stakes to house revenue; a reversal takes all of it back. */
  lemma {:induction false} BatchNet(bets: seq<Bet>, vs: seq<Verdict>, dir: Pass, a: Account)
    requires SoundBets(bets) && InRange(bets, vs) && !Unpayable(bets, vs)
    ensures Net(BatchLegs(bets, vs, dir), a) == Sign(dir) * PassShare(bets, vs, a)
  {
    if vs != [] {
      var v, b, rest := vs[0], bets[vs[0].id], vs[1..];
      UnpayableTail(bets, vs);
      BatchNet(bets, rest, dir, a);
      TurnNet(v, b, dir, a);
      NetConcat(TurnLegs(v, b, dir), BatchLegs(bets, rest, dir), a);
      PassShareCons(bets, vs, a);
      SignSum(dir, TurnShare(v, b, a), PassShare(bets, rest, a));
    }
  }

  lemma PassShareCons(bets: seq<Bet>, vs: seq<Verdict>, a: Account)
    requires SoundBets(bets) && InRange(bets, vs) && vs != []
    ensures PassShare(bets, vs, a) == TurnShare(vs[0], bets[vs[0].id], a) + PassShare(bets, vs[1..], a)
  {
  }

  lemma SignSum(dir: Pass, x: int, y: int)
    ensures Sign(dir) * (x + y) == Sign(dir) * x + Sign(dir) * y
  {
  }

  /** No bet is ever worth less than nothing to a pool or to house revenue. */
  lemma {:induction false} PoolsNonNegative(bets: seq<Bet>, a: Account)
    requires SoundBets(bets) && (a.Liability? || a.HouseRevenue?)
    ensures BookTotal(bets, Book(a)) >= 0
  {
    if bets != [] {
      PoolsNonNegative(bets[..|bets| - 1], a);
    }
  }

  /** A pool or house revenue that direct transfers have not drained cannot be overdrawn by a pass: its
      final balance is a sum of positions. */
  lemma PoolsCovered(b: Books, legs: seq<Leg>, bets: seq<Bet>, a: Account)
    requires Valid(b) && SoundBets(bets)
    requires (a.Liability? || a.HouseRevenue?) && Total(b.entries, Plain(a)) >= 0
    requires forall l | l in legs :: IsBetKind(l.kind)
    requires BookTotal(bets, Book(a)) == BookTotal(b.bets, Book(a)) + LegsReading(legs, Book(a))
    ensures Balance(b, a) + Net(legs, a) >= 0
  {
    PoolsNonNegative(bets, a);
    NetIsReading(legs, a);
    NoFundingReading(legs, a);
    assert Balance(b, a) == Ledger(b.entries, a);
    assert Total(b.entries, Book(a)) == BookTotal(b.bets, Book(a));
  }

  lemma BatchPostable(b: Books, vs: seq<Verdict>, dir: Pass)
    requires Valid(b) && InRange(b.bets, vs)
    ensures Postable(b, BatchLegs(b.bets, vs, dir))
  {
    BatchShapes(b.bets, vs, dir);
    var legs := BatchLegs(b.bets, vs, dir);
    forall l | l in legs ensures l.amount > 0 && l.debit in b.accounts && l.credit in b.accounts {
      assert BatchShape(b.bets, vs, dir, l);
    }
  }

  /** A batch is fresh exactly when the main key of each of its bets is. */
  lemma BatchFreshIff(b: Books, vs: seq<Verdict>, dir: Pass)
    requires Valid(b) && InRange(b.bets, vs) && Distinct(vs)
    ensures FreshKeys(KeysOf(b.transfers), BatchLegs(b.bets, vs, dir)) <==>
              forall v | v in vs :: TurnKey(dir, v.id, MainLeg(v.won)) !in KeysOf(b.transfers)
  {
    var used, legs := KeysOf(b.transfers), BatchLegs(b.bets, vs, dir);
    BatchKeysDistinct(b.bets, vs, dir);
    forall v | v in vs ensures TurnKey(dir, v.id, MainLeg(v.won)) in LegKeys(legs) {
      BatchShapes(b.bets, vs, dir);
      assert UsesLeg(b.bets[v.id], v.won, MainLeg(v.won));
    }
    forall k | k in LegKeys(legs) && k in used
      ensures exists v :: v in vs && TurnKey(dir, v.id, MainLeg(v.won)) in used
    {
      UsedKeyHasUsedMain(b, vs, dir, k);
    }
  }

  lemma UsedKeyHasUsedMain(b: Books, vs: seq<Verdict>, dir: Pass, k: Key)
    requires Valid(b) && InRange(b.bets, vs)
    requires k in LegKeys(BatchLegs(b.bets, vs, dir)) && k in KeysOf(b.transfers)
    ensures exists v :: v in vs && TurnKey(dir, v.id, MainLeg(v.won)) in KeysOf(b.transfers)
  {
  }

  /** Settling goes through exactly when every winner can be paid, no listed bet lands on a side it was
      settled on before, house promo covers the winnings, and each pool still has the stakes. */
  lemma ResolveOkIff(b: Books, vs: seq<Verdict>, ctx: Context)
    requires Valid(b) && Resolvable(b, vs)
    ensures RunPass(b, vs, Settle, ctx).Ok? <==>
      && !Unpayable(b.bets, vs)
      && (forall v | v in vs :: SettleKey(v.id, MainLeg(v.won)) !in KeysOf(b.transfers))
      && WinningsOf(b.bets, vs) <= Balance(b, HousePromo)
      && forall m :: StakesIn(b.bets, vs, m) <= Balance(b, Liability(m))
  {
    if !Unpayable(b.bets, vs) {
      PassOkIff(b, vs, Settle, ctx);
      assert (forall v | v in vs :: TurnKey(Settle, v.id, MainLeg(v.won)) !in KeysOf(b.transfers)) <==>
             (forall v | v in vs :: SettleKey(v.id, MainLeg(v.won)) !in KeysOf(b.transfers));
      SettleCoveredIff(b, vs);
    }
  }

  lemma PassOkIff(b: Books, vs: seq<Verdict>, dir: Pass, ctx: Context)
    requires Valid(b) && InRange(b.bets, vs) && Distinct(vs) && !Unpayable(b.bets, vs)
    ensures RunPass(b, vs, dir, ctx).Ok? <==>
      && (forall v | v in vs :: TurnKey(dir, v.id, MainLeg(v.won)) !in KeysOf(b.transfers))
      && Covered(b, BatchLegs(b.bets, vs, dir))
  {
    BatchOneSided(b.bets, vs, dir);
    BatchPostable(b, vs, dir);
    PostAllOkIff(b, BatchLegs(b.bets, vs, dir), ctx);
    BatchFreshIff(b, vs, dir);
  }

  /** The floor on `a`: it matters exactly when it would be missed at the end. */
  lemma CoveredAt(b: Books, legs: seq<Leg>, a: Account)
    requires NonNegative(b) && Postable(b, legs) && Covered(b, legs)
    ensures Balance(b, a) + Net(legs, a) >= 0
  {
    if forall l | l in legs :: l.debit != a {
      DebitFree(legs, a);
    }
  }

  lemma SettleCoveredIff(b: Books, vs: seq<Verdict>)
    requires Valid(b) && Resolvable(b, vs) && !Unpayable(b.bets, vs)
    ensures Covered(b, BatchLegs(b.bets, vs, Settle)) <==>
      && WinningsOf(b.bets, vs) <= Balance(b, HousePromo)
      && forall m :: StakesIn(b.bets, vs, m) <= Balance(b, Liability(m))
  {
    var legs := BatchLegs(b.bets, vs, Settle);
    BatchPostable(b, vs, Settle);
    forall a ensures Net(legs, a) == PassShare(b.bets, vs, a) {
      BatchNet(b.bets, vs, Settle, a);
    }
    if Covered(b, legs) {
      CoveredAt(b, legs, HousePromo);
      forall m ensures StakesIn(b.bets, vs, m) <= Balance(b, Liability(m)) {
        CoveredAt(b, legs, Liability(m));
      }
    }
    BatchShapes(b.bets, vs, Settle);
    forall l | l in legs ensures l.debit == HousePromo || l.debit.Liability? {
      assert BatchShape(b.bets, vs, Settle, l);
    }
  }

  /** Only house promo's floor can refuse a resolution, unless a direct transfer took money out of the pool. */
  lemma PoolsHaveTheStakes(b: Books, vs: seq<Verdict>, m: MarketId)
    requires Valid(b) && Resolvable(b, vs) && !Unpayable(b.bets, vs)
    requires Total(b.entries, Plain(Liability(m))) >= 0
    ensures StakesIn(b.bets, vs, m) <= Balance(b, Liability(m))
  {
    BatchNet(b.bets, vs, Settle, Liability(m));
    BatchKinds(b.bets, vs, Settle);
    BatchMoves(b.bets, vs, Settle, Book(Liability(m)));
    PoolsCovered(b, BatchLegs(b.bets, vs, Settle), BatchBets(b.bets, vs, Settle), Liability(m));
  }

  lemma {:induction false} DebitFree(legs: seq<Leg>, a: Account)
    requires forall l | l in legs :: l.debit != a && l.amount > 0
    ensures Net(legs, a) >= 0
  {
    if legs != [] {
      DebitFree(legs[1..], a);
    }
  }

  /** Reversing bets in the side they are in never collides on keys; it goes through exactly when each
      winner still has the payouts of all the listed bets and house revenue the lost stakes. */
  lemma ReverseOkIff(b: Books, vs: seq<Verdict>, ctx: Context)
    requires Valid(b)
    requires InRange(b.bets, vs) && Distinct(vs) && forall v | v in vs :: b.bets[v.id].status == SideOf(v.won)
    ensures RunPass(b, vs, Reverse, ctx).Ok? <==>
      && (forall user :: PayoutsTo(b.bets, vs, user) <= Balance(b, Wallet(user)))
      && LossesOf(b.bets, vs) <= Balance(b, HouseRevenue)
  {
    SettledIsReady(b, vs);
    PassOkIff(b, vs, Reverse, ctx);
    ReverseCoveredIff(b, vs);
  }

  /** Bets on their side are payable, and their reverse keys unused. */
  lemma SettledIsReady(b: Books, vs: seq<Verdict>)
    requires Valid(b) && InRange(b.bets, vs) && forall v | v in vs :: b.bets[v.id].status == SideOf(v.won)
    ensures Ready(b.bets, vs, Reverse) && !Unpayable(b.bets, vs)
    ensures forall v | v in vs :: TurnKey(Reverse, v.id, MainLeg(v.won)) !in KeysOf(b.transfers)
  {
    forall v | v in vs
      ensures v.won ==> b.bets[v.id].price > 0
      ensures TurnKey(Reverse, v.id, MainLeg(v.won)) !in KeysOf(b.transfers)
    {
      assert SoundBet(b.bets[v.id]);
      assert BetKeys(v.id, b.bets[v.id], KeysOf(b.transfers));
    }
  }

  lemma ReverseCoveredIff(b: Books, vs: seq<Verdict>)
    requires Valid(b) && InRange(b.bets, vs) && !Unpayable(b.bets, vs)
    ensures Covered(b, BatchLegs(b.bets, vs, Reverse)) <==>
      && (forall user :: PayoutsTo(b.bets, vs, user) <= Balance(b, Wallet(user)))
      && LossesOf(b.bets, vs) <= Balance(b, HouseRevenue)
  {
    var legs := BatchLegs(b.bets, vs, Reverse);
    BatchPostable(b, vs, Reverse);
    forall a ensures Net(legs, a) == -PassShare(b.bets, vs, a) {
      BatchNet(b.bets, vs, Reverse, a);
    }
    if Covered(b, legs) {
      CoveredAt(b, legs, HouseRevenue);
      forall user ensures PayoutsTo(b.bets, vs, user) <= Balance(b, Wallet(user)) {
        CoveredAt(b, legs, Wallet(user));
      }
    }
    BatchShapes(b.bets, vs, Reverse);
    forall l | l in legs ensures l.debit == HouseRevenue || l.debit.Wallet? {
      assert BatchShape(b.bets, vs, Reverse, l);
    }
  }

  /** Only winners' wallets can refuse a reversal, unless a direct transfer took money out of house revenue. */
  lemma RevenueHasTheLosses(b: Books, vs: seq<Verdict>)
    requires Valid(b) && InRange(b.bets, vs) && Distinct(vs) && Ready(b.bets, vs, Reverse) && !Unpayable(b.bets, vs)
    requires Total(b.entries, Plain(HouseRevenue)) >= 0
    ensures LossesOf(b.bets, vs) <= Balance(b, HouseRevenue)
  {
    BatchNet(b.bets, vs, Reverse, HouseRevenue);
    BatchKinds(b.bets, vs, Reverse);
    BatchMoves(b.bets, vs, Reverse, Book(HouseRevenue));
    PoolsCovered(b, BatchLegs(b.bets, vs, Reverse), BatchBets(b.bets, vs, Reverse), HouseRevenue);
  }

  /** A pending bet on an open market can be cashed out exactly when its price is not 0, its pool still has
      the stake, and house promo covers the gain above the stake. */
  lemma SellOkIff(b: Books, id: BetId, view: MarketView, now: Time)
    requires Valid(b)
    requires id < |b.bets| && b.bets[id].status == Pending
    requires view.IsOpen(now) && view.Find(b.bets[id].outcome).Some?
    ensures SellPosition(b, id, b.bets[id].user, Some(view), now).Ok? <==>
      && b.bets[id].price > 0
      && b.bets[id].stake <= Balance(b, Liability(b.bets[id].market))
      && CashoutAt(b.bets[id], view.Find(b.bets[id].outcome).value.price) - b.bets[id].stake <= Balance(b, HousePromo)
  {
    var bet, exit := b.bets[id], view.Find(b.bets[id].outcome).value.price;
    if bet.price > 0 {
      CloseFresh(b, id, exit);
      PostAllOkIff(b, CloseLegs(id, bet, exit), Context(Some(bet.user), now));
      CloseCoveredIff(b, id, exit);
    }
  }

  lemma CloseCoveredIff(b: Books, id: BetId, exit: Price)
    requires Valid(b)
    requires id < |b.bets| && b.bets[id].status == Pending && b.bets[id].price > 0
    ensures Covered(b, CloseLegs(id, b.bets[id], exit)) <==>
      && b.bets[id].stake <= Balance(b, Liability(b.bets[id].market))
      && CashoutAt(b.bets[id], exit) - b.bets[id].stake <= Balance(b, HousePromo)
  {
    var bet := b.bets[id];
    var legs := CloseLegs(id, bet, exit);
    CloseLegsExact(id, bet, exit);
    CloseFresh(b, id, exit);
    assert b.accounts[HousePromo].balance >= 0;
    if Covered(b, legs) {
      CoveredAt(b, legs, Liability(bet.market));
      CoveredAt(b, legs, HousePromo);
    }
    forall l | l in legs ensures l.debit == HousePromo || l.debit == Liability(bet.market) {
    }
  }

  /** Only house promo's floor can refuse a cash-out, unless a direct transfer took money out of the pool. */
  lemma PoolHasTheStake(b: Books, id: BetId)
    requires Valid(b) && id < |b.bets| && b.bets[id].status == Pending
    requires Total(b.entries, Plain(Liability(b.bets[id].market))) >= 0
    ensures b.bets[id].stake <= Balance(b, Liability(b.bets[id].market))
  {
    var a, rest := Liability(b.bets[id].market), b.bets[id := Settled(b.bets[id], false)];
    BookTotalUpdate(b.bets, id, Settled(b.bets[id], false), Book(a));
    PoolsNonNegative(rest, a);
    assert Balance(b, a) == Ledger(b.entries, a);
    assert BetGauge(Book(a));
  }

  /** A pending bet never collides on close keys. */
  lemma CloseFresh(b: Books, id: BetId, exit: Price)
    requires Valid(b) && id < |b.bets| && b.bets[id].status == Pending && b.bets[id].price > 0
    ensures FreshKeys(KeysOf(b.transfers), CloseLegs(id, b.bets[id], exit))
    ensures OneSided(CloseLegs(id, b.bets[id], exit)) && Postable(b, CloseLegs(id, b.bets[id], exit))
  {
    var legs := CloseLegs(id, b.bets[id], exit);
    CloseShape(id, b.bets[id], exit);
    assert BetKeys(id, b.bets[id], KeysOf(b.transfers));
    forall k | k in LegKeys(legs) ensures k !in KeysOf(b.transfers) {
      CloseKeysShape(id, b.bets[id], exit, k);
    }
  }

  lemma CloseShape(id: BetId, bet: Bet, exit: Price)
    requires SoundBet(bet) && bet.price > 0
    ensures KeysApart(CloseLegs(id, bet, exit)) && OneSided(CloseLegs(id, bet, exit))
    ensures forall l | l in CloseLegs(id, bet, exit) ::
              && l.amount > 0
              && (l.debit == HousePromo || l.debit == Liability(bet.market))
              && (l.credit == HouseRevenue || l.credit == Wallet(bet.user))
  {
  }

  // ---------------------------------------------------------------------------
  // The configured stake limit.
  // ---------------------------------------------------------------------------

  lemma MaxStakeInRange()
    ensures BET_MAX_STAKE < DecimalMoney.Pow10(15)
  {
  }

  /** Every stake that placement accepts under the global limit is paid out and cashed out exactly, at
      whatever price it was placed, although the code divides at 28 digits and rounds twice. */
  lemma PlacedStakesAreExact(view: MarketView, outcome: OutcomeId, stake: int, now: Time, exit: Price)
    requires view.maxStake.None? && Quote(Some(view), outcome, stake, now).Ok?
    requires Quote(Some(view), outcome, stake, now).value > 0
    ensures var price := Quote(Some(view), outcome, stake, now).value;
      && DecimalMoney.DecimalPayout(stake, price) == Payout(stake, price)
      && DecimalMoney.DecimalCashout(stake, price, exit) == Cashout(stake, price, exit)
  {
    MaxStakeInRange();
    DecimalMoney.PayoutIsExact(stake, Quote(Some(view), outcome, stake, now).value, exit);
  }
}
