/** The services as they run: one object holding the tables, changed step by step inside transactions. */
module Engine {
  import opened Money
  import opened Domain
  import opened Posting
  import opened Lifecycle
  import opened Transactions
  import opened Invariant
  import opened Plan
  import opened Database
  import opened Portfolio
  import opened Services
  import opened Settlement

  // ---------------------------------------------------------------------------
  // Facts about lists built front to back.
  // ---------------------------------------------------------------------------

  lemma {:induction false} BatchBetsSnoc(bets: seq<Bet>, vs: seq<Verdict>, v: Verdict, dir: Pass)
    requires InRange(bets, vs + [v])
    ensures InRange(bets, vs) && v.id < |bets|
    ensures BatchBets(bets, vs + [v], dir) ==
      var mid := BatchBets(bets, vs, dir); mid[v.id := Turned(v, mid[v.id], dir)]
    decreases vs
  {
    var all := vs + [v];
    assert v in all;
    forall w | w in vs ensures w.id < |bets| {
      assert w in all;
    }
    if vs == [] {
      assert all[1..] == [];
    } else {
      assert all[1..] == vs[1..] + [v];
      var step := bets[vs[0].id := Turned(vs[0], bets[vs[0].id], dir)];
      forall w | w in vs[1..] + [v] ensures w.id < |step| {
        assert w in all;
      }
      BatchBetsSnoc(step, vs[1..], v, dir);
    }
  }

  /** Posting neither reads nor writes bets. */
  lemma {:induction false} PostingIgnoresBets(b: Books, legs: seq<Leg>, ctx: Context, bets: seq<Bet>)
    ensures PostAll(b.(bets := bets), legs, ctx) ==
      match PostAll(b, legs, ctx) case Ok(after) => Ok(after.(bets := bets)) case Err(e) => Err(e)
    decreases legs
  {
    if legs != [] && PostLeg(b, legs[0], ctx).Ok? {
      PostingIgnoresBets(PostLeg(b, legs[0], ctx).value, legs[1..], ctx, bets);
    }
  }

  /** The first `k` of a list of bets have been worked through: their legs are in `specs`, their statuses flipped. */
  ghost predicate Applied(before: seq<Bet>, vs: seq<Verdict>, k: int, dir: Pass, specs: seq<Leg>, bets: seq<Bet>)
    requires SoundBets(before)
  {
    && 0 <= k <= |vs| && InRange(before, vs[..k])
    && specs == BatchLegs(before, vs[..k], dir)
    && bets == BatchBets(before, vs[..k], dir)
  }

  lemma AppliedStep(before: seq<Bet>, vs: seq<Verdict>, k: nat, dir: Pass, specs: seq<Leg>, bets: seq<Bet>)
    requires SoundBets(before) && InRange(before, vs) && Distinct(vs)
    requires k < |vs| && Applied(before, vs, k, dir, specs, bets)
    ensures |bets| == |before| && vs[k].id < |bets| && bets[vs[k].id] == before[vs[k].id]
    ensures Applied(before, vs, k + 1, dir, specs + TurnLegs(vs[k], before[vs[k].id], dir),
                    bets[vs[k].id := Turned(vs[k], before[vs[k].id], dir)])
  {
    assert vs[k] in vs && vs[..k + 1] == vs[..k] + [vs[k]];
    BatchLegsSnoc(before, vs[..k], vs[k], dir);
    BatchBetsSnoc(before, vs[..k], vs[k], dir);
    BatchBetsAt(before, vs[..k], dir);
    forall v | v in vs[..k] ensures v.id != vs[k].id {
    }
  }

  lemma AppliedAll(before: seq<Bet>, vs: seq<Verdict>, dir: Pass, specs: seq<Leg>, bets: seq<Bet>)
    requires SoundBets(before) && InRange(before, vs) && Applied(before, vs, |vs|, dir, specs, bets)
    ensures specs == BatchLegs(before, vs, dir) && bets == BatchBets(before, vs, dir)
  {
    assert vs[..|vs|] == vs;
  }

  class MoneyEngine {
    var accounts: map<Account, AccountRow>
    var transfers: seq<Transfer>
    var entries: seq<Entry>
    var bets: seq<Bet>
    var markets: map<MarketId, MarketRow>
    var audit: seq<AuditRow>

    function Tables(): Books
      reads this
    {
      Books(accounts, transfers, entries, bets)
    }

    function State(): Db
      reads this
    {
      Db(Tables(), markets, audit)
    }

    /** The database after the migrations, with the given markets. */
    constructor (markets: map<MarketId, MarketRow>)
      ensures State() == Db(Seeded(), markets, []) && Valid(Tables())
      ensures accounts == map[HousePromo := AccountRow(10_000_000_000_000, 0), HouseRevenue := AccountRow(0, 0)]
      ensures transfers == [] && entries == [] && bets == []
    {
      accounts := Seeded().accounts;
      transfers, entries, bets, audit := [], [], [], [];
      this.markets := markets;
      new;
      SeededIsValid();
    }

    /** Leaving a transaction by an exception. */
    method Rollback(saved: Db)
      modifies this
      ensures State() == saved
    {
      accounts, transfers, entries := saved.books.accounts, saved.books.transfers, saved.books.entries;
      bets, markets, audit := saved.books.bets, saved.markets, saved.audit;
    }

    /** Inserts the transfer, its two entries and both balances; a constraint that fails half-way leaves
        what was already written, for the caller's transaction to roll back. */
    method PostTransfer(leg: Leg, ctx: Context) returns (r: Result<Transfer>)
      modifies this
      ensures bets == old(bets) && markets == old(markets) && audit == old(audit)
      ensures match PostLeg(old(Tables()), leg, ctx)
        case Ok(after) => Tables() == after && r == Ok(TransferOf(leg, |old(transfers)|, ctx))
        case Err(e) => r == Err(e)
    {
      var t := TransferOf(leg, |transfers|, ctx);
      if leg.key.Some? && leg.key.value in KeysOf(transfers) {
        return Err(DuplicateKey);
      }
      transfers := transfers + [t];
      if leg.amount <= 0 {
        return Err(AmountNotPositive);
      }
      if leg.debit !in accounts || leg.credit !in accounts {
        return Err(NoAccount);
      }
      entries := entries + [Entry(t, leg.debit, Debit, leg.amount, ctx.now),
                            Entry(t, leg.credit, Credit, leg.amount, ctx.now)];
      var debit := accounts[leg.debit];
      if debit.balance - leg.amount < 0 {
        return Err(BalanceFloor);
      }
      accounts := accounts[leg.debit := AccountRow(debit.balance - leg.amount, debit.version + 1)];
      var credit := accounts[leg.credit];
      accounts := accounts[leg.credit := AccountRow(credit.balance + leg.amount, credit.version)];
      return Ok(t);
    }

    method CreateWallet(user: UserId) returns (r: Result<()>)
      requires Valid(Tables())
      modifies this`accounts
      ensures Valid(Tables())
      ensures match Transactions.CreateWallet(old(Tables()), user)
        case Ok(after) => r == Ok(()) && Tables() == after
        case Err(e) => r == Err(e) && Tables() == old(Tables())
      ensures r.Ok? <==> Wallet(user) !in old(accounts)
      ensures r.Ok? ==> Opens(old(Tables()), Tables(), Wallet(user))
    {
      if Wallet(user) in accounts {
        return Err(DuplicateKey);
      }
      WithAccountKeepsValid(Tables(), Wallet(user));
      accounts := accounts[Wallet(user) := AccountRow(0, 0)];
      return Ok(());
    }

    /** The shared body of recharge and bonus. */
    method FundWallet(leg: Leg, ctx: Context) returns (r: Result<Transfer>)
      requires Valid(Tables()) && OutsideLeg(leg) && leg.key.Some?
      modifies this
      ensures Valid(Tables()) && markets == old(markets) && audit == old(audit)
      ensures match Fund(old(Tables()), leg, ctx)
        case Ok(receipt) => r == Ok(receipt.transfer) && Tables() == receipt.books
        case Err(e) => r == Err(e) && State() == old(State())
      ensures !KeyFree(old(Tables()), leg.key) && leg.credit in old(accounts) ==>
        r.Ok? && r.value in old(transfers) && r.value.key == leg.key && State() == old(State())
      ensures KeyFree(old(Tables()), leg.key) && r.Ok? ==>
        && Moved(old(Tables()), Tables(), leg.debit, leg.credit, leg.amount)
        && Recorded(old(Tables()), Tables(), r.value, leg.debit, leg.credit, leg.amount, ctx.now)
    {
      LegIsPosted(Tables(), leg, ctx);
      KeyFreeIff(Tables(), leg.key.value);
      if leg.credit !in accounts {
        return Err(NoAccount);
      }
      var saved := State();
      if PostLeg(saved.books, leg, ctx).Ok? {
        OutsideLegKeepsValid(saved.books, leg, ctx);
      }
      r := PostTransfer(leg, ctx);
      if r.Err? {
        Rollback(saved);
        if r.error == DuplicateKey {
          r := Ok(FindTransfer(transfers, leg.key.value));
        }
      }
    }

    method Recharge(user: UserId, amount: int, text: string, provider: Provider, now: Time)
        returns (r: Result<Transfer>)
      requires Valid(Tables())
      modifies this
      ensures Valid(Tables()) && markets == old(markets) && audit == old(audit)
      ensures match RechargeWallet(old(Tables()), user, amount, text, provider, now)
        case Ok(receipt) => r == Ok(receipt.transfer) && Tables() == receipt.books
        case Err(e) => r == Err(e) && State() == old(State())
      ensures r.Ok? <==> provider == House && CanFund(old(Tables()), user, amount, ClientKey(text))
      ensures r.Ok? ==>
        Funds(old(Tables()), Tables(), r.value, user, amount, Kind.Recharge, ClientKey(text), now)
    {
      RechargeMovesAmount(Tables(), user, amount, text, provider, now);
      if provider == Stripe {
        return Err(NotImplemented);
      }
      if provider != House {
        return Err(ValueError);
      }
      if amount <= 0 {
        return Err(ValueError);
      }
      r := FundWallet(FundingLeg(Kind.Recharge, ClientKey(text), user, amount), Context(None, now));
    }

    method GrantSignupBonus(user: UserId, amount: int, now: Time) returns (r: Result<Transfer>)
      requires Valid(Tables())
      modifies this
      ensures Valid(Tables()) && markets == old(markets) && audit == old(audit)
      ensures match GrantBonus(old(Tables()), user, amount, now)
        case Ok(receipt) => r == Ok(receipt.transfer) && Tables() == receipt.books
        case Err(e) => r == Err(e) && State() == old(State())
      ensures r.Ok? <==> CanFund(old(Tables()), user, amount, BonusKey(user))
      ensures r.Ok? ==> Funds(old(Tables()), Tables(), r.value, user, amount, SignupBonus, BonusKey(user), now)
    {
      BonusMovesAmount(Tables(), user, amount, now);
      if amount <= 0 {
        return Err(ValueError);
      }
      r := FundWallet(FundingLeg(SignupBonus, BonusKey(user), user, amount), Context(None, now));
    }

    method TransferMoney(debit: Account, credit: Account, amount: int, key: Option<string>, ctx: Context)
        returns (r: Result<Transfer>)
      requires Valid(Tables())
      modifies this
      ensures Valid(Tables()) && markets == old(markets) && audit == old(audit)
      ensures match TransferFunds(old(Tables()), debit, credit, amount, key, ctx)
        case Ok(after) =>
          Tables() == after && r == Ok(TransferOf(TransferLeg(debit, credit, amount, key), |old(transfers)|, ctx))
        case Err(e) => r == Err(e) && State() == old(State())
      ensures r.Ok? <==> CanTransfer(old(Tables()), debit, credit, amount, key)
      ensures r.Ok? ==> Transferred(old(Tables()), Tables(), r.value, debit, credit, amount, key, ctx)
    {
      TransferMovesAmount(Tables(), debit, credit, amount, key, ctx);
      if amount <= 0 {
        return Err(ValueError);
      }
      if debit !in accounts {
        return Err(NoAccount);
      }
      if accounts[debit].balance < amount {
        return Err(InsufficientBalance);
      }
      var saved := State();
      var leg := TransferLeg(debit, credit, amount, key);
      if PostLeg(saved.books, leg, ctx).Ok? {
        OutsideLegKeepsValid(saved.books, leg, ctx);
      }
      r := PostTransfer(leg, ctx);
      if r.Err? {
        Rollback(saved);
      }
    }

    /** Placement: a market snapshot first, then the liability account in its own unit of work, then the
        bet and its transfer together. */
    method PlaceBet(user: UserId, market: MarketId, outcome: OutcomeId, stake: int, now: Time)
        returns (r: Result<BetId>)
      requires Valid(Tables())
      modifies this
      ensures Valid(Tables()) && markets == old(markets) && audit == old(audit)
      ensures match Quote(ViewOf(old(markets), market), outcome, stake, now)
        case Err(e) => r == Err(e) && Tables() == old(Tables())
        case Ok(price) =>
          var ready := WithAccount(old(Tables()), Liability(market));
          match InsertBet(ready, NewBet(user, market, outcome, stake, price), now)
          case Ok(after) => r == Ok(|old(bets)|) && Tables() == after
          case Err(e) => r == Err(e) && Tables() == ready
      ensures r.Ok? <==> CanPlace(old(Tables()), ViewOf(old(markets), market), user, outcome, stake, now)
      ensures r.Ok? ==>
        && r.value == |old(bets)|
        && Placed(old(Tables()), Tables(), old(markets)[market].view, user, market, outcome, stake, now)
      ensures r.Err? ==> Unplaced(old(Tables()), Tables())
    {
      PlaceBetMovesStake(Tables(), ViewOf(markets, market), user, market, outcome, stake, now);
      if stake <= 0 {
        return Err(ValueError);
      }
      if market !in markets {
        return Err(MarketNotFound);
      }
      var view := markets[market].view;
      if !view.IsOpen(now) {
        return Err(MarketClosed);
      }
      var chosen := view.Find(outcome);
      if chosen.None? {
        return Err(InvalidOutcome);
      }
      var low, high := GetOr(view.minStake, BET_MIN_STAKE), GetOr(view.maxStake, BET_MAX_STAKE);
      if !(low <= stake <= high) {
        return Err(StakeOutOfRange);
      }
      WithAccountKeepsValid(Tables(), Liability(market));
      if Liability(market) !in accounts {
        accounts := accounts[Liability(market) := AccountRow(0, 0)];
      }
      r := AcceptBet(user, market, outcome, stake, chosen.value.price, now);
    }

    /** The bet transaction: balance check, bet row and transfer together. */
    method AcceptBet(user: UserId, market: MarketId, outcome: OutcomeId, stake: int, price: Price, now: Time)
        returns (r: Result<BetId>)
      requires Valid(Tables()) && Liability(market) in accounts && stake > 0
      modifies this
      ensures Valid(Tables()) && markets == old(markets) && audit == old(audit)
      ensures match InsertBet(old(Tables()), NewBet(user, market, outcome, stake, price), now)
        case Ok(after) => r == Ok(|old(bets)|) && Tables() == after
        case Err(e) => r == Err(e) && Tables() == old(Tables())
    {
      if Wallet(user) !in accounts {
        return Err(NoAccount);
      }
      if accounts[Wallet(user)].balance < stake {
        return Err(InsufficientBalance);
      }
      var bet := Bet(user, market, outcome, stake, price, Pending, None, None);
      if InsertBet(Tables(), bet, now).Ok? {
        InsertBetKeepsValid(Tables(), bet, now);
      }
      var id := |bets|;
      bets := bets + [bet];
      // the balance check above leaves no constraint for the posting to violate
      var posted := PostTransfer(PlaceLeg(id, bet), Context(Some(user), now));
      assert posted.Ok?;
      return Ok(id);
    }

    /** Post a list of legs one after the other, stopping at the first that fails. */
    method PostSpecs(specs: seq<Leg>, ctx: Context) returns (r: Result<()>)
      modifies this
      ensures bets == old(bets) && markets == old(markets) && audit == old(audit)
      ensures match PostAll(old(Tables()), specs, ctx)
        case Ok(after) => r == Ok(()) && Tables() == after
        case Err(e) => r == Err(e)
    {
      for i := 0 to |specs|
        invariant bets == old(bets) && markets == old(markets) && audit == old(audit)
        invariant PostAll(old(Tables()), specs, ctx) == PostAll(Tables(), specs[i..], ctx)
      {
        assert specs[i..][0] == specs[i] && specs[i..][1..] == specs[i + 1..];
        var posted := PostTransfer(specs[i], ctx);
        if posted.Err? {
          return Err(posted.error);
        }
      }
      return Ok(());
    }

    /** Early close of one pending bet at the live price; the answer is the cash-out. */
    method SellPosition(id: BetId, user: UserId, now: Time) returns (r: Result<int>)
      requires Valid(Tables())
      modifies this
      ensures Valid(Tables()) && markets == old(markets) && audit == old(audit)
      ensures match Transactions.SellPosition(old(Tables()), id, user,
                if id < |old(bets)| then ViewOf(old(markets), old(bets)[id].market) else None, now)
        case Ok(after) =>
          && Tables() == after
          && id < |old(bets)| && after.bets[id].exitOdds.Some?
          && r == Ok(CashoutAt(after.bets[id], after.bets[id].exitOdds.value))
        case Err(e) => r == Err(e) && State() == old(State())
      ensures r.Ok? <==>
        && id < |old(bets)| && old(bets)[id].market in old(markets)
        && CanSell(old(Tables()), id, user, Some(old(markets)[old(bets)[id].market].view), now)
      ensures r.Ok? ==>
        SoldAtOffer(old(Tables()), Tables(), id, old(markets)[old(bets)[id].market].view, r.value, now)
    {
      SaleLaw(Tables(), id, user, if id < |bets| then ViewOf(markets, bets[id].market) else None, now);
      if id >= |bets| || bets[id].user != user {
        return Err(BetNotFound);
      }
      var locked := bets[id];
      if locked.status != Pending {
        return Err(BetNotClosable);
      }
      if locked.market !in markets {
        return Err(MarketNotFound);
      }
      var view := markets[locked.market].view;
      if !view.IsOpen(now) {
        return Err(MarketClosed);
      }
      var chosen := view.Find(locked.outcome);
      if chosen.None? {
        return Err(InvalidOutcome);
      }
      if !PayoutDefined(locked.stake, locked.price) {
        return Err(ValueError);
      }
      r := PayClose(id, chosen.value.price, now);
    }

    /** Post the close legs and mark the bet CLOSED at its exit price, or leave everything as it was. */
    method PayClose(id: BetId, price: Price, now: Time) returns (r: Result<int>)
      requires Valid(Tables()) && id < |bets| && bets[id].status == Pending && bets[id].price > 0
      modifies this
      ensures Valid(Tables()) && markets == old(markets) && audit == old(audit)
      ensures match CloseBet(old(Tables()), id, price, now)
        case Ok(after) => Tables() == after && r == Ok(CashoutAt(old(bets)[id], price))
        case Err(e) => r == Err(e) && State() == old(State())
    {
      var locked := bets[id];
      var payout, specs := CloseSpecs(id, locked, price);
      var saved := State();
      if CloseBet(saved.books, id, price, now).Ok? {
        CloseKeepsValid(saved.books, id, price, now);
      }
      var posted := PostSpecs(specs, Context(Some(locked.user), now));
      if posted.Err? {
        Rollback(saved);
        return Err(posted.error);
      }
      bets := bets[id := locked.(status := Closed, closedAt := Some(now), exitOdds := Some(price))];
      return Ok(payout);
    }

    /** The rows of `select ... where market_id = m and status = PENDING`, judged against the winner. */
    method SelectPending(m: MarketId, winner: OutcomeId) returns (held: seq<Verdict>)
      ensures held == PendingVerdicts(bets, m, winner)
    {
      held := [];
      for i := 0 to |bets|
        invariant held == PendingVerdicts(bets[..i], m, winner)
      {
        assert bets[..i + 1] == bets[..i] + [bets[i]];
        PendingSnoc(bets[..i], bets[i], m, winner);
        if bets[i].market == m && bets[i].status == Pending {
          held := held + [Verdict(i, bets[i].outcome == winner)];
        }
      }
      assert bets[..|bets|] == bets;
    }

    method SelectSettled(m: MarketId) returns (seen: seq<Verdict>)
      ensures seen == SettledVerdicts(bets, m)
    {
      seen := [];
      for i := 0 to |bets|
        invariant seen == SettledVerdicts(bets[..i], m)
      {
        assert bets[..i + 1] == bets[..i] + [bets[i]];
        SettledSnoc(bets[..i], bets[i], m);
        if bets[i].market == m && (bets[i].status == Won || bets[i].status == Lost) {
          seen := seen + [Verdict(i, bets[i].status == Won)];
        }
      }
      assert bets[..|bets|] == bets;
    }

    /** Derive the legs of a plan and flip the status of each bet. */
    method ApplyPlan(held: seq<Verdict>, plan: SettlementPlan) returns (specs: seq<Leg>)
      requires SoundBets(bets) && InRange(bets, held) && Distinct(held)
      requires plan == PlanOf(bets, held, plan.winner)
      requires forall v | v in held :: v.won == (bets[v.id].outcome == plan.winner)
      modifies this`bets
      ensures specs == BatchLegs(old(bets), held, Settle)
      ensures bets == BatchBets(old(bets), held, Settle)
    {
      specs := [];
      for k := 0 to |held|
        invariant Applied(old(bets), held, k, Settle, specs, bets)
      {
        AppliedStep(old(bets), held, k, Settle, specs, bets);
        assert held[k] in held;
        var sb := plan.settled[k];
        var bet := bets[sb.id];
        var legs := SettleSpecs(sb, bet);
        specs := specs + legs;
        bets := bets[sb.id := bet.(status := sb.status)];
      }
      AppliedAll(old(bets), held, Settle, specs, bets);
    }

    /** Derive the compensating legs and return each bet to PENDING. */
    method ApplyReversal(seen: seq<Verdict>) returns (specs: seq<Leg>)
      requires SoundBets(bets) && InRange(bets, seen) && Distinct(seen)
      requires forall v | v in seen :: bets[v.id].status == SideOf(v.won)
      modifies this`bets
      ensures specs == BatchLegs(old(bets), seen, Reverse)
      ensures bets == BatchBets(old(bets), seen, Reverse)
    {
      specs := [];
      for k := 0 to |seen|
        invariant Applied(old(bets), seen, k, Reverse, specs, bets)
      {
        AppliedStep(old(bets), seen, k, Reverse, specs, bets);
        assert seen[k] in seen;
        var id := seen[k].id;
        var bet := bets[id];
        var legs := ReverseSpecs(id, bet);
        specs := specs + legs;
        bets := bets[id := bet.(status := Pending)];
      }
      AppliedAll(old(bets), seen, Reverse, specs, bets);
    }

    /** Flip and post a whole pass; after a failure the caller rolls back. */
    method SettleHeld(held: seq<Verdict>, plan: SettlementPlan, ctx: Context) returns (r: Result<()>)
      requires SoundBets(bets) && InRange(bets, held) && Distinct(held) && !Unpayable(bets, held)
      requires plan == PlanOf(bets, held, plan.winner)
      requires forall v | v in held :: v.won == (bets[v.id].outcome == plan.winner)
      modifies this
      ensures markets == old(markets) && audit == old(audit)
      ensures match RunPass(old(Tables()), held, Settle, ctx)
        case Ok(after) => r == Ok(()) && Tables() == after
        case Err(e) => r == Err(e)
    {
      ghost var before := Tables();
      var specs := ApplyPlan(held, plan);
      PostingIgnoresBets(before, specs, ctx, bets);
      r := PostSpecs(specs, ctx);
    }

    method ReverseSeen(seen: seq<Verdict>, ctx: Context) returns (r: Result<()>)
      requires SoundBets(bets) && InRange(bets, seen) && Distinct(seen)
      requires forall v | v in seen :: bets[v.id].status == SideOf(v.won)
      modifies this
      ensures markets == old(markets) && audit == old(audit)
      ensures match RunPass(old(Tables()), seen, Reverse, ctx)
        case Ok(after) => r == Ok(()) && Tables() == after
        case Err(e) => r == Err(e)
    {
      ghost var before := Tables();
      assert !Unpayable(bets, seen);
      var specs := ApplyReversal(seen);
      PostingIgnoresBets(before, specs, ctx, bets);
      r := PostSpecs(specs, ctx);
    }

    /** RESOLVED with its winner, or left alone when RESOLVED already; refused when CANCELLED. */
    method StampResolved(m: MarketId, winner: OutcomeId, now: Time) returns (r: Result<()>)
      modifies this`markets
      ensures match MarkResolved(old(markets), m, winner, now)
        case Ok(after) => r == Ok(()) && markets == after
        case Err(e) => r == Err(e) && markets == old(markets)
    {
      if m !in markets {
        return Err(MarketNotFound);
      }
      var row := markets[m];
      if row.view.status == MarketVoided {
        return Err(MarketCancelled);
      }
      if row.view.status == MarketResolved {
        return Ok(());
      }
      markets := markets[m := MarketRow(row.view.(status := MarketResolved), Some(winner), Some(now))];
      return Ok(());
    }

    /** Back to CLOSED. */
    method StampUnresolved(m: MarketId) returns (r: Result<()>)
      modifies this`markets
      ensures match MarkUnresolved(old(markets), m)
        case Ok(after) => r == Ok(()) && markets == after
        case Err(e) => r == Err(e) && markets == old(markets)
    {
      if m !in markets {
        return Err(MarketNotFound);
      }
      var row := markets[m];
      markets := markets[m := MarketRow(row.view.(status := MarketStopped), row.winner, None)];
      return Ok(());
    }

    /** Select the pending bets and plan their settlement; raises when a winner's payout is undefined. */
    method PlanPending(m: MarketId, winner: OutcomeId) returns (held: seq<Verdict>, r: Result<SettlementPlan>)
      requires SoundBets(bets)
      ensures held == PendingVerdicts(bets, m, winner)
      ensures r == if Unpayable(bets, held) then Err(ValueError) else Ok(PlanOf(bets, held, winner))
    {
      held := SelectPending(m, winner);
      UnpayableIffPlanRaises(bets, held, winner);
      r := BuildSettlementPlan(ToSettle(bets, held), winner);
      if r.Ok? {
        assert r.value.settled == JudgedAll(ToSettle(bets, held), winner);
      }
    }

    /** What `resolve_market` does inside its transaction: plan, flips and legs, posting, market row, audit row. */
    method SettlePending(m: MarketId, winner: OutcomeId, reason: string, ctx: Context)
        returns (r: Result<SettlementPlan>)
      requires Valid(Tables())
      modifies this
      ensures match ResolveTx(old(State()), m, winner, reason, ctx)
        case Ok(after) =>
          State() == after && r == Ok(PlanOf(old(bets), PendingVerdicts(old(bets), m, winner), winner))
        case Err(e) => r == Err(e)
    {
      var held, planned := PlanPending(m, winner);
      if planned.Err? {
        return Err(planned.error);
      }
      var plan := planned.value;
      var passed := SettleHeld(held, plan, ctx);
      if passed.Err? {
        return Err(passed.error);
      }
      var stamped := StampResolved(m, winner, ctx.now);
      if stamped.Err? {
        return Err(stamped.error);
      }
      audit := audit + [SettlementResolved(m, winner, ctx.actor, reason, plan.totalPayout, plan.totalLoserStake,
                                           |plan.settled|)];
      return Ok(plan);
    }

    /** Resolve a market on `winner`; any failure on the way, even after everything was posted, leaves the
        database as it was. */
    method ResolveMarket(m: MarketId, winner: OutcomeId, reason: string, ctx: Context)
        returns (r: Result<SettlementPlan>)
      requires Valid(Tables())
      modifies this
      ensures Valid(Tables())
      ensures match ResolveTx(old(State()), m, winner, reason, ctx)
        case Ok(after) =>
          State() == after && r == Ok(PlanOf(old(bets), PendingVerdicts(old(bets), m, winner), winner))
        case Err(e) => r == Err(e) && State() == old(State())
      ensures r.Ok? ==>
        && AllJudged(old(bets), bets, m, winner)
        && RowStamped(old(markets), markets, m, winner, ctx.now)
        && ResolutionAudited(old(State()), State(), m, winner, reason, ctx)
    {
      var saved := State();
      ResolveTxKeepsValid(saved, m, winner, reason, ctx);
      r := SettlePending(m, winner, reason, ctx);
      if r.Err? {
        Rollback(saved);
      } else {
        ResolutionLeaves(saved, m, winner, reason, ctx);
      }
    }

    /** The compensating entries, and the market back to CLOSED. */
    method ReverseAndReopen(m: MarketId, seen: seq<Verdict>, ctx: Context) returns (r: Result<()>)
      requires SoundBets(bets) && InRange(bets, seen) && Distinct(seen)
      requires forall v | v in seen :: bets[v.id].status == SideOf(v.won)
      modifies this
      ensures audit == old(audit)
      ensures match RunPass(old(Tables()), seen, Reverse, ctx)
        case Err(e) => r == Err(e)
        case Ok(after) =>
          match MarkUnresolved(old(markets), m)
          case Ok(reopened) => r == Ok(()) && Tables() == after && markets == reopened
          case Err(e) => r == Err(e)
    {
      r := ReverseSeen(seen, ctx);
      if r.Ok? {
        r := StampUnresolved(m);
      }
    }

    /** What `reverse_settlement` does inside its transaction; the answer is the number of bets reopened. */
    method UndoSettled(m: MarketId, reason: string, ctx: Context) returns (r: Result<nat>)
      requires Valid(Tables())
      modifies this
      ensures match ReverseTx(old(State()), m, reason, ctx)
        case Ok(after) => State() == after && r == Ok(|SettledVerdicts(old(bets), m)|)
        case Err(e) => r == Err(e)
    {
      var seen := SelectSettled(m);
      if |seen| > 0 {
        var passed := ReverseAndReopen(m, seen, ctx);
        if passed.Err? {
          return Err(passed.error);
        }
      } else {
        NothingToReverse(State(), m, reason, ctx);
      }
      audit := audit + [SettlementReversed(m, ctx.actor, reason, |seen|)];
      return Ok(|seen|);
    }

    /** Reverse a market's settlement by compensating entries, or leave the database as it was. */
    method ReverseSettlement(m: MarketId, reason: string, ctx: Context) returns (r: Result<nat>)
      requires Valid(Tables())
      modifies this
      ensures Valid(Tables())
      ensures match ReverseTx(old(State()), m, reason, ctx)
        case Ok(after) => State() == after && r == Ok(|SettledVerdicts(old(bets), m)|)
        case Err(e) => r == Err(e) && State() == old(State())
      ensures r.Ok? ==>
        && r.value == CountSettled(old(bets), m)
        && AllReopened(old(bets), bets, m)
        && RowReopened(old(markets), markets, m, r.value > 0)
        && ReversalAudited(old(State()), State(), m, reason, ctx)
    {
      var saved := State();
      ReverseTxKeepsValid(saved, m, reason, ctx);
      r := UndoSettled(m, reason, ctx);
      if r.Err? {
        Rollback(saved);
      } else {
        SettledCount(saved.books.bets, m);
        ReversalLeaves(saved, m, reason, ctx);
      }
    }

    /** One event-level audit row in its own transaction. */
    method RecordEvent(row: AuditRow)
      modifies this`audit
      ensures audit == old(audit) + [row]
    {
      audit := audit + [row];
    }

    /** The present snapshot of every market. */
    function Quotes(): map<MarketId, MarketView>
      reads this
    {
      map m | m in markets :: markets[m].view
    }

    /** The player's bets, newest first, with the live quotes. */
    method Positions(user: UserId, quotes: map<MarketId, MarketView>) returns (inputs: seq<PositionInput>)
      requires SoundBets(bets)
      ensures inputs == InputsOf(bets, user, quotes)
    {
      inputs := [];
      for i := 0 to |bets|
        invariant inputs == InputsOf(bets[..i], user, quotes)
      {
        assert bets[..i + 1][..i] == bets[..i];
        if bets[i].user == user {
          inputs := [InputOf(i, bets[i], quotes)] + inputs;
        }
      }
      assert bets[..|bets|] == bets;
    }

    /** The player's positions at live prices: it raises exactly when the player holds a pending bet placed
        at price 0, and otherwise the wallet balance is what the view adds up to. */
    method GetPortfolio(user: UserId) returns (r: Result<View>)
      requires Valid(Tables())
      ensures r.Err? <==> exists i | 0 <= i < |bets| ::
                bets[i].user == user && bets[i].status == Pending && bets[i].price == 0
      ensures r.Err? ==> r.error == ValueError
      ensures r.Ok? ==>
        Balance(Tables(), Wallet(user)) ==
        Total(entries, Funded(Wallet(user))) + Total(entries, Plain(Wallet(user)))
        + RealizedSum(r.value.settled) - OpenStakes(r.value.open)
      ensures r.Ok? ==>
        var ps := InputsOf(bets, user, Quotes());
        r.value == View(OpenOf(ps), SettledOf(ps))
    {
      var quotes := Quotes();
      var inputs := Positions(user, quotes);
      PortfolioRefinesLedger(Tables(), user, quotes);
      PortfolioRaisesIff(Tables(), user, quotes);
      r := BuildPortfolio(inputs);
    }
  }

  lemma NothingToReverse(db: Db, m: MarketId, reason: string, ctx: Context)
    requires SoundBets(db.books.bets) && SettledVerdicts(db.books.bets, m) == []
    ensures ReverseTx(db, m, reason, ctx) == Ok(db.(audit := db.audit + [SettlementReversed(m, ctx.actor, reason, 0)]))
  {
  }

  /** The cash-out of a bet and the legs that pay it. */
  method CloseSpecs(id: BetId, locked: Bet, price: Price) returns (payout: int, specs: seq<Leg>)
    requires SoundBet(locked) && locked.price > 0
    ensures payout == CashoutAt(locked, price) && specs == CloseLegs(id, locked, price)
  {
    payout := Cashout(locked.stake, locked.price, price);
    specs := [];
    var pool, wallet := Liability(locked.market), Wallet(locked.user);
    if payout >= locked.stake {
      specs := specs + [Leg(CloseStakeReturn, Some(CloseKey(id, StakeLeg)), pool, wallet, locked.stake, Some(id))];
      var gain := payout - locked.stake;
      if gain > 0 {
        specs := specs + [Leg(CloseWinnings, Some(CloseKey(id, WinLeg)), HousePromo, wallet, gain, Some(id))];
      }
    } else {
      if payout > 0 {
        specs := specs + [Leg(CloseStakeReturn, Some(CloseKey(id, StakeLeg)), pool, wallet, payout, Some(id))];
      }
      specs := specs
        + [Leg(CloseLoss, Some(CloseKey(id, LossLeg)), pool, HouseRevenue, locked.stake - payout, Some(id))];
    }
  }

  /** The legs of one planned bet. */
  method SettleSpecs(sb: SettledBet, bet: Bet) returns (specs: seq<Leg>)
    requires bet.stake > 0 && (sb.won ==> sb.pnl == Winnings(bet))
    ensures specs == SettleLegs(sb.id, bet, sb.won)
  {
    specs := [];
    if sb.won {
      specs := specs + [Leg(SettleStakeReturn, Some(SettleKey(sb.id, StakeLeg)), Liability(bet.market),
                            Wallet(bet.user), bet.stake, Some(sb.id))];
      if sb.pnl > 0 {
        specs := specs + [Leg(SettleWinnings, Some(SettleKey(sb.id, WinLeg)), HousePromo, Wallet(bet.user), sb.pnl,
                              Some(sb.id))];
      }
    } else {
      specs := specs + [Leg(SettleLoss, Some(SettleKey(sb.id, LossLeg)), Liability(bet.market), HouseRevenue, bet.stake,
                            Some(sb.id))];
    }
  }

  /** The compensating legs of one settled bet. */
  method ReverseSpecs(id: BetId, bet: Bet) returns (specs: seq<Leg>)
    requires bet.stake > 0
    ensures specs == ReverseLegs(id, bet, bet.status == Won)
  {
    specs := [];
    if bet.status == Won {
      var winnings := Payout(bet.stake, bet.price) - bet.stake;
      specs := specs + [Leg(ReverseStakeReturn, Some(ReverseKey(id, StakeLeg)), Wallet(bet.user), Liability(bet.market),
                            bet.stake, Some(id))];
      if winnings > 0 {
        specs := specs + [Leg(ReverseWinnings, Some(ReverseKey(id, WinLeg)), Wallet(bet.user), HousePromo, winnings,
                              Some(id))];
      }
    } else {
      specs := specs + [Leg(ReverseLoss, Some(ReverseKey(id, LossLeg)), HouseRevenue, Liability(bet.market), bet.stake,
                            Some(id))];
    }
  }

  lemma UnpayableIffPlanRaises(bets: seq<Bet>, vs: seq<Verdict>, winner: OutcomeId)
    requires SoundBets(bets) && InRange(bets, vs)
    requires forall v | v in vs :: v.won == (bets[v.id].outcome == winner)
    ensures Unpayable(bets, vs) <==>
      exists f | f in ToSettle(bets, vs) :: f.outcome == winner && !PayoutDefined(f.stake, f.price)
    ensures forall f | f in ToSettle(bets, vs) :: f.stake > 0
  {
    var facts := ToSettle(bets, vs);
    forall v | v in vs
      ensures exists f :: f in facts && f.id == v.id && f.outcome == bets[v.id].outcome && f.price == bets[v.id].price
    {
      var k :| 0 <= k < |vs| && vs[k] == v;
      assert facts[k] in facts;
    }
    forall f | f in facts
      ensures exists v :: v in vs && f == BetToSettle(v.id, bets[v.id].outcome, bets[v.id].stake, bets[v.id].price)
    {
      var k :| 0 <= k < |facts| && facts[k] == f;
      assert vs[k] in vs;
    }
  }
}
