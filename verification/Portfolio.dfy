/** `build_portfolio` (`backend/app/bets/portfolio.py`): the player's view that the ledger must agree with. */
module Portfolio {
  import opened Money
  import opened Domain
  import opened Posting
  import opened Lifecycle
  import opened Invariant

  datatype PositionInput = PositionInput(
    id: BetId, market: MarketId, outcome: OutcomeId, stake: int, price: Price, status: Status,
    currentOdds: Option<Price>, exitOdds: Option<Price>)

  datatype OpenPosition = OpenPosition(
    id: BetId, stake: int, potentialPayout: int, potentialPnl: int,
    currentOdds: Option<Price>, currentValue: int, unrealizedPnl: int, priced: bool)

  datatype SettledPosition = SettledPosition(
    id: BetId, stake: int, status: Status, won: bool, payout: int, realizedPnl: int, exitOdds: Option<Price>)

  datatype View = View(open: seq<OpenPosition>, settled: seq<SettledPosition>)

  /** The inputs on which building a position raises ValueError. */
  predicate Raises(p: PositionInput) {
    match p.status
    case Pending => !PayoutDefined(p.stake, p.price)
    case Closed => p.exitOdds.None? || !PayoutDefined(p.stake, p.price)
    case Won => !PayoutDefined(p.stake, p.price)
    case Lost => false
  }

  function Opened(p: PositionInput): OpenPosition
    requires p.stake > 0
  {
    var potential := Payout(p.stake, p.price);
    var value := if p.currentOdds.Some? then Cashout(p.stake, p.price, p.currentOdds.value) else p.stake;
    OpenPosition(p.id, p.stake, potential, potential - p.stake,
                 p.currentOdds, value, value - p.stake, p.currentOdds.Some?)
  }

  /** What the bet realized: cash-out for a closed one, payout for a won one, nothing for a lost one. */
  function Realized(p: PositionInput): int
    requires p.stake >= 0
  {
    match p.status
    case Closed => if p.exitOdds.Some? then Cashout(p.stake, p.price, p.exitOdds.value) else 0
    case Won => Payout(p.stake, p.price)
    case _ => 0
  }

  function SettledAs(p: PositionInput): SettledPosition
    requires p.stake > 0
  {
    var payout := Realized(p);
    SettledPosition(p.id, p.stake, p.status, if p.status == Closed then payout > p.stake else p.status == Won,
                    payout, payout - p.stake, if p.status == Closed then p.exitOdds else None)
  }

  function OpenOf(ps: seq<PositionInput>): seq<OpenPosition>
    requires forall p | p in ps :: p.stake > 0
  {
    if ps == [] then []
    else
      var p := ps[|ps| - 1];
      OpenOf(ps[..|ps| - 1]) + if p.status == Pending then [Opened(p)] else []
  }

  function SettledOf(ps: seq<PositionInput>): seq<SettledPosition>
    requires forall p | p in ps :: p.stake > 0
  {
    if ps == [] then []
    else
      var p := ps[|ps| - 1];
      SettledOf(ps[..|ps| - 1]) + if p.status != Pending then [SettledAs(p)] else []
  }

  /** Partition the positions in order; raise exactly when one of them has no defined value. */
  method BuildPortfolio(ps: seq<PositionInput>) returns (r: Result<View>)
    requires forall p | p in ps :: p.stake > 0
    ensures r.Err? <==> exists p | p in ps :: Raises(p)
    ensures r.Err? ==> r.error == ValueError
    ensures r.Ok? ==> r.value == View(OpenOf(ps), SettledOf(ps))
  {
    var open: seq<OpenPosition> := [];
    var settled: seq<SettledPosition> := [];
    for i := 0 to |ps|
      invariant forall j | 0 <= j < i :: !Raises(ps[j])
      invariant open == OpenOf(ps[..i]) && settled == SettledOf(ps[..i])
    {
      var p := ps[i];
      assert ps[..i + 1][..i] == ps[..i];
      if p.status == Pending {
        if !PayoutDefined(p.stake, p.price) {
          assert p in ps && Raises(p);
          return Err(ValueError);
        }
        var potential := Payout(p.stake, p.price);
        var value, priced := p.stake, false;
        if p.currentOdds.Some? {
          value, priced := Cashout(p.stake, p.price, p.currentOdds.value), true;
        }
        open := open + [OpenPosition(p.id, p.stake, potential, potential - p.stake,
                                     p.currentOdds, value, value - p.stake, priced)];
      } else if p.status == Closed {
        if p.exitOdds.None? || !PayoutDefined(p.stake, p.price) {
          assert p in ps && Raises(p);
          return Err(ValueError);
        }
        var payout := Cashout(p.stake, p.price, p.exitOdds.value);
        settled := settled + [SettledPosition(p.id, p.stake, p.status, payout - p.stake > 0,
                                              payout, payout - p.stake, p.exitOdds)];
      } else {
        var won := p.status == Won;
        if won && !PayoutDefined(p.stake, p.price) {
          assert p in ps && Raises(p);
          return Err(ValueError);
        }
        var payout := if won then Payout(p.stake, p.price) else 0;
        settled := settled + [SettledPosition(p.id, p.stake, p.status, won, payout, payout - p.stake, None)];
      }
    }
    assert ps[..|ps|] == ps;
    return Ok(View(open, settled));
  }

  // ---------------------------------------------------------------------------
  // The portfolio refines the ledger.
  // ---------------------------------------------------------------------------

  /** The live price of an outcome, when its market could be read and has it. */
  function LiveOdds(quotes: map<MarketId, MarketView>, m: MarketId, outcome: OutcomeId): Option<Price> {
    if m in quotes && quotes[m].Find(outcome).Some? then Some(quotes[m].Find(outcome).value.price) else None
  }

  function InputOf(i: BetId, b: Bet, quotes: map<MarketId, MarketView>): PositionInput {
    PositionInput(i, b.market, b.outcome, b.stake, b.price, b.status,
                  LiveOdds(quotes, b.market, b.outcome), b.exitOdds)
  }

  /** The player's bets, newest first, each with its live quote if there is one. */
  function InputsOf(bets: seq<Bet>, user: UserId, quotes: map<MarketId, MarketView>): (r: seq<PositionInput>)
    requires SoundBets(bets)
    ensures forall p :: p in r <==> p.id < |bets| && bets[p.id].user == user && p == InputOf(p.id, bets[p.id], quotes)
  {
    if bets == [] then []
    else
      var n := |bets| - 1;
      (if bets[n].user == user then [InputOf(n, bets[n], quotes)] else []) + InputsOf(bets[..n], user, quotes)
  }

  function RealizedSum(settled: seq<SettledPosition>): int {
    if settled == [] then 0 else RealizedSum(settled[..|settled| - 1]) + settled[|settled| - 1].realizedPnl
  }

  function OpenStakes(open: seq<OpenPosition>): int {
    if open == [] then 0 else OpenStakes(open[..|open| - 1]) + open[|open| - 1].stake
  }

  /** Realized results minus open stakes, bet by bet. */
  function Worth(ps: seq<PositionInput>): int
    requires forall p | p in ps :: p.stake > 0
  {
    if ps == [] then 0
    else
      var p := ps[|ps| - 1];
      Worth(ps[..|ps| - 1]) + if p.status == Pending then -p.stake else Realized(p) - p.stake
  }

  lemma {:induction false} WorthOfView(ps: seq<PositionInput>)
    requires forall p | p in ps :: p.stake > 0
    ensures RealizedSum(SettledOf(ps)) - OpenStakes(OpenOf(ps)) == Worth(ps)
  {
    if ps != [] {
      var n := |ps| - 1;
      WorthOfView(ps[..n]);
      var open, settled := OpenOf(ps[..n]), SettledOf(ps[..n]);
      if ps[n].status == Pending {
        assert (open + [Opened(ps[n])])[..|open|] == open && settled + [] == settled;
      } else {
        assert (settled + [SettledAs(ps[n])])[..|settled|] == settled && open + [] == open;
      }
    }
  }

  lemma {:induction false} WorthConcat(xs: seq<PositionInput>, ys: seq<PositionInput>)
    requires forall p | p in xs + ys :: p.stake > 0
    ensures (forall p | p in xs :: p.stake > 0) && forall p | p in ys :: p.stake > 0
    ensures Worth(xs + ys) == Worth(xs) + Worth(ys)
  {
    forall p | p in xs ensures p in xs + ys {
    }
    forall p | p in ys ensures p in xs + ys {
    }
    if ys == [] {
      assert xs + ys == xs;
    } else {
      var n := |ys| - 1;
      assert (xs + ys)[..|xs| + n] == xs + ys[..n];
      WorthConcat(xs, ys[..n]);
    }
  }

  lemma WorthOfOne(i: BetId, b: Bet, quotes: map<MarketId, MarketView>)
    requires SoundBet(b)
    ensures Worth([InputOf(i, b, quotes)]) == Stand(b, Wallet(b.user))
  {
  }

  lemma {:induction false} WorthOfBets(bets: seq<Bet>, user: UserId, quotes: map<MarketId, MarketView>)
    requires SoundBets(bets)
    ensures Worth(InputsOf(bets, user, quotes)) == BookTotal(bets, Book(Wallet(user)))
  {
    if bets != [] {
      var n := |bets| - 1;
      WorthOfBets(bets[..n], user, quotes);
      if bets[n].user == user {
        WorthOfOne(n, bets[n], quotes);
        WorthConcat([InputOf(n, bets[n], quotes)], InputsOf(bets[..n], user, quotes));
      } else {
        assert InputsOf(bets, user, quotes) == InputsOf(bets[..n], user, quotes);
      }
    }
  }

  /** In every valid state a wallet holds what it was funded with and sent directly, plus the realized
      results of its settled positions, minus the stakes of its open ones. */
  lemma PortfolioRefinesLedger(b: Books, user: UserId, quotes: map<MarketId, MarketView>)
    requires Valid(b)
    ensures var ps := InputsOf(b.bets, user, quotes);
      && (forall p | p in ps :: p.stake > 0)
      && Balance(b, Wallet(user)) ==
           Total(b.entries, Funded(Wallet(user))) + Total(b.entries, Plain(Wallet(user)))
           + RealizedSum(SettledOf(ps)) - OpenStakes(OpenOf(ps))
  {
    var ps := InputsOf(b.bets, user, quotes);
    forall p | p in ps ensures p.stake > 0 {
      assert SoundBet(b.bets[p.id]);
    }
    WorthOfView(ps);
    WorthOfBets(b.bets, user, quotes);
    assert Balance(b, Wallet(user)) == Ledger(b.entries, Wallet(user));
    assert BetGauge(Book(Wallet(user)));
  }

  /** A player's portfolio raises exactly when the player holds a pending bet placed at price 0, which
      placement accepts. The missing exit price that the code guards against cannot occur. */
  lemma PortfolioRaisesIff(b: Books, user: UserId, quotes: map<MarketId, MarketView>)
    requires Valid(b)
    ensures (exists p | p in InputsOf(b.bets, user, quotes) :: Raises(p)) <==>
      exists i | 0 <= i < |b.bets| :: b.bets[i].user == user && b.bets[i].status == Pending && b.bets[i].price == 0
  {
    var ps := InputsOf(b.bets, user, quotes);
    forall p | p in ps ensures Raises(p) <==> b.bets[p.id].status == Pending && b.bets[p.id].price == 0 {
      assert SoundBet(b.bets[p.id]);
    }
    forall i | 0 <= i < |b.bets| && b.bets[i].user == user ensures InputOf(i, b.bets[i], quotes) in ps {
    }
  }

  // ---------------------------------------------------------------------------
  // The admin's list of a user's bets.
  // ---------------------------------------------------------------------------

  /** `get_user_bets`: pays won bets and counts every other finished bet, closed ones too, as a full loss. */
  function AdminPnl(b: Bet): Option<int>
    requires b.stake >= 0
  {
    if b.status == Pending then None
    else Some((if b.status == Won then Payout(b.stake, b.price) else 0) - b.stake)
  }

  /** The admin's figure is the portfolio's exactly when the bet was not closed for more than nothing. */
  lemma AdminViewAgreesIff(i: BetId, b: Bet, quotes: map<MarketId, MarketView>)
    requires SoundBet(b)
    ensures AdminPnl(b).None? <==> b.status == Pending
    ensures b.status != Pending ==>
      (AdminPnl(b) == Some(SettledAs(InputOf(i, b, quotes)).realizedPnl) <==>
       (b.status == Closed ==> CashoutAt(b, b.exitOdds.value) == 0))
  {
  }
}
