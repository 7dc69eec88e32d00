/** What each figure of a player's portfolio means: what closing or winning would pay, and what has been paid. */
module Positions {
  import opened Domain
  import opened Posting
  import opened Lifecycle
  import opened Transactions
  import opened Invariant
  import opened Guarantees
  import opened Portfolio
  import opened Services

  /** A position is valued at its own outcome's live price, when its market can be read and lists it. */
  lemma LiveOddsIff(quotes: map<MarketId, MarketView>, m: MarketId, outcome: OutcomeId)
    ensures var live := LiveOdds(quotes, m, outcome);
      && (live.Some? <==> m in quotes && Lists(quotes[m], outcome))
      && (live.Some? ==> Offers(quotes[m], outcome, live.value))
  {
    if m in quotes && quotes[m].Find(outcome).Some? {
      var o := quotes[m].Find(outcome).value;
      assert o in quotes[m].outcomes && o.id == outcome;
    }
  }

  /** The current value of an open position is what closing it at that quote pays; without a quote it is the stake. */
  lemma CurrentValueIsCashout(b: Books, i: BetId, quotes: map<MarketId, MarketView>, now: Time)
    requires Valid(b) && i < |b.bets| && b.bets[i].status == Pending
    ensures var bet := b.bets[i];
      var p := Opened(InputOf(i, bet, quotes));
      && p.unrealizedPnl == p.currentValue - bet.stake
      && (p.priced <==> bet.market in quotes && Lists(quotes[bet.market], bet.outcome))
      && (!p.priced ==> p.currentOdds == None && p.currentValue == bet.stake)
      && (p.priced ==> p.currentOdds.Some? && Offers(quotes[bet.market], bet.outcome, p.currentOdds.value))
      && (bet.market in quotes && CanSell(b, i, bet.user, Some(quotes[bet.market]), now) ==>
           var sold := SellPosition(b, i, bet.user, Some(quotes[bet.market]), now);
           && sold.Ok? && SoldAtOffer(b, sold.value, i, quotes[bet.market], p.currentValue, now)
           && sold.value.bets[i].exitOdds == p.currentOdds)
  {
    var bet := b.bets[i];
    LiveOddsIff(quotes, bet.market, bet.outcome);
    if bet.market in quotes {
      SaleLaw(b, i, bet.user, Some(quotes[bet.market]), now);
      CloseQuoteIff(bet, Some(quotes[bet.market]), now);
    }
  }

  /** The potential payout is what a win would put into the wallet that the stake has left. */
  lemma PotentialIsTheWin(i: BetId, b: Bet, quotes: map<MarketId, MarketView>)
    requires SoundBet(b) && b.status == Pending
    ensures var p := Opened(InputOf(i, b, quotes));
      && p.id == i && p.stake == b.stake
      && p.potentialPayout == Stand(Settled(b, true), Wallet(b.user)) - Stand(b, Wallet(b.user))
      && p.potentialPnl == Stand(Settled(b, true), Wallet(b.user))
  {
  }

  /** The realized result of a settled position is what the ledger has moved for that bet through the wallet. */
  lemma RealizedIsLedgered(b: Books, i: BetId, quotes: map<MarketId, MarketView>)
    requires Valid(b) && i < |b.bets| && b.bets[i].status != Pending
    ensures var bet := b.bets[i];
      var p := SettledAs(InputOf(i, bet, quotes));
      && p.id == i && p.stake == bet.stake && p.status == bet.status
      && p.realizedPnl == Total(b.entries, Tagged(i, Wallet(bet.user)))
      && p.payout == p.realizedPnl + bet.stake
      && (p.won <==> bet.status == Won || (bet.status == Closed && p.realizedPnl > 0))
      && p.exitOdds == bet.exitOdds
  {
    BetMoneyIsExact(b, i);
    assert SoundBet(b.bets[i]);
  }

  predicate Descending(ps: seq<PositionInput>) {
    forall i, j | 0 <= i < j < |ps| :: ps[i].id > ps[j].id
  }

  lemma DescendingCons(p: PositionInput, rest: seq<PositionInput>)
    requires Descending(rest) && forall q | q in rest :: q.id < p.id
    ensures Descending([p] + rest)
  {
    var ps := [p] + rest;
    forall i, j | 0 <= i < j < |ps| ensures ps[i].id > ps[j].id {
      assert ps[j] == rest[j - 1] && rest[j - 1] in rest;
    }
  }

  /** Newest first. */
  lemma {:induction false} InputsDescend(bets: seq<Bet>, user: UserId, quotes: map<MarketId, MarketView>)
    requires SoundBets(bets)
    ensures Descending(InputsOf(bets, user, quotes))
  {
    if bets != [] {
      var n := |bets| - 1;
      var rest := InputsOf(bets[..n], user, quotes);
      InputsDescend(bets[..n], user, quotes);
      if bets[n].user == user {
        DescendingCons(InputOf(n, bets[n], quotes), rest);
      } else {
        assert [] + rest == rest;
      }
    }
  }

  /** Every input becomes exactly one position: an open one when pending, a settled one otherwise. */
  lemma {:induction false} ViewHoldsAll(ps: seq<PositionInput>)
    requires forall p | p in ps :: p.stake > 0
    ensures |OpenOf(ps)| + |SettledOf(ps)| == |ps|
    ensures forall p | p in ps :: if p.status == Pending then Opened(p) in OpenOf(ps) else SettledAs(p) in SettledOf(ps)
  {
    if ps != [] {
      var n := |ps| - 1;
      ViewHoldsAll(ps[..n]);
      forall p | p in ps
        ensures if p.status == Pending then Opened(p) in OpenOf(ps) else SettledAs(p) in SettledOf(ps)
      {
        if p != ps[n] {
          assert p in ps[..n];
        }
      }
    }
  }

  predicate OpenDescends(open: seq<OpenPosition>) {
    forall i, j | 0 <= i < j < |open| :: open[i].id > open[j].id
  }

  predicate SettledDescends(settled: seq<SettledPosition>) {
    forall i, j | 0 <= i < j < |settled| :: settled[i].id > settled[j].id
  }

  lemma DescendingLess(ps: seq<PositionInput>)
    requires ps != [] && Descending(ps)
    ensures Descending(ps[..|ps| - 1])
    ensures forall p | p in ps[..|ps| - 1] :: p in ps && p.id > ps[|ps| - 1].id
  {
  }

  lemma {:induction false} OpenKeepsOrder(ps: seq<PositionInput>)
    requires (forall p | p in ps :: p.stake > 0) && Descending(ps)
    ensures OpenDescends(OpenOf(ps))
    ensures forall x | x in OpenOf(ps) :: exists p | p in ps :: p.id == x.id
  {
    if ps != [] {
      DescendingLess(ps);
      OpenKeepsOrder(ps[..|ps| - 1]);
      assert ps[|ps| - 1] in ps;
    }
  }

  lemma {:induction false} SettledKeepsOrder(ps: seq<PositionInput>)
    requires (forall p | p in ps :: p.stake > 0) && Descending(ps)
    ensures SettledDescends(SettledOf(ps))
    ensures forall x | x in SettledOf(ps) :: exists p | p in ps :: p.id == x.id
  {
    if ps != [] {
      DescendingLess(ps);
      SettledKeepsOrder(ps[..|ps| - 1]);
      assert ps[|ps| - 1] in ps;
    }
  }

  /** Both lists of a player's portfolio are newest first. */
  lemma ViewKeepsOrder(bets: seq<Bet>, user: UserId, quotes: map<MarketId, MarketView>)
    requires SoundBets(bets)
    ensures var ps := InputsOf(bets, user, quotes);
      && (forall p | p in ps :: p.stake > 0)
      && OpenDescends(OpenOf(ps)) && SettledDescends(SettledOf(ps))
  {
    var ps := InputsOf(bets, user, quotes);
    forall p | p in ps ensures p.stake > 0 {
      assert SoundBet(bets[p.id]);
    }
    InputsDescend(bets, user, quotes);
    OpenKeepsOrder(ps);
    SettledKeepsOrder(ps);
  }
}
