/** `build_settlement_plan` (`backend/app/settlement/plan.py`), and that its totals are what is posted. */
module Plan {
  import opened Money
  import opened Domain
  import opened Posting
  import opened Lifecycle

  datatype BetToSettle = BetToSettle(id: BetId, outcome: OutcomeId, stake: int, price: Price)

  datatype SettledBet = SettledBet(id: BetId, won: bool, payout: int, pnl: int, status: Status)

  datatype SettlementPlan = SettlementPlan(
    winner: OutcomeId, settled: seq<SettledBet>, totalPayout: int, totalLoserStake: int)

  /** The outcome of one bet: a winner gets stake / price, anyone else nothing. */
  function Judged(b: BetToSettle, winner: OutcomeId): SettledBet
    requires b.stake > 0
  {
    if b.outcome == winner then
      SettledBet(b.id, true, Payout(b.stake, b.price), Payout(b.stake, b.price) - b.stake, Won)
    else
      SettledBet(b.id, false, 0, -b.stake, Lost)
  }

  /** Each figure of a planned bet is what the ledger will have moved for it: its pnl through the owner's wallet,
      a loss being the whole stake. */
  lemma JudgedIsLedgered(id: BetId, bet: Bet, winner: OutcomeId)
    requires bet.stake > 0
    ensures var won := bet.outcome == winner;
      var planned := Judged(BetToSettle(id, bet.outcome, bet.stake, bet.price), winner);
      && planned.id == id && planned.won == won && planned.status == Settled(bet, won).status
      && planned.pnl == Stand(Settled(bet, won), Wallet(bet.user))
      && planned.payout == planned.pnl + bet.stake
  {
  }

  function PayoutSum(settled: seq<SettledBet>): int {
    if settled == [] then 0 else PayoutSum(settled[..|settled| - 1]) + settled[|settled| - 1].payout
  }

  function LoserStakeSum(bets: seq<BetToSettle>, winner: OutcomeId): int {
    if bets == [] then 0
    else
      var last := bets[|bets| - 1];
      LoserStakeSum(bets[..|bets| - 1], winner) + if last.outcome == winner then 0 else last.stake
  }

  /** The plan judges every bet in order and totals both flows; it raises exactly when a winner's payout
      is undefined. */
  method BuildSettlementPlan(bets: seq<BetToSettle>, winner: OutcomeId) returns (r: Result<SettlementPlan>)
    requires forall b | b in bets :: b.stake > 0
    ensures r.Err? <==> exists b | b in bets :: b.outcome == winner && !PayoutDefined(b.stake, b.price)
    ensures r.Err? ==> r.error == ValueError
    ensures r.Ok? ==>
      && r.value.winner == winner
      && |r.value.settled| == |bets|
      && (forall i | 0 <= i < |bets| :: r.value.settled[i] == Judged(bets[i], winner))
      && r.value.totalPayout == PayoutSum(r.value.settled)
      && r.value.totalLoserStake == LoserStakeSum(bets, winner)
  {
    var settled: seq<SettledBet> := [];
    var totalPayout, totalLoserStake := 0, 0;
    for i := 0 to |bets|
      invariant |settled| == i
      invariant forall j | 0 <= j < i :: settled[j] == Judged(bets[j], winner)
      invariant forall j | 0 <= j < i :: bets[j].outcome == winner ==> PayoutDefined(bets[j].stake, bets[j].price)
      invariant totalPayout == PayoutSum(settled)
      invariant totalLoserStake == LoserStakeSum(bets[..i], winner)
    {
      var bet := bets[i];
      assert bets[..i + 1][..i] == bets[..i];
      ghost var before := settled;
      if bet.outcome == winner {
        if !PayoutDefined(bet.stake, bet.price) {
          return Err(ValueError);
        }
        var payout := Payout(bet.stake, bet.price);
        totalPayout := totalPayout + payout;
        settled := settled + [SettledBet(bet.id, true, payout, payout - bet.stake, Won)];
      } else {
        totalLoserStake := totalLoserStake + bet.stake;
        settled := settled + [SettledBet(bet.id, false, 0, -bet.stake, Lost)];
      }
      assert settled[..i] == before;
    }
    assert bets[..|bets|] == bets;
    return Ok(SettlementPlan(winner, settled, totalPayout, totalLoserStake));
  }

  // ---------------------------------------------------------------------------
  // The flows of the legs derived from a plan.
  // ---------------------------------------------------------------------------

  function WalletCredits(legs: seq<Leg>): int {
    if legs == [] then 0 else (if legs[0].credit.Wallet? then legs[0].amount else 0) + WalletCredits(legs[1..])
  }

  function PoolDebits(legs: seq<Leg>): int {
    if legs == [] then 0 else (if legs[0].debit.Liability? then legs[0].amount else 0) + PoolDebits(legs[1..])
  }

  lemma {:induction false} FlowsConcat(xs: seq<Leg>, ys: seq<Leg>)
    ensures WalletCredits(xs + ys) == WalletCredits(xs) + WalletCredits(ys)
    ensures PoolDebits(xs + ys) == PoolDebits(xs) + PoolDebits(ys)
  {
    if xs == [] {
      assert xs + ys == ys;
    } else {
      assert (xs + ys)[1..] == xs[1..] + ys;
      FlowsConcat(xs[1..], ys);
    }
  }

  function ToSettle(bets: seq<Bet>, vs: seq<Verdict>): (r: seq<BetToSettle>)
    requires InRange(bets, vs)
    ensures |r| == |vs|
    ensures forall k | 0 <= k < |vs| ::
              r[k] == BetToSettle(vs[k].id, bets[vs[k].id].outcome, bets[vs[k].id].stake, bets[vs[k].id].price)
  {
    seq(|vs|, k requires 0 <= k < |vs| =>
      BetToSettle(vs[k].id, bets[vs[k].id].outcome, bets[vs[k].id].stake, bets[vs[k].id].price))
  }

  function StakeSum(bets: seq<BetToSettle>): int {
    if bets == [] then 0 else StakeSum(bets[..|bets| - 1]) + bets[|bets| - 1].stake
  }

  function JudgedAll(bets: seq<BetToSettle>, winner: OutcomeId): (r: seq<SettledBet>)
    requires forall b | b in bets :: b.stake > 0
    ensures |r| == |bets| && forall i | 0 <= i < |bets| :: r[i] == Judged(bets[i], winner)
  {
    seq(|bets|, i requires 0 <= i < |bets| => Judged(bets[i], winner))
  }

  lemma {:induction false} BatchLegsSnoc(bets: seq<Bet>, vs: seq<Verdict>, v: Verdict, dir: Pass)
    requires SoundBets(bets) && InRange(bets, vs) && v.id < |bets|
    ensures InRange(bets, vs + [v])
    ensures BatchLegs(bets, vs + [v], dir) == BatchLegs(bets, vs, dir) + TurnLegs(v, bets[v.id], dir)
  {
    var all := vs + [v];
    forall w | w in all ensures w.id < |bets| {
    }
    if vs == [] {
      assert all[1..] == [];
    } else {
      assert all[1..] == vs[1..] + [v];
      BatchLegsSnoc(bets, vs[1..], v, dir);
    }
  }

  lemma FlowsShort(legs: seq<Leg>)
    requires 1 <= |legs| <= 2
    ensures WalletCredits(legs) == (if legs[0].credit.Wallet? then legs[0].amount else 0)
      + (if |legs| == 2 && legs[1].credit.Wallet? then legs[1].amount else 0)
    ensures PoolDebits(legs) == (if legs[0].debit.Liability? then legs[0].amount else 0)
      + (if |legs| == 2 && legs[1].debit.Liability? then legs[1].amount else 0)
  {
  }

  lemma TurnFlows(v: Verdict, b: Bet)
    requires SoundBet(b) && (v.won ==> b.price > 0)
    ensures var legs := TurnLegs(v, b, Settle);
      && WalletCredits(legs) == (if v.won then Payout(b.stake, b.price) else 0)
      && Net(legs, HouseRevenue) == (if v.won then 0 else b.stake)
      && PoolDebits(legs) == b.stake
  {
    if v.won {
      PayoutCoversStake(b.stake, b.price);
    }
    var legs := TurnLegs(v, b, Settle);
    NetShort(legs, HouseRevenue);
    FlowsShort(legs);
  }

  lemma FlowsSnoc(bets: seq<Bet>, vs: seq<Verdict>, v: Verdict)
    requires SoundBets(bets) && InRange(bets, vs + [v]) && (v.won ==> bets[v.id].price > 0) && v.id < |bets|
    ensures InRange(bets, vs)
    ensures var legs, less := BatchLegs(bets, vs + [v], Settle), BatchLegs(bets, vs, Settle);
      && WalletCredits(legs) == WalletCredits(less) + (if v.won then Payout(bets[v.id].stake, bets[v.id].price) else 0)
      && Net(legs, HouseRevenue) == Net(less, HouseRevenue) + (if v.won then 0 else bets[v.id].stake)
      && PoolDebits(legs) == PoolDebits(less) + bets[v.id].stake
  {
    BatchLegsSnoc(bets, vs, v, Settle);
    TurnFlows(v, bets[v.id]);
    FlowsConcat(BatchLegs(bets, vs, Settle), TurnLegs(v, bets[v.id], Settle));
    NetConcat(BatchLegs(bets, vs, Settle), TurnLegs(v, bets[v.id], Settle), HouseRevenue);
  }

  lemma SumsSnoc(bets: seq<BetToSettle>, b: BetToSettle, winner: OutcomeId)
    requires b.stake > 0 && forall c | c in bets :: c.stake > 0
    ensures forall c | c in bets + [b] :: c.stake > 0
    ensures PayoutSum(JudgedAll(bets + [b], winner)) == PayoutSum(JudgedAll(bets, winner)) + Judged(b, winner).payout
    ensures LoserStakeSum(bets + [b], winner) ==
      LoserStakeSum(bets, winner) + if b.outcome == winner then 0 else b.stake
    ensures StakeSum(bets + [b]) == StakeSum(bets) + b.stake
  {
    var all := bets + [b];
    assert all[..|bets|] == bets;
    assert JudgedAll(all, winner)[..|bets|] == JudgedAll(bets, winner);
  }

  lemma PlanSnoc(bets: seq<Bet>, vs: seq<Verdict>, v: Verdict, winner: OutcomeId)
    requires SoundBets(bets) && InRange(bets, vs + [v]) && v.id < |bets| && v.won == (bets[v.id].outcome == winner)
    ensures InRange(bets, vs)
    ensures var plan, less := ToSettle(bets, vs + [v]), ToSettle(bets, vs);
      && PayoutSum(JudgedAll(plan, winner)) ==
           PayoutSum(JudgedAll(less, winner)) + (if v.won then Payout(bets[v.id].stake, bets[v.id].price) else 0)
      && LoserStakeSum(plan, winner) == LoserStakeSum(less, winner) + (if v.won then 0 else bets[v.id].stake)
      && StakeSum(plan) == StakeSum(less) + bets[v.id].stake
  {
    forall w | w in vs ensures w.id < |bets| {
      assert w in vs + [v];
    }
    var plan, less := ToSettle(bets, vs + [v]), ToSettle(bets, vs);
    assert plan == less + [plan[|vs|]];
    SumsSnoc(less, plan[|vs|], winner);
  }

  /** For any list of bets, the posted legs credit wallets by `total_payout` and house revenue by
      `total_loser_stake`, and take exactly the stakes out of the pools. */
  lemma {:induction false} PlanTotalsArePosted(bets: seq<Bet>, vs: seq<Verdict>, winner: OutcomeId)
    requires SoundBets(bets) && InRange(bets, vs)
    requires forall v | v in vs :: v.won == (bets[v.id].outcome == winner) && (v.won ==> bets[v.id].price > 0)
    ensures var legs, plan := BatchLegs(bets, vs, Settle), ToSettle(bets, vs);
      && WalletCredits(legs) == PayoutSum(JudgedAll(plan, winner))
      && Net(legs, HouseRevenue) == LoserStakeSum(plan, winner)
      && PoolDebits(legs) == StakeSum(plan)
  {
    if vs != [] {
      var n := |vs| - 1;
      var rest, v := vs[..n], vs[n];
      assert vs == rest + [v];
      PlanTotalsArePosted(bets, rest, winner);
      FlowsSnoc(bets, rest, v);
      PlanSnoc(bets, rest, v, winner);
    }
  }
}
