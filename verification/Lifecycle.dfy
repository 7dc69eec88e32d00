/** A bet's lifecycle: what each status is worth, and the legs that move a bet between statuses. */
module Lifecycle {
  import opened Money
  import opened Domain
  import opened Posting

  function Winnings(b: Bet): int
    requires b.stake >= 0
  {
    Payout(b.stake, b.price) - b.stake
  }

  function CashoutAt(b: Bet, exit: Price): int
    requires b.stake >= 0
  {
    Cashout(b.stake, b.price, exit)
  }

  function PositivePart(x: int): (r: int)
    ensures r >= 0
  {
    if x > 0 then x else 0
  }

  /** The closed form: what a bet in its present status has moved through account `a`, net. */
  function Stand(b: Bet, a: Account): int
    requires b.stake >= 0
  {
    match b.status
    case Pending =>
      if a == Wallet(b.user) then -b.stake else if a == Liability(b.market) then b.stake else 0
    case Won =>
      if a == Wallet(b.user) then Winnings(b) else if a == HousePromo then -Winnings(b) else 0
    case Lost =>
      if a == Wallet(b.user) then -b.stake else if a == HouseRevenue then b.stake else 0
    case Closed =>
      if b.exitOdds.None? then 0
      else
        var c := CashoutAt(b, b.exitOdds.value);
        if a == Wallet(b.user) then c - b.stake
        else if a == HousePromo then -PositivePart(c - b.stake)
        else if a == HouseRevenue then PositivePart(b.stake - c)
        else 0
  }

  /** The value bet number `i` should contribute to a gauge. */
  function Position(i: BetId, b: Bet, g: Gauge): int
    requires b.stake >= 0
  {
    match g
    case Book(a) => Stand(b, a)
    case Funded(_) => 0
    case Granted => 0
    case Plain(_) => 0
    case Tagged(j, a) => if i == j then Stand(b, a) else 0
    case HousePnl => if b.status == Lost then b.stake else if b.status == Won then -Winnings(b) else 0
  }

  /** The rows the database can hold: CHECK (stake > 0), and a close always records its exit price. */
  predicate SoundBet(b: Bet) {
    && b.stake > 0
    && (b.status == Closed <==> b.exitOdds.Some?)
    && (b.status == Closed <==> b.closedAt.Some?)
    && (b.status == Won || b.status == Closed ==> b.price > 0)
  }

  predicate SoundBets(bets: seq<Bet>) {
    forall i | 0 <= i < |bets| :: SoundBet(bets[i])
  }

  /** Sum of the positions of all bets. */
  function BookTotal(bets: seq<Bet>, g: Gauge): int
    requires SoundBets(bets)
  {
    if bets == [] then 0
    else
      var n := |bets| - 1;
      BookTotal(bets[..n], g) + Position(n, bets[n], g)
  }

  lemma {:induction false} BookTotalUpdate(bets: seq<Bet>, i: BetId, b: Bet, g: Gauge)
    requires i < |bets| && SoundBets(bets) && SoundBet(b)
    ensures SoundBets(bets[i := b])
    ensures BookTotal(bets[i := b], g) == BookTotal(bets, g) - Position(i, bets[i], g) + Position(i, b, g)
  {
    var n, after := |bets| - 1, bets[i := b];
    if i == n {
      assert after[..n] == bets[..n];
    } else {
      assert after[..n] == bets[..n][i := b];
      BookTotalUpdate(bets[..n], i, b, g);
    }
  }

  lemma BookTotalSnoc(bets: seq<Bet>, b: Bet, g: Gauge)
    requires SoundBets(bets) && SoundBet(b)
    ensures SoundBets(bets + [b])
    ensures BookTotal(bets + [b], g) == BookTotal(bets, g) + Position(|bets|, b, g)
  {
  }

  /** Only bet `i` contributes to the gauge tagged with it. */
  lemma {:induction false} BookTotalTagged(bets: seq<Bet>, i: BetId, a: Account)
    requires SoundBets(bets)
    ensures BookTotal(bets, Tagged(i, a)) == if i < |bets| then Stand(bets[i], a) else 0
  {
    if bets != [] {
      BookTotalTagged(bets[..|bets| - 1], i, a);
    }
  }

  // ---------------------------------------------------------------------------
  // The legs of each transition, as the services build their `specs` lists.
  // ---------------------------------------------------------------------------

  function PlaceLeg(i: BetId, b: Bet): Leg {
    Leg(BetPlaced, None, Wallet(b.user), Liability(b.market), b.stake, Some(i))
  }

  function SettleLegs(i: BetId, b: Bet, won: bool): seq<Leg>
    requires b.stake > 0
  {
    if won then
      [Leg(SettleStakeReturn, Some(SettleKey(i, StakeLeg)), Liability(b.market), Wallet(b.user), b.stake, Some(i))]
      + if Winnings(b) > 0 then
          [Leg(SettleWinnings, Some(SettleKey(i, WinLeg)), HousePromo, Wallet(b.user), Winnings(b), Some(i))]
        else []
    else
      [Leg(SettleLoss, Some(SettleKey(i, LossLeg)), Liability(b.market), HouseRevenue, b.stake, Some(i))]
  }

  /** The amounts are recomputed from the bet, not read back from the ledger. */
  function ReverseLegs(i: BetId, b: Bet, won: bool): seq<Leg>
    requires b.stake > 0
  {
    if won then
      [Leg(ReverseStakeReturn, Some(ReverseKey(i, StakeLeg)), Wallet(b.user), Liability(b.market), b.stake, Some(i))]
      + if Winnings(b) > 0 then
          [Leg(ReverseWinnings, Some(ReverseKey(i, WinLeg)), Wallet(b.user), HousePromo, Winnings(b), Some(i))]
        else []
    else
      [Leg(ReverseLoss, Some(ReverseKey(i, LossLeg)), HouseRevenue, Liability(b.market), b.stake, Some(i))]
  }

  function CloseLegs(i: BetId, b: Bet, exit: Price): seq<Leg>
    requires b.stake > 0
  {
    var payout := CashoutAt(b, exit);
    if payout >= b.stake then
      [Leg(CloseStakeReturn, Some(CloseKey(i, StakeLeg)), Liability(b.market), Wallet(b.user), b.stake, Some(i))]
      + if payout > b.stake then
          [Leg(CloseWinnings, Some(CloseKey(i, WinLeg)), HousePromo, Wallet(b.user), payout - b.stake, Some(i))]
        else []
    else
      (if payout > 0 then
         [Leg(CloseStakeReturn, Some(CloseKey(i, StakeLeg)), Liability(b.market), Wallet(b.user), payout, Some(i))]
       else [])
      + [Leg(CloseLoss, Some(CloseKey(i, LossLeg)), Liability(b.market), HouseRevenue, b.stake - payout, Some(i))]
  }

  function Settled(b: Bet, won: bool): Bet {
    b.(status := if won then Won else Lost)
  }

  function ClosedAt(b: Bet, exit: Price, now: Time): Bet {
    b.(status := Closed, exitOdds := Some(exit), closedAt := Some(now))
  }

  lemma ReadingOne(leg: Leg, g: Gauge)
    ensures LegsReading([leg], g) == LegReading(leg, g)
  {
  }

  lemma ReadingShort(legs: seq<Leg>, g: Gauge)
    requires 1 <= |legs| <= 2
    ensures LegsReading(legs, g) == LegReading(legs[0], g) + (if |legs| == 2 then LegReading(legs[1], g) else 0)
  {
    assert legs[1..] == if |legs| == 2 then [legs[1]] else [];
    assert |legs| == 2 ==> legs[1..][1..] == [];
  }

  /** Placing, settling, reversing and closing post exactly the difference of two closed forms. */
  lemma PlaceMoves(i: BetId, b: Bet, g: Gauge)
    requires SoundBet(b) && b.status == Pending
    ensures LegsReading([PlaceLeg(i, b)], g) == Position(i, b, g)
  {
  }

  lemma SettleMoves(i: BetId, b: Bet, won: bool, g: Gauge)
    requires SoundBet(b) && b.status == Pending && (won ==> b.price > 0)
    ensures LegsReading(SettleLegs(i, b, won), g) == Position(i, Settled(b, won), g) - Position(i, b, g)
  {
    if won {
      PayoutCoversStake(b.stake, b.price);
    }
    var legs := SettleLegs(i, b, won);
    ReadingShort(legs, g);
  }

  /** Leg by leg the reversal is the settlement with debit and credit exchanged. */
  lemma ReverseMirrorsSettle(i: BetId, b: Bet, won: bool)
    requires SoundBet(b)
    ensures |ReverseLegs(i, b, won)| == |SettleLegs(i, b, won)|
    ensures forall k | 0 <= k < |SettleLegs(i, b, won)| ::
              var s, r := SettleLegs(i, b, won)[k], ReverseLegs(i, b, won)[k];
              r.debit == s.credit && r.credit == s.debit && r.amount == s.amount
  {
  }

  lemma ReverseMoves(i: BetId, b: Bet, won: bool, g: Gauge)
    requires SoundBet(b) && b.status == (if won then Won else Lost)
    ensures LegsReading(ReverseLegs(i, b, won), g) == Position(i, b.(status := Pending), g) - Position(i, b, g)
  {
    if won {
      PayoutCoversStake(b.stake, b.price);
    }
    var legs := ReverseLegs(i, b, won);
    ReadingShort(legs, g);
  }

  lemma CloseMoves(i: BetId, b: Bet, exit: Price, now: Time, g: Gauge)
    requires SoundBet(b) && b.status == Pending && b.price > 0
    ensures LegsReading(CloseLegs(i, b, exit), g) == Position(i, ClosedAt(b, exit, now), g) - Position(i, b, g)
  {
    var legs := CloseLegs(i, b, exit);
    ReadingShort(legs, g);
  }

  lemma NetShort(legs: seq<Leg>, a: Account)
    requires 1 <= |legs| <= 2
    ensures Net(legs, a) == LegNet(legs[0], a) + (if |legs| == 2 then LegNet(legs[1], a) else 0)
  {
  }

  /** A close credits the wallet exactly the cash-out, drains exactly the stake from the pool, and
      every leg it posts has a positive amount. */
  lemma CloseLegsExact(i: BetId, b: Bet, exit: Price)
    requires SoundBet(b) && b.price > 0
    ensures forall l | l in CloseLegs(i, b, exit) :: l.amount > 0
    ensures Net(CloseLegs(i, b, exit), Wallet(b.user)) == CashoutAt(b, exit)
    ensures Net(CloseLegs(i, b, exit), Liability(b.market)) == -b.stake
    ensures Net(CloseLegs(i, b, exit), HousePromo) == -PositivePart(CashoutAt(b, exit) - b.stake)
    ensures Net(CloseLegs(i, b, exit), HouseRevenue) == PositivePart(b.stake - CashoutAt(b, exit))
  {
    var legs := CloseLegs(i, b, exit);
    forall a ensures Net(legs, a) == LegNet(legs[0], a) + (if |legs| == 2 then LegNet(legs[1], a) else 0) {
      NetShort(legs, a);
    }
  }

  // ---------------------------------------------------------------------------
  // Batches: a settlement or a reversal works through a list of (bet, side) pairs.
  // ---------------------------------------------------------------------------

  datatype Verdict = Verdict(id: BetId, won: bool)

  datatype Pass = Settle | Reverse

  function SideOf(won: bool): Status {
    if won then Won else Lost
  }

  /** The leg that every settlement (and reversal) of this side posts. */
  function MainLeg(won: bool): LegName {
    if won then StakeLeg else LossLeg
  }

  function TurnLegs(v: Verdict, b: Bet, dir: Pass): seq<Leg>
    requires b.stake > 0
  {
    if dir == Settle then SettleLegs(v.id, b, v.won) else ReverseLegs(v.id, b, v.won)
  }

  function Turned(v: Verdict, b: Bet, dir: Pass): Bet {
    b.(status := if dir == Settle then SideOf(v.won) else Pending)
  }

  predicate Distinct(vs: seq<Verdict>) {
    forall i, j | 0 <= i < j < |vs| :: vs[i].id != vs[j].id
  }

  predicate InRange(bets: seq<Bet>, vs: seq<Verdict>) {
    forall v | v in vs :: v.id < |bets|
  }

  function BatchLegs(bets: seq<Bet>, vs: seq<Verdict>, dir: Pass): seq<Leg>
    requires SoundBets(bets) && InRange(bets, vs)
  {
    if vs == [] then []
    else TurnLegs(vs[0], bets[vs[0].id], dir) + BatchLegs(bets, vs[1..], dir)
  }

  function BatchBets(bets: seq<Bet>, vs: seq<Verdict>, dir: Pass): (r: seq<Bet>)
    requires InRange(bets, vs)
    ensures |r| == |bets|
    decreases vs
  {
    if vs == [] then bets
    else BatchBets(bets[vs[0].id := Turned(vs[0], bets[vs[0].id], dir)], vs[1..], dir)
  }

  /** The rows are in the status the batch starts from, and no winner has price 0. */
  predicate Ready(bets: seq<Bet>, vs: seq<Verdict>, dir: Pass)
    requires InRange(bets, vs)
  {
    forall v | v in vs ::
      && bets[v.id].status == (if dir == Settle then Pending else SideOf(v.won))
      && (v.won ==> bets[v.id].price > 0)
  }

  lemma DistinctTail(vs: seq<Verdict>)
    requires Distinct(vs) && vs != []
    ensures Distinct(vs[1..])
    ensures forall v | v in vs[1..] :: v.id != vs[0].id && v in vs
  {
  }

  /** A batch changes only the status of its own bets, each to the status it asks for. */
  lemma {:induction false} BatchBetsAt(bets: seq<Bet>, vs: seq<Verdict>, dir: Pass)
    requires InRange(bets, vs) && Distinct(vs)
    ensures forall v | v in vs :: BatchBets(bets, vs, dir)[v.id] == Turned(v, bets[v.id], dir)
    ensures forall i | 0 <= i < |bets| && (forall v | v in vs :: v.id != i) ::
              BatchBets(bets, vs, dir)[i] == bets[i]
    decreases vs
  {
    if vs != [] {
      DistinctTail(vs);
      var step := bets[vs[0].id := Turned(vs[0], bets[vs[0].id], dir)];
      BatchBetsAt(step, vs[1..], dir);
      assert vs == [vs[0]] + vs[1..];
    }
  }

  /** What placement locked. */
  predicate SameBet(x: Bet, y: Bet) {
    x.user == y.user && x.market == y.market && x.outcome == y.outcome && x.stake == y.stake && x.price == y.price
  }

  /** Legs depend only on what placement locked, so flipping bets first changes none. */
  lemma {:induction false} BatchLegsFrame(bets: seq<Bet>, after: seq<Bet>, vs: seq<Verdict>, dir: Pass)
    requires SoundBets(bets) && SoundBets(after) && InRange(bets, vs) && |after| >= |bets|
    requires forall v | v in vs :: SameBet(after[v.id], bets[v.id])
    ensures BatchLegs(after, vs, dir) == BatchLegs(bets, vs, dir)
  {
    if vs != [] {
      BatchLegsFrame(bets, after, vs[1..], dir);
    }
  }

  lemma TurnMoves(v: Verdict, b: Bet, dir: Pass, g: Gauge)
    requires SoundBet(b) && (v.won ==> b.price > 0)
    requires b.status == (if dir == Settle then Pending else SideOf(v.won))
    ensures SoundBet(Turned(v, b, dir))
    ensures LegsReading(TurnLegs(v, b, dir), g) == Position(v.id, Turned(v, b, dir), g) - Position(v.id, b, g)
  {
    if dir == Settle {
      SettleMoves(v.id, b, v.won, g);
    } else {
      ReverseMoves(v.id, b, v.won, g);
    }
  }

  /** A whole batch posts exactly the difference of the closed forms, on every gauge. */
  lemma {:induction false} BatchMoves(bets: seq<Bet>, vs: seq<Verdict>, dir: Pass, g: Gauge)
    requires SoundBets(bets) && InRange(bets, vs) && Distinct(vs) && Ready(bets, vs, dir)
    ensures SoundBets(BatchBets(bets, vs, dir))
    ensures LegsReading(BatchLegs(bets, vs, dir), g) == BookTotal(BatchBets(bets, vs, dir), g) - BookTotal(bets, g)
    decreases vs
  {
    if vs != [] {
      var v, rest := vs[0], vs[1..];
      var step := bets[v.id := Turned(v, bets[v.id], dir)];
      DistinctTail(vs);
      TurnMoves(v, bets[v.id], dir, g);
      BookTotalUpdate(bets, v.id, Turned(v, bets[v.id], dir), g);
      BatchMoves(step, rest, dir, g);
      BatchLegsFrame(bets, step, rest, dir);
      ReadingConcat(TurnLegs(v, bets[v.id], dir), BatchLegs(bets, rest, dir), g);
    }
  }

  /** Without any assumption on statuses: reversal legs are the negation of settlement legs on every account. */
  lemma {:induction false} ReversalNegatesSettlement(bets: seq<Bet>, vs: seq<Verdict>, a: Account)
    requires SoundBets(bets) && InRange(bets, vs)
    ensures Net(BatchLegs(bets, vs, Reverse), a) == -Net(BatchLegs(bets, vs, Settle), a)
  {
    if vs != [] {
      var v, b := vs[0], bets[vs[0].id];
      var s, r := SettleLegs(v.id, b, v.won), ReverseLegs(v.id, b, v.won);
      assert s[1..] == (if |s| == 2 then [s[1]] else []) && r[1..] == (if |s| == 2 then [r[1]] else []);
      ReversalNegatesSettlement(bets, vs[1..], a);
      NetConcat(s, BatchLegs(bets, vs[1..], Settle), a);
      NetConcat(r, BatchLegs(bets, vs[1..], Reverse), a);
    }
  }

  // ---------------------------------------------------------------------------
  // The keys and the shape of a batch's legs.
  // ---------------------------------------------------------------------------

  /** The leg names that settling (or reversing) `b` on side `won` uses. */
  predicate UsesLeg(b: Bet, won: bool, leg: LegName)
    requires b.stake > 0
  {
    if won then leg == StakeLeg || (leg == WinLeg && Winnings(b) > 0) else leg == LossLeg
  }

  function TurnKey(dir: Pass, i: BetId, leg: LegName): Key {
    if dir == Settle then SettleKey(i, leg) else ReverseKey(i, leg)
  }

  /** What every leg of a batch looks like. */
  ghost predicate BatchShape(bets: seq<Bet>, vs: seq<Verdict>, dir: Pass, l: Leg)
    requires SoundBets(bets) && InRange(bets, vs)
  {
    exists v, name | v in vs ::
      && UsesLeg(bets[v.id], v.won, name)
      && l.key == Some(TurnKey(dir, v.id, name))
      && l.bet == Some(v.id)
      && l.amount > 0
      && var pool := if name == WinLeg then HousePromo else Liability(bets[v.id].market);
         var other := if v.won then Wallet(bets[v.id].user) else HouseRevenue;
         if dir == Settle then l.debit == pool && l.credit == other else l.debit == other && l.credit == pool
  }

  lemma {:induction false} BatchShapes(bets: seq<Bet>, vs: seq<Verdict>, dir: Pass)
    requires SoundBets(bets) && InRange(bets, vs)
    ensures forall l | l in BatchLegs(bets, vs, dir) :: BatchShape(bets, vs, dir, l)
    ensures forall v, name | v in vs && UsesLeg(bets[v.id], v.won, name) ::
              TurnKey(dir, v.id, name) in LegKeys(BatchLegs(bets, vs, dir))
  {
    if vs != [] {
      var v, rest := vs[0], vs[1..];
      var b := bets[v.id];
      var first, more := TurnLegs(v, b, dir), BatchLegs(bets, rest, dir);
      assert vs == [v] + rest;
      BatchShapes(bets, rest, dir);
      LegKeysConcat(first, more);
      forall l | l in first + more ensures BatchShape(bets, vs, dir, l) {
        if l in first {
          var name := if l == first[0] then MainLeg(v.won) else WinLeg;
          assert UsesLeg(b, v.won, name);
        } else {
          assert BatchShape(bets, rest, dir, l);
        }
      }
      forall w, name | w in vs && UsesLeg(bets[w.id], w.won, name)
        ensures TurnKey(dir, w.id, name) in LegKeys(first + more)
      {
        if w == v {
          var l := if name == WinLeg then first[1] else first[0];
          assert l in first && l.key == Some(TurnKey(dir, v.id, name));
        }
      }
    }
  }

  lemma {:induction false} BatchKinds(bets: seq<Bet>, vs: seq<Verdict>, dir: Pass)
    requires SoundBets(bets) && InRange(bets, vs)
    ensures forall l | l in BatchLegs(bets, vs, dir) :: IsBetKind(l.kind)
  {
    if vs != [] {
      BatchKinds(bets, vs[1..], dir);
    }
  }

  /** The keys of a batch, both ways. */
  lemma BatchKeys(bets: seq<Bet>, vs: seq<Verdict>, dir: Pass)
    requires SoundBets(bets) && InRange(bets, vs)
    ensures forall k :: k in LegKeys(BatchLegs(bets, vs, dir)) <==>
              exists v, name | v in vs :: UsesLeg(bets[v.id], v.won, name) && k == TurnKey(dir, v.id, name)
  {
    BatchShapes(bets, vs, dir);
    var legs := BatchLegs(bets, vs, dir);
    forall k | k in LegKeys(legs)
      ensures exists v, name | v in vs :: UsesLeg(bets[v.id], v.won, name) && k == TurnKey(dir, v.id, name)
    {
      var l :| l in legs && l.key == Some(k);
      assert BatchShape(bets, vs, dir, l);
    }
  }

  lemma TurnKeys(v: Verdict, b: Bet, dir: Pass)
    requires b.stake > 0
    ensures |TurnLegs(v, b, dir)| <= 2
    ensures forall l | l in TurnLegs(v, b, dir) :: exists name :: l.key == Some(TurnKey(dir, v.id, name))
  {
    forall l | l in TurnLegs(v, b, dir) ensures exists name :: l.key == Some(TurnKey(dir, v.id, name)) {
      var name := if l.key == Some(TurnKey(dir, v.id, MainLeg(v.won))) then MainLeg(v.won) else WinLeg;
      assert l.key == Some(TurnKey(dir, v.id, name));
    }
  }

  /** Over distinct bets, no key is used twice within the batch. */
  lemma {:induction false} BatchKeysDistinct(bets: seq<Bet>, vs: seq<Verdict>, dir: Pass)
    requires SoundBets(bets) && InRange(bets, vs) && Distinct(vs)
    ensures KeysApart(BatchLegs(bets, vs, dir))
  {
    if vs != [] {
      var v, rest := vs[0], vs[1..];
      var first, more := TurnLegs(v, bets[v.id], dir), BatchLegs(bets, rest, dir);
      DistinctTail(vs);
      BatchKeysDistinct(bets, rest, dir);
      BatchShapes(bets, rest, dir);
      TurnKeys(v, bets[v.id], dir);
      var legs := first + more;
      forall i, j | 0 <= i < j < |legs| && legs[i].key.Some? ensures legs[i].key != legs[j].key {
        if i < |first| <= j {
          assert legs[j] == more[j - |first|] && legs[i] == first[i];
          assert BatchShape(bets, rest, dir, more[j - |first|]);
          var w, name :| w in rest && UsesLeg(bets[w.id], w.won, name)
            && more[j - |first|].key == Some(TurnKey(dir, w.id, name));
          assert w.id != v.id;
        } else if |first| <= i {
          assert legs[i] == more[i - |first|] && legs[j] == more[j - |first|];
        } else {
          assert legs[i] == first[0] && legs[j] == first[1];
        }
      }
    }
  }

  /** One settlement pass never both debits and credits an account; nor does one reversal pass. */
  lemma BatchOneSided(bets: seq<Bet>, vs: seq<Verdict>, dir: Pass)
    requires SoundBets(bets) && InRange(bets, vs)
    ensures OneSided(BatchLegs(bets, vs, dir))
  {
    BatchShapes(bets, vs, dir);
    var legs := BatchLegs(bets, vs, dir);
    forall i, j | 0 <= i < |legs| && 0 <= j < |legs| ensures legs[i].debit != legs[j].credit {
      assert BatchShape(bets, vs, dir, legs[i]) && BatchShape(bets, vs, dir, legs[j]);
    }
  }
}
