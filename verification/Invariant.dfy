/** The invariant of the money engine, and that every unit of work keeps it. */
module Invariant {
  import opened Money
  import opened Domain
  import opened Posting
  import opened Lifecycle
  import opened Transactions

  /** The journal and the bets table agree on every gauge that bets move. */
  ghost predicate Agrees(entries: seq<Entry>, bets: seq<Bet>)
    requires SoundBets(bets)
  {
    forall g: Gauge :: BetGauge(g) ==> Total(entries, g) == BookTotal(bets, g)
  }

  /** Opening plus everything the entries moved. */
  ghost function Ledger(entries: seq<Entry>, a: Account): int {
    Opening(a) + Total(entries, Funded(a)) + Total(entries, Plain(a)) + Total(entries, Book(a))
  }

  /** Every cached balance is its opening plus what the entries moved. */
  ghost predicate Cached(b: Books) {
    forall a: Account :: Balance(b, a) == Ledger(b.entries, a)
  }

  /** Recharges and bonuses are paid by the promo account, and to wallets only. */
  ghost predicate FundedByPromo(entries: seq<Entry>) {
    && (forall a: Account :: a.Liability? || a.HouseRevenue? ==> Total(entries, Funded(a)) == 0)
    && Total(entries, Funded(HousePromo)) == -Total(entries, Granted)
  }

  ghost predicate NonNegative(b: Books) {
    forall a | a in b.accounts :: b.accounts[a].balance >= 0
  }

  ghost predicate Housed(b: Books) {
    && HousePromo in b.accounts && HouseRevenue in b.accounts
    && forall i | 0 <= i < |b.bets| ::
         Wallet(b.bets[i].user) in b.accounts && Liability(b.bets[i].market) in b.accounts
  }

  /** The settle, reverse and close keys used for bet `i` tell its history. */
  ghost predicate BetKeys(i: BetId, b: Bet, used: set<Key>)
    requires b.stake > 0
  {
    // on each side: settled and not reversed is exactly being in that status now
    && (forall won ::
         SettleKey(i, MainLeg(won)) in used && ReverseKey(i, MainLeg(won)) !in used <==> b.status == SideOf(won))
    && (forall leg :: ReverseKey(i, leg) in used ==> SettleKey(i, leg) in used)
    && (SettleKey(i, WinLeg) in used <==> SettleKey(i, StakeLeg) in used && Winnings(b) > 0)
    && (ReverseKey(i, WinLeg) in used <==> ReverseKey(i, StakeLeg) in used && Winnings(b) > 0)
    && (forall leg :: CloseKey(i, leg) in used ==> b.status == Closed)
  }

  function BetOf(k: Key): Option<BetId> {
    match k
    case SettleKey(i, _) => Some(i)
    case ReverseKey(i, _) => Some(i)
    case CloseKey(i, _) => Some(i)
    case _ => None
  }

  ghost predicate KeyDiscipline(bets: seq<Bet>, used: set<Key>)
    requires SoundBets(bets)
  {
    && (forall i | 0 <= i < |bets| :: BetKeys(i, bets[i], used))
    && (forall k | k in used && BetOf(k).Some? :: BetOf(k).value < |bets|)
  }

  ghost predicate Valid(b: Books) {
    && SoundBets(b.bets)
    && Housed(b)
    && NonNegative(b)
    && Cached(b)
    && FundedByPromo(b.entries)
    && Agrees(b.entries, b.bets)
    && UniqueKeys(b.transfers)
    && KeyDiscipline(b.bets, KeysOf(b.transfers))
  }

  /** The ledger is append-only, bets are never deleted, and what placement locked never changes. */
  ghost predicate Extends(before: Books, after: Books) {
    && before.transfers <= after.transfers
    && before.entries <= after.entries
    && before.accounts.Keys <= after.accounts.Keys
    && |before.bets| <= |after.bets|
    && forall i | 0 <= i < |before.bets| :: SameBet(before.bets[i], after.bets[i])
  }

  lemma ExtendsTransitive(x: Books, y: Books, z: Books)
    requires Extends(x, y) && Extends(y, z)
    ensures Extends(x, z)
  {
  }

  lemma SeededIsValid()
    ensures Valid(Seeded())
  {
  }

  lemma WithAccountKeepsValid(b: Books, a: Account)
    requires Valid(b)
    ensures Valid(WithAccount(b, a)) && Extends(b, WithAccount(b, a))
    ensures forall c :: Balance(WithAccount(b, a), c) == Balance(b, c)
  {
  }

  // ---------------------------------------------------------------------------
  // Transfers that no bet is behind.
  // ---------------------------------------------------------------------------

  predicate OutsideLeg(leg: Leg) {
    && !IsBetKind(leg.kind) && leg.bet.None?
    && (leg.key.Some? ==> BetOf(leg.key.value).None?)
    && (IsFunding(leg.kind) ==> leg.debit == HousePromo && leg.credit.Wallet?)
  }

  lemma OutsideLegKeepsValid(b: Books, leg: Leg, ctx: Context)
    requires Valid(b) && OutsideLeg(leg)
    requires PostLeg(b, leg, ctx).Ok?
    ensures Valid(PostLeg(b, leg, ctx).value) && Extends(b, PostLeg(b, leg, ctx).value)
  {
    var after := PostLeg(b, leg, ctx).value;
    PostOne(b, leg, ctx);
    PostAllEffect(b, [leg], ctx);
    OutsideReadings(leg);
    forall g: Gauge | BetGauge(g) ensures Total(after.entries, g) == BookTotal(after.bets, g) {
      ReadingOne(leg, g);
    }
    PostedKeepsCached(b, [leg], after);
    KeysFrame(b.bets, KeysOf(b.transfers), LegKeys([leg]));
  }

  lemma OutsideReadings(leg: Leg)
    requires OutsideLeg(leg)
    ensures forall g | BetGauge(g) :: LegReading(leg, g) == 0
    ensures forall a: Account | a.Liability? || a.HouseRevenue? :: LegsReading([leg], Funded(a)) == 0
    ensures LegsReading([leg], Funded(HousePromo)) == -LegsReading([leg], Granted)
  {
  }

  lemma PostedKeepsCached(b: Books, legs: seq<Leg>, after: Books)
    requires Cached(b) && Posted(b, legs, after)
    ensures Cached(after)
  {
    forall a: Account ensures Balance(after, a) == Ledger(after.entries, a) {
      NetIsReading(legs, a);
    }
  }

  lemma {:induction false} NoFundingReading(legs: seq<Leg>, a: Account)
    requires forall l | l in legs :: IsBetKind(l.kind)
    ensures LegsReading(legs, Funded(a)) == 0 && LegsReading(legs, Plain(a)) == 0 && LegsReading(legs, Granted) == 0
  {
    if legs != [] {
      NoFundingReading(legs[1..], a);
    }
  }

  lemma BetLegsFundNothing(b: Books, legs: seq<Leg>, after: Books)
    requires Posted(b, legs, after) && forall l | l in legs :: IsBetKind(l.kind)
    ensures forall a :: Total(after.entries, Funded(a)) == Total(b.entries, Funded(a))
    ensures forall a :: Total(after.entries, Plain(a)) == Total(b.entries, Plain(a))
    ensures Total(after.entries, Granted) == Total(b.entries, Granted)
  {
    NoFundingReading(legs, HousePromo);
    forall a: Account
      ensures Total(after.entries, Funded(a)) == Total(b.entries, Funded(a))
      ensures Total(after.entries, Plain(a)) == Total(b.entries, Plain(a))
    {
      NoFundingReading(legs, a);
    }
  }

  /** The money half of the invariant, for every unit of work that moves bets: it is enough that its
      legs read as the difference of the closed forms. */
  lemma MovingBetsKeepsMoney(b: Books, legs: seq<Leg>, posted: Books, bets: seq<Bet>)
    requires Valid(b) && Posted(b, legs, posted) && SoundBets(bets)
    requires forall l | l in legs :: IsBetKind(l.kind)
    requires forall g: Gauge | BetGauge(g) :: BookTotal(bets, g) == BookTotal(b.bets, g) + LegsReading(legs, g)
    ensures var after := posted.(bets := bets);
            && NonNegative(after) && Cached(after) && FundedByPromo(after.entries)
            && Agrees(after.entries, bets) && UniqueKeys(after.transfers)
  {
    PostedKeepsCached(b, legs, posted);
    BetLegsFundNothing(b, legs, posted);
    var after := posted.(bets := bets);
    assert Cached(after) by {
      forall a: Account ensures Balance(after, a) == Ledger(after.entries, a) {
        assert Balance(after, a) == Balance(posted, a);
      }
    }
  }

  /** Keys about no bet change nothing in the discipline. */
  lemma KeysFrame(bets: seq<Bet>, used: set<Key>, extra: set<Key>)
    requires SoundBets(bets) && KeyDiscipline(bets, used)
    requires forall k | k in extra :: BetOf(k).None?
    ensures KeyDiscipline(bets, used + extra)
  {
  }

  /** Only the keys about bet `i` matter to it. */
  lemma BetKeysFrame(i: BetId, b: Bet, used: set<Key>, more: set<Key>)
    requires b.stake > 0 && BetKeys(i, b, used)
    requires forall k | BetOf(k) == Some(i) :: k in more <==> k in used
    ensures BetKeys(i, b, more)
  {
  }

  // ---------------------------------------------------------------------------
  // Placement.
  // ---------------------------------------------------------------------------

  lemma InsertBetKeepsValid(b: Books, bet: Bet, now: Time)
    requires Valid(b) && SoundBet(bet) && bet.status == Pending
    requires Liability(bet.market) in b.accounts
    requires InsertBet(b, bet, now).Ok?
    ensures Valid(InsertBet(b, bet, now).value) && Extends(b, InsertBet(b, bet, now).value)
  {
    var i, ctx := |b.bets|, Context(Some(bet.user), now);
    var leg := PlaceLeg(i, bet);
    var posted := PostLeg(b, leg, ctx).value;
    PostOne(b, leg, ctx);
    PostAllEffect(b, [leg], ctx);
    NoKeysAdded(b.bets, bet, KeysOf(b.transfers));
    forall g: Gauge | BetGauge(g)
      ensures BookTotal(b.bets + [bet], g) == BookTotal(b.bets, g) + LegsReading([leg], g)
    {
      PlaceMoves(i, bet, g);
      BookTotalSnoc(b.bets, bet, g);
    }
    MovingBetsKeepsMoney(b, [leg], posted, b.bets + [bet]);
    assert KeysOf(posted.transfers) == KeysOf(b.transfers);
  }

  /** A new bet has no keys, as no key is about an id not given out yet. */
  lemma NoKeysAdded(bets: seq<Bet>, bet: Bet, used: set<Key>)
    requires SoundBets(bets) && SoundBet(bet) && bet.status == Pending
    requires KeyDiscipline(bets, used)
    ensures SoundBets(bets + [bet]) && KeyDiscipline(bets + [bet], used)
  {
  }

  // ---------------------------------------------------------------------------
  // Early close.
  // ---------------------------------------------------------------------------

  lemma CloseKeysShape(i: BetId, b: Bet, exit: Price, k: Key)
    requires b.stake > 0 && k in LegKeys(CloseLegs(i, b, exit))
    ensures k.CloseKey? && k.bet == i
  {
  }

  lemma CloseKinds(i: BetId, b: Bet, exit: Price)
    requires b.stake > 0
    ensures forall l | l in CloseLegs(i, b, exit) :: IsBetKind(l.kind)
  {
  }

  lemma CloseKeepsValid(b: Books, id: BetId, exit: Price, now: Time)
    requires Valid(b) && id < |b.bets| && b.bets[id].status == Pending && b.bets[id].price > 0
    requires CloseBet(b, id, exit, now).Ok?
    ensures Valid(CloseBet(b, id, exit, now).value) && Extends(b, CloseBet(b, id, exit, now).value)
  {
    var bet := b.bets[id];
    var legs, closed, ctx := CloseLegs(id, bet, exit), ClosedAt(bet, exit, now), Context(Some(bet.user), now);
    var posted, bets := PostAll(b, legs, ctx).value, b.bets[id := closed];
    PostAllEffect(b, legs, ctx);
    CloseKinds(id, bet, exit);
    CloseKeepsKeys(b.bets, id, exit, now, KeysOf(b.transfers));
    forall g: Gauge | BetGauge(g) ensures BookTotal(bets, g) == BookTotal(b.bets, g) + LegsReading(legs, g) {
      CloseMoves(id, bet, exit, now, g);
      BookTotalUpdate(b.bets, id, closed, g);
    }
    MovingBetsKeepsMoney(b, legs, posted, bets);
  }

  lemma SellKeepsValid(b: Books, id: BetId, user: UserId, view: Option<MarketView>, now: Time)
    requires Valid(b)
    requires SellPosition(b, id, user, view, now).Ok?
    ensures Valid(SellPosition(b, id, user, view, now).value)
    ensures Extends(b, SellPosition(b, id, user, view, now).value)
  {
    CloseKeepsValid(b, id, CloseQuote(b.bets[id], view, now).value, now);
  }

  lemma CloseKeepsKeys(bets: seq<Bet>, id: BetId, exit: Price, now: Time, used: set<Key>)
    requires SoundBets(bets) && KeyDiscipline(bets, used)
    requires id < |bets| && bets[id].status == Pending && bets[id].price > 0
    ensures var after := bets[id := ClosedAt(bets[id], exit, now)];
            SoundBets(after) && KeyDiscipline(after, used + LegKeys(CloseLegs(id, bets[id], exit)))
  {
    var after, extra := bets[id := ClosedAt(bets[id], exit, now)], LegKeys(CloseLegs(id, bets[id], exit));
    forall k | k in extra ensures k.CloseKey? && k.bet == id {
      CloseKeysShape(id, bets[id], exit, k);
    }
    forall i | 0 <= i < |after| ensures BetKeys(i, after[i], used + extra) {
      if i != id {
        BetKeysFrame(i, bets[i], used, used + extra);
      } else {
        assert BetKeys(i, bets[i], used);
      }
    }
  }

  // ---------------------------------------------------------------------------
  // Settlement and reversal.
  // ---------------------------------------------------------------------------

  /** What a resolution may hold: bets that are pending (their rows are locked). */
  ghost predicate Resolvable(b: Books, vs: seq<Verdict>) {
    && InRange(b.bets, vs) && Distinct(vs)
    && forall v | v in vs :: b.bets[v.id].status == Pending
  }

  /** What a reversal may hold: it reads the settled bets without locking them, so meanwhile another
      reversal may have taken a bet out of the side it was seen on. */
  ghost predicate Reversible(b: Books, vs: seq<Verdict>) {
    && InRange(b.bets, vs) && Distinct(vs)
    && forall v | v in vs ::
         b.bets[v.id].status == SideOf(v.won) || ReverseKey(v.id, MainLeg(v.won)) in KeysOf(b.transfers)
  }

  /** A reversal that read any bet before another reversal reopened it runs into the other's key. */
  lemma StaleReversalFails(b: Books, vs: seq<Verdict>, ctx: Context)
    requires Valid(b) && Reversible(b, vs)
    requires exists v :: v in vs && b.bets[v.id].status != SideOf(v.won)
    ensures RunPass(b, vs, Reverse, ctx).Err?
  {
    if RunPass(b, vs, Reverse, ctx).Ok? {
      var v :| v in vs && b.bets[v.id].status != SideOf(v.won);
      BatchShapes(b.bets, vs, Reverse);
      PostAllEffect(b, BatchLegs(b.bets, vs, Reverse), ctx);
      assert UsesLeg(b.bets[v.id], v.won, MainLeg(v.won));
    }
  }

  lemma PassIsReady(b: Books, vs: seq<Verdict>, dir: Pass, ctx: Context)
    requires Valid(b)
    requires if dir == Settle then Resolvable(b, vs) else Reversible(b, vs)
    requires RunPass(b, vs, dir, ctx).Ok?
    ensures Ready(b.bets, vs, dir)
  {
    if dir == Reverse && exists v :: v in vs && b.bets[v.id].status != SideOf(v.won) {
      StaleReversalFails(b, vs, ctx);
    }
  }

  lemma HeldBetKeys(bets: seq<Bet>, vs: seq<Verdict>, dir: Pass, used: set<Key>, v: Verdict)
    requires SoundBets(bets) && InRange(bets, vs) && Distinct(vs) && Ready(bets, vs, dir)
    requires KeyDiscipline(bets, used) && v in vs
    requires LegKeys(BatchLegs(bets, vs, dir)) !! used
    ensures BetKeys(v.id, Turned(v, bets[v.id], dir), used + LegKeys(BatchLegs(bets, vs, dir)))
  {
    PassKeysOf(bets, vs, dir, v.id);
    forall leg | UsesLeg(bets[v.id], v.won, leg) ensures TurnKey(dir, v.id, leg) !in used {
      assert BetOf(TurnKey(dir, v.id, leg)) == Some(v.id);
      assert TurnKey(dir, v.id, leg) in LegKeys(BatchLegs(bets, vs, dir));
    }
    TurnKeepsKeys(v, bets[v.id], dir, used, used + LegKeys(BatchLegs(bets, vs, dir)));
  }

  lemma OtherBetKeys(bets: seq<Bet>, vs: seq<Verdict>, dir: Pass, used: set<Key>, i: BetId)
    requires SoundBets(bets) && InRange(bets, vs) && Distinct(vs) && i < |bets|
    requires KeyDiscipline(bets, used) && forall v | v in vs :: v.id != i
    ensures BetKeys(i, bets[i], used + LegKeys(BatchLegs(bets, vs, dir)))
  {
    PassKeysOf(bets, vs, dir, i);
    BetKeysFrame(i, bets[i], used, used + LegKeys(BatchLegs(bets, vs, dir)));
  }

  /** Keys of the bets before and after a pass. */
  lemma PassKeys(bets: seq<Bet>, vs: seq<Verdict>, dir: Pass, used: set<Key>)
    requires SoundBets(bets) && InRange(bets, vs) && Distinct(vs) && Ready(bets, vs, dir)
    requires KeyDiscipline(bets, used)
    requires LegKeys(BatchLegs(bets, vs, dir)) !! used
    requires SoundBets(BatchBets(bets, vs, dir))
    ensures KeyDiscipline(BatchBets(bets, vs, dir), used + LegKeys(BatchLegs(bets, vs, dir)))
  {
    var more, after := used + LegKeys(BatchLegs(bets, vs, dir)), BatchBets(bets, vs, dir);
    BatchBetsAt(bets, vs, dir);
    forall i | 0 <= i < |after| ensures BetKeys(i, after[i], more) {
      if v :| v in vs && v.id == i {
        HeldBetKeys(bets, vs, dir, used, v);
      } else {
        OtherBetKeys(bets, vs, dir, used, i);
      }
    }
    PassKeysInRange(bets, vs, dir);
  }

  lemma PassKeysInRange(bets: seq<Bet>, vs: seq<Verdict>, dir: Pass)
    requires SoundBets(bets) && InRange(bets, vs)
    ensures forall k | k in LegKeys(BatchLegs(bets, vs, dir)) && BetOf(k).Some? :: BetOf(k).value < |bets|
  {
  }

  /** The keys of a pass that are about bet `i`. */
  lemma PassKeysOf(bets: seq<Bet>, vs: seq<Verdict>, dir: Pass, i: BetId)
    requires SoundBets(bets) && InRange(bets, vs) && Distinct(vs) && i < |bets|
    ensures forall v | v in vs && v.id == i :: forall k | BetOf(k) == Some(i) ::
              k in LegKeys(BatchLegs(bets, vs, dir)) <==>
                exists leg :: UsesLeg(bets[i], v.won, leg) && k == TurnKey(dir, i, leg)
    ensures (forall v | v in vs :: v.id != i) ==>
              forall k | BetOf(k) == Some(i) :: k !in LegKeys(BatchLegs(bets, vs, dir))
  {
    BatchKeys(bets, vs, dir);
    forall v, k | v in vs && v.id == i && BetOf(k) == Some(i)
      ensures k in LegKeys(BatchLegs(bets, vs, dir)) <==>
        exists leg :: UsesLeg(bets[i], v.won, leg) && k == TurnKey(dir, i, leg)
    {
      assert forall w | w in vs && w.id == i :: w == v;
    }
  }

  /** One bet: its own new keys are those of the legs it posts, and they were all unused. */
  lemma TurnKeepsKeys(v: Verdict, b: Bet, dir: Pass, used: set<Key>, more: set<Key>)
    requires SoundBet(b) && BetKeys(v.id, b, used)
    requires b.status == (if dir == Settle then Pending else SideOf(v.won))
    requires forall k | BetOf(k) == Some(v.id) ::
      k in more <==> k in used || exists leg :: UsesLeg(b, v.won, leg) && k == TurnKey(dir, v.id, leg)
    requires forall leg | UsesLeg(b, v.won, leg) :: TurnKey(dir, v.id, leg) !in used
    ensures BetKeys(v.id, Turned(v, b, dir), more)
  {
    var i := v.id;
    forall leg
      ensures SettleKey(i, leg) in more <==> SettleKey(i, leg) in used || (dir == Settle && UsesLeg(b, v.won, leg))
    {
      assert BetOf(SettleKey(i, leg)) == Some(i);
      if dir == Settle && UsesLeg(b, v.won, leg) {
        assert SettleKey(i, leg) == TurnKey(dir, i, leg);
      }
    }
    forall leg
      ensures ReverseKey(i, leg) in more <==> ReverseKey(i, leg) in used || (dir == Reverse && UsesLeg(b, v.won, leg))
    {
      assert BetOf(ReverseKey(i, leg)) == Some(i);
      if dir == Reverse && UsesLeg(b, v.won, leg) {
        assert ReverseKey(i, leg) == TurnKey(dir, i, leg);
      }
    }
    forall leg ensures CloseKey(i, leg) in more <==> CloseKey(i, leg) in used {
      assert BetOf(CloseKey(i, leg)) == Some(i);
    }
    var main, other := MainLeg(v.won), MainLeg(!v.won);
    assert UsesLeg(b, v.won, main) && !UsesLeg(b, v.won, other);
    assert TurnKey(dir, i, main) !in used;
    assert SettleKey(i, main) in used && ReverseKey(i, main) !in used <==> b.status == SideOf(v.won);
    assert SettleKey(i, other) in used && ReverseKey(i, other) !in used <==> b.status == SideOf(!v.won);
    forall won
      ensures SettleKey(i, MainLeg(won)) in more && ReverseKey(i, MainLeg(won)) !in more <==>
        Turned(v, b, dir).status == SideOf(won)
    {
      assert MainLeg(won) == if won == v.won then main else other;
    }
  }

  lemma PassKeepsValid(b: Books, vs: seq<Verdict>, dir: Pass, ctx: Context)
    requires Valid(b)
    requires if dir == Settle then Resolvable(b, vs) else Reversible(b, vs)
    requires RunPass(b, vs, dir, ctx).Ok?
    ensures Valid(RunPass(b, vs, dir, ctx).value) && Extends(b, RunPass(b, vs, dir, ctx).value)
  {
    PassIsReady(b, vs, dir, ctx);
    var legs := BatchLegs(b.bets, vs, dir);
    var posted, after := PostAll(b, legs, ctx).value, RunPass(b, vs, dir, ctx).value;
    PostAllEffect(b, legs, ctx);
    BatchKinds(b.bets, vs, dir);
    BatchMoves(b.bets, vs, dir, HousePnl);
    BatchBetsAt(b.bets, vs, dir);
    forall g: Gauge | BetGauge(g)
      ensures BookTotal(after.bets, g) == BookTotal(b.bets, g) + LegsReading(legs, g)
    {
      BatchMoves(b.bets, vs, dir, g);
    }
    MovingBetsKeepsMoney(b, legs, posted, after.bets);
    PassKeys(b.bets, vs, dir, KeysOf(b.transfers));
    forall i | 0 <= i < |b.bets| ensures SameBet(b.bets[i], after.bets[i]) {
      if v :| v in vs && v.id == i {
        assert after.bets[i] == Turned(v, b.bets[i], dir);
      } else {
        assert after.bets[i] == b.bets[i];
      }
    }
  }
}
