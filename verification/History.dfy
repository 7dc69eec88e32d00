/** How many transfers can ever be about one bet. */
module History {
  import opened Money
  import opened Domain
  import opened Posting
  import opened Lifecycle
  import opened Transactions
  import opened Invariant
  import opened Runs

  /** The transfers a list of legs appends. */
  function TransfersOf(legs: seq<Leg>, id: nat, ctx: Context): seq<Transfer> {
    if legs == [] then [] else [TransferOf(legs[0], id, ctx)] + TransfersOf(legs[1..], id + 1, ctx)
  }

  lemma {:induction false} PostAllTransfers(b: Books, legs: seq<Leg>, ctx: Context)
    requires PostAll(b, legs, ctx).Ok?
    ensures PostAll(b, legs, ctx).value.transfers == b.transfers + TransfersOf(legs, |b.transfers|, ctx)
    decreases legs
  {
    if legs != [] {
      var mid := PostLeg(b, legs[0], ctx).value;
      PostAllTransfers(mid, legs[1..], ctx);
      assert mid.transfers == b.transfers + [TransferOf(legs[0], |b.transfers|, ctx)];
    }
  }

  ghost function Appended(b: Books, e: Event): seq<Transfer>
    requires Enabled(b, e.op)
  {
    if Step(b, e).Err? then [] else TransfersOf(StepLegs(b, e), |b.transfers|, StepContext(e))
  }

  lemma StepAppends(b: Books, e: Event)
    requires Enabled(b, e.op)
    ensures Next(b, e).transfers == b.transfers + Appended(b, e)
  {
    if Step(b, e).Ok? {
      if StepLegs(b, e) != [] {
        StepIsPosting(b, e);
        PostAllTransfers(b, StepLegs(b, e), StepContext(e));
      }
    }
  }

  function SettleKind(leg: LegName): Kind {
    match leg case StakeLeg => SettleStakeReturn case WinLeg => SettleWinnings case LossLeg => SettleLoss
  }

  function ReverseKind(leg: LegName): Kind {
    match leg case StakeLeg => ReverseStakeReturn case WinLeg => ReverseWinnings case LossLeg => ReverseLoss
  }

  function CloseKind(leg: LegName): Kind {
    match leg case StakeLeg => CloseStakeReturn case WinLeg => CloseWinnings case LossLeg => CloseLoss
  }

  /** Key, kind and bet tag of a transfer say the same; only placements are about a bet without a key. */
  predicate WellTagged(bet: Option<BetId>, key: Option<Key>, kind: Kind) {
    match key
    case None => (kind == BetPlaced && bet.Some?) || (kind == OtherTransfer && bet.None?)
    case Some(SettleKey(i, leg)) => bet == Some(i) && kind == SettleKind(leg)
    case Some(ReverseKey(i, leg)) => bet == Some(i) && kind == ReverseKind(leg)
    case Some(CloseKey(i, leg)) => bet == Some(i) && kind == CloseKind(leg)
    case Some(BonusKey(_)) => bet == None && kind == SignupBonus
    case Some(ClientKey(_)) => bet == None && (kind == Recharge || kind == OtherTransfer)
  }

  predicate IsPlacement(t: Transfer, i: BetId) {
    t.bet == Some(i) && t.kind == BetPlaced
  }

  function Placements(ts: seq<Transfer>, i: BetId): nat {
    if ts == [] then 0
    else Placements(ts[..|ts| - 1], i) + if IsPlacement(ts[|ts| - 1], i) then 1 else 0
  }

  function Tally(ts: seq<Transfer>, i: BetId): nat {
    if ts == [] then 0 else Tally(ts[..|ts| - 1], i) + if ts[|ts| - 1].bet == Some(i) then 1 else 0
  }

  lemma {:induction false} PlacementsConcat(xs: seq<Transfer>, ys: seq<Transfer>, i: BetId)
    ensures Placements(xs + ys, i) == Placements(xs, i) + Placements(ys, i)
  {
    if ys == [] {
      assert xs + ys == xs;
    } else {
      assert (xs + ys)[..|xs + ys| - 1] == xs + ys[..|ys| - 1];
      PlacementsConcat(xs, ys[..|ys| - 1], i);
    }
  }

  lemma {:induction false} LegsAppended(legs: seq<Leg>, id: nat, ctx: Context, i: BetId)
    requires forall l | l in legs :: WellTagged(l.bet, l.key, l.kind) && l.kind != BetPlaced
    ensures forall t | t in TransfersOf(legs, id, ctx) :: WellTagged(t.bet, t.key, t.kind)
    ensures Placements(TransfersOf(legs, id, ctx), i) == 0
    decreases legs
  {
    if legs != [] {
      var first, rest := [TransferOf(legs[0], id, ctx)], TransfersOf(legs[1..], id + 1, ctx);
      assert legs[0] in legs;
      assert first[..0] == [];
      LegsAppended(legs[1..], id + 1, ctx, i);
      PlacementsConcat(first, rest, i);
    }
  }

  lemma TurnTagged(v: Verdict, bet: Bet, dir: Pass)
    requires bet.stake > 0
    ensures forall l | l in TurnLegs(v, bet, dir) :: WellTagged(l.bet, l.key, l.kind) && l.kind != BetPlaced
  {
  }

  lemma {:induction false} BatchTagged(bets: seq<Bet>, vs: seq<Verdict>, dir: Pass)
    requires SoundBets(bets) && InRange(bets, vs)
    ensures forall l | l in BatchLegs(bets, vs, dir) :: WellTagged(l.bet, l.key, l.kind) && l.kind != BetPlaced
  {
    if vs != [] {
      TurnTagged(vs[0], bets[vs[0].id], dir);
      BatchTagged(bets, vs[1..], dir);
    }
  }

  lemma PlacementAppended(b: Books, e: Event, i: BetId)
    requires Enabled(b, e.op) && e.op.DoPlace? && Step(b, e).Ok?
    ensures forall t | t in Appended(b, e) :: WellTagged(t.bet, t.key, t.kind)
    ensures Placements(Appended(b, e), i) == if i == |b.bets| then 1 else 0
    ensures |Next(b, e).bets| == |b.bets| + 1
  {
    var legs := StepLegs(b, e);
    var t := TransferOf(legs[0], |b.transfers|, StepContext(e));
    assert legs[1..] == [];
    assert TransfersOf(legs, |b.transfers|, StepContext(e)) == [t];
    assert [t][..0] == [];
  }

  lemma OthersTagged(b: Books, e: Event)
    requires Enabled(b, e.op) && !e.op.DoPlace?
    ensures forall l | l in StepLegs(b, e) :: WellTagged(l.bet, l.key, l.kind) && l.kind != BetPlaced
  {
    match e.op
    case DoResolve(_, _, vs) => BatchTagged(b.bets, vs, Settle);
    case DoReverse(_, vs) => BatchTagged(b.bets, vs, Reverse);
    case _ =>
  }

  lemma OthersAddNoBet(b: Books, e: Event)
    requires Enabled(b, e.op) && !e.op.DoPlace?
    ensures |Next(b, e).bets| == |b.bets|
  {
  }

  /** Only placements post an unkeyed leg about a bet, and each just one, about the bet it adds. */
  lemma StepTagged(b: Books, e: Event, i: BetId)
    requires Enabled(b, e.op)
    ensures forall t | t in Appended(b, e) :: WellTagged(t.bet, t.key, t.kind)
    ensures Placements(Appended(b, e), i) == if |b.bets| <= i < |Next(b, e).bets| then 1 else 0
    ensures |b.bets| <= |Next(b, e).bets|
  {
    if e.op.DoPlace? {
      if Step(b, e).Ok? {
        PlacementAppended(b, e, i);
      }
    } else {
      OthersAddNoBet(b, e);
      OthersTagged(b, e);
      LegsAppended(StepLegs(b, e), |b.transfers|, StepContext(e), i);
    }
  }

  /** In any run every bet has exactly one placement transfer, and every other transfer about it uses one
      of its own keys. */
  lemma {:induction false} OnePlacementEach(states: seq<Books>, events: seq<Event>, n: nat, i: BetId)
    requires IsRun(states, events) && n < |states|
    ensures forall t | t in states[n].transfers :: WellTagged(t.bet, t.key, t.kind)
    ensures Placements(states[n].transfers, i) == if i < |states[n].bets| then 1 else 0
  {
    if n > 0 {
      var b, e := states[n - 1], events[n - 1];
      OnePlacementEach(states, events, n - 1, i);
      StepAppends(b, e);
      StepTagged(b, e, i);
      PlacementsConcat(b.transfers, Appended(b, e), i);
    }
  }

  // ---------------------------------------------------------------------------
  // The bound.
  // ---------------------------------------------------------------------------

  function KeysAbout(ts: seq<Transfer>, i: BetId): set<Key> {
    set k | k in KeysOf(ts) && BetOf(k) == Some(i)
  }

  lemma {:induction false} TallyByKeys(ts: seq<Transfer>, i: BetId)
    requires UniqueKeys(ts) && forall t | t in ts :: WellTagged(t.bet, t.key, t.kind)
    ensures Tally(ts, i) <= Placements(ts, i) + |KeysAbout(ts, i)|
  {
    if ts != [] {
      var n := |ts| - 1;
      var less, t := ts[..n], ts[n];
      assert ts == less + [t];
      TallyByKeys(less, i);
      KeysOfSnoc(less, t);
      if t.bet == Some(i) && !IsPlacement(t, i) {
        OwnKey(t.bet, t.key, t.kind);
        NewKey(ts, n);
        assert KeysAbout(ts, i) == KeysAbout(less, i) + {t.key.value};
      } else {
        Smaller(KeysAbout(less, i), KeysAbout(ts, i));
      }
    }
  }

  lemma OwnKey(bet: Option<BetId>, key: Option<Key>, kind: Kind)
    requires WellTagged(bet, key, kind) && bet.Some? && kind != BetPlaced
    ensures key.Some? && BetOf(key.value) == bet
  {
  }

  lemma NewKey(ts: seq<Transfer>, n: nat)
    requires UniqueKeys(ts) && n < |ts| && ts[n].key.Some?
    ensures ts[n].key.value !in KeysOf(ts[..n])
  {
    forall t | t in ts[..n] ensures t.key != ts[n].key {
    }
  }

  lemma Smaller(xs: set<Key>, ys: set<Key>)
    requires xs <= ys
    ensures |xs| <= |ys|
  {
    assert ys == xs + (ys - xs);
  }

  /** A close posts winnings or a loss, never both. */
  ghost predicate OneCloseResult(used: set<Key>, i: BetId) {
    !(CloseKey(i, WinLeg) in used && CloseKey(i, LossLeg) in used)
  }

  lemma CloseHasOneResult(i: BetId, b: Bet, exit: Price)
    requires b.stake > 0
    ensures OneCloseResult(LegKeys(CloseLegs(i, b, exit)), i)
  {
  }

  /** Only a close uses close keys, and only those of its own bet. */
  lemma NewCloseKey(b: Books, e: Event, i: BetId, leg: LegName)
    requires Valid(b) && Enabled(b, e.op) && Step(b, e).Ok?
    requires CloseKey(i, leg) in LegKeys(StepLegs(b, e))
    ensures e.op.DoSell? && e.op.id == i
  {
    match e.op
    case DoResolve(_, _, vs) => BatchKeys(b.bets, vs, Settle);
    case DoReverse(_, vs) => BatchKeys(b.bets, vs, Reverse);
    case DoSell(id, u, view) =>
      CloseKeysShape(id, b.bets[id], CloseQuote(b.bets[id], view, e.ctx.now).value, CloseKey(i, leg));
    case _ =>
  }

  lemma SaleKeepsOneResult(b: Books, e: Event, i: BetId)
    requires Valid(b) && Enabled(b, e.op) && Step(b, e).Ok? && e.op.DoSell? && e.op.id == i
    ensures OneCloseResult(KeysOf(b.transfers) + LegKeys(StepLegs(b, e)), i)
  {
    assert BetKeys(i, b.bets[i], KeysOf(b.transfers));
    CloseHasOneResult(i, b.bets[i], CloseQuote(b.bets[i], e.op.quote, e.ctx.now).value);
  }

  lemma StepKeys(b: Books, e: Event)
    requires Enabled(b, e.op) && Step(b, e).Ok?
    ensures KeysOf(Next(b, e).transfers) == KeysOf(b.transfers) + LegKeys(StepLegs(b, e))
  {
    if StepLegs(b, e) != [] {
      StepIsPosting(b, e);
      PostAllEffect(b, StepLegs(b, e), StepContext(e));
    }
  }

  lemma StepKeepsOneResult(b: Books, e: Event, i: BetId)
    requires Valid(b) && Enabled(b, e.op) && OneCloseResult(KeysOf(b.transfers), i)
    ensures OneCloseResult(KeysOf(Next(b, e).transfers), i)
  {
    if Step(b, e).Ok? {
      StepKeys(b, e);
      if e.op.DoSell? && e.op.id == i {
        SaleKeepsOneResult(b, e, i);
      } else {
        forall leg ensures CloseKey(i, leg) !in LegKeys(StepLegs(b, e)) {
          if CloseKey(i, leg) in LegKeys(StepLegs(b, e)) {
            NewCloseKey(b, e, i, leg);
          }
        }
      }
    }
  }

  lemma {:induction false} RunKeepsOneResult(states: seq<Books>, events: seq<Event>, n: nat, i: BetId)
    requires IsRun(states, events) && n < |states|
    ensures OneCloseResult(KeysOf(states[n].transfers), i)
  {
    if n == 0 {
      assert KeysOf([]) == {};
    } else {
      RunKeepsOneResult(states, events, n - 1, i);
      RunIsValid(states, events, n - 1);
      StepKeepsOneResult(states[n - 1], events[n - 1], i);
    }
  }

  /** The keys a bet can use, with one of the two close results. */
  function AllKeys(i: BetId, result: LegName): set<Key> {
    {SettleKey(i, StakeLeg), SettleKey(i, WinLeg), SettleKey(i, LossLeg),
     ReverseKey(i, StakeLeg), ReverseKey(i, WinLeg), ReverseKey(i, LossLeg),
     CloseKey(i, StakeLeg), CloseKey(i, result)}
  }

  lemma AtMostEightKeys(ts: seq<Transfer>, i: BetId)
    requires OneCloseResult(KeysOf(ts), i)
    ensures |KeysAbout(ts, i)| <= 8
  {
    var all := AllKeys(i, if CloseKey(i, WinLeg) in KeysOf(ts) then WinLeg else LossLeg);
    forall k | k in KeysAbout(ts, i) ensures k in all {
      assert k.leg == StakeLeg || k.leg == WinLeg || k.leg == LossLeg;
    }
    Smaller(KeysAbout(ts, i), all);
  }

  /** However long the run, and however often its market is resolved and reversed, a bet has at most nine
      transfers: its placement and one per key. */
  lemma TransfersPerBetAreBounded(states: seq<Books>, events: seq<Event>, n: nat, i: BetId)
    requires IsRun(states, events) && n < |states|
    ensures Tally(states[n].transfers, i) <= 9
    ensures i >= |states[n].bets| ==> Tally(states[n].transfers, i) == 0
  {
    var ts := states[n].transfers;
    RunIsValid(states, events, n);
    RunKeepsOneResult(states, events, n, i);
    OnePlacementEach(states, events, n, i);
    TallyByKeys(ts, i);
    AtMostEightKeys(ts, i);
    if i >= |states[n].bets| {
      assert KeysAbout(ts, i) == {};
    }
  }
}
