/** The sole ledger writer (`WalletService._post_transfer`) and what a list of posted legs does. */
module Posting {
  import opened Domain

  /** The accounts update of one transfer: debit first (and its version), then credit. */
  function Move(accounts: map<Account, AccountRow>, leg: Leg): map<Account, AccountRow>
    requires leg.debit in accounts && leg.credit in accounts
  {
    var debited := accounts[leg.debit :=
      AccountRow(accounts[leg.debit].balance - leg.amount, accounts[leg.debit].version + 1)];
    debited[leg.credit := debited[leg.credit].(balance := debited[leg.credit].balance + leg.amount)]
  }

  function TransferOf(leg: Leg, id: nat, ctx: Context): Transfer {
    Transfer(id, leg.kind, leg.key, ctx.actor, leg.bet)
  }

  function EntriesOf(leg: Leg, t: Transfer, ctx: Context): seq<Entry> {
    [Entry(t, leg.debit, Debit, leg.amount, ctx.now), Entry(t, leg.credit, Credit, leg.amount, ctx.now)]
  }

  /** One transfer with its two entries and both balance updates, or the constraint that refuses it. */
  function PostLeg(b: Books, leg: Leg, ctx: Context): Result<Books> {
    if leg.key.Some? && leg.key.value in KeysOf(b.transfers) then Err(DuplicateKey)
    else if leg.amount <= 0 then Err(AmountNotPositive)
    else if leg.debit !in b.accounts || leg.credit !in b.accounts then Err(NoAccount)
    else if b.accounts[leg.debit].balance < leg.amount then Err(BalanceFloor)
    else
      var t := TransferOf(leg, |b.transfers|, ctx);
      Ok(b.(accounts := Move(b.accounts, leg), transfers := b.transfers + [t],
            entries := b.entries + EntriesOf(leg, t, ctx)))
  }

  function PostAll(b: Books, legs: seq<Leg>, ctx: Context): Result<Books>
    decreases legs
  {
    if legs == [] then Ok(b)
    else
      var next :- PostLeg(b, legs[0], ctx);
      PostAll(next, legs[1..], ctx)
  }

  // ---------------------------------------------------------------------------
  // Gauges: linear readings of the entries table.
  // ---------------------------------------------------------------------------

  predicate IsFunding(k: Kind) {
    k == Recharge || k == SignupBonus
  }

  predicate IsBetKind(k: Kind) {
    !IsFunding(k) && k != OtherTransfer
  }

  /** What a fold over the entries can measure.
      - `Book(a)`: what bets moved through account `a`;
      - `Funded(a)`: what recharges and sign-up bonuses moved through `a`;
      - `Granted`: the amounts of all recharges and bonuses;
      - `Plain(a)`: what direct transfers moved through `a`;
      - `Tagged(i, a)`: what transfers tagged with bet `i` moved through `a`;
      - `HousePnl`: the house P&L formula of the admin dashboard. */
  datatype Gauge =
    | Book(account: Account)
    | Funded(account: Account)
    | Granted
    | Plain(account: Account)
    | Tagged(bet: BetId, account: Account)
    | HousePnl

  /** The gauges that only bets move. */
  predicate BetGauge(g: Gauge) {
    g.Book? || g.Tagged? || g.HousePnl?
  }

  function Signed(e: Entry): int {
    if e.direction == Credit then e.amount else -e.amount
  }

  /** The four CASE arms of `house_pnl`. */
  function PnlOf(e: Entry): int {
    if e.transfer.kind == SettleLoss && e.account == HouseRevenue && e.direction == Credit then e.amount
    else if e.transfer.kind == ReverseLoss && e.account == HouseRevenue && e.direction == Debit then -e.amount
    else if e.transfer.kind == SettleWinnings && e.account == HousePromo && e.direction == Debit then -e.amount
    else if e.transfer.kind == ReverseWinnings && e.account == HousePromo && e.direction == Credit then e.amount
    else 0
  }

  function Read(e: Entry, g: Gauge): int {
    match g
    case Book(a) => if e.account == a && IsBetKind(e.transfer.kind) then Signed(e) else 0
    case Funded(a) => if e.account == a && IsFunding(e.transfer.kind) then Signed(e) else 0
    case Granted => if e.direction == Credit && IsFunding(e.transfer.kind) then e.amount else 0
    case Plain(a) => if e.account == a && e.transfer.kind == OtherTransfer then Signed(e) else 0
    case Tagged(i, a) => if e.account == a && e.transfer.bet == Some(i) then Signed(e) else 0
    case HousePnl => PnlOf(e)
  }

  function Total(entries: seq<Entry>, g: Gauge): int {
    if entries == [] then 0
    else Total(entries[..|entries| - 1], g) + Read(entries[|entries| - 1], g)
  }

  function LegReading(leg: Leg, g: Gauge): int {
    var t := TransferOf(leg, 0, Context(None, 0));
    Read(Entry(t, leg.debit, Debit, leg.amount, 0), g) + Read(Entry(t, leg.credit, Credit, leg.amount, 0), g)
  }

  function LegsReading(legs: seq<Leg>, g: Gauge): int {
    if legs == [] then 0 else LegReading(legs[0], g) + LegsReading(legs[1..], g)
  }

  /** Net effect of a leg, and of a list of legs, on the balance of `a`. */
  function LegNet(leg: Leg, a: Account): int {
    (if leg.credit == a then leg.amount else 0) - (if leg.debit == a then leg.amount else 0)
  }

  function Net(legs: seq<Leg>, a: Account): int {
    if legs == [] then 0 else LegNet(legs[0], a) + Net(legs[1..], a)
  }

  lemma NetIsReading(legs: seq<Leg>, a: Account)
    ensures Net(legs, a) == LegsReading(legs, Book(a)) + LegsReading(legs, Funded(a)) + LegsReading(legs, Plain(a))
  {
  }

  lemma {:induction false} ReadingConcat(xs: seq<Leg>, ys: seq<Leg>, g: Gauge)
    ensures LegsReading(xs + ys, g) == LegsReading(xs, g) + LegsReading(ys, g)
  {
    if xs == [] {
      assert xs + ys == ys;
    } else {
      assert (xs + ys)[1..] == xs[1..] + ys;
      ReadingConcat(xs[1..], ys, g);
    }
  }

  lemma {:induction false} NetConcat(xs: seq<Leg>, ys: seq<Leg>, a: Account)
    ensures Net(xs + ys, a) == Net(xs, a) + Net(ys, a)
  {
    if xs == [] {
      assert xs + ys == ys;
    } else {
      assert (xs + ys)[1..] == xs[1..] + ys;
      NetConcat(xs[1..], ys, a);
    }
  }

  lemma TotalSnoc(entries: seq<Entry>, e: Entry, g: Gauge)
    ensures Total(entries + [e], g) == Total(entries, g) + Read(e, g)
  {
  }

  // ---------------------------------------------------------------------------
  // Idempotency keys.
  // ---------------------------------------------------------------------------

  function LegKeys(legs: seq<Leg>): set<Key> {
    set l | l in legs && l.key.Some? :: l.key.value
  }

  /** The unique constraint over the whole transfers table. */
  ghost predicate UniqueKeys(ts: seq<Transfer>) {
    forall i, j | 0 <= i < j < |ts| && ts[i].key.Some? :: ts[i].key != ts[j].key
  }

  ghost predicate KeysApart(legs: seq<Leg>) {
    forall i, j | 0 <= i < j < |legs| && legs[i].key.Some? :: legs[i].key != legs[j].key
  }

  /** No key of `legs` is used already, and none occurs twice among them. */
  ghost predicate FreshKeys(used: set<Key>, legs: seq<Leg>) {
    LegKeys(legs) !! used && KeysApart(legs)
  }

  lemma KeysOfSnoc(ts: seq<Transfer>, t: Transfer)
    ensures KeysOf(ts + [t]) == KeysOf(ts) + (if t.key.Some? then {t.key.value} else {})
  {
  }

  lemma LegKeysCons(leg: Leg, legs: seq<Leg>)
    ensures LegKeys([leg] + legs) == (if leg.key.Some? then {leg.key.value} else {}) + LegKeys(legs)
  {
  }

  lemma LegKeysConcat(xs: seq<Leg>, ys: seq<Leg>)
    ensures LegKeys(xs + ys) == LegKeys(xs) + LegKeys(ys)
  {
  }

  // ---------------------------------------------------------------------------
  // What posting does.
  // ---------------------------------------------------------------------------

  /** `after` is `before` with `legs` posted, as far as any reading can tell. */
  ghost predicate Posted(before: Books, legs: seq<Leg>, after: Books) {
    && after.bets == before.bets
    && after.accounts.Keys == before.accounts.Keys
    && (forall a :: Balance(after, a) == Balance(before, a) + Net(legs, a))
    && (forall g :: Total(after.entries, g) == Total(before.entries, g) + LegsReading(legs, g))
    && KeysOf(after.transfers) == KeysOf(before.transfers) + LegKeys(legs)
    && before.transfers <= after.transfers
    && before.entries <= after.entries
    && |after.transfers| == |before.transfers| + |legs|
    && |after.entries| == |before.entries| + 2 * |legs|
    && (UniqueKeys(before.transfers) ==> UniqueKeys(after.transfers))
    && FreshKeys(KeysOf(before.transfers), legs)
    && ((forall a | a in before.accounts :: before.accounts[a].balance >= 0) ==>
          forall a | a in after.accounts :: after.accounts[a].balance >= 0)
  }

  lemma PostLegTotal(b: Books, leg: Leg, ctx: Context, g: Gauge)
    requires PostLeg(b, leg, ctx).Ok?
    ensures Total(PostLeg(b, leg, ctx).value.entries, g) == Total(b.entries, g) + LegReading(leg, g)
  {
    var t := TransferOf(leg, |b.transfers|, ctx);
    var es := EntriesOf(leg, t, ctx);
    TotalSnoc(b.entries, es[0], g);
    TotalSnoc(b.entries + [es[0]], es[1], g);
    assert b.entries + [es[0]] + [es[1]] == b.entries + es;
  }

  lemma PostLegKeys(b: Books, leg: Leg, ctx: Context)
    requires PostLeg(b, leg, ctx).Ok?
    ensures KeysOf(PostLeg(b, leg, ctx).value.transfers) == KeysOf(b.transfers) + LegKeys([leg])
    ensures UniqueKeys(b.transfers) ==> UniqueKeys(PostLeg(b, leg, ctx).value.transfers)
    ensures LegKeys([leg]) !! KeysOf(b.transfers)
  {
  }

  lemma PostLegBalance(b: Books, leg: Leg, ctx: Context, a: Account)
    requires PostLeg(b, leg, ctx).Ok?
    ensures Balance(PostLeg(b, leg, ctx).value, a) == Balance(b, a) + LegNet(leg, a)
  {
  }

  /** The effect of a successful posting, leg by leg. */
  lemma {:induction false} PostAllEffect(b: Books, legs: seq<Leg>, ctx: Context)
    requires PostAll(b, legs, ctx).Ok?
    ensures Posted(b, legs, PostAll(b, legs, ctx).value)
    decreases legs
  {
    if legs == [] {
    } else {
      var leg, rest := legs[0], legs[1..];
      assert legs == [leg] + rest;
      var mid := PostLeg(b, leg, ctx).value;
      var end := PostAll(mid, rest, ctx).value;
      PostAllEffect(mid, rest, ctx);
      PostLegKeys(b, leg, ctx);
      LegKeysConcat([leg], rest);
      forall g ensures Total(end.entries, g) == Total(b.entries, g) + LegsReading(legs, g) {
        PostLegTotal(b, leg, ctx, g);
      }
      forall a ensures Balance(end, a) == Balance(b, a) + Net(legs, a) {
        PostLegBalance(b, leg, ctx, a);
      }
      FreshCons(KeysOf(b.transfers), leg, rest);
    }
  }

  /** Everything written since `before` is signed by the actor and dated. */
  predicate WrittenBy(before: Books, after: Books, actor: Option<UserId>, now: Time) {
    && before.transfers <= after.transfers && before.entries <= after.entries
    && (forall k | |before.transfers| <= k < |after.transfers| :: after.transfers[k].actor == actor)
    && forall k | |before.entries| <= k < |after.entries| ::
         after.entries[k].transfer.actor == actor && after.entries[k].createdAt == now
  }

  lemma {:induction false} PostAllSigned(b: Books, legs: seq<Leg>, ctx: Context)
    requires PostAll(b, legs, ctx).Ok?
    ensures WrittenBy(b, PostAll(b, legs, ctx).value, ctx.actor, ctx.now)
    decreases legs
  {
    if legs != [] {
      var mid := PostLeg(b, legs[0], ctx).value;
      PostAllSigned(mid, legs[1..], ctx);
    }
  }

  lemma PostOne(b: Books, leg: Leg, ctx: Context)
    ensures PostAll(b, [leg], ctx) == PostLeg(b, leg, ctx)
  {
  }

  lemma FreshCons(used: set<Key>, leg: Leg, rest: seq<Leg>)
    ensures FreshKeys(used, [leg] + rest) <==>
      LegKeys([leg]) !! used && FreshKeys(used + LegKeys([leg]), rest)
  {
    var legs := [leg] + rest;
    LegKeysConcat([leg], rest);
    if LegKeys([leg]) !! used && FreshKeys(used + LegKeys([leg]), rest) {
      forall i, j | 0 <= i < j < |legs| && legs[i].key.Some? ensures legs[i].key != legs[j].key {
        assert legs[j] == rest[j - 1];
        if i == 0 {
          assert leg in [leg];
          assert rest[j - 1] in rest;
          assert leg.key.value in LegKeys([leg]);
          assert rest[j - 1].key.Some? ==> rest[j - 1].key.value in LegKeys(rest);
        } else {
          assert legs[i] == rest[i - 1];
        }
      }
    }
    if FreshKeys(used, legs) {
      forall k | k in LegKeys(rest) ensures k !in LegKeys([leg]) {
        var l :| l in rest && l.key == Some(k);
        var j :| 0 <= j < |rest| && rest[j] == l;
        assert legs[0] == leg && legs[j + 1] == l;
      }
      forall i, j | 0 <= i < j < |rest| && rest[i].key.Some? ensures rest[i].key != rest[j].key {
        assert legs[i + 1] == rest[i] && legs[j + 1] == rest[j];
      }
    }
  }

  // ---------------------------------------------------------------------------
  // When posting succeeds, and that the order of the legs does not matter.
  // ---------------------------------------------------------------------------

  /** No account is both debited and credited in one pass. */
  ghost predicate OneSided(legs: seq<Leg>) {
    forall i, j | 0 <= i < |legs| && 0 <= j < |legs| :: legs[i].debit != legs[j].credit
  }

  /** Everything the constraints ask of each leg, apart from balances and keys. */
  ghost predicate Postable(b: Books, legs: seq<Leg>) {
    forall l | l in legs :: l.amount > 0 && l.debit in b.accounts && l.credit in b.accounts
  }

  /** The floor at the end of the pass. */
  ghost predicate Covered(b: Books, legs: seq<Leg>) {
    forall l | l in legs :: Balance(b, l.debit) + Net(legs, l.debit) >= 0
  }

  lemma {:induction false} DebitSide(legs: seq<Leg>, a: Account)
    requires forall l | l in legs :: l.amount > 0 && l.credit != a
    ensures Net(legs, a) <= 0
  {
    if legs != [] {
      DebitSide(legs[1..], a);
    }
  }

  /** A pass over one-sided legs succeeds exactly when its keys are fresh and no debited account
      would END below zero: the floor after each single leg adds nothing. */
  lemma {:induction false} PostAllOkIff(b: Books, legs: seq<Leg>, ctx: Context)
    requires OneSided(legs) && Postable(b, legs)
    ensures PostAll(b, legs, ctx).Ok? <==> FreshKeys(KeysOf(b.transfers), legs) && Covered(b, legs)
    decreases legs
  {
    if legs == [] {
    } else {
      var leg, rest := legs[0], legs[1..];
      assert legs == [leg] + rest;
      FreshCons(KeysOf(b.transfers), leg, rest);
      LegKeysCons(leg, []);
      assert [leg] + [] == [leg];
      assert forall l :: l in legs <==> l == leg || l in rest;
      OneSidedTail(legs);
      DebitSide(rest, leg.debit);
      var first := PostLeg(b, leg, ctx);
      if first.Ok? {
        var mid := first.value;
        PostLegKeys(b, leg, ctx);
        PostAllOkIff(mid, rest, ctx);
        forall l | l in legs
          ensures Balance(b, l.debit) + Net(legs, l.debit) == Balance(mid, l.debit) + Net(rest, l.debit)
        {
          PostLegBalance(b, leg, ctx, l.debit);
        }
        if Covered(mid, rest) {
          CoverFirst(b, mid, leg, rest);
        }
      }
    }
  }

  lemma OneSidedTail(legs: seq<Leg>)
    requires legs != [] && OneSided(legs)
    ensures OneSided(legs[1..])
    ensures forall l | l in legs :: l.credit != legs[0].debit
  {
  }

  /** The first debited account is covered: either a later leg debits it too, or only the first leg touches it. */
  lemma CoverFirst(b: Books, mid: Books, leg: Leg, rest: seq<Leg>)
    requires Covered(mid, rest)
    requires Balance(mid, leg.debit) >= 0
    requires forall l | l in rest :: l.credit != leg.debit
    ensures Balance(mid, leg.debit) + Net(rest, leg.debit) >= 0
  {
    if forall l | l in rest :: l.debit != leg.debit {
      Untouched(rest, leg.debit);
    }
  }

  lemma {:induction false} Untouched(legs: seq<Leg>, a: Account)
    requires forall l | l in legs :: l.debit != a && l.credit != a
    ensures Net(legs, a) == 0
  {
    if legs != [] {
      Untouched(legs[1..], a);
    }
  }
}
