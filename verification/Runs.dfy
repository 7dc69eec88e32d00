/** Any sequence of units of work from the seeded database, and what holds in every state it reaches. */
module Runs {
  import opened Domain
  import opened Posting
  import opened Lifecycle
  import opened Transactions
  import opened Invariant

  /** One unit of work. A market snapshot is an argument: it may be older than the state it is used in.
      A resolution names the pending bets it holds, a reversal the settled bets it has read. */
  datatype Op =
    | OpenWallet(owner: UserId)
    | EnsurePool(pool: MarketId)
    | DoRecharge(payee: UserId, amount: int, text: string, provider: Provider)
    | DoBonus(newcomer: UserId, bonus: int)
    | DoTransfer(debit: Account, credit: Account, moved: int, key: Option<string>)
    | DoPlace(bettor: UserId, market: MarketId, outcome: OutcomeId, stake: int, view: Option<MarketView>)
    | DoSell(id: BetId, seller: UserId, quote: Option<MarketView>)
    | DoResolve(resolved: MarketId, winner: OutcomeId, held: seq<Verdict>)
    | DoReverse(reopened: MarketId, seen: seq<Verdict>)

  datatype Event = Event(op: Op, ctx: Context)

  /** What the rows read by the unit of work guarantee about its arguments. */
  ghost predicate Enabled(b: Books, op: Op) {
    && SoundBets(b.bets)
    && match op
       case DoPlace(_, m, _, _, _) => Liability(m) in b.accounts
       case DoResolve(m, w, vs) =>
         && Resolvable(b, vs)
         && forall v | v in vs :: b.bets[v.id].market == m && v.won == (b.bets[v.id].outcome == w)
       case DoReverse(m, vs) => Reversible(b, vs) && forall v | v in vs :: b.bets[v.id].market == m
       case _ => true
  }

  ghost function Step(b: Books, e: Event): Result<Books>
    requires Enabled(b, e.op)
  {
    match e.op
    case OpenWallet(u) => CreateWallet(b, u)
    case EnsurePool(m) => Ok(WithAccount(b, Liability(m)))
    case DoRecharge(u, amount, text, provider) =>
      var r :- RechargeWallet(b, u, amount, text, provider, e.ctx.now);
      Ok(r.books)
    case DoBonus(u, amount) =>
      var r :- GrantBonus(b, u, amount, e.ctx.now);
      Ok(r.books)
    case DoTransfer(from, to, amount, key) => TransferFunds(b, from, to, amount, key, e.ctx)
    case DoPlace(u, m, o, stake, view) =>
      var price :- Quote(view, o, stake, e.ctx.now);
      InsertBet(b, NewBet(u, m, o, stake, price), e.ctx.now)
    case DoSell(id, u, view) => SellPosition(b, id, u, view, e.ctx.now)
    case DoResolve(_, _, vs) => RunPass(b, vs, Settle, e.ctx)
    case DoReverse(_, vs) => RunPass(b, vs, Reverse, e.ctx)
  }

  /** A failed unit of work changes nothing. */
  ghost function Next(b: Books, e: Event): Books
    requires Enabled(b, e.op)
  {
    match Step(b, e) case Ok(after) => after case Err(_) => b
  }

  /** `states[k]` is the database after the first `k` units of work. */
  ghost predicate IsRun(states: seq<Books>, events: seq<Event>) {
    && |states| == |events| + 1
    && states[0] == Seeded()
    && forall k | 0 <= k < |events| :: Enabled(states[k], events[k].op) && states[k + 1] == Next(states[k], events[k])
  }

  lemma FundKeepsValid(b: Books, leg: Leg, ctx: Context)
    requires Valid(b) && leg.key.Some? && OutsideLeg(leg)
    requires Fund(b, leg, ctx).Ok?
    ensures Valid(Fund(b, leg, ctx).value.books) && Extends(b, Fund(b, leg, ctx).value.books)
  {
    if PostLeg(b, leg, ctx).Ok? {
      OutsideLegKeepsValid(b, leg, ctx);
    }
  }

  /** Every unit of work keeps the invariant, appends to the ledger, and forgets nothing. */
  lemma StepKeepsValid(b: Books, e: Event)
    requires Valid(b) && Enabled(b, e.op)
    ensures Valid(Next(b, e)) && Extends(b, Next(b, e))
  {
    if Step(b, e).Ok? {
      match e.op
      case OpenWallet(u) => WithAccountKeepsValid(b, Wallet(u));
      case EnsurePool(m) => WithAccountKeepsValid(b, Liability(m));
      case DoRecharge(u, amount, text, _) =>
        FundKeepsValid(b, FundingLeg(Recharge, ClientKey(text), u, amount), Context(None, e.ctx.now));
      case DoBonus(u, amount) =>
        FundKeepsValid(b, FundingLeg(SignupBonus, BonusKey(u), u, amount), Context(None, e.ctx.now));
      case DoTransfer(from, to, amount, key) =>
        OutsideLegKeepsValid(b, TransferLeg(from, to, amount, key), e.ctx);
      case DoPlace(u, m, o, stake, view) =>
        InsertBetKeepsValid(b, NewBet(u, m, o, stake, Quote(view, o, stake, e.ctx.now).value), e.ctx.now);
      case DoSell(id, u, view) => SellKeepsValid(b, id, u, view, e.ctx.now);
      case DoResolve(_, _, vs) => PassKeepsValid(b, vs, Settle, e.ctx);
      case DoReverse(_, vs) => PassKeepsValid(b, vs, Reverse, e.ctx);
    }
  }

  lemma RunStep(states: seq<Books>, events: seq<Event>, k: nat)
    requires IsRun(states, events) && k < |events| && Valid(states[k])
    ensures Valid(states[k + 1]) && Extends(states[k], states[k + 1])
  {
    StepKeepsValid(states[k], events[k]);
  }

  /** The invariant holds in every reachable state. */
  lemma {:induction false} RunIsValid(states: seq<Books>, events: seq<Event>, k: nat)
    requires IsRun(states, events) && k < |states|
    ensures Valid(states[k])
  {
    if k == 0 {
      SeededIsValid();
    } else {
      RunIsValid(states, events, k - 1);
      RunStep(states, events, k - 1);
    }
  }

  ghost predicate Growing(states: seq<Books>) {
    forall k | 0 <= k < |states| - 1 :: Extends(states[k], states[k + 1])
  }

  lemma RunGrows(states: seq<Books>, events: seq<Event>)
    requires IsRun(states, events)
    ensures Growing(states)
  {
    forall k | 0 <= k < |states| - 1 ensures Extends(states[k], states[k + 1]) {
      RunIsValid(states, events, k);
      RunStep(states, events, k);
    }
  }

  lemma {:induction false} GrowingExtends(states: seq<Books>, j: nat, k: nat)
    requires Growing(states) && j <= k < |states|
    ensures Extends(states[j], states[k])
  {
    if j < k {
      GrowingExtends(states, j, k - 1);
      ExtendsTransitive(states[j], states[k - 1], states[k]);
    }
  }

  /** The ledger of an earlier state is a prefix of the ledger of a later one. */
  lemma RunExtends(states: seq<Books>, events: seq<Event>, j: nat, k: nat)
    requires IsRun(states, events) && j <= k < |states|
    ensures Extends(states[j], states[k])
  {
    RunGrows(states, events);
    GrowingExtends(states, j, k);
  }

  // ---------------------------------------------------------------------------
  // Direct transfers that stay between wallets.
  // ---------------------------------------------------------------------------

  /** Direct transfers (`WalletService.transfer`) moved nothing, on balance, through any account but wallets. */
  ghost predicate PlainOnWallets(b: Books) {
    forall a: Account :: !a.Wallet? ==> Total(b.entries, Plain(a)) == 0
  }

  predicate Ordinary(op: Op) {
    op.DoTransfer? ==> op.debit.Wallet? && op.credit.Wallet?
  }

  lemma StepKeepsPlain(b: Books, e: Event)
    requires Valid(b) && PlainOnWallets(b) && Enabled(b, e.op) && Ordinary(e.op)
    ensures PlainOnWallets(Next(b, e))
  {
    var legs := StepLegs(b, e);
    StepKinds(b, e);
    if Step(b, e).Ok? && legs != [] {
      StepIsPosting(b, e);
      PostAllEffect(b, legs, StepContext(e));
      forall a: Account | !a.Wallet? ensures Total(Next(b, e).entries, Plain(a)) == 0 {
        PlainReading(legs, a);
      }
    }
  }

  lemma {:induction false} PlainReading(legs: seq<Leg>, a: Account)
    requires forall l | l in legs :: l.kind == OtherTransfer ==> l.debit != a && l.credit != a
    ensures LegsReading(legs, Plain(a)) == 0
  {
    if legs != [] {
      PlainReading(legs[1..], a);
    }
  }

  /** In a run whose direct transfers stay between wallets they leave house and pool accounts alone. */
  lemma {:induction false} RunKeepsPlain(states: seq<Books>, events: seq<Event>, k: nat)
    requires IsRun(states, events) && k < |states|
    requires forall i | 0 <= i < k :: Ordinary(events[i].op)
    ensures PlainOnWallets(states[k])
  {
    if k > 0 {
      RunKeepsPlain(states, events, k - 1);
      RunIsValid(states, events, k - 1);
      StepKeepsPlain(states[k - 1], events[k - 1]);
    }
  }

  /** The legs a successful unit of work posts: none for account creation and for a repeated funding call. */
  ghost function StepLegs(b: Books, e: Event): seq<Leg>
    requires Enabled(b, e.op)
  {
    match e.op
    case OpenWallet(_) => []
    case EnsurePool(_) => []
    case DoRecharge(u, amount, text, _) =>
      if ClientKey(text) in KeysOf(b.transfers) then [] else [FundingLeg(Recharge, ClientKey(text), u, amount)]
    case DoBonus(u, amount) =>
      if BonusKey(u) in KeysOf(b.transfers) then [] else [FundingLeg(SignupBonus, BonusKey(u), u, amount)]
    case DoTransfer(from, to, amount, key) => [TransferLeg(from, to, amount, key)]
    case DoPlace(u, m, o, stake, view) =>
      if Quote(view, o, stake, e.ctx.now).Err? then []
      else [PlaceLeg(|b.bets|, NewBet(u, m, o, stake, Quote(view, o, stake, e.ctx.now).value))]
    case DoSell(id, u, view) =>
      if id >= |b.bets| || CloseQuote(b.bets[id], view, e.ctx.now).Err? then []
      else CloseLegs(id, b.bets[id], CloseQuote(b.bets[id], view, e.ctx.now).value)
    case DoResolve(_, _, vs) => BatchLegs(b.bets, vs, Settle)
    case DoReverse(_, vs) => BatchLegs(b.bets, vs, Reverse)
  }

  function StepContext(e: Event): Context {
    match e.op
    case DoRecharge(_, _, _, _) => Context(None, e.ctx.now)
    case DoBonus(_, _) => Context(None, e.ctx.now)
    case DoPlace(u, _, _, _, _) => Context(Some(u), e.ctx.now)
    case DoSell(_, u, _) => Context(Some(u), e.ctx.now)
    case _ => e.ctx
  }

  /** A successful unit of work that posts anything is its legs, posted, plus changes to bets. */
  lemma StepIsPosting(b: Books, e: Event)
    requires Enabled(b, e.op) && Step(b, e).Ok? && StepLegs(b, e) != []
    ensures PostAll(b, StepLegs(b, e), StepContext(e)).Ok?
    ensures Next(b, e) == PostAll(b, StepLegs(b, e), StepContext(e)).value.(bets := Next(b, e).bets)
  {
  }

  lemma StepKinds(b: Books, e: Event)
    requires Enabled(b, e.op)
    ensures forall l | l in StepLegs(b, e) :: IsBetKind(l.kind) || OutsideLeg(l)
    ensures forall l | l in StepLegs(b, e) && l.kind == OtherTransfer ::
              e.op.DoTransfer? && l.debit == e.op.debit && l.credit == e.op.credit
  {
    match e.op
    case DoResolve(_, _, vs) => BatchKinds(b.bets, vs, Settle);
    case DoReverse(_, vs) => BatchKinds(b.bets, vs, Reverse);
    case DoSell(id, u, view) =>
      if StepLegs(b, e) != [] {
        CloseKinds(id, b.bets[id], CloseQuote(b.bets[id], view, e.ctx.now).value);
      }
    case _ =>
  }
}
