/** Event-level settlement (`backend/app/settlement/event_service.py`): one transaction per child market,
    each of which may fail alone, repeated until all have gone through. */
module EventModel {
  import opened Money
  import opened Domain
  import opened Posting
  import opened Lifecycle
  import opened Transactions
  import opened Invariant
  import opened Exactness
  import opened Database

  // ---------------------------------------------------------------------------
  // Derived status.
  // ---------------------------------------------------------------------------

  datatype EventStatus = EventOpen | PartiallyResolved | EventResolved | EventVoid

  datatype ChildStatus = ChildStatus(status: MarketStatus, isYesWinner: bool)

  function ResolvedOnes(children: seq<ChildStatus>): (r: seq<ChildStatus>)
    ensures forall c :: c in r <==> c in children && c.status == MarketResolved
    ensures |r| <= |children|
    ensures |r| == |children| <==> forall c | c in children :: c.status == MarketResolved
  {
    if children == [] then []
    else
      assert children == [children[0]] + children[1..];
      (if children[0].status == MarketResolved then [children[0]] else []) + ResolvedOnes(children[1..])
  }

  function DeriveEventStatus(children: seq<ChildStatus>): EventStatus {
    if children == [] then EventOpen
    else
      var resolved := ResolvedOnes(children);
      if |resolved| == 0 then EventOpen
      else if |resolved| < |children| then PartiallyResolved
      else if exists c | c in resolved :: c.isYesWinner then EventResolved
      else EventVoid
  }

  /** The four statuses, each exactly. Two YES winners still read as resolved. */
  lemma EventStatusIff(children: seq<ChildStatus>)
    ensures DeriveEventStatus(children) == EventOpen <==> forall c | c in children :: c.status != MarketResolved
    ensures DeriveEventStatus(children) == PartiallyResolved <==>
      (exists c | c in children :: c.status == MarketResolved) && exists c | c in children :: c.status != MarketResolved
    ensures DeriveEventStatus(children) == EventResolved <==>
      && children != [] && (forall c | c in children :: c.status == MarketResolved)
      && exists c | c in children :: c.isYesWinner
    ensures DeriveEventStatus(children) == EventVoid <==>
      && children != [] && (forall c | c in children :: c.status == MarketResolved)
      && forall c | c in children :: !c.isYesWinner
  {
    var resolved := ResolvedOnes(children);
    if resolved != [] {
      assert resolved[0] in resolved;
    }
    if children != [] {
      assert children[0] in children;
    }
  }

  /** The YES outcome of a market, when it has exactly one (`scalar_one` raises otherwise). */
  function SoleOutcome(outcomes: seq<Outcome>, yes: bool): Option<OutcomeId> {
    if outcomes == [] then None
    else if outcomes[0].isYes != yes then SoleOutcome(outcomes[1..], yes)
    else if exists o | o in outcomes[1..] :: o.isYes == yes then None
    else Some(outcomes[0].id)
  }

  /** The first YES outcome: what the status is read with, whether or not there are more. */
  function FirstYes(outcomes: seq<Outcome>): (r: Option<OutcomeId>)
    ensures r.Some? ==> exists o | o in outcomes :: o.isYes && r == Some(o.id)
    ensures SoleOutcome(outcomes, true).Some? ==> r == SoleOutcome(outcomes, true)
  {
    if outcomes == [] then None
    else if outcomes[0].isYes then Some(outcomes[0].id)
    else
      assert outcomes == [outcomes[0]] + outcomes[1..];
      FirstYes(outcomes[1..])
  }

  function StatusOf(row: MarketRow): ChildStatus {
    ChildStatus(row.view.status, row.winner.Some? && row.winner == FirstYes(row.view.outcomes))
  }

  lemma {:induction false} FirstYesIs(outcomes: seq<Outcome>, k: nat)
    requires k < |outcomes| && outcomes[k].isYes && forall j | 0 <= j < k :: !outcomes[j].isYes
    ensures FirstYes(outcomes) == Some(outcomes[k].id)
  {
    if k > 0 {
      FirstYesIs(outcomes[1..], k - 1);
    }
  }

  lemma {:induction false} FirstYesAt(outcomes: seq<Outcome>) returns (k: nat)
    requires FirstYes(outcomes).Some?
    ensures k < |outcomes| && outcomes[k].isYes && forall j | 0 <= j < k :: !outcomes[j].isYes
  {
    if outcomes[0].isYes {
      k := 0;
    } else {
      var rest := FirstYesAt(outcomes[1..]);
      k := rest + 1;
    }
  }

  /** A child reads as a YES winner exactly when its stored winner is its first YES outcome. */
  lemma StatusOfIff(row: MarketRow)
    ensures StatusOf(row).status == row.view.status
    ensures StatusOf(row).isYesWinner <==>
      exists k | 0 <= k < |row.view.outcomes| ::
        && row.view.outcomes[k].isYes && row.winner == Some(row.view.outcomes[k].id)
        && forall j | 0 <= j < k :: !row.view.outcomes[j].isYes
  {
    var outcomes := row.view.outcomes;
    forall k | 0 <= k < |outcomes| && outcomes[k].isYes && forall j | 0 <= j < k :: !outcomes[j].isYes
      ensures FirstYes(outcomes) == Some(outcomes[k].id)
    {
      FirstYesIs(outcomes, k);
    }
    if FirstYes(outcomes).Some? {
      var k := FirstYesAt(outcomes);
      FirstYesIs(outcomes, k);
    }
  }

  // ---------------------------------------------------------------------------
  // Attempts.
  // ---------------------------------------------------------------------------

  /** One child transaction of a pass: it may crash for reasons of its own before it commits. */
  datatype Attempt = Attempt(market: MarketId, outcome: OutcomeId, crashes: bool, now: Time)

  lemma ResolveKeepsValid(db: Db, m: MarketId, winner: OutcomeId, reason: string, ctx: Context)
    requires Valid(db.books) && ResolveTx(db, m, winner, reason, ctx).Ok?
    ensures Valid(ResolveTx(db, m, winner, reason, ctx).value.books)
  {
    PassKeepsValid(db.books, PendingVerdicts(db.books.bets, m, winner), Settle, ctx);
  }

  ghost predicate Succeeds(db: Db, a: Attempt, reason: string, actor: Option<UserId>)
    requires Valid(db.books)
  {
    !a.crashes && ResolveTx(db, a.market, a.outcome, reason, Context(actor, a.now)).Ok?
  }

  ghost function After(db: Db, a: Attempt, reason: string, actor: Option<UserId>): (r: Db)
    requires Valid(db.books)
    ensures Valid(r.books)
  {
    if Succeeds(db, a, reason, actor) then
      ResolveKeepsValid(db, a.market, a.outcome, reason, Context(actor, a.now));
      ResolveTx(db, a.market, a.outcome, reason, Context(actor, a.now)).value
    else db
  }

  ghost function SettleAll(db: Db, tries: seq<Attempt>, reason: string, actor: Option<UserId>): (r: Db)
    requires Valid(db.books)
    ensures Valid(r.books)
    decreases tries
  {
    if tries == [] then db else SettleAll(After(db, tries[0], reason, actor), tries[1..], reason, actor)
  }

  ghost function Failures(db: Db, tries: seq<Attempt>, reason: string, actor: Option<UserId>): seq<MarketId>
    requires Valid(db.books)
    decreases tries
  {
    if tries == [] then []
    else
      (if Succeeds(db, tries[0], reason, actor) then [] else [tries[0].market])
      + Failures(After(db, tries[0], reason, actor), tries[1..], reason, actor)
  }

  ghost function Successes(db: Db, tries: seq<Attempt>, reason: string, actor: Option<UserId>): set<MarketId>
    requires Valid(db.books)
    decreases tries
  {
    if tries == [] then {}
    else
      (if Succeeds(db, tries[0], reason, actor) then {tries[0].market} else {})
      + Successes(After(db, tries[0], reason, actor), tries[1..], reason, actor)
  }

  lemma {:induction false} OnlyTriedSucceed(db: Db, tries: seq<Attempt>, reason: string, actor: Option<UserId>)
    requires Valid(db.books)
    ensures forall m | m in Successes(db, tries, reason, actor) :: exists t | t in tries :: t.market == m
    decreases tries
  {
    if tries != [] {
      assert tries == [tries[0]] + tries[1..];
      OnlyTriedSucceed(After(db, tries[0], reason, actor), tries[1..], reason, actor);
    }
  }

  /** Of the children tried, each once, those that failed are exactly those that did not go through. */
  lemma {:induction false} FailedIffNotThrough(db: Db, tries: seq<Attempt>, reason: string, actor: Option<UserId>)
    requires Valid(db.books)
    requires forall i, j | 0 <= i < j < |tries| :: tries[i].market != tries[j].market
    ensures forall m :: m in Failures(db, tries, reason, actor) <==>
              (exists t | t in tries :: t.market == m) && m !in Successes(db, tries, reason, actor)
    decreases tries
  {
    if tries != [] {
      assert tries == [tries[0]] + tries[1..];
      OnlyTriedSucceed(After(db, tries[0], reason, actor), tries[1..], reason, actor);
      FailedIffNotThrough(After(db, tries[0], reason, actor), tries[1..], reason, actor);
      forall t | t in tries[1..] ensures t.market != tries[0].market {
      }
    }
  }

  /** Every attempt of the run resolves its child on the outcome the event gives it. */
  predicate Follows(tries: seq<Attempt>, assign: map<MarketId, OutcomeId>) {
    forall t | t in tries :: t.market in assign && t.outcome == assign[t.market]
  }

  function MarketsOf(tries: seq<Attempt>): set<MarketId> {
    set t | t in tries :: t.market
  }

  // ---------------------------------------------------------------------------
  // Where any number of attempts has got to.
  // ---------------------------------------------------------------------------

  /** A bet after the children in `done` have gone through. */
  function SettledBy(b: Bet, assign: map<MarketId, OutcomeId>, done: set<MarketId>): Bet {
    if b.market in done && b.market in assign && b.status == Pending
    then Settled(b, b.outcome == assign[b.market])
    else b
  }

  function MarkedBy(row: MarketRow, m: MarketId, assign: map<MarketId, OutcomeId>, done: set<MarketId>): MarketRow {
    if m in done && m in assign then Stamped(row, assign[m], 0) else row
  }

  /** Equal but for the time stamp of the resolution. */
  predicate SameRow(x: MarketRow, y: MarketRow) {
    x.view == y.view && x.winner == y.winner
  }

  /** A bet that can be settled on the given side: a winner needs a price, and the side must be new. */
  ghost predicate SettleableBet(b: Books, i: BetId, won: bool)
    requires i < |b.bets|
  {
    (won ==> b.bets[i].price > 0) && SettleKey(i, MainLeg(won)) !in KeysOf(b.transfers)
  }

  /** Nothing in the starting state keeps child `m` from being resolved on `winner`, funds apart. */
  ghost predicate Settleable(start: Db, m: MarketId, winner: OutcomeId) {
    && m in start.markets && start.markets[m].view.status != MarketVoided
    && var bets := start.books.bets;
       forall i | 0 <= i < |bets| && bets[i].market == m && bets[i].status == Pending ::
         SettleableBet(start.books, i, bets[i].outcome == winner)
  }

  ghost predicate SameBets(start: Db, db: Db, assign: map<MarketId, OutcomeId>, done: set<MarketId>) {
    && |db.books.bets| == |start.books.bets|
    && forall i | 0 <= i < |db.books.bets| :: db.books.bets[i] == SettledBy(start.books.bets[i], assign, done)
  }

  ghost predicate SameMarkets(start: Db, db: Db, assign: map<MarketId, OutcomeId>, done: set<MarketId>) {
    && db.markets.Keys == start.markets.Keys
    && forall m | m in db.markets :: SameRow(db.markets[m], MarkedBy(start.markets[m], m, assign, done))
  }

  ghost predicate SameFunding(x: Books, y: Books) {
    forall a: Account ::
      && Total(x.entries, Funded(a)) == Total(y.entries, Funded(a))
      && Total(x.entries, Plain(a)) == Total(y.entries, Plain(a))
  }

  /** Keys about bets of children not settled yet are those of the start. */
  ghost predicate SameKeys(start: Db, db: Db, done: set<MarketId>) {
    forall k | BetOf(k).Some? && BetOf(k).value < |start.books.bets|
               && start.books.bets[BetOf(k).value].market !in done ::
      k in KeysOf(db.books.transfers) <==> k in KeysOf(start.books.transfers)
  }

  ghost predicate Progress(start: Db, db: Db, assign: map<MarketId, OutcomeId>, done: set<MarketId>) {
    && Valid(start.books) && Valid(db.books)
    && done <= assign.Keys
    && SameBets(start, db, assign, done)
    && SameMarkets(start, db, assign, done)
    && SameFunding(start.books, db.books)
    && SameKeys(start, db, done)
    && forall m | m in done :: Settleable(start, m, assign[m])
  }

  /** The bets after a resolution, one by one. */
  lemma ResolvedBets(bets: seq<Bet>, m: MarketId, winner: OutcomeId)
    ensures forall i | 0 <= i < |bets| :: BatchBets(bets, PendingVerdicts(bets, m, winner), Settle)[i] ==
              if bets[i].market == m && bets[i].status == Pending then Settled(bets[i], bets[i].outcome == winner)
              else bets[i]
  {
    var vs := PendingVerdicts(bets, m, winner);
    BatchBetsAt(bets, vs, Settle);
    forall i | 0 <= i < |bets| && bets[i].market == m && bets[i].status == Pending
      ensures Verdict(i, bets[i].outcome == winner) in vs
    {
    }
  }

  /** A resolution moves no funding. */
  lemma ResolvedFunding(b: Books, vs: seq<Verdict>, ctx: Context)
    requires SoundBets(b.bets) && InRange(b.bets, vs) && RunPass(b, vs, Settle, ctx).Ok?
    ensures SameFunding(b, RunPass(b, vs, Settle, ctx).value)
  {
    var legs := BatchLegs(b.bets, vs, Settle);
    PostAllEffect(b, legs, ctx);
    BatchKinds(b.bets, vs, Settle);
    BetLegsFundNothing(b, legs, PostAll(b, legs, ctx).value);
  }

  /** It uses no key of a bet it does not hold, and the keys of those it holds were unused. */
  lemma ResolvedKeys(b: Books, vs: seq<Verdict>, ctx: Context)
    requires SoundBets(b.bets) && InRange(b.bets, vs) && Distinct(vs) && RunPass(b, vs, Settle, ctx).Ok?
    ensures forall k | BetOf(k).Some? && BetOf(k).value < |b.bets| && (forall v | v in vs :: v.id != BetOf(k).value) ::
              k in KeysOf(RunPass(b, vs, Settle, ctx).value.transfers) <==> k in KeysOf(b.transfers)
    ensures forall v | v in vs :: SettleKey(v.id, MainLeg(v.won)) !in KeysOf(b.transfers)
  {
    var legs := BatchLegs(b.bets, vs, Settle);
    PostAllEffect(b, legs, ctx);
    forall v | v in vs ensures SettleKey(v.id, MainLeg(v.won)) !in KeysOf(b.transfers) {
      BatchShapes(b.bets, vs, Settle);
      assert UsesLeg(b.bets[v.id], v.won, MainLeg(v.won));
      assert TurnKey(Settle, v.id, MainLeg(v.won)) in LegKeys(legs);
    }
    forall k | BetOf(k).Some? && BetOf(k).value < |b.bets| && (forall v | v in vs :: v.id != BetOf(k).value)
      ensures k !in LegKeys(legs)
    {
      PassKeysOf(b.bets, vs, Settle, BetOf(k).value);
    }
  }

  lemma ProgressBegins(start: Db, assign: map<MarketId, OutcomeId>)
    requires Valid(start.books)
    ensures Progress(start, start, assign, {})
  {
  }

  lemma NewlySettleable(start: Db, db: Db, assign: map<MarketId, OutcomeId>, done: set<MarketId>,
                        m: MarketId, ctx: Context)
    requires Progress(start, db, assign, done) && m in assign && m !in done
    requires RunPass(db.books, PendingVerdicts(db.books.bets, m, assign[m]), Settle, ctx).Ok?
    requires MarkResolved(db.markets, m, assign[m], ctx.now).Ok?
    ensures Settleable(start, m, assign[m])
  {
    var vs := PendingVerdicts(db.books.bets, m, assign[m]);
    ResolvedKeys(db.books, vs, ctx);
    assert SameRow(db.markets[m], MarkedBy(start.markets[m], m, assign, done));
    forall i | 0 <= i < |start.books.bets| && start.books.bets[i].market == m && start.books.bets[i].status == Pending
      ensures SettleableBet(start.books, i, start.books.bets[i].outcome == assign[m])
    {
      NewlySettleableBet(start, db, assign, done, m, i);
    }
  }

  lemma NewlySettleableBet(start: Db, db: Db, assign: map<MarketId, OutcomeId>, done: set<MarketId>,
                           m: MarketId, i: BetId)
    requires SameBets(start, db, assign, done) && SameKeys(start, db, done) && m in assign && m !in done
    requires !Unpayable(db.books.bets, PendingVerdicts(db.books.bets, m, assign[m]))
    requires forall v | v in PendingVerdicts(db.books.bets, m, assign[m]) ::
               SettleKey(v.id, MainLeg(v.won)) !in KeysOf(db.books.transfers)
    requires i < |start.books.bets| && start.books.bets[i].market == m && start.books.bets[i].status == Pending
    ensures SettleableBet(start.books, i, start.books.bets[i].outcome == assign[m])
  {
    var won := start.books.bets[i].outcome == assign[m];
    assert db.books.bets[i] == start.books.bets[i];
    assert Verdict(i, won) in PendingVerdicts(db.books.bets, m, assign[m]);
    assert BetOf(SettleKey(i, MainLeg(won))) == Some(i);
  }

  lemma ResolveKeysProgress(start: Db, db: Db, assign: map<MarketId, OutcomeId>, done: set<MarketId>, m: MarketId,
                            ctx: Context)
    requires Progress(start, db, assign, done) && m in assign
    requires RunPass(db.books, PendingVerdicts(db.books.bets, m, assign[m]), Settle, ctx).Ok?
    ensures var after := RunPass(db.books, PendingVerdicts(db.books.bets, m, assign[m]), Settle, ctx).value;
            SameKeys(start, Db(after, db.markets, db.audit), done + {m})
  {
    var vs := PendingVerdicts(db.books.bets, m, assign[m]);
    var after := RunPass(db.books, vs, Settle, ctx).value;
    ResolvedKeys(db.books, vs, ctx);
    forall k | BetOf(k).Some? && BetOf(k).value < |start.books.bets|
               && start.books.bets[BetOf(k).value].market !in done + {m}
      ensures k in KeysOf(after.transfers) <==> k in KeysOf(start.books.transfers)
    {
      assert db.books.bets[BetOf(k).value].market != m;
    }
  }

  lemma SettledByOneMore(b: Bet, now: Bet, assign: map<MarketId, OutcomeId>, done: set<MarketId>, m: MarketId)
    requires now == SettledBy(b, assign, done) && m in assign
    ensures SettledBy(b, assign, done + {m}) ==
      if now.market == m && now.status == Pending then Settled(now, now.outcome == assign[m]) else now
  {
  }

  lemma ResolveBetsProgress(start: Db, db: Db, assign: map<MarketId, OutcomeId>, done: set<MarketId>, m: MarketId,
                            ctx: Context)
    requires Valid(db.books) && SameBets(start, db, assign, done) && m in assign
    requires RunPass(db.books, PendingVerdicts(db.books.bets, m, assign[m]), Settle, ctx).Ok?
    ensures var after := RunPass(db.books, PendingVerdicts(db.books.bets, m, assign[m]), Settle, ctx).value;
            SameBets(start, Db(after, db.markets, db.audit), assign, done + {m})
  {
    ResolvedBets(db.books.bets, m, assign[m]);
    forall i | 0 <= i < |db.books.bets|
      ensures BatchBets(db.books.bets, PendingVerdicts(db.books.bets, m, assign[m]), Settle)[i] ==
        SettledBy(start.books.bets[i], assign, done + {m})
    {
      SettledByOneMore(start.books.bets[i], db.books.bets[i], assign, done, m);
    }
  }

  lemma ResolveMarketsProgress(start: Db, db: Db, assign: map<MarketId, OutcomeId>, done: set<MarketId>, m: MarketId,
                               now: Time)
    requires SameMarkets(start, db, assign, done) && m in assign
    requires MarkResolved(db.markets, m, assign[m], now).Ok?
    ensures SameMarkets(start, Db(db.books, MarkResolved(db.markets, m, assign[m], now).value, db.audit), assign,
                        done + {m})
  {
  }

  /** A child that goes through joins those that are done. Going through a second time pays nobody and
      keeps the stored winner. */
  lemma ChildDone(start: Db, db: Db, assign: map<MarketId, OutcomeId>, done: set<MarketId>,
                  m: MarketId, after: Db, reason: string, ctx: Context)
    requires Progress(start, db, assign, done) && m in assign
    requires ResolveTx(db, m, assign[m], reason, ctx) == Ok(after)
    ensures Progress(start, after, assign, done + {m})
  {
    ResolveKeepsValid(db, m, assign[m], reason, ctx);
    ResolveBetsProgress(start, db, assign, done, m, ctx);
    ResolveKeysProgress(start, db, assign, done, m, ctx);
    ResolveMarketsProgress(start, db, assign, done, m, ctx.now);
    ResolvedFunding(db.books, PendingVerdicts(db.books.bets, m, assign[m]), ctx);
    if m !in done {
      NewlySettleable(start, db, assign, done, m, ctx);
    }
  }

  /** One attempt: either the child is done, or nothing changed. */
  lemma AttemptProgress(start: Db, db: Db, assign: map<MarketId, OutcomeId>, done: set<MarketId>,
                        t: Attempt, reason: string, actor: Option<UserId>)
    requires Progress(start, db, assign, done)
    requires t.market in assign && t.outcome == assign[t.market]
    ensures Progress(start, After(db, t, reason, actor), assign,
                     done + if Succeeds(db, t, reason, actor) then {t.market} else {})
  {
    if Succeeds(db, t, reason, actor) {
      ChildDone(start, db, assign, done, t.market, After(db, t, reason, actor), reason, Context(actor, t.now));
    } else {
      assert done + {} == done;
    }
  }

  lemma RunCons(db: Db, done: set<MarketId>, tries: seq<Attempt>, reason: string, actor: Option<UserId>)
    requires Valid(db.books) && tries != []
    ensures SettleAll(db, tries, reason, actor) ==
      SettleAll(After(db, tries[0], reason, actor), tries[1..], reason, actor)
    ensures done + Successes(db, tries, reason, actor) ==
      done + (if Succeeds(db, tries[0], reason, actor) then {tries[0].market} else {})
      + Successes(After(db, tries[0], reason, actor), tries[1..], reason, actor)
  {
  }

  lemma {:induction false} RunProgress(start: Db, db: Db, assign: map<MarketId, OutcomeId>, done: set<MarketId>,
                                       tries: seq<Attempt>, reason: string, actor: Option<UserId>)
    requires Progress(start, db, assign, done) && Follows(tries, assign)
    ensures Progress(start, SettleAll(db, tries, reason, actor), assign, done + Successes(db, tries, reason, actor))
    decreases tries
  {
    if tries == [] {
      assert done + {} == done;
    } else {
      var t := tries[0];
      var next := After(db, t, reason, actor);
      var now := if Succeeds(db, t, reason, actor) then {t.market} else {};
      AttemptProgress(start, db, assign, done, t, reason, actor);
      RunProgress(start, next, assign, done + now, tries[1..], reason, actor);
      RunCons(db, done, tries, reason, actor);
    }
  }

  lemma RunFromStart(start: Db, assign: map<MarketId, OutcomeId>, tries: seq<Attempt>, reason: string,
                     actor: Option<UserId>)
    requires Valid(start.books) && Follows(tries, assign)
    ensures Progress(start, SettleAll(start, tries, reason, actor), assign, Successes(start, tries, reason, actor))
  {
    ProgressBegins(start, assign);
    RunProgress(start, start, assign, {}, tries, reason, actor);
    assert {} + Successes(start, tries, reason, actor) == Successes(start, tries, reason, actor);
  }

  /** The same balances, bets and market winners. */
  ghost predicate SameOutcome(x: Db, y: Db) {
    && (forall a :: Balance(x.books, a) == Balance(y.books, a))
    && x.books.bets == y.books.bets
    && x.markets.Keys == y.markets.Keys
    && forall m | m in x.markets :: SameRow(x.markets[m], y.markets[m])
  }

  lemma SameLedger(x: Books, y: Books, a: Account)
    requires Valid(x) && Valid(y) && x.bets == y.bets && SameFunding(x, y)
    ensures Balance(x, a) == Balance(y, a)
  {
    assert Balance(x, a) == Ledger(x.entries, a);
    assert Balance(y, a) == Ledger(y.entries, a);
    assert BetGauge(Book(a));
  }

  lemma SameProgress(start: Db, x: Db, y: Db, assign: map<MarketId, OutcomeId>, done: set<MarketId>)
    requires SameBets(start, x, assign, done) && SameBets(start, y, assign, done)
    requires SameMarkets(start, x, assign, done) && SameMarkets(start, y, assign, done)
    ensures x.books.bets == y.books.bets && x.markets.Keys == y.markets.Keys
    ensures forall m | m in x.markets :: SameRow(x.markets[m], y.markets[m])
  {
  }

  /** How far the attempts got decides everything but the order of the ledger. */
  lemma ProgressDetermines(start: Db, x: Db, y: Db, assign: map<MarketId, OutcomeId>, done: set<MarketId>)
    requires Progress(start, x, assign, done) && Progress(start, y, assign, done)
    ensures SameOutcome(x, y)
  {
    SameProgress(start, x, y, assign, done);
    forall a ensures Balance(x.books, a) == Balance(y.books, a) {
      SameLedger(x.books, y.books, a);
    }
  }

  /** Retries converge: two runs of attempts for the same winners, under any pattern of failures and any
      number of passes, end alike once every child has gone through in both. */
  lemma EventRetriesConverge(start: Db, assign: map<MarketId, OutcomeId>, xs: seq<Attempt>, ys: seq<Attempt>,
                             reason: string, actor: Option<UserId>)
    requires Valid(start.books) && Follows(xs, assign) && Follows(ys, assign)
    requires Successes(start, xs, reason, actor) == assign.Keys == Successes(start, ys, reason, actor)
    ensures SameOutcome(SettleAll(start, xs, reason, actor), SettleAll(start, ys, reason, actor))
  {
    RunFromStart(start, assign, xs, reason, actor);
    RunFromStart(start, assign, ys, reason, actor);
    ProgressDetermines(start, SettleAll(start, xs, reason, actor), SettleAll(start, ys, reason, actor), assign,
                       assign.Keys);
  }

  // ---------------------------------------------------------------------------
  // When a single failure-free pass settles every child.
  // ---------------------------------------------------------------------------

  /** What settling every child brings to account `a`. */
  function Yield(bets: seq<Bet>, assign: map<MarketId, OutcomeId>, a: Account): int
    requires SoundBets(bets)
  {
    if bets == [] then 0
    else
      var n := |bets| - 1;
      Yield(bets[..n], assign, a) + Stand(SettledBy(bets[n], assign, assign.Keys), a) - Stand(bets[n], a)
  }

  ghost predicate Covers(start: Db, assign: map<MarketId, OutcomeId>, a: Account)
    requires SoundBets(start.books.bets)
  {
    0 <= Balance(start.books, a) + Yield(start.books.bets, assign, a)
  }

  /** In the starting state every child can be resolved, and house promo covers the winnings of all of them
      together, as each pool does its stakes. */
  ghost predicate Completable(start: Db, assign: map<MarketId, OutcomeId>) {
    && Valid(start.books)
    && (forall m | m in assign :: Settleable(start, m, assign[m]))
    && Covers(start, assign, HousePromo)
    && forall m | m in assign :: Covers(start, assign, Liability(m))
  }

  lemma {:induction false} YieldIs(bets: seq<Bet>, after: seq<Bet>, assign: map<MarketId, OutcomeId>, a: Account)
    requires SoundBets(bets) && SoundBets(after) && |after| == |bets|
    requires forall i | 0 <= i < |bets| :: after[i] == SettledBy(bets[i], assign, assign.Keys)
    ensures BookTotal(after, Book(a)) == BookTotal(bets, Book(a)) + Yield(bets, assign, a)
  {
    if bets != [] {
      YieldIs(bets[..|bets| - 1], after[..|bets| - 1], assign, a);
    }
  }

  lemma BalanceIs(start: Books, b: Books, a: Account)
    requires Valid(start) && Valid(b) && SameFunding(start, b)
    ensures Balance(b, a) - Balance(start, a) == BookTotal(b.bets, Book(a)) - BookTotal(start.bets, Book(a))
  {
    LedgerOf(start, a);
    LedgerOf(b, a);
  }

  lemma CompletedCovers(start: Db, final: Db, assign: map<MarketId, OutcomeId>, a: Account)
    requires Progress(start, final, assign, assign.Keys)
    ensures Covers(start, assign, a)
  {
    YieldIs(start.books.bets, final.books.bets, assign, a);
    BalanceIs(start.books, final.books, a);
    BalanceNonNegative(final.books, a);
  }

  /** If some run of attempts settled every child, the starting state was completable. */
  lemma CompletedIsCompletable(start: Db, final: Db, assign: map<MarketId, OutcomeId>)
    requires Progress(start, final, assign, assign.Keys)
    ensures Completable(start, assign)
  {
    CompletedCovers(start, final, assign, HousePromo);
    forall m | m in assign ensures Covers(start, assign, Liability(m)) {
      CompletedCovers(start, final, assign, Liability(m));
    }
  }

  /** Settling more children never brings money to house promo, nor to the pool of a child already settled. */
  lemma LaterCosts(b: Bet, assign: map<MarketId, OutcomeId>, early: set<MarketId>, late: set<MarketId>, a: Account)
    requires SoundBet(b) && early <= late && (a == HousePromo || (a.Liability? && a.market in early))
    requires b.market in late && b.market in assign && b.status == Pending && b.outcome == assign[b.market] ==>
      b.price > 0
    ensures Stand(SettledBy(b, assign, early), a) >= Stand(SettledBy(b, assign, late), a)
  {
    if b.price > 0 {
      PayoutCoversStake(b.stake, b.price);
    }
  }

  /** The pending bets of a child not done yet are payable and unsettled, as they were at the start. */
  lemma NextIsFree(start: Db, db: Db, assign: map<MarketId, OutcomeId>, done: set<MarketId>, m: MarketId)
    requires Valid(start.books) && SameBets(start, db, assign, done) && SameKeys(start, db, done)
    requires m in assign && Settleable(start, m, assign[m])
    ensures FreeToSettle(db.books, PendingVerdicts(db.books.bets, m, assign[m]))
  {
    forall v | v in PendingVerdicts(db.books.bets, m, assign[m])
      ensures v.won ==> db.books.bets[v.id].price > 0
      ensures SettleKey(v.id, MainLeg(v.won)) !in KeysOf(db.books.transfers)
    {
      assert db.books.bets[v.id] == SettledBy(start.books.bets[v.id], assign, done);
      assert BetOf(SettleKey(v.id, MainLeg(v.won))) == Some(v.id);
    }
  }

  /** No price and no key keeps the listed bets from being settled. */
  ghost predicate FreeToSettle(b: Books, vs: seq<Verdict>) {
    && InRange(b.bets, vs)
    && forall v | v in vs ::
         (v.won ==> b.bets[v.id].price > 0) && SettleKey(v.id, MainLeg(v.won)) !in KeysOf(b.transfers)
  }

  /** From any point of a failure-free pass over a completable event the next child goes through. */
  lemma NextChildSucceeds(start: Db, db: Db, assign: map<MarketId, OutcomeId>, done: set<MarketId>,
                          m: MarketId, reason: string, ctx: Context)
    requires Completable(start, assign) && Progress(start, db, assign, done) && m in assign
    ensures ResolveTx(db, m, assign[m], reason, ctx).Ok?
  {
    NextIsFree(start, db, assign, done, m);
    PromoSuffices(start, db, assign, done, m);
    OwnPoolSuffices(start, db, assign, done, m);
    RowAccepts(start, db, assign, done, m, ctx.now);
    ChildResolves(db, m, assign[m], reason, ctx);
  }

  lemma PromoSuffices(start: Db, db: Db, assign: map<MarketId, OutcomeId>, done: set<MarketId>, m: MarketId)
    requires Completable(start, assign) && Progress(start, db, assign, done) && m in assign
    requires FreeToSettle(db.books, PendingVerdicts(db.books.bets, m, assign[m]))
    ensures WinningsOf(db.books.bets, PendingVerdicts(db.books.bets, m, assign[m])) <= Balance(db.books, HousePromo)
  {
    FundsSuffice(start, db, assign, done, m, HousePromo);
    PromoShare(db.books, PendingVerdicts(db.books.bets, m, assign[m]));
  }

  lemma PromoShare(b: Books, vs: seq<Verdict>)
    requires SoundBets(b.bets) && InRange(b.bets, vs)
    requires 0 <= Balance(b, HousePromo) + PassShare(b.bets, vs, HousePromo)
    ensures WinningsOf(b.bets, vs) <= Balance(b, HousePromo)
  {
  }

  lemma OwnShare(b: Books, vs: seq<Verdict>, m: MarketId)
    requires SoundBets(b.bets) && InRange(b.bets, vs)
    requires 0 <= Balance(b, Liability(m)) + PassShare(b.bets, vs, Liability(m))
    ensures StakesIn(b.bets, vs, m) <= Balance(b, Liability(m))
  {
  }

  lemma OwnPoolSuffices(start: Db, db: Db, assign: map<MarketId, OutcomeId>, done: set<MarketId>, m: MarketId)
    requires Completable(start, assign) && Progress(start, db, assign, done) && m in assign
    requires FreeToSettle(db.books, PendingVerdicts(db.books.bets, m, assign[m]))
    ensures StakesIn(db.books.bets, PendingVerdicts(db.books.bets, m, assign[m]), m) <= Balance(db.books, Liability(m))
  {
    FundsSuffice(start, db, assign, done, m, Liability(m));
    OwnShare(db.books, PendingVerdicts(db.books.bets, m, assign[m]), m);
  }

  lemma ChildResolves(db: Db, m: MarketId, winner: OutcomeId, reason: string, ctx: Context)
    requires Valid(db.books) && MarkResolved(db.markets, m, winner, ctx.now).Ok?
    requires FreeToSettle(db.books, PendingVerdicts(db.books.bets, m, winner))
    requires WinningsOf(db.books.bets, PendingVerdicts(db.books.bets, m, winner)) <= Balance(db.books, HousePromo)
    requires StakesIn(db.books.bets, PendingVerdicts(db.books.bets, m, winner), m) <= Balance(db.books, Liability(m))
    ensures ResolveTx(db, m, winner, reason, ctx).Ok?
  {
    var vs := PendingVerdicts(db.books.bets, m, winner);
    EveryPoolSuffices(db.books, vs, m);
    ResolveOkIff(db.books, vs, ctx);
  }

  lemma RowAccepts(start: Db, db: Db, assign: map<MarketId, OutcomeId>, done: set<MarketId>, m: MarketId, now: Time)
    requires SameMarkets(start, db, assign, done) && m in assign && Settleable(start, m, assign[m])
    ensures MarkResolved(db.markets, m, assign[m], now).Ok?
  {
    assert SameRow(db.markets[m], MarkedBy(start.markets[m], m, assign, done));
  }

  lemma EveryPoolSuffices(b: Books, vs: seq<Verdict>, m: MarketId)
    requires Valid(b) && InRange(b.bets, vs) && forall v | v in vs :: b.bets[v.id].market == m
    requires StakesIn(b.bets, vs, m) <= Balance(b, Liability(m))
    ensures forall k :: StakesIn(b.bets, vs, k) <= Balance(b, Liability(k))
  {
    forall k ensures StakesIn(b.bets, vs, k) <= Balance(b, Liability(k)) {
      if k != m {
        OtherPools(b.bets, vs, m, k);
        BalanceNonNegative(b, Liability(k));
      }
    }
  }

  lemma BalanceNonNegative(b: Books, a: Account)
    requires Valid(b)
    ensures Balance(b, a) >= 0
  {
  }

  /** A resolution takes nothing from the pools of other markets. */
  lemma {:induction false} OtherPools(bets: seq<Bet>, vs: seq<Verdict>, m: MarketId, k: MarketId)
    requires InRange(bets, vs) && k != m && forall v | v in vs :: bets[v.id].market == m
    ensures StakesIn(bets, vs, k) == 0
  {
    if vs != [] {
      OtherPools(bets, vs[1..], m, k);
    }
  }

  /** What the next child takes from house promo or from its own pool is there. */
  lemma FundsSuffice(start: Db, db: Db, assign: map<MarketId, OutcomeId>, done: set<MarketId>,
                     m: MarketId, a: Account)
    requires Completable(start, assign) && Progress(start, db, assign, done) && m in assign
    requires FreeToSettle(db.books, PendingVerdicts(db.books.bets, m, assign[m]))
    requires a == HousePromo || a == Liability(m)
    ensures 0 <= Balance(db.books, a) + PassShare(db.books.bets, PendingVerdicts(db.books.bets, m, assign[m]), a)
  {
    var vs := PendingVerdicts(db.books.bets, m, assign[m]);
    ShareIs(db.books, vs, a);
    NextLeavesEnough(start, db, assign, done, m, a);
    BalanceIs(start.books, db.books, a);
    assert Covers(start, assign, a);
  }

  /** On any account, what a settlement moves is the difference of the closed forms. */
  lemma ShareIs(b: Books, vs: seq<Verdict>, a: Account)
    requires Valid(b) && Resolvable(b, vs) && !Unpayable(b.bets, vs)
    ensures SoundBets(BatchBets(b.bets, vs, Settle))
    ensures PassShare(b.bets, vs, a) == BookTotal(BatchBets(b.bets, vs, Settle), Book(a)) - BookTotal(b.bets, Book(a))
  {
    var legs := BatchLegs(b.bets, vs, Settle);
    BatchMoves(b.bets, vs, Settle, Book(a));
    BatchNet(b.bets, vs, Settle, a);
    BatchKinds(b.bets, vs, Settle);
    NoFundingReading(legs, a);
    NetIsReading(legs, a);
  }

  lemma LedgerOf(b: Books, a: Account)
    requires Valid(b)
    ensures Balance(b, a) ==
      Opening(a) + Total(b.entries, Funded(a)) + Total(b.entries, Plain(a)) + BookTotal(b.bets, Book(a))
  {
    assert Balance(b, a) == Ledger(b.entries, a);
    assert BetGauge(Book(a));
  }

  lemma PayableWhenSettleable(start: Db, assign: map<MarketId, OutcomeId>, i: BetId)
    requires i < |start.books.bets| && forall m | m in assign :: Settleable(start, m, assign[m])
    ensures var b := start.books.bets[i];
      b.market in assign && b.status == Pending && b.outcome == assign[b.market] ==> b.price > 0
  {
    var b := start.books.bets[i];
    if b.market in assign {
      assert Settleable(start, b.market, assign[b.market]);
    }
  }

  lemma {:induction false} DominatesYield(bets: seq<Bet>, next: seq<Bet>, assign: map<MarketId, OutcomeId>, a: Account)
    requires SoundBets(bets) && SoundBets(next) && |next| == |bets|
    requires forall i | 0 <= i < |bets| :: Stand(next[i], a) >= Stand(SettledBy(bets[i], assign, assign.Keys), a)
    ensures BookTotal(next, Book(a)) >= BookTotal(bets, Book(a)) + Yield(bets, assign, a)
  {
    if bets != [] {
      DominatesYield(bets[..|bets| - 1], next[..|bets| - 1], assign, a);
    }
  }

  /** House promo, and the child's own pool, hold at least as much after the next child as when all are done. */
  lemma NextLeavesEnough(start: Db, db: Db, assign: map<MarketId, OutcomeId>, done: set<MarketId>,
                         m: MarketId, a: Account)
    requires SoundBets(start.books.bets) && SameBets(start, db, assign, done) && m in assign
    requires done <= assign.Keys && forall m | m in assign :: Settleable(start, m, assign[m])
    requires SoundBets(BatchBets(db.books.bets, PendingVerdicts(db.books.bets, m, assign[m]), Settle))
    requires a == HousePromo || a == Liability(m)
    ensures BookTotal(BatchBets(db.books.bets, PendingVerdicts(db.books.bets, m, assign[m]), Settle), Book(a))
      >= BookTotal(start.books.bets, Book(a)) + Yield(start.books.bets, assign, a)
  {
    var next := BatchBets(db.books.bets, PendingVerdicts(db.books.bets, m, assign[m]), Settle);
    ResolvedBets(db.books.bets, m, assign[m]);
    forall i | 0 <= i < |next|
      ensures Stand(next[i], a) >= Stand(SettledBy(start.books.bets[i], assign, assign.Keys), a)
    {
      SettledByOneMore(start.books.bets[i], db.books.bets[i], assign, done, m);
      PayableWhenSettleable(start, assign, i);
      LaterCosts(start.books.bets[i], assign, done + {m}, assign.Keys, a);
    }
    DominatesYield(start.books.bets, next, assign, a);
  }

  /** A pass without crashes over a completable event has no failed child. */
  lemma {:induction false} FailureFreePassSucceeds(start: Db, db: Db, assign: map<MarketId, OutcomeId>,
                                                   done: set<MarketId>, tries: seq<Attempt>,
                                                   reason: string, actor: Option<UserId>)
    requires Completable(start, assign) && Progress(start, db, assign, done)
    requires Follows(tries, assign) && forall t | t in tries :: !t.crashes
    ensures Failures(db, tries, reason, actor) == []
    ensures Successes(db, tries, reason, actor) == MarketsOf(tries)
    decreases tries
  {
    if tries != [] {
      var t := tries[0];
      NextChildSucceeds(start, db, assign, done, t.market, reason, Context(actor, t.now));
      AttemptProgress(start, db, assign, done, t, reason, actor);
      FailureFreePassSucceeds(start, After(db, t, reason, actor), assign, done + {t.market}, tries[1..], reason, actor);
      MarketsOfCons(tries);
      FailuresCons(db, tries, reason, actor);
    }
  }

  /** A pass without crashes settles every child exactly when the starting state is completable. */
  lemma PassCompletesIff(start: Db, assign: map<MarketId, OutcomeId>, pass: seq<Attempt>,
                         reason: string, actor: Option<UserId>)
    requires Valid(start.books)
    requires Follows(pass, assign) && (forall t | t in pass :: !t.crashes) && MarketsOf(pass) == assign.Keys
    ensures Successes(start, pass, reason, actor) == assign.Keys <==> Completable(start, assign)
  {
    if Completable(start, assign) {
      ProgressBegins(start, assign);
      FailureFreePassSucceeds(start, start, assign, {}, pass, reason, actor);
    }
    if Successes(start, pass, reason, actor) == assign.Keys {
      RunFromStart(start, assign, pass, reason, actor);
      CompletedIsCompletable(start, SettleAll(start, pass, reason, actor), assign);
    }
  }

  lemma MarketsOfCons(tries: seq<Attempt>)
    requires tries != []
    ensures MarketsOf(tries) == {tries[0].market} + MarketsOf(tries[1..])
  {
    assert tries == [tries[0]] + tries[1..];
  }

  lemma FailuresCons(db: Db, tries: seq<Attempt>, reason: string, actor: Option<UserId>)
    requires Valid(db.books) && tries != [] && Succeeds(db, tries[0], reason, actor)
    ensures Failures(db, tries, reason, actor) ==
      Failures(After(db, tries[0], reason, actor), tries[1..], reason, actor)
    ensures Successes(db, tries, reason, actor) ==
      {tries[0].market} + Successes(After(db, tries[0], reason, actor), tries[1..], reason, actor)
  {
  }

  /** Any run of retries that completed the event ends like one failure-free pass over the same children. */
  lemma RetriesEqualOnePass(start: Db, assign: map<MarketId, OutcomeId>, retries: seq<Attempt>, pass: seq<Attempt>,
                            reason: string, actor: Option<UserId>)
    requires Valid(start.books)
    requires Follows(retries, assign) && Successes(start, retries, reason, actor) == assign.Keys
    requires Follows(pass, assign) && (forall t | t in pass :: !t.crashes) && MarketsOf(pass) == assign.Keys
    ensures Failures(start, pass, reason, actor) == []
    ensures SameOutcome(SettleAll(start, retries, reason, actor), SettleAll(start, pass, reason, actor))
  {
    RunFromStart(start, assign, retries, reason, actor);
    CompletedIsCompletable(start, SettleAll(start, retries, reason, actor), assign);
    ProgressBegins(start, assign);
    FailureFreePassSucceeds(start, start, assign, {}, pass, reason, actor);
    EventRetriesConverge(start, assign, retries, pass, reason, actor);
  }
}
