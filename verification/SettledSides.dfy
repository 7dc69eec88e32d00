/** Which side settled bets are on when calls race: a bet placed late is settled by whichever resolution
    comes next, while the market keeps the first winner. */
module SettledSides {
  import opened Domain
  import opened Posting
  import opened Lifecycle
  import opened Transactions
  import opened Invariant
  import opened Runs
  import opened Concurrency
  import opened Interleavings
  import opened StoredWinners
  import opened Exactness
  import opened Guarantees
  import opened Settlement
  import opened Database
  import opened SoloRuns

  /** While the market is RESOLVED, exactly the settled bets on its stored winner are Won. */
  predicate Consistent(s: Sys, m: MarketId) {
    m in s.markets && s.markets[m].view.status == MarketResolved ==>
      forall bet | bet in s.books.bets && IsSettled(bet, m) ::
        bet.status == Won <==> s.markets[m].winner == Some(bet.outcome)
  }

  // ---------------------------------------------------------------------------
  // One winner asked for: every bet is judged by it.
  // ---------------------------------------------------------------------------

  predicate JudgedBy(bets: seq<Bet>, m: MarketId, w: OutcomeId) {
    forall i | 0 <= i < |bets| && IsSettled(bets[i], m) :: bets[i].status == Won <==> bets[i].outcome == w
  }

  lemma StepJudges(b: Books, e: Event, m: MarketId, w: OutcomeId)
    requires Valid(b) && Enabled(b, e.op) && JudgedBy(b.bets, m, w)
    requires e.op.DoResolve? && e.op.resolved == m ==> e.op.winner == w
    ensures JudgedBy(Next(b, e).bets, m, w)
  {
    if Step(b, e).Ok? {
      match e.op
      case DoResolve(_, _, vs) => BatchBetsAt(b.bets, vs, Settle);
      case DoReverse(_, vs) => BatchBetsAt(b.bets, vs, Reverse);
      case _ =>
    }
  }

  lemma MoveJudges(order: Order, s: Sys, p: nat, t: Sys, m: MarketId, w: OutcomeId)
    requires SysOk(order, s) && p < |s.procs| && (Advances(order, s, p, t) || Crashes(s, p, t))
    requires AskFor(s.procs, m, w) && JudgedBy(s.books.bets, m, w)
    ensures JudgedBy(t.books.bets, m, w)
  {
    FailureChangesNothing(order, s, p, t);
    if t.procs[p].pc == Finished(Ok(())) {
      CommittedBooks(order, s, p, t);
      StepJudges(s.books, Event(s.procs[p].pc.ready.op, s.procs[p].ctx), m, w);
    }
  }

  lemma CommittedBooks(order: Order, s: Sys, p: nat, t: Sys)
    requires SysOk(order, s) && p < |s.procs| && (Advances(order, s, p, t) || Crashes(s, p, t))
    requires t.procs[p].pc == Finished(Ok(()))
    ensures s.procs[p].pc.Checked? && Enabled(s.books, s.procs[p].pc.ready.op)
    ensures Answers(s.procs[p].pc.ready.op, s.procs[p].req)
    ensures t.books == Next(s.books, Event(s.procs[p].pc.ready.op, s.procs[p].ctx))
  {
    SuccessIsCommit(order, s, p, t);
    var me := s.procs[p];
    assert ProcOk(order, s.books, me) && RowOk(s.markets, me);
    WriteIsStep(s.books, me.locks, me.ctx, me.pc.ready);
  }

  lemma MovesKeepJudged(order: Order, s: Sys, t: Sys, m: MarketId, w: OutcomeId)
    requires Moves(order, s, t) && AskFor(s.procs, m, w) && JudgedBy(s.books.bets, m, w)
    ensures JudgedBy(t.books.bets, m, w)
  {
    var p: nat :| p < |s.procs| && (Advances(order, s, p, t) || Crashes(s, p, t));
    MoveJudges(order, s, p, t, m, w);
  }

  lemma {:induction false} JudgedAlong(order: Order, trace: seq<Sys>, k: nat, m: MarketId, w: OutcomeId)
    requires IsExecution(order, trace) && k < |trace| && Agreed(trace[0], m, w)
    ensures Agreed(trace[k], m, w) && JudgedBy(trace[k].books.bets, m, w)
  {
    AgreedAlong(order, trace, k, m, w);
    if k > 0 {
      AgreedAlong(order, trace, k - 1, m, w);
      JudgedAlong(order, trace, k - 1, m, w);
      MovesKeepJudged(order, trace[k - 1], trace[k], m, w);
    }
  }

  // ---------------------------------------------------------------------------
  // A call that is served while nobody else moves.
  // ---------------------------------------------------------------------------

  lemma AloneLeads(order: Order, trace: seq<Sys>, s: Sys, p: nat)
    requires EndsAlone(order, trace, s, p) && NoLocks(s)
    ensures Leads(order, trace, s, trace[|trace| - 1]) && NoLocks(trace[|trace| - 1])
  {
    var end := trace[|trace| - 1];
    assert ProcOk(order, end.books, end.procs[p]);
  }

  /** The call succeeds as one transaction, which is what the path does. */
  lemma Serves(order: Order, s: Sys, p: nat) returns (path: seq<Sys>, t: Sys)
    requires Injective(order) && SysOk(order, s) && NoLocks(s) && p < |s.procs|
    requires s.procs[p].pc == Begin && WellFormed(s.procs[p].req)
    requires AsTransaction(s.books, s.markets, s.procs[p].req, s.procs[p].ctx).Some?
    ensures Leads(order, path, s, t) && NoLocks(t) && OthersStay(s, t, p)
    ensures AsTransaction(s.books, s.markets, s.procs[p].req, s.procs[p].ctx) == Some((t.books, t.markets))
  {
    path := AloneFinishes(order, s, p);
    t := path[|path| - 1];
    AloneIsTransaction(order, path, p);
    AloneLeads(order, path, s, p);
  }

  // ---------------------------------------------------------------------------
  // A funded player with an old snapshot of the market.
  // ---------------------------------------------------------------------------

  const NOBODY := Context(None, 0)

  function OpenView(o: OutcomeId): MarketView {
    MarketView(MarketOpen, 1, [Outcome(o, true, 500_000)], None, None)
  }

  function LateBet(m: MarketId, o: OutcomeId): Bet {
    NewBet(1, m, o, 10_000, 500_000)
  }

  /** Player 1 opens a wallet, recharges, and bets on outcome `o` of market `m` by the old snapshot. */
  function LateOps(m: MarketId, o: OutcomeId): seq<Op> {
    [OpenWallet(1), DoRecharge(1, 10_000, "late", House), EnsurePool(m), DoPlace(1, m, o, 10_000, Some(OpenView(o)))]
  }

  function Call(op: Op): Proc {
    Proc(Request.Plain(op), NOBODY, Begin, {})
  }

  predicate Funded(b: Books) {
    && b.bets == [] && b.accounts.Keys == {HousePromo, HouseRevenue, Wallet(1)}
    && b.accounts[Wallet(1)].balance == 10_000
    && forall k | k in KeysOf(b.transfers) :: k.ClientKey?
  }

  lemma Recharges(b: Books, m: MarketId, o: OutcomeId)
    requires b == WithAccount(Seeded(), Wallet(1))
    ensures Step(b, Event(LateOps(m, o)[1], NOBODY)).Ok?
    ensures Funded(Next(b, Event(LateOps(m, o)[1], NOBODY)))
  {
    var leg := FundingLeg(Recharge, ClientKey("late"), 1, 10_000);
    assert KeysOf([]) == {};
    KeysOfSnoc([], TransferOf(leg, 0, Context(None, 0)));
  }

  lemma OldQuote(o: OutcomeId)
    ensures Quote(Some(OpenView(o)), o, 10_000, 0) == Ok(500_000)
  {
    assert OpenView(o).outcomes[0].id == o;
  }

  lemma PlacesLate(b: Books, m: MarketId, o: OutcomeId)
    requires Funded(b)
    ensures var open := WithAccount(b, Liability(m));
      && Enabled(open, LateOps(m, o)[3])
      && Step(open, Event(LateOps(m, o)[3], NOBODY)).Ok?
    ensures BetWaits(Next(WithAccount(b, Liability(m)), Event(LateOps(m, o)[3], NOBODY)), m, o)
  {
    var open := WithAccount(b, Liability(m));
    var leg := PlaceLeg(0, LateBet(m, o));
    OldQuote(o);
    KeysOfSnoc(open.transfers, TransferOf(leg, |open.transfers|, Context(Some(1), 0)));
  }

  /** The late bet is alone, its stake is in the pool, and no settlement has been posted. */
  predicate BetWaits(b: Books, m: MarketId, o: OutcomeId) {
    && b.bets == [LateBet(m, o)]
    && Liability(m) in b.accounts && HouseRevenue in b.accounts && b.accounts[Liability(m)].balance == 10_000
    && forall k | k in KeysOf(b.transfers) :: k.ClientKey?
  }

  lemma LateLoss(bet: Bet, m: MarketId, w: OutcomeId)
    requires bet.market == m && bet.status == Pending && bet.outcome != w && bet.stake > 0
    ensures PendingVerdicts([bet], m, w) == [Verdict(0, false)]
    ensures StakesIn([bet], [Verdict(0, false)], m) == bet.stake
    ensures SoundBets([bet]) ==> WinningsOf([bet], [Verdict(0, false)]) == 0
  {
    assert [bet][..0] == [] && PendingVerdicts([], m, w) == [];
    assert [Verdict(0, false)][1..] == [];
  }

  /** The resolution that comes too late settles the bet as lost and leaves the row alone. */
  lemma LosesLate(b: Books, markets: map<MarketId, MarketRow>, m: MarketId, o: OutcomeId, w: OutcomeId, ctx: Context)
    requires Valid(b) && BetWaits(b, m, o) && o != w
    requires m in markets && markets[m].view.status == MarketResolved
    ensures var after := AsTransaction(b, markets, ResolveRequest(m, w), ctx);
      after.Some? && after.value.0.bets == [LateBet(m, o).(status := Lost)] && after.value.1 == markets
  {
    var db := Db(b, markets, []);
    LateGoesThrough(db, m, o, w, ctx);
    ResolutionLeaves(db, m, w, "", ctx);
    assert IsPending(b.bets[0], m);
  }

  lemma LateGoesThrough(db: Db, m: MarketId, o: OutcomeId, w: OutcomeId, ctx: Context)
    requires Valid(db.books) && BetWaits(db.books, m, o) && o != w
    requires m in db.markets && db.markets[m].view.status == MarketResolved
    ensures ResolveTx(db, m, w, "", ctx).Ok?
  {
    LateLoss(LateBet(m, o), m, w);
    ResolutionOkIff(db, m, w, "", ctx);
  }

  // ---------------------------------------------------------------------------
  // Two winners asked for: some interleaving leaves a bet on the wrong side.
  // ---------------------------------------------------------------------------

  /** Process `p` and the next three are the late player's calls, not yet begun. */
  predicate Follows(procs: seq<Proc>, p: nat, m: MarketId, o: OutcomeId, n: nat) {
    && p + 4 <= |procs|
    && forall k | n <= k < 4 :: procs[p + k] == Call(LateOps(m, o)[k])
  }

  /** Only processes of the late player have moved. */
  predicate OnlyPlayer(s: Sys, t: Sys, p: nat) {
    && t.markets == s.markets && NoLocks(t) && |t.procs| == |s.procs|
    && forall q | 0 <= q < |s.procs| && (q < p || p + 4 <= q) :: t.procs[q] == s.procs[q]
  }

  /** The player's call number `n` has been served. */
  predicate PlayerServed(s: Sys, t: Sys, p: nat, m: MarketId, o: OutcomeId, n: nat, after: Books) {
    OnlyPlayer(s, t, p) && t.books == after && Follows(t.procs, p, m, o, n + 1)
  }

  lemma ServesPlayer(order: Order, s: Sys, p: nat, m: MarketId, o: OutcomeId, n: nat) returns (path: seq<Sys>, t: Sys)
    requires Injective(order) && SysOk(order, s) && NoLocks(s) && n < 4 && Follows(s.procs, p, m, o, n)
    requires Enabled(s.books, LateOps(m, o)[n]) && Step(s.books, Event(LateOps(m, o)[n], NOBODY)).Ok?
    ensures Leads(order, path, s, t)
    ensures PlayerServed(s, t, p, m, o, n, Next(s.books, Event(LateOps(m, o)[n], NOBODY)))
  {
    assert s.procs[p + n] == Call(LateOps(m, o)[n]);
    path, t := Serves(order, s, p + n);
    OthersStillWait(s, t, p, m, o, n);
  }

  lemma OthersStillWait(s: Sys, t: Sys, p: nat, m: MarketId, o: OutcomeId, n: nat)
    requires n < 4 && Follows(s.procs, p, m, o, n) && OthersStay(s, t, p + n)
    ensures Follows(t.procs, p, m, o, n + 1)
  {
    forall k | n + 1 <= k < 4 ensures t.procs[p + k] == Call(LateOps(m, o)[k]) {
      assert s.procs[p + k] == Call(LateOps(m, o)[k]);
    }
  }

  lemma FundsPlayer(order: Order, s: Sys, p: nat, m: MarketId, o: OutcomeId) returns (path: seq<Sys>, t: Sys)
    requires Injective(order) && SysOk(order, s) && NoLocks(s) && s.books == Seeded() && Follows(s.procs, p, m, o, 0)
    ensures Leads(order, path, s, t) && OnlyPlayer(s, t, p) && Funded(t.books) && Follows(t.procs, p, m, o, 2)
  {
    Recharges(WithAccount(Seeded(), Wallet(1)), m, o);
    var opening, wallet := ServesPlayer(order, s, p, m, o, 0);
    var recharging;
    recharging, t := ServesPlayer(order, wallet, p, m, o, 1);
    LeadsOn(order, opening, recharging, s, wallet, t);
    path := opening + recharging[1..];
  }

  lemma PlacesBetLate(order: Order, s: Sys, p: nat, m: MarketId, o: OutcomeId) returns (path: seq<Sys>, t: Sys)
    requires Injective(order) && SysOk(order, s) && NoLocks(s) && Funded(s.books) && Follows(s.procs, p, m, o, 2)
    ensures Leads(order, path, s, t) && OnlyPlayer(s, t, p) && BetWaits(t.books, m, o)
  {
    PlacesLate(s.books, m, o);
    var ensuring, ensured := ServesPlayer(order, s, p, m, o, 2);
    var placing;
    placing, t := ServesPlayer(order, ensured, p, m, o, 3);
    LeadsOn(order, ensuring, placing, s, ensured, t);
    path := ensuring + placing[1..];
  }

  /** The market row says that `w` has won. */
  predicate ResolvedOn(s: Sys, m: MarketId, w: OutcomeId) {
    m in s.markets && s.markets[m].view.status == MarketResolved && s.markets[m].winner == Some(w)
  }

  /** The first resolution finds no bets and stores its winner. */
  lemma ResolvesFirst(order: Order, s: Sys, m: MarketId, first: nat, w: OutcomeId) returns (path: seq<Sys>, t: Sys)
    requires Injective(order) && IsInitial(s) && m in s.markets && Unsettled(s.markets[m])
    requires first < |s.procs| && s.procs[first].req == ResolveRequest(m, w)
    ensures Leads(order, path, s, t) && t.books == Seeded() && NoLocks(t) && OthersStay(s, t, first)
    ensures ResolvedOn(t, m, w)
  {
    InitialOk(order, s);
    assert PendingVerdicts([], m, w) == [];
    path, t := Serves(order, s, first);
  }

  /** Resolved on `w`; then the bet on `w` is placed. */
  lemma PlacedAfterwards(order: Order, s: Sys, m: MarketId, first: nat, w: OutcomeId, p: nat)
      returns (path: seq<Sys>, t: Sys)
    requires Injective(order) && IsInitial(s) && m in s.markets && Unsettled(s.markets[m])
    requires first < p && p + 4 <= |s.procs|
    requires s.procs[first].req == ResolveRequest(m, w) && Follows(s.procs, p, m, w, 0)
    ensures Leads(order, path, s, t) && NoLocks(t) && ResolvedOn(t, m, w) && BetWaits(t.books, m, w)
    ensures |t.procs| == |s.procs| && forall q | 0 <= q < p && q != first :: t.procs[q] == s.procs[q]
  {
    var resolving, resolved := ResolvesFirst(order, s, m, first, w);
    var funding, funded := FundsPlayer(order, resolved, p, m, w);
    var placing;
    placing, t := PlacesBetLate(order, funded, p, m, w);
    LeadsOn(order, resolving, funding, s, resolved, funded);
    LeadsOn(order, resolving + funding[1..], placing, s, funded, t);
    path := resolving + funding[1..] + placing[1..];
  }

  /** Resolved on one winner; then the bet on it is placed; then the resolution on the other settles it as lost. */
  lemma LateBetIsMisjudged(order: Order, s: Sys, m: MarketId, first: nat, second: nat, p: nat) returns (trace: seq<Sys>)
    requires Injective(order) && IsInitial(s) && m in s.markets && Unsettled(s.markets[m])
    requires first < p && second < p && p + 4 <= |s.procs|
    requires Asks(s.procs[first], m) && Asks(s.procs[second], m)
    requires s.procs[first].req.winner != s.procs[second].req.winner
    requires Follows(s.procs, p, m, s.procs[first].req.winner, 0)
    ensures IsExecution(order, trace) && trace[0] == s && !Consistent(trace[|trace| - 1], m)
  {
    var w1, w2 := s.procs[first].req.winner, s.procs[second].req.winner;
    var placing, placed := PlacedAfterwards(order, s, m, first, w1, p);
    LosesLate(placed.books, placed.markets, m, w1, w2, placed.procs[second].ctx);
    var settling, end := Serves(order, placed, second);
    LeadsOn(order, placing, settling, s, placed, end);
    trace := placing + settling[1..];
    assert end.books.bets[0] in end.books.bets;
  }

  // ---------------------------------------------------------------------------
  // The exact condition.
  // ---------------------------------------------------------------------------

  ghost predicate SidesFollow(order: Order, s0: Sys, m: MarketId) {
    forall trace: seq<Sys>, k: nat | IsExecution(order, trace) && trace[0] == s0 && k < |trace| ::
      Consistent(trace[k], m)
  }

  /** The same calls and any others, as long as no further one resolves `m`. */
  predicate Joined(s0: Sys, s: Sys, m: MarketId) {
    && IsInitial(s) && s.markets == s0.markets && s0.procs <= s.procs
    && forall p | |s0.procs| <= p < |s.procs| :: !Asks(s.procs[p], m)
  }

  lemma OneWinnerSides(order: Order, s0: Sys, m: MarketId)
    requires IsInitial(s0) && m in s0.markets && s0.markets[m].view.status != MarketResolved
    requires OneWinnerAsked(s0.procs, m)
    ensures SidesFollow(order, s0, m)
  {
    var w: OutcomeId := 0;
    if p :| 0 <= p < |s0.procs| && Asks(s0.procs[p], m) {
      w := s0.procs[p].req.winner;
    }
    assert Agreed(s0, m, w);
    forall trace: seq<Sys>, k: nat | IsExecution(order, trace) && trace[0] == s0 && k < |trace|
      ensures Consistent(trace[k], m)
    {
      JudgedAlong(order, trace, k, m, w);
    }
  }

  function WithPlayer(s0: Sys, m: MarketId, o: OutcomeId): Sys {
    var ops := LateOps(m, o);
    s0.(procs := s0.procs + [Call(ops[0]), Call(ops[1]), Call(ops[2]), Call(ops[3])])
  }

  /** Whatever other calls join in: in every interleaving the Won bets of the RESOLVED market are those on its
      stored winner, exactly when all resolutions of the market name the same winner. */
  lemma SidesFollowIff(order: Order, s0: Sys, m: MarketId)
    requires Injective(order) && IsInitial(s0) && m in s0.markets && Unsettled(s0.markets[m])
    ensures (forall s | Joined(s0, s, m) :: SidesFollow(order, s, m)) <==> OneWinnerAsked(s0.procs, m)
  {
    if OneWinnerAsked(s0.procs, m) {
      forall s | Joined(s0, s, m) ensures SidesFollow(order, s, m) {
        OneWinnerSides(order, s, m);
      }
    } else {
      var p, q :| 0 <= p < |s0.procs| && 0 <= q < |s0.procs| && Asks(s0.procs[p], m) && Asks(s0.procs[q], m)
        && s0.procs[p].req.winner != s0.procs[q].req.winner;
      var s := WithPlayer(s0, m, s0.procs[p].req.winner);
      assert Joined(s0, s, m);
      var trace := LateBetIsMisjudged(order, s, m, p, q, |s0.procs|);
      var k: nat := |trace| - 1;
      assert !Consistent(trace[k], m);
    }
  }
}
