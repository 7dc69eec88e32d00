/** A process that runs while nobody else moves does exactly what the call does as one transaction. */
module SoloRuns {
  import opened Domain
  import opened Lifecycle
  import opened Transactions
  import opened Runs
  import opened Database
  import opened Concurrency
  import opened Interleavings

  /** The unit of work that a request is, in the state it finds. */
  function UnitOf(req: Request, b: Books): Op {
    match req
    case Plain(op) => op
    case SellRequest(id, seller, quote) => DoSell(id, seller, quote)
    case ResolveRequest(m, w) => DoResolve(m, w, PendingVerdicts(b.bets, m, w))
    case ReverseRequest(m) => DoReverse(m, SettledVerdicts(b.bets, m))
  }

  /** Requests that read bet rows have their own form. */
  predicate WellFormed(req: Request) {
    req.Plain? ==> !req.op.DoSell? && !req.op.DoResolve? && !req.op.DoReverse?
  }

  /** Books and market rows after the call as one transaction; None when it is refused or rolled back. */
  ghost function AsTransaction(b: Books, markets: map<MarketId, MarketRow>, req: Request, ctx: Context)
      : Option<(Books, map<MarketId, MarketRow>)>
    requires SoundBets(b.bets)
  {
    match req
    case ResolveRequest(m, w) =>
      (match ResolveTx(Db(b, markets, []), m, w, "", ctx)
       case Ok(after) => Some((after.books, after.markets))
       case Err(_) => None)
    case ReverseRequest(m) =>
      (match ReverseTx(Db(b, markets, []), m, "", ctx)
       case Ok(after) => Some((after.books, after.markets))
       case Err(_) => None)
    case _ =>
      var op := UnitOf(req, b);
      if Enabled(b, op) && Step(b, Event(op, ctx)).Ok? then Some((Next(b, Event(op, ctx)), markets)) else None
  }

  /** The process has been answered as the transaction would have been. */
  ghost predicate AnsweredAs(s0: Sys, s: Sys, p: nat, result: Result<()>)
    requires SoundBets(s0.books.bets) && p < |s0.procs|
  {
    match AsTransaction(s0.books, s0.markets, s0.procs[p].req, s0.procs[p].ctx)
    case Some(after) => result == Ok(()) && s.books == after.0 && s.markets == after.1
    case None => result.Err? && s.books == s0.books && s.markets == s0.markets
  }

  predicate Untouched(s0: Sys, s: Sys) {
    s.books == s0.books && s.markets == s0.markets
  }

  /** The rows still to be locked and those held, as the first statement of the call selected them. */
  predicate SelectionAt(b: Books, req: Request, ids: seq<BetId>, held: seq<Verdict>) {
    match req
    case Plain(_) => false
    case SellRequest(id, seller, _) => id < |b.bets| && b.bets[id].user == seller && b.bets[id].status == Pending
    case ResolveRequest(m, w) =>
      var vs := PendingVerdicts(b.bets, m, w);
      |held| <= |vs| && held == vs[..|held|] && ids == IdsOf(vs)[|held|..]
    case ReverseRequest(m) => held == SettledVerdicts(b.bets, m)
  }

  /** How far the process has got. */
  ghost predicate SoloAt(s0: Sys, s: Sys, p: nat)
    requires SoundBets(s0.books.bets) && p < |s0.procs| && p < |s.procs|
  {
    var req, b := s0.procs[p].req, s0.books;
    match s.procs[p].pc
    case Begin => Untouched(s0, s)
    case Rows(ids, held) => Untouched(s0, s) && SelectionAt(b, req, ids, held)
    case Locks(_, job) => Untouched(s0, s) && job.op == UnitOf(req, b)
    case Stamping(job, seen) =>
      Untouched(s0, s) && job.op == UnitOf(req, b) && RowRead(s0.markets, job.op) == Ok(Some(seen))
    case Checked(job, stamp) =>
      Untouched(s0, s) && job.op == UnitOf(req, b) && RowRead(s0.markets, job.op) == Ok(stamp)
    case Finished(result) => AnsweredAs(s0, s, p, result)
  }

  ghost predicate Solo(order: Order, s0: Sys, s: Sys, p: nat) {
    && SysOk(order, s0) && SysOk(order, s) && p < |s0.procs| && |s.procs| == |s0.procs|
    && WellFormed(s0.procs[p].req)
    && s.procs[p].req == s0.procs[p].req && s.procs[p].ctx == s0.procs[p].ctx
    && SoloAt(s0, s, p)
  }

  // ---------------------------------------------------------------------------
  // Each step.
  // ---------------------------------------------------------------------------

  lemma RefusedIsNone(b: Books, markets: map<MarketId, MarketRow>, op: Op, ctx: Context)
    requires SoundBets(b.bets) && WellFormed(Request.Plain(op)) && Refused(b, op, ctx.now).Some?
    ensures AsTransaction(b, markets, Request.Plain(op), ctx) == None
  {
  }

  lemma SoloBegins(order: Order, s0: Sys, s: Sys, p: nat, t: Sys)
    requires Solo(order, s0, s, p) && s.procs[p].pc.Begin? && Advances(order, s, p, t)
    ensures SoloAt(s0, t, p)
  {
    var me := s.procs[p];
    var pc :| Starts(order, s.books, me.req, me.ctx, pc) && t == Replaced(s, p, pc, {});
    StartsSolo(order, s0, p, pc);
  }

  lemma StartsSolo(order: Order, s0: Sys, p: nat, pc: Pc)
    requires SoundBets(s0.books.bets) && p < |s0.procs| && WellFormed(s0.procs[p].req)
    requires Starts(order, s0.books, s0.procs[p].req, s0.procs[p].ctx, pc)
    ensures SoloAt(s0, Replaced(s0, p, pc, {}), p)
  {
    var b, req, ctx := s0.books, s0.procs[p].req, s0.procs[p].ctx;
    match req
    case Plain(op) =>
      if Refused(b, op, ctx.now).Some? {
        RefusedIsNone(b, s0.markets, op, ctx);
      }
    case ResolveRequest(m, w) =>
      var ids := IdsOf(PendingVerdicts(b.bets, m, w));
      assert ids[0..] == ids;
    case _ =>
  }

  /** All rows are locked and the legs derived, or the call raises as the transaction would. */
  lemma SoloPlans(order: Order, s0: Sys, s: Sys, p: nat, t: Sys)
    requires Solo(order, s0, s, p) && s.procs[p].pc.Rows? && s.procs[p].pc.ids == [] && Advances(order, s, p, t)
    ensures SoloAt(s0, t, p)
  {
    var me := s.procs[p];
    var pc :| Plans(order, s.books, me.req, me.ctx, me.pc.held, pc) && t == Replaced(s, p, pc, me.locks);
    PlansSolo(order, s0.books, s0.markets, me.req, me.ctx, me.pc.held, pc);
  }

  lemma PlansSolo(order: Order, b: Books, markets: map<MarketId, MarketRow>, req: Request, ctx: Context,
                  held: seq<Verdict>, pc: Pc)
    requires SoundBets(b.bets) && InRange(b.bets, held) && SelectionAt(b, req, [], held)
    requires Plans(order, b, req, ctx, held, pc)
    ensures pc.Finished? ==> pc.result.Err? && AsTransaction(b, markets, req, ctx) == None
    ensures !pc.Finished? ==> pc.Locks? && pc.job.op == UnitOf(req, b)
  {
    match req
    case ResolveRequest(m, w) =>
      var vs := PendingVerdicts(b.bets, m, w);
      assert |IdsOf(vs)[|held|..]| == 0 && vs[..|vs|] == vs;
    case _ =>
  }

  lemma SoloLocksRow(order: Order, s0: Sys, s: Sys, p: nat, t: Sys)
    requires Solo(order, s0, s, p) && s.procs[p].pc.Rows? && s.procs[p].pc.ids != [] && Advances(order, s, p, t)
    ensures SoloAt(s0, t, p)
  {
    var me := s.procs[p];
    RowSolo(s0.books, me.req, me.pc.ids, me.pc.held);
  }

  lemma RowSolo(b: Books, req: Request, ids: seq<BetId>, held: seq<Verdict>)
    requires SelectionAt(b, req, ids, held) && ids != [] && ids[0] < |b.bets|
    requires req.SellRequest? ==> ids[0] == req.id
    ensures RowLocked(b, req, ids, held).Rows?
    ensures SelectionAt(b, req, RowLocked(b, req, ids, held).ids, RowLocked(b, req, ids, held).held)
  {
    match req
    case ResolveRequest(m, w) =>
      var vs := PendingVerdicts(b.bets, m, w);
      var k := |held|;
      assert IdsOf(vs)[k..][0] == IdsOf(vs)[k] && IdsOf(vs)[k] == vs[k].id && vs[k] in vs;
      assert vs[..k] + [vs[k]] == vs[..k + 1] && IdsOf(vs)[k..][1..] == IdsOf(vs)[k + 1..];
    case _ =>
  }

  /** With every account locked: the balance is checked and the market row read. */
  lemma SoloTakesLock(order: Order, s0: Sys, s: Sys, p: nat, t: Sys)
    requires Solo(order, s0, s, p) && s.procs[p].pc.Locks? && Advances(order, s, p, t)
    ensures SoloAt(s0, t, p)
  {
    var job := s.procs[p].pc.job;
    if s.procs[p].pc.todo == [] {
      RowsHeldSolo(s0, s, p, job);
    }
  }

  lemma RowsHeldSolo(s0: Sys, s: Sys, p: nat, job: Job)
    requires SoundBets(s0.books.bets) && p < |s0.procs| && p < |s.procs| && WellFormed(s0.procs[p].req)
    requires Untouched(s0, s) && job.op == UnitOf(s0.procs[p].req, s0.books)
    ensures SoloAt(s0, Replaced(s, p, RowsHeld(s, job), s.procs[p].locks), p)
  {
    if RowsHeld(s, job).Finished? {
      RowsHeldRefuses(s0, p, job);
    }
  }

  lemma RowsHeldRefuses(s0: Sys, p: nat, job: Job)
    requires SoundBets(s0.books.bets) && p < |s0.procs| && WellFormed(s0.procs[p].req)
    requires job.op == UnitOf(s0.procs[p].req, s0.books)
    requires Funds(s0.books, job.op).Err? || RowRead(s0.markets, job.op).Err?
    ensures AsTransaction(s0.books, s0.markets, s0.procs[p].req, s0.procs[p].ctx) == None
  {
  }

  lemma SoloReadsRow(order: Order, s0: Sys, s: Sys, p: nat, t: Sys)
    requires Solo(order, s0, s, p) && s.procs[p].pc.Stamping? && Advances(order, s, p, t)
    ensures SoloAt(s0, t, p)
  {
  }

  /** The row that the update leaves, when nobody wrote it since it was read. */
  lemma RestampedAlone(markets: map<MarketId, MarketRow>, op: Op, stamp: Option<MarketRow>, now: Time)
    requires RowRead(markets, op) == Ok(stamp)
    ensures op.DoResolve? ==>
      MarkResolved(markets, op.resolved, op.winner, now) == Ok(Restamped(markets, op, stamp, now))
    ensures op.DoReverse? && op.seen != [] ==>
      MarkUnresolved(markets, op.reopened) == Ok(Restamped(markets, op, stamp, now))
    ensures RowOf(op).None? ==> Restamped(markets, op, stamp, now) == markets
  {
    if RowOf(op).Some? {
      assert markets[RowOf(op).value := markets[RowOf(op).value]] == markets;
    }
  }

  lemma SoloCommits(order: Order, s0: Sys, s: Sys, p: nat, t: Sys)
    requires Solo(order, s0, s, p) && s.procs[p].pc.Checked? && Advances(order, s, p, t)
    ensures SoloAt(s0, t, p)
  {
    var me := s.procs[p];
    var job := me.pc.ready;
    WriteIsStep(s.books, me.locks, me.ctx, job);
    RestampedAlone(s0.markets, job.op, me.pc.stamp, me.ctx.now);
    StepIsTransaction(s0.books, s0.markets, me.req, me.ctx);
  }

  /** The unit of work, and what happens to the market row beside it. */
  lemma StepIsTransaction(b: Books, markets: map<MarketId, MarketRow>, req: Request, ctx: Context)
    requires SoundBets(b.bets) && WellFormed(req) && Enabled(b, UnitOf(req, b))
    requires RowRead(markets, UnitOf(req, b)).Ok?
    ensures var op, stamp := UnitOf(req, b), RowRead(markets, UnitOf(req, b)).value;
      AsTransaction(b, markets, req, ctx) ==
        if Step(b, Event(op, ctx)).Ok? then Some((Next(b, Event(op, ctx)), Restamped(markets, op, stamp, ctx.now)))
        else None
  {
    var op := UnitOf(req, b);
    RestampedAlone(markets, op, RowRead(markets, op).value, ctx.now);
  }

  lemma SoloStep(order: Order, s0: Sys, s: Sys, p: nat, t: Sys)
    requires Solo(order, s0, s, p) && Advances(order, s, p, t)
    ensures Solo(order, s0, t, p)
  {
    StepKeepsSys(order, s, p, t);
    SameCall(order, s, p, t);
    match s.procs[p].pc
    case Begin => SoloBegins(order, s0, s, p, t);
    case Rows(ids, _) =>
      if ids == [] {
        SoloPlans(order, s0, s, p, t);
      } else {
        SoloLocksRow(order, s0, s, p, t);
      }
    case Locks(_, _) => SoloTakesLock(order, s0, s, p, t);
    case Stamping(_, _) => SoloReadsRow(order, s0, s, p, t);
    case Checked(_, _) => SoloCommits(order, s0, s, p, t);
  }

  lemma SameCall(order: Order, s: Sys, p: nat, t: Sys)
    requires SysOk(order, s) && p < |s.procs| && Advances(order, s, p, t)
    ensures |t.procs| == |s.procs| && t.procs[p].req == s.procs[p].req && t.procs[p].ctx == s.procs[p].ctx
  {
  }

  // ---------------------------------------------------------------------------
  // Whole runs of one process.
  // ---------------------------------------------------------------------------

  /** From each state to the next, process `p` makes a step. */
  ghost predicate RunsAlone(order: Order, trace: seq<Sys>, p: nat) {
    && trace != [] && SysOk(order, trace[0]) && p < |trace[0].procs|
    && forall k | 0 <= k < |trace| - 1 ::
         SysOk(order, trace[k]) && p < |trace[k].procs| && Advances(order, trace[k], p, trace[k + 1])
  }

  lemma {:induction false} SoloAlong(order: Order, trace: seq<Sys>, p: nat, k: nat)
    requires RunsAlone(order, trace, p) && k < |trace|
    requires trace[0].procs[p].pc == Begin && WellFormed(trace[0].procs[p].req)
    ensures Solo(order, trace[0], trace[k], p)
  {
    if k > 0 {
      SoloAlong(order, trace, p, k - 1);
      SoloStep(order, trace[0], trace[k - 1], p, trace[k]);
    }
  }

  /** From any reachable state: a call during which nobody else moves is answered with success exactly when it
      succeeds as one transaction, and leaves books and market rows as that does. */
  lemma AloneIsTransaction(order: Order, trace: seq<Sys>, p: nat)
    requires RunsAlone(order, trace, p)
    requires trace[0].procs[p].pc == Begin && WellFormed(trace[0].procs[p].req)
    ensures var end := trace[|trace| - 1];
      p < |end.procs| && (end.procs[p].pc.Finished? ==> AnsweredAs(trace[0], end, p, end.procs[p].pc.result))
  {
    SoloAlong(order, trace, p, |trace| - 1);
  }

  predicate NoneHolds(s: Sys, p: nat) {
    forall q | 0 <= q < |s.procs| && q != p :: s.procs[q].locks == {}
  }

  predicate OthersStay(s: Sys, t: Sys, p: nat) {
    |t.procs| == |s.procs| && forall q | 0 <= q < |s.procs| && q != p :: t.procs[q] == s.procs[q]
  }

  lemma OneStep(order: Order, s: Sys, p: nat) returns (t: Sys)
    requires Injective(order) && SysOk(order, s) && p < |s.procs| && !s.procs[p].pc.Finished? && NoneHolds(s, p)
    ensures Advances(order, s, p, t) && SysOk(order, t) && Descends(s.procs, t.procs)
    ensures OthersStay(s, t, p) && NoneHolds(t, p)
  {
    t := UnblockedSteps(order, s, p);
    StepKeepsSys(order, s, p, t);
    StepDescends(order, s, p, t);
    FailureChangesNothing(order, s, p, t);
  }

  lemma AloneCons(order: Order, s: Sys, rest: seq<Sys>, p: nat)
    requires SysOk(order, s) && p < |s.procs| && RunsAlone(order, rest, p) && Advances(order, s, p, rest[0])
    ensures RunsAlone(order, [s] + rest, p)
    ensures ([s] + rest)[0] == s && ([s] + rest)[|[s] + rest| - 1] == rest[|rest| - 1]
  {
    var trace := [s] + rest;
    forall k | 0 <= k < |trace| - 1
      ensures SysOk(order, trace[k]) && p < |trace[k].procs| && Advances(order, trace[k], p, trace[k + 1])
    {
      if k > 0 {
        assert trace[k] == rest[k - 1] && trace[k + 1] == rest[k];
      }
    }
  }

  lemma OthersStayOn(s: Sys, t: Sys, u: Sys, p: nat)
    requires OthersStay(s, t, p) && OthersStay(t, u, p)
    ensures OthersStay(s, u, p)
  {
  }

  ghost predicate EndsAlone(order: Order, trace: seq<Sys>, s: Sys, p: nat) {
    && RunsAlone(order, trace, p) && trace[0] == s
    && var end := trace[|trace| - 1];
       SysOk(order, end) && OthersStay(s, end, p) && end.procs[p].pc.Finished?
  }

  lemma EndsAloneCons(order: Order, s: Sys, rest: seq<Sys>, t: Sys, p: nat)
    requires SysOk(order, s) && p < |s.procs| && Advances(order, s, p, t) && OthersStay(s, t, p)
    requires EndsAlone(order, rest, t, p)
    ensures EndsAlone(order, [s] + rest, s, p)
  {
    AloneCons(order, s, rest, p);
    OthersStayOn(s, t, rest[|rest| - 1], p);
  }

  /** While nobody else holds a lock, the process can always be run to its end. */
  lemma {:induction false} AloneFinishes(order: Order, s: Sys, p: nat) returns (trace: seq<Sys>)
    requires Injective(order) && SysOk(order, s) && p < |s.procs| && NoneHolds(s, p)
    ensures EndsAlone(order, trace, s, p)
    decreases Work(s.procs, 0), Work(s.procs, 1), Work(s.procs, 2), Work(s.procs, 3), Work(s.procs, 4)
  {
    if s.procs[p].pc.Finished? {
      trace := [s];
    } else {
      var t := OneStep(order, s, p);
      Lexicographic(Measure(t.procs), Measure(s.procs));
      var rest := AloneFinishes(order, t, p);
      EndsAloneCons(order, s, rest, t, p);
      trace := [s] + rest;
    }
  }
}
