/** What the interleaved executions guarantee: one winner per race, no deadlock, and an end. */
module Interleavings {
  import opened Money
  import opened Domain
  import opened Posting
  import opened Lifecycle
  import opened Transactions
  import opened Invariant
  import opened Runs
  import opened Guarantees
  import opened Concurrency

  /** Any number of calls arriving at the empty, migrated database. */
  predicate IsInitial(s: Sys) {
    && s.books == Seeded() && s.states == [Seeded()] && s.log == []
    && forall p | 0 <= p < |s.procs| :: s.procs[p].pc == Begin && s.procs[p].locks == {}
  }

  /** One process steps, or dies. */
  ghost predicate Moves(order: Order, s: Sys, t: Sys) {
    SysOk(order, s) && exists p: nat | p < |s.procs| :: Advances(order, s, p, t) || Crashes(s, p, t)
  }

  /** `ExecutionIsSerial` shows that the antecedent, which `Advances` needs to be defined, always holds. */
  ghost predicate IsExecution(order: Order, trace: seq<Sys>) {
    && trace != [] && IsInitial(trace[0])
    && forall k | 0 <= k < |trace| - 1 :: SysOk(order, trace[k]) ==> Moves(order, trace[k], trace[k + 1])
  }

  /** Every state of every interleaving is the result of the serial run of its commits, in commit order. */
  lemma {:induction false} ExecutionIsSerial(order: Order, trace: seq<Sys>, k: nat)
    requires IsExecution(order, trace) && k < |trace|
    ensures SysOk(order, trace[k])
    ensures |trace[k].log| == Commits(trace[k].procs)
    ensures IsRun(trace[k].states, trace[k].log) && trace[k].books == trace[k].states[|trace[k].log|]
  {
    if k == 0 {
      SeededIsValid();
      NoCommits(trace[0].procs);
    } else {
      ExecutionIsSerial(order, trace, k - 1);
      var s, t := trace[k - 1], trace[k];
      var p: nat :| p < |s.procs| && (Advances(order, s, p, t) || Crashes(s, p, t));
      StepKeepsSys(order, s, p, t);
      StepCounts(order, s, p, t);
    }
  }

  /** How many calls have been answered with success. */
  function Commits(procs: seq<Proc>): nat {
    if procs == [] then 0
    else (if procs[0].pc == Finished(Ok(())) then 1 else 0) + Commits(procs[1..])
  }

  lemma {:induction false} NoCommits(procs: seq<Proc>)
    requires forall p | 0 <= p < |procs| :: procs[p].pc == Begin
    ensures Commits(procs) == 0
  {
    if procs != [] {
      NoCommits(procs[1..]);
    }
  }

  lemma {:induction false} CommitsUpdate(procs: seq<Proc>, p: nat, x: Proc)
    requires p < |procs|
    ensures Commits(procs[p := x]) == Commits(procs)
      - (if procs[p].pc == Finished(Ok(())) then 1 else 0) + (if x.pc == Finished(Ok(())) then 1 else 0)
  {
    var after := procs[p := x];
    if p > 0 {
      assert after[1..] == procs[1..][p - 1 := x];
      CommitsUpdate(procs[1..], p - 1, x);
    } else {
      assert after[1..] == procs[1..];
    }
  }

  lemma FailureChangesNothing(order: Order, s: Sys, p: nat, t: Sys)
    requires SysOk(order, s) && p < |s.procs|
    requires Advances(order, s, p, t) || Crashes(s, p, t)
    ensures t.procs == s.procs[p := t.procs[p]]
    ensures t.procs[p].pc != Finished(Ok(())) ==> SameTables(s, t)
  {
    if Advances(order, s, p, t) {
      match s.procs[p].pc
      case Begin => BeginMovesOn(order, s, p, t);
      case Rows(_, _) => RowsMoveOn(order, s, p, t);
      case _ => LaterMoveOn(order, s, p, t);
    }
  }

  ghost predicate SameTables(s: Sys, t: Sys) {
    t.books == s.books && t.markets == s.markets && t.log == s.log
  }

  lemma SuccessIsCommit(order: Order, s: Sys, p: nat, t: Sys)
    requires SysOk(order, s) && p < |s.procs|
    requires Advances(order, s, p, t) || Crashes(s, p, t)
    requires t.procs[p].pc == Finished(Ok(()))
    ensures s.procs[p].pc.Checked? && t.log == s.log + [Event(s.procs[p].pc.ready.op, s.procs[p].ctx)]
  {
  }

  /** A step either commits one process and logs its unit of work, or leaves books and log as they were:
      whoever fails has changed nothing, and nobody commits twice. */
  lemma StepCounts(order: Order, s: Sys, p: nat, t: Sys)
    requires SysOk(order, s) && p < |s.procs|
    requires Advances(order, s, p, t) || Crashes(s, p, t)
    ensures |t.log| - |s.log| == Commits(t.procs) - Commits(s.procs)
    ensures t.procs[p].pc != Finished(Ok(())) ==> SameTables(s, t)
    ensures t.procs[p].pc == Finished(Ok(())) ==>
      s.procs[p].pc.Checked? && t.log == s.log + [Event(s.procs[p].pc.ready.op, s.procs[p].ctx)]
  {
    FailureChangesNothing(order, s, p, t);
    CommitsUpdate(s.procs, p, t.procs[p]);
    if t.procs[p].pc == Finished(Ok(())) {
      SuccessIsCommit(order, s, p, t);
    }
    assert !s.procs[p].pc.Finished?;
  }

  // ---------------------------------------------------------------------------
  // Races over a bet.
  // ---------------------------------------------------------------------------

  /** The process is about to take bet `i` out of PENDING. */
  predicate Takes(job: Job, i: BetId) {
    || (job.op.DoSell? && job.op.id == i)
    || (job.op.DoResolve? && exists v | v in job.op.held :: v.id == i)
  }

  /** On its way to take bet `i`: the row is held, or already part of the job. */
  predicate IsTaking(p: Proc, i: BetId) {
    || (JobOf(p.pc).Some? && Takes(JobOf(p.pc).value, i))
    || (p.pc.Rows? && !p.req.ReverseRequest? && exists v | v in p.pc.held :: v.id == i)
  }

  lemma TakersHoldTheRow(order: Order, b: Books, p: Proc, i: BetId)
    requires ProcOk(order, b, p) && IsTaking(p, i)
    ensures BetLock(i) in p.locks
  {
  }

  /** While one process is on its way to take a bet, no other is. */
  lemma NoOtherTaker(order: Order, s: Sys, p: nat, i: BetId)
    requires SysOk(order, s) && p < |s.procs| && IsTaking(s.procs[p], i)
    ensures forall q | 0 <= q < |s.procs| && q != p :: !IsTaking(s.procs[q], i)
  {
    TakersHoldTheRow(order, s.books, s.procs[p], i);
    forall q | 0 <= q < |s.procs| && q != p ensures !IsTaking(s.procs[q], i) {
      assert s.procs[q].locks !! s.procs[p].locks;
      if IsTaking(s.procs[q], i) {
        TakersHoldTheRow(order, s.books, s.procs[q], i);
      }
    }
  }

  lemma ChangeIsCommit(order: Order, s: Sys, p: nat, t: Sys)
    requires SysOk(order, s) && p < |s.procs| && Advances(order, s, p, t) && t.books != s.books
    ensures s.procs[p].pc.Checked? && Write(s.books, s.procs[p].pc.ready, s.procs[p].ctx) == Ok(t.books)
  {
    StepCounts(order, s, p, t);
  }

  /** A bet leaves PENDING by the commit of one close or one resolution, and at that moment no other
      process can be on its way to take it. */
  lemma OneTaker(order: Order, s: Sys, p: nat, t: Sys, i: BetId)
    requires SysOk(order, s) && p < |s.procs| && Advances(order, s, p, t)
    requires i < |s.books.bets| && s.books.bets[i].status == Pending && t.books.bets[i].status != Pending
    ensures s.procs[p].pc.Checked? && Takes(s.procs[p].pc.ready, i)
    ensures t.books.bets[i].status == Closed <==> s.procs[p].pc.ready.op.DoSell?
    ensures forall q | 0 <= q < |s.procs| && q != p :: !IsTaking(s.procs[q], i)
  {
    ChangeIsCommit(order, s, p, t);
    TakenBy(s.books, s.procs[p].locks, s.procs[p].ctx, s.procs[p].pc.ready, i);
    NoOtherTaker(order, s, p, i);
  }

  lemma TakenBy(b: Books, locks: set<Resource>, ctx: Context, job: Job, i: BetId)
    requires JobOk(b, locks, ctx, job) && Write(b, job, ctx).Ok?
    requires i < |b.bets| <= |Write(b, job, ctx).value.bets|
    requires b.bets[i].status == Pending && Write(b, job, ctx).value.bets[i].status != Pending
    ensures Takes(job, i)
    ensures Write(b, job, ctx).value.bets[i].status == Closed <==> job.op.DoSell?
  {
    match job.op
    case DoResolve(_, _, vs) => BatchBetsAt(b.bets, vs, Settle);
    case DoReverse(_, vs) => BatchBetsAt(b.bets, vs, Reverse);
    case _ =>
  }

  /** The loser of the race to close a bet sees its new status once it gets the row. */
  lemma LateCloseIsRefused(order: Order, s: Sys, p: nat, t: Sys, i: BetId)
    requires SysOk(order, s) && p < |s.procs| && s.procs[p].req.SellRequest? && s.procs[p].pc == Rows([i], [])
    requires s.books.bets[i].status != Pending && Advances(order, s, p, t)
    ensures t.procs[p].pc == Finished(Err(BetNotClosable)) && t.books == s.books
  {
  }

  /** A resolution that waited for a bet settled or closed meanwhile goes on without it. */
  lemma LateResolveSkips(order: Order, s: Sys, p: nat, t: Sys)
    requires SysOk(order, s) && p < |s.procs| && s.procs[p].req.ResolveRequest?
    requires s.procs[p].pc.Rows? && s.procs[p].pc.ids != []
    requires Advances(order, s, p, t)
    ensures t.procs[p].pc.Rows?
    ensures (exists v | v in t.procs[p].pc.held :: v.id == s.procs[p].pc.ids[0]) <==>
      s.books.bets[s.procs[p].pc.ids[0]].status == Pending
  {
    var me := s.procs[p];
    var ids, held := me.pc.ids, me.pc.held;
    forall v | v in held ensures v.id != ids[0] {
      assert BetLock(v.id) in me.locks;
    }
    if s.books.bets[ids[0]].status == Pending {
      assert Verdict(ids[0], s.books.bets[ids[0]].outcome == me.req.winner) in t.procs[p].pc.held;
    }
  }

  /** A reversal that read a bet another reversal has reopened since, whatever has happened to the bet
      after that, runs into the used key and changes nothing. */
  lemma StaleReversalRollsBack(order: Order, s: Sys, p: nat, t: Sys)
    requires SysOk(order, s) && p < |s.procs| && s.procs[p].pc.Checked? && s.procs[p].pc.ready.op.DoReverse?
    requires exists v | v in s.procs[p].pc.ready.op.seen :: s.books.bets[v.id].status != SideOf(v.won)
    requires Advances(order, s, p, t)
    ensures t.procs[p].pc.Finished? && t.procs[p].pc.result.Err? && t.books == s.books && t.log == s.log
  {
    var me := s.procs[p];
    var job := me.pc.ready;
    WriteIsStep(s.books, me.locks, me.ctx, job);
    StaleReversalFails(s.books, job.op.seen, me.ctx);
  }

  // ---------------------------------------------------------------------------
  // Balances are read only after both locks are held.
  // ---------------------------------------------------------------------------

  /** A placement whose balance check has passed commits: no interleaving can overdraw the wallet between
      the check and the write. */
  lemma CheckedPlacementCommits(order: Order, s: Sys, p: nat)
    requires SysOk(order, s) && p < |s.procs| && s.procs[p].pc.Checked? && s.procs[p].pc.ready.op.DoPlace?
    ensures Write(s.books, s.procs[p].pc.ready, s.procs[p].ctx).Ok?
  {
  }

  /** A checked transfer never reaches the balance floor; only a used key or a missing account stops it. */
  lemma CheckedTransferIsCovered(order: Order, s: Sys, p: nat)
    requires SysOk(order, s) && p < |s.procs| && s.procs[p].pc.Checked? && s.procs[p].pc.ready.op.DoTransfer?
    ensures var op := s.procs[p].pc.ready.op;
      Write(s.books, s.procs[p].pc.ready, s.procs[p].ctx).Ok? <==>
        && op.credit in s.books.accounts
        && (op.key.Some? ==> ClientKey(op.key.value) !in KeysOf(s.books.transfers))
  {
  }

  /** The closed forms of the serial model hold in every state of every interleaving. */
  lemma InterleavedClosedForms(order: Order, trace: seq<Sys>, k: nat, m: MarketId)
    requires IsExecution(order, trace) && k < |trace|
    ensures Valid(trace[k].books) && NonNegative(trace[k].books) && ClosedForms(trace[k].books, m)
  {
    ExecutionIsSerial(order, trace, k);
    PoolHoldsPendingStakes(trace[k].books, m);
    HouseClosedForms(trace[k].books);
  }

  /** In every interleaving of closes, resolutions and reversals the transfers about a bet add up to exactly
      one of payout, nothing and cash-out for its owner, according to its status. */
  lemma InterleavedBetMoney(order: Order, trace: seq<Sys>, k: nat, i: BetId)
    requires IsExecution(order, trace) && k < |trace| && i < |trace[k].books.bets|
    ensures Valid(trace[k].books)
    ensures var b := trace[k].books;
      Total(b.entries, Tagged(i, Wallet(b.bets[i].user))) + b.bets[i].stake ==
        match b.bets[i].status
        case Pending => 0
        case Won => Payout(b.bets[i].stake, b.bets[i].price)
        case Lost => 0
        case Closed => CashoutAt(b.bets[i], b.bets[i].exitOdds.value)
  {
    ExecutionIsSerial(order, trace, k);
    BetMoneyIsExact(trace[k].books, i);
  }

  // ---------------------------------------------------------------------------
  // Deadlock freedom.
  // ---------------------------------------------------------------------------

  /** The lock a process needs for its next step. */
  function Wants(p: Proc): Option<Resource> {
    match p.pc
    case Rows(ids, _) => if ids == [] then None else Some(BetLock(ids[0]))
    case Locks(todo, _) => if todo == [] then None else Some(todo[0])
    case Stamping(job, _) => if RowOf(job.op).None? then None else Some(MarketLock(RowOf(job.op).value))
    case _ => None
  }

  /** What a process waits for comes after everything it holds. */
  lemma WaitsUpwards(order: Order, b: Books, p: Proc, held: Resource)
    requires ProcOk(order, b, p) && Wants(p).Some? && held in p.locks
    ensures Before(order, held, Wants(p).value)
  {
  }

  lemma PlainPcExists(order: Order, b: Books, job: Job) returns (pc: Pc)
    requires Injective(order)
    ensures Enters(order, job, pc)
  {
    var accounts := SortExists(order, Touched(job));
    pc := Locks(accounts, job);
  }

  lemma StartExists(order: Order, s: Sys, p: nat) returns (t: Sys)
    requires Injective(order) && SysOk(order, s) && p < |s.procs| && s.procs[p].pc.Begin?
    ensures Advances(order, s, p, t)
  {
    var me, b := s.procs[p], s.books;
    var pc: Pc;
    match me.req {
      case Plain(op) =>
        if Refused(b, op, me.ctx.now).Some? {
          pc := Finished(Err(Refused(b, op, me.ctx.now).value));
        } else {
          pc := PlainPcExists(order, b, Job(op, []));
        }
      case SellRequest(id, seller, _) =>
        pc := if id >= |b.bets| || b.bets[id].user != seller then Finished(Err(BetNotFound))
              else if b.bets[id].status != Pending then Finished(Err(BetNotClosable)) else Rows([id], []);
      case ResolveRequest(m, w) => pc := Rows(IdsOf(PendingVerdicts(b.bets, m, w)), []);
      case ReverseRequest(m) => pc := Rows(IdsOf(SettledVerdicts(b.bets, m)), SettledVerdicts(b.bets, m));
    }
    assert Starts(order, b, me.req, me.ctx, pc);
    t := Replaced(s, p, pc, {});
  }

  lemma PlanExists(order: Order, s: Sys, p: nat) returns (t: Sys)
    requires Injective(order) && SysOk(order, s) && p < |s.procs|
    requires s.procs[p].pc.Rows? && s.procs[p].pc.ids == []
    ensures Advances(order, s, p, t)
  {
    var me, b := s.procs[p], s.books;
    var held, pc := me.pc.held, Finished(Err(ValueError));
    match me.req {
      case Plain(_) =>
      case SellRequest(id, seller, quote) =>
        if id < |b.bets| && CloseQuote(b.bets[id], quote, me.ctx.now).Ok? {
          var exit := CloseQuote(b.bets[id], quote, me.ctx.now).value;
          pc := PlainPcExists(order, b, Job(DoSell(id, seller, quote), CloseLegs(id, b.bets[id], exit)));
        }
      case ResolveRequest(m, w) =>
        if !Unpayable(b.bets, held) {
          pc := PlainPcExists(order, b, Job(DoResolve(m, w, held), BatchLegs(b.bets, held, Settle)));
        }
      case ReverseRequest(m) =>
        if !Unpayable(b.bets, held) {
          pc := PlainPcExists(order, b, Job(DoReverse(m, held), BatchLegs(b.bets, held, Reverse)));
        }
    }
    assert Plans(order, b, me.req, me.ctx, held, pc);
    t := Replaced(s, p, pc, me.locks);
  }

  /** A process that waits for nobody can make its step. */
  lemma UnblockedSteps(order: Order, s: Sys, p: nat) returns (t: Sys)
    requires Injective(order) && SysOk(order, s) && p < |s.procs| && !s.procs[p].pc.Finished?
    requires Wants(s.procs[p]).Some? ==> Free(s, p, Wants(s.procs[p]).value)
    ensures Advances(order, s, p, t)
  {
    var me := s.procs[p];
    match me.pc {
      case Begin => t := StartExists(order, s, p);
      case Rows(ids, held) =>
        if ids == [] {
          t := PlanExists(order, s, p);
        } else {
          t := Replaced(s, p, RowLocked(s.books, me.req, ids, held), me.locks + {BetLock(ids[0])});
        }
      case Locks(todo, job) =>
        if todo == [] {
          t := Replaced(s, p, RowsHeld(s, job), me.locks);
        } else {
          t := Replaced(s, p, Locks(todo[1..], job), me.locks + {todo[0]});
        }
      case Stamping(job, seen) =>
        t := Replaced(s, p, Checked(job, Some(seen)), me.locks + {MarketLock(RowOf(job.op).value)});
      case Checked(job, _) =>
        match Write(s.books, job, me.ctx) {
          case Ok(after) => t := Committed(s, p, job, after);
          case Err(e) => t := Replaced(s, p, Finished(Err(e)), {});
        }
    }
  }

  /** The processes that wait for something above what `p` waits for. */
  ghost function WaitingAbove(order: Order, s: Sys, p: nat): set<nat>
    requires p < |s.procs|
  {
    set q: nat | q < |s.procs| && Wants(s.procs[p]).Some? && Wants(s.procs[q]).Some?
                 && Before(order, Wants(s.procs[p]).value, Wants(s.procs[q]).value)
  }

  lemma HolderWaitsHigher(order: Order, s: Sys, p: nat, o: nat)
    requires SysOk(order, s) && p < |s.procs| && o < |s.procs|
    requires Wants(s.procs[p]).Some? && Wants(s.procs[o]).Some? && Wants(s.procs[p]).value in s.procs[o].locks
    ensures WaitingAbove(order, s, o) < WaitingAbove(order, s, p)
  {
    WaitsUpwards(order, s.books, s.procs[o], Wants(s.procs[p]).value);
    assert o in WaitingAbove(order, s, p) && o !in WaitingAbove(order, s, o);
  }

  /** Following the wait-for edges climbs the lock order, so it ends at a process that can step. */
  lemma {:induction false} ClimbToMover(order: Order, s: Sys, p: nat) returns (q: nat, t: Sys)
    requires Injective(order) && SysOk(order, s) && p < |s.procs| && !s.procs[p].pc.Finished?
    ensures q < |s.procs| && Advances(order, s, q, t)
    decreases WaitingAbove(order, s, p)
  {
    if Wants(s.procs[p]).None? || Free(s, p, Wants(s.procs[p]).value) {
      q := p;
      t := UnblockedSteps(order, s, p);
    } else {
      var r := Wants(s.procs[p]).value;
      var o: nat :| o < |s.procs| && o != p && r in s.procs[o].locks;
      if Wants(s.procs[o]).Some? {
        HolderWaitsHigher(order, s, p, o);
        q, t := ClimbToMover(order, s, o);
      } else {
        q := o;
        t := UnblockedSteps(order, s, o);
      }
    }
  }

  /** In every reachable state with an unfinished transaction, some transaction can step. */
  lemma DeadlockFree(order: Order, trace: seq<Sys>, k: nat, p: nat)
    requires Injective(order) && IsExecution(order, trace) && k < |trace|
    requires p < |trace[k].procs| && !trace[k].procs[p].pc.Finished?
    ensures exists q: nat, t :: q < |trace[k].procs| && SysOk(order, trace[k]) && Advances(order, trace[k], q, t)
  {
    ExecutionIsSerial(order, trace, k);
    var q, t := ClimbToMover(order, trace[k], p);
  }

  // ---------------------------------------------------------------------------
  // Termination.
  // ---------------------------------------------------------------------------

  /** What a process still has to do in each phase: start, bet rows, accounts, market row, commit. */
  function Remaining(p: Proc, phase: nat): nat {
    match p.pc
    case Begin => if phase == 0 then 1 else 0
    case Rows(ids, _) => if phase == 1 then |ids| + 1 else 0
    case Locks(todo, _) => if phase == 2 then |todo| + 1 else 0
    case Stamping(_, _) => if phase == 3 then 1 else 0
    case Checked(_, _) => if phase == 4 then 1 else 0
    case Finished(_) => 0
  }

  function Work(procs: seq<Proc>, phase: nat): nat {
    if procs == [] then 0 else Remaining(procs[0], phase) + Work(procs[1..], phase)
  }

  lemma {:induction false} WorkUpdate(procs: seq<Proc>, p: nat, x: Proc, phase: nat)
    requires p < |procs|
    ensures Work(procs[p := x], phase) == Work(procs, phase) - Remaining(procs[p], phase) + Remaining(x, phase)
  {
    var after := procs[p := x];
    if p > 0 {
      assert after[1..] == procs[1..][p - 1 := x];
      WorkUpdate(procs[1..], p - 1, x, phase);
    } else {
      assert after[1..] == procs[1..];
    }
  }

  /** Lexicographic descent of five numbers. */
  predicate Below(x: seq<nat>, y: seq<nat>) {
    && |x| == |y| == 5
    && exists k | 0 <= k < 5 :: x[k] < y[k] && forall j | 0 <= j < k :: x[j] == y[j]
  }

  function Measure(procs: seq<Proc>): seq<nat> {
    [Work(procs, 0), Work(procs, 1), Work(procs, 2), Work(procs, 3), Work(procs, 4)]
  }

  predicate Descends(s: seq<Proc>, t: seq<Proc>) {
    Below(Measure(t), Measure(s))
  }

  function Left(p: Proc): seq<nat> {
    [Remaining(p, 0), Remaining(p, 1), Remaining(p, 2), Remaining(p, 3), Remaining(p, 4)]
  }

  /** The same descent for one process. */
  predicate Drops(x: Proc, y: Proc) {
    Below(Left(y), Left(x))
  }

  lemma DropsAt(x: Proc, y: Proc, k: nat)
    requires k < 5 && Remaining(y, k) < Remaining(x, k)
    requires forall j | 0 <= j < k :: Remaining(y, j) == Remaining(x, j)
    ensures Drops(x, y)
  {
    assert Left(y)[k] < Left(x)[k];
    forall j | 0 <= j < k ensures Left(y)[j] == Left(x)[j] {
      assert Remaining(y, j) == Remaining(x, j);
    }
  }

  /** The phase a process is in, by its number. */
  function Phase(pc: Pc): nat {
    match pc
    case Begin => 0
    case Rows(_, _) => 1
    case Locks(_, _) => 2
    case Stamping(_, _) => 3
    case Checked(_, _) => 4
    case Finished(_) => 5
  }

  /** A process moves on to a later phase, or stays in its phase with less to do. */
  lemma StepDrops(x: Proc, y: Proc)
    requires !x.pc.Finished?
    requires
      || Phase(y.pc) > Phase(x.pc)
      || (Phase(y.pc) == Phase(x.pc) && Remaining(y, Phase(x.pc)) < Remaining(x, Phase(x.pc)))
    ensures Drops(x, y)
  {
    DropsAt(x, y, Phase(x.pc));
  }

  lemma BeginMovesOn(order: Order, s: Sys, p: nat, t: Sys)
    requires SysOk(order, s) && p < |s.procs| && s.procs[p].pc.Begin? && Advances(order, s, p, t)
    ensures t.procs == s.procs[p := t.procs[p]] && SameTables(s, t) && Phase(t.procs[p].pc) > 0
  {
    var pc :| Starts(order, s.books, s.procs[p].req, s.procs[p].ctx, pc) && t == Replaced(s, p, pc, {});
    assert !pc.Begin?;
  }

  lemma PlannedPc(order: Order, b: Books, req: Request, ctx: Context, held: seq<Verdict>, pc: Pc)
    requires SoundBets(b.bets) && InRange(b.bets, held) && Plans(order, b, req, ctx, held, pc)
    ensures pc.Locks? || (pc.Finished? && pc.result.Err?)
  {
  }

  lemma PlanTaken(order: Order, s: Sys, p: nat, t: Sys) returns (pc: Pc)
    requires SysOk(order, s) && p < |s.procs| && s.procs[p].pc.Rows? && s.procs[p].pc.ids == []
    requires Advances(order, s, p, t)
    ensures t == Replaced(s, p, pc, s.procs[p].locks) && (pc.Locks? || (pc.Finished? && pc.result.Err?))
  {
    var me := s.procs[p];
    pc :| Plans(order, s.books, me.req, me.ctx, me.pc.held, pc) && t == Replaced(s, p, pc, me.locks);
    PlannedPc(order, s.books, me.req, me.ctx, me.pc.held, pc);
  }

  lemma PlansMoveOn(order: Order, s: Sys, p: nat, t: Sys)
    requires SysOk(order, s) && p < |s.procs| && s.procs[p].pc.Rows? && s.procs[p].pc.ids == []
    requires Advances(order, s, p, t)
    ensures t.procs == s.procs[p := t.procs[p]] && SameTables(s, t) && Phase(t.procs[p].pc) > 1
    ensures t.procs[p].pc != Finished(Ok(()))
  {
    var pc := PlanTaken(order, s, p, t);
  }

  lemma RowsMoveOn(order: Order, s: Sys, p: nat, t: Sys)
    requires SysOk(order, s) && p < |s.procs| && s.procs[p].pc.Rows? && Advances(order, s, p, t)
    ensures t.procs == s.procs[p := t.procs[p]] && SameTables(s, t)
    ensures Phase(t.procs[p].pc) > 1 || (t.procs[p].pc.Rows? && |t.procs[p].pc.ids| < |s.procs[p].pc.ids|)
  {
    if s.procs[p].pc.ids == [] {
      PlansMoveOn(order, s, p, t);
    }
  }

  lemma LaterMoveOn(order: Order, s: Sys, p: nat, t: Sys)
    requires SysOk(order, s) && p < |s.procs| && Phase(s.procs[p].pc) >= 2 && Advances(order, s, p, t)
    ensures t.procs == s.procs[p := t.procs[p]]
    ensures t.procs[p].pc != Finished(Ok(())) ==> SameTables(s, t)
    ensures Phase(t.procs[p].pc) > Phase(s.procs[p].pc)
      || (s.procs[p].pc.Locks? && t.procs[p].pc.Locks? && |t.procs[p].pc.todo| < |s.procs[p].pc.todo|)
  {
  }

  /** Every step makes the remaining work smaller, however the processes interleave: no execution is
      infinite. */
  lemma StepDescends(order: Order, s: Sys, p: nat, t: Sys)
    requires SysOk(order, s) && p < |s.procs|
    requires Advances(order, s, p, t) || Crashes(s, p, t)
    ensures Descends(s.procs, t.procs)
  {
    if Advances(order, s, p, t) {
      match s.procs[p].pc
      case Begin => BeginMovesOn(order, s, p, t);
      case Rows(_, _) => RowsMoveOn(order, s, p, t);
      case _ => LaterMoveOn(order, s, p, t);
    }
    StepDrops(s.procs[p], t.procs[p]);
    DropsDescend(s.procs, p, t.procs[p]);
  }

  lemma DropsDescend(procs: seq<Proc>, p: nat, x: Proc)
    requires p < |procs| && Drops(procs[p], x)
    ensures Descends(procs, procs[p := x])
  {
    var k :| 0 <= k < 5 && Left(x)[k] < Left(procs[p])[k] && forall j | 0 <= j < k :: Left(x)[j] == Left(procs[p])[j];
    forall phase: nat | phase <= k
      ensures Work(procs[p := x], phase) == Work(procs, phase) - Remaining(procs[p], phase) + Remaining(x, phase)
    {
      WorkUpdate(procs, p, x, phase);
    }
    var before, after := Measure(procs), Measure(procs[p := x]);
    assert after[k] < before[k];
    forall j | 0 <= j < k ensures after[j] == before[j] {
      assert Left(x)[j] == Left(procs[p])[j];
    }
  }

  lemma Lexicographic(x: seq<nat>, y: seq<nat>)
    requires Below(x, y)
    ensures x[0] <= y[0] && (x[0] == y[0] ==> x[1] <= y[1]) && (x[0] == y[0] && x[1] == y[1] ==> x[2] <= y[2])
    ensures x[..3] == y[..3] ==> x[3] <= y[3] && (x[3] == y[3] ==> x[4] < y[4])
  {
    assert x[..3] == y[..3] ==> forall j | 0 <= j < 3 :: x[..3][j] == y[..3][j];
  }

  predicate AllFinished(s: Sys) {
    forall p | 0 <= p < |s.procs| :: s.procs[p].pc.Finished?
  }

  ghost predicate IsPath(order: Order, trace: seq<Sys>) {
    trace != [] && forall k | 0 <= k < |trace| - 1 :: Moves(order, trace[k], trace[k + 1])
  }

  lemma PathCons(order: Order, s: Sys, rest: seq<Sys>)
    requires IsPath(order, rest) && Moves(order, s, rest[0])
    ensures IsPath(order, [s] + rest)
  {
    var trace := [s] + rest;
    forall k | 0 <= k < |trace| - 1 ensures Moves(order, trace[k], trace[k + 1]) {
      if k > 0 {
        assert trace[k] == rest[k - 1] && trace[k + 1] == rest[k];
      }
    }
  }

  lemma SomeStep(order: Order, s: Sys) returns (t: Sys)
    requires Injective(order) && SysOk(order, s) && !AllFinished(s)
    ensures Moves(order, s, t) && SysOk(order, t) && Descends(s.procs, t.procs)
  {
    var p: nat :| p < |s.procs| && !s.procs[p].pc.Finished?;
    var q;
    q, t := ClimbToMover(order, s, p);
    StepKeepsSys(order, s, q, t);
    StepDescends(order, s, q, t);
  }

  /** Scheduling any process that can step, again and again, answers every call. */
  lemma {:induction false} EverybodyFinishes(order: Order, s: Sys) returns (trace: seq<Sys>)
    requires Injective(order) && SysOk(order, s)
    ensures IsPath(order, trace) && trace[0] == s && AllFinished(trace[|trace| - 1])
    decreases Work(s.procs, 0), Work(s.procs, 1), Work(s.procs, 2), Work(s.procs, 3), Work(s.procs, 4)
  {
    if AllFinished(s) {
      trace := [s];
    } else {
      var t := SomeStep(order, s);
      Lexicographic(Measure(t.procs), Measure(s.procs));
      var rest := EverybodyFinishes(order, t);
      PathCons(order, s, rest);
      trace := [s] + rest;
    }
  }
}
