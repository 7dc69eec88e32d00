/** Transactions as interleaved processes under READ COMMITTED with row locks.

    A process reads, locks bet rows in scan order, then accounts in canonical order, checks balances, reads
    the market row without a lock, locks it if it has to write it, and commits. Every step of every other
    process may come in between.
*/
module Concurrency {
  import opened Domain
  import opened Posting
  import opened Lifecycle
  import opened Transactions
  import opened Invariant
  import opened Runs
  import opened Database

  datatype Resource = BetLock(id: BetId) | AccountLock(account: Account) | MarketLock(market: MarketId)

  /** The account order is the order of the ids' text; nothing is assumed of it but that it is one. */
  type Order = Account -> nat

  ghost predicate Injective(order: Order) {
    forall a, b :: order(a) == order(b) ==> a == b
  }

  function Class(r: Resource): nat {
    match r case BetLock(_) => 0 case AccountLock(_) => 1 case MarketLock(_) => 2
  }

  function Rank(order: Order, r: Resource): nat {
    match r case BetLock(i) => i case AccountLock(a) => order(a) case MarketLock(m) => m
  }

  /** The order in which every transaction takes its locks. */
  predicate Before(order: Order, x: Resource, y: Resource) {
    Class(x) < Class(y) || (Class(x) == Class(y) && Rank(order, x) < Rank(order, y))
  }

  /** A call waiting to be served. Funding, transfers, placement and account creation read no bet rows. */
  datatype Request =
    | Plain(op: Op)
    | SellRequest(id: BetId, seller: UserId, quote: Option<MarketView>)
    | ResolveRequest(market: MarketId, winner: OutcomeId)
    | ReverseRequest(market: MarketId)

  /** What a transaction is about to write, as computed from what it read. */
  datatype Job = Job(op: Op, legs: seq<Leg>)

  datatype Pc =
    | Begin
    | Rows(ids: seq<BetId>, held: seq<Verdict>)
    | Locks(todo: seq<Resource>, job: Job)
    | Stamping(draft: Job, seen: MarketRow)
    | Checked(ready: Job, stamp: Option<MarketRow>)
    | Finished(result: Result<()>)

  datatype Proc = Proc(req: Request, ctx: Context, pc: Pc, locks: set<Resource>)

  /** `states` and `log` record the commits: they play no part in what processes do. */
  datatype Sys = Sys(books: Books, markets: map<MarketId, MarketRow>, procs: seq<Proc>, states: seq<Books>,
                     log: seq<Event>)

  // ---------------------------------------------------------------------------
  // Lock lists.
  // ---------------------------------------------------------------------------

  predicate Increasing(order: Order, rs: seq<Resource>) {
    forall i, j | 0 <= i < j < |rs| :: Before(order, rs[i], rs[j])
  }

  /** A list of the accounts in canonical order. */
  ghost predicate Sorts(order: Order, accounts: set<Account>, rs: seq<Resource>) {
    && Increasing(order, rs)
    && (forall r | r in rs :: r.AccountLock? && r.account in accounts)
    && forall a | a in accounts :: AccountLock(a) in rs
  }

  lemma {:induction false} LeastAccount(order: Order, accounts: set<Account>) returns (least: Account)
    requires accounts != {}
    ensures least in accounts && forall a | a in accounts :: order(least) <= order(a)
    decreases accounts
  {
    var first :| first in accounts;
    var rest := accounts - {first};
    least := first;
    if rest != {} {
      var other := LeastAccount(order, rest);
      if order(other) < order(first) {
        least := other;
      }
    }
    forall a | a in accounts ensures order(least) <= order(a) {
      assert a == first || a in rest;
    }
  }

  lemma {:induction false} SortExists(order: Order, accounts: set<Account>) returns (rs: seq<Resource>)
    requires Injective(order)
    ensures Sorts(order, accounts, rs)
    decreases accounts
  {
    if accounts == {} {
      rs := [];
    } else {
      var least := LeastAccount(order, accounts);
      var rest := SortExists(order, accounts - {least});
      rs := [AccountLock(least)] + rest;
      forall i, j | 0 <= i < j < |rs| ensures Before(order, rs[i], rs[j]) {
        if i == 0 {
          assert rs[j] in rest;
        } else {
          assert rs[i] == rest[i - 1] && rs[j] == rest[j - 1];
        }
      }
    }
  }

  function LegAccounts(legs: seq<Leg>): set<Account> {
    (set l | l in legs :: l.debit) + (set l | l in legs :: l.credit)
  }

  /** The accounts a job writes. */
  function Touched(job: Job): set<Account> {
    match job.op
    case OpenWallet(_) => {}
    case EnsurePool(m) => {Liability(m)}
    case DoRecharge(u, _, _, _) => {HousePromo, Wallet(u)}
    case DoBonus(u, _) => {HousePromo, Wallet(u)}
    case DoTransfer(from, to, _, _) => {from, to}
    case DoPlace(u, m, _, _, _) => {Wallet(u), Liability(m)}
    case _ => LegAccounts(job.legs)
  }

  // ---------------------------------------------------------------------------
  // The market row.
  // ---------------------------------------------------------------------------

  /** The market whose row `mark_resolved` or `mark_unresolved` reads. */
  function RowOf(op: Op): Option<MarketId> {
    match op
    case DoResolve(m, _, _) => Some(m)
    case DoReverse(m, vs) => if vs == [] then None else Some(m)
    case _ => None
  }

  /** What they find, without locking it: an exception, nothing to write, or a row to write over. */
  function RowRead(markets: map<MarketId, MarketRow>, op: Op): Result<Option<MarketRow>> {
    var m := RowOf(op);
    if m.None? then Ok(None)
    else if m.value !in markets then Err(MarketNotFound)
    else if op.DoReverse? then Ok(Some(markets[m.value]))
    else if markets[m.value].view.status == MarketVoided then Err(MarketCancelled)
    else if markets[m.value].view.status == MarketResolved then Ok(None)
    else Ok(Some(markets[m.value]))
  }

  /** The update writes the columns that differ from the row as it was read, onto the row as it is now. */
  function Restamp(row: MarketRow, seen: MarketRow, op: Op, now: Time): MarketRow {
    match op
    case DoResolve(_, w, _) =>
      MarketRow(row.view.(status := MarketResolved), if seen.winner == Some(w) then row.winner else Some(w), Some(now))
    case DoReverse(_, _) =>
      MarketRow(if seen.view.status == MarketStopped then row.view else row.view.(status := MarketStopped),
                row.winner, if seen.resolvedAt == None then row.resolvedAt else None)
    case _ => row
  }

  /** If nobody wrote the row in between, that is what the adapter does in one transaction. */
  lemma RestampUnraced(row: MarketRow, op: Op, now: Time)
    ensures op.DoResolve? && row.view.status != MarketResolved ==>
      Restamp(row, row, op, now) == Stamped(row, op.winner, now)
    ensures op.DoReverse? ==> Restamp(row, row, op, now) == Unstamped(row)
  {
  }

  function Restamped(markets: map<MarketId, MarketRow>, op: Op, stamp: Option<MarketRow>,
                     now: Time): map<MarketId, MarketRow>
  {
    if stamp.Some? && RowOf(op).Some? && RowOf(op).value in markets
    then markets[RowOf(op).value := Restamp(markets[RowOf(op).value], stamp.value, op, now)]
    else markets
  }

  // ---------------------------------------------------------------------------
  // Steps.
  // ---------------------------------------------------------------------------

  function IdsOf(vs: seq<Verdict>): (r: seq<BetId>)
    ensures |r| == |vs| && forall i | 0 <= i < |vs| :: r[i] == vs[i].id
  {
    seq(|vs|, i requires 0 <= i < |vs| => vs[i].id)
  }

  ghost predicate Enters(order: Order, job: Job, pc: Pc) {
    pc.Locks? && pc.job == job && Sorts(order, Touched(job), pc.todo)
  }

  /** What a call that reads no bets checks before it takes any lock. */
  function Refused(b: Books, op: Op, now: Time): Option<Error> {
    match op
    case DoRecharge(u, amount, _, provider) =>
      if provider == Stripe then Some(NotImplemented)
      else if provider != House || amount <= 0 then Some(ValueError)
      else if Wallet(u) !in b.accounts then Some(NoAccount) else None
    case DoBonus(u, amount) =>
      if amount <= 0 then Some(ValueError) else if Wallet(u) !in b.accounts then Some(NoAccount) else None
    case DoTransfer(_, _, amount, _) => if amount <= 0 then Some(ValueError) else None
    case DoPlace(u, m, o, stake, view) =>
      if Quote(view, o, stake, now).Err? then Some(Quote(view, o, stake, now).error)
      else if Liability(m) !in b.accounts || Wallet(u) !in b.accounts then Some(NoAccount) else None
    case DoSell(_, _, _) => Some(ValueError)
    case DoResolve(_, _, _) => Some(ValueError)
    case DoReverse(_, _) => Some(ValueError)
    case _ => None
  }

  /** The statement snapshot or the unlocked read that a transaction starts from. */
  ghost predicate Starts(order: Order, b: Books, req: Request, ctx: Context, pc: Pc)
    requires SoundBets(b.bets)
  {
    match req
    case Plain(op) =>
      if Refused(b, op, ctx.now).Some? then pc == Finished(Err(Refused(b, op, ctx.now).value))
      else Enters(order, Job(op, []), pc)
    case SellRequest(id, seller, _) =>
      if id >= |b.bets| || b.bets[id].user != seller then pc == Finished(Err(BetNotFound))
      else if b.bets[id].status != Pending then pc == Finished(Err(BetNotClosable))
      else pc == Rows([id], [])
    case ResolveRequest(m, w) => pc == Rows(IdsOf(PendingVerdicts(b.bets, m, w)), [])
    case ReverseRequest(m) => pc == Rows(IdsOf(SettledVerdicts(b.bets, m)), SettledVerdicts(b.bets, m))
  }

  /** A bet row has just been locked; FOR UPDATE re-evaluates its filter on the committed version. The
      rows of a reversal were selected without a lock and are only written. */
  function RowLocked(b: Books, req: Request, ids: seq<BetId>, held: seq<Verdict>): Pc
    requires ids != [] && ids[0] < |b.bets|
  {
    var bet := b.bets[ids[0]];
    match req
    case SellRequest(id, _, _) =>
      if bet.status != Pending then Finished(Err(BetNotClosable)) else Rows(ids[1..], [Verdict(id, false)])
    case ResolveRequest(_, w) =>
      Rows(ids[1..], if bet.status == Pending then held + [Verdict(ids[0], bet.outcome == w)] else held)
    case _ => Rows(ids[1..], held)
  }

  /** All rows are locked: derive the legs. */
  ghost predicate Plans(order: Order, b: Books, req: Request, ctx: Context, held: seq<Verdict>, pc: Pc)
    requires SoundBets(b.bets) && InRange(b.bets, held)
  {
    match req
    case Plain(_) => pc == Finished(Err(ValueError))
    case SellRequest(id, seller, quote) =>
      if id >= |b.bets| || CloseQuote(b.bets[id], quote, ctx.now).Err? then exists e :: pc == Finished(Err(e))
      else
        var exit := CloseQuote(b.bets[id], quote, ctx.now).value;
        Enters(order, Job(DoSell(id, seller, quote), CloseLegs(id, b.bets[id], exit)), pc)
    case ResolveRequest(m, w) =>
      if Unpayable(b.bets, held) then pc == Finished(Err(ValueError))
      else Enters(order, Job(DoResolve(m, w, held), BatchLegs(b.bets, held, Settle)), pc)
    case ReverseRequest(m) =>
      if Unpayable(b.bets, held) then pc == Finished(Err(ValueError))
      else Enters(order, Job(DoReverse(m, held), BatchLegs(b.bets, held, Reverse)), pc)
  }

  /** Placement and direct transfers read the debited balance here, with both locks held. */
  function Funds(b: Books, op: Op): Result<()> {
    match op
    case DoTransfer(from, _, amount, _) =>
      if from !in b.accounts then Err(NoAccount)
      else if b.accounts[from].balance < amount then Err(InsufficientBalance) else Ok(())
    case DoPlace(u, _, _, stake, _) =>
      if Wallet(u) !in b.accounts then Err(NoAccount)
      else if b.accounts[Wallet(u)].balance < stake then Err(InsufficientBalance) else Ok(())
    case _ => Ok(())
  }

  /** The writes, from what was computed earlier: no balance check and no status check is repeated. */
  ghost function Write(b: Books, job: Job, ctx: Context): Result<Books>
    requires Enabled(b, job.op)
    requires job.op.DoSell? ==> job.op.id < |b.bets| && CloseQuote(b.bets[job.op.id], job.op.quote, ctx.now).Ok?
    requires job.op.DoPlace? ==> Quote(job.op.view, job.op.outcome, job.op.stake, ctx.now).Ok?
  {
    match job.op
    case DoTransfer(from, to, amount, key) => PostLeg(b, TransferLeg(from, to, amount, key), ctx)
    case DoPlace(u, m, o, stake, view) =>
      var bet := NewBet(u, m, o, stake, Quote(view, o, stake, ctx.now).value);
      var posted :- PostLeg(b, PlaceLeg(|b.bets|, bet), Context(Some(u), ctx.now));
      Ok(posted.(bets := b.bets + [bet]))
    case DoSell(id, u, view) =>
      var posted :- PostAll(b, job.legs, Context(Some(u), ctx.now));
      Ok(posted.(bets := b.bets[id := ClosedAt(b.bets[id], CloseQuote(b.bets[id], view, ctx.now).value, ctx.now)]))
    case DoResolve(_, _, vs) =>
      var posted :- PostAll(b, job.legs, ctx);
      Ok(posted.(bets := BatchBets(b.bets, vs, Settle)))
    case DoReverse(_, vs) =>
      var posted :- PostAll(b, job.legs, ctx);
      Ok(posted.(bets := BatchBets(b.bets, vs, Reverse)))
    case _ => Step(b, Event(job.op, ctx))
  }

  // ---------------------------------------------------------------------------
  // What holds of a process between its steps.
  // ---------------------------------------------------------------------------

  ghost predicate JobOk(b: Books, locks: set<Resource>, ctx: Context, job: Job) {
    && Enabled(b, job.op)
    && match job.op
       case DoTransfer(_, _, amount, _) => amount > 0
       case DoPlace(_, _, o, stake, view) => Quote(view, o, stake, ctx.now).Ok?
       case DoSell(id, u, view) =>
         && id < |b.bets| && b.bets[id].user == u && b.bets[id].status == Pending && BetLock(id) in locks
         && CloseQuote(b.bets[id], view, ctx.now).Ok?
         && job.legs == CloseLegs(id, b.bets[id], CloseQuote(b.bets[id], view, ctx.now).value)
       case DoResolve(_, _, vs) =>
         && !Unpayable(b.bets, vs) && job.legs == BatchLegs(b.bets, vs, Settle)
         && forall v | v in vs :: BetLock(v.id) in locks
       case DoReverse(_, vs) =>
         && !Unpayable(b.bets, vs) && job.legs == BatchLegs(b.bets, vs, Reverse)
         && forall v | v in vs :: BetLock(v.id) in locks
       case _ => true
  }

  predicate Ascending(ids: seq<BetId>) {
    forall i, j | 0 <= i < j < |ids| :: ids[i] < ids[j]
  }

  ghost predicate RowsOk(b: Books, locks: set<Resource>, req: Request, ids: seq<BetId>, held: seq<Verdict>) {
    && SoundBets(b.bets)
    && Ascending(ids)
    && (forall r | r in locks :: r.BetLock?)
    && (forall r, k | r in locks && 0 <= k < |ids| :: r.id < ids[k])
    && (forall k | 0 <= k < |ids| :: ids[k] < |b.bets|)
    && match req
       case Plain(_) => false
       case SellRequest(id, seller, _) =>
         && id < |b.bets| && b.bets[id].user == seller
         && ((ids == [id] && held == []) ||
             (ids == [] && held == [Verdict(id, false)] && BetLock(id) in locks && b.bets[id].status == Pending))
       case ResolveRequest(m, w) =>
         && Enabled(b, DoResolve(m, w, held))
         && (forall v | v in held :: BetLock(v.id) in locks)
         && forall k | 0 <= k < |ids| :: b.bets[ids[k]].market == m
       case ReverseRequest(m) =>
         && Enabled(b, DoReverse(m, held)) && !Unpayable(b.bets, held)
         && forall v | v in held :: BetLock(v.id) in locks || v.id in ids
  }

  ghost predicate ProcOk(order: Order, b: Books, p: Proc) {
    match p.pc
    case Begin => p.locks == {}
    case Rows(ids, held) => RowsOk(b, p.locks, p.req, ids, held)
    case Locks(todo, job) =>
      && JobOk(b, p.locks, p.ctx, job)
      && Increasing(order, todo)
      && (forall x | x in p.locks :: !x.MarketLock?)
      && (forall r | r in todo :: r.AccountLock?)
      && (forall x, r | x in p.locks && r in todo :: Before(order, x, r))
      && forall a | a in Touched(job) :: AccountLock(a) in p.locks || AccountLock(a) in todo
    case Stamping(job, _) =>
      && ReadyOk(b, p.locks, p.ctx, job)
      && forall x | x in p.locks :: !x.MarketLock?
    case Checked(job, _) => ReadyOk(b, p.locks, p.ctx, job)
    case Finished(_) => p.locks == {}
  }

  /** All account locks are held and the balance has been checked. */
  ghost predicate ReadyOk(b: Books, locks: set<Resource>, ctx: Context, job: Job) {
    && JobOk(b, locks, ctx, job)
    && (forall a | a in Touched(job) :: AccountLock(a) in locks)
    && Funds(b, job.op).Ok?
  }

  function JobOf(pc: Pc): Option<Job> {
    match pc
    case Locks(_, job) => Some(job)
    case Stamping(job, _) => Some(job)
    case Checked(job, _) => Some(job)
    case _ => None
  }

  /** The unit of work that answers a request. */
  predicate Answers(op: Op, req: Request) {
    match req
    case Plain(asked) => op == asked && !op.DoSell? && !op.DoResolve? && !op.DoReverse?
    case SellRequest(id, seller, quote) => op == DoSell(id, seller, quote)
    case ResolveRequest(m, w) => op.DoResolve? && op.resolved == m && op.winner == w
    case ReverseRequest(m) => op.DoReverse? && op.reopened == m
  }

  /** The row a resolution will write over was neither RESOLVED nor voided when it was read. */
  predicate SeenOk(op: Op, seen: MarketRow) {
    op.DoResolve? ==> seen.view.status != MarketResolved && seen.view.status != MarketVoided
  }

  predicate RowOk(markets: map<MarketId, MarketRow>, p: Proc) {
    && (JobOf(p.pc).Some? ==> Answers(JobOf(p.pc).value.op, p.req))
    && match p.pc
       case Stamping(job, seen) => RowOf(job.op).Some? && RowOf(job.op).value in markets && SeenOk(job.op, seen)
       case Checked(job, Some(seen)) =>
         && RowOf(job.op).Some? && RowOf(job.op).value in markets && SeenOk(job.op, seen)
         && MarketLock(RowOf(job.op).value) in p.locks
       case _ => true
  }

  ghost predicate Exclusive(procs: seq<Proc>) {
    forall p, q | 0 <= p < q < |procs| :: procs[p].locks !! procs[q].locks
  }

  /** Locks are exclusive, every process is where its program says, and the books are those of the
      serial run of the commits so far. */
  ghost predicate SysOk(order: Order, s: Sys) {
    && IsRun(s.states, s.log)
    && s.books == s.states[|s.log|]
    && Valid(s.books)
    && Exclusive(s.procs)
    && (forall p | 0 <= p < |s.procs| :: ProcOk(order, s.books, s.procs[p]))
    && forall p | 0 <= p < |s.procs| :: RowOk(s.markets, s.procs[p])
  }

  predicate Free(s: Sys, p: nat, r: Resource) {
    forall q | 0 <= q < |s.procs| && q != p :: r !in s.procs[q].locks
  }

  function Replaced(s: Sys, p: nat, pc: Pc, locks: set<Resource>): Sys
    requires p < |s.procs|
  {
    s.(procs := s.procs[p := s.procs[p].(pc := pc, locks := if pc.Finished? then {} else locks)])
  }

  ghost function Committed(s: Sys, p: nat, job: Job, after: Books): Sys
    requires p < |s.procs|
  {
    Replaced(s, p, Finished(Ok(())), {}).(
      books := after, states := s.states + [after], log := s.log + [Event(job.op, s.procs[p].ctx)],
      markets := if s.procs[p].pc.Checked? then Restamped(s.markets, job.op, s.procs[p].pc.stamp, s.procs[p].ctx.now)
                 else s.markets)
  }

  /** With all account locks held: the balance check, then the unlocked read of the market row. */
  function RowsHeld(s: Sys, job: Job): Pc {
    match Funds(s.books, job.op)
    case Err(e) => Finished(Err(e))
    case Ok(_) =>
      match RowRead(s.markets, job.op)
      case Err(e) => Finished(Err(e))
      case Ok(None) => Checked(job, None)
      case Ok(Some(row)) => Stamping(job, row)
  }

  /** Process `p` makes its next step. It cannot while the row it needs is locked by another process. */
  ghost predicate Advances(order: Order, s: Sys, p: nat, t: Sys)
    requires SysOk(order, s) && p < |s.procs|
  {
    var me := s.procs[p];
    match me.pc
    case Begin => exists pc :: Starts(order, s.books, me.req, me.ctx, pc) && t == Replaced(s, p, pc, {})
    case Rows(ids, held) =>
      if ids == [] then
        exists pc :: Plans(order, s.books, me.req, me.ctx, held, pc) && t == Replaced(s, p, pc, me.locks)
      else
        && Free(s, p, BetLock(ids[0]))
        && t == Replaced(s, p, RowLocked(s.books, me.req, ids, held), me.locks + {BetLock(ids[0])})
    case Locks(todo, job) =>
      if todo == [] then t == Replaced(s, p, RowsHeld(s, job), me.locks)
      else
        && Free(s, p, todo[0])
        && t == Replaced(s, p, Locks(todo[1..], job), me.locks + {todo[0]})
    case Stamping(job, seen) =>
      && Free(s, p, MarketLock(RowOf(job.op).value))
      && t == Replaced(s, p, Checked(job, Some(seen)), me.locks + {MarketLock(RowOf(job.op).value)})
    case Checked(job, _) =>
      (match Write(s.books, job, me.ctx)
       case Ok(after) => t == Committed(s, p, job, after)
       case Err(e) => t == Replaced(s, p, Finished(Err(e)), {}))
    case Finished(_) => false
  }

  /** A connection dies: the transaction rolls back. */
  ghost predicate Crashes(s: Sys, p: nat, t: Sys) {
    p < |s.procs| && !s.procs[p].pc.Finished? && t == Replaced(s, p, Finished(Err(Crashed)), {})
  }

  // ---------------------------------------------------------------------------
  // A commit is one unit of work of the serial model, and writes nothing it has not locked.
  // ---------------------------------------------------------------------------

  /** With the locks held, what was computed earlier is still what the unit of work would do now. */
  lemma WriteIsStep(b: Books, locks: set<Resource>, ctx: Context, job: Job)
    requires JobOk(b, locks, ctx, job) && Funds(b, job.op).Ok?
    ensures Write(b, job, ctx) == Step(b, Event(job.op, ctx))
  {
  }

  lemma {:induction false} PostAllFrame(b: Books, legs: seq<Leg>, ctx: Context, a: Account)
    requires PostAll(b, legs, ctx).Ok? && a !in LegAccounts(legs)
    ensures Balance(PostAll(b, legs, ctx).value, a) == Balance(b, a)
    decreases legs
  {
    if legs != [] {
      assert legs[0] in legs;
      assert forall l | l in legs[1..] :: l in legs;
      PostAllFrame(PostLeg(b, legs[0], ctx).value, legs[1..], ctx, a);
    }
  }

  /** What a commit under `locks` leaves alone: rows of others, and everything ever posted. */
  ghost predicate WritesOnlyLocked(locks: set<Resource>, b: Books, after: Books) {
    && Valid(after) && Extends(b, after)
    && (forall i | 0 <= i < |b.bets| && BetLock(i) !in locks :: after.bets[i] == b.bets[i])
    && (forall a | AccountLock(a) !in locks :: Balance(after, a) == Balance(b, a))
  }

  lemma CommitBets(b: Books, locks: set<Resource>, ctx: Context, job: Job, i: BetId)
    requires Valid(b) && JobOk(b, locks, ctx, job) && Write(b, job, ctx).Ok?
    requires i < |b.bets| && BetLock(i) !in locks
    ensures |Write(b, job, ctx).value.bets| >= |b.bets|
    ensures Write(b, job, ctx).value.bets[i] == b.bets[i]
  {
    match job.op
    case DoResolve(_, _, vs) => BatchBetsAt(b.bets, vs, Settle);
    case DoReverse(_, vs) => BatchBetsAt(b.bets, vs, Reverse);
    case _ =>
  }

  lemma CommitAccounts(b: Books, ctx: Context, locks: set<Resource>, job: Job, a: Account)
    requires Valid(b) && JobOk(b, locks, ctx, job) && Write(b, job, ctx).Ok?
    requires a !in Touched(job)
    ensures Balance(Write(b, job, ctx).value, a) == Balance(b, a)
  {
    match job.op
    case DoSell(_, u, _) => PostAllFrame(b, job.legs, Context(Some(u), ctx.now), a);
    case DoResolve(_, _, _) => PostAllFrame(b, job.legs, ctx, a);
    case DoReverse(_, _) => PostAllFrame(b, job.legs, ctx, a);
    case _ =>
  }

  lemma CommitWritesOnlyLocked(b: Books, locks: set<Resource>, ctx: Context, job: Job)
    requires Valid(b) && JobOk(b, locks, ctx, job) && Funds(b, job.op).Ok? && Write(b, job, ctx).Ok?
    requires forall a | a in Touched(job) :: AccountLock(a) in locks
    ensures WritesOnlyLocked(locks, b, Write(b, job, ctx).value)
    ensures Write(b, job, ctx).value == Next(b, Event(job.op, ctx))
  {
    var after := Write(b, job, ctx).value;
    WriteIsStep(b, locks, ctx, job);
    StepKeepsValid(b, Event(job.op, ctx));
    forall i | 0 <= i < |b.bets| && BetLock(i) !in locks ensures after.bets[i] == b.bets[i] {
      CommitBets(b, locks, ctx, job, i);
    }
    forall a | AccountLock(a) !in locks ensures Balance(after, a) == Balance(b, a) {
      CommitAccounts(b, ctx, locks, job, a);
    }
  }

  // ---------------------------------------------------------------------------
  // Nobody is disturbed by the commits of others.
  // ---------------------------------------------------------------------------

  lemma KeysStay(xs: seq<Transfer>, ys: seq<Transfer>, k: Key)
    requires xs <= ys && k in KeysOf(xs)
    ensures k in KeysOf(ys)
  {
    var t :| t in xs && t.key == Some(k);
    assert t in ys;
  }

  /** A settled bet that a reversal has read either stays as it was, or its reverse key has been used. */
  lemma ReversibleStays(b: Books, after: Books, vs: seq<Verdict>)
    requires Valid(b) && Valid(after) && Extends(b, after) && Reversible(b, vs)
    ensures Reversible(after, vs)
  {
    forall v | v in vs
      ensures after.bets[v.id].status == SideOf(v.won) || ReverseKey(v.id, MainLeg(v.won)) in KeysOf(after.transfers)
    {
      var settle, reverse := SettleKey(v.id, MainLeg(v.won)), ReverseKey(v.id, MainLeg(v.won));
      assert BetKeys(v.id, b.bets[v.id], KeysOf(b.transfers));
      assert BetKeys(v.id, after.bets[v.id], KeysOf(after.transfers));
      KeysStay(b.transfers, after.transfers, if reverse in KeysOf(b.transfers) then reverse else settle);
    }
  }

  lemma BatchStays(b: Books, after: Books, vs: seq<Verdict>, dir: Pass)
    requires Valid(b) && Valid(after) && Extends(b, after) && InRange(b.bets, vs)
    ensures BatchLegs(after.bets, vs, dir) == BatchLegs(b.bets, vs, dir)
    ensures Unpayable(after.bets, vs) <==> Unpayable(b.bets, vs)
  {
    forall v | v in vs ensures SameBet(after.bets[v.id], b.bets[v.id]) {
      assert SameBet(b.bets[v.id], after.bets[v.id]);
    }
    BatchLegsFrame(b.bets, after.bets, vs, dir);
  }

  lemma JobStays(b: Books, after: Books, theirs: set<Resource>, locks: set<Resource>, ctx: Context, job: Job)
    requires Valid(b) && WritesOnlyLocked(theirs, b, after) && locks !! theirs
    requires JobOk(b, locks, ctx, job)
    ensures JobOk(after, locks, ctx, job)
  {
    match job.op
    case DoSell(id, _, _) => assert BetLock(id) !in theirs;
    case DoResolve(m, w, vs) =>
      BatchStays(b, after, vs, Settle);
      forall v | v in vs ensures after.bets[v.id] == b.bets[v.id] {
        assert BetLock(v.id) !in theirs;
      }
    case DoReverse(m, vs) =>
      BatchStays(b, after, vs, Reverse);
      ReversibleStays(b, after, vs);
      forall v | v in vs ensures SameBet(b.bets[v.id], after.bets[v.id]) {
      }
    case _ =>
  }

  lemma RowsStay(b: Books, after: Books, theirs: set<Resource>, locks: set<Resource>, req: Request,
                 ids: seq<BetId>, held: seq<Verdict>)
    requires Valid(b) && WritesOnlyLocked(theirs, b, after) && locks !! theirs
    requires RowsOk(b, locks, req, ids, held)
    ensures RowsOk(after, locks, req, ids, held)
  {
    match req
    case Plain(_) =>
    case SellRequest(id, _, _) => assert SameBet(b.bets[id], after.bets[id]);
    case ResolveRequest(m, w) =>
      forall v | v in held ensures after.bets[v.id] == b.bets[v.id] {
        assert BetLock(v.id) !in theirs;
      }
      forall k | 0 <= k < |ids| ensures after.bets[ids[k]].market == m {
        assert SameBet(b.bets[ids[k]], after.bets[ids[k]]);
      }
    case ReverseRequest(m) =>
      BatchStays(b, after, held, Reverse);
      ReversibleStays(b, after, held);
      forall v | v in held ensures SameBet(b.bets[v.id], after.bets[v.id]) {
      }
  }

  lemma FundsStay(b: Books, after: Books, theirs: set<Resource>, op: Op)
    requires WritesOnlyLocked(theirs, b, after) && Funds(b, op).Ok?
    requires forall a | a in Touched(Job(op, [])) :: AccountLock(a) !in theirs
    ensures Funds(after, op).Ok?
  {
    match op
    case DoTransfer(from, _, _, _) => assert Balance(after, from) == Balance(b, from);
    case DoPlace(u, _, _, _, _) => assert Balance(after, Wallet(u)) == Balance(b, Wallet(u));
    case _ =>
  }

  lemma OthersUndisturbed(order: Order, b: Books, after: Books, theirs: set<Resource>, p: Proc)
    requires Valid(b) && WritesOnlyLocked(theirs, b, after) && p.locks !! theirs
    requires ProcOk(order, b, p)
    ensures ProcOk(order, after, p)
  {
    match p.pc
    case Rows(ids, held) => RowsStay(b, after, theirs, p.locks, p.req, ids, held);
    case Locks(_, job) => JobStays(b, after, theirs, p.locks, p.ctx, job);
    case Stamping(job, _) => ReadyStays(b, after, theirs, p.locks, p.ctx, job);
    case Checked(job, _) => ReadyStays(b, after, theirs, p.locks, p.ctx, job);
    case _ =>
  }

  lemma ReadyStays(b: Books, after: Books, theirs: set<Resource>, locks: set<Resource>, ctx: Context, job: Job)
    requires Valid(b) && WritesOnlyLocked(theirs, b, after) && locks !! theirs
    requires ReadyOk(b, locks, ctx, job)
    ensures ReadyOk(after, locks, ctx, job)
  {
    JobStays(b, after, theirs, locks, ctx, job);
    if job.op.DoTransfer? || job.op.DoPlace? {
      assert Touched(job) == Touched(Job(job.op, []));
      FundsStay(b, after, theirs, job.op);
    }
  }

  // ---------------------------------------------------------------------------
  // Each step of a process keeps the process where its program says.
  // ---------------------------------------------------------------------------

  lemma {:induction false} PendingAscend(bets: seq<Bet>, m: MarketId, w: OutcomeId)
    ensures Ascending(IdsOf(PendingVerdicts(bets, m, w)))
  {
    if bets != [] {
      var less := bets[..|bets| - 1];
      PendingAscend(less, m, w);
      var vs, was := PendingVerdicts(bets, m, w), PendingVerdicts(less, m, w);
      forall i, j | 0 <= i < j < |vs| ensures IdsOf(vs)[i] < IdsOf(vs)[j] {
        assert vs[i] == was[i] && vs[i] in was;
        if j < |was| {
          assert IdsOf(was)[i] < IdsOf(was)[j];
        }
      }
    }
  }

  lemma {:induction false} SettledAscend(bets: seq<Bet>, m: MarketId)
    ensures Ascending(IdsOf(SettledVerdicts(bets, m)))
  {
    if bets != [] {
      var less := bets[..|bets| - 1];
      SettledAscend(less, m);
      var vs, was := SettledVerdicts(bets, m), SettledVerdicts(less, m);
      forall i, j | 0 <= i < j < |vs| ensures IdsOf(vs)[i] < IdsOf(vs)[j] {
        assert vs[i] == was[i] && vs[i] in was;
        if j < |was| {
          assert IdsOf(was)[i] < IdsOf(was)[j];
        }
      }
    }
  }

  /** Entering the lock phase with nothing but bet rows locked. */
  lemma EntersOk(order: Order, b: Books, p: Proc)
    requires p.pc.Locks? && Enters(order, p.pc.job, p.pc)
    requires JobOk(b, p.locks, p.ctx, p.pc.job) && forall r | r in p.locks :: r.BetLock?
    ensures ProcOk(order, b, p)
  {
    forall a | a in Touched(p.pc.job) ensures AccountLock(a) in p.pc.todo {
    }
  }

  lemma StartsOk(order: Order, b: Books, p: Proc, pc: Pc)
    requires Valid(b) && Starts(order, b, p.req, p.ctx, pc)
    ensures ProcOk(order, b, p.(pc := pc, locks := {}))
  {
    var next := p.(pc := pc, locks := {});
    if pc.Locks? {
      EntersOk(order, b, next);
    } else if p.req.ResolveRequest? {
      PendingAscend(b.bets, p.req.market, p.req.winner);
      ResolveStarts(b, p.req.market, p.req.winner, pc.ids);
    } else if p.req.ReverseRequest? {
      SettledAscend(b.bets, p.req.market);
      ReverseStarts(b, p.req.market, pc.ids);
    }
  }

  lemma StartsFit(order: Order, b: Books, p: Proc, pc: Pc, markets: map<MarketId, MarketRow>)
    requires SoundBets(b.bets) && Starts(order, b, p.req, p.ctx, pc)
    ensures RowOk(markets, p.(pc := pc, locks := {}))
  {
  }

  lemma ResolveStarts(b: Books, m: MarketId, w: OutcomeId, ids: seq<BetId>)
    requires Valid(b) && ids == IdsOf(PendingVerdicts(b.bets, m, w)) && Ascending(ids)
    ensures RowsOk(b, {}, ResolveRequest(m, w), ids, [])
  {
    var vs := PendingVerdicts(b.bets, m, w);
    forall k | 0 <= k < |ids| ensures ids[k] < |b.bets| && b.bets[ids[k]].market == m {
      assert vs[k] in vs;
    }
  }

  lemma ReverseStarts(b: Books, m: MarketId, ids: seq<BetId>)
    requires Valid(b) && ids == IdsOf(SettledVerdicts(b.bets, m)) && Ascending(ids)
    ensures RowsOk(b, {}, ReverseRequest(m), ids, SettledVerdicts(b.bets, m))
  {
    var vs := SettledVerdicts(b.bets, m);
    forall k | 0 <= k < |ids| ensures ids[k] < |b.bets| {
      assert vs[k] in vs;
    }
    IdsCover(vs);
    forall v | v in vs ensures v.won ==> b.bets[v.id].price > 0 {
      assert SoundBet(b.bets[v.id]);
    }
  }

  lemma IdsCover(vs: seq<Verdict>)
    ensures forall v | v in vs :: v.id in IdsOf(vs)
  {
    forall v | v in vs ensures v.id in IdsOf(vs) {
      var k :| 0 <= k < |vs| && vs[k] == v;
      assert IdsOf(vs)[k] == v.id;
    }
  }

  lemma RowLockedOk(order: Order, b: Books, p: Proc)
    requires Valid(b) && p.pc.Rows? && p.pc.ids != [] && ProcOk(order, b, p)
    ensures var pc := RowLocked(b, p.req, p.pc.ids, p.pc.held);
      pc.Rows? ==> ProcOk(order, b, p.(pc := pc, locks := p.locks + {BetLock(p.pc.ids[0])}))
  {
    var ids, held, locks := p.pc.ids, p.pc.held, p.locks + {BetLock(p.pc.ids[0])};
    forall r, k | r in locks && 0 <= k < |ids[1..]| ensures r.BetLock? && r.id < ids[1..][k] {
      assert ids[1..][k] == ids[k + 1];
    }
    match p.req
    case ResolveRequest(m, w) =>
      if b.bets[ids[0]].status == Pending {
        HoldOne(b, p.locks, m, w, ids, held);
      }
    case ReverseRequest(m) =>
      assert ids == [ids[0]] + ids[1..];
    case _ =>
  }

  lemma HoldOne(b: Books, locks: set<Resource>, m: MarketId, w: OutcomeId, ids: seq<BetId>, held: seq<Verdict>)
    requires ids != [] && RowsOk(b, locks, ResolveRequest(m, w), ids, held)
    requires b.bets[ids[0]].status == Pending
    ensures Enabled(b, DoResolve(m, w, held + [Verdict(ids[0], b.bets[ids[0]].outcome == w)]))
  {
    var more := held + [Verdict(ids[0], b.bets[ids[0]].outcome == w)];
    forall i, j | 0 <= i < j < |more| ensures more[i].id != more[j].id {
      if j == |held| {
        assert held[i] in held && BetLock(held[i].id) in locks;
      }
    }
  }

  lemma PlansOk(order: Order, b: Books, p: Proc, pc: Pc)
    requires Valid(b) && p.pc.Rows? && p.pc.ids == [] && ProcOk(order, b, p)
    requires Plans(order, b, p.req, p.ctx, p.pc.held, pc)
    ensures pc.Finished? || ProcOk(order, b, p.(pc := pc))
  {
    if pc.Locks? {
      EntersOk(order, b, p.(pc := pc));
    }
  }

  // ---------------------------------------------------------------------------
  // The system invariant.
  // ---------------------------------------------------------------------------

  lemma ReplacedKeepsSys(order: Order, s: Sys, p: nat, pc: Pc, locks: set<Resource>)
    requires SysOk(order, s) && p < |s.procs|
    requires pc.Finished? || ProcOk(order, s.books, s.procs[p].(pc := pc, locks := locks))
    requires pc.Finished? || RowOk(s.markets, s.procs[p].(pc := pc, locks := locks))
    requires pc.Finished? || forall q | 0 <= q < |s.procs| && q != p :: s.procs[q].locks !! locks
    ensures SysOk(order, Replaced(s, p, pc, locks))
  {
    var t := Replaced(s, p, pc, locks);
    forall q | 0 <= q < |t.procs| ensures ProcOk(order, t.books, t.procs[q]) && RowOk(t.markets, t.procs[q]) {
      assert q != p ==> t.procs[q] == s.procs[q];
    }
    forall q, r | 0 <= q < r < |t.procs| ensures t.procs[q].locks !! t.procs[r].locks {
      assert s.procs[q].locks !! s.procs[r].locks;
    }
  }

  lemma TakingFreeLock(s: Sys, p: nat, r: Resource)
    requires p < |s.procs| && Exclusive(s.procs) && Free(s, p, r)
    ensures forall q | 0 <= q < |s.procs| && q != p :: s.procs[q].locks !! (s.procs[p].locks + {r})
  {
    forall q | 0 <= q < |s.procs| && q != p ensures s.procs[q].locks !! (s.procs[p].locks + {r}) {
      assert s.procs[q].locks !! s.procs[p].locks;
    }
  }

  lemma CommitKeepsProcs(order: Order, s: Sys, p: nat, t: Sys, job: Job, after: Books)
    requires SysOk(order, s) && p < |s.procs| && WritesOnlyLocked(s.procs[p].locks, s.books, after)
    requires t == Committed(s, p, job, after)
    ensures Exclusive(t.procs)
    ensures forall q | 0 <= q < |t.procs| :: ProcOk(order, after, t.procs[q]) && RowOk(t.markets, t.procs[q])
  {
    forall q | 0 <= q < |t.procs| ensures ProcOk(order, after, t.procs[q]) && RowOk(t.markets, t.procs[q]) {
      if q != p {
        assert s.procs[q].locks !! s.procs[p].locks;
        OthersUndisturbed(order, s.books, after, s.procs[p].locks, s.procs[q]);
        assert RowOk(s.markets, s.procs[q]) && t.markets.Keys == s.markets.Keys;
      }
    }
  }

  lemma CommitIsRun(s: Sys, t: Sys, e: Event)
    requires IsRun(s.states, s.log) && s.books == s.states[|s.log|]
    requires Enabled(s.books, e.op) && t.books == Next(s.books, e)
    requires t.states == s.states + [t.books] && t.log == s.log + [e]
    ensures IsRun(t.states, t.log) && t.books == t.states[|t.log|]
  {
    forall k | 0 <= k < |t.log|
      ensures Enabled(t.states[k], t.log[k].op) && t.states[k + 1] == Next(t.states[k], t.log[k])
    {
      if k < |s.log| {
        assert s.states[k + 1] == Next(s.states[k], s.log[k]);
      }
    }
  }

  lemma CommitKeepsSys(order: Order, s: Sys, p: nat)
    requires SysOk(order, s) && p < |s.procs| && s.procs[p].pc.Checked?
    requires Write(s.books, s.procs[p].pc.ready, s.procs[p].ctx).Ok?
    ensures var job := s.procs[p].pc.ready;
      SysOk(order, Committed(s, p, job, Write(s.books, job, s.procs[p].ctx).value))
  {
    var me, job := s.procs[p], s.procs[p].pc.ready;
    var after := Write(s.books, job, me.ctx).value;
    CommitWritesOnlyLocked(s.books, me.locks, me.ctx, job);
    CommitKeepsProcs(order, s, p, Committed(s, p, job, after), job, after);
    CommitIsRun(s, Committed(s, p, job, after), Event(job.op, me.ctx));
  }

  /** Every step of every process, in any interleaving, keeps locks exclusive and the books equal to the
      serial run of the commits so far: all that is proved of serial runs holds of interleaved ones. */
  lemma StepKeepsSys(order: Order, s: Sys, p: nat, t: Sys)
    requires SysOk(order, s) && p < |s.procs|
    requires Advances(order, s, p, t) || Crashes(s, p, t)
    ensures SysOk(order, t)
  {
    var me := s.procs[p];
    if Crashes(s, p, t) {
      ReplacedKeepsSys(order, s, p, Finished(Err(Crashed)), {});
    } else {
      match me.pc
      case Begin =>
        var pc :| Starts(order, s.books, me.req, me.ctx, pc) && t == Replaced(s, p, pc, {});
        StartsOk(order, s.books, me, pc);
        StartsFit(order, s.books, me, pc, s.markets);
        ReplacedKeepsSys(order, s, p, pc, {});
      case Rows(ids, held) => RowsStep(order, s, p, t);
      case Locks(todo, job) => LocksStep(order, s, p, t);
      case Stamping(job, seen) => StampStep(order, s, p, t);
      case Checked(job, _) =>
        if Write(s.books, job, me.ctx).Ok? {
          CommitKeepsSys(order, s, p);
        } else {
          ReplacedKeepsSys(order, s, p, Finished(Err(Write(s.books, job, me.ctx).error)), {});
        }
    }
  }

  lemma RowsStep(order: Order, s: Sys, p: nat, t: Sys)
    requires SysOk(order, s) && p < |s.procs| && s.procs[p].pc.Rows? && Advances(order, s, p, t)
    ensures SysOk(order, t)
  {
    var me := s.procs[p];
    if me.pc.ids == [] {
      var pc :| Plans(order, s.books, me.req, me.ctx, me.pc.held, pc) && t == Replaced(s, p, pc, me.locks);
      PlanStep(order, s, p, pc);
    } else {
      RowStep(order, s, p);
    }
  }

  lemma PlanStep(order: Order, s: Sys, p: nat, pc: Pc)
    requires SysOk(order, s) && p < |s.procs| && s.procs[p].pc.Rows? && s.procs[p].pc.ids == []
    requires Plans(order, s.books, s.procs[p].req, s.procs[p].ctx, s.procs[p].pc.held, pc)
    ensures SysOk(order, Replaced(s, p, pc, s.procs[p].locks))
  {
    var me := s.procs[p];
    PlansOk(order, s.books, me, pc);
    assert pc.Finished? || (pc.Locks? && Answers(pc.job.op, me.req));
    assert me.(pc := pc) == me.(pc := pc, locks := me.locks);
    ReplacedKeepsSys(order, s, p, pc, me.locks);
  }

  lemma RowStep(order: Order, s: Sys, p: nat)
    requires SysOk(order, s) && p < |s.procs| && s.procs[p].pc.Rows? && s.procs[p].pc.ids != []
    requires Free(s, p, BetLock(s.procs[p].pc.ids[0]))
    ensures var me := s.procs[p];
      var locked := RowLocked(s.books, me.req, me.pc.ids, me.pc.held);
      SysOk(order, Replaced(s, p, locked, me.locks + {BetLock(me.pc.ids[0])}))
  {
    var me := s.procs[p];
    RowLockedOk(order, s.books, me);
    TakingFreeLock(s, p, BetLock(me.pc.ids[0]));
    ReplacedKeepsSys(order, s, p, RowLocked(s.books, me.req, me.pc.ids, me.pc.held),
                     me.locks + {BetLock(me.pc.ids[0])});
  }

  lemma LocksStep(order: Order, s: Sys, p: nat, t: Sys)
    requires SysOk(order, s) && p < |s.procs| && s.procs[p].pc.Locks? && Advances(order, s, p, t)
    ensures SysOk(order, t)
  {
    var me := s.procs[p];
    var todo, job := me.pc.todo, me.pc.job;
    assert RowOk(s.markets, me);
    if todo == [] {
      ReplacedKeepsSys(order, s, p, RowsHeld(s, job), me.locks);
    } else {
      var locks := me.locks + {todo[0]};
      LockTakenOk(order, s.books, me);
      TakingFreeLock(s, p, todo[0]);
      ReplacedKeepsSys(order, s, p, Locks(todo[1..], job), locks);
    }
  }

  lemma StampStep(order: Order, s: Sys, p: nat, t: Sys)
    requires SysOk(order, s) && p < |s.procs| && s.procs[p].pc.Stamping? && Advances(order, s, p, t)
    ensures SysOk(order, t)
  {
    var me := s.procs[p];
    var lock := MarketLock(RowOf(me.pc.draft.op).value);
    assert RowOk(s.markets, me);
    MoreLocks(s.books, me.locks, lock, me.ctx, me.pc.draft);
    TakingFreeLock(s, p, lock);
    ReplacedKeepsSys(order, s, p, Checked(me.pc.draft, Some(me.pc.seen)), me.locks + {lock});
  }

  lemma MoreLocks(b: Books, locks: set<Resource>, lock: Resource, ctx: Context, job: Job)
    requires ReadyOk(b, locks, ctx, job)
    ensures ReadyOk(b, locks + {lock}, ctx, job)
  {
  }

  lemma LockTakenOk(order: Order, b: Books, p: Proc)
    requires p.pc.Locks? && p.pc.todo != [] && ProcOk(order, b, p)
    ensures ProcOk(order, b, p.(pc := Locks(p.pc.todo[1..], p.pc.job), locks := p.locks + {p.pc.todo[0]}))
  {
    var todo, locks := p.pc.todo, p.locks + {p.pc.todo[0]};
    assert todo == [todo[0]] + todo[1..] && todo[0] in todo;
    forall x, r | x in locks && r in todo[1..] ensures Before(order, x, r) {
      var k :| 0 <= k < |todo[1..]| && todo[1..][k] == r;
      assert todo[k + 1] == r;
    }
  }
}
