/** The winner stored on a market row when resolutions race: the row is read without a lock. */
module StoredWinners {
  import opened Domain
  import opened Runs
  import opened Database
  import opened Concurrency
  import opened Interleavings

  /** A step that replaces the winner of a RESOLVED market. */
  predicate Overwrites(s: Sys, t: Sys, m: MarketId) {
    && m in s.markets && m in t.markets
    && s.markets[m].view.status == MarketResolved && t.markets[m].winner != s.markets[m].winner
  }

  /** The process commits a resolution of `m` that read the row before it was RESOLVED, and its winner is
      neither the one it read nor the one stored now. */
  ghost predicate CommitsStale(s: Sys, p: Proc, m: MarketId)
  {
    && p.pc.Checked? && p.pc.ready.op.DoResolve? && p.pc.ready.op.resolved == m && p.pc.stamp.Some?
    && p.pc.stamp.value.winner != Some(p.pc.ready.op.winner)
    && m in s.markets && s.markets[m].winner != Some(p.pc.ready.op.winner)
  }

  /** What a commit does to the row of `m`. */
  lemma CommittedRow(order: Order, s: Sys, p: nat, t: Sys, m: MarketId)
    requires SysOk(order, s) && p < |s.procs| && (Advances(order, s, p, t) || Crashes(s, p, t))
    requires m in s.markets
    ensures m in t.markets
    ensures t.markets[m] ==
      if t.procs[p].pc == Finished(Ok(())) && s.procs[p].pc.stamp.Some? && RowOf(s.procs[p].pc.ready.op) == Some(m)
      then Restamp(s.markets[m], s.procs[p].pc.stamp.value, s.procs[p].pc.ready.op, s.procs[p].ctx.now)
      else s.markets[m]
  {
    FailureChangesNothing(order, s, p, t);
    if t.procs[p].pc == Finished(Ok(())) {
      SuccessIsCommit(order, s, p, t);
    }
  }

  /** The stored winner of a RESOLVED market changes exactly when a stale resolution commits. */
  lemma OverwriteIff(order: Order, s: Sys, p: nat, t: Sys, m: MarketId)
    requires SysOk(order, s) && p < |s.procs| && (Advances(order, s, p, t) || Crashes(s, p, t))
    requires m in s.markets && s.markets[m].view.status == MarketResolved
    ensures Overwrites(s, t, m) <==> t.procs[p].pc == Finished(Ok(())) && CommitsStale(s, s.procs[p], m)
  {
    CommittedRow(order, s, p, t, m);
    if t.procs[p].pc == Finished(Ok(())) {
      SuccessIsCommit(order, s, p, t);
      assert RowOk(s.markets, s.procs[p]);
    }
  }

  // ---------------------------------------------------------------------------
  // One winner asked for: the stored winner is stable.
  // ---------------------------------------------------------------------------

  predicate Asks(p: Proc, m: MarketId) {
    p.req.ResolveRequest? && p.req.market == m
  }

  predicate AskFor(procs: seq<Proc>, m: MarketId, w: OutcomeId) {
    forall p | 0 <= p < |procs| && Asks(procs[p], m) :: procs[p].req.winner == w
  }

  /** The row a process has read and may write over. */
  function SeenRow(pc: Pc): Option<MarketRow> {
    match pc
    case Stamping(_, seen) => Some(seen)
    case Checked(_, stamp) => stamp
    case _ => None
  }

  predicate HasSeen(pc: Pc, m: MarketId) {
    SeenRow(pc).Some? && JobOf(pc).Some? && RowOf(JobOf(pc).value.op) == Some(m)
  }

  /** Whoever saw winner `w` on the row of `m` still finds it there. */
  predicate SawTrue(row: MarketRow, p: Proc, m: MarketId, w: OutcomeId) {
    HasSeen(p.pc, m) && SeenRow(p.pc).value.winner == Some(w) ==> row.winner == Some(w)
  }

  predicate Agreed(s: Sys, m: MarketId, w: OutcomeId) {
    && AskFor(s.procs, m, w)
    && m in s.markets
    && (s.markets[m].view.status == MarketResolved ==> s.markets[m].winner == Some(w))
    && forall p | 0 <= p < |s.procs| :: SawTrue(s.markets[m], s.procs[p], m, w)
  }

  lemma RequestsStay(order: Order, s: Sys, p: nat, t: Sys, m: MarketId, w: OutcomeId)
    requires SysOk(order, s) && p < |s.procs| && (Advances(order, s, p, t) || Crashes(s, p, t))
    requires AskFor(s.procs, m, w)
    ensures AskFor(t.procs, m, w)
  {
    FailureChangesNothing(order, s, p, t);
    SameRequest(order, s, p, t);
  }

  lemma SameRequest(order: Order, s: Sys, p: nat, t: Sys)
    requires SysOk(order, s) && p < |s.procs| && (Advances(order, s, p, t) || Crashes(s, p, t))
    ensures |t.procs| == |s.procs| && t.procs[p].req == s.procs[p].req
  {
  }

  lemma EarlyUnseen(order: Order, s: Sys, p: nat, t: Sys)
    requires SysOk(order, s) && p < |s.procs| && Phase(s.procs[p].pc) < 2 && Advances(order, s, p, t)
    ensures SeenRow(t.procs[p].pc).None?
  {
  }

  /** The row is seen as it is, or was seen earlier. */
  lemma FreshlySeen(order: Order, s: Sys, p: nat, t: Sys, m: MarketId)
    requires SysOk(order, s) && p < |s.procs| && (Advances(order, s, p, t) || Crashes(s, p, t))
    requires HasSeen(t.procs[p].pc, m)
    ensures m in s.markets && JobOf(s.procs[p].pc).Some? && RowOf(JobOf(s.procs[p].pc).value.op) == Some(m)
    ensures SeenRow(t.procs[p].pc) == SeenRow(s.procs[p].pc) || SeenRow(t.procs[p].pc) == Some(s.markets[m])
  {
    assert RowOk(s.markets, s.procs[p]);
    if Phase(s.procs[p].pc) < 2 && Advances(order, s, p, t) {
      EarlyUnseen(order, s, p, t);
    }
  }

  lemma AgreedRow(order: Order, s: Sys, p: nat, t: Sys, m: MarketId, w: OutcomeId)
    requires SysOk(order, s) && p < |s.procs| && (Advances(order, s, p, t) || Crashes(s, p, t))
    requires Agreed(s, m, w)
    ensures m in t.markets && (t.markets[m].view.status == MarketResolved ==> t.markets[m].winner == Some(w))
    ensures s.markets[m].winner == Some(w) ==> t.markets[m].winner == Some(w)
  {
    CommittedRow(order, s, p, t, m);
    if t.procs[p].pc == Finished(Ok(())) {
      SuccessIsCommit(order, s, p, t);
      assert RowOk(s.markets, s.procs[p]);
      assert SawTrue(s.markets[m], s.procs[p], m, w);
    }
  }

  lemma AgreedStep(order: Order, s: Sys, p: nat, t: Sys, m: MarketId, w: OutcomeId)
    requires SysOk(order, s) && p < |s.procs| && (Advances(order, s, p, t) || Crashes(s, p, t))
    requires Agreed(s, m, w)
    ensures Agreed(t, m, w) && !Overwrites(s, t, m)
  {
    RequestsStay(order, s, p, t, m, w);
    AgreedRow(order, s, p, t, m, w);
    FailureChangesNothing(order, s, p, t);
    forall q | 0 <= q < |t.procs| ensures SawTrue(t.markets[m], t.procs[q], m, w) {
      if q != p {
        assert SawTrue(s.markets[m], s.procs[q], m, w);
      } else if HasSeen(t.procs[p].pc, m) {
        FreshlySeen(order, s, p, t, m);
        assert SawTrue(s.markets[m], s.procs[p], m, w);
      }
    }
  }

  lemma {:induction false} AgreedAlong(order: Order, trace: seq<Sys>, k: nat, m: MarketId, w: OutcomeId)
    requires IsExecution(order, trace) && k < |trace| && Agreed(trace[0], m, w)
    ensures SysOk(order, trace[k]) && Agreed(trace[k], m, w)
    ensures k > 0 ==> !Overwrites(trace[k - 1], trace[k], m)
  {
    ExecutionIsSerial(order, trace, k);
    if k > 0 {
      AgreedAlong(order, trace, k - 1, m, w);
      var p: nat :| p < |trace[k - 1].procs|
        && (Advances(order, trace[k - 1], p, trace[k]) || Crashes(trace[k - 1], p, trace[k]));
      AgreedStep(order, trace[k - 1], p, trace[k], m, w);
    }
  }

  // ---------------------------------------------------------------------------
  // Two winners asked for: some interleaving overwrites.
  // ---------------------------------------------------------------------------

  lemma JoinPaths(order: Order, xs: seq<Sys>, ys: seq<Sys>)
    requires IsPath(order, xs) && IsPath(order, ys) && xs[|xs| - 1] == ys[0]
    ensures IsPath(order, xs + ys[1..]) && (xs + ys[1..])[0] == xs[0]
    ensures (xs + ys[1..])[|xs + ys[1..]| - 1] == ys[|ys| - 1]
  {
    var all := xs + ys[1..];
    forall k | 0 <= k < |all| - 1 ensures Moves(order, all[k], all[k + 1]) {
      if k < |xs| - 1 {
        assert all[k] == xs[k] && all[k + 1] == xs[k + 1];
      } else {
        assert all[k] == ys[k - (|xs| - 1)] && all[k + 1] == ys[k - (|xs| - 1) + 1];
      }
    }
  }

  lemma StepMoves(order: Order, s: Sys, p: nat, t: Sys)
    requires SysOk(order, s) && p < |s.procs| && Advances(order, s, p, t)
    ensures SysOk(order, t) && Moves(order, s, t)
  {
    StepKeepsSys(order, s, p, t);
  }

  ghost predicate Leads(order: Order, path: seq<Sys>, s: Sys, t: Sys) {
    IsPath(order, path) && path[0] == s && path[|path| - 1] == t && SysOk(order, t)
  }

  lemma StepLeads(order: Order, s: Sys, p: nat, t: Sys)
    requires SysOk(order, s) && p < |s.procs| && Advances(order, s, p, t)
    ensures Leads(order, [s, t], s, t)
  {
    StepMoves(order, s, p, t);
  }

  lemma LeadsOn(order: Order, xs: seq<Sys>, ys: seq<Sys>, s: Sys, t: Sys, u: Sys)
    requires Leads(order, xs, s, t) && Leads(order, ys, t, u)
    ensures Leads(order, xs + ys[1..], s, u)
  {
    JoinPaths(order, xs, ys);
  }

  function BetlessJob(m: MarketId, w: OutcomeId): Job {
    Job(DoResolve(m, w, []), [])
  }

  lemma BetlessRows(order: Order, s: Sys, p: nat, m: MarketId, w: OutcomeId)
    requires SysOk(order, s) && s.books == Seeded() && p < |s.procs|
    requires s.procs[p].pc == Begin && s.procs[p].req == ResolveRequest(m, w)
    ensures Advances(order, s, p, Replaced(s, p, Rows([], []), {}))
  {
    assert IdsOf([]) == [];
    assert Starts(order, s.books, s.procs[p].req, s.procs[p].ctx, Rows([], []));
  }

  lemma BetlessLocks(order: Order, s: Sys, p: nat, m: MarketId, w: OutcomeId)
    requires SysOk(order, s) && s.books == Seeded() && p < |s.procs| && s.procs[p].locks == {}
    requires s.procs[p].pc == Rows([], []) && s.procs[p].req == ResolveRequest(m, w)
    ensures Advances(order, s, p, Replaced(s, p, Locks([], BetlessJob(m, w)), {}))
  {
    assert Sorts(order, Touched(BetlessJob(m, w)), []);
    assert Plans(order, s.books, s.procs[p].req, s.procs[p].ctx, [], Locks([], BetlessJob(m, w)));
  }

  lemma BetlessRead(order: Order, s: Sys, p: nat, m: MarketId, w: OutcomeId)
    requires SysOk(order, s) && p < |s.procs| && s.procs[p].locks == {}
    requires s.procs[p].pc == Locks([], BetlessJob(m, w)) && m in s.markets && Unsettled(s.markets[m])
    ensures Advances(order, s, p, Replaced(s, p, Stamping(BetlessJob(m, w), s.markets[m]), {}))
  {
    assert RowsHeld(s, BetlessJob(m, w)) == Stamping(BetlessJob(m, w), s.markets[m]);
  }

  predicate Unsettled(row: MarketRow) {
    row.view.status != MarketResolved && row.view.status != MarketVoided
  }

  /** A resolution that finds no bets, up to its lock phase. */
  lemma ReachesLocks(order: Order, s: Sys, p: nat, m: MarketId, w: OutcomeId) returns (path: seq<Sys>)
    requires SysOk(order, s) && s.books == Seeded() && p < |s.procs| && s.procs[p].locks == {}
    requires s.procs[p].pc == Begin && s.procs[p].req == ResolveRequest(m, w)
    ensures Leads(order, path, s, Replaced(s, p, Locks([], BetlessJob(m, w)), {}))
  {
    var rows := Replaced(s, p, Rows([], []), {});
    BetlessRows(order, s, p, m, w);
    StepLeads(order, s, p, rows);
    var locks := Replaced(rows, p, Locks([], BetlessJob(m, w)), {});
    BetlessLocks(order, rows, p, m, w);
    StepLeads(order, rows, p, locks);
    LeadsOn(order, [s, rows], [rows, locks], s, rows, locks);
    path := [s, rows] + [rows, locks][1..];
    assert locks == Replaced(s, p, Locks([], BetlessJob(m, w)), {});
  }

  /** Up to having read the market row. */
  lemma ReadsRow(order: Order, s: Sys, p: nat, m: MarketId, w: OutcomeId) returns (path: seq<Sys>)
    requires SysOk(order, s) && s.books == Seeded() && p < |s.procs| && s.procs[p].locks == {}
    requires s.procs[p].pc == Begin && s.procs[p].req == ResolveRequest(m, w)
    requires m in s.markets && Unsettled(s.markets[m])
    ensures Leads(order, path, s, Replaced(s, p, Stamping(BetlessJob(m, w), s.markets[m]), {}))
  {
    var begun := ReachesLocks(order, s, p, m, w);
    var locks := Replaced(s, p, Locks([], BetlessJob(m, w)), {});
    var read := Replaced(locks, p, Stamping(BetlessJob(m, w), s.markets[m]), {});
    BetlessRead(order, locks, p, m, w);
    StepLeads(order, locks, p, read);
    LeadsOn(order, begun, [locks, read], s, locks, read);
    path := begun + [locks, read][1..];
    assert read == Replaced(s, p, Stamping(BetlessJob(m, w), s.markets[m]), {});
  }

  /** From there to its commit, if nobody holds the row. */
  lemma WritesRow(order: Order, s: Sys, p: nat, m: MarketId, w: OutcomeId, seen: MarketRow) returns (path: seq<Sys>)
    requires SysOk(order, s) && s.books == Seeded() && p < |s.procs| && NoLocks(s)
    requires s.procs[p].pc == Stamping(BetlessJob(m, w), seen) && m in s.markets
    ensures IsPath(order, path) && |path| == 3 && path[0] == s && SysOk(order, path[2])
    ensures path[2].books == Seeded() && NoLocks(path[2])
    ensures |path[2].procs| == |s.procs| && forall q | 0 <= q < |s.procs| && q != p :: path[2].procs[q] == s.procs[q]
    ensures path[1].markets == s.markets
    ensures path[2].markets == s.markets[m := Restamp(s.markets[m], seen, DoResolve(m, w, []), s.procs[p].ctx.now)]
  {
    var job := BetlessJob(m, w);
    var held := Replaced(s, p, Checked(job, Some(seen)), {MarketLock(m)});
    assert s.procs[p].locks + {MarketLock(m)} == {MarketLock(m)};
    StepLeads(order, s, p, held);
    assert Write(held.books, job, held.procs[p].ctx) == Ok(Seeded());
    var done := Committed(held, p, job, Seeded());
    StepLeads(order, held, p, done);
    LeadsOn(order, [s, held], [held, done], s, held, done);
    path := [s, held] + [held, done][1..];
    assert path == [s, held, done];
  }

  predicate NoLocks(s: Sys) {
    forall q | 0 <= q < |s.procs| :: s.procs[q].locks == {}
  }

  /** Process `p` has read `row` for its resolution on `w`. */
  predicate HasRead(s: Sys, p: nat, m: MarketId, w: OutcomeId, row: MarketRow) {
    p < |s.procs| && s.procs[p].pc == Stamping(BetlessJob(m, w), row)
  }

  lemma BothRead(order: Order, s: Sys, m: MarketId, first: nat, second: nat, w1: OutcomeId, w2: OutcomeId)
      returns (path: seq<Sys>)
    requires IsInitial(s) && m in s.markets && Unsettled(s.markets[m])
    requires first < |s.procs| && second < |s.procs| && first != second
    requires s.procs[first].req == ResolveRequest(m, w1) && s.procs[second].req == ResolveRequest(m, w2)
    ensures IsPath(order, path) && path[0] == s
    ensures var end := path[|path| - 1];
      && SysOk(order, end) && end.books == Seeded() && end.markets == s.markets && NoLocks(end)
      && HasRead(end, first, m, w1, s.markets[m]) && HasRead(end, second, m, w2, s.markets[m])
  {
    InitialOk(order, s);
    var a := ReadsRow(order, s, first, m, w1);
    var mid := a[|a| - 1];
    var b := ReadsRow(order, mid, second, m, w2);
    JoinPaths(order, a, b);
    path := a + b[1..];
  }

  lemma BothWrite(order: Order, s: Sys, m: MarketId, first: nat, second: nat, w1: OutcomeId, w2: OutcomeId,
                  row: MarketRow)
      returns (path: seq<Sys>)
    requires SysOk(order, s) && s.books == Seeded() && NoLocks(s) && m in s.markets && s.markets[m] == row
    requires first != second && HasRead(s, first, m, w1, row) && HasRead(s, second, m, w2, row)
    requires w1 != w2 && row.winner != Some(w2)
    ensures IsPath(order, path) && |path| == 5 && path[0] == s && Overwrites(path[3], path[4], m)
  {
    var c := WritesRow(order, s, first, m, w1, row);
    var d := WritesRow(order, c[2], second, m, w2, row);
    JoinPaths(order, c, d);
    path := c + d[1..];
  }

  /** Both read, then both write: the second replaces the first one's winner. */
  lemma RaceOverwrites(order: Order, s0: Sys, m: MarketId, first: nat, second: nat) returns (trace: seq<Sys>)
    requires IsInitial(s0) && m in s0.markets && Unsettled(s0.markets[m])
    requires first < |s0.procs| && second < |s0.procs| && first != second
    requires Asks(s0.procs[first], m) && Asks(s0.procs[second], m)
    requires s0.procs[first].req.winner != s0.procs[second].req.winner
    requires s0.markets[m].winner != Some(s0.procs[second].req.winner)
    ensures IsExecution(order, trace) && trace[0] == s0
    ensures |trace| > 1 && Overwrites(trace[|trace| - 2], trace[|trace| - 1], m)
  {
    var w1, w2, row := s0.procs[first].req.winner, s0.procs[second].req.winner, s0.markets[m];
    var a := BothRead(order, s0, m, first, second, w1, w2);
    var b := BothWrite(order, a[|a| - 1], m, first, second, w1, w2, row);
    JoinPaths(order, a, b);
    trace := a + b[1..];
    assert trace[|trace| - 2] == b[3] && trace[|trace| - 1] == b[4];
  }

  lemma InitialOk(order: Order, s: Sys)
    requires IsInitial(s)
    ensures SysOk(order, s)
  {
    ExecutionIsSerial(order, [s], 0);
  }

  // ---------------------------------------------------------------------------
  // The exact condition.
  // ---------------------------------------------------------------------------

  ghost predicate WinnerIsStable(order: Order, s0: Sys, m: MarketId) {
    forall trace: seq<Sys>, k: nat | IsExecution(order, trace) && trace[0] == s0 && k + 1 < |trace| ::
      !Overwrites(trace[k], trace[k + 1], m)
  }

  predicate OneWinnerAsked(procs: seq<Proc>, m: MarketId) {
    forall p, q | 0 <= p < |procs| && 0 <= q < |procs| && Asks(procs[p], m) && Asks(procs[q], m) ::
      procs[p].req.winner == procs[q].req.winner
  }

  /** In every interleaving of the calls an unresolved market keeps the first winner stored on it, once it is
      RESOLVED, exactly when all resolutions among the calls name the same winner. */
  lemma WinnerIsStableIff(order: Order, s0: Sys, m: MarketId)
    requires IsInitial(s0) && m in s0.markets
    requires Unsettled(s0.markets[m])
    ensures WinnerIsStable(order, s0, m) <==> OneWinnerAsked(s0.procs, m)
  {
    if OneWinnerAsked(s0.procs, m) {
      OneWinnerIsStable(order, s0, m);
    } else {
      var p, q :| 0 <= p < |s0.procs| && 0 <= q < |s0.procs| && Asks(s0.procs[p], m) && Asks(s0.procs[q], m)
        && s0.procs[p].req.winner != s0.procs[q].req.winner;
      var last := if s0.markets[m].winner == Some(s0.procs[q].req.winner) then p else q;
      var trace := RaceOverwrites(order, s0, m, p + q - last, last);
      var k: nat := |trace| - 2;
      assert Overwrites(trace[k], trace[k + 1], m);
    }
  }

  lemma OneWinnerIsStable(order: Order, s0: Sys, m: MarketId)
    requires IsInitial(s0) && m in s0.markets && s0.markets[m].view.status != MarketResolved
    requires OneWinnerAsked(s0.procs, m)
    ensures WinnerIsStable(order, s0, m)
  {
    var w: OutcomeId := 0;
    if p :| 0 <= p < |s0.procs| && Asks(s0.procs[p], m) {
      w := s0.procs[p].req.winner;
    }
    assert Agreed(s0, m, w);
    forall trace: seq<Sys>, k: nat | IsExecution(order, trace) && trace[0] == s0 && k + 1 < |trace|
      ensures !Overwrites(trace[k], trace[k + 1], m)
    {
      AgreedAlong(order, trace, k + 1, m, w);
    }
  }

  /** Two resolutions of one market that both settle bets are never both between reading the row and writing
      it: an overwrite takes a resolution that found no bets. */
  lemma SettlersExclude(order: Order, s: Sys, p: nat, q: nat, m: MarketId)
    requires SysOk(order, s) && p < |s.procs| && q < |s.procs| && p != q
    ensures !(Settles(s.procs[p], m) && Settles(s.procs[q], m))
  {
    assert s.procs[p].locks !! s.procs[q].locks;
    if Settles(s.procs[p], m) {
      SettlerHoldsPool(order, s.books, s.procs[p], m);
    }
    if Settles(s.procs[q], m) {
      SettlerHoldsPool(order, s.books, s.procs[q], m);
    }
  }

  predicate Settles(p: Proc, m: MarketId) {
    && SeenRow(p.pc).Some? && JobOf(p.pc).Some?
    && var op := JobOf(p.pc).value.op;
       op.DoResolve? && op.resolved == m && op.held != []
  }

  lemma SettlerHoldsPool(order: Order, b: Books, p: Proc, m: MarketId)
    requires ProcOk(order, b, p) && Settles(p, m)
    ensures AccountLock(Liability(m)) in p.locks
  {
    var job := JobOf(p.pc).value;
    var v := job.op.held[0];
    assert v in job.op.held;
    assert job.legs[0].debit == Liability(m) && job.legs[0] in job.legs;
  }
}
