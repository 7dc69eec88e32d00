/** Repeated `resolve_event` calls with other work committing in between. */
module MixedCalls {
  import opened Domain
  import opened Posting
  import opened Lifecycle
  import opened Transactions
  import opened Invariant
  import opened Runs
  import opened Guarantees
  import opened Database
  import opened EventModel
  import opened EventGuards
  import opened EventService
  import opened EventCalls

  /** A call for the group, or any unit of work: the rows of other markets play no part. */
  datatype Act = Resolving(call: Call) | Working(event: Event)

  /** The unit of work changes no existing bet of the given markets. New ones may be placed. */
  predicate LeavesAlone(op: Op, bets: seq<Bet>, markets: set<MarketId>) {
    match op
    case DoSell(id, _, _) => id < |bets| ==> bets[id].market !in markets
    case DoResolve(m, _, _) => m !in markets
    case DoReverse(m, _) => m !in markets
    case _ => true
  }

  function Children(group: Group): set<MarketId> {
    set m | m in group.children
  }

  ghost predicate Allowed(db: Db, group: Group, a: Act) {
    a.Working? ==> Enabled(db.books, a.event.op) && LeavesAlone(a.event.op, db.books.bets, Children(group))
  }

  ghost function AfterAct(db: Db, group: Group, winning: OutcomeId, a: Act): (r: Db)
    requires Valid(db.books) && Listed(group, db.markets) && Allowed(db, group, a)
    ensures Valid(r.books) && Listed(group, r.markets)
  {
    match a
    case Resolving(c) => AfterCall(db, group, winning, c)
    case Working(e) =>
      StepKeepsValid(db.books, e);
      db.(books := Next(db.books, e))
  }

  ghost predicate AllAllowed(db: Db, group: Group, winning: OutcomeId, acts: seq<Act>)
    requires Valid(db.books) && Listed(group, db.markets)
    decreases |acts|
  {
    acts == [] ||
    (Allowed(db, group, acts[0]) && AllAllowed(AfterAct(db, group, winning, acts[0]), group, winning, acts[1..]))
  }

  ghost function AfterActs(db: Db, group: Group, winning: OutcomeId, acts: seq<Act>): (r: Db)
    requires Valid(db.books) && Listed(group, db.markets) && AllAllowed(db, group, winning, acts)
    ensures Valid(r.books) && Listed(group, r.markets)
    decreases |acts|
  {
    if acts == [] then db else AfterActs(AfterAct(db, group, winning, acts[0]), group, winning, acts[1..])
  }

  /** The children that an act takes through. */
  ghost function Through(db: Db, group: Group, winning: OutcomeId, a: Act): set<MarketId>
    requires Valid(db.books) && Listed(group, db.markets)
  {
    if a.Resolving? then SettledIn(db, group, winning, a.call) else {}
  }

  ghost function AllThrough(db: Db, group: Group, winning: OutcomeId, acts: seq<Act>): set<MarketId>
    requires Valid(db.books) && Listed(group, db.markets) && AllAllowed(db, group, winning, acts)
    decreases |acts|
  {
    if acts == [] then {}
    else
      Through(db, group, winning, acts[0])
      + AllThrough(AfterAct(db, group, winning, acts[0]), group, winning, acts[1..])
  }

  // ---------------------------------------------------------------------------
  // How far the group has got, whatever else has happened.
  // ---------------------------------------------------------------------------

  ghost predicate GroupBets(start: seq<Bet>, bets: seq<Bet>, assign: map<MarketId, OutcomeId>, done: set<MarketId>) {
    && |start| <= |bets|
    && forall i | 0 <= i < |start| && start[i].market in assign :: bets[i] == SettledBy(start[i], assign, done)
  }

  ghost predicate GroupProgress(start: Db, db: Db, assign: map<MarketId, OutcomeId>, done: set<MarketId>) {
    && Valid(start.books) && Valid(db.books) && Extends(start.books, db.books)
    && done <= assign.Keys
    && GroupBets(start.books.bets, db.books.bets, assign, done)
    && SameMarkets(start, db, assign, done)
    && forall m | m in done :: Settleable(start, m, assign[m])
  }

  lemma GroupBegins(start: Db, assign: map<MarketId, OutcomeId>)
    requires Valid(start.books)
    ensures GroupProgress(start, start, assign, {})
  {
  }

  /** Other work changes no bet of the group. */
  lemma WorkLeavesBets(b: Books, e: Event, markets: set<MarketId>)
    requires Valid(b) && Enabled(b, e.op) && LeavesAlone(e.op, b.bets, markets)
    ensures |b.bets| <= |Next(b, e).bets|
    ensures forall i | 0 <= i < |b.bets| && b.bets[i].market in markets :: Next(b, e).bets[i] == b.bets[i]
  {
    if Step(b, e).Ok? {
      match e.op
      case DoResolve(_, _, vs) => BatchBetsAt(b.bets, vs, Settle);
      case DoReverse(_, vs) => BatchBetsAt(b.bets, vs, Reverse);
      case _ =>
    }
  }

  lemma WorkKeepsGroupBets(start: seq<Bet>, b: Books, e: Event, assign: map<MarketId, OutcomeId>, done: set<MarketId>)
    requires Valid(b) && Enabled(b, e.op) && LeavesAlone(e.op, b.bets, assign.Keys)
    requires GroupBets(start, b.bets, assign, done)
    ensures GroupBets(start, Next(b, e).bets, assign, done)
  {
    WorkLeavesBets(b, e, assign.Keys);
  }

  lemma WorkProgress(start: Db, db: Db, assign: map<MarketId, OutcomeId>, done: set<MarketId>, e: Event)
    requires GroupProgress(start, db, assign, done)
    requires Enabled(db.books, e.op) && LeavesAlone(e.op, db.books.bets, assign.Keys)
    ensures GroupProgress(start, db.(books := Next(db.books, e)), assign, done)
  {
    StepKeepsValid(db.books, e);
    ExtendsTransitive(start.books, db.books, Next(db.books, e));
    WorkKeepsGroupBets(start.books.bets, db.books, e, assign, done);
    var after := db.(books := Next(db.books, e));
    assert SameMarkets(start, after, assign, done);
  }

  // ---------------------------------------------------------------------------
  // A call, seen from where it starts.
  // ---------------------------------------------------------------------------

  lemma AttemptExtends(db: Db, t: Attempt, reason: string, actor: Option<UserId>)
    requires Valid(db.books)
    ensures Extends(db.books, After(db, t, reason, actor).books)
  {
    if Succeeds(db, t, reason, actor) {
      PassKeepsValid(db.books, PendingVerdicts(db.books.bets, t.market, t.outcome), Settle, Context(actor, t.now));
    }
  }

  lemma {:induction false} SettleAllExtends(db: Db, tries: seq<Attempt>, reason: string, actor: Option<UserId>)
    requires Valid(db.books)
    ensures Extends(db.books, SettleAll(db, tries, reason, actor).books)
    decreases tries
  {
    if tries != [] {
      var next := After(db, tries[0], reason, actor);
      AttemptExtends(db, tries[0], reason, actor);
      SettleAllExtends(next, tries[1..], reason, actor);
      ExtendsTransitive(db.books, next.books, SettleAll(db, tries, reason, actor).books);
    }
  }

  lemma ComposedBets(start: seq<Bet>, mid: seq<Bet>, end: seq<Bet>, assign: map<MarketId, OutcomeId>,
                     done: set<MarketId>, more: set<MarketId>)
    requires GroupBets(start, mid, assign, done) && |end| == |mid|
    requires forall i | 0 <= i < |mid| :: end[i] == SettledBy(mid[i], assign, more)
    ensures GroupBets(start, end, assign, done + more)
  {
  }

  lemma ComposedRows(start: Db, mid: Db, end: Db, assign: map<MarketId, OutcomeId>,
                     done: set<MarketId>, more: set<MarketId>)
    requires SameMarkets(start, mid, assign, done) && SameMarkets(mid, end, assign, more)
    ensures SameMarkets(start, end, assign, done + more)
  {
    forall m | m in end.markets ensures SameRow(end.markets[m], MarkedBy(start.markets[m], m, assign, done + more)) {
      assert SameRow(mid.markets[m], MarkedBy(start.markets[m], m, assign, done));
      assert SameRow(end.markets[m], MarkedBy(mid.markets[m], m, assign, more));
    }
  }

  /** What could be settled later could have been settled at the start. */
  lemma SettleableBefore(start: Db, db: Db, assign: map<MarketId, OutcomeId>, done: set<MarketId>, m: MarketId)
    requires GroupProgress(start, db, assign, done) && m in assign && m !in done
    requires Settleable(db, m, assign[m])
    ensures Settleable(start, m, assign[m])
  {
    KeysGrow(start.books.transfers, db.books.transfers);
    assert SameRow(db.markets[m], MarkedBy(start.markets[m], m, assign, done));
    var bets := start.books.bets;
    forall i | 0 <= i < |bets| && bets[i].market == m && bets[i].status == Pending
      ensures SettleableBet(start.books, i, bets[i].outcome == assign[m])
    {
      assert db.books.bets[i] == bets[i];
      assert SettleableBet(db.books, i, bets[i].outcome == assign[m]);
    }
  }

  lemma ComposedProgress(start: Db, mid: Db, end: Db, assign: map<MarketId, OutcomeId>,
                         done: set<MarketId>, more: set<MarketId>)
    requires GroupProgress(start, mid, assign, done) && Progress(mid, end, assign, more)
    requires Extends(mid.books, end.books)
    ensures GroupProgress(start, end, assign, done + more)
  {
    ExtendsTransitive(start.books, mid.books, end.books);
    ComposedBets(start.books.bets, mid.books.bets, end.books.bets, assign, done, more);
    ComposedRows(start, mid, end, assign, done, more);
    forall m | m in done + more ensures Settleable(start, m, assign[m]) {
      if m !in done {
        SettleableBefore(start, mid, assign, done, m);
      }
    }
  }

  lemma CallExtends(db: Db, group: Group, winning: OutcomeId, c: Call)
    requires Valid(db.books) && Listed(group, db.markets)
    ensures Extends(db.books, AfterCall(db, group, winning, c).books)
  {
    var planned := ResolveTries(db.markets, Some(group), winning, c.reason, c.fate);
    if planned.Ok? {
      SettleAllExtends(db, planned.value, c.reason, c.actor);
    }
  }

  lemma OwnProgress(db: Db, group: Group, winning: OutcomeId, c: Call, assign: map<MarketId, OutcomeId>)
    requires Valid(db.books) && Listed(group, db.markets) && EventAssignment(db.markets, group, winning) == Some(assign)
    ensures Progress(db, AfterCall(db, group, winning, c), assign, SettledIn(db, group, winning, c))
  {
    var done := SettledIn(db, group, winning, c);
    assert {} + done == done;
    ProgressBegins(db, assign);
    CallProgress(db, db, group, winning, {}, c);
  }

  lemma AssignmentHere(start: Db, db: Db, group: Group, winning: OutcomeId, assign: map<MarketId, OutcomeId>,
                       done: set<MarketId>)
    requires Listed(group, start.markets) && EventAssignment(start.markets, group, winning) == Some(assign)
    requires SameMarkets(start, db, assign, done)
    ensures Listed(group, db.markets) && EventAssignment(db.markets, group, winning) == Some(assign)
  {
    ProgressKeepsOutcomes(start, db, assign, done);
    AssignmentStays(start.markets, db.markets, group, winning);
  }

  lemma CallGroupProgress(start: Db, db: Db, group: Group, winning: OutcomeId, assign: map<MarketId, OutcomeId>,
                          done: set<MarketId>, c: Call)
    requires Listed(group, start.markets) && EventAssignment(start.markets, group, winning) == Some(assign)
    requires GroupProgress(start, db, assign, done) && Listed(group, db.markets)
    ensures GroupProgress(start, AfterCall(db, group, winning, c), assign, done + SettledIn(db, group, winning, c))
  {
    AssignmentHere(start, db, group, winning, assign, done);
    OwnProgress(db, group, winning, c, assign);
    CallExtends(db, group, winning, c);
    ComposedProgress(start, db, AfterCall(db, group, winning, c), assign, done, SettledIn(db, group, winning, c));
  }

  lemma WorkGroupProgress(start: Db, db: Db, group: Group, winning: OutcomeId, assign: map<MarketId, OutcomeId>,
                          done: set<MarketId>, e: Event)
    requires Listed(group, start.markets) && EventAssignment(start.markets, group, winning) == Some(assign)
    requires GroupProgress(start, db, assign, done) && Allowed(db, group, Working(e))
    ensures GroupProgress(start, db.(books := Next(db.books, e)), assign, done)
  {
    AssignmentKeys(start.markets, group, winning);
    WorkProgress(start, db, assign, done, e);
  }

  lemma ActProgress(start: Db, db: Db, group: Group, winning: OutcomeId, assign: map<MarketId, OutcomeId>,
                    done: set<MarketId>, a: Act)
    requires Listed(group, start.markets) && EventAssignment(start.markets, group, winning) == Some(assign)
    requires GroupProgress(start, db, assign, done) && Listed(group, db.markets) && Allowed(db, group, a)
    ensures GroupProgress(start, AfterAct(db, group, winning, a), assign, done + Through(db, group, winning, a))
  {
    assert done + {} == done;
    match a
    case Resolving(c) => CallGroupProgress(start, db, group, winning, assign, done, c);
    case Working(e) => WorkGroupProgress(start, db, group, winning, assign, done, e);
  }

  lemma ActsCons(db: Db, group: Group, winning: OutcomeId, done: set<MarketId>, acts: seq<Act>)
    requires Valid(db.books) && Listed(group, db.markets) && AllAllowed(db, group, winning, acts) && acts != []
    ensures Allowed(db, group, acts[0])
    ensures AllAllowed(AfterAct(db, group, winning, acts[0]), group, winning, acts[1..])
    ensures AfterActs(db, group, winning, acts) ==
      AfterActs(AfterAct(db, group, winning, acts[0]), group, winning, acts[1..])
    ensures done + AllThrough(db, group, winning, acts) == done + Through(db, group, winning, acts[0])
      + AllThrough(AfterAct(db, group, winning, acts[0]), group, winning, acts[1..])
  {
  }

  lemma {:induction false} ActsProgress(start: Db, db: Db, group: Group, winning: OutcomeId,
                                        assign: map<MarketId, OutcomeId>, done: set<MarketId>, acts: seq<Act>)
    requires Listed(group, start.markets) && EventAssignment(start.markets, group, winning) == Some(assign)
    requires GroupProgress(start, db, assign, done) && Listed(group, db.markets)
    requires AllAllowed(db, group, winning, acts)
    ensures GroupProgress(start, AfterActs(db, group, winning, acts), assign,
                          done + AllThrough(db, group, winning, acts))
    decreases |acts|
  {
    assert done + {} == done;
    if acts != [] {
      ActsCons(db, group, winning, done, acts);
      ActProgress(start, db, group, winning, assign, done, acts[0]);
      ActsProgress(start, AfterAct(db, group, winning, acts[0]), group, winning, assign,
                   done + Through(db, group, winning, acts[0]), acts[1..]);
    }
  }

  lemma ActsFromStart(start: Db, group: Group, winning: OutcomeId, assign: map<MarketId, OutcomeId>, acts: seq<Act>)
    requires Valid(start.books) && Listed(group, start.markets) && AllAllowed(start, group, winning, acts)
    requires EventAssignment(start.markets, group, winning) == Some(assign)
    ensures GroupProgress(start, AfterActs(start, group, winning, acts), assign,
                          AllThrough(start, group, winning, acts))
  {
    var done := AllThrough(start, group, winning, acts);
    assert {} + done == done;
    GroupBegins(start, assign);
    ActsProgress(start, start, group, winning, assign, {}, acts);
  }

  // ---------------------------------------------------------------------------
  // Convergence.
  // ---------------------------------------------------------------------------

  /** The bets the group had at the start, the money moved for each of them on every account, and its rows. */
  ghost predicate SameGroup(start: Db, x: Db, y: Db, markets: set<MarketId>) {
    && (forall i | 0 <= i < |start.books.bets| && start.books.bets[i].market in markets ::
          SameStory(x.books, y.books, i))
    && forall m | m in markets :: m in x.markets && m in y.markets && SameRow(x.markets[m], y.markets[m])
  }

  ghost predicate SameStory(x: Books, y: Books, i: BetId) {
    && i < |x.bets| && i < |y.bets| && x.bets[i] == y.bets[i]
    && forall a :: Total(x.entries, Tagged(i, a)) == Total(y.entries, Tagged(i, a))
  }

  lemma GroupDetermined(start: Db, x: Db, y: Db, assign: map<MarketId, OutcomeId>, done: set<MarketId>)
    requires GroupProgress(start, x, assign, done) && GroupProgress(start, y, assign, done)
    requires forall m | m in assign :: m in start.markets
    ensures SameGroup(start, x, y, assign.Keys)
  {
    forall i | 0 <= i < |start.books.bets| && start.books.bets[i].market in assign.Keys
      ensures SameStory(x.books, y.books, i)
    {
      BetMoneyIsExact(x.books, i);
      BetMoneyIsExact(y.books, i);
    }
    forall m | m in assign ensures SameRow(x.markets[m], y.markets[m]) {
      assert SameRow(x.markets[m], MarkedBy(start.markets[m], m, assign, done));
      assert SameRow(y.markets[m], MarkedBy(start.markets[m], m, assign, done));
    }
  }

  /** Nothing goes through while a guard refuses the calls. */
  lemma {:induction false} NothingThrough(db: Db, group: Group, winning: OutcomeId, acts: seq<Act>)
    requires Valid(db.books) && Listed(group, db.markets) && AllAllowed(db, group, winning, acts)
    requires EventAssignment(db.markets, group, winning).None?
    ensures AllThrough(db, group, winning, acts) == {}
    decreases |acts|
  {
    if acts != [] {
      var a := acts[0];
      if a.Resolving? {
        TriesOkIff(db.markets, group, winning, a.call.reason, a.call.fate);
      }
      NothingThrough(AfterAct(db, group, winning, a), group, winning, acts[1..]);
    }
  }

  lemma ThroughIsAssigned(start: Db, group: Group, winning: OutcomeId, acts: seq<Act>)
    requires Valid(start.books) && Listed(group, start.markets) && AllAllowed(start, group, winning, acts)
    requires AllThrough(start, group, winning, acts) == Children(group) && group.children != []
    ensures EventAssignment(start.markets, group, winning).Some?
    ensures EventAssignment(start.markets, group, winning).value.Keys == Children(group)
  {
    assert group.children[0] in Children(group);
    if EventAssignment(start.markets, group, winning).None? {
      NothingThrough(start, group, winning, acts);
    } else {
      AssignmentKeys(start.markets, group, winning);
    }
  }

  lemma CompletedActs(start: Db, group: Group, winning: OutcomeId, acts: seq<Act>)
    returns (assign: map<MarketId, OutcomeId>)
    requires Valid(start.books) && Listed(group, start.markets) && AllAllowed(start, group, winning, acts)
    requires AllThrough(start, group, winning, acts) == Children(group) && group.children != []
    ensures EventAssignment(start.markets, group, winning) == Some(assign) && assign.Keys == Children(group)
    ensures GroupProgress(start, AfterActs(start, group, winning, acts), assign, Children(group))
  {
    ThroughIsAssigned(start, group, winning, acts);
    assign := EventAssignment(start.markets, group, winning).value;
    ActsFromStart(start, group, winning, assign, acts);
  }

  /** Calls for one group and outcome, with any other work in between that changes no bet of the group: in any
      two runs in which every child has gone through, the bets that the group had at the start, the money that
      moved for them and the stored winners are the same. */
  lemma MixedRunsConverge(start: Db, group: Group, winning: OutcomeId, xs: seq<Act>, ys: seq<Act>)
    requires Valid(start.books) && Listed(group, start.markets) && group.children != []
    requires AllAllowed(start, group, winning, xs) && AllThrough(start, group, winning, xs) == Children(group)
    requires AllAllowed(start, group, winning, ys) && AllThrough(start, group, winning, ys) == Children(group)
    ensures SameGroup(start, AfterActs(start, group, winning, xs), AfterActs(start, group, winning, ys),
                      Children(group))
  {
    var assign := CompletedActs(start, group, winning, xs);
    var same := CompletedActs(start, group, winning, ys);
    var x, y := AfterActs(start, group, winning, xs), AfterActs(start, group, winning, ys);
    GroupDetermined(start, x, y, assign, Children(group));
  }

  /** One call without faults takes every child through exactly when the guards pass and the state is completable. */
  lemma OneCallCompletesIff(start: Db, group: Group, winning: OutcomeId, one: Call)
    requires Valid(start.books) && Listed(group, start.markets) && group.children != []
    requires !Blank(one.reason) && forall m | m in group.children :: !one.fate(m).0
    ensures SettledIn(start, group, winning, one) == Children(group) <==>
      && EventAssignment(start.markets, group, winning).Some?
      && Completable(start, EventAssignment(start.markets, group, winning).value)
  {
    TriesOkIff(start.markets, group, winning, one.reason, one.fate);
    assert group.children[0] in Children(group);
    if EventAssignment(start.markets, group, winning).Some? {
      var assign := EventAssignment(start.markets, group, winning).value;
      var tries := ResolveTries(start.markets, Some(group), winning, one.reason, one.fate).value;
      TriesFollowAssignment(start.markets, group, winning, one.reason, one.fate);
      PassCompletesIff(start, assign, tries, one.reason, one.actor);
    }
  }

  /** A group that has been taken through was settleable at the start, so only the money can stop one call there. */
  lemma CompletableOnceThrough(start: Db, db: Db, assign: map<MarketId, OutcomeId>)
    requires GroupProgress(start, db, assign, assign.Keys)
    ensures Completable(start, assign) <==>
      Covers(start, assign, HousePromo) && forall m | m in assign :: Covers(start, assign, Liability(m))
  {
  }

  lemma OneAct(start: Db, group: Group, winning: OutcomeId, one: Call)
    requires Valid(start.books) && Listed(group, start.markets)
    ensures AllAllowed(start, group, winning, [Resolving(one)])
    ensures AllThrough(start, group, winning, [Resolving(one)]) == SettledIn(start, group, winning, one)
    ensures AfterActs(start, group, winning, [Resolving(one)]) == AfterCall(start, group, winning, one)
  {
    assert [Resolving(one)][1..] == [];
  }

  /** What a completed mixed run leaves the group with is what one call at its start would have left, if house
      promo could pay all the winnings then (and each pool its stakes); and only then would that call have
      taken every child through. */
  lemma MixedRunEqualsOneCall(start: Db, group: Group, winning: OutcomeId, acts: seq<Act>, one: Call)
    requires Valid(start.books) && Listed(group, start.markets) && group.children != []
    requires AllAllowed(start, group, winning, acts) && AllThrough(start, group, winning, acts) == Children(group)
    requires !Blank(one.reason) && forall m | m in group.children :: !one.fate(m).0
    ensures EventAssignment(start.markets, group, winning).Some?
    ensures SettledIn(start, group, winning, one) == Children(group) <==>
      var assign := EventAssignment(start.markets, group, winning).value;
      Covers(start, assign, HousePromo) && forall m | m in group.children :: Covers(start, assign, Liability(m))
    ensures SettledIn(start, group, winning, one) == Children(group) ==>
      SameGroup(start, AfterActs(start, group, winning, acts), AfterCall(start, group, winning, one), Children(group))
  {
    var assign := CompletedActs(start, group, winning, acts);
    CompletableOnceThrough(start, AfterActs(start, group, winning, acts), assign);
    OneCallCompletesIff(start, group, winning, one);
    OneAct(start, group, winning, one);
    if SettledIn(start, group, winning, one) == Children(group) {
      MixedRunsConverge(start, group, winning, acts, [Resolving(one)]);
    }
  }
}
