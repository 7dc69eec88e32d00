/** Repeated `resolve_event` calls for one group and one winning outcome. */
module EventCalls {
  import opened Domain
  import opened Invariant
  import opened Database
  import opened EventModel
  import opened EventGuards
  import opened EventService

  // ---------------------------------------------------------------------------
  // Every call settles the same children on the same outcomes.
  // ---------------------------------------------------------------------------

  predicate SameOutcomes(x: map<MarketId, MarketRow>, y: map<MarketId, MarketRow>) {
    x.Keys == y.Keys && forall m | m in x :: x[m].view.outcomes == y[m].view.outcomes
  }

  /** The winning child's YES outcome and the others' NO outcomes; None when some child lacks its one. */
  function LegsAround(markets: map<MarketId, MarketRow>, children: seq<MarketId>,
                      m0: MarketId): Option<map<MarketId, OutcomeId>>
    requires forall m | m in children :: m in markets
  {
    if exists m | m in children :: LegOf(markets[m], m == m0).None? then None
    else Some(map m | m in children :: LegOf(markets[m], m == m0).value)
  }

  /** What an event call gives each child; None when a guard other than the reason refuses the call. */
  function EventAssignment(markets: map<MarketId, MarketRow>, group: Group,
                           winning: OutcomeId): Option<map<MarketId, OutcomeId>>
    requires Listed(group, markets)
  {
    var holders := Holders(markets, group.children, winning);
    if group.mirrored || |holders| != 1 then None
    else
      assert holders[0] in holders;
      if LegOf(markets[holders[0]], true) != Some(winning) then None
      else LegsAround(markets, group.children, holders[0])
  }

  lemma {:induction false} NoTriesDefined(markets: map<MarketId, MarketRow>, children: seq<MarketId>, fate: Fate)
    requires forall m | m in children :: m in markets
    ensures NoTries(markets, children, fate).Some? <==> forall m | m in children :: LegOf(markets[m], false).Some?
    ensures NoTries(markets, children, fate).Some? ==>
      forall t | t in NoTries(markets, children, fate).value ::
        t.market in children && Some(t.outcome) == LegOf(markets[t.market], false) && t.crashes == fate(t.market).0
  {
    if children != [] {
      assert children == [children[0]] + children[1..];
      NoTriesDefined(markets, children[1..], fate);
    }
  }

  lemma OthersDefined(markets: map<MarketId, MarketRow>, children: seq<MarketId>, m0: MarketId, fate: Fate)
    requires (forall m | m in children :: m in markets) && m0 in children && LegOf(markets[m0], true).Some?
    ensures NoTries(markets, Without(children, m0), fate).Some? <==> LegsAround(markets, children, m0).Some?
  {
    NoTriesDefined(markets, Without(children, m0), fate);
  }

  /** The guards do not depend on reason (unless blank), actor or faults. */
  lemma TriesOkIff(markets: map<MarketId, MarketRow>, group: Group, winning: OutcomeId, reason: string, fate: Fate)
    requires Listed(group, markets)
    ensures ResolveTries(markets, Some(group), winning, reason, fate).Ok? <==>
      !Blank(reason) && EventAssignment(markets, group, winning).Some?
  {
    var holders := Holders(markets, group.children, winning);
    if |holders| == 1 {
      assert holders[0] in holders;
      if LegOf(markets[holders[0]], true).Some? {
        OthersDefined(markets, group.children, holders[0], fate);
      }
    }
  }

  /** A call that passes them tries every child, the winner first, each on the outcome it is assigned. */
  lemma TriesFollowAssignment(markets: map<MarketId, MarketRow>, group: Group, winning: OutcomeId, reason: string,
                              fate: Fate)
    requires Listed(group, markets) && ResolveTries(markets, Some(group), winning, reason, fate).Ok?
    ensures EventAssignment(markets, group, winning).Some?
    ensures var tries := ResolveTries(markets, Some(group), winning, reason, fate).value;
      var assign := EventAssignment(markets, group, winning).value;
      && Follows(tries, assign) && MarketsOf(tries) == assign.Keys == (set m | m in group.children)
      && tries[0].market == Holders(markets, group.children, winning)[0]
      && forall t | t in tries :: t.crashes == fate(t.market).0
  {
    TriesOkIff(markets, group, winning, reason, fate);
    var m0 := Holders(markets, group.children, winning)[0];
    NoTriesDefined(markets, Without(group.children, m0), fate);
    ResolveListCoversGroup(markets, group, winning, reason, fate);
    var tries := ResolveTries(markets, Some(group), winning, reason, fate).value;
    assert tries == [tries[0]] + tries[1..];
  }

  lemma {:induction false} SameHolders(x: map<MarketId, MarketRow>, y: map<MarketId, MarketRow>,
                                       children: seq<MarketId>, winning: OutcomeId)
    requires SameOutcomes(x, y) && forall m | m in children :: m in x
    ensures Holders(x, children, winning) == Holders(y, children, winning)
  {
    if children != [] {
      assert children == [children[0]] + children[1..];
      SameHolders(x, y, children[1..], winning);
    }
  }

  lemma SameLegs(x: map<MarketId, MarketRow>, y: map<MarketId, MarketRow>, children: seq<MarketId>, m0: MarketId)
    requires SameOutcomes(x, y) && forall m | m in children :: m in x
    ensures LegsAround(x, children, m0) == LegsAround(y, children, m0)
  {
    forall m | m in children ensures LegOf(x[m], m == m0) == LegOf(y[m], m == m0) {
    }
    if LegsAround(x, children, m0).Some? {
      assert LegsAround(x, children, m0).value == LegsAround(y, children, m0).value;
    }
  }

  /** Settling children changes no outcome, so a retry assigns what the first call assigned. */
  lemma AssignmentStays(x: map<MarketId, MarketRow>, y: map<MarketId, MarketRow>, group: Group, winning: OutcomeId)
    requires Listed(group, x) && SameOutcomes(x, y)
    ensures Listed(group, y) && EventAssignment(x, group, winning) == EventAssignment(y, group, winning)
  {
    SameHolders(x, y, group.children, winning);
    var holders := Holders(x, group.children, winning);
    if |holders| == 1 {
      assert holders[0] in holders;
      SameLegs(x, y, group.children, holders[0]);
    }
  }

  lemma {:induction false} SameNoTries(x: map<MarketId, MarketRow>, y: map<MarketId, MarketRow>,
                                       children: seq<MarketId>, fate: Fate)
    requires SameOutcomes(x, y) && forall m | m in children :: m in x
    ensures NoTries(x, children, fate) == NoTries(y, children, fate)
  {
    if children != [] {
      assert children == [children[0]] + children[1..];
      SameNoTries(x, y, children[1..], fate);
      assert LegOf(x[children[0]], false) == LegOf(y[children[0]], false);
    }
  }

  lemma SameTriesAround(x: map<MarketId, MarketRow>, y: map<MarketId, MarketRow>, children: seq<MarketId>, m: MarketId,
                        winning: OutcomeId, fate: Fate)
    requires SameOutcomes(x, y) && m in x && forall c | c in children :: c in x
    ensures TriesAround(x, children, m, winning, fate) == TriesAround(y, children, m, winning, fate)
  {
    assert LegOf(x[m], true) == LegOf(y[m], true);
    SameNoTries(x, y, Without(children, m), fate);
  }

  /** The settle list depends on the children's outcomes alone. */
  lemma TriesStay(x: map<MarketId, MarketRow>, y: map<MarketId, MarketRow>, group: Group, winning: OutcomeId,
                  reason: string, fate: Fate)
    requires Listed(group, x) && SameOutcomes(x, y)
    ensures Listed(group, y)
    ensures ResolveTries(x, Some(group), winning, reason, fate) == ResolveTries(y, Some(group), winning, reason, fate)
  {
    SameHolders(x, y, group.children, winning);
    forall m | m in group.children
      ensures TriesAround(x, group.children, m, winning, fate) == TriesAround(y, group.children, m, winning, fate)
    {
      SameTriesAround(x, y, group.children, m, winning, fate);
    }
  }

  lemma ProgressKeepsOutcomes(start: Db, db: Db, assign: map<MarketId, OutcomeId>, done: set<MarketId>)
    requires SameMarkets(start, db, assign, done)
    ensures SameOutcomes(start.markets, db.markets)
  {
    forall m | m in db.markets ensures db.markets[m].view.outcomes == start.markets[m].view.outcomes {
      assert SameRow(db.markets[m], MarkedBy(start.markets[m], m, assign, done));
    }
  }

  // ---------------------------------------------------------------------------
  // Any number of calls.
  // ---------------------------------------------------------------------------

  ghost function AfterCalls(db: Db, group: Group, winning: OutcomeId, calls: seq<Call>): (r: Db)
    requires Valid(db.books) && Listed(group, db.markets)
    ensures Valid(r.books) && Listed(group, r.markets)
    decreases |calls|
  {
    if calls == [] then db else AfterCalls(AfterCall(db, group, winning, calls[0]), group, winning, calls[1..])
  }

  /** The children that went through in one call. */
  ghost function SettledIn(db: Db, group: Group, winning: OutcomeId, c: Call): set<MarketId>
    requires Valid(db.books) && Listed(group, db.markets)
  {
    match ResolveTries(db.markets, Some(group), winning, c.reason, c.fate)
    case Err(_) => {}
    case Ok(tries) => Successes(db, tries, c.reason, c.actor)
  }

  /** The children that went through in some call. */
  ghost function GoneThrough(db: Db, group: Group, winning: OutcomeId, calls: seq<Call>): set<MarketId>
    requires Valid(db.books) && Listed(group, db.markets)
    decreases |calls|
  {
    if calls == [] then {}
    else
      SettledIn(db, group, winning, calls[0])
      + GoneThrough(AfterCall(db, group, winning, calls[0]), group, winning, calls[1..])
  }

  lemma AuditIsNotProgress(start: Db, db: Db, assign: map<MarketId, OutcomeId>, done: set<MarketId>,
                           audit: seq<AuditRow>)
    requires Progress(start, db, assign, done)
    ensures Progress(start, db.(audit := audit), assign, done)
  {
    var after := db.(audit := audit);
    assert SameBets(start, after, assign, done);
    assert SameMarkets(start, after, assign, done);
    assert SameKeys(start, after, done);
  }

  lemma PassedCallProgress(start: Db, db: Db, group: Group, winning: OutcomeId, done: set<MarketId>, c: Call)
    requires Listed(group, start.markets) && Listed(group, db.markets)
    requires EventAssignment(start.markets, group, winning).Some?
    requires EventAssignment(db.markets, group, winning) == EventAssignment(start.markets, group, winning)
    requires Progress(start, db, EventAssignment(start.markets, group, winning).value, done)
    requires ResolveTries(db.markets, Some(group), winning, c.reason, c.fate).Ok?
    ensures Progress(start, AfterCall(db, group, winning, c), EventAssignment(start.markets, group, winning).value,
                     done + SettledIn(db, group, winning, c))
  {
    var assign := EventAssignment(start.markets, group, winning).value;
    var tries := ResolveTries(db.markets, Some(group), winning, c.reason, c.fate).value;
    TriesFollowAssignment(db.markets, group, winning, c.reason, c.fate);
    RunProgress(start, db, assign, done, tries, c.reason, c.actor);
    AuditIsNotProgress(start, SettleAll(db, tries, c.reason, c.actor), assign,
                       done + Successes(db, tries, c.reason, c.actor), AfterCall(db, group, winning, c).audit);
  }

  lemma RefusedCall(db: Db, group: Group, winning: OutcomeId, done: set<MarketId>, c: Call)
    requires Valid(db.books) && Listed(group, db.markets)
    requires ResolveTries(db.markets, Some(group), winning, c.reason, c.fate).Err?
    ensures AfterCall(db, group, winning, c) == db && done + SettledIn(db, group, winning, c) == done
  {
  }

  lemma CallProgress(start: Db, db: Db, group: Group, winning: OutcomeId, done: set<MarketId>, c: Call)
    requires Listed(group, start.markets) && Listed(group, db.markets)
    requires EventAssignment(start.markets, group, winning).Some?
    requires Progress(start, db, EventAssignment(start.markets, group, winning).value, done)
    ensures Progress(start, AfterCall(db, group, winning, c), EventAssignment(start.markets, group, winning).value,
                     done + SettledIn(db, group, winning, c))
  {
    ProgressKeepsOutcomes(start, db, EventAssignment(start.markets, group, winning).value, done);
    AssignmentStays(start.markets, db.markets, group, winning);
    if ResolveTries(db.markets, Some(group), winning, c.reason, c.fate).Ok? {
      PassedCallProgress(start, db, group, winning, done, c);
    } else {
      RefusedCall(db, group, winning, done, c);
    }
  }

  lemma {:induction false} CallsProgress(start: Db, db: Db, group: Group, winning: OutcomeId, done: set<MarketId>,
                                         calls: seq<Call>)
    requires Listed(group, start.markets) && Listed(group, db.markets)
    requires EventAssignment(start.markets, group, winning).Some?
    requires Progress(start, db, EventAssignment(start.markets, group, winning).value, done)
    ensures Progress(start, AfterCalls(db, group, winning, calls), EventAssignment(start.markets, group, winning).value,
                     done + GoneThrough(db, group, winning, calls))
    decreases |calls|
  {
    if calls == [] {
      assert done + {} == done;
    } else {
      var now, next := SettledIn(db, group, winning, calls[0]), AfterCall(db, group, winning, calls[0]);
      CallProgress(start, db, group, winning, done, calls[0]);
      CallsProgress(start, next, group, winning, done + now, calls[1..]);
      CallsCons(db, group, winning, done, calls);
    }
  }

  lemma CallsCons(db: Db, group: Group, winning: OutcomeId, done: set<MarketId>, calls: seq<Call>)
    requires Valid(db.books) && Listed(group, db.markets) && calls != []
    ensures AfterCalls(db, group, winning, calls) ==
      AfterCalls(AfterCall(db, group, winning, calls[0]), group, winning, calls[1..])
    ensures done + GoneThrough(db, group, winning, calls) ==
      done + SettledIn(db, group, winning, calls[0])
      + GoneThrough(AfterCall(db, group, winning, calls[0]), group, winning, calls[1..])
  {
  }

  lemma CallsFromStart(start: Db, group: Group, winning: OutcomeId, calls: seq<Call>)
    requires Valid(start.books) && Listed(group, start.markets)
    requires EventAssignment(start.markets, group, winning).Some?
    ensures Progress(start, AfterCalls(start, group, winning, calls),
                     EventAssignment(start.markets, group, winning).value,
                     GoneThrough(start, group, winning, calls))
  {
    var done := GoneThrough(start, group, winning, calls);
    assert {} + done == done;
    ProgressBegins(start, EventAssignment(start.markets, group, winning).value);
    CallsProgress(start, start, group, winning, {}, calls);
  }

  /** A call that a guard refuses has no effect, however often it is repeated. */
  lemma {:induction false} RefusedCalls(db: Db, group: Group, winning: OutcomeId, calls: seq<Call>)
    requires Valid(db.books) && Listed(group, db.markets) && EventAssignment(db.markets, group, winning).None?
    ensures AfterCalls(db, group, winning, calls) == db && GoneThrough(db, group, winning, calls) == {}
    decreases |calls|
  {
    if calls != [] {
      TriesOkIff(db.markets, group, winning, calls[0].reason, calls[0].fate);
      RefusedCalls(db, group, winning, calls[1..]);
    }
  }

  /** Retries converge: however many calls for one group and one winner, by whomever, for whatever reasons and
      under whatever failures, once every child has gone through, balances, bets and child winners are those
      of one call without faults, which then has no failed child. */
  lemma RetriedCallsEqualOneCall(start: Db, group: Group, winning: OutcomeId, calls: seq<Call>, one: Call)
    requires Valid(start.books) && Listed(group, start.markets)
    requires GoneThrough(start, group, winning, calls) == set m | m in group.children
    requires !Blank(one.reason) && forall m | m in group.children :: !one.fate(m).0
    ensures SameOutcome(AfterCalls(start, group, winning, calls), AfterCall(start, group, winning, one))
    ensures SettledIn(start, group, winning, one) == set m | m in group.children
  {
    TriesOkIff(start.markets, group, winning, one.reason, one.fate);
    if EventAssignment(start.markets, group, winning).None? {
      RefusedCalls(start, group, winning, calls);
    } else {
      var assign := EventAssignment(start.markets, group, winning).value;
      var tries := ResolveTries(start.markets, Some(group), winning, one.reason, one.fate).value;
      TriesFollowAssignment(start.markets, group, winning, one.reason, one.fate);
      CallsFromStart(start, group, winning, calls);
      ProgressBegins(start, assign);
      CompletedIsCompletable(start, AfterCalls(start, group, winning, calls), assign);
      FailureFreePassSucceeds(start, start, assign, {}, tries, one.reason, one.actor);
      CallProgress(start, start, group, winning, {}, one);
      assert {} + assign.Keys == assign.Keys;
      ProgressDetermines(start, AfterCalls(start, group, winning, calls), AfterCall(start, group, winning, one), assign,
                         assign.Keys);
    }
  }

  // ---------------------------------------------------------------------------
  // Exactly one YES winner.
  // ---------------------------------------------------------------------------

  /** Child `m` reads as a YES winner exactly when it is `m0`. */
  predicate ReadsOnly(markets: map<MarketId, MarketRow>, m: MarketId, m0: MarketId) {
    m in markets && (StatusOf(markets[m]).isYesWinner <==> m == m0)
  }

  predicate IsOnlyYesWinner(markets: map<MarketId, MarketRow>, children: seq<MarketId>, m0: MarketId) {
    forall m | m in children :: ReadsOnly(markets, m, m0)
  }

  /** Nothing that was resolved before contradicts `m0` as the only YES winner. */
  predicate ResolvedAgree(markets: map<MarketId, MarketRow>, children: seq<MarketId>, m0: MarketId)
    requires forall m | m in children :: m in markets
  {
    forall m | m in children :: markets[m].view.status == MarketResolved ==> ReadsOnly(markets, m, m0)
  }

  /** How a child that has gone through reads: as before when it was RESOLVED already, and otherwise as a YES
      winner exactly when its assigned outcome is its YES outcome. */
  lemma ChildReadsAfter(start: Db, db: Db, assign: map<MarketId, OutcomeId>, m: MarketId)
    requires SameMarkets(start, db, assign, assign.Keys) && m in assign && m in start.markets
    ensures m in db.markets
    ensures StatusOf(db.markets[m]).isYesWinner <==>
      if start.markets[m].view.status == MarketResolved then StatusOf(start.markets[m]).isYesWinner
      else YesOf(start.markets[m]) == Some(assign[m])
  {
    assert SameRow(db.markets[m], MarkedBy(start.markets[m], m, assign, assign.Keys));
  }

  /** The assignment gives YES to the winning child alone. */
  lemma AssignedYes(markets: map<MarketId, MarketRow>, group: Group, winning: OutcomeId, m: MarketId)
    requires Listed(group, markets) && m in group.children && UniqueOutcomes(markets[m])
    requires EventAssignment(markets, group, winning).Some?
    ensures YesOf(markets[m]) == Some(EventAssignment(markets, group, winning).value[m]) <==>
      m == Holders(markets, group.children, winning)[0]
  {
    if m != Holders(markets, group.children, winning)[0] && YesOf(markets[m]).Some? {
      YesIsNotNo(markets[m]);
    }
  }

  lemma ReadsOnlyAfter(start: Db, db: Db, group: Group, winning: OutcomeId, m: MarketId)
    requires Listed(group, start.markets) && m in group.children && UniqueOutcomes(start.markets[m])
    requires EventAssignment(start.markets, group, winning).Some?
    requires SameMarkets(start, db, EventAssignment(start.markets, group, winning).value,
                         EventAssignment(start.markets, group, winning).value.Keys)
    ensures var m0 := Holders(start.markets, group.children, winning)[0];
      ReadsOnly(db.markets, m, m0) <==>
        (start.markets[m].view.status == MarketResolved ==> ReadsOnly(start.markets, m, m0))
  {
    ChildReadsAfter(start, db, EventAssignment(start.markets, group, winning).value, m);
    AssignedYes(start.markets, group, winning, m);
  }

  lemma OnlyYesWinnerIff(start: Db, db: Db, group: Group, winning: OutcomeId)
    requires Listed(group, start.markets) && forall m | m in group.children :: UniqueOutcomes(start.markets[m])
    requires EventAssignment(start.markets, group, winning).Some?
    requires SameMarkets(start, db, EventAssignment(start.markets, group, winning).value,
                         EventAssignment(start.markets, group, winning).value.Keys)
    ensures var m0 := Holders(start.markets, group.children, winning)[0];
      IsOnlyYesWinner(db.markets, group.children, m0) <==> ResolvedAgree(start.markets, group.children, m0)
  {
    var m0 := Holders(start.markets, group.children, winning)[0];
    forall m | m in group.children
      ensures ReadsOnly(db.markets, m, m0) <==>
        (start.markets[m].view.status == MarketResolved ==> ReadsOnly(start.markets, m, m0))
    {
      ReadsOnlyAfter(start, db, group, winning, m);
    }
  }

  /** A resolve without failures, from whatever the children's rows are: the winning child ends as the only
      YES winner exactly when every child that was RESOLVED before the call agrees with that. */
  lemma OneYesWinnerIff(db: Db, group: Group, winning: OutcomeId, reason: string, fate: Fate, actor: Option<UserId>)
    requires Valid(db.books) && Listed(group, db.markets)
    requires forall m | m in group.children :: UniqueOutcomes(db.markets[m])
    requires ResolveTries(db.markets, Some(group), winning, reason, fate).Ok?
    requires Failures(db, ResolveTries(db.markets, Some(group), winning, reason, fate).value, reason, actor) == []
    ensures var tries := ResolveTries(db.markets, Some(group), winning, reason, fate).value;
      IsOnlyYesWinner(SettleAll(db, tries, reason, actor).markets, group.children, tries[0].market) <==>
        ResolvedAgree(db.markets, group.children, tries[0].market)
  {
    var tries := ResolveTries(db.markets, Some(group), winning, reason, fate).value;
    TriesFollowAssignment(db.markets, group, winning, reason, fate);
    NoFailuresAllSucceed(db, tries, reason, actor);
    RunFromStart(db, EventAssignment(db.markets, group, winning).value, tries, reason, actor);
    OnlyYesWinnerIff(db, SettleAll(db, tries, reason, actor), group, winning);
  }

  /** The same over any number of calls, once every child has gone through. */
  lemma RetriedOneYesWinnerIff(start: Db, group: Group, winning: OutcomeId, calls: seq<Call>)
    requires Valid(start.books) && Listed(group, start.markets) && group.children != []
    requires forall m | m in group.children :: UniqueOutcomes(start.markets[m])
    requires GoneThrough(start, group, winning, calls) == set m | m in group.children
    ensures |Holders(start.markets, group.children, winning)| == 1
    ensures var m0 := Holders(start.markets, group.children, winning)[0];
      IsOnlyYesWinner(AfterCalls(start, group, winning, calls).markets, group.children, m0) <==>
        ResolvedAgree(start.markets, group.children, m0)
  {
    CompletedRows(start, group, winning, calls);
    OnlyYesWinnerIff(start, AfterCalls(start, group, winning, calls), group, winning);
  }

  lemma AssignmentKeys(markets: map<MarketId, MarketRow>, group: Group, winning: OutcomeId)
    requires Listed(group, markets) && EventAssignment(markets, group, winning).Some?
    ensures EventAssignment(markets, group, winning).value.Keys == set m | m in group.children
    ensures |Holders(markets, group.children, winning)| == 1
  {
  }

  lemma RowsOf(start: Db, db: Db, assign: map<MarketId, OutcomeId>, done: set<MarketId>)
    requires Progress(start, db, assign, done)
    ensures SameMarkets(start, db, assign, done)
  {
  }

  lemma CompletedRows(start: Db, group: Group, winning: OutcomeId, calls: seq<Call>)
    requires Valid(start.books) && Listed(group, start.markets) && group.children != []
    requires GoneThrough(start, group, winning, calls) == set m | m in group.children
    ensures |Holders(start.markets, group.children, winning)| == 1
    ensures EventAssignment(start.markets, group, winning).Some?
    ensures SameMarkets(start, AfterCalls(start, group, winning, calls),
                        EventAssignment(start.markets, group, winning).value,
                        EventAssignment(start.markets, group, winning).value.Keys)
  {
    CompletedIsAssigned(start, group, winning, calls);
    AssignmentKeys(start.markets, group, winning);
    CallsFromStart(start, group, winning, calls);
    RowsOf(start, AfterCalls(start, group, winning, calls), EventAssignment(start.markets, group, winning).value,
           GoneThrough(start, group, winning, calls));
  }

  lemma CompletedIsAssigned(start: Db, group: Group, winning: OutcomeId, calls: seq<Call>)
    requires Valid(start.books) && Listed(group, start.markets) && group.children != []
    requires GoneThrough(start, group, winning, calls) == set m | m in group.children
    ensures EventAssignment(start.markets, group, winning).Some?
  {
    assert group.children[0] in GoneThrough(start, group, winning, calls);
    if EventAssignment(start.markets, group, winning).None? {
      RefusedCalls(start, group, winning, calls);
    }
  }
}
