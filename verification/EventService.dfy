/** The event operations: guards, the loop over children, one audit row, the derived status. */
module EventService {
  import opened Domain
  import opened Lifecycle
  import opened Transactions
  import opened Invariant
  import opened Guarantees
  import opened Database
  import opened EventModel
  import opened EventGuards
  import opened Settlement
  import opened Engine

  datatype EventResult = EventResult(childCount: nat, settled: int, failed: seq<MarketId>, status: EventStatus)

  function Statuses(markets: map<MarketId, MarketRow>, children: seq<MarketId>): (r: seq<ChildStatus>)
    requires forall m | m in children :: m in markets
    ensures |r| == |children| && forall i | 0 <= i < |children| :: r[i] == StatusOf(markets[children[i]])
  {
    seq(|children|, i requires 0 <= i < |children| => StatusOf(markets[children[i]]))
  }

  // ---------------------------------------------------------------------------
  // Reversing children.
  // ---------------------------------------------------------------------------

  datatype Undo = Undo(market: MarketId, crashes: bool, now: Time)

  lemma ReverseKeepsValid(db: Db, m: MarketId, reason: string, ctx: Context)
    requires Valid(db.books) && ReverseTx(db, m, reason, ctx).Ok?
    ensures Valid(ReverseTx(db, m, reason, ctx).value.books)
  {
    PassKeepsValid(db.books, SettledVerdicts(db.books.bets, m), Reverse, ctx);
  }

  ghost predicate Undone(db: Db, u: Undo, reason: string, actor: Option<UserId>)
    requires Valid(db.books)
  {
    !u.crashes && ReverseTx(db, u.market, reason, Context(actor, u.now)).Ok?
  }

  ghost function AfterUndo(db: Db, u: Undo, reason: string, actor: Option<UserId>): (r: Db)
    requires Valid(db.books)
    ensures Valid(r.books)
  {
    if Undone(db, u, reason, actor) then
      ReverseKeepsValid(db, u.market, reason, Context(actor, u.now));
      ReverseTx(db, u.market, reason, Context(actor, u.now)).value
    else db
  }

  ghost function UndoAll(db: Db, undos: seq<Undo>, reason: string, actor: Option<UserId>): (r: Db)
    requires Valid(db.books)
    ensures Valid(r.books)
    decreases undos
  {
    if undos == [] then db else UndoAll(AfterUndo(db, undos[0], reason, actor), undos[1..], reason, actor)
  }

  ghost function UndoFailures(db: Db, undos: seq<Undo>, reason: string, actor: Option<UserId>): seq<MarketId>
    requires Valid(db.books)
    decreases undos
  {
    if undos == [] then []
    else
      (if Undone(db, undos[0], reason, actor) then [] else [undos[0].market])
      + UndoFailures(AfterUndo(db, undos[0], reason, actor), undos[1..], reason, actor)
  }

  /** The attempt at place `i` was made and failed, after those before it. */
  ghost predicate UndoFailsAt(db: Db, undos: seq<Undo>, reason: string, actor: Option<UserId>, i: int)
    requires Valid(db.books) && 0 <= i < |undos|
  {
    !Undone(UndoAll(db, undos[..i], reason, actor), undos[i], reason, actor)
  }

  lemma UndoFailsLater(db: Db, undos: seq<Undo>, reason: string, actor: Option<UserId>, i: int)
    requires Valid(db.books) && 0 <= i < |undos| - 1
    ensures UndoFailsAt(AfterUndo(db, undos[0], reason, actor), undos[1..], reason, actor, i) <==>
      UndoFailsAt(db, undos, reason, actor, i + 1)
  {
    var head := undos[..i + 1];
    assert head[0] == undos[0] && head[1..] == undos[1..][..i];
  }

  /** The markets reported as failed are exactly those with an attempt that failed when its turn came. */
  lemma {:induction false} UndoFailuresIff(db: Db, undos: seq<Undo>, reason: string, actor: Option<UserId>, m: MarketId)
    requires Valid(db.books)
    ensures m in UndoFailures(db, undos, reason, actor) <==>
      exists i | 0 <= i < |undos| :: undos[i].market == m && UndoFailsAt(db, undos, reason, actor, i)
    decreases undos
  {
    if undos != [] {
      var next, rest := AfterUndo(db, undos[0], reason, actor), undos[1..];
      UndoFailuresIff(next, rest, reason, actor, m);
      assert undos[..0] == [];
      forall i | 0 <= i < |rest|
        ensures UndoFailsAt(next, rest, reason, actor, i) <==> UndoFailsAt(db, undos, reason, actor, i + 1)
      {
        UndoFailsLater(db, undos, reason, actor, i);
      }
      if i :| 0 <= i < |rest| && rest[i].market == m && UndoFailsAt(next, rest, reason, actor, i) {
        assert undos[i + 1].market == m;
      }
      if i :| 0 <= i < |undos| && undos[i].market == m && UndoFailsAt(db, undos, reason, actor, i) {
        assert i > 0 ==> rest[i - 1].market == m;
      }
    }
  }

  function UndosOf(children: seq<MarketId>, fate: Fate): (r: seq<Undo>)
    ensures |r| == |children|
    ensures forall i | 0 <= i < |children| ::
              r[i].market == children[i] && r[i].crashes == fate(children[i]).0 && r[i].now == fate(children[i]).1
  {
    seq(|children|, i requires 0 <= i < |children| => Undo(children[i], fate(children[i]).0, fate(children[i]).1))
  }

  // ---------------------------------------------------------------------------
  // The service.
  // ---------------------------------------------------------------------------

  /** One child on its own session. */
  method SettleChild(engine: MoneyEngine, t: Attempt, reason: string, actor: Option<UserId>) returns (ok: bool)
    requires Valid(engine.Tables())
    modifies engine
    ensures Valid(engine.Tables())
    ensures engine.State() == After(old(engine.State()), t, reason, actor)
    ensures ok <==> Succeeds(old(engine.State()), t, reason, actor)
    ensures t.crashes ==> !ok
    ensures !ok ==> engine.State() == old(engine.State())
    ensures ok ==>
      && AllJudged(old(engine.bets), engine.bets, t.market, t.outcome)
      && RowStamped(old(engine.markets), engine.markets, t.market, t.outcome, t.now)
      && ResolutionAudited(old(engine.State()), engine.State(), t.market, t.outcome, reason, Context(actor, t.now))
  {
    if t.crashes {
      return false;
    }
    var r := engine.ResolveMarket(t.market, t.outcome, reason, Context(actor, t.now));
    return r.Ok?;
  }

  method ReverseChild(engine: MoneyEngine, u: Undo, reason: string, actor: Option<UserId>) returns (ok: bool)
    requires Valid(engine.Tables())
    modifies engine
    ensures Valid(engine.Tables())
    ensures engine.State() == AfterUndo(old(engine.State()), u, reason, actor)
    ensures ok <==> Undone(old(engine.State()), u, reason, actor)
    ensures u.crashes ==> !ok
    ensures !ok ==> engine.State() == old(engine.State())
    ensures ok ==>
      && AllReopened(old(engine.bets), engine.bets, u.market)
      && ReversalAudited(old(engine.State()), engine.State(), u.market, reason, Context(actor, u.now))
  {
    if u.crashes {
      return false;
    }
    var r := engine.ReverseSettlement(u.market, reason, Context(actor, u.now));
    return r.Ok?;
  }

  lemma AppendFailure(failed: seq<MarketId>, m: MarketId, later: seq<MarketId>)
    ensures failed + ([m] + later) == (failed + [m]) + later
    ensures failed + ([] + later) == failed + later
  {
  }

  /** Having tried the first `i` children, the rest of the list leads where the whole list leads. */
  ghost predicate Settling(start: Db, tries: seq<Attempt>, i: int, db: Db, failed: seq<MarketId>, reason: string,
                           actor: Option<UserId>)
  {
    && 0 <= i <= |tries| && Valid(start.books) && Valid(db.books)
    && SettleAll(start, tries, reason, actor) == SettleAll(db, tries[i..], reason, actor)
    && Failures(start, tries, reason, actor) == failed + Failures(db, tries[i..], reason, actor)
  }

  lemma SettlingBegins(start: Db, tries: seq<Attempt>, reason: string, actor: Option<UserId>)
    requires Valid(start.books)
    ensures Settling(start, tries, 0, start, [], reason, actor)
  {
  }

  lemma SettlingStep(start: Db, tries: seq<Attempt>, i: int, db: Db, failed: seq<MarketId>, reason: string,
                     actor: Option<UserId>)
    requires Settling(start, tries, i, db, failed, reason, actor) && i < |tries|
    ensures Settling(start, tries, i + 1, After(db, tries[i], reason, actor),
                 if Succeeds(db, tries[i], reason, actor) then failed else failed + [tries[i].market], reason, actor)
  {
    var first, rest := tries[i], tries[i + 1..];
    assert tries[i..] == [first] + rest;
    SettleAllCons(db, first, rest, reason, actor);
    AppendFailure(failed, first.market, Failures(After(db, first, reason, actor), rest, reason, actor));
  }

  lemma SettleAllCons(db: Db, first: Attempt, rest: seq<Attempt>, reason: string, actor: Option<UserId>)
    requires Valid(db.books)
    ensures SettleAll(db, [first] + rest, reason, actor) ==
      SettleAll(After(db, first, reason, actor), rest, reason, actor)
    ensures Failures(db, [first] + rest, reason, actor) ==
      (if Succeeds(db, first, reason, actor) then [] else [first.market])
      + Failures(After(db, first, reason, actor), rest, reason, actor)
  {
  }

  lemma SettlingEnds(start: Db, tries: seq<Attempt>, db: Db, failed: seq<MarketId>, reason: string,
                     actor: Option<UserId>)
    requires Settling(start, tries, |tries|, db, failed, reason, actor)
    ensures db == SettleAll(start, tries, reason, actor) && failed == Failures(start, tries, reason, actor)
  {
  }

  ghost predicate Undoing(start: Db, undos: seq<Undo>, i: int, db: Db, failed: seq<MarketId>, reason: string,
                          actor: Option<UserId>)
  {
    && 0 <= i <= |undos| && Valid(start.books) && Valid(db.books)
    && UndoAll(start, undos, reason, actor) == UndoAll(db, undos[i..], reason, actor)
    && UndoFailures(start, undos, reason, actor) == failed + UndoFailures(db, undos[i..], reason, actor)
  }

  lemma UndoingBegins(start: Db, undos: seq<Undo>, reason: string, actor: Option<UserId>)
    requires Valid(start.books)
    ensures Undoing(start, undos, 0, start, [], reason, actor)
  {
  }

  lemma UndoingStep(start: Db, undos: seq<Undo>, i: int, db: Db, failed: seq<MarketId>, reason: string,
                    actor: Option<UserId>)
    requires Undoing(start, undos, i, db, failed, reason, actor) && i < |undos|
    ensures Undoing(start, undos, i + 1, AfterUndo(db, undos[i], reason, actor),
                 if Undone(db, undos[i], reason, actor) then failed else failed + [undos[i].market], reason, actor)
  {
    var first, rest := undos[i], undos[i + 1..];
    assert undos[i..] == [first] + rest;
    UndoAllCons(db, first, rest, reason, actor);
    AppendFailure(failed, first.market, UndoFailures(AfterUndo(db, first, reason, actor), rest, reason, actor));
  }

  lemma UndoAllCons(db: Db, first: Undo, rest: seq<Undo>, reason: string, actor: Option<UserId>)
    requires Valid(db.books)
    ensures UndoAll(db, [first] + rest, reason, actor) ==
      UndoAll(AfterUndo(db, first, reason, actor), rest, reason, actor)
    ensures UndoFailures(db, [first] + rest, reason, actor) ==
      (if Undone(db, first, reason, actor) then [] else [first.market])
      + UndoFailures(AfterUndo(db, first, reason, actor), rest, reason, actor)
  {
  }

  lemma UndoingEnds(start: Db, undos: seq<Undo>, db: Db, failed: seq<MarketId>, reason: string, actor: Option<UserId>)
    requires Undoing(start, undos, |undos|, db, failed, reason, actor)
    ensures db == UndoAll(start, undos, reason, actor) && failed == UndoFailures(start, undos, reason, actor)
  {
  }

  /** One transaction per child; a child that fails is recorded and the loop goes on. */
  method SettleChildren(engine: MoneyEngine, tries: seq<Attempt>, reason: string, actor: Option<UserId>)
      returns (failed: seq<MarketId>)
    requires Valid(engine.Tables())
    modifies engine
    ensures Valid(engine.Tables())
    ensures engine.State() == SettleAll(old(engine.State()), tries, reason, actor)
    ensures failed == Failures(old(engine.State()), tries, reason, actor)
  {
    failed := [];
    ghost var start := engine.State();
    SettlingBegins(start, tries, reason, actor);
    for i := 0 to |tries|
      invariant Settling(start, tries, i, engine.State(), failed, reason, actor)
    {
      SettlingStep(start, tries, i, engine.State(), failed, reason, actor);
      var ok := SettleChild(engine, tries[i], reason, actor);
      if !ok {
        failed := failed + [tries[i].market];
      }
    }
    SettlingEnds(start, tries, engine.State(), failed, reason, actor);
  }

  method ReverseChildren(engine: MoneyEngine, undos: seq<Undo>, reason: string, actor: Option<UserId>)
      returns (failed: seq<MarketId>)
    requires Valid(engine.Tables())
    modifies engine
    ensures Valid(engine.Tables())
    ensures engine.State() == UndoAll(old(engine.State()), undos, reason, actor)
    ensures failed == UndoFailures(old(engine.State()), undos, reason, actor)
  {
    failed := [];
    ghost var start := engine.State();
    UndoingBegins(start, undos, reason, actor);
    for i := 0 to |undos|
      invariant Undoing(start, undos, i, engine.State(), failed, reason, actor)
    {
      UndoingStep(start, undos, i, engine.State(), failed, reason, actor);
      var ok := ReverseChild(engine, undos[i], reason, actor);
      if !ok {
        failed := failed + [undos[i].market];
      }
    }
    UndoingEnds(start, undos, engine.State(), failed, reason, actor);
  }

  /** What a resolve or void call leaves and answers: the children settled as far as they could be, one
      audit row, the failed children, and the status derived from the committed rows. */
  ghost predicate SettleReport(start: Db, tries: seq<Attempt>, children: seq<MarketId>, yes: Option<OutcomeId>,
                               reason: string, actor: Option<UserId>, end: Db, r: Result<EventResult>)
    requires Valid(start.books)
  {
    var settled, failed := SettleAll(start, tries, reason, actor), Failures(start, tries, reason, actor);
    && end == settled.(audit := settled.audit + [EventSettled(yes, |tries|, failed, reason)])
    && (forall m | m in children :: m in end.markets)
    && r == Ok(EventResult(|tries|, |tries| - |failed|, failed, DeriveEventStatus(Statuses(end.markets, children))))
  }

  ghost predicate UndoReport(start: Db, undos: seq<Undo>, children: seq<MarketId>,
                             reason: string, actor: Option<UserId>, end: Db, r: Result<EventResult>)
    requires Valid(start.books)
  {
    var undone, failed := UndoAll(start, undos, reason, actor), UndoFailures(start, undos, reason, actor);
    && end == undone.(audit := undone.audit + [EventReversed(|undos|, failed, reason)])
    && (forall m | m in children :: m in end.markets)
    && r == Ok(EventResult(|undos|, |undos| - |failed|, failed, DeriveEventStatus(Statuses(end.markets, children))))
  }

  /** One call of `resolve_event` for a given group and outcome: who calls, why, and the faults it meets. */
  datatype Call = Call(reason: string, actor: Option<UserId>, fate: Fate)

  /** The database after the call. */
  ghost function AfterCall(db: Db, group: Group, winning: OutcomeId, c: Call): (r: Db)
    requires Valid(db.books) && Listed(group, db.markets)
    ensures Valid(r.books) && Listed(group, r.markets)
  {
    match ResolveTries(db.markets, Some(group), winning, c.reason, c.fate)
    case Err(_) => db
    case Ok(tries) =>
      SettleAllKeepsMarkets(db, tries, c.reason, c.actor);
      var settled := SettleAll(db, tries, c.reason, c.actor);
      settled.(audit := settled.audit
        + [EventSettled(Some(winning), |tries|, Failures(db, tries, c.reason, c.actor), c.reason)])
  }

  method ResolveEvent(engine: MoneyEngine, group: Option<Group>, winning: OutcomeId, reason: string,
                      actor: Option<UserId>, fate: Fate)
    returns (r: Result<EventResult>)
    requires Valid(engine.Tables()) && (group.Some? ==> Listed(group.value, engine.markets))
    modifies engine
    ensures Valid(engine.Tables())
    ensures match ResolveTries(old(engine.markets), group, winning, reason, fate)
      case Err(e) => r == Err(e) && engine.State() == old(engine.State())
      case Ok(tries) =>
        SettleReport(old(engine.State()), tries, group.value.children, Some(winning), reason, actor, engine.State(), r)
    ensures group.Some? ==>
      engine.State() == AfterCall(old(engine.State()), group.value, winning, Call(reason, actor, fate))
    ensures r.Ok? <==> CanResolve(old(engine.markets), group, winning, reason)
    ensures r.Err? ==> engine.State() == old(engine.State())
  {
    ResolveTriesIff(engine.markets, group, winning, reason, fate);
    var planned := ResolveTries(engine.markets, group, winning, reason, fate);
    if planned.Err? {
      return Err(planned.error);
    }
    r := SettleAndReport(engine, group.value.children, planned.value, Some(winning), reason, actor);
  }

  method VoidEvent(engine: MoneyEngine, group: Option<Group>, reason: string, actor: Option<UserId>, fate: Fate)
    returns (r: Result<EventResult>)
    requires Valid(engine.Tables()) && (group.Some? ==> Listed(group.value, engine.markets))
    modifies engine
    ensures Valid(engine.Tables())
    ensures match VoidTries(old(engine.markets), group, reason, fate)
      case Err(e) => r == Err(e) && engine.State() == old(engine.State())
      case Ok(tries) =>
        SettleReport(old(engine.State()), tries, group.value.children, None, reason, actor, engine.State(), r)
    ensures r.Ok? <==> CanVoid(old(engine.markets), group, reason)
    ensures r.Err? ==> engine.State() == old(engine.State())
  {
    VoidTriesIff(engine.markets, group, reason, fate);
    var planned := VoidTries(engine.markets, group, reason, fate);
    if planned.Err? {
      return Err(planned.error);
    }
    r := SettleAndReport(engine, group.value.children, planned.value, None, reason, actor);
  }

  method SettleAndReport(engine: MoneyEngine, children: seq<MarketId>, tries: seq<Attempt>, yes: Option<OutcomeId>,
                         reason: string, actor: Option<UserId>)
    returns (r: Result<EventResult>)
    requires Valid(engine.Tables()) && forall m | m in children :: m in engine.markets
    modifies engine
    ensures Valid(engine.Tables())
    ensures SettleReport(old(engine.State()), tries, children, yes, reason, actor, engine.State(), r)
  {
    SettleAllKeepsMarkets(engine.State(), tries, reason, actor);
    var failed := SettleChildren(engine, tries, reason, actor);
    engine.RecordEvent(EventSettled(yes, |tries|, failed, reason));
    var status := DeriveEventStatus(Statuses(engine.markets, children));
    return Ok(EventResult(|tries|, |tries| - |failed|, failed, status));
  }

  method ReverseEvent(engine: MoneyEngine, group: Option<Group>, reason: string, actor: Option<UserId>, fate: Fate)
    returns (r: Result<EventResult>)
    requires Valid(engine.Tables()) && (group.Some? ==> Listed(group.value, engine.markets))
    modifies engine
    ensures Valid(engine.Tables())
    ensures if Blank(reason) || group.None? || group.value.mirrored
      then r == Err(ValueError) && engine.State() == old(engine.State())
      else UndoReport(old(engine.State()), UndosOf(group.value.children, fate), group.value.children, reason, actor,
                      engine.State(), r)
  {
    if Blank(reason) || group.None? || group.value.mirrored {
      return Err(ValueError);
    }
    var undos := UndosOf(group.value.children, fate);
    r := UndoAndReport(engine, group.value.children, undos, reason, actor);
  }

  method UndoAndReport(engine: MoneyEngine, children: seq<MarketId>, undos: seq<Undo>, reason: string,
                       actor: Option<UserId>)
    returns (r: Result<EventResult>)
    requires Valid(engine.Tables()) && forall m | m in children :: m in engine.markets
    modifies engine
    ensures Valid(engine.Tables())
    ensures UndoReport(old(engine.State()), undos, children, reason, actor, engine.State(), r)
  {
    UndoAllKeepsMarkets(engine.State(), undos, reason, actor);
    var failed := ReverseChildren(engine, undos, reason, actor);
    engine.RecordEvent(EventReversed(|undos|, failed, reason));
    var status := DeriveEventStatus(Statuses(engine.markets, children));
    return Ok(EventResult(|undos|, |undos| - |failed|, failed, status));
  }

  lemma {:induction false} SettleAllKeepsMarkets(db: Db, tries: seq<Attempt>, reason: string, actor: Option<UserId>)
    requires Valid(db.books)
    ensures SettleAll(db, tries, reason, actor).markets.Keys == db.markets.Keys
    decreases tries
  {
    if tries != [] {
      SettleAllKeepsMarkets(After(db, tries[0], reason, actor), tries[1..], reason, actor);
    }
  }

  lemma {:induction false} UndoAllKeepsMarkets(db: Db, undos: seq<Undo>, reason: string, actor: Option<UserId>)
    requires Valid(db.books)
    ensures UndoAll(db, undos, reason, actor).markets.Keys == db.markets.Keys
    decreases undos
  {
    if undos != [] {
      UndoAllKeepsMarkets(AfterUndo(db, undos[0], reason, actor), undos[1..], reason, actor);
    }
  }

  // ---------------------------------------------------------------------------
  // What a whole pass derives.
  // ---------------------------------------------------------------------------

  lemma NoTriesCover(markets: map<MarketId, MarketRow>, children: seq<MarketId>, fate: Fate)
    requires (forall m | m in children :: m in markets) && NoTries(markets, children, fate).Some?
    ensures MarketsOf(NoTries(markets, children, fate).value) == set m | m in children
  {
  }

  /** The settle list of `resolve_event` names every child of the group: first the winner, on its YES outcome,
      then the others, each on its NO outcome. */
  lemma ResolveListCoversGroup(markets: map<MarketId, MarketRow>, group: Group, winning: OutcomeId, reason: string,
                               fate: Fate)
    requires Listed(group, markets) && ResolveTries(markets, Some(group), winning, reason, fate).Ok?
    ensures var tries := ResolveTries(markets, Some(group), winning, reason, fate).value;
      && MarketsOf(tries) == (set m | m in group.children)
      && WinnerFirst(markets, tries, winning)
  {
    var m0 := Holders(markets, group.children, winning)[0];
    assert m0 in Holders(markets, group.children, winning);
    WinnerListCovers(markets, group.children, m0, winning, fate);
  }

  lemma WinnerListCovers(markets: map<MarketId, MarketRow>, children: seq<MarketId>, m0: MarketId, winning: OutcomeId,
                         fate: Fate)
    requires (forall m | m in children :: m in markets) && m0 in children && LegOf(markets[m0], true) == Some(winning)
    requires NoTries(markets, Without(children, m0), fate).Some?
    ensures var first := Attempt(m0, winning, fate(m0).0, fate(m0).1);
      var tries := [first] + NoTries(markets, Without(children, m0), fate).value;
      && MarketsOf(tries) == (set m | m in children)
      && WinnerFirst(markets, tries, winning)
  {
  }

  ghost predicate WinnerFirst(markets: map<MarketId, MarketRow>, tries: seq<Attempt>, winning: OutcomeId) {
    && tries != [] && tries[0].market in markets
    && LegOf(markets[tries[0].market], true) == Some(tries[0].outcome) == Some(winning)
    && forall t | t in tries[1..] ::
         t.market != tries[0].market && t.market in markets && LegOf(markets[t.market], false) == Some(t.outcome)
  }

  /** A YES outcome and a NO outcome of one market are different outcomes, as ids are unique. */
  predicate UniqueOutcomes(row: MarketRow) {
    forall o, p | o in row.view.outcomes && p in row.view.outcomes && o.id == p.id :: o == p
  }

  lemma SoleOutcomeIsOne(outcomes: seq<Outcome>, yes: bool)
    requires SoleOutcome(outcomes, yes).Some?
    ensures exists o | o in outcomes :: o.id == SoleOutcome(outcomes, yes).value && o.isYes == yes
  {
  }

  lemma YesIsNotNo(row: MarketRow)
    requires UniqueOutcomes(row) && YesOf(row).Some?
    ensures LegOf(row, false) != YesOf(row)
  {
    if LegOf(row, false) == YesOf(row) {
      SoleOutcomeIsOne(row.view.outcomes, false);
    }
  }

  /** Whether a child that has gone through reads as a YES winner. */
  lemma ChildReads(start: Db, db: Db, assign: map<MarketId, OutcomeId>, m: MarketId)
    requires SameMarkets(start, db, assign, assign.Keys) && m in assign
    requires m in start.markets && start.markets[m].view.status != MarketResolved
    ensures m in db.markets && db.markets[m].view.status == MarketResolved
    ensures StatusOf(db.markets[m]).isYesWinner <==> YesOf(start.markets[m]) == Some(assign[m])
  {
  }

  /** After every child of an unresolved group has gone through: all are RESOLVED, a child is a YES winner
      exactly when it was to settle on YES, so the event reads "resolved" when one of them was, and "void"
      when none was. */
  lemma WholePassStatus(start: Db, db: Db, assign: map<MarketId, OutcomeId>, children: seq<MarketId>)
    requires Progress(start, db, assign, assign.Keys)
    requires children != [] && forall m :: m in children <==> m in assign
    requires forall m | m in children :: m in start.markets && start.markets[m].view.status != MarketResolved
    ensures forall m | m in children ::
              && m in db.markets && db.markets[m].view.status == MarketResolved
              && (StatusOf(db.markets[m]).isYesWinner <==> YesOf(start.markets[m]) == Some(assign[m]))
    ensures DeriveEventStatus(Statuses(db.markets, children)) ==
      if exists m | m in children :: YesOf(start.markets[m]) == Some(assign[m]) then EventResolved else EventVoid
  {
    forall m | m in children
      ensures m in db.markets && db.markets[m].view.status == MarketResolved
      ensures StatusOf(db.markets[m]).isYesWinner <==> YesOf(start.markets[m]) == Some(assign[m])
    {
      ChildReads(start, db, assign, m);
    }
    AllResolvedReads(db.markets, children);
  }

  lemma AllResolvedReads(markets: map<MarketId, MarketRow>, children: seq<MarketId>)
    requires children != [] && forall m | m in children :: m in markets && markets[m].view.status == MarketResolved
    ensures DeriveEventStatus(Statuses(markets, children)) ==
      if exists m | m in children :: StatusOf(markets[m]).isYesWinner then EventResolved else EventVoid
  {
  }

  lemma FirstOfPass(db: Db, tries: seq<Attempt>, reason: string, actor: Option<UserId>)
    requires Valid(db.books) && tries != [] && Failures(db, tries, reason, actor) == []
    ensures Failures(After(db, tries[0], reason, actor), tries[1..], reason, actor) == []
    ensures Successes(db, tries, reason, actor) ==
      {tries[0].market} + Successes(After(db, tries[0], reason, actor), tries[1..], reason, actor)
  {
  }

  lemma {:induction false} NoFailuresAllSucceed(db: Db, tries: seq<Attempt>, reason: string, actor: Option<UserId>)
    requires Valid(db.books) && Failures(db, tries, reason, actor) == []
    ensures Successes(db, tries, reason, actor) == MarketsOf(tries)
    decreases tries
  {
    if tries != [] {
      FirstOfPass(db, tries, reason, actor);
      NoFailuresAllSucceed(After(db, tries[0], reason, actor), tries[1..], reason, actor);
      MarketsOfCons(tries);
    }
  }

  /** The outcomes a resolve gives its children, and those a void gives them. */
  function ResolveAssignment(markets: map<MarketId, MarketRow>, children: seq<MarketId>, winner: MarketId,
                             winning: OutcomeId): map<MarketId, OutcomeId>
    requires forall m | m in children :: m in markets && (m != winner ==> LegOf(markets[m], false).Some?)
  {
    map m | m in children :: if m == winner then winning else LegOf(markets[m], false).value
  }

  predicate Unresolved(markets: map<MarketId, MarketRow>, children: seq<MarketId>) {
    forall m | m in children :: m in markets && markets[m].view.status != MarketResolved && UniqueOutcomes(markets[m])
  }

  /** A failure-free resolve of an unresolved group reads "resolved", with the chosen child its only YES winner. */
  lemma ResolveReadsResolved(start: Db, group: Group, winning: OutcomeId, reason: string, fate: Fate,
                             actor: Option<UserId>)
    requires Valid(start.books) && Listed(group, start.markets) && Unresolved(start.markets, group.children)
    requires ResolveTries(start.markets, Some(group), winning, reason, fate).Ok?
    requires Failures(start, ResolveTries(start.markets, Some(group), winning, reason, fate).value, reason, actor) == []
    ensures var tries := ResolveTries(start.markets, Some(group), winning, reason, fate).value;
            var end := SettleAll(start, tries, reason, actor);
      && (forall m | m in group.children ::
            m in end.markets && (StatusOf(end.markets[m]).isYesWinner <==> m == tries[0].market))
      && DeriveEventStatus(Statuses(end.markets, group.children)) == EventResolved
  {
    var tries := ResolveTries(start.markets, Some(group), winning, reason, fate).value;
    ResolveListCoversGroup(start.markets, group, winning, reason, fate);
    var m0 := tries[0].market;
    assert tries == [tries[0]] + tries[1..];
    forall m | m in group.children && m != m0 ensures LegOf(start.markets[m], false).Some? {
      assert m in MarketsOf(tries);
      var t :| t in tries && t.market == m;
      assert t in tries[1..];
    }
    var assign := ResolveAssignment(start.markets, group.children, m0, winning);
    assert m0 in MarketsOf(tries);
    forall t | t in tries ensures t.market in assign && t.outcome == assign[t.market] {
      assert t.market in MarketsOf(tries);
      assert t == tries[0] || t in tries[1..];
    }
    WholePassReads(start, group.children, tries, assign, reason, actor);
    forall m | m in group.children ensures YesOf(start.markets[m]) == Some(assign[m]) <==> m == m0 {
      if m != m0 && YesOf(start.markets[m]).Some? {
        YesIsNotNo(start.markets[m]);
      }
    }
  }

  /** A failure-free void of an unresolved, non-empty group reads "void". */
  lemma VoidReadsVoid(start: Db, group: Group, reason: string, fate: Fate, actor: Option<UserId>)
    requires Valid(start.books) && Listed(group, start.markets) && Unresolved(start.markets, group.children)
    requires group.children != [] && VoidTries(start.markets, Some(group), reason, fate).Ok?
    requires Failures(start, VoidTries(start.markets, Some(group), reason, fate).value, reason, actor) == []
    ensures var end := SettleAll(start, VoidTries(start.markets, Some(group), reason, fate).value, reason, actor);
      && (forall m | m in group.children :: m in end.markets && !StatusOf(end.markets[m]).isYesWinner)
      && DeriveEventStatus(Statuses(end.markets, group.children)) == EventVoid
  {
    var tries := VoidTries(start.markets, Some(group), reason, fate).value;
    NoTriesCover(start.markets, group.children, fate);
    forall m | m in group.children ensures LegOf(start.markets[m], false).Some? {
      var k :| 0 <= k < |group.children| && group.children[k] == m;
      assert tries[k].market == m;
    }
    var assign := map m | m in group.children :: LegOf(start.markets[m], false).value;
    forall t | t in tries ensures t.market in assign && t.outcome == assign[t.market] {
      var k :| 0 <= k < |tries| && tries[k] == t;
      assert group.children[k] in group.children;
    }
    WholePassReads(start, group.children, tries, assign, reason, actor);
    forall m | m in group.children ensures YesOf(start.markets[m]) != Some(assign[m]) {
      if YesOf(start.markets[m]).Some? {
        YesIsNotNo(start.markets[m]);
      }
    }
  }

  lemma WholePassReads(start: Db, children: seq<MarketId>, tries: seq<Attempt>, assign: map<MarketId, OutcomeId>,
                       reason: string, actor: Option<UserId>)
    requires Valid(start.books) && Follows(tries, assign) && Failures(start, tries, reason, actor) == []
    requires children != [] && forall m :: m in children <==> m in assign
    requires MarketsOf(tries) == (set m | m in children)
    requires Unresolved(start.markets, children)
    ensures var end := SettleAll(start, tries, reason, actor);
      && (forall m | m in children :: m in end.markets
            && (StatusOf(end.markets[m]).isYesWinner <==> YesOf(start.markets[m]) == Some(assign[m])))
      && DeriveEventStatus(Statuses(end.markets, children)) ==
           if exists m | m in children :: YesOf(start.markets[m]) == Some(assign[m]) then EventResolved else EventVoid
  {
    NoFailuresAllSucceed(start, tries, reason, actor);
    assert MarketsOf(tries) == assign.Keys;
    RunFromStart(start, assign, tries, reason, actor);
    WholePassStatus(start, SettleAll(start, tries, reason, actor), assign, children);
  }

  function UndoMarkets(undos: seq<Undo>): set<MarketId> {
    set u | u in undos :: u.market
  }

  predicate HasSettled(bets: seq<Bet>, m: MarketId) {
    exists i | 0 <= i < |bets| :: IsSettled(bets[i], m)
  }

  ghost predicate UndoneBetsOk(start: seq<Bet>, bets: seq<Bet>, done: set<MarketId>) {
    && |bets| == |start|
    && (forall i | 0 <= i < |bets| :: bets[i].market == start[i].market)
    && (forall i | 0 <= i < |bets| && start[i].market !in done :: bets[i] == start[i])
    && forall i, m | 0 <= i < |bets| && m in done :: !IsSettled(bets[i], m)
  }

  ghost predicate UndoneRowsOk(start: Db, markets: map<MarketId, MarketRow>, done: set<MarketId>) {
    && markets.Keys == start.markets.Keys
    && (forall m | m in markets :: m !in done ==> markets[m] == start.markets[m])
    && forall m | m in markets && m in done ::
         markets[m].view.status == MarketResolved <==>
           start.markets[m].view.status == MarketResolved && !HasSettled(start.books.bets, m)
  }

  /** Where a reversal pass has got to. */
  ghost predicate UndoProgress(start: Db, db: Db, done: set<MarketId>) {
    UndoneBetsOk(start.books.bets, db.books.bets, done) && UndoneRowsOk(start, db.markets, done)
  }

  /** Reversing child `m` leaves no settled bet in it and no other child's bets changed. */
  lemma UndoneBets(b: Books, m: MarketId, ctx: Context)
    requires SoundBets(b.bets) && RunPass(b, SettledVerdicts(b.bets, m), Reverse, ctx).Ok?
    ensures var bets := Reopened(b, m, ctx).bets;
      && |bets| == |b.bets|
      && forall i | 0 <= i < |bets| ::
           && bets[i].market == b.bets[i].market && !IsSettled(bets[i], m)
           && (b.bets[i].market != m ==> bets[i] == b.bets[i])
           && (b.bets[i].market == m && b.bets[i].status == Pending ==> bets[i] == b.bets[i])
           && (bets[i].status == b.bets[i].status || bets[i].status == Pending)
  {
    ReversalReopensBets(b, m, ctx);
  }

  lemma NothingSettled(bets: seq<Bet>, m: MarketId)
    ensures SettledVerdicts(bets, m) == [] <==> !HasSettled(bets, m)
  {
  }

  lemma SameSettled(start: seq<Bet>, bets: seq<Bet>, done: set<MarketId>, m: MarketId)
    requires UndoneBetsOk(start, bets, done)
    ensures m in done ==> !HasSettled(bets, m)
    ensures m !in done ==> (HasSettled(bets, m) <==> HasSettled(start, m))
  {
    forall i | 0 <= i < |bets| && m !in done ensures IsSettled(bets[i], m) <==> IsSettled(start[i], m) {
    }
  }

  lemma UndoneBetsProgress(start: seq<Bet>, b: Books, done: set<MarketId>, m: MarketId, ctx: Context)
    requires SoundBets(b.bets) && UndoneBetsOk(start, b.bets, done)
    requires RunPass(b, SettledVerdicts(b.bets, m), Reverse, ctx).Ok?
    ensures UndoneBetsOk(start, Reopened(b, m, ctx).bets, done + {m})
  {
    UndoneBets(b, m, ctx);
  }

  lemma UndoneRowsProgress(start: Db, markets: map<MarketId, MarketRow>, bets: seq<Bet>, done: set<MarketId>,
                           m: MarketId)
    requires UndoneRowsOk(start, markets, done) && UndoneBetsOk(start.books.bets, bets, done)
    requires HasSettled(bets, m) ==> m in markets
    ensures UndoneRowsOk(start, if HasSettled(bets, m) then markets[m := Unstamped(markets[m])] else markets,
                         done + {m})
  {
    var after := if HasSettled(bets, m) then markets[m := Unstamped(markets[m])] else markets;
    SameSettled(start.books.bets, bets, done, m);
    assert after.Keys == markets.Keys;
    forall k | k in after && k in done + {m}
      ensures after[k].view.status == MarketResolved <==>
        start.markets[k].view.status == MarketResolved && !HasSettled(start.books.bets, k)
    {
      assert k == m || after[k] == markets[k];
    }
  }

  lemma UndoneProgress(start: Db, db: Db, done: set<MarketId>, m: MarketId, after: Db, reason: string, ctx: Context)
    requires SoundBets(db.books.bets) && UndoProgress(start, db, done)
    requires ReverseTx(db, m, reason, ctx) == Ok(after)
    ensures UndoProgress(start, after, done + {m})
  {
    NothingSettled(db.books.bets, m);
    UndoneBetsProgress(start.books.bets, db.books, done, m, ctx);
    UndoneRowsProgress(start, db.markets, db.books.bets, done, m);
    assert after.books == Reopened(db.books, m, ctx);
  }

  lemma UndoCons(db: Db, undos: seq<Undo>, done: set<MarketId>, reason: string, actor: Option<UserId>)
    requires Valid(db.books) && undos != [] && UndoFailures(db, undos, reason, actor) == []
    ensures Undone(db, undos[0], reason, actor)
    ensures var after := AfterUndo(db, undos[0], reason, actor);
      && ReverseTx(db, undos[0].market, reason, Context(actor, undos[0].now)) == Ok(after)
      && UndoFailures(after, undos[1..], reason, actor) == []
      && UndoAll(db, undos, reason, actor) == UndoAll(after, undos[1..], reason, actor)
    ensures done + UndoMarkets(undos) == done + {undos[0].market} + UndoMarkets(undos[1..])
  {
    assert undos == [undos[0]] + undos[1..];
  }

  lemma {:induction false} UndoPassProgress(start: Db, db: Db, done: set<MarketId>, undos: seq<Undo>, reason: string,
                                            actor: Option<UserId>)
    requires Valid(db.books) && UndoProgress(start, db, done)
    requires UndoFailures(db, undos, reason, actor) == []
    ensures UndoProgress(start, UndoAll(db, undos, reason, actor), done + UndoMarkets(undos))
    decreases undos
  {
    if undos == [] {
      assert done + UndoMarkets(undos) == done;
    } else {
      var u, after := undos[0], AfterUndo(db, undos[0], reason, actor);
      UndoCons(db, undos, done, reason, actor);
      UndoneProgress(start, db, done, u.market, after, reason, Context(actor, u.now));
      UndoPassProgress(start, after, done + {u.market}, undos[1..], reason, actor);
    }
  }

  /** The children still RESOLVED after a reversal. */
  ghost predicate StillResolved(start: Db, m: MarketId) {
    m in start.markets && start.markets[m].view.status == MarketResolved && !HasSettled(start.books.bets, m)
  }

  lemma OpenReads(markets: map<MarketId, MarketRow>, children: seq<MarketId>)
    requires forall m | m in children :: m in markets
    ensures DeriveEventStatus(Statuses(markets, children)) == EventOpen <==>
      forall m | m in children :: markets[m].view.status != MarketResolved
  {
    var statuses := Statuses(markets, children);
    EventStatusIff(statuses);
    forall m | m in children ensures StatusOf(markets[m]) in statuses {
      var k :| 0 <= k < |children| && children[k] == m;
      assert statuses[k] in statuses;
    }
  }

  lemma UndoPassEnds(start: Db, undos: seq<Undo>, reason: string, actor: Option<UserId>)
    requires Valid(start.books) && UndoFailures(start, undos, reason, actor) == []
    ensures UndoProgress(start, UndoAll(start, undos, reason, actor), UndoMarkets(undos))
  {
    UndoPassProgress(start, start, {}, undos, reason, actor);
    assert {} + UndoMarkets(undos) == UndoMarkets(undos);
  }

  /** After a reversal pass without failures the children still RESOLVED are exactly those that were
      RESOLVED without a settled bet, so the event reads "open" exactly when there is none. */
  lemma ReversePassStatus(start: Db, undos: seq<Undo>, children: seq<MarketId>, reason: string, actor: Option<UserId>)
    requires Valid(start.books) && UndoFailures(start, undos, reason, actor) == []
    requires forall m | m in children :: m in start.markets && m in UndoMarkets(undos)
    ensures var end := UndoAll(start, undos, reason, actor);
      && (forall m | m in children ::
            m in end.markets && (end.markets[m].view.status == MarketResolved <==> StillResolved(start, m)))
      && (DeriveEventStatus(Statuses(end.markets, children)) == EventOpen <==>
            forall m | m in children :: !StillResolved(start, m))
  {
    UndoPassEnds(start, undos, reason, actor);
    OpenReads(UndoAll(start, undos, reason, actor).markets, children);
  }
}
