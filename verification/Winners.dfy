/** Whose resolution a child market keeps when passes with different winners meet. */
module Winners {
  import opened Domain
  import opened Invariant
  import opened Database
  import opened EventModel
  import opened EventGuards
  import opened EventService
  import opened EventCalls

  /** The outcome of the first attempt at child `m` that went through. */
  ghost function FirstSuccess(db: Db, tries: seq<Attempt>, m: MarketId, reason: string,
                              actor: Option<UserId>): Option<OutcomeId>
    requires Valid(db.books)
    decreases tries
  {
    if tries == [] then None
    else if tries[0].market == m && Succeeds(db, tries[0], reason, actor) then Some(tries[0].outcome)
    else FirstSuccess(After(db, tries[0], reason, actor), tries[1..], m, reason, actor)
  }

  /** `row` resolved on `winner`, whatever the time stamp. */
  predicate HoldsWinner(before: MarketRow, row: MarketRow, winner: OutcomeId) {
    row.view == before.view.(status := MarketResolved) && row.winner == Some(winner)
  }

  lemma RowAfter(db: Db, t: Attempt, m: MarketId, reason: string, actor: Option<UserId>)
    requires Valid(db.books) && m in db.markets
    ensures m in After(db, t, reason, actor).markets
    ensures After(db, t, reason, actor).markets[m] ==
      if t.market == m && Succeeds(db, t, reason, actor) then Stamped(db.markets[m], t.outcome, t.now)
      else db.markets[m]
  {
  }

  lemma {:induction false} ResolvedRowStays(db: Db, tries: seq<Attempt>, m: MarketId, reason: string,
                                            actor: Option<UserId>)
    requires Valid(db.books) && m in db.markets && db.markets[m].view.status == MarketResolved
    ensures m in SettleAll(db, tries, reason, actor).markets
    ensures SettleAll(db, tries, reason, actor).markets[m] == db.markets[m]
    decreases tries
  {
    if tries != [] {
      RowAfter(db, tries[0], m, reason, actor);
      ResolvedRowStays(After(db, tries[0], reason, actor), tries[1..], m, reason, actor);
    }
  }

  /** Over any passes, with any winners and any failures, an unresolved child ends on the outcome of its
      first successful attempt, and is untouched when there was none. */
  lemma {:induction false} FirstSuccessDecides(db: Db, tries: seq<Attempt>, m: MarketId, reason: string,
                                               actor: Option<UserId>)
    requires Valid(db.books) && m in db.markets && db.markets[m].view.status != MarketResolved
    ensures m in SettleAll(db, tries, reason, actor).markets
    ensures match FirstSuccess(db, tries, m, reason, actor)
            case None => SettleAll(db, tries, reason, actor).markets[m] == db.markets[m]
            case Some(winner) => HoldsWinner(db.markets[m], SettleAll(db, tries, reason, actor).markets[m], winner)
    decreases tries
  {
    if tries != [] {
      var next := After(db, tries[0], reason, actor);
      RowAfter(db, tries[0], m, reason, actor);
      if tries[0].market == m && Succeeds(db, tries[0], reason, actor) {
        ResolvedRowStays(next, tries[1..], m, reason, actor);
      } else {
        FirstSuccessDecides(next, tries[1..], m, reason, actor);
      }
    }
  }

  /** An unresolved child, possibly one that a reversal reopened with its winner still stored, reads as a YES
      winner exactly when its first success was on its YES outcome, or without a success as it did before: an
      event can end with as many YES winners as calls for different winners got through on different children. */
  lemma YesWinnerIff(db: Db, tries: seq<Attempt>, m: MarketId, reason: string, actor: Option<UserId>)
    requires Valid(db.books) && m in db.markets && db.markets[m].view.status != MarketResolved
    ensures m in SettleAll(db, tries, reason, actor).markets
    ensures StatusOf(SettleAll(db, tries, reason, actor).markets[m]).isYesWinner <==>
      if FirstSuccess(db, tries, m, reason, actor).Some?
      then FirstSuccess(db, tries, m, reason, actor) == YesOf(db.markets[m])
      else StatusOf(db.markets[m]).isYesWinner
  {
    FirstSuccessDecides(db, tries, m, reason, actor);
  }

  // ---------------------------------------------------------------------------
  // Two YES winners, concretely.
  // ---------------------------------------------------------------------------

  function Binary(yes: OutcomeId, no: OutcomeId): MarketRow {
    MarketRow(
      MarketView(MarketOpen, 100, [Outcome(yes, true, 500_000), Outcome(no, false, 500_000)], None, None), None, None)
  }

  function TwoChildren(): Db {
    Db(Seeded(), map[1 := Binary(10, 11), 2 := Binary(20, 21)], [])
  }

  /** Only child 2 fails, and only in the first pass. */
  function SecondFails(m: MarketId): (bool, Time) {
    (m == 2, 0)
  }

  function NoneFails(m: MarketId): (bool, Time) {
    (false, 1)
  }

  /** A pass for outcome 10 in which child 2 fails, then a retry for outcome 20. */
  function FirstPass(): seq<Attempt> {
    [Attempt(1, 10, false, 0), Attempt(2, 21, true, 0)]
  }

  function Retry(): seq<Attempt> {
    [Attempt(2, 20, false, 1), Attempt(1, 11, false, 1)]
  }

  lemma SoleOutcomes(yes: OutcomeId, no: OutcomeId)
    ensures LegOf(Binary(yes, no), true) == Some(yes) && LegOf(Binary(yes, no), false) == Some(no)
  {
    var first, second := Outcome(yes, true, 500_000), Outcome(no, false, 500_000);
    assert [first, second][1..] == [second] && [second][1..] == [];
    assert SoleOutcome([second], false) == Some(no);
  }

  lemma OneHolder(winner: MarketId, winning: OutcomeId)
    requires (winner == 1 && winning == 10) || (winner == 2 && winning == 20)
    ensures Holders(TwoChildren().markets, [1, 2], winning) == [winner]
  {
  }

  lemma OneOther(winner: MarketId, fate: Fate)
    requires winner == 1 || winner == 2
    ensures Without([1, 2], winner) == [3 - winner]
    ensures NoTries(TwoChildren().markets, [3 - winner], fate) ==
      Some([Attempt(3 - winner, if winner == 1 then 21 else 11, fate(3 - winner).0, fate(3 - winner).1)])
  {
    SoleOutcomes(10, 11);
    SoleOutcomes(20, 21);
    var other: MarketId := 3 - winner;
    var t := Attempt(other, if winner == 1 then 21 else 11, fate(other).0, fate(other).1);
    assert [1, 2][1..] == [2] && [other][1..] == [] && [t] + [] == [t];
    assert LegOf(TwoChildren().markets[other], false) == Some(t.outcome);
    assert Without([2], winner) == if winner == 2 then [] else [2];
  }

  lemma NamedReason()
    ensures !Blank("final")
  {
    assert "final"[0] == 'f' && 'f' in "final";
  }

  lemma PassAround(winner: MarketId, winning: OutcomeId, fate: Fate)
    requires (winner == 1 && winning == 10) || (winner == 2 && winning == 20)
    ensures TriesAround(TwoChildren().markets, [1, 2], winner, winning, fate) == Ok(TwoTries(winner, winning, fate))
  {
    SoleOutcomes(10, 11);
    SoleOutcomes(20, 21);
    OneOther(winner, fate);
    var t := Attempt(winner, winning, fate(winner).0, fate(winner).1);
    var other := NoTries(TwoChildren().markets, [3 - winner], fate).value;
    assert [t] + other == [t, other[0]];
  }

  /** These are the lists `resolve_event` builds. */
  lemma EventPass(winner: MarketId, winning: OutcomeId, fate: Fate)
    requires (winner == 1 && winning == 10) || (winner == 2 && winning == 20)
    ensures ResolveTries(TwoChildren().markets, Some(Group(false, [1, 2])), winning, "final", fate) ==
      Ok(TwoTries(winner, winning, fate))
  {
    NamedReason();
    OneHolder(winner, winning);
    PassAround(winner, winning, fate);
  }

  function TwoTries(winner: MarketId, winning: OutcomeId, fate: Fate): seq<Attempt>
    requires winner == 1 || winner == 2
  {
    [Attempt(winner, winning, fate(winner).0, fate(winner).1),
     Attempt(3 - winner, if winner == 1 then 21 else 11, fate(3 - winner).0, fate(3 - winner).1)]
  }

  lemma TheTries()
    ensures TwoTries(1, 10, SecondFails) == FirstPass() && TwoTries(2, 20, NoneFails) == Retry()
  {
    assert SecondFails(1) == (false, 0) && SecondFails(2) == (true, 0);
    assert NoneFails(1) == (false, 1) && NoneFails(2) == (false, 1);
  }

  lemma EmptyChildSucceeds(db: Db, t: Attempt)
    requires Valid(db.books) && db.books == Seeded() && !t.crashes
    requires t.market in db.markets && db.markets[t.market].view.status != MarketVoided
    ensures Succeeds(db, t, "final", None)
    ensures After(db, t, "final", None).books == Seeded()
  {
  }

  const FIRST_CALL := Call("final", None, SecondFails)
  const SECOND_CALL := Call("final", None, NoneFails)

  lemma FirstPassLeaves()
    ensures Valid(TwoChildren().books)
    ensures var end := SettleAll(TwoChildren(), FirstPass(), "final", None);
      && end.books == Seeded() && SameOutcomes(TwoChildren().markets, end.markets)
      && HoldsWinner(TwoChildren().markets[1], end.markets[1], 10)
      && end.markets[2] == TwoChildren().markets[2]
  {
    SeededIsValid();
    var start, first := TwoChildren(), FirstPass();
    EmptyChildSucceeds(start, first[0]);
    var one := After(start, first[0], "final", None);
    RowAfter(start, first[0], 1, "final", None);
    RowAfter(start, first[0], 2, "final", None);
    assert After(one, first[1], "final", None) == one;
    assert first[1..] == [first[1]] && first[1..][1..] == [];
    assert SettleAll(start, first, "final", None) == SettleAll(one, [first[1]], "final", None) == one;
  }

  lemma RetryLeaves(db: Db)
    requires Valid(db.books) && db.books == Seeded() && db.markets.Keys == {1, 2}
    requires db.markets[1].view.status == MarketResolved && db.markets[2] == TwoChildren().markets[2]
    ensures var end := SettleAll(db, Retry(), "final", None);
      && end.markets.Keys == {1, 2} && end.markets[1] == db.markets[1]
      && HoldsWinner(db.markets[2], end.markets[2], 20)
  {
    EmptyChildSucceeds(db, Retry()[0]);
    SettleAllKeepsMarkets(db, Retry(), "final", None);
    ResolvedRowStays(db, Retry(), 1, "final", None);
    FirstSuccessDecides(db, Retry(), 2, "final", None);
  }

  function Both(): Group {
    Group(false, [1, 2])
  }

  /** `resolve_event` for outcome 10, in which child 2 fails. */
  lemma FirstCallLeaves(start: Db) returns (mid: Db)
    requires start == TwoChildren()
    ensures Valid(start.books) && Listed(Both(), start.markets) && mid == AfterCall(start, Both(), 10, FIRST_CALL)
    ensures mid.books == Seeded() && mid.markets.Keys == {1, 2} && SameOutcomes(start.markets, mid.markets)
    ensures HoldsWinner(start.markets[1], mid.markets[1], 10) && mid.markets[2] == start.markets[2]
  {
    SeededIsValid();
    mid := AfterCall(start, Both(), 10, FIRST_CALL);
    EventPass(1, 10, SecondFails);
    TheTries();
    FirstPassLeaves();
  }

  /** And then for outcome 20. */
  lemma SecondCallLeaves(start: Db, mid: Db) returns (end: Db)
    requires start == TwoChildren() && mid.books == Seeded() && mid.markets.Keys == {1, 2}
    requires SameOutcomes(start.markets, mid.markets)
    requires mid.markets[1].view.status == MarketResolved && mid.markets[2] == start.markets[2]
    ensures Valid(mid.books) && Listed(Both(), mid.markets) && end == AfterCall(mid, Both(), 20, SECOND_CALL)
    ensures end.markets.Keys == {1, 2} && end.markets[1] == mid.markets[1]
    ensures HoldsWinner(start.markets[2], end.markets[2], 20)
  {
    SeededIsValid();
    end := AfterCall(mid, Both(), 20, SECOND_CALL);
    EventPass(2, 20, NoneFails);
    TheTries();
    TriesStay(start.markets, mid.markets, Both(), 20, "final", NoneFails);
    RetryLeaves(mid);
  }

  lemma ReadsTwoYes(markets: map<MarketId, MarketRow>)
    requires markets.Keys == {1, 2}
    requires HoldsWinner(Binary(10, 11), markets[1], 10) && HoldsWinner(Binary(20, 21), markets[2], 20)
    ensures StatusOf(markets[1]).isYesWinner && StatusOf(markets[2]).isYesWinner
    ensures DeriveEventStatus(Statuses(markets, [1, 2])) == EventResolved
  {
    SoleOutcomes(10, 11);
    SoleOutcomes(20, 21);
    var statuses := Statuses(markets, [1, 2]);
    EventStatusIff(statuses);
    assert statuses[0] in statuses;
  }

  /** After the two calls both children are YES winners, and the event reads as resolved. */
  lemma TwoYesWinners() returns (end: Db)
    ensures Valid(TwoChildren().books) && Listed(Both(), TwoChildren().markets)
    ensures end == AfterCall(AfterCall(TwoChildren(), Both(), 10, FIRST_CALL), Both(), 20, SECOND_CALL)
    ensures end.markets.Keys == {1, 2}
    ensures StatusOf(end.markets[1]).isYesWinner && StatusOf(end.markets[2]).isYesWinner
    ensures DeriveEventStatus(Statuses(end.markets, [1, 2])) == EventResolved
  {
    var start := TwoChildren();
    var mid := FirstCallLeaves(start);
    end := SecondCallLeaves(start, mid);
    ReadsTwoYes(end.markets);
  }
}
