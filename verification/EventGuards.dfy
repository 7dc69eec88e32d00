/** The guards of the event operations and the list of child settlements each call works through. */
module EventGuards {
  import opened Domain
  import opened Database
  import opened EventModel

  /** `market_groups` with the ids of its child markets in canonical order. */
  datatype Group = Group(mirrored: bool, children: seq<MarketId>)

  /** Faults and clocks of the child transactions. */
  type Fate = MarketId -> (bool, Time)

  predicate IsSpace(c: char) {
    c == ' ' || c == '\t' || c == '\n' || c == '\r'
  }

  predicate Blank(s: string) {
    forall c | c in s :: IsSpace(c)
  }

  function StripLeft(s: string): string {
    if s != "" && IsSpace(s[0]) then StripLeft(s[1..]) else s
  }

  function StripRight(s: string): string {
    if s != "" && IsSpace(s[|s| - 1]) then StripRight(s[..|s| - 1]) else s
  }

  /** A reason is refused exactly when nothing is left of it after stripping. */
  lemma {:induction false} BlankIff(s: string)
    ensures Blank(s) <==> StripRight(StripLeft(s)) == ""
  {
    if s != "" && IsSpace(s[0]) {
      BlankIff(s[1..]);
      assert s == [s[0]] + s[1..];
      assert Blank(s) <==> Blank(s[1..]);
    } else {
      StripsToNothing(s);
    }
  }

  lemma {:induction false} StripsToNothing(s: string)
    ensures StripRight(s) == "" <==> forall c | c in s :: IsSpace(c)
  {
    if s != "" {
      var n := |s| - 1;
      assert s == s[..n] + [s[n]];
      StripsToNothing(s[..n]);
    }
  }

  /** A group's children are rows of the markets table. */
  predicate Listed(group: Group, markets: map<MarketId, MarketRow>) {
    && (forall m | m in group.children :: m in markets)
    && forall i, j | 0 <= i < j < |group.children| :: group.children[i] != group.children[j]
  }

  function Holders(markets: map<MarketId, MarketRow>, children: seq<MarketId>, outcome: OutcomeId): (r: seq<MarketId>)
    requires forall m | m in children :: m in markets
    ensures forall m :: m in r <==> m in children && exists o | o in markets[m].view.outcomes :: o.id == outcome
  {
    if children == [] then []
    else
      assert children == [children[0]] + children[1..];
      (if exists o | o in markets[children[0]].view.outcomes :: o.id == outcome then [children[0]] else [])
      + Holders(markets, children[1..], outcome)
  }

  function LegOf(row: MarketRow, yes: bool): Option<OutcomeId> {
    SoleOutcome(row.view.outcomes, yes)
  }

  function YesOf(row: MarketRow): Option<OutcomeId> {
    FirstYes(row.view.outcomes)
  }

  /** Every listed child on its NO outcome; None when some child has not exactly one. */
  function NoTries(markets: map<MarketId, MarketRow>, children: seq<MarketId>, fate: Fate): (r: Option<seq<Attempt>>)
    requires forall m | m in children :: m in markets
    ensures r.Some? ==> |r.value| == |children| && forall i | 0 <= i < |children| ::
              r.value[i].market == children[i] && LegOf(markets[children[i]], false) == Some(r.value[i].outcome)
  {
    if children == [] then Some([])
    else
      assert children == [children[0]] + children[1..];
      var m, rest := children[0], NoTries(markets, children[1..], fate);
      if LegOf(markets[m], false).None? || rest.None? then None
      else Some([Attempt(m, LegOf(markets[m], false).value, fate(m).0, fate(m).1)] + rest.value)
  }

  function Without(children: seq<MarketId>, m: MarketId): (r: seq<MarketId>)
    ensures forall c :: c in r <==> c in children && c != m
  {
    if children == [] then []
    else
      assert children == [children[0]] + children[1..];
      (if children[0] == m then [] else [children[0]]) + Without(children[1..], m)
  }

  /** The settle list around the child that holds the winning outcome: that child on its YES outcome first,
      the others on NO. */
  function TriesAround(markets: map<MarketId, MarketRow>, children: seq<MarketId>, m: MarketId, winning: OutcomeId,
                       fate: Fate): Result<seq<Attempt>>
    requires m in markets && forall c | c in children :: c in markets
  {
    if LegOf(markets[m], true).None? then Err(InvalidOutcome)
    else if LegOf(markets[m], true) != Some(winning) then Err(ValueError)
    else
      var others := NoTries(markets, Without(children, m), fate);
      if others.None? then Err(InvalidOutcome)
      else Ok([Attempt(m, winning, fate(m).0, fate(m).1)] + others.value)
  }

  /** The guards of `resolve_event` and the settle list. */
  function ResolveTries(markets: map<MarketId, MarketRow>, group: Option<Group>, winning: OutcomeId, reason: string,
                        fate: Fate): Result<seq<Attempt>>
    requires group.Some? ==> Listed(group.value, markets)
  {
    if Blank(reason) || group.None? || group.value.mirrored then Err(ValueError)
    else
      var holders := Holders(markets, group.value.children, winning);
      if |holders| != 1 then Err(ValueError)
      else
        assert holders[0] in holders;
        TriesAround(markets, group.value.children, holders[0], winning, fate)
  }

  function VoidTries(markets: map<MarketId, MarketRow>, group: Option<Group>, reason: string,
                     fate: Fate): Result<seq<Attempt>>
    requires group.Some? ==> Listed(group.value, markets)
  {
    if Blank(reason) || group.None? || group.value.mirrored then Err(ValueError)
    else
      var tries := NoTries(markets, group.value.children, fate);
      if tries.None? then Err(InvalidOutcome) else Ok(tries.value)
  }

  // ---------------------------------------------------------------------------
  // When the guards pass, and whom the list settles on what.
  // ---------------------------------------------------------------------------

  /** The market has exactly one outcome with that label, and it is `id`. */
  predicate IsLeg(row: MarketRow, yes: bool, id: OutcomeId) {
    exists k | 0 <= k < |row.view.outcomes| ::
      && row.view.outcomes[k] == Outcome(id, yes, row.view.outcomes[k].price)
      && forall j | 0 <= j < |row.view.outcomes| && row.view.outcomes[j].isYes == yes :: j == k
  }

  predicate HasLeg(row: MarketRow, yes: bool) {
    exists o | o in row.view.outcomes :: IsLeg(row, yes, o.id)
  }

  lemma {:induction false} SoleOutcomeIs(outcomes: seq<Outcome>, yes: bool, k: nat)
    requires k < |outcomes| && outcomes[k].isYes == yes
    requires forall j | 0 <= j < |outcomes| && outcomes[j].isYes == yes :: j == k
    ensures SoleOutcome(outcomes, yes) == Some(outcomes[k].id)
  {
    if k > 0 {
      SoleOutcomeIs(outcomes[1..], yes, k - 1);
    }
  }

  lemma {:induction false} SoleOutcomeAt(outcomes: seq<Outcome>, yes: bool) returns (k: nat)
    requires SoleOutcome(outcomes, yes).Some?
    ensures k < |outcomes| && outcomes[k].isYes == yes && SoleOutcome(outcomes, yes) == Some(outcomes[k].id)
    ensures forall j | 0 <= j < |outcomes| && outcomes[j].isYes == yes :: j == k
  {
    if outcomes[0].isYes == yes {
      k := 0;
      forall j | 1 <= j < |outcomes| ensures outcomes[j].isYes != yes {
        assert outcomes[j] == outcomes[1..][j - 1] && outcomes[1..][j - 1] in outcomes[1..];
      }
    } else {
      var rest := SoleOutcomeAt(outcomes[1..], yes);
      k := rest + 1;
      forall j | 0 <= j < |outcomes| && outcomes[j].isYes == yes ensures j == k {
        assert outcomes[1..][j - 1] == outcomes[j];
      }
    }
  }

  lemma LegIff(row: MarketRow, yes: bool, id: OutcomeId)
    ensures LegOf(row, yes) == Some(id) <==> IsLeg(row, yes, id)
  {
    var outcomes := row.view.outcomes;
    if IsLeg(row, yes, id) {
      var k :| 0 <= k < |outcomes| && outcomes[k] == Outcome(id, yes, outcomes[k].price)
        && forall j | 0 <= j < |outcomes| && outcomes[j].isYes == yes :: j == k;
      SoleOutcomeIs(outcomes, yes, k);
    }
    if LegOf(row, yes) == Some(id) {
      var k := SoleOutcomeAt(outcomes, yes);
      assert outcomes[k] == Outcome(id, yes, outcomes[k].price);
    }
  }

  lemma HasLegIff(row: MarketRow, yes: bool)
    ensures LegOf(row, yes).Some? <==> HasLeg(row, yes)
  {
    if HasLeg(row, yes) {
      var o :| o in row.view.outcomes && IsLeg(row, yes, o.id);
      LegIff(row, yes, o.id);
    }
    if LegOf(row, yes).Some? {
      var k := SoleOutcomeAt(row.view.outcomes, yes);
      LegIff(row, yes, row.view.outcomes[k].id);
      assert row.view.outcomes[k] in row.view.outcomes;
    }
  }

  /** The attempts are one per listed child, in that order, each on its one NO outcome. */
  predicate AllOnNo(tries: seq<Attempt>, markets: map<MarketId, MarketRow>, children: seq<MarketId>, fate: Fate)
    requires forall m | m in children :: m in markets
  {
    && |tries| == |children|
    && forall i | 0 <= i < |children| ::
         var t, m := tries[i], children[i];
         t.market == m && IsLeg(markets[m], false, t.outcome) && t.crashes == fate(m).0 && t.now == fate(m).1
  }

  lemma {:induction false} NoTriesIff(markets: map<MarketId, MarketRow>, children: seq<MarketId>, fate: Fate)
    requires forall m | m in children :: m in markets
    ensures NoTries(markets, children, fate).Some? <==> forall m | m in children :: HasLeg(markets[m], false)
    ensures NoTries(markets, children, fate).Some? ==>
      AllOnNo(NoTries(markets, children, fate).value, markets, children, fate)
  {
    if children != [] {
      assert children == [children[0]] + children[1..];
      NoTriesIff(markets, children[1..], fate);
      HasLegIff(markets[children[0]], false);
      if LegOf(markets[children[0]], false).Some? {
        LegIff(markets[children[0]], false, LegOf(markets[children[0]], false).value);
      }
    }
  }

  /** A reason is given, and the group is there and not mirrored. */
  predicate MaySettle(group: Option<Group>, reason: string) {
    !Blank(reason) && group.Some? && !group.value.mirrored
  }

  predicate CanVoid(markets: map<MarketId, MarketRow>, group: Option<Group>, reason: string)
    requires group.Some? ==> Listed(group.value, markets)
  {
    MaySettle(group, reason) && forall m | m in group.value.children :: HasLeg(markets[m], false)
  }

  /** `void_event` passes its guards exactly then, and tries every child on its NO outcome. */
  lemma VoidTriesIff(markets: map<MarketId, MarketRow>, group: Option<Group>, reason: string, fate: Fate)
    requires group.Some? ==> Listed(group.value, markets)
    ensures var tries := VoidTries(markets, group, reason, fate);
      && (tries.Ok? <==> CanVoid(markets, group, reason))
      && (tries.Ok? ==> AllOnNo(tries.value, markets, group.value.children, fate))
      && (tries == Err(ValueError) <==> !MaySettle(group, reason))
  {
    if group.Some? {
      NoTriesIff(markets, group.value.children, fate);
    }
  }

  predicate Carries(row: MarketRow, outcome: OutcomeId) {
    exists o | o in row.view.outcomes :: o.id == outcome
  }

  /** `winning` is the YES outcome of child `m0`, no other child has it, and every other child has a NO outcome. */
  predicate WinsAt(markets: map<MarketId, MarketRow>, children: seq<MarketId>, winning: OutcomeId, m0: MarketId)
    requires forall m | m in children :: m in markets
  {
    && m0 in children && IsLeg(markets[m0], true, winning)
    && forall m | m in children && m != m0 :: !Carries(markets[m], winning) && HasLeg(markets[m], false)
  }

  predicate CanResolve(markets: map<MarketId, MarketRow>, group: Option<Group>, winning: OutcomeId, reason: string)
    requires group.Some? ==> Listed(group.value, markets)
  {
    && MaySettle(group, reason)
    && exists m0 | m0 in group.value.children :: WinsAt(markets, group.value.children, winning, m0)
  }

  lemma {:induction false} WithoutAbsent(children: seq<MarketId>, m: MarketId)
    requires m !in children
    ensures Without(children, m) == children
  {
    if children != [] {
      assert children == [children[0]] + children[1..];
      WithoutAbsent(children[1..], m);
    }
  }

  lemma {:induction false} WithoutIs(children: seq<MarketId>, k: nat)
    requires k < |children| && forall i, j | 0 <= i < j < |children| :: children[i] != children[j]
    ensures Without(children, children[k]) == children[..k] + children[k + 1..]
  {
    var rest := children[1..];
    assert children == [children[0]] + rest;
    if k == 0 {
      WithoutAbsent(rest, children[0]);
    } else {
      WithoutIs(rest, k - 1);
      assert rest[..k - 1] + rest[k..] == children[1..k] + children[k + 1..];
      assert [children[0]] + children[1..k] == children[..k];
    }
  }

  /** The winning child on its YES outcome first, the others on NO, in the order of the group. */
  predicate WinnerLeads(tries: seq<Attempt>, markets: map<MarketId, MarketRow>, children: seq<MarketId>,
                        winning: OutcomeId, fate: Fate)
    requires forall m | m in children :: m in markets
  {
    && tries != []
    && WinsAt(markets, children, winning, tries[0].market)
    && tries[0] == Attempt(tries[0].market, winning, fate(tries[0].market).0, fate(tries[0].market).1)
    && exists k | 0 <= k < |children| ::
         && children[k] == tries[0].market
         && AllOnNo(tries[1..], markets, children[..k] + children[k + 1..], fate)
  }

  lemma {:induction false} NoHolder(markets: map<MarketId, MarketRow>, children: seq<MarketId>, outcome: OutcomeId)
    requires forall m | m in children :: m in markets && !Carries(markets[m], outcome)
    ensures Holders(markets, children, outcome) == []
  {
    if children != [] {
      assert children == [children[0]] + children[1..];
      NoHolder(markets, children[1..], outcome);
    }
  }

  lemma {:induction false} OneHolder(markets: map<MarketId, MarketRow>, children: seq<MarketId>, outcome: OutcomeId,
                                     m0: MarketId)
    requires forall m | m in children :: m in markets
    requires forall i, j | 0 <= i < j < |children| :: children[i] != children[j]
    requires m0 in children && Carries(markets[m0], outcome)
    requires forall m | m in children && m != m0 :: !Carries(markets[m], outcome)
    ensures Holders(markets, children, outcome) == [m0]
  {
    assert children == [children[0]] + children[1..];
    if children[0] == m0 {
      NoHolder(markets, children[1..], outcome);
    } else {
      OneHolder(markets, children[1..], outcome, m0);
    }
  }

  lemma SoleHolder(markets: map<MarketId, MarketRow>, children: seq<MarketId>, outcome: OutcomeId)
    requires forall m | m in children :: m in markets
    requires |Holders(markets, children, outcome)| == 1
    ensures var m0 := Holders(markets, children, outcome)[0];
      m0 in children && forall m | m in children && m != m0 :: !Carries(markets[m], outcome)
  {
    var holders := Holders(markets, children, outcome);
    assert holders == [holders[0]] && holders[0] in holders;
    forall m | m in children && m != holders[0] ensures !Carries(markets[m], outcome) {
      assert m !in holders;
    }
  }

  lemma TriesAroundIff(markets: map<MarketId, MarketRow>, children: seq<MarketId>, m0: MarketId, winning: OutcomeId,
                       fate: Fate)
    requires m0 in children && forall m | m in children :: m in markets
    requires forall i, j | 0 <= i < j < |children| :: children[i] != children[j]
    requires forall m | m in children && m != m0 :: !Carries(markets[m], winning)
    ensures var tries := TriesAround(markets, children, m0, winning, fate);
      && (tries.Ok? <==> WinsAt(markets, children, winning, m0))
      && (tries.Ok? ==> WinnerLeads(tries.value, markets, children, winning, fate) && tries.value[0].market == m0)
  {
    LegIff(markets[m0], true, winning);
    NoTriesIff(markets, Without(children, m0), fate);
    var tries := TriesAround(markets, children, m0, winning, fate);
    if tries.Ok? {
      assert tries.value[1..] == NoTries(markets, Without(children, m0), fate).value;
      var k :| 0 <= k < |children| && children[k] == m0;
      WithoutIs(children, k);
    }
  }

  /** `resolve_event` passes its guards exactly then, and lists the winning child first. */
  lemma ResolveTriesIff(markets: map<MarketId, MarketRow>, group: Option<Group>, winning: OutcomeId, reason: string,
                        fate: Fate)
    requires group.Some? ==> Listed(group.value, markets)
    ensures var tries := ResolveTries(markets, group, winning, reason, fate);
      && (tries.Ok? <==> CanResolve(markets, group, winning, reason))
      && (tries.Ok? ==> WinnerLeads(tries.value, markets, group.value.children, winning, fate))
  {
    if MaySettle(group, reason) {
      var children := group.value.children;
      if |Holders(markets, children, winning)| == 1 {
        SoleHolder(markets, children, winning);
        TriesAroundIff(markets, children, Holders(markets, children, winning)[0], winning, fate);
      }
      forall m0 | m0 in children && WinsAt(markets, children, winning, m0)
        ensures Holders(markets, children, winning) == [m0]
      {
        CarriesLeg(markets[m0], true, winning);
        OneHolder(markets, children, winning, m0);
      }
    }
  }

  lemma CarriesLeg(row: MarketRow, yes: bool, id: OutcomeId)
    requires IsLeg(row, yes, id)
    ensures Carries(row, id)
  {
    var k :| 0 <= k < |row.view.outcomes| && row.view.outcomes[k] == Outcome(id, yes, row.view.outcomes[k].price);
    assert row.view.outcomes[k] in row.view.outcomes;
  }
}
