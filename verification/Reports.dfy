/** The house P&L aggregate of the admin dashboard (`backend/app/admin/kpi_service.py`). */
module Kpi {
  import opened Domain
  import opened Posting
  import opened Invariant
  import opened Guarantees

  /** `created_at >= lo` and `created_at < hi`, each bound optional. */
  predicate InWindow(t: Time, lo: Option<Time>, hi: Option<Time>) {
    (lo.Some? ==> lo.value <= t) && (hi.Some? ==> t < hi.value)
  }

  function RevenueArm(e: Entry): int {
    if e.transfer.kind == SettleLoss && e.account == HouseRevenue && e.direction == Credit then e.amount
    else if e.transfer.kind == ReverseLoss && e.account == HouseRevenue && e.direction == Debit then -e.amount
    else 0
  }

  function ExpenseArm(e: Entry): int {
    if e.transfer.kind == SettleWinnings && e.account == HousePromo && e.direction == Debit then e.amount
    else if e.transfer.kind == ReverseWinnings && e.account == HousePromo && e.direction == Credit then -e.amount
    else 0
  }

  function Sum(entries: seq<Entry>, arm: Entry -> int, lo: Option<Time>, hi: Option<Time>): int {
    if entries == [] then 0
    else
      var last := entries[|entries| - 1];
      Sum(entries[..|entries| - 1], arm, lo, hi) + if InWindow(last.createdAt, lo, hi) then arm(last) else 0
  }

  function HousePnlBetween(entries: seq<Entry>, lo: Option<Time>, hi: Option<Time>): int {
    Sum(entries, RevenueArm, lo, hi) - Sum(entries, ExpenseArm, lo, hi)
  }

  /** An entry counts in a window exactly when it was written at its start or later and before its end, with the
      sign of what the house won or lost by it. */
  lemma PnlCountsWindow(entries: seq<Entry>, e: Entry, lo: Option<Time>, hi: Option<Time>)
    ensures HousePnlBetween([], lo, hi) == 0
    ensures HousePnlBetween(entries + [e], lo, hi) == HousePnlBetween(entries, lo, hi)
      + if (lo.Some? && e.createdAt < lo.value) || (hi.Some? && hi.value <= e.createdAt) then 0 else PnlOf(e)
  {
    assert (entries + [e])[..|entries|] == entries;
  }

  lemma {:induction false} SumSplits(entries: seq<Entry>, arm: Entry -> int, lo: Option<Time>, mid: Time,
                                     hi: Option<Time>)
    requires (lo.Some? ==> lo.value <= mid) && (hi.Some? ==> mid <= hi.value)
    ensures Sum(entries, arm, lo, hi) == Sum(entries, arm, lo, Some(mid)) + Sum(entries, arm, Some(mid), hi)
  {
    if entries != [] {
      SumSplits(entries[..|entries| - 1], arm, lo, mid, hi);
    }
  }

  /** House P&L is additive over adjacent windows. */
  lemma PnlIsAdditive(entries: seq<Entry>, lo: Option<Time>, mid: Time, hi: Option<Time>)
    requires (lo.Some? ==> lo.value <= mid) && (hi.Some? ==> mid <= hi.value)
    ensures HousePnlBetween(entries, lo, hi) ==
      HousePnlBetween(entries, lo, Some(mid)) + HousePnlBetween(entries, Some(mid), hi)
  {
    SumSplits(entries, RevenueArm, lo, mid, hi);
    SumSplits(entries, ExpenseArm, lo, mid, hi);
  }

  lemma {:induction false} CumulativePnl(entries: seq<Entry>)
    ensures HousePnlBetween(entries, None, None) == Total(entries, HousePnl)
  {
    if entries != [] {
      CumulativePnl(entries[..|entries| - 1]);
    }
  }

  /** No phantom P&L: the cumulative figure, a fold over everything ever posted, is the stakes of the bets
      that are lost now minus the winnings of those that are won now. */
  lemma PnlIsPresentPositions(b: Books)
    requires Valid(b)
    ensures HousePnlBetween(b.entries, None, None) == LostStakes(b.bets) - WonWinnings(b.bets)
  {
    CumulativePnl(b.entries);
    HouseTotals(b.bets);
    assert BetGauge(HousePnl);
  }
}

/** The nightly drift detector (`backend/app/wallet/reconcile.py`). */
module Reconciliation {
  import opened Domain
  import opened Posting
  import opened Invariant

  datatype Drift = Drift(account: Account, balance: int, ledgerSum: int)

  /** SUM(CASE WHEN direction = 'credit' THEN amount ELSE -amount END) of one account. */
  function LedgerSum(entries: seq<Entry>, a: Account): int {
    if entries == [] then 0
    else
      var last := entries[|entries| - 1];
      LedgerSum(entries[..|entries| - 1], a) + if last.account == a then Signed(last) else 0
  }

  predicate Drifts(accounts: map<Account, AccountRow>, entries: seq<Entry>, a: Account) {
    a in accounts && a != HousePromo && accounts[a].balance != LedgerSum(entries, a)
  }

  predicate Reported(accounts: map<Account, AccountRow>, entries: seq<Entry>, d: Drift) {
    && Drifts(accounts, entries, d.account)
    && d.balance == accounts[d.account].balance
    && d.ledgerSum == LedgerSum(entries, d.account)
  }

  /** Over any rows whatsoever: every account but house promo is checked, and exactly those whose cache
      differs from the fold of their entries are reported, once each and with the right figures. */
  method Reconcile(accounts: map<Account, AccountRow>, entries: seq<Entry>) returns (checked: nat, drifts: seq<Drift>)
    ensures checked == |accounts.Keys - {HousePromo}|
    ensures forall a :: Drifts(accounts, entries, a) <==> exists d | d in drifts :: d.account == a
    ensures forall d | d in drifts :: Reported(accounts, entries, d)
    ensures forall i, j | 0 <= i < j < |drifts| :: drifts[i].account != drifts[j].account
  {
    var todo := accounts.Keys - {HousePromo};
    checked := |todo|;
    drifts := [];
    while todo != {}
      invariant todo <= accounts.Keys - {HousePromo}
      invariant forall d | d in drifts :: d.account !in todo && Reported(accounts, entries, d)
      invariant forall a | Drifts(accounts, entries, a) && a !in todo :: exists d | d in drifts :: d.account == a
      invariant forall i, j | 0 <= i < j < |drifts| :: drifts[i].account != drifts[j].account
      decreases todo
    {
      var a :| a in todo;
      var balance, summed := accounts[a].balance, LedgerSum(entries, a);
      ghost var before := drifts;
      if balance - summed != 0 {
        drifts := drifts + [Drift(a, balance, summed)];
        assert drifts[|before|].account == a;
      }
      assert forall d | d in before :: d in drifts;
      todo := todo - {a};
    }
  }

  lemma {:induction false} LedgerSumIsTotal(entries: seq<Entry>, a: Account)
    ensures LedgerSum(entries, a) == Total(entries, Funded(a)) + Total(entries, Plain(a)) + Total(entries, Book(a))
  {
    if entries != [] {
      LedgerSumIsTotal(entries[..|entries| - 1], a);
    }
  }

  /** In every valid state there is nothing to report. */
  lemma NoDrift(b: Books, a: Account)
    requires Valid(b)
    ensures !Drifts(b.accounts, b.entries, a)
  {
    LedgerSumIsTotal(b.entries, a);
    assert Balance(b, a) == Ledger(b.entries, a);
  }
}

/** The sum of all balances never changes. */
module Conservation {
  import opened Domain
  import opened Posting
  import opened Transactions
  import opened Runs

  ghost function SumOver(accounts: map<Account, AccountRow>, s: set<Account>): int
    requires s <= accounts.Keys
    decreases s
  {
    if s == {} then 0
    else
      var a :| a in s;
      accounts[a].balance + SumOver(accounts, s - {a})
  }

  lemma {:induction false} SumRemove(accounts: map<Account, AccountRow>, s: set<Account>, a: Account)
    requires s <= accounts.Keys && a in s
    ensures SumOver(accounts, s) == accounts[a].balance + SumOver(accounts, s - {a})
    decreases s
  {
    var c :| c in s && SumOver(accounts, s) == accounts[c].balance + SumOver(accounts, s - {c});
    if c != a {
      SumRemove(accounts, s - {c}, a);
      SumRemove(accounts, s - {a}, c);
      assert s - {c} - {a} == s - {a} - {c};
    }
  }

  lemma {:induction false} SumFrame(before: map<Account, AccountRow>, after: map<Account, AccountRow>, s: set<Account>)
    requires s <= before.Keys && s <= after.Keys
    requires forall a | a in s :: after[a].balance == before[a].balance
    ensures SumOver(after, s) == SumOver(before, s)
    decreases s
  {
    if s != {} {
      var a :| a in s;
      SumRemove(before, s, a);
      SumRemove(after, s, a);
      SumFrame(before, after, s - {a});
    }
  }

  lemma SumUpdate(accounts: map<Account, AccountRow>, s: set<Account>, a: Account, row: AccountRow)
    requires s <= accounts.Keys && a in s
    ensures SumOver(accounts[a := row], s) == SumOver(accounts, s) - accounts[a].balance + row.balance
  {
    var after := accounts[a := row];
    SumRemove(accounts, s, a);
    SumRemove(after, s, a);
    SumFrame(accounts, after, s - {a});
  }

  lemma MoveConserves(accounts: map<Account, AccountRow>, leg: Leg)
    requires leg.debit in accounts && leg.credit in accounts
    ensures Move(accounts, leg).Keys == accounts.Keys
    ensures SumOver(Move(accounts, leg), accounts.Keys) == SumOver(accounts, accounts.Keys)
  {
    var s := accounts.Keys;
    var row := AccountRow(accounts[leg.debit].balance - leg.amount, accounts[leg.debit].version + 1);
    var debited := accounts[leg.debit := row];
    assert debited.Keys == s;
    SumUpdate(accounts, s, leg.debit, row);
    SumUpdate(debited, s, leg.credit, debited[leg.credit].(balance := debited[leg.credit].balance + leg.amount));
  }

  ghost function Wealth(b: Books): int {
    SumOver(b.accounts, b.accounts.Keys)
  }

  lemma {:induction false} PostingConserves(b: Books, legs: seq<Leg>, ctx: Context)
    requires PostAll(b, legs, ctx).Ok?
    ensures Wealth(PostAll(b, legs, ctx).value) == Wealth(b)
    decreases legs
  {
    if legs != [] {
      MoveConserves(b.accounts, legs[0]);
      PostingConserves(PostLeg(b, legs[0], ctx).value, legs[1..], ctx);
    }
  }

  lemma OpeningConserves(b: Books, a: Account)
    ensures Wealth(WithAccount(b, a)) == Wealth(b)
  {
    if a !in b.accounts {
      var after := WithAccount(b, a).accounts;
      SumRemove(after, after.Keys, a);
      assert after.Keys - {a} == b.accounts.Keys;
      SumFrame(b.accounts, after, b.accounts.Keys);
    }
  }

  lemma StepConserves(b: Books, e: Event)
    requires Enabled(b, e.op)
    ensures Wealth(Next(b, e)) == Wealth(b)
  {
    if Step(b, e).Ok? {
      if StepLegs(b, e) != [] {
        StepIsPosting(b, e);
        PostingConserves(b, StepLegs(b, e), StepContext(e));
      } else if e.op.OpenWallet? {
        OpeningConserves(b, Wallet(e.op.owner));
      } else if e.op.EnsurePool? {
        OpeningConserves(b, Liability(e.op.pool));
      } else {
        assert Next(b, e).accounts == b.accounts;
      }
    }
  }

  /** In every reachable state all balances together are the seed of house promo. */
  lemma {:induction false} RunConserves(states: seq<Books>, events: seq<Event>, k: nat)
    requires IsRun(states, events) && k < |states|
    ensures Wealth(states[k]) == OPENING_PROMO
  {
    if k == 0 {
      var accounts := Seeded().accounts;
      SumRemove(accounts, accounts.Keys, HousePromo);
      assert accounts.Keys - {HousePromo} == {HouseRevenue};
      SumRemove(accounts, {HouseRevenue}, HouseRevenue);
      assert {HouseRevenue} - {HouseRevenue} == {};
    } else {
      RunConserves(states, events, k - 1);
      StepConserves(states[k - 1], events[k - 1]);
    }
  }
}
