/** The shape of the journal: every transfer is one debit and one credit of the same amount, and the
    version of an account counts its debits. */
module Journal {
  import opened Domain
  import opened Posting
  import opened Transactions
  import opened Runs

  /** The two entries of the `k`-th transfer. */
  ghost predicate Balanced(b: Books, k: nat)
    requires k < |b.transfers| && |b.entries| == 2 * |b.transfers|
  {
    var t, d, c := b.transfers[k], b.entries[2 * k], b.entries[2 * k + 1];
    && t.id == k && d.transfer == t == c.transfer
    && d.direction == Debit && c.direction == Credit
    && d.amount == c.amount > 0
    && d.createdAt == c.createdAt
    && d.account in b.accounts && c.account in b.accounts
  }

  ghost predicate DoubleEntry(b: Books) {
    && |b.entries| == 2 * |b.transfers|
    && forall k | 0 <= k < |b.transfers| :: Balanced(b, k)
  }

  function Debits(entries: seq<Entry>, a: Account): nat {
    if entries == [] then 0
    else
      var last := entries[|entries| - 1];
      Debits(entries[..|entries| - 1], a) + if last.account == a && last.direction == Debit then 1 else 0
  }

  function Version(b: Books, a: Account): nat {
    if a in b.accounts then b.accounts[a].version else 0
  }

  ghost predicate Versioned(b: Books) {
    forall a: Account :: Version(b, a) == Debits(b.entries, a)
  }

  lemma PostLegKeepsShape(b: Books, leg: Leg, ctx: Context)
    requires DoubleEntry(b) && PostLeg(b, leg, ctx).Ok?
    ensures DoubleEntry(PostLeg(b, leg, ctx).value)
  {
    var after := PostLeg(b, leg, ctx).value;
    forall k | 0 <= k < |after.transfers| ensures Balanced(after, k) {
      if k < |b.transfers| {
        assert Balanced(b, k);
        assert after.transfers[k] == b.transfers[k];
        assert after.entries[2 * k] == b.entries[2 * k] && after.entries[2 * k + 1] == b.entries[2 * k + 1];
      }
    }
  }

  lemma DebitsSnoc(entries: seq<Entry>, e: Entry, a: Account)
    ensures Debits(entries + [e], a) == Debits(entries, a) + if e.account == a && e.direction == Debit then 1 else 0
  {
    assert (entries + [e])[..|entries|] == entries;
  }

  lemma PostLegKeepsVersions(b: Books, leg: Leg, ctx: Context)
    requires Versioned(b) && PostLeg(b, leg, ctx).Ok?
    ensures Versioned(PostLeg(b, leg, ctx).value)
  {
    var after := PostLeg(b, leg, ctx).value;
    var es := EntriesOf(leg, TransferOf(leg, |b.transfers|, ctx), ctx);
    assert after.entries == b.entries + [es[0]] + [es[1]];
    forall a: Account ensures Version(after, a) == Debits(after.entries, a) {
      DebitsSnoc(b.entries, es[0], a);
      DebitsSnoc(b.entries + [es[0]], es[1], a);
      assert Version(after, a) == Version(b, a) + if a == leg.debit then 1 else 0;
    }
  }

  lemma {:induction false} PostAllKeepsJournal(b: Books, legs: seq<Leg>, ctx: Context)
    requires DoubleEntry(b) && Versioned(b) && PostAll(b, legs, ctx).Ok?
    ensures DoubleEntry(PostAll(b, legs, ctx).value) && Versioned(PostAll(b, legs, ctx).value)
    decreases legs
  {
    if legs != [] {
      PostLegKeepsShape(b, legs[0], ctx);
      PostLegKeepsVersions(b, legs[0], ctx);
      PostAllKeepsJournal(PostLeg(b, legs[0], ctx).value, legs[1..], ctx);
    }
  }

  lemma BetsAreNotJournal(b: Books, bets: seq<Bet>)
    requires DoubleEntry(b) && Versioned(b)
    ensures DoubleEntry(b.(bets := bets)) && Versioned(b.(bets := bets))
  {
    var after := b.(bets := bets);
    forall k | 0 <= k < |after.transfers| ensures Balanced(after, k) {
      assert Balanced(b, k);
    }
    forall a: Account ensures Version(after, a) == Debits(after.entries, a) {
      assert Version(after, a) == Version(b, a);
    }
  }

  lemma NewAccountKeepsJournal(b: Books, a: Account)
    requires DoubleEntry(b) && Versioned(b)
    ensures DoubleEntry(WithAccount(b, a)) && Versioned(WithAccount(b, a))
  {
    var after := WithAccount(b, a);
    forall k | 0 <= k < |after.transfers| ensures Balanced(after, k) {
      assert Balanced(b, k);
    }
    forall c: Account ensures Version(after, c) == Debits(after.entries, c) {
      assert Version(after, c) == Version(b, c);
    }
  }

  lemma StepKeepsJournal(b: Books, e: Event)
    requires DoubleEntry(b) && Versioned(b) && Enabled(b, e.op)
    ensures DoubleEntry(Next(b, e)) && Versioned(Next(b, e))
  {
    if Step(b, e).Ok? {
      var legs := StepLegs(b, e);
      if legs != [] {
        StepIsPosting(b, e);
        PostAllKeepsJournal(b, legs, StepContext(e));
        BetsAreNotJournal(PostAll(b, legs, StepContext(e)).value, Next(b, e).bets);
      } else if e.op.OpenWallet? {
        NewAccountKeepsJournal(b, Wallet(e.op.owner));
      } else if e.op.EnsurePool? {
        NewAccountKeepsJournal(b, Liability(e.op.pool));
      } else {
        BetsAreNotJournal(b, Next(b, e).bets);
        assert Next(b, e) == b.(bets := Next(b, e).bets);
      }
    }
  }

  /** In every reachable state the journal is double-entry: transfer `k` owns entries `2k` and `2k + 1`, a
      debit and a credit of one positive amount, and each account's version is the number of its debits. */
  lemma {:induction false} RunKeepsJournal(states: seq<Books>, events: seq<Event>, k: nat)
    requires IsRun(states, events) && k < |states|
    ensures DoubleEntry(states[k]) && Versioned(states[k])
  {
    if k > 0 {
      RunKeepsJournal(states, events, k - 1);
      StepKeepsJournal(states[k - 1], events[k - 1]);
    }
  }
}
