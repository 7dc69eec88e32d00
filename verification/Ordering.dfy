/** The order in which the legs of one pass are posted does not matter. */
module Ordering {
  import opened Domain
  import opened Posting
  import opened Lifecycle
  import opened Invariant
  import opened Exactness
  import opened Money

  lemma ConcatSingle(first: seq<Leg>, l: Leg, rest: seq<Leg>)
    requires first != []
    ensures first + [l] + rest == [first[0]] + (first[1..] + [l] + rest)
    ensures first + rest == [first[0]] + (first[1..] + rest)
  {
  }

  lemma MoveToFrontReads(before: seq<Leg>, l: Leg, rest: seq<Leg>, g: Gauge)
    ensures LegsReading(before + [l] + rest, g) == LegsReading([l] + (before + rest), g)
  {
    ReadingConcat(before + [l], rest, g);
    ReadingConcat(before, [l], g);
    ReadingConcat([l], before + rest, g);
    ReadingConcat(before, rest, g);
  }

  lemma {:induction false} MoveToFrontKeys(used: set<Key>, before: seq<Leg>, l: Leg, rest: seq<Leg>)
    ensures FreshKeys(used, before + [l] + rest) <==> FreshKeys(used, [l] + (before + rest))
    decreases before
  {
    if before == [] {
      assert before + [l] + rest == [l] + (before + rest);
    } else {
      var b, tail := before[0], before[1..];
      ConcatSingle(before, l, rest);
      var kb, kl := LegKeys([b]), LegKeys([l]);
      FreshCons(used, b, tail + [l] + rest);
      MoveToFrontKeys(used + kb, tail, l, rest);
      FreshCons(used + kb, l, tail + rest);
      FreshCons(used, l, before + rest);
      FreshCons(used + kl, b, tail + rest);
      assert used + kb + kl == used + kl + kb;
    }
  }

  /** Where an element of one permutation is in the other. */
  lemma SplitAt(xs: seq<Leg>, ys: seq<Leg>) returns (before: seq<Leg>, rest: seq<Leg>)
    requires xs != [] && multiset(xs) == multiset(ys)
    ensures ys == before + [xs[0]] + rest && multiset(xs[1..]) == multiset(before + rest)
  {
    assert xs[0] in multiset(ys);
    var k :| 0 <= k < |ys| && ys[k] == xs[0];
    before, rest := ys[..k], ys[k + 1..];
    assert ys == before + [xs[0]] + rest;
    assert xs == [xs[0]] + xs[1..];
    assert multiset(ys) == multiset(before) + multiset{xs[0]} + multiset(rest);
    assert multiset(xs) == multiset{xs[0]} + multiset(xs[1..]);
    assert multiset(xs[1..]) == multiset(xs) - multiset{xs[0]};
    assert multiset(before + rest) == multiset(ys) - multiset{xs[0]};
  }

  lemma {:induction false} PermutedReads(xs: seq<Leg>, ys: seq<Leg>, g: Gauge)
    requires multiset(xs) == multiset(ys)
    ensures LegsReading(xs, g) == LegsReading(ys, g)
    decreases xs
  {
    if xs == [] {
      assert multiset(ys) == multiset{};
      assert ys == [];
    } else {
      var before, rest := SplitAt(xs, ys);
      PermutedReads(xs[1..], before + rest, g);
      MoveToFrontReads(before, xs[0], rest, g);
    }
  }

  lemma {:induction false} PermutedKeys(used: set<Key>, xs: seq<Leg>, ys: seq<Leg>)
    requires multiset(xs) == multiset(ys)
    ensures FreshKeys(used, xs) <==> FreshKeys(used, ys)
    decreases xs
  {
    if xs == [] {
      assert multiset(ys) == multiset{};
      assert ys == [];
    } else {
      var before, rest := SplitAt(xs, ys);
      MoveToFrontKeys(used, before, xs[0], rest);
      FreshCons(used, xs[0], before + rest);
      FreshCons(used, xs[0], xs[1..]);
      PermutedKeys(used + LegKeys([xs[0]]), xs[1..], before + rest);
      assert xs == [xs[0]] + xs[1..];
    }
  }

  lemma PermutedNet(xs: seq<Leg>, ys: seq<Leg>, a: Account)
    requires multiset(xs) == multiset(ys)
    ensures Net(xs, a) == Net(ys, a)
  {
    NetIsReading(xs, a);
    NetIsReading(ys, a);
    PermutedReads(xs, ys, Book(a));
    PermutedReads(xs, ys, Funded(a));
    PermutedReads(xs, ys, Plain(a));
  }

  lemma SameMembers(xs: seq<Leg>, ys: seq<Leg>)
    requires multiset(xs) == multiset(ys)
    ensures forall l :: l in xs <==> l in ys
  {
    forall l ensures l in xs <==> l in ys {
      assert l in xs <==> l in multiset(xs);
      assert l in ys <==> l in multiset(ys);
    }
  }

  /** Any two orders of the same one-sided legs succeed or fail together, and end with the same balances
      and the same reading of every fold over the journal. */
  lemma OrderDoesNotMatter(b: Books, xs: seq<Leg>, ys: seq<Leg>, ctx: Context)
    requires multiset(xs) == multiset(ys)
    requires OneSided(xs) && Postable(b, xs)
    ensures PostAll(b, xs, ctx).Ok? <==> PostAll(b, ys, ctx).Ok?
    ensures PostAll(b, xs, ctx).Ok? ==> SameReadings(PostAll(b, xs, ctx).value, PostAll(b, ys, ctx).value)
  {
    SameMembers(xs, ys);
    forall i, j | 0 <= i < |ys| && 0 <= j < |ys| ensures ys[i].debit != ys[j].credit {
      assert ys[i] in xs && ys[j] in xs;
    }
    PermutedKeys(KeysOf(b.transfers), xs, ys);
    forall a ensures Net(xs, a) == Net(ys, a) {
      PermutedNet(xs, ys, a);
    }
    assert Covered(b, xs) <==> Covered(b, ys);
    PostAllOkIff(b, xs, ctx);
    PostAllOkIff(b, ys, ctx);
    if PostAll(b, xs, ctx).Ok? {
      PostAllEffect(b, xs, ctx);
      PostAllEffect(b, ys, ctx);
      forall g ensures LegsReading(xs, g) == LegsReading(ys, g) {
        PermutedReads(xs, ys, g);
      }
    }
  }

  /** The same balance on every account and the same total of every gauge. */
  ghost predicate SameReadings(x: Books, y: Books) {
    && (forall a :: Balance(x, a) == Balance(y, a))
    && (forall g :: Total(x.entries, g) == Total(y.entries, g))
    && x.bets == y.bets && x.accounts.Keys == y.accounts.Keys
  }

  /** In particular for a resolution or a reversal, whatever order the bets were scanned in. */
  lemma PassOrderDoesNotMatter(b: Books, vs: seq<Verdict>, dir: Pass, ys: seq<Leg>, ctx: Context)
    requires Valid(b) && InRange(b.bets, vs) && multiset(BatchLegs(b.bets, vs, dir)) == multiset(ys)
    ensures PostAll(b, BatchLegs(b.bets, vs, dir), ctx).Ok? <==> PostAll(b, ys, ctx).Ok?
    ensures PostAll(b, ys, ctx).Ok? ==>
      SameReadings(PostAll(b, BatchLegs(b.bets, vs, dir), ctx).value, PostAll(b, ys, ctx).value)
  {
    BatchOneSided(b.bets, vs, dir);
    BatchPostable(b, vs, dir);
    OrderDoesNotMatter(b, BatchLegs(b.bets, vs, dir), ys, ctx);
  }

  /** And for a cash-out. */
  lemma CloseOrderDoesNotMatter(b: Books, id: BetId, exit: Price, ys: seq<Leg>, ctx: Context)
    requires Valid(b) && id < |b.bets| && b.bets[id].status == Pending && b.bets[id].price > 0
    requires multiset(CloseLegs(id, b.bets[id], exit)) == multiset(ys)
    ensures PostAll(b, CloseLegs(id, b.bets[id], exit), ctx).Ok? <==> PostAll(b, ys, ctx).Ok?
    ensures PostAll(b, ys, ctx).Ok? ==>
      SameReadings(PostAll(b, CloseLegs(id, b.bets[id], exit), ctx).value, PostAll(b, ys, ctx).value)
  {
    CloseFresh(b, id, exit);
    OrderDoesNotMatter(b, CloseLegs(id, b.bets[id], exit), ys, ctx);
  }
}
