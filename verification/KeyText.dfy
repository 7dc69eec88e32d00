/** The text of the idempotency keys, as stored in transfers.idempotency_key. */
module KeyText {
  import opened Domain

  function LegText(leg: LegName): string {
    match leg case StakeLeg => "stake" case WinLeg => "win" case LossLeg => "loss"
  }

  /** The text of an id: UUIDs have 36 characters, and different ids have different texts. */
  ghost predicate ShowsIds(show: nat -> string) {
    && (forall i :: |show(i)| == 36)
    && (forall i, j :: show(i) == show(j) ==> i == j)
  }

  function Text(show: nat -> string, k: Key): string {
    match k
    case SettleKey(i, leg) => "settle:" + show(i) + ":" + LegText(leg)
    case ReverseKey(i, leg) => "reverse:" + show(i) + ":" + LegText(leg)
    case CloseKey(i, leg) => "close:" + show(i) + ":" + LegText(leg)
    case BonusKey(u) => "bonus:" + show(u)
    case ClientKey(text) => text
  }

  predicate InNamespace(text: string) {
    "settle:" <= text || "reverse:" <= text || "close:" <= text || "bonus:" <= text
  }

  function Namespace(k: Key): string {
    match k
    case SettleKey(_, _) => "settle:"
    case ReverseKey(_, _) => "reverse:"
    case CloseKey(_, _) => "close:"
    case BonusKey(_) => "bonus:"
    case ClientKey(_) => ""
  }

  lemma NamespacesApart(show: nat -> string, j: Key, k: Key)
    requires Text(show, j) == Text(show, k)
    requires !j.ClientKey? && !k.ClientKey?
    ensures Namespace(j) == Namespace(k)
  {
    assert Text(show, j)[0] == Namespace(j)[0] && Text(show, k)[0] == Namespace(k)[0];
  }

  lemma SplitFixed(a: string, b: string, x: string, y: string)
    requires |a| == |b| && a + x == b + y
    ensures a == b && x == y
  {
    assert (a + x)[..|a|] == a && (b + y)[..|b|] == b;
    assert (a + x)[|a|..] == x && (b + y)[|b|..] == y;
  }

  lemma LegTextsApart(j: LegName, k: LegName)
    requires LegText(j) == LegText(k)
    ensures j == k
  {
  }

  lemma TaggedTextsApart(show: nat -> string, space: string, i: nat, x: LegName, j: nat, y: LegName)
    requires ShowsIds(show)
    requires space + show(i) + ":" + LegText(x) == space + show(j) + ":" + LegText(y)
    ensures i == j && x == y
  {
    assert space + show(i) + ":" + LegText(x) == space + (show(i) + (":" + LegText(x)));
    assert space + show(j) + ":" + LegText(y) == space + (show(j) + (":" + LegText(y)));
    SplitFixed(space, space, show(i) + (":" + LegText(x)), show(j) + (":" + LegText(y)));
    SplitFixed(show(i), show(j), ":" + LegText(x), ":" + LegText(y));
    SplitFixed(":", ":", LegText(x), LegText(y));
    LegTextsApart(x, y);
  }

  /** Two keys have the same text exactly when they are the same key, unless a client chose a key
      inside the services' namespaces: the unique constraint on texts is uniqueness of keys. */
  lemma SameTextIffSameKey(show: nat -> string, j: Key, k: Key)
    requires ShowsIds(show)
    requires j.ClientKey? ==> !InNamespace(j.text)
    requires k.ClientKey? ==> !InNamespace(k.text)
    ensures Text(show, j) == Text(show, k) <==> j == k
  {
    if Text(show, j) == Text(show, k) {
      if j.ClientKey? || k.ClientKey? {
        PrefixedByNamespace(show, j);
        PrefixedByNamespace(show, k);
      } else {
        NamespacesApart(show, j, k);
        if j.BonusKey? {
          SplitFixed("bonus:", "bonus:", show(j.user), show(k.user));
        } else {
          TaggedTextsApart(show, Namespace(j), j.bet, j.leg, k.bet, k.leg);
        }
      }
    }
  }

  lemma PrefixedByNamespace(show: nat -> string, k: Key)
    ensures !k.ClientKey? ==> InNamespace(Text(show, k))
  {
  }
}
