/**
 * Blackjack rounds reproduced from the revealed seed. The HMAC is an arbitrary function from a
 * deck position to its first sixteen bits; a log maps positions to hands.
 */
module Blackjack {
  import opened Sums

  type Word = w: nat | w < 0x1_0000

  /** `rank` 0 is the ace, 9 to 12 are the ten-valued ranks. */
  datatype Card = Card(rank: nat, suit: nat)

  datatype Key = Seat(seat: nat, handId: nat) | Dealer(handId: nat)

  datatype Draw = Draw(deckIndex: nat, key: Key)

  datatype Hand = Hand(key: Key, cards: seq<Card>)

  function CardAt(hash: nat -> Word, i: nat): (c: Card)
    ensures c.rank < 13 && c.suit < 4 && c.rank + 13 * c.suit == hash(i) % 52
  {
    var n := hash(i) % 52;
    Card(n % 13, n / 13)
  }

  function CardsAt(hash: nat -> Word, indices: seq<nat>): (cards: seq<Card>)
    ensures |cards| == |indices| && forall k | 0 <= k < |cards| :: cards[k] == CardAt(hash, indices[k])
  {
    seq(|indices|, k requires 0 <= k < |indices| => CardAt(hash, indices[k]))
  }

  method Deal(hash: nat -> Word, count: nat) returns (cards: seq<Card>)
    ensures |cards| == count && forall i | 0 <= i < count :: cards[i] == CardAt(hash, i)
  {
    cards := [];
    for i := 0 to count
      invariant |cards| == i && forall k | 0 <= k < i :: cards[k] == CardAt(hash, k)
    {
      var n := hash(i) % 52;
      cards := cards + [Card(n % 13, n / 13)];
    }
  }

  // ---- The library sort: stable, by deck index ------------------------------------------

  predicate Ordered(log: seq<Draw>) {
    forall i, j | 0 <= i < j < |log| :: log[i].deckIndex <= log[j].deckIndex
  }

  /** No deck position is given to two hands. */
  predicate Unambiguous(log: seq<Draw>) {
    forall d, e | d in log && e in log && d.deckIndex == e.deckIndex :: d == e
  }

  function Insert(log: seq<Draw>, d: Draw): seq<Draw> {
    if log == [] || log[|log| - 1].deckIndex <= d.deckIndex then log + [d]
    else Insert(log[..|log| - 1], d) + [log[|log| - 1]]
  }

  function Sorted(log: seq<Draw>): seq<Draw> {
    if log == [] then [] else Insert(Sorted(log[..|log| - 1]), log[|log| - 1])
  }

  lemma {:induction false} InsertKeeps(log: seq<Draw>, d: Draw)
    ensures multiset(Insert(log, d)) == multiset(log) + multiset{d}
    ensures |Insert(log, d)| == |log| + 1
    ensures forall e :: e in Insert(log, d) <==> e in log || e == d
    decreases |log|
  {
    if log != [] && log[|log| - 1].deckIndex > d.deckIndex {
      InsertKeeps(log[..|log| - 1], d);
      assert log == log[..|log| - 1] + [log[|log| - 1]];
    }
  }

  lemma {:induction false} InsertOrders(log: seq<Draw>, d: Draw)
    requires Ordered(log)
    ensures Ordered(Insert(log, d))
    decreases |log|
  {
    if log != [] && log[|log| - 1].deckIndex > d.deckIndex {
      var n := |log| - 1;
      InsertOrders(log[..n], d);
      InsertKeeps(log[..n], d);
      var r := Insert(log[..n], d);
      assert forall i | 0 <= i < |r| :: r[i] in r;
    }
  }

  lemma {:induction false} SortedKeeps(log: seq<Draw>)
    ensures multiset(Sorted(log)) == multiset(log) && |Sorted(log)| == |log| && Ordered(Sorted(log))
    ensures forall e :: e in Sorted(log) <==> e in log
    decreases |log|
  {
    if log != [] {
      var n := |log| - 1;
      SortedKeeps(log[..n]);
      InsertKeeps(Sorted(log[..n]), log[n]);
      InsertOrders(Sorted(log[..n]), log[n]);
      assert log == log[..n] + [log[n]];
    }
  }

  // ---- Hands in first-seen order --------------------------------------------------------

  function Keys(log: seq<Draw>): seq<Key> {
    if log == [] then []
    else
      var before := Keys(log[..|log| - 1]);
      if log[|log| - 1].key in before then before else before + [log[|log| - 1].key]
  }

  function IndicesOf(log: seq<Draw>, key: Key): seq<nat> {
    if log == [] then []
    else IndicesOf(log[..|log| - 1], key) + (if log[|log| - 1].key == key then [log[|log| - 1].deckIndex] else [])
  }

  /** What a table's log says each hand was dealt. */
  function Hands(hash: nat -> Word, log: seq<Draw>): (hands: seq<Hand>)
    ensures |hands| == |Keys(log)|
    ensures forall k | 0 <= k < |hands| ::
              hands[k] == Hand(Keys(log)[k], CardsAt(hash, IndicesOf(log, Keys(log)[k])))
  {
    seq(|Keys(log)|, k requires 0 <= k < |Keys(log)| =>
      Hand(Keys(log)[k], CardsAt(hash, IndicesOf(log, Keys(log)[k]))))
  }

  lemma {:induction false} KeysAreSeenOnce(log: seq<Draw>)
    ensures forall i, j | 0 <= i < j < |Keys(log)| :: Keys(log)[i] != Keys(log)[j]
    ensures forall key :: key in Keys(log) <==> IndicesOf(log, key) != []
    ensures forall d | d in log :: d.key in Keys(log) && d.deckIndex in IndicesOf(log, d.key)
    decreases |log|
  {
    if log != [] {
      var n := |log| - 1;
      KeysAreSeenOnce(log[..n]);
      assert log == log[..n] + [log[n]];
    }
  }

  /** The slot of a key already seen, or one past the end. */
  method Find(hands: seq<Hand>, key: Key) returns (k: nat)
    ensures k <= |hands| && (k < |hands| ==> hands[k].key == key)
    ensures forall j | 0 <= j < k :: hands[j].key != key
  {
    k := 0;
    while k < |hands| && hands[k].key != key
      invariant k <= |hands| && forall j | 0 <= j < k :: hands[j].key != key
    {
      k := k + 1;
    }
  }

  method MaxIndex(log: seq<Draw>) returns (m: nat)
    ensures forall i | 0 <= i < |log| :: log[i].deckIndex <= m
  {
    m := 0;
    for i := 0 to |log|
      invariant forall j | 0 <= j < i :: log[j].deckIndex <= m
    {
      if log[i].deckIndex > m {
        m := log[i].deckIndex;
      }
    }
  }

  lemma OneMoreIndex(hash: nat -> Word, log: seq<Draw>, d: Draw, key: Key)
    ensures CardsAt(hash, IndicesOf(log + [d], key))
         == CardsAt(hash, IndicesOf(log, key)) + (if key == d.key then [CardAt(hash, d.deckIndex)] else [])
  {
    assert (log + [d])[..|log + [d]| - 1] == log;
  }

  function Dealt(hands: seq<Hand>, k: nat, key: Key, card: Card): seq<Hand>
    requires k <= |hands|
  {
    if k < |hands| then hands[k := Hand(key, hands[k].cards + [card])] else hands + [Hand(key, [card])]
  }

  lemma OneMoreDraw(hash: nat -> Word, log: seq<Draw>, d: Draw, k: nat)
    requires k <= |Keys(log)| && (k < |Keys(log)| ==> Keys(log)[k] == d.key)
    requires forall j | 0 <= j < k :: Keys(log)[j] != d.key
    ensures Hands(hash, log + [d]) == Dealt(Hands(hash, log), k, d.key, CardAt(hash, d.deckIndex))
  {
    var more := log + [d];
    assert more[..|more| - 1] == log;
    KeysAreSeenOnce(log);
    assert k == |Keys(log)| ==> d.key !in Keys(log);
    assert k == |Keys(log)| ==> IndicesOf(log, d.key) == [];
    assert Keys(more) == if k < |Keys(log)| then Keys(log) else Keys(log) + [d.key];
    hide Keys, IndicesOf, CardAt;
    forall j | 0 <= j < |Keys(more)|
      ensures Hands(hash, more)[j] == Dealt(Hands(hash, log), k, d.key, CardAt(hash, d.deckIndex))[j]
    {
      OneMoreIndex(hash, log, d, Keys(more)[j]);
      assert j != k ==> Keys(more)[j] != d.key;
    }
  }

  lemma SortedWithin(log: seq<Draw>, m: nat)
    requires forall i | 0 <= i < |log| :: log[i].deckIndex <= m
    ensures forall i | 0 <= i < |Sorted(log)| :: Sorted(log)[i].deckIndex <= m
  {
    SortedKeeps(log);
    assert forall i | 0 <= i < |Sorted(log)| :: Sorted(log)[i] in log;
  }

  /** The map's get-or-create, then the push. */
  method Place(hands: seq<Hand>, key: Key, card: Card) returns (more: seq<Hand>, ghost k: nat)
    ensures k <= |hands| && (k < |hands| ==> hands[k].key == key)
    ensures forall j | 0 <= j < k :: hands[j].key != key
    ensures more == Dealt(hands, k, key, card)
  {
    var slot := Find(hands, key);
    k := slot;
    more := hands;
    if slot == |hands| {
      more := more + [Hand(key, [])];
    }
    more := more[slot := Hand(key, more[slot].cards + [card])];
    assert slot == |hands| ==> more == hands + [Hand(key, [card])] by {
      assert [] + [card] == [card];
    }
  }

  method ReproduceRound(hash: nat -> Word, dealOrder: seq<Draw>) returns (hands: seq<Hand>)
    ensures hands == Hands(hash, Sorted(dealOrder))
  {
    hands := [];
    NoHands(hash);
    if dealOrder == [] {
      return;
    }
    var maxIndex := MaxIndex(dealOrder);
    var stream := Deal(hash, maxIndex + 1);
    var log := Sorted(dealOrder);
    SortedWithin(dealOrder, maxIndex);
    hide Keys, IndicesOf, Sorted, CardAt, CardsAt, Dealt;
    for i := 0 to |log|
      invariant hands == Hands(hash, log[..i])
    {
      var d := log[i];
      assert stream[d.deckIndex] == CardAt(hash, d.deckIndex);
      ghost var k;
      hands, k := Place(hands, d.key, stream[d.deckIndex]);
      OneMoreDraw(hash, log[..i], d, k);
      assert log[..i + 1] == log[..i] + [d];
    }
    assert log[..|log|] == log;
  }

  lemma NoHands(hash: nat -> Word)
    ensures Hands(hash, []) == []
  {
  }

  method ReproduceHand(hash: nat -> Word, deckIndices: seq<nat>) returns (cards: seq<Card>)
    ensures cards == CardsAt(hash, deckIndices)
  {
    if deckIndices == [] {
      return [];
    }
    var m := 0;
    for i := 0 to |deckIndices|
      invariant forall j | 0 <= j < i :: deckIndices[j] <= m
    {
      if deckIndices[i] > m {
        m := deckIndices[i];
      }
    }
    var stream := Deal(hash, m + 1);
    cards := seq(|deckIndices|, k requires 0 <= k < |deckIndices| => stream[deckIndices[k]]);
  }

  // ---- What the reproduction promises ---------------------------------------------------

  lemma {:induction false} IndicesInOrder(log: seq<Draw>, key: Key)
    requires Ordered(log)
    ensures forall i, j | 0 <= i < j < |IndicesOf(log, key)| :: IndicesOf(log, key)[i] <= IndicesOf(log, key)[j]
    ensures log != [] ==> forall i | 0 <= i < |IndicesOf(log, key)| :: IndicesOf(log, key)[i] <= log[|log| - 1].deckIndex
    decreases |log|
  {
    if log != [] {
      IndicesInOrder(log[..|log| - 1], key);
    }
  }

  /** How many of a hand's draws carry this deck index. */
  lemma {:induction false} IndicesCount(log: seq<Draw>, key: Key, i: nat)
    ensures multiset(IndicesOf(log, key))[i] == multiset(log)[Draw(i, key)]
    decreases |log|
  {
    if log != [] {
      var n := |log| - 1;
      IndicesCount(log[..n], key, i);
      assert log == log[..n] + [log[n]];
    }
  }

  lemma SameIndices(a: seq<Draw>, b: seq<Draw>, key: Key)
    requires multiset(a) == multiset(b)
    ensures multiset(IndicesOf(a, key)) == multiset(IndicesOf(b, key))
  {
    forall i: nat ensures multiset(IndicesOf(a, key))[i] == multiset(IndicesOf(b, key))[i] {
      IndicesCount(a, key, i);
      IndicesCount(b, key, i);
    }
  }

  /**
   * No card is lost, duplicated or moved to another hand: each hand of the log appears once, with
   * exactly the deck positions the log gave it, in deck order.
   */
  lemma RoundIsFaithful(hash: nat -> Word, dealOrder: seq<Draw>)
    ensures var hands := Hands(hash, Sorted(dealOrder));
      && (forall i, j | 0 <= i < j < |hands| :: hands[i].key != hands[j].key)
      && (forall d | d in dealOrder :: exists k :: 0 <= k < |hands| && hands[k].key == d.key)
      && (forall k | 0 <= k < |hands| ::
            var indices := IndicesOf(Sorted(dealOrder), hands[k].key);
            && hands[k].cards == CardsAt(hash, indices) && indices != []
            && (forall i, j | 0 <= i < j < |indices| :: indices[i] <= indices[j])
            && multiset(indices) == multiset(IndicesOf(dealOrder, hands[k].key)))
  {
    var log := Sorted(dealOrder);
    SortedKeeps(dealOrder);
    KeysAreSeenOnce(log);
    var hands := Hands(hash, log);
    forall d | d in dealOrder ensures exists k :: 0 <= k < |hands| && hands[k].key == d.key {
      assert d in log && d.key in Keys(log);
      var k :| 0 <= k < |Keys(log)| && Keys(log)[k] == d.key;
      assert hands[k].key == d.key;
    }
    forall k | 0 <= k < |hands|
      ensures IndicesOf(log, hands[k].key) != []
      ensures var s := IndicesOf(log, hands[k].key); forall i, j | 0 <= i < j < |s| :: s[i] <= s[j]
      ensures multiset(IndicesOf(log, hands[k].key)) == multiset(IndicesOf(dealOrder, hands[k].key))
    {
      assert hands[k].key in Keys(log);
      IndicesInOrder(log, hands[k].key);
      SameIndices(log, dealOrder, hands[k].key);
    }
    hide Keys, IndicesOf, Sorted;
  }

  function Sizes(hands: seq<Hand>): (sizes: seq<int>)
    ensures |sizes| == |hands|
  {
    seq(|hands|, k requires 0 <= k < |hands| => |hands[k].cards|)
  }

  lemma DealtSizes(hands: seq<Hand>, k: nat, key: Key, card: Card)
    requires k <= |hands|
    ensures Total(Sizes(Dealt(hands, k, key, card))) == Total(Sizes(hands)) + 1
  {
    var xs, ys := Sizes(hands), Sizes(Dealt(hands, k, key, card));
    hide Total;
    if k < |hands| {
      TotalPoint(xs, ys, k, 1);
    } else {
      assert ys == xs + [1];
      TotalAppend(xs, 1);
    }
  }

  lemma SlotOf(log: seq<Draw>, key: Key) returns (k: nat)
    ensures k <= |Keys(log)| && (k < |Keys(log)| ==> Keys(log)[k] == key)
    ensures forall j | 0 <= j < k :: Keys(log)[j] != key
  {
    k := 0;
    while k < |Keys(log)| && Keys(log)[k] != key
      invariant k <= |Keys(log)| && forall j | 0 <= j < k :: Keys(log)[j] != key
    {
      k := k + 1;
    }
  }

  /** As many cards in the hands as draws in the log. */
  lemma {:induction false} CardsAddUp(hash: nat -> Word, log: seq<Draw>)
    ensures Total(Sizes(Hands(hash, log))) == |log|
    decreases |log|
  {
    if log == [] {
      NoHands(hash);
      assert Sizes(Hands(hash, log)) == [];
    } else {
      var front, d := log[..|log| - 1], log[|log| - 1];
      CardsAddUp(hash, front);
      assert log == front + [d];
      var k := SlotOf(front, d.key);
      OneMoreDraw(hash, front, d, k);
      DealtSizes(Hands(hash, front), k, d.key, CardAt(hash, d.deckIndex));
    }
  }

  // ---- Exactly when the order of the log shows ------------------------------------------

  /** No draw of `d`'s hand comes from an earlier deck position. */
  predicate Opens(log: seq<Draw>, d: Draw) {
    forall e | e in log && e.key == d.key :: d.deckIndex <= e.deckIndex
  }

  /** Two hands open with the same deck position. */
  predicate SameOpening(log: seq<Draw>) {
    exists d, e :: d in log && e in log && Tie(log, d, e)
  }

  predicate Tie(log: seq<Draw>, d: Draw, e: Draw) {
    d.key != e.key && d.deckIndex == e.deckIndex && Opens(log, d) && Opens(log, e)
  }

  lemma {:induction false} KeysByOpening(log: seq<Draw>)
    requires Ordered(log)
    ensures forall key | key in Keys(log) :: IndicesOf(log, key) != []
    ensures forall i, j | 0 <= i < j < |Keys(log)| ::
              IndicesOf(log, Keys(log)[i])[0] <= IndicesOf(log, Keys(log)[j])[0]
    decreases |log|
  {
    KeysAreSeenOnce(log);
    if log != [] {
      var n := |log| - 1;
      var front := log[..n];
      KeysByOpening(front);
      KeysAreSeenOnce(front);
      forall key | key in Keys(front)
        ensures IndicesOf(log, key)[0] == IndicesOf(front, key)[0] <= log[n].deckIndex
      {
        IndicesInOrder(log, key);
      }
      assert log[n].key !in Keys(front) ==> IndicesOf(log, log[n].key)[0] == log[n].deckIndex;
    }
  }

  predicate Ascending(s: seq<nat>) {
    forall i, j | 0 <= i < j < |s| :: s[i] <= s[j]
  }

  lemma LastIsGreatest(s: seq<nat>, t: seq<nat>)
    requires Ascending(s) && Ascending(t) && multiset(s) == multiset(t) && |s| == |t| > 0
    ensures s[|s| - 1] == t[|s| - 1]
  {
    var n := |s| - 1;
    assert s[n] in multiset(t) && t[n] in multiset(s);
    var i :| 0 <= i < |t| && t[i] == s[n];
    var j :| 0 <= j < |s| && s[j] == t[n];
    assert t[i] <= t[n] && s[j] <= s[n];
  }

  lemma ShorterAscending(s: seq<nat>)
    requires Ascending(s) && s != []
    ensures Ascending(s[..|s| - 1]) && s == s[..|s| - 1] + [s[|s| - 1]]
    ensures multiset(s[..|s| - 1]) == multiset(s) - multiset{s[|s| - 1]}
  {
    assert s == s[..|s| - 1] + [s[|s| - 1]];
  }

  lemma SameLength(s: seq<nat>, t: seq<nat>)
    requires multiset(s) == multiset(t)
    ensures |s| == |t|
  {
    assert |s| == |multiset(s)| == |multiset(t)| == |t|;
  }

  lemma {:induction false} AscendingUnique(s: seq<nat>, t: seq<nat>)
    requires Ascending(s) && Ascending(t) && multiset(s) == multiset(t)
    ensures s == t
    decreases |s|
  {
    SameLength(s, t);
    if s != [] {
      LastIsGreatest(s, t);
      ShorterAscending(s);
      ShorterAscending(t);
      hide Ascending;
      AscendingUnique(s[..|s| - 1], t[..|s| - 1]);
    }
  }

  predicate Rising(keys: seq<Key>, f: Key -> int) {
    forall i, j | 0 <= i < j < |keys| :: f(keys[i]) < f(keys[j])
  }

  lemma ShorterRising(keys: seq<Key>, f: Key -> int)
    requires Rising(keys, f) && keys != []
    ensures var n := |keys| - 1;
      Rising(keys[..n], f) && forall key :: key in keys[..n] <==> key in keys && key != keys[n]
  {
    var n := |keys| - 1;
    assert keys == keys[..n] + [keys[n]];
    assert forall i | 0 <= i < n :: f(keys[i]) < f(keys[n]);
  }

  lemma LastKeySame(a: seq<Key>, b: seq<Key>, f: Key -> int)
    requires Rising(a, f) && Rising(b, f) && a != [] && b != [] && forall key :: key in a <==> key in b
    ensures a[|a| - 1] == b[|b| - 1]
  {
    assert a[|a| - 1] in b && b[|b| - 1] in a;
    var i :| 0 <= i < |b| && b[i] == a[|a| - 1];
    var j :| 0 <= j < |a| && a[j] == b[|b| - 1];
  }

  lemma EmptyTogether(a: seq<Key>, b: seq<Key>)
    requires forall key :: key in a <==> key in b
    ensures a == [] <==> b == []
  {
    assert |a| > 0 ==> a[0] in a;
    assert |b| > 0 ==> b[0] in b;
  }

  /** Same members in strictly rising order: same sequence. */
  lemma {:induction false} RisingUnique(a: seq<Key>, b: seq<Key>, f: Key -> int)
    requires Rising(a, f) && Rising(b, f) && forall key :: key in a <==> key in b
    ensures a == b
    decreases |a|
  {
    EmptyTogether(a, b);
    if a != [] {
      LastKeySame(a, b, f);
      ShorterRising(a, f);
      ShorterRising(b, f);
      hide Rising;
      RisingUnique(a[..|a| - 1], b[..|b| - 1], f);
      assert a == a[..|a| - 1] + [a[|a| - 1]] && b == b[..|b| - 1] + [b[|b| - 1]];
    }
  }

  lemma IndicesFixed(a: seq<Draw>, b: seq<Draw>, key: Key)
    requires multiset(a) == multiset(b)
    ensures IndicesOf(Sorted(a), key) == IndicesOf(Sorted(b), key)
  {
    SortedKeeps(a);
    SortedKeeps(b);
    IndicesInOrder(Sorted(a), key);
    IndicesInOrder(Sorted(b), key);
    SameIndices(Sorted(a), Sorted(b), key);
    AscendingUnique(IndicesOf(Sorted(a), key), IndicesOf(Sorted(b), key));
  }

  lemma {:induction false} IndexIsDraw(log: seq<Draw>, key: Key, i: nat)
    ensures i in IndicesOf(log, key) <==> Draw(i, key) in log
    decreases |log|
  {
    if log != [] {
      var n := |log| - 1;
      IndexIsDraw(log[..n], key, i);
      assert log == log[..n] + [log[n]];
    }
  }

  /** Without a tie the hands open one after another. */
  lemma OpeningsRise(log: seq<Draw>)
    requires Ordered(log) && !SameOpening(log)
    ensures forall key | key in Keys(log) :: IndicesOf(log, key) != []
    ensures forall i, j | 0 <= i < j < |Keys(log)| ::
              IndicesOf(log, Keys(log)[i])[0] < IndicesOf(log, Keys(log)[j])[0]
  {
    KeysByOpening(log);
    KeysAreSeenOnce(log);
    forall i, j | 0 <= i < j < |Keys(log)|
      ensures IndicesOf(log, Keys(log)[i])[0] < IndicesOf(log, Keys(log)[j])[0]
    {
      var k, q := Keys(log)[i], Keys(log)[j];
      var d := Opening(log, k);
      var e := Opening(log, q);
      if d.deckIndex == e.deckIndex {
        assert Tie(log, d, e);
      }
    }
  }

  lemma Opening(log: seq<Draw>, key: Key) returns (d: Draw)
    requires Ordered(log) && IndicesOf(log, key) != []
    ensures d == Draw(IndicesOf(log, key)[0], key) && d in log && Opens(log, d)
  {
    d := Draw(IndicesOf(log, key)[0], key);
    IndexIsDraw(log, key, d.deckIndex);
    IndicesInOrder(log, key);
    forall e | e in log && e.key == key ensures d.deckIndex <= e.deckIndex {
      IndexIsDraw(log, key, e.deckIndex);
      assert Draw(e.deckIndex, key) == e;
    }
  }

  lemma SameOpeningStays(a: seq<Draw>, b: seq<Draw>)
    requires forall d :: d in a <==> d in b
    ensures SameOpening(a) ==> SameOpening(b)
  {
    if d, e :| d in a && e in a && Tie(a, d, e) {
      assert Tie(b, d, e);
    }
  }

  lemma NoTieSorted(a: seq<Draw>)
    requires !SameOpening(a)
    ensures !SameOpening(Sorted(a))
  {
    SortedKeeps(a);
    SameOpeningStays(Sorted(a), a);
  }

  /** Where a hand opens, as a number. */
  function OpeningOf(log: seq<Draw>, key: Key): int {
    if IndicesOf(log, key) == [] then -1 else IndicesOf(log, key)[0]
  }

  lemma KeysRise(log: seq<Draw>, of: seq<Draw>)
    requires Ordered(log) && !SameOpening(log) && forall key :: IndicesOf(log, key) == IndicesOf(of, key)
    ensures Rising(Keys(log), key => OpeningOf(of, key))
  {
    OpeningsRise(log);
    hide Keys, IndicesOf, SameOpening, Ordered;
    assert forall i | 0 <= i < |Keys(log)| :: Keys(log)[i] in Keys(log);
  }

  lemma OneOpeningEach(hash: nat -> Word, a: seq<Draw>, b: seq<Draw>)
    requires multiset(a) == multiset(b) && !SameOpening(a)
    ensures Hands(hash, Sorted(a)) == Hands(hash, Sorted(b))
  {
    var x, y := Sorted(a), Sorted(b);
    forall d ensures d in b <==> d in a {
      assert d in multiset(a) <==> d in multiset(b);
    }
    SameOpeningStays(b, a);
    NoTieSorted(a);
    NoTieSorted(b);
    SortedKeeps(a);
    SortedKeeps(b);
    forall key ensures IndicesOf(x, key) == IndicesOf(y, key) {
      IndicesFixed(a, b, key);
    }
    KeysAreSeenOnce(x);
    KeysAreSeenOnce(y);
    hide Sorted, Keys, IndicesOf, SameOpening, OpeningOf, Ordered;
    KeysRise(x, x);
    KeysRise(y, x);
    RisingUnique(Keys(x), Keys(y), key => OpeningOf(x, key));
  }

  /** Inserted anywhere, an entry leaves `d` behind smaller positions only. */
  lemma {:induction false} InsertBehind(log: seq<Draw>, p: nat, d: Draw, x: Draw) returns (q: nat)
    requires Ordered(log) && p < |log| && log[p] == d && forall i | 0 <= i < p :: log[i].deckIndex < d.deckIndex
    ensures q < |Insert(log, x)| && Insert(log, x)[q] == d
    ensures forall i | 0 <= i < q :: Insert(log, x)[i].deckIndex < d.deckIndex
    decreases |log|
  {
    var n := |log| - 1;
    InsertKeeps(log, x);
    if log[n].deckIndex <= x.deckIndex {
      q := p;
    } else if p < n {
      q := InsertBehind(log[..n], p, d, x);
      InsertKeeps(log[..n], x);
    } else {
      q := |log|;
      InsertKeeps(log[..n], x);
      var r := Insert(log[..n], x);
      forall i | 0 <= i < |r| ensures r[i].deckIndex < d.deckIndex {
        assert r[i] in r;
      }
    }
  }

  /** The first entry of a log stays ahead of all equal ones. */
  lemma {:induction false} FirstStaysFirst(d: Draw, rest: seq<Draw>) returns (p: nat)
    ensures p < |Sorted([d] + rest)| && Sorted([d] + rest)[p] == d
    ensures forall i | 0 <= i < p :: Sorted([d] + rest)[i].deckIndex < d.deckIndex
    decreases |rest|
  {
    var log := [d] + rest;
    if rest == [] {
      assert log == [d] && log[..0] == [];
      assert Sorted(log) == [d];
      p := 0;
    } else {
      var n := |rest| - 1;
      assert log[..|log| - 1] == [d] + rest[..n];
      p := FirstStaysFirst(d, rest[..n]);
      SortedKeeps([d] + rest[..n]);
      p := InsertBehind(Sorted([d] + rest[..n]), p, d, rest[n]);
    }
  }

  lemma {:induction false} KeysPrefix(log: seq<Draw>, p: nat)
    requires p <= |log|
    ensures Keys(log[..p]) <= Keys(log)
    decreases |log|
  {
    if p < |log| {
      var n := |log| - 1;
      KeysPrefix(log[..n], p);
      assert log[..n][..p] == log[..p];
    } else {
      assert log[..p] == log;
    }
  }

  predicate Precedes(keys: seq<Key>, k: Key, q: Key) {
    exists x, y :: 0 <= x < y < |keys| && keys[x] == k && keys[y] == q
  }

  lemma SeenBefore(log: seq<Draw>, p: nat, q: Key)
    requires p < |log| && q != log[p].key && q in Keys(log)
    requires forall i | 0 <= i < p :: log[i].key != log[p].key && log[i].key != q
    ensures Precedes(Keys(log), log[p].key, q)
  {
    var k := log[p].key;
    var before, upto := Keys(log[..p]), Keys(log[..p + 1]);
    assert log[..p + 1][..p] == log[..p];
    NotSeen(log[..p], k);
    NotSeen(log[..p], q);
    assert upto == before + [k];
    KeysPrefix(log, p + 1);
    var y :| 0 <= y < |Keys(log)| && Keys(log)[y] == q;
    assert y >= |upto|;
    assert Keys(log)[|before|] == k;
  }

  lemma {:induction false} NotSeen(log: seq<Draw>, key: Key)
    requires forall i | 0 <= i < |log| :: log[i].key != key
    ensures key !in Keys(log)
    decreases |log|
  {
    if log != [] {
      NotSeen(log[..|log| - 1], key);
    }
  }

  function ToFront(log: seq<Draw>, i: nat): seq<Draw>
    requires i < |log|
  {
    [log[i]] + (log[..i] + log[i + 1..])
  }

  lemma ToFrontPermutes(log: seq<Draw>, i: nat)
    requires i < |log|
    ensures multiset(ToFront(log, i)) == multiset(log)
  {
    assert log == log[..i] + [log[i]] + log[i + 1..];
  }

  /** Brought to the front of the log, a tied hand comes first. */
  lemma FrontHandFirst(log: seq<Draw>, i: nat, e: Draw)
    requires i < |log| && e in log && Tie(log, log[i], e)
    ensures Precedes(Keys(Sorted(ToFront(log, i))), log[i].key, e.key)
  {
    var d, moved := log[i], ToFront(log, i);
    ToFrontPermutes(log, i);
    SortedKeeps(moved);
    var sorted := Sorted(moved);
    var p := FirstStaysFirst(d, log[..i] + log[i + 1..]);
    forall x | x in sorted ensures x in log {
      assert x in multiset(sorted) && x in multiset(log);
    }
    forall j | 0 <= j < p ensures sorted[j].key != d.key && sorted[j].key != e.key {
      assert sorted[j] in sorted && sorted[j] in log;
    }
    assert e in multiset(sorted);
    KeysAreSeenOnce(sorted);
    hide Sorted, Keys, IndicesOf;
    SeenBefore(sorted, p, e.key);
  }

  lemma NotBothWays(keys: seq<Key>, k: Key, q: Key)
    requires forall i, j | 0 <= i < j < |keys| :: keys[i] != keys[j]
    requires Precedes(keys, k, q)
    ensures !Precedes(keys, q, k)
  {
  }

  lemma TieShows(hash: nat -> Word, a: seq<Draw>) returns (b: seq<Draw>)
    requires SameOpening(a)
    ensures multiset(b) == multiset(a) && Hands(hash, Sorted(b)) != Hands(hash, Sorted(a))
  {
    var d, e :| d in a && e in a && Tie(a, d, e);
    var i, j :| 0 <= i < |a| && a[i] == d && 0 <= j < |a| && a[j] == e;
    var x, y := ToFront(a, i), ToFront(a, j);
    ToFrontPermutes(a, i);
    ToFrontPermutes(a, j);
    FrontHandFirst(a, i, e);
    assert Tie(a, e, d);
    FrontHandFirst(a, j, d);
    KeysAreSeenOnce(Sorted(x));
    hide Sorted, Keys, IndicesOf, ToFront, Precedes;
    NotBothWays(Keys(Sorted(x)), d.key, e.key);
    SameHandsSameKeys(hash, Sorted(x), Sorted(y));
    b := if Hands(hash, Sorted(x)) != Hands(hash, Sorted(a)) then x else y;
  }

  lemma SameHandsSameKeys(hash: nat -> Word, a: seq<Draw>, b: seq<Draw>)
    ensures Hands(hash, a) == Hands(hash, b) ==> Keys(a) == Keys(b)
  {
    hide Keys, IndicesOf;
    if Hands(hash, a) == Hands(hash, b) {
      forall k | 0 <= k < |Keys(a)| ensures Keys(a)[k] == Keys(b)[k] {
        assert Hands(hash, a)[k].key == Hands(hash, b)[k].key;
      }
    }
  }

  /**
   * However the log is shuffled the same round comes back, exactly when no two hands open with
   * the same deck position.
   */
  lemma OrderIrrelevantExactly(hash: nat -> Word, a: seq<Draw>)
    ensures (forall b | multiset(b) == multiset(a) :: Hands(hash, Sorted(b)) == Hands(hash, Sorted(a)))
            <==> !SameOpening(a)
  {
    hide Sorted, SameOpening;
    if SameOpening(a) {
      var b := TieShows(hash, a);
    } else {
      forall b | multiset(b) == multiset(a) ensures Hands(hash, Sorted(b)) == Hands(hash, Sorted(a)) {
        OneOpeningEach(hash, a, b);
      }
    }
  }

  lemma UnambiguousOpens(a: seq<Draw>)
    requires Unambiguous(a)
    ensures !SameOpening(a)
  {
    assert forall d, e | d in a && e in a && d.deckIndex == e.deckIndex :: !Tie(a, d, e);
  }

  /** In particular a log that gives no deck position to two hands. */
  lemma OrderOfLogIrrelevant(hash: nat -> Word, a: seq<Draw>, b: seq<Draw>)
    requires Unambiguous(a) && multiset(a) == multiset(b)
    ensures Hands(hash, Sorted(a)) == Hands(hash, Sorted(b))
  {
    UnambiguousOpens(a);
    OneOpeningEach(hash, a, b);
  }

  // ---- Hand totals ----------------------------------------------------------------------

  function HardValue(c: Card): (v: nat)
    ensures v <= 10 && v <= c.rank + 1 && (v == 10 || v == c.rank + 1)
  {
    if c.rank == 0 then 1 else if c.rank >= 9 then 10 else c.rank + 1
  }

  function CardValue(c: Card): (v: nat)
    ensures v == HardValue(c) + (if c.rank == 0 then 10 else 0)
  {
    if c.rank == 0 then 11 else if c.rank >= 9 then 10 else c.rank + 1
  }

  /** The total with every ace counted as one. */
  function Hard(cards: seq<Card>): nat {
    if cards == [] then 0 else Hard(cards[..|cards| - 1]) + HardValue(cards[|cards| - 1])
  }

  function Aces(cards: seq<Card>): nat {
    if cards == [] then 0 else Aces(cards[..|cards| - 1]) + (if cards[|cards| - 1].rank == 0 then 1 else 0)
  }

  /** A total some choice of aces at eleven gives. */
  predicate Reachable(cards: seq<Card>, high: nat, total: nat) {
    high <= Aces(cards) && total == Hard(cards) + 10 * high
  }

  /**
   * The best total: the largest some choice of aces gives without busting, or every ace at one
   * when all choices bust. `soft` says an ace is still at eleven.
   */
  method HandValue(cards: seq<Card>) returns (total: nat, soft: bool)
    ensures exists high :: Reachable(cards, high, total) && (soft <==> high > 0)
    ensures Hard(cards) <= 21 ==> total <= 21
    ensures forall high: nat, t: nat :: Reachable(cards, high, t) && t <= 21 ==> t <= total
    ensures Hard(cards) > 21 ==> total == Hard(cards) && !soft
  {
    total := 0;
    var aces := 0;
    for i := 0 to |cards|
      invariant aces == Aces(cards[..i]) && total == Hard(cards[..i]) + 10 * aces
    {
      assert cards[..i + 1][..i] == cards[..i];
      total := total + CardValue(cards[i]);
      if cards[i].rank == 0 {
        aces := aces + 1;
      }
    }
    assert cards[..|cards|] == cards;
    while total > 21 && aces > 0
      invariant Reachable(cards, aces, total)
      invariant forall high: nat, t: nat :: Reachable(cards, high, t) && t <= 21 ==> t <= total
    {
      total := total - 10;
      aces := aces - 1;
    }
    assert Reachable(cards, aces, total);
    soft := aces > 0;
  }

  /** What two cards make twenty-one: an ace and a ten-valued card. */
  lemma NaturalExactly(a: Card, b: Card, total: nat)
    requires a.rank < 13 && b.rank < 13
    requires exists high :: Reachable([a, b], high, total)
    requires forall high: nat, t: nat :: Reachable([a, b], high, t) && t <= 21 ==> t <= total
    ensures total == 21 <==> (a.rank == 0 && b.rank >= 9) || (b.rank == 0 && a.rank >= 9)
  {
    assert [a, b][..1] == [a] && [a][..0] == [];
    assert Hard([a]) == HardValue(a) && Aces([a]) == if a.rank == 0 then 1 else 0;
    assert Hard([a, b]) == HardValue(a) + HardValue(b);
    if (a.rank == 0 && b.rank >= 9) || (b.rank == 0 && a.rank >= 9) {
      assert Reachable([a, b], 1, 21);
    }
  }
}
