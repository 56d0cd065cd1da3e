/**
 * The provably-fair shuffle: a float stream cut out of HMAC blocks, a Fisher-Yates
 * shuffle driven by it, and the three games that keep a sorted prefix of the result.
 * HMAC-SHA256 is an arbitrary function from block numbers to 32 bytes.
 *
 * A float is four bytes over 2^32 and is exact as a double; so is its product with any
 * list length up to 2^21, which is why real arithmetic is what the code computes.
 */
module FairShuffle {
  import opened Rounding

  const WORDS: nat := 0x1_0000_0000

  type Byte = b: nat | b < 256

  type Fraction = f: real | 0.0 <= f < 1.0

  type Blocks = nat -> seq<Byte>

  ghost predicate Digests(blocks: Blocks) {
    forall b :: |blocks(b)| == 32
  }

  // ------------------------------------------------------------ floats

  function Word(b: seq<Byte>): (w: nat)
    requires |b| == 4
    ensures w < WORDS
  {
    var w0: nat, w1: nat, w2: nat, w3: nat := b[0], b[1], b[2], b[3];
    w0 * 0x100_0000 + w1 * 0x1_0000 + w2 * 0x100 + w3
  }

  function FloatOf(b: seq<Byte>): real
    requires |b| == 4
  {
    b[0] as real / 256.0 + b[1] as real / 65536.0 + b[2] as real / 16777216.0 + b[3] as real / 4294967296.0
  }

  /** The base-256 fraction is the big-endian word over 2^32. */
  lemma FloatIsWord(b: seq<Byte>)
    requires |b| == 4
    ensures FloatOf(b) == Word(b) as real / 4294967296.0
    ensures 0.0 <= FloatOf(b) < 1.0
  {
  }

  /** Float number `k` of the stream: eight to a block. */
  function FloatAt(blocks: Blocks, k: nat): (f: Fraction)
    requires |blocks(k / 8)| == 32
  {
    FloatIsWord(blocks(k / 8)[4 * (k % 8)..4 * (k % 8) + 4]);
    FloatOf(blocks(k / 8)[4 * (k % 8)..4 * (k % 8) + 4])
  }

  /** The generator: a block counter and a position inside the block. */
  class FloatStream {
    const blocks: Blocks
    var block: nat
    var i: nat

    constructor (blocks: Blocks)
      requires Digests(blocks)
      ensures Valid() && Produced() == 0 && this.blocks == blocks
    {
      this.blocks := blocks;
      block, i := 0, 0;
    }

    ghost predicate Valid()
      reads this
    {
      Digests(blocks) && i % 4 == 0 && i <= 32
    }

    ghost function Produced(): nat
      reads this
    {
      block * 8 + i / 4
    }

    method Next() returns (f: Fraction)
      requires Valid()
      modifies this
      ensures Valid() && Produced() == old(Produced()) + 1
      ensures f == FloatAt(blocks, old(Produced()))
    {
      if i + 4 > |blocks(block)| {
        block, i := block + 1, 0;
      }
      assert Produced() / 8 == block && 4 * (Produced() % 8) == i;
      FloatIsWord(blocks(block)[i..i + 4]);
      f := FloatOf(blocks(block)[i..i + 4]);
      i := i + 4;
    }
  }

  method FloatsFromHmac(blocks: Blocks, count: nat) returns (floats: seq<Fraction>)
    requires Digests(blocks)
    ensures |floats| == count && forall k | 0 <= k < count :: floats[k] == FloatAt(blocks, k)
  {
    var stream := new FloatStream(blocks);
    floats := [];
    for n := 0 to count
      invariant stream.Valid() && stream.blocks == blocks && stream.Produced() == n == |floats| && fresh(stream)
      invariant forall k | 0 <= k < n :: floats[k] == FloatAt(blocks, k)
    {
      var f := stream.Next();
      floats := floats + [f];
    }
  }

  // ------------------------------------------------------------ one index

  /** `Math.floor(f * (i + 1))`. */
  function IndexOf(f: Fraction, i: nat): (j: nat)
    ensures j <= i
  {
    FractionOfLength(f, i + 1);
    (f * (i + 1) as real).Floor
  }

  lemma FractionOfLength(f: Fraction, n: nat)
    requires n > 0
    ensures 0 <= (f * n as real).Floor < n
  {
    assert 0.0 <= f * n as real < n as real;
  }

  /** The index a word selects, in integers. */
  function Selected(w: nat, n: nat, words: nat): nat
    requires words > 0
  {
    w * n / words
  }

  lemma IndexIsSelected(b: seq<Byte>, i: nat)
    requires |b| == 4
    ensures 0.0 <= FloatOf(b) < 1.0 && IndexOf(FloatOf(b), i) == Selected(Word(b), i + 1, WORDS)
  {
    FloatIsWord(b);
    var w, n := Word(b), i + 1;
    FloorBounds(w * n, WORDS);
    var q := w * n / WORDS;
    assert (w as real / 4294967296.0) * n as real == (w * n) as real / 4294967296.0;
    assert q as real <= (w * n) as real / 4294967296.0 < q as real + 1.0;
  }

  /** The words that select index `j` out of `n`. */
  function Selecting(n: nat, j: nat, words: nat): set<int>
    requires words > 0
  {
    set w: int | 0 <= w < words && Selected(w, n, words) == j
  }

  lemma SelectedWithin(w: nat, n: nat, j: nat, words: nat)
    requires words > 0 && n > 0
    ensures Selected(w, n, words) == j <==> CeilDiv(j * words, n) <= w < CeilDiv((j + 1) * words, n)
  {
    FloorBounds(w * n, words);
    CeilBounds(j * words, n);
    CeilBounds((j + 1) * words, n);
    if Selected(w, n, words) == j {
      CeilLe(j * words, n, w);
      assert w * n < (j + 1) * words by { assert (j + 1) * words == j * words + words; }
      if CeilDiv((j + 1) * words, n) <= w {
        MulLe(CeilDiv((j + 1) * words, n), w, n);
      }
    }
    if CeilDiv(j * words, n) <= w < CeilDiv((j + 1) * words, n) {
      MulLe(CeilDiv(j * words, n), w, n);
      FloorGe(w * n, words, j);
      if w * n >= (j + 1) * words {
        CeilLe((j + 1) * words, n, w);
      }
      BelowNext(w * n, words, j);
    }
  }

  lemma BelowNext(x: nat, d: nat, j: nat)
    requires d > 0 && x < (j + 1) * d
    ensures x / d <= j
  {
    FloorBounds(x, d);
    if x / d > j {
      MulLe(j + 1, x / d, d);
    }
  }

  lemma CeilGapAbove(x: nat, t: nat, n: nat)
    requires n > 0
    ensures CeilDiv(x + t, n) <= CeilDiv(x, n) + CeilDiv(t, n)
  {
    var a, c := CeilDiv(x, n), CeilDiv(t, n);
    CeilBounds(x, n);
    CeilBounds(t, n);
    hide CeilDiv;
    assert (a + c) * n == a * n + c * n;
    CeilLe(x + t, n, a + c);
  }

  lemma CeilGapBelow(x: nat, t: nat, n: nat)
    requires n > 0
    ensures CeilDiv(x, n) + t / n <= CeilDiv(x + t, n)
  {
    var b, q := CeilDiv(x + t, n), t / n;
    CeilBounds(x + t, n);
    FloorBounds(t, n);
    hide CeilDiv;
    CancelLe(q, b, n);
    assert (b - q) * n == b * n - q * n;
    CeilLe(x, n, b - q);
  }

  lemma SelectingIsInterval(n: nat, j: nat, words: nat)
    requires words > 0 && j < n
    ensures CeilDiv(j * words, n) <= CeilDiv((j + 1) * words, n) <= words
    ensures Selecting(n, j, words) == Interval(CeilDiv(j * words, n), CeilDiv((j + 1) * words, n))
  {
    var lo, hi := CeilDiv(j * words, n), CeilDiv((j + 1) * words, n);
    CeilBounds(j * words, n);
    CeilBounds((j + 1) * words, n);
    MulLe(j, j + 1, words);
    CeilLe(j * words, n, hi);
    MulLe(j + 1, n, words);
    CeilLe((j + 1) * words, n, words);
    forall w: nat ensures Selected(w, n, words) == j <==> lo <= w < hi {
      SelectedWithin(w, n, j, words);
    }
    hide CeilDiv, Selected;
    assert Selecting(n, j, words) == Interval(lo, hi);
  }

  /**
   * The bias of one draw, exactly: each of the `n` indices is selected by floor(words/n)
   * or ceil(words/n) of the words, so no two indices differ by more than one word.
   */
  lemma BiasIsOneWord(n: nat, j: nat, words: nat)
    requires words > 0 && j < n
    ensures words / n <= |Selecting(n, j, words)| <= CeilDiv(words, n)
    ensures |Selecting(n, j, words)| == CeilDiv((j + 1) * words, n) - CeilDiv(j * words, n)
  {
    hide CeilDiv, Selecting;
    assert (j + 1) * words == j * words + words;
    CeilGapAbove(j * words, words, n);
    CeilGapBelow(j * words, words, n);
    SelectingIsInterval(n, j, words);
  }

  // ------------------------------------------------------------ the shuffle

  /** `c[i]` is the index swapped with `i`; the loop runs i = n-1 down to 1. */
  predicate Choices(c: seq<nat>) {
    forall i | 0 <= i < |c| :: c[i] <= i
  }

  function Swapped<T>(a: seq<T>, i: nat, j: nat): (r: seq<T>)
    requires i < |a| && j < |a|
    ensures |r| == |a| && r[i] == a[j] && r[j] == a[i]
    ensures forall k | 0 <= k < |a| && k != i && k != j :: r[k] == a[k]
  {
    a[i := a[j]][j := a[i]]
  }

  function ShuffleFrom<T>(a: seq<T>, c: seq<nat>, i: nat): (r: seq<T>)
    requires |c| == |a| && Choices(c) && (i < |a| || i == 0)
    ensures |r| == |a|
    ensures forall k | i < k < |a| :: r[k] == a[k]
    decreases i
  {
    if i == 0 then a else ShuffleFrom(Swapped(a, i, c[i]), c, i - 1)
  }

  function Shuffled<T>(a: seq<T>, c: seq<nat>): (r: seq<T>)
    requires |c| == |a| && Choices(c)
    ensures |r| == |a|
  {
    ShuffleFrom(a, c, if a == [] then 0 else |a| - 1)
  }

  lemma SwapPermutes<T>(a: seq<T>, i: nat, j: nat)
    requires i < |a| && j < |a|
    ensures multiset(Swapped(a, i, j)) == multiset(a)
  {
  }

  lemma {:induction false} ShufflePermutes<T>(a: seq<T>, c: seq<nat>, i: nat)
    requires |c| == |a| && Choices(c) && (i < |a| || i == 0)
    ensures multiset(ShuffleFrom(a, c, i)) == multiset(a)
    decreases i
  {
    if i > 0 {
      SwapPermutes(a, i, c[i]);
      ShufflePermutes(Swapped(a, i, c[i]), c, i - 1);
    }
  }

  predicate Distinct<T(==)>(a: seq<T>) {
    forall i, j | 0 <= i < j < |a| :: a[i] != a[j]
  }

  lemma SwapDistinct<T>(a: seq<T>, i: nat, j: nat)
    requires i < |a| && j < |a| && Distinct(a)
    ensures Distinct(Swapped(a, i, j))
  {
  }

  lemma {:induction false} ShuffleDistinct<T>(a: seq<T>, c: seq<nat>, i: nat)
    requires |c| == |a| && Choices(c) && (i < |a| || i == 0) && Distinct(a)
    ensures Distinct(ShuffleFrom(a, c, i))
    decreases i
  {
    if i > 0 {
      SwapDistinct(a, i, c[i]);
      ShuffleDistinct(Swapped(a, i, c[i]), c, i - 1);
    }
  }

  /** Different choices give different results: position `i` of the result names choice `i`. */
  lemma {:induction false} ChoicesFromResult<T>(a: seq<T>, c: seq<nat>, d: seq<nat>, i: nat)
    requires |c| == |d| == |a| && Choices(c) && Choices(d) && (i < |a| || i == 0) && Distinct(a)
    requires ShuffleFrom(a, c, i) == ShuffleFrom(a, d, i)
    ensures forall k | 1 <= k <= i :: c[k] == d[k]
    decreases i
  {
    if i > 0 {
      var s := ShuffleFrom(a, c, i);
      assert s[i] == a[c[i]] && s[i] == a[d[i]];
      SwapDistinct(a, i, c[i]);
      ChoicesFromResult(Swapped(a, i, c[i]), c, d, i - 1);
    }
  }

  lemma SwapTowards(a: seq<nat>, p: seq<nat>, i: nat, j: nat)
    requires |a| == |p| && 0 < i < |a| && j <= i && a[j] == p[i]
    requires multiset(a[..i + 1]) == multiset(p[..i + 1])
    ensures multiset(Swapped(a, i, j)[..i]) == multiset(p[..i])
  {
    var s := Swapped(a, i, j);
    assert s[..i + 1] == Swapped(a[..i + 1], i, j);
    SwapPermutes(a[..i + 1], i, j);
    assert s[..i + 1] == s[..i] + [s[i]];
    assert p[..i + 1] == p[..i] + [p[i]];
    assert multiset(s[..i]) == multiset(s[..i + 1]) - multiset{s[i]};
    assert multiset(p[..i]) == multiset(p[..i + 1]) - multiset{p[i]};
  }

  lemma FirstOccurrence(a: seq<nat>, i: nat, x: nat) returns (j: nat)
    requires i < |a| && x in a[..i + 1]
    ensures j <= i && a[j] == x && forall k | 0 <= k < j :: a[k] != x
  {
    j := 0;
    while a[j] != x
      invariant j <= i && forall k | 0 <= k < j :: a[k] != x
      invariant x in a[j..i + 1]
      decreases i - j
    {
      assert a[j..i + 1] == [a[j]] + a[j + 1..i + 1];
      j := j + 1;
    }
  }

  /** Steps below `i` look only at choices up to `i`. */
  lemma {:induction false} ShuffleIgnoresRest<T>(a: seq<T>, c: seq<nat>, d: seq<nat>, i: nat)
    requires |c| == |d| == |a| && Choices(c) && Choices(d) && (i < |a| || i == 0)
    requires forall k | 1 <= k <= i :: c[k] == d[k]
    ensures ShuffleFrom(a, c, i) == ShuffleFrom(a, d, i)
    decreases i
  {
    if i > 0 {
      ShuffleIgnoresRest(Swapped(a, i, c[i]), c, d, i - 1);
    }
  }

  /** Choices leading to any permutation exist. */
  lemma {:induction false} ReachesPermutation(a: seq<nat>, p: seq<nat>, i: nat) returns (c: seq<nat>)
    requires |a| == |p| && i < |a| && multiset(a[..i + 1]) == multiset(p[..i + 1])
    requires forall k | i < k < |a| :: a[k] == p[k]
    ensures |c| == |a| && Choices(c) && ShuffleFrom(a, c, i) == p
    decreases i
  {
    hide ShuffleFrom;
    if i == 0 {
      c := seq(|a|, _ => 0);
      assert a[..1] == [a[0]] && p[..1] == [p[0]];
      assert a[0] in multiset(p[..1]);
      assert a == p;
      NoSwaps(a, c);
    } else {
      assert p[i] in multiset(a[..i + 1]);
      var j := FirstOccurrence(a, i, p[i]);
      SwapTowards(a, p, i, j);
      var d := ReachesPermutation(Swapped(a, i, j), p, i - 1);
      c := d[i := j];
      ShuffleIgnoresRest(Swapped(a, i, j), c, d, i - 1);
      OneSwap(a, c, i);
    }
  }

  /** `c` with its unused first entry fixed. */
  predicate Canonical(c: seq<nat>) {
    Choices(c) && (c != [] ==> c[0] == 0)
  }

  /**
   * The shuffle is fair by construction: of the choice sequences, exactly one leads from
   * a list of distinct elements to any given permutation of it.
   */
  lemma ExactlyOneChoice(a: seq<nat>, p: seq<nat>) returns (c: seq<nat>)
    requires Distinct(a) && multiset(a) == multiset(p)
    ensures |c| == |a| && Canonical(c) && Shuffled(a, c) == p
    ensures forall d | |d| == |a| && Canonical(d) && Shuffled(a, d) == p :: d == c
  {
    assert |multiset(a)| == |a| && |multiset(p)| == |p|;
    if a == [] {
      c := [];
    } else {
      hide ShuffleFrom;
      var n := |a| - 1;
      assert a[..n + 1] == a && p[..n + 1] == p;
      c := ReachesPermutation(a, p, n);
      var canonical := c[0 := 0];
      ShuffleIgnoresRest(a, c, canonical, n);
      c := canonical;
      forall d | |d| == |a| && Canonical(d) && Shuffled(a, d) == p ensures d == c {
        ChoicesFromResult(a, c, d, n);
      }
    }
  }

  // ------------------------------------------------------------ a sorted prefix

  function Inserted(x: nat, s: seq<nat>): (r: seq<nat>)
    ensures multiset(r) == multiset(s) + multiset{x} && |r| == |s| + 1
  {
    if s == [] || x <= s[0] then [x] + s
    else
      assert s == [s[0]] + s[1..];
      [s[0]] + Inserted(x, s[1..])
  }

  /** What `sort((a, b) => a - b)` leaves. */
  function Ascending(s: seq<nat>): (r: seq<nat>)
    ensures multiset(r) == multiset(s) && |r| == |s|
  {
    if s == [] then []
    else
      assert s == [s[0]] + s[1..];
      Inserted(s[0], Ascending(s[1..]))
  }

  predicate Sorted(s: seq<nat>) {
    forall i, j | 0 <= i < j < |s| :: s[i] <= s[j]
  }

  lemma {:induction false} InsertedSorted(x: nat, s: seq<nat>)
    requires Sorted(s)
    ensures Sorted(Inserted(x, s))
  {
    if s != [] && x > s[0] {
      InsertedSorted(x, s[1..]);
      var r := Inserted(x, s[1..]);
      forall k | 0 <= k < |r| ensures s[0] <= r[k] {
        assert r[k] in multiset(r);
        assert r[k] in multiset(s[1..]) || r[k] == x;
      }
    }
  }

  lemma {:induction false} AscendingSorted(s: seq<nat>)
    ensures Sorted(Ascending(s))
  {
    if s != [] {
      AscendingSorted(s[1..]);
      InsertedSorted(s[0], Ascending(s[1..]));
    }
  }

  /** `arr.slice(0, k)`: a negative `k` counts from the end. */
  function SliceLength(n: nat, k: int): (m: nat)
    ensures m <= n
  {
    if k >= 0 then (if k <= n then k else n) else if n + k >= 0 then n + k else 0
  }

  function Kept(a: seq<nat>, k: int): seq<nat> {
    Ascending(a[..SliceLength(|a|, k)])
  }

  /** A kept prefix of a shuffle: that many distinct elements of the original list, ascending. */
  lemma KeptField(a: seq<nat>, c: seq<nat>, k: int)
    requires |c| == |a| && Choices(c) && Distinct(a)
    ensures var r := Kept(Shuffled(a, c), k);
      |r| == SliceLength(|a|, k) && Sorted(r) && Distinct(r) && forall x <- r :: x in a
  {
    var s := Shuffled(a, c);
    var i := if a == [] then 0 else |a| - 1;
    ShufflePermutes(a, c, i);
    ShuffleDistinct(a, c, i);
    var m := SliceLength(|a|, k);
    AscendingSorted(s[..m]);
    SameMultisetDistinct(s[..m], Ascending(s[..m]));
    forall x <- Ascending(s[..m]) ensures x in a {
      assert x in multiset(s[..m]);
      assert x in multiset(s);
    }
  }

  lemma SameMultisetDistinct(a: seq<nat>, b: seq<nat>)
    requires Distinct(a) && multiset(a) == multiset(b)
    ensures Distinct(b)
  {
    forall i, j | 0 <= i < j < |b| ensures b[i] != b[j] {
      if b[i] == b[j] {
        TwicePresent(b, i, j);
        OncePresent(a, b[i]);
      }
    }
  }

  lemma TwicePresent(b: seq<nat>, i: nat, j: nat)
    requires i < j < |b| && b[i] == b[j]
    ensures multiset(b)[b[i]] >= 2
  {
    assert b == b[..j] + b[j..];
    assert b[i] in b[..j] && b[j] in b[j..];
  }

  lemma {:induction false} OncePresent(a: seq<nat>, x: nat)
    requires Distinct(a)
    ensures multiset(a)[x] <= 1
  {
    if a != [] {
      assert a == [a[0]] + a[1..];
      OncePresent(a[1..], x);
      assert a[0] !in a[1..];
    }
  }

  /** Asking for one more only adds to the field: fewer mines are a subset of more. */
  lemma FieldsNested(a: seq<nat>, c: seq<nat>, k: nat)
    requires |c| == |a| && Choices(c) && k < |a|
    ensures multiset(Kept(Shuffled(a, c), k)) <= multiset(Kept(Shuffled(a, c), k + 1))
  {
    var s := Shuffled(a, c);
    assert s[..k + 1] == s[..k] + [s[k]];
  }

  // ------------------------------------------------------------ the games

  function Range(first: nat, n: nat): (r: seq<nat>)
    ensures |r| == n && forall i | 0 <= i < n :: r[i] == first + i
  {
    seq(n, i => first + i)
  }

  /** The choices `n` floats make: step `i` uses float `n - 1 - i`. */
  function FloatChoices(floats: seq<Fraction>): (c: seq<nat>)
    ensures |c| == |floats| && Choices(c)
  {
    seq(|floats|, i requires 0 <= i < |floats| => IndexOf(floats[|floats| - 1 - i], i))
  }

  /** The in-place loop, reading its floats from `offset` on. */
  method ShuffleInPlace(arr: array<nat>, floats: seq<Fraction>, offset: nat)
    requires offset + arr.Length <= |floats|
    modifies arr
    ensures arr[..] == Shuffled(old(arr[..]), FloatChoices(floats[offset..offset + arr.Length]))
  {
    var n := arr.Length;
    ghost var c := FloatChoices(floats[offset..offset + n]);
    ghost var was := arr[..];
    if n == 0 {
      return;
    }
    var i := n - 1;
    assert ShuffleFrom(was, c, i) == Shuffled(was, c);
    assert forall k | 0 <= k < n :: c[k] == IndexOf(floats[offset + (n - 1 - k)], k);
    hide IndexOf, FloatChoices, Shuffled, ShuffleFrom;
    while i > 0
      invariant 0 <= i < n
      invariant ShuffleFrom(arr[..], c, i) == Shuffled(was, c)
    {
      var j := IndexOf(floats[offset + (n - 1 - i)], i);
      assert j == c[i];
      ghost var before := arr[..];
      OneSwap(before, c, i);
      var tmp := arr[i];
      arr[i] := arr[j];
      arr[j] := tmp;
      assert arr[..] == Swapped(before, i, j);
      i := i - 1;
    }
    NoSwaps(arr[..], c);
  }

  lemma OneSwap(a: seq<nat>, c: seq<nat>, i: nat)
    requires |c| == |a| && Choices(c) && 0 < i < |a|
    ensures ShuffleFrom(a, c, i) == ShuffleFrom(Swapped(a, i, c[i]), c, i - 1)
  {
  }

  lemma NoSwaps(a: seq<nat>, c: seq<nat>)
    requires |c| == |a| && Choices(c)
    ensures ShuffleFrom(a, c, 0) == a
  {
  }

  /** The whole stream, cut for one list. */
  function StreamSlice(blocks: Blocks, from: nat, n: nat): (floats: seq<Fraction>)
    requires forall k | from <= k < from + n :: |blocks(k / 8)| == 32
    ensures |floats| == n
  {
    seq<Fraction>(n, k requires 0 <= k < n => FloatAt(blocks, from + k))
  }

  method KeepShuffled(first: nat, n: nat, k: int, floats: seq<Fraction>, offset: nat) returns (kept: seq<nat>)
    requires offset + n <= |floats|
    ensures kept == Kept(Shuffled(Range(first, n), FloatChoices(floats[offset..offset + n])), k)
  {
    var arr := new nat[n](i => first + i);
    assert arr[..] == Range(first, n);
    ShuffleInPlace(arr, floats, offset);
    kept := Ascending(arr[..SliceLength(n, k)]);
    assert arr[..SliceLength(n, k)] == arr[..][..SliceLength(n, k)];
  }

  method MineField(blocks: Blocks, cells: nat, mines: int) returns (field: seq<nat>)
    requires Digests(blocks)
    ensures field == Kept(Shuffled(Range(0, cells), FloatChoices(StreamSlice(blocks, 0, cells))), mines)
    ensures |field| == SliceLength(cells, mines) && Sorted(field) && Distinct(field)
    ensures forall x <- field :: x < cells
  {
    var floats := FloatsFromHmac(blocks, cells);
    assert floats[0..0 + cells] == StreamSlice(blocks, 0, cells);
    field := KeepShuffled(0, cells, mines, floats, 0);
    KeptField(Range(0, cells), FloatChoices(StreamSlice(blocks, 0, cells)), mines);
  }

  /** The traps of row `r`. */
  ghost function TowerRow(blocks: Blocks, r: nat, columns: nat, traps: int): seq<nat>
    requires Digests(blocks)
  {
    Kept(Shuffled(Range(0, columns), FloatChoices(StreamSlice(blocks, r * columns, columns))), traps)
  }

  method TowerTraps(blocks: Blocks, rows: nat, columns: nat, safePerRow: nat) returns (out: seq<seq<nat>>)
    requires Digests(blocks)
    ensures |out| == rows
    ensures forall r | 0 <= r < rows :: out[r] == TowerRow(blocks, r, columns, columns - safePerRow)
  {
    hide TowerRow;
    var traps := columns - safePerRow;
    var floats := FloatsFromHmac(blocks, rows * columns);
    out := [];
    for r := 0 to rows
      invariant |out| == r
      invariant forall q | 0 <= q < r :: out[q] == TowerRow(blocks, q, columns, traps)
    {
      var row := ShuffledRow(blocks, floats, r, rows, columns, traps);
      out := out + [row];
    }
  }

  method ShuffledRow(blocks: Blocks, floats: seq<Fraction>, r: nat, rows: nat, columns: nat, traps: int)
    returns (row: seq<nat>)
    requires Digests(blocks) && r < rows && |floats| == rows * columns
    requires forall k | 0 <= k < |floats| :: floats[k] == FloatAt(blocks, k)
    ensures row == TowerRow(blocks, r, columns, traps)
  {
    RowInside(r, rows, columns);
    var from := r * columns;
    assert floats[from..from + columns] == StreamSlice(blocks, from, columns);
    row := KeepShuffled(0, columns, traps, floats, from);
  }

  lemma RowInside(r: nat, rows: nat, columns: nat)
    requires r < rows
    ensures r * columns + columns <= rows * columns
  {
    MulLe(r + 1, rows, columns);
    assert (r + 1) * columns == r * columns + columns;
  }

  const KENO_CELLS: nat := 40
  const KENO_DRAWS: nat := 10

  method KenoDraw(blocks: Blocks) returns (draw: seq<nat>)
    requires Digests(blocks)
    ensures |draw| == 10 && Sorted(draw) && Distinct(draw)
    ensures forall x <- draw :: 1 <= x <= 40
    ensures draw == Kept(Shuffled(Range(1, KENO_CELLS), FloatChoices(StreamSlice(blocks, 0, KENO_CELLS))), KENO_DRAWS)
  {
    var floats := FloatsFromHmac(blocks, KENO_CELLS);
    assert floats[0..0 + KENO_CELLS] == StreamSlice(blocks, 0, KENO_CELLS);
    draw := KeepShuffled(1, KENO_CELLS, KENO_DRAWS, floats, 0);
    KeptField(Range(1, KENO_CELLS), FloatChoices(StreamSlice(blocks, 0, KENO_CELLS)), KENO_DRAWS);
  }
}
