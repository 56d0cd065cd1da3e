/**
 * The float stream against the bytes of the digests, and the games against the words those bytes
 * make: no byte is used twice, none is skipped, and each draw uses the words that are its own.
 */
module FloatBytes {
  import opened Rounding
  import opened FairShuffle

  /** The first `n` digests, one after another. */
  ghost function Flat(blocks: Blocks, n: nat): (bytes: seq<Byte>)
    requires Digests(blocks)
    ensures |bytes| == 32 * n
  {
    if n == 0 then [] else Flat(blocks, n - 1) + blocks(n - 1)
  }

  lemma {:induction false} FlatAt(blocks: Blocks, n: nat, b: nat)
    requires Digests(blocks) && b < n
    ensures Flat(blocks, n)[32 * b..32 * b + 32] == blocks(b)
    decreases n
  {
    if b < n - 1 {
      FlatAt(blocks, n - 1, b);
      assert Flat(blocks, n)[..32 * (n - 1)] == Flat(blocks, n - 1);
      assert Flat(blocks, n)[32 * b..32 * b + 32] == Flat(blocks, n - 1)[32 * b..32 * b + 32];
    }
  }

  /** Big-endian. */
  function WordAt(bytes: seq<Byte>, k: nat): nat
    requires 4 * k + 4 <= |bytes|
  {
    var b0: nat, b1: nat, b2: nat, b3: nat := bytes[4 * k], bytes[4 * k + 1], bytes[4 * k + 2], bytes[4 * k + 3];
    ((b0 * 256 + b1) * 256 + b2) * 256 + b3
  }

  /** Float `k` is bytes 4k to 4k + 3 of the stream, over 2^32. */
  lemma FloatIsItsBytes(blocks: Blocks, n: nat, k: nat)
    requires Digests(blocks) && k < 8 * n
    ensures FloatAt(blocks, k) * 4294967296.0 == WordAt(Flat(blocks, n), k) as real
  {
    var bytes, b, i := Flat(blocks, n), k / 8, k % 8;
    FlatAt(blocks, n, b);
    assert 4 * k == 32 * b + 4 * i;
    var digest := bytes[32 * b..32 * b + 32];
    assert digest == blocks(b);
    var four := blocks(b)[4 * i..4 * i + 4];
    assert forall j | 0 <= j < 4 :: four[j] == bytes[4 * k + j];
    FloatIsWord(four);
  }

  // ---- Every list of words is some stream's ---------------------------------------------

  function Byte4(w: nat, i: nat): Byte {
    if i == 0 then w / 0x100_0000 % 256 else if i == 1 then w / 0x1_0000 % 256
    else if i == 2 then w / 0x100 % 256 else w % 256
  }

  function WordBytes(w: nat): (four: seq<Byte>)
    ensures |four| == 4
  {
    [Byte4(w, 0), Byte4(w, 1), Byte4(w, 2), Byte4(w, 3)]
  }

  lemma WordOfBytes(w: nat)
    requires w < WORDS
    ensures Word(WordBytes(w)) == w
  {
  }

  function DigestOf(ws: seq<nat>, b: nat): (digest: seq<Byte>)
    ensures |digest| == 32
  {
    seq(32, i requires 0 <= i < 32 => if 8 * b + i / 4 < |ws| then Byte4(ws[8 * b + i / 4], i % 4) else 0)
  }

  lemma DigestHolds(ws: seq<nat>, k: nat)
    requires k < |ws|
    ensures DigestOf(ws, k / 8)[4 * (k % 8)..4 * (k % 8) + 4] == WordBytes(ws[k])
  {
    var b, i := k / 8, k % 8;
    var digest := DigestOf(ws, b);
    forall j | 0 <= j < 4 ensures digest[4 * i + j] == Byte4(ws[k], j) {
      assert (4 * i + j) / 4 == i && (4 * i + j) % 4 == j && 8 * b + i == k;
    }
    assert digest[4 * i..4 * i + 4] == WordBytes(ws[k]);
  }

  /** Any eight words a digest, whatever they are, are the floats of some digests. */
  lemma EveryStream(ws: seq<nat>, n: nat) returns (blocks: Blocks)
    requires |ws| == 8 * n && forall k | 0 <= k < |ws| :: ws[k] < WORDS
    ensures Digests(blocks)
    ensures forall k | 0 <= k < 8 * n :: FloatAt(blocks, k) * 4294967296.0 == ws[k] as real
  {
    blocks := b => DigestOf(ws, b);
    forall k | 0 <= k < 8 * n ensures FloatAt(blocks, k) * 4294967296.0 == ws[k] as real {
      DigestHolds(ws, k);
      WordOfBytes(ws[k]);
      FloatIsWord(WordBytes(ws[k]));
    }
  }

  // ---- The games as functions of the words ----------------------------------------------

  /** The choices `n` words make, the first word choosing first, among all `n`. */
  function WordChoices(ws: seq<nat>): seq<nat> {
    seq(|ws|, i requires 0 <= i < |ws| => ws[|ws| - 1 - i] * (i + 1) / WORDS)
  }

  /** The words of the stream from `from` on. */
  ghost function Words(blocks: Blocks, from: nat, n: nat): (ws: seq<nat>)
    requires Digests(blocks)
    ensures |ws| == n
  {
    var bytes := Flat(blocks, from + n);
    seq<nat>(n, k requires 0 <= k < n => WordAt(bytes, from + k))
  }

  lemma IndexOfWord(f: Fraction, w: nat, i: nat)
    requires f * 4294967296.0 == w as real
    ensures IndexOf(f, i) == w * (i + 1) / WORDS
  {
    var n := i + 1;
    FloorBounds(w * n, WORDS);
    var q := w * n / WORDS;
    assert f * n as real == (w * n) as real / 4294967296.0;
    assert q as real <= (w * n) as real / 4294967296.0 < q as real + 1.0;
  }

  /** A draw's choices are its own words', in order. */
  lemma ChoicesAreWords(blocks: Blocks, from: nat, n: nat)
    requires Digests(blocks)
    ensures FloatChoices(StreamSlice(blocks, from, n)) == WordChoices(Words(blocks, from, n))
  {
    var floats, ws := StreamSlice(blocks, from, n), Words(blocks, from, n);
    forall i | 0 <= i < n ensures FloatChoices(floats)[i] == WordChoices(ws)[i] {
      var k := n - 1 - i;
      FloatIsItsBytes(blocks, from + n, from + k);
      assert floats[k] == FloatAt(blocks, from + k) && ws[k] == WordAt(Flat(blocks, from + n), from + k);
      IndexOfWord(floats[k], ws[k], i);
    }
  }

  // ---- What a shuffle keeps -------------------------------------------------------------

  /**
   * The first word draws the last element, from all of them; the one drawn trades places with the
   * last, and the other words shuffle what is left.
   */
  lemma FirstWordFirst(a: seq<nat>, ws: seq<nat>)
    requires |a| == |ws| > 0 && forall k | 0 <= k < |ws| :: ws[k] < WORDS
    ensures Choices(WordChoices(ws)) && Choices(WordChoices(ws[1..]))
    ensures var n := |a| - 1;
      var j := ws[0] * (n + 1) / WORDS;
      && j <= n
      && Shuffled(a, WordChoices(ws)) == Shuffled(a[j := a[n]][..n], WordChoices(ws[1..])) + [a[j]]
  {
    WordsChoose(ws);
    WordsChoose(ws[1..]);
    var n, c := |a| - 1, WordChoices(ws);
    var j := c[n];
    assert j == ws[0] * (n + 1) / WORDS;
    var s := Swapped(a, n, j);
    assert s[..n] == a[j := a[n]][..n] && s[n] == a[j];
    assert WordChoices(ws[1..]) == c[..n];
    if n > 0 {
      ShufflePrefix(s, c, n - 1);
    }
    assert s == s[..n] + [s[n]];
  }

  lemma WordsChoose(ws: seq<nat>)
    requires forall k | 0 <= k < |ws| :: ws[k] < WORDS
    ensures Choices(WordChoices(ws))
  {
    forall i | 0 <= i < |ws| ensures WordChoices(ws)[i] <= i {
      var w := ws[|ws| - 1 - i];
      MulLt(w, WORDS, i + 1);
      BelowNext(w * (i + 1), WORDS, i);
    }
  }

  /** Row `r` of a tower is drawn by the words after those of the rows before it. */
  lemma TowerRowWords(blocks: Blocks, r: nat, columns: nat, traps: int)
    requires Digests(blocks)
    ensures Choices(WordChoices(Words(blocks, r * columns, columns)))
    ensures TowerRow(blocks, r, columns, traps)
         == Kept(Shuffled(Range(0, columns), WordChoices(Words(blocks, r * columns, columns))), traps)
  {
    ChoicesAreWords(blocks, r * columns, columns);
  }

  /** Below `i`, a shuffle only ever touches the first `i + 1` places. */
  lemma {:induction false} ShufflePrefix(a: seq<nat>, c: seq<nat>, i: nat)
    requires |c| == |a| && Choices(c) && i + 1 < |a|
    ensures ShuffleFrom(a, c, i) == ShuffleFrom(a[..|a| - 1], c[..|a| - 1], i) + [a[|a| - 1]]
    decreases i
  {
    var n := |a| - 1;
    if i > 0 {
      var s := Swapped(a, i, c[i]);
      ShufflePrefix(s, c, i - 1);
      assert s[..n] == Swapped(a[..n], i, c[i]) && s[n] == a[n];
    } else {
      assert a == a[..n] + [a[n]];
    }
  }

  /** A field is the front of the shuffled list, put in order. */
  lemma KeptIsFront(a: seq<nat>, k: nat)
    requires k <= |a|
    ensures multiset(Kept(a, k)) == multiset(a[..k]) && Sorted(Kept(a, k))
  {
    AscendingSorted(a[..k]);
  }
}
