/**
 * Reading the treasury's history off an RPC node, newest page first, back to a cursor.
 * The history only grows, and it may grow between any two pages.
 */
module ChainHistory {
  import opened Wrappers

  /** Only ever compared for equality. */
  type Signature = nat
  type Wallet = nat

  /** What a listed transaction did to the treasury. */
  datatype Transfer = Failed | NotInbound | Inbound(amount: nat, signers: seq<Wallet>)

  datatype Entry = Entry(signature: Signature, slot: nat, transfer: Transfer)

  ghost predicate Distinct(h: seq<Entry>) {
    forall i, j | 0 <= i < j < |h| :: h[i].signature != h[j].signature
  }

  /** How much of the history ends at `sig`, that entry included; 0 when it is not listed. */
  function Position(h: seq<Entry>, sig: Signature): (p: nat)
    ensures p <= |h|
    ensures p > 0 ==> h[p - 1].signature == sig
    ensures forall i | p <= i < |h| :: h[i].signature != sig
  {
    if h == [] then 0
    else if h[|h| - 1].signature == sig then |h|
    else Position(h[..|h| - 1], sig)
  }

  function CursorPosition(h: seq<Entry>, until: Option<Signature>): (p: nat)
    ensures p <= |h|
  {
    if until.None? then 0 else Position(h, until.value)
  }

  function Reversed<T>(s: seq<T>): (r: seq<T>)
    ensures |r| == |s| && forall k | 0 <= k < |s| :: r[k] == s[|s| - 1 - k]
  {
    seq(|s|, k requires 0 <= k < |s| => s[|s| - 1 - k])
  }

  /** How much of the history lies strictly before `before`. */
  function PageTop(h: seq<Entry>, before: Option<Signature>): (hi: nat)
    ensures hi <= |h|
  {
    if before.None? then |h|
    else if Position(h, before.value) == 0 then 0
    else Position(h, before.value) - 1
  }

  function PageBottom(lo: nat, hi: nat, limit: nat): (bottom: nat)
    ensures lo <= hi ==> lo <= bottom <= hi
  {
    if limit < hi - lo then hi - limit else lo
  }

  /** One answer of the node: at most `limit` entries, newest first, strictly between the bounds. */
  function Page(h: seq<Entry>, before: Option<Signature>, until: Option<Signature>, limit: nat): seq<Entry> {
    var hi := PageTop(h, before);
    var lo := CursorPosition(h[..hi], until);
    Reversed(h[PageBottom(lo, hi, limit)..hi])
  }

  function Successful(es: seq<Entry>): seq<Entry> {
    if es == [] then []
    else Successful(es[..|es| - 1]) + (if es[|es| - 1].transfer.Failed? then [] else [es[|es| - 1]])
  }

  /** What a caller holding cursor `until` is owed of history `h`: oldest first. */
  function Since(h: seq<Entry>, until: Option<Signature>): seq<Entry> {
    Successful(h[CursorPosition(h, until)..])
  }

  lemma {:induction false} SuccessfulSplits(a: seq<Entry>, b: seq<Entry>)
    ensures Successful(a + b) == Successful(a) + Successful(b)
    decreases |b|
  {
    if b == [] {
      assert a + b == a;
    } else {
      assert (a + b)[..|a + b| - 1] == a + b[..|b| - 1];
      SuccessfulSplits(a, b[..|b| - 1]);
    }
  }

  lemma {:induction false} SuccessfulReversed(a: seq<Entry>)
    ensures Successful(Reversed(a)) == Reversed(Successful(a))
    decreases |a|
  {
    if a != [] {
      var init, last := a[..|a| - 1], [a[|a| - 1]];
      assert Reversed(a) == last + Reversed(init);
      SuccessfulSplits(last, Reversed(init));
      SuccessfulReversed(init);
      assert last[..0] == [] && last == [] + last;
      assert Successful(last) == if last[0].transfer.Failed? then [] else last;
      assert Reversed(Successful(a)) == Successful(last) + Reversed(Successful(init));
    }
  }

  lemma PositionAt(h: seq<Entry>, i: nat)
    requires Distinct(h) && i < |h|
    ensures Position(h, h[i].signature) == i + 1
  {
    var p := Position(h, h[i].signature);
    assert 0 < p <= |h| && h[p - 1].signature == h[i].signature;
  }

  /** Where a cursor points does not move as the history is cut off after it. */
  lemma PositionStable(h: seq<Entry>, n: nat, sig: Signature)
    requires Distinct(h) && Position(h, sig) <= n <= |h|
    ensures Position(h[..n], sig) == Position(h, sig)
  {
    var p := Position(h, sig);
    if p > 0 {
      PositionAt(h[..n], p - 1);
    }
  }

  /** Each entry of `s` later in `h` than the one before it, none beyond the first `n`. */
  ghost predicate InOrder(h: seq<Entry>, s: seq<Entry>, n: nat) {
    && (forall i | 0 <= i < |s| :: Position(h, s[i].signature) <= n)
    && (forall i, j | 0 <= i < j < |s| :: Position(h, s[i].signature) < Position(h, s[j].signature))
  }

  /** Exactly the successful entries strictly after the cursor, each once, in the order they happened. */
  lemma SinceExactly(h: seq<Entry>, until: Option<Signature>)
    requires Distinct(h)
    ensures forall e :: e in Since(h, until) <==> e in h[CursorPosition(h, until)..] && !e.transfer.Failed?
    ensures InOrder(h, Since(h, until), |h|)
  {
    var p := CursorPosition(h, until);
    SuccessfulMembers(h[p..]);
    SuccessfulOrdered(h, p, |h|);
    assert h[p..|h|] == h[p..];
  }

  lemma {:induction false} SuccessfulMembers(es: seq<Entry>)
    ensures forall e :: e in Successful(es) <==> e in es && !e.transfer.Failed?
    decreases |es|
  {
    if es != [] {
      SuccessfulMembers(es[..|es| - 1]);
      assert es == es[..|es| - 1] + [es[|es| - 1]];
    }
  }

  lemma {:induction false} SuccessfulOrdered(h: seq<Entry>, p: nat, n: nat)
    requires Distinct(h) && p <= n <= |h|
    ensures InOrder(h, Successful(h[p..n]), n)
    decreases n
  {
    if p < n {
      SuccessfulOrdered(h, p, n - 1);
      PositionAt(h, n - 1);
      assert h[p..n][..n - p - 1] == h[p..n - 1];
      var t := Successful(h[p..n - 1]);
      assert Successful(h[p..n]) == t + (if h[n - 1].transfer.Failed? then [] else [h[n - 1]]);
      InOrderPush(h, t, n);
    }
  }

  lemma InOrderPush(h: seq<Entry>, t: seq<Entry>, n: nat)
    requires 0 < n <= |h| && InOrder(h, t, n - 1) && Position(h, h[n - 1].signature) == n
    ensures InOrder(h, t, n) && InOrder(h, t + [h[n - 1]], n)
  {
  }

  /** The RPC node's view of the treasury at our commitment. */
  class Node {
    var history: seq<Entry>

    ghost predicate Valid()
      reads this
    {
      Distinct(history)
    }

    constructor ()
      ensures Valid() && history == []
    {
      history := [];
    }

    /** Time passes: any number of new entries may be listed. */
    method Grow()
      requires Valid()
      modifies this
      ensures Valid() && old(history) <= history
    {
      var n: nat := *;
      while n > 0
        invariant Valid() && old(history) <= history
      {
        var e: Entry := *;
        if Position(history, e.signature) == 0 {
          history := history + [e];
        }
        n := n - 1;
      }
    }

    method GetSignatures(before: Option<Signature>, until: Option<Signature>, limit: nat)
      returns (page: seq<Entry>)
      requires Valid()
      modifies this
      ensures Valid() && old(history) <= history
      ensures page == Page(history, before, until, limit)
    {
      Grow();
      page := Page(history, before, until, limit);
    }

    method AppendSuccessful(listed: seq<Entry>, page: seq<Entry>) returns (out: seq<Entry>)
      ensures out == listed + Successful(page)
    {
      out := listed;
      var i := 0;
      while i < |page|
        invariant 0 <= i <= |page|
        invariant out == listed + Successful(page[..i])
      {
        assert page[..i + 1][..i] == page[..i];
        if !page[i].transfer.Failed? {
          out := out + [page[i]];
        }
        i := i + 1;
      }
      assert page[..|page|] == page;
    }

    /**
     * Every successful entry after `until`, oldest first, as of the moment the first page was
     * answered (`asOf`), whatever is listed while the later pages are read.
     */
    method SignaturesSince(until: Option<Signature>, pageSize: nat)
      returns (out: seq<Entry>, ghost asOf: seq<Entry>)
      requires Valid() && pageSize >= 1
      modifies this
      ensures Valid() && old(history) <= asOf <= history
      ensures out == Since(asOf, until)
    {
      hide Position, Page;
      out := [];
      var before: Option<Signature> := None;
      asOf := history;
      NothingListed(history);
      hide Successful;
      ghost var p := |history|;
      while true
        invariant Valid() && old(history) <= asOf <= history
        invariant CursorPosition(asOf, until) <= p <= |asOf|
        invariant out == Reversed(Successful(asOf[p..]))
        invariant before.None? ==> p == |asOf| && out == []
        invariant before.Some? ==> p < |asOf| && asOf[p].signature == before.value
        decreases before.None?, p
      {
        var page := GetSignatures(before, until, pageSize);
        if before.None? {
          asOf, p := history, |history|;
          NothingListed(history);
        }
        ghost var next := PageBottom(CursorPosition(asOf, until), p, pageSize);
        PageIs(history, asOf, p, before, until, pageSize);
        out := AppendSuccessful(out, page);
        Extended(asOf, next, p);
        assert out == Reversed(Successful(asOf[next..]));
        if |page| < pageSize {
          p := next;
          break;
        }
        before := Some(page[|page| - 1].signature);
        p := next;
      }
      out := Reversed(out);
      assert p == CursorPosition(asOf, until);
      assert Reversed(Reversed(Successful(asOf[p..]))) == Successful(asOf[p..]);
    }
  }

  /** The page asked for below `p`, on any later history. */
  lemma PageIs(h: seq<Entry>, asOf: seq<Entry>, p: nat, before: Option<Signature>, until: Option<Signature>, limit: nat)
    requires Distinct(h) && asOf <= h && CursorPosition(asOf, until) <= p <= |asOf|
    requires before.None? ==> p == |asOf| == |h|
    requires before.Some? ==> p < |asOf| && asOf[p].signature == before.value
    ensures Page(h, before, until, limit)
         == Reversed(asOf[PageBottom(CursorPosition(asOf, until), p, limit)..p])
  {
    var next := PageBottom(CursorPosition(asOf, until), p, limit);
    assert PageTop(h, before) == p by {
      if before.Some? {
        PositionAt(h, p);
      }
    }
    assert h[..p] == asOf[..p];
    assert CursorPosition(asOf[..p], until) == CursorPosition(asOf, until) by {
      if until.Some? {
        PositionStable(asOf, p, until.value);
      }
    }
    hide PageTop, CursorPosition, PageBottom;
    assert h[next..p] == asOf[next..p];
  }

  lemma NothingListed(h: seq<Entry>)
    ensures Reversed(Successful(h[|h|..])) == []
  {
  }

  lemma Extended(h: seq<Entry>, lo: nat, hi: nat)
    requires lo <= hi <= |h|
    ensures Reversed(Successful(h[hi..])) + Successful(Reversed(h[lo..hi])) == Reversed(Successful(h[lo..]))
  {
    assert h[lo..] == h[lo..hi] + h[hi..];
    SuccessfulSplits(h[lo..hi], h[hi..]);
    SuccessfulReversed(h[lo..hi]);
  }
}
