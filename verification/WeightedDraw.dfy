/** Picking a winner in proportion to weight: by walking cumulative weights, and by ticket ranges. */
module WeightedDraw {
  import opened Rounding
  import opened Sums

  datatype Range = Range(start: int, end: int)

  /** Entry `i` owns the tickets between the weights before it and the weights up to it. */
  predicate Owns(ws: seq<nat>, i: nat, ticket: int) {
    i < |ws| && Total(ws[..i]) <= ticket < Total(ws[..i + 1])
  }

  lemma PrefixStep(ws: seq<nat>, i: nat)
    requires i < |ws|
    ensures Total(ws[..i + 1]) == Total(ws[..i]) + ws[i]
  {
    assert ws[..i + 1] == ws[..i] + [ws[i]];
    TotalAppend(ws[..i], ws[i]);
  }

  lemma {:induction false} PrefixMonotone(ws: seq<nat>, i: nat, j: nat)
    requires i <= j <= |ws|
    ensures Total(ws[..i]) <= Total(ws[..j])
    decreases j
  {
    if i < j {
      PrefixMonotone(ws, i, j - 1);
      PrefixStep(ws, j - 1);
    }
  }

  /** No ticket has two owners. */
  lemma OwnerUnique(ws: seq<nat>, i: nat, j: nat, ticket: int)
    requires Owns(ws, i, ticket) && Owns(ws, j, ticket)
    ensures i == j
  {
    if i < j {
      PrefixMonotone(ws, i + 1, j);
    } else if j < i {
      PrefixMonotone(ws, j + 1, i);
    }
  }

  /** Every ticket below the pot has an owner, and no other ticket has one. */
  lemma {:induction false} OwnerExists(ws: seq<nat>, ticket: int)
    ensures 0 <= ticket < Total(ws) <==> exists i :: Owns(ws, i, ticket)
  {
    assert ws[..|ws|] == ws && ws[..0] == [];
    if 0 <= ticket < Total(ws) {
      var i := |ws| - 1;
      while Total(ws[..i]) > ticket
        invariant 0 <= i < |ws| && ticket < Total(ws[..i + 1])
        decreases i
      {
        i := i - 1;
      }
      assert Owns(ws, i, ticket);
    }
    if i: nat :| Owns(ws, i, ticket) {
      PrefixMonotone(ws, 0, i);
      PrefixMonotone(ws, i + 1, |ws|);
    }
  }

  /** `weightedWinnerIndex`: walk from `i` with the weight already passed. */
  function WalkFrom(ticket: int, ws: seq<nat>, i: nat): nat
    requires i <= |ws|
    decreases |ws| - i
  {
    if i == |ws| then (if |ws| == 0 then 0 else |ws| - 1)
    else if ticket < Total(ws[..i + 1]) then i
    else WalkFrom(ticket, ws, i + 1)
  }

  lemma {:induction false} WalkFinds(ticket: int, ws: seq<nat>, i: nat)
    requires i <= |ws| && Total(ws[..i]) <= ticket
    ensures ticket < Total(ws) ==> Owns(ws, WalkFrom(ticket, ws, i), ticket)
    ensures ticket >= Total(ws) ==> WalkFrom(ticket, ws, i) == (if |ws| == 0 then 0 else |ws| - 1)
    decreases |ws| - i
  {
    assert ws[..|ws|] == ws;
    if i < |ws| && ticket >= Total(ws[..i + 1]) {
      WalkFinds(ticket, ws, i + 1);
    } else if i < |ws| {
      PrefixMonotone(ws, i + 1, |ws|);
    }
  }

  method WeightedWinnerIndex(ticket: int, weights: seq<nat>) returns (i: nat)
    ensures i == WalkFrom(ticket, weights, 0)
    ensures 0 <= ticket < Total(weights) ==> Owns(weights, i, ticket)
    ensures weights != [] ==> i < |weights|
  {
    if 0 <= ticket {
      WalkFinds(ticket, weights, 0);
    }
    var cumulative := 0;
    assert weights[..0] == [];
    i := 0;
    while i < |weights|
      invariant i <= |weights| && cumulative == Total(weights[..i])
      invariant WalkFrom(ticket, weights, i) == WalkFrom(ticket, weights, 0)
    {
      PrefixStep(weights, i);
      cumulative := cumulative + weights[i];
      if ticket < cumulative {
        return;
      }
      i := i + 1;
    }
    i := if |weights| == 0 then 0 else |weights| - 1;
  }

  /** `jackpotRanges`: consecutive ranges, each as wide as its entry. */
  method JackpotRanges(amounts: seq<nat>) returns (ranges: seq<Range>)
    ensures |ranges| == |amounts|
    ensures forall i | 0 <= i < |amounts| :: ranges[i] == Range(Total(amounts[..i]), Total(amounts[..i + 1]))
  {
    var cursor := 0;
    ranges := [];
    assert amounts[..0] == [];
    for i := 0 to |amounts|
      invariant |ranges| == i && cursor == Total(amounts[..i])
      invariant forall k | 0 <= k < i :: ranges[k] == Range(Total(amounts[..k]), Total(amounts[..k + 1]))
    {
      PrefixStep(amounts, i);
      ranges := ranges + [Range(cursor, cursor + amounts[i])];
      cursor := cursor + amounts[i];
    }
  }

  predicate IsRangeWinner(amounts: seq<nat>, ticket: int, i: int) {
    if 0 <= ticket < Total(amounts) then 0 <= i && Owns(amounts, i, ticket) else i == -1
  }

  /** The first range holding the ticket, or -1. */
  method JackpotWinnerIndex(amounts: seq<nat>, ticket: int) returns (i: int)
    ensures IsRangeWinner(amounts, ticket, i)
  {
    var ranges := JackpotRanges(amounts);
    OwnerExists(amounts, ticket);
    for k := 0 to |ranges|
      invariant forall j: nat | j < k :: !Owns(amounts, j, ticket)
    {
      assert ranges[k] == Range(Total(amounts[..k]), Total(amounts[..k + 1]));
      if ticket >= ranges[k].start && ticket < ranges[k].end {
        assert Owns(amounts, k, ticket);
        return k;
      }
    }
    i := -1;
  }

  /** Both ways of drawing name the same winner exactly on the tickets of the pot. */
  lemma AgreeExactly(ws: seq<nat>, ticket: int, ranged: int)
    requires IsRangeWinner(ws, ticket, ranged)
    ensures ranged == WalkFrom(ticket, ws, 0) <==> 0 <= ticket < Total(ws)
  {
    if 0 <= ticket < Total(ws) {
      assert ws[..0] == [];
      WalkFinds(ticket, ws, 0);
      OwnerUnique(ws, WalkFrom(ticket, ws, 0), ranged, ticket);
    }
  }

  /** The tickets of the pot that select entry `i`. */
  function Winning(ws: seq<nat>, i: nat): set<int> {
    set t: int | 0 <= t < Total(ws) && WalkFrom(t, ws, 0) == i
  }

  /** Exactly as many tickets select an entry as its weight. */
  lemma TicketsPerEntry(ws: seq<nat>, i: nat)
    requires i < |ws|
    ensures |Winning(ws, i)| == ws[i]
  {
    PrefixStep(ws, i);
    PrefixMonotone(ws, 0, i);
    PrefixMonotone(ws, i + 1, |ws|);
    assert ws[..|ws|] == ws;
    var lo, hi := Total(ws[..i]), Total(ws[..i + 1]);
    forall t: int | 0 <= t < Total(ws) ensures WalkFrom(t, ws, 0) == i <==> lo <= t < hi {
      WalkFinds(t, ws, 0);
      if lo <= t < hi {
        OwnerUnique(ws, i, WalkFrom(t, ws, 0), t);
      }
    }
    assert Winning(ws, i) == Interval(lo, hi);
  }
}
