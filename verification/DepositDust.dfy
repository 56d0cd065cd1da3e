/**
 * What it means for a transfer to have been ignored. The two ownership tables are read one after
 * the other, so "from a wallet no account owned" holds of what is dropped exactly unless the
 * wallet became its account's primary one between the two reads.
 */
module DepositDust {
  import opened Wrappers
  import opened ChainHistory
  import opened DepositProtocol

  ghost predicate Owned(s: State, w: Wallet) {
    w in s.primary || w in s.linked
  }

  /** The `k`-th step of the window made `w` a primary wallet, and it stayed one. */
  ghost predicate PromotedAt(s: State, window: seq<Action>, w: Wallet, k: nat) {
    && k < |window| && w !in Exec(s, window[..k]).primary
    && ((window[k].SetPrimary? && window[k].promoted == w) || (window[k].Own? && window[k].wallet == w))
    && forall j | k < j <= |window| :: w in Exec(s, window[..j]).primary
  }

  lemma OnlyPromotionsAdd(s: State, a: Action, w: Wallet)
    requires w !in s.primary && w in Step(s, a).primary
    ensures (a.SetPrimary? && a.promoted == w) || (a.Own? && a.wallet == w)
  {
    if a.Credit? && Enabled(s, a) {
      CreditTouches(s, a.sig, a.block);
    }
    hide CreditTx, Position, RowBacked, SoleOwner, Covered;
  }

  lemma {:induction false} BecamePrimary(s: State, window: seq<Action>, w: Wallet) returns (k: nat)
    requires w !in s.primary && w in Exec(s, window).primary
    ensures PromotedAt(s, window, w, k)
  {
    hide Step;
    k := |window|;
    assert window[..k] == window;
    while w in Exec(s, window[..k]).primary
      invariant 0 <= k <= |window|
      invariant forall j | k < j <= |window| :: w in Exec(s, window[..j]).primary
      invariant k == |window| ==> w in Exec(s, window[..k]).primary
      decreases k
    {
      assert window[..0] == [];
      k := k - 1;
    }
    assert window[..k + 1][..k] == window[..k];
    OnlyPromotionsAdd(Exec(s, window[..k]), window[k], w);
  }

  /**
   * A wallet missed by both reads, the primary wallets at `s` and the linked ones after `window`,
   * is an account's all the same exactly when it became a primary wallet in between.
   */
  lemma MissedWhileOwnedExactly(s: State, window: seq<Action>, w: Wallet)
    requires w !in s.primary && w !in Exec(s, window).linked
    ensures Owned(Exec(s, window), w) <==> exists k :: PromotedAt(s, window, w, k)
  {
    assert window[..|window|] == window;
    if k: nat :| PromotedAt(s, window, w, k) {
      assert w in Exec(s, window[..|window|]).primary;
    }
    if Owned(Exec(s, window), w) {
      var k := BecamePrimary(s, window, w);
    }
  }

  // ---- The moments of a run -------------------------------------------------------------

  function Middle(actions: seq<Action>, i: nat, j: nat): seq<Action>
    requires i <= j <= |actions|
  {
    actions[..j][i..]
  }

  /** What a read saw was the table at some moment. */
  lemma {:induction false} ReadWasReal(s: State, actions: seq<Action>, keys: set<Wallet>) returns (i: nat)
    requires Initial(s) && keys in Exec(s, actions).seen
    ensures i <= |actions| && Exec(s, actions[..i]).primary.Keys == keys
    decreases |actions|
  {
    if actions == [] {
      assert false;
    } else {
      var front, a := actions[..|actions| - 1], actions[|actions| - 1];
      if keys in Exec(s, front).seen {
        i := ReadWasReal(s, front, keys);
        assert front[..i] == actions[..i];
      } else {
        i := |front|;
        SeenGrows(Exec(s, front), a, keys);
      }
    }
  }

  lemma SeenGrows(s: State, a: Action, keys: set<Wallet>)
    requires keys !in s.seen && keys in Step(s, a).seen
    ensures keys == s.primary.Keys
  {
    if a.Credit? && Enabled(s, a) {
      CreditTouches(s, a.sig, a.block);
    }
    hide CreditTx, Position, RowBacked, SoleOwner, Covered;
  }

  /** Missed by a read of the primary wallets at step `i` and of the linked ones at step `j`, below the minimum then. */
  ghost predicate MissedBetween(s: State, actions: seq<Action>, t: Transfer, i: nat, j: nat)
    requires t.Inbound?
  {
    && i <= j <= |actions| && t.amount < Exec(s, actions[..j]).minimum
    && forall w | w in t.signers :: w !in Exec(s, actions[..i]).primary && w !in Exec(s, actions[..j]).linked
  }

  lemma IgnoreStep(s: State, a: Action, sig: Signature)
    requires sig in Step(s, a).dust && (sig in s.dust ==> Step(s, a).dust[sig] != s.dust[sig])
    ensures a.Ignore? && a.sig == sig && a.primaries in s.seen
    ensures Step(s, a).dust[sig] == Note(s.minimum, a.primaries, s.linked.Keys)
  {
    if a.Credit? && Enabled(s, a) {
      CreditTouches(s, a.sig, a.block);
    }
    hide CreditTx, Position, RowBacked, SoleOwner, Covered;
  }

  /** A note says what the tables and the minimum were at two moments of the run, in that order. */
  lemma {:induction false} NoteWasReal(s: State, actions: seq<Action>, sig: Signature) returns (i: nat, j: nat)
    requires Initial(s) && sig in Exec(s, actions).dust
    ensures i <= j <= |actions|
    ensures Exec(s, actions).dust[sig]
         == Note(Exec(s, actions[..j]).minimum, Exec(s, actions[..i]).primary.Keys, Exec(s, actions[..j]).linked.Keys)
    decreases |actions|
  {
    if actions == [] {
      assert false;
    } else {
      var front, a := actions[..|actions| - 1], actions[|actions| - 1];
      var m := Exec(s, front);
      assert Exec(s, actions) == Step(m, a);
      if sig in m.dust && Step(m, a).dust[sig] == m.dust[sig] {
        hide Step, Initial;
        i, j := NoteWasReal(s, front, sig);
        assert front[..i] == actions[..i] && front[..j] == actions[..j];
      } else {
        IgnoreStep(m, a, sig);
        hide Step, Initial;
        j := |front|;
        i := ReadWasReal(s, front, a.primaries);
        assert front[..i] == actions[..i];
      }
    }
  }

  lemma IgnoredAt(s: State, actions: seq<Action>, sig: Signature) returns (i: nat, j: nat)
    requires Initial(s) && sig in Exec(s, actions).dust
    ensures TransferOf(Exec(s, actions).history, sig).Inbound?
    ensures MissedBetween(s, actions, TransferOf(Exec(s, actions).history, sig), i, j)
  {
    InitialInv(s);
    ExecKeepsInv(s, actions);
    i, j := NoteWasReal(s, actions, sig);
    hide Exec, Initial, Evolves, Position, TransferOf;
    assert DustBy(TransferOf(Exec(s, actions).history, sig), Exec(s, actions).dust[sig]);
  }

  /**
   * Every ignored transfer was below the minimum and missed by both reads; and at the moment it
   * was dropped, each of its signers' wallets was no account's, except exactly those that had
   * become primary wallets between the two reads.
   */
  lemma DustWasUnknownExactly(s: State, actions: seq<Action>, sig: Signature) returns (i: nat, j: nat)
    requires Initial(s) && sig in Exec(s, actions).dust
    ensures TransferOf(Exec(s, actions).history, sig).Inbound?
    ensures MissedBetween(s, actions, TransferOf(Exec(s, actions).history, sig), i, j)
    ensures forall w | w in TransferOf(Exec(s, actions).history, sig).signers ::
              Owned(Exec(s, actions[..j]), w)
              <==> exists k :: PromotedAt(Exec(s, actions[..i]), Middle(actions, i, j), w, k)
  {
    i, j := IgnoredAt(s, actions, sig);
    assert actions[..j] == actions[..i] + Middle(actions, i, j);
    ExecConcat(s, actions[..i], Middle(actions, i, j));
    forall w | w in TransferOf(Exec(s, actions).history, sig).signers
      ensures Owned(Exec(s, actions[..j]), w)
              <==> exists k :: PromotedAt(Exec(s, actions[..i]), Middle(actions, i, j), w, k)
    {
      MissedWhileOwnedExactly(Exec(s, actions[..i]), Middle(actions, i, j), w);
    }
  }

  // ---- The run in which it fails --------------------------------------------------------

  /** Account 0 has primary wallet 10 and linked wallet 11, and sends a transfer of 1 from wallet 11. */
  function KnownSender(): seq<Action> {
    [Own(10, 0), Link(11, 0), SetMinimum(2), Listed(Entry(1, 0, Inbound(1, [11])))]
  }

  /** The scan reads the primary wallets, the owner promotes wallet 11, and the scan reads the linked ones. */
  function DroppedMeanwhile(): seq<Action> {
    [ReadPrimaries, SetPrimary(0, 10, 11), Ignore(1, {10}), MoveCursor(1)]
  }

  ghost function Four(s: State, actions: seq<Action>, n: nat): State
    requires |actions| == 4 && n <= 4
  {
    if n == 0 then s else Step(Four(s, actions, n - 1), actions[n - 1])
  }

  lemma {:induction false} FourIsExec(s: State, actions: seq<Action>, n: nat)
    requires |actions| == 4 && n <= 4
    ensures Exec(s, actions[..n]) == Four(s, actions, n)
  {
    if n > 0 {
      FourIsExec(s, actions, n - 1);
      assert actions[..n][..n - 1] == actions[..n - 1];
    }
    hide Step;
  }

  ghost function Sent(s: State): State {
    s.(primary := map[10 := 0], linked := map[11 := 0], owned := {(10, 0), (11, 0)}, minimum := 2,
       history := [Entry(1, 0, Inbound(1, [11]))])
  }

  lemma KnownSenderSent(s: State)
    requires Initial(s)
    ensures Exec(s, KnownSender()) == Sent(s)
  {
    var a := KnownSender();
    var s1 := s.(primary := map[10 := 0], owned := {(10, 0)});
    assert Step(s, a[0]) == s1;
    var s2 := s1.(linked := map[11 := 0], owned := {(10, 0), (11, 0)});
    assert Step(s1, a[1]) == s2;
    var s3 := s2.(minimum := 2);
    assert Step(s2, a[2]) == s3;
    assert Step(s3, a[3]) == Sent(s) by {
      assert [] + [Entry(1, 0, Inbound(1, [11]))] == [Entry(1, 0, Inbound(1, [11]))];
    }
    hide Step;
    FourIsExec(s, a, 4);
    assert a[..4] == a;
    assert Four(s, a, 1) == s1;
    assert Four(s, a, 2) == s2;
  }

  ghost function Dropped(s: State): State {
    Sent(s).(primary := map[11 := 0], linked := map[10 := 0], seen := {{10}},
             dust := map[1 := Note(2, {10}, {10})], cursor := Some(1))
  }

  lemma DroppedRun(s: State)
    requires Initial(s)
    ensures var m, a := Sent(s), DroppedMeanwhile();
      && Four(m, a, 1).linked == map[11 := 0] && Four(m, a, 2).primary == Four(m, a, 3).primary == map[11 := 0]
      && Four(m, a, 4) == Dropped(s)
  {
    var m, a := Sent(s), DroppedMeanwhile();
    var s1 := m.(seen := {{10}});
    assert Step(m, a[0]) == s1 by {
      assert m.primary.Keys == {10};
    }
    var s2 := s1.(primary := map[11 := 0], linked := map[10 := 0]);
    assert Step(s1, a[1]) == s2 by {
      assert (s1.primary - {10})[11 := 0] == s2.primary && (s1.linked - {11})[10 := 0] == s2.linked;
    }
    var s3 := s2.(dust := map[1 := Note(2, {10}, {10})]);
    assert Position(s2.history, 1) == 1;
    assert Step(s2, a[2]) == s3 by {
      assert s2.linked.Keys == {10};
    }
    assert Covered(s3.history, Known(s3), 1);
    assert Step(s3, a[3]) == Dropped(s);
    hide Step;
    assert Four(m, a, 1) == s1;
    assert Four(m, a, 2) == s2;
    assert Four(m, a, 3) == s3;
  }

  /**
   * The transfer of an account that owned the wallet at every moment is dropped without a row,
   * and the cursor moves past it.
   */
  lemma PromotionHidesOwner(s: State)
    requires Initial(s)
    ensures var m := Exec(s, KnownSender());
      var t := Exec(m, DroppedMeanwhile());
      && (forall n: nat | n <= 4 :: Owned(Exec(m, DroppedMeanwhile()[..n]), 11))
      && 1 in t.dust && 1 !in t.rows && t.cursor == Some(1)
  {
    KnownSenderSent(s);
    DroppedRun(s);
    var m, a := Sent(s), DroppedMeanwhile();
    assert a[..4] == a;
    forall n: nat | n <= 4 ensures Exec(m, a[..n]) == Four(m, a, n) {
      FourIsExec(m, a, n);
    }
    assert Four(m, a, 0) == m;
    hide Step, Exec, Four;
    forall n: nat | n <= 4 ensures Owned(Exec(m, a[..n]), 11) {
      assert n == 0 || n == 1 || n == 2 || n == 3 || n == 4;
    }
  }
}
