/**
 * What the withdrawal protocol gets done: that the user can still be paid, that nothing is given
 * back early, that nothing is signed against the operator's wishes, and that what is signed and
 * stored reaches the network.
 */
module WithdrawalProgress {
  import opened Wrappers
  import opened WithdrawalProtocol

  predicate SettingsUntouched(run: seq<Action>) {
    forall i | 0 <= i < |run| :: !run[i].Configure?
  }

  /** The row is confirmed and the transfer of its signature is on the chain for good. */
  predicate PaidOut(s: State) {
    s.row.status == Confirmed && s.row.signature.Some? && Paid(s.chain, s.row.signature.value)
  }

  // ---- The user can be paid -------------------------------------------------------------

  lemma {:induction false} FreshBlockhash(stored: seq<Signature>) returns (h: nat)
    ensures forall sig | sig in stored :: sig.blockhash < h
    decreases |stored|
  {
    if stored == [] {
      h := 0;
    } else {
      var n := |stored| - 1;
      h := FreshBlockhash(stored[..n]);
      if h <= stored[n].blockhash {
        h := stored[n].blockhash + 1;
      }
      assert forall sig | sig in stored :: sig in stored[..n] || sig == stored[n];
    }
  }

  /** Read, allowed, funded, signed and stored: the row is sent and worker 0 holds the signature. */
  lemma SignAndStore(s: State, sig: Signature) returns (run: seq<Action>)
    requires Inv(s) && s.row.status == Pending && s.row.attempts < s.config.maxAttempts
    ensures SettingsUntouched(run)
    ensures Exec(s, run) == s.(row := Row(Sent, Some(sig), Some(sig.lastValid), s.row.attempts + 1),
                               workers := s.workers[0 := Broadcasting(sig)], stored := s.stored + [sig])
  {
    run := FreshRead(s);
    var m := Exec(s, run);
    hide Inv;
    run := Then(s, run, PauseAnswer(0, false));
    run := Then(s, run, BalanceAnswer(0, s.amount + s.config.feeReserve));
    run := Then(s, run, SignAnswer(0, sig));
    var t := Exec(s, run);
    assert t.workers[0] == Claiming(s.row, sig) && t.row == s.row;
    run := Then(s, run, Claim(0));
    var u := Exec(s, run);
    assert u.workers == s.workers[0 := Broadcasting(sig)];
  }

  /** The node takes the signature, and the transfer lands. */
  lemma SendAndLand(s: State, sig: Signature) returns (run: seq<Action>)
    requires 0 in s.workers && s.workers[0] == Broadcasting(sig)
    requires sig !in s.chain.landed && s.chain.finalized < sig.lastValid
    ensures SettingsUntouched(run)
    ensures var t := Exec(s, run);
      && t.row == s.row && t.config == s.config
      && sig in t.chain.landed && t.chain.landed[sig] == Landing(s.chain.finalized + 1, true)
  {
    run := Then(s, [], Broadcast(0));
    run := Then(s, run, Land(sig, s.chain.finalized + 1, true));
  }

  /** From a fresh reading of a sent row whose transfer has landed and is final. */
  lemma ConfirmRead(s: State, row: Row) returns (run: seq<Action>)
    requires 0 in s.workers && s.workers[0] == HeightRead(row) && s.row == row && row.status == Sent
    requires row.signature.Some? && row.lastValid.Some? && Paid(s.chain, row.signature.value)
    ensures SettingsUntouched(run) && PaidOut(Exec(s, run))
  {
    var st := SignatureState(true, false, true);
    var to := s.chain.finalized;
    run := Then(s, [], HeightAnswer(0, to));
    var t := Exec(s, run);
    assert t == At(s, 0, StatusRead(row, to));
    assert Enabled(t, StatusAnswer(0, to, st));
    run := Then(s, run, StatusAnswer(0, to, st));
    var u := Exec(s, run);
    assert u.workers[0] == Confirming(row) && u.row == row && u.chain == s.chain;
    run := Then(s, run, Confirm(0));
  }

  lemma ConfirmLanded(s: State) returns (run: seq<Action>)
    requires Inv(s) && s.row.status == Sent
    requires s.row.signature.value in s.chain.landed && s.chain.landed[s.row.signature.value].ok
    ensures SettingsUntouched(run) && PaidOut(Exec(s, run))
  {
    var to := s.chain.finalized + s.chain.landed[s.row.signature.value].height;
    var first := FreshRead(s);
    hide Inv;
    first := Then(s, first, Finalize(to));
    var m := Exec(s, first);
    assert m.workers[0] == HeightRead(s.row) && m.row == s.row && m.chain == s.chain.(finalized := to);
    hide Exec, PaidOut;
    var second := ConfirmRead(m, s.row);
    run := first + second;
    ExecConcat(s, first, second);
  }

  /** A pending row with an attempt left: signed, sent, landed, confirmed. */
  lemma PayPending(s: State) returns (run: seq<Action>)
    requires Inv(s) && s.row.status == Pending && s.row.attempts < s.config.maxAttempts
    ensures SettingsUntouched(run) && PaidOut(Exec(s, run))
  {
    var h := FreshBlockhash(s.stored);
    var sig := Signature(h, s.chain.finalized + 1);
    assert sig !in s.chain.landed;
    var first := SignAndStore(s, sig);
    ExecKeepsInv(s, first);
    var m := Exec(s, first);
    hide Inv, Exec, PaidOut;
    var second := SendAndLand(m, sig);
    ExecKeepsInv(m, second);
    var third := ConfirmLanded(Exec(m, second));
    ExecConcat(s, first, second);
    ExecConcat(s, first + second, third);
    run := first + second + third;
  }

  /** A withdrawal just requested can be paid with the settings as they are, if these allow one attempt. */
  lemma FreshRowIsPaid(s: State) returns (run: seq<Action>)
    requires Initial(s) && s.config.maxAttempts > 0
    ensures SettingsUntouched(run) && PaidOut(Exec(s, run))
  {
    InitialInv(s);
    run := PayPending(s);
  }

  lemma MoreAttempts(s: State) returns (run: seq<Action>)
    requires Inv(s)
    ensures Exec(s, run).row == s.row && s.row.attempts < Exec(s, run).config.maxAttempts
  {
    assert s.lag <= s.config.margin + 1;
    hide Inv;
    EmptyRun(s);
    run := Then(s, [], Configure(s.config.(maxAttempts := s.row.attempts + 1)));
  }

  lemma CanStillPay(s: State) returns (run: seq<Action>)
    requires Inv(s) && s.row.status != Failed
    ensures PaidOut(Exec(s, run))
  {
    if s.row.status == Confirmed {
      run := [];
    } else {
      var first := MoreAttempts(s);
      ExecKeepsInv(s, first);
      var m := Exec(s, first);
      var second: seq<Action> := [];
      if m.row.status == Sent {
        second := ResolveSent(m);
        ExecKeepsInv(m, second);
      }
      var t := Exec(m, second);
      var third: seq<Action> := [];
      assert t.row.status == Confirmed ==> PaidOut(t);
      if t.row.status == Pending {
        hide Inv, PaidOut;
        third := PayPending(t);
      }
      hide Inv, Exec, PaidOut;
      ExecConcat(s, first, second);
      ExecConcat(s, first + second, third);
      run := first + second + third;
      EmptyRun(t);
    }
  }

  lemma EmptyRun(s: State)
    ensures Exec(s, []) == s
  {
  }

  /** In every reachable state: the withdrawal can still be paid if and only if it has not failed. */
  lemma PayableExactly(s: State)
    requires Inv(s)
    ensures (exists run :: PaidOut(Exec(s, run))) <==> s.row.status != Failed
  {
    if s.row.status != Failed {
      var run := CanStillPay(s);
    } else {
      hide Inv;
      forall run ensures !PaidOut(Exec(s, run)) {
        SettledStays(s, run);
      }
    }
  }

  // ---- Nothing is given back early ------------------------------------------------------

  /** No worker decided to refund, and no row failed, with fewer than `low` attempts made. */
  predicate NoneEarly(s: State, low: nat) {
    && low <= s.config.maxAttempts
    && (s.row.status == Failed ==> low <= s.row.attempts)
    && forall w | w in s.workers :: PcNotEarly(s.workers[w], s.row.attempts, low)
  }

  predicate PcNotEarly(pc: Pc, attempts: nat, low: nat) {
    match pc
    case Idle => true
    case Broadcasting(_) => true
    case PauseCheck(r) => r.attempts <= attempts
    case BalanceCheck(r) => r.attempts <= attempts
    case Signing(r) => r.attempts <= attempts
    case Claiming(r, _) => r.attempts <= attempts
    case HeightRead(r) => r.attempts <= attempts
    case StatusRead(r, _) => r.attempts <= attempts
    case Confirming(r) => r.attempts <= attempts
    case Repending(r) => r.attempts <= attempts
    case Refunding(r) => low <= r.attempts <= attempts
  }

  predicate LimitsFrom(run: seq<Action>, low: nat) {
    forall i | 0 <= i < |run| :: run[i].Configure? ==> low <= run[i].config.maxAttempts
  }

  lemma StepNotEarly(s: State, a: Action, low: nat)
    requires Inv(s) && NoneEarly(s, low) && (a.Configure? ==> low <= a.config.maxAttempts)
    ensures NoneEarly(Step(s, a), low)
  {
    if Enabled(s, a) {
      var t := Effect(s, a);
      assert s.row.attempts <= t.row.attempts;
      forall w | w in t.workers ensures PcNotEarly(t.workers[w], t.row.attempts, low) {
        if w in s.workers {
          assert PcNotEarly(s.workers[w], s.row.attempts, low);
        }
      }
      if a.Refund? {
        assert PcNotEarly(s.workers[a.w], s.row.attempts, low);
      }
      hide Inv;
    }
  }

  lemma {:induction false} ExecNotEarly(s: State, run: seq<Action>, low: nat)
    requires Inv(s) && NoneEarly(s, low) && LimitsFrom(run, low)
    ensures NoneEarly(Exec(s, run), low)
  {
    if run != [] {
      var n := |run| - 1;
      ExecNotEarly(s, run[..n], low);
      ExecKeepsInv(s, run[..n]);
      hide Inv, NoneEarly, Step;
      StepNotEarly(Exec(s, run[..n]), run[n], low);
    }
  }

  /** A withdrawal is refunded only after as many attempts as the smallest limit ever in force. */
  lemma RefundedAfterAttempts(s: State, run: seq<Action>, low: nat)
    requires Initial(s) && low <= s.config.maxAttempts && LimitsFrom(run, low) && Exec(s, run).row.status == Failed
    ensures low <= Exec(s, run).row.attempts && |Exec(s, run).stored| == Exec(s, run).row.attempts
  {
    InitialInv(s);
    ExecNotEarly(s, run, low);
    ExecKeepsInv(s, run);
  }

  // ---- Nothing is signed against the operator's wishes ----------------------------------

  /** Worker `w` was told at step `k` that withdrawals are not paused, and has not stopped since. */
  predicate NotPausedSince(s: State, run: seq<Action>, w: nat, k: nat) {
    && k < |run| && run[k] == PauseAnswer(w, false)
    && forall i | k < i <= |run| :: w in Exec(s, run[..i]).workers && !Exec(s, run[..i]).workers[w].Idle?
  }

  /** And at step `l` that the hot wallet covers the amount and the fee reserve then in force. */
  predicate CoveredAt(s: State, run: seq<Action>, w: nat, l: nat) {
    && l < |run| && run[l].BalanceAnswer? && run[l].w == w
    && s.amount + Exec(s, run[..l]).config.feeReserve <= run[l].hot
  }

  ghost predicate Allowed(s: State, run: seq<Action>, w: nat) {
    exists k, l :: k < l && NotPausedSince(s, run, w, k) && CoveredAt(s, run, w, l)
  }

  ghost predicate Permitted(s: State, run: seq<Action>, w: nat)
    requires w in Exec(s, run).workers
  {
    match Exec(s, run).workers[w]
    case BalanceCheck(_) => exists k :: NotPausedSince(s, run, w, k)
    case Signing(_) => Allowed(s, run, w)
    case Claiming(_, _) => Allowed(s, run, w)
    case _ => true
  }

  lemma NotPausedOn(s: State, run: seq<Action>, a: Action, w: nat, k: nat)
    requires NotPausedSince(s, run, w, k)
    requires w in Exec(s, run + [a]).workers && !Exec(s, run + [a]).workers[w].Idle?
    ensures NotPausedSince(s, run + [a], w, k)
  {
    var more := run + [a];
    hide Exec;
    assert more[..|more|] == more;
    assert forall i | 0 <= i <= |run| :: more[..i] == run[..i];
  }

  lemma CoveredOn(s: State, run: seq<Action>, a: Action, w: nat, l: nat)
    requires CoveredAt(s, run, w, l)
    ensures CoveredAt(s, run + [a], w, l)
  {
    hide Exec;
    assert (run + [a])[..l] == run[..l];
  }

  lemma AllowedOn(s: State, run: seq<Action>, a: Action, w: nat)
    requires Allowed(s, run, w) && w in Exec(s, run + [a]).workers && !Exec(s, run + [a]).workers[w].Idle?
    ensures Allowed(s, run + [a], w)
  {
    hide Exec;
    var k, l :| k < l && NotPausedSince(s, run, w, k) && CoveredAt(s, run, w, l);
    NotPausedOn(s, run, a, w, k);
    CoveredOn(s, run, a, w, l);
  }

  lemma LastStep(s: State, run: seq<Action>, a: Action)
    ensures Exec(s, run + [a]) == Step(Exec(s, run), a)
    ensures Exec(s, (run + [a])[..|run|]) == Exec(s, run)
  {
    assert (run + [a])[..|run|] == run;
    hide Step;
  }

  lemma AmountStays(s: State, run: seq<Action>)
    ensures Exec(s, run).amount == s.amount
  {
    if run != [] {
      AmountStays(s, run[..|run| - 1]);
    }
  }

  lemma PermittedOn(s: State, run: seq<Action>, a: Action, w: nat)
    requires w in Exec(s, run + [a]).workers && (w in Exec(s, run).workers ==> Permitted(s, run, w))
    ensures Permitted(s, run + [a], w)
  {
    var m, more := Exec(s, run), run + [a];
    LastStep(s, run, a);
    AmountStays(s, run);
    var t := Exec(s, more);
    var pc := t.workers[w];
    if Enabled(m, a) && a == PauseAnswer(w, false) {
      assert more[..|more|] == more;
      hide Exec;
      assert NotPausedSince(s, more, w, |run|);
    } else if Enabled(m, a) && a.BalanceAnswer? && a.w == w {
      if pc.Signing? {
        var k :| NotPausedSince(s, run, w, k);
        NotPausedOn(s, run, a, w, k);
        assert CoveredAt(s, more, w, |run|);
        assert Allowed(s, more, w);
      }
    } else if w in m.workers {
      PermittedKept(s, run, a, w);
    }
  }

  lemma PermittedKept(s: State, run: seq<Action>, a: Action, w: nat)
    requires w in Exec(s, run).workers && w in Exec(s, run + [a]).workers && Permitted(s, run, w)
    requires !(Enabled(Exec(s, run), a) && (a == PauseAnswer(w, false) || (a.BalanceAnswer? && a.w == w)))
    ensures Permitted(s, run + [a], w)
  {
    var m := Exec(s, run);
    LastStep(s, run, a);
    var pc, next := m.workers[w], Exec(s, run + [a]).workers[w];
    assert next.BalanceCheck? ==> pc == next;
    assert next.Signing? ==> pc == next;
    assert next.Claiming? ==> pc == next || pc.Signing?;
    hide Exec, Step, Enabled;
    if next.BalanceCheck? {
      var k :| NotPausedSince(s, run, w, k);
      NotPausedOn(s, run, a, w, k);
    } else if next.Signing? || next.Claiming? {
      AllowedOn(s, run, a, w);
    }
  }

  lemma {:induction false} AllPermitted(s: State, run: seq<Action>, w: nat)
    requires Initial(s) && w in Exec(s, run).workers
    ensures Permitted(s, run, w)
  {
    if run != [] {
      var n := |run| - 1;
      assert run == run[..n] + [run[n]];
      if w in Exec(s, run[..n]).workers {
        AllPermitted(s, run[..n], w);
      }
      hide Permitted, Exec, Initial;
      PermittedOn(s, run[..n], run[n], w);
    }
  }

  /**
   * A signature is stored only by a worker that, in the same pass, was told that withdrawals are
   * not paused and then that the hot wallet covers the amount and the fee reserve.
   */
  lemma SignedOnlyIfAllowed(s: State, run: seq<Action>, a: Action)
    requires Initial(s) && Step(Exec(s, run), a).stored != Exec(s, run).stored
    ensures a.Claim? && Allowed(s, run, a.w)
  {
    var m := Exec(s, run);
    assert a.Claim? && a.w in m.workers && m.workers[a.w].Claiming?;
    hide Step, Exec;
    AllPermitted(s, run, a.w);
  }

  // ---- What is stored reaches the network -----------------------------------------------

  predicate NoCrash(run: seq<Action>) {
    forall i | 0 <= i < |run| :: !run[i].Crash?
  }

  ghost predicate OnItsWay(s: State, sig: Signature) {
    sig in s.chain.broadcast || exists w :: w in s.workers && s.workers[w] == Broadcasting(sig)
  }

  lemma StaysOnItsWay(s: State, a: Action, sig: Signature)
    requires OnItsWay(s, sig) && !a.Crash?
    ensures OnItsWay(Step(s, a), sig)
  {
    if Enabled(s, a) && sig !in s.chain.broadcast {
      var w :| w in s.workers && s.workers[w] == Broadcasting(sig);
      var t := Effect(s, a);
      assert t.workers[w] == Broadcasting(sig) || sig in t.chain.broadcast;
    }
  }

  /** While no worker dies, every signature a row ever stored is broadcast or in a worker's hand to be. */
  lemma {:induction false} StoredIsSent(s: State, run: seq<Action>, sig: Signature)
    requires Initial(s) && NoCrash(run) && sig in Exec(s, run).stored
    ensures OnItsWay(Exec(s, run), sig)
  {
    if run != [] {
      var n := |run| - 1;
      var m := Exec(s, run[..n]);
      if sig in m.stored {
        StoredIsSent(s, run[..n], sig);
        hide Step, OnItsWay;
        StaysOnItsWay(m, run[n], sig);
      } else {
        assert run[n].Claim?;
        assert Step(m, run[n]).workers[run[n].w] == Broadcasting(sig);
      }
    }
  }

  // ---- What a check decides -------------------------------------------------------------

  /**
   * With the node's answer in hand: the row is confirmed exactly when the transfer is answered
   * settled and good; its signature is given up exactly when it is answered settled and bad, or
   * not found after its expiry and the margin; given up, it is signed again while attempts are
   * left and refunded otherwise; and in every other case nothing happens.
   */
  lemma CheckDecides(s: State, w: nat, view: nat, st: SignatureState)
    requires Inv(s) && Enabled(s, StatusAnswer(w, view, st))
    ensures var pc := s.workers[w];
      var sig := pc.row.signature.value;
      var next := Step(s, StatusAnswer(w, view, st)).workers[w];
      var gone := (st.settled && st.failed) || (!st.found && pc.finalized > sig.lastValid + s.config.margin);
      && (next == Confirming(pc.row) <==> st.settled && !st.failed)
      && (next == Repending(pc.row) <==> gone && pc.row.attempts < s.config.maxAttempts)
      && (next == Refunding(pc.row) <==> gone && pc.row.attempts >= s.config.maxAttempts)
      && (next == Idle <==> !gone && !(st.settled && !st.failed))
      && (st.settled && !st.failed ==> Paid(s.chain, sig)) && (gone ==> Dead(s.chain, sig))
  {
    var pc := s.workers[w];
    assert WorkerOk(pc, s.stored, s.chain, s.cap);
    if !st.found && pc.finalized > pc.row.signature.value.lastValid + s.config.margin {
      UnseenMeansDead(s.chain, pc.row.signature.value, pc.finalized, view, s.lag, s.config.margin, st);
    }
  }
}
