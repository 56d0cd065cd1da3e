/**
 * The retry of held deposits takes the oldest hundred. Rows that no run ever credits can fill it
 * for good, and then no retry reaches a later deposit, however creditable. How many of them are
 * older decides it exactly.
 */
module DepositBacklog {
  import opened Wrappers
  import opened ChainHistory
  import opened DepositProtocol
  import opened DepositService

  /** A row that stays held: signed by several accounts, or with no wallet to find an account by. */
  predicate HeldForGood(row: Row) {
    row.status == Held(Some(AmbiguousSender)) || row.wallet.None?
  }

  predicate IsStuck(rows: map<Signature, Row>, sig: Signature) {
    sig in rows && HeldForGood(rows[sig])
  }

  /** How many of `created` are held for good. */
  function Stuck(created: seq<Signature>, rows: map<Signature, Row>): nat {
    if created == [] then 0
    else Stuck(created[..|created| - 1], rows) + (if IsStuck(rows, created[|created| - 1]) then 1 else 0)
  }

  lemma {:induction false} StuckMoves(created: seq<Signature>, rows: map<Signature, Row>, later: map<Signature, Row>)
    requires forall sig | sig in created && IsStuck(rows, sig) :: IsStuck(later, sig)
    ensures Stuck(created, rows) <= Stuck(created, later)
    decreases |created|
  {
    if created != [] {
      StuckMoves(created[..|created| - 1], rows, later);
    }
  }

  lemma {:induction false} StuckAreHeld(created: seq<Signature>, rows: map<Signature, Row>)
    requires forall sig | sig in created && IsStuck(rows, sig) :: IsHeld(rows, sig)
    ensures Stuck(created, rows) <= |HeldIn(created, rows)|
    decreases |created|
  {
    if created != [] {
      StuckAreHeld(created[..|created| - 1], rows);
    }
  }

  lemma StuckRowsHeld(s: State, sig: Signature)
    requires Inv(s) && IsStuck(s.rows, sig)
    ensures IsHeld(s.rows, sig)
  {
    assert RowBacked(s.history, s.owned, sig, s.rows[sig]);
    assert forall c | c in s.credits :: CreditBacked(s.rows, c);
    hide RowBacked, CursorSafe, DustIsNoted;
  }

  lemma StuckStay(s: State, rest: seq<Action>, sig: Signature)
    requires Inv(s) && IsStuck(s.rows, sig)
    ensures IsStuck(Exec(s, rest).rows, sig)
  {
    ExecKeepsInv(s, rest);
    assert RowEvolves(s.rows[sig], Exec(s, rest).rows[sig]);
  }

  /** Behind a batch of them a row is in no batch of any continuation. */
  lemma NeverRetried(s: State, rest: seq<Action>, k: nat)
    requires Inv(s) && k < |s.created| && Stuck(s.created[..k], s.rows) >= HOLD_RETRY_BATCH
    ensures s.created[k] !in Batch(Exec(s, rest))
  {
    var t := Exec(s, rest);
    ExecKeepsInv(s, rest);
    assert t.created[..k] == s.created[..k] && t.created[k] == s.created[k];
    forall sig | sig in s.created[..k] && IsStuck(s.rows, sig) ensures IsStuck(t.rows, sig) {
      StuckStay(s, rest, sig);
    }
    hide Exec, Inv;
    StuckMoves(s.created[..k], s.rows, t.rows);
    BehindThem(t, k);
  }

  lemma BehindThem(t: State, k: nat)
    requires Inv(t) && k < |t.created| && Stuck(t.created[..k], t.rows) >= HOLD_RETRY_BATCH
    ensures t.created[k] !in Batch(t)
  {
    forall sig | IsStuck(t.rows, sig) ensures IsHeld(t.rows, sig) {
      StuckRowsHeld(t, sig);
    }
    hide Inv;
    StuckAreHeld(t.created[..k], t.rows);
    if IsHeld(t.rows, t.created[k]) {
      RetriedExactly(t, k);
    } else {
      HeldInMembers(t.created, t.rows, t.created[k]);
      assert forall sig | sig in Batch(t) :: sig in HeldIn(t.created, t.rows);
    }
  }

  // ---- Otherwise some continuation reaches it -------------------------------------------

  /** Some run makes the wallet of a row find an account. */
  lemma FindOwner(s: State, row: Row) returns (run: seq<Action>, u: UserId, t: State)
    requires row.wallet.Some?
    ensures t == Exec(s, run) && t == s.(linked := t.linked, owned := t.owned)
    ensures Claimant(t, row) == Some(u)
  {
    assert Exec(s, []) == s;
    run, t := [], s;
    var w := row.wallet.value;
    if Claimant(s, row).Some? {
      u := Claimant(s, row).value;
    } else if w in s.linked {
      u := s.primary[w];
      run, t := [Unlink(w)], Step(s, Unlink(w));
      OneStepRun(s, Unlink(w));
    } else {
      u := 0;
      run, t := [Link(w, u)], Step(s, Link(w, u));
      OneStepRun(s, Link(w, u));
    }
  }

  lemma OneStepRun(s: State, a: Action)
    ensures Exec(s, [a]) == Step(s, a)
  {
    assert [a][..0] == [] && Exec(s, []) == s;
    hide Step;
  }

  /** The account as it must be to be credited: in good standing, with nothing open. */
  function Ready(s: State, u: UserId): Account {
    NewAccount().(funded := u in s.users && s.users[u].funded)
  }

  lemma ReadySteps(s: State, u: UserId)
    ensures Exec(s, [SetMinimum(0), Live(u, Ready(s, u))]) == s.(minimum := 0, users := s.users[u := Ready(s, u)])
  {
    var s1 := s.(minimum := 0);
    assert Step(s, SetMinimum(0)) == s1;
    assert Step(s1, Live(u, Ready(s, u))) == s1.(users := s.users[u := Ready(s, u)]);
    hide Step;
    TwoSteps(s, SetMinimum(0), Live(u, Ready(s, u)));
  }

  lemma PayStep(s: State, sig: Signature, u: UserId)
    requires sig in s.rows && s.rows[sig].status.Held? && s.rows[sig].status.reason != Some(AmbiguousSender)
    requires Claimant(s, s.rows[sig]) == Some(u) && s.minimum == 0
    requires u in s.users && s.users[u] == Ready(s, u)
    ensures Step(s, Credit(sig, None)) == Pay(s, sig, u)
  {
    hide Claimant, SoleOwner, Pay;
  }

  lemma CreditSteps(s: State, sig: Signature, u: UserId)
    requires sig in s.rows && s.rows[sig].status.Held? && s.rows[sig].status.reason != Some(AmbiguousSender)
    requires Claimant(s, s.rows[sig]) == Some(u)
    ensures var t := Exec(s, [SetMinimum(0), Live(u, Ready(s, u))] + [Credit(sig, None)]);
      t.created == s.created && t.rows == s.rows[sig := s.rows[sig].(status := Credited, user := Some(u))]
  {
    ReadySteps(s, u);
    var m := s.(minimum := 0, users := s.users[u := Ready(s, u)]);
    assert Claimant(m, m.rows[sig]) == Claimant(s, s.rows[sig]);
    hide Claimant, SoleOwner, Step, Exec;
    PayStep(m, sig, u);
    ExecOne(s, [SetMinimum(0), Live(u, Ready(s, u))], Credit(sig, None));
  }

  /** A held row not held for good: some run credits it and changes no other. */
  lemma CanBeCredited(s: State, sig: Signature) returns (run: seq<Action>)
    requires IsHeld(s.rows, sig) && !HeldForGood(s.rows[sig])
    ensures var t := Exec(s, run);
      && t.created == s.created && sig in t.rows && t.rows == s.rows[sig := t.rows[sig]]
      && t.rows[sig].status.Credited? && t.rows[sig].wallet == s.rows[sig].wallet
  {
    var first, u, m := FindOwner(s, s.rows[sig]);
    CreditSteps(m, sig, u);
    hide Step, Claimant, Exec;
    var last := [SetMinimum(0), Live(u, Ready(m, u))] + [Credit(sig, None)];
    run := first + last;
    ExecConcat(s, first, last);
  }

  lemma {:induction false} OneFewerHeld(created: seq<Signature>, rows: map<Signature, Row>, sig: Signature, row: Row)
    requires IsHeld(rows, sig) && !row.status.Held?
    ensures var after := HeldIn(created, rows[sig := row]);
      |after| <= |HeldIn(created, rows)| && (sig in created ==> |after| < |HeldIn(created, rows)|)
    decreases |created|
  {
    if created != [] {
      OneFewerHeld(created[..|created| - 1], rows, sig, row);
    }
  }

  lemma {:induction false} SomeResolvable(created: seq<Signature>, rows: map<Signature, Row>) returns (sig: Signature)
    requires |HeldIn(created, rows)| > Stuck(created, rows)
    ensures sig in created && IsHeld(rows, sig) && !HeldForGood(rows[sig])
    decreases |created|
  {
    var last := created[|created| - 1];
    if IsHeld(rows, last) && !HeldForGood(rows[last]) {
      sig := last;
    } else {
      sig := SomeResolvable(created[..|created| - 1], rows);
    }
  }

  lemma CreditedOne(older: seq<Signature>, rows: map<Signature, Row>, sig: Signature, row: Row)
    requires sig in older && IsHeld(rows, sig) && !HeldForGood(rows[sig])
    requires row.status.Credited? && row.wallet == rows[sig].wallet
    ensures Stuck(older, rows[sig := row]) <= Stuck(older, rows)
    ensures |HeldIn(older, rows[sig := row])| < |HeldIn(older, rows)|
  {
    OneFewerHeld(older, rows, sig, row);
    StuckMoves(older, rows[sig := row], rows);
  }

  lemma NotAmongOlder(s: State, k: nat)
    requires Inv(s) && k < |s.created|
    ensures s.created[k] !in s.created[..k]
  {
    hide DustIsNoted, CursorSafe, RowsMatchChain, CreditsMatchRows, Distinct, OwnersRecorded;
  }

  /** One older row that can be credited is, and nothing else about the older rows or this one changes. */
  lemma OneResolved(s: State, k: nat) returns (run: seq<Action>)
    requires Inv(s) && k < |s.created| && IsHeld(s.rows, s.created[k])
    requires |HeldIn(s.created[..k], s.rows)| > Stuck(s.created[..k], s.rows)
    ensures var t := Exec(s, run);
      && Inv(t) && t.created == s.created && IsHeld(t.rows, s.created[k])
      && Stuck(s.created[..k], t.rows) <= Stuck(s.created[..k], s.rows)
      && |HeldIn(s.created[..k], t.rows)| < |HeldIn(s.created[..k], s.rows)|
  {
    hide Inv, Exec, Stuck, HeldIn, Evolves, HeldForGood;
    NotAmongOlder(s, k);
    var sig := SomeResolvable(s.created[..k], s.rows);
    run := CanBeCredited(s, sig);
    ExecKeepsInv(s, run);
    CreditedOne(s.created[..k], s.rows, sig, Exec(s, run).rows[sig]);
  }

  /** Credit the older rows that can be credited, until the row is within the oldest batch. */
  lemma {:induction false} ReachedSomehow(s: State, k: nat) returns (run: seq<Action>)
    requires Inv(s) && k < |s.created| && IsHeld(s.rows, s.created[k])
    requires Stuck(s.created[..k], s.rows) < HOLD_RETRY_BATCH
    ensures s.created[k] in Batch(Exec(s, run))
    decreases |HeldIn(s.created[..k], s.rows)|
  {
    if |HeldIn(s.created[..k], s.rows)| < HOLD_RETRY_BATCH {
      run := [];
      assert Exec(s, []) == s;
      hide Inv, Batch;
      RetriedExactly(s, k);
    } else {
      hide *;
      var first := OneResolved(s, k);
      var rest := ReachedSomehow(Exec(s, first), k);
      run := first + rest;
      ExecConcat(s, first, rest);
    }
  }

  /**
   * A held deposit is in no retry's batch of any continuation if and only if a batch of older rows
   * is held for good.
   */
  lemma NeverRetriedExactly(s: State, k: nat)
    requires Inv(s) && k < |s.created| && IsHeld(s.rows, s.created[k])
    ensures (forall rest :: s.created[k] !in Batch(Exec(s, rest)))
            <==> Stuck(s.created[..k], s.rows) >= HOLD_RETRY_BATCH
  {
    hide Inv, Exec, Batch, IsHeld;
    if Stuck(s.created[..k], s.rows) >= HOLD_RETRY_BATCH {
      forall rest ensures s.created[k] !in Batch(Exec(s, rest)) {
        NeverRetried(s, rest, k);
      }
    } else {
      var run := ReachedSomehow(s, k);
    }
  }

  // ---- Such a state is reachable --------------------------------------------------------

  /** Wallet 0 is account 0's and wallet 1 account 1's. */
  function TwoAccounts(): seq<Action> {
    [Own(0, 0), Own(1, 1)]
  }

  /** One transfer that both sign, listed and recorded. */
  function Joint(sig: Signature): seq<Action> {
    [Listed(Entry(sig, 0, Inbound(1, [0, 1]))), Insert(sig, JointRow())]
  }

  function JointRow(): Row {
    Row(None, Some(0), 1, Held(Some(AmbiguousSender)))
  }

  function Backlog(n: nat): seq<Action> {
    if n == 0 then TwoAccounts() else Backlog(n - 1) + Joint(n - 1)
  }

  /** `n` such rows and nothing else. */
  ghost predicate Piled(s: State, n: nat, minimum: nat) {
    && |s.history| == |s.created| == n && s.minimum == minimum && s.owned == {(0, 0), (1, 1)} && s.users == map[]
    && (forall i | 0 <= i < n :: s.history[i].signature == i && s.created[i] == i)
    && (forall i | 0 <= i < n :: i in s.rows && s.rows[i] == JointRow())
    && (forall sig | sig in s.rows :: sig < n)
  }

  lemma TwoSteps(s: State, a: Action, b: Action)
    ensures Exec(s, [a, b]) == Step(Step(s, a), b)
  {
    hide Step;
    assert [a, b][..1] == [a] && [a][..0] == [];
    assert Exec(s, [a]) == Step(s, a);
  }

  lemma ListedStep(s: State, e: Entry)
    requires Position(s.history, e.signature) == 0
    ensures Step(s, Listed(e)) == s.(history := s.history + [e])
    ensures TransferOf(s.history + [e], e.signature) == e.transfer
  {
    assert (s.history + [e])[|s.history|] == e;
  }

  lemma InsertStep(s: State, sig: Signature, row: Row)
    requires sig !in s.rows && row.status.Held? && RowBacked(s.history, s.owned, sig, row)
    ensures Step(s, Insert(sig, row)) == s.(rows := s.rows[sig := row], created := s.created + [sig])
  {
    hide RowBacked;
  }

  /** An entry listed and recorded. */
  lemma Recorded(s: State, e: Entry, row: Row)
    requires Position(s.history, e.signature) == 0 && e.signature !in s.rows && row.status.Held?
    requires RowBacked(s.history + [e], s.owned, e.signature, row)
    ensures Exec(s, [Listed(e), Insert(e.signature, row)])
         == s.(history := s.history + [e], rows := s.rows[e.signature := row], created := s.created + [e.signature])
  {
    ListedStep(s, e);
    InsertStep(s.(history := s.history + [e]), e.signature, row);
    TwoSteps(s, Listed(e), Insert(e.signature, row));
  }

  lemma JointBacked(h: seq<Entry>, owned: set<(Wallet, UserId)>, sig: Signature)
    requires TransferOf(h, sig) == Inbound(1, [0, 1]) && owned == {(0, 0), (1, 1)}
    ensures RowBacked(h, owned, sig, JointRow())
  {
    hide TransferOf;
    var p, q := (0, 0), (1, 1);
    assert p in owned && q in owned && p.1 != q.1 && p.0 in [0, 1] && q.0 in [0, 1];
    assert SignedBySeveral(h, owned, sig);
  }

  lemma JointPiles(s: State, n: nat, minimum: nat)
    requires Piled(s, n, minimum)
    ensures Piled(Exec(s, Joint(n)), n + 1, minimum)
  {
    var e := Entry(n, 0, Inbound(1, [0, 1]));
    assert Position(s.history, n) == 0;
    ListedStep(s, e);
    JointBacked(s.history + [e], s.owned, n);
    hide Position, RowBacked, Exec, Step, TransferOf;
    Recorded(s, e, JointRow());
  }

  lemma TwoAccountsPile(s: State)
    requires Initial(s)
    ensures Piled(Exec(s, TwoAccounts()), 0, s.minimum)
  {
    var s1 := s.(primary := map[0 := 0], owned := {(0, 0)});
    assert Step(s, Own(0, 0)) == s1;
    assert Step(s1, Own(1, 1)) == s1.(primary := map[0 := 0, 1 := 1], owned := {(0, 0), (1, 1)});
    hide Step;
    TwoSteps(s, Own(0, 0), Own(1, 1));
  }

  lemma OneMoreJoint(s: State, before: seq<Action>, n: nat)
    requires Piled(Exec(s, before), n, s.minimum)
    ensures Piled(Exec(s, before + Joint(n)), n + 1, s.minimum)
  {
    hide *;
    ExecConcat(s, before, Joint(n));
    JointPiles(Exec(s, before), n, s.minimum);
  }

  lemma {:induction false} BacklogPiles(s: State, n: nat)
    requires Initial(s)
    ensures Piled(Exec(s, Backlog(n)), n, s.minimum)
  {
    hide Exec, Piled, Joint, Initial;
    if n == 0 {
      TwoAccountsPile(s);
    } else {
      BacklogPiles(s, n - 1);
      OneMoreJoint(s, Backlog(n - 1), n - 1);
    }
  }

  /** Then account 0 joins in, and sends 5 from its own wallet; the transfer is listed and recorded. */
  function Latecomer(sig: Signature): seq<Action> {
    [Live(0, NewAccount())] + [Listed(Entry(sig, 0, Inbound(5, [0]))), Insert(sig, LateRow())]
  }

  function NewAccount(): Account {
    Account(0, false, false, false, 0, 0)
  }

  function LateRow(): Row {
    Row(Some(0), Some(0), 5, Held(None))
  }

  lemma LiveStep(s: State, u: UserId, a: Account)
    requires !a.funded && (u in s.users ==> !s.users[u].funded)
    ensures Exec(s, [Live(u, a)]) == s.(users := s.users[u := a])
  {
    assert [Live(u, a)][..0] == [];
    assert Exec(s, []) == s;
  }

  lemma LateBacked(h: seq<Entry>, owned: set<(Wallet, UserId)>, sig: Signature)
    requires TransferOf(h, sig) == Inbound(5, [0]) && owned == {(0, 0), (1, 1)}
    ensures RowBacked(h, owned, sig, LateRow())
  {
    assert (0, 0) in owned;
    hide TransferOf;
  }

  lemma LateArrives(s: State, n: nat, minimum: nat)
    requires Piled(s, n, minimum)
    ensures var t := Exec(s, Latecomer(n));
      && t.created == s.created + [n] && t.rows == s.rows[n := LateRow()]
      && t.users == map[0 := NewAccount()] && t.minimum == minimum
  {
    var e := Entry(n, 0, Inbound(5, [0]));
    LiveStep(s, 0, NewAccount());
    var s1 := s.(users := s.users[0 := NewAccount()]);
    assert Position(s.history, n) == 0;
    ListedStep(s1, e);
    LateBacked(s.history + [e], s.owned, n);
    ExecConcat(s, [Live(0, NewAccount())], [Listed(e), Insert(n, LateRow())]);
    hide Position, RowBacked, Exec, Step, TransferOf;
    Recorded(s1, e, LateRow());
  }

  lemma LateIsCreditable(t: State, n: nat)
    requires n in t.rows && t.rows[n] == LateRow() && t.users == map[0 := NewAccount()] && t.minimum <= 5
    ensures CreditableNow(t, n)
  {
  }

  predicate CreditableNow(t: State, sig: Signature) {
    sig in t.rows && sig in CreditTx(t, sig, None).rows && CreditTx(t, sig, None).rows[sig].status.Credited?
  }

  lemma {:induction false} AllStuck(created: seq<Signature>, rows: map<Signature, Row>)
    requires forall i | 0 <= i < |created| :: IsStuck(rows, created[i])
    ensures Stuck(created, rows) == |created|
    decreases |created|
  {
    if created != [] {
      AllStuck(created[..|created| - 1], rows);
    }
  }

  lemma JammedIs(s: State, n: nat)
    requires Initial(s) && s.minimum <= 5 && n == HOLD_RETRY_BATCH
    ensures var t := Exec(s, Backlog(n) + Latecomer(n));
      Inv(t) && |t.created| == n + 1 && t.created[n] == n && Stuck(t.created[..n], t.rows) >= n && CreditableNow(t, n)
  {
    InitialInv(s);
    hide Exec, Initial, Inv, Backlog, Latecomer, Piled, Stuck, CreditTx;
    BacklogPiles(s, n);
    ExecConcat(s, Backlog(n), Latecomer(n));
    ExecKeepsInv(s, Backlog(n) + Latecomer(n));
    LateIsBehind(Exec(s, Backlog(n)), n, s.minimum);
  }

  lemma LateIsBehind(m: State, n: nat, minimum: nat)
    requires Piled(m, n, minimum) && minimum <= 5 && n == HOLD_RETRY_BATCH
    ensures var t := Exec(m, Latecomer(n));
      |t.created| == n + 1 && t.created[n] == n && Stuck(t.created[..n], t.rows) >= n && CreditableNow(t, n)
  {
    LateArrives(m, n, minimum);
    var t := Exec(m, Latecomer(n));
    hide Exec, Latecomer;
    LateIsCreditable(t, n);
    hide CreditableNow;
    AllStuck(t.created[..n], t.rows);
  }

  /**
   * A run after which a deposit its own account could be credited with at once is in no retry's
   * batch in any continuation.
   */
  lemma CreditableYetNeverRetried(s: State) returns (run: seq<Action>, late: Signature)
    requires Initial(s) && s.minimum <= 5
    ensures CreditableNow(Exec(s, run), late)
    ensures forall rest :: late !in Batch(Exec(Exec(s, run), rest))
  {
    late := HOLD_RETRY_BATCH;
    run := Backlog(late) + Latecomer(late);
    JammedIs(s, late);
    hide Exec, Inv, Batch, CreditableNow, Backlog, Latecomer, Stuck;
    forall rest ensures late !in Batch(Exec(Exec(s, run), rest)) {
      NeverRetried(Exec(s, run), rest, late);
    }
  }
}
