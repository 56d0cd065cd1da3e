/**
 * What the crediting transaction does, said without it: whose account moves, by how much, and why
 * a deposit stays held instead.
 */
module DepositCredits {
  import opened Wrappers
  import opened ChainHistory
  import opened DepositProtocol

  // ---- Whose deposit it is --------------------------------------------------------------

  /** The account has the wallet, as its primary or a linked one. */
  predicate Has(s: State, u: UserId, w: Wallet) {
    (w in s.primary && s.primary[w] == u) || (w in s.linked && s.linked[w] == u)
  }

  /** The row names the account, or the only account with the row's wallet now is this one. */
  ghost predicate Claims(s: State, row: Row, u: UserId) {
    if row.user.Some? then row.user.value == u
    else row.wallet.Some? && Has(s, u, row.wallet.value) && forall v | Has(s, v, row.wallet.value) :: v == u
  }

  lemma ClaimantClaims(s: State, row: Row)
    ensures forall u: UserId :: Claims(s, row, u) <==> Claimant(s, row) == Some(u)
  {
    if row.user.None? && row.wallet.Some? {
      SoleOwnerHas(s, row.wallet.value);
    }
  }

  lemma SoleOwnerHas(s: State, w: Wallet)
    ensures forall u: UserId :: SoleOwner(s, w) == Some(u) <==> Has(s, u, w) && forall v | Has(s, v, w) :: v == u
  {
    forall u: UserId ensures SoleOwner(s, w) == Some(u) <==> Has(s, u, w) && forall v | Has(s, v, w) :: v == u {
      if w in s.primary {
        assert Has(s, s.primary[w], w);
      }
      if w in s.linked {
        assert Has(s, s.linked[w], w);
      }
    }
  }

  // ---- What the transaction does --------------------------------------------------------

  /**
   * Paid: the ledger row names the account and the whole amount. An account funded before has
   * exactly that much more; one that was not starts over with it.
   */
  predicate PaidTo(s: State, t: State, sig: Signature, u: UserId)
    requires sig in s.rows
  {
    var n := s.rows[sig].amount;
    && u in s.users
    && t.credits == s.credits + [LedgerCredit(sig, u, n)]
    && t.rows == s.rows[sig := s.rows[sig].(status := Credited, user := Some(u))]
    && t.users.Keys == s.users.Keys && (forall v | v in s.users && v != u :: t.users[v] == s.users[v])
    && t.users[u] == (if s.users[u].funded then s.users[u].(balance := s.users[u].balance + n)
                      else s.users[u].(funded := true, balance := n, commission := 0, tickets := 0))
  }

  /** Held, for a reason and an account: no account and no ledger row is touched. */
  predicate HeldAs(s: State, t: State, sig: Signature, reason: Reason, user: Option<UserId>)
    requires sig in s.rows
  {
    t == s.(rows := s.rows[sig := s.rows[sig].(status := Held(Some(reason)), user := user)])
  }

  /** Nothing stands in the way of paying `u`. */
  ghost predicate MayBePaid(s: State, row: Row, block: Option<Reason>, u: UserId) {
    && Claims(s, row, u) && u in s.users && s.minimum <= row.amount && block.None?
    && (s.users[u].funded || (!s.users[u].openPlay && !(s.users[u].banned && s.users[u].balance > 0)))
  }

  /** The transaction aborts and leaves everything: no such account, or a banned one's play balance. */
  ghost predicate Aborts(s: State, row: Row, block: Option<Reason>, u: UserId) {
    && Claims(s, row, u) && s.minimum <= row.amount && block.None?
    && (u in s.users ==> !s.users[u].funded && !s.users[u].openPlay && s.users[u].banned && s.users[u].balance > 0)
  }

  ghost predicate CreditLaw(s: State, sig: Signature, block: Option<Reason>, t: State)
    requires sig in s.rows
  {
    var row := s.rows[sig];
    && t == s.(rows := t.rows, users := t.users, credits := t.credits)
    && if !row.status.Held? || row.status.reason == Some(AmbiguousSender) then t == s
       else
         || (exists u :: MayBePaid(s, row, block, u) && PaidTo(s, t, sig, u))
         || (t == s && exists u :: Aborts(s, row, block, u))
         || ((forall u :: !Claims(s, row, u)) && HeldAs(s, t, sig, Unattributed, None))
         || (exists u :: Claims(s, row, u) && Waits(s, t, sig, block, u))
  }

  ghost predicate Waits(s: State, t: State, sig: Signature, block: Option<Reason>, u: UserId)
    requires sig in s.rows
  {
    if s.rows[sig].amount < s.minimum then HeldAs(s, t, sig, BelowMinimum, Some(u))
    else if block.Some? then HeldAs(s, t, sig, block.value, Some(u))
    else u in s.users && !s.users[u].funded && s.users[u].openPlay && HeldAs(s, t, sig, OpenPlayPositions, Some(u))
  }

  lemma CreditObeys(s: State, sig: Signature, block: Option<Reason>)
    requires sig in s.rows && (block.Some? ==> Blocks(block.value))
    ensures CreditLaw(s, sig, block, CreditTx(s, sig, block))
  {
    var row := s.rows[sig];
    ClaimantClaims(s, row);
    hide Claims, SoleOwner, Claimant;
    if Claimant(s, row).Some? {
      var u := Claimant(s, row).value;
      assert Claims(s, row, u);
      if u in s.users && (s.users[u].funded || (!s.users[u].openPlay && !(s.users[u].banned && s.users[u].balance > 0))) {
        assert row.status.Held? && MayBePaid(s, row, block, u) ==>
          PaidTo(s, Pay(s, sig, u), sig, u);
      } else {
        assert block.None? && s.minimum <= row.amount && !(u in s.users && s.users[u].openPlay) ==> Aborts(s, row, block, u);
      }
    }
  }

  /**
   * Over every run, whatever a crediting step finds: if it adds a ledger row, that account gains
   * exactly the row's amount on top of what it had (or alone, if this is what funds it) and no
   * other account moves; if it adds none, no account moves.
   */
  lemma CreditStepMoves(s: State, actions: seq<Action>, sig: Signature, block: Option<Reason>)
    requires Initial(s)
    ensures var m := Exec(s, actions);
      var t := Step(m, Credit(sig, block));
      if |t.credits| == |m.credits| then t.users == m.users && t.credits == m.credits
      else
        && sig in m.rows && |t.credits| == |m.credits| + 1 && t.credits[..|m.credits|] == m.credits
        && var c := t.credits[|m.credits|];
           c.signature == sig && c.amount == m.rows[sig].amount && PaidTo(m, t, sig, c.user)
  {
    var m := Exec(s, actions);
    hide Exec, Initial;
    if Enabled(m, Credit(sig, block)) {
      CreditObeys(m, sig, block);
      hide MayBePaid, Aborts, Claims, CreditTx;
    }
  }

  /** The transaction throws: the row could be tried and its account makes it abort. */
  ghost predicate Fails(s: State, sig: Signature, block: Option<Reason>)
    requires sig in s.rows
  {
    var row := s.rows[sig];
    row.status.Held? && row.status.reason != Some(AmbiguousSender) && exists u :: Aborts(s, row, block, u)
  }

  /** A transaction that throws leaves its row held. */
  lemma FailsHolds(s: State, sig: Signature, block: Option<Reason>)
    requires sig in s.rows && (block.Some? ==> Blocks(block.value)) && Fails(s, sig, block)
    ensures CreditTx(s, sig, block) == s
  {
    ClaimantClaims(s, s.rows[sig]);
  }

  /** As the code finds out: it is a balance debit, or a missing account, that throws. */
  predicate CreditThrows(s: State, sig: Signature, block: Option<Reason>)
    requires sig in s.rows
  {
    var row := s.rows[sig];
    var user := Claimant(s, row);
    && row.status.Held? && row.status.reason != Some(AmbiguousSender)
    && user.Some? && row.amount >= s.minimum && block.None?
    && (user.value in s.users ==>
          var a := s.users[user.value];
          !a.funded && !a.openPlay && a.balance > 0 && a.banned)
  }

  lemma ThrowsExactly(s: State, sig: Signature, block: Option<Reason>)
    requires sig in s.rows
    ensures CreditThrows(s, sig, block) <==> Fails(s, sig, block)
  {
    ClaimantClaims(s, s.rows[sig]);
    hide Claims, Claimant;
    if CreditThrows(s, sig, block) {
      assert Aborts(s, s.rows[sig], block, Claimant(s, s.rows[sig]).value);
    }
  }
}
