/**
 * The deposit service's code, with everything else that may happen at each of its awaits:
 * other confirms, scans and retries, players and operators, and the chain. Each of its own
 * database steps is an action of DepositProtocol whose guard is proved where it is taken, so
 * every execution is a run of that state machine.
 */
module DepositService {
  import opened Wrappers
  import opened ChainHistory
  import opened DepositProtocol
  import opened DepositCredits

  const HOLD_RETRY_BATCH := 100

  datatype Answer = PendingAnswer | Recorded(row: Row)
  datatype Failure = NotADeposit | DustFromUnknownWallet | CreditFailed

  /** What a worker was answered: a transaction (or that it is not visible yet), or the cursor. */
  datatype Reading = Fetched(sig: Signature, tx: Option<Transfer>) | CursorRead(cursor: Option<Signature>)

  // ---- Held deposits, oldest first ------------------------------------------------------

  predicate IsHeld(rows: map<Signature, Row>, sig: Signature) {
    sig in rows && rows[sig].status.Held?
  }

  function HeldIn(created: seq<Signature>, rows: map<Signature, Row>): seq<Signature> {
    if created == [] then []
    else HeldIn(created[..|created| - 1], rows)
         + (if IsHeld(rows, created[|created| - 1]) then [created[|created| - 1]] else [])
  }

  function Batch(s: State): seq<Signature> {
    var held := HeldIn(s.created, s.rows);
    if |held| <= HOLD_RETRY_BATCH then held else held[..HOLD_RETRY_BATCH]
  }

  lemma {:induction false} HeldInSplits(created: seq<Signature>, rows: map<Signature, Row>, k: nat)
    requires k <= |created|
    ensures |HeldIn(created[..k], rows)| <= |HeldIn(created, rows)|
    ensures HeldIn(created, rows)[..|HeldIn(created[..k], rows)|] == HeldIn(created[..k], rows)
    decreases |created|
  {
    if k == |created| {
      assert created[..k] == created;
    } else {
      var n := |created| - 1;
      HeldInSplits(created[..n], rows, k);
      assert created[..n][..k] == created[..k];
    }
  }

  lemma {:induction false} HeldInMembers(created: seq<Signature>, rows: map<Signature, Row>, sig: Signature)
    ensures sig in HeldIn(created, rows) <==> sig in created && IsHeld(rows, sig)
    decreases |created|
  {
    if created != [] {
      var n := |created| - 1;
      HeldInMembers(created[..n], rows, sig);
      assert created == created[..n] + [created[n]];
    }
  }

  /**
   * A retry reaches a held deposit exactly when fewer than a batch of held rows are older:
   * behind a full batch of rows that stay held, a later one waits for its owner's own confirm.
   */
  lemma RetriedExactly(s: State, k: nat)
    requires Inv(s) && k < |s.created| && IsHeld(s.rows, s.created[k])
    ensures s.created[k] in Batch(s) <==> |HeldIn(s.created[..k], s.rows)| < HOLD_RETRY_BATCH
  {
    var older := HeldIn(s.created[..k], s.rows);
    var held := HeldIn(s.created, s.rows);
    assert s.created[..k + 1][..k] == s.created[..k];
    HeldInSplits(s.created, s.rows, k + 1);
    assert held[|older|] == s.created[k];
    HeldDistinct(s.created, s.rows);
    if |older| < HOLD_RETRY_BATCH {
      assert Batch(s)[|older|] == s.created[k];
    }
  }

  lemma {:induction false} HeldDistinct(created: seq<Signature>, rows: map<Signature, Row>)
    requires forall i, j | 0 <= i < j < |created| :: created[i] != created[j]
    ensures forall i, j | 0 <= i < j < |HeldIn(created, rows)| ::
              HeldIn(created, rows)[i] != HeldIn(created, rows)[j]
    decreases |created|
  {
    if created != [] {
      var n := |created| - 1;
      HeldDistinct(created[..n], rows);
      HeldInMembers(created[..n], rows, created[n]);
    }
  }

  // ---- What a scan has covered ----------------------------------------------------------

  /** Whatever arrived after the cursor is listed, in its place. */
  lemma ListedAt(h: seq<Entry>, cursor: Option<Signature>, i: nat) returns (j: nat)
    requires Distinct(h) && CursorPosition(h, cursor) <= i < |h| && h[i].transfer.Inbound?
    ensures j < |Since(h, cursor)| && Since(h, cursor)[j] == h[i]
    ensures Position(h, Since(h, cursor)[j].signature) == i + 1
  {
    var q := CursorPosition(h, cursor);
    SinceExactly(h, cursor);
    assert h[q..][i - q] == h[i];
    j :| 0 <= j < |Since(h, cursor)| && Since(h, cursor)[j] == h[i];
    PositionAt(h, i);
  }

  /** Once the listed entries up to the `k`-th are accounted for, so is everything before it. */
  lemma ScanCovers(h: seq<Entry>, cursor: Option<Signature>, known: set<Signature>, k: nat)
    requires Distinct(h) && Covered(h, known, CursorPosition(h, cursor)) && k <= |Since(h, cursor)|
    requires forall j | 0 <= j < k :: Accounted(known, Since(h, cursor)[j])
    ensures k > 0 ==> CursorSafe(h, known, Some(Since(h, cursor)[k - 1].signature))
    ensures k == |Since(h, cursor)| ==> Covered(h, known, |h|)
  {
    var out, q := Since(h, cursor), CursorPosition(h, cursor);
    SinceExactly(h, cursor);
    assert k > 0 ==> out[k - 1] in h;
    assert k > 0 ==> Position(h, out[k - 1].signature) > 0;
    hide Since, CursorPosition, Distinct, Position;
    forall i | q <= i < |h| && h[i].transfer.Inbound?
      && (k == |out| || (k > 0 && i < Position(h, out[k - 1].signature)))
      ensures Accounted(known, h[i])
    {
      var j := ListedAt(h, cursor, i);
      assert k < |out| ==> j < k;
    }
  }

  // ---- Runs -----------------------------------------------------------------------------

  lemma ExecOne(s: State, actions: seq<Action>, a: Action)
    ensures Exec(s, actions + [a]) == Step(Exec(s, actions), a)
  {
    assert (actions + [a])[..|actions + [a]| - 1] == actions;
  }

  /** One enabled step: the invariant kept, nothing taken back, and what it does to the history. */
  lemma StepFacts(s: State, a: Action)
    requires Inv(s) && Enabled(s, a)
    ensures Inv(Effect(s, a)) && Evolves(s, Effect(s, a)) && Distinct(Effect(s, a).history)
    ensures Effect(s, a).history == s.history + (if a.Listed? then [a.entry] else [])
  {
    StepEvolves(s, a);
    StepKeepsInv(s, a);
    if a.Credit? {
      CreditTouches(s, a.sig, a.block);
    }
    hide Evolves, CreditTx;
  }

  /** The database, the run that led to it, and what was answered along it. */
  datatype Snapshot = Snapshot(db: State, trace: seq<Action>, answers: seq<Reading>)

  /** Later on the same run. */
  ghost predicate After(s: Snapshot, t: Snapshot) {
    s.trace <= t.trace && s.answers <= t.answers && Inv(s.db) && Inv(t.db) && Evolves(s.db, t.db)
  }

  lemma AfterTransitively(r: Snapshot, s: Snapshot, t: Snapshot)
    requires After(r, s) && After(s, t)
    ensures After(r, t)
  {
    hide Inv;
    assert forall sig | sig in r.db.rows :: RowEvolves(r.db.rows[sig], s.db.rows[sig]);
  }

  lemma AfterReflexively(s: Snapshot)
    requires Inv(s.db)
    ensures After(s, s)
  {
    hide Inv;
  }

  function Arrivals(es: seq<Entry>): (r: seq<Action>)
    ensures |r| == |es|
  {
    if es == [] then [] else Arrivals(es[..|es| - 1]) + [Listed(es[|es| - 1])]
  }

  lemma {:induction false} ArrivalsRun(s: State, es: seq<Entry>)
    requires Distinct(s.history + es)
    ensures Exec(s, Arrivals(es)) == s.(history := s.history + es)
    decreases |es|
  {
    if es == [] {
      assert s.history + es == s.history;
    } else {
      var n := |es| - 1;
      assert Distinct(s.history + es[..n]) by {
        assert forall i | 0 <= i < |s.history| + n :: (s.history + es[..n])[i] == (s.history + es)[i];
      }
      ArrivalsRun(s, es[..n]);
      var h := s.history + es[..n];
      assert h + [es[n]] == s.history + es;
      assert Position(h, es[n].signature) == 0 by {
        assert forall i | 0 <= i < |h| :: h[i] == (s.history + es)[i];
        assert (s.history + es)[|h|] == es[n];
      }
      assert Arrivals(es)[..|es| - 1] == Arrivals(es[..n]);
    }
  }

  /**
   * At `t`, one pass over the history listed from the cursor it read. It ended early only at an
   * entry the node could not show; otherwise everything that had arrived by its first page (`asOf`)
   * is accounted for, and every listed entry moved the cursor. `from` and `since` are where the
   * pass's own steps and answers begin.
   */
  ghost predicate Passed(t: Snapshot, complete: bool, cursor: Option<Signature>, asOf: seq<Entry>, from: nat, since: nat) {
    && from <= |t.trace| && since < |t.answers| && t.answers[since] == CursorRead(cursor)
    && (!complete ==> t.answers[|t.answers| - 1].Fetched? && t.answers[|t.answers| - 1].tx.None?)
    && (complete ==>
          && Covered(asOf, Known(t.db), |asOf|)
          && Moved(Since(asOf, cursor), |Since(asOf, cursor)|, t.trace[from..]))
  }

  class DepositDesk {
    const node: Node
    var db: State
    ghost const origin: State
    ghost var trace: seq<Action>
    ghost var answers: seq<Reading>

    ghost function Now(): Snapshot
      reads this
    {
      Snapshot(db, trace, answers)
    }

    /** The database is where some run of the protocol, recorded in `trace`, has brought it. */
    ghost predicate Valid()
      reads this, node
    {
      node.Valid() && node.history == db.history && Initial(origin) && db == Exec(origin, trace)
    }

    lemma ValidKeepsInv()
      requires Valid()
      ensures Inv(db) && After(Now(), Now())
    {
      InitialInv(origin);
      ExecKeepsInv(origin, trace);
      AfterReflexively(Now());
    }

    twostate predicate Later()
      reads this, node
    {
      Valid() && After(old(Now()), Now())
    }

    /** The latest step of the run, and one since `from`, was the crediting transaction for `sig`. */
    ghost predicate JustTried(from: nat, sig: Signature)
      reads this
    {
      from < |trace| && trace[|trace| - 1].Credit? && trace[|trace| - 1].sig == sig
    }

    constructor (minimum: nat)
      ensures Valid() && trace == [] && db.minimum == minimum && fresh(node)
    {
      node := new Node();
      db := State([], minimum, map[], [], None, map[], map[], map[], [], map[], {}, {});
      origin := State([], minimum, map[], [], None, map[], map[], map[], [], map[], {}, {});
      trace := [];
      answers := [];
    }

    /** One atomic step of our own. */
    method Do(a: Action)
      requires Valid() && Enabled(db, a) && !a.Listed?
      modifies this
      ensures Later() && db == Effect(old(db), a) && trace == old(trace) + [a] && answers == old(answers)
    {
      hide Enabled, Effect, Inv, Evolves, Exec, Initial, After, Distinct, Position;
      ValidKeepsInv();
      OneStep(Now(), a);
      StepFacts(db, a);
      ExecOne(origin, trace, a);
      db := Effect(db, a);
      trace := trace + [a];
    }

    /** An await: the chain, the players, the operators and other workers do what they can do. */
    method Interfere()
      requires Valid()
      modifies this, node
      ensures Later() && answers == old(answers)
    {
      ValidKeepsInv();
      hide Enabled, Effect, Inv, Evolves, Exec, Initial, Distinct, After;
      var n: nat := *;
      while n > 0
        invariant Later() && answers == old(answers)
      {
        var a: Action := *;
        if Enabled(db, a) {
          ghost var before := Now();
          OneStep(before, a);
          ValidKeepsInv();
          StepFacts(db, a);
          ExecOne(origin, trace, a);
          if a.Listed? {
            node.history := node.history + [a.entry];
          }
          db := Effect(db, a);
          trace := trace + [a];
          AfterTransitively(old(Now()), before, Now());
        }
        n := n - 1;
      }
    }

    /** The transaction as fetched: absent when the node cannot show it yet. */
    method TreasuryTx(sig: Signature) returns (tx: Option<Transfer>)
      requires Valid()
      modifies this, node
      ensures Later() && (tx.Some? ==> tx.value == TransferOf(db.history, sig))
      ensures |answers| > |old(answers)| && answers[|answers| - 1] == Fetched(sig, tx)
    {
      hide Inv, Evolves, Exec, Initial;
      Interfere();
      var missing: bool := *;
      tx := if missing then None else Some(TransferOf(db.history, sig));
      answers := answers + [Fetched(sig, tx)];
    }

    method FindRow(sig: Signature) returns (row: Option<Row>)
      requires Valid()
      modifies this, node
      ensures Later() && row == (if sig in db.rows then Some(db.rows[sig]) else None)
    {
      Interfere();
      row := if sig in db.rows then Some(db.rows[sig]) else None;
    }

    /** The rows of one ownership table for any of `wallets`. */
    static method FindOwners(table: map<Wallet, UserId>, wallets: seq<Wallet>)
      returns (found: seq<(UserId, Wallet)>)
      ensures forall f | f in found :: f.1 in wallets && f.1 in table && table[f.1] == f.0
      ensures forall w | w in wallets && w in table :: (table[w], w) in found
    {
      found := [];
      for i := 0 to |wallets|
        invariant forall f | f in found :: f.1 in wallets && f.1 in table && table[f.1] == f.0
        invariant forall w | w in wallets[..i] && w in table :: (table[w], w) in found
      {
        assert wallets[..i + 1] == wallets[..i] + [wallets[i]];
        if wallets[i] in table {
          found := found + [(table[wallets[i]], wallets[i])];
        }
      }
      assert wallets[..|wallets|] == wallets;
    }

    /** The matching wallet of each account found, a primary one first. */
    static method Merge(primary: seq<(UserId, Wallet)>, linked: seq<(UserId, Wallet)>)
      returns (owners: map<UserId, Wallet>)
      ensures forall u | u in owners :: (u, owners[u]) in primary || (u, owners[u]) in linked
      ensures forall f | f in primary || f in linked :: f.0 in owners
      ensures forall f | f in primary :: (f.0, owners[f.0]) in primary
    {
      owners := map[];
      for i := 0 to |primary|
        invariant forall u | u in owners :: (u, owners[u]) in primary
        invariant forall f | f in primary[..i] :: f.0 in owners
      {
        assert primary[..i + 1] == primary[..i] + [primary[i]];
        assert primary[i] == (primary[i].0, primary[i].1);
        owners := owners[primary[i].0 := primary[i].1];
      }
      assert primary[..|primary|] == primary;
      for i := 0 to |linked|
        invariant forall u | u in owners :: (u, owners[u]) in primary || (u, owners[u]) in linked
        invariant forall f | f in primary || f in linked[..i] :: f.0 in owners
        invariant forall f | f in primary :: (f.0, owners[f.0]) in primary
      {
        assert linked[..i + 1] == linked[..i] + [linked[i]];
        assert linked[i] == (linked[i].0, linked[i].1);
        if linked[i].0 !in owners {
          owners := owners[linked[i].0 := linked[i].1];
        }
      }
      assert linked[..|linked|] == linked;
    }

    /** The primary wallets, as one read sees them. */
    method ReadPrimaryTable() returns (table: map<Wallet, UserId>)
      requires Valid()
      modifies this, node
      ensures Later() && table == db.primary && table.Keys in db.seen
    {
      hide Inv, Evolves, Exec, Initial, After, Distinct;
      Interfere();
      ghost var m := Now();
      Do(ReadPrimaries);
      AfterTransitively(old(Now()), m, Now());
      table := db.primary;
    }

    /**
     * The accounts owning any of `wallets`. Two reads: primary wallets as of `at`, linked ones
     * as of the return.
     */
    method Owners(wallets: seq<Wallet>)
      returns (owners: map<UserId, Wallet>, primaries: set<Wallet>, ghost at: Snapshot)
      requires Valid()
      modifies this, node
      ensures Later() && After(old(Now()), at) && After(at, Now())
      ensures forall u | u in owners :: owners[u] in wallets && (owners[u], u) in db.owned
      ensures forall u | u in owners :: Found(at.db.primary, db.linked, owners[u], u)
      ensures forall w | w in wallets && w in at.db.primary :: at.db.primary[w] in owners
      ensures forall w | w in wallets && w in at.db.primary :: owners[at.db.primary[w]] in at.db.primary
      ensures forall w | w in wallets && w in db.linked :: db.linked[w] in owners
      ensures primaries == at.db.primary.Keys && primaries in db.seen
    {
      hide Exec, Initial, Inv, Evolves, After, Distinct;
      var table := ReadPrimaryTable();
      at := Now();
      primaries := table.Keys;
      var primary := FindOwners(table, wallets);
      ValidKeepsInv();
      TableOwned(db, primary);
      Interfere();
      AfterTransitively(old(Now()), at, Now());
      OwnedGrows(at, Now());
      var linked := FindOwners(db.linked, wallets);
      ValidKeepsInv();
      TableOwned(db, linked);
      owners := Merge(primary, linked);
      assert forall w | w in wallets && w in at.db.primary :: (at.db.primary[w], w) in primary;
      assert forall w | w in wallets && w in db.linked :: (db.linked[w], w) in linked;
    }

    /** The row to write: attributed when the signers' wallets belong to exactly one account. */
    static method RowFor(tx: Transfer, owners: map<UserId, Wallet>) returns (row: Row)
      requires tx.Inbound? && forall u | u in owners :: owners[u] in tx.signers
      ensures row.amount == tx.amount && row.status.Held?
      ensures row.wallet.Some? ==> row.wallet.value in tx.signers
      ensures row.user.Some? <==> |owners| == 1
      ensures row.user.Some? ==> row.user.value in owners && row.wallet == Some(owners[row.user.value])
      ensures row.user.None? ==> row.wallet == if tx.signers == [] then None else Some(tx.signers[0])
      ensures row.status.reason == if |owners| == 1 then None
                                   else if |owners| == 0 then Some(Unattributed) else Some(AmbiguousSender)
    {
      row := Row(None, if tx.signers == [] then None else Some(tx.signers[0]), tx.amount,
                 Held(Some(if |owners| > 1 then AmbiguousSender else Unattributed)));
      if |owners| == 1 {
        assert owners != map[];
        var u :| u in owners;
        row := Row(Some(u), Some(owners[u]), tx.amount, Held(None));
      }
    }

    /** The insert, which the unique signature lets only one worker win; the others read its row. */
    method Create(sig: Signature, data: Row) returns (row: Row, ghost m: Snapshot)
      requires Valid() && data.status.Held? && RowBacked(db.history, db.owned, sig, data)
      modifies this, node
      ensures Later() && sig in db.rows && db.rows[sig] == row
      ensures After(old(Now()), m) && After(m, Now())
      ensures sig !in m.db.rows ==> row == data && trace == m.trace + [Insert(sig, data)]
    {
      hide Inv, Evolves, Exec, Initial, RowBacked, Distinct, After, CursorSafe;
      Interfere();
      m := Now();
      RowStaysBacked(old(Now()), m, sig, data);
      if sig !in db.rows {
        Do(Insert(sig, data));
      } else {
        Interfere();
        RowsStay(m, Now());
      }
      AfterTransitively(old(Now()), m, Now());
      row := db.rows[sig];
    }

    /**
     * Writes the row for an inbound transfer, once. Its signers' wallets are looked up in the
     * primary ones (`at`) and then in the linked ones (`seen`). It is ignored exactly when it is
     * below the minimum and no look-up finds any; else the row says what was found, unless
     * another worker's was there when it was written (`m`).
     */
    method Record(sig: Signature, tx: Transfer)
      returns (row: Option<Row>, ghost at: Snapshot, ghost seen: Snapshot, ghost m: Snapshot)
      requires Valid() && tx.Inbound? && TransferOf(db.history, sig) == tx
      modifies this, node
      ensures Later() && After(old(Now()), at) && After(at, seen) && After(seen, m) && After(m, Now())
      ensures at.db.primary.Keys in db.seen
      ensures row.None? <==> DustBy(tx, Note(seen.db.minimum, at.db.primary.Keys, seen.db.linked.Keys))
      ensures row.None? ==>
        && m == seen && sig in db.dust && db.dust[sig] == Note(db.minimum, at.db.primary.Keys, db.linked.Keys)
        && DustBy(tx, db.dust[sig])
        && trace == m.trace + [Ignore(sig, at.db.primary.Keys)]
      ensures row.Some? ==> sig in db.rows && db.rows[sig] == row.value
      ensures row.Some? && sig !in m.db.rows ==>
        && Attributed(tx, at.db.primary, seen.db.linked, row.value) && trace == m.trace + [Insert(sig, row.value)]
    {
      hide Inv, Evolves, Exec, Initial, Position, Distinct, After, CursorSafe;
      var owners, primaries;
      owners, primaries, at := Owners(tx.signers);
      seen := Now();
      m := seen;
      ValidKeepsInv();
      TransferStays(old(Now()), seen, sig);
      NoOwnersExactly(tx.signers, at.db.primary, db.linked, owners);
      if |owners| == 0 && tx.amount < db.minimum {
        Do(Ignore(sig, primaries));
        AfterTransitively(old(Now()), seen, Now());
        SeenStays(seen, Now(), primaries);
        return None, at, seen, seen;
      }
      var data := RowFor(tx, owners);
      AttributedRow(tx, at.db.primary, db.linked, owners, data);
      AmbiguousBySeveral(db.history, db.owned, sig, tx, owners);
      hide Attributed, DustBy, RowBacked;
      var r;
      r, m := Create(sig, data);
      AfterTransitively(seen, m, Now());
      AfterTransitively(old(Now()), seen, Now());
      SeenStays(seen, Now(), primaries);
      return Some(r), at, seen, m;
    }

    /** The crediting transaction, on whatever state it finds (`m`) and whatever limit blocks it. */
    method CreditRow(sig: Signature) returns (r: Result<Row, Failure>, ghost m: State, ghost block: Option<Reason>)
      requires Valid() && sig in db.rows
      modifies this, node
      ensures Later() && sig in m.rows && sig in db.rows && (block.Some? ==> Blocks(block.value))
      ensures db == CreditTx(m, sig, block) && CreditLaw(m, sig, block, db)
      ensures r == if Fails(m, sig, block) then Err(CreditFailed) else Ok(db.rows[sig])
      ensures r.Err? ==> db.rows[sig].status.Held?
      ensures JustTried(|old(trace)|, sig)
    {
      hide Inv, Evolves, Exec, Initial, Position, Distinct, After, CreditTx, CreditThrows, Enabled, Effect;
      hide CreditLaw, Aborts;
      Interfere();
      ghost var s := Now();
      RowsStay(old(Now()), s);
      m := db;
      var blocked: Option<Reason> := *;
      if blocked.Some? && !Blocks(blocked.value) {
        blocked := None;
      }
      block := blocked;
      CreditIsStep(db, sig, blocked);
      CreditObeys(db, sig, blocked);
      ThrowsExactly(db, sig, blocked);
      var throws := CreditThrows(db, sig, blocked);
      if throws {
        FailsHolds(db, sig, blocked);
      }
      Do(Credit(sig, blocked));
      AfterTransitively(old(Now()), s, Now());
      RowsStay(s, Now());
      TracesGrow(old(Now()), s);
      r := if throws then Err(CreditFailed) else Ok(db.rows[sig]);
    }

    /** A held row is tried at once; any other is returned as read. */
    method Settle(sig: Signature, row: Row) returns (r: Result<Answer, Failure>)
      requires Valid() && sig in db.rows && db.rows[sig] == row
      modifies this, node
      ensures Later()
      ensures r.Ok? ==> r.value.Recorded? && sig in db.rows && db.rows[sig] == r.value.row
      ensures r.Err? ==> r.error == CreditFailed
      ensures r.Err? || r.value.row.status.Held? ==> JustTried(|old(trace)|, sig)
    {
      hide Inv, Evolves, Exec, Initial, CreditTx, CreditThrows, Distinct, Position, After;
      ValidKeepsInv();
      if row.status.Held? {
        var c, m, block := CreditRow(sig);
        return if c.Ok? then Ok(Recorded(c.value)) else Err(CreditFailed);
      }
      return Ok(Recorded(row));
    }

    /**
     * POST /custody/deposits: verify and credit one signature. Pending is answered only when the
     * node could not show the transaction, and a row still held only after trying to credit it.
     */
    method Confirm(sig: Signature) returns (r: Result<Answer, Failure>)
      requires Valid()
      modifies this, node
      ensures Later()
      ensures r == Ok(PendingAnswer) ==> |answers| > |old(answers)| && answers[|answers| - 1] == Fetched(sig, None)
      ensures r.Ok? && r.value.Recorded? ==> sig in db.rows && db.rows[sig] == r.value.row
      ensures sig in old(db).rows ==> r == Err(CreditFailed) || (r.Ok? && r.value.Recorded?)
      ensures r == Err(CreditFailed) ==> JustTried(|old(trace)|, sig)
      ensures r.Ok? && r.value.Recorded? && r.value.row.status.Held? ==> JustTried(|old(trace)|, sig)
      ensures r == Err(NotADeposit) ==> !TransferOf(db.history, sig).Inbound?
      ensures r == Err(DustFromUnknownWallet) ==>
        && TransferOf(db.history, sig).Inbound? && sig in db.dust && DustBy(TransferOf(db.history, sig), db.dust[sig])
        && db.dust[sig].primaries in db.seen && db.dust[sig].links == db.linked.Keys
    {
      hide Inv, Evolves, Exec, Initial, CreditTx, Distinct, Position, After;
      var known := FindRow(sig);
      ghost var m := Now();
      TracesGrow(old(Now()), m);
      RowsStay(old(Now()), m);
      if known.Some? {
        r := Settle(sig, known.value);
        AfterTransitively(old(Now()), m, Now());
        return;
      }
      var tx := TreasuryTx(sig);
      AfterTransitively(old(Now()), m, Now());
      m := Now();
      TracesGrow(old(Now()), m);
      if tx.None? {
        return Ok(PendingAnswer);
      }
      if !tx.value.Inbound? {
        return Err(NotADeposit);
      }
      var row;
      ghost var at, seen, w;
      row, at, seen, w := Record(sig, tx.value);
      AfterTransitively(seen, w, Now());
      AfterTransitively(old(Now()), m, Now());
      TransferStays(m, Now(), sig);
      m := Now();
      TracesGrow(old(Now()), m);
      if row.None? {
        return Err(DustFromUnknownWallet);
      }
      r := Settle(sig, row.value);
      AfterTransitively(old(Now()), m, Now());
    }

    /**
     * One listed signature of a scan: known, recorded, ignored, or not fetchable yet. It counts
     * exactly when it had no row as it was looked up (`first`) and was not ignored then.
     */
    method ScanEntry(e: Entry) returns (missing: bool, counted: bool, ghost first: Snapshot)
      requires Valid() && e in db.history
      modifies this, node
      ensures Later() && (!missing ==> Accounted(Known(db), e))
      ensures missing ==> |answers| > |old(answers)| && answers[|answers| - 1] == Fetched(e.signature, None)
      ensures After(old(Now()), first) && After(first, Now())
      ensures counted ==> e.transfer.Inbound? && e.signature !in first.db.rows && e.signature in db.rows
      ensures |first.trace| <= |trace|
      ensures !missing && !counted && e.transfer.Inbound? ==>
        e.signature in first.db.rows || IgnoredIn(trace[|first.trace|..], e.signature)
    {
      ValidKeepsInv();
      EntryIs(db.history, e);
      hide Inv, Evolves, Exec, Initial, Distinct, Position, After, TransferOf, CursorSafe, Covered, RowBacked;
      hide DustBy, Attributed, IgnoredIn;
      var known := FindRow(e.signature);
      first := Now();
      ghost var m := Now();
      TracesGrow(old(Now()), m);
      if known.Some? {
        ValidKeepsInv();
        return false, false, first;
      }
      var tx := TreasuryTx(e.signature);
      AfterTransitively(old(Now()), m, Now());
      m := Now();
      TracesGrow(first, m);
      if tx.None? {
        return true, false, first;
      }
      if e.transfer.Inbound? {
        TransferStays(old(Now()), m, e.signature);
      }
      if !tx.value.Inbound? {
        return false, false, first;
      }
      var row;
      ghost var at, seen, w;
      row, at, seen, w := Record(e.signature, tx.value);
      AfterTransitively(first, m, Now());
      AfterTransitively(old(Now()), first, Now());
      TracesGrow(first, Now());
      if row.None? {
        AfterTransitively(first, m, at);
        IgnoredLast(first, at, seen, w, e.signature, at.db.primary.Keys, trace);
      }
      return false, row.Some?, first;
    }

    /** The history from `until` on, listed page by page. */
    method ListHistory(until: Option<Signature>, pageSize: nat) returns (out: seq<Entry>, ghost asOf: seq<Entry>)
      requires Valid() && pageSize >= 1
      modifies this, node
      ensures Later() && old(db).history <= asOf <= db.history && out == Since(asOf, until)
      ensures answers == old(answers)
    {
      ghost var h := node.history;
      ValidKeepsInv();
      hide Since, After;
      out, asOf := node.SignaturesSince(until, pageSize);
      ghost var more := node.history[|h|..];
      assert h + more == node.history;
      ArrivalsRun(db, more);
      ExecConcat(origin, trace, Arrivals(more));
      ExecKeepsInv(db, Arrivals(more));
      hide Inv, Evolves, Exec, Initial, Distinct;
      db := db.(history := node.history);
      trace := trace + Arrivals(more);
      IsAfter(old(Now()), Now());
    }

    method ReadCursor() returns (cursor: Option<Signature>)
      requires Valid()
      modifies this, node
      ensures Later() && cursor == db.cursor && answers == old(answers) + [CursorRead(cursor)]
    {
      hide Inv, Evolves, Exec, Initial;
      Interfere();
      cursor := db.cursor;
      answers := answers + [CursorRead(cursor)];
    }

    /** The cursor's upsert, whatever any other scan has made of it meanwhile. */
    method WriteCursor(sig: Signature, ghost h: seq<Entry>)
      requires Valid() && h <= db.history && CursorSafe(h, Known(db), Some(sig))
      modifies this, node
      ensures Later() && db.cursor == Some(sig)
      ensures |trace| > |old(trace)| && trace[|trace| - 1] == MoveCursor(sig)
    {
      hide Inv, Evolves, Exec, Initial, CursorSafe, Distinct, After;
      Interfere();
      ghost var m := Now();
      CoverageStays(old(Now()), m, h, Some(sig));
      TracesGrow(old(Now()), m);
      Do(MoveCursor(sig));
      AfterTransitively(old(Now()), m, Now());
    }

    method ScanHistory(pageSize: nat)
      returns (recorded: nat, ghost complete: bool, ghost asOf: seq<Entry>, ghost start: Option<Signature>,
               ghost firsts: seq<Snapshot>, ghost judged: seq<bool>)
      requires Valid() && pageSize >= 1
      modifies this, node
      ensures Later() && old(db).history <= asOf <= db.history && recorded <= |asOf|
      ensures Passed(Now(), complete, start, asOf, |old(trace)|, |old(answers)|)
      ensures Tallies(recorded, judged) && Judged(Now(), Since(asOf, start), firsts, judged)
      ensures complete ==> |judged| == |Since(asOf, start)|
    {
      hide Inv, Evolves, Exec, Initial, Distinct, Covered, Since, CursorSafe, Moved, After, CursorPosition;
      NothingTallied();
      hide Tallies, Judged, JudgedAt, IgnoredIn;
      var cursor := ReadCursor();
      start := cursor;
      ghost var m := Now();
      HistoryGrows(old(Now()), m);
      var signatures;
      signatures, asOf := ListHistory(cursor, pageSize);
      CursorCovers(m, Now(), asOf);
      AfterTransitively(old(Now()), m, Now());
      SinceShort(asOf, cursor);
      MovedNone(signatures, trace, old(Now()), Now());
      recorded, complete, firsts, judged := 0, false, [], [];
      NothingJudged(Now(), signatures);
      var i := 0;
      while i < |signatures|
        invariant 0 <= i <= |signatures| && recorded <= i
        invariant Later() && |old(trace)| <= |trace| && Scanning(Now(), asOf, cursor, signatures, i)
        invariant |answers| > |old(answers)| && answers[|old(answers)|] == CursorRead(cursor)
        invariant Moved(signatures, i, trace[|old(trace)|..])
        invariant Tallies(recorded, judged) && |judged| == |firsts| == i && Judged(Now(), signatures, firsts, judged)
      {
        ghost var before := Now();
        SinceListed(asOf, db.history, cursor, i);
        var missing, counted;
        ghost var first;
        missing, counted, first := ScanEntry(signatures[i]);
        ghost var settled := Now();
        AnswerKept(before, settled, |old(answers)|);
        AfterTransitively(old(Now()), before, settled);
        ScanProgress(before, settled, asOf, cursor, signatures, i);
        if missing {
          TracesGrow(old(Now()), settled);
          JudgedStays(before, settled, signatures, firsts, judged);
          return;
        }
        OneMoreFlag(recorded, judged, counted);
        if counted {
          recorded := recorded + 1;
        }
        ScanCoversNext(settled, asOf, cursor, signatures, i);
        WriteCursor(signatures[i].signature, asOf);
        AnswerKept(settled, Now(), |old(answers)|);
        TracesGrow(old(Now()), settled);
        MovedOn(signatures, i, old(trace), before.trace, trace, before, settled, Now());
        ScanProgress(settled, Now(), asOf, cursor, signatures, i + 1);
        AfterTransitively(old(Now()), settled, Now());
        TracesGrow(old(Now()), Now());
        JudgedNow(first, settled, Now(), signatures[i], counted);
        AfterTransitively(before, settled, Now());
        JudgedOn(before, first, Now(), signatures, firsts, judged, counted);
        firsts, judged := firsts + [first], judged + [counted];
        i := i + 1;
      }
      ScanCoversAll(Now(), asOf, cursor, signatures);
      complete := true;
    }

    /** One scan (done at `mid`), then one retry of what is held (as listed at `at`). */
    method ScanOnce(pageSize: nat)
      returns (recorded: nat, credited: nat, ghost complete: bool, ghost asOf: seq<Entry>,
               ghost start: Option<Signature>, ghost firsts: seq<Snapshot>, ghost judged: seq<bool>,
               ghost mid: Snapshot, ghost at: Snapshot, ghost paid: seq<bool>)
      requires Valid() && pageSize >= 1
      modifies this, node
      ensures Later() && After(old(Now()), mid) && After(mid, at) && After(at, Now())
      ensures old(db).history <= asOf <= db.history && recorded <= |asOf|
      ensures Passed(mid, complete, start, asOf, |old(trace)|, |old(answers)|)
      ensures Tallies(recorded, judged) && Judged(mid, Since(asOf, start), firsts, judged)
      ensures complete ==> |judged| == |Since(asOf, start)|
      ensures |Batch(at.db)| <= HOLD_RETRY_BATCH && |at.trace| <= |trace|
      ensures AllTried(Batch(at.db), |Batch(at.db)|, trace[|at.trace|..])
      ensures |paid| == |Batch(at.db)| && Tallies(credited, paid)
      ensures Retried(origin, Now(), Batch(at.db), paid, |at.trace|)
    {
      hide Inv, Evolves, Exec, Initial, Distinct, After, Passed, Batch, AllTried, Retried;
      hide Tallies, Judged, Since;
      recorded, complete, asOf, start, firsts, judged := ScanHistory(pageSize);
      mid := Now();
      ghost var batch;
      credited, batch, paid, at := RetryHeld();
      AfterTransitively(old(Now()), mid, Now());
      HistoryGrows(mid, Now());
    }

    /** One retry: a failure is logged and passed over. It counts if the row is credited then. */
    method TryCredit(sig: Signature) returns (paid: bool)
      requires Valid() && sig in db.rows
      modifies this, node
      ensures Later() && sig in db.rows && JustTried(|old(trace)|, sig)
      ensures paid <==> db.rows[sig].status.Credited?
    {
      hide Inv, Evolves, Exec, Initial, CreditTx, CreditThrows, Distinct, After;
      var r, m, block := CreditRow(sig);
      paid := r.Ok? && r.value.status.Credited?;
    }

    method ListHeld() returns (held: seq<Signature>)
      requires Valid()
      modifies this, node
      ensures Later() && held == Batch(db) && |held| <= HOLD_RETRY_BATCH && AllRecorded(held, db)
    {
      Interfere();
      held := Batch(db);
      BatchRecorded(db);
    }

    /** The oldest held rows, as of the moment they are listed (`at`), each tried. */
    method RetryHeld() returns (credited: nat, ghost batch: seq<Signature>, ghost paid: seq<bool>, ghost at: Snapshot)
      requires Valid()
      modifies this, node
      ensures Later() && After(old(Now()), at) && After(at, Now()) && |at.trace| <= |trace|
      ensures batch == Batch(at.db) && |batch| <= HOLD_RETRY_BATCH
      ensures AllTried(batch, |batch|, trace[|at.trace|..])
      ensures Tallies(credited, paid) && Retried(origin, Now(), batch, paid, |at.trace|) && |paid| == |batch|
    {
      hide Inv, Evolves, Exec, Initial, Batch, Distinct, AllRecorded, After, AllTried, Retried;
      var held := ListHeld();
      at, batch := Now(), held;
      credited, paid := RetryEach(held);
      AfterTransitively(old(Now()), at, Now());
    }

    method RetryEach(held: seq<Signature>) returns (credited: nat, ghost paid: seq<bool>)
      requires Valid() && AllRecorded(held, db)
      modifies this, node
      ensures Later() && |old(trace)| <= |trace|
      ensures AllTried(held, |held|, trace[|old(trace)|..])
      ensures Tallies(credited, paid) && |paid| == |held| && Retried(origin, Now(), held, paid, |old(trace)|)
    {
      ValidKeepsInv();
      credited, paid := 0, [];
      NoneTried(held, trace[|trace|..]);
      NoneRetried(origin, Now(), held, |trace|);
      NothingTallied();
      ghost var start := trace;
      hide Inv, Evolves, Exec, Initial, Distinct, After, AllTried, Retried, AllRecorded, Tallies;
      for i := 0 to |held|
        invariant Later() && AllRecorded(held, db)
        invariant |start| <= |trace| && AllTried(held, i, trace[|start|..])
        invariant Tallies(credited, paid) && |paid| == i && Retried(origin, Now(), held, paid, |start|)
      {
        ghost var before := Now();
        var done := RetryNext(held, i, start, paid);
        AfterTransitively(old(Now()), before, Now());
        OneMoreFlag(credited, paid, done);
        paid := paid + [done];
        if done {
          credited := credited + 1;
        }
      }
    }

    method RetryNext(held: seq<Signature>, i: nat, ghost start: seq<Action>, ghost paid: seq<bool>) returns (done: bool)
      requires Valid() && AllRecorded(held, db) && i == |paid| < |held|
      requires |start| <= |trace| && AllTried(held, |paid|, trace[|start|..])
      requires Retried(origin, Now(), held, paid, |start|)
      modifies this, node
      ensures Valid() && After(old(Now()), Now()) && AllRecorded(held, db)
      ensures |start| <= |trace| && AllTried(held, |paid| + 1, trace[|start|..])
      ensures Retried(origin, Now(), held, paid + [done], |start|)
    {
      hide Inv, Evolves, Exec, Initial, Distinct, After, AllTried, Retried;
      done := TryCredit(held[i]);
      if !done {
        LeftHeld(origin, trace, held[|paid|], |old(trace)|);
      }
      TracesGrow(old(Now()), Now());
      TriedOn(held, |paid|, start, old(Now()), Now());
      StillRecorded(held, old(Now()), Now());
      RetriedOn(origin, old(Now()), Now(), held, paid, done, |start|);
    }
  }

  // ---- What a retry counts --------------------------------------------------------------

  function Count(flags: seq<bool>): nat {
    if flags == [] then 0 else Count(flags[..|flags| - 1]) + (if flags[|flags| - 1] then 1 else 0)
  }

  predicate Tallies(n: nat, flags: seq<bool>) {
    n == Count(flags)
  }

  lemma NothingTallied()
    ensures Tallies(0, [])
  {
  }

  lemma OneMoreFlag(n: nat, flags: seq<bool>, flag: bool)
    requires Tallies(n, flags)
    ensures Tallies(n + (if flag then 1 else 0), flags + [flag])
  {
    assert (flags + [flag])[..|flags|] == flags;
  }

  /** The `k`-th step tried the row and left it held. */
  ghost predicate LeavesHeld(origin: State, trace: seq<Action>, sig: Signature, k: nat)
    requires k < |trace|
  {
    var t := Exec(origin, trace[..k + 1]);
    trace[k].Credit? && trace[k].sig == sig && sig in t.rows && t.rows[sig].status.Held?
  }

  ghost predicate InVain(origin: State, trace: seq<Action>, sig: Signature, from: nat) {
    exists k :: from <= k < |trace| && LeavesHeld(origin, trace, sig, k)
  }

  lemma LeftHeld(origin: State, trace: seq<Action>, sig: Signature, from: nat)
    requires from < |trace| && trace[|trace| - 1].Credit? && trace[|trace| - 1].sig == sig
    requires sig in Exec(origin, trace).rows && Exec(origin, trace).rows[sig].status.Held?
    ensures InVain(origin, trace, sig, from)
  {
    assert trace[..|trace|] == trace;
    hide Exec;
    assert LeavesHeld(origin, trace, sig, |trace| - 1);
  }

  lemma InVainStays(origin: State, trace: seq<Action>, longer: seq<Action>, sig: Signature, from: nat, earlier: nat)
    requires InVain(origin, trace, sig, from) && trace <= longer && earlier <= from
    ensures InVain(origin, longer, sig, earlier)
  {
    hide Exec;
    var k :| from <= k < |trace| && LeavesHeld(origin, trace, sig, k);
    assert longer[..k + 1] == trace[..k + 1];
    assert LeavesHeld(origin, longer, sig, k);
  }

  /** Of the first rows tried, just those are flagged that were credited when their try was over. */
  ghost predicate Retried(origin: State, t: Snapshot, held: seq<Signature>, paid: seq<bool>, from: nat) {
    && |paid| <= |held|
    && forall i | 0 <= i < |paid| ::
         && held[i] in t.db.rows && (paid[i] ==> t.db.rows[held[i]].status.Credited?)
         && (!paid[i] ==> InVain(origin, t.trace, held[i], from))
  }

  lemma NoneRetried(origin: State, t: Snapshot, held: seq<Signature>, from: nat)
    ensures Retried(origin, t, held, [], from)
  {
  }

  lemma RetriedOn(origin: State, s: Snapshot, t: Snapshot, held: seq<Signature>, paid: seq<bool>, done: bool, from: nat)
    requires After(s, t) && Retried(origin, s, held, paid, from) && |paid| < |held| && from <= |s.trace|
    requires held[|paid|] in t.db.rows && (done <==> t.db.rows[held[|paid|]].status.Credited?)
    requires !done ==> InVain(origin, t.trace, held[|paid|], |s.trace|)
    ensures Retried(origin, t, held, paid + [done], from)
  {
    var more := paid + [done];
    TracesGrow(s, t);
    forall i | 0 <= i < |paid|
      ensures held[i] in t.db.rows && (paid[i] ==> t.db.rows[held[i]].status.Credited?)
      ensures !paid[i] ==> InVain(origin, t.trace, held[i], from)
    {
      assert held[i] in s.db.rows && RowEvolves(s.db.rows[held[i]], t.db.rows[held[i]]);
      if !paid[i] {
        InVainStays(origin, s.trace, t.trace, held[i], from, from);
      }
    }
    if !done {
      InVainStays(origin, t.trace, t.trace, held[|paid|], |s.trace|, from);
    }
    hide InVain, Inv, Evolves;
    assert forall i | 0 <= i < |more| :: more[i] == if i < |paid| then paid[i] else done;
  }

  // ---- What being later gives -----------------------------------------------------------

  lemma IsAfter(s: Snapshot, t: Snapshot)
    requires s.trace <= t.trace && s.answers <= t.answers && Inv(s.db) && Inv(t.db) && Evolves(s.db, t.db)
    ensures After(s, t)
  {
  }

  lemma OneStep(s: Snapshot, a: Action)
    requires Inv(s.db) && Enabled(s.db, a)
    ensures After(s, Snapshot(Effect(s.db, a), s.trace + [a], s.answers))
  {
    StepFacts(s.db, a);
    hide Inv, Evolves, Enabled, Effect;
  }

  lemma TracesGrow(s: Snapshot, t: Snapshot)
    requires After(s, t)
    ensures s.trace <= t.trace && s.answers <= t.answers && |s.trace| <= |t.trace| && |s.answers| <= |t.answers|
  {
    hide Inv, Evolves;
  }

  lemma AnswerKept(s: Snapshot, t: Snapshot, i: nat)
    requires After(s, t) && i < |s.answers|
    ensures i < |t.answers| && t.answers[i] == s.answers[i]
  {
    hide Inv, Evolves;
  }

  lemma OwnedGrows(s: Snapshot, t: Snapshot)
    requires After(s, t)
    ensures s.db.owned <= t.db.owned && s.db.seen <= t.db.seen
  {
  }

  lemma TableOwned(s: State, found: seq<(UserId, Wallet)>)
    requires Inv(s)
    ensures (forall f | f in found :: f.1 in s.primary && s.primary[f.1] == f.0) ==> forall f | f in found :: (f.1, f.0) in s.owned
    ensures (forall f | f in found :: f.1 in s.linked && s.linked[f.1] == f.0) ==> forall f | f in found :: (f.1, f.0) in s.owned
  {
  }

  lemma RowsStay(s: Snapshot, t: Snapshot)
    requires After(s, t)
    ensures s.db.rows.Keys <= t.db.rows.Keys && Known(s.db) <= Known(t.db)
  {
  }

  lemma HistoryGrows(s: Snapshot, t: Snapshot)
    requires After(s, t)
    ensures s.db.history <= t.db.history
  {
  }

  lemma TransferStays(s: Snapshot, t: Snapshot, sig: Signature)
    requires After(s, t) && TransferOf(s.db.history, sig).Inbound?
    ensures TransferOf(t.db.history, sig) == TransferOf(s.db.history, sig)
  {
    TransferStable(s.db.history, t.db.history, sig);
  }

  lemma RowStaysBacked(s: Snapshot, t: Snapshot, sig: Signature, row: Row)
    requires After(s, t) && RowBacked(s.db.history, s.db.owned, sig, row)
    ensures RowBacked(t.db.history, t.db.owned, sig, row)
  {
    TransferStable(s.db.history, t.db.history, sig);
  }

  lemma CoverageStays(s: Snapshot, t: Snapshot, h: seq<Entry>, cursor: Option<Signature>)
    requires After(s, t) && h <= s.db.history && CursorSafe(h, Known(s.db), cursor)
    ensures CursorSafe(t.db.history, Known(t.db), cursor)
  {
    RowsStay(s, t);
    CursorStaysSafe(h, t.db.history, Known(s.db), Known(t.db), cursor);
  }

  lemma DistinctPrefix(t: State, asOf: seq<Entry>)
    requires Inv(t) && asOf <= t.history
    ensures Distinct(asOf)
  {
    assert forall i | 0 <= i < |asOf| :: asOf[i] == t.history[i];
  }

  lemma {:induction false} SuccessfulShort(es: seq<Entry>)
    ensures |Successful(es)| <= |es|
    decreases |es|
  {
    if es != [] {
      SuccessfulShort(es[..|es| - 1]);
    }
  }

  lemma SinceShort(h: seq<Entry>, cursor: Option<Signature>)
    ensures |Since(h, cursor)| <= |h|
  {
    SuccessfulShort(h[CursorPosition(h, cursor)..]);
  }

  lemma SinceListed(h: seq<Entry>, now: seq<Entry>, cursor: Option<Signature>, i: nat)
    requires h <= now && i < |Since(h, cursor)|
    ensures Since(h, cursor)[i] in now
  {
    SuccessfulMembers(h[CursorPosition(h, cursor)..]);
    assert Since(h, cursor)[i] in h[CursorPosition(h, cursor)..];
  }

  /** A scan at its `i`-th listed entry: all before the cursor it read, and all it has passed, are accounted for. */
  ghost predicate Scanning(t: Snapshot, asOf: seq<Entry>, cursor: Option<Signature>, listed: seq<Entry>, i: nat) {
    && asOf <= t.db.history && Inv(t.db) && listed == Since(asOf, cursor) && i <= |listed|
    && Covered(asOf, Known(t.db), CursorPosition(asOf, cursor))
    && forall j | 0 <= j < i :: Accounted(Known(t.db), listed[j])
  }

  /** A cursor read at `s` still covers what precedes it in any later listing. */
  lemma CursorCovers(s: Snapshot, t: Snapshot, asOf: seq<Entry>)
    requires After(s, t) && s.db.history <= asOf <= t.db.history
    ensures Scanning(t, asOf, s.db.cursor, Since(asOf, s.db.cursor), 0)
  {
    RowsStay(s, t);
    DistinctPrefix(t.db, asOf);
    CursorStaysSafe(s.db.history, asOf, Known(s.db), Known(t.db), s.db.cursor);
  }

  lemma ScanProgress(s: Snapshot, t: Snapshot, h: seq<Entry>, cursor: Option<Signature>, listed: seq<Entry>, k: nat)
    requires After(s, t) && Scanning(s, h, cursor, listed, k)
    ensures Scanning(t, h, cursor, listed, k)
  {
    RowsStay(s, t);
    HistoryGrows(s, t);
    hide Since, Inv;
  }

  lemma ScanCoversNext(t: Snapshot, h: seq<Entry>, cursor: Option<Signature>, listed: seq<Entry>, k: nat)
    requires Scanning(t, h, cursor, listed, k) && k < |listed| && Accounted(Known(t.db), listed[k])
    ensures Scanning(t, h, cursor, listed, k + 1) && h <= t.db.history
    ensures CursorSafe(h, Known(t.db), Some(listed[k].signature))
  {
    DistinctPrefix(t.db, h);
    ScanCovers(h, cursor, Known(t.db), k + 1);
  }

  lemma ScanCoversAll(t: Snapshot, h: seq<Entry>, cursor: Option<Signature>, listed: seq<Entry>)
    requires Scanning(t, h, cursor, listed, |listed|)
    ensures Covered(h, Known(t.db), |h|) && h <= t.db.history && listed == Since(h, cursor)
  {
    DistinctPrefix(t.db, h);
    ScanCovers(h, cursor, Known(t.db), |listed|);
  }

  predicate AllRecorded(sigs: seq<Signature>, s: State) {
    forall j | 0 <= j < |sigs| :: sigs[j] in s.rows
  }

  lemma StillRecorded(sigs: seq<Signature>, s: Snapshot, t: Snapshot)
    requires AllRecorded(sigs, s.db) && After(s, t)
    ensures AllRecorded(sigs, t.db)
  {
    RowsStay(s, t);
  }

  lemma BatchRecorded(s: State)
    ensures |Batch(s)| <= HOLD_RETRY_BATCH && AllRecorded(Batch(s), s)
  {
    forall sig | sig in HeldIn(s.created, s.rows) ensures sig in s.rows {
      HeldInMembers(s.created, s.rows, sig);
    }
  }

  ghost predicate Moved(listed: seq<Entry>, n: nat, steps: seq<Action>)
    requires n <= |listed|
  {
    forall j | 0 <= j < n :: MoveCursor(listed[j].signature) in steps
  }

  lemma MovedNone(listed: seq<Entry>, trace: seq<Action>, s: Snapshot, t: Snapshot)
    requires After(s, t) && trace == t.trace
    ensures |s.trace| <= |trace| && Moved(listed, 0, trace[|s.trace|..])
  {
    TracesGrow(s, t);
  }

  lemma MovedOn(listed: seq<Entry>, n: nat, start: seq<Action>, ran: seq<Action>, trace: seq<Action>,
                before: Snapshot, settled: Snapshot, now: Snapshot)
    requires After(before, settled) && After(settled, now) && ran == before.trace && trace == now.trace
    requires n < |listed| && |start| <= |ran| && Moved(listed, n, ran[|start|..])
    requires |trace| > |settled.trace| && trace[|trace| - 1] == MoveCursor(listed[n].signature)
    ensures |start| <= |trace| && Moved(listed, n + 1, trace[|start|..])
  {
    TracesGrow(before, settled);
    TracesGrow(settled, now);
    hide After;
    forall j | 0 <= j < n + 1 ensures MoveCursor(listed[j].signature) in trace[|start|..] {
      if j < n {
        assert MoveCursor(listed[j].signature) in ran[|start|..];
        var i :| 0 <= i < |ran| - |start| && ran[|start|..][i] == MoveCursor(listed[j].signature);
        assert trace[|start|..][i] == MoveCursor(listed[j].signature);
      } else {
        assert trace[|start|..][|trace| - 1 - |start|] == MoveCursor(listed[j].signature);
      }
    }
  }

  /** The entry was ignored in one of these steps. */
  ghost predicate IgnoredIn(steps: seq<Action>, sig: Signature) {
    exists a :: a in steps && a.Ignore? && a.sig == sig
  }

  /**
   * What a scan counted by `t`: of the entries it went past, looked up one after the other at
   * `firsts` and the cursor moved on after each, just those that had no row then and were not ignored.
   */
  ghost predicate Judged(t: Snapshot, listed: seq<Entry>, firsts: seq<Snapshot>, counted: seq<bool>) {
    && |counted| == |firsts| <= |listed|
    && forall i | 0 <= i < |firsts| :: JudgedAt(t, listed[i], firsts[i], counted[i])
  }

  ghost predicate JudgedAt(t: Snapshot, e: Entry, first: Snapshot, counted: bool) {
    && After(first, t) && |first.trace| <= |t.trace|
    && (counted ==> e.transfer.Inbound? && e.signature !in first.db.rows && e.signature in t.db.rows)
    && (!counted && e.transfer.Inbound? ==>
          e.signature in first.db.rows || IgnoredIn(t.trace[|first.trace|..], e.signature))
    && MoveCursor(e.signature) in t.trace[|first.trace|..]
  }

  lemma NothingJudged(t: Snapshot, listed: seq<Entry>)
    ensures Judged(t, listed, [], [])
  {
  }

  lemma LaterSteps(trace: seq<Action>, longer: seq<Action>, n: nat)
    requires trace <= longer && n <= |trace|
    ensures forall a | a in trace[n..] :: a in longer[n..]
    ensures forall sig | IgnoredIn(trace[n..], sig) :: IgnoredIn(longer[n..], sig)
  {
    forall a | a in trace[n..] ensures a in longer[n..] {
      var i :| 0 <= i < |trace| - n && trace[n..][i] == a;
      assert longer[n..][i] == a;
    }
  }

  lemma JudgedAtStays(s: Snapshot, t: Snapshot, e: Entry, first: Snapshot, counted: bool)
    requires After(s, t) && JudgedAt(s, e, first, counted)
    ensures JudgedAt(t, e, first, counted)
  {
    AfterTransitively(first, s, t);
    TracesGrow(s, t);
    RowsStay(s, t);
    hide After, IgnoredIn;
    LaterSteps(s.trace, t.trace, |first.trace|);
  }

  lemma JudgedStays(s: Snapshot, t: Snapshot, listed: seq<Entry>, firsts: seq<Snapshot>, counted: seq<bool>)
    requires After(s, t) && Judged(s, listed, firsts, counted)
    ensures Judged(t, listed, firsts, counted)
  {
    hide JudgedAt;
    forall i | 0 <= i < |firsts| ensures JudgedAt(t, listed[i], firsts[i], counted[i]) {
      JudgedAtStays(s, t, listed[i], firsts[i], counted[i]);
    }
  }

  /** An entry looked up at `first` and done with at `settled`, the cursor then moved on to it. */
  lemma JudgedNow(first: Snapshot, settled: Snapshot, t: Snapshot, e: Entry, flag: bool)
    requires After(first, settled) && After(settled, t) && |first.trace| <= |settled.trace|
    requires flag ==> e.transfer.Inbound? && e.signature !in first.db.rows && e.signature in settled.db.rows
    requires !flag && e.transfer.Inbound? ==>
      e.signature in first.db.rows || IgnoredIn(settled.trace[|first.trace|..], e.signature)
    requires |t.trace| > |settled.trace| && t.trace[|t.trace| - 1] == MoveCursor(e.signature)
    ensures JudgedAt(t, e, first, flag)
  {
    AfterTransitively(first, settled, t);
    TracesGrow(settled, t);
    RowsStay(settled, t);
    hide After, IgnoredIn;
    LaterSteps(settled.trace, t.trace, |first.trace|);
    assert t.trace[|first.trace|..][|t.trace| - 1 - |first.trace|] == MoveCursor(e.signature);
  }

  lemma JudgedOn(before: Snapshot, first: Snapshot, t: Snapshot, listed: seq<Entry>,
                 firsts: seq<Snapshot>, counted: seq<bool>, flag: bool)
    requires Judged(before, listed, firsts, counted) && |firsts| < |listed| && After(before, t)
    requires JudgedAt(t, listed[|firsts|], first, flag)
    ensures Judged(t, listed, firsts + [first], counted + [flag])
  {
    hide JudgedAt, After;
    JudgedStays(before, t, listed, firsts, counted);
    var lookups, flags := firsts + [first], counted + [flag];
    forall i | 0 <= i < |lookups| ensures JudgedAt(t, listed[i], lookups[i], flags[i]) {
      assert i < |firsts| ==> lookups[i] == firsts[i] && flags[i] == counted[i];
    }
  }

  lemma IgnoredLast(first: Snapshot, at: Snapshot, seen: Snapshot, m: Snapshot, sig: Signature, p: set<Wallet>, trace: seq<Action>)
    requires After(first, at) && After(at, seen) && After(seen, m) && trace == m.trace + [Ignore(sig, p)]
    ensures |first.trace| <= |m.trace| && IgnoredIn(trace[|first.trace|..], sig)
  {
    TracesGrow(first, at);
    TracesGrow(at, seen);
    TracesGrow(seen, m);
    hide After;
    assert trace[|first.trace|..][|m.trace| - |first.trace|] == Ignore(sig, p);
  }

  /** A crediting transaction for `sig` among these steps. */
  ghost predicate Tried(steps: seq<Action>, sig: Signature) {
    exists k :: 0 <= k < |steps| && steps[k].Credit? && steps[k].sig == sig
  }

  ghost predicate AllTried(sigs: seq<Signature>, n: nat, steps: seq<Action>)
    requires n <= |sigs|
  {
    forall j | 0 <= j < n :: Tried(steps, sigs[j])
  }

  lemma NoneTried(sigs: seq<Signature>, steps: seq<Action>)
    ensures AllTried(sigs, 0, steps)
  {
  }

  lemma TriedOn(sigs: seq<Signature>, n: nat, start: seq<Action>, before: Snapshot, now: Snapshot)
    requires After(before, now)
    requires n < |sigs| && |start| <= |before.trace| && AllTried(sigs, n, before.trace[|start|..])
    requires |before.trace| < |now.trace|
    requires now.trace[|now.trace| - 1].Credit? && now.trace[|now.trace| - 1].sig == sigs[n]
    ensures AllTried(sigs, n + 1, now.trace[|start|..])
  {
    TracesGrow(before, now);
    hide After;
    var ran, trace := before.trace[|start|..], now.trace[|start|..];
    forall j | 0 <= j < n + 1 ensures Tried(trace, sigs[j]) {
      if j < n {
        assert Tried(ran, sigs[j]);
        var k :| 0 <= k < |ran| && ran[k].Credit? && ran[k].sig == sigs[j];
        assert trace[k] == ran[k];
      } else {
        assert trace[|now.trace| - 1 - |start|] == now.trace[|now.trace| - 1];
      }
    }
  }

  /** Several accounts among the owners found: wallets of two of them signed. */
  lemma AmbiguousBySeveral(h: seq<Entry>, owned: set<(Wallet, UserId)>, sig: Signature, tx: Transfer,
                           owners: map<UserId, Wallet>)
    requires tx.Inbound? && TransferOf(h, sig) == tx
    requires forall u | u in owners :: owners[u] in tx.signers && (owners[u], u) in owned
    ensures |owners| > 1 ==> SignedBySeveral(h, owned, sig)
  {
    if |owners| > 1 {
      var u :| u in owners;
      var others := owners.Keys - {u};
      assert |owners.Keys| == |owners| && |others| > 0;
      var v :| v in others;
      assert (owners[u], u).1 != (owners[v], v).1;
    }
  }

  // ---- Who a deposit is recorded for ----------------------------------------------------

  /** One of the two look-ups found the account by the wallet. */
  predicate Found(primary: map<Wallet, UserId>, linked: map<Wallet, UserId>, w: Wallet, u: UserId) {
    (w in primary && primary[w] == u) || (w in linked && linked[w] == u)
  }

  /** Some signer's wallet finds the account. */
  ghost predicate FoundBySigner(tx: Transfer, primary: map<Wallet, UserId>, linked: map<Wallet, UserId>, u: UserId)
    requires tx.Inbound?
  {
    exists w :: w in tx.signers && Found(primary, linked, w, u)
  }

  /**
   * The row for the amount that came: of the only account found, with the wallet it was found by;
   * with the fee payer's wallet when none is found, or several.
   */
  ghost predicate Attributed(tx: Transfer, primary: map<Wallet, UserId>, linked: map<Wallet, UserId>, row: Row)
    requires tx.Inbound?
  {
    var payer := if tx.signers == [] then None else Some(tx.signers[0]);
    && row.amount == tx.amount
    && if row.user.Some? then
         && row.status == Held(None) && row.wallet.Some? && row.wallet.value in tx.signers
         && Found(primary, linked, row.wallet.value, row.user.value)
         && (row.wallet.value !in primary ==> forall w | w in tx.signers && w in primary :: primary[w] != row.user.value)
         && forall u | FoundBySigner(tx, primary, linked, u) :: u == row.user.value
       else
         && row.wallet == payer
         && if row.status == Held(Some(Unattributed)) then forall u :: !FoundBySigner(tx, primary, linked, u)
            else
              && row.status == Held(Some(AmbiguousSender))
              && exists u, v :: u != v && FoundBySigner(tx, primary, linked, u) && FoundBySigner(tx, primary, linked, v)
  }

  /** The accounts found are exactly the keys of `owners`. */
  lemma OwnersAreFound(tx: Transfer, primary: map<Wallet, UserId>, linked: map<Wallet, UserId>, owners: map<UserId, Wallet>)
    requires tx.Inbound?
    requires forall u | u in owners :: owners[u] in tx.signers && Found(primary, linked, owners[u], u)
    requires forall w | w in tx.signers && w in primary :: primary[w] in owners
    requires forall w | w in tx.signers && w in linked :: linked[w] in owners
    ensures forall u: UserId :: u in owners <==> FoundBySigner(tx, primary, linked, u)
  {
  }

  lemma NoOwnersExactly(signers: seq<Wallet>, primary: map<Wallet, UserId>, linked: map<Wallet, UserId>, owners: map<UserId, Wallet>)
    requires forall u | u in owners :: owners[u] in signers && Found(primary, linked, owners[u], u)
    requires forall w | w in signers && w in primary :: primary[w] in owners
    requires forall w | w in signers && w in linked :: linked[w] in owners
    ensures |owners| == 0 <==> forall w | w in signers :: w !in primary.Keys && w !in linked.Keys
  {
    if |owners| > 0 {
      var u :| u in owners;
      assert owners[u] in signers;
    } else {
      assert owners == map[];
    }
  }

  lemma AttributedRow(tx: Transfer, primary: map<Wallet, UserId>, linked: map<Wallet, UserId>, owners: map<UserId, Wallet>, row: Row)
    requires tx.Inbound?
    requires forall u | u in owners :: owners[u] in tx.signers && Found(primary, linked, owners[u], u)
    requires forall w | w in tx.signers && w in primary :: primary[w] in owners
    requires forall w | w in tx.signers && w in linked :: linked[w] in owners
    requires forall w | w in tx.signers && w in primary :: owners[primary[w]] in primary
    requires row.amount == tx.amount && row.status.Held? && (row.user.Some? <==> |owners| == 1)
    requires row.user.Some? ==> row.user.value in owners && row.wallet == Some(owners[row.user.value])
    requires row.user.None? ==> row.wallet == if tx.signers == [] then None else Some(tx.signers[0])
    requires row.status.reason == if |owners| == 1 then None
                                  else if |owners| == 0 then Some(Unattributed) else Some(AmbiguousSender)
    ensures Attributed(tx, primary, linked, row)
  {
    OwnersAreFound(tx, primary, linked, owners);
    hide FoundBySigner, Found;
    if |owners| == 1 {
      OnlyKey(owners, row.user.value);
    } else if |owners| == 0 {
      assert owners == map[];
    } else {
      var u :| u in owners;
      var others := owners.Keys - {u};
      assert |owners.Keys| == |owners| && |others| > 0;
      var v :| v in others;
      assert u != v && FoundBySigner(tx, primary, linked, u) && FoundBySigner(tx, primary, linked, v);
    }
  }

  lemma OnlyKey(owners: map<UserId, Wallet>, u: UserId)
    requires |owners| == 1 && u in owners
    ensures forall v | v in owners :: v == u
  {
    var others := owners.Keys - {u};
    assert |owners.Keys| == |owners| && owners.Keys == others + {u} && |others| == 0;
  }

  lemma SeenStays(s: Snapshot, t: Snapshot, primaries: set<Wallet>)
    requires After(s, t) && primaries in s.db.seen
    ensures primaries in t.db.seen
  {
    hide Inv;
  }

  lemma CreditIsStep(s: State, sig: Signature, block: Option<Reason>)
    requires sig in s.rows && (block.Some? ==> Blocks(block.value))
    ensures Enabled(s, Credit(sig, block)) && Effect(s, Credit(sig, block)) == CreditTx(s, sig, block)
  {
  }

  lemma EntryIs(h: seq<Entry>, e: Entry)
    requires Distinct(h) && e in h
    ensures TransferOf(h, e.signature) == e.transfer
  {
    var i :| 0 <= i < |h| && h[i] == e;
    PositionAt(h, i);
  }
}
