/**
 * Deposits as a state machine: the treasury's history, the deposit rows, the scan cursor, who
 * owns which wallet, and the accounts. Every atomic database step of any number of concurrent
 * confirms, scans and retries is an action, as is everything players and operators may do
 * around them. An action whose guard fails changes nothing, so every list of actions is a run.
 */
module DepositProtocol {
  import opened Wrappers
  import opened ChainHistory
  import opened Sums

  type UserId = nat

  datatype Reason =
    | Unattributed | AmbiguousSender | BelowMinimum | OpenPlayPositions
    | Paused | AgeUnverified | DepositLimit

  datatype Status = Held(reason: Option<Reason>) | Credited

  datatype Row = Row(user: Option<UserId>, wallet: Option<Wallet>, amount: nat, status: Status)

  /**
   * `commission` is the account's referral commission earned and not yet claimed, `tickets` the
   * volume it has wagered towards free lottery tickets since its baseline.
   */
  datatype Account = Account(balance: nat, funded: bool, banned: bool, openPlay: bool, commission: nat, tickets: nat)

  datatype LedgerCredit = LedgerCredit(signature: Signature, user: UserId, amount: nat)

  /**
   * What was known when a transfer was ignored: the minimum, the primary wallets of the first
   * read and the linked wallets of the second.
   */
  datatype Note = Note(minimum: nat, primaries: set<Wallet>, links: set<Wallet>)

  /**
   * `owned` (who ever owned which wallet) and `seen` (what reads of the primary wallets ever
   * saw) are history; the code keeps neither. `SetPrimary` names the wallet it demotes: the one
   * an earlier read gave as primary, which may no longer be.
   */
  datatype State = State(
    history: seq<Entry>,
    minimum: nat,
    rows: map<Signature, Row>,
    created: seq<Signature>,
    cursor: Option<Signature>,
    primary: map<Wallet, UserId>,
    linked: map<Wallet, UserId>,
    users: map<UserId, Account>,
    credits: seq<LedgerCredit>,
    dust: map<Signature, Note>,
    owned: set<(Wallet, UserId)>,
    seen: set<set<Wallet>>)

  datatype Action =
    | Listed(entry: Entry)
    | SetMinimum(lamports: nat)
    | Own(wallet: Wallet, user: UserId)
    | Link(wallet: Wallet, user: UserId)
    | Unlink(wallet: Wallet)
    | SetPrimary(user: UserId, demoted: Wallet, promoted: Wallet)
    | ReadPrimaries
    | Live(user: UserId, account: Account)
    | Insert(sig: Signature, row: Row)
    | Ignore(sig: Signature, primaries: set<Wallet>)
    | MoveCursor(sig: Signature)
    | Credit(sig: Signature, block: Option<Reason>)

  function TransferOf(h: seq<Entry>, sig: Signature): Transfer {
    if Position(h, sig) == 0 then NotInbound else h[Position(h, sig) - 1].transfer
  }

  /** Recorded, ignored as dust, or nothing that arrived. */
  predicate Accounted(known: set<Signature>, e: Entry) {
    e.transfer.Inbound? ==> e.signature in known
  }

  predicate Covered(h: seq<Entry>, known: set<Signature>, n: nat)
    requires n <= |h|
  {
    forall i | 0 <= i < n :: Accounted(known, h[i])
  }

  function Known(s: State): set<Signature> {
    s.rows.Keys + s.dust.Keys
  }

  /** Wallets of two accounts were among the signers. */
  predicate SignedBySeveral(h: seq<Entry>, owned: set<(Wallet, UserId)>, sig: Signature) {
    var t := TransferOf(h, sig);
    t.Inbound? && exists p, q :: p in owned && q in owned && p.1 != q.1 && p.0 in t.signers && q.0 in t.signers
  }

  /**
   * The row says what arrived on chain; an owner on it really did own its wallet, a signer's; and
   * it is ambiguous only if wallets of two accounts signed.
   */
  predicate RowBacked(h: seq<Entry>, owned: set<(Wallet, UserId)>, sig: Signature, row: Row) {
    var t := TransferOf(h, sig);
    && t.Inbound? && row.amount == t.amount
    && (row.wallet.Some? ==> row.wallet.value in t.signers)
    && (row.user.Some? ==> row.wallet.Some? && (row.wallet.value, row.user.value) in owned)
    && (row.status == Held(Some(AmbiguousSender)) ==> SignedBySeveral(h, owned, sig))
  }

  /** Below the minimum, and from no wallet either read found to be an account's. */
  predicate DustBy(t: Transfer, note: Note)
    requires t.Inbound?
  {
    t.amount < note.minimum && forall w | w in t.signers :: w !in note.primaries && w !in note.links
  }

  predicate Enabled(s: State, a: Action) {
    match a
    case Listed(e) => Position(s.history, e.signature) == 0
    case SetMinimum(_) => true
    case Own(w, u) => w !in s.primary && forall x | x in s.primary :: s.primary[x] != u
    case Link(w, _) => w !in s.linked
    case Unlink(w) => w in s.linked
    case SetPrimary(u, demoted, promoted) =>
      && (exists w :: w in s.primary && s.primary[w] == u) && promoted in s.linked && s.linked[promoted] == u
      && (demoted, u) in s.owned && demoted !in s.linked && promoted !in s.primary
    case ReadPrimaries => true
    case Live(u, account) => account.funded == (u in s.users && s.users[u].funded)
    case Insert(sig, row) => sig !in s.rows && row.status.Held? && RowBacked(s.history, s.owned, sig, row)
    case Ignore(sig, primaries) =>
      && primaries in s.seen && TransferOf(s.history, sig).Inbound?
      && DustBy(TransferOf(s.history, sig), Note(s.minimum, primaries, s.linked.Keys))
    case MoveCursor(sig) => CursorSafe(s.history, Known(s), Some(sig))
    case Credit(sig, block) => sig in s.rows && (block.Some? ==> Blocks(block.value))
  }

  /** The answers of the responsible-gambling check. */
  predicate Blocks(reason: Reason) {
    reason == Paused || reason == AgeUnverified || reason == DepositLimit
  }

  predicate CursorSafe(h: seq<Entry>, known: set<Signature>, cursor: Option<Signature>) {
    cursor.Some? ==> Position(h, cursor.value) > 0 && Covered(h, known, Position(h, cursor.value))
  }

  function SoleOwner(s: State, w: Wallet): Option<UserId> {
    if w in s.primary && w in s.linked then
      if s.primary[w] == s.linked[w] then Some(s.primary[w]) else None
    else if w in s.primary then Some(s.primary[w])
    else if w in s.linked then Some(s.linked[w])
    else None
  }

  function Hold(s: State, sig: Signature, reason: Reason, user: Option<UserId>): State
    requires sig in s.rows
  {
    s.(rows := s.rows[sig := s.rows[sig].(status := Held(Some(reason)), user := user)])
  }

  /** The account a held row would go to. */
  function Claimant(s: State, row: Row): Option<UserId> {
    if row.user.Some? then row.user
    else if row.wallet.Some? then SoleOwner(s, row.wallet.value) else None
  }

  /** Play money, unclaimed play commission and earned free tickets are forfeited by the first deposit. */
  function Converted(a: Account): Account {
    a.(funded := true, balance := if a.funded then a.balance else 0,
       commission := if a.funded then a.commission else 0, tickets := if a.funded then a.tickets else 0)
  }

  function Pay(s: State, sig: Signature, user: UserId): State
    requires sig in s.rows && user in s.users
  {
    var row, c := s.rows[sig], Converted(s.users[user]);
    s.(users := s.users[user := c.(balance := c.balance + row.amount)],
       credits := s.credits + [LedgerCredit(sig, user, row.amount)],
       rows := s.rows[sig := row.(status := Credited, user := Some(user))])
  }

  /** The crediting transaction. A throw rolls it back: the state is unchanged. */
  function CreditTx(s: State, sig: Signature, block: Option<Reason>): State
    requires sig in s.rows && (block.Some? ==> Blocks(block.value))
  {
    var row := s.rows[sig];
    if !row.status.Held? || row.status.reason == Some(AmbiguousSender) then s
    else
      var user := Claimant(s, row);
      if user.None? then Hold(s, sig, Unattributed, None)
      else if row.amount < s.minimum then Hold(s, sig, BelowMinimum, user)
      else if block.Some? then Hold(s, sig, block.value, user)
      else if user.value !in s.users then s
      else
        var a := s.users[user.value];
        if !a.funded && a.openPlay then Hold(s, sig, OpenPlayPositions, user)
        else if !a.funded && a.balance > 0 && a.banned then s
        else Pay(s, sig, user.value)
  }

  function Effect(s: State, a: Action): State
    requires Enabled(s, a)
  {
    match a
    case Listed(e) => s.(history := s.history + [e])
    case SetMinimum(m) => s.(minimum := m)
    case Own(w, u) => s.(primary := s.primary[w := u], owned := s.owned + {(w, u)})
    case Link(w, u) => s.(linked := s.linked[w := u], owned := s.owned + {(w, u)})
    case Unlink(w) => s.(linked := s.linked - {w})
    case SetPrimary(u, demoted, promoted) =>
      s.(primary := (map w | w in s.primary && s.primary[w] != u :: s.primary[w])[promoted := u],
         linked := (s.linked - {promoted})[demoted := u])
    case ReadPrimaries => s.(seen := s.seen + {s.primary.Keys})
    case Live(u, account) => s.(users := s.users[u := account])
    case Insert(sig, row) => s.(rows := s.rows[sig := row], created := s.created + [sig])
    case Ignore(sig, primaries) => s.(dust := s.dust[sig := Note(s.minimum, primaries, s.linked.Keys)])
    case MoveCursor(sig) => s.(cursor := Some(sig))
    case Credit(sig, block) => CreditTx(s, sig, block)
  }

  function Step(s: State, a: Action): State {
    if Enabled(s, a) then Effect(s, a) else s
  }

  function Exec(s: State, actions: seq<Action>): State
    decreases |actions|
  {
    if actions == [] then s else Step(Exec(s, actions[..|actions| - 1]), actions[|actions| - 1])
  }

  predicate Initial(s: State) {
    && s.history == [] && s.rows == map[] && s.created == [] && s.cursor.None? && s.credits == []
    && s.dust == map[] && s.primary == map[] && s.linked == map[] && s.owned == {} && s.seen == {} && s.users == map[]
  }

  // ---- What every run keeps -------------------------------------------------------------

  ghost predicate RowsMatchChain(h: seq<Entry>, owned: set<(Wallet, UserId)>, rows: map<Signature, Row>) {
    forall sig | sig in rows :: RowBacked(h, owned, sig, rows[sig])
  }

  /** The ledger credits exactly the credited rows, each once, for its amount, to its account. */
  ghost predicate CreditsMatchRows(rows: map<Signature, Row>, credits: seq<LedgerCredit>) {
    && (forall i | 0 <= i < |credits| :: CreditBacked(rows, credits[i]))
    && (forall i, j | 0 <= i < j < |credits| :: credits[i].signature != credits[j].signature)
    && (forall sig | sig in rows && rows[sig].status.Credited? ::
          exists i :: 0 <= i < |credits| && credits[i].signature == sig)
  }

  predicate CreditBacked(rows: map<Signature, Row>, c: LedgerCredit) {
    && c.signature in rows && rows[c.signature].status.Credited?
    && rows[c.signature].user == Some(c.user) && rows[c.signature].amount == c.amount
  }

  /** What was ignored is what its note says. */
  ghost predicate DustIsNoted(h: seq<Entry>, dust: map<Signature, Note>) {
    forall sig | sig in dust :: TransferOf(h, sig).Inbound? && DustBy(TransferOf(h, sig), dust[sig])
  }

  ghost predicate OwnersRecorded(s: State) {
    && (forall w | w in s.primary :: (w, s.primary[w]) in s.owned)
    && (forall w | w in s.linked :: (w, s.linked[w]) in s.owned)
  }

  /** The rows in the order they were created, each once. */
  ghost predicate CreatedOnce(created: seq<Signature>, rows: set<Signature>) {
    && (forall i, j | 0 <= i < j < |created| :: created[i] != created[j])
    && (forall i | 0 <= i < |created| :: created[i] in rows)
    && (forall sig | sig in rows :: sig in created)
  }

  ghost predicate Inv(s: State) {
    && Distinct(s.history)
    && RowsMatchChain(s.history, s.owned, s.rows)
    && CreditsMatchRows(s.rows, s.credits)
    && CursorSafe(s.history, Known(s), s.cursor)
    && DustIsNoted(s.history, s.dust)
    && OwnersRecorded(s)
    && CreatedOnce(s.created, s.rows.Keys)
  }

  /** What no step takes back. */
  ghost predicate Evolves(s: State, t: State) {
    && s.history <= t.history && s.created <= t.created && s.credits <= t.credits
    && s.dust.Keys <= t.dust.Keys && s.owned <= t.owned && s.seen <= t.seen
    && (forall sig | sig in s.rows :: sig in t.rows && RowEvolves(s.rows[sig], t.rows[sig]))
    && (forall u | u in s.users && s.users[u].funded :: u in t.users && t.users[u].funded)
  }

  predicate RowEvolves(r: Row, q: Row) {
    && q.amount == r.amount && q.wallet == r.wallet
    && (r.status.Credited? ==> q == r)
    && (r.status == Held(Some(AmbiguousSender)) ==> q == r)
  }

  /** What the crediting transaction touches: its row, one account, and perhaps the ledger. */
  ghost predicate TouchesOnly(s: State, t: State, sig: Signature)
    requires sig in s.rows
  {
    && t == s.(rows := t.rows, users := t.users, credits := t.credits)
    && t.rows.Keys == s.rows.Keys
    && (forall q | q in s.rows && q != sig :: t.rows[q] == s.rows[q])
    && RowEvolves(s.rows[sig], t.rows[sig])
    && (t.rows[sig].status == Held(Some(AmbiguousSender)) ==> t.rows[sig] == s.rows[sig])
    && (forall u | u in s.users && s.users[u].funded :: u in t.users && t.users[u].funded)
    && (t.rows[sig].user.Some? ==>
          t.rows[sig].user == s.rows[sig].user
          || (t.rows[sig].wallet.Some? && SoleOwner(s, t.rows[sig].wallet.value) == t.rows[sig].user))
    && ((t.credits == s.credits && (t.rows[sig].status.Credited? ==> t.rows[sig] == s.rows[sig]))
        || (s.rows[sig].status.Held? && t.rows[sig].status.Credited? && t.rows[sig].user.Some?
            && t.credits == s.credits + [LedgerCredit(sig, t.rows[sig].user.value, t.rows[sig].amount)]))
  }

  lemma PayTouches(s: State, sig: Signature, user: UserId)
    requires sig in s.rows && s.rows[sig].status.Held? && user in s.users
    requires s.rows[sig].status.reason != Some(AmbiguousSender) && Claimant(s, s.rows[sig]) == Some(user)
    ensures TouchesOnly(s, Pay(s, sig, user), sig)
  {
    hide SoleOwner;
  }

  lemma HoldTouches(s: State, sig: Signature, reason: Reason, user: Option<UserId>)
    requires sig in s.rows && s.rows[sig].status.Held?
    requires s.rows[sig].status.reason != Some(AmbiguousSender)
    requires reason != AmbiguousSender && (user.None? || Claimant(s, s.rows[sig]) == user)
    ensures TouchesOnly(s, Hold(s, sig, reason, user), sig)
  {
    hide SoleOwner;
  }

  lemma CreditTouches(s: State, sig: Signature, block: Option<Reason>)
    requires sig in s.rows && (block.Some? ==> Blocks(block.value))
    ensures TouchesOnly(s, CreditTx(s, sig, block), sig)
  {
    var row := s.rows[sig];
    if row.status.Held? && row.status.reason != Some(AmbiguousSender) {
      var user := Claimant(s, row);
      forall reason | reason != AmbiguousSender ensures TouchesOnly(s, Hold(s, sig, reason, user), sig) {
        HoldTouches(s, sig, reason, user);
      }
      HoldTouches(s, sig, Unattributed, None);
      if user.Some? && user.value in s.users {
        PayTouches(s, sig, user.value);
      }
      hide SoleOwner, Claimant, Pay, Hold;
    }
  }

  lemma StepEvolves(s: State, a: Action)
    ensures Evolves(s, Step(s, a))
  {
    if Enabled(s, a) && a.Credit? {
      CreditTouches(s, a.sig, a.block);
    }
    hide SoleOwner, CreditTx, Position, Covered, RowBacked;
  }

  lemma TransferStable(h: seq<Entry>, g: seq<Entry>, sig: Signature)
    requires Distinct(g) && h <= g && Position(h, sig) > 0
    ensures Position(g, sig) == Position(h, sig) && TransferOf(g, sig) == TransferOf(h, sig)
  {
    assert g[Position(h, sig) - 1].signature == sig;
    PositionAt(g, Position(h, sig) - 1);
  }

  lemma RowsStayBacked(h: seq<Entry>, g: seq<Entry>, owned: set<(Wallet, UserId)>,
                       more: set<(Wallet, UserId)>, rows: map<Signature, Row>)
    requires Distinct(g) && h <= g && owned <= more && RowsMatchChain(h, owned, rows)
    ensures RowsMatchChain(g, more, rows)
  {
    forall sig | sig in rows ensures RowBacked(g, more, sig, rows[sig]) {
      assert RowBacked(h, owned, sig, rows[sig]);
      TransferStable(h, g, sig);
    }
  }

  lemma CursorStaysSafe(h: seq<Entry>, g: seq<Entry>, known: set<Signature>, more: set<Signature>,
                        cursor: Option<Signature>)
    requires Distinct(g) && h <= g && known <= more && CursorSafe(h, known, cursor)
    ensures CursorSafe(g, more, cursor)
  {
    if cursor.Some? {
      TransferStable(h, g, cursor.value);
      var n := Position(h, cursor.value);
      forall i | 0 <= i < n ensures Accounted(more, g[i]) {
        assert Accounted(known, h[i]);
      }
    }
  }

  lemma CreditKeepsLedger(s: State, t: State, sig: Signature)
    requires CreditsMatchRows(s.rows, s.credits) && sig in s.rows && TouchesOnly(s, t, sig)
    ensures CreditsMatchRows(t.rows, t.credits)
  {
    hide SoleOwner;
    forall i | 0 <= i < |t.credits|
      ensures CreditBacked(t.rows, t.credits[i])
      ensures forall j | i < j < |t.credits| :: t.credits[i].signature != t.credits[j].signature
    {
      assert i < |s.credits| ==> CreditBacked(s.rows, s.credits[i]);
    }
    forall q | q in t.rows && t.rows[q].status.Credited?
      ensures exists i :: 0 <= i < |t.credits| && t.credits[i].signature == q
    {
      if q != sig || t.credits == s.credits {
        var i :| 0 <= i < |s.credits| && s.credits[i].signature == q;
        assert t.credits[i].signature == q;
      } else {
        assert t.credits[|s.credits|].signature == q;
      }
    }
  }

  lemma CreditKeepsBacking(s: State, t: State, sig: Signature)
    requires RowsMatchChain(s.history, s.owned, s.rows) && OwnersRecorded(s) && sig in s.rows && TouchesOnly(s, t, sig)
    ensures RowsMatchChain(t.history, t.owned, t.rows)
  {
    hide TransferOf, SignedBySeveral;
    assert RowBacked(s.history, s.owned, sig, s.rows[sig]);
    assert RowBacked(t.history, t.owned, sig, t.rows[sig]);
    hide RowBacked;
    forall q | q in t.rows ensures RowBacked(t.history, t.owned, q, t.rows[q]) {
      assert RowBacked(s.history, s.owned, q, s.rows[q]);
    }
  }

  lemma CreditKeepsInv(s: State, sig: Signature, block: Option<Reason>)
    requires Inv(s) && sig in s.rows && (block.Some? ==> Blocks(block.value))
    ensures Inv(CreditTx(s, sig, block))
  {
    var t := CreditTx(s, sig, block);
    CreditTouches(s, sig, block);
    CreditKeepsLedger(s, t, sig);
    CreditKeepsBacking(s, t, sig);
    hide Distinct, CreditTx, RowsMatchChain, CreditsMatchRows, CursorSafe, CreatedOnce, DustIsNoted, SoleOwner;
    assert Known(t) == Known(s);
  }

  lemma InsertKeepsInv(s: State, sig: Signature, row: Row)
    requires Inv(s) && Enabled(s, Insert(sig, row))
    ensures Inv(Effect(s, Insert(sig, row)))
  {
    var t := Effect(s, Insert(sig, row));
    CursorStaysSafe(s.history, t.history, Known(s), Known(t), s.cursor);
    InsertKeepsLedger(s.rows, s.credits, sig, row);
    InsertKeepsOrder(s.created, s.rows, sig, row);
    InsertKeepsBacking(s, sig, row);
    hide RowsMatchChain, Position, TransferOf, Distinct, RowBacked, CursorSafe, DustIsNoted, CreditsMatchRows, CreatedOnce;
  }

  lemma InsertKeepsBacking(s: State, sig: Signature, row: Row)
    requires RowsMatchChain(s.history, s.owned, s.rows) && RowBacked(s.history, s.owned, sig, row)
    ensures RowsMatchChain(s.history, s.owned, s.rows[sig := row])
  {
    hide RowBacked;
  }

  lemma InsertKeepsOrder(created: seq<Signature>, rows: map<Signature, Row>, sig: Signature, row: Row)
    requires CreatedOnce(created, rows.Keys) && sig !in rows
    ensures CreatedOnce(created + [sig], rows[sig := row].Keys)
  {
    var more := created + [sig];
    assert more[|created|] == sig && forall i | 0 <= i < |created| :: more[i] == created[i];
  }

  lemma InsertKeepsLedger(rows: map<Signature, Row>, credits: seq<LedgerCredit>, sig: Signature, row: Row)
    requires CreditsMatchRows(rows, credits) && sig !in rows && row.status.Held?
    ensures CreditsMatchRows(rows[sig := row], credits)
  {
    assert forall i | 0 <= i < |credits| :: CreditBacked(rows, credits[i]);
  }

  lemma OtherKeepsNotes(s: State, a: Action)
    requires Inv(s) && Enabled(s, a) && !a.Insert? && !a.Credit?
    ensures DustIsNoted(Effect(s, a).history, Effect(s, a).dust)
  {
    var t := Effect(s, a);
    assert forall sig | sig in s.dust :: TransferOf(t.history, sig) == TransferOf(s.history, sig) by {
      forall sig | sig in s.dust ensures TransferOf(t.history, sig) == TransferOf(s.history, sig) {
        TransferStable(s.history, t.history, sig);
      }
    }
    hide TransferOf, DustBy, Position, Distinct, RowsMatchChain, CursorSafe, CreditsMatchRows, CreatedOnce, OwnersRecorded;
  }

  lemma OtherKeepsOwners(s: State, a: Action)
    requires OwnersRecorded(s) && Enabled(s, a) && !a.Insert? && !a.Credit?
    ensures OwnersRecorded(Effect(s, a))
  {
    hide Position, TransferOf, DustBy, CursorSafe;
  }

  lemma OtherKeepsInv(s: State, a: Action)
    requires Inv(s) && Enabled(s, a) && !a.Insert? && !a.Credit?
    ensures Inv(Effect(s, a))
  {
    var t := Effect(s, a);
    assert Distinct(t.history);
    OtherKeepsNotes(s, a);
    OtherKeepsOwners(s, a);
    hide DustIsNoted, OwnersRecorded;
    RowsStayBacked(s.history, t.history, s.owned, t.owned, s.rows);
    CursorStaysSafe(s.history, t.history, Known(s), Known(t), s.cursor);
    hide Distinct, RowsMatchChain, CursorSafe, CreditsMatchRows, CreatedOnce, DustBy, TransferOf, Position;
  }

  lemma StepKeepsInv(s: State, a: Action)
    requires Inv(s)
    ensures Inv(Step(s, a))
  {
    if Enabled(s, a) {
      match a
      case Credit(sig, block) => CreditKeepsInv(s, sig, block);
      case Insert(sig, row) => InsertKeepsInv(s, sig, row);
      case _ => OtherKeepsInv(s, a);
    }
    hide Inv, Enabled;
  }

  lemma {:induction false} ExecConcat(s: State, a: seq<Action>, b: seq<Action>)
    ensures Exec(s, a + b) == Exec(Exec(s, a), b)
    decreases |b|
  {
    if b == [] {
      assert a + b == a;
    } else {
      assert (a + b)[..|a + b| - 1] == a + b[..|b| - 1];
      ExecConcat(s, a, b[..|b| - 1]);
    }
  }

  /** Every run of any length, whatever interleaves with what. */
  lemma {:induction false} ExecKeepsInv(s: State, actions: seq<Action>)
    requires Inv(s)
    ensures Inv(Exec(s, actions)) && Evolves(s, Exec(s, actions))
    decreases |actions|
  {
    if actions != [] {
      var front, a := actions[..|actions| - 1], actions[|actions| - 1];
      ExecKeepsInv(s, front);
      StepKeepsInv(Exec(s, front), a);
      StepEvolves(Exec(s, front), a);
    }
  }

  lemma InitialInv(s: State)
    requires Initial(s)
    ensures Inv(s)
  {
  }

  // ---- What it means --------------------------------------------------------------------

  /**
   * However confirms, scans and retries interleave: one signature is credited at most once, for
   * exactly what it brought, and to an account one of its signers' wallets belonged to.
   */
  lemma CreditedAtMostOnce(s: State, actions: seq<Action>, i: nat)
    requires Initial(s) && i < |Exec(s, actions).credits|
    ensures var t := Exec(s, actions);
      var c := t.credits[i];
      && (forall j | 0 <= j < |t.credits| && j != i :: t.credits[j].signature != c.signature)
      && TransferOf(t.history, c.signature).Inbound?
      && c.amount == TransferOf(t.history, c.signature).amount
      && exists w :: w in TransferOf(t.history, c.signature).signers && (w, c.user) in t.owned
  {
    InitialInv(s);
    ExecKeepsInv(s, actions);
    var t := Exec(s, actions);
    hide Exec, Initial, Position;
    var c := t.credits[i];
    assert CreditBacked(t.rows, c);
    assert RowBacked(t.history, t.owned, c.signature, t.rows[c.signature]);
    var w := t.rows[c.signature].wallet.value;
    assert w in TransferOf(t.history, c.signature).signers && (w, c.user) in t.owned;
  }

  /** A credited row stays as it is, and its credit stays the only one, in every continuation. */
  lemma CreditedStays(s: State, before: seq<Action>, after: seq<Action>, sig: Signature)
    requires Initial(s) && sig in Exec(s, before).rows && Exec(s, before).rows[sig].status.Credited?
    ensures var m, t := Exec(s, before), Exec(Exec(s, before), after);
      && sig in t.rows && t.rows[sig] == m.rows[sig]
      && forall i, j | 0 <= i < |m.credits| && 0 <= j < |t.credits| && m.credits[i].signature == sig
           && t.credits[j].signature == sig :: i == j
  {
    InitialInv(s);
    ExecKeepsInv(s, before);
    ExecKeepsInv(Exec(s, before), after);
    var m, t := Exec(s, before), Exec(Exec(s, before), after);
    hide Exec, Initial, Position;
    assert RowEvolves(m.rows[sig], t.rows[sig]);
    assert m.credits <= t.credits;
  }

  /** Recorded as signed by several accounts: it was, and no run of the code ever credits it. */
  lemma AmbiguousStaysHeld(s: State, before: seq<Action>, after: seq<Action>, sig: Signature)
    requires Initial(s) && sig in Exec(s, before).rows
    requires Exec(s, before).rows[sig].status == Held(Some(AmbiguousSender))
    ensures var t := Exec(Exec(s, before), after);
      && sig in t.rows && t.rows[sig] == Exec(s, before).rows[sig]
      && SignedBySeveral(t.history, t.owned, sig)
      && forall i | 0 <= i < |t.credits| :: t.credits[i].signature != sig
  {
    InitialInv(s);
    ExecKeepsInv(s, before);
    ExecKeepsInv(Exec(s, before), after);
    var m, t := Exec(s, before), Exec(Exec(s, before), after);
    hide Exec, Initial, Position;
    assert RowEvolves(m.rows[sig], t.rows[sig]);
    assert RowBacked(t.history, t.owned, sig, t.rows[sig]);
    hide SignedBySeveral;
    assert forall i | 0 <= i < |t.credits| :: CreditBacked(t.rows, t.credits[i]);
  }

  /**
   * Wherever the cursor stands, and however often a slower scan wrote it backwards, whatever
   * arrived up to it is recorded, or was ignored: below the minimum of the moment, and with no
   * signer among the primary wallets of its first read or the linked wallets of its second.
   */
  lemma NothingSkipped(s: State, actions: seq<Action>, i: nat)
    requires Initial(s) && Exec(s, actions).cursor.Some?
    requires i < Position(Exec(s, actions).history, Exec(s, actions).cursor.value)
    requires Exec(s, actions).history[i].transfer.Inbound?
    ensures var t := Exec(s, actions);
      var e := t.history[i];
      || (e.signature in t.rows && t.rows[e.signature].amount == e.transfer.amount)
      || (e.signature in t.dust && DustBy(e.transfer, t.dust[e.signature]))
  {
    InitialInv(s);
    ExecKeepsInv(s, actions);
    var t := Exec(s, actions);
    hide Exec, Initial;
    assert Accounted(Known(t), t.history[i]);
    PositionAt(t.history, i);
    assert TransferOf(t.history, t.history[i].signature) == t.history[i].transfer;
    hide Position;
    if t.history[i].signature in t.rows {
      assert RowBacked(t.history, t.owned, t.history[i].signature, t.rows[t.history[i].signature]);
    }
  }

  /**
   * In every run, an account becomes a real-money one only when a deposit of its own is credited,
   * with nothing open; it then holds exactly what that deposit brought on chain, and neither
   * commission nor free tickets.
   */
  lemma FundedByItsDeposit(s: State, actions: seq<Action>, a: Action, user: UserId)
    requires Initial(s) && user in Step(Exec(s, actions), a).users && Step(Exec(s, actions), a).users[user].funded
    requires user in Exec(s, actions).users ==> !Exec(s, actions).users[user].funded
    ensures var m, t := Exec(s, actions), Step(Exec(s, actions), a);
      && a.Credit? && a.sig in t.rows && t.rows[a.sig].status.Credited? && t.rows[a.sig].user == Some(user)
      && t.credits == m.credits + [LedgerCredit(a.sig, user, t.rows[a.sig].amount)]
      && user in m.users && !m.users[user].openPlay && (m.users[user].banned ==> m.users[user].balance == 0)
      && TransferOf(t.history, a.sig).Inbound?
      && t.users[user] == m.users[user].(funded := true, balance := TransferOf(t.history, a.sig).amount,
                                         commission := 0, tickets := 0)
  {
    InitialInv(s);
    ExecKeepsInv(s, actions);
    var m := Exec(s, actions);
    StepKeepsInv(m, a);
    var t := Step(m, a);
    OnlyCreditsFund(m, a, user);
    CreditFunds(m, a.sig, a.block, user);
    hide Exec, Initial, Position, CreditTx, Pay, TransferOf, RowBacked;
    assert RowBacked(t.history, t.owned, a.sig, t.rows[a.sig]);
    BackedAmount(t.history, t.owned, a.sig, t.rows[a.sig]);
  }

  lemma OnlyCreditsFund(m: State, a: Action, user: UserId)
    requires user in m.users ==> !m.users[user].funded
    requires user in Step(m, a).users && Step(m, a).users[user].funded
    ensures Enabled(m, a) && a.Credit? && Step(m, a) == CreditTx(m, a.sig, a.block)
  {
    hide CreditTx, Position, Covered, RowBacked;
  }

  lemma CreditFunds(m: State, sig: Signature, block: Option<Reason>, user: UserId)
    requires sig in m.rows && (block.Some? ==> Blocks(block.value))
    requires user in m.users ==> !m.users[user].funded
    requires user in CreditTx(m, sig, block).users && CreditTx(m, sig, block).users[user].funded
    ensures user in m.users && !m.users[user].openPlay && (m.users[user].banned ==> m.users[user].balance == 0)
    ensures CreditTx(m, sig, block) == Pay(m, sig, user)
  {
    hide SoleOwner, Claimant, Blocks;
  }

  lemma BackedAmount(h: seq<Entry>, owned: set<(Wallet, UserId)>, sig: Signature, row: Row)
    requires RowBacked(h, owned, sig, row)
    ensures TransferOf(h, sig).Inbound? && row.amount == TransferOf(h, sig).amount
  {
  }

  function Arrived(h: seq<Entry>): seq<int> {
    seq(|h|, i requires 0 <= i < |h| => if h[i].transfer.Inbound? then h[i].transfer.amount else 0)
  }

  predicate Credits(credits: seq<LedgerCredit>, sig: Signature) {
    exists i :: 0 <= i < |credits| && credits[i].signature == sig
  }

  function CreditedPart(h: seq<Entry>, credits: seq<LedgerCredit>): seq<int> {
    seq(|h|, i requires 0 <= i < |h| =>
      if h[i].transfer.Inbound? && Credits(credits, h[i].signature) then h[i].transfer.amount else 0)
  }

  function Amounts(credits: seq<LedgerCredit>): seq<int> {
    seq(|credits|, i requires 0 <= i < |credits| => credits[i].amount)
  }

  ghost predicate CreditsBackedByChain(h: seq<Entry>, credits: seq<LedgerCredit>) {
    && (forall i | 0 <= i < |credits| :: TransferOf(h, credits[i].signature).Inbound?
          && TransferOf(h, credits[i].signature).amount == credits[i].amount)
    && (forall i, j | 0 <= i < j < |credits| :: credits[i].signature != credits[j].signature)
  }

  lemma {:induction false} CreditsSumOverChain(h: seq<Entry>, credits: seq<LedgerCredit>)
    requires Distinct(h) && CreditsBackedByChain(h, credits)
    ensures Total(Amounts(credits)) == Total(CreditedPart(h, credits))
    decreases |credits|
  {
    if credits == [] {
      AllZero(CreditedPart(h, credits));
    } else {
      var n := |credits| - 1;
      var front, last := credits[..n], credits[n];
      CreditsSumOverChain(h, front);
      assert Amounts(credits) == Amounts(front) + [last.amount];
      TotalAppend(Amounts(front), last.amount);
      OneMoreCredit(h, credits);
      hide Total, Position;
      TotalPoint(CreditedPart(h, front), CreditedPart(h, credits), Position(h, last.signature) - 1, last.amount);
    }
  }

  /** The last credit adds its amount at its signature's place in the history, and nowhere else. */
  lemma {:induction false} OneMoreCredit(h: seq<Entry>, credits: seq<LedgerCredit>)
    requires Distinct(h) && CreditsBackedByChain(h, credits) && credits != []
    ensures var n := |credits| - 1;
      var xs, ys := CreditedPart(h, credits[..n]), CreditedPart(h, credits);
      var p := Position(h, credits[n].signature) - 1;
      && 0 <= p < |h| && ys[p] == xs[p] + credits[n].amount
      && forall k | 0 <= k < |h| && k != p :: ys[k] == xs[k]
  {
    var n := |credits| - 1;
    var front, last := credits[..n], credits[n];
    forall sig ensures Credits(credits, sig) <==> Credits(front, sig) || sig == last.signature {
      assert credits[n] == last && forall i | 0 <= i < n :: credits[i] == front[i];
    }
    assert !Credits(front, last.signature);
    assert TransferOf(h, last.signature).Inbound? && TransferOf(h, last.signature).amount == last.amount;
    hide Credits, CreditsBackedByChain;
  }

  /** In every run the ledger's credits add up to the credited arrivals, so never to more than arrived. */
  lemma NeverCreditsMoreThanArrived(s: State, actions: seq<Action>)
    requires Initial(s)
    ensures var t := Exec(s, actions);
      && Total(Amounts(t.credits)) == Total(CreditedPart(t.history, t.credits))
      && Total(Amounts(t.credits)) <= Total(Arrived(t.history))
  {
    InitialInv(s);
    ExecKeepsInv(s, actions);
    var t := Exec(s, actions);
    hide Exec, Initial, Position, Total;
    forall i | 0 <= i < |t.credits|
      ensures TransferOf(t.history, t.credits[i].signature).Inbound?
      ensures TransferOf(t.history, t.credits[i].signature).amount == t.credits[i].amount
    {
      assert CreditBacked(t.rows, t.credits[i]);
      var sig := t.credits[i].signature;
      assert RowBacked(t.history, t.owned, sig, t.rows[sig]);
    }
    CreditsSumOverChain(t.history, t.credits);
    TotalMonotone(CreditedPart(t.history, t.credits), Arrived(t.history));
  }
}
