/**
 * One custody withdrawal as a state machine: the database row, the chain, and any
 * number of workers that may stop (or die) between any two awaits of `step`.
 *
 * What the chain is assumed to do is exactly what `Enabled` asks of the chain's own
 * actions and answers: a signature lands only after it was broadcast, at most once,
 * and at a height no later than its expiry; a landing can be rolled back until its
 * height is final and never after; a status node lags the height node by at most
 * `lag` blocks. Signing is NOT assumed to be fresh: signing twice under one blockhash
 * gives the same signature.
 */
module WithdrawalProtocol {
  import opened Wrappers

  /** The signed message names the row and a recent blockhash; the blockhash fixes the expiry. */
  datatype Signature = Signature(blockhash: nat, lastValid: nat)

  datatype Status = Pending | Sent | Confirmed | Failed

  /** The columns of the transfer row that the protocol reads and writes. */
  datatype Row = Row(status: Status, signature: Option<Signature>, lastValid: Option<nat>, attempts: nat)

  datatype Landing = Landing(height: nat, ok: bool)

  datatype Chain = Chain(finalized: nat, broadcast: set<Signature>, landed: map<Signature, Landing>)

  /** Settings are read live, so they may change while withdrawals are in flight. */
  datatype Config = Config(maxAttempts: nat, margin: nat, feeReserve: nat)

  datatype SignatureState = SignatureState(found: bool, failed: bool, settled: bool)

  /** Where a worker is between two awaits, with the locals it still needs. */
  datatype Pc =
    | Idle
    | PauseCheck(row: Row)
    | BalanceCheck(row: Row)
    | Signing(row: Row)
    | Claiming(row: Row, signature: Signature)
    | Broadcasting(signature: Signature)
    | HeightRead(row: Row)
    | StatusRead(row: Row, finalized: nat)
    | Confirming(row: Row)
    | Repending(row: Row)
    | Refunding(row: Row)

  datatype Action =
    | ReadRow(w: nat)
    | PauseAnswer(w: nat, paused: bool)
    | BalanceAnswer(w: nat, hot: nat)
    | SignAnswer(w: nat, signature: Signature)
    | Claim(w: nat)
    | Broadcast(w: nat)
    | HeightAnswer(w: nat, height: nat)
    | StatusAnswer(w: nat, view: nat, state: SignatureState)
    | Confirm(w: nat)
    | Repend(w: nat)
    | Refund(w: nat)
    | Start(w: nat)
    | Crash(w: nat)
    | Land(sig: Signature, at: nat, ok: bool)
    | Rollback(sig: Signature)
    | Finalize(to: nat)
    | Configure(config: Config)

  /**
   * `stored` (every signature the row ever held, in order) and `cap` (the largest
   * attempt limit ever configured) are history; the code keeps neither.
   */
  datatype State = State(
    amount: nat,
    lag: nat,
    row: Row,
    chain: Chain,
    config: Config,
    workers: map<nat, Pc>,
    refunds: nat,
    stored: seq<Signature>,
    cap: nat)

  // ------------------------------------------------------------ the chain

  /** Landed with an error for good, or past expiry without landing: it can never pay. */
  predicate Dead(c: Chain, sig: Signature) {
    if sig in c.landed
    then c.landed[sig].height <= c.finalized && !c.landed[sig].ok
    else sig.lastValid <= c.finalized
  }

  /** The transfer happened and cannot be undone. */
  predicate Paid(c: Chain, sig: Signature) {
    sig in c.landed && c.landed[sig].ok && c.landed[sig].height <= c.finalized
  }

  /** What a status node that has seen finality up to `view` may answer about `sig`. */
  predicate Reports(c: Chain, sig: Signature, view: nat, st: SignatureState) {
    && (st.settled ==> st.found)
    && (st.found && st.settled ==>
          sig in c.landed && c.landed[sig].height <= c.finalized && st.failed == !c.landed[sig].ok)
    && (!st.found ==> !(sig in c.landed && c.landed[sig].height <= view && c.landed[sig].height <= c.finalized))
  }

  // ------------------------------------------------------------ decisions of the code

  /** `step` and the synchronous head of `send`: what a worker does with the row it read. */
  function Dispatch(row: Row, config: Config): Pc {
    match row.status
    case Pending => if row.attempts >= config.maxAttempts then Refunding(row) else PauseCheck(row)
    case Sent => HeightRead(row)
    case Confirmed => Idle
    case Failed => Idle
  }

  /** `check` once the height and the signature's state are known. */
  function Verdict(row: Row, finalized: nat, st: SignatureState, config: Config): Pc
    requires row.lastValid.Some?
  {
    if st.found && !st.settled then Idle
    else if st.found && !st.failed then Confirming(row)
    else if !st.found && finalized <= row.lastValid.value + config.margin then Idle
    else if row.attempts >= config.maxAttempts then Refunding(row)
    else Repending(row)
  }

  function ClaimRow(row: Row, read: Row, sig: Signature): Row {
    if row.status == Pending && row.attempts == read.attempts
    then Row(Sent, Some(sig), Some(sig.lastValid), read.attempts + 1)
    else row
  }

  function ConfirmRow(row: Row, read: Row): Row {
    if row.status == Sent && row.signature == read.signature then row.(status := Confirmed) else row
  }

  function RependRow(row: Row, read: Row): Row {
    if row.status == Sent && row.signature == read.signature
    then row.(status := Pending, signature := None, lastValid := None)
    else row
  }

  function RefundRow(row: Row, read: Row): Row {
    if row.status == read.status && row.signature == read.signature then row.(status := Failed) else row
  }

  // ------------------------------------------------------------ transitions

  predicate Enabled(s: State, a: Action) {
    match a
    case ReadRow(w) => w in s.workers && s.workers[w].Idle?
    case PauseAnswer(w, _) => w in s.workers && s.workers[w].PauseCheck?
    case BalanceAnswer(w, _) => w in s.workers && s.workers[w].BalanceCheck?
    case SignAnswer(w, _) => w in s.workers && s.workers[w].Signing?
    case Claim(w) => w in s.workers && s.workers[w].Claiming?
    case Broadcast(w) => w in s.workers && s.workers[w].Broadcasting?
    case HeightAnswer(w, h) => w in s.workers && s.workers[w].HeightRead? && h <= s.chain.finalized
    case StatusAnswer(w, view, st) =>
      && w in s.workers && s.workers[w].StatusRead?
      && s.workers[w].row.signature.Some? && s.workers[w].row.lastValid.Some?
      && s.workers[w].finalized <= view + s.lag
      && Reports(s.chain, s.workers[w].row.signature.value, view, st)
    case Confirm(w) => w in s.workers && s.workers[w].Confirming?
    case Repend(w) => w in s.workers && s.workers[w].Repending?
    case Refund(w) => w in s.workers && s.workers[w].Refunding?
    case Start(w) => w !in s.workers
    case Crash(w) => w in s.workers
    case Land(sig, at, _) =>
      sig in s.chain.broadcast && sig !in s.chain.landed && s.chain.finalized < at <= sig.lastValid
    case Rollback(sig) => sig in s.chain.landed && s.chain.finalized < s.chain.landed[sig].height
    case Finalize(to) => s.chain.finalized <= to
    case Configure(c) => s.lag <= c.margin + 1
  }

  function At(s: State, w: nat, pc: Pc): State {
    s.(workers := s.workers[w := pc])
  }

  function Effect(s: State, a: Action): State
    requires Enabled(s, a)
  {
    match a
    case ReadRow(w) => At(s, w, Dispatch(s.row, s.config))
    case PauseAnswer(w, paused) => At(s, w, if paused then Idle else BalanceCheck(s.workers[w].row))
    case BalanceAnswer(w, hot) =>
      At(s, w, if hot < s.amount + s.config.feeReserve then Idle else Signing(s.workers[w].row))
    case SignAnswer(w, sig) => At(s, w, Claiming(s.workers[w].row, sig))
    case Claim(w) =>
      var pc := s.workers[w];
      var row := ClaimRow(s.row, pc.row, pc.signature);
      if row == s.row then At(s, w, Idle)
      else At(s, w, Broadcasting(pc.signature)).(row := row, stored := s.stored + [pc.signature])
    case Broadcast(w) =>
      At(s, w, Idle).(chain := s.chain.(broadcast := s.chain.broadcast + {s.workers[w].signature}))
    case HeightAnswer(w, h) => At(s, w, StatusRead(s.workers[w].row, h))
    case StatusAnswer(w, _, st) =>
      At(s, w, Verdict(s.workers[w].row, s.workers[w].finalized, st, s.config))
    case Confirm(w) => At(s, w, Idle).(row := ConfirmRow(s.row, s.workers[w].row))
    case Repend(w) => At(s, w, Idle).(row := RependRow(s.row, s.workers[w].row))
    case Refund(w) =>
      var read := s.workers[w].row;
      var hit := s.row.status == read.status && s.row.signature == read.signature;
      At(s, w, Idle).(row := RefundRow(s.row, read), refunds := if hit then s.refunds + 1 else s.refunds)
    case Start(w) => At(s, w, Idle)
    case Crash(w) => s.(workers := s.workers - {w})
    case Land(sig, at, ok) => s.(chain := s.chain.(landed := s.chain.landed[sig := Landing(at, ok)]))
    case Rollback(sig) => s.(chain := s.chain.(landed := s.chain.landed - {sig}))
    case Finalize(to) => s.(chain := s.chain.(finalized := to))
    case Configure(c) => s.(config := c, cap := if c.maxAttempts > s.cap then c.maxAttempts else s.cap)
  }

  /** An action that cannot happen here changes nothing, so every action list is a run. */
  function Step(s: State, a: Action): State {
    if Enabled(s, a) then Effect(s, a) else s
  }

  function Exec(s: State, run: seq<Action>): State {
    if run == [] then s else Step(Exec(s, run[..|run| - 1]), run[|run| - 1])
  }

  /** A withdrawal just queued: debited, unsigned, nobody working on it yet. */
  predicate Initial(s: State) {
    && s.row == Row(Pending, None, None, 0)
    && s.chain.broadcast == {} && s.chain.landed == map[]
    && s.workers == map[] && s.refunds == 0 && s.stored == []
    && s.lag <= s.config.margin + 1
    && s.cap == s.config.maxAttempts
  }

  // ------------------------------------------------------------ the invariant

  predicate RowShape(r: Row) {
    && (r.status == Pending ==> r.signature == None && r.lastValid == None)
    && (r.status == Sent || r.status == Confirmed ==>
          r.signature.Some? && r.lastValid == Some(r.signature.value.lastValid))
  }

  predicate Holds(r: Row, sig: Signature) {
    (r.status == Sent || r.status == Confirmed) && r.signature == Some(sig)
  }

  predicate ChainOk(c: Chain) {
    && c.landed.Keys <= c.broadcast
    && forall sig <- c.landed :: c.landed[sig].height <= sig.lastValid
  }

  /** Every signature the row ever held is dead, except the one it holds now. */
  predicate OneLive(row: Row, stored: seq<Signature>, c: Chain) {
    && (forall sig <- c.broadcast :: sig in stored)
    && (forall sig <- stored :: Holds(row, sig) || Dead(c, sig))
    && (row.status == Confirmed ==> row.signature.Some? && Paid(c, row.signature.value))
    && (row.status == Sent ==> row.signature.Some? && row.signature.value in stored)
  }

  predicate Counts(s: State) {
    && |s.stored| == s.row.attempts <= s.cap
    && s.config.maxAttempts <= s.cap
    && s.lag <= s.config.margin + 1
    && s.refunds == (if s.row.status == Failed then 1 else 0)
  }

  /** What a worker's locals are still worth, whatever happened since it read them. */
  predicate WorkerOk(pc: Pc, stored: seq<Signature>, c: Chain, cap: nat) {
    match pc
    case Idle => true
    case PauseCheck(r) => r.status == Pending && RowShape(r) && r.attempts < cap
    case BalanceCheck(r) => r.status == Pending && RowShape(r) && r.attempts < cap
    case Signing(r) => r.status == Pending && RowShape(r) && r.attempts < cap
    case Claiming(r, _) => r.status == Pending && RowShape(r) && r.attempts < cap
    case Broadcasting(sig) => sig in stored
    case HeightRead(r) => SentRow(r, stored)
    case StatusRead(r, f) => SentRow(r, stored) && f <= c.finalized
    case Confirming(r) => SentRow(r, stored) && Paid(c, r.signature.value)
    case Repending(r) => SentRow(r, stored) && Dead(c, r.signature.value)
    case Refunding(r) =>
      (r.status == Pending && RowShape(r)) || (SentRow(r, stored) && Dead(c, r.signature.value))
  }

  predicate SentRow(r: Row, stored: seq<Signature>) {
    r.status == Sent && RowShape(r) && r.signature.value in stored
  }

  predicate WorkersOk(s: State) {
    forall w <- s.workers :: WorkerOk(s.workers[w], s.stored, s.chain, s.cap)
  }

  predicate Inv(s: State) {
    RowShape(s.row) && ChainOk(s.chain) && OneLive(s.row, s.stored, s.chain) && Counts(s) && WorkersOk(s)
  }

  // ------------------------------------------------------------ stability of chain facts

  /** `later` is a chain the environment can reach: finality and landings only move forward. */
  predicate Follows(c: Chain, later: Chain) {
    && c.finalized <= later.finalized
    && (forall sig <- c.landed :: c.landed[sig].height <= c.finalized ==>
          sig in later.landed && later.landed[sig] == c.landed[sig])
    && (forall sig <- later.landed :: sig !in c.landed ==> c.finalized < later.landed[sig].height <= sig.lastValid)
  }

  /** Neither a death nor a payment is ever taken back by the chain. */
  lemma FateIsFinal(c: Chain, later: Chain, sig: Signature)
    requires ChainOk(c) && Follows(c, later)
    ensures Dead(c, sig) ==> Dead(later, sig) && !Paid(later, sig)
    ensures Paid(c, sig) ==> Paid(later, sig) && !Dead(later, sig)
  {
  }

  lemma ChainStepFollows(s: State, a: Action)
    requires Enabled(s, a) && ChainOk(s.chain)
    ensures Follows(s.chain, Effect(s, a).chain)
    ensures ChainOk(Effect(s, a).chain)
  {
  }

  /** Locals of one worker survive any step of the rest of the world. */
  lemma WorkerStable(pc: Pc, stored: seq<Signature>, c: Chain, cap: nat,
                     stored': seq<Signature>, c': Chain, cap': nat)
    requires WorkerOk(pc, stored, c, cap) && ChainOk(c) && Follows(c, c') && cap <= cap'
    requires forall sig <- stored :: sig in stored'
    ensures WorkerOk(pc, stored', c', cap')
  {
    match pc {
      case Confirming(r) => FateIsFinal(c, c', r.signature.value);
      case Repending(r) => FateIsFinal(c, c', r.signature.value);
      case Refunding(r) => if r.status == Sent { FateIsFinal(c, c', r.signature.value); }
      case _ =>
    }
  }

  // ------------------------------------------------------------ unseen means dead

  /**
   * `check` reads the final height before the status. A status node that lags by at
   * most one block more than the margin then cannot answer "unseen" about a signature
   * that landed or can still land.
   */
  lemma UnseenMeansDead(c: Chain, sig: Signature, read: nat, view: nat, lag: nat, margin: nat, st: SignatureState)
    requires ChainOk(c) && read <= c.finalized && read <= view + lag && lag <= margin + 1
    requires Reports(c, sig, view, st) && !st.found
    requires read > sig.lastValid + margin
    ensures Dead(c, sig)
  {
  }

  /** A re-sign or refund decided on "unseen" for a signature that is not dead. */
  ghost predicate Misjudged(c: Chain, sig: Signature, read: nat, view: nat, lag: nat, margin: nat) {
    && ChainOk(c) && read <= c.finalized && read <= view + lag
    && Reports(c, sig, view, SignatureState(false, false, false))
    && read > sig.lastValid + margin
    && !Dead(c, sig)
  }

  /** ... and that lag is exact: with one block more, a paid signature can look dead. */
  lemma UnseenSoundExactly(lag: nat, margin: nat)
    ensures (forall c, sig, read, view :: !Misjudged(c, sig, read, view, lag, margin)) <==> lag <= margin + 1
  {
    if lag > margin + 1 {
      var sig := Signature(0, 1);
      var c := Chain(margin + 2, {sig}, map[sig := Landing(1, true)]);
      assert Misjudged(c, sig, margin + 2, 0, lag, margin);
    } else {
      forall c, sig, read, view ensures !Misjudged(c, sig, read, view, lag, margin) {
        if Misjudged(c, sig, read, view, lag, margin) {
          UnseenMeansDead(c, sig, read, view, lag, margin, SignatureState(false, false, false));
        }
      }
    }
  }

  /**
   * The order of the two reads matters: an "unseen" answered first, by a node with no
   * lag at all, says nothing once the height is read later, whatever the margin.
   */
  lemma StatusFirstIsUnsound(margin: nat)
    ensures exists c: Chain, later: Chain, sig: Signature ::
      && ChainOk(c) && ChainOk(later) && Follows(c, later)
      && Reports(c, sig, c.finalized, SignatureState(false, false, false))
      && later.finalized > sig.lastValid + margin
      && Paid(later, sig)
  {
    var sig := Signature(0, 1);
    var c := Chain(0, {sig}, map[]);
    var later := Chain(margin + 2, {sig}, map[sig := Landing(1, true)]);
    assert Reports(c, sig, c.finalized, SignatureState(false, false, false));
    assert ChainOk(c) && ChainOk(later) && Follows(c, later) && Paid(later, sig);
  }

  // ------------------------------------------------------------ every step keeps the invariant

  /** What changes outside a worker's own locals, in the terms other workers care about. */
  lemma OthersUnharmed(s: State, a: Action)
    requires Inv(s) && Enabled(s, a)
    ensures var t := Effect(s, a);
      forall w <- t.workers :: w in s.workers && t.workers[w] == s.workers[w] ==>
        WorkerOk(t.workers[w], t.stored, t.chain, t.cap)
  {
    var t := Effect(s, a);
    ChainStepFollows(s, a);
    forall w <- t.workers | w in s.workers && t.workers[w] == s.workers[w]
      ensures WorkerOk(t.workers[w], t.stored, t.chain, t.cap)
    {
      WorkerStable(s.workers[w], s.stored, s.chain, s.cap, t.stored, t.chain, t.cap);
    }
  }

  /** The acting worker's next locals are justified by what it just learned. */
  lemma ActorOk(s: State, a: Action, w: nat)
    requires Inv(s) && Enabled(s, a)
    requires var t := Effect(s, a); w in t.workers && (w !in s.workers || t.workers[w] != s.workers[w])
    ensures var t := Effect(s, a); WorkerOk(t.workers[w], t.stored, t.chain, t.cap)
  {
    match a {
      case StatusAnswer(v, view, st) =>
        var pc := s.workers[v];
        var sig := pc.row.signature.value;
        assert WorkerOk(pc, s.stored, s.chain, s.cap);
        if !st.found && pc.finalized > sig.lastValid + s.config.margin {
          UnseenMeansDead(s.chain, sig, pc.finalized, view, s.lag, s.config.margin, st);
        }
      case ReadRow(v) =>
      case PauseAnswer(v, _) => assert WorkerOk(s.workers[v], s.stored, s.chain, s.cap);
      case BalanceAnswer(v, _) => assert WorkerOk(s.workers[v], s.stored, s.chain, s.cap);
      case SignAnswer(v, _) => assert WorkerOk(s.workers[v], s.stored, s.chain, s.cap);
      case HeightAnswer(v, _) => assert WorkerOk(s.workers[v], s.stored, s.chain, s.cap);
      case _ =>
    }
  }

  lemma WorkersStayOk(s: State, a: Action)
    requires Inv(s) && Enabled(s, a)
    ensures WorkersOk(Effect(s, a))
  {
    var t := Effect(s, a);
    OthersUnharmed(s, a);
    forall w <- t.workers ensures WorkerOk(t.workers[w], t.stored, t.chain, t.cap) {
      if w !in s.workers || t.workers[w] != s.workers[w] {
        ActorOk(s, a, w);
      }
    }
  }

  /** Only the chain moves: dead stays dead, paid stays paid, and the rest is as it was. */
  lemma ChainKeepsOneLive(s: State, a: Action)
    requires Inv(s) && Enabled(s, a) && Effect(s, a).row == s.row
    ensures OneLive(s.row, s.stored, Effect(s, a).chain)
  {
    var t := Effect(s, a);
    ChainStepFollows(s, a);
    forall sig <- s.stored ensures Holds(s.row, sig) || Dead(t.chain, sig) {
      FateIsFinal(s.chain, t.chain, sig);
    }
    if s.row.status == Confirmed {
      FateIsFinal(s.chain, t.chain, s.row.signature.value);
    }
    if a.Broadcast? {
      assert WorkerOk(s.workers[a.w], s.stored, s.chain, s.cap);
    }
  }

  /** A row leaves `sent` or `pending` only on proof about every signature it held. */
  lemma RowStepKeepsOneLive(s: State, a: Action)
    requires Inv(s) && Enabled(s, a) && Effect(s, a).row != s.row
    ensures var t := Effect(s, a);
      RowShape(t.row) && OneLive(t.row, t.stored, t.chain) && t.chain == s.chain
    ensures var t := Effect(s, a); Counts(t)
  {
    assert a.Claim? || a.Confirm? || a.Repend? || a.Refund?;
    var pc := s.workers[a.w];
    assert WorkerOk(pc, s.stored, s.chain, s.cap);
  }

  lemma StepKeepsInv(s: State, a: Action)
    requires Inv(s)
    ensures Inv(Step(s, a))
  {
    if Enabled(s, a) {
      var t := Effect(s, a);
      ChainStepFollows(s, a);
      WorkersStayOk(s, a);
      if t.row == s.row {
        ChainKeepsOneLive(s, a);
        SameRowKeepsCounts(s, a);
      } else {
        RowStepKeepsOneLive(s, a);
      }
    }
  }

  lemma SameRowKeepsCounts(s: State, a: Action)
    requires Inv(s) && Enabled(s, a) && Effect(s, a).row == s.row
    ensures Counts(Effect(s, a)) && Effect(s, a).stored == s.stored
  {
    if a.Refund? {
      assert WorkerOk(s.workers[a.w], s.stored, s.chain, s.cap);
    }
  }

  lemma {:induction false} ExecKeepsInv(s: State, run: seq<Action>)
    requires Inv(s)
    ensures Inv(Exec(s, run))
  {
    if run != [] {
      ExecKeepsInv(s, run[..|run| - 1]);
      StepKeepsInv(Exec(s, run[..|run| - 1]), run[|run| - 1]);
    }
  }

  lemma InitialInv(s: State)
    requires Initial(s)
    ensures Inv(s)
  {
  }

  // ------------------------------------------------------------ safety over whole runs

  /** A row never has two signatures that could still pay or have paid. */
  lemma NeverTwoLive(s: State, run: seq<Action>, a: Signature, b: Signature)
    requires Initial(s)
    requires var t := Exec(s, run); a in t.stored && b in t.stored && !Dead(t.chain, a) && !Dead(t.chain, b)
    ensures a == b && Holds(Exec(s, run).row, a)
  {
    ExecKeepsInv(s, run);
  }

  /** The rule the protocol exists for: at most one signature of a withdrawal ever lands. */
  lemma PaysAtMostOnce(s: State, run: seq<Action>, a: Signature, b: Signature)
    requires Initial(s)
    requires var t := Exec(s, run); a in t.chain.landed && t.chain.landed[a].ok && b in t.chain.landed && t.chain.landed[b].ok
    ensures a == b
  {
    ExecKeepsInv(s, run);
    NeverTwoLive(s, run, a, b);
  }

  lemma {:induction false} ExecChainFollows(s: State, run: seq<Action>)
    requires Inv(s)
    ensures forall sig :: Dead(s.chain, sig) ==> Dead(Exec(s, run).chain, sig)
    ensures forall sig :: Paid(s.chain, sig) ==> Paid(Exec(s, run).chain, sig)
  {
    if run != [] {
      var t := Exec(s, run[..|run| - 1]);
      var a := run[|run| - 1];
      ExecChainFollows(s, run[..|run| - 1]);
      ExecKeepsInv(s, run[..|run| - 1]);
      if Enabled(t, a) {
        ChainStepFollows(t, a);
        forall sig ensures Dead(t.chain, sig) ==> Dead(Step(t, a).chain, sig)
                   ensures Paid(t.chain, sig) ==> Paid(Step(t, a).chain, sig) {
          FateIsFinal(t.chain, Step(t, a).chain, sig);
        }
      }
    }
  }

  lemma {:induction false} SettledStays(s: State, run: seq<Action>)
    requires Inv(s) && (s.row.status == Confirmed || s.row.status == Failed)
    ensures Exec(s, run).row == s.row && Exec(s, run).refunds == s.refunds && Exec(s, run).stored == s.stored
  {
    if run != [] {
      var t := Exec(s, run[..|run| - 1]);
      SettledStays(s, run[..|run| - 1]);
      ExecKeepsInv(s, run[..|run| - 1]);
      var a := run[|run| - 1];
      if Enabled(t, a) && (a.Claim? || a.Confirm? || a.Repend? || a.Refund?) {
        assert WorkerOk(t.workers[a.w], t.stored, t.chain, t.cap);
      }
    }
  }

  /** `confirmed`: the stored signature paid, nothing else did or will, and nothing is given back. */
  lemma ConfirmedPaidExactlyOnce(s: State, run: seq<Action>, more: seq<Action>)
    requires Initial(s) && Exec(s, run).row.status == Confirmed
    ensures var t := Exec(Exec(s, run), more);
      && t.row == Exec(s, run).row && t.refunds == 0
      && t.row.signature.Some? && Paid(t.chain, t.row.signature.value)
      && forall sig <- t.chain.landed :: t.chain.landed[sig].ok ==> sig == t.row.signature.value
  {
    var m := Exec(s, run);
    ExecKeepsInv(s, run);
    SettledStays(m, more);
    ExecKeepsInv(m, more);
    var t := Exec(m, more);
    forall sig <- t.chain.landed | t.chain.landed[sig].ok ensures sig == t.row.signature.value {
      assert sig in t.stored;
    }
  }

  /** `failed`: nothing landed, nothing ever will, and the stake came back exactly once. */
  lemma FailedNeverPays(s: State, run: seq<Action>, more: seq<Action>)
    requires Initial(s) && Exec(s, run).row.status == Failed
    ensures var t := Exec(Exec(s, run), more);
      && t.row == Exec(s, run).row && t.refunds == 1
      && forall sig <- t.chain.landed :: !t.chain.landed[sig].ok
  {
    var m := Exec(s, run);
    ExecKeepsInv(s, run);
    SettledStays(m, more);
    ExecKeepsInv(m, more);
    var t := Exec(m, more);
    forall sig <- t.chain.landed ensures !t.chain.landed[sig].ok {
      assert sig in t.stored;
    }
  }

  /** An open row has given nothing back, and what it stored is within the attempt limit. */
  lemma AttemptsWithinLimit(s: State, run: seq<Action>)
    requires Initial(s)
    ensures var t := Exec(s, run);
      && |t.stored| == t.row.attempts <= t.cap
      && (t.refunds > 0 <==> t.row.status == Failed) && t.refunds <= 1
  {
    ExecKeepsInv(s, run);
  }

  // ------------------------------------------------------------ progress

  function Rank(st: Status): nat {
    match st
    case Pending => 1
    case Sent => 2
    case Confirmed => 0
    case Failed => 0
  }

  /** Falls on every step that changes the row, under any attempt limit up to `top`. */
  function Measure(s: State, top: nat): nat
    requires s.row.attempts <= top
  {
    2 * (top - s.row.attempts) + Rank(s.row.status)
  }

  lemma RowChangeDescends(s: State, a: Action, top: nat)
    requires Inv(s) && Step(s, a).cap <= top
    ensures s.row.attempts <= top && Step(s, a).row.attempts <= top
    ensures Step(s, a).row != s.row ==> Measure(Step(s, a), top) < Measure(s, top)
  {
    StepKeepsInv(s, a);
    if Step(s, a).row != s.row {
      assert a.Claim? || a.Confirm? || a.Repend? || a.Refund?;
      assert WorkerOk(s.workers[a.w], s.stored, s.chain, s.cap);
    }
  }

  /** How often the row changed along a run. */
  function RowChanges(s: State, run: seq<Action>): nat {
    if run == [] then 0
    else
      var t := Exec(s, run[..|run| - 1]);
      RowChanges(s, run[..|run| - 1]) + (if Step(t, run[|run| - 1]).row == t.row then 0 else 1)
  }

  lemma {:induction false} ChangesPlusMeasure(s: State, run: seq<Action>, top: nat)
    requires Inv(s) && Exec(s, run).cap <= top
    ensures s.row.attempts <= top && Exec(s, run).row.attempts <= top
    ensures RowChanges(s, run) + Measure(Exec(s, run), top) <= Measure(s, top)
  {
    if run != [] {
      var t := Exec(s, run[..|run| - 1]);
      ExecKeepsInv(s, run[..|run| - 1]);
      ChangesPlusMeasure(s, run[..|run| - 1], top);
      RowChangeDescends(t, run[|run| - 1], top);
    }
  }

  /** However workers race, die and restart, a withdrawal's row changes at most 2·cap + 1 times. */
  lemma RowChangesBounded(s: State, run: seq<Action>)
    requires Initial(s)
    ensures RowChanges(s, run) <= 2 * Exec(s, run).cap + 1
  {
    ChangesPlusMeasure(s, run, Exec(s, run).cap);
  }

  // ------------------------------------------------------------ nothing gets stuck

  predicate Settled(s: State) {
    s.row.status == Confirmed || s.row.status == Failed
  }

  lemma {:induction false} ExecConcat(s: State, run: seq<Action>, more: seq<Action>)
    ensures Exec(s, run + more) == Exec(Exec(s, run), more)
  {
    if more == [] {
      assert run + more == run;
    } else {
      assert (run + more)[..|run + more| - 1] == run + more[..|more| - 1];
      ExecConcat(s, run, more[..|more| - 1]);
    }
  }

  /** One more action after a run. */
  lemma Then(s: State, run: seq<Action>, a: Action) returns (longer: seq<Action>)
    ensures longer == run + [a] && Exec(s, longer) == Step(Exec(s, run), a)
  {
    longer := run + [a];
    assert longer[..|longer| - 1] == run;
  }

  /** A replacement for worker 0 that has just read the row. */
  lemma FreshRead(s: State) returns (run: seq<Action>)
    requires Inv(s)
    ensures var t := Exec(s, run);
      t == s.(workers := s.workers[0 := Dispatch(s.row, s.config)])
    ensures run == [Crash(0), Start(0), ReadRow(0)]
  {
    hide Inv;
    run := Then(s, [], Crash(0));
    run := Then(s, run, Start(0));
    run := Then(s, run, ReadRow(0));
    assert (s.workers - {0})[0 := Dispatch(s.row, s.config)] == s.workers[0 := Dispatch(s.row, s.config)];
    if 0 !in s.workers {
      assert s.workers - {0} == s.workers;
    }
  }

  /** Finality far enough ahead decides the fate of the signature a `sent` row holds. */
  lemma LearnFate(s: State) returns (run: seq<Action>)
    requires Inv(s) && s.row.status == Sent
    ensures var t := Exec(s, run);
      && t.row == s.row && t.cap == s.cap && t.config == s.config && 0 in t.workers
      && (t.workers[0] == Confirming(s.row) || t.workers[0] == Repending(s.row)
          || (t.workers[0] == Refunding(s.row) && s.row.attempts >= s.config.maxAttempts))
  {
    var sig := s.row.signature.value;
    var landed := if sig in s.chain.landed then s.chain.landed[sig].height else 0;
    var to := s.chain.finalized + landed + sig.lastValid + s.config.margin + 1;
    var st := if sig in s.chain.landed then SignatureState(true, !s.chain.landed[sig].ok, true)
              else SignatureState(false, false, false);
    run := FreshRead(s);
    run := Then(s, run, Finalize(to));
    run := Then(s, run, HeightAnswer(0, to));
    var t := Exec(s, run);
    assert t.workers[0] == StatusRead(s.row, to) && t.chain == s.chain.(finalized := to) && t.lag == s.lag;
    assert Reports(t.chain, sig, to, st);
    assert Enabled(t, StatusAnswer(0, to, st));
    run := Then(s, run, StatusAnswer(0, to, st));
  }

  /** A `sent` row leaves that state once finality has passed its signature. */
  lemma ResolveSent(s: State) returns (run: seq<Action>)
    requires Inv(s) && s.row.status == Sent
    ensures var t := Exec(s, run);
      && t.row.status != Sent && t.row.attempts == s.row.attempts && t.cap == s.cap && t.config == s.config
      && (t.row.status == Failed ==> s.row.attempts >= s.config.maxAttempts)
  {
    run := LearnFate(s);
    var pc := Exec(s, run).workers[0];
    if pc.Confirming? {
      run := Then(s, run, Confirm(0));
    } else if pc.Repending? {
      run := Then(s, run, Repend(0));
    } else {
      run := Then(s, run, Refund(0));
    }
  }

  /** A `pending` row is signed again, or refunded once its attempts are used up. */
  lemma ResolvePending(s: State) returns (run: seq<Action>)
    requires Inv(s) && s.row.status == Pending
    ensures var t := Exec(s, run);
      t.cap == s.cap &&
      (t.row.status == Failed || (t.row.status == Sent && t.row.attempts == s.row.attempts + 1))
  {
    run := FreshRead(s);
    if s.row.attempts >= s.config.maxAttempts {
      run := Then(s, run, Refund(0));
    } else {
      run := Then(s, run, PauseAnswer(0, false));
      run := Then(s, run, BalanceAnswer(0, s.amount + s.config.feeReserve));
      run := Then(s, run, SignAnswer(0, Signature(0, 0)));
      run := Then(s, run, Claim(0));
    }
  }

  /** From every state a run can reach, some continuation settles the withdrawal. */
  lemma CanAlwaysSettle(s: State) returns (run: seq<Action>)
    requires Inv(s)
    ensures Settled(Exec(s, run))
    decreases s.cap - s.row.attempts, Rank(s.row.status)
  {
    if Settled(s) {
      run := [];
    } else {
      var first: seq<Action>;
      if s.row.status == Sent {
        first := ResolveSent(s);
      } else {
        first := ResolvePending(s);
      }
      ExecKeepsInv(s, first);
      if Settled(Exec(s, first)) {
        run := first;
      } else {
        var rest := CanAlwaysSettle(Exec(s, first));
        run := first + rest;
        ExecConcat(s, first, rest);
      }
    }
  }
}
