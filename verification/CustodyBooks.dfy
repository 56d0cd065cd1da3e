/**
 * The custody books as a whole: every account, every withdrawal (each one a machine of
 * WithdrawalProtocol), every inbound transfer, and the hot wallet. The question is the
 * one the solvency check asks: does the hot wallet hold what is owed?
 */
module CustodyBooks {
  import opened Wrappers
  import opened Sums
  import P = WithdrawalProtocol

  datatype User = User(funded: bool, banned: bool, balance: nat)

  /** `day` is the UTC day of `createdAt`; the amount is the machine's. */
  datatype Withdrawal = Withdrawal(user: nat, day: nat, machine: P.State)

  /** An inbound transfer: not looked at yet, dropped as dust, or a deposit row. */
  datatype DepositStatus = Arrived | Ignored | Held | Credited

  datatype Deposit = Deposit(amount: nat, status: DepositStatus)

  datatype Limits = Limits(minWithdraw: nat, maxWithdraw: nat, daily: nat, minDeposit: nat)

  /**
   * `fees`, `dust` and `house` accumulate what left through each of those doors; `topDaily` is
   * the largest daily limit ever in force, since the limits are read live.
   */
  datatype Books = Books(
    users: seq<User>,
    withdrawals: seq<Withdrawal>,
    deposits: seq<Deposit>,
    hot: int,
    fees: int,
    dust: int,
    house: int,
    fee: nat,
    limits: Limits,
    topDaily: nat)

  datatype Refusal =
    | BelowMinimum | AboveMaximum | Paused | NotFunded | ForeignWallet | InProgress | DailyLimit | InsufficientBalance

  datatype Action =
    | Request(user: nat, amount: nat, today: nat, paused: bool, ownWallet: bool, config: P.Config, lag: nat, finalized: nat)
    | Machine(i: nat, act: P.Action)
    | Arrive(amount: nat)
    | Record(d: nat)
    | Ignore(d: nat)
    | Credit(d: nat, to: nat)
    | Play(user: nat, delta: int)
    | Ban(user: nat, flag: bool)
    | SetLimits(limits: Limits)

  // ------------------------------------------------------------ withdrawals: request

  predicate Open(w: Withdrawal) {
    w.machine.row.status == P.Pending || w.machine.row.status == P.Sent
  }

  predicate CountsTowardLimit(w: Withdrawal) {
    w.machine.row.status != P.Failed
  }

  function InFlight(ws: seq<Withdrawal>, user: nat): seq<int> {
    seq(|ws|, i requires 0 <= i < |ws| => if ws[i].user == user && Open(ws[i]) then 1 else 0)
  }

  /** Live amounts of one user created on or after `day`. */
  function LiveSince(ws: seq<Withdrawal>, user: nat, day: nat): seq<int> {
    seq(|ws|, i requires 0 <= i < |ws| =>
      if ws[i].user == user && ws[i].day >= day && CountsTowardLimit(ws[i]) then ws[i].machine.amount else 0)
  }

  function LiveOn(ws: seq<Withdrawal>, user: nat, day: nat): seq<int> {
    seq(|ws|, i requires 0 <= i < |ws| =>
      if ws[i].user == user && ws[i].day == day && CountsTowardLimit(ws[i]) then ws[i].machine.amount else 0)
  }

  function NewMachine(amount: nat, lag: nat, config: P.Config, finalized: nat): P.State {
    P.State(amount, lag, P.Row(P.Pending, None, None, 0), P.Chain(finalized, {}, map[]),
            config, map[], 0, [], config.maxAttempts)
  }

  /** The checks `request` makes before its transaction, in order. */
  function RefusedEarly(limits: Limits, amount: nat, paused: bool): Option<Refusal> {
    if amount < limits.minWithdraw then Some(BelowMinimum)
    else if amount > limits.maxWithdraw then Some(AboveMaximum)
    else if paused then Some(Paused)
    else None
  }

  /** The checks inside the transaction, in order; the last is the guarded debit. */
  function Refused(account: User, ws: seq<Withdrawal>, limits: Limits,
                   user: nat, amount: nat, today: nat, ownWallet: bool): Option<Refusal>
  {
    if !account.funded then Some(NotFunded)
    else if !ownWallet then Some(ForeignWallet)
    else if Total(InFlight(ws, user)) > 0 then Some(InProgress)
    else if Total(LiveSince(ws, user, today)) + amount > limits.daily then Some(DailyLimit)
    else if account.banned || account.balance < amount then Some(InsufficientBalance)
    else None
  }

  // ------------------------------------------------------------ transitions

  predicate Enabled(b: Books, a: Action) {
    match a
    case Request(u, amount, today, paused, own, config, lag, _) =>
      && u < |b.users| && lag <= config.margin + 1
      && RefusedEarly(b.limits, amount, paused) == None
      && Refused(b.users[u], b.withdrawals, b.limits, u, amount, today, own) == None
    case Machine(i, act) => i < |b.withdrawals| && P.Enabled(b.withdrawals[i].machine, act)
    case Arrive(_) => true
    case Record(d) => d < |b.deposits| && b.deposits[d].status == Arrived
    case Ignore(d) => d < |b.deposits| && b.deposits[d].status == Arrived && b.deposits[d].amount < b.limits.minDeposit
    case Credit(d, u) =>
      && d < |b.deposits| && u < |b.users| && b.deposits[d].status == Held
      && b.limits.minDeposit <= b.deposits[d].amount
      // Forfeiting the play seed is a debit, and a banned account cannot be debited.
      && (b.users[u].funded || b.users[u].balance == 0 || !b.users[u].banned)
    case Play(u, delta) => u < |b.users| && 0 <= b.users[u].balance + delta
    case Ban(u, _) => u < |b.users|
    case SetLimits(_) => true
  }

  /** A landed transaction costs its fee either way, and moves the amount only if it succeeded. */
  function HotDelta(fee: nat, m: P.State, act: P.Action): int
    requires P.Enabled(m, act)
  {
    match act
    case Land(_, _, ok) => -(fee + (if ok then m.amount else 0))
    case Rollback(sig) => fee + (if m.chain.landed[sig].ok then m.amount else 0)
    case _ => 0
  }

  function FeeDelta(fee: nat, act: P.Action): int {
    match act
    case Land(_, _, _) => fee
    case Rollback(_) => 0 - fee
    case _ => 0
  }

  function Effect(b: Books, a: Action): Books
    requires Enabled(b, a) && Known(b)
  {
    match a
    case Request(u, amount, today, _, _, config, lag, finalized) =>
      b.(users := b.users[u := b.users[u].(balance := b.users[u].balance - amount)],
         withdrawals := b.withdrawals + [Withdrawal(u, today, NewMachine(amount, lag, config, finalized))])
    case Machine(i, act) =>
      var w := b.withdrawals[i];
      var m := P.Effect(w.machine, act);
      // The refund transaction credits the stake with the row flip.
      var back := if m.refunds > w.machine.refunds then m.amount else 0;
      b.(withdrawals := b.withdrawals[i := w.(machine := m)],
         users := b.users[w.user := b.users[w.user].(balance := b.users[w.user].balance + back)],
         hot := b.hot + HotDelta(b.fee, w.machine, act),
         fees := b.fees + FeeDelta(b.fee, act))
    case Arrive(amount) => b.(deposits := b.deposits + [Deposit(amount, Arrived)], hot := b.hot + amount)
    case Record(d) => b.(deposits := b.deposits[d := b.deposits[d].(status := Held)])
    case Ignore(d) =>
      b.(deposits := b.deposits[d := b.deposits[d].(status := Ignored)], dust := b.dust + b.deposits[d].amount)
    case Credit(d, u) =>
      var kept := if b.users[u].funded then b.users[u].balance else 0;
      b.(deposits := b.deposits[d := b.deposits[d].(status := Credited)],
         users := b.users[u := b.users[u].(funded := true, balance := kept + b.deposits[d].amount)])
    case Play(u, delta) =>
      b.(users := b.users[u := b.users[u].(balance := b.users[u].balance + delta)],
         house := if b.users[u].funded then b.house - delta else b.house)
    case Ban(u, flag) => b.(users := b.users[u := b.users[u].(banned := flag)])
    case SetLimits(limits) => b.(limits := limits, topDaily := if limits.daily > b.topDaily then limits.daily else b.topDaily)
  }

  function Step(b: Books, a: Action): Books
    requires Known(b)
  {
    if Enabled(b, a) then Effect(b, a) else b
  }

  predicate Known(b: Books) {
    forall i | 0 <= i < |b.withdrawals| :: b.withdrawals[i].user < |b.users|
  }

  lemma StepKnown(b: Books, a: Action)
    requires Known(b)
    ensures Known(Step(b, a))
  {
  }

  // ------------------------------------------------------------ what is owed

  /** The successful transfer of this withdrawal is on the chain. */
  predicate LandedOk(m: P.State) {
    exists sig <- m.chain.landed :: m.chain.landed[sig].ok
  }

  function Balances(b: Books): seq<int> {
    seq(|b.users|, i requires 0 <= i < |b.users| => if b.users[i].funded then b.users[i].balance else 0)
  }

  /** Debited and not yet out of the hot wallet. */
  function Unlanded(b: Books): seq<int> {
    seq(|b.withdrawals|, i requires 0 <= i < |b.withdrawals| => UnlandedOf(b.withdrawals[i]))
  }

  function UnlandedOf(w: Withdrawal): int {
    if Open(w) && !LandedOk(w.machine) then w.machine.amount else 0
  }

  function Uncredited(b: Books): seq<int> {
    seq(|b.deposits|, i requires 0 <= i < |b.deposits| => UncreditedOf(b.deposits[i]))
  }

  function UncreditedOf(d: Deposit): int {
    if d.status == Arrived || d.status == Held then d.amount else 0
  }

  function Owed(b: Books): int {
    Total(Balances(b)) + Total(Unlanded(b)) + Total(Uncredited(b))
  }

  /** What the hot wallet holds over what is owed, with every explained change put back. */
  function Unexplained(b: Books): int {
    b.hot - Owed(b) + b.fees - b.dust - b.house
  }

  // ------------------------------------------------------------ the invariant

  predicate Inv(b: Books) {
    && Known(b)
    && (forall i | 0 <= i < |b.withdrawals| ::
          P.Inv(b.withdrawals[i].machine) && b.users[b.withdrawals[i].user].funded)
  }

  lemma StepKeepsInv(b: Books, a: Action)
    requires Inv(b)
    ensures Inv(Step(b, a))
  {
    if Enabled(b, a) {
      match a {
        case Machine(i, act) => P.StepKeepsInv(b.withdrawals[i].machine, act);
        case Request(_, amount, _, _, _, config, lag, finalized) =>
          P.InitialInv(NewMachine(amount, lag, config, finalized));
        case _ =>
      }
    }
  }

  // ------------------------------------------------------------ one machine's part in the books

  /** Money counted as out is out for good only while the row says so. */
  lemma OkMeansHeld(m: P.State, sig: P.Signature)
    requires P.Inv(m) && sig in m.chain.landed && m.chain.landed[sig].ok
    ensures P.Holds(m.row, sig)
    ensures forall other <- m.chain.landed :: m.chain.landed[other].ok ==> other == sig
  {
    assert sig in m.stored;
  }

  function Stake(m: P.State): int {
    if (m.row.status == P.Pending || m.row.status == P.Sent) && !LandedOk(m) then m.amount else 0
  }

  /** The stake leaves the open withdrawals exactly when it leaves the hot wallet or goes back. */
  lemma MachineConserves(fee: nat, m: P.State, act: P.Action)
    requires P.Inv(m) && P.Enabled(m, act)
    ensures var n := P.Effect(m, act);
      && n.amount == m.amount
      && Stake(n) - Stake(m) ==
           HotDelta(fee, m, act) + FeeDelta(fee, act) - (if n.refunds > m.refunds then m.amount else 0)
  {
    var n := P.Effect(m, act);
    P.StepKeepsInv(m, act);
    match act {
      case Land(sig, at, ok) =>
        if ok {
          OkMeansHeld(n, sig);
          assert sig in n.chain.landed && n.chain.landed[sig].ok;
          assert forall other <- m.chain.landed :: other in n.chain.landed && n.chain.landed[other] == m.chain.landed[other];
        } else {
          LandedOkSame(m, n, sig);
        }
      case Rollback(sig) =>
        if m.chain.landed[sig].ok {
          OkMeansHeld(m, sig);
        } else {
          LandedOkSame(n, m, sig);
        }
      case Confirm(w) =>
        assert P.WorkerOk(m.workers[w], m.stored, m.chain, m.cap);
        if n.row != m.row {
          assert n.row.signature.value in m.chain.landed;
        }
      case Refund(w) =>
        assert P.WorkerOk(m.workers[w], m.stored, m.chain, m.cap);
        if n.row != m.row && LandedOk(m) {
          var sig :| sig in m.chain.landed && m.chain.landed[sig].ok;
          OkMeansHeld(m, sig);
        }
      case _ =>
    }
  }

  lemma LandedOkSame(m: P.State, n: P.State, sig: P.Signature)
    requires sig !in m.chain.landed && sig in n.chain.landed && !n.chain.landed[sig].ok
    requires n.chain.landed - {sig} == m.chain.landed
    ensures LandedOk(m) == LandedOk(n)
  {
    if LandedOk(n) {
      var other :| other in n.chain.landed && n.chain.landed[other].ok;
      assert other in n.chain.landed - {sig};
    }
    if LandedOk(m) {
      var other :| other in m.chain.landed && m.chain.landed[other].ok;
      assert other in n.chain.landed - {sig};
    }
  }

  // ------------------------------------------------------------ conservation

  lemma MachineStepConserves(b: Books, i: nat, act: P.Action)
    requires Inv(b) && Enabled(b, Machine(i, act))
    ensures Unexplained(Effect(b, Machine(i, act))) == Unexplained(b)
  {
    var t := Effect(b, Machine(i, act));
    var w := b.withdrawals[i];
    var m, n := w.machine, P.Effect(w.machine, act);
    MachineConserves(b.fee, m, act);
    TotalPoint(Unlanded(b), Unlanded(t), i, Stake(n) - Stake(m));
    TotalPoint(Balances(b), Balances(t), w.user, if n.refunds > m.refunds then n.amount else 0);
    assert Uncredited(t) == Uncredited(b);
  }

  lemma RequestConserves(b: Books, a: Action)
    requires Inv(b) && Enabled(b, a) && a.Request?
    ensures Unexplained(Effect(b, a)) == Unexplained(b)
  {
    var t := Effect(b, a);
    TotalPoint(Balances(b), Balances(t), a.user, 0 - a.amount);
    assert !LandedOk(t.withdrawals[|b.withdrawals|].machine);
    assert Unlanded(t) == Unlanded(b) + [a.amount];
    TotalAppend(Unlanded(b), a.amount);
    assert Uncredited(t) == Uncredited(b);
  }

  lemma DepositConserves(b: Books, a: Action)
    requires Inv(b) && Enabled(b, a) && (a.Arrive? || a.Record? || a.Ignore? || a.Credit?)
    ensures Unexplained(Effect(b, a)) == Unexplained(b)
  {
    var t := Effect(b, a);
    assert Unlanded(t) == Unlanded(b);
    if a.Arrive? {
      assert Uncredited(t) == Uncredited(b) + [a.amount];
      TotalAppend(Uncredited(b), a.amount);
      assert Balances(t) == Balances(b);
    } else {
      var amount := b.deposits[a.d].amount;
      var settled: int := if a.Record? then 0 else amount;
      TotalPoint(Uncredited(b), Uncredited(t), a.d, 0 - settled);
      if a.Credit? {
        TotalPoint(Balances(b), Balances(t), a.to, amount);
      } else {
        assert Balances(t) == Balances(b);
      }
    }
  }

  lemma PlayConserves(b: Books, a: Action)
    requires Inv(b) && Enabled(b, a) && (a.Play? || a.Ban?)
    ensures Unexplained(Effect(b, a)) == Unexplained(b)
  {
    var t := Effect(b, a);
    TotalPoint(Balances(b), Balances(t), a.user, if a.Play? && b.users[a.user].funded then a.delta else 0);
    assert Unlanded(t) == Unlanded(b) && Uncredited(t) == Uncredited(b);
  }

  lemma LimitsConserve(b: Books, a: Action)
    requires Inv(b) && a.SetLimits?
    ensures Unexplained(Effect(b, a)) == Unexplained(b)
  {
    var t := Effect(b, a);
    assert Unlanded(t) == Unlanded(b) && Uncredited(t) == Uncredited(b) && Balances(t) == Balances(b);
  }

  lemma StepConserves(b: Books, a: Action)
    requires Inv(b)
    ensures Unexplained(Step(b, a)) == Unexplained(b)
  {
    if Enabled(b, a) {
      match a {
        case Machine(i, act) => MachineStepConserves(b, i, act);
        case Request(_, _, _, _, _, _, _, _) => RequestConserves(b, a);
        case Play(_, _) => PlayConserves(b, a);
        case Ban(_, _) => PlayConserves(b, a);
        case SetLimits(_) => LimitsConserve(b, a);
        case _ => DepositConserves(b, a);
      }
    }
  }

  function Exec(b: Books, run: seq<Action>): (r: Books)
    requires Known(b)
    ensures Known(r)
  {
    if run == [] then b
    else
      var t := Exec(b, run[..|run| - 1]);
      StepKnown(t, run[|run| - 1]);
      Step(t, run[|run| - 1])
  }

  /** The books before anything happened: funds in the hot wallet, no transfer in or out. */
  predicate Opening(b: Books) {
    b.withdrawals == [] && b.deposits == [] && b.fees == 0 && b.dust == 0 && b.house == 0
    && b.topDaily == b.limits.daily
  }

  lemma {:induction false} RunKeepsInv(b: Books, run: seq<Action>)
    requires Inv(b)
    ensures Inv(Exec(b, run))
  {
    if run != [] {
      RunKeepsInv(b, run[..|run| - 1]);
      StepKeepsInv(Exec(b, run[..|run| - 1]), run[|run| - 1]);
    }
  }

  /**
   * Custody conservation. Over any run of requests, races, landings, rollbacks,
   * refunds, deposits, conversions and play, what the hot wallet holds beyond what it
   * owes moves only by network fees, ignored dust and what funded players lost or won.
   */
  lemma {:induction false} Conservation(b: Books, run: seq<Action>)
    requires Inv(b)
    ensures var t := Exec(b, run);
      (t.hot - Owed(t)) - (b.hot - Owed(b)) == -(t.fees - b.fees) + (t.dust - b.dust) + (t.house - b.house)
  {
    if run != [] {
      RunKeepsInv(b, run[..|run| - 1]);
      Conservation(b, run[..|run| - 1]);
      StepConserves(Exec(b, run[..|run| - 1]), run[|run| - 1]);
    }
  }

  // ------------------------------------------------------------ what the solvency check reports

  function OpenAmounts(b: Books): seq<int> {
    seq(|b.withdrawals|, i requires 0 <= i < |b.withdrawals| =>
      if Open(b.withdrawals[i]) then b.withdrawals[i].machine.amount else 0)
  }

  function HeldAmounts(b: Books): seq<int> {
    seq(|b.deposits|, i requires 0 <= i < |b.deposits| => if b.deposits[i].status == Held then b.deposits[i].amount else 0)
  }

  /** The liabilities the reconciliation job adds up, from rows alone. */
  function Reported(b: Books): int {
    Total(Balances(b)) + Total(OpenAmounts(b)) + Total(HeldAmounts(b))
  }

  function LandedUnconfirmed(b: Books): seq<int> {
    seq(|b.withdrawals|, i requires 0 <= i < |b.withdrawals| =>
      if Open(b.withdrawals[i]) && LandedOk(b.withdrawals[i].machine) then b.withdrawals[i].machine.amount else 0)
  }

  function Unrecorded(b: Books): seq<int> {
    seq(|b.deposits|, i requires 0 <= i < |b.deposits| => if b.deposits[i].status == Arrived then b.deposits[i].amount else 0)
  }

  /**
   * The job counts a withdrawal until its row is confirmed and a deposit only once it
   * has a row; those two are the whole difference from what is owed.
   */
  lemma ReportedVersusOwed(b: Books)
    ensures Reported(b) == Owed(b) + Total(LandedUnconfirmed(b)) - Total(Unrecorded(b))
    ensures Unrecorded(b) == seq(|b.deposits|, _ => 0) ==> Owed(b) <= Reported(b)
  {
    TotalAdd(Unlanded(b), LandedUnconfirmed(b), OpenAmounts(b));
    TotalAdd(HeldAmounts(b), Unrecorded(b), Uncredited(b));
    TotalNonNegative(LandedUnconfirmed(b));
    if Unrecorded(b) == seq(|b.deposits|, _ => 0) {
      TotalMonotone(Unrecorded(b), seq(|b.deposits|, _ => 0));
      AllZero(seq(|b.deposits|, _ => 0));
    }
  }

  // ------------------------------------------------------------ limits

  ghost predicate WithinLimits(b: Books) {
    && (forall u: nat :: Total(InFlight(b.withdrawals, u)) <= 1)
    && (forall u: nat, day: nat :: Total(LiveOn(b.withdrawals, u, day)) <= b.topDaily)
    && b.limits.daily <= b.topDaily
  }

  /** A machine that left the open or the live states never returns to them. */
  lemma MachineOnlyCloses(w: Withdrawal, act: P.Action)
    requires P.Inv(w.machine) && P.Enabled(w.machine, act)
    ensures var x := w.(machine := P.Effect(w.machine, act));
      (Open(x) ==> Open(w)) && (CountsTowardLimit(x) ==> CountsTowardLimit(w)) && x.machine.amount == w.machine.amount
  {
    if act.Claim? || act.Confirm? || act.Repend? || act.Refund? {
      assert P.WorkerOk(w.machine.workers[act.w], w.machine.stored, w.machine.chain, w.machine.cap);
    }
  }

  lemma MachineKeepsLimits(b: Books, i: nat, act: P.Action)
    requires Inv(b) && WithinLimits(b) && Enabled(b, Machine(i, act))
    ensures WithinLimits(Effect(b, Machine(i, act)))
  {
    var t := Effect(b, Machine(i, act));
    MachineOnlyCloses(b.withdrawals[i], act);
    forall u: nat ensures Total(InFlight(t.withdrawals, u)) <= 1 {
      TotalMonotone(InFlight(t.withdrawals, u), InFlight(b.withdrawals, u));
    }
    forall u: nat, day: nat ensures Total(LiveOn(t.withdrawals, u, day)) <= t.topDaily {
      TotalMonotone(LiveOn(t.withdrawals, u, day), LiveOn(b.withdrawals, u, day));
    }
  }

  /** One more withdrawal at the end counts for its user and its day, and for no other. */
  lemma OneMoreWithdrawal(ws: seq<Withdrawal>, w: Withdrawal, u: nat, day: nat)
    requires Open(w) && CountsTowardLimit(w)
    ensures Total(InFlight(ws + [w], u)) == Total(InFlight(ws, u)) + (if u == w.user then 1 else 0)
    ensures Total(LiveOn(ws + [w], u, day))
         == Total(LiveOn(ws, u, day)) + (if u == w.user && day == w.day then w.machine.amount else 0)
    ensures Total(LiveOn(ws, u, day)) <= Total(LiveSince(ws, u, day))
  {
    var one, more := if u == w.user then 1 else 0, if u == w.user && day == w.day then w.machine.amount else 0;
    assert InFlight(ws + [w], u) == InFlight(ws, u) + [one];
    TotalAppend(InFlight(ws, u), one);
    assert LiveOn(ws + [w], u, day) == LiveOn(ws, u, day) + [more];
    TotalAppend(LiveOn(ws, u, day), more);
    TotalMonotone(LiveOn(ws, u, day), LiveSince(ws, u, day));
  }

  lemma RequestKeepsLimits(b: Books, a: Action)
    requires Inv(b) && WithinLimits(b) && Enabled(b, a) && a.Request?
    ensures WithinLimits(Effect(b, a))
  {
    var t := Effect(b, a);
    var w := t.withdrawals[|b.withdrawals|];
    assert t.withdrawals == b.withdrawals + [w] && w.user == a.user && w.day == a.today && w.machine.amount == a.amount;
    hide Inv, InFlight, LiveOn, LiveSince, Total, NewMachine;
    forall u: nat, day: nat
      ensures Total(InFlight(t.withdrawals, u)) <= 1 && Total(LiveOn(t.withdrawals, u, day)) <= t.topDaily
    {
      OneMoreWithdrawal(b.withdrawals, w, u, day);
    }
    forall u: nat ensures Total(InFlight(t.withdrawals, u)) <= 1 {
      OneMoreWithdrawal(b.withdrawals, w, u, 0);
    }
  }

  /**
   * Requests are serialized, so over any run a user has at most one withdrawal in
   * flight, and what left or may still leave on one day is within the largest daily
   * limit in force so far.
   */
  lemma {:induction false} LimitsHold(b: Books, run: seq<Action>)
    requires Inv(b) && WithinLimits(b)
    ensures WithinLimits(Exec(b, run))
  {
    if run != [] {
      var t := Exec(b, run[..|run| - 1]);
      var a := run[|run| - 1];
      RunKeepsInv(b, run[..|run| - 1]);
      LimitsHold(b, run[..|run| - 1]);
      if Enabled(t, a) {
        if a.Machine? {
          MachineKeepsLimits(t, a.i, a.act);
        } else if a.Request? {
          RequestKeepsLimits(t, a);
        }
      }
    }
  }

  lemma OpeningIsSound(b: Books)
    requires Opening(b)
    ensures Inv(b) && WithinLimits(b)
  {
  }
}
