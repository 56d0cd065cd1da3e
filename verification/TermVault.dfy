/**
 * A SCAD Vault term pool: shares against a growing index, in fixed point. Shares are
 * rounded down when issued and payouts are rounded down when made, as ERC-4626 asks
 * under "Security Considerations".
 */
module TermVault {
  import opened Wrappers
  import opened Rounding
  import opened Sums

  const RAY: nat := 1_000_000_000_000_000_000
  const MINIMUM_LIQUIDITY: nat := 1_000
  const EARLY_EXIT_PENALTY_BPS: nat := 1_000
  const SECONDS_PER_DAY: nat := 86_400

  datatype Error = ZeroAmount | InsufficientFunds | Paused | NotCosigner | TransferFailed | Overflow

  datatype Position = Position(shares: nat, principal: nat, maturesAt: int)

  /** `tokens` is the balance of the pool's own token account. */
  datatype Pool = Pool(assets: nat, shares: nat, index: nat, tokens: nat, termDays: nat, positions: seq<Position>)

  // ------------------------------------------------------------ share/index helpers

  function SharesForDeposit(assets: nat, index: nat): nat {
    if assets == 0 || index == 0 then 0 else assets * RAY / index
  }

  function AssetsForShares(shares: nat, index: nat): nat {
    if shares == 0 || index == 0 then 0
    else
      var a := shares * index / RAY;
      if a > U64 then U64 else a
  }

  function ApplyAccrual(index: nat, shares: nat, gain: nat): nat {
    if shares == 0 || gain == 0 then index else index + gain * RAY / shares
  }

  function EarlyExitPenalty(assets: nat): nat {
    assets * EARLY_EXIT_PENALTY_BPS / 10_000
  }

  function SaturatingSub(a: nat, b: nat): nat {
    if b <= a then a - b else 0
  }

  // ------------------------------------------------------------ instructions

  /** The pool afterwards and the shares credited to the caller. */
  function Deposit(p: Pool, u: nat, amount: nat, now: int, wallet: nat): Result<(Pool, nat), Error>
    requires u < |p.positions|
  {
    var shares := SharesForDeposit(amount, p.index);
    var pos := p.positions[u];
    if amount == 0 || shares == 0 then Err(ZeroAmount)
    else if p.shares == 0 && shares <= MINIMUM_LIQUIDITY then Err(InsufficientFunds)
    else if wallet < amount || p.tokens + amount > U64 then Err(TransferFailed)
    else if pos.principal + amount > U64 then Err(Overflow)
    else
      var minted := if p.shares == 0 then shares - MINIMUM_LIQUIDITY else shares;
      Ok((p.(assets := p.assets + amount, shares := p.shares + shares, tokens := p.tokens + amount,
             positions := p.positions[u := Position(pos.shares + minted, pos.principal + amount,
                                                    now + p.termDays * SECONDS_PER_DAY)]),
          minted))
  }

  datatype Payout = Payout(gross: nat, penalty: nat, net: nat)

  function PayoutFor(p: Pool, u: nat, shares: nat, now: int): (r: Payout)
    requires u < |p.positions|
    ensures r.net == r.gross - r.penalty && r.penalty * 10 <= r.gross
    ensures now >= p.positions[u].maturesAt ==> r.net == r.gross
  {
    var gross := AssetsForShares(shares, p.index);
    var penalty := if now < p.positions[u].maturesAt then EarlyExitPenalty(gross) else 0;
    Payout(gross, penalty, gross - penalty)
  }

  function PrincipalPortion(pos: Position, shares: nat): nat
    requires 0 < shares <= pos.shares
  {
    if shares == pos.shares then pos.principal else pos.principal * shares / pos.shares
  }

  function Withdraw(p: Pool, u: nat, shares: nat, now: int): Result<(Pool, Payout), Error>
    requires u < |p.positions|
  {
    var pos := p.positions[u];
    if shares == 0 then Err(ZeroAmount)
    else if shares > pos.shares then Err(InsufficientFunds)
    else
      var out := PayoutFor(p, u, shares, now);
      var portion := PrincipalPortion(pos, shares);
      if shares > p.shares || portion > pos.principal then Err(Overflow)
      else if p.tokens < out.net then Err(TransferFailed)
      else
        Ok((p.(index := ApplyAccrual(p.index, p.shares - shares, out.penalty),
               shares := p.shares - shares,
               assets := SaturatingSub(p.assets, out.net),
               tokens := p.tokens - out.net,
               positions := p.positions[u := pos.(shares := pos.shares - shares, principal := pos.principal - portion)]),
            out))
  }

  function Accrue(p: Pool, amount: nat, paused: bool, cosigner: bool, treasury: nat): Result<Pool, Error> {
    if paused then Err(Paused)
    else if !cosigner then Err(NotCosigner)
    else if amount == 0 then Err(ZeroAmount)
    else if p.shares == 0 then Err(InsufficientFunds)
    else if treasury < amount || p.tokens + amount > U64 then Err(TransferFailed)
    else Ok(p.(index := ApplyAccrual(p.index, p.shares, amount), assets := p.assets + amount, tokens := p.tokens + amount))
  }

  datatype Instruction =
    | DepositI(u: nat, amount: nat, now: int, wallet: nat)
    | WithdrawI(u: nat, shares: nat, now: int)
    | AccrueI(amount: nat, paused: bool, cosigner: bool, treasury: nat)
    | DonateI(amount: nat)

  function Step(p: Pool, i: Instruction): (q: Pool)
    ensures |q.positions| == |p.positions|
  {
    match i
    case DepositI(u, amount, now, wallet) =>
      if u < |p.positions| && Deposit(p, u, amount, now, wallet).Ok? then Deposit(p, u, amount, now, wallet).value.0 else p
    case WithdrawI(u, shares, now) =>
      if u < |p.positions| && Withdraw(p, u, shares, now).Ok? then Withdraw(p, u, shares, now).value.0 else p
    case AccrueI(amount, paused, cosigner, treasury) =>
      if Accrue(p, amount, paused, cosigner, treasury).Ok? then Accrue(p, amount, paused, cosigner, treasury).value else p
    case DonateI(amount) => if p.tokens + amount <= U64 then p.(tokens := p.tokens + amount) else p
  }

  function Exec(p: Pool, run: seq<Instruction>): (q: Pool)
    ensures |q.positions| == |p.positions|
  {
    if run == [] then p else Step(Exec(p, run[..|run| - 1]), run[|run| - 1])
  }

  // ------------------------------------------------------------ invariant

  function Held(ps: seq<Position>): seq<int> {
    seq(|ps|, i requires 0 <= i < |ps| => ps[i].shares)
  }

  /** Every share at the current index is backed by assets. */
  predicate Solvent(p: Pool) {
    p.shares * p.index <= p.assets * RAY
  }

  predicate Inv(p: Pool) {
    && Solvent(p)
    && RAY <= p.index
    && p.assets <= p.tokens <= U64
    && (if p.shares == 0 then Total(Held(p.positions)) == 0
        else p.shares == Total(Held(p.positions)) + MINIMUM_LIQUIDITY)
    && (forall i | 0 <= i < |p.positions| :: p.positions[i].principal <= U64)
  }

  predicate Fresh(p: Pool) {
    && p.assets == 0 && p.shares == 0 && p.index == RAY && p.tokens <= U64
    && forall i | 0 <= i < |p.positions| :: p.positions[i].shares == 0 && p.positions[i].principal == 0
  }

  lemma FreshInv(p: Pool)
    requires Fresh(p)
    ensures Inv(p)
  {
    AllZero(Held(p.positions));
  }

  // ------------------------------------------------------------ rounding, one formula at a time

  lemma DepositRounding(assets: nat, index: nat)
    requires index > 0
    ensures SharesForDeposit(assets, index) * index <= assets * RAY
    ensures assets > 0 ==> assets * RAY < SharesForDeposit(assets, index) * index + index
  {
    FloorBounds(assets * RAY, index);
  }

  lemma AccrualRounding(index: nat, shares: nat, gain: nat)
    ensures index <= ApplyAccrual(index, shares, gain)
    ensures ApplyAccrual(index, shares, gain) * shares <= index * shares + gain * RAY
  {
    if shares > 0 && gain > 0 {
      FloorBounds(gain * RAY, shares);
      assert (index + gain * RAY / shares) * shares == index * shares + (gain * RAY / shares) * shares;
    }
  }

  /** Part of the shares is worth no more than the assets, so the 64-bit cap is never met. */
  lemma PayoutWithinAssets(p: Pool, shares: nat)
    requires Inv(p) && shares <= p.shares
    ensures AssetsForShares(shares, p.index) == shares * p.index / RAY <= p.assets
    ensures AssetsForShares(shares, p.index) * RAY <= shares * p.index
  {
    MulLe(shares, p.shares, p.index);
    FloorLe(shares * p.index, RAY, p.assets);
    FloorBounds(shares * p.index, RAY);
  }

  /** What leaves never exceeds what the burnt shares were backed by; the penalty lifts the rest. */
  lemma WithdrawBacking(assets: nat, shares: nat, index: nat, burnt: nat, gross: nat, penalty: nat)
    requires shares * index <= assets * RAY && burnt <= shares
    requires gross * RAY <= burnt * index && penalty <= gross <= assets
    ensures ApplyAccrual(index, shares - burnt, penalty) * (shares - burnt) <= (assets - (gross - penalty)) * RAY
  {
    AccrualRounding(index, shares - burnt, penalty);
    assert index * (shares - burnt) == shares * index - burnt * index;
    assert (assets - (gross - penalty)) * RAY == assets * RAY - gross * RAY + penalty * RAY;
  }

  // ------------------------------------------------------------ each instruction

  lemma DepositKeeps(p: Pool, u: nat, amount: nat, now: int, wallet: nat)
    requires Inv(p) && u < |p.positions| && Deposit(p, u, amount, now, wallet).Ok?
    ensures var (q, minted) := Deposit(p, u, amount, now, wallet).value;
      Inv(q) && q.index == p.index && q.tokens - p.tokens == q.assets - p.assets == amount && minted > 0
  {
    var (q, minted) := Deposit(p, u, amount, now, wallet).value;
    TotalPoint(Held(p.positions), Held(q.positions), u, minted);
    DepositRounding(amount, p.index);
    hide SharesForDeposit;
    assert q.shares * p.index == p.shares * p.index + SharesForDeposit(amount, p.index) * p.index;
    assert q.assets * RAY == p.assets * RAY + amount * RAY;
  }

  lemma HeldCovers(p: Pool, u: nat)
    requires Inv(p) && u < |p.positions|
    ensures p.positions[u].shares <= Total(Held(p.positions)) <= p.shares
  {
    TotalCovers(Held(p.positions), u);
  }

  lemma PortionWithinPrincipal(pos: Position, shares: nat)
    requires 0 < shares <= pos.shares
    ensures PrincipalPortion(pos, shares) <= pos.principal
  {
    MulLe(shares, pos.shares, pos.principal);
    FloorLe(pos.principal * shares, pos.shares, pos.principal);
  }

  /**
   * Every withdrawal of shares one holds is paid: the token account covers it, the
   * subtraction never saturates and the value is the exact floor.
   */
  lemma WithdrawCovered(p: Pool, u: nat, shares: nat, now: int)
    requires Inv(p) && u < |p.positions| && 0 < shares <= p.positions[u].shares
    ensures Withdraw(p, u, shares, now).Ok?
    ensures var (q, out) := Withdraw(p, u, shares, now).value;
      && out.gross == shares * p.index / RAY
      && out.net <= p.assets && q.assets == p.assets - out.net && q.tokens == p.tokens - out.net
      && q.shares >= MINIMUM_LIQUIDITY
  {
    HeldCovers(p, u);
    PayoutWithinAssets(p, shares);
    PortionWithinPrincipal(p.positions[u], shares);
    hide AssetsForShares, EarlyExitPenalty, PrincipalPortion, ApplyAccrual, Solvent;
    assert Withdraw(p, u, shares, now).Ok?;
  }

  lemma WithdrawKeeps(p: Pool, u: nat, shares: nat, now: int)
    requires Inv(p) && u < |p.positions| && Withdraw(p, u, shares, now).Ok?
    ensures var q := Withdraw(p, u, shares, now).value.0; Inv(q) && p.index <= q.index
  {
    var (q, out) := Withdraw(p, u, shares, now).value;
    WithdrawCovered(p, u, shares, now);
    HeldCovers(p, u);
    PayoutWithinAssets(p, shares);
    hide AssetsForShares, EarlyExitPenalty, PrincipalPortion;
    WithdrawBacking(p.assets, p.shares, p.index, shares, out.gross, out.penalty);
    AccrualRounding(p.index, q.shares, out.penalty);
    hide ApplyAccrual;
    TotalPoint(Held(p.positions), Held(q.positions), u, 0 - shares);
    assert q.shares * q.index == q.index * q.shares;
  }

  lemma AccrueKeeps(p: Pool, amount: nat, paused: bool, cosigner: bool, treasury: nat)
    requires Inv(p) && Accrue(p, amount, paused, cosigner, treasury).Ok?
    ensures var q := Accrue(p, amount, paused, cosigner, treasury).value; Inv(q) && p.index <= q.index
  {
    var q := Accrue(p, amount, paused, cosigner, treasury).value;
    AccrualRounding(p.index, p.shares, amount);
    hide ApplyAccrual;
    assert q.shares * q.index == q.index * q.shares && p.shares * p.index == p.index * p.shares;
    assert q.assets * RAY == p.assets * RAY + amount * RAY;
  }

  // ------------------------------------------------------------ whole runs

  lemma StepKeeps(p: Pool, i: Instruction)
    requires Inv(p)
    ensures Inv(Step(p, i)) && p.index <= Step(p, i).index
  {
    hide Inv, SharesForDeposit, AssetsForShares, ApplyAccrual, PayoutFor;
    match i {
      case DepositI(u, amount, now, wallet) =>
        if u < |p.positions| && Deposit(p, u, amount, now, wallet).Ok? { DepositKeeps(p, u, amount, now, wallet); }
      case WithdrawI(u, shares, now) =>
        if u < |p.positions| && Withdraw(p, u, shares, now).Ok? { WithdrawKeeps(p, u, shares, now); }
      case AccrueI(amount, paused, cosigner, treasury) =>
        if Accrue(p, amount, paused, cosigner, treasury).Ok? { AccrueKeeps(p, amount, paused, cosigner, treasury); }
      case DonateI(amount) => DonateKeeps(p, amount);
    }
  }

  lemma DonateKeeps(p: Pool, amount: nat)
    requires Inv(p)
    ensures Inv(Step(p, DonateI(amount)))
  {
  }

  /** Solvency holds over every run, and the index never falls. */
  lemma {:induction false} RunKeepsInv(p: Pool, run: seq<Instruction>)
    requires Inv(p)
    ensures Inv(Exec(p, run)) && p.index <= Exec(p, run).index
  {
    hide Inv, Step;
    if run != [] {
      RunKeepsInv(p, run[..|run| - 1]);
      StepKeeps(Exec(p, run[..|run| - 1]), run[|run| - 1]);
    }
  }

  /** Shares left alone are never worth less later, whatever everyone else does. */
  lemma HoldersNeverLose(p: Pool, run: seq<Instruction>, shares: nat)
    requires Inv(p)
    ensures shares * p.index / RAY <= shares * Exec(p, run).index / RAY
  {
    RunKeepsInv(p, run);
    MulLe(p.index, Exec(p, run).index, shares);
    FloorMonotone(shares * p.index, shares * Exec(p, run).index, RAY);
  }

  /** What each position is worth at an index. */
  function Values(ps: seq<Position>, index: nat): seq<int> {
    seq(|ps|, i requires 0 <= i < |ps| => ps[i].shares * index / RAY)
  }

  lemma {:induction false} FloorsWithinWhole(ps: seq<Position>, index: nat)
    ensures 0 <= Total(Held(ps)) && 0 <= Total(Values(ps, index))
    ensures Total(Values(ps, index)) * RAY <= Total(Held(ps)) * index
  {
    if ps != [] {
      var n := |ps| - 1;
      FloorsWithinWhole(ps[..n], index);
      assert Held(ps)[..n] == Held(ps[..n]);
      assert Values(ps, index)[..n] == Values(ps[..n], index);
      FloorBounds(ps[n].shares * index, RAY);
      assert Total(Held(ps)) * index == Total(Held(ps[..n])) * index + ps[n].shares * index;
    }
  }

  /** Everyone could be paid at once, in full, from the pool's tokens. */
  lemma AllPositionsCovered(p: Pool, run: seq<Instruction>)
    requires Inv(p)
    ensures var q := Exec(p, run); Total(Values(q.positions, q.index)) <= q.assets <= q.tokens
  {
    var q := Exec(p, run);
    RunKeepsInv(p, run);
    FloorsWithinWhole(q.positions, q.index);
    MulLe(Total(Held(q.positions)), q.shares, q.index);
    CancelLe(Total(Values(q.positions, q.index)), q.assets, RAY);
  }

  // ------------------------------------------------------------ recorded principal

  /** What a position claims of the assets: its worth, or its principal less one unit, if that is more. */
  function Claim(pos: Position, index: nat): int {
    var worth, principal := pos.shares * index, (pos.principal - 1) * RAY;
    if worth < principal then principal else worth
  }

  function Claims(ps: seq<Position>, index: nat): seq<int> {
    seq(|ps|, i requires 0 <= i < |ps| => Claim(ps[i], index))
  }

  /**
   * Principal is reduced by a floor at each withdrawal, so it can outgrow a position's worth; yet
   * the claims of all positions together stay a unit below the assets.
   */
  predicate PrincipalBacked(p: Pool) {
    if p.shares == 0 then
      && p.index == RAY
      && forall i | 0 <= i < |p.positions| :: p.positions[i].shares == 0 && p.positions[i].principal == 0
    else Total(Claims(p.positions, p.index)) + RAY <= p.assets * RAY
  }

  /** The exact payout and the floored principal portion: a claim falls by what is paid, at least. */
  lemma ClaimFalls(pos: Position, shares: nat, index: nat, gross: nat)
    requires 0 < shares <= pos.shares && gross * RAY <= shares * index
    ensures PrincipalPortion(pos, shares) <= pos.principal
    ensures var left := Position(pos.shares - shares, pos.principal - PrincipalPortion(pos, shares), pos.maturesAt);
      Claim(left, index) + gross * RAY <= Claim(pos, index)
  {
    var q, n, held := PrincipalPortion(pos, shares), pos.principal, pos.shares;
    PortionWithinPrincipal(pos, shares);
    assert (held - shares) * index + shares * index == held * index;
    if q >= gross {
      MulLe(n - q - 1 + gross, n - 1, RAY);
    } else {
      PortionAtLeast(pos, shares);
      WorthCoversPrincipal(n, held, shares, q, gross, index);
    }
    assert (n - q - 1 + gross) * RAY == (n - q - 1) * RAY + gross * RAY;
    hide PrincipalPortion;
  }

  lemma PortionAtLeast(pos: Position, shares: nat)
    requires 0 < shares <= pos.shares
    ensures pos.principal * shares < (PrincipalPortion(pos, shares) + 1) * pos.shares
  {
    FloorBounds(pos.principal * shares, pos.shares);
    assert (pos.principal + 1) * pos.shares == pos.principal * pos.shares + pos.shares;
    assert (PrincipalPortion(pos, shares) + 1) * pos.shares == PrincipalPortion(pos, shares) * pos.shares + pos.shares;
  }

  lemma WorthCoversPrincipal(n: nat, held: nat, shares: nat, q: nat, gross: nat, index: nat)
    requires 0 < shares <= held && q + 1 <= gross && gross * RAY <= shares * index
    requires n * shares < (q + 1) * held
    ensures (n - q - 1 + gross) * RAY <= held * index
  {
    var left: nat := held - shares;
    assert (n - q - 1) * shares == n * shares - (q + 1) * shares;
    assert (q + 1) * held == (q + 1) * left + (q + 1) * shares;
    MulLe(q + 1, gross, left);
    assert (n - q - 1 + gross) * shares == (n - q - 1) * shares + gross * shares;
    assert gross * held == gross * left + gross * shares;
    MulLe((n - q - 1 + gross) * shares, gross * held, RAY);
    MulLe(gross * RAY, shares * index, held);
    assert ((n - q - 1 + gross) * RAY) * shares == ((n - q - 1 + gross) * shares) * RAY;
    assert (gross * held) * RAY == (gross * RAY) * held;
    assert (shares * index) * held == (held * index) * shares;
    CancelLe((n - q - 1 + gross) * RAY, held * index, shares);
  }

  lemma {:induction false} ClaimsLift(ps: seq<Position>, index: nat, lift: nat)
    ensures Total(Claims(ps, index + lift)) <= Total(Claims(ps, index)) + Total(Held(ps)) * lift
    decreases |ps|
  {
    if ps != [] {
      var n := |ps| - 1;
      ClaimsLift(ps[..n], index, lift);
      assert Claims(ps, index + lift)[..n] == Claims(ps[..n], index + lift);
      assert Claims(ps, index)[..n] == Claims(ps[..n], index);
      assert Held(ps)[..n] == Held(ps[..n]);
      assert ps[n].shares * (index + lift) == ps[n].shares * index + ps[n].shares * lift;
      assert Total(Held(ps)) * lift == Total(Held(ps[..n])) * lift + ps[n].shares * lift;
    }
  }

  lemma DepositKeepsPrincipal(p: Pool, u: nat, amount: nat, now: int, wallet: nat)
    requires Inv(p) && PrincipalBacked(p) && u < |p.positions| && Deposit(p, u, amount, now, wallet).Ok?
    ensures PrincipalBacked(Deposit(p, u, amount, now, wallet).value.0)
  {
    var (q, minted) := Deposit(p, u, amount, now, wallet).value;
    var pos, later := p.positions[u], q.positions[u];
    DepositRounding(amount, p.index);
    var shares := SharesForDeposit(amount, p.index);
    hide SharesForDeposit;
    var rise := Claim(later, p.index) - Claim(pos, p.index);
    assert later.shares * p.index == pos.shares * p.index + minted * p.index;
    assert (later.principal - 1) * RAY == (pos.principal - 1) * RAY + amount * RAY;
    assert shares * p.index == minted * p.index + (shares - minted) * p.index;
    if p.shares == 0 {
      AllZero(Claims(p.positions, p.index));
      MulLe(RAY, p.index, MINIMUM_LIQUIDITY);
      assert rise + RAY <= amount * RAY;
    } else {
      assert rise <= amount * RAY;
    }
    assert q.assets * RAY == p.assets * RAY + amount * RAY;
    hide Claim, Deposit;
    TotalPoint(Claims(p.positions, p.index), Claims(q.positions, p.index), u, rise);
  }

  lemma WithdrawKeepsPrincipal(p: Pool, u: nat, shares: nat, now: int)
    requires Inv(p) && PrincipalBacked(p) && u < |p.positions| && Withdraw(p, u, shares, now).Ok?
    ensures PrincipalBacked(Withdraw(p, u, shares, now).value.0)
  {
    var (q, out) := Withdraw(p, u, shares, now).value;
    var pos := p.positions[u];
    WithdrawKeeps(p, u, shares, now);
    WithdrawCovered(p, u, shares, now);
    HeldCovers(p, u);
    PayoutWithinAssets(p, shares);
    hide AssetsForShares, EarlyExitPenalty, ApplyAccrual, Solvent;
    ClaimFalls(pos, shares, p.index, out.gross);
    var fall := Claim(q.positions[u], p.index) - Claim(pos, p.index);
    assert fall + out.gross * RAY <= 0;
    hide Claim, PrincipalPortion;
    TotalPoint(Claims(p.positions, p.index), Claims(q.positions, p.index), u, fall);
    assert q.assets * RAY == p.assets * RAY - out.gross * RAY + out.penalty * RAY;
    hide Withdraw, PayoutFor, Claims;
    PenaltyLifts(q, p.index, out.penalty);
  }

  lemma PenaltyLifts(q: Pool, index: nat, gain: nat)
    requires Inv(q) && q.shares > 0 && q.index == ApplyAccrual(index, q.shares, gain)
    ensures Total(Claims(q.positions, q.index)) <= Total(Claims(q.positions, index)) + gain * RAY
  {
    AccrualRounding(index, q.shares, gain);
    var lift: nat := q.index - index;
    ClaimsLift(q.positions, index, lift);
    MulLe(Total(Held(q.positions)), q.shares, lift);
    assert q.index * q.shares == index * q.shares + lift * q.shares;
    hide ApplyAccrual, Claims, Held;
  }

  lemma AccrueKeepsPrincipal(p: Pool, amount: nat, paused: bool, cosigner: bool, treasury: nat)
    requires Inv(p) && PrincipalBacked(p) && Accrue(p, amount, paused, cosigner, treasury).Ok?
    ensures PrincipalBacked(Accrue(p, amount, paused, cosigner, treasury).value)
  {
    var q := Accrue(p, amount, paused, cosigner, treasury).value;
    AccrueKeeps(p, amount, paused, cosigner, treasury);
    hide Claims, ApplyAccrual, Solvent;
    PenaltyLifts(q, p.index, amount);
    assert q.assets * RAY == p.assets * RAY + amount * RAY;
  }

  lemma StepKeepsPrincipal(p: Pool, i: Instruction)
    requires Inv(p) && PrincipalBacked(p)
    ensures PrincipalBacked(Step(p, i))
  {
    hide Inv, SharesForDeposit, AssetsForShares, ApplyAccrual, PayoutFor;
    match i {
      case DepositI(u, amount, now, wallet) =>
        hide PrincipalBacked;
        if u < |p.positions| && Deposit(p, u, amount, now, wallet).Ok? { DepositKeepsPrincipal(p, u, amount, now, wallet); }
      case WithdrawI(u, shares, now) =>
        hide PrincipalBacked;
        if u < |p.positions| && Withdraw(p, u, shares, now).Ok? { WithdrawKeepsPrincipal(p, u, shares, now); }
      case AccrueI(amount, paused, cosigner, treasury) =>
        hide PrincipalBacked;
        if Accrue(p, amount, paused, cosigner, treasury).Ok? { AccrueKeepsPrincipal(p, amount, paused, cosigner, treasury); }
      case DonateI(amount) =>
    }
  }

  lemma {:induction false} RunKeepsPrincipal(p: Pool, run: seq<Instruction>)
    requires Inv(p) && PrincipalBacked(p)
    ensures PrincipalBacked(Exec(p, run))
  {
    if run != [] {
      RunKeepsPrincipal(p, run[..|run| - 1]);
      RunKeepsInv(p, run[..|run| - 1]);
      hide Inv, Step, PrincipalBacked;
      StepKeepsPrincipal(Exec(p, run[..|run| - 1]), run[|run| - 1]);
    }
  }

  /** No principal ever exceeds the assets. */
  lemma PrincipalWithinAssets(p: Pool, u: nat)
    requires Inv(p) && PrincipalBacked(p) && u < |p.positions|
    ensures p.positions[u].principal <= p.assets
  {
    if p.shares > 0 {
      forall i | 0 <= i < |p.positions| ensures 0 <= Claims(p.positions, p.index)[i] {
      }
      TotalCovers(Claims(p.positions, p.index), u);
      CancelLe(p.positions[u].principal, p.assets, RAY);
    }
  }

  /**
   * So from a fresh pool the 64-bit principal sum of a deposit never overflows: whatever the run,
   * a deposit the token accounts can make is not refused for it.
   */
  lemma DepositNeverOverflows(p: Pool, run: seq<Instruction>, u: nat, amount: nat, now: int, wallet: nat)
    requires Fresh(p) && u < |p.positions|
    ensures Exec(p, run).positions[u].principal <= Exec(p, run).assets
    ensures Deposit(Exec(p, run), u, amount, now, wallet) != Err(Overflow)
  {
    FreshInv(p);
    RunKeepsInv(p, run);
    RunKeepsPrincipal(p, run);
    PrincipalWithinAssets(Exec(p, run), u);
    hide Exec, Claims, SharesForDeposit;
  }

  /**
   * Every product and sum the handlers form about user `u` depositing or accruing `amount` or
   * withdrawing `shares` at penalty `penalty`, within the width the program gives it.
   */
  predicate Fits(p: Pool, u: nat, amount: nat, shares: nat, penalty: nat)
    requires u < |p.positions| && shares <= p.shares
  {
    && amount * RAY <= U128
    && shares * p.index <= U128
    && p.positions[u].principal * shares <= U128
    && p.shares + SharesForDeposit(amount, p.index) <= U128
    && p.positions[u].shares + SharesForDeposit(amount, p.index) <= U128
    && (p.tokens + amount <= U64 ==> p.assets + amount <= U64 && p.positions[u].principal + amount <= U64)
    && (p.shares > 0 && p.tokens + amount <= U64 ==> ApplyAccrual(p.index, p.shares, amount) <= U128)
    && ApplyAccrual(p.index, p.shares - shares, penalty) <= U128 && penalty * RAY <= U128
  }

  /** No 128-bit product and no 64-bit total of a pool reachable from a fresh one can overflow. */
  lemma NothingOverflows(p: Pool, run: seq<Instruction>, u: nat, amount: nat, shares: nat, now: int)
    requires Fresh(p) && u < |p.positions| && amount <= U64
    requires shares <= Exec(p, run).positions[u].shares
    ensures shares <= Exec(p, run).shares
    ensures Fits(Exec(p, run), u, amount, shares, PayoutFor(Exec(p, run), u, shares, now).penalty)
  {
    var q := Exec(p, run);
    FreshInv(p);
    RunKeepsInv(p, run);
    RunKeepsPrincipal(p, run);
    PrincipalWithinAssets(q, u);
    HeldCovers(q, u);
    SharesWithinAssets(q);
    MulLe(amount, U64, RAY);
    ValueFits(q, shares);
    PrincipalFits(q.positions[u].principal, shares);
    DepositFits(amount, q.index, q.shares);
    if q.shares > 0 && q.tokens + amount <= U64 {
      IndexFits(q, amount);
    }
    PenaltyFits(q, u, shares, now);
    assert U64 * RAY <= U128;
    hide SharesForDeposit, ApplyAccrual, Exec, PayoutFor, Fresh;
  }

  /** The index a withdrawal lifts, over the shares it leaves. */
  lemma PenaltyFits(p: Pool, u: nat, shares: nat, now: int)
    requires Inv(p) && PrincipalBacked(p) && u < |p.positions| && shares <= p.positions[u].shares && shares <= p.shares
    ensures ApplyAccrual(p.index, p.shares - shares, PayoutFor(p, u, shares, now).penalty) <= U128
    ensures PayoutFor(p, u, shares, now).penalty * RAY <= U128
  {
    var out := PayoutFor(p, u, shares, now);
    HeldCovers(p, u);
    PayoutWithinAssets(p, shares);
    MulLe(out.penalty, U64, RAY);
    assert U64 * RAY <= U128;
    if p.shares > 0 {
      var left: nat := p.shares - shares;
      assert left > 0;
      WithdrawBacking(p.assets, p.shares, p.index, shares, out.gross, out.penalty);
      var i := ApplyAccrual(p.index, left, out.penalty);
      hide ApplyAccrual, PayoutFor, AssetsForShares;
      MulLe(1, left, i);
      MulLe(p.assets - (out.gross - out.penalty), U64, RAY);
    }
  }

  lemma ValueFits(p: Pool, shares: nat)
    requires Inv(p) && shares <= p.shares
    ensures shares * p.index <= U128
  {
    MulLe(shares, p.shares, p.index);
    MulLe(p.assets, U64, RAY);
    assert U64 * RAY <= U128;
  }

  lemma PrincipalFits(principal: nat, shares: nat)
    requires principal <= U64 && shares <= U64
    ensures principal * shares <= U128
  {
    MulLe(principal, U64, shares);
    MulLe(shares, U64, U64);
    assert U64 * U64 <= U128;
  }

  lemma DepositFits(amount: nat, index: nat, shares: nat)
    requires amount <= U64 && RAY <= index && shares <= U64
    ensures shares + SharesForDeposit(amount, index) <= U128
  {
    DepositRounding(amount, index);
    var minted := SharesForDeposit(amount, index);
    MulLe(RAY, index, minted);
    CancelLe(minted, amount, RAY);
  }

  lemma SharesWithinAssets(p: Pool)
    requires Inv(p)
    ensures p.shares <= p.assets
  {
    MulLe(RAY, p.index, p.shares);
    CancelLe(p.shares, p.assets, RAY);
  }

  lemma IndexFits(p: Pool, amount: nat)
    requires Inv(p) && p.shares > 0 && p.assets + amount <= U64
    ensures ApplyAccrual(p.index, p.shares, amount) <= U128
  {
    AccrualRounding(p.index, p.shares, amount);
    var i := ApplyAccrual(p.index, p.shares, amount);
    MulLe(1, p.shares, i);
    assert p.assets * RAY + amount * RAY == (p.assets + amount) * RAY;
    MulLe(p.assets + amount, U64, RAY);
    assert U64 * RAY <= U128;
  }

  // ------------------------------------------------------------ deposit and straight back

  /** What a deposit is worth the moment it is made, at index `index`. */
  function RoundTrip(assets: nat, index: nat): nat {
    SharesForDeposit(assets, index) * index / RAY
  }

  /**
   * A deposit never comes back larger. What rounding keeps is exactly the remainder of
   * the share division, in whole base units: less than index/RAY + 1.
   */
  lemma RoundTripLoss(assets: nat, index: nat)
    requires assets > 0 && index >= RAY
    ensures RoundTrip(assets, index) == assets - CeilDiv(assets * RAY % index, RAY)
    ensures CeilDiv(assets * RAY % index, RAY) <= CeilDiv(index - 1, RAY)
  {
    var r := assets * RAY % index;
    var kept := SharesForDeposit(assets, index) * index;
    assert kept == assets * RAY - r;
    var loss := CeilDiv(r, RAY);
    CeilBounds(r, RAY);
    FloorBounds(kept, RAY);
    CeilLe(r, RAY, assets);
    assert (assets - loss) * RAY == assets * RAY - loss * RAY;
    FloorGe(kept, RAY, assets - loss);
    FloorLeStrict(kept, RAY, assets - loss);
    CeilBounds(index - 1, RAY);
    CeilLe(r, RAY, CeilDiv(index - 1, RAY));
  }

  lemma FloorLeStrict(n: nat, d: nat, k: nat)
    requires d > 0 && n < k * d + d
    ensures n / d <= k
  {
    FloorBounds(n, d);
    assert (k + 1) * d == k * d + d;
    if n / d > k {
      MulLe(k + 1, n / d, d);
    }
  }

  /** The "at most one unit" of the unit test holds exactly when the remainder is at most one RAY. */
  lemma LosesAtMostOne(assets: nat, index: nat)
    requires assets > 0 && index >= RAY
    ensures assets - RoundTrip(assets, index) <= 1 <==> assets * RAY % index <= RAY
  {
    RoundTripLoss(assets, index);
    var r := assets * RAY % index;
    CeilBounds(r, RAY);
    if r <= RAY {
      CeilLe(r, RAY, 1);
    }
  }

  /** At three assets a share, five base units come back as three. */
  lemma LosesTwo()
    ensures RoundTrip(5, 3 * RAY) == 3
  {
  }
}
