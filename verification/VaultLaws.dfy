/**
 * What each instruction of the vault does, said without its formulas: shares, payouts, penalties
 * and the index are the numbers their bounds leave, and every refusal has its cause.
 */
module VaultLaws {
  import opened Wrappers
  import opened Rounding
  import opened TermVault

  // ---- Accrual --------------------------------------------------------------------------

  /** `later` is worth `gain` more to `shares` shares together, less under one RAY unit a share. */
  predicate Lifts(index: nat, shares: nat, gain: nat, later: nat) {
    RoundsDown(index * shares + gain * RAY, shares, later)
  }

  lemma AccrualLifts(index: nat, shares: nat, gain: nat)
    requires shares > 0
    ensures Lifts(index, shares, gain, ApplyAccrual(index, shares, gain))
  {
    if gain > 0 {
      FloorBounds(gain * RAY, shares);
      assert (index + gain * RAY / shares) * shares == index * shares + (gain * RAY / shares) * shares;
    }
  }

  ghost predicate AccrueLaw(p: Pool, amount: nat, paused: bool, cosigner: bool, treasury: nat, r: Result<nat, Error>, q: Pool) {
    match r
    case Ok(index) =>
      && !paused && cosigner && 0 < amount <= treasury && 0 < p.shares && p.tokens + amount <= U64
      && Lifts(p.index, p.shares, amount, index)
      && q == p.(index := index, assets := p.assets + amount, tokens := p.tokens + amount)
    case Err(e) =>
      && q == p
      && match e
         case Paused => paused
         case NotCosigner => !cosigner
         case ZeroAmount => amount == 0
         case InsufficientFunds => p.shares == 0
         case TransferFailed => treasury < amount || p.tokens + amount > U64
         case _ => false
  }

  lemma AccrueObeys(p: Pool, amount: nat, paused: bool, cosigner: bool, treasury: nat)
    ensures match Accrue(p, amount, paused, cosigner, treasury)
            case Ok(q) => AccrueLaw(p, amount, paused, cosigner, treasury, Ok(q.index), q)
            case Err(e) => AccrueLaw(p, amount, paused, cosigner, treasury, Err(e), p)
  {
    if p.shares > 0 {
      AccrualLifts(p.index, p.shares, amount);
    }
    hide ApplyAccrual, Lifts;
  }

  // ---- Deposit --------------------------------------------------------------------------

  /** The shares an amount buys; the pool's first deposit locks some of them for good. */
  predicate Buys(p: Pool, amount: nat, minted: nat) {
    RoundsDown(amount * RAY, p.index, minted + Locks(p))
  }

  function Locks(p: Pool): nat {
    if p.shares == 0 then 1_000 else 0
  }

  ghost predicate DepositLaw(p: Pool, u: nat, amount: nat, now: int, wallet: nat, r: Result<nat, Error>, q: Pool)
    requires u < |p.positions|
  {
    var pos := p.positions[u];
    match r
    case Ok(minted) =>
      && 0 < amount <= wallet && 0 < minted && Buys(p, amount, minted)
      && q == p.(assets := p.assets + amount, tokens := p.tokens + amount, shares := p.shares + minted + Locks(p),
                 positions := p.positions[u := Position(pos.shares + minted, pos.principal + amount,
                                                        now + p.termDays * 86_400)])
    case Err(e) =>
      && q == p
      && match e
         case ZeroAmount => amount == 0 || amount * RAY < p.index
         case InsufficientFunds => p.shares == 0 && amount * RAY < 1_001 * p.index
         case TransferFailed => wallet < amount || p.tokens + amount > U64
         case Overflow => pos.principal + amount > U64
         case _ => false
  }

  lemma DepositObeys(p: Pool, u: nat, amount: nat, now: int, wallet: nat)
    requires Inv(p) && u < |p.positions|
    ensures match Deposit(p, u, amount, now, wallet)
            case Ok(done) => DepositLaw(p, u, amount, now, wallet, Ok(done.1), done.0)
            case Err(e) => DepositLaw(p, u, amount, now, wallet, Err(e), p)
  {
    var shares := SharesForDeposit(amount, p.index);
    DepositRounding(amount, p.index);
    if shares <= MINIMUM_LIQUIDITY {
      MulLe(shares + 1, MINIMUM_LIQUIDITY + 1, p.index);
      assert (shares + 1) * p.index == shares * p.index + p.index;
    }
    hide Inv, SharesForDeposit;
    assert shares == 0 && amount > 0 ==> amount * RAY < p.index;
    assert amount > 0 ==> RoundsDown(amount * RAY, p.index, shares);
    hide RoundsDown;
  }

  // ---- Withdraw -------------------------------------------------------------------------

  /** Shares at the index, a tenth off while the term runs. */
  ghost predicate Pays(p: Pool, pos: Position, shares: nat, now: int, out: Payout) {
    && RoundsDown(shares * p.index, RAY, out.gross)
    && (if now < pos.maturesAt then RoundsDown(out.gross, 10, out.penalty) else out.penalty == 0)
    && out.net + out.penalty == out.gross
  }

  /** The part of the principal that leaves with the shares. */
  predicate Releases(pos: Position, shares: nat, portion: nat) {
    if shares == pos.shares then portion == pos.principal
    else RoundsDown(pos.principal * shares, pos.shares, portion)
  }

  ghost predicate WithdrawLaw(p: Pool, u: nat, shares: nat, now: int, r: Result<Payout, Error>, q: Pool)
    requires u < |p.positions|
  {
    var pos := p.positions[u];
    match r
    case Ok(out) =>
      && 0 < shares <= pos.shares && shares < p.shares && out.net <= p.assets && out.net <= p.tokens
      && Pays(p, pos, shares, now, out) && Lifts(p.index, p.shares - shares, out.penalty, q.index)
      && exists portion: nat ::
           && Releases(pos, shares, portion) && portion <= pos.principal
           && q == p.(index := q.index, shares := p.shares - shares, assets := p.assets - out.net, tokens := p.tokens - out.net,
                      positions := p.positions[u := Position(pos.shares - shares, pos.principal - portion, pos.maturesAt)])
    case Err(e) =>
      && q == p
      && match e
         case ZeroAmount => shares == 0
         case InsufficientFunds => shares > pos.shares
         case _ => false
  }

  lemma PenaltyIsTenth(gross: nat)
    ensures RoundsDown(gross, 10, EarlyExitPenalty(gross))
  {
    FloorBounds(gross * EARLY_EXIT_PENALTY_BPS, 10_000);
  }

  lemma PortionReleases(pos: Position, shares: nat)
    requires 0 < shares <= pos.shares
    ensures Releases(pos, shares, PrincipalPortion(pos, shares)) && PrincipalPortion(pos, shares) <= pos.principal
  {
    PortionWithinPrincipal(pos, shares);
    FloorBounds(pos.principal * shares, pos.shares);
  }

  lemma PayoutPays(p: Pool, u: nat, shares: nat, now: int)
    requires Inv(p) && u < |p.positions| && shares <= p.shares
    ensures Pays(p, p.positions[u], shares, now, PayoutFor(p, u, shares, now))
  {
    PayoutWithinAssets(p, shares);
    FloorBounds(shares * p.index, RAY);
    PenaltyIsTenth(AssetsForShares(shares, p.index));
    hide Inv, AssetsForShares, EarlyExitPenalty;
  }

  lemma WithdrawObeys(p: Pool, u: nat, shares: nat, now: int)
    requires Inv(p) && u < |p.positions|
    ensures match Withdraw(p, u, shares, now)
            case Ok(done) => WithdrawLaw(p, u, shares, now, Ok(done.1), done.0)
            case Err(e) => WithdrawLaw(p, u, shares, now, Err(e), p)
  {
    if 0 < shares <= p.positions[u].shares {
      WithdrawCovered(p, u, shares, now);
      HeldCovers(p, u);
      PayoutPays(p, u, shares, now);
      PortionReleases(p.positions[u], shares);
      var (q, out) := Withdraw(p, u, shares, now).value;
      AccrualLifts(p.index, p.shares - shares, out.penalty);
      hide Inv, Pays, PayoutFor, Releases, PrincipalPortion, ApplyAccrual, Lifts, Solvent;
      assert Releases(p.positions[u], shares, PrincipalPortion(p.positions[u], shares));
    }
  }
}
