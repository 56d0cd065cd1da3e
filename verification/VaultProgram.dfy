/** The vault program's handlers: the pool and the position they change in place. */
module VaultProgram {
  import opened Wrappers
  import opened Rounding
  import opened Sums
  import opened TermVault
  import opened VaultLaws

  class VaultPool {
    var totalAssets: nat
    var totalShares: nat
    var indexRay: nat
    var tokens: nat
    var positions: seq<Position>
    const termDays: nat

    function Now(): Pool
      reads this
    {
      Pool(totalAssets, totalShares, indexRay, tokens, termDays, positions)
    }

    constructor (users: nat, termDays: nat)
      ensures Inv(Now()) && Fresh(Now()) && |positions| == users && this.termDays == termDays
    {
      totalAssets, totalShares, indexRay, tokens := 0, 0, RAY, 0;
      positions := seq(users, _ => Position(0, 0, 0));
      this.termDays := termDays;
      new;
      FreshInv(Now());
    }

    method VaultDeposit(u: nat, amount: nat, now: int, wallet: nat) returns (r: Result<nat, Error>)
      requires Inv(Now()) && u < |positions| && amount <= U64
      modifies this
      ensures Inv(Now())
      ensures DepositLaw(old(Now()), u, amount, now, wallet, r, Now())
      ensures match Deposit(old(Now()), u, amount, now, wallet)
              case Ok(done) => r == Ok(done.1) && Now() == done.0
              case Err(e) => r == Err(e) && Now() == old(Now())
    {
      StepKeeps(Now(), DepositI(u, amount, now, wallet));
      DepositObeys(Now(), u, amount, now, wallet);
      hide Inv, SharesForDeposit, DepositLaw;
      if amount == 0 {
        return Err(ZeroAmount);
      }
      var first := totalShares == 0;
      var shares := SharesForDeposit(amount, indexRay);
      if shares == 0 {
        return Err(ZeroAmount);
      }
      var minted := shares;
      if first {
        if shares <= MINIMUM_LIQUIDITY {
          return Err(InsufficientFunds);
        }
        minted := shares - MINIMUM_LIQUIDITY;
      }
      if wallet < amount || tokens + amount > U64 {
        return Err(TransferFailed);
      }
      var position := positions[u];
      if position.principal + amount > U64 {
        return Err(Overflow);
      }
      tokens := tokens + amount;
      totalShares := totalShares + shares;
      totalAssets := totalAssets + amount;
      positions := positions[u := Position(position.shares + minted, position.principal + amount,
                                           now + termDays * SECONDS_PER_DAY)];
      r := Ok(minted);
    }

    method VaultWithdraw(u: nat, shares: nat, now: int) returns (r: Result<Payout, Error>)
      requires Inv(Now()) && u < |positions| && shares <= U64
      modifies this
      ensures Inv(Now())
      ensures WithdrawLaw(old(Now()), u, shares, now, r, Now())
      ensures match Withdraw(old(Now()), u, shares, now)
              case Ok(done) => r == Ok(done.1) && Now() == done.0
              case Err(e) => r == Err(e) && Now() == old(Now())
      ensures r.Ok? <==> 0 < shares <= old(positions)[u].shares
    {
      StepKeeps(Now(), WithdrawI(u, shares, now));
      WithdrawObeys(Now(), u, shares, now);
      hide WithdrawLaw;
      if shares == 0 {
        return Err(ZeroAmount);
      }
      if shares > positions[u].shares {
        return Err(InsufficientFunds);
      }
      WithdrawCovered(Now(), u, shares, now);
      hide Inv, AssetsForShares, EarlyExitPenalty, ApplyAccrual;
      var gross := AssetsForShares(shares, indexRay);
      var penalty := 0;
      if now < positions[u].maturesAt {
        penalty := EarlyExitPenalty(gross);
      }
      assert PayoutFor(Now(), u, shares, now) == Payout(gross, penalty, gross - penalty);
      var net := gross - penalty;
      var portion := PrincipalPortion(positions[u], shares);
      var left := totalShares - shares;
      indexRay := ApplyAccrual(indexRay, left, penalty);
      totalShares := left;
      totalAssets := SaturatingSub(totalAssets, net);
      positions := positions[u := positions[u].(shares := positions[u].shares - shares,
                                                principal := positions[u].principal - portion)];
      if net > 0 {
        tokens := tokens - net;
      }
      r := Ok(Payout(gross, penalty, net));
    }

    method VaultAccrue(amount: nat, paused: bool, cosigner: bool, treasury: nat) returns (r: Result<nat, Error>)
      requires Inv(Now()) && amount <= U64
      modifies this
      ensures Inv(Now())
      ensures AccrueLaw(old(Now()), amount, paused, cosigner, treasury, r, Now())
      ensures match Accrue(old(Now()), amount, paused, cosigner, treasury)
              case Ok(pool) => r == Ok(pool.index) && Now() == pool
              case Err(e) => r == Err(e) && Now() == old(Now())
    {
      StepKeeps(Now(), AccrueI(amount, paused, cosigner, treasury));
      AccrueObeys(Now(), amount, paused, cosigner, treasury);
      hide Inv, ApplyAccrual, AccrueLaw;
      if paused {
        return Err(Paused);
      }
      if !cosigner {
        return Err(NotCosigner);
      }
      if amount == 0 {
        return Err(ZeroAmount);
      }
      if totalShares == 0 {
        return Err(InsufficientFunds);
      }
      if treasury < amount || tokens + amount > U64 {
        return Err(TransferFailed);
      }
      tokens := tokens + amount;
      indexRay := ApplyAccrual(indexRay, totalShares, amount);
      totalAssets := totalAssets + amount;
      r := Ok(indexRay);
    }
  }
}
