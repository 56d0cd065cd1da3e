/** The pool program's handlers: the accounts they change in place, and every refusal in order. */
module PoolProgram {
  import opened Wrappers
  import opened Rounding
  import opened Sums
  import opened ConstantProductPool
  import opened PoolLaws

  class PoolAccounts {
    var scad: nat
    var sol: nat
    var lp: nat
    var locked: nat
    var holders: seq<nat>
    const feeBps: nat

    function Now(): Pool
      reads this
    {
      Pool(scad, sol, lp, locked, holders, feeBps)
    }

    constructor (users: nat, feeBps: nat)
      requires feeBps < 1_000
      ensures Inv(Now()) && lp == 0 && |holders| == users
    {
      scad, sol, lp, locked := 0, 0, 0, 0;
      holders := seq(users, _ => 0);
      this.feeBps := feeBps;
      new;
      assert forall k | 0 <= k < |holders| :: holders[k] <= 0;
      AllZero(holders);
    }

    method QuoteFirst(scadAmount: nat, solAmount: nat) returns (r: Result<AddQuote, Error>)
      requires lp == 0 && scadAmount <= U64 && solAmount <= U64
      ensures r == QuoteAdd(Now(), scadAmount, solAmount)
    {
      U64ProductFits(scadAmount, solAmount);
      var total := IntegerSqrt(scadAmount * solAmount);
      if total > U64 {
        return Err(MathOverflow);
      }
      if total <= MINIMUM_LIQUIDITY {
        return Err(InsufficientInitialLiquidity);
      }
      r := Ok(AddQuote(scadAmount, solAmount, total - MINIMUM_LIQUIDITY, MINIMUM_LIQUIDITY));
    }

    method QuoteProportional(scadAmount: nat, solAmount: nat) returns (r: Result<AddQuote, Error>)
      requires Inv(Now()) && lp > 0 && scadAmount <= U64 && solAmount <= U64
      ensures r == QuoteAdd(Now(), scadAmount, solAmount)
    {
      SharesForFits(scadAmount, lp, scad);
      SharesForFits(solAmount, lp, sol);
      hide SharesFor, NeedFor, Inv;
      var lpFromScad := scadAmount * lp / scad;
      var lpFromSol := solAmount * lp / sol;
      var minted := if lpFromScad <= lpFromSol then lpFromScad else lpFromSol;
      var scadIn := NeedFor(minted, scad, lp);
      if scadIn.Err? {
        return Err(scadIn.error);
      }
      var solIn := NeedFor(minted, sol, lp);
      if solIn.Err? {
        return Err(solIn.error);
      }
      if minted > U64 {
        return Err(MathOverflow);
      }
      r := Ok(AddQuote(scadIn.value, solIn.value, minted, 0));
    }

    method AddLiquidity(u: nat, scadAmount: nat, solAmount: nat, minLp: nat, w: Wallet)
      returns (r: Result<Receipt, Error>)
      requires Inv(Now()) && u < |holders| && scadAmount <= U64 && solAmount <= U64
      modifies this
      ensures Inv(Now())
      ensures AddLaw(old(Now()), u, scadAmount, solAmount, minLp, w, r, Now())
      ensures match Add(old(Now()), u, scadAmount, solAmount, minLp, w)
              case Ok(done) => r == Ok(done.1) && Now() == done.0
              case Err(e) => r == Err(e) && Now() == old(Now())
    {
      AddObeys(Now(), u, scadAmount, solAmount, minLp, w);
      hide QuoteAdd, AddLaw;
      StepKeeps(Now(), AddI(u, scadAmount, solAmount, minLp, w));
      if scadAmount == 0 || solAmount == 0 {
        return Err(ZeroAmount);
      }
      var quote;
      if lp == 0 {
        quote := QuoteFirst(scadAmount, solAmount);
      } else {
        quote := QuoteProportional(scadAmount, solAmount);
      }
      if quote.Err? {
        return Err(quote.error);
      }
      var q := quote.value;
      if q.lpOut < minLp || q.lpOut == 0 {
        return Err(SlippageExceeded);
      }
      if w.scad < q.scadIn || scad + q.scadIn > U64 {
        return Err(TransferFailed);
      }
      if w.sol < q.solIn || sol + q.solIn > U64 {
        return Err(TransferFailed);
      }
      if lp + q.lpOut + q.lpLocked > U64 {
        return Err(TransferFailed);
      }
      scad, sol := scad + q.scadIn, sol + q.solIn;
      lp, holders := lp + q.lpOut, holders[u := holders[u] + q.lpOut];
      if q.lpLocked > 0 {
        lp, locked := lp + q.lpLocked, locked + q.lpLocked;
      }
      r := Ok(Receipt(q.scadIn, q.solIn, q.lpOut));
    }

    method RemoveLiquidity(u: nat, lpAmount: nat, minScad: nat, minSol: nat) returns (r: Result<Receipt, Error>)
      requires Inv(Now()) && u < |holders| && lpAmount <= U64
      modifies this
      ensures Inv(Now())
      ensures RemoveLaw(old(Now()), u, lpAmount, minScad, minSol, r, Now())
      ensures match Remove(old(Now()), u, lpAmount, minScad, minSol)
              case Ok(done) => r == Ok(done.1) && Now() == done.0
              case Err(e) => r == Err(e) && Now() == old(Now())
    {
      RemoveObeys(Now(), u, lpAmount, minScad, minSol);
      hide RemoveLaw;
      StepKeeps(Now(), RemoveI(u, lpAmount, minScad, minSol));
      if lpAmount == 0 {
        return Err(ZeroAmount);
      }
      if lp == 0 {
        return Err(EmptyPool);
      }
      U64ProductFits(lpAmount, scad);
      U64ProductFits(lpAmount, sol);
      var scadOut := lpAmount * scad / lp;
      var solOut := lpAmount * sol / lp;
      if scadOut > U64 || solOut > U64 {
        return Err(MathOverflow);
      }
      if scadOut < minScad || solOut < minSol {
        return Err(SlippageExceeded);
      }
      if holders[u] < lpAmount || lp < lpAmount || scad < scadOut || sol < solOut {
        return Err(TransferFailed);
      }
      lp, holders := lp - lpAmount, holders[u := holders[u] - lpAmount];
      scad, sol := scad - scadOut, sol - solOut;
      r := Ok(Receipt(scadOut, solOut, lpAmount));
    }

    method SwapExact(solToScad: bool, amountIn: nat, minOut: nat, w: Wallet) returns (r: Result<nat, Error>)
      requires Inv(Now()) && amountIn <= U64
      modifies this
      ensures Inv(Now())
      ensures SwapLaw(old(Now()), solToScad, amountIn, minOut, w, r, Now())
      ensures match Swap(old(Now()), solToScad, amountIn, minOut, w)
              case Ok(done) => r == Ok(done.1) && Now() == done.0
              case Err(e) => r == Err(e) && Now() == old(Now())
    {
      SwapObeys(Now(), solToScad, amountIn, minOut, w);
      hide SwapLaw;
      StepKeeps(Now(), SwapI(solToScad, amountIn, minOut, w));
      if amountIn == 0 {
        return Err(ZeroAmount);
      }
      if scad == 0 || sol == 0 {
        return Err(EmptyPool);
      }
      var rIn, rOut := scad, sol;
      if solToScad {
        rIn, rOut := sol, scad;
      }
      CpmmKeepsProduct(amountIn, rIn, rOut, feeBps);
      var inAfterFee := amountIn * (BPS - feeBps) / BPS;
      var out := inAfterFee * rOut / (rIn + inAfterFee);
      if out < minOut || out == 0 {
        return Err(SlippageExceeded);
      }
      if (if solToScad then w.sol else w.scad) < amountIn || rIn + amountIn > U64 || rOut < out {
        return Err(TransferFailed);
      }
      if solToScad {
        sol := sol + amountIn;
        scad := scad - out;
      } else {
        scad := scad + amountIn;
        sol := sol - out;
      }
      r := Ok(out);
    }
  }
}
