/**
 * What each instruction of the pool does, said without its formulas: every amount is the one its
 * bounds leave, every account that does not move is named, and every refusal has its cause.
 */
module PoolLaws {
  import opened Wrappers
  import opened Rounding
  import Sums
  import opened ConstantProductPool

  // ---- Swap -----------------------------------------------------------------------------

  /** The fee is taken off the input first, then the curve pays; both round down. */
  ghost predicate Quoted(amountIn: nat, feeBps: nat, rIn: nat, rOut: nat, out: nat)
    requires feeBps <= BPS
  {
    exists x: nat :: RoundsDown(amountIn * (10_000 - feeBps), 10_000, x) && RoundsDown(x * rOut, rIn + x, out)
  }

  lemma CpmmOutQuoted(amountIn: nat, rIn: nat, rOut: nat, feeBps: nat)
    requires amountIn <= U64 && 0 < rIn <= U64 && 0 < rOut <= U64 && feeBps < 1_000
    ensures CpmmOut(amountIn, rIn, rOut, feeBps).Ok?
    ensures Quoted(amountIn, feeBps, rIn, rOut, CpmmOut(amountIn, rIn, rOut, feeBps).value)
  {
    CpmmKeepsProduct(amountIn, rIn, rOut, feeBps);
    var x := amountIn * (BPS - feeBps) / BPS;
    DownIsFloor(amountIn * (BPS - feeBps), BPS);
    DownIsFloor(x * rOut, rIn + x);
  }

  /** Only one amount fits. */
  lemma QuotedOnce(amountIn: nat, feeBps: nat, rIn: nat, rOut: nat, a: nat, b: nat)
    requires feeBps <= BPS && rIn > 0 && Quoted(amountIn, feeBps, rIn, rOut, a) && Quoted(amountIn, feeBps, rIn, rOut, b)
    ensures a == b
  {
    var x: nat :| RoundsDown(amountIn * (BPS - feeBps), BPS, x) && RoundsDown(x * rOut, rIn + x, a);
    var y: nat :| RoundsDown(amountIn * (BPS - feeBps), BPS, y) && RoundsDown(y * rOut, rIn + y, b);
    DownOnce(amountIn * (BPS - feeBps), BPS, x, y);
    DownOnce(x * rOut, rIn + x, a, b);
  }

  ghost predicate QuotedBelow(amountIn: nat, feeBps: nat, rIn: nat, rOut: nat, minOut: nat)
    requires feeBps <= BPS
  {
    exists out: nat :: Quoted(amountIn, feeBps, rIn, rOut, out) && (out < minOut || out == 0)
  }

  ghost predicate SwapLaw(p: Pool, solToScad: bool, amountIn: nat, minOut: nat, w: Wallet, r: Result<nat, Error>, q: Pool)
    requires p.feeBps <= BPS
  {
    var rIn, rOut := if solToScad then p.sol else p.scad, if solToScad then p.scad else p.sol;
    match r
    case Ok(out) =>
      && Quoted(amountIn, p.feeBps, rIn, rOut, out) && 0 < amountIn && 0 < out && minOut <= out
      && amountIn <= (if solToScad then w.sol else w.scad)
      && p == q.(scad := p.scad, sol := p.sol)
      && (if solToScad then q.sol == p.sol + amountIn && q.scad + out == p.scad
          else q.scad == p.scad + amountIn && q.sol + out == p.sol)
    case Err(e) =>
      && q == p
      && match e
         case ZeroAmount => amountIn == 0
         case EmptyPool => p.scad == 0 || p.sol == 0
         case SlippageExceeded => QuotedBelow(amountIn, p.feeBps, rIn, rOut, minOut)
         case TransferFailed => (if solToScad then w.sol else w.scad) < amountIn || rIn + amountIn > U64
         case _ => false
  }

  /** What `Swap` answers, and the pool it leaves. */
  lemma SwapObeys(p: Pool, solToScad: bool, amountIn: nat, minOut: nat, w: Wallet)
    requires Inv(p) && amountIn <= U64
    ensures match Swap(p, solToScad, amountIn, minOut, w)
            case Ok(done) => SwapLaw(p, solToScad, amountIn, minOut, w, Ok(done.1), done.0)
            case Err(e) => SwapLaw(p, solToScad, amountIn, minOut, w, Err(e), p)
  {
    var rIn, rOut := if solToScad then p.sol else p.scad, if solToScad then p.scad else p.sol;
    if 0 < p.scad && 0 < p.sol {
      CpmmKeepsProduct(amountIn, rIn, rOut, p.feeBps);
      CpmmOutQuoted(amountIn, rIn, rOut, p.feeBps);
      var out := CpmmOut(amountIn, rIn, rOut, p.feeBps).value;
      assert out < minOut || out == 0 ==> QuotedBelow(amountIn, p.feeBps, rIn, rOut, minOut);
      hide CpmmOut, Quoted, QuotedBelow, Inv;
      SwapObeysQuote(p, solToScad, amountIn, minOut, w, out);
    }
  }

  lemma SwapObeysQuote(p: Pool, solToScad: bool, amountIn: nat, minOut: nat, w: Wallet, out: nat)
    requires p.feeBps <= BPS && 0 < p.scad && 0 < p.sol
    requires var rIn, rOut := if solToScad then p.sol else p.scad, if solToScad then p.scad else p.sol;
      && CpmmOut(amountIn, rIn, rOut, p.feeBps) == Ok(out) && out < rOut
      && Quoted(amountIn, p.feeBps, rIn, rOut, out)
      && (out < minOut || out == 0 ==> QuotedBelow(amountIn, p.feeBps, rIn, rOut, minOut))
    ensures match Swap(p, solToScad, amountIn, minOut, w)
            case Ok(done) => SwapLaw(p, solToScad, amountIn, minOut, w, Ok(done.1), done.0)
            case Err(e) => SwapLaw(p, solToScad, amountIn, minOut, w, Err(e), p)
  {
    hide CpmmOut, Quoted, QuotedBelow;
  }

  // ---- Add ------------------------------------------------------------------------------

  /** The most shares both offers pay for. */
  ghost predicate MostShares(p: Pool, scad: nat, sol: nat, lp: nat) {
    && lp * p.scad <= scad * p.lp && lp * p.sol <= sol * p.lp
    && (scad * p.lp < (lp + 1) * p.scad || sol * p.lp < (lp + 1) * p.sol)
  }

  lemma EntitledIsMost(p: Pool, scad: nat, sol: nat)
    requires p.scad > 0 && p.sol > 0
    ensures MostShares(p, scad, sol, Entitled(p, scad, sol))
  {
    var a, b, lp := scad * p.lp / p.scad, sol * p.lp / p.sol, Entitled(p, scad, sol);
    FloorBounds(scad * p.lp, p.scad);
    FloorBounds(sol * p.lp, p.sol);
    MulLe(lp, a, p.scad);
    MulLe(lp, b, p.sol);
    assert (a + 1) * p.scad == a * p.scad + p.scad && (b + 1) * p.sol == b * p.sol + p.sol;
  }

  /** What an add pulls in and mints: the first one everything it is offered, a later one no more than its shares cost. */
  ghost predicate AddMoves(p: Pool, scad: nat, sol: nat, rec: Receipt, locked: nat) {
    if p.lp == 0 then
      && rec.scad == scad && rec.sol == sol && locked == 1_000 && IsSqrt(scad * sol, locked + rec.lp)
    else
      && locked == 0 && MostShares(p, scad, sol, rec.lp)
      && RoundsUp(rec.lp * p.scad, p.lp, rec.scad) && RoundsUp(rec.lp * p.sol, p.lp, rec.sol)
  }

  ghost predicate AddLaw(p: Pool, u: nat, scad: nat, sol: nat, minLp: nat, w: Wallet, r: Result<Receipt, Error>, q: Pool)
    requires u < |p.holders|
  {
    match r
    case Ok(rec) =>
      exists locked ::
        && AddMoves(p, scad, sol, rec, locked) && 0 < rec.lp && minLp <= rec.lp
        && rec.scad <= scad && rec.sol <= sol && rec.scad <= w.scad && rec.sol <= w.sol
        && q == p.(scad := p.scad + rec.scad, sol := p.sol + rec.sol, lp := p.lp + locked + rec.lp,
                   locked := p.locked + locked, holders := p.holders[u := p.holders[u] + rec.lp])
    case Err(e) =>
      && q == p
      && match e
         case ZeroAmount => scad == 0 || sol == 0
         case InsufficientInitialLiquidity =>
           p.lp == 0 && scad * sol < 1_001 * 1_001
         case MathOverflow => p.lp > 0 && exists lp :: lp > U64 && MostShares(p, scad, sol, lp)
         case SlippageExceeded =>
           exists rec, locked :: AddMoves(p, scad, sol, rec, locked) && (rec.lp < minLp || rec.lp == 0)
         case TransferFailed =>
           exists rec, locked :: AddMoves(p, scad, sol, rec, locked) && Stuck(p, w, rec, locked)
         case _ => false
  }

  /** The caller does not have it, or an account or the supply would not fit 64 bits. */
  predicate Stuck(p: Pool, w: Wallet, rec: Receipt, locked: nat) {
    || w.scad < rec.scad || w.sol < rec.sol || p.scad + rec.scad > U64 || p.sol + rec.sol > U64
    || p.lp + rec.lp + locked > U64
  }

  lemma NeedForIsUp(lp: nat, reserve: nat, supply: nat)
    requires 0 < supply && NeedFor(lp, reserve, supply).Ok?
    ensures RoundsUp(lp * reserve, supply, NeedFor(lp, reserve, supply).value)
  {
    CeilBounds(lp * reserve, supply);
  }

  lemma QuoteMoves(p: Pool, scad: nat, sol: nat)
    requires Inv(p) && scad <= U64 && sol <= U64 && QuoteAdd(p, scad, sol).Ok?
    ensures var q := QuoteAdd(p, scad, sol).value;
      && AddMoves(p, scad, sol, Receipt(q.scadIn, q.solIn, q.lpOut), q.lpLocked)
      && q.scadIn <= scad && q.solIn <= sol
  {
    if p.lp == 0 {
      FirstSplitFits(scad, sol);
      hide FirstLpSplit;
    } else {
      QuoteAddFair(p, scad, sol);
      EntitledIsMost(p, scad, sol);
      var q := QuoteAdd(p, scad, sol).value;
      assert NeedFor(q.lpOut, p.scad, p.lp) == Ok(q.scadIn) && NeedFor(q.lpOut, p.sol, p.lp) == Ok(q.solIn);
      NeedForIsUp(q.lpOut, p.scad, p.lp);
      NeedForIsUp(q.lpOut, p.sol, p.lp);
    }
  }

  lemma QuoteRefused(p: Pool, scad: nat, sol: nat)
    requires Inv(p) && scad <= U64 && sol <= U64 && QuoteAdd(p, scad, sol).Err?
    ensures match QuoteAdd(p, scad, sol).error
            case InsufficientInitialLiquidity =>
              p.lp == 0 && scad * sol < 1_001 * 1_001
            case MathOverflow => p.lp > 0 && exists lp :: lp > U64 && MostShares(p, scad, sol, lp)
            case _ => false
  {
    if p.lp == 0 {
      FirstSplitFits(scad, sol);
      hide FirstLpSplit;
    } else {
      QuoteAddFair(p, scad, sol);
      EntitledIsMost(p, scad, sol);
    }
  }

  lemma AddObeys(p: Pool, u: nat, scad: nat, sol: nat, minLp: nat, w: Wallet)
    requires Inv(p) && u < |p.holders| && scad <= U64 && sol <= U64
    ensures match Add(p, u, scad, sol, minLp, w)
            case Ok(done) => AddLaw(p, u, scad, sol, minLp, w, Ok(done.1), done.0)
            case Err(e) => AddLaw(p, u, scad, sol, minLp, w, Err(e), p)
  {
    if scad > 0 && sol > 0 {
      if QuoteAdd(p, scad, sol).Ok? {
        QuoteMoves(p, scad, sol);
        var q := QuoteAdd(p, scad, sol).value;
        var rec := Receipt(q.scadIn, q.solIn, q.lpOut);
        assert AddMoves(p, scad, sol, rec, q.lpLocked);
        hide QuoteAdd, AddMoves;
        AddObeysQuote(p, u, scad, sol, minLp, w, q);
      } else {
        QuoteRefused(p, scad, sol);
        hide QuoteAdd, MostShares;
      }
    }
  }

  lemma AddObeysQuote(p: Pool, u: nat, scad: nat, sol: nat, minLp: nat, w: Wallet, quote: AddQuote)
    requires u < |p.holders| && scad > 0 && sol > 0 && QuoteAdd(p, scad, sol) == Ok(quote)
    requires AddMoves(p, scad, sol, Receipt(quote.scadIn, quote.solIn, quote.lpOut), quote.lpLocked)
    requires quote.scadIn <= scad && quote.solIn <= sol
    ensures match Add(p, u, scad, sol, minLp, w)
            case Ok(done) => AddLaw(p, u, scad, sol, minLp, w, Ok(done.1), done.0)
            case Err(e) => AddLaw(p, u, scad, sol, minLp, w, Err(e), p)
  {
    hide QuoteAdd, AddMoves;
    var rec := Receipt(quote.scadIn, quote.solIn, quote.lpOut);
    assert Stuck(p, w, rec, quote.lpLocked) || !Stuck(p, w, rec, quote.lpLocked);
  }

  // ---- Remove ---------------------------------------------------------------------------

  ghost predicate Pays(p: Pool, lp: nat, scadOut: nat, solOut: nat) {
    RoundsDown(lp * p.scad, p.lp, scadOut) && RoundsDown(lp * p.sol, p.lp, solOut)
  }

  ghost predicate RemoveLaw(p: Pool, u: nat, lp: nat, minScad: nat, minSol: nat, r: Result<Receipt, Error>, q: Pool)
    requires u < |p.holders|
  {
    match r
    case Ok(rec) =>
      && rec.lp == lp && 0 < lp <= p.holders[u] && lp <= p.lp && Pays(p, lp, rec.scad, rec.sol)
      && minScad <= rec.scad <= p.scad && minSol <= rec.sol <= p.sol
      && q == p.(scad := p.scad - rec.scad, sol := p.sol - rec.sol, lp := p.lp - lp,
                 holders := p.holders[u := p.holders[u] - lp])
    case Err(e) =>
      && q == p
      && match e
         case ZeroAmount => lp == 0
         case EmptyPool => p.lp == 0
         case MathOverflow => lp > p.lp
         case SlippageExceeded => exists a: nat, b: nat :: Pays(p, lp, a, b) && (a < minScad || b < minSol)
         case TransferFailed => p.holders[u] < lp
         case _ => false
  }

  /** The payout on one side. */
  lemma SidePays(lp: nat, reserve: nat, supply: nat) returns (out: nat)
    requires lp <= U64 && reserve <= U64 && 0 < supply <= U64
    ensures CheckedMul(lp, reserve) == Ok(lp * reserve) && lp * reserve / supply == out
    ensures RoundsDown(lp * reserve, supply, out) && (lp <= supply ==> out <= reserve)
  {
    U64ProductFits(lp, reserve);
    DownIsFloor(lp * reserve, supply);
    if lp <= supply {
      PayoutFits(reserve, supply, lp);
    }
    out := lp * reserve / supply;
  }

  lemma RemoveObeys(p: Pool, u: nat, lp: nat, minScad: nat, minSol: nat)
    requires Inv(p) && u < |p.holders| && lp <= U64
    ensures match Remove(p, u, lp, minScad, minSol)
            case Ok(done) => RemoveLaw(p, u, lp, minScad, minSol, Ok(done.1), done.0)
            case Err(e) => RemoveLaw(p, u, lp, minScad, minSol, Err(e), p)
  {
    if 0 < lp && 0 < p.lp {
      HolderWithin(p, u);
      hide Inv, CheckedMul, RoundsDown, Remove, RemoveLaw;
      var a := SidePays(lp, p.scad, p.lp);
      var b := SidePays(lp, p.sol, p.lp);
      RemoveObeysPayout(p, u, lp, minScad, minSol, a, b);
    }
  }

  lemma RemoveObeysPayout(p: Pool, u: nat, lp: nat, minScad: nat, minSol: nat, a: nat, b: nat)
    requires u < |p.holders| && 0 < lp && 0 < p.lp && p.holders[u] <= p.lp && Pays(p, lp, a, b)
    requires CheckedMul(lp, p.scad) == Ok(lp * p.scad) && CheckedMul(lp, p.sol) == Ok(lp * p.sol)
    requires lp * p.scad / p.lp == a && lp * p.sol / p.lp == b
    requires lp <= p.lp ==> a <= p.scad <= U64 && b <= p.sol <= U64
    ensures match Remove(p, u, lp, minScad, minSol)
            case Ok(done) => RemoveLaw(p, u, lp, minScad, minSol, Ok(done.1), done.0)
            case Err(e) => RemoveLaw(p, u, lp, minScad, minSol, Err(e), p)
  {
    hide Pays, CheckedMul;
  }

  lemma HolderWithin(p: Pool, u: nat)
    requires Inv(p) && u < |p.holders|
    ensures p.holders[u] <= p.lp && p.scad <= U64 && p.sol <= U64 && p.lp <= U64
  {
    Sums.TotalCovers(p.holders, u);
  }
}
