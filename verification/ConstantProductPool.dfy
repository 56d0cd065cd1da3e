/**
 * The SCAD/SOL pool: adds round the deposit up and the shares down, removals and swaps
 * round the payout down. The arithmetic is u64/u128 with the code's checked operations;
 * a division by zero would abort the program, so it is an error of its own here.
 */
module ConstantProductPool {
  import opened Wrappers
  import opened Rounding
  import opened Sums

  const BPS: nat := 10_000
  const MINIMUM_LIQUIDITY: nat := 1_000

  datatype Error =
    | MathOverflow | DivideByZero | InsufficientInitialLiquidity | ZeroAmount
    | SlippageExceeded | EmptyPool | TransferFailed

  /** `locked` are the dead shares in the pool's own account; `holders[u]` is user u's LP. */
  datatype Pool = Pool(scad: nat, sol: nat, lp: nat, locked: nat, holders: seq<nat>, feeBps: nat)

  datatype Wallet = Wallet(scad: nat, sol: nat)

  /** What an instruction moved: both sides and the shares, as in its event. */
  datatype Receipt = Receipt(scad: nat, sol: nat, lp: nat)

  // ------------------------------------------------------------ checked arithmetic

  function CheckedMul(a: nat, b: nat): Result<nat, Error> {
    if a * b <= U128 then Ok(a * b) else Err(MathOverflow)
  }

  function CheckedAdd(a: nat, b: nat): Result<nat, Error> {
    if a + b <= U128 then Ok(a + b) else Err(MathOverflow)
  }

  function CheckedSub(a: nat, b: nat): Result<nat, Error> {
    if b <= a then Ok(a - b) else Err(MathOverflow)
  }

  function Divide(a: nat, b: nat): Result<nat, Error> {
    if b == 0 then Err(DivideByZero) else Ok(a / b)
  }

  function DivideUp(a: nat, b: nat): Result<nat, Error> {
    if b == 0 then Err(DivideByZero) else Ok(CeilDiv(a, b))
  }

  function ToU64(a: nat): Result<nat, Error> {
    if a <= U64 then Ok(a) else Err(MathOverflow)
  }

  // ------------------------------------------------------------ square root

  predicate IsSqrt(v: nat, r: nat) {
    r * r <= v < (r + 1) * (r + 1)
  }

  lemma SquareLe(a: nat, b: nat)
    requires a <= b
    ensures a * a <= b * b
  {
    MulLe(a, b, a);
    MulLe(a, b, b);
  }

  lemma SqrtUnique(v: nat, r: nat, s: nat)
    requires IsSqrt(v, r) && IsSqrt(v, s)
    ensures r == s
  {
    if r < s {
      SquareLe(r + 1, s);
    } else if s < r {
      SquareLe(s + 1, r);
    }
  }

  /** The integer square root, counted up one at a time: the reference for Newton's iteration. */
  function FloorSqrt(v: nat): (r: nat)
    ensures IsSqrt(v, r)
  {
    if v == 0 then 0
    else
      var r := FloorSqrt(v - 1);
      if (r + 1) * (r + 1) <= v then r + 1 else r
  }

  /** One Newton step from any positive point lands at or above the root. */
  lemma NewtonAboveRoot(v: nat, x: nat)
    requires x > 0
    ensures var y := (x + v / x) / 2; v < (y + 1) * (y + 1)
  {
    var q := v / x;
    var y := (x + q) / 2;
    FloorBounds(v, x);
    var s := x + q + 1;
    assert v < (q + 1) * x by { assert (q + 1) * x == q * x + x; }
    assert s <= 2 * (y + 1);
    MulLe(s, 2 * (y + 1), s);
    MulLe(s, 2 * (y + 1), 2 * (y + 1));
    assert s * s <= (2 * (y + 1)) * (2 * (y + 1));
    assert (2 * (y + 1)) * (2 * (y + 1)) == 4 * ((y + 1) * (y + 1));
    var d := x - (q + 1);
    assert s * s == d * d + 4 * ((q + 1) * x);
    assert d * d >= 0;
  }

  lemma DescentBelowRoot(v: nat, x: nat)
    requires x > 0 && (x + v / x) / 2 >= x
    ensures x * x <= v
  {
    FloorBounds(v, x);
    MulLe(x, v / x, x);
  }

  lemma ThirdAtMost(v: nat, x: nat)
    requires x >= 3
    ensures 3 * (v / x) <= v
  {
    FloorBounds(v, x);
    MulLe(3, x, v / x);
  }

  /** From 2 up, a point at or above the root keeps `x + v / x` inside 128 bits. */
  lemma NewtonSumFits(v: nat, x: nat)
    requires 2 <= v <= U128 && 0 < x <= U128 / 2 + 1 && v < (x + 1) * (x + 1)
    ensures x + v / x <= U128
  {
    if x == 1 {
      assert v < 4;
    } else if x == 2 {
      assert v < 9;
    } else {
      ThirdAtMost(v, x);
    }
  }

  /** What one pass of the loop needs of the point it moves to. */
  lemma NewtonDescends(v: nat, x: nat, y: nat)
    requires 2 <= v <= U128 && 0 < x && y == (x + v / x) / 2 && y <= U128 / 2 + 1
    ensures 0 < y && v < (y + 1) * (y + 1) && y + v / y <= U128
  {
    NewtonAboveRoot(v, x);
    assert y != 0;
    NewtonSumFits(v, y);
  }

  /** Newton's iteration as the program runs it; no intermediate sum leaves 128 bits. */
  method IntegerSqrt(v: nat) returns (r: nat)
    requires v <= U128
    ensures r == FloorSqrt(v)
  {
    if v < 2 {
      SqrtUnique(v, v, FloorSqrt(v));
      return v;
    }
    var x := v;
    var y := CeilDiv(x, 2);
    assert v / v == 1;
    SquareLe(v, v + 1);
    while y < x
      invariant 0 < x && y == (x + v / x) / 2
      invariant v < (x + 1) * (x + 1)
      invariant y < x ==> y <= U128 / 2 + 1
      decreases x
    {
      NewtonDescends(v, x, y);
      x := y;
      assert x + v / x <= U128;
      y := (x + v / x) / 2;
    }
    DescentBelowRoot(v, x);
    SqrtUnique(v, x, FloorSqrt(v));
    r := x;
  }

  // ------------------------------------------------------------ quotes

  /** Dead shares and the first depositor's shares. */
  function FirstLpSplit(scad: nat, sol: nat): Result<(nat, nat), Error> {
    var product :- CheckedMul(scad, sol);
    var total :- ToU64(FloorSqrt(product));
    if total <= MINIMUM_LIQUIDITY then Err(InsufficientInitialLiquidity)
    else Ok((MINIMUM_LIQUIDITY, total - MINIMUM_LIQUIDITY))
  }

  function CpmmOut(amountIn: nat, rIn: nat, rOut: nat, feeBps: nat): Result<nat, Error> {
    var keep :- CheckedSub(BPS, feeBps);
    var scaled :- CheckedMul(amountIn, keep);
    var numer :- CheckedMul(scaled / BPS, rOut);
    var denom :- CheckedAdd(rIn, scaled / BPS);
    var out :- Divide(numer, denom);
    ToU64(out)
  }

  /** SCAD and SOL to pull, shares to mint, dead shares to lock. */
  datatype AddQuote = AddQuote(scadIn: nat, solIn: nat, lpOut: nat, lpLocked: nat)

  function SharesFor(offered: nat, supply: nat, reserve: nat): Result<nat, Error> {
    var scaled :- CheckedMul(offered, supply);
    Divide(scaled, reserve)
  }

  function NeedFor(lp: nat, reserve: nat, supply: nat): Result<nat, Error> {
    var scaled :- CheckedMul(lp, reserve);
    var need :- DivideUp(scaled, supply);
    ToU64(need)
  }

  function QuoteAdd(p: Pool, scad: nat, sol: nat): Result<AddQuote, Error> {
    if p.lp == 0 then
      var split :- FirstLpSplit(scad, sol);
      Ok(AddQuote(scad, sol, split.1, split.0))
    else
      var lpFromScad :- SharesFor(scad, p.lp, p.scad);
      var lpFromSol :- SharesFor(sol, p.lp, p.sol);
      var lp := if lpFromScad <= lpFromSol then lpFromScad else lpFromSol;
      var scadIn :- NeedFor(lp, p.scad, p.lp);
      var solIn :- NeedFor(lp, p.sol, p.lp);
      var lpOut :- ToU64(lp);
      Ok(AddQuote(scadIn, solIn, lpOut, 0))
  }

  // ------------------------------------------------------------ instructions

  function Add(p: Pool, u: nat, scad: nat, sol: nat, minLp: nat, w: Wallet): Result<(Pool, Receipt), Error>
    requires u < |p.holders|
  {
    if scad == 0 || sol == 0 then Err(ZeroAmount) else
    var q :- QuoteAdd(p, scad, sol);
    if q.lpOut < minLp || q.lpOut == 0 then Err(SlippageExceeded)
    else if w.scad < q.scadIn || p.scad + q.scadIn > U64 || w.sol < q.solIn || p.sol + q.solIn > U64 then Err(TransferFailed)
    else if p.lp + q.lpOut + q.lpLocked > U64 then Err(TransferFailed)
    else Ok((p.(scad := p.scad + q.scadIn, sol := p.sol + q.solIn, lp := p.lp + q.lpOut + q.lpLocked,
                locked := p.locked + q.lpLocked, holders := p.holders[u := p.holders[u] + q.lpOut]),
             Receipt(q.scadIn, q.solIn, q.lpOut)))
  }

  function Remove(p: Pool, u: nat, lp: nat, minScad: nat, minSol: nat): Result<(Pool, Receipt), Error>
    requires u < |p.holders|
  {
    if lp == 0 then Err(ZeroAmount)
    else if p.lp == 0 then Err(EmptyPool) else
    var a :- CheckedMul(lp, p.scad);
    var scadOut :- ToU64(a / p.lp);
    var b :- CheckedMul(lp, p.sol);
    var solOut :- ToU64(b / p.lp);
    if scadOut < minScad || solOut < minSol then Err(SlippageExceeded)
    else if p.holders[u] < lp || p.lp < lp || p.scad < scadOut || p.sol < solOut then Err(TransferFailed)
    else Ok((p.(scad := p.scad - scadOut, sol := p.sol - solOut, lp := p.lp - lp,
                holders := p.holders[u := p.holders[u] - lp]),
             Receipt(scadOut, solOut, lp)))
  }

  function Swap(p: Pool, solToScad: bool, amountIn: nat, minOut: nat, w: Wallet): Result<(Pool, nat), Error> {
    if amountIn == 0 then Err(ZeroAmount)
    else if p.scad == 0 || p.sol == 0 then Err(EmptyPool) else
    var rIn, rOut := if solToScad then p.sol else p.scad, if solToScad then p.scad else p.sol;
    var out :- CpmmOut(amountIn, rIn, rOut, p.feeBps);
    if out < minOut || out == 0 then Err(SlippageExceeded)
    else if (if solToScad then w.sol else w.scad) < amountIn || rIn + amountIn > U64 || rOut < out then Err(TransferFailed)
    else Ok((if solToScad then p.(sol := p.sol + amountIn, scad := p.scad - out)
             else p.(scad := p.scad + amountIn, sol := p.sol - out), out))
  }

  /** Anyone may send either side to the pool's accounts without asking. */
  function Donate(p: Pool, scad: nat, sol: nat): Pool {
    if p.scad + scad <= U64 && p.sol + sol <= U64 then p.(scad := p.scad + scad, sol := p.sol + sol) else p
  }

  datatype Instruction =
    | AddI(u: nat, scad: nat, sol: nat, minLp: nat, w: Wallet)
    | RemoveI(u: nat, lp: nat, minScad: nat, minSol: nat)
    | SwapI(solToScad: bool, amountIn: nat, minOut: nat, w: Wallet)
    | DonateI(scad: nat, sol: nat)

  /** Instruction arguments are u64 and name a known user. */
  predicate WellTyped(p: Pool, i: Instruction) {
    match i
    case AddI(u, scad, sol, _, _) => u < |p.holders| && scad <= U64 && sol <= U64
    case RemoveI(u, lp, _, _) => u < |p.holders| && lp <= U64
    case SwapI(_, amountIn, _, _) => amountIn <= U64
    case DonateI(_, _) => true
  }

  /** A refused instruction leaves the pool as it was. */
  function Step(p: Pool, i: Instruction): Pool {
    if !WellTyped(p, i) then p else
    match i
    case AddI(u, scad, sol, minLp, w) => var r := Add(p, u, scad, sol, minLp, w); if r.Ok? then r.value.0 else p
    case RemoveI(u, lp, minScad, minSol) => var r := Remove(p, u, lp, minScad, minSol); if r.Ok? then r.value.0 else p
    case SwapI(dir, amountIn, minOut, w) => var r := Swap(p, dir, amountIn, minOut, w); if r.Ok? then r.value.0 else p
    case DonateI(scad, sol) => Donate(p, scad, sol)
  }

  function Exec(p: Pool, run: seq<Instruction>): Pool {
    if run == [] then p else Step(Exec(p, run[..|run| - 1]), run[|run| - 1])
  }

  // ------------------------------------------------------------ invariant

  predicate Typed(p: Pool) {
    && p.scad <= U64 && p.sol <= U64 && p.lp <= U64 && p.feeBps < 1_000
    && p.lp == p.locked + Total(p.holders)
  }

  /** Shares never outgrow the reserves, and the dead shares keep both sides alive. */
  predicate Backed(p: Pool) {
    && MINIMUM_LIQUIDITY <= p.locked <= p.lp
    && 0 < p.scad && 0 < p.sol
    && p.lp * p.lp <= p.scad * p.sol
  }

  predicate Inv(p: Pool) {
    Typed(p) && (Backed(p) || (p.lp == 0 && p.locked == 0))
  }

  /** `q` holds at least as much per share as `p`: A'·B'·L² ≥ A·B·L'². */
  predicate NoLoss(p: Pool, q: Pool) {
    (p.scad * p.sol) * (q.lp * q.lp) <= (q.scad * q.sol) * (p.lp * p.lp)
  }

  lemma RatioTransitive(x0: nat, s0: nat, x1: nat, s1: nat, x2: nat, s2: nat)
    requires s1 > 0 && x0 * s1 <= x1 * s0 && x1 * s2 <= x2 * s1
    ensures x0 * s2 <= x2 * s0
  {
    MulLe(x0 * s1, x1 * s0, s2);
    MulLe(x1 * s2, x2 * s1, s0);
    assert (x0 * s1) * s2 == (x0 * s2) * s1;
    assert (x1 * s0) * s2 == (x1 * s2) * s0;
    assert (x2 * s1) * s0 == (x2 * s0) * s1;
    CancelLe(x0 * s2, x2 * s0, s1);
  }

  /** Neither side losing per share means the product does not lose per share squared. */
  lemma SidesGiveNoLoss(p: Pool, q: Pool)
    requires p.scad * q.lp <= q.scad * p.lp && p.sol * q.lp <= q.sol * p.lp
    ensures NoLoss(p, q)
  {
    var a, b := p.scad * q.lp, q.scad * p.lp;
    var c, d := p.sol * q.lp, q.sol * p.lp;
    MulLe(a, b, c);
    MulLe(c, d, b);
    assert a * c == (p.scad * p.sol) * (q.lp * q.lp);
    assert b * d == (q.scad * q.sol) * (p.lp * p.lp);
  }

  /** With shares in existence, a step without loss keeps shares within the reserves. */
  lemma NoLossKeepsBacked(p: Pool, q: Pool)
    requires p.lp > 0 && p.lp * p.lp <= p.scad * p.sol && NoLoss(p, q)
    ensures q.lp * q.lp <= q.scad * q.sol
  {
    MulLe(p.lp * p.lp, p.scad * p.sol, q.lp * q.lp);
    assert p.lp * p.lp > 0;
    assert (p.lp * p.lp) * (q.lp * q.lp) == (q.lp * q.lp) * (p.lp * p.lp);
    CancelLe(q.lp * q.lp, q.scad * q.sol, p.lp * p.lp);
  }

  // ------------------------------------------------------------ add

  lemma U64ProductFits(a: nat, b: nat)
    requires a <= U64 && b <= U64
    ensures a * b <= U64 * U64 <= U128
  {
    MulLe(a, U64, b);
    MulLe(b, U64, U64);
  }

  lemma SharesForFits(offered: nat, supply: nat, reserve: nat)
    requires offered <= U64 && supply <= U64 && 0 < reserve
    ensures SharesFor(offered, supply, reserve) == Ok(offered * supply / reserve)
  {
    U64ProductFits(offered, supply);
  }

  /** Shares within what was offered cost no more than was offered, and no less than their worth. */
  lemma NeedForFair(lp: nat, reserve: nat, supply: nat, offered: nat)
    requires lp <= U64 && 0 < reserve <= U64 && 0 < supply && offered <= U64
    requires lp <= offered * supply / reserve
    ensures NeedFor(lp, reserve, supply).Ok?
    ensures var need := NeedFor(lp, reserve, supply).value; need <= offered && lp * reserve <= need * supply
  {
    U64ProductFits(lp, reserve);
    FloorBounds(offered * supply, reserve);
    MulLe(lp, offered * supply / reserve, reserve);
    CeilLe(lp * reserve, supply, offered);
    CeilBounds(lp * reserve, supply);
  }

  /** The shares a proportional add is entitled to: the smaller of the two sides' claims. */
  function Entitled(p: Pool, scad: nat, sol: nat): nat
    requires p.scad > 0 && p.sol > 0
  {
    var a, b := scad * p.lp / p.scad, sol * p.lp / p.sol;
    if a <= b then a else b
  }

  /**
   * A proportional add pulls no more than offered and no less than the shares are
   * worth; it is refused only when those shares would not fit 64 bits.
   */
  lemma QuoteAddFair(p: Pool, scad: nat, sol: nat)
    requires Typed(p) && Backed(p) && scad <= U64 && sol <= U64
    ensures match QuoteAdd(p, scad, sol)
            case Err(e) => e == MathOverflow && Entitled(p, scad, sol) > U64
            case Ok(q) =>
              && q.lpOut == Entitled(p, scad, sol) <= U64 && q.lpLocked == 0
              && q.scadIn <= scad && q.solIn <= sol
              && q.lpOut * p.scad <= q.scadIn * p.lp && q.lpOut * p.sol <= q.solIn * p.lp
  {
    SharesForFits(scad, p.lp, p.scad);
    SharesForFits(sol, p.lp, p.sol);
    var lp := Entitled(p, scad, sol);
    if lp <= U64 {
      NeedForFair(lp, p.scad, p.lp, scad);
      NeedForFair(lp, p.sol, p.lp, sol);
    }
    hide SharesFor, NeedFor;
    assert lp > U64 && QuoteAdd(p, scad, sol).Err? ==> QuoteAdd(p, scad, sol).error == MathOverflow by {
      NeedForErrors(lp, p.scad, p.lp);
      NeedForErrors(lp, p.sol, p.lp);
    }
  }

  lemma NeedForErrors(lp: nat, reserve: nat, supply: nat)
    requires supply > 0
    ensures NeedFor(lp, reserve, supply).Err? ==> NeedFor(lp, reserve, supply) == Err(MathOverflow)
  {
  }

  lemma ProductLe(a: nat, b: nat, c: nat, d: nat)
    requires a <= c && b <= d
    ensures a * b <= c * d
  {
    MulLe(a, c, b);
    MulLe(b, d, c);
  }

  lemma DepositCoversShares(reserve: nat, supply: nat, put: nat, lp: nat)
    requires lp * reserve <= put * supply
    ensures reserve * (supply + lp) <= (reserve + put) * supply
  {
    assert reserve * (supply + lp) == reserve * supply + lp * reserve;
    assert (reserve + put) * supply == reserve * supply + put * supply;
  }

  lemma FirstAddBacks(p: Pool, u: nat, scad: nat, sol: nat, minLp: nat, w: Wallet)
    requires Inv(p) && p.lp == 0 && u < |p.holders| && scad <= U64 && sol <= U64
    requires Add(p, u, scad, sol, minLp, w).Ok?
    ensures Backed(Add(p, u, scad, sol, minLp, w).value.0)
  {
    var q := Add(p, u, scad, sol, minLp, w).value.0;
    FirstSplitFits(scad, sol);
    hide FirstLpSplit;
    assert q.lp * q.lp <= scad * sol;
    ProductLe(scad, sol, q.scad, q.sol);
  }

  lemma LaterAddBacks(p: Pool, u: nat, scad: nat, sol: nat, minLp: nat, w: Wallet)
    requires Typed(p) && Backed(p) && u < |p.holders| && scad <= U64 && sol <= U64
    requires Add(p, u, scad, sol, minLp, w).Ok?
    ensures var q := Add(p, u, scad, sol, minLp, w).value.0; Backed(q) && NoLoss(p, q)
    ensures var rec := Add(p, u, scad, sol, minLp, w).value.1; rec.scad <= scad && rec.sol <= sol
  {
    QuoteAddFair(p, scad, sol);
    hide QuoteAdd, Entitled, NoLoss;
    var q := Add(p, u, scad, sol, minLp, w).value.0;
    var quote := QuoteAdd(p, scad, sol).value;
    DepositCoversShares(p.scad, p.lp, quote.scadIn, quote.lpOut);
    DepositCoversShares(p.sol, p.lp, quote.solIn, quote.lpOut);
    SidesGiveNoLoss(p, q);
    NoLossKeepsBacked(p, q);
  }

  /** An add keeps every invariant, costs at most what was offered and honours `minLp`. */
  lemma AddKeeps(p: Pool, u: nat, scad: nat, sol: nat, minLp: nat, w: Wallet)
    requires Inv(p) && u < |p.holders| && scad <= U64 && sol <= U64
    requires Add(p, u, scad, sol, minLp, w).Ok?
    ensures var q := Add(p, u, scad, sol, minLp, w).value.0;
      Typed(q) && Backed(q) && (p.lp > 0 ==> NoLoss(p, q))
    ensures var rec := Add(p, u, scad, sol, minLp, w).value.1;
      rec.scad <= scad && rec.sol <= sol && minLp <= rec.lp
  {
    if p.lp == 0 {
      FirstAddBacks(p, u, scad, sol, minLp, w);
    } else {
      LaterAddBacks(p, u, scad, sol, minLp, w);
    }
    hide FirstLpSplit, SharesFor, NeedFor, NoLoss, Backed;
    var q := Add(p, u, scad, sol, minLp, w).value.0;
    TotalPoint(p.holders, q.holders, u, QuoteAdd(p, scad, sol).value.lpOut);
  }

  // ------------------------------------------------------------ remove

  lemma PayoutFloor(reserve: nat, supply: nat, lp: nat)
    requires 0 < reserve && lp < supply
    ensures var out := lp * reserve / supply;
      out < reserve && reserve * (supply - lp) <= (reserve - out) * supply
  {
    var out := lp * reserve / supply;
    FloorBounds(lp * reserve, supply);
    if out >= reserve {
      MulLe(reserve, out, supply);
      MulLt(lp, supply, reserve);
    }
    assert (reserve - out) * supply == reserve * supply - out * supply;
    assert reserve * (supply - lp) == reserve * supply - reserve * lp;
  }

  lemma RemoveKeeps(p: Pool, u: nat, lp: nat, minScad: nat, minSol: nat)
    requires Inv(p) && u < |p.holders| && lp <= U64
    requires Remove(p, u, lp, minScad, minSol).Ok?
    ensures var q := Remove(p, u, lp, minScad, minSol).value.0; Typed(q) && Backed(q) && NoLoss(p, q)
  {
    var q := Remove(p, u, lp, minScad, minSol).value.0;
    TotalPoint(p.holders, q.holders, u, 0 - lp);
    TotalCovers(p.holders, u);
    assert lp < p.lp;
    PayoutFloor(p.scad, p.lp, lp);
    PayoutFloor(p.sol, p.lp, lp);
    SidesGiveNoLoss(p, q);
    NoLossKeepsBacked(p, q);
    TotalNonNegative(q.holders);
  }

  // ------------------------------------------------------------ swap

  lemma FeeShrinksInput(amountIn: nat, keep: nat)
    requires amountIn <= U64 && keep <= BPS
    ensures amountIn * keep <= U128 && amountIn * keep / BPS <= amountIn
  {
    ProductLe(amountIn, keep, U64, BPS);
    MulLe(keep, BPS, amountIn);
    FloorLe(amountIn * keep, BPS, amountIn);
  }

  /** The curve without a fee: the payout stays below the reserve and the product does not fall. */
  lemma CurveFloor(x: nat, rIn: nat, rOut: nat)
    requires 0 < rIn && 0 < rOut
    ensures var out := x * rOut / (rIn + x); out < rOut && rIn * rOut <= (rIn + x) * (rOut - out)
  {
    var denom := rIn + x;
    var out := x * rOut / denom;
    FloorBounds(x * rOut, denom);
    assert denom * rOut == rIn * rOut + x * rOut;
    MulLt(0, rIn, rOut);
    if out >= rOut {
      MulLe(rOut, out, denom);
    }
    assert denom * (rOut - out) == denom * rOut - out * denom;
  }

  /** The output never reaches the reserve, and the product of the reserves never falls. */
  lemma CpmmKeepsProduct(amountIn: nat, rIn: nat, rOut: nat, feeBps: nat)
    requires amountIn <= U64 && 0 < rIn <= U64 && 0 < rOut <= U64 && feeBps < 1_000
    ensures CpmmOut(amountIn, rIn, rOut, feeBps).Ok?
    ensures var out := CpmmOut(amountIn, rIn, rOut, feeBps).value;
      out < rOut && rIn * rOut <= (rIn + amountIn) * (rOut - out)
  {
    FeeShrinksInput(amountIn, BPS - feeBps);
    var x := amountIn * (BPS - feeBps) / BPS;
    U64ProductFits(x, rOut);
    CurveFloor(x, rIn, rOut);
    MulLe(rIn + x, rIn + amountIn, rOut - x * rOut / (rIn + x));
  }

  lemma SwapKeeps(p: Pool, dir: bool, amountIn: nat, minOut: nat, w: Wallet)
    requires Inv(p) && amountIn <= U64 && Swap(p, dir, amountIn, minOut, w).Ok?
    ensures var q := Swap(p, dir, amountIn, minOut, w).value.0;
      && Typed(q) && (Backed(p) ==> Backed(q)) && NoLoss(p, q) && q.lp == p.lp
      && 0 < q.scad && 0 < q.sol && p.scad * p.sol <= q.scad * q.sol
  {
    hide CpmmOut, NoLoss;
    var q := Swap(p, dir, amountIn, minOut, w).value.0;
    if dir {
      CpmmKeepsProduct(amountIn, p.sol, p.scad, p.feeBps);
    } else {
      CpmmKeepsProduct(amountIn, p.scad, p.sol, p.feeBps);
    }
    SameSharesNoLoss(p, q);
  }

  lemma SameSharesNoLoss(p: Pool, q: Pool)
    requires q.lp == p.lp && p.scad * p.sol <= q.scad * q.sol
    ensures NoLoss(p, q)
  {
    MulLe(p.scad * p.sol, q.scad * q.sol, p.lp * p.lp);
  }

  lemma DonateKeeps(p: Pool, scad: nat, sol: nat)
    requires Inv(p)
    ensures var q := Donate(p, scad, sol); Inv(q) && (Backed(p) ==> Backed(q)) && NoLoss(p, q)
  {
    var q := Donate(p, scad, sol);
    MulLe(p.scad, q.scad, p.sol);
    MulLe(p.sol, q.sol, q.scad);
    MulLe(p.scad * p.sol, q.scad * q.sol, p.lp * p.lp);
  }

  // ------------------------------------------------------------ whole runs

  lemma StepKeeps(p: Pool, i: Instruction)
    requires Inv(p)
    ensures Inv(Step(p, i)) && (Backed(p) ==> Backed(Step(p, i)) && NoLoss(p, Step(p, i)))
  {
    if WellTyped(p, i) {
      match i {
        case AddI(u, scad, sol, minLp, w) =>
          if Add(p, u, scad, sol, minLp, w).Ok? { AddKeeps(p, u, scad, sol, minLp, w); }
        case RemoveI(u, lp, minScad, minSol) =>
          if Remove(p, u, lp, minScad, minSol).Ok? { RemoveKeeps(p, u, lp, minScad, minSol); }
        case SwapI(dir, amountIn, minOut, w) =>
          if Swap(p, dir, amountIn, minOut, w).Ok? { SwapKeeps(p, dir, amountIn, minOut, w); }
        case DonateI(scad, sol) => DonateKeeps(p, scad, sol);
      }
    }
  }

  lemma {:induction false} RunKeepsInv(p: Pool, run: seq<Instruction>)
    requires Inv(p)
    ensures Inv(Exec(p, run))
  {
    if run != [] {
      RunKeepsInv(p, run[..|run| - 1]);
      StepKeeps(Exec(p, run[..|run| - 1]), run[|run| - 1]);
    }
  }

  /**
   * Once there are shares, no run of adds, removals, swaps and donations lowers what a
   * share is worth, empties a side, dips into the dead shares or issues unbacked shares.
   */
  lemma {:induction false} ShareValueNeverFalls(p: Pool, run: seq<Instruction>)
    requires Typed(p) && Backed(p)
    ensures var q := Exec(p, run); Typed(q) && Backed(q) && NoLoss(p, q)
  {
    hide NoLoss, Step;
    if run == [] {
      SameSharesNoLoss(p, p);
    } else {
      var m := Exec(p, run[..|run| - 1]);
      ShareValueNeverFalls(p, run[..|run| - 1]);
      StepKeeps(m, run[|run| - 1]);
      NoLossTransitive(p, m, Exec(p, run));
    }
  }

  lemma NoLossTransitive(p: Pool, m: Pool, q: Pool)
    requires m.lp > 0 && NoLoss(p, m) && NoLoss(m, q)
    ensures NoLoss(p, q)
  {
    MulLt(0, m.lp, m.lp);
    RatioTransitive(p.scad * p.sol, p.lp * p.lp, m.scad * m.sol, m.lp * m.lp, q.scad * q.sol, q.lp * q.lp);
  }

  predicate Aborts<T>(r: Result<T, Error>) {
    r == Err(DivideByZero) || r == Err(MathOverflow)
  }

  lemma AddAbortsOnlyWhenTooBig(p: Pool, u: nat, scad: nat, sol: nat, minLp: nat, w: Wallet)
    requires Inv(p) && u < |p.holders| && scad <= U64 && sol <= U64
    ensures Aborts(Add(p, u, scad, sol, minLp, w)) ==> p.lp > 0 && Entitled(p, scad, sol) > U64
  {
    if p.lp > 0 {
      QuoteAddFair(p, scad, sol);
    } else {
      FirstSplitFits(scad, sol);
    }
    hide QuoteAdd, Entitled;
    assert Add(p, u, scad, sol, minLp, w).Err? && QuoteAdd(p, scad, sol).Ok? ==>
      !Aborts(Add(p, u, scad, sol, minLp, w));
  }

  /** A payout for shares that exist fits 64 bits because the reserve does. */
  lemma PayoutFits(reserve: nat, supply: nat, lp: nat)
    requires reserve <= U64 && lp <= supply <= U64 && 0 < supply
    ensures lp * reserve <= U128 && lp * reserve / supply <= reserve
  {
    U64ProductFits(lp, reserve);
    MulLe(lp, supply, reserve);
    FloorLe(lp * reserve, supply, reserve);
  }

  lemma RemoveNeverAborts(p: Pool, u: nat, lp: nat, minScad: nat, minSol: nat)
    requires Inv(p) && u < |p.holders| && lp <= p.lp
    ensures !Aborts(Remove(p, u, lp, minScad, minSol))
  {
    if p.lp > 0 {
      PayoutFits(p.scad, p.lp, lp);
      PayoutFits(p.sol, p.lp, lp);
    }
  }

  lemma SwapNeverAborts(p: Pool, dir: bool, amountIn: nat, minOut: nat, w: Wallet)
    requires Inv(p) && amountIn <= U64
    ensures !Aborts(Swap(p, dir, amountIn, minOut, w))
  {
    if p.scad > 0 && p.sol > 0 {
      CpmmKeepsProduct(amountIn, p.sol, p.scad, p.feeBps);
      CpmmKeepsProduct(amountIn, p.scad, p.sol, p.feeBps);
    }
    hide CpmmOut;
    assert !Aborts(Swap(p, dir, amountIn, minOut, w));
  }

  /**
   * In a pool any run can reach, no swap and no removal of existing shares aborts, and
   * an add aborts only when the shares it is entitled to do not fit 64 bits.
   */
  lemma ReachableNeverAborts(p: Pool, run: seq<Instruction>, i: Instruction)
    requires Inv(p) && WellTyped(Exec(p, run), i)
    ensures var q := Exec(p, run);
      match i
      case AddI(u, scad, sol, minLp, w) =>
        Aborts(Add(q, u, scad, sol, minLp, w)) ==> q.lp > 0 && q.scad > 0 && q.sol > 0 && Entitled(q, scad, sol) > U64
      case RemoveI(u, lp, minScad, minSol) => lp <= q.lp ==> !Aborts(Remove(q, u, lp, minScad, minSol))
      case SwapI(dir, amountIn, minOut, w) => !Aborts(Swap(q, dir, amountIn, minOut, w))
      case DonateI(_, _) => true
  {
    var q := Exec(p, run);
    RunKeepsInv(p, run);
    hide Entitled, Add, Remove, Swap;
    match i {
      case AddI(u, scad, sol, minLp, w) => AddAbortsOnlyWhenTooBig(q, u, scad, sol, minLp, w);
      case RemoveI(u, lp, minScad, minSol) => if lp <= q.lp { RemoveNeverAborts(q, u, lp, minScad, minSol); }
      case SwapI(dir, amountIn, minOut, w) => SwapNeverAborts(q, dir, amountIn, minOut, w);
      case DonateI(_, _) =>
    }
  }

  /** The first deposit mints the whole root: locked and depositor shares, squared, within the product. */
  lemma FirstSplitFits(scad: nat, sol: nat)
    requires scad <= U64 && sol <= U64
    ensures FirstLpSplit(scad, sol).Err? <==> scad * sol < (MINIMUM_LIQUIDITY + 1) * (MINIMUM_LIQUIDITY + 1)
    ensures FirstLpSplit(scad, sol).Err? ==> FirstLpSplit(scad, sol) == Err(InsufficientInitialLiquidity)
    ensures FirstLpSplit(scad, sol).Ok? ==>
      var (locked, mine) := FirstLpSplit(scad, sol).value;
      locked == MINIMUM_LIQUIDITY && mine > 0 && IsSqrt(scad * sol, locked + mine)
  {
    U64ProductFits(scad, sol);
    var v := scad * sol;
    var r := FloorSqrt(v);
    RootFits(v, r);
    RootOrder(v, r, MINIMUM_LIQUIDITY);
  }

  lemma RootFits(v: nat, r: nat)
    requires IsSqrt(v, r) && v <= U64 * U64
    ensures r <= U64
  {
    if r > U64 {
      SquareLe(U64 + 1, r);
    }
  }

  lemma RootOrder(v: nat, r: nat, k: nat)
    requires IsSqrt(v, r)
    ensures r <= k <==> v < (k + 1) * (k + 1)
  {
    if r <= k {
      SquareLe(r + 1, k + 1);
    } else {
      SquareLe(k + 1, r);
    }
  }

  // ------------------------------------------------------------ round trips

  /** Taking back at once the shares just bought returns at most what was put in, on both sides. */
  lemma AddThenRemoveGainsNothing(p: Pool, u: nat, scad: nat, sol: nat, minLp: nat, w: Wallet)
    requires Typed(p) && Backed(p) && u < |p.holders| && scad <= U64 && sol <= U64
    requires Add(p, u, scad, sol, minLp, w).Ok?
    ensures var (q, put) := Add(p, u, scad, sol, minLp, w).value;
      var back := Remove(q, u, put.lp, 0, 0);
      back.Ok? && back.value.1.scad <= put.scad && back.value.1.sol <= put.sol
  {
    var (q, put) := Add(p, u, scad, sol, minLp, w).value;
    QuoteAddFair(p, scad, sol);
    AddKeeps(p, u, scad, sol, minLp, w);
    hide QuoteAdd, Entitled;
    BackAtMost(p.scad, p.lp, put.scad, put.lp);
    BackAtMost(p.sol, p.lp, put.sol, put.lp);
    PayoutFits(q.scad, q.lp, put.lp);
    PayoutFits(q.sol, q.lp, put.lp);
  }

  lemma BackAtMost(reserve: nat, supply: nat, put: nat, lp: nat)
    requires 0 < supply && lp * reserve <= put * supply
    ensures lp * (reserve + put) / (supply + lp) <= put
  {
    assert lp * (reserve + put) == lp * reserve + lp * put;
    assert put * (supply + lp) == put * supply + lp * put;
    FloorLe(lp * (reserve + put), supply + lp, put);
  }

  /** Swapping there and back never returns more than was sent. */
  lemma SwapThereAndBackGainsNothing(p: Pool, dir: bool, x: nat, w: Wallet, w': Wallet)
    requires Inv(p) && x <= U64 && Swap(p, dir, x, 0, w).Ok?
    requires var (q, y) := Swap(p, dir, x, 0, w).value; Swap(q, !dir, y, 0, w').Ok?
    ensures var (q, y) := Swap(p, dir, x, 0, w).value; Swap(q, !dir, y, 0, w').value.1 <= x
  {
    hide CpmmOut;
    var (q, y) := Swap(p, dir, x, 0, w).value;
    SwapKeeps(p, dir, x, 0, w);
    var (t, z) := Swap(q, !dir, y, 0, w').value;
    SwapKeeps(q, !dir, y, 0, w');
    if dir {
      assert t.scad == p.scad && t.sol == p.sol + x - z;
      CancelLe(p.sol, t.sol, p.scad);
    } else {
      assert t.sol == p.sol && t.scad == p.scad + x - z;
      CancelLe(p.scad, t.scad, p.sol);
    }
  }
}
