/** The four-year halving of the play-to-earn pool, and the split of one hourly block. */
module Emission {
  import opened Rounding
  import opened Sums
  import WeightedDraw

  const P2E_POOL: nat := 500_000_000 * 1_000_000_000
  const HOURS_PER_HALVING: nat := 4 * 365 * 24
  const MS_PER_HOUR: nat := 3_600_000
  const MS_PER_HALVING: nat := HOURS_PER_HALVING * MS_PER_HOUR
  const GENESIS_MS: int := 1_782_864_000_000
  const GENESIS_BLOCK_REWARD: nat := P2E_POOL / 2 / HOURS_PER_HALVING
  const BIG_REWARD_BPS: nat := 1_000

  /** `reward >> era`. */
  function ShiftRight(reward: nat, era: nat): nat {
    if era == 0 then reward else ShiftRight(reward, era - 1) / 2
  }

  function EraAt(nowMs: int): nat {
    var elapsed := nowMs - GENESIS_MS;
    if elapsed <= 0 then 0 else elapsed / MS_PER_HALVING
  }

  function SubsidyAt(nowMs: int): nat {
    ShiftRight(GENESIS_BLOCK_REWARD, EraAt(nowMs))
  }

  function BlockRewardAt(nowMs: int, emitted: nat): nat {
    if P2E_POOL <= emitted then 0
    else if SubsidyAt(nowMs) < P2E_POOL - emitted then SubsidyAt(nowMs) else P2E_POOL - emitted
  }

  function BlockShare(playRate: nat, total: nat, reward: nat): nat {
    if playRate == 0 || total == 0 || reward == 0 then 0 else reward * playRate / total
  }

  // ------------------------------------------------------------ the formulas by what they mean

  /** Era 0 before genesis; then one era every four years to the millisecond. */
  lemma EraExactly(nowMs: int)
    ensures var e := EraAt(nowMs);
      if nowMs <= GENESIS_MS then e == 0 else GENESIS_MS + e * MS_PER_HALVING <= nowMs < GENESIS_MS + (e + 1) * MS_PER_HALVING
  {
    if nowMs > GENESIS_MS {
      var elapsed: nat := nowMs - GENESIS_MS;
      FloorBounds(elapsed, MS_PER_HALVING);
    }
  }

  /** The era's subsidy is the genesis reward halved once an era. */
  lemma SubsidyExactly(nowMs: int)
    ensures RoundsDown(GENESIS_BLOCK_REWARD, Power2(EraAt(nowMs)), SubsidyAt(nowMs))
  {
    ShiftIsPower(GENESIS_BLOCK_REWARD, EraAt(nowMs));
    FloorBounds(GENESIS_BLOCK_REWARD, Power2(EraAt(nowMs)));
  }

  /** A block gets the subsidy, or what is left of the pool when that is less. */
  lemma RewardExactly(nowMs: int, emitted: nat)
    ensures var reward := BlockRewardAt(nowMs, emitted);
      && reward <= SubsidyAt(nowMs)
      && (emitted + SubsidyAt(nowMs) <= P2E_POOL ==> reward == SubsidyAt(nowMs))
      && (emitted <= P2E_POOL < emitted + SubsidyAt(nowMs) ==> emitted + reward == P2E_POOL)
      && (P2E_POOL < emitted ==> reward == 0)
  {
  }

  /** A miner's share of a pool is its part of the total rate, rounded down. */
  lemma ShareExactly(rate: nat, total: nat, pool: nat)
    requires total > 0
    ensures RoundsDown(pool * rate, total, BlockShare(rate, total, pool))
  {
    FloorBounds(pool * rate, total);
    assert rate == 0 || pool == 0 ==> pool * rate == 0;
  }

  /** The big reward is a tenth of the block, rounded down. */
  lemma BigRewardExactly(reward: nat)
    ensures RoundsDown(reward, 10, BigReward(reward))
  {
  }

  // ------------------------------------------------------------ the schedule against the pool

  function HourStart(hour: nat): int {
    GENESIS_MS + hour * MS_PER_HOUR
  }

  lemma EraOfHour(hour: nat)
    ensures EraAt(HourStart(hour)) == hour / HOURS_PER_HALVING
  {
    if hour > 0 {
      var e := hour / HOURS_PER_HALVING;
      FloorBounds(hour, HOURS_PER_HALVING);
      FloorBounds(hour * MS_PER_HOUR, MS_PER_HALVING);
    }
  }

  /** Everything the first `hours` full subsidies would mint. */
  function Scheduled(hours: nat): nat {
    if hours == 0 then 0 else Scheduled(hours - 1) + ShiftRight(GENESIS_BLOCK_REWARD, (hours - 1) / HOURS_PER_HALVING)
  }

  /** What is scheduled, plus two full eras at the current subsidy less the hours used, never grows. */
  lemma {:induction false} ScheduleBudget(hours: nat)
    ensures Scheduled(hours) +
            (2 * HOURS_PER_HALVING - hours % HOURS_PER_HALVING) * ShiftRight(GENESIS_BLOCK_REWARD, hours / HOURS_PER_HALVING)
            <= 2 * HOURS_PER_HALVING * GENESIS_BLOCK_REWARD
  {
    hide ShiftRight;
    if hours > 0 {
      ScheduleBudget(hours - 1);
      var era := (hours - 1) / HOURS_PER_HALVING;
      var used := (hours - 1) % HOURS_PER_HALVING;
      var r := ShiftRight(GENESIS_BLOCK_REWARD, era);
      var budget := 2 * HOURS_PER_HALVING * GENESIS_BLOCK_REWARD;
      if used + 1 < HOURS_PER_HALVING {
        assert hours / HOURS_PER_HALVING == era && hours % HOURS_PER_HALVING == used + 1;
        SpendHour(Scheduled(hours - 1), 2 * HOURS_PER_HALVING - used, r, budget);
      } else {
        assert hours / HOURS_PER_HALVING == era + 1 && hours % HOURS_PER_HALVING == 0;
        ShiftStep(GENESIS_BLOCK_REWARD, era);
        SpendEra(Scheduled(hours - 1), r, budget);
      }
    } else {
      assert Scheduled(0) == 0 && ShiftRight(GENESIS_BLOCK_REWARD, 0) == GENESIS_BLOCK_REWARD by {
        ShiftZero(GENESIS_BLOCK_REWARD);
      }
    }
  }

  lemma ShiftZero(reward: nat)
    ensures ShiftRight(reward, 0) == reward
  {
  }

  lemma ShiftStep(reward: nat, era: nat)
    ensures ShiftRight(reward, era + 1) == ShiftRight(reward, era) / 2
  {
  }

  lemma SpendHour(spent: nat, left: nat, r: nat, budget: nat)
    requires left > 0 && spent + left * r <= budget
    ensures spent + r + (left - 1) * r <= budget
  {
  }

  lemma SpendEra(spent: nat, r: nat, budget: nat)
    requires spent + (HOURS_PER_HALVING + 1) * r <= budget
    ensures spent + r + 2 * HOURS_PER_HALVING * (r / 2) <= budget
  {
  }

  /** However many hours pass, the whole schedule fits the pool. */
  lemma ScheduleWithinPool(hours: nat)
    ensures Scheduled(hours) <= P2E_POOL
  {
    ScheduleBudget(hours);
    MulLe(0, 2 * HOURS_PER_HALVING - hours % HOURS_PER_HALVING, ShiftRight(GENESIS_BLOCK_REWARD, hours / HOURS_PER_HALVING));
  }

  /** From era 43 (172 years) on there is nothing left to mint. */
  lemma SubsidyRunsOut(era: nat)
    ensures ShiftRight(GENESIS_BLOCK_REWARD, era) == 0 <==> era >= 43
  {
    ShiftIsPower(GENESIS_BLOCK_REWARD, era);
    if era >= 43 {
      PowerMonotone(43, era);
      PowerOf43();
      assert GENESIS_BLOCK_REWARD < Power2(era);
      BelowNextPower(GENESIS_BLOCK_REWARD, Power2(era));
    } else {
      PowerMonotone(era, 42);
      PowerOf43();
      FloorGe(GENESIS_BLOCK_REWARD, Power2(era), 1);
    }
  }

  function Power2(n: nat): (p: nat)
    ensures p > 0
  {
    if n == 0 then 1 else 2 * Power2(n - 1)
  }

  lemma {:induction false} PowerMonotone(m: nat, n: nat)
    requires m <= n
    ensures Power2(m) <= Power2(n)
    decreases n
  {
    if m < n {
      PowerMonotone(m, n - 1);
    }
  }

  lemma {:induction false} PowerAdds(m: nat, n: nat)
    ensures Power2(m + n) == Power2(m) * Power2(n)
    decreases n
  {
    if n > 0 {
      PowerAdds(m, n - 1);
      assert m + n - 1 == m + (n - 1);
    }
  }

  lemma PowerOf43()
    ensures Power2(42) == 4_398_046_511_104 && Power2(43) == 8_796_093_022_208
  {
    assert Power2(7) == 128;
    PowerAdds(7, 7);
    PowerAdds(14, 7);
    PowerAdds(21, 21);
  }

  lemma BelowNextPower(n: nat, d: nat)
    requires n < d
    ensures n / d == 0
  {
    FloorBounds(n, d);
    FloorLe(n, d, 1);
  }

  lemma {:induction false} ShiftIsPower(reward: nat, era: nat)
    ensures ShiftRight(reward, era) == reward / Power2(era)
  {
    if era > 0 {
      ShiftIsPower(reward, era - 1);
      HalveTwice(reward, Power2(era - 1));
    }
  }

  lemma HalveTwice(n: nat, d: nat)
    requires d > 0
    ensures n / d / 2 == n / (2 * d)
  {
    var q := n / d;
    FloorBounds(n, d);
    FloorBounds(q, 2);
    MulLe((q / 2) * 2, q, d);
    MulLe(q + 1, (q / 2) * 2 + 2, d);
    assert (q + 1) * d == q * d + d;
    assert ((q / 2) * 2) * d == (q / 2) * (2 * d);
    assert ((q / 2) * 2 + 2) * d == (q / 2) * (2 * d) + 2 * d;
    FloorGe(n, 2 * d, q / 2);
    FloorBounds(n, 2 * d);
    assert (q / 2 + 1) * (2 * d) == (q / 2) * (2 * d) + 2 * d;
    if n / (2 * d) > q / 2 {
      MulLe(q / 2 + 1, n / (2 * d), 2 * d);
    }
  }

  // ------------------------------------------------------------ one block

  datatype Miner = Miner(user: nat, playRate: nat)

  function Rates(ms: seq<Miner>): seq<nat> {
    seq(|ms|, i requires 0 <= i < |ms| => ms[i].playRate)
  }

  function TotalRate(ms: seq<Miner>): nat {
    TotalNonNegative(Rates(ms));
    Total(Rates(ms))
  }

  lemma TotalRateIsTotal(ms: seq<Miner>)
    ensures TotalRate(ms) == Total(Rates(ms))
  {
  }

  function Shares(ms: seq<Miner>, total: nat, pool: nat): seq<int> {
    seq(|ms|, i requires 0 <= i < |ms| => BlockShare(ms[i].playRate, total, pool))
  }

  /** The shares that go to user `u`. */
  function SharesOf(ms: seq<Miner>, total: nat, pool: nat, u: nat): seq<int> {
    seq(|ms|, i requires 0 <= i < |ms| => if ms[i].user == u then BlockShare(ms[i].playRate, total, pool) else 0)
  }

  /** User `u`'s take from one block whose big reward goes to the miner at `winner`. */
  function TakeOf(ms: seq<Miner>, reward: nat, winner: nat, u: nat): int
    requires winner < |ms|
  {
    Total(SharesOf(ms, TotalRate(ms), reward - BigReward(reward), u)) +
    (if ms[winner].user == u then BigReward(reward) else 0)
  }

  lemma ShareFloor(rate: nat, total: nat, pool: nat)
    requires total > 0
    ensures pool * rate - (total - 1) <= BlockShare(rate, total, pool) * total <= pool * rate
  {
    FloorBounds(pool * rate, total);
    if rate == 0 || pool == 0 {
      assert pool * rate == 0;
    }
  }

  lemma {:induction false} SharesFloor(ms: seq<Miner>, total: nat, pool: nat)
    requires total > 0
    ensures pool * Total(Rates(ms)) - |ms| * (total - 1) <= Total(Shares(ms, total, pool)) * total <= pool * Total(Rates(ms))
    ensures 0 <= Total(Shares(ms, total, pool))
  {
    if ms != [] {
      var n := |ms| - 1;
      SharesFloor(ms[..n], total, pool);
      LastMiner(ms, total, pool);
      ShareFloor(ms[n].playRate, total, pool);
      hide Shares, Rates, BlockShare;
      AddFloor(n, total, pool, Total(Rates(ms[..n])), Total(Shares(ms[..n], total, pool)),
               ms[n].playRate, BlockShare(ms[n].playRate, total, pool));
    }
  }

  lemma LastMiner(ms: seq<Miner>, total: nat, pool: nat)
    requires ms != []
    ensures var n := |ms| - 1;
      && Total(Rates(ms)) == Total(Rates(ms[..n])) + ms[n].playRate
      && Total(Shares(ms, total, pool)) == Total(Shares(ms[..n], total, pool)) + BlockShare(ms[n].playRate, total, pool)
  {
    var n := |ms| - 1;
    hide BlockShare;
    assert Rates(ms)[..n] == Rates(ms[..n]) && Shares(ms, total, pool)[..n] == Shares(ms[..n], total, pool);
  }

  lemma AddFloor(n: nat, total: nat, pool: nat, t: int, s: int, rate: nat, share: nat)
    requires total > 0
    requires pool * t - n * (total - 1) <= s * total <= pool * t
    requires pool * rate - (total - 1) <= share * total <= pool * rate
    ensures pool * (t + rate) - (n + 1) * (total - 1) <= (s + share) * total <= pool * (t + rate)
  {
    assert pool * (t + rate) == pool * t + pool * rate;
    assert (s + share) * total == s * total + share * total;
    assert (n + 1) * (total - 1) == n * (total - 1) + (total - 1);
  }

  /** Flooring each share loses less than one unit a miner, and never mints more than the pool. */
  lemma SplitLosesUnderOneEach(ms: seq<Miner>, pool: nat)
    requires TotalRate(ms) > 0
    ensures pool - |ms| + 1 <= Total(Shares(ms, TotalRate(ms), pool)) <= pool
  {
    var total := TotalRate(ms);
    var minted := Total(Shares(ms, total, pool));
    SharesFloor(ms, total, pool);
    CancelLe(minted, pool, total);
    assert |ms| > 0;
    assert |ms| * (total - 1) == |ms| * total - |ms|;
    assert (pool - |ms|) * total == pool * total - |ms| * total;
    if minted <= pool - |ms| {
      MulLe(minted, pool - |ms|, total);
    }
  }

  function BigReward(reward: nat): (big: nat)
    ensures big <= reward
  {
    reward * BIG_REWARD_BPS / 10_000
  }

  /** What the first `n` miners' rates are due to user `u` of a pool, each rounded down. */
  function Due(ms: seq<Miner>, n: nat, total: nat, pool: nat, u: nat): nat
    requires n <= |ms| && total > 0
  {
    if n == 0 then 0
    else
      FloorGe(pool * ms[n - 1].playRate, total, 0);
      Due(ms, n - 1, total, pool, u) + (if ms[n - 1].user == u then pool * ms[n - 1].playRate / total else 0)
  }

  lemma {:induction false} DueIsShares(ms: seq<Miner>, n: nat, total: nat, pool: nat, u: nat)
    requires n <= |ms| && total > 0
    ensures Total(SharesOf(ms[..n], total, pool, u)) == Due(ms, n, total, pool, u)
  {
    if n == 0 {
      NoMiners(total, pool);
      assert ms[..0] == [];
    } else {
      DueIsShares(ms, n - 1, total, pool, u);
      OneMore(ms, n - 1, total, pool);
      ShareExactly(ms[n - 1].playRate, total, pool);
      FloorGe(pool * ms[n - 1].playRate, total, 0);
      DownIsFloor(pool * ms[n - 1].playRate, total);
      DownOnce(pool * ms[n - 1].playRate, total, BlockShare(ms[n - 1].playRate, total, pool), pool * ms[n - 1].playRate / total);
    }
  }

  /** A user takes its rates' parts of nine tenths of the block, and the tenth if it owns the winner. */
  lemma TakeExactly(ms: seq<Miner>, reward: nat, winner: nat, u: nat)
    requires winner < |ms| && TotalRate(ms) > 0
    ensures TakeOf(ms, reward, winner, u)
         == Due(ms, |ms|, TotalRate(ms), reward - reward / 10, u) + (if ms[winner].user == u then reward / 10 else 0)
  {
    BigRewardExactly(reward);
    DueIsShares(ms, |ms|, TotalRate(ms), reward - BigReward(reward), u);
    assert ms[..|ms|] == ms;
  }

  /** What a block mints: the floored shares and the big reward. */
  function Minted(ms: seq<Miner>, reward: nat): int {
    Total(Shares(ms, TotalRate(ms), reward - BigReward(reward))) + BigReward(reward)
  }

  lemma MintedWithinReward(ms: seq<Miner>, reward: nat)
    requires TotalRate(ms) > 0
    ensures 0 <= Minted(ms, reward) && reward - |ms| + 1 <= Minted(ms, reward) <= reward
  {
    SplitLosesUnderOneEach(ms, reward - BigReward(reward));
    SharesFloor(ms, TotalRate(ms), reward - BigReward(reward));
  }

  lemma NoMiners(total: nat, pool: nat)
    ensures Total(Shares([], total, pool)) == 0
    ensures forall u: nat :: Total(SharesOf([], total, pool, u)) == 0
  {
  }

  lemma OneMore(ms: seq<Miner>, i: nat, total: nat, pool: nat)
    requires i < |ms|
    ensures var share := BlockShare(ms[i].playRate, total, pool);
      && Total(Shares(ms[..i + 1], total, pool)) == Total(Shares(ms[..i], total, pool)) + share
      && forall u: nat :: Total(SharesOf(ms[..i + 1], total, pool, u)) ==
                          Total(SharesOf(ms[..i], total, pool, u)) + (if ms[i].user == u then share else 0)
  {
    hide BlockShare;
    var share := BlockShare(ms[i].playRate, total, pool);
    assert Shares(ms[..i + 1], total, pool) == Shares(ms[..i], total, pool) + [share];
    TotalAppend(Shares(ms[..i], total, pool), share);
    forall u: nat
      ensures Total(SharesOf(ms[..i + 1], total, pool, u)) ==
              Total(SharesOf(ms[..i], total, pool, u)) + (if ms[i].user == u then share else 0)
    {
      var mine := if ms[i].user == u then share else 0;
      assert SharesOf(ms[..i + 1], total, pool, u) == SharesOf(ms[..i], total, pool, u) + [mine];
      TotalAppend(SharesOf(ms[..i], total, pool, u), mine);
    }
  }

  // ------------------------------------------------------------ many blocks

  /** One block of a run: when its hour starts, and who mined in it. */
  datatype Block = Block(startMs: int, miners: seq<Miner>)

  function AfterBlock(emitted: nat, b: Block): (after: nat)
    ensures emitted <= after
  {
    var reward := BlockRewardAt(b.startMs, emitted);
    if reward == 0 || TotalRate(b.miners) == 0 then emitted
    else
      MintedWithinReward(b.miners, reward);
      emitted + Minted(b.miners, reward)
  }

  lemma BlockOutcome(emitted: nat, b: Block)
    requires emitted <= P2E_POOL
    ensures b.miners == [] ==> TotalRate(b.miners) == 0
    ensures var reward := BlockRewardAt(b.startMs, emitted);
      && emitted + reward <= P2E_POOL
      && if reward == 0 || TotalRate(b.miners) == 0 then AfterBlock(emitted, b) == emitted
         else
           var split := Total(Shares(b.miners, TotalRate(b.miners), reward - BigReward(reward)));
           && split >= 0 && AfterBlock(emitted, b) == emitted + split + BigReward(reward) <= emitted + reward
  {
    var reward := BlockRewardAt(b.startMs, emitted);
    hide BlockShare, BigReward;
    if TotalRate(b.miners) > 0 {
      MintedWithinReward(b.miners, reward);
      SharesFloor(b.miners, TotalRate(b.miners), reward - BigReward(reward));
    }
  }

  function AfterBlocks(emitted: nat, bs: seq<Block>): nat {
    if bs == [] then emitted else AfterBlock(AfterBlocks(emitted, bs[..|bs| - 1]), bs[|bs| - 1])
  }

  /** Whatever the block times, total emission never exceeds the pool. */
  lemma {:induction false} EmissionCapped(bs: seq<Block>)
    ensures AfterBlocks(0, bs) <= P2E_POOL
  {
    if bs != [] {
      var n := |bs| - 1;
      EmissionCapped(bs[..n]);
      var reward := BlockRewardAt(bs[n].startMs, AfterBlocks(0, bs[..n]));
      if TotalRate(bs[n].miners) > 0 {
        MintedWithinReward(bs[n].miners, reward);
      }
    }
  }

  /** One block an hour from genesis, with whatever miners. */
  predicate Hourly(bs: seq<Block>) {
    forall h | 0 <= h < |bs| :: bs[h].startMs == HourStart(h)
  }

  lemma {:induction false} HourlyWithinSchedule(bs: seq<Block>)
    requires Hourly(bs)
    ensures AfterBlocks(0, bs) <= Scheduled(|bs|)
  {
    if bs != [] {
      var n := |bs| - 1;
      HourlyWithinSchedule(bs[..n]);
      EraOfHour(n);
      var emitted := AfterBlocks(0, bs[..n]);
      var reward := BlockRewardAt(bs[n].startMs, emitted);
      if TotalRate(bs[n].miners) > 0 {
        MintedWithinReward(bs[n].miners, reward);
      }
    }
  }

  /** With one block an hour from genesis the clamp to the pool never cuts a subsidy. */
  lemma ClampNeverCuts(bs: seq<Block>)
    requires Hourly(bs)
    ensures BlockRewardAt(HourStart(|bs|), AfterBlocks(0, bs)) == SubsidyAt(HourStart(|bs|))
  {
    HourlyWithinSchedule(bs);
    EraOfHour(|bs|);
    ScheduleWithinPool(|bs| + 1);
  }

  // ------------------------------------------------------------ the hourly job

  /** Blocks are settled once per period; jobs for one period are serialized. */
  class BlockMiner {
    var emitted: nat
    var settled: set<nat>
    var balances: seq<int>

    constructor (users: nat)
      ensures emitted == 0 && settled == {} && balances == seq(users, _ => 0)
    {
      emitted := 0;
      settled := {};
      balances := seq(users, _ => 0);
    }

    /**
     * Mints one block: every miner's floored share, plus the big reward to the owner of
     * the ticket. The emission cursor moves by exactly what was credited.
     */
    method MineBlock(period: nat, startMs: int, miners: seq<Miner>, ticket: nat) returns (minted: nat, winner: nat)
      requires emitted <= P2E_POOL
      requires forall m <- miners :: m.user < |balances|
      requires TotalRate(miners) > 0 ==> ticket < TotalRate(miners)
      modifies this
      ensures settled == old(settled) + {period}
      ensures period in old(settled) ==> minted == 0 && emitted == old(emitted) && balances == old(balances)
      ensures period !in old(settled) ==>
        emitted == old(emitted) + minted == AfterBlock(old(emitted), Block(startMs, miners)) <= P2E_POOL
      ensures |balances| == |old(balances)| && Total(balances) == Total(old(balances)) + minted
      ensures BlockRewardAt(startMs, old(emitted)) == 0 || TotalRate(miners) == 0 ==> balances == old(balances)
      ensures period !in old(settled) && BlockRewardAt(startMs, old(emitted)) > 0 && TotalRate(miners) > 0 ==>
        && WeightedDraw.Owns(Rates(miners), winner, ticket)
        && forall u | 0 <= u < |balances| ::
             balances[u] == old(balances)[u] + TakeOf(miners, BlockRewardAt(startMs, old(emitted)), winner, u)
    {
      winner := 0;
      minted := 0;
      if period in settled {
        assert settled == settled + {period};
        return;
      }
      settled := settled + {period};
      BlockOutcome(emitted, Block(startMs, miners));
      hide AfterBlock, BlockRewardAt, TotalRate, BigReward, Shares, TakeOf;
      var reward := BlockRewardAt(startMs, emitted);
      var total := TotalRate(miners);
      if reward == 0 || total == 0 || |miners| == 0 {
        return;
      }
      minted, winner := Distribute(miners, total, reward, ticket);
      emitted := emitted + minted;
    }

    /** Credits the shares, then the big reward on top to the owner of the ticket. */
    method Distribute(miners: seq<Miner>, total: nat, reward: nat, ticket: nat) returns (minted: nat, winner: nat)
      requires 0 < total == TotalRate(miners) && ticket < total
      requires forall m <- miners :: m.user < |balances|
      modifies this`balances
      ensures minted == Total(Shares(miners, total, reward - BigReward(reward))) + BigReward(reward)
      ensures |balances| == |old(balances)| && Total(balances) == Total(old(balances)) + minted
      ensures WeightedDraw.Owns(Rates(miners), winner, ticket)
      ensures forall u | 0 <= u < |balances| :: balances[u] == old(balances)[u] + TakeOf(miners, reward, winner, u)
    {
      TotalRateIsTotal(miners);
      hide TotalRate, BigReward, Shares, SharesOf;
      var big := BigReward(reward);
      winner := WeightedDraw.WeightedWinnerIndex(ticket, Rates(miners));
      var sum := SplitPool(miners, total, reward - big);
      if big > 0 {
        Credit(miners[winner].user, big);
      }
      minted := sum + big;
    }

    /** The pro-rata half of a block; zero shares are skipped. */
    method SplitPool(miners: seq<Miner>, total: nat, pool: nat) returns (sum: nat)
      requires total > 0 && forall m <- miners :: m.user < |balances|
      modifies this`balances
      ensures sum == Total(Shares(miners, total, pool))
      ensures |balances| == |old(balances)| && Total(balances) == Total(old(balances)) + sum
      ensures forall u | 0 <= u < |balances| :: balances[u] == old(balances)[u] + Total(SharesOf(miners, total, pool, u))
    {
      hide BlockShare, Shares, SharesOf;
      NoMiners(total, pool);
      assert miners[..0] == [];
      sum := 0;
      for i := 0 to |miners|
        invariant sum == Total(Shares(miners[..i], total, pool))
        invariant |balances| == |old(balances)| && Total(balances) == Total(old(balances)) + sum
        invariant forall u | 0 <= u < |balances| ::
          balances[u] == old(balances)[u] + Total(SharesOf(miners[..i], total, pool, u))
      {
        var share := BlockShare(miners[i].playRate, total, pool);
        OneMore(miners, i, total, pool);
        if share > 0 {
          Credit(miners[i].user, share);
          sum := sum + share;
        }
      }
      assert miners[..|miners|] == miners;
    }

    method Credit(user: nat, amount: nat)
      requires user < |balances|
      modifies this`balances
      ensures balances == old(balances)[user := old(balances)[user] + amount]
      ensures Total(balances) == Total(old(balances)) + amount
    {
      ghost var was := balances;
      balances := balances[user := balances[user] + amount];
      TotalPoint(was, balances, user, amount);
    }
  }
}
