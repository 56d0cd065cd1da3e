/**
 * What each step of the economy moves, said without the steps' own formulas: whose balance, by how
 * much, and where a stake goes and comes back from.
 */
module EconomyMoves {
  import opened Wrappers
  import opened Sums
  import opened Economy

  // ---- Balances -------------------------------------------------------------------------

  function PrizesOf(entries: seq<Entry>, prizes: seq<nat>, u: UserId): nat
    requires |prizes| == |entries|
  {
    if entries == [] then 0
    else
      var n := |entries| - 1;
      PrizesOf(entries[..n], prizes[..n], u) + (if entries[n].user == u then prizes[n] else 0)
  }

  function To(u: UserId, v: UserId, n: int): int {
    if u == v then n else 0
  }

  function From(u: UserId, v: UserId, n: nat): int {
    var m: int := n;
    if u == v then -m else 0
  }

  /** What a step adds to (or takes from) an account's balance. */
  function Gain(s: State, a: Action, u: UserId): int
    requires Enabled(s, a) && u in s.players
  {
    match a
    case Wager(_, v, _, stake) => From(u, v, stake)
    case Double(_, seat, extra) => From(u, s.positions[seat].owner, extra)
    case RoundEnds(id, payout) => To(u, s.positions[id].owner, payout)
    case Settle(id, payout) => To(u, s.positions[id].owner, payout)
    case OpenFlip(_, v, stake) => From(u, v, stake)
    case JoinFlip(id, v) => From(u, v, s.flips[id].stake)
    case SettleFlip(id, creatorWins, payout) =>
      To(u, if creatorWins then s.flips[id].creator else s.flips[id].joiner.value, payout)
    case HouseFlip(id, payout) => To(u, s.flips[id].creator, payout)
    case CancelFlip(id) => To(u, s.flips[id].creator, s.flips[id].pot.lamports)
    case Enter(_, v, stake) => From(u, v, stake)
    case DrawRound(id, index, payout) => To(u, s.rounds[id].entries[index].user, payout)
    case ReturnEntry(id, index) =>
      To(u, s.rounds[id].entries[index].user, s.rounds[id].entries[index].stake)
    case BuyTicket(v, stake) => From(u, v, stake)
    case SettleDraw(prizes) => PrizesOf(s.draw.value.entries, prizes, u)
    case ClaimCommission(v) => To(u, v, s.players[u].commission.lamports)
    case Tip(v, amount) => From(u, v, amount)
    case Promote(v, amount) => To(u, v, amount)
    case Deposit(v, amount) =>
      if u != v then 0 else if s.players[u].funded then amount else amount - s.players[u].balance.lamports
    case Withdraw(v, amount) => From(u, v, amount)
    case ReturnWithdrawal(v, amount) => To(u, v, amount)
    case _ => 0
  }

  lemma {:induction false} PrizesPaid(players: map<UserId, Player>, entries: seq<Entry>, prizes: seq<nat>, pool: bool, u: UserId)
    requires |prizes| == |entries| && u in players && forall i | 0 <= i < |entries| :: entries[i].user in players
    ensures var p := PayAll(players, entries, prizes, pool)[u];
      && p.balance.lamports == players[u].balance.lamports + PrizesOf(entries, prizes, u)
      && p.commission == players[u].commission && p.tickets == players[u].tickets
    decreases |entries|
  {
    if entries != [] {
      PrizesPaid(players, entries[..|entries| - 1], prizes[..|entries| - 1], pool, u);
    }
  }

  ghost predicate JustGains(s: State, a: Action, t: State, u: UserId)
    requires Enabled(s, a) && u in s.players
  {
    && u in t.players
    && t.players[u].balance.lamports == s.players[u].balance.lamports + Gain(s, a, u)
    && t.players[u].commission == s.players[u].commission && t.players[u].funded == s.players[u].funded
    && t.players[u].tickets.lamports
       == s.players[u].tickets.lamports - (if a.UseFreeTicket? && a.user == u then a.volume else 0)
  }

  lemma StakeGains(s: State, a: Action, u: UserId)
    requires Enabled(s, a) && InGames(a) && u in s.players
    requires !a.OpenFlip? && !a.JoinFlip? && !a.SettleFlip? && !a.HouseFlip? && !a.CancelFlip?
    ensures JustGains(s, a, GameEffect(s, a), u)
  {
  }

  lemma FlipGains(s: State, a: Action, u: UserId)
    requires Enabled(s, a) && InGames(a) && u in s.players
    requires a.OpenFlip? || a.JoinFlip? || a.SettleFlip? || a.HouseFlip? || a.CancelFlip?
    ensures JustGains(s, a, GameEffect(s, a), u)
  {
  }

  lemma PotGains(s: State, a: Action, u: UserId)
    requires Enabled(s, a) && InPots(a) && u in s.players
    ensures JustGains(s, a, PotEffect(s, a), u)
  {
    hide PoolHoldsPlay, WinnerShare, PayAll, AnyPlay, Total;
    if a.SettleDraw? {
      DrawGains(s, a.prizes, u);
    }
  }

  lemma DrawGains(s: State, prizes: seq<nat>, u: UserId)
    requires Enabled(s, SettleDraw(prizes)) && u in s.players
    ensures JustGains(s, SettleDraw(prizes), PotEffect(s, SettleDraw(prizes)), u)
  {
    var d := s.draw.value;
    PrizesPaid(s.players, d.entries, prizes, PoolHoldsPlay(d), u);
    assert Funded(s.players, u) == Funded(PayAll(s.players, d.entries, prizes, PoolHoldsPlay(d)), u);
    hide PoolHoldsPlay, WinnerShare, PayAll, Total;
  }

  lemma MoneyGains(s: State, a: Action, u: UserId)
    requires Enabled(s, a) && !InGames(a) && !InPots(a) && u in s.players
    ensures u in MoneyEffect(s, a).players
    ensures MoneyEffect(s, a).players[u].balance.lamports == s.players[u].balance.lamports + Gain(s, a, u)
    ensures MoneyEffect(s, a).players[u].funded == (s.players[u].funded || (a.Deposit? && a.user == u))
    ensures var first := a.Deposit? && a.user == u && !s.players[u].funded;
      && MoneyEffect(s, a).players[u].commission.lamports ==
           (if first || (a.ClaimCommission? && a.user == u) then 0
            else s.players[u].commission.lamports + (if a.Accrue? && a.referrer == u then a.commission else 0))
      && MoneyEffect(s, a).players[u].tickets.lamports ==
           (if first then 0
            else s.players[u].tickets.lamports
                 + (if a.Accrue? && StakeOf(s, a.source).value.0 == u then a.volume else 0))
  {
    hide PoolHoldsPlay, OpenPlay, StakeOf;
  }

  /**
   * Every step: the accounts stay, each balance moves by just its gain, commission comes only from
   * an accrual and goes only by a claim or a first deposit, and only a deposit funds an account.
   */
  lemma BalancesMove(s: State, a: Action, u: UserId)
    requires Enabled(s, a) && u in s.players
    ensures var t := Step(s, a);
      && u in t.players
      && t.players[u].balance.lamports == s.players[u].balance.lamports + Gain(s, a, u)
      && t.players[u].funded == (s.players[u].funded || (a.Deposit? && a.user == u))
      && (!a.Accrue? && !a.ClaimCommission? && !a.Deposit? ==> t.players[u].commission == s.players[u].commission)
      && (!a.Accrue? && !a.UseFreeTicket? && !a.Deposit? ==>
            t.players[u].tickets.lamports == s.players[u].tickets.lamports)
      && (a.UseFreeTicket? && a.user == u ==> t.players[u].tickets.lamports == s.players[u].tickets.lamports - a.volume)
  {
    if InGames(a) {
      if a.OpenFlip? || a.JoinFlip? || a.SettleFlip? || a.HouseFlip? || a.CancelFlip? {
        FlipGains(s, a, u);
      } else {
        StakeGains(s, a, u);
      }
    } else if InPots(a) {
      PotGains(s, a, u);
    } else {
      MoneyGains(s, a, u);
      if !a.Accrue? && !a.ClaimCommission? && !a.Deposit? {
        MoneyKeepsCommission(s, a, u);
      }
    }
    hide GameEffect, PotEffect, MoneyEffect, Gain, Enabled;
  }

  lemma MoneyKeepsCommission(s: State, a: Action, u: UserId)
    requires Enabled(s, a) && !InGames(a) && !InPots(a) && u in s.players
    requires !a.Accrue? && !a.ClaimCommission? && !a.Deposit?
    ensures u in MoneyEffect(s, a).players && MoneyEffect(s, a).players[u].commission == s.players[u].commission
  {
    hide PoolHoldsPlay, OpenPlay, StakeOf;
  }

  /** Custody pays out what leaves balances by withdrawal and takes back what is returned; nothing else does. */
  lemma WithdrawnMoves(s: State, a: Action)
    requires Enabled(s, a)
    ensures Step(s, a).withdrawn.lamports
         == s.withdrawn.lamports + (if a.Withdraw? then a.amount else 0) - (if a.ReturnWithdrawal? then a.amount else 0)
    ensures Step(s, a).pool == s.pool + (if a.Tip? then a.amount else 0)
    ensures Step(s, a).custodyOn == (if a.EnableCustody? then true else if a.DisableCustody? then false else s.custodyOn)
  {
    if InGames(a) {
      GamesLeaveTotals(s, a);
    } else if InPots(a) {
      PotsLeaveTotals(s, a);
    } else {
      hide StakeOf, OpenPlay;
    }
  }

  lemma GamesLeaveTotals(s: State, a: Action)
    requires Enabled(s, a) && InGames(a)
    ensures var t := GameEffect(s, a); t.withdrawn == s.withdrawn && t.pool == s.pool && t.custodyOn == s.custodyOn
  {
    hide Marked, SameEconomy, DepositedOnly;
  }

  lemma PotsLeaveTotals(s: State, a: Action)
    requires Enabled(s, a) && InPots(a)
    ensures var t := PotEffect(s, a); t.withdrawn == s.withdrawn && t.pool == s.pool && t.custodyOn == s.custodyOn
  {
    hide PayAll, PoolHoldsPlay, WinnerShare, Total, PooledEntry, AnyPlay, Marked;
  }

  // ---- Stakes that come back ------------------------------------------------------------

  /** The balance as it was, but for a mark the stake may have had. */
  function Same(p: Player, n: nat): Player {
    p.(balance := Purse(p.balance.lamports, p.balance.play || (Marked(p) && n > 0)))
  }

  lemma WagerAndBack(s: State, id: Id, u: UserId, game: Game, n: nat)
    requires Enabled(s, Wager(id, u, game, n))
    ensures var t := Step(s, Wager(id, u, game, n));
      && id in t.positions && t.positions[id].owner == u && t.positions[id].game == game
      && t.positions[id].stake.lamports == n
      && Step(t, Settle(id, n)) == s.(players := s.players[u := Same(s.players[u], n)])
  {
    var t := Step(s, Wager(id, u, game, n));
    assert t.positions - {id} == s.positions;
    assert Enabled(t, Settle(id, n));
    hide Enabled;
  }

  /** The doubled part of a blackjack stake is a stake of its own, and comes back the same way. */
  lemma DoubleAndBack(s: State, id: Id, seat: Id, n: nat)
    requires Enabled(s, Double(id, seat, n))
    ensures var t := Step(s, Double(id, seat, n));
      var u := s.positions[seat].owner;
      && id in t.positions && t.positions[id].owner == u && t.positions[id].stake.lamports == n
      && Step(t, Settle(id, n)) == s.(players := s.players[u := Same(s.players[u], n)])
  {
    var t := Step(s, Double(id, seat, n));
    assert t.positions - {id} == s.positions;
    assert Enabled(t, Settle(id, n));
    hide Enabled;
  }

  lemma FlipAndBack(s: State, id: Id, u: UserId, n: nat)
    requires Enabled(s, OpenFlip(id, u, n))
    ensures Step(Step(s, OpenFlip(id, u, n)), CancelFlip(id)) == s.(players := s.players[u := Same(s.players[u], n)])
  {
    var t := Step(s, OpenFlip(id, u, n));
    assert t.flips - {id} == s.flips;
    assert Enabled(t, CancelFlip(id));
    hide Enabled;
  }

  lemma EntryAndBack(s: State, id: Id, u: UserId, n: nat)
    requires Enabled(s, Enter(id, u, n))
    ensures Step(Step(s, Enter(id, u, n)), ReturnEntry(id, |s.rounds[id].entries|))
         == s.(players := s.players[u := Same(s.players[u], n)])
  {
    var t := Step(s, Enter(id, u, n));
    var entries, k := t.rounds[id].entries, |s.rounds[id].entries|;
    assert entries[..k] + entries[k + 1..] == s.rounds[id].entries;
    assert t.rounds[id := s.rounds[id]] == s.rounds;
    assert Enabled(t, ReturnEntry(id, k));
    hide Enabled, PooledEntry;
  }

  /** A joined flip holds both stakes, and a settled one pays one side and is gone. */
  lemma FlipHolds(s: State, id: Id, u: UserId, creatorWins: bool, payout: nat)
    requires Enabled(s, JoinFlip(id, u)) && s.flips[id].creator in s.players
    ensures var t := Step(s, JoinFlip(id, u));
      && t.flips == s.flips[id := s.flips[id].(joiner := Some(u), pot := t.flips[id].pot)]
      && t.flips[id].pot.lamports == s.flips[id].pot.lamports + s.flips[id].stake
      && Step(t, SettleFlip(id, creatorWins, payout)).flips == s.flips - {id}
  {
    var t := Step(s, JoinFlip(id, u));
    assert t.flips - {id} == s.flips - {id};
  }

  // ---- The lottery's pool ---------------------------------------------------------------

  lemma StakesAppend(entries: seq<Entry>, e: Entry)
    ensures Total(Stakes(entries + [e])) == Total(Stakes(entries)) + e.stake
  {
    assert Stakes(entries + [e]) == Stakes(entries) + [e.stake];
    TotalAppend(Stakes(entries), e.stake);
  }

  /** A bought ticket's price goes into the pool; a free one's is nothing. */
  lemma TicketFillsPool(s: State, a: Action)
    requires Enabled(s, a) && (a.BuyTicket? || a.UseFreeTicket?)
    ensures Step(s, a).draw.Some?
    ensures Pool(Step(s, a).draw.value) == Pool(s.draw.value) + (if a.BuyTicket? then a.stake else 0)
    ensures |Step(s, a).draw.value.entries| == |s.draw.value.entries| + 1
    ensures Step(s, a).draw.value.entries[|s.draw.value.entries|].user == a.user
  {
    var d, t := s.draw.value, Step(s, a);
    var e := t.draw.value.entries[|d.entries|];
    assert t.draw.value.entries == d.entries + [e];
    StakesAppend(d.entries, e);
    hide Total, Stakes, PooledEntry;
  }

  /** A draw opens over the house's injection and everything carried, and leaves nothing carried. */
  lemma DrawOpensOverCarry(s: State, injection: nat)
    requires Enabled(s, OpenDraw(injection))
    ensures var t := Step(s, OpenDraw(injection));
      t.draw.Some? && Pool(t.draw.value) == injection + s.carry.lamports && t.carry == EMPTY
  {
    AllZero(Stakes([]));
  }

  /** A settled draw's pool is burned, paid and carried, to the lamport: a fifth rounded down, the prizes, the rest. */
  lemma DrawConserves(s: State, prizes: seq<nat>)
    requires Enabled(s, SettleDraw(prizes)) && Pool(s.draw.value) >= 0
    ensures var pool := Pool(s.draw.value);
      var t := Step(s, SettleDraw(prizes));
      && t.draw == None
      && exists burned: nat :: burned * 5 <= pool < burned * 5 + 5 && burned + Total(prizes) + t.carry.lamports == pool
  {
    var pool := Pool(s.draw.value);
    var t := Step(s, SettleDraw(prizes));
    var burned: nat := pool * BURN_BPS / 10_000;
    assert burned * 5 <= pool < burned * 5 + 5;
    hide Pool, PoolHoldsPlay, Total, PayAll, Enabled;
    assert burned + Total(prizes) + t.carry.lamports == pool;
  }

  // ---- The rules, by who may do what ----------------------------------------------------

  predicate AllDeposited(s: State, entries: seq<Entry>) {
    forall i | 0 <= i < |entries| :: Funded(s.players, entries[i].user)
  }

  predicate HasMoney(s: State, u: UserId, n: nat) {
    u in s.players && 0 < n && n <= s.players[u].balance.lamports
  }

  /** While custody is on, blackjack is for deposited accounts and every other single-player game for everyone. */
  lemma GameRules(s: State, id: Id, u: UserId, n: nat)
    requires s.custodyOn
    ensures forall game :: Enabled(s, Wager(id, u, game, n)) <==>
              id !in s.positions && HasMoney(s, u, n) && (game == Blackjack ==> Funded(s.players, u))
  {
  }

  /** The jackpot and the lottery are for deposited accounts, while no play account's entry is in. */
  lemma PoolRules(s: State, id: Id, u: UserId, n: nat)
    requires s.custodyOn
    ensures id in s.rounds ==>
      (Enabled(s, Enter(id, u, n)) <==> HasMoney(s, u, n) && Funded(s.players, u) && AllDeposited(s, s.rounds[id].entries))
    ensures s.draw.Some? ==>
      (Enabled(s, BuyTicket(u, n)) <==> HasMoney(s, u, n) && Funded(s.players, u) && AllDeposited(s, s.draw.value.entries))
  {
  }

  /** A flip is joined, and commission earned, only within one economy. */
  lemma PairRules(s: State, id: Id, u: UserId, n: nat)
    requires s.custodyOn && n > 0
    ensures id in s.flips && s.flips[id].joiner.None? ==>
      (Enabled(s, JoinFlip(id, u)) <==>
        HasMoney(s, u, s.flips[id].stake) && Funded(s.players, s.flips[id].creator) == Funded(s.players, u))
    ensures id in s.positions && s.positions[id].owner in s.players && u in s.players ==>
      (Enabled(s, Accrue(OfPosition(id), 0, u, n)) <==> Funded(s.players, u) == Funded(s.players, s.positions[id].owner))
  {
  }

  /**
   * Tips and promotions are for play accounts and withdrawals for deposited ones, and a first
   * deposit waits exactly for the stakes that can be seen.
   */
  lemma MoneyRules(s: State, u: UserId, n: nat)
    requires s.custodyOn
    ensures Enabled(s, Tip(u, n)) <==> HasMoney(s, u, n) && !Funded(s.players, u)
    ensures Enabled(s, Promote(u, n)) <==> u in s.players && !Funded(s.players, u)
    ensures u in s.players ==> (Enabled(s, Deposit(u, n)) <==> Funded(s.players, u) || !OpenPlay(s, u))
    ensures Enabled(s, Withdraw(u, n)) <==> HasMoney(s, u, n) && Funded(s.players, u)
  {
    hide OpenPlay;
  }

  /** While it is off, nobody is asked which kind of account it is, and nothing is deposited or withdrawn. */
  lemma RulesOff(s: State, id: Id, u: UserId, n: nat)
    requires !s.custodyOn
    ensures forall game :: Enabled(s, Wager(id, u, game, n)) <==> id !in s.positions && HasMoney(s, u, n)
    ensures id in s.rounds ==> (Enabled(s, Enter(id, u, n)) <==> HasMoney(s, u, n))
    ensures s.draw.Some? ==> (Enabled(s, BuyTicket(u, n)) <==> HasMoney(s, u, n))
    ensures !Enabled(s, Deposit(u, n)) && !Enabled(s, Withdraw(u, n))
  {
  }
}
