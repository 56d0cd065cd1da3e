/**
 * When a step is safe. One is unsafe when some run after it, of safe steps only, ends in a
 * withdrawal of play money; the conditions on switching custody off and on and on the end of a
 * crash round are exact, and every other step is safe.
 */
module EconomySafety {
  import opened Wrappers
  import opened Sums
  import opened Economy

  ghost predicate Leaks(s: State, rest: seq<Action>) {
    Disciplined(s, rest) && Exec(s, rest).withdrawn.play
  }

  /** Some run of safe steps from here withdraws play money. */
  ghost predicate Leaky(s: State) {
    exists rest :: Leaks(s, rest)
  }

  /** A step with no condition on it. */
  predicate Free(a: Action) {
    !a.EnableCustody? && !a.DisableCustody? && !a.RoundEnds?
  }

  lemma LeakyNow(s: State)
    requires s.withdrawn.play
    ensures Leaky(s)
  {
    assert Leaks(s, []);
  }

  lemma LeakyBefore(s: State, a: Action)
    requires Leaky(Step(s, a)) && (Free(a) || (a.EnableCustody? && !ExposedPlay(s) && !LotteryHoldsPlay(s)))
    ensures Leaky(s)
  {
    assert Safe(s, a);
    hide Step, Safe;
    var rest :| Leaks(Step(s, a), rest);
    assert ([a] + rest)[1..] == rest;
    assert Leaks(s, [a] + rest);
  }

  lemma NotLeaky(s: State)
    requires Inv(s)
    ensures !Leaky(s)
  {
    hide Step, Inv, Safe;
    forall rest | Disciplined(s, rest) ensures !Exec(s, rest).withdrawn.play {
      ExecKeepsInv(s, rest);
      assert Inv(Exec(s, rest)) ==> !Exec(s, rest).withdrawn.play by {
        InvIsClean(Exec(s, rest));
      }
    }
  }

  lemma InvIsClean(s: State)
    ensures Inv(s) ==> !s.withdrawn.play
  {
  }

  // ---- Single steps ---------------------------------------------------------------------

  lemma SwitchSteps(s: State)
    ensures Step(s, DisableCustody) == s.(custodyOn := false) && Step(s, EnableCustody) == s.(custodyOn := true)
  {
  }

  lemma PromoteStep(s: State, u: UserId, amount: nat)
    requires u in s.players && PlayOnly(s, u)
    ensures Step(s, Promote(u, amount)) == Pay(s, u, amount, true)
  {
  }

  lemma DepositStep(s: State, u: UserId, amount: nat)
    requires s.custodyOn && u in s.players && !OpenPlay(s, u)
    ensures Step(s, Deposit(u, amount)) == Pay(s.(players := s.players[u := Converted(s.players[u])]), u, amount, false)
  {
  }

  lemma SettleStep(s: State, id: Id, payout: nat)
    requires id in s.positions && s.positions[id].owner in s.players && (s.positions[id].phase.Paid? ==> payout == 0)
    ensures Step(s, Settle(id, payout))
         == Pay(s, s.positions[id].owner, payout, s.positions[id].stake.play).(positions := s.positions - {id})
  {
  }

  lemma WithdrawLeaks(s: State, u: UserId)
    requires s.custodyOn && Funded(s.players, u) && s.players[u].balance.play && s.players[u].balance.lamports > 0
    ensures Leaky(s)
  {
    assert Step(s, Withdraw(u, 1)).withdrawn.play;
    hide Step;
    LeakyNow(Step(s, Withdraw(u, 1)));
    LeakyBefore(s, Withdraw(u, 1));
  }

  // ---- Switching off --------------------------------------------------------------------

  /**
   * Switching custody off is safe exactly while no account is funded: with one, a promotion paid
   * while it is off, and everything back on, ends in a withdrawal of play money.
   */
  lemma SwitchingOffExactly(s: State)
    requires Inv(s) && s.custodyOn
    ensures SomeoneFunded(s) <==> Leaky(Step(s, DisableCustody))
  {
    if SomeoneFunded(s) {
      var u :| u in s.players && s.players[u].funded;
      OffThenOnLeaks(s, u);
    } else {
      StepKeepsInv(s, DisableCustody);
      NotLeaky(Step(s, DisableCustody));
    }
  }

  lemma OffThenOnLeaks(s: State, u: UserId)
    requires Inv(s) && s.custodyOn && Funded(s.players, u)
    ensures Leaky(Step(s, DisableCustody))
  {
    var off := s.(custodyOn := false);
    OnAlready(s);
    ExposureStays(s, off);
    var paid := Pay(off, u, 1, true);
    hide Step, Inv;
    SwitchSteps(s);
    PromoteStep(off, u, 1);
    ExposureStays(off, paid);
    SwitchSteps(paid);
    WithdrawLeaks(paid.(custodyOn := true), u);
    hide Pay, ExposedPlay, Leaky;
    LeakyBefore(paid, EnableCustody);
    LeakyBefore(off, Promote(u, 1));
  }

  lemma OnAlready(s: State)
    requires Inv(s)
    ensures s.custodyOn ==> !ExposedPlay(s) && !LotteryHoldsPlay(s)
  {
    assert forall id | id in s.positions :: PositionOk(s.players, s.custodyOn, s.positions[id]);
    hide PoolHoldsPlay, Exposed;
  }

  lemma ExposureStays(s: State, t: State)
    requires t.positions == s.positions && t.draw == s.draw && t.carry == s.carry
    requires !ExposedPlay(s) && !LotteryHoldsPlay(s) && SameSides(s.players, t.players)
    ensures !ExposedPlay(t) && !LotteryHoldsPlay(t)
  {
    hide Funded, PoolHoldsPlay;
  }

  // ---- Switching on: everyone who has something riding has an account -------------------

  /** Everyone with a stake anywhere has an account: what settling needs. */
  ghost predicate Enrolled(s: State) {
    && (forall id | id in s.positions :: s.positions[id].owner in s.players)
    && (forall id | id in s.flips :: s.flips[id].creator in s.players)
    && (forall id | id in s.flips && s.flips[id].joiner.Some? :: s.flips[id].joiner.value in s.players)
    && (forall id | id in s.rounds :: EntrantsEnrolled(s.players.Keys, s.rounds[id].entries))
    && (s.draw.Some? ==> EntrantsEnrolled(s.players.Keys, s.draw.value.entries))
  }

  ghost predicate EntrantsEnrolled(users: set<UserId>, entries: seq<Entry>) {
    forall i | 0 <= i < |entries| :: entries[i].user in users
  }

  lemma InvEnrolled(s: State)
    requires Inv(s)
    ensures Enrolled(s)
  {
    forall id | id in s.positions ensures s.positions[id].owner in s.players {
      assert PositionOk(s.players, s.custodyOn, s.positions[id]);
    }
    forall id | id in s.flips
      ensures s.flips[id].creator in s.players
      ensures s.flips[id].joiner.Some? ==> s.flips[id].joiner.value in s.players
    {
      assert FlipOk(s.players, s.flips[id]);
    }
    forall id | id in s.rounds ensures EntrantsEnrolled(s.players.Keys, s.rounds[id].entries) {
      EntriesEnrolled(s.players, s.rounds[id].entries);
    }
    if s.draw.Some? {
      EntriesEnrolled(s.players, s.draw.value.entries);
    }
  }

  lemma EntriesEnrolled(players: map<UserId, Player>, entries: seq<Entry>)
    requires EntriesOk(players, entries)
    ensures EntrantsEnrolled(players.Keys, entries)
  {
    assert forall i | 0 <= i < |entries| :: EntryOk(players, entries[i]);
  }

  // ---- Switching on over the lottery ----------------------------------------------------

  lemma {:induction false} FreshUser(users: set<UserId>) returns (u: UserId)
    ensures forall v | v in users :: v < u
    decreases |users|
  {
    if users == {} {
      u := 0;
    } else {
      var v :| v in users;
      var w := FreshUser(users - {v});
      u := if v < w then w else v + 1;
      assert forall x | x in users :: x == v || x in users - {v};
    }
  }

  function Nothing(n: nat): (prizes: seq<nat>)
    ensures |prizes| == n && forall i | 0 <= i < n :: prizes[i] == 0
  {
    seq(n, _ => 0)
  }

  lemma PoolIsWhole(d: Draw)
    ensures 0 <= Pool(d) && 0 <= WinnerShare(d) && (Pool(d) > 0 ==> WinnerShare(d) > 0)
    ensures d.carried.lamports <= Pool(d)
  {
    TotalNonNegative(Stakes(d.entries));
  }

  lemma PlayPoolPays(d: Draw)
    requires PoolHoldsPlay(d) && PurseOk(d.carried)
    ensures WinnerShare(d) > 0
  {
    PoolIsWhole(d);
    if !d.carried.play {
      var i :| 0 <= i < |d.entries| && PlayStake(d.entries[i]);
      TotalCovers(Stakes(d.entries), i);
    }
  }

  /** A draw nobody wins carries everything but the burn on. */
  lemma NobodyWinsStep(s: State)
    requires s.draw.Some? && EntrantsEnrolled(s.players.Keys, s.draw.value.entries)
    ensures var d := s.draw.value;
      var prizes := Nothing(|d.entries|);
      && WinnerShare(d) >= 0
      && Step(s, SettleDraw(prizes)).draw == None
      && Step(s, SettleDraw(prizes)).carry == EMPTY.Add(WinnerShare(d), PoolHoldsPlay(d))
      && Step(s, SettleDraw(prizes)) == s.(players := Step(s, SettleDraw(prizes)).players, draw := None,
                                           carry := EMPTY.Add(WinnerShare(d), PoolHoldsPlay(d)))
      && Step(s, SettleDraw(prizes)).players.Keys == s.players.Keys
      && forall u :: Funded(Step(s, SettleDraw(prizes)).players, u) == Funded(s.players, u)
  {
    var d := s.draw.value;
    AllZero(Nothing(|d.entries|));
    PoolIsWhole(d);
    hide PoolHoldsPlay, WinnerShare, Total;
    assert Enabled(s, SettleDraw(Nothing(|d.entries|)));
  }

  lemma OpenDrawStep(s: State)
    requires s.draw.None?
    ensures Step(s, OpenDraw(0)) == s.(draw := Some(Draw(0, s.carry, [])), carry := EMPTY)
  {
  }

  lemma SignUpStep(s: State, u: UserId)
    requires u !in s.players
    ensures Step(s, SignUp(u, 0)) == s.(players := s.players[u := Player(false, Purse(0, true), EMPTY, EMPTY)])
  {
  }

  lemma BuyStep(s: State, u: UserId)
    requires s.draw.Some? && s.draw.value.entries == [] && Funded(s.players, u) && CanPay(s, u, 1)
    ensures Step(s, BuyTicket(u, 1))
         == Debit(s, u, 1).(draw := Some(s.draw.value.(entries := [Entry(u, 1, Marked(s.players[u]))])))
  {
    var e := Entry(u, 1, Marked(s.players[u]));
    assert [] + [e] == [e];
    assert Enabled(s, BuyTicket(u, 1));
  }

  /** The only entrant of a draw wins what a draw may pay. */
  lemma SoleWinnerStep(s: State, u: UserId)
    requires s.draw.Some? && |s.draw.value.entries| == 1 && s.draw.value.entries[0].user == u && u in s.players
    requires WinnerShare(s.draw.value) > 0 && PoolHoldsPlay(s.draw.value)
    ensures var t := Step(s, SettleDraw([WinnerShare(s.draw.value)]));
      && t.custodyOn == s.custodyOn && Funded(t.players, u) == Funded(s.players, u) && u in t.players
      && t.players[u].balance.play && t.players[u].balance.lamports > 0
  {
    var d := s.draw.value;
    var prizes: seq<nat> := [WinnerShare(d)];
    assert Total(prizes) == WinnerShare(d) by {
      TotalAppend([], WinnerShare(d));
      assert [] + [WinnerShare(d)] == prizes;
    }
    hide PoolHoldsPlay, WinnerShare, Total;
    assert Enabled(s, SettleDraw(prizes));
    assert PayAll(s.players, d.entries[..0], prizes[..0], true) == s.players;
  }

  lemma SoleEntrantLeaks(s: State, u: UserId)
    requires s.custodyOn && Funded(s.players, u) && s.draw.Some?
    requires |s.draw.value.entries| == 1 && s.draw.value.entries[0].user == u
    requires PoolHoldsPlay(s.draw.value) && PurseOk(s.draw.value.carried)
    ensures Leaky(s)
  {
    var d := s.draw.value;
    PlayPoolPays(d);
    SoleWinnerStep(s, u);
    hide Step, WinnerShare, PoolHoldsPlay, Leaky;
    WithdrawLeaks(Step(s, SettleDraw([WinnerShare(d)])), u);
    LeakyBefore(s, SettleDraw([WinnerShare(d)]));
  }

  lemma DepositorLeaks(s: State, u: UserId)
    requires s.custodyOn && Funded(s.players, u) && CanPay(s, u, 1) && s.draw.Some?
    requires s.draw.value.entries == [] && s.draw.value.carried.play && PurseOk(s.draw.value.carried)
    ensures Leaky(s)
  {
    BuyStep(s, u);
    hide Step, Leaky;
    SoleEntrantLeaks(Step(s, BuyTicket(u, 1)), u);
    LeakyBefore(s, BuyTicket(u, 1));
  }

  lemma NewcomerLeaks(s: State, u: UserId)
    requires s.custodyOn && u in s.players && !OpenPlay(s, u) && s.draw.Some?
    requires s.draw.value.entries == [] && s.draw.value.carried.play && PurseOk(s.draw.value.carried)
    ensures Leaky(s)
  {
    DepositStep(s, u, 1);
    hide Step, Leaky, OpenPlay;
    DepositorLeaks(Step(s, Deposit(u, 1)), u);
    LeakyBefore(s, Deposit(u, 1));
  }

  /** Play money carried to the next draw: a new account deposits, enters alone, wins and withdraws it. */
  lemma CarryLeaks(s: State)
    requires s.custodyOn && s.draw.None? && s.carry.play && PurseOk(s.carry) && Enrolled(s)
    ensures Leaky(s)
  {
    var u := FreshUser(s.players.Keys);
    assert u !in s.players;
    OpenDrawStep(s);
    var ready := Step(s, OpenDraw(0));
    SignUpStep(ready, u);
    hide Step, Leaky;
    var joined := Step(ready, SignUp(u, 0));
    assert !OpenPlay(joined, u);
    NewcomerLeaks(joined, u);
    LeakyBefore(ready, SignUp(u, 0));
    LeakyBefore(s, OpenDraw(0));
  }

  /** Play money in the open draw: nobody wins it, and it is carried on. */
  lemma DrawLeaks(s: State)
    requires s.custodyOn && s.draw.Some? && PoolHoldsPlay(s.draw.value) && PurseOk(s.draw.value.carried) && Enrolled(s)
    ensures Leaky(s)
  {
    var d := s.draw.value;
    var prizes := Nothing(|d.entries|);
    PlayPoolPays(d);
    NobodyWinsStep(s);
    var t := Step(s, SettleDraw(prizes));
    assert Enrolled(t);
    hide Step, PoolHoldsPlay, WinnerShare, Leaky, Enrolled;
    CarryLeaks(t);
    LeakyBefore(s, SettleDraw(prizes));
  }

  /**
   * Without a word about the lottery the discipline is not enough: play accounts buy into a draw,
   * nobody wins, and custody is switched on over the next one, which nobody has entered.
   */
  lemma RolloverLeaks(s: State)
    requires Initial(s) && !s.custodyOn
    ensures var t := Exec(s, [SignUp(0, 1), OpenDraw(0), BuyTicket(0, 1), SettleDraw([0]), OpenDraw(0)]);
      && !t.custodyOn && !ExposedPlay(t) && t.positions == map[] && t.flips == map[] && t.rounds == map[]
      && t.draw.Some? && t.draw.value.entries == []
      && Leaky(Step(t, EnableCustody))
  {
    var d := Draw(0, EMPTY, [Entry(0, 1, true)]);
    var s3 := Step(Step(Step(s, SignUp(0, 1)), OpenDraw(0)), BuyTicket(0, 1));
    FirstTicket(s);
    assert PlayStake(d.entries[0]);
    assert Nothing(1) == [0];
    NobodyWinsStep(s3);
    PlayPoolPays(d);
    hide Step, Exec, WinnerShare, PlayStake, Leaky;
    var s4 := Step(s3, SettleDraw([0]));
    OpenDrawStep(s4);
    var t := Step(s4, OpenDraw(0));
    FiveSteps(s, SignUp(0, 1), OpenDraw(0), BuyTicket(0, 1), SettleDraw([0]), OpenDraw(0));
    SwitchSteps(t);
    DrawLeaks(t.(custodyOn := true));
  }

  lemma FirstTicket(s: State)
    requires Initial(s) && !s.custodyOn
    ensures Step(Step(Step(s, SignUp(0, 1)), OpenDraw(0)), BuyTicket(0, 1))
         == s.(players := map[0 := Player(false, Purse(0, true), EMPTY, EMPTY)],
               draw := Some(Draw(0, EMPTY, [Entry(0, 1, true)])))
  {
    var s1 := s.(players := map[0 := Player(false, Purse(1, true), EMPTY, EMPTY)]);
    assert Step(s, SignUp(0, 1)) == s1;
    OpenDrawStep(s1);
    var s2 := s1.(draw := Some(Draw(0, EMPTY, [])));
    assert Step(s1, OpenDraw(0)) == s2;
    assert [] + [Entry(0, 1, true)] == [Entry(0, 1, true)];
    assert Enabled(s2, BuyTicket(0, 1));
  }

  lemma FiveSteps(s: State, a: Action, b: Action, c: Action, d: Action, e: Action)
    ensures Exec(s, [a, b, c, d, e]) == Step(Step(Step(Step(Step(s, a), b), c), d), e)
  {
    hide Step;
    assert [a, b, c, d, e][1..] == [b, c, d, e] && [b, c, d, e][1..] == [c, d, e];
    assert [c, d, e][1..] == [d, e] && [d, e][1..] == [e] && [e][1..] == [];
    var s2 := Step(Step(s, a), b);
    assert Exec(s, [a, b, c, d, e]) == Exec(s2, [c, d, e]);
    assert Exec(s2, [c, d, e]) == Exec(Step(Step(s2, c), d), [e]);
  }

  // ---- A play stake out of sight --------------------------------------------------------

  /** With custody on, a play account's stake that the database does not show. */
  ghost predicate Hidden(s: State, id: Id) {
    && s.custodyOn && Enrolled(s) && id in s.positions && !Visible(s.positions[id]) && s.positions[id].stake.play
    && !Funded(s.players, s.positions[id].owner)
  }

  /** The same accounts on the same sides, and no more riding than before. */
  ghost predicate Fewer(s: State, t: State) {
    && t.custodyOn == s.custodyOn && t.players.Keys == s.players.Keys
    && (forall u :: Funded(t.players, u) == Funded(s.players, u))
    && (forall id | id in t.positions :: id in s.positions && t.positions[id] == s.positions[id])
    && (forall id | id in t.flips :: id in s.flips && t.flips[id] == s.flips[id])
    && (forall id | id in t.rounds :: id in s.rounds && t.rounds[id] == s.rounds[id])
    && (t.draw.Some? ==> t.draw == s.draw)
  }

  lemma HiddenStays(s: State, t: State, id: Id)
    requires Hidden(s, id) && Fewer(s, t) && id in t.positions
    ensures Hidden(t, id)
  {
    hide Funded;
  }

  function Riding(s: State): nat {
    |s.positions| + |s.flips| + |s.rounds| + (if s.draw.Some? then 1 else 0)
  }

  lemma OneLess<K, V>(m: map<K, V>, k: K)
    requires k in m
    ensures |m - {k}| == |m| - 1
  {
    assert (m - {k}).Keys == m.Keys - {k};
    assert |m - {k}| == |(m - {k}).Keys| && |m| == |m.Keys|;
  }

  lemma ClearPosition(s: State, id: Id)
    requires Enrolled(s) && id in s.positions && Visible(s.positions[id])
    ensures var t := Step(s, Settle(id, 0)); Fewer(s, t) && Riding(t) < Riding(s) && t.positions == s.positions - {id}
  {
    SettleStep(s, id, 0);
    OneLess(s.positions, id);
    hide Step;
  }

  lemma SettleFlipStep(s: State, id: Id)
    requires Enrolled(s) && id in s.flips && s.flips[id].joiner.Some?
    ensures Step(s, SettleFlip(id, true, 0)) == Pay(s, s.flips[id].creator, 0, s.flips[id].pot.play).(flips := s.flips - {id})
  {
  }

  lemma CancelFlipStep(s: State, id: Id)
    requires Enrolled(s) && id in s.flips && s.flips[id].joiner.None?
    ensures var f := s.flips[id];
      Step(s, CancelFlip(id)) == Pay(s, f.creator, f.pot.lamports, f.pot.play).(flips := s.flips - {id})
  {
  }

  lemma FlipGone(s: State, id: Id, to: UserId, amount: nat, marked: bool)
    requires to in s.players && id in s.flips
    ensures var t := Pay(s, to, amount, marked).(flips := s.flips - {id});
      Fewer(s, t) && Riding(t) < Riding(s) && t.positions == s.positions
  {
    OneLess(s.flips, id);
  }

  lemma ClearFlip(s: State, id: Id) returns (a: Action)
    requires Enrolled(s) && id in s.flips
    ensures Free(a)
    ensures var t := Step(s, a); Fewer(s, t) && Riding(t) < Riding(s) && t.positions == s.positions
  {
    var f := s.flips[id];
    assert f.creator in s.players;
    hide Step, Enrolled, Fewer, Riding, Pay;
    if f.joiner.Some? {
      a := SettleFlip(id, true, 0);
      SettleFlipStep(s, id);
      FlipGone(s, id, f.creator, 0, f.pot.play);
    } else {
      a := CancelFlip(id);
      CancelFlipStep(s, id);
      FlipGone(s, id, f.creator, f.pot.lamports, f.pot.play);
    }
  }

  lemma DrawRoundStep(s: State, id: Id, index: nat)
    requires Enrolled(s) && id in s.rounds && index < |s.rounds[id].entries|
    ensures var entries := s.rounds[id].entries;
      && entries[index].user in s.players
      && Step(s, DrawRound(id, index, 0)) == Pay(s, entries[index].user, 0, AnyPlay(entries)).(rounds := s.rounds - {id})
  {
    assert EntrantsEnrolled(s.players.Keys, s.rounds[id].entries);
    hide AnyPlay;
  }

  lemma RoundGone(s: State, id: Id, to: UserId, marked: bool)
    requires to in s.players && id in s.rounds
    ensures var t := Pay(s, to, 0, marked).(rounds := s.rounds - {id});
      Fewer(s, t) && Riding(t) < Riding(s) && t.positions == s.positions
  {
    OneLess(s.rounds, id);
  }

  lemma ClearRound(s: State, id: Id, u: UserId) returns (a: Action)
    requires Enrolled(s) && id in s.rounds && EnteredBy(s.rounds[id].entries, u)
    ensures Free(a)
    ensures var t := Step(s, a); Fewer(s, t) && Riding(t) < Riding(s) && t.positions == s.positions
  {
    var index: nat :| index < |s.rounds[id].entries| && s.rounds[id].entries[index].user == u;
    a := DrawRound(id, index, 0);
    DrawRoundStep(s, id, index);
    hide Step, AnyPlay, Enrolled, Pay, Fewer, Riding;
    RoundGone(s, id, s.rounds[id].entries[index].user, AnyPlay(s.rounds[id].entries));
  }

  lemma ClearDraw(s: State)
    requires Enrolled(s) && s.draw.Some?
    ensures var t := Step(s, SettleDraw(Nothing(|s.draw.value.entries|)));
      Fewer(s, t) && Riding(t) < Riding(s) && t.positions == s.positions
  {
    NobodyWinsStep(s);
    hide Step, WinnerShare, PoolHoldsPlay;
  }

  /** One stake of the owner's that the database shows, settled. */
  lemma ClearOne(s: State, id: Id) returns (a: Action)
    requires Hidden(s, id) && OpenPlay(s, s.positions[id].owner)
    ensures Free(a) && Hidden(Step(s, a), id) && Riding(Step(s, a)) < Riding(s)
    ensures Step(s, a).positions[id] == s.positions[id]
  {
    var u := s.positions[id].owner;
    assert Enrolled(s);
    hide Step, Riding, Enrolled, Fewer;
    if other :| other in s.positions && Holds(s.positions[other], u) {
      a := Settle(other, 0);
      ClearPosition(s, other);
    } else if flip :| flip in s.flips && Plays(s.flips[flip], u) {
      a := ClearFlip(s, flip);
    } else if round :| round in s.rounds && EnteredBy(s.rounds[round].entries, u) {
      a := ClearRound(s, round, u);
    } else {
      a := SettleDraw(Nothing(|s.draw.value.entries|));
      ClearDraw(s);
    }
    HiddenStays(s, Step(s, a), id);
  }

  /** The owner clears everything else and deposits; then it is paid for the stake, or its referrer is. */
  lemma {:induction false} HiddenLeaks(s: State, id: Id)
    requires Hidden(s, id)
    ensures Leaky(s)
    decreases Riding(s)
  {
    var u := s.positions[id].owner;
    if OpenPlay(s, u) {
      var a := ClearOne(s, id);
      HiddenLeaks(Step(s, a), id);
      hide Step, Leaky;
      LeakyBefore(s, a);
    } else {
      DepositStep(s, u, 1);
      var t := Step(s, Deposit(u, 1));
      assert t.positions == s.positions && t.custodyOn && Funded(t.players, u);
      hide Step, Leaky, OpenPlay, Enrolled;
      if s.positions[id].phase.Paid? {
        CommissionLeaks(t, id);
      } else {
        PayoutLeaks(t, id);
      }
      LeakyBefore(s, Deposit(u, 1));
    }
  }

  lemma PayoutLeaks(s: State, id: Id)
    requires s.custodyOn && id in s.positions && s.positions[id].phase.Unseen? && s.positions[id].stake.play
    requires Funded(s.players, s.positions[id].owner)
    ensures Leaky(s)
  {
    SettleStep(s, id, 1);
    hide Step, Leaky;
    WithdrawLeaks(Step(s, Settle(id, 1)), s.positions[id].owner);
    LeakyBefore(s, Settle(id, 1));
  }

  lemma AccrueStep(s: State, id: Id, r: UserId)
    requires id in s.positions && s.positions[id].owner in s.players && r in s.players && s.positions[id].owner != r
    requires SameEconomy(s, r, s.positions[id].owner)
    ensures var p := s.positions[id];
      var t := Step(s, Accrue(OfPosition(id), 0, r, 1));
      && t.custodyOn == s.custodyOn && r in t.players && t.players[r].funded == s.players[r].funded
      && t.players[r].commission == s.players[r].commission.Add(1, p.stake.play)
  {
    assert Enabled(s, Accrue(OfPosition(id), 0, r, 1));
  }

  lemma ClaimStep(s: State, r: UserId)
    requires r in s.players && s.players[r].commission.lamports > 0
    ensures var p := s.players[r];
      Step(s, ClaimCommission(r)) == s.(players := s.players[r :=
        p.(balance := p.balance.Add(p.commission.lamports, p.commission.play), commission := EMPTY)])
  {
  }

  lemma ReferrerLeaks(s: State, id: Id, r: UserId)
    requires s.custodyOn && id in s.positions && s.positions[id].stake.play && s.positions[id].owner != r
    requires Funded(s.players, s.positions[id].owner) && Funded(s.players, r)
    ensures Leaky(s)
  {
    AccrueStep(s, id, r);
    var earned := Step(s, Accrue(OfPosition(id), 0, r, 1));
    ClaimStep(earned, r);
    hide Step, Leaky;
    WithdrawLeaks(Step(earned, ClaimCommission(r)), r);
    LeakyBefore(earned, ClaimCommission(r));
    LeakyBefore(s, Accrue(OfPosition(id), 0, r, 1));
  }

  /** A new account deposits, earns commission on the stake as the owner's referrer, and withdraws it. */
  lemma CommissionLeaks(s: State, id: Id)
    requires s.custodyOn && Enrolled(s) && id in s.positions && s.positions[id].stake.play
    requires Funded(s.players, s.positions[id].owner)
    ensures Leaky(s)
  {
    var r := FreshUser(s.players.Keys);
    assert r !in s.players;
    SignUpStep(s, r);
    hide Step, Leaky;
    var joined := Step(s, SignUp(r, 0));
    assert !OpenPlay(joined, r);
    hide OpenPlay, Enrolled;
    DepositStep(joined, r, 1);
    ReferrerLeaks(Step(joined, Deposit(r, 1)), id, r);
    LeakyBefore(joined, Deposit(r, 1));
    LeakyBefore(s, SignUp(r, 0));
  }

  /** With custody on a seat that holds play money leaks even while it is saved: its owner clears it first. */
  lemma ExposedLeaks(s: State, id: Id)
    requires s.custodyOn && Enrolled(s) && id in s.positions && Exposed(s.positions[id]) && s.positions[id].stake.play
    requires !Funded(s.players, s.positions[id].owner)
    ensures Leaky(s)
  {
    if Visible(s.positions[id]) {
      assert Step(s, ClearSeat(id)) == Turn(s, id, Unseen);
      hide Step, Leaky;
      HiddenLeaks(Turn(s, id, Unseen), id);
      LeakyBefore(s, ClearSeat(id));
    } else {
      HiddenLeaks(s, id);
    }
  }

  // ---- Which steps are safe -------------------------------------------------------------

  /**
   * Switching custody on is safe exactly when no play account holds a blackjack seat or another
   * stake out of sight, and the lottery holds no play money, in the open draw's pool or carried to
   * the next.
   */
  lemma SwitchingOnExactly(s: State)
    requires Inv(s) && !s.custodyOn
    ensures ExposedPlay(s) || LotteryHoldsPlay(s) <==> Leaky(Step(s, EnableCustody))
  {
    SwitchSteps(s);
    InvEnrolled(s);
    var on := s.(custodyOn := true);
    if ExposedPlay(s) {
      var id :| id in s.positions && Exposed(s.positions[id]) && !Funded(s.players, s.positions[id].owner);
      assert PositionOk(s.players, s.custodyOn, s.positions[id]);
      assert Enrolled(on);
      hide Inv, Leaky, Step, Enrolled;
      ExposedLeaks(on, id);
    } else if LotteryHoldsPlay(s) {
      assert PurseOk(s.carry) && (s.draw.Some? ==> PurseOk(s.draw.value.carried));
      assert s.draw.Some? ==> !s.carry.play;
      assert Enrolled(on);
      hide Inv, Leaky, Step, PoolHoldsPlay, Enrolled;
      if s.draw.Some? {
        DrawLeaks(on);
      } else {
        CarryLeaks(on);
      }
    } else {
      StepKeepsInv(s, EnableCustody);
      NotLeaky(Step(s, EnableCustody));
    }
  }

  lemma RoundEndsStep(s: State, id: Id, payout: nat)
    requires Enabled(s, RoundEnds(id, payout))
    ensures var p := s.positions[id];
      Step(s, RoundEnds(id, payout)) == Turn(Pay(s, p.owner, payout, p.stake.play), id, Ended(p.phase))
  {
  }

  /**
   * With custody on, a crash round may end before the request that placed a bet in it is done
   * exactly when the bet is not play money.
   */
  lemma RoundEndsExactly(s: State, id: Id, payout: nat)
    requires Inv(s) && s.custodyOn && Enabled(s, RoundEnds(id, payout))
    ensures s.positions[id].stake.play <==> Leaky(Step(s, RoundEnds(id, payout)))
  {
    var p := s.positions[id];
    if p.stake.play {
      assert PositionOk(s.players, s.custodyOn, p);
      InvEnrolled(s);
      RoundEndsStep(s, id, payout);
      var t := Step(s, RoundEnds(id, payout));
      assert Enrolled(t);
      hide Inv, Leaky, Step, Enrolled;
      HiddenLeaks(t, id);
    } else {
      StepKeepsInv(s, RoundEnds(id, payout));
      NotLeaky(Step(s, RoundEnds(id, payout)));
    }
  }

  /** The conditions are exact: of all steps, just the unsafe ones let play money be withdrawn. */
  lemma SafeExactly(s: State, a: Action)
    requires Inv(s) && Enabled(s, a)
    ensures Safe(s, a) <==> !Leaky(Step(s, a))
  {
    OnAlready(s);
    if Safe(s, a) {
      StepKeepsInv(s, a);
      NotLeaky(Step(s, a));
    } else if a.RoundEnds? {
      RoundEndsExactly(s, a.id, a.payout);
    } else if a.EnableCustody? {
      SwitchingOnExactly(s);
    } else {
      SwitchingOffExactly(s);
    }
  }
}
