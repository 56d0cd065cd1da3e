/**
 * Three runs from an empty database that withdraw play money. Every step is one the code lets
 * happen, and in two of them custody is on throughout.
 */
module EconomyRuns {
  import opened Wrappers
  import opened Economy

  lemma Three(s: State, a: Action, b: Action, c: Action)
    ensures Exec(s, [a, b, c]) == Step(Step(Step(s, a), b), c)
  {
    hide Step;
    assert [a, b, c][1..] == [b, c] && [b, c][1..] == [c] && [c][1..] == [];
    assert Exec(Step(s, a), [b, c]) == Exec(Step(Step(s, a), b), [c]);
  }

  lemma Five(s: State, a: Action, b: Action, c: Action, d: Action, e: Action)
    ensures Exec(s, [a, b, c, d, e]) == Step(Step(Step(Step(Step(s, a), b), c), d), e)
  {
    hide Step;
    assert [a, b, c, d, e][1..] == [b, c, d, e] && [b, c, d, e][1..] == [c, d, e];
    Three(Step(Step(s, a), b), c, d, e);
    assert Exec(s, [a, b, c, d, e]) == Exec(Step(s, a), [b, c, d, e]);
  }

  lemma {:induction false} InTurn(s: State, first: seq<Action>, rest: seq<Action>)
    ensures Exec(s, first + rest) == Exec(Exec(s, first), rest)
    decreases |first|
  {
    hide Step;
    if first == [] {
      assert first + rest == rest;
    } else {
      assert (first + rest)[1..] == first[1..] + rest;
      InTurn(Step(s, first[0]), first[1..], rest);
    }
  }

  /** One account, before and after its first deposit. */
  function Playing(balance: nat): map<UserId, Player> {
    map[0 := Player(false, Purse(balance, true), EMPTY, EMPTY)]
  }

  function Deposited(balance: nat, play: bool): map<UserId, Player> {
    map[0 := Player(true, Purse(balance, play), EMPTY, EMPTY)]
  }

  function Stake(game: Game, phase: Phase): map<Id, Position> {
    map[0 := Position(0, game, Purse(1, true), phase)]
  }

  predicate NeverSwitched(run: seq<Action>) {
    forall i | 0 <= i < |run| :: !run[i].EnableCustody? && !run[i].DisableCustody?
  }

  // ---- A crash bet whose debit outlives its round ---------------------------------------

  function OutlivedBet(): seq<Action> {
    [SignUp(0, 1), Wager(0, 0, Crash, 1), RoundEnds(0, 0)]
  }

  /** An account may stake what it has, and then has that much less. */
  lemma WagerStep(s: State, game: Game)
    requires s.players == Playing(1) && s.positions == map[] && (game.Blackjack? ==> !s.custodyOn)
    ensures Step(s, Wager(0, 0, game, 1)) == s.(players := Playing(0), positions := Stake(game, Opening(game)))
  {
  }

  lemma SignUpStep(s: State)
    requires s.players == map[]
    ensures Step(s, SignUp(0, 1)) == s.(players := Playing(1))
  {
  }

  /** Out of sight, accepted, settled or saved. */
  lemma PhaseStep(s: State, a: Action, game: Game, phase: Phase)
    requires s.players == Playing(0) && s.positions == Stake(game, phase)
    requires a == Accept(0) || a == SaveSeat(0) || a == ClearSeat(0) || a == RoundEnds(0, 0)
    requires a.Accept? ==> phase.Placed?
    requires a.SaveSeat? ==> game.Blackjack? && phase.Unseen?
    requires a.ClearSeat? ==> game.Blackjack? && phase.Shown?
    requires a.RoundEnds? ==> game.Crash? && (phase.Placed? || phase.Shown?)
    ensures Step(s, a) == s.(positions := Stake(game,
      match a case ClearSeat(_) => Unseen case RoundEnds(_, _) => Ended(phase) case _ => Shown))
  {
    assert Enabled(s, a);
    if a.RoundEnds? {
      assert Pay(s, 0, 0, true) == s;
    }
  }

  lemma DepositStep(s: State, game: Game, phase: Phase)
    requires s.custodyOn && s.players == Playing(0) && s.positions == Stake(game, phase)
    requires phase.Unseen? || phase.Paid?
    requires s.flips == map[] && s.rounds == map[] && s.draw.None?
    ensures Step(s, Deposit(0, 1)) == s.(players := Deposited(1, false))
  {
    assert !OpenPlay(s, 0);
  }

  lemma RefundStep(s: State, game: Game)
    requires s.players == Deposited(1, false) && s.positions == Stake(game, Unseen)
    ensures Step(s, Settle(0, 1)) == s.(players := Deposited(2, true), positions := map[])
  {
  }

  lemma WithdrawStep(s: State, u: UserId, p: Player)
    requires s.custodyOn && u in s.players && s.players[u] == p && s.withdrawn == EMPTY
    requires p == Player(true, Purse(2, true), EMPTY, EMPTY)
    ensures Step(s, Withdraw(u, 2))
         == s.(players := s.players[u := p.(balance := Purse(0, true))], withdrawn := Purse(2, true))
  {
    assert Enabled(s, Withdraw(u, 2));
    assert Debit(s, u, 2) == s.(players := s.players[u := p.(balance := Purse(0, true))]);
    hide Debit, Enabled;
  }

  function Refunded(): seq<Action> {
    [Deposit(0, 1), Settle(0, 1), Withdraw(0, 2)]
  }

  /** From the stake out of sight on: deposit, refund, withdrawal. */
  lemma RefundRuns(s: State, game: Game)
    requires s.custodyOn && s.players == Playing(0) && s.positions == Stake(game, Unseen)
    requires s.flips == map[] && s.rounds == map[] && s.draw.None? && s.withdrawn == EMPTY
    ensures Exec(s, Refunded()).withdrawn == Purse(2, true)
  {
    DepositStep(s, game, Unseen);
    var s1 := s.(players := Deposited(1, false));
    RefundStep(s1, game);
    var s2 := s1.(players := Deposited(2, true), positions := map[]);
    WithdrawStep(s2, 0, Player(true, Purse(2, true), EMPTY, EMPTY));
    hide Step;
    Three(s, Deposit(0, 1), Settle(0, 1), Withdraw(0, 2));
  }

  lemma OutlivedBetRuns(s: State)
    requires Initial(s)
    ensures Exec(s, OutlivedBet()) == s.(players := Playing(0), positions := Stake(Crash, Unseen))
  {
    SignUpStep(s);
    var s1 := s.(players := Playing(1));
    WagerStep(s1, Crash);
    var s2 := s1.(players := Playing(0), positions := Stake(Crash, Placed));
    PhaseStep(s2, RoundEnds(0, 0), Crash, Placed);
    hide Step, Exec, Playing, Stake;
    Three(s, SignUp(0, 1), Wager(0, 0, Crash, 1), RoundEnds(0, 0));
  }

  /** The engine turns the bet down; before the refund, the account deposits. */
  lemma LateRefundLeaks(s: State)
    requires Initial(s) && s.custodyOn
    ensures Exec(s, OutlivedBet() + Refunded()).withdrawn == Purse(2, true)
    ensures NeverSwitched(OutlivedBet() + Refunded())
  {
    hide Exec, Step;
    OutlivedBetRuns(s);
    RefundRuns(s.(players := Playing(0), positions := Stake(Crash, Unseen)), Crash);
    InTurn(s, OutlivedBet(), Refunded());
    hide Initial, Playing, Stake;
  }

  lemma EnableStep(s: State)
    ensures Step(s, EnableCustody) == s.(custodyOn := true)
  {
  }

  // ---- A seat cleared after custody is switched on --------------------------------------

  function SavedSeat(): seq<Action> {
    [SignUp(0, 1), Wager(0, 0, Blackjack, 1), SaveSeat(0)]
  }

  lemma SavedSeatRuns(s: State)
    requires Initial(s) && !s.custodyOn
    ensures Exec(s, SavedSeat()) == s.(players := Playing(0), positions := Stake(Blackjack, Shown))
  {
    SignUpStep(s);
    var s1 := s.(players := Playing(1));
    WagerStep(s1, Blackjack);
    var s2 := s1.(players := Playing(0), positions := Stake(Blackjack, Unseen));
    PhaseStep(s2, SaveSeat(0), Blackjack, Unseen);
    hide Step, Exec, Playing, Stake;
    Three(s, SignUp(0, 1), Wager(0, 0, Blackjack, 1), SaveSeat(0));
  }

  /** Custody is switched on, and the owner clears the bet. */
  lemma ClearedRuns(s: State)
    requires s.players == Playing(0) && s.positions == Stake(Blackjack, Shown)
    ensures Exec(s, [EnableCustody, ClearSeat(0)]) == s.(custodyOn := true, positions := Stake(Blackjack, Unseen))
  {
    EnableStep(s);
    PhaseStep(s.(custodyOn := true), ClearSeat(0), Blackjack, Shown);
    hide Step, Playing, Stake;
    var run := [EnableCustody, ClearSeat(0)];
    assert run[1..] == [ClearSeat(0)] && run[1..][1..] == [];
    assert Exec(s, run) == Exec(s.(custodyOn := true), [ClearSeat(0)]);
  }

  /** Every stake is shown and the lottery is empty when custody is switched on. */
  lemma ClearedSeatLeaks(s: State)
    requires Initial(s) && !s.custodyOn
    ensures var t := Exec(s, SavedSeat());
      && (forall id | id in t.positions :: Visible(t.positions[id])) && !LotteryHoldsPlay(t)
      && Exec(t, [EnableCustody, ClearSeat(0)] + Refunded()).withdrawn == Purse(2, true)
  {
    hide Exec, Step;
    SavedSeatRuns(s);
    var t := s.(players := Playing(0), positions := Stake(Blackjack, Shown));
    ClearedRuns(t);
    RefundRuns(t.(custodyOn := true, positions := Stake(Blackjack, Unseen)), Blackjack);
    InTurn(t, [EnableCustody, ClearSeat(0)], Refunded());
  }

  // ---- Commission that comes after the round --------------------------------------------

  /** The bet is accepted and its round settled, and the bettor deposits, before the commission comes. */
  function SettledBet(): seq<Action> {
    [SignUp(0, 1), Wager(0, 0, Crash, 1), Accept(0), RoundEnds(0, 0), Deposit(0, 1)]
  }

  function Commission(): seq<Action> {
    [SignUp(1, 0), Deposit(1, 1), Accrue(OfPosition(0), 0, 1, 1), ClaimCommission(1), Withdraw(1, 2)]
  }

  function Two(balance: Purse, commission: Purse): map<UserId, Player> {
    map[0 := Player(true, Purse(1, false), EMPTY, EMPTY), 1 := Player(true, balance, commission, EMPTY)]
  }

  /** The referrer deposits, is credited the commission and withdraws it. */
  lemma CommissionRuns(s: State)
    requires s.custodyOn && s.players == Deposited(1, false) && s.positions == Stake(Crash, Paid)
    requires s.flips == map[] && s.rounds == map[] && s.draw.None? && s.withdrawn == EMPTY
    ensures Exec(s, Commission()).withdrawn == Purse(2, true)
  {
    ReferrerDeposits(s);
    var s2 := s.(players := Two(Purse(1, false), EMPTY));
    AccrueStep(s2);
    var s3 := s2.(players := Two(Purse(1, false), Purse(1, true)));
    ClaimStep(s3);
    var s4 := s3.(players := Two(Purse(2, true), EMPTY));
    WithdrawStep(s4, 1, Player(true, Purse(2, true), EMPTY, EMPTY));
    hide Step, Exec, Two, Deposited, Stake;
    Five(s, SignUp(1, 0), Deposit(1, 1), Accrue(OfPosition(0), 0, 1, 1), ClaimCommission(1), Withdraw(1, 2));
  }

  lemma ReferrerDeposits(s: State)
    requires s.custodyOn && s.players == Deposited(1, false) && s.positions == Stake(Crash, Paid)
    requires s.flips == map[] && s.rounds == map[] && s.draw.None?
    ensures Step(Step(s, SignUp(1, 0)), Deposit(1, 1)) == s.(players := Two(Purse(1, false), EMPTY))
  {
    var p := Player(false, Purse(0, true), EMPTY, EMPTY);
    var s1 := s.(players := s.players[1 := p]);
    assert Step(s, SignUp(1, 0)) == s1;
    assert !OpenPlay(s1, 1);
    assert Enabled(s1, Deposit(1, 1));
    hide OpenPlay, Enabled;
    assert s1.players[1 := Player(true, Purse(1, false), EMPTY, EMPTY)] == Two(Purse(1, false), EMPTY);
  }

  lemma ClaimStep(s: State)
    requires s.players == Two(Purse(1, false), Purse(1, true))
    ensures Step(s, ClaimCommission(1)) == s.(players := Two(Purse(2, true), EMPTY))
  {
    assert s.players[1 := Player(true, Purse(2, true), EMPTY, EMPTY)] == Two(Purse(2, true), EMPTY);
  }

  lemma AccrueStep(s: State)
    requires s.players == Two(Purse(1, false), EMPTY) && s.positions == Stake(Crash, Paid)
    ensures Step(s, Accrue(OfPosition(0), 0, 1, 1)) == s.(players := Two(Purse(1, false), Purse(1, true)))
  {
    assert StakeOf(s, OfPosition(0)) == Some((0, true));
    assert Enabled(s, Accrue(OfPosition(0), 0, 1, 1));
  }

  lemma SettledBetRuns(s: State)
    requires Initial(s) && s.custodyOn
    ensures Exec(s, SettledBet()) == s.(players := Deposited(1, false), positions := Stake(Crash, Paid))
  {
    SignUpStep(s);
    var s1 := s.(players := Playing(1));
    WagerStep(s1, Crash);
    var s2 := s1.(players := Playing(0), positions := Stake(Crash, Placed));
    PhaseStep(s2, Accept(0), Crash, Placed);
    var s3 := s2.(positions := Stake(Crash, Shown));
    PhaseStep(s3, RoundEnds(0, 0), Crash, Shown);
    DepositStep(s3.(positions := Stake(Crash, Paid)), Crash, Paid);
    hide Step, Exec, Playing, Stake, Deposited;
    Five(s, SignUp(0, 1), Wager(0, 0, Crash, 1), Accept(0), RoundEnds(0, 0), Deposit(0, 1));
  }

  lemma LateCommissionLeaks(s: State)
    requires Initial(s) && s.custodyOn
    ensures Exec(s, SettledBet() + Commission()).withdrawn == Purse(2, true)
    ensures NeverSwitched(SettledBet() + Commission())
  {
    hide Exec, Step;
    SettledBetRuns(s);
    CommissionRuns(s.(players := Deposited(1, false), positions := Stake(Crash, Paid)));
    InTurn(s, SettledBet(), Commission());
    hide Initial, Deposited, Stake;
  }
}
