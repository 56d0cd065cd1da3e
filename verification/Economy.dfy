/**
 * Play money and deposited money in one balance column. Every value carries a mark: was any of
 * it ever play money? The rules E1 to E6 are the guards; the theorem is that no run of safe
 * steps lets a marked value into a withdrawal. A game is what the rules see of it: a debit opens
 * a position, a settlement pays its owner, and in between the database shows the stake or does
 * not. The lottery is more than that, since what a draw does not pay is carried into the next.
 */
module Economy {
  import opened Wrappers
  import opened Sums

  type UserId = nat
  type Id = nat

  datatype Game = Crash | ScheduledCrash | Instant | Blackjack

  /** Lamports, and whether play money is among them. */
  datatype Purse = Purse(lamports: nat, play: bool) {
    function Add(more: nat, marked: bool): Purse {
      Purse(lamports + more, play || (marked && more > 0))
    }

    function Take(less: nat): Purse
      requires less <= lamports
    {
      Purse(lamports - less, play)
    }
  }

  const EMPTY := Purse(0, false)

  /** The treasury's part of a lottery pool, burned before anything is paid. */
  const BURN_BPS: nat := 2_000

  /** `tickets` is the volume wagered towards free lottery tickets and not yet spent or forfeited. */
  datatype Player = Player(funded: bool, balance: Purse, commission: Purse, tickets: Purse)

  /**
   * A crash bet is `Placed` until the engine has accepted it, and `Paid` once its round is settled
   * and only its commission is to come. `Unseen` is a stake still to be paid that the database
   * does not show: a blackjack seat not yet saved, or a stake dropped before it is given back.
   */
  datatype Phase = Placed | Shown | Unseen | Paid

  datatype Position = Position(owner: UserId, game: Game, stake: Purse, phase: Phase)

  datatype Flip = Flip(creator: UserId, joiner: Option<UserId>, stake: nat, pot: Purse)

  /** `play`: bought from a marked balance, or earned by marked wagers (a free ticket, of stake 0). */
  datatype Entry = Entry(user: UserId, stake: nat, play: bool)

  /** An open jackpot round: its pot is its entries' stakes. */
  datatype Round = Round(entries: seq<Entry>)

  /** The open lottery draw: its pool is its sales, the house's injection and what was carried in. */
  datatype Draw = Draw(injection: nat, carried: Purse, entries: seq<Entry>)

  /**
   * `carry` is what the last draw left for the next, held in memory until that one opens.
   * `withdrawn` is everything custody withdrawals ever debited and did not return.
   */
  datatype State = State(
    custodyOn: bool,
    players: map<UserId, Player>,
    positions: map<Id, Position>,
    flips: map<Id, Flip>,
    rounds: map<Id, Round>,
    draw: Option<Draw>,
    carry: Purse,
    pool: nat,
    withdrawn: Purse)

  /** Where a settling stake comes from, for referral commission and free-ticket volume. */
  datatype Source =
    | OfPosition(id: Id) | OfFlip(id: Id, creators: bool) | OfEntry(id: Id, index: nat) | OfTicket(index: nat)

  datatype Action =
    | SignUp(user: UserId, seed: nat)
    | Wager(id: Id, user: UserId, game: Game, stake: nat)
    | Accept(id: Id)
    | SaveSeat(id: Id)
    | ClearSeat(id: Id)
    | Double(id: Id, seat: Id, extra: nat)
    | RoundEnds(id: Id, payout: nat)
    | Settle(id: Id, payout: nat)
    | OpenFlip(id: Id, user: UserId, stake: nat)
    | JoinFlip(id: Id, user: UserId)
    | SettleFlip(id: Id, creatorWins: bool, payout: nat)
    | HouseFlip(id: Id, payout: nat)
    | CancelFlip(id: Id)
    | OpenRound(id: Id)
    | Enter(id: Id, user: UserId, stake: nat)
    | DrawRound(id: Id, index: nat, payout: nat)
    | ReturnEntry(id: Id, index: nat)
    | OpenDraw(injection: nat)
    | BuyTicket(user: UserId, stake: nat)
    | UseFreeTicket(user: UserId, volume: nat)
    | SettleDraw(prizes: seq<nat>)
    | ForgetCarry
    | Accrue(source: Source, volume: nat, referrer: UserId, commission: nat)
    | ClaimCommission(user: UserId)
    | Tip(user: UserId, amount: nat)
    | Promote(user: UserId, amount: nat)
    | Deposit(user: UserId, amount: nat)
    | Withdraw(user: UserId, amount: nat)
    | ReturnWithdrawal(user: UserId, amount: nat)
    | EnableCustody
    | DisableCustody

  predicate Funded(players: map<UserId, Player>, u: UserId) {
    u in players && players[u].funded
  }

  // ---- The rules ------------------------------------------------------------------------

  /** E1: deposited funds only. */
  predicate DepositedOnly(s: State, u: UserId) {
    s.custodyOn ==> Funded(s.players, u)
  }

  /** E1 for the pooled games: and not into a round or draw still holding a play account's entry. */
  predicate PooledEntry(s: State, u: UserId, entries: seq<Entry>) {
    s.custodyOn ==> Funded(s.players, u) && forall i | 0 <= i < |entries| :: Funded(s.players, entries[i].user)
  }

  /** E2, E5: both accounts on the same side. */
  predicate SameEconomy(s: State, u: UserId, v: UserId) {
    s.custodyOn ==> Funded(s.players, u) == Funded(s.players, v)
  }

  /** E3, E4: play accounts only. */
  predicate PlayOnly(s: State, u: UserId) {
    s.custodyOn ==> !Funded(s.players, u)
  }

  predicate Plays(f: Flip, u: UserId) {
    f.creator == u || f.joiner == Some(u)
  }

  predicate EnteredBy(entries: seq<Entry>, u: UserId) {
    exists i :: 0 <= i < |entries| && entries[i].user == u
  }

  predicate Visible(p: Position) {
    p.phase.Placed? || p.phase.Shown?
  }

  predicate Holds(p: Position, u: UserId) {
    p.owner == u && Visible(p)
  }

  /** E6: a stake the database can see is still riding. */
  predicate OpenPlay(s: State, u: UserId) {
    || (exists id :: id in s.positions && Holds(s.positions[id], u))
    || (exists id :: id in s.flips && Plays(s.flips[id], u))
    || (exists id :: id in s.rounds && EnteredBy(s.rounds[id].entries, u))
    || (s.draw.Some? && EnteredBy(s.draw.value.entries, u))
  }

  // ---- Steps ----------------------------------------------------------------------------

  predicate CanPay(s: State, u: UserId, amount: nat) {
    u in s.players && 0 < amount <= s.players[u].balance.lamports
  }

  /** The owner of a settling stake and its mark. */
  function StakeOf(s: State, source: Source): Option<(UserId, bool)> {
    match source
    case OfPosition(id) =>
      if id in s.positions then Some((s.positions[id].owner, s.positions[id].stake.play)) else None
    case OfFlip(id, creators) =>
      if id in s.flips then
        if creators then Some((s.flips[id].creator, s.flips[id].pot.play))
        else if s.flips[id].joiner.Some? then Some((s.flips[id].joiner.value, s.flips[id].pot.play))
        else None
      else None
    case OfEntry(id, index) =>
      if id in s.rounds && index < |s.rounds[id].entries| then
        Some((s.rounds[id].entries[index].user, s.rounds[id].entries[index].play))
      else None
    case OfTicket(index) =>
      if s.draw.Some? && index < |s.draw.value.entries| then
        Some((s.draw.value.entries[index].user, s.draw.value.entries[index].play))
      else None
  }

  function Stakes(entries: seq<Entry>): (stakes: seq<int>)
    ensures |stakes| == |entries| && forall i | 0 <= i < |stakes| :: stakes[i] == entries[i].stake
  {
    seq(|entries|, i requires 0 <= i < |entries| => entries[i].stake)
  }

  /** The draw's whole pool. */
  function Pool(d: Draw): int {
    Total(Stakes(d.entries)) + d.injection + d.carried.lamports
  }

  /** What is left of it for winners and for the next draw. */
  function WinnerShare(d: Draw): int {
    Pool(d) - Pool(d) * BURN_BPS / 10_000
  }

  predicate AnyPlay(entries: seq<Entry>) {
    exists i :: 0 <= i < |entries| && entries[i].play
  }

  predicate PlayStake(e: Entry) {
    e.play && e.stake > 0
  }

  /** Play money among the pool: carried in, or staked on the draw itself. */
  predicate PoolHoldsPlay(d: Draw) {
    d.carried.play || exists i :: 0 <= i < |d.entries| && PlayStake(d.entries[i])
  }

  predicate Enabled(s: State, a: Action) {
    match a
    case SignUp(u, _) => u !in s.players
    case Wager(id, u, game, stake) =>
      id !in s.positions && CanPay(s, u, stake) && (game.Blackjack? ==> DepositedOnly(s, u))
    case Accept(id) => id in s.positions && s.positions[id].phase.Placed?
    case SaveSeat(id) => id in s.positions && s.positions[id].game.Blackjack? && s.positions[id].phase.Unseen?
    case ClearSeat(id) => id in s.positions && s.positions[id].game.Blackjack? && Visible(s.positions[id])
    case Double(id, seat, extra) =>
      && id !in s.positions && seat in s.positions && s.positions[seat].game.Blackjack?
      && CanPay(s, s.positions[seat].owner, extra)
    case RoundEnds(id, _) =>
      && id in s.positions && s.positions[id].owner in s.players
      && s.positions[id].game.Crash? && Visible(s.positions[id])
    case Settle(id, payout) =>
      && id in s.positions && s.positions[id].owner in s.players
      && (s.positions[id].phase.Paid? ==> payout == 0)
    case OpenFlip(id, u, stake) => id !in s.flips && CanPay(s, u, stake)
    case JoinFlip(id, u) =>
      && id in s.flips && s.flips[id].joiner.None? && CanPay(s, u, s.flips[id].stake)
      && SameEconomy(s, s.flips[id].creator, u)
    case SettleFlip(id, creatorWins, _) =>
      && id in s.flips && s.flips[id].joiner.Some?
      && s.flips[id].creator in s.players && s.flips[id].joiner.value in s.players
    case CancelFlip(id) => id in s.flips && s.flips[id].joiner.None? && s.flips[id].creator in s.players
    case HouseFlip(id, _) => id in s.flips && s.flips[id].joiner.None? && s.flips[id].creator in s.players
    case OpenRound(id) => id !in s.rounds
    case Enter(id, u, stake) => id in s.rounds && CanPay(s, u, stake) && PooledEntry(s, u, s.rounds[id].entries)
    case DrawRound(id, index, _) =>
      id in s.rounds && index < |s.rounds[id].entries| && s.rounds[id].entries[index].user in s.players
    case ReturnEntry(id, index) =>
      id in s.rounds && index < |s.rounds[id].entries| && s.rounds[id].entries[index].user in s.players
    case OpenDraw(_) => s.draw.None?
    case BuyTicket(u, stake) => s.draw.Some? && CanPay(s, u, stake) && PooledEntry(s, u, s.draw.value.entries)
    case UseFreeTicket(u, volume) =>
      && s.draw.Some? && u in s.players && 0 < volume <= s.players[u].tickets.lamports
      && PooledEntry(s, u, s.draw.value.entries)
    case SettleDraw(prizes) =>
      && s.draw.Some? && |prizes| == |s.draw.value.entries| && Total(prizes) <= WinnerShare(s.draw.value)
      && forall i | 0 <= i < |prizes| :: s.draw.value.entries[i].user in s.players
    case ForgetCarry => true
    case Accrue(source, volume, referrer, commission) =>
      && (source.OfPosition? && source.id in s.positions && s.positions[source.id].phase.Paid? ==> volume == 0)
      && StakeOf(s, source).Some? && StakeOf(s, source).value.0 in s.players && referrer in s.players
      && (commission > 0 ==> SameEconomy(s, referrer, StakeOf(s, source).value.0))
    case ClaimCommission(u) => u in s.players && s.players[u].commission.lamports > 0
    case Tip(u, amount) => CanPay(s, u, amount) && PlayOnly(s, u)
    case Promote(u, amount) => u in s.players && PlayOnly(s, u)
    case Deposit(u, _) => s.custodyOn && u in s.players && (s.players[u].funded || !OpenPlay(s, u))
    case Withdraw(u, amount) => s.custodyOn && CanPay(s, u, amount) && s.players[u].funded
    case ReturnWithdrawal(u, amount) => u in s.players && s.players[u].funded && amount <= s.withdrawn.lamports
    case EnableCustody => true
    case DisableCustody => true
  }

  function Pay(s: State, u: UserId, amount: nat, marked: bool): State
    requires u in s.players
  {
    s.(players := s.players[u := s.players[u].(balance := s.players[u].balance.Add(amount, marked))])
  }

  function Debit(s: State, u: UserId, amount: nat): State
    requires CanPay(s, u, amount)
  {
    s.(players := s.players[u := s.players[u].(balance := s.players[u].balance.Take(amount))])
  }

  /** Value debited from a purse is marked when anything in the purse is, or the account is a play one. */
  function Marked(p: Player): bool {
    p.balance.play || !p.funded
  }

  /** Each entry's owner credited its prize, marked when the pool or the entry itself is. */
  function PayAll(players: map<UserId, Player>, entries: seq<Entry>, prizes: seq<nat>, pool: bool): (after: map<UserId, Player>)
    requires |prizes| == |entries| && forall i | 0 <= i < |entries| :: entries[i].user in players
    ensures after.Keys == players.Keys && forall u :: Funded(after, u) == Funded(players, u)
    decreases |entries|
  {
    if entries == [] then players
    else
      var n := |entries| - 1;
      var before := PayAll(players, entries[..n], prizes[..n], pool);
      var p := before[entries[n].user];
      before[entries[n].user := p.(balance := p.balance.Add(prizes[n], pool || entries[n].play))]
  }

  /** The first deposit forfeits the balance, the unclaimed commission and the free-ticket volume. */
  function Converted(p: Player): Player {
    if p.funded then p else Player(true, EMPTY, EMPTY, EMPTY)
  }

  function Opening(game: Game): Phase {
    match game
    case Crash => Placed
    case Blackjack => Unseen
    case _ => Shown
  }

  /** Its round is over: a bet the engine never accepted is still to be given back. */
  function Ended(phase: Phase): Phase {
    if phase.Placed? then Unseen else Paid
  }

  function Turn(s: State, id: Id, phase: Phase): State
    requires id in s.positions
  {
    s.(positions := s.positions[id := s.positions[id].(phase := phase)])
  }

  /** Stakes of one account or two. */
  predicate InGames(a: Action) {
    || a.Wager? || a.Accept? || a.SaveSeat? || a.ClearSeat? || a.Double? || a.RoundEnds? || a.Settle?
    || a.OpenFlip? || a.JoinFlip? || a.SettleFlip? || a.HouseFlip? || a.CancelFlip?
  }

  /** Stakes of many. */
  predicate InPots(a: Action) {
    || a.OpenRound? || a.Enter? || a.DrawRound? || a.ReturnEntry?
    || a.OpenDraw? || a.BuyTicket? || a.UseFreeTicket? || a.SettleDraw? || a.ForgetCarry?
  }

  function GameEffect(s: State, a: Action): State
    requires Enabled(s, a) && InGames(a)
  {
    match a
    case Wager(id, u, game, stake) =>
      Debit(s, u, stake).(positions :=
        s.positions[id := Position(u, game, Purse(stake, Marked(s.players[u])), Opening(game))])
    case Accept(id) => Turn(s, id, Shown)
    case SaveSeat(id) => Turn(s, id, Shown)
    case ClearSeat(id) => Turn(s, id, Unseen)
    case Double(id, seat, extra) =>
      var u := s.positions[seat].owner;
      Debit(s, u, extra).(positions :=
        s.positions[id := Position(u, Blackjack, Purse(extra, Marked(s.players[u])), Unseen)])
    case RoundEnds(id, payout) =>
      var p := s.positions[id];
      Turn(Pay(s, p.owner, payout, p.stake.play), id, Ended(p.phase))
    case Settle(id, payout) =>
      var p := s.positions[id];
      Pay(s, p.owner, payout, p.stake.play).(positions := s.positions - {id})
    case OpenFlip(id, u, stake) =>
      Debit(s, u, stake).(flips := s.flips[id := Flip(u, None, stake, Purse(stake, Marked(s.players[u])))])
    case JoinFlip(id, u) =>
      var f := s.flips[id];
      Debit(s, u, f.stake).(flips :=
        s.flips[id := f.(joiner := Some(u), pot := f.pot.Add(f.stake, Marked(s.players[u])))])
    case SettleFlip(id, creatorWins, payout) =>
      var f := s.flips[id];
      Pay(s, if creatorWins then f.creator else f.joiner.value, payout, f.pot.play).(flips := s.flips - {id})
    case HouseFlip(id, payout) =>
      var f := s.flips[id];
      Pay(s, f.creator, payout, f.pot.play).(flips := s.flips - {id})
    case CancelFlip(id) =>
      var f := s.flips[id];
      Pay(s, f.creator, f.pot.lamports, f.pot.play).(flips := s.flips - {id})
  }

  function PotEffect(s: State, a: Action): State
    requires Enabled(s, a) && InPots(a)
  {
    match a
    case OpenRound(id) => s.(rounds := s.rounds[id := Round([])])
    case Enter(id, u, stake) =>
      var r := s.rounds[id];
      Debit(s, u, stake).(rounds := s.rounds[id := Round(r.entries + [Entry(u, stake, Marked(s.players[u]))])])
    case DrawRound(id, index, payout) =>
      var entries := s.rounds[id].entries;
      Pay(s, entries[index].user, payout, AnyPlay(entries)).(rounds := s.rounds - {id})
    case ReturnEntry(id, index) =>
      var entries := s.rounds[id].entries;
      Pay(s, entries[index].user, entries[index].stake, entries[index].play)
        .(rounds := s.rounds[id := Round(entries[..index] + entries[index + 1..])])
    case OpenDraw(injection) => s.(draw := Some(Draw(injection, s.carry, [])), carry := EMPTY)
    case BuyTicket(u, stake) =>
      var d := s.draw.value;
      Debit(s, u, stake).(draw := Some(d.(entries := d.entries + [Entry(u, stake, Marked(s.players[u]))])))
    case UseFreeTicket(u, volume) =>
      var d, p := s.draw.value, s.players[u];
      s.(players := s.players[u := p.(tickets := p.tickets.Take(volume))],
         draw := Some(d.(entries := d.entries + [Entry(u, 0, p.tickets.play || !p.funded)])))
    case SettleDraw(prizes) =>
      var d := s.draw.value;
      s.(players := PayAll(s.players, d.entries, prizes, PoolHoldsPlay(d)), draw := None,
         carry := EMPTY.Add(WinnerShare(d) - Total(prizes), PoolHoldsPlay(d)))
    case ForgetCarry => s.(carry := EMPTY)
  }

  function MoneyEffect(s: State, a: Action): State
    requires Enabled(s, a) && !InGames(a) && !InPots(a)
  {
    match a
    case SignUp(u, seed) => s.(players := s.players[u := Player(false, Purse(seed, true), EMPTY, EMPTY)])
    case Accrue(source, volume, referrer, commission) =>
      var (referee, play) := StakeOf(s, source).value;
      var p := s.players[referee];
      var wagered := s.players[referee := p.(tickets := p.tickets.Add(volume, play))];
      var r := wagered[referrer];
      s.(players := wagered[referrer := r.(commission := r.commission.Add(commission, play))])
    case ClaimCommission(u) =>
      var p := s.players[u];
      s.(players := s.players[u := p.(balance := p.balance.Add(p.commission.lamports, p.commission.play), commission := EMPTY)])
    case Tip(u, amount) => Debit(s, u, amount).(pool := s.pool + amount)
    case Promote(u, amount) => Pay(s, u, amount, true)
    case Deposit(u, amount) =>
      Pay(s.(players := s.players[u := Converted(s.players[u])]), u, amount, false)
    case Withdraw(u, amount) =>
      Debit(s, u, amount).(withdrawn := s.withdrawn.Add(amount, s.players[u].balance.play))
    case ReturnWithdrawal(u, amount) =>
      Pay(s, u, amount, s.withdrawn.play).(withdrawn := s.withdrawn.Take(amount))
    case EnableCustody => s.(custodyOn := true)
    case DisableCustody => s.(custodyOn := false)
  }

  function Effect(s: State, a: Action): State
    requires Enabled(s, a)
  {
    if InGames(a) then GameEffect(s, a) else if InPots(a) then PotEffect(s, a) else MoneyEffect(s, a)
  }

  function Step(s: State, a: Action): State {
    if Enabled(s, a) then Effect(s, a) else s
  }

  function Exec(s: State, actions: seq<Action>): State
    decreases |actions|
  {
    if actions == [] then s else Exec(Step(s, actions[0]), actions[1..])
  }

  predicate Initial(s: State) {
    && s.players == map[] && s.positions == map[] && s.flips == map[] && s.rounds == map[]
    && s.draw == None && s.carry == EMPTY && s.withdrawn == EMPTY
  }

  predicate SomeoneFunded(s: State) {
    exists u :: u in s.players && s.players[u].funded
  }

  /** A stake that E6 does not see, or that its owner can take out of sight at will. */
  predicate Exposed(p: Position) {
    p.game.Blackjack? || !Visible(p)
  }

  predicate ExposedPlay(s: State) {
    exists id :: id in s.positions && Exposed(s.positions[id]) && !Funded(s.players, s.positions[id].owner)
  }

  /** Play money the lottery would still pay out: in the open draw's pool, or carried to the next. */
  predicate LotteryHoldsPlay(s: State) {
    s.carry.play || (s.draw.Some? && PoolHoldsPlay(s.draw.value))
  }

  /**
   * Custody is switched off only while no account is funded, and on only while no play stake is
   * exposed and the lottery holds no play money; and while it is on, no crash round ends before
   * the request that placed a play account's bet in it is done.
   */
  predicate Safe(s: State, a: Action) {
    && (a.DisableCustody? ==> !SomeoneFunded(s))
    && (a.EnableCustody? ==> !ExposedPlay(s) && !LotteryHoldsPlay(s))
    && (a.RoundEnds? && s.custodyOn && a.id in s.positions ==> !s.positions[a.id].stake.play)
  }

  predicate Disciplined(s: State, actions: seq<Action>)
    decreases |actions|
  {
    actions == [] || (Safe(s, actions[0]) && Disciplined(Step(s, actions[0]), actions[1..]))
  }

  // ---- The invariant --------------------------------------------------------------------

  predicate PlayerOk(p: Player) {
    p.funded ==> !p.balance.play && !p.commission.play && !p.tickets.play
  }

  predicate PositionOk(players: map<UserId, Player>, custodyOn: bool, p: Position) {
    && p.owner in players && (p.stake.play <==> !Funded(players, p.owner))
    && (custodyOn && Exposed(p) ==> Funded(players, p.owner))
  }

  predicate FlipOk(players: map<UserId, Player>, f: Flip) {
    && f.creator in players && (Funded(players, f.creator) ==> !f.pot.play)
    && (f.joiner.Some? ==> f.joiner.value in players && Funded(players, f.joiner.value) == Funded(players, f.creator))
  }

  predicate EntryOk(players: map<UserId, Player>, e: Entry) {
    e.user in players && (Funded(players, e.user) ==> !e.play)
  }

  /** All entries from one side. */
  predicate EntriesOk(players: map<UserId, Player>, entries: seq<Entry>) {
    && (forall i | 0 <= i < |entries| :: EntryOk(players, entries[i]))
    && (forall i, j | 0 <= i < |entries| && 0 <= j < |entries| ::
          Funded(players, entries[i].user) == Funded(players, entries[j].user))
  }

  predicate PurseOk(p: Purse) {
    p.play ==> p.lamports > 0
  }

  /** While custody is on, no play money is in the lottery at all. */
  predicate LotteryOk(s: State) {
    && PurseOk(s.carry) && (s.custodyOn ==> !LotteryHoldsPlay(s))
    && (s.draw.Some? ==> EntriesOk(s.players, s.draw.value.entries) && PurseOk(s.draw.value.carried) && s.carry == EMPTY)
  }

  ghost predicate Inv(s: State) {
    && (!s.custodyOn ==> !SomeoneFunded(s))
    && (forall u | u in s.players :: PlayerOk(s.players[u]))
    && (forall id | id in s.positions :: PositionOk(s.players, s.custodyOn, s.positions[id]))
    && (forall id | id in s.flips :: FlipOk(s.players, s.flips[id]))
    && (forall id | id in s.rounds :: EntriesOk(s.players, s.rounds[id].entries))
    && LotteryOk(s)
    && !s.withdrawn.play
  }

  ghost predicate SameSides(p: map<UserId, Player>, q: map<UserId, Player>) {
    p.Keys <= q.Keys && forall u :: Funded(p, u) == Funded(q, u)
  }

  /** New balances on the same sides: nothing else can have broken. */
  lemma PlayersKeep(s: State, players: map<UserId, Player>)
    requires Inv(s) && SameSides(s.players, players) && forall u | u in players :: PlayerOk(players[u])
    ensures Inv(s.(players := players))
  {
    var t := s.(players := players);
    assert forall u | u in players && players[u].funded :: Funded(players, u) && Funded(s.players, u);
    assert forall u :: Funded(s.players, u) ==> u in s.players && s.players[u].funded;
    hide Funded, PlayerOk;
    forall id | id in t.positions ensures PositionOk(players, t.custodyOn, t.positions[id]) {
      assert PositionOk(s.players, s.custodyOn, s.positions[id]);
    }
    forall id | id in t.flips ensures FlipOk(players, t.flips[id]) {
      assert FlipOk(s.players, s.flips[id]);
    }
    forall id | id in t.rounds ensures EntriesOk(players, t.rounds[id].entries) {
      EntriesStay(s.players, players, s.rounds[id].entries);
    }
    if s.draw.Some? {
      EntriesStay(s.players, players, s.draw.value.entries);
    }
  }

  lemma EntriesStay(p: map<UserId, Player>, q: map<UserId, Player>, entries: seq<Entry>)
    requires SameSides(p, q) && EntriesOk(p, entries)
    ensures EntriesOk(q, entries)
  {
    hide Funded;
    assert forall i | 0 <= i < |entries| :: EntryOk(p, entries[i]);
  }

  lemma PayKeeps(s: State, u: UserId, amount: nat, marked: bool)
    requires Inv(s) && u in s.players && (Funded(s.players, u) && marked ==> amount == 0)
    ensures Inv(Pay(s, u, amount, marked)) && SameSides(s.players, Pay(s, u, amount, marked).players)
  {
    var players := Pay(s, u, amount, marked).players;
    assert PlayerOk(s.players[u]);
    PlayersKeep(s, players);
  }

  lemma DebitKeeps(s: State, u: UserId, amount: nat)
    requires Inv(s) && CanPay(s, u, amount)
    ensures Inv(Debit(s, u, amount)) && SameSides(s.players, Debit(s, u, amount).players)
    ensures Funded(s.players, u) ==> !Marked(s.players[u])
  {
    var players := Debit(s, u, amount).players;
    assert PlayerOk(s.players[u]);
    PlayersKeep(s, players);
  }

  lemma PositionPut(s: State, id: Id, p: Position)
    requires Inv(s) && PositionOk(s.players, s.custodyOn, p)
    ensures Inv(s.(positions := s.positions[id := p])) && Inv(s.(positions := s.positions - {id}))
  {
    hide PlayerOk, PositionOk, FlipOk, EntriesOk, PoolHoldsPlay;
  }

  lemma FlipPut(s: State, id: Id, f: Flip)
    requires Inv(s) && FlipOk(s.players, f)
    ensures Inv(s.(flips := s.flips[id := f])) && Inv(s.(flips := s.flips - {id}))
  {
    hide PlayerOk, PositionOk, FlipOk, EntriesOk, PoolHoldsPlay;
  }

  lemma RoundPut(s: State, id: Id, r: Round)
    requires Inv(s) && EntriesOk(s.players, r.entries)
    ensures Inv(s.(rounds := s.rounds[id := r])) && Inv(s.(rounds := s.rounds - {id}))
  {
    hide PlayerOk, PositionOk, FlipOk, EntriesOk, PoolHoldsPlay;
  }

  lemma DrawPut(s: State, d: Option<Draw>, carry: Purse)
    requires Inv(s) && LotteryOk(s.(draw := d, carry := carry))
    ensures Inv(s.(draw := d, carry := carry))
  {
    hide PlayerOk, PositionOk, FlipOk, EntriesOk, PoolHoldsPlay;
  }

  lemma WagerKeeps(s: State, id: Id, u: UserId, game: Game, stake: nat)
    requires Inv(s) && Enabled(s, Wager(id, u, game, stake))
    ensures Inv(Effect(s, Wager(id, u, game, stake)))
  {
    DebitKeeps(s, u, stake);
    hide Inv;
    PositionPut(Debit(s, u, stake), id, Position(u, game, Purse(stake, Marked(s.players[u])), Opening(game)));
  }

  lemma PhaseKeeps(s: State, a: Action)
    requires Inv(s) && Enabled(s, a) && (a.Accept? || a.SaveSeat? || a.ClearSeat?)
    ensures Inv(Effect(s, a))
  {
    assert PositionOk(s.players, s.custodyOn, s.positions[a.id]);
    hide Inv;
    PositionPut(s, a.id, s.positions[a.id].(phase := if a.ClearSeat? then Unseen else Shown));
  }

  lemma DoubleKeeps(s: State, id: Id, seat: Id, extra: nat)
    requires Inv(s) && Enabled(s, Double(id, seat, extra))
    ensures Inv(Effect(s, Double(id, seat, extra)))
  {
    var u := s.positions[seat].owner;
    assert PositionOk(s.players, s.custodyOn, s.positions[seat]);
    DebitKeeps(s, u, extra);
    hide Inv;
    PositionPut(Debit(s, u, extra), id, Position(u, Blackjack, Purse(extra, Marked(s.players[u])), Unseen));
  }

  lemma RoundEndsKeeps(s: State, id: Id, payout: nat)
    requires Inv(s) && Enabled(s, RoundEnds(id, payout)) && Safe(s, RoundEnds(id, payout))
    ensures Inv(Effect(s, RoundEnds(id, payout)))
  {
    var p := s.positions[id];
    assert PositionOk(s.players, s.custodyOn, p);
    PayKeeps(s, p.owner, payout, p.stake.play);
    var t := Pay(s, p.owner, payout, p.stake.play);
    assert PositionOk(t.players, t.custodyOn, t.positions[id]);
    hide Inv;
    PositionPut(t, id, p.(phase := Ended(p.phase)));
  }

  lemma SettleKeeps(s: State, id: Id, payout: nat)
    requires Inv(s) && Enabled(s, Settle(id, payout))
    ensures Inv(Effect(s, Settle(id, payout)))
  {
    var p := s.positions[id];
    assert PositionOk(s.players, s.custodyOn, p);
    PayKeeps(s, p.owner, payout, p.stake.play);
    var t := Pay(s, p.owner, payout, p.stake.play);
    assert PositionOk(t.players, t.custodyOn, t.positions[id]);
    hide Inv;
    PositionPut(t, id, p);
  }

  lemma JoinKeeps(s: State, id: Id, u: UserId)
    requires Inv(s) && Enabled(s, JoinFlip(id, u))
    ensures Inv(Effect(s, JoinFlip(id, u)))
  {
    var f := s.flips[id];
    assert FlipOk(s.players, f);
    assert !s.custodyOn ==> !Funded(s.players, u) && !Funded(s.players, f.creator);
    DebitKeeps(s, u, f.stake);
    hide Inv;
    assert forall v :: Funded(s.players, v) == Funded(Debit(s, u, f.stake).players, v);
    FlipPut(Debit(s, u, f.stake), id, f.(joiner := Some(u), pot := f.pot.Add(f.stake, Marked(s.players[u]))));
  }

  lemma FlipPaid(s: State, id: Id, to: UserId, payout: nat)
    requires Inv(s) && id in s.flips && to in s.players && Plays(s.flips[id], to)
    ensures Inv(Pay(s, to, payout, s.flips[id].pot.play).(flips := s.flips - {id}))
  {
    var f := s.flips[id];
    assert FlipOk(s.players, f);
    PayKeeps(s, to, payout, f.pot.play);
    var t := Pay(s, to, payout, f.pot.play);
    assert FlipOk(t.players, t.flips[id]);
    hide Inv;
    FlipPut(t, id, f);
  }

  lemma FlipsKeep(s: State, a: Action)
    requires Inv(s) && Enabled(s, a)
    requires a.OpenFlip? || a.JoinFlip? || a.SettleFlip? || a.HouseFlip? || a.CancelFlip?
    ensures Inv(Effect(s, a))
  {
    match a
    case OpenFlip(id, u, stake) =>
      DebitKeeps(s, u, stake);
      hide Inv;
      FlipPut(Debit(s, u, stake), id, Flip(u, None, stake, Purse(stake, Marked(s.players[u]))));
    case JoinFlip(id, u) => JoinKeeps(s, id, u);
    case SettleFlip(id, creatorWins, payout) =>
      hide Inv;
      FlipPaid(s, id, if creatorWins then s.flips[id].creator else s.flips[id].joiner.value, payout);
    case HouseFlip(id, payout) =>
      hide Inv;
      FlipPaid(s, id, s.flips[id].creator, payout);
    case CancelFlip(id) =>
      hide Inv;
      FlipPaid(s, id, s.flips[id].creator, s.flips[id].pot.lamports);
  }

  /** E1: one more entry by the rule leaves all entries on one side. */
  lemma EntriesGrow(s: State, entries: seq<Entry>, e: Entry)
    requires Inv(s) && EntriesOk(s.players, entries) && EntryOk(s.players, e) && PooledEntry(s, e.user, entries)
    ensures EntriesOk(s.players, entries + [e])
  {
    assert !s.custodyOn ==> forall u :: !Funded(s.players, u);
    hide Inv, Funded, EntryOk;
  }

  lemma EntriesShrink(players: map<UserId, Player>, entries: seq<Entry>, index: nat)
    requires EntriesOk(players, entries) && index < |entries|
    ensures EntriesOk(players, entries[..index] + entries[index + 1..])
  {
    hide Funded, EntryOk;
  }

  /** A deposited entrant's round holds no play entry. */
  lemma EntriesAreClean(players: map<UserId, Player>, entries: seq<Entry>, index: nat)
    requires EntriesOk(players, entries) && index < |entries| && Funded(players, entries[index].user)
    ensures !AnyPlay(entries)
  {
    hide Funded;
    assert forall i | 0 <= i < |entries| :: EntryOk(players, entries[i]);
  }

  lemma EnterKeeps(s: State, id: Id, u: UserId, stake: nat)
    requires Inv(s) && Enabled(s, Enter(id, u, stake))
    ensures Inv(Effect(s, Enter(id, u, stake)))
  {
    DebitKeeps(s, u, stake);
    var t, r := Debit(s, u, stake), s.rounds[id];
    var e := Entry(u, stake, Marked(s.players[u]));
    assert EntriesOk(t.players, t.rounds[id].entries);
    assert forall v :: Funded(s.players, v) == Funded(t.players, v);
    EntriesGrow(t, r.entries, e);
    hide Inv, EntriesOk;
    RoundPut(t, id, Round(r.entries + [e]));
  }

  lemma DrawRoundKeeps(s: State, id: Id, index: nat, payout: nat)
    requires Inv(s) && Enabled(s, DrawRound(id, index, payout))
    ensures Inv(Effect(s, DrawRound(id, index, payout)))
  {
    var entries := s.rounds[id].entries;
    assert EntriesOk(s.players, entries);
    if Funded(s.players, entries[index].user) {
      EntriesAreClean(s.players, entries, index);
    }
    PayKeeps(s, entries[index].user, payout, AnyPlay(entries));
    var t := Pay(s, entries[index].user, payout, AnyPlay(entries));
    hide Inv, EntriesOk, AnyPlay;
    NoEntries(t.players);
    RoundPut(t, id, Round([]));
  }

  lemma OpenRoundKeeps(s: State, id: Id)
    requires Inv(s) && Enabled(s, OpenRound(id))
    ensures Inv(Effect(s, OpenRound(id)))
  {
    NoEntries(s.players);
    hide Inv, EntriesOk;
    RoundPut(s, id, Round([]));
  }

  lemma NoEntries(players: map<UserId, Player>)
    ensures EntriesOk(players, [])
  {
  }

  lemma ReturnEntryKeeps(s: State, id: Id, index: nat)
    requires Inv(s) && Enabled(s, ReturnEntry(id, index))
    ensures Inv(Effect(s, ReturnEntry(id, index)))
  {
    var entries := s.rounds[id].entries;
    var e := entries[index];
    var t := Pay(s, e.user, e.stake, e.play);
    assert EntriesOk(s.players, entries) && EntryOk(s.players, e);
    PayKeeps(s, e.user, e.stake, e.play);
    assert EntriesOk(t.players, t.rounds[id].entries);
    EntriesShrink(t.players, entries, index);
    hide Inv, Pay, EntriesOk, EntryOk;
    RoundPut(t, id, Round(entries[..index] + entries[index + 1..]));
  }

  lemma TicketKeeps(s: State, t: State, e: Entry)
    requires s.draw.Some? && Inv(t) && t.draw == s.draw && t.custodyOn == s.custodyOn && t.carry == s.carry
    requires EntryOk(t.players, e) && PooledEntry(t, e.user, s.draw.value.entries)
    ensures var d := s.draw.value; Inv(t.(draw := Some(d.(entries := d.entries + [e]))))
  {
    var d := s.draw.value;
    EntriesGrow(t, d.entries, e);
    var more := d.(entries := d.entries + [e]);
    assert t.custodyOn ==> !PoolHoldsPlay(more) by {
      if t.custodyOn {
        assert Funded(t.players, e.user) && !e.play && !PoolHoldsPlay(d);
      }
    }
    hide EntriesOk, PoolHoldsPlay;
    assert LotteryOk(t.(draw := Some(more)));
    hide Inv;
    DrawPut(t, Some(more), t.carry);
  }

  lemma BuyTicketKeeps(s: State, u: UserId, stake: nat)
    requires Inv(s) && Enabled(s, BuyTicket(u, stake))
    ensures Inv(Effect(s, BuyTicket(u, stake)))
  {
    DebitKeeps(s, u, stake);
    var t := Debit(s, u, stake);
    assert forall v :: Funded(s.players, v) == Funded(t.players, v);
    hide Inv;
    TicketKeeps(s, t, Entry(u, stake, Marked(s.players[u])));
  }

  lemma FreeTicketKeeps(s: State, u: UserId, volume: nat)
    requires Inv(s) && Enabled(s, UseFreeTicket(u, volume))
    ensures Inv(Effect(s, UseFreeTicket(u, volume)))
  {
    var p := s.players[u];
    assert PlayerOk(p);
    var t := s.(players := s.players[u := p.(tickets := p.tickets.Take(volume))]);
    PlayersKeep(s, t.players);
    assert forall v :: Funded(s.players, v) == Funded(t.players, v);
    hide Inv;
    TicketKeeps(s, t, Entry(u, 0, p.tickets.play || !p.funded));
  }

  lemma {:induction false} PayAllKeeps(players: map<UserId, Player>, entries: seq<Entry>, prizes: seq<nat>, pool: bool)
    requires |prizes| == |entries| && forall i | 0 <= i < |entries| :: entries[i].user in players
    requires forall i | 0 <= i < |entries| :: EntryOk(players, entries[i])
    requires forall u | u in players :: PlayerOk(players[u])
    requires pool ==> forall i | 0 <= i < |entries| :: !Funded(players, entries[i].user)
    ensures forall u | u in PayAll(players, entries, prizes, pool) :: PlayerOk(PayAll(players, entries, prizes, pool)[u])
    decreases |entries|
  {
    if entries != [] {
      var n := |entries| - 1;
      PayAllKeeps(players, entries[..n], prizes[..n], pool);
      assert EntryOk(players, entries[n]);
      var before := PayAll(players, entries[..n], prizes[..n], pool);
      assert Funded(before, entries[n].user) == Funded(players, entries[n].user);
      assert PlayerOk(before[entries[n].user]);
    }
  }

  lemma PrizesKeep(s: State, prizes: seq<nat>)
    requires Inv(s) && Enabled(s, SettleDraw(prizes))
    ensures var d := s.draw.value;
      Inv(s.(players := PayAll(s.players, d.entries, prizes, PoolHoldsPlay(d))))
  {
    var d := s.draw.value;
    assert EntriesOk(s.players, d.entries);
    assert !s.custodyOn ==> forall u :: !Funded(s.players, u);
    assert forall i | 0 <= i < |d.entries| :: EntryOk(s.players, d.entries[i]);
    assert forall u | u in s.players :: PlayerOk(s.players[u]);
    assert PoolHoldsPlay(d) ==> !s.custodyOn;
    PayAllKeeps(s.players, d.entries, prizes, PoolHoldsPlay(d));
    hide Inv, PlayerOk, EntryOk, EntriesOk, PoolHoldsPlay, PayAll, Enabled;
    PlayersKeep(s, PayAll(s.players, d.entries, prizes, PoolHoldsPlay(d)));
  }

  /** Whoever a draw pays, and whatever it carries on, deposited winners get no play money. */
  lemma SettleDrawKeeps(s: State, prizes: seq<nat>)
    requires Inv(s) && Enabled(s, SettleDraw(prizes))
    ensures Inv(Effect(s, SettleDraw(prizes)))
  {
    var d := s.draw.value;
    PrizesKeep(s, prizes);
    assert s.custodyOn ==> !PoolHoldsPlay(d);
    CarryStep(s, prizes);
    hide Inv, PoolHoldsPlay, WinnerShare, PayAll, EntriesOk, Total, Effect;
    CarryKeeps(s.(players := PayAll(s.players, d.entries, prizes, PoolHoldsPlay(d))),
               EMPTY.Add(WinnerShare(d) - Total(prizes), PoolHoldsPlay(d)));
  }

  lemma CarryKeeps(s: State, carry: Purse)
    requires Inv(s) && PurseOk(carry) && (s.custodyOn ==> !carry.play)
    ensures Inv(s.(draw := None, carry := carry))
  {
    assert LotteryOk(s.(draw := None, carry := carry));
    hide Inv;
    DrawPut(s, None, carry);
  }

  lemma CarryStep(s: State, prizes: seq<nat>)
    requires Enabled(s, SettleDraw(prizes))
    ensures var d := s.draw.value;
      Effect(s, SettleDraw(prizes))
      == s.(players := PayAll(s.players, d.entries, prizes, PoolHoldsPlay(d)), draw := None,
            carry := EMPTY.Add(WinnerShare(d) - Total(prizes), PoolHoldsPlay(d)))
  {
    hide PoolHoldsPlay, WinnerShare, PayAll, Total;
  }

  lemma CarriedOnKeeps(s: State, a: Action)
    requires Inv(s) && Enabled(s, a) && (a.OpenDraw? || a.ForgetCarry?)
    ensures Inv(Effect(s, a))
  {
    match a
    case OpenDraw(injection) =>
      NoEntries(s.players);
      var d := Draw(injection, s.carry, []);
      hide EntriesOk;
      assert LotteryOk(s.(draw := Some(d), carry := EMPTY));
      hide Inv;
      DrawPut(s, Some(d), EMPTY);
    case ForgetCarry =>
      hide EntriesOk, PoolHoldsPlay;
      assert LotteryOk(s.(draw := s.draw, carry := EMPTY));
      hide Inv;
      DrawPut(s, s.draw, EMPTY);
  }

  lemma SourceIsClean(s: State, source: Source)
    requires Inv(s) && StakeOf(s, source).Some?
    ensures Funded(s.players, StakeOf(s, source).value.0) ==> !StakeOf(s, source).value.1
  {
    match source
    case OfPosition(id) => assert PositionOk(s.players, s.custodyOn, s.positions[id]);
    case OfFlip(id, creators) => assert FlipOk(s.players, s.flips[id]);
    case OfEntry(id, index) =>
      assert EntriesOk(s.players, s.rounds[id].entries);
      assert EntryOk(s.players, s.rounds[id].entries[index]);
    case OfTicket(index) =>
      assert EntriesOk(s.players, s.draw.value.entries);
      assert EntryOk(s.players, s.draw.value.entries[index]);
  }

  lemma AccrueKeeps(s: State, source: Source, volume: nat, referrer: UserId, commission: nat)
    requires Inv(s) && Enabled(s, Accrue(source, volume, referrer, commission))
    ensures Inv(Effect(s, Accrue(source, volume, referrer, commission)))
  {
    var (referee, play) := StakeOf(s, source).value;
    SourceIsClean(s, source);
    assert !s.custodyOn ==> !Funded(s.players, referrer) && !Funded(s.players, referee);
    assert PlayerOk(s.players[referee]) && PlayerOk(s.players[referrer]);
    PlayersKeep(s, Effect(s, Accrue(source, volume, referrer, commission)).players);
  }

  /** E6: the account has nothing open on its play side when it changes sides. */
  lemma DepositKeeps(s: State, u: UserId, amount: nat)
    requires Inv(s) && Enabled(s, Deposit(u, amount))
    ensures Inv(Effect(s, Deposit(u, amount)))
  {
    var t := s.(players := s.players[u := Converted(s.players[u])]);
    if s.players[u].funded {
      assert t.players == s.players;
    } else {
      ConvertKeeps(s, u);
    }
    hide Inv;
    PayKeeps(t, u, amount, false);
  }

  lemma ConvertKeeps(s: State, u: UserId)
    requires Inv(s) && s.custodyOn && u in s.players && !s.players[u].funded && !OpenPlay(s, u)
    ensures Inv(s.(players := s.players[u := Converted(s.players[u])]))
  {
    var players := s.players[u := Converted(s.players[u])];
    var t := s.(players := players);
    assert forall v | v != u :: Funded(players, v) == Funded(s.players, v);
    assert forall v | v in players :: PlayerOk(players[v]);
    hide Funded, PlayerOk;
    forall id | id in s.positions ensures PositionOk(players, t.custodyOn, s.positions[id]) {
      assert PositionOk(s.players, s.custodyOn, s.positions[id]);
      assert !Holds(s.positions[id], u);
    }
    forall id | id in s.flips ensures FlipOk(players, s.flips[id]) {
      assert FlipOk(s.players, s.flips[id]);
      assert !Plays(s.flips[id], u);
    }
    forall id | id in s.rounds ensures EntriesOk(players, s.rounds[id].entries) {
      EntriesWithout(s, players, s.rounds[id].entries, u);
    }
    if s.draw.Some? {
      EntriesWithout(s, players, s.draw.value.entries, u);
    }
  }

  lemma EntriesWithout(s: State, players: map<UserId, Player>, entries: seq<Entry>, u: UserId)
    requires EntriesOk(s.players, entries) && !EnteredBy(entries, u) && s.players.Keys <= players.Keys
    requires forall v | v != u :: Funded(players, v) == Funded(s.players, v)
    ensures EntriesOk(players, entries)
  {
    hide Funded;
    forall i | 0 <= i < |entries| ensures EntryOk(players, entries[i]) && entries[i].user != u {
      assert EntryOk(s.players, entries[i]);
    }
  }

  lemma TotalsKeep(s: State, pool: nat, withdrawn: Purse)
    requires Inv(s) && !withdrawn.play
    ensures Inv(s.(pool := pool)) && Inv(s.(withdrawn := withdrawn))
  {
    hide PlayerOk, PositionOk, FlipOk, EntriesOk, PoolHoldsPlay;
  }

  lemma WithdrawKeeps(s: State, u: UserId, amount: nat)
    requires Inv(s) && Enabled(s, Withdraw(u, amount))
    ensures Inv(Effect(s, Withdraw(u, amount)))
  {
    assert PlayerOk(s.players[u]) && !s.withdrawn.play;
    DebitKeeps(s, u, amount);
    hide Inv;
    TotalsKeep(Debit(s, u, amount), 0, s.withdrawn.Add(amount, s.players[u].balance.play));
  }

  lemma ReturnWithdrawalKeeps(s: State, u: UserId, amount: nat)
    requires Inv(s) && Enabled(s, ReturnWithdrawal(u, amount))
    ensures Inv(Effect(s, ReturnWithdrawal(u, amount)))
  {
    assert !s.withdrawn.play;
    PayKeeps(s, u, amount, s.withdrawn.play);
    hide Inv;
    TotalsKeep(Pay(s, u, amount, s.withdrawn.play), 0, s.withdrawn.Take(amount));
  }

  lemma TipKeeps(s: State, u: UserId, amount: nat)
    requires Inv(s) && Enabled(s, Tip(u, amount))
    ensures Inv(Effect(s, Tip(u, amount)))
  {
    DebitKeeps(s, u, amount);
    hide Inv, Debit;
    TotalsKeep(Debit(s, u, amount), s.pool + amount, EMPTY);
  }

  /** E3, E4: a promotion reaches play accounts only. */
  lemma PromoteKeeps(s: State, u: UserId, amount: nat)
    requires Inv(s) && Enabled(s, Promote(u, amount))
    ensures Inv(Effect(s, Promote(u, amount)))
  {
    assert !s.custodyOn ==> !Funded(s.players, u);
    PayKeeps(s, u, amount, true);
    hide Inv;
  }

  lemma MoneyKeeps(s: State, a: Action)
    requires Inv(s) && Enabled(s, a) && (a.SignUp? || a.ClaimCommission?)
    ensures Inv(Effect(s, a))
  {
    match a
    case SignUp(u, seed) => PlayersKeep(s, Effect(s, a).players);
    case ClaimCommission(u) =>
      assert PlayerOk(s.players[u]);
      PlayersKeep(s, Effect(s, a).players);
  }

  lemma EnableKeeps(s: State)
    requires Inv(s) && !ExposedPlay(s) && !LotteryHoldsPlay(s)
    ensures Inv(Effect(s, EnableCustody))
  {
    hide PlayerOk, FlipOk, EntriesOk, PoolHoldsPlay;
  }

  lemma DisableKeeps(s: State)
    requires Inv(s) && !SomeoneFunded(s)
    ensures Inv(Effect(s, DisableCustody))
  {
    hide PlayerOk, FlipOk, EntriesOk, PoolHoldsPlay;
  }

  lemma GamesKeep(s: State, a: Action)
    requires Inv(s) && Enabled(s, a) && InGames(a) && Safe(s, a)
    ensures Inv(Effect(s, a))
  {
    hide Inv, Effect, Enabled, Safe;
    if a.Wager? {
      WagerKeeps(s, a.id, a.user, a.game, a.stake);
    } else if a.Double? {
      DoubleKeeps(s, a.id, a.seat, a.extra);
    } else if a.RoundEnds? {
      RoundEndsKeeps(s, a.id, a.payout);
    } else if a.Accept? || a.SaveSeat? || a.ClearSeat? {
      PhaseKeeps(s, a);
    } else if a.Settle? {
      SettleKeeps(s, a.id, a.payout);
    } else {
      FlipsKeep(s, a);
    }
  }

  lemma PotsKeep(s: State, a: Action)
    requires Inv(s) && Enabled(s, a) && InPots(a)
    ensures Inv(Effect(s, a))
  {
    hide Inv, Effect, Enabled;
    if a.OpenRound? {
      OpenRoundKeeps(s, a.id);
    } else if a.Enter? {
      EnterKeeps(s, a.id, a.user, a.stake);
    } else if a.DrawRound? {
      DrawRoundKeeps(s, a.id, a.index, a.payout);
    } else if a.ReturnEntry? {
      ReturnEntryKeeps(s, a.id, a.index);
    } else if a.BuyTicket? {
      BuyTicketKeeps(s, a.user, a.stake);
    } else if a.UseFreeTicket? {
      FreeTicketKeeps(s, a.user, a.volume);
    } else if a.SettleDraw? {
      SettleDrawKeeps(s, a.prizes);
    } else {
      CarriedOnKeeps(s, a);
    }
  }

  /** Every safe step keeps the two sides apart. */
  lemma StepKeepsInv(s: State, a: Action)
    requires Inv(s) && Safe(s, a)
    ensures Inv(Step(s, a))
  {
    if Enabled(s, a) {
      hide Inv, ExposedPlay, LotteryHoldsPlay, SomeoneFunded, Effect, Enabled;
      if InGames(a) {
        GamesKeep(s, a);
      } else if InPots(a) {
        PotsKeep(s, a);
      } else if a.Accrue? {
        AccrueKeeps(s, a.source, a.volume, a.referrer, a.commission);
      } else if a.Deposit? {
        DepositKeeps(s, a.user, a.amount);
      } else if a.EnableCustody? {
        EnableKeeps(s);
      } else if a.DisableCustody? {
        DisableKeeps(s);
      } else if a.SignUp? || a.ClaimCommission? {
        MoneyKeeps(s, a);
      } else if a.Tip? {
        TipKeeps(s, a.user, a.amount);
      } else if a.Promote? {
        PromoteKeeps(s, a.user, a.amount);
      } else if a.Withdraw? {
        WithdrawKeeps(s, a.user, a.amount);
      } else {
        ReturnWithdrawalKeeps(s, a.user, a.amount);
      }
    }
  }

  /** Every run of safe steps keeps the two sides apart. */
  lemma {:induction false} ExecKeepsInv(s: State, actions: seq<Action>)
    requires Inv(s) && Disciplined(s, actions)
    ensures Inv(Exec(s, actions))
    decreases |actions|
  {
    if actions != [] {
      StepKeepsInv(s, actions[0]);
      ExecKeepsInv(Step(s, actions[0]), actions[1..]);
    }
  }

  /**
   * No run withdraws play money; and at every moment a deposited account's balance, unclaimed
   * commission and free tickets, whatever it has riding, and everything the lottery could pay
   * it while custody is on, hold none.
   */
  lemma PlayNeverWithdrawn(s: State, actions: seq<Action>)
    requires Initial(s) && Disciplined(s, actions)
    ensures var t := Exec(s, actions);
      && !t.withdrawn.play
      && (forall u | Funded(t.players, u) ::
            var p := t.players[u]; !p.balance.play && !p.commission.play && !p.tickets.play)
      && (forall id | id in t.positions && Funded(t.players, t.positions[id].owner) :: !t.positions[id].stake.play)
      && (forall id, u | id in t.flips && Plays(t.flips[id], u) && Funded(t.players, u) :: !t.flips[id].pot.play)
      && (forall id, u | id in t.rounds && EnteredBy(t.rounds[id].entries, u) && Funded(t.players, u) ::
            !AnyPlay(t.rounds[id].entries))
      && (t.custodyOn ==> !LotteryHoldsPlay(t))
      && (SomeoneFunded(t) ==> t.custodyOn)
  {
    ExecKeepsInv(s, actions);
    var t := Exec(s, actions);
    hide Exec, Disciplined, PoolHoldsPlay;
    forall id, u | id in t.flips && Plays(t.flips[id], u) && Funded(t.players, u)
      ensures !t.flips[id].pot.play
    {
      assert FlipOk(t.players, t.flips[id]);
    }
    forall id, u | id in t.rounds && EnteredBy(t.rounds[id].entries, u) && Funded(t.players, u)
      ensures !AnyPlay(t.rounds[id].entries)
    {
      var i :| 0 <= i < |t.rounds[id].entries| && t.rounds[id].entries[i].user == u;
      EntriesAreClean(t.players, t.rounds[id].entries, i);
    }
    assert forall u | u in t.players :: PlayerOk(t.players[u]);
    forall id | id in t.positions && Funded(t.players, t.positions[id].owner)
      ensures !t.positions[id].stake.play
    {
      assert PositionOk(t.players, t.custodyOn, t.positions[id]);
    }
  }

  // ---- The open-position check, as the code runs it -----------------------------------------

  datatype Label = CrashOpen | CoinflipOpen | JackpotOpen | LotteryOpen | InstantOpen | BlackjackOpen

  predicate HasPosition(s: State, u: UserId, game: Game) {
    exists id :: id in s.positions && Holds(s.positions[id], u) && s.positions[id].game == game
  }

  predicate HasFlip(s: State, u: UserId) {
    exists id :: id in s.flips && Plays(s.flips[id], u)
  }

  predicate HasEntry(s: State, u: UserId) {
    exists id :: id in s.rounds && EnteredBy(s.rounds[id].entries, u)
  }

  predicate HasTicket(s: State, u: UserId) {
    s.draw.Some? && EnteredBy(s.draw.value.entries, u)
  }

  /** What each label stands for. */
  predicate Riding(s: State, u: UserId, l: Label) {
    match l
    case CrashOpen => HasPosition(s, u, Crash) || HasPosition(s, u, ScheduledCrash)
    case CoinflipOpen => HasFlip(s, u)
    case JackpotOpen => HasEntry(s, u)
    case LotteryOpen => HasTicket(s, u)
    case InstantOpen => HasPosition(s, u, Instant)
    case BlackjackOpen => HasPosition(s, u, Blackjack)
  }

  method CountPositions(s: State, u: UserId, game: Game) returns (n: nat)
    ensures n > 0 <==> HasPosition(s, u, game)
  {
    var found := set id | id in s.positions && Holds(s.positions[id], u) && s.positions[id].game == game;
    n := |found|;
    assert forall id | id in s.positions && Holds(s.positions[id], u) && s.positions[id].game == game :: id in found;
    assert n > 0 ==> exists id :: id in found;
  }

  method CountEntries(s: State, u: UserId) returns (n: nat)
    ensures n > 0 <==> HasEntry(s, u)
  {
    var found := set id | id in s.rounds && EnteredBy(s.rounds[id].entries, u);
    n := |found|;
    assert forall id | id in s.rounds && EnteredBy(s.rounds[id].entries, u) :: id in found;
    assert n > 0 ==> exists id :: id in found;
  }

  method CountTickets(s: State, u: UserId) returns (n: nat)
    ensures n > 0 <==> HasTicket(s, u)
  {
    n := 0;
    if s.draw.Some? {
      var entries := s.draw.value.entries;
      for i := 0 to |entries|
        invariant n > 0 <==> exists j :: 0 <= j < i && entries[j].user == u
      {
        if entries[i].user == u {
          n := n + 1;
        }
      }
    }
  }

  method CountFlips(s: State, u: UserId) returns (n: nat)
    ensures n > 0 <==> HasFlip(s, u)
  {
    var found := set id | id in s.flips && Plays(s.flips[id], u);
    n := |found|;
    assert forall id | id in s.flips && Plays(s.flips[id], u) :: id in found;
    assert n > 0 ==> exists id :: id in found;
  }

  /** Of the kinds looked at so far, the ones riding, each once. */
  ghost predicate Noted(s: State, u: UserId, seen: set<Label>, open: seq<Label>) {
    && (forall l :: l in open <==> l in seen && Riding(s, u, l))
    && (forall i, j | 0 <= i < j < |open| :: open[i] != open[j])
  }

  lemma Note(s: State, u: UserId, seen: set<Label>, open: seq<Label>, l: Label)
    requires Noted(s, u, seen, open) && l !in seen
    ensures Noted(s, u, seen + {l}, if Riding(s, u, l) then open + [l] else open)
  {
    hide Riding;
    var more := open + [l];
    assert forall x :: x in more <==> x in open || x == l;
  }

  /** A label for each kind of stake riding, each once; none exactly when E6 lets a first deposit through. */
  method OpenPlayPositions(s: State, u: UserId) returns (open: seq<Label>)
    ensures forall l :: l in open <==> Riding(s, u, l)
    ensures forall i, j | 0 <= i < j < |open| :: open[i] != open[j]
    ensures open == [] <==> !OpenPlay(s, u)
  {
    hide HasPosition, HasFlip, HasEntry, HasTicket, Noted, OpenPlay;
    open := [];
    NotedNothing(s, u);
    var crash := CountPositions(s, u, Crash);
    var scheduled := CountPositions(s, u, ScheduledCrash);
    Note(s, u, {}, open, CrashOpen);
    if crash + scheduled > 0 {
      open := open + [CrashOpen];
    }
    var flips := CountFlips(s, u);
    Note(s, u, {} + {CrashOpen}, open, CoinflipOpen);
    if flips > 0 {
      open := open + [CoinflipOpen];
    }
    var jackpot := CountEntries(s, u);
    Note(s, u, {} + {CrashOpen} + {CoinflipOpen}, open, JackpotOpen);
    if jackpot > 0 {
      open := open + [JackpotOpen];
    }
    var lottery := CountTickets(s, u);
    ghost var seen := {} + {CrashOpen} + {CoinflipOpen} + {JackpotOpen};
    Note(s, u, seen, open, LotteryOpen);
    if lottery > 0 {
      open := open + [LotteryOpen];
    }
    var instant := CountPositions(s, u, Instant);
    Note(s, u, seen + {LotteryOpen}, open, InstantOpen);
    if instant > 0 {
      open := open + [InstantOpen];
    }
    var blackjack := CountPositions(s, u, Blackjack);
    Note(s, u, seen + {LotteryOpen} + {InstantOpen}, open, BlackjackOpen);
    if blackjack > 0 {
      open := open + [BlackjackOpen];
    }
    AllNoted(s, u, open);
  }

  lemma NotedNothing(s: State, u: UserId)
    ensures Noted(s, u, {}, [])
  {
  }

  lemma AllNoted(s: State, u: UserId, open: seq<Label>)
    requires Noted(s, u, {} + {CrashOpen} + {CoinflipOpen} + {JackpotOpen} + {LotteryOpen} + {InstantOpen} + {BlackjackOpen}, open)
    ensures forall l :: l in open <==> Riding(s, u, l)
    ensures forall i, j | 0 <= i < j < |open| :: open[i] != open[j]
    ensures open == [] <==> !OpenPlay(s, u)
  {
    AnyLabel(s, u);
    hide Riding, OpenPlay;
    forall l: Label ensures l in open <==> Riding(s, u, l) {
      match l
      case CrashOpen => case CoinflipOpen => case JackpotOpen =>
      case LotteryOpen => case InstantOpen => case BlackjackOpen =>
    }
    assert open != [] ==> open[0] in open;
  }

  lemma AnyLabel(s: State, u: UserId)
    ensures OpenPlay(s, u) <==> exists l :: Riding(s, u, l)
  {
    if OpenPlay(s, u) {
      assert Riding(s, u, CrashOpen) || Riding(s, u, CoinflipOpen) || Riding(s, u, JackpotOpen)
          || Riding(s, u, LotteryOpen) || Riding(s, u, InstantOpen) || Riding(s, u, BlackjackOpen) by {
        if id :| id in s.positions && Holds(s.positions[id], u) {
          assert HasPosition(s, u, s.positions[id].game);
        }
      }
    }
  }
}
