/** `request`: debit and queue a withdrawal in one serializable transaction. */
module WithdrawalDesk {
  import opened Wrappers
  import opened Sums
  import P = WithdrawalProtocol
  import opened CustodyBooks

  // ---- When a request is queued ---------------------------------------------------------

  /** What the user's withdrawals since midnight hold or have paid: all but the refunded ones. */
  function SpentSince(ws: seq<Withdrawal>, user: nat, midnight: nat): nat {
    if ws == [] then 0
    else
      var n := |ws| - 1;
      var w := ws[n];
      SpentSince(ws[..n], user, midnight)
      + (if w.user != user || w.day < midnight || w.machine.row.status == P.Failed then 0 else w.machine.amount)
  }

  lemma {:induction false} SpentIsLive(ws: seq<Withdrawal>, user: nat, midnight: nat)
    ensures Total(LiveSince(ws, user, midnight)) == SpentSince(ws, user, midnight)
    decreases |ws|
  {
    if ws != [] {
      var n := |ws| - 1;
      SpentIsLive(ws[..n], user, midnight);
      assert LiveSince(ws, user, midnight)[..n] == LiveSince(ws[..n], user, midnight);
    }
  }

  /** Every withdrawal of the user is over: paid or refunded. */
  predicate AllSettled(ws: seq<Withdrawal>, user: nat) {
    forall i | 0 <= i < |ws| && ws[i].user == user ::
      ws[i].machine.row.status == P.Confirmed || ws[i].machine.row.status == P.Failed
  }

  lemma SettledIsNoneInFlight(ws: seq<Withdrawal>, user: nat)
    ensures Total(InFlight(ws, user)) <= 0 <==> AllSettled(ws, user)
  {
    var flags := InFlight(ws, user);
    TotalNonNegative(flags);
    if AllSettled(ws, user) {
      AllZero(flags);
    } else {
      var i :| 0 <= i < |ws| && ws[i].user == user && Open(ws[i]);
      TotalCovers(flags, i);
    }
  }

  predicate InRange(limits: Limits, amount: nat, paused: bool) {
    limits.minWithdraw <= amount <= limits.maxWithdraw && !paused
  }

  /** A deposited, unbanned account that has the money, to a wallet of its own, one at a time, within the day. */
  predicate MayQueue(account: User, ws: seq<Withdrawal>, limits: Limits, user: nat, amount: nat, today: nat, ownWallet: bool) {
    && account.funded && !account.banned && amount <= account.balance && ownWallet && AllSettled(ws, user)
    && SpentSince(ws, user, today) + amount <= limits.daily
  }

  /** What each refusal says is so. */
  predicate Cause(why: Refusal, account: User, ws: seq<Withdrawal>, limits: Limits,
                  user: nat, amount: nat, today: nat, paused: bool, ownWallet: bool)
  {
    match why
    case BelowMinimum => amount < limits.minWithdraw
    case AboveMaximum => limits.maxWithdraw < amount
    case Paused => paused
    case NotFunded => !account.funded
    case ForeignWallet => !ownWallet
    case InProgress => !AllSettled(ws, user)
    case DailyLimit => limits.daily < SpentSince(ws, user, today) + amount
    case InsufficientBalance => account.banned || account.balance < amount
  }

  /** The checks let through just what may be queued, and a refusal names a cause that is there. */
  lemma RefusedExactly(account: User, ws: seq<Withdrawal>, limits: Limits,
                       user: nat, amount: nat, today: nat, paused: bool, ownWallet: bool)
    ensures RefusedEarly(limits, amount, paused) == None <==> InRange(limits, amount, paused)
    ensures Refused(account, ws, limits, user, amount, today, ownWallet) == None
            <==> MayQueue(account, ws, limits, user, amount, today, ownWallet)
    ensures RefusedEarly(limits, amount, paused).Some? ==>
      Cause(RefusedEarly(limits, amount, paused).value, account, ws, limits, user, amount, today, paused, ownWallet)
    ensures Refused(account, ws, limits, user, amount, today, ownWallet).Some? ==>
      Cause(Refused(account, ws, limits, user, amount, today, ownWallet).value,
            account, ws, limits, user, amount, today, paused, ownWallet)
  {
    SpentIsLive(ws, user, today);
    SettledIsNoneInFlight(ws, user);
    hide AllSettled, InFlight, LiveSince;
  }

  class Desk {
    var limits: Limits
    var users: seq<User>
    var withdrawals: seq<Withdrawal>
    var replays: map<(nat, string), nat>

    constructor (users: seq<User>, limits: Limits)
      ensures this.users == users && this.limits == limits && withdrawals == [] && replays == map[]
    {
      this.users := users;
      this.limits := limits;
      withdrawals := [];
      replays := map[];
    }

    /** The settings are read live: an operator may change them between any two requests. */
    method SetLimits(limits: Limits)
      modifies this`limits
      ensures this.limits == limits
    {
      this.limits := limits;
    }

    method CountInFlight(user: nat) returns (n: int)
      ensures n == Total(InFlight(withdrawals, user))
    {
      n := 0;
      for i := 0 to |withdrawals|
        invariant n == Total(InFlight(withdrawals[..i], user))
      {
        var here := if withdrawals[i].user == user && Open(withdrawals[i]) then 1 else 0;
        assert InFlight(withdrawals[..i + 1], user) == InFlight(withdrawals[..i], user) + [here];
        TotalAppend(InFlight(withdrawals[..i], user), here);
        n := n + here;
      }
      assert withdrawals[..|withdrawals|] == withdrawals;
    }

    method SumLive(user: nat, today: nat) returns (sum: int)
      ensures sum == Total(LiveSince(withdrawals, user, today))
    {
      sum := 0;
      for i := 0 to |withdrawals|
        invariant sum == Total(LiveSince(withdrawals[..i], user, today))
      {
        var w := withdrawals[i];
        var here := if w.user == user && w.day >= today && CountsTowardLimit(w) then w.machine.amount else 0;
        assert LiveSince(withdrawals[..i + 1], user, today) == LiveSince(withdrawals[..i], user, today) + [here];
        TotalAppend(LiveSince(withdrawals[..i], user, today), here);
        sum := sum + here;
      }
      assert withdrawals[..|withdrawals|] == withdrawals;
    }

    /**
     * The withdrawal's id, or the refusal; a refused request changes nothing, and a
     * replayed idempotency key answers with the first withdrawal and debits nothing.
     */
    method Request(user: nat, amount: nat, today: nat, paused: bool, ownWallet: bool,
                   config: P.Config, lag: nat, finalized: nat, key: string)
      returns (r: Result<nat, Refusal>)
      requires user < |users|
      modifies this`users, this`withdrawals, this`replays
      ensures r.Err? ==> users == old(users) && withdrawals == old(withdrawals) && replays == old(replays)
      ensures r.Err? ==>
        Cause(r.error, old(users)[user], old(withdrawals), limits, user, amount, today, paused, ownWallet)
      ensures r.Ok? <==>
        && InRange(limits, amount, paused)
        && ((key != "" && (user, key) in old(replays))
            || MayQueue(old(users)[user], old(withdrawals), limits, user, amount, today, ownWallet))
      ensures RefusedEarly(limits, amount, paused).Some? ==> r == Err(RefusedEarly(limits, amount, paused).value)
      ensures RefusedEarly(limits, amount, paused) == None && key != "" && (user, key) in old(replays) ==>
        && r == Ok(old(replays)[(user, key)])
        && users == old(users) && withdrawals == old(withdrawals) && replays == old(replays)
      ensures RefusedEarly(limits, amount, paused) == None && !(key != "" && (user, key) in old(replays)) ==>
        match Refused(old(users)[user], old(withdrawals), limits, user, amount, today, ownWallet)
        case Some(why) => r == Err(why)
        case None =>
          && r == Ok(|old(withdrawals)|)
          && users == old(users)[user := old(users)[user].(balance := old(users)[user].balance - amount)]
          && withdrawals == old(withdrawals) + [Withdrawal(user, today, NewMachine(amount, lag, config, finalized))]
          && replays == (if key != "" then old(replays)[(user, key) := |old(withdrawals)|] else old(replays))
    {
      RefusedExactly(users[user], withdrawals, limits, user, amount, today, paused, ownWallet);
      hide SpentSince, AllSettled, InFlight, LiveSince, Total;
      if amount < limits.minWithdraw {
        return Err(BelowMinimum);
      }
      if amount > limits.maxWithdraw {
        return Err(AboveMaximum);
      }
      if paused {
        return Err(Paused);
      }
      if key != "" && (user, key) in replays {
        return Ok(replays[(user, key)]);
      }
      if !users[user].funded {
        return Err(NotFunded);
      }
      if !ownWallet {
        return Err(ForeignWallet);
      }
      var inFlight := CountInFlight(user);
      if inFlight > 0 {
        return Err(InProgress);
      }
      var live := SumLive(user, today);
      if live + amount > limits.daily {
        return Err(DailyLimit);
      }
      if users[user].banned || users[user].balance < amount {
        return Err(InsufficientBalance);
      }
      var id := |withdrawals|;
      withdrawals := withdrawals + [Withdrawal(user, today, NewMachine(amount, lag, config, finalized))];
      users := users[user := users[user].(balance := users[user].balance - amount)];
      if key != "" {
        replays := replays[(user, key) := id];
      }
      r := Ok(id);
    }
  }
}
