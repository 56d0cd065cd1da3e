/**
 * The single mutation point for balances: a guarded change of one balance column and
 * an append-only ledger row, committed together. An account is one (user, currency).
 */
module BalanceLedger {
  import opened Wrappers
  import opened Sums

  datatype Refusal = InsufficientBalance | CapReached | NoSuchAccount

  datatype Entry = Entry(account: nat, delta: int, balanceAfter: int)

  /** What a movement leaves behind, or why nothing moves. */
  function Moved(balance: int, banned: bool, delta: int, cap: Option<int>): Result<int, Refusal> {
    if delta < 0 then
      if !banned && balance >= -delta then Ok(balance + delta) else Err(InsufficientBalance)
    else if delta > 0 && cap.Some? && balance > cap.value - delta then Err(CapReached)
    else Ok(balance + delta)
  }

  /** The deltas of one account, zero at the rows of others. */
  function DeltasOf(ledger: seq<Entry>, account: nat): seq<int> {
    seq(|ledger|, i requires 0 <= i < |ledger| => if ledger[i].account == account then ledger[i].delta else 0)
  }

  /** `balanceAfter` of the account's latest row. */
  function Latest(ledger: seq<Entry>, account: nat): Option<int> {
    if ledger == [] then None
    else
      var last := ledger[|ledger| - 1];
      if last.account == account then Some(last.balanceAfter) else Latest(ledger[..|ledger| - 1], account)
  }

  class BalanceBook {
    const opening: seq<nat>
    var balances: seq<int>
    var banned: seq<bool>
    var ledger: seq<Entry>

    /**
     * The balance is a projection of the ledger: never negative, the opening balance
     * plus every delta, and equal to the latest row's `balanceAfter`.
     */
    ghost predicate Valid()
      reads this
    {
      && |balances| == |banned| == |opening|
      && (forall e <- ledger :: e.account < |balances|)
      && (forall a: nat | a < |balances| :: Projected(a))
    }

    ghost predicate Projected(a: nat)
      requires a < |balances| && a < |opening|
      reads this
    {
      && balances[a] >= 0
      && balances[a] == opening[a] + Total(DeltasOf(ledger, a))
      && balances[a] == (match Latest(ledger, a) case Some(after) => after case None => opening[a])
    }

    constructor (opening: seq<nat>)
      ensures Valid() && this.opening == opening && ledger == []
      ensures balances == opening
    {
      this.opening := opening;
      balances := opening;
      banned := seq(|opening|, _ => false);
      ledger := [];
    }

    method SetBanned(a: nat, flag: bool)
      requires Valid() && a < |banned|
      modifies this`banned
      ensures Valid() && banned == old(banned)[a := flag]
    {
      banned := banned[a := flag];
      forall b: nat | b < |balances| ensures Projected(b) {
        assert old(Projected(b));
      }
    }

    method ApplyBalanceDelta(a: nat, delta: int, cap: Option<int>) returns (r: Result<int, Refusal>)
      requires Valid()
      modifies this`balances, this`ledger
      ensures Valid()
      ensures r == if a < |old(balances)| then Moved(old(balances)[a], banned[a], delta, cap)
                   else Err(if delta < 0 then InsufficientBalance else if delta > 0 && cap.Some? then CapReached else NoSuchAccount)
      ensures r.Ok? ==> balances == old(balances)[a := r.value] && ledger == old(ledger) + [Entry(a, delta, r.value)]
      ensures r.Err? ==> balances == old(balances) && ledger == old(ledger)
      ensures r.Ok? <==>
        && a < |old(balances)| && 0 <= old(balances)[a] + delta && (delta < 0 ==> !banned[a])
        && (delta > 0 && cap.Some? ==> old(balances)[a] + delta <= cap.value)
      ensures r.Ok? ==> r.value == old(balances)[a] + delta
      ensures r.Err? ==>
        match r.error
        case InsufficientBalance => delta < 0
        case CapReached => delta > 0 && cap.Some?
        case NoSuchAccount => a >= |old(balances)| && delta >= 0 && (delta > 0 ==> cap.None?)
    {
      if a < |balances| {
        assert Projected(a);
      }
      if delta < 0 {
        if !(a < |balances| && !banned[a] && balances[a] >= -delta) {
          return Err(InsufficientBalance);
        }
        balances := balances[a := balances[a] + delta];
      } else if delta > 0 {
        if cap.Some? {
          if !(a < |balances| && balances[a] <= cap.value - delta) {
            return Err(CapReached);
          }
          balances := balances[a := balances[a] + delta];
        } else {
          if !(a < |balances|) {
            return Err(NoSuchAccount);
          }
          balances := balances[a := balances[a] + delta];
        }
      }
      if !(a < |balances|) {
        return Err(NoSuchAccount);
      }
      ghost var before := ledger;
      var balanceAfter := balances[a];
      ledger := ledger + [Entry(a, delta, balanceAfter)];
      forall b: nat | b < |balances| ensures Projected(b) {
        AppendProjects(before, Entry(a, delta, balanceAfter), b);
        assert old(Projected(b));
      }
      assert Projected(a);
      r := Ok(balanceAfter);
    }
  }

  lemma AppendProjects(ledger: seq<Entry>, e: Entry, a: nat)
    ensures Total(DeltasOf(ledger + [e], a)) ==
            Total(DeltasOf(ledger, a)) + (if e.account == a then e.delta else 0)
    ensures Latest(ledger + [e], a) == if e.account == a then Some(e.balanceAfter) else Latest(ledger, a)
  {
    var d := if e.account == a then e.delta else 0;
    assert DeltasOf(ledger + [e], a) == DeltasOf(ledger, a) + [d];
    TotalAppend(DeltasOf(ledger, a), d);
    assert (ledger + [e])[..|ledger + [e]| - 1] == ledger;
  }
}
