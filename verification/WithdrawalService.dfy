/**
 * The service code that drives a withdrawal, with everything else that may happen at
 * each of its awaits. `CustodyWorld` is the row, the chain and the other workers;
 * `Interfere` is an await: any number of steps of anyone else. The contracts tie every
 * execution to a run of the state machine in WithdrawalProtocol, so its safety lemmas
 * speak about this code.
 */
module WithdrawalService {
  import opened Wrappers
  import opened WithdrawalProtocol

  predicate ActsFor(a: Action, me: nat) {
    match a
    case ReadRow(w) => w == me
    case PauseAnswer(w, _) => w == me
    case BalanceAnswer(w, _) => w == me
    case SignAnswer(w, _) => w == me
    case Claim(w) => w == me
    case Broadcast(w) => w == me
    case HeightAnswer(w, _) => w == me
    case StatusAnswer(w, _, _) => w == me
    case Confirm(w) => w == me
    case Repend(w) => w == me
    case Refund(w) => w == me
    case Start(w) => w == me
    case Crash(w) => w == me
    case _ => false
  }

  /** What someone else does never moves this worker's place in the code. */
  lemma LeavesAlone(s: State, a: Action, me: nat)
    requires Enabled(s, a) && !ActsFor(a, me)
    ensures var t := Effect(s, a);
      && t == Step(s, a) && t.amount == s.amount && t.lag == s.lag
      && (me in s.workers <==> me in t.workers)
      && (me in s.workers ==> t.workers[me] == s.workers[me])
  {
  }

  predicate OthersOnly(steps: seq<Action>, me: nat) {
    forall a | a in steps :: !ActsFor(a, me)
  }

  predicate Without(steps: seq<Action>, act: Action) {
    forall a | a in steps :: a != act
  }

  lemma StillWithout(start: seq<Action>, trace: seq<Action>, longer: seq<Action>, me: nat, act: Action)
    requires start <= trace <= longer && Without(trace[|start|..], act) && ActsFor(act, me)
    requires OthersOnly(longer[|trace|..], me) || (|longer| == |trace| + 1 && longer[|trace|] != act)
    ensures Without(longer[|start|..], act)
  {
    assert longer[|start|..] == trace[|start|..] + longer[|trace|..];
  }

  /** Among these steps `me` neither reads the row nor claims it. */
  predicate Quiet(steps: seq<Action>, me: nat) {
    Without(steps, Claim(me)) && Without(steps, ReadRow(me))
  }

  lemma NoneOfOurs(start: seq<Action>, trace: seq<Action>, longer: seq<Action>, me: nat)
    requires start <= trace <= longer && Quiet(trace[|start|..], me)
    requires OthersOnly(longer[|trace|..], me)
          || (|longer| == |trace| + 1 && longer[|trace|] != Claim(me) && longer[|trace|] != ReadRow(me))
    ensures Quiet(longer[|start|..], me)
  {
    StillWithout(start, trace, longer, me, Claim(me));
    StillWithout(start, trace, longer, me, ReadRow(me));
  }

  /** How often `me` read the row in these steps. */
  function Reads(steps: seq<Action>, me: nat): nat {
    if steps == [] then 0 else Reads(steps[..|steps| - 1], me) + (if steps[|steps| - 1] == ReadRow(me) then 1 else 0)
  }

  lemma {:induction false} NoReads(steps: seq<Action>, me: nat)
    requires Without(steps, ReadRow(me))
    ensures Reads(steps, me) == 0
    decreases |steps|
  {
    if steps != [] {
      var n := |steps| - 1;
      assert steps[n] in steps && forall a | a in steps[..n] :: a in steps;
      NoReads(steps[..n], me);
    }
  }

  lemma {:induction false} ReadsConcat(a: seq<Action>, b: seq<Action>, me: nat)
    ensures Reads(a + b, me) == Reads(a, me) + Reads(b, me)
    decreases |b|
  {
    if b == [] {
      assert a + b == a;
    } else {
      assert (a + b)[..|a + b| - 1] == a + b[..|b| - 1];
      ReadsConcat(a, b[..|b| - 1], me);
    }
  }

  /** A pass: steps of others, one reading of the row, and no other after it. */
  lemma OneRead(start: seq<Action>, k: nat, trace: seq<Action>, me: nat)
    requires |start| <= k < |trace| && start <= trace && trace[k] == ReadRow(me)
    requires OthersOnly(trace[|start|..k], me) && Without(trace[k + 1..], ReadRow(me))
    ensures Reads(trace[|start|..], me) == 1
  {
    assert Without(trace[|start|..k], ReadRow(me));
    NoReads(trace[|start|..k], me);
    NoReads(trace[k + 1..], me);
    ReadsConcat(trace[|start|..k], [ReadRow(me)], me);
    ReadsConcat(trace[|start|..k] + [ReadRow(me)], trace[k + 1..], me);
    assert trace[|start|..] == trace[|start|..k] + [ReadRow(me)] + trace[k + 1..];
    assert [ReadRow(me)][..0] == [];
  }

  lemma SettledNeedsNothing(trace: seq<Action>, me: nat)
    ensures Without(trace[|trace|..], ReadRow(me))
  {
  }

  lemma ReadIsOurs(me: nat)
    ensures ActsFor(ReadRow(me), me)
  {
  }

  lemma BothQuiet(start: seq<Action>, trace: seq<Action>, longer: seq<Action>, me: nat)
    requires start <= trace <= longer && Quiet(trace[|start|..], me) && Quiet(longer[|trace|..], me)
    ensures Quiet(longer[|start|..], me)
  {
    assert longer[|start|..] == trace[|start|..] + longer[|trace|..];
  }

  lemma QuietReads(steps: seq<Action>, me: nat)
    requires Quiet(steps, me)
    ensures Without(steps, ReadRow(me))
  {
  }

  lemma MoreReads(start: seq<Action>, trace: seq<Action>, longer: seq<Action>, me: nat)
    requires start <= trace <= longer
    ensures Reads(longer[|start|..], me) == Reads(trace[|start|..], me) + Reads(longer[|trace|..], me)
  {
    ReadsConcat(trace[|start|..], longer[|trace|..], me);
    assert longer[|start|..] == trace[|start|..] + longer[|trace|..];
  }

  lemma StartsClean(trace: seq<Action>)
    ensures forall me: nat :: Quiet(trace[|trace|..], me)
  {
  }

  /** Of the steps from `from` on, those in which `me` stored a signature stored `won`, if any. */
  ghost predicate StoredOnly(origin: State, trace: seq<Action>, from: nat, me: nat, won: Option<Signature>) {
    forall k | from <= k < |trace| && trace[k] == Claim(me) :: StoredAt(origin, trace[..k], trace[..k + 1], won)
  }

  ghost predicate StoredAt(origin: State, before: seq<Action>, after: seq<Action>, won: Option<Signature>) {
    Exec(origin, after).stored == Exec(origin, before).stored + (match won case Some(sig) => [sig] case None => [])
  }

  lemma NoneStored(origin: State, start: seq<Action>, trace: seq<Action>, me: nat)
    requires start <= trace && Quiet(trace[|start|..], me)
    ensures StoredOnly(origin, trace, |start|, me, None)
  {
    NotAmong(trace, |start|, me);
  }

  lemma NotAmong(trace: seq<Action>, from: nat, me: nat)
    requires from <= |trace| && Without(trace[from..], Claim(me))
    ensures forall k | from <= k < |trace| :: trace[k] != Claim(me)
  {
    forall k | from <= k < |trace| ensures trace[k] != Claim(me) {
      assert trace[k] in trace[from..];
    }
  }

  /** One claim among steps that are others': the only one of ours. */
  lemma OneStored(origin: State, start: seq<Action>, before: seq<Action>, after: seq<Action>, trace: seq<Action>,
                  me: nat, won: Option<Signature>)
    requires start <= before && after == before + [Claim(me)] && after <= trace
    requires Quiet(before[|start|..], me) && Quiet(trace[|after|..], me)
    requires StoredAt(origin, before, after, won)
    ensures StoredOnly(origin, trace, |start|, me, won)
  {
    NotAmong(before, |start|, me);
    NotAmong(trace, |after|, me);
    hide Exec, Without, Quiet, StoredAt;
    var n := |before|;
    assert trace[..n] == before && trace[..n + 1] == after;
    assert forall i | 0 <= i < n :: trace[i] == before[i];
    assert forall k | |start| <= k < |trace| && trace[k] == Claim(me) :: k == n;
  }

  class CustodyWorld {
    const amount: nat
    const lag: nat
    var row: Row
    var chain: Chain
    var config: Config
    var workers: map<nat, Pc>
    var refunds: nat
    var stored: seq<Signature>
    var cap: nat
    ghost const origin: State
    ghost var trace: seq<Action>

    function Now(): State
      reads this
    {
      State(amount, lag, row, chain, config, workers, refunds, stored, cap)
    }

    /** The world is where some run of the protocol, recorded in `trace`, has brought it. */
    ghost predicate Valid()
      reads this
    {
      Initial(origin) && Now() == Exec(origin, trace)
    }

    /** What every recorded run guarantees about the present. */
    ghost predicate Sound()
      reads this
    {
      && Inv(Now())
      && (forall a, b | a in chain.landed && b in chain.landed && chain.landed[a].ok && chain.landed[b].ok :: a == b)
      && (row.status == Confirmed ==> row.signature.Some? && Paid(chain, row.signature.value) && refunds == 0)
      && (row.status == Failed ==> refunds == 1 && forall sig <- chain.landed :: !chain.landed[sig].ok)
    }

    lemma ValidIsSound()
      requires Valid()
      ensures Sound()
    {
      InitialInv(origin);
      ExecKeepsInv(origin, trace);
      forall a, b | a in chain.landed && b in chain.landed && chain.landed[a].ok && chain.landed[b].ok
        ensures a == b
      {
        PaysAtMostOnce(origin, trace, a, b);
      }
      if row.status == Failed {
        FailedNeverPays(origin, trace, []);
      }
    }

    constructor (amount: nat, lag: nat, config: Config, finalized: nat)
      requires lag <= config.margin + 1
      ensures Valid() && trace == [] && workers == map[]
    {
      this.amount := amount;
      this.lag := lag;
      this.config := config;
      row := Row(Pending, None, None, 0);
      chain := Chain(finalized, {}, map[]);
      workers := map[];
      refunds := 0;
      stored := [];
      cap := config.maxAttempts;
      trace := [];
      origin := State(amount, lag, Row(Pending, None, None, 0), Chain(finalized, {}, map[]),
                      config, map[], 0, [], config.maxAttempts);
    }

    /** Records that action `a` just happened. */
    ghost method Log(a: Action, before: State)
      requires Initial(origin) && before == Exec(origin, trace) && Now() == Step(before, a)
      modifies this`trace
      ensures trace == old(trace) + [a] && Valid()
    {
      trace := trace + [a];
      assert trace[..|trace| - 1] == old(trace);
    }

    /** An await: other workers, the chain and the operator do whatever they can do. */
    method Interfere(me: nat)
      requires Valid()
      modifies this
      ensures Valid() && old(trace) <= trace && OthersOnly(trace[|old(trace)|..], me)
      ensures me in old(workers) ==> me in workers && workers[me] == old(workers[me])
      ensures me !in old(workers) ==> me !in workers
    {
      hide Exec, Initial, Enabled, Effect, Step, ActsFor;
      var n: nat := *;
      while n > 0
        invariant Valid() && old(trace) <= trace && OthersOnly(trace[|old(trace)|..], me)
        invariant me in old(workers) ==> me in workers && workers[me] == old(workers[me])
        invariant me !in old(workers) ==> me !in workers
      {
        var a: Action := *;
        if Enabled(Now(), a) && !ActsFor(a, me) {
          LeavesAlone(Now(), a, me);
          var t := Effect(Now(), a);
          ghost var before := Now();
          row, chain, config, workers := t.row, t.chain, t.config, t.workers;
          refunds, stored, cap := t.refunds, t.stored, t.cap;
          Log(a, before);
        }
        n := n - 1;
      }
    }

    method Join(me: nat)
      requires Valid() && me !in workers
      modifies this
      ensures Valid() && old(trace) <= trace && workers == old(workers)[me := Idle]
    {
      ghost var before := Now();
      workers := workers[me := Idle];
      Log(Start(me), before);
    }

    /** `findUniqueOrThrow` at the head of `step`, with the settings read in the same breath. */
    method FindRow(me: nat) returns (read: Row, settings: Config)
      requires Valid() && me in workers && workers[me].Idle?
      modifies this
      ensures Valid() && trace == old(trace) + [ReadRow(me)]
      ensures read == row == old(row) && settings == config
      ensures me in workers && workers[me] == Dispatch(read, settings)
    {
      ghost var before := Now();
      read, settings := row, config;
      workers := workers[me := Dispatch(row, config)];
      Log(ReadRow(me), before);
    }

    method IsPaused(me: nat) returns (paused: bool)
      requires Valid() && me in workers && workers[me].PauseCheck?
      modifies this
      ensures Valid() && trace == old(trace) + [PauseAnswer(me, paused)]
      ensures me in workers && workers[me] == if paused then Idle else BalanceCheck(old(workers[me]).row)
    {
      ghost var before := Now();
      paused := *;
      workers := workers[me := if paused then Idle else BalanceCheck(workers[me].row)];
      Log(PauseAnswer(me, paused), before);
    }

    /** The hot wallet's balance, and the fee reserve in force when it is compared. */
    method HotBalance(me: nat) returns (hot: nat, reserve: nat)
      requires Valid() && me in workers && workers[me].BalanceCheck?
      modifies this
      ensures Valid() && trace == old(trace) + [BalanceAnswer(me, hot)]
      ensures me in workers
      ensures workers[me] == if hot < amount + reserve then Idle else Signing(old(workers[me]).row)
    {
      ghost var before := Now();
      hot, reserve := *, config.feeReserve;
      workers := workers[me := if hot < amount + reserve then Idle else Signing(workers[me].row)];
      Log(BalanceAnswer(me, hot), before);
    }

    method SignTransfer(me: nat) returns (signed: Signature)
      requires Valid() && me in workers && workers[me].Signing?
      modifies this
      ensures Valid() && trace == old(trace) + [SignAnswer(me, signed)]
      ensures me in workers && workers[me] == Claiming(old(workers[me]).row, signed)
    {
      ghost var before := Now();
      signed := *;
      workers := workers[me := Claiming(workers[me].row, signed)];
      Log(SignAnswer(me, signed), before);
    }

    /** `updateMany where { status: pending, attempts }`: store the signature, or lose the race. */
    method ClaimPending(me: nat, attempts: nat, signed: Signature) returns (count: nat)
      requires Valid() && me in workers && workers[me].Claiming?
      requires workers[me].row.attempts == attempts && workers[me].signature == signed
      modifies this
      ensures Valid() && trace == old(trace) + [Claim(me)] && me in workers && chain == old(chain)
      ensures stored == if count == 1 then old(stored) + [signed] else old(stored)
      ensures count == (if old(row).status == Pending && old(row).attempts == attempts then 1 else 0)
      ensures count == 1 ==> row == Row(Sent, Some(signed), Some(signed.lastValid), attempts + 1)
      ensures count == 0 ==> row == old(row)
      ensures workers[me] == if count == 1 then Broadcasting(signed) else Idle
    {
      ghost var before := Now();
      count := 0;
      if row.status == Pending && row.attempts == attempts {
        row := Row(Sent, Some(signed), Some(signed.lastValid), attempts + 1);
        stored := stored + [signed];
        count := 1;
      }
      workers := workers[me := if count == 1 then Broadcasting(signed) else Idle];
      Log(Claim(me), before);
    }

    method SendRaw(me: nat)
      requires Valid() && me in workers && workers[me].Broadcasting?
      modifies this
      ensures Valid() && trace == old(trace) + [WithdrawalProtocol.Broadcast(me)] && row == old(row)
      ensures me in workers && workers[me] == Idle
      ensures chain == old(chain).(broadcast := old(chain).broadcast + {old(workers[me]).signature})
    {
      ghost var before := Now();
      chain := chain.(broadcast := chain.broadcast + {workers[me].signature});
      workers := workers[me := Idle];
      Log(WithdrawalProtocol.Broadcast(me), before);
    }

    method FinalizedHeight(me: nat) returns (height: nat)
      requires Valid() && me in workers && workers[me].HeightRead?
      modifies this
      ensures Valid() && trace == old(trace) + [HeightAnswer(me, height)] && height <= chain.finalized
      ensures me in workers && workers[me] == StatusRead(old(workers[me]).row, height)
    {
      ghost var before := Now();
      height :| height <= chain.finalized;
      workers := workers[me := StatusRead(workers[me].row, height)];
      Log(HeightAnswer(me, height), before);
    }

    /** Any answer a node no further behind than `lag` may give, with the settings then in force. */
    method SignatureStatus(me: nat) returns (st: SignatureState, settings: Config)
      requires Valid() && me in workers && workers[me].StatusRead?
      requires workers[me].row.signature.Some? && workers[me].row.lastValid.Some?
      modifies this
      ensures Valid() && |trace| == |old(trace)| + 1 && old(trace) <= trace && trace[|old(trace)|].StatusAnswer?
      ensures me in workers
      ensures workers[me] == Verdict(old(workers[me]).row, old(workers[me]).finalized, st, settings)
    {
      ghost var before := Now();
      var pc := workers[me];
      var view: nat := *;
      st := *;
      settings := config;
      if !(pc.finalized <= view + lag && Reports(chain, pc.row.signature.value, view, st)) {
        // Seen but not settled is an answer every node may give.
        view, st := pc.finalized, SignatureState(true, false, false);
      }
      workers := workers[me := Verdict(pc.row, pc.finalized, st, config)];
      Log(StatusAnswer(me, view, st), before);
    }

    method ConfirmSent(me: nat, signature: Option<Signature>)
      requires Valid() && me in workers && workers[me].Confirming? && workers[me].row.signature == signature
      modifies this
      ensures Valid() && trace == old(trace) + [Confirm(me)] && me in workers && workers[me] == Idle
      ensures row == if old(row).status == Sent && old(row).signature == signature
                     then old(row).(status := Confirmed) else old(row)
    {
      ghost var before := Now();
      if row.status == Sent && row.signature == signature {
        row := row.(status := Confirmed);
      }
      workers := workers[me := Idle];
      Log(Confirm(me), before);
    }

    method RependSent(me: nat, signature: Option<Signature>)
      requires Valid() && me in workers && workers[me].Repending? && workers[me].row.signature == signature
      modifies this
      ensures Valid() && trace == old(trace) + [Repend(me)] && me in workers && workers[me] == Idle
      ensures row == if old(row).status == Sent && old(row).signature == signature
                     then old(row).(status := Pending, signature := None, lastValid := None) else old(row)
    {
      ghost var before := Now();
      if row.status == Sent && row.signature == signature {
        row := row.(status := Pending, signature := None, lastValid := None);
      }
      workers := workers[me := Idle];
      Log(Repend(me), before);
    }

    /** The refund transaction: flip the row and give the stake back, or neither. */
    method RefundOnce(me: nat, status: Status, signature: Option<Signature>)
      requires Valid() && me in workers && workers[me].Refunding?
      requires workers[me].row.status == status && workers[me].row.signature == signature
      modifies this
      ensures Valid() && trace == old(trace) + [Refund(me)] && me in workers && workers[me] == Idle
      ensures var hit := old(row).status == status && old(row).signature == signature;
        && row == (if hit then old(row).(status := Failed) else old(row))
        && refunds == (if hit then old(refunds) + 1 else old(refunds))
    {
      ghost var before := Now();
      if row.status == status && row.signature == signature {
        row := row.(status := Failed);
        refunds := refunds + 1;
      }
      workers := workers[me := Idle];
      Log(Refund(me), before);
    }
  }

  class WithdrawalService {
    const world: CustodyWorld
    const me: nat
    var stopped: bool

    constructor (world: CustodyWorld, me: nat)
      ensures this.world == world && this.me == me && !stopped
    {
      this.world := world;
      this.me := me;
      stopped := false;
    }

    /** `onModuleDestroy`: loops wind down after their current step. */
    method Stop()
      modifies this`stopped
      ensures stopped
    {
      stopped := true;
    }

    ghost predicate Ready()
      reads this, world
    {
      world.Valid() && me in world.workers && world.workers[me].Idle?
    }

    /**
     * `step`: one transition, decided from the stored row and the chain. It reads the row once, and
     * as the worker is idle again at the end, it has carried out whatever the protocol decides from it.
     */
    method Step() returns (row: Row)
      requires Ready()
      modifies world
      ensures Ready() && world.Sound() && old(world.trace) <= world.trace
      ensures Reads(world.trace[|old(world.trace)|..], me) == 1
      ensures row.status == Confirmed || row.status == Failed ==> row == world.row
    {
      hide Exec, Initial, ActsFor, Without, Reads;
      world.Interfere(me);
      ghost var k := |world.trace|;
      ghost var seen := world.trace;
      var read, settings := world.FindRow(me);
      ghost var after := world.trace;
      SettledNeedsNothing(after, me);
      if read.status == Pending {
        ghost var won;
        row, won := Send(read, settings);
      } else if read.status == Sent {
        row := Check(read);
        QuietReads(world.trace[|after|..], me);
      } else {
        row := read;
      }
      world.ValidIsSound();
      assert world.trace[|old(world.trace)|..k] == seen[|old(world.trace)|..];
      assert world.trace[k + 1..] == world.trace[|after|..];
      OneRead(old(world.trace), k, world.trace, me);
    }

    /** The head of `send`: asks whether it may pay, and signs. */
    method Prepare(read: Row) returns (signed: Option<Signature>)
      requires world.Valid() && me in world.workers && world.workers[me] == PauseCheck(read)
      modifies world
      ensures world.Valid() && me in world.workers && old(world.trace) <= world.trace
      ensures world.workers[me] == match signed case Some(sig) => Claiming(read, sig) case None => Idle
      ensures Quiet(world.trace[|old(world.trace)|..], me)
    {
      hide Exec, Initial, ActsFor, Quiet;
      ghost var start := world.trace;
      StartsClean(start);
      world.Interfere(me);
      NoneOfOurs(start, start, world.trace, me);
      ghost var t := world.trace;
      var paused := world.IsPaused(me);
      NoneOfOurs(start, t, world.trace, me);
      if paused {
        return None;
      }
      t := world.trace;
      world.Interfere(me);
      NoneOfOurs(start, t, world.trace, me);
      t := world.trace;
      var hot, reserve := world.HotBalance(me);
      NoneOfOurs(start, t, world.trace, me);
      if hot < world.amount + reserve {
        return None;
      }
      t := world.trace;
      world.Interfere(me);
      NoneOfOurs(start, t, world.trace, me);
      t := world.trace;
      var sig := world.SignTransfer(me);
      NoneOfOurs(start, t, world.trace, me);
      signed := Some(sig);
    }

    /**
     * The pending path. `won` is the signature its guarded update stored, if it won the race: then
     * the network has it on return. Without one, no step of ours has stored anything.
     */
    method Send(read: Row, settings: Config) returns (row: Row, ghost won: Option<Signature>)
      requires world.Valid() && me in world.workers && read.status == Pending
      requires world.workers[me] == Dispatch(read, settings)
      modifies world
      ensures Ready() && old(world.trace) <= world.trace
      ensures row.status == Confirmed || row.status == Failed ==> row == world.row
      ensures won.Some? ==> won.value in world.chain.broadcast
      ensures StoredOnly(world.origin, world.trace, |old(world.trace)|, me, won)
      ensures Without(world.trace[|old(world.trace)|..], ReadRow(me))
      ensures settings.maxAttempts <= read.attempts ==>
        |world.trace| > |old(world.trace)| && world.trace[|world.trace| - 1] == Refund(me)
    {
      ReadIsOurs(me);
      hide Exec, Initial, ActsFor, Quiet, StoredOnly, Without;
      ghost var start := world.trace;
      won := None;
      if read.attempts >= settings.maxAttempts {
        row := GiveBack(read);
        NoneStored(world.origin, start, world.trace, me);
        QuietReads(world.trace[|start|..], me);
        return;
      }
      var signed := Prepare(read);
      QuietReads(world.trace[|start|..], me);
      if signed.None? {
        NoneStored(world.origin, start, world.trace, me);
        return read, None;
      }
      ghost var t := world.trace;
      world.Interfere(me);
      NoneOfOurs(start, t, world.trace, me);
      StillWithout(start, t, world.trace, me, ReadRow(me));
      ghost var before := world.trace;
      var count := world.ClaimPending(me, read.attempts, signed.value);
      StillWithout(start, before, world.trace, me, ReadRow(me));
      ghost var after := world.trace;
      StartsClean(after);
      if count == 0 {
        OneStored(world.origin, start, before, after, after, me, None);
        return world.row, None;
      }
      world.Interfere(me);
      NoneOfOurs(after, after, world.trace, me);
      StillWithout(start, after, world.trace, me, ReadRow(me));
      t := world.trace;
      world.SendRaw(me);
      NoneOfOurs(after, t, world.trace, me);
      StillWithout(start, t, world.trace, me, ReadRow(me));
      won := signed;
      OneStored(world.origin, start, before, after, world.trace, me, won);
      row := world.row;
    }

    /** The head of `check`: the final height, and only then the signature's status. */
    method Look(read: Row) returns (finalized: nat, state: SignatureState, settings: Config)
      requires world.Valid() && me in world.workers && read.status == Sent
      requires world.workers[me] == HeightRead(read)
      modifies world
      ensures world.Valid() && me in world.workers && old(world.trace) <= world.trace
      ensures read.signature.Some? && read.lastValid.Some?
      ensures world.workers[me] == Verdict(read, finalized, state, settings)
      ensures Quiet(world.trace[|old(world.trace)|..], me)
    {
      world.ValidIsSound();
      assert WorkerOk(world.workers[me], world.stored, world.chain, world.cap);
      hide Exec, Initial, ActsFor, Quiet, Inv, Verdict;
      ghost var start := world.trace;
      StartsClean(start);
      world.Interfere(me);
      NoneOfOurs(start, start, world.trace, me);
      ghost var t := world.trace;
      finalized := world.FinalizedHeight(me);
      NoneOfOurs(start, t, world.trace, me);
      t := world.trace;
      world.Interfere(me);
      NoneOfOurs(start, t, world.trace, me);
      t := world.trace;
      state, settings := world.SignatureStatus(me);
      NoneOfOurs(start, t, world.trace, me);
    }

    method Check(read: Row) returns (row: Row)
      requires world.Valid() && me in world.workers && read.status == Sent
      requires world.workers[me] == HeightRead(read)
      modifies world
      ensures Ready() && old(world.trace) <= world.trace
      ensures row.status == Confirmed || row.status == Failed ==> row == world.row
      ensures Quiet(world.trace[|old(world.trace)|..], me)
    {
      hide Exec, Initial, ActsFor, Quiet;
      ghost var start := world.trace;
      var finalized, state, settings := Look(read);
      ghost var t := world.trace;
      if state.found {
        if !state.settled {
          return read;
        }
        if !state.failed {
          world.Interfere(me);
          NoneOfOurs(start, t, world.trace, me);
          t := world.trace;
          world.ConfirmSent(me, read.signature);
          NoneOfOurs(start, t, world.trace, me);
          return world.row;
        }
      } else {
        if finalized <= read.lastValid.value + settings.margin {
          return read;
        }
      }
      if read.attempts >= settings.maxAttempts {
        row := GiveBack(read);
        BothQuiet(start, t, world.trace, me);
        return;
      }
      world.Interfere(me);
      NoneOfOurs(start, t, world.trace, me);
      t := world.trace;
      world.RependSent(me, read.signature);
      NoneOfOurs(start, t, world.trace, me);
      row := world.row;
    }

    method GiveBack(read: Row) returns (row: Row)
      requires world.Valid() && me in world.workers && world.workers[me] == Refunding(read)
      modifies world
      ensures Ready() && old(world.trace) <= world.trace && row == world.row
      ensures |world.trace| > |old(world.trace)| && world.trace[|world.trace| - 1] == Refund(me)
      ensures Quiet(world.trace[|old(world.trace)|..], me)
    {
      hide Exec, Initial, ActsFor, Quiet;
      ghost var start := world.trace;
      StartsClean(start);
      world.Interfere(me);
      NoneOfOurs(start, start, world.trace, me);
      ghost var t := world.trace;
      world.RefundOnce(me, read.status, read.signature);
      NoneOfOurs(start, t, world.trace, me);
      row := world.row;
    }

    /**
     * `drive`: step until the row settles, the service stops or the window closes. One pass is made
     * in any case, and all of the window's while the row stays open and the service runs.
     */
    method Drive(polls: nat) returns (row: Row)
      requires Ready()
      modifies world
      ensures Ready() && world.Sound() && old(world.trace) <= world.trace
      ensures 1 <= Reads(world.trace[|old(world.trace)|..], me) <= polls + 1
      ensures !stopped && (row.status == Pending || row.status == Sent) ==>
        Reads(world.trace[|old(world.trace)|..], me) == polls + 1
      ensures stopped ==> Reads(world.trace[|old(world.trace)|..], me) == 1
      ensures row.status == Confirmed || row.status == Failed ==> row == world.row
    {
      row := Step();
      var left := polls;
      hide Reads;
      while !stopped && (row.status == Pending || row.status == Sent) && left > 0
        invariant Ready() && world.Sound() && old(world.trace) <= world.trace && 0 <= left <= polls
        invariant Reads(world.trace[|old(world.trace)|..], me) == 1 + (polls - left)
        invariant stopped ==> left == polls
        invariant row.status == Confirmed || row.status == Failed ==> row == world.row
      {
        ghost var before := world.trace;
        row := Step();
        MoreReads(old(world.trace), before, world.trace, me);
        left := left - 1;
      }
    }
  }
}
