# Proofs about money in Scadium

A model, in Dafny, of the parts of Scadium that move money, and proofs about them. Run
`dafny verify dfyconfig.toml` in this directory.

| file | what it models |
|---|---|
| `WithdrawalProtocol.dfy` | one custody withdrawal as a state machine: the row, the chain, any number of workers that may stop between any two awaits |
| `WithdrawalProgress.dfy` | what the protocol gets done: payment, refunds, permission to sign, broadcast |
| `WithdrawalService.dfy` | the service's code, with everyone else's steps at each await; every execution is a run of that machine |
| `WithdrawalDesk.dfy` | the withdrawal request transaction |
| `CustodyBooks.dfy` | all accounts, withdrawals and deposits against the hot wallet; the solvency check and the limits |
| `BalanceLedger.dfy` | the single mutation point for balances |
| `ChainHistory.dfy` | reading the treasury's history page by page while it grows |
| `DepositProtocol.dfy`, `DepositService.dfy` | deposits: the state machine, and the code of confirm, scan, retry and credit as runs of it |
| `DepositCredits.dfy` | the crediting transaction's decision and what it moves |
| `DepositDust.dfy` | what an ignored transfer's senders were, exactly |
| `DepositBacklog.dfy` | which held deposits no retry ever reaches, exactly |
| `Economy.dfy` | the rules that keep play money out of withdrawals |
| `EconomySafety.dfy` | which steps are safe, exactly |
| `EconomyMoves.dfy` | what each step of the economy moves, and who may take it |
| `EconomyRuns.dfy` | runs that withdraw play money |
| `ConstantProductPool.dfy`, `PoolLaws.dfy`, `PoolProgram.dfy` | the swap program: its formulas and runs, what each instruction does by bounds alone, and its handlers |
| `TermVault.dfy`, `VaultLaws.dfy`, `VaultProgram.dfy` | the term vault program, the same way |
| `FairShuffle.dfy`, `FloatBytes.dfy`, `WeightedDraw.dfy`, `Blackjack.dfy` | the verifiable draws, down to the bytes of the digests |
| `Emission.dfy` | the halving schedule and the hourly block |
| `ProgramLogs.dfy` | the log scanner that scopes events to their program |
| `Sums.dfy`, `Rounding.dfy`, `Wrappers.dfy` | shared arithmetic and result types |

State machines are total: an action whose guard fails changes nothing, so every list of actions
is a run and a lemma about `Exec(s, actions)` is about every interleaving. Service code is
imperative; `Interfere` stands for an await and takes any number of steps of anyone else.

## Assumptions

- The chain: a signature lands only after it was broadcast, at most once, at a height no later
  than its last valid block height; a landing can be rolled back until its height is final and
  never after. Signing again under one blockhash may give the same signature. Commitment is the
  default `finalized`.
- A status node lags the height node by at most the expiry margin plus one block. The proofs show
  that this bound is exact.
- The treasury's history only grows, lists a signature once, and is read from one consistent
  view; a transaction can be fetched only once it is listed.
- Serializable transactions, and row-locked reads within theirs, are atomic. A scan's pages do not
  depend on the database, so steps between them are taken to follow them.
- HMAC digests are arbitrary: every fair-draw lemma holds for any function in their place. The
  shuffle's floats are modelled exactly, as the doubles are for every list of up to 2^21 elements.
- The programs are built with overflow checks, so an unchecked overflow is an error and not a wrap.
- Block-mining jobs for one period are serialized.
- A rule and the debit it guards see one custody setting: a switch falls before both or after both.

## What the proofs found

- The solvency job's figure is not what is owed: it still counts a withdrawal that landed until
  its row is confirmed, and does not count a deposit until it has a row. `ReportedVersusOwed`
  gives the exact difference.
- The rule that a first deposit waits for open stakes looks at what the database shows, and two
  games pay a stake after the database has stopped showing it. A crash bet that the engine turns
  down is refunded by a transaction of its own; when its round ends first, the account can deposit
  in between and withdraw the play stake: `LateRefundLeaks`. The commission on an accepted bet is
  credited just as separately: `LateCommissionLeaks`. Both runs keep custody on throughout.
  `RoundEndsExactly` shows that such a round is safe exactly when the bet is not play money.
- A blackjack bet that is cleared leaves the saved state before it is refunded. So switching custody
  on over a play account's seat is unsafe even when the seat is saved: `ClearedSeatLeaks`.
- Switching custody on is also unsafe while the lottery holds play money, and that needs no entry in
  the open draw: what earlier play sales left unwon is carried into the next pool, and the entry rule
  looks only at the tickets of the open draw. `RolloverLeaks` is the run, `SwitchingOnExactly` the
  exact condition.
- The rules apply only while custody is on. Switching it off while some account is funded, and later
  on again, lets play money be withdrawn: `SwitchingOffExactly`. `SafeExactly` puts all of this
  together: every other step is safe in every state reached by safe steps.
- The sender of a deposit is looked up by two reads, primary wallets first and linked ones after.
  A wallet promoted from linked to primary between them is missed by both, and a transfer below the
  minimum from it is dropped without a row: `PromotionHidesOwner`. `DustWasUnknownExactly` shows
  that this is the only way a known wallet's transfer is dropped.
- The retry of held deposits takes the oldest hundred. A hundred older rows that no run credits,
  signed by several accounts or with no wallet, keep a deposit out of every retry of every
  continuation; with fewer, some continuation retries it: `NeverRetriedExactly`.
  `CreditableYetNeverRetried` reaches such a state from an empty database.
- The vault's unit test asserts that a deposit and withdrawal lose at most one unit. That depends
  on its inputs: the loss is less than index/RAY + 1, and at three RAY five units come back as three.
- The vault lowers a position's principal by a floored share of it, so it can exceed what the
  position is worth. It never exceeds the assets, and the 64-bit sum of a deposit cannot overflow.
- In program logs, a message that begins with "success" or "failed" matches the scanner's outcome
  pattern. It hides its program's next event, and when the program was called by the scanned one
  that event is taken for the caller's. `ForgesExactly` says which texts can do so.
- A round of blackjack is reproduced from its log whatever the log's order exactly when no two hands
  open with the same deck position.

## Model

| member | source | states |
|---|---|---|
| `WithdrawalProtocol.PaysAtMostOnce` | apps/api/src/custody/withdrawal.service.ts:169-269 | in every run of any number of workers, crashes, landings, rollbacks and setting changes, at most one signature the row ever held lands successfully |
| `WithdrawalProtocol.NeverTwoLive` | apps/api/src/custody/withdrawal.service.ts:194-206 | a row never has two live signatures: two stored signatures that can still pay are one, and it is the one on the row |
| `WithdrawalProtocol.ConfirmedPaidExactlyOnce` | apps/api/src/custody/withdrawal.service.ts:227-233 | `confirmed`, now and in every continuation: the stored signature paid, no other did, nothing was given back |
| `WithdrawalProtocol.FailedNeverPays` | apps/api/src/custody/withdrawal.service.ts:252-269 | `failed`, now and in every continuation: nothing landed or ever will, and the stake came back exactly once |
| `WithdrawalProtocol.AttemptsWithinLimit` | apps/api/src/custody/withdrawal.service.ts:177-206 | the row has stored as many signatures as attempts, within the largest attempt limit; it is refunded exactly when failed |
| `WithdrawalProtocol.UnseenMeansDead` | apps/api/src/custody/withdrawal.service.ts:216-240 | an unseen answer after an expiry height read before it proves the signature dead, when the status node lags by at most margin + 1 blocks |
| `WithdrawalProtocol.UnseenSoundExactly` | apps/api/src/custody/withdrawal.service.ts:219-240 | that lag bound is exact: the decision is never wrong if and only if lag <= margin + 1 |
| `WithdrawalProtocol.StatusFirstIsUnsound` | apps/api/src/custody/withdrawal.service.ts:219-222 | with the two reads swapped, no margin is enough, even with a node that does not lag |
| `WithdrawalProtocol.FateIsFinal` | apps/api/src/custody/withdrawal.service.ts:241-243 | dead stays dead and paid stays paid however the chain moves on |
| `WithdrawalProtocol.WorkerStable` | apps/api/src/custody/withdrawal.service.ts:196-206 | what a stopped worker knows about the row and its signature stays true while everyone else moves |
| `WithdrawalProtocol.StepKeepsInv` | apps/api/src/custody/withdrawal.service.ts:169-269 | every step of any worker, the chain or the operator keeps the protocol invariant |
| `WithdrawalProtocol.ExecKeepsInv` | apps/api/src/custody/withdrawal.service.ts:169-269 | so does every run of any length |
| `WithdrawalProtocol.SettledStays` | apps/api/src/custody/withdrawal.service.ts:228-231 | no run changes a settled row, its refund count or its stored signatures |
| `WithdrawalProtocol.RowChangeDescends` | apps/api/src/custody/withdrawal.service.ts:196-250 | every step that changes the row lowers (attempts left, status rank) |
| `WithdrawalProtocol.RowChangesBounded` | apps/api/src/custody/withdrawal.service.ts:177-250 | however workers race, a row changes at most 2 * limit + 1 times |
| `WithdrawalProtocol.CanAlwaysSettle` | apps/api/src/custody/withdrawal.service.ts:153-175 | from every reachable state some continuation settles the withdrawal: nothing gets stuck |
| `WithdrawalProgress.PayableExactly` | apps/api/src/custody/withdrawal.service.ts:169-269 | in every reachable state some continuation confirms the withdrawal with its transfer final on the chain if and only if it has not failed |
| `WithdrawalProgress.FreshRowIsPaid` | apps/api/src/custody/withdrawal.service.ts:177-233 | a withdrawal just requested can be paid with the settings left alone, if they allow one attempt |
| `WithdrawalProgress.RefundedAfterAttempts` | apps/api/src/custody/withdrawal.service.ts:177-243 | no run refunds before as many signatures were stored as the smallest attempt limit ever in force |
| `WithdrawalProgress.SignedOnlyIfAllowed` | apps/api/src/custody/withdrawal.service.ts:177-206 | a signature is stored only by a worker told in the same pass that withdrawals are not paused and then that the hot wallet covers the amount and the fee reserve |
| `WithdrawalProgress.StoredIsSent` | apps/api/src/custody/withdrawal.service.ts:196-214 | while no worker dies, every signature a row ever stored is broadcast or in a worker's hand to be |
| `WithdrawalProgress.CheckDecides` | apps/api/src/custody/withdrawal.service.ts:216-250 | confirmed exactly on a settled good answer; given up exactly on a settled bad one or unseen past expiry and margin, and then signed again while attempts are left and refunded otherwise |
| `WithdrawalService.CustodyWorld.ValidIsSound` | apps/api/src/custody/withdrawal.service.ts:164-269 | whatever state a recorded execution is in, the safety lemmas hold of it |
| `WithdrawalService.CustodyWorld.Interfere` | apps/api/src/custody/withdrawal.service.ts:170-222 | an await: any steps of anyone else, none of which moves this worker |
| `WithdrawalService.CustodyWorld.ClaimPending` | apps/api/src/custody/withdrawal.service.ts:196-206 | the guarded update: claims exactly when the row is still pending with the attempts read |
| `WithdrawalService.CustodyWorld.RefundOnce` | apps/api/src/custody/withdrawal.service.ts:254-268 | the refund transaction: row flipped and stake returned, or neither |
| `WithdrawalService.WithdrawalService.Step` | apps/api/src/custody/withdrawal.service.ts:169-175 | every execution of `step`, with interference at each await, is a run of the protocol that read the row exactly once and carried its decision out; what is settled in the answer is what is stored |
| `WithdrawalService.WithdrawalService.Send` | apps/api/src/custody/withdrawal.service.ts:177-214 | leaves the worker idle; if its guarded update won, the network has the signature it stored, and if not it stored none; attempts used up end in the refund transaction |
| `WithdrawalService.WithdrawalService.Look` | apps/api/src/custody/withdrawal.service.ts:219-222 | the final height, and only then the signature's status; the next place in the code is the verdict on them |
| `WithdrawalService.WithdrawalService.Check` | apps/api/src/custody/withdrawal.service.ts:216-250 | carries that verdict out and leaves the worker idle, without reading the row again |
| `WithdrawalService.WithdrawalService.Drive` | apps/api/src/custody/withdrawal.service.ts:154-162 | one pass in any case, and as many as the window has while the row stays open and the service runs |
| `WithdrawalDesk.Desk.Request` | apps/api/src/custody/withdrawal.service.ts:80-128 | accepted exactly within the limits and unpaused, and on a replayed key or for a deposited, unbanned account with the money, a wallet of its own, no open withdrawal and room in the day; the debit and the new row, or a refusal whose cause is there and that changes nothing; a replayed key answers the first withdrawal |
| `WithdrawalDesk.RefusedExactly` | apps/api/src/custody/withdrawal.service.ts:80-119 | the checks let through just such requests, and each refusal names a cause that is so |
| `WithdrawalDesk.Desk.CountInFlight` | apps/api/src/custody/withdrawal.service.ts:100-103 | the user's withdrawals in flight |
| `WithdrawalDesk.Desk.SumLive` | apps/api/src/custody/withdrawal.service.ts:104-116 | the user's live total since midnight |
| `CustodyBooks.Conservation` | apps/api/src/reconciliation/reconciliation.service.ts:73-107 | over every run of requests, machines, deposits and play, hot wallet minus what is owed moves only by fees, dust and what players won or lost |
| `CustodyBooks.StepConserves` | apps/api/src/reconciliation/reconciliation.service.ts:83-99 | the same for one step |
| `CustodyBooks.MachineConserves` | apps/api/src/custody/withdrawal.service.ts:177-269 | a withdrawal's landing, rollback and refund move hot wallet, balance and liability together |
| `CustodyBooks.OkMeansHeld` | apps/api/src/custody/withdrawal.service.ts:224-233 | only the signature on an open or confirmed row can have landed |
| `CustodyBooks.ReportedVersusOwed` | apps/api/src/reconciliation/reconciliation.service.ts:83-99 | the solvency job's liabilities differ from what is owed by exactly the landed but unconfirmed withdrawals and the unrecorded deposits |
| `CustodyBooks.LimitsHold` | apps/api/src/custody/withdrawal.service.ts:100-119 | over every run, limits changing at any time, a user has at most one withdrawal in flight and a day's live total within the largest daily limit in force so far |
| `CustodyBooks.OpeningIsSound` | apps/api/src/reconciliation/reconciliation.service.ts:73-107 | books with no transfer yet satisfy everything the runs then keep |
| `CustodyBooks.RunKeepsInv` | apps/api/src/custody/withdrawal.service.ts:80-269 | every run keeps every machine's invariant and the books' well-formedness |
| `BalanceLedger.BalanceBook.ApplyBalanceDelta` | apps/api/src/prisma/apply-balance-delta.ts:44-117 | accepted exactly for an account that exists, is not banned when debited, ends non-negative and, credited, within the cap; the balance and its ledger row move by the delta, or nothing does; every balance stays the sum of its deltas and its latest `balanceAfter` |
| `BalanceLedger.AppendProjects` | apps/api/src/prisma/apply-balance-delta.ts:102-114 | a ledger row moves its own account's projection and no other's |
| `ChainHistory.Node.SignaturesSince` | apps/api/src/custody/custody-chain.ts:109-127 | for every page size and whatever is listed between pages: exactly the successful entries after the cursor as of the first page, oldest first |
| `ChainHistory.SinceExactly` | apps/api/src/custody/custody-chain.ts:109-127 | that list is the successful entries strictly after the cursor, each once, in order |
| `ChainHistory.PageIs` | apps/api/src/custody/custody-chain.ts:114-119 | the page asked for below an entry already seen is the same on every later history |
| `DepositProtocol.CreditedAtMostOnce` | apps/api/src/custody/deposit.service.ts:125-192 | in every run a signature is credited at most once, for what it brought, to an account a signer's wallet belonged to |
| `DepositProtocol.CreditedStays` | apps/api/src/custody/deposit.service.ts:156-192 | a credited row and its credit stay as they are in every continuation |
| `DepositProtocol.AmbiguousStaysHeld` | apps/api/src/custody/deposit.service.ts:160-161 | a deposit recorded as signed by several accounts: it was, and no run ever credits it |
| `DepositProtocol.NothingSkipped` | apps/api/src/custody/deposit.service.ts:77-104 | whatever arrived up to the cursor is recorded for its amount, or was ignored below the minimum then in force with no signer among the primary wallets its first read saw or the linked wallets at its second, even if a slower scan wrote the cursor backwards |
| `DepositProtocol.FundedByItsDeposit` | apps/api/src/custody/deposit.service.ts:172-219 | over every run an account becomes funded only by the credit of a deposit of its own, with nothing open, and then holds exactly what that transfer brought, no commission and no free tickets |
| `DepositCredits.CreditStepMoves` | apps/api/src/custody/deposit.service.ts:156-192 | over every run, a crediting step that adds a ledger row raises that account, funded before, by exactly the amount and leaves the rest of it and every other account alone; one that adds none moves no account |
| `DepositCredits.CreditObeys` | apps/api/src/custody/deposit.service.ts:156-192 | the whole decision: paid exactly when the row has one claimant, is not below the minimum, not blocked, and the account is funded or has nothing open; held for the reason that is so; aborted only for a missing account or a banned one with play money |
| `DepositCredits.ThrowsExactly` | apps/api/src/custody/deposit.service.ts:172-181 | the transaction throws exactly in the last two cases |
| `DepositProtocol.NeverCreditsMoreThanArrived` | apps/api/src/custody/deposit.service.ts:125-192 | the ledger's credits add up to the credited arrivals, so never to more than arrived |
| `DepositProtocol.ExecKeepsInv` | apps/api/src/custody/deposit.service.ts:46-192 | every run keeps rows backed by the chain, credits matched to rows one to one and the cursor safe, and takes nothing back |
| `DepositProtocol.StepKeepsInv` | apps/api/src/custody/deposit.service.ts:46-192 | so does every step |
| `DepositProtocol.CreditKeepsInv` | apps/api/src/custody/deposit.service.ts:156-192 | the crediting transaction keeps it whatever blocks, holds or rolls it back |
| `DepositProtocol.OneMoreCredit` | apps/api/src/custody/deposit.service.ts:182-186 | a credit moves the credited total at its own signature and nowhere else |
| `DepositService.DepositDesk.Confirm` | apps/api/src/custody/deposit.service.ts:46-63 | with interference at every await: pending only if the node showed nothing, refused only if not inbound or dust no signer of which was found in either ownership read, a held answer only after trying to credit; a signature that has a row is answered with it |
| `DepositService.DepositDesk.ScanHistory` | apps/api/src/custody/deposit.service.ts:77-102 | ends early only at an entry the node could not show; otherwise all arrivals by the first page are accounted for and every listed entry moved the cursor; counts just the entries that had no row when looked up and were not ignored |
| `DepositService.DepositDesk.ScanEntry` | apps/api/src/custody/deposit.service.ts:86-99 | known, recorded, ignored or not fetchable yet, and whether it counts |
| `DepositService.DepositDesk.ScanOnce` | apps/api/src/custody/deposit.service.ts:77-104 | one such pass, then one retry of what is held |
| `DepositService.DepositDesk.RetryHeld` | apps/api/src/custody/deposit.service.ts:107-123 | every row of the oldest held batch is tried, whatever fails; counts just those credited when their try was over |
| `DepositService.DepositDesk.Record` | apps/api/src/custody/deposit.service.ts:126-154 | ignored exactly when below the minimum and neither ownership read finds a signer; otherwise a row that is in the database: another worker's, or one attributed to what the reads found |
| `DepositService.DepositDesk.Create` | apps/api/src/custody/deposit.service.ts:133-153 | the unique signature lets one worker insert and gives the others its row |
| `DepositService.DepositDesk.RowFor` | apps/api/src/custody/deposit.service.ts:130-145 | attributed exactly when the signers' wallets belong to one account; ambiguous when to several; otherwise with the fee payer's wallet |
| `DepositService.AttributedRow` | apps/api/src/custody/deposit.service.ts:127-145 | such a row says what two ownership reads found: the only account and a wallet it was found by, its primary one first; no account; or several |
| `DepositService.DepositDesk.CreditRow` | apps/api/src/custody/deposit.service.ts:157-192 | that decision on the state it finds, and an error exactly when the transaction throws |
| `DepositService.DepositDesk.Owners` | apps/api/src/custody/deposit.service.ts:222-236 | only accounts that owned one of the wallets; every account whose primary wallet it was at the first read or whose linked wallet at the second, whatever happens in between |
| `DepositService.DepositDesk.Merge` | apps/api/src/custody/deposit.service.ts:224-235 | each account found once, with a wallet it was found by, its primary one if that was found |
| `DepositService.RetriedExactly` | apps/api/src/custody/deposit.service.ts:107-113 | a retry reaches a held deposit exactly when fewer than a batch of held rows are older |
| `DepositService.ScanCovers` | apps/api/src/custody/deposit.service.ts:86-102 | once the listed entries up to one are accounted for, the cursor may be written there |
| `DepositDust.DustWasUnknownExactly` | apps/api/src/custody/deposit.service.ts:222-236 | every ignored transfer was missed by two reads of the run in this order; when it was dropped, a signer's wallet was an account's if and only if it had become a primary wallet between the two |
| `DepositDust.MissedWhileOwnedExactly` | apps/api/src/custody/deposit.service.ts:224-232 | a wallet missed by both reads is owned exactly when it became a primary one in between |
| `DepositDust.PromotionHidesOwner` | apps/api/src/users/users.service.ts:97-102 | the run in which the promotion of the sender's linked wallet falls between the reads: the transfer is dropped, no row exists and the cursor is past it |
| `DepositBacklog.NeverRetriedExactly` | apps/api/src/custody/deposit.service.ts:107-123 | a held deposit is in no retry's batch of any continuation if and only if a hundred older rows are held for good: signed by several accounts, or with no wallet to find an account by |
| `DepositBacklog.NeverRetried` | apps/api/src/custody/deposit.service.ts:107-123 | behind a hundred such rows a row is in no batch, whatever happens |
| `DepositBacklog.ReachedSomehow` | apps/api/src/custody/deposit.service.ts:107-192 | behind fewer, some run credits older rows until a batch holds the deposit |
| `DepositBacklog.CanBeCredited` | apps/api/src/custody/deposit.service.ts:156-192 | some run credits any held row not held for good, and changes no other row |
| `DepositBacklog.CreditableYetNeverRetried` | apps/api/src/custody/deposit.service.ts:107-123 | a run from an empty database reaches such a state with a later deposit the crediting transaction would credit, and no continuation's batch ever holds it |
| `Economy.PlayNeverWithdrawn` | apps/api/src/custody/economy.ts:50-176 | in every run of safe steps no withdrawal debits play money; a deposited account's balance, commission, tickets, positions, flips and rounds hold none, and while custody is on neither does the lottery's pool, what it carries over included |
| `Economy.StepKeepsInv` | apps/api/src/custody/economy.ts:50-176 | every safe step keeps the two economies apart |
| `Economy.ExecKeepsInv` | apps/api/src/custody/economy.ts:50-176 | so does every run of safe steps |
| `EconomySafety.SafeExactly` | apps/api/src/custody/economy.ts:50-176 | a step is safe if and only if no run of safe steps after it withdraws play money; only switching custody and the end of a crash round can be unsafe |
| `EconomySafety.SwitchingOffExactly` | apps/api/src/custody/economy.ts:22-24 | switching custody off is unsafe if and only if some account is funded |
| `EconomySafety.SwitchingOnExactly` | apps/api/src/custody/economy.ts:46-48 | switching it on is unsafe if and only if a play account has a blackjack seat, saved or not, or another stake out of the database's sight, or the lottery holds play money, in its open draw or carried over |
| `EconomySafety.RoundEndsExactly` | apps/api/src/games/crash/crash.service.ts:72-151 | with custody on, a crash round that ends before the request that placed a bet in it is done is unsafe if and only if the bet is play money |
| `EconomyRuns.LateRefundLeaks` | apps/api/src/games/crash/crash.service.ts:117-143 | the run, custody on throughout: the bet is turned down, its round is over, the account deposits, is refunded and withdraws the play stake |
| `EconomyRuns.LateCommissionLeaks` | apps/api/src/games/crash/crash.service.ts:145-151 | the run, custody on throughout: the commission on a play bet is credited after its round, when bettor and referrer have both deposited, and is withdrawn |
| `EconomyRuns.ClearedSeatLeaks` | apps/api/src/games/blackjack/blackjack.service.ts:129-138 | the run: custody is switched on over a saved play seat, its owner clears the bet, deposits before the refund and withdraws it |
| `EconomySafety.RolloverLeaks` | apps/api/src/games/lottery/lottery.engine.ts:566-580 | the run: play accounts buy into a draw nobody wins, the next draw opens without entries, custody is switched on, and a depositor can withdraw the carried sales |
| `EconomySafety.HiddenLeaks` | apps/api/src/custody/economy.ts:145-176 | with custody on, the owner of a play stake out of sight can always settle whatever else is open and deposit under it; then the payout, or the commission on it, can be withdrawn |
| `Economy.DepositKeeps` | apps/api/src/custody/economy.ts:140-176 | E6: the account has nothing on its play side when it changes sides |
| `Economy.EntriesGrow` | apps/api/src/custody/economy.ts:61-84 | E1: an entry by the rule leaves a pool's entries all play or all deposited |
| `Economy.EntriesAreClean` | apps/api/src/custody/economy.ts:61-84 | a pool a deposited account has entered holds no play entry |
| `Economy.DrawRoundKeeps` | apps/api/src/custody/economy.ts:61-84 | so paying a round's whole pot to any entrant keeps the economies apart |
| `Economy.SettleDrawKeeps` | apps/api/src/games/lottery/lottery.engine.ts:795-1003 | so does a lottery draw, which pays any number of winning tickets out of sales, injection and rollover and carries the rest on |
| `Economy.PromoteKeeps` | apps/api/src/custody/economy.ts:122-138 | a promotional credit reaches play accounts only while custody is on |
| `Economy.JoinKeeps` | apps/api/src/custody/economy.ts:86-98 | E2: a flip's two sides stay one economy |
| `Economy.AccrueKeeps` | apps/api/src/affiliates/affiliates.service.ts:57-104 | E5: commission accrues only within one economy, so a deposited referrer's holds no play money |
| `Economy.OpenPlayPositions` | apps/api/src/custody/economy.ts:145-176 | a label for each kind of stake riding, each once; none exactly when a first deposit may pass |
| `EconomyMoves.BalancesMove` | apps/api/src/prisma/apply-balance-delta.ts:44-117 | every step moves each balance by just its own gain; commission comes only from an accrual and goes by a claim or a first deposit; only a deposit funds an account |
| `EconomyMoves.WithdrawnMoves` | apps/api/src/custody/withdrawal.service.ts:119-128 | custody's total moves by withdrawals and returns only, the airdrop pool by tips only, the setting by switches only |
| `EconomyMoves.WagerAndBack` | apps/api/src/games/crash/crash.service.ts:72-133 | a stake that is refunded leaves everything as it was but the mark |
| `EconomyMoves.DoubleAndBack` | apps/api/src/games/blackjack/blackjack.service.ts:140-163 | the doubled part of a blackjack stake is a stake of its own and comes back the same way |
| `EconomyMoves.FlipAndBack` | apps/api/src/games/coinflip/cancel-open-flip.ts:16-33 | so does a cancelled flip |
| `EconomyMoves.EntryAndBack` | apps/api/src/games/jackpot/jackpot.engine.ts:680-700 | and a refunded entry |
| `EconomyMoves.FlipHolds` | apps/api/src/games/coinflip/coinflip.service.ts:400-425 | a joined flip holds both stakes, and a settled one is gone |
| `EconomyMoves.TicketFillsPool` | apps/api/src/games/lottery/lottery.engine.ts:793-795 | a bought ticket's price goes into the pool, a free one's is nothing |
| `EconomyMoves.DrawOpensOverCarry` | apps/api/src/games/lottery/lottery.engine.ts:564-581 | a draw opens over the house's injection and everything carried, and leaves nothing carried |
| `EconomyMoves.DrawConserves` | apps/api/src/games/lottery/lottery.settlement.ts:22-48 | a settled draw's pool is burned, paid and carried to the last unit, a fifth burned |
| `EconomyMoves.GameRules` | apps/api/src/custody/economy.ts:50-56 | E1: while custody is on blackjack is for deposited accounts and every other single-player game for everyone |
| `EconomyMoves.PoolRules` | apps/api/src/custody/economy.ts:61-84 | E1: a pooled game exactly for deposited accounts while no play account's entry is in |
| `EconomyMoves.PairRules` | apps/api/src/custody/economy.ts:86-98 | E2, E5: a flip is joined, and commission earned, exactly within one economy |
| `EconomyMoves.MoneyRules` | apps/api/src/custody/economy.ts:100-176 | E3, E4, E6: tips and promotions exactly for play accounts; a first deposit waits exactly for the stakes that can be seen |
| `EconomyMoves.RulesOff` | apps/api/src/custody/economy.ts:22-24 | while custody is off no rule asks which kind of account it is, and nothing is deposited or withdrawn |
| `ConstantProductPool.ShareValueNeverFalls` | programs/scadium_swap/src/lib.rs:70-306 | no run of adds, removals, swaps and donations lowers share value, empties a side, dips into the locked shares or issues unbacked ones |
| `ConstantProductPool.StepKeeps` | programs/scadium_swap/src/lib.rs:70-306 | the same for one instruction, accepted or refused |
| `ConstantProductPool.AddKeeps` | programs/scadium_swap/src/lib.rs:70-171 | an add keeps the pool backed and share value whole |
| `ConstantProductPool.RemoveKeeps` | programs/scadium_swap/src/lib.rs:173-235 | so does a removal, with both payouts rounded down |
| `ConstantProductPool.SwapKeeps` | programs/scadium_swap/src/lib.rs:239-306 | so does a swap in either direction, at any fee |
| `ConstantProductPool.CpmmKeepsProduct` | programs/scadium_swap/src/lib.rs:42-50 | the output never errs on real reserves, leaves the out side positive and the product no smaller |
| `ConstantProductPool.QuoteAddFair` | programs/scadium_swap/src/lib.rs:77-107 | a later add mints the smaller side's shares, pulls no more than offered and no less than the shares are worth, and is refused only when they do not fit |
| `ConstantProductPool.FirstSplitFits` | programs/scadium_swap/src/lib.rs:30-37 | the first add is refused exactly below (minimum + 1) squared; otherwise locked and depositor shares add up to the integer root |
| `ConstantProductPool.ReachableNeverAborts` | programs/scadium_swap/src/lib.rs:70-306 | in a reachable pool no swap or removal of existing shares divides by zero or overflows, and an add only when its shares do not fit 64 bits |
| `ConstantProductPool.AddThenRemoveGainsNothing` | programs/scadium_swap/src/lib.rs:70-235 | shares taken back at once return at most what was put in, on both sides |
| `ConstantProductPool.SwapThereAndBackGainsNothing` | programs/scadium_swap/src/lib.rs:239-306 | a swap there and back returns at most what was sent |
| `ConstantProductPool.IntegerSqrt` | programs/scadium_swap/src/lib.rs:316-327 | the Newton loop terminates and returns the integer root; each sum is asserted to fit 128 bits before it is formed |
| `ConstantProductPool.NewtonAboveRoot` | programs/scadium_swap/src/lib.rs:316-327 | an iterate from above never falls below the root |
| `PoolLaws.SwapObeys` | programs/scadium_swap/src/lib.rs:42-50 | the fee is taken off the input and the curve pays, both rounded down to the only number that fits; both reserves move by what was swapped, nothing else does, and a refusal has its cause |
| `PoolLaws.QuotedOnce` | programs/scadium_swap/src/lib.rs:42-50 | no other output fits those bounds |
| `PoolLaws.AddObeys` | programs/scadium_swap/src/lib.rs:70-171 | the first add locks a thousand of the root and gives the rest; a later one mints the most both offers pay for and pulls in what that costs, rounded up; a refusal has its cause |
| `PoolLaws.RemoveObeys` | programs/scadium_swap/src/lib.rs:173-235 | each side pays the shares' part of its reserve, rounded down to the only number that fits; a refusal has its cause |
| `PoolProgram.PoolAccounts.AddLiquidity` | programs/scadium_swap/src/lib.rs:70-171 | the handler does what that law says, in place |
| `PoolProgram.PoolAccounts.RemoveLiquidity` | programs/scadium_swap/src/lib.rs:173-235 | so does the removal |
| `PoolProgram.PoolAccounts.SwapExact` | programs/scadium_swap/src/lib.rs:239-306 | and the swap: it pays the one output that is quoted, or refuses and leaves every account |
| `TermVault.RunKeepsInv` | programs/scadium_vault/src/lib.rs:324-487 | every run keeps shares * index <= assets * RAY, index >= RAY, shares equal to the positions' sum plus the locked ones, and tokens covering assets |
| `TermVault.StepKeeps` | programs/scadium_vault/src/lib.rs:324-487 | so does every instruction |
| `TermVault.DepositKeeps` | programs/scadium_vault/src/lib.rs:324-375 | so does a deposit, which mints no more than it backs |
| `TermVault.WithdrawKeeps` | programs/scadium_vault/src/lib.rs:379-449 | so does a withdrawal with or without penalty |
| `TermVault.AccrueKeeps` | programs/scadium_vault/src/lib.rs:453-487 | so does an accrual, which never lowers the index |
| `TermVault.WithdrawCovered` | programs/scadium_vault/src/lib.rs:379-449 | a holder's withdrawal is never refused for lack of assets or tokens, and the saturating subtractions never saturate |
| `TermVault.HoldersNeverLose` | programs/scadium_vault/src/lib.rs:324-487 | no run lowers what a number of shares is worth |
| `TermVault.AllPositionsCovered` | programs/scadium_vault/src/lib.rs:324-487 | all positions could be paid in full at once |
| `TermVault.NothingOverflows` | programs/scadium_vault/src/lib.rs:324-526 | in every pool reached from a fresh one, each 128-bit product, index (a penalty's included), position sum and 64-bit total the handlers form fits its width |
| `TermVault.DepositNeverOverflows` | programs/scadium_vault/src/lib.rs:324-375 | a position's principal never exceeds the assets, so from a fresh pool no deposit is refused for overflow |
| `TermVault.ClaimFalls` | programs/scadium_vault/src/lib.rs:379-449 | a withdrawal lowers its position's claim, the larger of worth and principal less one unit, by at least what it pays |
| `TermVault.RunKeepsPrincipal` | programs/scadium_vault/src/lib.rs:324-487 | every run keeps all claims together a unit below the assets |
| `TermVault.RoundTripLoss` | programs/scadium_vault/src/lib.rs:498-515 | a deposit's rounding loss is exactly the share division's remainder in whole units, less than index/RAY + 1 |
| `TermVault.LosesAtMostOne` | programs/scadium_vault/src/lib.rs:989-999 | the unit test's bound of one holds exactly when that remainder is at most one RAY |
| `TermVault.LosesTwo` | programs/scadium_vault/src/lib.rs:989-999 | at an index of three RAY five units come back as three |
| `VaultLaws.AccrualLifts` | programs/scadium_vault/src/lib.rs:517-522 | an accrual makes all shares together worth the gain more, less under one index unit a share |
| `VaultLaws.DepositObeys` | programs/scadium_vault/src/lib.rs:324-375 | shares bought at the index, rounded down, a thousand locked by the first; principal and maturity set; a refusal has its cause |
| `VaultLaws.WithdrawObeys` | programs/scadium_vault/src/lib.rs:379-449 | shares paid at the index, rounded down, a tenth off exactly while the term runs, which lifts the index for the shares left; the principal falls by the shares' part; a refusal has its cause |
| `VaultLaws.AccrueObeys` | programs/scadium_vault/src/lib.rs:453-487 | the index, the assets and the tokens move by the amount; a refusal has its cause |
| `VaultProgram.VaultPool.VaultDeposit` | programs/scadium_vault/src/lib.rs:324-375 | the handler does what that law says, in place |
| `VaultProgram.VaultPool.VaultWithdraw` | programs/scadium_vault/src/lib.rs:379-449 | so does the withdrawal, which succeeds exactly for shares held |
| `VaultProgram.VaultPool.VaultAccrue` | programs/scadium_vault/src/lib.rs:453-487 | and the accrual |
| `FairShuffle.ExactlyOneChoice` | packages/fair/src/mines.ts:17-25 | of all choice sequences exactly one leads from a list of distinct elements to each permutation of it |
| `FairShuffle.ReachesPermutation` | packages/fair/src/mines.ts:19-24 | every permutation is reached |
| `FairShuffle.ChoicesFromResult` | packages/fair/src/mines.ts:19-24 | equal shuffles come from equal choices |
| `FairShuffle.ShufflePermutes` | packages/fair/src/mines.ts:19-24 | a shuffle is a permutation |
| `FairShuffle.FloatIsWord` | packages/fair/src/floats.ts:16-27 | a float is its 32-bit word over 2^32 |
| `FairShuffle.IndexIsSelected` | packages/fair/src/mines.ts:20 | the index drawn is (word * (i + 1)) div 2^32 |
| `FairShuffle.BiasIsOneWord` | packages/fair/src/floats.ts:18-25 | each index is selected by floor or ceil of 2^32 / (i + 1) words, exactly counted |
| `FairShuffle.KeptField` | packages/fair/src/mines.ts:25 | a kept prefix is that many distinct elements of the list, ascending |
| `FairShuffle.FieldsNested` | packages/fair/src/mines.ts:25 | the field for k mines is contained in the field for k + 1 |
| `FairShuffle.FloatStream.Next` | packages/fair/src/floats.ts:16-27 | the generator yields the stream's next float, block after block |
| `FairShuffle.FloatsFromHmac` | packages/fair/src/floats.ts:32-42 | the first `count` floats of the stream |
| `FairShuffle.ShuffleInPlace` | packages/fair/src/mines.ts:19-24 | the in-place loop leaves exactly the shuffle its floats choose |
| `FairShuffle.MineField` | packages/fair/src/mines.ts:10-26 | as many distinct cells in range as mines, ascending |
| `FairShuffle.TowerTraps` | packages/fair/src/tower.ts:10-32 | each row is shuffled by its own slice of one stream |
| `FairShuffle.KenoDraw` | packages/fair/src/keno.ts:9-20 | ten distinct numbers of 1 to 40, ascending |
| `FloatBytes.FloatIsItsBytes` | packages/fair/src/floats.ts:16-27 | float k is bytes 4k to 4k + 3 of the digests laid end to end, big-endian over 2^32 |
| `FloatBytes.EveryStream` | packages/fair/src/floats.ts:16-27 | any eight words a digest are the floats of some digests, so no byte is used twice or skipped |
| `FloatBytes.ChoicesAreWords` | packages/fair/src/mines.ts:17-21 | the choices of a draw are its own words', (word * (i + 1)) div 2^32, in order |
| `FloatBytes.FirstWordFirst` | packages/fair/src/mines.ts:19-24 | the first word draws the last place from all elements, and the other words shuffle the rest |
| `FloatBytes.KeptIsFront` | packages/fair/src/mines.ts:25 | a field is the front of the shuffled list in order |
| `FloatBytes.TowerRowWords` | packages/fair/src/tower.ts:20-30 | row r is drawn by the words after those of the rows before it |
| `WeightedDraw.TicketsPerEntry` | packages/fair/src/engine-draw.ts:14-23 | exactly w_i tickets of the pot select entry i |
| `WeightedDraw.AgreeExactly` | packages/fair/src/jackpot.ts:44-56 | the walk and the ranges name the same winner exactly on the tickets of the pot |
| `WeightedDraw.OwnerExists` | packages/fair/src/jackpot.ts:44-51 | a ticket has an owner exactly when it is in the pot |
| `WeightedDraw.OwnerUnique` | packages/fair/src/jackpot.ts:44-51 | no ticket has two |
| `WeightedDraw.WeightedWinnerIndex` | packages/fair/src/engine-draw.ts:14-23 | the owner of the ticket; past the pot, the last entry |
| `WeightedDraw.JackpotRanges` | packages/fair/src/jackpot.ts:44-51 | consecutive ranges as wide as their entries |
| `WeightedDraw.JackpotWinnerIndex` | packages/fair/src/jackpot.ts:54-56 | the owner of the ticket, or -1 outside the pot |
| `Blackjack.RoundIsFaithful` | packages/fair/src/blackjack.ts:85-108 | each hand once, with exactly the deck positions its log gave it, in deck order, and the cards those positions hold |
| `Blackjack.OrderOfLogIrrelevant` | packages/fair/src/blackjack.ts:95-106 | in particular a log that gives no position to two hands |
| `Blackjack.OrderIrrelevantExactly` | packages/fair/src/blackjack.ts:95-107 | every permutation of a log reproduces the same round if and only if no two hands open with the same deck position |
| `Blackjack.CardsAddUp` | packages/fair/src/blackjack.ts:95-107 | as many cards in the hands as draws in the log |
| `Blackjack.ReproduceRound` | packages/fair/src/blackjack.ts:85-108 | the loops compute the hands the lemmas speak about |
| `Blackjack.ReproduceHand` | packages/fair/src/blackjack.ts:67-76 | the cards at the given positions, in the order given |
| `Blackjack.Deal` | packages/fair/src/blackjack.ts:18-35 | card i depends on i alone, so a longer deal extends a shorter one |
| `Blackjack.HandValue` | packages/fair/src/blackjack.ts:125-138 | the best total any choice of aces gives without busting, all aces low when every choice busts; soft exactly when an ace is still high |
| `Blackjack.NaturalExactly` | packages/fair/src/blackjack.ts:140-142 | two cards make twenty-one exactly when one is an ace and the other worth ten |
| `Emission.ScheduleWithinPool` | packages/shared/src/constants.ts:611-644 | however many hours pass, the whole halving schedule fits the pool |
| `Emission.SubsidyRunsOut` | packages/shared/src/constants.ts:628-644 | the subsidy is zero exactly from era 43 on |
| `Emission.EmissionCapped` | apps/api/src/engine/block-mining.service.ts:62-156 | whatever the block times and miners, total emission stays within the pool |
| `Emission.ClampNeverCuts` | packages/shared/src/constants.ts:639-644 | with one block an hour from genesis the clamp never cuts a subsidy |
| `Emission.HourlyWithinSchedule` | apps/api/src/engine/block-mining.service.ts:62-156 | such blocks emit no more than the schedule |
| `Emission.EraOfHour` | packages/shared/src/constants.ts:628-632 | the era of the h-th hour is h div 35040 |
| `Emission.SplitLosesUnderOneEach` | packages/shared/src/constants.ts:673-676 | flooring the shares loses less than one unit a miner and never mints more than the pool |
| `Emission.MintedWithinReward` | apps/api/src/engine/block-mining.service.ts:97-146 | a non-empty block mints between reward - n + 1 and reward |
| `Emission.EraExactly` | packages/shared/src/constants.ts:628-632 | era e runs from genesis plus e times four years to the millisecond |
| `Emission.SubsidyExactly` | packages/shared/src/constants.ts:625-642 | the subsidy is the genesis reward halved once an era, rounded down |
| `Emission.RewardExactly` | packages/shared/src/constants.ts:639-644 | a block gets the subsidy, or what is left of the pool when that is less |
| `Emission.BigRewardExactly` | apps/api/src/engine/block-mining.service.ts:97-115 | the big reward is a tenth of the block, rounded down |
| `Emission.TakeExactly` | apps/api/src/engine/block-mining.service.ts:97-146 | each user takes its rates' parts of the rest, rounded down one by one, and the tenth if it owns the winner |
| `Emission.BlockMiner.MineBlock` | apps/api/src/engine/block-mining.service.ts:55-178 | a period is settled once; the cursor moves by exactly what was credited, each miner by the share and the ticket's owner by the big reward |
| `Emission.BlockMiner.Distribute` | apps/api/src/engine/block-mining.service.ts:97-146 | every miner's credit, to the unit |
| `Emission.BlockMiner.SplitPool` | apps/api/src/engine/block-mining.service.ts:116-132 | the pro-rata loop |
| `ProgramLogs.ScanRecoversEvents` | apps/api/src/solana/vault-events.ts:24-50 | for every call tree flattened to log lines, exactly the program's own payloads in order |
| `ProgramLogs.TruncatedLogIsPrefix` | apps/api/src/solana/vault-events.ts:24-50 | a log cut off anywhere yields a prefix of them |
| `ProgramLogs.TextHarmlessExactly` | apps/api/src/solana/vault-events.ts:32-42 | a logged text never costs or adds to its own program's next event if and only if none of the patterns matches it |
| `ProgramLogs.ForgesExactly` | apps/api/src/solana/vault-events.ts:24-50 | a text makes some call tree credit a program with an event that it never emitted if and only if one of the patterns matches it; otherwise every tree is scanned exactly |
| `ProgramLogs.MisattributedExactly` | apps/api/src/solana/vault-events.ts:32-45 | a called program's event is taken for its caller's if and only if the text before it reads as an outcome or as an invocation of the caller |
| `ProgramLogs.OutcomeLikeTextHidesEvent` | apps/api/src/solana/vault-events.ts:37-40 | a text that reads as an outcome hides the next event of its program |
| `ProgramLogs.SuccessMessageReadsAsOutcome` | apps/api/src/solana/vault-events.ts:37 | a message that begins with "success" is such a text |
| `ProgramLogs.ProgramScopedEventPayloads` | apps/api/src/solana/vault-events.ts:24-50 | the loop computes the scan the lemmas speak about, missing input included |
| `ProgramLogs.InvokeLineRead` | apps/api/src/solana/vault-events.ts:32-36 | every invoke line the runtime writes is read as one |
| `ProgramLogs.ExitLineRead` | apps/api/src/solana/vault-events.ts:37-40 | every outcome line of a token id is read as one |
| `ProgramLogs.LogLineRead` | apps/api/src/solana/vault-events.ts:32-41 | when a program's own message is taken for something else |
| `ProgramLogs.DataLineRead` | apps/api/src/solana/vault-events.ts:41-45 | when a data line carries its payload |
| `ProgramLogs.InvokeExactly` | apps/api/src/solana/vault-events.ts:32-36 | an invocation is a token between "Program " and " invoke [", digits and a bracket, and no other line is |
| `ProgramLogs.ExitExactly` | apps/api/src/solana/vault-events.ts:37-40 | an outcome is a token between "Program " and " success" or " failed", whatever follows |
| `ProgramLogs.DataExactly` | apps/api/src/solana/vault-events.ts:41-45 | a data line is its prefix and the payload, unless it reads as one of those |
| `ProgramLogs.SpaceExactly` | apps/api/src/solana/vault-events.ts:32-40 | what ends a token is exactly ECMAScript white space and line terminators |

## Left out

- The `confirmed` commitment: a landing could still be undone by a fork after it counted.
- `resumeAll` and several rows driven by one loop: each row is a machine of its own, and steps of different rows commute.
- In the whole-books model each withdrawal sees its own finality progress: more runs than one shared chain allows.
- CustodyBooks.Conservation: counts a deposit's dust as its own door, and what players win or lose against the house as another.
- The hot wallet's rent-exemption floor and transactions an operator signs by hand.
- A withdrawal row's signature in the deposit tables: an outbound transaction is refused as not inbound, which is the same answer.
- `scan`'s sharing of one running promise between concurrent callers: concurrent scans are modelled as independent.
- The responsible-gambling limits inside `depositBlock`: any answer is possible at any time.
- `createdAt` ties between held deposits: rows are retried in the order they were inserted.
- How much referral commission a wager earns, tiers and same-IP flags, and how the airdrop pool is split: only who may receive is modelled, and any other account may be a bettor's referrer.
- DepositBacklog.NeverRetriedExactly: an operator resolving an ambiguous deposit by hand, which the code leaves to people, is not a step of the model.
- Game engines, odds and payout tables: a settlement may pay any amount. A lottery draw pays its tickets any prizes within the winners' share; how the share is split over brackets is not modelled.
- The lottery's on-chain mode, which pays prizes from the treasury and not from the play balance, and several draws left pending by a crash: one draw is open at a time, and `ForgetCarry` stands for a restart that loses what was to be carried.
- Deletion of an account: accounts, once there, stay.
- Transfers of LP tokens between holders: a removal burns what its caller holds.
- Program account constraints, PDA derivation and token-program errors other than insufficient balance.
- The off-chain vault, dividend and reward-claim jobs.
- The play-rate map a block is split by: blocks are split over any list of miners.
- ProgramLogs.ProgramScopedEventPayloads: keeps the base64 text of a payload and not its bytes; decoding does not affect which events are taken.
- Floating-point crash multipliers and the 256-bit jackpot roll.
- HTTP, sockets, idempotency storage expiry, logging and metrics.
