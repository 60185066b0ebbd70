# Verification of the cashback wallet and its data structures

A Dafny model of a cashback wallet (balances, withdrawals, referral rewards, broker deposits, an egg pool, affiliate
imports, the account search of its back office) and of the small data structures that live beside it. `dafny verify
dfyconfig.toml` checks the whole project.

Each part models the code as it is written. Where the code keeps its promise, the promise is proved for all inputs;
where it does not, a lemma or method exhibits the failure and another says when the promise holds: if and only if a
stated condition does, unless the row says otherwise.

| file | subject |
|---|---|
| `DoublyLinkedList.dfy` | the doubly linked list, its pointers and its dangling ends |
| `DynamicArray.dfy` | the growable array and the cost of growing |
| `Hanoi.dfy` | the two Tower of Hanoi recursions, and why no solution is shorter |
| `WalletLedger.dfy` | the three-step balance update under interleaving; the balance-by-period query |
| `Exchange.dfy` | withdrawals: tokens, the amount check, hold, settle and revert |
| `ExchangeOverlap.dfy` | submits whose checks and holds interleave |
| `KycRewards.dfy` | rewards that wait for identity checks, approvals one at a time |
| `KycOverlap.dfy` | approvals of several accounts interleaved step by step |
| `OnusDeposit.dfy` | deposits moved from a broker, with retries |
| `Pool.dfy` | the egg and BBC pool, its histories and quoted rate |
| `AccessTrade.dfy` | affiliate imports and their reconciliation |
| `AccountQuery.dfy` | the WHERE clause with numbered placeholders |
| `Notifications.dfy` | the batched page walk |
| `Versions.dfy` | comparison of version strings |
| `Sums.dfy`, `Common.dfy` | weighted sums over tables; optional values and first positions |

What the services write step by step is modelled by classes whose methods are proved against a step function on
values; the properties over whole sequences of events are lemmas about that step function. Amounts are exact decimals
(`real`), never floats. Replies of other systems, times, new ids and new tokens are inputs.

## What the code does not keep

- A list emptied by `removeLast` keeps its last node in `head`, and one emptied by `removeFirst` keeps it in `tail`,
  because lines 99 and 112 compare where they should assign. `indexOf` then finds a value that is no longer there
  (`DanglingHeadFound`); it is exact when no dangling head holds the value (`IndexOfExactWithoutDanglingHead`).
- `removeAt` removes the first element for every index from the middle on (`RemoveAtExactBeforeMiddle`).
- `removeObject` compares only the properties of its operands, so among numbers it removes whatever comes first
  (`RemoveObjectIgnoresNumbers`, and `RemoveObjectStopsAtFirst` for the exact condition).
- `DynamicArray.removeAt(size)` passes its check and leaves the removed element where `indexOf` finds it
  (`RemovedButFound`); on an empty array an index of 0 or below drives the size to -1.
- Overlapping balance updates leave history rows that do not chain (`OverlapBreaksTheChain`). They chain if and only if
  every call missed nothing when it inserts its row (`ChainedIffNothingMissed`, and `DepositsChainIffUndisturbed` for
  deposits), and that is also when the query that reads only the newest row stands for the whole replay
  (`NewestIsReplayIffNothingMissed`); the balance itself is right under every interleaving (`InterleavingInvariant`).
- A withdrawal checks the balance and holds it in two steps. Two checks before two holds always hold twice, and
  overdraw the account when the amounts together exceed what one may take (`CheckThenHoldOverdraws`), even when the
  first is paid before the second is held (`PaidHoldOverdraws`). Every withdrawal leaves the minimum if and only if at
  every hold what was taken since its check leaves room for it (`MinimumIffRoom`). With limits that admit no amount
  below one, there is one hold at a time if and only if no outstanding one falls between a check and its hold
  (`OneHoldIffNoneOvertaken`).
- Two submits of one token that both check before either holds use it twice (`TwoChecksOfOneTokenHoldTwice`); no token is
  used twice if and only if no submit holds after another one held under its token since its check
  (`OneHoldPerTokenIffNoneRespent`).
- With check and hold as one step, every hold smaller than one can hide in the fraction the check floors away
  (`FractionalHoldHides`): there is one hold at a time in every run if and only if the active limits of the currencies
  that can be withdrawn admit no amount below one (`OneHoldIffWholeUnits`).
- A lone sign-up whose reward should wait is credited at once and inserted twice: once approved it has been paid three
  times (`LoneRewardPaidThrice`, and `LoneRewardCredited` for every run of whole approvals). A referred sign-up whose
  rewards should be paid at once fails before they are written, because the newcomer's balance row is only inserted
  afterwards (`ReferralWrittenIffWaiting`).
- An approval reads the other party's status first and stores its own last: when referrer and newcomer are approved at
  the same time their rewards are never paid (`CrossedApprovalsLeaveWaiting`, and `ReleasedIffNoneOvertaken` for the
  exact condition).
- An approval pays rewards before it is stored, so one that stops halfway has paid them early
  (`NeverEarlyIffPaysOnlyApproved`, and `EarlyOnlyIfUnfinished` for what leaves such a reward behind).
- Two approvals of one account at the same time pay its rewards twice (`TwinApprovalsPayTwice`): no reward is paid twice
  if and only if none is paid that another approval paid since the list was fetched (`NoneRepeatedIffNonePaidSince`),
  as when the approvals of one account do not overlap (`AlonePaysOnce`).
- A deposit that moves money and then fails to record its number moves it again when the callback is repeated
  (`FailedRecordingRepeats`, `MovesAreRecordedOrLost`).
- A buy may quote the rate from before its own update, which it looks up through another connection: the row is then off
  by more than 0.000005 (`StaleRateMisses`) unless the purchase is small enough to fit the old rate
  (`RateRowIsCurrentIff`). A negative deposit or withdrawal changes the pool without a history row (`StepAccounts`).
- The reconcile job names the row by the feed's id, so a confirmed item can be paid again (`ForeignIdPaysAgain`,
  and `AlwaysPaidOnceIffIdsMatch` for the exact condition) and a rejected row can become a success
  (`StatusMovesForwardIff`). It zeroes the amount of a row it marks as approved (`ApprovalLosesTheAmount`, and
  `PaidInFullIff` for every run whose settled items carry their row's id).
- A confirmed import without a daily reward adds an undefined value to its amount, and is lost
  (`NoRewardLosesImport`).
- An amount filter whose operator comes without comma and digits makes the account search malformed
  (`FilterMeansQuery`).
- A version with a level that is not a number compares equal to two versions that differ
  (`EqualityTransitiveIffNumeric`).

## Model

| member | source | states |
|---|---|---|
| `LinkedLists.Run` | apps/algrorithorm/ongdev/#5 - Linked list phần 3/double-linked.ts:16-189 | any sequence of operations on a new list, removal by node included, keeps the pointer invariant, does exactly the matching sequence operations, and changes no object of another list |
| `LinkedLists.WalksMirror` | apps/algrorithorm/ongdev/#5 - Linked list phần 3/double-linked.ts:50-116 | forward from head and backward from tail give the same size nodes in mirror order, exactly when an emptied list has reset the pointer walked from |
| `LinkedLists.DoublyLinkedList.AddFirst` | apps/algrorithorm/ongdev/#5 - Linked list phần 3/double-linked.ts:50-59 | a fresh node in front, the old ones kept in order, links and ends consistent |
| `LinkedLists.DoublyLinkedList.AddLast` | apps/algrorithorm/ongdev/#5 - Linked list phần 3/double-linked.ts:62-73 | a fresh node behind, the old ones kept in order, links and ends consistent |
| `LinkedLists.DoublyLinkedList.PeekFirst` | apps/algrorithorm/ongdev/#5 - Linked list phần 3/double-linked.ts:76-80 | the first value, or an error on an empty list, dangling head or not |
| `LinkedLists.DoublyLinkedList.PeekLast` | apps/algrorithorm/ongdev/#5 - Linked list phần 3/double-linked.ts:82-87 | the last value, or an error on an empty list, dangling tail or not |
| `LinkedLists.DoublyLinkedList.RemoveFirst` | apps/algrorithorm/ongdev/#5 - Linked list phần 3/double-linked.ts:90-103 | returns and drops the first value; an empty list reports an error and changes nothing; emptying keeps the old tail pointer |
| `LinkedLists.DoublyLinkedList.RemoveLast` | apps/algrorithorm/ongdev/#5 - Linked list phần 3/double-linked.ts:106-116 | returns and drops the last value; an empty list reports an error and changes nothing; emptying keeps the old head pointer with its value |
| `LinkedLists.DoublyLinkedList.RemoveNode` | apps/algrorithorm/ongdev/#5 - Linked list phần 3/double-linked.ts:119-137 | drops exactly the node's position, from the ends or by bypassing an inner node, and says which by its result |
| `LinkedLists.DoublyLinkedList.RemoveObject` | apps/algrorithorm/ongdev/#5 - Linked list phần 3/double-linked.ts:140-163 | drops the first node whose comparison does not miss, or reports not found, a crash on null data, or the dangling node of an emptied list, changing nothing |
| `LinkedLists.DoublyLinkedList.RemoveAt` | apps/algrorithorm/ongdev/#5 - Linked list phần 3/double-linked.ts:166-189 | an index error outside the list; the given position before the middle; the first position otherwise |
| `LinkedLists.DoublyLinkedList.IndexOf` | apps/algrorithorm/ongdev/#5 - Linked list phần 3/double-linked.ts:192-216 | the least position at which the walk from head meets the value, or -1 |
| `LinkedLists.DoublyLinkedList.Clear` | apps/algrorithorm/ongdev/#5 - Linked list phần 3/double-linked.ts:16-32 | empties the list, resets both ends and clears every node it walked, a dangling one included |
| `LinkedLists.RemoveAtExactBeforeMiddle` | apps/algrorithorm/ongdev/#5 - Linked list phần 3/double-linked.ts:172-188 | removeAt deletes the position asked for if and only if it is before the middle |
| `LinkedLists.IndexOfExactWithoutDanglingHead` | apps/algrorithorm/ongdev/#5 - Linked list phần 3/double-linked.ts:112-216 | indexOf agrees with the contents if and only if no dangling head holds the value |
| `LinkedLists.RemoveObjectStopsAtFirst` | apps/algrorithorm/ongdev/#5 - Linked list phần 3/double-linked.ts:151-160 | removeObject finds the first occurrence if and only if nothing before it compares equal by properties or crashes |
| `LinkedLists.RemoveObjectIgnoresNumbers` | apps/authenticator/src/utils/index.ts:1-11 | with values without properties, such as numbers, removeObject removes the first element whatever it is |
| `LinkedLists.MatchesMeans` | apps/authenticator/src/utils/index.ts:1-11 | values with properties compare equal exactly when each has every property of the other with the same value; null and property reads of null as written |
| `LinkedLists.DanglingHeadFound` | apps/algrorithorm/ongdev/#5 - Linked list phần 3/double-linked.ts:106-113 | adding and removing one value at the back leaves a list empty to both peeks, in which indexOf finds the value at 0 |
| `TowerOfHanoi.SolveIsLegal` | apps/algrorithorm/ongdev/#6 - Recursion - đệ quyy/index.ts:54-65 | every move printed is legal, the whole tower reaches the destination, and larger disks below do not move |
| `TowerOfHanoi.VersionsAgree` | apps/algrorithorm/ongdev/#6 - Recursion - đệ quyy/index.ts:74-82 | thapHaNoi(n, a, b, c) prints the moves of solveThapHaNoi(n, a, c, b) |
| `TowerOfHanoi.NoShorter` | apps/algrorithorm/ongdev/#6 - Recursion - đệ quyy/index.ts:44-52 | no legal game carries a tower of n disks to another peg in fewer than 2^n - 1 moves |
| `TowerOfHanoi.OnlyOneOptimal` | apps/algrorithorm/ongdev/#6 - Recursion - đệ quyy/index.ts:44-65 | a legal game of exactly 2^n - 1 moves is the recursion's own move for move |
| `TowerOfHanoi.SolveIsOptimal` | apps/algrorithorm/ongdev/#6 - Recursion - đệ quyy/index.ts:54-65 | the recursion solves the puzzle in 2^n - 1 moves and every other solution is longer |
| `DynamicArrays.DynamicArray.Add` | apps/algrorithorm/ongdev/#4 - dynamic array/index.ts:45-61 | appends in bounds, keeps the spare slot and the empty tail, and copies only when it grows |
| `DynamicArrays.DynamicArray.RemoveAt` | apps/algrorithorm/ongdev/#4 - dynamic array/index.ts:62-75 | deletes exactly the position inside the array with every read in bounds; past size an error; at size, or below 0, the last element is dropped but left in its slot; the tail stays empty exactly in the first case; the array stays valid except that an empty one gets size -1 at index 0 or below |
| `DynamicArrays.DynamicArray.IndexOf` | apps/algrorithorm/ongdev/#4 - dynamic array/index.ts:77-87 | the least index of the element in the whole backing array, or -1 |
| `DynamicArrays.IndexOfSearchesContents` | apps/algrorithorm/ongdev/#4 - dynamic array/index.ts:77-87 | with every slot from size on empty, indexOf of a real element searches exactly the contents |
| `DynamicArrays.ScanPastContents` | apps/algrorithorm/ongdev/#4 - dynamic array/index.ts:78-86 | scanning past the contents changes the answer if and only if the element is only in the slots after them |
| `DynamicArrays.RemovedButFound` | apps/algrorithorm/ongdev/#4 - dynamic array/index.ts:62-75 | removing at size leaves an empty array in which indexOf still finds the element |
| `DynamicArrays.GrowthInvariant` | apps/algrorithorm/ongdev/#4 - dynamic array/index.ts:45-75 | for any mix of operations that removes only what is there: size is adds less removals, below the capacity when positive; capacity <= length <= 2 capacity; copies are paid for by capacity growth |
| `DynamicArrays.AmortisedCopies` | apps/algrorithorm/ongdev/#4 - dynamic array/index.ts:48-59 | any mix of add and removeAt that removes only what is there, from any initial capacity copies at most four slots for each add |
| `DynamicArrays.Run` | apps/algrorithorm/ongdev/#4 - dynamic array/index.ts:45-75 | the copies a real array makes over any script are the ones the bound speaks of |
| `WalletLedger.InterleavingInvariant` | apps/wallet/src/wallet.service.ts:151-199 | for any number of calls under any interleaving with any failures: amount = opening + calls past their increment, and history exceeds it by exactly the calls recorded but not incremented |
| `WalletLedger.QuiescentRowIsHistory` | apps/wallet/src/wallet.service.ts:165-199 | with no call between its history row and its increment, the row is the opening amount plus the signed history |
| `WalletLedger.InterleavedRowRisesAndFalls` | apps/wallet/src/wallet.service.ts:165-199 | under every interleaving the row is the opening amount plus the increments done less the decrements done, and with nothing owed plus the increments less the decrements its history records |
| `WalletLedger.SerialTurns` | apps/wallet/src/wallet.service.ts:151-199 | the three steps taken without interruption are one whole update that records the amount it changes |
| `WalletLedger.ChainedIffNothingMissed` | apps/wallet/src/wallet.service.ts:151-193 | under every interleaving the history chains if and only if every call, when it inserts its row, has missed nothing on balance: no amount owed when it read and none recorded since, or these cancel out |
| `WalletLedger.DepositsChainIffUndisturbed` | apps/wallet/src/wallet.service.ts:151-193 | for deposits: if and only if no other call inserts a row between a call's read and its own row, and none owed its increment at the read |
| `WalletLedger.OverlapBreaksTheChain` | apps/wallet/src/wallet.service.ts:151-193 | two overlapping calls leave the row with both amounts, and a history that chains only if the first amount is zero |
| `WalletLedger.RowIsReplay` | apps/wallet/src/wallet.service.ts:165-193 | after serial updates at increasing times a row is its opening amount plus the replay of its history |
| `WalletLedger.HistoryChains` | apps/wallet/src/wallet.service.ts:165-178 | under serial updates at increasing times every old balance is the opening amount plus the signed rows before it, so consecutive rows chain |
| `WalletLedger.RowRisesAndFalls` | apps/wallet/src/wallet.service.ts:151-199 | in every serial run a row is its opening amount plus the increments posted to it less the decrements posted to it |
| `WalletLedger.HistoryRecordsPosts` | apps/wallet/src/wallet.service.ts:165-178 | serial updates of rows there are leave one history line for each post, with its id, row, amount, kind and time |
| `WalletLedger.NewestIsReplay` | sql/cashback-available-by-period.sql:12-37 | under serial updates at increasing times the newest row before any cut-off stands for the whole replay up to it |
| `WalletLedger.NewestIsReplayIffNothingMissed` | sql/cashback-available-by-period.sql:12-37 | under interleaved updates of a row the newest history row before every cut-off stands for the whole replay up to it if and only if every call has missed nothing when it inserts its row |
| `WalletLedger.NewestIsNewest` | sql/cashback-available-by-period.sql:12-37 | the row the query ranks first is one of the account's before the cut-off, and none of these has a later time, or the same time and a larger id |
| `WalletLedger.RowContribution` | sql/cashback-available-by-period.sql:1-37 | under serial updates at increasing times the query takes opening plus replay from each account, except that one whose history starts after the cut-off is dropped |
| `WalletLedger.PeriodQueryIsReplay` | sql/cashback-available-by-period.sql:1-37 | under serial updates at increasing times, from zero balances, the query returns the floor of the full replay for every cut-off and account filter, and null only when that is zero |
| `WalletLedger.PeriodQueryRisesAndFalls` | sql/cashback-available-by-period.sql:1-37 | under serial updates at increasing times, from zero balances, the query returns the floor of the increments less the decrements before the cut-off on rows of the account type and currency |
| `WalletLedger.WalletService.UpdateBalance` | apps/wallet/src/wallet.service.ts:134-200 | returns the amount found; the row rises by the amount for an increment and falls by it for a decrement, with one history line, and no other row changes; a missing row fails before anything is written |
| `WalletLedger.WalletService.ChangeBalance` | apps/wallet/src/wallet.service.ts:57-132 | posts the update and inserts the transaction with the balance found, or neither |
| `WalletLedger.WalletService.AccountReferral` | apps/wallet/src/wallet.service.ts:22-54 | credits each party's row with its amount; a missing row fails the referral without undoing the other credit |
| `Exchange.LedgerInvariant` | apps/cashback/src/cashback-exchange-v3.service.ts:423-637 | in every history of requests, available amount plus PROCESSING holds equals SUCCESS additions less SUCCESS subtractions with fee |
| `Exchange.AvailableRisesAndFalls` | sql/find-account-balance.sql:5-36 | in every history of requests the available amount is the SUCCESS additions less the SUCCESS subtractions, their fees and what PROCESSING ones hold, as four separate sums |
| `Exchange.SettleOnce` | apps/cashback/src/cashback-exchange-v3.service.ts:513-623 | whatever happens between a hold and its answer, a decline gives back exactly the held amount, a payment nothing, and no answer changes nothing; whatever happens later, the settled transaction never changes and a further answer to it has no effect |
| `Exchange.SettledIsFinal` | apps/cashback/src/cashback-exchange-v3.service.ts:513-623 | over any requests a transaction keeps all but its status, and a settled one keeps that too |
| `Exchange.CheckMeansNoHold` | apps/cashback/src/cashback-exchange-v3.service.ts:694-710 | the amount check passes only when the outstanding holds come to less than one, so with holds of at least one only when there is none, and always leaves at least minHold |
| `Exchange.AtMostOneHold` | apps/cashback/src/cashback-exchange-v3.service.ts:436-498 | with check and hold as one step, and active limits that admit no amount below one, each account and currency has at most one hold outstanding in every history |
| `Exchange.SubmitLeavesMinimum` | apps/cashback/src/cashback-exchange-v3.service.ts:692-715 | every submit accepted in any history of requests met outstanding holds of less than one, and none with limits that admit no amount below one, and left at least minHold |
| `Exchange.FractionalHoldHides` | apps/cashback/src/cashback-exchange-v3.service.ts:700-703 | for every amount below one there is a balance at which a second hold of it passes the floored check |
| `Exchange.SmallHoldsPileUp` | apps/cashback/src/cashback-exchange-v3.service.ts:88-498 | for every amount below one that the limits admit, a run from inquiry to submit holds it twice at once |
| `Exchange.OneHoldIffWholeUnits` | apps/cashback/src/cashback-exchange-v3.service.ts:88-498 | with check and hold as one step, no history has two holds of one account and currency outstanding if and only if the active limits of VNDC and BBC, for the balance rows there are, admit no amount below one |
| `Exchange.HandshakeInvariant` | apps/cashback/src/cashback-exchange-v3.service.ts:88-418 | in every history with submits in one step each hold is recorded, carries an amount, currency and receiver that an earlier inquiry validated against the limits and a later passcode check confirmed under its token, and no token holds twice |
| `Exchange.RecordsAreEarned` | apps/cashback/src/cashback-exchange-v3.service.ts:88-418 | in every history each accepted inquiry, confirmation and hold was written by a request that met its facts: limits, currency, wallet, receiver and no pending transaction; a right passcode for a cached token; a verified deal, an active account and an amount that is there |
| `Exchange.HoldsNeedRightPasscode` | apps/cashback/src/cashback-exchange-v3.service.ts:325-418 | every hold follows a passcode request with a right passcode, on a token cached with its deal, that confirmed it under its token |
| `Exchange.CashbackExchangeService.HandleInquiry` | apps/cashback/src/cashback-exchange-v3.service.ts:88-162 | refuses for the first reason that applies, or caches the deal unverified under a new token; keeps the ledger and the handshake |
| `Exchange.CashbackExchangeService.HandleVerifyPasscode` | apps/cashback/src/cashback-exchange-v3.service.ts:325-359 | refuses an unknown token or a wrong passcode and then changes nothing, or replaces the token by a verified one; keeps the ledger and the handshake |
| `Exchange.CashbackExchangeService.HandleSubmit` | apps/cashback/src/cashback-exchange-v3.service.ts:363-418 | refuses anything but the verified deal, and spends the token only when the hold succeeds; keeps the ledger and the handshake |
| `Exchange.CashbackExchangeService.CallVNDCOffChain` | apps/cashback/src/cashback-exchange-v3.service.ts:423-498 | checks the floored amounts and either holds the amount in a PROCESSING transaction or changes nothing |
| `Exchange.CashbackExchangeService.HandleAnswer` | apps/cashback/src/cashback-exchange-v3.service.ts:513-623 | success settles, any other code fails the transaction and gives the amount back, no answer leaves it PROCESSING; keeps the ledger and the handshake |
| `OverlappingSubmits.CheckAndHoldIsSubmit` | apps/cashback/src/cashback-exchange-v3.service.ts:436-498 | a check with its hold right behind it is a submit in one step |
| `OverlappingSubmits.LedgerUnderInterleaving` | apps/cashback/src/cashback-exchange-v3.service.ts:423-637 | however checks, holds and other requests interleave, available amount plus PROCESSING holds equals SUCCESS additions less SUCCESS subtractions with fee |
| `OverlappingSubmits.OneHoldIffNoneOvertaken` | apps/cashback/src/cashback-exchange-v3.service.ts:436-498 | with limits that admit no amount below one, however submits interleave, there is never more than one hold of an account and currency outstanding if and only if no outstanding one falls between the check of a submit and its hold |
| `OverlappingSubmits.HoldLeavesMinimumIff` | apps/cashback/src/cashback-exchange-v3.service.ts:692-715 | however submits interleave, a hold leaves minHold if and only if what was taken from its account and currency since its check (submits and holds less credits and declines) is at most the balance the check found less minHold and its amount |
| `OverlappingSubmits.MinimumIffRoom` | apps/cashback/src/cashback-exchange-v3.service.ts:436-498 | however submits interleave, every withdrawal leaves minHold if and only if that holds at every hold |
| `OverlappingSubmits.CheckThenHoldOverdraws` | apps/cashback/src/cashback-exchange-v3.service.ts:436-498 | two submits that both check before either holds have two holds outstanding, and leave less than minHold exactly when their amounts together exceed what one may take |
| `OverlappingSubmits.PaidHoldOverdraws` | apps/cashback/src/cashback-exchange-v3.service.ts:436-498 | the same when the first is paid before the second is held, although nothing is overtaken |
| `OverlappingSubmits.OneHoldPerTokenIffNoneRespent` | apps/cashback/src/cashback-exchange-v3.service.ts:363-418 | however submits interleave, every hold is recorded and backed by an earlier inquiry and a later passcode check under its token, and no token holds twice if and only if no submit holds after another one held under its token since its check |
| `OverlappingSubmits.TwoChecksOfOneTokenHoldTwice` | apps/cashback/src/cashback-exchange-v3.service.ts:363-418 | two submits of one token that both check before either holds hold twice under it |
| `OverlappingSubmits.RecordsAreEarned` | apps/cashback/src/cashback-exchange-v3.service.ts:88-359 | however submits interleave, each accepted inquiry and confirmation was written by a request that met its facts |
| `OverlappingSubmits.HoldsNeedRightPasscode` | apps/cashback/src/cashback-exchange-v3.service.ts:325-418 | however submits interleave, every hold follows a passcode request with a right passcode that confirmed its deal under its token |
| `KycRewards.ReleasedWhenBothApproved` | apps/cms/src/module/account/account.service.ts:952-994 | with approvals one at a time no referral reward waits once both parties are approved; when none of them is interrupted it is PROCESSING exactly while they are not |
| `KycRewards.BalanceIsPaidRewards` | apps/cms/src/module/account/account.service.ts:978-994 | with approvals one at a time, interrupted or not, a balance is the SUCCESS rewards received plus what waiting lone sign-ups credited at once |
| `KycRewards.SuccessIsFinal` | sql/find-cb-pending-by-account.sql:23-28 | with approvals one at a time, interrupted or not, a paid reward never changes again, and a step adds to a balance exactly what it turns to SUCCESS for that account, besides what a lone sign-up credits at once |
| `KycRewards.LoneRewardPaidThrice` | apps/authenticator/src/authenticator.service.ts:663-677 | a lone sign-up that waits for its identity check has been paid three times when it is approved |
| `KycRewards.LoneRewardCredited` | apps/authenticator/src/authenticator.service.ts:588-677 | in every run where no approval of the account stops halfway, approvals one at a time, a lone sign-up has been credited three times its reward if that should have waited and the account is approved, and its reward otherwise; so once if and only if it did not wait, the account is not approved yet, or it is nothing |
| `KycRewards.ReferralWrittenIffWaiting` | apps/authenticator/src/authenticator.service.ts:762-817 | a referred sign-up writes its referral, rewards and statistics if and only if the rewards are to wait: then one PROCESSING reward of the newcomer's amount from the referrer, one of the referrer's amount from the newcomer, and one more referral for the referrer |
| `KycRewards.ReferralPaysBoth` | apps/authenticator/src/authenticator.service.ts:720-817 | with approvals one at a time, once both are approved the newcomer has received its amount for that sign-up and the referrer its own, beside everything else |
| `KycRewards.LoneSignUpWrites` | apps/authenticator/src/authenticator.service.ts:575-677 | a lone sign-up creates the account with its reward credited and records it once as SUCCESS, or twice as PROCESSING when it should wait |
| `KycRewards.StatusChangeDoes` | apps/cms/src/module/account/account.service.ts:118-160 | a change of status stores exactly that status; short of an approval it changes nothing else, and an approval turns exactly the due rewards to SUCCESS, partner bonuses included, credits what they pay and counts the referrer once |
| `KycRewards.AccountService.HandleKycStatus` | apps/cms/src/module/account/account.service.ts:85-164 | refuses unknown, unchanged and approved accounts; an approval pays and counts before it is stored; leaves no reward waiting that was not |
| `KycRewards.AccountService.ProcessCashbackForAccount` | apps/cms/src/module/account/account.service.ts:925-1022 | the loop pays each waiting transaction whose test holds, in order, and no other |
| `KycRewards.AccountService.HandleReferredSignUp` | apps/authenticator/src/authenticator.service.ts:686-860 | records the referral, its two waiting rewards with their own amounts and the statistics; paying at once fails on the newcomer's missing balance row |
| `KycRewards.AccountService.HandleLoneSignUp` | apps/authenticator/src/authenticator.service.ts:575-684 | credits the reward at once in both modes, and inserts it twice when it should wait |
| `OverlappingApprovals.ReleasedIffNoneOvertaken` | apps/cms/src/module/account/account.service.ts:85-145 | however the reads, payments and stores of approvals interleave, no referral reward is ever left waiting between approved parties if and only if no approval is stored after an account it shares a waiting reward with was approved since it fetched its list |
| `OverlappingApprovals.CrossedApprovalsLeaveWaiting` | apps/cms/src/module/account/account.service.ts:925-966 | when both parties' approvals fetch before either is stored, their reward is left PROCESSING between approved parties |
| `OverlappingApprovals.CrossedApprovalsFromStart` | apps/cms/src/module/account/account.service.ts:925-966 | from the empty state a lone sign-up, one it referred and both approvals crossed leave both rewards PROCESSING between approved parties |
| `OverlappingApprovals.NeverEarlyIffPaysOnlyApproved` | apps/cms/src/module/account/account.service.ts:118-160 | however approvals interleave, no referral reward is ever SUCCESS before both its parties are approved if and only if none is paid while they are not and no approval of a party to a paid one is overwritten |
| `OverlappingApprovals.EarlyOnlyIfUnfinished` | apps/cms/src/module/account/account.service.ts:118-160 | however approvals interleave, a referral reward is SUCCESS before both its parties are approved only if an approval that paid it was given up or is not stored yet, or the stored approval of a party was overwritten |
| `OverlappingApprovals.SettledExactly` | apps/cms/src/module/account/account.service.ts:118-160 | with no change in flight, none given up after a payment, none overwritten and none overtaken, a referral reward is PROCESSING exactly while its parties are not both approved |
| `OverlappingApprovals.UninterruptedIsOneStep` | apps/cms/src/module/account/account.service.ts:118-160 | an approval whose steps follow one another is the approval in one step |
| `OverlappingApprovals.UninterruptedStatusIsOneStep` | apps/cms/src/module/account/account.service.ts:104-160 | any other change of status, opened and stored with nothing in between, is the change in one step |
| `OverlappingApprovals.OpensIff` | apps/cms/src/module/account/account.service.ts:104-116 | a change is opened exactly when the account is there, its status differs and is not final |
| `OverlappingApprovals.StoreSetsStatus` | apps/cms/src/module/account/account.service.ts:118-160 | storing sets the account's status to the one asked for and no other; only an approval not fetched or not fully paid is not stored |
| `OverlappingApprovals.BalanceWithRepeats` | apps/cms/src/module/account/account.service.ts:925-994 | however approvals interleave, a balance is the SUCCESS rewards received, plus what lone sign-ups credited at once, plus what was paid for rewards that were SUCCESS already |
| `OverlappingApprovals.NoneRepeatedIffNonePaidSince` | apps/cms/src/module/account/account.service.ts:925-994 | however approvals interleave, no reward is paid that is SUCCESS already if and only if none is paid that another approval has paid since the list was fetched |
| `OverlappingApprovals.AlonePaysOnce` | apps/cms/src/module/account/account.service.ts:88-112 | while the changes of one account do not overlap, however those of different accounts do, that holds and no reward is paid for twice |
| `OverlappingApprovals.TwinApprovalsPayTwice` | apps/cms/src/module/account/account.service.ts:104-121 | two approvals of one account that both fetch before either is stored pay the first reward of their list twice |
| `OnusDeposit.TotalsConstant` | apps/third-party/src/module/onus/onus.service.ts:218-307 | over any callbacks with any failing attempts the total of every currency is constant |
| `OnusDeposit.BrokerNeverNegative` | apps/third-party/src/module/onus/onus.service.ts:203-214 | a broker row that starts at zero or above never goes below |
| `OnusDeposit.ReplyMeans` | apps/third-party/src/module/onus/onus.service.ts:125-360 | the reply names the first check that fails, else whether one of five attempts moved the money and whether it was recorded; the number is recorded exactly on success |
| `OnusDeposit.ProcessBrings` | apps/third-party/src/module/onus/onus.service.ts:260-307 | when the money moves the user gains the amount and the broker loses it; no other account and currency gains or loses, and without a move none does |
| `OnusDeposit.HoldingIsBrought` | apps/third-party/src/module/onus/onus.service.ts:218-307 | in every run an account holds its opening amount plus what moved to it, less, for the broker, what moved from it |
| `OnusDeposit.OtherRowsStay` | apps/third-party/src/module/onus/onus.service.ts:218-307 | rows are never removed, and only the broker's first row and the user's change |
| `OnusDeposit.MovesAreRecordedOrLost` | apps/third-party/src/module/onus/onus.service.ts:189-342 | the times a number moved money are one if it is recorded plus the times it moved and was not recorded |
| `OnusDeposit.MovesAtMostOnce` | apps/third-party/src/module/onus/onus.service.ts:189-342 | a transaction number moves money at most once when none of its own recordings fails |
| `OnusDeposit.FailedRecordingRepeats` | apps/third-party/src/module/onus/onus.service.ts:307-342 | a callback whose recording fails moves the money again when repeated, and its user gains the amount twice |
| `OnusDeposit.RetryIsBounded` | apps/third-party/src/module/onus/onus.service.ts:374-388 | a retry makes at most five attempts, stops at the first success and fails only after five failures |
| `OnusDeposit.OnusService.CheckTransaction` | apps/third-party/src/module/onus/onus.service.ts:362-389 | the recursive lookup succeeds exactly when one of its attempts does |
| `OnusDeposit.OnusService.DoProcessTransaction` | apps/third-party/src/module/onus/onus.service.ts:450-491 | moves the amount once at the first attempt that succeeds, or not at all |
| `OnusDeposit.OnusService.ProcessTransaction` | apps/third-party/src/module/onus/onus.service.ts:125-360 | refuses for the first reason that applies, else moves the money from the broker to the user and then records it; keeps every total, every solvent broker row and the tally of moves |
| `Pool.RunAccounts` | apps/wallet/src/pool.service.ts:17-388 | both values equal opening plus ins minus outs over their history, and the newest last is within half a cent |
| `Pool.ValuesAreFlows` | apps/wallet/src/pool.service.ts:17-388 | in every serial run, negative inputs included, each value is its opening value plus what the operations brought: claims and withdrawals take eggs, sells and deposits bring them; buys and deposits bring BBC, sells and withdrawals take it |
| `Pool.StepEntries` | apps/wallet/src/pool.service.ts:17-388 | which history rows each operation writes, in or out, and the value they show |
| `Pool.WhenRatesAreWritten` | apps/wallet/src/pool.service.ts:466-494 | an operation that changes the pool writes one rate row when it leaves eggs, a claim also when it leaves a debt of them, and no other does |
| `Pool.StepAccounts` | apps/wallet/src/pool.service.ts:233-362 | an operation keeps the books if and only if it is not a negative deposit or withdrawal |
| `Pool.RateRowIsClose` | apps/wallet/src/pool.service.ts:100-118 | each rate row is within 0.000005 of the ratio it is computed from, which is the current one unless a buy misses its own update |
| `Pool.RateRowIsCurrentIff` | apps/wallet/src/pool.service.ts:100-118 | a rate row is within 0.000005 of the pool's ratio if and only if it is not a stale buy's, or what the purchase adds fits the rate before it |
| `Pool.StaleRateMisses` | apps/wallet/src/pool.service.ts:100-118 | every stale purchase that adds more than 0.00001 BBC for each egg leaves a row that is off, as 100 BBC for one egg and no BBC do |
| `Pool.RateMoves` | apps/wallet/src/pool.service.ts:466-494 | while BBC is not negative and eggs are positive, sells never raise the quoted rate and claims and buys never lower it |
| `Pool.RatesRise` | apps/wallet/src/pool.service.ts:17-122 | over any claims and buys that leave eggs in the pool, from a BBC value that is not negative, no rate row is below an earlier one, stale lookups included |
| `Pool.PoolService.UpdatePoolClaimGoldenEgg` | apps/wallet/src/pool.service.ts:17-53 | takes the eggs with a history row; the rate row fails for a zero egg value only, and what was written stays; the books stay kept |
| `Pool.PoolService.UpdatePoolBuyEggEvent` | apps/wallet/src/pool.service.ts:55-122 | adds the configured share of a positive BBC purchase, its row rounded to cents, and a rate row; the books stay kept |
| `Pool.PoolService.UpdatePoolSellGoldenEgg` | apps/wallet/src/pool.service.ts:124-212 | takes eggs in and BBC out with exact rows, for BBC only; the books stay kept |
| `Pool.PoolService.DepositPoolValue` | apps/wallet/src/pool.service.ts:214-300 | adds both values, with a row for each positive one; the books stay kept unless one is negative |
| `Pool.PoolService.WithdrawalPoolValue` | apps/wallet/src/pool.service.ts:302-388 | takes both values, with a row for each positive one; the books stay kept unless one is negative |
| `AccessTrade.RowsPaidOnce` | apps/cronjob/src/access-trade.job.ts:376-504 | at most one row per pair; while settled items carry their row's id, a row is paid exactly once when SUCCESS and never otherwise, its amount to its receiver |
| `AccessTrade.AlwaysPaidOnceIffIdsMatch` | apps/cronjob/src/access-trade.job.ts:376-504 | in every run rows are paid exactly once when SUCCESS and never otherwise, at every moment, if and only if no item settles a row under another id than its own |
| `AccessTrade.StatusOnlyMovesForward` | apps/cronjob/src/access-trade.job.ts:384-390 | while settled items carry their row's id a status only moves from PROCESSING to APPROVED to SUCCESS or REJECTED, and final ones are never left |
| `AccessTrade.StatusMovesForwardIff` | apps/cronjob/src/access-trade.job.ts:384-433 | a step moves every status forward if and only if it does not settle an item whose id names a REJECTED row |
| `AccessTrade.StatusNeverMovesBack` | apps/cronjob/src/access-trade.job.ts:384-433 | from any moment of a run to its end every status only moves forward, as long as no step revives a rejected row |
| `AccessTrade.MatchingIdsReviveNone` | apps/cronjob/src/access-trade.job.ts:384-433 | no step revives a rejected row in a run whose settled items carry their row's id |
| `AccessTrade.StepKeepsRows` | apps/cronjob/src/access-trade.job.ts:571-580 | rows are never removed or re-identified, and a pair is never inserted twice |
| `AccessTrade.ItemOutcome` | apps/cronjob/src/access-trade.job.ts:368-488 | a held item changes nothing; a rejected one leaves its row REJECTED with nothing and pays nothing; an approved, unconfirmed one leaves it APPROVED with nothing; an approved and confirmed one with the row's id leaves it SUCCESS and pays amount and reward to its receiver |
| `AccessTrade.ImportOutcome` | apps/cronjob/src/access-trade.job.ts:557-819 | a new pair of a known account is imported as it came, pending with its commission or confirmed with its bonus and paid; anything else imports nothing |
| `AccessTrade.StatusHasCause` | apps/cronjob/src/access-trade.job.ts:376-488 | in every run whose settled items carry their row's id, each row's status was given by an event of its pair: SUCCESS only by a confirmed import or an item approved and confirmed, REJECTED only by a rejected item |
| `AccessTrade.PaidOnceIffIdMatches` | apps/cronjob/src/access-trade.job.ts:421-475 | a settlement keeps every row paid exactly once if and only if its payload carries the row's own id |
| `AccessTrade.ForeignIdPaysAgain` | apps/cronjob/src/access-trade.job.ts:423-433 | an id that names no row pays a confirmed item every time it is reconciled |
| `AccessTrade.ApprovalLosesTheAmount` | apps/cronjob/src/access-trade.job.ts:476-488 | a row approved in one item and confirmed in the next is paid the reward alone, which is right only for a zero amount |
| `AccessTrade.PaidInFullIff` | apps/cronjob/src/access-trade.job.ts:419-488 | in every run whose settled items carry their row's id, a SUCCESS row has one payment, of the imported amount plus the reward if and only if it was never reconciled as approved or imported with nothing, and of the reward alone otherwise |
| `AccessTrade.NoRewardLosesImport` | apps/cronjob/src/access-trade.job.ts:600-631 | a confirmed import without a daily reward writes nothing, which a reward of 0 would do if and only if there is nothing to import |
| `AccessTrade.AccessTradeJob.Pending` | apps/cronjob/src/access-trade.job.ts:751-819 | inserts an unpaid row for a new pair with a known account and a non-zero amount; rows stay paid once |
| `AccessTrade.AccessTradeJob.Confirmed` | apps/cronjob/src/access-trade.job.ts:557-705 | inserts a SUCCESS row and its payment for a new pair with a known account and a non-zero sum; rows stay paid once |
| `AccessTrade.AccessTradeJob.CheckStatus` | apps/cronjob/src/access-trade.job.ts:368-488 | one reconciled item: nothing for held, unknown or unchanged ones, else the new status with its payment or its zeroed amount; rows stay paid once unless it settles a row under another id |
| `AccountQuery.FilterMeansQuery` | apps/cms/src/module/share/index.ts:39-109 | whatever values follow, the clause selects exactly what the requested filters describe, every placeholder naming its own value; it is well formed if and only if an amount filter that applies has an amount |
| `AccountQuery.PushMeans` | apps/cms/src/module/share/index.ts:41-65 | a pushed value is named by its own placeholder and every earlier placeholder still names its own |
| `AccountQuery.PagingNamesItsValues` | apps/cms/src/module/account/account.service.ts:173-199 | limit and offset name the two appended values, and the page statement selects what the count statement counts |
| `AccountQuery.BuildAccountFilter` | apps/cms/src/module/share/index.ts:16-112 | the pushes and the loop over tokens build that clause and value list |
| `Notifications.SendNotifications` | apps/cms/src/module/account/account.service.ts:861-877 | the walk ends and its batches of one to five pages count down every page from floor(total/1000) once and return every account exactly once |
| `Notifications.GetQueryAccountByIndex` | apps/cms/src/module/account/account.service.ts:879-896 | one batch is the next up to five page indices downwards, stopping at zero |
| `Notifications.EveryAccountOnce` | apps/cms/src/module/account/account.service.ts:879-894 | the pages visited return every account exactly once, for every number of accounts |
| `Versions.CompareVersion` | libs/utils/src/utils.service.ts:337-354 | the loop computes the comparison of the two level lists |
| `Versions.CompareIsLexicographic` | libs/utils/src/utils.service.ts:343-353 | on numeric versions the result is lexicographic order on zero-padded levels |
| `Versions.CompareSwaps` | libs/utils/src/utils.service.ts:350-351 | swapping the arguments negates the result, for any strings |
| `Versions.CompareTransitive` | libs/utils/src/utils.service.ts:343-353 | on numeric versions, transitive across versions of different lengths, strictly when a step is strict |
| `Versions.CompareZero` | libs/utils/src/utils.service.ts:347-353 | on numeric versions, zero exactly when the versions agree after dropping trailing zero levels |
| `Versions.EqualityTransitiveIffNumeric` | libs/utils/src/utils.service.ts:347-353 | comparing equal is transitive through a version if and only if all its levels are numbers |
| `Versions.DottedRoundTrip` | libs/utils/src/utils.service.ts:340-348 | numbers written with dots are read back as the same levels |
| `Versions.ParseIntTakesDigits` | libs/utils/src/utils.service.ts:347-348 | a level is the number its leading digits write, whatever follows them, and no number without any |

## Left out

- Wallet handlers for HOLD_BALANCE, REVERT_BALANCE, APPROVE_KYC, BROKER_PROCESS and APPROVE_DAILY_LUCKY_WHEEL are not
  in the repository: each is taken as the balance change plus the transaction's status change that its callers describe;
  the last one is taken to credit the receiver, to set the row its payload names, and to refuse an amount that is not a
  number.
- Database, queue, cache and HTTP calls are maps, sequences and inputs. An attempt that fails has no effect, except where
  the steps of an update are modelled one by one.
- LinkedLists.DoublyLinkedList.RemoveNode: speaks of nodes a walk of the list can hand out; a foreign node is outside it.
- LinkedLists.Value: prototype properties and loose equality between different primitive types are not modelled.
- DynamicArrays: `DynamicArray(null)`, `set` outside the contents, `indexOf` of objects and operations on an array whose
  size went below zero are not modelled.
- Exchange.HandshakeInvariant: submits are one step (`OverlappingSubmits` has them in two) and tokens are never issued
  twice; who owns a token and the strength of passcodes are not modelled. Expiry may drop any token at any moment.
- Exchange.AmountAvailable: the amounts of the query are compared as numbers, as their declared types say; a driver that
  returned decimals as strings would compare them as text.
- KycRewards.AccountService.HandleReferredSignUp: leaves out referrers without a balance row; the texts of notifications
  are not modelled.
- KycRewards.ReleasedWhenBothApproved: approvals are one at a time, and so they are in the other results of its file;
  `OverlappingApprovals` has their steps interleaved, where APPROVE_KYC credits whatever the transaction's status.
- OnusDeposit: callbacks are one at a time; the partner transaction and its exchange rate are only a recording that may
  fail.
- Pool: operations are one at a time; whether a buy sees its own update is an input.
- TowerOfHanoi.SolveThapHaNoi: the recursion does not return for n below 1; the progress lines it prints besides the moves
  are not modelled.
- AccessTrade: the block loop with its offsets and early returns is not modelled, only its step for one item; partner
  commissions, campaigns and lucky-wheel rows are not modelled, and rounding of commissions is an input.
- AccountQuery: the clause is a list of conjuncts rather than text; how the driver binds the value list, sorting and the
  token columns are not modelled. Whether a keyword is a UUID or a phone number is an input.
- Notifications.SendNotifications: `findMany` is taken to return the accounts in one order for all pages, which the code
  does not ask for.
- Versions.ParseInt: leading white space, signs and hexadecimal prefixes of a level are not modelled, and neither are
  arguments that are not strings.
- Order service, one-time passwords, refresh tokens, roles, daily and monthly withdrawal limits (not called), and
  controllers, guards and configuration.
