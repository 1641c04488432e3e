# Verification of the jar contract's money core

This project models the staking contract of the sweat-jar repository and proves what
it promises about money: how interest is computed and cached, how calls that wait
for a token transfer keep their jars to themselves, how score products are settled,
how fees and principals add up, how old accounts are loaded, and how tickets are
signed.

Check everything with
`dafny verify dfyconfig.toml --resource-limit 2000000 --verification-time-limit 0 --warn-contradictory-assumptions`
(Dafny 4.11).

## How the model is built

- `Numbers`, `Types`, `MapSum`: fixed-width arithmetic with its saturation, the
  contract's records, sums over maps. Numbers are mathematical integers; where the
  code saturates, truncates or divides, the model does so explicitly.
- `Interest`, `Jars`, `Settlement`, `Scores`, `Accounts`, `Tickets`: what each
  operation computes, as functions, with the jar, its binary search, the score
  window and the score processing also written in place.
- `Promises`, `Withdrawals`, `Claims`, `Restakes`, `Contracts`: the entry points and
  callbacks as functions of the contract's state. An error result means that the
  call aborts and nothing changes.
- `StoredAccounts`, `ContractObject`: the account and the contract as classes whose
  methods work step by step with loops and accumulators; every method is proved to
  do exactly what the function above says. Hash maps are visited in an arbitrary
  order.
- `Protocol`, `Safety`: the contract together with its pending promises as a state
  machine. Every call and every callback is one atomic step, the outcome of each
  transfer is arbitrary, callbacks come in any order, the clock never goes back.
- `Accrual`, `Books`, `Ledgers`, `Tracking`, `TrackedCalls`, `TrackedCallbacks`,
  `Histories`, `Drifts`, `LostInterest`: the cached interest against the integral of
  the rate, along all runs.
- `Conservation`, `Fees`: tokens and fees along all runs.
- `Schedules`, `ClaimOutcomes`, `Shadowing`, `TwinRuns`, `ForgottenScores`, `Commuting`:
  two runs side by side.
- `Credits`, `OverCredit`, `ScoreRuns`, `ScoreDays`: what score jars are credited with.
- `Payments`, `Charges`, `Timezones`, `Acceptance`, `Texts`: what settlements, claims,
  withdrawals and restakes come to in numbers, and exactly when each call is accepted.
  Rates, times, maturity, fees and texts are written down there a second time, without
  the functions of the other modules, and proved to be what those compute.
- `Loading`, `Messages`: stored accounts of old versions, signed texts, nonces.

Two readings of the code are made explicit. A promise in the model also remembers
when it was requested and what its parts were worth, which is not sent along; it is
only used to state what is frozen. Vectors of requests are keyed by product, since
the code never puts a product in twice.

Two promises of the code turn out not to hold without a condition.

A claim that fails puts the cached moment of before back, and the interest since is
computed anew at the rate of today. If the increased rate was switched while the
claim was pending, the account is credited at the wrong rate for that time.
`CacheIsTheIntegral` covers all runs with the rate as the contract counts;
`CreditedIsIntegralPlusDrift` covers all runs with the rate as it was set, and says by
how much the two differ; `FailedClaimIsHarmlessIff` says exactly when one failure
makes no difference; `ToggleDuringFailingClaimLosesInterest` is a run that loses.

A settlement moves the score window without its update time. If the first call after
the last recording of a day comes on the next day and settles without recording (a
claim, a feature switch, a withdrawal from other jars, a booster that is not taken), the
score of that day is lost for good; recording again does not bring it back, since the
next settlement moves the window once more. `UpdateDayIsPaidIff` says over any run
exactly when the day is paid, and `AScoreIsLost` is an account that loses it.

## Model

| member | source | states |
|---|---|---|
| `Histories.CacheIsTheIntegral` | model/src/interest.rs:17-43 | after every run, with any outcomes and interleavings, cached, claimed, in-flight and dropped interest of a fixed-term jar is exactly the millisecond integral, at the rate counted with, over every deposit ever made, also at any later moment; a migrated jar counts on from what it brought |
| `Drifts.CreditedIsIntegralPlusDrift` | model/src/interest.rs:17-43 | for every run, against the toggles really made: the credit is the integral of the real rate plus, for each failing claim, the difference it made |
| `Drifts.FailedClaimIsHarmlessIff` | contract/src/feature/claim/api.rs:214-222 | a claim that fails after an undisturbed run changes the credit by exactly the interest at the rate of today minus the real one, from the cached moment that comes back until the failure; it is harmless if and only if every deposit still earning then earned alike at both rates |
| `LostInterest.ToggleDuringFailingClaimLosesInterest` | contract/src/feature/claim/api.rs:214-222 | a run of the contract: register, switch on, stake, a claim that is really made, switch off, failure; six milliseconds at 100 % are lost |
| `Drifts.RunDrifts` | contract/src/feature/account/api.rs:176-197 | over every run the rate counted with and the real one agree from now on, and differ before by the drift |
| `TrackedCalls.MigrateTracks` | contract/src/feature/ft_receiver.rs:74-87 | a migrated account starts with balanced books, and no promise is left of the account before |
| `Histories.SuccessIsUndisturbed` | contract/src/feature/claim/api.rs:198-209 | runs without a failing callback meet the condition |
| `Histories.UndisturbedRate` | contract/src/feature/claim/api.rs:214-222 | in such runs the rate the contract applies is the rate as set, at every millisecond |
| `Histories.RunTracks` | contract/src/feature/account/common.rs:70-87 | every step of every run keeps every fixed-term jar, and every snapshot a pending claim holds of it, balanced |
| `TrackedCallbacks.ResolvedTracks` | contract/src/feature/withdraw/api.rs:165-275 | every callback with either outcome keeps the balance: held deposits leave without loss, claims are paid or put back, closing drops only the remainder |
| `TrackedCallbacks.FinishIsFinish` | contract/src/feature/claim/api.rs:190-223 | what a callback does to one jar: released without its held prefix, put back from the snapshot, or untouched |
| `TrackedCalls.RestakeTracks` | contract/src/feature/restake/api/api.rs:127-198 | a restake keeps the balance, whether it moves at once or waits for its remainder |
| `TrackedCalls.UpdateTracks` | contract/src/feature/account/api.rs:176-197 | an oracle update keeps the balance: what was earned at the old rate is cached before the rate changes |
| `TrackedCalls.ProductsTrack` | contract/src/feature/product/api.rs:19-61 | registering or editing products leaves every book balanced |
| `Tracking.StakeTracks` | contract/src/feature/account/common.rs:23-48 | a stake keeps the balance |
| `Tracking.AirdropTracks` | contract/src/feature/airdrop/api.rs:36-51 | an airdrop to any receivers, repeated or not, keeps the balance |
| `Tracking.WithdrawTracks` | contract/src/feature/withdraw/api.rs:100-118 | requesting a withdrawal keeps the balance, and what it holds has earned all it ever will |
| `Tracking.WithdrawAllTracks` | contract/src/feature/withdraw/api.rs:120-161 | the same for several jars |
| `Tracking.ClaimTracks` | contract/src/feature/claim/api.rs:62-121 | a claim moves the interest in flight, and its snapshot stays as balanced as the jar |
| `Accrual.StretchIsIntegral` | model/src/interest.rs:90-103 | the closed form over one cached stretch is the integral over that stretch |
| `Accrual.RefreshBalanced` | model/src/data/account/common.rs:109-113 | refreshing the cache keeps credited and earned interest equal |
| `Accrual.ClaimBalanced` | model/src/data/jar/common.rs:63-71 | so does a claim |
| `Accrual.DropBalanced` | model/src/data/jar/common.rs:81-87 | removing mature deposits loses nothing |
| `Accrual.CloseBalanced` | model/src/data/jar/common.rs:42-44 | closing an empty jar drops its remainder and nothing else |
| `Accrual.ToggleBalanced` | contract/src/feature/account/api.rs:176-185 | changing the setting right after a refresh keeps past interest |
| `Drifts.RatesUsuallyCompare` | primitives/src/lib.rs:56-58 | the condition for the two-way statement above holds if both rates are written with the same power of ten or nothing saturates |
| `Histories.NeverMigratedFits` | contract/src/feature/ft_receiver.rs:74-87 | the condition on migrated deposits is empty for an account that is never migrated |
| `Interest.JarInterestIsExact` | model/src/interest.rs:17-43 | splitting into tokens and remainders and carrying over loses nothing, and less than a token stays in the carry |
| `Interest.RemaindersFit` | model/src/interest.rs:34-38 | the 64-bit sum of remainders cannot overflow below half a billion deposits |
| `Safety.HeldDepositsAreFrozen` | contract/src/feature/withdraw/api.rs:100-161 | in every reachable state the prefix a pending withdrawal or restake will take still exists, is worth what was computed at the request, and had matured then |
| `Safety.LockedIffOwnedByOne` | model/src/data/jar/common.rs:46-61 | a jar is locked exactly when a pending call owns it, and never do two |
| `Safety.CallbacksNeverAbort` | contract/src/feature/claim/api.rs:198-222 | every pending callback can run in every reachable state at any later time with either outcome |
| `Safety.EveryRunCanDrain` | contract/src/feature/withdraw/api.rs:165-247 | from every sound state the pending calls can all be finished, each with an outcome of its own, and then no jar is locked |
| `Safety.CutIsExact` | model/src/data/jar/common.rs:24-40 | in every reachable state the cut by binary search is the list and the sum of all liquid deposits |
| `Safety.NothingIsFromTheFuture` | model/src/interest.rs:112-124 | in every reachable state no deposit and no cache is later than now, so the unsigned subtraction never aborts and the term is the exact time since |
| `Safety.Run` | contract/src/feature/account/common.rs:54-68 | every run, whatever its steps, ends in a state that meets the invariant |
| `Protocol.StepKeepsInv` | contract/src/feature/restake/api/api.rs:100-158 | every call and callback keeps locks owned, promises grounded and exclusive, deposits ordered, and no cache or snapshot ahead of the clock |
| `Protocol.CallbackSucceeds` | contract/src/feature/restake/api/api.rs:100-123 | a promise finds its account, its jars and its drain index |
| `Protocol.OpeningKeepsInv` | contract/src/feature/withdraw/api.rs:141-161 | a call that locks only unlocked jars keeps the invariant |
| `Protocol.ClosingKeepsInv` | contract/src/feature/withdraw/api.rs:267-275 | a callback that frees only its own jars keeps the invariant, and all other promises grounded |
| `Protocol.MigrateKeepsInv` | contract/src/feature/ft_receiver.rs:74-87 | taking over an account only where none is in use takes no jar from a promise |
| `Withdrawals.WithdrawOpens` | contract/src/feature/withdraw/api.rs:100-118 | a withdrawal locks one unlocked jar and freezes what it promises to take |
| `Withdrawals.WithdrawAllOpens` | contract/src/feature/withdraw/api.rs:120-161 | so does one from several jars, skipping locked ones |
| `Withdrawals.FinishWithdrawCloses` | contract/src/feature/withdraw/api.rs:165-247 | the callback leaves other jars alone and its own unlocked or gone |
| `Claims.ClaimTotalOpens` | contract/src/feature/claim/api.rs:62-121 | a claim locks only unlocked jars and takes out no deposit |
| `Claims.FinishClaimCloses` | contract/src/feature/claim/api.rs:190-223 | the callback leaves other jars alone, keeps deposits made meanwhile, and removes none that is not its own |
| `Claims.SettledClaimOfJar` | contract/src/feature/claim/api.rs:75-106 | what a completed claim pays from one jar and what it leaves of it |
| `Restakes.RestakeOpens` | contract/src/feature/restake/api/api.rs:127-158 | a restake moves or locks only unlocked jars and freezes what it promises to take |
| `Restakes.RestakeFits` | contract/src/feature/restake/api/api.rs:213-288 | restaked amount and remainder are the whole of the parts, the fee fits the remainder, the amount fits the cap |
| `Restakes.FinishRestakeCloses` | contract/src/feature/restake/api/api.rs:100-123 | the callback leaves its jars unlocked, others untouched or extended, and all in order |
| `Accounts.AirdroppedAddsOne` | contract/src/feature/airdrop/api.rs:63-88 | an airdrop share appends one deposit to one jar and changes no other deposit or lock |
| `Accounts.StakedAddsOne` | contract/src/feature/account/common.rs:35-45 | so does a stake |
| `Accounts.UpdatedKeepsHoldings` | contract/src/feature/account/api.rs:90-145 | oracle updates leave all deposits and locks as they are |
| `Timezones.AcceptedCallsSettleOnATimezone` | contract/src/feature/account/common.rs:40-42 | after a stake, airdrop or restake into a score product every receiver has the timezone it had, or else that of the ticket, and without either the call is rejected; other products leave it alone |
| `Acceptance.StakeIsAcceptedIff` | contract/src/feature/account/common.rs:23-48 | a stake is accepted exactly into an enabled product, within its caps, authorized by a signature of its text and a ticket of at most a week where the product is protected, and with a timezone in which days can be counted for a score product |
| `Acceptance.AirdropIsAcceptedIff` | contract/src/feature/airdrop/api.rs:17-61 | an airdrop is accepted exactly if it splits evenly, the product takes the share, it is authorized, and every receiver, however often named, can enter and take the booster |
| `Acceptance.AirdropBoosts` | contract/src/feature/airdrop/api.rs:90-126 | the booster of an airdrop changes the window as the oracle's booster for that day would, and is passed over without a timezone |
| `Acceptance.MigrationIsAcceptedIff` | contract/src/feature/ft_receiver.rs:74-87 | an account is taken over exactly by one that was never used and with exactly its principal, and is then that account |
| `Acceptance.WithdrawIsAcceptedIff` | contract/src/feature/withdraw/api.rs:100-118 | a withdrawal is accepted exactly from an unlocked jar whose interest can be computed and whose fee does not exceed what has matured |
| `Acceptance.WithdrawAllIsAcceptedIff` | contract/src/feature/withdraw/api.rs:120-161 | a withdrawal from several jars is accepted exactly if all interest can be computed, the list names jars of the account, and every fee fits |
| `Acceptance.ClaimOkIff` | contract/src/feature/claim/api.rs:62-121 | a claim is accepted exactly if the interest of the unlocked jars can be computed and at most 200 of them pay a token or more |
| `Acceptance.RestakeOkIff` | contract/src/feature/restake/api/api.rs:127-185 | a restake is accepted exactly for a positive amount of what has matured, within the caps of an enabled product, authorized, with a timezone where needed, and a fee that fits the rest |
| `Acceptance.UpdateOkIff` | contract/src/feature/account/api.rs:90-145 | scores and boosters are taken exactly with a timezone and from the past; a feature is switched exactly if all interest can be computed, and no other setting changes |
| `Acceptance.OperatorsCalls` | contract/src/feature/product/api.rs:19-61 | a product is registered exactly if it is new and sensible; switching it and changing its key change just that |
| `Acceptance.SettingsOfNewAccounts` | contract/src/feature/account/api.rs:170-185 | a feature or a timezone set for an unknown account opens it with this setting |
| `Acceptance.TimezoneIsChosenOnce` | contract/src/feature/account/api.rs:170-173 | a timezone is stored for an account that has none and changes nothing otherwise |
| `Accounts.TrySetTimezone` | model/src/data/account/common.rs:72-82 | a timezone once set is never changed, and nothing else of the account is touched |
| `Conservation.TokensAreConserved` | contract/src/feature/withdraw/api.rs:165-247 | over every run tokens accepted are principals, net payouts, fees collected, fees in flight and fees paid |
| `Conservation.IncomingRaisesPrincipal` | contract/src/feature/ft_receiver.rs:68-107 | every accepted transfer raises the sum of all principals by exactly its amount: stake, airdrop with repeated receivers, migration |
| `Conservation.AmountsFit` | contract/src/feature/fee/api.rs:20-66 | with at most 2^128 - 1 tokens accepted, no balance or payout leaves 128 bits, nor do collected, travelling and paid fees together, nor a fee that comes back |
| `Conservation.WithdrawnConserves` | contract/src/feature/withdraw/api.rs:165-247 | a withdrawal callback conserves tokens for either outcome |
| `Conservation.RestakedConserves` | contract/src/feature/restake/api/api.rs:100-123 | so does a restake callback |
| `Conservation.RestakeKeepsPrincipal` | contract/src/feature/restake/api/api.rs:187-198 | a restake call, immediate or waiting, keeps the account's principal |
| `Conservation.TakesOutPrincipal` | model/src/data/jar/common.rs:81-87 | taking held prefixes out lowers the principal by exactly their recorded balances, closed jars included |
| `Conservation.AirdropRaises` | contract/src/feature/airdrop/api.rs:36-51 | the loop over receivers adds one amount for each, however often a receiver occurs |
| `Conservation.FinishClaimPrincipal` | contract/src/feature/claim/api.rs:190-223 | neither outcome of a claim changes the principal |
| `Charges.WithdrawTakes` | contract/src/feature/withdraw/api.rs:100-118 | a withdrawal locks one unlocked jar and asks for the sum and the number of its matured deposits, and for the fee on it: none, the fixed one, or the percentage rounded down |
| `Charges.WithdrawAllTakes` | contract/src/feature/withdraw/api.rs:120-161 | the same for exactly the unlocked jars, of the list if there is one; no promise is left exactly if there is none |
| `Charges.RestakeTakes` | contract/src/feature/restake/api/api.rs:127-289 | a restake takes all that has matured in one jar, or in exactly the unlocked jars where something has; without a rest it moves at once and the nonce rises, otherwise the rest is to be paid out with its fee: one jar's own, or the rounded-up share of all jars' fees |
| `Charges.FeesAreCharged` | model/src/data/product/common.rs:43-52 | the fee is none, the fixed one, or the largest integer not above the percentage of the amount |
| `Charges.TakesTheMatured` | model/src/data/jar/common.rs:24-40 | on an ordered jar sum and cut are those of the deposits whose lockup term is over, all for a flexible product |
| `Fees.RunIsChecked` | model/src/data/product/common.rs:69-85 | on runs without migration every stored deposit is within its product's caps and every product passed registration |
| `Fees.FeeFitsIff` | model/src/data/product/common.rs:43-52 | a fee fits its amount if and only if there is a liquid deposit or no positive fixed fee |
| `Fees.WithdrawCoversItsFee` | contract/src/feature/withdraw/api.rs:60-64 | a withdrawal with a liquid deposit never fails over its fee |
| `Fees.WithdrawAllCoversItsFees` | contract/src/feature/withdraw/api.rs:76-81 | one from several jars fails over a fee only if a wanted jar has nothing liquid |
| `Fees.RemainderFeeIsFair` | contract/src/feature/restake/api/api.rs:270-281 | the pro-rated fee is at least the exact share, less than one unit above it, and at most the remainder |
| `Fees.RestakeAllCoversItsFee` | contract/src/feature/restake/api/api.rs:249-289 | restaking all jars never fails over its fee |
| `Fees.ActKeepsProducts` | contract/src/feature/product/api.rs:19-61 | every stored product stays admissible |
| `Fees.ScaleFitsIff` | model/src/data/product/common.rs:113-132 | the largest exponent registration lets through is the largest whose power of ten fits 128 bits |
| `Numbers.MulDivCeilIsTheLeastUpperBound` | contract/src/feature/restake/api/api.rs:326-330 | the rounded-up share is the least integer not below the exact one and exceeds neither factor |
| `Numbers.ProperFractionKeepsRemainder` | model/src/data/product/common.rs:87-102 | a percentage below one hundred never takes more than the whole |
| `Numbers.RateAtMostOne` | primitives/src/lib.rs:56-58 | a rate of at most one yields at most the principal, even when the product saturates |
| `Schedules.AccountSchedulesAgree` | contract/src/feature/claim/api.rs:75-106 | any sequence of completed claims of an account pays for each jar without scores, with what is pending, exactly the interest of never claiming, and leaves the same remainder; a jar closed on the way has paid all |
| `Schedules.AccountClaimsTheJar` | contract/src/feature/claim/api.rs:198-209 | for one jar the claims of the account are claims of the jar, and it is closed only when less than a token is left |
| `Schedules.NoScheduleOverpays` | model/src/data/jar/common.rs:63-71 | whatever the number of claims, a jar brings in exactly the units of all its deposits' terms: never more than the exact interest, short of it by at most a unit for every millisecond of every deposit, with less than a token in the carry |
| `Schedules.FlooringCostsLessThanTheTerm` | model/src/interest.rs:185-198 | credited units never exceed the exact interest, and fall short of it by less than one unit for each millisecond |
| `Schedules.FlooringCostsLessThanTheTerms` | model/src/interest.rs:185-198 | the same for all deposits of a jar together |
| `Schedules.RefreshKeepsPromise` | model/src/data/jar/common.rs:73-79 | refreshing a cache changes nothing about what will be owed later |
| `TwinRuns.FailedClaimIsInvisible` | contract/src/feature/claim/api.rs:129-136 | beside a run with a claim that fails stands the run of the same calls without it; at the end products, fees, tokens counted, pending calls and all other accounts are equal, and every jar of the account has the same deposits and lock and owes the same at every later time |
| `TwinRuns.TwinRun` | contract/src/feature/claim/api.rs:62-121 | over every run of calls by others and of callbacks, the contract with the claim pending and the one without it stay side by side: same answers, same state but for the claimed jars |
| `TwinRuns.TwinAct` | contract/src/feature/ft_receiver.rs:45-107 | every call and callback is accepted in the one exactly if it is in the other |
| `TwinRuns.ClaimMakesTwins` | contract/src/feature/claim/api.rs:75-108 | a claim differs from no claim by the claimed jars, whose snapshots owe what the jars owed, and by one pending call |
| `Shadowing.TwinFinish` | contract/src/feature/withdraw/api.rs:165-275 | callbacks of calls that own none of the claimed jars do the same in both |
| `Shadowing.TwinUpdateAll` | contract/src/feature/account/api.rs:90-145 | a batch of oracle updates passes or aborts in both and keeps the claimed jars side by side |
| `Shadowing.RefreshShadows` | model/src/data/jar/common.rs:73-79 | refreshing the claimed jar and the unclaimed one keeps what the snapshot would owe equal to what is owed |
| `ClaimOutcomes.FailedClaimRestoresTheJar` | contract/src/feature/claim/api.rs:129-136 | after a claim and any run of calls and callbacks by anyone, its owner included, the failing callback leaves the claimed jar as it was plus the deposits made meanwhile; at all later times its interest and remainder are those of the jar that was not claimed and saw the same deposits |
| `ClaimOutcomes.ActMoves` | contract/src/feature/restake/api/api.rs:187-198 | every accepted call and callback acts on a claimed jar as deposits, with or without a refresh, and refreshes |
| `ClaimOutcomes.RunMoves` | contract/src/feature/account/common.rs:23-48 | so does every run, and the claim stays pending until its own callback |
| `ClaimOutcomes.EventsKeepPromise` | model/src/data/jar/common.rs:73-79 | what a jar will owe depends on the deposits and not on the refreshes in between |
| `ClaimOutcomes.ClaimTakesTheJar` | contract/src/feature/claim/api.rs:75-108 | the snapshot a claim sends along is the jar as it was, and its deposits stay |
| `ClaimOutcomes.OtherJarsSeeNothing` | contract/src/feature/claim/api.rs:129-136 | jars that were not claimed notice neither the claim nor its failure |
| `ForgottenScores.FailedClaimRestoresWindow` | contract/src/feature/claim/api.rs:129-136 | whatever happened since, a failing claim puts back the timezone and the window as the claim had moved it |
| `ForgottenScores.FailedClaimForgetsScoresUnless` | contract/src/feature/claim/api.rs:129-136 | against any run from the same state without the claim in which scores are recorded, the window is the same exactly if that run records nothing and the claim had nothing to move |
| `ForgottenScores.RunRecords` | contract/src/feature/account/api.rs:90-145 | over a run without settlements of other kinds an account's window is the one after the scores the run's accepted batches record for it |
| `Commuting.ClaimAndWithdrawCommute` | contract/src/feature/withdraw/api.rs:267-275 | on a mature fixed-term jar both orders are accepted, pay the same interest, principal and fee, close the jar, and drop less than one token of interest |
| `Commuting.ClaimThenWithdraw` | contract/src/feature/claim/api.rs:202-209 | claiming first leaves a jar whose withdrawal closes it |
| `Commuting.WithdrawThenClaim` | contract/src/feature/withdraw/api.rs:165-194 | withdrawing first keeps the interest for the claim, which then closes the jar |
| `ScoreRuns.ScoreJarsAreNeverOverCredited` | contract/src/feature/account/api.rs:201-304 | in UTC, over any run of recordings, boosters, feature switches, airdrops into other jars, withdrawals from other jars and completed claims, a deposit is credited for the score of a day with at most one day at the rate of all increments accepted for it, settled and live together |
| `ScoreRuns.StepCreditsAddUp` | contract/src/feature/claim/api.rs:62-121 | what is paid and owed is exactly what is credited |
| `ScoreRuns.AttemptIsStep` | contract/src/feature/account/api.rs:201-227 | each of these calls settles first, counts the running day at most up to now, and changes the window only by what it records |
| `ScoreDays.UpdateDayIsPaidIff` | contract/src/feature/account/api.rs:222-226 | over any such run after the last recording of a day, a running deposit is credited a whole day for it, once a call two days on is accepted, if and only if the first accepted call after the day is not one on the next day that settles without renewing the window; otherwise it is credited nothing for that day, ever |
| `ScoreDays.AScoreIsLost` | contract/src/feature/account/api.rs:222-226 | an account with a score for day 20: a claim or a feature switch on day 21 loses it whatever follows, the same call on day 22 pays it |
| `ScoreDays.OverIsFinal` | contract/src/feature/account/api.rs:201-227 | once nothing in the window can be dated to a day any more, no call credits that day again |
| `ScoreDays.SettledTerm` | contract/src/feature/account/api.rs:229-304 | a settlement credits a day only through the record dated to it, and then exactly what the day still owes |
| `OverCredit.SettledIsSound` | contract/src/feature/account/api.rs:201-227 | a settlement never credits a day beyond its room, although it may move the cache back |
| `OverCredit.SettlementMovesCache` | contract/src/feature/account/api.rs:209-219 | a settlement of finished days leaves the cache at the start of today |
| `OverCredit.ClaimIsSound` | model/src/interest.rs:127-154 | the running day is paid only for what has not been paid of it, and not at all before the day's first recording |
| `OverCredit.RecordIsSound` | model/src/data/score/mod.rs:196-202 | recordings, late ones included, keep all earlier credits within the totals |
| `OverCredit.DueTermIsTheRest` | contract/src/feature/account/api.rs:307-311 | what a finished day still owes a deposit and what of it had passed before, by the cache or by its creation, make one whole day |
| `OverCredit.ClaimPaysTheRunningDay` | model/src/interest.rs:127-154 | a claim on the day of the recording pays exactly the time between the cache and now |
| `Payments.SettlementPays` | contract/src/feature/account/api.rs:229-304 | for any timezone a settlement adds to a score jar exactly the ended days, at min(value, cap) points, for a tiered product with the cap of the account and the booster on top up to 100 %, each deposit for the milliseconds it was there and not yet cached |
| `Payments.ClaimPaysScores` | contract/src/feature/claim/api.rs:62-121 | a claim pays a score jar what it was owed, the ended days, and on the day of the last update the running day by yesterday's record, in whole tokens, and carries the rest |
| `Payments.ClaimPaysPlain` | model/src/interest.rs:17-43 | a claim pays any other jar what it was owed and, for every deposit, the milliseconds since the cache up to its term, at the first rate of a tier exactly with the increased rate |
| `Payments.RefreshKeepsScores` | contract/src/feature/account/common.rs:70-80 | a refresh of all caches puts exactly these amounts into the cache of a score jar |
| `Payments.RefreshKeepsPlain` | model/src/data/account/common.rs:109-113 | and of any other jar |
| `Payments.ABoostedDayIsPaid` | contract/src/feature/account/api.rs:276-278 | an account with a capped score of 10 % and a booster of 5 % claims one day at 15 % |
| `Credits.DueCreditsAddUp` | contract/src/feature/account/api.rs:263-304 | the settled amount is the sum of its entries by deposit and day |
| `Settlement.SettlementIsBounded` | contract/src/feature/account/api.rs:229-304 | for any timezone and window one settlement credits at most two days at 100 % and changes nothing else in the jar |
| `Settlement.DueApyAtMostOne` | model/src/data/score/mod.rs:75-85 | no record is worth more than 100 % a year, booster included |
| `Interest.BoosterComesOnTop` | model/src/data/score/mod.rs:75-85 | the booster is added after the cap, and the two together stop at 100 % |
| `Scores.WindowShowsTheBook` | model/src/data/score/mod.rs:186-202 | over any run of recordings and accepted boosters the window is the book of all days seen from the update day, and the last finalized record is the book at yesterday |
| `Scores.NewAccountShowsTheBook` | model/src/data/score/mod.rs:121-123 | the same from the creation of an account, with nothing assumed of the start |
| `Scores.RejectedBoosterKeepsTheBookIff` | contract/src/feature/account/api.rs:222-226 | after a rejected booster the window still shows the book exactly when it had nothing to move |
| `Scores.MovedOnRefines` | contract/src/feature/account/api.rs:222-226 | moving the window to today keeps its meaning |
| `Scores.Process` | model/src/data/score/mod.rs:224-251 | rejects the batch exactly when an increment lies in the future, and keeps exactly those of today and yesterday |
| `Accounts.UpdatesAreScoreEvents` | contract/src/feature/account/api.rs:90-145 | what the oracle calls do to the window is what the runs above are made of; a rejected booster only moves it on |
| `Scores.AccountScore.constructor` | model/src/data/score/mod.rs:121-123 | a new window is empty |
| `Scores.AccountScore.Add` | model/src/data/score/mod.rs:145-149 | adds to one day with saturation |
| `Scores.AccountScore.Update` | model/src/data/score/mod.rs:196-202 | the loop adds all increments and moves the update time |
| `Scores.AccountScore.ApplyBooster` | model/src/data/score/mod.rs:151-164 | applies a booster only where there is none, and says so |
| `Scores.AccountScore.Wipe` | model/src/data/score/mod.rs:166-168 | clears all days |
| `Scores.AccountScore.Shift` | model/src/data/score/mod.rs:170-173 | moves today to yesterday in place |
| `Jars.LiquidBalanceIsComplete` | model/src/data/jar/common.rs:24-40 | on an ordered jar the cut leaves out no liquid deposit and takes in no other |
| `Jars.PartitionPoint` | model/src/data/jar/common.rs:31 | the binary search finds the first deposit that is not liquid |
| `Jars.GetLiquidBalance` | model/src/data/jar/common.rs:24-40 | sum and index of the cut, for products with and without early withdrawal |
| `Jars.StoredJar.Lock` | model/src/data/jar/common.rs:46-50 | locks and changes nothing else |
| `Jars.StoredJar.TryLock` | model/src/data/jar/common.rs:52-55 | fails exactly on a locked jar |
| `Jars.StoredJar.Unlock` | model/src/data/jar/common.rs:57-61 | unlocks and changes nothing else |
| `Jars.StoredJar.Push` | model/src/data/account/common.rs:66-70 | appends the deposit |
| `Jars.StoredJar.UpdateCache` | model/src/data/jar/common.rs:73-79 | sets cache and remainder and keeps deposits and lock |
| `Jars.StoredJar.Claim` | model/src/data/jar/common.rs:63-71 | empties the cache at now and keeps the carried remainder |
| `Jars.StoredJar.CleanUpDeposits` | model/src/data/jar/common.rs:81-87 | drops exactly the prefix, whichever branch is taken |
| `Jars.StoredJar.ToRollback` | model/src/data/jar/common.rs:109-116 | applied to the jar, whatever has happened to it since, the snapshot puts back cache and remainder, unlocks it, and keeps its deposits |
| `Jars.StoredJar.Apply` | model/src/data/jar/common.rs:89-107 | puts back the parts the snapshot carries and keeps the others |
| `StoredAccounts.StoredAccount.Deposit` | model/src/data/account/common.rs:66-70 | opens the jar if needed and appends the deposit |
| `StoredAccounts.StoredAccount.TrySetTimezone` | model/src/data/account/common.rs:72-82 | sets an unset timezone or fails without one |
| `StoredAccounts.StoredAccount.GetTotalPrincipal` | model/src/data/account/common.rs:48-52 | the fold over jars in any order is the sum of all principals |
| `StoredAccounts.StoredAccount.UpdateJarCache` | model/src/data/account/common.rs:109-113 | refreshes one jar or fails and changes nothing |
| `StoredAccounts.StoredAccount.UpdateJarCaches` | contract/src/feature/account/common.rs:77-79 | refreshing jar by jar in any order is refreshing all at once |
| `StoredAccounts.StoredAccount.GetSettledInterest` | contract/src/feature/account/api.rs:229-304 | the nested loops over days and jars accumulate what each jar is due |
| `StoredAccounts.StoredAccount.SettleInterest` | contract/src/feature/account/api.rs:201-227 | settles every due jar and moves the window |
| `StoredAccounts.StoredAccount.UpdateAccountCache` | contract/src/feature/account/common.rs:70-80 | settlement first, then all caches |
| `StoredAccounts.StoredAccount.RecordIncrements` | contract/src/feature/account/api.rs:93-111 | settles, then records into the moved window |
| `StoredAccounts.StoredAccount.BoostScore` | contract/src/feature/account/api.rs:117-137 | settles, then applies the booster, and reports whether it was taken |
| `StoredAccounts.StoredAccount.SetFeatureEnabled` | contract/src/feature/account/api.rs:176-185 | everything earned is cached before the feature changes |
| `ContractObject.Contract.WithdrawFrom` | contract/src/feature/withdraw/api.rs:100-118 | answers and leaves the state as specified, or aborts and leaves it untouched |
| `ContractObject.Contract.WithdrawFromAll` | contract/src/feature/withdraw/api.rs:120-161 | the same for the loop over jars |
| `ContractObject.Contract.TotalNetAmount` | contract/src/feature/withdraw/api.rs:76-81 | succeeds exactly if every fee fits, and then the sum and the fees are the whole amount |
| `ContractObject.Contract.AfterWithdrawn` | contract/src/feature/withdraw/api.rs:165-194 | the callback of one withdrawal as specified |
| `ContractObject.Contract.AfterBulkWithdraw` | contract/src/feature/withdraw/api.rs:196-247 | unlocking all and cleaning up one by one, in any order, is the specified callback |
| `ContractObject.Contract.CleanUp` | contract/src/feature/withdraw/api.rs:267-275 | drops the prefix and closes the jar exactly if nothing is left |
| `ContractObject.Contract.ClaimInterest` | contract/src/feature/claim/api.rs:62-121 | the loops that collect, snapshot and claim are the specified claim |
| `ContractObject.Contract.CollectInterest` | contract/src/feature/claim/api.rs:75-93 | amounts, remainders and snapshots of exactly the unlocked jars with interest |
| `ContractObject.Contract.AfterClaimed` | contract/src/feature/claim/api.rs:190-223 | the claim callback as specified, for either outcome |
| `ContractObject.Contract.ApplyRollback` | model/src/data/account/common.rs:84-94 | applies the snapshot of every jar it names |
| `ContractObject.Contract.AfterFeeWithdrawn` | contract/src/feature/fee/api.rs:58-66 | the collected fees come back if their transfer fails, and stay out if it succeeds |
| `Contracts.FeeWithdrawalSettles` | contract/src/feature/fee/api.rs:20-66 | a failing transfer undoes the call, a successful one takes the fees once, and fees collected in between stay either way |
| `ContractObject.Contract.BuildFromJar` | contract/src/feature/restake/api/api.rs:213-239 | the request of one jar: parts, amount, and its own fee on the remainder |
| `ContractObject.Contract.BuildFromAll` | contract/src/feature/restake/api/api.rs:249-289 | the accumulators over all jars are the total balance and the total fee |
| `ContractObject.Contract.RestakeFrom` | contract/src/feature/restake/api/api.rs:127-185 | a restake as specified, from one jar or all |
| `ContractObject.Contract.CleanUpAndPut` | contract/src/feature/restake/api/api.rs:187-198 | the loop takes out all parts, then one deposit enters and the nonce moves |
| `ContractObject.Contract.AfterTransferRemainder` | contract/src/feature/restake/api/api.rs:100-123 | the restake callback as specified |
| `ContractObject.Contract.OnStake` | contract/src/feature/account/common.rs:23-48 | a stake as specified; a rejected one changes nothing |
| `ContractObject.Contract.OnAirdrop` | contract/src/feature/ft_receiver.rs:88-106 | the split and the loop over receivers as specified; an abort takes back all shares |
| `ContractObject.Contract.UpdateBatch` | contract/src/feature/account/api.rs:90-145 | a batch of oracle updates, one account after the other, or none of them |
| `ContractObject.Contract.SwitchFeature` | contract/src/feature/account/api.rs:176-185 | an existing account is refreshed first, a new one only stores the setting |
| `ContractObject.Contract.ChooseTimezone` | contract/src/feature/account/api.rs:170-173 | sets the timezone of an old or new account once |
| `Loading.LoadingKeepsMeaning` | model/src/data/account/versioned.rs:28-48 | an unmerged account loads with strictly ascending deposits, the same totals at every moment, principal, and liquid balance at every time |
| `Loading.LegacyAccountLoads` | model/src/data/account/v2.rs:36-50 | for all three old versions nonce, timezone, update time and jars are the stored ones, the finalized score is that of the stored history without boosters, and the score cap is the usual one |
| `Loading.LegacyJarEarns` | model/src/data/account/v2.rs:41 | a jar of a loaded account earns at the increased rate of its product exactly if no penalty was applied |
| `Loading.CurrentAccountLoads` | model/src/data/account/versioned.rs:28-48 | an account of today's version is taken as it is, and an unknown version is rejected |
| `Loading.MergingRaisesInterestLittle` | model/src/data/jar/v1.rs:49-59 | merging raises yearly interest by at most the number of deposits merged away, and never lowers it unless the rate saturates on the principal |
| `Loading.JoiningKeepsInterestIff` | primitives/src/lib.rs:56-58 | joining two deposits keeps their yearly interest if and only if the product does not saturate or the two together stay below the cap |
| `Loading.SaturatedMergingLowersInterest` | model/src/data/jar/v1.rs:49-59 | an instance beyond the cap, where merging does lower it |
| `Loading.LoadingTwiceIsOnce` | model/src/data/account/versioned.rs:28-48 | loading, storing and loading again changes nothing more |
| `Loading.SortedIsUnique` | model/src/data/jar/v1.rs:54-58 | a merged and sorted list is determined by its moments and totals, so the hash map's order cannot show |
| `Loading.MergingTwiceIsOnce` | model/src/data/account/v1.rs:44-52 | merging a merged list is the identity |
| `Loading.CollectTotals` | model/src/data/jar/v1.rs:50-53 | the loop collects exactly the total of every moment |
| `Loading.SortDeposits` | model/src/data/jar/v1.rs:45-47 | sorts in place and keeps all deposits |
| `Loading.MergeDeposits` | model/src/data/jar/v1.rs:49-59 | one deposit for each moment, in the map's order |
| `Loading.MergeAndSort` | model/src/data/account/v1.rs:46-49 | in place, whatever order the map had, the reference list |
| `Loading.MergeAccount` | model/src/data/account/v1.rs:44-52 | merges every jar of the account and changes nothing else |
| `Texts.FieldsOfDepositMessage` | model/src/data/deposit/model.rs:54-66 | a deposit message is purpose, contract, receiver, product, amount, nonce and expiry in this order, with commas between |
| `Texts.FieldsOfAirdropMessage` | model/src/data/deposit/model.rs:93-106 | an airdrop message is contract, product, share, expiry and all receivers in this order |
| `Texts.DecimalStandsForItself` | model/src/data/deposit/model.rs:64-66 | the digits in a text stand for the number, without leading zeros |
| `Texts.AliceComesFirst` | model/src/data/deposit/model.rs:100-102 | receivers are named in alphabetical order |
| `Messages.DepositMessageIsInjective` | model/src/data/deposit/model.rs:54-66 | a deposit message determines all seven fields, for account names without commas and any product id |
| `Messages.AirdropMessageIsInjective` | model/src/data/deposit/model.rs:93-106 | two airdrop messages agree if and only if their fields agree and their receivers up to order |
| `Messages.PurposesDoNotMix` | model/src/data/deposit/model.rs:54-106 | a text signed for a stake or restake is never that of an airdrop |
| `Messages.StakeMessageIsUsedOnce` | contract/src/feature/account/common.rs:35-38 | after an accepted stake no later stake on the run is accepted with the same text |
| `Messages.NonceNeverFallsOnRuns` | contract/src/feature/account/verification/model.rs:24-43 | no run lowers a nonce |
| `Messages.AcceptedCallsAreAuthorized` | contract/src/feature/account/verification/model.rs:24-93 | an accepted stake, airdrop or restake goes into an enabled product and within its caps, and into a protected one only with a timely ticket and a signature of its exact text |

## Left out

- Signatures and hashes: the check over key, message and signature is an arbitrary predicate of the model.
- The token contract: a transfer is an arbitrary success or failure that is reported once to one callback.
- Gas, promises as objects, events and logs, JSON and byte layouts, views, access control and contract upgrades.
- The operator's emergency unlock of jars, which breaks lock ownership on purpose.
- Raw bytes of migrated accounts: a migrated account is taken to be ordered, unlocked, of registered products, and not from the future.
- Aborting subtractions: the model's stop at zero where the code subtracts unsigned times; in reachable states the two are the same, and others are not modelled.
- Overflow checks on timestamps near 2^64 and on interest near 2^128; principals, fees and payouts are shown to fit, and saturating products are modelled.
- Histories.CacheIsTheIntegral: the product's largest deposit, and any deposit that was migrated, times its term must not saturate 128 bits, since interest is capped there by design.
- Drifts.FailedClaimIsHarmlessIff: that it is two-way asks that one of the two rates is nowhere below the other on the jar's deposits; rates written with different powers of ten can cross where one of them saturates, and there gains and losses may cancel. The exact difference is stated without this.
- Payments.ClaimPaysScores: the account has a timezone, without which it cannot enter a score product.
- ScoreRuns.ScoreJarsAreNeverOverCredited: the runs leave the deposits of the jar alone; the clock is past the first day of the epoch, where the dates of a settlement stop at zero, and the product has no booster or tier.
- TwinRuns.FailedClaimIsInvisible: the account holds no score jar and gets none, nor a booster, since a failing claim does forget scores, as `FailedClaimForgetsScoresUnless` states; its owner calls nothing in between, since a call may find other jars unlocked without the claim, which `FailedClaimRestoresTheJar` covers; and its rate stays, whose change `FailedClaimIsHarmlessIff` covers.
- ClaimOutcomes.FailedClaimRestoresTheJar: the claimed jar is not one of a score product, and the account's rate stays in between.
- ForgottenScores.FailedClaimForgetsScoresUnless: in the run without the claim every booster is taken and nothing else settles the account; the claim is later than the last update of the window.
- ScoreDays.UpdateDayIsPaidIff: in UTC, for plain score products and deposits that run on; increments that arrive late for a day already paid in part are only bounded from above.
- Exact interest of flexible products while a withdrawal is in flight: the deposits leave at callback time while the cache may be from the request.
- Fees of a single restake with a fixed fee above a small remainder: the call is simply rejected.
- Single use of restake tickets while a remainder is pending: the nonce moves only in the callback.
- The order of rejections within one call where several apply, since all of them leave the state as it was.
- Nested objects: accounts and jars inside the contract are values that are loaded, changed and stored back, so aliasing, which ownership rules out, is not modelled.
- The 32-bit width of nonces, and a percentage fee whose product with the amount would overflow 128 bits.
- Conversion of configurable values from their transport form, feature bits, and the floating-point form of decimals, read as significand below a power of ten.
