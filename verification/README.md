# Verified models of the Wardriver sync group, the paper portfolio loop and the passcode limiter

This project models five parts of the repository and proves what they promise.

- **Sync group** (`sync_*.dfy`). Any number of function instances change one control blob and publish a
  signed roster to a second blob, each write conditional on the ETag that was read. `SyncState` gives the
  control state and what one accepted request does to it, `SyncHistory` the theorems about the sequence of
  committed states, `SyncProtocol` the interleavings one storage operation or clock reading at a time,
  `SyncSafety` the invariant and `SyncTheorems` the results over every run; `SyncClockFirst` is the variant
  with two reads swapped. `SyncControl` holds the same
  code in its imperative form: a state object changed in place, and `transact`, `publishRoster` and
  `execute` as retry loops between whose operations other instances may run. `SyncOutcomes` says what each request is
  answered in terms of the stored state alone, `SyncProgress` that an undisturbed call runs to that answer.
- **Passcode limiter** (`limiter*.dfy`). A table entity counted up by compare-and-swap, dropped when it has
  run out, and deleted by a successful login.
- **Tick journal** (`journal*.dfy`). Replay record, ledger, nine append-only logs, latest state; a crash
  between any two durable steps or two records; retries under the same key.
- **Paper engine** (`money.dfy`, `market.dfy`, `selection.dfy`, `engine.dfy`, `costs.dfy`,
  `accounting.dfy`, `book_orders.dfy`, `targets.dfy`, `book_tick.dfy`, `tick_trades.dfy`, `seeding.dfy`,
  `ledger.dfy`, `book_raises.dfy`, `trade_values.dfy`, `tick_outcomes.dfy`, `target_choice.dfy`, `identities.dfy`,
  `record_freshness.dfy`, `paper_book.dfy`). One book through mark, settle, crash, freeze, seed and rebalance.
  `Engine` is the specification, `PaperBooks.PaperBook` the object updated in place and proved against it,
  and `Ledger` the book over any sequence of ticks. `TradeValues`, `TickOutcomes` and `TargetChoice` say
  what its trades, orders, targets and figures come to in terms of quantities, marks, rates and cash alone.
- **Shadow strategies** (`strategy.dfy`, `strategy_loop.dfy`, `strategy_forgotten.dfy`,
  `strategy_fresh.dfy`, `strategy_records.dfy`, `strategy_values.dfy`). Delayed labels, policies fitted to resolved
  experience and the candidates they pick, over any sequence of ticks, and the two record files this leaves
  through crashes and retries.

## What the model assumes

- Hashes and digests are injective and signatures ideal; a digest is represented by what was digested. A
  verified request presents a challenge the service issued, and an invitation token belongs to one call.
- A blob or table entity is the history of its writes, and a version is a position in that history, so
  every write makes a fresh ETag. A conditional write may be answered, applied and reported as an error,
  applied and then reported as a conflict, or not applied.
- The sync group has one clock that never runs back. Each caller of the limiter has a clock of its own.
- Money is in whole cents and rounds half to even, as Python's `round` does. Quantities, prices, entry
  prices and returns are exact: binary floating point and the rounding of quantities and prices to ten digits
  are left out. Policy weights and features are rounded to eight digits, as in the source. The drawdown is counted in ten-thousandths of a percent. Instruments are named by numbers in the
  order of their references.
- Age and provenance tests of a quote are one flag of the snapshot in the engine; the strategy model has
  the age limits themselves.
- Ticks exclude each other, one record is appended as a whole, and whole-file writes are atomic.
- Other instances appear as a method that may change the shared fields in any way that keeps them valid;
  its body is empty, and callers rely only on its contract. The parameter `quiet` of these methods stands for a
  call that nothing disturbs and whose operations are all answered; for it the contracts give the whole outcome.

## What the proofs found

- **Clock and state.** A replayed challenge is accepted only by a computation whose clock reading is older
  than the state it read. `transact` reads the clock second, so it never happens; with the order swapped it
  does, and `ClockFirstWouldReplay` gives the run.
- **Roster and control.** The comment in `publishRoster` says that reading the state first could overwrite a
  newer revision. It could not: the revision comparison would refuse the older state with a 503. What the
  order buys is that this refusal never happens (`ControlFirstWouldRefuse`, `FailClosedUnreachable`).
- **Overdraft by rounding.** The affordability check uses the unrounded cost, the outlay adds separately
  rounded components. A checked buy can overdraw a book by one cent, or two for predictions, and no more. The
  check covers an order at every amount of cash if and only if its outlay exceeds the required cash by less than
  0.9 cents (`CheckCoversBuyIff`); crypto and equity buys without a fee always meet that. It fails with the
  default prediction costs: a buy cut down to what 6.03 affords costs 6.04. The paper state check then refuses
  the tick before anything is written, for all 24 books.
- **Buys to nothing.** A buy divides by a zero quantity if and only if it cancels a holding exactly - only a
  negative amount or an empty position can - or opens a crypto or equity position with nothing. A rebalancing buy
  from cash that is not negative does so exactly when the cash affords nothing and nothing, or an empty position,
  is held; `PennilessTickRaises` gives a stored book and a snapshot whose tick raises. From negative cash the
  cut-down amount is negative, and the cash check lets it pass; the paper state check refuses the tick.
- **Balance.** Cash plus cost basis less realised result moves by at most one cent in an ordinary sell and
  not at all in buys and settlements, provided prices stay at or below a million. The million is exact: at every
  price above it some partial sell leaves a holding within the dust limit, whose basis is dropped with it.
- **Interrupted ticks.** A same-key retry completes a crashed tick whole, if and only if none of its records
  conflicts with an older one. Whatever ran before, an applied key can still complete if and only if no other
  ledger has been written since and its records fit the logs as they are (`ResumesIff`). Once another key has been applied on top, the interrupted key is refused for good,
  and records it had not yet appended stay missing (`CrashThenOtherKeyLosesRecords`).
- **Forgotten labels.** A candidate is labelled at most once over any run. A tick is refused all its labels if
  and only if some candidate is still loaded, due and freshly quoted while its own, differing label has left the
  10,000 loaded experiences (`RefusedIffForgotten`); `FullLogsForget` gives such logs. The refusal comes after the
  ledger has been written, so no retry of that tick ever completes (`ForgottenLabelsStopTheTick`).
- **Limiter.** The 2 * maxAttempts - 1 bound is reached for every configuration and window, by runs from window 1
  on, and it needs mutations in the order of the callers' clocks.

## Model

| member | source | states |
|---|---|---|
| SyncAuth.DisplayNameIdempotent | api/_lib/wardriver-sync-auth.js:51-55 | a stored display name is accepted again unchanged |
| SyncAuth.DisplayNameIs | api/_lib/wardriver-sync-auth.js:51-55 | a name is accepted, as the text between the spaces around it, if and only if it has at most 64 code units, no control character or direction mark, and anything but spaces |
| SyncState.ActionTakesEffect | api/_lib/wardriver-sync-store.js:118-173 | what each accepted action leaves behind, and that other members keep their records |
| SyncState.TransitionIsGood | api/_lib/wardriver-sync-store.js:175-182 | members are kept, the device limit holds, and the revision rises by one exactly when the roster content changes |
| SyncState.ComputedStateIsValid | api/_lib/wardriver-sync-store.js:200-215 | validateState is inductive: the check after applyAction never fires on a valid state and a verified request |
| SyncState.EnrolmentRecovers | api/_lib/wardriver-sync-store.js:118-128 | an active device repeating its own enrolment with a fresh challenge succeeds, with or without the invitation, and the roster stays |
| SyncOutcomes.AdmissionErrors | api/_lib/wardriver-sync-store.js:203-209 | an expired challenge, a used one, and one too many of the group or the device are refused before the action, each with its error, and nothing else is |
| SyncOutcomes.AcceptedIsReceived | api/_lib/wardriver-sync-store.js:206-214 | an accepted request leaves its receipt beside exactly those that still run |
| SyncOutcomes.NewDeviceAdmittedIff | api/_lib/wardriver-sync-store.js:129-137 | a new device is admitted if and only if its invitation is stored, unconsumed and still runs and there is room for it; each failing condition has its error |
| SyncOutcomes.AdmittedDeviceIsMember | api/_lib/wardriver-sync-store.js:129-137 | it is then an active member under its key and name, the invitation is consumed by it, and nobody else changes |
| SyncOutcomes.KnownDeviceAdmittedIff | api/_lib/wardriver-sync-store.js:118-128 | a device that is a member is let in again if and only if it is active and this was its invitation |
| SyncOutcomes.OnlyMembersAct | api/_lib/wardriver-sync-store.js:112-116 | other actions are refused to anyone but an active member, and inviting and revoking to anyone but the owner |
| SyncOutcomes.OwnerInvitesIff | api/_lib/wardriver-sync-store.js:139-143 | the owner may invite if and only if fewer than 32 invitations still run |
| SyncOutcomes.InvitationIsStored | api/_lib/wardriver-sync-store.js:139-143 | the invitation is stored under its token's hash for as long as was asked, and nothing else changes |
| SyncOutcomes.MemberRenamesIff | api/_lib/wardriver-sync-store.js:144-150 | an active member takes the name it asks for, and the same name again moves nothing |
| SyncOutcomes.OwnerRevokesIff | api/_lib/wardriver-sync-store.js:151-162 | the owner revokes any other active member at the given cutoff; the owner, strangers and another cutoff for a revoked member are refused, each with its error |
| SyncOutcomes.MemberIsGranted | api/_lib/wardriver-sync-store.js:164-173 | a grants call of an active member is accepted and moves nothing |
| SyncOutcomes.PayloadShows | api/_lib/wardriver-sync-auth.js:269-276 | a roster entry has its member's key, name, status and cutoff, each in its own field |
| SyncHistory.EveryStateValid | api/_lib/wardriver-sync-store.js:71-80 | every committed state passes validateState |
| SyncHistory.ReceiptKeptUntilExpiry | api/_lib/wardriver-sync-store.js:206-214 | a receipt stays in the state until a committer has seen its challenge run out |
| SyncHistory.ChallengeCommitsOnce | api/_lib/wardriver-sync-store.js:200-217 | a challenge authorises at most one committed write although receipts are pruned |
| SyncHistory.MembersAreKept | api/_lib/wardriver-sync-store.js:118-162 | members are never removed or re-keyed; revocation and its cutoff are permanent |
| SyncHistory.OwnerActiveWithinLimit | api/_lib/wardriver-sync-store.js:54-57 | the owner is active under its configured key and active members stay within maxDevices |
| SyncHistory.RevisionNamesContent | api/_lib/wardriver-sync-auth.js:269-276 | revisions never fall, and two committed states have the same revision if and only if they have the same roster payload |
| SyncHistory.RevocationIsPermanent | api/_lib/wardriver-sync-store.js:151-162 | from its commit on, a revoked target is revoked with exactly that cutoff |
| SyncHistory.InvitationAdmitsOneDevice | api/_lib/wardriver-sync-store.js:129-137 | no two members share an invitation hash, even after the consumed invitation is cleaned up |
| SyncSafety.NeverAhead | api/_lib/wardriver-sync-store.js:231-244 | a roster read before the control state is never newer than it and never differs from it at the same revision |
| SyncSafety.RunSafe | api/_lib/wardriver-sync-store.js:200-295 | every interleaving of calls, write outcomes and interruptions keeps the invariant |
| SyncTheorems.AtMostOnce | api/_lib/wardriver-sync-store.js:200-224 | in every run a (device, nonce) pair commits at most once, also when writes commit while their caller sees an error |
| SyncTheorems.FailClosedUnreachable | api/_lib/wardriver-sync-store.js:233-244 | a call fails only by a denial, by running out of attempts or by an I/O error: the branches for bad stored data are never taken |
| SyncTheorems.RostersRefineControl | api/_lib/wardriver-sync-store.js:226-256 | published revisions strictly rise, and every roster is the payload of a committed control state, never ahead of the current one |
| SyncTheorems.ReturnMeansPublished | api/_lib/wardriver-sync-store.js:278-283 | after a call returned, every roster published since covers the write that call made |
| SyncTheorems.RevocationTakesHold | api/_lib/wardriver-sync-store.js:151-162 | after a revoke returned, every roster published since lists the target as revoked with that cutoff |
| SyncTheorems.RevokedDeviceGetsNothing | api/_lib/wardriver-sync-store.js:278-295 | a call whose last control read follows the revoke commit does not finish, so it grants nothing |
| SyncTheorems.GrantsGoToActiveMembers | api/_lib/wardriver-sync-store.js:112-116 | storage is granted only for enroll and grants calls of devices that were active members at the last read |
| SyncTheorems.MembershipInvariant | api/_lib/wardriver-sync-store.js:28-80 | at every moment of every run the state validates, the owner is active, the limit holds and earlier members are kept |
| SyncTheorems.InvitationsAreFresh | api/_lib/wardriver-sync-store.js:139-143 | no invitation is issued twice |
| SyncTheorems.OneDevicePerInvitation | api/_lib/wardriver-sync-store.js:118-137 | in every run an invitation admits one device over all states ever committed |
| SyncTheorems.ReplayNeedsOlderClock | api/_lib/wardriver-sync-store.js:203-205 | a committed challenge is accepted again only with a clock reading older than the state read |
| SyncClockFirst.ClockFirstWouldReplay | api/_lib/wardriver-sync-store.js:203-205 | a run of transact with its two reads swapped, in which one challenge commits twice |
| SyncTheorems.ControlFirstWouldRefuse | api/_lib/wardriver-sync-store.js:229-244 | publication refuses if and only if the control state compared has a lower revision than the published roster |
| SyncProgress.UndisturbedDenial | api/_lib/wardriver-sync-store.js:200-217 | in every run, a call that nothing disturbs is denied exactly what the transition denies, and nothing else changes |
| SyncProgress.UndisturbedCallCompletes | api/_lib/wardriver-sync-store.js:278-295 | otherwise it commits that transition, leaves a roster that shows it as the last one, and returns, granting storage to enroll and grants calls |
| SyncProgress.LostControlWriteReadsAgain | api/_lib/wardriver-sync-store.js:200-224 | a control write of an older version changes nothing and the call reads again, five times in all |
| SyncProgress.LostRosterWriteReadsAgain | api/_lib/wardriver-sync-store.js:226-256 | and so a roster write |
| SyncProgress.ChallengeRunsOut | api/_lib/wardriver-sync-auth.js:186-195 | a challenge can be used for 120 seconds after it was issued, and no longer |
| SyncProgress.RostersShowMembers | api/_lib/wardriver-sync-store.js:226-256 | every published roster shows the members of a committed control state, field by field |
| SyncControl.ControlState.DropExpiredInvitations | api/_lib/wardriver-sync-store.js:210-212 | the deleting loop leaves exactly the invitations that have not run out |
| SyncControl.ControlState.EnrollMember | api/_lib/wardriver-sync-store.js:118-137 | the in-place enrolment admits or refuses exactly as the function for which InvitationAdmitsOneDevice and EnrolmentRecovers are proved |
| SyncControl.ControlState.RevokeMember | api/_lib/wardriver-sync-store.js:151-162 | the in-place revocation changes or refuses exactly as the function for which RevocationIsPermanent is proved |
| SyncControl.ControlState.ApplyMemberAction | api/_lib/wardriver-sync-store.js:164-173 | the in-place member actions are those for which MembersAreKept is proved |
| SyncControl.ControlState.ApplyAction | api/_lib/wardriver-sync-store.js:175-182 | the in-place action moves the revision as RevisionNamesContent needs |
| SyncControl.ControlState.Replace | api/_lib/wardriver-sync-store.js:204-215 | the value one attempt of transact will write is the transition the history theorems are about |
| SyncControl.SyncStore.Transact | api/_lib/wardriver-sync-store.js:200-224 | on success exactly the returned state was committed for this request; a denial is what a state read during the call answers; undisturbed, the outcome is that of the one transition |
| SyncState.AcceptedIsMember | api/_lib/wardriver-sync-store.js:112-182 | every accepted request leaves its sender an active member under its key |
| SyncControl.SyncStore.PublishRoster | api/_lib/wardriver-sync-store.js:226-256 | never refuses what it read; on success the roster blob holds the payload of the returned control version; undisturbed, it succeeds |
| SyncControl.SyncStore.Execute | api/_lib/wardriver-sync-store.js:278-295 | a reply means committed, published and still a member at the last control read; undisturbed, there is a reply if and only if the transition is accepted |
| Limiter.CountsReservations | api/_lib/passcode-rate-limit.js:62-101 | a stored count is the length of an unbroken run of reservations with one expiry, a window after the first |
| Limiter.ResetErasesOnlyItsOwn | api/_lib/passcode-rate-limit.js:103-112 | a reset removes exactly the version its own reservation wrote |
| Limiter.NextBirthIsAfterExpiry | api/_lib/passcode-rate-limit.js:114-138 | without resets a later entity is created only when the earlier one has run out |
| Limiter.SlidingBound | api/_lib/passcode-rate-limit.js:62-101 | any window holds at most 2 * maxAttempts - 1 reservations, without resets and in clock order |
| Limiter.SlidingBoundIsTight | api/_lib/passcode-rate-limit.js:62-101 | for every configuration and every window a log reaches the bound |
| Limiter.SlidingBoundNeedsOrder | api/_lib/passcode-rate-limit.js:114-138 | with callers' clocks out of order the bound can be exceeded |
| LimiterProtocol.StoredCountIsExact | api/_lib/passcode-rate-limit.js:62-101 | in every interleaving the stored count equals the reservations since the entity was created |
| LimiterProtocol.ChecksBoundedPerLifetime | api/validate-passcode/index.js:46-65 | at most maxAttempts passcodes are checked in one entity lifetime |
| LimiterProtocol.ChecksNeedReservations | api/validate-passcode/index.js:46-65 | no check and no session without a reservation of the caller's own |
| LimiterProtocol.AnswersFollowChecks | api/validate-passcode/index.js:46-65 | in every run 401 means a wrong passcode that was checked, 200 a right one, an unchecked caller gets 429 or 503, and 429 means a full entity with the seconds it still runs |
| LimiterProtocol.AnswersAreFinal | api/validate-passcode/index.js:46-75 | an answer is never changed by anything that happens later |
| LimiterProgress.RightPasscodeGetsSession | api/validate-passcode/index.js:57-65 | from every reachable state a checked caller with the right passcode that nothing disturbs gets its session, after a reset of its own reservation |
| LimiterProgress.LatestIsGone | api/_lib/passcode-rate-limit.js:103-112 | that reset removes the entity when the reservation was still the latest version and otherwise leaves it |
| LimiterProgress.WrongPasscodeGetsNone | api/validate-passcode/index.js:67-75 | with a wrong one it gets 401 and the count stays |
| LimiterProgress.ArrivalIsCounted | api/_lib/passcode-rate-limit.js:62-101 | an undisturbed arrival at an entity that is not full and alive is counted, in a new entity if the old one ran out, and comes to its check |
| LimiterProgress.ArrivalIsRefused | api/_lib/passcode-rate-limit.js:70-77 | and one at a full entity that is alive gets 429 with the seconds left, counted up |
| LimiterProgress.LostRaceReadsAgain | api/_lib/passcode-rate-limit.js:62-101 | a caller that lost a race counts nothing and reads again, sixteen times in all, and then gets 503 |
| LimiterProtocol.ResetsEraseOnlyTheirOwn | api/validate-passcode/index.js:58-59 | in every run a reset erases no later reservation |
| LimiterProtocol.RunsKeepSlidingBound | api/_lib/passcode-rate-limit.js:62-138 | the sliding bound in every run |
| LimiterRuns.RunsReachSlidingBound | api/_lib/passcode-rate-limit.js:62-138 | for every configuration and every window from 1 on a run, without resets and in clock order, reaches the bound |
| LimiterRuns.RunsExceedBoundOutOfOrder | api/_lib/passcode-rate-limit.js:62-138 | a run with the callers' clocks out of order exceeds it |
| LimiterTable.PasscodeRateLimiter.ReserveAttempt | api/_lib/passcode-rate-limit.js:62-101 | a grant is a new counted entry, a refusal saw a full entity that had not run out; undisturbed, it refuses exactly when the entity is full and alive, and otherwise grants, in a new entity if the old one ran out |
| LimiterTable.PasscodeRateLimiter.Reset | api/_lib/passcode-rate-limit.js:103-112 | deletes the entity only while the reservation is its latest version |
| JournalLog.RefusedExactlyOnConflict | scripts/mosaic-murmurs-paper-memory-loop.py:209-247 | an append is refused if and only if two records share an identity and differ |
| JournalLog.AppendResumes | scripts/mosaic-murmurs-paper-memory-loop.py:209-247 | after any part of an append was written, appending again gives the undisturbed result |
| JournalLog.AppendIsIdempotent | scripts/mosaic-murmurs-paper-memory-loop.py:209-247 | appending twice is appending once |
| JournalLog.AppendedOneMore | scripts/mosaic-murmurs-paper-memory-loop.py:231-241 | one record more is written when its identity is new, skipped when it is there already, and otherwise refuses the whole append |
| JournalLog.FreshRecordsAppended | scripts/mosaic-murmurs-paper-memory-loop.py:209-247 | fresh records are appended each once, in order, after the old contents |
| JournalLog.AppendJsonl | scripts/mosaic-murmurs-paper-memory-loop.py:209-247 | the two loops write, or refuse, exactly what AppendResumes and RefusedExactlyOnConflict are about |
| Journal.CrashSafeTick | scripts/mosaic-murmurs-paper-memory-loop.py:786-843 | after any crashes and same-key retries, completion leaves the key applied once and ledger, logs and latest state whole from one attempt, which started before the ledger was written |
| Journal.LatestFollowsLogs | scripts/mosaic-murmurs-paper-memory-loop.py:804-843 | at every moment the latest state is the earlier one, or that of the attempt whose ledger and nine logs are all written |
| Journal.CrashSafeTickFresh | scripts/mosaic-murmurs-paper-memory-loop.py:786-843 | with fresh records each log is its old contents followed by that attempt's records once each |
| Journal.NeverTwice | scripts/mosaic-murmurs-paper-memory-loop.py:786-843 | at no moment is the key applied twice, and logs only grow |
| Journal.NewKeyStartsIff | scripts/mosaic-murmurs-paper-memory-loop.py:786-801 | a new key starts if and only if no book has negative cash, neither stored nor computed |
| JournalRecovery.RetryCompletes | scripts/mosaic-murmurs-paper-memory-loop.py:698-733 | one undisturbed retry completes an applied tick unless a record of a nonempty batch conflicts with an older one |
| JournalRecovery.CompletesIffCompatible | scripts/mosaic-murmurs-paper-memory-loop.py:209-247 | an applied tick can still complete if and only if none of its records conflicts with an older one |
| JournalRecovery.CompletionNeedsCompatibility | scripts/mosaic-murmurs-paper-memory-loop.py:209-247 | a tick with a conflicting record never completes |
| JournalRecovery.RetryAcceptedIffUntouched | scripts/mosaic-murmurs-paper-memory-loop.py:699-710 | an applied key is taken up again if and only if the ledger is still the one its record digested |
| JournalRecovery.AnotherKeyOvertakes | scripts/mosaic-murmurs-paper-memory-loop.py:786-831 | writing the ledger of another key's tick overtakes an applied key |
| JournalRecovery.OvertakenForever | scripts/mosaic-murmurs-paper-memory-loop.py:699-710 | no retry of an overtaken key is ever accepted again |
| JournalRecovery.OvertakenTickLosesRecords | scripts/mosaic-murmurs-paper-memory-loop.py:699-710 | the records an interrupted tick had not appended when another key was applied stay missing through every later run |
| JournalRecovery.CrashThenOtherKeyLosesRecords | scripts/mosaic-murmurs-paper-memory-loop.py:786-834 | from every solvent ledger a crash between ledger and logs, then another key, loses the records for good |
| JournalResume.ResumesIff | scripts/mosaic-murmurs-paper-memory-loop.py:698-733 | an applied key can be completed by its own retries if and only if no other key's ledger has been written since and no record of its batches conflicts with what the logs hold now |
| JournalResume.ResumesAfterAnyRunIff | scripts/mosaic-murmurs-paper-memory-loop.py:698-733 | the same after any run of any keys, crashes included |
| JournalRecovery.ReplayingIsStart | scripts/mosaic-murmurs-paper-memory-loop.py:698-733 | the replay the loop follows is the one the crash-safe machine starts a tick with |
| JournalRecovery.PaperLoop.AppendAll | scripts/mosaic-murmurs-paper-memory-loop.py:832-834 | the loop over the nine logs, stopping at the first conflict |
| JournalRecovery.PaperLoop.RunTick | scripts/mosaic-murmurs-paper-memory-loop.py:698-843 | undisturbed, a tick succeeds if and only if the ledger is solvent, there is a new or stored replay to follow and no append conflicts, and then it is applied and logged whole |
| Costs.ComponentsMakeUpImpact | scripts/mosaic_murmurs_paper_engine.py:789-825 | the four adverse components make up the price impact to two cents, and the total is exactly the sum of the five |
| Costs.ImpactIsAdversePrice | scripts/mosaic_murmurs_paper_engine.py:793-805 | the price impact is what the adverse price adds to or takes from the value at the mark |
| Costs.ComponentsAreTheirRates | scripts/mosaic_murmurs_paper_engine.py:806-822 | each component is its own rate on the value at the mark, to half a cent |
| Costs.CostsNonNegative | scripts/mosaic_murmurs_paper_sync.py:169-177 | every trade of a non-negative amount passes the fill-cost checks |
| Costs.BuyPaysItsCosts | scripts/mosaic_murmurs_paper_engine.py:838-848 | a buy pays its recorded gross amount and cash costs to the cent, exactly for predictions |
| Costs.SellYieldsItsProceeds | scripts/mosaic_murmurs_paper_engine.py:929-956 | a sell yields its gross amount less cash costs to the cent, a settlement exactly |
| Costs.OverdraftBound | scripts/mosaic_murmurs_paper_engine.py:1076-1080 | a checked buy of a positive amount leaves cash of at least -0.01, or -0.02 for predictions |
| Costs.MarginPreventsOverdraft | scripts/mosaic_murmurs_paper_engine.py:1076-1080 | a margin over the checked cash that rules an overdraft out |
| Costs.CheckCoversBuyIff | scripts/mosaic_murmurs_paper_engine.py:1076-1080 | the check covers a buy at every amount of cash if and only if its outlay exceeds the required cash by less than 0.9 cents |
| Costs.CheckedBuyOverdrawsIff | scripts/mosaic_murmurs_paper_engine.py:1076-1080 | a checked buy overdraws a book if and only if the outlay is that far over and the cash is below it |
| Costs.FeeFreeBuysNeverOverdraw | scripts/mosaic_murmurs_paper_engine.py:28-34 | crypto and equity buys without a fee, the equity default, never overdraw |
| Costs.OverdraftBoundsAreReached | scripts/mosaic_murmurs_paper_engine.py:842-848 | both bounds are reached |
| Costs.DefaultPredictionOverdraws | scripts/mosaic_murmurs_paper_engine.py:1259-1266 | with default prediction costs the cut-down buy overdraws by a cent |
| TradeValues.SalePays | scripts/mosaic_murmurs_paper_engine.py:929-956 | a settlement pays the quantity at its mark; a prediction is sold at the mark, anything else at the mark less the adverse components, less the cash costs the fill records |
| TradeValues.QuantitySold | scripts/mosaic_murmurs_paper_engine.py:919-928 | a sale sells all in a settlement or within a cent of the value, and otherwise what is worth the notional at the mark |
| TradeValues.SaleCosts | scripts/mosaic_murmurs_paper_engine.py:789-825 | a sale records each cost at its own rate on its value, to half a cent |
| TradeValues.SaleResult | scripts/mosaic_murmurs_paper_engine.py:943-957 | the realised result is what came in less what the quantity sold had cost |
| TradeValues.BuyPays | scripts/mosaic_murmurs_paper_engine.py:838-848 | a prediction is bought at the mark plus exactly its costs, anything else at the mark plus the adverse components, with the fee in cash |
| TradeValues.QuantityBought | scripts/mosaic_murmurs_paper_engine.py:838-848 | a buy obtains the quantity that is worth its notional at the mark |
| TradeValues.BuyCosts | scripts/mosaic_murmurs_paper_engine.py:789-825 | a buy records each cost at its own rate on the notional, to half a cent |
| Accounting.BuyAccounted | scripts/mosaic_murmurs_paper_engine.py:838-910 | a buy's fill accounts for every change, and the balance stays exactly |
| Accounting.PredictionEntryAverages | scripts/mosaic_murmurs_paper_engine.py:857-859 | a prediction's entry price averages the marks bought at |
| Accounting.PlainEntryAverages | scripts/mosaic_murmurs_paper_engine.py:860-861 | any other entry price averages the outlays, so quantity times entry is the cost basis |
| Accounting.SellAccounted | scripts/mosaic_murmurs_paper_engine.py:913-997 | a sell's fill accounts for every change; an ordinary one shifts the balance by at most a cent, a settlement not at all |
| Accounting.PartialSaleLeavesMore | scripts/mosaic_murmurs_paper_engine.py:922-926 | a partial sale sells exactly its notional at the mark and leaves more than dust, for prices up to a million |
| Accounting.DustTakesItsBasis | scripts/mosaic_murmurs_paper_engine.py:958-965 | a sale that leaves dust loses exactly the basis of the dust, to the cent |
| Accounting.PriceBoundIsExact | scripts/mosaic_murmurs_paper_engine.py:922-957 | a partial sale can leave dust if and only if the price is above a million |
| Accounting.DustLosesBasis | scripts/mosaic_murmurs_paper_engine.py:922-965 | at every price above it a sale that leaves the dust limit loses what that dust is worth, to the cent |
| Accounting.TallyIsFieldwise | scripts/mosaic_murmurs_paper_engine.py:828-835 | each cost counter is the sum of its own field over the ordinary fills |
| BookOrders.OrdersAreSound | scripts/mosaic_murmurs_paper_engine.py:1231-1257 | rebalancing orders name each snapshot instrument at most once, sells before buys |
| BookOrders.SeedsAreSound | scripts/mosaic_murmurs_paper_engine.py:673-709 | seeds are different, fresh, eligible instruments of the snapshot |
| TargetChoice.FirstSeedFound | scripts/mosaic_murmurs_paper_engine.py:673-709 | the seed of a symbol is the first instrument of that symbol the strategy may trade |
| TargetChoice.SeedsBySymbolIff | scripts/mosaic_murmurs_paper_engine.py:673-709 | there are seeds if and only if every symbol has one and all are fresh |
| TargetChoice.SeedMarketIsMostLiquid | scripts/mosaic_murmurs_paper_engine.py:673-709 | the prediction book is seeded with the fresh yes and no of the first market of the snapshot than which no other such market is more liquid, and with nothing when there is none |
| TargetBounds.TargetsFit | scripts/mosaic_murmurs_paper_engine.py:1197-1228 | a book's targets are between zero and the rounded cap, only for selected eligible instruments, and sum to at most the gross target, exactly when the cap never binds |
| TickOutcomes.TargetsByLine | scripts/mosaic_murmurs_paper_engine.py:1197-1228 | targets come to at most 80, 95 or 100 percent of the equity together and 40, 65 or 100 each, by the line |
| TickOutcomes.TargetsAreFew | scripts/mosaic_murmurs_paper_engine.py:1194 | they are of three, two or one instruments, or of as many as are eligible |
| TickOutcomes.TradedRefsAre | scripts/mosaic_murmurs_paper_engine.py:1231-1240 | a rebalance looks at what is held and at every fresh eligible instrument with a price |
| TickOutcomes.OrdersCloseGaps | scripts/mosaic_murmurs_paper_engine.py:1241-1257 | every order sells above its target or buys below it, for the distance, at most 2000 and at least the line's least order |
| TickOutcomes.GapsHaveOrders | scripts/mosaic_murmurs_paper_engine.py:1241-1257 | and every distance of that size to the target of a quoted instrument has an order |
| TickOutcomes.SellIsPlaced | scripts/mosaic_murmurs_paper_engine.py:1258-1287 | a sell is carried out if it passes its checks and avoided otherwise |
| TickOutcomes.BuyIsPlaced | scripts/mosaic_murmurs_paper_engine.py:1258-1287 | and so is a buy, cut down to what the cash affords |
| TickOutcomes.AffordableIsLargest | scripts/mosaic_murmurs_paper_engine.py:1259-1266 | which is the largest amount whose need, with the adverse price and the fee on top, the cash covers |
| TickOutcomes.AllowedIs | scripts/mosaic_murmurs_paper_engine.py:1041-1080 | the checks are a fresh quote, no postmortem, at most 2000.01, and for a buy a price and the cash it needs |
| TickOutcomes.OrdersInTurn | scripts/mosaic_murmurs_paper_engine.py:1258-1287 | each order is placed on the book the earlier ones left, and its fills and decision follow theirs |
| BookTick.TickIsAccounted | scripts/mosaic_murmurs_paper_engine.py:1366-1415 | the fills of a tick account for all it changes in cash, counters, result, quantities and balance |
| TickOutcomes.FreshQuotes | scripts/mosaic_murmurs_paper_engine.py:584-637 | a recent quote with valid costs is fresh if it is an open prediction strictly inside the dollar, a decided one at either end, or anything else with a price |
| TickOutcomes.MarksFollowQuotes | scripts/mosaic_murmurs_paper_engine.py:640-658 | a position takes the price of a fresh quote of its own instrument and is current, and otherwise keeps its price and is not |
| TickOutcomes.DecidedPositionsAreClosed | scripts/mosaic_murmurs_paper_engine.py:1000-1038 | settlement leaves exactly the positions whose market is not decided |
| TickOutcomes.SummaryFigures | scripts/mosaic_murmurs_paper_engine.py:517-575 | equity is cash and all holdings at their marks, the high-water mark the highest equity, the drawdown the deepest fall from it |
| TickOutcomes.SeededTickDoes | scripts/mosaic_murmurs_paper_engine.py:1366-1415 | a tick of a seeded book is a postmortem, a wait for stale marks, or the orders of its rebalance, with these events and decisions |
| TickOutcomes.NewTickDoes | scripts/mosaic_murmurs_paper_engine.py:1381-1396 | and of a new one, its initial allocation |
| BookTick.OrdinaryFillNeedsFreshMarks | scripts/mosaic_murmurs_paper_engine.py:1381-1396 | an ordinary fill means that every open position had a fresh quote of its own instrument in that tick |
| BookTick.CrashIsTerminal | scripts/mosaic_murmurs_paper_engine.py:1374-1380 | once a postmortem is due a tick only re-marks positions |
| BookTick.CrashesAtOneCent | scripts/mosaic_murmurs_paper_engine.py:1374-1380 | a book at or below a cent crashes in that tick before any trade |
| BookTick.ExtremesNeverFall | scripts/mosaic_murmurs_paper_engine.py:1369-1373 | high-water mark and deepest drawdown never fall in a tick |
| TickTrades.TickTradesOnce | scripts/mosaic_murmurs_paper_engine.py:1366-1404 | in one tick no instrument is filled twice, no decision is repeated and every fill carries out a decision |
| Seeding.BuyRaisesIff | scripts/mosaic_murmurs_paper_engine.py:847-864 | a buy of any amount divides by zero if and only if it cancels a holding or opens a crypto or equity position with nothing |
| Seeding.PlaceRaisesIff | scripts/mosaic_murmurs_paper_engine.py:1258-1285 | a rebalancing order raises if and only if it is a buy with invalid costs, or a buy that passes its checks and buys to zero; a sell never does |
| Seeding.PlaceRaisesWithoutCashIff | scripts/mosaic_murmurs_paper_engine.py:1258-1285 | from cash that is not negative that is when the cash affords nothing and nothing, or an empty position, is held |
| RaisingTicks.TickRaisesIff | scripts/mosaic_murmurs_paper_engine.py:1366-1404 | a tick of a stored book raises if and only if it rebalances and a reached order is a buy with invalid costs, or one that passes its checks and buys to a zero quantity |
| RaisingTicks.PennilessTickRaises | scripts/mosaic_murmurs_paper_engine.py:1258-1285 | a stored book and a snapshot at which the tick raises and the ledger refuses it |
| RaisingTicks.RaisingBooksAreStuck | scripts/mosaic_murmurs_paper_engine.py:1348-1415 | a stored book that at every snapshot it is fed rebalances into a raising order stays as it is over the whole run |
| Seeding.ClampedBuyPassesCashCheck | scripts/mosaic_murmurs_paper_engine.py:1259-1266 | a buy cut down to the affordable amount always passes the cash check, with a negative amount from negative cash |
| Seeding.InitialAllocationIsAllOrNothing | scripts/mosaic_murmurs_paper_engine.py:1088-1137 | the initial allocation buys every seed and completes, or buys nothing; it never raises or overdraws |
| Ledger.MigrationIsIdentity | scripts/mosaic_murmurs_paper_engine.py:352-510 | loading a stored book of the invariant gives it back unchanged |
| Ledger.UnusedTicks | scripts/mosaic_murmurs_paper_engine.py:1366-1415 | a tick of a book before its initial allocation never raises and ends seeded or unused |
| Ledger.TickIsKeptIff | scripts/mosaic_murmurs_paper_sync.py:138-176 | a tick of a stored book is kept, book and events, unless it is lost, raises or is refused by the checks before the first write |
| Ledger.PersistableIs | scripts/mosaic_murmurs_paper_sync.py:138-176 | what those checks ask of cash, positions and fills |
| Ledger.RunIsStored | scripts/mosaic_murmurs_paper_engine.py:1348-1415 | over any run every stored book keeps the invariant and its fills account for everything since the start |
| Ledger.EventsReplayToBook | scripts/mosaic_murmurs_paper_engine.py:887-910 | replaying the fills gives the cash gap-free and never negative, the realised result and the counters, whose total is the sum of the five |
| Ledger.BalanceIsConserved | scripts/mosaic_murmurs_paper_engine.py:838-997 | over any run cash + basis - realised moves by at most a cent for each ordinary sell, and bought less sold is what is held |
| Ledger.StoredBooksMigrateUnchanged | scripts/mosaic_murmurs_paper_engine.py:352-510 | migration is the identity on every ledger a run writes |
| Ledger.ExtremesNeverFallOverRuns | scripts/mosaic_murmurs_paper_engine.py:1406-1409 | high-water mark and deepest drawdown never fall over a run |
| Ledger.CrashedBooksStandStill | scripts/mosaic_murmurs_paper_engine.py:1374-1380 | over any run a crashed book emits no fill and keeps cash, quantities, result and counters |
| Ledger.NewBookFacts | scripts/mosaic_murmurs_paper_engine.py:207-270 | the default book starts with 2000 in cash and nothing else |
| Ledger.NewBookIsStored | scripts/mosaic_murmurs_paper_engine.py:207-270 | the default book is one every run theorem can start from |
| Identities.JoinIsInjective | scripts/mosaic_murmurs_paper_engine.py:202-204 | joining separator-free parts loses nothing |
| Identities.NamingExists | scripts/mosaic_murmurs_paper_engine.py:202-204 | the digests and reference names these theorems ask for exist, for every run key |
| Identities.BookIdsDiffer | scripts/mosaic_murmurs_paper_engine.py:153-167 | the 24 book ids are distinct |
| Identities.TickIdentitiesAreDistinct | scripts/mosaic_murmurs_paper_sync.py:338-339 | decision ids, event ids and idempotency keys of one tick over all books are pairwise distinct |
| RecordFreshness.TickDecisionsAreFresh | scripts/mosaic_murmurs_paper_engine.py:736-741 | the decisions of a tick are fresh records for a log of ticks with other keys |
| RecordFreshness.TickEventsAreFresh | scripts/mosaic_murmurs_paper_engine.py:888-891 | the events of a tick are fresh records for a log of ticks with other keys |
| RecordFreshness.TickRecordsAppended | scripts/mosaic-murmurs-paper-memory-loop.py:209-247 | so a consistent log of other ticks takes each of them exactly once and stays consistent |
| RecordFreshness.CrashSafeDecisionsAndEvents | scripts/mosaic-murmurs-paper-memory-loop.py:786-843 | after any crashes and same-key retries a completed tick leaves in the decision and event logs their old contents and then its own records, each once |
| Selection.BarbellAlternates | scripts/mosaic_murmurs_paper_engine.py:1180-1190 | the barbell order is a permutation alternating the largest and the smallest of what remains |
| Selection.PredictionOrderPermutes | scripts/mosaic_murmurs_paper_engine.py:1151-1177 | the prediction order is a permutation of the eligible instruments |
| Selection.PredictionOrderSpreads | scripts/mosaic_murmurs_paper_engine.py:1151-1177 | its first instruments are from different markets whenever that many markets exist |
| Selection.PredictionHeadDescends | scripts/mosaic_murmurs_paper_engine.py:1168-1172 | the picks come in descending order of score, liquidity and reference |
| TargetChoice.PredictionsDecide | scripts/mosaic_murmurs_paper_engine.py:1151-1177 | the prediction order begins with the strongest outcome of each market by score, liquidity, price and reference, the strongest market first |
| Selection.MomentumAndReversionOrders | scripts/mosaic_murmurs_paper_engine.py:1178-1193 | momentum holds the strongest first, reversion the weakest |
| TargetChoice.ScoresDecide | scripts/mosaic_murmurs_paper_engine.py:1178-1193 | momentum goes by descending score and reference, reversion by ascending, a barbell by turns |
| Selection.TargetsAreEligible | scripts/mosaic_murmurs_paper_engine.py:1194 | targets are distinct eligible instruments, as many as asked for when there are enough |
| Selection.BarbellOrder | scripts/mosaic_murmurs_paper_engine.py:1180-1190 | the two-pointer loop computes the order that BarbellAlternates describes |
| Selection.AllocationsFit | scripts/mosaic_murmurs_paper_engine.py:1218-1227 | allocations are non-negative, at most the rounded cap, and sum to at most the gross target, exactly when the cap never binds |
| TargetChoice.SharesInTurn | scripts/mosaic_murmurs_paper_engine.py:1222-1227 | each allocation is an even share of what the earlier ones left, cut down to the cap |
| Selection.Allocations | scripts/mosaic_murmurs_paper_engine.py:1222-1227 | the updating loop computes the allocations that AllocationsFit bounds |
| Selection.SplitIsFair | scripts/mosaic_murmurs_paper_engine.py:712-719 | seed shares sum to the total and differ by at most a cent |
| Selection.SplitNotional | scripts/mosaic_murmurs_paper_engine.py:712-719 | the raising loop computes the shares that SplitIsFair describes |
| PaperBooks.PaperBook.MarkBook | scripts/mosaic_murmurs_paper_engine.py:640-658 | after the loop every position carries its fresh quote of the same instrument, or is marked stale with its old price |
| PaperBooks.PaperBook.RecordExecutionCosts | scripts/mosaic_murmurs_paper_engine.py:828-835 | each counter grows by its own field and turnover by the gross amount, as TallyIsFieldwise sums them |
| PaperBooks.PaperBook.ExecuteBuy | scripts/mosaic_murmurs_paper_engine.py:838-910 | the in-place buy, or its division by zero, is the trade BuyAccounted and BuyRaisesIff are about |
| PaperBooks.PaperBook.ExecuteSell | scripts/mosaic_murmurs_paper_engine.py:913-997 | the in-place sell is the trade SellAccounted is about, and an empty sell changes nothing |
| PaperBooks.PaperBook.SettleTerminalPositions | scripts/mosaic_murmurs_paper_engine.py:1000-1038 | the loop over a copy of the positions closes each terminal one once, as the settlements of TickTradesOnce |
| PaperBooks.PaperBook.PlaceOrders | scripts/mosaic_murmurs_paper_engine.py:1258-1287 | the loop executes the orders that TickIsAccounted and TickTradesOnce are about, and stops when one raises |
| PaperBooks.PaperBook.CollectOrders | scripts/mosaic_murmurs_paper_engine.py:1231-1257 | the loops over targets and references collect the orders OrdersAreSound describes |
| PaperBooks.PaperBook.Seed | scripts/mosaic_murmurs_paper_engine.py:1088-1137 | the in-place allocation is the one InitialAllocationIsAllOrNothing is about |
| PaperBooks.PaperBook.Measure | scripts/mosaic_murmurs_paper_engine.py:517-575 | the summing loop gives the figures that ExtremesNeverFall is about |
| PaperBooks.PaperBook.ProcessTick | scripts/mosaic_murmurs_paper_engine.py:1366-1415 | the whole in-place tick, its events and decisions are those of the run theorems in Ledger |
| ShadowStrategy.LabelsAreInWindow | scripts/mosaic_murmurs_strategy_synthesis.py:256-287 | a label mark lies between the candidate's horizon and the moment of resolution |
| ShadowStrategy.MaturedOnce | scripts/mosaic_murmurs_strategy_synthesis.py:249-275 | one tick labels no candidate twice |
| ShadowStrategy.MaturedHas | scripts/mosaic_murmurs_strategy_synthesis.py:249-275 | every due candidate without a known label and with a usable quote gets its label |
| ShadowStrategy.MatureExperiences | scripts/mosaic_murmurs_strategy_synthesis.py:249-310 | the loop yields the labels that LabelsAreInWindow and MaturedOnce are about |
| ShadowStrategy.ResolvedMembers | scripts/mosaic_murmurs_strategy_synthesis.py:105-113 | exactly the strategy's experiences resolved by now are used |
| ShadowStrategy.ResolvedInOrder | scripts/mosaic_murmurs_strategy_synthesis.py:105-113 | in order of resolution |
| ShadowStrategy.PolicyIgnoresLaterExperience | scripts/mosaic_murmurs_strategy_synthesis.py:116-173 | records resolved after a moment cannot change the policy of that moment |
| ShadowStrategy.PolicyWeightsAreNormalized | scripts/mosaic_murmurs_strategy_synthesis.py:87-91 | weights have total magnitude one within 0.00000002, the rounding of four weights, and the leading weight keeps its sign, whatever the experience |
| ShadowStrategy.BestIsBest | scripts/mosaic_murmurs_strategy_synthesis.py:196-201 | no eligible quote beats the one picked |
| ShadowStrategy.CostsBlockTrades | scripts/mosaic_murmurs_strategy_synthesis.py:203-210 | a trade needs costs below its edge, no edge exceeds 200.000004 basis points, and from that cost on every candidate only watches |
| ShadowStrategy.CandidatesLookBack | scripts/mosaic_murmurs_strategy_synthesis.py:211-230 | feature windows end by the decision, so the guard never fires, and labels are due a whole horizon later |
| StrategyValues.CandidatePoints | scripts/mosaic_murmurs_strategy_synthesis.py:203-230 | a candidate copies its quote, points where the weighted sum of its features does, and asks for a trade if and only if 200 times that sum exceeds the round-trip cost |
| StrategyValues.BestPullsHardest | scripts/mosaic_murmurs_strategy_synthesis.py:196-201 | the quote picked has the largest weighted sum of all eligible ones, and the greatest reference on ties |
| StrategyValues.EligibleIs | scripts/mosaic_murmurs_strategy_synthesis.py:94-102 | a strategy trades a tagged quote of its kinds without an outcome, retrieved within two hours, with a price of at most 96 hours for equity and two otherwise |
| StrategyValues.EvidenceIsByTime | scripts/mosaic_murmurs_strategy_synthesis.py:105-113 | evidence is used in the order of its resolution, by id within a second |
| StrategyValues.CandidatesAreOfPolicies | scripts/mosaic_murmurs_strategy_synthesis.py:186-190 | the candidates of a pass are exactly those of its policies that have an eligible quote |
| StrategyValues.LabelSays | scripts/mosaic_murmurs_strategy_synthesis.py:256-310 | a candidate gets a label if and only if it is due and its last fresh quote is usable, with that mark and the return in its direction less its cost |
| StrategyValues.NoQuoteNoLabel | scripts/mosaic_murmurs_strategy_synthesis.py:260-270 | and none without a fresh quote |
| StrategyValues.EarnedFollowsMark | scripts/mosaic_murmurs_strategy_synthesis.py:286-291 | a trade upwards earns more the higher the mark, one downwards less |
| StrategyValues.RawWeightIs | scripts/mosaic_murmurs_strategy_synthesis.py:122-140 | the weight of a feature before scaling is the strategy's own, shifted by a five-hundredth of the mean credit, at most a fifth |
| StrategyValues.BetterEvidenceWeighsMore | scripts/mosaic_murmurs_strategy_synthesis.py:122-140 | better evidence for a feature never lowers its weight |
| StrategyValues.ProfitableEvidenceNeverLowers | scripts/mosaic_murmurs_strategy_synthesis.py:122-140 | evidence that speaks for a feature never puts its weight below the strategy's own |
| StrategyValues.PolicyFigures | scripts/mosaic_murmurs_strategy_synthesis.py:116-161 | a policy counts what it used, names the last 64, gives the mean of their net returns, and scales each weight to its share |
| StrategyLoop.RefusedIffRelabelled | scripts/mosaic-murmurs-paper-memory-loop.py:209-247 | an append of labels is refused if and only if a stored label of the same candidate differs |
| StrategyLoop.LogsStaySound | scripts/mosaic-murmurs-paper-memory-loop.py:613-629 | over any run each candidate has at most one label, inside its window |
| StrategyLoop.LogsAreKnown | scripts/mosaic-murmurs-paper-memory-loop.py:613-629 | with a clock that does not run back everything logged was known by the last tick |
| StrategyLoop.PoliciesSeeOnlyThePast | scripts/mosaic_murmurs_strategy_synthesis.py:116-140 | policies use exactly the strategy's evidence, all marked and resolved by that tick, and nothing later could change them |
| StrategyLoop.LoadedLogsAreNeverRelabelled | scripts/mosaic-murmurs-paper-memory-loop.py:250-267 | while the whole log is loaded no candidate is labelled again and labels are appended as they are |
| StrategyLoop.RefusalMeansForgotten | scripts/mosaic-murmurs-paper-memory-loop.py:250-267 | a refused label belongs to a candidate whose first label is no longer among the 10,000 loaded |
| ForgottenLabels.RefusedIffForgotten | scripts/mosaic-murmurs-paper-memory-loop.py:250-267 | a tick's labels are refused if and only if a loaded, due, freshly quoted candidate has a differing label that is no longer loaded |
| ForgottenLabels.ForgottenLabelsCostTheTick | scripts/mosaic-murmurs-paper-memory-loop.py:832-834 | then the tick stores none of its labels; otherwise, unless its candidates are refused, it stores each |
| ForgottenLabels.FullLogsForget | scripts/mosaic-murmurs-paper-memory-loop.py:613-629 | sound logs and a moment that meet the condition |
| FreshCandidates.CandidatesAreNeverRefused | scripts/mosaic_murmurs_strategy_synthesis.py:214-224 | at a moment the clock has not shown before the candidates are appended as they are |
| FreshCandidates.IdsCanTellPoliciesApart | scripts/mosaic_murmurs_strategy_synthesis.py:150-165 | ids that tell strategy and moment of a policy apart exist |
| FreshCandidates.TickStoresLabelsIff | scripts/mosaic-murmurs-paper-memory-loop.py:613-629 | over runs a tick at a new moment stores every label if and only if no loaded candidate's own label has been forgotten |
| StrategyRecords.CandidateFileIsLog | scripts/mosaic-murmurs-paper-memory-loop.py:201-247 | appending candidate records to the file is appending the candidates to the log, and is refused exactly when that is |
| StrategyRecords.LabelFileIsLog | scripts/mosaic-murmurs-paper-memory-loop.py:201-247 | the same for labels, which are filed under their candidate |
| StrategyRecords.CrashSafeStrategyLogs | scripts/mosaic-murmurs-paper-memory-loop.py:786-843 | after any crashes and same-key retries a completed tick leaves the candidate and experience files as one undisturbed pass of the loop leaves its logs |
| StrategyRecords.ForgottenLabelsStopTheTick | scripts/mosaic-murmurs-paper-memory-loop.py:832-834 | a tick whose attempts label a forgotten candidate again never completes, however often it is retried |
| StrategyRecords.CrashSafeAfterRuns | scripts/mosaic-murmurs-paper-memory-loop.py:613-629 | after any run of the loop and at a new moment, the candidate file gains exactly the tick's candidates, every label is on file, and the files are those of the longer run |
| StrategyRecords.FilesStaySound | scripts/mosaic-murmurs-paper-memory-loop.py:201-247 | at every moment of a tick, completed, crashed or refused, the two files hold sound logs that extend the earlier ones: one label at most for each candidate, inside its window |
| StrategyRecords.StrokesAreGood | scripts/mosaic-murmurs-paper-memory-loop.py:201-206 | names for ids as these theorems ask for exist |
| StrategyLoop.SynthesizeShadowPolicies | scripts/mosaic_murmurs_strategy_synthesis.py:116-173 | the loop fits for each strategy the policy PoliciesSeeOnlyThePast is about |
| StrategyLoop.ResolvedExperiences | scripts/mosaic_murmurs_strategy_synthesis.py:105-113 | the loop keeps what ResolvedMembers says in the order ResolvedInOrder says |
| StrategyLoop.GenerateShadowCandidates | scripts/mosaic_murmurs_strategy_synthesis.py:176-246 | the loop yields the candidates CandidatesLookBack is about |

## Left out

- ShadowStrategy.PolicyFor: has no standard error, pessimistic return or promotion blockers, which need square roots and decide nothing in this loop.
- StrategyLoop.LoadedLogsAreNeverRelabelled: is about logs within the load limit; beyond it RefusedIffForgotten says when labels are refused.
- ForgottenLabels.FullLogsForget: gives sound logs, not the run of more than a thousand ticks that would write them.
- Ledger.EventsReplayToBook: follows one book; that another book's failure aborts the tick for all of them is a flag of the feed.
- Ledger.MigrationIsIdentity: leaves out schema-3 archiving, field types and previous equity.
- BookTick.OrdinaryFillNeedsFreshMarks: takes age and provenance of a quote as one flag of the snapshot.
- PaperBooks.PaperBook.ProcessTick: positions are values in a list the book reassigns, so aliasing between position records is not captured; titles, sources and timestamps are left out.
- RecordFreshness.CrashSafeDecisionsAndEvents: covers the decision and event logs, as StrategyRecords.CrashSafeStrategyLogs covers the candidate and experience logs; the records of the other five logs have no model of their identities.
- StrategyRecords.CrashSafeStrategyLogs: takes the text of a record to tell the records of the two files and of the tick apart, and is about one tick; after a tick that is given up the files hold sound logs (StrategyRecords.FilesStaySound), but not those of a run of the loop.
- Identities.TickIdentitiesAreDistinct: takes digests cut to twenty characters as injective and instrument references as free of the separator.
- SyncControl.SyncStore.Execute: leaves out the contents of the storage grants, the update token and the invitation link.
- LimiterTable.PasscodeRateLimiter.ReserveAttempt: entities written by other programs, with malformed counts or dates, do not occur.
- JournalRecovery.PaperLoop.RunTick: leaves out the paper-state upload, the wake receipt and the dry run, which write nothing the recovery reads.
- A failed read of a blob or table appears only as an interruption of the call.
- Cryptography, encodings and Azure SDK calls: represented by ideal functions and outcomes.
- Size limits of blobs and of the paper state's collections: single comparisons.
- Unrealised and daily results, percentages and display fields of a summary: single expressions.
- News, dossiers, market feeds, browser code and DNS: no state shared with the modelled parts.
