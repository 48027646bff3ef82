# ChatHygiene, verified

ChatHygiene is a Telegram Business assistant that screens unknown contacts. Its
safety rests on a handful of state machines that live in SQLite tables and one
directory. This project models them in Dafny and proves what holds over all of
their runs, with crashes, duplicates and concurrent writers included.

The model has one part per machine, and each part has up to three layers: the
state change of every transaction as a function, theorems over all runs built on
it, and a class whose methods carry out the source's statements and loops and
are proved to compute exactly those functions. What the functions themselves do
is said a second time, by the rows before and after: when exactly an answer is
taken over, a decision made, a row claimed, and what each field is then
(`TrustLaws`, `LifecycleDecisions`, `LifecycleLaws`, `LifecycleCommands`,
`OutboxLaws`, `EventLaws`).

| part | files | what it is about |
|---|---|---|
| connection trust | `Trust`, `TrustSystem`, `TrustInvariant`, `TrustRuns`, `TrustLaws`, `TrustGrants`, `TrustExamples`, `TrustStore`, `Ranking` | which Business connection is trusted: Owner, trusted row, candidates, overflow guard, global gate; lookups as snapshot, unlocked call, revision-checked write |
| conversation lifecycle | `Lifecycle`, `LifecycleInvariant`, `LifecycleEffects`, `LifecycleSystem`, `LifecycleRuns`, `LifecycleDecisions`, `LifecycleLaws`, `LifecycleCommands`, `LifecycleMoves`, `LifecycleExamples`, `LifecycleStore`, `Batches` | preparer, handler, owner commands and retention over conversations, challenges, message ledger and queued actions |
| outbox | `Outbox`, `OutboxRuns`, `OutboxLaws`, `OutboxStore` | claim, call and settle of Telegram actions |
| trust and outbox together | `Joint` | who may claim and call when, and what a rejected call writes back |
| trust and conversations together | `Whole` | whose rights a decision rests on; cascades and forced dry-run when trust is lost |
| update log | `EventLog`, `EventLaws`, `EventStore`, `LifecycleLog`, `LifecycleLogExamples` | record, apply, recover, forget; the same with the lifecycle handler, its audits and its queue |
| claim-code file | `ClaimFile`, `ClaimFileRuns`, `ClaimFileHistory`, `ClaimFileStore`, `ClaimCode` | crash-safe publication of the owner claim command, and its parser |
| arithmetic challenges | `Arithmetic`, `ArithmeticStore` | printing, parsing, evaluating, judging answers, key upgrade |

`Prelude` and `Text` hold shared vocabulary. `dafny verify dfyconfig.toml`
checks everything.

## How the source is read

- A transaction works on the tables and either commits or restores them
  (`src/storage/uow.rs`). A crash is a step that keeps the tables and forgets the
  worker; a failed storage call is a transaction that restores them.
- One processing worker does everything but dispatching: updates, retries,
  expiry and purging share one loop (`src/processing/service.rs:1896-1931`). The
  outbox worker runs beside it and may write between a lookup's snapshot and its
  result, or between a decision and its application. An application that fails
  leaves the decision recorded while the loop goes on.
- Telegram is an arbitrary answer. A lookup's record carries the ID that was
  asked for and positive user and date, which the client enforces. A redelivered
  update carries what the first delivery carried.
- Times and generations are whole seconds; rights are the four decoded flags;
  IDs, counters and revisions are unbounded integers, as none comes near 64 bits.
- Runs of the trust machine start after legacy connection events have been
  recovered and applied. Deleting a connection row removes its conversations,
  challenges and ledger rows, as the foreign keys of the migrations say.
- The detector's verdict, NFKC and the keyed hash are parameters. The hash is
  assumed collision-free only where a statement says so. NFKC is assumed to leave
  ASCII alone only where a statement says so.
- The bytes of the claim-code file are written as characters; all of them are
  ASCII. A process that is neither root nor the directory's user is refused before
  it looks at the directory (`src/owner/claim_file.rs:86-90`). A new file belongs to the effective user and group of its creator.

## What turned out differently from the documentation or the intent

- A history pass deletes an update that was received at least a week ago and is
  named by no outbox or audit row, whatever its status
  (`src/retention/service.rs:314-334`). It can take the last trigger of a gated
  connection, which then stays gated (`TrustExamples.PurgeCanStrand`): exactly if
  the newest recorded trigger is a week old (`TrustRuns.PurgeStrandsByAge`).
- It also lets the same update take effect twice: exactly if it was forgotten
  that way (`LifecycleLog.BusinessRedeliveryExactly`; over whole runs:
  `EventLog.TwiceOnlyIfForgotten`). Inbound decisions are audited and stay for at
  least 90 days. Owner messages, deletions and messages in passed chats leave no
  row outside dry-run, so a week is all there is
  (`LifecycleLog.SilentReplaysExactly`). A run in which an owner message, deleted
  long ago, reactivates a chat is `LifecycleLogExamples.PurgeReplays`.
- An answer about the trusted connection that names another user or date is set
  aside for a retry, and with it what it says about rights: until then the rights
  of the answer before it stay in force (`TrustExamples.SetAsideKeepsRights`;
  which answers: `TrustGrants.SetAsideExactly`). Every right in force was granted by
  the last answer that was taken into account (`TrustGrants.EffectsNeedGrant`).
- The overflow guard never clears, and readiness refuses every trusted
  connection while it is set: after one overflow no connection is ever reported
  ready again (`TrustRuns.OverflowBlocksReadiness`; a run that gets there:
  `TrustExamples.OverflowThenTrusted`). The readiness branches for a foreign or
  premature trusted row are unreachable, those for retained candidates and the
  guard are not (`TrustRuns.ReadinessIsExact`).
- A recorded decision whose application failed may be applied much later, when
  the update is redelivered or the service restarts. Which stored actions can
  then still be applied, and which of them keep the conversation invariant, is
  settled for all of them (`LifecycleInvariant.AppliedExactly`,
  `LifecycleInvariant.ReplayIsSafeExactly`). Two kinds do harm: `Correct` or
  `Expired` naming another challenge than the open one
  (`LifecycleExamples.LateSuccessLeavesOpen`), and `Incorrect` decided as not the
  last attempt when it has become the last (`LifecycleExamples.LateFailureOverruns`).
  Applied in order, none does (`LifecycleRuns.InOrderIsSafe`).
- A recorded decision can become impossible to apply, by an expiry pass between
  failure and repetition or by deletion of its connection
  (`LifecycleExamples.ExpiryStrandsDecision`, `RemovalStrandsDecision`); start-up
  recovery then stops at it, at every start
  (`LifecycleLogExamples.StrandedDecisionStopsRecovery`).
- Start-up recovers recorded decisions before it upgrades challenge keys
  (`src/app.rs:214-219`). In that order preparation cannot fail afterwards
  (`LifecycleRuns.RecoveryThenUpgrade`); a decision of an older key that is applied
  after the upgrade opens a challenge that cannot be answered
  (`LifecycleRuns.OldStartNeedsUpgrade`).
- `README_en.md:43-44` says that non-numeric messages do not consume an attempt.
  They do (`LifecycleEffects.NonNumericReplyCounts`; exactly which messages:
  `LifecycleEffects.AttemptConsumedExactly`).
- A service that is not root and whose group differs from the directory's group
  never publishes the claim code (`ClaimFileRuns.UnclaimedCompletes`), and a root
  run stopped right after creating the file bars a service user from the
  directory (`ClaimFileHistory.RootStubStrandsService`).

## Model

| member | source | states |
|---|---|---|
| `TrustRuns.TrustIsConsistent` | src/storage/connection_candidate.rs:193-392 | In every reachable state: at most one trusted row, none before the claim, always the Owner's and never also a candidate; after the claim every candidate is the Owner's and lies at or below the Owner floor |
| `TrustInvariant.StepInv` | src/processing/service.rs:788-963 | Every step (trigger and start-up lookups, claim, owner command, outbox disable, purge, restart) keeps the store invariant, the in-memory Owner agreement and the validity of a captured snapshot, and lets no floor, guard or high-water mark fall |
| `TrustInvariant.RunInv` | src/processing/service.rs:1896-1931 | The invariant holds in every state of every run |
| `TrustRuns.RunAdvances` | src/storage/owner_identity.rs:237-270 | Between any two states of a run the Owner user is kept, the chat changes only away from the legacy fallback, and floor, overflow guard and high-water mark only rise |
| `TrustRuns.NewTrustClearsFloors` | src/storage/connection_candidate.rs:919-949 | Whatever step newly trusts a connection on a claimed installation, its generation exceeds the floor, the trusted generation, the guard and every candidate |
| `TrustRuns.NewTrustExceedsAllPast` | src/storage/connection_candidate.rs:226-289 | A connection newly trusted after the claim has a generation strictly above every generation trusted at any earlier state of the run and every candidate kept since the claim, also after retirement, replacement or demotion |
| `TrustRuns.CandidateNeverTrustedAsStored` | src/processing/service.rs:1526-1587 | A candidate retained by a claimed installation never becomes trusted, at any later step, with the generation it is stored with |
| `TrustRuns.ClaimPromotesItsOwnCandidate` | src/processing/service.rs:1424-1487 | Before the claim the only step that can trust a connection is the claim itself, and only for the claimant's own stored candidate |
| `TrustRuns.WideningNeedsRevision` | src/storage/connection_candidate.rs:874-917 | A trusted row gains `enabled` or a right only from an answer requested at the revision the row still has; every other step only narrows it |
| `TrustRuns.DisableSurvivesLookup` | src/storage/repositories.rs:931-947 | A disable committed inside a lookup window is still in force after that lookup was applied, whatever Telegram answered |
| `TrustRuns.GatedRowHasTrigger` | src/events/recorder.rs:61-67 | Behind an open gate a PENDING trusted row always has a RECORDED trigger with its ID, in every run whose history passes delete no recorded trigger |
| `TrustRuns.PurgeStrandsExactly` | src/retention/service.rs:314-334 | A history pass leaves a gated row without a trigger if and only if every recorded trigger of that ID is at least a week old and named by no row |
| `TrustRuns.PurgeStrandsByAge` | src/retention/service.rs:314-334 | As recorded triggers have no audits and no queued actions, that is: if and only if the newest of them is at least a week old |
| `TrustExamples.PurgeCanStrand` | src/retention/service.rs:314-334 | A concrete run in which the status-blind history pass, a week after the trigger was received, strands the trusted connection |
| `TrustRuns.ReadinessIsExact` | src/health.rs:104-180 | In reachable states readiness fails exactly for a closed gate, or a trusted row that is unconfirmed or accompanied by fresh candidates or an overflow guard; the ownership branches are dead |
| `TrustRuns.OverflowBlocksReadiness` | src/health.rs:138-144 | Once the overflow guard is set, no later state with a trusted connection is ever ready |
| `TrustExamples.OverflowThenTrusted` | src/storage/connection_candidate.rs:435-486 | A concrete run that takes in 257 candidates, is claimed, trusts a newer connection and is then never ready |
| `TrustRuns.PruneKeepsTheTop` | src/storage/connection_candidate.rs:435-486 | Pruning keeps exactly the top fresh rows by (generation, ID) within the limit, changes none of them, and raises the guard to cover every row dropped for space |
| `TrustRuns.EvictionIsGuarded` | src/storage/connection_candidate.rs:1281-1322 | Every generation a step drops for lack of space is at most the overflow guard after the step |
| `TrustRuns.NewTrustExceedsEvicted` | src/storage/connection_candidate.rs:919-949 | Any connection trusted later in the run is newer than every generation ever evicted |
| `TrustRuns.RightsCheckIsSafe` | src/telegram/outbox.rs:491-514 | A passed rights check implies an open gate and that the connection is the sole trusted row, the Owner's, CONFIRMED, enabled and holding the right |
| `TrustRuns.NoEffectsAfterAuthFailure` | src/storage/connection_candidate.rs:775-850 | After AUTH_FAILED the gate stays so and no rights check passes until a restart |
| `TrustLaws.AuthFailureStopsEffects` | src/storage/connection_candidate.rs:775-805 | In every run a lookup that finds the token refused sets AUTH_FAILED, keeps the trusted IDs with Owner, rights and generation but disabled and PENDING, raising a revision exactly where something changed; no rights check passes until a restart |
| `TrustLaws.AnswerIsJudgedExactly` | src/storage/connection_candidate.rs:193-289 | For every sound store and every answer about one of the Owner's connections: exactly which answers are taken over, exactly which set two rivals aside, and that a refused one only narrows or closes its own row; the resulting rows field by field |
| `TrustLaws.TriggerSettlesExactly` | src/processing/service.rs:1526-1587 | With an Owner: exactly which answers settle a trigger, and what the store then is; any other answer is retried and leaves no trace |
| `TrustLaws.NotFoundSettlesExactly` | src/processing/service.rs:846-896 | A vanished connection settles its trigger unless its row has moved on since the lookup began; its generation goes into the floor |
| `TrustLaws.CandidateIsObserved` | src/processing/service.rs:1504-1524 | Without an Owner every answer settles its trigger: the candidate is added with its fields, refreshed, or dropped on a conflict of user or date, and the guard follows |
| `TrustLaws.StartupSettlesExactly` | src/processing/service.rs:72-141 | The start-up lookup: what each result leaves, and that it is over exactly if the answer was taken over or the row retired |
| `TrustLaws.GateOpensExactly` | src/storage/connection_candidate.rs:815-850 | For every step: the gate is READY after it exactly if it was and neither restart nor refused token came, or it was published with no lookup owed, no trigger open and every trusted row confirmed |
| `TrustLaws.RestartLeaves` | src/storage/connection_candidate.rs:729-773 | A restart closes the gate, gates every trusted row, keeps the rest and owes exactly the trusted connection a lookup |
| `TrustLaws.RecordGates` | src/events/recorder.rs:40-84 | A first delivery of a trigger records it and gates exactly its own confirmed row; a repeated one changes nothing |
| `TrustLaws.DisableCloses` | src/storage/repositories.rs:931-947 | A disable clears `enabled` and raises the revision of exactly its own row |
| `TrustLaws.OwnerCommandLeaves` | src/storage/owner_identity.rs:178-235 | Exactly the authorized command refreshes the cached Owner and replaces an imported chat |
| `TrustLaws.UndisturbedLookupConfirms` | src/processing/service.rs:788-963 | A trigger lookup nobody interferes with, answered in agreement with the row, leaves the row as answered and CONFIRMED and the trigger applied |
| `TrustLaws.ClaimSettlesExactly` | src/processing/service.rs:641-739 | The claim: the bound Owner, the greatest generation seen as floor, trust for the one candidate exactly if nothing moved since the snapshot and Telegram confirms it enabled, and exactly which candidates stay |
| `TrustLaws.ClaimFloorIsGreatest` | src/processing/service.rs:1424-1438 | The claim floor is one of the generations it has seen, and the greatest |
| `TrustLaws.ClaimOfSoleCandidateTrusts` | src/processing/service.rs:1440-1487 | An undisturbed claim of the only fresh candidate behind an open gate asks Telegram and, if confirmed, trusts it |
| `TrustLaws.StaleAnswersAreRefused` | src/storage/connection_candidate.rs:193-225 | At another guard or candidate revision, under another Owner or with two trusted rows an answer is refused without a trace |
| `TrustLaws.CandidateWritesExactly` | src/storage/connection_candidate.rs:120-184 | Each of the five outcomes of a candidate write, exactly when, and the row it leaves |
| `TrustLaws.ClaimPromotionExactly` | src/storage/connection_candidate.rs:299-341 | The promotion happens exactly at the expected revisions for the Owner's own unchanged candidate |
| `TrustLaws.PrunesExactly` | src/storage/connection_candidate.rs:435-486 | Which rows pruning keeps, and that the guard moves only above the limit, to the newest fresh generation |
| `TrustLaws.RightsCheckExactly` | src/telegram/outbox.rs:491-514 | The rights check passes if and only if the gate is READY and the row CONFIRMED, enabled and holding the right |
| `TrustLaws.ReadinessReportsExactly` | src/health.rs:104-180 | Which of the six health values is reported, exactly when |
| `TrustLaws.ImportsExactly` | src/storage/owner_identity.rs:33-103 | An old installation is imported exactly if it has one connection with a positive owner |
| `TrustGrants.NewTrustMirrorsAnswer` | src/storage/connection_candidate.rs:852-872 | Whatever step newly trusts a connection ends a lookup of it, and the row has exactly the answer's user, rights, switch and date, CONFIRMED and no candidate any more |
| `TrustGrants.EffectsNeedGrant` | src/storage/connection_candidate.rs:874-917 | In every run a rights check passes only if the last answer about the connection that was taken into account said it is enabled and granted that right |
| `TrustExamples.SetAsideKeepsRights` | src/processing/service.rs:1526-1587 | A concrete run whose last answer about the trusted connection grants nothing, but is of another date and set aside for a retry, so that the earlier rights stay in force |
| `TrustGrants.SetAsideExactly` | src/processing/service.rs:1526-1587 | An answer about the trusted connection is either taken over or leaves everything as it is |
| `TrustLaws.ParserAcceptsExactly` | src/telegram/parser.rs:377-399 | Which private messages the parser lets through on the cached Owner |
| `TrustRuns.OwnerIsBoundForGood` | src/storage/owner_identity.rs:127-270 | Once bound, the Owner user never changes, the chat changes at most once and the floor never falls |
| `TrustRuns.ParserAcceptsAuthorizedSources` | src/telegram/parser.rs:377-399 | The parser's check against the in-memory Owner accepts every ordinary private source the database would authorize |
| `TrustInvariant.ReconcileSound` | src/storage/connection_candidate.rs:193-289 | Applying any answer keeps the store sound and advances its floors, and a well-formed answer never meets a storage failure |
| `TrustInvariant.RetireSound` | src/storage/connection_candidate.rs:349-392 | Retirement keeps the store sound, preserves the retired generation in the floor and removes the row when it succeeds |
| `TrustInvariant.CommitClaimSound` | src/processing/service.rs:641-739 | The claim transaction binds the claimant, keeps the store sound and trusts at most a candidate of the claimant that was stored before |
| `TrustInvariant.ClaimFloorDominates` | src/processing/service.rs:1424-1438 | The claim floor is at least the message date, every candidate seen before or inside the transaction and the guard |
| `Ranking.TopIsTop` | src/storage/connection_candidate.rs:435-486 | The selected rows are as many as the limit allows and outrank every row left out |
| `Ranking.TopUnique` | src/storage/connection_candidate.rs:435-486 | There is only one such selection, so the ranking leaves pruning no choice |
| `TrustStore.ConnectionStore.ApplyAuthoritativeCandidate` | src/storage/connection_candidate.rs:120-184 | The candidate write, branch by branch, equals the specified state change and outcome |
| `TrustStore.ConnectionStore.PruneCandidates` | src/storage/connection_candidate.rs:435-486 | The expiry delete followed by the eviction loop computes the specified pruning and the number of deleted rows; sound tables stay sound and no floor falls |
| `TrustStore.ConnectionStore.GenerationFloorExcluding` | src/storage/connection_candidate.rs:919-949 | The scanned floor separates exactly the generations that clear every other row, the guard and the Owner floor |
| `TrustStore.ConnectionStore.UpsertTrusted` | src/storage/repositories.rs:127-196 | The upsert first removes the same Owner's row under another ID |
| `TrustStore.ConnectionStore.InstallTrusted` | src/storage/connection_candidate.rs:852-872 | Installing writes the confirmed row with exactly the answer's user, rights, switch and date, removes the Owner's other row and drops the candidate |
| `TrustStore.ConnectionStore.SetTelegramAuthFailed` | src/storage/connection_candidate.rs:775-805 | AUTH_FAILED is set and every row disabled and gated, field by field; sound tables stay sound and no floor falls |
| `TrustStore.ConnectionStore.ApplySafetyIntersection` | src/storage/connection_candidate.rs:973-1011 | A stale answer may only intersect rights; the revision moves only if something shrank |
| `TrustStore.ConnectionStore.ReconcileSameTrusted` | src/storage/connection_candidate.rs:874-917 | The same-ID reconciliation equals its specification in all four outcomes |
| `TrustStore.ConnectionStore.RetainAmbiguousGenerations` | src/storage/connection_candidate.rs:1013-1082 | Equal generations demote the trusted row and keep both as candidates, advancing floor and active guard |
| `TrustStore.ConnectionStore.ReconcileAuthoritativeTrusted` | src/storage/connection_candidate.rs:193-289 | The whole reconciliation equals its specification for every store, snapshot and answer; sound tables stay sound and no floor falls |
| `TrustStore.ConnectionStore.RetireNotFound` | src/storage/connection_candidate.rs:349-392 | Retiring a vanished connection equals its specification, floor included; sound tables stay sound and no floor falls |
| `TrustStore.ConnectionStore.PromoteClaim` | src/storage/connection_candidate.rs:299-341 | The claim-time promotion equals its specification; sound tables stay sound and no floor falls |
| `TrustStore.ConnectionStore.DisableConnection` | src/storage/repositories.rs:931-947 | Disabling clears `enabled`, raises the revision and reports whether a row was hit; sound tables stay sound and no floor falls |
| `TrustStore.ConnectionStore.GateMatchingTrusted` | src/storage/connection_candidate.rs:1366-1399 | Recording a trigger gates exactly the matching row; sound tables stay sound and no floor falls |
| `TrustStore.ConnectionStore.AdvanceOwnerFloor` | src/storage/owner_identity.rs:237-270 | The floor is raised for a claimed Owner and a positive generation, otherwise nothing changes; sound tables stay sound and no floor falls |
| `TrustStore.ConnectionStore.PromoteOwnerChat` | src/storage/owner_identity.rs:178-235 | Only a legacy fallback chat is replaced; sound tables stay sound and no floor falls |
| `TrustStore.ConnectionStore.ApplyFoundConnection` | src/processing/service.rs:898-963 | The trigger transaction commits or restores exactly as specified; sound tables stay sound and no floor falls |
| `TrustStore.ConnectionStore.ApplyMissingConnection` | src/processing/service.rs:846-896 | The not-found trigger transaction commits or restores exactly as specified; sound tables stay sound and no floor falls |
| `TrustStore.ConnectionStore.CommitOwnerClaim` | src/processing/service.rs:641-739 | The claim transaction, pruning and clean-up included, equals its specification; sound tables stay sound and no floor falls |
| `TrustStore.ConnectionStore.TransitionTelegramReady` | src/storage/connection_candidate.rs:815-850 | The gate opens only from PENDING at the expected revision; sound tables stay sound and no floor falls |
| `TrustStore.ConnectionStore.NormalizeStartupReconciliation` | src/storage/connection_candidate.rs:729-773 | A restart closes the gate and gates trusted rows as specified; sound tables stay sound and no floor falls |
| `TrustStore.PlanEviction` | src/storage/connection_candidate.rs:452-486 | Ranks the rows and returns the overflow generation and the rows to evict, which are exactly those outside the top |
| `TrustStore.RankedRows` | src/storage/connection_candidate.rs:452-470 | Selection in ranking order yields every row exactly once, best first |
| `LifecycleRuns.EveryRunKeeps` | src/processing/handler.rs:313-629 | In every run, decisions applied in any order included: at most one open challenge, one while VERIFY_PENDING, an expiry exactly in TEMP_SOFT_BLOCKED, a reason exactly in the two blocked states |
| `LifecycleRuns.ConsistentExactly` | src/processing/handler.rs:313-512 | Over any run the full conversation invariant holds throughout if and only if every applied decision was harmless when applied: `Correct` and `Expired` named the open challenge, `Incorrect` was the last attempt or left one |
| `LifecycleRuns.ConversationsAreConsistent` | src/processing/handler.rs:313-629 | As long as no late decision did harm: VERIFY_PENDING exactly when there is an open challenge, unique and with attempts left; an expiry exactly in TEMP_SOFT_BLOCKED, a reason exactly in the two blocked states |
| `LifecycleRuns.DecisionsApplyExactly` | src/processing/handler.rs:34-121 | In every state of every run, with any number of recorded decisions and failed applications, a decision is applied if and only if its connection row exists and its transition, open challenge and attempt are available |
| `LifecycleRuns.InOrderIsSafe` | src/processing/preparer.rs:145-275 | Preparer and handler agree: applied before the worker goes on, no decision does harm, and it fails exactly if it writes a conversation whose connection row was deleted meanwhile |
| `LifecycleRuns.PreparationFailsExactly` | src/processing/preparer.rs:213-275 | In every state of every run preparation fails if and only if the message would have to be judged against an open challenge of another key version |
| `LifecycleRuns.UpgradeEndsFailures` | src/verification/upgrade.rs:29-63 | After a successful key upgrade preparation never fails, unless a decision recorded under an older key starts a challenge |
| `LifecycleRuns.RecoveryThenUpgrade` | src/app.rs:214-219 | If the decisions recorded under older keys were recovered before the upgrade, as start-up orders it, preparation never fails from then on |
| `LifecycleRuns.OldStartNeedsUpgrade` | src/processing/preparer.rs:213-275 | A recorded decision that starts a challenge under an older key opens one that cannot be answered: preparation fails on a reply to it |
| `LifecycleExamples.ExpiryStrandsDecision` | src/processing/service.rs:1896-1931 | A concrete run: a failed application, an expiry pass, and the decision can never be applied although its row exists |
| `LifecycleExamples.RemovalStrandsDecision` | src/storage/repositories.rs:127-196 | A concrete in-order run in which deleting the connection strands a recorded decision |
| `LifecycleExamples.LateFailureOverruns` | src/processing/handler.rs:446-466 | A concrete run: a delayed wrong answer uses up the third attempt and leaves the challenge open |
| `LifecycleExamples.LateSuccessLeavesOpen` | src/processing/handler.rs:326-332 | A concrete run: a delayed correct answer passes the conversation and leaves a newer challenge open |
| `LifecycleLogExamples.StrandedDecisionStopsRecovery` | src/events/worker.rs:94-117 | A concrete log run: a decision as prepared, a failed application and an expiry pass; from then on every start-up recovery, however many there are, stops at it and changes nothing |
| `LifecycleRuns.SpamBlockNeedsVerdict` | src/processing/handler.rs:514-545 | In every run, each entry into SPAM_SOFT_BLOCKED is the application of a SPAM verdict decided in destructive mode |
| `LifecycleRuns.CounterIsHistory` | src/storage/repositories.rs:469-486 | In every run a challenge's attempt counter equals what it started with plus the failed answers applied to it |
| `LifecycleRuns.TempBlockNeedsThreeFailures` | src/processing/handler.rs:430-512 | In every run, late applications included, each entry into TEMP_SOFT_BLOCKED is the third failed answer to one and the same challenge, decided in destructive mode |
| `LifecycleEffects.AttemptConsumedExactly` | src/processing/preparer.rs:213-275 | A message uses up an attempt exactly if it is unedited, unexpired, answerable, not spam and not the correct answer, numeric or not |
| `LifecycleEffects.NonNumericReplyCounts` | src/processing/preparer.rs:250-263 | A concrete non-numeric reply that consumes an attempt, contrary to the user documentation |
| `LifecycleRuns.DryRunIsSafe` | src/processing/preparer.rs:156-211 | An event decided in dry-run or without read and delete-all rights queues no read or delete and blocks nothing, whatever happened before it was applied |
| `LifecycleEffects.DeletesAreExact` | src/processing/handler.rs:734-754 | Blocking queues delete requests of 1 to 100 IDs that together name every eligible message, ascending and exactly once, if the update has queued nothing before |
| `LifecycleRuns.RunDeletesAreExact` | src/processing/handler.rs:514-545 | In every run that condition is met, so every applied block queues exactly those requests |
| `LifecycleEffects.ResetForgetsExactly` | src/owner/mod.rs:291-363 | A reset leaves no challenge and no ledger row, its only unfinished actions are the new delete requests, and these name exactly the eligible messages and prompts |
| `LifecycleRuns.RunResetForgets` | src/owner/mod.rs:291-363 | In every run a new reset command does exactly that |
| `LifecycleRuns.StepInv` | src/processing/handler.rs:34-121 | Every recording, application, failure, owner command, expiry, purge, key upgrade, outbox and connection step keeps what every run keeps, the bonds between decisions and challenges, and the origin of queued actions |
| `LifecycleRuns.OnlyEventsBlock` | src/retention/service.rs:61-126 | No step but the application of an event can move a conversation into a blocked state |
| `LifecycleInvariant.PrepareFits` | src/processing/preparer.rs:145-275 | A freshly prepared action is applicable and harmless in the conversation it was prepared from |
| `LifecycleInvariant.ApplySound` | src/processing/handler.rs:248-629 | An applicable action is applied and keeps the basic invariant; applied harmlessly it keeps the full one |
| `LifecycleInvariant.ExpireDueSound` | src/retention/service.rs:61-126 | The expiry pass keeps the invariant |
| `LifecycleInvariant.ResetSound` | src/owner/mod.rs:291-363 | The reset command keeps the invariant |
| `LifecycleInvariant.UnblockSound` | src/owner/mod.rs:365-417 | The unblock command keeps the invariant |
| `LifecycleInvariant.AppliedExactly` | src/processing/handler.rs:34-121 | For every stored action: `apply` succeeds if and only if the action is applicable |
| `LifecycleInvariant.ReplayIsSafeExactly` | src/processing/handler.rs:326-466 | For every stored action that can be applied: it keeps the full invariant if and only if it is harmless |
| `LifecycleInvariant.PrepareFailsExactly` | src/processing/preparer.rs:213-275 | Preparation fails if and only if an unedited, unexpired, answerable, non-spam message meets an open challenge of another key version |
| `LifecycleDecisions.PreparesExactly` | src/processing/preparer.rs:145-275 | Every decision and every outcome, each if and only if its cause: connection, kind of event, state, verdict, mode and rights, the open challenge, its age and attempts; with all the fields it carries |
| `LifecycleLaws.ConversationExactly` | src/processing/handler.rs:313-629 | What every applied action makes of its conversation, field by field, and that it touches no other |
| `LifecycleLaws.ChallengesExactly` | src/processing/handler.rs:326-579 | Which challenge every applied action starts, counts or closes, and that connections and mode stay |
| `LifecycleLaws.LedgerExactly` | src/processing/handler.rs:248-311 | What every applied action records of its message, and which messages a deletion marks |
| `LifecycleLaws.QueueExactly` | src/processing/handler.rs:373-545 | Which requests every applied action queues under which key, that nothing queued is lost and nothing else is new |
| `LifecycleMoves.MovesHaveCauses` | src/domain/state.rs:50-77 | For every step and chat: a change of state has one of the listed causes and goes from and to the states listed with it |
| `LifecycleMoves.TransitionsExactly` | src/domain/state.rs:50-77 | Each event has one target state and a set of states it is allowed in |
| `LifecycleMoves.VerifiedNeedsCorrectAnswer` | src/processing/handler.rs:326-340 | In every run each entry into VERIFIED_WAITING_OWNER applies a `Correct` decision of that chat, made when its open, unexpired challenge was answered correctly by an original message |
| `LifecycleMoves.ExhaustedInDryRun` | src/processing/handler.rs:480-512 | In every run a third failure decided in dry-run leaves the chat NEW without expiry and reason and without an open challenge, and queues the proposal and the edit |
| `LifecycleMoves.SpamIsBlocked` | src/processing/preparer.rs:186-192 | In every run a message judged SPAM in destructive mode, applied at once, blocks the chat for spam, closes its challenge and queues the read and the deletion of everything eligible |
| `LifecycleMoves.CommandsOnlyRenew` | src/owner/mod.rs:291-417 | An owner command leaves every chat in its state or NEW |
| `LifecycleCommands.ResetsExactly` | src/owner/mod.rs:291-363 | When a reset is refused, and otherwise every row it renews, drops and keeps |
| `LifecycleCommands.UnblocksExactly` | src/owner/mod.rs:365-417 | When an unblock is refused, and otherwise the NEW row field by field and the closed challenges |
| `LifecycleCommands.SwitchesExactly` | src/owner/mod.rs:419-449 | Dry-run is left only with a usable connection that has every right |
| `LifecycleCommands.ExpiresExactly` | src/retention/service.rs:61-126 | Exactly which challenges are closed and which chats become NEW, with their fields |
| `LifecycleCommands.ExpiryEditsExactly` | src/retention/service.rs:61-126 | Exactly which expired prompts are to be edited |
| `LifecycleCommands.PurgesExactly` | src/retention/service.rs:240-274 | A message goes exactly if it is an old one of the other side that no unfinished delete request names |
| `LifecycleCommands.PromptNotedExactly` | src/storage/repositories.rs:755-800 | The delivery of a prompt is noted on its own challenge and never reopens it |
| `LifecycleCommands.KeyUpgradeExactly` | src/verification/upgrade.rs:29-63 | When the key upgrade succeeds, and which challenges it re-signs |
| `LifecycleCommands.RemovalExactly` | src/storage/repositories.rs:127-196 | Deleting a connection deletes exactly what is stored under it |
| `LifecycleCommands.EventStepsExactly` | src/processing/service.rs:412-440 | An update is decided once, as the preparer decides it then, and applied once if it can be |
| `LifecycleStore.LifecycleTables.ApplyEvent` | src/processing/handler.rs:34-121 | One transaction per event: the tables become what the specification says, or are restored; it succeeds exactly if applicable, and conversations and challenges stay in agreement unless the action was harmful |
| `LifecycleStore.LifecycleTables.HandleInbound` | src/processing/handler.rs:248-311 | The inbound handler equals its specification, versioned save included |
| `LifecycleStore.LifecycleTables.RunOutcome` | src/processing/handler.rs:313-371 | Every outcome edits challenges, outbox and conversation as specified |
| `LifecycleStore.LifecycleTables.StartVerification` | src/processing/handler.rs:373-428 | Starting a challenge inserts it, queues the prompt and moves the state, or fails on a second open challenge |
| `LifecycleStore.LifecycleTables.CountIncorrect` | src/processing/handler.rs:430-512 | A wrong answer counts, and the last one closes, blocks or proposes as specified (field by field: `LifecycleLaws.ConversationExactly`) |
| `LifecycleStore.LifecycleTables.BlockSpam` | src/processing/handler.rs:514-545 | A spam block closes the challenge, queues the read and every delete batch |
| `LifecycleStore.LifecycleTables.HandleManualOwner` | src/processing/handler.rs:547-579 | A manual reply closes the challenge, clears the block and activates |
| `LifecycleStore.LifecycleTables.HandleDeletion` | src/processing/handler.rs:605-629 | Deletions are marked one by one; losing the last owner reply reverts to NEW |
| `LifecycleStore.LifecycleTables.Create` | src/storage/repositories.rs:335-358 | A challenge is inserted unless the conversation already has an open one |
| `LifecycleStore.LifecycleTables.Increment` | src/storage/repositories.rs:469-486 | The attempt counter moves only on an open challenge with attempts left |
| `LifecycleStore.LifecycleTables.SaveConversation` | src/storage/repositories.rs:202-234 | The save succeeds exactly at the expected version and raises it |
| `LifecycleStore.LifecycleTables.EnqueueDeletions` | src/processing/handler.rs:734-754 | The loop over batches queues them all, numbered in order |
| `LifecycleStore.LifecycleTables.ResetConversation` | src/owner/mod.rs:291-363 | The reset statements compute the specified state and keep conversations and challenges in agreement |
| `LifecycleStore.LifecycleTables.UnblockConversation` | src/owner/mod.rs:365-417 | The unblock statements compute the specified state and keep conversations and challenges in agreement |
| `LifecycleStore.LifecycleTables.ExpireDueState` | src/retention/service.rs:61-126 | The loop over due challenges in ID order, then the block update, computes the specified one-shot expiry, counts both and keeps conversations and challenges in agreement |
| `LifecycleStore.LifecycleTables.PurgeLedger` | src/retention/service.rs:240-274 | Exactly the old inbound rows that no unfinished delete request names are removed and counted |
| `Batches.SplitIsLossless` | src/telegram/client.rs:54-58 | The batches concatenate to the input and hold 1 to 100 IDs each |
| `Batches.DeleteMessageBatches` | src/telegram/client.rs:54-58 | The chunking loop computes the specified split |
| `Batches.SortedIsExact` | src/storage/repositories.rs:314-331 | The ordered ID list holds exactly the set, strictly ascending |
| `OutboxRuns.TerminalIsFinal` | src/storage/repositories.rs:949-970 | In every run a terminal row never changes again; it can only be deleted, and its ID is not reused |
| `OutboxRuns.ResendNeedsRecordedRetry` | src/telegram/outbox.rs:221-253 | A non-idempotent action is called a second time only after the earlier call's own failure, not a timeout, was committed as RETRY |
| `OutboxRuns.NeverSentTwice` | src/telegram/outbox.rs:63-105 | After a delivery, a timeout or a call whose answer was lost to a crash or failed write, a non-idempotent action is never called again |
| `OutboxRuns.AttemptsAreBounded` | src/storage/repositories.rs:632-657 | In every state attempts are at most 7, at least 1 when claimed, and a next attempt is set exactly in RETRY |
| `OutboxRuns.CallsAreBounded` | src/telegram/outbox.rs:584-610 | In every run the API calls for one action are at most 7 plus its interrupted dispatches |
| `OutboxRuns.FailureVerdicts` | src/telegram/outbox.rs:221-253 | Which failures end an action as done, uncertain or failed, and which are retried: uncertain exactly for a timed-out non-idempotent call, done only for an idempotent one, retried only within the bound and within a minute |
| `OutboxRuns.BackoffDoubles` | src/telegram/outbox.rs:19-19 | The delay is 1, 2, 4, 8, 16 and then 30 seconds |
| `OutboxRuns.StepInv` | src/storage/repositories.rs:604-699 | Every dispatcher, enqueue, retirement and deletion step keeps the row and worker invariants |
| `OutboxLaws.RetryWaits` | src/storage/repositories.rs:604-631 | In every run an action recorded for a retry at some time is not claimed before that time, interruptions included, until a dispatch of it is settled again |
| `OutboxLaws.BackoffIsKept` | src/telegram/outbox.rs:221-253 | In every run a failed call is repeated no sooner than the schedule or Telegram's requested wait says |
| `OutboxLaws.ClassifiesExactly` | src/telegram/outbox.rs:221-253 | What becomes of a failed call, for every kind, attempt and error, with the exact delay |
| `OutboxLaws.ClaimsExactly` | src/storage/repositories.rs:604-658 | Which row is claimed and what the claim writes |
| `OutboxLaws.FinishesExactly` | src/telegram/outbox.rs:349-437 | What an answered dispatch writes to its row, and when an alert is queued |
| `OutboxLaws.RefusesExactly` | src/telegram/outbox.rs:63-105 | What a dispatch without a call writes, for each of its reasons |
| `OutboxLaws.CalledExactly` | src/telegram/outbox.rs:63-178 | Which claimed actions are called |
| `OutboxLaws.RetiresExactly` | src/storage/repositories.rs:127-196 | A replaced connection fails exactly its own unfinished actions |
| `Outbox.RetryDelay` | src/telegram/outbox.rs:584-610 | For a claimed action a delay exists exactly for a retryable error within six attempts, it lies between 0 and 60 seconds, and a requested wait is honoured up to the minute |
| `OutboxStore.OutboxTable.ClaimDue` | src/storage/repositories.rs:604-658 | Claims the least ID that is PENDING or RETRY with its time come, restricted to unbound owner messages while not ready, and nothing if there is none; counts an attempt unless an interrupted claim is noted |
| `OutboxStore.OutboxTable.HandleTelegramFailure` | src/telegram/outbox.rs:221-253 | The failure handler settles the row as classified and reports what it stored |
| `OutboxStore.OutboxTable.FinishPermanent` | src/telegram/outbox.rs:417-437 | A permanent failure settles an open row only, with the owner alert in the same transaction |
| `OutboxStore.OutboxTable.FinishUncertain` | src/telegram/outbox.rs:391-415 | An ambiguous send settles an open row only, with the owner alert in the same transaction |
| `OutboxStore.OutboxTable.MarkRetry` | src/storage/repositories.rs:678-699 | Only an open row is rescheduled, and its claim is released; within the attempt bound the table stays as every run keeps it |
| `OutboxStore.OutboxTable.SetTerminal` | src/storage/repositories.rs:949-970 | Only an open row becomes terminal, and the table stays as every run keeps it |
| `OutboxStore.OutboxTable.DispatchNext` | src/telegram/outbox.rs:63-105 | One dispatch takes exactly the modelled claim, refuse, call and finish steps, its outcome tells the stored status, and the table stays as every run keeps it |
| `Joint.ClaimsNeedReadiness` | src/storage/repositories.rs:604-631 | In every run of trust and outbox together, a connection-bound action is claimed only while readiness succeeds: open gate, and any trusted connection the Owner's, confirmed, without retained rivals and without overflow |
| `Joint.OverflowStopsClaims` | src/storage/repositories.rs:608-631 | Once the overflow guard is set, a connection-bound action is claimed only while no connection is trusted |
| `Joint.CallsNeedRights` | src/telegram/outbox.rs:107-178 | In every such run, each Business call follows a rights check of the same dispatch, at which the gate was open and the connection the only trusted one, the Owner's, confirmed, enabled and holding the right |
| `Joint.OutboxProjection` | src/telegram/outbox.rs:417-437 | Every such run, disabling of connections included, is a run of the outbox, so all its bounds hold |
| `Joint.RunTrust` | src/telegram/outbox.rs:417-437 | Every such run keeps the trust invariant |
| `Joint.RejectionDisables` | src/telegram/outbox.rs:417-437 | A rejected or unauthorized action is failed, its connection disabled and the Owner alerted in one transaction, or none of it if the connection is gone |
| `Joint.OnlyRejectionDisables` | src/telegram/outbox.rs:391-437 | Nothing else of a dispatch touches the trust tables |
| `Joint.ClaimSeesReadiness` | src/storage/repositories.rs:604-658 | A claim takes the least claimable row under the readiness of its moment |
| `Joint.CheckedMayCall` | src/telegram/outbox.rs:107-178 | A held Business action that passes its rights check may be called, and the check changes nothing |
| `Whole.RunInv` | src/storage/repositories.rs:127-196 | In every run of trust and conversations together the preparer sees exactly the trusted rows with their present rights, and both sides keep their invariants, cascades and forced dry-run included |
| `Whole.SpamBlockNeedsOwner` | src/processing/preparer.rs:145-211 | In every such run each entry into SPAM_SOFT_BLOCKED goes back to a decision on a SPAM verdict in destructive mode, made while the gate was open and the connection the only trusted one, the Owner's, confirmed, enabled, with read and delete-all rights |
| `Whole.LossOfTrustDisarms` | src/telegram/outbox.rs:417-437 | Once a connection has been disabled by the outbox or replaced, no decision recorded afterwards is destructive until the Owner leaves dry-run |
| `Whole.TrustStepDrags` | src/storage/repositories.rs:127-196 | When a trust step forces dry-run, and exactly what it takes along of conversations, challenges and messages |
| `Whole.SpamIsBlockedWhenAllowed` | src/processing/preparer.rs:186-192 | In every such run a SPAM message in a chat of the Owner's allowed connection, applied at once, blocks the chat |
| `EventLog.DerivedIsFold` | src/events/worker.rs:35-86 | At every point of every run derived state is the fold of the committed effects in commit order |
| `EventLog.EffectIsOnce` | src/events/worker.rs:35-86 | While no history pass forgets its row, an update that took effect never takes effect again |
| `EventLog.TwiceOnlyIfForgotten` | src/retention/service.rs:314-334 | In every run, between two effects of one update lies a history pass that found it at least a week old and named by no outbox or audit row |
| `EventLog.FirstRecordingTakesEffect` | src/events/recorder.rs:40-84 | The event that takes effect is the content first recorded for the update, later deliveries notwithstanding |
| `EventLog.RedeliveryExactly` | src/retention/service.rs:314-334 | An applied update delivered again after a history pass takes effect again if and only if, at the pass, it was at least a week old and no row that survives the pass named it |
| `EventLog.PurgedThenRedelivered` | src/retention/service.rs:314-334 | For any handler a run with the very same delivery twice and a history pass in between: the second takes effect if and only if the pass forgot the first |
| `LifecycleLog.NamedExactly` | src/processing/handler.rs:34-121 | After its application an update is named by an outbox or audit row if and only if it was an audited inbound decision, a message of a blocked chat to delete, or traced in dry-run; no other update gains or loses a name |
| `LifecycleLog.PassNames` | src/retention/service.rs:135-334 | After a history pass an update is named if and only if it has an unfinished or young queued action or trace, or an audit younger than 90 days or kept as evidence of a spam block |
| `LifecycleLog.BusinessRedeliveryExactly` | src/retention/service.rs:314-334 | For every applied business update and every date: delivered again after the pass it takes effect again if and only if it is a week old and no such row keeps it |
| `LifecycleLog.ForgottenWhenSilent` | src/retention/service.rs:314-334 | An update without rows is forgotten exactly by a pass at least a week after its receipt, one with an audit under 90 days old by none |
| `LifecycleLog.SilentReplaysExactly` | src/retention/service.rs:314-334 | In every run an applied update that leaves no rows (owner message, deletion, message in a passed chat) takes effect again after a history pass if and only if it was received at least a week before the pass |
| `LifecycleLogExamples.PurgeReplays` | src/retention/service.rs:314-334 | A concrete run of the lifecycle handler: an owner message is applied, deleted by a later update, forgotten after seven days and delivered again unchanged; the conversation becomes ACTIVE again without any owner reply in it |
| `EventLog.RecoveryStops` | src/events/worker.rs:94-117 | If the first update to replay cannot be applied, recovery stops there and recovers nothing |
| `EventLog.RecoveryStopsForGood` | src/events/worker.rs:94-117 | Any number of further recoveries then report the same failure and change nothing |
| `EventLog.RecoveryDrains` | src/events/worker.rs:94-117 | A successful recovery leaves exactly the authoritative triggers that were unapplied still RECORDED, and changes no recorded content |
| `EventLog.RecoveryResumes` | src/events/worker.rs:94-117 | A recovery cut off after any number of commits and restarted ends in the same state, with the same verdict and total, as an undisturbed one |
| `EventLog.RecoveryIsIdempotent` | src/events/worker.rs:94-117 | A second recovery after a successful one does nothing |
| `EventLaws.RecoversExactly` | src/events/worker.rs:94-117 | Recovery carries out the recorded updates other than triggers in ascending order up to the first that fails, marks exactly those, counts them and leaves derived state as they left it |
| `EventLaws.DeliveryTakesEffect` | src/processing/service.rs:412-440 | A delivered update takes effect at once if it can, and the log says so |
| `EventLaws.ForgetsExactly` | src/retention/service.rs:314-334 | A pass deletes exactly the updates that are a week old and named by no row that outlives it |
| `LifecycleLog.PassDeletesExactly` | src/retention/service.rs:135-312 | What a pass deletes of messages, actions, audits and traces, and nothing else |
| `LifecycleLog.HandlesExactly` | src/processing/handler.rs:248-311 | Which audit and trace rows an application adds |
| `EventStore.EventTables.RecordPreparedEvent` | src/events/recorder.rs:40-84 | Records once, gates on a new trigger in the same transaction, and reports the stored status of a duplicate |
| `EventStore.EventTables.ApplyRecordedEvent` | src/events/worker.rs:35-86 | Effect and status flip happen together or not at all |
| `EventStore.EventTables.ReconcileTrigger` | src/processing/service.rs:1611-1633 | A settled trigger changes its tables and its status together; an unsettled one stays recorded |
| `EventStore.EventTables.Process` | src/processing/service.rs:412-440 | An update is recorded, then applied or, for a connection change, reconciled, unless it was applied before |
| `EventStore.EventTables.RecoverRecordedEvents` | src/events/worker.rs:94-117 | The loop in update order computes the specified recovery and stops at the first failure |
| `EventStore.EventTables.PurgeHistory` | src/retention/service.rs:135-158 | A history pass prunes the other tables first, then deletes and counts exactly the forgettable updates |
| `ClaimFile.SafeShapes` | src/owner/claim_file.rs:256-305 | The inspection accepts exactly five shapes of a well-linked directory |
| `ClaimFileHistory.HistoryIsSafeExactly` | src/owner/claim_file.rs:256-305 | After any sequence of runs under any process identities, each stopped at any point, the next process accepts the directory if and only if a left temporary file belongs to the directory's owner or to that process |
| `ClaimFileHistory.OneIdentityIsSafe` | src/owner/claim_file.rs:181-240 | Under one identity every interrupted history, partial writes and interrupted recoveries included, leaves a directory that passes inspection |
| `ClaimFileHistory.UnwelcomeChangeNothing` | src/owner/claim_file.rs:283-287 | Runs of processes that refuse the directory leave it as it is, however many there are |
| `ClaimFileHistory.RootStubStrandsService` | src/owner/claim_file.rs:181-205 | A concrete history: root stops right after creating the file, and the service user finds it unsafe ever after |
| `ClaimFileRuns.UnclaimedCompletes` | src/owner/claim_file.rs:159-240 | An undisturbed unclaimed run of an admitted process from any safe state ends with exactly the full target, link count 1 and no temp, if and only if it was published before or the process can own the file as required; a process that is not admitted changes nothing |
| `ClaimFileRuns.ClaimedIsSafe` | src/owner/claim_file.rs:140-157 | A claimed run passes only through safe directories and, for an admitted process, ends with neither entry |
| `ClaimFileRuns.UnclaimedIsSafe` | src/owner/claim_file.rs:159-240 | Every directory an unclaimed run passes through is safe |
| `ClaimFileHistory.RecoversFromAnyHistory` | src/owner/claim_file.rs:123-240 | After any history a target is never partial; a process that accepts the directory publishes a text that parses back to the token, or cleans up; one that does not changes nothing |
| `ClaimFileRuns.UnsafeIsUntouched` | src/owner/claim_file.rs:86-166 | A directory that fails inspection, or that belongs to another user than the process while that is not root, is left as it is |
| `ClaimFileRuns.AcceptedTargetIsExact` | src/owner/claim_file.rs:256-305 | An accepted target is a private regular file of the expected owner with exactly the command |
| `ClaimFileRuns.AcceptedExactly` | src/owner/claim_file.rs:256-305 | What the inspection accepts in any directory, entry by entry |
| `ClaimFileRuns.FinishedRunsDoNothing` | src/owner/claim_file.rs:140-179 | A finished directory is left alone |
| `ClaimFileStore.Directory.WriteAll` | src/owner/claim_file.rs:443-454 | The write loop passes through exactly the specified partial contents and reports whether all was written |
| `ClaimFileStore.Directory.CreateAndPublish` | src/owner/claim_file.rs:181-240 | Creation, hand-over, writing, linking and unlinking leave exactly the specified trail of directories |
| `ClaimFileStore.Directory.ReconcileUnclaimed` | src/owner/claim_file.rs:159-179 | The unclaimed run leaves exactly the specified trail and succeeds exactly when specified |
| `ClaimFileStore.Directory.RetireAfterClaim` | src/owner/claim_file.rs:140-157 | The claimed run leaves exactly the specified trail and fails exactly on an unsafe entry |
| `ClaimFileStore.ReadCapped` | src/owner/claim_file.rs:428-441 | However reads are split, the first bytes up to the capacity are returned |
| `ClaimCode.PublishedParsesBack` | src/owner/claim_file.rs:365-375 | The published command without its newline parses back to the very token |
| `ClaimCode.AcceptedExactlyPrinted` | src/owner/claim.rs:63-109 | A message is accepted as a claim for a token if and only if it is well placed and is that token's printed command |
| `ClaimCode.ParsesExactly` | src/owner/claim.rs:63-109 | Which messages are no claim, which are ignored, and which are taken for a token; any other is rejected with a reply to its chat |
| `ClaimCode.CommandsAreDistinct` | src/owner/claim_file.rs:365-375 | Different tokens have different commands |
| `ClaimCode.ExpectedCommand` | src/owner/claim_file.rs:365-375 | Exactly 32-byte tokens have a command, which has 72 characters and ends in a newline |
| `ClaimCode.DecodeEncoded` | src/owner/claim_file.rs:370-371 | Hex text decodes to the bytes it encodes and is lower case |
| `ClaimCode.EncodeDecoded` | src/owner/claim.rs:90-99 | Lower-case hex text is reproduced by encoding its decoding |
| `Arithmetic.AnswerIsStandard` | src/verification/arithmetic.rs:231-246 | A bounded answer is the expression's value under the usual precedence grammar |
| `Arithmetic.BoundedExactly` | src/verification/arithmetic.rs:231-246 | An expression has an answer exactly if its usual value and its first step lie between 0 and 99 |
| `Arithmetic.PrintThenParse` | src/verification/arithmetic.rs:62-86 | Every printed expression parses back to itself |
| `Arithmetic.AcceptedExactlyPrinted` | src/verification/arithmetic.rs:62-86 | The accepted texts are exactly the printed forms of bounded expressions, each with its answer |
| `Arithmetic.AcceptedMeansStandard` | src/verification/arithmetic.rs:62-86 | The answer of an accepted text is the standard value of the expression it prints |
| `Arithmetic.NormalizedIsPrinted` | src/verification/arithmetic.rs:256-271 | An answer normalizes to the canonical print of its number, or to nothing if it is not all digits |
| `Arithmetic.PrintedNormalizesToItself` | src/verification/arithmetic.rs:256-271 | A printed answer normalizes to itself |
| `Arithmetic.EvaluateIsExact` | src/verification/arithmetic.rs:152-166 | A reply is NonNumeric exactly if it has no digits form, Correct if its number is the answer, and with collision-free tags only then |
| `Arithmetic.PrintedAnswerIsCorrect` | src/verification/arithmetic.rs:152-166 | The printed answer always evaluates to Correct |
| `Arithmetic.PaddingChangesNothing` | src/verification/arithmetic.rs:256-271 | A plus sign or blanks around a number change no verdict |
| `Arithmetic.WrongNumberIsIncorrect` | src/verification/arithmetic.rs:152-166 | A number is Correct exactly if its tag is the stored one, otherwise Incorrect |
| `ArithmeticStore.ArithmeticVerifier.Generate` | src/verification/arithmetic.rs:137-150 | Asks the first bounded of at most 100 draws, or after 100 unbounded ones the fallback; the challenge lives two minutes and allows three attempts |
| `ArithmeticStore.FallbackIsBounded` | src/verification/arithmetic.rs:9-11 | The fallback text is the print of a bounded expression whose answer is 9 |
| `ArithmeticStore.GeneratedIsAnswerable` | src/verification/arithmetic.rs:137-166 | Every challenge that can be asked re-parses to the answer its tag was made for, and that answer evaluates to Correct |
| `ArithmeticStore.UpgradeIsExact` | src/verification/upgrade.rs:29-63 | The upgrade succeeds exactly if every stale open challenge is legacy and canonical, and then re-signs those and no other row |
| `ArithmeticStore.UpgradeIsIdempotent` | src/verification/upgrade.rs:29-63 | A second upgrade changes nothing |
| `ArithmeticStore.UpgradeKeepsVerdicts` | src/verification/upgrade.rs:29-63 | With collision-free tags every reply is judged after the upgrade as before it |
| `ArithmeticStore.UpgradedAnswerIsCorrect` | src/verification/upgrade.rs:29-63 | The printed answer is Correct after the upgrade |
| `ArithmeticStore.ChallengeTable.UpgradeActiveChallengeHmacs` | src/verification/upgrade.rs:29-63 | All or nothing: every stale row is re-signed and counted, or the table is as before and the first problem is reported |

## Left out

- HTTP server, webhook routing and registration, Telegram transport, task scheduling and shutdown: input and output plumbing.
- JSON decoding, column type checks and the fact validator: the model starts from decoded records.
- The detector, Unicode normalization and URL handling: parameters of the model.
- Notification and alert texts, labelled samples, `/health`, `/inspect` and `/errors` replies, and what dry-run traces and audit rows say: they would only add easy members; that traces and audits exist, and until when, is part of `LifecycleLog`.
- HMAC, key derivation, key storage and constant-time comparison: the hash is an uninterpreted function.
- Application of legacy `CONNECTION_CHANGED` events: new code never records them.
- Retry timing of connection lookups and the fatal-error notifier: small fixed bounds.
- Durability of `fsync` on power loss, and hostile changes to the claim directory while a run is in progress: the claim-code model has process crashes with ordered operations.
- Retention of outbox and audit rows as such: in the outbox runs deletion of any set of rows is one step, whatever its reason.
- Liveness of the outbox after a connection row has vanished: a failed settlement is modelled as a lost answer, how often it repeats is not.
- The effect of a settled prompt on its challenge is part of the lifecycle runs, not of the outbox runs.
- In the lifecycle runs alone, forcing dry-run, losing a connection row and changing its rights are steps of their own that may come at any time; `Whole` ties them to the trust steps that cause them.
- In the lifecycle runs alone, the history pass may forget any update that has no queued action; audits and dates come in with `LifecycleLog`.
- LifecycleRuns.ConversationsAreConsistent: stated as long as no late decision did harm, because it is false otherwise; `LifecycleRuns.ConsistentExactly` gives the exact condition over runs and `LifecycleRuns.EveryRunKeeps` what holds regardless.
- TrustRuns.GatedRowHasTrigger: stated for runs whose history passes delete no recorded trigger, because it is false otherwise; `TrustRuns.PurgeStrandsExactly` and `TrustRuns.PurgeStrandsByAge` give the exact condition.
- EventLog.EffectIsOnce: stated while no pass forgets the row, because it is false otherwise; `EventLog.RedeliveryExactly` gives the exact condition.
- LifecycleLog.SilentReplaysExactly: other writers may name only applied updates that left rows before, as the expiry edits do; owner commands with their own audits are not part of this log.
- TrustStore.ConnectionStore.UpsertTrusted: writes the trust rows only; the cascade and the switch to dry-run of the same transaction are in `Whole.Follow`, failing the replaced connection's open actions is `Outbox.RetireAll`.
- OutboxStore.OutboxTable.FinishPermanent: settles the outbox row and its alert; disabling the connection in the same transaction is in `Joint.Settle`, the switch to dry-run in `Whole.Follow`.
- OutboxStore.OutboxTable.FinishUncertain: settles the outbox row and its alert; marking the challenge uncertain is a step of the lifecycle runs.
- OutboxStore.OutboxTable.DispatchNext: readiness and the rights check are its parameters; `Joint` computes both from the trust tables.
- One system of trust, conversations and outbox at once: `Joint` and `Whole` compose them in pairs.
