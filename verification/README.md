# ExtSync, verified

A Dafny model of the parts of ExtSync and of its guessing game that are hardest to get right, with
proofs of what they promise. `dafny verify dfyconfig.toml` checks everything.

Code that changes things in place is a class or a loop here too, proved equal to a transition
function; the theorems are about those functions and about runs of them. Concurrent code is a state
machine whose steps are the stretches between two await points, so a theorem about every run is a
theorem about every interleaving.

**Canonical JSON for signing** (`Utf16`, `Sorting`, `JsonText`, `CanonicalJson`, `JsonNotation`,
`CanonicalWriter`). The TypeScript printer writes the notation of RFC 8259 and has an inverse reader,
its text decides equality up to member order, and the agent's append-and-sort writer produces the same
text. So a signature binds everything except the top-level `signature` member.

**The game unit of work** (`Scoring`, `GameStore`, `GameInvariant`, `GameHistory`, `KeyedMutex`,
`GameSystem`, `GameProgress`, `GameAnswers`, `GameUnitOfWork`). Rounds, hints, guesses, scores, expiry and
advancing, first as transitions with an invariant, then under any number of concurrent requests with
the promise-chain mutex: no request is ever stuck, and a guess is right by the plan, in every run. What the source allows is kept: an abandoned game can become completed, advancing goes on
after completion, and a round nobody visited can be skipped.

**Plans** (`EditDistance`, `RandomSource`, `Distractors`, `DrawnSelections`, `RoundPlans`, `DrawnPlans`,
`PlanIndependence`, `ForumStats`). Levenshtein distance against edit scripts; sampling and shuffling
under any random source; distractor ranking and its fallback tiers; the daily and free-play builders,
and exactly which plans they can draw; independence of the order in which rows arrive.

**The Windows agent** (`FolderSwap`, `UpdateService`, `PipeServer`, `ExtensionBridge`,
`ReloadProtocol`). Replacing a folder while any of its files may be held open, restoring it, a whole
update with a failure possible at any step, and the reload protocol between one agent and any number
of bridges.

**Server state** (`Idempotency`, `DailyPublishing`, `AdminSessions`, `PlayerSessions`, `RateLimits`,
`AdminLogin`). Interleaved requests over the in-memory repositories, and bounds over whole runs.

**Import and moderation** (`Moderation`, `Importer`). Posts under any mix of imports and admin
actions, and one importer run whose every call may throw.

`Options` and `Sets` hold the two general definitions the rest shares.

## What the proofs found

Where the code does not do what one would expect of it, the model follows the code: a case that shows
it is proved, and with it, where the code does so only sometimes, exactly when.

- The journaled copy first deletes the snapshot and then copies the active folder
  (`FolderSwap.cs:54-55`). After a first rename without its second the active folder is gone, so the
  snapshot becomes an empty folder, and the restore that follows "succeeds" with it
  (`LostSnapshotRestoresNothing`; exactly when: `SnapshotSurvives`). The update then reports a rollback
  and an installation that is up to date, with nothing in its folder (`HalfExchangeEmptiesActive`).
- A failing download restores the snapshot although nothing was exchanged, which puts the version
  before the current one in place (`EarlyFailureDowngrades`).
- An exception after the exchange restores the old tree under the new version and sequence; the
  release is then skipped as not newer (`LateFailureMislabels`). On a quiet disk these two are all that
  parts the recorded version from the active tree: `LabelIsRightIff` for one update,
  `LabelAlwaysRightIff` for a run.
- An acknowledgement of an older version drops a newer queued one (`OlderAckDropsNewerVersion`). At any
  step of any run it does so exactly when another version was requested while the acknowledged
  broadcast was under way and has been queued from then on (`DropsUnconfirmedIff`), so never in a run
  whose requests avoid that (`SettledRunLosesNothing`).
- A bridge that reconnects within 15 seconds of the request is not offered the queued version,
  because the request itself counts as an attempt (`OfferedOnRegistration`), although the comment at
  `PipeServer.cs:156-158` says it reloads the moment it reconnects.
- A bridge acknowledges before it reloads, and also when it is configured not to reload
  (`AcknowledgesWithoutReloading`).
- When `run()` throws, its idempotency key is blocked for good (`ThrowBlocksTheKey`).
- Two overlapping requests can each rotate an admin token, which retires the one the first was given;
  exactly when is `SecondRotationIff`, over the steps of a run. Player sessions older than thirty days
  rotate on every bootstrap, because rotation keeps the creation time (`RotatesExactlyWhenOld`).
- An attempt reads the account, verifies the password, and writes what follows from its copy; its time
  is that of its request, taken well before. The lockout bound of five failures, and one per quarter of
  an hour, holds in every interleaving for the span of their request times if no other write overtakes a
  counted failure, and each one overtaken can add as many again (`LockoutBound`). It is tight
  (`LockoutBoundIsReached`), and does not hold for the span in which they are counted
  (`SixFailuresAtOnce`), unless requests reach the account in the order of their times
  (`OrderedLockoutBound`, `OrderedOverlapBound`). Without the term for overtaken failures there is no
  bound (`OverlappingFailuresCountOnce`). An overtaken attempt is let in to a locked account or unlocks
  it (`LockIsPassedByOvertaken`; exactly when: `UnlocksIff`, `LockHoldsUnlessOvertaken`,
  `CountRisesIff`).
- The rate limit lets up to twice the limit through in one span of a window; the bound is tight
  (`TwiceTheLimitIsReached`).
- A divergence detected after an admin read a post does not move its version, so the approval is
  still accepted (`ApprovalIsNotReviewOfTheText`).
- `packages/release-schema/README.md` orders keys by code point. The code orders by UTF-16 code unit,
  and so does the model; they differ only outside the ASCII keys of the schema.
- `JSON.stringify` escapes unpaired surrogates and the C# writer does not; they agree exactly on
  strings without them (`WritersAgreeOnPairedText`).

## Model

| member | source | states |
|---|---|---|
| JsonText.WritersAgreeOnPairedText | apps/agent-windows/ExtSync.Agent/Crypto/CanonicalJson.cs:94-117 | The C# string escaping and the TypeScript one print a string alike exactly when it has no unpaired surrogate |
| JsonText.EscapeIsRead | packages/release-schema/src/index.ts:54-79 | A printed string followed by anything is read back to the same string, and what follows is left untouched |
| JsonText.DecimalIsRead | packages/release-schema/src/index.ts:54-79 | A printed integer followed by no digit is read back to the same integer |
| CanonicalJson.StringReadsBack | packages/release-schema/src/index.ts:54-79 | A quoted string is recognised by its quote and read back before any suffix |
| CanonicalJson.AcceptedIff | packages/release-schema/src/index.ts:54-79 | A value is refused if and only if it is, or holds at some depth, a null or a fraction |
| CanonicalJson.OrderedKeys | packages/release-schema/src/index.ts:72-77 | Sorting an object's members puts the keys in ascending UTF-16 order, each once |
| CanonicalJson.ReadsBack | packages/release-schema/src/index.ts:54-79 | Canonical text has an inverse: reading it before any suffix that cannot extend a number gives the value (members in key order) and leaves the suffix |
| JsonNotation.NotationIs | packages/release-schema/README.md:16-19 | The structural characters and names are those of RFC 8259, and the two special members are named as in the schema |
| JsonNotation.EscapesAre | packages/release-schema/README.md:17 | A quote, a backslash and five control characters have their short escapes; other control characters are written as u00xx escapes in lower case |
| JsonNotation.PlainIsQuoted | packages/release-schema/README.md:17 | Text without quotes, backslashes, control characters and surrogates is quoted as it is |
| JsonNotation.TwoMembersAre | packages/release-schema/src/index.ts:70-77 | An object is in braces, its members in key order, separated by commas and no white space |
| JsonNotation.MemberIs | packages/release-schema/src/index.ts:73-75 | A member is its quoted key, a colon and its value, with no white space |
| JsonNotation.ThreeItemsAre | packages/release-schema/src/index.ts:67-69 | An array is in brackets, its items in their order, separated by commas and no white space |
| JsonNotation.NumbersAre | packages/release-schema/src/index.ts:61-66 | A number is its decimal digits without leading zeros, after a minus sign if negative |
| CanonicalJson.CanonicalTextDecidesEquality | packages/release-schema/src/index.ts:54-79 | Two values have the same canonical text if and only if they are equal up to the order of object members, at every depth |
| CanonicalJson.SignatureIsNotSigned | packages/release-schema/src/index.ts:82-87 | Adding or replacing the top-level signature does not change the signed text |
| CanonicalJson.SignedTextDecidesContent | packages/release-schema/src/index.ts:82-87 | Signed texts are equal if and only if the objects agree outside the top-level signature; a nested member of that name is signed |
| CanonicalJson.SignatureBindsContent | packages/release-schema/src/index.ts:105-130 | With a known key, a signature made over one object verifies on another if and only if the two agree outside the signature, for any signing function that is injective and checked correctly |
| CanonicalJson.SignedIsVerified | packages/release-schema/src/index.ts:105-130 | Metadata with a known key that was signed is verified, for any signing function and a check that accepts its signatures |
| CanonicalJson.VerifiedIff | packages/release-schema/src/index.ts:118-130 | Whatever the object, the keys and the check: verification succeeds if and only if the object names a known key with a non-empty text and carries a signature that this key accepts on the signed text; so an unknown key, a missing signature and a refused text each fail |
| CanonicalWriter.WriteString | apps/agent-windows/ExtSync.Agent/Crypto/CanonicalJson.cs:94-117 | The appending loop appends exactly the escaped string, which on text without unpaired surrogates is the TypeScript one |
| CanonicalWriter.WriteCanonical | apps/agent-windows/ExtSync.Agent/Crypto/CanonicalJson.cs:34-92 | The append-and-sort writer appends exactly the text of the TypeScript recursion, with the excluded member left out, and, for numbers in plain notation, refuses exactly the values that one refuses |
| CanonicalWriter.WriteObject | apps/agent-windows/ExtSync.Agent/Crypto/CanonicalJson.cs:38-55 | The object branch: members collected, sorted, and appended with the first-member flag give the canonical text of the unsorted object |
| CanonicalWriter.WriteArray | apps/agent-windows/ExtSync.Agent/Crypto/CanonicalJson.cs:57-67 | The array branch appends the canonical text of the array |
| CanonicalWriter.CanonicalBytesExcluding | apps/agent-windows/ExtSync.Agent/Crypto/CanonicalJson.cs:20-25 | What the agent verifies is exactly what the TypeScript signer signed, refusals included, for numbers in plain notation |
| EditDistance.Levenshtein | apps/guess/src/game/distractor.ts:21-36 | The table filled row by row ends in the edit distance |
| EditDistance.NoScriptIsShorter | apps/guess/src/game/distractor.ts:21-36 | No script of insertions, deletions and substitutions is shorter than the distance |
| EditDistance.DistanceIsLeast | apps/guess/src/game/distractor.ts:21-36 | Some script attains the distance, and none is shorter |
| EditDistance.DistanceIsMetric | apps/guess/src/game/distractor.ts:21-36 | The distance is zero only on equal strings, symmetric, and obeys the triangle inequality |
| EditDistance.DistanceBounds | apps/guess/src/game/distractor.ts:21-36 | The distance lies between the difference of the lengths and the longer length |
| EditDistance.UsernameSimilarityLaws | apps/guess/src/game/distractor.ts:39-44 | Name similarity is in [0, 1], symmetric, and 1 exactly on names equal after lower-casing |
| EditDistance.EditsAreCounted | apps/guess/src/game/distractor.ts:39-44 | Each edit costs the share of one character of the longer name, until nothing is left |
| EditDistance.SimilarityFloorIsIdle | apps/guess/src/game/distractor.ts:39-44 | The floor at 0 never applies when lower-casing keeps lengths |
| Scoring.FloorIsNeverReached | apps/guess/src/lib/scoring.ts:31-64 | In a round that is not exhausted the score is the curve minus ten per wrong guess: the floor at 0 is never reached and nothing is out of range |
| Scoring.BetterRoundScoresMore | apps/guess/src/lib/scoring.ts:53-59 | No more hints and no more wrong guesses never score less, and score the same only if both are the same |
| GameInvariant.AtMostOneActiveRound | apps/guess/src/game/unit-of-work.ts:193-239 | At most one round of a game is active |
| GameInvariant.TotalScoreIsBounded | apps/guess/src/game/unit-of-work.ts:359-376 | A game's total is between 0 and 100 per round |
| GameInvariant.ExpireKeepsInv | apps/guess/src/game/unit-of-work.ts:182-191 | Expiry keeps the whole invariant: indices, revealed prefix, wrong counts, attempt numbers, scores, total, share token, completion |
| GameInvariant.RevealNextHintKeepsInv | apps/guess/src/game/unit-of-work.ts:311-332 | Revealing a hint keeps the invariant, in particular that exactly the first hints are revealed |
| GameInvariant.SubmitGuessKeepsInv | apps/guess/src/game/unit-of-work.ts:334-380 | A guess keeps the invariant and never ends in a score range error |
| GameInvariant.CreateGameKeepsInv | apps/guess/src/game/unit-of-work.ts:268-286 | A new game on a plan of at most five posts per round keeps the invariant |
| GameInvariant.FinishMaterializeKeepsInv | apps/guess/src/game/unit-of-work.ts:193-239 | Storing a materialised round in an empty slot of the current position keeps the invariant |
| GameInvariant.BeginAdvanceKeepsInv | apps/guess/src/game/unit-of-work.ts:382-409 | Advancing keeps the invariant; no active round is left behind |
| GameHistory.SubmitGuessIsKept | apps/guess/src/game/unit-of-work.ts:334-380 | A guess undoes nothing: rounds that ended never change again, recorded guesses stay, hints, wrong counts, index and total never fall |
| GameHistory.BeginAdvanceIsKept | apps/guess/src/game/unit-of-work.ts:382-409 | Advancing undoes nothing; a completed game stays completed, an abandoned one never becomes in progress |
| GameHistory.ReplayedGuessChangesNothing | apps/guess/src/game/unit-of-work.ts:334-350 | A recorded guess sent again at any later time and in any later state is accepted and changes nothing |
| KeyedMutex.StepKeepsInv | apps/guess/src/game/unit-of-work.ts:142-162 | Every step of any caller keeps the chain of each key: every stored promise settles exactly when all earlier callers of the key have left |
| KeyedMutex.MutualExclusion | apps/guess/src/game/unit-of-work.ts:142-162 | At most one caller per key runs, in every interleaving |
| KeyedMutex.EntersExactlyInTurn | apps/guess/src/game/unit-of-work.ts:142-162 | A caller may enter if and only if everyone who asked for the key before it has left, whether its body returned or threw |
| KeyedMutex.NeverStuck | apps/guess/src/game/unit-of-work.ts:142-162 | While someone waits for a key, an earlier caller runs or the first in line may enter |
| KeyedMutex.AdmittedInOrder | apps/guess/src/game/unit-of-work.ts:142-162 | In every run of any callers: once a caller has entered, everyone who asked for its key before has left, then and at every later step; so one at a time, in order of arrival |
| KeyedMutex.SomeoneGoesOn | apps/guess/src/game/unit-of-work.ts:142-162 | In every state of every run: while someone waits for a key, someone runs or the first in line may enter |
| KeyedMutex.EveryoneGetsIn | apps/guess/src/game/unit-of-work.ts:142-162 | From every such state each waiting caller can be let in: those before it enter and leave, and then it enters |
| KeyedMutex.EveryoneCanStillEnter | apps/guess/src/game/unit-of-work.ts:142-162 | Every run goes on, for each caller that waits, to a state in which that caller runs |
| GameSystem.StepKeepsInv | apps/guess/src/game/unit-of-work.ts:193-409 | Every interleaved step of any number of concurrent operations keeps the store, the mutex and every suspended call consistent |
| GameSystem.RunKeepsInv | apps/guess/src/game/unit-of-work.ts:174-409 | The invariant holds in every state of every run |
| GameSystem.RunOnlyMovesForward | apps/guess/src/game/unit-of-work.ts:174-409 | Whatever happened at some point of a run still stands at every later point |
| GameSystem.OneRoundPerSlot | apps/guess/src/game/unit-of-work.ts:193-239 | Each game and position gets at most one round, over the whole run |
| GameSystem.NeverMaterializedTwice | apps/guess/src/game/unit-of-work.ts:299-309 | Two concurrent visits are never both creating a round of one game |
| GameSystem.ReachableGames | apps/guess/src/game/unit-of-work.ts:174-409 | In every reachable state the total is the sum of the rounds' scores, at most 100 per round; the share token is set if and only if completed, if and only if the index passed the last round |
| GameSystem.ReachableRounds | apps/guess/src/game/unit-of-work.ts:174-409 | In every reachable state each round's revealed posts, wrong count, attempt numbers, status and score fit together, and it is the game's only active one if active |
| GameSystem.NoRangeErrorInAnyRun | apps/guess/src/lib/scoring.ts:31-64 | No request of any run ends in a range error |
| GameAnswers.CorrectIffTargetChosen | apps/guess/src/game/unit-of-work.ts:354-376 | In every state of every run a recorded guess is correct if and only if the choice of its id among its round's choices, which are those of the plan in the plan's order, is of the plan's target |
| GameAnswers.ResolvedIffTargetChosen | apps/guess/src/game/unit-of-work.ts:359-376 | In every state of every run a round is resolved correctly if and only if some guess on it chose the plan's target |
| GameAnswers.RunKeepsAnswers | apps/guess/src/game/unit-of-work.ts:193-239 | In every state of every run each round offers the plan's choices in order and every guess on record was judged by the plan's target |
| GameAnswers.GuessAcceptedIff | apps/guess/src/game/unit-of-work.ts:334-380 | A guess nobody sent before is recorded if and only if its sender owns the round, the round is active and in time, and the choice is one of its choices; nothing else is recorded |
| GameAnswers.RefusedGuessLeavesRound | apps/guess/src/game/unit-of-work.ts:334-357 | A refused guess leaves round and game to the clock: no wrong guess is counted, and nothing but expiry happens to either status |
| GameAnswers.HintGivenIff | apps/guess/src/game/unit-of-work.ts:311-332 | One more post is revealed if and only if the round is its owner's, active, in time, and has one left |
| GameAnswers.AdvanceMovesIff | apps/guess/src/game/unit-of-work.ts:382-409 | An owner's request to advance is refused if and only if the current round is open; otherwise the position rises by one, and the game is completed and shared if and only if that leaves the last round behind |
| GameAnswers.RoundIsOpenForTwoMinutes | apps/guess/src/game/unit-of-work.ts:193-239 | A round takes guesses for exactly two minutes from when it was created |
| GameAnswers.GameIsOpenForADay | apps/guess/src/game/unit-of-work.ts:182-191 | A game in progress is abandoned exactly when a day has passed since it began |
| GameProgress.BeginsIff | apps/guess/src/game/unit-of-work.ts:299-409 | A request begins if and only if every earlier one with its lock has left: reading and advancing lock the game, hints and guesses the round |
| GameProgress.EveryRequestCanFinish | apps/guess/src/game/unit-of-work.ts:142-409 | From every state the invariant allows, some steps bring any request to its end, with an answer and its lock released |
| GameProgress.EveryRunCanFinish | apps/guess/src/game/unit-of-work.ts:142-409 | Every run goes on, for each of its requests, to a state in which that request has been answered |
| GameUnitOfWork.InMemoryGames.CreateOrResumeDailyGame | apps/guess/src/game/unit-of-work.ts:242-266 | A session has one game per daily challenge: a second request finds the first game and changes nothing |
| GameUnitOfWork.InMemoryGames.CreateFreeplayGame | apps/guess/src/game/unit-of-work.ts:268-286 | The new game is in progress at position 0 with its plan, and nothing else changes |
| GameUnitOfWork.InMemoryGames.Expire | apps/guess/src/game/unit-of-work.ts:182-191 | The record updates are the expiry transition and keep the invariant |
| GameUnitOfWork.InMemoryGames.RevealNextHint | apps/guess/src/game/unit-of-work.ts:311-332 | The method is the transition: errors in the source's order, expiry first, at most one more post revealed |
| GameUnitOfWork.InMemoryGames.FindChoiceOf | apps/guess/src/game/unit-of-work.ts:354-357 | The first choice of that id, or none if there is none |
| GameUnitOfWork.InMemoryGames.SubmitGuess | apps/guess/src/game/unit-of-work.ts:334-380 | The method is the transition: replay before expiry, inactive and invalid choices refused, the guess numbered and scored |
| GameUnitOfWork.InMemoryGames.StoreGuess | apps/guess/src/game/unit-of-work.ts:359-378 | Records the guess with the next attempt number and resolves, scores or exhausts the round |
| GameUnitOfWork.InMemoryGames.BeginAdvance | apps/guess/src/game/unit-of-work.ts:382-409 | The method is the transition up to its await: refused mid-round, else the index rises and the game is completed past its last round |
| GameUnitOfWork.InMemoryGames.BeginMaterialize | apps/guess/src/game/unit-of-work.ts:193-200 | An existing round is found, a position outside the plan is refused, otherwise a new round is wanted |
| GameUnitOfWork.InMemoryGames.FinishMaterialize | apps/guess/src/game/unit-of-work.ts:201-239 | Stores the round with one revealed post and the plan's posts and choices, in its slot |
| FolderSwap.Disk.CopyDir | apps/agent-windows/ExtSync.Agent/Services/FolderSwap.cs:130-140 | Copies every file, whatever the order of enumeration, over what is there |
| FolderSwap.Disk.Overwrite | apps/agent-windows/ExtSync.Agent/Services/FolderSwap.cs:61-79 | Writes exactly the staging files that are not held open, and reports whether one was |
| FolderSwap.Disk.CleanUp | apps/agent-windows/ExtSync.Agent/Services/FolderSwap.cs:81-93 | Deletes exactly the files that staging does not have, unless held open or the journal |
| FolderSwap.Disk.JournaledCopy | apps/agent-windows/ExtSync.Agent/Services/FolderSwap.cs:50-99 | The method is the copy strategy as a state transition |
| FolderSwap.Disk.Replace | apps/agent-windows/ExtSync.Agent/Services/FolderSwap.cs:15-48 | The method is the replacement: two renames, else the copy strategy, else the exception |
| FolderSwap.Disk.RestoreFromRollback | apps/agent-windows/ExtSync.Agent/Services/FolderSwap.cs:102-128 | The method is the restore by either strategy, false when there is no snapshot or a file is held open |
| FolderSwap.ReplaceOutcome | apps/agent-windows/ExtSync.Agent/Services/FolderSwap.cs:15-99 | Unless the second rename fails alone, the result is a restart pending if and only if the copy path met a held staging path; the snapshot is the old tree |
| FolderSwap.ThrowsIff | apps/agent-windows/ExtSync.Agent/Services/FolderSwap.cs:15-60 | A replacement fails if and only if there is no new folder, or a first rename is left without its second |
| FolderSwap.FirstInstall | apps/agent-windows/ExtSync.Agent/Services/FolderSwap.cs:18-24 | Without an active folder the new one becomes it, and no other folder is touched |
| FolderSwap.MissingStaging | apps/agent-windows/ExtSync.Agent/Services/FolderSwap.cs:26-63 | Without a new folder the replacement fails; the active folder stays and is copied to the snapshot, unless it was renamed first |
| FolderSwap.ReplaceContents | apps/agent-windows/ExtSync.Agent/Services/FolderSwap.cs:15-99 | Path by path: held files keep old content, other staging paths hold new content, all else is gone except a stray journal |
| FolderSwap.WholeNewTree | apps/agent-windows/ExtSync.Agent/Services/FolderSwap.cs:15-99 | With nothing held open the new tree arrives whole if and only if no stray journal file survives |
| FolderSwap.SnapshotSurvives | apps/agent-windows/ExtSync.Agent/Services/FolderSwap.cs:15-60 | The snapshot is the old tree if and only if no first rename was left without its second, or every file was held open |
| FolderSwap.LostSnapshotRestoresNothing | apps/agent-windows/ExtSync.Agent/Services/FolderSwap.cs:50-60 | A first rename without its second deletes the only copy of the old tree, and the following restore reports success on an empty folder |
| FolderSwap.SnapshotOverLeftover | apps/agent-windows/ExtSync.Agent/Services/FolderSwap.cs:50-60 | An old snapshot that could not be removed is merged into; the result is the old tree if and only if no foreign file was left |
| FolderSwap.RestoreIsExact | apps/agent-windows/ExtSync.Agent/Services/FolderSwap.cs:102-128 | With nothing held open the restore gives back exactly the snapshot, by either strategy, and succeeds if and only if there is one |
| FolderSwap.RestoreUnderLocks | apps/agent-windows/ExtSync.Agent/Services/FolderSwap.cs:102-128 | Under any locks every file is the snapshot's or a held old one, and success means every snapshot file is in place |
| FolderSwap.RestoreSucceedsIff | apps/agent-windows/ExtSync.Agent/Services/FolderSwap.cs:102-128 | A restore succeeds if and only if there is a snapshot and no file of it is held open in an active folder that could not be moved away; what was active is kept as the failed version |
| FolderSwap.RestoreUndoesReplace | apps/agent-windows/ExtSync.Agent/Services/FolderSwap.cs:15-128 | Whatever was held open during a replacement, an unlocked restore gives back exactly the old tree |
| UpdateService.Updater.ApplyUpdate | apps/agent-windows/ExtSync.Agent/Services/UpdateService.cs:98-199 | The method is the update as a state transition: checks in the source's order, staging, exchange, label, reload |
| UpdateService.Updater.TryRollback | apps/agent-windows/ExtSync.Agent/Services/UpdateService.cs:201-213 | Restores the snapshot and records whether that worked; version and sequence stay |
| UpdateService.Updater.Fail | apps/agent-windows/ExtSync.Agent/Services/UpdateService.cs:215-223 | A refusal sets status and error and touches no folder |
| UpdateService.Updater.Swap | apps/agent-windows/ExtSync.Agent/Services/UpdateService.cs:153-199 | The exchange with what follows it, or the recovery |
| UpdateService.RecordMovesOnlyAfterChecks | apps/agent-windows/ExtSync.Agent/Services/UpdateService.cs:98-199 | Version and sequence move if and only if every check passed and the folders were exchanged |
| UpdateService.RefusalKeepsFolders | apps/agent-windows/ExtSync.Agent/Services/UpdateService.cs:98-150 | A refusal leaves every folder but staging alone and reports success only for a release that is not newer |
| UpdateService.RefusalSaysWhy | apps/agent-windows/ExtSync.Agent/Services/UpdateService.cs:98-150 | The first check that fails, in the source's order, is the error given and stored; a release that is not newer is no failure and changes nothing |
| UpdateService.SuccessInstallsNewTree | apps/agent-windows/ExtSync.Agent/Services/UpdateService.cs:98-199 | On a quiet disk a release that passes every check becomes the active tree, with the old one as snapshot; up to date only after an acknowledged reload |
| UpdateService.ExchangeOutcome | apps/agent-windows/ExtSync.Agent/Services/UpdateService.cs:155-199 | Under any locks an exchange that is not taken back moves the label, asks for a restart if and only if a file was held open while copying, and is up to date if and only if none was and the bridge acknowledged the reload |
| UpdateService.RecoveryOutcome | apps/agent-windows/ExtSync.Agent/Services/UpdateService.cs:201-213 | A recovery is reported as rolled back if and only if the restore succeeds, else as broken, and keeps the label |
| UpdateService.HalfExchangeEmptiesActive | apps/agent-windows/ExtSync.Agent/Services/UpdateService.cs:155-213 | A first rename left without its second leaves an empty active folder, reported as rolled back and up to date |
| UpdateService.EarlyFailureDowngrades | apps/agent-windows/ExtSync.Agent/Services/UpdateService.cs:201-213 | A failing download or extraction puts the previous snapshot in place; the active tree is unchanged if and only if there is no different one |
| UpdateService.LateFailureMislabels | apps/agent-windows/ExtSync.Agent/Services/UpdateService.cs:155-213 | An exception after the exchange restores the old tree under the new label; the same release is then skipped for good |
| UpdateService.LabelIsRightIff | apps/agent-windows/ExtSync.Agent/Services/UpdateService.cs:98-213 | On a quiet disk the recorded version is that of the active tree if and only if no exchange was taken back by a later exception and no earlier failure put a different snapshot in place; also from a state where it was wrong before |
| UpdateService.LastAttemptDecidesLabel | apps/agent-windows/ExtSync.Agent/Services/UpdateService.cs:98-213 | After any run the installation records the label of the last exchange, and the last attempt decides whether its tree is active |
| UpdateService.LabelAlwaysRightIff | apps/agent-windows/ExtSync.Agent/Services/UpdateService.cs:98-213 | The recorded version is that of the active tree throughout a run if and only if no attempt of it mislabels |
| UpdateService.ActiveIsWhole | apps/agent-windows/ExtSync.Agent/Services/UpdateService.cs:98-213 | On a quiet disk the active tree is the old, the new or the previous tree, whatever fails |
| UpdateService.StoreAgrees | apps/agent-windows/ExtSync.Agent/Services/UpdateService.cs:98-223 | The stored record equals the one in memory after any run |
| UpdateService.SequenceNeverFalls | apps/agent-windows/ExtSync.Agent/Services/UpdateService.cs:98-199 | Without rollback releases the recorded sequence never falls over a run |
| UpdateService.NoForeignFiles | apps/agent-windows/ExtSync.Agent/Services/UpdateService.cs:98-213 | Under any locks and failures of any run, every active and snapshot file comes from the start or from an archive that passed every check |
| UpdateService.ActiveIsWholeInAnyRun | apps/agent-windows/ExtSync.Agent/Services/UpdateService.cs:98-213 | In any run on a quiet disk active and snapshot are each one whole tree, never a mixture |
| PipeServer.Server.RemoveConnection | apps/agent-windows/ExtSync.Agent/Services/PipeServer.cs:96-107 | Takes the connection out; the project goes, with its event, when it was the last |
| PipeServer.Server.HandleMessage | apps/agent-windows/ExtSync.Agent/Services/PipeServer.cs:109-146 | Registration, heartbeat, acknowledgement and unknown messages, by message type |
| PipeServer.HandledRemembers | apps/agent-windows/ExtSync.Agent/Services/PipeServer.cs:109-131 | A message that names a project makes its connection one of that project |
| PipeServer.RegistersForLastNamed | apps/agent-windows/ExtSync.Agent/Services/PipeServer.cs:109-131 | A registration that names no project is for the one its connection named last, and for none before that |
| PipeServer.Server.EndConnection | apps/agent-windows/ExtSync.Agent/Services/PipeServer.cs:89-93 | A connection that ends is removed from the project it registered for |
| PipeServer.Server.RequestReload | apps/agent-windows/ExtSync.Agent/Services/PipeServer.cs:154-163 | Queues the version and starts a broadcast if a connection is there |
| PipeServer.Server.ClearPendingReload | apps/agent-windows/ExtSync.Agent/Services/PipeServer.cs:166 | Forgets the queued version and nothing else |
| PipeServer.Server.TryFlushPendingReload | apps/agent-windows/ExtSync.Agent/Services/PipeServer.cs:168-180 | Drops a version already running, waits 15 seconds between attempts, else broadcasts again |
| PipeServer.Server.Write | apps/agent-windows/ExtSync.Agent/Services/PipeServer.cs:201-213 | One write to one connection, delivered or not |
| PipeServer.Server.FinishSending | apps/agent-windows/ExtSync.Agent/Services/PipeServer.cs:214-218 | Returns false at once if nothing was delivered, else waits |
| PipeServer.Server.Expire | apps/agent-windows/ExtSync.Agent/Services/PipeServer.cs:221-222 | The timeout completes nothing that was acknowledged |
| PipeServer.Server.Wake | apps/agent-windows/ExtSync.Agent/Services/PipeServer.cs:223-226 | The broadcast returns its outcome, drops the queued version on success and retires its nonce |
| ExtensionBridge.ExtSyncBridge.Connect | packages/extension-bridge/src/core.ts:102-120 | Registers with the running version if the host is there; a port that throws on that first message is given up |
| ExtensionBridge.ExtSyncBridge.Send | packages/extension-bridge/src/core.ts:122-139 | Sends exactly when connected and the port does not throw; a port that throws is given up |
| ExtensionBridge.ExtSyncBridge.HandleDisconnect | packages/extension-bridge/src/core.ts:210-216 | The bridge is no longer connected |
| ExtensionBridge.ExtSyncBridge.HandleMessage | packages/extension-bridge/src/core.ts:141-169 | Messages for other projects are ignored; a reload notice is answered |
| ExtensionBridge.ExtSyncBridge.HandleReloadReady | packages/extension-bridge/src/core.ts:176-190 | Remembers the nonce, acknowledges it, and reloads if configured to |
| ExtensionBridge.ExtSyncBridge.Reload | packages/extension-bridge/src/core.ts:193-200 | Refuses a nonce that is not the last one requested |
| ExtensionBridge.AnswersIff | packages/extension-bridge/src/core.ts:141-200 | A reload notice for this project with a nonce is acknowledged with it if and only if the port is there and does not throw, and followed by one reload if and only if that is configured; everything else is ignored |
| ReloadProtocol.NextKeepsInv | apps/agent-windows/ExtSync.Agent/Services/PipeServer.cs:96-227 | Every step of the agent, of any bridge or of the world keeps the protocol invariant |
| ReloadProtocol.RunKeepsInv | apps/agent-windows/ExtSync.Agent/Services/PipeServer.cs:96-227 | The invariant holds in every state of every run |
| ReloadProtocol.TrueMeansAcknowledged | apps/agent-windows/ExtSync.Agent/Services/PipeServer.cs:182-227 | A broadcast that returned returned true if and only if its task was completed by an acknowledgement, and then a bridge of its project was sent its nonce and wrote the acknowledgement of it |
| ReloadProtocol.NoncesCompleteOnce | apps/agent-windows/ExtSync.Agent/Services/PipeServer.cs:182-227 | A nonce is completed at most once, its outcome never changes, and it never outlives its broadcast |
| ReloadProtocol.ConnectedIffLastEventSaysSo | apps/agent-windows/ExtSync.Agent/Services/PipeServer.cs:96-133 | A project has a connection if and only if its last event was a connection, and each such connection is alive and serves that project |
| ReloadProtocol.DisconnectedExactlyWhenLastLeaves | apps/agent-windows/ExtSync.Agent/Services/PipeServer.cs:96-107 | A step announces a disconnection if and only if it removes the project's last connection |
| ReloadProtocol.DisconnectedIffOnlyOneLeft | apps/agent-windows/ExtSync.Agent/Services/PipeServer.cs:96-107 | A disconnection is announced if and only if the project's connections were exactly the one that leaves |
| ReloadProtocol.LeavesIff | apps/agent-windows/ExtSync.Agent/Services/PipeServer.cs:89-107 | A listed connection leaves the list if and only if the step is its own end or a failed write to it for its project |
| ReloadProtocol.EntersIff | apps/agent-windows/ExtSync.Agent/Services/PipeServer.cs:109-133 | A connection enters the list if and only if the step is its own registration |
| ReloadProtocol.ConnectedIffRegisters | apps/agent-windows/ExtSync.Agent/Services/PipeServer.cs:109-133 | A connection is announced by each registration for the project and by nothing else |
| ReloadProtocol.BeginsWithEveryone | apps/agent-windows/ExtSync.Agent/Services/PipeServer.cs:182-199 | A new broadcast is for all connections its project then has |
| ReloadProtocol.BroadcastIffConnected | apps/agent-windows/ExtSync.Agent/Services/PipeServer.cs:154-163 | A request queues its version, and is broadcast at once if and only if the project has a connection |
| ReloadProtocol.EveryBroadcastCanEnd | apps/agent-windows/ExtSync.Agent/Services/PipeServer.cs:199-227 | From every state with a broadcast under way some steps end it, and it returns whether it was acknowledged |
| ReloadProtocol.AckedInTimeReturnsTrue | apps/agent-windows/ExtSync.Agent/Services/PipeServer.cs:134-146 | An acknowledgement that is read while its broadcast waits lets it return true and empties the queue |
| ReloadProtocol.QueueDropCauses | apps/agent-windows/ExtSync.Agent/Services/PipeServer.cs:154-227 | A queued version is dropped if and only if by an acknowledgement for the project, a registration that runs it, a request for another version, or a clear |
| ReloadProtocol.OlderAckDropsNewerVersion | apps/agent-windows/ExtSync.Agent/Services/PipeServer.cs:212-227 | A run in which the acknowledgement of version 11 takes the never-offered version 12 out of the queue |
| ReloadProtocol.DropsUnconfirmedIff | apps/agent-windows/ExtSync.Agent/Services/PipeServer.cs:154-227 | At any step of any run an acknowledgement drops a version it does not confirm if and only if another version was requested while the acknowledged broadcast was under way and has been queued from then on |
| ReloadProtocol.SettledRequestsStayInStep | apps/agent-windows/ExtSync.Agent/Services/PipeServer.cs:154-227 | A request made while no broadcast of another version is under way keeps queue and broadcasts in step |
| ReloadProtocol.SettledRunStaysInStep | apps/agent-windows/ExtSync.Agent/Services/PipeServer.cs:154-227 | If all requests of a project are made so, every broadcast under way carries the queued version in every state of the run |
| ReloadProtocol.SettledRunLosesNothing | apps/agent-windows/ExtSync.Agent/Services/PipeServer.cs:154-227 | Then no acknowledgement of the run drops a version it does not confirm, by the exact condition above |
| ReloadProtocol.OfferedOnRegistration | apps/agent-windows/ExtSync.Agent/Services/PipeServer.cs:168-180 | A registering bridge is offered the queued version if and only if it runs another and 15 seconds passed since the last attempt, the request counting as the first |
| ReloadProtocol.AcknowledgesWithoutReloading | packages/extension-bridge/src/core.ts:176-190 | The acknowledgement is written whether or not the extension reloads |
| RandomSource.Mulberry32.Next | apps/guess/src/game/random.ts:9-17 | The next draw of the 32-bit state is in [0, 1) |
| RandomSource.KnownDraws | apps/guess/src/game/random.ts:9-17 | The first three draws of seed 0, and the first of the largest seed |
| RandomSource.PickedSize | apps/guess/src/game/random.ts:35-45 | A sample has the size asked for, or all there is |
| RandomSource.PickedIsSample | apps/guess/src/game/random.ts:35-45 | A sample takes no item more often than it is there, and everything when asked for as much, for any source |
| RandomSource.EveryArrangementIsDrawn | apps/guess/src/game/random.ts:35-45 | Every arrangement is the sample of some draws: none is shut out |
| RandomSource.EverySampleIsDrawn | apps/guess/src/game/random.ts:35-45 | Every sample of any size, in every order, is drawn by some draws, that differ from any given ones only there |
| RandomSource.PickWithoutReplacement | apps/guess/src/game/random.ts:35-45 | The splicing loop computes the specified sample |
| RandomSource.ShuffledIsArrangement | apps/guess/src/game/distractor.ts:101-108 | The shuffle is a permutation for any source |
| RandomSource.EveryArrangementIsShuffled | apps/guess/src/game/distractor.ts:101-108 | Every permutation is the outcome of some draws |
| RandomSource.ShuffleInPlace | apps/guess/src/game/distractor.ts:101-108 | The swaps in the array compute the specified shuffle |
| Distractors.CategorySimilarityLaws | apps/guess/src/game/distractor.ts:47-54 | In [0, 1], symmetric, 1 exactly on equal category sets, 0 exactly on different disjoint ones |
| Distractors.PeriodSimilarityLaws | apps/guess/src/game/distractor.ts:66-83 | For periods that run forwards: in [0, 1], symmetric, 1 exactly on the same period longer than a moment, 0 exactly on periods that share no more than a moment |
| Distractors.FewerCategoriesCountByShare | apps/guess/src/game/distractor.ts:47-54 | Categories that are all among the other's count for their share of them |
| Distractors.ShorterPeriodCountsByShare | apps/guess/src/game/distractor.ts:66-78 | A period inside the other counts for its share of it; an unknown one for one half |
| Distractors.ScoreInRange | apps/guess/src/game/distractor.ts:90-99 | The weighted score is in [0, 1] |
| Distractors.PartsWeigh | apps/guess/src/game/distractor.ts:80-99 | Where five of the six parts agree fully, the score falls short of 1 by the weight of the sixth times what that lacks |
| Distractors.DeterministicOrderIsDescending | apps/guess/src/game/distractor.ts:116-121 | A score-descending permutation of its input |
| Distractors.RandomOrderIsDescending | apps/guess/src/game/distractor.ts:124-137 | A score-descending permutation of its input, for any source |
| Distractors.RandomlyOrdered | apps/guess/src/game/distractor.ts:124-137 | The loop over runs of equal scores computes that order and uses the specified number of draws |
| Distractors.OneDrawForEachTie | apps/guess/src/game/distractor.ts:101-137 | The order takes one draw for each user that ties with the one before; none is skipped |
| Distractors.DeterministicOrderBreaksTiesById | apps/guess/src/game/distractor.ts:116-121 | Without a source, users of equal score stand in the order of their ids |
| Distractors.EveryTieOrderIsDrawn | apps/guess/src/game/distractor.ts:124-137 | With a source, every arrangement by descending score is drawn: no order among ties is shut out |
| Distractors.DedupedHas | apps/guess/src/game/distractor.ts:153-165 | De-duplication keeps exactly the ids that occur |
| Distractors.DedupedAreLast | apps/guess/src/game/distractor.ts:164 | Of several users with one id the last one counts |
| Distractors.CandidatesAreEligible | apps/guess/src/game/distractor.ts:153-165 | The candidates are one user of the pool for each eligible id |
| Distractors.SelectSucceedsIff | apps/guess/src/game/distractor.ts:166-175 | A selection succeeds if and only if enough different users are eligible |
| Distractors.SelectedAreEligible | apps/guess/src/game/distractor.ts:153-175 | As many as asked for, all different, from the pool, never the target or an excluded user |
| Distractors.SelectedAreTop | apps/guess/src/game/distractor.ts:153-175 | No candidate left out outscores one selected |
| Distractors.ModesAgreeOnScores | apps/guess/src/game/distractor.ts:153-175 | Both modes return the same sequence of scores, whatever the source draws |
| Distractors.FallbackTiers | apps/guess/src/game/distractor.ts:193-213 | Unused users if there are enough, else users that were no target, else anyone; fails if and only if the pool is too small |
| DrawnSelections.SelectedCanBeChosen | apps/guess/src/game/distractor.ts:153-175 | What is selected are different candidates in rank order, by id among ties where no source is used, none outranked by a candidate left out |
| DrawnSelections.EverySelectionIsDrawn | apps/guess/src/game/distractor.ts:153-175 | Every such row of candidates is selected, for some draws that differ from any given ones only there |
| Distractors.SelectDistractors | apps/guess/src/game/distractor.ts:153-175 | The method computes the specified selection |
| Distractors.SelectDistractorsWithFallback | apps/guess/src/game/distractor.ts:193-213 | The method computes the specified three-tier selection |
| RoundPlans.RoundsAreWellFormed | apps/guess/src/game/daily-challenge.ts:108-142 | Every round has its position as order, five different posts of its target, and the target among exactly four different users of the pool; planning fails if and only if some target cannot be given a round |
| RoundPlans.DailyPlanIsBuilt | apps/guess/src/game/daily-challenge.ts:94-145 | On at least five different users with enough posts it never fails, for any source, and gives five well-formed rounds about different targets |
| RoundPlans.FreePlayPlanIsBuilt | apps/guess/src/game/freeplay.ts:27-70 | On at least four different users with enough posts it never fails, for any source, and all rounds are well formed |
| RoundPlans.LargePoolsAvoidRepeats | apps/guess/src/game/distractor.ts:193-213 | With four users for every round no round has a distractor used in an earlier one |
| RoundPlans.DailyAvoidsRepeats | apps/guess/src/game/daily-challenge.ts:94-145 | On twenty different users only a target is ever seen again |
| RoundPlans.FreePlayAvoidsRepeats | apps/guess/src/game/freeplay.ts:27-70 | On forty different users only a target is ever seen again |
| RoundPlans.FreePlayIsEven | apps/guess/src/game/freeplay.ts:27-45 | Any two users are targets equally often, up to one round |
| RoundPlans.NextRound | apps/guess/src/game/daily-challenge.ts:108-142 | One turn of the loop computes the specified step: too few posts, too few users, or the round and the grown sets |
| RoundPlans.BuildDailyChallengePlan | apps/guess/src/game/daily-challenge.ts:94-145 | The loop computes the specified plan, errors included |
| RoundPlans.BuildFreeplayRoundPlan | apps/guess/src/game/freeplay.ts:27-70 | The loop computes the specified plan, errors included |
| DrawnPlans.EveryChoiceOrderIsDrawn | apps/guess/src/game/freeplay.ts:64 | In free-play and in daily rounds every arrangement of the target and the distractors is the round's choices, for some draws that change nothing before them |
| DrawnPlans.PlanIsDrawnIff | apps/guess/src/game/freeplay.ts:27-70 | Rounds are the daily or the free-play plan of a pool for some draws if and only if each is about the next of an arrangement of the pool, shows any five of its posts in any order, and offers the target with any row of selectable distractors in any order |
| DrawnPlans.ChoicesInAnyOrder | apps/guess/src/game/freeplay.ts:64 | A plan that is drawn with the choices of one round in any other order is drawn too |
| DrawnPlans.TargetAtEveryPlace | apps/guess/src/game/freeplay.ts:64 | In every round of every plan that is drawn the target can stand at each of the four places, everything else unchanged |
| PlanIndependence.SimilarityIgnoresListOrder | apps/guess/src/game/distractor.ts:90-99 | The score does not depend on the order of posts or categories |
| PlanIndependence.DailyPlanIgnoresEveryOrder | apps/guess/src/game/daily-challenge.ts:75-145 | Permuting the pool, every user's posts and every category list in any combination leaves the daily plan of a seed as it is |
| PlanIndependence.SimilarityPlansIgnoreEveryOrder | apps/guess/src/game/daily-challenge.ts:75-145 | In particular with the similarity score itself |
| Sorting.SortIsSorted | apps/guess/src/game/distractor.ts:116-121 | Sorting gives a sorted permutation, for any ranking |
| Sorting.SortForgetsOrder | apps/guess/src/game/daily-challenge.ts:75-77 | Permutations of distinctly ranked items sort alike |
| ForumStats.ComputeForumUserStats | apps/guess/src/importer/stats.ts:55-92 | The counting map and the two update loops compute the specified statistics |
| ForumStats.StatsIgnorePostOrder | apps/guess/src/importer/stats.ts:55-92 | Permuting a user's posts does not change any statistic |
| ForumStats.TopCategoriesAreMostFrequent | apps/guess/src/importer/stats.ts:66-73 | At most five, all occurring, by frequency with ties by id; every one left out ranks below every one kept |
| ForumStats.ActivityBounds | apps/guess/src/importer/stats.ts:75-80 | First and last activity are the least and the greatest time, none if there is no post |
| ForumStats.ApprovedAreCounted | apps/guess/src/importer/stats.ts:56-59 | The counts are of all posts and of the approved ones |
| ForumStats.AveragesAreOfApproved | apps/guess/src/importer/stats.ts:61-65 | The averages are of the approved posts, the words to the nearest integer, and 0 without any |
| ForumStats.AverageIsMean | apps/guess/src/importer/stats.ts:61-65 | An average times how many there are is their sum, and lies between any bounds of theirs |
| Idempotency.JoinedIsInjective | apps/guess/src/http/idempotency.ts:41-48 | Different pairs of a valid key and an endpoint have different map keys |
| Idempotency.InMemoryRepository.ReserveOrGet | apps/guess/src/http/idempotency.ts:41-48 | Reserves if and only if nobody had; the record returned is the stored one |
| Idempotency.InMemoryRepository.CompleteResponse | apps/guess/src/http/idempotency.ts:49-55 | Stores the response under its key and nothing else |
| Idempotency.RunKeepsInv | apps/guess/src/http/idempotency.ts:80-105 | In every state of every interleaving each reserved key is owned by exactly one request |
| Idempotency.RunsAtMostOnce | apps/guess/src/http/idempotency.ts:80-105 | At most one request per key and endpoint ever goes into run() |
| Idempotency.AnswersReferToTheRun | apps/guess/src/http/idempotency.ts:80-105 | Every other answer refers to that run: a replay is its response, and a conflict is answered if and only if the payload differs |
| Idempotency.RunsIff | apps/guess/src/http/idempotency.ts:80-93 | A request goes into run() if and only if none of its key and endpoint has; otherwise it looks at the record |
| Idempotency.DecisionIff | apps/guess/src/http/idempotency.ts:94-105 | By the request that ran: a conflict if and only if the payload is another one; else a replay of its response if and only if it has stored it by then, and in flight if and only if it has not |
| Idempotency.LateRepeatIsReplayed | apps/guess/src/http/idempotency.ts:94-105 | Every repeat that arrives after the first request is complete gets its response |
| Idempotency.ReturnedIsAnswered | apps/guess/src/http/idempotency.ts:86-93 | What run() returned is what its request is answered |
| Idempotency.NobodyWaits | apps/guess/src/http/idempotency.ts:80-105 | In every state of every run each request not yet answered can go on |
| Idempotency.ThrowBlocksTheKey | apps/guess/src/http/idempotency.ts:80-105 | After run() threw, later requests with its key end as conflict or in flight, for ever |
| DailyPublishing.CuratedPool.PublishDailyChallenge | apps/guess/src/game/curated-pool-repository.ts:42-48 | The first publication of a date wins and every later one returns it |
| DailyPublishing.RacersGetOneChallenge | apps/guess/src/game/daily-challenge-service.ts:14-26 | All requests for a date, however they race and whatever the pool does meanwhile, are served one challenge, a plan of that date |
| DailyPublishing.DailyRacersGetOneChallenge | apps/guess/src/game/daily-challenge-service.ts:14-26 | With the builder in use: that challenge is the daily plan of some pool with the date's seeds |
| DailyPublishing.PublishedStays | apps/guess/src/game/curated-pool-repository.ts:42-48 | A published challenge never changes |
| DailyPublishing.FirstBuiltIsPublished | apps/guess/src/game/daily-challenge-service.ts:14-26 | The challenge of a date is the plan of the first request of that date that could build one, from the pool as it then was |
| DailyPublishing.BuiltIsServed | apps/guess/src/game/daily-challenge-service.ts:14-26 | A request that finds nothing published is served if and only if a plan can be built, with its own if it is the first to publish, else with the one published meanwhile |
| DailyPublishing.EveryoneIsAnswered | apps/guess/src/game/daily-challenge-service.ts:14-26 | Every request is served what is published, or builds, and is then served or refused |
| AdminSessions.Repository.CreateSession | apps/guess/src/http/admin-session.ts:85-99 | Stores the session and indexes its token |
| AdminSessions.Repository.FindSessionByTokenHash | apps/guess/src/http/admin-session.ts:100-104 | The session of the token, its record refreshed with whether the admin is active now |
| AdminSessions.Repository.ExtendExpiry | apps/guess/src/http/admin-session.ts:105-108 | Moves the expiry of one session only |
| AdminSessions.Repository.RotateToken | apps/guess/src/http/admin-session.ts:109-116 | The old token leaves the index, the new one enters it |
| AdminSessions.Repository.RevokeSession | apps/guess/src/http/admin-session.ts:117-120 | Revokes one session and touches no other |
| AdminSessions.Repository.RevokeAllSessionsForAdmin | apps/guess/src/http/admin-session.ts:121-132 | Revokes every live session of the admin but the excepted one and counts them |
| AdminSessions.RunKeepsInv | apps/guess/src/http/admin-session.ts:67-226 | Token index and sessions are in bijection in every state, and no expiry passes creation plus seven days |
| AdminSessions.RunEvolves | apps/guess/src/http/admin-session.ts:67-226 | Over any stretch of a run expiry never decreases, revocation is permanent, retired tokens stay retired |
| AdminSessions.RetiredTokenNeverAuthenticates | apps/guess/src/http/admin-session.ts:171-178 | A request with a rotated-out token is refused, at any later time |
| AdminSessions.RotationRetires | apps/guess/src/http/admin-session.ts:202-226 | Rotation retires the token the session had before |
| AdminSessions.RevokedNeverPasses | apps/guess/src/http/admin-session.ts:163-178 | A session once revoked, or past seven days, never passes the check |
| AdminSessions.GuardAlwaysHolds | apps/guess/src/http/admin-session.ts:212-222 | The guard that the proposed expiry lies ahead holds on every reachable path |
| AdminSessions.RenewalNeverShortens | apps/guess/src/http/admin-session.ts:202-226 | A renewal never moves the expiry back nor past the cap |
| AdminSessions.DeactivatedNeverPasses | apps/guess/src/http/admin-session.ts:76-81 | While an admin stays inactive, a session whose record says so passes no check |
| AdminSessions.RetiresIff | apps/guess/src/http/admin-session.ts:202-226 | In any state of any run a request that passed the check retires the session's current token if and only if its CSRF token matches and three hours or less of the expiry are left |
| AdminSessions.SecondRotationIff | apps/guess/src/http/admin-session.ts:202-226 | Two requests of a run passed the check on one session and the first was answered with a new token: the second retires that token if and only if its CSRF token matches and it comes nine hours after the first, or in the last three hours before the cap |
| AdminSessions.FoundIff | apps/guess/src/http/admin-session.ts:100-104 | In every state of every run a look-up finds the session whose current token it is, and no other, and brings its record up to date with whether the account is active |
| AdminSessions.PassesIff | apps/guess/src/http/admin-session.ts:163-178 | In every state of every run a request passes the check if and only if no step logged its session out, it has not expired, and the account was active at the last look-up |
| AdminSessions.ActAnswersIff | apps/guess/src/http/admin-session.ts:180-226 | A request that passed the check is refused if and only if its CSRF token is not the session's, and then nothing changes; otherwise the session lasts twelve hours from now or until seven days after its login, never less than before, with a new token if and only if at most three hours were left |
| AdminSessions.RevokedIffLoggedOut | apps/guess/src/http/admin-session.ts:117-132 | In every state of every run a session is revoked if and only if some step logged it out, by itself or with all of its admin's but one other |
| AdminSessions.LoginLastsTwelveHours | apps/guess/src/http/admin-session.ts:142-161 | A session just logged in is found by its token and passes for twelve hours, while the account is active |
| PlayerSessions.Repository.CreateSession | apps/guess/src/http/session.ts:94-99 | Stores the session and indexes its token |
| PlayerSessions.Repository.TouchSession | apps/guess/src/http/session.ts:105-108 | Notes when one session was last seen |
| PlayerSessions.Repository.RotateCsrf | apps/guess/src/http/session.ts:117-121 | Gives one session a new CSRF token |
| PlayerSessions.Repository.RotateSession | apps/guess/src/http/session.ts:109-116 | The old token leaves the index, the new one enters it; the creation time stays |
| PlayerSessions.RunKeepsInv | apps/guess/src/http/session.ts:86-184 | Token index and sessions are in bijection in every state of any interleaving of bootstraps |
| PlayerSessions.RetiredTokenStartsAnew | apps/guess/src/http/session.ts:141-184 | A bootstrap with a retired token starts a new session |
| PlayerSessions.RotatesExactlyWhenOld | apps/guess/src/http/session.ts:152-160 | A live session is rotated if and only if it was created more than thirty days ago, hence on every later bootstrap |
| PlayerSessions.FoundIff | apps/guess/src/http/session.ts:100-104 | In every state of every run a look-up finds the session whose current token was sent, and no other |
| PlayerSessions.TakenUpIff | apps/guess/src/http/session.ts:150-154 | A session that was found is taken up if and only if it has not expired, and then gets the call's CSRF token; no other session changes |
| PlayerSessions.RenewalAnswers | apps/guess/src/http/session.ts:152-177 | A session taken up keeps token and expiry and notes the visit, unless it rotates: then it has a new token and 180 days; the client is told what the session now has |
| PlayerSessions.NewSessionAnswers | apps/guess/src/http/session.ts:180-183 | A new session has what the client is told: a token that finds it, the call's CSRF token, and 180 days |
| PlayerSessions.OverlapRetiresTheFirst | apps/guess/src/http/session.ts:141-184 | Of two overlapping rotations the one that finishes first is left with a retired token |
| RateLimits.RateLimiter.IncrementAndCheck | apps/guess/src/http/rate-limit.ts:95-106 | Adds one to its bucket and returns the new count |
| RateLimits.RateLimiter.Enforce | apps/guess/src/http/rate-limit.ts:121-139 | Counts the request and refuses it with a wait if and only if the bucket is over its limit |
| RateLimits.WindowsStayInsideDays | apps/guess/src/http/rate-limit.ts:30-38 | No window straddles a UTC day: the same window means the same bucket |
| RateLimits.WaitReachesNextWindow | apps/guess/src/http/rate-limit.ts:121-139 | The wait is between one second and the window, reaches the next window, and one second less would not |
| RateLimits.BucketPassesLimit | apps/guess/src/http/rate-limit.ts:95-139 | Of any requests in one bucket exactly the first ones up to the limit pass |
| RateLimits.AtMostTwiceTheLimit | apps/guess/src/http/rate-limit.ts:95-139 | Whatever is requested and when, at most twice the limit passes in any span of one window |
| RateLimits.TwiceTheLimitIsReached | apps/guess/src/http/rate-limit.ts:95-139 | The bound is tight: some requests reach it |
| AdminLogin.AdminUsers.FindByEmail | apps/guess/src/admin/admin-user-repository.ts:31-43 | An account with that email, or none if there is none |
| AdminLogin.AdminUsers.BeginLogin | apps/guess/src/admin/auth-service.ts:58-60 | A copy of the account, as it is when the attempt reads it |
| AdminLogin.AdminUsers.FinishLogin | apps/guess/src/admin/auth-service.ts:76-102 | What an attempt answers and writes follows from its copy, whatever the account has become meanwhile; other accounts are not touched |
| AdminLogin.AdminUsers.AttemptAdminLogin | apps/guess/src/admin/auth-service.ts:58-121 | One attempt that no other overlaps: unknown, inactive, locked, wrong and right passwords, with the count and lock each leaves |
| AdminLogin.AdminUsers.RecordFailedLogin | apps/guess/src/admin/admin-user-repository.ts:48-53 | Sets count and lock of one account |
| AdminLogin.AdminUsers.RecordSuccessfulLogin | apps/guess/src/admin/admin-user-repository.ts:54-60 | Clears count and lock of one account |
| AdminLogin.NextKeepsInv | apps/guess/src/admin/auth-service.ts:58-102 | Every step of any overlapping attempts, stamped in any order, keeps: a lock is set exactly from the fifth failure on, and an attempt nobody overtook holds the account as it is |
| AdminLogin.ReachableInv | apps/guess/src/admin/auth-service.ts:58-102 | Hence so in every state any attempts lead to from an account that nobody is logging in to |
| AdminLogin.CountRisesIff | apps/guess/src/admin/auth-service.ts:79-88 | A finished attempt raises the stored count if and only if it is a counted failure whose copy was not behind the stored count; by exactly one if nobody overtook it |
| AdminLogin.LockHoldsUnlessOvertaken | apps/guess/src/admin/auth-service.ts:76-102 | A locked account is left alone by an attempt nobody overtook, even with the right password |
| AdminLogin.UnlocksIff | apps/guess/src/admin/auth-service.ts:76-102 | An attempt unlocks a locked account if and only if its copy was not locked and the password was right, or the failure it writes is below the fifth, or its own lock is over by then |
| AdminLogin.LastLoginMovesIff | apps/guess/src/admin/admin-user-repository.ts:54-60 | The last login moves, to the time of the attempt, if and only if the attempt is let in |
| AdminLogin.LockoutBound | apps/guess/src/admin/auth-service.ts:76-102 | In every interleaving that lets nobody in, whatever the order in which requests were stamped: of failures stamped in a span of T, at most 5 + T / 15 min are counted if none was overtaken, and at most as many again for each one that was |
| AdminLogin.LockoutBoundIsReached | apps/guess/src/admin/auth-service.ts:76-102 | For every span some attempts, one after the other and none overtaken, are counted exactly 5 + T / 15 min times |
| AdminLogin.SixFailuresAtOnce | apps/guess/src/http/handlers/admin-login.ts:38-55 | Why the span is one of request times: after a login, five failures stamped a quarter of an hour before it and one stamped with it are all counted, none overtaken |
| AdminLogin.ReachableTimely | apps/guess/src/admin/auth-service.ts:58-102 | If requests reach the account in the order of their times: in every state a lock ends at most fifteen minutes after the last write, and an attempt nobody overtook began after it |
| AdminLogin.OrderedOverlapBound | apps/guess/src/admin/auth-service.ts:76-102 | In that order: at most five counted failures, five more for every overtaken one, and one for every quarter of an hour since the last write |
| AdminLogin.OrderedLockoutBound | apps/guess/src/admin/auth-service.ts:76-102 | In that order, from one successful login to the next, without overtaken failures: at most five, and one more per quarter of an hour |
| AdminLogin.OverlappingFailuresCountOnce | apps/guess/src/admin/auth-service.ts:76-89 | The term for overtaken failures is needed: any number of overlapping failures are counted one by one in no time and leave the count one higher and the account unlocked |
| AdminLogin.LockIsPassedByOvertaken | apps/guess/src/admin/auth-service.ts:76-102 | From every active account with three failures: a run to a state where the account is locked, yet an open right password is let in and an open wrong one unlocks it |
| Moderation.Repository.ApprovePost | apps/guess/src/admin/moderation-repository.ts:198-206 | Accepted if and only if the version is the current one; the row's new state |
| Moderation.Repository.RejectPost | apps/guess/src/admin/moderation-repository.ts:208-216 | Accepted if and only if the version is the current one; the row's new state |
| Moderation.Repository.EditCleanContent | apps/guess/src/admin/moderation-repository.ts:218-233 | Accepted if and only if the version is the current one; the previous text becomes a revision |
| Moderation.Repository.InsertForumPost | apps/guess/src/importer/repository.ts:139-172 | A new post is pending or flagged for review; a known one is refused |
| Moderation.Repository.MarkSourceDiverged | apps/guess/src/importer/repository.ts:174-187 | Marks the divergence and takes an approval back |
| Moderation.RawContentIsImmutable | apps/guess/src/importer/repository.ts:174-187 | Raw content and hash never change after the insert, and a divergence stays marked, over any mix of imports and moderation |
| Moderation.VersionCountsModerations | apps/guess/src/admin/moderation-repository.ts:165-233 | The version is exactly the number of accepted admin actions |
| Moderation.OneWinnerPerVersion | apps/guess/src/admin/moderation-repository.ts:165-171 | Of several admins holding the same version at most one succeeds |
| Moderation.RevisionsAreTheHistory | apps/guess/src/admin/moderation-repository.ts:218-233 | The revisions followed by the current text are the full edit history |
| Moderation.ApprovedIff | apps/guess/src/admin/moderation-repository.ts:198-216 | A post is approved if and only if an approval was not followed by a rejection or a detected divergence |
| Moderation.StatusIs | apps/guess/src/admin/moderation-repository.ts:198-216 | A post's status goes back to its insert, flagged or not, or to the last accepted decision on it, with an approval demoted if a divergence was detected since; it is marked if and only if one ever was |
| Moderation.ApprovalIsNotReviewOfTheText | apps/guess/src/importer/repository.ts:174-187 | An approval with a version read before a divergence is still accepted, and an edit of an approved post stays approved |
| Importer.ImportOnePost | apps/guess/src/importer/run-import.ts:95-153 | Inserts a new post, marks a diverged one, leaves an unchanged one; a throw leaves the posts as they were |
| Importer.TakePosts | apps/guess/src/importer/run-import.ts:268-299 | The post loop tries the first posts of the topic, all of them unless a budget is used up; a failing post is isolated, and what was tried and imported stays tied to the counts |
| Importer.TakeTopics | apps/guess/src/importer/run-import.ts:244-307 | The topic loop: a failing topic is isolated, a budget used up stops the run for that reason |
| Importer.TakePages | apps/guess/src/importer/run-import.ts:224-314 | The page loop ends, for any client: each turn fetches a page or stops, and a completed run ended on an empty or short page |
| Importer.RunImport | apps/guess/src/importer/run-import.ts:155-339 | Budgets are never exceeded, new plus diverged at most fetched, users at most the distinct authors of the posts imported, stored counters equal the summary without errors, the run is finished exactly once after a successful create; the posts tried are the first posts of the topics asked for, in order, those imported are among them, and a completed run tried every listed post; a run stops for its duration if and only if the last reading of the clock, and no earlier one, finds the time up |
| Importer.TouchedIsAnAuthor | apps/guess/src/importer/run-import.ts:101-111 | Everyone touched wrote a post of a topic that was asked for |
| Importer.MeetingKeepsRows | apps/guess/src/importer/run-import.ts:113-152 | Whatever posts are met, stored ones keep their content and as many rows are added as were new |
| Importer.StoredPostIs | apps/guess/src/importer/run-import.ts:113-119 | A post that was stored is marked diverged if and only if it is met with other content, and nothing else happens to it, whatever posts are met |
| Importer.NewPostIs | apps/guess/src/importer/run-import.ts:113-152 | A post that was not is stored if and only if it is met, as it is met first, and marked if it is met with other content later |
| Importer.EveryPostIsCounted | apps/guess/src/importer/run-import.ts:284-288 | Every post imported is counted once: as new if it was not stored, as diverged if its stored hash is another, else as neither |
| Importer.ForumRepository.IncrementCounters | apps/guess/src/importer/repository.ts:203-214 | The stored counters grow by the increments, or not at all if the call throws |

## Left out

- UTF-8 encoding and base64: canonical text is a sequence of UTF-16 code units; both runtimes encode it the same way when surrogates are paired.
- CanonicalWriter.WriteCanonical: for strings without unpaired surrogates, objects without repeated keys and integers both runtimes hold exactly. `JsonElement.GetString` and the order in which `List.Sort` leaves equal keys are library behaviour that is not visible here; numbers are in plain notation: an integer written `1.0` or `1e2` is accepted and printed by the TypeScript side, while `TryGetInt64` makes the agent refuse it. `Fraction` is a number that is not an integer, which both refuse.
- CanonicalWriter.WriteObject: the same; a JsonElement can repeat a key, `Valid` excludes it.
- CanonicalWriter.WriteArray: the same.
- CanonicalWriter.CanonicalBytesExcluding: the same.
- CanonicalJson.ReadsBack: values hold each key once, as an object of the TypeScript side does by construction.
- CanonicalJson.SignatureBindsContent: signing is an arbitrary injective function with a matching check; Ed25519 itself is not modelled.
- Ed25519, SHA-256, Argon2 and token generation: abstract functions, taken to be collision-free, and generated tokens and nonces never to repeat.
- EditDistance.UsernameSimilarityLaws: lower-casing is an arbitrary function of the name, and the quotient is exact, not floating point.
- Distractors.ScoreInRange: `Math.log` is inside an arbitrary `closeness` function with values in [0, 1]; scores are reals, so rounding could make ties the model does not have.
- RandomSource.Mulberry32.Next: the draw is an exact real; the statistical quality of the generator is not stated.
- DrawnPlans.PlanIsDrawnIff: the draws are any numbers in [0, 1); which of them 32 random bits or one seed of the generator can produce is not stated, so for daily plans it says what no order of draws shuts out, not what some date shows.
- GameProgress.EveryRunCanFinish: says that steps to the end exist, taking content to arrive and generated ids to be fresh; that the scheduler takes them is not stated.
- The daily seed: hashing date, version and secret to a seed is outside; the seeded streams are arbitrary sources.
- Activation, resolution and completion times, user names and post texts of a round: stored for display, read by no transition.
- GameSystem.RunKeepsInv: the records are values in maps, so aliasing between a record handed out and the stored one is not captured.
- KeyedMutex.AdmittedInOrder: the mutex is a state machine over its callers rather than a class, because its `run` suspends between reading and writing the chain.
- GameUnitOfWork.InMemoryGames.BeginAdvance: ends where the source awaits content; `GameSystem` joins it to `FinishMaterialize`.
- getGameByShareToken and getGame: plain look-ups.
- InstallInitialAsync, downloading, ZIP extraction, normalising the extension root and what the local validation looks at: inputs of the model (`World`).
- FolderSwap.Disk.JournaledCopy: a held file fails with an IOException; an access-denied error, a failing read while copying the snapshot, and a staging folder that cannot be removed are not modelled.
- FolderSwap.Disk.RestoreFromRollback: what an earlier `failed` folder leaves behind when it cannot be removed is not modelled, nor are empty directories and upper and lower case in paths.
- UpdateService.LabelAlwaysRightIff: about disks where nothing is held open; under locks the active tree can be a mixture, which no version labels.
- UpdateService.ActiveIsWholeInAnyRun: about disks where nothing is held open and renames fail only together; `NoForeignFiles` and `RestoreUnderLocks` say what holds otherwise.
- ReloadProtocol.RunKeepsInv: handling one pipe message, one write and one removal are each atomic, a connection serves one project, and a failed write delivers nothing.
- ExtensionBridge.ExtSyncBridge.HandleDisconnect: counting reconnection attempts and the listeners' callbacks are left out; a reconnection is a new connection.
- Idempotency.RunKeepsInv: expiry of records after a day is not enforced by the in-memory repository, and is not modelled; repository calls do not fail.
- AdminLogin.LockoutBound: follows one account. Attempts on other accounts write other records, as the contract of `FinishLogin` says; nothing else in the repository changes an account.
- AdminSessions.RunKeepsInv: a request's time is that of its arrival, in no order with the others', and the CSRF check compares abstract tokens.
- RateLimits.RateLimiter.Enforce: extracting the client address from proxy headers is left out; a client is a value.
- Audit events, logging, pacing and sleeping: no effect on the modelled state.
- Importer.RunImport: sanitising and the quality rules are arbitrary functions of a post's content, and a repository call that throws has changed nothing.
- Moderation.ApprovedIff: each operation is one atomic step, as a conditional update is; listing the queue and mapping rows to views are left out.
- Drizzle and Postgres adapters beyond the transitions named above, HTTP routes, pages, the WPF views, the CLI and the native host: plumbing around the modelled code.
- The rollout bucket, eligibility, version comparison, roles and the permission diff: shallow arithmetic and set algebra that would only add easy members.
