# Artifact controller: a verified model

The controller keeps artifacts in an external store. One `Artifact` names a store key; when
nothing stands there, the controller creates a *generator run* in the cluster, judges it, charges
failures against a budget with exponential backoff, verifies what appears, reports drift, and
removes the object when the Artifact expires or is deleted. A reconcile pass acts on the outside
world first and writes its status last, in a patch that may be lost. The project models that
machine with everything that can happen between two passes, and proves what holds over whole runs
of it.

| file | content |
|---|---|
| `api.dfy` | spec, status, conditions, class settings; timestamps persist at whole seconds |
| `delays.dfy`, `names.dfy`, `render.dfy`, `store.dfy` | backoff and jitter arithmetic, run names, template rewriting, the in-memory store |
| `passes.dfy` | one pass as a function, one function per method of the reconciler |
| `reconciler.dfy` | the reconciler on mutable objects, proved to be that function, and a pass to be a step of the system |
| `journal.dfy` | what a pass did, as events; the persisted counters as the replay of the events whose patch landed |
| `answers.dfy` | the answers of a pass: for every route, the whole status, runs, store and requeue it ends with |
| `passfacts.dfy` | what every operation of a pass keeps, on every branch |
| `world.dfy` | many Artifacts, runs, store, clock; passes with patch landed or lost; the moves of users, engines and strangers |
| `history.dfy`, `accounting.dfy`, `creation.dfy`, `ownership.dfy`, `spacing.dfy`, `convergence.dfy` | bookkeeping, crash safety, ownership, spacing and progress over whole runs |
| `retries.dfy` | one reset per retry token, and the work bound by what users and store did |
| `duplicates.dfy` | runs in which an attempt is created twice: why crash safety needs its conditions |
| `witnesses.dfy` | runs in which a wake-up is lost, and in which an expired object is deleted twice |
| `drift.dfy`, `safety.dfy`, `wakeups.dfy` | drift detection, what is never destroyed or forgotten, when a pass may end without another |

`Worlds.Execution` is a run of the system: any sequence of passes (of any Artifact, with any
answers from the API server, the store and the class, patch landed or lost), admissions, spec
edits, deletions, clock ticks, runs dropped or appearing, uploads and erasures by anyone, and
the store starting or stopping to refuse deletes. Theorems that start from `Worlds.Empty` hold
in every reachable state.

Template execution, CEL, the hash and the API answers are parameters (`Render.Expander`,
`Passes.Calls`): the theorems hold for every answer. Times are integers counting nanoseconds.

Where code and documentation differ, the model follows the code:

- `deleteAfter` is called a one-shot deletion; the code deletes on every pass after the age is
  reached: an object of the Artifact's own that is uploaded again is deleted again
  (`Safety.ExpiryDeletesAgain`, and a run that does it: `Witnesses.ExpiryDeletesTwice`).
- A lost creation is said to be recovered by its deterministic name. That holds while the class
  renders one kind and no other Artifact shares the run-name prefix (40 characters and the short
  hash). A changed kind creates the attempt again under that kind (`Duplicates.TwoKindsDuplicate`,
  and exactly then by `CrashSafety.DuplicatesExactly`), and a namesake's retried cancellation
  deletes the run because the tracked name is not checked for its owner
  (`Duplicates.NamesakesDuplicate`).
- A drift report is said to mean that something else wrote to the key. A class edit that moves the
  key produces a report with no write at all (`Drift.MovedKeyMisleads`); at an unmoved key the
  statement is right (`Drift.DriftReportsAreSound`), and `Drift.DriftReportedExactly` says when a
  report is made.
- `backoffDelay` is right exactly while the doubling stays below 2^62 ns under the cap
  (`Delays.BackoffExact`); beyond that some failure count yields a negative delay.
- Failure times persist at whole seconds, so each backoff counts from up to a second before the
  failure.
- A requeue interval of one nanosecond may jitter to zero, and a delay that overflowed is negative;
  both mean no requeue, and both happen in reachable states. These are the only ways to lose a
  wake-up (`Witnesses.WakeUpsExactly`).

## Model

| member | source | states |
|---|---|---|
| `Accounting.WorkBounded` | internal/controller/artifact_controller.go:392-433 | over every run of the system with the budget fixed, failures plus the tracked run stay within the budget, and attempts never exceed budget × (1 + resets) + vanished + cancelled + expired runs |
| `Journal.WorkBound` | internal/controller/artifact_controller.go:635-661 | the same bound for every legal journal, by the potential attempts + budget left − run in flight |
| `Journal.PotentialStep` | internal/controller/artifact_controller.go:484-485 | no event raises the potential but an effective reset (by at most the budget) and a run lost uncharged (by one) |
| `Retries.RetriesBounded` | internal/controller/artifact_controller.go:195-202 | one reset per token over every run, lost patches included: retries honoured in kept passes plus the one pending never exceed 1 + the edits of the spec |
| `Retries.PassHonours` | internal/controller/artifact_controller.go:195-202 | a pass honours a token exactly when that token stops pending |
| `Retries.WorkBoundedByCauses` | internal/controller/artifact_controller.go:392-433 | attempts never exceed budget × (2 + spec edits + verifications + absences seen as a sensor) + vanished + cancelled + expired runs |
| `Accounting.LedgerBalances` | internal/controller/artifact_controller.go:635-641 | in every reachable state attempts = charged + vanished + cancelled + released by verification + released by expiry + the tracked run; each attempt but the tracked one is released, once, in order |
| `Journal.AttemptsConserved` | internal/controller/artifact_controller.go:409-413 | conservation of attempts for every legal journal |
| `Journal.ReleasedOnce` | internal/controller/artifact_controller.go:635-641 | releases follow attempt order, each attempt at most once, never the tracked one |
| `Journal.EveryAttemptReleased` | internal/controller/artifact_controller.go:635-641 | every attempt but the tracked one has its release on record |
| `Accounting.StatusAlwaysCoherent` | internal/controller/artifact_controller.go:851-859 | in every reachable state, error returns and lost patches included: Stalled and Reconciling exclude each other; Ready means state Ready with no failures and neither of them; failures exist exactly while dated; a success time needs a tracked run; a digest excludes one; a key comes with the identity's hash |
| `History.BookedStep` | internal/controller/artifact_controller.go:156-166 | every step, patch landed or lost, keeps each status the replay of its journal, coherent, with the tracked run named after the current attempt |
| `PassFacts.PassKept` | internal/controller/artifact_controller.go:182-289 | every pass, on every branch, keeps coherence and journal and has only the permitted effects on runs, store and drift condition |
| `Answers.EveryPassIsAnswered` | internal/controller/artifact_controller.go:150-180 | the answers below leave no pass out, whatever Artifact, spec, class and calls |
| `Answers.SuspendedAnswer` | internal/controller/artifact_controller.go:187-192 | a suspended pass changes its state and two conditions, nothing else, and asks for no other pass |
| `Answers.SuspendedIsLeftAlone` | internal/controller/artifact_controller.go:187-192 | over every run of the system, such a pass leaves runs, store, creations and journal as they were |
| `Answers.FinalizerAnswer` | internal/controller/artifact_controller.go:172-175 | the first pass sets the finalizer, nothing else, and comes back in ten milliseconds |
| `Answers.StuckAnswer` | internal/controller/artifact_controller.go:210-213 | a failed cancellation returns the error with run, reference and everything past the retry token untouched |
| `Answers.ClasslessAnswer` | internal/controller/artifact_controller.go:219-245 | class not found, class unreachable, key not rendered: the exact status, requeue or error of each |
| `Answers.TtlAnswer` | internal/controller/artifact_controller.go:254-261 | a reached TTL marks the Artifact deleted, or returns the error, and does nothing else |
| `Answers.ReachedMeans` | internal/controller/artifact_controller.go:250-254 | an age limit is reached when positive and counted from creation it has come |
| `Answers.StoreSilentAnswer` | internal/controller/artifact_controller.go:263-280 | no driver, or a store that does not answer: only Ready changes, with the requeue of each place |
| `Answers.ExpiryRefusedAnswer` | internal/controller/artifact_controller.go:729-733 | a refused delete at expiry: only Ready changes |
| `Answers.ExpiryAnswer` | internal/controller/artifact_controller.go:734-758 | otherwise the Artifact is parked: own object gone, foreign object kept, run let go, requeue only for a TTL |
| `Answers.ConflictAnswer` | internal/controller/artifact_controller.go:295-306 | a foreign object: KeyConflict, Ready and ArtifactInStore False; digest, counters, runs and store unchanged, nothing verified |
| `Answers.OnlyOwnIsVerified` | internal/controller/artifact_controller.go:295-342 | over every run of the system, what a pass verifies was unstamped or carried the hash of the identity |
| `Answers.VerifiedAnswer` | internal/controller/artifact_controller.go:313-347 | an own object that is not to be regenerated: Ready True with its digest as baseline, dated now, budget and run cleared, drift raised, cleared or kept |
| `Answers.SensorAnswer` | internal/controller/artifact_controller.go:667-694 | a sensor that finds nothing: Missing, not Ready, failures forgotten, neither Stalled nor Reconciling |
| `Answers.GeneratorPass` | internal/controller/artifact_controller.go:318-321 | a missing object, or drift under Regenerate in a Full Artifact, goes on to the generator with the digest blanked |
| `Answers.NoGeneratorAnswer` | internal/controller/artifact_controller.go:366-386 | without a generator: the run cancelled or the error returned, then Degraded and Stalled |
| `Answers.SpentAnswer` | internal/controller/artifact_controller.go:392-400 | a spent budget: Degraded and Stalled, ten intervals, nothing tracked or counted is touched |
| `Answers.UnreadableAnswer` | internal/controller/artifact_controller.go:403-415 | a tracked run that cannot be read changes nothing; one that is gone is forgotten uncharged |
| `Answers.FailedAnswer` | internal/controller/artifact_controller.go:502-509 | a run that reports failure is charged |
| `Answers.SucceededAnswer` | internal/controller/artifact_controller.go:515-542 | a run that reports success is awaited through the grace period since its first success, then charged |
| `Answers.UnfinishedAnswer` | internal/controller/artifact_controller.go:545-592 | a run that reports neither is deleted and charged past a configured deadline, else left alone; when it is called unrecognized |
| `Answers.ChargedExactly` | internal/controller/artifact_controller.go:499-592 | a run in flight is charged if and only if it failed, or succeeded with the grace period over, or is past its configured deadline; else run, reference and counters stay |
| `Answers.ChargedOutcome` | internal/controller/artifact_controller.go:635-661 | what a charge writes, by whether it spends the budget, and the requeue it asks for |
| `Answers.BackoffAnswer` | internal/controller/artifact_controller.go:420-431 | before the backoff is over nothing is created, and the pass comes back a second after it is |
| `Answers.UncreatedAnswer` | internal/controller/artifact_controller.go:436-483 | a template that fails, an owner reference or a create that is refused: counters and runs stay |
| `Answers.CreatedAnswer` | internal/controller/artifact_controller.go:464-497 | a free name is created, owned, dated and tracked; our own run is tracked; anyone else's is left alone |
| `Answers.TerminatingAnswer` | internal/controller/artifact_controller.go:761-816 | the whole terminating pass: released, blocked or in error, and what the store loses |
| `Answers.ReleasesExactly` | internal/controller/artifact_controller.go:768-815 | the finalizer drops if and only if the policy, the key, Observe or a missing class ask for nothing, or class, driver and store answer and no own object is left that the store refuses to delete |
| `Answers.ReleasedIsGone` | internal/controller/artifact_controller.go:814-816 | the Artifact leaves the world exactly with a kept pass that does so |
| `CrashSafety.AlwaysIndexed` | internal/controller/artifact_controller.go:436-485 | in every reachable state a controlled run has an index at most persisted attempts + 1, and that one only while nothing is tracked |
| `CrashSafety.CreationIsCrashSafe` | internal/controller/artifact_controller.go:464-485 | if nobody outside deletes its runs, no other Artifact under way shares its run-name prefix and its passes render one kind, the runs created are attempts 1, 2, 3, … each exactly once, however many patches are lost |
| `CrashSafety.NoRunIsCreatedTwice` | internal/controller/artifact_controller.go:464-485 | the same without the one-kind condition: no run is created twice, attempts never go back, and an attempt is created again only under another kind |
| `CrashSafety.LostCreationIsAdopted` | internal/controller/artifact_controller.go:464-472 | with the next attempt's run standing, a pass that starts a run adopts that one and creates nothing |
| `CrashSafety.StartCreatesExactly` | internal/controller/artifact_controller.go:464-485 | a pass that starts a run creates one if and only if no own run of the next index stands under the kind it renders; otherwise no run changes |
| `CrashSafety.DuplicatesExactly` | internal/controller/artifact_controller.go:464-485 | with the next index standing under one kind alone, a pass that starts a run duplicates it if and only if it renders another kind |
| `CrashSafety.AloneKeepsRuns` | internal/controller/artifact_controller.go:402-418 | with no shared prefix and no outside deletion, no step but its own passes takes an Artifact's run away |
| `Duplicates.KindChangeDuplicates` | internal/controller/artifact_controller.go:436-485 | wherever a pass could create the next attempt under either of two kinds, losing one patch and then making the other creates it twice |
| `Duplicates.TwoKindsDuplicate` | internal/controller/artifact_controller.go:436-485 | for any Artifact and any two kinds, a run from the empty world, with no other Artifact and no outside deletion, that creates attempt 1 twice |
| `Duplicates.NamesakesDuplicate` | internal/controller/artifact_controller.go:366-379 | for any two Artifacts sharing the prefix, a run from the empty world, with one kind and no outside deletion, in which one deletes the other's run and the other creates attempt 1 twice |
| `CrashSafety.CreationCases` | internal/controller/artifact_controller.go:436-497 | a pass creates the next index only if absent, adopts it only if standing and owned, and otherwise leaves it and the counter alone |
| `Names.RunNameInjective` | internal/controller/artifact_controller.go:843-849 | one Artifact's run names differ for different attempts |
| `Names.RunNamesAgree` | internal/controller/artifact_controller.go:843-849 | two run names are equal if and only if their prefixes and their attempts are |
| `Names.RunNamesCollide` | internal/controller/artifact_controller.go:843-849 | two Artifacts agreeing on 40 characters and the hash share every run name |
| `Names.RunNameSpelled` | internal/controller/artifact_controller.go:843-849 | at most 40 characters of the name, a dash, 8 hex digits, "-r" and the attempt in decimal |
| `Names.ShortOfCanonical` | internal/hash/hash.go:29-39 | the first characters after the algorithm prefix |
| `Names.ValueOfDecimal` | internal/controller/artifact_controller.go:848-848 | the printed attempt reads back as the attempt |
| `Ownership.InterleavedOwnership` | internal/controller/artifact_controller.go:403-417 | with many Artifacts, colliding names and no lost patch or outside deletion, every tracked run exists, is owned by its tracker at the current attempt, and a pass deletes no other run |
| `Ownership.UntrackedRunsExplained` | internal/controller/artifact_controller.go:580-583 | without lost patches, a run still there though untracked was verified, expired, called finished by its engine, or could not be deleted at the deadline |
| `Spacing.BackoffSpacesRuns` | internal/controller/artifact_controller.go:420-433 | while only failures happen under one gate whose doubling stays in range, with no outside deletion, no shared run-name prefix and one kind: at most budget creations, attempt k+1 no sooner than min(initial·2^(k−1), max) after the k-th persisted failure, and reaching it takes the sum of the delays less a second each |
| `Convergence.Converges` | internal/controller/artifact_controller.go:388-433 | from any reachable state within budget, a stretch in which the store stays empty, the class is fixed and has a generator and a deadline, calls are answered, patches land, passes come no earlier than their requeue, no unhonoured retry token is set, nobody removes the Artifact or drops its tracked run, no other Artifact tracks that run and no stranger holds the next name, ends after a number of passes fixed by the class with the budget exactly spent and Degraded, however run statuses flap |
| `Convergence.PassBoundIs` | internal/controller/artifact_controller.go:388-433 | that number is budget × (whole seconds covering the deadline and one nanosecond more + whole seconds covering the grace period + 5) |
| `Convergence.OthersLeaveRun` | internal/controller/artifact_controller.go:402-418 | under those conditions no step of others touches the Artifact or its tracked run |
| `Convergence.PassProgress` | internal/controller/artifact_controller.go:351-434 | each such pass strictly lowers the measure (failures left, then phase and whole seconds left), taken at the requeue time |
| `Convergence.EvaluateProgress` | internal/controller/artifact_controller.go:499-592 | judging the run lowers the measure for every combination of the three CEL answers |
| `Convergence.PassVerdict` | internal/controller/artifact_controller.go:642-652 | a pass never overspends the budget and reports Degraded when it is spent |
| `Convergence.AlwaysTimely` | internal/controller/artifact_controller.go:516-518 | in every reachable state recorded first successes are not in the future |
| `Drift.DriftReportsAreSound` | internal/controller/artifact_controller.go:309-335 | if our runs upload only while tracked, a report at the key where the baseline was taken means someone else wrote that key since; patches may be lost and other Artifacts interfere |
| `Drift.DriftConditionIsSound` | internal/controller/artifact_controller.go:309-335 | the same for the condition: a pass that raises it at the key of the baseline has seen the work of someone else |
| `Drift.MovedKeyMisleads` | internal/controller/artifact_controller.go:229-248 | for any two keys and any two different contents, a run in which the class moves the key and drift is reported though nobody wrote anything |
| `Drift.ReportsExactly` | internal/controller/artifact_controller.go:313-327 | a judging pass raises the drift condition if and only if an own or unstamped object's digest differs from a non-empty baseline and the class does not ignore drift |
| `Drift.DriftReportedExactly` | internal/controller/artifact_controller.go:313-327 | the same in every reachable state |
| `Drift.DriftIsNeverMissed` | internal/controller/artifact_controller.go:313-322 | in every reachable state such a change is reported; no tracked or finished run suppresses it |
| `Drift.EveryChangeIsReported` | internal/controller/artifact_controller.go:313-322 | the same for any pass whose start satisfies the bookkeeping invariant |
| `Drift.DriftLatches` | internal/controller/artifact_controller.go:324-327 | the condition, once True, clears only in a kept verifying pass that started without a baseline |
| `Safety.ForeignObjectsSurvive` | internal/controller/artifact_controller.go:726-739 | over every run of the system no pass changes or adds an object, and it removes only one that is unstamped or carries the hash of the Artifact's identity, through expiry and finalizer alike |
| `Safety.ObserveIsASensor` | internal/controller/artifact_controller.go:254-289 | under Observe no pass creates a run or changes the store by any route, and each pass that gets past suspension, deletion and the cancellation call leaves nothing tracked |
| `Safety.ObserveCancels` | internal/controller/artifact_controller.go:210-217 | the reference is cleared together with the run, or the failed call keeps both and returns the error |
| `Safety.LostCancellationConverges` | internal/controller/artifact_controller.go:701-716 | after a cancellation with a lost patch the next pass clears the reference and changes no run |
| `Safety.GeneratorlessCancels` | internal/controller/artifact_controller.go:366-379 | a class that lost its generator cancels under the same rule |
| `Safety.LostGeneratorlessConverges` | internal/controller/artifact_controller.go:366-379 | after such a cancellation with a lost patch the next pass clears the reference and changes no run |
| `Safety.RefusedDeletesChangeNothing` | internal/controller/artifact_controller.go:790-805 | any sequence of steps with deletes refused leaves the object, the Artifact and its finalizer in place, as long as the class is not deleted and keeps its stamp key, the spec is not edited, and nobody else writes or erases the object |
| `Safety.PermittedDeleteCompletes` | internal/controller/artifact_controller.go:761-816 | the first permitted pass removes the object and the Artifact |
| `Safety.RefusalsThenPermission` | internal/controller/artifact_controller.go:761-816 | after any such sequence, lifting the refusal lets the next pass that reaches class and store remove object and Artifact |
| `Safety.ReleaseLeavesNothing` | internal/controller/artifact_controller.go:768-816 | when the finalizer drops under deletion policy Delete with a key and a class, no own or unstamped object stands at the key |
| `Safety.ExpiryDeletesExactly` | internal/controller/artifact_controller.go:726-739 | a pass that reaches expiry deletes the object at its key if and only if the store answers, allows it, and it is our own; it touches no other object |
| `Safety.ExpiryDeletesAgain` | internal/controller/artifact_controller.go:720-758 | in every run: a kept pass deletes the object and parks the Artifact, someone uploads an object of its own, and the next pass deletes again with the status already Expired |
| `Witnesses.ExpiryDeletesTwice` | internal/controller/artifact_controller.go:720-758 | for any Artifact, age limit, class and two own objects, a run from the empty world that deletes the one and then the other |
| `Wakeups.NoLostWakeUps` | internal/controller/artifact_controller.go:187-192 | with an interval other than one nanosecond and, for a class that generates, doublings that stay below 2^62 up to its budget until the cap stops them: every pass returns an error or a requeue positive for every jitter draw, unless suspended, on a template error, after the TTL deletion, expired without TTL, or done deleting |
| `Witnesses.WakeUpsExactly` | internal/controller/artifact_controller.go:656-660 | for 64-bit delays, no pass in a state reachable under the class loses its wake-up if and only if interval and class meet those two conditions |
| `Witnesses.OverflowSleeps` | internal/controller/artifact_controller.go:656-660 | for every class out of range, a run from the empty world to a state whose next pass charges a failure and returns a negative requeue |
| `Witnesses.FailsRepeatedly` | internal/controller/artifact_controller.go:420-485 | every failure count below the budget is reached from the empty world with the next run under way |
| `Witnesses.OneNanosecondSleeps` | internal/controller/artifact_controller.go:878-883 | for every class, a run from the empty world to a sensor whose next pass may jitter to no requeue |
| `Wakeups.WorkingRangeTicks` | internal/controller/artifact_controller.go:862-874 | a class in the working range of `backoffDelay` loses no wake-up, whatever its budget |
| `Wakeups.GateBlocksOnce` | internal/controller/artifact_controller.go:420-433 | two passes in a row: one that waits at the backoff gate, then one at its requeue time, which goes on to create the run |
| `Wakeups.GraceBlocksOnce` | internal/controller/artifact_controller.go:515-542 | two passes in a row: the grace window's last wait, then, nothing having appeared, the charge |
| `Wakeups.ExpiryBlocksOnce` | internal/controller/artifact_controller.go:720-758 | two passes in a row: parked as expired with a TTL ahead, then deleted by the TTL |
| `Wakeups.BackoffGateOpens` | internal/controller/artifact_controller.go:420-431 | waking at the gate's requeue finds the gate open on the persisted status |
| `Wakeups.ChargeGateOpens` | internal/controller/artifact_controller.go:656-660 | waking at the requeue of a charged attempt finds the gate open |
| `Wakeups.GraceWindowEnds` | internal/controller/artifact_controller.go:524-537 | the last, shorter requeue of the grace window finds it over |
| `Wakeups.ExpiryWaitsForTtl` | internal/controller/artifact_controller.go:751-757 | the expired requeue fires with the TTL reached, and the one-second fallback is unreachable |
| `Delays.ComputeBackoff` | internal/controller/artifact_controller.go:862-874 | the 64-bit loop, wrap-around included, computes `BackoffDelay`, in at most 1 + log2(max/initial) rounds |
| `Delays.BackoffIsCapped` | internal/controller/artifact_controller.go:862-874 | in range the delay is min(initial·2^(failed−1), max), positive and within the cap |
| `Delays.BackoffExact` | internal/controller/artifact_controller.go:862-874 | it is right for every failure count if and only if no doubling reaches 2^62 below the cap |
| `Delays.OverflowTurnsNegative` | internal/controller/artifact_controller.go:862-874 | otherwise the first overflowing doubling yields a negative delay |
| `Delays.DelaysPositiveExactly` | internal/controller/artifact_controller.go:862-874 | every delay below the budget is positive if and only if the initial delay is below 2^62 (from two delays on) and no later doubling the budget allows reaches 2^62 below the cap |
| `Delays.BackoffMonotone` | internal/controller/artifact_controller.go:862-874 | more failures never wait less |
| `Delays.WorkingRange` | internal/controller/artifact_controller.go:862-874 | delays up to 2^62 ns are in range |
| `Delays.Jittered` | internal/controller/artifact_controller.go:878-883 | within a tenth either way, positive from two nanoseconds on |
| `Delays.JitterPositiveExactly` | internal/controller/artifact_controller.go:878-883 | every draw is positive if and only if the interval is at least two nanoseconds |
| `Api.EffectiveBackoff` | api/v1alpha1/artifactclass_types.go:212-226 | each of the three is the configured value when positive, else 5, 30 seconds and 32 minutes; they are the gate every pass reads |
| `Api.Defaults` | api/v1alpha1/artifactclass_types.go:229-234 | interval, grace period, deadline and drift policy as configured, or their defaults |
| `Api.OwnMeans` | internal/controller/artifact_controller.go:728-729 | what the controller may touch: stamp missing, blank or its own |
| `Render.Walk` | internal/generator/render.go:66-96 | succeeds if and only if every "{{" leaf renders; then, at every path, a "{{" leaf holds exactly what it expands to, any other leaf is unchanged, and objects and lists keep keys and length, whatever the map order |
| `Render.WalkFields` | internal/generator/render.go:68-77 | the same for the loop over an object's fields, the next key picked freely |
| `Render.RenderingIsUnique` | internal/generator/render.go:66-96 | a tree has at most one such rendering |
| `Render.RendersByPath` | internal/generator/render.go:87-91 | it has one if and only if every "{{" leaf, at whatever path, expands |
| `Render.RewriteKeepsShape` | internal/generator/render.go:66-96 | same shape, keys, lengths and non-string leaves |
| `Render.PlainIsFixed` | internal/generator/render.go:87-91 | a tree without "{{" renders to itself |
| `Render.RewriteIdempotent` | internal/generator/render.go:66-96 | idempotent when rendered text holds no "{{" |
| `Render.RenderKey` | internal/generator/render.go:33-42 | the key is the expansion of the template and not blank, in the Unicode sense of white space; fails exactly when the template fails or comes out blank |
| `Render.RenderTemplate` | internal/generator/render.go:47-64 | the kind of the rendered run, its halves the rendered texts of "apiVersion" and "kind" |
| `Render.KindIsRendered` | internal/generator/render.go:47-64 | a kind if and only if the template is an object, every leaf renders, and those two fields render to its two non-empty halves |
| `FakeStore.Store.constructor` | internal/store/fake/fake.go:25-27 | an empty store that allows deletes |
| `FakeStore.Store.Observe` | internal/store/fake/fake.go:36-48 | what stands at the key, or nothing |
| `FakeStore.Store.Delete` | internal/store/fake/fake.go:50-58 | refused deletes change nothing; an absent key is not an error |
| `FakeStore.Store.FailDeletes` | internal/store/fake/fake.go:63-67 | sets whether deletes are refused |
| `FakeStore.Store.Put` | internal/store/fake/fake.go:70-78 | the entry-by-entry copy stores exactly the given metadata |
| `FakeStore.Store.Clear` | internal/store/fake/fake.go:81-85 | nothing stands |
| `Controller.Reconciler.Reconcile` | internal/controller/artifact_controller.go:150-180 | a whole pass on mutable cluster and store is the step `Worlds.Reconcile`, patch landed or lost, with the specified result |
| `Controller.ReachableIsLive` | internal/controller/artifact_controller.go:150-180 | every reachable state meets what `Reconcile` asks of the stored Artifact |
| `Controller.Reconciler.ReconcilePresent` | internal/controller/artifact_controller.go:182-217 | is `Passes.ReconcilePass`, and changes no stored Artifact beyond a deletion mark |
| `Controller.Reconciler.HonourToken` | internal/controller/artifact_controller.go:195-202 | is `Passes.HonourRetry`: resets the budget for a token not yet recorded |
| `Controller.Reconciler.ReconcileClass` | internal/controller/artifact_controller.go:219-248 | is `Passes.WithClass`, the key rendered by `Render.RenderKey` |
| `Controller.Reconciler.ReconcileKey` | internal/controller/artifact_controller.go:250-289 | is `Passes.WithKey`, on the live store |
| `Controller.Reconciler.ReconcileExisting` | internal/controller/artifact_controller.go:293-348 | is `Passes.ExistingPass` |
| `Controller.Reconciler.MarkVerified` | internal/controller/artifact_controller.go:329-347 | is `Passes.Verify` |
| `Controller.Reconciler.RecordDrift` | internal/controller/artifact_controller.go:895-902 | is `Passes.RecordDrift` |
| `Controller.Reconciler.ReconcileMissing` | internal/controller/artifact_controller.go:351-434 | is `Passes.MissingPass` |
| `Controller.Reconciler.DriveGenerator` | internal/controller/artifact_controller.go:366-434 | is `Passes.Produce`, with `EffectiveBackoff` and the backoff loop |
| `Controller.Reconciler.ReportNoGenerator` | internal/controller/artifact_controller.go:366-386 | is `Passes.NoGenerator` |
| `Controller.Reconciler.CheckRun` | internal/controller/artifact_controller.go:402-418 | is `Passes.InFlight` |
| `Controller.Reconciler.CreateRun` | internal/controller/artifact_controller.go:436-497 | is `Passes.CreateRun`, the kind rendered by `Render.RenderTemplate` |
| `Controller.Reconciler.AdoptRun` | internal/controller/artifact_controller.go:467-472 | is `Passes.Adopt` |
| `Controller.Reconciler.TrackRun` | internal/controller/artifact_controller.go:484-493 | completes `Passes.Start` once the run is created |
| `Controller.Reconciler.EvaluateRun` | internal/controller/artifact_controller.go:499-592 | is `Passes.Evaluate` |
| `Controller.Reconciler.AwaitArtifact` | internal/controller/artifact_controller.go:515-542 | is `Passes.Await` after `Passes.NoteSuccess` |
| `Controller.Reconciler.RecordAttemptFailure` | internal/controller/artifact_controller.go:635-661 | is `Passes.Failure`, the delay computed by the 64-bit loop |
| `Controller.Reconciler.CountFailure` | internal/controller/artifact_controller.go:635-642 | is `Passes.Charge` |
| `Controller.Reconciler.DeleteAbandonedRun` | internal/controller/artifact_controller.go:701-716 | true exactly when the run is confirmed gone |
| `Controller.Reconciler.CancelRun` | internal/controller/artifact_controller.go:210-217 | is `Passes.Cancel` once the run is gone, and nothing otherwise |
| `Controller.Reconciler.ReconcileMissingObserved` | internal/controller/artifact_controller.go:667-694 | is `Passes.ObservedMissingPass` |
| `Controller.Reconciler.ReconcileExpired` | internal/controller/artifact_controller.go:720-758 | is `Passes.ExpiredPass`, on the live store |
| `Controller.Reconciler.Park` | internal/controller/artifact_controller.go:740-749 | is `Passes.Retire` |
| `Controller.Reconciler.ReconcileDelete` | internal/controller/artifact_controller.go:761-816 | is `Passes.DeletePass`, on the live store |
| `Controller.Working.MarkStalled` | internal/controller/artifact_controller.go:851-854 | Stalled True, Reconciling gone, nothing else changed |
| `Controller.Working.MarkReconciling` | internal/controller/artifact_controller.go:856-859 | Reconciling True, Stalled gone, nothing else changed |
| `Controller.Cluster.Patch` | internal/controller/artifact_controller.go:156-166 | a patch that lands persists status and finalizer, and removes an Artifact marked for deletion whose finalizer is gone; a lost one changes nothing |

## Left out

- Real store drivers (S3, OCI, AMI, HTTP, Artifactory, Nexus): the store is the in-memory driver, whose reads may also fail to answer.
- CEL, Go template execution, SHA-256 and JSON parsing: parameters of the model.
- Events, log lines, condition messages, `LastFailureMessage`, `ObservedGeneration`, `summarizeStatus`: no decision depends on them.
- The patch library's merge rules: a patch lands as a whole or is lost as a whole; informer-cache staleness is not modelled, so a pass reads the current status and observes and deletes atomically.
- Kubernetes garbage collection of owned runs, and finalizers of other controllers: a successful run delete removes the run, and an Artifact goes when this controller's finalizer does.
- A create call that takes effect and still reports an error: it is covered only as a created run with a lost patch.
- int32 counters: attempts and failures are unbounded.
- Namespaces: one namespace; labels on runs are not modelled.
- `KeyTemplate` and `StampMetadataKey` defaulting: the class record holds the effective values; hash, key template and stamp key are plain strings.
- Manager wiring, watches, leader election, CRD validation, generated code: no state the properties depend on.
- Convergence.Converges: assumes that while the stretch lasts the tracked run is not dropped and no stranger holds the next run's name; dropped runs are counted in `Accounting.WorkBounded` instead.
- Spacing.BackoffSpacesRuns: the sum of delays loses up to one second per failure, because failure times persist at whole seconds.
- Delays.Jittered: computes with exact reals; float64 rounding, which for very large intervals may exceed the bound by a nanosecond, is not modelled.
- FakeStore.Store.Observe: returns a value, so the defensive copy of the metadata and the locks have no counterpart.
- Controller.Reconciler.Reconcile: the answers of the outside world come in as one record per pass; a Get of the Artifact itself that fails is a pass that does not happen.
