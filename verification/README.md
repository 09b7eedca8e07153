# Runner autoscaler: a verified model

The program scales a pool of GitHub Actions runners. Webhooks report jobs that are queued, running
or finished; a single reconciler goroutine reads those reports, optionally asks GitHub what is really
going on, and tells a platform (Railway or Fly) how many replicas to run. Scaling down at the wrong
moment kills a job, sleeping through an event leaves a job waiting, and both depend on how the
handlers interleave with the reconciler, which gives up its lock between phases.

This project models that program in Dafny and proves what it is supposed to guarantee, over every
run and every interleaving.

## How it is organised

- `Seqs`, `Ordering`, `Attempts`: sequences without repeats, string order and sorting, trying a list in order.
- `Bounded`: the fixed-capacity, oldest-first-evicting set, as a class and as a ledger with its history.
- `Scaler`, `Adoption`: each critical section of the autoscaler as a function on the values it updates, and what adopting an observation does to the tracked jobs.
- `Machine`: the running service as a transition system. One step is one critical section, one
  backend call or one channel operation; a handler between its unlock and its poke is counted in
  `pokes`, the capacity-one channel is `trigger`, the reconciler's place in its loop is `pc`. `log` is a
  history that no step reads.
- `Flow`, `ScaleSafety`, `Wakeups`, `JobSets`, `Retention`, `Idle`, `RecycleSafety`, `Repair`, `BootGrace`,
  `FailedRestore`, `UnknownCount`, `Teardown`: theorems over all runs.
- `Drive`: building blocks for particular runs, used where something is shown to be possible.
- `Autoscaling`: the class with the source's fields and methods. Each method is proved to take the
  steps of `Machine` it stands for, so the theorems apply to the class.
- `Pool`: the Fly machine pool. `Regions`: Railway's distribution over regions and its read-back.
  `Webhook`: de-duplication and dispatch. `Runs`: paged collection of workflow runs.

Capacities and durations are parameters throughout (the source uses 4096 tracked jobs, pages of 100
and 3 pages). Time is an integer that never decreases. The clock, GitHub, the backend and the choice
between a trigger, a tick and a cancellation are unconstrained inputs: any call may fail, an
observation may report anything, and a failed call may leave the pool in any state unless a theorem
says `Honest`. `Honest` means that the pool changes only on a successful call, and then to the count
asked for. It is an assumption about the backend. Railway breaks it when a response is lost after
the count was applied; a Fly pool breaks it when it ends short of its target without an error (see
`Pool.NoErrorMeansDone`), which is why it is recounted. `FairFrom` asks the same of the rest of a run, and
that recounts tell the truth; it can allow the pool to change by itself, as Fly machines do when
their runners exit.

## What was found

Where the code and its comments or documentation differ, the model follows the code.

- **A failed restore can cost the next replicas their boot time.** `recycle` restarts the grace period
  only when the restore succeeds (`internal/scaler/scaler.go:413-425`). After a failed one `missingSince`
  keeps its old value until an observation succeeds. Without a recount any successful observation
  clears it, because no replicas are on record then; so the replicas that the first succeeding call
  brings up get `RunnerGrace` exactly when an observation has succeeded in between
  (`FailedRestore.GraceAfterFailedRestore`). It takes a second fault, a failed observation, for them to be
  torn down at once; `FailedRestore.FailedRestoreSkipsGrace` is such a run. A recount can read a
  positive count first, and then an observation that finds no live runner leaves the old time in
  place. For any scaling call of any run `FailedRestore.GraceAfterCall` says exactly when its replicas get `RunnerGrace`, and between
  iterations `BootGrace.GraceExactlyWhenOutageIsRecent` and `BootGrace.GraceOfOversizedPool` do.
  `RUNNER_GRACE` is documented as how long the pool may report replicas without a live runner before
  those replicas are recycled; "those replicas" is not what is timed.
- The same branch has a comment that says the count is left unknown; it is set to zero
  (`internal/scaler/scaler.go:414-417`). Zero is right over an `Honest` backend
  (`ScaleSafety.CachedCountAgrees`).
- **A recycle can take a running job down.** The source argues that with zero live runners nothing can
  be executing (`internal/scaler/scaler.go:384-387`). That holds at the observation, not at the teardown up
  to `RunnerGrace` later: neither the decision to keep the count nor `recycleDue` looks at running
  jobs. `Teardown.RecycleIgnoresRunningJob` is a run in which a job begins after the observation, the
  decision sees it running, and the pool is torn down; `Teardown.TeardownFindsNewJobs` says which jobs
  a teardown can find, and `Teardown.TeardownCanHitAnyJob` that it can be any unfinished one.
- **A late `queued` counts a job twice.** `OnQueued` does not look at the running map, so a `queued`
  event that arrives after `in_progress` puts the job in both maps: `JobSets.LateQueuedCountsTwice`, from
  every initial state. `JobSets.DisjointExactlyWhenPunctual` shows that this is the only way,
  `JobSets.DemandCountsJobsOnce` that it inflates the demand.
- **Confirmation does not renew.** `adopt` never refreshes the timestamp of a job GitHub reports
  again, so a confirmed job still expires after `JobTTL` (`Adoption.ConfirmedJobsStillExpire`) and
  is dropped at the first observation that misses it if it was first recorded more than `IdleCooldown`
  ago, however recently it was confirmed (`Adoption.ConfirmedThenMissed`, and
  `JobSets.ForgottenThoughConfirmed` for a run from every initial state with an observer and a `JobTTL`
  that is zero or above `IdleCooldown`). The comment speaks of being
  held that long "without GitHub confirming it".
- **With an unknown count (`-1`) no shrink gate is consulted.** `ScaleSafety.LoweringIsGatedUnlessUnknown`
  shows that this is the only exception. `UnknownCount.GatedExactlyWhenStartIsHarmless` says which starts it
  can hurt: all that do not know the count and have more than `MinReplicas` replicas, except one
  replica with `MinReplicas` and `IdleCooldown` zero and `StartupGrace` over. Inside `StartupGrace` the pool can be lowered
  at the very start (`UnknownCount.UnknownCountShrinksUngated`; `UnknownCount.ThreeFallToNone`: from three to none).
- A Fly start forgives failures that other machines made up for; a stop does not (`Pool.ErrorsExactly`).
- `distribute` adds up to a negative `n` only when the regions divide it (`Regions.SpreadIsExact`). No
  caller passes one.

## Model

| member | source | states |
|---|---|---|
| Wakeups.NoLostWakeup | internal/scaler/scaler.go:155-228 | under every interleaving, when the reconciler waits, the trigger is empty and no handler is about to poke, the latest decision saw exactly the current job sets; if its calls succeeded the applied count covers them, and equals the clamped demand unless a shrink was held; in plain numbers it is at least the number of tracked jobs or at least MaxRunners, and at least MinReplicas |
| Wakeups.QuiescentPoolCoversDemand | internal/scaler/scaler.go:449-501 | at such a moment, over an honest backend, the true replica count itself covers the tracked jobs and the minimum: it is at least the number of tracked jobs or at least MaxRunners |
| Wakeups.IterationEnds | internal/scaler/scaler.go:449-501 | however handlers interleave, an iteration takes at most ten reconciler steps |
| Wakeups.EventsAreSoonSeen | internal/scaler/scaler.go:214-228 | from any state, whatever handlers do and whatever fails, eleven steps of an uncancelled reconciler contain a decision on the maps of a moment at or after that state: every accepted event is seen within a fixed number of steps |
| Wakeups.NeverStuck | internal/scaler/scaler.go:214-228 | until it is cancelled the reconciler always has a next step, and a pending trigger wakes it |
| Wakeups.SucceedingIterationsCover | internal/scaler/scaler.go:475-491 | whatever failed before, every iteration (or run of several) that starts before its decision in a reachable state and whose calls succeed ends, with nothing pending, with an applied count that covers the jobs, and equals the clamped demand unless a shrink is held |
| Wakeups.FailuresAreMadeGood | internal/scaler/scaler.go:475-491 | such a run exists from every reachable state: the rest of this iteration, the pending pokes, one wakeup and one more iteration, by the reconciler alone and with succeeding calls |
| ScaleSafety.ShrinkIsGated | internal/scaler/scaler.go:241-268 | every scaling call below a known count belongs to the latest decision, made with no job running, no job event or adoption within IdleCooldown and StartupGrace over; the count did not move in between and any job running at the call was recorded after the decision |
| ScaleSafety.ArgumentsInRange | internal/scaler/scaler.go:409-427 | every backend argument lies between MinReplicas and MaxRunners, except the zero of a recycle |
| ScaleSafety.CachedCountAgrees | internal/scaler/scaler.go:409-447 | over an honest backend from an unknown or correct baseline, the cached count is unknown or the true one whenever no call's outcome is pending, through both ways a recycle can fail |
| ScaleSafety.RecountCorrects | internal/scaler/scaler.go:430-447 | a truthful recount makes the cached count the true one, whatever happened before |
| ScaleSafety.CountStaysRight | internal/scaler/scaler.go:409-493 | from any reachable moment at which the cached count is unknown or right, it stays so for as long as the backend is honest, through calls and recycles |
| ScaleSafety.DecreasesAreGated | internal/scaler/scaler.go:449-493 | once the count is known, the true count falls only by a gated shrink or a recycle's zero step |
| ScaleSafety.LoweringIsGatedUnlessUnknown | internal/scaler/scaler.go:252-266 | over an honest backend, every scaling call that lowers the true count has passed every gate unless the cached count was unknown |
| UnknownCount.GatedExactlyWhenStartIsHarmless | internal/scaler/scaler.go:252-266 | from any start with an unknown or correct count, every scaling call that lowers the pool in any honest run has passed every gate if and only if the count is known, or there are at most MinReplicas replicas, or there is one, MinReplicas and IdleCooldown are zero and StartupGrace is over |
| UnknownCount.UnknownCountShrinksUngated | internal/scaler/scaler.go:252-266 | from every initial state with an unknown count and more than MinReplicas replicas, the first iteration can lower them to MinReplicas at the very start, by a call that is not gated while StartupGrace lasts |
| UnknownCount.ThreeFallToNone | internal/scaler/scaler.go:252-266 | three replicas fall to none inside a StartupGrace of 20 |
| Flow.StepFlow | internal/scaler/scaler.go:449-493 | what every step of any handler or of the reconciler keeps: sound job sets, the locals of the reconciler agree with its last decision, quiet time is recorded, every call carries out a safe decision |
| Flow.ReachableFlow | internal/scaler/scaler.go:214-228 | that invariant in every reachable state |
| JobSets.RunningIsNeverDone | internal/scaler/scaler.go:156-202 | in every reachable state, late events included, no running job is remembered as finished, a job in both maps has the older running entry, and no entry is newer than lastBusy |
| JobSets.LastBusyIsLatestActivity | internal/scaler/scaler.go:164-197 | lastBusy is exactly the time of the latest accepted event or adopted job, or the start when there has been none later |
| JobSets.DisjointExactlyWhenPunctual | internal/scaler/scaler.go:156-170 | over a whole run the three sets stay pairwise disjoint if and only if no queued event is accepted for a running job |
| JobSets.DemandCountsJobsOnce | internal/scaler/scaler.go:245-246 | the demand counts every tracked job once if and only if no job is in both maps |
| JobSets.LateQueuedCountsTwice | internal/scaler/scaler.go:156-188 | from every initial state and for any job, an in_progress event and then a queued event put it in both maps and it asks for two replicas |
| JobSets.ForgottenThoughConfirmed | internal/scaler/scaler.go:324-350 | from every initial state with an observer and a JobTTL of zero or above IdleCooldown, and for any job, there is a run in which GitHub confirms it running and the next observation, at the same instant, misses it and moves it to done |
| JobSets.NoResurrection | internal/scaler/scaler.go:191-202 | after a completion no run of late events, observations, expiries and other completions tracks the job again before as many fresh ids as the capacity have entered done after it |
| Retention.QueuedJobsAreKept | internal/scaler/scaler.go:156-170 | a job whose queued event is accepted is recorded at a time no earlier than the event, and stays queued through every run until it begins, completes, is missed by an observation or expires with a cutoff after that time |
| Retention.RunningJobsAreKept | internal/scaler/scaler.go:173-188 | a job that begins leaves the queue, is recorded as running at a time no earlier than the event, and stays so until it completes, is missed or expires with a cutoff after that time |
| Retention.NotExpiredWithinTTL | internal/scaler/scaler.go:505-531 | no expiry within JobTTL of its queued event drops a job |
| Retention.LostJobsAreFound | internal/scaler/scaler.go:310-323 | a job whose webhooks were lost is recorded by the first observation that reports it queued, no earlier than that began, and is kept like an announced one |
| Idle.LostCompletionsDoNotPin | internal/scaler/scaler.go:503-531 | webhook-only, once quiet for more than JobTTL and past the other delays, an undisturbed iteration with succeeding calls empties both maps and leaves MinReplicas |
| Idle.QuietPoolComesDown | internal/scaler/scaler.go:449-531 | such an iteration always exists |
| Idle.SettledStaysSilent | internal/scaler/scaler.go:460-482 | without a recount, a settled autoscaler makes no backend call for as long as no event arrives |
| RecycleSafety.MissingMeansNoLiveRunner | internal/scaler/scaler.go:353-363 | while missingSince is set the last observation found no live runner, and so did every successful one since, each with replicas on record |
| RecycleSafety.RecyclesAreJustifiedAndSpaced | internal/scaler/scaler.go:388-427 | a recycle starts only after RunnerGrace of unbroken evidence and StartupGrace, and at least RunnerGrace after any completed recycle, even when observations fail in between |
| RecycleSafety.FreshReplicasGetGrace | internal/scaler/scaler.go:388-402 | replicas asked for while no outage is on record get RunnerGrace before any recycle |
| Repair.OutageRecordedExactly | internal/scaler/scaler.go:353-363 | missingSince is set if and only if the last successful observation found replicas without a live runner, and its value is exactly the time of the first observation of that stretch, or of a later recycle |
| Repair.WaitIsUnique | internal/scaler/scaler.go:353-363 | a history determines that time |
| Repair.LiveIsLastSeen | internal/scaler/scaler.go:353 | liveRunners is what the last successful observation found, and -1 before any |
| Repair.OverdueOutageIsRecycled | internal/scaler/scaler.go:460-476 | an outage older than RunnerGrace does not outlive the next iteration: under any interleaving and any failures, if nobody is found alive and the decision keeps a positive count, the iteration starts a recycle and calls for zero, and when its calls succeed calls for the old count again and ends there |
| BootGrace.GraceIsKept | internal/scaler/scaler.go:388-427 | at any point of any iteration, with no outage on record from before now, or enough of StartupGrace left, or a pool too large to be settled before IdleCooldown ends, every later recycle leaves RunnerGrace |
| BootGrace.GraceExactlyWhenOutageIsRecent | internal/scaler/scaler.go:388-427 | between iterations, for any pool in range or recounted and any demand, every later recycle leaves RunnerGrace if and only if no outage from before now is on record, or StartupGrace lasts at least that long, or RunnerGrace is zero; the same over fair runs only, in which calls and recounts do and tell what is true, and without drifts when the count is in range |
| BootGrace.GraceOfOversizedPool | internal/scaler/scaler.go:241-268 | for a pool above MaxRunners without a recount, running jobs or not: if and only if one of those holds, or IdleCooldown lasts at least that long, or it lasts to the last instant and a running job can be neither dropped nor expired by then; the same over fair runs only |
| FailedRestore.GraceAfterCall | internal/scaler/scaler.go:484-493 | for every succeeding scaling call of every run, every later recycle leaves RunnerGrace after it if and only if no outage from before it is on record, or StartupGrace lasts at least that long, or RunnerGrace is zero |
| FailedRestore.GraceAfterFailedRestore | internal/scaler/scaler.go:353-427 | after any failed restore, for the first scaling call to succeed: without a recount its replicas get RunnerGrace if and only if an observation has succeeded in between; with or without one, if and only if the last observation found a live runner or no replicas, or the wait on record began at that moment |
| FailedRestore.FailedRestoreLeavesOutage | internal/scaler/scaler.go:413-419 | as long as only the failed restore has been recorded, some continuation recycles too soon, on a fair platform too |
| FailedRestore.FailedRestoreSkipsGrace | internal/scaler/scaler.go:413-419 | a reachable run in which a restore and two observations fail, one replica is brought up, and its teardown starts before RunnerGrace |
| Teardown.TeardownFindsNewJobs | internal/scaler/scaler.go:384-402 | at every teardown call the last successful observation found no live runner, and every job running on record either was recorded by then or has begun since; without JobTTL every job begun and not finished since is among them |
| Teardown.TeardownCanHitAnyJob | internal/scaler/scaler.go:409-412 | in every reachable state with a teardown pending, any job not remembered as finished can begin before it |
| Teardown.RecycleIgnoresRunningJob | internal/scaler/scaler.go:388-402 | a reachable run in which a decision that sees a running job leads to a teardown |
| Scaler.HeldExactly | internal/scaler/scaler.go:252-266 | a decision is held if and only if it would shrink a known count and one of the three gates is closed |
| Scaler.DecisionIsSafe | internal/scaler/scaler.go:241-268 | a decision covers the demand, stays in range unless it holds an existing count, and shrinks a known count if and only if every gate is open |
| Scaler.Clamp | internal/scaler/scaler.go:561-563 | the value itself when it lies in the range, the lower bound below it, the upper bound above it or when the range is empty |
| Scaler.WantInNumbers | internal/scaler/scaler.go:245-246 | the demand is MinReplicas for up to that many tracked jobs, MaxRunners for that many or more, and their number in between |
| Scaler.MoreJobsMoreDemand | internal/scaler/scaler.go:245-246 | more tracked jobs never ask for fewer replicas |
| Scaler.DecisionExplains | internal/scaler/scaler.go:247-266 | a decision reports the numbers of jobs it saw, and a held one names the first gate that is closed |
| Adoption.AdoptKeepsSound | internal/scaler/scaler.go:303-351 | adoption keeps the job-set invariant, keeps disjoint sets disjoint and never turns lastBusy back |
| Adoption.AdoptTracks | internal/scaler/scaler.go:303-351 | which jobs each map holds after any observation, as sets, and that no tracked job gets a new time |
| Adoption.ObservedJobsAreTracked | internal/scaler/scaler.go:310-350 | unfinished observed jobs are tracked afterwards, running winning over queued; a running entry goes if and only if it is unseen and older than the cutoff, and so does a queued one that is not running |
| Adoption.NewJobsAreRecordedNow | internal/scaler/scaler.go:310-335 | an observed job that is neither finished nor tracked is recorded at a time no earlier than the observation began, as running if it is reported running and as queued if not |
| Adoption.ConfirmedJobsStillExpire | internal/scaler/scaler.go:310-335 | a tracked job that GitHub confirms, running or still queued, survives the following expiry if and only if its first recording is recent enough |
| Adoption.ConfirmedThenMissed | internal/scaler/scaler.go:303-351 | a tracked job confirmed by one observation and missed by the next is dropped if and only if its first recording is before the second cutoff |
| Adoption.AdoptIgnoresOrder | internal/scaler/scaler.go:303-351 | at a fixed clock both maps and lastBusy are a function of the sets observed: listing order, repeats and map order do not matter |
| Adoption.AdoptRecordsDisowned | internal/scaler/scaler.go:340-350 | done becomes done and the dropped jobs, when they fit |
| Autoscaling.ServedIsARun | internal/scaler/scaler.go:155-210 | a whole handler is one step of the machine if it ignores its event and two, the second its poke, if not |
| Autoscaling.ServedCallsNothing | internal/scaler/scaler.go:86-90 | no handler calls the backend |
| Autoscaling.Autoscaler.constructor | internal/scaler/scaler.go:115-133 | a new autoscaler is in an initial state of the machine, with the count unknown |
| Autoscaling.Autoscaler.SetBaseline | internal/scaler/scaler.go:148-153 | sets the count and the time of the last activity to now, in an initial state again |
| Autoscaling.Autoscaler.OnQueued | internal/scaler/scaler.go:156-170 | performs exactly the machine's queued handler on the object's fields; an accepted job is recorded between the clock before and the clock after, nothing else is touched, the activity time is now and a token is left |
| Autoscaling.Autoscaler.OnInProgress | internal/scaler/scaler.go:173-188 | performs exactly the machine's in-progress handler; an accepted job moves from the queue to the running map, recorded between the clock before and the clock after |
| Autoscaling.Autoscaler.OnCompleted | internal/scaler/scaler.go:191-202 | performs exactly the machine's completion handler; the job leaves both maps and is remembered, others stay |
| Autoscaling.Autoscaler.SendTrigger | internal/scaler/scaler.go:205-210 | leaves one token, whether or not there was one |
| Autoscaling.Autoscaler.ReadCount | internal/scaler/scaler.go:430-447 | asks a backend that can count exactly once and adopts the count it gives; a failed read keeps the old one |
| Autoscaling.Autoscaler.Recount | internal/scaler/scaler.go:430-447 | performs the machine's recount step for the count that was read |
| Autoscaling.Autoscaler.TrackQueuedJob | internal/scaler/scaler.go:311-322 | one pass of the loop over observed queued ids is one sighting, at times that do not go back |
| Autoscaling.Autoscaler.TrackRunningJob | internal/scaler/scaler.go:325-334 | the same for an observed running id |
| Autoscaling.Autoscaler.TrackQueued | internal/scaler/scaler.go:310-323 | the loop over observed queued ids computes their sightings in order, with clock readings that do not go back |
| Autoscaling.Autoscaler.TrackRunning | internal/scaler/scaler.go:324-335 | the same for observed running ids |
| Autoscaling.Autoscaler.DropUnseen | internal/scaler/scaler.go:341-350 | the deleting loop drops exactly the stale entries, each once, and adds them to done in the order visited |
| Autoscaling.Autoscaler.AdoptHealth | internal/scaler/scaler.go:353-363 | records live runners and since when there have been none |
| Autoscaling.Autoscaler.FoldIn | internal/scaler/scaler.go:303-363 | updates the fields as an observation of the reported ids does |
| Autoscaling.Autoscaler.Adopt | internal/scaler/scaler.go:303-379 | performs the machine's observation step for the reported ids |
| Autoscaling.Autoscaler.Observe | internal/scaler/scaler.go:275-294 | asks GitHub exactly once if there is an observer; a report is adopted with exactly its ids, flag and live runners, and only a failure or no observer changes nothing |
| Autoscaling.Autoscaler.Consult | internal/scaler/scaler.go:449-451 | an iteration starts with the count it read and the answer it got |
| Autoscaling.Autoscaler.ExpireOld | internal/scaler/scaler.go:513-524 | the deleting loop keeps exactly the entries no older than the cutoff |
| Autoscaling.Autoscaler.Gc | internal/scaler/scaler.go:505-531 | performs the machine's cutoff and sweep steps, or only skips when JobTTL is zero |
| Autoscaling.Autoscaler.Decide | internal/scaler/scaler.go:241-268 | performs the machine's decision step and returns its decision |
| Autoscaling.Autoscaler.PassesGates | internal/scaler/scaler.go:392-401 | evaluates the gates of a recycle with up to two clock readings |
| Autoscaling.Autoscaler.RecycleIsDue | internal/scaler/scaler.go:388-402 | performs the machine's check step and reports whether it starts a recycle |
| Autoscaling.Autoscaler.Restore | internal/scaler/scaler.go:413-426 | one call back to n; the count becomes n if it succeeds and zero if it fails |
| Autoscaling.Autoscaler.Recycle | internal/scaler/scaler.go:409-427 | calls zero and then n, in that order, the second only if the first succeeds, as a run of the machine |
| Autoscaling.Autoscaler.Scale | internal/scaler/scaler.go:484-493 | one call with the desired count, adopted as the count if and only if it succeeds |
| Autoscaling.Autoscaler.Reconcile | internal/scaler/scaler.go:449-501 | a whole iteration is a run of the machine from recount to waiting, and the history records exactly the calls the backend received; its first two steps carry the count that was read and the answer GitHub gave |
| Autoscaling.Autoscaler.Await | internal/scaler/scaler.go:221-226 | does what won the select: takes the token, starts on a tick, or stops |
| Autoscaling.Autoscaler.Round | internal/scaler/scaler.go:218-227 | one iteration with one decision and one question to GitHub, and one wait |
| Autoscaling.Autoscaler.Run | internal/scaler/scaler.go:214-228 | makes the given number of rounds unless it is cancelled, as one run of the machine |
| Bounded.AddKeyRefines | internal/bounded/set.go:24-36 | one insertion keeps the window equal to the tail of the history and without repeats |
| Bounded.WindowIsTailOfHistory | internal/bounded/set.go:16-36 | over any run of insertions the set is exactly the last size fresh keys, and its length the smaller of size and their number |
| Bounded.SurvivesExactly | internal/bounded/set.go:24-36 | a key is remembered if and only if fewer than size fresh keys have entered after it |
| Bounded.AddAllUnion | internal/bounded/set.go:24-36 | while there is room, insertions are a union |
| Bounded.Set.constructor | internal/bounded/set.go:16-21 | an empty set; a capacity below one becomes one |
| Bounded.Set.Add | internal/bounded/set.go:24-36 | reports membership of the window and performs the ledger's insertion |
| Bounded.Set.Has | internal/bounded/set.go:39-42 | reports membership of the window |
| Bounded.Set.Len | internal/bounded/set.go:45 | the number of keys in the window, never more than the capacity |
| Pool.ApproachesTarget | internal/fly/pool.go:60-155 | for any failures the active count moves towards n by exactly the startable machines whose start succeeds, or the idle active ones whose stop succeeds, up to n and never past it; nothing is tried twice |
| Pool.NoErrorMeansDone | internal/fly/pool.go:87-155 | without an error the count is n, or every startable machine was started, or every machine still active is busy |
| Pool.ErrorsExactly | internal/fly/pool.go:110-154 | a start fails if and only if it ends short and some startable machine refused; a stop if and only if busy runners could not be read or any stop it tried failed |
| Pool.ListingOrderIsImmaterial | internal/fly/pool.go:65-85 | any two listings of the same machines lead to the same calls in the same order |
| Pool.CallsInOrder | internal/fly/pool.go:65-148 | a call only starts machines or only stops them, towards the target, in ascending order of their ids, and skips none it may try |
| Pool.StatesInWords | internal/fly/client.go:43-57 | starting and started machines count, created, stopped and suspended ones can be started; completing an accepted start or stop does not change the count again |
| Pool.SuffixInWords | internal/fly/pool.go:126 | a runner's name has a machine's id as suffix if and only if something followed by the id is the name |
| Pool.BusyMachinesAreNotStopped | internal/fly/pool.go:116-148 | no machine whose runner is reported busy is stopped, for any target including zero; an unreadable report stops nothing |
| Pool.PlanPursues | internal/fly/pool.go:60-155 | starts and stops are never mixed, only permitted machines are tried, and all of them are when too few succeed |
| Pool.FlyPool.SetReplicas | internal/fly/pool.go:60-85 | makes the planned calls in order, leaves the planned machine states and reports the planned error; a failed listing does nothing and fails; it lists the machines exactly once |
| Pool.FlyPool.StartUpTo | internal/fly/pool.go:95-109 | the loop starts machines in order until enough have started, past failures |
| Pool.FlyPool.StopIdle | internal/fly/pool.go:133-148 | the loop stops machines in order until enough have stopped, passing over the busy ones, past failures |
| Pool.FlyPool.FindBusy | internal/fly/pool.go:124-130 | finds exactly the active machines some busy runner's name ends in |
| Pool.FlyPool.Partition | internal/fly/pool.go:68-76 | splits machines into active and startable in order |
| Pool.FlyPool.Replicas | internal/fly/pool.go:45-57 | lists the machines once and counts the active ones whatever order they come in; it fails only when the listing does |
| Attempts.TriesCount | internal/fly/pool.go:95-109 | of the machines tried as many succeed as are wanted and able |
| Attempts.TriesOnce | internal/fly/pool.go:95-148 | no machine is tried twice |
| Ordering.SortedIsUnique | internal/fly/pool.go:66 | with distinct ids there is one sorted arrangement |
| Ordering.LessAtFirstDifference | internal/fly/pool.go:66 | ids are ordered by the first character in which they differ, a prefix first |
| Ordering.SortSorts | internal/railway/client.go:271 | sorting rearranges the same entries into order |
| Regions.SpreadIsExact | internal/railway/client.go:316-330 | the spread over distinct regions adds up to n if and only if n is not negative or divides evenly |
| Regions.SpreadIsBalanced | internal/railway/client.go:314-330 | regions differ by at most one, earlier ones never having fewer |
| Regions.SpreadIsMonotone | internal/railway/client.go:316-330 | a larger count never shrinks a region |
| Regions.SharesAreDealt | internal/railway/client.go:321-326 | quotient and remainder deal replicas round-robin |
| Regions.TotalIgnoresOrder | internal/railway/client.go:266-270 | the sum read back does not depend on map order |
| Regions.Distribute | internal/railway/client.go:316-330 | the loop fills exactly the specified map, repeated and absent regions included; every region gets a share, that of its last place in the list |
| Regions.Collect | internal/railway/client.go:266-270 | the loop lists every configured region once, in any order, and adds their replicas up |
| Regions.Discover | internal/railway/client.go:258-279 | lists the configured regions sorted, once each, with their total; otherwise the plain count and region, or unknown |
| Regions.WriteThenDiscover | internal/railway/client.go:231-312 | writing n and discovering it again yields n and the same regions, sorted |
| Webhook.RedeliveryIsTransparent | internal/webhook/handler.go:112-146 | the requests that pass are the first occurrences if and only if every repeat comes before size other delivery ids have first appeared since its own first appearance; the tracker then gets the same calls and keeps the same jobs as from first occurrences alone |
| Webhook.RequestTakesEffect | internal/webhook/handler.go:112-146 | after any requests, one more changes the tracked jobs by its action's own meaning if it is genuine, new and labelled as ours, and not at all otherwise: queued records it in the queue, in_progress moves it to the running map, completed removes and remembers it, a finished job is left alone by the first two |
| Webhook.InTimeMeansRemembered | internal/webhook/handler.go:113-122 | while repeats are in time, the set remembers exactly the ids that first appeared fewer than size others ago |
| Webhook.FirstOccurrencesPass | internal/webhook/handler.go:112-122 | the first request with its delivery id, and every request without one, passes, whatever came before |
| Webhook.RememberedMeansFewBetween | internal/webhook/handler.go:113-122 | in time or late, whether an id is still remembered depends only on the number of insertions since |
| Webhook.KeptCount | internal/webhook/handler.go:112-122 | at least as many requests pass as there are first occurrences, and exactly as many if and only if repeats are in time |
| Webhook.MatchesLabels | internal/webhook/handler.go:170-184 | true if and only if labels are required and each is among the job's normalised labels |
| Webhook.AnswerInWords | internal/webhook/handler.go:113-146 | an event that is acted on adds exactly the call its action names and nothing for any other word, anything else adds none; every genuine delivery id is remembered and nothing else changes the memory |
| Webhook.Handler.Process | internal/webhook/handler.go:87-152 | the code: status, memory and calls of one request as functions of the memory before |
| Webhook.Handler.HandleWebhook | internal/webhook/handler.go:87-152 | status by status, memory and tracker call word by word: a new, genuine, matching delivery leads to exactly one call of the kind its action names, anything else to none; a delivery with a malformed body is remembered all the same |
| Webhook.Handler.Serve | internal/webhook/handler.go:87-152 | a sequence of requests leads to the calls of those that pass |
| Runs.CollectionIsExact | internal/github/client.go:251-279 | against a consistent server the result is the first occurrences, in order, of the first perPage times maxPages entries of each list |
| Runs.CollectionIsComplete | internal/github/client.go:251-279 | it is complete when both lists fit |
| Runs.DedupKeepsEachOnce | internal/github/client.go:266-272 | de-duplication keeps every entry exactly once |
| Runs.PagesAreATake | internal/github/client.go:256-276 | reading pages until a short one yields a contiguous stretch of the list |
| Runs.CollectionFailsExactly | internal/github/client.go:255-278 | for any server, the collection fails if and only if a needed page of a status fails, one within the limit after full pages only; otherwise it is the first occurrences of the queued pages and then the running ones, each up to a short page or the limit |
| Runs.ActiveRunIds | internal/github/client.go:251-279 | the nested loops compute that collection, and fail if and only if a needed page fails |

## Left out

- HTTP, JSON, GraphQL and HMAC: signature validity, readability of the body and parsed events are inputs.
- Retries and backoff inside the clients: a backend or GitHub call either succeeds or fails.
- Configuration parsing and start-up wiring: only the guarantees on counts (internal/config/config.go:195-203) and that durations are not negative (internal/config/config.go:383-394) are assumed.
- Real time: tickers, `observeTimeout` and `countTimeout` are an always possible tick and an always possible failure; nothing is claimed about wall-clock delay.
- Logging, `Stats`, `/status` and `/health`.
- Integer width: ids are unbounded integers, and the saturation of `time.Duration` is not modelled.
- Lower-casing and trimming of labels: a parameter of `MatchesLabels`.
- The methods of the `Autoscaler` class run to completion one at a time; interleaving is modelled in `Machine`, whose steps those methods are proved to take.
- `sort.Slice` and `sort.Strings`: modelled as an insertion sort ordered by code point. Any sort gives the same result (`Ordering.SortedIsUnique`).
- Pool.FlyPool.SetReplicas: which machines refuse is fixed for the duration of one call; each machine is tried at most once, so this loses no outcome. Machines do not change state by themselves during a call, and a refused call leaves its machine as it was.
- Pool.FlyPool.FindBusy: the source keys busy machines by id text; a runner whose name merely ends in another machine's id protects that machine too, in the model as in the code.
- The GitHub client's reading of runners and of the jobs of each run.
- Set-up after the loop has started: the observer and the baseline are fixed before `Run`.
