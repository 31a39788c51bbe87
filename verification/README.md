# Denali: models of the collection protocol, the web client's state machines and the validators

This project models the parts of Denali in which a mistake would be hardest to see and proves what they
promise, for every input and over every run.

* **Durable collection jobs.** `run_durable_collection_job` and its resumable GitHub slice run against one row of
  the job table. `CollectionRows` gives the verdict of each store call on a row, `CollectionStore` runs the store's
  statements and reaches the same verdicts, `CollectionMachine` lets any number of containers, the clock, the
  connection, lost dispatches, raised exceptions and the recovery scheduler take steps in any order, and
  `CollectionWorker` is the imperative program, with the checkpoint dictionary on the heap: every execution of it,
  with anything happening between two of its calls and every call free to raise before or after it commits, is a run
  of the machine. `CollectionSafety` holds the invariant of all runs, `CollectionTheorems` the promises,
  `CollectionRecovery` the bounded recovery listing, `Cascade` the collections that queue collections, and
  `CollectionKinds` the agreement of client and workflow on which kinds are collected.
* **Locations and overlays.** `Utf8` and `FormCodec` are the encodings of a query string, `Navigation` reads and prints
  URLs, `OverlayHistory` applies the drawer transitions to the browser's history stack, and
  `PendingTraversal` is what happens while a traversal it asked for has not landed.
* **Asynchronous fences.** `WorkspaceFence` (requests and token providers), `StatusReader` (one status request at a
  time per reader, and nothing of an abandoned selection once the effect of the next has run) and `Polling` (the wait
  for an accepted operation).
* **Validators and selections.** `Selection` (repository identity, retention, submission, pages), `ReadText` and
  `ReadRoute` (the gateway's named reads), `DeliveryGate` (the pull-request evidence gate under two policies) and
  `GoldenPath` (reset and verification of a demo tenant).
* Beside most models stands a module of laws that say what each operation does in terms of its inputs and results: `CollectionLaws`, `RecoveryLaws`,
  `CascadeLaws`, `NavigationLaws`, `OverlayLaws`, `StatusLaws`, `SelectionLaws`, `ReadLaws`, `DeliveryLaws`, `GoldenLaws`,
  and `DeliveryRecords` for policies and records as values.
* `Options`, `Sequences` and `JsonValues` hold shared shapes, `WorkerLimits` the runtime and lease constants. Time is in
  microseconds, the resolution of the database clock.

The code is followed where it and its comments differ. Properties that the code does not have in full are stated with
the exact condition under which it has them:

* Two containers never work on one job **if and only if** the lease lasts at least as long as a container can act after
  its start; the shipped constants leave exactly 300 seconds for a late kill.
* The last accepted save is what is stored at every moment of a run **if and only if** no deferral takes effect for a
  slice that hands over something else than its own last save that took effect. Slices that return with no save raised
  since their last accepted one, and with an accepted save or an untouched dictionary, never do that. The shipped GitHub
  collector works on a copy of the dictionary (`src/denali/connectors/github_repository.py:290-291`, `:1442`) and never
  returns after a save that raised (`:294-296`, `:424-433`), so it keeps the property, lost acknowledgements included.
* A superseded GitHub worker is inert from its claim on unless it picks a collector without resumable collection; with
  such collectors success is of the latest claim **if and only if** leases outlive containers.
* A filter change pushed onto the history keeps the overlay stack grounded **if and only if** it is made at depth 0. No
  drawer being shown means depth 0 throughout a run **if and only if** every drawer is opened with an id that is neither
  empty nor above 500 UTF-16 code units, or in place of a deep-linked one.
* Difference and retention of repositories agree **if and only if** the new list does not list a kept id another time
  for a different repository; the selection keeps its provenance **if and only if** no checkbox adds such an entry.
* Closing an overlay lands where it was opened from **if and only if** nothing is pushed while the traversal is pending;
  a second close meanwhile goes as far back again, unless the history does not reach that far.
* No identity has two status requests unfinished **if and only if** no effect commits an identity for which one still is.
* An outcome of an abandoned selection reaches the status callbacks **if and only if** a changed selection has been
  rendered whose effect has not run yet.
* The delivery gate is monotone in its policy **if and only if** the looser policy is well formed.
* A request settles in the workspace it was made in **if and only if** it was pending until then. Values and API errors
  always do; a rejection of an await may settle after the workspace was left.

`dafny verify dfyconfig.toml` checks everything.

## Model

| member | source | states |
|---|---|---|
| CollectionTheorems.ExclusionExactlyWhenLeaseOutlivesContainer | src/denali/worker_limits.py:3-17 | over all interleavings of claims, redispatches, exceptions, kills and clock ticks, no two containers ever work on the same job, if and only if the lease is at least the time a container can act after its start |
| CollectionTheorems.DeployedGraceIsExact | modal_app.py:382-389 | with the deployed timeout and lease the exclusion survives kills up to the grace late, and no later |
| CollectionTheorems.SuccessIsOfTheLatestClaimExactlyWhenTimed | src/denali/api/collection.py:170-178 | whoever records success holds the latest claim in every run, if and only if leases outlive containers: the unfenced completion relies on the timing |
| CollectionTheorems.SuccessImpliesFollowUp | src/denali/api/collection.py:276-278 | a job recorded succeeded had its success hook return normally under the very claim that recorded it, whatever the timing |
| CollectionTheorems.RaisingHookIsRetriedOrFails | src/denali/api/collection.py:175-221 | a claim whose hook raised never records success; while it is the latest claim the job is requeued with a near due time, failed, or under a lease that runs out |
| CollectionTheorems.SupersededWorkerIsInert | src/denali/api/collection.py:131-169 | from its claim on, a superseded GitHub worker never changes the row, the checkpoint history or the recorded success again, in any later run in which it does not pick a collector without resumable collection, and with no bound on pauses |
| CollectionTheorems.ResumableSuccessIsOfTheLatestClaim | src/denali/api/collection.py:223-300 | a GitHub job whose collectors can all be resumed is recorded succeeded by its latest claim only, whatever leases and container lifetimes are |
| CollectionTheorems.GithubSuccessBoundary | src/denali/api/collection.py:147-178 | with collectors that cannot be resumed allowed, GitHub success is of the latest claim in every run if and only if leases outlive containers: that path completes unfenced |
| CollectionTheorems.TerminalRowIsFinal | src/denali/store/repository.py:3932-3974 | a succeeded or failed row is the same row after every later run |
| CollectionTheorems.CheckpointHistory | src/denali/api/collection.py:244-270 | checkpoint writes take effect in generation order and the row holds the last one; the last accepted save is stored at every moment of a run if and only if no deferral takes effect for a slice that does not hand over its own last save that took effect |
| CollectionTheorems.SaveStoredStep | src/denali/api/collection.py:244-273 | one step keeps the last accepted save stored exactly when it is not such a deferral |
| CollectionTheorems.CarefulRunsNeverOverwrite | src/denali/api/collection.py:246-271 | slices that return with no save raised since the last accepted one, and with an accepted save or an untouched dictionary, never make such a deferral, whatever raised, was refused or was changed before |
| CollectionTheorems.CopyingCollectorsKeepTheLastSave | src/denali/connectors/github_repository.py:290-298 | collectors that work on a copy and do not return after a save that raised, as this one, keep the last accepted save stored at every moment of every run |
| CollectionTheorems.DeferralHandsBackTheStoredCheckpoint | src/denali/api/collection.py:262-273 | a deferral that takes effect leaves the stored checkpoint as it was exactly when its slice hands over its last save that took effect; a refused one changes nothing |
| CollectionTheorems.DriftedDeferralsRewriteTheCheckpoint | src/denali/api/collection.py:244-251 | both ways to drift are reachable: an in-place change before the first save, and a collector that returns after a save that committed but raised |
| CollectionTheorems.NoWorkIsStranded | src/denali/store/repository.py:3878-3920 | over any rows that runs left more than two hours (or one lease) ago, one recovery call lists or ends a GitHub row exactly when it was over or fewer than `limit` rows of its sort come before it; with at most `limit` rows, all of them |
| CollectionTheorems.RecoverIsTheCall | src/denali/store/repository.py:3884-3905 | on each row the failing statement of the call is the machine's recovery step, unless `limit` such rows come before it |
| CollectionTheorems.ListedWorkIsClaimable | src/denali/store/repository.py:3692-3724 | a listed row, claimed at that moment, starts a new generation with its checkpoint intact, or fails for good after three expired leases |
| CollectionTheorems.AttemptsAreBounded | src/denali/api/collection.py:128-133 | an invocation makes at most `max_attempts` claims, and a row that may still run has used up fewer retries than its bound |
| CollectionTheorems.RetriesFallOnlyByProgress | src/denali/store/repository.py:3786-3812 | the retry count of a row only ever falls, over any run, where a step recorded more completed repositories than before |
| CollectionTheorems.OneSlicePerInvocation | src/denali/api/collection.py:148-169 | an invocation that entered a slice or its handlers never claims again |
| CollectionLaws.EndsExactly | src/denali/store/repository.py:3854-3974 | a job that may still run ends without success exactly by a failed dispatch, by going stale, by being found unable to run, by a claim after the third expired lease, by a fenced retry at the retry bound or by an unfenced failure at the attempt bound |
| CollectionLaws.RequeuesExactly | src/denali/store/repository.py:3814-3876 | a running job is queued again exactly by an accepted deferral or by a failure below the bound |
| CollectionLaws.GrantsExactly | src/denali/store/repository.py:3633-3724 | a claim takes the job exactly when it is due, queued or overrun, and able to run, and then starts the next generation under a full lease, an overrun GitHub lease counting as a retry |
| CollectionLaws.CompletesExactly | src/denali/store/repository.py:3840-3956 | a job succeeds exactly by a completion, of a slice under its current claim or outside a slice while it runs, and holds the report |
| CollectionLaws.ClaimHoldsExactly | src/denali/store/repository.py:3726-3741 | a granted GitHub claim stays current for its own generation, before its lease and the 48 hours run out and while the connection is an active GitHub one, and at no other time |
| CollectionLaws.RefusedChangesNothing | src/denali/store/repository.py:3743-3772 | a guarded call that does not arrive under the current claim changes neither the row nor the history of its checkpoint |
| CollectionLaws.OutsideStepsEndOrLeave | src/denali/store/repository.py:3884-3905 | a failed dispatch, the expiry of stale rows and the recovery end the row and drop its lease, or leave it as it is |
| CollectionLaws.DeferralSleeps | src/denali/api/collection.py:262-273 | an accepted deferral stores what the slice hands over and counts no retry; before the wait asked for, cut to two hours, the job is neither listed nor granted, and then it is due |
| CollectionLaws.RetrySleeps | src/denali/store/repository.py:3854-3876 | an accepted retry counts one, keeps checkpoint and report, and lets the job sleep for 30 seconds |
| CollectionLaws.EachRepositoryCountsOnce | src/denali/store/repository.py:3778-3810 | one more repository in a saved checkpoint adds one to the count of its own outcome and, unless unfinished, to the completed count |
| CollectionLaws.SaveForgivesExactlyOnProgress | src/denali/store/repository.py:3786-3812 | an accepted save touches checkpoint, counts and retries only, and forgets retries exactly when more repositories are completed than recorded |
| CollectionLaws.ClaimLeads | src/denali/api/collection.py:130-137 | a granted claim starts the worker on the next generation with the stored checkpoint; any other is its last |
| CollectionLaws.CollectsExactly | src/denali/api/collection.py:138-174 | a claimed job is collected in a slice exactly for a GitHub job with a resumable collector on its active connection, outside one for every other job of its active connection, and otherwise fails |
| CollectionLaws.SaveLeads | src/denali/api/collection.py:244-260 | after a save the slice hands over what it saved exactly when it was told so, and the store has it exactly when the call arrived under the claim |
| CollectionLaws.FinishedSliceSucceeds | src/denali/api/collection.py:274-278 | a finished slice under a current claim that is left alone checks the claim, calls the hook once and succeeds with its report |
| CollectionLaws.OutdatedSliceStops | src/denali/api/collection.py:274-275 | a finished slice whose claim is not current any more is done without hook and completion |
| CollectionLaws.DispatchesExactly | src/denali/api/collection.py:262-273 | a deferring slice dispatches its continuation exactly after an accepted deferral without a wait, and is then done |
| CollectionLaws.FailedSliceIsRetried | src/denali/api/collection.py:279-300 | a slice that failed under a current claim is retried under it: queued again below the bound and failed at it, not due for 30 seconds |
| CollectionLaws.FinishedPlainSucceeds | src/denali/api/collection.py:170-178 | a collection outside a slice that is left alone calls the hook and succeeds with its report |
| CollectionLaws.FailedPlainIsHandled | src/denali/api/collection.py:179-220 | a failure outside a slice is retried under the claim for GitHub work, and otherwise recorded and claimed again exactly when the row was queued again and attempts are left |
| CollectionLaws.PlainFailuresAreHandled | src/denali/api/collection.py:138-220 | a raising collector or hook, a completion lost before or after its commit and a lost look-up all lead to the handler of the job's kind |
| CollectionSafety.ReachableInvariant | src/denali/api/collection.py:115-300 | generations are held by one container, due times and leases are bounded, hooks precede completion, writes are ordered and, when leases outlive containers, workers exclude each other, in every reachable state |
| CollectionSafety.RecoverableStep | src/denali/store/repository.py:3814-3876 | every step leaves a row that is over, due within two hours, or running under a finite lease |
| CollectionMachine.SliceDelay | src/denali/api/collection.py:262-263 | the delay is the one nearest to the collector's wish among those up to 7200 seconds |
| CollectionStore.JobStore.Claim | src/denali/store/repository.py:3633-3724 | the five statements of a claim come to one verdict: take for a new generation, leave, fail, or fail after repeated lease expiry |
| CollectionStore.JobStore.IsCurrent | src/denali/store/repository.py:3726-3741 | a generation is current exactly for a live lease within the window on an active GitHub connection |
| CollectionStore.JobStore.UpdateResumable | src/denali/store/repository.py:3743-3772 | a generation-carrying write takes effect exactly when the claim is current, and otherwise leaves the row alone |
| CollectionStore.JobStore.SaveCheckpoint | src/denali/store/repository.py:3774-3812 | an accepted save replaces the checkpoint and the completed, failed and partial counts and resets retries on progress; a refused one changes nothing |
| CollectionRows.CompletedAddsUp | src/denali/store/repository.py:3778-3810 | the completed count of a checkpoint is the sum of its complete, partial and failed repositories |
| CollectionStore.JobStore.Defer | src/denali/store/repository.py:3814-3838 | an accepted deferral requeues the row with its delay, checkpoint and report and drops the lease |
| CollectionStore.JobStore.CompleteResumable | src/denali/store/repository.py:3840-3852 | a fenced completion succeeds exactly for the current claim |
| CollectionStore.JobStore.RetryResumable | src/denali/store/repository.py:3854-3876 | a fenced retry requeues below the attempt bound and fails the row at it, for the current claim only |
| CollectionStore.JobStore.Complete | src/denali/store/repository.py:3946-3956 | the unfenced completion acts on any running row |
| CollectionStore.JobStore.RecordFailure | src/denali/store/repository.py:3958-3974 | the unfenced failure requeues or fails any running row and asks for a retry exactly when it requeued it |
| CollectionRecovery.CutExactlyAtTheLimit | src/denali/store/repository.py:3892-3918 | a row is picked exactly when it qualifies and fewer than `limit` qualifying rows come before it, for the failing and the listing statement and their orders |
| CollectionRecovery.ReachedExactlyWithinTheLimit | src/denali/store/repository.py:3884-3920 | the call ends or lists a row exactly when it was over, or cannot run and is within the limit of those, or is due and within the limit of the due |
| CollectionRecovery.Recover | src/denali/store/repository.py:3884-3920 | the failing statement, then the listing one on the rows it leaves |
| CollectionRecovery.AllAreEndedExactly | src/denali/store/repository.py:3884-3905 | over successive calls, the rows that can no longer run are all ended exactly from the call on by which the limits add up to their number |
| CollectionRecovery.AllAreServedExactly | src/denali/store/repository.py:3906-3920 | the same for due rows when the listed ones are claimed between the calls |
| CollectionRecovery.UnclaimedListingsStarve | src/denali/store/repository.py:3906-3920 | when they are not, every call lists the same rows: a due row with `limit` due rows before it is never listed |
| RecoveryLaws.ListsTheEarliest | src/denali/store/repository.py:3906-3920 | a call lists waiting rows only, as many as there are up to the limit, ordered by due time, last touch and id; none it leaves out is due before one it lists |
| RecoveryLaws.EndsTheOldest | src/denali/store/repository.py:3884-3905 | a call ends lost rows only, up to the limit, those touched longest ago first |
| CollectionWorker.RunDurableCollectionJob | src/denali/api/collection.py:115-220 | the whole invocation, woven with everything else, is a run of the machine that ends with the container done after at most `max_attempts` claims; other attempt bounds are refused without effect |
| CollectionWorker.RunGithubSlice | src/denali/api/collection.py:223-300 | what the deferral is handed is the last save that took effect (the claimed checkpoint before any) exactly when a save was accepted or the dictionary is unchanged, if no save was lost since, and otherwise exactly when it equals the last one lost |
| CollectionWorker.Collect | src/denali/api/collection.py:246-261 | for any sequence of saves, refusals, raised saves and in-place changes, shared nesting included, the slice's variable is the given dictionary until a save is accepted and then a fresh copy of the last accepted one; saves accepted, durable and lost are accounted for |
| CollectionWorker.EndSlice | src/denali/api/collection.py:262-300 | however the collector ends, the rest of the slice is a run of the machine that ends with the container done |
| CollectionWorker.DeferSlice | src/denali/api/collection.py:262-273 | the deferring branch, with its immediate dispatch, is a run of the machine |
| CollectionWorker.CompleteSlice | src/denali/api/collection.py:274-278 | the finishing branch checks the claim, runs the hook and completes, as a run of the machine |
| CollectionWorker.HandleSliceError | src/denali/api/collection.py:279-300 | a failed slice retries only under a claim that is still current |
| CollectionWorker.RunPlain | src/denali/api/collection.py:170-178 | the unfenced path collects, runs the hook and completes, as a run of the machine |
| CollectionWorker.HandleError | src/denali/api/collection.py:179-220 | the handler retries under the claim for GitHub work, records an unfenced failure otherwise, and asks for another attempt only when one is left |
| Cascade.CascadesTerminate | modal_app.py:348-379 | over every run, with jobs also asked for by users and schedules, automatic collections form chains of at most two jobs, a deployment collection and a source correlation, and no connection has two active jobs of a kind |
| Cascade.AllQueuedKeeps | modal_app.py:477-498 | a list of queueing calls keeps one active row per connection and kind, adds at most one row per call, and loses none, wherever it stops |
| Cascade.FollowUpIsComplete | modal_app.py:488-496 | when the success hook of a deployment collection returns normally, every healthy source connection has an active correlation job |
| Cascade.QueueingAgainAddsNothing | src/denali/store/repository.py:3468-3495 | queueing a pair again while its job is active finds that job and adds nothing |
| Cascade.JobTable.QueueCollection | modal_app.py:323-345 | one queueing call: a conflicting row wins, an undelivered job is failed and raises, except that GitHub work stays queued |
| Cascade.JobTable.AfterCollectionSucceeded | modal_app.py:477-498 | the success hook queues every healthy source connection after a deployment collection, in order, until one raises, and then runs the two evaluations, each of which may raise |
| Cascade.JobTable.QueuePrimaryCollection | modal_app.py:348-379 | a healthy validation queues what the provider's name and the declared scopes ask for, and raises without effect for an unknown provider or an AWS or Azure connection that is gone |
| CascadeLaws.QueueingExactly | modal_app.py:323-345 | one queueing call, row by row: which stale rows it ends, when it adds a row, and when that row stays active or is failed and the call raises |
| CascadeLaws.HookExactly | modal_app.py:477-498 | a success hook raises exactly when its queueing or one of the two evaluations does, and changes nothing unless a deployment was collected |
| CascadeLaws.DependentsExactly | modal_app.py:486-496 | a deployment collection asks for the correlation of every healthy source connection, GitHub first, and for nothing else |
| CascadeLaws.PrimaryExactly | modal_app.py:348-379 | a healthy validation raises exactly for a name of no provider or a scoped connection that is gone, and asks for exactly the kinds its scopes ask for, each once |
| CollectionKinds.WaitedForIsQueued | web/src/connectionCollections.ts:5-15 | for every provider and scope list, the kinds the client waits for are, in order, the kinds a healthy validation queues, and there is none exactly when an AWS or Azure connection declares no scope |
| Utf8.RoundTrip | web/src/navigation.ts:94-101 | decoding the UTF-8 encoding of any text gives the text back |
| FormCodec.PairsRoundTrip | web/src/navigation.ts:120-130 | parsing a serialized list of names and values gives the list back: empty, repeated and separator-filled ones included, for the browser's and Python's serializer |
| FormCodec.SerializedIsForm | web/src/navigation.ts:128-129 | a serialized query consists of form characters only and is empty exactly for no pairs |
| Navigation.NavigationFromUrl | web/src/navigation.ts:94-118 | the reading loop takes the last admissible value of each key and normalises the drawer keys |
| Navigation.NavigationUrl | web/src/navigation.ts:120-130 | printing a record sets each of its properties once, in order, and overwrites none |
| Navigation.CanonicalRoundTrip | web/src/navigation.ts:94-130 | for every URL, reading, printing and reading again gives the same page, query and drawer, in whatever order the properties are printed |
| Navigation.PrintThenRead | web/src/App.tsx:555-566 | what the client shows after committing a page and query depends on these alone, not on property order; empty properties are not printed |
| Navigation.CommittedIsCanonical | web/src/App.tsx:336-353 | what was read once is shown unchanged when it is committed again |
| Navigation.PagePathRoundTrip | web/src/navigation.ts:50-85 | the twelve page paths are read back as their pages |
| NavigationLaws.LastReadableCounts | web/src/navigation.ts:98-101 | of a repeated name the last value that is not empty and at most 500 UTF-16 code units long counts |
| NavigationLaws.DrawerIsShownExactly | web/src/navigation.ts:102-117 | a drawer is shown exactly when the query asks for its kind and id, on the tab asked for if the kind has it and on the overview otherwise; the query then kept agrees with it |
| NavigationLaws.UrlShows | web/src/navigation.ts:94-118 | a URL shows the values that count, its page unless a setup returns, and the drawer asked for |
| NavigationLaws.PathWithSlashes | web/src/navigation.ts:82-85 | a page is found by its path whatever number of slashes follows |
| NavigationLaws.OtherPaths | web/src/navigation.ts:82-97 | a path of no page shows the dashboard, or the connections when a setup returns |
| Navigation.PrintedUrlIsPlain | web/src/navigation.ts:128-129 | a printed URL is a page path and at most one question mark followed by form characters |
| OverlayHistory.RunsStayStacked | web/src/navigation.ts:163-217 | over every run of navigation, drawers, tabs, closing, traversal, reloads and permitted filter changes, an entry of depth d sits d places above a drawer-free entry of depth 0 and the depths between count up to d |
| OverlayHistory.RunsFromALoadStayStacked | web/src/App.tsx:336-353 | the same for every run from a first load |
| OverlayHistory.StackedExactlyWhenPermitted | web/src/App.tsx:568-578 | over every run whose query updates are filter changes, the stack is grounded at every moment if and only if no filter change is pushed onto an overlay entry |
| OverlayHistory.CloseLandsDrawerFree | web/src/navigation.ts:205-217 | closing lands on a drawer-free location of depth 0: back where the overlay was opened, or in place for a deep link, leaving every other entry alone |
| OverlayHistory.BackUnwindsTheOverlay | web/src/App.tsx:355-361 | Back from an overlay goes down one depth, and out of the drawer from depth 1 |
| OverlayHistory.FilterPushSafeExactlyAtDepthZero | web/src/App.tsx:568-578 | a filter change pushed as a new entry keeps the stack grounded if and only if it is made at depth 0 |
| OverlayHistory.NoDrawerMeansDepthZeroExactly | web/src/App.tsx:568-583 | over every run, a location without a drawer is at depth 0 at every moment if and only if every drawer of the run is opened safely |
| OverlayHistory.FromALoadNoDrawerMeansDepthZero | web/src/App.tsx:336-353 | the same for every run from a first load |
| OverlayHistory.OpeningIsSafeExactly | web/src/navigation.ts:163-182 | after one opening a location without a drawer is at depth 0 if and only if the id survives the URL or a deep-linked drawer was replaced in place |
| OverlayHistory.UnsafeOpeningBreaksTheStack | web/src/navigation.ts:163-182 | after any unsafe opening no drawer is shown and the next filter change that is pushed breaks the stack |
| OverlayHistory.LoadedShowsTheSame | web/src/App.tsx:336-353 | a reload, which canonicalises the URL and keeps the depth, shows what was shown |
| OverlayHistory.WithoutDrawerRemovesItsKeys | web/src/navigation.ts:153-157 | dropping the drawer removes its three keys and nothing else |
| OverlayHistory.ApplyUpdates | web/src/navigation.ts:141-151 | the update loop sets non-empty values and deletes the rest, one update after another |
| OverlayHistory.App.Perform | web/src/App.tsx:543-597 | every handler changes the history as its transition says and shows what the entry then current reads as |
| OverlayHistory.App.CommitNavigation | web/src/App.tsx:555-566 | a push cuts the forward entries, a replace keeps all others, and the location shown is the committed one |
| OverlayHistory.App.constructor | web/src/App.tsx:336-353 | the first load of a tab without history state replaces the URL by its canonical form at depth 0 and shows it |
| OverlayHistory.App.Restored | web/src/App.tsx:336-353 | a load in a tab with history keeps the stored depth and every other entry, and shows the entry's canonical location |
| OverlayLaws.OpenedDrawerIsShown | web/src/navigation.ts:163-182 | opening shows the drawer of that kind and id on its overview, over the same page and filters |
| OverlayLaws.ChosenTabIsShown | web/src/navigation.ts:184-203 | choosing a tab shows it on the same drawer, or the overview when the drawer has no such tab, and does nothing without a drawer |
| OverlayLaws.NavigatedPageIsShown | web/src/App.tsx:543-548 | navigating shows the page with an empty query, whatever was shown |
| OverlayLaws.UpdatesAreShown | web/src/App.tsx:568-578 | the last value given for a name is shown when it survives a URL, and the name is gone otherwise |
| OverlayLaws.OthersAreKept | web/src/navigation.ts:141-151 | names an update does not mention say what they did |
| OverlayLaws.FiltersKeepDrawerAndPage | web/src/App.tsx:568-578 | a filter change keeps the drawer that is shown, and the page unless it sets a setup return |
| OverlayLaws.ClosedInPlaceShowsThePage | web/src/navigation.ts:205-217 | closing at depth 0 shows the same page and filters without a drawer |
| OverlayLaws.HistoryGrowsExactly | web/src/App.tsx:543-597 | which actions push and which replace, at which depth, and that entries before the current one are never changed |
| OverlayLaws.ClosingReturnsToTheStart | web/src/navigation.ts:163-217 | however many drawers are opened and tabs chosen over a page without one, closing shows that page and query again at its place in the history |
| PendingTraversal.PendingRunsStayStacked | web/src/App.tsx:590-597 | however pending traversals, their landings and actions interleave, the stack stays grounded |
| PendingTraversal.PendingCloseLandsExactly | web/src/App.tsx:590-594 | a close of an overlay lands drawer-free on the entry it was opened from if and only if nothing was pushed while it was pending, and k entries too high after k pushes |
| PendingTraversal.SecondCloseGoesTooFarExactly | web/src/App.tsx:590-594 | a second close before the first has landed goes the same way again, and stays where the first led if and only if the history does not reach that far back |
| WorkspaceFence.DeliveryIsUnderTheInstalledProvider | web/src/api.ts:287-348 | over every interleaving, a value, blob or API error settles a request only while the provider it was made with is installed, with no change in between, and unaborted |
| WorkspaceFence.PendingIsExact | web/src/api.ts:268-275 | `pendingRequests` is exactly the unfinished requests of the current generation, and among unfinished requests the abort flag alone decides the fence |
| WorkspaceFence.AbandonedRequestsNeverDeliver | web/src/api.ts:295-304 | a request aborted before it finished delivers nothing in any later run, whatever providers are installed |
| WorkspaceFence.ConfiguringAbandons | web/src/api.ts:270-275 | installing a provider, even the same again, abandons every unfinished request |
| WorkspaceFence.StaleOnlyWhenAbandoned | web/src/api.ts:295-297 | a request ends as stale only when its workspace was left or its caller aborted it |
| WorkspaceFence.SettlesAtHomeExactlyWhenPending | web/src/api.ts:287-348 | over every interleaving, a request settles, whatever its outcome, in the workspace it was made in if and only if it was in `pendingRequests` before; a rejection settles whenever it comes, and what is delivered was always pending |
| WorkspaceFence.RejectionsAreNotFenced | web/src/api.ts:298-327 | a witness: a fetch rejected after its request was abandoned reaches its caller under another provider |
| WorkspaceFence.Client.ConfigureApiTokenProvider | web/src/api.ts:270-275 | the loop aborts every pending request, clears the set and installs the provider under a new generation |
| WorkspaceFence.Client.OnResponse | web/src/api.ts:309-320 | the segment after the response: fenced, then error, empty or body, for JSON and blob requests |
| WorkspaceFence.Client.OnBody | web/src/api.ts:321-327 | the segment after the body: fenced, then the value, blob or API error, and the request leaves the pending set |
| WorkspaceFence.ResponseLeadsToItsKind | web/src/api.ts:309-320 | a response outside 200 to 299 leads to its error body, to the API error of its status or to the stale outcome, and one within them never to an API error; stale exactly when the workspace was left |
| WorkspaceFence.BodyLeadsToItsKind | web/src/api.ts:312-321 | a body ends the request with the API error it belongs to, or else with the value or blob |
| WorkspaceFence.OutcomesAreTruthful | web/src/api.ts:287-348 | over every interleaving, values, nothing and blobs are delivered only after a response within 200 to 299, nothing only for 204, and an API error only with the status of its response, outside them |
| StatusReader.ReportsAreOfTheCommittedSelection | web/src/useSharedStatusPolling.ts:12-42 | over every interleaving of renders, effects and answers no reader has two requests unfinished, no outcome is reported twice, an outcome is reported unless its reader was stopped, and it was read for the selection whose effect ran last |
| StatusReader.AbandonedOutcomesGetThroughExactly | web/src/useSharedStatusPolling.ts:12-25 | an outcome reaches callbacks rendered for another selection exactly when its reader is not stopped and a changed selection waits for its effect |
| StatusReader.AbandonedOutcomeReached | web/src/useSharedStatusPolling.ts:13-41 | that does happen, for results and failures alike |
| StatusReader.PollingFollowsTheLastResult | web/src/useSharedStatusPolling.ts:18-31 | the timer asks again exactly while the last accepted result of the open reader was running, the page is visible and nothing is in flight |
| StatusReader.OneRequestPerIdentityExactly | web/src/useSharedStatusPolling.ts:16-42 | over every run, at every moment no two unfinished requests are for one identity if and only if no effect commits an identity for which a request is still unfinished |
| StatusReader.ReadersOverlapAcrossSelections | web/src/sharedConnectionAdapter.ts:17-37 | a witness: after a change of selection and back two requests for one identity are unfinished, the first by a stopped reader |
| StatusReader.SharedStatusReader.Refresh | web/src/sharedConnectionAdapter.ts:26-34 | a refresh starts a request exactly when the reader is neither stopped nor waiting |
| StatusReader.SharedStatusReader.OnOutcome | web/src/sharedConnectionAdapter.ts:29-32 | an outcome is reported exactly when the reader is not stopped, and only results change the polling flag |
| StatusLaws.RequestsStartExactly | web/src/useSharedStatusPolling.ts:27-44 | a step starts a request exactly for the effect of a selection, a return to the visible page or a trigger with an idle reader, or the timer while the operation runs |
| StatusLaws.EffectExactly | web/src/useSharedStatusPolling.ts:16-42 | an effect commits what was rendered, stops the reader in force and opens one for the new selection unless there is none |
| StatusLaws.AnswerExactly | web/src/sharedConnectionAdapter.ts:29-32 | an answer reaches the callbacks exactly when its reader is in force, and touches no other reader |
| StatusLaws.SettlingExactly | web/src/sharedConnectionAdapter.ts:28-33 | once a request has settled its reader may ask again, and no other reader is touched |
| Polling.WaitForAcceptedOperation | web/src/connectionPolling.ts:14-45 | the loop settles as the responses read: at the first non-running state or the first full burst of failures within the attempts, else it times out, and it never fetches more often than allowed |
| Polling.SettlesOneWay | web/src/connectionPolling.ts:14-45 | that reading admits one outcome and one number of fetches |
| Polling.WaitForCollections | web/src/connectionCollections.ts:38-49 | the wait ends at the first snapshot in which no selected kind runs, with success exactly when every one has completed at another time than before, or with a refresh failure exactly when a full burst of failures comes first |
| Selection.RetainSpec | web/src/sharedGithubOnboarding.ts:65-75 | retention yields, strictly increasing, exactly the selected ids that stand for the same repository in both lists |
| Selection.DifferenceAndRetentionAgree | web/src/sharedGithubOnboarding.ts:49-75 | for all lists, retaining the whole saved selection yields, increasing, exactly the saved ids reported neither removed nor changed, if and only if no kept id is listed another time for a different repository |
| Selection.RepeatsOfOneIdentityAgree | web/src/sharedGithubOnboarding.ts:49-62 | lists that repeat an id for the same repository only, or not at all, meet that condition |
| Selection.ReportedExactly | web/src/sharedGithubOnboarding.ts:52-61 | for all lists, removed means listed no more, and changed means listed at least once under another identity |
| Selection.RetentionIsIdempotent | web/src/sharedGithubOnboarding.ts:64-75 | retaining again, against the same lists or the new list twice, changes nothing |
| Selection.SubmissionIsExact | web/src/sharedGithubOnboarding.ts:27-33 | a submission is accepted exactly when it is a non-empty, duplicate-free choice of at most 500 available safe ids, and is sent in increasing order |
| Selection.SelectionHasProvenance | web/src/SharedGitHubPilot.tsx:96-115 | over every run of refreshes, failures, account changes, searches, page turns and checkboxes, each selected id is at every moment listed under the identity it was checked or saved with, if and only if no checkbox adds an entry whose id is listed again, later, for another repository |
| Selection.DistinctListingsAreUnambiguous | web/src/ConnectorRepositoryPicker.tsx:38-42 | lists that repeat no id never contain such an entry |
| Selection.SelectionIsSubmittable | web/src/sharedGithubOnboarding.ts:27-33 | whatever the lists, what a run leaves selected is accepted for submission exactly when it is neither empty nor above 500 entries, given safe ids |
| Selection.PresentationNeverSelects | web/src/ConnectorRepositoryPicker.tsx:6-52 | searching and leafing never change the selection |
| Selection.PagesCoverTheList | web/src/ConnectorRepositoryPicker.tsx:19-23 | the pages in order show the filtered list, each entry once, at most fifty a page and no empty page but for an empty list |
| Selection.CurrentPage | web/src/ConnectorRepositoryPicker.tsx:21-23 | the page shown always exists |
| Selection.RepositoryReview.ListLoaded | web/src/SharedGitHubPilot.tsx:103-109 | a loaded list retains the remembered selection of the same account, or else the saved one, and becomes what is remembered |
| Selection.RepositoryReview.ToggleItem | web/src/SharedGitHubPilot.tsx:181-185 | a checkbox adds or removes the visible repository and remembers the list it was chosen from |
| Selection.RepositoryReview.ListUnavailable | web/src/SharedGitHubPilot.tsx:97-112 | a list that is unavailable clears the display and keeps what is remembered |
| SelectionLaws.ChangesExactly | web/src/sharedGithubOnboarding.ts:49-62 | added, removed and changed, said of the entries: unknown before, unknown now, or last saved under another identity; archiving is no change |
| SelectionLaws.ToggleExactly | web/src/ConnectorRepositoryPicker.tsx:38-42 | a checkbox selects its repository if it was not selected and unselects it if it was, and leaves every other id as it is |
| SelectionLaws.CheckingAndUnchecking | web/src/ConnectorRepositoryPicker.tsx:38-42 | checking a box and unchecking it leaves the selection as it was, in its order |
| SelectionLaws.LoadedExactly | web/src/SharedGitHubPilot.tsx:103-109 | a list that arrives keeps exactly the ids that stand for the same repository in it, of the choice remembered for the account or of the saved one |
| SelectionLaws.TurnExactly | web/src/ConnectorRepositoryPicker.tsx:19-50 | turning goes to the next or previous page of the same matches and is possible exactly when there is one |
| SelectionLaws.SearchExactly | web/src/ConnectorRepositoryPicker.tsx:12-23 | a search starts on the first page of the repositories it matches |
| SelectionLaws.PageShows | web/src/ConnectorRepositoryPicker.tsx:19-23 | page `p` shows the entries from `50 * p` on, at most fifty |
| ReadRoute.ResolveRead | src/denali/api/capabilities.py:153-242 | the reader, step by step, resolves or refuses as the rules say, with 404 only for unknown names |
| ReadRoute.AcceptedRouteIsClean | src/denali/api/capabilities.py:166-217 | an accepted route is its template with the id slot filled by the canonical form of the given id and the connection slot by the given canonical connection id; its numbers are canonical and in range: limit to 100, or 50 for the paged Jira reads, offset to 100000 |
| ReadRoute.ResubmissionIsIdentical | src/denali/api/capabilities.py:153-242 | decoding an accepted query string and submitting it with the same identifiers gives the identical route |
| ReadRoute.CanonicalIsFixed | src/denali/api/capabilities.py:194-241 | the filters leave every canonical query as it is |
| ReadRoute.FilterValues | src/denali/api/capabilities.py:194-241 | the filter steps, with their loop over the numbers, canonicalise or refuse |
| ReadRoute.CapabilityOf | src/denali/api/capabilities.py:57-150 | the listed operations have a read, no other does, and each read has a placeholder exactly for the identifier it requires |
| ReadLaws.FilteredExactly | src/denali/api/capabilities.py:194-241 | the filters succeed exactly when every parameter given is fit, numbers within their bounds included, and pass each on in one known form: a number as its value printed |
| ReadLaws.RouteExactly | src/denali/api/capabilities.py:153-242 | a query resolves exactly when its operation is listed, its names are known and unrepeated, and its identifiers and parameters are fit; an unknown operation alone is not found, and the route carries every parameter in its one form |
| ReadText.ParsePrinted | src/denali/api/capabilities.py:211-217 | parsing a printed number gives the number back exactly up to 4300 digits, and printed numbers have no leading zeros |
| DeliveryGate.CheckPolicies | scripts/check_platform_delivery.py:232-243 | both policies must accept and name the same product; the result is the number of changed records |
| DeliveryGate.AcceptedChangesAreEvidenced | scripts/check_platform_delivery.py:210-243 | an accepted change of a path either policy watches changes a record; every changed record has disjoint evidence admitted by both policies, and for external changes capabilities and, in each role, changed files; the comparison of counts never refuses |
| DeliveryGate.GateIsMonotoneExactlyWhenWellFormed | scripts/check_platform_delivery.py:173-229 | adding watched patterns or removing evidence patterns never turns a rejection into an acceptance, if and only if the looser policy is well formed |
| DeliveryGate.EmptiedWatchListIsRefused | scripts/check_platform_delivery.py:185-186 | emptying the watched list loosens a policy and is refused |
| DeliveryGate.StricterPolicyDecides | scripts/check_platform_delivery.py:232-243 | of two comparable well-formed policies the stricter decides alone: loosening does not help its own pull request and tightening binds at once |
| DeliveryGate.Check | scripts/check_platform_delivery.py:173-229 | one policy's verdict: shape, watched changes, then every changed record |
| DeliveryGate.ValidateRecord | scripts/check_platform_delivery.py:92-170 | a record passes exactly when header, capabilities, evidence, decisions and the rules of its change hold |
| DeliveryGate.ValidateCapabilities | scripts/check_platform_delivery.py:102-133 | capabilities pass exactly when each is well formed and no name repeats |
| DeliveryGate.ValidateEvidence | scripts/check_platform_delivery.py:134-143 | evidence passes exactly when every role lists admissible files and no file serves two roles |
| DeliveryGate.Paths | scripts/check_platform_delivery.py:70-89 | a list is accepted exactly when it names at most 100 distinct safe paths of existing files |
| DeliveryGate.StrictObject | scripts/check_platform_delivery.py:45-53 | an object is accepted exactly when no key repeats, and holds exactly what was written |
| DeliveryLaws.WithoutARecordExactly | scripts/check_platform_delivery.py:210-222 | a change without a record is accepted exactly when both policies are sound and for one product and it touches no file of the gate and nothing either watches |
| DeliveryLaws.GateFilesNeedARecord | scripts/check_platform_delivery.py:15-29 | changing a file of the gate takes a record, whatever the policies list |
| DeliveryLaws.SafePathExactly | scripts/check_platform_delivery.py:70-82 | a path is safe exactly when it is short, without backslashes, and each segment is a plain name |
| DeliveryLaws.NoWayOut | scripts/check_platform_delivery.py:74-82 | no safe path has a segment that leads upwards or names a file of secrets, wherever it stands |
| DeliveryLaws.UnsoundPolicyIsRefused | scripts/check_platform_delivery.py:173-209 | a policy without one to a hundred relative patterns in every list is refused on either side |
| DeliveryLaws.RecordsExactly | scripts/check_platform_delivery.py:215-217 | the records of a change are exactly its JSON files under the record prefix |
| DeliveryRecords.PolicySpelledExactly | scripts/check_platform_delivery.py:173-209 | a policy is spelled by exactly one document, and is read back from it |
| DeliveryRecords.RecordAcceptedExactly | scripts/check_platform_delivery.py:92-170 | a document is an accepted record exactly when it spells a record whose reasons, capabilities, permissions, evidence and decisions fit its kind of change |
| DeliveryRecords.GateAcceptsExactly | scripts/check_platform_delivery.py:173-243 | the gate accepts a change exactly when both policies are sound and for one product, every changed record fits under both, and without a record nothing watched is touched |
| GoldenPath.LoadManifest | src/denali/golden_path.py:38-69 | a document loads exactly with version one, a name that is not blank, uniquely identified connections of known providers, the three expected lists and non-negative budgets |
| GoldenPath.LoadedIsWellFormed | src/denali/golden_path.py:43-68 | a manifest read from a document that loads has distinct connection ids, known providers and no negative budget |
| GoldenPath.VerifyBoundary | src/denali/golden_path.py:210-245 | the boundary check reports exactly the parts in which the connection differs for its provider |
| GoldenPath.Store.Reset | src/denali/golden_path.py:72-114 | an unconfirmed or malformed reset and a dry run change nothing; an applied one leaves the cleared database; dry run and applied run report the same counts |
| GoldenPath.ResetRemovesExactly | src/denali/golden_path.py:84-107 | the reset removes exactly the tenant's rows of the eleven tables and its unlisted connections, leaves everything else as it was, and reports the numbers removed |
| GoldenPath.SecondResetFindsNothing | src/denali/golden_path.py:84-107 | a second run counts zero everywhere and changes nothing |
| GoldenPath.VerifyTenant | src/denali/golden_path.py:117-245 | the check reports exactly the problems there are, provider boundaries included, and passes exactly when there is none |
| GoldenPath.VerificationAfterReset | src/denali/golden_path.py:166-199 | what the check finds after an applied reset, exactly: no forbidden connector, no budget exceeded under a manifest that loads, every expected edge and non-empty set missing, wrong connection ids only if a listed connection does not exist, and about each connection what it found before |
| GoldenLaws.LoadsExactly | src/denali/golden_path.py:38-69 | which documents load, said of their fields |
| GoldenLaws.ResetAnswersExactly | src/denali/golden_path.py:72-114 | a reset is refused exactly when it is to be applied without naming the tenant or lists something that is no id, and reports the tenant's rows and unlisted connections |
| GoldenLaws.EachAssetCounts | src/denali/golden_path.py:148-165 | one more asset counts for its kind exactly when it is an active one of the tenant |
| GoldenLaws.EachAssertionCounts | src/denali/golden_path.py:166-181 | one more assertion counts as an edge between its assets exactly when the tenant asserted the deployment, it is not withdrawn and both assets are there |
| GoldenLaws.EachRunCounts | src/denali/golden_path.py:183-193 | one more collection run counts as forbidden exactly when the tenant ran it with a forbidden connector |
| GoldenLaws.PassesExactly | src/denali/golden_path.py:117-245 | under a manifest that loads a tenant passes exactly with the listed connections as their entries say, the expected evidence and every budget kept |

## Left out

- CollectionStore.JobStore.SaveCheckpoint: a report is reduced to its counts, the resume flag and the retry delay; the JSON size limits are not modelled (an encoding error is a raising call).
- CollectionStore.JobStore.Claim: each store call happens at one instant; transaction-start timestamps while a call waits for a lock, and deletion of rows or connections, are not modelled.
- CollectionRecovery.Recover: the refusal of a limit outside 1 to 500 is not modelled; the statements hold for every limit.
- CollectionWorker.Collect: a collector is any finite sequence of saves, new dictionaries and in-place changes; its evidence writes, which the store fences by the same claim, are not modelled.
- Cascade.CascadesTerminate: which connections are healthy and what the two evaluations compute are inputs; a retry of an incomplete GitHub result is a job asked for like any other here, while its seeded checkpoint is part of the collection machine.
- OverlayHistory.RunsStayStacked: provider redirects are not modelled; the parent URL kept in history state, which nothing reads back, is a page and query.
- Navigation.CanonicalRoundTrip: splitting a URL into path and query is the URL parser's work and an input here; texts are sequences of Unicode scalar values, so lone surrogates do not occur.
- WorkspaceFence.DeliveryIsUnderTheInstalledProvider: delivery is the moment the request settles; the microtask in which the caller then resumes is not modelled.
- StatusReader.PollingFollowsTheLastResult: timers and listeners are events that may come at any time; the three-second interval is not modelled, nor renders that are thrown away before their effect.
- Polling.WaitForAcceptedOperation: the responses are a list that is long enough for the attempts; delays are not modelled, and how the two messages read is not either.
- Selection.SelectionHasProvenance: repository ids are numbers (a saved id in another spelling of a number is not modelled), and how a search matches is a parameter.
- ReadRoute.ResolveRead: Python's non-ASCII digits and spaces in numbers, and spellings of a UUID that its parser takes but the comparison after it refuses, are refused from the start; error detail texts are not modelled.
- DeliveryGate.Check: pattern matching, file access and stripping of white space are parameters; the size and content of a file do not change while the gate runs.
- GoldenPath.VerifyTenant: the order of the reported failures and a connection entry without a display name, which raises, are not modelled; expected lists of anything but texts are not either.
- GoldenPath.LoadManifest: a YAML mapping with keys that are not texts is not modelled.
- GoldenPath.Store.Reset: counts and deletions happen at one instant, while the script runs one statement after another, so rows that others add or remove in between can make its counts differ from what it removes; other spellings of a UUID than its hyphenated form, and rows of other tables removed by foreign keys, are not modelled.
- The bulk-address parser, the inventory query, status summaries of a connection, token verification, the setup-link check and configuration checks: single-branch or easy.
- The action guards of the GitHub panel (`perform`, `refresh`), evidence scopes and the other panels: user interface around the modelled selection.
- The validation worker, issue and detection engines, provider clients and collectors: not part of this model.
