# Verified model of the recipe normalizer

A model of the parts of the recipe normalizer where the hard invariants live, with
proofs. Everything is in terms of the system itself:

- **The extraction job protocol.** `JobQueue`, `Drafts` and `IngestionService` hold the
  tables and their transitions, written out as the code changes them and proved against
  one function per transition. `JobProtocol` is the transition system over the committed
  store: any number of worker processes claim, call the model, finish, crash, die and
  record crashes, while stale jobs are released and users submit, retry, review, edit and
  delete. `JobInvariants`, `JobSteps` and `JobTheorems` prove what every run keeps;
  `JobHistory` says what one step does to a job's history and to the recipes, for the
  theorems over runs. `JobReview` adds the review gate, `JobStuck` when a review has nothing
  left to decide on, and `JobCost` when paid calls are on no job, each with its exact
  condition; `JobOutcomes` says in the rows themselves what each step leaves, without the row functions
  the tables are proved against; `JobWitnesses` has concrete runs into the weak spots. `Worker` shows that the worker's
  own code takes exactly the steps of the protocol.
- **Boards.** `Boards` says what each cookbook operation is refused for and does;
  `BoardTheorems` proves what every run keeps and how access moves; `BoardService` is the
  code on the rows; `BoardLaws` says by ownership, member rows and visibility who may do what.
  `Listing` is the paginated list and `CopyRecipe` the deep copy.
- **The migrations into boards.** `MigrationPivot`, `MigrationBoards`, and `MigrationChain` for
  all three in a row.
- **The catalog.** `Catalog` is the merge graph, `CatalogMatching` matching, creating and
  the shared corpus, `CatalogNames` which texts find a row, and `CatalogRuns` runs of calls, merges
  and renames.
- **Compact cores.** `LlmClient` and `OpenRouter` (cost cap, structured call, tool loop
  and its translation), `TranscriptTexts` (what the chat of a tool loop says), `RateLimiter`, `Conversion`, `Scaling`, and `RenderingOrder` for when a
  rendering keeps the order.

`DraftCleaning` and `TextLaws` say what cleaning keeps and how texts compare, by positions and
characters. `Options` has the shared result types. History that no step reads (claims, closings,
bills, accepted events) is bookkeeping of the model, used to state what happened.
Worker tokens are unique per process, as `_make_worker_id` makes them: a new process never
takes the token of an earlier one.

Where the code and its comments differ, the model follows the code:

- `merge` lists its guards; none asks that the target is live or that it does not lead back to
  the source (`Catalog.MergeKeepsChains`).
- A shared `FuzzyCorpus` is documented as matching a fresh load; it does exactly while every
  call returns a live ingredient (`CatalogMatching.CorpusStaysSynced`,
  `CatalogMatching.CorpusFallsOutOfStep`).
- `_maybe_complete` is documented for jobs in review and does not look at the status; it is
  reached only for jobs in review or done, which `JobReview.ReviewGate` relies on.
- A submission checks for an active job of its source; `retry_job` does not
  (`JobReview.OneActiveJobUnlessRetried`).
- `worker.py` documents that a crashed attempt's spend still reaches its job; it does not when a
  failure handler or the commit raises after paid calls (`JobCost.StepFailsAfterWork`,
  `JobCost.CostIsExactUnlessSpendIsLost`).
- The spend of an attempt whose claim was lost is rolled back with it and is on no job; the bills of
  the model are of applied attempts only.
- `format_quantity` is documented for non-negative numbers; the model covers all.

`dafny verify dfyconfig.toml` checks the whole project.

## Model

| member | source | states |
|---|---|---|
| JobTheorems.ReachableInv | src/recipe_normalizer/worker.py:460-528 | every state that any interleaving of claims of due jobs, attempts, crashes, deaths, stale releases, submissions, reviews, edits and deletions can reach satisfies the protocol invariant (locks, attempts, costs, claims, workers, listings, fingerprints) |
| JobTheorems.FencingIsSound | src/recipe_normalizer/ingestion/queue.py:69-90 | a guarded transition passes exactly when the claim that started the caller's attempt is still the open one, and then closes that claim and no other; otherwise the claim was already closed and no table changes |
| JobTheorems.ClosedForGood | src/recipe_normalizer/worker.py:504-542 | over every run a closed claim stays closed with the same outcome, so a claim is closed at most once |
| JobTheorems.ClaimsAreOpenOrClosed | src/recipe_normalizer/ingestion/queue.py:93-117 | every claim ever made is open or closed, never both, and two open claims are of different jobs |
| JobTheorems.DraftsAreListedOnce | src/recipe_normalizer/worker.py:371-431 | every existing draft is listed by exactly one job, which is in review or done and has the same owner |
| JobTheorems.FingerprintsAreUnique | src/recipe_normalizer/extraction/persist.py:147-179 | at most one recipe carries an owner's fingerprint, and a draft that does is the first of its result |
| JobTheorems.OnlyAppliedExtractionsLeaveDrafts | src/recipe_normalizer/worker.py:371-431 | a step adds recipes only when it is an applied extraction, a transform or a manual save: fenced, failed and crashed attempts leave none |
| JobTheorems.CostIsConserved | src/recipe_normalizer/worker.py:322-332 | a job's cost is its opening cost plus what its bills spent less what was lost, and it has one bill for each of its claims that was applied |
| JobCost.OnlyUnbilledFailuresLoseSpend | src/recipe_normalizer/worker.py:476-528 | a step loses spend of a job if and only if it records, as an attempt that still holds the job, a failure with paid and unbilled calls; it loses exactly the cost of those calls |
| JobCost.StepFailsAfterWork | src/recipe_normalizer/worker.py:397-431 | a worker comes to such a failure if and only if it fails in a failure handler or while committing, after an attempt that has paid for calls |
| JobCost.LossesComeFromFailuresAfterWork | src/recipe_normalizer/worker.py:397-528 | over every run from the start, each loss was preceded by such a failure of that same attempt |
| JobCost.CostIsExactUnlessSpendIsLost | src/recipe_normalizer/worker.py:476-528 | over every run from the start, a job's cost is exactly what its applied attempts spent if and only if no step of the run lost spend of the job |
| JobTheorems.CostStaysUnderCap | src/recipe_normalizer/llm/client.py:212-236 | across all attempts and retries a submitted job costs less than the cap plus one call |
| JobTheorems.AttemptsCountClaims | src/recipe_normalizer/ingestion/queue.py:173-237 | claims since the last reset equal the counted attempts, plus one when the job runs or ended without failing, and never exceed three |
| JobTheorems.AttemptsAreBounded | src/recipe_normalizer/ingestion/queue.py:213-237 | over any run a job is claimed at most three times, plus three per user retry |
| JobTheorems.BackoffIsServed | src/recipe_normalizer/ingestion/queue.py:200-204 | a job requeued by its first failure is not claimed for 30 seconds, and by its second for 60, however the run goes on |
| JobTheorems.LocksAndReasons | src/recipe_normalizer/ingestion/queue.py:59-66 | a job is locked exactly while it runs, a failed one has an error and a reason, and attempts never exceed three |
| JobOutcomes.FinishEndsAs | src/recipe_normalizer/worker.py:397-431 | how an applied attempt leaves its job, by outcome and in the row itself: tried again after 30 and then 60 seconds and failed at the third attempt, failed at once, no recipe, or in review with the result's confidence and drafts, each with its cost, error and reason |
| JobOutcomes.FinishCommits | src/recipe_normalizer/worker.py:371-396 | an applied extraction adds exactly its drafts: owned by the job's user, unverified, in order, only the first with the source |
| JobOutcomes.OthersCommitNothing | src/recipe_normalizer/worker.py:397-431 | an applied attempt that ends in any other way adds no recipe |
| JobOutcomes.CrashEndsAs | src/recipe_normalizer/worker.py:476-501 | a recorded crash is tried again like an unreadable source, and costs what was spent unless it came after the work |
| JobOutcomes.ClaimableExactly | src/recipe_normalizer/ingestion/queue.py:93-117 | a free worker may claim exactly the queued jobs whose wait is over |
| JobOutcomes.ReleaseEndsAs | src/recipe_normalizer/ingestion/queue.py:213-237 | a released job is queued again at once, and the third time fails with a reason |
| JobOutcomes.SubmittableExactly | src/recipe_normalizer/ingestion/service.py:86-105 | a source may be submitted exactly when its user has no recipe of it and no job queued, running or in review for it |
| JobOutcomes.RetryRequeues | src/recipe_normalizer/ingestion/service.py:365-399 | a retry queues the job with its attempts at none and its cost kept |
| JobOutcomes.AcceptVerifies | src/recipe_normalizer/ingestion/service.py:402-422 | accepting verifies that draft alone, and closes the job exactly when all its existing drafts are then verified |
| JobOutcomes.RejectDeletes | src/recipe_normalizer/ingestion/service.py:425-455 | rejecting deletes and unlists that draft alone, and closes the job exactly when none is left to decide on |
| JobOutcomes.AcceptAllCloses | src/recipe_normalizer/ingestion/service.py:461-505 | a bulk accept closes exactly the user's jobs in review whose confidence is at least the threshold, and verifies exactly the user's drafts they list |
| JobOutcomes.SumAdds | src/recipe_normalizer/llm/client.py:218-236 | the costs of calls add up |
| JobSteps.StepKeeps | src/recipe_normalizer/worker.py:460-528 | every enabled step keeps the protocol invariant |
| JobReview.ReviewGate | src/recipe_normalizer/ingestion/service.py:108-128 | however a run goes on, an existing draft keeps its owner, has the content of its last edit and stays listed by its job, which cannot be retried away; once the job is done the draft is verified and both stay so, whatever is edited |
| JobHistory.StepRecipe | src/recipe_normalizer/cookbook/service.py:2012-2062 | a step changes a recipe's content exactly as an edit of it does, never its owner, fingerprint or origin, and never unverifies it |
| JobReview.RecipesLeaveByOwner | src/recipe_normalizer/ingestion/service.py:425-455 | a recipe disappears exactly when its owner rejects or deletes it |
| JobReview.RetryDiscardsNothing | src/recipe_normalizer/ingestion/service.py:365-399 | a job that may be retried lists no draft and no draft names it |
| JobStuck.GetsStuckExactly | src/recipe_normalizer/ingestion/service.py:108-128 | a job becomes one in review with nothing to decide on if and only if the step is its applied extraction without a usable recipe, or deletes the last existing draft it lists outside the review |
| JobStuck.StuckUntilBulkAccept | src/recipe_normalizer/ingestion/service.py:461-505 | a job in review whose drafts are gone keeps its row if and only if no bulk accept at or below its confidence occurs, and blocks resubmission meanwhile |
| JobStuck.StuckExactly | src/recipe_normalizer/ingestion/service.py:461-505 | over every run from the start, a job ends stuck if and only if some step got it stuck and no bulk accept at or below its confidence came after |
| JobReview.OneActiveJobUnlessRetried | src/recipe_normalizer/ingestion/service.py:365-399 | one active job per source survives a step if and only if the step is not a retry beside another active job of the source |
| JobWitnesses.RetryMakesTwoActiveJobs | src/recipe_normalizer/ingestion/service.py:387 | a concrete run reaches two active jobs for one source |
| JobWitnesses.FailureAfterWorkLosesSpend | src/recipe_normalizer/worker.py:397-431 | concrete runs, through a failing commit and through a failing handler, reach a paid call that no job was billed for |
| JobWitnesses.UnusableExtractionGetsStuck | src/recipe_normalizer/extraction/persist.py:151 | a concrete run reaches a job in review that lists nothing |
| JobQueue.JobTable.ClaimNext | src/recipe_normalizer/ingestion/queue.py:93-117 | claims a due job such that no queued job whose wait is over is older, and changes only its row; claims nothing exactly when none is due |
| JobQueue.JobTable.CompleteNeedsReview | src/recipe_normalizer/ingestion/queue.py:120-145 | applies exactly when the guard passes, and then changes the one row as the transition says |
| JobQueue.JobTable.CompleteNotARecipe | src/recipe_normalizer/ingestion/queue.py:148-170 | the same for a rejected source, with the reason truncated |
| JobQueue.JobTable.Fail | src/recipe_normalizer/ingestion/queue.py:173-210 | the same for a failure: requeued with backoff or failed for good, with its cost when there is one |
| JobQueue.JobTable.ReleaseStale | src/recipe_normalizer/ingestion/queue.py:213-237 | releases exactly the running jobs locked for more than ten minutes, each once, and counts them |
| Worker.ProcessJob | src/recipe_normalizer/worker.py:275-431 | stages the row and the drafts the protocol settles on; refused by the guard it changes no job. Said of the row itself: an unreadable source is queued again while fewer than three attempts are counted and fails at the third, an unsupported one, a cap stop and a duplicate fail at once, a rejection is no recipe, and other results go to review with their confidence and drafts |
| Worker.PersistAndComplete | src/recipe_normalizer/worker.py:371-396 | saves all drafts of a result or none, also when matching trips the cap half-way |
| Worker.ProcessOne | src/recipe_normalizer/worker.py:504-528 | leaves the tables exactly as the protocol's finishing step, rolled back when the claim was lost |
| Worker.CrashCost | src/recipe_normalizer/worker.py:426-431 | a crash is recorded with the attempt's own cost when the work raised it, and with none when a handler or the commit did |
| Worker.FailInFreshSession | src/recipe_normalizer/worker.py:476-501 | leaves the tables exactly as the protocol's crash-recording step |
| Worker.ClaimOne | src/recipe_normalizer/worker.py:460-473 | is a release of every stale job followed by a claim of the oldest due one, if any |
| Worker.RunWorker | src/recipe_normalizer/worker.py:545-603 | gives up at the first poll that ends ten failures in a row, and only then; finishes the poll during which a stop signal comes and makes no other; once means at most one poll; waits after each unproductive poll |
| Drafts.CleanRecipe | src/recipe_normalizer/extraction/persist.py:44-97 | cleans a recipe as specified, and drops it exactly when no usable line is left |
| Drafts.CleaningKeepsLines | src/recipe_normalizer/extraction/persist.py:44-97 | regrouping keeps all usable lines, cleaned, in order, and leaves no empty group |
| DraftCleaning.LinesKept | src/recipe_normalizer/extraction/persist.py:44-97 | exactly the lines with a visible text are kept, in order, each as it was but for a quantity that is not positive |
| DraftCleaning.GroupsKept | src/recipe_normalizer/extraction/persist.py:44-97 | exactly the groups with such a line are kept, in order, under their names |
| DraftCleaning.StepsKept | src/recipe_normalizer/extraction/persist.py:44-97 | exactly the visible steps are kept, unchanged and in order |
| DraftCleaning.TitleIs | src/recipe_normalizer/extraction/persist.py:44-97 | the title is what is left between the white space around it, cut to 300 characters, or a fixed one when nothing is |
| DraftCleaning.DroppedExactly | src/recipe_normalizer/extraction/persist.py:44-97 | a recipe is dropped exactly when no line of it has a visible text |
| DraftCleaning.KeyComparesTexts | src/recipe_normalizer/extraction/persist.py:100-111 | two recipes have the same content key exactly when title, headed lines and steps, chained in order, agree up to case |
| Drafts.PlanPicksFirsts | src/recipe_normalizer/extraction/persist.py:147-179 | a recipe becomes a draft exactly when it is usable and its content key did not occur before; drafts keep the order |
| Drafts.PlanHasDistinctKeys | src/recipe_normalizer/extraction/persist.py:100-111 | no two drafts of a result share a content key |
| Drafts.RecipeTable.CreateRecipe | src/recipe_normalizer/cookbook/service.py:1276-1284 | refuses exactly a fingerprint its owner already has, and otherwise adds one row |
| Drafts.RecipeTable.PersistDrafts | src/recipe_normalizer/extraction/persist.py:114-179 | creates the planned drafts in order with new ids, the first one with the fingerprint, or reports the duplicate or the cap |
| IngestionService.Submit | src/recipe_normalizer/ingestion/service.py:86-105 | is refused exactly while the source has a recipe or an active job, and otherwise adds one queued job |
| IngestionService.RetryJob | src/recipe_normalizer/ingestion/service.py:365-399 | requeues exactly the user's failed or rejected job |
| IngestionService.MaybeComplete | src/recipe_normalizer/ingestion/service.py:108-128 | closes the job exactly when all its existing drafts are verified |
| IngestionService.AcceptDraft | src/recipe_normalizer/ingestion/service.py:402-422 | verifies a listed draft of the user and closes the job when it was the last |
| IngestionService.RejectDraft | src/recipe_normalizer/ingestion/service.py:425-455 | deletes a listed draft of the user, unlists it and closes the job when none is left |
| IngestionService.AcceptAllHighConfidence | src/recipe_normalizer/ingestion/service.py:461-505 | verifies the user's drafts of, and closes, exactly the jobs in review at or above the threshold |
| IngestionService.UpdateRecipe | src/recipe_normalizer/cookbook/service.py:2012-2062 | refused exactly without the right to edit, and otherwise replaces the content of that one recipe |
| BoardTheorems.BoardsStayConsistent | src/recipe_normalizer/cookbook/service.py:447-943 | over every run: each recipe is on a board, each user has at most one default, no owner has a member row, and a link exists exactly while a cookbook is not private |
| BoardTheorems.StepKeeps | src/recipe_normalizer/cookbook/service.py:447-992 | every operation keeps the board invariant |
| BoardTheorems.DefaultForGood | src/recipe_normalizer/cookbook/service.py:673-704 | over every run a default cookbook stays its owner's default |
| BoardTheorems.CookbooksLeaveByOwner | src/recipe_normalizer/cookbook/service.py:673-704 | a cookbook goes only by its owner's deletion, and never the default |
| BoardTheorems.RecipesLeaveByOwner | src/recipe_normalizer/cookbook/service.py:2069-2095 | a recipe goes exactly when its own owner deletes it, and never changes hands |
| BoardTheorems.DeleteCookbookRehomes | src/recipe_normalizer/cookbook/service.py:614-704 | deleting a cookbook keeps all recipes, re-homes exactly those placed only there in their owner's default, and raises nobody's access above before or what that default grants |
| BoardTheorems.RescuedFacts | src/recipe_normalizer/cookbook/service.py:614-670 | the rescue adds exactly the owed placements, and cookbooks only as missing defaults |
| BoardTheorems.RecipeAccessIsMaximum | src/recipe_normalizer/cookbook/service.py:334-371 | access to a recipe is owner or the maximum of the one-cookbook rule over its cookbooks |
| BoardLaws.CookbookAccessExactly | src/recipe_normalizer/cookbook/service.py:195-225 | who may own, edit and read a cookbook: the owner; editors besides; viewers, and anyone while it is unlisted or public, besides |
| BoardLaws.AnonymousReadsExactly | src/recipe_normalizer/cookbook/service.py:195-225 | without an account one reads exactly the unlisted and public cookbooks and never more |
| BoardLaws.StrangersReadExactly | src/recipe_normalizer/cookbook/service.py:195-225 | and so does a user who neither owns nor joined it |
| BoardLaws.RecipeAccessExactly | src/recipe_normalizer/cookbook/service.py:334-371 | a recipe is read by its owner and by the readers of a cookbook holding it, and edited by its owner and the editors of one |
| BoardLaws.RefusedExactly | src/recipe_normalizer/cookbook/service.py:447-992 | each operation goes through exactly when ownership, member rows, visibility and placements allow it |
| BoardLaws.RefusalsTell | src/recipe_normalizer/cookbook/service.py:447-992 | all other refusals are as not found, but for a last placement, a default cookbook and an invitation or share that names nobody or oneself |
| BoardLaws.ViewersOnlyRead | src/recipe_normalizer/cookbook/service.py:732-778 | a new viewer reads every recipe of the cookbook and can neither add, remove, save nor create one in it |
| BoardLaws.EditorsEdit | src/recipe_normalizer/cookbook/service.py:732-778 | a new editor can create a recipe in it, add one they may read, remove one that is placed elsewhere too, and edit those it holds |
| BoardLaws.MembersDoNotManage | src/recipe_normalizer/cookbook/service.py:707-860 | neither may change its visibility, invite, set roles, remove members or delete it |
| BoardLaws.SetVisibilityLinks | src/recipe_normalizer/cookbook/service.py:707-729 | going private clears the link, and otherwise it is kept or, where there was none, minted |
| BoardLaws.RecipesAreFiled | src/recipe_normalizer/cookbook/service.py:1286-1320 | a created, saved or shared recipe is owned by the one who gets it and placed once, where asked or in their default |
| BoardLaws.PlacementsChange | src/recipe_normalizer/cookbook/service.py:864-992 | adding, saving an own recipe, removing and deleting change exactly the placements they name |
| BoardTheorems.MorePlacementsMoreAccess | src/recipe_normalizer/cookbook/service.py:334-371 | access grows with placements |
| BoardTheorems.AddRaisesToCookbook | src/recipe_normalizer/cookbook/service.py:864-892 | adding a recipe raises each user's access to exactly the maximum of before and their access to the cookbook, and touches no other recipe |
| BoardTheorems.AddedRecipesBecomeEditable | src/recipe_normalizer/cookbook/service.py:864-892 | who adds a recipe they may only read can edit it afterwards |
| BoardTheorems.RemoveRaisesNothing | src/recipe_normalizer/cookbook/service.py:895-943 | removing a placement raises no access, leaves the owner theirs and the recipe on a board |
| BoardTheorems.SaveLeavesOriginalsAlone | src/recipe_normalizer/cookbook/service.py:946-992 | saving someone else's recipe gives an owned copy in exactly the chosen cookbook and changes no access to any existing recipe |
| BoardService.BoardStore.ResolveRecipeAccess | src/recipe_normalizer/cookbook/service.py:334-371 | the loop over the placements computes the recipe's access, which `BoardLaws.RecipeAccessExactly` spells out |
| BoardService.BoardStore.EnsureDefault | src/recipe_normalizer/cookbook/service.py:440-499 | returns the default, making it exactly when missing |
| BoardService.BoardStore.Rescue | src/recipe_normalizer/cookbook/service.py:614-670 | with one default lookup per owner, ends as rescuing recipe by recipe |
| BoardService.BoardStore.DeleteCookbook | src/recipe_normalizer/cookbook/service.py:673-704 | refusals and new state of a deletion |
| BoardService.BoardStore.SetVisibility | src/recipe_normalizer/cookbook/service.py:707-729 | refusals and new state of a visibility change: link kept, minted or cleared |
| BoardService.BoardStore.Invite | src/recipe_normalizer/cookbook/service.py:732-778 | refusals and new state of an invitation, never a row for the owner |
| BoardService.BoardStore.AddRecipe | src/recipe_normalizer/cookbook/service.py:864-892 | refusals and new state of adding a placement |
| BoardService.BoardStore.RemoveRecipe | src/recipe_normalizer/cookbook/service.py:895-943 | refusals and new state of removing one; the last is kept |
| BoardService.BoardStore.CreateRecipe | src/recipe_normalizer/cookbook/service.py:1286-1320 | a new recipe with exactly one placement, in the given cookbook or the default |
| BoardService.BoardStore.SaveRecipe | src/recipe_normalizer/cookbook/service.py:946-992 | a reference for an own recipe, a copy for another's |
| BoardService.BoardStore.DeleteRecipe | src/recipe_normalizer/cookbook/service.py:2069-2095 | only the row's owner, and all placements with it |
| Listing.PagesGiveTheWholeList | src/recipe_normalizer/cookbook/service.py:1794-1820 | pages concatenate to all selected recipes, each once, newest first, as many as the total |
| Listing.SortedIsUnique | src/recipe_normalizer/cookbook/service.py:1803-1811 | the order is total: the same recipes have one sorted list |
| Listing.ListedIsReadable | src/recipe_normalizer/cookbook/service.py:1609-1627 | a listed recipe is readable by the access rule; every one in scope that passes the filters is listed; favorites are own recipes |
| Listing.ListedExactly | src/recipe_normalizer/cookbook/service.py:1609-1795 | listed are exactly the recipes that are the user's own or in a cookbook they own or joined, that match, and that are own favorites, or own and none, where asked |
| Listing.SortedIsNewestFirst | src/recipe_normalizer/cookbook/service.py:1803-1811 | earlier in the list is created later, or at the same time with the larger id |
| CopyRecipe.Copy | src/recipe_normalizer/cookbook/service.py:1508-1595 | the copy belongs to the new owner, has the header of the source and the given provenance, no fingerprint, extraction metadata or notes, and is no favorite; its groups and steps are isomorphic to the source's |
| CopyRecipe.CopyIsIsomorphic | src/recipe_normalizer/cookbook/service.py:1550-1595 | same groups and lines in order, fresh unique ids, and the refs that name a line, in order and as often, now naming the same position of the copy |
| CopyRecipe.CorrespondenceIsOneToOne | src/recipe_normalizer/cookbook/service.py:1580-1586 | that fixes the copied refs: equal stay equal, different stay different |
| MigrationPivot.Pivot | alembic/versions/4e1b7c9a52d8_cookbooks_pivot.py:205-449 | the migration produces the specified tables |
| MigrationPivot.PivotKeepsOwnersAccess | alembic/versions/4e1b7c9a52d8_cookbooks_pivot.py:346-449 | afterwards every recipe is in a cookbook that its owner owns or edits |
| MigrationPivot.PivotPlaces | alembic/versions/4e1b7c9a52d8_cookbooks_pivot.py:320-358 | a shared recipe is in the cookbook of the shared cookbook that was created first, or has the smallest id, of those holding it; any other in its owner's default |
| MigrationPivot.PivotMakes | alembic/versions/4e1b7c9a52d8_cookbooks_pivot.py:231-298 | every user gets a default cookbook, every shared cookbook becomes one of its creator that is none, and there are no others |
| MigrationPivot.RowsComeFrom | alembic/versions/4e1b7c9a52d8_cookbooks_pivot.py:399-433 | every member row is of a shared member, with the real record of who added them, or of the owner of a recipe that went there, added by the cookbook's owner |
| MigrationPivot.ClaimShared | alembic/versions/4e1b7c9a52d8_cookbooks_pivot.py:332-340 | the first link of each recipe claims it; claims and contested links make up all links |
| MigrationPivot.OldestWins | alembic/versions/4e1b7c9a52d8_cookbooks_pivot.py:321-340 | the winner of a recipe is its oldest shared cookbook |
| MigrationPivot.BuildMemberRows | alembic/versions/4e1b7c9a52d8_cookbooks_pivot.py:399-433 | the loops keep the specified rows and count the synthesized ones |
| MigrationPivot.RowsAreProper | alembic/versions/4e1b7c9a52d8_cookbooks_pivot.py:405-418 | no two rows for one person in a cookbook, and none for its owner |
| MigrationPivot.MembersStayEditors | alembic/versions/4e1b7c9a52d8_cookbooks_pivot.py:420-423 | every shared member but the creator keeps a row with the real record of who added them |
| MigrationPivot.RealRowsWin | alembic/versions/4e1b7c9a52d8_cookbooks_pivot.py:420-431 | a real row wins over a synthesized one |
| MigrationBoards.Sweep | alembic/versions/b7d3f0c11a94_cookbooks_pivot_finalize.py:90-151 | every recipe without a cookbook goes to its owner's default, made if missing; nothing else moves |
| MigrationBoards.FindOwnerless | alembic/versions/b7d3f0c11a94_cookbooks_pivot_finalize.py:101-117 | lists exactly the owners of homeless recipes without a default, each once |
| MigrationBoards.SweepKeepsOwnersAccess | alembic/versions/b7d3f0c11a94_cookbooks_pivot_finalize.py:90-151 | after arbitrary cookbook-less inserts and the sweep, every owner still reaches every recipe of theirs |
| MigrationBoards.FoldCollections | alembic/versions/a3f7c2d8e015_cookbooks_boards_finalize.py:261-288 | places exactly the owner's own listed recipes and counts them |
| MigrationBoards.SkippedAreForeign | alembic/versions/a3f7c2d8e015_cookbooks_boards_finalize.py:273-281 | what is not folded is exactly the listings of other people's recipes |
| MigrationBoards.UpgradePlaces | alembic/versions/a3f7c2d8e015_cookbooks_boards_finalize.py:183-297 | after the upgrade a recipe is placed in its home and its collections' cookbooks, all at one time |
| MigrationBoards.RestoreHomes | alembic/versions/a3f7c2d8e015_cookbooks_boards_finalize.py:396-411 | each placed recipe goes home to its oldest placement |
| MigrationBoards.DowngradeIsTotal | alembic/versions/a3f7c2d8e015_cookbooks_boards_finalize.py:396-469 | after the downgrade every recipe has a home, and one on a single board its old one |
| MigrationBoards.RoundTripRestores | alembic/versions/a3f7c2d8e015_cookbooks_boards_finalize.py:401 | up and down restores a home if and only if no cookbook made of its collections has a smaller id |
| MigrationBoards.SomeRecipesComeBackElsewhere | alembic/versions/a3f7c2d8e015_cookbooks_boards_finalize.py:401 | a concrete recipe that comes back in another cookbook |
| MigrationBoards.SweepCanFollowPivot | alembic/versions/b7d3f0c11a94_cookbooks_pivot_finalize.py:90-151 | what the pivot leaves, with any homeless recipes inserted since, meets all that the sweep needs |
| MigrationChain.Migrate | alembic/versions/a3f7c2d8e015_cookbooks_boards_finalize.py:183-297 | one run of pivot, homeless inserts, sweep, any writes the constraints allow, and the move to boards: each migration is fit to follow the one before |
| MigrationChain.ChainPlacesEveryRecipe | alembic/versions/a3f7c2d8e015_cookbooks_boards_finalize.py:183-297 | through every such chain every recipe is in a cookbook its owner reaches after the sweep, and at the end on the board it lived in, which its owner reaches if they did before; the boards are fit for the way back |
| Catalog.FollowMergeChain | src/recipe_normalizer/catalog/service.py:415-433 | ends on every pointer graph, with the live ingredient exactly when the chain reaches one |
| Catalog.ReachesOnce | src/recipe_normalizer/catalog/service.py:415-433 | a chain reaches at most one live ingredient |
| Catalog.MergeKeepsChains | src/recipe_normalizer/catalog/service.py:496-557 | a merge keeps every chain live if and only if the target does not end at the source, and then re-roots exactly the chains that did |
| Catalog.MergesCanMakeACycle | src/recipe_normalizer/catalog/service.py:526 | two merges that the guards allow leave nothing live |
| Catalog.MergeRefusedExactly | src/recipe_normalizer/catalog/service.py:514-532 | a merge is refused exactly into itself, of or into a row that does not exist, and of one that is merged already |
| Catalog.MergeConservesAliases | src/recipe_normalizer/catalog/service.py:534-545 | no alias is lost, the source's name the target, and the source's name is added exactly when missing |
| Catalog.MergeKeepsLinesLive | src/recipe_normalizer/cookbook/service.py:2282-2292 | no line ends on a merged ingredient, exactly when the target is live or there was none to move |
| CatalogMatching.Match | src/recipe_normalizer/catalog/service.py:174-214 | alias first, then name, then the chain, and nothing for a blank text; `CatalogNames` says it of the texts themselves |
| CatalogNames.MatchFindsVariants | src/recipe_normalizer/catalog/service.py:120-132 | a live row is found under every text that has the words of its name, in any case of the letters a to z and with any white space around and between them, if nothing else has the name |
| CatalogNames.MatchFindsNothingElse | src/recipe_normalizer/catalog/service.py:174-214 | and nothing is found when no alias and no row has the name in any case |
| CatalogNames.MatchTakesFirstAlias | src/recipe_normalizer/catalog/service.py:184-198 | of the aliases that have the name the first row decides, before any name |
| CatalogNames.SearchDecides | src/recipe_normalizer/catalog/service.py:361-412 | where nothing matches, what the search found above the cut-off decides, then what the model picked, if they are live; otherwise the row has exactly the name |
| CatalogNames.CreatedIsFound | src/recipe_normalizer/catalog/service.py:222-245 | the row a call creates is the one every later call returns for each such text, changing nothing |
| CatalogMatching.SourceNameResolvesToTarget | src/recipe_normalizer/catalog/service.py:538-545 | after a merge whose target does not end at the source, and with no other ingredient disputing it, the source's name leads where the target leads if and only if some alias or row answers to it, and otherwise nowhere |
| CatalogMatching.CatalogStore.Merge | src/recipe_normalizer/catalog/service.py:496-557 | refusals and new state of a merge |
| CatalogMatching.LoadCorpus | src/recipe_normalizer/catalog/service.py:253-286 | lists exactly the aliases and names of live ingredients |
| CatalogMatching.FuzzyCorpus.Add | src/recipe_normalizer/catalog/service.py:321-333 | adds an entry exactly when built and the id is not listed |
| CatalogMatching.CatalogStore.MatchOrCreate | src/recipe_normalizer/catalog/service.py:336-412 | takes exactly one step of the specification, whether or not the corpus was built |
| CatalogMatching.CorpusStaysSynced | src/recipe_normalizer/catalog/service.py:289-333 | the shared corpus agrees with a fresh load after a call if and only if the call returned a live ingredient |
| CatalogMatching.MergedRowComesBack | src/recipe_normalizer/catalog/service.py:222-245 | a call returns a merged ingredient exactly when nothing matches, nothing hits and a merged row has exactly the name |
| CatalogMatching.CorpusFallsOutOfStep | src/recipe_normalizer/catalog/service.py:361-412 | from the state before the call alone: some call leaves the corpus other than a fresh load if and only if nothing matches, nothing live is hit, and a merged row has exactly the name |
| CatalogMatching.CorpusCanDisagree | src/recipe_normalizer/catalog/service.py:222-245 | a concrete acyclic catalog, made by two calls, a merge and a rename of the merged row, on which the corpus falls out of step |
| CatalogMatching.RenamedComesAbout | src/recipe_normalizer/catalog/service.py:496-592 | that catalog is what merging and then renaming leave |
| CatalogRuns.MergeKeepsCovered | src/recipe_normalizer/catalog/service.py:534-545 | every merged name stays carried by an alias of a live ingredient through a merge if and only if the source's name is not blank and the target is live or others carry the names |
| CatalogRuns.RenameKeepsCovered | src/recipe_normalizer/catalog/service.py:565-592 | and through a rename if and only if the row is live or its new name is carried |
| CatalogRuns.SafeEventsKeepGood | src/recipe_normalizer/catalog/service.py:361-412 | what calls rely on is kept by every call, and by a merge or a rename if and only if it is safe in that sense |
| CatalogRuns.SharedCorpusAgrees | src/recipe_normalizer/catalog/service.py:289-333 | over any run of calls, safe merges, safe renames and new operations that starts with nothing merged, the shared corpus lists what a fresh load would |
| CatalogRuns.EveryNameGetsALiveIngredient | src/recipe_normalizer/catalog/service.py:361-412 | and every call returns a live ingredient |
| LlmClient.Client.ToolLoop | src/recipe_normalizer/llm/client.py:358-418 | at most the allowed calls, each below the cap and billed, and the transcript, outcome and error that the replies determine |
| LlmClient.Client.Structured | src/recipe_normalizer/llm/client.py:240-294 | at most two calls, the second only after invalid output, both billed; succeeds exactly with a valid text, and fails as refused or without text exactly when the last answer is |
| LlmClient.OvershootIsOneCall | src/recipe_normalizer/llm/client.py:212-216 | the spend exceeds the cap by less than one call |
| LlmClient.FirstTextIs | src/recipe_normalizer/llm/client.py:281 | the text that is validated is that of the first text block |
| LlmClient.SpendAdds | src/recipe_normalizer/llm/client.py:218-236 | the spend of replies adds up |
| TranscriptTexts.TranscriptIs | src/recipe_normalizer/llm/client.py:395-414 | the transcript is the opening and then, for each reply, its blocks and, in order, what running each tool use returned, or raised and marked as an error |
| OpenRouter.TranslateMessages | src/recipe_normalizer/llm/openrouter.py:145-161 | the loops compute the chat, or refuse exactly an unsupported role or block |
| OpenRouter.ToolLoopChatsArePaired | src/recipe_normalizer/llm/openrouter.py:67-161 | in the chat of every tool-loop transcript each call is answered right after its message, once, in order, and nothing else is a tool message |
| TranscriptTexts.ToolLoopTextsAreKept | src/recipe_normalizer/llm/openrouter.py:67-161 | in that chat the system text and the whole opening come first; the message of each reply has its texts, a line each, and in order its tool uses' ids, names and inputs as calls; and the answer to each call tells what its execution returned, with each text part in order, or raised |
| TranscriptTexts.PlainMessagesAreKept | src/recipe_normalizer/llm/openrouter.py:145-161 | plain messages of either role pass as they are |
| OpenRouter.ImagesAreKept | src/recipe_normalizer/llm/openrouter.py:67-116 | hoisting loses, repeats and reorders no image |
| RateLimiter.SlidingWindowLimiter.Check | src/recipe_normalizer/ratelimit.py:28-37 | accepts exactly when fewer than the maximum of accepted events are in the window; holds the in-window suffix of the history |
| RateLimiter.LimitHolds | src/recipe_normalizer/ratelimit.py:28-37 | no window of that length, wherever it ends, holds more than the maximum |
| RateLimiter.WindowsHoldAtMostMax | src/recipe_normalizer/ratelimit.py:28-37 | the counting behind it, for any spaced history |
| Conversion.ScalingCommutesWithConversion | src/recipe_normalizer/cookbook/scaling.py:223-229 | scaling a stored amount agrees with converting the scaled quantity to 0.005*(f+1), with the same unit and flag, and one exists exactly when the other does |
| Conversion.AmountIsLinear | src/recipe_normalizer/catalog/conversion.py:36-78 | before rounding, every conversion branch is linear |
| Conversion.MassesAre | src/recipe_normalizer/catalog/conversion.py:36-78 | a mass is its grams, or for an ingredient measured by volume the volume that weighs as much at its density, marked approximate; none without a density |
| Conversion.VolumesAre | src/recipe_normalizer/catalog/conversion.py:36-78 | a volume is its millilitres, or for one measured by mass the known weight of the unit, or else the volume times the density |
| Conversion.CountsAre | src/recipe_normalizer/catalog/conversion.py:36-78 | pieces need a known weight and are then converted like that mass, always marked approximate |
| Conversion.ScalingMultiplies | src/recipe_normalizer/cookbook/scaling.py:223-229 | scaling multiplies quantity and stored amount by the factor and changes nothing else |
| Scaling.FormatQuantity | src/recipe_normalizer/cookbook/scaling.py:47-94 | the loop renders the quantity as specified |
| Scaling.RenderingIsClose | src/recipe_normalizer/cookbook/scaling.py:47-94 | what is shown is within 0.05 of the quantity, within the snap tolerance for glyphs and wholes, and positive when the quantity is |
| Scaling.FractionsAreExact | src/recipe_normalizer/cookbook/scaling.py:29-39 | a whole number plus a glyph fraction is shown exactly |
| Scaling.WholesAreExact | src/recipe_normalizer/cookbook/scaling.py:79-83 | a positive whole number is shown as it is |
| Scaling.RenderingIsNotMonotone | src/recipe_normalizer/cookbook/scaling.py:75-94 | a concrete pair that is shown in the wrong order |
| RenderingOrder.DecimalsKeepOrder | src/recipe_normalizer/cookbook/scaling.py:85-94 | two quantities shown as decimals are shown in order, with one place, two, or three digits |
| RenderingOrder.InversionsExactly | src/recipe_normalizer/cookbook/scaling.py:66-94 | of two quantities the larger is shown as less if and only if they share their whole number and their fractions fall into one of six narrow bands around 1/8, 1/3, 3/8, 5/8, 2/3 and 7/8 |
| RenderingOrder.OrderIsKeptAcross | src/recipe_normalizer/cookbook/scaling.py:47-94 | quantities at least a given gap apart are always shown in order if and only if the gap is more than 0.04 |

## Left out

- Network, browser, PDF, image and HTML acquisition, prompts, provider HTTP and its retries, file storage: what an attempt acquires and what the model answers are inputs with a non-negative cost.
- Fuzzy scoring and full-text or trigram matching: what a search finds is an input that must come from the corpus; the only law used is that an equal string is found. Which of several equally good entries wins, and the order of the band, are therefore open.
- Row locks and SKIP LOCKED: a step is one committed transaction; a release in the protocol may take any subset of the stale jobs, and a claim any due job, since a worker skips the rows that others hold. That a lone worker takes an oldest due job is `JobQueue.JobTable.ClaimNext`.
- Concurrent user requests: the last-placement check and the active-job check read and then write, and calls of the services are taken one after the other.
- Artifacts kept on jobs for later attempts, error texts of duplicates beyond their fixed part, and log lines.
- Floating point and Numeric columns: money and quantities are exact numbers, and rounding is to the even neighbour where the code rounds.
- Case folding and white space beyond ASCII, the hash of the content key (the key itself is compared), and the text of a rendered quantity or of a data URI (what it denotes is kept).
- User accounts and their deletion, sessions, public recipe links, error envelopes, routers, masking of another user's favorites in lists.
- The rename, description and cover of a cookbook, and personal flags: they touch none of the modelled rows.
- Who may edit a recipe is the access rule of `Boards`; the protocol lets any user edit any recipe at any time, so its theorems hold whatever that rule allows. Normalising the edited lines and recording the editor are left out.
- Creating a cookbook, changing and removing members, leaving and sharing are operations of `Boards` and in every run of `BoardTheorems`, without a method of their own.
- The description, servings, times, notes and language of an extracted recipe and the optional flag and note of its lines: `Drafts` cleans titles, groups, lines and steps.
- Units and their aliases, dietary flags, URL fingerprints, JSON-LD mapping, schema tightening and recommendations: small pure helpers.
- The display string of a scaled line and the assembling of a scaled recipe from its lines.
- IngestionService.AcceptAllHighConfidence: does not model the returned count of accepted recipes, because no state depends on it.
- IngestionService.Submit: models the checks and the row of a submission with a source fingerprint, not the validation of URLs, texts and files.
- Worker.RunWorker: takes what each poll comes to and when signals arrive as inputs; how long a wait lasts is not modelled.
- A merge or rename while another operation holds a built corpus: in `CatalogRuns` a corpus ends with its operation.
