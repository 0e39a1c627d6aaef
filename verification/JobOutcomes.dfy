/** What each step leaves in the rows, said field by field: when a job waits, fails,
    is reviewed or done, with which counts, times and texts, and which steps may be
    taken at all. */
module JobOutcomes {
  import opened Options
  import opened JobQueue
  import opened Drafts
  import opened IngestionService
  import opened JobProtocol
  import opened JobInvariants
  import opened JobSteps

  // ---------------------------------------------------------------------------
  // Rows
  // ---------------------------------------------------------------------------

  /** `cut` is the text, shortened to its first `limit` characters. */
  predicate IsCut(cut: Option<string>, text: string, limit: nat) {
    cut.Some? && cut.value <= text && (cut.value == text || |cut.value| == limit) && |cut.value| <= limit
  }

  /** What no transition of an attempt touches. */
  predicate SameIdentity(before: Job, after: Job) {
    && after.user == before.user && after.fingerprint == before.fingerprint
    && after.transform == before.transform && after.createdAt == before.createdAt
  }

  predicate SameReview(before: Job, after: Job) {
    after.confidence == before.confidence && after.produced == before.produced
  }

  predicate Free(job: Job) {
    job.lockedAt.None? && job.lockedBy.None?
  }

  /** Another try, half a minute after the first failure and a minute after the second. */
  predicate Waits(before: Job, after: Job, spent: real, now: Time) {
    && SameIdentity(before, after) && SameReview(before, after) && Free(after)
    && after.status == Queued
    && after.attempts == before.attempts + 1
    && (before.attempts == 0 ==> after.nextAttemptAt == Some(now + 30))
    && (before.attempts == 1 ==> after.nextAttemptAt == Some(now + 60))
    && after.cost == before.cost + spent
    && after.error == before.error && after.reason == before.reason
  }

  /** The reason a job had, or a standard one. */
  predicate KeepsReason(before: Job, after: Job) {
    if before.reason.Some? && |before.reason.value| > 0 then after.reason == before.reason
    else after.reason == Some("extraction failed")
  }

  /** No other try. */
  predicate FailsForGood(before: Job, after: Job, error: string, spent: real) {
    && SameIdentity(before, after) && SameReview(before, after) && Free(after)
    && after.status == Failed
    && after.attempts == before.attempts + 1
    && after.nextAttemptAt.None?
    && after.cost == before.cost + spent
    && IsCut(after.error, error, 2000)
    && KeepsReason(before, after)
  }

  /** A failure that is worth another try: two more after the first, and then none. */
  predicate TriesAgain(before: Job, after: Job, error: string, spent: real, now: Time) {
    if before.attempts <= 1 then Waits(before, after, spent, now) else FailsForGood(before, after, error, spent)
  }

  predicate IsNoRecipe(before: Job, after: Job, reason: string, spent: real) {
    && SameIdentity(before, after) && SameReview(before, after) && Free(after)
    && after.status == NotARecipe
    && after.attempts == before.attempts && after.nextAttemptAt == before.nextAttemptAt
    && after.cost == before.cost + spent
    && after.error == before.error && IsCut(after.reason, reason, 1000)
  }

  /** In review, with the result's own confidence and its drafts listed under their ids. */
  predicate IsReviewed(before: Job, after: Job, confidence: real, first: RecipeId, count: nat, spent: real) {
    && SameIdentity(before, after) && Free(after)
    && after.status == NeedsReview
    && after.attempts == before.attempts && after.nextAttemptAt == before.nextAttemptAt
    && after.cost == before.cost + spent
    && after.error == before.error && after.reason == before.reason
    && after.confidence == Some(confidence)
    && |after.produced| == count && forall k :: 0 <= k < count ==> after.produced[k] == first + k
  }

  /** The user already has a recipe made from the job's source. */
  predicate HasItAlready(recipes: map<RecipeId, Recipe>, job: Job) {
    && job.fingerprint.Some?
    && exists r :: r in recipes && recipes[r].owner == job.user && recipes[r].fingerprint == job.fingerprint
  }

  // ---------------------------------------------------------------------------
  // Ending an attempt
  // ---------------------------------------------------------------------------

  /** What an attempt that still holds its job makes of the row. */
  predicate EndsAs(recipes: map<RecipeId, Recipe>, next: RecipeId, now: Time, before: Job, after: Job,
                   outcome: Outcome, spent: real)
  {
    match outcome
    case NoExtractor(error) => FailsForGood(before, after, error, 0.0)
    case TierFailed(error) => TriesAgain(before, after, error, spent, now)
    case CapReached(error) => FailsForGood(before, after, error, spent)
    case NotRecipe(reason) => IsNoRecipe(before, after, reason, spent)
    case Extracted(result, confidence) =>
      var drafts := |Plan(result, 0, {})|;
      if drafts > 0 && HasItAlready(recipes, before) then
        FailsForGood(before, after, "duplicate of existing recipe", spent)
      else
        IsReviewed(before, after, confidence, next, drafts, spent)
  }

  lemma SettlesAs(recipes: map<RecipeId, Recipe>, next: RecipeId, now: Time, job: Job, outcome: Outcome, spent: real)
    ensures EndsAs(recipes, next, now, job, Settlement(job, recipes, next, outcome, spent, now).0, outcome, spent)
  {
    if outcome.Extracted? {
      DraftIdsAre(next, |Plan(outcome.result, 0, {})|);
    }
  }

  /** An unreadable source is tried three times, the second time after 30 seconds and
      the third after a minute; a cap stop, a duplicate and an unsupported source fail
      at once; a source that is no recipe is rejected with the reason; and any other
      extraction is reviewed, with its own confidence. */
  lemma FinishEndsAs(s: Sys, w: Token, outcome: Outcome)
    requires Inv(s) && MayFinish(s, w, outcome) && Guard(s.jobs[s.workers[w].job], Some(w))
    ensures var j := s.workers[w].job;
            && j in AfterFinish(s, w, outcome).jobs
            && EndsAs(s.recipes, s.nextRecipe, s.now, s.jobs[j], AfterFinish(s, w, outcome).jobs[j], outcome,
                      Sum(s.workers[w].calls))
  {
    var p := s.workers[w];
    assert AttemptOk(w, p, s.jobs[p.job], s.hist[p.job], s.claims, s.cap, s.maxCall);
    SettlesAs(s.recipes, s.nextRecipe, s.now, s.jobs[p.job], outcome, Sum(p.calls));
  }

  /** The drafts of a job are the user's own, unverified, with the content of the
      result in order; only the first carries the source. */
  predicate DraftsAre(recipes: map<RecipeId, Recipe>, first: RecipeId, j: JobId, user: UserId, source: Option<string>,
                      drafts: seq<RecipeIn>)
  {
    forall k :: 0 <= k < |drafts| ==>
      && first + k in recipes
      && var recipe := recipes[first + k];
         && recipe.owner == user && !recipe.verified && recipe.content == drafts[k]
         && recipe.fingerprint == (if k == 0 then source else None)
         && recipe.origin == Draft(j, k)
  }

  /** Exactly those drafts are added. */
  ghost predicate Commits(before: map<RecipeId, Recipe>, after: map<RecipeId, Recipe>, first: RecipeId, j: JobId,
                          user: UserId, source: Option<string>, drafts: seq<RecipeIn>)
  {
    && (forall r :: r in after <==> r in before || first <= r < first + |drafts|)
    && (forall r :: r in before ==> r in after && after[r] == before[r])
    && DraftsAre(after, first, j, user, source, drafts)
  }

  lemma DraftsCommit(recipes: map<RecipeId, Recipe>, next: RecipeId, user: UserId, source: Option<string>,
                     drafts: seq<RecipeIn>, j: JobId)
    requires forall r :: r in recipes ==> r < next
    ensures Commits(recipes, WithDrafts(recipes, next, user, source, drafts, j), next, j, user, source, drafts)
  {
    WithDraftsRows(recipes, next, user, source, drafts, j);
  }

  /** An applied extraction commits exactly the drafts it is reviewed for. */
  lemma FinishCommits(s: Sys, w: Token, result: seq<NormalizedRecipe>, confidence: real)
    requires Inv(s) && WorkerIn(s, w) && s.workers[w].Attempting? && Guard(s.jobs[s.workers[w].job], Some(w))
    requires !HasItAlready(s.recipes, s.jobs[s.workers[w].job])
    ensures var j := s.workers[w].job;
            Commits(s.recipes, AfterFinish(s, w, Extracted(result, confidence)).recipes, s.nextRecipe, j,
                    s.jobs[j].user, s.jobs[j].fingerprint, Plan(result, 0, {}))
  {
    var j := s.workers[w].job;
    DraftsCommit(s.recipes, s.nextRecipe, s.jobs[j].user, s.jobs[j].fingerprint, Plan(result, 0, {}), j);
  }

  /** Any other end commits none. */
  lemma OthersCommitNothing(s: Sys, w: Token, outcome: Outcome)
    requires WorkerIn(s, w) && s.workers[w].Attempting? && Guard(s.jobs[s.workers[w].job], Some(w))
    requires outcome.Extracted? ==> HasItAlready(s.recipes, s.jobs[s.workers[w].job])
    ensures AfterFinish(s, w, outcome).recipes == s.recipes
  {
  }

  /** A recorded crash is tried again likewise, and fails for good at the third; it
      costs what was spent, unless the failure came after the work. */
  lemma CrashEndsAs(s: Sys, w: Token)
    requires Inv(s) && WorkerIn(s, w) && s.workers[w].Crashed? && Guard(s.jobs[s.workers[w].job], Some(w))
    ensures var p, t := s.workers[w], AfterRecordCrash(s, w);
            && p.job in t.jobs
            && TriesAgain(s.jobs[p.job], t.jobs[p.job], p.error, if p.billed then Sum(p.calls) else 0.0, s.now)
  {
  }

  // ---------------------------------------------------------------------------
  // Claiming and releasing
  // ---------------------------------------------------------------------------

  /** A worker that is free may claim exactly the queued jobs whose wait is over. */
  lemma ClaimableExactly(s: Sys, w: Token, j: JobId)
    ensures MayClaim(s, w, j) <==>
            && w in s.workers && s.workers[w].Idle? && j in s.jobs && j in s.hist
            && s.jobs[j].status == Queued
            && (s.jobs[j].nextAttemptAt.Some? ==> s.jobs[j].nextAttemptAt.value <= s.now)
  {
  }

  /** A claim locks the row for that worker from now on and changes nothing else. */
  lemma ClaimLocks(s: Sys, w: Token, j: JobId)
    requires MayClaim(s, w, j)
    ensures var before, t := s.jobs[j], AfterClaim(s, w, j);
            && j in t.jobs
            && var after := t.jobs[j];
               && SameIdentity(before, after) && SameReview(before, after)
               && after.status == Running && after.lockedBy == Some(w) && after.lockedAt == Some(s.now)
               && after.attempts == before.attempts && after.nextAttemptAt == before.nextAttemptAt
               && after.cost == before.cost && after.error == before.error && after.reason == before.reason
  {
  }

  /** A release may take exactly running jobs locked for more than ten minutes. */
  lemma ReleasableExactly(s: Sys, stale: set<JobId>)
    requires forall j :: j in stale ==> j in s.jobs && j in s.hist && s.hist[j].current.Some?
    ensures MayRelease(s, stale) <==>
            forall j :: j in stale ==>
              s.jobs[j].status == Running && s.jobs[j].lockedAt.Some? && s.now - s.jobs[j].lockedAt.value > 600
  {
  }

  /** A released job is due again at once; the third time it fails instead. */
  lemma ReleaseEndsAs(s: Sys, stale: set<JobId>, j: JobId)
    requires MayRelease(s, stale) && j in s.jobs
    ensures var before, t := s.jobs[j], AfterRelease(s, stale);
            && j in t.jobs
            && var after := t.jobs[j];
               && (j !in stale ==> after == before)
               && (j in stale ==>
                     && SameIdentity(before, after) && SameReview(before, after) && Free(after)
                     && after.attempts == before.attempts + 1 && after.cost == before.cost
                     && after.nextAttemptAt == before.nextAttemptAt
                     && if before.attempts <= 1 then
                          after.status == Queued && after.error == before.error && after.reason == before.reason
                        else
                          && after.status == Failed && KeepsReason(before, after)
                          && after.error == Some("worker died repeatedly while processing this job"))
  {
  }

  // ---------------------------------------------------------------------------
  // Submitting and retrying
  // ---------------------------------------------------------------------------

  /** Some job of the user works on the source, or waits for its review. */
  predicate BeingWorkedOn(jobs: map<JobId, Job>, user: UserId, source: Option<string>) {
    exists j :: j in jobs && jobs[j].user == user && jobs[j].fingerprint == source
                && (jobs[j].status == Queued || jobs[j].status == Running || jobs[j].status == NeedsReview)
  }

  predicate Owned(recipes: map<RecipeId, Recipe>, user: UserId, source: Option<string>) {
    source.Some? && exists r :: r in recipes && recipes[r].owner == user && recipes[r].fingerprint == source
  }

  /** A source may be submitted exactly when its user has no recipe of it and no job
      that is queued, running or in review for it. */
  lemma SubmittableExactly(jobs: map<JobId, Job>, recipes: map<RecipeId, Recipe>, user: UserId, source: string)
    ensures MaySubmit(jobs, recipes, user, Some(source)) <==>
            !Owned(recipes, user, Some(source)) && !BeingWorkedOn(jobs, user, Some(source))
  {
  }

  predicate IsUntried(job: Job) {
    && job.attempts == 0 && job.nextAttemptAt.None? && Free(job) && job.error.None? && job.reason.None?
  }

  lemma SubmitAdds(s: Sys, user: UserId, source: string)
    requires SourceEnabled(s, SubmitJob(user, source))
    ensures var t := AfterSource(s, SubmitJob(user, source));
            && t.recipes == s.recipes && t.jobs.Keys == s.jobs.Keys + {s.nextJob}
            && (forall j :: j in s.jobs && j != s.nextJob ==> t.jobs[j] == s.jobs[j])
            && var job := t.jobs[s.nextJob];
               && job.user == user && job.fingerprint == Some(source) && !job.transform && job.createdAt == s.now
               && job.status == Queued && IsUntried(job)
               && job.confidence.None? && job.produced == [] && job.cost == 0.0
  {
  }

  /** A transform's job starts in review, with its drafts and its cost. */
  lemma TransformAdds(s: Sys, user: UserId, drafts: seq<RecipeIn>, confidence: Option<real>, cost: real)
    ensures var t := AfterTransform(s, user, drafts, confidence, cost);
            && t.jobs.Keys == s.jobs.Keys + {s.nextJob}
            && (forall j :: j in s.jobs && j != s.nextJob ==> t.jobs[j] == s.jobs[j])
            && var job := t.jobs[s.nextJob];
               && job.user == user && job.fingerprint.None? && job.transform && job.createdAt == s.now
               && job.status == NeedsReview && IsUntried(job)
               && job.confidence == confidence && job.cost == cost
               && |job.produced| == |drafts|
               && forall k :: 0 <= k < |drafts| ==> job.produced[k] == s.nextRecipe + k
  {
    DraftIdsAre(s.nextRecipe, |drafts|);
  }

  lemma TransformCommits(s: Sys, user: UserId, drafts: seq<RecipeIn>, confidence: Option<real>, cost: real)
    requires forall r :: r in s.recipes ==> r < s.nextRecipe
    ensures Commits(s.recipes, AfterTransform(s, user, drafts, confidence, cost).recipes, s.nextRecipe, s.nextJob,
                    user, None, drafts)
  {
    DraftsCommit(s.recipes, s.nextRecipe, user, None, drafts, s.nextJob);
  }

  lemma RetryableExactly(s: Sys, user: UserId, j: JobId)
    requires j in s.hist
    ensures MayRetry(s, user, j) <==>
            j in s.jobs && s.jobs[j].user == user && (s.jobs[j].status == Failed || s.jobs[j].status == NotARecipe)
  {
  }

  /** A retry counts attempts from the start again, and costs from where they were. */
  lemma RetryRequeues(s: Sys, user: UserId, j: JobId)
    requires SourceEnabled(s, Retry(user, j)) && Free(s.jobs[j])
    ensures var before, t := s.jobs[j], AfterSource(s, Retry(user, j));
            && t.recipes == s.recipes && t.jobs.Keys == s.jobs.Keys
            && (forall k :: k in s.jobs && k != j ==> t.jobs[k] == s.jobs[k])
            && var after := t.jobs[j];
               && SameIdentity(before, after) && SameReview(before, after)
               && after.status == Queued && IsUntried(after) && after.cost == before.cost
  {
  }

  // ---------------------------------------------------------------------------
  // Reviewing
  // ---------------------------------------------------------------------------

  /** The drafts of the user that the job lists and that still exist are verified. */
  predicate AllDecided(job: Job, recipes: map<RecipeId, Recipe>) {
    forall r :: r in recipes && r in job.produced && recipes[r].owner == job.user ==> recipes[r].verified
  }

  /** The job is done when it was, or when all its drafts are decided on; and nothing
      else of it changes but what it lists. */
  predicate ClosesWhenDecided(before: Job, after: Job, recipes: map<RecipeId, Recipe>) {
    && after == before.(status := after.status, produced := after.produced)
    && after.status == if before.status == Done || AllDecided(after, recipes) then Done else before.status
  }

  lemma ReviewableExactly(s: Sys, user: UserId, j: JobId, r: RecipeId)
    ensures MayReview(s.jobs, s.recipes, user, j, r) <==>
            && j in s.jobs && s.jobs[j].user == user && r in s.jobs[j].produced
            && r in s.recipes && s.recipes[r].owner == user
  {
  }

  /** Accepting verifies that draft, and closes the job when it was the last. */
  lemma AcceptVerifies(s: Sys, user: UserId, j: JobId, r: RecipeId)
    requires ReviewEnabled(s, Accept(user, j, r))
    ensures var t := AfterReview(s, Accept(user, j, r));
            && t.recipes.Keys == s.recipes.Keys && t.jobs.Keys == s.jobs.Keys
            && t.recipes[r] == s.recipes[r].(verified := true)
            && (forall q :: q in s.recipes && q != r ==> t.recipes[q] == s.recipes[q])
            && (forall k :: k in s.jobs && k != j ==> t.jobs[k] == s.jobs[k])
            && t.jobs[j].produced == s.jobs[j].produced
            && ClosesWhenDecided(s.jobs[j], t.jobs[j], t.recipes)
  {
  }

  /** Rejecting deletes and unlists that draft, and closes the job when none is left
      to decide on. */
  lemma RejectDeletes(s: Sys, user: UserId, j: JobId, r: RecipeId)
    requires ReviewEnabled(s, Reject(user, j, r))
    ensures var t := AfterReview(s, Reject(user, j, r));
            && t.recipes.Keys == s.recipes.Keys - {r} && t.jobs.Keys == s.jobs.Keys
            && (forall q :: q in t.recipes ==> t.recipes[q] == s.recipes[q])
            && (forall k :: k in s.jobs && k != j ==> t.jobs[k] == s.jobs[k])
            && (forall q :: q in t.jobs[j].produced <==> q in s.jobs[j].produced && q != r)
            && ClosesWhenDecided(s.jobs[j], t.jobs[j], t.recipes)
  {
  }

  /** The jobs of the user that are in review with a confidence of at least `threshold`. */
  predicate Confident(job: Job, user: UserId, threshold: real) {
    job.user == user && job.status == NeedsReview && job.confidence.Some? && threshold <= job.confidence.value
  }

  predicate ListedByConfident(jobs: map<JobId, Job>, user: UserId, threshold: real, r: RecipeId) {
    exists j :: j in jobs && Confident(jobs[j], user, threshold) && r in jobs[j].produced
  }

  /** A bulk accept closes exactly those, and verifies exactly their drafts. */
  lemma AcceptAllCloses(s: Sys, user: UserId, threshold: real)
    ensures var t := AfterReview(s, AcceptAll(user, threshold));
            && t.jobs.Keys == s.jobs.Keys && t.recipes.Keys == s.recipes.Keys
            && (forall j :: j in s.jobs ==>
                  t.jobs[j] == if Confident(s.jobs[j], user, threshold) then s.jobs[j].(status := Done) else s.jobs[j])
            && (forall r :: r in s.recipes ==>
                  && t.recipes[r] == s.recipes[r].(verified := t.recipes[r].verified)
                  && (t.recipes[r].verified <==>
                        || s.recipes[r].verified
                        || (s.recipes[r].owner == user && ListedByConfident(s.jobs, user, threshold, r))))
  {
    var t := AfterReview(s, AcceptAll(user, threshold));
    var closing := BulkSet(s.jobs, user, threshold);
    forall r | r in s.recipes
      ensures ListedBy(s.jobs, closing, r) <==> ListedByConfident(s.jobs, user, threshold, r)
    {
      if j :| j in s.jobs && Confident(s.jobs[j], user, threshold) && r in s.jobs[j].produced {
        assert j in closing;
      }
    }
  }

  /** A draft may be verified or deleted outside the review by its owner alone, and
      such a step touches no job. */
  lemma OutsideReview(s: Sys, user: UserId, r: RecipeId)
    ensures ReviewEnabled(s, VerifyRecipe(user, r)) <==> r in s.recipes && s.recipes[r].owner == user
    ensures ReviewEnabled(s, DeleteRecipe(user, r)) <==> r in s.recipes && s.recipes[r].owner == user
    ensures r in s.recipes && s.recipes[r].owner == user ==>
              && AfterReview(s, DeleteRecipe(user, r)) == s.(recipes := s.recipes - {r})
              && AfterReview(s, VerifyRecipe(user, r)) == s.(recipes := s.recipes[r := s.recipes[r].(verified := true)])
  {
  }

  // ---------------------------------------------------------------------------
  // Costs
  // ---------------------------------------------------------------------------

  /** The costs of some calls and of those after them add up. */
  lemma {:induction false} SumAdds(first: seq<real>, rest: seq<real>)
    ensures Sum(first + rest) == Sum(first) + Sum(rest)
    ensures forall cost :: Sum([cost]) == cost
  {
    forall cost: real
      ensures Sum([cost]) == cost
    {
      assert [cost][..0] == [];
    }
    if rest == [] {
      assert first + rest == first;
    } else {
      var n := |rest| - 1;
      SumAdds(first, rest[..n]);
      assert (first + rest)[..|first| + n] == first + rest[..n];
    }
  }
}
