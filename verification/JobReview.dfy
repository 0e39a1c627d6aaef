/** The review gate over whole runs, and where the protocol is weaker than it
    looks: a retry may make a second active job for one source. */
module JobReview {
  import opened Options
  import opened JobQueue
  import opened Drafts
  import opened IngestionService
  import opened JobProtocol
  import opened JobInvariants
  import opened JobSteps
  import opened JobHistory
  import opened JobTheorems

  // ---------------------------------------------------------------------------
  // Recipes over a run
  // ---------------------------------------------------------------------------

  /** Of the recipes that existed or could have existed before, `after` keeps some,
      unchanged except that they may have been edited or become verified. */
  ghost predicate Aged(before: map<RecipeId, Recipe>, after: map<RecipeId, Recipe>, next: RecipeId) {
    forall r :: r < next && r in after ==>
      r in before && Matured(before[r], after[r])
  }

  lemma StepAges(s: Sys, step: Step)
    requires Inv(s) && Enabled(s, step)
    ensures var t := After(s, step); s.nextRecipe <= t.nextRecipe && Aged(s.recipes, t.recipes, s.nextRecipe)
  {
    StepNextRecipe(s, step);
    forall r: RecipeId | r < s.nextRecipe
      ensures var after := After(s, step).recipes; r in after ==> r in s.recipes && Matured(s.recipes[r], after[r])
    {
      StepRecipe(s, step, r);
    }
  }

  lemma {:induction false} RunAges(s: Sys, steps: seq<Step>)
    requires Inv(s) && Runs(s, steps)
    ensures var t := Final(s, steps); s.nextRecipe <= t.nextRecipe && Aged(s.recipes, t.recipes, s.nextRecipe)
    decreases |steps|
  {
    if steps != [] {
      StepKeeps(s, steps[0]);
      StepAges(s, steps[0]);
      RunAges(After(s, steps[0]), steps[1..]);
    }
  }

  /** The content of `r` after the steps: the last edit, or what it was. */
  function LastContent(content: RecipeIn, steps: seq<Step>, r: RecipeId): RecipeIn
    decreases |steps|
  {
    if steps == [] then content
    else
      LastContent(if EditsRecipe(steps[0], r) then steps[0].content else content, steps[1..], r)
  }

  lemma {:induction false} RunEdits(s: Sys, steps: seq<Step>, r: RecipeId)
    requires Inv(s) && Runs(s, steps) && r in s.recipes && r in Final(s, steps).recipes
    ensures Final(s, steps).recipes[r].content == LastContent(s.recipes[r].content, steps, r)
    decreases |steps|
  {
    if steps != [] {
      var next := After(s, steps[0]);
      StepKeeps(s, steps[0]);
      StepAges(s, steps[0]);
      RunAges(next, steps[1..]);
      StepRecipe(s, steps[0], r);
      RunEdits(next, steps[1..], r);
    }
  }

  /** Only the owner's rejection or deletion removes a recipe. */
  lemma RecipesLeaveByOwner(s: Sys, step: Step, r: RecipeId)
    requires Inv(s) && Enabled(s, step) && r in s.recipes
    ensures r !in After(s, step).recipes <==>
              && (step.Reject? || step.DeleteRecipe?)
              && step.recipe == r
              && step.user == s.recipes[r].owner
  {
    StepRecipe(s, step, r);
  }

  // ---------------------------------------------------------------------------
  // The review gate
  // ---------------------------------------------------------------------------

  /** The step is a bulk accept that takes this job. */
  predicate ClosesInBulk(step: Step, job: Job) {
    step.AcceptAll? && InBulk(job, step.user, step.threshold)
  }

  /** What a step may do to one job row. */
  ghost predicate Moves(step: Step, j: JobId, before: Job, after: Job) {
    && after.user == before.user
    && after.fingerprint == before.fingerprint
    && (ClosesInBulk(step, before) ==> after.status == Done)
    && (|| after == before
        || (!UserStep(step) && (before.status == Queued || before.status == Running))
        || (step.Retry? && step.job == j && Retryable(before) && after.status == Queued)
        || (Reviews(step, j, before) && (after.status == before.status || after.status == Done)
            && forall r :: r in after.produced ==> r in before.produced))
  }

  /** The step is a review action on a job that is in review or done. */
  ghost predicate Reviews(step: Step, j: JobId, before: Job) {
    && (before.status == NeedsReview || before.status == Done)
    && (|| ((step.Accept? || step.Reject?) && step.job == j && step.recipe in before.produced)
        || ClosesInBulk(step, before))
  }

  lemma FinishMoves(s: Sys, w: Token, outcome: Outcome)
    requires WorkerIn(s, w) && s.workers[w].Attempting?
    ensures var j, t := s.workers[w].job, AfterFinish(s, w, outcome);
            j in t.jobs && t.jobs[j].user == s.jobs[j].user && t.jobs[j].fingerprint == s.jobs[j].fingerprint
  {
    var p := s.workers[w];
    var (after, _) := Settlement(s.jobs[p.job], s.recipes, s.nextRecipe, outcome, AttemptCost(p.prior, p.calls), s.now);
    assert after.user == s.jobs[p.job].user && after.fingerprint == s.jobs[p.job].fingerprint;
  }

  lemma FinishStepMoves(s: Sys, w: Token, outcome: Outcome, j: JobId)
    requires MayFinish(s, w, outcome) && j in s.jobs
    ensures var t := AfterFinish(s, w, outcome);
            j in t.jobs && Moves(Finish(w, outcome), j, s.jobs[j], t.jobs[j])
  {
    FinishMoves(s, w, outcome);
    FinishClosesAs(s, w, outcome);
  }

  lemma RecordCrashMoves(s: Sys, w: Token, j: JobId)
    requires WorkerIn(s, w) && s.workers[w].Crashed? && j in s.jobs
    ensures var t := AfterRecordCrash(s, w);
            j in t.jobs && Moves(RecordCrash(w), j, s.jobs[j], t.jobs[j])
  {
  }

  lemma OtherWorkerStepMoves(s: Sys, step: Step, j: JobId)
    requires !UserStep(step) && WorkerEnabled(s, step) && j in s.jobs && !step.Finish? && !step.RecordCrash?
    ensures j in AfterWorker(s, step).jobs && Moves(step, j, s.jobs[j], AfterWorker(s, step).jobs[j])
  {
  }

  lemma WorkerStepMoves(s: Sys, step: Step, j: JobId)
    requires !UserStep(step) && WorkerEnabled(s, step) && j in s.jobs
    ensures j in AfterWorker(s, step).jobs && Moves(step, j, s.jobs[j], AfterWorker(s, step).jobs[j])
  {
    if step.Finish? {
      FinishStepMoves(s, step.w, step.outcome, j);
    } else if step.RecordCrash? {
      RecordCrashMoves(s, step.w, j);
    } else {
      OtherWorkerStepMoves(s, step, j);
    }
  }

  lemma BulkStepMoves(s: Sys, step: Step, j: JobId)
    requires step.AcceptAll? && j in s.jobs
    ensures j in AfterReview(s, step).jobs && Moves(step, j, s.jobs[j], AfterReview(s, step).jobs[j])
  {
  }

  lemma DecisionMoves(s: Sys, step: Step, j: JobId)
    requires Inv(s) && (step.Accept? || step.Reject?) && ReviewEnabled(s, step) && j in s.jobs
    ensures j in AfterReview(s, step).jobs && Moves(step, j, s.jobs[j], AfterReview(s, step).jobs[j])
  {
    assert ListingOk(j, s.jobs[j], s.recipes, s.nextRecipe);
  }

  lemma ReviewStepMoves(s: Sys, step: Step, j: JobId)
    requires Inv(s) && ReviewStep(step) && ReviewEnabled(s, step) && j in s.jobs
    ensures j in AfterReview(s, step).jobs && Moves(step, j, s.jobs[j], AfterReview(s, step).jobs[j])
  {
    if step.Accept? || step.Reject? {
      DecisionMoves(s, step, j);
    } else if step.AcceptAll? {
      BulkStepMoves(s, step, j);
    }
  }

  lemma SourceStepMoves(s: Sys, step: Step, j: JobId)
    requires Inv(s) && SourceStep(step) && SourceEnabled(s, step) && j in s.jobs
    ensures j in AfterSource(s, step).jobs && Moves(step, j, s.jobs[j], AfterSource(s, step).jobs[j])
  {
  }

  lemma StepMoves(s: Sys, step: Step, j: JobId)
    requires Inv(s) && Enabled(s, step) && j in s.jobs
    ensures j in After(s, step).jobs && Moves(step, j, s.jobs[j], After(s, step).jobs[j])
  {
    if ReviewStep(step) {
      ReviewStepMoves(s, step, j);
    } else if SourceStep(step) {
      SourceStepMoves(s, step, j);
    } else {
      WorkerStepMoves(s, step, j);
    }
  }

  /** A done job stays done and gains no draft. */
  ghost predicate StaysDone(before: Job, after: Job) {
    before.status == Done ==>
      && after.status == Done
      && after.user == before.user
      && forall r :: r in after.produced ==> r in before.produced
  }

  lemma {:induction false} RunStaysDone(s: Sys, steps: seq<Step>, j: JobId)
    requires Inv(s) && Runs(s, steps) && j in s.jobs
    ensures j in Final(s, steps).jobs && StaysDone(s.jobs[j], Final(s, steps).jobs[j])
    decreases |steps|
  {
    if steps != [] {
      StepKeeps(s, steps[0]);
      StepMoves(s, steps[0], j);
      RunStaysDone(After(s, steps[0]), steps[1..], j);
    }
  }

  /** The review gate: whatever happens after a draft was committed, as long as it
      exists its job lists it, belongs to its owner and cannot be retried away; its
      content is its last edit; once that job is done, the draft is verified, and
      both stay so, whatever is edited. */
  lemma ReviewGate(s: Sys, steps: seq<Step>, r: RecipeId)
    requires Reachable(s) && Runs(s, steps)
    requires r in s.recipes && s.recipes[r].origin.Draft? && r in Final(s, steps).recipes
    ensures var t, j := Final(s, steps), s.recipes[r].origin.job;
            && j in s.jobs && j in t.jobs
            && t.recipes[r].owner == s.recipes[r].owner == t.jobs[j].user
            && t.recipes[r].content == LastContent(s.recipes[r].content, steps, r)
            && r in t.jobs[j].produced
            && !Retryable(t.jobs[j])
            && (s.recipes[r].verified ==> t.recipes[r].verified)
            && (s.jobs[j].status == Done ==> t.jobs[j].status == Done && s.recipes[r].verified)
            && (t.jobs[j].status == Done ==> t.recipes[r].verified)
  {
    ReachableInv(s);
    RunKeeps(s, steps);
    RunAges(s, steps);
    RunEdits(s, steps, r);
    var t, j := Final(s, steps), s.recipes[r].origin.job;
    assert RecipeOk(r, s.recipes[r], s.jobs) && ListingOk(j, s.jobs[j], s.recipes, s.nextRecipe);
    RunStaysDone(s, steps, j);
    assert RecipeOk(r, t.recipes[r], t.jobs) && ListingOk(j, t.jobs[j], t.recipes, t.nextRecipe);
  }

  /** A job that lists drafts is in review or done, so a retry never discards one. */
  lemma RetryDiscardsNothing(s: Sys, user: UserId, j: JobId)
    requires Reachable(s) && MayRetry(s, user, j)
    ensures s.jobs[j].produced == []
    ensures forall r :: r in s.recipes && s.recipes[r].origin.Draft? ==> s.recipes[r].origin.job != j
  {
    ReachableInv(s);
    assert ListingOk(j, s.jobs[j], s.recipes, s.nextRecipe);
    forall r | r in s.recipes && s.recipes[r].origin.Draft?
      ensures s.recipes[r].origin.job != j
    {
      assert RecipeOk(r, s.recipes[r], s.jobs);
    }
  }

  // ---------------------------------------------------------------------------
  // One active job per source
  // ---------------------------------------------------------------------------

  /** At most one active job per user and source. */
  ghost predicate ActiveOnce(jobs: map<JobId, Job>) {
    forall j, k :: j in jobs && k in jobs && j != k && jobs[j].fingerprint.Some? && Active(jobs[j]) ==>
      !ActiveFor(jobs[k], jobs[j].user, jobs[j].fingerprint)
  }

  /** The retried job's source has another active job. */
  ghost predicate RetriesBesideActive(s: Sys, step: Step) {
    && step.Retry?
    && step.job in s.jobs
    && s.jobs[step.job].fingerprint.Some?
    && exists k :: k in s.jobs && k != step.job
         && ActiveFor(s.jobs[k], s.jobs[step.job].user, s.jobs[step.job].fingerprint)
  }

  lemma WorkerAddsNoJob(s: Sys, step: Step)
    requires !UserStep(step) && WorkerEnabled(s, step)
    ensures AfterWorker(s, step).jobs.Keys == s.jobs.Keys
  {
  }

  lemma ReviewAddsNoJob(s: Sys, step: Step)
    requires ReviewStep(step) && ReviewEnabled(s, step)
    ensures AfterReview(s, step).jobs.Keys == s.jobs.Keys
  {
  }

  /** A new job comes from a submission, with its source, or from a transform, without. */
  lemma StepAddsJobs(s: Sys, step: Step, j: JobId)
    requires Enabled(s, step) && j !in s.jobs && j in After(s, step).jobs
    ensures || (step.SubmitJob? && After(s, step).jobs[j].user == step.user
                && After(s, step).jobs[j].fingerprint == Some(step.fingerprint))
            || After(s, step).jobs[j].fingerprint.None?
    ensures j == s.nextJob
  {
    if ReviewStep(step) {
      ReviewAddsNoJob(s, step);
    } else if !SourceStep(step) {
      WorkerAddsNoJob(s, step);
    }
  }

  /** What becomes of the row of `j`, or what it starts as. */
  ghost predicate RowMoves(s: Sys, step: Step, t: Sys, j: JobId)
    requires j in t.jobs
  {
    if j in s.jobs then Moves(step, j, s.jobs[j], t.jobs[j])
    else
      && j == s.nextJob
      && (|| t.jobs[j].fingerprint.None?
          || (step.SubmitJob? && t.jobs[j].user == step.user && t.jobs[j].fingerprint == Some(step.fingerprint)))
  }

  lemma StepMovesRow(s: Sys, step: Step, j: JobId)
    requires Inv(s) && Enabled(s, step) && j in After(s, step).jobs
    ensures RowMoves(s, step, After(s, step), j)
  {
    if j in s.jobs {
      StepMoves(s, step, j);
    } else {
      StepAddsJobs(s, step, j);
    }
  }

  lemma StillOneActive(s: Sys, step: Step, t: Sys, j: JobId, k: JobId)
    requires ActiveOnce(s.jobs) && !RetriesBesideActive(s, step)
    requires step.SubmitJob? ==> MaySubmit(s.jobs, s.recipes, step.user, Some(step.fingerprint))
    requires j in t.jobs && k in t.jobs && j != k && t.jobs[j].fingerprint.Some?
    requires RowMoves(s, step, t, j) && RowMoves(s, step, t, k)
    ensures !(Active(t.jobs[j]) && ActiveFor(t.jobs[k], t.jobs[j].user, t.jobs[j].fingerprint))
  {
  }

  /** One active job per source is kept by every step but one: it survives a step
      if and only if the step does not retry a job whose source has another active
      job, which the retry does not check. */
  lemma OneActiveJobUnlessRetried(s: Sys, step: Step)
    requires Reachable(s) && Enabled(s, step) && ActiveOnce(s.jobs)
    ensures ActiveOnce(After(s, step).jobs) <==> !RetriesBesideActive(s, step)
  {
    ReachableInv(s);
    var t := After(s, step);
    if RetriesBesideActive(s, step) {
      var k :| k in s.jobs && k != step.job
                 && ActiveFor(s.jobs[k], s.jobs[step.job].user, s.jobs[step.job].fingerprint);
      StepMoves(s, step, k);
      StepMoves(s, step, step.job);
      assert ActiveFor(t.jobs[k], t.jobs[step.job].user, t.jobs[step.job].fingerprint);
    } else {
      forall j, k | j in t.jobs && k in t.jobs && j != k && t.jobs[j].fingerprint.Some? && Active(t.jobs[j])
        ensures !ActiveFor(t.jobs[k], t.jobs[j].user, t.jobs[j].fingerprint)
      {
        StepMovesRow(s, step, j);
        StepMovesRow(s, step, k);
        StillOneActive(s, step, t, j, k);
      }
    }
  }
}
