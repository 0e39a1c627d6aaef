/** What one step does to the history of a job and to the recipes, whichever step it
    is: the facts that the theorems over runs are built from. */
module JobHistory {
  import opened Options
  import opened JobQueue
  import opened Drafts
  import opened IngestionService
  import opened JobProtocol
  import opened JobInvariants
  import opened JobSteps

  // ---------------------------------------------------------------------------
  // Closing an attempt
  // ---------------------------------------------------------------------------

  /** The step tries to close the attempt of `w`. */
  predicate TriesToClose(step: Step, w: Token) {
    (step.Finish? && step.w == w) || (step.RecordCrash? && step.w == w)
  }

  /** What closing the attempt of `w` as `t` does to the history of its job: a
      refused attempt changes nothing, an applied one adds one closing and one bill. */
  predicate ClosesAs(s: Sys, w: Token, t: Sys, billed: bool)
    requires WorkerIn(s, w) && (s.workers[w].Attempting? || s.workers[w].Crashed?)
  {
    var j, e := s.workers[w].job, s.workers[w].epoch;
    if !Guard(s.jobs[j], Some(w)) then t == s.(workers := s.workers[w := Idle])
    else
      && j in t.jobs && j in t.hist
      && t.now == s.now && t.claims == s.claims
      && t.closed == s.closed[e := Applied]
      && t.jobs == s.jobs[j := t.jobs[j]]
      && t.hist == s.hist[j := t.hist[j]]
      && t.hist[j] == s.hist[j].(notBefore := NotBefore(s.hist[j], t.jobs[j]),
                                 bills := s.hist[j].bills + [Bill(e, s.workers[w].calls, billed)])
      && Requeued(t.jobs[j], s.now)
  }

  /** A job that is queued again waits for the backoff of its attempt count. */
  predicate Requeued(job: Job, now: Time) {
    job.status == Queued ==> job.attempts >= 1 && job.nextAttemptAt == Some(now + Backoff(job.attempts))
  }

  lemma FailureRequeues(job: Job, error: string, cost: Option<real>, retryable: bool, now: Time)
    ensures Requeued(FailedOnce(job, error, cost, retryable, now), now)
  {
  }

  lemma FinishClosesAs(s: Sys, w: Token, outcome: Outcome)
    requires WorkerIn(s, w) && s.workers[w].Attempting?
    ensures ClosesAs(s, w, AfterFinish(s, w, outcome), true)
  {
    var p := s.workers[w];
    var (job, drafts) := Settlement(s.jobs[p.job], s.recipes, s.nextRecipe, outcome, AttemptCost(p.prior, p.calls),
      s.now);
    assert Requeued(job, s.now);
  }

  lemma RecordCrashClosesAs(s: Sys, w: Token)
    requires WorkerIn(s, w) && s.workers[w].Crashed?
    ensures ClosesAs(s, w, AfterRecordCrash(s, w), s.workers[w].billed)
  {
    var p := s.workers[w];
    FailureRequeues(s.jobs[p.job], p.error, if p.billed then Some(Sum(p.calls)) else None, true, s.now);
  }

  lemma ClosingHistory(s: Sys, w: Token, step: Step)
    requires Enabled(s, step) && TriesToClose(step, w)
    ensures ClosesAs(s, w, After(s, step), step.Finish? || s.workers[w].billed)
  {
    if step.Finish? {
      FinishClosesAs(s, w, step.outcome);
    } else {
      RecordCrashClosesAs(s, w);
    }
  }

  // ---------------------------------------------------------------------------
  // History
  // ---------------------------------------------------------------------------

  /** The step closes the open attempt on `j`. */
  predicate ClosesJob(s: Sys, step: Step, j: JobId) {
    && (step.Finish? || step.RecordCrash?)
    && WorkerIn(s, step.w) && s.workers[step.w].job == j && Guard(s.jobs[j], Some(step.w))
    && (step.Finish? ==> s.workers[step.w].Attempting?)
    && (step.RecordCrash? ==> s.workers[step.w].Crashed?)
  }

  /** The bill that closing the attempt leaves. */
  function BillOf(s: Sys, step: Step, j: JobId): Bill
    requires ClosesJob(s, step, j)
  {
    var p := s.workers[step.w];
    Bill(p.epoch, p.calls, step.Finish? || p.billed)
  }

  /** What becomes of the history of job `j`. */
  predicate HistoryMoves(s: Sys, step: Step, t: Sys, j: JobId)
    requires j in s.jobs && j in s.hist
  {
    && j in t.jobs && j in t.hist && s.now <= t.now
    && var h := s.hist[j];
       if ClosesJob(s, step, j) then
         && t.hist[j] == h.(notBefore := NotBefore(h, t.jobs[j]), bills := h.bills + [BillOf(s, step, j)])
         && Requeued(t.jobs[j], s.now)
       else if step.ClaimJob? && step.job == j then
         t.hist[j] == h.(current := Some(|s.claims|), sinceReset := h.sinceReset + 1)
       else if step.Retry? && step.job == j then t.hist[j] == h.(sinceReset := 0)
       else t.hist[j] == h
  }

  lemma WorkerHistory(s: Sys, step: Step, j: JobId)
    requires !UserStep(step) && WorkerEnabled(s, step) && j in s.jobs && j in s.hist
    ensures HistoryMoves(s, step, AfterWorker(s, step), j)
  {
    if step.Finish? {
      FinishClosesAs(s, step.w, step.outcome);
    } else if step.RecordCrash? {
      RecordCrashClosesAs(s, step.w);
    }
  }

  lemma ReviewHistory(s: Sys, step: Step, j: JobId)
    requires ReviewStep(step) && ReviewEnabled(s, step) && j in s.jobs && j in s.hist
    ensures HistoryMoves(s, step, AfterReview(s, step), j)
  {
  }

  lemma SourceHistory(s: Sys, step: Step, j: JobId)
    requires SourceStep(step) && SourceEnabled(s, step) && j in s.jobs && j in s.hist && s.nextJob != j
    ensures HistoryMoves(s, step, AfterSource(s, step), j)
  {
  }

  lemma StepHistory(s: Sys, step: Step, j: JobId)
    requires Inv(s) && Enabled(s, step) && j in s.jobs && j in s.hist
    ensures HistoryMoves(s, step, After(s, step), j)
  {
    if ReviewStep(step) {
      ReviewHistory(s, step, j);
    } else if SourceStep(step) {
      SourceHistory(s, step, j);
    } else {
      WorkerHistory(s, step, j);
    }
  }

  lemma NewWorkerHistory(s: Sys, step: Step)
    requires !UserStep(step) && WorkerEnabled(s, step)
    ensures AfterWorker(s, step).hist.Keys == s.hist.Keys
  {
  }

  /** The history of a new job starts empty. */
  lemma NewHistory(s: Sys, step: Step, j: JobId)
    requires Enabled(s, step) && j !in s.hist
    ensures var t := After(s, step); j in t.hist ==> t.hist[j].sinceReset == 0 && t.hist[j].bills == []
    ensures !(step.ClaimJob? && step.job == j)
  {
    if !UserStep(step) {
      NewWorkerHistory(s, step);
    }
  }

  // ---------------------------------------------------------------------------
  // Claims
  // ---------------------------------------------------------------------------

  /** No claim is forgotten, and no closing undone. */
  predicate ClosingsKept(s: Sys, t: Sys) {
    && s.claims <= t.claims
    && forall e :: e in s.closed ==> e in t.closed && t.closed[e] == s.closed[e]
  }

  lemma WorkerKeepsClosings(s: Sys, step: Step)
    requires Inv(s) && !UserStep(step) && WorkerEnabled(s, step)
    ensures ClosingsKept(s, AfterWorker(s, step))
  {
    if step.Finish? || step.RecordCrash? {
      var p := s.workers[step.w];
      if Guard(s.jobs[p.job], Some(step.w)) {
        GuardedAttempt(s, step.w);
        assert ClaimOk(p.epoch, s.jobs, s.hist, s.claims, s.closed);
      }
    } else if step.ReleaseStaleJobs? {
      ReleasedWereOpen(s, step.stale);
    }
  }

  lemma UserKeepsClosings(s: Sys, step: Step)
    requires Enabled(s, step) && UserStep(step)
    ensures ClosingsKept(s, After(s, step))
  {
  }

  lemma StepKeepsClosings(s: Sys, step: Step)
    requires Inv(s) && Enabled(s, step)
    ensures ClosingsKept(s, After(s, step))
  {
    if UserStep(step) {
      UserKeepsClosings(s, step);
    } else {
      WorkerKeepsClosings(s, step);
    }
  }

  // ---------------------------------------------------------------------------
  // Recipes
  // ---------------------------------------------------------------------------

  predicate EditsRecipe(step: Step, r: RecipeId) {
    step.EditRecipe? && step.recipe == r
  }

  /** The owner rejects or deletes the recipe. */
  predicate RemovesRecipe(s: Sys, step: Step, r: RecipeId) {
    (step.Reject? || step.DeleteRecipe?) && step.recipe == r && r in s.recipes && step.user == s.recipes[r].owner
  }

  /** What becomes of recipe `r`, where `r` is no new id. */
  predicate RecipeMoves(s: Sys, step: Step, t: Sys, r: RecipeId) {
    && (r in t.recipes <==> r in s.recipes && !RemovesRecipe(s, step, r))
    && (r in t.recipes ==>
          && Matured(s.recipes[r], t.recipes[r])
          && t.recipes[r].content == if EditsRecipe(step, r) then step.content else s.recipes[r].content)
  }

  lemma FinishRecipe(s: Sys, w: Token, outcome: Outcome, r: RecipeId)
    requires (forall q :: q in s.recipes ==> q < s.nextRecipe) && MayFinish(s, w, outcome) && r < s.nextRecipe
    ensures RecipeMoves(s, Finish(w, outcome), AfterFinish(s, w, outcome), r)
  {
    var p := s.workers[w];
    var cost := AttemptCost(p.prior, p.calls);
    var (after, drafts) := Settlement(s.jobs[p.job], s.recipes, s.nextRecipe, outcome, cost, s.now);
    WithDraftsRows(s.recipes, s.nextRecipe, after.user, after.fingerprint, drafts, p.job);
  }

  lemma WorkerRecipe(s: Sys, step: Step, r: RecipeId)
    requires Inv(s) && !UserStep(step) && WorkerEnabled(s, step) && r < s.nextRecipe
    ensures RecipeMoves(s, step, AfterWorker(s, step), r)
  {
    if step.Finish? {
      FinishRecipe(s, step.w, step.outcome, r);
    }
  }

  lemma ReviewRecipe(s: Sys, step: Step, r: RecipeId)
    requires ReviewStep(step) && ReviewEnabled(s, step)
    ensures RecipeMoves(s, step, AfterReview(s, step), r)
  {
  }

  lemma SourceRecipe(s: Sys, step: Step, r: RecipeId)
    requires (forall q :: q in s.recipes ==> q < s.nextRecipe) && SourceStep(step) && SourceEnabled(s, step)
                && r < s.nextRecipe
    ensures RecipeMoves(s, step, AfterSource(s, step), r)
  {
    if step.TransformJob? {
      WithDraftsRows(s.recipes, s.nextRecipe, step.user, None, step.drafts, s.nextJob);
    }
  }

  /** A recipe goes exactly when its owner rejects or deletes it, is edited exactly by
      an edit, and only ever becomes verified. */
  lemma StepRecipe(s: Sys, step: Step, r: RecipeId)
    requires Inv(s) && Enabled(s, step) && r < s.nextRecipe
    ensures RecipeMoves(s, step, After(s, step), r)
  {
    if ReviewStep(step) {
      ReviewRecipe(s, step, r);
    } else if SourceStep(step) {
      SourceRecipe(s, step, r);
    } else {
      WorkerRecipe(s, step, r);
    }
  }

  lemma WorkerNextRecipe(s: Sys, step: Step)
    requires !UserStep(step) && WorkerEnabled(s, step)
    ensures s.nextRecipe <= AfterWorker(s, step).nextRecipe
  {
  }

  /** Recipe ids are never given back. */
  lemma StepNextRecipe(s: Sys, step: Step)
    requires Enabled(s, step)
    ensures s.nextRecipe <= After(s, step).nextRecipe
  {
    if !UserStep(step) {
      WorkerNextRecipe(s, step);
    }
  }
}
