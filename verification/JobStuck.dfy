/** Jobs in review with nothing to decide on: exactly when a job becomes one, and
    that only a bulk accept ends it. */
module JobStuck {
  import opened Options
  import opened JobQueue
  import opened Drafts
  import opened IngestionService
  import opened JobProtocol
  import opened JobInvariants
  import opened JobSteps
  import opened JobHistory
  import opened JobTheorems
  import opened JobReview

  /** A job in review with no draft left to decide on. */
  ghost predicate Stuck(s: Sys, j: JobId) {
    && j in s.jobs
    && s.jobs[j].status == NeedsReview
    && forall r :: r in s.jobs[j].produced ==> r !in s.recipes
  }

  predicate SomeClosesInBulk(steps: seq<Step>, job: Job) {
    exists i :: 0 <= i < |steps| && ClosesInBulk(steps[i], job)
  }

  lemma StuckStays(s: Sys, step: Step, t: Sys, j: JobId)
    requires Stuck(s, j) && ListingOk(j, s.jobs[j], s.recipes, s.nextRecipe)
    requires step.Accept? || step.Reject? ==> step.recipe in s.recipes
    requires j in t.jobs && Moves(step, j, s.jobs[j], t.jobs[j]) && Aged(s.recipes, t.recipes, s.nextRecipe)
    ensures ClosesInBulk(step, s.jobs[j]) ==> t.jobs[j].status == Done
    ensures !ClosesInBulk(step, s.jobs[j]) ==> t.jobs[j] == s.jobs[j] && Stuck(t, j)
  {
  }

  lemma StepKeepsStuck(s: Sys, step: Step, j: JobId)
    requires Inv(s) && Enabled(s, step) && Stuck(s, j)
    ensures var t := After(s, step);
            && j in t.jobs
            && (ClosesInBulk(step, s.jobs[j]) ==> t.jobs[j].status == Done)
            && (!ClosesInBulk(step, s.jobs[j]) ==> t.jobs[j] == s.jobs[j] && Stuck(t, j))
  {
    StepAges(s, step);
    StepMoves(s, step, j);
    assert ListingOk(j, s.jobs[j], s.recipes, s.nextRecipe);
    StuckStays(s, step, After(s, step), j);
  }

  /** An unusable extraction, or drafts deleted outside the review, leave a job in
      review that nothing can close but a bulk accept at or below its confidence:
      its row stays as it is if and only if no such accept occurs. Until then the
      source cannot be submitted again. */
  lemma {:induction false} StuckUntilBulkAccept(s: Sys, steps: seq<Step>, j: JobId)
    requires Inv(s) && Runs(s, steps) && Stuck(s, j)
    ensures var t := Final(s, steps);
            && j in t.jobs
            && (t.jobs[j] == s.jobs[j] <==> !SomeClosesInBulk(steps, s.jobs[j]))
            && (t.jobs[j] == s.jobs[j] ==> !MaySubmit(t.jobs, t.recipes, s.jobs[j].user, s.jobs[j].fingerprint))
    decreases |steps|
  {
    if steps == [] {
      assert ActiveFor(s.jobs[j], s.jobs[j].user, s.jobs[j].fingerprint);
    } else {
      StepKeeps(s, steps[0]);
      StepKeepsStuck(s, steps[0], j);
      var next := After(s, steps[0]);
      if ClosesInBulk(steps[0], s.jobs[j]) {
        RunStaysDone(next, steps[1..], j);
      } else {
        StuckUntilBulkAccept(next, steps[1..], j);
        SomeClosesInTail(steps, s.jobs[j]);
      }
    }
  }

  lemma SomeClosesInTail(steps: seq<Step>, job: Job)
    requires steps != [] && !ClosesInBulk(steps[0], job)
    ensures SomeClosesInBulk(steps, job) <==> SomeClosesInBulk(steps[1..], job)
  {
    if SomeClosesInBulk(steps, job) {
      var i :| 0 <= i < |steps| && ClosesInBulk(steps[i], job);
      assert ClosesInBulk(steps[1..][i - 1], job);
    }
  }

  /** The step is the applied end of an extraction for `j` that found no usable recipe. */
  predicate ExtractsNothing(s: Sys, step: Step, j: JobId) {
    && step.Finish? && step.outcome.Extracted?
    && WorkerIn(s, step.w) && s.workers[step.w].Attempting? && s.workers[step.w].job == j
    && Guard(s.jobs[j], Some(step.w))
    && Plan(step.outcome.result, 0, {}) == []
  }

  /** The step deletes, outside the review, the last existing draft of a job in review. */
  predicate DeletesLastDraft(s: Sys, step: Step, j: JobId) {
    && step.DeleteRecipe?
    && j in s.jobs && s.jobs[j].status == NeedsReview
    && step.recipe in s.jobs[j].produced && step.recipe in s.recipes
    && forall r :: r in s.jobs[j].produced && r in s.recipes ==> r == step.recipe
  }

  predicate GetsStuck(s: Sys, step: Step, j: JobId) {
    ExtractsNothing(s, step, j) || DeletesLastDraft(s, step, j)
  }

  /** Drafts added to job `k`, whose row becomes `row`: only an empty review is stuck. */
  lemma AddedDraftsStick(s: Sys, k: JobId, row: Job, drafts: seq<RecipeIn>, t: Sys, j: JobId)
    requires DraftsOk(s.jobs, s.recipes, s.nextJob, s.nextRecipe) && !Stuck(s, j)
    requires t.jobs == s.jobs[k := row]
    requires t.recipes == WithDrafts(s.recipes, s.nextRecipe, row.user, row.fingerprint, drafts, k)
    requires row.status == NeedsReview ==> row.produced == DraftIds(s.nextRecipe, |drafts|)
    ensures Stuck(t, j) <==> j == k && row.status == NeedsReview && drafts == []
  {
    WithDraftsRows(s.recipes, s.nextRecipe, row.user, row.fingerprint, drafts, k);
    DraftIdsAre(s.nextRecipe, |drafts|);
    if j == k {
      assert drafts != [] ==> s.nextRecipe in DraftIds(s.nextRecipe, |drafts|) && s.nextRecipe in t.recipes;
    } else if j in s.jobs {
      assert ListingOk(j, s.jobs[j], s.recipes, s.nextRecipe);
    }
  }

  lemma FinishSticks(s: Sys, w: Token, outcome: Outcome, j: JobId)
    requires DraftsOk(s.jobs, s.recipes, s.nextJob, s.nextRecipe) && MayFinish(s, w, outcome) && !Stuck(s, j)
    ensures Stuck(AfterFinish(s, w, outcome), j) <==> ExtractsNothing(s, Finish(w, outcome), j)
  {
    var p := s.workers[w];
    if Guard(s.jobs[p.job], Some(w)) {
      var cost := AttemptCost(p.prior, p.calls);
      var (row, drafts) := Settlement(s.jobs[p.job], s.recipes, s.nextRecipe, outcome, cost, s.now);
      AddedDraftsStick(s, p.job, row, drafts, AfterFinish(s, w, outcome), j);
    }
  }

  /** A transformed job starts with drafts to decide on. */
  lemma TransformSticksNothing(s: Sys, user: UserId, drafts: seq<RecipeIn>, confidence: Option<real>, cost: real,
                               j: JobId)
    requires Inv(s) && drafts != [] && !Stuck(s, j)
    ensures !Stuck(AfterTransform(s, user, drafts, confidence, cost), j)
  {
    var row := Transformed(user, DraftIds(s.nextRecipe, |drafts|), confidence, cost, s.now);
    AddedDraftsStick(s, s.nextJob, row, drafts, AfterTransform(s, user, drafts, confidence, cost), j);
  }

  /** A rejection that leaves nothing to decide on closes its job. */
  lemma RejectSticksNothing(s: Sys, user: UserId, k: JobId, r: RecipeId, j: JobId)
    requires Inv(s) && MayReview(s.jobs, s.recipes, user, k, r) && !Stuck(s, j)
    ensures var recipes := s.recipes - {r};
            var rest := s.jobs[k].(produced := Without(s.jobs[k].produced, r));
            !Stuck(s.(jobs := s.jobs[k := MaybeCompleted(rest, recipes)], recipes := recipes), j)
  {
    assert ListingOk(k, s.jobs[k], s.recipes, s.nextRecipe);
    if j in s.jobs {
      assert ListingOk(j, s.jobs[j], s.recipes, s.nextRecipe);
    }
    var recipes, rest := s.recipes - {r}, s.jobs[k].(produced := Without(s.jobs[k].produced, r));
    assert (forall q :: q in rest.produced ==> q !in recipes) ==> Settled(rest, recipes);
  }

  /** A worker's step but a finish removes no recipe and brings no job into review. */
  lemma WorkerStepSticks(s: Sys, step: Step, j: JobId)
    requires Inv(s) && !UserStep(step) && WorkerEnabled(s, step) && !step.Finish? && !Stuck(s, j)
    ensures !Stuck(AfterWorker(s, step), j)
  {
    if step.RecordCrash? {
      RecordCrashClosesAs(s, step.w);
    }
  }

  /** A review action keeps the recipes, but for a deletion, and opens no job. */
  lemma ReviewStepSticks(s: Sys, step: Step, j: JobId)
    requires Inv(s) && ReviewStep(step) && ReviewEnabled(s, step) && !Stuck(s, j)
    ensures Stuck(AfterReview(s, step), j) <==> DeletesLastDraft(s, step, j)
  {
    if step.Reject? {
      RejectSticksNothing(s, step.user, step.job, step.recipe, j);
    } else if j in s.jobs {
      ReviewStepMoves(s, step, j);
    }
  }

  /** New and retried jobs are queued, and new recipes get new ids. */
  lemma SourceStepSticks(s: Sys, step: Step, j: JobId)
    requires Inv(s) && SourceStep(step) && SourceEnabled(s, step) && !Stuck(s, j)
    ensures !Stuck(AfterSource(s, step), j)
  {
    if step.TransformJob? {
      TransformSticksNothing(s, step.user, step.drafts, step.confidence, step.cost, j);
    } else if j in s.jobs {
      assert ListingOk(j, s.jobs[j], s.recipes, s.nextRecipe);
    }
  }

  /** Exactly when a job gets stuck: an applied extraction without a usable recipe, or
      the deletion of its last existing draft outside the review. */
  lemma GetsStuckExactly(s: Sys, step: Step, j: JobId)
    requires Inv(s) && Enabled(s, step) && !Stuck(s, j)
    ensures Stuck(After(s, step), j) <==> GetsStuck(s, step, j)
  {
    if step.Finish? {
      FinishSticks(s, step.w, step.outcome, j);
    } else if ReviewStep(step) {
      ReviewStepSticks(s, step, j);
    } else if SourceStep(step) {
      SourceStepSticks(s, step, j);
    } else {
      WorkerStepSticks(s, step, j);
    }
  }

  /** Some step of the run gets `j` stuck and no later bulk accept closes it. */
  ghost predicate EndsStuck(s: Sys, steps: seq<Step>, j: JobId)
    requires Runs(s, steps)
    decreases |steps|
  {
    && steps != []
    && var next := After(s, steps[0]);
       || (GetsStuck(s, steps[0], j) && j in next.jobs && !SomeClosesInBulk(steps[1..], next.jobs[j]))
       || EndsStuck(next, steps[1..], j)
  }

  ghost predicate StuckOrDone(s: Sys, j: JobId) {
    Stuck(s, j) || (j in s.jobs && s.jobs[j].status == Done)
  }

  lemma StepKeepsStuckOrDone(s: Sys, step: Step, j: JobId)
    requires Inv(s) && Enabled(s, step) && StuckOrDone(s, j)
    ensures StuckOrDone(After(s, step), j)
  {
    if Stuck(s, j) {
      StepKeepsStuck(s, step, j);
    } else {
      StepMoves(s, step, j);
    }
  }

  lemma NotStuckAgain(s: Sys, step: Step, j: JobId)
    requires StuckOrDone(s, j)
    ensures !GetsStuck(s, step, j)
  {
  }

  /** A stuck job, or one that was closed, does not get stuck again. */
  lemma {:induction false} StuckOnlyOnce(s: Sys, steps: seq<Step>, j: JobId)
    requires Inv(s) && Runs(s, steps) && StuckOrDone(s, j)
    ensures !EndsStuck(s, steps, j)
    decreases |steps|
  {
    if steps != [] {
      StepKeeps(s, steps[0]);
      NotStuckAgain(s, steps[0], j);
      StepKeepsStuckOrDone(s, steps[0], j);
      StuckOnlyOnce(After(s, steps[0]), steps[1..], j);
    }
  }

  lemma {:induction false} RunEndsStuck(s: Sys, steps: seq<Step>, j: JobId)
    requires Inv(s) && Runs(s, steps) && !Stuck(s, j)
    ensures Stuck(Final(s, steps), j) <==> EndsStuck(s, steps, j)
    decreases |steps|
  {
    if steps != [] {
      var next := After(s, steps[0]);
      StepKeeps(s, steps[0]);
      GetsStuckExactly(s, steps[0], j);
      if Stuck(next, j) {
        StuckUntilBulkAccept(next, steps[1..], j);
        StuckRowStays(next, steps[1..], j);
        StuckOnlyOnce(next, steps[1..], j);
      } else {
        RunEndsStuck(next, steps[1..], j);
      }
    }
  }

  /** A stuck job is stuck at the end of a run exactly when its row is untouched. */
  lemma {:induction false} StuckRowStays(s: Sys, steps: seq<Step>, j: JobId)
    requires Inv(s) && Runs(s, steps) && Stuck(s, j)
    ensures j in Final(s, steps).jobs && (Stuck(Final(s, steps), j) <==> Final(s, steps).jobs[j] == s.jobs[j])
    decreases |steps|
  {
    if steps != [] {
      StepKeeps(s, steps[0]);
      StepKeepsStuck(s, steps[0], j);
      var next := After(s, steps[0]);
      if ClosesInBulk(steps[0], s.jobs[j]) {
        RunStaysDone(next, steps[1..], j);
      } else {
        StuckRowStays(next, steps[1..], j);
      }
    }
  }

  /** Over every run from the start: a job ends in review with nothing to decide on if
      and only if some step extracted nothing for it or deleted its last draft outside
      the review, and no bulk accept at or below its confidence came after. */
  lemma StuckExactly(cap: real, maxCall: real, steps: seq<Step>, j: JobId)
    requires cap > 0.0 && maxCall >= 0.0 && Runs(Init(cap, maxCall), steps)
    ensures Stuck(Final(Init(cap, maxCall), steps), j) <==> EndsStuck(Init(cap, maxCall), steps, j)
  {
    InitInv(cap, maxCall);
    RunEndsStuck(Init(cap, maxCall), steps, j);
  }
}
