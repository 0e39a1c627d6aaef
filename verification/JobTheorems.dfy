/** What holds of the extraction protocol over every run, whatever the workers,
    crashes, releases and users do. */
module JobTheorems {
  import opened Options
  import opened JobQueue
  import opened Drafts
  import opened IngestionService
  import opened JobProtocol
  import opened JobInvariants
  import opened JobSteps
  import opened JobHistory

  ghost predicate Reachable(s: Sys) {
    exists cap, maxCall, steps ::
      && cap > 0.0 && maxCall >= 0.0
      && Runs(Init(cap, maxCall), steps)
      && Final(Init(cap, maxCall), steps) == s
  }

  lemma {:induction false} RunKeeps(s: Sys, steps: seq<Step>)
    requires Inv(s) && Runs(s, steps)
    ensures Inv(Final(s, steps))
    decreases |steps|
  {
    if steps != [] {
      StepKeeps(s, steps[0]);
      RunKeeps(After(s, steps[0]), steps[1..]);
    }
  }

  /** Every reachable state satisfies the invariant. */
  lemma ReachableInv(s: Sys)
    requires Reachable(s)
    ensures Inv(s)
  {
    var cap, maxCall, steps :|
      && cap > 0.0 && maxCall >= 0.0
      && Runs(Init(cap, maxCall), steps)
      && Final(Init(cap, maxCall), steps) == s;
    InitInv(cap, maxCall);
    RunKeeps(Init(cap, maxCall), steps);
  }

  // ---------------------------------------------------------------------------
  // Fencing
  // ---------------------------------------------------------------------------

  /** Fencing: the guard passes exactly when the worker's own claim is still the
      open one, however often the job was released and claimed in between; then
      that claim, and no other, becomes closed. Otherwise the claim was closed by
      someone else and the attempt changes no table. */
  lemma FencingIsSound(s: Sys, w: Token, step: Step)
    requires Reachable(s) && Enabled(s, step) && TriesToClose(step, w)
    ensures var p, t := s.workers[w], After(s, step);
            var passes := Guard(s.jobs[p.job], Some(w));
            && (passes <==> Open(s.jobs, s.hist, s.claims, p.epoch))
            && (passes ==> p.epoch !in s.closed && t.closed == s.closed[p.epoch := Applied])
            && (!passes ==> p.epoch in s.closed && t == s.(workers := s.workers[w := Idle]))
  {
    ReachableInv(s);
    var p := s.workers[w];
    assert AttemptOk(w, p, s.jobs[p.job], s.hist[p.job], s.claims, s.cap, s.maxCall);
    assert JobOk(p.job, s.jobs[p.job], s.hist[p.job], s.claims, s.cap, s.maxCall);
    assert ClaimOk(p.epoch, s.jobs, s.hist, s.claims, s.closed);
  }

  /** A closed claim is never reopened or closed a second time. */
  lemma {:induction false} ClosedForGood(s: Sys, steps: seq<Step>)
    requires Inv(s) && Runs(s, steps)
    ensures var t := Final(s, steps);
            && s.claims <= t.claims
            && forall e :: e in s.closed ==> e in t.closed && t.closed[e] == s.closed[e]
    decreases |steps|
  {
    if steps != [] {
      StepKeeps(s, steps[0]);
      StepKeepsClosings(s, steps[0]);
      ClosedForGood(After(s, steps[0]), steps[1..]);
    }
  }

  /** Every claim ever made is either still running or was closed, never both, and
      a job has at most one running claim. */
  lemma ClaimsAreOpenOrClosed(s: Sys, e: nat)
    requires Reachable(s) && e < |s.claims|
    ensures Open(s.jobs, s.hist, s.claims, e) <==> e !in s.closed
    ensures forall f: nat :: Open(s.jobs, s.hist, s.claims, e) && Open(s.jobs, s.hist, s.claims, f) && e != f ==>
              s.claims[e].job != s.claims[f].job
  {
    ReachableInv(s);
    assert ClaimOk(e, s.jobs, s.hist, s.claims, s.closed);
  }

  // ---------------------------------------------------------------------------
  // All-or-nothing drafts
  // ---------------------------------------------------------------------------

  /** Every existing draft is listed by exactly one job, its own, which is at or
      past review and has the same owner. */
  lemma DraftsAreListedOnce(s: Sys, r: RecipeId)
    requires Reachable(s) && r in s.recipes && s.recipes[r].origin.Draft?
    ensures var j := s.recipes[r].origin.job;
            && j in s.jobs
            && (s.jobs[j].status == NeedsReview || s.jobs[j].status == Done)
            && s.jobs[j].user == s.recipes[r].owner
            && forall k :: k in s.jobs ==> (r in s.jobs[k].produced <==> k == j)
  {
    ReachableInv(s);
    var j := s.recipes[r].origin.job;
    assert RecipeOk(r, s.recipes[r], s.jobs);
    assert ListingOk(j, s.jobs[j], s.recipes, s.nextRecipe);
    forall k | k in s.jobs
      ensures r in s.jobs[k].produced <==> k == j
    {
      assert ListingOk(k, s.jobs[k], s.recipes, s.nextRecipe);
    }
  }

  /** One recipe per owner and fingerprint; a draft that carries one is the first
      draft of its result. */
  lemma FingerprintsAreUnique(s: Sys, q: RecipeId, r: RecipeId)
    requires Reachable(s) && q in s.recipes && r in s.recipes
    requires s.recipes[q].fingerprint.Some?
    ensures s.recipes[q].owner == s.recipes[r].owner && s.recipes[q].fingerprint == s.recipes[r].fingerprint ==> q == r
    ensures s.recipes[q].origin.Draft? ==> s.recipes[q].origin.index == 0
  {
    ReachableInv(s);
    assert RecipeOk(q, s.recipes[q], s.jobs);
  }

  /** Recipes appear only from an applied extraction, a transform or a manual
      save: an attempt that was fenced off, failed or crashed leaves none behind. */
  lemma OnlyAppliedExtractionsLeaveDrafts(s: Sys, step: Step)
    requires Inv(s) && Enabled(s, step)
    requires !(After(s, step).recipes.Keys <= s.recipes.Keys)
    ensures || step.TransformJob?
            || step.AddRecipe?
            || (step.Finish? && step.outcome.Extracted? && Guard(s.jobs[s.workers[step.w].job], Some(step.w))
                && After(s, step).jobs[s.workers[step.w].job].status == NeedsReview)
  {
    if ReviewStep(step) {
      ReviewAddsNoRecipe(s, step);
    } else if !SourceStep(step) {
      WorkerAddsRecipes(s, step);
    }
  }

  lemma ReviewAddsNoRecipe(s: Sys, step: Step)
    requires ReviewStep(step) && ReviewEnabled(s, step)
    ensures AfterReview(s, step).recipes.Keys <= s.recipes.Keys
  {
  }

  lemma WorkerAddsRecipes(s: Sys, step: Step)
    requires !UserStep(step) && WorkerEnabled(s, step) && !(AfterWorker(s, step).recipes.Keys <= s.recipes.Keys)
    ensures step.Finish? && step.outcome.Extracted? && Guard(s.jobs[s.workers[step.w].job], Some(step.w))
    ensures AfterWorker(s, step).jobs[s.workers[step.w].job].status == NeedsReview
  {
  }

  // ---------------------------------------------------------------------------
  // Cost
  // ---------------------------------------------------------------------------

  /** Everything the applied attempts spent. */
  function SpentSum(bills: seq<Bill>): real {
    if bills == [] then 0.0 else SpentSum(bills[..|bills| - 1]) + Sum(bills[|bills| - 1].calls)
  }

  /** What of it was never billed. */
  function LostSum(bills: seq<Bill>): real {
    if bills == [] then 0.0
    else LostSum(bills[..|bills| - 1]) + if bills[|bills| - 1].billed then 0.0 else Sum(bills[|bills| - 1].calls)
  }

  lemma {:induction false} BilledPlusLost(bills: seq<Bill>)
    ensures BilledSum(bills) + LostSum(bills) == SpentSum(bills)
  {
    if bills != [] {
      BilledPlusLost(bills[..|bills| - 1]);
    }
  }

  /** Conservation: a job's cost is what its applied attempts spent, each counted
      once, less what was lost, and its bills are one per applied claim of the job. */
  lemma CostIsConserved(s: Sys, j: JobId)
    requires Reachable(s) && j in s.jobs && j in s.hist
    ensures var job, h := s.jobs[j], s.hist[j];
            && job.cost == h.opening + SpentSum(h.bills) - LostSum(h.bills)
            && (forall e: nat :: e < |s.claims| && s.claims[e].job == j ==>
                  (Paid(h.bills, e) <==> e in s.closed && s.closed[e] == Applied))
  {
    ReachableInv(s);
    BilledPlusLost(s.hist[j].bills);
    assert JobOk(j, s.jobs[j], s.hist[j], s.claims, s.cap, s.maxCall);
    assert BillsOk(j, s.hist[j].bills, s.claims, s.closed);
    forall e: nat | e < |s.claims| && s.claims[e].job == j
      ensures Paid(s.hist[j].bills, e) <==> e in s.closed && s.closed[e] == Applied
    {
      assert ClaimOk(e, s.jobs, s.hist, s.claims, s.closed);
    }
  }

  /** The cap holds across every attempt and retry: a submitted job never costs
      more than the cap plus one call. */
  lemma CostStaysUnderCap(s: Sys, j: JobId)
    requires Reachable(s) && j in s.jobs && !s.jobs[j].transform
    ensures s.jobs[j].cost < s.cap + s.maxCall
  {
    ReachableInv(s);
    assert JobOk(j, s.jobs[j], s.hist[j], s.claims, s.cap, s.maxCall);
  }

  // ---------------------------------------------------------------------------
  // Attempts and backoff
  // ---------------------------------------------------------------------------

  function ClaimsOf(steps: seq<Step>, j: JobId): nat {
    if steps == [] then 0
    else (if steps[0].ClaimJob? && steps[0].job == j then 1 else 0) + ClaimsOf(steps[1..], j)
  }

  function RetriesOf(steps: seq<Step>, j: JobId): nat {
    if steps == [] then 0
    else (if steps[0].Retry? && steps[0].job == j then 1 else 0) + RetriesOf(steps[1..], j)
  }

  function SinceReset(s: Sys, j: JobId): nat {
    if j in s.hist then s.hist[j].sinceReset else 0
  }

  lemma SinceResetBounded(s: Sys, j: JobId)
    requires Inv(s)
    ensures SinceReset(s, j) <= MAX_ATTEMPTS
  {
    if j in s.jobs {
      assert JobOk(j, s.jobs[j], s.hist[j], s.claims, s.cap, s.maxCall);
    }
  }

  /** Claims since the job was submitted or last retried: the counted attempts, and
      one more when the job runs or ended without failing; never more than three. */
  lemma AttemptsCountClaims(s: Sys, j: JobId)
    requires Reachable(s) && j in s.jobs && j in s.hist && !s.jobs[j].transform
    ensures var job, claims := s.jobs[j], s.hist[j].sinceReset;
            && claims == job.attempts + (if Counted(job.status) then 1 else 0)
            && claims <= MAX_ATTEMPTS
  {
    ReachableInv(s);
    SinceResetBounded(s, j);
    assert JobOk(j, s.jobs[j], s.hist[j], s.claims, s.cap, s.maxCall);
  }

  lemma StepCountsClaims(s: Sys, step: Step, j: JobId)
    requires Inv(s) && Enabled(s, step)
    ensures SinceReset(After(s, step), j) ==
            if step.ClaimJob? && step.job == j then SinceReset(s, j) + 1
            else if step.Retry? && step.job == j then 0
            else SinceReset(s, j)
  {
    if j in s.hist {
      StepHistory(s, step, j);
    } else {
      NewHistory(s, step, j);
    }
  }

  lemma {:induction false} ClaimsTelescope(s: Sys, steps: seq<Step>, j: JobId)
    requires Inv(s) && Runs(s, steps)
    ensures ClaimsOf(steps, j) + SinceReset(s, j) <= MAX_ATTEMPTS * RetriesOf(steps, j) + SinceReset(Final(s, steps), j)
    decreases |steps|
  {
    if steps != [] {
      StepKeeps(s, steps[0]);
      StepCountsClaims(s, steps[0], j);
      SinceResetBounded(s, j);
      ClaimsTelescope(After(s, steps[0]), steps[1..], j);
    }
  }

  /** Bounded attempts: over any run a job is claimed at most three times, plus
      three for each time its user retried it, whatever workers crash or die. */
  lemma AttemptsAreBounded(cap: real, maxCall: real, steps: seq<Step>, j: JobId)
    requires cap > 0.0 && maxCall >= 0.0 && Runs(Init(cap, maxCall), steps)
    ensures ClaimsOf(steps, j) <= MAX_ATTEMPTS * (1 + RetriesOf(steps, j))
  {
    InitInv(cap, maxCall);
    RunKeeps(Init(cap, maxCall), steps);
    ClaimsTelescope(Init(cap, maxCall), steps, j);
    SinceResetBounded(Final(Init(cap, maxCall), steps), j);
  }

  /** A later backoff ends no sooner than an earlier one. */
  lemma NotBeforeGrows(s: Sys, step: Step, t: Sys, j: JobId)
    requires j in s.jobs && j in s.hist && HistoryMoves(s, step, t, j) && BackoffOk(s.jobs[j], s.hist[j], s.now)
    ensures t.hist[j].notBefore >= s.hist[j].notBefore
  {
  }

  lemma StepKeepsNotBefore(s: Sys, step: Step, j: JobId)
    requires Inv(s) && Enabled(s, step) && j in s.jobs
    ensures var t := After(s, step);
            j in t.jobs && j in t.hist && t.hist[j].notBefore >= s.hist[j].notBefore && t.now >= s.now
  {
    assert BackoffOk(s.jobs[j], s.hist[j], s.now);
    StepHistory(s, step, j);
    NotBeforeGrows(s, step, After(s, step), j);
  }

  lemma {:induction false} RunKeepsNotBefore(s: Sys, steps: seq<Step>, j: JobId)
    requires Inv(s) && Runs(s, steps) && j in s.jobs
    ensures var t := Final(s, steps);
            j in t.jobs && j in t.hist && t.hist[j].notBefore >= s.hist[j].notBefore
    decreases |steps|
  {
    if steps != [] {
      StepKeeps(s, steps[0]);
      StepKeepsNotBefore(s, steps[0], j);
      RunKeepsNotBefore(After(s, steps[0]), steps[1..], j);
    }
  }

  lemma RequeueSetsBackoff(s: Sys, w: Token, step: Step)
    requires Inv(s) && Enabled(s, step) && TriesToClose(step, w)
    requires var j := s.workers[w].job; Guard(s.jobs[j], Some(w)) && After(s, step).jobs[j].status == Queued
    ensures var j, t := s.workers[w].job, After(s, step);
            && Inv(t) && j in t.jobs && j in t.hist
            && (t.jobs[j].attempts == 1 || t.jobs[j].attempts == 2)
            && t.hist[j].notBefore >= s.now + (if t.jobs[j].attempts == 1 then 30 else 60)
  {
    StepKeeps(s, step);
    ClosingHistory(s, w, step);
    var j, t := s.workers[w].job, After(s, step);
    assert JobOk(j, t.jobs[j], t.hist[j], t.claims, t.cap, t.maxCall);
  }

  /** A queued job is claimed no sooner than its history allows. */
  lemma RunServesBackoff(s: Sys, steps: seq<Step>, next: Token, j: JobId)
    requires Inv(s) && Runs(s, steps) && j in s.jobs && MayClaim(Final(s, steps), next, j)
    ensures Final(s, steps).now >= s.hist[j].notBefore
  {
    var t := Final(s, steps);
    RunKeeps(s, steps);
    RunKeepsNotBefore(s, steps, j);
    assert BackoffOk(t.jobs[j], t.hist[j], t.now);
  }

  /** Backoff: a job requeued by its first failure is claimed no sooner than 30 seconds
      later, and by its second no sooner than 60, however the run goes on. */
  lemma BackoffIsServed(s: Sys, w: Token, step: Step, steps: seq<Step>, next: Token)
    requires Reachable(s) && Enabled(s, step) && TriesToClose(step, w)
    requires var j := s.workers[w].job; Guard(s.jobs[j], Some(w)) && After(s, step).jobs[j].status == Queued
    requires Runs(After(s, step), steps)
    requires MayClaim(Final(After(s, step), steps), next, s.workers[w].job)
    ensures var k, later := After(s, step).jobs[s.workers[w].job].attempts, Final(After(s, step), steps).now;
            && (k == 1 || k == 2)
            && later >= s.now + (if k == 1 then 30 else 60)
  {
    ReachableInv(s);
    RequeueSetsBackoff(s, w, step);
    RunServesBackoff(After(s, step), steps, next, s.workers[w].job);
  }

  /** A job is locked exactly while it runs, and a failed one always says why. */
  lemma LocksAndReasons(s: Sys, j: JobId)
    requires Reachable(s) && j in s.jobs
    ensures var job := s.jobs[j];
            && (job.status == Running <==> job.lockedBy.Some?)
            && (job.status == Running <==> job.lockedAt.Some?)
            && (job.status == Failed ==> job.error.Some? && !Blank(job.reason))
            && job.attempts <= MAX_ATTEMPTS
  {
    ReachableInv(s);
    assert JobOk(j, s.jobs[j], s.hist[j], s.claims, s.cap, s.maxCall);
  }
}
