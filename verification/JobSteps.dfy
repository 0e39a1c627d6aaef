/** Each step of the extraction protocol keeps the invariant. */
module JobSteps {
  import opened Options
  import opened JobQueue
  import opened Drafts
  import opened IngestionService
  import opened JobProtocol
  import opened JobInvariants

  lemma SumSnoc(costs: seq<real>, c: real)
    ensures Sum(costs + [c]) == Sum(costs) + c
  {
    assert (costs + [c])[..|costs|] == costs;
  }

  lemma BilledSnoc(bills: seq<Bill>, bill: Bill)
    ensures BilledSum(bills + [bill]) == BilledSum(bills) + if bill.billed then Sum(bill.calls) else 0.0
  {
    assert (bills + [bill])[..|bills|] == bills;
  }

  // ---------------------------------------------------------------------------
  // Writing one row
  // ---------------------------------------------------------------------------

  /** A row that is not running keeps every component about jobs when it is right itself. */
  lemma RowKeepsJobs(s: Sys, j: JobId, job: Job, h: Hist)
    requires JobsOk(s.jobs, s.hist, s.claims, s.cap, s.maxCall)
    requires JobOk(j, job, h, s.claims, s.cap, s.maxCall)
    ensures JobsOk(s.jobs[j := job], s.hist[j := h], s.claims, s.cap, s.maxCall)
  {
  }

  lemma RowKeepsBackoffs(s: Sys, j: JobId, job: Job, h: Hist)
    requires BackoffsOk(s.jobs, s.hist, s.now) && BackoffOk(job, h, s.now)
    ensures BackoffsOk(s.jobs[j := job], s.hist[j := h], s.now)
  {
  }

  /** Every other row may be running; this one was not and is not. */
  lemma IdleRowKeepsClaims(s: Sys, j: JobId, job: Job, h: Hist)
    requires ClaimsOk(s.jobs, s.hist, s.claims, s.closed)
    requires job.status != Running
    requires j in s.jobs && j in s.hist ==> s.jobs[j].status != Running && h.bills == s.hist[j].bills
    requires j !in s.jobs <==> j !in s.hist
    ensures ClaimsOk(s.jobs[j := job], s.hist[j := h], s.claims, s.closed)
  {
    var jobs, hist := s.jobs[j := job], s.hist[j := h];
    forall e: nat | e < |s.claims|
      ensures ClaimOk(e, jobs, hist, s.claims, s.closed)
    {
      assert ClaimOk(e, s.jobs, s.hist, s.claims, s.closed);
    }
  }

  lemma IdleRowKeepsWorkers(s: Sys, workers: map<Token, Phase>, j: JobId, job: Job, h: Hist)
    requires WorkersOk(workers, s.jobs, s.hist, s.claims, s.cap, s.maxCall)
    requires job.status != Running
    requires j in s.jobs ==> job.transform == s.jobs[j].transform
    ensures WorkersOk(workers, s.jobs[j := job], s.hist[j := h], s.claims, s.cap, s.maxCall)
  {
    forall w | w in workers && Busy(workers[w]) && workers[w].job == j
      ensures AttemptOk(w, workers[w], job, h, s.claims, s.cap, s.maxCall)
    {
      assert AttemptOk(w, workers[w], s.jobs[j], s.hist[j], s.claims, s.cap, s.maxCall);
    }
  }

  // ---------------------------------------------------------------------------
  // Clock and worker processes
  // ---------------------------------------------------------------------------

  lemma TickKeeps(s: Sys, seconds: nat)
    requires Inv(s)
    ensures Inv(s.(now := s.now + seconds))
  {
  }

  /** A worker changing phase keeps the invariant when its new phase is right. */
  lemma PhaseKeeps(s: Sys, w: Token, p: Phase)
    requires Inv(s)
    requires Busy(p) ==>
               && p.job in s.jobs && p.job in s.hist
               && AttemptOk(w, p, s.jobs[p.job], s.hist[p.job], s.claims, s.cap, s.maxCall)
    ensures Inv(s.(workers := s.workers[w := p]))
  {
    assert WorkersOk(s.workers[w := p], s.jobs, s.hist, s.claims, s.cap, s.maxCall);
  }

  lemma BeginKeeps(s: Sys, w: Token)
    requires Inv(s) && WorkerIn(s, w) && s.workers[w].Holding?
    ensures var Holding(j, e) := s.workers[w];
            Inv(s.(workers := s.workers[w := Attempting(j, e, s.jobs[j].cost, [])]))
  {
    var Holding(j, e) := s.workers[w];
    assert AttemptOk(w, s.workers[w], s.jobs[j], s.hist[j], s.claims, s.cap, s.maxCall);
    PhaseKeeps(s, w, Attempting(j, e, s.jobs[j].cost, []));
  }

  lemma CallKeeps(s: Sys, w: Token, cost: real)
    requires Inv(s) && MayCall(s, w, cost)
    ensures var Attempting(j, e, prior, calls) := s.workers[w];
            Inv(s.(workers := s.workers[w := Attempting(j, e, prior, calls + [cost])]))
  {
    var Attempting(j, e, prior, calls) := s.workers[w];
    assert AttemptOk(w, s.workers[w], s.jobs[j], s.hist[j], s.claims, s.cap, s.maxCall);
    SumSnoc(calls, cost);
    PhaseKeeps(s, w, Attempting(j, e, prior, calls + [cost]));
  }

  lemma CrashKeeps(s: Sys, w: Token, where: Where, error: string)
    requires Inv(s) && WorkerIn(s, w) && (s.workers[w].Holding? || s.workers[w].Attempting?)
    ensures Inv(s.(workers := s.workers[w := CrashedPhase(s.workers[w], where, error)]))
  {
    var p := s.workers[w];
    assert AttemptOk(w, p, s.jobs[p.job], s.hist[p.job], s.claims, s.cap, s.maxCall);
    PhaseKeeps(s, w, CrashedPhase(p, where, error));
  }

  // ---------------------------------------------------------------------------
  // Submitting
  // ---------------------------------------------------------------------------

  lemma NewJobKeeps(s: Sys, job: Job, opening: real)
    requires Inv(s)
    requires job.status != Running && job.lockedBy.None? && job.lockedAt.None?
    requires job.cost == opening && job.attempts == 0
    requires job.transform ==> job.status == NeedsReview
    requires !job.transform ==> job.status == Queued && opening == 0.0
    ensures var h := Hist(None, 0, s.now, opening, []);
            && JobsOk(s.jobs[s.nextJob := job], s.hist[s.nextJob := h], s.claims, s.cap, s.maxCall)
            && BackoffsOk(s.jobs[s.nextJob := job], s.hist[s.nextJob := h], s.now)
            && LedgerOk(s.hist[s.nextJob := h], s.claims, s.closed)
            && ClaimsOk(s.jobs[s.nextJob := job], s.hist[s.nextJob := h], s.claims, s.closed)
            && WorkersOk(s.workers, s.jobs[s.nextJob := job], s.hist[s.nextJob := h], s.claims, s.cap, s.maxCall)
  {
    var j, h := s.nextJob, Hist(None, 0, s.now, opening, []);
    assert j !in s.jobs;
    RowKeepsJobs(s, j, job, h);
    RowKeepsBackoffs(s, j, job, h);
    IdleRowKeepsClaims(s, j, job, h);
    IdleRowKeepsWorkers(s, s.workers, j, job, h);
  }

  lemma NewJobKeepsDrafts(s: Sys, job: Job)
    requires DraftsOk(s.jobs, s.recipes, s.nextJob, s.nextRecipe)
    requires job.produced == [] && job.status != Done
    ensures DraftsOk(s.jobs[s.nextJob := job], s.recipes, s.nextJob + 1, s.nextRecipe)
  {
  }

  lemma SubmitKeeps(s: Sys, user: UserId, fingerprint: string)
    requires Inv(s)
    ensures var j := s.nextJob;
            Inv(s.(jobs := s.jobs[j := Submitted(user, fingerprint, s.now)], nextJob := j + 1,
                   hist := s.hist[j := Hist(None, 0, s.now, 0.0, [])]))
  {
    NewJobKeeps(s, Submitted(user, fingerprint, s.now), 0.0);
    NewJobKeepsDrafts(s, Submitted(user, fingerprint, s.now));
  }

  /** Job `j` may take `drafts`: its row becomes `job`, listing exactly them. */
  predicate TakesDrafts(s: Sys, j: JobId, job: Job, drafts: seq<RecipeIn>) {
    && (j in s.jobs ==>
         s.jobs[j].produced == [] && job.user == s.jobs[j].user && job.fingerprint == s.jobs[j].fingerprint)
    && job.produced == DraftIds(s.nextRecipe, |drafts|)
    && job.status != Done
    && (drafts != [] ==> job.status == NeedsReview && !Taken(s.recipes, job.user, job.fingerprint))
  }

  lemma DraftsAddedListing(s: Sys, j: JobId, job: Job, drafts: seq<RecipeIn>)
    requires ListingsOk(s.jobs, s.recipes, s.nextRecipe)
    requires forall r :: r in s.recipes ==> r < s.nextRecipe
    requires TakesDrafts(s, j, job, drafts)
    ensures var recipes := WithDrafts(s.recipes, s.nextRecipe, job.user, job.fingerprint, drafts, j);
            ListingsOk(s.jobs[j := job], recipes, s.nextRecipe + |drafts|)
  {
    var recipes := WithDrafts(s.recipes, s.nextRecipe, job.user, job.fingerprint, drafts, j);
    WithDraftsRows(s.recipes, s.nextRecipe, job.user, job.fingerprint, drafts, j);
    DraftIdsAre(s.nextRecipe, |drafts|);
    forall k | k in s.jobs && k != j
      ensures ListingOk(k, s.jobs[k], recipes, s.nextRecipe + |drafts|)
    {
      assert ListingOk(k, s.jobs[k], s.recipes, s.nextRecipe);
    }
  }

  lemma DraftsAddedRecipes(s: Sys, j: JobId, job: Job, drafts: seq<RecipeIn>)
    requires forall r :: r in s.recipes ==> r < s.nextRecipe
    requires forall r :: r in s.recipes ==> RecipeOk(r, s.recipes[r], s.jobs)
    requires TakesDrafts(s, j, job, drafts)
    ensures var recipes := WithDrafts(s.recipes, s.nextRecipe, job.user, job.fingerprint, drafts, j);
            && (forall r :: r in recipes ==> r < s.nextRecipe + |drafts|)
            && (forall r :: r in recipes ==> RecipeOk(r, recipes[r], s.jobs[j := job]))
  {
    WithDraftsRows(s.recipes, s.nextRecipe, job.user, job.fingerprint, drafts, j);
    DraftIdsAre(s.nextRecipe, |drafts|);
  }

  lemma DraftsAddedFingerprints(s: Sys, j: JobId, job: Job, drafts: seq<RecipeIn>)
    requires forall r :: r in s.recipes ==> r < s.nextRecipe
    requires FingerprintsOk(s.recipes)
    requires TakesDrafts(s, j, job, drafts)
    ensures FingerprintsOk(WithDrafts(s.recipes, s.nextRecipe, job.user, job.fingerprint, drafts, j))
  {
    WithDraftsRows(s.recipes, s.nextRecipe, job.user, job.fingerprint, drafts, j);
  }

  lemma DraftsAdded(s: Sys, j: JobId, job: Job, drafts: seq<RecipeIn>, nextJob: nat)
    requires DraftsOk(s.jobs, s.recipes, s.nextJob, s.nextRecipe)
    requires j < nextJob && s.nextJob <= nextJob
    requires TakesDrafts(s, j, job, drafts)
    ensures DraftsOk(s.jobs[j := job], WithDrafts(s.recipes, s.nextRecipe, job.user, job.fingerprint, drafts, j),
                     nextJob, s.nextRecipe + |drafts|)
  {
    DraftsAddedListing(s, j, job, drafts);
    DraftsAddedRecipes(s, j, job, drafts);
    DraftsAddedFingerprints(s, j, job, drafts);
  }

  lemma TransformKeepsDrafts(s: Sys, user: UserId, drafts: seq<RecipeIn>, confidence: Option<real>, cost: real)
    requires DraftsOk(s.jobs, s.recipes, s.nextJob, s.nextRecipe)
    ensures var t := AfterTransform(s, user, drafts, confidence, cost);
            DraftsOk(t.jobs, t.recipes, t.nextJob, t.nextRecipe)
  {
    assert s.nextJob !in s.jobs;
    DraftsAdded(s, s.nextJob, Transformed(user, DraftIds(s.nextRecipe, |drafts|), confidence, cost, s.now), drafts,
                s.nextJob + 1);
  }

  lemma TransformKeeps(s: Sys, user: UserId, drafts: seq<RecipeIn>, confidence: Option<real>, cost: real)
    requires Inv(s)
    ensures Inv(AfterTransform(s, user, drafts, confidence, cost))
  {
    NewJobKeeps(s, Transformed(user, DraftIds(s.nextRecipe, |drafts|), confidence, cost, s.now), cost);
    TransformKeepsDrafts(s, user, drafts, confidence, cost);
  }

  // ---------------------------------------------------------------------------
  // Claiming
  // ---------------------------------------------------------------------------

  lemma ClaimKeepsJobs(s: Sys, w: Token, j: JobId)
    requires JobsOk(s.jobs, s.hist, s.claims, s.cap, s.maxCall) && MayClaim(s, w, j)
    ensures var t := AfterClaim(s, w, j); JobsOk(t.jobs, t.hist, t.claims, t.cap, t.maxCall)
  {
    var t := AfterClaim(s, w, j);
    forall k | k in t.jobs
      ensures JobOk(k, t.jobs[k], t.hist[k], t.claims, t.cap, t.maxCall)
    {
      assert JobOk(k, s.jobs[k], s.hist[k], s.claims, s.cap, s.maxCall);
    }
  }

  lemma ClaimKeepsLedger(s: Sys, w: Token, j: JobId)
    requires BackoffsOk(s.jobs, s.hist, s.now) && LedgerOk(s.hist, s.claims, s.closed) && MayClaim(s, w, j)
    ensures var t := AfterClaim(s, w, j); BackoffsOk(t.jobs, t.hist, t.now) && LedgerOk(t.hist, t.claims, t.closed)
  {
    var t := AfterClaim(s, w, j);
    forall k | k in t.hist
      ensures BillsOk(k, t.hist[k].bills, t.claims, t.closed)
    {
      assert BillsOk(k, s.hist[k].bills, s.claims, s.closed);
    }
  }

  lemma ClaimKeepsClaims(s: Sys, w: Token, j: JobId)
    requires ClaimsOk(s.jobs, s.hist, s.claims, s.closed) && MayClaim(s, w, j)
    ensures var t := AfterClaim(s, w, j); ClaimsOk(t.jobs, t.hist, t.claims, t.closed)
  {
    var t := AfterClaim(s, w, j);
    forall e: nat | e < |t.claims|
      ensures ClaimOk(e, t.jobs, t.hist, t.claims, t.closed)
    {
      if e < |s.claims| {
        assert t.claims[e] == s.claims[e];
        assert ClaimOk(e, s.jobs, s.hist, s.claims, s.closed);
      }
    }
  }

  lemma ClaimKeepsWorkers(s: Sys, w: Token, j: JobId)
    requires WorkersOk(s.workers, s.jobs, s.hist, s.claims, s.cap, s.maxCall) && MayClaim(s, w, j)
    requires AttemptsOk(s.jobs[j], s.hist[j])
    ensures var t := AfterClaim(s, w, j); WorkersOk(t.workers, t.jobs, t.hist, t.claims, t.cap, t.maxCall)
  {
  }

  lemma ClaimKeepsDrafts(s: Sys, w: Token, j: JobId)
    requires DraftsOk(s.jobs, s.recipes, s.nextJob, s.nextRecipe) && MayClaim(s, w, j)
    ensures var t := AfterClaim(s, w, j); DraftsOk(t.jobs, t.recipes, t.nextJob, t.nextRecipe)
  {
    assert ListingOk(j, s.jobs[j], s.recipes, s.nextRecipe);
  }

  lemma ClaimKeeps(s: Sys, w: Token, j: JobId)
    requires Inv(s) && MayClaim(s, w, j)
    ensures Inv(AfterClaim(s, w, j))
  {
    ClaimKeepsJobs(s, w, j);
    ClaimKeepsLedger(s, w, j);
    ClaimKeepsClaims(s, w, j);
    assert JobOk(j, s.jobs[j], s.hist[j], s.claims, s.cap, s.maxCall);
    ClaimKeepsWorkers(s, w, j);
    ClaimKeepsDrafts(s, w, j);
  }

  // ---------------------------------------------------------------------------
  // Closing an attempt
  // ---------------------------------------------------------------------------

  /** Job `j`, running under claim `e`, is closed: its row becomes `job`, with one more bill. */
  predicate Closes(s: Sys, j: JobId, e: nat, job: Job, bill: Bill) {
    && j in s.jobs && j in s.hist
    && s.jobs[j].status == Running
    && s.hist[j].current == Some(e)
    && e < |s.claims| && s.claims[e].job == j
    && job.status != Running
    && !job.transform && !s.jobs[j].transform
    && bill.epoch == e
  }

  function ClosedHist(s: Sys, j: JobId, job: Job, bill: Bill): Hist
    requires j in s.hist
  {
    s.hist[j].(notBefore := NotBefore(s.hist[j], job), bills := s.hist[j].bills + [bill])
  }

  lemma CloseKeepsClaims(s: Sys, j: JobId, e: nat, job: Job, bill: Bill)
    requires ClaimsOk(s.jobs, s.hist, s.claims, s.closed) && Closes(s, j, e, job, bill)
    ensures e !in s.closed
    ensures ClaimsOk(s.jobs[j := job], s.hist[j := ClosedHist(s, j, job, bill)], s.claims, s.closed[e := Applied])
  {
    var jobs, hist, closed := s.jobs[j := job], s.hist[j := ClosedHist(s, j, job, bill)], s.closed[e := Applied];
    assert ClaimOk(e, s.jobs, s.hist, s.claims, s.closed);
    forall f: nat | f < |s.claims|
      ensures ClaimOk(f, jobs, hist, s.claims, closed)
    {
      assert ClaimOk(f, s.jobs, s.hist, s.claims, s.closed);
      var bills := s.hist[s.claims[f].job].bills;
      if f == e {
        assert hist[j].bills[|s.hist[j].bills|].epoch == e;
      } else if f in closed && closed[f] == Applied {
        var a :| 0 <= a < |bills| && bills[a].epoch == f;
        assert hist[s.claims[f].job].bills[a].epoch == f;
      }
    }
  }

  lemma CloseKeepsLedger(s: Sys, j: JobId, e: nat, job: Job, bill: Bill)
    requires LedgerOk(s.hist, s.claims, s.closed) && Closes(s, j, e, job, bill) && e !in s.closed
    ensures LedgerOk(s.hist[j := ClosedHist(s, j, job, bill)], s.claims, s.closed[e := Applied])
  {
    var closed := s.closed[e := Applied];
    forall k | k in s.hist && k != j
      ensures BillsOk(k, s.hist[k].bills, s.claims, closed)
    {
      assert BillsOk(k, s.hist[k].bills, s.claims, s.closed);
    }
    assert BillsOk(j, s.hist[j].bills, s.claims, s.closed);
    assert BillsOk(j, s.hist[j].bills + [bill], s.claims, closed);
  }

  lemma CloseKeepsRest(s: Sys, w: Token, j: JobId, e: nat, job: Job, bill: Bill)
    requires JobsOk(s.jobs, s.hist, s.claims, s.cap, s.maxCall)
    requires BackoffsOk(s.jobs, s.hist, s.now)
    requires WorkersOk(s.workers, s.jobs, s.hist, s.claims, s.cap, s.maxCall)
    requires Closes(s, j, e, job, bill)
    requires job.lockedBy.None? && job.lockedAt.None?
    requires AttemptsOk(job, s.hist[j])
    requires job.status == Queued ==> job.nextAttemptAt.Some?
    requires job.cost == s.jobs[j].cost + (if bill.billed then Sum(bill.calls) else 0.0)
    requires job.cost < s.cap + s.maxCall
    ensures var jobs, hist := s.jobs[j := job], s.hist[j := ClosedHist(s, j, job, bill)];
            && JobsOk(jobs, hist, s.claims, s.cap, s.maxCall)
            && BackoffsOk(jobs, hist, s.now)
            && WorkersOk(s.workers[w := Idle], jobs, hist, s.claims, s.cap, s.maxCall)
  {
    var h := ClosedHist(s, j, job, bill);
    BilledSnoc(s.hist[j].bills, bill);
    assert JobOk(j, s.jobs[j], s.hist[j], s.claims, s.cap, s.maxCall);
    assert BackoffOk(s.jobs[j], s.hist[j], s.now);
    RowKeepsJobs(s, j, job, h);
    RowKeepsBackoffs(s, j, job, h);
    IdleRowKeepsWorkers(s, s.workers[w := Idle], j, job, h);
  }

  /** What the guard gives an attempt when it closes: its own claim, still open,
      and the spend it started from. */
  lemma GuardedAttempt(s: Sys, w: Token)
    requires JobsOk(s.jobs, s.hist, s.claims, s.cap, s.maxCall)
    requires WorkersOk(s.workers, s.jobs, s.hist, s.claims, s.cap, s.maxCall)
    requires WorkerIn(s, w) && Guard(s.jobs[s.workers[w].job], Some(w))
    ensures var p := s.workers[w];
            && s.hist[p.job].current == Some(p.epoch)
            && p.epoch < |s.claims| && s.claims[p.epoch] == Claim(p.job, w)
            && s.jobs[p.job].status == Running
            && !s.jobs[p.job].transform
            && (!p.Holding? ==> Sum(p.calls) >= 0.0)
            && (p.Attempting? ==>
                  && s.jobs[p.job].cost == p.prior
                  && AttemptCost(p.prior, p.calls) == Sum(p.calls))
            && (!p.Holding? ==> s.jobs[p.job].cost + Sum(p.calls) < s.cap + s.maxCall)
  {
    var p := s.workers[w];
    assert AttemptOk(w, p, s.jobs[p.job], s.hist[p.job], s.claims, s.cap, s.maxCall);
    assert JobOk(p.job, s.jobs[p.job], s.hist[p.job], s.claims, s.cap, s.maxCall);
  }

  /** `job` may replace the row of the attempt of `w`, with `bill` as its bill. */
  predicate LegalClose(s: Sys, w: Token, job: Job, bill: Bill)
    requires WorkerIn(s, w)
  {
    var p := s.workers[w];
    && Closes(s, p.job, p.epoch, job, bill)
    && job.lockedBy.None? && job.lockedAt.None?
    && AttemptsOk(job, s.hist[p.job])
    && (job.status == Queued ==> job.nextAttemptAt.Some?)
    && job.cost == s.jobs[p.job].cost + (if bill.billed then Sum(bill.calls) else 0.0)
    && job.cost < s.cap + s.maxCall
  }

  lemma CloseKeepsQueue(s: Sys, w: Token, job: Job, drafts: seq<RecipeIn>, bill: Bill)
    requires QueueOk(s) && WorkerIn(s, w) && LegalClose(s, w, job, bill)
    ensures QueueOk(Close(s, w, s.workers[w].job, s.workers[w].epoch, job, drafts, bill))
  {
    var j, e := s.workers[w].job, s.workers[w].epoch;
    CloseKeepsClaims(s, j, e, job, bill);
    CloseKeepsLedger(s, j, e, job, bill);
    CloseKeepsRest(s, w, j, e, job, bill);
  }

  lemma CloseKeeps(s: Sys, w: Token, job: Job, drafts: seq<RecipeIn>, bill: Bill)
    requires Inv(s) && WorkerIn(s, w) && LegalClose(s, w, job, bill)
    requires TakesDrafts(s, s.workers[w].job, job, drafts)
    ensures Inv(Close(s, w, s.workers[w].job, s.workers[w].epoch, job, drafts, bill))
  {
    CloseKeepsQueue(s, w, job, drafts, bill);
    DraftsAdded(s, s.workers[w].job, job, drafts, s.nextJob);
  }

  /** An attempt's settlement is a legal successor of its running row. */
  lemma SettlementIsLegal(s: Sys, j: JobId, outcome: Outcome, cost: real)
    requires j in s.jobs && j in s.hist && s.jobs[j].status == Running && !s.jobs[j].transform
    requires s.jobs[j].produced == []
    requires AttemptsOk(s.jobs[j], s.hist[j])
    ensures var (job, drafts) := Settlement(s.jobs[j], s.recipes, s.nextRecipe, outcome, cost, s.now);
            && job.status != Running && !job.transform
            && job.lockedBy.None? && job.lockedAt.None?
            && AttemptsOk(job, s.hist[j])
            && (job.status == Queued ==> job.nextAttemptAt.Some?)
            && job.cost == s.jobs[j].cost + (if outcome.NoExtractor? then 0.0 else cost)
            && TakesDrafts(s, j, job, drafts)
  {
    assert DraftIds(s.nextRecipe, 0) == [];
  }

  lemma RunningListsNothing(s: Sys, j: JobId)
    requires DraftsOk(s.jobs, s.recipes, s.nextJob, s.nextRecipe) && j in s.jobs && s.jobs[j].status == Running
    ensures s.jobs[j].produced == []
  {
    assert ListingOk(j, s.jobs[j], s.recipes, s.nextRecipe);
  }

  lemma FinishKeeps(s: Sys, w: Token, outcome: Outcome)
    requires Inv(s) && MayFinish(s, w, outcome)
    ensures Inv(AfterFinish(s, w, outcome))
  {
    var Attempting(j, e, prior, calls) := s.workers[w];
    if !Guard(s.jobs[j], Some(w)) {
      PhaseKeeps(s, w, Idle);
    } else {
      GuardedAttempt(s, w);
      RunningListsNothing(s, j);
      assert JobOk(j, s.jobs[j], s.hist[j], s.claims, s.cap, s.maxCall);
      var cost := AttemptCost(prior, calls);
      SettlementIsLegal(s, j, outcome, cost);
      var (job, drafts) := Settlement(s.jobs[j], s.recipes, s.nextRecipe, outcome, cost, s.now);
      CloseKeeps(s, w, job, drafts, Bill(e, calls, true));
    }
  }

  /** Failing a running job, retryably or not, is a legal successor of its row. */
  lemma FailureIsLegal(s: Sys, j: JobId, error: string, cost: Option<real>)
    requires j in s.jobs && j in s.hist && s.jobs[j].status == Running && !s.jobs[j].transform
    requires s.jobs[j].produced == []
    requires AttemptsOk(s.jobs[j], s.hist[j])
    ensures var job := FailedOnce(s.jobs[j], error, cost, true, s.now);
            && job.status != Running && !job.transform
            && job.lockedBy.None? && job.lockedAt.None?
            && AttemptsOk(job, s.hist[j])
            && (job.status == Queued ==> job.nextAttemptAt.Some?)
            && job.cost == s.jobs[j].cost + (if cost.Some? then cost.value else 0.0)
            && TakesDrafts(s, j, job, [])
  {
    assert DraftIds(s.nextRecipe, 0) == [];
  }

  lemma RecordCrashKeeps(s: Sys, w: Token)
    requires Inv(s) && WorkerIn(s, w) && s.workers[w].Crashed?
    ensures Inv(AfterRecordCrash(s, w))
  {
    var Crashed(j, e, calls, billed, error) := s.workers[w];
    if !Guard(s.jobs[j], Some(w)) {
      PhaseKeeps(s, w, Idle);
    } else {
      GuardedAttempt(s, w);
      RunningListsNothing(s, j);
      assert JobOk(j, s.jobs[j], s.hist[j], s.claims, s.cap, s.maxCall);
      var cost := if billed then Some(Sum(calls)) else None;
      FailureIsLegal(s, j, error, cost);
      CloseKeeps(s, w, FailedOnce(s.jobs[j], error, cost, true, s.now), [], Bill(e, calls, billed));
    }
  }

  // ---------------------------------------------------------------------------
  // Releasing stale jobs
  // ---------------------------------------------------------------------------

  lemma ReleaseKeepsJobs(s: Sys, stale: set<JobId>)
    requires JobsOk(s.jobs, s.hist, s.claims, s.cap, s.maxCall) && MayRelease(s, stale)
    ensures JobsOk(ReleasedRows(s.jobs, stale), s.hist, s.claims, s.cap, s.maxCall)
  {
    var jobs := ReleasedRows(s.jobs, stale);
    forall j | j in jobs
      ensures JobOk(j, jobs[j], s.hist[j], s.claims, s.cap, s.maxCall)
    {
      assert JobOk(j, s.jobs[j], s.hist[j], s.claims, s.cap, s.maxCall);
    }
  }

  lemma ReleaseKeepsBackoffs(s: Sys, stale: set<JobId>)
    requires BackoffsOk(s.jobs, s.hist, s.now) && MayRelease(s, stale)
    ensures BackoffsOk(ReleasedRows(s.jobs, stale), s.hist, s.now)
  {
  }

  /** Only open claims are released. */
  lemma ReleasedWereOpen(s: Sys, stale: set<JobId>)
    requires JobsOk(s.jobs, s.hist, s.claims, s.cap, s.maxCall)
    requires ClaimsOk(s.jobs, s.hist, s.claims, s.closed)
    requires MayRelease(s, stale)
    ensures forall e :: e in ReleasedEpochs(s, stale) ==>
              e < |s.claims| && s.claims[e].job in stale && Open(s.jobs, s.hist, s.claims, e) && e !in s.closed
  {
    forall e | e in ReleasedEpochs(s, stale)
      ensures e < |s.claims| && s.claims[e].job in stale && Open(s.jobs, s.hist, s.claims, e) && e !in s.closed
    {
      var j :| j in stale && e == s.hist[j].current.value;
      assert JobOk(j, s.jobs[j], s.hist[j], s.claims, s.cap, s.maxCall);
      assert ClaimOk(e, s.jobs, s.hist, s.claims, s.closed);
    }
  }

  lemma ReleaseKeepsClaims(s: Sys, stale: set<JobId>)
    requires JobsOk(s.jobs, s.hist, s.claims, s.cap, s.maxCall)
    requires ClaimsOk(s.jobs, s.hist, s.claims, s.closed)
    requires MayRelease(s, stale)
    ensures var t := AfterRelease(s, stale); ClaimsOk(t.jobs, t.hist, t.claims, t.closed)
  {
    var t := AfterRelease(s, stale);
    ReleasedWereOpen(s, stale);
    forall e: nat | e < |s.claims|
      ensures ClaimOk(e, t.jobs, t.hist, t.claims, t.closed)
    {
      assert ClaimOk(e, s.jobs, s.hist, s.claims, s.closed);
      var j := s.claims[e].job;
      if j in stale && s.hist[j].current == Some(e) {
        assert e in ReleasedEpochs(s, stale);
      }
    }
  }

  lemma ReleaseKeepsLedger(s: Sys, stale: set<JobId>)
    requires JobsOk(s.jobs, s.hist, s.claims, s.cap, s.maxCall)
    requires ClaimsOk(s.jobs, s.hist, s.claims, s.closed)
    requires LedgerOk(s.hist, s.claims, s.closed)
    requires MayRelease(s, stale)
    ensures LedgerOk(s.hist, s.claims, AfterRelease(s, stale).closed)
  {
    ReleasedWereOpen(s, stale);
    var closed := AfterRelease(s, stale).closed;
    forall j | j in s.hist
      ensures BillsOk(j, s.hist[j].bills, s.claims, closed)
    {
      assert BillsOk(j, s.hist[j].bills, s.claims, s.closed);
    }
  }

  lemma ReleaseKeepsWorkers(s: Sys, stale: set<JobId>)
    requires WorkersOk(s.workers, s.jobs, s.hist, s.claims, s.cap, s.maxCall) && MayRelease(s, stale)
    ensures WorkersOk(s.workers, ReleasedRows(s.jobs, stale), s.hist, s.claims, s.cap, s.maxCall)
  {
    var jobs := ReleasedRows(s.jobs, stale);
    forall w | w in s.workers && Busy(s.workers[w])
      ensures var p := s.workers[w];
              p.job in jobs && p.job in s.hist
                && AttemptOk(w, p, jobs[p.job], s.hist[p.job], s.claims, s.cap, s.maxCall)
    {
      var p := s.workers[w];
      assert AttemptOk(w, p, s.jobs[p.job], s.hist[p.job], s.claims, s.cap, s.maxCall);
    }
  }

  lemma ReleaseKeepsDrafts(s: Sys, stale: set<JobId>)
    requires DraftsOk(s.jobs, s.recipes, s.nextJob, s.nextRecipe) && MayRelease(s, stale)
    ensures DraftsOk(ReleasedRows(s.jobs, stale), s.recipes, s.nextJob, s.nextRecipe)
  {
    var jobs := ReleasedRows(s.jobs, stale);
    forall j | j in jobs
      ensures ListingOk(j, jobs[j], s.recipes, s.nextRecipe)
    {
      assert ListingOk(j, s.jobs[j], s.recipes, s.nextRecipe);
    }
  }

  lemma ReleaseKeeps(s: Sys, stale: set<JobId>)
    requires Inv(s) && MayRelease(s, stale)
    ensures Inv(AfterRelease(s, stale))
  {
    ReleaseKeepsJobs(s, stale);
    ReleaseKeepsBackoffs(s, stale);
    ReleaseKeepsClaims(s, stale);
    ReleaseKeepsLedger(s, stale);
    ReleaseKeepsWorkers(s, stale);
    ReleaseKeepsDrafts(s, stale);
  }

  // ---------------------------------------------------------------------------
  // Users
  // ---------------------------------------------------------------------------

  lemma RetryKeeps(s: Sys, user: UserId, j: JobId)
    requires Inv(s) && MayRetry(s, user, j)
    ensures Inv(s.(jobs := s.jobs[j := Retried(s.jobs[j])], hist := s.hist[j := s.hist[j].(sinceReset := 0)]))
  {
    var job, h := Retried(s.jobs[j]), s.hist[j].(sinceReset := 0);
    assert JobOk(j, s.jobs[j], s.hist[j], s.claims, s.cap, s.maxCall) && BackoffOk(s.jobs[j], s.hist[j], s.now);
    RowKeepsJobs(s, j, job, h);
    RowKeepsBackoffs(s, j, job, h);
    IdleRowKeepsClaims(s, j, job, h);
    IdleRowKeepsWorkers(s, s.workers, j, job, h);
    RetryKeepsDrafts(s, j);
  }

  lemma RetryKeepsDrafts(s: Sys, j: JobId)
    requires DraftsOk(s.jobs, s.recipes, s.nextJob, s.nextRecipe) && j in s.jobs && Retryable(s.jobs[j])
    ensures DraftsOk(s.jobs[j := Retried(s.jobs[j])], s.recipes, s.nextJob, s.nextRecipe)
  {
    assert ListingOk(j, s.jobs[j], s.recipes, s.nextRecipe);
  }

  // ---------------------------------------------------------------------------
  // Reviewing
  // ---------------------------------------------------------------------------

  /** A review changes only a job's list of drafts and may finish it. */
  predicate ReviewsTo(before: Job, job: Job) {
    && (before.status == NeedsReview || before.status == Done)
    && (job.status == Done || job.status == before.status)
    && job == before.(status := job.status, produced := job.produced)
  }

  lemma ReviewKeepsQueue(s: Sys, jobs: map<JobId, Job>)
    requires QueueOk(s)
    requires jobs.Keys == s.jobs.Keys
    requires forall j :: j in jobs ==> jobs[j] == s.jobs[j] || ReviewsTo(s.jobs[j], jobs[j])
    ensures QueueOk(s.(jobs := jobs))
  {
    forall j | j in jobs
      ensures JobOk(j, jobs[j], s.hist[j], s.claims, s.cap, s.maxCall) && BackoffOk(jobs[j], s.hist[j], s.now)
    {
      assert JobOk(j, s.jobs[j], s.hist[j], s.claims, s.cap, s.maxCall) && BackoffOk(s.jobs[j], s.hist[j], s.now);
    }
    forall e: nat | e < |s.claims|
      ensures ClaimOk(e, jobs, s.hist, s.claims, s.closed)
    {
      assert ClaimOk(e, s.jobs, s.hist, s.claims, s.closed);
    }
    ReviewKeepsWorkers(s, jobs);
  }

  lemma ReviewKeepsWorkers(s: Sys, jobs: map<JobId, Job>)
    requires WorkersOk(s.workers, s.jobs, s.hist, s.claims, s.cap, s.maxCall)
    requires jobs.Keys == s.jobs.Keys
    requires forall j :: j in jobs ==> jobs[j] == s.jobs[j] || ReviewsTo(s.jobs[j], jobs[j])
    ensures WorkersOk(s.workers, jobs, s.hist, s.claims, s.cap, s.maxCall)
  {
    forall w | w in s.workers && Busy(s.workers[w])
      ensures var p := s.workers[w];
              p.job in jobs && p.job in s.hist
                && AttemptOk(w, p, jobs[p.job], s.hist[p.job], s.claims, s.cap, s.maxCall)
    {
      var p := s.workers[w];
      assert AttemptOk(w, p, s.jobs[p.job], s.hist[p.job], s.claims, s.cap, s.maxCall);
    }
  }

  /** A recipe may be edited and may become verified; nothing else of it changes. */
  predicate Matured(before: Recipe, after: Recipe) {
    && after == before.(verified := after.verified, content := after.content)
    && (before.verified ==> after.verified)
  }

  /** `rows` after a review: nothing new, no owner, fingerprint or origin changed,
      nothing unverified. */
  predicate RecipesReviewed(before: map<RecipeId, Recipe>, after: map<RecipeId, Recipe>) {
    && after.Keys <= before.Keys
    && forall r :: r in after ==> Matured(before[r], after[r])
  }

  /** A review of one job keeps its existing drafts listed, and finishes it only when
      they are verified. */
  predicate JobReviewed(before: Job, after: Job, recipes: map<RecipeId, Recipe>) {
    && (after == before || ReviewsTo(before, after))
    && (forall r :: r in after.produced ==> r in before.produced)
    && (forall r :: r in before.produced && r in recipes ==> r in after.produced)
    && (before.status != Done && after.status == Done ==>
          forall r :: r in after.produced && r in recipes ==> recipes[r].verified)
  }

  lemma ReviewKeepsListing(j: JobId, before: Job, after: Job, recipes: map<RecipeId, Recipe>,
                           reviewed: map<RecipeId, Recipe>, next: RecipeId)
    requires ListingOk(j, before, recipes, next) && JobReviewed(before, after, reviewed)
    requires RecipesReviewed(recipes, reviewed)
    ensures ListingOk(j, after, reviewed, next)
  {
  }

  lemma ReviewKeepsDrafts(s: Sys, jobs: map<JobId, Job>, recipes: map<RecipeId, Recipe>)
    requires DraftsOk(s.jobs, s.recipes, s.nextJob, s.nextRecipe)
    requires jobs.Keys == s.jobs.Keys && RecipesReviewed(s.recipes, recipes)
    requires forall j :: j in jobs ==> JobReviewed(s.jobs[j], jobs[j], recipes)
    ensures DraftsOk(jobs, recipes, s.nextJob, s.nextRecipe)
  {
    forall j | j in jobs
      ensures ListingOk(j, jobs[j], recipes, s.nextRecipe)
    {
      ReviewKeepsListing(j, s.jobs[j], jobs[j], s.recipes, recipes, s.nextRecipe);
    }
    forall r | r in recipes
      ensures RecipeOk(r, recipes[r], jobs)
    {
      assert RecipeOk(r, s.recipes[r], s.jobs);
    }
  }

  /** A review of one job. */
  lemma OneReviewKeeps(s: Sys, j: JobId, job: Job, recipes: map<RecipeId, Recipe>)
    requires Inv(s) && j in s.jobs && RecipesReviewed(s.recipes, recipes) && JobReviewed(s.jobs[j], job, recipes)
    ensures Inv(s.(jobs := s.jobs[j := job], recipes := recipes))
  {
    ReviewKeepsQueue(s, s.jobs[j := job]);
    ReviewKeepsDrafts(s, s.jobs[j := job], recipes);
  }

  /** The owner's drafts of a job are all it lists, so a settled job is verified. */
  lemma SettledIsVerified(s: Sys, j: JobId, job: Job, recipes: map<RecipeId, Recipe>)
    requires DraftsOk(s.jobs, s.recipes, s.nextJob, s.nextRecipe)
    requires j in s.jobs && job.user == s.jobs[j].user && Settled(job, recipes)
    requires forall r :: r in job.produced ==> r in s.jobs[j].produced
    requires RecipesReviewed(s.recipes, recipes)
    ensures forall r :: r in job.produced && r in recipes ==> recipes[r].verified
  {
    assert ListingOk(j, s.jobs[j], s.recipes, s.nextRecipe);
    forall r | r in job.produced && r in recipes
      ensures recipes[r].verified
    {
      assert RecipeOk(r, s.recipes[r], s.jobs);
    }
  }

  lemma AcceptKeeps(s: Sys, user: UserId, j: JobId, r: RecipeId)
    requires Inv(s) && MayReview(s.jobs, s.recipes, user, j, r)
    ensures var recipes := Verified(s.recipes, r);
            Inv(s.(jobs := s.jobs[j := MaybeCompleted(s.jobs[j], recipes)], recipes := recipes))
  {
    var recipes := Verified(s.recipes, r);
    assert ListingOk(j, s.jobs[j], s.recipes, s.nextRecipe);
    if Settled(s.jobs[j], recipes) {
      SettledIsVerified(s, j, s.jobs[j], recipes);
    }
    OneReviewKeeps(s, j, MaybeCompleted(s.jobs[j], recipes), recipes);
  }

  lemma RejectKeeps(s: Sys, user: UserId, j: JobId, r: RecipeId)
    requires Inv(s) && MayReview(s.jobs, s.recipes, user, j, r)
    ensures var recipes := s.recipes - {r};
            var job := s.jobs[j].(produced := Without(s.jobs[j].produced, r));
            Inv(s.(jobs := s.jobs[j := MaybeCompleted(job, recipes)], recipes := recipes))
  {
    var recipes := s.recipes - {r};
    var left := s.jobs[j].(produced := Without(s.jobs[j].produced, r));
    assert ListingOk(j, s.jobs[j], s.recipes, s.nextRecipe);
    if Settled(left, recipes) {
      SettledIsVerified(s, j, left, recipes);
    }
    OneReviewKeeps(s, j, MaybeCompleted(left, recipes), recipes);
  }

  lemma BulkReviews(s: Sys, user: UserId, threshold: real, j: JobId)
    requires Inv(s) && j in s.jobs
    ensures var closing := BulkSet(s.jobs, user, threshold);
            JobReviewed(s.jobs[j], BulkJobs(s.jobs, closing)[j], BulkRecipes(s.recipes, s.jobs, user, closing))
  {
    var closing := BulkSet(s.jobs, user, threshold);
    var recipes := BulkRecipes(s.recipes, s.jobs, user, closing);
    if j in closing {
      assert ListingOk(j, s.jobs[j], s.recipes, s.nextRecipe);
      forall r | r in s.jobs[j].produced && r in recipes
        ensures recipes[r].verified
      {
        assert RecipeOk(r, s.recipes[r], s.jobs);
      }
    }
  }

  lemma AcceptAllKeeps(s: Sys, user: UserId, threshold: real)
    requires Inv(s)
    ensures var closing := BulkSet(s.jobs, user, threshold);
            Inv(s.(jobs := BulkJobs(s.jobs, closing), recipes := BulkRecipes(s.recipes, s.jobs, user, closing)))
  {
    var closing := BulkSet(s.jobs, user, threshold);
    var jobs, recipes := BulkJobs(s.jobs, closing), BulkRecipes(s.recipes, s.jobs, user, closing);
    forall j | j in jobs
      ensures JobReviewed(s.jobs[j], jobs[j], recipes)
    {
      BulkReviews(s, user, threshold, j);
    }
    ReviewKeepsQueue(s, jobs);
    ReviewKeepsDrafts(s, jobs, recipes);
  }

  /** Recipes verified, edited or deleted outside the review gate. */
  lemma RecipesKeep(s: Sys, recipes: map<RecipeId, Recipe>)
    requires Inv(s) && RecipesReviewed(s.recipes, recipes)
    ensures Inv(s.(recipes := recipes))
  {
    ReviewKeepsDrafts(s, s.jobs, recipes);
  }

  lemma AddRecipeKeeps(s: Sys, user: UserId, source: Option<string>, content: RecipeIn)
    requires Inv(s) && !Taken(s.recipes, user, source)
    ensures Inv(s.(recipes := s.recipes[s.nextRecipe := Recipe(user, source, false, content, Manual)],
                   nextRecipe := s.nextRecipe + 1))
  {
    var recipes := s.recipes[s.nextRecipe := Recipe(user, source, false, content, Manual)];
    forall j | j in s.jobs
      ensures ListingOk(j, s.jobs[j], recipes, s.nextRecipe + 1)
    {
      assert ListingOk(j, s.jobs[j], s.recipes, s.nextRecipe);
    }
    assert FingerprintsOk(recipes);
  }

  // ---------------------------------------------------------------------------
  // All steps
  // ---------------------------------------------------------------------------

  lemma ReviewStepKeeps(s: Sys, step: Step)
    requires Inv(s) && ReviewStep(step) && ReviewEnabled(s, step)
    ensures Inv(AfterReview(s, step))
  {
    match step
    case Accept(user, j, r) => AcceptKeeps(s, user, j, r);
    case Reject(user, j, r) => RejectKeeps(s, user, j, r);
    case AcceptAll(user, threshold) => AcceptAllKeeps(s, user, threshold);
    case VerifyRecipe(_, r) => RecipesKeep(s, Verified(s.recipes, r));
    case DeleteRecipe(_, r) => RecipesKeep(s, s.recipes - {r});
    case EditRecipe(_, r, content) => RecipesKeep(s, Edited(s.recipes, r, content));
  }

  lemma SourceStepKeeps(s: Sys, step: Step)
    requires Inv(s) && SourceStep(step) && SourceEnabled(s, step)
    ensures Inv(AfterSource(s, step))
  {
    match step
    case SubmitJob(user, fingerprint) => SubmitKeeps(s, user, fingerprint);
    case TransformJob(user, drafts, confidence, cost) => TransformKeeps(s, user, drafts, confidence, cost);
    case Retry(user, j) => RetryKeeps(s, user, j);
    case AddRecipe(user, source, content) => AddRecipeKeeps(s, user, source, content);
  }

  lemma WorkerStepKeeps(s: Sys, step: Step)
    requires Inv(s) && !UserStep(step) && WorkerEnabled(s, step)
    ensures Inv(AfterWorker(s, step))
  {
    match step
    case Tick(seconds) => TickKeeps(s, seconds);
    case Spawn(w) => PhaseKeeps(s, w, Idle);
    case Die(w) => PhaseKeeps(s, w, Dead);
    case ClaimJob(w, j) => ClaimKeeps(s, w, j);
    case Begin(w) => BeginKeeps(s, w);
    case Call(w, cost) => CallKeeps(s, w, cost);
    case Finish(w, outcome) => FinishKeeps(s, w, outcome);
    case Crash(w, where, error) => CrashKeeps(s, w, where, error);
    case RecordCrash(w) => RecordCrashKeeps(s, w);
    case Abandon(w) => PhaseKeeps(s, w, Idle);
    case ReleaseStaleJobs(stale) => ReleaseKeeps(s, stale);
  }

  /** Every step keeps the invariant. */
  lemma StepKeeps(s: Sys, step: Step)
    requires Inv(s) && Enabled(s, step)
    ensures Inv(After(s, step))
  {
    if ReviewStep(step) {
      ReviewStepKeeps(s, step);
    } else if SourceStep(step) {
      SourceStepKeeps(s, step);
    } else {
      WorkerStepKeeps(s, step);
    }
  }
}
