/** What every reachable state of the extraction protocol satisfies, and that each
    step keeps it. */
module JobInvariants {
  import opened Options
  import opened JobQueue
  import opened Drafts
  import opened IngestionService
  import opened JobProtocol

  /** Claim `e` is the one its job is running under. */
  predicate Open(jobs: map<JobId, Job>, hist: map<JobId, Hist>, claims: seq<Claim>, e: nat) {
    && e < |claims|
    && var j := claims[e].job;
       && j in jobs && j in hist
       && jobs[j].status == Running
       && hist[j].current == Some(e)
  }

  function BilledSum(bills: seq<Bill>): real {
    if bills == [] then 0.0
    else
      var last := bills[|bills| - 1];
      BilledSum(bills[..|bills| - 1]) + if last.billed then Sum(last.calls) else 0.0
  }

  /** Locks: a job is locked exactly while it runs, and by the worker of its current claim. */
  predicate LockOk(j: JobId, job: Job, h: Hist, claims: seq<Claim>) {
    && (job.status == Running <==> job.lockedBy.Some?)
    && (job.lockedAt.Some? <==> job.lockedBy.Some?)
    && (h.current.Some? ==> h.current.value < |claims| && claims[h.current.value].job == j)
    && (job.status == Running ==> h.current.Some? && claims[h.current.value].token == job.lockedBy.value)
  }

  predicate Counted(status: JobStatus) {
    status == Running || status == NeedsReview || status == Done || status == NotARecipe
  }

  /** Attempts: claims since the last reset are the counted attempts, plus the one
      that is running or ended without failing. */
  predicate AttemptsOk(job: Job, h: Hist) {
    && (job.transform ==> (job.status == NeedsReview || job.status == Done) && h.sinceReset == 0)
    && (!job.transform ==> h.sinceReset == job.attempts + if Counted(job.status) then 1 else 0)
    && (job.status != Failed ==> job.attempts < MAX_ATTEMPTS)
    && job.attempts <= MAX_ATTEMPTS
    && (job.status == Failed ==> job.error.Some? && !Blank(job.reason))
  }

  /** Backoff: a queued job either still waits for its last backoff or has served it. */
  predicate BackoffOk(job: Job, h: Hist, now: Time) {
    h.notBefore <= now || (job.status == Queued && job.nextAttemptAt == Some(h.notBefore))
  }

  /** Cost: the job's cost is what its applied attempts were billed, and stays under
      the cap plus one call. */
  predicate CostOk(job: Job, h: Hist, cap: real, maxCall: real) {
    && job.cost == h.opening + BilledSum(h.bills)
    && (!job.transform ==> h.opening == 0.0 && job.cost < cap + maxCall)
  }

  /** Bills: at most one per claim, each for an applied claim of this job. */
  predicate BillsOk(j: JobId, bills: seq<Bill>, claims: seq<Claim>, closed: map<nat, Closing>) {
    && (forall a :: 0 <= a < |bills| ==>
          && bills[a].epoch < |claims|
          && claims[bills[a].epoch].job == j
          && bills[a].epoch in closed
          && closed[bills[a].epoch] == Applied)
    && (forall a, b :: 0 <= a < b < |bills| ==> bills[a].epoch != bills[b].epoch)
  }

  predicate Paid(bills: seq<Bill>, e: nat) {
    exists a :: 0 <= a < |bills| && bills[a].epoch == e
  }

  /** One claim: open or closed, never both, and with its bill when applied. */
  predicate ClaimOk(e: nat, jobs: map<JobId, Job>, hist: map<JobId, Hist>, claims: seq<Claim>,
                    closed: map<nat, Closing>)
    requires e < |claims|
  {
    && claims[e].job in hist
    && (e in closed <==> !Open(jobs, hist, claims, e))
    && (e in closed && closed[e] == Applied ==> Paid(hist[claims[e].job].bills, e))
  }

  predicate ClaimsOk(jobs: map<JobId, Job>, hist: map<JobId, Hist>, claims: seq<Claim>, closed: map<nat, Closing>) {
    && (forall e :: e in closed ==> e < |claims|)
    && (forall e: nat {:trigger ClaimOk(e, jobs, hist, claims, closed)} :: e < |claims| ==>
          ClaimOk(e, jobs, hist, claims, closed))
  }

  predicate Busy(p: Phase) {
    p.Holding? || p.Attempting? || p.Crashed?
  }

  /** Workers: an attempt belongs to a claim of its own worker; while that worker
      holds the job, the claim is the current one and the spend it read is current. */
  predicate AttemptOk(w: Token, p: Phase, job: Job, h: Hist, claims: seq<Claim>, cap: real, maxCall: real)
    requires Busy(p)
  {
    && p.epoch < |claims|
    && claims[p.epoch] == Claim(p.job, w)
    && !job.transform
    && (Guard(job, Some(w)) ==> h.current == Some(p.epoch))
    && (p.Attempting? ==>
          && Sum(p.calls) >= 0.0
          && (p.calls == [] || Spent(p.prior, p.calls) < cap + maxCall)
          && (Guard(job, Some(w)) ==> job.cost == p.prior))
    && (p.Crashed? ==>
          && Sum(p.calls) >= 0.0
          && (Guard(job, Some(w)) ==> p.calls == [] || job.cost + Sum(p.calls) < cap + maxCall))
  }

  predicate WorkersOk(workers: map<Token, Phase>, jobs: map<JobId, Job>, hist: map<JobId, Hist>, claims: seq<Claim>,
                      cap: real, maxCall: real)
  {
    forall w :: w in workers && Busy(workers[w]) ==>
      && workers[w].job in jobs
      && workers[w].job in hist
      && AttemptOk(w, workers[w], jobs[workers[w].job], hist[workers[w].job], claims, cap, maxCall)
  }

  /** Drafts listed by a job exist, if they still do, as that job's own drafts; a
      finished job's are verified. */
  predicate ListingOk(j: JobId, job: Job, recipes: map<RecipeId, Recipe>, nextRecipe: nat) {
    && (job.produced != [] ==> job.status == NeedsReview || job.status == Done)
    && (forall r :: r in job.produced ==> r < nextRecipe)
    && (forall r :: r in job.produced && r in recipes ==>
          recipes[r].origin.Draft? && recipes[r].origin.job == j)
    && (job.status == Done ==> forall r :: r in job.produced && r in recipes ==> recipes[r].verified)
  }

  /** A draft is listed by its job, which has the same owner; only the first draft
      of a result carries the job's fingerprint. */
  predicate RecipeOk(r: RecipeId, recipe: Recipe, jobs: map<JobId, Job>) {
    recipe.origin.Draft? ==>
      && recipe.origin.job in jobs
      && var job := jobs[recipe.origin.job];
         && r in job.produced
         && job.user == recipe.owner
         && recipe.fingerprint == (if recipe.origin.index == 0 then job.fingerprint else None)
  }

  /** At most one recipe of a user carries a fingerprint. */
  predicate FingerprintsOk(recipes: map<RecipeId, Recipe>) {
    forall q, r :: q in recipes && r in recipes && q != r && recipes[q].fingerprint.Some? ==>
      recipes[q].owner != recipes[r].owner || recipes[q].fingerprint != recipes[r].fingerprint
  }

  predicate JobOk(j: JobId, job: Job, h: Hist, claims: seq<Claim>, cap: real, maxCall: real) {
    LockOk(j, job, h, claims) && AttemptsOk(job, h) && CostOk(job, h, cap, maxCall)
  }

  predicate JobsOk(jobs: map<JobId, Job>, hist: map<JobId, Hist>, claims: seq<Claim>, cap: real, maxCall: real) {
    && hist.Keys == jobs.Keys
    && (forall j {:trigger JobOk(j, jobs[j], hist[j], claims, cap, maxCall)} :: j in jobs ==>
          JobOk(j, jobs[j], hist[j], claims, cap, maxCall))
  }

  predicate BackoffsOk(jobs: map<JobId, Job>, hist: map<JobId, Hist>, now: Time) {
    && hist.Keys == jobs.Keys
    && (forall j :: j in jobs ==> BackoffOk(jobs[j], hist[j], now))
  }

  predicate LedgerOk(hist: map<JobId, Hist>, claims: seq<Claim>, closed: map<nat, Closing>) {
    forall j {:trigger BillsOk(j, hist[j].bills, claims, closed)} :: j in hist ==>
      BillsOk(j, hist[j].bills, claims, closed)
  }

  predicate ListingsOk(jobs: map<JobId, Job>, recipes: map<RecipeId, Recipe>, nextRecipe: nat) {
    forall j {:trigger ListingOk(j, jobs[j], recipes, nextRecipe)} :: j in jobs ==>
      ListingOk(j, jobs[j], recipes, nextRecipe)
  }

  predicate DraftsOk(jobs: map<JobId, Job>, recipes: map<RecipeId, Recipe>, nextJob: nat, nextRecipe: nat) {
    && (forall j :: j in jobs ==> j < nextJob)
    && (forall r :: r in recipes ==> r < nextRecipe)
    && ListingsOk(jobs, recipes, nextRecipe)
    && (forall r :: r in recipes ==> RecipeOk(r, recipes[r], jobs))
    && FingerprintsOk(recipes)
  }

  /** The part of the invariant about jobs, claims and workers. */
  predicate QueueOk(s: Sys) {
    && s.cap > 0.0 && s.maxCall >= 0.0
    && JobsOk(s.jobs, s.hist, s.claims, s.cap, s.maxCall)
    && BackoffsOk(s.jobs, s.hist, s.now)
    && LedgerOk(s.hist, s.claims, s.closed)
    && ClaimsOk(s.jobs, s.hist, s.claims, s.closed)
    && WorkersOk(s.workers, s.jobs, s.hist, s.claims, s.cap, s.maxCall)
  }

  predicate Inv(s: Sys) {
    && QueueOk(s)
    && DraftsOk(s.jobs, s.recipes, s.nextJob, s.nextRecipe)
  }

  lemma InitInv(cap: real, maxCall: real)
    requires cap > 0.0 && maxCall >= 0.0
    ensures Inv(Init(cap, maxCall))
  {
  }
}
