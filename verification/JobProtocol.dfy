/** The extraction protocol as a transition system.

    A state holds the committed tables, the clock, what each worker process is in
    the middle of, and a history that no step reads: every claim ever made, how
    each claim was closed, and the model calls each closed attempt paid for. Any
    number of workers interleave freely; a step is one committed transaction, one
    model call, or a process coming, going or giving up. */
module JobProtocol {
  import opened Options
  import opened JobQueue
  import opened Drafts
  import opened IngestionService

  /** What a worker process is in the middle of. Between claiming a job and opening
      the processing session it only holds the claim; the spend recorded on the
      job is read when that session opens. */
  datatype Phase =
    | Idle
    | Holding(job: JobId, epoch: nat)
    | Attempting(job: JobId, epoch: nat, prior: real, calls: seq<real>)
    | Crashed(job: JobId, epoch: nat, calls: seq<real>, billed: bool, error: string)
    | Dead

  /** How an attempt ends when it does not crash. */
  datatype Outcome =
    | NoExtractor(error: string)
    | Extracted(result: seq<NormalizedRecipe>, confidence: real)
    | NotRecipe(reason: string)
    | TierFailed(error: string)
    | CapReached(error: string)

  /** Where a failure arises: in the work, whose spend the failure then carries along;
      in a handler, while it records a known failure; or after that, in the commit. */
  datatype Where = InWork | InHandler(outcome: Outcome) | InCommit

  datatype Claim = Claim(job: JobId, token: Token)
  datatype Closing = Applied | StaleReleased
  /** The model calls of one applied attempt; not `billed` when their cost was lost. */
  datatype Bill = Bill(epoch: nat, calls: seq<real>, billed: bool)

  /** History of one job: its latest claim, claims since it was submitted or
      retried, the earliest time its last backoff allows, its cost at creation,
      and its applied attempts in order. */
  datatype Hist = Hist(current: Option<nat>, sinceReset: nat, notBefore: Time, opening: real, bills: seq<Bill>)

  datatype Sys = Sys(
    cap: real,
    maxCall: real,
    now: Time,
    jobs: map<JobId, Job>,
    recipes: map<RecipeId, Recipe>,
    nextJob: nat,
    nextRecipe: nat,
    workers: map<Token, Phase>,
    claims: seq<Claim>,
    closed: map<nat, Closing>,
    hist: map<JobId, Hist>)

  datatype Step =
    | Tick(seconds: nat)
    | Spawn(w: Token)
    | Die(w: Token)
    | SubmitJob(user: UserId, fingerprint: string)
    | TransformJob(user: UserId, drafts: seq<RecipeIn>, confidence: Option<real>, cost: real)
    | ClaimJob(w: Token, job: JobId)
    | Begin(w: Token)
    | Call(w: Token, cost: real)
    | Finish(w: Token, outcome: Outcome)
    | Crash(w: Token, where: Where, error: string)
    | RecordCrash(w: Token)
    | Abandon(w: Token)
    | ReleaseStaleJobs(stale: set<JobId>)
    | Retry(user: UserId, job: JobId)
    | Accept(user: UserId, job: JobId, recipe: RecipeId)
    | Reject(user: UserId, job: JobId, recipe: RecipeId)
    | AcceptAll(user: UserId, threshold: real)
    | VerifyRecipe(user: UserId, recipe: RecipeId)
    | DeleteRecipe(user: UserId, recipe: RecipeId)
    | AddRecipe(user: UserId, source: Option<string>, content: RecipeIn)
    | EditRecipe(user: UserId, recipe: RecipeId, content: RecipeIn)

  function Sum(costs: seq<real>): real {
    if costs == [] then 0.0 else Sum(costs[..|costs| - 1]) + costs[|costs| - 1]
  }

  /** The client's running total: it is seeded with the prior spend. */
  function Spent(prior: real, calls: seq<real>): real {
    prior + Sum(calls)
  }

  /** What an attempt adds to the job: only its own delta over the prior spend. */
  function AttemptCost(prior: real, calls: seq<real>): real {
    var delta := Spent(prior, calls) - prior;
    if delta < 0.0 then 0.0 else delta
  }

  function Init(cap: real, maxCall: real): Sys {
    Sys(cap, maxCall, 0, map[], map[], 0, 0, map[], [], map[], map[])
  }

  /** The row an attempt leaves when its guard passes, and the drafts it commits. */
  function Settlement(job: Job, recipes: map<RecipeId, Recipe>, next: nat, outcome: Outcome, cost: real, now: Time):
    (Job, seq<RecipeIn>)
  {
    match outcome
    case NoExtractor(error) => (FailedOnce(job, error, None, false, now), [])
    case NotRecipe(reason) => (Rejected(job, reason, cost), [])
    case TierFailed(error) => (FailedOnce(job, error, Some(cost), true, now), [])
    case CapReached(error) => (FailedOnce(job, error, Some(cost), false, now), [])
    case Extracted(result, confidence) =>
      var drafts := Plan(result, 0, {});
      if drafts != [] && Taken(recipes, job.user, job.fingerprint) then
        (FailedOnce(job, "duplicate of existing recipe", Some(cost), false, now), [])
      else
        (Reviewed(job, Some(confidence), DraftIds(next, |drafts|), cost), drafts)
  }

  predicate MayEnd(cap: real, prior: real, calls: seq<real>, outcome: Outcome) {
    && (outcome.NoExtractor? ==> calls == [])
    && (outcome.CapReached? ==> Spent(prior, calls) >= cap)
  }

  function NotBefore(h: Hist, job: Job): Time {
    if job.status == Queued && job.nextAttemptAt.Some? then job.nextAttemptAt.value else h.notBefore
  }

  /** Closes the attempt of `w` on job `j`: the row, its drafts and the history. */
  function Close(s: Sys, w: Token, j: JobId, e: nat, job: Job, drafts: seq<RecipeIn>, bill: Bill): Sys
    requires j in s.jobs && j in s.hist
  {
    var h := s.hist[j];
    s.(jobs := s.jobs[j := job],
       recipes := WithDrafts(s.recipes, s.nextRecipe, job.user, job.fingerprint, drafts, j),
       nextRecipe := s.nextRecipe + |drafts|,
       workers := s.workers[w := Idle],
       closed := s.closed[e := Applied],
       hist := s.hist[j := h.(notBefore := NotBefore(h, job), bills := h.bills + [bill])])
  }

  predicate WorkerIn(s: Sys, w: Token) {
    w in s.workers && (s.workers[w].Holding? || s.workers[w].Attempting? || s.workers[w].Crashed?)
      && s.workers[w].job in s.jobs && s.workers[w].job in s.hist
  }

  /** Any due job: a worker skips the rows that others have locked, so the order in
      which claims commit need not be that of the jobs' ages. */
  predicate MayClaim(s: Sys, w: Token, j: JobId) {
    w in s.workers && s.workers[w] == Idle && j in s.jobs && Due(s.jobs[j], s.now) && j in s.hist
  }

  predicate MayCall(s: Sys, w: Token, cost: real) {
    && WorkerIn(s, w) && s.workers[w].Attempting?
    && 0.0 <= cost <= s.maxCall
    && Spent(s.workers[w].prior, s.workers[w].calls) < s.cap
  }

  predicate MayFinish(s: Sys, w: Token, outcome: Outcome) {
    && WorkerIn(s, w) && s.workers[w].Attempting?
    && MayEnd(s.cap, s.workers[w].prior, s.workers[w].calls, outcome)
  }

  /** The outcome is one that the attempt may come to and that a handler records as a
      failure: an unreadable source, the cap, or a duplicate. */
  predicate Handled(s: Sys, w: Token, outcome: Outcome)
    requires WorkerIn(s, w) && s.workers[w].Attempting?
  {
    var job := s.jobs[s.workers[w].job];
    match outcome
    case TierFailed(_) => true
    case CapReached(_) => Spent(s.workers[w].prior, s.workers[w].calls) >= s.cap
    case Extracted(result, _) => Plan(result, 0, {}) != [] && Taken(s.recipes, job.user, job.fingerprint)
    case _ => false
  }

  predicate MayCrash(s: Sys, w: Token, where: Where) {
    && WorkerIn(s, w) && (s.workers[w].Holding? || s.workers[w].Attempting?)
    && (where.InHandler? ==> s.workers[w].Attempting? && Handled(s, w, where.outcome))
  }

  /** Only a failure in the work itself is recorded with the attempt's spend. */
  function CrashedPhase(p: Phase, where: Where, error: string): Phase
    requires p.Holding? || p.Attempting?
  {
    Crashed(p.job, p.epoch, if p.Attempting? then p.calls else [], p.Attempting? && where.InWork?, error)
  }

  predicate MayRelease(s: Sys, stale: set<JobId>) {
    forall j :: j in stale ==> j in s.jobs && j in s.hist && Stale(s.jobs[j], s.now) && s.hist[j].current.Some?
  }

  predicate MayRetry(s: Sys, user: UserId, j: JobId) {
    j in s.jobs && j in s.hist && s.jobs[j].user == user && Retryable(s.jobs[j])
  }

  /** The step reviews, edits or deletes recipes. */
  predicate ReviewStep(step: Step) {
    step.Accept? || step.Reject? || step.AcceptAll? || step.VerifyRecipe? || step.DeleteRecipe? || step.EditRecipe?
  }

  /** The step submits or retries a job, or saves a recipe. */
  predicate SourceStep(step: Step) {
    step.SubmitJob? || step.TransformJob? || step.Retry? || step.AddRecipe?
  }

  predicate UserStep(step: Step) {
    ReviewStep(step) || SourceStep(step)
  }

  predicate ReviewEnabled(s: Sys, step: Step)
    requires ReviewStep(step)
  {
    match step
    case Accept(user, j, r) => MayReview(s.jobs, s.recipes, user, j, r)
    case Reject(user, j, r) => MayReview(s.jobs, s.recipes, user, j, r)
    case AcceptAll(_, _) => true
    case VerifyRecipe(user, r) => MayVerify(s.recipes, user, r)
    case DeleteRecipe(user, r) => MayVerify(s.recipes, user, r)
    case EditRecipe(_, r, _) => r in s.recipes
  }

  predicate SourceEnabled(s: Sys, step: Step)
    requires SourceStep(step)
  {
    match step
    case SubmitJob(user, fingerprint) => MaySubmit(s.jobs, s.recipes, user, Some(fingerprint))
    case TransformJob(_, drafts, _, cost) => drafts != [] && cost >= 0.0
    case Retry(user, j) => MayRetry(s, user, j)
    case AddRecipe(user, source, _) => !Taken(s.recipes, user, source)
  }

  predicate WorkerEnabled(s: Sys, step: Step)
    requires !UserStep(step)
  {
    match step
    case Tick(_) => true
    case Spawn(w) => w !in s.workers
    case Die(w) => w in s.workers
    case ClaimJob(w, j) => MayClaim(s, w, j)
    case Begin(w) => WorkerIn(s, w) && s.workers[w].Holding?
    case Call(w, cost) => MayCall(s, w, cost)
    case Finish(w, outcome) => MayFinish(s, w, outcome)
    case Crash(w, where, _) => MayCrash(s, w, where)
    case RecordCrash(w) => WorkerIn(s, w) && s.workers[w].Crashed?
    case Abandon(w) => WorkerIn(s, w) && (s.workers[w].Holding? || s.workers[w].Crashed?)
    case ReleaseStaleJobs(stale) => MayRelease(s, stale)
  }

  predicate Enabled(s: Sys, step: Step) {
    if ReviewStep(step) then ReviewEnabled(s, step)
    else if SourceStep(step) then SourceEnabled(s, step)
    else WorkerEnabled(s, step)
  }

  function AfterFinish(s: Sys, w: Token, outcome: Outcome): Sys
    requires WorkerIn(s, w) && s.workers[w].Attempting?
  {
    var Attempting(j, e, prior, calls) := s.workers[w];
    if !Guard(s.jobs[j], Some(w)) then
      s.(workers := s.workers[w := Idle])
    else
      var (job, drafts) := Settlement(s.jobs[j], s.recipes, s.nextRecipe, outcome, AttemptCost(prior, calls), s.now);
      Close(s, w, j, e, job, drafts, Bill(e, calls, true))
  }

  function AfterRecordCrash(s: Sys, w: Token): Sys
    requires WorkerIn(s, w) && s.workers[w].Crashed?
  {
    var Crashed(j, e, calls, billed, error) := s.workers[w];
    if !Guard(s.jobs[j], Some(w)) then
      s.(workers := s.workers[w := Idle])
    else
      var cost := if billed then Some(Sum(calls)) else None;
      Close(s, w, j, e, FailedOnce(s.jobs[j], error, cost, true, s.now), [], Bill(e, calls, billed))
  }

  function AfterClaim(s: Sys, w: Token, j: JobId): Sys
    requires j in s.jobs && j in s.hist
  {
    var e := |s.claims|;
    var h := s.hist[j];
    s.(jobs := s.jobs[j := Claimed(s.jobs[j], s.now, w)],
       workers := s.workers[w := Holding(j, e)],
       claims := s.claims + [Claim(j, w)],
       hist := s.hist[j := h.(current := Some(e), sinceReset := h.sinceReset + 1)])
  }

  /** The claims that the release of `stale` closes. */
  function ReleasedEpochs(s: Sys, stale: set<JobId>): set<nat>
    requires forall j :: j in stale ==> j in s.hist && s.hist[j].current.Some?
  {
    set j | j in stale :: s.hist[j].current.value
  }

  function AfterRelease(s: Sys, stale: set<JobId>): Sys
    requires forall j :: j in stale ==> j in s.hist && s.hist[j].current.Some?
  {
    s.(jobs := ReleasedRows(s.jobs, stale),
       closed := s.closed + map e | e in ReleasedEpochs(s, stale) :: StaleReleased)
  }

  function AfterTransform(s: Sys, user: UserId, drafts: seq<RecipeIn>, confidence: Option<real>, cost: real): Sys {
    var j := s.nextJob;
    s.(jobs := s.jobs[j := Transformed(user, DraftIds(s.nextRecipe, |drafts|), confidence, cost, s.now)],
       recipes := WithDrafts(s.recipes, s.nextRecipe, user, None, drafts, j),
       nextJob := j + 1,
       nextRecipe := s.nextRecipe + |drafts|,
       hist := s.hist[j := Hist(None, 0, s.now, cost, [])])
  }

  function AfterReview(s: Sys, step: Step): Sys
    requires ReviewStep(step) && ReviewEnabled(s, step)
  {
    match step
    case Accept(_, j, r) =>
      var recipes := Verified(s.recipes, r);
      s.(jobs := s.jobs[j := MaybeCompleted(s.jobs[j], recipes)], recipes := recipes)
    case Reject(_, j, r) =>
      var recipes := s.recipes - {r};
      var job := s.jobs[j].(produced := Without(s.jobs[j].produced, r));
      s.(jobs := s.jobs[j := MaybeCompleted(job, recipes)], recipes := recipes)
    case AcceptAll(user, threshold) =>
      var closing := BulkSet(s.jobs, user, threshold);
      s.(jobs := BulkJobs(s.jobs, closing), recipes := BulkRecipes(s.recipes, s.jobs, user, closing))
    case VerifyRecipe(_, r) => s.(recipes := Verified(s.recipes, r))
    case DeleteRecipe(_, r) => s.(recipes := s.recipes - {r})
    case EditRecipe(_, r, content) => s.(recipes := Edited(s.recipes, r, content))
  }

  function AfterSource(s: Sys, step: Step): Sys
    requires SourceStep(step) && SourceEnabled(s, step)
  {
    match step
    case SubmitJob(user, fingerprint) =>
      s.(jobs := s.jobs[s.nextJob := Submitted(user, fingerprint, s.now)],
         nextJob := s.nextJob + 1,
         hist := s.hist[s.nextJob := Hist(None, 0, s.now, 0.0, [])])
    case TransformJob(user, drafts, confidence, cost) => AfterTransform(s, user, drafts, confidence, cost)
    case Retry(_, j) =>
      s.(jobs := s.jobs[j := Retried(s.jobs[j])],
         hist := s.hist[j := s.hist[j].(sinceReset := 0)])
    case AddRecipe(user, source, content) =>
      s.(recipes := s.recipes[s.nextRecipe := Recipe(user, source, false, content, Manual)],
         nextRecipe := s.nextRecipe + 1)
  }

  function AfterWorker(s: Sys, step: Step): Sys
    requires !UserStep(step) && WorkerEnabled(s, step)
  {
    match step
    case Tick(seconds) => s.(now := s.now + seconds)
    case Spawn(w) => s.(workers := s.workers[w := Idle])
    case Die(w) => s.(workers := s.workers[w := Dead])
    case ClaimJob(w, j) => AfterClaim(s, w, j)
    case Begin(w) =>
      var Holding(j, e) := s.workers[w];
      s.(workers := s.workers[w := Attempting(j, e, s.jobs[j].cost, [])])
    case Call(w, cost) =>
      var Attempting(j, e, prior, calls) := s.workers[w];
      s.(workers := s.workers[w := Attempting(j, e, prior, calls + [cost])])
    case Finish(w, outcome) => AfterFinish(s, w, outcome)
    case Crash(w, where, error) => s.(workers := s.workers[w := CrashedPhase(s.workers[w], where, error)])
    case RecordCrash(w) => AfterRecordCrash(s, w)
    case Abandon(w) => s.(workers := s.workers[w := Idle])
    case ReleaseStaleJobs(stale) => AfterRelease(s, stale)
  }

  function After(s: Sys, step: Step): Sys
    requires Enabled(s, step)
  {
    if ReviewStep(step) then AfterReview(s, step)
    else if SourceStep(step) then AfterSource(s, step)
    else AfterWorker(s, step)
  }

  /** A run from `s`, and the state it ends in. */
  predicate Runs(s: Sys, steps: seq<Step>)
    decreases |steps|
  {
    steps == [] || (Enabled(s, steps[0]) && Runs(After(s, steps[0]), steps[1..]))
  }

  function Final(s: Sys, steps: seq<Step>): Sys
    requires Runs(s, steps)
    decreases |steps|
  {
    if steps == [] then s else Final(After(s, steps[0]), steps[1..])
  }
}
