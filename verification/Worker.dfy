/** The worker process on the tables themselves: claiming, processing one job
    behind a savepoint and the guard, recording a crash, and the polling loop.
    Each method is proved to take exactly a step of the protocol. */
module Worker {
  import opened Options
  import opened JobQueue
  import opened Drafts
  import opened IngestionService
  import opened JobProtocol
  import opened JobInvariants
  import opened JobOutcomes
  import opened LlmClient

  const MAX_CONSECUTIVE_FAILURES := 10
  const DUPLICATE_ERROR := "duplicate of existing recipe"

  /** What acquiring and normalizing came to. `tripAt` is the draft at which
      catalog matching hit the cost cap, if it did. */
  datatype Work =
    | Unsupported(error: string)
    | Unreadable(error: string)
    | OverCap(error: string)
    | NoRecipe(reason: string)
    | Normalized(result: seq<NormalizedRecipe>, confidence: real, tripAt: Option<nat>, capError: string)

  /** Persisting the drafts trips the cap. */
  predicate Trips(work: Work, recipes: map<RecipeId, Recipe>, job: Job) {
    && work.Normalized?
    && work.tripAt.Some?
    && work.tripAt.value < |Plan(work.result, 0, {})|
    && !Taken(recipes, job.user, job.fingerprint)
  }

  function OutcomeOf(work: Work, recipes: map<RecipeId, Recipe>, job: Job): JobProtocol.Outcome {
    match work
    case Unsupported(error) => NoExtractor(error)
    case Unreadable(error) => TierFailed(error)
    case OverCap(error) => CapReached(error)
    case NoRecipe(reason) => NotRecipe(reason)
    case Normalized(result, confidence, _, capError) =>
      if Trips(work, recipes, job) then CapReached(capError) else Extracted(result, confidence)
  }

  /** What each kind of work makes of the row: an unreadable source is tried again, up
      to three times; an unsupported one, a cap stop and a duplicate fail at once. */
  predicate WorkEndsAs(recipes: map<RecipeId, Recipe>, next: RecipeId, now: Time, before: Job, after: Job, work: Work,
                       spent: real)
  {
    match work
    case Unsupported(error) => FailsForGood(before, after, error, 0.0)
    case Unreadable(error) => TriesAgain(before, after, error, spent, now)
    case OverCap(error) => FailsForGood(before, after, error, spent)
    case NoRecipe(reason) => IsNoRecipe(before, after, reason, spent)
    case Normalized(result, confidence, tripAt, capError) =>
      var drafts := |Plan(result, 0, {})|;
      if drafts > 0 && HasItAlready(recipes, before) then
        FailsForGood(before, after, "duplicate of existing recipe", spent)
      else if tripAt.Some? && tripAt.value < drafts then FailsForGood(before, after, capError, spent)
      else IsReviewed(before, after, confidence, next, drafts, spent)
  }

  lemma WorkSettles(recipes: map<RecipeId, Recipe>, next: RecipeId, now: Time, job: Job, work: Work, spent: real)
    ensures WorkEndsAs(recipes, next, now, job,
                       Settlement(job, recipes, next, OutcomeOf(work, recipes, job), spent, now).0, work, spent)
  {
    SettlesAs(recipes, next, now, job, OutcomeOf(work, recipes, job), spent);
  }

  /** The rows of the tables are those of the state. */
  ghost predicate Shows(s: Sys, jobs: JobTable, recipes: RecipeTable)
    reads jobs, recipes
  {
    && s.jobs == jobs.rows && s.nextJob == jobs.next
    && s.recipes == recipes.rows && s.nextRecipe == recipes.next
  }

  /** The attempt's own spend: the client's total less what the job had spent before. */
  method AttemptDelta(client: Client, prior: real, ghost calls: seq<real>) returns (cost: real)
    requires client.spent == Spent(prior, calls)
    ensures cost == AttemptCost(prior, calls)
  {
    cost := client.spent - prior;
    if cost < 0.0 {
      cost := 0.0;
    }
  }

  /** Saves the drafts of a result, all of them or none, and completes the job. */
  method PersistAndComplete(jobs: JobTable, recipes: RecipeTable, j: JobId, w: Token, cost: real, work: Work, now: Time)
    returns (applied: bool)
    requires j in jobs.rows && recipes.Valid() && work.Normalized?
    modifies jobs`rows, recipes
    ensures applied == Guard(old(jobs.rows)[j], Some(w))
    ensures !applied ==> jobs.rows == old(jobs.rows)
    ensures applied ==>
              var outcome := OutcomeOf(work, old(recipes.rows), old(jobs.rows)[j]);
              var (job, drafts) := Settlement(old(jobs.rows)[j], old(recipes.rows), old(recipes.next), outcome, cost,
                now);
              && jobs.rows == old(jobs.rows)[j := job]
              && recipes.rows == WithDrafts(old(recipes.rows), old(recipes.next), job.user, job.fingerprint, drafts, j)
              && recipes.next == old(recipes.next) + |drafts|
  {
    var user, fingerprint := jobs.rows[j].user, jobs.rows[j].fingerprint;
    var savedRows, savedNext := recipes.rows, recipes.next;
    var persisted := recipes.PersistDrafts(user, j, fingerprint, work.result, work.tripAt);
    match persisted
    case Created(ids) =>
      applied := jobs.CompleteNeedsReview(j, Some(work.confidence), ids, cost, Some(w));
    case AlreadyImported =>
      recipes.rows, recipes.next := savedRows, savedNext;
      applied := jobs.Fail(j, DUPLICATE_ERROR, Some(cost), false, Some(w), now);
    case CapTripped =>
      recipes.rows, recipes.next := savedRows, savedNext;
      applied := jobs.Fail(j, work.capError, Some(cost), false, Some(w), now);
  }

  /** Ends an attempt on job `j`, staging its drafts and its transition. */
  method ProcessJob(jobs: JobTable, recipes: RecipeTable, client: Client, j: JobId, w: Token, prior: real,
                    ghost calls: seq<real>, work: Work, now: Time)
    returns (applied: bool)
    requires j in jobs.rows && recipes.Valid()
    requires client.spent == Spent(prior, calls)
    modifies jobs`rows, recipes
    ensures applied == Guard(old(jobs.rows)[j], Some(w))
    ensures !applied ==> jobs.rows == old(jobs.rows)
    ensures applied ==>
              var outcome := OutcomeOf(work, old(recipes.rows), old(jobs.rows)[j]);
              var cost := AttemptCost(prior, calls);
              var (job, drafts) := Settlement(old(jobs.rows)[j], old(recipes.rows), old(recipes.next), outcome, cost,
                now);
              && jobs.rows == old(jobs.rows)[j := job]
              && recipes.rows == WithDrafts(old(recipes.rows), old(recipes.next), job.user, job.fingerprint, drafts, j)
              && recipes.next == old(recipes.next) + |drafts|
    ensures applied && Sum(calls) >= 0.0 ==>
              WorkEndsAs(old(recipes.rows), old(recipes.next), now, old(jobs.rows)[j], jobs.rows[j], work, Sum(calls))
  {
    WorkSettles(recipes.rows, recipes.next, now, jobs.rows[j], work, AttemptCost(prior, calls));
    if work.Unsupported? {
      applied := jobs.Fail(j, work.error, None, false, Some(w), now);
      return;
    }
    var cost := AttemptDelta(client, prior, calls);
    match work
    case Unreadable(error) =>
      applied := jobs.Fail(j, error, Some(cost), true, Some(w), now);
    case OverCap(error) =>
      applied := jobs.Fail(j, error, Some(cost), false, Some(w), now);
    case NoRecipe(reason) =>
      applied := jobs.CompleteNotARecipe(j, reason, cost, Some(w));
    case Normalized(_, _, _, _) =>
      applied := PersistAndComplete(jobs, recipes, j, w, cost, work, now);
  }

  /** Ends an attempt and commits it, or rolls all of it back when the claim was
      lost: exactly the protocol's finishing step. */
  method ProcessOne(jobs: JobTable, recipes: RecipeTable, client: Client, j: JobId, w: Token, prior: real, work: Work,
                    now: Time, ghost s: Sys)
    requires Shows(s, jobs, recipes) && recipes.Valid() && now == s.now
    requires WorkerIn(s, w) && s.workers[w].Attempting? && s.workers[w].job == j && s.workers[w].prior == prior
    requires client.spent == Spent(prior, s.workers[w].calls)
    modifies jobs`rows, recipes
    ensures Shows(AfterFinish(s, w, OutcomeOf(work, s.recipes, s.jobs[j])), jobs, recipes)
  {
    var savedRows, savedNext := recipes.rows, recipes.next;
    var applied := ProcessJob(jobs, recipes, client, j, w, prior, s.workers[w].calls, work, now);
    if !applied {
      recipes.rows, recipes.next := savedRows, savedNext;
    }
  }

  /** The cost a crash is recorded with: the attempt's own for a failure in the work,
      none for one that a handler or the commit raised. */
  method CrashCost(client: Client, w: Token, prior: real, where: Where, error: string, ghost s: Sys)
    returns (cost: Option<real>)
    requires Inv(s) && MayCrash(s, w, where) && s.workers[w].Attempting? && s.workers[w].prior == prior
    requires client.spent == Spent(prior, s.workers[w].calls)
    ensures var crashed := CrashedPhase(s.workers[w], where, error);
            cost == if crashed.billed then Some(Sum(crashed.calls)) else None
  {
    ghost var p := s.workers[w];
    assert AttemptOk(w, p, s.jobs[p.job], s.hist[p.job], s.claims, s.cap, s.maxCall);
    if !where.InWork? {
      return None;
    }
    var delta := AttemptDelta(client, prior, p.calls);
    return Some(delta);
  }

  /** Records a crash on a fresh session, unless the claim was lost: exactly the
      protocol's recording step. */
  method FailInFreshSession(jobs: JobTable, recipes: RecipeTable, j: JobId, w: Token, error: string, cost: Option<real>,
                            now: Time, ghost s: Sys)
    requires Shows(s, jobs, recipes) && now == s.now
    requires WorkerIn(s, w) && s.workers[w].Crashed? && s.workers[w].job == j && s.workers[w].error == error
    requires cost == if s.workers[w].billed then Some(Sum(s.workers[w].calls)) else None
    modifies jobs`rows
    ensures Shows(AfterRecordCrash(s, w), jobs, recipes)
  {
    var _ := jobs.Fail(j, error, cost, true, Some(w), now);
  }

  /** The jobs a release may touch: the stale ones. */
  function StaleJobs(s: Sys): set<JobId> {
    set j | j in s.jobs && Stale(s.jobs[j], s.now)
  }

  /** Releases every stale job and claims the oldest due one: a releasing step, and
      then a claiming step unless nothing is due. */
  method ClaimOne(jobs: JobTable, recipes: RecipeTable, w: Token, now: Time, ghost s: Sys)
    returns (claimed: Option<JobId>)
    requires Shows(s, jobs, recipes) && Inv(s) && now == s.now
    requires w in s.workers && s.workers[w] == Idle
    modifies jobs`rows
    ensures MayRelease(s, StaleJobs(s))
    ensures var t := AfterRelease(s, StaleJobs(s));
            && (claimed.None? ==> Shows(t, jobs, recipes) && forall j :: j in t.jobs ==> !Due(t.jobs[j], now))
            && (claimed.Some? ==>
                 MayClaim(t, w, claimed.value) && Shows(AfterClaim(t, w, claimed.value), jobs, recipes))
  {
    forall j | j in StaleJobs(s)
      ensures s.hist[j].current.Some?
    {
      assert JobOk(j, s.jobs[j], s.hist[j], s.claims, s.cap, s.maxCall);
    }
    var _ := jobs.ReleaseStale(now);
    assert jobs.rows == AfterRelease(s, StaleJobs(s)).jobs;
    claimed := jobs.ClaimNext(now, w);
  }

  // ---------------------------------------------------------------------------
  // The polling loop
  // ---------------------------------------------------------------------------

  datatype PollResult = Processed | NothingDue | Broke
  /** One poll; `stopped` when a stop signal came during it or the wait after it. */
  datatype Poll = Poll(result: PollResult, stopped: bool)

  /** The first `n` polls end in ten failures in a row. */
  predicate GivesUpAt(polls: seq<Poll>, n: nat) {
    10 <= n <= |polls| && forall i :: n - 10 <= i < n ==> polls[i].result == Broke
  }

  /** The polls among the first `n` that leave nothing to do but wait. */
  function Unproductive(polls: seq<Poll>, n: nat): nat
    requires n <= |polls|
  {
    if n == 0 then 0 else Unproductive(polls, n - 1) + if polls[n - 1].result == Processed then 0 else 1
  }

  /** They are the polls that found nothing due or broke. */
  lemma {:induction false} UnproductiveAre(polls: seq<Poll>, n: nat)
    requires n <= |polls|
    ensures Unproductive(polls, n) == |set i | 0 <= i < n && polls[i].result in {NothingDue, Broke}|
  {
    if n > 0 {
      UnproductiveAre(polls, n - 1);
      var fewer := set i | 0 <= i < n - 1 && polls[i].result in {NothingDue, Broke};
      var all := set i | 0 <= i < n && polls[i].result in {NothingDue, Broke};
      assert all == if polls[n - 1].result == Processed then fewer else fewer + {n - 1};
    }
  }

  /** Polls until a signal asks to stop, or until ten polls in a row have failed; the
      poll during which the signal comes is finished first. `polls` are what the polls
      would come to; it waits after each unproductive one that is not its last. */
  method RunWorker(polls: seq<Poll>, once: bool) returns (done: nat, waits: nat, gaveUp: bool)
    ensures done <= |polls|
    ensures forall i :: 0 <= i < done - 1 ==> !polls[i].stopped
    ensures forall n :: 0 <= n < done ==> !GivesUpAt(polls, n)
    ensures gaveUp <==> GivesUpAt(polls, done)
    ensures !gaveUp ==> (once && done == 1) || (done > 0 && polls[done - 1].stopped) || done == |polls|
    ensures once ==> done <= 1 && waits == 0
    ensures !once ==> waits == Unproductive(polls, if gaveUp then done - 1 else done)
  {
    var stop, inARow := false, 0;
    done, waits := 0, 0;
    while !stop && done < |polls|
      invariant done <= |polls|
      invariant forall i :: 0 <= i < done - 1 ==> !polls[i].stopped
      invariant stop <==> done > 0 && polls[done - 1].stopped
      invariant inARow <= done && inARow < MAX_CONSECUTIVE_FAILURES
      invariant forall i :: done - inARow <= i < done ==> polls[i].result == Broke
      invariant inARow < done ==> polls[done - inARow - 1].result != Broke
      invariant forall n :: 0 <= n <= done ==> !GivesUpAt(polls, n)
      invariant waits == Unproductive(polls, done)
      invariant once ==> done == 0
    {
      var poll := polls[done];
      done := done + 1;
      inARow := if poll.result == Broke then inARow + 1 else 0;
      if inARow >= MAX_CONSECUTIVE_FAILURES {
        return done, waits, true;
      }
      assert inARow < done ==> polls[done - inARow - 1].result != Broke;
      if once {
        return done, waits, false;
      }
      if poll.result != Processed {
        waits := waits + 1;
      }
      stop := poll.stopped;
    }
    return done, waits, false;
  }
}
