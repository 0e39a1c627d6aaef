/** Concrete runs that reach the protocol's weak spots. */
module JobWitnesses {
  import opened Options
  import opened JobQueue
  import opened Drafts
  import opened IngestionService
  import opened JobProtocol
  import opened JobInvariants
  import opened JobHistory
  import opened JobTheorems
  import opened JobReview
  import opened JobStuck

  lemma {:induction false} RunsSnoc(s: Sys, steps: seq<Step>, step: Step)
    requires Runs(s, steps) && Enabled(Final(s, steps), step)
    ensures Runs(s, steps + [step]) && Final(s, steps + [step]) == After(Final(s, steps), step)
    decreases |steps|
  {
    if steps == [] {
      assert [step][1..] == [];
    } else {
      RunsSnoc(After(s, steps[0]), steps[1..], step);
      assert (steps + [step])[1..] == steps[1..] + [step];
    }
  }

  lemma ReachesNext(s: Sys, step: Step)
    requires Reachable(s) && Enabled(s, step)
    ensures Reachable(After(s, step))
  {
    var cap, maxCall, steps :|
      && cap > 0.0 && maxCall >= 0.0
      && Runs(Init(cap, maxCall), steps)
      && Final(Init(cap, maxCall), steps) == s;
    RunsSnoc(Init(cap, maxCall), steps, step);
  }

  lemma InitIsReachable()
    ensures Reachable(Init(1.0, 1.0))
  {
    assert Runs(Init(1.0, 1.0), []);
  }

  /** Worker 0 is processing job 0, the only job, which user 0 submitted. */
  ghost predicate FirstAttempt(s: Sys) {
    && Reachable(s)
    && s.cap == 1.0 && s.maxCall == 1.0 && s.now == 0
    && s.recipes == map[]
    && s.jobs == map[0 := Claimed(Submitted(0, "source", 0), 0, 0)]
    && s.nextJob == 1
    && s.workers == map[0 := Attempting(0, 0, 0.0, [])]
    && s.hist == map[0 := Hist(Some(0), 1, 0, 0.0, [])]
  }

  /** Job 0 was just claimed by worker 0. */
  ghost predicate FirstClaim(s: Sys) {
    && Reachable(s)
    && s.cap == 1.0 && s.maxCall == 1.0 && s.now == 0
    && s.recipes == map[]
    && s.jobs == map[0 := Claimed(Submitted(0, "source", 0), 0, 0)]
    && s.nextJob == 1
    && s.workers == map[0 := Holding(0, 0)]
    && s.hist == map[0 := Hist(Some(0), 1, 0, 0.0, [])]
  }

  lemma ReachFirstJob() returns (s: Sys)
    ensures Reachable(s)
    ensures s == Init(1.0, 1.0).(jobs := map[0 := Submitted(0, "source", 0)], nextJob := 1,
                                 hist := map[0 := Hist(None, 0, 0, 0.0, [])])
  {
    InitIsReachable();
    s := After(Init(1.0, 1.0), SubmitJob(0, "source"));
    ReachesNext(Init(1.0, 1.0), SubmitJob(0, "source"));
  }

  /** Job 0 is queued and worker 0 idle. */
  function FirstWorker(): Sys {
    Init(1.0, 1.0).(jobs := map[0 := Submitted(0, "source", 0)], nextJob := 1,
                    hist := map[0 := Hist(None, 0, 0, 0.0, [])], workers := map[0 := Idle])
  }

  lemma FirstWorkerIsReachable()
    ensures Reachable(FirstWorker())
  {
    var s0 := ReachFirstJob();
    ReachesNext(s0, Spawn(0));
  }

  lemma FirstClaimFollows()
    ensures MayClaim(FirstWorker(), 0, 0)
    ensures var s := AfterClaim(FirstWorker(), 0, 0);
            && s.jobs == map[0 := Claimed(Submitted(0, "source", 0), 0, 0)]
            && s.workers == map[0 := Holding(0, 0)]
            && s.hist == map[0 := Hist(Some(0), 1, 0, 0.0, [])]
  {
  }

  lemma ReachFirstClaim() returns (s: Sys)
    ensures FirstClaim(s)
  {
    FirstWorkerIsReachable();
    FirstClaimFollows();
    s := AfterClaim(FirstWorker(), 0, 0);
    ReachesNext(FirstWorker(), ClaimJob(0, 0));
  }

  lemma ReachFirstAttempt() returns (s: Sys)
    ensures FirstAttempt(s)
  {
    var s0 := ReachFirstClaim();
    s := After(s0, Begin(0));
    ReachesNext(s0, Begin(0));
  }

  /** Job 0 was processed and found not to be a recipe. */
  lemma ReachNotARecipe() returns (s: Sys)
    ensures Reachable(s) && s.recipes == map[] && s.nextJob == 1
    ensures s.jobs.Keys == {0} && s.hist.Keys == {0}
    ensures var job := s.jobs[0]; job.user == 0 && job.fingerprint == Some("source") && job.status == NotARecipe
  {
    var s0 := ReachFirstAttempt();
    var reject := Finish(0, NotRecipe("no ingredients"));
    assert Guard(s0.jobs[0], Some(0));
    s := After(s0, reject);
    ReachesNext(s0, reject);
    assert s.jobs == map[0 := Rejected(s0.jobs[0], "no ingredients", AttemptCost(0.0, []))];
  }

  lemma ReachFirstCall() returns (s: Sys)
    ensures Reachable(s)
    ensures s.jobs == map[0 := Claimed(Submitted(0, "source", 0), 0, 0)]
    ensures s.workers == map[0 := Attempting(0, 0, 0.0, [1.0])]
    ensures s.hist == map[0 := Hist(Some(0), 1, 0, 0.0, [])]
  {
    var s0 := ReachFirstAttempt();
    s := After(s0, Call(0, 1.0));
    assert [] + [1.0] == [1.0];
    ReachesNext(s0, Call(0, 1.0));
  }

  /** A model call was paid for, and the worker failed after the work. */
  lemma ReachUnbilled(where: Where) returns (s: Sys)
    requires where == InCommit || where == InHandler(TierFailed("unreadable"))
    ensures Reachable(s)
    ensures s.jobs == map[0 := Claimed(Submitted(0, "source", 0), 0, 0)]
    ensures s.workers == map[0 := Crashed(0, 0, [1.0], false, "connection lost")]
    ensures s.hist == map[0 := Hist(Some(0), 1, 0, 0.0, [])]
  {
    var s1 := ReachFirstCall();
    s := After(s1, Crash(0, where, "connection lost"));
    ReachesNext(s1, Crash(0, where, "connection lost"));
  }

  /** The source of the rejected job 0 was submitted again, as job 1. */
  lemma ReachSecondJob() returns (s: Sys)
    ensures Reachable(s) && s.jobs.Keys == {0, 1} && s.hist.Keys == {0, 1}
    ensures var job := s.jobs[0]; job.user == 0 && job.fingerprint == Some("source") && job.status == NotARecipe
    ensures ActiveFor(s.jobs[1], 0, Some("source"))
  {
    var s1 := ReachNotARecipe();
    s := After(s1, SubmitJob(0, "source"));
    ReachesNext(s1, SubmitJob(0, "source"));
  }

  /** Two active jobs for one source: a rejected job, its source submitted again,
      and then the rejected job retried. */
  lemma RetryMakesTwoActiveJobs() returns (s: Sys)
    ensures Reachable(s) && !ActiveOnce(s.jobs)
  {
    var s2 := ReachSecondJob();
    s := After(s2, Retry(0, 0));
    ReachesNext(s2, Retry(0, 0));
    assert ActiveFor(s.jobs[1], s.jobs[0].user, s.jobs[0].fingerprint);
  }

  lemma LoneLoss()
    ensures var bills := [Bill(0, [1.0], false)]; SpentSum(bills) == LostSum(bills) == 1.0
  {
    assert [1.0][..0] == [];
    assert [Bill(0, [1.0], false)][..0] == [];
  }

  /** Recording that failure leaves the calls of claim 0 unbilled. */
  lemma UnbilledIsRecorded(s: Sys)
    requires s.jobs == map[0 := Claimed(Submitted(0, "source", 0), 0, 0)]
    requires s.workers == map[0 := Crashed(0, 0, [1.0], false, "connection lost")]
    requires s.hist == map[0 := Hist(Some(0), 1, 0, 0.0, [])]
    ensures WorkerEnabled(s, RecordCrash(0))
    ensures var t := AfterRecordCrash(s, 0);
            0 in t.jobs && 0 in t.hist && t.jobs[0].cost == 0.0 && t.hist[0].bills == [Bill(0, [1.0], false)]
  {
    assert Guard(s.jobs[0], Some(0));
  }

  /** A model call was made and its cost is on no job: the worker failed while
      committing, or while recording that the source is unreadable, and that failure
      was recorded without a cost. */
  lemma FailureAfterWorkLosesSpend(where: Where) returns (s: Sys)
    requires where == InCommit || where == InHandler(TierFailed("unreadable"))
    ensures Reachable(s) && 0 in s.jobs && 0 in s.hist
    ensures s.jobs[0].cost == 0.0 && SpentSum(s.hist[0].bills) == LostSum(s.hist[0].bills) == 1.0
  {
    var s2 := ReachUnbilled(where);
    UnbilledIsRecorded(s2);
    s := AfterRecordCrash(s2, 0);
    ReachesNext(s2, RecordCrash(0));
    LoneLoss();
  }

  /** An extraction without a usable ingredient line leaves its job stuck in
      review, listing nothing. */
  lemma UnusableExtractionGetsStuck() returns (s: Sys)
    ensures Reachable(s) && Stuck(s, 0) && s.jobs[0].produced == []
  {
    var s0 := ReachFirstAttempt();
    var unusable := NormalizedRecipe("Soup", [NormalizedGroup(None, [NormalizedLine(" ", None, None, None)])], []);
    var finish := Finish(0, Extracted([unusable], 0.5));
    assert Guard(s0.jobs[0], Some(0));
    assert IsBlank(" ");
    assert Plan([unusable], 0, {}) == [] by {
      assert CleanLines([NormalizedLine(" ", None, None, None)]) == [];
      assert CleanGroups(unusable.groups) == [];
    }
    s := After(s0, finish);
    ReachesNext(s0, finish);
  }
}
