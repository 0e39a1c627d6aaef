/** When paid model calls end up on no job: which step loses them, how it came to
    that, and exactly which runs leave a job's cost exact. */
module JobCost {
  import opened Options
  import opened JobQueue
  import opened Drafts
  import opened IngestionService
  import opened JobProtocol
  import opened JobInvariants
  import opened JobSteps
  import opened JobHistory
  import opened JobTheorems

  function LostOn(s: Sys, j: JobId): real {
    if j in s.hist then LostSum(s.hist[j].bills) else 0.0
  }

  /** A failed attempt that paid for calls, none of which its record will bill. */
  predicate UnbilledPaid(p: Phase) {
    p.Crashed? && !p.billed && Sum(p.calls) > 0.0
  }

  /** Worker `w` failed in a failure handler or while committing, after an attempt that
      had paid for calls. */
  predicate FailsAfterWork(s: Sys, step: Step, w: Token) {
    step.Crash? && step.w == w && (step.where.InHandler? || step.where.InCommit?)
    && w in s.workers && s.workers[w].Attempting? && Sum(s.workers[w].calls) > 0.0
  }

  /** The step records, as an open attempt on `j`, a failure that paid unbilled calls. */
  predicate LosesSpend(s: Sys, step: Step, j: JobId) {
    step.RecordCrash? && WorkerIn(s, step.w) && UnbilledPaid(s.workers[step.w])
    && s.workers[step.w].job == j && Guard(s.jobs[j], Some(step.w))
  }

  // ---------------------------------------------------------------------------
  // One step
  // ---------------------------------------------------------------------------

  lemma LostSumSnoc(bills: seq<Bill>, bill: Bill)
    ensures LostSum(bills + [bill]) == LostSum(bills) + if bill.billed then 0.0 else Sum(bill.calls)
  {
    assert (bills + [bill])[..|bills|] == bills;
  }

  lemma CallsCostSomething(s: Sys, w: Token)
    requires Inv(s) && WorkerIn(s, w)
    ensures var p := s.workers[w]; p.Attempting? || p.Crashed? ==> Sum(p.calls) >= 0.0
  {
    var p := s.workers[w];
    assert AttemptOk(w, p, s.jobs[p.job], s.hist[p.job], s.claims, s.cap, s.maxCall);
  }

  lemma MovesLose(s: Sys, step: Step, t: Sys, j: JobId)
    requires Inv(s) && j in s.jobs && j in s.hist && HistoryMoves(s, step, t, j)
    ensures LostOn(t, j) == LostOn(s, j) + if LosesSpend(s, step, j) then Sum(s.workers[step.w].calls) else 0.0
  {
    if ClosesJob(s, step, j) {
      LostSumSnoc(s.hist[j].bills, BillOf(s, step, j));
      CallsCostSomething(s, step.w);
    }
  }

  /** Spend is lost by one kind of step only: recording, as an attempt that still
      holds its job, a failure with paid, unbilled calls; what is lost is those calls. */
  lemma OnlyUnbilledFailuresLoseSpend(s: Sys, step: Step, j: JobId)
    requires Inv(s) && Enabled(s, step)
    ensures LostOn(After(s, step), j) ==
            LostOn(s, j) + if LosesSpend(s, step, j) then Sum(s.workers[step.w].calls) else 0.0
    ensures LostOn(After(s, step), j) > LostOn(s, j) <==> LosesSpend(s, step, j)
  {
    if j in s.hist {
      StepHistory(s, step, j);
      MovesLose(s, step, After(s, step), j);
    } else {
      NewHistory(s, step, j);
    }
  }

  lemma UnbilledArisesAfterWork(s: Sys, step: Step, w: Token)
    requires !UserStep(step) && WorkerEnabled(s, step) && w in s.workers && !UnbilledPaid(s.workers[w])
    ensures var t := AfterWorker(s, step);
            w in t.workers && (UnbilledPaid(t.workers[w]) <==> FailsAfterWork(s, step, w))
  {
  }

  lemma UnbilledStays(s: Sys, step: Step, w: Token)
    requires !UserStep(step) && WorkerEnabled(s, step) && w in s.workers && UnbilledPaid(s.workers[w])
    ensures var t := AfterWorker(s, step);
            w in t.workers && (UnbilledPaid(t.workers[w]) ==> t.workers[w] == s.workers[w])
  {
  }

  lemma NewWorkersAreIdle(s: Sys, step: Step, w: Token)
    requires !UserStep(step) && WorkerEnabled(s, step) && w !in s.workers
    ensures var t := AfterWorker(s, step); w in t.workers ==> t.workers[w] == Idle
  {
  }

  lemma UsersLeaveWorkers(s: Sys, step: Step)
    requires UserStep(step) && Enabled(s, step)
    ensures After(s, step).workers == s.workers
  {
  }

  // ---------------------------------------------------------------------------
  // Whole runs
  // ---------------------------------------------------------------------------

  ghost predicate SomeStepLoses(s: Sys, steps: seq<Step>, j: JobId)
    requires Runs(s, steps)
    decreases |steps|
  {
    && steps != []
    && (LosesSpend(s, steps[0], j) || SomeStepLoses(After(s, steps[0]), steps[1..], j))
  }

  /** Some step of the run is the failure `p`, in a handler or in the commit. */
  ghost predicate SomeStepFailsAfterWork(s: Sys, steps: seq<Step>, w: Token, p: Phase)
    requires Runs(s, steps) && p.Crashed?
    decreases |steps|
  {
    && steps != []
    && (|| (FailsAfterWork(s, steps[0], w) && After(s, steps[0]).workers[w] == p)
        || SomeStepFailsAfterWork(After(s, steps[0]), steps[1..], w, p))
  }

  /** What is lost stays lost; more is lost exactly when some step loses spend. */
  lemma {:induction false} RunLoses(s: Sys, steps: seq<Step>, j: JobId)
    requires Inv(s) && Runs(s, steps)
    ensures LostOn(Final(s, steps), j) >= LostOn(s, j)
    ensures LostOn(Final(s, steps), j) > LostOn(s, j) <==> SomeStepLoses(s, steps, j)
    decreases |steps|
  {
    if steps != [] {
      StepKeeps(s, steps[0]);
      OnlyUnbilledFailuresLoseSpend(s, steps[0], j);
      RunLoses(After(s, steps[0]), steps[1..], j);
      if LosesSpend(s, steps[0], j) {
        CallsCostSomething(s, steps[0].w);
      }
    }
  }

  /** Over every run from the start: a job's cost is its opening cost and all that its
      applied attempts spent if and only if no step of the run recorded, under an open
      claim of the job, a failure with paid, unbilled calls. */
  lemma CostIsExactUnlessSpendIsLost(cap: real, maxCall: real, steps: seq<Step>, j: JobId)
    requires cap > 0.0 && maxCall >= 0.0 && Runs(Init(cap, maxCall), steps)
    requires var t := Final(Init(cap, maxCall), steps); j in t.jobs && j in t.hist
    ensures var t := Final(Init(cap, maxCall), steps);
            t.jobs[j].cost == t.hist[j].opening + SpentSum(t.hist[j].bills)
            <==> !SomeStepLoses(Init(cap, maxCall), steps, j)
  {
    InitInv(cap, maxCall);
    CostIsConserved(Final(Init(cap, maxCall), steps), j);
    RunLoses(Init(cap, maxCall), steps, j);
  }

  /** A worker comes to hold a failure with paid, unbilled calls exactly when it fails
      in a failure handler or while committing, after an attempt that paid for them. */
  lemma StepFailsAfterWork(s: Sys, step: Step, w: Token)
    requires Enabled(s, step) && (w in s.workers ==> !UnbilledPaid(s.workers[w]))
    ensures var t := After(s, step);
            w in t.workers ==> (UnbilledPaid(t.workers[w]) <==> FailsAfterWork(s, step, w))
  {
    if UserStep(step) {
      UsersLeaveWorkers(s, step);
    } else if w in s.workers {
      UnbilledArisesAfterWork(s, step, w);
    } else {
      NewWorkersAreIdle(s, step, w);
    }
  }

  lemma StepKeepsUnbilled(s: Sys, step: Step, w: Token)
    requires Enabled(s, step) && w in s.workers && UnbilledPaid(s.workers[w])
    ensures var t := After(s, step);
            w in t.workers && (UnbilledPaid(t.workers[w]) ==> t.workers[w] == s.workers[w])
  {
    if UserStep(step) {
      UsersLeaveWorkers(s, step);
    } else {
      UnbilledStays(s, step, w);
    }
  }

  lemma {:induction false} RunFailsAfterWork(s: Sys, steps: seq<Step>, w: Token)
    requires Runs(s, steps) && w in Final(s, steps).workers && UnbilledPaid(Final(s, steps).workers[w])
    ensures || (w in s.workers && s.workers[w] == Final(s, steps).workers[w])
            || SomeStepFailsAfterWork(s, steps, w, Final(s, steps).workers[w])
    decreases |steps|
  {
    if steps != [] {
      RunFailsAfterWork(After(s, steps[0]), steps[1..], w);
      if w in s.workers && UnbilledPaid(s.workers[w]) {
        StepKeepsUnbilled(s, steps[0], w);
      } else {
        StepFailsAfterWork(s, steps[0], w);
      }
    }
  }

  /** Before any step that loses spend, its worker failed in a handler or in the commit
      of that very attempt: the same job, the same claim and the same calls. */
  lemma LossesComeFromFailuresAfterWork(cap: real, maxCall: real, steps: seq<Step>, step: Step, j: JobId)
    requires Runs(Init(cap, maxCall), steps) && LosesSpend(Final(Init(cap, maxCall), steps), step, j)
    ensures SomeStepFailsAfterWork(Init(cap, maxCall), steps, step.w, Final(Init(cap, maxCall), steps).workers[step.w])
  {
    RunFailsAfterWork(Init(cap, maxCall), steps, step.w);
  }
}
