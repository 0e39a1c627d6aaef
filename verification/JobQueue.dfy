/** The job rows and the transitions of the queue: claim, complete, fail, release.

    A row function (`Claimed`, `Reviewed`, `FailedOnce`, ...) says what one
    transition makes of one row; the class `JobTable` carries the transitions out
    on the table, as the queue does, and is proved against those functions. */
module JobQueue {
  import opened Options

  type JobId = nat
  type RecipeId = nat
  type UserId = nat
  /** The fencing token of a worker process. */
  type Token = nat
  /** Seconds. */
  type Time = int

  const MAX_ATTEMPTS := 3
  const BACKOFF_BASE_SECONDS := 30
  const ERROR_MAX_LEN := 2000
  const REASON_MAX_LEN := 1000
  const STALE_SECONDS := 10 * 60
  const DEFAULT_FALLBACK_REASON := "extraction failed"
  const DIED_REPEATEDLY := "worker died repeatedly while processing this job"

  datatype JobStatus = Queued | Running | NeedsReview | Done | Failed | NotARecipe

  /** `confidence` is the numeric confidence of the extraction metadata; it is
      `None` when there is no metadata or the value is not a number. */
  datatype Job = Job(
    user: UserId,
    fingerprint: Option<string>,
    transform: bool,
    createdAt: Time,
    status: JobStatus,
    attempts: nat,
    nextAttemptAt: Option<Time>,
    lockedAt: Option<Time>,
    lockedBy: Option<Token>,
    error: Option<string>,
    reason: Option<string>,
    confidence: Option<real>,
    produced: seq<RecipeId>,
    cost: real)

  function Pow2(n: nat): nat {
    if n == 0 then 1 else 2 * Pow2(n - 1)
  }

  /** Seconds a job waits after its `attempts`-th failure. */
  function Backoff(attempts: nat): nat
    requires attempts >= 1
  {
    BACKOFF_BASE_SECONDS * Pow2(attempts - 1)
  }

  function Truncated(s: string, limit: nat): string {
    if |s| <= limit then s else s[..limit]
  }

  predicate Due(job: Job, now: Time) {
    && job.status == Queued
    && (job.nextAttemptAt.None? || job.nextAttemptAt.value <= now)
  }

  /** The jobs a claim may take: due, and no due job is older. */
  predicate Claimable(rows: map<JobId, Job>, now: Time, j: JobId) {
    && j in rows
    && Due(rows[j], now)
    && forall k :: k in rows && Due(rows[k], now) ==> rows[j].createdAt <= rows[k].createdAt
  }

  predicate Stale(job: Job, now: Time) {
    && job.status == Running
    && job.lockedAt.Some?
    && job.lockedAt.value < now - STALE_SECONDS
  }

  /** The compare-and-set guard on transitions out of `Running`. */
  predicate Guard(job: Job, expected: Option<Token>) {
    expected.None? || (job.status == Running && job.lockedBy == expected)
  }

  function Claimed(job: Job, now: Time, token: Token): Job {
    job.(status := Running, lockedAt := Some(now), lockedBy := Some(token))
  }

  function Unlocked(job: Job): Job {
    job.(lockedAt := None, lockedBy := None)
  }

  function Reviewed(job: Job, confidence: Option<real>, produced: seq<RecipeId>, cost: real): Job {
    Unlocked(job).(status := NeedsReview, confidence := confidence, produced := produced, cost := job.cost + cost)
  }

  function Rejected(job: Job, reason: string, cost: real): Job {
    Unlocked(job).(status := NotARecipe, reason := Some(Truncated(reason, REASON_MAX_LEN)), cost := job.cost + cost)
  }

  predicate Blank(s: Option<string>) {
    s.None? || s.value == ""
  }

  function WithFallbackReason(job: Job): Job {
    if Blank(job.reason) then job.(reason := Some(DEFAULT_FALLBACK_REASON)) else job
  }

  function FailedOnce(job: Job, error: string, cost: Option<real>, retryable: bool, now: Time): Job {
    var spent := if cost.Some? then job.cost + cost.value else job.cost;
    var counted := Unlocked(job).(attempts := job.attempts + 1, cost := spent);
    if retryable && job.attempts + 1 < MAX_ATTEMPTS then
      counted.(status := Queued, nextAttemptAt := Some(now + Backoff(job.attempts + 1)))
    else
      WithFallbackReason(counted.(status := Failed,
                                  error := Some(Truncated(error, ERROR_MAX_LEN)),
                                  nextAttemptAt := None))
  }

  function Released(job: Job): Job {
    var counted := Unlocked(job).(attempts := job.attempts + 1);
    if job.attempts + 1 < MAX_ATTEMPTS then
      counted.(status := Queued)
    else
      WithFallbackReason(counted.(status := Failed, error := Some(DIED_REPEATEDLY)))
  }

  /** The rows after releasing the jobs in `stale`. */
  function ReleasedRows(rows: map<JobId, Job>, stale: set<JobId>): map<JobId, Job> {
    map j | j in rows :: if j in stale then Released(rows[j]) else rows[j]
  }

  class JobTable {
    var rows: map<JobId, Job>
    /** Every id at or above `next` is unused. */
    var next: JobId

    constructor ()
      ensures rows == map[] && next == 0
    {
      rows := map[];
      next := 0;
    }

    method ClaimNext(now: Time, token: Token) returns (claimed: Option<JobId>)
      modifies this`rows
      ensures claimed.None? ==>
                rows == old(rows) && forall j :: j in rows ==> !Due(rows[j], now)
      ensures claimed.Some? ==>
                && Claimable(old(rows), now, claimed.value)
                && rows == old(rows)[claimed.value := Claimed(old(rows)[claimed.value], now, token)]
                && forall k :: k in rows && old(rows)[k].status == Queued
                               && (old(rows)[k].nextAttemptAt.Some? ==> old(rows)[k].nextAttemptAt.value <= now) ==>
                     rows[claimed.value].createdAt <= rows[k].createdAt
    {
      claimed := None;
      var pending := rows.Keys;
      while pending != {}
        invariant pending <= rows.Keys
        invariant claimed.None? ==> forall j :: j in rows && j !in pending ==> !Due(rows[j], now)
        invariant claimed.Some? ==>
                    && claimed.value in rows
                    && Due(rows[claimed.value], now)
                    && forall j :: j in rows && j !in pending && Due(rows[j], now) ==>
                         rows[claimed.value].createdAt <= rows[j].createdAt
        decreases pending
      {
        var j :| j in pending;
        if Due(rows[j], now) && (claimed.None? || rows[j].createdAt < rows[claimed.value].createdAt) {
          claimed := Some(j);
        }
        pending := pending - {j};
      }
      if claimed.Some? {
        var job := rows[claimed.value];
        job := job.(status := Running);
        job := job.(lockedAt := Some(now));
        job := job.(lockedBy := Some(token));
        rows := rows[claimed.value := job];
      }
    }

    method CompleteNeedsReview(j: JobId, confidence: Option<real>, produced: seq<RecipeId>, cost: real,
                               expected: Option<Token>)
      returns (applied: bool)
      requires j in rows
      modifies this`rows
      ensures applied == Guard(old(rows)[j], expected)
      ensures !applied ==> rows == old(rows)
      ensures applied ==> rows == old(rows)[j := Reviewed(old(rows)[j], confidence, produced, cost)]
    {
      var job := rows[j];
      if !Guard(job, expected) {
        return false;
      }
      job := job.(status := NeedsReview);
      job := job.(confidence := confidence, produced := produced);
      job := job.(cost := job.cost + cost);
      job := job.(lockedAt := None, lockedBy := None);
      rows := rows[j := job];
      return true;
    }

    method CompleteNotARecipe(j: JobId, reason: string, cost: real, expected: Option<Token>)
      returns (applied: bool)
      requires j in rows
      modifies this`rows
      ensures applied == Guard(old(rows)[j], expected)
      ensures !applied ==> rows == old(rows)
      ensures applied ==> rows == old(rows)[j := Rejected(old(rows)[j], reason, cost)]
    {
      var job := rows[j];
      if !Guard(job, expected) {
        return false;
      }
      job := job.(status := NotARecipe);
      job := job.(reason := Some(Truncated(reason, REASON_MAX_LEN)));
      job := job.(cost := job.cost + cost);
      job := job.(lockedAt := None, lockedBy := None);
      rows := rows[j := job];
      return true;
    }

    method Fail(j: JobId, error: string, cost: Option<real>, retryable: bool, expected: Option<Token>, now: Time)
      returns (applied: bool)
      requires j in rows
      modifies this`rows
      ensures applied == Guard(old(rows)[j], expected)
      ensures !applied ==> rows == old(rows)
      ensures applied ==> rows == old(rows)[j := FailedOnce(old(rows)[j], error, cost, retryable, now)]
    {
      var job := rows[j];
      if !Guard(job, expected) {
        return false;
      }
      job := job.(attempts := job.attempts + 1);
      if cost.Some? {
        job := job.(cost := job.cost + cost.value);
      }
      job := job.(lockedAt := None, lockedBy := None);
      if retryable && job.attempts < MAX_ATTEMPTS {
        job := job.(status := Queued);
        job := job.(nextAttemptAt := Some(now + Backoff(job.attempts)));
      } else {
        job := job.(status := Failed);
        job := job.(error := Some(Truncated(error, ERROR_MAX_LEN)));
        if Blank(job.reason) {
          job := job.(reason := Some(DEFAULT_FALLBACK_REASON));
        }
        job := job.(nextAttemptAt := None);
      }
      rows := rows[j := job];
      return true;
    }

    /** Requeues or fails every job whose lock is older than ten minutes. */
    method ReleaseStale(now: Time) returns (count: nat)
      modifies this`rows
      ensures var stale := set j | j in old(rows) && Stale(old(rows)[j], now);
              rows == ReleasedRows(old(rows), stale) && count == |stale|
    {
      var stale := set j | j in rows && Stale(rows[j], now);
      var pending := stale;
      count := 0;
      while pending != {}
        invariant pending <= stale
        invariant count == |stale| - |pending|
        invariant rows == ReleasedRows(old(rows), stale - pending)
        decreases pending
      {
        var j :| j in pending;
        assert rows[j] == old(rows)[j];
        var job := rows[j];
        job := job.(attempts := job.attempts + 1);
        job := job.(lockedAt := None, lockedBy := None);
        if job.attempts < MAX_ATTEMPTS {
          job := job.(status := Queued);
        } else {
          job := job.(status := Failed, error := Some(DIED_REPEATEDLY));
          if Blank(job.reason) {
            job := job.(reason := Some(DEFAULT_FALLBACK_REASON));
          }
        }
        rows := rows[j := job];
        pending := pending - {j};
        count := count + 1;
      }
    }
  }
}
