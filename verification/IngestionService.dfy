/** What a user does to jobs: submit, retry, accept or reject a draft, accept in
    bulk. Calls of one service are sequential; each is one committed step. */
module IngestionService {
  import opened Options
  import opened JobQueue
  import opened Drafts

  predicate Active(job: Job) {
    job.status == Queued || job.status == Running || job.status == NeedsReview
  }

  predicate ActiveFor(job: Job, user: UserId, fingerprint: Option<string>) {
    job.user == user && job.fingerprint == fingerprint && Active(job)
  }

  /** A submission is refused while a job for the same source is active or a
      recipe made from it exists. */
  predicate MaySubmit(jobs: map<JobId, Job>, recipes: map<RecipeId, Recipe>, user: UserId,
                      fingerprint: Option<string>)
  {
    && !Taken(recipes, user, fingerprint)
    && forall j :: j in jobs ==> !ActiveFor(jobs[j], user, fingerprint)
  }

  function Submitted(user: UserId, fingerprint: string, now: Time): Job {
    Job(user, Some(fingerprint), false, now, Queued, 0, None, None, None, None, None, None, [], 0.0)
  }

  /** A transform's drafts already exist: its job starts at the review gate. */
  function Transformed(user: UserId, produced: seq<RecipeId>, confidence: Option<real>, cost: real, now: Time): Job {
    Job(user, None, true, now, NeedsReview, 0, None, None, None, None, None, confidence, produced, cost)
  }

  predicate Retryable(job: Job) {
    job.status == Failed || job.status == NotARecipe
  }

  function Retried(job: Job): Job {
    job.(status := Queued, attempts := 0, nextAttemptAt := None, error := None, reason := None)
  }

  /** Every draft of the job that still exists is verified; a deleted one counts
      as dealt with. */
  predicate Settled(job: Job, recipes: map<RecipeId, Recipe>) {
    forall r :: r in job.produced && r in recipes && recipes[r].owner == job.user ==> recipes[r].verified
  }

  function MaybeCompleted(job: Job, recipes: map<RecipeId, Recipe>): Job {
    if job.status == Done then job
    else if job.produced == [] || Settled(job, recipes) then job.(status := Done)
    else job
  }

  predicate MayVerify(recipes: map<RecipeId, Recipe>, user: UserId, r: RecipeId) {
    r in recipes && recipes[r].owner == user
  }

  function Verified(recipes: map<RecipeId, Recipe>, r: RecipeId): map<RecipeId, Recipe>
    requires r in recipes
  {
    recipes[r := recipes[r].(verified := true)]
  }

  /** An edit replaces the content and nothing else. */
  function Edited(recipes: map<RecipeId, Recipe>, r: RecipeId, content: RecipeIn): map<RecipeId, Recipe>
    requires r in recipes
  {
    recipes[r := recipes[r].(content := content)]
  }

  function Without(ids: seq<RecipeId>, r: RecipeId): (rest: seq<RecipeId>)
    ensures forall i :: i in rest <==> i in ids && i != r
    ensures |rest| <= |ids|
  {
    if ids == [] then []
    else if ids[0] == r then Without(ids[1..], r)
    else [ids[0]] + Without(ids[1..], r)
  }

  /** The jobs a bulk accept closes. */
  predicate InBulk(job: Job, user: UserId, threshold: real) {
    && job.user == user
    && job.status == NeedsReview
    && job.confidence.Some?
    && job.confidence.value >= threshold
  }

  function BulkSet(jobs: map<JobId, Job>, user: UserId, threshold: real): set<JobId> {
    set j | j in jobs && InBulk(jobs[j], user, threshold)
  }

  predicate ListedBy(jobs: map<JobId, Job>, closing: set<JobId>, r: RecipeId) {
    exists j :: j in closing && j in jobs && r in jobs[j].produced
  }

  function BulkJobs(jobs: map<JobId, Job>, closing: set<JobId>): map<JobId, Job> {
    map j | j in jobs :: if j in closing then jobs[j].(status := Done) else jobs[j]
  }

  function BulkRecipes(recipes: map<RecipeId, Recipe>, jobs: map<JobId, Job>, user: UserId, closing: set<JobId>):
    map<RecipeId, Recipe>
  {
    map r | r in recipes ::
      if recipes[r].owner == user && ListedBy(jobs, closing, r) then recipes[r].(verified := true) else recipes[r]
  }

  method Submit(jobs: JobTable, recipes: RecipeTable, user: UserId, fingerprint: string, now: Time)
    returns (result: Result<JobId>)
    requires forall j :: j in jobs.rows ==> j < jobs.next
    modifies jobs
    ensures forall j :: j in jobs.rows ==> j < jobs.next
    ensures result.Success? <==> MaySubmit(old(jobs.rows), recipes.rows, user, Some(fingerprint))
    ensures result.Success? ==>
              && result.value == old(jobs.next)
              && jobs.next == old(jobs.next) + 1
              && jobs.rows == old(jobs.rows)[old(jobs.next) := Submitted(user, fingerprint, now)]
    ensures result.Failure? ==>
              && jobs.rows == old(jobs.rows)
              && jobs.next == old(jobs.next)
              && result.error == if Taken(recipes.rows, user, Some(fingerprint)) then DuplicateRecipe else DuplicateJob
  {
    if Taken(recipes.rows, user, Some(fingerprint)) {
      return Failure(DuplicateRecipe);
    }
    if exists j :: j in jobs.rows && ActiveFor(jobs.rows[j], user, Some(fingerprint)) {
      return Failure(DuplicateJob);
    }
    var id := jobs.next;
    jobs.rows := jobs.rows[id := Submitted(user, fingerprint, now)];
    jobs.next := id + 1;
    return Success(id);
  }

  method RetryJob(jobs: JobTable, user: UserId, j: JobId) returns (result: Result<()>)
    modifies jobs`rows
    ensures result == (if j !in old(jobs.rows) || old(jobs.rows)[j].user != user then Failure(NotFound)
                       else if !Retryable(old(jobs.rows)[j]) then Failure(InvalidTransition)
                       else Success(()))
    ensures jobs.rows == if result.Success? then old(jobs.rows)[j := Retried(old(jobs.rows)[j])] else old(jobs.rows)
  {
    if j !in jobs.rows || jobs.rows[j].user != user {
      return Failure(NotFound);
    }
    var job := jobs.rows[j];
    if !Retryable(job) {
      return Failure(InvalidTransition);
    }
    job := job.(status := Queued);
    job := job.(attempts := 0);
    job := job.(nextAttemptAt := None, error := None, reason := None);
    jobs.rows := jobs.rows[j := job];
    return Success(());
  }

  /** `mayEdit` says whether the caller owns the recipe or edits a cookbook holding it. */
  method UpdateRecipe(recipes: RecipeTable, r: RecipeId, content: RecipeIn, mayEdit: bool) returns (result: Result<()>)
    modifies recipes`rows
    ensures result == if r in old(recipes.rows) && mayEdit then Success(()) else Failure(NotFound)
    ensures recipes.rows == if result.Success? then Edited(old(recipes.rows), r, content) else old(recipes.rows)
  {
    if r !in recipes.rows || !mayEdit {
      return Failure(NotFound);
    }
    var recipe := recipes.rows[r];
    recipes.rows := recipes.rows[r := recipe.(content := content)];
    return Success(());
  }

  method MaybeComplete(jobs: JobTable, recipes: RecipeTable, j: JobId)
    requires j in jobs.rows
    modifies jobs`rows
    ensures jobs.rows == old(jobs.rows)[j := MaybeCompleted(old(jobs.rows)[j], recipes.rows)]
  {
    var job := jobs.rows[j];
    if job.status == Done {
      return;
    }
    var allVerified := true;
    for i := 0 to |job.produced|
      invariant allVerified <==> forall k :: 0 <= k < i && MayVerify(recipes.rows, job.user, job.produced[k]) ==>
                                   recipes.rows[job.produced[k]].verified
    {
      var r := job.produced[i];
      if MayVerify(recipes.rows, job.user, r) && !recipes.rows[r].verified {
        allVerified := false;
      }
    }
    assert allVerified <==> Settled(job, recipes.rows);
    if allVerified {
      jobs.rows := jobs.rows[j := job.(status := Done)];
    }
  }

  /** What a review action needs before it touches a draft. */
  predicate MayReview(jobs: map<JobId, Job>, recipes: map<RecipeId, Recipe>, user: UserId, j: JobId, r: RecipeId) {
    && j in jobs
    && jobs[j].user == user
    && r in jobs[j].produced
    && MayVerify(recipes, user, r)
  }

  method AcceptDraft(jobs: JobTable, recipes: RecipeTable, user: UserId, j: JobId, r: RecipeId)
    returns (result: Result<()>)
    modifies jobs`rows, recipes`rows
    ensures result ==
            if MayReview(old(jobs.rows), old(recipes.rows), user, j, r) then Success(()) else Failure(NotFound)
    ensures result.Failure? ==> jobs.rows == old(jobs.rows) && recipes.rows == old(recipes.rows)
    ensures result.Success? ==>
              && recipes.rows == Verified(old(recipes.rows), r)
              && jobs.rows == old(jobs.rows)[j := MaybeCompleted(old(jobs.rows)[j], recipes.rows)]
  {
    if j !in jobs.rows || jobs.rows[j].user != user || r !in jobs.rows[j].produced {
      return Failure(NotFound);
    }
    if r !in recipes.rows || recipes.rows[r].owner != user {
      return Failure(NotFound);
    }
    recipes.rows := recipes.rows[r := recipes.rows[r].(verified := true)];
    MaybeComplete(jobs, recipes, j);
    return Success(());
  }

  method RejectDraft(jobs: JobTable, recipes: RecipeTable, user: UserId, j: JobId, r: RecipeId)
    returns (result: Result<()>)
    modifies jobs`rows, recipes`rows
    ensures result ==
            if MayReview(old(jobs.rows), old(recipes.rows), user, j, r) then Success(()) else Failure(NotFound)
    ensures result.Failure? ==> jobs.rows == old(jobs.rows) && recipes.rows == old(recipes.rows)
    ensures result.Success? ==>
              && recipes.rows == old(recipes.rows) - {r}
              && var job := old(jobs.rows)[j];
                 jobs.rows ==
                   old(jobs.rows)[j := MaybeCompleted(job.(produced := Without(job.produced, r)), recipes.rows)]
  {
    if j !in jobs.rows || jobs.rows[j].user != user || r !in jobs.rows[j].produced {
      return Failure(NotFound);
    }
    if r !in recipes.rows || recipes.rows[r].owner != user {
      return Failure(NotFound);
    }
    recipes.rows := recipes.rows - {r};
    var job := jobs.rows[j];
    jobs.rows := jobs.rows[j := job.(produced := Without(job.produced, r))];
    MaybeComplete(jobs, recipes, j);
    return Success(());
  }

  /** `recipes` with those of `ids` verified that `user` owns. */
  function VerifiedAll(recipes: map<RecipeId, Recipe>, user: UserId, ids: seq<RecipeId>): map<RecipeId, Recipe> {
    map r | r in recipes ::
      if recipes[r].owner == user && r in ids then recipes[r].(verified := true) else recipes[r]
  }

  method VerifyDrafts(recipes: RecipeTable, user: UserId, ids: seq<RecipeId>)
    modifies recipes`rows
    ensures recipes.rows == VerifiedAll(old(recipes.rows), user, ids)
  {
    for i := 0 to |ids|
      invariant recipes.rows == VerifiedAll(old(recipes.rows), user, ids[..i])
    {
      var r := ids[i];
      assert ids[..i + 1] == ids[..i] + [r];
      if r in recipes.rows && recipes.rows[r].owner == user {
        recipes.rows := recipes.rows[r := recipes.rows[r].(verified := true)];
      }
    }
    assert ids[..|ids|] == ids;
  }

  lemma BulkStep(recipes: map<RecipeId, Recipe>, jobs: map<JobId, Job>, user: UserId, closing: set<JobId>, j: JobId)
    requires j in jobs
    ensures BulkRecipes(recipes, jobs, user, closing + {j}) ==
            VerifiedAll(BulkRecipes(recipes, jobs, user, closing), user, jobs[j].produced)
  {
    forall r | r in recipes
      ensures ListedBy(jobs, closing + {j}, r) <==> ListedBy(jobs, closing, r) || r in jobs[j].produced
    {
      if r in jobs[j].produced {
        assert j in closing + {j};
      }
      if ListedBy(jobs, closing, r) {
        var k :| k in closing && k in jobs && r in jobs[k].produced;
        assert k in closing + {j};
      }
    }
  }

  /** Verifies every draft of the user's confident jobs and closes those jobs. */
  method AcceptAllHighConfidence(jobs: JobTable, recipes: RecipeTable, user: UserId, threshold: real)
    modifies jobs`rows, recipes`rows
    ensures var closing := BulkSet(old(jobs.rows), user, threshold);
            && jobs.rows == BulkJobs(old(jobs.rows), closing)
            && recipes.rows == BulkRecipes(old(recipes.rows), old(jobs.rows), user, closing)
  {
    ghost var rows := jobs.rows;
    var selected := BulkSet(jobs.rows, user, threshold);
    var pending := selected;
    while pending != {}
      invariant pending <= selected
      invariant jobs.rows == BulkJobs(rows, selected - pending)
      invariant recipes.rows == BulkRecipes(old(recipes.rows), rows, user, selected - pending)
      decreases pending
    {
      var j :| j in pending;
      BulkStep(old(recipes.rows), rows, user, selected - pending, j);
      assert selected - (pending - {j}) == selected - pending + {j};
      VerifyDrafts(recipes, user, jobs.rows[j].produced);
      jobs.rows := jobs.rows[j := jobs.rows[j].(status := Done)];
      pending := pending - {j};
    }
    assert selected - pending == selected;
  }
}
