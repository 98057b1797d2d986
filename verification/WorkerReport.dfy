/**
 How a worker ends an attempt, and what it reports
 (`application/runtime_worker.py`, `application/review_jobs.py`).
 */
module WorkerReport {
  import opened Common
  import opened JobState
  import opened JobStore
  import opened JobLifecycle

  /** What execution produced: a result, open tasks for people, a classified fault, or a lost
      condition of one of its own checks. */
  datatype Executed =
    | Reviewed(body: Body, ownRun: bool)
    | NeedsPeople(tasks: seq<TaskId>)
    | Raised(permanent: bool)
    | Withdrawn

  datatype Report = Published | Waiting | CancelledReport | FailedReport | RetryScheduledReport | Superseded

  /** What other processes do between the two writes of `publish`, and of `fail`. */
  datatype Gaps = Gaps(upload: seq<Step>, retry: seq<Step>)

  /** The write that ends a failed attempt. */
  function Failing(a: ClaimedAttempt, permanent: bool, now: int): Write {
    Finish(a, if permanent then PermanentError else RetryableError, now, Some(ExecutionProblem), [], None)
  }

  /** `fail`: classify, then schedule the retry of a retryable failure through the outbox. */
  function FailWith(s: System, a: ClaimedAttempt, permanent: bool, others: seq<Step>, now: int, availableAt: int, policy: Policy)
    : (System, Report)
    requires s.job.currentRun in s.job.runs
  {
    match Apply(s.job, Failing(a, permanent, now), policy)
    case Err(_) => (s, Superseded)
    case Ok(job) =>
      var closed := s.(job := job);
      if job.status == Cancelled then (closed, CancelledReport)
      else if job.status == Failed then (closed, FailedReport)
      else ScheduleAfter(After(closed, others, policy), now, availableAt, policy)
  }

  /** The second write of `fail`, on whatever the job has become. */
  function ScheduleAfter(s: System, now: int, availableAt: int, policy: Policy): (System, Report) {
    if s.job.currentRun !in s.job.runs then (s, Superseded)
    else
      match Apply(s.job, RetryLater(availableAt, now), policy)
      case Err(_) => (s, Superseded)
      case Ok(queued) => (s.(job := queued), RetryScheduledReport)
  }

  /** `publish` from the worker; a conflicting body is a retryable fault. */
  function Submit(s: System, a: ClaimedAttempt, body: Body, gaps: Gaps, now: int, availableAt: int, policy: Policy)
    : (System, Report)
    requires s.job.currentRun in s.job.runs
  {
    match Publish(s, a, body, gaps.upload, now, policy)
    case Ok(after) => (after, Published)
    case Err(e) =>
      var later := AtFinish(s, a, Reviewed(body, true), gaps, policy);
      if e.StoreRefused? || later.job.currentRun !in later.job.runs then (later, Superseded)
      else FailWith(later, a, false, gaps.retry, now, availableAt, policy)
  }

  /** `wait_for_human` from the worker, which does not look at the record it gets back. */
  function Park(s: System, a: ClaimedAttempt, tasks: seq<TaskId>, now: int, policy: Policy): (System, Report)
    requires s.job.currentRun in s.job.runs
  {
    match Apply(s.job, Finish(a, NeedsHuman, now, None, tasks, None), policy)
    case Err(_) => (s, Superseded)
    case Ok(job) => (s.(job := job), Waiting)
  }

  /** The end of `process`, once execution is over. */
  function Conclude(s: System, a: ClaimedAttempt, executed: Executed, gaps: Gaps, now: int, availableAt: int, policy: Policy)
    : (System, Report)
    requires s.job.currentRun in s.job.runs
  {
    match executed
    case Withdrawn => (s, Superseded)
    case Raised(permanent) => FailWith(s, a, permanent, gaps.retry, now, availableAt, policy)
    case Reviewed(body, ownRun) =>
      if ownRun then Submit(s, a, body, gaps, now, availableAt, policy)
      else FailWith(s, a, true, gaps.retry, now, availableAt, policy)
    case NeedsPeople(tasks) =>
      if tasks == [] then FailWith(s, a, false, gaps.retry, now, availableAt, policy)
      else Park(s, a, tasks, now, policy)
  }

  // ------------------------------------------------------- what a report is worth

  /** The report says what the store says. */
  predicate Honest(r: Report, status: Status) {
    match r
    case Published => status == Succeeded
    case Waiting => status == WaitingForHuman
    case CancelledReport => status == Cancelled
    case FailedReport => status == Failed
    case RetryScheduledReport => status == Queued
    case Superseded => true
  }

  /** The execution ends in an upload. */
  predicate Uploads(a: ClaimedAttempt, executed: Executed) {
    && executed.Reviewed? && executed.ownRun
    && executed.body.runId == a.runId && executed.body.version == a.expectedVersion + 1
  }

  /** The system as the attempt's finishing write finds it; a refused upload stores nothing. */
  function AtFinish(s: System, a: ClaimedAttempt, executed: Executed, gaps: Gaps, policy: Policy): System {
    if Uploads(a, executed) then After(Next(s, PutBody(executed.body), policy), gaps.upload, policy) else s
  }

  /** The execution ends in `fail` with a retryable fault. */
  predicate Retryable(s: System, a: ClaimedAttempt, executed: Executed) {
    match executed
    case Raised(permanent) => !permanent
    case Reviewed(body, ownRun) => ownRun && !(Uploads(a, executed) && BodyAccepted(s, body))
    case NeedsPeople(tasks) => tasks == []
    case Withdrawn => false
  }

  /** The lease was lost before the attempt's own finishing write. */
  predicate LostLease(s: System, a: ClaimedAttempt, executed: Executed, gaps: Gaps, policy: Policy) {
    !HasAuthority(AtFinish(s, a, executed, gaps, policy).job, a)
  }

  /** A retryable failure will be recorded as such, and before its retry is scheduled somebody
      else moves the job on. */
  predicate MovedOn(s: System, a: ClaimedAttempt, others: seq<Step>, now: int, policy: Policy) {
    && HasAuthority(s.job, a) && !s.job.cancelRequested && s.job.attemptCount + 1 < policy.maxAttempts
    && After(Next(s, StoreWrite(Failing(a, false, now)), policy), others, policy).job.status != RetryableFailed
  }

  /** The attempt closed itself as a retryable failure, and was overtaken before its retry. */
  predicate Overtaken(s: System, a: ClaimedAttempt, executed: Executed, gaps: Gaps, now: int, policy: Policy) {
    Retryable(s, a, executed) && MovedOn(AtFinish(s, a, executed, gaps, policy), a, gaps.retry, now, policy)
  }

  /** The attempt is over in the store. */
  predicate ClosedAs(s: System, a: ClaimedAttempt, event: Event) {
    a.attemptId < |s.job.attempts| && s.job.attempts[a.attemptId].outcome == Some(event)
  }

  lemma {:induction false} ClosedHasNoAuthority(s: System, a: ClaimedAttempt, event: Event, policy: Policy)
    requires Inv(s, policy) && ClosedAs(s, a, event)
    ensures !HasAuthority(s.job, a)
  {
    if HasAuthority(s.job, a) {
      AuthorityIsLatestClaim(s.job, a);
    }
  }

  lemma {:induction false} FailureCloses(s: System, a: ClaimedAttempt, permanent: bool, now: int, policy: Policy) returns (job: Job)
    requires Inv(s, policy) && HasAuthority(s.job, a)
    ensures Apply(s.job, Failing(a, permanent, now), policy) == Ok(job)
    ensures Next(s, StoreWrite(Failing(a, permanent, now)), policy) == s.(job := job) && Inv(s.(job := job), policy)
    ensures ClosedAs(s.(job := job), a, if permanent then PermanentError else RetryableError)
    ensures job.status in {Cancelled, Failed, RetryableFailed}
    ensures job.status == RetryableFailed <==>
            !permanent && !s.job.cancelRequested && s.job.attemptCount + 1 < policy.maxAttempts
  {
    AuthorityIsLatestClaim(s.job, a);
    job := Apply(s.job, Failing(a, permanent, now), policy).value;
    FinishKeepsInv(s, Failing(a, permanent, now), job, policy);
  }

  lemma {:induction false} ScheduleReports(s: System, a: ClaimedAttempt, now: int, availableAt: int, policy: Policy)
    requires Inv(s, policy) && ClosedAs(s, a, RetryableError)
    ensures
      var (t, r) := ScheduleAfter(s, now, availableAt, policy);
      && Inv(t, policy) && ClosedAs(t, a, RetryableError)
      && (r == Superseded <==> s.job.status != RetryableFailed)
      && (r != Superseded ==> r == RetryScheduledReport && t.job.status == Queued)
  {
    var r := Apply(s.job, RetryLater(availableAt, now), policy);
    if r.Ok? {
      RetryKeepsInv(s, RetryLater(availableAt, now), r.value, policy);
    }
  }

  lemma {:induction false} FailureIsReported(s: System, a: ClaimedAttempt, permanent: bool, others: seq<Step>, now: int,
                                             availableAt: int, policy: Policy)
    requires Inv(s, policy) && HasAuthority(s.job, a)
    ensures
      var (t, r) := FailWith(s, a, permanent, others, now, availableAt, policy);
      && Inv(t, policy) && Honest(r, t.job.status) && r != Waiting
      && ClosedAs(t, a, if permanent then PermanentError else RetryableError)
      && (r == Superseded <==> !permanent && MovedOn(s, a, others, now, policy))
  {
    var job := FailureCloses(s, a, permanent, now, policy);
    if job.status == RetryableFailed {
      var closed := s.(job := job);
      AfterKeepsInv(closed, others, policy);
      AttemptEndsOnce(closed, others, policy, a.attemptId);
      ScheduleReports(After(closed, others, policy), a, now, availableAt, policy);
    }
  }

  lemma {:induction false} ParkingIsReported(s: System, a: ClaimedAttempt, tasks: seq<TaskId>, now: int, policy: Policy)
    requires Inv(s, policy) && HasAuthority(s.job, a) && tasks != []
    ensures
      var (t, r) := Park(s, a, tasks, now, policy);
      && Inv(t, policy) && ClosedAs(t, a, NeedsHuman)
      && r == Waiting && t.job.status == (if s.job.cancelRequested then Cancelled else WaitingForHuman)
      && t.job.cancelRequested == s.job.cancelRequested
  {
    AuthorityIsLatestClaim(s.job, a);
    var w := Finish(a, NeedsHuman, now, None, tasks, None);
    FinishKeepsInv(s, w, Apply(s.job, w, policy).value, policy);
  }

  /** An accepted upload is committed exactly if the lease outlived it. */
  lemma {:induction false} UploadIsReported(s: System, a: ClaimedAttempt, b: Body, gaps: Gaps, now: int, availableAt: int,
                                            policy: Policy)
    requires Inv(s, policy) && a.expectedVersion == 0 && Uploads(a, Reviewed(b, true)) && BodyAccepted(s, b)
    ensures
      var (t, r) := Submit(s, a, b, gaps, now, availableAt, policy);
      var later := AtFinish(s, a, Reviewed(b, true), gaps, policy);
      && Inv(t, policy)
      && (HasAuthority(later.job, a) ==> r == Published && t.job.status == Succeeded && ClosedAs(t, a, PublishResult))
      && (!HasAuthority(later.job, a) ==> r == Superseded && !HasAuthority(t.job, a))
  {
    UploadStands(s, b, gaps.upload, policy);
    var later := After(Next(s, PutBody(b), policy), gaps.upload, policy);
    CommitSucceeds(later, a, b, now, policy);
    if HasAuthority(later.job, a) {
      FinishKeepsInv(later, Commit(a, b, now), Apply(later.job, Commit(a, b, now), policy).value, policy);
    }
  }

  /** What a report may leave behind. */
  ghost predicate Reported(t: System, r: Report, a: ClaimedAttempt, executed: Executed) {
    && (r.Waiting? ==> t.job.status == WaitingForHuman || (t.job.status == Cancelled && t.job.cancelRequested))
    && (!r.Waiting? ==> Honest(r, t.job.status))
    && (r.Superseded? && HasAuthority(t.job, a) ==> executed.Withdrawn?)
    && (!r.Superseded? ==> exists event :: ClosedAs(t, a, event))
  }

  /** What ending an attempt guarantees: when the answer is superseded, when it misleads. */
  ghost predicate Concluded(s: System, a: ClaimedAttempt, executed: Executed, gaps: Gaps, now: int, policy: Policy,
                            t: System, r: Report)
  {
    && Inv(t, policy) && Reported(t, r, a, executed)
    && (r == Superseded <==>
          executed.Withdrawn? || LostLease(s, a, executed, gaps, policy) || Overtaken(s, a, executed, gaps, now, policy))
    && (executed.Withdrawn? ==> t == s)
    && (Overtaken(s, a, executed, gaps, now, policy) ==> ClosedAs(t, a, RetryableError))
    && (Honest(r, t.job.status) <==>
          !(executed.NeedsPeople? && executed.tasks != [] && s.job.cancelRequested && HasAuthority(s.job, a)))
  }

  /** A failing attempt, from the system its finishing write finds. */
  lemma {:induction false} FailureConcludes(s: System, f: System, a: ClaimedAttempt, executed: Executed, permanent: bool, gaps: Gaps,
                                            now: int, availableAt: int, policy: Policy)
    requires Inv(f, policy) && f == AtFinish(s, a, executed, gaps, policy)
    requires (executed.NeedsPeople? ==> executed.tasks == []) && !executed.Withdrawn?
    requires Retryable(s, a, executed) <==> !permanent
    ensures
      var (t, r) := FailWith(f, a, permanent, gaps.retry, now, availableAt, policy);
      Concluded(s, a, executed, gaps, now, policy, t, r)
  {
    if HasAuthority(f.job, a) {
      FailureIsReported(f, a, permanent, gaps.retry, now, availableAt, policy);
      var (t, r) := FailWith(f, a, permanent, gaps.retry, now, availableAt, policy);
      ClosedHasNoAuthority(t, a, if permanent then PermanentError else RetryableError, policy);
    }
  }

  lemma {:induction false} ParkingConcludes(s: System, a: ClaimedAttempt, tasks: seq<TaskId>, gaps: Gaps, now: int, policy: Policy)
    requires Inv(s, policy) && tasks != []
    ensures
      var (t, r) := Park(s, a, tasks, now, policy);
      Concluded(s, a, NeedsPeople(tasks), gaps, now, policy, t, r)
  {
    if HasAuthority(s.job, a) {
      ParkingIsReported(s, a, tasks, now, policy);
    }
  }

  lemma {:induction false} AtFinishKeepsInv(s: System, a: ClaimedAttempt, executed: Executed, gaps: Gaps, policy: Policy)
    requires Inv(s, policy)
    ensures Inv(AtFinish(s, a, executed, gaps, policy), policy)
  {
    if Uploads(a, executed) {
      NextKeepsInv(s, PutBody(executed.body), policy);
      AfterKeepsInv(Next(s, PutBody(executed.body), policy), gaps.upload, policy);
    }
  }

  lemma {:induction false} RefusedUploadConcludes(s: System, a: ClaimedAttempt, b: Body, gaps: Gaps, now: int, availableAt: int,
                                                  policy: Policy)
    requires Inv(s, policy) && !(Uploads(a, Reviewed(b, true)) && BodyAccepted(s, b))
    ensures
      var (t, r) := Submit(s, a, b, gaps, now, availableAt, policy);
      Concluded(s, a, Reviewed(b, true), gaps, now, policy, t, r)
  {
    var later := AtFinish(s, a, Reviewed(b, true), gaps, policy);
    AtFinishKeepsInv(s, a, Reviewed(b, true), gaps, policy);
    FailureConcludes(s, later, a, Reviewed(b, true), false, gaps, now, availableAt, policy);
  }

  lemma {:induction false} UploadConcludes(s: System, a: ClaimedAttempt, b: Body, gaps: Gaps, now: int, availableAt: int, policy: Policy)
    requires Inv(s, policy) && a.expectedVersion == 0 && Uploads(a, Reviewed(b, true)) && BodyAccepted(s, b)
    ensures
      var (t, r) := Submit(s, a, b, gaps, now, availableAt, policy);
      Concluded(s, a, Reviewed(b, true), gaps, now, policy, t, r)
  {
    UploadIsReported(s, a, b, gaps, now, availableAt, policy);
  }

  lemma {:induction false} ConcludeReports(s: System, a: ClaimedAttempt, executed: Executed, gaps: Gaps, now: int,
                                           availableAt: int, policy: Policy)
    requires Inv(s, policy) && a.expectedVersion == 0
    ensures
      var (t, r) := Conclude(s, a, executed, gaps, now, availableAt, policy);
      Concluded(s, a, executed, gaps, now, policy, t, r)
  {
    if executed.Reviewed? && executed.ownRun {
      if Uploads(a, executed) && BodyAccepted(s, executed.body) {
        UploadConcludes(s, a, executed.body, gaps, now, availableAt, policy);
      } else {
        RefusedUploadConcludes(s, a, executed.body, gaps, now, availableAt, policy);
      }
    } else if executed.NeedsPeople? && executed.tasks != [] {
      ParkingConcludes(s, a, executed.tasks, gaps, now, policy);
    } else if !executed.Withdrawn? {
      FailureConcludes(s, s, a, executed, !Retryable(s, a, executed), gaps, now, availableAt, policy);
    }
  }

  /** Only a publication changes a result version, and it ends the job. */
  lemma {:induction false} VersionIsZero(s: System, a: ClaimedAttempt, policy: Policy)
    requires Inv(s, policy) && HasAuthority(s.job, a)
    ensures s.job.runs[a.runId].resultVersion == 0
  {
  }

  /**
   Whatever others do, between the writes as well, an attempt that owned its lease answers
   superseded exactly when its execution withdrew, when it lost the lease during its upload, or
   when it was overtaken after it had closed itself. A withdrawn attempt leaves everything as it
   was, its lease included; an overtaken one, and every one that answers something else, has
   closed itself. The report agrees with the stored status except in one case: it parked for a
   human after a cancel had been recorded.
   */
  lemma {:induction false} ReportIsHonestExactly(s: System, a: ClaimedAttempt, executed: Executed, gaps: Gaps, now: int,
                                                 availableAt: int, policy: Policy)
    requires Reachable(s, policy) && HasAuthority(s.job, a) && a.expectedVersion == s.job.runs[a.runId].resultVersion
    ensures s.job.currentRun in s.job.runs
    ensures a.attemptId < |s.job.attempts| && s.job.attempts[a.attemptId].outcome.None?
    ensures
      var (t, r) := Conclude(s, a, executed, gaps, now, availableAt, policy);
      && (Honest(r, t.job.status) <==> !(executed.NeedsPeople? && executed.tasks != [] && s.job.cancelRequested))
      && (r == Superseded <==>
            executed.Withdrawn? || LostLease(s, a, executed, gaps, policy) || Overtaken(s, a, executed, gaps, now, policy))
      && (executed.Withdrawn? ==> t == s)
      && (!executed.Withdrawn? && !LostLease(s, a, executed, gaps, policy) ==> exists event :: ClosedAs(t, a, event))
  {
    ReachableInv(s, policy);
    AuthorityIsLatestClaim(s.job, a);
    VersionIsZero(s, a, policy);
    ConcludeReports(s, a, executed, gaps, now, availableAt, policy);
  }

  // ----------------------------------------------- which event ends which execution

  /** The body can be published: it is this attempt's, and no other holds its slot. */
  predicate Acceptable(s: System, a: ClaimedAttempt, body: Body) {
    && body.runId == a.runId && body.version == a.expectedVersion + 1
    && ((body.runId, body.version) in s.bodies ==> s.bodies[(body.runId, body.version)] == body)
  }

  /** What the attempt must be recorded as, if it still owns its lease when it ends. */
  function ClosingEvent(s: System, a: ClaimedAttempt, executed: Executed): Option<Event> {
    match executed
    case Withdrawn => None
    case Raised(true) => Some(PermanentError)
    case Raised(false) => Some(RetryableError)
    case Reviewed(_, false) => Some(PermanentError)
    case Reviewed(body, true) => Some(if Acceptable(s, a, body) then PublishResult else RetryableError)
    case NeedsPeople(tasks) => Some(if tasks == [] then RetryableError else NeedsHuman)
  }

  /** What an attempt recorded as `event` leaves and reports; `found` is what its write found. */
  ghost predicate EndedAs(event: Event, executed: Executed, found: System, availableAt: int, t: System, r: Report, policy: Policy) {
    var cancelled, spent := found.job.cancelRequested, found.job.attemptCount + 1 >= policy.maxAttempts;
    match event
    case PublishResult =>
      && r == Published && t.job.status == Succeeded && executed.Reviewed?
      && t.job.currentRun in t.job.runs && ServeResult(t) == Ok(executed.body)
    case NeedsHuman =>
      && r == Waiting && executed.NeedsPeople?
      && t.job.status == (if cancelled then Cancelled else WaitingForHuman)
      && NoDuplicates(t.job.openTasks)
      && (forall x :: x in t.job.openTasks <==> !cancelled && x in executed.tasks)
    case PermanentError => r == FailedReport && t.job.status == Failed
    case RetryableError =>
      if cancelled then r == CancelledReport && t.job.status == Cancelled
      else if spent then r == FailedReport && t.job.status == Failed
      else r == RetryScheduledReport ==> t.job.status == Queued && FreshRound(t.job) && LastRoundAt(t.job, availableAt)
    case _ => false
  }

  /** The newest round is due at that time, and was never tried. */
  predicate LastRoundAt(job: Job, at: int) {
    && |job.rounds| > 0
    && job.rounds[|job.rounds| - 1].availableAt == at && job.rounds[|job.rounds| - 1].dispatchAttempts == 0
  }

  lemma {:induction false} FailureEndsAs(s: System, a: ClaimedAttempt, executed: Executed, permanent: bool, others: seq<Step>, now: int,
                                         availableAt: int, policy: Policy)
    requires Inv(s, policy) && HasAuthority(s.job, a)
    ensures
      var (t, r) := FailWith(s, a, permanent, others, now, availableAt, policy);
      var event := if permanent then PermanentError else RetryableError;
      ClosedAs(t, a, event) && EndedAs(event, executed, s, availableAt, t, r, policy)
  {
    var job := FailureCloses(s, a, permanent, now, policy);
    FailureIsReported(s, a, permanent, others, now, availableAt, policy);
    FailureStatus(s, a, permanent, now, policy);
  }

  lemma {:induction false} FailureStatus(s: System, a: ClaimedAttempt, permanent: bool, now: int, policy: Policy)
    requires Inv(s, policy) && HasAuthority(s.job, a)
    requires Apply(s.job, Failing(a, permanent, now), policy).Ok?
    ensures
      var job := Apply(s.job, Failing(a, permanent, now), policy).value;
      if permanent then job.status == Failed
      else if s.job.cancelRequested then job.status == Cancelled
      else job.status == (if s.job.attemptCount + 1 >= policy.maxAttempts then Failed else RetryableFailed)
  {
  }

  lemma {:induction false} ParkingEndsAs(s: System, a: ClaimedAttempt, tasks: seq<TaskId>, now: int, availableAt: int, policy: Policy)
    requires Inv(s, policy) && HasAuthority(s.job, a) && tasks != []
    ensures
      var (t, r) := Park(s, a, tasks, now, policy);
      ClosedAs(t, a, NeedsHuman) && EndedAs(NeedsHuman, NeedsPeople(tasks), s, availableAt, t, r, policy)
  {
    ParkingIsReported(s, a, tasks, now, policy);
  }

  lemma {:induction false} UploadEndsAs(s: System, a: ClaimedAttempt, b: Body, gaps: Gaps, now: int, availableAt: int, policy: Policy)
    requires Inv(s, policy) && a.expectedVersion == 0 && Acceptable(s, a, b)
    requires HasAuthority(AtFinish(s, a, Reviewed(b, true), gaps, policy).job, a)
    ensures
      var (t, r) := Submit(s, a, b, gaps, now, availableAt, policy);
      var found := AtFinish(s, a, Reviewed(b, true), gaps, policy);
      ClosedAs(t, a, PublishResult) && EndedAs(PublishResult, Reviewed(b, true), found, availableAt, t, r, policy)
  {
    UploadIsReported(s, a, b, gaps, now, availableAt, policy);
    UploadStands(s, b, gaps.upload, policy);
    CommitSucceeds(AtFinish(s, a, Reviewed(b, true), gaps, policy), a, b, now, policy);
  }

  /** An attempt that owns its lease when it ends is recorded as its execution asks for: a review
      published, people waited for, a fault classified; nothing else is ever recorded for it. */
  lemma {:induction false} EndsAsExecuted(s: System, a: ClaimedAttempt, executed: Executed, gaps: Gaps, now: int, availableAt: int,
                                          policy: Policy)
    requires Inv(s, policy) && a.expectedVersion == 0 && !executed.Withdrawn?
    requires HasAuthority(AtFinish(s, a, executed, gaps, policy).job, a)
    ensures
      var (t, r) := Conclude(s, a, executed, gaps, now, availableAt, policy);
      var event := ClosingEvent(s, a, executed).value;
      ClosedAs(t, a, event) && EndedAs(event, executed, AtFinish(s, a, executed, gaps, policy), availableAt, t, r, policy)
  {
    AtFinishKeepsInv(s, a, executed, gaps, policy);
    var found := AtFinish(s, a, executed, gaps, policy);
    if executed.Reviewed? && executed.ownRun && Acceptable(s, a, executed.body) {
      UploadEndsAs(s, a, executed.body, gaps, now, availableAt, policy);
    } else if executed.NeedsPeople? && executed.tasks != [] {
      ParkingEndsAs(s, a, executed.tasks, now, availableAt, policy);
    } else {
      FailureEndsAs(found, a, executed, !Retryable(s, a, executed), gaps.retry, now, availableAt, policy);
    }
  }

  /** A finished review of the attempt's own run is published, and served, if and only if its
      upload is accepted and the lease outlives the gap between upload and commit. */
  lemma {:induction false} ReviewIsPublishedExactly(s: System, a: ClaimedAttempt, b: Body, gaps: Gaps, now: int, availableAt: int,
                                                    policy: Policy)
    requires Reachable(s, policy) && HasAuthority(s.job, a) && a.expectedVersion == s.job.runs[a.runId].resultVersion
    ensures s.job.currentRun in s.job.runs
    ensures
      var (t, r) := Conclude(s, a, Reviewed(b, true), gaps, now, availableAt, policy);
      var published := r == Published && t.job.status == Succeeded && t.job.currentRun in t.job.runs && ServeResult(t) == Ok(b);
      && (published <==> Acceptable(s, a, b) && HasAuthority(After(Next(s, PutBody(b), policy), gaps.upload, policy).job, a))
      && (r == Published ==> published)
  {
    ReachableInv(s, policy);
    AuthorityIsLatestClaim(s.job, a);
    VersionIsZero(s, a, policy);
    ConcludeReports(s, a, Reviewed(b, true), gaps, now, availableAt, policy);
    if HasAuthority(AtFinish(s, a, Reviewed(b, true), gaps, policy).job, a) {
      EndsAsExecuted(s, a, Reviewed(b, true), gaps, now, availableAt, policy);
    }
  }

  /** The one report that misleads: any running attempt whose job has a cancel recorded. */
  lemma {:induction false} WaitingReportOfACancelledJob(s: System, a: ClaimedAttempt, task: TaskId, gaps: Gaps, now: int, policy: Policy)
    requires Reachable(s, policy) && HasAuthority(s.job, a) && s.job.cancelRequested
    ensures s.job.currentRun in s.job.runs
    ensures
      var (t, r) := Conclude(s, a, NeedsPeople([task]), gaps, now, now, policy);
      r == Waiting && t.job.status == Cancelled
  {
    ReachableInv(s, policy);
    ParkingIsReported(s, a, [task], now, policy);
  }

  lemma {:induction false} CancelEndsARetry(s: System, now: int, policy: Policy)
    requires Inv(s, policy) && s.job.status == RetryableFailed
    ensures After(s, [StoreWrite(CancelJob(now))], policy) == Next(s, StoreWrite(CancelJob(now)), policy)
    ensures Next(s, StoreWrite(CancelJob(now)), policy).job.status == Cancelled
  {
    assert [StoreWrite(CancelJob(now))][1..] == [];
  }

  /** The other uninformative one: a cancel between the two writes of `fail` makes any running
      attempt with a retry left answer superseded, though nobody took its lease. */
  lemma {:induction false} SupersededByACancel(s: System, a: ClaimedAttempt, now: int, policy: Policy)
    requires Reachable(s, policy) && HasAuthority(s.job, a)
    requires !s.job.cancelRequested && s.job.attemptCount + 1 < policy.maxAttempts
    ensures s.job.currentRun in s.job.runs
    ensures
      var (t, r) := Conclude(s, a, Raised(false), Gaps([], [StoreWrite(CancelJob(now))]), now, now, policy);
      r == Superseded && t.job.status == Cancelled && ClosedAs(t, a, RetryableError)
  {
    ReachableInv(s, policy);
    var job := FailureCloses(s, a, false, now, policy);
    CancelEndsARetry(s.(job := job), now, policy);
    FailureIsReported(s, a, false, [StoreWrite(CancelJob(now))], now, now, policy);
  }

  lemma {:induction false} OthersKeepOutcomes(job: Job, w: Write, after: Job, policy: Policy, i: nat)
    requires job.currentRun in job.runs && !w.Finish? && Apply(job, w, policy) == Ok(after) && i < |job.attempts|
    ensures i < |after.attempts| && after.attempts[i] == job.attempts[i]
  {
  }

  lemma {:induction false} FinishKeepsOutcomes(job: Job, w: Write, after: Job, policy: Policy, i: nat)
    requires LeaseInv(job) && w.Finish? && Finished(job, w, policy) == Ok(after)
    requires i < |job.attempts| && job.attempts[i].outcome.Some?
    ensures i < |after.attempts| && after.attempts[i] == job.attempts[i]
  {
    AuthorityIsLatestClaim(job, w.attempt);
  }

  lemma {:induction false} OutcomeStays(s: System, step: Step, policy: Policy, i: nat)
    requires Inv(s, policy) && i < |s.job.attempts| && s.job.attempts[i].outcome.Some?
    ensures i < |Next(s, step, policy).job.attempts| && Next(s, step, policy).job.attempts[i] == s.job.attempts[i]
  {
    if step.StoreWrite? && Disciplined(s, step.write) {
      var r := Apply(s.job, step.write, policy);
      if r.Ok? {
        if step.write.Finish? {
          FinishKeepsOutcomes(s.job, step.write, r.value, policy, i);
        } else {
          OthersKeepOutcomes(s.job, step.write, r.value, policy, i);
        }
      }
    }
  }

  /** The event that finished an attempt is never replaced: an attempt ends at most once. */
  lemma {:induction false} AttemptEndsOnce(s: System, steps: seq<Step>, policy: Policy, i: nat)
    requires Inv(s, policy) && i < |s.job.attempts| && s.job.attempts[i].outcome.Some?
    ensures i < |After(s, steps, policy).job.attempts| && After(s, steps, policy).job.attempts[i] == s.job.attempts[i]
    decreases |steps|
  {
    if steps != [] {
      OutcomeStays(s, steps[0], policy, i);
      NextKeepsInv(s, steps[0], policy);
      AttemptEndsOnce(Next(s, steps[0], policy), steps[1..], policy, i);
    }
  }

  // ------------------------------------------------------------------- the whole of `process`

  /** Other processes' steps. */
  method Play(s: System, steps: seq<Step>, policy: Policy) returns (t: System)
    requires Inv(s, policy)
    ensures Inv(t, policy) && t == After(s, steps, policy)
  {
    t := s;
    for i := 0 to |steps|
      invariant Inv(t, policy) && After(t, steps[i..], policy) == After(s, steps, policy)
    {
      NextKeepsInv(t, steps[i], policy);
      assert steps[i..][1..] == steps[i + 1..];
      t := Next(t, steps[i], policy);
    }
    assert steps[|steps|..] == [];
  }

  /** `acknowledge_cancel` after a cancel was seen; a lost condition means another attempt owns the job. */
  function Acknowledge(s: System, a: ClaimedAttempt, now: int, policy: Policy): (System, Report)
    requires s.job.currentRun in s.job.runs
  {
    match Apply(s.job, Finish(a, CancelAcknowledged, now, None, [], None), policy)
    case Err(_) => (s, Superseded)
    case Ok(job) => (s.(job := job), CancelledReport)
  }

  lemma {:induction false} AcknowledgementReports(s: System, a: ClaimedAttempt, now: int, policy: Policy)
    requires Inv(s, policy) && s.job.cancelRequested
    ensures
      var (t, r) := Acknowledge(s, a, now, policy);
      && Reported(t, r, a, Raised(false)) && Inv(t, policy)
      && (if HasAuthority(s.job, a) then ClosedAs(t, a, CancelAcknowledged) && t.job.status == Cancelled && r == CancelledReport
          else t == s && r == Superseded)
  {
    var w := Finish(a, CancelAcknowledged, now, None, [], None);
    var r := Apply(s.job, w, policy);
    if HasAuthority(s.job, a) {
      AuthorityIsLatestClaim(s.job, a);
    }
    if r.Ok? {
      FinishKeepsInv(s, w, r.value, policy);
      assert ClosedAs(s.(job := r.value), a, CancelAcknowledged);
    }
  }

  lemma {:induction false} CancelSticksOnce(job: Job, w: Write, after: Job, policy: Policy)
    requires job.currentRun in job.runs && job.cancelRequested && Apply(job, w, policy) == Ok(after)
    ensures after.cancelRequested
  {
  }

  /** A recorded cancel is never withdrawn. */
  lemma {:induction false} CancelSticks(s: System, steps: seq<Step>, policy: Policy)
    requires s.job.cancelRequested
    ensures After(s, steps, policy).job.cancelRequested
    decreases |steps|
  {
    if steps != [] {
      if steps[0].StoreWrite? && s.job.currentRun in s.job.runs && Apply(s.job, steps[0].write, policy).Ok? {
        CancelSticksOnce(s.job, steps[0].write, Apply(s.job, steps[0].write, policy).value, policy);
      }
      CancelSticks(Next(s, steps[0], policy), steps[1..], policy);
    }
  }

  /** One wait of the heartbeat loop: what others did, whether the deadline had passed before or
      after the heartbeat, whether the execution was over. */
  datatype Beat = Beat(others: seq<Step>, late: bool, over: bool, now: int, lateAfter: bool)

  /** How a call came to its end, and the system at that moment. */
  datatype Course =
    | OverAt(system: System)
    | CancelSeenAt(system: System)
    | GoneAt(system: System)
    | LateAt(system: System)

  function Beating(a: ClaimedAttempt, beat: Beat, policy: Policy): Write {
    HeartbeatLease(a, policy.leaseSeconds, beat.now)
  }

  /** The heartbeat loop; extending the lease is its only write. */
  function Watch(s: System, a: ClaimedAttempt, beats: seq<Beat>, policy: Policy): Course
    decreases |beats|
  {
    if beats == [] then LateAt(s)
    else
      var beat := beats[0];
      var u := After(s, beat.others, policy);
      if beat.late then LateAt(u)
      else if u.job.currentRun !in u.job.runs || Apply(u.job, Beating(a, beat, policy), policy).Err? then GoneAt(u)
      else
        var v := u.(job := Apply(u.job, Beating(a, beat, policy), policy).value);
        if v.job.cancelRequested then CancelSeenAt(v)
        else if beat.lateAfter then LateAt(v)
        else if beat.over then OverAt(v)
        else Watch(v, a, beats[1..], policy)
  }

  /** From the claim on: the first look at the job, then the loop. */
  function CourseOf(s: System, a: ClaimedAttempt, first: seq<Step>, beats: seq<Beat>, policy: Policy): Course {
    var u := After(s, first, policy);
    if u.job.currentRun != a.runId then GoneAt(u)
    else if u.job.cancelRequested then CancelSeenAt(u)
    else Watch(u, a, beats, policy)
  }

  // The same loop, told beat by beat.

  /** The system before beat `k`, if no earlier one ended the loop. */
  function BeforeBeat(s: System, a: ClaimedAttempt, beats: seq<Beat>, k: nat, policy: Policy): System
    requires k <= |beats|
  {
    if k == 0 then s
    else
      var found := After(BeforeBeat(s, a, beats, k - 1, policy), beats[k - 1].others, policy);
      Next(found, StoreWrite(Beating(a, beats[k - 1], policy)), policy)
  }

  /** What beat `k` finds. */
  function SeenAt(s: System, a: ClaimedAttempt, beats: seq<Beat>, k: nat, policy: Policy): System
    requires k < |beats|
  {
    After(BeforeBeat(s, a, beats, k, policy), beats[k].others, policy)
  }

  /** The course a beat ends the loop on, by what it finds; an uneventful beat ends nothing. */
  function FateAt(u: System, a: ClaimedAttempt, beat: Beat, policy: Policy): Option<Course> {
    var extended := Next(u, StoreWrite(Beating(a, beat, policy)), policy);
    if beat.late then Some(LateAt(u))
    else if !HasAuthority(u.job, a) then Some(GoneAt(u))
    else if u.job.cancelRequested then Some(CancelSeenAt(extended))
    else if beat.lateAfter then Some(LateAt(extended))
    else if beat.over then Some(OverAt(extended))
    else None
  }

  predicate Uneventful(s: System, a: ClaimedAttempt, beats: seq<Beat>, k: nat, policy: Policy)
    requires k < |beats|
  {
    FateAt(SeenAt(s, a, beats, k, policy), a, beats[k], policy).None?
  }

  lemma {:induction false} HeartbeatExactly(s: System, a: ClaimedAttempt, beat: Beat, policy: Policy)
    requires Inv(s, policy) && ValidPolicy(policy)
    ensures Apply(s.job, Beating(a, beat, policy), policy).Ok? <==> HasAuthority(s.job, a)
    ensures HasAuthority(s.job, a) ==>
              var v := Next(s, StoreWrite(Beating(a, beat, policy)), policy);
              && Inv(v, policy) && v == s.(job := Apply(s.job, Beating(a, beat, policy), policy).value)
              && v.job.cancelRequested == s.job.cancelRequested
  {
    if HasAuthority(s.job, a) {
      HeartbeatKeepsInv(s, Beating(a, beat, policy), Apply(s.job, Beating(a, beat, policy), policy).value, policy);
    }
  }

  lemma {:induction false} OneBeat(s: System, a: ClaimedAttempt, beats: seq<Beat>, policy: Policy)
    requires Inv(s, policy) && ValidPolicy(policy) && beats != []
    ensures
      var u := After(s, beats[0].others, policy);
      var fate, v := FateAt(u, a, beats[0], policy), Next(u, StoreWrite(Beating(a, beats[0], policy)), policy);
      && Watch(s, a, beats, policy) == (if fate.Some? then fate.value else Watch(v, a, beats[1..], policy))
      && (fate.None? ==> Inv(v, policy))
  {
    var u := After(s, beats[0].others, policy);
    AfterKeepsInv(s, beats[0].others, policy);
    HeartbeatExactly(u, a, beats[0], policy);
  }

  /** The first `k` beats end nothing. */
  ghost predicate QuietUntil(s: System, a: ClaimedAttempt, beats: seq<Beat>, k: nat, policy: Policy)
    requires k <= |beats|
  {
    k == 0 || (QuietUntil(s, a, beats, k - 1, policy) && Uneventful(s, a, beats, k - 1, policy))
  }

  lemma {:induction false} QuietUntilEach(s: System, a: ClaimedAttempt, beats: seq<Beat>, k: nat, policy: Policy)
    requires k <= |beats| && forall i: nat :: i < k ==> Uneventful(s, a, beats, i, policy)
    ensures QuietUntil(s, a, beats, k, policy)
  {
    if k > 0 {
      QuietUntilEach(s, a, beats, k - 1, policy);
    }
  }

  lemma {:induction false} StillWatching(s: System, a: ClaimedAttempt, beats: seq<Beat>, k: nat, policy: Policy) returns (here: System)
    requires Inv(s, policy) && ValidPolicy(policy) && k <= |beats| && QuietUntil(s, a, beats, k, policy)
    ensures here == BeforeBeat(s, a, beats, k, policy) && Inv(here, policy)
    ensures Watch(s, a, beats, policy) == Watch(here, a, beats[k..], policy)
    decreases k
  {
    if k == 0 {
      here := s;
      assert beats[0..] == beats;
    } else {
      var before := StillWatching(s, a, beats, k - 1, policy);
      here := BeatPasses(s, a, beats, k, before, policy);
    }
  }

  lemma {:induction false} BeatPasses(s: System, a: ClaimedAttempt, beats: seq<Beat>, k: nat, before: System, policy: Policy)
    returns (here: System)
    requires ValidPolicy(policy) && 0 < k <= |beats|
    requires before == BeforeBeat(s, a, beats, k - 1, policy) && Inv(before, policy) && Uneventful(s, a, beats, k - 1, policy)
    ensures here == BeforeBeat(s, a, beats, k, policy) && Inv(here, policy)
    ensures Watch(before, a, beats[k - 1..], policy) == Watch(here, a, beats[k..], policy)
  {
    var rest := beats[k - 1..];
    assert rest[0] == beats[k - 1] && rest[1..] == beats[k..];
    OneBeat(before, a, rest, policy);
    here := BeforeBeat(s, a, beats, k, policy);
  }

  /** The first eventful beat decides the course by what it finds; without one, time runs out. */
  lemma {:induction false} CourseDecidedAt(s: System, a: ClaimedAttempt, beats: seq<Beat>, k: nat, policy: Policy)
    requires Inv(s, policy) && ValidPolicy(policy) && k <= |beats|
    requires forall i: nat :: i < k ==> Uneventful(s, a, beats, i, policy)
    ensures k == |beats| ==> Watch(s, a, beats, policy) == LateAt(BeforeBeat(s, a, beats, k, policy))
    ensures k < |beats| && !Uneventful(s, a, beats, k, policy) ==>
              Some(Watch(s, a, beats, policy)) == FateAt(SeenAt(s, a, beats, k, policy), a, beats[k], policy)
  {
    QuietUntilEach(s, a, beats, k, policy);
    var here := StillWatching(s, a, beats, k, policy);
    if k < |beats| {
      assert beats[k..][0] == beats[k];
      OneBeat(here, a, beats[k..], policy);
    }
  }

  /** An attempt nobody interferes with, over at its first heartbeat, ends as its execution asks. */
  lemma {:induction false} QuietCourseIsOver(s: System, a: ClaimedAttempt, beat: Beat, policy: Policy)
    requires Inv(s, policy) && ValidPolicy(policy) && HasAuthority(s.job, a) && !s.job.cancelRequested
    requires beat.others == [] && !beat.late && !beat.lateAfter && beat.over
    ensures CourseOf(s, a, [], [beat], policy) == OverAt(Next(s, StoreWrite(Beating(a, beat, policy)), policy))
  {
    AuthorityIsLatestClaim(s.job, a);
    assert After(s, [], policy) == s;
    OneBeat(s, a, [beat], policy);
  }

  /** The heartbeat loop as the worker runs it. */
  method WatchExecution(s: System, a: ClaimedAttempt, beats: seq<Beat>, policy: Policy) returns (c: Course)
    requires Inv(s, policy) && ValidPolicy(policy)
    ensures c == Watch(s, a, beats, policy) && Settled(c, a, policy)
  {
    var t := s;
    for i := 0 to |beats|
      invariant Inv(t, policy) && Watch(t, a, beats[i..], policy) == Watch(s, a, beats, policy)
    {
      var beat := beats[i];
      assert beats[i..][0] == beat && beats[i..][1..] == beats[i + 1..];
      t := Play(t, beat.others, policy);
      if beat.late {
        return LateAt(t);
      }
      HeartbeatExactly(t, a, beat, policy);
      var r := Apply(t.job, Beating(a, beat, policy), policy);
      if r.Err? {
        return GoneAt(t);
      }
      t := t.(job := r.value);
      if t.job.cancelRequested {
        return CancelSeenAt(t);
      }
      if beat.lateAfter {
        return LateAt(t);
      }
      if beat.over {
        return OverAt(t);
      }
    }
    c := LateAt(t);
  }

  /** What is known where a call came to its end. */
  ghost predicate Settled(c: Course, a: ClaimedAttempt, policy: Policy) {
    && Inv(c.system, policy)
    && (c.CancelSeenAt? ==> c.system.job.cancelRequested)
    && (c.GoneAt? ==> !HasAuthority(c.system.job, a))
  }

  method Attend(s: System, a: ClaimedAttempt, first: seq<Step>, beats: seq<Beat>, policy: Policy) returns (c: Course)
    requires Inv(s, policy) && ValidPolicy(policy)
    ensures c == CourseOf(s, a, first, beats, policy) && Settled(c, a, policy)
  {
    var t := Play(s, first, policy);
    if t.job.currentRun != a.runId {
      return GoneAt(t);
    }
    if t.job.cancelRequested {
      return CancelSeenAt(t);
    }
    c := WatchExecution(t, a, beats, policy);
  }

  /** How a call that took this course has ended its attempt: not at all once the lease was gone,
      by acknowledging a cancel it saw, as a retryable failure when time ran out, and as what its
      execution produced when that was over in time. */
  ghost predicate EndedOn(c: Course, a: ClaimedAttempt, executed: Executed, last: seq<Step>, gaps: Gaps, now: int, availableAt: int,
                          policy: Policy, t: System, r: Report)
  {
    var m := After(c.system, last, policy);
    match c
    case GoneAt(u) => t == u && r == Superseded
    case CancelSeenAt(_) =>
      if HasAuthority(m.job, a) then ClosedAs(t, a, CancelAcknowledged) && t.job.status == Cancelled && r == CancelledReport
      else t == m && r == Superseded
    case LateAt(_) => EndedBy(m, a, Raised(false), gaps, now, availableAt, policy, t, r)
    case OverAt(_) => EndedBy(m, a, executed, gaps, now, availableAt, policy, t, r)
  }

  ghost predicate EndedBy(s: System, a: ClaimedAttempt, executed: Executed, gaps: Gaps, now: int, availableAt: int, policy: Policy,
                          t: System, r: Report)
  {
    && Concluded(s, a, executed, gaps, now, policy, t, r)
    && (var found := AtFinish(s, a, executed, gaps, policy);
        var event := ClosingEvent(s, a, executed);
        event.Some? && HasAuthority(found.job, a) ==>
          ClosedAs(t, a, event.value) && EndedAs(event.value, executed, found, availableAt, t, r, policy))
  }

  /** `process`: one claim, any number of heartbeats, at most one finishing event. Whatever other
      processes do between any two of its store accesses, the report tells the state it left,
      with the one exception of a parking that a recorded cancel turned into a cancellation; a
      superseded call has no authority left unless its execution withdrew, any other has closed
      its attempt, by the event its course asks for. */
  method Process(s: System, runId: RunId, owner: nat, first: seq<Step>, beats: seq<Beat>, executed: Executed, last: seq<Step>,
                 gaps: Gaps, now: int, availableAt: int, policy: Policy)
    returns (t: System, r: Report, a: Option<ClaimedAttempt>)
    requires Inv(s, policy) && ValidPolicy(policy)
    ensures a.None? <==> Apply(s.job, ClaimRun(runId, owner, policy.leaseSeconds, now), policy).Err?
    ensures a.None? ==> t == s && r == Superseded
    ensures a.Some? ==> a.value.attemptId == |s.job.attempts| && a.value.runId == runId && Reported(t, r, a.value, executed)
    ensures a.Some? ==>
              var claimed := Next(s, StoreWrite(ClaimRun(runId, owner, policy.leaseSeconds, now)), policy);
              && HasAuthority(claimed.job, a.value)
              && EndedOn(CourseOf(claimed, a.value, first, beats, policy), a.value, executed, last, gaps, now, availableAt, policy, t, r)
    ensures Inv(t, policy)
  {
    t, a := ClaimFor(s, runId, owner, now, policy);
    if a.None? {
      return s, Superseded, None;
    }
    var c := Attend(t, a.value, first, beats, policy);
    t, r := Ending(c, a.value, executed, last, gaps, now, availableAt, policy);
  }

  /** `claim`. */
  method ClaimFor(s: System, runId: RunId, owner: nat, now: int, policy: Policy) returns (t: System, a: Option<ClaimedAttempt>)
    requires Inv(s, policy) && ValidPolicy(policy)
    ensures a.None? <==> Apply(s.job, ClaimRun(runId, owner, policy.leaseSeconds, now), policy).Err?
    ensures a.None? ==> t == s
    ensures t == Next(s, StoreWrite(ClaimRun(runId, owner, policy.leaseSeconds, now)), policy) && Inv(t, policy)
    ensures a.Some? ==>
              && HasAuthority(t.job, a.value) && a.value.expectedVersion == 0
              && a.value.attemptId == |s.job.attempts| && a.value.runId == runId
  {
    var claim := Apply(s.job, ClaimRun(runId, owner, policy.leaseSeconds, now), policy);
    if claim.Err? {
      return s, None;
    }
    ClaimKeepsInv(s, ClaimRun(runId, owner, policy.leaseSeconds, now), claim.value, policy);
    t := s.(job := claim.value);
    a := Some(ClaimedAttempt(runId, |s.job.attempts|, owner, t.job.runs[runId].token, 0));
  }

  method Ending(c: Course, a: ClaimedAttempt, executed: Executed, last: seq<Step>, gaps: Gaps, now: int, availableAt: int, policy: Policy)
    returns (t: System, r: Report)
    requires Settled(c, a, policy) && a.expectedVersion == 0
    ensures Reported(t, r, a, executed) && Inv(t, policy)
    ensures EndedOn(c, a, executed, last, gaps, now, availableAt, policy, t, r)
  {
    if c.GoneAt? {
      return c.system, Superseded;
    }
    t := Play(c.system, last, policy);
    if c.CancelSeenAt? {
      CancelSticks(c.system, last, policy);
      AcknowledgementReports(t, a, now, policy);
      var (after, report) := Acknowledge(t, a, now, policy);
      return after, report;
    }
    var outcome := if c.OverAt? then executed else Raised(false);
    ConcludesBy(t, a, outcome, gaps, now, availableAt, policy);
    var (after, report) := Conclude(t, a, outcome, gaps, now, availableAt, policy);
    t, r := after, report;
  }

  lemma {:induction false} ConcludesBy(s: System, a: ClaimedAttempt, executed: Executed, gaps: Gaps, now: int, availableAt: int,
                                       policy: Policy)
    requires Inv(s, policy) && a.expectedVersion == 0
    ensures
      var (t, r) := Conclude(s, a, executed, gaps, now, availableAt, policy);
      EndedBy(s, a, executed, gaps, now, availableAt, policy, t, r)
  {
    ConcludeReports(s, a, executed, gaps, now, availableAt, policy);
    if !executed.Withdrawn? && HasAuthority(AtFinish(s, a, executed, gaps, policy).job, a) {
      EndsAsExecuted(s, a, executed, gaps, now, availableAt, policy);
    }
  }
}
