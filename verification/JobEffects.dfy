/**
 What every write of the job store does, read field by field (`application/job_state.py`,
 `adapters/local/job_store.py`): which writes are accepted in which states of a job, where the
 status goes, and who may touch each field. The status machine itself is not mentioned.
 */
module JobEffects {
  import opened Common
  import opened JobState
  import opened JobStore
  import opened JobLifecycle

  /** The caller is the job's latest claim, still open. */
  ghost predicate IsLatest(job: Job, a: ClaimedAttempt) {
    && job.status == Running
    && |job.attempts| == a.attemptId + 1
    && job.attempts[a.attemptId] == Attempt(a.runId, a.token, a.owner, None)
  }

  ghost predicate Over(job: Job) {
    job.status == Failed || job.status == Succeeded || job.status == Cancelled
  }

  /** One more failure, one more lost lease, is the last. */
  ghost predicate LastTry(job: Job, policy: Policy) {
    job.attemptCount == policy.maxAttempts - 1
  }

  ghost predicate LastTakeover(job: Job, policy: Policy) {
    job.leaseTakeoverCount == policy.maxLeaseTakeovers - 1
  }

  // ------------------------------------------------------------------------- acceptance

  ghost predicate AcceptsFinish(job: Job, w: Write, policy: Policy)
    requires w.Finish?
  {
    && IsLatest(job, w.attempt)
    && (w.event == PublishResult <==> w.result.Some?)
    && match w.event
       case PublishResult =>
         && w.attempt.expectedVersion == 0
         && w.result.value.runId == w.attempt.runId && w.result.value.version == 1 && w.result.value.token == w.attempt.token
       case NeedsHuman => job.cancelRequested || w.tasks != []
       case RetryableError => job.cancelRequested || !LastTry(job, policy) || w.problem.Some?
       case PermanentError => w.problem.Some?
       case CancelAcknowledged => job.cancelRequested
       case _ => false
  }

  ghost predicate Accepts(job: Job, w: Write, policy: Policy)
    requires job.currentRun in job.runs
  {
    var run := job.runs[job.currentRun];
    match w
    case ClaimRun(id, _, seconds, _) => seconds >= 1 && id == job.currentRun && job.status in {Queued, Dispatched, RetryableFailed}
    case HeartbeatLease(a, seconds, _) => seconds >= 1 && IsLatest(job, a)
    case Finish(_, _, _, _, _, _) => AcceptsFinish(job, w, policy)
    case ExpireLease(id, token, now) =>
      id == job.currentRun && token == run.token && run.lease.Some? && now >= run.lease.value.expiresAt
    case CancelJob(_) => !Over(job)
    case RetryLater(_, _) => job.status == RetryableFailed
    case RejectTask(id, task, _) => job.status == WaitingForHuman && id == job.currentRun && task in job.openTasks
    case Resume(next, _) =>
      && job.status == WaitingForHuman
      && next.runId !in job.runs && next.revision != run.revision && next.caseId == job.caseId && !next.hasAttempt
    case MarkDispatched(i, _) => i < |job.rounds| && job.rounds[i].state == Pending
    case Reschedule(i, _) => i < |job.rounds| && job.rounds[i].state == Pending
  }

  /** How a write that is not accepted is refused. */
  ghost function RefusalOf(job: Job, w: Write): StoreError {
    match w
    case ClaimRun(_, _, seconds, _) => if seconds < 1 then Invalid else Lost
    case HeartbeatLease(_, seconds, _) => if seconds < 1 then Invalid else Lost
    case Finish(a, event, _, _, tasks, result) =>
      if event !in {PublishResult, NeedsHuman, RetryableError, PermanentError, CancelAcknowledged} then Invalid
      else if !IsLatest(job, a) then Lost
      else if !job.cancelRequested && ((event == NeedsHuman && tasks == []) || event == CancelAcknowledged) then Fault
      else if event == PublishResult && result.Some? then Lost
      else Invalid
    case CancelJob(_) => Fault
    case RejectTask(id, task, _) => if id == job.currentRun && task in job.openTasks then Fault else Lost
    case Resume(next, _) =>
      if && next.runId !in job.runs && next.caseId == job.caseId && !next.hasAttempt
         && job.currentRun in job.runs && next.revision != job.runs[job.currentRun].revision
      then Fault else Lost
    case _ => Lost
  }

  lemma {:induction false} AuthorityIsLatest(s: System, a: ClaimedAttempt, policy: Policy)
    requires Inv(s, policy)
    ensures HasAuthority(s.job, a) <==> IsLatest(s.job, a)
  {
  }

  lemma {:induction false} FinishAcceptedExactly(s: System, w: Write, policy: Policy)
    requires Inv(s, policy) && w.Finish?
    ensures Finished(s.job, w, policy).Ok? <==> AcceptsFinish(s.job, w, policy)
    ensures Finished(s.job, w, policy).Err? ==> Finished(s.job, w, policy).error == RefusalOf(s.job, w)
  {
    AuthorityIsLatest(s, w.attempt, policy);
  }

  lemma {:induction false} LeaseAcceptedExactly(s: System, w: Write, policy: Policy)
    requires Inv(s, policy) && (w.ClaimRun? || w.HeartbeatLease? || w.ExpireLease?)
    ensures Apply(s.job, w, policy).Ok? <==> Accepts(s.job, w, policy)
    ensures Apply(s.job, w, policy).Err? ==> Apply(s.job, w, policy).error == RefusalOf(s.job, w)
  {
    if w.HeartbeatLease? {
      AuthorityIsLatest(s, w.attempt, policy);
    }
  }

  lemma {:induction false} PersonAcceptedExactly(s: System, w: Write, policy: Policy)
    requires Inv(s, policy) && (w.CancelJob? || w.RejectTask? || w.Resume?)
    ensures Apply(s.job, w, policy).Ok? <==> Accepts(s.job, w, policy)
    ensures Apply(s.job, w, policy).Err? ==> Apply(s.job, w, policy).error == RefusalOf(s.job, w)
  {
  }

  lemma {:induction false} OutboxAcceptedExactly(s: System, w: Write, policy: Policy)
    requires Inv(s, policy) && (w.RetryLater? || w.MarkDispatched? || w.Reschedule?)
    ensures Apply(s.job, w, policy).Ok? <==> Accepts(s.job, w, policy)
    ensures Apply(s.job, w, policy).Err? ==> Apply(s.job, w, policy).error == RefusalOf(s.job, w)
  {
  }

  /** A write succeeds exactly in these states, and is refused in exactly one way otherwise. */
  lemma {:induction false} AcceptedExactly(s: System, w: Write, policy: Policy)
    requires Inv(s, policy)
    ensures Apply(s.job, w, policy).Ok? <==> Accepts(s.job, w, policy)
    ensures Apply(s.job, w, policy).Err? ==> Apply(s.job, w, policy).error == RefusalOf(s.job, w)
  {
    if w.Finish? {
      FinishAcceptedExactly(s, w, policy);
    } else if w.ClaimRun? || w.HeartbeatLease? || w.ExpireLease? {
      LeaseAcceptedExactly(s, w, policy);
    } else if w.CancelJob? || w.RejectTask? || w.Resume? {
      PersonAcceptedExactly(s, w, policy);
    } else {
      OutboxAcceptedExactly(s, w, policy);
    }
  }

  // ----------------------------------------------------------------------------- effects

  ghost predicate CancelledBy(job: Job, w: Write) {
    match w
    case Finish(_, event, _, _, _, _) => event == CancelAcknowledged || (job.cancelRequested && event in {NeedsHuman, RetryableError})
    case ExpireLease(_, _, _) => job.cancelRequested
    case CancelJob(_) => job.status != Running
    case _ => false
  }

  ghost predicate FailedBy(job: Job, w: Write, policy: Policy) {
    && !CancelledBy(job, w)
    && match w
       case Finish(_, event, _, _, _, _) => event == PermanentError || (event == RetryableError && LastTry(job, policy))
       case ExpireLease(_, _, _) => LastTakeover(job, policy)
       case RejectTask(_, task, _) => forall t :: t in job.openTasks ==> t == task
       case _ => false
  }

  ghost predicate QueuedBy(job: Job, w: Write, policy: Policy) {
    match w
    case RetryLater(_, _) => true
    case Resume(_, _) => true
    case ExpireLease(_, _, _) => !job.cancelRequested && !LastTakeover(job, policy)
    case _ => false
  }

  /** The status after an accepted write. */
  ghost function StatusAfter(job: Job, w: Write, policy: Policy): Status {
    if CancelledBy(job, w) then Cancelled
    else if FailedBy(job, w, policy) then Failed
    else if QueuedBy(job, w, policy) then Queued
    else
      match w
      case ClaimRun(_, _, _, _) => Running
      case Finish(_, event, _, _, _, _) =>
        if event == PublishResult then Succeeded else if event == NeedsHuman then WaitingForHuman else RetryableFailed
      case MarkDispatched(_, _) => if job.status == Queued then Dispatched else job.status
      case _ => job.status
  }

  ghost predicate StatusMoves(job: Job, w: Write, policy: Policy, after: Job) {
    && after.status == StatusAfter(job, w, policy)
    && (after.cancelRequested <==> job.cancelRequested || (w.CancelJob? && job.status == Running))
    && after.caseId == job.caseId
    && after.currentRun == (if w.Resume? then w.run.runId else job.currentRun)
  }

  /** The two counters: a failure that may be repeated, and a lost lease, unless a cancel goes first. */
  ghost predicate CountersMove(job: Job, w: Write, after: Job) {
    && after.attemptCount == job.attemptCount + (if w.Finish? && w.event == RetryableError && !job.cancelRequested then 1 else 0)
    && after.leaseTakeoverCount == job.leaseTakeoverCount + (if w.ExpireLease? && !job.cancelRequested then 1 else 0)
  }

  ghost predicate ProblemMoves(job: Job, w: Write, policy: Policy, after: Job) {
    after.problem ==
      if CancelledBy(job, w) then Some(ConflictProblem)
      else if FailedBy(job, w, policy) then
        (if w.Finish? then w.problem else if w.ExpireLease? then Some(ExecutionProblem) else Some(ConflictProblem))
      else if Over(job) then job.problem
      else None
  }

  ghost predicate TasksMove(job: Job, w: Write, after: Job) {
    && NoDuplicates(after.openTasks)
    && forall t :: t in after.openTasks <==>
         if CancelledBy(job, w) || w.Resume? then false
         else if w.Finish? then t in w.tasks
         else if w.RejectTask? then t in job.openTasks && t != w.taskId
         else t in job.openTasks
  }

  /** The attempt log: a claim adds an open entry, the end of an attempt closes the last one. */
  ghost predicate LogMoves(job: Job, w: Write, after: Job)
    requires job.currentRun in job.runs
  {
    match w
    case ClaimRun(_, owner, _, _) =>
      after.attempts == job.attempts + [Attempt(job.currentRun, job.runs[job.currentRun].token + 1, owner, None)]
    case Finish(_, event, _, _, _, _) =>
      && |after.attempts| == |job.attempts| > 0
      && after.attempts[..|job.attempts| - 1] == job.attempts[..|job.attempts| - 1]
      && after.attempts[|job.attempts| - 1] == job.attempts[|job.attempts| - 1].(outcome := Some(event))
    case _ => after.attempts == job.attempts
  }

  /** Whatever puts the job back into the queue adds one round of delivery for its current run. */
  ghost predicate RoundsMove(job: Job, w: Write, policy: Policy, after: Job) {
    if QueuedBy(job, w, policy) then
      var at := if w.RetryLater? then w.availableAt else if w.Resume? then w.now else after.updatedAt;
      after.rounds == job.rounds + [Round(after.currentRun, at, 0, Pending)]
    else if w.MarkDispatched? || w.Reschedule? then
      && |after.rounds| == |job.rounds| && w.round < |job.rounds|
      && (forall i: nat :: i < |job.rounds| && i != w.round ==> after.rounds[i] == job.rounds[i])
      && var was, now := job.rounds[w.round], after.rounds[w.round];
         if w.MarkDispatched? then now == was.(state := Sent)
         else if Over(job) then now == was.(state := Abandoned)
         else now == was.(availableAt := w.availableAt, dispatchAttempts := was.dispatchAttempts + 1)
    else after.rounds == job.rounds
  }

  /** The runs: a claim and a heartbeat set the lease, leaving the running state drops it. */
  ghost predicate RunsMove(job: Job, w: Write, after: Job)
    requires job.currentRun in job.runs
  {
    var run := job.runs[job.currentRun];
    && (forall r :: r in after.runs <==> r in job.runs || (w.Resume? && r == w.run.runId))
    && (forall r :: r in job.runs && r != job.currentRun ==> r in after.runs && after.runs[r] == job.runs[r])
    && (w.Resume? ==> w.run.runId in after.runs && after.runs[w.run.runId] == Run(w.run.revision, 0, 0, None))
    && job.currentRun in after.runs
    && after.runs[job.currentRun] ==
         match w
         case ClaimRun(_, owner, seconds, now) => run.(token := run.token + 1, lease := Some(Lease(owner, |job.attempts|, now + seconds)))
         case HeartbeatLease(_, seconds, now) =>
           if run.lease.Some? then run.(lease := Some(run.lease.value.(expiresAt := now + seconds))) else run
         case Finish(_, event, _, _, _, _) => run.(lease := None, resultVersion := if event == PublishResult then 1 else 0)
         case ExpireLease(_, _, _) => run.(lease := None)
         case _ => run
  }

  /** The result references: a publication adds the only one there can be. */
  ghost predicate ResultsMove(job: Job, w: Write, after: Job) {
    if w.Finish? && w.event == PublishResult then
      w.result.Some? && after.results == map[(w.attempt.runId, 1) := w.result.value]
    else after.results == job.results
  }

  ghost function TimeOf(w: Write, otherwise: int): int {
    match w
    case ClaimRun(_, _, _, now) => now
    case HeartbeatLease(_, _, now) => now
    case Finish(_, _, now, _, _, _) => now
    case ExpireLease(_, _, now) => now
    case CancelJob(now) => now
    case RetryLater(_, now) => now
    case RejectTask(_, _, now) => now
    case Resume(_, now) => now
    case MarkDispatched(_, now) => now
    case Reschedule(_, _) => otherwise
  }

  ghost predicate Moves(job: Job, w: Write, policy: Policy, after: Job)
    requires job.currentRun in job.runs
  {
    && StatusMoves(job, w, policy, after)
    && CountersMove(job, w, after)
    && ProblemMoves(job, w, policy, after)
    && TasksMove(job, w, after)
    && LogMoves(job, w, after)
    && RoundsMove(job, w, policy, after)
    && RunsMove(job, w, after)
    && ResultsMove(job, w, after)
    && after.updatedAt == TimeOf(w, job.updatedAt)
  }

  lemma {:induction false} ClaimMoves(s: System, w: Write, after: Job, policy: Policy)
    requires Inv(s, policy) && w.ClaimRun? && Apply(s.job, w, policy) == Ok(after)
    ensures Moves(s.job, w, policy, after)
  {
  }

  lemma {:induction false} HeartbeatMoves(s: System, w: Write, after: Job, policy: Policy)
    requires Inv(s, policy) && w.HeartbeatLease? && Apply(s.job, w, policy) == Ok(after)
    ensures Moves(s.job, w, policy, after)
  {
  }

  lemma {:induction false} FinishMovesStatus(s: System, w: Write, after: Job, policy: Policy)
    requires Inv(s, policy) && w.Finish? && Apply(s.job, w, policy) == Ok(after)
    ensures StatusMoves(s.job, w, policy, after) && CountersMove(s.job, w, after)
    ensures after.updatedAt == TimeOf(w, s.job.updatedAt)
  {
  }

  lemma {:induction false} FinishMovesProblem(s: System, w: Write, after: Job, policy: Policy)
    requires Inv(s, policy) && w.Finish? && Apply(s.job, w, policy) == Ok(after)
    ensures ProblemMoves(s.job, w, policy, after) && TasksMove(s.job, w, after)
  {
  }

  lemma {:induction false} FinishMovesRecords(s: System, w: Write, after: Job, policy: Policy)
    requires Inv(s, policy) && w.Finish? && Apply(s.job, w, policy) == Ok(after)
    ensures LogMoves(s.job, w, after) && RoundsMove(s.job, w, policy, after)
    ensures RunsMove(s.job, w, after) && ResultsMove(s.job, w, after)
  {
    AuthorityIsLatestClaim(s.job, w.attempt);
  }

  lemma {:induction false} ExpireMoves(s: System, w: Write, after: Job, policy: Policy)
    requires Inv(s, policy) && w.ExpireLease? && Apply(s.job, w, policy) == Ok(after)
    ensures Moves(s.job, w, policy, after)
  {
  }

  lemma {:induction false} CancelMoves(s: System, w: Write, after: Job, policy: Policy)
    requires Inv(s, policy) && w.CancelJob? && Apply(s.job, w, policy) == Ok(after)
    ensures Moves(s.job, w, policy, after)
  {
  }

  lemma {:induction false} ResumeMoves(s: System, w: Write, after: Job, policy: Policy)
    requires Inv(s, policy) && w.Resume? && Apply(s.job, w, policy) == Ok(after)
    ensures Moves(s.job, w, policy, after)
  {
  }

  lemma {:induction false} RetryMoves(s: System, w: Write, after: Job, policy: Policy)
    requires Inv(s, policy) && w.RetryLater? && Apply(s.job, w, policy) == Ok(after)
    ensures Moves(s.job, w, policy, after)
  {
  }

  lemma {:induction false} WithoutExactly(tasks: seq<TaskId>, x: TaskId, t: TaskId)
    ensures t in Without(tasks, x) <==> t in tasks && t != x
  {
    if tasks != [] {
      WithoutExactly(tasks[1..], x, t);
    }
  }

  lemma {:induction false} RejectMoves(s: System, w: Write, after: Job, policy: Policy)
    requires Inv(s, policy) && w.RejectTask? && Apply(s.job, w, policy) == Ok(after)
    ensures Moves(s.job, w, policy, after)
  {
    forall t ensures t in Without(s.job.openTasks, w.taskId) <==> t in s.job.openTasks && t != w.taskId {
      WithoutExactly(s.job.openTasks, w.taskId, t);
    }
    var left := Without(s.job.openTasks, w.taskId);
    assert left != [] ==> left[0] in left;
  }

  lemma {:induction false} MarkMoves(s: System, w: Write, after: Job, policy: Policy)
    requires Inv(s, policy) && w.MarkDispatched? && Apply(s.job, w, policy) == Ok(after)
    ensures Moves(s.job, w, policy, after)
  {
  }

  lemma {:induction false} RescheduleMoves(s: System, w: Write, after: Job, policy: Policy)
    requires Inv(s, policy) && w.Reschedule? && Apply(s.job, w, policy) == Ok(after)
    ensures Moves(s.job, w, policy, after)
  {
  }

  /** What an accepted write does to every field of the job. */
  lemma {:induction false} WritesExactly(s: System, w: Write, after: Job, policy: Policy)
    requires Inv(s, policy) && Apply(s.job, w, policy) == Ok(after)
    ensures Moves(s.job, w, policy, after)
  {
    match w
    case ClaimRun(_, _, _, _) => ClaimMoves(s, w, after, policy);
    case HeartbeatLease(_, _, _) => HeartbeatMoves(s, w, after, policy);
    case Finish(_, _, _, _, _, _) =>
      FinishMovesStatus(s, w, after, policy);
      FinishMovesProblem(s, w, after, policy);
      FinishMovesRecords(s, w, after, policy);
    case ExpireLease(_, _, _) => ExpireMoves(s, w, after, policy);
    case RejectTask(_, _, _) => RejectMoves(s, w, after, policy);
    case CancelJob(_) => CancelMoves(s, w, after, policy);
    case Resume(_, _) => ResumeMoves(s, w, after, policy);
    case RetryLater(_, _) => RetryMoves(s, w, after, policy);
    case MarkDispatched(_, _) => MarkMoves(s, w, after, policy);
    case Reschedule(_, _) => RescheduleMoves(s, w, after, policy);
  }
}
