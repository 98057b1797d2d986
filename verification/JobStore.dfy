/**
 One durable job as the store holds it, and every conditional write on it
 (`ports/jobs.py`, `adapters/local/job_store.py`).

 Identities are numbers. The store mints attempt identities, so an attempt's identity is
 its position in the attempt log; an outbox sequence number is a position in `rounds`.
 A lease's owner, deadline and attempt identity are set and removed together, hence one
 optional record.
 */
module JobStore {
  import opened Common
  import opened JobState

  type RunId = nat
  type TaskId = nat

  datatype Lease = Lease(owner: nat, attemptId: nat, expiresAt: int)

  datatype Run = Run(revision: nat, token: nat, resultVersion: nat, lease: Option<Lease>)

  datatype RoundState = Pending | Sent | Abandoned

  datatype Round = Round(runId: RunId, availableAt: int, dispatchAttempts: nat, state: RoundState)

  /** One claim; `outcome` is the event that closed it, if any did. */
  datatype Attempt = Attempt(runId: RunId, token: nat, owner: nat, outcome: Option<Event>)

  datatype Problem = ConflictProblem | ExecutionProblem | OtherProblem

  /** A result body names the attempt that produced it. */
  datatype Body = Body(runId: RunId, version: nat, attemptId: nat, content: nat)

  /** A digest identifies its body exactly, so the body stands for its digest. */
  datatype ResultReference = ResultReference(runId: RunId, version: nat, token: nat, digest: Body)

  datatype Job = Job(
    caseId: nat,
    status: Status,
    currentRun: RunId,
    attemptCount: int,
    leaseTakeoverCount: int,
    cancelRequested: bool,
    openTasks: seq<TaskId>,
    problem: Option<Problem>,
    updatedAt: int,
    runs: map<RunId, Run>,
    rounds: seq<Round>,
    attempts: seq<Attempt>,
    results: map<(RunId, nat), ResultReference>)

  datatype ClaimedAttempt = ClaimedAttempt(
    runId: RunId, attemptId: nat, owner: nat, token: nat, expectedVersion: nat)

  datatype RunReference = RunReference(runId: RunId, revision: nat, caseId: nat, hasAttempt: bool)

  /** Every write of the job store; the arguments are whatever the caller sends. */
  datatype Write =
    | ClaimRun(runId: RunId, owner: nat, leaseSeconds: int, now: int)
    | HeartbeatLease(attempt: ClaimedAttempt, leaseSeconds: int, now: int)
    | Finish(attempt: ClaimedAttempt, event: Event, now: int, problem: Option<Problem>,
             tasks: seq<TaskId>, result: Option<ResultReference>)
    | ExpireLease(runId: RunId, token: nat, now: int)
    | CancelJob(now: int)
    | RetryLater(availableAt: int, now: int)
    | RejectTask(runId: RunId, taskId: TaskId, now: int)
    | Resume(run: RunReference, now: int)
    | MarkDispatched(round: nat, now: int)
    | Reschedule(round: nat, availableAt: int)

  /** `Fault` is a service fault, `Lost` a failed condition, `Invalid` a value error. */
  datatype StoreError = Fault | Lost | Invalid

  function FactsOf(job: Job): Facts {
    Facts(job.status, job.attemptCount, job.leaseTakeoverCount, job.cancelRequested, job.openTasks != [])
  }

  function Enqueue(job: Job, runId: RunId, availableAt: int): Job {
    job.(rounds := job.rounds + [Round(runId, availableAt, 0, Pending)])
  }

  function CreateJob(caseId: nat, runId: RunId, revision: nat, now: int): Job {
    Enqueue(
      Job(caseId, InitialTransition().status, runId, 0, 0, false, [], None, now,
          map[runId := Run(revision, 0, 0, None)], [], [], map[]),
      runId, now)
  }

  function Release(job: Job, runId: RunId): Job
    requires runId in job.runs
  {
    job.(runs := job.runs[runId := job.runs[runId].(lease := None)])
  }

  function Claimed(job: Job, w: Write, policy: Policy): Result<Job, StoreError>
    requires w.ClaimRun?
  {
    if w.leaseSeconds < 1 then Err(Invalid)
    else if w.runId !in job.runs || job.currentRun != w.runId then Err(Lost)
    else
      var run := job.runs[w.runId];
      if run.lease.Some? && run.lease.value.expiresAt > w.now then Err(Lost)
      else if NextState(FactsOf(job), Claim, policy).Err? then Err(Lost)
      else
        var id := |job.attempts|;
        var leased := run.(token := run.token + 1, lease := Some(Lease(w.owner, id, w.now + w.leaseSeconds)));
        Ok(job.(status := Running,
                updatedAt := w.now,
                runs := job.runs[w.runId := leased],
                attempts := job.attempts + [Attempt(w.runId, run.token + 1, w.owner, None)]))
  }

  /** The attempt still owns the lease: owner, fencing token and attempt identity match. */
  predicate HasAuthority(job: Job, a: ClaimedAttempt) {
    && a.runId in job.runs
    && job.runs[a.runId].lease.Some?
    && job.runs[a.runId].lease.value.owner == a.owner
    && job.runs[a.runId].token == a.token
    && job.runs[a.runId].lease.value.attemptId == a.attemptId
    && job.status == Running
  }

  function Heartbeaten(job: Job, w: Write): Result<Job, StoreError>
    requires w.HeartbeatLease?
  {
    if w.leaseSeconds < 1 then Err(Invalid)
    else if !HasAuthority(job, w.attempt) then Err(Lost)
    else
      var run := job.runs[w.attempt.runId];
      var leased := run.(lease := Some(run.lease.value.(expiresAt := w.now + w.leaseSeconds)));
      Ok(job.(runs := job.runs[w.attempt.runId := leased], updatedAt := w.now))
  }

  predicate FinishEvent(e: Event) {
    e in {PublishResult, NeedsHuman, RetryableError, PermanentError, CancelAcknowledged}
  }

  /** The conditions of `_commit_result` for a reference. */
  predicate Committable(job: Job, a: ClaimedAttempt, r: ResultReference) {
    && a.runId in job.runs
    && r.runId == a.runId
    && r.token == a.token
    && job.runs[a.runId].resultVersion == a.expectedVersion
    && r.version == a.expectedVersion + 1
    && (r.runId, r.version) !in job.results
  }

  function CloseAttempt(attempts: seq<Attempt>, id: nat, event: Event): seq<Attempt> {
    if id < |attempts| then attempts[id := attempts[id].(outcome := Some(event))] else attempts
  }

  function Finished(job: Job, w: Write, policy: Policy): Result<Job, StoreError>
    requires w.Finish?
  {
    if !FinishEvent(w.event) then Err(Invalid)
    else if !HasAuthority(job, w.attempt) then Err(Lost)
    else
      match NextState(FactsOf(job).(hasOpenTasks := w.tasks != []), w.event, policy)
      case Err(_) => Err(Fault)
      case Ok(t) =>
        if w.event == PublishResult && w.result.None? then Err(Invalid)
        else if w.event == PublishResult && !Committable(job, w.attempt, w.result.value) then Err(Lost)
        else if w.event != PublishResult && w.result.Some? then Err(Invalid)
        else if t.status == Failed && w.problem.None? then Err(Invalid)
        else
          var a := w.attempt;
          var committed :=
            if w.event == PublishResult then
              job.(results := job.results[(a.runId, w.result.value.version) := w.result.value],
                   runs := job.runs[a.runId := job.runs[a.runId].(resultVersion := w.result.value.version)])
            else job;
          Ok(Release(committed, a.runId).(
             attemptCount := job.attemptCount + t.attemptDelta,
             status := t.status,
             problem := if t.status == Cancelled then Some(ConflictProblem)
                        else if t.status == Failed then w.problem else None,
             openTasks := if t.status == Cancelled then [] else Dedup(w.tasks),
             updatedAt := w.now,
             attempts := CloseAttempt(job.attempts, a.attemptId, w.event)))
  }

  function Expired(job: Job, w: Write, policy: Policy): Result<Job, StoreError>
    requires w.ExpireLease?
  {
    if w.runId !in job.runs then Err(Lost)
    else
      var run := job.runs[w.runId];
      if run.token != w.token || run.lease.None? || run.lease.value.expiresAt > w.now || job.status != Running
      then Err(Lost)
      else
        match NextState(FactsOf(job), LeaseExpired, policy)
        case Err(_) => Err(Fault)
        case Ok(t) =>
          var moved := Release(job, w.runId).(
            leaseTakeoverCount := job.leaseTakeoverCount + t.takeoverDelta,
            status := t.status,
            updatedAt := w.now,
            problem := if t.status == Failed then Some(ExecutionProblem)
                       else if t.status == Cancelled then Some(ConflictProblem) else job.problem,
            openTasks := if t.status == Cancelled then [] else job.openTasks);
          Ok(if t.enqueueOutbox then Enqueue(moved, w.runId, w.now) else moved)
  }

  function CancelledJob(job: Job, w: Write, policy: Policy): Result<Job, StoreError>
    requires w.CancelJob? && job.currentRun in job.runs
  {
    match NextState(FactsOf(job), Cancel, policy)
    case Err(_) => Err(Fault)
    case Ok(t) =>
      if t.requestCancel then Ok(job.(cancelRequested := true, updatedAt := w.now))
      else Ok(Release(job, job.currentRun).(
              status := t.status, problem := Some(ConflictProblem), openTasks := [], updatedAt := w.now))
  }

  function RetryScheduled(job: Job, w: Write, policy: Policy): Result<Job, StoreError>
    requires w.RetryLater?
  {
    match NextState(FactsOf(job), ScheduleRetry, policy)
    case Err(_) => Err(Lost)
    case Ok(t) =>
      Ok(Enqueue(job.(status := t.status, problem := None, updatedAt := w.now), job.currentRun, w.availableAt))
  }

  function Without<T(==)>(s: seq<T>, x: T): (r: seq<T>)
    ensures x !in r
    ensures forall i :: 0 <= i < |r| ==> r[i] in s
    ensures NoDuplicates(s) ==> NoDuplicates(r)
  {
    if s == [] then []
    else if s[0] == x then Without(s[1..], x)
    else
      assert NoDuplicates(s) ==> NoDuplicates(s[1..]);
      [s[0]] + Without(s[1..], x)
  }

  function Rejected(job: Job, w: Write, policy: Policy): Result<Job, StoreError>
    requires w.RejectTask?
  {
    if job.currentRun != w.runId || w.taskId !in job.openTasks then Err(Lost)
    else
      var remaining := Without(job.openTasks, w.taskId);
      match NextState(FactsOf(job).(hasOpenTasks := remaining != []), HumanRejected, policy)
      case Err(_) => Err(Fault)
      case Ok(t) =>
        Ok(job.(openTasks := remaining,
                status := t.status,
                problem := if t.status == Failed then Some(ConflictProblem) else None,
                updatedAt := w.now))
  }

  function Resumed(job: Job, w: Write, policy: Policy): Result<Job, StoreError>
    requires w.Resume? && job.currentRun in job.runs
  {
    if || w.run.runId == job.currentRun
       || w.run.runId in job.runs
       || w.run.revision == job.runs[job.currentRun].revision
       || w.run.caseId != job.caseId
       || w.run.hasAttempt
    then Err(Lost)
    else
      match NextState(FactsOf(job), HumanResponseCommitted, policy)
      case Err(_) => Err(Fault)
      case Ok(t) =>
        Ok(Enqueue(
             job.(runs := job.runs[w.run.runId := Run(w.run.revision, 0, 0, None)],
                  currentRun := w.run.runId,
                  status := t.status,
                  openTasks := [],
                  updatedAt := w.now),
             w.run.runId, w.now))
  }

  function DispatchMarked(job: Job, w: Write, policy: Policy): Result<Job, StoreError>
    requires w.MarkDispatched?
  {
    if w.round >= |job.rounds| || job.rounds[w.round].state != Pending then Err(Lost)
    else
      var sent := job.(rounds := job.rounds[w.round := job.rounds[w.round].(state := Sent)], updatedAt := w.now);
      if job.status != Queued then Ok(sent)
      else
        match NextState(FactsOf(job), DispatchSucceeded, policy)
        case Err(_) => Err(Fault)
        case Ok(t) => Ok(sent.(status := t.status))
  }

  function Rescheduled(job: Job, w: Write, policy: Policy): Result<Job, StoreError>
    requires w.Reschedule?
  {
    if w.round >= |job.rounds| || job.rounds[w.round].state != Pending then Err(Lost)
    else
      var round := job.rounds[w.round];
      if Terminal(job.status) then Ok(job.(rounds := job.rounds[w.round := round.(state := Abandoned)]))
      else
        match NextState(FactsOf(job), DispatchFailed, policy)
        case Err(_) => Err(Fault)
        case Ok(_) =>
          Ok(job.(rounds := job.rounds[w.round :=
             round.(availableAt := w.availableAt, dispatchAttempts := round.dispatchAttempts + 1)]))
  }

  /** One conditional write. An error leaves the stored job as it was. */
  function Apply(job: Job, w: Write, policy: Policy): Result<Job, StoreError>
    requires job.currentRun in job.runs
  {
    match w
    case ClaimRun(_, _, _, _) => Claimed(job, w, policy)
    case HeartbeatLease(_, _, _) => Heartbeaten(job, w)
    case Finish(_, _, _, _, _, _) => Finished(job, w, policy)
    case ExpireLease(_, _, _) => Expired(job, w, policy)
    case CancelJob(_) => CancelledJob(job, w, policy)
    case RetryLater(_, _) => RetryScheduled(job, w, policy)
    case RejectTask(_, _, _) => Rejected(job, w, policy)
    case Resume(_, _) => Resumed(job, w, policy)
    case MarkDispatched(_, _) => DispatchMarked(job, w, policy)
    case Reschedule(_, _) => Rescheduled(job, w, policy)
  }
}
