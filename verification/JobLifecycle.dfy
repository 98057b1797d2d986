/**
 Whole runs of one job under every interleaving of API, workers and reconciler
 (`application/review_jobs.py`, `application/outbox.py`, `application/runtime_worker.py`).

 A process may issue any store write with any arguments at any time and may die between
 any two of them. The only discipline assumed is the one the application code keeps: a
 round is marked sent after its message was sent, and a result reference is committed
 after its body was stored.
 */
module JobLifecycle {
  import opened Common
  import opened JobState
  import opened JobStore

  datatype System = System(job: Job, sent: set<nat>, bodies: map<(RunId, nat), Body>)

  datatype Step =
    | StoreWrite(write: Write)
    | SendRound(round: nat)
    | PutBody(body: Body)

  predicate Disciplined(s: System, w: Write) {
    && (w.MarkDispatched? ==> w.round in s.sent)
    && (w.Finish? && w.event == PublishResult && w.result.Some? ==>
          var r := w.result.value;
          (r.runId, r.version) in s.bodies && s.bodies[(r.runId, r.version)] == r.digest)
  }

  /** A body is stored once; storing the same body again is accepted, another one is not. */
  predicate BodyAccepted(s: System, body: Body) {
    (body.runId, body.version) in s.bodies ==> s.bodies[(body.runId, body.version)] == body
  }

  /** Refused, undisciplined or lost steps leave the system unchanged. */
  function Next(s: System, step: Step, policy: Policy): System {
    match step
    case StoreWrite(w) =>
      if s.job.currentRun !in s.job.runs || !Disciplined(s, w) then s
      else
        var r := Apply(s.job, w, policy);
        if r.Err? then s else s.(job := r.value)
    case SendRound(i) => if i < |s.job.rounds| then s.(sent := s.sent + {i}) else s
    case PutBody(b) => if BodyAccepted(s, b) then s.(bodies := s.bodies[(b.runId, b.version) := b]) else s
  }

  function Initial(caseId: nat, runId: RunId, revision: nat, now: int): System {
    System(CreateJob(caseId, runId, revision, now), {}, map[])
  }

  // ---------------------------------------------------------------- invariant

  function Parked(attempts: seq<Attempt>): nat {
    if attempts == [] then 0
    else Parked(attempts[..|attempts| - 1]) +
         if attempts[|attempts| - 1].outcome == Some(NeedsHuman) then 1 else 0
  }

  /** Only a running job holds a lease, on its current run, for its latest claim. */
  ghost predicate LeaseInv(job: Job) {
    && job.currentRun in job.runs
    && (job.status == Running <==> job.runs[job.currentRun].lease.Some?)
    && (forall r :: r in job.runs && r != job.currentRun ==> job.runs[r].lease.None?)
    && (job.status == Running ==>
          && |job.attempts| > 0
          && var last := |job.attempts| - 1;
             var run := job.runs[job.currentRun];
             && run.lease.value.attemptId == last
             && job.attempts[last] == Attempt(job.currentRun, run.token, run.lease.value.owner, None))
  }

  /** Fencing tokens grow with every claim of a run. */
  ghost predicate TokenInv(job: Job) {
    && (forall i :: 0 <= i < |job.attempts| ==>
          job.attempts[i].runId in job.runs && job.attempts[i].token <= job.runs[job.attempts[i].runId].token)
    && (forall i, j :: 0 <= i < j < |job.attempts| && job.attempts[i].runId == job.attempts[j].runId ==>
          job.attempts[i].token < job.attempts[j].token)
  }

  /** Every claim is accounted for while the job is live, and both ceilings hold. */
  ghost predicate ClaimInv(job: Job, policy: Policy) {
    && job.attemptCount >= 0 && job.leaseTakeoverCount >= 0
    && (job.status == RetryableFailed ==> job.attemptCount >= 1)
    && (!Terminal(job.status) ==>
          && job.attemptCount < policy.maxAttempts
          && job.leaseTakeoverCount < policy.maxLeaseTakeovers
          && |job.attempts| == job.attemptCount + job.leaseTakeoverCount + Parked(job.attempts) +
                               (if job.status == Running then 1 else 0))
    && |job.attempts| <= policy.maxAttempts + policy.maxLeaseTakeovers - 1 + Parked(job.attempts)
  }

  /** A round still able to deliver the current run: waiting to be sent, or its message is out. */
  predicate Carries(s: System, i: nat) {
    && i < |s.job.rounds|
    && s.job.rounds[i].runId == s.job.currentRun
    && (s.job.rounds[i].state == Pending || (s.job.rounds[i].state == Sent && i in s.sent))
  }

  ghost predicate RoundInv(s: System) {
    && (forall i :: 0 <= i < |s.job.rounds| && s.job.rounds[i].state == Sent ==> i in s.sent)
    && (!Terminal(s.job.status) ==>
          forall i :: 0 <= i < |s.job.rounds| ==> s.job.rounds[i].state != Abandoned)
    && (s.job.status in {Queued, Dispatched} ==> exists i: nat :: Carries(s, i))
  }

  ghost predicate StatusInv(job: Job) {
    && NoDuplicates(job.openTasks)
    && (job.status == WaitingForHuman ==> job.openTasks != [])
    && (job.cancelRequested ==> job.status == Running || Terminal(job.status))
    && (job.problem.Some? <==> job.status in {Failed, Cancelled})
  }

  /** A result exists exactly when the job succeeded, and its body is the referenced one. */
  ghost predicate ResultInv(s: System) {
    && s.job.currentRun in s.job.runs
    && (forall k :: k in s.job.results ==>
          && k.0 in s.job.runs
          && 1 <= k.1 <= s.job.runs[k.0].resultVersion
          && s.job.results[k].runId == k.0 && s.job.results[k].version == k.1
          && k in s.bodies && s.bodies[k] == s.job.results[k].digest)
    && (s.job.status != Succeeded ==> s.job.results == map[])
    && (s.job.status != Succeeded ==> forall r :: r in s.job.runs ==> s.job.runs[r].resultVersion == 0)
    && (s.job.status == Succeeded ==>
          var key := (s.job.currentRun, s.job.runs[s.job.currentRun].resultVersion);
          s.job.results.Keys == {key})
  }

  ghost predicate Inv(s: System, policy: Policy) {
    && LeaseInv(s.job)
    && TokenInv(s.job)
    && ClaimInv(s.job, policy)
    && RoundInv(s)
    && StatusInv(s.job)
    && ResultInv(s)
  }

  lemma {:induction false} InitialInv(caseId: nat, runId: RunId, revision: nat, now: int, policy: Policy)
    requires ValidPolicy(policy)
    ensures Inv(Initial(caseId, runId, revision, now), policy)
  {
    assert Carries(Initial(caseId, runId, revision, now), 0);
  }

  lemma {:induction false} ParkedAppend(attempts: seq<Attempt>, a: Attempt)
    ensures Parked(attempts + [a]) == Parked(attempts) + if a.outcome == Some(NeedsHuman) then 1 else 0
  {
    assert (attempts + [a])[..|attempts|] == attempts;
  }

  /** Closing the latest, still open claim parks it exactly when it needs a human. */
  lemma {:induction false} ParkedClose(attempts: seq<Attempt>, e: Event)
    requires |attempts| > 0 && attempts[|attempts| - 1].outcome == None
    ensures Parked(CloseAttempt(attempts, |attempts| - 1, e)) ==
            Parked(attempts) + if e == NeedsHuman then 1 else 0
  {
    var closed := CloseAttempt(attempts, |attempts| - 1, e);
    assert closed[..|closed| - 1] == attempts[..|attempts| - 1];
  }

  lemma {:induction false} ClaimKeepsRuns(s: System, w: Write, job: Job, policy: Policy)
    requires Inv(s, policy) && w.ClaimRun? && Claimed(s.job, w, policy) == Ok(job)
    ensures LeaseInv(job) && TokenInv(job)
  {
  }

  lemma {:induction false} ClaimKeepsInv(s: System, w: Write, job: Job, policy: Policy)
    requires Inv(s, policy) && w.ClaimRun? && Claimed(s.job, w, policy) == Ok(job)
    ensures Inv(s.(job := job), policy)
  {
    ClaimKeepsRuns(s, w, job, policy);
    ParkedAppend(s.job.attempts, job.attempts[|s.job.attempts|]);
  }

  lemma {:induction false} HeartbeatKeepsInv(s: System, w: Write, job: Job, policy: Policy)
    requires Inv(s, policy) && w.HeartbeatLease? && Heartbeaten(s.job, w) == Ok(job)
    ensures Inv(s.(job := job), policy)
  {
  }

  /** Authority means being the job's latest claim on its current run. */
  lemma {:induction false} AuthorityIsLatestClaim(job: Job, a: ClaimedAttempt)
    requires LeaseInv(job) && HasAuthority(job, a)
    ensures a.runId == job.currentRun
    ensures a.attemptId == |job.attempts| - 1
    ensures job.attempts[a.attemptId] == Attempt(a.runId, a.token, a.owner, None)
  {
  }

  lemma {:induction false} FinishKeepsRuns(s: System, w: Write, job: Job, policy: Policy)
    requires Inv(s, policy) && w.Finish? && Finished(s.job, w, policy) == Ok(job)
    ensures LeaseInv(job) && TokenInv(job)
  {
    AuthorityIsLatestClaim(s.job, w.attempt);
  }

  lemma {:induction false} FinishKeepsCounts(s: System, w: Write, job: Job, policy: Policy)
    requires Inv(s, policy) && w.Finish? && Finished(s.job, w, policy) == Ok(job)
    ensures ClaimInv(job, policy) && StatusInv(job)
  {
    AuthorityIsLatestClaim(s.job, w.attempt);
    ParkedClose(s.job.attempts, w.event);
  }

  lemma {:induction false} FinishKeepsResults(s: System, w: Write, job: Job, policy: Policy)
    requires Inv(s, policy) && w.Finish? && Disciplined(s, w) && Finished(s.job, w, policy) == Ok(job)
    ensures ResultInv(s.(job := job)) && RoundInv(s.(job := job))
  {
    AuthorityIsLatestClaim(s.job, w.attempt);
  }

  lemma {:induction false} FinishKeepsInv(s: System, w: Write, job: Job, policy: Policy)
    requires Inv(s, policy) && w.Finish? && Disciplined(s, w) && Finished(s.job, w, policy) == Ok(job)
    ensures Inv(s.(job := job), policy)
  {
    FinishKeepsRuns(s, w, job, policy);
    FinishKeepsCounts(s, w, job, policy);
    FinishKeepsResults(s, w, job, policy);
  }

  lemma {:induction false} ExpireKeepsInv(s: System, w: Write, job: Job, policy: Policy)
    requires Inv(s, policy) && w.ExpireLease? && Expired(s.job, w, policy) == Ok(job)
    ensures Inv(s.(job := job), policy)
  {
    if job.status == Queued {
      assert Carries(s.(job := job), |s.job.rounds|);
    }
  }

  lemma {:induction false} CancelKeepsInv(s: System, w: Write, job: Job, policy: Policy)
    requires Inv(s, policy) && w.CancelJob? && CancelledJob(s.job, w, policy) == Ok(job)
    ensures Inv(s.(job := job), policy)
  {
  }

  lemma {:induction false} RetryKeepsInv(s: System, w: Write, job: Job, policy: Policy)
    requires Inv(s, policy) && w.RetryLater? && RetryScheduled(s.job, w, policy) == Ok(job)
    ensures Inv(s.(job := job), policy)
  {
    assert Carries(s.(job := job), |s.job.rounds|);
  }

  lemma {:induction false} ResumeKeepsInv(s: System, w: Write, job: Job, policy: Policy)
    requires Inv(s, policy) && w.Resume? && Resumed(s.job, w, policy) == Ok(job)
    ensures Inv(s.(job := job), policy)
  {
    assert Carries(s.(job := job), |s.job.rounds|);
  }

  lemma {:induction false} RejectKeepsInv(s: System, w: Write, job: Job, policy: Policy)
    requires Inv(s, policy) && w.RejectTask? && Rejected(s.job, w, policy) == Ok(job)
    ensures Inv(s.(job := job), policy)
  {
  }

  /** Moving one pending round to sent, or its schedule, keeps the round that carries the run. */
  lemma {:induction false} CarrierKept(s: System, job: Job, i: nat)
    requires RoundInv(s) && s.job.status in {Queued, Dispatched}
    requires i < |s.job.rounds| && |job.rounds| == |s.job.rounds| && job.currentRun == s.job.currentRun
    requires forall j :: 0 <= j < |job.rounds| && j != i ==> job.rounds[j] == s.job.rounds[j]
    requires job.rounds[i].runId == s.job.rounds[i].runId
    requires job.rounds[i].state == Pending || (job.rounds[i].state == Sent && i in s.sent)
    ensures exists j: nat :: Carries(s.(job := job), j)
  {
    var j: nat :| Carries(s, j);
    assert Carries(s.(job := job), j);
  }

  lemma {:induction false} MarkKeepsInv(s: System, w: Write, job: Job, policy: Policy)
    requires Inv(s, policy) && w.MarkDispatched? && Disciplined(s, w) && DispatchMarked(s.job, w, policy) == Ok(job)
    ensures Inv(s.(job := job), policy)
  {
    if s.job.status in {Queued, Dispatched} {
      CarrierKept(s, job, w.round);
    }
  }

  lemma {:induction false} RescheduleKeepsJob(s: System, w: Write, job: Job, policy: Policy)
    requires Inv(s, policy) && w.Reschedule? && Rescheduled(s.job, w, policy) == Ok(job)
    ensures w.round < |s.job.rounds| && job == s.job.(rounds := job.rounds) && |job.rounds| == |s.job.rounds|
    ensures forall j :: 0 <= j < |job.rounds| && j != w.round ==> job.rounds[j] == s.job.rounds[j]
    ensures s.job.rounds[w.round].state == Pending && job.rounds[w.round].runId == s.job.rounds[w.round].runId
    ensures job.rounds[w.round].state == if Terminal(s.job.status) then Abandoned else Pending
  {
  }

  lemma {:induction false} RescheduleKeepsInv(s: System, w: Write, job: Job, policy: Policy)
    requires Inv(s, policy) && w.Reschedule? && Rescheduled(s.job, w, policy) == Ok(job)
    ensures Inv(s.(job := job), policy)
  {
    RescheduleKeepsJob(s, w, job, policy);
    if s.job.status in {Queued, Dispatched} {
      CarrierKept(s, job, w.round);
    }
  }

  lemma {:induction false} MessageKeepsInv(s: System, step: Step, policy: Policy)
    requires Inv(s, policy) && !step.StoreWrite?
    ensures Inv(Next(s, step, policy), policy)
  {
    if s.job.status in {Queued, Dispatched} {
      var i: nat :| Carries(s, i);
      assert Carries(Next(s, step, policy), i);
    }
  }

  lemma {:induction false} WriteKeepsInv(s: System, w: Write, job: Job, policy: Policy)
    requires Inv(s, policy) && Disciplined(s, w) && Apply(s.job, w, policy) == Ok(job)
    ensures Inv(s.(job := job), policy)
  {
    match w
    case ClaimRun(_, _, _, _) => ClaimKeepsInv(s, w, job, policy);
    case HeartbeatLease(_, _, _) => HeartbeatKeepsInv(s, w, job, policy);
    case Finish(_, _, _, _, _, _) => FinishKeepsInv(s, w, job, policy);
    case ExpireLease(_, _, _) => ExpireKeepsInv(s, w, job, policy);
    case CancelJob(_) => CancelKeepsInv(s, w, job, policy);
    case RetryLater(_, _) => RetryKeepsInv(s, w, job, policy);
    case RejectTask(_, _, _) => RejectKeepsInv(s, w, job, policy);
    case Resume(_, _) => ResumeKeepsInv(s, w, job, policy);
    case MarkDispatched(_, _) => MarkKeepsInv(s, w, job, policy);
    case Reschedule(_, _) => RescheduleKeepsInv(s, w, job, policy);
  }

  lemma {:induction false} NextKeepsInv(s: System, step: Step, policy: Policy)
    requires Inv(s, policy)
    ensures Inv(Next(s, step, policy), policy)
  {
    if step.StoreWrite? {
      var r := Apply(s.job, step.write, policy);
      if Disciplined(s, step.write) && r.Ok? {
        WriteKeepsInv(s, step.write, r.value, policy);
      }
    } else {
      MessageKeepsInv(s, step, policy);
    }
  }

  // ------------------------------------------------------------ whole runs

  function After(s: System, steps: seq<Step>, policy: Policy): System
    decreases |steps|
  {
    if steps == [] then s else After(Next(s, steps[0], policy), steps[1..], policy)
  }

  lemma {:induction false} AfterKeepsInv(s: System, steps: seq<Step>, policy: Policy)
    requires Inv(s, policy)
    ensures Inv(After(s, steps, policy), policy)
    decreases |steps|
  {
    if steps != [] {
      NextKeepsInv(s, steps[0], policy);
      AfterKeepsInv(Next(s, steps[0], policy), steps[1..], policy);
    }
  }

  /** `steps` take a newly submitted job to `s`. */
  ghost predicate RunsTo(start: System, steps: seq<Step>, s: System, policy: Policy) {
    && (exists caseId, runId, revision, now :: start == Initial(caseId, runId, revision, now))
    && s == After(start, steps, policy)
  }

  /** The systems some run from a submission can reach. */
  ghost predicate Reachable(s: System, policy: Policy) {
    ValidPolicy(policy) && exists start, steps :: RunsTo(start, steps, s, policy)
  }

  lemma {:induction false} AfterAppend(s: System, steps: seq<Step>, step: Step, policy: Policy)
    ensures After(s, steps + [step], policy) == Next(After(s, steps, policy), step, policy)
    decreases |steps|
  {
    if steps == [] {
      assert (steps + [step])[1..] == [];
    } else {
      assert (steps + [step])[1..] == steps[1..] + [step];
      AfterAppend(Next(s, steps[0], policy), steps[1..], step, policy);
    }
  }

  lemma {:induction false} ReachableInv(s: System, policy: Policy)
    requires Reachable(s, policy)
    ensures Inv(s, policy)
  {
    var start, steps :| RunsTo(start, steps, s, policy);
    var caseId, runId, revision, now :| start == Initial(caseId, runId, revision, now);
    InitialInv(caseId, runId, revision, now, policy);
    AfterKeepsInv(start, steps, policy);
  }

  lemma {:induction false} ReachableNext(s: System, step: Step, policy: Policy)
    requires Reachable(s, policy)
    ensures Reachable(Next(s, step, policy), policy)
  {
    var start, steps :| RunsTo(start, steps, s, policy);
    AfterAppend(start, steps, step, policy);
    assert RunsTo(start, steps + [step], Next(s, step, policy), policy);
  }

  /** What the three scans and the queue can still see of a live job. */
  ghost predicate Owned(s: System) {
    match s.job.status
    case Queued => exists i: nat :: Carries(s, i)
    case Dispatched => exists i: nat :: Carries(s, i)
    case Running => s.job.currentRun in s.job.runs && s.job.runs[s.job.currentRun].lease.Some?
    case WaitingForHuman => s.job.openTasks != []
    case RetryableFailed => forall cutoff :: s.job.updatedAt <= cutoff ==> StrandedBy(s.job, cutoff)
    case _ => true
  }

  /** The stranded-retryable scan selects the job for this cutoff. */
  predicate StrandedBy(job: Job, cutoff: int) {
    job.status == RetryableFailed && job.updatedAt <= cutoff
  }

  /** The lease scan selects the run. */
  predicate LeaseExpiredBy(job: Job, runId: RunId, now: int) {
    && runId in job.runs
    && job.runs[runId].lease.Some?
    && job.runs[runId].lease.value.expiresAt <= now
    && job.status == Running
  }

  lemma {:induction false} NoJobStranded(s: System, policy: Policy)
    requires Reachable(s, policy)
    ensures Owned(s)
  {
    ReachableInv(s, policy);
  }

  /** A stranded retry moves on: claimed by a late message, rescheduled, or cancelled. */
  predicate Leaves(s: System, step: Step, policy: Policy) {
    s.job.status == RetryableFailed && Next(s, step, policy).job.status in {Running, Queued, Cancelled}
  }

  /** The one write that makes a stranded job look younger: a leftover round is marked sent. */
  predicate Rejuvenates(step: Step, cutoff: int) {
    step.StoreWrite? && step.write.MarkDispatched? && step.write.now > cutoff
  }

  lemma {:induction false} StrandedStep(s: System, step: Step, cutoff: int, policy: Policy)
    requires Inv(s, policy) && StrandedBy(s.job, cutoff) && !Rejuvenates(step, cutoff)
    ensures StrandedBy(Next(s, step, policy).job, cutoff) || Leaves(s, step, policy)
  {
  }

  /** From then on every scan with that cutoff selects the job until it has left the status. */
  lemma {:induction false} StrandedUntilItLeaves(s: System, steps: seq<Step>, cutoff: int, policy: Policy)
    requires Inv(s, policy) && StrandedBy(s.job, cutoff)
    requires forall i :: 0 <= i < |steps| ==> !Rejuvenates(steps[i], cutoff)
    ensures StrandedBy(After(s, steps, policy).job, cutoff) ||
            exists k :: 0 <= k < |steps| && Leaves(After(s, steps[..k], policy), steps[k], policy)
    decreases |steps|
  {
    if steps != [] {
      StrandedStep(s, steps[0], cutoff, policy);
      if Leaves(s, steps[0], policy) {
        assert After(s, steps[..0], policy) == s;
      } else {
        var next, rest := Next(s, steps[0], policy), steps[1..];
        NextKeepsInv(s, steps[0], policy);
        StrandedUntilItLeaves(next, rest, cutoff, policy);
        if k :| 0 <= k < |rest| && Leaves(After(next, rest[..k], policy), rest[k], policy) {
          assert steps[..k + 1][0] == steps[0] && steps[..k + 1][1..] == rest[..k];
          assert After(s, steps[..k + 1], policy) == After(next, rest[..k], policy);
        }
      }
    }
  }

  /** The newest round waits for the current run. */
  predicate FreshRound(job: Job) {
    && |job.rounds| > 0
    && job.rounds[|job.rounds| - 1].runId == job.currentRun
    && job.rounds[|job.rounds| - 1].state == Pending
  }

  /** A delivered message always finds a claimable job; a stranded retry can always be queued. */
  lemma {:induction false} DeliveryRecovers(s: System, policy: Policy, now: int, owner: nat)
    requires Reachable(s, policy)
    ensures s.job.currentRun in s.job.runs
    ensures s.job.status in {Queued, Dispatched, RetryableFailed} ==>
              var r := Apply(s.job, ClaimRun(s.job.currentRun, owner, policy.leaseSeconds, now), policy);
              r.Ok? && r.value.status == Running
    ensures s.job.status == RetryableFailed ==>
              var r := Apply(s.job, RetryLater(now, now), policy);
              r.Ok? && r.value.status == Queued && FreshRound(r.value)
  {
    ReachableInv(s, policy);
  }

  /** An expired lease can always be reclaimed, into a fresh round or a finished job. */
  lemma {:induction false} ReclaimRecovers(s: System, policy: Policy, now: int)
    requires Reachable(s, policy) && LeaseExpiredBy(s.job, s.job.currentRun, now)
    ensures var r := Apply(s.job, ExpireLease(s.job.currentRun, s.job.runs[s.job.currentRun].token, now), policy);
            r.Ok? && (Terminal(r.value.status) || (r.value.status == Queued && FreshRound(r.value)))
  {
    ReachableInv(s, policy);
  }

  /** The lease of the current run can be taken back from exactly that moment on. */
  ghost predicate LeasedUntil(job: Job, owner: nat, deadline: int, policy: Policy)
    requires job.currentRun in job.runs
  {
    && job.status == Running && job.runs[job.currentRun].lease.Some? && job.runs[job.currentRun].lease.value.owner == owner
    && forall now :: Apply(job, ExpireLease(job.currentRun, job.runs[job.currentRun].token, now), policy).Ok? <==> now >= deadline
  }

  /** A claim is granted for the lease time from now, and each heartbeat extends it to the lease
      time from then: not a second more or less, whatever the clocks of others say. */
  lemma {:induction false} LeaseLastsExactly(s: System, policy: Policy, runId: RunId, owner: nat, seconds: int, now: int, a: ClaimedAttempt)
    requires Reachable(s, policy)
    ensures s.job.currentRun in s.job.runs
    ensures
      var r := Apply(s.job, ClaimRun(runId, owner, seconds, now), policy);
      && (r.Ok? <==> seconds >= 1 && runId == s.job.currentRun && s.job.status in {Queued, Dispatched, RetryableFailed})
      && (r.Ok? ==>
            && r.value.currentRun in r.value.runs && LeasedUntil(r.value, owner, now + seconds, policy)
            && r.value.runs[runId].token == s.job.runs[runId].token + 1)
    ensures
      var r := Apply(s.job, HeartbeatLease(a, seconds, now), policy);
      && (r.Ok? <==> seconds >= 1 && HasAuthority(s.job, a))
      && (r.Ok? ==> r.value.currentRun in r.value.runs && LeasedUntil(r.value, a.owner, now + seconds, policy) && HasAuthority(r.value, a))
  {
    ReachableInv(s, policy);
    var claim := Apply(s.job, ClaimRun(runId, owner, seconds, now), policy);
    if claim.Ok? {
      ClaimKeepsInv(s, ClaimRun(runId, owner, seconds, now), claim.value, policy);
      ExpiresExactly(s.(job := claim.value), policy);
    }
    var beat := Apply(s.job, HeartbeatLease(a, seconds, now), policy);
    if beat.Ok? {
      AuthorityIsLatestClaim(s.job, a);
      HeartbeatKeepsInv(s, HeartbeatLease(a, seconds, now), beat.value, policy);
      ExpiresExactly(s.(job := beat.value), policy);
    }
  }

  lemma {:induction false} ExpiresExactly(s: System, policy: Policy)
    requires Inv(s, policy) && s.job.status == Running
    ensures
      var run := s.job.runs[s.job.currentRun];
      forall now :: Apply(s.job, ExpireLease(s.job.currentRun, run.token, now), policy).Ok? <==> now >= run.lease.value.expiresAt
  {
  }

  /** A committed response can always resume a parked job on a new run. */
  lemma {:induction false} ResponseRecovers(s: System, policy: Policy, now: int, run: RunReference)
    requires Reachable(s, policy) && s.job.status == WaitingForHuman
    requires run.runId !in s.job.runs && run.caseId == s.job.caseId && !run.hasAttempt
    requires s.job.currentRun in s.job.runs ==> run.revision != s.job.runs[s.job.currentRun].revision
    ensures s.job.currentRun in s.job.runs
    ensures var r := Apply(s.job, Resume(run, now), policy);
            r.Ok? && r.value.status == Queued && r.value.currentRun == run.runId && FreshRound(r.value)
  {
    ReachableInv(s, policy);
  }

  /** `claims = attempts + takeovers + parkings + (1 if running)`, and the run-wide bound. */
  lemma {:induction false} ClaimAccounting(s: System, policy: Policy)
    requires Reachable(s, policy)
    ensures !Terminal(s.job.status) ==>
              |s.job.attempts| == s.job.attemptCount + s.job.leaseTakeoverCount + Parked(s.job.attempts) +
                                  (if s.job.status == Running then 1 else 0)
    ensures |s.job.attempts| <= policy.maxAttempts + policy.maxLeaseTakeovers - 1 + Parked(s.job.attempts)
  {
    ReachableInv(s, policy);
  }

  /** A stranded retry always has a delay to be rescheduled with, within the policy's bounds. */
  lemma {:induction false} RetryDelayIsDefined(s: System, policy: Policy)
    requires Reachable(s, policy) && s.job.status == RetryableFailed
    ensures BackoffSeconds(policy, s.job.attemptCount).Some?
    ensures policy.backoffBaseSeconds <= BackoffSeconds(policy, s.job.attemptCount).value <= policy.backoffCapSeconds
  {
    ReachableInv(s, policy);
    BackoffBounds(policy, s.job.attemptCount, s.job.attemptCount);
  }

  // --------------------------------------------------------- terminal states

  /** A finished job keeps its status, runs, claims, results and number of rounds. */
  ghost predicate SameOutcome(a: Job, b: Job) {
    && a.status == b.status
    && a.currentRun == b.currentRun
    && a.runs == b.runs
    && a.attempts == b.attempts
    && a.results == b.results
    && a.problem == b.problem
    && |a.rounds| == |b.rounds|
  }

  /** The only writes a finished job takes settle its leftover rounds. */
  lemma {:induction false} TerminalWrite(job: Job, w: Write, after: Job, policy: Policy)
    requires LeaseInv(job) && Terminal(job.status) && Apply(job, w, policy) == Ok(after)
    ensures (w.MarkDispatched? || w.Reschedule?) && SameOutcome(job, after)
  {
  }

  lemma {:induction false} TerminalStep(s: System, step: Step, policy: Policy)
    requires Inv(s, policy) && Terminal(s.job.status)
    ensures SameOutcome(s.job, Next(s, step, policy).job)
  {
    if step.StoreWrite? {
      var r := Apply(s.job, step.write, policy);
      if r.Ok? {
        TerminalWrite(s.job, step.write, r.value, policy);
      }
    }
  }

  lemma {:induction false} TerminalIsFinal(s: System, steps: seq<Step>, policy: Policy)
    requires Inv(s, policy) && Terminal(s.job.status)
    ensures SameOutcome(s.job, After(s, steps, policy).job)
    decreases |steps|
  {
    if steps != [] {
      TerminalStep(s, steps[0], policy);
      NextKeepsInv(s, steps[0], policy);
      TerminalIsFinal(Next(s, steps[0], policy), steps[1..], policy);
    }
  }

  // ------------------------------------------------------------ cancellation

  /**
   `s` follows a running job `s0` whose cancel was recorded: no claim, run or round was
   added, the same attempt still runs or the job is finished, and success can only be the
   publication of that attempt.
   */
  ghost predicate CancelFollows(s0: System, s: System)
    requires s0.job.currentRun in s0.job.runs && s0.job.runs[s0.job.currentRun].lease.Some?
  {
    var run0 := s0.job.runs[s0.job.currentRun];
    && s.job.cancelRequested
    && |s.job.attempts| == |s0.job.attempts|
    && |s.job.rounds| == |s0.job.rounds|
    && s.job.currentRun == s0.job.currentRun
    && s.job.runs.Keys == s0.job.runs.Keys
    && s.job.runs[s.job.currentRun].token == run0.token
    && (Terminal(s.job.status) || s.job.status == Running)
    && (s.job.status == Running ==>
          && s.job.runs[s.job.currentRun].lease.Some?
          && s.job.runs[s.job.currentRun].lease.value.attemptId == run0.lease.value.attemptId)
    && (s.job.status == Succeeded ==>
          forall k :: k in s.job.results ==> k.0 == s.job.currentRun && s.job.results[k].token == run0.token)
  }

  lemma {:induction false} CancelFollowsFinish(s0: System, s: System, w: Write, job: Job, policy: Policy)
    requires Inv(s0, policy) && s0.job.status == Running
    requires Inv(s, policy) && CancelFollows(s0, s) && s.job.status == Running
    requires w.Finish? && Finished(s.job, w, policy) == Ok(job)
    ensures CancelFollows(s0, s.(job := job))
  {
    AuthorityIsLatestClaim(s.job, w.attempt);
  }

  lemma {:induction false} CancelFollowsLease(s0: System, s: System, w: Write, job: Job, policy: Policy)
    requires Inv(s0, policy) && s0.job.status == Running
    requires Inv(s, policy) && CancelFollows(s0, s) && s.job.status == Running
    requires (w.HeartbeatLease? || w.ExpireLease?) && Apply(s.job, w, policy) == Ok(job)
    ensures CancelFollows(s0, s.(job := job))
  {
  }

  /** A running job takes no other write than these. */
  lemma {:induction false} RunningWrites(s: System, w: Write, job: Job, policy: Policy)
    requires s.job.currentRun in s.job.runs && s.job.status == Running && Apply(s.job, w, policy) == Ok(job)
    ensures w.Finish? || w.HeartbeatLease? || w.ExpireLease? || w.CancelJob? || w.MarkDispatched? || w.Reschedule?
  {
  }

  lemma {:induction false} CancelFollowsOutbox(s0: System, s: System, w: Write, job: Job, policy: Policy)
    requires Inv(s0, policy) && s0.job.status == Running
    requires Inv(s, policy) && CancelFollows(s0, s) && s.job.status == Running
    requires (w.CancelJob? || w.MarkDispatched? || w.Reschedule?) && Apply(s.job, w, policy) == Ok(job)
    ensures CancelFollows(s0, s.(job := job))
  {
  }

  lemma {:induction false} CancelFollowsStep(s0: System, s: System, step: Step, policy: Policy)
    requires Inv(s0, policy) && s0.job.status == Running
    requires Inv(s, policy) && CancelFollows(s0, s)
    ensures CancelFollows(s0, Next(s, step, policy))
  {
    if Terminal(s.job.status) {
      TerminalStep(s, step, policy);
    } else if step.StoreWrite? && Disciplined(s, step.write) && Apply(s.job, step.write, policy).Ok? {
      var job := Apply(s.job, step.write, policy).value;
      if step.write.Finish? {
        CancelFollowsFinish(s0, s, step.write, job, policy);
      } else {
        RunningWrites(s, step.write, job, policy);
        if step.write.HeartbeatLease? || step.write.ExpireLease? {
          CancelFollowsLease(s0, s, step.write, job, policy);
        } else {
          CancelFollowsOutbox(s0, s, step.write, job, policy);
        }
      }
    }
  }

  lemma {:induction false} CancelIsFinal(s0: System, s: System, steps: seq<Step>, policy: Policy)
    requires Inv(s0, policy) && s0.job.status == Running
    requires Inv(s, policy) && CancelFollows(s0, s)
    ensures CancelFollows(s0, After(s, steps, policy))
    decreases |steps|
  {
    if steps != [] {
      CancelFollowsStep(s0, s, steps[0], policy);
      NextKeepsInv(s, steps[0], policy);
      CancelIsFinal(s0, Next(s, steps[0], policy), steps[1..], policy);
    }
  }

  /** Once a cancel is recorded on a running job, every later state follows it. */
  lemma {:induction false} RecordedCancelBindsTheFuture(s: System, now: int, steps: seq<Step>, policy: Policy)
    requires Reachable(s, policy) && s.job.status == Running
    ensures s.job.currentRun in s.job.runs && s.job.runs[s.job.currentRun].lease.Some?
    ensures var cancelled := Next(s, StoreWrite(CancelJob(now)), policy);
            CancelFollows(s, After(cancelled, steps, policy))
  {
    ReachableInv(s, policy);
    NextKeepsInv(s, StoreWrite(CancelJob(now)), policy);
    var cancelled := Next(s, StoreWrite(CancelJob(now)), policy);
    CancelIsFinal(s, cancelled, steps, policy);
  }

  // ------------------------------------------------------ fencing and results

  /** Only the job's newest claim can finish, extend or publish; older attempts always lose. */
  lemma {:induction false} StaleAttemptLoses(s: System, a: ClaimedAttempt, policy: Policy, now: int, lease: int,
                          event: Event, problem: Option<Problem>, tasks: seq<TaskId>, result: Option<ResultReference>)
    requires Reachable(s, policy) && a.attemptId + 1 < |s.job.attempts|
    ensures s.job.currentRun in s.job.runs
    ensures Apply(s.job, HeartbeatLease(a, lease, now), policy).Err?
    ensures Apply(s.job, Finish(a, event, now, problem, tasks, result), policy).Err?
  {
    ReachableInv(s, policy);
  }

  /** A committed result is never replaced, and a run of the job commits at most one. */
  lemma {:induction false} ResultsAreAppendOnly(s: System, steps: seq<Step>, policy: Policy)
    requires Inv(s, policy)
    ensures var r := After(s, steps, policy);
            && |r.job.results| <= 1
            && forall k :: k in s.job.results ==> k in r.job.results && r.job.results[k] == s.job.results[k]
    decreases |steps|
  {
    if s.job.status == Succeeded {
      TerminalIsFinal(s, steps, policy);
      var key := (s.job.currentRun, s.job.runs[s.job.currentRun].resultVersion);
      assert |s.job.results.Keys| == |{key}|;
    } else if steps != [] {
      NextKeepsInv(s, steps[0], policy);
      ResultsAreAppendOnly(Next(s, steps[0], policy), steps[1..], policy);
    }
  }

  /** The wire view's own validator (`JobStatusView.honest_status`). */
  predicate HonestStatus(job: Job)
    requires job.currentRun in job.runs
  {
    && (job.status in {Failed, Cancelled} <==> job.problem.Some?)
    && (job.status == Succeeded ==> job.runs[job.currentRun].resultVersion >= 1)
    && (job.status == WaitingForHuman ==> job.openTasks != [])
    && (job.cancelRequested ==> job.status == Running || Terminal(job.status))
    && (forall i, j :: 0 <= i < j < |job.openTasks| ==> job.openTasks[i] != job.openTasks[j])
  }

  datatype ResultError = NotPublished | Unverified

  /** `ReviewJobService.result` after authorization. */
  function ServeResult(s: System): Result<Body, ResultError>
    requires s.job.currentRun in s.job.runs
  {
    var version := s.job.runs[s.job.currentRun].resultVersion;
    var key := (s.job.currentRun, version);
    if version < 1 then Err(NotPublished)
    else if key !in s.job.results || key !in s.bodies || s.bodies[key] != s.job.results[key].digest
    then Err(Unverified)
    else Ok(s.bodies[key])
  }

  /** Every reachable job projects to a valid view, and a result is served iff it succeeded. */
  lemma {:induction false} StatusAndResultAreHonest(s: System, policy: Policy)
    requires Reachable(s, policy)
    ensures s.job.currentRun in s.job.runs
    ensures HonestStatus(s.job)
    ensures s.job.status == Succeeded ==> ServeResult(s).Ok?
    ensures s.job.status != Succeeded ==> ServeResult(s) == Err(NotPublished)
  {
    ReachableInv(s, policy);
    if s.job.status == Succeeded {
      var key := (s.job.currentRun, s.job.runs[s.job.currentRun].resultVersion);
      assert key in s.job.results.Keys;
    }
  }

  // -------------------------------------------------------------- publication

  datatype PublishError = BodyRefused | StaleVersion | StoreRefused(error: StoreError)

  /**
   `ReviewJobService.publish`: the body first, then the reference under the attempt's token;
   `others` is what other processes do between the two writes.
   */
  function Publish(s: System, a: ClaimedAttempt, b: Body, others: seq<Step>, now: int, policy: Policy)
    : Result<System, PublishError>
  {
    if b.runId != a.runId || b.version != a.expectedVersion + 1 then Err(StaleVersion)
    else if !BodyAccepted(s, b) then Err(BodyRefused)
    else
      var stored := After(Next(s, PutBody(b), policy), others, policy);
      if stored.job.currentRun !in stored.job.runs then Err(StoreRefused(Lost))
      else
        var r := Apply(stored.job, Commit(a, b, now), policy);
        if r.Err? then Err(StoreRefused(r.error)) else Ok(stored.(job := r.value))
  }

  /** The write that makes a stored body the job's result. */
  function Commit(a: ClaimedAttempt, b: Body, now: int): Write {
    Finish(a, PublishResult, now, None, [], Some(ResultReference(a.runId, b.version, a.token, b)))
  }

  /** A stored body stays. */
  lemma {:induction false} BodyStays(s: System, steps: seq<Step>, b: Body, policy: Policy)
    requires (b.runId, b.version) in s.bodies && s.bodies[(b.runId, b.version)] == b
    ensures var t := After(s, steps, policy);
            (b.runId, b.version) in t.bodies && t.bodies[(b.runId, b.version)] == b
    decreases |steps|
  {
    if steps != [] {
      BodyStays(Next(s, steps[0], policy), steps[1..], b, policy);
    }
  }

  /** An accepted body is there for the commit, whatever others do meanwhile. */
  lemma {:induction false} UploadStands(s: System, b: Body, others: seq<Step>, policy: Policy)
    requires Inv(s, policy) && BodyAccepted(s, b)
    ensures var t := After(Next(s, PutBody(b), policy), others, policy);
            Inv(t, policy) && (b.runId, b.version) in t.bodies && t.bodies[(b.runId, b.version)] == b
  {
    NextKeepsInv(s, PutBody(b), policy);
    AfterKeepsInv(Next(s, PutBody(b), policy), others, policy);
    BodyStays(Next(s, PutBody(b), policy), others, b, policy);
  }

  /** The current attempt's commit of a stored body succeeds and can be read. */
  lemma {:induction false} CommitSucceeds(s: System, a: ClaimedAttempt, b: Body, now: int, policy: Policy)
    requires Inv(s, policy) && a.expectedVersion == 0 && b.runId == a.runId && b.version == 1
    requires (b.runId, b.version) in s.bodies && s.bodies[(b.runId, b.version)] == b
    ensures Apply(s.job, Commit(a, b, now), policy).Ok? <==> HasAuthority(s.job, a)
    ensures HasAuthority(s.job, a) ==>
              var job := Apply(s.job, Commit(a, b, now), policy).value;
              && job.status == Succeeded && job.currentRun in job.runs
              && ServeResult(s.(job := job)) == Ok(b)
              && a.attemptId < |job.attempts| && job.attempts[a.attemptId].outcome == Some(PublishResult)
  {
    if HasAuthority(s.job, a) {
      AuthorityIsLatestClaim(s.job, a);
    }
  }

  /**
   The current attempt publishes exactly when no body, or its own body, is stored for its
   version and it keeps its lease until the commit: a body left by an attempt that died before
   committing is not harmless.
   */
  lemma {:induction false} PublishableExactlyWhenBodySlotFree(s: System, a: ClaimedAttempt, b: Body, others: seq<Step>,
                                                              now: int, policy: Policy)
    requires Reachable(s, policy) && HasAuthority(s.job, a)
    requires a.expectedVersion == s.job.runs[a.runId].resultVersion
    requires b.runId == a.runId && b.version == a.expectedVersion + 1
    ensures Publish(s, a, b, others, now, policy).Ok? <==>
            && ((b.runId, b.version) !in s.bodies || s.bodies[(b.runId, b.version)] == b)
            && HasAuthority(After(Next(s, PutBody(b), policy), others, policy).job, a)
    ensures Publish(s, a, b, others, now, policy).Ok? ==>
              var s' := Publish(s, a, b, others, now, policy).value;
              s'.job.status == Succeeded && s'.job.currentRun in s'.job.runs && ServeResult(s') == Ok(b)
  {
    ReachableInv(s, policy);
    if BodyAccepted(s, b) {
      UploadStands(s, b, others, policy);
      CommitSucceeds(After(Next(s, PutBody(b), policy), others, policy), a, b, now, policy);
    }
  }

  /** The worker only publishes a result that names its own attempt. */
  predicate OwnBody(step: Step) {
    step.StoreWrite? && step.write.Finish? && step.write.result.Some? ==>
      step.write.result.value.digest.attemptId == step.write.attempt.attemptId
  }

  /** The first version's slot of the current run holds the body of an attempt that is over. */
  ghost predicate OrphanHeld(s: System, runId: RunId) {
    && (runId, 1) in s.bodies
    && s.bodies[(runId, 1)].attemptId < Retired(s.job)
  }

  /** The attempts that are over. */
  function Retired(job: Job): int {
    |job.attempts| - (if job.status == Running then 1 else 0)
  }

  /** A write that publishes nothing, revives no attempt and forgets no run. */
  predicate Unpublished(job: Job, after: Job) {
    && (job.status != Succeeded ==> after.status != Succeeded)
    && Retired(job) <= Retired(after)
    && job.runs.Keys <= after.runs.Keys
  }

  lemma {:induction false} LeaseWriteUnpublished(job: Job, w: Write, after: Job, policy: Policy)
    requires w.ClaimRun? || w.HeartbeatLease? || w.ExpireLease?
    requires job.currentRun in job.runs && Apply(job, w, policy) == Ok(after)
    ensures Unpublished(job, after)
  {
  }

  lemma {:induction false} PersonWriteUnpublished(job: Job, w: Write, after: Job, policy: Policy)
    requires w.CancelJob? || w.RejectTask? || w.Resume?
    requires job.currentRun in job.runs && Apply(job, w, policy) == Ok(after)
    ensures Unpublished(job, after)
  {
  }

  lemma {:induction false} OutboxWriteUnpublished(job: Job, w: Write, after: Job, policy: Policy)
    requires w.RetryLater? || w.MarkDispatched? || w.Reschedule?
    requires job.currentRun in job.runs && Apply(job, w, policy) == Ok(after)
    ensures Unpublished(job, after)
  {
  }

  lemma {:induction false} OrphanWrite(s: System, w: Write, job: Job, policy: Policy)
    requires s.job.currentRun in s.job.runs && !w.Finish? && Apply(s.job, w, policy) == Ok(job)
    ensures Unpublished(s.job, job)
  {
    if w.ClaimRun? || w.HeartbeatLease? || w.ExpireLease? {
      LeaseWriteUnpublished(s.job, w, job, policy);
    } else if w.CancelJob? || w.RejectTask? || w.Resume? {
      PersonWriteUnpublished(s.job, w, job, policy);
    } else {
      OutboxWriteUnpublished(s.job, w, job, policy);
    }
  }

  lemma {:induction false} OrphanFinish(s: System, w: Write, job: Job, policy: Policy)
    requires Inv(s, policy) && w.Finish? && Disciplined(s, w) && Finished(s.job, w, policy) == Ok(job)
    requires OwnBody(StoreWrite(w)) && OrphanHeld(s, s.job.currentRun)
    ensures job.status != Succeeded && |job.attempts| == |s.job.attempts| && job.runs.Keys == s.job.runs.Keys
  {
    AuthorityIsLatestClaim(s.job, w.attempt);
  }

  lemma {:induction false} OrphanStep(s: System, step: Step, runId: RunId, policy: Policy)
    requires Inv(s, policy) && OwnBody(step) && OrphanHeld(s, runId)
    requires s.job.currentRun == runId && s.job.status != Succeeded
    ensures OrphanHeld(Next(s, step, policy), runId) && Next(s, step, policy).job.status != Succeeded
    ensures runId in Next(s, step, policy).job.runs
  {
    if step.StoreWrite? && Disciplined(s, step.write) && Apply(s.job, step.write, policy).Ok? {
      var job := Apply(s.job, step.write, policy).value;
      if step.write.Finish? {
        OrphanFinish(s, step.write, job, policy);
      } else {
        OrphanWrite(s, step.write, job, policy);
      }
    }
  }

  /** The run is current, unpublished, and an attempt that is over holds its slot. */
  ghost predicate Blocked(s: System, runId: RunId) {
    OrphanHeld(s, runId) && s.job.currentRun == runId && s.job.status != Succeeded
  }

  lemma {:induction false} BlockedStep(s: System, step: Step, runId: RunId, policy: Policy) returns (after: System)
    requires Inv(s, policy) && OwnBody(step) && Blocked(s, runId)
    ensures after == Next(s, step, policy) && Inv(after, policy)
    ensures Blocked(after, runId) || (runId in after.job.runs && after.job.currentRun != runId)
  {
    after := Next(s, step, policy);
    OrphanStep(s, step, runId, policy);
    NextKeepsInv(s, step, policy);
  }

  /** Such a body blocks its run forever: no later attempt of the run ever succeeds. */
  lemma {:induction false} OrphanBodyBlocksItsRun(s: System, steps: seq<Step>, runId: RunId, policy: Policy)
    requires Inv(s, policy) && OrphanHeld(s, runId)
    requires s.job.currentRun == runId && s.job.status != Succeeded
    requires forall i :: 0 <= i < |steps| ==> OwnBody(steps[i])
    ensures After(s, steps, policy).job.currentRun == runId ==> After(s, steps, policy).job.status != Succeeded
    decreases |steps|
  {
    if steps != [] {
      var next := BlockedStep(s, steps[0], runId, policy);
      if next.job.currentRun == runId {
        OrphanBodyBlocksItsRun(next, steps[1..], runId, policy);
      } else {
        RunsNeverReturn(next, steps[1..], runId, policy);
      }
    }
  }

  lemma {:induction false} RunNeverReturns(job: Job, w: Write, job': Job, runId: RunId, policy: Policy)
    requires job.currentRun in job.runs && runId in job.runs && job.currentRun != runId
    requires Apply(job, w, policy) == Ok(job')
    ensures runId in job'.runs && job'.currentRun != runId
  {
  }

  /** A superseded run never becomes current again. */
  lemma {:induction false} RunsNeverReturn(s: System, steps: seq<Step>, runId: RunId, policy: Policy)
    requires Inv(s, policy) && runId in s.job.runs && s.job.currentRun != runId
    ensures After(s, steps, policy).job.currentRun != runId
    decreases |steps|
  {
    if steps != [] {
      if steps[0].StoreWrite? && Apply(s.job, steps[0].write, policy).Ok? {
        RunNeverReturns(s.job, steps[0].write, Apply(s.job, steps[0].write, policy).value, runId, policy);
      }
      NextKeepsInv(s, steps[0], policy);
      RunsNeverReturn(Next(s, steps[0], policy), steps[1..], runId, policy);
    }
  }

  lemma {:induction false} ClaimedState(s: System, owner: nat, policy: Policy)
    requires Reachable(s, policy) && s.job.status == Queued
    ensures s.job.currentRun in s.job.runs
    ensures var t := Next(s, StoreWrite(ClaimRun(s.job.currentRun, owner, policy.leaseSeconds, 0)), policy);
            && Reachable(t, policy)
            && t.job.status == Running
            && t.bodies == s.bodies
            && t.job.currentRun == s.job.currentRun
            && t.job.cancelRequested == s.job.cancelRequested
            && t.job.leaseTakeoverCount == s.job.leaseTakeoverCount
            && |t.job.attempts| == |s.job.attempts| + 1
            && LeaseExpiredBy(t.job, t.job.currentRun, policy.leaseSeconds)
  {
    ReachableInv(s, policy);
    ReachableNext(s, StoreWrite(ClaimRun(s.job.currentRun, owner, policy.leaseSeconds, 0)), policy);
  }

  /**
   Every queued job with a takeover left can get there: claim, store the body, die before
   committing it, get reclaimed.
   */
  lemma {:induction false} OrphanBodyHappens(s: System, owner: nat, content: nat, policy: Policy)
    requires Reachable(s, policy) && s.job.status == Queued
    requires s.job.leaseTakeoverCount + 1 < policy.maxLeaseTakeovers
    requires (s.job.currentRun, 1) !in s.bodies
    ensures exists t :: Reachable(t, policy) && t.job.status == Queued &&
                        t.job.currentRun == s.job.currentRun && OrphanHeld(t, s.job.currentRun)
  {
    ReachableInv(s, policy);
    ClaimedState(s, owner, policy);
    var t := Next(s, StoreWrite(ClaimRun(s.job.currentRun, owner, policy.leaseSeconds, 0)), policy);
    DiesAfterStoring(t, content, policy);
  }

  lemma {:induction false} DiesAfterStoring(t: System, content: nat, policy: Policy)
    requires Reachable(t, policy) && LeaseExpiredBy(t.job, t.job.currentRun, policy.leaseSeconds)
    requires !t.job.cancelRequested && t.job.leaseTakeoverCount + 1 < policy.maxLeaseTakeovers
    requires (t.job.currentRun, 1) !in t.bodies
    ensures exists u :: Reachable(u, policy) && u.job.status == Queued &&
                        u.job.currentRun == t.job.currentRun && OrphanHeld(u, t.job.currentRun)
  {
    ReachableInv(t, policy);
    var run := t.job.currentRun;
    var b := Body(run, 1, |t.job.attempts| - 1, content);
    ReachableNext(t, PutBody(b), policy);
    ReclaimedState(t.(bodies := t.bodies[(run, 1) := b]), policy);
  }

  lemma {:induction false} ReclaimedState(t: System, policy: Policy)
    requires Reachable(t, policy) && LeaseExpiredBy(t.job, t.job.currentRun, policy.leaseSeconds)
    requires !t.job.cancelRequested && t.job.leaseTakeoverCount + 1 < policy.maxLeaseTakeovers
    ensures exists u :: Reachable(u, policy) && u.job.status == Queued && u.job.currentRun == t.job.currentRun &&
                        u.bodies == t.bodies && |u.job.attempts| == |t.job.attempts|
  {
    var expire := StoreWrite(ExpireLease(t.job.currentRun, t.job.runs[t.job.currentRun].token, policy.leaseSeconds));
    ReachableNext(t, expire, policy);
    ReclaimRecovers(t, policy, policy.leaseSeconds);
    var u := Next(t, expire, policy);
    assert u.job.status == Queued;
  }
}
