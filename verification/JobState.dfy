/**
 The durable job status machine (`application/job_state.py`).

 `NextState` is the single authority for status changes. It reads no clock and no
 store: lease expiry arrives as the `LeaseExpired` event.
 */
module JobState {
  import opened Common

  datatype Status =
    | Queued
    | Dispatched
    | Running
    | WaitingForHuman
    | RetryableFailed
    | Failed
    | Succeeded
    | Cancelled

  datatype Event =
    | Submit
    | DispatchSucceeded
    | DispatchFailed
    | Claim
    | Heartbeat
    | LeaseExpired
    | NeedsHuman
    | PublishResult
    | RetryableError
    | PermanentError
    | ScheduleRetry
    | HumanResponseCommitted
    | HumanRejected
    | Cancel
    | CancelAcknowledged

  /** The two ceilings and the backoff bounds; `ValidPolicy` is the constructor's check. */
  datatype Policy = Policy(
    leaseSeconds: int,
    heartbeatSeconds: int,
    visibilityTimeoutSeconds: int,
    maxAttempts: int,
    maxLeaseTakeovers: int,
    backoffBaseSeconds: int,
    backoffCapSeconds: int)

  predicate ValidPolicy(p: Policy) {
    && p.leaseSeconds >= 1
    && p.heartbeatSeconds >= 1
    && p.backoffBaseSeconds >= 1
    && p.maxAttempts >= 1
    && p.maxLeaseTakeovers >= 1
    && p.heartbeatSeconds * 3 <= p.leaseSeconds
    && p.visibilityTimeoutSeconds > p.leaseSeconds
    && p.backoffCapSeconds >= p.backoffBaseSeconds
  }

  datatype Facts = Facts(
    status: Status,
    attemptCount: int,
    leaseTakeoverCount: int,
    cancelRequested: bool,
    hasOpenTasks: bool)

  datatype Transition = Transition(
    status: Status,
    attemptDelta: int,
    takeoverDelta: int,
    releaseLease: bool,
    enqueueOutbox: bool,
    requestCancel: bool,
    requiresLease: bool)

  /** `Conflict` is the service fault, `NegativeCounter` the value error. */
  datatype Rejection = Conflict | NegativeCounter

  predicate Terminal(s: Status) {
    s in {Failed, Succeeded, Cancelled}
  }

  predicate Claimable(s: Status) {
    s in {Queued, Dispatched, RetryableFailed}
  }

  predicate Cancellable(s: Status) {
    s in {Queued, Dispatched, WaitingForHuman, RetryableFailed}
  }

  predicate LeaseBound(e: Event) {
    e in {Heartbeat, NeedsHuman, PublishResult, RetryableError, PermanentError, CancelAcknowledged}
  }

  /** A transition to `s` that carries no other effect. */
  function To(s: Status): Transition {
    Transition(s, 0, 0, false, false, false, false)
  }

  function CancelPreempted(requiresLease: bool): Transition {
    To(Cancelled).(releaseLease := true, requiresLease := requiresLease)
  }

  function InitialTransition(): Transition {
    To(Queued).(enqueueOutbox := true)
  }

  function NextState(facts: Facts, event: Event, policy: Policy): Result<Transition, Rejection> {
    if facts.attemptCount < 0 || facts.leaseTakeoverCount < 0 then Err(NegativeCounter)
    else if Terminal(facts.status) then Err(Conflict)
    else if event == Submit then Err(Conflict)
    else if LeaseBound(event) && facts.status != Running then Err(Conflict)
    else
      match event
      case Submit => Err(Conflict)
      case DispatchSucceeded =>
        if facts.status != Queued then Err(Conflict) else Ok(To(Dispatched))
      case DispatchFailed => Ok(To(facts.status))
      case Claim =>
        if !Claimable(facts.status) then Err(Conflict) else Ok(To(Running))
      case Heartbeat => Ok(To(Running).(requiresLease := true))
      case LeaseExpired =>
        if facts.status != Running then Err(Conflict)
        else if facts.cancelRequested then Ok(CancelPreempted(false))
        else
          var exhausted := facts.leaseTakeoverCount + 1 >= policy.maxLeaseTakeovers;
          Ok(To(if exhausted then Failed else Queued).(
             takeoverDelta := 1, releaseLease := true, enqueueOutbox := !exhausted))
      case NeedsHuman =>
        if facts.cancelRequested then Ok(CancelPreempted(true))
        else if !facts.hasOpenTasks then Err(Conflict)
        else Ok(To(WaitingForHuman).(releaseLease := true, requiresLease := true))
      case PublishResult => Ok(To(Succeeded).(releaseLease := true, requiresLease := true))
      case RetryableError =>
        if facts.cancelRequested then Ok(CancelPreempted(true))
        else
          var exhausted := facts.attemptCount + 1 >= policy.maxAttempts;
          Ok(To(if exhausted then Failed else RetryableFailed).(
             attemptDelta := 1, releaseLease := true, requiresLease := true))
      case PermanentError => Ok(To(Failed).(releaseLease := true, requiresLease := true))
      case ScheduleRetry =>
        if facts.status != RetryableFailed then Err(Conflict)
        else Ok(To(Queued).(enqueueOutbox := true))
      case HumanRejected =>
        if facts.status != WaitingForHuman then Err(Conflict)
        else Ok(To(if facts.hasOpenTasks then WaitingForHuman else Failed))
      case HumanResponseCommitted =>
        if facts.status != WaitingForHuman then Err(Conflict)
        else Ok(To(Queued).(enqueueOutbox := true))
      case Cancel =>
        if facts.status == Running then Ok(To(Running).(requestCancel := true))
        else if !Cancellable(facts.status) then Err(Conflict)
        else Ok(To(Cancelled).(releaseLease := true))
      case CancelAcknowledged =>
        if !facts.cancelRequested then Err(Conflict)
        else Ok(To(Cancelled).(releaseLease := true, requiresLease := true))
  }

  ghost predicate Allowed(facts: Facts, event: Event) {
    match event
    case Submit => false
    case DispatchSucceeded => facts.status == Queued
    case Claim => facts.status in {Queued, Dispatched, RetryableFailed}
    case ScheduleRetry => facts.status == RetryableFailed
    case HumanResponseCommitted => facts.status == WaitingForHuman
    case HumanRejected => facts.status == WaitingForHuman
    case NeedsHuman => facts.status == Running && (facts.cancelRequested || facts.hasOpenTasks)
    case CancelAcknowledged => facts.status == Running && facts.cancelRequested
    case DispatchFailed => facts.status !in {Failed, Succeeded, Cancelled}
    case Cancel => facts.status !in {Failed, Succeeded, Cancelled}
    case _ => facts.status == Running
  }

  /** The effects of a transition follow from where it leads: an owner's event needs the lease; leaving the
      running state, or a cancel, releases it; entering the queue adds a round; no event before a recorded
      cancel is charged to a counter. */
  lemma {:induction false} EffectsFollow(facts: Facts, event: Event, policy: Policy)
    ensures NextState(facts, event, policy).Ok? <==>
      facts.attemptCount >= 0 && facts.leaseTakeoverCount >= 0 && Allowed(facts, event)
    ensures NextState(facts, event, policy) == Err(NegativeCounter) <==> facts.attemptCount < 0 || facts.leaseTakeoverCount < 0
    ensures NextState(facts, event, policy).Ok? ==>
      var t := NextState(facts, event, policy).value;
      && (t.requiresLease <==> LeaseBound(event))
      && (t.releaseLease <==> (facts.status == Running && t.status != Running) || (event == Cancel && t.status == Cancelled))
      && (t.enqueueOutbox <==> t.status == Queued && facts.status != Queued)
      && (t.requestCancel <==> event == Cancel && facts.status == Running)
      && t.attemptDelta == (if event == RetryableError && !facts.cancelRequested then 1 else 0)
      && t.takeoverDelta == (if event == LeaseExpired && !facts.cancelRequested then 1 else 0)
  {
  }

  /** `None` is the value error for a non-positive attempt number. */
  function BackoffSeconds(p: Policy, attempt: int): Option<int> {
    if attempt < 1 then None
    else
      var shift := Min(attempt - 1, 32);
      Some(Min(p.backoffBaseSeconds * Pow2(shift), p.backoffCapSeconds))
  }

  lemma {:induction false} Scaled(base: int, m: int, n: int)
    requires base >= 1 && 1 <= m <= n
    ensures base <= base * m <= base * n
  {
    assert base * n == base * m + base * (n - m);
    assert base * m == base + base * (m - 1);
  }

  /** Backoff stays between the base and the cap and never shrinks with more attempts. */
  lemma {:induction false} BackoffBounds(p: Policy, a: int, b: int)
    requires ValidPolicy(p) && 1 <= a <= b
    ensures BackoffSeconds(p, a).Some? && BackoffSeconds(p, b).Some?
    ensures p.backoffBaseSeconds <= BackoffSeconds(p, a).value <= p.backoffCapSeconds
    ensures BackoffSeconds(p, a).value <= BackoffSeconds(p, b).value
  {
    var m: nat, n: nat := Min(a - 1, 32), Min(b - 1, 32);
    Pow2Monotone(0, m);
    Pow2Monotone(m, n);
    Scaled(p.backoffBaseSeconds, Pow2(m), Pow2(n));
  }

  /** The delay starts at the base and doubles with every attempt until it meets the cap; from the
      33rd attempt on it stays what it is. */
  lemma {:induction false} BackoffDoubles(p: Policy, a: int)
    requires ValidPolicy(p)
    ensures BackoffSeconds(p, a).Some? <==> a >= 1
    ensures BackoffSeconds(p, 1) == Some(p.backoffBaseSeconds)
    ensures 1 <= a < 33 ==> BackoffSeconds(p, a + 1) == Some(Min(2 * BackoffSeconds(p, a).value, p.backoffCapSeconds))
    ensures 33 <= a ==> BackoffSeconds(p, a) == BackoffSeconds(p, 33)
  {
    if 1 <= a < 33 {
      var m: nat := a - 1;
      assert Pow2(m + 1) == 2 * Pow2(m);
      assert p.backoffBaseSeconds * Pow2(m + 1) == 2 * (p.backoffBaseSeconds * Pow2(m));
    }
    assert Pow2(0) == 1;
  }
}
