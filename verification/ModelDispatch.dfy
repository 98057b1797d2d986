/**
 Serialized physical sends through one durable owner register
 (`application/model_dispatch.py`, `ports/model_dispatch.py`,
 `adapters/local/sqlite_model_dispatch.py`).

 Any number of `send` calls, interleaved at every store access, clock reading and check, with
 crashes anywhere. Time is one monotonic clock in whole units.
 */
module ModelDispatch {
  import opened Common

  // ----------------------------------------------------------------- one sender's wait

  /** A monotonic clock, by reading number, that passes every deadline eventually. */
  ghost predicate Monotonic(clock: nat -> int) {
    forall a: nat, b: nat :: a <= b ==> clock(a) <= clock(b)
  }

  function Earlier(a: int, b: int): int {
    if a < b then a else b
  }

  /** `_wait` after its first reading, the `first`th. `fine` is everything else `guard.check`
      asks at each reading. It returns normally only after the whole duration, whatever the
      deadline; `horizon` is a reading by which the deadline has passed. */
  method Wait(clock: nat -> int, fine: nat -> bool, deadline: int, duration: nat, first: nat, horizon: nat)
    returns (k: nat, permitted: bool)
    requires Monotonic(clock) && clock(horizon) >= deadline
    ensures first < k
    ensures permitted ==> clock(first) + duration <= clock(k) < deadline && fine(k)
    ensures forall j :: first < j < k - 2 ==> clock(j) < clock(first) + duration && clock(j) < deadline
    ensures !permitted ==> clock(k) >= deadline || !fine(k)
  {
    var until := clock(first) + duration;
    k := first + 1;
    while true
      invariant first < k
      invariant forall j :: first < j < k ==> clock(j) < until && clock(j) < deadline
      decreases horizon - k
    {
      if clock(k) >= deadline || !fine(k) {
        return k, false;
      }
      assert k < horizon;
      if clock(k + 1) >= Earlier(until, deadline) {
        k := k + 2;
        assert clock(k - 1) <= clock(k);
        return k, clock(k) < deadline && fine(k);
      }
      k := k + 2;
    }
  }

  // ------------------------------------------------------------------ the owner register

  function Acquired(owner: Option<nat>, me: nat): (Option<nat>, bool) {
    if owner.None? then (Some(me), true) else (owner, false)
  }

  function Released(owner: Option<nat>, me: nat): (Option<nat>, bool) {
    if owner == Some(me) then (None, true) else (owner, false)
  }

  /** One row of the shared store. */
  class Register {
    var owner: Option<nat>

    constructor ()
      ensures owner == None
    {
      owner := None;
    }

    method TryAcquire(me: nat) returns (taken: bool)
      modifies this
      ensures (owner, taken) == Acquired(old(owner), me)
    {
      taken := owner.None?;
      if taken {
        owner := Some(me);
      }
    }

    method Release(me: nat) returns (done: bool)
      modifies this
      ensures (owner, done) == Released(old(owner), me)
    {
      done := owner == Some(me);
      if done {
        owner := None;
      }
    }
  }

  // --------------------------------------------------------------------- all the senders

  /** Where one `send` is. */
  datatype Phase =
    | Polling
    | Owning
    | Pausing(until: int)
    | Paused(until: int)
    | Calling
    | Leaving
    | Over

  datatype Sender = Sender(deadline: int, phase: Phase)

  /** A physical call; no end while it may still be running. */
  datatype Call = Call(sender: nat, begun: int, ended: Option<int>)

  datatype System = System(now: int, owner: Option<nat>, senders: seq<Sender>, calls: seq<Call>)

  /** A store access answers, or fails with its write done or not. */
  datatype Store = Answers | Fails(written: bool)

  datatype Step =
    | Tick(passed: nat)
    | Begin(deadline: int)
    | TryAcquire(i: nat, fine: bool, store: Store)
    | StartPause(i: nat)
    | EndPause(i: nat)
    | Deny(i: nat)
    | Charge(i: nat, fine: bool)
    | EndCall(i: nat)
    | Release(i: nat, store: Store)
    | Crash(i: nat)

  function Put(sys: System, i: nat, p: Phase): System
    requires i < |sys.senders|
  {
    sys.(senders := sys.senders[i := sys.senders[i].(phase := p)])
  }

  predicate Permits(sys: System, i: nat, fine: bool)
    requires i < |sys.senders|
  {
    sys.now < sys.senders[i].deadline && fine
  }

  function StartedCall(sys: System, i: nat): System
    requires i < |sys.senders|
  {
    Put(sys, i, Calling).(calls := sys.calls + [Call(i, sys.now, None)])
  }

  function EndedCall(sys: System, i: nat): System
    requires i < |sys.senders| && sys.calls != []
  {
    var n := |sys.calls| - 1;
    Put(sys, i, Leaving).(calls := sys.calls[n := sys.calls[n].(ended := Some(sys.now))])
  }

  /** Steps whose sender is not at that point do nothing. */
  function Next(sys: System, step: Step, interval: nat): System {
    match step
    case Tick(d) => sys.(now := sys.now + d)
    case Begin(deadline) => sys.(senders := sys.senders + [Sender(deadline, Polling)])
    case TryAcquire(i, fine, store) =>
      if i >= |sys.senders| || !sys.senders[i].phase.Polling? then sys
      else if !Permits(sys, i, fine) then Put(sys, i, Over)
      else if store.Fails? then Put(if store.written then sys.(owner := Acquired(sys.owner, i).0) else sys, i, Over)
      else
        var (owner, taken) := Acquired(sys.owner, i);
        Put(sys.(owner := owner), i, if taken then Owning else Polling)
    case StartPause(i) =>
      if i < |sys.senders| && sys.senders[i].phase.Owning? then Put(sys, i, Pausing(sys.now + interval)) else sys
    case EndPause(i) =>
      if i < |sys.senders| && sys.senders[i].phase.Pausing? && sys.now >= Earlier(sys.senders[i].phase.until, sys.senders[i].deadline)
      then Put(sys, i, Paused(sys.senders[i].phase.until)) else sys
    case Deny(i) =>
      if i < |sys.senders| && (sys.senders[i].phase.Pausing? || sys.senders[i].phase.Paused?) then Put(sys, i, Leaving) else sys
    case Charge(i, fine) =>
      if i >= |sys.senders| || !sys.senders[i].phase.Paused? then sys
      else if Permits(sys, i, fine) then StartedCall(sys, i)
      else Put(sys, i, Leaving)
    case EndCall(i) =>
      if i < |sys.senders| && sys.senders[i].phase.Calling? && sys.calls != [] then EndedCall(sys, i) else sys
    case Release(i, store) =>
      if i >= |sys.senders| || !sys.senders[i].phase.Leaving? then sys
      else
        var freed := if store.Answers? || store.written then Released(sys.owner, i).0 else sys.owner;
        Put(sys.(owner := freed), i, Over)
    case Crash(i) =>
      if i < |sys.senders| then Put(sys, i, Over) else sys
  }

  function After(steps: seq<Step>, interval: nat): System {
    if steps == [] then System(0, None, [], []) else Next(After(steps[..|steps| - 1], interval), steps[|steps| - 1], interval)
  }

  // -------------------------------------------------------------------------- invariant

  predicate EndedBy(c: Call, t: int) {
    c.ended.Some? && c.ended.value <= t
  }

  ghost predicate AllEndedBy(calls: seq<Call>, t: int) {
    forall k :: 0 <= k < |calls| ==> EndedBy(calls[k], t)
  }

  /** Each call begins a full interval after every earlier one has ended. */
  ghost predicate Spaced(calls: seq<Call>, interval: nat) {
    forall k, l :: 0 <= k < l < |calls| ==> EndedBy(calls[k], calls[l].begun - interval)
  }

  predicate Active(p: Phase) {
    !p.Polling? && !p.Over?
  }

  /** What the calls look like from the owner's phase. */
  ghost predicate OwnerView(p: Phase, me: nat, calls: seq<Call>, now: int, interval: nat, deadline: int) {
    match p
    case Owning => AllEndedBy(calls, now)
    case Pausing(until) => AllEndedBy(calls, until - interval) && until - interval <= now
    case Paused(until) => AllEndedBy(calls, until - interval) && until - interval <= now && now >= Earlier(until, deadline)
    case Calling => calls != [] && calls[|calls| - 1].sender == me && calls[|calls| - 1].begun <= now && AllEndedBy(calls[..|calls| - 1], now)
    case Leaving => AllEndedBy(calls, now)
    case _ => true
  }

  ghost predicate Inv(sys: System, interval: nat) {
    && Spaced(sys.calls, interval)
    && (sys.owner.None? ==> AllEndedBy(sys.calls, sys.now))
    && (forall i :: 0 <= i < |sys.senders| && Active(sys.senders[i].phase) ==>
          && sys.owner == Some(i)
          && OwnerView(sys.senders[i].phase, i, sys.calls, sys.now, interval, sys.senders[i].deadline))
    && (sys.owner.Some? ==> sys.owner.value < |sys.senders|)
  }

  lemma {:induction false} LaterStillEnded(calls: seq<Call>, t: int, u: int)
    requires AllEndedBy(calls, t) && t <= u
    ensures AllEndedBy(calls, u)
  {
  }

  lemma {:induction false} ChargeKeeps(sys: System, i: nat, interval: nat)
    requires Inv(sys, interval) && i < |sys.senders| && sys.senders[i].phase.Paused? && sys.now < sys.senders[i].deadline
    ensures Inv(StartedCall(sys, i), interval)
  {
    var after := StartedCall(sys, i);
    assert OwnerView(sys.senders[i].phase, i, sys.calls, sys.now, interval, sys.senders[i].deadline);
    assert after.calls[..|sys.calls|] == sys.calls;
    forall k, l | 0 <= k < l < |after.calls| ensures EndedBy(after.calls[k], after.calls[l].begun - interval) {
      if l == |sys.calls| {
        assert EndedBy(sys.calls[k], sys.senders[i].phase.until - interval);
      } else {
        assert EndedBy(sys.calls[k], sys.calls[l].begun - interval);
      }
    }
  }

  lemma {:induction false} EndCallKeeps(sys: System, i: nat, interval: nat)
    requires Inv(sys, interval) && i < |sys.senders| && sys.senders[i].phase.Calling? && sys.calls != []
    ensures Inv(EndedCall(sys, i), interval)
  {
    var after, n := EndedCall(sys, i), |sys.calls| - 1;
    assert OwnerView(Calling, i, sys.calls, sys.now, interval, sys.senders[i].deadline);
    forall k | 0 <= k < |after.calls| ensures EndedBy(after.calls[k], sys.now) {
      if k < n {
        assert EndedBy(sys.calls[..n][k], sys.now);
      }
    }
    forall k, l | 0 <= k < l < |after.calls| ensures EndedBy(after.calls[k], after.calls[l].begun - interval) {
      assert EndedBy(sys.calls[k], sys.calls[l].begun - interval);
    }
  }

  /** A change of one sender's phase, of time and of the register, with no call begun or ended. */
  lemma {:induction false} QuietKeeps(sys: System, after: System, i: nat, interval: nat)
    requires Inv(sys, interval) && i < |sys.senders| == |after.senders|
    requires after.calls == sys.calls && after.now == sys.now
    requires forall j :: 0 <= j < |sys.senders| && j != i ==> after.senders[j] == sys.senders[j]
    requires after.owner.Some? ==> after.owner.value < |after.senders|
    requires after.owner == sys.owner || ((sys.owner.None? || sys.owner == Some(i)) && (after.owner.None? || after.owner == Some(i)))
    requires after.owner.None? ==> AllEndedBy(sys.calls, sys.now)
    requires Active(after.senders[i].phase) ==>
      && after.owner == Some(i)
      && OwnerView(after.senders[i].phase, i, sys.calls, sys.now, interval, after.senders[i].deadline)
    ensures Inv(after, interval)
  {
  }

  lemma {:induction false} DenyKeeps(sys: System, i: nat, interval: nat)
    requires Inv(sys, interval) && i < |sys.senders| && (sys.senders[i].phase.Pausing? || sys.senders[i].phase.Paused?)
    ensures Inv(Put(sys, i, Leaving), interval)
  {
    LaterStillEnded(sys.calls, sys.senders[i].phase.until - interval, sys.now);
    QuietKeeps(sys, Put(sys, i, Leaving), i, interval);
  }

  /** Steps that begin or end no call. */
  lemma {:induction false} PlainStepKeeps(sys: System, step: Step, i: nat, interval: nat)
    requires Inv(sys, interval) && i < |sys.senders|
    requires (step.StartPause? && step.i == i) || (step.EndPause? && step.i == i) || (step.Crash? && step.i == i)
    ensures Inv(Next(sys, step, interval), interval)
  {
    QuietKeeps(sys, Next(sys, step, interval), i, interval);
  }

  lemma {:induction false} RegisterStepKeeps(sys: System, step: Step, i: nat, interval: nat)
    requires Inv(sys, interval) && i < |sys.senders|
    requires (step.TryAcquire? && step.i == i) || (step.Release? && step.i == i)
    ensures Inv(Next(sys, step, interval), interval)
  {
    QuietKeeps(sys, Next(sys, step, interval), i, interval);
  }

  lemma {:induction false} NextKeeps(sys: System, step: Step, interval: nat)
    requires Inv(sys, interval)
    ensures Inv(Next(sys, step, interval), interval)
  {
    match step
    case Tick(d) => TickKeeps(sys, d, interval);
    case Begin(_) =>
    case TryAcquire(i, _, _) => if i < |sys.senders| { RegisterStepKeeps(sys, step, i, interval); }
    case StartPause(i) => if i < |sys.senders| { PlainStepKeeps(sys, step, i, interval); }
    case EndPause(i) => if i < |sys.senders| { PlainStepKeeps(sys, step, i, interval); }
    case Deny(i) =>
      if i < |sys.senders| && (sys.senders[i].phase.Pausing? || sys.senders[i].phase.Paused?) {
        DenyKeeps(sys, i, interval);
      }
    case Charge(i, fine) =>
      if i < |sys.senders| && sys.senders[i].phase.Paused? {
        if Permits(sys, i, fine) {
          ChargeKeeps(sys, i, interval);
        } else {
          DenyKeeps(sys, i, interval);
        }
      }
    case EndCall(i) =>
      if i < |sys.senders| && sys.senders[i].phase.Calling? && sys.calls != [] {
        EndCallKeeps(sys, i, interval);
      }
    case Release(i, _) => if i < |sys.senders| { RegisterStepKeeps(sys, step, i, interval); }
    case Crash(i) => if i < |sys.senders| { PlainStepKeeps(sys, step, i, interval); }
  }

  lemma {:induction false} TickKeeps(sys: System, d: nat, interval: nat)
    requires Inv(sys, interval)
    ensures Inv(sys.(now := sys.now + d), interval)
  {
    if sys.owner.None? {
      LaterStillEnded(sys.calls, sys.now, sys.now + d);
    }
    forall i | 0 <= i < |sys.senders| && Active(sys.senders[i].phase)
      ensures OwnerView(sys.senders[i].phase, i, sys.calls, sys.now + d, interval, sys.senders[i].deadline)
    {
      match sys.senders[i].phase
      case Owning => LaterStillEnded(sys.calls, sys.now, sys.now + d);
      case Leaving => LaterStillEnded(sys.calls, sys.now, sys.now + d);
      case Calling => LaterStillEnded(sys.calls[..|sys.calls| - 1], sys.now, sys.now + d);
      case _ =>
    }
  }

  lemma {:induction false} ReachableInv(steps: seq<Step>, interval: nat)
    ensures Inv(After(steps, interval), interval)
  {
    if steps != [] {
      ReachableInv(steps[..|steps| - 1], interval);
      NextKeeps(After(steps[..|steps| - 1], interval), steps[|steps| - 1], interval);
    }
  }

  // ------------------------------------------------------------------------ main results

  /** In every interleaving of any number of senders, physical calls never overlap: each begins
      at least the full interval after every earlier one has ended. */
  lemma {:induction false} CallsAreSpaced(steps: seq<Step>, interval: nat, k: nat, l: nat)
    requires k < l < |After(steps, interval).calls|
    ensures
      var calls := After(steps, interval).calls;
      calls[k].ended.Some? && calls[k].ended.value + interval <= calls[l].begun
  {
    ReachableInv(steps, interval);
    assert EndedBy(After(steps, interval).calls[k], After(steps, interval).calls[l].begun - interval);
  }

  /** The register is owned by a `send` that is over and will never release it. */
  predicate Orphaned(sys: System) {
    sys.owner.Some? && sys.owner.value < |sys.senders| && sys.senders[sys.owner.value].phase.Over?
  }

  /** The steps that end a `send` without its release: the owner crashes, or the store fails
      after writing an acquisition or before writing a release. */
  predicate Orphans(sys: System, step: Step) {
    match step
    case Crash(i) => i < |sys.senders| && Active(sys.senders[i].phase)
    case TryAcquire(i, fine, store) =>
      && i < |sys.senders| && sys.senders[i].phase.Polling? && Permits(sys, i, fine)
      && store == Fails(true) && sys.owner.None?
    case Release(i, store) => i < |sys.senders| && sys.senders[i].phase.Leaving? && store == Fails(false)
    case _ => false
  }

  /** A register that is not free is orphaned or its owner is still at work. */
  predicate Held(sys: System) {
    sys.owner.Some? ==>
      sys.owner.value < |sys.senders| && (Orphaned(sys) || Active(sys.senders[sys.owner.value].phase))
  }

  lemma {:induction false} ReachableHeld(steps: seq<Step>, interval: nat)
    ensures Held(After(steps, interval))
  {
    if steps != [] {
      ReachableHeld(steps[..|steps| - 1], interval);
    }
  }

  /** One step orphans the register exactly if it is one of those. */
  lemma {:induction false} OrphanedByStep(sys: System, step: Step, interval: nat)
    requires Inv(sys, interval) && Held(sys) && !Orphaned(sys)
    ensures Orphaned(Next(sys, step, interval)) <==> Orphans(sys, step)
    ensures Orphans(sys, step) ==> Next(sys, step, interval).calls == sys.calls
  {
  }

  lemma {:induction false} OrphanStays(sys: System, step: Step, interval: nat)
    requires Inv(sys, interval) && Orphaned(sys)
    ensures
      var after := Next(sys, step, interval);
      Orphaned(after) && after.owner == sys.owner && after.calls == sys.calls
  {
    assert forall i :: 0 <= i < |sys.senders| ==> !Active(sys.senders[i].phase);
  }

  lemma {:induction false} OrphanKept(steps: seq<Step>, more: seq<Step>, interval: nat)
    requires Orphaned(After(steps, interval))
    ensures Orphaned(After(steps + more, interval))
    ensures After(steps + more, interval).owner == After(steps, interval).owner
    ensures After(steps + more, interval).calls == After(steps, interval).calls
  {
    if more == [] {
      assert steps + more == steps;
    } else {
      var n := |more| - 1;
      OrphanKept(steps, more[..n], interval);
      assert (steps + more)[..|steps + more| - 1] == steps + more[..n];
      ReachableInv(steps + more[..n], interval);
      OrphanStays(After(steps + more[..n], interval), more[n], interval);
    }
  }

  /** In an orphaned register nobody is active, so nothing is left that could orphan it again. */
  lemma {:induction false} OrphanedOnce(sys: System, step: Step, interval: nat)
    requires Inv(sys, interval) && Orphaned(sys)
    ensures !Orphans(sys, step)
  {
  }

  /** After such a step the register keeps its owner and no call ever begins again: there is no
      takeover, whatever happens next. */
  lemma {:induction false} OrphanBlocksForEver(steps: seq<Step>, step: Step, more: seq<Step>, interval: nat)
    requires Orphans(After(steps, interval), step)
    ensures
      var last := After(steps + [step] + more, interval);
      && Orphaned(last)
      && last.owner == After(steps + [step], interval).owner
      && last.calls == After(steps, interval).calls
  {
    var sys := After(steps, interval);
    ReachableInv(steps, interval);
    ReachableHeld(steps, interval);
    if Orphaned(sys) {
      OrphanedOnce(sys, step, interval);
    }
    OrphanedByStep(sys, step, interval);
    assert (steps + [step])[..|steps|] == steps;
    OrphanKept(steps + [step], more, interval);
  }

  /** The run contains such a step. */
  ghost predicate WasOrphaned(steps: seq<Step>, interval: nat) {
    exists k :: 0 <= k < |steps| && Orphans(After(steps[..k], interval), steps[k])
  }

  lemma {:induction false} OrphanedHasCause(steps: seq<Step>, interval: nat)
    requires Orphaned(After(steps, interval))
    ensures WasOrphaned(steps, interval)
  {
    var n := |steps| - 1;
    var before := After(steps[..n], interval);
    if Orphaned(before) {
      OrphanedHasCause(steps[..n], interval);
      var k :| 0 <= k < n && Orphans(After(steps[..n][..k], interval), steps[..n][k]);
      assert steps[..n][..k] == steps[..k];
    } else {
      ReachableInv(steps[..n], interval);
      ReachableHeld(steps[..n], interval);
      OrphanedByStep(before, steps[n], interval);
    }
  }

  lemma {:induction false} CauseOrphans(steps: seq<Step>, k: nat, interval: nat)
    requires k < |steps| && Orphans(After(steps[..k], interval), steps[k])
    ensures Orphaned(After(steps, interval))
  {
    assert steps[..k] + [steps[k]] + steps[k + 1..] == steps;
    OrphanBlocksForEver(steps[..k], steps[k], steps[k + 1..], interval);
  }

  /** A register is orphaned exactly if some step of the run was such a crash or store failure. */
  lemma {:induction false} OrphanedExactly(steps: seq<Step>, interval: nat)
    ensures Orphaned(After(steps, interval)) <==> WasOrphaned(steps, interval)
  {
    if WasOrphaned(steps, interval) {
      var k :| 0 <= k < |steps| && Orphans(After(steps[..k], interval), steps[k]);
      CauseOrphans(steps, k, interval);
    } else if Orphaned(After(steps, interval)) {
      OrphanedHasCause(steps, interval);
    }
  }

  /** At most one `send` is between acquisition and release. */
  lemma {:induction false} OneActiveSender(steps: seq<Step>, interval: nat, i: nat, j: nat)
    requires i < |After(steps, interval).senders| && j < |After(steps, interval).senders|
    requires Active(After(steps, interval).senders[i].phase) && Active(After(steps, interval).senders[j].phase)
    ensures i == j && After(steps, interval).owner == Some(i)
  {
    ReachableInv(steps, interval);
  }

  /** The steps of one `send` that nobody disturbs, up to its call. */
  function Undisturbed(i: nat, interval: nat, fine: bool, fineAfter: bool): seq<Step> {
    [TryAcquire(i, fine, Answers), StartPause(i), Tick(interval), EndPause(i), Charge(i, fineAfter)]
  }

  function From(sys: System, steps: seq<Step>, interval: nat): System
    decreases |steps|
  {
    if steps == [] then sys else From(Next(sys, steps[0], interval), steps[1..], interval)
  }

  lemma {:induction false} AfterThen(steps: seq<Step>, more: seq<Step>, interval: nat)
    ensures After(steps + more, interval) == From(After(steps, interval), more, interval)
    decreases |more|
  {
    if more == [] {
      assert steps + more == steps;
    } else {
      OneStep(steps, more[0], interval);
      AfterThen(steps + [more[0]], more[1..], interval);
      assert steps + more == steps + [more[0]] + more[1..];
    }
  }

  lemma {:induction false} FromStep(sys: System, step: Step, more: seq<Step>, interval: nat)
    ensures From(sys, [step] + more, interval) == From(Next(sys, step, interval), more, interval)
  {
    assert ([step] + more)[1..] == more;
  }

  lemma {:induction false} FiveSteps(sys: System, a: Step, b: Step, c: Step, d: Step, e: Step, interval: nat)
    ensures
      var s1 := Next(sys, a, interval);
      var s2 := Next(s1, b, interval);
      var s3 := Next(s2, c, interval);
      var s4 := Next(s3, d, interval);
      From(sys, [a, b, c, d, e], interval) == Next(s4, e, interval)
  {
    var s1 := Next(sys, a, interval);
    var s2 := Next(s1, b, interval);
    var s3 := Next(s2, c, interval);
    var s4 := Next(s3, d, interval);
    assert [a, b, c, d, e] == [a] + [b, c, d, e];
    FromStep(sys, a, [b, c, d, e], interval);
    assert [b, c, d, e] == [b] + [c, d, e];
    FromStep(s1, b, [c, d, e], interval);
    assert [c, d, e] == [c] + [d, e];
    FromStep(s2, c, [d, e], interval);
    assert [d, e] == [d] + [e];
    FromStep(s3, d, [e], interval);
    assert [e] == [e] + [];
    FromStep(s4, e, [], interval);
  }

  lemma {:induction false} OneStep(steps: seq<Step>, step: Step, interval: nat)
    ensures After(steps + [step], interval) == Next(After(steps, interval), step, interval)
  {
    assert (steps + [step])[..|steps|] == steps;
  }

  /** From any reachable state, a sender that polls a free register and is then left alone makes its
      call, one interval later, exactly if its deadline is not reached by then and its guard agrees
      at both ends; otherwise it makes none, and is on its way to release or over. */
  lemma {:induction false} UndisturbedSendCallsExactly(steps: seq<Step>, interval: nat, i: nat, fine: bool, fineAfter: bool)
    requires i < |After(steps, interval).senders| && After(steps, interval).senders[i].phase.Polling?
    requires After(steps, interval).owner.None?
    ensures
      var before, after := After(steps, interval), After(steps + Undisturbed(i, interval, fine, fineAfter), interval);
      && i < |after.senders|
      && (if before.now + interval < before.senders[i].deadline && fine && fineAfter then
            && after.calls == before.calls + [Call(i, before.now + interval, None)] && after.senders[i].phase.Calling?
            && after.owner == Some(i)
          else after.calls == before.calls && (after.senders[i].phase.Leaving? || (after.senders[i].phase.Over? && after.owner.None?)))
  {
    AfterThen(steps, Undisturbed(i, interval, fine, fineAfter), interval);
    FiveSteps(After(steps, interval), TryAcquire(i, fine, Answers), StartPause(i), Tick(interval), EndPause(i),
              Charge(i, fineAfter), interval);
  }

  /** And once its call has ended it leaves the register free. */
  lemma {:induction false} EndedSendFreesTheRegister(steps: seq<Step>, interval: nat, i: nat)
    requires i < |After(steps, interval).senders| && After(steps, interval).senders[i].phase.Calling?
    ensures
      var after := After(steps + [EndCall(i)] + [Release(i, Answers)], interval);
      && after.owner.None? && i < |after.senders| && after.senders[i].phase.Over?
      && |after.calls| == |After(steps, interval).calls| > 0
      && after.calls[|after.calls| - 1].ended == Some(After(steps, interval).now)
  {
    ReachableInv(steps, interval);
    OneStep(steps, EndCall(i), interval);
    OneStep(steps + [EndCall(i)], Release(i, Answers), interval);
  }

  /** Between two steps the register is free, or one `send` is at work, or the run contains a crash
      or store failure that orphaned it: a `send` that finished normally blocks nothing. */
  lemma {:induction false} OnlyOrphansBlock(steps: seq<Step>, interval: nat)
    ensures
      var sys := After(steps, interval);
      sys.owner.Some? <==>
        WasOrphaned(steps, interval) || exists i :: 0 <= i < |sys.senders| && Active(sys.senders[i].phase)
  {
    ReachableInv(steps, interval);
    ReachableHeld(steps, interval);
    OrphanedExactly(steps, interval);
  }
}
