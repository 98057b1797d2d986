/**
 Single-run admission and token reservations (`application/extraction_budget.py`).

 Every method runs under the ledger's lock, so any sequence of the functions below is an
 interleaving of its callers. `history` is the admitted calls: a caller finishes and
 settles each call it reserved at most once, in either order. `begun` is the times of admitted
 pages.
 */
module ExtractionLedger {
  import opened Common

  datatype Limits = Limits(maxPages: nat, maxCalls: nat, maxConcurrency: nat, maxTokens: nat, maxElapsed: nat)

  /** Settled with the observed usage, settled with usage unknown, or not settled yet. */
  datatype Settlement = Unsettled | Unknown | Observed(tokens: nat)

  datatype CallRecord = CallRecord(reserved: nat, finished: bool, settlement: Settlement)

  datatype Ledger = Ledger(
    started: Option<int>, run: Option<nat>, pages: nat, calls: nat, inFlight: int, reserved: int, stopped: bool,
    history: seq<CallRecord>, begun: seq<int>)

  datatype Refusal = ConfigurationError | BudgetExhausted

  function Fresh(): Ledger {
    Ledger(None, None, 0, 0, 0, 0, false, [], [])
  }

  function Remaining(l: Ledger, limits: Limits, now: int): int {
    if l.started.None? then limits.maxElapsed else Max(0, limits.maxElapsed - (now - l.started.value))
  }

  /** The first page starts the clock and binds the run, even when it is then refused. */
  function BeginPage(l: Ledger, limits: Limits, run: nat, now: int): (Ledger, Option<Refusal>) {
    if l.run.Some? && l.run != Some(run) then (l, Some(ConfigurationError))
    else
      var bound := if l.started.None? then l.(started := Some(now), run := Some(run)) else l;
      if l.stopped || l.pages >= limits.maxPages || Remaining(bound, limits, now) <= 0 then (bound, Some(BudgetExhausted))
      else (bound.(pages := l.pages + 1, begun := l.begun + [now]), None)
  }

  function ReserveCall(l: Ledger, limits: Limits, tokens: nat, now: int): (Ledger, Option<Refusal>) {
    if l.started.None? || l.stopped || Remaining(l, limits, now) <= 0 || l.calls >= limits.maxCalls
       || l.inFlight >= limits.maxConcurrency || l.reserved + tokens > limits.maxTokens
    then (l, Some(BudgetExhausted))
    else
      (l.(calls := l.calls + 1, inFlight := l.inFlight + 1, reserved := l.reserved + tokens,
          history := l.history + [CallRecord(tokens, false, Unsettled)]),
       None)
  }

  function FinishCall(l: Ledger, k: nat): Ledger
    requires k < |l.history|
  {
    l.(inFlight := l.inFlight - 1, history := l.history[k := l.history[k].(finished := true)])
  }

  function SettleCall(l: Ledger, limits: Limits, k: nat, observed: Option<nat>): Ledger
    requires k < |l.history|
  {
    if observed.None? then l.(history := l.history[k := l.history[k].(settlement := Unknown)])
    else
      var total := l.reserved + observed.value - l.history[k].reserved;
      l.(reserved := total,
         stopped := l.stopped || observed.value > l.history[k].reserved || total > limits.maxTokens,
         history := l.history[k := l.history[k].(settlement := Observed(observed.value))])
  }

  function Stop(l: Ledger): Ledger {
    l.(stopped := true)
  }

  // --------------------------------------------------------------------------- history

  /** What a call weighs: what it was observed to use, otherwise what was reserved for it. */
  function Weight(c: CallRecord): nat {
    if c.settlement.Observed? then c.settlement.tokens else c.reserved
  }

  function TotalWeight(history: seq<CallRecord>): nat {
    if history == [] then 0 else TotalWeight(history[..|history| - 1]) + Weight(history[|history| - 1])
  }

  function Running(history: seq<CallRecord>): nat {
    if history == [] then 0 else Running(history[..|history| - 1]) + (if history[|history| - 1].finished then 0 else 1)
  }

  lemma {:induction false} UpdateSums(history: seq<CallRecord>, k: nat, c: CallRecord)
    requires k < |history|
    ensures TotalWeight(history[k := c]) == TotalWeight(history) - Weight(history[k]) + Weight(c)
    ensures Running(history[k := c]) + (if c.finished then 1 else 0) == Running(history) + (if history[k].finished then 1 else 0)
  {
    var n := |history| - 1;
    if k < n {
      UpdateSums(history[..n], k, c);
      assert history[k := c][..n] == history[..n][k := c];
    } else {
      assert history[k := c][..n] == history[..n];
    }
  }

  // ------------------------------------------------------------------------- invariant

  ghost predicate Inv(l: Ledger, limits: Limits) {
    && l.calls == |l.history| <= limits.maxCalls
    && l.pages == |l.begun| <= limits.maxPages
    && (forall i :: 0 <= i < |l.begun| ==> l.started.Some? && l.begun[i] < l.started.value + limits.maxElapsed)
    && l.inFlight == Running(l.history) <= limits.maxConcurrency
    && l.reserved == TotalWeight(l.history)
    && (l.reserved > limits.maxTokens ==> l.stopped)
    && (l.started.Some? <==> l.run.Some?)
    && (|l.history| > 0 || l.pages > 0 ==> l.started.Some?)
  }

  datatype Step =
    | DoBegin(run: nat, now: int)
    | DoReserve(tokens: nat, now: int)
    | DoFinish(k: nat)
    | DoSettle(k: nat, observed: Option<nat>)
    | DoStop

  /** A second finish or settlement of the same call does not happen. */
  function Next(l: Ledger, limits: Limits, step: Step): Ledger {
    match step
    case DoBegin(run, now) => BeginPage(l, limits, run, now).0
    case DoReserve(tokens, now) => ReserveCall(l, limits, tokens, now).0
    case DoFinish(k) => if k < |l.history| && !l.history[k].finished then FinishCall(l, k) else l
    case DoSettle(k, observed) => if k < |l.history| && l.history[k].settlement.Unsettled? then SettleCall(l, limits, k, observed) else l
    case DoStop => Stop(l)
  }

  function After(limits: Limits, steps: seq<Step>): Ledger {
    if steps == [] then Fresh() else Next(After(limits, steps[..|steps| - 1]), limits, steps[|steps| - 1])
  }

  lemma {:induction false} BeginKeeps(l: Ledger, limits: Limits, run: nat, now: int)
    requires Inv(l, limits)
    ensures Inv(BeginPage(l, limits, run, now).0, limits)
  {
  }

  lemma {:induction false} ReserveKeeps(l: Ledger, limits: Limits, tokens: nat, now: int)
    requires Inv(l, limits)
    ensures Inv(ReserveCall(l, limits, tokens, now).0, limits)
  {
    var history := l.history + [CallRecord(tokens, false, Unsettled)];
    assert history[..|l.history|] == l.history;
  }

  lemma {:induction false} FinishKeeps(l: Ledger, limits: Limits, k: nat)
    requires Inv(l, limits) && k < |l.history| && !l.history[k].finished
    ensures Inv(FinishCall(l, k), limits)
  {
    UpdateSums(l.history, k, l.history[k].(finished := true));
  }

  lemma {:induction false} SettleKeeps(l: Ledger, limits: Limits, k: nat, observed: Option<nat>)
    requires Inv(l, limits) && k < |l.history| && l.history[k].settlement.Unsettled?
    ensures Inv(SettleCall(l, limits, k, observed), limits)
  {
    UpdateSums(l.history, k, l.history[k].(settlement := if observed.Some? then Observed(observed.value) else Unknown));
  }

  lemma {:induction false} NextKeeps(l: Ledger, limits: Limits, step: Step)
    requires Inv(l, limits)
    ensures Inv(Next(l, limits, step), limits)
  {
    match step
    case DoBegin(run, now) => BeginKeeps(l, limits, run, now);
    case DoReserve(tokens, now) => ReserveKeeps(l, limits, tokens, now);
    case DoFinish(k) => if k < |l.history| && !l.history[k].finished { FinishKeeps(l, limits, k); }
    case DoSettle(k, observed) =>
      if k < |l.history| && l.history[k].settlement.Unsettled? {
        SettleKeeps(l, limits, k, observed);
      }
    case DoStop =>
  }

  /** In every interleaving: reserved tokens are the observed usage of settled calls plus the
      reservations of the rest, running calls stay within the concurrency limit, admitted pages and calls are counted
      and stay within theirs, pages begin only within the elapsed limit, and a total above the limit means the ledger is stopped. */
  lemma {:induction false} LedgerIsExact(limits: Limits, steps: seq<Step>)
    ensures Inv(After(limits, steps), limits)
  {
    if steps != [] {
      LedgerIsExact(limits, steps[..|steps| - 1]);
      NextKeeps(After(limits, steps[..|steps| - 1]), limits, steps[|steps| - 1]);
    }
  }

  /** Within the elapsed limit, counted from the first page. */
  predicate InTime(l: Ledger, limits: Limits, now: int) {
    (if l.started.Some? then now - l.started.value else 0) < limits.maxElapsed
  }

  /** Exactly when a page or a call is admitted, and what that leaves: in every interleaving it is
      decided by the run, the stop, the time since the first page, and what the history holds. */
  lemma {:induction false} AdmittedExactly(limits: Limits, steps: seq<Step>, run: nat, tokens: nat, now: int)
    ensures
      var l := After(limits, steps);
      var (paged, pageRefused) := BeginPage(l, limits, run, now);
      var (called, callRefused) := ReserveCall(l, limits, tokens, now);
      && (pageRefused.None? <==>
            && (l.run.Some? ==> l.run.value == run) && !l.stopped && |l.begun| < limits.maxPages && InTime(l, limits, now))
      && (pageRefused.None? ==> paged.begun == l.begun + [now] && paged.history == l.history && paged.stopped == l.stopped)
      && (pageRefused.Some? ==> paged.begun == l.begun && paged.history == l.history && paged.stopped == l.stopped)
      && (paged.run == (if l.run.Some? then l.run else Some(run)) && paged.started == (if l.started.Some? then l.started else Some(now)))
      && (callRefused.None? <==>
            && l.started.Some? && !l.stopped && InTime(l, limits, now)
            && |l.history| < limits.maxCalls && Running(l.history) < limits.maxConcurrency
            && TotalWeight(l.history) + tokens <= limits.maxTokens)
      && (callRefused.None? ==>
            && called.history == l.history + [CallRecord(tokens, false, Unsettled)]
            && called.begun == l.begun && called.run == l.run && called.started == l.started && called.stopped == l.stopped)
      && (callRefused.Some? ==> called == l)
  {
    LedgerIsExact(limits, steps);
  }

  /** Something stopped the ledger at step `k`: someone asked for it, a call used more than was
      reserved for it, or the total went over the limit. */
  ghost predicate StopsAt(limits: Limits, steps: seq<Step>, k: nat) {
    && k < |steps|
    && var l := After(limits, steps[..k]);
       match steps[k]
       case DoStop => true
       case DoSettle(c, observed) =>
         && c < |l.history| && l.history[c].settlement.Unsettled? && observed.Some?
         && (observed.value > l.history[c].reserved
             || TotalWeight(l.history) - l.history[c].reserved + observed.value > limits.maxTokens)
       case _ => false
  }

  lemma {:induction false} StopStep(l: Ledger, limits: Limits, step: Step)
    requires Inv(l, limits)
    ensures Next(l, limits, step).stopped <==>
            || l.stopped || step.DoStop?
            || (&& step.DoSettle? && step.k < |l.history| && l.history[step.k].settlement.Unsettled? && step.observed.Some?
                && (step.observed.value > l.history[step.k].reserved
                    || TotalWeight(l.history) - l.history[step.k].reserved + step.observed.value > limits.maxTokens))
  {
  }

  /** The ledger is stopped if and only if something did that. */
  lemma {:induction false} StoppedExactly(limits: Limits, steps: seq<Step>)
    ensures After(limits, steps).stopped <==> exists k: nat :: StopsAt(limits, steps, k)
  {
    if steps != [] {
      var n := |steps| - 1;
      var front := steps[..n];
      StoppedExactly(limits, front);
      LedgerIsExact(limits, front);
      StopStep(After(limits, front), limits, steps[n]);
      forall k: nat | k < n ensures StopsAt(limits, front, k) <==> StopsAt(limits, steps, k) {
        assert front[..k] == steps[..k];
      }
      if After(limits, front).stopped {
        var k: nat :| StopsAt(limits, front, k);
        assert StopsAt(limits, steps, k);
      } else if After(limits, steps).stopped {
        assert StopsAt(limits, steps, n);
      }
    }
  }

  /** Once stopped, no page and no call is admitted again, whatever is still settled or finished. */
  lemma {:induction false} StoppedAdmitsNothing(limits: Limits, steps: seq<Step>, more: seq<Step>, run: nat, tokens: nat, now: int)
    requires After(limits, steps).stopped
    ensures
      var l := After(limits, steps + more);
      && l.stopped
      && l.begun == After(limits, steps).begun && l.pages == After(limits, steps).pages && l.calls == After(limits, steps).calls
      && BeginPage(l, limits, run, now).1.Some? && ReserveCall(l, limits, tokens, now).1.Some?
  {
    if more == [] {
      assert steps + more == steps;
    } else {
      var n := |more| - 1;
      StoppedAdmitsNothing(limits, steps, more[..n], run, tokens, now);
      assert (steps + more)[..|steps + more| - 1] == steps + more[..n];
    }
  }

  /** A call that used more than was reserved for it stops the ledger for good. */
  lemma {:induction false} OverrunStops(limits: Limits, steps: seq<Step>, k: nat)
    requires k < |After(limits, steps).history|
    requires
      var c := After(limits, steps).history[k];
      c.settlement.Observed? && c.settlement.tokens > c.reserved
    ensures After(limits, steps).stopped
  {
    var n := |steps| - 1;
    var before, step := After(limits, steps[..n]), steps[n];
    if k < |before.history| && before.history[k].settlement.Observed? && before.history[k].settlement.tokens > before.history[k].reserved {
      OverrunStops(limits, steps[..n], k);
    }
  }

  /** A ledger serves one run: its binding and its clock never change once set. */
  lemma {:induction false} RunIsFixed(limits: Limits, steps: seq<Step>, more: seq<Step>)
    requires After(limits, steps).started.Some?
    ensures After(limits, steps + more).started == After(limits, steps).started
    ensures After(limits, steps + more).run == After(limits, steps).run
  {
    if more == [] {
      assert steps + more == steps;
    } else {
      var n := |more| - 1;
      RunIsFixed(limits, steps, more[..n]);
      assert (steps + more)[..|steps + more| - 1] == steps + more[..n];
    }
  }

  // ------------------------------------------------------------------------ the object

  class Budget {
    const limits: Limits
    var started: Option<int>
    var run: Option<nat>
    var pages: nat
    var calls: nat
    var inFlight: int
    var reserved: int
    var stopped: bool
    ghost var history: seq<CallRecord>
    ghost var begun: seq<int>

    ghost function Value(): Ledger
      reads this
    {
      Ledger(started, run, pages, calls, inFlight, reserved, stopped, history, begun)
    }

    constructor (limits: Limits)
      ensures this.limits == limits && Value() == Fresh()
    {
      this.limits := limits;
      started, run, pages, calls, inFlight, reserved, stopped := None, None, 0, 0, 0, 0, false;
      history, begun := [], [];
    }

    function TimeLeft(now: int): int
      reads this
    {
      if started.None? then limits.maxElapsed else Max(0, limits.maxElapsed - (now - started.value))
    }

    method Begin(binding: nat, now: int) returns (refused: Option<Refusal>)
      modifies this
      ensures (Value(), refused) == BeginPage(old(Value()), limits, binding, now)
    {
      if run.Some? && run != Some(binding) {
        return Some(ConfigurationError);
      }
      if started.None? {
        started, run := Some(now), Some(binding);
      }
      if stopped || pages >= limits.maxPages || TimeLeft(now) <= 0 {
        return Some(BudgetExhausted);
      }
      pages := pages + 1;
      begun := begun + [now];
      refused := None;
    }

    method Reserve(tokens: nat, now: int) returns (refused: Option<Refusal>)
      modifies this
      ensures (Value(), refused) == ReserveCall(old(Value()), limits, tokens, now)
    {
      if started.None? || stopped || TimeLeft(now) <= 0 || calls >= limits.maxCalls
         || inFlight >= limits.maxConcurrency || reserved + tokens > limits.maxTokens {
        return Some(BudgetExhausted);
      }
      calls := calls + 1;
      inFlight := inFlight + 1;
      reserved := reserved + tokens;
      history := history + [CallRecord(tokens, false, Unsettled)];
      refused := None;
    }

    method Finished(ghost k: nat)
      requires k < |history|
      modifies this
      ensures Value() == FinishCall(old(Value()), k)
    {
      inFlight := inFlight - 1;
      history := history[k := history[k].(finished := true)];
    }

    method Settle(ghost k: nat, tokens: nat, observed: Option<nat>)
      requires k < |history| && history[k].reserved == tokens
      modifies this
      ensures Value() == SettleCall(old(Value()), limits, k, observed)
    {
      history := history[k := history[k].(settlement := if observed.None? then Unknown else Observed(observed.value))];
      if observed.None? {
        return;
      }
      reserved := reserved + observed.value - tokens;
      if observed.value > tokens || reserved > limits.maxTokens {
        stopped := true;
      }
    }

    method StopAll()
      modifies this
      ensures Value() == Stop(old(Value()))
    {
      stopped := true;
    }
  }
}
