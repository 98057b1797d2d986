/**
 The bounded runner: controlled decisions until a terminal state or a fail-closed handoff
 (`application/bounded_workflow.py`).
 */
module BoundedWorkflow {
  import opened Common
  import opened ActionPolicy
  import opened ControlledWorkflow

  datatype Category =
    | RetryableProviderTool
    | PermanentMalformedProposal
    | UnauthorizedSource
    | MissingEvidence
    | UnsupportedRuleContext
    | DeterministicReviewBlocker
    | UnresolvedExecution

  datatype Termination = EndVerified | EndWaitingForHuman | BudgetExhausted | NoProgress | PermanentFailure

  predicate Completed(t: Termination) {
    t in {EndVerified, EndWaitingForHuman}
  }

  function ClassifyEvent(e: Event): Option<Category> {
    if e.disposition == Executed then
      if e.stateAfter == EvidenceNeedsReview then Some(MissingEvidence)
      else if e.stateAfter == UnsupportedContexts then Some(UnsupportedRuleContext)
      else if e.stateAfter == ReviewFailed then Some(DeterministicReviewBlocker)
      else None
    else if e.reason in {ToolTimeExhausted, ToolResultUnknown} then Some(UnresolvedExecution)
    else if e.reason in {InvalidToolReceipt, ProposalRejected(Unauthorized)} then Some(UnauthorizedSource)
    else if e.disposition == Rejected then Some(PermanentMalformedProposal)
    else if e.problem == Some(Unauthorized) then Some(UnauthorizedSource)
    else if e.problem == Some(ExecutionFailed) then Some(RetryableProviderTool)
    else Some(DeterministicReviewBlocker)
  }

  function ClassifySelection(code: SelectorCode): Category {
    if code in {Timeout, InFlight} then UnresolvedExecution
    else if code in {Throttled, ProviderError} then RetryableProviderTool
    else if code == MissingArgumentSource then MissingEvidence
    else if code == NoAllowedAction then DeterministicReviewBlocker
    else PermanentMalformedProposal
  }

  /** Exactly what the no-progress fingerprint hashes; equal fingerprints are equal inputs. */
  datatype Fingerprint = Fingerprint(
    action: Kind, arguments: Arguments, revision: nat, sources: multiset<Document>, category: Category, reason: Reason)

  function PrintOf(e: Event, s: Snapshot, category: Category): Fingerprint {
    Fingerprint(e.proposal.action, e.proposal.arguments, s.revision.reference, multiset(s.revision.documents),
                category, e.reason)
  }

  function TerminalOf(s: Snapshot): Option<Termination> {
    if s.state == Verified then Some(EndVerified)
    else if s.state == WaitingForHuman then Some(EndWaitingForHuman)
    else None
  }

  /**
   The loop's variables. The event list is kept as the `prior` events of the run and those
   `added` by this invocation; `views` are the snapshots read after each added event.
   */
  datatype Loop = Loop(
    budget: Budget,
    snapshot: Snapshot,
    prior: seq<Event>,
    added: seq<Event>,
    views: seq<Snapshot>,
    seen: set<Fingerprint>,
    selectionRetries: nat,
    retryCharge: nat,
    failures: seq<Failure>,
    slept: nat,
    ledger: Ledger)

  function Events(st: Loop): seq<Event> {
    st.prior + st.added
  }

  datatype HandoffReason =
    | FailedTerminalTransition
    | WorkflowPermanentFailure
    | WorkflowBudgetExhausted
    | WorkflowRetriesExhausted
    | WorkflowTimeExhausted
    | WorkflowNoProgress
    | SelectorFailure(code: SelectorCode)

  datatype Handoff = Handoff(category: Category, reason: HandoffReason, fingerprint: Option<Fingerprint>)

  datatype Outcome =
    | Continue(loop: Loop)
    | Done(termination: Termination, loop: Loop, handoff: Option<Handoff>)
    | Abort(reason: AbortReason)

  /** `base * 2 ** n`. */
  function Doubled(base: nat, n: nat): nat {
    if n == 0 then base else 2 * Doubled(base, n - 1)
  }

  /** Exponential backoff, cut to the remaining time; the exponent must not be negative. */
  function Backoff(c: Config, b: Budget, failures: nat): (r: (Budget, nat))
    requires failures >= 1
    ensures r.0 == b.(time := r.0.time)
    ensures b.time.None? <==> r.0.time.None?
    ensures b.time.Some? ==> b.time.value == r.0.time.value + r.1
  {
    var full := Doubled(c.backoffMs, failures - 1);
    if b.time.None? then (b, full)
    else
      var delay := Min(full, b.time.value);
      (b.(time := Some(b.time.value - delay)), delay)
  }

  function HandedOff(st: Loop, t: Termination, category: Category, reason: HandoffReason, p: Option<Fingerprint>)
    : Outcome
  {
    Done(t, st, Some(Handoff(category, reason, p)))
  }

  function Otherwise(category: Option<Category>): Category {
    if category.Some? then category.value else DeterministicReviewBlocker
  }

  /** After a failed selection: a provider failure may be retried, everything else is handed off. */
  function AfterFailure(c: Config, st: Loop, f: Failure, l: Ledger, x: Surroundings): Outcome {
    match Current(c, x.after, f.after)
    case None => Abort(SnapshotRefused)
    case Some(view) =>
      AfterSelectionFailure(
        c, st.(budget := f.after, snapshot := view, failures := st.failures + [f], ledger := l), f.code)
  }

  function AfterSelectionFailure(c: Config, next: Loop, code: SelectorCode): Outcome {
    var b, category := next.budget, ClassifySelection(code);
    if category == RetryableProviderTool && b.retries > 0 && b.calls > 0 && b.time != Some(0) then
      var (rested, delay) := Backoff(c, b.(retries := b.retries - 1), next.selectionRetries + 1);
      Continue(next.(budget := rested, selectionRetries := next.selectionRetries + 1, slept := next.slept + delay))
    else
      HandedOff(next, if category == RetryableProviderTool then BudgetExhausted else PermanentFailure,
                category, SelectorFailure(code), None)
  }

  /** After a decision that produced an event. */
  function AfterEvent(c: Config, st: Loop, e: Event, l: Ledger, x: Surroundings): Outcome {
    match Current(c, x.after, e.after)
    case None => Abort(SnapshotRefused)
    case Some(view) =>
      var next := st.(budget := e.after, snapshot := view, added := st.added + [e],
                      views := st.views + [view], ledger := l);
      var terminal := TerminalOf(view);
      var category := ClassifyEvent(e);
      if terminal.Some? && e.disposition == Executed then Done(terminal.value, next, None)
      else if terminal.Some? then
        HandedOff(next, PermanentFailure, Otherwise(category), FailedTerminalTransition, None)
      else if e.disposition == Executed || category.None? then Continue(next.(retryCharge := 0))
      else AfterToolFailure(c, st, next, category.value, PrintOf(e, view, category.value))
  }

  /** A failure in a live state: a repeated fingerprint, a permanent cause or no budget ends the run. */
  function AfterToolFailure(c: Config, st: Loop, next: Loop, category: Category, p: Fingerprint): Outcome {
    if p in st.seen then HandedOff(next, NoProgress, category, WorkflowNoProgress, Some(p))
    else if category != RetryableProviderTool then
      HandedOff(next.(seen := st.seen + {p}), PermanentFailure, category, WorkflowPermanentFailure, Some(p))
    else AfterNewFailure(c, next.(seen := st.seen + {p}), p)
  }

  /** A retryable failure not seen before. */
  function AfterNewFailure(c: Config, marked: Loop, p: Fingerprint): Outcome
    requires p in marked.seen
  {
    if marked.budget.retries == 0 || marked.budget.steps == 0 then
      HandedOff(marked, BudgetExhausted, RetryableProviderTool, WorkflowRetriesExhausted, Some(p))
    else
      assert |marked.seen| >= 1 by { assert marked.seen != {}; }
      Rest(c, marked, |marked.seen|, p)
  }

  /** Back off before the retry; running out of time while waiting ends the run. */
  function Rest(c: Config, st: Loop, failures: nat, p: Fingerprint): Outcome
    requires failures >= 1
  {
    var (rested, delay) := Backoff(c, st.budget, failures);
    var slept := st.(budget := rested, retryCharge := 1, slept := st.slept + delay);
    if rested.time == Some(0) then
      HandedOff(slept, BudgetExhausted, RetryableProviderTool, WorkflowTimeExhausted, Some(p))
    else Continue(slept)
  }

  /** The checks at the top of the loop that end the run without another decision. */
  function TopOfLoop(st: Loop): Option<Outcome> {
    if TerminalOf(st.snapshot).Some? then Some(Done(TerminalOf(st.snapshot).value, st, None))
    else if st.budget.steps == 0 || st.budget.time == Some(0) then
      Some(HandedOff(st, BudgetExhausted, DeterministicReviewBlocker, WorkflowBudgetExhausted, None))
    else if st.retryCharge > 0 && st.budget.retries == 0 then
      Some(HandedOff(st, BudgetExhausted, RetryableProviderTool, WorkflowRetriesExhausted, None))
    else None
  }

  /** One trip through the loop, given what the coordinator would decide in it. */
  function Iterate(c: Config, st: Loop, d: Decision, x: Surroundings): Outcome {
    match Checkpoint(st.ledger, st.budget)
    case None => Abort(LedgerRefused)
    case Some(l) =>
      match TopOfLoop(st.(ledger := l))
      case Some(ended) => ended
      case None => AfterDecision(c, st.(ledger := l), d, x)
  }

  /** Every event is about the run. */
  predicate Own(c: Config, events: seq<Event>) {
    forall e :: e in events ==> e.proposal.run == c.run
  }

  /** The run's last event was not executed. */
  predicate LastNotExecuted(st: Loop) {
    var events := Events(st);
    events != [] && events[|events| - 1].disposition != Executed
  }

  /** The validator of `BoundedWorkflowResult`. */
  predicate WellFormedResult(c: Config, t: Termination, st: Loop, handoff: Option<Handoff>) {
    && (Completed(t) <==> handoff.None?)
    && Own(c, Events(st))
    && (t == EndVerified ==> !LastNotExecuted(st))
  }

  /** Every end of the run builds its result, and a result that does not validate is an error. */
  function Submitted(c: Config, out: Outcome): Outcome {
    if out.Done? && !WellFormedResult(c, out.termination, out.loop, out.handoff) then Abort(ResultRefused) else out
  }

  /** One trip through the loop in the given surroundings. */
  function Trip(c: Config, st: Loop, x: Surroundings): Outcome
    requires ValidRegistry(c.rules)
  {
    Submitted(c, Iterate(c, st, Decide(c, st.budget, st.retryCharge, x, st.ledger.(budget := st.budget)), x))
  }

  function AfterDecision(c: Config, here: Loop, d: Decision, x: Surroundings): Outcome {
    match d
    case Aborted(reason) => Abort(reason)
    case SelectionFailed(f, l) => AfterFailure(c, here, f, l, x)
    case Decided(e, l) => AfterEvent(c, here, e, l, x)
  }

  /** The fingerprints of the failed events recorded before this invocation. */
  function PriorPrints(prior: seq<Event>, s: Snapshot): (r: set<Fingerprint>) {
    set e | e in prior && e.disposition != Executed && ClassifyEvent(e).Some? :: PrintOf(e, s, ClassifyEvent(e).value)
  }

  /** The part of the runner before its loop: recorded history decides whether to go on. */
  function Begin(c: Config, prior: seq<Event>, budget: Budget, opening: Snapshot): Outcome {
    match Current(c, opening, budget)
    case None => Abort(SnapshotRefused)
    case Some(view) =>
      var seen := PriorPrints(prior, view);
      var clean := Loop(budget, view, prior, [], [], seen, 0, 0, [], 0, Ledger(budget, false));
      if prior == [] || prior[|prior| - 1].disposition == Executed then Continue(clean)
      else
        var last := prior[|prior| - 1];
        var category := ClassifyEvent(last);
        if TerminalOf(view).Some? then
          HandedOff(clean, PermanentFailure, Otherwise(category), FailedTerminalTransition, None)
        else if category != Some(RetryableProviderTool) then
          HandedOff(clean, PermanentFailure, Otherwise(category), WorkflowPermanentFailure, None)
        else
          PriorPrintIsSeen(prior, view);
          var (rested, delay) := Backoff(c, budget, |seen|);
          Continue(clean.(budget := rested, retryCharge := 1, slept := delay))
  }

  lemma {:induction false} PriorPrintIsSeen(prior: seq<Event>, s: Snapshot)
    requires prior != [] && prior[|prior| - 1].disposition != Executed
    requires ClassifyEvent(prior[|prior| - 1]).Some?
    ensures |PriorPrints(prior, s)| >= 1
  {
    var e := prior[|prior| - 1];
    assert PrintOf(e, s, ClassifyEvent(e).value) in PriorPrints(prior, s);
  }

  // ------------------------------------------------------------- accounting

  datatype Spend = Spend(steps: nat, calls: nat, retries: nat, time: nat)

  function Cost(c: Consumption): Spend {
    Spend(c.steps, c.calls, c.retries, if c.elapsed.Some? then c.elapsed.value else 0)
  }

  function Plus(a: Spend, b: Spend): Spend {
    Spend(a.steps + b.steps, a.calls + b.calls, a.retries + b.retries, a.time + b.time)
  }

  function EventSpend(events: seq<Event>): Spend {
    if |events| == 0 then Spend(0, 0, 0, 0)
    else Plus(EventSpend(events[..|events| - 1]), Cost(events[|events| - 1].consumed))
  }

  function FailureSpend(failures: seq<Failure>): Spend {
    if |failures| == 0 then Spend(0, 0, 0, 0)
    else Plus(FailureSpend(failures[..|failures| - 1]), Cost(failures[|failures| - 1].consumed))
  }

  /**
   Conservation: what the run started with is what it still holds, plus what its events and
   failed selections record, plus one retry per repeated selection, plus its backoff time.
   */
  ghost predicate Conserved(start: Budget, st: Loop) {
    var events, failures := EventSpend(st.added), FailureSpend(st.failures);
    && start.steps == st.budget.steps + events.steps + failures.steps
    && start.calls == st.budget.calls + events.calls + failures.calls
    && start.retries == st.budget.retries + events.retries + failures.retries + st.selectionRetries
    && (start.time.None? <==> st.budget.time.None?)
    && (start.time.Some? ==>
          start.time.value == st.budget.time.value + events.time + failures.time + st.slept)
  }

  ghost predicate FailedAt(events: seq<Event>, views: seq<Snapshot>, i: int) {
    0 <= i < |events| && i < |views| && events[i].disposition == FailedTool
  }

  ghost function PrintAt(events: seq<Event>, views: seq<Snapshot>, i: int): Fingerprint
    requires FailedAt(events, views, i)
  {
    PrintOf(events[i], views[i], RetryableProviderTool)
  }

  /** Every event executed, or failed retryably with a fingerprint no earlier failure had. */
  ghost predicate Fresh(events: seq<Event>, views: seq<Snapshot>, before: set<Fingerprint>) {
    && |views| == |events|
    && (forall i :: 0 <= i < |events| ==> events[i].disposition in {Executed, FailedTool})
    && (forall i :: FailedAt(events, views, i) ==>
          ClassifyEvent(events[i]) == Some(RetryableProviderTool) && PrintAt(events, views, i) !in before)
    && (forall i, j :: FailedAt(events, views, i) && FailedAt(events, views, j) && i < j ==>
          PrintAt(events, views, i) != PrintAt(events, views, j))
  }

  ghost function Prints(events: seq<Event>, views: seq<Snapshot>): set<Fingerprint> {
    set i | 0 <= i < |events| && FailedAt(events, views, i) :: PrintAt(events, views, i)
  }

  ghost predicate Progressing(opening: Snapshot, prior: seq<Event>, added: seq<Event>, views: seq<Snapshot>,
                              seen: set<Fingerprint>)
  {
    && Fresh(added, views, PriorPrints(prior, opening))
    && seen == PriorPrints(prior, opening) + Prints(added, views)
  }

  /** The loop invariant. */
  ghost predicate Going(start: Budget, opening: Snapshot, n: nat, st: Loop) {
    && Conserved(start, st)
    && Progressing(opening, st.prior, st.added, st.views, st.seen)
    && Within(st.budget, st.ledger.budget)
    && st.retryCharge <= 1
    && n == |st.added| + |st.failures|
    && n + st.budget.steps + st.budget.retries <= start.steps + start.retries
    && (st.ledger.quarantined ==> TerminalOf(st.snapshot).None?)
  }

  /** All added events but possibly the last one were progress. */
  ghost predicate ProgressBeforeLast(opening: Snapshot, prior: seq<Event>, added: seq<Event>, views: seq<Snapshot>) {
    && |views| == |added|
    && (|added| > 0 ==> Fresh(added[..|added| - 1], views[..|added| - 1], PriorPrints(prior, opening)))
  }

  /** The failure that ended the run without progress repeats an earlier fingerprint. */
  ghost predicate Repeats(st: Loop) {
    && st.added != []
    && var last := st.added[|st.added| - 1];
       && last.disposition != Executed
       && ClassifyEvent(last).Some?
       && PrintOf(last, st.snapshot, ClassifyEvent(last).value) in st.seen
  }

  /** What every finished invocation guarantees. */
  ghost predicate Finished(start: Budget, opening: Snapshot, out: Outcome) {
    && out.Done?
    && Conserved(start, out.loop)
    && |out.loop.added| + |out.loop.failures| <= start.steps + start.retries + 1
    && ProgressBeforeLast(opening, out.loop.prior, out.loop.added, out.loop.views)
    && (Completed(out.termination) <==> out.handoff.None?)
    && (Completed(out.termination) ==>
          !out.loop.ledger.quarantined && TerminalOf(out.loop.snapshot) == Some(out.termination))
    && (out.termination == NoProgress ==> Repeats(out.loop))
    && Within(out.loop.budget, out.loop.ledger.budget)
  }

  lemma {:induction false} EventSpendAppend(events: seq<Event>, e: Event)
    ensures EventSpend(events + [e]) == Plus(EventSpend(events), Cost(e.consumed))
  {
    assert (events + [e])[..|events|] == events;
  }

  lemma {:induction false} FailureSpendAppend(failures: seq<Failure>, f: Failure)
    ensures FailureSpend(failures + [f]) == Plus(FailureSpend(failures), Cost(f.consumed))
  {
    assert (failures + [f])[..|failures|] == failures;
  }

  lemma {:induction false} FailureConserves(start: Budget, st: Loop, f: Failure, next: Loop)
    requires Conserved(start, st) && Accounted(f.before, f.after, f.consumed, st.budget)
    requires next.added == st.added && next.failures == st.failures + [f]
    requires next.budget == f.after && next.slept == st.slept && next.selectionRetries == st.selectionRetries
    ensures Conserved(start, next)
  {
    FailureSpendAppend(st.failures, f);
  }

  lemma {:induction false} EventConserves(start: Budget, st: Loop, e: Event, next: Loop)
    requires Conserved(start, st) && Accounted(e.before, e.after, e.consumed, st.budget)
    requires next.added == st.added + [e] && next.failures == st.failures
    requires next.budget == e.after && next.slept == st.slept && next.selectionRetries == st.selectionRetries
    ensures Conserved(start, next)
  {
    EventSpendAppend(st.added, e);
  }

  lemma {:induction false} NothingYet(start: Budget, opening: Snapshot, st: Loop)
    requires st.added == [] && st.views == [] && st.failures == [] && st.selectionRetries == 0
    requires st.seen == PriorPrints(st.prior, opening)
    ensures Progressing(opening, st.prior, st.added, st.views, st.seen) && ProgressBeforeLast(opening, st.prior, st.added, st.views)
    ensures EventSpend(st.added) == FailureSpend(st.failures) == Spend(0, 0, 0, 0)
  {
  }

  /** A started invocation either goes on with its invariant or hands off before any decision. */
  lemma {:induction false} BeginGoes(c: Config, prior: seq<Event>, budget: Budget, opening: Snapshot)
    requires Current(c, opening, budget).Some?
    ensures var out := Begin(c, prior, budget, opening);
            var view := Current(c, opening, budget).value;
            && (out.Continue? ==> Going(budget, view, 0, out.loop))
            && (out.Done? ==> Finished(budget, view, out))
            && !out.Abort?
  {
    var out := Begin(c, prior, budget, opening);
    NothingYet(budget, Current(c, opening, budget).value, out.loop);
  }

  /** Appending an executed event or a fresh retryable failure keeps the history fresh. */
  lemma {:induction false} FreshAppend(events: seq<Event>, views: seq<Snapshot>, before: set<Fingerprint>, e: Event, view: Snapshot)
    requires Fresh(events, views, before)
    requires e.disposition == Executed ||
             (e.disposition == FailedTool && ClassifyEvent(e) == Some(RetryableProviderTool) &&
              PrintOf(e, view, RetryableProviderTool) !in before + Prints(events, views))
    ensures Fresh(events + [e], views + [view], before)
    ensures Prints(events + [e], views + [view]) ==
            Prints(events, views) +
            if e.disposition == FailedTool then {PrintOf(e, view, RetryableProviderTool)} else {}
  {
    var es, vs := events + [e], views + [view];
    forall i | 0 <= i < |events| && FailedAt(events, views, i)
      ensures FailedAt(es, vs, i) && PrintAt(es, vs, i) == PrintAt(events, views, i)
    {
    }
    forall i | FailedAt(es, vs, i) && i < |events|
      ensures FailedAt(events, views, i) && PrintAt(es, vs, i) == PrintAt(events, views, i) &&
              PrintAt(es, vs, i) in Prints(events, views)
    {
    }
    assert e.disposition == FailedTool ==> FailedAt(es, vs, |events|);
  }

  /** Dropping the last added event of a fresh history leaves a fresh history. */
  lemma {:induction false} FreshPrefix(opening: Snapshot, st: Loop)
    requires Fresh(st.added, st.views, PriorPrints(st.prior, opening))
    ensures ProgressBeforeLast(opening, st.prior, st.added, st.views)
  {
    var n := |st.added|;
    if n > 0 {
      var es, vs := st.added[..n - 1], st.views[..n - 1];
      forall i | FailedAt(es, vs, i)
        ensures FailedAt(st.added, st.views, i) && PrintAt(es, vs, i) == PrintAt(st.added, st.views, i)
      {
      }
    }
  }

  /** What bounds the number of decisions still to come. */
  function Fuel(b: Budget): nat {
    b.steps + b.retries
  }

  /** What a continuing, finishing or aborting outcome must satisfy after decision `n + 1`. */
  ghost predicate StepOk(start: Budget, opening: Snapshot, n: nat, fuel: nat, out: Outcome) {
    match out
    case Continue(next) =>
      && Going(start, opening, n + 1, next)
      && Fuel(next.budget) < fuel
    case Done(_, _, _) => Finished(start, opening, out)
    case Abort(reason) => reason !in {NegativeBudget, LedgerRefused}
  }

  /** Everything a failed selection leaves true, before it is judged. */
  ghost predicate FailureRecorded(start: Budget, opening: Snapshot, n: nat, fuel: nat, next: Loop) {
    && n + 1 == |next.added| + |next.failures| && next.retryCharge <= 1
    && Conserved(start, next) && Within(next.budget, next.ledger.budget)
    && Progressing(opening, next.prior, next.added, next.views, next.seen)
    && ProgressBeforeLast(opening, next.prior, next.added, next.views)
    && n + Fuel(next.budget) <= start.steps + start.retries && Fuel(next.budget) <= fuel
  }

  lemma {:induction false} RepeatKeeps(start: Budget, opening: Snapshot, n: nat, fuel: nat, next: Loop, rested: Budget, delay: nat)
    requires FailureRecorded(start, opening, n, fuel, next) && !next.ledger.quarantined
    requires next.budget.retries > 0 && rested == next.budget.(retries := next.budget.retries - 1, time := rested.time)
    requires next.budget.time.None? <==> rested.time.None?
    requires next.budget.time.Some? ==> next.budget.time.value == rested.time.value + delay
    ensures StepOk(start, opening, n, fuel,
                   Continue(next.(budget := rested, selectionRetries := next.selectionRetries + 1, slept := next.slept + delay)))
  {
  }

  lemma {:induction false} SelectionFailureKeeps(c: Config, start: Budget, opening: Snapshot, n: nat, fuel: nat,
                                                 next: Loop, code: SelectorCode)
    requires FailureRecorded(start, opening, n, fuel, next)
    requires ClassifySelection(code) == RetryableProviderTool ==> !next.ledger.quarantined
    ensures StepOk(start, opening, n, fuel, AfterSelectionFailure(c, next, code))
  {
    var b := next.budget;
    if ClassifySelection(code) == RetryableProviderTool && b.retries > 0 && b.calls > 0 && b.time != Some(0) {
      var (rested, delay) := Backoff(c, b.(retries := b.retries - 1), next.selectionRetries + 1);
      RepeatKeeps(start, opening, n, fuel, next, rested, delay);
    }
  }

  /** After a failed selection the run ends or goes on with one decision more and one retry less. */
  lemma {:induction false} AfterFailureKeeps(c: Config, start: Budget, opening: Snapshot, n: nat, st: Loop,
                                             f: Failure, l: Ledger, x: Surroundings)
    requires Going(start, opening, n, st)
    requires DecisionOk(SelectionFailed(f, l), c, st.budget, st.retryCharge, st.ledger)
    ensures StepOk(start, opening, n, Fuel(st.budget), AfterFailure(c, st, f, l, x))
  {
    if Current(c, x.after, f.after).Some? {
      var view := Current(c, x.after, f.after).value;
      var next := st.(budget := f.after, snapshot := view, failures := st.failures + [f], ledger := l);
      FailureConserves(start, st, f, next);
      FreshPrefix(opening, st);
      SelectionFailureKeeps(c, start, opening, n, Fuel(st.budget), next, f.code);
    }
  }

  /** The shape of an added event's outcome, without the loop around it. */
  lemma {:induction false} EventFacts(e: Event)
    ensures e.disposition == Rejected && e.reason.ProposalRejected? ==>
              ClassifyEvent(e).Some? && ClassifyEvent(e).value in {UnauthorizedSource, PermanentMalformedProposal}
    ensures e.disposition != Executed ==> ClassifyEvent(e).Some?
  {
  }

  lemma {:induction false} BeforeLast(opening: Snapshot, st: Loop, next: Loop, e: Event, view: Snapshot)
    requires Fresh(st.added, st.views, PriorPrints(st.prior, opening))
    requires next.prior == st.prior && next.added == st.added + [e] && next.views == st.views + [view]
    ensures ProgressBeforeLast(opening, next.prior, next.added, next.views)
  {
    assert next.added[..|st.added|] == st.added;
    assert next.views[..|st.views|] == st.views;
  }

  /** The loop state right after the event was appended, before it is judged. */
  ghost predicate Appended(start: Budget, opening: Snapshot, n: nat, st: Loop, next: Loop, e: Event) {
    && Going(start, opening, n, st)
    && next == st.(budget := e.after, snapshot := next.snapshot, added := st.added + [e],
                   views := st.views + [next.snapshot], ledger := next.ledger)
    && Conserved(start, next)
    && ProgressBeforeLast(opening, next.prior, next.added, next.views)
    && next.ledger.budget == e.after
  }

  /** A repeated fingerprint or a permanent cause ends the run. */
  lemma {:induction false} FailureEnds(c: Config, start: Budget, opening: Snapshot, n: nat, st: Loop,
                                       next: Loop, e: Event, category: Category)
    requires Appended(start, opening, n, st, next, e)
    requires e.disposition != Executed && ClassifyEvent(e) == Some(category)
    requires category != RetryableProviderTool || PrintOf(e, next.snapshot, category) in st.seen
    ensures StepOk(start, opening, n, Fuel(st.budget),
                   AfterToolFailure(c, st, next, category, PrintOf(e, next.snapshot, category)))
  {
  }

  lemma {:induction false} MarkedProgresses(start: Budget, opening: Snapshot, n: nat, st: Loop, next: Loop, e: Event)
    requires Appended(start, opening, n, st, next, e)
    requires e.disposition == FailedTool && ClassifyEvent(e) == Some(RetryableProviderTool)
    requires PrintOf(e, next.snapshot, RetryableProviderTool) !in st.seen
    ensures Progressing(opening, next.prior, next.added, next.views,
                        st.seen + {PrintOf(e, next.snapshot, RetryableProviderTool)})
  {
    FreshAppend(st.added, st.views, PriorPrints(st.prior, opening), e, next.snapshot);
  }

  /** Backing off moves time from the budget to the backoff and changes nothing else. */
  lemma {:induction false} RestKeeps(c: Config, start: Budget, opening: Snapshot, n: nat, st: Loop, before: Loop,
                                     failures: nat, p: Fingerprint)
    requires failures >= 1 && n + 1 == |st.added| + |st.failures|
    requires Conserved(start, st) && Within(st.budget, st.ledger.budget)
    requires Progressing(opening, st.prior, st.added, st.views, st.seen) && ProgressBeforeLast(opening, st.prior, st.added, st.views)
    requires n + 1 + st.budget.steps + st.budget.retries <= start.steps + start.retries
    requires st.budget.steps + st.budget.retries < before.budget.steps + before.budget.retries
    requires TerminalOf(st.snapshot).None?
    ensures StepOk(start, opening, n, Fuel(before.budget), Rest(c, st, failures, p))
  {
  }

  lemma {:induction false} NewFailureKeeps(c: Config, start: Budget, opening: Snapshot, n: nat, st: Loop, before: Loop,
                                           p: Fingerprint)
    requires p in st.seen && n + 1 == |st.added| + |st.failures|
    requires Conserved(start, st) && Within(st.budget, st.ledger.budget)
    requires Progressing(opening, st.prior, st.added, st.views, st.seen)
    requires ProgressBeforeLast(opening, st.prior, st.added, st.views)
    requires n + 1 + st.budget.steps + st.budget.retries <= start.steps + start.retries
    requires st.budget.steps + st.budget.retries < before.budget.steps + before.budget.retries
    requires TerminalOf(st.snapshot).None?
    ensures StepOk(start, opening, n, Fuel(before.budget), AfterNewFailure(c, st, p))
  {
    assert st.seen != {};
    RestKeeps(c, start, opening, n, st, before, |st.seen|, p);
  }

  /** A new retryable failure goes on after its backoff, or ends for lack of budget. */
  lemma {:induction false} RetryKeeps(c: Config, start: Budget, opening: Snapshot, n: nat, st: Loop, next: Loop, e: Event)
    requires Appended(start, opening, n, st, next, e)
    requires e.disposition == FailedTool && ClassifyEvent(e) == Some(RetryableProviderTool)
    requires PrintOf(e, next.snapshot, RetryableProviderTool) !in st.seen
    requires e.after.steps + 1 == st.budget.steps && e.after.retries <= st.budget.retries
    requires TerminalOf(next.snapshot).None?
    ensures StepOk(start, opening, n, Fuel(st.budget), AfterToolFailure(c, st, next, RetryableProviderTool,
                                                           PrintOf(e, next.snapshot, RetryableProviderTool)))
  {
    MarkedProgresses(start, opening, n, st, next, e);
    var p := PrintOf(e, next.snapshot, RetryableProviderTool);
    NewFailureKeeps(c, start, opening, n, next.(seen := st.seen + {p}), st, p);
  }

  lemma {:induction false} ExecutedKeeps(start: Budget, opening: Snapshot, n: nat, st: Loop, next: Loop, e: Event)
    requires Appended(start, opening, n, st, next, e)
    requires e.disposition == Executed && e.after.steps + 1 == st.budget.steps && e.after.retries <= st.budget.retries
    requires !next.ledger.quarantined
    ensures StepOk(start, opening, n, Fuel(st.budget), Continue(next.(retryCharge := 0)))
  {
    FreshAppend(st.added, st.views, PriorPrints(st.prior, opening), e, next.snapshot);
  }

  /** After an event the run ends, or goes on with one decision more and one step less. */
  lemma {:induction false} AfterEventKeeps(c: Config, start: Budget, opening: Snapshot, n: nat, st: Loop,
                                           e: Event, l: Ledger, x: Surroundings)
    requires Going(start, opening, n, st)
    requires DecisionOk(Decided(e, l), c, st.budget, st.retryCharge, st.ledger)
    ensures StepOk(start, opening, n, Fuel(st.budget), AfterEvent(c, st, e, l, x))
  {
    if Current(c, x.after, e.after).Some? {
      var view := Current(c, x.after, e.after).value;
      var next := st.(budget := e.after, snapshot := view, added := st.added + [e],
                      views := st.views + [view], ledger := l);
      EventConserves(start, st, e, next);
      EventFacts(e);
      BeforeLast(opening, st, next, e, view);
      assert Appended(start, opening, n, st, next, e);
      if TerminalOf(view).None? {
        if e.disposition == Executed {
          ExecutedKeeps(start, opening, n, st, next, e);
        } else {
          var category := ClassifyEvent(e).value;
          if category != RetryableProviderTool || PrintOf(e, view, category) in st.seen {
            FailureEnds(c, start, opening, n, st, next, e, category);
          } else {
            RetryKeeps(c, start, opening, n, st, next, e);
          }
        }
      }
    }
  }

  lemma {:induction false} AfterDecisionKeeps(c: Config, start: Budget, opening: Snapshot, n: nat, st: Loop,
                                              d: Decision, x: Surroundings)
    requires Going(start, opening, n, st) && DecisionOk(d, c, st.budget, st.retryCharge, st.ledger)
    ensures StepOk(start, opening, n, Fuel(st.budget), AfterDecision(c, st, d, x))
  {
    match d
    case Aborted(_) =>
    case SelectionFailed(f, l) => AfterFailureKeeps(c, start, opening, n, st, f, l, x);
    case Decided(e, l) => AfterEventKeeps(c, start, opening, n, st, e, l, x);
  }

  lemma {:induction false} TopKeeps(start: Budget, opening: Snapshot, n: nat, st: Loop)
    requires Going(start, opening, n, st) && TopOfLoop(st).Some?
    ensures Finished(start, opening, TopOfLoop(st).value)
  {
    FreshPrefix(opening, st);
  }

  lemma {:induction false} IterateKeeps(c: Config, start: Budget, opening: Snapshot, n: nat, st: Loop,
                                        d: Decision, x: Surroundings)
    requires Going(start, opening, n, st)
    requires DecisionOk(d, c, st.budget, st.retryCharge, st.ledger.(budget := st.budget))
    ensures StepOk(start, opening, n, Fuel(st.budget), Iterate(c, st, d, x))
  {
    var here := st.(ledger := st.ledger.(budget := st.budget));
    assert Going(start, opening, n, here);
    if TopOfLoop(here).Some? {
      TopKeeps(start, opening, n, here);
    } else {
      AfterDecisionKeeps(c, start, opening, n, here, d, x);
    }
  }

  /** One trip through the loop keeps the invariant and shrinks steps plus retries, or ends. */
  lemma {:induction false} TripKeeps(c: Config, start: Budget, opening: Snapshot, n: nat, st: Loop, x: Surroundings)
    requires ValidConfig(c) && Going(start, opening, n, st)
    ensures StepOk(start, opening, n, Fuel(st.budget), Trip(c, st, x))
  {
    var l := st.ledger.(budget := st.budget);
    EveryDecisionAccounted(c, st.budget, st.retryCharge, x, l);
    IterateKeeps(c, start, opening, n, st, Decide(c, st.budget, st.retryCharge, x, l), x);
  }

  // ------------------------------------------------- charging without a trace

  /** `_consume_selection_failure`, the runner's charge for a failure the coordinator did not trace. */
  function ConsumeSelectionFailure(b: Budget, attempts: int, latency: int): Budget {
    Budget(b.steps,
           b.calls - Min(Max(attempts, 0), b.calls),
           b.retries - Min(Max(attempts - 1, 0), b.retries),
           if b.time.None? then None else Some(b.time.value - Min(Max(latency, 0), b.time.value)))
  }

  // -------------------------------------------------------------- the runner

  /** The run after `n` trips: what the loop means, with nothing said about its ending. */
  function Trips(c: Config, prior: seq<Event>, budget: Budget, opening: Snapshot, env: nat -> Surroundings, n: nat): Outcome
    requires ValidRegistry(c.rules)
  {
    if n == 0 then Submitted(c, Begin(c, prior, budget, opening))
    else
      match Trips(c, prior, budget, opening, env, n - 1)
      case Continue(st) => Trip(c, st, env(n - 1))
      case ended => ended
  }

  /**
   `_run`. For any history, budget, opening snapshot and surroundings it ends after at most
   steps + retries + 1 decisions, never underflows or is refused by the ledger, and finishes
   with every guarantee of `Finished`.
   */
  method Run(c: Config, prior: seq<Event>, budget: Budget, opening: Snapshot, env: nat -> Surroundings)
    returns (out: Outcome, trips: nat)
    requires ValidConfig(c)
    ensures !out.Continue?
    ensures Current(c, opening, budget).None? ==> out == Abort(SnapshotRefused)
    ensures Current(c, opening, budget).Some? ==> Runs(c, prior, budget, opening, trips, out)
    ensures out == Trips(c, prior, budget, opening, env, trips)
  {
    trips := 0;
    if Current(c, opening, budget).None? {
      return Abort(SnapshotRefused), 0;
    }
    out := Opened(c, prior, budget, opening, env);
    while out.Continue?
      invariant Runs(c, prior, budget, opening, trips, out) && out == Trips(c, prior, budget, opening, env, trips)
      decreases if out.Continue? then 1 + Fuel(out.loop.budget) else 0
    {
      out := Tripped(c, prior, budget, opening, env, trips, out.loop);
      trips := trips + 1;
    }
  }

  /**
   `run` around `_run`: the result is validated once more, with every selection failure traced
   under the run's identifier, and handed to the ledger. `traced` names the runs of the failures
   recorded before this invocation; its own are all about the run.
   */
  function Delivered(c: Config, traced: seq<nat>, out: Outcome): Outcome {
    if !out.Done? then out
    else if exists r :: r in traced && r != c.run then Abort(ResultRefused)
    else if (out.loop.ledger.quarantined && Completed(out.termination)) || !Within(out.loop.budget, out.loop.ledger.budget)
    then Abort(LedgerRefused)
    else out
  }

  /** The ledger never refuses a result, so the trace is all that a finished run still depends on. */
  method RunAndComplete(c: Config, prior: seq<Event>, traced: seq<nat>, budget: Budget, opening: Snapshot, env: nat -> Surroundings)
    returns (out: Outcome, trips: nat)
    requires ValidConfig(c)
    ensures !out.Continue? && out != Abort(LedgerRefused)
    ensures out == Delivered(c, traced, Trips(c, prior, budget, opening, env, trips))
  {
    out, trips := Run(c, prior, budget, opening, env);
    if out.Done? && exists r :: r in traced && r != c.run {
      out := Abort(ResultRefused);
    }
  }

  /** The part of `_run` before its loop. */
  method Opened(c: Config, prior: seq<Event>, budget: Budget, opening: Snapshot, ghost env: nat -> Surroundings)
    returns (out: Outcome)
    requires Current(c, opening, budget).Some? && ValidRegistry(c.rules)
    ensures Runs(c, prior, budget, opening, 0, out) && out == Trips(c, prior, budget, opening, env, 0)
  {
    BeginRuns(c, prior, budget, opening);
    out := Submitted(c, Begin(c, prior, budget, opening));
  }

  /** The body of its loop. */
  method Tripped(c: Config, ghost prior: seq<Event>, ghost budget: Budget, ghost opening: Snapshot,
                 env: nat -> Surroundings, trips: nat, st: Loop)
    returns (out: Outcome)
    requires ValidConfig(c) && Runs(c, prior, budget, opening, trips, Continue(st))
    requires Trips(c, prior, budget, opening, env, trips) == Continue(st)
    ensures Runs(c, prior, budget, opening, trips + 1, out) && out == Trips(c, prior, budget, opening, env, trips + 1)
    ensures out.Continue? ==> Fuel(out.loop.budget) < Fuel(st.budget)
  {
    TripRuns(c, prior, budget, opening, trips, st, env(trips));
    out := Trip(c, st, env(trips));
  }

  /** The invariant of the runner's loop. */
  ghost predicate Runs(c: Config, prior: seq<Event>, budget: Budget, opening: Snapshot, trips: nat, out: Outcome) {
    && Current(c, opening, budget).Some?
    && var view := Current(c, opening, budget).value;
       match out
       case Abort(reason) => reason !in {NegativeBudget, LedgerRefused} && trips <= Fuel(budget) + 1
       case Done(t, st, handoff) =>
         && Finished(budget, view, out)
         && WellFormedResult(c, t, st, handoff)
         && st.prior == prior
         && trips <= Fuel(budget) + 1
       case Continue(st) =>
         && Going(budget, view, trips, st)
         && st.prior == prior
         && Own(c, st.added)
         && trips + Fuel(st.budget) <= Fuel(budget)
  }

  /** What that invariant says of a run that is over. */
  lemma {:induction false} EndGuarantees(c: Config, prior: seq<Event>, budget: Budget, opening: Snapshot, trips: nat, out: Outcome)
    requires !out.Continue? && Runs(c, prior, budget, opening, trips, out)
    ensures out.Abort? ==> out.reason !in {NegativeBudget, LedgerRefused}
    ensures out.Done? ==> Guaranteed(c, prior, budget, Current(c, opening, budget).value, out)
  {
    if out.Done? {
      var n := |out.loop.added|;
      forall i | 0 <= i < n - 1 ensures out.loop.added[i].disposition != Rejected {
        assert out.loop.added[..n - 1][i] == out.loop.added[i];
      }
    }
  }

  /** What a returned result promises. */
  ghost predicate Guaranteed(c: Config, prior: seq<Event>, budget: Budget, opening: Snapshot, out: Outcome)
    requires out.Done?
  {
    && Conserved(budget, out.loop)
    && |out.loop.added| + |out.loop.failures| <= budget.steps + budget.retries + 1
    && ProgressBeforeLast(opening, prior, out.loop.added, out.loop.views)
    && (forall i :: 0 <= i < |out.loop.added| - 1 ==> out.loop.added[i].disposition != Rejected)
    && Own(c, prior + out.loop.added)
    && (Completed(out.termination) ==> out.handoff.None? && !out.loop.ledger.quarantined)
    && (out.termination == EndVerified ==> !LastNotExecuted(out.loop))
  }

  /** The invariant holds after any number of trips; `made` is how many there were to make. */
  lemma {:induction false} TripsRun(c: Config, prior: seq<Event>, budget: Budget, opening: Snapshot, env: nat -> Surroundings, n: nat)
    returns (out: Outcome, made: nat)
    requires ValidConfig(c) && Current(c, opening, budget).Some?
    ensures out == Trips(c, prior, budget, opening, env, n) && Runs(c, prior, budget, opening, made, out)
    ensures made <= n && (out.Continue? ==> made == n)
  {
    if n == 0 {
      BeginRuns(c, prior, budget, opening);
      out, made := Submitted(c, Begin(c, prior, budget, opening)), 0;
    } else {
      var before, count := TripsRun(c, prior, budget, opening, env, n - 1);
      OneMoreTrip(c, prior, budget, opening, env, n, before);
      if before.Continue? {
        TripRuns(c, prior, budget, opening, count, before.loop, env(count));
        out, made := Trip(c, before.loop, env(count)), n;
      } else {
        out, made := before, count;
      }
    }
  }

  lemma {:induction false} OneMoreTrip(
    c: Config, prior: seq<Event>, budget: Budget, opening: Snapshot, env: nat -> Surroundings, n: nat, before: Outcome)
    requires ValidRegistry(c.rules) && n > 0 && before == Trips(c, prior, budget, opening, env, n - 1)
    ensures Trips(c, prior, budget, opening, env, n) == if before.Continue? then Trip(c, before.loop, env(n - 1)) else before
  {
  }

  /**
   Whatever the history, budget, opening snapshot and surroundings: after steps + retries + 1
   decisions the run is over; it is never refused by the ledger; and its result conserves the
   budget, repeats no failure but the last, and never reports a verified case on a failed event.
   */
  lemma {:induction false} RunGuarantees(c: Config, prior: seq<Event>, budget: Budget, opening: Snapshot, env: nat -> Surroundings,
                                         n: nat)
    requires ValidConfig(c) && Current(c, opening, budget).Some?
    ensures
      var out := Trips(c, prior, budget, opening, env, n);
      && (n > budget.steps + budget.retries ==> !out.Continue?)
      && (out.Abort? ==> out.reason !in {NegativeBudget, LedgerRefused})
      && (out.Done? ==> Guaranteed(c, prior, budget, Current(c, opening, budget).value, out))
  {
    var out, made := TripsRun(c, prior, budget, opening, env, n);
    if !out.Continue? {
      EndGuarantees(c, prior, budget, opening, made, out);
    }
  }

  lemma {:induction false} BeginRuns(c: Config, prior: seq<Event>, budget: Budget, opening: Snapshot)
    requires Current(c, opening, budget).Some?
    ensures Runs(c, prior, budget, opening, 0, Submitted(c, Begin(c, prior, budget, opening)))
  {
    BeginGoes(c, prior, budget, opening);
  }

  /** One trip keeps the runner's invariant and, if it goes on, leaves less fuel. */
  lemma {:induction false} TripRuns(c: Config, prior: seq<Event>, budget: Budget, opening: Snapshot, trips: nat, st: Loop,
                                    x: Surroundings)
    requires ValidConfig(c) && Runs(c, prior, budget, opening, trips, Continue(st))
    ensures var out := Trip(c, st, x);
            Runs(c, prior, budget, opening, trips + 1, out) && (out.Continue? ==> Fuel(out.loop.budget) < Fuel(st.budget))
  {
    TripKeeps(c, budget, Current(c, opening, budget).value, trips, st, x);
    TripHistory(c, st, x);
  }

  /** A trip appends at most one event, and one it goes on after is about the run. */
  lemma {:induction false} TripHistory(c: Config, st: Loop, x: Surroundings)
    requires ValidConfig(c) && Within(st.budget, st.ledger.budget)
    ensures var out := Trip(c, st, x);
            && (!out.Abort? ==> out.loop.prior == st.prior)
            && (out.Continue? && Own(c, st.added) ==> Own(c, out.loop.added))
  {
    var l := st.ledger.(budget := st.budget);
    EveryDecisionAccounted(c, st.budget, st.retryCharge, x, l);
    IterateHistory(c, st, Decide(c, st.budget, st.retryCharge, x, l), x);
  }

  lemma {:induction false} IterateHistory(c: Config, st: Loop, d: Decision, x: Surroundings)
    requires DecisionOk(d, c, st.budget, st.retryCharge, st.ledger.(budget := st.budget))
    ensures var out := Iterate(c, st, d, x);
            && (!out.Abort? ==> out.loop.prior == st.prior)
            && (out.Continue? && Own(c, st.added) ==> Own(c, out.loop.added))
  {
  }
}
