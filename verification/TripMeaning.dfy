/**
 What one trip through the bounded runner's loop does, and what its start does
 (`application/bounded_workflow.py`): when it goes on, with which budget and after how long a
 pause, and with which verdict and handoff it ends otherwise.
 */
module TripMeaning {
  import opened Common
  import opened ActionPolicy
  import opened ControlledWorkflow
  import opened BoundedWorkflow
  import opened DecisionMeaning

  // ------------------------------------------------------------------------- categories

  /** The reason itself already decides the category. */
  ghost predicate Settled(e: Event) {
    e.reason in {ToolTimeExhausted, ToolResultUnknown, InvalidToolReceipt, ProposalRejected(Unauthorized)}
  }

  ghost predicate InCategory(e: Event, k: Category) {
    match k
    case MissingEvidence => e.disposition == Executed && e.stateAfter == EvidenceNeedsReview
    case UnsupportedRuleContext => e.disposition == Executed && e.stateAfter == UnsupportedContexts
    case UnresolvedExecution => e.disposition != Executed && e.reason in {ToolTimeExhausted, ToolResultUnknown}
    case UnauthorizedSource =>
      && e.disposition != Executed
      && (e.reason in {InvalidToolReceipt, ProposalRejected(Unauthorized)}
          || (!Settled(e) && e.disposition == FailedTool && e.problem == Some(Unauthorized)))
    case PermanentMalformedProposal => e.disposition == Rejected && !Settled(e)
    case RetryableProviderTool => e.disposition == FailedTool && !Settled(e) && e.problem == Some(ExecutionFailed)
    case DeterministicReviewBlocker =>
      || (e.disposition == Executed && e.stateAfter == ReviewFailed)
      || (e.disposition == FailedTool && !Settled(e) && e.problem !in {Some(Unauthorized), Some(ExecutionFailed)})
  }

  lemma {:induction false} CategoryExactly(e: Event, k: Category)
    ensures ClassifyEvent(e) == Some(k) <==> InCategory(e, k)
    ensures ClassifyEvent(e).None? <==>
      e.disposition == Executed && e.stateAfter !in {EvidenceNeedsReview, UnsupportedContexts, ReviewFailed}
  {
  }

  /** A failed decision may be repeated exactly if its tool was called, answered in time and was kept,
      and the answer was a plain execution failure: a fault, an unexpected error or a reported problem. */
  lemma {:induction false} RetryableExactly(c: Config, b: Budget, retryCharge: nat, x: Surroundings, ledger: Ledger)
    requires ValidConfig(c) && NoMoreThan(b, ledger.budget)
    requires Decide(c, b, retryCharge, x, ledger).Decided?
    ensures
      InCategory(Decide(c, b, retryCharge, x, ledger).event, RetryableProviderTool) <==>
        && Judged(c, b, x, ledger) && Called(c, b, retryCharge, x) && Kept(x) && !TooLate(b, x)
        && match x.tool
           case Returned(r) =>
             && r.problem == Some(ExecutionFailed)
             && r.reason !in {ToolTimeExhausted, ToolResultUnknown, InvalidToolReceipt, ProposalRejected(Unauthorized)}
           case ToolFault(code) => code == ExecutionFailed
           case UnreadableReceipt => true
           case ToolRaised => true
           case _ => false
  {
    DecisionExactly(c, b, retryCharge, x, ledger);
  }

  ghost function CodeCategory(code: SelectorCode): Category {
    match code
    case Timeout => UnresolvedExecution
    case InFlight => UnresolvedExecution
    case Throttled => RetryableProviderTool
    case ProviderError => RetryableProviderTool
    case MissingArgumentSource => MissingEvidence
    case NoAllowedAction => DeterministicReviewBlocker
    case _ => PermanentMalformedProposal
  }

  // -------------------------------------------------------------------------- the pause

  /** `after` is what is left of `b` when `pause` is slept: the base doubled `n` times, cut to the time left. */
  ghost predicate Rested(c: Config, b: Budget, n: nat, after: Budget, pause: nat) {
    var full := c.backoffMs * Pow2(n);
    && (after.steps, after.calls, after.retries) == (b.steps, b.calls, b.retries)
    && match b.time
       case None => after.time.None? && pause == full
       case Some(left) => pause == (if full < left then full else left) && after.time == Some(left - pause)
  }

  lemma {:induction false} DoubledExactly(base: nat, n: nat)
    ensures Doubled(base, n) == base * Pow2(n)
  {
    if n > 0 {
      DoubledExactly(base, n - 1);
      assert base * (2 * Pow2(n - 1)) == 2 * (base * Pow2(n - 1));
    }
  }

  lemma {:induction false} RestedExactly(c: Config, b: Budget, failures: nat)
    requires failures >= 1
    ensures Rested(c, b, failures - 1, Backoff(c, b, failures).0, Backoff(c, b, failures).1)
  {
    DoubledExactly(c.backoffMs, failures - 1);
  }

  // --------------------------------------------------------------------------- one trip

  ghost predicate HandsOff(out: Outcome, t: Termination, category: Category, reason: HandoffReason, p: Option<Fingerprint>) {
    out.Done? && out.termination == t && out.handoff == Some(Handoff(category, reason, p))
  }

  ghost predicate Ends(out: Outcome, t: Termination, loop: Loop) {
    out == Done(t, loop, None)
  }

  ghost predicate Finished(s: State) {
    s == Verified || s == WaitingForHuman
  }

  ghost function VerdictOf(s: State): Termination {
    if s == Verified then EndVerified else EndWaitingForHuman
  }

  /** Nothing changes but what a failed selection leaves. */
  ghost predicate SelectionLeaves(st: Loop, f: Failure, l: Ledger, x: Surroundings, next: Loop) {
    && next.failures == st.failures + [f] && next.ledger == l
    && next.snapshot == With(x.after, f.after)
    && (next.prior, next.added, next.views, next.seen, next.retryCharge) == (st.prior, st.added, st.views, st.seen, st.retryCharge)
  }

  /** After a failed selection. */
  ghost predicate SelectionEnds(c: Config, st: Loop, f: Failure, l: Ledger, x: Surroundings, out: Outcome) {
    var provider := f.code == Throttled || f.code == ProviderError;
    if !Readable(c, x.after, f.after) then out == Abort(SnapshotRefused)
    else if provider && f.after.retries > 0 && f.after.calls > 0 && (f.after.time.Some? ==> f.after.time.value > 0) then
      && out.Continue? && SelectionLeaves(st, f, l, x, out.loop)
      && out.loop.selectionRetries == st.selectionRetries + 1 && out.loop.slept >= st.slept
      && Rested(c, f.after.(retries := f.after.retries - 1), st.selectionRetries, out.loop.budget, out.loop.slept - st.slept)
    else
      && HandsOff(out, if provider then BudgetExhausted else PermanentFailure, CodeCategory(f.code), SelectorFailure(f.code), None)
      && SelectionLeaves(st, f, l, x, out.loop) && out.loop.budget == f.after
      && (out.loop.selectionRetries, out.loop.slept) == (st.selectionRetries, st.slept)
  }

  /** Nothing changes but what an event leaves; its failure may mark a fingerprint. */
  ghost predicate EventLeaves(st: Loop, e: Event, l: Ledger, x: Surroundings, next: Loop) {
    && next.added == st.added + [e] && next.views == st.views + [With(x.after, e.after)] && next.ledger == l
    && next.snapshot == With(x.after, e.after)
    && (next.prior, next.failures, next.selectionRetries) == (st.prior, st.failures, st.selectionRetries)
  }

  /** The loop's own variables after an event that ends the run. */
  ghost predicate EventStops(st: Loop, e: Event, l: Ledger, x: Surroundings, next: Loop) {
    && EventLeaves(st, e, l, x, next) && next.budget == e.after
    && (next.retryCharge, next.slept) == (st.retryCharge, st.slept)
  }

  /** After an event that left the workflow in a live state without being executed. */
  ghost predicate FailureEnds(c: Config, st: Loop, e: Event, l: Ledger, x: Surroundings, k: Category, out: Outcome) {
    var p := PrintOf(e, With(x.after, e.after), k);
    if p in st.seen then HandsOff(out, NoProgress, k, WorkflowNoProgress, Some(p)) && EventStops(st, e, l, x, out.loop)
    else if k != RetryableProviderTool then
      HandsOff(out, PermanentFailure, k, WorkflowPermanentFailure, Some(p)) && EventStops(st, e, l, x, out.loop)
    else if e.after.retries == 0 || e.after.steps == 0 then
      HandsOff(out, BudgetExhausted, k, WorkflowRetriesExhausted, Some(p)) && EventStops(st, e, l, x, out.loop)
    else
      && !out.Abort? && EventLeaves(st, e, l, x, out.loop)
      && out.loop.seen == st.seen + {p} && out.loop.retryCharge == 1 && out.loop.slept >= st.slept
      && Rested(c, e.after, |st.seen|, out.loop.budget, out.loop.slept - st.slept)
      && if out.loop.budget.time == Some(0) then HandsOff(out, BudgetExhausted, k, WorkflowTimeExhausted, Some(p)) else out.Continue?
  }

  /** After an event. */
  ghost predicate EventEnds(c: Config, st: Loop, e: Event, l: Ledger, x: Surroundings, out: Outcome) {
    if !Readable(c, x.after, e.after) then out == Abort(SnapshotRefused)
    else if Finished(x.after.state) then
      && out.Done? && EventStops(st, e, l, x, out.loop) && out.loop.seen == st.seen
      && if e.disposition == Executed then Ends(out, VerdictOf(x.after.state), out.loop)
         else exists k :: InCategory(e, k) && HandsOff(out, PermanentFailure, k, FailedTerminalTransition, None)
    else if e.disposition == Executed then
      && out.Continue? && EventLeaves(st, e, l, x, out.loop)
      && (out.loop.budget, out.loop.seen, out.loop.slept, out.loop.retryCharge) == (e.after, st.seen, st.slept, 0)
    else exists k :: InCategory(e, k) && FailureEnds(c, st, e, l, x, k, out)
  }

  /** One trip, for any decision made in it. */
  ghost predicate TripEnds(c: Config, st: Loop, d: Decision, x: Surroundings, out: Outcome) {
    var b, here := st.budget, st.(ledger := st.ledger.(budget := st.budget));
    if Finished(st.snapshot.state) then Ends(out, VerdictOf(st.snapshot.state), here)
    else if b.steps == 0 || b.time == Some(0) then
      HandsOff(out, BudgetExhausted, DeterministicReviewBlocker, WorkflowBudgetExhausted, None) && out.loop == here
    else if st.retryCharge > 0 && b.retries == 0 then
      HandsOff(out, BudgetExhausted, RetryableProviderTool, WorkflowRetriesExhausted, None) && out.loop == here
    else
      match d
      case Aborted(reason) => out == Abort(reason)
      case SelectionFailed(f, l) => SelectionEnds(c, here, f, l, x, out)
      case Decided(e, l) => EventEnds(c, here, e, l, x, out)
  }

  lemma {:induction false} SelectionEndsExactly(c: Config, st: Loop, f: Failure, l: Ledger, x: Surroundings)
    ensures SelectionEnds(c, st, f, l, x, AfterFailure(c, st, f, l, x))
  {
    ReadableExactly(c, x.after, f.after);
    if f.after.retries > 0 {
      RestedExactly(c, f.after.(retries := f.after.retries - 1), st.selectionRetries + 1);
    }
  }

  lemma {:induction false} FailureEndsExactly(c: Config, st: Loop, e: Event, l: Ledger, x: Surroundings, k: Category, next: Loop)
    requires next == st.(budget := e.after, snapshot := With(x.after, e.after), added := st.added + [e],
                         views := st.views + [With(x.after, e.after)], ledger := l)
    ensures FailureEnds(c, st, e, l, x, k, AfterToolFailure(c, st, next, k, PrintOf(e, With(x.after, e.after), k)))
  {
    var p := PrintOf(e, With(x.after, e.after), k);
    if p !in st.seen {
      assert |st.seen + {p}| == |st.seen| + 1;
      RestedExactly(c, e.after, |st.seen| + 1);
    }
  }

  lemma {:induction false} EventEndsExactly(c: Config, st: Loop, e: Event, l: Ledger, x: Surroundings)
    ensures EventEnds(c, st, e, l, x, AfterEvent(c, st, e, l, x))
  {
    ReadableExactly(c, x.after, e.after);
    var category := ClassifyEvent(e);
    if e.disposition != Executed && Readable(c, x.after, e.after) {
      CategoryExactly(e, category.value);
      var next := st.(budget := e.after, snapshot := With(x.after, e.after), added := st.added + [e],
                      views := st.views + [With(x.after, e.after)], ledger := l);
      FailureEndsExactly(c, st, e, l, x, category.value, next);
    }
  }

  /** Every trip ends, or goes on, exactly like this. */
  lemma {:induction false} TripEndsExactly(c: Config, st: Loop, d: Decision, x: Surroundings)
    requires NoMoreThan(st.budget, st.ledger.budget)
    ensures TripEnds(c, st, d, x, Iterate(c, st, d, x))
  {
    var here := st.(ledger := st.ledger.(budget := st.budget));
    match d
    case Aborted(_) =>
    case SelectionFailed(f, l) => SelectionEndsExactly(c, here, f, l, x);
    case Decided(e, l) => EventEndsExactly(c, here, e, l, x);
  }

  // ---------------------------------------------------------------------------- the start

  /** The fingerprints the run starts with: those of its recorded failures, in the opening snapshot. */
  ghost predicate Remembers(prior: seq<Event>, opening: Snapshot, seen: set<Fingerprint>) {
    forall p :: p in seen <==> exists i: nat, k :: i < |prior| && FailedAs(prior[i], k) && p == PrintOf(prior[i], opening, k)
  }

  ghost predicate FailedAs(e: Event, k: Category) {
    e.disposition != Executed && InCategory(e, k)
  }

  ghost predicate StartsWith(prior: seq<Event>, b: Budget, opening: Snapshot, next: Loop) {
    && (next.snapshot, next.prior, next.added, next.views, next.failures) == (With(opening, b), prior, [], [], [])
    && next.selectionRetries == 0 && next.ledger == Ledger(b, false)
    && Remembers(prior, With(opening, b), next.seen)
  }

  /** How a run begins, given its recorded history. */
  ghost predicate BeginsAs(c: Config, prior: seq<Event>, b: Budget, opening: Snapshot, out: Outcome) {
    if !Readable(c, opening, b) then out == Abort(SnapshotRefused)
    else if prior == [] || prior[|prior| - 1].disposition == Executed then
      && out.Continue? && StartsWith(prior, b, opening, out.loop)
      && (out.loop.budget, out.loop.retryCharge, out.loop.slept) == (b, 0, 0)
    else exists k :: FailedAs(prior[|prior| - 1], k) && BeginsAfter(c, prior, b, opening, k, out)
  }

  ghost predicate BeginsAfter(c: Config, prior: seq<Event>, b: Budget, opening: Snapshot, k: Category, out: Outcome) {
    && !out.Abort? && StartsWith(prior, b, opening, out.loop)
    && if Finished(opening.state) then HandsOff(out, PermanentFailure, k, FailedTerminalTransition, None) && out.loop.budget == b
       else if k != RetryableProviderTool then
         HandsOff(out, PermanentFailure, k, WorkflowPermanentFailure, None) && out.loop.budget == b
       else
         && out.Continue? && out.loop.retryCharge == 1 && |out.loop.seen| >= 1
         && Rested(c, b, |out.loop.seen| - 1, out.loop.budget, out.loop.slept)
  }

  lemma {:induction false} RemembersExactly(prior: seq<Event>, s: Snapshot)
    ensures Remembers(prior, s, PriorPrints(prior, s))
  {
    forall e, k ensures ClassifyEvent(e) == Some(k) <==> InCategory(e, k) {
      CategoryExactly(e, k);
    }
    var seen := PriorPrints(prior, s);
    forall p ensures p in seen <==> exists i: nat, k :: i < |prior| && FailedAs(prior[i], k) && p == PrintOf(prior[i], s, k) {
      if p in seen {
        var e :| e in prior && e.disposition != Executed && ClassifyEvent(e).Some? && p == PrintOf(e, s, ClassifyEvent(e).value);
        var i: nat :| i < |prior| && prior[i] == e;
        assert FailedAs(prior[i], ClassifyEvent(e).value);
      }
      if exists i: nat, k :: i < |prior| && FailedAs(prior[i], k) && p == PrintOf(prior[i], s, k) {
        var i: nat, k :| i < |prior| && FailedAs(prior[i], k) && p == PrintOf(prior[i], s, k);
        assert prior[i] in prior && ClassifyEvent(prior[i]) == Some(k);
      }
    }
  }

  /** A run begins exactly like this. */
  lemma {:induction false} BeginsExactly(c: Config, prior: seq<Event>, b: Budget, opening: Snapshot)
    ensures BeginsAs(c, prior, b, opening, Begin(c, prior, b, opening))
  {
    ReadableExactly(c, opening, b);
    RemembersExactly(prior, With(opening, b));
    if prior != [] && prior[|prior| - 1].disposition != Executed {
      var k := ClassifyEvent(prior[|prior| - 1]).value;
      CategoryExactly(prior[|prior| - 1], k);
      assert FailedAs(prior[|prior| - 1], k);
      PriorPrintIsSeen(prior, With(opening, b));
      RestedExactly(c, b, |PriorPrints(prior, With(opening, b))|);
      if Readable(c, opening, b) {
        assert BeginsAfter(c, prior, b, opening, k, Begin(c, prior, b, opening));
      }
    }
  }
}
