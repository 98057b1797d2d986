/**
 What a finished bounded run says about its last event (`application/bounded_workflow.py` and
 the validator of its result in `domain/service_contracts.py`).
 */
module WorkflowVerdict {
  import opened Common
  import opened ActionPolicy
  import opened ControlledWorkflow
  import opened BoundedWorkflow

  /** A failed last event is never paired with a finished state. */
  predicate Honest(st: Loop) {
    LastNotExecuted(st) ==> TerminalOf(st.snapshot).None?
  }

  // ---------------------------------------------------- selections that are repeated

  /** The decision gets as far as asking the selector. */
  predicate Asks(c: Config, st: Loop, x: Surroundings)
    requires ValidRegistry(c.rules)
  {
    && TopOfLoop(st).None?
    && !st.ledger.quarantined
    && Current(c, x.first, st.budget).Some?
    && Derive(Current(c, x.first, st.budget).value, c.rules, c.policyKind, c.policyVersion).Some?
    && (forall q :: q in c.evidence ==> Cites(x.first.revision.documents, q))
    && !OutOfTime(st.budget, Reading(x.clock, 0))
  }

  /** What the selector's error costs. */
  function ChargeFor(b: Budget, x: Surroundings): Budget
    requires x.selection.Raised?
  {
    ConsumeSelectionFailure(b, x.selection.attempts, Max(x.selection.latency, Reading(x.clock, 4)))
  }

  /** The selector failed for its provider's sake, and the budget pays for asking once more. */
  predicate AsksAgain(c: Config, b: Budget, x: Surroundings) {
    && x.selection.Raised?
    && x.selection.code in {Throttled, ProviderError}
    && x.selection.attemptsKnown
    && 0 <= x.selection.attempts < b.calls
    && Max(x.selection.attempts - 1, 0) < b.retries
    && (b.time.Some? ==> x.selection.latency < b.time.value && Reading(x.clock, 4) < b.time.value)
    && Current(c, x.after, ChargeFor(b, x)).Some?
  }

  lemma {:induction false} RaisedIsRecorded(b: Budget, x: Surroundings, l: Ledger)
    requires x.selection.Raised? && x.selection.code in {Throttled, ProviderError} && l.budget == b
    ensures var s := x.selection;
            var d := RecordFailure(b, s.code, s.attempts, s.latency, s.attemptsKnown, Reading(x.clock, 4), l);
            && (d.SelectionFailed? <==> (s.attemptsKnown ==> s.attempts >= 0))
            && (d.SelectionFailed? ==> d.failure.code == s.code)
            && (d.SelectionFailed? && s.attemptsKnown ==> d.failure.after == ChargeFor(b, x))
            && (d.SelectionFailed? && !s.attemptsKnown ==> d.failure.after.calls == 0)
  {
  }

  /** A failed selection is repeated. */
  predicate Repeated(st: Loop, out: Outcome) {
    out.Continue? && out.loop.failures != st.failures
  }

  lemma {:induction false} FailureRepeats(c: Config, st: Loop, f: Failure, l: Ledger, x: Surroundings)
    requires f.code in {Throttled, ProviderError}
    ensures Repeated(st, AfterFailure(c, st, f, l, x)) <==>
            && f.after.retries > 0 && f.after.calls > 0 && f.after.time != Some(0)
            && Current(c, x.after, f.after).Some?
  {
  }

  lemma {:induction false} OnlyProviderFailuresRepeat(c: Config, st: Loop, d: Decision, x: Surroundings)
    requires Repeated(st, Iterate(c, st, d, x))
    ensures d.SelectionFailed? && d.failure.code in {Throttled, ProviderError} && TopOfLoop(st).None?
  {
  }

  lemma {:induction false} SelectorIsAsked(c: Config, st: Loop, x: Surroundings)
    requires ValidConfig(c) && Within(st.budget, st.ledger.budget) && TopOfLoop(st).None?
    requires x.selection.Raised? && x.selection.code in {Throttled, ProviderError}
    ensures var l := st.ledger.(budget := st.budget);
            var d := Decide(c, st.budget, st.retryCharge, x, l);
            var s := x.selection;
            && (Asks(c, st, x) ==>
                  d == RecordFailure(st.budget, s.code, s.attempts, s.latency, s.attemptsKnown, Reading(x.clock, 4), l))
            && (!Asks(c, st, x) && d.SelectionFailed? ==> d.failure.code in {Timeout, InFlight})
  {
  }

  /** A trip repeats its selection exactly under the conditions of `Asks` and `AsksAgain`. */
  lemma {:induction false} RepeatedExactly(c: Config, st: Loop, x: Surroundings)
    requires ValidConfig(c) && Within(st.budget, st.ledger.budget)
    ensures Repeated(st, Trip(c, st, x)) <==> Asks(c, st, x) && AsksAgain(c, st.budget, x)
  {
    var l := st.ledger.(budget := st.budget);
    var d := Decide(c, st.budget, st.retryCharge, x, l);
    var here := st.(ledger := l);
    if Repeated(st, Trip(c, st, x)) {
      OnlyProviderFailuresRepeat(c, st, d, x);
      ProviderFailureIsRaised(c, st.budget, st.retryCharge, x, l);
      SelectorIsAsked(c, st, x);
      RaisedIsRecorded(st.budget, x, l);
      FailureRepeats(c, here, d.failure, d.ledger, x);
    } else if Asks(c, st, x) && AsksAgain(c, st.budget, x) {
      SelectorIsAsked(c, st, x);
      RaisedIsRecorded(st.budget, x, l);
      FailureRepeats(c, here, d.failure, d.ledger, x);
    }
  }

  // --------------------------------------------------------------- one trip

  lemma {:induction false} AppendedLast(st: Loop, next: Loop, e: Event)
    requires next.prior == st.prior && next.added == st.added + [e]
    ensures LastNotExecuted(next) <==> e.disposition != Executed
  {
    assert Events(next) == Events(st) + [e];
  }

  /** After an event the run goes on in a live state, and completes only if the event was executed. */
  lemma {:induction false} EventIsHonest(c: Config, here: Loop, e: Event, l: Ledger, x: Surroundings)
    ensures var out := AfterEvent(c, here, e, l, x);
            && (out.Continue? ==> TerminalOf(out.loop.snapshot).None?)
            && (out.Done? && Completed(out.termination) ==> !LastNotExecuted(out.loop))
  {
    var out := AfterEvent(c, here, e, l, x);
    if out.Done? {
      AppendedLast(here, out.loop, e);
    }
  }

  /** After a failed selection nothing but the list of failures grows. */
  lemma {:induction false} FailureIsHonest(c: Config, here: Loop, f: Failure, l: Ledger, x: Surroundings)
    ensures var out := AfterFailure(c, here, f, l, x);
            out.Continue? ==> out.loop.snapshot.state == x.after.state && Repeated(here, out) && Events(out.loop) == Events(here)
  {
  }

  lemma {:induction false} EventIsNotRepeated(c: Config, here: Loop, e: Event, l: Ledger, x: Surroundings)
    ensures var out := AfterEvent(c, here, e, l, x);
            out.Continue? ==> out.loop.snapshot.state == x.after.state && !Repeated(here, out)
  {
  }

  /** The one way to go on with a finished state after a failed event is a repeated selection. */
  lemma {:induction false} TripHonest(c: Config, st: Loop, x: Surroundings)
    requires ValidConfig(c)
    ensures var out := Trip(c, st, x);
            && (out.Continue? ==> out.loop.snapshot.state == x.after.state)
            && (out.Continue? && !Honest(out.loop) ==> Repeated(st, out))
            && (Repeated(st, out) ==> Events(out.loop) == Events(st))
  {
    var l := st.ledger.(budget := st.budget);
    var d := Decide(c, st.budget, st.retryCharge, x, l);
    var here := st.(ledger := l);
    assert Events(here) == Events(st);
    match d
    case Aborted(_) =>
    case SelectionFailed(f, after) => FailureIsHonest(c, here, f, after, x);
    case Decided(e, after) =>
      EventIsHonest(c, here, e, after, x);
      EventIsNotRepeated(c, here, e, after, x);
  }

  /** A trip offers a completed verdict after a failed event exactly when it was entered in that pairing. */
  lemma {:induction false} DishonestVerdictExactly(c: Config, st: Loop, d: Decision, x: Surroundings)
    requires Within(st.budget, st.ledger.budget)
    ensures var out := Iterate(c, st, d, x);
            && (out.Done? && Completed(out.termination) && LastNotExecuted(out.loop) <==> !Honest(st))
            && (!Honest(st) ==> Some(out.termination) == TerminalOf(st.snapshot) && Events(out.loop) == Events(st))
  {
    if d.Decided? {
      EventIsHonest(c, st.(ledger := st.ledger.(budget := st.budget)), d.event, d.ledger, x);
    }
  }

  /** A decision about another run's proposal, after which the run could be read again. */
  predicate Strays(c: Config, st: Loop, x: Surroundings)
    requires ValidRegistry(c.rules)
  {
    var d := Decide(c, st.budget, st.retryCharge, x, st.ledger.(budget := st.budget));
    && TopOfLoop(st).None?
    && d.Decided? && d.event.proposal.run != c.run
    && Current(c, x.after, d.event.after).Some?
  }

  lemma {:induction false} EventIsOwn(c: Config, here: Loop, e: Event, l: Ledger, x: Surroundings)
    requires Own(c, Events(here)) && (e.disposition == Rejected ==> e.reason.ProposalRejected?)
    requires e.disposition != Rejected ==> e.proposal.run == c.run
    ensures var out := AfterEvent(c, here, e, l, x);
            && !(out.Abort? && out.reason == ResultRefused)
            && (Submitted(c, out) == Abort(ResultRefused) <==>
                  e.proposal.run != c.run && Current(c, x.after, e.after).Some?)
  {
    var out := AfterEvent(c, here, e, l, x);
    if out.Done? {
      AppendedLast(here, out.loop, e);
      assert Events(out.loop) == Events(here) + [e];
    }
  }

  /** At the top of the loop only a verified state behind a failure is refused. */
  lemma {:induction false} TopRefusedExactly(c: Config, st: Loop)
    requires Own(c, Events(st)) && TopOfLoop(st).Some?
    ensures Submitted(c, TopOfLoop(st).value) == Abort(ResultRefused) <==> !Honest(st) && st.snapshot.state == Verified
  {
  }

  lemma {:induction false} FailureIsNotRefused(c: Config, st: Loop, f: Failure, l: Ledger, x: Surroundings)
    requires Own(c, Events(st))
    ensures Submitted(c, AfterFailure(c, st, f, l, x)) != Abort(ResultRefused)
  {
  }

  /** A trip's result is refused exactly for a verified state behind a failure or a stray proposal. */
  lemma {:induction false} TripRefusedExactly(c: Config, st: Loop, x: Surroundings)
    requires ValidConfig(c) && Within(st.budget, st.ledger.budget) && Own(c, Events(st))
    ensures Trip(c, st, x) == Abort(ResultRefused) <==>
            (!Honest(st) && st.snapshot.state == Verified) || Strays(c, st, x)
  {
    var l := st.ledger.(budget := st.budget);
    var d := Decide(c, st.budget, st.retryCharge, x, l);
    EveryDecisionAccounted(c, st.budget, st.retryCharge, x, l);
    var here := st.(ledger := l);
    assert Events(here) == Events(st);
    if TopOfLoop(here).Some? {
      TopRefusedExactly(c, here);
    } else {
      match d
      case Aborted(_) =>
      case SelectionFailed(f, after) => FailureIsNotRefused(c, here, f, after, x);
      case Decided(e, after) => EventIsOwn(c, here, e, after, x);
    }
  }

  // ------------------------------------------------------------- whole runs

  /** One invocation of the runner and everything it will meet. */
  datatype Invocation = Invocation(
    config: Config, prior: seq<Event>, budget: Budget, opening: Snapshot, env: nat -> Surroundings)

  /** The invocation after `k` trips. */
  function After(w: Invocation, k: nat): Outcome
    requires ValidRegistry(w.config.rules)
  {
    Trips(w.config, w.prior, w.budget, w.opening, w.env, k)
  }

  /** The state the runner saw last before decision `k`. */
  function SeenBefore(w: Invocation, k: nat): State {
    if k == 0 then w.opening.state else w.env(k - 1).after.state
  }

  /** What is known of the loop before decision `k`. */
  ghost predicate Before(w: Invocation, k: nat, st: Loop) {
    && Runs(w.config, w.prior, w.budget, w.opening, k, Continue(st))
    && st.snapshot.state == SeenBefore(w, k)
    && (k == 0 ==> Honest(st))
  }

  predicate WaitsAfterFailure(out: Outcome) {
    out.Done? && out.termination == EndWaitingForHuman && LastNotExecuted(out.loop)
  }

  /** What becomes of a run whose state became final behind a failed event. */
  predicate Closes(w: Invocation, final: State, out: Outcome) {
    if final == Verified || !Own(w.config, w.prior) then out == Abort(ResultRefused) else WaitsAfterFailure(out)
  }

  /**
   A decision follows a failed event in a live state and repeats its selection, and meanwhile
   the workflow reached the state `final` without a tool of this run.
   */
  predicate Moves(c: Config, st: Loop, x: Surroundings, final: State)
    requires ValidRegistry(c.rules)
  {
    LastNotExecuted(st) && Asks(c, st, x) && AsksAgain(c, st.budget, x) && x.after.state == final
  }

  // What is used below of single trips; nothing in it depends on how a trip is computed.

  ghost predicate First(w: Invocation, out: Outcome) {
    && (out.Continue? ==> Before(w, 0, out.loop))
    && !WaitsAfterFailure(out)
    && (out == Abort(ResultRefused) ==> !Own(w.config, w.prior))
  }

  ghost predicate Stepped(w: Invocation, k: nat, st: Loop, out: Outcome)
    requires ValidRegistry(w.config.rules)
  {
    && (out.Continue? ==> Before(w, k + 1, out.loop))
    && (out.Continue? && !Honest(out.loop) ==> Moves(w.config, st, w.env(k), out.loop.snapshot.state))
    && (Moves(w.config, st, w.env(k), Verified) || Moves(w.config, st, w.env(k), WaitingForHuman) ==>
          out.Continue? && !Honest(out.loop))
    && (WaitsAfterFailure(out) ==> !Honest(st) && st.snapshot.state == WaitingForHuman)
    && (!Honest(st) ==> Closes(w, st.snapshot.state, out))
    && (Own(w.config, w.prior) && out == Abort(ResultRefused) ==>
          (!Honest(st) && st.snapshot.state == Verified) || Strays(w.config, st, w.env(k)))
    && (Own(w.config, w.prior) && Strays(w.config, st, w.env(k)) ==> out == Abort(ResultRefused))
  }

  ghost predicate Linked(w: Invocation, k: nat, before: Outcome, out: Outcome)
    requires ValidRegistry(w.config.rules)
  {
    match before
    case Continue(st) => Before(w, k, st) ==> Stepped(w, k, st, out)
    case ended => out == before
  }

  lemma {:induction false} FirstHolds(w: Invocation)
    requires ValidConfig(w.config)
    ensures First(w, After(w, 0))
  {
    assert w.prior + [] == w.prior;
    if After(w, 0).Continue? {
      BeginRuns(w.config, w.prior, w.budget, w.opening);
    }
  }

  lemma {:induction false} PairingCloses(w: Invocation, k: nat, st: Loop)
    requires ValidConfig(w.config) && Before(w, k, st) && !Honest(st)
    ensures Closes(w, st.snapshot.state, Trip(w.config, st, w.env(k)))
  {
    var here := st.(ledger := st.ledger.(budget := st.budget));
    assert Events(here) == Events(st) == w.prior + st.added;
    assert TopOfLoop(here) == Some(Done(TerminalOf(st.snapshot).value, here, None));
  }

  lemma {:induction false} WaitingWasPaired(w: Invocation, k: nat, st: Loop)
    requires ValidConfig(w.config) && Before(w, k, st) && WaitsAfterFailure(Trip(w.config, st, w.env(k)))
    ensures !Honest(st) && st.snapshot.state == WaitingForHuman
  {
    var l := st.ledger.(budget := st.budget);
    DishonestVerdictExactly(w.config, st, Decide(w.config, st.budget, st.retryCharge, w.env(k), l), w.env(k));
  }

  /** A trip goes on in the pairing exactly after a decision that moved. */
  lemma {:induction false} PairingIsMoved(w: Invocation, k: nat, st: Loop)
    requires ValidConfig(w.config) && Before(w, k, st)
    ensures var out, x := Trip(w.config, st, w.env(k)), w.env(k);
            && (out.Continue? && !Honest(out.loop) ==> Moves(w.config, st, x, out.loop.snapshot.state))
            && (Moves(w.config, st, x, Verified) || Moves(w.config, st, x, WaitingForHuman) ==>
                  out.Continue? && !Honest(out.loop))
            && (out.Continue? ==> out.loop.snapshot.state == x.after.state)
  {
    TripHonest(w.config, st, w.env(k));
    RepeatedExactly(w.config, st, w.env(k));
  }

  lemma {:induction false} TripRefused(w: Invocation, k: nat, st: Loop)
    requires ValidConfig(w.config) && Before(w, k, st) && Own(w.config, w.prior)
    ensures Trip(w.config, st, w.env(k)) == Abort(ResultRefused) <==>
            (!Honest(st) && st.snapshot.state == Verified) || Strays(w.config, st, w.env(k))
  {
    assert Events(st) == w.prior + st.added;
    TripRefusedExactly(w.config, st, w.env(k));
  }

  lemma {:induction false} TripSteps(w: Invocation, k: nat, st: Loop, out: Outcome)
    requires ValidConfig(w.config) && Before(w, k, st) && out == Trip(w.config, st, w.env(k))
    ensures Stepped(w, k, st, out)
  {
    TripRuns(w.config, w.prior, w.budget, w.opening, k, st, w.env(k));
    PairingIsMoved(w, k, st);
    if !Honest(st) {
      PairingCloses(w, k, st);
    }
    if WaitsAfterFailure(out) {
      WaitingWasPaired(w, k, st);
    }
    if Own(w.config, w.prior) {
      TripRefused(w, k, st);
    }
  }

  lemma {:induction false} LinkHolds(w: Invocation, k: nat)
    requires ValidConfig(w.config)
    ensures Linked(w, k, After(w, k), After(w, k + 1))
  {
    var before := After(w, k);
    if before.Continue? && Before(w, k, before.loop) {
      TripSteps(w, k, before.loop, After(w, k + 1));
    }
  }

  /** The outcomes of the first trips of an invocation, known only by their links. */
  ghost predicate History(w: Invocation, h: seq<Outcome>)
    requires ValidRegistry(w.config.rules)
  {
    && |h| > 0
    && First(w, h[0])
    && (forall k :: 0 < k < |h| ==> Linked(w, k - 1, h[k - 1], h[k]))
  }

  predicate MovedIn(w: Invocation, h: seq<Outcome>, k: nat, final: State)
    requires ValidRegistry(w.config.rules)
  {
    k < |h| && h[k].Continue? && Moves(w.config, h[k].loop, w.env(k), final)
  }

  predicate StrayedIn(w: Invocation, h: seq<Outcome>, k: nat)
    requires ValidRegistry(w.config.rules)
  {
    k < |h| && h[k].Continue? && Strays(w.config, h[k].loop, w.env(k))
  }

  lemma {:induction false} BeforeEach(w: Invocation, h: seq<Outcome>, k: nat)
    requires ValidConfig(w.config) && History(w, h) && k < |h| && h[k].Continue?
    ensures Before(w, k, h[k].loop)
  {
    if k > 0 {
      assert Linked(w, k - 1, h[k - 1], h[k]);
      BeforeEach(w, h, k - 1);
    }
  }

  /** The link from a trip that went on. */
  lemma {:induction false} StepOf(w: Invocation, h: seq<Outcome>, k: nat)
    requires ValidConfig(w.config) && History(w, h) && k + 1 < |h| && h[k].Continue?
    ensures Stepped(w, k, h[k].loop, h[k + 1])
  {
    BeforeEach(w, h, k);
    assert Linked(w, k + 1 - 1, h[k + 1 - 1], h[k + 1]);
  }

  lemma {:induction false} EndedStays(w: Invocation, h: seq<Outcome>, k: nat, n: nat)
    requires ValidRegistry(w.config.rules) && History(w, h) && k <= n < |h| && !h[k].Continue?
    ensures h[n] == h[k]
  {
    if k < n {
      EndedStays(w, h, k, n - 1);
      assert Linked(w, n - 1, h[n - 1], h[n]);
    }
  }

  /** Two trips after such a decision the run is over, and stays so. */
  lemma {:induction false} MovedCloses(w: Invocation, h: seq<Outcome>, k: nat, n: nat, final: State)
    requires ValidConfig(w.config) && History(w, h) && k + 2 <= n < |h|
    requires final in {Verified, WaitingForHuman} && MovedIn(w, h, k, final)
    ensures Closes(w, final, h[n])
  {
    StepOf(w, h, k);
    StepOf(w, h, k + 1);
    EndedStays(w, h, k + 2, n);
  }

  /** A pairing met before decision `k` was made by decision `k - 1`. */
  lemma {:induction false} PairingWasMoved(w: Invocation, h: seq<Outcome>, k: nat)
    requires ValidConfig(w.config) && History(w, h) && k < |h| && h[k].Continue? && !Honest(h[k].loop)
    ensures k > 0 && MovedIn(w, h, k - 1, h[k].loop.snapshot.state)
  {
    BeforeEach(w, h, k);
    assert Linked(w, k - 1, h[k - 1], h[k]);
    StepOf(w, h, k - 1);
  }

  lemma {:induction false} WaitingWasMoved(w: Invocation, h: seq<Outcome>, n: nat) returns (k: nat)
    requires ValidConfig(w.config) && History(w, h) && n < |h| && WaitsAfterFailure(h[n])
    ensures k + 2 <= n && MovedIn(w, h, k, WaitingForHuman)
  {
    if h[n - 1].Continue? {
      StepOf(w, h, n - 1);
      PairingWasMoved(w, h, n - 1);
      k := n - 2;
    } else {
      EndedStays(w, h, n - 1, n);
      k := WaitingWasMoved(w, h, n - 1);
    }
  }

  /** Why the trip `k` had its result refused. */
  lemma {:induction false} RefusedStep(w: Invocation, h: seq<Outcome>, k: nat)
    requires ValidConfig(w.config) && History(w, h) && k + 1 < |h| && Own(w.config, w.prior)
    requires h[k].Continue? && h[k + 1] == Abort(ResultRefused)
    ensures StrayedIn(w, h, k) || (k > 0 && MovedIn(w, h, k - 1, Verified))
  {
    StepOf(w, h, k);
    if !StrayedIn(w, h, k) {
      PairingWasMoved(w, h, k);
    }
  }

  lemma {:induction false} RefusedWasMovedOrStrayed(w: Invocation, h: seq<Outcome>, n: nat) returns (k: nat)
    requires ValidConfig(w.config) && History(w, h) && n < |h| && Own(w.config, w.prior)
    requires h[n] == Abort(ResultRefused)
    ensures (k + 2 <= n && MovedIn(w, h, k, Verified)) || (k < n && StrayedIn(w, h, k))
  {
    k := n - 1;
    if h[k].Continue? {
      RefusedStep(w, h, k);
      k := if StrayedIn(w, h, k) then k else k - 1;
    } else {
      EndedStays(w, h, k, n);
      k := RefusedWasMovedOrStrayed(w, h, k);
    }
  }

  lemma {:induction false} StrayedIsRefused(w: Invocation, h: seq<Outcome>, k: nat, n: nat)
    requires ValidConfig(w.config) && History(w, h) && k < n < |h| && Own(w.config, w.prior) && StrayedIn(w, h, k)
    ensures h[n] == Abort(ResultRefused)
  {
    StepOf(w, h, k);
    EndedStays(w, h, k + 1, n);
  }

  lemma {:induction false} HistoryGrows(w: Invocation, h: seq<Outcome>, out: Outcome)
    requires ValidRegistry(w.config.rules) && History(w, h) && Linked(w, |h| - 1, h[|h| - 1], out)
    ensures History(w, h + [out])
  {
    var longer := h + [out];
    forall k | 0 < k < |longer| ensures Linked(w, k - 1, longer[k - 1], longer[k]) {
      assert k < |h| ==> longer[k] == h[k] && Linked(w, k - 1, h[k - 1], h[k]);
    }
  }

  /** Every element is the outcome of that many trips. */
  ghost predicate Records(w: Invocation, h: seq<Outcome>)
    requires ValidRegistry(w.config.rules)
  {
    forall k: nat :: k < |h| ==> h[k] == After(w, k)
  }

  /** The history of the first `n` trips. */
  lemma {:induction false} HistoryOf(w: Invocation, n: nat) returns (h: seq<Outcome>)
    requires ValidConfig(w.config)
    ensures |h| == n + 1 && History(w, h) && Records(w, h)
  {
    if n == 0 {
      FirstHolds(w);
      h := [After(w, 0)];
    } else {
      h := HistoryOf(w, n - 1);
      LinkHolds(w, n - 1);
      assert h[n - 1] == After(w, n - 1);
      HistoryGrows(w, h, After(w, n));
      h := h + [After(w, n)];
    }
  }

  // ------------------------------------------------------------ the theorems

  predicate MovedAt(w: Invocation, k: nat, final: State)
    requires ValidRegistry(w.config.rules)
  {
    After(w, k).Continue? && Moves(w.config, After(w, k).loop, w.env(k), final)
  }

  predicate StrayedAt(w: Invocation, k: nat)
    requires ValidRegistry(w.config.rules)
  {
    After(w, k).Continue? && Strays(w.config, After(w, k).loop, w.env(k))
  }

  /**
   A run reports that it waits for a human although its last event failed exactly when, some
   decision earlier, the state moved to waiting during a repeated selection.
   */
  lemma {:induction false} WaitsAfterFailureExactly(w: Invocation, n: nat)
    requires ValidConfig(w.config)
    ensures WaitsAfterFailure(After(w, n)) <==>
            Own(w.config, w.prior) && exists k: nat :: k + 2 <= n && MovedAt(w, k, WaitingForHuman)
  {
    var h := HistoryOf(w, n);
    assert h[n] == After(w, n);
    if WaitsAfterFailure(h[n]) {
      var k := WaitingWasMoved(w, h, n);
      assert h[k] == After(w, k);
      assert MovedAt(w, k, WaitingForHuman);
    }
    forall k: nat | k + 2 <= n && MovedAt(w, k, WaitingForHuman)
      ensures Closes(w, WaitingForHuman, h[n])
    {
      assert h[k] == After(w, k);
      MovedCloses(w, h, k, n, WaitingForHuman);
    }
  }

  lemma {:induction false} MovedIsRefused(w: Invocation, k: nat, n: nat)
    requires ValidConfig(w.config) && k + 2 <= n && MovedAt(w, k, Verified)
    ensures After(w, n) == Abort(ResultRefused)
  {
    var h := HistoryOf(w, n);
    assert h[n] == After(w, n) && h[k] == After(w, k);
    MovedCloses(w, h, k, n, Verified);
  }

  lemma {:induction false} StrayedAtIsRefused(w: Invocation, k: nat, n: nat)
    requires ValidConfig(w.config) && Own(w.config, w.prior) && k < n && StrayedAt(w, k)
    ensures After(w, n) == Abort(ResultRefused)
  {
    var h := HistoryOf(w, n);
    assert h[n] == After(w, n) && h[k] == After(w, k);
    StrayedIsRefused(w, h, k, n);
  }

  /** The state moved to verified behind a failed event, in time for the run to end on it. */
  ghost predicate EverMoved(w: Invocation, n: nat)
    requires ValidRegistry(w.config.rules)
  {
    exists k: nat :: k + 2 <= n && MovedAt(w, k, Verified)
  }

  /** A proposal for another run was decided. */
  ghost predicate EverStrayed(w: Invocation, n: nat)
    requires ValidRegistry(w.config.rules)
  {
    exists k: nat :: k < n && StrayedAt(w, k)
  }

  lemma {:induction false} RefusedHasCause(w: Invocation, n: nat) returns (k: nat, moved: bool)
    requires ValidConfig(w.config) && Own(w.config, w.prior) && After(w, n) == Abort(ResultRefused)
    ensures if moved then k + 2 <= n && MovedAt(w, k, Verified) else k < n && StrayedAt(w, k)
  {
    var h := HistoryOf(w, n);
    assert h[n] == After(w, n);
    k := RefusedWasMovedOrStrayed(w, h, n);
    assert h[k] == After(w, k);
    moved := k + 2 <= n && MovedIn(w, h, k, Verified);
  }

  /**
   A run over its own history raises instead of returning its result exactly when the state
   moved to verified in that way, a proposal for another run was decided, or the run ended and
   a selection failure of another run is traced under its identifier.
   */
  lemma {:induction false} ResultRefusedExactly(w: Invocation, traced: seq<nat>, n: nat)
    requires ValidConfig(w.config) && Own(w.config, w.prior)
    ensures After(w, n) == Abort(ResultRefused) <==> EverMoved(w, n) || EverStrayed(w, n)
    ensures Delivered(w.config, traced, After(w, n)) == Abort(ResultRefused) <==>
            || EverMoved(w, n) || EverStrayed(w, n)
            || (After(w, n).Done? && exists r :: r in traced && r != w.config.run)
  {
    if After(w, n) == Abort(ResultRefused) {
      var k, moved := RefusedHasCause(w, n);
    }
    if EverMoved(w, n) {
      var k: nat :| k + 2 <= n && MovedAt(w, k, Verified);
      MovedIsRefused(w, k, n);
    }
    if EverStrayed(w, n) {
      var k: nat :| k < n && StrayedAt(w, k);
      StrayedAtIsRefused(w, k, n);
    }
  }

  /** No provider failure coincides with the state leaving the live ones for waiting. */
  ghost predicate Steady(w: Invocation) {
    forall k: nat :: w.env(k).selection.Raised? && w.env(k).after.state == WaitingForHuman ==>
      SeenBefore(w, k) in {Verified, WaitingForHuman}
  }

  /** So where only this run's tools move its state, no run waits on a failed event. */
  lemma {:induction false} SteadyRunsAreHonest(w: Invocation, n: nat)
    requires ValidConfig(w.config) && Steady(w)
    ensures !WaitsAfterFailure(After(w, n))
  {
    var h := HistoryOf(w, n);
    assert h[n] == After(w, n);
    if WaitsAfterFailure(h[n]) {
      var k := WaitingWasMoved(w, h, n);
      BeforeEach(w, h, k);
    }
  }
}
