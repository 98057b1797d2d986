/**
 Two concrete runs of the bounded runner with the built-in rules: an extraction fails, the
 model is throttled, and meanwhile somebody else moves the case.
 */
module WorkflowExample {
  import opened Common
  import opened ActionPolicy
  import opened ControlledWorkflow
  import opened BoundedWorkflow
  import opened WorkflowVerdict

  const SELECTOR := Actor(1, ModelActor)
  const FULL := Budget(9, 9, 9, None)
  const SOURCE := Document(0, 1, 0, Criteria)

  /** A page whose extraction may be tried again. */
  const OPEN := Snapshot(0, 0, Revision(0, [SOURCE, Document(1, 1, 0, Forms)], [7], false), ExtractionRetryable,
                         [AuthorizedSource, ExtractionRetryAvailable], [], FULL)

  function BuiltIn(): Config {
    Config(0, DefaultRules(), ModelActor, 0, SELECTOR, Actor(2, SystemActor), [], 100)
  }

  const EXTRACTION := Proposal(0, 2, Extract, 0, OPEN, SELECTOR, Some(1), SourceArguments(SOURCE))

  /** The extraction is chosen, and its tool raises. */
  const TOOL_FAILS := Surroundings(OPEN, Chosen(EXTRACTION), OPEN, true, ToolRaised, OPEN, true, true, [], OPEN)

  /** The model is throttled, and the case meanwhile reaches `final`. */
  function Throttles(final: State): Surroundings {
    TOOL_FAILS.(selection := Raised(Throttled, 1, 0, true), after := OPEN.(state := final))
  }

  function Example(final: State): Invocation {
    Invocation(BuiltIn(), [], FULL, OPEN, k => if k == 0 then TOOL_FAILS else Throttles(final))
  }

  lemma {:induction false} ExtractionIsAdmitted() returns (a: AllowedAction)
    ensures ValidConfig(BuiltIn()) && ValidSnapshot(OPEN) && ValidProposal(EXTRACTION)
    ensures var allowed := Derive(OPEN, DefaultRules(), ModelActor, 0);
            && allowed.Some?
            && Admit(EXTRACTION, SELECTOR, BuiltIn().executor, OPEN, allowed.value) == Ok(a)
    ensures a.cost.steps == 1 && a.cost.retries == 1
  {
    DefaultRegistryAlwaysDerives(OPEN, ModelActor, 0);
    var rules := DefaultRules();
    assert rules[2] == DefaultRule(2);
    a := ActionOf(OPEN, rules[2], ModelActor);
    var allowed := Derive(OPEN, rules, ModelActor, 0).value;
    assert SOURCE in OPEN.revision.documents;
    assert Criteria in AvailablePurposes(rules[2].purposes, OPEN.revision.documents);
    ActionIsDerived(OPEN, rules, ModelActor, 2);
    DerivedIsAdmissible(OPEN, rules, 0, SELECTOR, BuiltIn().executor, EXTRACTION, a);
  }

  const LEFT := Budget(8, 8, 8, None)

  lemma {:induction false} ToolRaises(a: AllowedAction) returns (e: Event)
    requires a.cost.steps == 1 && ValidSnapshot(OPEN)
    ensures Execute(BuiltIn(), EXTRACTION, OPEN, a, 1, TOOL_FAILS, Ledger(FULL, false)) == Decided(e, Ledger(LEFT, false))
    ensures e.disposition == FailedTool && ClassifyEvent(e) == Some(RetryableProviderTool) && e.after == LEFT
  {
    e := Execute(BuiltIn(), EXTRACTION, OPEN, a, 1, TOOL_FAILS, Ledger(FULL, false)).event;
  }

  lemma {:induction false} ExtractionFails() returns (e: Event)
    ensures ValidConfig(BuiltIn())
    ensures Decide(BuiltIn(), FULL, 0, TOOL_FAILS, Ledger(FULL, false)) == Decided(e, Ledger(LEFT, false))
    ensures e.disposition == FailedTool && ClassifyEvent(e) == Some(RetryableProviderTool) && e.after == LEFT
  {
    var a := ExtractionIsAdmitted();
    e := ToolRaises(a);
    var l := Ledger(FULL, false);
    assert OPEN.(budget := FULL) == OPEN;
    assert Judge(BuiltIn(), EXTRACTION, OPEN, Ok(a), 0, TOOL_FAILS, l) == Decided(e, Ledger(LEFT, false));
    assert AdmitAndExecute(BuiltIn(), EXTRACTION, OPEN, 0, TOOL_FAILS, l) == Decided(e, Ledger(LEFT, false));
  }

  const CLEAN := Loop(FULL, OPEN, [], [], [], {}, 0, 0, [], 0, Ledger(FULL, false))

  /** The loop after the failed extraction. */
  predicate Retrying(st: Loop) {
    && st.budget == LEFT && st.ledger == Ledger(LEFT, false) && st.snapshot.state == ExtractionRetryable
    && st.retryCharge == 1
    && LastNotExecuted(st)
  }

  /** A first retryable failure with budget left, in a run without a time limit, is retried. */
  lemma {:induction false} FailureIsRetried(c: Config, clean: Loop, e: Event, l: Ledger, x: Surroundings) returns (st: Loop)
    requires e.disposition == FailedTool && ClassifyEvent(e) == Some(RetryableProviderTool) && e.after == LEFT
    requires clean.seen == {} && Current(c, x.after, LEFT).Some? && TerminalOf(x.after).None?
    ensures AfterEvent(c, clean, e, l, x) == Continue(st)
    ensures st.budget == LEFT && st.ledger == l && st.snapshot.state == x.after.state && st.retryCharge == 1
    ensures LastNotExecuted(st)
  {
    st := AfterEvent(c, clean, e, l, x).loop;
    AppendedLast(clean, st, e);
  }

  lemma {:induction false} ExampleStarts(final: State)
    requires ValidConfig(BuiltIn())
    ensures After(Example(final), 0) == Continue(CLEAN)
  {
    assert PriorPrints([], OPEN) == {};
    assert OPEN.(budget := FULL) == OPEN;
  }

  lemma {:induction false} ExampleFails(final: State) returns (st: Loop)
    ensures ValidConfig(BuiltIn())
    ensures After(Example(final), 1) == Continue(st) && Retrying(st)
  {
    var e := ExtractionFails();
    assert Current(BuiltIn(), OPEN, LEFT).Some?;
    st := FailureIsRetried(BuiltIn(), CLEAN, e, Ledger(LEFT, false), TOOL_FAILS);
    ExampleStarts(final);
    assert CLEAN.(ledger := CLEAN.ledger.(budget := FULL)) == CLEAN;
    assert Iterate(BuiltIn(), CLEAN, Decided(e, Ledger(LEFT, false)), TOOL_FAILS) == Continue(st);
    assert Trip(BuiltIn(), CLEAN, TOOL_FAILS) == Continue(st);
  }

  /** An untimed run whose policy never refuses a snapshot gets as far as asking. */
  lemma {:induction false} UntimedAsks(c: Config, st: Loop, x: Surroundings)
    requires ValidRegistry(c.rules) && c.evidence == [] && TopOfLoop(st).None? && !st.ledger.quarantined
    requires Current(c, x.first, st.budget).Some? && st.budget.time.None?
    requires Derive(Current(c, x.first, st.budget).value, c.rules, c.policyKind, c.policyVersion).Some?
    ensures Asks(c, st, x)
  {
  }

  lemma {:induction false} ThrottleIsAsked(c: Config, st: Loop, final: State)
    requires c == BuiltIn() && Retrying(st)
    ensures ValidConfig(c) && Asks(c, st, Throttles(final))
  {
    DefaultRegistryAlwaysDerives(OPEN.(budget := LEFT), ModelActor, 0);
    assert Current(c, OPEN, LEFT) == Some(OPEN.(budget := LEFT));
    UntimedAsks(c, st, Throttles(final));
  }

  /** A throttled first attempt is repeated, whatever the state has become. */
  lemma {:induction false} ThrottleIsRepeated(c: Config, b: Budget, s: Snapshot, x: Surroundings, final: State)
    requires s.run == c.run && ValidSnapshot(s) && !s.revision.preparation && Within(b, s.budget)
    requires x.selection == Raised(Throttled, 1, 0, true) && x.after == s.(state := final)
    requires b.calls > 1 && b.retries > 0 && b.time.None?
    ensures AsksAgain(c, b, x)
  {
  }

  lemma {:induction false} MovedByLoop(w: Invocation, k: nat, st: Loop, final: State)
    requires ValidRegistry(w.config.rules) && After(w, k) == Continue(st) && Moves(w.config, st, w.env(k), final)
    ensures MovedAt(w, k, final)
  {
  }

  lemma {:induction false} ExampleMoves(w: Invocation, final: State)
    requires w == Example(final)
    ensures ValidConfig(w.config) && MovedAt(w, 1, final)
  {
    var st := ExampleFails(final);
    ThrottleIsAsked(w.config, st, final);
    ThrottleIsRepeated(w.config, LEFT, OPEN, Throttles(final), final);
    MovedByLoop(w, 1, st, final);
  }

  /** Both verdicts occur with the built-in rules: three trips end waiting on a failed event, or in an error. */
  lemma {:induction false} FailedRunsDoClose()
    ensures ValidConfig(BuiltIn())
    ensures WaitsAfterFailure(After(Example(WaitingForHuman), 3))
    ensures After(Example(Verified), 3) == Abort(ResultRefused)
  {
    ExampleMoves(Example(WaitingForHuman), WaitingForHuman);
    ExampleMoves(Example(Verified), Verified);
    WaitsAfterFailureExactly(Example(WaitingForHuman), 3);
    ResultRefusedExactly(Example(Verified), [], 3);
  }
}
