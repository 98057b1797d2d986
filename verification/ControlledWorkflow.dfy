/**
 One controlled decision: select, re-admit, execute at most one tool, charge the budget
 (`application/controlled_workflow.py`, `adapters/local/workflow_run_ledger.py`).

 Everything outside this code arrives as a `Surroundings` value: the snapshots the provider
 returns, the selector's answer, the tool's answer, and the clock readings in whole
 milliseconds since the decision started.
 */
module ControlledWorkflow {
  import opened Common
  import opened ActionPolicy

  datatype Consumption = Consumption(steps: nat, calls: nat, retries: nat, elapsed: Option<nat>)

  datatype SelectorCode =
    | NoAllowedAction
    | AmbiguousAction
    | MissingArgumentSource
    | InvalidProposal
    | MalformedOutput
    | TruncatedOutput
    | Refused
    | Timeout
    | InFlight
    | Throttled
    | ProviderError
    | UnsupportedResponse

  datatype Selection =
    | Chosen(proposal: Proposal)
    | Raised(code: SelectorCode, attempts: int, latency: int, attemptsKnown: bool)
    | TimedOut

  datatype Reason =
    | ToolTimeExhausted
    | ToolResultUnknown
    | InvalidToolReceipt
    | ToolExecutionFailed
    | ProposalRejected(code: Code)
    | ToolRejected(code: Code)
    | ReceiptReason(text: nat)

  /** `None` for the problem means the tool succeeded. */
  datatype Receipt = Receipt(problem: Option<Code>, reason: Reason)

  datatype Tool =
    | Returned(receipt: Receipt)
    | ToolTimedOut
    | ExternalResultUnknown
    | UnreadableReceipt
    | ToolFault(code: Code)
    | ToolRaised

  datatype Disposition = Rejected | Executed | FailedTool

  datatype Event = Event(
    proposal: Proposal,
    disposition: Disposition,
    stateBefore: State,
    stateAfter: State,
    reason: Reason,
    problem: Option<Code>,
    before: Budget,
    after: Budget,
    consumed: Consumption)

  /** A traced selection failure. */
  datatype Failure = Failure(code: SelectorCode, before: Budget, after: Budget, consumed: Consumption)

  datatype Ledger = Ledger(budget: Budget, quarantined: bool)

  datatype Surroundings = Surroundings(
    first: Snapshot,
    selection: Selection,
    second: Snapshot,
    sourceCurrent: bool,
    tool: Tool,
    third: Snapshot,
    evidenceCurrent: bool,
    receiptFits: bool,
    clock: seq<nat>,
    after: Snapshot)

  /** The wiring of one coordinator for one run. */
  datatype Config = Config(
    run: nat,
    rules: seq<Rule>,
    policyKind: ActorKind,
    policyVersion: nat,
    selector: Actor,
    executor: Actor,
    evidence: seq<Citation>,
    backoffMs: nat)

  predicate ValidConfig(c: Config) {
    && ValidRegistry(c.rules)
    && c.policyKind in {SystemActor, ModelActor}
    && c.executor.kind == SystemActor
  }

  datatype AbortReason = SnapshotRefused | PolicyRefused | SelectorInputRefused | FailureRecordRefused
                       | NegativeBudget | LedgerRefused | ResultRefused

  datatype Decision =
    | Decided(event: Event, ledger: Ledger)
    | SelectionFailed(failure: Failure, ledger: Ledger)
    | Aborted(reason: AbortReason)

  /** `within` is nowhere above `budget`, and both or neither are timed. */
  predicate Within(within: Budget, budget: Budget) {
    && within.steps <= budget.steps
    && within.calls <= budget.calls
    && within.retries <= budget.retries
    && (within.time.None? <==> budget.time.None?)
    && (within.time.Some? ==> within.time.value <= budget.time.value)
  }

  /** `checkpoint`: the ledger refuses any budget that grew. */
  function Checkpoint(l: Ledger, b: Budget): Option<Ledger> {
    if Within(b, l.budget) then Some(l.(budget := b)) else None
  }

  /** `_current`: the provider may not grant less than the run still holds. */
  function Current(c: Config, provided: Snapshot, budget: Budget): Option<Snapshot> {
    if provided.run == c.run && ValidSnapshot(provided) && Within(budget, provided.budget)
    then Some(provided.(budget := budget)) else None
  }

  function Reading(clock: seq<nat>, i: nat): nat {
    if i < |clock| then clock[i] else 0
  }

  predicate OutOfTime(b: Budget, elapsed: nat) {
    b.time.Some? && b.time.value <= elapsed
  }

  /** `_consume`; `None` is the validation error for a negative budget or charge. */
  function Consume(b: Budget, steps: int, calls: int, retries: int, elapsed: nat, minimum: int)
    : Option<(Budget, Consumption)>
  {
    if !(0 <= steps <= b.steps && 0 <= calls <= b.calls && 0 <= retries <= b.retries) then None
    else
      var spent: nat := Max(Max(minimum, 0), elapsed);
      var charged: Option<nat> := if b.time.None? then None else Some(Min(spent, b.time.value));
      var left: Option<nat> := if b.time.None? then None else Some(b.time.value - charged.value);
      Some((Budget(b.steps - steps, b.calls - calls, b.retries - retries, left),
            Consumption(steps, calls, retries, charged)))
  }

  /** What a charge of `c` leaves of `before` is `after`, component by component. */
  predicate Charged(before: Budget, after: Budget, c: Consumption) {
    && before.steps == after.steps + c.steps
    && before.calls == after.calls + c.calls
    && before.retries == after.retries + c.retries
    && (before.time.None? <==> after.time.None?)
    && (before.time.None? <==> c.elapsed.None?)
    && (before.time.Some? ==> before.time.value == after.time.value + c.elapsed.value)
  }

  lemma {:induction false} ConsumeCharges(b: Budget, steps: int, calls: int, retries: int, elapsed: nat, minimum: int)
    ensures var r := Consume(b, steps, calls, retries, elapsed, minimum);
            && (r.Some? <==> 0 <= steps <= b.steps && 0 <= calls <= b.calls && 0 <= retries <= b.retries)
            && (r.Some? ==>
                  && Charged(b, r.value.0, r.value.1) && Within(r.value.0, b)
                  && r.value.1.steps == steps && r.value.1.calls == calls && r.value.1.retries == retries)
  {
  }

  /** `_record_selection_failure`: unknown usage reserves every remaining model call. */
  function RecordFailure(b: Budget, code: SelectorCode, attempts: int, latency: int, known: bool,
                         elapsed: nat, ledger: Ledger): Decision
  {
    var wanted := if known then attempts else b.calls;
    var calls := Min(Max(wanted, 0), b.calls);
    var retries := Min(Max(attempts - 1, 0), b.retries);
    match Consume(b, 0, calls, retries, elapsed, latency)
    case None => Aborted(NegativeBudget)
    case Some((after, consumed)) =>
      if known && attempts < 0 then Aborted(FailureRecordRefused)
      else
        match Checkpoint(ledger, after)
        case None => Aborted(LedgerRefused)
        case Some(l) => SelectionFailed(Failure(code, b, after, consumed), l)
  }

  function ModelCalls(p: Proposal): nat {
    if p.proposer.kind == ModelActor && p.attempts.Some? then p.attempts.value else 0
  }

  /** `_rejection`: no tool step is charged, and what was spent is capped by what is left. */
  function Reject(p: Proposal, s: Snapshot, code: Code, elapsed: nat, ledger: Ledger): Decision {
    var calls := Min(ModelCalls(p), s.budget.calls);
    var retries := Min(Max(ModelCalls(p) - 1, 0), s.budget.retries);
    match Consume(s.budget, 0, calls, retries, elapsed, 0)
    case None => Aborted(NegativeBudget)
    case Some((after, consumed)) =>
      Record(Event(p, Rejected, s.state, s.state, ProposalRejected(code), None, s.budget, after, consumed), ledger)
  }

  /** The event enters the trace and its budget the ledger. */
  function Record(e: Event, ledger: Ledger): Decision {
    match Checkpoint(ledger, e.after)
    case None => Aborted(LedgerRefused)
    case Some(l) => Decided(e, l)
  }

  /** The receipt the coordinator keeps, and whether the run is quarantined for it. */
  function Settle(tool: Tool, late: bool): (Receipt, bool) {
    if late then (Receipt(Some(Capability), ToolTimeExhausted), true)
    else
      match tool
      case Returned(r) => (r, false)
      case ToolTimedOut => (Receipt(Some(Capability), ToolTimeExhausted), true)
      case ExternalResultUnknown => (Receipt(Some(ExecutionFailed), ToolResultUnknown), true)
      case UnreadableReceipt => (Receipt(Some(ExecutionFailed), ToolExecutionFailed), true)
      case ToolFault(code) => (Receipt(Some(code), ToolRejected(code)), false)
      case ToolRaised => (Receipt(Some(ExecutionFailed), ToolExecutionFailed), false)
  }

  /** Whether the deadline passed before or after an answer that is otherwise kept. */
  predicate Late(b: Budget, x: Surroundings) {
    || OutOfTime(b, Reading(x.clock, 2))
    || (x.tool.Returned? && OutOfTime(b, Reading(x.clock, 3)))
  }

  const INVALID_RECEIPT := Receipt(Some(ExecutionFailed), InvalidToolReceipt)

  function Execute(c: Config, p: Proposal, initial: Snapshot, a: AllowedAction, retries: int,
                   x: Surroundings, ledger: Ledger): Decision
  {
    var (answer, doubtful) := Settle(x.tool, Late(initial.budget, x));
    if !(x.third.run == c.run && ValidSnapshot(x.third)) then Aborted(SnapshotRefused)
    else
      var kept := x.evidenceCurrent && x.receiptFits;
      var receipt := if kept then answer else INVALID_RECEIPT;
      var l := ledger.(quarantined := ledger.quarantined || doubtful || !kept);
      match Consume(initial.budget, a.cost.steps, ModelCalls(p), retries, Reading(x.clock, 4), 0)
      case None => Aborted(NegativeBudget)
      case Some((after, consumed)) =>
        Record(Event(p, if receipt.problem.None? then Executed else FailedTool, initial.state, x.third.state,
                     receipt.reason, receipt.problem, initial.budget, after, consumed), l)
  }

  /** From a chosen proposal on: re-admission, the retry check, then the tool. */
  function AdmitAndExecute(c: Config, p: Proposal, initial: Snapshot, retryCharge: nat,
                           x: Surroundings, ledger: Ledger): Decision
    requires ValidRegistry(c.rules)
  {
    match Current(c, x.second, initial.budget)
    case None => Aborted(SnapshotRefused)
    case Some(execution) =>
      match Derive(execution, c.rules, c.policyKind, c.policyVersion)
      case None => Aborted(PolicyRefused)
      case Some(allowed) =>
        if OutOfTime(initial.budget, Reading(x.clock, 1)) then
          Reject(p, initial, Capability, Reading(x.clock, 4), ledger)
        else
          Judge(c, p, initial, Admit(p, c.selector, c.executor, execution, allowed), retryCharge, x, ledger)
  }

  /** The checks after admission: the source is still the registered one, retries suffice. */
  function Judge(c: Config, p: Proposal, initial: Snapshot, admission: Result<AllowedAction, Code>, retryCharge: nat,
                 x: Surroundings, ledger: Ledger): Decision
  {
    match admission
    case Err(code) => Reject(p, initial, code, Reading(x.clock, 4), ledger)
    case Ok(a) =>
      var retries := a.cost.retries + ProviderRetries(p) + retryCharge;
      if SourceAction(p.action) && !x.sourceCurrent then
        Reject(p, initial, Unauthorized, Reading(x.clock, 4), ledger)
      else if initial.budget.retries < retries then
        Reject(p, initial, Capability, Reading(x.clock, 4), ledger)
      else
        Execute(c, p, initial, a, retries, x, ledger)
  }

  /** `decide_reserved` around `_decide_once`. */
  function Decide(c: Config, budget: Budget, retryCharge: nat, x: Surroundings, ledger: Ledger): Decision
    requires ValidRegistry(c.rules)
  {
    match Checkpoint(ledger, budget)
    case None => Aborted(LedgerRefused)
    case Some(l) =>
      match Current(c, x.first, budget)
      case None => Aborted(SnapshotRefused)
      case Some(initial) =>
        match Derive(initial, c.rules, c.policyKind, c.policyVersion)
        case None => Aborted(PolicyRefused)
        case Some(_) =>
          if exists q :: q in c.evidence && !Cites(initial.revision.documents, q) then Aborted(SelectorInputRefused)
          else Select(c, initial, retryCharge, x, l)
  }

  /** From the selector's answer on. */
  function Select(c: Config, initial: Snapshot, retryCharge: nat, x: Surroundings, l: Ledger): Decision
    requires ValidRegistry(c.rules)
  {
    var doubtful := l.(quarantined := true);
    var now := Reading(x.clock, 4);
    if l.quarantined then RecordFailure(initial.budget, InFlight, 0, 0, true, now, doubtful)
    else if OutOfTime(initial.budget, Reading(x.clock, 0)) then
      RecordFailure(initial.budget, Timeout, 0, 0, true, now, doubtful)
    else
      match x.selection
      case TimedOut =>
        RecordFailure(initial.budget, Timeout, 0, 0, c.selector.kind == SystemActor, now, doubtful)
      case Raised(code, attempts, latency, known) =>
        RecordFailure(initial.budget, code, attempts, latency, known, now,
                      if code in {Timeout, InFlight} then doubtful else l)
      case Chosen(p) =>
        if !ValidProposal(p) then Aborted(SelectorInputRefused)
        else AdmitAndExecute(c, p, initial, retryCharge, x, l)
  }

  // --------------------------------------------------------------- properties

  /** An event or failure that charges exactly what it records, from the run's budget. */
  predicate Accounted(before: Budget, after: Budget, c: Consumption, budget: Budget) {
    before == budget && Charged(before, after, c) && Within(after, before)
  }

  lemma {:induction false} FailureAccounted(b: Budget, code: SelectorCode, attempts: int, latency: int, known: bool,
                         elapsed: nat, ledger: Ledger)
    requires ledger.budget == b
    ensures var d := RecordFailure(b, code, attempts, latency, known, elapsed, ledger);
            && (d.SelectionFailed? || d == Aborted(FailureRecordRefused))
            && (d.SelectionFailed? ==>
                  && Accounted(d.failure.before, d.failure.after, d.failure.consumed, b)
                  && d.failure.consumed.steps == 0
                  && d.failure.code == code
                  && d.ledger == ledger.(budget := d.failure.after))
  {
  }

  lemma {:induction false} RejectionAccounted(p: Proposal, s: Snapshot, code: Code, elapsed: nat, ledger: Ledger)
    requires ledger.budget == s.budget
    ensures var d := Reject(p, s, code, elapsed, ledger);
            && d.Decided?
            && d.event.disposition == Rejected
            && d.event.reason == ProposalRejected(code)
            && d.event.stateAfter == d.event.stateBefore
            && d.event.consumed.steps == 0
            && Accounted(d.event.before, d.event.after, d.event.consumed, s.budget)
            && d.ledger == ledger.(budget := d.event.after)
  {
  }

  /** What is known of every decision, whatever its surroundings. */
  predicate DecisionOk(d: Decision, c: Config, budget: Budget, retryCharge: nat, ledger: Ledger) {
    match d
    case Aborted(reason) => reason !in {NegativeBudget, LedgerRefused, ResultRefused}
    case SelectionFailed(f, l) =>
      && Accounted(f.before, f.after, f.consumed, budget)
      && f.consumed.steps == 0
      && l.budget == f.after
      && (ledger.quarantined ==> f.code == InFlight)
      && (f.code in {Timeout, InFlight} <==> l.quarantined)
    case Decided(e, l) =>
      && Accounted(e.before, e.after, e.consumed, budget)
      && l.budget == e.after
      && !ledger.quarantined
      && (e.disposition == Rejected ==>
            e.consumed.steps == 0 && e.reason.ProposalRejected? && e.stateAfter == e.stateBefore && !l.quarantined)
      && (e.disposition != Rejected ==>
            e.consumed.steps == 1 && e.consumed.retries >= retryCharge && e.proposal.run == c.run)
      && (e.disposition == Executed <==> e.disposition != Rejected && e.problem.None?)
      && (l.quarantined ==> e.disposition == FailedTool)
  }

  lemma {:induction false} ExecutionAccounted(c: Config, p: Proposal, initial: Snapshot, a: AllowedAction, retryCharge: nat,
                           x: Surroundings, ledger: Ledger)
    requires ledger.budget == initial.budget && !ledger.quarantined
    requires Funded(p, initial, a) && a.cost.steps == 1 && a.cost.retries >= 0 && ValidProposal(p) && p.run == c.run
    requires a.cost.retries + ProviderRetries(p) + retryCharge <= initial.budget.retries
    ensures DecisionOk(Execute(c, p, initial, a, a.cost.retries + ProviderRetries(p) + retryCharge, x, ledger),
                       c, initial.budget, retryCharge, ledger)
  {
    ConsumeCharges(initial.budget, 1, ModelCalls(p), a.cost.retries + ProviderRetries(p) + retryCharge,
                   Reading(x.clock, 4), 0);
  }

  lemma {:induction false} RejectionOk(c: Config, p: Proposal, s: Snapshot, code: Code, elapsed: nat, retryCharge: nat, ledger: Ledger)
    requires ledger.budget == s.budget && !ledger.quarantined
    ensures DecisionOk(Reject(p, s, code, elapsed, ledger), c, s.budget, retryCharge, ledger)
  {
    RejectionAccounted(p, s, code, elapsed, ledger);
  }

  lemma {:induction false} AdmittedCost(c: Config, p: Proposal, execution: Snapshot, allowed: AllowedSet)
    requires ValidConfig(c) && Derive(execution, c.rules, c.policyKind, c.policyVersion) == Some(allowed)
    requires Admit(p, c.selector, c.executor, execution, allowed).Ok?
    ensures var a := Admit(p, c.selector, c.executor, execution, allowed).value;
            Funded(p, execution, a) && a.cost.steps == 1 && a.cost.retries >= 0
  {
    AdmittedIsFunded(p, c.selector, c.executor, execution, allowed);
    var k := RuleOf(execution, c.rules, c.policyKind, Admit(p, c.selector, c.executor, execution, allowed).value);
    assert ValidRule(c.rules[k]);
  }

  lemma {:induction false} JudgementAccounted(c: Config, p: Proposal, initial: Snapshot, admission: Result<AllowedAction, Code>,
                           retryCharge: nat, x: Surroundings, ledger: Ledger)
    requires ValidProposal(p) && ledger.budget == initial.budget && !ledger.quarantined
    requires admission.Ok? ==>
               && Funded(p, initial, admission.value)
               && admission.value.cost.steps == 1 && admission.value.cost.retries >= 0
               && p.run == c.run
    ensures DecisionOk(Judge(c, p, initial, admission, retryCharge, x, ledger), c, initial.budget, retryCharge, ledger)
  {
    RejectionOk(c, p, initial, Capability, Reading(x.clock, 4), retryCharge, ledger);
    RejectionOk(c, p, initial, Unauthorized, Reading(x.clock, 4), retryCharge, ledger);
    match admission
    case Err(code) => RejectionOk(c, p, initial, code, Reading(x.clock, 4), retryCharge, ledger);
    case Ok(a) =>
      if a.cost.retries + ProviderRetries(p) + retryCharge <= initial.budget.retries {
        ExecutionAccounted(c, p, initial, a, retryCharge, x, ledger);
      }
  }

  lemma {:induction false} AdmissionAccounted(c: Config, p: Proposal, initial: Snapshot, retryCharge: nat, x: Surroundings, ledger: Ledger)
    requires ValidConfig(c) && ValidProposal(p)
    requires ledger.budget == initial.budget && !ledger.quarantined
    ensures DecisionOk(AdmitAndExecute(c, p, initial, retryCharge, x, ledger), c, initial.budget, retryCharge, ledger)
  {
    RejectionOk(c, p, initial, Capability, Reading(x.clock, 4), retryCharge, ledger);
    var execution := Current(c, x.second, initial.budget);
    if execution.Some? && Derive(execution.value, c.rules, c.policyKind, c.policyVersion).Some? {
      var allowed := Derive(execution.value, c.rules, c.policyKind, c.policyVersion).value;
      var admission := Admit(p, c.selector, c.executor, execution.value, allowed);
      if admission.Ok? {
        AdmittedCost(c, p, execution.value, allowed);
      }
      JudgementAccounted(c, p, initial, admission, retryCharge, x, ledger);
    }
  }

  lemma {:induction false} SelectionAccounted(c: Config, initial: Snapshot, retryCharge: nat, x: Surroundings, l: Ledger)
    requires ValidConfig(c) && l.budget == initial.budget
    ensures DecisionOk(Select(c, initial, retryCharge, x, l), c, initial.budget, retryCharge, l)
  {
    var doubtful, now := l.(quarantined := true), Reading(x.clock, 4);
    if l.quarantined {
      FailureAccounted(initial.budget, InFlight, 0, 0, true, now, doubtful);
    } else if OutOfTime(initial.budget, Reading(x.clock, 0)) {
      FailureAccounted(initial.budget, Timeout, 0, 0, true, now, doubtful);
    } else {
      match x.selection
      case TimedOut =>
        FailureAccounted(initial.budget, Timeout, 0, 0, c.selector.kind == SystemActor, now, doubtful);
      case Raised(code, attempts, latency, known) =>
        FailureAccounted(initial.budget, code, attempts, latency, known, now,
                         if code in {Timeout, InFlight} then doubtful else l);
      case Chosen(p) =>
        if ValidProposal(p) {
          AdmissionAccounted(c, p, initial, retryCharge, x, l);
        }
    }
  }

  /**
   No decision underflows a budget or is refused by the ledger; every event and failure
   charges exactly what it records; only a tool that ran spends a step.
   */
  lemma {:induction false} EveryDecisionAccounted(c: Config, budget: Budget, retryCharge: nat, x: Surroundings, ledger: Ledger)
    requires ValidConfig(c) && Within(budget, ledger.budget)
    ensures DecisionOk(Decide(c, budget, retryCharge, x, ledger), c, budget, retryCharge, ledger)
  {
    if Current(c, x.first, budget).Some? {
      SelectionAccounted(c, Current(c, x.first, budget).value, retryCharge, x, ledger.(budget := budget));
    }
  }

  /** A provider failure can only come from the selector itself. */
  lemma {:induction false} ProviderFailureIsRaised(c: Config, budget: Budget, retryCharge: nat, x: Surroundings, ledger: Ledger)
    requires ValidConfig(c) && Within(budget, ledger.budget)
    requires Decide(c, budget, retryCharge, x, ledger).SelectionFailed?
    requires Decide(c, budget, retryCharge, x, ledger).failure.code !in {Timeout, InFlight}
    ensures x.selection.Raised? && x.selection.code == Decide(c, budget, retryCharge, x, ledger).failure.code
  {
    var initial := Current(c, x.first, budget).value;
    var l := ledger.(budget := budget);
    assert Decide(c, budget, retryCharge, x, ledger) == Select(c, initial, retryCharge, x, l);
    if x.selection.Chosen? && !l.quarantined && !OutOfTime(budget, Reading(x.clock, 0)) && ValidProposal(x.selection.proposal) {
      ChosenNeverFailsSelection(c, x.selection.proposal, initial, retryCharge, x, l);
    }
  }

  lemma {:induction false} JudgementNeverFailsSelection(c: Config, p: Proposal, initial: Snapshot,
                                                        admission: Result<AllowedAction, Code>, retryCharge: nat,
                                                        x: Surroundings, l: Ledger)
    ensures !Judge(c, p, initial, admission, retryCharge, x, l).SelectionFailed?
    ensures !Reject(p, initial, Capability, Reading(x.clock, 4), l).SelectionFailed?
  {
  }

  lemma {:induction false} ChosenNeverFailsSelection(c: Config, p: Proposal, initial: Snapshot, retryCharge: nat,
                                                     x: Surroundings, l: Ledger)
    requires ValidConfig(c)
    ensures !AdmitAndExecute(c, p, initial, retryCharge, x, l).SelectionFailed?
  {
    var execution := Current(c, x.second, initial.budget);
    if execution.Some? && Derive(execution.value, c.rules, c.policyKind, c.policyVersion).Some? {
      var allowed := Derive(execution.value, c.rules, c.policyKind, c.policyVersion).value;
      var admission := Admit(p, c.selector, c.executor, execution.value, allowed);
      JudgementNeverFailsSelection(c, p, initial, admission, retryCharge, x, l);
    }
  }
}
