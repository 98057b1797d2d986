/**
 When a controlled decision does what (`application/action_policy.py`, `application/service_guards.py`,
 `application/controlled_workflow.py`): each answer of admission and of a decision, with the
 condition on rules, budget, clock and surroundings under which it is given.
 */
module DecisionMeaning {
  import opened Common
  import opened ActionPolicy
  import opened ControlledWorkflow

  // --------------------------------------------------------------------------- offering

  /** The rule is open in this snapshot, and the budget pays for it. */
  ghost predicate Open(s: Snapshot, r: Rule, kind: ActorKind) {
    && s.state in r.states
    && (forall p :: p in r.prerequisites ==> p in s.prerequisites)
    && (r.requiresBlockers ==> |s.blockers| > 0)
    && s.budget.steps > 0
    && (kind == ModelActor ==> s.budget.calls > 0)
    && r.retryCost <= s.budget.retries
    && (s.budget.time.Some? ==> s.budget.time.value > 0)
    && (|r.purposes| > 0 ==> exists d :: d in s.revision.documents && d.purpose in r.purposes)
  }

  /** What is offered for an open rule. */
  ghost predicate IsOffer(s: Snapshot, r: Rule, kind: ActorKind, a: AllowedAction) {
    && (a.id, a.action, a.states, a.prerequisites) == (r.id, r.action, r.states, r.prerequisites)
    && (forall p :: p in a.purposes <==> p in r.purposes && exists d :: d in s.revision.documents && d.purpose == p)
    && (a.revision, a.rules) == (s.revision.reference, s.revision.rules)
    && (a.proposerKind, a.executorKind) == (kind, SystemActor)
    && a.cost == Cost(1, if kind == ModelActor then 1 else 0, r.retryCost)
  }

  lemma {:induction false} OpenExactly(s: Snapshot, r: Rule, kind: ActorKind)
    ensures Applies(s, r, kind) <==> Open(s, r, kind)
    ensures IsOffer(s, r, kind, ActionOf(s, r, kind))
  {
    var available := AvailablePurposes(r.purposes, s.revision.documents);
    if available != [] {
      assert available[0] in available;
    }
  }

  ghost predicate OfferedBy(s: Snapshot, rules: seq<Rule>, kind: ActorKind, a: AllowedAction, k: int) {
    0 <= k < |rules| && Open(s, rules[k], kind) && IsOffer(s, rules[k], kind, a)
  }

  /** The offers of a derivation are those of its open rules: each comes from one, and each has one. */
  lemma {:induction false} OffersExactly(s: Snapshot, rules: seq<Rule>, kind: ActorKind, version: nat)
    requires ValidRegistry(rules) && Derive(s, rules, kind, version).Some?
    ensures
      var actions := Derive(s, rules, kind, version).value.actions;
      && (forall a :: a in actions ==> exists k :: OfferedBy(s, rules, kind, a, k))
      && (forall k :: 0 <= k < |rules| && Open(s, rules[k], kind) ==> exists a :: a in actions && OfferedBy(s, rules, kind, a, k))
  {
    var actions := Derive(s, rules, kind, version).value.actions;
    forall a | a in actions ensures exists k :: OfferedBy(s, rules, kind, a, k) {
      var k := RuleOf(s, rules, kind, a);
      OpenExactly(s, rules[k], kind);
      assert OfferedBy(s, rules, kind, a, k);
    }
    forall k | 0 <= k < |rules| && Open(s, rules[k], kind) ensures exists a :: a in actions && OfferedBy(s, rules, kind, a, k) {
      OpenExactly(s, rules[k], kind);
      ActionIsDerived(s, rules, kind, k);
      assert OfferedBy(s, rules, kind, ActionOf(s, rules[k], kind), k);
    }
  }

  // -------------------------------------------------------------------------- admission

  ghost predicate BoundTo(p: Proposal, s: Snapshot, version: nat) {
    p.run == s.run && p.snapshot == s && p.policyVersion == version
  }

  /** The proposal names this rule, which is open. */
  ghost predicate NamesRule(p: Proposal, s: Snapshot, r: Rule, kind: ActorKind) {
    r.id == p.actionId && r.action == p.action && Open(s, r, kind)
  }

  /** The budget pays for the attempts the proposal already took. */
  ghost predicate Afforded(p: Proposal, s: Snapshot, r: Rule) {
    p.attempts.Some? ==> p.attempts.value <= s.budget.calls && r.retryCost + p.attempts.value - 1 <= s.budget.retries
  }

  ghost predicate ArgumentsFit(p: Proposal, s: Snapshot, r: Rule) {
    match p.arguments
    case SourceArguments(d) => d in s.revision.documents && d.purpose in r.purposes
    case ReviewArguments(revision, rules) => revision == s.revision.reference && rules == s.revision.rules
    case HumanArguments(reason, subjects, evidence) =>
      exists i :: OnlyBlocker(s.blockers, i, reason, subjects) &&
        forall q :: q in evidence ==>
          q in s.blockers[i].evidence &&
          exists d :: d in s.revision.documents && (d.id, d.version, d.hash) == (q.documentId, q.version, q.hash)
  }

  ghost predicate RuleNamed(p: Proposal, s: Snapshot, rules: seq<Rule>, kind: ActorKind, k: int) {
    0 <= k < |rules| && NamesRule(p, s, rules[k], kind)
  }

  lemma {:induction false} MatchingIsOnly(blockers: seq<Blocker>, i: int, reason: nat, subjects: seq<nat>)
    requires OnlyBlocker(blockers, i, reason, subjects)
    ensures Matching(blockers, reason, subjects) == [blockers[i]]
  {
    var tail := blockers[1..];
    forall j | 0 <= j < |tail| ensures tail[j] == blockers[j + 1] {
    }
    if i > 0 {
      assert OnlyBlocker(tail, i - 1, reason, subjects);
      MatchingIsOnly(tail, i - 1, reason, subjects);
    } else {
      NoMatch(tail, reason, subjects);
    }
  }

  lemma {:induction false} NoMatch(blockers: seq<Blocker>, reason: nat, subjects: seq<nat>)
    requires forall j :: 0 <= j < |blockers| ==> !Names(blockers[j], reason, subjects)
    ensures Matching(blockers, reason, subjects) == []
  {
    if blockers != [] {
      var tail := blockers[1..];
      forall j | 0 <= j < |tail| ensures !Names(tail[j], reason, subjects) {
        assert tail[j] == blockers[j + 1];
      }
      NoMatch(tail, reason, subjects);
    }
  }

  lemma {:induction false} ArgumentsExactly(p: Proposal, s: Snapshot, r: Rule, kind: ActorKind)
    ensures ArgumentsAllowed(p, s, ActionOf(s, r, kind)) <==> ArgumentsFit(p, s, r)
  {
    if p.arguments.HumanArguments? {
      var reason, subjects := p.arguments.reason, p.arguments.subjects;
      MatchingExactly(s.blockers, reason, subjects);
      if |Matching(s.blockers, reason, subjects)| == 1 {
        var i :| OnlyBlocker(s.blockers, i, reason, subjects) && Matching(s.blockers, reason, subjects)[0] == s.blockers[i];
        HumanExactly(p, s, i);
      } else if exists i :: OnlyBlocker(s.blockers, i, reason, subjects) {
        var i :| OnlyBlocker(s.blockers, i, reason, subjects);
        MatchingIsOnly(s.blockers, i, reason, subjects);
      }
    }
  }

  lemma {:induction false} HumanExactly(p: Proposal, s: Snapshot, i: int)
    requires p.arguments.HumanArguments? && OnlyBlocker(s.blockers, i, p.arguments.reason, p.arguments.subjects)
    ensures (exists j :: OnlyBlocker(s.blockers, j, p.arguments.reason, p.arguments.subjects) &&
              forall q :: q in p.arguments.evidence ==>
                q in s.blockers[j].evidence &&
                exists d :: d in s.revision.documents && (d.id, d.version, d.hash) == (q.documentId, q.version, q.hash))
       <==> (forall q :: q in p.arguments.evidence ==> Cites(s.revision.documents, q) && q in s.blockers[i].evidence)
  {
  }

  lemma {:induction false} SelectedExactly(s: Snapshot, rules: seq<Rule>, kind: ActorKind, version: nat, p: Proposal, k: int)
    requires ValidRegistry(rules) && Derive(s, rules, kind, version).Some? && RuleNamed(p, s, rules, kind, k)
    ensures Selected(Derive(s, rules, kind, version).value.actions, p) == [ActionOf(s, rules[k], kind)]
  {
    OpenExactly(s, rules[k], kind);
    ActionIsDerived(s, rules, kind, k);
    SelectedUnique(Derive(s, rules, kind, version).value.actions, p, ActionOf(s, rules[k], kind));
  }

  lemma {:induction false} NothingSelected(s: Snapshot, rules: seq<Rule>, kind: ActorKind, version: nat, p: Proposal)
    requires ValidRegistry(rules) && Derive(s, rules, kind, version).Some?
    requires forall k :: !RuleNamed(p, s, rules, kind, k)
    ensures Selected(Derive(s, rules, kind, version).value.actions, p) == []
  {
    var actions := Derive(s, rules, kind, version).value.actions;
    forall a | a in actions ensures !Selects(p, a) {
      var k := RuleOf(s, rules, kind, a);
      OpenExactly(s, rules[k], kind);
      assert !RuleNamed(p, s, rules, kind, k);
    }
  }

  /** Admission out of a derived set: what is admitted, and every reason to refuse. */
  ghost predicate AdmissionIs(
    s: Snapshot, rules: seq<Rule>, kind: ActorKind, version: nat, proposer: Actor, executor: Actor, p: Proposal, r: Result<AllowedAction, Code>)
  {
    if p.proposer != proposer then r == Err(Unauthorized)
    else if !BoundTo(p, s, version) then r == Err(VersionConflict)
    else if kind != proposer.kind || executor.kind != SystemActor then r == Err(Unauthorized)
    else if forall k :: !RuleNamed(p, s, rules, kind, k) then r == Err(Unauthorized)
    else
      exists k :: RuleNamed(p, s, rules, kind, k) &&
        if !Afforded(p, s, rules[k]) then r == Err(Capability)
        else if !ArgumentsFit(p, s, rules[k]) then r == Err(Unauthorized)
        else r.Ok? && IsOffer(s, rules[k], kind, r.value)
  }

  /** A proposal is admitted exactly if its proposer made it, it is bound to this snapshot and policy, an
      open rule has its identifier and kind, the budget pays for its attempts and its arguments fit. */
  lemma {:induction false} AdmissionExactly(
    s: Snapshot, rules: seq<Rule>, kind: ActorKind, version: nat, proposer: Actor, executor: Actor, p: Proposal)
    requires ValidRegistry(rules) && Derive(s, rules, kind, version).Some? && ValidProposal(p)
    ensures AdmissionIs(s, rules, kind, version, proposer, executor, p,
                        Admit(p, proposer, executor, s, Derive(s, rules, kind, version).value))
  {
    if exists k :: RuleNamed(p, s, rules, kind, k) {
      var k :| RuleNamed(p, s, rules, kind, k);
      NamedAdmission(s, rules, kind, version, proposer, executor, p, k);
    } else {
      NothingSelected(s, rules, kind, version, p);
    }
  }

  lemma {:induction false} NamedAdmission(
    s: Snapshot, rules: seq<Rule>, kind: ActorKind, version: nat, proposer: Actor, executor: Actor, p: Proposal, k: int)
    requires ValidRegistry(rules) && Derive(s, rules, kind, version).Some? && ValidProposal(p) && RuleNamed(p, s, rules, kind, k)
    ensures AdmissionIs(s, rules, kind, version, proposer, executor, p,
                        Admit(p, proposer, executor, s, Derive(s, rules, kind, version).value))
  {
    NamedOutcome(s, rules, kind, version, proposer, executor, p, k);
    OpenExactly(s, rules[k], kind);
    ArgumentsExactly(p, s, rules[k], kind);
  }

  lemma {:induction false} NamedOutcome(
    s: Snapshot, rules: seq<Rule>, kind: ActorKind, version: nat, proposer: Actor, executor: Actor, p: Proposal, k: int)
    requires ValidRegistry(rules) && Derive(s, rules, kind, version).Some? && ValidProposal(p) && RuleNamed(p, s, rules, kind, k)
    ensures Admit(p, proposer, executor, s, Derive(s, rules, kind, version).value) ==
      if p.proposer != proposer then Err(Unauthorized)
      else if !BoundTo(p, s, version) then Err(VersionConflict)
      else if kind != proposer.kind || executor.kind != SystemActor then Err(Unauthorized)
      else if !Afforded(p, s, rules[k]) then Err(Capability)
      else if !ArgumentsAllowed(p, s, ActionOf(s, rules[k], kind)) then Err(Unauthorized)
      else Ok(ActionOf(s, rules[k], kind))
  {
    SelectedExactly(s, rules, kind, version, p, k);
  }

  // -------------------------------------------------------------------------- decisions

  ghost predicate NoMoreThan(b: Budget, limit: Budget) {
    && b.steps <= limit.steps && b.calls <= limit.calls && b.retries <= limit.retries
    && match (b.time, limit.time)
       case (None, None) => true
       case (Some(left), Some(most)) => left <= most
       case _ => false
  }

  /** The provider's snapshot is of this run, valid, and does not grant less than the run holds. */
  ghost predicate Readable(c: Config, provided: Snapshot, b: Budget) {
    provided.run == c.run && ValidSnapshot(provided) && NoMoreThan(b, provided.budget)
  }

  ghost function With(provided: Snapshot, b: Budget): Snapshot {
    provided.(budget := b)
  }

  ghost predicate Offering(c: Config, s: Snapshot)
    requires ValidRegistry(c.rules)
  {
    Derive(s, c.rules, c.policyKind, c.policyVersion).Some?
  }

  /** The deadline had not passed at reading `i` of the clock. */
  ghost predicate InTime(b: Budget, x: Surroundings, i: nat) {
    b.time.Some? ==> Reading(x.clock, i) < b.time.value
  }

  ghost predicate Cited(c: Config, s: Snapshot) {
    forall q :: q in c.evidence ==>
      exists d :: d in s.revision.documents && (d.id, d.version, d.hash) == (q.documentId, q.version, q.hash)
  }

  /** The first snapshot is accepted and something can be put to the selector. */
  ghost predicate Starts(c: Config, b: Budget, x: Surroundings)
    requires ValidRegistry(c.rules)
  {
    Readable(c, x.first, b) && Offering(c, With(x.first, b)) && Cited(c, x.first)
  }

  ghost predicate Consults(c: Config, b: Budget, x: Surroundings, ledger: Ledger)
    requires ValidRegistry(c.rules)
  {
    Starts(c, b, x) && !ledger.quarantined && InTime(b, x, 0)
  }

  ghost predicate Proposed(c: Config, b: Budget, x: Surroundings, ledger: Ledger)
    requires ValidRegistry(c.rules)
  {
    Consults(c, b, x, ledger) && x.selection.Chosen? && ValidProposal(x.selection.proposal)
  }

  /** A proposal meets a second snapshot, in which policy is derived anew. */
  ghost predicate Judged(c: Config, b: Budget, x: Surroundings, ledger: Ledger)
    requires ValidRegistry(c.rules)
  {
    Proposed(c, b, x, ledger) && Readable(c, x.second, b) && Offering(c, With(x.second, b))
  }

  ghost function Admission(c: Config, b: Budget, x: Surroundings): Result<AllowedAction, Code>
    requires ValidRegistry(c.rules) && x.selection.Chosen? && Offering(c, With(x.second, b))
  {
    Admit(x.selection.proposal, c.selector, c.executor, With(x.second, b),
          Derive(With(x.second, b), c.rules, c.policyKind, c.policyVersion).value)
  }

  /** The attempts a proposal took, where they are charged. */
  ghost function Taken(p: Proposal): nat {
    if p.proposer.kind == ModelActor && p.attempts.Some? then p.attempts.value else 0
  }

  /** The retries a call spends: the rule's, the provider's and the runner's. */
  ghost function Retried(c: Config, b: Budget, retryCharge: nat, x: Surroundings): int
    requires ValidRegistry(c.rules) && x.selection.Chosen? && Offering(c, With(x.second, b)) && Admission(c, b, x).Ok?
  {
    var n := Taken(x.selection.proposal);
    Admission(c, b, x).value.cost.retries + (if n > 0 then n - 1 else 0) + retryCharge
  }

  /** The tool is called: in time, admitted, its source the registered one, its retries paid for. */
  ghost predicate Called(c: Config, b: Budget, retryCharge: nat, x: Surroundings)
    requires ValidRegistry(c.rules) && x.selection.Chosen? && Offering(c, With(x.second, b))
  {
    var p := x.selection.proposal;
    && InTime(b, x, 1)
    && Admission(c, b, x).Ok?
    && (p.action in {Extract, InspectReference} ==> x.sourceCurrent)
    && Retried(c, b, retryCharge, x) <= b.retries
  }

  ghost predicate Finishes(c: Config, x: Surroundings) {
    x.third.run == c.run && ValidSnapshot(x.third)
  }

  /** The charge, spelled out: `after` is what is left, `spent` what the record says. */
  ghost predicate Charges(b: Budget, after: Budget, spent: Consumption, steps: int, calls: int, retries: int, elapsed: int) {
    && (spent.steps, spent.calls, spent.retries) == (steps, calls, retries)
    && (after.steps, after.calls, after.retries) == (b.steps - steps, b.calls - calls, b.retries - retries)
    && match b.time
       case None => after.time.None? && spent.elapsed.None?
       case Some(left) =>
         && spent.elapsed == Some(if elapsed < left then if elapsed < 0 then 0 else elapsed else left)
         && after.time == Some(left - spent.elapsed.value)
  }

  ghost function AtMost(n: int, limit: nat): int {
    if n < 0 then 0 else if n < limit then n else limit
  }

  /** How a selection fails. */
  ghost predicate FailsAs(c: Config, b: Budget, x: Surroundings, ledger: Ledger, f: Failure) {
    var end := Reading(x.clock, 4);
    && f.before == b
    && if ledger.quarantined then f.code == InFlight && Charges(b, f.after, f.consumed, 0, 0, 0, end)
       else if !InTime(b, x, 0) then f.code == Timeout && Charges(b, f.after, f.consumed, 0, 0, 0, end)
       else
         match x.selection
         case TimedOut =>
           f.code == Timeout && Charges(b, f.after, f.consumed, 0, if c.selector.kind == SystemActor then 0 else b.calls, 0, end)
         case Raised(code, attempts, latency, known) =>
           && f.code == code
           && Charges(b, f.after, f.consumed, 0, if known then AtMost(attempts, b.calls) else b.calls,
                      AtMost(attempts - 1, b.retries), if latency > end then latency else end)
         case Chosen(_) => false
  }

  lemma {:induction false} ReadableExactly(c: Config, provided: Snapshot, b: Budget)
    ensures Current(c, provided, b) == if Readable(c, provided, b) then Some(With(provided, b)) else None
  {
  }

  lemma {:induction false} ConsumedAs(b: Budget, steps: int, calls: int, retries: int, elapsed: nat, minimum: int)
    requires 0 <= steps <= b.steps && 0 <= calls <= b.calls && 0 <= retries <= b.retries
    ensures
      var r := Consume(b, steps, calls, retries, elapsed, minimum);
      && r.Some? && NoMoreThan(r.value.0, b)
      && Charges(b, r.value.0, r.value.1, steps, calls, retries, if minimum > elapsed then minimum else elapsed)
  {
  }

  lemma {:induction false} FailureRecorded(b: Budget, code: SelectorCode, attempts: int, latency: int, known: bool, end: nat, l: Ledger)
    requires l.budget == b && (known ==> attempts >= 0)
    ensures
      var d := RecordFailure(b, code, attempts, latency, known, end, l);
      && d.SelectionFailed? && d.ledger == l.(budget := d.failure.after)
      && d.failure.code == code && d.failure.before == b
      && Charges(b, d.failure.after, d.failure.consumed, 0, if known then AtMost(attempts, b.calls) else b.calls,
                 AtMost(attempts - 1, b.retries), if latency > end then latency else end)
  {
    var calls, retries := if known then AtMost(attempts, b.calls) else b.calls, AtMost(attempts - 1, b.retries);
    ConsumedAs(b, 0, calls, retries, end, latency);
    assert calls == Min(Max(if known then attempts else b.calls, 0), b.calls);
    assert retries == Min(Max(attempts - 1, 0), b.retries);
  }

  /** An answer that is recorded as rejected: why, and that it moves nothing and spends no step. */
  ghost predicate RejectedAs(b: Budget, x: Surroundings, code: Code, d: Decision)
    requires x.selection.Chosen?
  {
    var n := Taken(x.selection.proposal);
    && d.Decided? && d.event.disposition == Rejected
    && d.event.reason == ProposalRejected(code) && d.event.problem.None?
    && d.event.proposal == x.selection.proposal
    && d.event.stateBefore == d.event.stateAfter == x.first.state
    && d.event.before == b
    && Charges(b, d.event.after, d.event.consumed, 0, AtMost(n, b.calls), AtMost(n - 1, b.retries), Reading(x.clock, 4))
    && d.ledger == Ledger(d.event.after, false)
  }

  /** Why a judged proposal does not reach the tool. */
  ghost function RejectionCode(c: Config, b: Budget, x: Surroundings): Code
    requires ValidRegistry(c.rules) && x.selection.Chosen? && Offering(c, With(x.second, b))
  {
    if !InTime(b, x, 1) then Capability
    else if Admission(c, b, x).Err? then Admission(c, b, x).error
    else if x.selection.proposal.action in {Extract, InspectReference} && !x.sourceCurrent then Unauthorized
    else Capability
  }

  /** The tool's answer counts: it came in time and fits what is current. */
  ghost predicate Kept(x: Surroundings) {
    x.evidenceCurrent && x.receiptFits
  }

  ghost predicate TooLate(b: Budget, x: Surroundings) {
    || x.tool == ToolTimedOut || !InTime(b, x, 2)
    || (x.tool.Returned? && !InTime(b, x, 3))
  }

  /** What the record says of a tool that was called. */
  ghost predicate ToolEnds(b: Budget, x: Surroundings, disposition: Disposition, reason: Reason, problem: Option<Code>) {
    && (disposition == if problem.None? then Executed else FailedTool)
    && if !Kept(x) then (reason, problem) == (InvalidToolReceipt, Some(ExecutionFailed))
       else if TooLate(b, x) then (reason, problem) == (ToolTimeExhausted, Some(Capability))
       else
         match x.tool
         case Returned(r) => (reason, problem) == (r.reason, r.problem)
         case ExternalResultUnknown => (reason, problem) == (ToolResultUnknown, Some(ExecutionFailed))
         case ToolFault(code) => (reason, problem) == (ToolRejected(code), Some(code))
         case _ => (reason, problem) == (ToolExecutionFailed, Some(ExecutionFailed))
  }

  /** Nobody knows what the tool did, so the run must not go on by itself. */
  ghost predicate Doubtful(b: Budget, x: Surroundings) {
    !Kept(x) || TooLate(b, x) || x.tool in {ExternalResultUnknown, UnreadableReceipt}
  }

  ghost predicate RanAs(c: Config, b: Budget, retryCharge: nat, x: Surroundings, d: Decision)
    requires ValidRegistry(c.rules) && x.selection.Chosen? && Offering(c, With(x.second, b)) && Called(c, b, retryCharge, x)
  {
    var p := x.selection.proposal;
    && d.Decided? && d.event.proposal == p
    && d.event.stateBefore == x.first.state && d.event.stateAfter == x.third.state
    && ToolEnds(b, x, d.event.disposition, d.event.reason, d.event.problem)
    && d.event.before == b
    && Charges(b, d.event.after, d.event.consumed, 1, Taken(p), Retried(c, b, retryCharge, x), Reading(x.clock, 4))
    && d.ledger == Ledger(d.event.after, Doubtful(b, x))
  }

  lemma {:induction false} RejectionRecorded(p: Proposal, s: Snapshot, code: Code, x: Surroundings, l: Ledger)
    requires x.selection == Chosen(p) && s.state == x.first.state && l == Ledger(s.budget, false)
    ensures RejectedAs(s.budget, x, code, Reject(p, s, code, Reading(x.clock, 4), l))
  {
  }

  lemma {:induction false} SettledAs(b: Budget, x: Surroundings)
    ensures
      var (receipt, doubtful) := Settle(x.tool, Late(b, x));
      && (doubtful <==> TooLate(b, x) || x.tool in {ExternalResultUnknown, UnreadableReceipt})
      && (Kept(x) ==> ToolEnds(b, x, if receipt.problem.None? then Executed else FailedTool, receipt.reason, receipt.problem))
  {
  }

  lemma {:induction false} ExecutedAs(
    c: Config, p: Proposal, initial: Snapshot, a: AllowedAction, retries: int, x: Surroundings, l: Ledger)
    requires initial.state == x.first.state && l == Ledger(initial.budget, false) && Finishes(c, x)
    requires a.cost.steps == 1 && initial.budget.steps >= 1 && Taken(p) <= initial.budget.calls && 0 <= retries <= initial.budget.retries
    ensures
      var d := Execute(c, p, initial, a, retries, x, l);
      && d.Decided? && d.event.proposal == p
      && d.event.stateBefore == x.first.state && d.event.stateAfter == x.third.state
      && ToolEnds(initial.budget, x, d.event.disposition, d.event.reason, d.event.problem)
      && d.event.before == initial.budget
      && Charges(initial.budget, d.event.after, d.event.consumed, 1, Taken(p), retries, Reading(x.clock, 4))
      && d.ledger == Ledger(d.event.after, Doubtful(initial.budget, x))
  {
    SettledAs(initial.budget, x);
  }

  /** From a proposal that is judged to its record, or to a snapshot that is refused. */
  ghost predicate JudgedAs(c: Config, b: Budget, retryCharge: nat, x: Surroundings, d: Decision)
    requires ValidRegistry(c.rules) && x.selection.Chosen? && Offering(c, With(x.second, b))
  {
    if !Called(c, b, retryCharge, x) then RejectedAs(b, x, RejectionCode(c, b, x), d)
    else if !Finishes(c, x) then d == Aborted(SnapshotRefused)
    else RanAs(c, b, retryCharge, x, d)
  }

  lemma {:induction false} NotCalledExactly(c: Config, b: Budget, retryCharge: nat, x: Surroundings, l: Ledger)
    requires ValidConfig(c) && l == Ledger(b, false) && x.selection.Chosen? && ValidProposal(x.selection.proposal)
    requires Offering(c, With(x.second, b)) && !Called(c, b, retryCharge, x) && InTime(b, x, 1)
    ensures
      RejectedAs(b, x, RejectionCode(c, b, x),
                 Judge(c, x.selection.proposal, With(x.first, b), Admission(c, b, x), retryCharge, x, l))
  {
    RejectionRecorded(x.selection.proposal, With(x.first, b), RejectionCode(c, b, x), x, l);
  }

  lemma {:induction false} CalledExactly(c: Config, b: Budget, retryCharge: nat, x: Surroundings, l: Ledger)
    requires ValidConfig(c) && l == Ledger(b, false) && x.selection.Chosen? && ValidProposal(x.selection.proposal)
    requires Offering(c, With(x.second, b)) && Called(c, b, retryCharge, x)
    ensures
      JudgedAs(c, b, retryCharge, x, Judge(c, x.selection.proposal, With(x.first, b), Admission(c, b, x), retryCharge, x, l))
  {
    CalledJudged(c, b, retryCharge, x, l);
    if Finishes(c, x) {
      CalledRuns(c, b, retryCharge, x, l);
    } else {
      Unfinished(c, x.selection.proposal, With(x.first, b), Admission(c, b, x).value, Retried(c, b, retryCharge, x), x, l);
    }
  }

  lemma {:induction false} CalledJudged(c: Config, b: Budget, retryCharge: nat, x: Surroundings, l: Ledger)
    requires ValidConfig(c) && x.selection.Chosen? && ValidProposal(x.selection.proposal)
    requires Offering(c, With(x.second, b)) && Called(c, b, retryCharge, x)
    ensures Judge(c, x.selection.proposal, With(x.first, b), Admission(c, b, x), retryCharge, x, l)
         == Execute(c, x.selection.proposal, With(x.first, b), Admission(c, b, x).value, Retried(c, b, retryCharge, x), x, l)
  {
    var p, admission := x.selection.proposal, Admission(c, b, x);
    var retries := Retried(c, b, retryCharge, x);
    RetriesOf(p);
    assert retries == admission.value.cost.retries + ProviderRetries(p) + retryCharge;
    JudgeCalls(c, p, With(x.first, b), admission, retryCharge, retries, x, l);
  }

  lemma {:induction false} Unfinished(
    c: Config, p: Proposal, initial: Snapshot, a: AllowedAction, retries: int, x: Surroundings, l: Ledger)
    requires !Finishes(c, x)
    ensures Execute(c, p, initial, a, retries, x, l) == Aborted(SnapshotRefused)
  {
  }

  lemma {:induction false} CalledRuns(c: Config, b: Budget, retryCharge: nat, x: Surroundings, l: Ledger)
    requires ValidConfig(c) && l == Ledger(b, false) && x.selection.Chosen? && ValidProposal(x.selection.proposal)
    requires Offering(c, With(x.second, b)) && Called(c, b, retryCharge, x) && Finishes(c, x)
    ensures
      RanAs(c, b, retryCharge, x,
            Execute(c, x.selection.proposal, With(x.first, b), Admission(c, b, x).value, Retried(c, b, retryCharge, x), x, l))
  {
    CalledFits(c, b, retryCharge, x);
    ExecutedAs(c, x.selection.proposal, With(x.first, b), Admission(c, b, x).value, Retried(c, b, retryCharge, x), x, l);
  }

  lemma {:induction false} RetriesOf(p: Proposal)
    requires ValidProposal(p)
    ensures ProviderRetries(p) == if Taken(p) > 0 then Taken(p) - 1 else 0
  {
  }

  lemma {:induction false} JudgeCalls(
    c: Config, p: Proposal, initial: Snapshot, admission: Result<AllowedAction, Code>, retryCharge: nat, retries: int,
    x: Surroundings, l: Ledger)
    requires admission.Ok? && (p.action in {Extract, InspectReference} ==> x.sourceCurrent)
    requires retries == admission.value.cost.retries + ProviderRetries(p) + retryCharge && retries <= initial.budget.retries
    ensures Judge(c, p, initial, admission, retryCharge, x, l) == Execute(c, p, initial, admission.value, retries, x, l)
  {
  }

  /** An admitted call is paid for. */
  lemma {:induction false} CalledFits(c: Config, b: Budget, retryCharge: nat, x: Surroundings)
    requires ValidConfig(c) && x.selection.Chosen? && ValidProposal(x.selection.proposal)
    requires Offering(c, With(x.second, b)) && Called(c, b, retryCharge, x)
    ensures Admission(c, b, x).value.cost.steps == 1 && b.steps >= 1
    ensures Taken(x.selection.proposal) <= b.calls && 0 <= Retried(c, b, retryCharge, x) <= b.retries
  {
    AdmittedCost(c, x.selection.proposal, With(x.second, b), Derive(With(x.second, b), c.rules, c.policyKind, c.policyVersion).value);
  }

  lemma {:induction false} JudgedExactly(c: Config, b: Budget, retryCharge: nat, x: Surroundings, l: Ledger)
    requires ValidConfig(c) && l == Ledger(b, false) && x.selection.Chosen? && ValidProposal(x.selection.proposal)
    requires Readable(c, x.second, b) && Offering(c, With(x.second, b))
    ensures JudgedAs(c, b, retryCharge, x, AdmitAndExecute(c, x.selection.proposal, With(x.first, b), retryCharge, x, l))
  {
    ReadableExactly(c, x.second, b);
    if !InTime(b, x, 1) {
      RejectionRecorded(x.selection.proposal, With(x.first, b), Capability, x, l);
    } else if Called(c, b, retryCharge, x) {
      CalledExactly(c, b, retryCharge, x, l);
    } else {
      NotCalledExactly(c, b, retryCharge, x, l);
    }
  }

  /** Everything a decision can be, and when. */
  ghost predicate DecidedAs(c: Config, b: Budget, retryCharge: nat, x: Surroundings, ledger: Ledger, d: Decision)
    requires ValidRegistry(c.rules)
  {
    if !Readable(c, x.first, b) then d == Aborted(SnapshotRefused)
    else if !Offering(c, With(x.first, b)) then d == Aborted(PolicyRefused)
    else if !Cited(c, x.first) then d == Aborted(SelectorInputRefused)
    else if !Consults(c, b, x, ledger) || !x.selection.Chosen? then
      if Consults(c, b, x, ledger) && x.selection.Raised? && x.selection.attemptsKnown && x.selection.attempts < 0
      then d == Aborted(FailureRecordRefused)
      else
        && d.SelectionFailed? && FailsAs(c, b, x, ledger, d.failure)
        && d.ledger == Ledger(d.failure.after, d.failure.code in {Timeout, InFlight})
    else if !ValidProposal(x.selection.proposal) then d == Aborted(SelectorInputRefused)
    else if !Readable(c, x.second, b) then d == Aborted(SnapshotRefused)
    else if !Offering(c, With(x.second, b)) then d == Aborted(PolicyRefused)
    else JudgedAs(c, b, retryCharge, x, d)
  }

  lemma {:induction false} NotConsulted(c: Config, b: Budget, retryCharge: nat, x: Surroundings, l: Ledger)
    requires ValidConfig(c) && l.budget == b && Starts(c, b, x) && !Consults(c, b, x, l)
    ensures DecidedAs(c, b, retryCharge, x, l, Select(c, With(x.first, b), retryCharge, x, l))
  {
    FailureRecorded(b, if l.quarantined then InFlight else Timeout, 0, 0, true, Reading(x.clock, 4), l.(quarantined := true));
  }

  lemma {:induction false} SelectorFailed(c: Config, b: Budget, retryCharge: nat, x: Surroundings, l: Ledger)
    requires ValidConfig(c) && l.budget == b && Consults(c, b, x, l) && !x.selection.Chosen?
    ensures DecidedAs(c, b, retryCharge, x, l, Select(c, With(x.first, b), retryCharge, x, l))
  {
    var doubtful, end := l.(quarantined := true), Reading(x.clock, 4);
    match x.selection
    case TimedOut => FailureRecorded(b, Timeout, 0, 0, c.selector.kind == SystemActor, end, doubtful);
    case Raised(code, attempts, latency, known) =>
      if known ==> attempts >= 0 {
        FailureRecorded(b, code, attempts, latency, known, end, if code in {Timeout, InFlight} then doubtful else l);
      }
  }

  lemma {:induction false} SelectedAs(c: Config, b: Budget, retryCharge: nat, x: Surroundings, l: Ledger)
    requires ValidConfig(c) && l.budget == b && Starts(c, b, x)
    ensures DecidedAs(c, b, retryCharge, x, l, Select(c, With(x.first, b), retryCharge, x, l))
  {
    if !Consults(c, b, x, l) {
      NotConsulted(c, b, retryCharge, x, l);
    } else if !x.selection.Chosen? {
      SelectorFailed(c, b, retryCharge, x, l);
    } else {
      ReadableExactly(c, x.second, b);
      if Judged(c, b, x, l) {
        JudgedExactly(c, b, retryCharge, x, l);
      }
    }
  }

  /** A decision's outcome, for every configuration, budget and surroundings. */
  lemma {:induction false} DecisionExactly(c: Config, b: Budget, retryCharge: nat, x: Surroundings, ledger: Ledger)
    requires ValidConfig(c) && NoMoreThan(b, ledger.budget)
    ensures DecidedAs(c, b, retryCharge, x, ledger, Decide(c, b, retryCharge, x, ledger))
  {
    ReadableExactly(c, x.first, b);
    if Starts(c, b, x) {
      SelectedAs(c, b, retryCharge, x, ledger.(budget := b));
    }
  }

  /** Rule `k` is the one the proposal names; it is open, affordable and fits the arguments. */
  ghost predicate Justified(p: Proposal, s: Snapshot, rules: seq<Rule>, kind: ActorKind, k: int) {
    RuleNamed(p, s, rules, kind, k) && Afforded(p, s, rules[k]) && ArgumentsFit(p, s, rules[k])
  }

  /** A tool is executed exactly if a valid proposal is judged and called, and its answer counts, in
      time and without a problem; then its action is offered by an open rule of the second snapshot. */
  lemma {:induction false} ExecutedExactly(c: Config, b: Budget, retryCharge: nat, x: Surroundings, ledger: Ledger)
    requires ValidConfig(c) && NoMoreThan(b, ledger.budget)
    ensures
      var d := Decide(c, b, retryCharge, x, ledger);
      d.Decided? && d.event.disposition == Executed <==>
        && Judged(c, b, x, ledger) && Called(c, b, retryCharge, x) && Finishes(c, x)
        && Kept(x) && !TooLate(b, x) && x.tool.Returned? && x.tool.receipt.problem.None?
    ensures
      Judged(c, b, x, ledger) && Called(c, b, retryCharge, x) ==>
        exists k :: Justified(x.selection.proposal, With(x.second, b), c.rules, c.policyKind, k)
  {
    DecisionExactly(c, b, retryCharge, x, ledger);
    if Judged(c, b, x, ledger) && Called(c, b, retryCharge, x) {
      CalledByRule(c, b, x);
    }
  }

  lemma {:induction false} CalledByRule(c: Config, b: Budget, x: Surroundings)
    requires ValidRegistry(c.rules) && x.selection.Chosen? && ValidProposal(x.selection.proposal)
    requires Offering(c, With(x.second, b)) && Admission(c, b, x).Ok?
    ensures exists k :: Justified(x.selection.proposal, With(x.second, b), c.rules, c.policyKind, k)
  {
    var p, s := x.selection.proposal, With(x.second, b);
    AdmissionExactly(s, c.rules, c.policyKind, c.policyVersion, c.selector, c.executor, p);
    var k :| RuleNamed(p, s, c.rules, c.policyKind, k) && Afforded(p, s, c.rules[k]) && ArgumentsFit(p, s, c.rules[k]);
    assert Justified(p, s, c.rules, c.policyKind, k);
  }
}
