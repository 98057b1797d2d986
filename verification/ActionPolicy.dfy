/**
 Trusted action derivation and execution-time admission
 (`application/action_policy.py`, `application/service_guards.py`).

 A digest stands for the value it digests, so a snapshot digest is the snapshot.
 */
module ActionPolicy {
  import opened Common

  datatype Kind = Extract | InspectReference | RequestHuman | DeterministicReview

  datatype State =
    | CriteriaPending
    | FormsPending
    | ExtractionRetryable
    | ReferenceAvailable
    | RulesAwaitingApproval
    | EvidenceNeedsReview
    | MaterialReady
    | ReviewFailed
    | Verified
    | UnsupportedContexts
    | WaitingForHuman

  datatype Prerequisite =
    | CriteriaDocument
    | FormsDocument
    | AuthorizedSource
    | CriteriaParsed
    | FormsParsed
    | ExtractionRetryAvailable
    | ReferenceAvailablePrerequisite
    | RulesAvailable
    | RulesApproved
    | CriticalEvidenceAvailable
    | MaterialComplete

  datatype Purpose = Criteria | Forms | Reference | Brief | Template

  datatype ActorKind = HumanActor | SystemActor | ModelActor

  datatype Actor = Actor(id: nat, kind: ActorKind)

  datatype Document = Document(id: nat, version: nat, hash: nat, purpose: Purpose)

  datatype Citation = Citation(documentId: nat, version: nat, hash: nat, location: nat)

  datatype Blocker = Blocker(id: nat, reason: nat, subjects: seq<nat>, evidence: seq<Citation>)

  datatype Revision = Revision(reference: nat, documents: seq<Document>, rules: seq<nat>, preparation: bool)

  /** Missing time means the run has no time limit. */
  datatype Budget = Budget(steps: nat, calls: nat, retries: nat, time: Option<nat>)

  datatype Snapshot = Snapshot(
    version: nat,
    run: nat,
    revision: Revision,
    state: State,
    prerequisites: seq<Prerequisite>,
    blockers: seq<Blocker>,
    budget: Budget)

  /** The validators of `MaterialRevision` and `WorkflowSnapshot` that the policy relies on. */
  predicate ValidSnapshot(s: Snapshot) {
    && |s.revision.documents| >= 2
    && (forall i, j :: 0 <= i < j < |s.revision.documents| ==>
          s.revision.documents[i].id != s.revision.documents[j].id)
    && (s.revision.preparation <==> s.revision.rules == [])
    && (s.revision.preparation ==>
          && s.state in {CriteriaPending, ExtractionRetryable, ReferenceAvailable}
          && forall p :: p in s.prerequisites ==>
               p in {CriteriaDocument, FormsDocument, AuthorizedSource, ExtractionRetryAvailable,
                     ReferenceAvailablePrerequisite})
    && (forall i, j :: 0 <= i < j < |s.prerequisites| ==> s.prerequisites[i] != s.prerequisites[j])
    && (forall i, j :: 0 <= i < j < |s.blockers| ==> s.blockers[i].id != s.blockers[j].id)
  }

  datatype Rule = Rule(
    id: nat,
    action: Kind,
    states: seq<State>,
    prerequisites: seq<Prerequisite>,
    purposes: seq<Purpose>,
    retryCost: int,
    requiresBlockers: bool)

  predicate SourceAction(k: Kind) {
    k in {Extract, InspectReference}
  }

  predicate Unique<T(==)>(s: seq<T>) {
    forall i, j :: 0 <= i < j < |s| ==> s[i] != s[j]
  }

  predicate ValidRule(r: Rule) {
    && r.states != []
    && Unique(r.states)
    && Unique(r.prerequisites)
    && Unique(r.purposes)
    && r.retryCost >= 0
    && (SourceAction(r.action) <==> r.purposes != [])
    && (r.action == InspectReference ==> forall p :: p in r.purposes ==> p in {Reference, Brief})
    && Template !in r.purposes
  }

  predicate Collide(a: Rule, b: Rule) {
    a.action == b.action && exists s :: s in a.states && s in b.states
  }

  /** What a registry must satisfy, said without the registration loop. */
  predicate ValidRegistry(rules: seq<Rule>) {
    && (forall i, j :: 0 <= i < j < |rules| ==> rules[i].id != rules[j].id)
    && (forall i :: 0 <= i < |rules| ==> ValidRule(rules[i]))
    && (forall i, j :: 0 <= i < j < |rules| ==> !Collide(rules[i], rules[j]))
  }

  /** Adds one rule's registrations; refuses when one of them is already taken. */
  method Register(rule: Rule, before: set<(State, Kind)>) returns (ok: bool, after: set<(State, Kind)>)
    requires Unique(rule.states)
    ensures ok <==> forall s :: s in rule.states ==> (s, rule.action) !in before
    ensures ok ==> after == before + set s | s in rule.states :: (s, rule.action)
  {
    after := before;
    for k := 0 to |rule.states|
      invariant after == before + set s | s in rule.states[..k] :: (s, rule.action)
      invariant forall s :: s in rule.states[..k] ==> (s, rule.action) !in before
    {
      if (rule.states[k], rule.action) in after {
        assert rule.states[k] !in rule.states[..k];
        return false, after;
      }
      after := after + {(rule.states[k], rule.action)};
      assert rule.states[..k + 1] == rule.states[..k] + [rule.states[k]];
    }
    assert rule.states[..|rule.states|] == rule.states;
    ok := true;
  }

  /** The registrations of the first `n` rules. */
  ghost function Registrations(rules: seq<Rule>, n: nat): set<(State, Kind)>
    requires n <= |rules|
  {
    set i, s | 0 <= i < n && s in rules[i].states :: (s, rules[i].action)
  }

  /** `_validate_registry`: the loop accepts exactly the valid registries. */
  method ValidateRegistry(rules: seq<Rule>) returns (ok: bool)
    ensures ok <==> ValidRegistry(rules)
  {
    if exists i, j :: 0 <= i < j < |rules| && rules[i].id == rules[j].id {
      return false;
    }
    var registrations: set<(State, Kind)> := {};
    for n := 0 to |rules|
      invariant registrations == Registrations(rules, n)
      invariant forall i :: 0 <= i < n ==> ValidRule(rules[i])
      invariant forall i, j :: 0 <= i < j < n ==> !Collide(rules[i], rules[j])
    {
      if !ValidRule(rules[n]) {
        return false;
      }
      var fits, more := Register(rules[n], registrations);
      if !fits {
        var s :| s in rules[n].states && (s, rules[n].action) in registrations;
        var i :| 0 <= i < n && s in rules[i].states && rules[i].action == rules[n].action;
        assert Collide(rules[i], rules[n]);
        return false;
      }
      forall i | 0 <= i < n ensures !Collide(rules[i], rules[n]) {
        assert forall s :: s in rules[i].states ==> (s, rules[i].action) in registrations;
      }
      registrations := more;
    }
    ok := true;
  }

  datatype Cost = Cost(steps: nat, calls: nat, retries: int)

  datatype AllowedAction = AllowedAction(
    id: nat,
    action: Kind,
    states: seq<State>,
    purposes: seq<Purpose>,
    revision: nat,
    rules: seq<nat>,
    proposerKind: ActorKind,
    executorKind: ActorKind,
    prerequisites: seq<Prerequisite>,
    cost: Cost)

  datatype AllowedSet = AllowedSet(
    policyVersion: nat,
    snapshot: Snapshot,
    revision: nat,
    documents: seq<Document>,
    rules: seq<nat>,
    actions: seq<AllowedAction>)

  function AvailablePurposes(wanted: seq<Purpose>, documents: seq<Document>): (r: seq<Purpose>)
    ensures forall p :: p in r <==> p in wanted && exists d :: d in documents && d.purpose == p
    ensures Unique(wanted) ==> Unique(r)
  {
    if wanted == [] then []
    else
      var rest := AvailablePurposes(wanted[1..], documents);
      assert wanted == [wanted[0]] + wanted[1..];
      assert Unique(wanted) ==> wanted[0] !in wanted[1..];
      assert Unique(wanted) ==> Unique(wanted[1..]);
      if exists d :: d in documents && d.purpose == wanted[0] then [wanted[0]] + rest else rest
  }

  function ModelCost(proposer: ActorKind): nat {
    if proposer == ModelActor then 1 else 0
  }

  predicate Affordable(b: Budget, rule: Rule, proposer: ActorKind) {
    && b.steps >= 1
    && b.calls >= ModelCost(proposer)
    && b.retries >= rule.retryCost
    && b.time != Some(0)
  }

  /** The conditions under which trusted policy offers a rule's action. */
  predicate Applies(s: Snapshot, rule: Rule, proposer: ActorKind) {
    && s.state in rule.states
    && (forall p :: p in rule.prerequisites ==> p in s.prerequisites)
    && (rule.requiresBlockers ==> s.blockers != [])
    && Affordable(s.budget, rule, proposer)
    && (rule.purposes != [] ==> AvailablePurposes(rule.purposes, s.revision.documents) != [])
  }

  function ActionOf(s: Snapshot, rule: Rule, proposer: ActorKind): AllowedAction {
    AllowedAction(rule.id, rule.action, rule.states,
                  AvailablePurposes(rule.purposes, s.revision.documents),
                  s.revision.reference, s.revision.rules, proposer, SystemActor, rule.prerequisites,
                  Cost(1, ModelCost(proposer), rule.retryCost))
  }

  /** The validator of `AllowedAction`. */
  predicate WellFormedAction(a: AllowedAction) {
    && (a.rules == [] ==> SourceAction(a.action))
    && a.states != [] && Unique(a.states) && Unique(a.purposes) && Unique(a.prerequisites)
    && (SourceAction(a.action) <==> a.purposes != [])
    && (a.action == InspectReference ==> forall p :: p in a.purposes ==> p in {Reference, Brief})
    && (a.action == Extract ==> Template !in a.purposes)
    && (a.proposerKind == ModelActor <==> a.cost.calls > 0)
    && a.cost.steps >= 1 && a.cost.retries >= 0
  }

  /** The validator of `AllowedActionSet`. */
  predicate WellFormedSet(set': AllowedSet) {
    && (forall i, j :: 0 <= i < j < |set'.actions| ==> set'.actions[i].id != set'.actions[j].id)
    && (forall i, j :: 0 <= i < j < |set'.actions| ==> set'.actions[i].action != set'.actions[j].action)
    && (forall a :: a in set'.actions ==>
          && a.revision == set'.revision && a.rules == set'.rules
          && forall p :: p in a.purposes ==> exists d :: d in set'.documents && d.purpose == p)
  }

  function DerivedActions(s: Snapshot, rules: seq<Rule>, proposer: ActorKind): seq<AllowedAction> {
    if rules == [] then []
    else
      (if Applies(s, rules[0], proposer) then [ActionOf(s, rules[0], proposer)] else []) +
      DerivedActions(s, rules[1..], proposer)
  }

  /** `derive`; an ill-formed action or set is the validation error it raises. */
  function Derive(s: Snapshot, rules: seq<Rule>, proposer: ActorKind, version: nat): Option<AllowedSet>
    requires ValidRegistry(rules)
  {
    var actions := DerivedActions(s, rules, proposer);
    var result := AllowedSet(version, s, s.revision.reference, s.revision.documents, s.revision.rules, actions);
    if (forall i :: 0 <= i < |actions| ==> WellFormedAction(actions[i])) && WellFormedSet(result)
    then Some(result) else None
  }

  /** The rule applies and its action is `a`. */
  predicate Justifies(s: Snapshot, r: Rule, proposer: ActorKind, a: AllowedAction) {
    Applies(s, r, proposer) && a == ActionOf(s, r, proposer)
  }

  /** Every derived action comes from an applicable rule. */
  lemma {:induction false} RuleOf(s: Snapshot, rules: seq<Rule>, proposer: ActorKind, a: AllowedAction)
    returns (k: nat)
    requires a in DerivedActions(s, rules, proposer)
    ensures k < |rules| && Justifies(s, rules[k], proposer, a)
  {
    if Justifies(s, rules[0], proposer, a) {
      k := 0;
    } else {
      k := RuleOf(s, rules[1..], proposer, a);
      k := k + 1;
    }
  }

  /** Every applicable rule's action is derived. */
  lemma {:induction false} ActionIsDerived(s: Snapshot, rules: seq<Rule>, proposer: ActorKind, k: nat)
    requires k < |rules| && Applies(s, rules[k], proposer)
    ensures ActionOf(s, rules[k], proposer) in DerivedActions(s, rules, proposer)
  {
    if k > 0 {
      ActionIsDerived(s, rules[1..], proposer, k - 1);
    }
  }

  /** A valid registry derives at most one action per identifier and per kind. */
  lemma {:induction false} DerivedAreUnambiguous(s: Snapshot, rules: seq<Rule>, proposer: ActorKind)
    requires ValidRegistry(rules)
    ensures forall i, j :: 0 <= i < j < |DerivedActions(s, rules, proposer)| ==>
              && DerivedActions(s, rules, proposer)[i].id != DerivedActions(s, rules, proposer)[j].id
              && DerivedActions(s, rules, proposer)[i].action != DerivedActions(s, rules, proposer)[j].action
  {
    if rules != [] {
      var tail := rules[1..];
      assert ValidRegistry(tail);
      DerivedAreUnambiguous(s, tail, proposer);
      var rest := DerivedActions(s, tail, proposer);
      forall i | 0 <= i < |rest| && Applies(s, rules[0], proposer)
        ensures rest[i].id != rules[0].id && rest[i].action != rules[0].action
      {
        var k := RuleOf(s, tail, proposer, rest[i]);
        assert rules[k + 1] == tail[k] && !Collide(rules[0], rules[k + 1]);
      }
    }
  }

  /** A rule whose action a preparation revision cannot carry. */
  predicate NeedsRules(s: Snapshot, r: Rule, proposer: ActorKind) {
    Applies(s, r, proposer) && !SourceAction(r.action)
  }

  lemma {:induction false} DerivedSetIsWellFormed(s: Snapshot, rules: seq<Rule>, proposer: ActorKind, version: nat)
    requires ValidRegistry(rules)
    ensures WellFormedSet(AllowedSet(version, s, s.revision.reference, s.revision.documents, s.revision.rules,
                                     DerivedActions(s, rules, proposer)))
  {
    DerivedAreUnambiguous(s, rules, proposer);
    forall a | a in DerivedActions(s, rules, proposer)
      ensures a.revision == s.revision.reference && a.rules == s.revision.rules
      ensures forall p :: p in a.purposes ==> exists d :: d in s.revision.documents && d.purpose == p
    {
      var k := RuleOf(s, rules, proposer, a);
    }
  }

  /**
   Derivation fails on a valid registry and snapshot exactly when the snapshot has no rules
   yet and a human-request or review rule applies to it.
   */
  lemma {:induction false} DeriveFailsExactlyWithoutRules(s: Snapshot, rules: seq<Rule>, proposer: ActorKind, version: nat)
    requires ValidRegistry(rules) && ValidSnapshot(s)
    ensures Derive(s, rules, proposer, version).None? <==>
            s.revision.rules == [] && exists k :: 0 <= k < |rules| && NeedsRules(s, rules[k], proposer)
  {
    DerivedSetIsWellFormed(s, rules, proposer, version);
    var actions := DerivedActions(s, rules, proposer);
    if s.revision.rules == [] && exists k :: 0 <= k < |rules| && NeedsRules(s, rules[k], proposer) {
      var k :| 0 <= k < |rules| && NeedsRules(s, rules[k], proposer);
      ActionIsDerived(s, rules, proposer, k);
      var i :| 0 <= i < |actions| && actions[i] == ActionOf(s, rules[k], proposer);
      assert !WellFormedAction(actions[i]);
    } else {
      forall i | 0 <= i < |actions| ensures WellFormedAction(actions[i]) {
        var k := RuleOf(s, rules, proposer, actions[i]);
        assert ValidRule(rules[k]);
      }
    }
  }

  /** A rule that asks a human about criteria nobody has parsed yet. */
  const EARLY_QUESTION := Rule(0, RequestHuman, [CriteriaPending], [], [], 0, false)

  /** A case in preparation: two documents, no rules yet. */
  const PREPARING := Snapshot(0, 0, Revision(0, [Document(0, 1, 0, Criteria), Document(1, 1, 0, Forms)], [], true),
                              CriteriaPending, [CriteriaDocument], [], Budget(1, 1, 0, None))

  /** The failure does occur: a valid registry of one such rule refuses a valid snapshot. */
  lemma {:induction false} EarlyQuestionIsRefused(proposer: ActorKind, version: nat)
    ensures ValidRegistry([EARLY_QUESTION]) && ValidSnapshot(PREPARING)
    ensures Derive(PREPARING, [EARLY_QUESTION], proposer, version).None?
  {
    assert NeedsRules(PREPARING, [EARLY_QUESTION][0], proposer);
    DeriveFailsExactlyWithoutRules(PREPARING, [EARLY_QUESTION], proposer, version);
  }

  /** Every built-in rule serves one state of its own. */
  function DefaultState(i: nat): State
    requires i < 9
  {
    match i
    case 0 => CriteriaPending
    case 1 => FormsPending
    case 2 => ExtractionRetryable
    case 3 => ReferenceAvailable
    case 4 => RulesAwaitingApproval
    case 5 => EvidenceNeedsReview
    case 6 => MaterialReady
    case 7 => ReviewFailed
    case _ => UnsupportedContexts
  }

  /** `DEFAULT_ACTION_RULES`. */
  function DefaultRule(i: nat): Rule
    requires i < 9
  {
    var state := [DefaultState(i)];
    match i
    case 0 => Rule(i, Extract, state, [CriteriaDocument], [Criteria], 0, false)
    case 1 => Rule(i, Extract, state, [CriteriaParsed, FormsDocument, RulesApproved], [Forms], 0, false)
    case 2 => Rule(i, Extract, state, [AuthorizedSource, ExtractionRetryAvailable],
                   [Criteria, Forms, Reference, Brief], 1, false)
    case 3 => Rule(i, InspectReference, state, [AuthorizedSource, ReferenceAvailablePrerequisite],
                   [Reference, Brief], 0, false)
    case 4 => Rule(i, RequestHuman, state, [CriteriaParsed, RulesAvailable], [], 0, true)
    case 5 => Rule(i, RequestHuman, state, [FormsParsed], [], 0, true)
    case 6 => Rule(i, DeterministicReview, state,
                   [FormsParsed, RulesApproved, CriticalEvidenceAvailable, MaterialComplete], [], 0, false)
    case 7 => Rule(i, RequestHuman, state, [MaterialComplete], [], 0, true)
    case _ => Rule(i, RequestHuman, state, [MaterialComplete], [], 0, true)
  }

  function DefaultRules(): (rules: seq<Rule>) {
    seq(9, i requires 0 <= i < 9 => DefaultRule(i))
  }

  lemma {:induction false} DefaultStatesDiffer(i: nat, j: nat)
    requires i < j < 9
    ensures DefaultState(i) != DefaultState(j)
  {
  }

  lemma {:induction false} DefaultRegistryIsValid()
    ensures ValidRegistry(DefaultRules())
  {
    var rules := DefaultRules();
    forall i | 0 <= i < 9 ensures ValidRule(rules[i]) && rules[i].id == i && rules[i].states == [DefaultState(i)] {
    }
    forall i, j | 0 <= i < j < 9 ensures !Collide(rules[i], rules[j]) {
      DefaultStatesDiffer(i, j);
    }
  }

  /** The built-in registry derives for every valid snapshot. */
  lemma {:induction false} DefaultRegistryAlwaysDerives(s: Snapshot, proposer: ActorKind, version: nat)
    requires ValidSnapshot(s)
    ensures ValidRegistry(DefaultRules())
    ensures Derive(s, DefaultRules(), proposer, version).Some?
  {
    DefaultRegistryIsValid();
    DeriveFailsExactlyWithoutRules(s, DefaultRules(), proposer, version);
    forall k | 0 <= k < 9 && s.revision.rules == [] ensures !NeedsRules(s, DefaultRules()[k], proposer) {
      assert DefaultRules()[k] == DefaultRule(k) && DefaultRule(k).states == [DefaultState(k)];
    }
  }

  // ---------------------------------------------------------------- admission

  datatype Arguments =
    | SourceArguments(document: Document)
    | ReviewArguments(revision: nat, rules: seq<nat>)
    | HumanArguments(reason: nat, subjects: seq<nat>, evidence: seq<Citation>)

  datatype Proposal = Proposal(
    run: nat,
    actionId: nat,
    action: Kind,
    policyVersion: nat,
    snapshot: Snapshot,
    proposer: Actor,
    attempts: Option<nat>,
    arguments: Arguments)

  /** The validators of `ActionProposal` and its arguments. */
  predicate ValidProposal(p: Proposal) {
    && p.proposer.kind in {SystemActor, ModelActor}
    && (p.proposer.kind == ModelActor <==> p.attempts.Some?)
    && (p.attempts.Some? ==> p.attempts.value >= 1)
    && (SourceAction(p.action) <==> p.arguments.SourceArguments?)
    && (p.action == DeterministicReview <==> p.arguments.ReviewArguments?)
    && (p.action == Extract ==> p.arguments.document.purpose != Template)
    && (p.action == InspectReference ==> p.arguments.document.purpose in {Reference, Brief})
  }

  datatype Code = Unauthorized | VersionConflict | Capability | ExecutionFailed | OtherCode

  function ProviderRetries(p: Proposal): int {
    if p.proposer.kind == ModelActor && p.attempts.Some? then p.attempts.value - 1 else 0
  }

  function RequiredCalls(p: Proposal, a: AllowedAction): nat {
    if p.proposer.kind == ModelActor && p.attempts.Some? then p.attempts.value else a.cost.calls
  }

  predicate Binds(p: Proposal, s: Snapshot, allowed: AllowedSet) {
    && p.run == s.run
    && p.snapshot == s
    && p.policyVersion == allowed.policyVersion
    && p.snapshot == allowed.snapshot
    && s.revision.reference == allowed.revision
    && s.revision.documents == allowed.documents
    && s.revision.rules == allowed.rules
  }

  predicate Permitted(p: Proposal, executor: Actor, s: Snapshot, a: AllowedAction) {
    && s.state in a.states
    && (forall q :: q in a.prerequisites ==> q in s.prerequisites)
    && p.proposer.kind == a.proposerKind
    && executor.kind == a.executorKind
    && a.revision == s.revision.reference
    && a.rules == s.revision.rules
  }

  predicate Funded(p: Proposal, s: Snapshot, a: AllowedAction) {
    && s.budget.steps >= a.cost.steps
    && s.budget.calls >= RequiredCalls(p, a)
    && s.budget.retries >= a.cost.retries + ProviderRetries(p)
  }

  function Matching(blockers: seq<Blocker>, reason: nat, subjects: seq<nat>): seq<Blocker> {
    if blockers == [] then []
    else
      (if blockers[0].reason == reason && blockers[0].subjects == subjects then [blockers[0]] else []) +
      Matching(blockers[1..], reason, subjects)
  }

  predicate Cites(documents: seq<Document>, c: Citation) {
    exists d :: d in documents && d.id == c.documentId && d.version == c.version && d.hash == c.hash
  }

  predicate ArgumentsAllowed(p: Proposal, s: Snapshot, a: AllowedAction) {
    match p.arguments
    case SourceArguments(d) => d in s.revision.documents && d.purpose in a.purposes
    case ReviewArguments(revision, rules) => revision == s.revision.reference && rules == s.revision.rules
    case HumanArguments(reason, subjects, evidence) =>
      var blockers := Matching(s.blockers, reason, subjects);
      |blockers| == 1 &&
      forall c :: c in evidence ==> Cites(s.revision.documents, c) && c in blockers[0].evidence
  }

  predicate Selects(p: Proposal, a: AllowedAction) {
    a.id == p.actionId && a.action == p.action
  }

  function Selected(actions: seq<AllowedAction>, p: Proposal): (r: seq<AllowedAction>)
    ensures forall a :: a in r <==> a in actions && Selects(p, a)
    ensures (forall a :: a in actions ==> !Selects(p, a)) ==> r == []
  {
    if actions == [] then []
    else (if Selects(p, actions[0]) then [actions[0]] else []) + Selected(actions[1..], p)
  }

  /** `admit_action`; success names the one admitted action. */
  function Admit(p: Proposal, proposer: Actor, executor: Actor, s: Snapshot, allowed: AllowedSet)
    : Result<AllowedAction, Code>
  {
    if p.proposer != proposer then Err(Unauthorized)
    else if !Binds(p, s, allowed) then Err(VersionConflict)
    else
      var matches := Selected(allowed.actions, p);
      if |matches| != 1 then Err(Unauthorized)
      else if !Permitted(p, executor, s, matches[0]) then Err(Unauthorized)
      else if !Funded(p, s, matches[0]) then Err(Capability)
      else if !ArgumentsAllowed(p, s, matches[0]) then Err(Unauthorized)
      else Ok(matches[0])
  }

  lemma {:induction false} SelectedUnique(actions: seq<AllowedAction>, p: Proposal, a: AllowedAction)
    requires forall i, j :: 0 <= i < j < |actions| ==> actions[i].id != actions[j].id
    requires a in actions && Selects(p, a)
    ensures Selected(actions, p) == [a]
  {
    if actions[0] == a {
      assert forall b :: b in actions[1..] ==> b.id != a.id;
    } else {
      assert a in actions[1..];
      assert !Selects(p, actions[0]);
      SelectedUnique(actions[1..], p, a);
    }
  }

  /** A proposal that names a derived action of this snapshot and took a single attempt. */
  predicate Proposes(p: Proposal, proposer: Actor, s: Snapshot, allowed: AllowedSet, a: AllowedAction) {
    && ValidProposal(p)
    && p.proposer == proposer
    && Binds(p, s, allowed)
    && Selects(p, a)
    && (p.attempts.Some? ==> p.attempts.value == 1)
  }

  /**
   Policy and admission agree: whatever policy derives passes the state, prerequisite and
   budget checks when proposed with one attempt, so only the arguments remain to be judged.
   */
  lemma {:induction false} DerivedIsAdmissible(s: Snapshot, rules: seq<Rule>, version: nat, proposer: Actor, executor: Actor,
                            p: Proposal, a: AllowedAction)
    requires ValidRegistry(rules) && ValidSnapshot(s) && executor.kind == SystemActor
    requires Derive(s, rules, proposer.kind, version).Some?
    requires a in Derive(s, rules, proposer.kind, version).value.actions
    requires Proposes(p, proposer, s, Derive(s, rules, proposer.kind, version).value, a)
    ensures var allowed := Derive(s, rules, proposer.kind, version).value;
            Admit(p, proposer, executor, s, allowed) ==
            if ArgumentsAllowed(p, s, a) then Ok(a) else Err(Unauthorized)
  {
    var k := RuleOf(s, rules, proposer.kind, a);
    SelectedUnique(Derive(s, rules, proposer.kind, version).value.actions, p, a);
    OfferIsPermitted(s, rules[k], p, executor);
  }

  lemma {:induction false} OfferIsPermitted(s: Snapshot, r: Rule, p: Proposal, executor: Actor)
    requires Applies(s, r, p.proposer.kind) && executor.kind == SystemActor
    requires p.attempts.Some? ==> p.attempts.value == 1
    requires ValidProposal(p)
    ensures Permitted(p, executor, s, ActionOf(s, r, p.proposer.kind)) && Funded(p, s, ActionOf(s, r, p.proposer.kind))
  {
  }

  /**
   Whatever is admitted comes from exactly one rule, whose conditions hold in the snapshot
   admission saw, and never reads a template.
   */
  lemma {:induction false} AdmittedTracesToOneRule(s: Snapshot, rules: seq<Rule>, version: nat, kind: ActorKind,
                                proposer: Actor, executor: Actor, p: Proposal)
    requires ValidRegistry(rules) && Derive(s, rules, kind, version).Some?
    requires Admit(p, proposer, executor, s, Derive(s, rules, kind, version).value).Ok?
    ensures exists k :: 0 <= k < |rules| && rules[k].id == p.actionId && rules[k].action == p.action &&
              Applies(s, rules[k], kind) &&
              Admit(p, proposer, executor, s, Derive(s, rules, kind, version).value) ==
                Ok(ActionOf(s, rules[k], kind)) &&
              (forall j :: 0 <= j < |rules| && rules[j].id == p.actionId ==> j == k) &&
              (p.arguments.SourceArguments? ==>
                 p.arguments.document in s.revision.documents &&
                 p.arguments.document.purpose in rules[k].purposes &&
                 p.arguments.document.purpose != Template)
  {
    var allowed := Derive(s, rules, kind, version).value;
    var a := Admit(p, proposer, executor, s, allowed).value;
    assert a in Selected(allowed.actions, p);
    var k := RuleOf(s, rules, kind, a);
    assert ValidRule(rules[k]);
  }

  lemma {:induction false} MatchingExactly(blockers: seq<Blocker>, reason: nat, subjects: seq<nat>)
    ensures |Matching(blockers, reason, subjects)| == 1 ==>
              exists i :: OnlyBlocker(blockers, i, reason, subjects) && Matching(blockers, reason, subjects)[0] == blockers[i]
    ensures Matching(blockers, reason, subjects) == [] ==> forall i :: 0 <= i < |blockers| ==> !Names(blockers[i], reason, subjects)
  {
    if blockers != [] {
      var tail := blockers[1..];
      MatchingExactly(tail, reason, subjects);
      if |Matching(blockers, reason, subjects)| == 1 {
        if Names(blockers[0], reason, subjects) {
          assert Matching(tail, reason, subjects) == [];
          forall j | 0 <= j < |blockers| && j != 0 ensures !Names(blockers[j], reason, subjects) {
            assert tail[j - 1] == blockers[j];
          }
          assert OnlyBlocker(blockers, 0, reason, subjects);
        } else {
          var i :| OnlyBlocker(tail, i, reason, subjects) && Matching(tail, reason, subjects)[0] == tail[i];
          forall j | 0 <= j < |blockers| && j != i + 1 ensures !Names(blockers[j], reason, subjects) {
            assert j > 0 ==> tail[j - 1] == blockers[j];
          }
          assert OnlyBlocker(blockers, i + 1, reason, subjects);
        }
      }
    }
  }

  predicate Names(b: Blocker, reason: nat, subjects: seq<nat>) {
    b.reason == reason && b.subjects == subjects
  }

  /** Exactly one open blocker has that reason and those subjects: the `i`th. */
  predicate OnlyBlocker(blockers: seq<Blocker>, i: int, reason: nat, subjects: seq<nat>) {
    && 0 <= i < |blockers| && Names(blockers[i], reason, subjects)
    && forall j :: 0 <= j < |blockers| && j != i ==> !Names(blockers[j], reason, subjects)
  }

  /** An admitted request for a human is about exactly one open blocker and shows nothing but that
      blocker's own evidence, out of the revision's documents; an admitted review is of the current
      revision under its current rules; an admitted reading is of a document of an allowed purpose. */
  lemma {:induction false} AdmittedArguments(s: Snapshot, proposer: Actor, executor: Actor, p: Proposal, allowed: AllowedSet)
    requires Admit(p, proposer, executor, s, allowed).Ok?
    ensures p.proposer == proposer && p.run == s.run && p.snapshot == s && p.policyVersion == allowed.policyVersion
    ensures match p.arguments
            case HumanArguments(reason, subjects, evidence) =>
              exists i :: OnlyBlocker(s.blockers, i, reason, subjects) &&
                forall c :: c in evidence ==>
                  c in s.blockers[i].evidence &&
                  exists d :: d in s.revision.documents && (d.id, d.version, d.hash) == (c.documentId, c.version, c.hash)
            case ReviewArguments(revision, rules) => revision == s.revision.reference && rules == s.revision.rules
            case SourceArguments(d) =>
              d in s.revision.documents && d.purpose in Admit(p, proposer, executor, s, allowed).value.purposes
  {
    if p.arguments.HumanArguments? {
      MatchingExactly(s.blockers, p.arguments.reason, p.arguments.subjects);
    }
  }

  /** Admission funds the action itself: neither steps, calls nor retries can underflow. */
  lemma {:induction false} AdmittedIsFunded(p: Proposal, proposer: Actor, executor: Actor, s: Snapshot, allowed: AllowedSet)
    requires Admit(p, proposer, executor, s, allowed).Ok?
    ensures var a := Admit(p, proposer, executor, s, allowed).value;
            Funded(p, s, a) && Selects(p, a) && a in allowed.actions
  {
    var a := Admit(p, proposer, executor, s, allowed).value;
    assert a in Selected(allowed.actions, p);
  }
}
