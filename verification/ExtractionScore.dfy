/**
 Counting extraction outcomes against goldens (`application/extraction_evaluation.py`, `_score`).

 Every counter of the scorer is the multiplicity of one mark in a multiset, so adding to a
 counter is adding a mark, and the score of several repeats is a sum of multisets.
 */
module ExtractionScore {
  import opened Common
  import opened ExtractionMatch

  datatype FieldKey = FieldKey(caseId: nat, slot: nat)

  datatype PageKey = PageKey(caseId: nat, documentId: nat, page: nat)

  datatype Failure = Refused | BudgetExhausted | OtherFailure(code: nat)

  datatype Declaration = Declaration(slot: nat, shape: Shape)

  datatype Proposal = Proposal(observed: seq<Observed>, declared: seq<Declaration>, unresolved: nat, unsupported: nat)

  datatype Outcome = Outcome(candidate: bool, proposal: Option<Proposal>, failure: Option<Failure>, handoffs: seq<nat>)

  /** The outcome model's own validation. */
  predicate ValidOutcome(o: Outcome) {
    && (o.candidate <==> o.proposal.Some?)
    && (o.candidate <==> o.failure.None?)
    && (!o.candidate ==> o.handoffs != [])
  }

  /** One repeat's recorded outcomes and callback errors, by page. */
  datatype Repeat = Repeat(outcomes: map<PageKey, Outcome>, errors: map<PageKey, Failure>)

  datatype Schedule = Schedule(
    pages: seq<PageKey>, cases: seq<nat>, fields: seq<FieldKey>, expected: map<FieldKey, Expected>, policy: Policy)

  ghost predicate ValidSchedule(s: Schedule) {
    && NoDuplicates(s.pages) && NoDuplicates(s.cases) && NoDuplicates(s.fields)
    && (forall k :: k in s.expected <==> k in s.fields)
    && (forall k :: k in s.pages ==> k.caseId in s.cases)
  }

  ghost predicate ValidRepeat(s: Schedule, r: Repeat) {
    && (forall k :: k in r.outcomes ==> k in s.pages && ValidOutcome(r.outcomes[k]))
    && (forall k :: k in r.errors ==> k in s.pages && k !in r.outcomes)
  }

  datatype PageMark =
    | ScheduledPage | ObservedPage | MissingPage | CandidatePage | FailedPage | RefusedPage
    | HandoffPage | ReviewPage | RunnerErrorPage

  datatype CaseMark =
    | ScheduledCase | ObservedCase | MissingCase | CompleteCase | AllCandidateCase | FullyCorrectCase | ReviewCase

  datatype FieldMark =
    | Prediction | PredictedState(predicted: State) | UnknownField | DuplicatePrediction | IdentityMatch
    | Confusion(expected: State, actual: State)
    | StateCorrect | StateMismatch | TypeCorrect | TypeMismatch | ValueCorrect | ValueMismatch
    | SourceCorrect | SourceMismatch | LocalizationCorrect | LocalizationMismatch

  /** `Unpredicted` is the confusion table's "no prediction" column. */
  datatype TotalMark =
    | CorrectField | MissingPrediction | ExpectedField | ExpectedCited | ExpectedState(state: State) | Unpredicted(state: State)

  datatype Score = Score(
    pages: multiset<PageMark>, cases: multiset<CaseMark>, fields: multiset<FieldMark>, totals: multiset<TotalMark>)

  function Zero(): Score {
    Score(multiset{}, multiset{}, multiset{}, multiset{})
  }

  function Plus(a: Score, b: Score): Score {
    Score(a.pages + b.pages, a.cases + b.cases, a.fields + b.fields, a.totals + b.totals)
  }

  function Times<T(==)>(m: T, n: nat): multiset<T> {
    multiset{}[m := n]
  }

  function When<T(==)>(condition: bool, m: T): multiset<T> {
    if condition then multiset{m} else multiset{}
  }

  /** The score of the repeat so far, and the scorer's three sets. */
  datatype Progress = Progress(score: Score, seen: set<FieldKey>, correct: set<FieldKey>, review: set<nat>) {
    function AddPages(m: multiset<PageMark>): Progress {
      this.(score := score.(pages := score.pages + m))
    }

    function AddCases(m: multiset<CaseMark>): Progress {
      this.(score := score.(cases := score.cases + m))
    }

    function AddFields(m: multiset<FieldMark>): Progress {
      this.(score := score.(fields := score.fields + m))
    }

    function AddTotals(m: multiset<TotalMark>): Progress {
      this.(score := score.(totals := score.totals + m))
    }

    function Flag(flagged: bool, c: nat): Progress {
      if flagged then this.(review := review + {c}) else this
    }
  }

  // ------------------------------------------------------------------- predictions

  function DeclaredAs(declared: seq<Declaration>, slot: nat): seq<Shape> {
    if declared == [] then []
    else
      var rest, last := DeclaredAs(declared[..|declared| - 1], slot), declared[|declared| - 1];
      if last.slot == slot then rest + [last.shape] else rest
  }

  /** The marks of the first prediction for an expected field. */
  function FieldMarks(expected: State, actual: State): multiset<FieldMark> {
    multiset{Prediction, PredictedState(actual), IdentityMatch, Confusion(expected, actual)}
  }

  function VerdictMarks(state: bool, typed: bool, valued: bool): multiset<FieldMark> {
    multiset{
      if state then StateCorrect else StateMismatch,
      if typed then TypeCorrect else TypeMismatch,
      if valued then ValueCorrect else ValueMismatch}
  }

  function SourceMarks(cited: bool, sourced: bool, measured: bool, localized: bool): multiset<FieldMark> {
    if !cited then multiset{}
    else if !measured then multiset{if sourced then SourceCorrect else SourceMismatch}
    else multiset{
      if sourced then SourceCorrect else SourceMismatch,
      if localized then LocalizationCorrect else LocalizationMismatch}
  }

  function Marks(e: Expected, a: Observed, declared: seq<Shape>, policy: Policy): multiset<FieldMark> {
    FieldMarks(e.state, a.state)
    + VerdictMarks(e.state == a.state, TypeMatch(e, a, declared, policy), ValueMatch(e, a, policy))
    + SourceMarks(e.citation.Some?, SourceOk(e, a), policy.minimumIou.Some?, Localized(e, a, policy))
  }

  function Judge(s: Schedule, caseId: nat, declared: seq<Declaration>, a: Observed, p: Progress): Progress {
    var key := FieldKey(caseId, a.slot);
    if key !in s.expected then p.AddFields(multiset{Prediction, PredictedState(a.state), UnknownField})
    else if key in p.seen then p.AddFields(multiset{Prediction, PredictedState(a.state), DuplicatePrediction})
    else
      var e, shapes := s.expected[key], DeclaredAs(declared, a.slot);
      p.AddFields(Marks(e, a, shapes, s.policy))
      .(seen := p.seen + {key},
        correct := if FieldCorrect(e, a, shapes, s.policy) then p.correct + {key} else p.correct)
  }

  function JudgeAll(s: Schedule, caseId: nat, declared: seq<Declaration>, observed: seq<Observed>, p: Progress): Progress {
    if observed == [] then p
    else Judge(s, caseId, declared, observed[|observed| - 1], JudgeAll(s, caseId, declared, observed[..|observed| - 1], p))
  }

  // ------------------------------------------------------------------------- pages

  predicate NeedsReview(o: Outcome) {
    || !o.candidate
    || o.handoffs != []
    || (o.proposal.Some? && (o.proposal.value.unresolved > 0 || o.proposal.value.unsupported > 0))
  }

  function MissingMarks(failed: bool, refused: bool): multiset<PageMark> {
    if !failed then multiset{ReviewPage}
    else multiset{ReviewPage, RunnerErrorPage, FailedPage} + When(refused, RefusedPage)
  }

  function PageMarks(candidate: bool, refused: bool, handoff: bool, review: bool): multiset<PageMark> {
    multiset{if candidate then CandidatePage else FailedPage}
    + When(refused, RefusedPage) + When(handoff, HandoffPage) + When(review, ReviewPage)
  }

  function MarkMissing(r: Repeat, key: PageKey, p: Progress): Progress {
    p.AddPages(MissingMarks(key in r.errors, key in r.errors && r.errors[key].Refused?))
  }

  function MarkPresent(o: Outcome, key: PageKey, p: Progress): Progress {
    p.AddPages(PageMarks(o.candidate, o.failure == Some(Refused), o.handoffs != [], NeedsReview(o))).Flag(NeedsReview(o), key.caseId)
  }

  function ScorePage(s: Schedule, r: Repeat, key: PageKey, p: Progress): Progress {
    if key !in r.outcomes then MarkMissing(r, key, p)
    else
      var o := r.outcomes[key];
      var marked := MarkPresent(o, key, p);
      if o.proposal.None? then marked
      else JudgeAll(s, key.caseId, o.proposal.value.declared, o.proposal.value.observed, marked)
  }

  function ScorePages(s: Schedule, r: Repeat, pages: seq<PageKey>, p: Progress): Progress {
    if pages == [] then p else ScorePage(s, r, pages[|pages| - 1], ScorePages(s, r, pages[..|pages| - 1], p))
  }

  // ------------------------------------------------------------------ cases, fields

  predicate Complete(s: Schedule, r: Repeat, c: nat) {
    forall i :: 0 <= i < |s.pages| && s.pages[i].caseId == c ==> s.pages[i] in r.outcomes
  }

  predicate AnyOutcome(s: Schedule, r: Repeat, c: nat) {
    exists i :: 0 <= i < |s.pages| && s.pages[i].caseId == c && s.pages[i] in r.outcomes
  }

  predicate AllCandidates(s: Schedule, r: Repeat, c: nat) {
    forall i :: 0 <= i < |s.pages| && s.pages[i].caseId == c ==> s.pages[i] in r.outcomes && r.outcomes[s.pages[i]].candidate
  }

  function OpenMarks(any: bool, complete: bool, candidates: bool): multiset<CaseMark> {
    multiset{if any then ObservedCase else MissingCase} + When(complete, CompleteCase) + When(complete && candidates, AllCandidateCase)
  }

  function OpenCase(s: Schedule, r: Repeat, c: nat, p: Progress): Progress {
    p.AddCases(OpenMarks(AnyOutcome(s, r, c), Complete(s, r, c), AllCandidates(s, r, c))).Flag(!Complete(s, r, c), c)
  }

  function OpenCases(s: Schedule, r: Repeat, cases: seq<nat>, p: Progress): Progress {
    if cases == [] then p else OpenCase(s, r, cases[|cases| - 1], OpenCases(s, r, cases[..|cases| - 1], p))
  }

  function CountMarks(state: State, cited: bool, unseen: bool): multiset<TotalMark> {
    multiset{ExpectedField, ExpectedState(state)} + When(cited, ExpectedCited) + When(unseen, Unpredicted(state))
  }

  function CountField(s: Schedule, key: FieldKey, p: Progress): Progress
    requires key in s.expected
  {
    p.AddTotals(CountMarks(s.expected[key].state, s.expected[key].citation.Some?, key !in p.seen))
  }

  function CountFields(s: Schedule, fields: seq<FieldKey>, p: Progress): Progress
    requires forall k :: k in fields ==> k in s.expected
  {
    if fields == [] then p else CountField(s, fields[|fields| - 1], CountFields(s, fields[..|fields| - 1], p))
  }

  predicate CaseCorrect(s: Schedule, c: nat, correct: set<FieldKey>) {
    forall i :: 0 <= i < |s.fields| && s.fields[i].caseId == c ==> s.fields[i] in correct
  }

  predicate HasFields(s: Schedule, c: nat) {
    exists i :: 0 <= i < |s.fields| && s.fields[i].caseId == c
  }

  predicate FullyCorrect(s: Schedule, r: Repeat, c: nat, correct: set<FieldKey>) {
    HasFields(s, c) && CaseCorrect(s, c, correct) && Complete(s, r, c) && AllCandidates(s, r, c)
  }

  function CloseCase(s: Schedule, r: Repeat, c: nat, p: Progress): Progress {
    p.AddCases(When(FullyCorrect(s, r, c, p.correct), FullyCorrectCase)).Flag(!CaseCorrect(s, c, p.correct), c)
  }

  function CloseCases(s: Schedule, r: Repeat, cases: seq<nat>, p: Progress): Progress {
    if cases == [] then p else CloseCase(s, r, cases[|cases| - 1], CloseCases(s, r, cases[..|cases| - 1], p))
  }

  // ------------------------------------------------------------------------ a repeat

  function Opening(s: Schedule, r: Repeat): Progress
    requires |r.outcomes| <= |s.pages|
  {
    Progress(
      Score(
        Times(ScheduledPage, |s.pages|) + Times(ObservedPage, |r.outcomes|) + Times(MissingPage, |s.pages| - |r.outcomes|),
        Times(ScheduledCase, |s.cases|), multiset{}, multiset{}),
      {}, {}, {})
  }

  function AfterPages(s: Schedule, r: Repeat): Progress
    requires |r.outcomes| <= |s.pages|
  {
    ScorePages(s, r, s.pages, OpenCases(s, r, s.cases, Opening(s, r)))
  }

  function Totals(s: Schedule, p: Progress): Progress
    requires |p.seen| <= |s.expected|
  {
    p.AddTotals(Times(CorrectField, |p.correct|) + Times(MissingPrediction, |s.expected| - |p.seen|))
  }

  function Closing(s: Schedule, r: Repeat, p: Progress): Progress {
    var closed := CloseCases(s, r, s.cases, p);
    closed.AddCases(Times(ReviewCase, |closed.review|))
  }
}
