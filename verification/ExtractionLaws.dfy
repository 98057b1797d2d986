/** What the scorer's counters always satisfy (`application/extraction_evaluation.py`, `_score`). */
module ExtractionLaws {
  import opened Common
  import opened ExtractionMatch
  import opened ExtractionScore

  // ------------------------------------------------------------- sums of multiplicities

  function Row(t: multiset<FieldMark>, e: State): nat {
    t[Confusion(e, Present)] + t[Confusion(e, Blank)] + t[Confusion(e, Missing)]
    + t[Confusion(e, NotPresent)] + t[Confusion(e, NotApplicable)]
  }

  function Diagonal(t: multiset<FieldMark>): nat {
    t[Confusion(Present, Present)] + t[Confusion(Blank, Blank)] + t[Confusion(Missing, Missing)]
    + t[Confusion(NotPresent, NotPresent)] + t[Confusion(NotApplicable, NotApplicable)]
  }

  function PredictedTotal(t: multiset<FieldMark>): nat {
    t[PredictedState(Present)] + t[PredictedState(Blank)] + t[PredictedState(Missing)]
    + t[PredictedState(NotPresent)] + t[PredictedState(NotApplicable)]
  }

  function ExpectedTotal(t: multiset<TotalMark>): nat {
    t[ExpectedState(Present)] + t[ExpectedState(Blank)] + t[ExpectedState(Missing)]
    + t[ExpectedState(NotPresent)] + t[ExpectedState(NotApplicable)]
  }

  ghost function InState(s: Schedule, keys: set<FieldKey>, e: State): set<FieldKey> {
    set k | k in keys && k in s.expected && s.expected[k].state == e
  }

  ghost function CitedIn(s: Schedule, keys: set<FieldKey>): set<FieldKey> {
    set k | k in keys && k in s.expected && s.expected[k].citation.Some?
  }

  lemma {:induction false} OneMoreInState(s: Schedule, keys: set<FieldKey>, k: FieldKey, e: State)
    requires k !in keys && k in s.expected
    ensures |InState(s, keys + {k}, e)| == |InState(s, keys, e)| + (if s.expected[k].state == e then 1 else 0)
  {
    if s.expected[k].state == e {
      assert InState(s, keys + {k}, e) == InState(s, keys, e) + {k};
    } else {
      assert InState(s, keys + {k}, e) == InState(s, keys, e);
    }
  }

  lemma {:induction false} OneMoreCited(s: Schedule, keys: set<FieldKey>, k: FieldKey)
    requires k !in keys && k in s.expected
    ensures |CitedIn(s, keys + {k})| == |CitedIn(s, keys)| + (if s.expected[k].citation.Some? then 1 else 0)
  {
    if s.expected[k].citation.Some? {
      assert CitedIn(s, keys + {k}) == CitedIn(s, keys) + {k};
    } else {
      assert CitedIn(s, keys + {k}) == CitedIn(s, keys);
    }
  }

  lemma {:induction false} OneMore(s: Schedule, keys: set<FieldKey>, k: FieldKey, e: State)
    requires k !in keys && k in s.expected
    ensures |InState(s, keys + {k}, e)| == |InState(s, keys, e)| + (if s.expected[k].state == e then 1 else 0)
    ensures |CitedIn(s, keys + {k})| == |CitedIn(s, keys)| + (if s.expected[k].citation.Some? then 1 else 0)
  {
    OneMoreInState(s, keys, k, e);
    OneMoreCited(s, keys, k);
  }

  // ---------------------------------------------------------------------- predictions

  ghost predicate KeysOk(s: Schedule, seen: set<FieldKey>, correct: set<FieldKey>) {
    correct <= seen && forall k :: k in seen ==> k in s.expected
  }

  ghost predicate MatchLaws(t: multiset<FieldMark>, seen: set<FieldKey>) {
    && t[Prediction] == t[IdentityMatch] + t[UnknownField] + t[DuplicatePrediction]
    && t[Prediction] == PredictedTotal(t)
    && t[IdentityMatch] == |seen|
  }

  ghost predicate VerdictLaws(t: multiset<FieldMark>, seen: set<FieldKey>, correct: set<FieldKey>) {
    && t[StateCorrect] + t[StateMismatch] == |seen|
    && t[TypeCorrect] + t[TypeMismatch] == |seen|
    && t[ValueCorrect] + t[ValueMismatch] == |seen|
    && |correct| <= t[TypeCorrect]
    && |correct| <= t[ValueCorrect] <= t[StateCorrect]
    && Diagonal(t) == t[StateCorrect]
  }

  ghost predicate SourceLaws(s: Schedule, t: multiset<FieldMark>, seen: set<FieldKey>) {
    && t[SourceCorrect] + t[SourceMismatch] == |CitedIn(s, seen)|
    && t[LocalizationCorrect] + t[LocalizationMismatch] == (if s.policy.minimumIou.Some? then |CitedIn(s, seen)| else 0)
    && t[LocalizationCorrect] <= t[SourceCorrect]
  }

  ghost predicate RowLaw(s: Schedule, t: multiset<FieldMark>, seen: set<FieldKey>, e: State) {
    Row(t, e) == |InState(s, seen, e)|
  }

  ghost predicate FieldLaws(s: Schedule, t: multiset<FieldMark>, seen: set<FieldKey>, correct: set<FieldKey>) {
    && KeysOk(s, seen, correct)
    && MatchLaws(t, seen)
    && VerdictLaws(t, seen, correct)
    && SourceLaws(s, t, seen)
    && forall e :: RowLaw(s, t, seen, e)
  }

  function Bit(b: bool): nat {
    if b then 1 else 0
  }

  lemma {:induction false} SumsAdd(a: multiset<FieldMark>, b: multiset<FieldMark>, e: State)
    ensures Row(a + b, e) == Row(a, e) + Row(b, e)
    ensures Diagonal(a + b) == Diagonal(a) + Diagonal(b)
    ensures PredictedTotal(a + b) == PredictedTotal(a) + PredictedTotal(b)
  {
  }

  /** The outcome of comparing one prediction, as the scorer's flags. */
  datatype Flags = Flags(state: bool, typed: bool, valued: bool, cited: bool, sourced: bool, measured: bool, localized: bool)

  function FlagsOf(e: Expected, a: Observed, declared: seq<Shape>, policy: Policy): Flags {
    Flags(e.state == a.state, TypeMatch(e, a, declared, policy), ValueMatch(e, a, policy),
          e.citation.Some?, SourceOk(e, a), policy.minimumIou.Some?, Localized(e, a, policy))
  }

  predicate Verdicts(d: multiset<FieldMark>, sc: nat, sm: nat, tc: nat, tm: nat, vc: nat, vm: nat) {
    && d[StateCorrect] == sc && d[StateMismatch] == sm
    && d[TypeCorrect] == tc && d[TypeMismatch] == tm
    && d[ValueCorrect] == vc && d[ValueMismatch] == vm
  }

  predicate Sources(d: multiset<FieldMark>, sc: nat, sm: nat, lc: nat, lm: nat) {
    && d[SourceCorrect] == sc && d[SourceMismatch] == sm
    && d[LocalizationCorrect] == lc && d[LocalizationMismatch] == lm
  }

  /** The prediction counters, with the sums over states. */
  predicate Matches(d: multiset<FieldMark>, prediction: nat, matched: nat, diagonal: nat) {
    && d[Prediction] == prediction && d[IdentityMatch] == matched && d[UnknownField] == d[DuplicatePrediction] == 0
    && PredictedTotal(d) == prediction && Diagonal(d) == diagonal
  }

  predicate RowIs(d: multiset<FieldMark>, x: State, n: nat) {
    Row(d, x) == n
  }

  /** What the marks of one judged prediction contribute. */
  predicate Contributes(d: multiset<FieldMark>, f: Flags) {
    && Matches(d, 1, 1, Bit(f.state))
    && Verdicts(d, Bit(f.state), Bit(!f.state), Bit(f.typed), Bit(!f.typed), Bit(f.valued), Bit(!f.valued))
    && Sources(d, Bit(f.cited && f.sourced), Bit(f.cited && !f.sourced),
               Bit(f.cited && f.measured && f.localized), Bit(f.cited && f.measured && !f.localized))
  }

  lemma {:induction false} FieldMarksCount(e: State, a: State)
    ensures Matches(FieldMarks(e, a), 1, 1, Bit(e == a))
    ensures Verdicts(FieldMarks(e, a), 0, 0, 0, 0, 0, 0) && Sources(FieldMarks(e, a), 0, 0, 0, 0)
  {
  }

  lemma {:induction false} FieldMarksRow(e: State, a: State, x: State)
    ensures RowIs(FieldMarks(e, a), x, Bit(e == x))
  {
  }

  lemma {:induction false} VerdictMarksCount(state: bool, typed: bool, valued: bool)
    ensures Verdicts(VerdictMarks(state, typed, valued), Bit(state), Bit(!state), Bit(typed), Bit(!typed), Bit(valued), Bit(!valued))
    ensures Sources(VerdictMarks(state, typed, valued), 0, 0, 0, 0)
  {
  }

  lemma {:induction false} VerdictMarksRow(state: bool, typed: bool, valued: bool, x: State)
    ensures Matches(VerdictMarks(state, typed, valued), 0, 0, 0)
    ensures RowIs(VerdictMarks(state, typed, valued), x, 0)
  {
  }

  lemma {:induction false} SourceMarksCount(cited: bool, sourced: bool, measured: bool, localized: bool)
    ensures
      Sources(SourceMarks(cited, sourced, measured, localized), Bit(cited && sourced), Bit(cited && !sourced),
              Bit(cited && measured && localized), Bit(cited && measured && !localized))
    ensures Verdicts(SourceMarks(cited, sourced, measured, localized), 0, 0, 0, 0, 0, 0)
  {
  }

  lemma {:induction false} SourceMarksRow(cited: bool, sourced: bool, measured: bool, localized: bool, x: State)
    ensures Matches(SourceMarks(cited, sourced, measured, localized), 0, 0, 0)
    ensures RowIs(SourceMarks(cited, sourced, measured, localized), x, 0)
  {
  }

  lemma {:induction false} JudgementContributes(e: Expected, a: Observed, declared: seq<Shape>, policy: Policy, x: State)
    ensures Contributes(Marks(e, a, declared, policy), FlagsOf(e, a, declared, policy))
    ensures RowIs(Marks(e, a, declared, policy), x, Bit(e.state == x))
  {
    var f := FlagsOf(e, a, declared, policy);
    FieldMarksCount(e.state, a.state);
    FieldMarksRow(e.state, a.state, x);
    VerdictMarksCount(f.state, f.typed, f.valued);
    VerdictMarksRow(f.state, f.typed, f.valued, x);
    SourceMarksCount(f.cited, f.sourced, f.measured, f.localized);
    SourceMarksRow(f.cited, f.sourced, f.measured, f.localized, x);
    Combine(FieldMarks(e.state, a.state), VerdictMarks(f.state, f.typed, f.valued),
            SourceMarks(f.cited, f.sourced, f.measured, f.localized), f, x, Bit(e.state == x));
  }

  lemma {:induction false} Combine(m: multiset<FieldMark>, v: multiset<FieldMark>, c: multiset<FieldMark>, f: Flags, x: State, n: nat)
    requires Matches(m, 1, 1, Bit(f.state)) && Verdicts(m, 0, 0, 0, 0, 0, 0) && Sources(m, 0, 0, 0, 0) && RowIs(m, x, n)
    requires Matches(v, 0, 0, 0) && Sources(v, 0, 0, 0, 0) && RowIs(v, x, 0)
    requires Verdicts(v, Bit(f.state), Bit(!f.state), Bit(f.typed), Bit(!f.typed), Bit(f.valued), Bit(!f.valued))
    requires Matches(c, 0, 0, 0) && Verdicts(c, 0, 0, 0, 0, 0, 0) && RowIs(c, x, 0)
    requires Sources(c, Bit(f.cited && f.sourced), Bit(f.cited && !f.sourced),
                     Bit(f.cited && f.measured && f.localized), Bit(f.cited && f.measured && !f.localized))
    ensures Contributes(m + v + c, f) && RowIs(m + v + c, x, n)
  {
    Together(m, v, c, x);
  }

  lemma {:induction false} Together(a: multiset<FieldMark>, b: multiset<FieldMark>, c: multiset<FieldMark>, x: State)
    ensures Row(a + b + c, x) == Row(a, x) + Row(b, x) + Row(c, x)
    ensures Diagonal(a + b + c) == Diagonal(a) + Diagonal(b) + Diagonal(c)
    ensures PredictedTotal(a + b + c) == PredictedTotal(a) + PredictedTotal(b) + PredictedTotal(c)
  {
    SumsAdd(a, b, x);
    SumsAdd(a + b, c, x);
  }

  predicate RowFor(d: multiset<FieldMark>, e: State, x: State) {
    RowIs(d, x, Bit(e == x))
  }

  /** A correct field has the right type and value, a right value the right state, and what is
      localized is cited. */
  ghost predicate Coherent(f: Flags, right: bool) {
    (right ==> f.typed && f.valued) && (f.valued ==> f.state) && (f.localized ==> f.sourced)
  }

  lemma {:induction false} MatchedKeeps(
    s: Schedule, t: multiset<FieldMark>, seen: set<FieldKey>, correct: set<FieldKey>,
    key: FieldKey, f: Flags, right: bool, d: multiset<FieldMark>)
    requires FieldLaws(s, t, seen, correct) && key !in seen && key in s.expected
    requires Contributes(d, f) && Coherent(f, right)
    requires f.cited == s.expected[key].citation.Some? && f.measured == s.policy.minimumIou.Some?
    requires forall x :: RowFor(d, s.expected[key].state, x)
    ensures FieldLaws(s, t + d, seen + {key}, if right then correct + {key} else correct)
  {
    SumsAdd(t, d, Present);
    OneMore(s, seen, key, Present);
    forall x ensures RowLaw(s, t + d, seen + {key}, x) {
      SumsAdd(t, d, x);
      OneMore(s, seen, key, x);
      assert RowLaw(s, t, seen, x) && RowFor(d, s.expected[key].state, x);
    }
  }

  lemma {:induction false} UnmatchedRow(s: Schedule, t: multiset<FieldMark>, seen: set<FieldKey>, m: FieldMark, a: State, x: State)
    requires RowLaw(s, t, seen, x) && (m == UnknownField || m == DuplicatePrediction)
    ensures RowLaw(s, t + multiset{Prediction, PredictedState(a), m}, seen, x)
  {
    var d := multiset{Prediction, PredictedState(a), m};
    SumsAdd(t, d, x);
    assert Row(d, x) == 0;
  }

  lemma {:induction false} UnmatchedSums(m: FieldMark, a: State)
    requires m == UnknownField || m == DuplicatePrediction
    ensures var d := multiset{Prediction, PredictedState(a), m};
            PredictedTotal(d) == 1 && Diagonal(d) == 0
  {
  }

  lemma {:induction false} UnmatchedMatches(t: multiset<FieldMark>, seen: set<FieldKey>, m: FieldMark, a: State)
    requires MatchLaws(t, seen) && (m == UnknownField || m == DuplicatePrediction)
    ensures MatchLaws(t + multiset{Prediction, PredictedState(a), m}, seen)
  {
    SumsAdd(t, multiset{Prediction, PredictedState(a), m}, Present);
    UnmatchedSums(m, a);
  }

  lemma {:induction false} UnmatchedVerdicts(
    s: Schedule, t: multiset<FieldMark>, seen: set<FieldKey>, correct: set<FieldKey>, m: FieldMark, a: State)
    requires VerdictLaws(t, seen, correct) && SourceLaws(s, t, seen)
    requires m == UnknownField || m == DuplicatePrediction
    ensures var u := t + multiset{Prediction, PredictedState(a), m};
            VerdictLaws(u, seen, correct) && SourceLaws(s, u, seen)
  {
    SumsAdd(t, multiset{Prediction, PredictedState(a), m}, Present);
    UnmatchedSums(m, a);
  }

  /** A prediction for no field, or for a field already predicted. */
  lemma {:induction false} UnmatchedKeeps(
    s: Schedule, t: multiset<FieldMark>, seen: set<FieldKey>, correct: set<FieldKey>, m: FieldMark, a: State)
    requires FieldLaws(s, t, seen, correct) && (m == UnknownField || m == DuplicatePrediction)
    ensures FieldLaws(s, t + multiset{Prediction, PredictedState(a), m}, seen, correct)
  {
    UnmatchedMatches(t, seen, m, a);
    UnmatchedVerdicts(s, t, seen, correct, m, a);
    forall x ensures RowLaw(s, t + multiset{Prediction, PredictedState(a), m}, seen, x) {
      UnmatchedRow(s, t, seen, m, a, x);
    }
  }

  ghost predicate FieldsOk(s: Schedule, p: Progress) {
    FieldLaws(s, p.score.fields, p.seen, p.correct)
  }

  lemma {:induction false} JudgeKeeps(s: Schedule, caseId: nat, declared: seq<Declaration>, a: Observed, p: Progress)
    requires FieldsOk(s, p)
    ensures FieldsOk(s, Judge(s, caseId, declared, a, p))
  {
    var key := FieldKey(caseId, a.slot);
    var t := p.score.fields;
    if key !in s.expected {
      UnmatchedKeeps(s, t, p.seen, p.correct, UnknownField, a.state);
    } else if key in p.seen {
      UnmatchedKeeps(s, t, p.seen, p.correct, DuplicatePrediction, a.state);
    } else {
      var e, shapes := s.expected[key], DeclaredAs(declared, a.slot);
      var d := Marks(e, a, shapes, s.policy);
      JudgementContributes(e, a, shapes, s.policy, Present);
      forall x ensures RowFor(d, e.state, x) {
        JudgementContributes(e, a, shapes, s.policy, x);
      }
      MatchedKeeps(s, t, p.seen, p.correct, key, FlagsOf(e, a, shapes, s.policy), FieldCorrect(e, a, shapes, s.policy), d);
    }
  }

  /** Judging predictions touches the field counters and nothing else. */
  lemma {:induction false} JudgeAllKeeps(s: Schedule, caseId: nat, declared: seq<Declaration>, observed: seq<Observed>, p: Progress)
    requires FieldsOk(s, p)
    ensures FieldsOk(s, JudgeAll(s, caseId, declared, observed, p))
    ensures
      var q := JudgeAll(s, caseId, declared, observed, p);
      q.score == p.score.(fields := q.score.fields) && q.review == p.review
  {
    if observed != [] {
      var front := observed[..|observed| - 1];
      JudgeAllKeeps(s, caseId, declared, front, p);
      JudgeKeeps(s, caseId, declared, observed[|observed| - 1], JudgeAll(s, caseId, declared, front, p));
    }
  }

  // ---------------------------------------------------------------------------- pages

  /** After `a` pages with an outcome and `b` without. */
  ghost predicate PageLaws(t: multiset<PageMark>, a: nat, b: nat) {
    && t[CandidatePage] + t[FailedPage] == a + t[RunnerErrorPage]
    && t[RunnerErrorPage] <= b
    && t[RefusedPage] <= t[FailedPage] <= t[HandoffPage] + t[RunnerErrorPage]
    && t[HandoffPage] <= a
    && b + t[HandoffPage] <= t[ReviewPage] <= a + b
  }

  predicate Untouched(t: multiset<PageMark>, u: multiset<PageMark>) {
    u[ScheduledPage] == t[ScheduledPage] && u[ObservedPage] == t[ObservedPage] && u[MissingPage] == t[MissingPage]
  }

  lemma {:induction false} MissingStep(t: multiset<PageMark>, a: nat, b: nat, failed: bool, refused: bool)
    requires PageLaws(t, a, b) && (refused ==> failed)
    ensures PageLaws(t + MissingMarks(failed, refused), a, b + 1)
    ensures Untouched(t, t + MissingMarks(failed, refused))
  {
  }

  lemma {:induction false} PresentStep(t: multiset<PageMark>, a: nat, b: nat, candidate: bool, refused: bool, handoff: bool, review: bool)
    requires PageLaws(t, a, b) && (refused ==> !candidate) && (!candidate ==> handoff) && (handoff ==> review)
    ensures PageLaws(t + PageMarks(candidate, refused, handoff, review), a + 1, b)
    ensures Untouched(t, t + PageMarks(candidate, refused, handoff, review))
  {
  }

  function CountPresent(pages: seq<PageKey>, outcomes: map<PageKey, Outcome>): (n: nat)
    ensures n <= |pages|
  {
    if pages == [] then 0
    else CountPresent(pages[..|pages| - 1], outcomes) + (if pages[|pages| - 1] in outcomes then 1 else 0)
  }

  lemma {:induction false} Without(outcomes: map<PageKey, Outcome>, key: PageKey) returns (rest: map<PageKey, Outcome>)
    ensures rest == outcomes - {key}
    ensures |outcomes| == |rest| + Bit(key in outcomes)
  {
    rest := outcomes - {key};
    assert outcomes.Keys - {key} == rest.Keys;
    assert |outcomes.Keys| == |outcomes| && |rest.Keys| == |rest|;
  }

  /** Each recorded outcome is of exactly one scheduled page. */
  lemma {:induction false} PresentIsObserved(pages: seq<PageKey>, outcomes: map<PageKey, Outcome>)
    requires NoDuplicates(pages) && forall k :: k in outcomes ==> k in pages
    ensures CountPresent(pages, outcomes) == |outcomes|
  {
    if pages == [] {
      assert outcomes == map[];
    } else {
      var front, last := pages[..|pages| - 1], pages[|pages| - 1];
      var rest := Without(outcomes, last);
      PresentIsObserved(front, rest);
      SamePresence(front, outcomes, rest);
    }
  }

  lemma {:induction false} SamePresence(pages: seq<PageKey>, a: map<PageKey, Outcome>, b: map<PageKey, Outcome>)
    requires forall i :: 0 <= i < |pages| ==> (pages[i] in a <==> pages[i] in b)
    ensures CountPresent(pages, a) == CountPresent(pages, b)
  {
    if pages != [] {
      SamePresence(pages[..|pages| - 1], a, b);
    }
  }

  /** Cases the page loop must have flagged. */
  ghost predicate PagesFlagged(r: Repeat, pages: seq<PageKey>, review: set<nat>) {
    forall i :: 0 <= i < |pages| && pages[i] in r.outcomes && NeedsReview(r.outcomes[pages[i]]) ==> pages[i].caseId in review
  }

  ghost predicate FlagsAreCases(s: Schedule, review: set<nat>) {
    forall c :: c in review ==> c in s.cases
  }

  /** Nothing outside the page and field counters moves, and flags only grow. */
  ghost predicate PageFrame(s: Schedule, p: Progress, q: Progress) {
    && Untouched(p.score.pages, q.score.pages)
    && q.score.cases == p.score.cases && q.score.totals == p.score.totals
    && p.review <= q.review && FlagsAreCases(s, q.review)
  }

  lemma {:induction false} MarkMissingKeeps(s: Schedule, r: Repeat, key: PageKey, p: Progress, a: nat, b: nat)
    requires PageLaws(p.score.pages, a, b) && FlagsAreCases(s, p.review)
    ensures PageFrame(s, p, MarkMissing(r, key, p)) && PageLaws(MarkMissing(r, key, p).score.pages, a, b + 1)
  {
    MissingStep(p.score.pages, a, b, key in r.errors, key in r.errors && r.errors[key].Refused?);
  }

  lemma {:induction false} MarkPresentKeeps(s: Schedule, o: Outcome, key: PageKey, p: Progress, a: nat, b: nat)
    requires PageLaws(p.score.pages, a, b) && FlagsAreCases(s, p.review) && ValidOutcome(o) && key.caseId in s.cases
    ensures
      var q := MarkPresent(o, key, p);
      PageFrame(s, p, q) && PageLaws(q.score.pages, a + 1, b) && (NeedsReview(o) ==> key.caseId in q.review)
  {
    PresentStep(p.score.pages, a, b, o.candidate, o.failure == Some(Refused), o.handoffs != [], NeedsReview(o));
  }

  lemma {:induction false} ScorePageKeeps(s: Schedule, r: Repeat, key: PageKey, p: Progress, a: nat, b: nat) returns (q: Progress)
    requires ValidSchedule(s) && ValidRepeat(s, r) && key in s.pages
    requires FieldsOk(s, p) && PageLaws(p.score.pages, a, b) && FlagsAreCases(s, p.review)
    ensures q == ScorePage(s, r, key, p)
    ensures FieldsOk(s, q) && PageFrame(s, p, q)
    ensures PageLaws(q.score.pages, a + Bit(key in r.outcomes), b + Bit(key !in r.outcomes))
    ensures key in r.outcomes && NeedsReview(r.outcomes[key]) ==> key.caseId in q.review
  {
    if key !in r.outcomes {
      MarkMissingKeeps(s, r, key, p, a, b);
      q := MarkMissing(r, key, p);
    } else {
      var o := r.outcomes[key];
      MarkPresentKeeps(s, o, key, p, a, b);
      var marked := MarkPresent(o, key, p);
      q := marked;
      if o.proposal.Some? {
        JudgeAllKeeps(s, key.caseId, o.proposal.value.declared, o.proposal.value.observed, marked);
        q := JudgeAll(s, key.caseId, o.proposal.value.declared, o.proposal.value.observed, marked);
      }
    }
  }

  lemma {:induction false} FlagOneMore(r: Repeat, pages: seq<PageKey>, before: set<nat>, review: set<nat>)
    requires pages != [] && PagesFlagged(r, pages[..|pages| - 1], before) && before <= review
    requires
      var key := pages[|pages| - 1];
      key in r.outcomes && NeedsReview(r.outcomes[key]) ==> key.caseId in review
    ensures PagesFlagged(r, pages, review)
  {
    forall i | 0 <= i < |pages| && pages[i] in r.outcomes && NeedsReview(r.outcomes[pages[i]])
      ensures pages[i].caseId in review
    {
      if i < |pages| - 1 {
        assert pages[..|pages| - 1][i] == pages[i];
      }
    }
  }

  lemma {:induction false} FrameOneMore(s: Schedule, p: Progress, mid: Progress, q: Progress)
    requires PageFrame(s, p, mid) && PageFrame(s, mid, q)
    ensures PageFrame(s, p, q)
  {
  }

  lemma {:induction false} ScorePagesKeeps(s: Schedule, r: Repeat, pages: seq<PageKey>, p: Progress) returns (q: Progress)
    requires ValidSchedule(s) && ValidRepeat(s, r) && forall k :: k in pages ==> k in s.pages
    requires FieldsOk(s, p) && PageLaws(p.score.pages, 0, 0) && FlagsAreCases(s, p.review)
    ensures q == ScorePages(s, r, pages, p)
    ensures FieldsOk(s, q) && PageFrame(s, p, q) && PagesFlagged(r, pages, q.review)
    ensures PageLaws(q.score.pages, CountPresent(pages, r.outcomes), |pages| - CountPresent(pages, r.outcomes))
  {
    if pages == [] {
      q := p;
    } else {
      var front, last := pages[..|pages| - 1], pages[|pages| - 1];
      var mid := ScorePagesKeeps(s, r, front, p);
      var n := CountPresent(front, r.outcomes);
      q := ScorePageKeeps(s, r, last, mid, n, |front| - n);
      FrameOneMore(s, p, mid, q);
      FlagOneMore(r, pages, mid.review, q.review);
    }
  }

  // ---------------------------------------------------------------------------- cases

  function CandidateCases(s: Schedule, r: Repeat, cases: seq<nat>): nat {
    if cases == [] then 0
    else
      var c := cases[|cases| - 1];
      CandidateCases(s, r, cases[..|cases| - 1]) + (if Complete(s, r, c) && AllCandidates(s, r, c) then 1 else 0)
  }

  ghost predicate CaseLaws(t: multiset<CaseMark>, n: nat) {
    && t[ObservedCase] + t[MissingCase] == n
    && t[AllCandidateCase] <= t[CompleteCase] <= n
  }

  lemma {:induction false} OpenStep(t: multiset<CaseMark>, n: nat, any: bool, complete: bool, candidates: bool)
    requires CaseLaws(t, n)
    ensures
      var u := t + OpenMarks(any, complete, candidates);
      && CaseLaws(u, n + 1)
      && u[AllCandidateCase] == t[AllCandidateCase] + Bit(complete && candidates)
      && u[ScheduledCase] == t[ScheduledCase] && u[FullyCorrectCase] == t[FullyCorrectCase] && u[ReviewCase] == t[ReviewCase]
  {
  }

  ghost predicate IncompleteFlagged(s: Schedule, r: Repeat, cases: seq<nat>, review: set<nat>) {
    forall i :: 0 <= i < |cases| && !Complete(s, r, cases[i]) ==> cases[i] in review
  }

  lemma {:induction false} OpenCasesKeeps(s: Schedule, r: Repeat, cases: seq<nat>, p: Progress) returns (q: Progress)
    requires CaseLaws(p.score.cases, 0) && FlagsAreCases(s, p.review) && forall c :: c in cases ==> c in s.cases
    ensures q == OpenCases(s, r, cases, p)
    ensures q == p.(score := p.score.(cases := q.score.cases), review := q.review)
    ensures CaseLaws(q.score.cases, |cases|)
    ensures q.score.cases[AllCandidateCase] == p.score.cases[AllCandidateCase] + CandidateCases(s, r, cases)
    ensures q.score.cases[ScheduledCase] == p.score.cases[ScheduledCase]
    ensures q.score.cases[FullyCorrectCase] == p.score.cases[FullyCorrectCase]
    ensures q.score.cases[ReviewCase] == p.score.cases[ReviewCase]
    ensures p.review <= q.review && FlagsAreCases(s, q.review) && IncompleteFlagged(s, r, cases, q.review)
  {
    if cases == [] {
      q := p;
    } else {
      var front, c := cases[..|cases| - 1], cases[|cases| - 1];
      var mid := OpenCasesKeeps(s, r, front, p);
      var any, complete, candidates := AnyOutcome(s, r, c), Complete(s, r, c), AllCandidates(s, r, c);
      OpenStep(mid.score.cases, |front|, any, complete, candidates);
      q := mid.AddCases(OpenMarks(any, complete, candidates)).Flag(!complete, c);
      IncompleteOneMore(s, r, cases, mid.review, q.review);
    }
  }

  lemma {:induction false} IncompleteOneMore(s: Schedule, r: Repeat, cases: seq<nat>, before: set<nat>, review: set<nat>)
    requires cases != [] && IncompleteFlagged(s, r, cases[..|cases| - 1], before) && before <= review
    requires !Complete(s, r, cases[|cases| - 1]) ==> cases[|cases| - 1] in review
    ensures IncompleteFlagged(s, r, cases, review)
  {
    forall i | 0 <= i < |cases| && !Complete(s, r, cases[i]) ensures cases[i] in review {
      if i < |cases| - 1 {
        assert cases[..|cases| - 1][i] == cases[i];
      }
    }
  }

  ghost predicate WrongFlagged(s: Schedule, cases: seq<nat>, correct: set<FieldKey>, review: set<nat>) {
    forall i :: 0 <= i < |cases| && !CaseCorrect(s, cases[i], correct) ==> cases[i] in review
  }

  /** What closing cases may do: count fully correct ones, at most `candidates`, and flag cases. */
  ghost predicate ClosedFrom(s: Schedule, p: Progress, q: Progress, candidates: nat) {
    && q == p.(score := p.score.(cases := q.score.cases), review := q.review)
    && p.score.cases[FullyCorrectCase] <= q.score.cases[FullyCorrectCase] <= p.score.cases[FullyCorrectCase] + candidates
    && (forall m :: m != FullyCorrectCase ==> q.score.cases[m] == p.score.cases[m])
    && p.review <= q.review && FlagsAreCases(s, q.review)
  }

  lemma {:induction false} CloseCaseKeeps(s: Schedule, r: Repeat, c: nat, p: Progress) returns (q: Progress)
    requires FlagsAreCases(s, p.review) && c in s.cases
    ensures q == CloseCase(s, r, c, p)
    ensures ClosedFrom(s, p, q, if Complete(s, r, c) && AllCandidates(s, r, c) then 1 else 0)
    ensures CaseCorrect(s, c, p.correct) || c in q.review
  {
    q := CloseCase(s, r, c, p);
  }

  lemma {:induction false} ClosedFurther(s: Schedule, p: Progress, mid: Progress, q: Progress, m: nat, n: nat)
    requires ClosedFrom(s, p, mid, m) && ClosedFrom(s, mid, q, n)
    ensures ClosedFrom(s, p, q, m + n)
  {
  }

  lemma {:induction false} CloseCasesKeeps(s: Schedule, r: Repeat, cases: seq<nat>, p: Progress) returns (q: Progress)
    requires FlagsAreCases(s, p.review) && forall c :: c in cases ==> c in s.cases
    ensures q == CloseCases(s, r, cases, p)
    ensures ClosedFrom(s, p, q, CandidateCases(s, r, cases))
    ensures WrongFlagged(s, cases, p.correct, q.review)
  {
    if cases == [] {
      q := p;
    } else {
      var front, c := cases[..|cases| - 1], cases[|cases| - 1];
      var mid := CloseCasesKeeps(s, r, front, p);
      q := CloseCaseKeeps(s, r, c, mid);
      ClosedFurther(s, p, mid, q, CandidateCases(s, r, front), if Complete(s, r, c) && AllCandidates(s, r, c) then 1 else 0);
      WrongFlaggedMore(s, cases, p.correct, mid.review, q.review);
    }
  }

  lemma {:induction false} WrongFlaggedMore(s: Schedule, cases: seq<nat>, correct: set<FieldKey>, before: set<nat>, review: set<nat>)
    requires cases != [] && WrongFlagged(s, cases[..|cases| - 1], correct, before) && before <= review
    requires CaseCorrect(s, cases[|cases| - 1], correct) || cases[|cases| - 1] in review
    ensures WrongFlagged(s, cases, correct, review)
  {
    forall i | 0 <= i < |cases| && !CaseCorrect(s, cases[i], correct) ensures cases[i] in review {
      assert i < |cases| - 1 ==> cases[..|cases| - 1][i] == cases[i];
    }
  }

  lemma {:induction false} SubsetFits(review: set<nat>, cases: seq<nat>)
    requires forall c :: c in review ==> c in cases
    ensures |review| <= |cases|
  {
    if cases == [] {
      assert review == {};
    } else {
      var front, last := cases[..|cases| - 1], cases[|cases| - 1];
      SubsetFits(review - {last}, front);
    }
  }

  // --------------------------------------------------------------------------- totals

  /** After counting the expected fields in `done`. */
  ghost predicate TotalLaws(s: Schedule, t: multiset<TotalMark>, done: set<FieldKey>) {
    t[ExpectedField] == ExpectedTotal(t) == |done| && t[ExpectedCited] == |CitedIn(s, done)|
  }

  ghost predicate StateLaws(s: Schedule, t: multiset<TotalMark>, done: set<FieldKey>, seen: set<FieldKey>, e: State) {
    t[ExpectedState(e)] == |InState(s, done, e)| && t[Unpredicted(e)] == |InState(s, done - seen, e)|
  }

  lemma {:induction false} CountMarksCount(state: State, cited: bool, unseen: bool, e: State)
    ensures
      var d := CountMarks(state, cited, unseen);
      && d[ExpectedField] == ExpectedTotal(d) == 1 && d[ExpectedCited] == Bit(cited)
      && d[CorrectField] == d[MissingPrediction] == 0
      && d[ExpectedState(e)] == Bit(state == e) && d[Unpredicted(e)] == Bit(unseen && state == e)
  {
  }

  lemma {:induction false} TotalStep(s: Schedule, t: multiset<TotalMark>, done: set<FieldKey>, key: FieldKey, d: multiset<TotalMark>)
    requires TotalLaws(s, t, done) && key !in done && key in s.expected
    requires d[ExpectedField] == ExpectedTotal(d) == 1 && d[ExpectedCited] == Bit(s.expected[key].citation.Some?)
    ensures TotalLaws(s, t + d, done + {key})
  {
    OneMore(s, done, key, Present);
  }

  lemma {:induction false} StateStep(s: Schedule, t: multiset<TotalMark>, done: set<FieldKey>, seen: set<FieldKey>, key: FieldKey, d: multiset<TotalMark>, e: State)
    requires StateLaws(s, t, done, seen, e) && key !in done && key in s.expected
    requires d[ExpectedState(e)] == Bit(s.expected[key].state == e) && d[Unpredicted(e)] == Bit(key !in seen && s.expected[key].state == e)
    ensures StateLaws(s, t + d, done + {key}, seen, e)
  {
    OneMore(s, done, key, e);
    if key in seen {
      assert done + {key} - seen == done - seen;
    } else {
      assert done + {key} - seen == (done - seen) + {key};
      OneMore(s, done - seen, key, e);
    }
  }

  ghost function Members(fields: seq<FieldKey>): set<FieldKey> {
    set k | k in fields
  }

  lemma {:induction false} MembersNext(fields: seq<FieldKey>)
    requires fields != [] && NoDuplicates(fields)
    ensures
      var front, key := fields[..|fields| - 1], fields[|fields| - 1];
      Members(fields) == Members(front) + {key} && key !in Members(front) && NoDuplicates(front)
  {
    var front, key := fields[..|fields| - 1], fields[|fields| - 1];
    assert fields == front + [key];
  }

  lemma {:induction false} CountStep(s: Schedule, t: multiset<TotalMark>, done: set<FieldKey>, seen: set<FieldKey>, key: FieldKey, e: State)
    returns (u: multiset<TotalMark>)
    requires TotalLaws(s, t, done) && StateLaws(s, t, done, seen, e) && key !in done && key in s.expected
    ensures u == t + CountMarks(s.expected[key].state, s.expected[key].citation.Some?, key !in seen)
    ensures TotalLaws(s, u, done + {key}) && StateLaws(s, u, done + {key}, seen, e)
    ensures u[CorrectField] == t[CorrectField] && u[MissingPrediction] == t[MissingPrediction]
  {
    var d := CountMarks(s.expected[key].state, s.expected[key].citation.Some?, key !in seen);
    CountMarksCount(s.expected[key].state, s.expected[key].citation.Some?, key !in seen, e);
    TotalStep(s, t, done, key, d);
    StateStep(s, t, done, seen, key, d, e);
    u := t + d;
  }

  lemma {:induction false} CountFieldsKeeps(s: Schedule, fields: seq<FieldKey>, p: Progress, e: State) returns (q: Progress)
    requires NoDuplicates(fields) && forall k :: k in fields ==> k in s.expected
    requires TotalLaws(s, p.score.totals, {}) && StateLaws(s, p.score.totals, {}, p.seen, e)
    ensures q == CountFields(s, fields, p)
    ensures q == p.(score := p.score.(totals := q.score.totals))
    ensures q.score.totals[CorrectField] == p.score.totals[CorrectField]
    ensures q.score.totals[MissingPrediction] == p.score.totals[MissingPrediction]
    ensures TotalLaws(s, q.score.totals, Members(fields)) && StateLaws(s, q.score.totals, Members(fields), p.seen, e)
  {
    if fields == [] {
      q := p;
      assert Members(fields) == {};
    } else {
      var front, key := fields[..|fields| - 1], fields[|fields| - 1];
      MembersNext(fields);
      var mid := CountFieldsKeeps(s, front, p, e);
      var totals := CountStep(s, mid.score.totals, Members(front), p.seen, key, e);
      q := mid.(score := mid.score.(totals := totals));
    }
  }

  lemma {:induction false} SplitBySeen(s: Schedule, seen: set<FieldKey>, e: State)
    requires forall k :: k in seen ==> k in s.expected
    ensures |InState(s, s.expected.Keys, e)| == |InState(s, seen, e)| + |InState(s, s.expected.Keys - seen, e)|
    ensures |seen| <= |s.expected|
    ensures |CitedIn(s, seen)| <= |CitedIn(s, s.expected.Keys)| <= |s.expected|
  {
    var a, b := InState(s, seen, e), InState(s, s.expected.Keys - seen, e);
    assert InState(s, s.expected.Keys, e) == a + b;
    Bounded(seen, s.expected.Keys);
    Bounded(CitedIn(s, seen), CitedIn(s, s.expected.Keys));
    Bounded(CitedIn(s, s.expected.Keys), s.expected.Keys);
    assert |s.expected.Keys| == |s.expected|;
  }

  lemma {:induction false} Bounded(a: set<FieldKey>, b: set<FieldKey>)
    requires a <= b
    ensures |a| <= |b|
  {
    if a != {} {
      var x :| x in a;
      Bounded(a - {x}, b - {x});
    }
  }

  // ------------------------------------------------------------------------- one repeat

  lemma {:induction false} NothingYet(s: Schedule)
    ensures FieldLaws(s, multiset{}, {}, {})
  {
    forall e ensures RowLaw(s, multiset{}, {}, e) {
      assert InState(s, {}, e) == {};
    }
    assert CitedIn(s, {}) == {};
  }

  lemma {:induction false} HeaderOk(n: nat, a: nat, b: nat, c: nat)
    ensures
      var t := Times(ScheduledPage, n) + Times(ObservedPage, a) + Times(MissingPage, b);
      PageLaws(t, 0, 0) && t[ScheduledPage] == n && t[ObservedPage] == a && t[MissingPage] == b
    ensures
      var t := Times(ScheduledCase, c);
      CaseLaws(t, 0) && t[ScheduledCase] == c && t[AllCandidateCase] == t[FullyCorrectCase] == t[ReviewCase] == 0
  {
  }

  /** What is known when the page loop of a repeat ends. */
  ghost predicate Paged(s: Schedule, r: Repeat, q: Progress) {
    && |r.outcomes| <= |s.pages|
    && FieldsOk(s, q)
    && PageLaws(q.score.pages, |r.outcomes|, |s.pages| - |r.outcomes|)
    && q.score.pages[ScheduledPage] == |s.pages|
    && q.score.pages[ObservedPage] == |r.outcomes| && q.score.pages[MissingPage] == |s.pages| - |r.outcomes|
    && CaseLaws(q.score.cases, |s.cases|) && q.score.cases[ScheduledCase] == |s.cases|
    && q.score.cases[AllCandidateCase] == CandidateCases(s, r, s.cases)
    && q.score.cases[FullyCorrectCase] == q.score.cases[ReviewCase] == 0
    && q.score.totals == multiset{}
    && FlagsAreCases(s, q.review) && PagesFlagged(r, s.pages, q.review) && IncompleteFlagged(s, r, s.cases, q.review)
  }

  lemma {:induction false} OpeningOk(s: Schedule, r: Repeat) returns (p: Progress)
    requires |r.outcomes| <= |s.pages|
    ensures p == Opening(s, r) && FieldsOk(s, p)
    ensures PageLaws(p.score.pages, 0, 0) && p.score.totals == multiset{} && p.review == {}
    ensures CaseLaws(p.score.cases, 0) && p.score.cases[ScheduledCase] == |s.cases|
    ensures p.score.cases[AllCandidateCase] == p.score.cases[FullyCorrectCase] == p.score.cases[ReviewCase] == 0
    ensures
      var t := p.score.pages;
      t[ScheduledPage] == |s.pages| && t[ObservedPage] == |r.outcomes| && t[MissingPage] == |s.pages| - |r.outcomes|
  {
    NothingYet(s);
    HeaderOk(|s.pages|, |r.outcomes|, |s.pages| - |r.outcomes|, |s.cases|);
    p := Opening(s, r);
  }

  lemma {:induction false} OpenedOk(s: Schedule, r: Repeat) returns (begun: Progress)
    requires ValidSchedule(s) && ValidRepeat(s, r)
    ensures |r.outcomes| <= |s.pages| && CountPresent(s.pages, r.outcomes) == |r.outcomes|
    ensures begun == OpenCases(s, r, s.cases, Opening(s, r))
    ensures FieldsOk(s, begun) && PageLaws(begun.score.pages, 0, 0) && begun.score.totals == multiset{}
    ensures begun.score.pages == Opening(s, r).score.pages
    ensures CaseLaws(begun.score.cases, |s.cases|) && begun.score.cases[ScheduledCase] == |s.cases|
    ensures begun.score.cases[AllCandidateCase] == CandidateCases(s, r, s.cases)
    ensures begun.score.cases[FullyCorrectCase] == begun.score.cases[ReviewCase] == 0
    ensures FlagsAreCases(s, begun.review) && IncompleteFlagged(s, r, s.cases, begun.review)
  {
    PresentIsObserved(s.pages, r.outcomes);
    var p := OpeningOk(s, r);
    begun := OpenCasesKeeps(s, r, s.cases, p);
  }

  lemma {:induction false} AfterPagesOk(s: Schedule, r: Repeat) returns (q: Progress)
    requires ValidSchedule(s) && ValidRepeat(s, r)
    ensures |r.outcomes| <= |s.pages| && q == AfterPages(s, r)
    ensures Paged(s, r, q) && |q.seen| <= |s.expected|
  {
    var begun := OpenedOk(s, r);
    var p := OpeningOk(s, r);
    q := ScorePagesKeeps(s, r, s.pages, begun);
    SeenFits(s, q);
    StillFlagged(s, r, begun.review, q.review);
  }

  lemma {:induction false} SeenFits(s: Schedule, q: Progress)
    requires FieldsOk(s, q)
    ensures |q.seen| <= |s.expected|
  {
    SplitBySeen(s, q.seen, Present);
  }

  lemma {:induction false} StillFlagged(s: Schedule, r: Repeat, before: set<nat>, review: set<nat>)
    requires IncompleteFlagged(s, r, s.cases, before) && before <= review
    ensures IncompleteFlagged(s, r, s.cases, review)
  {
  }

  lemma {:induction false} RepeatFits(s: Schedule, r: Repeat)
    requires ValidSchedule(s) && ValidRepeat(s, r)
    ensures |r.outcomes| <= |s.pages| && |AfterPages(s, r).seen| <= |s.expected|
  {
    var q := AfterPagesOk(s, r);
  }

  function ScoreRepeat(s: Schedule, r: Repeat): Progress
    requires ValidSchedule(s) && ValidRepeat(s, r)
  {
    RepeatFits(s, r);
    Closing(s, r, CountFields(s, s.fields, Totals(s, AfterPages(s, r))))
  }

  // -------------------------------------------------------------------------- the laws

  /** The row of the confusion table for expected state `e`, with its "no prediction" column. */
  function ConfusionRow(x: Score, e: State): nat {
    Row(x.fields, e) + x.totals[Unpredicted(e)]
  }

  ghost predicate PredictionsConserved(x: Score) {
    && x.fields[Prediction] == x.fields[IdentityMatch] + x.fields[UnknownField] + x.fields[DuplicatePrediction]
    && x.fields[Prediction] == PredictedTotal(x.fields)
    && x.totals[ExpectedField] == x.fields[IdentityMatch] + x.totals[MissingPrediction]
    && x.totals[ExpectedField] == ExpectedTotal(x.totals)
  }

  ghost predicate VerdictsConserved(x: Score) {
    && x.fields[StateCorrect] + x.fields[StateMismatch] == x.fields[IdentityMatch]
    && x.fields[TypeCorrect] + x.fields[TypeMismatch] == x.fields[IdentityMatch]
    && x.fields[ValueCorrect] + x.fields[ValueMismatch] == x.fields[IdentityMatch]
    && x.totals[CorrectField] <= x.fields[TypeCorrect]
    && x.totals[CorrectField] <= x.fields[ValueCorrect] <= x.fields[StateCorrect]
    && Diagonal(x.fields) == x.fields[StateCorrect]
    && x.fields[SourceCorrect] + x.fields[SourceMismatch] <= x.totals[ExpectedCited] <= x.totals[ExpectedField]
    && x.fields[LocalizationCorrect] <= x.fields[SourceCorrect]
  }

  ghost predicate RowConserved(x: Score, e: State) {
    ConfusionRow(x, e) == x.totals[ExpectedState(e)]
  }

  ghost predicate PagesConserved(t: multiset<PageMark>) {
    t[ScheduledPage] == t[ObservedPage] + t[MissingPage] && PageLaws(t, t[ObservedPage], t[MissingPage])
  }

  ghost predicate CasesConserved(t: multiset<CaseMark>) {
    && CaseLaws(t, t[ScheduledCase])
    && t[FullyCorrectCase] <= t[AllCandidateCase]
    && t[ReviewCase] <= t[ScheduledCase]
  }

  ghost predicate Laws(x: Score) {
    && PredictionsConserved(x)
    && VerdictsConserved(x)
    && (forall e :: RowConserved(x, e))
    && PagesConserved(x.pages)
    && CasesConserved(x.cases)
  }

  /** The expected side, once every expected field is counted. */
  ghost predicate Counted(s: Schedule, q: Progress, counted: Progress) {
    && counted == q.(score := q.score.(totals := counted.score.totals))
    && TotalLaws(s, counted.score.totals, s.expected.Keys)
    && |q.seen| <= |s.expected|
    && counted.score.totals[CorrectField] == |q.correct|
    && counted.score.totals[MissingPrediction] == |s.expected| - |q.seen|
    && forall e :: StateLaws(s, counted.score.totals, s.expected.Keys, q.seen, e)
  }

  lemma {:induction false} CountedOk(s: Schedule, q: Progress) returns (counted: Progress)
    requires ValidSchedule(s) && q.score.totals == multiset{} && |q.seen| <= |s.expected|
    ensures counted == CountFields(s, s.fields, Totals(s, q)) && Counted(s, q, counted)
  {
    TotalledOk(s, q);
    var p := Totals(s, q);
    counted := CountFieldsKeeps(s, s.fields, p, Present);
    assert Members(s.fields) == s.expected.Keys;
    forall e ensures StateLaws(s, counted.score.totals, s.expected.Keys, q.seen, e) {
      var again := CountFieldsKeeps(s, s.fields, p, e);
    }
  }

  /** Every conservation law of the scorer, for one repeat. */
  lemma {:induction false} RepeatObeysLaws(s: Schedule, r: Repeat)
    requires ValidSchedule(s) && ValidRepeat(s, r)
    ensures Laws(ScoreRepeat(s, r).score)
  {
    var q := AfterPagesOk(s, r);
    var counted := CountedOk(s, q);
    ClosingObeysLaws(s, r, q, counted);
  }

  lemma {:induction false} ClosingObeysLaws(s: Schedule, r: Repeat, q: Progress, counted: Progress)
    requires Paged(s, r, q) && Counted(s, q, counted)
    ensures Laws(Closing(s, r, counted).score)
  {
    var closed := CloseCasesKeeps(s, r, s.cases, counted);
    ClosedObeysLaws(s, r, q, counted, closed);
  }

  lemma {:induction false} ClosedObeysLaws(s: Schedule, r: Repeat, q: Progress, counted: Progress, closed: Progress)
    requires Paged(s, r, q) && Counted(s, q, counted)
    requires closed == counted.(score := counted.score.(cases := closed.score.cases), review := closed.review)
    requires closed.score.cases[FullyCorrectCase] <= CandidateCases(s, r, s.cases)
    requires forall m :: m != FullyCorrectCase ==> closed.score.cases[m] == counted.score.cases[m]
    requires FlagsAreCases(s, closed.review)
    ensures Laws(closed.AddCases(Times(ReviewCase, |closed.review|)).score)
  {
    var x := closed.AddCases(Times(ReviewCase, |closed.review|)).score;
    FieldSideOk(s, q, x);
    forall e ensures RowConserved(x, e) {
      RowSideOk(s, q, x, e);
    }
    SubsetFits(closed.review, s.cases);
    CaseSideOk(counted.score.cases, closed.score.cases, |closed.review|, |s.cases|, CandidateCases(s, r, s.cases));
  }

  lemma {:induction false} CaseSideOk(t: multiset<CaseMark>, u: multiset<CaseMark>, flagged: nat, n: nat, candidates: nat)
    requires CaseLaws(t, n) && t[ScheduledCase] == n && t[AllCandidateCase] == candidates && t[ReviewCase] == 0
    requires forall m :: m != FullyCorrectCase ==> u[m] == t[m]
    requires u[FullyCorrectCase] <= candidates && flagged <= n
    ensures CasesConserved(u + Times(ReviewCase, flagged))
  {
  }

  lemma {:induction false} TotalledOk(s: Schedule, q: Progress)
    requires q.score.totals == multiset{} && |q.seen| <= |s.expected|
    ensures TotalLaws(s, Totals(s, q).score.totals, {})
    ensures forall e :: StateLaws(s, Totals(s, q).score.totals, {}, q.seen, e)
    ensures Totals(s, q).score.totals[CorrectField] == |q.correct|
    ensures Totals(s, q).score.totals[MissingPrediction] == |s.expected| - |q.seen|
  {
    assert CitedIn(s, {}) == {};
    forall e ensures StateLaws(s, Totals(s, q).score.totals, {}, q.seen, e) {
      assert InState(s, {}, e) == {} && InState(s, {} - q.seen, e) == {};
    }
  }

  lemma {:induction false} FieldSideOk(s: Schedule, q: Progress, x: Score)
    requires FieldsOk(s, q) && x.fields == q.score.fields
    requires TotalLaws(s, x.totals, s.expected.Keys)
    requires x.totals[CorrectField] == |q.correct| && x.totals[MissingPrediction] == |s.expected| - |q.seen|
    ensures PredictionsConserved(x) && VerdictsConserved(x)
  {
    SplitBySeen(s, q.seen, Present);
    assert |s.expected.Keys| == |s.expected|;
  }

  lemma {:induction false} RowSideOk(s: Schedule, q: Progress, x: Score, e: State)
    requires FieldsOk(s, q) && x.fields == q.score.fields
    requires StateLaws(s, x.totals, s.expected.Keys, q.seen, e)
    ensures RowConserved(x, e)
  {
    SplitBySeen(s, q.seen, e);
    assert RowLaw(s, x.fields, q.seen, e);
  }

  lemma {:induction false} LawsAdd(a: Score, b: Score)
    requires Laws(a) && Laws(b)
    ensures Laws(Plus(a, b))
  {
    SumsAdd(a.fields, b.fields, Present);
    forall e ensures RowConserved(Plus(a, b), e) {
      SumsAdd(a.fields, b.fields, e);
      assert RowConserved(a, e) && RowConserved(b, e);
    }
  }
}
