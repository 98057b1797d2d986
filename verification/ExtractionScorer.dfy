/**
 The scorer itself (`application/extraction_evaluation.py`, `_score`): counters that run on
 across repeats, and what its report may claim.
 */
module ExtractionScorer {
  import opened Common
  import opened ExtractionMatch
  import opened ExtractionScore
  import opened ExtractionLaws

  ghost predicate ValidRepeats(s: Schedule, rs: seq<Repeat>) {
    forall i :: 0 <= i < |rs| ==> ValidRepeat(s, rs[i])
  }

  /** The sum of the scores of single repeats. */
  function ScoreRepeats(s: Schedule, rs: seq<Repeat>): Score
    requires ValidSchedule(s) && ValidRepeats(s, rs)
  {
    if rs == [] then Zero() else Plus(ScoreRepeats(s, rs[..|rs| - 1]), ScoreRepeat(s, rs[|rs| - 1]).score)
  }

  /** All conservation laws hold of any selection of repeats. */
  lemma {:induction false} ScoreObeysLaws(s: Schedule, rs: seq<Repeat>)
    requires ValidSchedule(s) && ValidRepeats(s, rs)
    ensures Laws(ScoreRepeats(s, rs))
  {
    if rs == [] {
      forall e ensures RowConserved(Zero(), e) {
      }
    } else {
      ScoreObeysLaws(s, rs[..|rs| - 1]);
      RepeatObeysLaws(s, rs[|rs| - 1]);
      LawsAdd(ScoreRepeats(s, rs[..|rs| - 1]), ScoreRepeat(s, rs[|rs| - 1]).score);
    }
  }

  // -------------------------------------------------------------------------- metrics

  datatype Metric = Metric(numerator: nat, denominator: nat)

  /** Every rate of the report, in its order. */
  function Metrics(x: Score): seq<Metric> {
    var f, t, p, c := x.fields, x.totals, x.pages, x.cases;
    [ Metric(t[CorrectField], f[Prediction]),
      Metric(t[CorrectField], t[ExpectedField]),
      Metric(f[IdentityMatch], f[Prediction]),
      Metric(f[IdentityMatch], t[ExpectedField]),
      Metric(f[TypeCorrect], t[ExpectedField]),
      Metric(f[ValueCorrect], t[ExpectedField]),
      Metric(f[StateCorrect], t[ExpectedField]),
      Metric(f[SourceCorrect], t[ExpectedCited]),
      Metric(f[LocalizationCorrect], t[ExpectedCited]),
      Metric(p[ObservedPage], p[ScheduledPage]),
      Metric(p[CandidatePage], p[ScheduledPage]),
      Metric(c[CompleteCase], c[ScheduledCase]),
      Metric(c[FullyCorrectCase], c[ScheduledCase]),
      Metric(p[FailedPage], p[ScheduledPage]),
      Metric(p[RefusedPage], p[ScheduledPage]),
      Metric(p[HandoffPage], p[ScheduledPage]),
      Metric(p[ReviewPage], p[ScheduledPage]),
      Metric(c[ReviewCase], c[ScheduledCase]) ]
  }

  /** No rate exceeds one, and the derived error counts never underflow. */
  lemma {:induction false} MetricsAreProper(s: Schedule, rs: seq<Repeat>, i: nat)
    requires ValidSchedule(s) && ValidRepeats(s, rs) && i < |Metrics(ScoreRepeats(s, rs))|
    ensures Metrics(ScoreRepeats(s, rs))[i].numerator <= Metrics(ScoreRepeats(s, rs))[i].denominator
  {
    ScoreObeysLaws(s, rs);
    ProperByLaws(ScoreRepeats(s, rs), i);
  }

  lemma {:induction false} ProperByLaws(x: Score, i: nat)
    requires Laws(x) && i < |Metrics(x)|
    ensures Metrics(x)[i].numerator <= Metrics(x)[i].denominator
  {
  }

  // ---------------------------------------------------------------- unflagged cases

  /** What the review set contains when a repeat ends. */
  ghost predicate AllFlagged(s: Schedule, r: Repeat, correct: set<FieldKey>, review: set<nat>) {
    IncompleteFlagged(s, r, s.cases, review) && PagesFlagged(r, s.pages, review) && WrongFlagged(s, s.cases, correct, review)
  }

  lemma {:induction false} FlagsGrow(s: Schedule, r: Repeat, before: set<nat>, review: set<nat>)
    requires IncompleteFlagged(s, r, s.cases, before) && PagesFlagged(r, s.pages, before) && before <= review
    ensures IncompleteFlagged(s, r, s.cases, review) && PagesFlagged(r, s.pages, review)
  {
  }

  lemma {:induction false} ClosingFlags(s: Schedule, r: Repeat, q: Progress, counted: Progress)
    requires Paged(s, r, q) && Counted(s, q, counted)
    ensures AllFlagged(s, r, Closing(s, r, counted).correct, Closing(s, r, counted).review)
  {
    var closed := CloseCasesKeeps(s, r, s.cases, counted);
    FlagsGrow(s, r, q.review, Closing(s, r, counted).review);
  }

  lemma {:induction false} RepeatFlags(s: Schedule, r: Repeat)
    requires ValidSchedule(s) && ValidRepeat(s, r)
    ensures AllFlagged(s, r, ScoreRepeat(s, r).correct, ScoreRepeat(s, r).review)
  {
    var q := AfterPagesOk(s, r);
    var counted := CountedOk(s, q);
    ClosingFlags(s, r, q, counted);
  }

  lemma {:induction false} UnflaggedIsRight(s: Schedule, r: Repeat, c: nat, correct: set<FieldKey>, review: set<nat>)
    requires AllFlagged(s, r, correct, review) && c in s.cases && c !in review
    ensures FullyCorrect(s, r, c, correct) || !HasFields(s, c)
  {
    var k :| 0 <= k < |s.cases| && s.cases[k] == c;
    assert Complete(s, r, c) && CaseCorrect(s, c, correct);
    forall i | 0 <= i < |s.pages| && s.pages[i].caseId == c
      ensures s.pages[i] in r.outcomes && r.outcomes[s.pages[i]].candidate
    {
    }
  }

  /** A case the scorer does not send to review is fully correct, or has nothing to extract. */
  lemma {:induction false} UnflaggedCaseIsCorrect(s: Schedule, r: Repeat, c: nat)
    requires ValidSchedule(s) && ValidRepeat(s, r) && c in s.cases
    ensures c !in ScoreRepeat(s, r).review ==>
      FullyCorrect(s, r, c, ScoreRepeat(s, r).correct) || !HasFields(s, c)
  {
    RepeatFlags(s, r);
    if c !in ScoreRepeat(s, r).review {
      UnflaggedIsRight(s, r, c, ScoreRepeat(s, r).correct, ScoreRepeat(s, r).review);
    }
  }

  // ------------------------------------------------- what decides a field: its first prediction

  datatype Attempted = Attempted(caseId: nat, declared: seq<Declaration>, observed: Observed)

  function KeyOf(j: Attempted): FieldKey {
    FieldKey(j.caseId, j.observed.slot)
  }

  /** Every prediction of a repeat in page order, one page's in its own order. */
  function PageAttempts(r: Repeat, key: PageKey): seq<Attempted> {
    if key !in r.outcomes || r.outcomes[key].proposal.None? then []
    else
      var p := r.outcomes[key].proposal.value;
      seq(|p.observed|, i requires 0 <= i < |p.observed| => Attempted(key.caseId, p.declared, p.observed[i]))
  }

  function Attempts(r: Repeat, pages: seq<PageKey>): seq<Attempted> {
    if pages == [] then [] else Attempts(r, pages[..|pages| - 1]) + PageAttempts(r, pages[|pages| - 1])
  }

  /** The earliest prediction of a field. */
  function FirstOf(all: seq<Attempted>, k: FieldKey): Option<Attempted> {
    if all == [] then None
    else
      var earlier, last := FirstOf(all[..|all| - 1], k), all[|all| - 1];
      if earlier.Some? then earlier else if KeyOf(last) == k then Some(last) else None
  }

  predicate Right(s: Schedule, j: Attempted) {
    && KeyOf(j) in s.expected
    && FieldCorrect(s.expected[KeyOf(j)], j.observed, DeclaredAs(j.declared, j.observed.slot), s.policy)
  }

  ghost predicate DecidesField(s: Schedule, all: seq<Attempted>, k: FieldKey, seen: bool, correct: bool) {
    && (seen <==> k in s.expected && FirstOf(all, k).Some?)
    && (correct <==> FirstOf(all, k).Some? && Right(s, FirstOf(all, k).value))
  }

  /** `seen` is the expected fields anyone predicted; `correct` those whose first prediction is right. */
  ghost predicate Decides(s: Schedule, all: seq<Attempted>, p: Progress) {
    forall k :: DecidesField(s, all, k, k in p.seen, k in p.correct)
  }

  lemma {:induction false} FirstKey(all: seq<Attempted>, k: FieldKey)
    ensures FirstOf(all, k).Some? ==> KeyOf(FirstOf(all, k).value) == k
  {
    if all != [] {
      FirstKey(all[..|all| - 1], k);
    }
  }

  lemma {:induction false} JudgeDecides(s: Schedule, all: seq<Attempted>, j: Attempted, p: Progress)
    requires Decides(s, all, p)
    ensures Decides(s, all + [j], Judge(s, j.caseId, j.declared, j.observed, p))
  {
    var q := Judge(s, j.caseId, j.declared, j.observed, p);
    assert (all + [j])[..|all|] == all;
    forall k ensures DecidesField(s, all + [j], k, k in q.seen, k in q.correct) {
      FirstKey(all, k);
      assert DecidesField(s, all, k, k in p.seen, k in p.correct);
    }
  }

  lemma {:induction false} JudgeAllDecides(
    s: Schedule, all: seq<Attempted>, c: nat, declared: seq<Declaration>, observed: seq<Observed>, p: Progress, these: seq<Attempted>)
    requires Decides(s, all, p)
    requires |these| == |observed| && forall i :: 0 <= i < |these| ==> these[i] == Attempted(c, declared, observed[i])
    ensures Decides(s, all + these, JudgeAll(s, c, declared, observed, p))
  {
    if observed == [] {
      assert all + these == all;
    } else {
      var n := |observed| - 1;
      JudgeAllDecides(s, all, c, declared, observed[..n], p, these[..n]);
      JudgeDecides(s, all + these[..n], these[n], JudgeAll(s, c, declared, observed[..n], p));
      assert all + these == (all + these[..n]) + [these[n]];
    }
  }

  lemma {:induction false} ScorePageDecides(s: Schedule, r: Repeat, key: PageKey, all: seq<Attempted>, p: Progress)
    requires Decides(s, all, p)
    ensures Decides(s, all + PageAttempts(r, key), ScorePage(s, r, key, p))
  {
    if key !in r.outcomes {
      SameSets(s, all, p, MarkMissing(r, key, p));
      assert all + [] == all;
    } else {
      var o := r.outcomes[key];
      SameSets(s, all, p, MarkPresent(o, key, p));
      if o.proposal.None? {
        assert all + [] == all;
      } else {
        JudgeAllDecides(s, all, key.caseId, o.proposal.value.declared, o.proposal.value.observed, MarkPresent(o, key, p), PageAttempts(r, key));
      }
    }
  }

  lemma {:induction false} ScorePagesDecide(s: Schedule, r: Repeat, pages: seq<PageKey>, p: Progress)
    requires Decides(s, [], p)
    ensures Decides(s, Attempts(r, pages), ScorePages(s, r, pages, p))
  {
    if pages != [] {
      var front, key := pages[..|pages| - 1], pages[|pages| - 1];
      ScorePagesDecide(s, r, front, p);
      ScorePageDecides(s, r, key, Attempts(r, front), ScorePages(s, r, front, p));
    }
  }

  lemma {:induction false} SameSets(s: Schedule, all: seq<Attempted>, p: Progress, q: Progress)
    requires Decides(s, all, p) && q.seen == p.seen && q.correct == p.correct
    ensures Decides(s, all, q)
  {
    forall k ensures DecidesField(s, all, k, k in q.seen, k in q.correct) {
      assert DecidesField(s, all, k, k in p.seen, k in p.correct);
    }
  }

  /** A repeat's verdict on a field is its first prediction's, in page order: the field counts
      as matched when anyone predicted it, and as correct when that first prediction is right. */
  lemma {:induction false} FirstPredictionDecides(s: Schedule, r: Repeat, k: FieldKey)
    requires ValidSchedule(s) && ValidRepeat(s, r)
    ensures DecidesField(s, Attempts(r, s.pages), k, k in ScoreRepeat(s, r).seen, k in ScoreRepeat(s, r).correct)
  {
    PagesDecide(s, r);
    FinalSets(s, r);
    assert DecidesField(s, Attempts(r, s.pages), k, k in ScoreRepeat(s, r).seen, k in ScoreRepeat(s, r).correct);
  }

  lemma {:induction false} PagesDecide(s: Schedule, r: Repeat)
    requires ValidSchedule(s) && ValidRepeat(s, r)
    ensures |r.outcomes| <= |s.pages| && Decides(s, Attempts(r, s.pages), AfterPages(s, r))
  {
    RepeatFits(s, r);
    var begun := OpenCasesSets(s, r, s.cases, Opening(s, r));
    assert Decides(s, [], begun);
    ScorePagesDecide(s, r, s.pages, begun);
  }

  lemma {:induction false} OpenCasesSets(s: Schedule, r: Repeat, cases: seq<nat>, p: Progress) returns (q: Progress)
    ensures q == OpenCases(s, r, cases, p) && q.seen == p.seen && q.correct == p.correct
  {
    if cases == [] {
      q := p;
    } else {
      var mid := OpenCasesSets(s, r, cases[..|cases| - 1], p);
      q := OpenCase(s, r, cases[|cases| - 1], mid);
    }
  }

  lemma {:induction false} FinalSets(s: Schedule, r: Repeat)
    requires ValidSchedule(s) && ValidRepeat(s, r)
    ensures |r.outcomes| <= |s.pages|
    ensures ScoreRepeat(s, r).seen == AfterPages(s, r).seen && ScoreRepeat(s, r).correct == AfterPages(s, r).correct
  {
    var q := AfterPagesOk(s, r);
    var counted := CountedOk(s, q);
    ClosedSets(s, r, q, counted);
  }

  lemma {:induction false} ClosedSets(s: Schedule, r: Repeat, q: Progress, counted: Progress)
    requires Paged(s, r, q) && Counted(s, q, counted)
    ensures Closing(s, r, counted).seen == q.seen && Closing(s, r, counted).correct == q.correct
  {
    var closed := CloseCasesKeeps(s, r, s.cases, counted);
  }

  // --------------------------------------------------- counters that run on across repeats

  function Shift(base: Score, p: Progress): Progress {
    p.(score := Plus(base, p.score))
  }

  lemma {:induction false} JudgeAllShift(base: Score, s: Schedule, c: nat, declared: seq<Declaration>, observed: seq<Observed>, p: Progress)
    ensures JudgeAll(s, c, declared, observed, Shift(base, p)) == Shift(base, JudgeAll(s, c, declared, observed, p))
  {
    if observed != [] {
      var front, a := observed[..|observed| - 1], observed[|observed| - 1];
      JudgeAllShift(base, s, c, declared, front, p);
      JudgeShift(base, s, c, declared, a, JudgeAll(s, c, declared, front, p));
    }
  }

  lemma {:induction false} AddFieldsShift(base: Score, p: Progress, m: multiset<FieldMark>)
    ensures Shift(base, p).AddFields(m) == Shift(base, p.AddFields(m))
  {
    assert (base.fields + p.score.fields) + m == base.fields + (p.score.fields + m);
  }

  lemma {:induction false} AddPagesShift(base: Score, p: Progress, m: multiset<PageMark>)
    ensures Shift(base, p).AddPages(m) == Shift(base, p.AddPages(m))
  {
    assert (base.pages + p.score.pages) + m == base.pages + (p.score.pages + m);
  }

  lemma {:induction false} AddCasesShift(base: Score, p: Progress, m: multiset<CaseMark>)
    ensures Shift(base, p).AddCases(m) == Shift(base, p.AddCases(m))
  {
    assert (base.cases + p.score.cases) + m == base.cases + (p.score.cases + m);
  }

  lemma {:induction false} AddTotalsShift(base: Score, p: Progress, m: multiset<TotalMark>)
    ensures Shift(base, p).AddTotals(m) == Shift(base, p.AddTotals(m))
  {
    assert (base.totals + p.score.totals) + m == base.totals + (p.score.totals + m);
  }

  lemma {:induction false} JudgeShift(base: Score, s: Schedule, c: nat, declared: seq<Declaration>, a: Observed, p: Progress)
    ensures Judge(s, c, declared, a, Shift(base, p)) == Shift(base, Judge(s, c, declared, a, p))
  {
    var key := FieldKey(c, a.slot);
    AddFieldsShift(base, p, multiset{Prediction, PredictedState(a.state), UnknownField});
    AddFieldsShift(base, p, multiset{Prediction, PredictedState(a.state), DuplicatePrediction});
    if key in s.expected {
      AddFieldsShift(base, p, Marks(s.expected[key], a, DeclaredAs(declared, a.slot), s.policy));
    }
  }

  lemma {:induction false} MarkShift(base: Score, r: Repeat, o: Outcome, key: PageKey, p: Progress)
    ensures MarkMissing(r, key, Shift(base, p)) == Shift(base, MarkMissing(r, key, p))
    ensures MarkPresent(o, key, Shift(base, p)) == Shift(base, MarkPresent(o, key, p))
  {
    AddPagesShift(base, p, MissingMarks(key in r.errors, key in r.errors && r.errors[key].Refused?));
    AddPagesShift(base, p, PageMarks(o.candidate, o.failure == Some(Refused), o.handoffs != [], NeedsReview(o)));
  }

  lemma {:induction false} ScorePageShift(base: Score, s: Schedule, r: Repeat, key: PageKey, p: Progress)
    ensures ScorePage(s, r, key, Shift(base, p)) == Shift(base, ScorePage(s, r, key, p))
  {
    MarkShift(base, r, if key in r.outcomes then r.outcomes[key] else Outcome(false, None, None, []), key, p);
    if key in r.outcomes && r.outcomes[key].proposal.Some? {
      var o := r.outcomes[key];
      var marked := MarkPresent(o, key, p);
      JudgeAllShift(base, s, key.caseId, o.proposal.value.declared, o.proposal.value.observed, marked);
    }
  }

  lemma {:induction false} ScorePagesShift(base: Score, s: Schedule, r: Repeat, pages: seq<PageKey>, p: Progress)
    ensures ScorePages(s, r, pages, Shift(base, p)) == Shift(base, ScorePages(s, r, pages, p))
  {
    if pages != [] {
      ScorePagesShift(base, s, r, pages[..|pages| - 1], p);
      ScorePageShift(base, s, r, pages[|pages| - 1], ScorePages(s, r, pages[..|pages| - 1], p));
    }
  }

  lemma {:induction false} OpenCasesShift(base: Score, s: Schedule, r: Repeat, cases: seq<nat>, p: Progress)
    ensures OpenCases(s, r, cases, Shift(base, p)) == Shift(base, OpenCases(s, r, cases, p))
  {
    if cases != [] {
      var c := cases[|cases| - 1];
      OpenCasesShift(base, s, r, cases[..|cases| - 1], p);
      AddCasesShift(base, OpenCases(s, r, cases[..|cases| - 1], p), OpenMarks(AnyOutcome(s, r, c), Complete(s, r, c), AllCandidates(s, r, c)));
    }
  }

  lemma {:induction false} CountFieldsShift(base: Score, s: Schedule, fields: seq<FieldKey>, p: Progress)
    requires forall k :: k in fields ==> k in s.expected
    ensures CountFields(s, fields, Shift(base, p)) == Shift(base, CountFields(s, fields, p))
    ensures CountFields(s, fields, p).seen == p.seen
  {
    if fields != [] {
      var key := fields[|fields| - 1];
      CountFieldsShift(base, s, fields[..|fields| - 1], p);
      AddTotalsShift(base, CountFields(s, fields[..|fields| - 1], p),
                     CountMarks(s.expected[key].state, s.expected[key].citation.Some?, key !in p.seen));
    }
  }

  lemma {:induction false} CloseCasesShift(base: Score, s: Schedule, r: Repeat, cases: seq<nat>, p: Progress)
    ensures CloseCases(s, r, cases, Shift(base, p)) == Shift(base, CloseCases(s, r, cases, p))
    ensures CloseCases(s, r, cases, p).correct == p.correct
  {
    if cases != [] {
      CloseCasesShift(base, s, r, cases[..|cases| - 1], p);
      AddCasesShift(base, CloseCases(s, r, cases[..|cases| - 1], p), When(FullyCorrect(s, r, cases[|cases| - 1], p.correct), FullyCorrectCase));
    }
  }

  // --------------------------------------------------------------------------- the loops

  lemma {:induction false} SameMarks(t: multiset<FieldMark>, e: State, a: State, m: FieldMark, v: multiset<FieldMark>, c: multiset<FieldMark>)
    ensures t + multiset{Prediction, PredictedState(a)} + multiset{m} == t + multiset{Prediction, PredictedState(a), m}
    ensures t + multiset{Prediction, PredictedState(a)} + multiset{IdentityMatch, Confusion(e, a)} + v + c
         == t + (FieldMarks(e, a) + v + c)
  {
  }

  /** The innermost loop: one pass over a page's predictions. */
  method JudgePage(s: Schedule, c: nat, declared: seq<Declaration>, observed: seq<Observed>, p: Progress) returns (q: Progress)
    ensures q == JudgeAll(s, c, declared, observed, p)
  {
    var fields, seen, correct := p.score.fields, p.seen, p.correct;
    for i := 0 to |observed|
      invariant p.(score := p.score.(fields := fields), seen := seen, correct := correct)
             == JudgeAll(s, c, declared, observed[..i], p)
    {
      assert observed[..i + 1][..i] == observed[..i];
      var a := observed[i];
      var key := FieldKey(c, a.slot);
      ghost var before := fields;
      fields := fields + multiset{Prediction, PredictedState(a.state)};
      if key !in s.expected {
        fields := fields + multiset{UnknownField};
        SameMarks(before, a.state, a.state, UnknownField, multiset{}, multiset{});
      } else if key in seen {
        fields := fields + multiset{DuplicatePrediction};
        SameMarks(before, a.state, a.state, DuplicatePrediction, multiset{}, multiset{});
      } else {
        var e, shapes := s.expected[key], DeclaredAs(declared, a.slot);
        var typed, valued, sourced, localized :=
          TypeMatch(e, a, shapes, s.policy), ValueMatch(e, a, s.policy), SourceOk(e, a), Localized(e, a, s.policy);
        var verdict := VerdictMarks(e.state == a.state, typed, valued);
        var source := SourceMarks(e.citation.Some?, sourced, s.policy.minimumIou.Some?, localized);
        seen := seen + {key};
        fields := fields + multiset{IdentityMatch, Confusion(e.state, a.state)} + verdict + source;
        if typed && valued && sourced && (e.citation.None? || s.policy.minimumIou.None? || localized) {
          correct := correct + {key};
        }
        SameMarks(before, e.state, a.state, Prediction, verdict, source);
      }
    }
    assert observed[..|observed|] == observed;
    q := p.(score := p.score.(fields := fields), seen := seen, correct := correct);
  }

  method ScoreAllPages(s: Schedule, r: Repeat, p: Progress) returns (q: Progress)
    ensures q == ScorePages(s, r, s.pages, p)
  {
    q := p;
    for i := 0 to |s.pages|
      invariant q == ScorePages(s, r, s.pages[..i], p)
    {
      assert s.pages[..i + 1][..i] == s.pages[..i];
      var key := s.pages[i];
      if key !in r.outcomes {
        q := MarkMissing(r, key, q);
      } else {
        var o := r.outcomes[key];
        q := MarkPresent(o, key, q);
        if o.proposal.Some? {
          q := JudgePage(s, key.caseId, o.proposal.value.declared, o.proposal.value.observed, q);
        }
      }
    }
    assert s.pages[..|s.pages|] == s.pages;
  }

  lemma {:induction false} OpenNext(s: Schedule, r: Repeat, cases: seq<nat>, i: nat, p: Progress)
    requires i < |cases|
    ensures OpenCases(s, r, cases[..i + 1], p) == OpenCase(s, r, cases[i], OpenCases(s, r, cases[..i], p))
  {
    assert cases[..i + 1][..i] == cases[..i];
  }

  method OpenAllCases(s: Schedule, r: Repeat, p: Progress) returns (q: Progress)
    ensures q == OpenCases(s, r, s.cases, p)
  {
    q := p;
    for i := 0 to |s.cases|
      invariant q == OpenCases(s, r, s.cases[..i], p)
    {
      OpenNext(s, r, s.cases, i, p);
      q := OpenCase(s, r, s.cases[i], q);
    }
    assert s.cases[..|s.cases|] == s.cases;
  }

  lemma {:induction false} CountNext(s: Schedule, fields: seq<FieldKey>, i: nat, p: Progress)
    requires i < |fields| && forall k :: k in fields ==> k in s.expected
    ensures CountFields(s, fields[..i + 1], p) == CountField(s, fields[i], CountFields(s, fields[..i], p))
  {
    assert fields[..i + 1][..i] == fields[..i];
  }

  method CountAllFields(s: Schedule, p: Progress) returns (q: Progress)
    requires forall k :: k in s.fields ==> k in s.expected
    ensures q == CountFields(s, s.fields, p)
  {
    q := p;
    for i := 0 to |s.fields|
      invariant q == CountFields(s, s.fields[..i], p)
    {
      CountNext(s, s.fields, i, p);
      q := CountField(s, s.fields[i], q);
    }
    assert s.fields[..|s.fields|] == s.fields;
  }

  method CloseAllCases(s: Schedule, r: Repeat, p: Progress) returns (q: Progress)
    ensures q == CloseCases(s, r, s.cases, p)
  {
    q := p;
    for i := 0 to |s.cases|
      invariant q == CloseCases(s, r, s.cases[..i], p)
    {
      assert s.cases[..i + 1][..i] == s.cases[..i];
      q := CloseCase(s, r, s.cases[i], q);
    }
    assert s.cases[..|s.cases|] == s.cases;
  }

  // One pass of the repeat loop, with counters that carry on from `score`; `q` is the same pass alone.

  lemma {:induction false} StartsShifted(score: Score, pages: multiset<PageMark>, cases: multiset<CaseMark>)
    ensures Progress(score, {}, {}, {}).AddPages(pages).AddCases(cases) ==
            Shift(score, Progress(Score(pages, cases, multiset{}, multiset{}), {}, {}, {}))
  {
    assert score.fields + multiset{} == score.fields && score.totals + multiset{} == score.totals;
  }

  method StartOne(s: Schedule, r: Repeat, score: Score) returns (p: Progress)
    requires |r.outcomes| <= |s.pages|
    ensures p == Shift(score, Opening(s, r))
  {
    var pages := Times(ScheduledPage, |s.pages|) + Times(ObservedPage, |r.outcomes|) + Times(MissingPage, |s.pages| - |r.outcomes|);
    var cases := Times(ScheduledCase, |s.cases|);
    p := Progress(score, {}, {}, {});
    p := p.AddPages(pages).AddCases(cases);
    StartsShifted(score, pages, cases);
  }

  method OpenOne(s: Schedule, r: Repeat, score: Score, ghost q: Progress, before: Progress) returns (p: Progress)
    requires before == Shift(score, q)
    ensures p == Shift(score, OpenCases(s, r, s.cases, q))
  {
    OpenCasesShift(score, s, r, s.cases, q);
    p := OpenAllCases(s, r, before);
  }

  method PagesOne(s: Schedule, r: Repeat, score: Score, ghost q: Progress, before: Progress) returns (p: Progress)
    requires before == Shift(score, q)
    ensures p == Shift(score, ScorePages(s, r, s.pages, q))
  {
    ScorePagesShift(score, s, r, s.pages, q);
    p := ScoreAllPages(s, r, before);
  }

  method TotalsOne(s: Schedule, score: Score, ghost q: Progress, before: Progress) returns (p: Progress)
    requires |q.seen| <= |s.expected| && before == Shift(score, q)
    ensures p == Shift(score, Totals(s, q))
  {
    var marks := Times(CorrectField, |before.correct|) + Times(MissingPrediction, |s.expected| - |before.seen|);
    AddTotalsShift(score, q, marks);
    p := before.AddTotals(marks);
  }

  method CountOne(s: Schedule, score: Score, ghost q: Progress, before: Progress) returns (p: Progress)
    requires (forall k :: k in s.fields ==> k in s.expected) && before == Shift(score, q)
    ensures p == Shift(score, CountFields(s, s.fields, q))
  {
    CountFieldsShift(score, s, s.fields, q);
    p := CountAllFields(s, before);
  }

  method CloseOne(s: Schedule, r: Repeat, score: Score, ghost q: Progress, before: Progress) returns (p: Progress)
    requires before == Shift(score, q)
    ensures p == Shift(score, Closing(s, r, q))
  {
    CloseCasesShift(score, s, r, s.cases, q);
    p := CloseAllCases(s, r, before);
    AddCasesShift(score, CloseCases(s, r, s.cases, q), Times(ReviewCase, |p.review|));
    p := p.AddCases(Times(ReviewCase, |p.review|));
  }

  method FinishOne(s: Schedule, r: Repeat, score: Score, ghost q: Progress, before: Progress) returns (after: Score)
    requires forall k :: k in s.fields ==> k in s.expected
    requires |q.seen| <= |s.expected| && before == Shift(score, q)
    ensures after == Plus(score, Closing(s, r, CountFields(s, s.fields, Totals(s, q))).score)
  {
    var p := TotalsOne(s, score, q, before);
    p := CountOne(s, score, Totals(s, q), p);
    p := CloseOne(s, r, score, CountFields(s, s.fields, Totals(s, q)), p);
    after := p.score;
  }

  method ScoreOne(s: Schedule, r: Repeat, score: Score) returns (after: Score)
    requires ValidSchedule(s) && ValidRepeat(s, r)
    ensures after == Plus(score, ScoreRepeat(s, r).score)
  {
    RepeatFits(s, r);
    var p := StartOne(s, r, score);
    p := OpenOne(s, r, score, Opening(s, r), p);
    p := PagesOne(s, r, score, OpenCases(s, r, s.cases, Opening(s, r)), p);
    after := FinishOne(s, r, score, AfterPages(s, r), p);
  }

  lemma {:induction false} RepeatNext(s: Schedule, rs: seq<Repeat>, more: seq<Repeat>, i: nat)
    requires ValidSchedule(s) && ValidRepeats(s, rs) && i < |rs| && more == rs[..i + 1]
    ensures ScoreRepeats(s, more) == Plus(ScoreRepeats(s, rs[..i]), ScoreRepeat(s, rs[i]).score)
  {
    assert more[..i] == rs[..i];
  }

  method ScoreNext(s: Schedule, rs: seq<Repeat>, i: nat, score: Score) returns (after: Score)
    requires ValidSchedule(s) && ValidRepeats(s, rs) && i < |rs|
    requires score == ScoreRepeats(s, rs[..i])
    ensures after == ScoreRepeats(s, rs[..i + 1])
  {
    after := ScoreOne(s, rs[i], score);
    RepeatNext(s, rs, rs[..i + 1], i);
  }

  /** `_score`: one run of counters over all repeats is the sum of the repeats' own scores. */
  method ScoreEvaluation(s: Schedule, rs: seq<Repeat>) returns (score: Score)
    requires ValidSchedule(s) && ValidRepeats(s, rs)
    ensures score == ScoreRepeats(s, rs)
  {
    score := Zero();
    for i := 0 to |rs|
      invariant score == ScoreRepeats(s, rs[..i])
    {
      score := ScoreNext(s, rs, i, score);
    }
    assert rs[..|rs|] == rs;
  }
}
