/**
 What the scorer's verdicts and counters say about the recorded answers
 (`application/extraction_evaluation.py`, `_score`): every counter is the number of pages, cases,
 fields or predictions for which one statement about the record holds.
 */
module ExtractionMeaning {
  import opened Common
  import opened ExtractionMatch
  import opened ExtractionScore
  import opened ExtractionLaws
  import opened ExtractionScorer

  // ------------------------------------------------------------------- one answer's verdicts

  ghost predicate UnitsAgree(expected: Option<Unit>, actual: Option<Unit>, policy: Policy) {
    expected == actual || (policy.converts && {expected, actual} == {Some(PercentPoints), Some(Ratio)})
  }

  ghost predicate ReadsAs(v: Option<Value>, n: real) {
    v == Some(Decimal(n)) || (v.Some? && v.value.Text? && v.value.parsed == Some(n))
  }

  ghost predicate IsText(v: Option<Value>) {
    v.Some? && v.value.Text?
  }

  /** The page declares the slot once, with this shape. */
  ghost predicate DeclaredOnce(declared: seq<Declaration>, slot: nat, shape: Shape) {
    exists i: nat :: i < |declared| && declared[i] == Declaration(slot, shape) && OnlyAt(declared, slot, i)
  }

  ghost predicate OnlyAt(declared: seq<Declaration>, slot: nat, i: nat) {
    forall j: nat :: j < |declared| && declared[j].slot == slot ==> j == i
  }

  ghost predicate Undeclared(declared: seq<Declaration>, slot: nat) {
    forall j: nat :: j < |declared| ==> declared[j].slot != slot
  }

  ghost predicate TypeRight(e: Expected, j: Attempted, policy: Policy) {
    var a := j.observed;
    && DeclaredOnce(j.declared, a.slot, e.shape)
    && UnitsAgree(e.unit, a.unit, policy)
    && (a.state != Present ==> a.value == None && a.unit == None)
    && (a.state == Present && a.unit == Some(Grade) ==> IsText(a.value))
    && (a.state == Present && a.unit != Some(Grade) ==> exists n :: ReadsAs(a.value, n))
  }

  ghost predicate Within(d: real, tolerance: real) {
    -tolerance <= d <= tolerance
  }

  /** Two numbers of one unit agree absolutely or relatively. */
  ghost predicate NearTo(x: real, z: real, policy: Policy) {
    Within(x - z, policy.absolute) || Within(x - z, policy.relative * AbsReal(x))
  }

  ghost predicate Near(x: real, expected: Option<Unit>, y: real, actual: Option<Unit>, policy: Policy) {
    NearTo(x, if expected == Some(PercentPoints) then 100.0 * Quantity(y, actual) else Quantity(y, actual), policy)
  }

  ghost predicate ValueRight(e: Expected, a: Observed, policy: Policy) {
    && a.state == e.state
    && UnitsAgree(e.unit, a.unit, policy)
    && (e.state != Present ==> a.value == None && a.unit == None)
    && (e.state == Present && e.unit == Some(Grade) ==> IsText(a.value) && a.value == e.value)
    && (e.state == Present && e.unit != Some(Grade) ==>
          exists x, y :: ReadsAs(e.value, x) && ReadsAs(a.value, y) && Near(x, e.unit, y, a.unit, policy))
  }

  /** The same region of the same version of the same document, with a box of its own. */
  ghost predicate SamePlace(reference: Citation, c: Citation) {
    && c == reference.(box := c.box)
    && c.box.x0 >= 0.0 && c.box.y0 >= 0.0
    && c.box.x1 > c.box.x0 && c.box.y1 > c.box.y0
  }

  ghost predicate SourceRight(e: Expected, a: Observed) {
    && (e.citation == None ==> a.state in {Missing, NotPresent, NotApplicable})
    && (e.citation != None ==> |a.evidence| > 0 && forall c :: c in a.evidence ==> SamePlace(e.citation.value, c))
  }

  /** The cited box is a box, overlaps this one, and shares enough with it. */
  ghost predicate BoxesMeet(reference: Box, b: Box, least: Option<real>) {
    && reference.x0 >= 0.0 && reference.y0 >= 0.0 && reference.x1 > reference.x0 && reference.y1 > reference.y0
    && Overlaps(reference, b)
    && (least.Some? ==> Iou(reference, b) >= least.value)
  }

  ghost predicate PlaceRight(e: Expected, a: Observed, policy: Policy) {
    && e.citation.Some?
    && SourceRight(e, a)
    && forall c :: c in a.evidence ==> BoxesMeet(e.citation.value.box, c.box, policy.minimumIou)
  }

  ghost predicate AnswerRight(e: Expected, j: Attempted, policy: Policy) {
    && TypeRight(e, j, policy) && ValueRight(e, j.observed, policy) && SourceRight(e, j.observed)
    && (e.citation.Some? && policy.minimumIou.Some? ==> PlaceRight(e, j.observed, policy))
  }

  lemma {:induction false} UnitsAgreeExactly(expected: Option<Unit>, actual: Option<Unit>, policy: Policy)
    ensures SameUnit(expected, actual, policy) <==> UnitsAgree(expected, actual, policy)
  {
    if {expected, actual} == {Some(PercentPoints), Some(Ratio)} {
      assert Some(Ratio) in {expected, actual} && Some(PercentPoints) in {expected, actual};
    }
  }

  lemma {:induction false} DeclaredExactly(declared: seq<Declaration>, slot: nat, shape: Shape)
    ensures DeclaredAs(declared, slot) == [] <==> Undeclared(declared, slot)
    ensures DeclaredAs(declared, slot) == [shape] <==> DeclaredOnce(declared, slot, shape)
  {
    if declared != [] {
      var n := |declared| - 1;
      var front := declared[..n];
      DeclaredExactly(front, slot, shape);
      assert declared == front + [declared[n]];
      if declared[n].slot != slot {
        NotDeclaredLast(front, declared[n], slot, shape);
      } else {
        DeclaredLast(front, declared[n], slot, shape);
        Singleton(DeclaredAs(front, slot), declared[n].shape, shape);
      }
    }
  }

  lemma {:induction false} Singleton<T>(rest: seq<T>, x: T, y: T)
    ensures rest + [x] == [y] <==> rest == [] && x == y
  {
    assert (rest + [x])[|rest|] == x;
    assert rest + [x] == [y] ==> |rest| + 1 == 1;
  }

  lemma {:induction false} NotDeclaredLast(front: seq<Declaration>, last: Declaration, slot: nat, shape: Shape)
    requires last.slot != slot
    ensures DeclaredOnce(front + [last], slot, shape) <==> DeclaredOnce(front, slot, shape)
    ensures Undeclared(front + [last], slot) <==> Undeclared(front, slot)
  {
    var declared := front + [last];
    forall j: nat | j < |front| ensures declared[j] == front[j] {
    }
    if DeclaredOnce(front, slot, shape) {
      var i: nat :| i < |front| && front[i] == Declaration(slot, shape) && OnlyAt(front, slot, i);
      assert declared[i] == Declaration(slot, shape) && OnlyAt(declared, slot, i);
    }
    if DeclaredOnce(declared, slot, shape) {
      var i: nat :| i < |declared| && declared[i] == Declaration(slot, shape) && OnlyAt(declared, slot, i);
      assert front[i] == Declaration(slot, shape) && OnlyAt(front, slot, i);
    }
  }

  lemma {:induction false} DeclaredLast(front: seq<Declaration>, last: Declaration, slot: nat, shape: Shape)
    requires last.slot == slot
    ensures DeclaredOnce(front + [last], slot, shape) <==> last.shape == shape && Undeclared(front, slot)
    ensures !Undeclared(front + [last], slot)
  {
    var declared, n := front + [last], |front|;
    assert declared[n] == last;
    if DeclaredOnce(declared, slot, shape) {
      var i: nat :| i < |declared| && declared[i] == Declaration(slot, shape) && OnlyAt(declared, slot, i);
      assert n == i;
      forall j: nat | j < n ensures front[j].slot != slot {
        assert declared[j] == front[j];
      }
    }
    if last.shape == shape && Undeclared(front, slot) {
      forall j: nat | j < |declared| && declared[j].slot == slot ensures j == n {
      }
      assert declared[n] == Declaration(slot, shape) && OnlyAt(declared, slot, n);
    }
  }

  /** A type verdict, spelled out. */
  lemma {:induction false} TypeMatchExactly(e: Expected, j: Attempted, policy: Policy)
    ensures TypeMatch(e, j.observed, DeclaredAs(j.declared, j.observed.slot), policy) <==> TypeRight(e, j, policy)
  {
    var a := j.observed;
    UnitsAgreeExactly(e.unit, a.unit, policy);
    DeclaredExactly(j.declared, a.slot, e.shape);
    if NumberOf(a.value).Some? {
      assert ReadsAs(a.value, NumberOf(a.value).value);
    }
  }

  lemma {:induction false} NumbersNear(x: real, expected: Option<Unit>, y: real, actual: Option<Unit>, policy: Policy)
    requires SameUnit(expected, actual, policy)
    ensures Close(x, Converted(y, expected, actual), policy) <==> Near(x, expected, y, actual, policy)
  {
    ConvertedInUnits(y, expected, actual, policy);
    NearToExactly(x, Converted(y, expected, actual), policy);
  }

  lemma {:induction false} NearToExactly(x: real, z: real, policy: Policy)
    ensures Close(x, z, policy) <==> NearTo(x, z, policy)
  {
    WithinEither(x - z, policy.absolute, policy.relative * AbsReal(x));
  }

  lemma {:induction false} ConvertedInUnits(y: real, expected: Option<Unit>, actual: Option<Unit>, policy: Policy)
    requires SameUnit(expected, actual, policy)
    ensures Converted(y, expected, actual)
         == if expected == Some(PercentPoints) then 100.0 * Quantity(y, actual) else Quantity(y, actual)
  {
    ConversionKeepsTheQuantity(y, expected, actual, policy);
  }

  lemma {:induction false} WithinEither(d: real, a: real, b: real)
    ensures AbsReal(d) <= MaxReal(a, b) <==> Within(d, a) || Within(d, b)
  {
  }

  /** A value verdict, spelled out. */
  lemma {:induction false} ValueMatchExactly(e: Expected, a: Observed, policy: Policy)
    ensures ValueMatch(e, a, policy) <==> ValueRight(e, a, policy)
  {
    UnitsAgreeExactly(e.unit, a.unit, policy);
    if SameUnit(e.unit, a.unit, policy) && NumberOf(e.value).Some? && NumberOf(a.value).Some? {
      var x, y := NumberOf(e.value).value, NumberOf(a.value).value;
      NumbersNear(x, e.unit, y, a.unit, policy);
      assert ReadsAs(e.value, x) && ReadsAs(a.value, y);
    }
  }

  /** A source verdict, spelled out. */
  lemma {:induction false} SourceExactly(e: Expected, a: Observed)
    ensures SourceOk(e, a) <==> SourceRight(e, a)
  {
    if e.citation.Some? {
      forall i | 0 <= i < |a.evidence| ensures a.evidence[i] in a.evidence {
      }
      forall c ensures SourceMatch(e.citation.value, c) <==> SamePlace(e.citation.value, c) {
      }
    }
  }

  lemma {:induction false} BoxesMeetExactly(reference: Box, b: Box, policy: Policy)
    requires ValidBox(b)
    ensures BoxesMeet(reference, b, policy.minimumIou) <==>
      && Iou(reference, b) > 0.0
      && Iou(reference, b) >= (if policy.minimumIou.Some? then policy.minimumIou.value else 0.0)
  {
    if ValidBox(reference) {
      IouMeasuresOverlap(reference, b);
    }
  }

  /** A localization verdict, spelled out. */
  lemma {:induction false} LocalizedExactly(e: Expected, a: Observed, policy: Policy)
    ensures Localized(e, a, policy) <==> PlaceRight(e, a, policy)
  {
    SourceExactly(e, a);
    if e.citation.Some? && SourceOk(e, a) {
      forall c | c in a.evidence
        ensures BoxesMeet(e.citation.value.box, c.box, policy.minimumIou) <==>
          && Iou(e.citation.value.box, c.box) > 0.0
          && Iou(e.citation.value.box, c.box) >= (if policy.minimumIou.Some? then policy.minimumIou.value else 0.0)
      {
        BoxesMeetExactly(e.citation.value.box, c.box, policy);
      }
    }
  }

  /** An answer is right exactly if its type, value and source are, and its place where that is measured. */
  lemma {:induction false} RightExactly(s: Schedule, j: Attempted)
    ensures Right(s, j) <==> KeyOf(j) in s.expected && AnswerRight(s.expected[KeyOf(j)], j, s.policy)
  {
    if KeyOf(j) in s.expected {
      var e := s.expected[KeyOf(j)];
      TypeMatchExactly(e, j, s.policy);
      ValueMatchExactly(e, j.observed, s.policy);
      SourceExactly(e, j.observed);
      LocalizedExactly(e, j.observed, s.policy);
    }
  }

  // ------------------------------------------------------------------- counting predictions

  /** Prediction `i` is the first for its field. */
  ghost predicate FirstAt(all: seq<Attempted>, i: nat)
    requires i < |all|
  {
    forall h: nat :: h < i ==> KeyOf(all[h]) != KeyOf(all[i])
  }

  /** The verdicts on the first prediction for a golden field. */
  ghost function VerdictsOn(e: Expected, j: Attempted, policy: Policy): Flags {
    Flags(e.state == j.observed.state, TypeRight(e, j, policy), ValueRight(e, j.observed, policy),
          e.citation.Some?, SourceRight(e, j.observed), policy.minimumIou.Some?, PlaceRight(e, j.observed, policy))
  }

  /** What verdicts `f` on a prediction of state `y`, where `x` is expected, earn. */
  ghost predicate VerdictEarns(x: State, y: State, f: Flags, m: FieldMark) {
    match m
    case IdentityMatch => true
    case Confusion(expected, actual) => expected == x && actual == y
    case StateCorrect => f.state
    case StateMismatch => !f.state
    case TypeCorrect => f.typed
    case TypeMismatch => !f.typed
    case ValueCorrect => f.valued
    case ValueMismatch => !f.valued
    case SourceCorrect => f.cited && f.sourced
    case SourceMismatch => f.cited && !f.sourced
    case LocalizationCorrect => f.cited && f.measured && f.localized
    case LocalizationMismatch => f.cited && f.measured && !f.localized
    case _ => false
  }

  /** The first prediction for a golden field earns `m`. */
  ghost predicate FirstEarns(e: Expected, j: Attempted, policy: Policy, m: FieldMark) {
    VerdictEarns(e.state, j.observed.state, VerdictsOn(e, j, policy), m)
  }

  /** Prediction `i` of a repeat is counted under `m`. */
  ghost predicate Earns(s: Schedule, all: seq<Attempted>, i: nat, m: FieldMark)
    requires i < |all|
  {
    var j := all[i];
    match m
    case Prediction => true
    case PredictedState(x) => j.observed.state == x
    case UnknownField => KeyOf(j) !in s.fields
    case DuplicatePrediction => KeyOf(j) in s.fields && !FirstAt(all, i)
    case _ => KeyOf(j) in s.expected && FirstAt(all, i) && FirstEarns(s.expected[KeyOf(j)], j, s.policy, m)
  }

  ghost function Earning(s: Schedule, all: seq<Attempted>, m: FieldMark): set<nat> {
    set i: nat | i < |all| && Earns(s, all, i, m)
  }

  lemma {:induction false} PredictedExactly(all: seq<Attempted>, k: FieldKey)
    ensures FirstOf(all, k).Some? <==> exists i: nat :: i < |all| && KeyOf(all[i]) == k
    ensures FirstOf(all, k).Some? ==> exists i: nat :: i < |all| && all[i] == FirstOf(all, k).value && KeyOf(all[i]) == k && FirstAt(all, i)
  {
    if all != [] {
      var front, last := all[..|all| - 1], all[|all| - 1];
      PredictedExactly(front, k);
      if FirstOf(front, k).Some? {
        var i: nat :| i < |front| && front[i] == FirstOf(front, k).value && KeyOf(front[i]) == k && FirstAt(front, i);
        assert all[i] == front[i] && FirstAt(all, i);
      } else if KeyOf(last) == k {
        assert forall h: nat :: h < |front| ==> KeyOf(front[h]) == KeyOf(all[h]);
        assert all[|all| - 1] == last && FirstAt(all, |all| - 1);
      } else {
        forall i: nat | i < |all| ensures KeyOf(all[i]) != k {
          assert i < |front| ==> all[i] == front[i];
        }
      }
    }
  }

  lemma {:induction false} FieldMarksEarned(x: State, y: State, m: FieldMark)
    ensures FieldMarks(x, y)[m] == Bit(m == Prediction || m == PredictedState(y) || m == IdentityMatch || m == Confusion(x, y))
  {
  }

  lemma {:induction false} VerdictMarksEarned(state: bool, typed: bool, valued: bool, m: FieldMark)
    ensures VerdictMarks(state, typed, valued)[m] == Bit(
      match m
      case StateCorrect => state
      case StateMismatch => !state
      case TypeCorrect => typed
      case TypeMismatch => !typed
      case ValueCorrect => valued
      case ValueMismatch => !valued
      case _ => false)
  {
  }

  lemma {:induction false} SourceMarksEarned(cited: bool, sourced: bool, measured: bool, localized: bool, m: FieldMark)
    ensures SourceMarks(cited, sourced, measured, localized)[m] == Bit(
      match m
      case SourceCorrect => cited && sourced
      case SourceMismatch => cited && !sourced
      case LocalizationCorrect => cited && measured && localized
      case LocalizationMismatch => cited && measured && !localized
      case _ => false)
  {
  }

  lemma {:induction false} MarksEarned(e: Expected, j: Attempted, policy: Policy, m: FieldMark)
    ensures Marks(e, j.observed, DeclaredAs(j.declared, j.observed.slot), policy)[m]
         == Bit(m == Prediction || m == PredictedState(j.observed.state) || FirstEarns(e, j, policy, m))
  {
    var f := FlagsOf(e, j.observed, DeclaredAs(j.declared, j.observed.slot), policy);
    VerdictsExactly(e, j, policy);
    PartsEarned(e.state, j.observed.state, f, m);
  }

  lemma {:induction false} VerdictsExactly(e: Expected, j: Attempted, policy: Policy)
    ensures FlagsOf(e, j.observed, DeclaredAs(j.declared, j.observed.slot), policy) == VerdictsOn(e, j, policy)
  {
    TypeMatchExactly(e, j, policy);
    ValueMatchExactly(e, j.observed, policy);
    SourceExactly(e, j.observed);
    LocalizedExactly(e, j.observed, policy);
  }

  lemma {:induction false} PartsEarned(x: State, y: State, f: Flags, m: FieldMark)
    ensures (FieldMarks(x, y) + VerdictMarks(f.state, f.typed, f.valued) + SourceMarks(f.cited, f.sourced, f.measured, f.localized))[m]
         == Bit(m == Prediction || m == PredictedState(y) || VerdictEarns(x, y, f, m))
  {
    FieldMarksEarned(x, y, m);
    VerdictMarksEarned(f.state, f.typed, f.valued, m);
    SourceMarksEarned(f.cited, f.sourced, f.measured, f.localized, m);
    ThreeParts(FieldMarks(x, y), VerdictMarks(f.state, f.typed, f.valued), SourceMarks(f.cited, f.sourced, f.measured, f.localized), m);
  }

  lemma {:induction false} ThreeParts(a: multiset<FieldMark>, b: multiset<FieldMark>, c: multiset<FieldMark>, m: FieldMark)
    ensures (a + b + c)[m] == a[m] + b[m] + c[m]
  {
  }

  lemma {:induction false} UnmatchedEarn(x: State, kind: FieldMark, m: FieldMark)
    requires kind == UnknownField || kind == DuplicatePrediction
    ensures multiset{Prediction, PredictedState(x), kind}[m] == Bit(m == Prediction || m == PredictedState(x) || m == kind)
  {
  }

  lemma {:induction false} SeenAlready(s: Schedule, all: seq<Attempted>, j: Attempted, p: Progress)
    requires Decides(s, all, p) && KeyOf(j) in s.expected
    ensures KeyOf(j) in p.seen <==> !FirstAt(all + [j], |all|)
  {
    var more := all + [j];
    assert DecidesField(s, all, KeyOf(j), KeyOf(j) in p.seen, KeyOf(j) in p.correct);
    PredictedExactly(all, KeyOf(j));
    forall h: nat | h < |all| ensures more[h] == all[h] {
    }
    assert more[|all|] == j;
  }

  lemma {:induction false} JudgeEarns(s: Schedule, all: seq<Attempted>, j: Attempted, p: Progress, m: FieldMark)
    requires ValidSchedule(s) && Decides(s, all, p)
    ensures Judge(s, j.caseId, j.declared, j.observed, p).score.fields[m] == p.score.fields[m] + Bit(Earns(s, all + [j], |all|, m))
  {
    LastEarns(s, all, j, m);
    if KeyOf(j) !in s.expected {
      UnmatchedEarn(j.observed.state, UnknownField, m);
    } else {
      SeenAlready(s, all, j, p);
      if KeyOf(j) in p.seen {
        UnmatchedEarn(j.observed.state, DuplicatePrediction, m);
      } else {
        FirstJudged(s, j, p, m);
      }
    }
  }

  lemma {:induction false} LastEarns(s: Schedule, all: seq<Attempted>, j: Attempted, m: FieldMark)
    requires ValidSchedule(s)
    ensures
      var more, always := all + [j], m == Prediction || m == PredictedState(j.observed.state);
      Earns(s, more, |all|, m) <==>
        if KeyOf(j) !in s.expected then always || m == UnknownField
        else if !FirstAt(more, |all|) then always || m == DuplicatePrediction
        else always || FirstEarns(s.expected[KeyOf(j)], j, s.policy, m)
  {
    assert (all + [j])[|all|] == j;
  }

  lemma {:induction false} FirstJudged(s: Schedule, j: Attempted, p: Progress, m: FieldMark)
    requires KeyOf(j) in s.expected && KeyOf(j) !in p.seen
    ensures Judge(s, j.caseId, j.declared, j.observed, p).score.fields[m]
         == p.score.fields[m]
            + Bit(m == Prediction || m == PredictedState(j.observed.state) || FirstEarns(s.expected[KeyOf(j)], j, s.policy, m))
  {
    MarksEarned(s.expected[KeyOf(j)], j, s.policy, m);
  }

  lemma {:induction false} EarnsStill(s: Schedule, all: seq<Attempted>, j: Attempted, i: nat, m: FieldMark)
    requires i < |all|
    ensures Earns(s, all + [j], i, m) <==> Earns(s, all, i, m)
  {
    var more := all + [j];
    forall h: nat | h <= i ensures more[h] == all[h] {
    }
    assert FirstAt(more, i) <==> FirstAt(all, i);
  }

  lemma {:induction false} EarningNext(s: Schedule, all: seq<Attempted>, j: Attempted, m: FieldMark)
    ensures |Earning(s, all + [j], m)| == |Earning(s, all, m)| + Bit(Earns(s, all + [j], |all|, m))
  {
    var n := |all|;
    forall i: nat ensures i in Earning(s, all + [j], m) <==> i in Earning(s, all, m) || (i == n && Earns(s, all + [j], n, m)) {
      if i < n {
        EarnsStill(s, all, j, i, m);
      }
    }
    Grows(Earning(s, all, m), Earning(s, all + [j], m), n, Earns(s, all + [j], n, m));
  }

  lemma {:induction false} Grows(before: set<nat>, after: set<nat>, n: nat, more: bool)
    requires n !in before && forall i: nat :: i in after <==> i in before || (i == n && more)
    ensures |after| == |before| + Bit(more)
  {
    assert after == if more then before + {n} else before;
  }

  /** The counters of predictions say exactly what the predictions so far earn. */
  ghost predicate FieldsSay(s: Schedule, all: seq<Attempted>, p: Progress, m: FieldMark) {
    Decides(s, all, p) && p.score.fields[m] == |Earning(s, all, m)|
  }

  lemma {:induction false} JudgeSays(s: Schedule, all: seq<Attempted>, j: Attempted, p: Progress, m: FieldMark)
    requires ValidSchedule(s) && FieldsSay(s, all, p, m)
    ensures FieldsSay(s, all + [j], Judge(s, j.caseId, j.declared, j.observed, p), m)
  {
    JudgeDecides(s, all, j, p);
    JudgeEarns(s, all, j, p, m);
    EarningNext(s, all, j, m);
  }

  lemma {:induction false} JudgeAllSays(
    s: Schedule, all: seq<Attempted>, c: nat, declared: seq<Declaration>, observed: seq<Observed>, p: Progress, these: seq<Attempted>, m: FieldMark)
    requires ValidSchedule(s) && FieldsSay(s, all, p, m)
    requires |these| == |observed| && forall i :: 0 <= i < |these| ==> these[i] == Attempted(c, declared, observed[i])
    ensures FieldsSay(s, all + these, JudgeAll(s, c, declared, observed, p), m)
  {
    if observed == [] {
      assert all + these == all;
    } else {
      var n := |observed| - 1;
      JudgeAllSays(s, all, c, declared, observed[..n], p, these[..n], m);
      JudgeSays(s, all + these[..n], these[n], JudgeAll(s, c, declared, observed[..n], p), m);
      assert all + these == (all + these[..n]) + [these[n]];
    }
  }

  lemma {:induction false} ScorePageSays(s: Schedule, r: Repeat, key: PageKey, all: seq<Attempted>, p: Progress, m: FieldMark)
    requires ValidSchedule(s) && FieldsSay(s, all, p, m)
    ensures FieldsSay(s, all + PageAttempts(r, key), ScorePage(s, r, key, p), m)
  {
    if key !in r.outcomes {
      SameSets(s, all, p, MarkMissing(r, key, p));
      assert all + [] == all;
    } else {
      var o := r.outcomes[key];
      SameSets(s, all, p, MarkPresent(o, key, p));
      if o.proposal.None? {
        assert all + [] == all;
      } else {
        JudgeAllSays(s, all, key.caseId, o.proposal.value.declared, o.proposal.value.observed,
                     MarkPresent(o, key, p), PageAttempts(r, key), m);
      }
    }
  }

  lemma {:induction false} ScorePagesSay(s: Schedule, r: Repeat, pages: seq<PageKey>, p: Progress, m: FieldMark)
    requires ValidSchedule(s) && FieldsSay(s, [], p, m)
    ensures FieldsSay(s, Attempts(r, pages), ScorePages(s, r, pages, p), m)
  {
    if pages != [] {
      var front, key := pages[..|pages| - 1], pages[|pages| - 1];
      ScorePagesSay(s, r, front, p, m);
      ScorePageSays(s, r, key, Attempts(r, front), ScorePages(s, r, front, p), m);
    }
  }

  lemma {:induction false} NothingSaid(s: Schedule, p: Progress, m: FieldMark)
    requires p.score.fields == multiset{} && p.seen == {} && p.correct == {}
    ensures FieldsSay(s, [], p, m)
  {
    assert Earning(s, [], m) == {};
    forall k ensures DecidesField(s, [], k, k in p.seen, k in p.correct) {
    }
  }

  lemma {:induction false} BegunSays(s: Schedule, r: Repeat, m: FieldMark) returns (begun: Progress)
    requires ValidSchedule(s) && ValidRepeat(s, r)
    ensures |r.outcomes| <= |s.pages| && begun == OpenCases(s, r, s.cases, Opening(s, r))
    ensures FieldsSay(s, [], begun, m)
  {
    RepeatFits(s, r);
    var p := Opening(s, r);
    begun := OpenCases(s, r, s.cases, p);
    OpenCasesLeave(s, r, s.cases, p);
    NothingSaid(s, begun, m);
  }

  lemma {:induction false} OpenCasesLeave(s: Schedule, r: Repeat, cases: seq<nat>, p: Progress)
    ensures
      var q := OpenCases(s, r, cases, p);
      q == p.(score := p.score.(cases := q.score.cases), review := q.review)
  {
    if cases != [] {
      OpenCasesLeave(s, r, cases[..|cases| - 1], p);
    }
  }

  lemma {:induction false} FinalCounters(s: Schedule, r: Repeat) returns (q: Progress, counted: Progress)
    requires ValidSchedule(s) && ValidRepeat(s, r)
    ensures |r.outcomes| <= |s.pages| && q == AfterPages(s, r) && |q.seen| <= |s.expected|
    ensures counted == CountFields(s, s.fields, Totals(s, q)) && ScoreRepeat(s, r) == Closing(s, r, counted)
    ensures counted == q.(score := q.score.(totals := counted.score.totals))
    ensures ScoreRepeat(s, r).score == counted.score.(cases := ScoreRepeat(s, r).score.cases)
    ensures ScoreRepeat(s, r).seen == q.seen && ScoreRepeat(s, r).correct == q.correct
  {
    q := AfterPagesOk(s, r);
    counted := CountedOk(s, q);
    var closed := CloseCasesKeeps(s, r, s.cases, counted);
  }

  /** Each counter of predictions is the number of predictions of the repeat that earn it: first
      predictions of golden fields earn verdicts, later ones are duplicates, the rest unknown. */
  lemma {:induction false} FieldCountersExactly(s: Schedule, r: Repeat, m: FieldMark)
    requires ValidSchedule(s) && ValidRepeat(s, r)
    ensures ScoreRepeat(s, r).score.fields[m] == |Earning(s, Attempts(r, s.pages), m)|
  {
    var begun := BegunSays(s, r, m);
    ScorePagesSay(s, r, s.pages, begun, m);
    var q, counted := FinalCounters(s, r);
  }

  // ------------------------------------------------------------------------- counting pages

  ghost predicate Unsure(o: Outcome) {
    || !o.candidate || |o.handoffs| > 0
    || (o.proposal.Some? && o.proposal.value.unresolved + o.proposal.value.unsupported > 0)
  }

  /** A scheduled page is counted under `m`. */
  ghost predicate PageEarns(r: Repeat, key: PageKey, m: PageMark) {
    match m
    case ScheduledPage => true
    case ObservedPage => key in r.outcomes
    case MissingPage => key !in r.outcomes
    case CandidatePage => key in r.outcomes && r.outcomes[key].candidate
    case FailedPage => key in r.errors || (key in r.outcomes && !r.outcomes[key].candidate)
    case RefusedPage =>
      || (key in r.errors && r.errors[key] == Refused)
      || (key in r.outcomes && r.outcomes[key].failure == Some(Refused))
    case HandoffPage => key in r.outcomes && |r.outcomes[key].handoffs| > 0
    case ReviewPage => key in r.outcomes ==> Unsure(r.outcomes[key])
    case RunnerErrorPage => key in r.errors
  }

  ghost function PagesEarning(r: Repeat, pages: seq<PageKey>, m: PageMark): set<PageKey> {
    set k | k in pages && PageEarns(r, k, m)
  }

  /** The three counters that a repeat adds at once, before it looks at any page. */
  ghost predicate CountedAhead(m: PageMark) {
    m.ScheduledPage? || m.ObservedPage? || m.MissingPage?
  }

  lemma {:induction false} MissingMarksEarned(r: Repeat, key: PageKey, m: PageMark)
    requires key !in r.outcomes
    ensures MissingMarks(key in r.errors, key in r.errors && r.errors[key].Refused?)[m]
         == Bit(!CountedAhead(m) && PageEarns(r, key, m))
  {
  }

  lemma {:induction false} UnsureExactly(o: Outcome)
    ensures NeedsReview(o) <==> Unsure(o)
  {
  }

  lemma {:induction false} PageMarksCount(candidate: bool, refused: bool, handoff: bool, review: bool, m: PageMark)
    ensures PageMarks(candidate, refused, handoff, review)[m] == Bit(
      match m
      case CandidatePage => candidate
      case FailedPage => !candidate
      case RefusedPage => refused
      case HandoffPage => handoff
      case ReviewPage => review
      case _ => false)
  {
  }

  lemma {:induction false} PageMarksEarned(r: Repeat, key: PageKey, m: PageMark)
    requires key in r.outcomes && key !in r.errors
    ensures
      var o := r.outcomes[key];
      PageMarks(o.candidate, o.failure == Some(Refused), o.handoffs != [], NeedsReview(o))[m]
        == Bit(!CountedAhead(m) && PageEarns(r, key, m))
  {
    var o := r.outcomes[key];
    UnsureExactly(o);
    PageMarksCount(o.candidate, o.failure == Some(Refused), o.handoffs != [], NeedsReview(o), m);
  }

  lemma {:induction false} JudgeAllLeaves(s: Schedule, c: nat, declared: seq<Declaration>, observed: seq<Observed>, p: Progress)
    ensures
      var q := JudgeAll(s, c, declared, observed, p);
      q.score == p.score.(fields := q.score.fields) && q.review == p.review
  {
    if observed != [] {
      JudgeAllLeaves(s, c, declared, observed[..|observed| - 1], p);
    }
  }

  /** What one page adds to the page counters and to the review set. */
  ghost predicate PageAdds(r: Repeat, key: PageKey, p: Progress, q: Progress, m: PageMark) {
    && q.score.pages[m] == p.score.pages[m] + Bit(!CountedAhead(m) && PageEarns(r, key, m))
    && q.score.cases == p.score.cases
    && q.review == if key in r.outcomes && Unsure(r.outcomes[key]) then p.review + {key.caseId} else p.review
  }

  lemma {:induction false} ScorePageCounts(s: Schedule, r: Repeat, key: PageKey, p: Progress, m: PageMark)
    requires key in r.outcomes ==> key !in r.errors
    ensures PageAdds(r, key, p, ScorePage(s, r, key, p), m)
  {
    if key !in r.outcomes {
      MissingCounts(r, key, p, m);
    } else {
      PresentCounts(r, key, p, m);
      var o := r.outcomes[key];
      if o.proposal.Some? {
        JudgeAllLeaves(s, key.caseId, o.proposal.value.declared, o.proposal.value.observed, MarkPresent(o, key, p));
      }
    }
  }

  lemma {:induction false} MissingCounts(r: Repeat, key: PageKey, p: Progress, m: PageMark)
    requires key !in r.outcomes
    ensures PageAdds(r, key, p, MarkMissing(r, key, p), m)
  {
    MissingMarksEarned(r, key, m);
  }

  lemma {:induction false} PresentCounts(r: Repeat, key: PageKey, p: Progress, m: PageMark)
    requires key in r.outcomes && key !in r.errors
    ensures PageAdds(r, key, p, MarkPresent(r.outcomes[key], key, p), m)
  {
    UnsureExactly(r.outcomes[key]);
    PageMarksEarned(r, key, m);
  }

  lemma {:induction false} PagesEarningNext(r: Repeat, front: seq<PageKey>, key: PageKey, m: PageMark)
    requires key !in front
    ensures |PagesEarning(r, front + [key], m)| == |PagesEarning(r, front, m)| + Bit(PageEarns(r, key, m))
  {
    if PageEarns(r, key, m) {
      assert PagesEarning(r, front + [key], m) == PagesEarning(r, front, m) + {key};
    } else {
      assert PagesEarning(r, front + [key], m) == PagesEarning(r, front, m);
    }
  }

  /** An unsure page of the case among these. */
  ghost predicate UnsureAmong(r: Repeat, pages: seq<PageKey>, c: nat) {
    exists k :: k in pages && k.caseId == c && k in r.outcomes && Unsure(r.outcomes[k])
  }

  lemma {:induction false} UnsureNext(r: Repeat, front: seq<PageKey>, key: PageKey, c: nat)
    ensures UnsureAmong(r, front + [key], c) <==>
      UnsureAmong(r, front, c) || (key.caseId == c && key in r.outcomes && Unsure(r.outcomes[key]))
  {
    assert key in front + [key];
  }

  lemma {:induction false} ScorePagesCount(s: Schedule, r: Repeat, pages: seq<PageKey>, p: Progress, m: PageMark, c: nat)
    requires NoDuplicates(pages) && forall k :: k in r.errors ==> k !in r.outcomes
    ensures
      var q := ScorePages(s, r, pages, p);
      && q.score.pages[m] == p.score.pages[m] + (if CountedAhead(m) then 0 else |PagesEarning(r, pages, m)|)
      && q.score.cases == p.score.cases
      && (c in q.review <==> c in p.review || UnsureAmong(r, pages, c))
  {
    if pages == [] {
      assert PagesEarning(r, pages, m) == {};
    } else {
      var front, key := pages[..|pages| - 1], pages[|pages| - 1];
      assert pages == front + [key];
      ScorePagesCount(s, r, front, p, m, c);
      ScorePageCounts(s, r, key, ScorePages(s, r, front, p), m);
      PagesEarningNext(r, front, key, m);
      UnsureNext(r, front, key, c);
    }
  }

  lemma {:induction false} AheadExactly(s: Schedule, r: Repeat, m: PageMark)
    requires ValidSchedule(s) && ValidRepeat(s, r) && |r.outcomes| <= |s.pages|
    ensures Opening(s, r).score.pages[m] == if CountedAhead(m) then |PagesEarning(r, s.pages, m)| else 0
  {
    HeaderCounts(|s.pages|, |r.outcomes|, |s.pages| - |r.outcomes|, m);
    if CountedAhead(m) {
      AheadSizes(s, r, m);
    }
  }

  lemma {:induction false} HeaderCounts(n: nat, a: nat, b: nat, m: PageMark)
    ensures (Times(ScheduledPage, n) + Times(ObservedPage, a) + Times(MissingPage, b))[m]
         == if m == ScheduledPage then n else if m == ObservedPage then a else if m == MissingPage then b else 0
  {
  }

  lemma {:induction false} AheadSizes(s: Schedule, r: Repeat, m: PageMark)
    requires ValidSchedule(s) && ValidRepeat(s, r) && CountedAhead(m)
    ensures |PagesEarning(r, s.pages, m)|
         == if m == ScheduledPage then |s.pages| else if m == ObservedPage then |r.outcomes| else |s.pages| - |r.outcomes|
  {
    var all, observed := Elements(s.pages), r.outcomes.Keys;
    Distinct(s.pages);
    assert |observed| == |r.outcomes|;
    match m
    case ScheduledPage => SamePages(r, s.pages, m, all);
    case ObservedPage => SamePages(r, s.pages, m, observed);
    case MissingPage =>
      Apart(all, observed);
      SamePages(r, s.pages, m, all - observed);
  }

  lemma {:induction false} SamePages(r: Repeat, pages: seq<PageKey>, m: PageMark, keys: set<PageKey>)
    requires forall k :: k in keys <==> k in pages && PageEarns(r, k, m)
    ensures PagesEarning(r, pages, m) == keys
  {
  }

  lemma {:induction false} Apart<T>(all: set<T>, part: set<T>)
    requires part <= all
    ensures |all - part| == |all| - |part|
  {
  }

  ghost function Elements<T>(xs: seq<T>): set<T> {
    set x | x in xs
  }

  lemma {:induction false} Distinct<T>(xs: seq<T>)
    requires NoDuplicates(xs)
    ensures |Elements(xs)| == |xs|
  {
    if xs != [] {
      var front, last := xs[..|xs| - 1], xs[|xs| - 1];
      assert xs == front + [last];
      Distinct(front);
      assert Elements(xs) == Elements(front) + {last};
    }
  }

  /** Each counter of pages is the number of scheduled pages whose record earns it. */
  lemma {:induction false} PageCountersExactly(s: Schedule, r: Repeat, m: PageMark)
    requires ValidSchedule(s) && ValidRepeat(s, r)
    ensures ScoreRepeat(s, r).score.pages[m] == |PagesEarning(r, s.pages, m)|
  {
    var q, counted := FinalCounters(s, r);
    var p := Opening(s, r);
    OpenCasesLeave(s, r, s.cases, p);
    ScorePagesCount(s, r, s.pages, OpenCases(s, r, s.cases, p), m, 0);
    AheadExactly(s, r, m);
  }

  // ------------------------------------------------------------------- counting cases, fields

  ghost predicate PageOf(s: Schedule, c: nat, k: PageKey) {
    k in s.pages && k.caseId == c
  }

  ghost predicate FieldOf(s: Schedule, c: nat, k: FieldKey) {
    k in s.fields && k.caseId == c
  }

  /** The repeat's first prediction for the field is right. */
  ghost predicate AnsweredRight(s: Schedule, r: Repeat, k: FieldKey) {
    var all := Attempts(r, s.pages);
    k in s.expected && exists i: nat :: i < |all| && KeyOf(all[i]) == k && FirstAt(all, i) && AnswerRight(s.expected[k], all[i], s.policy)
  }

  ghost predicate Answered(s: Schedule, r: Repeat, k: FieldKey) {
    exists i: nat :: i < |Attempts(r, s.pages)| && KeyOf(Attempts(r, s.pages)[i]) == k
  }

  /** Somebody has to look at the case: a page is missing or unsure, or a field is not answered right. */
  ghost predicate NeedsHuman(s: Schedule, r: Repeat, c: nat) {
    || (exists k :: PageOf(s, c, k) && (k in r.outcomes ==> Unsure(r.outcomes[k])))
    || (exists k :: FieldOf(s, c, k) && !AnsweredRight(s, r, k))
  }

  /** A scheduled case is counted under `m`. */
  ghost predicate CaseEarns(s: Schedule, r: Repeat, c: nat, m: CaseMark) {
    match m
    case ScheduledCase => true
    case ObservedCase => exists k :: PageOf(s, c, k) && k in r.outcomes
    case MissingCase => forall k :: PageOf(s, c, k) ==> k !in r.outcomes
    case CompleteCase => forall k :: PageOf(s, c, k) ==> k in r.outcomes
    case AllCandidateCase => forall k :: PageOf(s, c, k) ==> k in r.outcomes && r.outcomes[k].candidate
    case FullyCorrectCase =>
      && (forall k :: PageOf(s, c, k) ==> k in r.outcomes && r.outcomes[k].candidate)
      && (exists k :: FieldOf(s, c, k))
      && (forall k :: FieldOf(s, c, k) ==> AnsweredRight(s, r, k))
    case ReviewCase => NeedsHuman(s, r, c)
  }

  ghost function CasesEarning(s: Schedule, r: Repeat, cases: seq<nat>, m: CaseMark): set<nat> {
    set c | c in cases && CaseEarns(s, r, c, m)
  }

  lemma {:induction false} PagesOfExactly(s: Schedule, r: Repeat, c: nat)
    ensures AnyOutcome(s, r, c) <==> CaseEarns(s, r, c, ObservedCase)
    ensures AnyOutcome(s, r, c) <==> !CaseEarns(s, r, c, MissingCase)
    ensures Complete(s, r, c) <==> CaseEarns(s, r, c, CompleteCase)
    ensures AllCandidates(s, r, c) <==> CaseEarns(s, r, c, AllCandidateCase)
  {
    forall i | 0 <= i < |s.pages| && s.pages[i].caseId == c ensures PageOf(s, c, s.pages[i]) {
    }
  }

  lemma {:induction false} FieldsOfExactly(s: Schedule, r: Repeat, c: nat, correct: set<FieldKey>)
    requires forall k :: k in correct <==> AnsweredRight(s, r, k)
    ensures HasFields(s, c) <==> exists k :: FieldOf(s, c, k)
    ensures CaseCorrect(s, c, correct) <==> forall k :: FieldOf(s, c, k) ==> AnsweredRight(s, r, k)
  {
    forall i | 0 <= i < |s.fields| && s.fields[i].caseId == c ensures FieldOf(s, c, s.fields[i]) {
    }
  }

  /** The scorer's two field sets, spelled out. */
  lemma {:induction false} SetsExactly(s: Schedule, r: Repeat, k: FieldKey)
    requires ValidSchedule(s) && ValidRepeat(s, r)
    ensures k in ScoreRepeat(s, r).correct <==> AnsweredRight(s, r, k)
    ensures k in ScoreRepeat(s, r).seen <==> k in s.fields && Answered(s, r, k)
  {
    var all := Attempts(r, s.pages);
    FirstPredictionDecides(s, r, k);
    PredictedExactly(all, k);
    if FirstOf(all, k).Some? {
      RightExactly(s, FirstOf(all, k).value);
    }
    if AnsweredRight(s, r, k) {
      var i: nat :| i < |all| && KeyOf(all[i]) == k && FirstAt(all, i) && AnswerRight(s.expected[k], all[i], s.policy);
      FirstIsUnique(all, k, i);
    }
  }

  lemma {:induction false} FirstIsUnique(all: seq<Attempted>, k: FieldKey, i: nat)
    requires i < |all| && KeyOf(all[i]) == k && FirstAt(all, i)
    ensures FirstOf(all, k) == Some(all[i])
  {
    PredictedExactly(all, k);
    var h: nat :| h < |all| && all[h] == FirstOf(all, k).value && KeyOf(all[h]) == k && FirstAt(all, h);
    assert h == i;
  }

  lemma {:induction false} OpenMarksEarned(s: Schedule, r: Repeat, c: nat, m: CaseMark)
    ensures OpenMarks(AnyOutcome(s, r, c), Complete(s, r, c), AllCandidates(s, r, c))[m]
         == Bit(m in {ObservedCase, MissingCase, CompleteCase, AllCandidateCase} && CaseEarns(s, r, c, m))
  {
    PagesOfExactly(s, r, c);
  }

  lemma {:induction false} CasesEarningNext(s: Schedule, r: Repeat, front: seq<nat>, c: nat, m: CaseMark)
    requires c !in front
    ensures |CasesEarning(s, r, front + [c], m)| == |CasesEarning(s, r, front, m)| + Bit(CaseEarns(s, r, c, m))
  {
    if CaseEarns(s, r, c, m) {
      assert CasesEarning(s, r, front + [c], m) == CasesEarning(s, r, front, m) + {c};
    } else {
      assert CasesEarning(s, r, front + [c], m) == CasesEarning(s, r, front, m);
    }
  }

  lemma {:induction false} OpenCasesCount(s: Schedule, r: Repeat, cases: seq<nat>, p: Progress, m: CaseMark, c: nat)
    requires NoDuplicates(cases)
    ensures
      var q := OpenCases(s, r, cases, p);
      && q.score.cases[m] == p.score.cases[m]
         + (if m in {ObservedCase, MissingCase, CompleteCase, AllCandidateCase} then |CasesEarning(s, r, cases, m)| else 0)
      && (c in q.review <==> c in p.review || (c in cases && !Complete(s, r, c)))
  {
    if cases == [] {
      assert CasesEarning(s, r, cases, m) == {};
    } else {
      var front, last := cases[..|cases| - 1], cases[|cases| - 1];
      assert cases == front + [last];
      OpenCasesCount(s, r, front, p, m, c);
      OpenMarksEarned(s, r, last, m);
      CasesEarningNext(s, r, front, last, m);
    }
  }

  lemma {:induction false} CloseCaseCounts(s: Schedule, r: Repeat, c: nat, p: Progress, m: CaseMark)
    requires forall k :: k in p.correct <==> AnsweredRight(s, r, k)
    ensures
      var q := CloseCase(s, r, c, p);
      && q.score.cases[m] == p.score.cases[m] + Bit(m == FullyCorrectCase && CaseEarns(s, r, c, FullyCorrectCase))
      && q.correct == p.correct
      && q.review == if CaseCorrect(s, c, p.correct) then p.review else p.review + {c}
  {
    PagesOfExactly(s, r, c);
    FieldsOfExactly(s, r, c, p.correct);
  }

  lemma {:induction false} CloseCasesCount(s: Schedule, r: Repeat, cases: seq<nat>, p: Progress, m: CaseMark, c: nat)
    requires NoDuplicates(cases) && forall k :: k in p.correct <==> AnsweredRight(s, r, k)
    ensures
      var q := CloseCases(s, r, cases, p);
      && q.score.cases[m] == p.score.cases[m] + (if m == FullyCorrectCase then |CasesEarning(s, r, cases, m)| else 0)
      && q.correct == p.correct
      && (c in q.review <==> c in p.review || (c in cases && !CaseCorrect(s, c, p.correct)))
  {
    if cases == [] {
      assert CasesEarning(s, r, cases, m) == {};
    } else {
      var front, last := cases[..|cases| - 1], cases[|cases| - 1];
      assert cases == front + [last];
      CloseCasesCount(s, r, front, p, m, c);
      CloseCaseCounts(s, r, last, CloseCases(s, r, front, p), m);
      CasesEarningNext(s, r, front, last, m);
    }
  }

  lemma {:induction false} HumanExactly(s: Schedule, r: Repeat, c: nat, correct: set<FieldKey>)
    requires forall k :: k in correct <==> AnsweredRight(s, r, k)
    ensures NeedsHuman(s, r, c) <==> !Complete(s, r, c) || UnsureAmong(r, s.pages, c) || !CaseCorrect(s, c, correct)
  {
    PagesOfExactly(s, r, c);
    FieldsOfExactly(s, r, c, correct);
    if UnsureAmong(r, s.pages, c) {
      var k :| k in s.pages && k.caseId == c && k in r.outcomes && Unsure(r.outcomes[k]);
      assert PageOf(s, c, k);
    }
  }

  lemma {:induction false} CorrectIs(s: Schedule, r: Repeat) returns (q: Progress, counted: Progress)
    requires ValidSchedule(s) && ValidRepeat(s, r)
    ensures |r.outcomes| <= |s.pages| && q == AfterPages(s, r)
    ensures counted == q.(score := q.score.(totals := counted.score.totals))
    ensures ScoreRepeat(s, r) == Closing(s, r, counted)
    ensures forall k :: k in counted.correct <==> AnsweredRight(s, r, k)
  {
    q, counted := FinalCounters(s, r);
    forall k ensures k in counted.correct <==> AnsweredRight(s, r, k) {
      SetsExactly(s, r, k);
    }
  }

  /** A case is sent to review exactly if it is scheduled and somebody has to look at it. */
  lemma {:induction false} ReviewedExactly(s: Schedule, r: Repeat, c: nat)
    requires ValidSchedule(s) && ValidRepeat(s, r)
    ensures c in ScoreRepeat(s, r).review <==> c in s.cases && NeedsHuman(s, r, c)
  {
    var q, counted := CorrectIs(s, r);
    var p := Opening(s, r);
    OpenCasesCount(s, r, s.cases, p, ReviewCase, c);
    ScorePagesCount(s, r, s.pages, OpenCases(s, r, s.cases, p), ReviewPage, c);
    CloseCasesCount(s, r, s.cases, counted, ReviewCase, c);
    HumanExactly(s, r, c, counted.correct);
  }

  /** Each counter of cases is the number of scheduled cases that earn it. */
  lemma {:induction false} CaseCountersExactly(s: Schedule, r: Repeat, m: CaseMark)
    requires ValidSchedule(s) && ValidRepeat(s, r)
    ensures ScoreRepeat(s, r).score.cases[m] == |CasesEarning(s, r, s.cases, m)|
  {
    var q, counted := CorrectIs(s, r);
    if m == ScheduledCase {
      CasesScheduled(s, r);
    } else if m == ReviewCase {
      CasesReviewed(s, r);
    }
    BegunCases(s, r, m);
    ClosedCases(s, r, counted, m);
  }

  lemma {:induction false} CasesScheduled(s: Schedule, r: Repeat)
    requires NoDuplicates(s.cases)
    ensures |s.cases| == |CasesEarning(s, r, s.cases, ScheduledCase)|
  {
    Distinct(s.cases);
    assert Elements(s.cases) == CasesEarning(s, r, s.cases, ScheduledCase);
  }

  lemma {:induction false} CasesReviewed(s: Schedule, r: Repeat)
    requires ValidSchedule(s) && ValidRepeat(s, r)
    ensures ScoreRepeat(s, r).review == CasesEarning(s, r, s.cases, ReviewCase)
  {
    forall c: nat ensures c in ScoreRepeat(s, r).review <==> InReview(s, r, c) {
      ReviewedExactly(s, r, c);
    }
    SameCases(s, r, ScoreRepeat(s, r).review);
  }

  ghost predicate InReview(s: Schedule, r: Repeat, c: nat) {
    c in s.cases && NeedsHuman(s, r, c)
  }

  lemma {:induction false} SameCases(s: Schedule, r: Repeat, review: set<nat>)
    requires forall c: nat :: c in review <==> InReview(s, r, c)
    ensures review == CasesEarning(s, r, s.cases, ReviewCase)
  {
    var earning := CasesEarning(s, r, s.cases, ReviewCase);
    forall c: nat ensures c in review <==> c in earning {
      assert InReview(s, r, c) <==> c in s.cases && CaseEarns(s, r, c, ReviewCase);
    }
    assert review == earning;
  }

  lemma {:induction false} BegunCases(s: Schedule, r: Repeat, m: CaseMark)
    requires ValidSchedule(s) && ValidRepeat(s, r) && |r.outcomes| <= |s.pages|
    ensures AfterPages(s, r).score.cases[m] ==
      if m == ScheduledCase then |s.cases|
      else if m in {ObservedCase, MissingCase, CompleteCase, AllCandidateCase} then |CasesEarning(s, r, s.cases, m)|
      else 0
  {
    var p := Opening(s, r);
    OpenCasesCount(s, r, s.cases, p, m, 0);
    ScorePagesCount(s, r, s.pages, OpenCases(s, r, s.cases, p), ReviewPage, 0);
  }

  lemma {:induction false} ClosedCases(s: Schedule, r: Repeat, p: Progress, m: CaseMark)
    requires NoDuplicates(s.cases) && forall k :: k in p.correct <==> AnsweredRight(s, r, k)
    ensures Closing(s, r, p).score.cases[m] == p.score.cases[m] + (
      if m == FullyCorrectCase then |CasesEarning(s, r, s.cases, m)|
      else if m == ReviewCase then |Closing(s, r, p).review|
      else 0)
  {
    CloseCasesCount(s, r, s.cases, p, m, 0);
  }

  /** A golden field is counted under `m`. */
  ghost predicate FieldEarns(s: Schedule, r: Repeat, k: FieldKey, m: TotalMark) {
    && k in s.expected
    && match m
       case ExpectedField => true
       case ExpectedCited => s.expected[k].citation.Some?
       case ExpectedState(x) => s.expected[k].state == x
       case Unpredicted(x) => s.expected[k].state == x && !Answered(s, r, k)
       case MissingPrediction => !Answered(s, r, k)
       case CorrectField => AnsweredRight(s, r, k)
  }

  ghost function FieldsEarning(s: Schedule, r: Repeat, fields: seq<FieldKey>, m: TotalMark): set<FieldKey> {
    set k | k in fields && FieldEarns(s, r, k, m)
  }

  /** Each total is the number of golden fields that earn it. */
  lemma {:induction false} TotalsExactly(s: Schedule, r: Repeat, m: TotalMark)
    requires ValidSchedule(s) && ValidRepeat(s, r)
    ensures ScoreRepeat(s, r).score.totals[m] == |FieldsEarning(s, r, s.fields, m)|
  {
    var q := AfterPagesOk(s, r);
    var counted := CountedOk(s, q);
    var _, _ := FinalCounters(s, r);
    forall k ensures (k in q.correct <==> AnsweredRight(s, r, k)) && (k in q.seen <==> k in s.fields && Answered(s, r, k)) {
      SetsExactly(s, r, k);
    }
    TotalEarned(s, r, q, counted, m);
  }

  lemma {:induction false} TotalEarned(s: Schedule, r: Repeat, q: Progress, counted: Progress, m: TotalMark)
    requires ValidSchedule(s) && Counted(s, q, counted)
    requires forall k :: k in q.correct <==> AnsweredRight(s, r, k)
    requires forall k :: k in q.seen <==> k in s.fields && Answered(s, r, k)
    ensures counted.score.totals[m] == |FieldsEarning(s, r, s.fields, m)|
  {
    var keys := s.expected.Keys;
    match m
    case ExpectedField => EarnedBy(s, r, m, keys);
    case ExpectedCited => EarnedBy(s, r, m, CitedIn(s, keys));
    case ExpectedState(x) =>
      assert StateLaws(s, counted.score.totals, keys, q.seen, x);
      EarnedBy(s, r, m, InState(s, keys, x));
    case Unpredicted(x) =>
      assert StateLaws(s, counted.score.totals, keys, q.seen, x);
      EarnedBy(s, r, m, InState(s, keys - q.seen, x));
    case MissingPrediction =>
      assert q.seen <= keys && |keys - q.seen| == |keys| - |q.seen|;
      EarnedBy(s, r, m, keys - q.seen);
    case CorrectField => EarnedBy(s, r, m, q.correct);
  }

  lemma {:induction false} EarnedBy(s: Schedule, r: Repeat, m: TotalMark, keys: set<FieldKey>)
    requires ValidSchedule(s) && forall k :: k in keys <==> FieldEarns(s, r, k, m)
    ensures FieldsEarning(s, r, s.fields, m) == keys
  {
  }

}
