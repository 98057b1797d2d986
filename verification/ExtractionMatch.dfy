/** Comparing one extracted field with its golden (`application/extraction_evaluation.py`). */
module ExtractionMatch {
  import opened Common

  datatype State = Present | Blank | Missing | NotPresent | NotApplicable

  datatype Unit = PercentPoints | Ratio | Grade

  /** A printed text, with the finite decimal it reads as, or a decimal. */
  datatype Value = Text(text: string, parsed: Option<real>) | Decimal(number: real)

  datatype Box = Box(x0: real, y0: real, x1: real, y1: real)

  datatype Citation = Citation(documentId: nat, contentHash: nat, version: nat, page: nat, regionId: nat, box: Box)

  datatype Shape = Shape(kind: nat, context: nat, factor: Option<nat>)

  datatype Expected = Expected(
    shape: Shape, state: State, value: Option<Value>, unit: Option<Unit>, citation: Option<Citation>)

  datatype Observed = Observed(
    slot: nat, state: State, value: Option<Value>, unit: Option<Unit>, evidence: seq<Citation>)

  datatype Policy = Policy(absolute: real, relative: real, converts: bool, minimumIou: Option<real>)

  function AbsReal(x: real): real {
    if x < 0.0 then -x else x
  }

  function MinReal(a: real, b: real): real {
    if a < b then a else b
  }

  function MaxReal(a: real, b: real): real {
    if a < b then b else a
  }

  function NumberOf(v: Option<Value>): Option<real> {
    match v
    case None => None
    case Some(Text(_, parsed)) => parsed
    case Some(Decimal(n)) => Some(n)
  }

  // ------------------------------------------------------------------ localization

  predicate ValidBox(b: Box) {
    0.0 <= b.x0 < b.x1 && 0.0 <= b.y0 < b.y1
  }

  function Overlap(a0: real, a1: real, b0: real, b1: real): real {
    MaxReal(0.0, MinReal(a1, b1) - MaxReal(a0, b0))
  }

  function Area(b: Box): real {
    (b.x1 - b.x0) * (b.y1 - b.y0)
  }

  function Intersection(a: Box, b: Box): real {
    Overlap(a.x0, a.x1, b.x0, b.x1) * Overlap(a.y0, a.y1, b.y0, b.y1)
  }

  lemma {:induction false} ProductMonotone(a: real, b: real, c: real, d: real)
    requires 0.0 <= a <= c && 0.0 <= b <= d
    ensures 0.0 <= a * b <= c * d
  {
    assert c * d - a * b == (c - a) * d + a * (d - b);
  }

  lemma {:induction false} PositiveProduct(a: real, b: real)
    requires 0.0 <= a && 0.0 <= b
    ensures a * b > 0.0 <==> a > 0.0 && b > 0.0
  {
  }

  /** The overlap of two intervals is symmetric and no longer than either. */
  lemma {:induction false} OverlapFits(a0: real, a1: real, b0: real, b1: real)
    requires a0 < a1 && b0 < b1
    ensures 0.0 <= Overlap(a0, a1, b0, b1) == Overlap(b0, b1, a0, a1) <= a1 - a0
    ensures Overlap(a0, a1, b0, b1) > 0.0 <==> a0 < b1 && b0 < a1
    ensures Overlap(a0, a1, b0, b1) == a1 - a0 <==> b0 <= a0 && a1 <= b1
  {
  }

  lemma {:induction false} FitsIn(w: real, h: real, b: Box)
    requires ValidBox(b) && 0.0 <= w <= b.x1 - b.x0 && 0.0 <= h <= b.y1 - b.y0
    ensures 0.0 <= w * h <= Area(b) && 0.0 < Area(b)
    ensures w < b.x1 - b.x0 || h < b.y1 - b.y0 ==> w * h < Area(b)
  {
    SideBySide(w, h, b.x1 - b.x0, b.y1 - b.y0);
  }

  lemma {:induction false} SideBySide(w: real, h: real, x: real, y: real)
    requires 0.0 <= w <= x && 0.0 <= h <= y && 0.0 < x && 0.0 < y
    ensures 0.0 <= w * h <= x * y && 0.0 < x * y
    ensures w < x || h < y ==> w * h < x * y
  {
    ProductMonotone(w, h, x, y);
    PositiveProduct(x, y);
    if w < x {
      Narrower(w, h, x, y);
    } else if h < y {
      StrictProduct(h, y, w);
      ProductMonotone(w, y, x, y);
    }
  }

  lemma {:induction false} Narrower(w: real, h: real, x: real, y: real)
    requires 0.0 <= w < x && 0.0 <= h <= y && 0.0 < y
    ensures w * h < x * y
  {
    ProductMonotone(w, h, w, y);
    StrictProduct(w, x, y);
  }

  lemma {:induction false} StrictProduct(a: real, b: real, c: real)
    requires a < b && 0.0 < c
    ensures a * c < b * c
  {
    PositiveProduct(b - a, c);
    assert (b - a) * c == b * c - a * c;
  }

  /** An intersection fits in both boxes, and both boxes have area. */
  lemma {:induction false} IntersectionFits(a: Box, b: Box)
    requires ValidBox(a) && ValidBox(b)
    ensures 0.0 <= Intersection(a, b) <= Area(a) && 0.0 < Area(a)
    ensures Intersection(a, b) <= Area(b) && 0.0 < Area(b)
    ensures Intersection(a, b) > 0.0 <==> Overlaps(a, b)
    ensures Intersection(a, b) == Area(a) && Intersection(a, b) == Area(b) ==> a == b
  {
    OverlapFits(a.x0, a.x1, b.x0, b.x1);
    OverlapFits(a.y0, a.y1, b.y0, b.y1);
    OverlapFits(b.x0, b.x1, a.x0, a.x1);
    OverlapFits(b.y0, b.y1, a.y0, a.y1);
    var w, h := Overlap(a.x0, a.x1, b.x0, b.x1), Overlap(a.y0, a.y1, b.y0, b.y1);
    FitsIn(w, h, a);
    FitsIn(w, h, b);
    PositiveProduct(w, h);
  }

  ghost predicate Overlaps(a: Box, b: Box) {
    a.x0 < b.x1 && b.x0 < a.x1 && a.y0 < b.y1 && b.y0 < a.y1
  }

  function Iou(a: Box, b: Box): real {
    if !ValidBox(a) || !ValidBox(b) then 0.0
    else
      IntersectionFits(a, b);
      Intersection(a, b) / (Area(a) + Area(b) - Intersection(a, b))
  }

  lemma {:induction false} Ordered(q: real, p: real, d: real)
    requires 0.0 < d
    ensures q < p ==> q * d < p * d
    ensures q > p ==> q * d > p * d
    ensures q == p ==> q * d == p * d
  {
    if q < p {
      StrictProduct(q, p, d);
    }
    if q > p {
      StrictProduct(p, q, d);
    }
  }

  lemma {:induction false} Quotient(n: real, d: real)
    requires 0.0 <= n <= d && 0.0 < d
    ensures 0.0 <= n / d <= 1.0
    ensures n / d == 1.0 <==> n == d
    ensures n / d > 0.0 <==> n > 0.0
  {
    var q := n / d;
    assert q * d == n;
    Ordered(q, 1.0, d);
    Ordered(q, 0.0, d);
    assert 1.0 * d == d && 0.0 * d == 0.0;
  }

  /** Intersection over union is symmetric, lies in [0, 1], is positive exactly for boxes that
      overlap, and is one exactly for equal boxes. */
  lemma {:induction false} IouMeasuresOverlap(a: Box, b: Box)
    requires ValidBox(a) && ValidBox(b)
    ensures 0.0 <= Iou(a, b) <= 1.0
    ensures Iou(a, b) == Iou(b, a)
    ensures Iou(a, b) > 0.0 <==> Overlaps(a, b)
    ensures Iou(a, b) == 1.0 <==> a == b
  {
    IntersectionFits(a, b);
    IntersectionSymmetric(a, b);
    Quotient(Intersection(a, b), Area(a) + Area(b) - Intersection(a, b));
  }

  lemma {:induction false} IntersectionSymmetric(a: Box, b: Box)
    requires ValidBox(a) && ValidBox(b)
    ensures Intersection(a, b) == Intersection(b, a)
  {
    OverlapFits(a.x0, a.x1, b.x0, b.x1);
    OverlapFits(a.y0, a.y1, b.y0, b.y1);
  }

  /** For boxes that overlap it is the area they share over the area they cover together. */
  lemma {:induction false} IouIsTheShare(a: Box, b: Box, w: real, h: real)
    requires ValidBox(a) && ValidBox(b) && Overlaps(a, b)
    requires w == MinReal(a.x1, b.x1) - MaxReal(a.x0, b.x0) && h == MinReal(a.y1, b.y1) - MaxReal(a.y0, b.y0)
    ensures w > 0.0 && h > 0.0 && Intersection(a, b) == w * h
    ensures Area(a) + Area(b) > Intersection(a, b)
    ensures Iou(a, b) == Intersection(a, b) / (Area(a) + Area(b) - Intersection(a, b))
  {
    SharedArea(a, b, w, h);
    IntersectionFits(a, b);
  }

  lemma {:induction false} SharedArea(a: Box, b: Box, w: real, h: real)
    requires ValidBox(a) && ValidBox(b) && Overlaps(a, b)
    requires w == MinReal(a.x1, b.x1) - MaxReal(a.x0, b.x0) && h == MinReal(a.y1, b.y1) - MaxReal(a.y0, b.y0)
    ensures w > 0.0 && h > 0.0 && Intersection(a, b) == w * h
  {
    assert Overlap(a.x0, a.x1, b.x0, b.x1) == w && Overlap(a.y0, a.y1, b.y0, b.y1) == h;
  }

  // ---------------------------------------------------------------------- matching

  predicate SourceMatch(expected: Citation, actual: Citation) {
    && (expected.documentId, expected.contentHash, expected.version, expected.page, expected.regionId)
       == (actual.documentId, actual.contentHash, actual.version, actual.page, actual.regionId)
    && ValidBox(actual.box)
  }

  predicate SameUnit(expected: Option<Unit>, actual: Option<Unit>, policy: Policy) {
    || expected == actual
    || (policy.converts && ((expected == Some(PercentPoints) && actual == Some(Ratio))
                            || (expected == Some(Ratio) && actual == Some(PercentPoints))))
  }

  predicate Close(left: real, right: real, policy: Policy) {
    AbsReal(left - right) <= MaxReal(policy.absolute, policy.relative * AbsReal(left))
  }

  /** A ratio is brought to percent points, percent points to a ratio. */
  function Converted(right: real, expected: Option<Unit>, actual: Option<Unit>): real {
    if expected == actual then right
    else if actual == Some(Ratio) then right * 100.0
    else right * 0.01
  }

  predicate ValueMatch(e: Expected, a: Observed, policy: Policy) {
    if e.state != a.state || !SameUnit(e.unit, a.unit, policy) then false
    else if !e.state.Present? then a.value.None? && a.unit.None?
    else if e.unit == Some(Grade) then a.value.Some? && a.value.value.Text? && e.value == a.value
    else
      var left, right := NumberOf(e.value), NumberOf(a.value);
      left.Some? && right.Some? && Close(left.value, Converted(right.value, e.unit, a.unit), policy)
  }

  predicate TypeMatch(e: Expected, a: Observed, declared: seq<Shape>, policy: Policy) {
    if |declared| != 1 then false
    else if declared[0] != e.shape || !SameUnit(e.unit, a.unit, policy) then false
    else if !a.state.Present? then a.value.None? && a.unit.None?
    else if a.unit == Some(Grade) then a.value.Some? && a.value.value.Text?
    else NumberOf(a.value).Some?
  }

  /** Extra unrelated evidence spoils a citation: all of it has to match. */
  predicate SourceOk(e: Expected, a: Observed) {
    match e.citation
    case None => !a.state.Present? && !a.state.Blank?
    case Some(ref) => a.evidence != [] && forall i :: 0 <= i < |a.evidence| ==> SourceMatch(ref, a.evidence[i])
  }

  predicate Localized(e: Expected, a: Observed, policy: Policy) {
    && e.citation.Some?
    && SourceOk(e, a)
    && forall i :: 0 <= i < |a.evidence| ==>
         && Iou(e.citation.value.box, a.evidence[i].box) > 0.0
         && Iou(e.citation.value.box, a.evidence[i].box) >= (if policy.minimumIou.Some? then policy.minimumIou.value else 0.0)
  }

  predicate FieldCorrect(e: Expected, a: Observed, declared: seq<Shape>, policy: Policy) {
    && TypeMatch(e, a, declared, policy)
    && ValueMatch(e, a, policy)
    && SourceOk(e, a)
    && (e.citation.None? || policy.minimumIou.None? || Localized(e, a, policy))
  }

  /** How much a number says in its unit: one percent point is a hundredth. */
  function Quantity(x: real, unit: Option<Unit>): real {
    if unit == Some(PercentPoints) then x / 100.0 else x
  }

  /** Conversion into the expected unit leaves the quantity alone. */
  lemma {:induction false} ConversionKeepsTheQuantity(x: real, expected: Option<Unit>, actual: Option<Unit>, policy: Policy)
    requires SameUnit(expected, actual, policy)
    ensures Quantity(Converted(x, expected, actual), expected) == Quantity(x, actual)
  {
  }
}
