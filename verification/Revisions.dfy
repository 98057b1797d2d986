/**
 Corrections and confirmations of review material (`application/revisions.py`,
 `application/material_corrections.py`, `domain/confidence.py`).

 A digest is the digested value. Which citations resolve to the selected case forms, and
 whether a transcription is supported by its source, are parameters.
 */
module Revisions {
  import opened Common

  datatype Key = Key(context: nat, factor: nat)

  datatype Side = Target | Comparable

  datatype Value = Value(kind: nat, unit: nat, number: real)

  datatype Observation = Observation(text: string, value: Option<Value>, evidence: seq<nat>, confidence: real)

  datatype Citation = Citation(cell: nat, excerpt: string)

  /** Everything of a side's reliability but its method and confirmation. */
  datatype Grounds = Grounds(unresolved: bool, ambiguous: bool, confidenceKnown: bool, provenanceKnown: bool)

  datatype Method = NativeNumeric | ReviewerConfirmed | ModelProposed

  datatype Digest = Digest(key: Key, side: Side, observation: Observation, sources: seq<Citation>, grounds: Grounds)

  datatype Confirmation = Confirmation(reviewer: nat, digest: Digest)

  datatype Fact = Fact(
    observation: Observation, sources: seq<Citation>, grounds: Grounds, how: Method, confirmation: Option<Confirmation>)

  datatype Pair = Pair(key: Key, target: Fact, comparable: Fact) {
    function At(side: Side): Fact {
      if side.Target? then target else comparable
    }

    function With(side: Side, f: Fact): Pair {
      if side.Target? then this.(target := f) else this.(comparable := f)
    }

    /** `confirmation_digest`: blind to the method and to any confirmation. */
    function Print(side: Side): Digest {
      var f := At(side);
      Digest(key, side, f.observation, f.sources, f.grounds)
    }
  }

  datatype Material = Material(caseId: nat, version: nat, pairs: seq<Pair>)

  datatype Reference = Reference(caseId: nat, revisionId: nat, material: Material)

  datatype Snapshot = Snapshot(material: Material, reference: Reference, changes: seq<Change>)

  datatype Change = Change(subject: nat, corrected: Observation, actor: nat)

  // ------------------------------------------------------------------- confirm_side

  predicate Confirmable(f: Fact) {
    && f.observation.value.Some? && f.observation.evidence != [] && f.sources != []
    && !f.grounds.unresolved && !f.grounds.ambiguous && f.grounds.confidenceKnown && f.grounds.provenanceKnown
  }

  function Confirmed(p: Pair, side: Side, reviewer: nat): Pair {
    p.With(side, p.At(side).(confirmation := Some(Confirmation(reviewer, p.Print(side))), how := ReviewerConfirmed))
  }

  /** Setting a confirmation alters no side's digest, so it cannot invalidate itself. */
  lemma {:induction false} ConfirmingAltersNoDigest(p: Pair, side: Side, other: Side, reviewer: nat)
    ensures Confirmed(p, side, reviewer).Print(other) == p.Print(other)
    ensures Confirmed(p, side, reviewer).At(side).confirmation == Some(Confirmation(reviewer, Confirmed(p, side, reviewer).Print(side)))
    ensures other != side ==> Confirmed(p, side, reviewer).At(other) == p.At(other)
  {
  }

  // -------------------------------------------------------------------------- revise

  /** The previous pair under a key; of several, the last. */
  function Previous(pairs: seq<Pair>, key: Key): (r: Option<Pair>)
    ensures r.Some? ==> r.value in pairs && r.value.key == key
    ensures r.None? ==> forall i :: 0 <= i < |pairs| ==> pairs[i].key != key
  {
    if pairs == [] then None
    else if pairs[|pairs| - 1].key == key then Some(pairs[|pairs| - 1])
    else Previous(pairs[..|pairs| - 1], key)
  }

  predicate RetainsNative(was: Option<Pair>, p: Pair, side: Side) {
    && was.Some?
    && was.value.At(side).how.NativeNumeric? && p.At(side).how.NativeNumeric?
    && was.value.At(side).confirmation.None? && p.At(side).confirmation.None?
    && was.value.Print(side) == p.Print(side)
  }

  function RevisedSide(was: Option<Pair>, p: Pair, side: Side): Pair {
    p.With(side, p.At(side).(how := if RetainsNative(was, p, side) then NativeNumeric else ModelProposed, confirmation := None))
  }

  function RevisedPair(was: Option<Pair>, p: Pair): Pair {
    RevisedSide(was, RevisedSide(was, p, Target), Comparable)
  }

  function RevisedPairs(before: seq<Pair>, pairs: seq<Pair>): seq<Pair> {
    seq(|pairs|, i requires 0 <= i < |pairs| => RevisedPair(Previous(before, pairs[i].key), pairs[i]))
  }

  /** What a revision does to one side, stated of the original. */
  lemma {:induction false} RevisedSideIs(was: Option<Pair>, p: Pair, side: Side)
    ensures
      var r := RevisedPair(was, p);
      && r.key == p.key && r.Print(side) == p.Print(side)
      && r.At(side).confirmation.None?
      && r.At(side).how == (if RetainsNative(was, p, side) then NativeNumeric else ModelProposed)
      && r.At(side) == p.At(side).(how := r.At(side).how, confirmation := None)
  {
  }

  /** The loops of `revise`, on the detached copy. */
  method ReviseInPlace(before: seq<Pair>, a: array<Pair>)
    modifies a
    ensures a[..] == RevisedPairs(before, old(a[..]))
  {
    for i := 0 to a.Length
      invariant forall j :: 0 <= j < i ==> a[j] == RevisedPairs(before, old(a[..]))[j]
      invariant forall j :: i <= j < a.Length ==> a[j] == old(a[j])
    {
      var was := Previous(before, a[i].key);
      a[i] := RevisedSide(was, a[i], Target);
      a[i] := RevisedSide(was, a[i], Comparable);
    }
  }

  /** `capture`: a child must be a new version of the same case. */
  function Capture(m: Material, revisionId: nat, parent: Option<Reference>, changes: seq<Change>): Option<Snapshot> {
    if parent.Some? && (parent.value.caseId != m.caseId || parent.value.revisionId == revisionId || parent.value.material == m) then None
    else Some(Snapshot(m, Reference(m.caseId, revisionId, m), changes))
  }

  function Revise(s: Snapshot, m: Material, revisionId: nat, changes: seq<Change>): Option<Snapshot> {
    if m.caseId != s.reference.caseId || revisionId == s.reference.revisionId then None
    else Capture(m.(version := revisionId, pairs := RevisedPairs(s.material.pairs, m.pairs)), revisionId, Some(s.reference), changes)
  }

  // -------------------------------------------------------------------------- correct

  datatype Binding = Binding(key: Key, side: Side)

  type Subjects = map<nat, Binding>

  function CountKey(pairs: seq<Pair>, key: Key): nat {
    if pairs == [] then 0
    else CountKey(pairs[..|pairs| - 1], key) + (if pairs[|pairs| - 1].key == key then 1 else 0)
  }

  function IndexOf(pairs: seq<Pair>, key: Key): (r: Option<nat>)
    ensures r.Some? ==> r.value < |pairs| && pairs[r.value].key == key
    ensures r.None? ==> CountKey(pairs, key) == 0
  {
    if pairs == [] then None
    else if pairs[|pairs| - 1].key == key then Some(|pairs| - 1)
    else IndexOf(pairs[..|pairs| - 1], key)
  }

  /** `_resolve`: the one pair a subject is bound to. */
  function Resolve(subjects: Subjects, m: Material, subject: nat): (r: Option<nat>)
    ensures r.Some? ==> subject in subjects && r.value < |m.pairs| && m.pairs[r.value].key == subjects[subject].key
  {
    if subject !in subjects || CountKey(m.pairs, subjects[subject].key) != 1 then None
    else IndexOf(m.pairs, subjects[subject].key)
  }

  /** The URI-free view of a side. */
  datatype Public = Public(value: Option<Value>, text: string, confidence: real, evidence: seq<Citation>)

  function Project(f: Fact): Public {
    Public(f.observation.value, f.observation.text, f.observation.confidence, f.sources)
  }

  function Cells(refs: seq<Citation>): set<nat> {
    set i | 0 <= i < |refs| :: refs[i].cell
  }

  datatype Correction = Correction(subject: nat, original: Public, proposed: Public)

  datatype Actor = Actor(human: bool, id: nat)

  /** What the source demands of a correction; `allowed` and `supported` come from the registry. */
  predicate Admissible(c: Correction, f: Fact, allowMissing: bool, allowed: bool, supported: bool) {
    var original := Project(f);
    && c.original == original
    && c.proposed.value.Some?
    && (original.value.Some? ==>
          c.proposed.value.value.kind == original.value.value.kind && c.proposed.value.value.unit == original.value.value.unit)
    && c.proposed.confidence == original.confidence
    && (allowMissing || (original.value.Some? && original.evidence != [] && f.observation.evidence != []))
    && allowed && supported
    && (original.evidence != [] ==> Cells(original.evidence) == Cells(c.proposed.evidence))
  }

  function CorrectedFact(f: Fact, c: Correction, evidence: seq<nat>): Fact {
    f.(observation := Observation(c.proposed.text, c.proposed.value, evidence, f.observation.confidence), sources := c.proposed.evidence)
  }

  function Correct(subjects: Subjects, s: Snapshot, c: Correction, actor: Actor, revisionId: nat,
                   allowMissing: bool, allowed: bool, supported: bool, evidence: seq<nat>): Option<Snapshot>
  {
    var at := Resolve(subjects, s.material, c.subject);
    if !actor.human || at.None? then None
    else
      var side, pair := subjects[c.subject].side, s.material.pairs[at.value];
      if !Admissible(c, pair.At(side), allowMissing, allowed, supported) then None
      else
        var updated := CorrectedFact(pair.At(side), c, evidence);
        Revise(s, s.material.(pairs := s.material.pairs[at.value := pair.With(side, updated)]), revisionId,
               s.changes + [Change(c.subject, updated.observation, actor.id)])
  }

  // -------------------------------------------------------------------------- confirm

  datatype SideReference = SideReference(binding: Binding, digest: Digest)

  /** A previous confirmation that may be carried over, at the word of the same human. */
  predicate Carries(before: seq<Pair>, p: Pair, side: Side, actor: nat, retained: set<SideReference>, allows: seq<Citation> -> bool) {
    && CountKey(before, p.key) == 1
    && var was := Previous(before, p.key);
    && was.Some?
    && var c := was.value.At(side).confirmation;
    && was.value.At(side).how.ReviewerConfirmed? && c.Some? && c.value.reviewer == actor
    && c.value.digest == was.value.Print(side) && c.value.digest == p.Print(side)
    && SideReference(Binding(p.key, side), c.value.digest) in retained
    && allows(p.At(side).sources)
    && Confirmable(p.At(side))
  }

  function CarriedSide(before: seq<Pair>, p: Pair, side: Side, own: bool, actor: nat, retained: set<SideReference>, allows: seq<Citation> -> bool): Pair {
    if !own && Carries(before, p, side, actor, retained, allows) then Confirmed(p, side, actor) else p
  }

  function CarriedPair(before: seq<Pair>, p: Pair, own: Option<Side>, actor: nat, retained: set<SideReference>, allows: seq<Citation> -> bool): Pair {
    var first := CarriedSide(before, p, Target, own == Some(Target), actor, retained, allows);
    CarriedSide(before, first, Comparable, own == Some(Comparable), actor, retained, allows)
  }

  function CarriedPairs(before: seq<Pair>, pairs: seq<Pair>, at: nat, side: Side, actor: nat, retained: set<SideReference>, allows: seq<Citation> -> bool): seq<Pair> {
    seq(|pairs|, i requires 0 <= i < |pairs| =>
      CarriedPair(before, pairs[i], if i == at then Some(side) else None, actor, retained, allows))
  }

  /** The loops of `confirm`, on the revised copy. */
  method CarryInPlace(before: seq<Pair>, a: array<Pair>, at: nat, side: Side, actor: nat, retained: set<SideReference>, allows: seq<Citation> -> bool)
    modifies a
    ensures a[..] == CarriedPairs(before, old(a[..]), at, side, actor, retained, allows)
  {
    for i := 0 to a.Length
      invariant forall j :: 0 <= j < i ==> a[j] == CarriedPairs(before, old(a[..]), at, side, actor, retained, allows)[j]
      invariant forall j :: i <= j < a.Length ==> a[j] == old(a[j])
    {
      if !(i == at && side.Target?) && Carries(before, a[i], Target, actor, retained, allows) {
        a[i] := Confirmed(a[i], Target, actor);
      }
      if !(i == at && side.Comparable?) && Carries(before, a[i], Comparable, actor, retained, allows) {
        a[i] := Confirmed(a[i], Comparable, actor);
      }
    }
  }

  /** The pairs after a confirmation: revised, the subject confirmed, then what is carried over. */
  function ConfirmedPairs(before: seq<Pair>, at: nat, side: Side, actor: nat, retained: set<SideReference>, allows: seq<Citation> -> bool): seq<Pair>
    requires at < |before|
  {
    var revised := RevisedPairs(before, before);
    CarriedPairs(before, revised[at := Confirmed(revised[at], side, actor)], at, side, actor, retained, allows)
  }

  function Confirm(subjects: Subjects, s: Snapshot, subject: nat, actor: Actor, revisionId: nat,
                   retained: set<SideReference>, allows: seq<Citation> -> bool): Option<Snapshot>
  {
    var at := Resolve(subjects, s.material, subject);
    if !actor.human || at.None? || Revise(s, s.material, revisionId, s.changes).None? then None
    else
      var side, pair := subjects[subject].side, s.material.pairs[at.value];
      if !allows(pair.At(side).sources) || !Confirmable(pair.At(side)) then None
      else
        var pairs := ConfirmedPairs(s.material.pairs, at.value, side, actor.id, retained, allows);
        Capture(s.material.(version := revisionId, pairs := pairs), revisionId, Some(s.reference), s.changes)
  }

  // -------------------------------------------------------------------- one operation

  datatype Op =
    | DoCorrect(correction: Correction, actor: Actor, revisionId: nat, allowMissing: bool, allowed: bool, supported: bool, evidence: seq<nat>)
    | DoConfirm(subject: nat, actor: Actor, revisionId: nat, retained: set<SideReference>, allows: seq<Citation> -> bool)

  function Apply(subjects: Subjects, s: Snapshot, op: Op): Option<Snapshot> {
    match op
    case DoCorrect(c, actor, id, allowMissing, allowed, supported, evidence) =>
      Correct(subjects, s, c, actor, id, allowMissing, allowed, supported, evidence)
    case DoConfirm(subject, actor, id, retained, allows) => Confirm(subjects, s, subject, actor, id, retained, allows)
  }

  lemma {:induction false} UniqueIsPrevious(pairs: seq<Pair>, key: Key, i: nat)
    requires i < |pairs| && pairs[i].key == key && CountKey(pairs, key) == 1
    ensures Previous(pairs, key) == Some(pairs[i])
  {
    var n := |pairs| - 1;
    if pairs[n].key == key {
      NoneLeft(pairs[..n], key);
      forall k | 0 <= k < n ensures pairs[k].key != key {
        assert pairs[..n][k] == pairs[k];
      }
    } else {
      UniqueIsPrevious(pairs[..n], key, i);
    }
  }

  lemma {:induction false} NoneLeft(pairs: seq<Pair>, key: Key)
    requires CountKey(pairs, key) == 0
    ensures forall i :: 0 <= i < |pairs| ==> pairs[i].key != key
  {
    if pairs != [] {
      NoneLeft(pairs[..|pairs| - 1], key);
    }
  }

  /** What a correction leaves at one side: no confirmation, and a native label only where the
      side was native, unconfirmed and is unchanged. */
  lemma {:induction false} CorrectionAt(subjects: Subjects, s: Snapshot, op: Op, t: Snapshot, i: nat, side: Side)
    requires op.DoCorrect? && Apply(subjects, s, op) == Some(t) && i < |s.material.pairs|
    ensures |t.material.pairs| == |s.material.pairs|
    ensures
      var f, g := s.material.pairs[i], t.material.pairs[i];
      && g.key == f.key
      && g.At(side).confirmation.None? && !g.At(side).how.ReviewerConfirmed?
      && (g.At(side).how.NativeNumeric? ==>
            f.At(side).how.NativeNumeric? && f.At(side).confirmation.None? && g.Print(side) == f.Print(side))
  {
    var c := op.correction;
    var at, which := Resolve(subjects, s.material, c.subject).value, subjects[c.subject].side;
    var pair := s.material.pairs[at];
    var pairs := s.material.pairs[at := pair.With(which, CorrectedFact(pair.At(which), c, op.evidence))];
    RevisedSideIs(Previous(s.material.pairs, pairs[i].key), pairs[i], side);
    if i == at {
      UniqueIsPrevious(s.material.pairs, pair.key, at);
    }
  }

  /** A carried confirmation was there before, word for word. */
  lemma {:induction false} CarriedAt(before: seq<Pair>, p: Pair, own: Option<Side>, actor: nat, retained: set<SideReference>, allows: seq<Citation> -> bool, i: nat, side: Side)
    requires i < |before| && before[i].key == p.key && before[i].Print(side) == p.Print(side)
    ensures
      var r := CarriedPair(before, p, own, actor, retained, allows);
      && r.key == p.key && r.Print(side) == p.Print(side)
      && (own == Some(side) ==> r.At(side) == p.At(side))
      && (own != Some(side) && p.At(side).confirmation.None? ==>
            || r.At(side) == p.At(side)
            || (&& r.At(side).how.ReviewerConfirmed?
                && r.At(side).confirmation == Some(Confirmation(actor, p.Print(side)))
                && before[i].At(side).confirmation == r.At(side).confirmation && before[i].At(side).how.ReviewerConfirmed?
                && SideReference(Binding(p.key, side), p.Print(side)) in retained))
  {
    var first := CarriedSide(before, p, Target, own == Some(Target), actor, retained, allows);
    ConfirmingAltersNoDigest(p, Target, Target, actor);
    ConfirmingAltersNoDigest(p, Target, Comparable, actor);
    ConfirmingAltersNoDigest(first, Comparable, Target, actor);
    ConfirmingAltersNoDigest(first, Comparable, Comparable, actor);
    if CountKey(before, p.key) == 1 {
      UniqueIsPrevious(before, p.key, i);
    }
  }

  /** What a confirmation leaves at one side: the subject's own, or one carried over for the
      same human; and a native label only where nothing happened. */
  lemma {:induction false} ConfirmationAt(subjects: Subjects, s: Snapshot, op: Op, t: Snapshot, i: nat, side: Side)
    requires op.DoConfirm? && Apply(subjects, s, op) == Some(t) && i < |s.material.pairs|
    ensures |t.material.pairs| == |s.material.pairs|
    ensures
      var f, g := s.material.pairs[i], t.material.pairs[i];
      var own := Resolve(subjects, s.material, op.subject) == Some(i) && subjects[op.subject].side == side;
      && g.key == f.key && g.Print(side) == f.Print(side)
      && (own ==> g.At(side).confirmation == Some(Confirmation(op.actor.id, g.Print(side))) && g.At(side).how.ReviewerConfirmed?)
      && (!own && g.At(side).confirmation.Some? ==>
            && g.At(side).how.ReviewerConfirmed?
            && g.At(side).confirmation == Some(Confirmation(op.actor.id, g.Print(side)))
            && f.At(side).confirmation == g.At(side).confirmation
            && SideReference(Binding(g.key, side), g.Print(side)) in op.retained)
      && (g.At(side).how.NativeNumeric? ==> f.At(side).how.NativeNumeric? && f.At(side).confirmation.None? && g.At(side).confirmation.None?)
  {
    var before := s.material.pairs;
    var at, which := Resolve(subjects, s.material, op.subject).value, subjects[op.subject].side;
    var revised := RevisedPairs(before, before);
    RevisedSideIs(Previous(before, before[i].key), before[i], side);
    var p := if i == at then Confirmed(revised[i], which, op.actor.id) else revised[i];
    ConfirmingAltersNoDigest(revised[i], which, side, op.actor.id);
    CarriedAt(before, p, if i == at then Some(which) else None, op.actor.id, op.retained, op.allows, i, side);
  }

  /** Carrying over adds a confirmation to an unconfirmed side exactly where `Carries` says so. */
  lemma {:induction false} CarriedPairExactly(before: seq<Pair>, p: Pair, own: Option<Side>, actor: nat, retained: set<SideReference>,
                                              allows: seq<Citation> -> bool, side: Side)
    requires own != Some(side) && p.At(side).confirmation.None?
    ensures CarriedPair(before, p, own, actor, retained, allows).At(side).confirmation.Some? <==>
            Carries(before, p, side, actor, retained, allows)
  {
    var first := CarriedSide(before, p, Target, own == Some(Target), actor, retained, allows);
    ConfirmingAltersNoDigest(p, Target, Comparable, actor);
    ConfirmingAltersNoDigest(first, Comparable, Target, actor);
  }

  /** A confirmation carries a side over exactly when the same human had confirmed it, unchanged,
      and it is on the allowlist. */
  lemma {:induction false} CarriedExactly(subjects: Subjects, s: Snapshot, op: Op, t: Snapshot, i: nat, side: Side)
    requires op.DoConfirm? && Apply(subjects, s, op) == Some(t) && i < |s.material.pairs|
    requires !(Resolve(subjects, s.material, op.subject) == Some(i) && subjects[op.subject].side == side)
    ensures |t.material.pairs| == |s.material.pairs|
    ensures t.material.pairs[i].At(side).confirmation.Some? <==>
      Carries(s.material.pairs, s.material.pairs[i], side, op.actor.id, op.retained, op.allows)
  {
    var before := s.material.pairs;
    var at, which := Resolve(subjects, s.material, op.subject).value, subjects[op.subject].side;
    var revised := RevisedPairs(before, before);
    RevisedSideIs(Previous(before, before[i].key), before[i], side);
    var p := if i == at then Confirmed(revised[i], which, op.actor.id) else revised[i];
    ConfirmingAltersNoDigest(revised[i], which, side, op.actor.id);
    CarriedPairExactly(before, p, if i == at then Some(which) else None, op.actor.id, op.retained, op.allows, side);
  }

  /** A correction puts exactly the proposed reading at its subject, touches the content of no
      other side, and is recorded with its human. */
  lemma {:induction false} CorrectionIsLocal(subjects: Subjects, s: Snapshot, op: Op, t: Snapshot, i: nat, side: Side)
    requires op.DoCorrect? && Apply(subjects, s, op) == Some(t) && i < |s.material.pairs|
    ensures |t.material.pairs| == |s.material.pairs| && t.reference.revisionId == op.revisionId != s.reference.revisionId
    ensures t.changes == s.changes + [Change(op.correction.subject, t.changes[|s.changes|].corrected, op.actor.id)] && op.actor.human
    ensures
      var g := t.material.pairs[i];
      if Resolve(subjects, s.material, op.correction.subject) == Some(i) && subjects[op.correction.subject].side == side then
        && Project(g.At(side)) == op.correction.proposed
        && Project(s.material.pairs[i].At(side)) == op.correction.original
        && g.At(side).observation == t.changes[|s.changes|].corrected
      else g.Print(side) == s.material.pairs[i].Print(side)
  {
    var c := op.correction;
    var at, which := Resolve(subjects, s.material, c.subject).value, subjects[c.subject].side;
    var pair := s.material.pairs[at];
    var pairs := s.material.pairs[at := pair.With(which, CorrectedFact(pair.At(which), c, op.evidence))];
    RevisedSideIs(Previous(s.material.pairs, pairs[i].key), pairs[i], side);
  }

  // -------------------------------------------------------- when an operation succeeds

  /** Exactly one pair, the `i`th, has the key the subject is bound to. */
  ghost predicate BoundTo(subjects: Subjects, m: Material, subject: nat, i: nat) {
    && subject in subjects && i < |m.pairs| && m.pairs[i].key == subjects[subject].key
    && forall j :: 0 <= j < |m.pairs| && j != i ==> m.pairs[j].key != subjects[subject].key
  }

  lemma {:induction false} CountsOne(pairs: seq<Pair>, key: Key, i: nat)
    requires i < |pairs| && pairs[i].key == key
    ensures CountKey(pairs, key) >= 1
    ensures CountKey(pairs, key) == 1 <==> forall j :: 0 <= j < |pairs| && j != i ==> pairs[j].key != key
  {
    var n := |pairs| - 1;
    if i < n {
      CountsOne(pairs[..n], key, i);
      assert forall j :: 0 <= j < n ==> pairs[..n][j] == pairs[j];
    } else {
      CountsNone(pairs[..n], key);
      assert forall j :: 0 <= j < n ==> pairs[..n][j] == pairs[j];
    }
  }

  lemma {:induction false} CountsNone(pairs: seq<Pair>, key: Key)
    ensures CountKey(pairs, key) == 0 <==> forall j :: 0 <= j < |pairs| ==> pairs[j].key != key
  {
    if pairs != [] {
      CountsNone(pairs[..|pairs| - 1], key);
      assert forall j :: 0 <= j < |pairs| - 1 ==> pairs[..|pairs| - 1][j] == pairs[j];
    }
  }

  /** A subject resolves to a pair exactly if it is bound to that one alone. */
  lemma {:induction false} ResolvesExactly(subjects: Subjects, m: Material, subject: nat, i: nat)
    ensures Resolve(subjects, m, subject) == Some(i) <==> BoundTo(subjects, m, subject, i)
    ensures Resolve(subjects, m, subject).Some? ==> BoundTo(subjects, m, subject, Resolve(subjects, m, subject).value)
  {
    if subject in subjects {
      var key, at := subjects[subject].key, IndexOf(m.pairs, subjects[subject].key);
      if at.Some? {
        CountsOne(m.pairs, key, at.value);
      } else {
        CountsNone(m.pairs, key);
      }
    }
  }

  /** A correction is refused unless a human makes it, of the side as it stands, under the same kind
      and unit, with the same confidence and in the same cells, as the registry allows. */
  ghost predicate Correctable(subjects: Subjects, s: Snapshot, c: Correction, actor: Actor, allowMissing: bool, allowed: bool,
                              supported: bool, i: nat)
  {
    && actor.human && BoundTo(subjects, s.material, c.subject, i) && allowed && supported
    && var f := s.material.pairs[i].At(subjects[c.subject].side);
    && c.original == Public(f.observation.value, f.observation.text, f.observation.confidence, f.sources)
    && c.proposed.confidence == f.observation.confidence && c.proposed.value.Some?
    && (f.observation.value.Some? ==>
          c.proposed.value.value.kind == f.observation.value.value.kind && c.proposed.value.value.unit == f.observation.value.value.unit)
    && (f.observation.value.None? || f.sources == [] || f.observation.evidence == [] ==> allowMissing)
    && (f.sources != [] ==> forall cell :: CitesCell(f.sources, cell) <==> CitesCell(c.proposed.evidence, cell))
  }

  predicate CitesCell(refs: seq<Citation>, cell: nat) {
    exists i :: 0 <= i < |refs| && refs[i].cell == cell
  }

  lemma {:induction false} SameCellsExactly(a: seq<Citation>, b: seq<Citation>)
    ensures Cells(a) == Cells(b) <==> forall cell :: CitesCell(a, cell) <==> CitesCell(b, cell)
  {
    forall cell: nat ensures CitesCell(a, cell) <==> cell in Cells(a) {
    }
    forall cell: nat ensures CitesCell(b, cell) <==> cell in Cells(b) {
    }
    if forall cell :: CitesCell(a, cell) <==> CitesCell(b, cell) {
      assert forall cell :: cell in Cells(a) <==> cell in Cells(b);
    }
  }

  /** The new revision is of the same case, and not the old one again. */
  predicate NewVersion(s: Snapshot, revisionId: nat) {
    s.material.caseId == s.reference.caseId && revisionId != s.reference.revisionId && revisionId != s.reference.material.version
  }

  /** Exactly which corrections and confirmations are accepted into a new version. */
  lemma {:induction false} AcceptedExactly(
    subjects: Subjects, s: Snapshot, c: Correction, subject: nat, actor: Actor, revisionId: nat, allowMissing: bool, allowed: bool,
    supported: bool, evidence: seq<nat>, retained: set<SideReference>, allows: seq<Citation> -> bool)
    requires NewVersion(s, revisionId)
    ensures Correct(subjects, s, c, actor, revisionId, allowMissing, allowed, supported, evidence).Some? <==>
            exists i :: Correctable(subjects, s, c, actor, allowMissing, allowed, supported, i)
    ensures Confirm(subjects, s, subject, actor, revisionId, retained, allows).Some? <==>
            && actor.human
            && exists i :: ConfirmableAt(subjects, s, subject, allows, i)
  {
    var at := Resolve(subjects, s.material, c.subject);
    forall i: nat ensures at == Some(i) <==> BoundTo(subjects, s.material, c.subject, i) {
      ResolvesExactly(subjects, s.material, c.subject, i);
    }
    if at.Some? {
      SameCellsExactly(s.material.pairs[at.value].At(subjects[c.subject].side).sources, c.proposed.evidence);
      assert Correctable(subjects, s, c, actor, allowMissing, allowed, supported, at.value) <==>
        actor.human &&
        Admissible(c, s.material.pairs[at.value].At(subjects[c.subject].side), allowMissing, allowed, supported);
    }
    ConfirmationAccepted(subjects, s, subject, actor, revisionId, retained, allows);
  }

  /** The side can be confirmed: bound to one pair, evidenced in the selected case forms, complete. */
  ghost predicate ConfirmableAt(subjects: Subjects, s: Snapshot, subject: nat, allows: seq<Citation> -> bool, i: nat) {
    && BoundTo(subjects, s.material, subject, i)
    && var f := s.material.pairs[i].At(subjects[subject].side);
    && allows(f.sources) && f.sources != []
    && f.observation.value.Some? && f.observation.evidence != []
    && !f.grounds.unresolved && !f.grounds.ambiguous && f.grounds.confidenceKnown && f.grounds.provenanceKnown
  }

  lemma {:induction false} ConfirmationAccepted(
    subjects: Subjects, s: Snapshot, subject: nat, actor: Actor, revisionId: nat, retained: set<SideReference>, allows: seq<Citation> -> bool)
    requires NewVersion(s, revisionId)
    ensures Confirm(subjects, s, subject, actor, revisionId, retained, allows).Some? <==>
            actor.human && exists i :: ConfirmableAt(subjects, s, subject, allows, i)
  {
    var at := Resolve(subjects, s.material, subject);
    forall i: nat ensures at == Some(i) <==> BoundTo(subjects, s.material, subject, i) {
      ResolvesExactly(subjects, s.material, subject, i);
    }
    if at.Some? {
      assert ConfirmableAt(subjects, s, subject, allows, at.value) <==>
        allows(s.material.pairs[at.value].At(subjects[subject].side).sources) &&
        Confirmable(s.material.pairs[at.value].At(subjects[subject].side));
    }
  }

  // ---------------------------------------------------------------------- whole chains

  /** Successive revisions, each from the one before by a successful operation. */
  ghost predicate Chain(subjects: Subjects, snaps: seq<Snapshot>, ops: seq<Op>) {
    |snaps| == |ops| + 1 && forall i :: 0 <= i < |ops| ==> Linked(subjects, snaps, ops, i)
  }

  ghost predicate Linked(subjects: Subjects, snaps: seq<Snapshot>, ops: seq<Op>, i: nat)
    requires |snaps| == |ops| + 1 && i < |ops|
  {
    Apply(subjects, snaps[i], ops[i]) == Some(snaps[i + 1])
  }

  lemma {:induction false} SameShape(subjects: Subjects, snaps: seq<Snapshot>, ops: seq<Op>, j: nat, i: nat)
    requires Chain(subjects, snaps, ops) && j < |ops| && i < |snaps[j].material.pairs|
    ensures |snaps[j + 1].material.pairs| == |snaps[j].material.pairs|
    ensures snaps[j + 1].material.pairs[i].key == snaps[j].material.pairs[i].key
  {
    assert Linked(subjects, snaps, ops, j);
    if ops[j].DoCorrect? {
      CorrectionAt(subjects, snaps[j], ops[j], snaps[j + 1], i, Target);
    } else {
      ConfirmationAt(subjects, snaps[j], ops[j], snaps[j + 1], i, Target);
    }
  }

  lemma {:induction false} SameLength(subjects: Subjects, snaps: seq<Snapshot>, ops: seq<Op>, j: nat)
    requires Chain(subjects, snaps, ops) && j < |snaps|
    ensures |snaps[j].material.pairs| == |snaps[0].material.pairs|
  {
    if j > 0 {
      assert Linked(subjects, snaps, ops, j - 1);
      SameLength(subjects, snaps, ops, j - 1);
      if |snaps[j - 1].material.pairs| > 0 {
        SameShape(subjects, snaps, ops, j - 1, 0);
      } else {
        EmptyStaysEmpty(subjects, snaps[j - 1], ops[j - 1]);
      }
    }
  }

  lemma {:induction false} EmptyStaysEmpty(subjects: Subjects, s: Snapshot, op: Op)
    requires |s.material.pairs| == 0
    ensures Apply(subjects, s, op).None?
  {
  }

  /** After any operation, every confirmation binds the current digest of its own side and is
      the operation's own human's; after a correction there is none at all. Whatever the first
      revision claimed does not matter. */
  lemma {:induction false} ConfirmationsAreCurrent(subjects: Subjects, snaps: seq<Snapshot>, ops: seq<Op>, j: nat, i: nat, side: Side)
    requires Chain(subjects, snaps, ops) && j < |ops| && i < |snaps[j + 1].material.pairs|
    ensures
      var g := snaps[j + 1].material.pairs[i];
      && (ops[j].DoCorrect? ==> g.At(side).confirmation.None?)
      && (g.At(side).confirmation.Some? ==>
            && ops[j].actor.human
            && g.At(side).how.ReviewerConfirmed?
            && g.At(side).confirmation == Some(Confirmation(ops[j].actor.id, g.Print(side))))
  {
    SameLength(subjects, snaps, ops, j);
    SameLength(subjects, snaps, ops, j + 1);
    assert Linked(subjects, snaps, ops, j);
    if ops[j].DoCorrect? {
      CorrectionAt(subjects, snaps[j], ops[j], snaps[j + 1], i, side);
    } else {
      ConfirmationAt(subjects, snaps[j], ops[j], snaps[j + 1], i, side);
    }
  }

  /** Operation `j` confirmed exactly side `side` of pair `i`. */
  ghost predicate ConfirmsSide(subjects: Subjects, snaps: seq<Snapshot>, ops: seq<Op>, j: nat, i: nat, side: Side)
    requires j < |ops| && j < |snaps|
  {
    && ops[j].DoConfirm?
    && Resolve(subjects, snaps[j].material, ops[j].subject) == Some(i)
    && subjects[ops[j].subject].side == side
  }

  /** One link of the trace. */
  lemma {:induction false} TraceStep(subjects: Subjects, snaps: seq<Snapshot>, ops: seq<Op>, j: nat, i: nat, side: Side)
    requires Chain(subjects, snaps, ops) && j < |ops| && i < |snaps[j + 1].material.pairs|
    requires snaps[j + 1].material.pairs[i].At(side).confirmation.Some?
    ensures i < |snaps[j].material.pairs|
    ensures ops[j].DoConfirm? && ops[j].actor.id == snaps[j + 1].material.pairs[i].At(side).confirmation.value.reviewer
    ensures ConfirmsSide(subjects, snaps, ops, j, i, side)
         || snaps[j].material.pairs[i].At(side).confirmation == snaps[j + 1].material.pairs[i].At(side).confirmation
  {
    SameLength(subjects, snaps, ops, j);
    SameLength(subjects, snaps, ops, j + 1);
    assert Linked(subjects, snaps, ops, j);
    ConfirmationsAreCurrent(subjects, snaps, ops, j, i, side);
    ConfirmationAt(subjects, snaps[j], ops[j], snaps[j + 1], i, side);
  }

  /** A surviving confirmation is an unbroken trace: some operation confirmed that very side (or
      the first revision already held the confirmation, `from == -1`), and every operation
      since is a confirmation by the same human that kept it. */
  lemma {:induction false} ConfirmationIsTraced(subjects: Subjects, snaps: seq<Snapshot>, ops: seq<Op>, n: nat, i: nat, side: Side) returns (from: int)
    requires Chain(subjects, snaps, ops) && n < |snaps| && i < |snaps[n].material.pairs|
    requires snaps[n].material.pairs[i].At(side).confirmation.Some?
    ensures -1 <= from < n
    ensures 0 <= from ==> ConfirmsSide(subjects, snaps, ops, from, i, side)
    ensures forall j :: from < j <= n ==>
      i < |snaps[j].material.pairs| && snaps[j].material.pairs[i].At(side).confirmation == snaps[n].material.pairs[i].At(side).confirmation
    ensures forall j :: 0 <= j < n && from <= j ==>
      ops[j].DoConfirm? && ops[j].actor.id == snaps[n].material.pairs[i].At(side).confirmation.value.reviewer
  {
    from := n - 1;
    ghost var c := snaps[n].material.pairs[i].At(side).confirmation;
    var m := n;
    while m > 0 && from == m - 1
      invariant -1 <= from <= m <= n && from < n && from >= m - 1
      invariant from == m - 1 || (0 <= from == m && ConfirmsSide(subjects, snaps, ops, from, i, side))
      invariant forall j :: from < j <= n ==> i < |snaps[j].material.pairs| && snaps[j].material.pairs[i].At(side).confirmation == c
      invariant forall j :: m <= j < n ==> ops[j].DoConfirm? && ops[j].actor.id == c.value.reviewer
      decreases m
    {
      TraceStep(subjects, snaps, ops, m - 1, i, side);
      m := m - 1;
      if !ConfirmsSide(subjects, snaps, ops, m, i, side) {
        from := m - 1;
      }
    }
  }

  // -------------------------------------------------- how long a confirmation lives

  /** Side `side` of pair `i` holds the confirmation `c`. */
  ghost predicate Holds(s: Snapshot, i: nat, side: Side, c: Confirmation) {
    i < |s.material.pairs| && s.material.pairs[i].At(side).confirmation == Some(c)
  }

  /** The operation addresses that side. */
  predicate Addresses(subjects: Subjects, s: Snapshot, op: Op, i: nat, side: Side)
    requires op.DoConfirm?
  {
    Resolve(subjects, s.material, op.subject) == Some(i) && subjects[op.subject].side == side
  }

  /** A confirmation by the same human, of the content `c` binds, that addresses the side or
      carries it over. */
  ghost predicate Keeps(subjects: Subjects, s: Snapshot, op: Op, i: nat, side: Side, c: Confirmation) {
    && i < |s.material.pairs|
    && op.DoConfirm? && op.actor.id == c.reviewer && c.digest == s.material.pairs[i].Print(side)
    && (Addresses(subjects, s, op, i, side) ||
        Carries(s.material.pairs, s.material.pairs[i], side, op.actor.id, op.retained, op.allows))
  }

  /** One operation leaves a confirmation as it is exactly if it keeps it in that sense. */
  lemma {:induction false} KeptExactly(subjects: Subjects, s: Snapshot, op: Op, t: Snapshot, i: nat, side: Side, c: Confirmation)
    requires Apply(subjects, s, op) == Some(t) && Holds(s, i, side, c)
    ensures Holds(t, i, side, c) <==> Keeps(subjects, s, op, i, side, c)
  {
    if op.DoCorrect? {
      CorrectionAt(subjects, s, op, t, i, side);
    } else {
      ConfirmationAt(subjects, s, op, t, i, side);
      if !Addresses(subjects, s, op, i, side) {
        CarriedExactly(subjects, s, op, t, i, side);
        if CountKey(s.material.pairs, s.material.pairs[i].key) == 1 {
          UniqueIsPrevious(s.material.pairs, s.material.pairs[i].key, i);
        }
      }
    }
  }

  ghost predicate HeldThrough(snaps: seq<Snapshot>, j: nat, n: nat, i: nat, side: Side, c: Confirmation)
    requires n < |snaps|
  {
    forall k :: j <= k <= n ==> Holds(snaps[k], i, side, c)
  }

  ghost predicate AllKeep(subjects: Subjects, snaps: seq<Snapshot>, ops: seq<Op>, j: nat, n: nat, i: nat, side: Side, c: Confirmation)
    requires n <= |ops| && n <= |snaps|
  {
    forall k :: j <= k < n ==> Keeps(subjects, snaps[k], ops[k], i, side, c)
  }

  lemma {:induction false} LastKept(subjects: Subjects, snaps: seq<Snapshot>, ops: seq<Op>, n: nat, i: nat, side: Side, c: Confirmation)
    requires Chain(subjects, snaps, ops) && 0 < n < |snaps| && Holds(snaps[n - 1], i, side, c)
    ensures Holds(snaps[n], i, side, c) <==> Keeps(subjects, snaps[n - 1], ops[n - 1], i, side, c)
  {
    assert Linked(subjects, snaps, ops, n - 1);
    KeptExactly(subjects, snaps[n - 1], ops[n - 1], snaps[n], i, side, c);
  }

  /** A confirmation held at revision `j` is held at every revision up to `n` exactly if every
      operation in between is a confirmation by that human that addresses the side or satisfies
      `Carries` where it is applied. */
  lemma {:induction false} ConfirmationSurvivesExactly(subjects: Subjects, snaps: seq<Snapshot>, ops: seq<Op>, j: nat, n: nat,
                                                       i: nat, side: Side, c: Confirmation)
    requires Chain(subjects, snaps, ops) && j <= n < |snaps| && Holds(snaps[j], i, side, c)
    ensures HeldThrough(snaps, j, n, i, side, c) <==> AllKeep(subjects, snaps, ops, j, n, i, side, c)
    decreases n
  {
    if j < n {
      ConfirmationSurvivesExactly(subjects, snaps, ops, j, n - 1, i, side, c);
      if Holds(snaps[n - 1], i, side, c) {
        LastKept(subjects, snaps, ops, n, i, side, c);
      }
    }
  }

  lemma {:induction false} SameKeysResolve(a: seq<Pair>, b: seq<Pair>, key: Key)
    requires |a| == |b| && forall i :: 0 <= i < |a| ==> a[i].key == b[i].key
    ensures CountKey(a, key) == CountKey(b, key) && IndexOf(a, key) == IndexOf(b, key)
  {
    if a != [] {
      SameKeysResolve(a[..|a| - 1], b[..|b| - 1], key);
    }
  }

  /** What decides over a side's confirmation is the same in both revisions. */
  ghost predicate SameBasis(s: Snapshot, t: Snapshot, i: nat, side: Side) {
    && |s.material.pairs| == |t.material.pairs|
    && (forall k :: 0 <= k < |s.material.pairs| ==> s.material.pairs[k].key == t.material.pairs[k].key)
    && i < |s.material.pairs| && s.material.pairs[i].Print(side) == t.material.pairs[i].Print(side)
  }

  lemma {:induction false} ConfirmingKeepsBasis(subjects: Subjects, s: Snapshot, op: Op, t: Snapshot, i: nat, side: Side)
    requires op.DoConfirm? && Apply(subjects, s, op) == Some(t) && i < |s.material.pairs|
    ensures SameBasis(s, t, i, side)
  {
    ConfirmationAt(subjects, s, op, t, i, side);
    forall k | 0 <= k < |s.material.pairs| ensures k < |t.material.pairs| && s.material.pairs[k].key == t.material.pairs[k].key {
      ConfirmationAt(subjects, s, op, t, k, side);
    }
  }

  /** `Keeps`, told by revision `s` and the operation alone. */
  ghost predicate WillKeep(subjects: Subjects, s: Snapshot, op: Op, i: nat, side: Side, c: Confirmation) {
    && i < |s.material.pairs|
    && var p := s.material.pairs[i];
       && op.DoConfirm? && op.actor.id == c.reviewer && c.digest == p.Print(side)
       && (Addresses(subjects, s, op, i, side) ||
           (&& CountKey(s.material.pairs, p.key) == 1
            && SideReference(Binding(p.key, side), c.digest) in op.retained
            && op.allows(p.At(side).sources) && Confirmable(p.At(side))))
  }

  lemma {:induction false} KeepsAsForeseen(subjects: Subjects, s: Snapshot, t: Snapshot, op: Op, i: nat, side: Side, c: Confirmation)
    requires SameBasis(s, t, i, side) && Holds(t, i, side, c) && t.material.pairs[i].At(side).how.ReviewerConfirmed?
    ensures Keeps(subjects, t, op, i, side, c) <==> WillKeep(subjects, s, op, i, side, c)
  {
    SameKeysResolve(s.material.pairs, t.material.pairs, t.material.pairs[i].key);
    if op.DoConfirm? && op.subject in subjects {
      SameKeysResolve(s.material.pairs, t.material.pairs, subjects[op.subject].key);
    }
    if CountKey(t.material.pairs, t.material.pairs[i].key) == 1 {
      UniqueIsPrevious(t.material.pairs, t.material.pairs[i].key, i);
    }
  }

  /** A confirmation a revision holds in due form. */
  ghost predicate DulyHolds(s: Snapshot, i: nat, side: Side, c: Confirmation) {
    Holds(s, i, side, c) && s.material.pairs[i].At(side).how.ReviewerConfirmed?
  }

  lemma {:induction false} ForeseenStep(subjects: Subjects, first: Snapshot, s: Snapshot, op: Op, t: Snapshot, i: nat, side: Side,
                                        c: Confirmation)
    requires Apply(subjects, s, op) == Some(t) && DulyHolds(s, i, side, c) && SameBasis(first, s, i, side)
    ensures Holds(t, i, side, c) <==> WillKeep(subjects, first, op, i, side, c)
    ensures Holds(t, i, side, c) ==> DulyHolds(t, i, side, c) && SameBasis(first, t, i, side)
  {
    KeptExactly(subjects, s, op, t, i, side, c);
    KeepsAsForeseen(subjects, first, s, op, i, side, c);
    if Holds(t, i, side, c) {
      ConfirmingKeepsBasis(subjects, s, op, t, i, side);
      ConfirmationAt(subjects, s, op, t, i, side);
    }
  }

  ghost predicate AllWillKeep(subjects: Subjects, s: Snapshot, ops: seq<Op>, j: nat, n: nat, i: nat, side: Side, c: Confirmation)
    requires n <= |ops|
  {
    forall k :: j <= k < n ==> WillKeep(subjects, s, ops[k], i, side, c)
  }

  lemma {:induction false} LastForeseen(subjects: Subjects, snaps: seq<Snapshot>, ops: seq<Op>, j: nat, n: nat,
                                        i: nat, side: Side, c: Confirmation)
    requires Chain(subjects, snaps, ops) && j < n < |snaps| && DulyHolds(snaps[j], i, side, c)
    requires HeldThrough(snaps, j, n - 1, i, side, c)
    ensures Holds(snaps[n], i, side, c) <==> WillKeep(subjects, snaps[j], ops[n - 1], i, side, c)
  {
    HeldKeepsBasis(subjects, snaps, ops, j, n - 1, i, side, c);
    assert Linked(subjects, snaps, ops, n - 1);
    ForeseenStep(subjects, snaps[j], snaps[n - 1], ops[n - 1], snaps[n], i, side, c);
  }

  /** How long a confirmation lives is decided in advance: by the revision that holds it and the
      operations that follow, without looking at any revision in between. */
  lemma {:induction false} SurvivalIsForeseeable(subjects: Subjects, snaps: seq<Snapshot>, ops: seq<Op>, j: nat, n: nat,
                                                 i: nat, side: Side, c: Confirmation)
    requires Chain(subjects, snaps, ops) && j <= n < |snaps| && DulyHolds(snaps[j], i, side, c)
    ensures HeldThrough(snaps, j, n, i, side, c) <==> AllWillKeep(subjects, snaps[j], ops, j, n, i, side, c)
    decreases n
  {
    if j < n {
      SurvivalIsForeseeable(subjects, snaps, ops, j, n - 1, i, side, c);
      if HeldThrough(snaps, j, n - 1, i, side, c) {
        LastForeseen(subjects, snaps, ops, j, n, i, side, c);
      }
    }
  }

  lemma {:induction false} HeldKeepsBasis(subjects: Subjects, snaps: seq<Snapshot>, ops: seq<Op>, j: nat, n: nat,
                                          i: nat, side: Side, c: Confirmation)
    requires Chain(subjects, snaps, ops) && j <= n < |snaps| && DulyHolds(snaps[j], i, side, c)
    requires HeldThrough(snaps, j, n, i, side, c)
    ensures DulyHolds(snaps[n], i, side, c) && SameBasis(snaps[j], snaps[n], i, side)
    decreases n
  {
    if j < n {
      HeldKeepsBasis(subjects, snaps, ops, j, n - 1, i, side, c);
      BasisStep(subjects, snaps, ops, snaps[j], n, i, side, c);
    }
  }

  lemma {:induction false} BasisStep(subjects: Subjects, snaps: seq<Snapshot>, ops: seq<Op>, first: Snapshot, n: nat,
                                     i: nat, side: Side, c: Confirmation)
    requires Chain(subjects, snaps, ops) && 0 < n < |snaps|
    requires DulyHolds(snaps[n - 1], i, side, c) && SameBasis(first, snaps[n - 1], i, side) && Holds(snaps[n], i, side, c)
    ensures DulyHolds(snaps[n], i, side, c) && SameBasis(first, snaps[n], i, side)
  {
    assert Linked(subjects, snaps, ops, n - 1);
    ForeseenStep(subjects, first, snaps[n - 1], ops[n - 1], snaps[n], i, side, c);
  }

  // ---------------------------------------------------------- what a side says, and why

  /** Operation `j` corrected exactly that side. */
  ghost predicate CorrectsSide(subjects: Subjects, snaps: seq<Snapshot>, ops: seq<Op>, j: nat, i: nat, side: Side)
    requires j < |ops| && j < |snaps|
  {
    && ops[j].DoCorrect?
    && Resolve(subjects, snaps[j].material, ops[j].correction.subject) == Some(i)
    && subjects[ops[j].correction.subject].side == side
  }

  lemma {:induction false} ContentStep(subjects: Subjects, snaps: seq<Snapshot>, ops: seq<Op>, j: nat, i: nat, side: Side)
    requires Chain(subjects, snaps, ops) && j < |ops| && i < |snaps[j].material.pairs|
    ensures i < |snaps[j + 1].material.pairs|
    ensures if CorrectsSide(subjects, snaps, ops, j, i, side)
            then Project(snaps[j + 1].material.pairs[i].At(side)) == ops[j].correction.proposed
            else snaps[j + 1].material.pairs[i].Print(side) == snaps[j].material.pairs[i].Print(side)
  {
    assert Linked(subjects, snaps, ops, j);
    if ops[j].DoCorrect? {
      CorrectionIsLocal(subjects, snaps[j], ops[j], snaps[j + 1], i, side);
    } else {
      ConfirmationAt(subjects, snaps[j], ops[j], snaps[j + 1], i, side);
    }
  }

  /** What a side says is what the last correction of that very side proposed, word for word, or
      what it said in the first revision if none did (`last == -1`). */
  lemma {:induction false} ContentIsTraced(subjects: Subjects, snaps: seq<Snapshot>, ops: seq<Op>, n: nat, i: nat, side: Side)
    returns (last: int)
    requires Chain(subjects, snaps, ops) && n < |snaps| && i < |snaps[0].material.pairs|
    ensures i < |snaps[n].material.pairs| && -1 <= last < n
    ensures forall j :: last < j < n ==> !CorrectsSide(subjects, snaps, ops, j, i, side)
    ensures 0 <= last ==>
              && CorrectsSide(subjects, snaps, ops, last, i, side)
              && Project(snaps[n].material.pairs[i].At(side)) == ops[last].correction.proposed
    ensures last == -1 ==> snaps[n].material.pairs[i].Print(side) == snaps[0].material.pairs[i].Print(side)
  {
    if n == 0 {
      last := -1;
    } else {
      last := ContentIsTraced(subjects, snaps, ops, n - 1, i, side);
      ContentStep(subjects, snaps, ops, n - 1, i, side);
      if CorrectsSide(subjects, snaps, ops, n - 1, i, side) {
        last := n - 1;
      }
    }
  }

  /** The corrections among the operations, in order. */
  function Corrections(ops: seq<Op>): seq<Op> {
    if ops == [] then []
    else Corrections(ops[..|ops| - 1]) + (if ops[|ops| - 1].DoCorrect? then [ops[|ops| - 1]] else [])
  }

  ghost predicate Records(change: Change, op: Op) {
    op.DoCorrect? && op.actor.human && change.subject == op.correction.subject && change.actor == op.actor.id
  }

  lemma {:induction false} ConfirmingRecordsNothing(subjects: Subjects, s: Snapshot, op: Op, t: Snapshot)
    requires op.DoConfirm? && Apply(subjects, s, op) == Some(t)
    ensures t.changes == s.changes
  {
  }

  lemma {:induction false} NewChange(subjects: Subjects, s: Snapshot, op: Op, t: Snapshot)
    requires op.DoCorrect? && Apply(subjects, s, op) == Some(t)
    ensures |t.changes| == |s.changes| + 1 && t.changes[..|s.changes|] == s.changes && Records(t.changes[|s.changes|], op)
  {
    CorrectionIsLocal(subjects, s, op, t, Resolve(subjects, s.material, op.correction.subject).value, Target);
  }

  /** The change list of a revision is that of the first one and one entry, with its human, for
      each correction since, in order: none is lost, rewritten or added by a confirmation. */
  lemma {:induction false} EveryCorrectionIsRecorded(subjects: Subjects, snaps: seq<Snapshot>, ops: seq<Op>, n: nat)
    requires Chain(subjects, snaps, ops) && n < |snaps|
    ensures
      var first, now, made := snaps[0].changes, snaps[n].changes, Corrections(ops[..n]);
      && |now| == |first| + |made| && now[..|first|] == first
      && forall m :: 0 <= m < |made| ==> Records(now[|first| + m], made[m])
  {
    if n > 0 {
      EveryCorrectionIsRecorded(subjects, snaps, ops, n - 1);
      assert Linked(subjects, snaps, ops, n - 1);
      assert ops[..n][..n - 1] == ops[..n - 1];
      if ops[n - 1].DoCorrect? {
        NewChange(subjects, snaps[n - 1], ops[n - 1], snaps[n]);
        assert forall m :: 0 <= m < |snaps[n - 1].changes| ==> snaps[n].changes[m] == snaps[n].changes[..|snaps[n - 1].changes|][m];
      } else {
        ConfirmingRecordsNothing(subjects, snaps[n - 1], ops[n - 1], snaps[n]);
      }
    }
  }

  lemma {:induction false} NativeStep(subjects: Subjects, snaps: seq<Snapshot>, ops: seq<Op>, j: nat, i: nat, side: Side)
    requires Chain(subjects, snaps, ops) && j < |ops| && i < |snaps[j + 1].material.pairs|
    requires snaps[j + 1].material.pairs[i].At(side).how.NativeNumeric?
    ensures i < |snaps[j].material.pairs|
    ensures
      var f := snaps[j].material.pairs[i];
      f.At(side).how.NativeNumeric? && f.At(side).confirmation.None? && f.Print(side) == snaps[j + 1].material.pairs[i].Print(side)
  {
    SameLength(subjects, snaps, ops, j);
    SameLength(subjects, snaps, ops, j + 1);
    assert Linked(subjects, snaps, ops, j);
    if ops[j].DoCorrect? {
      CorrectionAt(subjects, snaps[j], ops[j], snaps[j + 1], i, side);
    } else {
      ConfirmationAt(subjects, snaps[j], ops[j], snaps[j + 1], i, side);
    }
  }

  ghost predicate NativeAt(s: Snapshot, i: nat, side: Side, d: Digest) {
    i < |s.material.pairs| && s.material.pairs[i].At(side).how.NativeNumeric? && s.material.pairs[i].Print(side) == d
  }

  /** A native label that survives a chain was there from the start, on a side nobody confirmed
      and whose digest never changed. */
  lemma {:induction false} NativeLineageIsUnbroken(subjects: Subjects, snaps: seq<Snapshot>, ops: seq<Op>, n: nat, i: nat, side: Side, j: nat)
    requires Chain(subjects, snaps, ops) && j < n < |snaps| && i < |snaps[n].material.pairs|
    requires snaps[n].material.pairs[i].At(side).how.NativeNumeric?
    ensures NativeAt(snaps[j], i, side, snaps[n].material.pairs[i].Print(side))
    ensures snaps[j].material.pairs[i].At(side).confirmation.None?
    decreases n
  {
    NativeStep(subjects, snaps, ops, n - 1, i, side);
    if j < n - 1 {
      NativeLineageIsUnbroken(subjects, snaps, ops, n - 1, i, side, j);
    }
  }
}
