/**
 Running an evaluation under a worst-case reservation, and replaying what it recorded
 (`application/extraction_evaluation.py`: `_check_recorded_budget`, `_schedule`, `run_evaluation`).
 */
module EvaluationRun {
  import opened Common

  /** One billed attempt; unknown usage is `None`. */
  datatype Attempt = Attempt(certain: bool, inputTokens: Option<nat>, outputTokens: Option<nat>)

  datatype Failure = BudgetExhausted | OtherFailure(code: nat)

  datatype Handoff = PageFailed | OtherHandoff(reason: nat)

  datatype Outcome = Outcome(proposal: Option<nat>, failure: Option<Failure>, handoffs: seq<Handoff>, attempts: seq<Attempt>)

  /** A scheduled page of a repeat. */
  datatype Slot = Slot(repetition: nat, input: nat, page: nat)

  datatype Limits = Limits(attemptsPerPage: nat, tokensPerAttempt: nat, maxCalls: nat, maxTokens: nat)

  function KnownTokens(attempts: seq<Attempt>): nat {
    if attempts == [] then 0
    else
      var last := attempts[|attempts| - 1].outputTokens;
      KnownTokens(attempts[..|attempts| - 1]) + (if last.Some? then last.value else 0)
  }

  // ------------------------------------------------------------------- the budget gate

  /** The provider kept its own limits for a page. */
  predicate WithinPageLimits(attempts: seq<Attempt>, limits: Limits) {
    && |attempts| <= limits.attemptsPerPage
    && forall i :: 0 <= i < |attempts| && attempts[i].outputTokens.Some? ==>
         attempts[i].outputTokens.value <= limits.tokensPerAttempt
  }

  predicate Exceeds(attempts: seq<Attempt>, limits: Limits, calls: nat, tokens: nat) {
    || !WithinPageLimits(attempts, limits)
    || calls + |attempts| > limits.maxCalls
    || tokens + KnownTokens(attempts) > limits.maxTokens
  }

  /** `_check_recorded_budget`: an over-budget page fails, and keeps every billed attempt. */
  function Checked(o: Outcome, limits: Limits, calls: nat, tokens: nat): Outcome {
    if !Exceeds(o.attempts, limits, calls, tokens) then o
    else Outcome(None, Some(BudgetExhausted), if PageFailed in o.handoffs then o.handoffs else o.handoffs + [PageFailed], o.attempts)
  }

  /** Checking twice is checking once, and never touches what was billed. */
  lemma {:induction false} CheckedIsIdempotent(o: Outcome, limits: Limits, calls: nat, tokens: nat)
    ensures Checked(o, limits, calls, tokens).attempts == o.attempts
    ensures Checked(Checked(o, limits, calls, tokens), limits, calls, tokens) == Checked(o, limits, calls, tokens)
  {
    assert o.handoffs + [PageFailed] != [] && (o.handoffs + [PageFailed])[|o.handoffs|] == PageFailed;
  }

  lemma {:induction false} TokensBound(attempts: seq<Attempt>, limits: Limits)
    requires WithinPageLimits(attempts, limits)
    ensures KnownTokens(attempts) <= |attempts| * limits.tokensPerAttempt
  {
    if attempts != [] {
      TokensBound(attempts[..|attempts| - 1], limits);
    }
  }

  predicate Reserves(limits: Limits, calls: nat, tokens: nat) {
    && calls + limits.attemptsPerPage <= limits.maxCalls
    && tokens + limits.attemptsPerPage * limits.tokensPerAttempt <= limits.maxTokens
  }

  /** Under a reservation, only a provider that broke its page limits can exceed the budget. */
  lemma {:induction false} ReservationCovers(attempts: seq<Attempt>, limits: Limits, calls: nat, tokens: nat)
    requires Reserves(limits, calls, tokens)
    ensures Exceeds(attempts, limits, calls, tokens) <==> !WithinPageLimits(attempts, limits)
  {
    if WithinPageLimits(attempts, limits) {
      TokensBound(attempts, limits);
      Product(|attempts|, limits.attemptsPerPage, limits.tokensPerAttempt);
    }
  }

  lemma {:induction false} Product(a: nat, b: nat, c: nat)
    requires a <= b
    ensures a * c <= b * c
  {
  }

  // ------------------------------------------------------------------------ the replay

  type Record = map<Slot, Outcome>

  function UsedCalls(m: Record, slots: seq<Slot>): nat {
    if slots == [] then 0
    else
      var last := slots[|slots| - 1];
      UsedCalls(m, slots[..|slots| - 1]) + (if last in m then |m[last].attempts| else 0)
  }

  function UsedTokens(m: Record, slots: seq<Slot>): nat {
    if slots == [] then 0
    else
      var last := slots[|slots| - 1];
      UsedTokens(m, slots[..|slots| - 1]) + (if last in m then KnownTokens(m[last].attempts) else 0)
  }

  /** What slot `k`'s outcome becomes when the replay reaches it. */
  function ProjectedAt(m: Record, slots: seq<Slot>, k: nat, limits: Limits): Outcome
    requires k < |slots| && slots[k] in m
  {
    Checked(m[slots[k]], limits, UsedCalls(m, slots[..k]), UsedTokens(m, slots[..k]))
  }

  /** `r` is the scoring projection of record `m`. */
  ghost predicate IsProjection(m: Record, r: Record, slots: seq<Slot>, limits: Limits) {
    && r.Keys == m.Keys
    && forall k: nat :: k < |slots| && slots[k] in m ==> r[slots[k]] == ProjectedAt(m, slots, k, limits)
  }

  lemma {:induction false} SameUsage(a: Record, b: Record, slots: seq<Slot>)
    requires forall i :: 0 <= i < |slots| ==> (slots[i] in a <==> slots[i] in b)
    requires forall i :: 0 <= i < |slots| && slots[i] in a ==> a[slots[i]].attempts == b[slots[i]].attempts
    ensures UsedCalls(a, slots) == UsedCalls(b, slots) && UsedTokens(a, slots) == UsedTokens(b, slots)
  {
    if slots != [] {
      SameUsage(a, b, slots[..|slots| - 1]);
    }
  }

  /** The budget loop of `_schedule`. */
  method ProjectReplay(m: Record, slots: seq<Slot>, limits: Limits) returns (r: Record)
    requires NoDuplicates(slots)
    ensures IsProjection(m, r, slots, limits)
  {
    r := m;
    var calls, tokens := 0, 0;
    for k := 0 to |slots|
      invariant r.Keys == m.Keys
      invariant calls == UsedCalls(m, slots[..k]) && tokens == UsedTokens(m, slots[..k])
      invariant forall i: nat :: i < k && slots[i] in m ==> r[slots[i]] == ProjectedAt(m, slots, i, limits)
      invariant forall i :: k <= i < |slots| && slots[i] in m ==> r[slots[i]] == m[slots[i]]
    {
      assert slots[..k + 1][..k] == slots[..k];
      var s := slots[k];
      if s in r {
        var recorded := r[s];
        r := r[s := Checked(recorded, limits, calls, tokens)];
        calls := calls + |recorded.attempts|;
        tokens := tokens + KnownTokens(recorded.attempts);
      }
    }
  }

  /** The `k`th page takes the record over budget: by itself, or together with what came before it. */
  predicate OverBudgetAt(m: Record, slots: seq<Slot>, k: nat, limits: Limits)
    requires k < |slots| && slots[k] in m
  {
    var attempts := m[slots[k]].attempts;
    || |attempts| > limits.attemptsPerPage
    || (exists i :: 0 <= i < |attempts| && attempts[i].outputTokens.Some? && attempts[i].outputTokens.value > limits.tokensPerAttempt)
    || UsedCalls(m, slots[..k + 1]) > limits.maxCalls
    || UsedTokens(m, slots[..k + 1]) > limits.maxTokens
  }

  /** A projection fails exactly the pages that take the record over budget, and keeps what they were
      billed; every other page is as recorded. */
  lemma {:induction false} ProjectionFailsExactly(m: Record, r: Record, slots: seq<Slot>, limits: Limits, k: nat)
    requires IsProjection(m, r, slots, limits) && k < |slots| && slots[k] in m
    ensures slots[k] in r
    ensures
      var was, now := m[slots[k]], r[slots[k]];
      if OverBudgetAt(m, slots, k, limits) then
        && now.proposal.None? && now.failure == Some(BudgetExhausted) && now.attempts == was.attempts
        && PageFailed in now.handoffs && was.handoffs <= now.handoffs && |now.handoffs| <= |was.handoffs| + 1
        && (PageFailed in was.handoffs ==> now.handoffs == was.handoffs)
      else now == was
  {
    UsedThrough(m, slots, k);
    var handoffs := m[slots[k]].handoffs;
    assert (handoffs + [PageFailed])[|handoffs|] == PageFailed;
    assert r[slots[k]] == ProjectedAt(m, slots, k, limits);
  }

  /** Scoring a projection again changes nothing. */
  lemma {:induction false} ProjectionIsIdempotent(m: Record, r: Record, slots: seq<Slot>, limits: Limits)
    requires IsProjection(m, r, slots, limits)
    ensures IsProjection(r, r, slots, limits)
  {
    forall k: nat | k < |slots| && slots[k] in r ensures r[slots[k]] == ProjectedAt(r, slots, k, limits) {
      forall i: nat | i < k && slots[i] in m ensures r[slots[i]].attempts == m[slots[i]].attempts {
        CheckedIsIdempotent(m[slots[i]], limits, UsedCalls(m, slots[..i]), UsedTokens(m, slots[..i]));
        assert r[slots[i]] == ProjectedAt(m, slots, i, limits);
      }
      SameUsage(m, r, slots[..k]);
      CheckedIsIdempotent(m[slots[k]], limits, UsedCalls(m, slots[..k]), UsedTokens(m, slots[..k]));
    }
  }

  // --------------------------------------------------------------------------- the run

  datatype Answer = Raised(code: nat) | Returned(outcome: Outcome)

  /** The provider and the clock: what a page's call answers, and whether time is up before it. */
  datatype World = World(late: Slot -> bool, answer: Slot -> Answer)

  datatype Entry = Entry(slot: Slot, outcome: Outcome)

  datatype Run = Run(calls: nat, tokens: nat, stopped: bool, records: seq<Entry>, failures: seq<Slot>)

  predicate Uncertain(attempts: seq<Attempt>) {
    exists i :: 0 <= i < |attempts| && (!attempts[i].certain || attempts[i].inputTokens.None? || attempts[i].outputTokens.None?)
  }

  /** One page of the schedule. */
  function Visit(run: Run, s: Slot, world: World, limits: Limits): Run {
    if run.stopped || world.late(s) || !Reserves(limits, run.calls, run.tokens) then run.(stopped := true)
    else
      match world.answer(s)
      case Raised(_) => run.(failures := run.failures + [s], stopped := true)
      case Returned(o) =>
        Run(run.calls + |o.attempts|,
            run.tokens + KnownTokens(o.attempts),
            Exceeds(o.attempts, limits, run.calls, run.tokens) || Uncertain(o.attempts),
            run.records + [Entry(s, Checked(o, limits, run.calls, run.tokens))],
            run.failures)
  }

  function VisitAll(run: Run, slots: seq<Slot>, world: World, limits: Limits): Run {
    if slots == [] then run
    else Visit(VisitAll(run, slots[..|slots| - 1], world, limits), slots[|slots| - 1], world, limits)
  }

  function AsRecord(records: seq<Entry>): Record {
    if records == [] then map[]
    else AsRecord(records[..|records| - 1])[records[|records| - 1].slot := records[|records| - 1].outcome]
  }

  const Start := Run(0, 0, false, [], [])

  // ---------------------------------------------------------------- what a run keeps

  ghost predicate KeysBefore(m: Record, slots: seq<Slot>, k: nat)
    requires k <= |slots|
  {
    forall s :: s in m ==> s in slots[..k]
  }

  /** Slot `j` was called in time and under a reservation that fitted, and what is recorded is the
      provider's own answer, checked at the usage the run then had. */
  ghost predicate Admitted(m: Record, slots: seq<Slot>, j: nat, world: World, limits: Limits)
    requires j < |slots|
  {
    slots[j] in m ==>
      var calls, tokens := UsedCalls(m, slots[..j]), UsedTokens(m, slots[..j]);
      && Reserves(limits, calls, tokens)
      && !world.late(slots[j])
      && world.answer(slots[j]).Returned?
      && m[slots[j]] == Checked(world.answer(slots[j]).outcome, limits, calls, tokens)
  }

  /** An outcome after which nothing more may be spent. */
  ghost predicate Final(m: Record, slots: seq<Slot>, j: nat, limits: Limits)
    requires j < |slots|
  {
    && slots[j] in m
    && (Exceeds(m[slots[j]].attempts, limits, UsedCalls(m, slots[..j]), UsedTokens(m, slots[..j])) || Uncertain(m[slots[j]].attempts))
  }

  ghost predicate Covers(m: Record, slots: seq<Slot>) {
    forall s :: s in slots ==> s in m
  }

  lemma {:induction false} CoversNext(m: Record, slots: seq<Slot>, k: nat, o: Outcome)
    requires k < |slots| && Covers(m, slots[..k])
    ensures Covers(m[slots[k] := o], slots[..k + 1])
  {
    assert slots[..k + 1] == slots[..k] + [slots[k]];
  }

  ghost predicate FaithfulRecord(m: Record, calls: nat, tokens: nat, stopped: bool, slots: seq<Slot>, k: nat, world: World, limits: Limits)
    requires k <= |slots|
  {
    && KeysBefore(m, slots, k)
    && calls == UsedCalls(m, slots[..k]) && tokens == UsedTokens(m, slots[..k])
    && (forall j: nat :: j < k ==> Admitted(m, slots, j, world, limits))
    && (forall j: nat :: j < k && Final(m, slots, j, limits) ==> stopped && forall i :: j < i < k ==> slots[i] !in m)
    && (!stopped ==> Covers(m, slots[..k]))
  }

  ghost predicate Faithful(run: Run, slots: seq<Slot>, k: nat, world: World, limits: Limits)
    requires k <= |slots|
  {
    && FaithfulRecord(AsRecord(run.records), run.calls, run.tokens, run.stopped, slots, k, world, limits)
    && |run.failures| <= 1 && (run.failures != [] ==> run.stopped && run.failures[0] !in AsRecord(run.records))
    && (run.failures != [] ==> forall j: nat :: j < k ==> !Final(AsRecord(run.records), slots, j, limits))
  }

  /** A new outcome at slot `k` leaves what was known of earlier slots alone. */
  lemma {:induction false} EarlierStays(m: Record, slots: seq<Slot>, k: nat, o: Outcome, j: nat, world: World, limits: Limits)
    requires NoDuplicates(slots) && j < k < |slots| && KeysBefore(m, slots, k)
    ensures UsedCalls(m[slots[k] := o], slots[..j]) == UsedCalls(m, slots[..j])
    ensures UsedTokens(m[slots[k] := o], slots[..j]) == UsedTokens(m, slots[..j])
    ensures Admitted(m[slots[k] := o], slots, j, world, limits) <==> Admitted(m, slots, j, world, limits)
    ensures Final(m[slots[k] := o], slots, j, limits) <==> Final(m, slots, j, limits)
  {
    SameUsage(m, m[slots[k] := o], slots[..j]);
  }

  lemma {:induction false} UsedThrough(m: Record, slots: seq<Slot>, k: nat)
    requires k < |slots|
    ensures UsedCalls(m, slots[..k + 1]) == UsedCalls(m, slots[..k]) + (if slots[k] in m then |m[slots[k]].attempts| else 0)
    ensures UsedTokens(m, slots[..k + 1]) == UsedTokens(m, slots[..k]) + (if slots[k] in m then KnownTokens(m[slots[k]].attempts) else 0)
  {
    assert slots[..k + 1][..k] == slots[..k];
  }

  lemma {:induction false} QuietVisit(run: Run, after: Run, slots: seq<Slot>, k: nat, world: World, limits: Limits)
    requires NoDuplicates(slots) && k < |slots| && Faithful(run, slots, k, world, limits)
    requires after == run.(stopped := true) || (after == run.(failures := run.failures + [slots[k]], stopped := true) && !run.stopped)
    ensures Faithful(after, slots, k + 1, world, limits)
  {
    var m := AsRecord(run.records);
    UsedThrough(m, slots, k);
    forall s | s in m ensures s in slots[..k + 1] && s != slots[k] {
      assert s in slots[..k];
    }
  }

  /** Adding slot `k`'s answer to a record of earlier ones, none of them final. */
  lemma {:induction false} RecordGrows(m: Record, slots: seq<Slot>, k: nat, world: World, limits: Limits) returns (after: Record)
    requires NoDuplicates(slots) && k < |slots| && KeysBefore(m, slots, k)
    requires forall j: nat :: j < k ==> Admitted(m, slots, j, world, limits) && !Final(m, slots, j, limits)
    requires Reserves(limits, UsedCalls(m, slots[..k]), UsedTokens(m, slots[..k]))
    requires !world.late(slots[k]) && world.answer(slots[k]).Returned?
    ensures after == m[slots[k] := Checked(world.answer(slots[k]).outcome, limits, UsedCalls(m, slots[..k]), UsedTokens(m, slots[..k]))]
    ensures KeysBefore(after, slots, k + 1)
    ensures UsedCalls(after, slots[..k]) == UsedCalls(m, slots[..k]) && UsedTokens(after, slots[..k]) == UsedTokens(m, slots[..k])
    ensures forall j: nat :: j < k + 1 ==> Admitted(after, slots, j, world, limits)
    ensures forall j: nat :: j < k ==> !Final(after, slots, j, limits)
  {
    var o := Checked(world.answer(slots[k]).outcome, limits, UsedCalls(m, slots[..k]), UsedTokens(m, slots[..k]));
    after := m[slots[k] := o];
    SameUsage(m, after, slots[..k]);
    forall s | s in after ensures s in slots[..k + 1] {
      assert slots[..k + 1] == slots[..k] + [slots[k]];
    }
    forall j: nat | j < k ensures Admitted(after, slots, j, world, limits) && !Final(after, slots, j, limits) {
      EarlierStays(m, slots, k, o, j, world, limits);
    }
  }

  /** Slot `k`'s own place in the record that ends with it. */
  lemma {:induction false} LastRecorded(m: Record, o: Outcome, slots: seq<Slot>, k: nat, limits: Limits)
    requires k < |slots| && slots[k] in m
    requires m[slots[k]] == Checked(o, limits, UsedCalls(m, slots[..k]), UsedTokens(m, slots[..k]))
    ensures UsedCalls(m, slots[..k + 1]) == UsedCalls(m, slots[..k]) + |o.attempts|
    ensures UsedTokens(m, slots[..k + 1]) == UsedTokens(m, slots[..k]) + KnownTokens(o.attempts)
    ensures Final(m, slots, k, limits) <==>
            Exceeds(o.attempts, limits, UsedCalls(m, slots[..k]), UsedTokens(m, slots[..k])) || Uncertain(o.attempts)
  {
    CheckedIsIdempotent(o, limits, UsedCalls(m, slots[..k]), UsedTokens(m, slots[..k]));
    UsedThrough(m, slots, k);
  }

  lemma {:induction false} RecordStaysFaithful(m: Record, o: Outcome, slots: seq<Slot>, k: nat, world: World, limits: Limits) returns (after: Record)
    requires NoDuplicates(slots) && k < |slots|
    requires FaithfulRecord(m, UsedCalls(m, slots[..k]), UsedTokens(m, slots[..k]), false, slots, k, world, limits)
    requires Reserves(limits, UsedCalls(m, slots[..k]), UsedTokens(m, slots[..k]))
    requires !world.late(slots[k]) && world.answer(slots[k]) == Returned(o)
    ensures
      var calls, tokens := UsedCalls(m, slots[..k]), UsedTokens(m, slots[..k]);
      && after == m[slots[k] := Checked(o, limits, calls, tokens)]
      && FaithfulRecord(after, calls + |o.attempts|, tokens + KnownTokens(o.attempts),
                        Exceeds(o.attempts, limits, calls, tokens) || Uncertain(o.attempts), slots, k + 1, world, limits)
  {
    after := RecordGrows(m, slots, k, world, limits);
    LastRecorded(after, o, slots, k, limits);
    CoversNext(m, slots, k, after[slots[k]]);
  }

  lemma {:induction false} RecordedVisit(run: Run, o: Outcome, slots: seq<Slot>, k: nat, world: World, limits: Limits)
    requires NoDuplicates(slots) && k < |slots| && Faithful(run, slots, k, world, limits)
    requires !run.stopped && Reserves(limits, run.calls, run.tokens)
    requires !world.late(slots[k]) && world.answer(slots[k]) == Returned(o)
    ensures
      Faithful(
        Run(run.calls + |o.attempts|, run.tokens + KnownTokens(o.attempts),
            Exceeds(o.attempts, limits, run.calls, run.tokens) || Uncertain(o.attempts),
            run.records + [Entry(slots[k], Checked(o, limits, run.calls, run.tokens))], run.failures),
        slots, k + 1, world, limits)
  {
    var records := run.records + [Entry(slots[k], Checked(o, limits, run.calls, run.tokens))];
    assert records[..|run.records|] == run.records;
    var after := RecordStaysFaithful(AsRecord(run.records), o, slots, k, world, limits);
    assert AsRecord(records) == after;
  }

  lemma {:induction false} VisitKeeps(run: Run, slots: seq<Slot>, k: nat, world: World, limits: Limits)
    requires NoDuplicates(slots) && k < |slots| && Faithful(run, slots, k, world, limits)
    ensures Faithful(Visit(run, slots[k], world, limits), slots, k + 1, world, limits)
  {
    var s := slots[k];
    if run.stopped || world.late(s) || !Reserves(limits, run.calls, run.tokens) {
      QuietVisit(run, run.(stopped := true), slots, k, world, limits);
    } else {
      match world.answer(s)
      case Raised(_) => QuietVisit(run, run.(failures := run.failures + [s], stopped := true), slots, k, world, limits);
      case Returned(o) => RecordedVisit(run, o, slots, k, world, limits);
    }
  }

  lemma {:induction false} RunIsFaithful(slots: seq<Slot>, k: nat, world: World, limits: Limits)
    requires NoDuplicates(slots) && k <= |slots|
    ensures Faithful(VisitAll(Start, slots[..k], world, limits), slots, k, world, limits)
  {
    if k > 0 {
      RunIsFaithful(slots, k - 1, world, limits);
      assert slots[..k][..k - 1] == slots[..k - 1];
      VisitKeeps(VisitAll(Start, slots[..k - 1], world, limits), slots, k - 1, world, limits);
    }
  }

  // ------------------------------------------------------------ how far a run goes

  /** A slot the run cannot get past: time is up, the worst case no longer fits, or the call raises. */
  predicate Obstacle(m: Record, slots: seq<Slot>, i: nat, world: World, limits: Limits)
    requires i < |slots|
  {
    || world.late(slots[i])
    || UsedCalls(m, slots[..i]) + limits.attemptsPerPage > limits.maxCalls
    || UsedTokens(m, slots[..i]) + limits.attemptsPerPage * limits.tokensPerAttempt > limits.maxTokens
    || world.answer(slots[i]).Raised?
  }

  /** A recorded slot after which nothing more may be spent: the provider broke its page limits, or
      some attempt's usage is unknown. */
  predicate Spoiled(m: Record, s: Slot, limits: Limits) {
    && s in m
    && (|m[s].attempts| > limits.attemptsPerPage ||
        exists i :: 0 <= i < |m[s].attempts| && SpoilingAttempt(m[s].attempts[i], limits))
  }

  predicate SpoilingAttempt(a: Attempt, limits: Limits) {
    a.inputTokens.None? || a.outputTokens.None? || !a.certain || a.outputTokens.value > limits.tokensPerAttempt
  }

  /** Nothing before slot `j` ends the run. */
  ghost predicate Clear(m: Record, slots: seq<Slot>, j: nat, world: World, limits: Limits)
    requires j <= |slots|
  {
    forall i: nat :: i < j ==> !Obstacle(m, slots, i, world, limits) && !Spoiled(m, slots[i], limits)
  }

  /** The run went exactly as far as it could. */
  ghost predicate Reaches(m: Record, stopped: bool, slots: seq<Slot>, k: nat, world: World, limits: Limits)
    requires k <= |slots|
  {
    && (stopped <==> !Clear(m, slots, k, world, limits))
    && forall j: nat :: j < k ==>
         (slots[j] in m <==> Clear(m, slots, j, world, limits) && !Obstacle(m, slots, j, world, limits))
  }

  lemma {:induction false} SpoiledIsFinal(m: Record, o: Outcome, s: Slot, limits: Limits, calls: nat, tokens: nat)
    requires Reserves(limits, calls, tokens) && s in m && m[s] == Checked(o, limits, calls, tokens)
    ensures Spoiled(m, s, limits) <==> Exceeds(o.attempts, limits, calls, tokens) || Uncertain(o.attempts)
  {
    CheckedIsIdempotent(o, limits, calls, tokens);
    ReservationCovers(o.attempts, limits, calls, tokens);
    var attempts := o.attempts;
    if Spoiled(m, s, limits) && |attempts| <= limits.attemptsPerPage {
      var i :| 0 <= i < |attempts| && SpoilingAttempt(attempts[i], limits);
    }
    if Exceeds(attempts, limits, calls, tokens) && |attempts| <= limits.attemptsPerPage {
      var i :| 0 <= i < |attempts| && attempts[i].outputTokens.Some? && attempts[i].outputTokens.value > limits.tokensPerAttempt;
      assert SpoilingAttempt(attempts[i], limits);
    }
    if Uncertain(attempts) {
      var i :| 0 <= i < |attempts| && (!attempts[i].certain || attempts[i].inputTokens.None? || attempts[i].outputTokens.None?);
      assert SpoilingAttempt(attempts[i], limits);
    }
  }

  /** Recording slot `k` changes nothing about earlier slots. */
  lemma {:induction false} EarlierUntouched(m: Record, o: Outcome, slots: seq<Slot>, k: nat, i: nat, world: World, limits: Limits)
    requires NoDuplicates(slots) && i <= k < |slots|
    ensures UsedCalls(m[slots[k] := o], slots[..i]) == UsedCalls(m, slots[..i])
    ensures UsedTokens(m[slots[k] := o], slots[..i]) == UsedTokens(m, slots[..i])
    ensures Obstacle(m[slots[k] := o], slots, i, world, limits) <==> Obstacle(m, slots, i, world, limits)
    ensures i < k ==> (Spoiled(m[slots[k] := o], slots[i], limits) <==> Spoiled(m, slots[i], limits))
  {
    SameUsage(m, m[slots[k] := o], slots[..i]);
  }

  lemma {:induction false} ClearUntouched(m: Record, o: Outcome, slots: seq<Slot>, k: nat, j: nat, world: World, limits: Limits)
    requires NoDuplicates(slots) && j <= k < |slots|
    ensures Clear(m[slots[k] := o], slots, j, world, limits) <==> Clear(m, slots, j, world, limits)
  {
    forall i: nat | i < j
      ensures Obstacle(m[slots[k] := o], slots, i, world, limits) <==> Obstacle(m, slots, i, world, limits)
      ensures Spoiled(m[slots[k] := o], slots[i], limits) <==> Spoiled(m, slots[i], limits)
    {
      EarlierUntouched(m, o, slots, k, i, world, limits);
    }
  }

  lemma {:induction false} NotClearLater(m: Record, slots: seq<Slot>, k: nat, world: World, limits: Limits)
    requires k < |slots| && (!Clear(m, slots, k, world, limits) || Obstacle(m, slots, k, world, limits))
    ensures !Clear(m, slots, k + 1, world, limits)
  {
    if Obstacle(m, slots, k, world, limits) {
      assert exists i: nat :: i < k + 1 && Obstacle(m, slots, i, world, limits);
    }
  }

  lemma {:induction false} NotYetRecorded(m: Record, slots: seq<Slot>, k: nat)
    requires k < |slots| && KeysBefore(m, slots, k) && NoDuplicates(slots)
    ensures slots[k] !in m
  {
  }

  lemma {:induction false} QuietReaches(m: Record, stopped: bool, slots: seq<Slot>, k: nat, world: World, limits: Limits)
    requires k < |slots| && slots[k] !in m && Reaches(m, stopped, slots, k, world, limits)
    requires stopped || Obstacle(m, slots, k, world, limits)
    ensures Reaches(m, true, slots, k + 1, world, limits)
  {
    NotClearLater(m, slots, k, world, limits);
    forall j: nat | j < k + 1
      ensures slots[j] in m <==> Clear(m, slots, j, world, limits) && !Obstacle(m, slots, j, world, limits)
    {
    }
  }

  lemma {:induction false} RecordedReaches(m: Record, o: Outcome, slots: seq<Slot>, k: nat, world: World, limits: Limits)
    requires k < |slots| && NoDuplicates(slots) && Reaches(m, false, slots, k, world, limits)
    requires !Obstacle(m, slots, k, world, limits)
    ensures
      var calls, tokens := UsedCalls(m, slots[..k]), UsedTokens(m, slots[..k]);
      Reaches(m[slots[k] := Checked(o, limits, calls, tokens)], Exceeds(o.attempts, limits, calls, tokens) || Uncertain(o.attempts),
              slots, k + 1, world, limits)
  {
    var calls, tokens := UsedCalls(m, slots[..k]), UsedTokens(m, slots[..k]);
    var checked := Checked(o, limits, calls, tokens);
    var after := m[slots[k] := checked];
    SpoiledIsFinal(after, o, slots[k], limits, calls, tokens);
    ClearUntouched(m, checked, slots, k, k, world, limits);
    EarlierUntouched(m, checked, slots, k, k, world, limits);
    assert Clear(after, slots, k + 1, world, limits) <==> !Spoiled(after, slots[k], limits);
    forall j: nat | j < k
      ensures slots[j] in after <==> Clear(after, slots, j, world, limits) && !Obstacle(after, slots, j, world, limits)
    {
      ClearUntouched(m, checked, slots, k, j, world, limits);
      EarlierUntouched(m, checked, slots, k, j, world, limits);
    }
  }

  lemma {:induction false} VisitReaches(run: Run, slots: seq<Slot>, k: nat, world: World, limits: Limits)
    requires NoDuplicates(slots) && k < |slots| && Faithful(run, slots, k, world, limits)
    requires Reaches(AsRecord(run.records), run.stopped, slots, k, world, limits)
    ensures
      var after := Visit(run, slots[k], world, limits);
      Reaches(AsRecord(after.records), after.stopped, slots, k + 1, world, limits)
  {
    var m := AsRecord(run.records);
    if run.stopped || Obstacle(m, slots, k, world, limits) {
      NotYetRecorded(m, slots, k);
      QuietReaches(m, run.stopped, slots, k, world, limits);
    } else {
      var o := world.answer(slots[k]).outcome;
      RecordedReaches(m, o, slots, k, world, limits);
      var records := run.records + [Entry(slots[k], Checked(o, limits, run.calls, run.tokens))];
      assert records[..|run.records|] == run.records;
    }
  }

  lemma {:induction false} RunReaches(slots: seq<Slot>, k: nat, world: World, limits: Limits)
    requires NoDuplicates(slots) && k <= |slots|
    ensures
      var run := VisitAll(Start, slots[..k], world, limits);
      Reaches(AsRecord(run.records), run.stopped, slots, k, world, limits)
  {
    if k > 0 {
      RunReaches(slots, k - 1, world, limits);
      RunIsFaithful(slots, k - 1, world, limits);
      assert slots[..k][..k - 1] == slots[..k - 1];
      VisitReaches(VisitAll(Start, slots[..k - 1], world, limits), slots, k - 1, world, limits);
    }
  }

  // ------------------------------------------------------------------- main results

  lemma {:induction false} WholeRun(slots: seq<Slot>, world: World, limits: Limits) returns (run: Run)
    requires NoDuplicates(slots)
    ensures run == VisitAll(Start, slots, world, limits) && Faithful(run, slots, |slots|, world, limits)
  {
    RunIsFaithful(slots, |slots|, world, limits);
    assert slots[..|slots|] == slots;
    run := VisitAll(Start, slots, world, limits);
  }

  /** Re-scoring the record a run captured reproduces exactly its outcomes. */
  lemma {:induction false} ReplayAgreesWithRun(slots: seq<Slot>, world: World, limits: Limits)
    requires NoDuplicates(slots)
    ensures
      var m := AsRecord(VisitAll(Start, slots, world, limits).records);
      IsProjection(m, m, slots, limits)
  {
    var run := WholeRun(slots, world, limits);
    var m := AsRecord(run.records);
    forall k: nat | k < |slots| && slots[k] in m ensures m[slots[k]] == ProjectedAt(m, slots, k, limits) {
      assert Admitted(m, slots, k, world, limits);
      CheckedIsIdempotent(world.answer(slots[k]).outcome, limits, UsedCalls(m, slots[..k]), UsedTokens(m, slots[..k]));
    }
  }

  /** The call for slot `j` was made, and raised. */
  ghost predicate CallRaised(m: Record, slots: seq<Slot>, j: nat, world: World, limits: Limits)
    requires j < |slots|
  {
    && Clear(m, slots, j, world, limits)
    && !world.late(slots[j])
    && Reserves(limits, UsedCalls(m, slots[..j]), UsedTokens(m, slots[..j]))
    && world.answer(slots[j]).Raised?
  }

  ghost predicate FailuresExact(run: Run, slots: seq<Slot>, k: nat, world: World, limits: Limits)
    requires k <= |slots|
  {
    && (forall s :: s in run.failures ==> s in slots[..k])
    && forall j: nat :: j < k ==> (slots[j] in run.failures <==> CallRaised(AsRecord(run.records), slots, j, world, limits))
  }

  lemma {:induction false} RecordedKeepsRaised(m: Record, o: Outcome, slots: seq<Slot>, k: nat, j: nat, world: World, limits: Limits)
    requires NoDuplicates(slots) && j <= k < |slots|
    ensures CallRaised(m[slots[k] := o], slots, j, world, limits) <==> CallRaised(m, slots, j, world, limits)
  {
    ClearUntouched(m, o, slots, k, j, world, limits);
    EarlierUntouched(m, o, slots, k, j, world, limits);
  }

  /** No call was made, or it raised: the record is as it was. */
  lemma {:induction false} UnrecordedFails(run: Run, after: Run, slots: seq<Slot>, k: nat, world: World, limits: Limits)
    requires NoDuplicates(slots) && k < |slots| && FailuresExact(run, slots, k, world, limits)
    requires after.records == run.records
    requires after.failures == if CallRaised(AsRecord(run.records), slots, k, world, limits) then run.failures + [slots[k]] else run.failures
    ensures FailuresExact(after, slots, k + 1, world, limits)
  {
    assert slots[..k + 1] == slots[..k] + [slots[k]];
    NotAmong(slots, k);
    forall j: nat | j < k + 1
      ensures slots[j] in after.failures <==> CallRaised(AsRecord(run.records), slots, j, world, limits)
    {
      assert j < k ==> slots[j] != slots[k];
    }
  }

  lemma {:induction false} RecordedFails(run: Run, after: Run, o: Outcome, slots: seq<Slot>, k: nat, world: World, limits: Limits)
    requires NoDuplicates(slots) && k < |slots| && FailuresExact(run, slots, k, world, limits)
    requires AsRecord(after.records) == AsRecord(run.records)[slots[k] := o] && after.failures == run.failures
    requires !world.answer(slots[k]).Raised?
    ensures FailuresExact(after, slots, k + 1, world, limits)
  {
    assert slots[..k + 1] == slots[..k] + [slots[k]];
    NotAmong(slots, k);
    forall j: nat | j < k + 1
      ensures slots[j] in after.failures <==> CallRaised(AsRecord(after.records), slots, j, world, limits)
    {
      RecordedKeepsRaised(AsRecord(run.records), o, slots, k, j, world, limits);
    }
  }

  lemma {:induction false} VisitFails(run: Run, slots: seq<Slot>, k: nat, world: World, limits: Limits)
    requires NoDuplicates(slots) && k < |slots| && Faithful(run, slots, k, world, limits)
    requires Reaches(AsRecord(run.records), run.stopped, slots, k, world, limits) && FailuresExact(run, slots, k, world, limits)
    ensures FailuresExact(Visit(run, slots[k], world, limits), slots, k + 1, world, limits)
  {
    var after := Visit(run, slots[k], world, limits);
    if run.stopped || Obstacle(AsRecord(run.records), slots, k, world, limits) {
      UnrecordedFails(run, after, slots, k, world, limits);
    } else {
      var o := Checked(world.answer(slots[k]).outcome, limits, run.calls, run.tokens);
      assert after.records[..|run.records|] == run.records;
      RecordedFails(run, after, o, slots, k, world, limits);
    }
  }

  lemma {:induction false} NotAmong(slots: seq<Slot>, k: nat)
    requires NoDuplicates(slots) && k < |slots|
    ensures slots[k] !in slots[..k]
  {
  }

  lemma {:induction false} RunFails(slots: seq<Slot>, k: nat, world: World, limits: Limits)
    requires NoDuplicates(slots) && k <= |slots|
    ensures FailuresExact(VisitAll(Start, slots[..k], world, limits), slots, k, world, limits)
  {
    if k > 0 {
      RunFails(slots, k - 1, world, limits);
      RunReaches(slots, k - 1, world, limits);
      RunIsFaithful(slots, k - 1, world, limits);
      assert slots[..k][..k - 1] == slots[..k - 1];
      VisitFails(VisitAll(Start, slots[..k - 1], world, limits), slots, k - 1, world, limits);
    }
  }

  /** A run goes on until something stops it, and nothing else does: a page is recorded if and only
      if neither it nor an earlier one met the deadline, the reservation or an error, and no
      earlier one was over its page limits or uncertain; the run has stopped if and only if some
      page did; and a page is listed as failed if and only if its call was made and raised. */
  lemma {:induction false} RunStopsExactly(slots: seq<Slot>, world: World, limits: Limits, j: nat)
    requires NoDuplicates(slots) && j < |slots|
    ensures
      var run := VisitAll(Start, slots, world, limits);
      var m := AsRecord(run.records);
      && (slots[j] !in m <==>
            || (exists i: nat :: i <= j && Obstacle(m, slots, i, world, limits))
            || (exists i: nat :: i < j && Spoiled(m, slots[i], limits)))
      && (run.stopped <==>
            exists i: nat :: i < |slots| && (Obstacle(m, slots, i, world, limits) || Spoiled(m, slots[i], limits)))
      && (slots[j] in run.failures <==> CallRaised(m, slots, j, world, limits))
  {
    RunFails(slots, |slots|, world, limits);
    RunReaches(slots, |slots|, world, limits);
    assert slots[..|slots|] == slots;
  }

  /** A run records the provider's own answers, each called in time under a fitting reservation
      and checked at the usage of the pages recorded before it; a page whose callback raised is
      not among them, and a run that did not stop recorded every page. */
  lemma {:induction false} RecordsAreAnswers(slots: seq<Slot>, world: World, limits: Limits, j: nat)
    requires NoDuplicates(slots) && j < |slots|
    ensures Admitted(AsRecord(VisitAll(Start, slots, world, limits).records), slots, j, world, limits)
    ensures
      var run := VisitAll(Start, slots, world, limits);
      && |run.failures| <= 1 && (run.failures == [slots[j]] ==> slots[j] !in AsRecord(run.records))
      && (!run.stopped ==> slots[j] in AsRecord(run.records))
  {
    var run := WholeRun(slots, world, limits);
    AnswersOf(run, slots, j, world, limits);
  }

  lemma {:induction false} AnswersOf(run: Run, slots: seq<Slot>, j: nat, world: World, limits: Limits)
    requires Faithful(run, slots, |slots|, world, limits) && j < |slots|
    ensures Admitted(AsRecord(run.records), slots, j, world, limits)
    ensures |run.failures| <= 1 && (run.failures == [slots[j]] ==> slots[j] !in AsRecord(run.records))
    ensures !run.stopped ==> slots[j] in AsRecord(run.records)
  {
    assert slots[j] in slots[..|slots|];
  }

  /** A recorded page failed the budget gate exactly when its provider broke the page limits;
      after such a page, or one of uncertain usage, no call is issued: none is recorded and none
      raised. */
  lemma {:induction false} OverBudgetOnlyByBrokenLimits(slots: seq<Slot>, world: World, limits: Limits, j: nat)
    requires NoDuplicates(slots) && j < |slots|
    requires slots[j] in AsRecord(VisitAll(Start, slots, world, limits).records)
    ensures
      var run := VisitAll(Start, slots, world, limits);
      var m := AsRecord(run.records);
      && (Exceeds(m[slots[j]].attempts, limits, UsedCalls(m, slots[..j]), UsedTokens(m, slots[..j]))
          <==> !WithinPageLimits(m[slots[j]].attempts, limits))
      && (Final(m, slots, j, limits) ==>
            run.stopped && run.failures == [] && forall i :: j < i < |slots| ==> slots[i] !in m)
  {
    var run := WholeRun(slots, world, limits);
    var m := AsRecord(run.records);
    assert Admitted(m, slots, j, world, limits);
    ReservationCovers(m[slots[j]].attempts, limits, UsedCalls(m, slots[..j]), UsedTokens(m, slots[..j]));
  }

  ghost predicate Honest(m: Record, limits: Limits) {
    forall s :: s in m ==> WithinPageLimits(m[s].attempts, limits)
  }

  /** While providers keep their page limits the whole run stays within its budget. */
  lemma {:induction false} HonestRunFitsBudget(slots: seq<Slot>, k: nat, world: World, limits: Limits)
    requires NoDuplicates(slots) && k <= |slots|
    requires Honest(AsRecord(VisitAll(Start, slots[..k], world, limits).records), limits)
    ensures
      var run := VisitAll(Start, slots[..k], world, limits);
      run.calls <= limits.maxCalls && run.tokens <= limits.maxTokens
  {
    RunIsFaithful(slots, k, world, limits);
    var run := VisitAll(Start, slots[..k], world, limits);
    var m := AsRecord(run.records);
    UsageFits(m, slots, k, world, limits);
  }

  lemma {:induction false} UsageFits(m: Record, slots: seq<Slot>, k: nat, world: World, limits: Limits)
    requires k <= |slots| && Honest(m, limits)
    requires forall j: nat :: j < k ==> Admitted(m, slots, j, world, limits)
    ensures UsedCalls(m, slots[..k]) <= limits.maxCalls && UsedTokens(m, slots[..k]) <= limits.maxTokens
  {
    if k > 0 {
      UsageFits(m, slots, k - 1, world, limits);
      UsedThrough(m, slots, k - 1);
      if slots[k - 1] in m {
        assert Admitted(m, slots, k - 1, world, limits);
        var attempts := m[slots[k - 1]].attempts;
        ReservationCovers(attempts, limits, UsedCalls(m, slots[..k - 1]), UsedTokens(m, slots[..k - 1]));
      }
    }
  }

  // ------------------------------------------------------------------- the nested loops

  lemma {:induction false} VisitJoin(run: Run, a: seq<Slot>, b: seq<Slot>, world: World, limits: Limits)
    ensures VisitAll(run, a + b, world, limits) == VisitAll(VisitAll(run, a, world, limits), b, world, limits)
  {
    if b == [] {
      assert a + b == a;
    } else {
      var n := |b| - 1;
      assert (a + b)[..|a| + n] == a + b[..n];
      VisitJoin(run, a, b[..n], world, limits);
    }
  }

  lemma {:induction false} StoppedStays(run: Run, slots: seq<Slot>, world: World, limits: Limits)
    requires run.stopped
    ensures VisitAll(run, slots, world, limits) == run
  {
    if slots != [] {
      StoppedStays(run, slots[..|slots| - 1], world, limits);
    }
  }

  function PageSlots(repetition: nat, input: nat, pages: seq<nat>): seq<Slot> {
    seq(|pages|, i requires 0 <= i < |pages| => Slot(repetition, input, pages[i]))
  }

  function InputSlots(repetition: nat, inputs: seq<seq<nat>>): seq<Slot> {
    if inputs == [] then []
    else InputSlots(repetition, inputs[..|inputs| - 1]) + PageSlots(repetition, |inputs| - 1, inputs[|inputs| - 1])
  }

  /** The whole schedule: repeats numbered from one, inputs and pages in manifest order. */
  function Schedule(repeats: nat, inputs: seq<seq<nat>>): seq<Slot> {
    if repeats == 0 then [] else Schedule(repeats - 1, inputs) + InputSlots(repeats, inputs)
  }

  /** The body of the page loop. */
  method VisitPage(run: Run, s: Slot, world: World, limits: Limits) returns (r: Run)
    ensures r == Visit(run, s, world, limits)
  {
    r := run;
    if r.stopped || world.late(s) || !Reserves(limits, r.calls, r.tokens) {
      r := r.(stopped := true);
      return;
    }
    match world.answer(s)
    case Raised(_) =>
      r := r.(failures := r.failures + [s]);
      r := r.(stopped := true);
    case Returned(o) =>
      var exceeded := Exceeds(o.attempts, limits, r.calls, r.tokens);
      r := r.(records := r.records + [Entry(s, Checked(o, limits, r.calls, r.tokens))]);
      r := r.(calls := r.calls + |o.attempts|, tokens := r.tokens + KnownTokens(o.attempts));
      r := r.(stopped := exceeded || Uncertain(o.attempts));
  }

  /** Leaving a loop once stopped and going on to the end come to the same. */
  lemma {:induction false} LeftEarly(run: Run, slots: seq<Slot>, i: nat, r: Run, world: World, limits: Limits)
    requires i <= |slots| && r == VisitAll(run, slots[..i], world, limits) && (i == |slots| || r.stopped)
    ensures r == VisitAll(run, slots, world, limits)
  {
    assert slots == slots[..i] + slots[i..];
    VisitJoin(run, slots[..i], slots[i..], world, limits);
    if r.stopped {
      StoppedStays(r, slots[i..], world, limits);
    } else {
      assert slots[i..] == [];
    }
  }

  method RunPages(run: Run, repetition: nat, input: nat, pages: seq<nat>, world: World, limits: Limits) returns (r: Run)
    ensures r == VisitAll(run, PageSlots(repetition, input, pages), world, limits)
  {
    r := run;
    ghost var slots := PageSlots(repetition, input, pages);
    var i := 0;
    while i < |pages| && !r.stopped
      invariant i <= |pages| && r == VisitAll(run, slots[..i], world, limits)
    {
      assert slots[..i + 1][..i] == slots[..i];
      r := VisitPage(r, Slot(repetition, input, pages[i]), world, limits);
      i := i + 1;
    }
    LeftEarly(run, slots, i, r, world, limits);
  }

  method RunInputs(run: Run, repetition: nat, inputs: seq<seq<nat>>, world: World, limits: Limits) returns (r: Run)
    ensures r == VisitAll(run, InputSlots(repetition, inputs), world, limits)
  {
    r := run;
    for i := 0 to |inputs|
      invariant r == VisitAll(run, InputSlots(repetition, inputs[..i]), world, limits)
    {
      assert inputs[..i + 1][..i] == inputs[..i];
      VisitJoin(run, InputSlots(repetition, inputs[..i]), PageSlots(repetition, i, inputs[i]), world, limits);
      r := RunPages(r, repetition, i, inputs[i], world, limits);
    }
    assert inputs[..|inputs|] == inputs;
  }

  /** `run_evaluation`: what it returns is the run over the whole schedule. */
  method RunEvaluation(repeats: nat, inputs: seq<seq<nat>>, world: World, limits: Limits) returns (r: Run)
    ensures r == VisitAll(Start, Schedule(repeats, inputs), world, limits)
  {
    r := Start;
    for n := 0 to repeats
      invariant r == VisitAll(Start, Schedule(n, inputs), world, limits)
    {
      VisitJoin(Start, Schedule(n, inputs), InputSlots(n + 1, inputs), world, limits);
      r := RunInputs(r, n + 1, inputs, world, limits);
    }
  }

  // -------------------------------------------------- the schedule names each page once

  ghost predicate Within(slots: seq<Slot>, repetitions: nat, inputs: nat) {
    forall i :: 0 <= i < |slots| ==> slots[i].repetition <= repetitions && slots[i].input < inputs
  }

  lemma {:induction false} JoinDistinct(a: seq<Slot>, b: seq<Slot>)
    requires NoDuplicates(a) && NoDuplicates(b)
    requires forall i, j :: 0 <= i < |a| && 0 <= j < |b| ==> a[i] != b[j]
    ensures NoDuplicates(a + b)
  {
  }

  lemma {:induction false} InputSlotsDistinct(repetition: nat, inputs: seq<seq<nat>>)
    requires forall i :: 0 <= i < |inputs| ==> NoDuplicates(inputs[i])
    ensures NoDuplicates(InputSlots(repetition, inputs)) && Within(InputSlots(repetition, inputs), repetition, |inputs|)
    ensures forall i :: 0 <= i < |InputSlots(repetition, inputs)| ==> InputSlots(repetition, inputs)[i].repetition == repetition
  {
    if inputs != [] {
      var n := |inputs| - 1;
      InputSlotsDistinct(repetition, inputs[..n]);
      JoinDistinct(InputSlots(repetition, inputs[..n]), PageSlots(repetition, n, inputs[n]));
    }
  }

  lemma {:induction false} ScheduleIsDistinct(repeats: nat, inputs: seq<seq<nat>>)
    requires forall i :: 0 <= i < |inputs| ==> NoDuplicates(inputs[i])
    ensures NoDuplicates(Schedule(repeats, inputs)) && Within(Schedule(repeats, inputs), repeats, |inputs|)
  {
    if repeats > 0 {
      ScheduleIsDistinct(repeats - 1, inputs);
      InputSlotsDistinct(repeats, inputs);
      JoinDistinct(Schedule(repeats - 1, inputs), InputSlots(repeats, inputs));
    }
  }

  /** For every manifest, provider and clock: re-scoring a captured run gives that run back. */
  lemma {:induction false} EveryRunReplays(repeats: nat, inputs: seq<seq<nat>>, world: World, limits: Limits)
    requires forall i :: 0 <= i < |inputs| ==> NoDuplicates(inputs[i])
    ensures
      var slots := Schedule(repeats, inputs);
      var m := AsRecord(VisitAll(Start, slots, world, limits).records);
      IsProjection(m, m, slots, limits)
  {
    ScheduleIsDistinct(repeats, inputs);
    ReplayAgreesWithRun(Schedule(repeats, inputs), world, limits);
  }
}
