/**
 The reconciler's passes over many jobs
 (`application/outbox.py`, `application/review_jobs.py`).

 A pass works through candidates a scan returned earlier. Before each of its own writes other
 processes may have written anything; `Others` is what they wrote.
 */
module JobPasses {
  import opened Common
  import opened JobState
  import opened JobStore
  import JobLifecycle

  type Board = map<nat, Job>

  datatype Other = Other(job: nat, write: Write)

  /** What every stored job satisfies for a write to be defined on it. */
  predicate Sound(job: Job) {
    job.currentRun in job.runs && job.attemptCount >= 0 && job.leaseTakeoverCount >= 0
  }

  ghost predicate AllSound(b: Board) {
    forall id :: id in b ==> Sound(b[id])
  }

  lemma {:induction false} WritesKeepSound(job: Job, w: Write, after: Job, policy: Policy)
    requires Sound(job) && Apply(job, w, policy) == Ok(after)
    ensures Sound(after)
  {
  }

  function WriteTo(b: Board, id: nat, w: Write, policy: Policy): Result<Board, StoreError>
    requires id in b ==> Sound(b[id])
  {
    if id !in b then Err(Lost)
    else
      var r := Apply(b[id], w, policy);
      if r.Err? then Err(r.error) else Ok(b[id := r.value])
  }

  function Interfere(b: Board, others: seq<Other>, policy: Policy): (r: Board)
    requires AllSound(b)
    ensures AllSound(r) && r.Keys == b.Keys
  {
    if others == [] then b
    else
      var before := Interfere(b, others[..|others| - 1], policy);
      var o := others[|others| - 1];
      var r := WriteTo(before, o.job, o.write, policy);
      if r.Err? then before
      else
        WritesKeepSound(before[o.job], o.write, r.value[o.job], policy);
        r.value
  }

  // --------------------------------------------------------------------- dispatch pass

  datatype Candidate = Candidate(job: nat, round: nat)

  /** The queue takes the message, refuses it for now, or fails in a way nobody catches. */
  datatype Send = Accepted | Refused | Broken

  /** How the send went, and what others wrote meanwhile. */
  datatype Turn = Turn(send: Send, others: seq<Other>, now: int, availableAt: int)

  datatype Tally = Tally(sent: nat, deferred: nat, superseded: nat, abandoned: nat)

  function Total(t: Tally): nat {
    t.sent + t.deferred + t.superseded + t.abandoned
  }

  /** A pass that ended early left the remaining candidates alone. */
  datatype Pass = Pass(board: Board, tally: Tally, aborted: bool)

  predicate IsPending(b: Board, c: Candidate) {
    c.job in b && c.round < |b[c.job].rounds| && b[c.job].rounds[c.round].state == Pending
  }

  /** `confirm_dispatch` after the send; a lost condition is counted and the pass goes on. */
  function Confirm(b: Board, tally: Tally, c: Candidate, now: int, policy: Policy): (q: Pass)
    requires AllSound(b)
    ensures AllSound(q.board)
  {
    var r := WriteTo(b, c.job, MarkDispatched(c.round, now), policy);
    if r.Ok? then
      WritesKeepSound(b[c.job], MarkDispatched(c.round, now), r.value[c.job], policy);
      Pass(r.value, tally.(sent := tally.sent + 1), false)
    else if r.error == Lost then Pass(b, tally.(superseded := tally.superseded + 1), false)
    else Pass(b, tally, true)
  }

  /** `defer_dispatch` after a refused send; nobody catches its lost condition. */
  function Defer(b: Board, tally: Tally, c: Candidate, availableAt: int, policy: Policy): (q: Pass)
    requires AllSound(b)
    ensures AllSound(q.board)
  {
    var r := WriteTo(b, c.job, Reschedule(c.round, availableAt), policy);
    if r.Err? then Pass(b, tally, true)
    else
      WritesKeepSound(b[c.job], Reschedule(c.round, availableAt), r.value[c.job], policy);
      if Terminal(b[c.job].status) then Pass(r.value, tally.(abandoned := tally.abandoned + 1), false)
      else Pass(r.value, tally.(deferred := tally.deferred + 1), false)
  }

  /** One candidate. */
  function Handle(p: Pass, c: Candidate, turn: Turn, policy: Policy): (q: Pass)
    requires AllSound(p.board)
    ensures AllSound(q.board)
  {
    if p.aborted then p
    else
      var b := Interfere(p.board, turn.others, policy);
      match turn.send
      case Broken => Pass(b, p.tally, true)
      case Accepted => Confirm(b, p.tally, c, turn.now, policy)
      case Refused => Defer(b, p.tally, c, turn.availableAt, policy)
  }

  function HandleAll(b: Board, candidates: seq<Candidate>, turns: seq<Turn>, policy: Policy): (p: Pass)
    requires AllSound(b) && |turns| == |candidates|
    ensures AllSound(p.board)
  {
    if candidates == [] then Pass(b, Tally(0, 0, 0, 0), false)
    else
      var n := |candidates| - 1;
      Handle(HandleAll(b, candidates[..n], turns[..n], policy), candidates[n], turns[n], policy)
  }

  /** The board as candidate `k` finds it, others' writes included. */
  function FoundBy(b: Board, candidates: seq<Candidate>, turns: seq<Turn>, k: nat, policy: Policy): Board
    requires AllSound(b) && |turns| == |candidates| && k < |candidates|
  {
    Interfere(HandleAll(b, candidates[..k], turns[..k], policy).board, turns[k].others, policy)
  }

  /** Candidate `k`'s send broke, or was refused after someone else had settled its round. */
  ghost predicate Trips(b: Board, candidates: seq<Candidate>, turns: seq<Turn>, k: nat, policy: Policy)
    requires AllSound(b) && |turns| == |candidates| && k < |candidates|
  {
    || turns[k].send.Broken?
    || (turns[k].send.Refused? && !IsPending(FoundBy(b, candidates, turns, k, policy), candidates[k]))
  }

  /** Both outbox writes succeed exactly on a round that is still pending. */
  lemma {:induction false} OutboxWrites(b: Board, c: Candidate, now: int, at: int, policy: Policy)
    requires AllSound(b)
    ensures WriteTo(b, c.job, MarkDispatched(c.round, now), policy).Ok? <==> IsPending(b, c)
    ensures WriteTo(b, c.job, Reschedule(c.round, at), policy).Ok? <==> IsPending(b, c)
    ensures !IsPending(b, c) ==> WriteTo(b, c.job, MarkDispatched(c.round, now), policy) == Err(Lost)
  {
  }

  /** A pass ends early exactly when a send breaks or some round fails to send after being settled
      elsewhere; otherwise every candidate is counted once. One failing round can end the pass. */
  lemma {:induction false} PassEndsEarlyExactly(b: Board, candidates: seq<Candidate>, turns: seq<Turn>, policy: Policy)
    requires AllSound(b) && |turns| == |candidates|
    ensures
      var p := HandleAll(b, candidates, turns, policy);
      && (p.aborted <==> exists k: nat :: k < |candidates| && Trips(b, candidates, turns, k, policy))
      && (!p.aborted ==> Total(p.tally) == |candidates|)
      && Total(p.tally) <= |candidates|
  {
    if candidates != [] {
      var n := |candidates| - 1;
      PassEndsEarlyExactly(b, candidates[..n], turns[..n], policy);
      TripsEarlier(b, candidates, turns, policy);
      LastTripsExactly(b, candidates, turns, policy);
    }
  }

  lemma {:induction false} ConfirmCounts(b: Board, tally: Tally, c: Candidate, now: int, policy: Policy)
    requires AllSound(b)
    ensures var q := Confirm(b, tally, c, now, policy);
            !q.aborted && Total(q.tally) == Total(tally) + 1
  {
    OutboxWrites(b, c, now, now, policy);
  }

  lemma {:induction false} DeferCounts(b: Board, tally: Tally, c: Candidate, availableAt: int, policy: Policy)
    requires AllSound(b)
    ensures var q := Defer(b, tally, c, availableAt, policy);
            (q.aborted <==> !IsPending(b, c)) && Total(q.tally) == Total(tally) + (if q.aborted then 0 else 1)
  {
    OutboxWrites(b, c, 0, availableAt, policy);
  }

  lemma {:induction false} HandleEndsExactly(p: Pass, c: Candidate, turn: Turn, policy: Policy)
    requires AllSound(p.board) && !p.aborted
    ensures
      var q := Handle(p, c, turn, policy);
      && (q.aborted <==>
            turn.send.Broken? || (turn.send.Refused? && !IsPending(Interfere(p.board, turn.others, policy), c)))
      && Total(q.tally) == Total(p.tally) + (if q.aborted then 0 else 1)
  {
    var b := Interfere(p.board, turn.others, policy);
    ConfirmCounts(b, p.tally, c, turn.now, policy);
    DeferCounts(b, p.tally, c, turn.availableAt, policy);
  }

  lemma {:induction false} LastTripsExactly(b: Board, candidates: seq<Candidate>, turns: seq<Turn>, policy: Policy)
    requires AllSound(b) && |turns| == |candidates| > 0
    ensures
      var n := |candidates| - 1;
      var before, p := HandleAll(b, candidates[..n], turns[..n], policy), HandleAll(b, candidates, turns, policy);
      if before.aborted then p == before
      else
        && (p.aborted <==> Trips(b, candidates, turns, n, policy))
        && Total(p.tally) == Total(before.tally) + (if p.aborted then 0 else 1)
  {
    var n := |candidates| - 1;
    var before, p := HandleAll(b, candidates[..n], turns[..n], policy), HandleAll(b, candidates, turns, policy);
    assert p == Handle(before, candidates[n], turns[n], policy);
    if !before.aborted {
      HandleEndsExactly(before, candidates[n], turns[n], policy);
    }
  }

  lemma {:induction false} TripsEarlier(b: Board, candidates: seq<Candidate>, turns: seq<Turn>, policy: Policy)
    requires AllSound(b) && |turns| == |candidates| && candidates != []
    ensures
      var n := |candidates| - 1;
      forall k: nat :: k < n ==> (Trips(b, candidates, turns, k, policy) <==> Trips(b, candidates[..n], turns[..n], k, policy))
  {
    var n := |candidates| - 1;
    forall k: nat | k < n
      ensures Trips(b, candidates, turns, k, policy) <==> Trips(b, candidates[..n], turns[..n], k, policy)
    {
      assert candidates[..n][..k] == candidates[..k] && turns[..n][..k] == turns[..k];
    }
  }

  datatype Counter = SentCount | DeferredCount | SupersededCount | AbandonedCount

  function CountOf(t: Tally, counter: Counter): nat {
    match counter
    case SentCount => t.sent
    case DeferredCount => t.deferred
    case SupersededCount => t.superseded
    case AbandonedCount => t.abandoned
  }

  /** What becomes of a candidate a pass in progress gets to, by the state others leave it in: an accepted
      send is counted or superseded, a refused one deferred or abandoned; `None` if the pass is over. */
  ghost function FateOf(p: Pass, c: Candidate, turn: Turn, policy: Policy): Option<Counter>
    requires AllSound(p.board)
  {
    var found := Interfere(p.board, turn.others, policy);
    if p.aborted || turn.send.Broken? then None
    else if turn.send.Accepted? then Some(if IsPending(found, c) then SentCount else SupersededCount)
    else if !IsPending(found, c) then None
    else Some(if Terminal(found[c.job].status) then AbandonedCount else DeferredCount)
  }

  ghost function Fates(b: Board, candidates: seq<Candidate>, turns: seq<Turn>, policy: Policy): seq<Option<Counter>>
    requires AllSound(b) && |turns| == |candidates|
  {
    if candidates == [] then []
    else
      var n := |candidates| - 1;
      Fates(b, candidates[..n], turns[..n], policy)
      + [FateOf(HandleAll(b, candidates[..n], turns[..n], policy), candidates[n], turns[n], policy)]
  }

  lemma {:induction false} HandleCounts(p: Pass, c: Candidate, turn: Turn, counter: Counter, policy: Policy)
    requires AllSound(p.board)
    ensures CountOf(Handle(p, c, turn, policy).tally, counter)
         == CountOf(p.tally, counter) + (if FateOf(p, c, turn, policy) == Some(counter) then 1 else 0)
  {
    var found := Interfere(p.board, turn.others, policy);
    ConfirmTallies(found, p.tally, c, turn.now, counter, policy);
    DeferTallies(found, p.tally, c, turn.availableAt, counter, policy);
  }

  lemma {:induction false} ConfirmTallies(b: Board, tally: Tally, c: Candidate, now: int, counter: Counter, policy: Policy)
    requires AllSound(b)
    ensures CountOf(Confirm(b, tally, c, now, policy).tally, counter)
         == CountOf(tally, counter) + (if counter == (if IsPending(b, c) then SentCount else SupersededCount) then 1 else 0)
  {
    OutboxWrites(b, c, now, now, policy);
  }

  lemma {:induction false} DeferTallies(b: Board, tally: Tally, c: Candidate, at: int, counter: Counter, policy: Policy)
    requires AllSound(b)
    ensures CountOf(Defer(b, tally, c, at, policy).tally, counter)
         == CountOf(tally, counter)
            + (if IsPending(b, c) && counter == (if Terminal(b[c.job].status) then AbandonedCount else DeferredCount) then 1 else 0)
  {
    OutboxWrites(b, c, at, at, policy);
  }

  /** Each counter of a pass is the number of candidates that came to that end. */
  lemma {:induction false} TallyExactly(b: Board, candidates: seq<Candidate>, turns: seq<Turn>, counter: Counter, policy: Policy)
    requires AllSound(b) && |turns| == |candidates|
    ensures CountOf(HandleAll(b, candidates, turns, policy).tally, counter)
         == multiset(Fates(b, candidates, turns, policy))[Some(counter)]
  {
    if candidates != [] {
      var n := |candidates| - 1;
      var before, earlier := HandleAll(b, candidates[..n], turns[..n], policy), Fates(b, candidates[..n], turns[..n], policy);
      TallyExactly(b, candidates[..n], turns[..n], counter, policy);
      HandleCounts(before, candidates[n], turns[n], counter, policy);
      assert multiset(earlier + [FateOf(before, candidates[n], turns[n], policy)])
          == multiset(earlier) + multiset{FateOf(before, candidates[n], turns[n], policy)};
    }
  }

  // ----------------------------------------------------------------- a pass left alone

  ghost predicate Distinct(candidates: seq<Candidate>) {
    forall i, j :: 0 <= i < j < |candidates| ==> candidates[i] != candidates[j]
  }

  /** Nobody interferes, and the queue at most refuses. */
  ghost predicate Quiet(turns: seq<Turn>) {
    forall i :: 0 <= i < |turns| ==> turns[i].others == [] && !turns[i].send.Broken?
  }

  /** A round settled by the pass itself is no other candidate. */
  lemma {:induction false} OthersStayPending(p: Pass, c: Candidate, turn: Turn, d: Candidate, policy: Policy)
    requires AllSound(p.board) && turn.others == [] && c != d && IsPending(p.board, d)
    ensures IsPending(Handle(p, c, turn, policy).board, d)
  {
  }

  lemma {:induction false} QuietPassKeepsTheRest(b: Board, candidates: seq<Candidate>, turns: seq<Turn>, d: Candidate, policy: Policy)
    requires AllSound(b) && |turns| == |candidates| && Quiet(turns) && d !in candidates && IsPending(b, d)
    ensures IsPending(HandleAll(b, candidates, turns, policy).board, d)
  {
    if candidates != [] {
      var n := |candidates| - 1;
      QuietPassKeepsTheRest(b, candidates[..n], turns[..n], d, policy);
      OthersStayPending(HandleAll(b, candidates[..n], turns[..n], policy), candidates[n], turns[n], d, policy);
    }
  }

  /** Nobody interfering, every candidate of a scan is sent, deferred or abandoned. */
  lemma {:induction false} QuietPassCompletes(b: Board, candidates: seq<Candidate>, turns: seq<Turn>, policy: Policy)
    requires AllSound(b) && |turns| == |candidates| && Quiet(turns) && Distinct(candidates)
    requires forall i :: 0 <= i < |candidates| ==> IsPending(b, candidates[i])
    ensures
      var p := HandleAll(b, candidates, turns, policy);
      !p.aborted && p.tally.superseded == 0 && Total(p.tally) == |candidates|
  {
    if candidates != [] {
      var n := |candidates| - 1;
      QuietPassCompletes(b, candidates[..n], turns[..n], policy);
      QuietPassKeepsTheRest(b, candidates[..n], turns[..n], candidates[n], policy);
      var before := HandleAll(b, candidates[..n], turns[..n], policy);
      OutboxWrites(before.board, candidates[n], turns[n].now, turns[n].availableAt, policy);
    }
  }

  /** The witness: another dispatcher sends the first round, this one's send of it is refused,
      and a second job's round, never tried, is left for a later pass. */
  lemma {:induction false} OneRoundEndsThePass(b: Board, first: Candidate, second: Candidate, now: int, policy: Policy)
    requires AllSound(b) && IsPending(b, first) && IsPending(b, second) && first.job != second.job
    ensures
      var turns := [Turn(Refused, [Other(first.job, MarkDispatched(first.round, now))], now, now), Turn(Accepted, [], now, now)];
      var p := HandleAll(b, [first, second], turns, policy);
      p.aborted && Total(p.tally) == 0 && IsPending(p.board, second)
  {
    OthersMark(b, first, second, now, policy);
    var turn := Turn(Refused, [Other(first.job, MarkDispatched(first.round, now))], now, now);
    RefusedTooLate(Pass(b, Tally(0, 0, 0, 0), false), first, turn, second, policy);
    TwoTurns(b, first, second, turn, Turn(Accepted, [], now, now), policy);
  }

  lemma {:induction false} RefusedTooLate(p: Pass, c: Candidate, turn: Turn, d: Candidate, policy: Policy)
    requires AllSound(p.board) && !p.aborted && turn.send.Refused?
    requires
      var b := Interfere(p.board, turn.others, policy);
      !IsPending(b, c) && IsPending(b, d)
    ensures
      var q := Handle(p, c, turn, policy);
      q.aborted && q.tally == p.tally && IsPending(q.board, d)
  {
    OutboxWrites(Interfere(p.board, turn.others, policy), c, turn.now, turn.availableAt, policy);
  }

  lemma {:induction false} OthersMark(b: Board, first: Candidate, second: Candidate, now: int, policy: Policy)
    requires AllSound(b) && IsPending(b, first) && IsPending(b, second) && first.job != second.job
    ensures
      var marked := Interfere(b, [Other(first.job, MarkDispatched(first.round, now))], policy);
      !IsPending(marked, first) && IsPending(marked, second)
  {
    var others := [Other(first.job, MarkDispatched(first.round, now))];
    OutboxWrites(b, first, now, now, policy);
    assert others[..|others| - 1] == [];
    assert Interfere(b, [], policy) == b;
  }

  lemma {:induction false} TwoTurns(b: Board, c: Candidate, d: Candidate, t: Turn, u: Turn, policy: Policy)
    requires AllSound(b) && Handle(Pass(b, Tally(0, 0, 0, 0), false), c, t, policy).aborted
    ensures HandleAll(b, [c, d], [t, u], policy) == Handle(Pass(b, Tally(0, 0, 0, 0), false), c, t, policy)
  {
    assert [c, d][..1] == [c] && [t, u][..1] == [t];
    assert [c][..0] == [] && [t][..0] == [];
    assert HandleAll(b, [], [], policy) == Pass(b, Tally(0, 0, 0, 0), false);
    assert HandleAll(b, [c], [t], policy) == Handle(Pass(b, Tally(0, 0, 0, 0), false), c, t, policy);
  }

  /** What a turn leaves of its own round: sent, deferred to its new time, or abandoned. */
  ghost predicate Settled(b: Board, c: Candidate, turn: Turn) {
    && c.job in b && c.round < |b[c.job].rounds|
    && var round := b[c.job].rounds[c.round];
    && (turn.send.Accepted? ==> round.state == Sent)
    && (!turn.send.Accepted? ==> (round.state == Pending && round.availableAt == turn.availableAt) || round.state == Abandoned)
  }

  lemma {:induction false} HandleSettles(p: Pass, c: Candidate, turn: Turn, policy: Policy)
    requires AllSound(p.board) && !p.aborted && turn.others == [] && !turn.send.Broken? && IsPending(p.board, c)
    ensures Settled(Handle(p, c, turn, policy).board, c, turn)
  {
    OutboxWrites(p.board, c, turn.now, turn.availableAt, policy);
  }

  lemma {:induction false} StaysSettled(p: Pass, c: Candidate, turn: Turn, d: Candidate, t: Turn, policy: Policy)
    requires AllSound(p.board) && turn.others == [] && c != d && Settled(p.board, d, t)
    ensures Settled(Handle(p, c, turn, policy).board, d, t)
  {
  }

  lemma {:induction false} QuietPassSettles(b: Board, candidates: seq<Candidate>, turns: seq<Turn>, k: nat, policy: Policy)
    returns (p: Pass)
    requires AllSound(b) && |turns| == |candidates| && Quiet(turns) && Distinct(candidates) && k < |candidates|
    requires forall i :: 0 <= i < |candidates| ==> IsPending(b, candidates[i])
    ensures p == HandleAll(b, candidates, turns, policy) && Settled(p.board, candidates[k], turns[k])
  {
    var n := |candidates| - 1;
    if k < n {
      var before := QuietPassSettles(b, candidates[..n], turns[..n], k, policy);
      p := Handle(before, candidates[n], turns[n], policy);
      StaysSettled(before, candidates[n], turns[n], candidates[k], turns[k], policy);
    } else {
      QuietLastSettles(b, candidates, turns, policy);
      p := HandleAll(b, candidates, turns, policy);
    }
  }

  lemma {:induction false} QuietLastSettles(b: Board, candidates: seq<Candidate>, turns: seq<Turn>, policy: Policy)
    requires AllSound(b) && |turns| == |candidates| > 0 && Quiet(turns) && Distinct(candidates)
    requires forall i :: 0 <= i < |candidates| ==> IsPending(b, candidates[i])
    ensures
      var n := |candidates| - 1;
      Settled(HandleAll(b, candidates, turns, policy).board, candidates[n], turns[n])
  {
    var n := |candidates| - 1;
    var before := HandleAll(b, candidates[..n], turns[..n], policy);
    QuietPassCompletes(b, candidates[..n], turns[..n], policy);
    QuietPassKeepsTheRest(b, candidates[..n], turns[..n], candidates[n], policy);
    HandleSettles(before, candidates[n], turns[n], policy);
  }

  // ------------------------------------------------------------- reclaim and recovery

  datatype LeaseFound = LeaseFound(job: nat, run: RunId, token: nat)

  /** `reclaim_expired_leases` writes one expiry per lease found, and `recover_stranded_retryables`
      one retry per job found; a write that lost its condition is skipped. */
  function Reclaims(found: seq<LeaseFound>, now: int): seq<Other> {
    seq(|found|, i requires 0 <= i < |found| => Other(found[i].job, ExpireLease(found[i].run, found[i].token, now)))
  }

  function Recovers(ids: seq<nat>, availableAt: int, now: int): seq<Other> {
    seq(|ids|, i requires 0 <= i < |ids| => Other(ids[i], RetryLater(availableAt, now)))
  }

  /** How many of the writes succeeded. */
  function Landed(b: Board, others: seq<Other>, policy: Policy): (n: nat)
    requires AllSound(b)
    ensures n <= |others|
  {
    if others == [] then 0
    else
      var before := Interfere(b, others[..|others| - 1], policy);
      var o := others[|others| - 1];
      Landed(b, others[..|others| - 1], policy) + (if WriteTo(before, o.job, o.write, policy).Ok? then 1 else 0)
  }

  lemma {:induction false} ExpireOne(job: Job, run: RunId, token: nat, now: int, policy: Policy)
    requires Sound(job)
    ensures
      var r := Apply(job, ExpireLease(run, token, now), policy);
      && (r.Ok? ==> job.status == Running && r.value.status != Running)
      && (JobLifecycle.LeaseExpiredBy(job, run, now) && job.runs[run].token == token ==> r.Ok?)
  {
  }

  lemma {:induction false} RetryOne(job: Job, availableAt: int, now: int, policy: Policy)
    requires Sound(job)
    ensures
      var r := Apply(job, RetryLater(availableAt, now), policy);
      && (r.Ok? <==> job.status == RetryableFailed)
      && (r.Ok? ==> Requeued(r.value))
  {
  }

  /** Queued again, with a fresh round for its run. */
  predicate Requeued(job: Job) {
    job.status == Queued && JobLifecycle.FreshRound(job)
  }

  /** A job that an expiry moves is no longer running. */
  predicate Moved(was: Job, now: Job) {
    now == was || (was.status == Running && now.status != Running)
  }

  /** The job as the first `n` writes leave it. */
  function JobAfter(job: Job, id: nat, others: seq<Other>, policy: Policy): (r: Job)
    requires Sound(job)
    ensures Sound(r)
  {
    if others == [] then job
    else StepJob(JobAfter(job, id, others[..|others| - 1], policy), id, others[|others| - 1], policy)
  }

  function StepJob(job: Job, id: nat, o: Other, policy: Policy): (r: Job)
    requires Sound(job)
    ensures Sound(r)
  {
    if o.job != id then job
    else
      var r := Apply(job, o.write, policy);
      if r.Err? then job
      else
        WritesKeepSound(job, o.write, r.value, policy);
        r.value
  }

  lemma {:induction false} WriteReachesOneJob(b: Board, o: Other, id: nat, policy: Policy)
    requires AllSound(b) && id in b
    ensures
      var r := WriteTo(b, o.job, o.write, policy);
      StepJob(b[id], id, o, policy) == (if r.Ok? && id in r.value then r.value[id] else b[id]) && (r.Ok? ==> id in r.value)
  {
    if o.job != id {
      assert StepJob(b[id], id, o, policy) == b[id];
    }
  }

  lemma {:induction false} OneWriteOneJob(b: Board, others: seq<Other>, id: nat, policy: Policy)
    requires AllSound(b) && others != [] && id in b
    ensures
      var n := |others| - 1;
      var before, after := Interfere(b, others[..n], policy), Interfere(b, others, policy);
      id in after && after[id] == StepJob(before[id], id, others[n], policy)
  {
    var n := |others| - 1;
    WriteReachesOneJob(Interfere(b, others[..n], policy), others[n], id, policy);
  }

  lemma {:induction false} JobsAreIndependent(b: Board, others: seq<Other>, id: nat, policy: Policy)
    requires AllSound(b) && id in b
    ensures id in Interfere(b, others, policy) && Interfere(b, others, policy)[id] == JobAfter(b[id], id, others, policy)
  {
    if others != [] {
      JobsAreIndependent(b, others[..|others| - 1], id, policy);
      OneWriteOneJob(b, others, id, policy);
    }
  }

  lemma {:induction false} ExpiryStep(job: Job, before: Job, id: nat, o: Other, policy: Policy) returns (after: Job)
    requires Sound(job) && Sound(before) && Moved(job, before) && o.write.ExpireLease?
    ensures after == StepJob(before, id, o, policy) && Moved(job, after)
    ensures before.status != Running ==> after.status != Running
    ensures Overdue(job, id, o.write.now, o) ==> after.status != Running
  {
    after := StepJob(before, id, o, policy);
    ExpireOne(before, o.write.runId, o.write.token, o.write.now, policy);
  }

  /** An expired lease the scan found is gone after the pass, whatever else the list held. */
  lemma {:induction false} ReclaimLeavesNone(job: Job, id: nat, others: seq<Other>, policy: Policy) returns (after: Job)
    requires Sound(job) && forall i :: 0 <= i < |others| ==> others[i].write.ExpireLease?
    ensures after == JobAfter(job, id, others, policy) && Moved(job, after)
    ensures forall k :: 0 <= k < |others| && Overdue(job, id, others[k].write.now, others[k]) ==> after.status != Running
  {
    after := job;
    var n := 0;
    while n < |others|
      invariant n <= |others| && after == JobAfter(job, id, others[..n], policy) && Moved(job, after)
      invariant forall k :: 0 <= k < n && Overdue(job, id, others[k].write.now, others[k]) ==> after.status != Running
    {
      AfterNext(job, id, others, n, policy);
      after := ExpiryStep(job, after, id, others[n], policy);
      n := n + 1;
    }
    assert others[..n] == others;
  }

  lemma {:induction false} AfterNext(job: Job, id: nat, others: seq<Other>, n: nat, policy: Policy)
    requires Sound(job) && n < |others|
    ensures JobAfter(job, id, others[..n + 1], policy) == StepJob(JobAfter(job, id, others[..n], policy), id, others[n], policy)
  {
    assert others[..n + 1][..n] == others[..n];
  }

  /** The scan's entry for a job's own expired lease. */
  ghost predicate Overdue(job: Job, id: nat, now: int, o: Other)
    requires Sound(job)
  {
    && JobLifecycle.LeaseExpiredBy(job, job.currentRun, now)
    && o == Other(id, ExpireLease(job.currentRun, job.runs[job.currentRun].token, now))
  }

  lemma {:induction false} RetryStep(job: Job, id: nat, o: Other, policy: Policy) returns (after: Job)
    requires Sound(job) && o.write.RetryLater?
    ensures after == StepJob(job, id, o, policy)
    ensures if job.status == RetryableFailed && o.job == id then Requeued(after) else after == job
  {
    after := StepJob(job, id, o, policy);
    RetryOne(job, o.write.availableAt, o.write.now, policy);
  }

  /** Every stranded job the scan found is queued again; no other job is touched. */
  lemma {:induction false} RecoverLeavesNone(job: Job, id: nat, others: seq<Other>, policy: Policy) returns (after: Job, named: bool)
    requires Sound(job) && forall i :: 0 <= i < |others| ==> others[i].write.RetryLater?
    ensures after == JobAfter(job, id, others, policy)
    ensures named <==> exists i :: 0 <= i < |others| && others[i].job == id
    ensures if job.status == RetryableFailed && named then Requeued(after) else after == job
  {
    after, named := job, false;
    var n := 0;
    while n < |others|
      invariant n <= |others| && after == JobAfter(job, id, others[..n], policy)
      invariant named <==> exists i :: 0 <= i < n && others[i].job == id
      invariant if job.status == RetryableFailed && named then Requeued(after) else after == job
    {
      AfterNext(job, id, others, n, policy);
      after := RetryStep(after, id, others[n], policy);
      named := named || others[n].job == id;
      n := n + 1;
    }
    assert others[..n] == others;
  }

  lemma {:induction false} ReclaimPass(b: Board, found: seq<LeaseFound>, now: int, policy: Policy, id: nat) returns (reclaimed: Board)
    requires AllSound(b) && id in b
    ensures reclaimed == Interfere(b, Reclaims(found, now), policy) && AllSound(reclaimed) && id in reclaimed
    ensures forall k :: 0 <= k < |found| && Overdue(b[id], id, now, Reclaims(found, now)[k]) ==> reclaimed[id].status != Running
  {
    reclaimed := Interfere(b, Reclaims(found, now), policy);
    var job := ReclaimLeavesNone(b[id], id, Reclaims(found, now), policy);
    JobsAreIndependent(b, Reclaims(found, now), id, policy);
  }

  lemma {:induction false} RecoverPass(b: Board, ids: seq<nat>, now: int, availableAt: int, policy: Policy, id: nat) returns (recovered: Board)
    requires AllSound(b) && id in b
    ensures recovered == Interfere(b, Recovers(ids, availableAt, now), policy) && AllSound(recovered) && id in recovered
    ensures if b[id].status == RetryableFailed && id in ids then Requeued(recovered[id]) else recovered[id] == b[id]
  {
    recovered := Interfere(b, Recovers(ids, availableAt, now), policy);
    var job, named := RecoverLeavesNone(b[id], id, Recovers(ids, availableAt, now), policy);
    JobsAreIndependent(b, Recovers(ids, availableAt, now), id, policy);
    assert named <==> id in ids by {
      forall i | 0 <= i < |ids| ensures Recovers(ids, availableAt, now)[i].job == ids[i] {
      }
    }
  }

  lemma {:induction false} SettledAt(b: Board, candidates: seq<Candidate>, turns: seq<Turn>, p: Pass, k: nat, policy: Policy)
    requires AllSound(b) && |turns| == |candidates| && Quiet(turns) && Distinct(candidates) && k < |candidates|
    requires forall i :: 0 <= i < |candidates| ==> IsPending(b, candidates[i])
    requires p == HandleAll(b, candidates, turns, policy)
    ensures Settled(p.board, candidates[k], turns[k])
  {
    var q := QuietPassSettles(b, candidates, turns, k, policy);
  }

  lemma {:induction false} QuietPassSettlesAll(b: Board, candidates: seq<Candidate>, turns: seq<Turn>, p: Pass, policy: Policy)
    requires AllSound(b) && |turns| == |candidates| && Quiet(turns) && Distinct(candidates)
    requires forall i :: 0 <= i < |candidates| ==> IsPending(b, candidates[i])
    requires p == HandleAll(b, candidates, turns, policy)
    ensures forall k: nat :: k < |candidates| ==> Settled(p.board, candidates[k], turns[k])
  {
    forall k: nat | k < |candidates| ensures Settled(p.board, candidates[k], turns[k]) {
      SettledAt(b, candidates, turns, p, k, policy);
    }
  }

  /** A reconcile pass left alone repairs what its scans found: no such lease stays expired, no
      such retry stays stranded, no due round stays unhandled. */
  lemma {:induction false} ReconcileRepairs(
    b: Board, found: seq<LeaseFound>, ids: seq<nat>, candidates: seq<Candidate>, turns: seq<Turn>, now: int, availableAt: int, policy: Policy, id: nat)
    returns (reclaimed: Board, recovered: Board, p: Pass)
    requires AllSound(b) && |turns| == |candidates| && Quiet(turns) && Distinct(candidates) && id in b
    requires forall i :: 0 <= i < |candidates| ==>
      IsPending(Interfere(Interfere(b, Reclaims(found, now), policy), Recovers(ids, availableAt, now), policy), candidates[i])
    ensures reclaimed == Interfere(b, Reclaims(found, now), policy) && AllSound(reclaimed) && id in reclaimed
    ensures recovered == Interfere(reclaimed, Recovers(ids, availableAt, now), policy) && AllSound(recovered) && id in recovered
    ensures p == HandleAll(recovered, candidates, turns, policy)
    ensures !p.aborted && Total(p.tally) == |candidates|
    ensures forall k :: 0 <= k < |found| && Overdue(b[id], id, now, Reclaims(found, now)[k]) ==> recovered[id].status != Running
    ensures reclaimed[id].status == RetryableFailed && id in ids ==> Requeued(recovered[id])
    ensures forall k: nat :: k < |candidates| ==> Settled(p.board, candidates[k], turns[k])
  {
    reclaimed := ReclaimPass(b, found, now, policy, id);
    recovered := RecoverPass(reclaimed, ids, now, availableAt, policy, id);
    p := HandleAll(recovered, candidates, turns, policy);
    QuietPassCompletes(recovered, candidates, turns, policy);
    QuietPassSettlesAll(recovered, candidates, turns, p, policy);
  }

  // ---------------------------------------------------------------- a pass among others

  /** Whatever was written before it, by this pass or by anyone, each write of a scan's pass leaves
      its job out of what the scan looks for: that lease is not expired, the job not stranded. */
  lemma {:induction false} RepairedAtItsTurn(b: Board, writes: seq<Other>, k: nat, policy: Policy)
    requires AllSound(b) && k < |writes| && writes[k].job in b
    ensures
      var o := writes[k];
      var after := Interfere(b, writes[..k + 1], policy);
      && o.job in after
      && (o.write.ExpireLease? ==>
            !(JobLifecycle.LeaseExpiredBy(after[o.job], o.write.runId, o.write.now)
              && after[o.job].runs[o.write.runId].token == o.write.token))
      && (o.write.RetryLater? ==> after[o.job].status != RetryableFailed)
  {
    WriteNext(b, writes, k, policy);
    var o, before := writes[k], Interfere(b, writes[..k], policy);
    if o.write.ExpireLease? {
      ExpireOne(before[o.job], o.write.runId, o.write.token, o.write.now, policy);
    } else if o.write.RetryLater? {
      RetryOne(before[o.job], o.write.availableAt, o.write.now, policy);
    }
  }

  lemma {:induction false} ConfirmSettles(b: Board, tally: Tally, c: Candidate, now: int, policy: Policy)
    requires AllSound(b)
    ensures !IsPending(Confirm(b, tally, c, now, policy).board, c)
  {
    OutboxWrites(b, c, now, now, policy);
  }

  lemma {:induction false} DeferSettles(b: Board, tally: Tally, c: Candidate, turn: Turn, policy: Policy)
    requires AllSound(b) && !Defer(b, tally, c, turn.availableAt, policy).aborted && turn.send.Refused?
    ensures Settled(Defer(b, tally, c, turn.availableAt, policy).board, c, turn)
  {
  }

  /** And each round a dispatch pass gets past is sent, settled by others, or moved to its new time. */
  lemma {:induction false} HandledAtItsTurn(b: Board, candidates: seq<Candidate>, turns: seq<Turn>, k: nat, policy: Policy)
    returns (p: Pass)
    requires AllSound(b) && |turns| == |candidates| && k < |candidates|
    ensures p == HandleAll(b, candidates[..k + 1], turns[..k + 1], policy)
    ensures !p.aborted ==>
              if turns[k].send.Accepted? then !IsPending(p.board, candidates[k]) else Settled(p.board, candidates[k], turns[k])
  {
    var before := HandleAll(b, candidates[..k], turns[..k], policy);
    HandleNext(b, candidates, turns, k, policy);
    p := HandledOnce(before, candidates[k], turns[k], policy);
  }

  lemma {:induction false} HandledOnce(before: Pass, c: Candidate, turn: Turn, policy: Policy) returns (p: Pass)
    requires AllSound(before.board)
    ensures p == Handle(before, c, turn, policy)
    ensures !p.aborted ==> if turn.send.Accepted? then !IsPending(p.board, c) else Settled(p.board, c, turn)
  {
    p := Handle(before, c, turn, policy);
    if !p.aborted {
      var b := Interfere(before.board, turn.others, policy);
      if turn.send.Accepted? {
        ConfirmSettles(b, before.tally, c, turn.now, policy);
      } else {
        DeferSettles(b, before.tally, c, turn, policy);
      }
    }
  }

  // --------------------------------------------------------------------- the passes run

  class Reconciler {
    const policy: Policy
    var board: Board

    constructor (policy: Policy, board: Board)
      ensures this.policy == policy && this.board == board
    {
      this.policy := policy;
      this.board := board;
    }

    method ConfirmOne(c: Candidate, now: int, tally: Tally) returns (after: Tally, aborted: bool)
      requires AllSound(board)
      modifies this
      ensures AllSound(board) && Pass(board, after, aborted) == Confirm(old(board), tally, c, now, policy)
    {
      var r := WriteTo(board, c.job, MarkDispatched(c.round, now), policy);
      if r.Ok? {
        board := r.value;
        return tally.(sent := tally.sent + 1), false;
      }
      if r.error == Lost {
        return tally.(superseded := tally.superseded + 1), false;
      }
      return tally, true;
    }

    method DeferOne(c: Candidate, availableAt: int, tally: Tally) returns (after: Tally, aborted: bool)
      requires AllSound(board)
      modifies this
      ensures AllSound(board) && Pass(board, after, aborted) == Defer(old(board), tally, c, availableAt, policy)
    {
      var r := WriteTo(board, c.job, Reschedule(c.round, availableAt), policy);
      if r.Err? {
        return tally, true;
      }
      var finished := Terminal(board[c.job].status);
      board := r.value;
      after := if finished then tally.(abandoned := tally.abandoned + 1) else tally.(deferred := tally.deferred + 1);
      aborted := false;
    }

    method DispatchOne(c: Candidate, turn: Turn, tally: Tally) returns (after: Tally, aborted: bool)
      requires AllSound(board)
      modifies this
      ensures AllSound(board)
      ensures Pass(board, after, aborted) == Handle(Pass(old(board), tally, false), c, turn, policy)
    {
      board := Interfere(board, turn.others, policy);
      match turn.send
      case Broken => after, aborted := tally, true;
      case Accepted => after, aborted := ConfirmOne(c, turn.now, tally);
      case Refused => after, aborted := DeferOne(c, turn.availableAt, tally);
    }

    /** `OutboxDispatcher.run_once`. */
    method Dispatch(candidates: seq<Candidate>, turns: seq<Turn>) returns (tally: Tally, aborted: bool)
      requires AllSound(board) && |turns| == |candidates|
      modifies this
      ensures Pass(board, tally, aborted) == HandleAll(old(board), candidates, turns, policy)
    {
      tally, aborted := Tally(0, 0, 0, 0), false;
      var i := 0;
      while i < |candidates| && !aborted
        invariant i <= |candidates| && AllSound(board)
        invariant Pass(board, tally, aborted) == HandleAll(old(board), candidates[..i], turns[..i], policy)
      {
        HandleNext(old(board), candidates, turns, i, policy);
        tally, aborted := DispatchOne(candidates[i], turns[i], tally);
        i := i + 1;
      }
      StaysAborted(old(board), candidates, turns, i, policy);
    }

    method TryWrite(o: Other) returns (landed: bool)
      requires AllSound(board)
      modifies this
      ensures
        var r := WriteTo(old(board), o.job, o.write, policy);
        landed == r.Ok? && board == (if r.Ok? then r.value else old(board))
    {
      var r := WriteTo(board, o.job, o.write, policy);
      landed := r.Ok?;
      if landed {
        board := r.value;
      }
    }

    /** The loop of both scans' passes: a write that lost its condition is skipped. */
    method WriteEach(others: seq<Other>) returns (count: nat)
      requires AllSound(board)
      modifies this
      ensures board == Interfere(old(board), others, policy) && count == Landed(old(board), others, policy)
    {
      count := 0;
      for i := 0 to |others|
        invariant board == Interfere(old(board), others[..i], policy) && count == Landed(old(board), others[..i], policy)
      {
        WriteNext(old(board), others, i, policy);
        var landed := TryWrite(others[i]);
        if landed {
          count := count + 1;
        }
      }
      assert others[..|others|] == others;
    }
  }

  lemma {:induction false} WriteNext(b: Board, others: seq<Other>, i: nat, policy: Policy)
    requires AllSound(b) && i < |others|
    ensures
      var before := Interfere(b, others[..i], policy);
      var r := WriteTo(before, others[i].job, others[i].write, policy);
      && Interfere(b, others[..i + 1], policy) == (if r.Ok? then r.value else before)
      && Landed(b, others[..i + 1], policy) == Landed(b, others[..i], policy) + (if r.Ok? then 1 else 0)
  {
    assert others[..i + 1][..i] == others[..i];
  }

  lemma {:induction false} HandleNext(b: Board, candidates: seq<Candidate>, turns: seq<Turn>, i: nat, policy: Policy)
    requires AllSound(b) && |turns| == |candidates| && i < |candidates|
    ensures HandleAll(b, candidates[..i + 1], turns[..i + 1], policy)
         == Handle(HandleAll(b, candidates[..i], turns[..i], policy), candidates[i], turns[i], policy)
  {
    assert candidates[..i + 1][..i] == candidates[..i] && turns[..i + 1][..i] == turns[..i];
  }

  lemma {:induction false} StaysAborted(b: Board, candidates: seq<Candidate>, turns: seq<Turn>, i: nat, policy: Policy)
    requires AllSound(b) && |turns| == |candidates| && i <= |candidates|
    requires i == |candidates| || HandleAll(b, candidates[..i], turns[..i], policy).aborted
    ensures HandleAll(b, candidates, turns, policy) == HandleAll(b, candidates[..i], turns[..i], policy)
  {
    if i == |candidates| {
      assert candidates[..i] == candidates && turns[..i] == turns;
    } else {
      var n := |candidates| - 1;
      assert candidates[..n][..i] == candidates[..i] && turns[..n][..i] == turns[..i];
      StaysAborted(b, candidates[..n], turns[..n], i, policy);
    }
  }
}
