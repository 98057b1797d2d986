/**
 The local human privacy review (`application/privacy_review.py`).

 Every public operation is one or two critical sections: `rescan` and `confirm` release the
 lock while they wait for the scanner or the human. Each critical section is one function
 here, so any sequence of them is an interleaving of the service's operations, and the
 class at the end performs them in place.

 Object identity matters to the service, so a command is held together with a stamp that
 no other command object has. `log` is the history the statements below speak about.
 */
module PrivacyReview {
  import opened Common

  datatype Sheet = Sheet(width: real, height: real)

  datatype Source = Source(caseId: nat, snapshotId: nat, digest: nat, pages: seq<Sheet>)

  datatype Region = Region(page: nat, x0: real, y0: real, x1: real, y1: real)

  /** `evidence` is the detected text; a manual region has none. */
  datatype Candidate = Candidate(id: nat, category: nat, region: Region, crop: nat, evidence: Option<nat>)

  datatype Selection =
    | Redact(candidate: Candidate, entity: nat)
    | Dismiss(candidate: Candidate, reason: nat)

  datatype Command = Command(
    source: Source, policy: nat, revision: nat, selections: seq<Selection>, reviewed: set<nat>)

  datatype Held = Held(stamp: nat, command: Command)

  datatype Report = Report(source: Source, blocked: bool, candidates: seq<Candidate>)

  /** The digest of a command is the command itself. */
  datatype Approval = Approval(
    id: nat, caseId: nat, snapshotId: nat, digest: Command, principal: nat, approvedAt: int, expiresAt: int)

  datatype Version = Version(caseId: nat, snapshotId: nat, revision: nat)

  datatype Fault = InvalidInput | StaleConfirmation | CapabilityUnavailable | Unauthorized

  datatype Entry =
    | RescanStarted(started: Option<Held>)
    | RescanFinished(report: Report)
    | PageViewed(page: nat)
    | SelectionsChanged
    | PageReviewed(page: nat)
    | Prompted(attempt: nat, held: Held)
    | Answered(attempt: nat, approval: Approval)
    | Closed

  datatype State = State(
    command: Option<Held>,
    scan: Option<Report>,
    approval: Option<Approval>,
    previewed: set<nat>,
    revision: nat,
    attempt: Option<nat>,
    events: nat,
    stamps: nat,
    attempts: nat,
    log: seq<Entry>)

  const MAX_EVENTS := 1000
  const MAX_SELECTIONS := 10000
  const APPROVAL_SECONDS := 900

  function Initial(): State {
    State(None, None, None, {}, 0, None, 0, 0, 0, [])
  }

  predicate OnPage(p: nat, pages: nat) {
    1 <= p <= pages
  }

  function Pages(s: Source): set<nat> {
    set p: nat | p <= |s.pages| && OnPage(p, |s.pages|)
  }

  /** `validate_region`: the page exists and the box ends within it. */
  predicate Fits(r: Region, pages: seq<Sheet>) {
    OnPage(r.page, |pages|) && r.x1 <= pages[r.page - 1].width && r.y1 <= pages[r.page - 1].height
  }

  predicate AllFit(selections: seq<Selection>, pages: seq<Sheet>) {
    forall i :: 0 <= i < |selections| ==> Fits(selections[i].candidate.region, pages)
  }

  function Ids(selections: seq<Selection>): seq<nat> {
    seq(|selections|, i requires 0 <= i < |selections| => selections[i].candidate.id)
  }

  function Detected(candidates: seq<Candidate>): seq<nat> {
    seq(|candidates|, i requires 0 <= i < |candidates| => candidates[i].id)
  }

  predicate Distinct(ids: seq<nat>) {
    forall i, j :: 0 <= i < j < |ids| ==> ids[i] != ids[j]
  }

  /** The command's own validation, run by its constructor. */
  predicate ValidCommand(c: Command) {
    Distinct(Ids(c.selections)) && c.reviewed <= Pages(c.source) && AllFit(c.selections, c.source.pages)
  }

  predicate Ready(scan: Option<Report>) {
    scan.Some? && !scan.value.blocked
  }

  /** `_check`. */
  function Check(command: Option<Held>, v: Version): Result<Held, Fault> {
    if command.None? then Err(InvalidInput)
    else
      var c := command.value.command;
      if v.caseId != c.source.caseId || v.snapshotId != c.source.snapshotId || v.revision != c.revision
      then Err(StaleConfirmation) else Ok(command.value)
  }

  function Record(st: State, e: Entry): State {
    st.(log := st.log + [e])
  }

  function Refuse(st: State, f: Fault): (State, Option<Fault>) {
    (st, Some(f))
  }

  function Close(st: State): State {
    Record(st.(command := None, scan := None, approval := None, attempt := None, events := 0, previewed := {}), Closed)
  }

  /** The first half of `rescan`: authority is dropped even when the source cannot be read. */
  function RescanBegin(st: State, source: Source, policy: nat, readable: bool): (State, Option<Fault>) {
    var dropped :=
      st.(revision := st.revision + 1, approval := None, attempt := None, scan := None, command := None, previewed := {});
    if !readable || source.pages == [] then Refuse(Record(dropped, RescanStarted(None)), InvalidInput)
    else
      var held := Held(st.stamps, Command(source, policy, st.revision + 1, [], {}));
      (Record(dropped.(command := Some(held), stamps := st.stamps + 1, events := 1), RescanStarted(Some(held))), None)
  }

  function Selected(candidates: seq<Candidate>, entities: seq<nat>): seq<Selection>
    requires |candidates| == |entities|
  {
    seq(|candidates|, i requires 0 <= i < |candidates| => Redact(candidates[i], entities[i]))
  }

  /** The report's own validation, and that it is about the scanned source. */
  predicate ValidReport(r: Report, source: Source) {
    && Distinct(Detected(r.candidates))
    && (forall i :: 0 <= i < |r.candidates| ==> Fits(r.candidates[i].region, r.source.pages))
    && r.source == source
  }

  /** The second half: only the command that started the scan may receive its report. */
  function RescanFinish(st: State, started: Held, report: Option<Report>, entities: seq<nat>): (State, Option<Fault>)
    requires report.Some? ==> |report.value.candidates| == |entities|
  {
    if report.None? || !ValidReport(report.value, started.command.source) then Refuse(st, CapabilityUnavailable)
    else if st.command.None? || st.command.value.stamp != started.stamp then Refuse(st, StaleConfirmation)
    else
      var c := started.command.(selections := Selected(report.value.candidates, entities));
      (Record(st.(scan := report, command := Some(Held(st.stamps, c)), stamps := st.stamps + 1),
              RescanFinished(report.value)),
       None)
  }

  function Preview(st: State, v: Version, page: nat, rendered: bool): (State, Option<Fault>) {
    match Check(st.command, v)
    case Err(f) => Refuse(st, f)
    case Ok(held) =>
      if !OnPage(page, |held.command.source.pages|) then Refuse(st, InvalidInput)
      else if !rendered then Refuse(st, CapabilityUnavailable)
      else (Record(st.(previewed := st.previewed + {page}), PageViewed(page)), None)
  }

  /** `_change`: a new command object, a new revision, and no approval. */
  function Change(st: State, held: Held, selections: seq<Selection>, reviewed: set<nat>, clear: bool, e: Entry)
    : (State, Option<Fault>)
  {
    var c := Command(held.command.source, held.command.policy, st.revision + 1, selections, reviewed);
    if st.events >= MAX_EVENTS || |selections| > MAX_SELECTIONS then Refuse(st, CapabilityUnavailable)
    else if !ValidCommand(c) then Refuse(st.(revision := st.revision + 1), InvalidInput)
    else
      (Record(
         st.(revision := st.revision + 1,
             command := Some(Held(st.stamps, c)),
             stamps := st.stamps + 1,
             approval := None,
             previewed := if clear then {} else st.previewed,
             events := st.events + 1),
         e),
       None)
  }

  function Add(st: State, v: Version, region: Region, category: nat, id: nat, crop: nat, entity: nat)
    : (State, Option<Fault>)
  {
    match Check(st.command, v)
    case Err(f) => Refuse(st, f)
    case Ok(held) =>
      if !Fits(region, held.command.source.pages) then Refuse(st, InvalidInput)
      else
        var added := Redact(Candidate(id, category, region, crop, None), entity);
        Change(st, held, held.command.selections + [added], {}, true, SelectionsChanged)
  }

  function Find(selections: seq<Selection>, id: nat): (r: Option<nat>)
    ensures r.Some? ==> r.value < |selections| && selections[r.value].candidate.id == id
    ensures r.Some? ==> forall i :: 0 <= i < r.value ==> selections[i].candidate.id != id
    ensures r.None? ==> forall i :: 0 <= i < |selections| ==> selections[i].candidate.id != id
  {
    if selections == [] then None
    else
      match Find(selections[..|selections| - 1], id)
      case Some(k) => Some(k)
      case None => if selections[|selections| - 1].candidate.id == id then Some(|selections| - 1) else None
  }

  /** Every selection of that candidate becomes `after`. */
  function Replace(selections: seq<Selection>, id: nat, after: Selection): seq<Selection> {
    seq(|selections|, i requires 0 <= i < |selections| =>
      if selections[i].candidate.id == id then after else selections[i])
  }

  predicate KnownEntity(selections: seq<Selection>, entity: nat) {
    exists i :: 0 <= i < |selections| && selections[i].Redact? && selections[i].entity == entity
  }

  /** An edited candidate keeps its evidence only while its region is unchanged. */
  function Edited(before: Candidate, region: Region, category: nat, crop: nat): Candidate {
    if region == before.region then before.(category := category)
    else Candidate(before.id, category, region, crop, None)
  }

  function Edit(st: State, v: Version, id: nat, region: Region, category: nat,
                entity: Option<nat>, newEntity: nat, newCrop: nat): (State, Option<Fault>)
  {
    match Check(st.command, v)
    case Err(f) => Refuse(st, f)
    case Ok(held) =>
      var selections := held.command.selections;
      match Find(selections, id)
      case None => Refuse(st, InvalidInput)
      case Some(k) =>
        if !Fits(region, held.command.source.pages) then Refuse(st, InvalidInput)
        else if entity.Some? && !KnownEntity(selections, entity.value) then Refuse(st, InvalidInput)
        else
          var candidate := Edited(selections[k].candidate, region, category, newCrop);
          var after := Redact(candidate, if entity.Some? then entity.value else newEntity);
          Change(st, held, Replace(selections, id, after), {}, true, SelectionsChanged)
  }

  function Remove(st: State, v: Version, id: nat, reason: nat, blank: bool): (State, Option<Fault>) {
    match Check(st.command, v)
    case Err(f) => Refuse(st, f)
    case Ok(held) =>
      if blank then Refuse(st, InvalidInput)
      else
        match Find(held.command.selections, id)
        case None => Refuse(st, InvalidInput)
        case Some(k) =>
          var after := Dismiss(held.command.selections[k].candidate, reason);
          Change(st, held, Replace(held.command.selections, id, after), {}, true, SelectionsChanged)
  }

  function ReviewPage(st: State, v: Version, page: nat): (State, Option<Fault>) {
    match Check(st.command, v)
    case Err(f) => Refuse(st, f)
    case Ok(held) =>
      if page !in st.previewed then Refuse(st, InvalidInput)
      else
        Change(st, held, held.command.selections, held.command.reviewed + {page}, false, PageReviewed(page))
  }

  /** The first half of `confirm`: earlier approvals and attempts end before the human is asked. */
  function ConfirmBegin(st: State, v: Version, digest: Command): (State, Option<Fault>) {
    match Check(st.command, v)
    case Err(f) => Refuse(st, f)
    case Ok(held) =>
      if !Ready(st.scan) then Refuse(st, CapabilityUnavailable)
      else if digest != held.command || held.command.reviewed != Pages(held.command.source)
      then Refuse(st, StaleConfirmation)
      else
        (Record(st.(approval := None, attempt := Some(st.attempts), attempts := st.attempts + 1),
                Prompted(st.attempts, held)),
         None)
  }

  function Receipt(c: Command, principal: nat, now: int, id: nat): Approval {
    Approval(id, c.source.caseId, c.source.snapshotId, c, principal, now, now + APPROVAL_SECONDS)
  }

  /** The second half, run by the call that was given `attempt` and `held`. */
  function ConfirmFinish(st: State, attempt: nat, held: Held, principal: Option<nat>, readable: bool, now: int, id: nat)
    : (State, Option<Fault>)
  {
    if principal.None? then Refuse(st, Unauthorized)
    else if st.command.None? || st.command.value.stamp != held.stamp || st.attempt != Some(attempt)
    then Refuse(st, StaleConfirmation)
    else if !Ready(st.scan) then Refuse(st, CapabilityUnavailable)
    else if !readable then Refuse(st, Unauthorized)
    else
      var approval := Receipt(held.command, principal.value, now, id);
      (Record(st.(approval := Some(approval)), Answered(attempt, approval)), None)
  }

  predicate Within(a: Approval, now: int) {
    a.approvedAt <= now < a.expiresAt
  }

  /** `permits`: the receipt the service itself issued, for the command it holds, in its window. */
  predicate Permits(st: State, approval: Approval, command: Command, readable: bool, now: int, clock: int) {
    && Ready(st.scan)
    && readable
    && st.approval == Some(approval)
    && st.command.Some? && st.command.value.command == command
    && approval.digest == command
    && Within(approval, now)
    && Within(approval, clock)
  }

  // ------------------------------------------------------------ interleavings

  /** A critical section; a second half names the log entry of its own first half. */
  datatype Step =
    | DoClose
    | DoRescanBegin(source: Source, policy: nat, readable: bool)
    | DoRescanFinish(scanAt: nat, report: Option<Report>, entities: seq<nat>)
    | DoPreview(version: Version, page: nat, rendered: bool)
    | DoAdd(version: Version, region: Region, category: nat, id: nat, crop: nat, entity: nat)
    | DoEdit(version: Version, id: nat, region: Region, category: nat, chosen: Option<nat>,
             newEntity: nat, newCrop: nat)
    | DoRemove(version: Version, id: nat, reason: nat, blank: bool)
    | DoReviewPage(version: Version, page: nat)
    | DoConfirmBegin(version: Version, digest: Command)
    | DoConfirmFinish(promptAt: nat, principal: Option<nat>, readable: bool, now: int, id: nat)

  predicate IsPrompt(log: seq<Entry>, k: nat) {
    k < |log| && log[k].Prompted?
  }

  predicate IsScan(log: seq<Entry>, k: nat) {
    k < |log| && log[k].RescanStarted? && log[k].started.Some?
  }

  /** A step whose first half never happened, or that lacks an entity per candidate, does nothing. */
  function Next(st: State, step: Step): State {
    match step
    case DoClose => Close(st)
    case DoRescanBegin(source, policy, readable) => RescanBegin(st, source, policy, readable).0
    case DoRescanFinish(k, report, entities) =>
      if IsScan(st.log, k) && (report.Some? ==> |report.value.candidates| == |entities|)
      then RescanFinish(st, st.log[k].started.value, report, entities).0 else st
    case DoPreview(v, page, rendered) => Preview(st, v, page, rendered).0
    case DoAdd(v, region, category, id, crop, entity) => Add(st, v, region, category, id, crop, entity).0
    case DoEdit(v, id, region, category, entity, newEntity, newCrop) =>
      Edit(st, v, id, region, category, entity, newEntity, newCrop).0
    case DoRemove(v, id, reason, blank) => Remove(st, v, id, reason, blank).0
    case DoReviewPage(v, page) => ReviewPage(st, v, page).0
    case DoConfirmBegin(v, digest) => ConfirmBegin(st, v, digest).0
    case DoConfirmFinish(k, principal, readable, now, id) =>
      if IsPrompt(st.log, k)
      then ConfirmFinish(st, st.log[k].attempt, st.log[k].held, principal, readable, now, id).0 else st
  }

  /** The state after an interleaving. */
  function After(steps: seq<Step>): State {
    if steps == [] then Initial() else Next(After(steps[..|steps| - 1]), steps[|steps| - 1])
  }

  // -------------------------------------------------------- reading the history

  datatype Prompt = Prompt(attempt: nat, held: Held, undisturbed: bool, answer: Option<Approval>)

  /** Anything that changes what a prompt showed. */
  predicate Disturbs(e: Entry) {
    e.RescanStarted? || e.RescanFinished? || e.SelectionsChanged? || e.PageReviewed? || e.Closed?
  }

  function PromptAfter(p: Option<Prompt>, e: Entry): Option<Prompt> {
    if e.Prompted? then Some(Prompt(e.attempt, e.held, true, None))
    else if p.None? then None
    else if Disturbs(e) then Some(p.value.(undisturbed := false))
    else if e.Answered? && e.attempt == p.value.attempt then Some(p.value.(answer := Some(e.approval)))
    else p
  }

  /** The newest prompt, whether anything changed since, and its newest answer. */
  function LatestPrompt(log: seq<Entry>): Option<Prompt> {
    if log == [] then None else PromptAfter(LatestPrompt(log[..|log| - 1]), log[|log| - 1])
  }

  function ViewedAfter(pages: set<nat>, e: Entry): set<nat> {
    match e
    case PageViewed(p) => pages + {p}
    case RescanStarted(_) => {}
    case SelectionsChanged => {}
    case Closed => {}
    case _ => pages
  }

  /** Pages delivered to the human since a rescan started or a selection changed. */
  function Viewed(log: seq<Entry>): set<nat> {
    if log == [] then {} else ViewedAfter(Viewed(log[..|log| - 1]), log[|log| - 1])
  }

  function ScanAfter(scan: Option<Report>, e: Entry): Option<Report> {
    match e
    case RescanStarted(_) => None
    case Closed => None
    case RescanFinished(r) => Some(r)
    case _ => scan
  }

  /** The report of the newest scan, if it has arrived. */
  function LatestScan(log: seq<Entry>): Option<Report> {
    if log == [] then None else ScanAfter(LatestScan(log[..|log| - 1]), log[|log| - 1])
  }

  lemma {:induction false} Append(log: seq<Entry>, e: Entry)
    ensures LatestPrompt(log + [e]) == PromptAfter(LatestPrompt(log), e)
    ensures Viewed(log + [e]) == ViewedAfter(Viewed(log), e)
    ensures LatestScan(log + [e]) == ScanAfter(LatestScan(log), e)
  {
    assert (log + [e])[..|log|] == log;
  }

  /** Permission, told by the history alone: the newest prompt's answer, and nothing since. */
  predicate Granted(log: seq<Entry>, approval: Approval, command: Command) {
    var p := LatestPrompt(log);
    && p.Some?
    && p.value.undisturbed
    && p.value.answer == Some(approval)
    && p.value.held.command == command
  }

  /** Every detected candidate is decided, once. */
  ghost predicate Decided(selections: seq<Selection>, candidates: seq<Candidate>) {
    && Distinct(Ids(selections))
    && forall i :: 0 <= i < |candidates| ==> Detected(candidates)[i] in Ids(selections)
  }

  predicate Same(c: Candidate, d: Candidate) {
    c.id == d.id && c.region == d.region && c.evidence == d.evidence
  }

  /** Evidence in a decision is the detector's own, on the region it was read from. */
  ghost predicate Authentic(s: Selection, candidates: seq<Candidate>) {
    s.candidate.evidence.Some? ==> exists i :: 0 <= i < |candidates| && Same(s.candidate, candidates[i])
  }

  ghost predicate AllAuthentic(selections: seq<Selection>, candidates: seq<Candidate>) {
    forall j :: 0 <= j < |selections| ==> Authentic(selections[j], candidates)
  }

  // ---------------------------------------------------------------- invariant

  /** An attempt number names one prompt, and every prompt showed a command made before. */
  ghost predicate PromptKnown(stamps: nat, attempts: nat, log: seq<Entry>, k: nat)
    requires IsPrompt(log, k)
  {
    && log[k].held.stamp < stamps
    && log[k].attempt < attempts
    && LatestPrompt(log).Some?
    && (log[k].attempt == LatestPrompt(log).value.attempt ==> log[k].held == LatestPrompt(log).value.held)
  }

  ghost predicate PromptsKnown(stamps: nat, attempts: nat, log: seq<Entry>) {
    forall k: nat :: IsPrompt(log, k) ==> PromptKnown(stamps, attempts, log, k)
  }

  /** A command that is still waiting for its scan has no report. */
  ghost predicate ScansKnown(command: Option<Held>, scan: Option<Report>, stamps: nat, log: seq<Entry>) {
    forall k: nat :: IsScan(log, k) ==>
      && log[k].started.value.stamp < stamps
      && log[k].started.value.command.reviewed == {}
      && (command.Some? && command.value.stamp == log[k].started.value.stamp ==> command == log[k].started && scan.None?)
  }

  /** A stamp names one command object. */
  ghost predicate Identity(command: Option<Held>, scan: Option<Report>, stamps: nat, attempts: nat, log: seq<Entry>) {
    && (command.Some? ==> command.value.stamp < stamps)
    && (LatestPrompt(log).Some? ==> LatestPrompt(log).value.held.stamp < stamps)
    && PromptsKnown(stamps, attempts, log)
    && ScansKnown(command, scan, stamps, log)
  }

  function Standing(p: Option<Prompt>): Option<Approval> {
    if p.Some? && p.value.undisturbed then p.value.answer else None
  }

  ghost predicate Authority(command: Option<Held>, scan: Option<Report>, approval: Option<Approval>,
                            attempt: Option<nat>, p: Option<Prompt>)
  {
    && approval == Standing(p)
    && (attempt.Some? ==> p.Some? && p.value.attempt == attempt.value)
    && (p.Some? && p.value.answer.Some? ==>
          exists principal, now, id :: p.value.answer.value == Receipt(p.value.held.command, principal, now, id))
    && (p.Some? && p.value.undisturbed ==>
          && command == Some(p.value.held)
          && attempt == Some(p.value.attempt)
          && Ready(scan)
          && p.value.held.command.reviewed == Pages(p.value.held.command.source))
    && (p.Some? && !p.value.undisturbed && command.Some? ==> command.value.stamp > p.value.held.stamp)
  }

  ghost predicate Content(command: Option<Held>, scan: Option<Report>, previewed: set<nat>) {
    command.Some? ==>
      && var c := command.value.command;
      && c.reviewed <= previewed <= Pages(c.source)
      && AllFit(c.selections, c.source.pages)
      && Decided(c.selections, if scan.Some? then scan.value.candidates else [])
      && AllAuthentic(c.selections, if scan.Some? then scan.value.candidates else [])
  }

  ghost predicate Inv(st: State) {
    && st.previewed == Viewed(st.log)
    && st.scan == LatestScan(st.log)
    && Identity(st.command, st.scan, st.stamps, st.attempts, st.log)
    && Authority(st.command, st.scan, st.approval, st.attempt, LatestPrompt(st.log))
    && Content(st.command, st.scan, st.previewed)
  }

  // ------------------------------------------------------- every step keeps it

  lemma {:induction false} KeepsPrompt(st: State, after: State, e: Entry, k: nat)
    requires PromptsKnown(st.stamps, st.attempts, st.log)
    requires after.log == st.log + [e] && st.stamps <= after.stamps && st.attempts <= after.attempts
    requires e.Prompted? ==> e.attempt == st.attempts < after.attempts && e.held.stamp < st.stamps
    requires IsPrompt(after.log, k)
    ensures PromptKnown(after.stamps, after.attempts, after.log, k)
  {
    Append(st.log, e);
    if k < |st.log| {
      assert after.log[k] == st.log[k];
      assert PromptKnown(st.stamps, st.attempts, st.log, k);
    } else {
      assert after.log[k] == e;
    }
  }

  lemma {:induction false} KeepsPrompts(st: State, after: State, e: Entry)
    requires Identity(st.command, st.scan, st.stamps, st.attempts, st.log)
    requires after.log == st.log + [e] && st.stamps <= after.stamps && st.attempts <= after.attempts
    requires e.Prompted? ==> e.attempt == st.attempts < after.attempts && e.held.stamp < st.stamps
    ensures PromptsKnown(after.stamps, after.attempts, after.log)
    ensures LatestPrompt(after.log).Some? ==> LatestPrompt(after.log).value.held.stamp < after.stamps
  {
    Append(st.log, e);
    forall k: nat | IsPrompt(after.log, k) ensures PromptKnown(after.stamps, after.attempts, after.log, k) {
      KeepsPrompt(st, after, e, k);
    }
  }

  /** One new entry, with a command that is unchanged, dropped or newly made. */
  lemma {:induction false} KeepsIdentity(st: State, after: State, e: Entry)
    requires Identity(st.command, st.scan, st.stamps, st.attempts, st.log)
    requires after.log == st.log + [e]
    requires st.stamps <= after.stamps && st.attempts <= after.attempts
    requires
      || (after.command == st.command && after.scan == st.scan)
      || after.command.None?
      || st.stamps <= after.command.value.stamp < after.stamps
    requires e.Prompted? ==> e.attempt == st.attempts < after.attempts && e.held.stamp < st.stamps
    requires e.RescanStarted? && e.started.Some? ==>
      after.scan.None? && e.started == after.command && e.started.value.stamp < after.stamps && e.started.value.command.reviewed == {}
    ensures Identity(after.command, after.scan, after.stamps, after.attempts, after.log)
  {
    KeepsPrompts(st, after, e);
    forall k: nat | IsScan(after.log, k) && k < |st.log|
      ensures IsScan(st.log, k) && after.log[k] == st.log[k]
    {
    }
  }

  lemma {:induction false} CloseKeeps(st: State)
    requires Inv(st)
    ensures Inv(Close(st))
  {
    Append(st.log, Closed);
    KeepsIdentity(st, Close(st), Closed);
  }

  /** Dropping everything, with or without a new empty command. */
  lemma {:induction false} FreshStart(st: State, after: State, e: Entry)
    requires Inv(st) && e.RescanStarted? && after.log == st.log + [e]
    requires after.scan.None? && after.approval.None? && after.attempt.None? && after.previewed == {}
    requires after.attempts == st.attempts && after.command == e.started && st.stamps <= after.stamps
    requires after.command.Some? ==>
      && st.stamps <= after.command.value.stamp < after.stamps
      && after.command.value.command.selections == [] && after.command.value.command.reviewed == {}
    ensures Inv(after)
  {
    Append(st.log, e);
    KeepsIdentity(st, after, e);
  }

  lemma {:induction false} RescanBeginKeeps(st: State, source: Source, policy: nat, readable: bool)
    requires Inv(st)
    ensures Inv(RescanBegin(st, source, policy, readable).0)
  {
    var after := RescanBegin(st, source, policy, readable).0;
    FreshStart(st, after, RescanStarted(after.command));
  }

  lemma {:induction false} RescanFinishKeeps(st: State, k: nat, report: Option<Report>, entities: seq<nat>)
    requires Inv(st) && IsScan(st.log, k)
    requires report.Some? ==> |report.value.candidates| == |entities|
    ensures Inv(RescanFinish(st, st.log[k].started.value, report, entities).0)
  {
    var started := st.log[k].started.value;
    var (after, fault) := RescanFinish(st, started, report, entities);
    if fault.None? {
      var e := RescanFinished(report.value);
      Append(st.log, e);
      KeepsIdentity(st, after, e);
      SelectedIsFaithful(report.value.candidates, entities);
    }
  }

  lemma {:induction false} SelectedIsFaithful(candidates: seq<Candidate>, entities: seq<nat>)
    requires |candidates| == |entities| && Distinct(Detected(candidates))
    ensures Decided(Selected(candidates, entities), candidates)
    ensures AllAuthentic(Selected(candidates, entities), candidates)
  {
    var s := Selected(candidates, entities);
    assert Ids(s) == Detected(candidates);
    forall j | 0 <= j < |s| ensures Authentic(s[j], candidates) {
      assert Same(s[j].candidate, candidates[j]);
    }
  }

  lemma {:induction false} PreviewKeeps(st: State, v: Version, page: nat, rendered: bool)
    requires Inv(st)
    ensures Inv(Preview(st, v, page, rendered).0)
  {
    var (after, fault) := Preview(st, v, page, rendered);
    if fault.None? {
      Append(st.log, PageViewed(page));
      KeepsIdentity(st, after, PageViewed(page));
    }
  }

  /** A new command object ends whatever the newest prompt granted. */
  lemma {:induction false} ChangeEndsAuthority(st: State, after: State, e: Entry)
    requires Identity(st.command, st.scan, st.stamps, st.attempts, st.log)
    requires Authority(st.command, st.scan, st.approval, st.attempt, LatestPrompt(st.log))
    requires e == SelectionsChanged || e.PageReviewed?
    requires after.log == st.log + [e] && after.scan == st.scan && after.attempt == st.attempt && after.approval.None?
    requires after.command.Some? && after.command.value.stamp == st.stamps
    ensures Authority(after.command, after.scan, after.approval, after.attempt, LatestPrompt(after.log))
  {
    Append(st.log, e);
  }

  /** What `_change` does when it is not refused. */
  ghost predicate Changed(st: State, after: State, selections: seq<Selection>, reviewed: set<nat>, clear: bool, e: Entry) {
    && st.command.Some? && after.command.Some?
    && after.command.value.command.source == st.command.value.command.source
    && after.command.value.command.selections == selections && after.command.value.command.reviewed == reviewed
    && ValidCommand(after.command.value.command)
    && after.command.value.stamp == st.stamps && after.stamps == st.stamps + 1 && after.attempts == st.attempts
    && after.scan == st.scan && after.attempt == st.attempt && after.approval.None?
    && after.previewed == (if clear then {} else st.previewed)
    && after.log == st.log + [e]
  }

  lemma {:induction false} ChangedKeeps(st: State, after: State, selections: seq<Selection>, reviewed: set<nat>, clear: bool, e: Entry)
    requires Inv(st) && Changed(st, after, selections, reviewed, clear, e)
    requires clear ==> reviewed == {} && e == SelectionsChanged
    requires !clear ==> e.PageReviewed? && reviewed <= st.previewed
    requires st.scan.Some? ==> forall i :: 0 <= i < |st.scan.value.candidates| ==> Detected(st.scan.value.candidates)[i] in Ids(selections)
    requires AllAuthentic(selections, if st.scan.Some? then st.scan.value.candidates else [])
    ensures Inv(after)
  {
    Append(st.log, e);
    KeepsIdentity(st, after, e);
    ChangeEndsAuthority(st, after, e);
    ChangedContent(st, after, selections, reviewed);
  }

  /** What a change must bring with it; the rest is `_change`'s own doing. */
  lemma {:induction false} ChangeKeeps(st: State, held: Held, selections: seq<Selection>, reviewed: set<nat>, clear: bool, e: Entry)
    requires Inv(st) && st.command == Some(held)
    requires clear ==> reviewed == {} && e == SelectionsChanged
    requires !clear ==> e.PageReviewed? && reviewed <= st.previewed
    requires st.scan.Some? ==> forall i :: 0 <= i < |st.scan.value.candidates| ==> Detected(st.scan.value.candidates)[i] in Ids(selections)
    requires AllAuthentic(selections, if st.scan.Some? then st.scan.value.candidates else [])
    ensures Inv(Change(st, held, selections, reviewed, clear, e).0)
  {
    var after := ChangeShape(st, held, selections, reviewed, clear, e);
    if Changed(st, after, selections, reviewed, clear, e) {
      ChangedKeeps(st, after, selections, reviewed, clear, e);
    }
  }

  /** A refused change leaves all but the revision number. */
  lemma {:induction false} ChangeShape(st: State, held: Held, selections: seq<Selection>, reviewed: set<nat>, clear: bool, e: Entry)
    returns (after: State)
    requires st.command == Some(held)
    ensures after == Change(st, held, selections, reviewed, clear, e).0
    ensures Changed(st, after, selections, reviewed, clear, e) || after == st.(revision := after.revision)
  {
    after := Change(st, held, selections, reviewed, clear, e).0;
  }

  lemma {:induction false} ChangedContent(st: State, after: State, selections: seq<Selection>, reviewed: set<nat>)
    requires Content(st.command, st.scan, st.previewed) && st.command.Some? && after.command.Some? && after.scan == st.scan
    requires after.command.value.command.source == st.command.value.command.source
    requires after.command.value.command.selections == selections && after.command.value.command.reviewed == reviewed
    requires ValidCommand(after.command.value.command) && reviewed <= after.previewed <= Pages(st.command.value.command.source)
    requires st.scan.Some? ==> forall i :: 0 <= i < |st.scan.value.candidates| ==> Detected(st.scan.value.candidates)[i] in Ids(selections)
    requires AllAuthentic(selections, if st.scan.Some? then st.scan.value.candidates else [])
    ensures Content(after.command, after.scan, after.previewed)
  {
  }

  lemma {:induction false} AddKeeps(st: State, v: Version, region: Region, category: nat, id: nat, crop: nat, entity: nat)
    requires Inv(st)
    ensures Inv(Add(st, v, region, category, id, crop, entity).0)
  {
    var check := Check(st.command, v);
    if check.Ok? && Fits(region, check.value.command.source.pages) {
      var before := check.value.command.selections;
      var after := before + [Redact(Candidate(id, category, region, crop, None), entity)];
      assert Ids(after) == Ids(before) + [id];
      ChangeKeeps(st, check.value, after, {}, true, SelectionsChanged);
    }
  }

  /** Replacing a decision by one on the same candidate loses none and forges none. */
  lemma {:induction false} ReplaceIsFaithful(selections: seq<Selection>, id: nat, after: Selection, candidates: seq<Candidate>)
    requires after.candidate.id == id
    requires AllAuthentic(selections, candidates) && Authentic(after, candidates)
    ensures Ids(Replace(selections, id, after)) == Ids(selections)
    ensures AllAuthentic(Replace(selections, id, after), candidates)
  {
  }

  lemma {:induction false} EditedIsAuthentic(before: Selection, region: Region, category: nat, crop: nat, entity: nat, candidates: seq<Candidate>)
    requires Authentic(before, candidates)
    ensures Authentic(Redact(Edited(before.candidate, region, category, crop), entity), candidates)
  {
    var c := Edited(before.candidate, region, category, crop);
    if c.evidence.Some? {
      var i :| 0 <= i < |candidates| && Same(before.candidate, candidates[i]);
      assert Same(c, candidates[i]);
    }
  }

  lemma {:induction false} EditKeeps(st: State, v: Version, id: nat, region: Region, category: nat,
                                     entity: Option<nat>, newEntity: nat, newCrop: nat)
    requires Inv(st)
    ensures Inv(Edit(st, v, id, region, category, entity, newEntity, newCrop).0)
  {
    var check := Check(st.command, v);
    if check.Ok? && Find(check.value.command.selections, id).Some? {
      var before := check.value.command.selections;
      var k := Find(before, id).value;
      var after := Redact(Edited(before[k].candidate, region, category, newCrop), if entity.Some? then entity.value else newEntity);
      var candidates := if st.scan.Some? then st.scan.value.candidates else [];
      EditedIsAuthentic(before[k], region, category, newCrop, after.entity, candidates);
      ReplaceIsFaithful(before, id, after, candidates);
      ChangeKeeps(st, check.value, Replace(before, id, after), {}, true, SelectionsChanged);
    }
  }

  lemma {:induction false} RemoveKeeps(st: State, v: Version, id: nat, reason: nat, blank: bool)
    requires Inv(st)
    ensures Inv(Remove(st, v, id, reason, blank).0)
  {
    var check := Check(st.command, v);
    if check.Ok? && Find(check.value.command.selections, id).Some? {
      var before := check.value.command.selections;
      var k := Find(before, id).value;
      var after := Dismiss(before[k].candidate, reason);
      var candidates := if st.scan.Some? then st.scan.value.candidates else [];
      assert Authentic(before[k], candidates);
      ReplaceIsFaithful(before, id, after, candidates);
      ChangeKeeps(st, check.value, Replace(before, id, after), {}, true, SelectionsChanged);
    }
  }

  lemma {:induction false} ReviewPageKeeps(st: State, v: Version, page: nat)
    requires Inv(st)
    ensures Inv(ReviewPage(st, v, page).0)
  {
    var check := Check(st.command, v);
    if check.Ok? && page in st.previewed {
      var c := check.value.command;
      ChangeKeeps(st, check.value, c.selections, c.reviewed + {page}, false, PageReviewed(page));
    }
  }

  lemma {:induction false} ConfirmBeginKeeps(st: State, v: Version, digest: Command)
    requires Inv(st)
    ensures Inv(ConfirmBegin(st, v, digest).0)
  {
    var (after, fault) := ConfirmBegin(st, v, digest);
    if fault.None? {
      var e := Prompted(st.attempts, st.command.value);
      Append(st.log, e);
      KeepsIdentity(st, after, e);
    }
  }

  /** The half-finished confirmation `k` is the newest prompt and nothing changed since. */
  predicate StillCurrent(log: seq<Entry>, k: nat)
    requires IsPrompt(log, k)
  {
    var p := LatestPrompt(log);
    p.Some? && p.value.undisturbed && p.value.attempt == log[k].attempt
  }

  /** The second half of a confirmation completes only for the prompt that is still current. */
  lemma {:induction false} CompletesWhenCurrent(st: State, k: nat, principal: Option<nat>, readable: bool, now: int, id: nat)
    requires Inv(st) && IsPrompt(st.log, k)
    ensures
      var (after, fault) := ConfirmFinish(st, st.log[k].attempt, st.log[k].held, principal, readable, now, id);
      && (fault.None? <==> principal.Some? && readable && StillCurrent(st.log, k))
      && (fault.None? ==> LatestPrompt(st.log).value.held == st.log[k].held)
  {
  }

  lemma {:induction false} ConfirmFinishKeeps(st: State, k: nat, principal: Option<nat>, readable: bool, now: int, id: nat)
    requires Inv(st) && IsPrompt(st.log, k)
    ensures Inv(ConfirmFinish(st, st.log[k].attempt, st.log[k].held, principal, readable, now, id).0)
  {
    var (after, fault) := ConfirmFinish(st, st.log[k].attempt, st.log[k].held, principal, readable, now, id);
    CompletesWhenCurrent(st, k, principal, readable, now, id);
    if fault.None? {
      var e := Answered(st.log[k].attempt, Receipt(st.log[k].held.command, principal.value, now, id));
      Append(st.log, e);
      KeepsIdentity(st, after, e);
    }
  }

  lemma {:induction false} NextKeeps(st: State, step: Step)
    requires Inv(st)
    ensures Inv(Next(st, step))
  {
    match step
    case DoClose => CloseKeeps(st);
    case DoRescanBegin(source, policy, readable) => RescanBeginKeeps(st, source, policy, readable);
    case DoRescanFinish(k, report, entities) =>
      if IsScan(st.log, k) && (report.Some? ==> |report.value.candidates| == |entities|) {
        RescanFinishKeeps(st, k, report, entities);
      }
    case DoPreview(v, page, rendered) => PreviewKeeps(st, v, page, rendered);
    case DoAdd(v, region, category, id, crop, entity) => AddKeeps(st, v, region, category, id, crop, entity);
    case DoEdit(v, id, region, category, entity, newEntity, newCrop) =>
      EditKeeps(st, v, id, region, category, entity, newEntity, newCrop);
    case DoRemove(v, id, reason, blank) => RemoveKeeps(st, v, id, reason, blank);
    case DoReviewPage(v, page) => ReviewPageKeeps(st, v, page);
    case DoConfirmBegin(v, digest) => ConfirmBeginKeeps(st, v, digest);
    case DoConfirmFinish(k, principal, readable, now, id) =>
      if IsPrompt(st.log, k) {
        ConfirmFinishKeeps(st, k, principal, readable, now, id);
      }
  }

  lemma {:induction false} ReachableInv(steps: seq<Step>)
    ensures Inv(After(steps))
  {
    if steps != [] {
      ReachableInv(steps[..|steps| - 1]);
      NextKeeps(After(steps[..|steps| - 1]), steps[|steps| - 1]);
    }
  }

  // --------------------------------------------------------------- main results

  /** In every interleaving, `permits` answers yes exactly when the history grants it: the
      newest prompt showed this very command, nothing changed since, its answer is this very
      receipt, and both clocks are inside the receipt's fifteen minutes. */
  lemma {:induction false} PermitsExactlyWhatWasGranted(
    steps: seq<Step>, approval: Approval, command: Command, readable: bool, now: int, clock: int)
    ensures
      Permits(After(steps), approval, command, readable, now, clock) <==>
        && Granted(After(steps).log, approval, command) && readable
        && approval.approvedAt <= now < approval.expiresAt && approval.approvedAt <= clock < approval.expiresAt
  {
    ReachableInv(steps);
  }

  /** What a granted command is known to be: every page was delivered to the human since the
      last scan or change of selection, every detected candidate is decided exactly once, and
      no decision carries evidence from another region or lies outside its page. */
  lemma {:induction false} GrantedWasReviewed(steps: seq<Step>, approval: Approval, command: Command)
    requires Granted(After(steps).log, approval, command)
    ensures Pages(command.source) <= Viewed(After(steps).log)
    ensures LatestScan(After(steps).log).Some? && !LatestScan(After(steps).log).value.blocked
    ensures Decided(command.selections, LatestScan(After(steps).log).value.candidates)
    ensures AllAuthentic(command.selections, LatestScan(After(steps).log).value.candidates)
    ensures AllFit(command.selections, command.source.pages)
    ensures approval.digest == command && approval.expiresAt == approval.approvedAt + APPROVAL_SECONDS
  {
    ReachableInv(steps);
  }

  /** A confirmation completes exactly when its prompt is still current: any change and any
      newer prompt, at any point while the human was deciding, refuses it and changes nothing.
      When it completes, the shown command is permitted for the receipt's window. */
  lemma {:induction false} ConfirmSucceedsExactly(
    steps: seq<Step>, k: nat, principal: Option<nat>, readable: bool, now: int, id: nat, later: int, clock: int)
    requires IsPrompt(After(steps).log, k)
    ensures
      var st := After(steps);
      var (after, fault) := ConfirmFinish(st, st.log[k].attempt, st.log[k].held, principal, readable, now, id);
      && (fault.None? <==> principal.Some? && readable && StillCurrent(st.log, k))
      && (fault.Some? ==> after == st)
      && (fault.None? && now <= later < now + APPROVAL_SECONDS && now <= clock < now + APPROVAL_SECONDS ==>
            && after.approval.Some?
            && after.approval.value.principal == principal.value && after.approval.value.approvedAt == now
            && after.approval.value.caseId == st.log[k].held.command.source.caseId
            && after.approval.value.snapshotId == st.log[k].held.command.source.snapshotId
            && Permits(after, after.approval.value, st.log[k].held.command, true, later, clock))
  {
    ReachableInv(steps);
    CompletesWhenCurrent(After(steps), k, principal, readable, now, id);
  }

  lemma {:induction false} ReplacedIsValid(c: Command, id: nat, after: Selection, revision: nat)
    requires Distinct(Ids(c.selections)) && AllFit(c.selections, c.source.pages)
    requires after.candidate.id == id && Fits(after.candidate.region, c.source.pages)
    ensures ValidCommand(Command(c.source, c.policy, revision, Replace(c.selections, id, after), {}))
  {
    assert Ids(Replace(c.selections, id, after)) == Ids(c.selections);
  }

  lemma {:induction false} AddedIsValidExactly(c: Command, added: Selection, revision: nat)
    requires Distinct(Ids(c.selections)) && AllFit(c.selections, c.source.pages)
    requires Fits(added.candidate.region, c.source.pages)
    ensures ValidCommand(Command(c.source, c.policy, revision, c.selections + [added], {})) <==> added.candidate.id !in Ids(c.selections)
  {
    var ids, more := Ids(c.selections), Ids(c.selections + [added]);
    assert more == ids + [added.candidate.id];
    if added.candidate.id in ids {
      var i :| 0 <= i < |ids| && ids[i] == added.candidate.id;
      assert more[i] == more[|ids|];
    }
  }

  lemma {:induction false} RefusedEditChangesNothing(
    st: State, v: Version, id: nat, region: Region, category: nat, entity: Option<nat>, newEntity: nat, crop: nat)
    requires Inv(st) && Edit(st, v, id, region, category, entity, newEntity, crop).1.Some?
    ensures Edit(st, v, id, region, category, entity, newEntity, crop).0 == st
  {
    var check := Check(st.command, v);
    if check.Ok? && Find(check.value.command.selections, id).Some? && Fits(region, check.value.command.source.pages) {
      var c := check.value.command;
      var was := c.selections[Find(c.selections, id).value].candidate;
      var after := Redact(Edited(was, region, category, crop), if entity.Some? then entity.value else newEntity);
      ReplacedIsValid(c, id, after, st.revision + 1);
    }
  }

  lemma {:induction false} RefusedRemovalChangesNothing(st: State, v: Version, id: nat, reason: nat, blank: bool)
    requires Inv(st) && Remove(st, v, id, reason, blank).1.Some?
    ensures Remove(st, v, id, reason, blank).0 == st
  {
    var check := Check(st.command, v);
    if check.Ok? && Find(check.value.command.selections, id).Some? {
      var c := check.value.command;
      var was := c.selections[Find(c.selections, id).value].candidate;
      ReplacedIsValid(c, id, Dismiss(was, reason), st.revision + 1);
    }
  }

  lemma {:induction false} RefusedAdditionExactly(
    st: State, v: Version, region: Region, category: nat, id: nat, crop: nat, entity: nat)
    requires Inv(st)
    ensures
      var (after, fault) := Add(st, v, region, category, id, crop, entity);
      var check := Check(st.command, v);
      fault.Some? && after != st <==>
        && check.Ok? && Fits(region, check.value.command.source.pages)
        && st.events < MAX_EVENTS && |check.value.command.selections| < MAX_SELECTIONS
        && id in Ids(check.value.command.selections)
  {
    var check := Check(st.command, v);
    if check.Ok? && Fits(region, check.value.command.source.pages) {
      AddedIsValidExactly(check.value.command, Redact(Candidate(id, category, region, crop, None), entity), st.revision + 1);
    }
  }

  /** A refused edit, removal or page review has changed nothing: the command built inside
      `_change` always validates. Only an addition can burn a revision on a refused command, and
      exactly when everything was fine but its new candidate id is taken. */
  lemma {:induction false} OnlyAnIdClashIsRefused(
    steps: seq<Step>, v: Version, id: nat, region: Region, category: nat, entity: Option<nat>, newEntity: nat, crop: nat,
    reason: nat, blank: bool, page: nat)
    ensures
      var st := After(steps);
      var (edited, editFault) := Edit(st, v, id, region, category, entity, newEntity, crop);
      var (removed, removeFault) := Remove(st, v, id, reason, blank);
      var (reviewed, reviewFault) := ReviewPage(st, v, page);
      && (editFault.Some? ==> edited == st)
      && (removeFault.Some? ==> removed == st)
      && (reviewFault.Some? ==> reviewed == st)
    ensures
      var st := After(steps);
      var (added, addFault) := Add(st, v, region, category, id, crop, newEntity);
      var check := Check(st.command, v);
      addFault.Some? && added != st <==>
        && check.Ok? && Fits(region, check.value.command.source.pages)
        && st.events < MAX_EVENTS && |check.value.command.selections| < MAX_SELECTIONS
        && id in Ids(check.value.command.selections)
  {
    ReachableInv(steps);
    var st := After(steps);
    if Edit(st, v, id, region, category, entity, newEntity, crop).1.Some? {
      RefusedEditChangesNothing(st, v, id, region, category, entity, newEntity, crop);
    }
    if Remove(st, v, id, reason, blank).1.Some? {
      RefusedRemovalChangesNothing(st, v, id, reason, blank);
    }
    RefusedAdditionExactly(st, v, region, category, id, crop, newEntity);
  }

  /** What an edit or a removal leaves: one new decision on its candidate, everything else as it
      was, a new revision, and neither reviewed pages nor previews nor an approval. */
  ghost predicate Redecided(before: Command, after: State, id: nat, decision: Selection) {
    && after.command.Some?
    && var c := after.command.value.command;
    && c.source == before.source && c.policy == before.policy && c.revision == after.revision
    && c.reviewed == {} && after.previewed == {} && after.approval.None?
    && |c.selections| == |before.selections|
    && forall i :: 0 <= i < |c.selections| ==>
         c.selections[i] == if before.selections[i].candidate.id == id then decision else before.selections[i]
  }

  /** A change of the review: the next revision of the same source and policy, in a new command
      object, without an approval; previews are kept or cleared. */
  ghost predicate Succeeds(st: State, after: State, clear: bool, e: Entry) {
    && st.command.Some? && after.command.Some?
    && after.command.value.command.source == st.command.value.command.source
    && after.command.value.command.policy == st.command.value.command.policy
    && after.command.value.command.revision == after.revision == st.revision + 1
    && after.command.value.stamp != st.command.value.stamp
    && after.previewed == (if clear then {} else st.previewed)
    && after.approval.None? && after.scan == st.scan && after.attempt == st.attempt
    && after.events == st.events + 1 && after.log == st.log + [e]
  }

  /** The request names the command under review. */
  predicate Names(st: State, v: Version) {
    && st.command.Some?
    && v.caseId == st.command.value.command.source.caseId
    && v.snapshotId == st.command.value.command.source.snapshotId
    && v.revision == st.command.value.command.revision
  }

  function SelectionsOf(st: State): seq<Selection> {
    if st.command.Some? then st.command.value.command.selections else []
  }

  predicate OnItsPage(st: State, region: Region) {
    && st.command.Some?
    && 1 <= region.page <= |st.command.value.command.source.pages|
    && region.x1 <= st.command.value.command.source.pages[region.page - 1].width
    && region.y1 <= st.command.value.command.source.pages[region.page - 1].height
  }

  predicate Known(st: State, id: nat) {
    exists i :: 0 <= i < |SelectionsOf(st)| && SelectionsOf(st)[i].candidate.id == id
  }

  /** A review holds at most 10000 selections and takes at most 999 changes after its scan. */
  predicate HasRoom(st: State, more: nat) {
    st.events < 1000 && |SelectionsOf(st)| + more <= 10000
  }

  lemma {:induction false} KnownIsListed(st: State, id: nat)
    ensures Known(st, id) <==> id in Ids(SelectionsOf(st))
    ensures Known(st, id) <==> Find(SelectionsOf(st), id).Some?
  {
    var ids := Ids(SelectionsOf(st));
    if id in ids {
      var i :| 0 <= i < |ids| && ids[i] == id;
      assert SelectionsOf(st)[i].candidate.id == id;
    }
    if Known(st, id) {
      var i :| 0 <= i < |SelectionsOf(st)| && SelectionsOf(st)[i].candidate.id == id;
      assert ids[i] == id;
    }
  }

  /** An addition succeeds exactly for the current version, a region on its page, room for one
      more, and a new id; then every earlier decision stays in place and one redaction of just
      that region, category and crop is appended, with a new entity and no evidence. */
  lemma {:induction false} AdditionRedacts(steps: seq<Step>, v: Version, region: Region, category: nat, id: nat, crop: nat, entity: nat)
    ensures
      var st := After(steps);
      var (after, fault) := Add(st, v, region, category, id, crop, entity);
      && (fault.None? <==> Names(st, v) && OnItsPage(st, region) && HasRoom(st, 1) && !Known(st, id))
      && (fault.None? ==>
            Succeeds(st, after, true, SelectionsChanged) && after.command.value.command.reviewed == {} &&
            Appended(SelectionsOf(st), SelectionsOf(after), region, category, id, crop, entity))
  {
    ReachableInv(steps);
    AdditionRedactsIn(After(steps), v, region, category, id, crop, entity);
  }

  /** One redaction more, at the end. */
  ghost predicate Appended(was: seq<Selection>, now: seq<Selection>, region: Region, category: nat, id: nat, crop: nat, entity: nat) {
    && |now| == |was| + 1 && (forall i :: 0 <= i < |was| ==> now[i] == was[i])
    && now[|was|].Redact? && now[|was|].entity == entity
    && now[|was|].candidate.region == region && now[|was|].candidate.category == category
    && now[|was|].candidate.id == id && now[|was|].candidate.crop == crop && now[|was|].candidate.evidence.None?
  }

  lemma {:induction false} AdditionRedactsIn(st: State, v: Version, region: Region, category: nat, id: nat, crop: nat, entity: nat)
    requires Inv(st)
    ensures
      var (after, fault) := Add(st, v, region, category, id, crop, entity);
      && (fault.None? <==> Names(st, v) && OnItsPage(st, region) && HasRoom(st, 1) && !Known(st, id))
      && (fault.None? ==>
            Succeeds(st, after, true, SelectionsChanged) && after.command.value.command.reviewed == {} &&
            Appended(SelectionsOf(st), SelectionsOf(after), region, category, id, crop, entity))
  {
    KnownIsListed(st, id);
    if OnItsPage(st, region) {
      var c := st.command.value.command;
      AddedIsValidExactly(c, Redact(Candidate(id, category, region, crop, None), entity), st.revision + 1);
    }
  }

  /** When an edit, a removal or a page review succeeds, in terms of what the caller can see. */
  lemma {:induction false} ChangesSucceedExactly(
    steps: seq<Step>, v: Version, id: nat, region: Region, category: nat, entity: Option<nat>, newEntity: nat, crop: nat,
    reason: nat, blank: bool, page: nat)
    ensures
      var st := After(steps);
      var (edited, editFault) := Edit(st, v, id, region, category, entity, newEntity, crop);
      var (removed, removeFault) := Remove(st, v, id, reason, blank);
      var (reviewed, reviewFault) := ReviewPage(st, v, page);
      && (editFault.None? <==>
            Names(st, v) && Known(st, id) && OnItsPage(st, region) && HasRoom(st, 0) && (entity.Some? ==> Assigned(st, entity.value)))
      && (removeFault.None? <==> Names(st, v) && Known(st, id) && HasRoom(st, 0) && !blank)
      && (reviewFault.None? <==> Names(st, v) && page in Viewed(st.log) && HasRoom(st, 0))
      && (editFault.None? ==> Succeeds(st, edited, true, SelectionsChanged))
      && (removeFault.None? ==> Succeeds(st, removed, true, SelectionsChanged))
      && (reviewFault.None? ==>
            && Succeeds(st, reviewed, false, PageReviewed(page)) && SelectionsOf(reviewed) == SelectionsOf(st)
            && reviewed.command.value.command.reviewed == st.command.value.command.reviewed + {page})
  {
    ReachableInv(steps);
    var st := After(steps);
    EditSucceedsExactly(st, v, id, region, category, entity, newEntity, crop);
    RemoveSucceedsExactly(st, v, id, reason, blank);
  }

  /** Some redaction already uses that entity. */
  predicate Assigned(st: State, entity: nat) {
    exists i :: 0 <= i < |SelectionsOf(st)| && SelectionsOf(st)[i].Redact? && SelectionsOf(st)[i].entity == entity
  }

  lemma {:induction false} EditSucceedsExactly(
    st: State, v: Version, id: nat, region: Region, category: nat, entity: Option<nat>, newEntity: nat, crop: nat)
    requires Inv(st)
    ensures
      var (edited, fault) := Edit(st, v, id, region, category, entity, newEntity, crop);
      && (fault.None? <==>
            Names(st, v) && Known(st, id) && OnItsPage(st, region) && HasRoom(st, 0) && (entity.Some? ==> Assigned(st, entity.value)))
      && (fault.None? ==> Succeeds(st, edited, true, SelectionsChanged))
  {
    KnownIsListed(st, id);
    if Known(st, id) && OnItsPage(st, region) {
      var was := SelectionsOf(st)[Find(SelectionsOf(st), id).value].candidate;
      ReplacedSucceeds(st, id, Redact(Edited(was, region, category, crop), if entity.Some? then entity.value else newEntity));
    }
  }

  /** Deciding a known candidate anew, in a region on its page, fails for want of room only. */
  lemma {:induction false} ReplacedSucceeds(st: State, id: nat, now: Selection)
    requires Inv(st) && Known(st, id) && now.candidate.id == id && OnItsPage(st, now.candidate.region)
    ensures
      var (after, fault) :=
        Change(st, st.command.value, Replace(SelectionsOf(st), id, now), {}, true, SelectionsChanged);
      && (fault.None? <==> HasRoom(st, 0))
      && (fault.None? ==> Succeeds(st, after, true, SelectionsChanged))
  {
    ReplacedIsValid(st.command.value.command, id, now, st.revision + 1);
  }

  lemma {:induction false} RemoveSucceedsExactly(st: State, v: Version, id: nat, reason: nat, blank: bool)
    requires Inv(st)
    ensures
      var (removed, fault) := Remove(st, v, id, reason, blank);
      && (fault.None? <==> Names(st, v) && Known(st, id) && HasRoom(st, 0) && !blank)
      && (fault.None? ==> Succeeds(st, removed, true, SelectionsChanged))
  {
    KnownIsListed(st, id);
    if Known(st, id) {
      var c := st.command.value.command;
      ReplacedIsValid(c, id, Dismiss(c.selections[Find(c.selections, id).value].candidate, reason), st.revision + 1);
    }
  }

  /** What starting a rescan, delivering a page and asking the human take and leave. A rescan drops
      every authority even when the source cannot be read. */
  lemma {:induction false} FirstHalvesSucceedExactly(
    steps: seq<Step>, v: Version, source: Source, policy: nat, readable: bool, page: nat, rendered: bool, digest: Command)
    ensures
      var st := After(steps);
      var (scanning, scanFault) := RescanBegin(st, source, policy, readable);
      var (shown, showFault) := Preview(st, v, page, rendered);
      var (asked, askFault) := ConfirmBegin(st, v, digest);
      && (scanFault.None? <==> readable && source.pages != [])
      && scanning.approval.None? && scanning.attempt.None? && scanning.scan.None? && scanning.previewed == {}
      && scanning.revision == st.revision + 1
      && (if scanFault.None? then
            && scanning.command.Some? && scanning.command.value.command == Command(source, policy, st.revision + 1, [], {})
            && scanning.log == st.log + [RescanStarted(scanning.command)]
          else scanning.command.None?)
      && (showFault.None? <==> Names(st, v) && 1 <= page <= |st.command.value.command.source.pages| && rendered)
      && shown == (if showFault.None? then st.(previewed := st.previewed + {page}, log := st.log + [PageViewed(page)]) else st)
      && (askFault.None? <==>
            && Names(st, v) && digest == st.command.value.command
            && LatestScan(st.log).Some? && !LatestScan(st.log).value.blocked
            && forall p :: 1 <= p <= |digest.source.pages| ==> p in digest.reviewed)
      && (askFault.Some? ==> asked == st)
      && (askFault.None? ==>
            && asked.approval.None? && asked.attempt.Some? && asked.command == st.command
            && (forall k: nat :: IsPrompt(st.log, k) ==> st.log[k].attempt != asked.attempt.value)
            && asked.log == st.log + [Prompted(asked.attempt.value, st.command.value)])
  {
    ReachableInv(steps);
    var st := After(steps);
    if st.command.Some? {
      assert Pages(st.command.value.command.source) <= st.command.value.command.reviewed <==>
        forall p :: 1 <= p <= |st.command.value.command.source.pages| ==> p in st.command.value.command.reviewed;
    }
    forall k: nat | IsPrompt(st.log, k) ensures st.log[k].attempt < st.attempts {
      assert PromptKnown(st.stamps, st.attempts, st.log, k);
    }
  }

  /** Closing forgets the review; only what keeps later revisions and identities new survives. */
  lemma {:induction false} ClosingForgets(st: State)
    ensures
      var after := Close(st);
      && after == Initial().(revision := st.revision, stamps := st.stamps, attempts := st.attempts, log := after.log)
      && after.log == st.log + [Closed]
  {
  }

  /** A report that arrives for the command that asked for it redacts every candidate, each under
      the entity given to it, with the detector's own evidence; any other changes nothing. */
  lemma {:induction false} RescanRedactsAll(steps: seq<Step>, k: nat, report: Option<Report>, entities: seq<nat>)
    requires IsScan(After(steps).log, k) && (report.Some? ==> |report.value.candidates| == |entities|)
    ensures
      var st := After(steps);
      var started := st.log[k].started.value;
      var (after, fault) := RescanFinish(st, started, report, entities);
      && (fault.None? <==>
            && report.Some? && report.value.source == started.command.source
            && (forall i, j :: 0 <= i < j < |report.value.candidates| ==> report.value.candidates[i].id != report.value.candidates[j].id)
            && (forall i :: 0 <= i < |report.value.candidates| ==> Fits(report.value.candidates[i].region, started.command.source.pages))
            && st.command == Some(started))
      && (fault.Some? ==> after == st)
      && (fault.None? ==>
            && after.scan == report && after.command.Some? && after.command.value.stamp != started.stamp
            && after.command.value.command == started.command.(selections := SelectionsOf(after))
            && |SelectionsOf(after)| == |entities|
            && forall i :: 0 <= i < |entities| ==>
                 SelectionsOf(after)[i].Redact? && SelectionsOf(after)[i].entity == entities[i]
                 && SelectionsOf(after)[i].candidate == report.value.candidates[i])
  {
    ReachableInv(steps);
    var st := After(steps);
    if report.Some? {
      var ids := Detected(report.value.candidates);
      assert Distinct(ids) <==>
        forall i, j :: 0 <= i < j < |report.value.candidates| ==> report.value.candidates[i].id != report.value.candidates[j].id by {
        assert forall i :: 0 <= i < |ids| ==> ids[i] == report.value.candidates[i].id;
      }
    }
  }

  /** An edit redacts its candidate at the requested place, category and entity, and keeps the
      detector's evidence exactly while the region is unchanged. */
  lemma {:induction false} EditRedecides(st: State, v: Version, id: nat, region: Region, category: nat,
                                         entity: Option<nat>, newEntity: nat, newCrop: nat) returns (k: nat)
    requires st.command.Some? && Edit(st, v, id, region, category, entity, newEntity, newCrop).1.None?
    ensures k < |st.command.value.command.selections|
    ensures
      var before := st.command.value.command;
      var was := before.selections[k].candidate;
      var after := Edit(st, v, id, region, category, entity, newEntity, newCrop).0;
      && was.id == id
      && exists c: Candidate ::
           && Redecided(before, after, id, Redact(c, if entity.Some? then entity.value else newEntity))
           && c.id == id && c.region == region && c.category == category
           && c.evidence == (if region == was.region then was.evidence else None)
           && c.crop == (if region == was.region then was.crop else newCrop)
  {
    var before := st.command.value.command;
    k := Find(before.selections, id).value;
    var c := Edited(before.selections[k].candidate, region, category, newCrop);
    var after := Edit(st, v, id, region, category, entity, newEntity, newCrop).0;
    assert Redecided(before, after, id, Redact(c, if entity.Some? then entity.value else newEntity));
  }

  /** A removal dismisses its candidate with a reason and keeps the detection and its evidence. */
  lemma {:induction false} RemoveRedecides(st: State, v: Version, id: nat, reason: nat, blank: bool) returns (k: nat)
    requires st.command.Some? && Remove(st, v, id, reason, blank).1.None?
    ensures k < |st.command.value.command.selections|
    ensures
      var before := st.command.value.command;
      before.selections[k].candidate.id == id
      && Redecided(before, Remove(st, v, id, reason, blank).0, id, Dismiss(before.selections[k].candidate, reason))
  {
    k := Find(st.command.value.command.selections, id).value;
  }

  // ------------------------------------------------------------------ the service

  /** `LocalPrivacyReviewService`. `stamps` stands for object identity of commands, `attempts`
      for that of confirmation attempts; `log` is the ghost history. */
  class Service {
    var command: Option<Held>
    var scan: Option<Report>
    var approval: Option<Approval>
    var previewed: set<nat>
    var revision: nat
    var attempt: Option<nat>
    var events: nat
    var stamps: nat
    var attempts: nat
    ghost var log: seq<Entry>

    ghost function View(): State
      reads this
    {
      State(command, scan, approval, previewed, revision, attempt, events, stamps, attempts, log)
    }

    constructor ()
      ensures View() == Initial()
    {
      command, scan, approval, previewed := None, None, None, {};
      revision, attempt, events, stamps, attempts := 0, None, 0, 0, 0;
      log := [];
    }

    method CloseReview()
      modifies this
      ensures View() == Close(old(View()))
    {
      command := None;
      scan := None;
      approval := None;
      attempt := None;
      events := 0;
      previewed := {};
      log := log + [Closed];
    }

    method BeginRescan(source: Source, policy: nat, readable: bool) returns (held: Option<Held>, fault: Option<Fault>)
      modifies this
      ensures (View(), fault) == RescanBegin(old(View()), source, policy, readable)
      ensures held == command
    {
      revision := revision + 1;
      approval := None;
      attempt := None;
      scan := None;
      command := None;
      previewed := {};
      held := None;
      if !readable || source.pages == [] {
        log := log + [RescanStarted(None)];
        return held, Some(InvalidInput);
      }
      held := Some(Held(stamps, Command(source, policy, revision, [], {})));
      stamps := stamps + 1;
      command := held;
      events := 1;
      log := log + [RescanStarted(held)];
      fault := None;
    }

    method FinishRescan(started: Held, report: Option<Report>, entities: seq<nat>) returns (fault: Option<Fault>)
      requires report.Some? ==> |report.value.candidates| == |entities|
      modifies this
      ensures (View(), fault) == RescanFinish(old(View()), started, report, entities)
    {
      if report.None? || !ValidReport(report.value, started.command.source) {
        return Some(CapabilityUnavailable);
      }
      if command.None? || command.value.stamp != started.stamp {
        return Some(StaleConfirmation);
      }
      scan := report;
      command := Some(Held(stamps, started.command.(selections := Selected(report.value.candidates, entities))));
      stamps := stamps + 1;
      log := log + [RescanFinished(report.value)];
      fault := None;
    }

    method PreviewPage(v: Version, page: nat, rendered: bool) returns (fault: Option<Fault>)
      modifies this
      ensures (View(), fault) == Preview(old(View()), v, page, rendered)
    {
      var check := Check(command, v);
      if check.Err? {
        return Some(check.error);
      }
      if !OnPage(page, |check.value.command.source.pages|) {
        return Some(InvalidInput);
      }
      if !rendered {
        return Some(CapabilityUnavailable);
      }
      previewed := previewed + {page};
      log := log + [PageViewed(page)];
      fault := None;
    }

    method ApplyChange(held: Held, selections: seq<Selection>, reviewed: set<nat>, clear: bool, ghost e: Entry)
      returns (fault: Option<Fault>)
      modifies this
      ensures (View(), fault) == Change(old(View()), held, selections, reviewed, clear, e)
    {
      if events >= MAX_EVENTS || |selections| > MAX_SELECTIONS {
        return Some(CapabilityUnavailable);
      }
      revision := revision + 1;
      var c := Command(held.command.source, held.command.policy, revision, selections, reviewed);
      if !ValidCommand(c) {
        return Some(InvalidInput);
      }
      command := Some(Held(stamps, c));
      stamps := stamps + 1;
      approval := None;
      if clear {
        previewed := {};
      }
      events := events + 1;
      log := log + [e];
      fault := None;
    }

    method AddRegion(v: Version, region: Region, category: nat, id: nat, crop: nat, entity: nat)
      returns (fault: Option<Fault>)
      modifies this
      ensures (View(), fault) == Add(old(View()), v, region, category, id, crop, entity)
    {
      var check := Check(command, v);
      if check.Err? {
        return Some(check.error);
      }
      if !Fits(region, check.value.command.source.pages) {
        return Some(InvalidInput);
      }
      var added := Redact(Candidate(id, category, region, crop, None), entity);
      fault := ApplyChange(check.value, check.value.command.selections + [added], {}, true, SelectionsChanged);
    }

    /** `_selection`: the loop that looks a candidate up. */
    method FindSelection(selections: seq<Selection>, id: nat) returns (r: Option<nat>)
      ensures r == Find(selections, id)
    {
      for i := 0 to |selections|
        invariant Find(selections[..i], id) == None
      {
        assert selections[..i + 1][..i] == selections[..i];
        if selections[i].candidate.id == id {
          FoundEarly(selections, id, i);
          return Some(i);
        }
      }
      assert selections[..|selections|] == selections;
      r := None;
    }

    /** `_replace`: the loop that rebuilds the selections around one decision. */
    method ReplaceSelection(selections: seq<Selection>, id: nat, after: Selection) returns (r: seq<Selection>)
      ensures r == Replace(selections, id, after)
    {
      r := [];
      for i := 0 to |selections|
        invariant |r| == i
        invariant forall j :: 0 <= j < i ==> r[j] == Replace(selections, id, after)[j]
      {
        r := r + [if selections[i].candidate.id == id then after else selections[i]];
      }
    }

    method EditRegion(v: Version, id: nat, region: Region, category: nat,
                      entity: Option<nat>, newEntity: nat, newCrop: nat) returns (fault: Option<Fault>)
      modifies this
      ensures (View(), fault) == Edit(old(View()), v, id, region, category, entity, newEntity, newCrop)
    {
      var check := Check(command, v);
      if check.Err? {
        return Some(check.error);
      }
      var selections := check.value.command.selections;
      var at := FindSelection(selections, id);
      if at.None? {
        return Some(InvalidInput);
      }
      if !Fits(region, check.value.command.source.pages) {
        return Some(InvalidInput);
      }
      if entity.Some? && !KnownEntity(selections, entity.value) {
        return Some(InvalidInput);
      }
      var candidate := Edited(selections[at.value].candidate, region, category, newCrop);
      var after := Redact(candidate, if entity.Some? then entity.value else newEntity);
      var replaced := ReplaceSelection(selections, id, after);
      fault := ApplyChange(check.value, replaced, {}, true, SelectionsChanged);
    }

    method RemoveRegion(v: Version, id: nat, reason: nat, blank: bool) returns (fault: Option<Fault>)
      modifies this
      ensures (View(), fault) == Remove(old(View()), v, id, reason, blank)
    {
      var check := Check(command, v);
      if check.Err? {
        return Some(check.error);
      }
      if blank {
        return Some(InvalidInput);
      }
      var selections := check.value.command.selections;
      var at := FindSelection(selections, id);
      if at.None? {
        return Some(InvalidInput);
      }
      var replaced := ReplaceSelection(selections, id, Dismiss(selections[at.value].candidate, reason));
      fault := ApplyChange(check.value, replaced, {}, true, SelectionsChanged);
    }

    method MarkReviewed(v: Version, page: nat) returns (fault: Option<Fault>)
      modifies this
      ensures (View(), fault) == ReviewPage(old(View()), v, page)
    {
      var check := Check(command, v);
      if check.Err? {
        return Some(check.error);
      }
      if page !in previewed {
        return Some(InvalidInput);
      }
      var c := check.value.command;
      fault := ApplyChange(check.value, c.selections, c.reviewed + {page}, false, PageReviewed(page));
    }

    method BeginConfirm(v: Version, digest: Command) returns (mine: nat, fault: Option<Fault>)
      modifies this
      ensures (View(), fault) == ConfirmBegin(old(View()), v, digest)
      ensures fault.None? ==> attempt == Some(mine)
    {
      mine := attempts;
      var check := Check(command, v);
      if check.Err? {
        return mine, Some(check.error);
      }
      if !Ready(scan) {
        return mine, Some(CapabilityUnavailable);
      }
      var c := check.value.command;
      if digest != c || c.reviewed != Pages(c.source) {
        return mine, Some(StaleConfirmation);
      }
      approval := None;
      attempts := attempts + 1;
      attempt := Some(mine);
      log := log + [Prompted(mine, check.value)];
      fault := None;
    }

    method FinishConfirm(mine: nat, held: Held, principal: Option<nat>, readable: bool, now: int, id: nat)
      returns (fault: Option<Fault>)
      modifies this
      ensures (View(), fault) == ConfirmFinish(old(View()), mine, held, principal, readable, now, id)
    {
      if principal.None? {
        return Some(Unauthorized);
      }
      if command.None? || command.value.stamp != held.stamp || attempt != Some(mine) {
        return Some(StaleConfirmation);
      }
      if !Ready(scan) {
        return Some(CapabilityUnavailable);
      }
      if !readable {
        return Some(Unauthorized);
      }
      approval := Some(Receipt(held.command, principal.value, now, id));
      log := log + [Answered(mine, approval.value)];
      fault := None;
    }

    method IsPermitted(a: Approval, c: Command, readable: bool, now: int, clock: int) returns (ok: bool)
      ensures ok <==> Permits(View(), a, c, readable, now, clock)
    {
      if !Ready(scan) || !readable {
        return false;
      }
      ok := approval == Some(a) && command.Some? && command.value.command == c
        && a.digest == c && Within(a, now) && Within(a, clock);
    }
  }

  lemma {:induction false} FoundEarly(selections: seq<Selection>, id: nat, k: nat)
    requires k < |selections| && Find(selections[..k], id) == None && selections[k].candidate.id == id
    ensures Find(selections, id) == Some(k)
  {
    forall i | 0 <= i < k ensures selections[i].candidate.id != id {
      assert selections[..k][i] == selections[i];
    }
  }
}
