/**
 Where everything in the document storage comes from, and exactly what can be read and pinned
 (`application/document_transfer.py`).
 */
module DocumentOrigin {
  import opened Common
  import opened DocumentTransfer
  import opened DocumentProtocol

  // ------------------------------------------------------------ ingested documents

  /** Step `k` of the run began an ingest of that content, which was vetted there. */
  ghost predicate VettedAt(steps: seq<Step>, limit: nat, k: nat, content: Bytes, att: Attestation, principal: nat) {
    && k < |steps| && steps[k].BeginIngest?
    && steps[k].content == content && steps[k].att == att && steps[k].principal == principal
    && Vetted(After(steps[..k], limit).store, content, att, steps[k].grants, steps[k].verified, limit)
  }

  ghost predicate VettedIn(steps: seq<Step>, limit: nat, content: Bytes, att: Attestation, principal: nat) {
    exists k: nat :: VettedAt(steps, limit, k, content, att, principal)
  }

  /** Step `j` supplied the new ids and the time of an allocation. */
  ghost predicate MintedAt(steps: seq<Step>, j: nat, a: Allocation) {
    && j < |steps| && steps[j].Advance? && steps[j].version == a.version && steps[j].now == a.createdAt
    && a.documentId == (if a.attestation.claims.previous.Some? then a.attestation.claims.previous.value.documentId else steps[j].documentId)
  }

  ghost predicate AllocationStems(steps: seq<Step>, limit: nat, a: Allocation) {
    && (exists j: nat :: MintedAt(steps, j, a))
    && (exists principal :: VettedIn(steps, limit, a.attestation.claims.digest, a.attestation, principal))
  }

  ghost predicate PayloadStems(steps: seq<Step>, limit: nat, p: Payload) {
    match p
    case AllocationRecord(a) => AllocationStems(steps, limit, a)
    case PdfBytes(bytes) => exists att, principal :: VettedIn(steps, limit, bytes, att, principal)
    case DocumentRecord(s) =>
      VettedIn(steps, limit, s.metadata.reference.contentHash, s.metadata.attestation, s.metadata.uploadedBy)
    case SnapshotRecord(_) => true
  }

  // -------------------------------------------------------------------- snapshots

  /** Step `k` of the run began a snapshot of a valid revision, the run's own. */
  ghost predicate SnapshotBegan(steps: seq<Step>, k: nat, run: RunReference, principal: nat, grants: set<Grant>, documents: seq<Reference>) {
    && k < |steps| && steps[k].BeginSnapshot?
    && steps[k].run == run && steps[k].principal == principal && steps[k].grants == grants
    && ValidRevision(steps[k].revision) && run.revision == steps[k].revision.reference
    && documents == ByDocument(steps[k].revision.documents)
  }

  /** An entry for that document, which the caller may read, with its attested number of pages. */
  ghost predicate EntryFor(e: SnapshotEntry, r: Reference, grants: set<Grant>) {
    && e.document == r && Grant(r.caseId, r.purpose) in grants
    && e.pageCount == e.stored.metadata.attestation.claims.pages
  }

  ghost predicate EntriesOf(entries: seq<SnapshotEntry>, documents: seq<Reference>, grants: set<Grant>) {
    |entries| <= |documents| && forall i :: 0 <= i < |entries| ==> EntryFor(entries[i], documents[i], grants)
  }

  ghost predicate SnapshotStems(steps: seq<Step>, k: nat, run: RunReference, snapshot: Snapshot, grants: set<Grant>, documents: seq<Reference>) {
    && SnapshotBegan(steps, k, run, snapshot.createdBy, grants, documents)
    && EntriesOf(snapshot.documents, documents, grants) && |snapshot.documents| == |documents|
  }

  ghost predicate ProcessStems(steps: seq<Step>, limit: nat, p: Process) {
    match p
    case Allocating(content, att, principal) => VettedIn(steps, limit, content, att, principal)
    case Storing(content, att, principal, _) => VettedIn(steps, limit, content, att, principal)
    case Cataloguing(content, att, principal, _, _) => VettedIn(steps, limit, content, att, principal)
    case Ingested(m) => VettedIn(steps, limit, m.reference.contentHash, m.attestation, m.uploadedBy)
    case Pinning(run, principal, grants, documents, entries) =>
      && (exists k: nat :: SnapshotBegan(steps, k, run, principal, grants, documents))
      && EntriesOf(entries, documents, grants)
    case Pinned(run, snapshot) => exists k: nat, grants, documents :: SnapshotStems(steps, k, run, snapshot, grants, documents)
    case Ended => true
  }

  ghost predicate Stems(steps: seq<Step>, limit: nat, sys: System) {
    && (forall i :: 0 <= i < |sys.processes| ==> ProcessStems(steps, limit, sys.processes[i]))
    && (forall key :: key in sys.store ==> PayloadStems(steps, limit, sys.store[key].payload))
  }

  // ------------------------------------------------------ it stays known as the run goes on

  lemma {:induction false} VettedLater(steps: seq<Step>, n: nat, limit: nat, content: Bytes, att: Attestation, principal: nat)
    requires n <= |steps| && VettedIn(steps[..n], limit, content, att, principal)
    ensures VettedIn(steps, limit, content, att, principal)
  {
    var k: nat :| VettedAt(steps[..n], limit, k, content, att, principal);
    assert steps[..n][..k] == steps[..k];
    assert VettedAt(steps, limit, k, content, att, principal);
  }

  lemma {:induction false} PayloadLater(steps: seq<Step>, n: nat, limit: nat, p: Payload)
    requires n <= |steps| && PayloadStems(steps[..n], limit, p)
    ensures PayloadStems(steps, limit, p)
  {
    match p
    case AllocationRecord(a) =>
      var principal :| VettedIn(steps[..n], limit, a.attestation.claims.digest, a.attestation, principal);
      VettedLater(steps, n, limit, a.attestation.claims.digest, a.attestation, principal);
      var j: nat :| MintedAt(steps[..n], j, a);
      assert MintedAt(steps, j, a);
    case PdfBytes(bytes) =>
      var att, principal :| VettedIn(steps[..n], limit, bytes, att, principal);
      VettedLater(steps, n, limit, bytes, att, principal);
    case DocumentRecord(s) =>
      VettedLater(steps, n, limit, s.metadata.reference.contentHash, s.metadata.attestation, s.metadata.uploadedBy);
    case SnapshotRecord(_) =>
  }

  lemma {:induction false} ProcessLater(steps: seq<Step>, n: nat, limit: nat, p: Process)
    requires n <= |steps| && ProcessStems(steps[..n], limit, p)
    ensures ProcessStems(steps, limit, p)
  {
    match p
    case Allocating(content, att, principal) => VettedLater(steps, n, limit, content, att, principal);
    case Storing(content, att, principal, _) => VettedLater(steps, n, limit, content, att, principal);
    case Cataloguing(content, att, principal, _, _) => VettedLater(steps, n, limit, content, att, principal);
    case Ingested(m) => VettedLater(steps, n, limit, m.reference.contentHash, m.attestation, m.uploadedBy);
    case Pinning(run, principal, grants, documents, entries) =>
      var k: nat :| SnapshotBegan(steps[..n], k, run, principal, grants, documents);
      assert SnapshotBegan(steps, k, run, principal, grants, documents);
    case Pinned(run, snapshot) =>
      var k: nat, grants, documents :| SnapshotStems(steps[..n], k, run, snapshot, grants, documents);
      assert SnapshotStems(steps, k, run, snapshot, grants, documents);
    case Ended =>
  }

  // ------------------------------------------------------------------- every step

  /** What one write adds stems from the process that made it. */
  ghost predicate MoveStems(steps: seq<Step>, limit: nat, store: Storage, moved: (Storage, map<nat, Key>, Process)) {
    && (forall key :: key in moved.0 && key !in store ==> PayloadStems(steps, limit, moved.0[key].payload))
    && (forall key :: key in store ==> key in moved.0 && moved.0[key] == store[key])
    && ProcessStems(steps, limit, moved.2)
  }

  lemma {:induction false} AllocateStems(steps: seq<Step>, limit: nat, store: Storage, issued: map<nat, Key>, p: Process, step: Step)
    requires steps != [] && steps[|steps| - 1] == step && step.Advance? && p.Allocating?
    requires ProcessStems(steps, limit, p) && ProcessOk(store, issued, p, limit)
    ensures MoveStems(steps, limit, store, Move(store, issued, p, step, limit))
  {
    var a := Proposed(p.att, step.documentId, step.version, step.now);
    assert MintedAt(steps, |steps| - 1, a);
    assert VettedIn(steps, limit, a.attestation.claims.digest, a.attestation, p.principal);
  }

  lemma {:induction false} WriteStems(steps: seq<Step>, limit: nat, store: Storage, issued: map<nat, Key>, p: Process, step: Step)
    requires step.Advance? && (p.Storing? || p.Cataloguing?)
    requires ProcessStems(steps, limit, p) && ProcessOk(store, issued, p, limit)
    ensures MoveStems(steps, limit, store, Move(store, issued, p, step, limit))
  {
    var m := MetadataOf(p.allocation, p.content, p.principal);
    assert m.reference.contentHash == p.content && m.attestation == p.att && m.uploadedBy == p.principal;
    assert VettedIn(steps, limit, p.content, p.att, p.principal);
  }

  lemma {:induction false} PinStems(steps: seq<Step>, limit: nat, store: Storage, issued: map<nat, Key>, p: Process, step: Step)
    requires step.Advance? && p.Pinning?
    requires ProcessStems(steps, limit, p) && ProcessOk(store, issued, p, limit)
    ensures MoveStems(steps, limit, store, Move(store, issued, p, step, limit))
  {
    var k: nat :| SnapshotBegan(steps, k, p.run, p.principal, p.grants, p.documents);
    if |p.entries| == |p.documents| {
      var r := Publish(store, p.run, p.entries, p.principal, step.now, step.storageVersion).1;
      if r.Ok? {
        assert SnapshotStems(steps, k, p.run, r.value, p.grants, p.documents);
      }
    }
  }

  lemma {:induction false} AdvanceStems(steps: seq<Step>, limit: nat, store: Storage, issued: map<nat, Key>, p: Process, step: Step)
    requires steps != [] && steps[|steps| - 1] == step && step.Advance?
    requires ProcessStems(steps, limit, p) && ProcessOk(store, issued, p, limit)
    ensures MoveStems(steps, limit, store, Move(store, issued, p, step, limit))
  {
    match p
    case Allocating(_, _, _) => AllocateStems(steps, limit, store, issued, p, step);
    case Storing(_, _, _, _) => WriteStems(steps, limit, store, issued, p, step);
    case Cataloguing(_, _, _, _, _) => WriteStems(steps, limit, store, issued, p, step);
    case Pinning(_, _, _, _, _) => PinStems(steps, limit, store, issued, p, step);
    case _ =>
  }

  lemma {:induction false} BeginStems(steps: seq<Step>, limit: nat, step: Step)
    requires steps != [] && steps[|steps| - 1] == step && (step.BeginIngest? || step.BeginSnapshot?)
    ensures
      var before := After(steps[..|steps| - 1], limit);
      var after := Next(before, step, limit);
      && after.store == before.store && |after.processes| == |before.processes| + 1
      && after.processes[..|before.processes|] == before.processes
      && ProcessStems(steps, limit, after.processes[|before.processes|])
  {
    var n := |steps| - 1;
    var store := After(steps[..n], limit).store;
    match step
    case BeginIngest(content, att, principal, grants, verified) =>
      AdmittedExactly(store, content, att, grants, verified, limit);
      if Vetted(store, content, att, grants, verified, limit) {
        assert VettedAt(steps, limit, n, content, att, principal);
      }
    case BeginSnapshot(run, revision, principal, grants) =>
      if AdmitSnapshot(run, revision).None? {
        assert SnapshotBegan(steps, n, run, principal, grants, ByDocument(revision.documents));
      }
  }

  /** Every call past its admission, every ingested document and every stored object stems from a
      call of this run that was vetted; every snapshot from one over the run's own revision. */
  lemma {:induction false} EverythingStems(steps: seq<Step>, limit: nat)
    ensures Stems(steps, limit, After(steps, limit))
  {
    if steps != [] {
      var n := |steps| - 1;
      var before := After(steps[..n], limit);
      EverythingStems(steps[..n], limit);
      ReachableInv(steps[..n], limit);
      StillStems(steps, limit, before);
      NextStems(steps, limit, before);
    }
  }

  lemma {:induction false} StillStems(steps: seq<Step>, limit: nat, sys: System)
    requires steps != [] && Stems(steps[..|steps| - 1], limit, sys)
    ensures Stems(steps, limit, sys)
  {
    forall i | 0 <= i < |sys.processes| ensures ProcessStems(steps, limit, sys.processes[i]) {
      ProcessLater(steps, |steps| - 1, limit, sys.processes[i]);
    }
    forall key | key in sys.store ensures PayloadStems(steps, limit, sys.store[key].payload) {
      PayloadLater(steps, |steps| - 1, limit, sys.store[key].payload);
    }
  }

  lemma {:induction false} NextStems(steps: seq<Step>, limit: nat, sys: System)
    requires steps != [] && sys == After(steps[..|steps| - 1], limit) && Inv(sys, limit) && Stems(steps, limit, sys)
    ensures Stems(steps, limit, Next(sys, steps[|steps| - 1], limit))
  {
    var step := steps[|steps| - 1];
    match step
    case BeginIngest(_, _, _, _, _) => BeginStems(steps, limit, step);
    case BeginSnapshot(_, _, _, _) => BeginStems(steps, limit, step);
    case Crash(_) =>
    case Advance(i, _, version, _, _) =>
      if i < |sys.processes| && version !in sys.issued {
        AdvanceStems(steps, limit, sys.store, sys.issued, sys.processes[i], step);
      }
  }

  /** What an idempotent write answers: the new version, the version already holding the very same
      bytes, or a conflict, told apart from an object too large to compare. */
  lemma {:induction false} IdempotentWriteAnswers(store: Storage, key: Key, version: nat, payload: Payload)
    ensures
      var (after, r) := CreateOnce(store, key, version, payload);
      if key !in store then after == store[key := Object(version, payload)] && r == Ok(version)
      else
        && after == store
        && (r.Ok? <==> store[key].payload == payload) && (r.Ok? ==> r.value == store[key].version)
        && (r == Err(TooLarge) <==>
              && payload.PdfBytes? && store[key].payload.PdfBytes?
              && |store[key].payload.bytes| > |payload.bytes| && |store[key].payload.bytes| > 1)
        && (r.Err? ==> r.error in {TooLarge, Conflict})
  {
  }

  // -------------------------------------------------------------- exactly what can be read

  lemma {:induction false} StoredReads(store: Storage, issued: map<nat, Key>, r: Reference, limit: nat)
    requires StoreInv(store, issued, limit) && Catalogued(store, r)
    ensures
      var stored := store[KeyOf(r, Documents)].payload.stored;
      ReadStored(store, stored, limit) == Ok(Document(stored.metadata, r.contentHash))
  {
    assert ObjectOk(store, issued, limit, KeyOf(r, Documents));
  }

  /** Whatever the storage has come to hold, a read answers only who may, and only with bytes that
      are exactly what the reference, the record and the snapshot's entry say; anyone else is told
      the same whether or not there is anything to read. */
  lemma {:induction false} ReadsAreVerified(store: Storage, run: RunReference, r: Reference, grants: set<Grant>, limit: nat)
    ensures
      var direct, through := Read(store, r, grants, limit), ReadSnapshot(store, run, r, grants, limit);
      && (Grant(r.caseId, r.purpose) !in grants ==> direct == Err(Unauthorized) && through == Err(Unauthorized))
      && (r.caseId != run.revision.caseId ==> through == Err(Unauthorized))
      && (direct.Ok? ==> Verified(store, r, direct.value, limit))
      && (through.Ok? ==>
            && Verified(store, r, through.value, limit) && HasSnapshot(store, run)
            && |EntriesFor(store[SnapshotKey(run)].payload.snapshot.documents, r)| == 1
            && EntriesFor(store[SnapshotKey(run)].payload.snapshot.documents, r)[0].stored == store[KeyOf(r, Documents)].payload.stored)
  {
  }

  /** The document is the catalogued one, and its bytes are those of the recorded object version,
      with the recorded size and the reference's digest. */
  ghost predicate Verified(store: Storage, r: Reference, d: Document, limit: nat) {
    var content := Key(Content, r.documentId, r.version);
    && Catalogued(store, r) && d.metadata == store[KeyOf(r, Documents)].payload.stored.metadata
    && content in store && store[content].payload == PdfBytes(d.content)
    && store[content].version == store[KeyOf(r, Documents)].payload.stored.storageVersion
    && |d.content| <= limit && |d.content| == d.metadata.byteSize && d.content == r.contentHash
  }

  /** A document can be read exactly by who may, once it is catalogued; then as the bytes its
      reference names. */
  lemma {:induction false} ReadSucceedsExactly(steps: seq<Step>, limit: nat, r: Reference, grants: set<Grant>)
    ensures
      var store := After(steps, limit).store;
      var result := Read(store, r, grants, limit);
      && (result.Ok? <==> Grant(r.caseId, r.purpose) in grants && Catalogued(store, r))
      && (result.Ok? ==> result.value.content == r.contentHash && result.value.metadata.reference == r)
  {
    ReachableInv(steps, limit);
    var sys := After(steps, limit);
    if Catalogued(sys.store, r) {
      StoredReads(sys.store, sys.issued, r, limit);
    }
  }

  /** The run has a snapshot. */
  predicate HasSnapshot(store: Storage, run: RunReference) {
    var key := Key(Snapshots, run.revision.caseId, run.runId);
    && key in store && store[key].payload.SnapshotRecord?
    && store[key].payload.snapshot.runId == run.runId && store[key].payload.snapshot.revision == run.revision
  }

  predicate Lists(s: Snapshot, r: Reference) {
    exists i :: 0 <= i < |s.documents| && s.documents[i].document == r
  }

  /** Through a snapshot exactly the documents it lists can be read, by who may read them. */
  lemma {:induction false} SnapshotReadSucceedsExactly(steps: seq<Step>, limit: nat, run: RunReference, r: Reference, grants: set<Grant>)
    ensures
      var store := After(steps, limit).store;
      var result := ReadSnapshot(store, run, r, grants, limit);
      && (result.Ok? <==>
            && r.caseId == run.revision.caseId && Grant(r.caseId, r.purpose) in grants
            && HasSnapshot(store, run) && Lists(store[SnapshotKey(run)].payload.snapshot, r))
      && (result.Ok? ==> result.value.content == r.contentHash && result.value.metadata.reference == r)
  {
    ReachableInv(steps, limit);
    var sys := After(steps, limit);
    if HasSnapshot(sys.store, run) {
      assert ObjectOk(sys.store, sys.issued, limit, SnapshotKey(run));
      ListedReads(sys.store, sys.issued, limit, sys.store[SnapshotKey(run)].payload.snapshot, r);
    }
  }

  lemma {:induction false} ListedReads(store: Storage, issued: map<nat, Key>, limit: nat, s: Snapshot, r: Reference)
    requires StoreInv(store, issued, limit) && EntriesOk(store, s.documents, s.revision.caseId)
    ensures Lists(s, r) <==> |EntriesFor(s.documents, r)| == 1
    ensures Lists(s, r) ==>
              && Catalogued(store, r) && EntriesFor(s.documents, r)[0].stored == store[KeyOf(r, Documents)].payload.stored
              && ReadStored(store, store[KeyOf(r, Documents)].payload.stored, limit).Ok?
              && ReadStored(store, store[KeyOf(r, Documents)].payload.stored, limit).value.content == r.contentHash
  {
    if Lists(s, r) {
      var i :| 0 <= i < |s.documents| && s.documents[i].document == r;
      EntryIsFound(s.documents, i);
      assert EntryOk(store, s.documents[i]);
      StoredReads(store, issued, r, limit);
    } else {
      NoEntry(s.documents, r);
    }
  }

  // ----------------------------------------------------------- exactly what can be pinned

  ghost predicate AllReadable(store: Storage, documents: seq<Reference>, grants: set<Grant>) {
    forall i :: 0 <= i < |documents| ==>
      Grant(documents[i].caseId, documents[i].purpose) in grants && Catalogued(store, documents[i])
  }

  /** The entry that pins this document as it is catalogued. */
  ghost predicate PinsAt(store: Storage, r: Reference, e: SnapshotEntry) {
    && Catalogued(store, r)
    && e == SnapshotEntry(r, store[KeyOf(r, Documents)].payload.stored,
                          store[KeyOf(r, Documents)].payload.stored.metadata.attestation.claims.pages)
  }

  ghost predicate Pins(store: Storage, documents: seq<Reference>, entries: seq<SnapshotEntry>) {
    |entries| == |documents| && forall i :: 0 <= i < |documents| ==> PinsAt(store, documents[i], entries[i])
  }

  lemma {:induction false} PinExactly(store: Storage, issued: map<nat, Key>, r: Reference, grants: set<Grant>, limit: nat)
    requires StoreInv(store, issued, limit)
    ensures
      var result := Pin(store, r, grants, limit);
      && (result.Ok? <==> Grant(r.caseId, r.purpose) in grants && Catalogued(store, r))
      && (result.Ok? ==> PinsAt(store, r, result.value))
  {
    if Catalogued(store, r) {
      StoredReads(store, issued, r, limit);
    }
  }

  lemma {:induction false} PinAllExactly(store: Storage, issued: map<nat, Key>, documents: seq<Reference>, grants: set<Grant>, limit: nat)
    requires StoreInv(store, issued, limit)
    ensures PinAll(store, documents, grants, limit).Ok? <==> AllReadable(store, documents, grants)
    ensures AllReadable(store, documents, grants) ==> Pins(store, documents, PinAll(store, documents, grants, limit).value)
  {
    if documents != [] {
      PinAllExactly(store, issued, documents[..|documents| - 1], grants, limit);
      PinExactly(store, issued, documents[|documents| - 1], grants, limit);
    }
  }

  lemma {:induction false} PinsDetermine(store: Storage, documents: seq<Reference>, a: seq<SnapshotEntry>, b: seq<SnapshotEntry>)
    requires Pins(store, documents, a)
    ensures Pins(store, documents, b) <==> a == b
  {
    if Pins(store, documents, b) {
      forall i | 0 <= i < |documents| ensures a[i] == b[i] {
        assert PinsAt(store, documents[i], a[i]) && PinsAt(store, documents[i], b[i]);
      }
    }
  }

  /** The run has no snapshot, or one by this caller that pins exactly these documents. */
  ghost predicate SlotFits(store: Storage, run: RunReference, principal: nat, documents: seq<Reference>) {
    var key := Key(Snapshots, run.revision.caseId, run.runId);
    key in store ==>
      && store[key].payload.SnapshotRecord? && store[key].payload.snapshot.revision == run.revision
      && store[key].payload.snapshot.createdBy == principal
      && Pins(store, documents, store[key].payload.snapshot.documents)
  }

  lemma {:induction false} PublishedExactly(
    store: Storage, issued: map<nat, Key>, limit: nat, run: RunReference, documents: seq<Reference>, entries: seq<SnapshotEntry>, principal: nat,
    now: int, version: nat)
    requires StoreInv(store, issued, limit) && Pins(store, documents, entries)
    ensures
      var result := Publish(store, run, entries, principal, now, version).1;
      && (result.Ok? <==> |documents| <= 100 && SlotFits(store, run, principal, documents))
      && (result.Ok? ==>
            && result.value.runId == run.runId && result.value.revision == run.revision && result.value.createdBy == principal
            && result.value.documents == entries)
  {
    if SnapshotKey(run) in store {
      assert ObjectOk(store, issued, limit, SnapshotKey(run));
      PinsDetermine(store, documents, entries, store[SnapshotKey(run)].payload.snapshot.documents);
    }
  }

  /** The revision is the run's own: two or more documents, each of its case and none twice. */
  ghost predicate OwnDocuments(run: RunReference, revision: Revision) {
    && |revision.documents| >= 2 && run.revision == revision.reference
    && (forall i :: 0 <= i < |revision.documents| ==> revision.documents[i].caseId == run.revision.caseId)
    && (forall i, j :: 0 <= i < j < |revision.documents| ==> revision.documents[i].documentId != revision.documents[j].documentId)
  }

  /** A snapshot call that is left alone succeeds exactly for the run's own valid revision of at
      most a hundred documents, all catalogued and readable by the caller, unless the run has a
      snapshot by someone else or of something else; it pins each document of the revision. */
  lemma {:induction false} SnapshotSucceedsExactly(
    steps: seq<Step>, limit: nat, run: RunReference, revision: Revision, principal: nat, grants: set<Grant>, now: int, version: nat)
    ensures
      var store := After(steps, limit).store;
      var documents := ByDocument(revision.documents);
      var result := CreateSnapshot(store, run, revision, principal, grants, limit, now, version).1;
      && (result.Ok? <==>
            && OwnDocuments(run, revision) && |revision.documents| <= 100
            && AllReadable(store, documents, grants) && SlotFits(store, run, principal, documents))
      && (result.Ok? ==>
            && result.value.runId == run.runId && result.value.revision == run.revision && result.value.createdBy == principal
            && Pins(store, documents, result.value.documents))
  {
    ReachableInv(steps, limit);
    SnapshotInExactly(After(steps, limit).store, After(steps, limit).issued, limit, run, revision, principal, grants, now, version);
  }

  lemma {:induction false} RevisionAdmittedExactly(run: RunReference, revision: Revision)
    ensures AdmitSnapshot(run, revision).None? <==> OwnDocuments(run, revision)
  {
  }

  /** From the documents of an admitted revision on. */
  lemma {:induction false} PinnedExactly(
    store: Storage, issued: map<nat, Key>, limit: nat, run: RunReference, documents: seq<Reference>, principal: nat, grants: set<Grant>,
    now: int, version: nat) returns (result: Result<Snapshot, Fault>)
    requires StoreInv(store, issued, limit)
    ensures result == match PinAll(store, documents, grants, limit)
                      case Err(f) => Err(f)
                      case Ok(entries) => Publish(store, run, entries, principal, now, version).1
    ensures result.Ok? <==> |documents| <= 100 && AllReadable(store, documents, grants) && SlotFits(store, run, principal, documents)
    ensures result.Ok? ==>
      && result.value.runId == run.runId && result.value.revision == run.revision && result.value.createdBy == principal
      && Pins(store, documents, result.value.documents)
  {
    PinAllExactly(store, issued, documents, grants, limit);
    match PinAll(store, documents, grants, limit)
    case Err(f) => result := Err(f);
    case Ok(entries) =>
      PublishedExactly(store, issued, limit, run, documents, entries, principal, now, version);
      result := Publish(store, run, entries, principal, now, version).1;
  }

  lemma {:induction false} SnapshotInExactly(
    store: Storage, issued: map<nat, Key>, limit: nat, run: RunReference, revision: Revision, principal: nat, grants: set<Grant>,
    now: int, version: nat)
    requires StoreInv(store, issued, limit)
    ensures
      var documents := ByDocument(revision.documents);
      var result := CreateSnapshot(store, run, revision, principal, grants, limit, now, version).1;
      && (result.Ok? <==>
            && OwnDocuments(run, revision) && |documents| <= 100
            && AllReadable(store, documents, grants) && SlotFits(store, run, principal, documents))
      && (result.Ok? ==>
            && result.value.runId == run.runId && result.value.revision == run.revision && result.value.createdBy == principal
            && Pins(store, documents, result.value.documents))
  {
    RevisionAdmittedExactly(run, revision);
    var _ := PinnedExactly(store, issued, limit, run, ByDocument(revision.documents), principal, grants, now, version);
  }

  /** A returned snapshot lists each document of the revision it was asked for once, in document
      order, and nothing else. */
  lemma {:induction false} SnapshotListsTheRevision(steps: seq<Step>, limit: nat, i: nat) returns (k: nat)
    requires i < |After(steps, limit).processes| && After(steps, limit).processes[i].Pinned?
    ensures
      var p := After(steps, limit).processes[i];
      && k < |steps| && steps[k].BeginSnapshot? && steps[k].run == p.run && steps[k].principal == p.snapshot.createdBy
      && p.run.revision == steps[k].revision.reference && ValidRevision(steps[k].revision)
      && (forall r :: Lists(p.snapshot, r) <==> r in steps[k].revision.documents)
      && (forall a, b :: 0 <= a < b < |p.snapshot.documents| ==>
            p.snapshot.documents[a].document.documentId < p.snapshot.documents[b].document.documentId)
  {
    EverythingStems(steps, limit);
    var p := After(steps, limit).processes[i];
    assert ProcessStems(steps, limit, p);
    var j: nat, grants, documents :| SnapshotStems(steps, j, p.run, p.snapshot, grants, documents);
    k := j;
    ByDocumentIncreasing(steps[k].revision.documents);
    ListsExactly(p.snapshot, documents, grants);
  }

  lemma {:induction false} ListsExactly(s: Snapshot, documents: seq<Reference>, grants: set<Grant>)
    requires EntriesOf(s.documents, documents, grants) && |s.documents| == |documents| && Increasing(documents)
    ensures forall r :: Lists(s, r) <==> r in documents
    ensures forall a, b :: 0 <= a < b < |s.documents| ==> s.documents[a].document.documentId < s.documents[b].document.documentId
  {
    forall r | r in documents ensures Lists(s, r) {
      var a :| 0 <= a < |documents| && documents[a] == r;
      assert s.documents[a].document == r;
    }
  }
}
