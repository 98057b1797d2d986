/**
 Any number of ingest and snapshot calls against one storage, interleaved between any two
 storage writes and crashing between any two of them (`application/document_transfer.py`).
 */
module DocumentProtocol {
  import opened Common
  import opened DocumentTransfer

  /** A call in progress; its constructor is the write it makes next. */
  datatype Process =
    | Allocating(content: Bytes, att: Attestation, principal: nat)
    | Storing(content: Bytes, att: Attestation, principal: nat, allocation: Allocation)
    | Cataloguing(content: Bytes, att: Attestation, principal: nat, allocation: Allocation, contentVersion: nat)
    | Ingested(metadata: Metadata)
    | Pinning(run: RunReference, principal: nat, grants: set<Grant>, documents: seq<Reference>, entries: seq<SnapshotEntry>)
    | Pinned(run: RunReference, snapshot: Snapshot)
    | Ended

  /** `issued` tells which allocation a document version was issued by; it is not stored. */
  datatype System = System(store: Storage, issued: map<nat, Key>, processes: seq<Process>)

  datatype Step =
    | BeginIngest(content: Bytes, att: Attestation, principal: nat, grants: set<Grant>, verified: bool)
    | BeginSnapshot(run: RunReference, revision: Revision, principal: nat, grants: set<Grant>)
    | Advance(i: nat, documentId: nat, version: nat, now: int, storageVersion: nat)
    | Crash(i: nat)

  function Start(sys: System, p: Process): System {
    sys.(processes := sys.processes + [p])
  }

  /** The next write of a call: the storage, the issued versions, and where the call then is. */
  function Move(store: Storage, issued: map<nat, Key>, p: Process, step: Step, limit: nat): (Storage, map<nat, Key>, Process)
    requires step.Advance?
  {
    match p
    case Allocating(content, att, principal) =>
      var proposed := Proposed(att, step.documentId, step.version, step.now);
      var (after, r) := Allocate(store, proposed, step.storageVersion);
      if r.Err? then (after, issued, Ended)
      else
        (after,
         if ExportKey(att.claims) in store then issued else issued[step.version := ExportKey(att.claims)],
         Storing(content, att, principal, r.value))
    case Storing(content, att, principal, a) =>
      var (after, r) := StoreContent(store, MetadataOf(a, content, principal), content, step.storageVersion);
      (after, issued, if r.Err? then Ended else Cataloguing(content, att, principal, a, r.value))
    case Cataloguing(content, att, principal, a, v) =>
      var (after, r) := Catalogue(store, MetadataOf(a, content, principal), v, step.storageVersion);
      (after, issued, if r.Err? then Ended else Ingested(r.value))
    case Pinning(run, principal, grants, documents, entries) =>
      if |entries| < |documents| then
        var r := Pin(store, documents[|entries|], grants, limit);
        (store, issued, if r.Err? then Ended else Pinning(run, principal, grants, documents, entries + [r.value]))
      else
        var (after, r) := Publish(store, run, entries, principal, step.now, step.storageVersion);
        (after, issued, if r.Err? then Ended else Pinned(run, r.value))
    case _ => (store, issued, p)
  }

  /** A generated document version is new; nothing else is asked of the environment. */
  function Next(sys: System, step: Step, limit: nat): System {
    match step
    case BeginIngest(content, att, principal, grants, verified) =>
      Start(sys, if Admit(sys.store, content, att, grants, verified, limit).None? then Allocating(content, att, principal) else Ended)
    case BeginSnapshot(run, revision, principal, grants) =>
      Start(sys, if AdmitSnapshot(run, revision).None?
                 then Pinning(run, principal, grants, ByDocument(revision.documents), []) else Ended)
    case Crash(i) =>
      if i < |sys.processes| then sys.(processes := sys.processes[i := Ended]) else sys
    case Advance(i, _, version, _, _) =>
      if i < |sys.processes| && version !in sys.issued then
        var (store, issued, p) := Move(sys.store, sys.issued, sys.processes[i], step, limit);
        System(store, issued, sys.processes[i := p])
      else sys
  }

  function After(steps: seq<Step>, limit: nat): System {
    if steps == [] then System(map[], map[], [])
    else Next(After(steps[..|steps| - 1], limit), steps[|steps| - 1], limit)
  }

  // ------------------------------------------------------------- storage invariant

  ghost predicate Extends(store: Storage, later: Storage) {
    forall k :: k in store ==> k in later && later[k] == store[k]
  }

  ghost predicate StillIssued(issued: map<nat, Key>, later: map<nat, Key>) {
    forall v :: v in issued ==> v in later && later[v] == issued[v]
  }

  ghost predicate Holds(store: Storage, key: Key, payload: Payload) {
    key in store && store[key].payload == payload
  }

  /** `a` is the allocation stored under its export, and its version was issued to it. */
  ghost predicate Allotted(store: Storage, issued: map<nat, Key>, a: Allocation) {
    var key := ExportKey(a.attestation.claims);
    && Holds(store, key, AllocationRecord(a)) && a.version in issued && issued[a.version] == key
    && (a.attestation.claims.previous.Some? ==> a.documentId == a.attestation.claims.previous.value.documentId)
  }

  ghost function Owner(store: Storage, issued: map<nat, Key>, version: nat): Option<Allocation> {
    if version in issued && issued[version] in store && store[issued[version]].payload.AllocationRecord?
    then Some(store[issued[version]].payload.allocation) else None
  }

  /** The bytes of document version (`d`, `v`) are those its allocation's attestation signed. */
  ghost predicate Attested(store: Storage, issued: map<nat, Key>, d: nat, v: nat, bytes: Bytes, limit: nat) {
    var a := Owner(store, issued, v);
    && a.Some? && Allotted(store, issued, a.value)
    && a.value.documentId == d && a.value.version == v
    && a.value.attestation.claims.digest == bytes
    && 0 < |bytes| == a.value.attestation.claims.byteSize <= limit
  }

  ghost predicate CompleteDocument(store: Storage, issued: map<nat, Key>, d: nat, v: nat, s: Stored, limit: nat) {
    var content := Key(Content, d, v);
    && content in store && store[content].version == s.storageVersion && store[content].payload.PdfBytes?
    && var bytes := store[content].payload.bytes;
    && Attested(store, issued, d, v, bytes, limit)
    && var a := Owner(store, issued, v).value;
    && s.metadata == MetadataOf(a, bytes, a.attestation.claims.principalId)
  }

  ghost predicate EntryOk(store: Storage, e: SnapshotEntry) {
    && Holds(store, KeyOf(e.document, Documents), DocumentRecord(e.stored))
    && e.stored.metadata.reference == e.document
  }

  ghost predicate EntriesOk(store: Storage, entries: seq<SnapshotEntry>, caseId: nat) {
    && (forall i :: 0 <= i < |entries| ==> EntryOk(store, entries[i]) && entries[i].document.caseId == caseId)
    && (forall i, j :: 0 <= i < j < |entries| ==> entries[i].document != entries[j].document)
  }

  ghost predicate ObjectOk(store: Storage, issued: map<nat, Key>, limit: nat, key: Key)
    requires key in store
  {
    var p := store[key].payload;
    match key.kind
    case Exports => p.AllocationRecord? && ExportKey(p.allocation.attestation.claims) == key && Allotted(store, issued, p.allocation)
    case Content => p.PdfBytes? && Attested(store, issued, key.scope, key.identity, p.bytes, limit)
    case Documents => p.DocumentRecord? && CompleteDocument(store, issued, key.scope, key.identity, p.stored, limit)
    case Snapshots =>
      && p.SnapshotRecord?
      && p.snapshot.runId == key.identity && p.snapshot.revision.caseId == key.scope
      && EntriesOk(store, p.snapshot.documents, key.scope)
  }

  ghost predicate StoreInv(store: Storage, issued: map<nat, Key>, limit: nat) {
    && (forall k :: k in store ==> ObjectOk(store, issued, limit, k))
    && (forall v :: v in issued ==> issued[v] in store)
  }

  /** Growing the storage invalidates nothing that is already in it. */
  lemma {:induction false} ObjectStaysOk(store: Storage, issued: map<nat, Key>, later: Storage, laterIssued: map<nat, Key>, limit: nat, key: Key)
    requires Extends(store, later) && StillIssued(issued, laterIssued)
    requires key in store && ObjectOk(store, issued, limit, key)
    ensures ObjectOk(later, laterIssued, limit, key)
  {
  }

  /** So one new object is all a write has to answer for. */
  lemma {:induction false} GrowKeeps(store: Storage, issued: map<nat, Key>, key: Key, o: Object, laterIssued: map<nat, Key>, limit: nat)
    requires StoreInv(store, issued, limit) && key !in store
    requires StillIssued(issued, laterIssued)
    requires forall v :: v in laterIssued ==> v in issued || laterIssued[v] == key
    requires ObjectOk(store[key := o], laterIssued, limit, key)
    ensures Extends(store, store[key := o])
    ensures StoreInv(store[key := o], laterIssued, limit)
  {
    var later := store[key := o];
    forall k | k in later ensures ObjectOk(later, laterIssued, limit, k) {
      if k != key {
        ObjectStaysOk(store, issued, later, laterIssued, limit, k);
      }
    }
  }

  // ------------------------------------------------------------- process invariant

  ghost predicate Admitted(content: Bytes, att: Attestation, limit: nat) {
    content == att.claims.digest && 0 < |content| == att.claims.byteSize <= limit
  }

  ghost predicate ProcessOk(store: Storage, issued: map<nat, Key>, p: Process, limit: nat) {
    match p
    case Allocating(content, att, principal) => Admitted(content, att, limit)
    case Storing(content, att, principal, a) =>
      Admitted(content, att, limit) && a.attestation == att && Allotted(store, issued, a)
    case Cataloguing(content, att, principal, a, v) =>
      && Admitted(content, att, limit) && a.attestation == att && Allotted(store, issued, a)
      && principal == att.claims.principalId
      && Key(Content, a.documentId, a.version) in store
      && store[Key(Content, a.documentId, a.version)] == Object(v, PdfBytes(content))
    case Ingested(m) =>
      && var key := KeyOf(m.reference, Documents);
      && key in store && store[key].payload.DocumentRecord? && store[key].payload.stored.metadata == m
    case Pinning(run, principal, grants, documents, entries) =>
      && |entries| <= |documents| && DistinctDocuments(documents)
      && (forall i :: 0 <= i < |documents| ==> documents[i].caseId == run.revision.caseId)
      && (forall i :: 0 <= i < |entries| ==> entries[i].document == documents[i] && EntryOk(store, entries[i]))
    case Pinned(run, snapshot) =>
      && Holds(store, SnapshotKey(run), SnapshotRecord(snapshot))
      && snapshot.runId == run.runId && snapshot.revision == run.revision
    case Ended => true
  }

  lemma {:induction false} ProcessStaysOk(store: Storage, issued: map<nat, Key>, later: Storage, laterIssued: map<nat, Key>, p: Process, limit: nat)
    requires Extends(store, later) && StillIssued(issued, laterIssued)
    requires ProcessOk(store, issued, p, limit)
    ensures ProcessOk(later, laterIssued, p, limit)
  {
  }

  ghost predicate Inv(sys: System, limit: nat) {
    && StoreInv(sys.store, sys.issued, limit)
    && forall i :: 0 <= i < |sys.processes| ==> ProcessOk(sys.store, sys.issued, sys.processes[i], limit)
  }

  // ----------------------------------------------------------- every write keeps it

  ghost predicate Good(store: Storage, issued: map<nat, Key>, p: Process, step: Step, limit: nat)
    requires step.Advance?
  {
    var (store', issued', p') := Move(store, issued, p, step, limit);
    && Extends(store, store') && StillIssued(issued, issued')
    && StoreInv(store', issued', limit) && ProcessOk(store', issued', p', limit)
  }

  lemma {:induction false} AllocateKeeps(store: Storage, issued: map<nat, Key>, p: Process, step: Step, limit: nat)
    requires step.Advance? && p.Allocating? && step.version !in issued
    requires StoreInv(store, issued, limit) && ProcessOk(store, issued, p, limit)
    ensures Good(store, issued, p, step, limit)
  {
    var a := Proposed(p.att, step.documentId, step.version, step.now);
    var key := ExportKey(p.att.claims);
    if key !in store {
      GrowKeeps(store, issued, key, Object(step.storageVersion, AllocationRecord(a)), issued[step.version := key], limit);
    }
  }

  lemma {:induction false} StoreContentKeeps(store: Storage, issued: map<nat, Key>, p: Process, step: Step, limit: nat)
    requires step.Advance? && p.Storing?
    requires StoreInv(store, issued, limit) && ProcessOk(store, issued, p, limit)
    ensures Good(store, issued, p, step, limit)
  {
    var m := MetadataOf(p.allocation, p.content, p.principal);
    var key := KeyOf(m.reference, Content);
    if Binds(m) && key !in store {
      GrowKeeps(store, issued, key, Object(step.storageVersion, PdfBytes(p.content)), issued, limit);
    }
  }

  lemma {:induction false} CatalogueKeeps(store: Storage, issued: map<nat, Key>, p: Process, step: Step, limit: nat)
    requires step.Advance? && p.Cataloguing?
    requires StoreInv(store, issued, limit) && ProcessOk(store, issued, p, limit)
    ensures Good(store, issued, p, step, limit)
  {
    var m := MetadataOf(p.allocation, p.content, p.principal);
    var key := KeyOf(m.reference, Documents);
    if key !in store {
      GrowKeeps(store, issued, key, Object(step.storageVersion, DocumentRecord(Stored(m, p.contentVersion))), issued, limit);
    }
  }

  lemma {:induction false} PinKeeps(store: Storage, issued: map<nat, Key>, p: Process, step: Step, limit: nat)
    requires step.Advance? && p.Pinning?
    requires StoreInv(store, issued, limit) && ProcessOk(store, issued, p, limit)
    ensures Good(store, issued, p, step, limit)
  {
    var key := SnapshotKey(p.run);
    if |p.entries| == |p.documents| && |p.entries| <= MAX_SNAPSHOT_DOCUMENTS && key !in store {
      var snapshot := Snapshot(p.run.runId, p.run.revision, step.now, p.principal, p.entries);
      GrowKeeps(store, issued, key, Object(step.storageVersion, SnapshotRecord(snapshot)), issued, limit);
    }
  }

  lemma {:induction false} MoveKeeps(store: Storage, issued: map<nat, Key>, p: Process, step: Step, limit: nat)
    requires step.Advance? && step.version !in issued
    requires StoreInv(store, issued, limit) && ProcessOk(store, issued, p, limit)
    ensures Good(store, issued, p, step, limit)
  {
    match p
    case Allocating(_, _, _) => AllocateKeeps(store, issued, p, step, limit);
    case Storing(_, _, _, _) => StoreContentKeeps(store, issued, p, step, limit);
    case Cataloguing(_, _, _, _, _) => CatalogueKeeps(store, issued, p, step, limit);
    case Pinning(_, _, _, _, _) => PinKeeps(store, issued, p, step, limit);
    case _ =>
  }

  /** The documents of a revision in document order: strictly increasing ids. */
  ghost predicate Increasing(documents: seq<Reference>) {
    forall i, j :: 0 <= i < j < |documents| ==> documents[i].documentId < documents[j].documentId
  }

  lemma {:induction false} InsertIncreasing(sorted: seq<Reference>, r: Reference)
    requires Increasing(sorted)
    requires forall i :: 0 <= i < |sorted| ==> sorted[i].documentId != r.documentId
    ensures Increasing(Insert(sorted, r))
  {
    if sorted != [] && sorted[|sorted| - 1].documentId > r.documentId {
      var front := sorted[..|sorted| - 1];
      InsertIncreasing(front, r);
      forall x | x in Insert(front, r) ensures x.documentId < sorted[|sorted| - 1].documentId {
        if x in front {
        }
      }
    }
  }

  lemma {:induction false} ByDocumentIncreasing(documents: seq<Reference>)
    requires DistinctDocuments(documents)
    ensures Increasing(ByDocument(documents))
  {
    if documents != [] {
      var front, last := documents[..|documents| - 1], documents[|documents| - 1];
      ByDocumentIncreasing(front);
      forall i | 0 <= i < |ByDocument(front)| ensures ByDocument(front)[i].documentId != last.documentId {
        assert ByDocument(front)[i] in front;
      }
      InsertIncreasing(ByDocument(front), last);
    }
  }

  lemma {:induction false} StartKeeps(sys: System, p: Process, limit: nat)
    requires Inv(sys, limit) && ProcessOk(sys.store, sys.issued, p, limit)
    ensures Inv(Start(sys, p), limit)
  {
  }

  lemma {:induction false} PinningStarts(sys: System, run: RunReference, revision: Revision, principal: nat, grants: set<Grant>, limit: nat)
    requires AdmitSnapshot(run, revision).None?
    ensures ProcessOk(sys.store, sys.issued, Pinning(run, principal, grants, ByDocument(revision.documents), []), limit)
  {
    ByDocumentIncreasing(revision.documents);
    forall i | 0 <= i < |ByDocument(revision.documents)|
      ensures ByDocument(revision.documents)[i].caseId == run.revision.caseId
    {
      assert ByDocument(revision.documents)[i] in revision.documents;
    }
  }

  /** Every step keeps the invariant and only adds to the storage. */
  lemma {:induction false} NextKeeps(sys: System, step: Step, limit: nat)
    requires Inv(sys, limit)
    ensures Inv(Next(sys, step, limit), limit)
    ensures Extends(sys.store, Next(sys, step, limit).store)
    ensures StillIssued(sys.issued, Next(sys, step, limit).issued)
  {
    match step
    case BeginIngest(content, att, principal, grants, verified) =>
      StartKeeps(sys, if Admit(sys.store, content, att, grants, verified, limit).None? then Allocating(content, att, principal) else Ended, limit);
    case Crash(_) =>
    case BeginSnapshot(run, revision, principal, grants) =>
      if AdmitSnapshot(run, revision).None? {
        PinningStarts(sys, run, revision, principal, grants, limit);
        StartKeeps(sys, Pinning(run, principal, grants, ByDocument(revision.documents), []), limit);
      } else {
        StartKeeps(sys, Ended, limit);
      }
    case Advance(i, _, version, _, _) =>
      if i < |sys.processes| && version !in sys.issued {
        MoveKeeps(sys.store, sys.issued, sys.processes[i], step, limit);
        AdvanceKeeps(sys, step, limit, Move(sys.store, sys.issued, sys.processes[i], step, limit));
      }
  }

  lemma {:induction false} AdvanceKeeps(sys: System, step: Step, limit: nat, moved: (Storage, map<nat, Key>, Process))
    requires Inv(sys, limit) && step.Advance? && step.i < |sys.processes|
    requires Extends(sys.store, moved.0) && StillIssued(sys.issued, moved.1)
    requires StoreInv(moved.0, moved.1, limit) && ProcessOk(moved.0, moved.1, moved.2, limit)
    ensures Inv(System(moved.0, moved.1, sys.processes[step.i := moved.2]), limit)
  {
    forall j | 0 <= j < |sys.processes| && j != step.i
      ensures ProcessOk(moved.0, moved.1, sys.processes[j], limit)
    {
      ProcessStaysOk(sys.store, sys.issued, moved.0, moved.1, sys.processes[j], limit);
    }
  }

  lemma {:induction false} ReachableInv(steps: seq<Step>, limit: nat)
    ensures Inv(After(steps, limit), limit)
  {
    if steps != [] {
      ReachableInv(steps[..|steps| - 1], limit);
      NextKeeps(After(steps[..|steps| - 1], limit), steps[|steps| - 1], limit);
    }
  }

  /** Nothing stored is ever changed or removed, by any later interleaving. */
  lemma {:induction false} StorageOnlyGrows(steps: seq<Step>, more: seq<Step>, limit: nat)
    ensures Extends(After(steps, limit).store, After(steps + more, limit).store)
  {
    if more == [] {
      assert steps + more == steps;
    } else {
      var front := more[..|more| - 1];
      StorageOnlyGrows(steps, front, limit);
      assert (steps + more)[..|steps + more| - 1] == steps + front;
      ReachableInv(steps + front, limit);
      NextKeeps(After(steps + front, limit), more[|more| - 1], limit);
    }
  }

  // ------------------------------------------------------------------ main results

  /** One export id yields one document: however the calls interleave, crash and retry, two
      that succeed for the same export return the same metadata. */
  lemma {:induction false} OneExportOneDocument(steps: seq<Step>, limit: nat, i: nat, j: nat)
    requires i < |After(steps, limit).processes| && j < |After(steps, limit).processes|
    requires After(steps, limit).processes[i].Ingested? && After(steps, limit).processes[j].Ingested?
    ensures
      var m, n := After(steps, limit).processes[i].metadata, After(steps, limit).processes[j].metadata;
      && (ExportKey(m.attestation.claims) == ExportKey(n.attestation.claims) <==> m == n)
      && (KeyOf(m.reference, Documents) == KeyOf(n.reference, Documents) <==> m == n)
  {
    ReachableInv(steps, limit);
  }

  ghost predicate Free(store: Storage, att: Attestation) {
    var key := ExportKey(att.claims);
    key in store ==> store[key].payload.AllocationRecord? && store[key].payload.allocation.attestation == att
  }

  /** Whatever happened before, a call that is left alone succeeds exactly when what it brings is
      vetted, its caller is the one attested, and its export id was not given to a
      different attestation: no crash of an earlier call can block a retry. It then returns
      what every earlier success for that attestation returned. */
  lemma {:induction false} RetryConverges(
    steps: seq<Step>, limit: nat, content: Bytes, att: Attestation, principal: nat, grants: set<Grant>, verified: bool, s: Supply)
    requires s.version !in After(steps, limit).issued
    ensures
      var store := After(steps, limit).store;
      var result := IngestCall(store, content, att, principal, grants, verified, limit, s).1;
      && (result.Ok? <==>
            && Vetted(store, content, att, grants, verified, limit)
            && principal == att.claims.principalId
            && Free(store, att))
      && (result.Ok? ==> forall p :: p in After(steps, limit).processes ==>
            (p.Ingested? && p.metadata.attestation == att ==> result.value == p.metadata))
  {
    ReachableInv(steps, limit);
    var sys := After(steps, limit);
    AdmittedExactly(sys.store, content, att, grants, verified, limit);
    if Admit(sys.store, content, att, grants, verified, limit).None? {
      WritesConverge(sys.store, sys.issued, limit, content, att, principal, s);
    }
  }

  /** The three writes against a storage that satisfies the invariant. */
  lemma {:induction false} WritesConverge(store: Storage, issued: map<nat, Key>, limit: nat, content: Bytes, att: Attestation, principal: nat, s: Supply)
    requires StoreInv(store, issued, limit) && Admitted(content, att, limit) && s.version !in issued
    ensures
      var key := ExportKey(att.claims);
      var result := Writes(store, content, att, principal, s).1;
      && (result.Ok? <==> principal == att.claims.principalId && Free(store, att))
      && (result.Ok? && key in store ==> result.value == MetadataOf(store[key].payload.allocation, content, principal))
  {
    var key := ExportKey(att.claims);
    var (s1, allocation) := Allocate(store, Proposed(att, s.documentId, s.version, s.now), s.v1);
    if allocation.Ok? {
      var issued' := if key in store then issued else issued[s.version := key];
      AllocateKeeps(store, issued, Allocating(content, att, principal), Advance(0, s.documentId, s.version, s.now, s.v1), limit);
      assert StoreInv(s1, issued', limit) && Allotted(s1, issued', allocation.value);
      CompletionConverges(s1, issued', limit, content, allocation.value, principal, s);
    }
  }

  lemma {:induction false} CompletionConverges(store: Storage, issued: map<nat, Key>, limit: nat, content: Bytes, a: Allocation, principal: nat, s: Supply)
    requires StoreInv(store, issued, limit) && Admitted(content, a.attestation, limit) && Allotted(store, issued, a)
    ensures
      var m := MetadataOf(a, content, principal);
      var (s2, version) := StoreContent(store, m, content, s.v2);
      && (version.Ok? <==> principal == a.attestation.claims.principalId)
      && (version.Ok? ==> Catalogue(s2, m, version.value, s.v3).1 == Ok(m))
  {
    var m := MetadataOf(a, content, principal);
    var key, record := KeyOf(m.reference, Content), KeyOf(m.reference, Documents);
    if key in store {
      assert ObjectOk(store, issued, limit, key);
    }
    if record in store {
      assert ObjectOk(store, issued, limit, record);
    }
  }

  /** A successful ingest can be read back for ever, and always as the attested bytes; what it
      returned binds the attestation's case, digest, purpose, size and principal, and a successor
      keeps its predecessor's document id. */
  lemma {:induction false} IngestedIsReadable(steps: seq<Step>, more: seq<Step>, limit: nat, i: nat, grants: set<Grant>)
    requires i < |After(steps, limit).processes| && After(steps, limit).processes[i].Ingested?
    ensures
      var m := After(steps, limit).processes[i].metadata;
      Grant(m.reference.caseId, m.reference.purpose) in grants ==>
        Read(After(steps + more, limit).store, m.reference, grants, limit) == Ok(Document(m, m.attestation.claims.digest))
    ensures
      var m := After(steps, limit).processes[i].metadata;
      var c := m.attestation.claims;
      && m.reference.caseId == c.caseId && m.reference.contentHash == c.digest && m.reference.purpose == c.purpose
      && m.uploadedBy == c.principalId && m.byteSize == c.byteSize == |c.digest| > 0
      && (m.attestation.claims.previous.Some? ==> m.reference.documentId == m.attestation.claims.previous.value.documentId)
  {
    ReachableInv(steps, limit);
    ReachableInv(steps + more, limit);
    StorageOnlyGrows(steps, more, limit);
    var m := After(steps, limit).processes[i].metadata;
    assert ObjectOk(After(steps + more, limit).store, After(steps + more, limit).issued, limit, KeyOf(m.reference, Documents));
  }

  lemma {:induction false} EntryIsFound(entries: seq<SnapshotEntry>, i: nat)
    requires i < |entries|
    requires forall a, b :: 0 <= a < b < |entries| ==> entries[a].document != entries[b].document
    ensures EntriesFor(entries, entries[i].document) == [entries[i]]
  {
    var n := |entries| - 1;
    if i < n {
      EntryIsFound(entries[..n], i);
    } else {
      NoEntry(entries[..n], entries[n].document);
    }
  }

  lemma {:induction false} NoEntry(entries: seq<SnapshotEntry>, r: Reference)
    requires forall a :: 0 <= a < |entries| ==> entries[a].document != r
    ensures EntriesFor(entries, r) == []
  {
    if entries != [] {
      NoEntry(entries[..|entries| - 1], r);
    }
  }

  /** A snapshot that was returned pins its sources: every document in it can be read through
      the snapshot in every later state, always with the bytes its reference names. */
  lemma {:induction false} PinnedForEver(steps: seq<Step>, more: seq<Step>, limit: nat, i: nat, e: nat, grants: set<Grant>)
    requires i < |After(steps, limit).processes| && After(steps, limit).processes[i].Pinned?
    requires e < |After(steps, limit).processes[i].snapshot.documents|
    ensures
      var p := After(steps, limit).processes[i];
      var entry := p.snapshot.documents[e];
      Grant(entry.document.caseId, entry.document.purpose) in grants ==>
        ReadSnapshot(After(steps + more, limit).store, p.run, entry.document, grants, limit)
          == Ok(Document(entry.stored.metadata, entry.document.contentHash))
  {
    ReachableInv(steps, limit);
    ReachableInv(steps + more, limit);
    StorageOnlyGrows(steps, more, limit);
    var p, later := After(steps, limit).processes[i], After(steps + more, limit);
    assert ObjectOk(later.store, later.issued, limit, SnapshotKey(p.run));
    EntryIsFound(p.snapshot.documents, e);
    assert EntryOk(later.store, p.snapshot.documents[e]);
    assert ObjectOk(later.store, later.issued, limit, KeyOf(p.snapshot.documents[e].document, Documents));
  }

  /** A snapshot read that succeeded once returns the same bytes in every later state. */
  lemma {:induction false} SnapshotReadsNeverChange(steps: seq<Step>, more: seq<Step>, limit: nat, run: RunReference, r: Reference, grants: set<Grant>)
    requires ReadSnapshot(After(steps, limit).store, run, r, grants, limit).Ok?
    ensures ReadSnapshot(After(steps + more, limit).store, run, r, grants, limit)
         == ReadSnapshot(After(steps, limit).store, run, r, grants, limit)
  {
    StorageOnlyGrows(steps, more, limit);
  }

  /** A run has at most one snapshot: two calls that succeed return the very same one. */
  lemma {:induction false} OneSnapshotPerRun(steps: seq<Step>, limit: nat, i: nat, j: nat)
    requires i < |After(steps, limit).processes| && j < |After(steps, limit).processes|
    requires After(steps, limit).processes[i].Pinned? && After(steps, limit).processes[j].Pinned?
    requires SnapshotKey(After(steps, limit).processes[i].run) == SnapshotKey(After(steps, limit).processes[j].run)
    ensures After(steps, limit).processes[i].snapshot == After(steps, limit).processes[j].snapshot
    ensures After(steps, limit).processes[i].run == After(steps, limit).processes[j].run
  {
    ReachableInv(steps, limit);
  }

  /** The order in which a revision lists its documents does not reach the snapshot. */
  lemma {:induction false} OrderDoesNotMatter(a: seq<Reference>, b: seq<Reference>)
    requires DistinctDocuments(a) && DistinctDocuments(b)
    requires forall x :: x in a <==> x in b
    ensures ByDocument(a) == ByDocument(b)
  {
    ByDocumentIncreasing(a);
    ByDocumentIncreasing(b);
    IncreasingIsUnique(ByDocument(a), ByDocument(b));
  }

  lemma {:induction false} IncreasingIsUnique(a: seq<Reference>, b: seq<Reference>)
    requires Increasing(a) && Increasing(b) && forall x :: x in a <==> x in b
    ensures a == b
  {
    assert |a| > 0 ==> a[0] in b;
    assert |b| > 0 ==> b[0] in a;
    if a != [] {
      var m, n := |a| - 1, |b| - 1;
      assert a[m] in b && b[n] in a;
      assert a[m] == b[n];
      forall x ensures x in a[..m] <==> x in b[..n] {
        if x in a[..m] {
          assert x in b && x != b[n];
        }
        if x in b[..n] {
          assert x in a && x != a[m];
        }
      }
      IncreasingIsUnique(a[..m], b[..n]);
    }
  }
}
