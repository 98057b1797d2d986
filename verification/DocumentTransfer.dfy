/**
 Sanitized document ingestion and run snapshots over create-once storage
 (`application/document_transfer.py`, `adapters/local/document_storage.py`).

 A digest is the digested value itself, so equal digests mean equal values. What the
 authorization and signature ports answer is a parameter of each operation.
 */
module DocumentTransfer {
  import opened Common

  type Bytes = string

  datatype Purpose = Criteria | Forms | ReferenceMaterial | Brief | Template

  datatype Reference = Reference(caseId: nat, documentId: nat, version: nat, contentHash: Bytes, purpose: Purpose)

  datatype Claims = Claims(
    exportId: nat, principalId: nat, caseId: nat, digest: Bytes, byteSize: nat, pages: nat,
    purpose: Purpose, previous: Option<Reference>)

  datatype Attestation = Attestation(claims: Claims, signature: nat)

  datatype Allocation = Allocation(documentId: nat, version: nat, attestation: Attestation, createdAt: int)

  datatype Metadata = Metadata(
    reference: Reference, attestation: Attestation, uploadedBy: nat, createdAt: int, byteSize: nat)

  datatype Stored = Stored(metadata: Metadata, storageVersion: nat)

  datatype RevisionReference = RevisionReference(caseId: nat, revisionId: nat, materialDigest: nat)

  datatype Revision = Revision(reference: RevisionReference, documents: seq<Reference>)

  datatype RunReference = RunReference(runId: nat, revision: RevisionReference)

  datatype SnapshotEntry = SnapshotEntry(document: Reference, stored: Stored, pageCount: nat)

  datatype Snapshot = Snapshot(
    runId: nat, revision: RevisionReference, createdAt: int, createdBy: nat, documents: seq<SnapshotEntry>)

  datatype Kind = Exports | Content | Documents | Snapshots

  datatype Key = Key(kind: Kind, scope: nat, identity: nat)

  datatype Payload =
    | AllocationRecord(allocation: Allocation)
    | PdfBytes(bytes: Bytes)
    | DocumentRecord(stored: Stored)
    | SnapshotRecord(snapshot: Snapshot)

  datatype Object = Object(version: nat, payload: Payload)

  type Storage = map<Key, Object>

  datatype Fault =
    | Invalid | Unauthorized | Privacy | TooLarge | NotPdf | NotFound | Conflict | Integrity | Unavailable

  datatype Grant = Grant(caseId: nat, purpose: Purpose)

  datatype Document = Document(metadata: Metadata, content: Bytes)

  const MAX_SNAPSHOT_DOCUMENTS := 100

  // ------------------------------------------------------------------- storage

  /** Atomic create-if-absent. */
  function Create(store: Storage, key: Key, version: nat, payload: Payload): (Storage, Result<nat, Fault>) {
    if key in store then (store, Err(Conflict)) else (store[key := Object(version, payload)], Ok(version))
  }

  function Lookup(store: Storage, key: Key): Result<Object, Fault> {
    if key in store then Ok(store[key]) else Err(NotFound)
  }

  /** `_create_once`: an identical object already there is as good as a new one. */
  function CreateOnce(store: Storage, key: Key, version: nat, payload: Payload): (Storage, Result<nat, Fault>) {
    if key !in store then Create(store, key, version, payload)
    else if store[key].payload == payload then (store, Ok(store[key].version))
    else if payload.PdfBytes? && store[key].payload.PdfBytes? && |store[key].payload.bytes| > Max(|payload.bytes|, 1)
    then (store, Err(TooLarge))
    else (store, Err(Conflict))
  }

  // -------------------------------------------------------------------- ingest

  function ExportKey(c: Claims): Key {
    Key(Exports, c.caseId, c.exportId)
  }

  function KeyOf(r: Reference, kind: Kind): Key {
    Key(kind, r.documentId, r.version)
  }

  predicate Space(c: char) {
    c == ' ' || c == '\t' || c == '\n' || c == '\r' || c == 11 as char || c == 12 as char
  }

  function TrimRight(s: Bytes): Bytes {
    if s != [] && Space(s[|s| - 1]) then TrimRight(s[..|s| - 1]) else s
  }

  predicate IsPdf(s: Bytes) {
    var t := TrimRight(s);
    "%PDF-" <= s && |t| >= 5 && t[|t| - 5..] == "%%EOF"
  }

  function Resolve(store: Storage, r: Reference, grants: set<Grant>): Result<Stored, Fault> {
    if Grant(r.caseId, r.purpose) !in grants then Err(Unauthorized)
    else
      match Lookup(store, KeyOf(r, Documents))
      case Err(f) => Err(f)
      case Ok(o) =>
        if !o.payload.DocumentRecord? then Err(Unavailable)
        else if o.payload.stored.metadata.reference != r then Err(Integrity)
        else Ok(o.payload.stored)
  }

  /** Everything `ingest` checks before its first write. */
  function Admit(store: Storage, content: Bytes, att: Attestation, grants: set<Grant>, verified: bool, limit: nat)
    : Option<Fault>
  {
    var c := att.claims;
    if Grant(c.caseId, c.purpose) !in grants then Some(Unauthorized)
    else if !verified then Some(Privacy)
    else if |content| > limit then Some(TooLarge)
    else if |content| != c.byteSize || content != c.digest then Some(Integrity)
    else if !IsPdf(content) then Some(NotPdf)
    else if c.previous.Some? && Resolve(store, c.previous.value, grants).Err?
    then Some(Resolve(store, c.previous.value, grants).error)
    else None
  }

  /** The catalogue has the document under exactly this reference. */
  predicate Catalogued(store: Storage, r: Reference) {
    var key := Key(Documents, r.documentId, r.version);
    key in store && store[key].payload.DocumentRecord? && store[key].payload.stored.metadata.reference == r
  }

  predicate White(c: char) {
    c in {' ', '\t', '\n', '\r', 11 as char, 12 as char}
  }

  /** Starts with a PDF header and ends with the end marker, blanks aside. */
  ghost predicate LooksLikePdf(s: Bytes) {
    |s| >= 5 && s[..5] == "%PDF-" && exists k: nat :: EndsAt(s, k)
  }

  predicate EndsAt(s: Bytes, k: nat) {
    k + 5 <= |s| && s[k..k + 5] == "%%EOF" && forall i :: k + 5 <= i < |s| ==> White(s[i])
  }

  /** What a document must be to be taken in: allowed to the caller, signed, within the limit,
      exactly the attested bytes, a PDF, and a successor only of something catalogued. */
  ghost predicate Vetted(store: Storage, content: Bytes, att: Attestation, grants: set<Grant>, verified: bool, limit: nat) {
    var c := att.claims;
    && verified
    && Grant(c.caseId, c.purpose) in grants
    && |content| <= limit && |content| == c.byteSize && content == c.digest
    && LooksLikePdf(content)
    && (c.previous.Some? ==>
          Grant(c.previous.value.caseId, c.previous.value.purpose) in grants && Catalogued(store, c.previous.value))
  }

  lemma {:induction false} TrimmedAt(s: Bytes) returns (k: nat)
    ensures k <= |s| && TrimRight(s) == s[..k]
    ensures forall i :: k <= i < |s| ==> White(s[i])
    ensures k > 0 ==> !White(s[k - 1])
  {
    if s != [] && Space(s[|s| - 1]) {
      k := TrimmedAt(s[..|s| - 1]);
      forall i | k <= i < |s| ensures White(s[i]) {
        assert i < |s| - 1 ==> s[..|s| - 1][i] == s[i];
      }
    } else {
      k := |s|;
      assert s[..k] == s;
    }
  }

  lemma {:induction false} IsPdfExactly(s: Bytes)
    ensures IsPdf(s) <==> LooksLikePdf(s)
  {
    var k := TrimmedAt(s);
    assert "%PDF-" <= s <==> |s| >= 5 && s[..5] == "%PDF-";
    if IsPdf(s) {
      assert s[..k][k - 5..] == s[k - 5..k - 5 + 5];
      assert EndsAt(s, k - 5);
    }
    if LooksLikePdf(s) {
      var j: nat :| EndsAt(s, j);
      assert s[j..j + 5][4] == s[j + 4] == 'F';
      assert j + 4 < k && k == j + 5;
      assert s[..k][k - 5..] == s[j..j + 5];
    }
  }

  /** The admission checks pass exactly for vetted content. */
  lemma {:induction false} AdmittedExactly(store: Storage, content: Bytes, att: Attestation, grants: set<Grant>, verified: bool, limit: nat)
    ensures Admit(store, content, att, grants, verified, limit).None? <==> Vetted(store, content, att, grants, verified, limit)
  {
    IsPdfExactly(content);
  }

  /** A successor keeps its predecessor's document id. */
  function Proposed(att: Attestation, documentId: nat, version: nat, now: int): Allocation {
    var previous := att.claims.previous;
    Allocation(if previous.Some? then previous.value.documentId else documentId, version, att, now)
  }

  /** First write: the export id is given to whoever creates its allocation. */
  function Allocate(store: Storage, proposed: Allocation, storageVersion: nat): (Storage, Result<Allocation, Fault>) {
    var key := ExportKey(proposed.attestation.claims);
    if key !in store then (store[key := Object(storageVersion, AllocationRecord(proposed))], Ok(proposed))
    else if !store[key].payload.AllocationRecord? then (store, Err(Unavailable))
    else if store[key].payload.allocation.attestation != proposed.attestation then (store, Err(Conflict))
    else (store, Ok(store[key].payload.allocation))
  }

  function ReferenceOf(a: Allocation, content: Bytes): Reference {
    var c := a.attestation.claims;
    Reference(c.caseId, a.documentId, a.version, content, c.purpose)
  }

  function MetadataOf(a: Allocation, content: Bytes, principal: nat): Metadata {
    Metadata(ReferenceOf(a, content), a.attestation, principal, a.createdAt, |content|)
  }

  /** The metadata model's own validation. */
  predicate Binds(m: Metadata) {
    var c := m.attestation.claims;
    && m.reference.caseId == c.caseId
    && m.reference.contentHash == c.digest
    && m.reference.purpose == c.purpose
    && m.uploadedBy == c.principalId
    && m.byteSize == c.byteSize
    && m.byteSize > 0
  }

  /** Second write. */
  function StoreContent(store: Storage, m: Metadata, content: Bytes, storageVersion: nat): (Storage, Result<nat, Fault>) {
    if !Binds(m) then (store, Err(Unavailable))
    else CreateOnce(store, KeyOf(m.reference, Content), storageVersion, PdfBytes(content))
  }

  /** Third write. */
  function Catalogue(store: Storage, m: Metadata, contentVersion: nat, storageVersion: nat): (Storage, Result<Metadata, Fault>) {
    var record := DocumentRecord(Stored(m, contentVersion));
    var (after, r) := CreateOnce(store, KeyOf(m.reference, Documents), storageVersion, record);
    (after, if r.Ok? then Ok(m) else Err(r.error))
  }

  /** What one `ingest` call brings from outside: fresh ids and the clock. */
  datatype Supply = Supply(documentId: nat, version: nat, now: int, v1: nat, v2: nat, v3: nat)

  /** The three writes in sequence, as one undisturbed call makes them. */
  function Writes(store: Storage, content: Bytes, att: Attestation, principal: nat, s: Supply)
    : (Storage, Result<Metadata, Fault>)
  {
    var (s1, allocation) := Allocate(store, Proposed(att, s.documentId, s.version, s.now), s.v1);
    if allocation.Err? then (s1, Err(allocation.error))
    else
      var m := MetadataOf(allocation.value, content, principal);
      var (s2, version) := StoreContent(s1, m, content, s.v2);
      if version.Err? then (s2, Err(version.error)) else Catalogue(s2, m, version.value, s.v3)
  }

  function IngestCall(store: Storage, content: Bytes, att: Attestation, principal: nat,
                      grants: set<Grant>, verified: bool, limit: nat, s: Supply): (Storage, Result<Metadata, Fault>)
  {
    match Admit(store, content, att, grants, verified, limit)
    case Some(f) => (store, Err(f))
    case None => Writes(store, content, att, principal, s)
  }

  // --------------------------------------------------------- reads and snapshots

  /** `_read`. */
  function ReadStored(store: Storage, stored: Stored, limit: nat): Result<Document, Fault> {
    var m := stored.metadata;
    match Lookup(store, KeyOf(m.reference, Content))
    case Err(f) => Err(f)
    case Ok(o) =>
      if o.version != stored.storageVersion then Err(NotFound)
      else if !o.payload.PdfBytes? then Err(Unavailable)
      else if |o.payload.bytes| > limit then Err(TooLarge)
      else if |o.payload.bytes| != m.byteSize || o.payload.bytes != m.reference.contentHash then Err(Integrity)
      else Ok(Document(m, o.payload.bytes))
  }

  function Read(store: Storage, r: Reference, grants: set<Grant>, limit: nat): Result<Document, Fault> {
    match Resolve(store, r, grants)
    case Err(f) => Err(f)
    case Ok(stored) => ReadStored(store, stored, limit)
  }

  /** One entry of a snapshot: resolved, and its bytes really there. */
  function Pin(store: Storage, r: Reference, grants: set<Grant>, limit: nat): Result<SnapshotEntry, Fault> {
    match Resolve(store, r, grants)
    case Err(f) => Err(f)
    case Ok(stored) =>
      match ReadStored(store, stored, limit)
      case Err(f) => Err(f)
      case Ok(_) => Ok(SnapshotEntry(r, stored, stored.metadata.attestation.claims.pages))
  }

  function PinAll(store: Storage, documents: seq<Reference>, grants: set<Grant>, limit: nat): Result<seq<SnapshotEntry>, Fault> {
    if documents == [] then Ok([])
    else
      match PinAll(store, documents[..|documents| - 1], grants, limit)
      case Err(f) => Err(f)
      case Ok(entries) =>
        match Pin(store, documents[|documents| - 1], grants, limit)
        case Err(f) => Err(f)
        case Ok(e) => Ok(entries + [e])
  }

  function Insert(sorted: seq<Reference>, r: Reference): (out: seq<Reference>)
    ensures |out| == |sorted| + 1
    ensures forall x :: x in out <==> x == r || x in sorted
  {
    if sorted == [] || sorted[|sorted| - 1].documentId <= r.documentId then sorted + [r]
    else
      assert sorted == sorted[..|sorted| - 1] + [sorted[|sorted| - 1]];
      Insert(sorted[..|sorted| - 1], r) + [sorted[|sorted| - 1]]
  }

  /** Stable sort on the document id. */
  function ByDocument(documents: seq<Reference>): (out: seq<Reference>)
    ensures |out| == |documents|
    ensures forall x :: x in out <==> x in documents
  {
    if documents == [] then []
    else
      assert documents == documents[..|documents| - 1] + [documents[|documents| - 1]];
      Insert(ByDocument(documents[..|documents| - 1]), documents[|documents| - 1])
  }

  predicate DistinctDocuments(documents: seq<Reference>) {
    forall i, j :: 0 <= i < j < |documents| ==> documents[i].documentId != documents[j].documentId
  }

  /** The revision model's own validation. */
  predicate ValidRevision(r: Revision) {
    && |r.documents| >= 2
    && DistinctDocuments(r.documents)
    && forall i :: 0 <= i < |r.documents| ==> r.documents[i].caseId == r.reference.caseId
  }

  function AdmitSnapshot(run: RunReference, revision: Revision): Option<Fault> {
    if !ValidRevision(revision) then Some(Invalid)
    else if run.revision != revision.reference then Some(Conflict)
    else None
  }

  function SnapshotKey(run: RunReference): Key {
    Key(Snapshots, run.revision.caseId, run.runId)
  }

  /** The last step of `create_snapshot`: the first snapshot of a run stays its only one. */
  function Publish(store: Storage, run: RunReference, entries: seq<SnapshotEntry>, principal: nat, now: int, storageVersion: nat)
    : (Storage, Result<Snapshot, Fault>)
  {
    var snapshot := Snapshot(run.runId, run.revision, now, principal, entries);
    var key := SnapshotKey(run);
    if |entries| > MAX_SNAPSHOT_DOCUMENTS then (store, Err(Unavailable))
    else if key !in store then (store[key := Object(storageVersion, SnapshotRecord(snapshot))], Ok(snapshot))
    else if !store[key].payload.SnapshotRecord? then (store, Err(Unavailable))
    else
      var existing := store[key].payload.snapshot;
      if existing.runId != run.runId || existing.revision != run.revision
         || existing.documents != entries || existing.createdBy != principal
      then (store, Err(Conflict)) else (store, Ok(existing))
  }

  function CreateSnapshot(store: Storage, run: RunReference, revision: Revision, principal: nat,
                          grants: set<Grant>, limit: nat, now: int, storageVersion: nat): (Storage, Result<Snapshot, Fault>)
  {
    match AdmitSnapshot(run, revision)
    case Some(f) => (store, Err(f))
    case None =>
      match PinAll(store, ByDocument(revision.documents), grants, limit)
      case Err(f) => (store, Err(f))
      case Ok(entries) => Publish(store, run, entries, principal, now, storageVersion)
  }

  function EntriesFor(entries: seq<SnapshotEntry>, r: Reference): seq<SnapshotEntry> {
    if entries == [] then []
    else
      var rest, last := EntriesFor(entries[..|entries| - 1], r), entries[|entries| - 1];
      if last.document == r then rest + [last] else rest
  }

  function ReadSnapshot(store: Storage, run: RunReference, r: Reference, grants: set<Grant>, limit: nat)
    : Result<Document, Fault>
  {
    if run.revision.caseId != r.caseId then Err(Unauthorized)
    else if Grant(r.caseId, r.purpose) !in grants then Err(Unauthorized)
    else
      match Lookup(store, SnapshotKey(run))
      case Err(f) => Err(f)
      case Ok(o) =>
        if !o.payload.SnapshotRecord? then Err(Unavailable)
        else
          var snapshot := o.payload.snapshot;
          var found := EntriesFor(snapshot.documents, r);
          if snapshot.runId != run.runId || snapshot.revision != run.revision then Err(Conflict)
          else if |found| != 1 then Err(Unauthorized)
          else
            match Resolve(store, r, grants)
            case Err(f) => Err(f)
            case Ok(stored) => if stored != found[0].stored then Err(Integrity) else ReadStored(store, stored, limit)
  }

  // ------------------------------------------------------------------- the service

  datatype Operation = IngestOperation | SnapshotOperation | ReadOperation

  datatype AuditEvent = AuditEvent(operation: Operation, caseId: nat, code: Option<Fault>)

  /** What the caller sees when the audit record of a finished operation could not be written. */
  function Audited<T>(r: Result<T, Fault>, written: bool): Result<T, Fault> {
    if written then r else Err(Unavailable)
  }

  function Trail<T>(trail: seq<AuditEvent>, operation: Operation, caseId: nat, r: Result<T, Fault>, written: bool): seq<AuditEvent> {
    if written then trail + [AuditEvent(operation, caseId, if r.Ok? then None else Some(r.error))] else trail
  }

  /** One more event, with what the caller was told. */
  predicate Records(before: seq<AuditEvent>, after: seq<AuditEvent>, operation: Operation, caseId: nat, code: Option<Fault>) {
    after == before + [AuditEvent(operation, caseId, code)]
  }

  /** `DocumentTransferService` over its own storage and audit trail. */
  class Service {
    const limit: nat
    var store: Storage
    var trail: seq<AuditEvent>

    constructor (maxPdfBytes: nat)
      ensures store == map[] && trail == [] && limit == maxPdfBytes
    {
      limit := maxPdfBytes;
      store := map[];
      trail := [];
    }

    method CreateIdempotently(key: Key, version: nat, payload: Payload) returns (r: Result<nat, Fault>)
      modifies this`store
      ensures (store, r) == CreateOnce(old(store), key, version, payload)
    {
      var (after, created) := Create(store, key, version, payload);
      if created.Ok? {
        store := after;
        return created;
      }
      var existing := store[key];
      if payload.PdfBytes? && existing.payload.PdfBytes? && |existing.payload.bytes| > Max(|payload.bytes|, 1) {
        return Err(TooLarge);
      }
      if existing.payload != payload {
        return Err(Conflict);
      }
      r := Ok(existing.version);
    }

    method WriteAll(content: Bytes, att: Attestation, principal: nat, s: Supply) returns (r: Result<Metadata, Fault>)
      modifies this`store
      ensures (store, r) == Writes(old(store), content, att, principal, s)
    {
      var (after, allocation) := Allocate(store, Proposed(att, s.documentId, s.version, s.now), s.v1);
      store := after;
      if allocation.Err? {
        return Err(allocation.error);
      }
      var m := MetadataOf(allocation.value, content, principal);
      if !Binds(m) {
        return Err(Unavailable);
      }
      var version := CreateIdempotently(KeyOf(m.reference, Content), s.v2, PdfBytes(content));
      if version.Err? {
        return Err(version.error);
      }
      var recorded := CreateIdempotently(KeyOf(m.reference, Documents), s.v3, DocumentRecord(Stored(m, version.value)));
      r := if recorded.Ok? then Ok(m) else Err(recorded.error);
    }

    /** The writes stand even when the audit record fails and the caller is told so. */
    method Ingest(content: Bytes, att: Attestation, principal: nat, grants: set<Grant>, verified: bool, s: Supply, written: bool)
      returns (r: Result<Metadata, Fault>)
      modifies this
      ensures
        var (after, result) := IngestCall(old(store), content, att, principal, grants, verified, limit, s);
        && store == after
        && r == Audited(result, written)
        && trail == Trail(old(trail), IngestOperation, att.claims.caseId, result, written)
      ensures if written then Records(old(trail), trail, IngestOperation, att.claims.caseId, if r.Ok? then None else Some(r.error))
              else r == Err(Unavailable) && trail == old(trail)
      ensures !Vetted(old(store), content, att, grants, verified, limit) ==> r.Err? && store == old(store)
      ensures r.Ok? ==>
                && written && principal == att.claims.principalId
                && r.value.attestation == att && r.value.uploadedBy == principal && r.value.reference.contentHash == content
                && Catalogued(store, r.value.reference)
    {
      AdmittedExactly(store, content, att, grants, verified, limit);
      var refused := Admit(store, content, att, grants, verified, limit);
      var result: Result<Metadata, Fault>;
      if refused.Some? {
        result := Err(refused.value);
      } else {
        result := WriteAll(content, att, principal, s);
      }
      trail := Trail(trail, IngestOperation, att.claims.caseId, result, written);
      r := Audited(result, written);
    }

    /** The loop of `create_snapshot`. */
    method PinDocuments(documents: seq<Reference>, grants: set<Grant>) returns (r: Result<seq<SnapshotEntry>, Fault>)
      ensures r == PinAll(store, documents, grants, limit)
    {
      var entries := [];
      for i := 0 to |documents|
        invariant PinAll(store, documents[..i], grants, limit) == Ok(entries)
      {
        assert documents[..i + 1][..i] == documents[..i];
        var e := Pin(store, documents[i], grants, limit);
        if e.Err? {
          PinAllFails(store, documents, grants, limit, i + 1);
          return Err(e.error);
        }
        entries := entries + [e.value];
      }
      assert documents[..|documents|] == documents;
      r := Ok(entries);
    }

    method SnapshotRun(run: RunReference, revision: Revision, principal: nat, grants: set<Grant>, now: int, storageVersion: nat, written: bool)
      returns (r: Result<Snapshot, Fault>)
      modifies this
      ensures
        var (after, result) := CreateSnapshot(old(store), run, revision, principal, grants, limit, now, storageVersion);
        && store == after
        && r == Audited(result, written)
        && trail == Trail(old(trail), SnapshotOperation, run.revision.caseId, result, written)
      ensures if written then Records(old(trail), trail, SnapshotOperation, run.revision.caseId, if r.Ok? then None else Some(r.error))
              else r == Err(Unavailable) && trail == old(trail)
    {
      var result: Result<Snapshot, Fault>;
      var refused := AdmitSnapshot(run, revision);
      if refused.Some? {
        result := Err(refused.value);
      } else {
        var entries := PinDocuments(ByDocument(revision.documents), grants);
        if entries.Err? {
          result := Err(entries.error);
        } else {
          var (after, published) := Publish(store, run, entries.value, principal, now, storageVersion);
          store := after;
          result := published;
        }
      }
      trail := Trail(trail, SnapshotOperation, run.revision.caseId, result, written);
      r := Audited(result, written);
    }

    /** The comprehension of `read_snapshot`. */
    method MatchingEntries(entries: seq<SnapshotEntry>, reference: Reference) returns (found: seq<SnapshotEntry>)
      ensures found == EntriesFor(entries, reference)
    {
      found := [];
      for i := 0 to |entries|
        invariant found == EntriesFor(entries[..i], reference)
      {
        assert entries[..i + 1][..i] == entries[..i];
        if entries[i].document == reference {
          found := found + [entries[i]];
        }
      }
      assert entries[..|entries|] == entries;
    }

    method ReadPinned(run: RunReference, reference: Reference, grants: set<Grant>, written: bool) returns (r: Result<Document, Fault>)
      modifies this`trail
      ensures
        var result := ReadSnapshot(store, run, reference, grants, limit);
        && r == Audited(result, written)
        && trail == Trail(old(trail), ReadOperation, run.revision.caseId, result, written)
      ensures if written then Records(old(trail), trail, ReadOperation, run.revision.caseId, if r.Ok? then None else Some(r.error))
              else r == Err(Unavailable) && trail == old(trail)
    {
      var result := FindPinned(run, reference, grants);
      trail := Trail(trail, ReadOperation, run.revision.caseId, result, written);
      r := Audited(result, written);
    }

    method FindPinned(run: RunReference, reference: Reference, grants: set<Grant>) returns (r: Result<Document, Fault>)
      ensures r == ReadSnapshot(store, run, reference, grants, limit)
    {
      if run.revision.caseId != reference.caseId || Grant(reference.caseId, reference.purpose) !in grants {
        return Err(Unauthorized);
      }
      var key := SnapshotKey(run);
      if key !in store {
        return Err(NotFound);
      }
      if !store[key].payload.SnapshotRecord? {
        return Err(Unavailable);
      }
      var snapshot := store[key].payload.snapshot;
      if snapshot.runId != run.runId || snapshot.revision != run.revision {
        return Err(Conflict);
      }
      var found := MatchingEntries(snapshot.documents, reference);
      if |found| != 1 {
        return Err(Unauthorized);
      }
      var stored := Resolve(store, reference, grants);
      if stored.Err? {
        return Err(stored.error);
      }
      if stored.value != found[0].stored {
        return Err(Integrity);
      }
      r := ReadStored(store, stored.value, limit);
    }
  }

  /** The first document that cannot be pinned decides the whole result. */
  lemma {:induction false} PinAllFails(store: Storage, documents: seq<Reference>, grants: set<Grant>, limit: nat, k: nat)
    requires k <= |documents| && PinAll(store, documents[..k], grants, limit).Err?
    ensures PinAll(store, documents, grants, limit) == PinAll(store, documents[..k], grants, limit)
  {
    if k == |documents| {
      assert documents[..k] == documents;
    } else {
      var front := documents[..|documents| - 1];
      assert front[..k] == documents[..k];
      PinAllFails(store, front, grants, limit, k);
    }
  }
}
