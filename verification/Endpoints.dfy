// What one request does, told of messages, rows, blobs and uploads alone.
module Endpoints {
  import opened Wrappers
  import opened Hex
  import opened Base64
  import opened Parts
  import opened Attempts
  import opened ObjectStore
  import opened Database
  import opened Intake
  import opened Uploads
  import opened ImageStore
  import opened Conditions
  import opened Requests
  import opened Protocol
  import opened ProtocolRuns
  import opened Replies

  /* ---------- rows ---------- */

  // A row that a statement has just inserted.
  lemma InsertedFields(t: Table, now: int, c: SetClause, p: Proposal, id: int, r: Row)
    requires Settled(t, now, c, p, id, r) && id !in t.rows
    ensures r.sha == p.sha && r.lot == p.lot && r.fileSize == p.fileSize && r.fileName == p.fileName && r.storageKey == p.storageKey
    ensures r.uploadType == p.uploadType && r.uploadId == p.uploadId && r.partSize == p.partSize
    ensures r.state == Pending && r.version == 0 && r.validUntil == Some(now + 5 * 24 * 60 * 60 * 1000000)
    ensures p.uploadType.SingleUpload? ==> r.partCount == None
    ensures p.uploadType.MultiUpload? && p.partSize == Some(10485760) && p.fileSize > 0 ==>
              r.partCount == Some((p.fileSize + 10485759) / 10485760)
  {
  }

  // The row that a single file of digest sha gets, and keeps while nobody uploads it otherwise.
  ghost predicate IsSingleRow(r: Row, sha: Bytes, lot: Uuid, f: UploadFile, now: int) {
    && r.sha == sha && r.lot == lot && r.fileSize == f.fileSize && r.fileName == f.fileName
    && r.uploadType == SingleUpload && r.uploadId == None && r.partSize == None && r.partCount == None
    && r.state == Pending && r.version == 0 && r.validUntil == Some(now + 5 * 24 * 60 * 60 * 1000000)
  }

  // The multipart statement of a request touches no row without an upload.
  lemma SingleRowsStay(pre: Stores, now: int, lot: Uuid, w: Trace, id: int)
    requires Answered(pre, now, lot, w) && id in w.singles.table.rows && w.singles.table.rows[id].uploadId.None?
    ensures id in w.multis.table.rows && w.multis.table.rows[id] == w.singles.table.rows[id]
  {
    hide PgDecode, Filter, TableInv, StoreInv, Unambiguous, UpdateRow;
    if id in w.multis.ids {
      var k :| 0 <= k < |w.multis.ids| && w.multis.ids[k] == id;
      var rows := Returned(w, now);
      assert rows[k] in rows && !HasNull(rows[k]);
      UpsertKeepsRow(w.singles.table, now, RenewWindow(PART_SIZE), MultiProposals(w, pre.s3, lot), w.multis, id);
    }
  }

  // A needed single file that meets no row gets one of its own, and a request to put it under the
  // key of that row with its checksum.
  lemma SingleStarts(pre: World, e: Event, post: World, f: UploadFile) returns (id: int, p: PresignedFile)
    requires Inv(pre) && e.Initiate? && InitiateStep(pre, e, post) && Needs(pre.stores.db, e.files, f)
    requires f.fileSize < 157286400 && Canonical(f.sha256) && !HasPending(TableOf(pre), e.lot, f)
    ensures PgDecode(f.sha256).Some? && id !in TableOf(pre).rows && id in TableOf(post).rows
    ensures IsSingleRow(TableOf(post).rows[id], PgDecode(f.sha256).value, e.lot, f, e.now)
    ensures TableOf(post).rows[id].storageKey in e.trace.draws
    ensures p in e.res.presigned && p.file == f && p.url.SingleUrl? && p.url.key == TableOf(post).rows[id].storageKey
    ensures Decode64(p.url.checksum) == PgDecode(f.sha256)
  {
    TableOfInv(pre);
    PostIsTrace(pre.stores, e.now, e.files, e.lot, e.trace, post.stores, e.res);
    var i;
    i, p := SingleIsAnswered(pre.stores, e.now, e.files, e.lot, e.trace, post.stores, e.res, f);
    hide Inv, InitiateStep, PgDecode, Filter, Canonical, Needs, TableInv, StoreInv, FreshDraws, Answered, KeysOf, Decode64, HasPending,
         IsSingleRow;
    id := SingleRowStarts(pre.stores, e.now, e.lot, e.trace, i);
    CanonicalChecksum(f.sha256);
    assert KeysOf(p) == {p.url.key} by {
      KeyOfSingle(p);
    }
    assert p.url.key in KeysOf(p);
  }

  lemma KeyOfSingle(p: PresignedFile)
    requires p.url.SingleUrl?
    ensures KeysOf(p) == {p.url.key}
  {
  }

  lemma CanonicalChecksum(s: string)
    requires Canonical(s)
    ensures PgDecode(s).Some? && HexToBase64(s).Some? && Decode64(HexToBase64(s).value) == PgDecode(s)
  {
    CanonicalDecodes(s);
    CanonicalIsHex(s);
    HexToBase64Preserves(s);
    DecodersAgree(s);
  }

  lemma SingleRowStarts(pre: Stores, now: int, lot: Uuid, w: Trace, i: nat) returns (id: int)
    requires Answered(pre, now, lot, w) && i < |Singles(w.needed)| && !HasPending(pre.db.table, lot, Singles(w.needed)[i])
    ensures var f := Singles(w.needed)[i];
            && PgDecode(f.sha256).Some? && id !in pre.db.table.rows && id in w.multis.table.rows
            && IsSingleRow(w.multis.table.rows[id], PgDecode(f.sha256).value, lot, f, now)
            && w.multis.table.rows[id].storageKey in w.draws
            && (Canonical(f.sha256) ==> KeysOf(SingleUrlOf(f, SingleRowsOf(w))) == {w.multis.table.rows[id].storageKey})
  {
    hide PgDecode, Filter, Canonical, TableInv, StoreInv, Unambiguous, KeysOf, HasNull, Encode, UpdateRow, InsertedRow;
    SingleWrites(pre, now, lot, w, i);
    id := w.singles.ids[i];
    var t, f, q := pre.db.table, Singles(w.needed)[i], SingleProposals(w, lot)[i];
    SingleColumnsZip(w.needed, SingleKeys(w), lot, i);
    assert Settled(t, now, KeepStorageKey, q, id, w.singles.table.rows[id]);
    assert id !in t.rows || PendingFor(t, lot, f, id);
    InsertedFields(t, now, KeepStorageKey, q, id, w.singles.table.rows[id]);
    SingleRowsStay(pre, now, lot, w, id);
    assert q.storageKey == SingleKeys(w)[i] && SingleKeys(w)[i] in w.draws;
  }

  // A needed single file that meets the row of a single upload is told to put it under the key of
  // that row, which stays as it is, its window and version included.
  lemma SingleMeets(pre: World, e: Event, post: World, f: UploadFile, id: int) returns (p: PresignedFile)
    requires Inv(pre) && e.Initiate? && InitiateStep(pre, e, post) && Needs(pre.stores.db, e.files, f)
    requires f.fileSize < 157286400 && Canonical(f.sha256)
    requires PendingFor(TableOf(pre), e.lot, f, id) && TableOf(pre).rows[id].uploadType.SingleUpload?
    ensures id in TableOf(post).rows && TableOf(post).rows[id] == TableOf(pre).rows[id]
    ensures p in e.res.presigned && p.file == f && p.url.SingleUrl? && p.url.key == TableOf(pre).rows[id].storageKey
    ensures Decode64(p.url.checksum) == PgDecode(f.sha256)
  {
    TableOfInv(pre);
    var i;
    i, p := SingleIsAnswered(pre.stores, e.now, e.files, e.lot, e.trace, post.stores, e.res, f);
    PostIsTrace(pre.stores, e.now, e.files, e.lot, e.trace, post.stores, e.res);
    hide Inv, InitiateStep, PgDecode, Filter, Canonical, Needs, TableInv, StoreInv, FreshDraws, Answered, KeyIn, HexToBase64, Decode64;
    MetRowAnswer(pre.stores, e.now, e.lot, e.trace, i, id);
  }

  lemma MetRowAnswer(pre: Stores, now: int, lot: Uuid, w: Trace, i: nat, id: int)
    requires Answered(pre, now, lot, w) && AllHex(Singles(w.needed)) && i < |Singles(w.needed)| && Canonical(Singles(w.needed)[i].sha256)
    requires PendingFor(pre.db.table, lot, Singles(w.needed)[i], id) && pre.db.table.rows[id].uploadType.SingleUpload?
    ensures id in w.multis.table.rows && w.multis.table.rows[id] == pre.db.table.rows[id]
    ensures var p := SingleUrlOf(Singles(w.needed)[i], SingleRowsOf(w));
            p.url.key == pre.db.table.rows[id].storageKey && Decode64(p.url.checksum) == PgDecode(Singles(w.needed)[i].sha256)
  {
    hide PgDecode, Filter, Canonical, Answered, KeysOf, Decode64, Targets, HexToBase64, AllHex, KeyIn;
    SingleGoesToRow(pre, now, lot, w, i, id);
    SingleRowStays(pre, now, lot, w, id);
    CanonicalChecksum(Singles(w.needed)[i].sha256);
    KeyOfSingle(SingleUrlOf(Singles(w.needed)[i], SingleRowsOf(w)));
    assert pre.db.table.rows[id].storageKey in {pre.db.table.rows[id].storageKey};
  }

  lemma SingleRowStays(pre: Stores, now: int, lot: Uuid, w: Trace, id: int)
    requires Answered(pre, now, lot, w) && id in pre.db.table.rows && pre.db.table.rows[id].uploadType.SingleUpload?
    ensures id in w.multis.table.rows && w.multis.table.rows[id] == pre.db.table.rows[id]
  {
    hide PgDecode, Filter, StoreInv, Unambiguous, UpdateRow, UpsertEffect, HasNull;
    assert RowShape(pre.db.table.rows[id]);
    OldRowAfterSingles(pre.db.table, now, SingleProposals(w, lot), w.singles, id);
    SingleRowsStay(pre, now, lot, w, id);
  }

  // The row that a multipart file of digest sha gets with upload u.
  ghost predicate IsMultiRow(r: Row, sha: Bytes, lot: Uuid, f: UploadFile, u: UploadId, now: int) {
    && r.sha == sha && r.lot == lot && r.fileSize == Int32(f.fileSize) && r.fileName == f.fileName
    && r.uploadType == MultiUpload && r.uploadId == Some(u) && r.partSize == Some(10485760)
    && (r.fileSize > 0 ==> r.partCount == Some((r.fileSize + 10485759) / 10485760))
    && r.state == Pending && r.version == 0 && r.validUntil == Some(now + 5 * 24 * 60 * 60 * 1000000)
  }

  // The answer carries one request for each part of the row, in order, and no etags.
  ghost predicate AsksForAll(r: Row, id: int, p: PresignedFile) {
    && r.uploadId.Some? && r.partCount.Some?
    && p.url.MultiUrl? && p.url.attemptId == id && p.url.partSize == 10485760 && p.url.etags == []
    && |p.url.requests| == (if r.partCount.value > 0 then r.partCount.value else 0)
    && forall i :: 0 <= i < |p.url.requests| ==> p.url.requests[i] == Token(r.storageKey, r.uploadId.value, i + 1)
  }

  lemma AllPartsAsked(after: World, p: PresignedFile, id: int)
    requires id in TableOf(after).rows && RowShape(TableOf(after).rows[id]) && AnswersRow(after, p, id, true)
    ensures AsksForAll(TableOf(after).rows[id], id, p)
  {
  }

  // A needed multipart file that meets no row gets one of its own with a new upload, empty and
  // open, and requests for all of its parts.
  lemma MultiStarts(pre: World, e: Event, post: World, f: UploadFile) returns (id: int, p: PresignedFile)
    requires Inv(pre) && e.Initiate? && InitiateStep(pre, e, post) && Needs(pre.stores.db, e.files, f)
    requires f.fileSize >= 157286400 && !HasPending(TableOf(pre), e.lot, f)
    ensures PgDecode(f.sha256).Some? && id !in TableOf(pre).rows && id in TableOf(post).rows
    ensures var r := TableOf(post).rows[id];
            && HasNewUpload(pre.stores.s3, e.now, e.lot, e.trace, f, r, post.stores.s3)
            && p in e.res.presigned && p.file == (if Canonical(f.sha256) then f else UploadFile("", "", "", 0))
            && AsksForAll(r, id, p)
  {
    hide Inv, InitiateStep, PgDecode, Canonical, TableInv, StoreInv, AsksForAll, AnswersRow, HasNewUpload, Needs, RowShape, HasPending;
    var k;
    k, id, p := AnswerOf(pre, e, post, f);
    MultiRowStarts(pre, e, post, k);
    NothingLive(TableOf(pre), e.now, e.lot, f);
    StepKeepsInv(pre, e, post);
    RowHasShape(post, id);
    AllPartsAsked(post, p, id);
  }

  lemma NothingLive(t: Table, now: int, lot: Uuid, f: UploadFile)
    requires !HasPending(t, lot, f)
    ensures !HasLive(t, now, lot, f)
  {
  }

  lemma RowHasShape(w: World, id: int)
    requires Inv(w) && id in TableOf(w).rows
    ensures RowShape(TableOf(w).rows[id])
  {
  }

  lemma NotFound(pre: Stores, now: int, lot: Uuid, w: Trace, k: nat)
    requires TableInv(pre.db.table) && UpsertsEffect(pre.db, pre.s3, now, lot, w) && k < |Multis(w.needed)|
    requires RowsIn(w.multis.table, w.multis.ids) && k < |Returned(w, now)| && !HasNull(Returned(w, now)[k])
    requires !HasPending(pre.db.table, lot, Multis(w.needed)[k])
    ensures w.multis.ids[k] !in w.singles.table.rows
  {
    hide PgDecode, Filter, UpsertsEffect, TableInv;
    if w.multis.ids[k] in w.singles.table.rows {
      FoundRow(pre, now, lot, w, k);
      assert false;
    }
  }

  lemma MultiRowStarts(pre: World, e: Event, post: World, k: nat)
    requires Inv(pre) && e.Initiate? && InitiateStep(pre, e, post) && k < |Multis(e.trace.needed)|
    requires !HasPending(TableOf(pre), e.lot, Multis(e.trace.needed)[k])
    ensures k < |e.trace.multis.ids|
    ensures var f, id := Multis(e.trace.needed)[k], e.trace.multis.ids[k];
            && PgDecode(f.sha256).Some? && id !in TableOf(pre).rows && id in TableOf(post).rows
            && HasNewUpload(pre.stores.s3, e.now, e.lot, e.trace, f, TableOf(post).rows[id], post.stores.s3)
  {
    RowIsAnswered(pre, e, post, k);
    TableOfInv(pre);
    PostStores(pre, e, post);
    hide Inv, InitiateStep, PgDecode, Filter, UpsertsEffect, HasNull, AnswersRow, TableInv, HasNewUpload, CreateAll, HasPending;
    NotFound(pre.stores, e.now, e.lot, e.trace, k);
    NewRow(pre.stores, e.now, e.lot, e.trace, k);
  }

  lemma PostStores(pre: World, e: Event, post: World)
    requires e.Initiate? && InitiateStep(pre, e, post)
    ensures EnoughDraws(e.trace) && post.stores.s3 == CreateAll(pre.stores.s3, MultiKeys(e.trace))
  {
  }

  // The row of multipart file f is new, and so is its upload.
  ghost predicate HasNewUpload(s3: S3, now: int, lot: Uuid, w: Trace, f: UploadFile, r: Row, s3': S3) {
    && PgDecode(f.sha256).Some?
    && r.uploadId.Some? && IsMultiRow(r, PgDecode(f.sha256).value, lot, f, r.uploadId.value, now)
    && r.storageKey in w.draws
    && r.uploadId.value !in s3.uploads && r.uploadId.value in s3'.uploads
    && s3'.uploads[r.uploadId.value] == Upload(r.storageKey, map[], false)
  }

  lemma NewRow(pre: Stores, now: int, lot: Uuid, w: Trace, k: nat)
    requires StoreInv(pre.db.table, pre.s3) && UpsertsEffect(pre.db, pre.s3, now, lot, w) && k < |Multis(w.needed)|
    requires k < |w.multis.ids| && w.multis.ids[k] !in w.singles.table.rows
    ensures var id, f := w.multis.ids[k], Multis(w.needed)[k];
            && id !in pre.db.table.rows && id in w.multis.table.rows
            && HasNewUpload(pre.s3, now, lot, w, f, w.multis.table.rows[id], CreateAll(pre.s3, MultiKeys(w)))
  {
    hide PgDecode, Filter, UpsertsEffect, CreateAll, IsMultiRow, StoreInv;
    NewRowFields(pre.db, pre.s3, now, lot, w, k);
    assert |MultiKeys(w)| == |Multis(w.needed)| by {
      EnoughForAll(pre.db, pre.s3, now, lot, w);
    }
    CreateAllEffect(pre.s3, MultiKeys(w));
    assert MultiKeys(w)[k] in w.draws;
    NextIsNew(pre.db.table, pre.s3, k);
  }

  lemma EnoughForAll(db: Db, s3: S3, now: int, lot: Uuid, w: Trace)
    requires UpsertsEffect(db, s3, now, lot, w)
    ensures EnoughDraws(w)
  {
  }

  lemma NextIsNew(t: Table, s3: S3, k: nat)
    requires StoreInv(t, s3)
    ensures s3.next + k !in s3.uploads
  {
  }

  lemma NewRowFields(db: Db, s3: S3, now: int, lot: Uuid, w: Trace, k: nat)
    requires UpsertsEffect(db, s3, now, lot, w) && k < |Multis(w.needed)|
    requires k < |w.multis.ids| && w.multis.ids[k] !in w.singles.table.rows
    ensures EnoughDraws(w) && k < |MultiKeys(w)|
    ensures var id, f := w.multis.ids[k], Multis(w.needed)[k];
            && id !in db.table.rows && id in w.multis.table.rows && PgDecode(f.sha256).Some?
            && w.multis.table.rows[id].storageKey == MultiKeys(w)[k] && w.multis.table.rows[id].uploadId == Some(s3.next + k)
            && IsMultiRow(w.multis.table.rows[id], PgDecode(f.sha256).value, lot, f, s3.next + k, now)
  {
    hide PgDecode, Filter, UpdateRow, InsertedRow;
    var f, id, q := Multis(w.needed)[k], w.multis.ids[k], MultiProposals(w, s3, lot)[k];
    MultiColumnsZip(w.needed, MultiKeys(w), s3, lot, k);
    assert Settled(w.singles.table, now, RenewWindow(PART_SIZE), q, id, w.multis.table.rows[id]);
    InsertedFields(w.singles.table, now, RenewWindow(PART_SIZE), q, id, w.multis.table.rows[id]);
    OldRowsStay(db.table, now, SingleProposals(w, lot), w.singles);
  }

  lemma OldRowsStay(t: Table, now: int, props: seq<Proposal>, u: Upserted)
    requires UpsertEffect(t, now, KeepStorageKey, props, u)
    ensures forall id :: id in t.rows ==> id in u.table.rows
  {
  }

  /* ---------- rows that are met ---------- */

  lemma UpdatedByMultis(r: Row, now: int)
    requires RowShape(r) && r.uploadType.MultiUpload? && UpdateRow(RenewWindow(PART_SIZE), r, now).Some?
    ensures var r', live := UpdateRow(RenewWindow(PART_SIZE), r, now).value, r.validUntil.Some? && now <= r.validUntil.value;
            && r'.version == r.version + 1
            && r' == if live then r.(version := r'.version)
                     else r.(version := r'.version, validUntil := Some(now + 5 * 24 * 60 * 60 * 1000000))
  {
  }

  lemma UpdatedBySingles(r: Row, now: int)
    requires RowShape(r) && UpdateRow(KeepStorageKey, r, now).Some?
    ensures var r' := UpdateRow(KeepStorageKey, r, now).value;
            && r' == r.(version := r'.version)
            && r'.version == r.version + if r.uploadType.MultiUpload? then 1 else 0
  {
  }

  // What the single statement leaves of a row that was there before.
  lemma OldRowAfterSingles(t: Table, now: int, props: seq<Proposal>, u: Upserted, id: int)
    requires TableInv(t) && UpsertEffect(t, now, KeepStorageKey, props, u) && id in t.rows
    ensures id in u.table.rows
    ensures var r, r' := t.rows[id], u.table.rows[id]; r' == r.(version := r'.version) && r.version <= r'.version <= r.version + 1
    ensures t.rows[id].uploadType.SingleUpload? ==> u.table.rows[id] == t.rows[id]
  {
    assert RowShape(t.rows[id]);
    if id in u.ids {
      var i :| 0 <= i < |u.ids| && u.ids[i] == id;
      assert Settled(t, now, KeepStorageKey, props[i], id, u.table.rows[id]);
      UpdatedBySingles(t.rows[id], now);
    }
  }

  // How the row a multipart file meets changes: in its version, and if its window has ended, in its
  // window; in nothing else.
  ghost predicate MetRow(r: Row, r': Row, now: int) {
    && r.uploadType.MultiUpload? && r.version < r'.version <= r.version + 2
    && r' == if r.validUntil.Some? && now <= r.validUntil.value then r.(version := r'.version)
             else r.(version := r'.version, validUntil := Some(now + 5 * 24 * 60 * 60 * 1000000))
  }

  lemma TwoUpdates(t: Table, now: int, u: Upserted, id: int, r: Row)
    requires id in t.rows && id in u.table.rows && RowShape(t.rows[id]) && t.rows[id].uploadType.MultiUpload?
    requires u.table.rows[id] == t.rows[id].(version := u.table.rows[id].version)
    requires t.rows[id].version <= u.table.rows[id].version <= t.rows[id].version + 1
    requires UpdateRow(RenewWindow(PART_SIZE), u.table.rows[id], now) == Some(r)
    ensures MetRow(t.rows[id], r, now)
  {
    UpdatedByMultis(u.table.rows[id], now);
  }

  lemma FoundRowChanges(pre: Stores, now: int, lot: Uuid, w: Trace, k: nat)
    requires TableInv(pre.db.table) && UpsertsEffect(pre.db, pre.s3, now, lot, w) && k < |Multis(w.needed)|
    requires RowsIn(w.multis.table, w.multis.ids) && k < |Returned(w, now)| && !HasNull(Returned(w, now)[k])
    requires HasPending(pre.db.table, lot, Multis(w.needed)[k])
    ensures k < |w.multis.ids|
    ensures var id := w.multis.ids[k];
            && PendingFor(pre.db.table, lot, Multis(w.needed)[k], id) && id in w.multis.table.rows
            && MetRow(pre.db.table.rows[id], w.multis.table.rows[id], now)
  {
    hide PgDecode, Filter, UpdateRow, InsertedRow, MetRow, Live;
    var t, f, id, q := pre.db.table, Multis(w.needed)[k], w.multis.ids[k], MultiProposals(w, pre.s3, lot)[k];
    RowWasLive(pre, now, lot, w, k);
    assert PendingFor(t, lot, f, id);
    assert Settled(w.singles.table, now, RenewWindow(PART_SIZE), q, id, w.multis.table.rows[id]);
    OldRowAfterSingles(t, now, SingleProposals(w, lot), w.singles, id);
    UpsertKeepsRow(w.singles.table, now, RenewWindow(PART_SIZE), MultiProposals(w, pre.s3, lot), w.multis, id);
    assert RowShape(t.rows[id]);
    TwoUpdates(t, now, w.singles, id, w.multis.table.rows[id]);
  }

  // The parts stored before a request are those stored after it.
  lemma PartsStay(pre: World, e: Event, post: World, id: int)
    requires Inv(pre) && e.Initiate? && InitiateStep(pre, e, post) && id in TableOf(pre).rows && TableOf(pre).rows[id].uploadId.Some?
    ensures var u := TableOf(pre).rows[id].uploadId.value;
            u in pre.stores.s3.uploads && u in post.stores.s3.uploads && post.stores.s3.uploads[u] == pre.stores.s3.uploads[u]
  {
    TableOfInv(pre);
    hide Inv, Classified, Upserts, Presigned, TableInv, Issues, FreshDraws;
    CreateAllEffect(pre.stores.s3, MultiKeys(e.trace));
  }

  // The answer carries, in order, a request for each part that is not stored, and the etags of
  // those that are.
  ghost predicate AsksForRest(r: Row, parts: map<int, Etag>, id: int, p: PresignedFile) {
    && r.uploadId.Some? && r.partCount.Some?
    && p.url.MultiUrl? && p.url.attemptId == id && r.partSize == Some(p.url.partSize)
    && (forall t :: t in p.url.requests <==>
          t.key == r.storageKey && Some(t.uploadId) == r.uploadId && 1 <= t.part <= r.partCount.value && t.part !in parts)
    && (forall i, j :: 0 <= i < j < |p.url.requests| ==> p.url.requests[i].part < p.url.requests[j].part)
    && (forall x :: x in p.url.etags <==> x.number in parts && parts[x.number] == x.etag)
    && (forall i, j :: 0 <= i < j < |p.url.etags| ==> p.url.etags[i].number < p.url.etags[j].number)
  }

  lemma RestAsked(after: World, p: PresignedFile, id: int)
    requires Inv(after) && id in TableOf(after).rows && AnswersRow(after, p, id, false)
    ensures TableOf(after).rows[id].uploadId.Some? && TableOf(after).rows[id].uploadId.value in after.stores.s3.uploads
    ensures AsksForRest(TableOf(after).rows[id], after.stores.s3.uploads[TableOf(after).rows[id].uploadId.value].parts, id, p)
  {
    hide Inv, MissingNow, ListedNow, TokensFor, Partitioned, UploadedNumbers, NumberSet, Interval, PartNumbers;
    var r := TableOf(after).rows[id];
    StoredAmongParts(after, id);
    PartitionAt(after, id);
    ListingIsStored(after, id);
    var parts := after.stores.s3.uploads[r.uploadId.value].parts;
    ListingSet(parts, ListedNow(after, id));
    RequestsForRest(after, p, id, parts);
  }

  lemma RequestsForRest(after: World, p: PresignedFile, id: int, parts: map<int, Etag>)
    requires id in TableOf(after).rows && AnswersRow(after, p, id, false) && TableOf(after).rows[id].partCount.Some?
    requires NumberSet(ListedNow(after, id)) == parts.Keys
    requires Partitioned(TableOf(after).rows[id].partCount.value, MissingNow(after, id), ListedNow(after, id))
    ensures forall t :: t in p.url.requests <==>
              && t.key == TableOf(after).rows[id].storageKey && Some(t.uploadId) == TableOf(after).rows[id].uploadId
              && 1 <= t.part <= TableOf(after).rows[id].partCount.value && t.part !in parts
    ensures forall i, j :: 0 <= i < j < |p.url.requests| ==> p.url.requests[i].part < p.url.requests[j].part
  {
    hide MissingNow, ListedNow, NumberSet;
    forall t: Token
      ensures t in p.url.requests <==>
              && t.key == TableOf(after).rows[id].storageKey && Some(t.uploadId) == TableOf(after).rows[id].uploadId
              && 1 <= t.part <= TableOf(after).rows[id].partCount.value && t.part !in parts
    {
      TokensOfRow(after, p, id, false, t);
      assert t.part in NumberSet(ListedNow(after, id)) <==> t.part in parts;
    }
  }

  // A listing with as many entries as there are parts shows every part.
  lemma ListingSet(parts: map<int, Etag>, page: seq<PartInfo>)
    requires IsListing(parts, 1, page) && UploadedNumbers(page) == parts.Keys
    ensures NumberSet(page) == parts.Keys
    ensures forall x :: x in page <==> x.number in parts && parts[x.number] == x.etag
  {
    UploadedNumbersAre(page);
    forall x: PartInfo | x.number in parts && parts[x.number] == x.etag
      ensures x in page
    {
      assert x.number in NumberSet(page);
    }
  }

  // A needed multipart file that meets a row: within the window of the row it gets requests for the
  // parts that are not stored and the etags of the others, and after it requests for all parts; the
  // upload stays as it is.
  lemma MultiMeets(pre: World, e: Event, post: World, f: UploadFile, id: int) returns (p: PresignedFile)
    requires Inv(pre) && e.Initiate? && InitiateStep(pre, e, post) && Needs(pre.stores.db, e.files, f)
    requires f.fileSize >= 157286400 && PendingFor(TableOf(pre), e.lot, f, id)
    ensures id in TableOf(post).rows && MetRow(TableOf(pre).rows[id], TableOf(post).rows[id], e.now)
    ensures p in e.res.presigned && p.file == (if Canonical(f.sha256) then f else UploadFile("", "", "", 0))
    ensures var r := TableOf(pre).rows[id];
            && r.uploadId.Some? && r.uploadId.value in pre.stores.s3.uploads && r.uploadId.value in post.stores.s3.uploads
            && post.stores.s3.uploads[r.uploadId.value] == pre.stores.s3.uploads[r.uploadId.value]
            && if r.validUntil.Some? && e.now <= r.validUntil.value
               then AsksForRest(TableOf(post).rows[id], pre.stores.s3.uploads[r.uploadId.value].parts, id, p)
               else AsksForAll(TableOf(post).rows[id], id, p)
  {
    var k, j;
    k, j, p := AnswerOf(pre, e, post, f);
    assert j == id;
    RowIsAnswered(pre, e, post, k);
    TableOfInv(pre);
    StepKeepsInv(pre, e, post);
    TableOfInv(post);
    FoundRowChanges(pre.stores, e.now, e.lot, e.trace, k);
    assert RowShape(TableOf(pre).rows[id]) && RowShape(TableOf(post).rows[id]);
    hide Inv, InitiateStep, PgDecode, Canonical, TableInv, StoreInv, RowShape, AsksForAll, AsksForRest, AnswersRow, Needs;
    PartsStay(pre, e, post, id);
    if HasLive(TableOf(pre), e.now, e.lot, f) {
      RestAsked(post, p, id);
    } else {
      AllPartsAsked(post, p, id);
    }
    OneLive(pre, e, f, id);
  }

  lemma OneLive(pre: World, e: Event, f: UploadFile, id: int)
    requires Inv(pre) && e.Initiate? && PendingFor(TableOf(pre), e.lot, f, id)
    ensures HasLive(TableOf(pre), e.now, e.lot, f) <==>
            TableOf(pre).rows[id].validUntil.Some? && e.now <= TableOf(pre).rows[id].validUntil.value
  {
    TableOfInv(pre);
    hide Inv, TableInv, PgDecode;
    assert forall x :: PendingFor(TableOf(pre), e.lot, f, x) ==> x == id;
  }

  /* ---------- everything else ---------- */

  // A request changes no row that none of its needed files meets, and inserts none but for a needed
  // file; blobs, lots and the uploads that are there stay as they are.
  lemma RestUntouched(pre: World, e: Event, post: World)
    requires Inv(pre) && e.Initiate? && InitiateStep(pre, e, post)
    ensures forall id :: id in TableOf(post).rows ==>
              || (id in TableOf(pre).rows && TableOf(post).rows[id] == TableOf(pre).rows[id])
              || exists f :: Needs(pre.stores.db, e.files, f) && PendingFor(TableOf(post), e.lot, f, id)
    ensures forall id :: id in TableOf(pre).rows ==> id in TableOf(post).rows
    ensures post.stores.db.blobs == pre.stores.db.blobs && post.stores.db.lots == pre.stores.db.lots
    ensures forall u :: u in pre.stores.s3.uploads ==>
              u in post.stores.s3.uploads && post.stores.s3.uploads[u] == pre.stores.s3.uploads[u]
  {
    var w, s3 := e.trace, pre.stores.s3;
    TableOfInv(pre);
    CreateAllEffect(s3, MultiKeys(w));
    UpsertsMeetEffect(pre.stores.db, s3, e.now, e.lot, w);
    NeededAre(pre.stores.db, e.files, e.lot, w, e.res);
    hide Inv, PgDecode, Filter, Classified, Statement, Upserts, Needs, TableInv, FreshDraws, Issues, UpsertsEffect, Presigned, CreateAll;
    forall id | id in TableOf(post).rows && !(id in TableOf(pre).rows && TableOf(post).rows[id] == TableOf(pre).rows[id])
      ensures exists f :: Needs(pre.stores.db, e.files, f) && PendingFor(TableOf(post), e.lot, f, id)
    {
      var f := ChangedFor(pre.stores.db, s3, e.now, e.lot, w, id);
    }
    RowsStay(pre.stores.db, s3, e.now, e.lot, w);
  }

  lemma RowsStay(db: Db, s3: S3, now: int, lot: Uuid, w: Trace)
    requires UpsertsEffect(db, s3, now, lot, w)
    ensures forall id :: id in db.table.rows ==> id in w.multis.table.rows
  {
    hide PgDecode, Filter;
  }

  lemma ChangedFor(db: Db, s3: S3, now: int, lot: Uuid, w: Trace, id: int) returns (f: UploadFile)
    requires UpsertsEffect(db, s3, now, lot, w) && id in w.multis.table.rows
    requires !(id in db.table.rows && w.multis.table.rows[id] == db.table.rows[id])
    ensures f in w.needed && PendingFor(w.multis.table, lot, f, id)
  {
    hide PgDecode, Filter, UpdateRow, InsertedRow;
    if id in w.multis.ids {
      var k :| 0 <= k < |w.multis.ids| && w.multis.ids[k] == id;
      MultiRowOf(db, s3, now, lot, w, k);
      f := Multis(w.needed)[k];
    } else {
      var k :| 0 <= k < |w.singles.ids| && w.singles.ids[k] == id;
      SingleRowOfFile(db, s3, now, lot, w, k);
      f := Singles(w.needed)[k];
    }
  }

  // The images a request adds to the lot: one for each kept file whose blob has been completed, in
  // order, with the blob's id and the file's name.  Nothing is added for any other file.
  lemma ImagesAdded(pre: Stores, now: int, files: seq<UploadFile>, lot: Uuid, w: Trace, post: Stores, res: UploadResult)
    returns (added: seq<LotImage>)
    requires Initiated(pre, now, files, lot, w, post, res)
    ensures post.db.lotImages == pre.db.lotImages + added
    ensures var kept := FirstOccurrences(files);
            var completed := (k: int) => 0 <= k < |kept| && PgDecode(kept[k].sha256).Some?
                                         && PgDecode(kept[k].sha256).value in pre.db.blobs
                                         && pre.db.blobs[PgDecode(kept[k].sha256).value].completed;
            && |added| == CountBelow(completed, |kept|)
            && forall i :: 0 <= i < |kept| && completed(i) ==>
                 CountBelow(completed, i) < |added|
                 && added[CountBelow(completed, i)] == LotImage(lot, pre.db.blobs[PgDecode(kept[i].sha256).value].id, kept[i].fileName)
  {
    hide PgDecode, Classified, Upserts, Presigned, FirstOccurrences, LotImagesFor;
    var kept, blobs := FirstOccurrences(files), pre.db.blobs;
    added := LotImagesFor(blobs, lot, Shas(kept), Names(kept));
    var completed := (k: int) => 0 <= k < |kept| && PgDecode(kept[k].sha256).Some?
                                 && PgDecode(kept[k].sha256).value in blobs && blobs[PgDecode(kept[k].sha256).value].completed;
    var same := (k: int) => 0 <= k < |Shas(kept)| && PgDecode(Shas(kept)[k]).Some?
                            && PgDecode(Shas(kept)[k]).value in blobs && blobs[PgDecode(Shas(kept)[k]).value].completed;
    LotImagesInOrder(blobs, lot, Shas(kept), Names(kept));
    forall i | 0 <= i < |kept|
      ensures CountBelow(completed, i) == CountBelow(same, i)
    {
      CountSame(completed, same, i);
    }
    assert forall i :: 0 <= i < |kept| ==> completed(i) == same(i) && Shas(kept)[i] == kept[i].sha256 && Names(kept)[i] == kept[i].fileName;
    CountSame(completed, same, |kept|);
  }
}
