// What holds between the answers of one reply: when they share no object key, and when their
// requests are for uploads that are still open.
module Replies {
  import opened Wrappers
  import opened Hex
  import opened Parts
  import opened Attempts
  import opened ObjectStore
  import opened Database
  import opened Intake
  import opened Uploads
  import opened ImageStore
  import opened Conditions
  import opened Requests
  import opened Protocol
  import opened ProtocolInitiate

  /* ---------- object keys ---------- */

  // The object keys an answer writes to.
  function KeysOf(p: PresignedFile): set<Uuid> {
    match p.url
    case SingleUrl(key, _) => {key}
    case MultiUrl(requests, _, _, _) => set k | k in requests :: k.key
  }

  // What the answers of a reply are made of.
  ghost predicate Answered(pre: Stores, now: int, lot: Uuid, w: Trace) {
    && TableInv(pre.db.table) && StoreInv(pre.db.table, pre.s3) && KeysNotNil(pre.db.table, w.draws)
    && UpsertsEffect(pre.db, pre.s3, now, lot, w) && Unambiguous(SingleRowsOf(w))
    && RowsIn(w.singles.table, w.singles.ids) && RowsIn(w.multis.table, w.multis.ids)
    && TableInv(w.multis.table) && DistinctShas(Singles(w.needed)) && DistinctShas(Multis(w.needed))
    && forall m :: m in Returned(w, now) ==> !HasNull(m)
  }

  lemma PostTable(pre: Stores, now: int, files: seq<UploadFile>, lot: Uuid, w: Trace, post: Stores, res: UploadResult)
    requires TableInv(pre.db.table) && StoreInv(pre.db.table, pre.s3) && FreshDraws(pre.db.table, w.draws)
    requires Initiated(pre, now, files, lot, w, post, res)
    ensures TableInv(post.db.table)
  {
    hide TableInv, StoreInv, FreshDraws, Classified, Presigned;
    ValidFromInv(pre.db.table);
    UpsertsMeetEffect(pre.db, pre.s3, now, lot, w);
    NotNullFromPresigned(pre, now, files, lot, w, post, res);
    UpsertsKeepTableInv(pre.db, pre.s3, now, lot, w);
  }

  lemma ReplyIsAnswered(pre: Stores, now: int, files: seq<UploadFile>, lot: Uuid, w: Trace, post: Stores, res: UploadResult)
    requires TableInv(pre.db.table) && StoreInv(pre.db.table, pre.s3) && FreshDraws(pre.db.table, w.draws)
    requires Initiated(pre, now, files, lot, w, post, res)
    ensures Answered(pre, now, lot, w)
  {
    hide StoreInv, Classified, Statement, Unambiguous, UpsertsEffect, Filter;
    ValidFromInv(pre.db.table);
    UpsertsMeetEffect(pre.db, pre.s3, now, lot, w);
    NeededDistinct(pre.db, files, lot, w, res);
    SingleRowsUnambiguousIn(pre, now, lot, w);
    PostTable(pre, now, files, lot, w, post, res);
    assert forall id :: id in pre.db.table.rows ==> RowShape(pre.db.table.rows[id]);
  }

  // A single answer writes to the row of its file, or to the nil key.
  lemma SingleWrites(pre: Stores, now: int, lot: Uuid, w: Trace, i: nat)
    requires Answered(pre, now, lot, w) && i < |Singles(w.needed)|
    ensures |w.singles.ids| == |Singles(w.needed)|
    ensures PendingFor(w.multis.table, lot, Singles(w.needed)[i], w.singles.ids[i])
    ensures w.multis.table.rows[w.singles.ids[i]].storageKey != NIL_UUID
    ensures KeysOf(SingleUrlOf(Singles(w.needed)[i], SingleRowsOf(w))) ==
            {if Canonical(Singles(w.needed)[i].sha256) then w.multis.table.rows[w.singles.ids[i]].storageKey else NIL_UUID}
  {
    hide PgDecode, Filter, Canonical, UpsertsEffect, Encode, TableInv, StoreInv;
    var f, rows := Singles(w.needed)[i], SingleRowsOf(w);
    SingleRowOfFile(pre.db, pre.s3, now, lot, w, i);
    SingleRowKept(pre.db, pre.s3, now, lot, w, i);
    if Canonical(f.sha256) {
      CanonicalDecodes(f.sha256);
      assert rows[i] in rows && rows[i].sha256 == f.sha256;
    } else {
      NoRowUnlessCanonical(w, f.sha256);
    }
  }

  // A multipart answer writes to the row of its file, if it carries a request at all.
  lemma MultiWrites(pre: Stores, s3': S3, now: int, lot: Uuid, w: Trace, i: nat)
    requires Answered(pre, now, lot, w) && i < |Multis(w.needed)|
    ensures |w.multis.ids| == |Multis(w.needed)| == |Returned(w, now)|
    ensures PendingFor(w.multis.table, lot, Multis(w.needed)[i], w.multis.ids[i])
    ensures w.multis.table.rows[w.multis.ids[i]].storageKey != NIL_UUID
    ensures var p := UrlOf(Returned(w, now)[i], Multis(w.needed), s3');
            && p.url.MultiUrl?
            && KeysOf(p) == if p.url.requests == [] then {} else {w.multis.table.rows[w.multis.ids[i]].storageKey}
  {
    hide PgDecode, Filter, Canonical, UpsertsEffect, StoreInv;
    MultiRowOf(pre.db, pre.s3, now, lot, w, i);
    var row := Returned(w, now)[i];
    assert row in Returned(w, now);
    assert RowShape(w.multis.table.rows[w.multis.ids[i]]);
    var p := UrlOf(row, Multis(w.needed), s3');
    forall k | k in p.url.requests
      ensures k.key == row.storageKey
    {
      TokensAreParts(row, s3', Multis(w.needed), k);
    }
    if p.url.requests != [] {
      assert p.url.requests[0] in p.url.requests;
    }
  }

  // Two single answers share a key exactly when neither digest is canonical.
  lemma SinglesApart(pre: Stores, now: int, lot: Uuid, w: Trace, i: nat, j: nat)
    requires Answered(pre, now, lot, w) && i < |Singles(w.needed)| && j < |Singles(w.needed)| && i != j
    ensures KeysOf(SingleUrlOf(Singles(w.needed)[i], SingleRowsOf(w))) !! KeysOf(SingleUrlOf(Singles(w.needed)[j], SingleRowsOf(w)))
            <==> Canonical(Singles(w.needed)[i].sha256) || Canonical(Singles(w.needed)[j].sha256)
  {
    hide PgDecode, Filter, Canonical, UpdateRow, StoreInv, KeysOf, SingleUrlOf;
    SingleWrites(pre, now, lot, w, i);
    SingleWrites(pre, now, lot, w, j);
    assert w.singles.ids[i] != w.singles.ids[j];
  }

  // Two multipart answers never do.
  lemma MultisApart(pre: Stores, s3': S3, now: int, lot: Uuid, w: Trace, i: nat, j: nat)
    requires Answered(pre, now, lot, w) && i < |Multis(w.needed)| && j < |Multis(w.needed)| && i != j
    ensures |Returned(w, now)| == |Multis(w.needed)|
    ensures KeysOf(UrlOf(Returned(w, now)[i], Multis(w.needed), s3')) !! KeysOf(UrlOf(Returned(w, now)[j], Multis(w.needed), s3'))
  {
    hide PgDecode, Filter, UpdateRow, StoreInv, KeysOf, UrlOf;
    MultiWrites(pre, s3', now, lot, w, i);
    MultiWrites(pre, s3', now, lot, w, j);
    assert w.multis.ids[i] != w.multis.ids[j];
  }

  // A single and a multipart answer share a key exactly when they are for one digest, the single
  // text is canonical and the multipart answer carries requests.
  lemma KindsApart(pre: Stores, s3': S3, now: int, lot: Uuid, w: Trace, i: nat, j: nat)
    requires Answered(pre, now, lot, w) && i < |Singles(w.needed)| && j < |Multis(w.needed)|
    ensures |Returned(w, now)| == |Multis(w.needed)|
    ensures var p, q := SingleUrlOf(Singles(w.needed)[i], SingleRowsOf(w)), UrlOf(Returned(w, now)[j], Multis(w.needed), s3');
            KeysOf(p) !! KeysOf(q) <==>
            !(Canonical(Singles(w.needed)[i].sha256) && SameDigest(Singles(w.needed)[i], Multis(w.needed)[j]) && q.url.requests != [])
  {
    hide PgDecode, Filter, Canonical, UpsertsEffect, StoreInv, KeysOf, SingleUrlOf, UrlOf;
    SingleWrites(pre, now, lot, w, i);
    MultiWrites(pre, s3', now, lot, w, j);
    ValidFromInv(w.multis.table);
  }

  // The answers of a reply that can be built are those of the files left to upload, and are for
  // different digests.
  lemma FilesDistinct(pre: Stores, now: int, files: seq<UploadFile>, lot: Uuid, w: Trace, post: Stores, res: UploadResult)
    requires ValidTable(pre.db.table) && Initiated(pre, now, files, lot, w, post, res)
    requires AllCanonical(Multis(FirstOccurrences(files)))
    ensures DistinctShas(FilesOf(res.presigned)) && multiset(FilesOf(res.presigned)) == multiset(w.needed)
  {
    hide Canonical, Filter, Classified, Upserts, Presigned;
    CanonicalBatch(pre.db, files, lot, w, res);
    NeededDistinct(pre.db, files, lot, w, res);
    ResponseFiles(pre, now, files, lot, w, post, res);
    SizesSplit(w.needed);
    CarriedAll(Multis(w.needed));
    DistinctPermutation(w.needed, FilesOf(res.presigned));
  }

  // Every single file whose digest is not canonical is answered with the nil key.
  lemma NilKey(pre: Stores, now: int, files: seq<UploadFile>, lot: Uuid, w: Trace, post: Stores, res: UploadResult, f: UploadFile)
    returns (p: PresignedFile)
    requires Initiated(pre, now, files, lot, w, post, res)
    requires Needs(pre.db, files, f) && IsSingle(f) && !Canonical(f.sha256)
    ensures p in res.presigned && p.file == f && p.url.SingleUrl? && KeysOf(p) == {NIL_UUID}
  {
    hide PgDecode, Filter, Canonical, Classified, Statement, Needs;
    NeededAre(pre.db, files, lot, w, res);
    var single, multi :| PresignedInStages(now, w, post.s3, single, multi) && res.presigned == single + multi;
    var s := Singles(w.needed);
    var i :| 0 <= i < |s| && s[i] == f;
    p := single[i];
    assert p in single;
    NoRowUnlessCanonical(w, f.sha256);
  }

  // The answer to single file i.
  lemma SingleIsAnswered(pre: Stores, now: int, files: seq<UploadFile>, lot: Uuid, w: Trace, post: Stores, res: UploadResult, f: UploadFile)
    returns (i: nat, p: PresignedFile)
    requires TableInv(pre.db.table) && StoreInv(pre.db.table, pre.s3) && FreshDraws(pre.db.table, w.draws)
    requires Initiated(pre, now, files, lot, w, post, res) && Needs(pre.db, files, f) && IsSingle(f)
    ensures Answered(pre, now, lot, w) && AllHex(Singles(w.needed))
    ensures i < |Singles(w.needed)| && Singles(w.needed)[i] == f
    ensures p == SingleUrlOf(f, SingleRowsOf(w)) && p in res.presigned
  {
    hide PgDecode, Filter, Canonical, Classified, Statement, Needs, Answered, TableInv, StoreInv, FreshDraws, UpsertsEffect,
         Unambiguous, HasNull;
    ReplyIsAnswered(pre, now, files, lot, w, post, res);
    NeededAre(pre.db, files, lot, w, res);
    var single, multi :| PresignedInStages(now, w, post.s3, single, multi) && res.presigned == single + multi;
    var s := Singles(w.needed);
    i :| 0 <= i < |s| && s[i] == f;
    p := SingleUrlOf(f, SingleRowsOf(w));
    assert single[i] == p && p in single;
  }

  // A single file is sent to the object key of the row it meets, and goes to its target exactly
  // when that row is no multipart upload.
  lemma GoesToRow(pre: Stores, now: int, files: seq<UploadFile>, lot: Uuid, w: Trace, post: Stores, res: UploadResult,
                  f: UploadFile, id: int)
    returns (p: PresignedFile)
    requires TableInv(pre.db.table) && StoreInv(pre.db.table, pre.s3) && FreshDraws(pre.db.table, w.draws)
    requires Initiated(pre, now, files, lot, w, post, res)
    requires Needs(pre.db, files, f) && IsSingle(f) && Canonical(f.sha256) && PendingFor(pre.db.table, lot, f, id)
    ensures p in res.presigned && p.file == f && p.url.SingleUrl? && KeysOf(p) == {pre.db.table.rows[id].storageKey}
    ensures Targets(post.db.table, lot, p) <==> pre.db.table.rows[id].uploadType.SingleUpload?
  {
    hide Answered, TableInv, StoreInv, FreshDraws, Initiated, Targets, KeysOf, Needs, Canonical, PgDecode;
    var i;
    i, p := SingleIsAnswered(pre, now, files, lot, w, post, res, f);
    PostIsTrace(pre, now, files, lot, w, post, res);
    SingleGoesToRow(pre, now, lot, w, i, id);
  }

  lemma PostIsTrace(pre: Stores, now: int, files: seq<UploadFile>, lot: Uuid, w: Trace, post: Stores, res: UploadResult)
    requires Initiated(pre, now, files, lot, w, post, res)
    ensures post.db.table == w.multis.table
  {
  }

  lemma SingleGoesToRow(pre: Stores, now: int, lot: Uuid, w: Trace, i: nat, id: int)
    requires Answered(pre, now, lot, w) && i < |Singles(w.needed)| && AllHex(Singles(w.needed))
    requires Canonical(Singles(w.needed)[i].sha256) && PendingFor(pre.db.table, lot, Singles(w.needed)[i], id)
    ensures var p := SingleUrlOf(Singles(w.needed)[i], SingleRowsOf(w));
            && KeysOf(p) == {pre.db.table.rows[id].storageKey}
            && (Targets(w.multis.table, lot, p) <==> pre.db.table.rows[id].uploadType.SingleUpload?)
  {
    hide PgDecode, Filter, Canonical, Unambiguous, Targets, KeysOf, HasNull, UpsertEffect, StoreInv, AllHex;
    var t, f := pre.db.table, Singles(w.needed)[i];
    SingleWrites(pre, now, lot, w, i);
    SingleTargets(pre.db, pre.s3, now, lot, w, i);
    UpsertKeepsRow(t, now, KeepStorageKey, SingleProposals(w, lot), w.singles, id);
    UpsertKeepsRow(w.singles.table, now, RenewWindow(PART_SIZE), MultiProposals(w, pre.s3, lot), w.multis, id);
    assert PendingFor(w.multis.table, lot, f, id) && w.singles.ids[i] == id;
    assert forall j :: PendingFor(t, lot, f, j) ==> j == id;
  }

  /* ---------- open uploads ---------- */

  ghost predicate UploadOpen(r: Row, s3: S3) {
    r.uploadId.Some? && IsOpen(s3, r.storageKey, r.uploadId.value)
  }

  // What the single statement of a request leaves of an older row.
  ghost predicate KeptBySingles(r: Row, r': Row) {
    && SameIdentity(r, r') && r'.state == r.state && r'.validUntil == r.validUntil
    && r'.partSize == r.partSize && r'.partCount == r.partCount
  }

  lemma SinglesKeepRow(t: Table, now: int, props: seq<Proposal>, u: Upserted, id: int)
    requires TableInv(t) && UpsertEffect(t, now, KeepStorageKey, props, u) && id in t.rows
    ensures id in u.table.rows && KeptBySingles(t.rows[id], u.table.rows[id])
  {
    assert RowShape(t.rows[id]);
    if id in u.ids {
      var i :| 0 <= i < |u.ids| && u.ids[i] == id;
      assert Settled(t, now, KeepStorageKey, props[i], id, u.table.rows[id]);
      UpdateKeepsIdentity(KeepStorageKey, t.rows[id], now);
    }
  }

  // A row without null columns that the multipart statement found was there before the request.
  lemma FoundIsOld(db: Db, s3: S3, now: int, lot: Uuid, w: Trace, i: nat)
    requires TableInv(db.table) && UpsertsEffect(db, s3, now, lot, w) && i < |w.multis.ids|
    requires w.multis.ids[i] in w.singles.table.rows && w.multis.ids[i] in w.multis.table.rows
    requires w.multis.table.rows[w.multis.ids[i]].uploadId.Some?
    ensures i < |Multis(w.needed)| && w.multis.ids[i] in db.table.rows
    ensures PendingFor(db.table, lot, Multis(w.needed)[i], w.multis.ids[i])
    ensures KeptBySingles(db.table.rows[w.multis.ids[i]], w.singles.table.rows[w.multis.ids[i]])
    ensures SameIdentity(db.table.rows[w.multis.ids[i]], w.multis.table.rows[w.multis.ids[i]])
  {
    hide PgDecode, Filter;
    var id := w.multis.ids[i];
    InsertedSinglesHaveNoUpload(db, s3, now, lot, w);
    UpsertKeepsRow(w.singles.table, now, RenewWindow(PART_SIZE), MultiProposals(w, s3, lot), w.multis, id);
    SinglesKeepRow(db.table, now, SingleProposals(w, lot), w.singles, id);
    MultiColumnsZip(w.needed, MultiKeys(w), s3, lot, i);
    assert Settled(w.singles.table, now, RenewWindow(PART_SIZE), MultiProposals(w, s3, lot)[i], id, w.multis.table.rows[id]);
  }

  // The file meets a pending row whose window has lapsed, whose upload is no longer open, and
  // which has parts.
  ghost predicate MeetsLapsedUpload(pre: Stores, now: int, lot: Uuid, f: UploadFile) {
    exists id :: PendingFor(pre.db.table, lot, f, id) && LapsedUpload(pre.db.table.rows[id], pre.s3, now)
  }

  ghost predicate LapsedUpload(r: Row, s3: S3, now: int) {
    !Live(r, now) && !UploadOpen(r, s3) && PartNumbers(r.partCount) != []
  }

  // Every part request of the answer is for an open upload.
  ghost predicate RequestsOpen(p: PresignedFile, s3: S3) {
    p.url.MultiUrl? ==> forall k :: k in p.url.requests ==> IsOpen(s3, k.key, k.uploadId)
  }

  lemma StaysAsOpen(t: Table, s3: S3, id: int, keys: seq<Uuid>)
    requires StoreInv(t, s3) && id in t.rows
    ensures UploadOpen(t.rows[id], CreateAll(s3, keys)) <==> UploadOpen(t.rows[id], s3)
  {
    CreateAllEffect(s3, keys);
    if t.rows[id].uploadId.Some? {
      assert t.rows[id].uploadId.value !in Interval(s3.next, s3.next + |keys| - 1);
    }
  }

  lemma NewUploadIsOpen(db: Db, s3: S3, now: int, lot: Uuid, w: Trace, i: nat)
    requires UpsertsEffect(db, s3, now, lot, w) && i < |w.multis.ids| && w.multis.ids[i] !in w.singles.table.rows
    ensures w.multis.ids[i] in w.multis.table.rows
    ensures UploadOpen(w.multis.table.rows[w.multis.ids[i]], CreateAll(s3, MultiKeys(w)))
  {
    hide PgDecode, Filter;
    assert Settled(w.singles.table, now, RenewWindow(PART_SIZE), MultiProposals(w, s3, lot)[i], w.multis.ids[i],
                   w.multis.table.rows[w.multis.ids[i]]);
    MultiColumnsZip(w.needed, MultiKeys(w), s3, lot, i);
    CreatedUnderKey(MultiKeys(w), s3, i);
  }

  // The requests of an answer all go to the upload of its row.
  lemma RequestsOfRow(row: MultiRow, files: seq<UploadFile>, s3: S3)
    requires row.uploadId.Some?
    ensures IsOpen(s3, row.storageKey, row.uploadId.value) ==> RequestsOpen(UrlOf(row, files, s3), s3)
    ensures TreatedAsNew(row) && row.parts != [] && RequestsOpen(UrlOf(row, files, s3), s3) ==>
              IsOpen(s3, row.storageKey, row.uploadId.value)
    ensures TreatedAsNew(row) && row.parts == [] ==> RequestsOpen(UrlOf(row, files, s3), s3)
  {
    var p := UrlOf(row, files, s3);
    forall k | k in p.url.requests
      ensures k.key == row.storageKey && k.uploadId == row.uploadId.value && k.part in row.parts
    {
      TokensAreParts(row, s3, files, k);
    }
    if TreatedAsNew(row) && row.parts != [] {
      assert p.url.requests[0] == Token(row.storageKey, row.uploadId.value, row.parts[0]);
      assert p.url.requests[0] in p.url.requests;
    }
  }

  lemma NewRowMeetsNothing(pre: Stores, now: int, lot: Uuid, w: Trace, i: nat)
    requires ValidTable(pre.db.table) && UpsertsEffect(pre.db, pre.s3, now, lot, w)
    requires i < |w.multis.ids| && w.multis.ids[i] !in w.singles.table.rows
    ensures i < |Multis(w.needed)| && !HasPending(pre.db.table, lot, Multis(w.needed)[i])
  {
    hide PgDecode, Filter;
    var t, f, p := pre.db.table, Multis(w.needed)[i], MultiProposals(w, pre.s3, lot)[i];
    MultiColumnsZip(w.needed, MultiKeys(w), pre.s3, lot, i);
    assert Settled(w.singles.table, now, RenewWindow(PART_SIZE), p, w.multis.ids[i], w.multis.table.rows[w.multis.ids[i]]);
    forall id | PendingFor(t, lot, f, id)
      ensures false
    {
      PendingKept(t, now, KeepStorageKey, SingleProposals(w, lot), w.singles, p.sha, lot, id);
    }
  }

  // A row found by the multipart statement is treated as new exactly when its window had lapsed.
  lemma FoundRow(pre: Stores, now: int, lot: Uuid, w: Trace, i: nat)
    requires TableInv(pre.db.table) && UpsertsEffect(pre.db, pre.s3, now, lot, w) && i < |Multis(w.needed)|
    requires RowsIn(w.multis.table, w.multis.ids) && i < |Returned(w, now)| && !HasNull(Returned(w, now)[i])
    requires w.multis.ids[i] in w.singles.table.rows
    ensures var id, row := w.multis.ids[i], Returned(w, now)[i];
            && id in pre.db.table.rows && PendingFor(pre.db.table, lot, Multis(w.needed)[i], id)
            && var r := pre.db.table.rows[id];
               && row.storageKey == r.storageKey && row.uploadId == r.uploadId && row.parts == PartNumbers(r.partCount)
               && (TreatedAsNew(row) <==> !Live(r, now))
  {
    hide PgDecode, Filter;
    var id := w.multis.ids[i];
    FoundIsOld(pre.db, pre.s3, now, lot, w, i);
    var r, u := pre.db.table.rows[id], w.singles.table.rows[id];
    assert RowShape(r);
    assert Settled(w.singles.table, now, RenewWindow(PART_SIZE), MultiProposals(w, pre.s3, lot)[i], id, w.multis.table.rows[id]);
    UpdateKeepsIdentity(RenewWindow(PART_SIZE), u, now);
  }

  lemma RowRequestsOpen(pre: Stores, now: int, lot: Uuid, w: Trace, i: nat)
    requires TableInv(pre.db.table) && StoreInv(pre.db.table, pre.s3) && UpsertsEffect(pre.db, pre.s3, now, lot, w)
    requires RowsIn(w.multis.table, w.multis.ids) && i < |Multis(w.needed)| && i < |Returned(w, now)|
    requires !HasNull(Returned(w, now)[i]) && Resumable(Returned(w, now)[i], CreateAll(pre.s3, MultiKeys(w)))
    ensures var s3' := CreateAll(pre.s3, MultiKeys(w));
            RequestsOpen(UrlOf(Returned(w, now)[i], Multis(w.needed), s3'), s3') <==>
            !MeetsLapsedUpload(pre, now, lot, Multis(w.needed)[i])
  {
    hide PgDecode, Filter, UpsertEffect, RequestsOpen, UrlOf, CreateAll, Live;
    var s3', row, id, t := CreateAll(pre.s3, MultiKeys(w)), Returned(w, now)[i], w.multis.ids[i], pre.db.table;
    RequestsOfRow(row, Multis(w.needed), s3');
    if id in w.singles.table.rows {
      FoundRow(pre, now, lot, w, i);
      StaysAsOpen(t, pre.s3, id, MultiKeys(w));
      assert forall j :: PendingFor(t, lot, Multis(w.needed)[i], j) ==> j == id;
    } else {
      NewRowMeetsNothing(pre, now, lot, w, i);
      NewUploadIsOpen(pre.db, pre.s3, now, lot, w, i);
    }
  }

  // Every part request of a reply is for an open upload exactly when no multipart file that needs
  // an upload meets a pending row with a lapsed window whose upload has been completed.
  lemma OpenRequests(pre: Stores, now: int, files: seq<UploadFile>, lot: Uuid, w: Trace, post: Stores, res: UploadResult)
    requires TableInv(pre.db.table) && StoreInv(pre.db.table, pre.s3) && Initiated(pre, now, files, lot, w, post, res)
    ensures (forall p :: p in res.presigned ==> RequestsOpen(p, post.s3)) <==>
            forall f :: Needs(pre.db, files, f) && IsMulti(f) ==> !MeetsLapsedUpload(pre, now, lot, f)
  {
    hide PgDecode, Filter, UpsertsEffect, Statement, Classified, Needs, MeetsLapsedUpload, TableInv, StoreInv;
    ValidFromInv(pre.db.table);
    UpsertsMeetEffect(pre.db, pre.s3, now, lot, w);
    NeededAre(pre.db, files, lot, w, res);
    var single, multi :| PresignedInStages(now, w, post.s3, single, multi) && res.presigned == single + multi;
    var rows, m := Returned(w, now), Multis(w.needed);
    var urls := MultiUrls(rows, m, post.s3);
    RowCounts(pre, now, lot, w);
    forall i | 0 <= i < |m|
      ensures RequestsOpen(urls[i], post.s3) <==> !MeetsLapsedUpload(pre, now, lot, m[i])
    {
      assert rows[i] in rows;
      RowRequestsOpen(pre, now, lot, w, i);
    }
    assert forall p :: p in single ==> RequestsOpen(p, post.s3);
    forall p: PresignedFile
      ensures p in multi <==> p in urls
    {
      PermutationMember(multi, urls, p);
    }
    AllOpen(m, urls, pre, now, lot, post.s3);
  }

  lemma AllOpen(m: seq<UploadFile>, urls: seq<PresignedFile>, pre: Stores, now: int, lot: Uuid, s3: S3)
    requires |m| == |urls|
    requires forall i :: 0 <= i < |m| ==> (RequestsOpen(urls[i], s3) <==> !MeetsLapsedUpload(pre, now, lot, m[i]))
    ensures (forall p :: p in urls ==> RequestsOpen(p, s3)) <==> forall f :: f in m ==> !MeetsLapsedUpload(pre, now, lot, f)
  {
    hide RequestsOpen, MeetsLapsedUpload;
    assert forall i :: 0 <= i < |m| ==> m[i] in m && urls[i] in urls;
  }

  lemma RowCounts(pre: Stores, now: int, lot: Uuid, w: Trace)
    requires UpsertsEffect(pre.db, pre.s3, now, lot, w) && RowsIn(w.multis.table, w.multis.ids)
    ensures |Returned(w, now)| == |Multis(w.needed)|
  {
    hide PgDecode, Filter;
  }

  /* ---------- which answers share a key ---------- */

  // A request that finds the row has parts of it presigned: what is missing while the row is live,
  // everything once its window has lapsed.
  ghost predicate PartsAreRequested(r: Row, s3: S3, now: int) {
    (if Live(r, now) then Missing(PartNumbers(r.partCount), PageOf(s3, r.uploadId.GetOr(0))) else PartNumbers(r.partCount)) != []
  }

  // The pending row of the file has parts to request.
  ghost predicate PartsWaiting(pre: Stores, now: int, lot: Uuid, f: UploadFile) {
    exists id :: PendingFor(pre.db.table, lot, f, id) && PartsAreRequested(pre.db.table.rows[id], pre.s3, now)
  }

  // A single file that needs an upload and whose digest is not canonical.
  ghost predicate NilKeyed(db: Db, files: seq<UploadFile>, f: UploadFile) {
    Needs(db, files, f) && IsSingle(f) && !Canonical(f.sha256)
  }

  // There is at most one such file.
  ghost predicate OneNilKey(db: Db, files: seq<UploadFile>) {
    forall f, g :: NilKeyed(db, files, f) && NilKeyed(db, files, g) ==> f == g
  }

  // A canonical single file and a multipart file of one digest that both need an upload.
  ghost predicate TwoKinds(db: Db, files: seq<UploadFile>, f: UploadFile, g: UploadFile) {
    && Needs(db, files, f) && IsSingle(f) && Canonical(f.sha256)
    && Needs(db, files, g) && IsMulti(g) && SameDigest(f, g)
  }

  // No such pair whose row has parts to request.
  ghost predicate NoSharedUpload(pre: Stores, now: int, files: seq<UploadFile>, lot: Uuid) {
    forall f, g :: TwoKinds(pre.db, files, f, g) ==> !PartsWaiting(pre, now, lot, g)
  }

  lemma PageStays(s3: S3, keys: seq<Uuid>, t: Table, id: int)
    requires StoreInv(t, s3) && id in t.rows && t.rows[id].uploadId.Some?
    ensures PageOf(CreateAll(s3, keys), t.rows[id].uploadId.value) == PageOf(s3, t.rows[id].uploadId.value)
  {
    CreateAllEffect(s3, keys);
    assert t.rows[id].uploadId.value !in Interval(s3.next, s3.next + |keys| - 1);
  }

  lemma RequestCount(row: MultiRow, files: seq<UploadFile>, s3: S3)
    requires row.uploadId.Some?
    ensures |UrlOf(row, files, s3).url.requests| ==
            |if TreatedAsNew(row) then row.parts else Missing(row.parts, PageOf(s3, row.uploadId.value))|
  {
  }

  // A multipart answer for the digest of a single file of the batch carries requests exactly when
  // the row, which was there before, has parts to request.
  lemma SharedRequests(pre: Stores, now: int, lot: Uuid, w: Trace, i: nat, j: nat)
    requires Answered(pre, now, lot, w) && i < |Singles(w.needed)| && j < |Multis(w.needed)|
    requires SameDigest(Singles(w.needed)[i], Multis(w.needed)[j])
    ensures |Returned(w, now)| == |Multis(w.needed)|
    ensures UrlOf(Returned(w, now)[j], Multis(w.needed), CreateAll(pre.s3, MultiKeys(w))).url.requests != [] <==>
            PartsWaiting(pre, now, lot, Multis(w.needed)[j])
  {
    hide PgDecode, Filter, Canonical, UpsertEffect, KeysOf, UrlOf, CreateAll, Missing, Live, SingleUrlOf;
    var s3', t := CreateAll(pre.s3, MultiKeys(w)), pre.db.table;
    SingleWrites(pre, now, lot, w, i);
    MultiWrites(pre, s3', now, lot, w, j);
    var id := w.multis.ids[j];
    ValidFromInv(w.multis.table);
    assert w.singles.ids[i] == id;
    assert id in w.singles.table.rows;
    var row := Returned(w, now)[j];
    assert row in Returned(w, now);
    FoundRow(pre, now, lot, w, j);
    PageStays(pre.s3, MultiKeys(w), t, id);
    RequestCount(row, Multis(w.needed), s3');
    assert forall k :: PendingFor(t, lot, Multis(w.needed)[j], k) ==> k == id;
  }

  ghost predicate AllApart(urls: seq<PresignedFile>) {
    forall p, q :: p in urls && q in urls && p != q ==> KeysOf(p) !! KeysOf(q)
  }

  // The answers of a reply, by position; the multipart ones in the order of their files.
  lemma Positions(now: int, w: Trace, s3: S3, single: seq<PresignedFile>, multi: seq<PresignedFile>)
    requires RowsIn(w.singles.table, w.singles.ids) && RowsIn(w.multis.table, w.multis.ids)
    requires PresignedInStages(now, w, s3, single, multi)
    ensures single == SingleUrls(Singles(w.needed), SingleRowsOf(w))
    ensures forall p :: p in single + multi <==> p in single || p in MultiUrls(Returned(w, now), Multis(w.needed), s3)
  {
    forall p: PresignedFile
      ensures p in multi <==> p in MultiUrls(Returned(w, now), Multis(w.needed), s3)
    {
      PermutationMember(multi, MultiUrls(Returned(w, now), Multis(w.needed), s3), p);
    }
  }

  // Two answers of a reply are apart when the batch meets the two conditions.
  lemma TwoApart(pre: Stores, now: int, files: seq<UploadFile>, lot: Uuid, w: Trace, res: UploadResult, p: PresignedFile, q: PresignedFile)
    requires Answered(pre, now, lot, w) && Classified(pre.db, files, lot, w, res)
    requires OneNilKey(pre.db, files) && NoSharedUpload(pre, now, files, lot) && p != q
    requires var s3' := CreateAll(pre.s3, MultiKeys(w));
             && (p in SingleUrls(Singles(w.needed), SingleRowsOf(w)) || p in MultiUrls(Returned(w, now), Multis(w.needed), s3'))
             && (q in SingleUrls(Singles(w.needed), SingleRowsOf(w)) || q in MultiUrls(Returned(w, now), Multis(w.needed), s3'))
    ensures KeysOf(p) !! KeysOf(q)
  {
    hide PgDecode, Filter, Canonical, UpsertEffect, KeysOf, UrlOf, SingleUrlOf, CreateAll, TableInv, StoreInv, Classified,
         OneNilKey, NoSharedUpload, Unambiguous, HasNull;
    var s, m, s3' := Singles(w.needed), Multis(w.needed), CreateAll(pre.s3, MultiKeys(w));
    var single, urls := SingleUrls(s, SingleRowsOf(w)), MultiUrls(Returned(w, now), m, s3');
    ReturnedSize(pre, now, lot, w);
    if p in single && q in single {
      var i :| 0 <= i < |single| && single[i] == p;
      var j :| 0 <= j < |single| && single[j] == q;
      NilApart(pre, now, files, lot, w, res, i, j);
    } else if p in single {
      var i :| 0 <= i < |single| && single[i] == p;
      var j :| 0 <= j < |urls| && urls[j] == q;
      MixedApart(pre, now, files, lot, w, res, i, j);
    } else if q in single {
      var j :| 0 <= j < |urls| && urls[j] == p;
      var i :| 0 <= i < |single| && single[i] == q;
      MixedApart(pre, now, files, lot, w, res, i, j);
    } else {
      var i :| 0 <= i < |urls| && urls[i] == p;
      var j :| 0 <= j < |urls| && urls[j] == q;
      MultisApart(pre, s3', now, lot, w, i, j);
    }
  }

  lemma NilApart(pre: Stores, now: int, files: seq<UploadFile>, lot: Uuid, w: Trace, res: UploadResult, i: nat, j: nat)
    requires Answered(pre, now, lot, w) && Classified(pre.db, files, lot, w, res) && OneNilKey(pre.db, files)
    requires i < |Singles(w.needed)| && j < |Singles(w.needed)| && i != j
    ensures KeysOf(SingleUrlOf(Singles(w.needed)[i], SingleRowsOf(w))) !! KeysOf(SingleUrlOf(Singles(w.needed)[j], SingleRowsOf(w)))
  {
    hide PgDecode, Filter, Canonical, UpsertEffect, KeysOf, SingleUrlOf, TableInv, StoreInv, Classified, Needs, Unambiguous, HasNull;
    var s := Singles(w.needed);
    NeededAre(pre.db, files, lot, w, res);
    SinglesApart(pre, now, lot, w, i, j);
    assert s[i] in s && s[j] in s && s[i] != s[j];
    assert !Canonical(s[i].sha256) ==> NilKeyed(pre.db, files, s[i]);
    assert !Canonical(s[j].sha256) ==> NilKeyed(pre.db, files, s[j]);
  }

  lemma ReturnedSize(pre: Stores, now: int, lot: Uuid, w: Trace)
    requires Answered(pre, now, lot, w)
    ensures |Returned(w, now)| == |Multis(w.needed)|
  {
    hide PgDecode, Filter;
    RowCounts(pre, now, lot, w);
  }

  lemma MixedApart(pre: Stores, now: int, files: seq<UploadFile>, lot: Uuid, w: Trace, res: UploadResult, i: nat, j: nat)
    requires Answered(pre, now, lot, w) && Classified(pre.db, files, lot, w, res) && NoSharedUpload(pre, now, files, lot)
    requires i < |Singles(w.needed)| && j < |Multis(w.needed)|
    ensures |Returned(w, now)| == |Multis(w.needed)|
    ensures KeysOf(SingleUrlOf(Singles(w.needed)[i], SingleRowsOf(w))) !!
            KeysOf(UrlOf(Returned(w, now)[j], Multis(w.needed), CreateAll(pre.s3, MultiKeys(w))))
  {
    hide PgDecode, Filter, Canonical, UpsertEffect, KeysOf, UrlOf, CreateAll, TableInv, StoreInv, Classified, Needs, PartsWaiting,
         SameDigest, SingleUrlOf;
    var s, m := Singles(w.needed), Multis(w.needed);
    NeededAre(pre.db, files, lot, w, res);
    KindsApart(pre, CreateAll(pre.s3, MultiKeys(w)), now, lot, w, i, j);
    assert s[i] in s && m[j] in m;
    if SameDigest(s[i], m[j]) {
      SharedRequests(pre, now, lot, w, i, j);
      assert Canonical(s[i].sha256) ==> TwoKinds(pre.db, files, s[i], m[j]);
    }
  }

  // Any two different answers of a reply share no object key exactly when at most one single file
  // that needs an upload has a digest that is not canonical, and no canonical single file has the
  // digest of a multipart file whose pending row has parts to request.
  lemma AnswersApart(pre: Stores, now: int, files: seq<UploadFile>, lot: Uuid, w: Trace, post: Stores, res: UploadResult)
    requires TableInv(pre.db.table) && StoreInv(pre.db.table, pre.s3) && FreshDraws(pre.db.table, w.draws)
    requires Initiated(pre, now, files, lot, w, post, res)
    ensures AllApart(res.presigned) <==> OneNilKey(pre.db, files) && NoSharedUpload(pre, now, files, lot)
  {
    hide PgDecode, Filter, Canonical, KeysOf, UrlOf, CreateAll, TableInv, StoreInv, Classified, Needs, PartsWaiting, Statement,
         Answered, FreshDraws;
    ReplyIsAnswered(pre, now, files, lot, w, post, res);
    var single, multi :| PresignedInStages(now, w, post.s3, single, multi) && res.presigned == single + multi;
    Positions(now, w, post.s3, single, multi);
    if OneNilKey(pre.db, files) && NoSharedUpload(pre, now, files, lot) {
      forall p, q | p in res.presigned && q in res.presigned && p != q
        ensures KeysOf(p) !! KeysOf(q)
      {
        TwoApart(pre, now, files, lot, w, res, p, q);
      }
    }
    if AllApart(res.presigned) {
      ApartMeansOneNil(pre, now, files, lot, w, post, res);
      ApartMeansNoneShared(pre, now, files, lot, w, post, res, single, multi);
    }
  }

  // Of replies that can be built, only the nil key is ever shared.
  lemma BuiltAnswersApart(pre: Stores, now: int, files: seq<UploadFile>, lot: Uuid, w: Trace, post: Stores, res: UploadResult)
    requires TableInv(pre.db.table) && StoreInv(pre.db.table, pre.s3) && FreshDraws(pre.db.table, w.draws)
    requires Initiated(pre, now, files, lot, w, post, res) && AllCanonical(Multis(FirstOccurrences(files)))
    ensures AllApart(res.presigned) <==> OneNilKey(pre.db, files)
  {
    hide Initiated, AllApart, OneNilKey, FreshDraws, TableInv, StoreInv, PartsWaiting, PgDecode, Canonical, Filter, IsStored;
    AnswersApart(pre, now, files, lot, w, post, res);
    DedupeDistinct(files);
    forall f, g | TwoKinds(pre.db, files, f, g)
      ensures false
    {
      FilterMember(IsMulti, FirstOccurrences(files), g);
      MultiplicityOne(FirstOccurrences(files), f, g);
      CanonicalDecodes(f.sha256);
      CanonicalDecodes(g.sha256);
    }
  }

  lemma ApartMeansOneNil(pre: Stores, now: int, files: seq<UploadFile>, lot: Uuid, w: Trace, post: Stores, res: UploadResult)
    requires Initiated(pre, now, files, lot, w, post, res) && AllApart(res.presigned)
    ensures OneNilKey(pre.db, files)
  {
    hide Initiated, Canonical, Needs, KeysOf;
    forall f, g | NilKeyed(pre.db, files, f) && NilKeyed(pre.db, files, g)
      ensures f == g
    {
      var p := NilKey(pre, now, files, lot, w, post, res, f);
      var q := NilKey(pre, now, files, lot, w, post, res, g);
      assert NIL_UUID in KeysOf(p) && NIL_UUID in KeysOf(q);
    }
  }

  lemma ApartMeansNoneShared(pre: Stores, now: int, files: seq<UploadFile>, lot: Uuid, w: Trace, post: Stores, res: UploadResult,
                             single: seq<PresignedFile>, multi: seq<PresignedFile>)
    requires Answered(pre, now, lot, w) && Classified(pre.db, files, lot, w, res) && AllApart(res.presigned)
    requires post.s3 == CreateAll(pre.s3, MultiKeys(w))
    requires PresignedInStages(now, w, post.s3, single, multi) && res.presigned == single + multi
    ensures NoSharedUpload(pre, now, files, lot)
  {
    hide PgDecode, Filter, Canonical, UpsertsEffect, KeysOf, CreateAll, TableInv, StoreInv, Classified, Needs, PartsWaiting,
         SameDigest, PresignedInStages;
    var s, m := Singles(w.needed), Multis(w.needed);
    var urls := MultiUrls(Returned(w, now), m, post.s3);
    NeededAre(pre.db, files, lot, w, res);
    Positions(now, w, post.s3, single, multi);
    ReturnedSize(pre, now, lot, w);
    forall f, g | TwoKinds(pre.db, files, f, g)
      ensures !PartsWaiting(pre, now, lot, g)
    {
      var i :| 0 <= i < |s| && s[i] == f;
      var j :| 0 <= j < |m| && m[j] == g;
      KindsApart(pre, post.s3, now, lot, w, i, j);
      SharedRequests(pre, now, lot, w, i, j);
      assert single[i] in single && urls[j] in urls;
      assert single[i] != urls[j];
    }
  }

  // A canonical batch meets both conditions.
  lemma CanonicalIsApart(pre: Stores, now: int, files: seq<UploadFile>, lot: Uuid)
    requires AllCanonical(files)
    ensures OneNilKey(pre.db, files) && NoSharedUpload(pre, now, files, lot)
  {
    hide PgDecode, Canonical, IsStored;
    DedupeDistinct(files);
    forall f, g | Needs(pre.db, files, f) && Needs(pre.db, files, g) && f != g
      ensures !SameDigest(f, g)
    {
      MultiplicityOne(FirstOccurrences(files), f, g);
      CanonicalDecodes(f.sha256);
      CanonicalDecodes(g.sha256);
    }
  }
}
