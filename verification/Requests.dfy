// What holds of every successful upload request: no file is lost, every presigned request
// targets the row of its own file, and the exact condition on the digests for both.
module Requests {
  import opened Wrappers
  import opened Hex
  import opened Base64
  import opened Parts
  import opened Attempts
  import opened ObjectStore
  import opened Database
  import opened Intake
  import opened Uploads
  import opened ImageStore
  import opened Conditions
  import opened Wire

  /* ---------- the two upserts of a request ---------- */

  ghost function SingleProposals(w: Trace, lot: Uuid): seq<Proposal>
    requires EnoughDraws(w) && AllDecode(Shas(Singles(w.needed)))
  {
    Proposals(SingleColumns(w), false, 0, lot)
  }

  ghost function MultiProposals(w: Trace, s3: S3, lot: Uuid): seq<Proposal>
    requires EnoughDraws(w) && AllDecode(Shas(Multis(w.needed)))
  {
    Proposals(MultiColumns(w, s3), true, PART_SIZE, lot)
  }

  // Both statements succeeded, each with the effect of an upsert of its files.
  ghost predicate UpsertsEffect(db: Db, s3: S3, now: int, lot: Uuid, w: Trace) {
    && EnoughDraws(w)
    && AllDecode(Shas(Singles(w.needed))) && AllDecode(Shas(Multis(w.needed)))
    && UpsertEffect(db.table, now, KeepStorageKey, SingleProposals(w, lot), w.singles)
    && UpsertEffect(w.singles.table, now, RenewWindow(PART_SIZE), MultiProposals(w, s3, lot), w.multis)
  }

  lemma UpsertsMeetEffect(db: Db, s3: S3, now: int, lot: Uuid, w: Trace)
    requires ValidTable(db.table) && EnoughDraws(w) && Upserts(db, s3, now, lot, w)
    ensures UpsertsEffect(db, s3, now, lot, w)
  {
    UpsertMeetsEffect(db.table, now, KeepStorageKey, SingleProposals(w, lot));
    UpsertMeetsEffect(w.singles.table, now, RenewWindow(PART_SIZE), MultiProposals(w, s3, lot));
  }

  // Row i of the multipart statement is that of multipart file i.
  lemma MultiRowOf(db: Db, s3: S3, now: int, lot: Uuid, w: Trace, i: nat)
    requires UpsertsEffect(db, s3, now, lot, w) && i < |Multis(w.needed)|
    ensures |w.multis.ids| == |Multis(w.needed)| && RowsIn(w.multis.table, w.multis.ids)
    ensures var f := Multis(w.needed)[i];
            && f in w.needed && IsMulti(f) && PgDecode(f.sha256).Some?
            && PendingAt(w.multis.table, PgDecode(f.sha256).value, lot, w.multis.ids[i])
            && Returned(w, now)[i] == ReturnedRow(w.singles.table, w.multis.ids[i], w.multis.table.rows[w.multis.ids[i]], now)
  {
    hide PgDecode, Filter, UpdateRow;
    MultiColumnsZip(w.needed, MultiKeys(w), s3, lot, i);
  }

  lemma SingleRowOfFile(db: Db, s3: S3, now: int, lot: Uuid, w: Trace, i: nat)
    requires UpsertsEffect(db, s3, now, lot, w) && i < |Singles(w.needed)|
    ensures |w.singles.ids| == |Singles(w.needed)| && RowsIn(w.singles.table, w.singles.ids)
    ensures var f := Singles(w.needed)[i];
            && f in w.needed && IsSingle(f) && PgDecode(f.sha256).Some?
            && PendingAt(w.singles.table, PgDecode(f.sha256).value, lot, w.singles.ids[i])
  {
    hide PgDecode, Filter, UpdateRow;
    SingleColumnsZip(w.needed, SingleKeys(w), lot, i);
  }

  // Two multipart files of one successful request never denote the same digest.
  lemma MultiDigestsDiffer(db: Db, s3: S3, now: int, lot: Uuid, w: Trace, i: nat, j: nat)
    requires UpsertsEffect(db, s3, now, lot, w) && i < |Multis(w.needed)| && j < |Multis(w.needed)| && i != j
    ensures PgDecode(Multis(w.needed)[i].sha256) != PgDecode(Multis(w.needed)[j].sha256)
  {
    hide PgDecode, Filter, UpdateRow;
    MultiRowOf(db, s3, now, lot, w, i);
    MultiRowOf(db, s3, now, lot, w, j);
  }

  // The file the response carries for multipart file i: the file itself when its digest is
  // canonical, the zero file when it is not.
  lemma CarriedFile(db: Db, s3: S3, now: int, lot: Uuid, w: Trace, i: nat)
    requires UpsertsEffect(db, s3, now, lot, w) && DistinctShas(Multis(w.needed)) && i < |Multis(w.needed)|
    ensures |Returned(w, now)| == |Multis(w.needed)| && RowsIn(w.multis.table, w.multis.ids)
    ensures var m := Multis(w.needed);
            LookupFile(m, Returned(w, now)[i].sha256) == if Canonical(m[i].sha256) then m[i] else ZERO_FILE
  {
    var m := Multis(w.needed);
    MultiRowOf(db, s3, now, lot, w, i);
    var s := Returned(w, now)[i].sha256;
    CanonicalRoundTrip(m[i].sha256);
    EncodeCanonical(PgDecode(m[i].sha256).value);
    assert s == ReturnedSha(m[i].sha256);
    forall j | 0 <= j < |m| && j != i
      ensures m[j].sha256 != s
    {
      MultiDigestsDiffer(db, s3, now, lot, w, i, j);
    }
  }

  /* ---------- conservation ---------- */

  function FilesOf(urls: seq<PresignedFile>): seq<UploadFile> {
    Map((p: PresignedFile) => p.file, urls)
  }

  // The files of the multipart part of the response, before reordering.
  ghost function CarriedFiles(m: seq<UploadFile>): (r: seq<UploadFile>)
    ensures |r| == |m| && forall i :: 0 <= i < |m| ==> r[i] == if Canonical(m[i].sha256) then m[i] else ZERO_FILE
  {
    Map((f: UploadFile) => if Canonical(f.sha256) then f else ZERO_FILE, m)
  }

  lemma CarriedInOrder(db: Db, s3: S3, s3': S3, now: int, lot: Uuid, w: Trace)
    requires UpsertsEffect(db, s3, now, lot, w) && DistinctShas(Multis(w.needed))
    requires RowsIn(w.multis.table, w.multis.ids)
    ensures FilesOf(MultiUrls(Returned(w, now), Multis(w.needed), s3')) == CarriedFiles(Multis(w.needed))
  {
    hide PgDecode, Filter, UpdateRow, Canonical;
    var m := Multis(w.needed);
    assert |Returned(w, now)| == |m|;
    forall i | 0 <= i < |m|
      ensures FilesOf(MultiUrls(Returned(w, now), m, s3'))[i] == CarriedFiles(m)[i]
    {
      CarriedFile(db, s3, now, lot, w, i);
    }
  }

  lemma StagesFiles(db: Db, s3: S3, s3': S3, now: int, lot: Uuid, w: Trace, single: seq<PresignedFile>, multi: seq<PresignedFile>)
    requires UpsertsEffect(db, s3, now, lot, w) && DistinctShas(Multis(w.needed))
    requires RowsIn(w.singles.table, w.singles.ids) && RowsIn(w.multis.table, w.multis.ids)
    requires PresignedInStages(now, w, s3', single, multi)
    ensures FilesOf(single) == Singles(w.needed)
    ensures multiset(FilesOf(multi)) == multiset(CarriedFiles(Multis(w.needed)))
  {
    hide UpsertsEffect, Filter, Canonical, UrlOf, HasNull, Resumable;
    var urls := MultiUrls(Returned(w, now), Multis(w.needed), s3');
    MapPermutation((p: PresignedFile) => p.file, multi, urls);
    CarriedInOrder(db, s3, s3', now, lot, w);
  }

  // The response carries the single-part files and, up to order, the carried multipart files.
  lemma ResponseFiles(pre: Stores, now: int, files: seq<UploadFile>, lot: Uuid, w: Trace, post: Stores, res: UploadResult)
    requires ValidTable(pre.db.table) && Initiated(pre, now, files, lot, w, post, res)
    ensures multiset(FilesOf(res.presigned)) == multiset(Singles(w.needed)) + multiset(CarriedFiles(Multis(w.needed)))
  {
    hide PgDecode, Filter, UpdateRow, Statement, UpsertsEffect, PresignedInStages, CarriedFiles;
    UpsertsMeetEffect(pre.db, pre.s3, now, lot, w);
    NeededDistinct(pre.db, files, lot, w, res);
    var single, multi :| PresignedInStages(now, w, post.s3, single, multi) && res.presigned == single + multi;
    StagesFiles(pre.db, pre.s3, post.s3, now, lot, w, single, multi);
    assert FilesOf(res.presigned) == FilesOf(single) + FilesOf(multi);
  }

  lemma CarriedAll(m: seq<UploadFile>)
    ensures AllCanonical(m) ==> CarriedFiles(m) == m
    ensures forall f :: f in CarriedFiles(m) ==> f == ZERO_FILE || (f in m && Canonical(f.sha256))
    ensures !AllCanonical(m) ==> ZERO_FILE in CarriedFiles(m)
  {
    assert forall i :: 0 <= i < |m| ==> m[i] in m;
    if !AllCanonical(m) {
      var f :| f in m && !Canonical(f.sha256);
      var i :| 0 <= i < |m| && m[i] == f;
      assert CarriedFiles(m)[i] == ZERO_FILE;
    }
  }

  // Every file of a successful request comes back as a duplicate, as already uploaded or with
  // presigned requests, and as often as it was sent, exactly when the digests of the multipart
  // files it keeps are canonical.
  lemma Conservation(pre: Stores, now: int, files: seq<UploadFile>, lot: Uuid, w: Trace, post: Stores, res: UploadResult)
    requires ValidTable(pre.db.table) && Initiated(pre, now, files, lot, w, post, res)
    ensures multiset(files) == multiset(res.duplicates) + multiset(res.alreadyUploaded) + multiset(FilesOf(res.presigned))
            <==> AllCanonical(Multis(FirstOccurrences(files)))
  {
    hide PgDecode, Filter, UpdateRow, Statement, Canonical, Upserts, Presigned;
    CanonicalBatch(pre.db, files, lot, w, res);
    NeededDistinct(pre.db, files, lot, w, res);
    ResponseFiles(pre, now, files, lot, w, post, res);
    SizesSplit(w.needed);
    var s, m := Singles(w.needed), Multis(w.needed);
    CarriedAll(m);
    var others := multiset(res.duplicates) + multiset(res.alreadyUploaded);
    if !AllCanonical(m) {
      var f :| f in m && !Canonical(f.sha256);
      FilterMember(IsMulti, w.needed, f);
      FilterMember(IsSingle, w.needed, f);
      assert f !in s && f !in CarriedFiles(m);
      assert f in multiset(w.needed) && f !in multiset(FilesOf(res.presigned));
      assert multiset(files)[f] == others[f] + multiset(w.needed)[f];
    }
  }

  /* ---------- the response message ---------- */

  ghost predicate Convertible(files: seq<UploadFile>) {
    forall f :: f in files ==> ConvertToImageFile(f).Ok?
  }

  // The request is committed before its response is built.  Of files that came in over the
  // wire, the response can be built exactly when the kept multipart digests are canonical.
  lemma ResponseConvertible(pre: Stores, now: int, files: seq<UploadFile>, lot: Uuid, w: Trace, post: Stores, res: UploadResult)
    requires ValidTable(pre.db.table) && Initiated(pre, now, files, lot, w, post, res)
    requires forall f :: f in files ==> CameFromWire(f)
    ensures Convertible(res.duplicates) && Convertible(res.alreadyUploaded)
    ensures Convertible(FilesOf(res.presigned)) <==> AllCanonical(Multis(FirstOccurrences(files)))
  {
    hide PgDecode, Filter, UpdateRow, Statement, ConvertToImageFile, ConvertToUploadFile, Canonical, Upserts, Presigned;
    CanonicalBatch(pre.db, files, lot, w, res);
    NeededDistinct(pre.db, files, lot, w, res);
    ResponseFiles(pre, now, files, lot, w, post, res);
    SizesSplit(w.needed);
    var s, m := Singles(w.needed), Multis(w.needed);
    InOneOf(files, res.duplicates + res.alreadyUploaded, w.needed);
    InOneOf(w.needed, s, m);
    InOneOf(FilesOf(res.presigned), s, CarriedFiles(m));
    CarriedAll(m);
    forall f: UploadFile
      ensures CameFromWire(f) ==> ConvertToImageFile(f).Ok?
      ensures f == ZERO_FILE ==> !ConvertToImageFile(f).Ok?
    {
      ConvertibleFiles(f);
    }
  }

  /* ---------- targets ---------- */

  // The request, if any, goes to the pending row of the file it is presented with.
  ghost predicate TargetsRow(p: PresignedFile, id: int, r: Row) {
    match p.url
    case SingleUrl(key, checksum) =>
      r.uploadType.SingleUpload? && key == r.storageKey && Decode64(checksum) == Some(r.sha)
    case MultiUrl(requests, attemptId, partSize, etags) =>
      && IsMulti(p.file)
      && attemptId == id && r.partSize == Some(partSize)
      && forall k :: k in requests ==> k.key == r.storageKey && Some(k.uploadId) == r.uploadId && k.part in PartNumbers(r.partCount)
  }

  ghost predicate Targets(t: Table, lot: Uuid, p: PresignedFile) {
    && PgDecode(p.file.sha256).Some?
    && exists id :: PendingAt(t, PgDecode(p.file.sha256).value, lot, id) && TargetsRow(p, id, t.rows[id])
  }

  // No row and no draw uses the nil UUID.
  ghost predicate KeysNotNil(t: Table, draws: seq<Uuid>) {
    (forall id :: id in t.rows ==> t.rows[id].storageKey != NIL_UUID) && NIL_UUID !in draws
  }

  // Rows keep their identity through an upsert.
  lemma UpsertKeepsRow(t: Table, now: int, c: SetClause, props: seq<Proposal>, u: Upserted, id: int)
    requires UpsertEffect(t, now, c, props, u) && id in t.rows
    ensures id in u.table.rows && SameIdentity(t.rows[id], u.table.rows[id]) && u.table.rows[id].state == t.rows[id].state
  {
    if id in u.ids {
      var i :| 0 <= i < |u.ids| && u.ids[i] == id;
      assert Settled(t, now, c, props[i], id, u.table.rows[id]);
      UpdateKeepsIdentity(c, t.rows[id], now);
    }
  }

  lemma SingleKeysNotNil(db: Db, s3: S3, now: int, lot: Uuid, w: Trace, i: nat)
    requires UpsertsEffect(db, s3, now, lot, w) && KeysNotNil(db.table, w.draws) && i < |w.singles.ids|
    ensures w.singles.ids[i] in w.singles.table.rows && w.singles.table.rows[w.singles.ids[i]].storageKey != NIL_UUID
  {
    hide PgDecode, Filter;
    var id := w.singles.ids[i];
    var p := SingleProposals(w, lot)[i];
    assert Settled(db.table, now, KeepStorageKey, p, id, w.singles.table.rows[id]);
    if id in db.table.rows {
      UpdateKeepsIdentity(KeepStorageKey, db.table.rows[id], now);
    } else {
      assert p.storageKey == SingleKeys(w)[i] && SingleKeys(w)[i] in w.draws;
    }
  }

  ghost function SingleRowsOf(w: Trace): seq<SingleRow> {
    if RowsIn(w.singles.table, w.singles.ids) then SingleRows(w.singles) else []
  }

  // The pending row of a single file, before and after the multipart statement.
  lemma SingleRowKept(db: Db, s3: S3, now: int, lot: Uuid, w: Trace, i: nat)
    requires UpsertsEffect(db, s3, now, lot, w) && KeysNotNil(db.table, w.draws) && i < |Singles(w.needed)|
    ensures |SingleRowsOf(w)| == |w.singles.ids| == |Singles(w.needed)|
    ensures var f, id := Singles(w.needed)[i], w.singles.ids[i];
            && PgDecode(f.sha256).Some?
            && PendingAt(w.multis.table, PgDecode(f.sha256).value, lot, id)
            && w.multis.table.rows[id].storageKey != NIL_UUID
            && SingleRowsOf(w)[i] == SingleRow(Encode(PgDecode(f.sha256).value), w.multis.table.rows[id].storageKey)
  {
    hide PgDecode, Filter, UpdateRow, Encode;
    var id := w.singles.ids[i];
    SingleRowOfFile(db, s3, now, lot, w, i);
    UpsertKeepsRow(w.singles.table, now, RenewWindow(PART_SIZE), MultiProposals(w, s3, lot), w.multis, id);
    SingleKeysNotNil(db, s3, now, lot, w, i);
  }

  // The database only returns canonical digests, so any other text finds no row.
  lemma NoRowUnlessCanonical(w: Trace, s: string)
    requires !Canonical(s)
    ensures KeyIn(SingleRowsOf(w), s) == NIL_UUID
  {
    var rows := SingleRowsOf(w);
    forall r | r in rows
      ensures r.sha256 != s
    {
      var i :| 0 <= i < |rows| && rows[i] == r;
      EncodeCanonical(w.singles.table.rows[w.singles.ids[i]].sha);
    }
  }

  // The row of a single file is a single upload unless the file met a multipart upload.
  lemma SingleRowType(db: Db, s3: S3, now: int, lot: Uuid, w: Trace, i: nat)
    requires ValidTable(db.table) && UpsertsEffect(db, s3, now, lot, w) && i < |Singles(w.needed)|
    ensures |w.singles.ids| == |Singles(w.needed)| && w.singles.ids[i] in w.multis.table.rows
    ensures w.multis.table.rows[w.singles.ids[i]].uploadType.SingleUpload? <==>
            !MeetsMultiUpload(db.table, lot, Singles(w.needed)[i])
  {
    hide PgDecode, Filter, UpdateRow;
    var t, f, id, p := db.table, Singles(w.needed)[i], w.singles.ids[i], SingleProposals(w, lot)[i];
    SingleColumnsZip(w.needed, SingleKeys(w), lot, i);
    assert Settled(t, now, KeepStorageKey, p, id, w.singles.table.rows[id]);
    UpsertKeepsRow(w.singles.table, now, RenewWindow(PART_SIZE), MultiProposals(w, s3, lot), w.multis, id);
    if id in t.rows {
      UpsertKeepsRow(t, now, KeepStorageKey, SingleProposals(w, lot), w.singles, id);
      assert PendingFor(t, lot, f, id);
    } else {
      assert forall j :: !PendingFor(t, lot, f, j);
    }
  }

  lemma CanonicalSingleTargets(db: Db, s3: S3, now: int, lot: Uuid, w: Trace, i: nat)
    requires UpsertsEffect(db, s3, now, lot, w) && KeysNotNil(db.table, w.draws)
    requires Unambiguous(SingleRowsOf(w)) && i < |Singles(w.needed)| && AllHex(Singles(w.needed))
    requires ValidTable(db.table) && Canonical(Singles(w.needed)[i].sha256)
    ensures Targets(w.multis.table, lot, SingleUrlOf(Singles(w.needed)[i], SingleRowsOf(w))) <==>
            !MeetsMultiUpload(db.table, lot, Singles(w.needed)[i])
  {
    hide PgDecode, GoDecode, Filter, UpdateRow, Encode, Canonical, Decode64;
    var f, rows, id := Singles(w.needed)[i], SingleRowsOf(w), w.singles.ids[i];
    SingleRowKept(db, s3, now, lot, w, i);
    CanonicalDecodes(f.sha256);
    assert f in Singles(w.needed);
    HexToBase64Preserves(f.sha256);
    CanonicalIsHex(f.sha256);
    DecodersAgree(f.sha256);
    assert rows[i] in rows && rows[i].sha256 == f.sha256;
    assert KeyIn(rows, f.sha256) == rows[i].storageKey;
    SingleRowType(db, s3, now, lot, w, i);
    assert TargetsRow(SingleUrlOf(f, rows), id, w.multis.table.rows[id]) <==> !MeetsMultiUpload(db.table, lot, f);
  }

  lemma CanonicalIsHex(s: string)
    requires Canonical(s)
    ensures IsHex(s)
  {
  }

  // A single request targets a row of its own, which is a single upload, exactly when the digest
  // is canonical and no multipart upload of it was pending.
  lemma SingleTargets(db: Db, s3: S3, now: int, lot: Uuid, w: Trace, i: nat)
    requires UpsertsEffect(db, s3, now, lot, w) && KeysNotNil(db.table, w.draws)
    requires Unambiguous(SingleRowsOf(w)) && i < |Singles(w.needed)| && AllHex(Singles(w.needed)) && ValidTable(db.table)
    ensures Targets(w.multis.table, lot, SingleUrlOf(Singles(w.needed)[i], SingleRowsOf(w))) <==>
            Canonical(Singles(w.needed)[i].sha256) && !MeetsMultiUpload(db.table, lot, Singles(w.needed)[i])
  {
    hide PgDecode, GoDecode, Filter, UpdateRow, Encode, Canonical, Decode64;
    var f := Singles(w.needed)[i];
    if Canonical(f.sha256) {
      CanonicalSingleTargets(db, s3, now, lot, w, i);
    } else {
      SingleRowKept(db, s3, now, lot, w, i);
      NoRowUnlessCanonical(w, f.sha256);
    }
  }

  // A multipart request targets its row exactly when the digest is canonical.
  lemma MultiTargets(db: Db, s3: S3, s3': S3, now: int, lot: Uuid, w: Trace, i: nat)
    requires UpsertsEffect(db, s3, now, lot, w) && DistinctShas(Multis(w.needed)) && i < |Multis(w.needed)|
    requires RowsIn(w.multis.table, w.multis.ids) && i < |Returned(w, now)| && !HasNull(Returned(w, now)[i])
    ensures Targets(w.multis.table, lot, UrlOf(Returned(w, now)[i], Multis(w.needed), s3')) <==> Canonical(Multis(w.needed)[i].sha256)
  {
    var m := Multis(w.needed);
    var row := Returned(w, now)[i];
    var id := w.multis.ids[i];
    var p := UrlOf(row, m, s3');
    MultiRowOf(db, s3, now, lot, w, i);
    CarriedFile(db, s3, now, lot, w, i);
    if Canonical(m[i].sha256) {
      forall k | k in p.url.requests
        ensures k.key == row.storageKey && Some(k.uploadId) == row.uploadId && k.part in row.parts
      {
        TokensAreParts(row, s3', m, k);
      }
      assert TargetsRow(p, id, w.multis.table.rows[id]);
    }
  }

  lemma TokensAreParts(row: MultiRow, s3: S3, files: seq<UploadFile>, k: Token)
    requires row.uploadId.Some? && k in UrlOf(row, files, s3).url.requests
    ensures k.key == row.storageKey && k.uploadId == row.uploadId.value && k.part in row.parts
  {
    var parts := if TreatedAsNew(row) then row.parts else Missing(row.parts, PageOf(s3, row.uploadId.value));
    var tokens := TokensFor(row.storageKey, row.uploadId.value, parts);
    var i :| 0 <= i < |tokens| && tokens[i] == k;
    assert parts[i] in parts;
    FilterMembers((j: int) => j !in UploadedNumbers(PageOf(s3, row.uploadId.value)), row.parts);
  }

  lemma SingleRowsUnambiguousIn(pre: Stores, now: int, lot: Uuid, w: Trace)
    requires ValidTable(pre.db.table) && EnoughDraws(w) && Upserts(pre.db, pre.s3, now, lot, w)
    ensures Unambiguous(SingleRowsOf(w))
  {
    SingleRowsUnambiguous(pre.db, now, false, 0, lot, SingleColumns(w), w.singles);
  }

  // What a file needs for its requests to go to the right row.
  ghost predicate WellTargeted(t: Table, lot: Uuid, f: UploadFile) {
    Canonical(f.sha256) && (IsSingle(f) ==> !MeetsMultiUpload(t, lot, f))
  }

  // Every presigned request of the response targets the pending row of its own file, with the
  // right checksum or the right upload and parts, exactly when every digest of the batch is
  // canonical and no single file that needs an upload meets a pending multipart upload.
  lemma JoinCorrect(pre: Stores, now: int, files: seq<UploadFile>, lot: Uuid, w: Trace, post: Stores, res: UploadResult)
    requires ValidTable(pre.db.table) && KeysNotNil(pre.db.table, w.draws)
    requires Initiated(pre, now, files, lot, w, post, res)
    ensures (forall p :: p in res.presigned ==> Targets(post.db.table, lot, p)) <==>
            && AllCanonical(files)
            && forall f :: Needs(pre.db, files, f) && IsSingle(f) ==> !MeetsMultiUpload(pre.db.table, lot, f)
  {
    hide PgDecode, Filter, Canonical, UpdateRow, MeetsMultiUpload, Needs, Targets;
    JoinCorrectNeeded(pre, now, files, lot, w, post, res);
    NeededAre(pre.db, files, lot, w, res);
    CanonicalBatch(pre.db, files, lot, w, res);
  }

  lemma JoinCorrectNeeded(pre: Stores, now: int, files: seq<UploadFile>, lot: Uuid, w: Trace, post: Stores, res: UploadResult)
    requires ValidTable(pre.db.table) && KeysNotNil(pre.db.table, w.draws)
    requires Initiated(pre, now, files, lot, w, post, res)
    ensures (forall p :: p in res.presigned ==> Targets(post.db.table, lot, p)) <==>
            forall f :: f in w.needed ==> WellTargeted(pre.db.table, lot, f)
  {
    hide PgDecode, Filter, Canonical, UpdateRow, MeetsMultiUpload;
    UpsertsMeetEffect(pre.db, pre.s3, now, lot, w);
    NeededDistinct(pre.db, files, lot, w, res);
    SingleRowsUnambiguousIn(pre, now, lot, w);
    var single, multi :| PresignedInStages(now, w, post.s3, single, multi) && res.presigned == single + multi;
    var s, m, t := Singles(w.needed), Multis(w.needed), post.db.table;
    var urls := MultiUrls(Returned(w, now), m, post.s3);
    forall i | 0 <= i < |s|
      ensures Targets(t, lot, single[i]) <==> WellTargeted(pre.db.table, lot, s[i])
    {
      SingleRowOfFile(pre.db, pre.s3, now, lot, w, i);
      SingleTargets(pre.db, pre.s3, now, lot, w, i);
    }
    assert |urls| == |m|;
    forall i | 0 <= i < |m|
      ensures Targets(t, lot, urls[i]) <==> WellTargeted(pre.db.table, lot, m[i])
    {
      assert Returned(w, now)[i] in Returned(w, now);
      MultiRowOf(pre.db, pre.s3, now, lot, w, i);
      MultiTargets(pre.db, pre.s3, post.s3, now, lot, w, i);
    }
    AllOf(s, single, pre.db.table, t, lot);
    AllOf(m, urls, pre.db.table, t, lot);
    forall p: PresignedFile
      ensures p in res.presigned <==> p in single || p in urls
    {
      PermutationMember(multi, urls, p);
    }
    forall f: UploadFile
      ensures f in w.needed <==> f in s || f in m
    {
      FilterMember(IsSingle, w.needed, f);
      FilterMember(IsMulti, w.needed, f);
    }
  }

  lemma AllOf(files: seq<UploadFile>, urls: seq<PresignedFile>, before: Table, t: Table, lot: Uuid)
    requires |files| == |urls|
    requires forall i :: 0 <= i < |files| ==> (Targets(t, lot, urls[i]) <==> WellTargeted(before, lot, files[i]))
    ensures (forall p :: p in urls ==> Targets(t, lot, p)) <==> forall f :: f in files ==> WellTargeted(before, lot, f)
  {
    hide Targets, WellTargeted;
    assert forall i :: 0 <= i < |files| ==> files[i] in files && urls[i] in urls;
  }
}
