// The two requests of the service: initiating the uploads of a batch, and completing a
// multipart upload.
module ImageStore {
  import opened Wrappers
  import opened Hex
  import opened Base64
  import opened Parts
  import opened Attempts
  import opened ObjectStore
  import opened Database
  import opened Intake
  import opened Uploads

  datatype Stores = Stores(db: Db, s3: S3)

  datatype UploadResult = UploadResult(
    duplicates: seq<UploadFile>, alreadyUploaded: seq<UploadFile>, presigned: seq<PresignedFile>)

  /* ---------- single uploads ---------- */

  // The storage key a lookup by digest yields; the nil UUID when there is no such row.
  ghost function KeyIn(rows: seq<SingleRow>, sha256: string): Uuid {
    if exists r :: r in rows && r.sha256 == sha256
    then var r :| r in rows && r.sha256 == sha256; r.storageKey
    else NIL_UUID
  }

  ghost predicate Unambiguous(rows: seq<SingleRow>) {
    forall r, r' :: r in rows && r' in rows && r.sha256 == r'.sha256 ==> r == r'
  }

  ghost function SingleUrlOf(f: UploadFile, rows: seq<SingleRow>): PresignedFile {
    PresignedFile(f, SingleUrl(KeyIn(rows, f.sha256), HexToBase64(f.sha256).GetOr("")))
  }

  ghost function SingleUrls(files: seq<UploadFile>, rows: seq<SingleRow>): (r: seq<PresignedFile>)
    ensures |r| == |files| && forall i :: 0 <= i < |files| ==> r[i] == SingleUrlOf(files[i], rows)
  {
    Map((f: UploadFile) => SingleUrlOf(f, rows), files)
  }

  ghost predicate AllHex(files: seq<UploadFile>) {
    forall f :: f in files ==> HexToBase64(f.sha256).Some?
  }

  lemma StatementMeetsEffect(db: Db, now: int, multi: bool, partSize: int, lot: Uuid, cols: Columns, u: Upserted)
    requires ValidTable(db.table) && Aligned(cols, multi)
    requires Statement(db, now, multi, partSize, lot, cols) == Ok(u)
    ensures AllDecode(cols.sha256s)
    ensures UpsertEffect(db.table, now, ClauseOf(multi, partSize), Proposals(cols, multi, partSize, lot), u)
  {
    hide PgDecode;
    UpsertMeetsEffect(db.table, now, ClauseOf(multi, partSize), Proposals(cols, multi, partSize, lot));
  }

  // One statement never returns two rows with one digest.
  lemma SingleRowsUnambiguous(db: Db, now: int, multi: bool, partSize: int, lot: Uuid, cols: Columns, u: Upserted)
    requires ValidTable(db.table) && Aligned(cols, multi)
    requires Statement(db, now, multi, partSize, lot, cols) == Ok(u)
    ensures RowsIn(u.table, u.ids) && Unambiguous(SingleRows(u))
  {
    hide PgDecode, Statement, UpdateRow, InsertedRow, Encode;
    StatementMeetsEffect(db, now, multi, partSize, lot, cols, u);
    var props, rows := Proposals(cols, multi, partSize, lot), SingleRows(u);
    assert forall i :: 0 <= i < |u.ids| ==> Settled(db.table, now, ClauseOf(multi, partSize), props[i], u.ids[i], u.table.rows[u.ids[i]]);
    assert forall i :: 0 <= i < |props| ==> props[i].lot == lot;
    forall r, r' | r in rows && r' in rows && r.sha256 == r'.sha256
      ensures r == r'
    {
      var i :| 0 <= i < |rows| && rows[i] == r;
      var j :| 0 <= j < |rows| && rows[j] == r';
      var a, b := u.table.rows[u.ids[i]], u.table.rows[u.ids[j]];
      EncodeCanonical(a.sha);
      EncodeCanonical(b.sha);
      assert PendingAt(u.table, a.sha, lot, u.ids[i]) && PendingAt(u.table, a.sha, lot, u.ids[j]);
    }
  }

  // Neither the database nor the store fails of its own accord.
  ghost predicate Reliable(db: Queries, client: Client) {
    db.reliable && client.reliable
  }

  // Why the single uploads of a request end in a fault.
  ghost predicate SingleFails(db: Db, now: int, lot: Uuid, cols: Columns, files: seq<UploadFile>, fault: Fault)
    requires Aligned(cols, false)
  {
    || Statement(db, now, false, 0, lot, cols) == Err(fault)
    || (Statement(db, now, false, 0, lot, cols).Ok? && fault == Internal && !AllHex(files))
  }

  method CreateSinglePresignedFileUrl(db: Queries, client: Client, now: int, lot: Uuid, cols: Columns, files: seq<UploadFile>)
    returns (r: Outcome<seq<PresignedFile>>, ghost ids: seq<int>)
    requires db.Valid() && Aligned(cols, false)
    modifies db`rows, db`nextId
    ensures db.Valid() && db.nextId >= old(db.nextId)
    ensures r.Ok? ==>
              var u := Upserted(db.View().table, ids);
              && Statement(old(db.View()), now, false, 0, lot, cols) == Ok(u)
              && RowsIn(u.table, ids)
              && SingleAnswer(files, SingleRows(u), r.value)
    ensures !r.Panic?
    ensures r.Err? && (Reliable(db, client) || r.fault != Internal) ==>
              SingleFails(old(db.View()), now, lot, cols, files, r.fault)
  {
    hide Statement, Upsert;
    ghost var before := db.View();
    var inserted;
    inserted, ids := db.InsertSinglePartUpload(now, lot, cols);
    if !inserted.Ok? {
      return Err(inserted.fault), ids;
    }
    ghost var rows := SingleRows(Upserted(db.View().table, ids));
    SingleRowsUnambiguous(before, now, false, 0, lot, cols, Upserted(db.View().table, ids));
    var keys := IndexKeys(inserted.value, rows);
    var urls := PresignSingles(client, keys, files, rows);
    if urls.None? {
      return Err(Internal), ids;
    }
    r := Ok(urls.value);
  }

  // The loop over the single files: key and checksum of each.
  method PresignSingles(client: Client, keys: map<string, Uuid>, files: seq<UploadFile>, ghost rows: seq<SingleRow>)
    returns (r: Option<seq<PresignedFile>>)
    requires forall s :: s in keys <==> exists r :: r in rows && r.sha256 == s
    requires forall s :: s in keys ==> keys[s] == KeyIn(rows, s)
    ensures r.Some? ==> AllHex(files) && r.value == SingleUrls(files, rows)
    ensures r.None? && client.reliable ==> !AllHex(files)
  {
    var urls: seq<PresignedFile> := [];
    var i := 0;
    while i < |files|
      invariant 0 <= i <= |files| && |urls| == i
      invariant forall j :: 0 <= j < i ==> HexToBase64(files[j].sha256).Some? && urls[j] == SingleUrlOf(files[j], rows)
    {
      var f := files[i];
      var checksum := HexToBase64(f.sha256);
      if checksum.None? {
        assert f in files;
        return None;
      }
      var signed := client.PresignPutObject();
      if !signed {
        return None;
      }
      var key := if f.sha256 in keys then keys[f.sha256] else NIL_UUID;
      assert key == KeyIn(rows, f.sha256);
      urls := urls + [PresignedFile(f, SingleUrl(key, checksum.value))];
      i := i + 1;
    }
    assert urls == SingleUrls(files, rows);
    r := Some(urls);
  }

  // The map from digest to storage key, filled from rows that come in any order.
  method IndexKeys(items: seq<SingleRow>, ghost rows: seq<SingleRow>) returns (keys: map<string, Uuid>)
    requires multiset(items) == multiset(rows) && Unambiguous(rows)
    ensures forall s :: s in keys <==> exists r :: r in rows && r.sha256 == s
    ensures forall s :: s in keys ==> keys[s] == KeyIn(rows, s)
  {
    keys := map[];
    forall r: SingleRow
      ensures r in items <==> r in rows
    {
      PermutationMember(items, rows, r);
    }
    var i := 0;
    while i < |items|
      invariant 0 <= i <= |items|
      invariant forall s :: s in keys <==> exists r :: r in items[..i] && r.sha256 == s
      invariant forall s :: s in keys ==> SingleRow(s, keys[s]) in rows
    {
      assert items[..i + 1] == items[..i] + [items[i]] && items[i] in items;
      keys := keys[items[i].sha256 := items[i].storageKey];
      i := i + 1;
    }
    assert items[..i] == items;
  }

  /* ---------- multipart uploads ---------- */

  // Why the multipart uploads of a request end in a fault; an upload to resume may not be open any more.
  ghost predicate MultiFails(db: Db, s3: S3, now: int, lot: Uuid, cols: Columns, fault: Fault)
    requires Aligned(cols, true)
  {
    match Statement(db, now, true, PART_SIZE, lot, cols)
    case Err(f) => fault == f
    case Panic => false
    case Ok(u) =>
      && fault == Internal && RowsIn(u.table, u.ids)
      && var rows := MultiRows(db.table, u, now);
         (forall m :: m in rows ==> !HasNull(m)) && exists m :: m in rows && !Resumable(m, s3)
  }

  method CreateMultipartPresignedFileUrl(db: Queries, client: Client, now: int, lot: Uuid, cols: Columns,
                                         index: map<string, UploadFile>, ghost files: seq<UploadFile>)
    returns (r: Outcome<seq<PresignedFile>>, ghost ids: seq<int>)
    requires db.Valid() && Aligned(cols, true) && Indexes(index, files)
    modifies db`rows, db`nextId
    ensures db.Valid() && db.nextId >= old(db.nextId)
    ensures r.Ok? ==>
              var u := Upserted(db.View().table, ids);
              && Statement(old(db.View()), now, true, PART_SIZE, lot, cols) == Ok(u)
              && RowsIn(u.table, ids)
              && MultiAnswer(files, MultiRows(old(db.View()).table, u, now), client.View(), r.value)
    ensures r.Panic? ==>
              var u := Upserted(db.View().table, ids);
              && Statement(old(db.View()), now, true, PART_SIZE, lot, cols) == Ok(u)
              && RowsIn(u.table, ids)
              && exists m :: m in MultiRows(old(db.View()).table, u, now) && HasNull(m)
    ensures r.Err? && (Reliable(db, client) || r.fault != Internal) ==>
              MultiFails(old(db.View()), client.View(), now, lot, cols, r.fault)
  {
    ghost var before := db.View();
    var inserted;
    inserted, ids := db.InsertAndValidateMultiPartUpload(now, PART_SIZE, lot, cols);
    if !inserted.Ok? {
      return Err(inserted.fault), ids;
    }
    ghost var rows := MultiRows(before.table, Upserted(db.View().table, ids), now);
    forall m: MultiRow
      ensures m in inserted.value <==> m in rows
    {
      PermutationMember(inserted.value, rows, m);
    }
    var routed := SegregateMultiUploadFiles(inserted.value);
    if routed.Panic? {
      return Panic, ids;
    }
    var newUrls := GenerateUrlsForNewUploads(client, routed.value.0, index, files);
    if newUrls.None? {
      return Err(Internal), ids;
    }
    var resumed := GenerateUrlsForResumableUploads(client, routed.value.1, index, files);
    if resumed.None? {
      if client.reliable {
        SomeNotOpen(inserted.value, client.View());
      }
      return Err(Internal), ids;
    }
    RoutedUrls(inserted.value, files, client.View(), newUrls.value, resumed.value);
    MultiUrlsPermutation(inserted.value, rows, files, client.View());
    ResumedAreOpen(inserted.value, client.View());
    r := Ok(newUrls.value + resumed.value);
  }

  lemma SomeNotOpen(rows: seq<MultiRow>, s3: S3)
    requires var t := Map(DataOf, Filter(TreatedAsResumable, rows));
             exists i :: 0 <= i < |t| && !IsOpen(s3, t[i].storageKey, t[i].uploadId)
    ensures exists m :: m in rows && !Resumable(m, s3)
  {
    var kept := Filter(TreatedAsResumable, rows);
    var i :| 0 <= i < |kept| && !IsOpen(s3, Map(DataOf, kept)[i].storageKey, Map(DataOf, kept)[i].uploadId);
    FilterMember(TreatedAsResumable, rows, kept[i]);
    assert Map(DataOf, kept)[i] == DataOf(kept[i]);
    assert kept[i] in rows && !Resumable(kept[i], s3);
  }

  lemma ResumedAreOpen(rows: seq<MultiRow>, s3: S3)
    requires var t := Map(DataOf, Filter(TreatedAsResumable, rows));
             forall i :: 0 <= i < |t| ==> IsOpen(s3, t[i].storageKey, t[i].uploadId)
    ensures forall m :: m in rows ==> Resumable(m, s3)
  {
    var kept := Filter(TreatedAsResumable, rows);
    forall m | m in rows && TreatedAsResumable(m)
      ensures Resumable(m, s3)
    {
      FilterMember(TreatedAsResumable, rows, m);
      var i :| 0 <= i < |kept| && kept[i] == m;
      assert Map(DataOf, kept)[i] == DataOf(m);
    }
  }

  /* ---------- initiateUpload ---------- */

  // What one request did along the way: the files left to upload, the random draws for
  // storage keys, and the outcome of the two upserts.
  datatype Trace = Trace(needed: seq<UploadFile>, draws: seq<Uuid>, singles: Upserted, multis: Upserted)

  function MultiKeys(w: Trace): seq<Uuid>
    requires |Multis(w.needed)| <= |w.draws|
  {
    w.draws[..|Multis(w.needed)|]
  }

  function SingleKeys(w: Trace): seq<Uuid>
    requires |Multis(w.needed)| + |Singles(w.needed)| <= |w.draws|
  {
    w.draws[|Multis(w.needed)|..|Multis(w.needed)| + |Singles(w.needed)|]
  }

  // Every needed file has its random key.
  predicate EnoughDraws(w: Trace) {
    |Multis(w.needed)| + |Singles(w.needed)| <= |w.draws|
  }

  ghost predicate Classified(db: Db, files: seq<UploadFile>, lot: Uuid, w: Trace, res: UploadResult) {
    var kept := FirstOccurrences(files);
    var existing := ExistingShas(db.blobs, Shas(kept));
    && res.duplicates == Duplicates(files)
    && multiset(w.needed) + multiset(res.alreadyUploaded) == multiset(kept)
    && Separated(existing, w.needed, res.alreadyUploaded)
    && (existing != [] ==> lot in db.lots)
  }

  function SingleColumns(w: Trace): Columns
    requires EnoughDraws(w)
  {
    ColumnsOf(Singles(w.needed), SingleKeys(w), [])
  }

  function MultiColumns(w: Trace, s3: S3): Columns
    requires EnoughDraws(w)
  {
    ColumnsOf(Multis(w.needed), MultiKeys(w), CreatedIds(s3, MultiKeys(w)))
  }

  ghost predicate Upserts(db: Db, s3: S3, now: int, lot: Uuid, w: Trace)
    requires EnoughDraws(w)
  {
    && Statement(db, now, false, 0, lot, SingleColumns(w)) == Ok(w.singles)
    && Statement(db.(table := w.singles.table), now, true, PART_SIZE, lot, MultiColumns(w, s3)) == Ok(w.multis)
    && RowsIn(w.singles.table, w.singles.ids) && RowsIn(w.multis.table, w.multis.ids)
  }

  // The rows the multipart statement returned.
  ghost function Returned(w: Trace, now: int): seq<MultiRow>
    requires RowsIn(w.multis.table, w.multis.ids)
  {
    MultiRows(w.singles.table, w.multis, now)
  }

  // The urls of the single uploads, given the rows of their statement.
  ghost predicate SingleAnswer(files: seq<UploadFile>, rows: seq<SingleRow>, urls: seq<PresignedFile>) {
    AllHex(files) && urls == SingleUrls(files, rows)
  }

  // The urls of the multipart uploads, given the rows of their statement; in some order.
  ghost predicate MultiAnswer(files: seq<UploadFile>, rows: seq<MultiRow>, s3: S3, urls: seq<PresignedFile>) {
    && (forall m :: m in rows ==> !HasNull(m) && Resumable(m, s3))
    && multiset(urls) == multiset(MultiUrls(rows, files, s3))
  }

  ghost predicate Presigned(now: int, w: Trace, s3: S3, urls: seq<PresignedFile>)
    requires RowsIn(w.singles.table, w.singles.ids) && RowsIn(w.multis.table, w.multis.ids)
  {
    exists single, multi :: PresignedInStages(now, w, s3, single, multi) && urls == single + multi
  }

  ghost predicate PresignedInStages(now: int, w: Trace, s3: S3, single: seq<PresignedFile>, multi: seq<PresignedFile>)
    requires RowsIn(w.singles.table, w.singles.ids) && RowsIn(w.multis.table, w.multis.ids)
  {
    && SingleAnswer(Singles(w.needed), SingleRows(w.singles), single)
    && MultiAnswer(Multis(w.needed), Returned(w, now), s3, multi)
  }

  // Some returned row lacks its upload id or part size.
  ghost predicate Nulls(w: Trace, now: int) {
    RowsIn(w.multis.table, w.multis.ids) && exists m :: m in Returned(w, now) && HasNull(m)
  }

  // A request that ended in a panic, up to the statement that made it panic.
  ghost predicate Panicked(pre: Stores, now: int, files: seq<UploadFile>, lot: Uuid, w: Trace) {
    && EnoughDraws(w)
    && (exists res :: Classified(pre.db, files, lot, w, res))
    && Upserts(pre.db, pre.s3, now, lot, w)
    && AllHex(Singles(w.needed))
    && Nulls(w, now)
  }

  // A successful request took the stores from `pre` to `post` and answered `res`.
  ghost predicate Initiated(pre: Stores, now: int, files: seq<UploadFile>, lot: Uuid, w: Trace, post: Stores, res: UploadResult) {
    && EnoughDraws(w)
    && Classified(pre.db, files, lot, w, res)
    && Upserts(pre.db, pre.s3, now, lot, w)
    && post.s3 == CreateAll(pre.s3, MultiKeys(w))
    && post.db == pre.db.(table := w.multis.table,
                          lotImages := pre.db.lotImages +
                            LotImagesFor(pre.db.blobs, lot, Shas(FirstOccurrences(files)), Names(FirstOccurrences(files))))
    && Presigned(now, w, post.s3, res.presigned)
  }

  // A request that failed: the transaction is rolled back; multipart uploads it created stay.
  ghost predicate Aborted(pre: Stores, post: Stores) {
    && RolledBack(pre.db, post.db)
    && exists keys :: post.s3 == CreateAll(pre.s3, keys)
  }

  // Why the look-up of stored blobs fails.
  ghost predicate SkipFails(db: Db, lot: Uuid, sha256s: seq<string>, fault: Fault) {
    || (fault == UnknownLot(AtLotImages) && lot !in db.lots && ExistingShas(db.blobs, sha256s) != [])
    || (fault == Internal && !AllDecode(sha256s))
  }

  // Why the uploads of a request fail; s3' is the store after the request created its uploads.
  ghost predicate StagesFail(db: Db, s3: S3, s3': S3, now: int, lot: Uuid, w: Trace, fault: Fault)
    requires EnoughDraws(w)
  {
    var single := Statement(db, now, false, 0, lot, SingleColumns(w));
    || SingleFails(db, now, lot, SingleColumns(w), Singles(w.needed), fault)
    || (single.Ok? && AllHex(Singles(w.needed))
        && MultiFails(db.(table := single.value.table), s3', now, lot, MultiColumns(w, s3), fault))
  }

  // Every reason a request has to fail when nothing outside fails.
  ghost predicate Fails(pre: Stores, now: int, files: seq<UploadFile>, lot: Uuid, w: Trace, fault: Fault) {
    || SkipFails(pre.db, lot, Shas(FirstOccurrences(files)), fault)
    || (EnoughDraws(w) && (exists res :: Classified(pre.db, files, lot, w, res))
        && StagesFail(pre.db, pre.s3, CreateAll(pre.s3, MultiKeys(w)), now, lot, w, fault))
  }

  method SkipUploadForIdenticalImageBlobs(db: Queries, files: seq<UploadFile>, lot: Uuid)
    returns (r: Outcome<(seq<UploadFile>, seq<UploadFile>)>)
    requires db.Valid() && DistinctShas(files)
    modifies db
    ensures db.Valid() && db.nextId == old(db.nextId)
    ensures r.Ok? ==>
              && db.View() == old(db.View()).(lotImages := old(db.lotImages) + LotImagesFor(db.blobs, lot, Shas(files), Names(files)))
              && multiset(r.value.0) + multiset(r.value.1) == multiset(files)
              && Separated(ExistingShas(db.blobs, Shas(files)), r.value.0, r.value.1)
              && (ExistingShas(db.blobs, Shas(files)) != [] ==> lot in db.lots)
    ensures !r.Panic?
    ensures r.Err? && (db.reliable || r.fault != Internal) ==> SkipFails(old(db.View()), lot, Shas(files), r.fault)
  {
    var index, sha256s, names := IndexBySha(files);
    assert names == Names(files);
    var existing := db.InsertIdenticalImageBlobsToLotImages(lot, sha256s, names);
    if !existing.Ok? {
      return Err(existing.fault);
    }
    var needed, uploaded := SeparateUploadedAndNeedToBeUploadedFiles(index, existing.value, files);
    r := Ok((needed, uploaded));
  }

  // The single uploads of a request; without any, no statement is sent.
  method SingleStage(db: Queries, client: Client, now: int, lot: Uuid, cols: Columns, files: seq<UploadFile>)
    returns (r: Outcome<seq<PresignedFile>>, ghost ids: seq<int>)
    requires db.Valid() && Aligned(cols, false) && |cols.sha256s| == |files|
    modifies db`rows, db`nextId
    ensures db.Valid() && db.nextId >= old(db.nextId)
    ensures r.Ok? ==>
              var u := Upserted(db.View().table, ids);
              && Statement(old(db.View()), now, false, 0, lot, cols) == Ok(u)
              && RowsIn(u.table, ids)
              && SingleAnswer(files, SingleRows(u), r.value)
    ensures !r.Panic?
    ensures r.Err? && (Reliable(db, client) || r.fault != Internal) ==>
              SingleFails(old(db.View()), now, lot, cols, files, r.fault)
  {
    if |cols.sha256s| > 0 {
      r, ids := CreateSinglePresignedFileUrl(db, client, now, lot, cols, files);
    } else {
      EmptyStatement(db.View(), now, false, 0, lot, cols);
      r, ids := Ok([]), [];
    }
  }

  method MultiStage(db: Queries, client: Client, now: int, lot: Uuid, cols: Columns,
                    index: map<string, UploadFile>, ghost files: seq<UploadFile>)
    returns (r: Outcome<seq<PresignedFile>>, ghost ids: seq<int>)
    requires db.Valid() && Aligned(cols, true) && Indexes(index, files) && |cols.sha256s| == |files|
    modifies db`rows, db`nextId
    ensures db.Valid() && db.nextId >= old(db.nextId)
    ensures !r.Err? ==>
              var u := Upserted(db.View().table, ids);
              && Statement(old(db.View()), now, true, PART_SIZE, lot, cols) == Ok(u)
              && RowsIn(u.table, ids)
              && var rows := MultiRows(old(db.View()).table, u, now);
                 && (r.Ok? ==> MultiAnswer(files, rows, client.View(), r.value))
                 && (r.Panic? ==> exists m :: m in rows && HasNull(m))
    ensures r.Err? && (Reliable(db, client) || r.fault != Internal) ==>
              MultiFails(old(db.View()), client.View(), now, lot, cols, r.fault)
  {
    if |cols.sha256s| > 0 {
      r, ids := CreateMultipartPresignedFileUrl(db, client, now, lot, cols, index, files);
    } else {
      EmptyStatement(db.View(), now, true, PART_SIZE, lot, cols);
      r, ids := Ok([]), [];
    }
  }

  // The columns extraction gathered are those of the trace.
  lemma GatheredColumns(w: Trace, e: ExtractFile, s3: S3)
    requires EnoughDraws(w) && Gathered(w.needed, e, MultiKeys(w), s3)
    ensures e.singles == Singles(w.needed) && |e.multiColumns.sha256s| == |Multis(w.needed)|
    ensures e.singleColumns.(keys := SingleKeys(w)) == SingleColumns(w)
    ensures e.multiColumns == MultiColumns(w, s3) && Indexes(e.multiIndex, Multis(w.needed))
    ensures Aligned(SingleColumns(w), false) && Aligned(MultiColumns(w, s3), true)
  {
  }

  lemma UpsertsTogether(before: Db, between: Db, store: S3, now: int, lot: Uuid, w: Trace)
    requires EnoughDraws(w) && RowsIn(w.singles.table, w.singles.ids) && RowsIn(w.multis.table, w.multis.ids)
    requires between == before.(table := w.singles.table)
    requires Statement(before, now, false, 0, lot, SingleColumns(w)) == Ok(w.singles)
    requires Statement(between, now, true, PART_SIZE, lot, MultiColumns(w, store)) == Ok(w.multis)
    ensures Upserts(before, store, now, lot, w)
  {
  }

  // The two stages of a request whose files have been extracted.
  method RunStages(db: Queries, client: Client, now: int, lot: Uuid, e: ExtractFile, singleColumns: Columns,
                   ghost start: Trace, ghost store: S3)
    returns (r: Outcome<seq<PresignedFile>>, ghost w: Trace)
    requires db.Valid() && EnoughDraws(start)
    requires e.singles == Singles(start.needed) && singleColumns == SingleColumns(start) && Aligned(singleColumns, false)
    requires e.multiColumns == MultiColumns(start, store) && Aligned(e.multiColumns, true)
    requires Indexes(e.multiIndex, Multis(start.needed))
    modifies db`rows, db`nextId
    ensures db.Valid() && db.nextId >= old(db.nextId)
    ensures w.needed == start.needed && w.draws == start.draws
    ensures !r.Err? ==> Upserts(old(db.View()), store, now, lot, w)
    ensures r.Ok? ==>
              && db.View() == old(db.View()).(table := w.multis.table)
              && Presigned(now, w, client.View(), r.value)
    ensures r.Panic? ==> AllHex(Singles(w.needed)) && Nulls(w, now)
    ensures r.Err? && (Reliable(db, client) || r.fault != Internal) ==>
              StagesFail(old(db.View()), store, client.View(), now, lot, w, r.fault)
  {
    hide Statement, SingleFails, MultiFails;
    w := start;
    ghost var before := db.View();
    var single;
    ghost var singleIds;
    single, singleIds := SingleStage(db, client, now, lot, singleColumns, e.singles);
    if !single.Ok? {
      return Err(single.fault), w;
    }
    ghost var between := db.View();
    assert between == before.(table := between.table);
    var multi;
    ghost var multiIds;
    multi, multiIds := MultiStage(db, client, now, lot, e.multiColumns, e.multiIndex, Multis(start.needed));
    w := Trace(start.needed, start.draws, Upserted(between.table, singleIds), Upserted(db.View().table, multiIds));
    if multi.Err? {
      return Err(multi.fault), w;
    }
    UpsertsTogether(before, between, store, now, lot, w);
    if multi.Panic? {
      return Panic, w;
    }
    assert PresignedInStages(now, w, client.View(), single.value, multi.value);
    r := Ok(single.value + multi.value);
  }

  // The work of a request inside its transaction.
  method GenerateS3UploadUrl(db: Queries, client: Client, now: int, lot: Uuid, needed: seq<UploadFile>, draws: seq<Uuid>)
    returns (r: Outcome<seq<PresignedFile>>, ghost w: Trace)
    requires db.Valid() && DistinctShas(needed) && |draws| >= |needed|
    modifies db`rows, db`nextId, client
    ensures db.Valid() && db.nextId >= old(db.nextId)
    ensures w.needed == needed && w.draws == draws && EnoughDraws(w)
    ensures exists keys :: client.View() == CreateAll(old(client.View()), keys)
    ensures !r.Err? ==>
              && client.View() == CreateAll(old(client.View()), MultiKeys(w))
              && Upserts(old(db.View()), old(client.View()), now, lot, w)
    ensures r.Ok? ==>
              && db.View() == old(db.View()).(table := w.multis.table)
              && Presigned(now, w, client.View(), r.value)
    ensures r.Panic? ==> AllHex(Singles(w.needed)) && Nulls(w, now)
    ensures r.Err? && (Reliable(db, client) || r.fault != Internal) ==>
              StagesFail(old(db.View()), old(client.View()), CreateAll(old(client.View()), MultiKeys(w)), now, lot, w, r.fault)
  {
    hide StagesFail;
    SizesFit(needed);
    w := Trace(needed, draws, Upserted(db.View().table, []), Upserted(db.View().table, []));
    ghost var store := client.View();
    var extracted;
    ghost var used;
    extracted, used := ExtractFileData(client, needed, draws);
    if extracted.None? {
      return Err(Internal), w;
    }
    var e := extracted.value;
    GatheredColumns(w, e, store);
    var n, k := |e.multiColumns.sha256s|, |e.singles|;
    r, w := RunStages(db, client, now, lot, e, e.singleColumns.(keys := draws[n..n + k]), w, store);
  }

  lemma SizesFit(files: seq<UploadFile>)
    ensures |Multis(files)| + |Singles(files)| == |files|
  {
    SizesSplit(files);
    assert |multiset(files)| == |files|;
    assert |multiset(Singles(files))| == |Singles(files)| && |multiset(Multis(files))| == |Multis(files)|;
  }

  // A statement without rows, which the program does not send, would change nothing.
  lemma EmptyStatement(db: Db, now: int, multi: bool, partSize: int, lot: Uuid, cols: Columns)
    requires Aligned(cols, multi) && cols.sha256s == []
    ensures Statement(db, now, multi, partSize, lot, cols) == Ok(Upserted(db.table, []))
  {
  }

  // The statements of a request, before the commit.
  method RunTransaction(db: Queries, client: Client, ghost files: seq<UploadFile>, kept: seq<UploadFile>, duplicates: seq<UploadFile>,
                        lot: Uuid, now: int, draws: seq<Uuid>)
    returns (r: Outcome<UploadResult>, ghost w: Trace)
    requires db.Valid() && kept == FirstOccurrences(files) && duplicates == Duplicates(files) && |draws| >= |files|
    modifies db, client
    ensures db.Valid() && db.nextId >= old(db.nextId)
    ensures exists keys :: client.View() == CreateAll(old(client.View()), keys)
    ensures w.draws == draws
    ensures r.Ok? ==>
              Initiated(Stores(old(db.View()), old(client.View())), now, files, lot, w,
                        Stores(db.View(), client.View()), r.value)
    ensures r.Panic? ==> Panicked(Stores(old(db.View()), old(client.View())), now, files, lot, w)
    ensures r.Err? && (Reliable(db, client) || r.fault != Internal) ==>
              Fails(Stores(old(db.View()), old(client.View())), now, files, lot, w, r.fault)
  {
    ghost var before := db.View();
    w := Trace([], draws, Upserted(before.table, []), Upserted(before.table, []));
    assert client.View() == CreateAll(client.View(), []);
    DedupeDistinct(files);
    var skipped := SkipUploadForIdenticalImageBlobs(db, kept, lot);
    if !skipped.Ok? {
      return Err(skipped.fault), w;
    }
    var needed, uploaded := skipped.value.0, skipped.value.1;
    NeededFit(files, kept, needed, uploaded);
    ghost var between := db.View();
    var urls;
    urls, w := GenerateS3UploadUrl(db, client, now, lot, needed, draws);
    var res := UploadResult(duplicates, uploaded, if urls.Ok? then urls.value else []);
    assert Classified(before, files, lot, w, res);
    if !urls.Err? {
      UpsertsIgnoreLotImages(before, between, w);
    } else {
      StagesIgnoreLotImages(before, between, w);
    }
    match urls
    case Panic => r := Panic;
    case Err(fault) => r := Err(fault);
    case Ok(_) => r := Ok(res);
  }

  // lotId is the parsed identifier of the lot, None when its text is not a UUID.
  method InitiateUpload(db: Queries, client: Client, files: seq<UploadFile>, lotId: Option<Uuid>, now: int, draws: seq<Uuid>)
    returns (r: Outcome<UploadResult>, ghost w: Trace)
    requires db.Valid() && |draws| >= |files|
    modifies db, client
    ensures db.Valid()
    ensures w.draws == draws
    ensures r.Ok? ==>
              && lotId.Some?
              && Initiated(Stores(old(db.View()), old(client.View())), now, files, lotId.value, w,
                           Stores(db.View(), client.View()), r.value)
    ensures !r.Ok? ==>
              Aborted(Stores(old(db.View()), old(client.View())), Stores(db.View(), client.View()))
    ensures !r.Ok? ==>
              && db.rows == old(db.rows) && db.blobs == old(db.blobs) && db.lots == old(db.lots) && db.lotImages == old(db.lotImages)
              && forall u :: u in client.uploads ==>
                   (u in old(client.uploads) && client.uploads[u] == old(client.uploads[u]))
                   || (client.uploads[u].parts == map[] && !client.uploads[u].completed)
    ensures lotId.None? <==> r == Err(BadLotId)
    ensures r.Panic? ==> Panicked(Stores(old(db.View()), old(client.View())), now, files, lotId.value, w)
    ensures r.Err? && lotId.Some? && (Reliable(db, client) || r.fault != Internal) ==>
              Fails(Stores(old(db.View()), old(client.View())), now, files, lotId.value, w, r.fault)
  {
    hide Initiated, Panicked, FirstOccurrences, Duplicates;
    var saved := db.View();
    w := Trace([], draws, Upserted(saved.table, []), Upserted(saved.table, []));
    assert client.View() == CreateAll(client.View(), []);
    var kept, duplicates := IntentBatchUpload(files);
    if lotId.None? {
      return Err(BadLotId), w;
    }
    var fails := *;
    if fails && !db.reliable {
      return Err(Internal), w;
    }
    r, w := RunTransaction(db, client, files, kept, duplicates, lotId.value, now, draws);
    if r.Ok? {
      fails := *;
      if fails && !db.reliable {
        r := Err(Internal);
      }
    }
    if !r.Ok? {
      db.Rollback(saved);
      ghost var keys :| client.View() == CreateAll(old(client.View()), keys);
      CreateAllEffect(old(client.View()), keys);
    }
  }

  lemma NeededFit(files: seq<UploadFile>, kept: seq<UploadFile>, needed: seq<UploadFile>, uploaded: seq<UploadFile>)
    requires kept == FirstOccurrences(files)
    requires multiset(needed) + multiset(uploaded) == multiset(kept)
    ensures DistinctShas(needed) && |needed| <= |files|
  {
    DedupeDistinct(files);
    DedupeConserves(files);
    DistinctPermutation(kept, needed);
    assert |multiset(needed)| == |needed| && |multiset(kept)| == |kept| && |multiset(files)| == |files|;
    assert |multiset(kept)| == |multiset(needed)| + |multiset(uploaded)|;
  }

  lemma UpsertsIgnoreLotImages(db: Db, db': Db, w: Trace)
    requires db' == db.(lotImages := db'.lotImages) && EnoughDraws(w)
    ensures forall s3, now, lot :: Upserts(db', s3, now, lot, w) ==> Upserts(db, s3, now, lot, w)
  {
    assert db'.(table := w.singles.table).table == w.singles.table;
  }

  lemma StagesIgnoreLotImages(db: Db, db': Db, w: Trace)
    requires db' == db.(lotImages := db'.lotImages) && EnoughDraws(w)
    ensures forall s3, s3', now, lot, fault :: StagesFail(db', s3, s3', now, lot, w, fault) ==> StagesFail(db, s3, s3', now, lot, w, fault)
  {
  }
}
