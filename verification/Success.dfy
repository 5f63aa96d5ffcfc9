// When nothing outside fails: exactly which requests succeed, told from the batch, the table and
// the store as they are before the request.
module Success {
  import opened Wrappers
  import opened Hex
  import opened Base64
  import opened Parts
  import opened Attempts
  import opened ObjectStore
  import opened Database
  import opened Intake
  import opened Uploads
  import opened ImageStore
  import opened Conditions
  import opened Requests
  import opened Protocol
  import opened ProtocolInitiate
  import opened ProtocolRuns
  import opened Replies
  import opened Panics

  /* ---------- the condition ---------- */

  // A single file that needs an upload can get one.
  ghost predicate SingleAcceptable(db: Db, lot: Uuid, f: UploadFile) {
    && IsHex(f.sha256)
    && (lot in db.lots || HasPending(db.table, lot, f))
    && forall id :: PendingFor(db.table, lot, f, id) && db.table.rows[id].uploadType.MultiUpload? ==>
         db.table.rows[id].version < MAX_INT32
  }

  // If the row of the file is live, the upload to resume is open.
  ghost predicate LiveIsOpen(pre: Stores, now: int, lot: Uuid, f: UploadFile) {
    forall id :: PendingFor(pre.db.table, lot, f, id) && Live(pre.db.table.rows[id], now) ==>
      UploadOpen(pre.db.table.rows[id], pre.s3)
  }

  // The row of the file has versions left for the statements that will update it; a live single
  // row is left as it is by both, and needs none.
  ghost predicate RoomFor(pre: Stores, now: int, files: seq<UploadFile>, lot: Uuid, f: UploadFile) {
    forall id :: PendingFor(pre.db.table, lot, f, id) ==> RoomAt(pre, now, files, f, id)
  }

  ghost predicate RoomAt(pre: Stores, now: int, files: seq<UploadFile>, f: UploadFile, id: int)
    requires id in pre.db.table.rows
  {
    var r := pre.db.table.rows[id];
    if r.uploadType.SingleUpload? then r.version < MAX_INT32 || Live(r, now)
    else r.version + (if SharesDigest(pre.db, files, f) then 1 else 0) < MAX_INT32
  }

  // The multipart statement of the request can do its work for the file.
  ghost predicate MultiReachable(pre: Stores, now: int, files: seq<UploadFile>, lot: Uuid, f: UploadFile) {
    && PgDecode(f.sha256).Some?
    && (lot in pre.db.lots || HasPending(pre.db.table, lot, f))
    && RoomFor(pre, now, files, lot, f)
  }

  // The row it finds for the file can be answered: it is none of a single upload, and if it is
  // live, the upload to resume is open.
  ghost predicate MultiAnswerable(pre: Stores, now: int, files: seq<UploadFile>, lot: Uuid, f: UploadFile) {
    !MeetsSingleUpload(pre.db, files, lot, f) && LiveIsOpen(pre, now, lot, f)
  }

  // Two files of one statement do not share a digest in different letters.
  ghost predicate DigestsDiffer(db: Db, files: seq<UploadFile>) {
    forall f, g :: Needs(db, files, f) && Needs(db, files, g) && f != g && IsSingle(f) == IsSingle(g) ==> !SameDigest(f, g)
  }

  // Both statements of the request succeed.
  ghost predicate Reaches(pre: Stores, now: int, files: seq<UploadFile>, lot: Uuid) {
    && (lot in pre.db.lots || forall f :: f in FirstOccurrences(files) ==> !IsStored(pre.db.blobs, f.sha256))
    && (forall f :: Needs(pre.db, files, f) && IsSingle(f) ==> SingleAcceptable(pre.db, lot, f))
    && (forall f :: Needs(pre.db, files, f) && IsMulti(f) ==> MultiReachable(pre, now, files, lot, f))
    && DigestsDiffer(pre.db, files)
  }

  // The request succeeds.
  ghost predicate Acceptable(pre: Stores, now: int, files: seq<UploadFile>, lot: Uuid) {
    && Reaches(pre, now, files, lot)
    && forall f :: Needs(pre.db, files, f) && IsMulti(f) ==> MultiAnswerable(pre, now, files, lot, f)
  }

  // The request panics.
  ghost predicate MustPanic(pre: Stores, now: int, files: seq<UploadFile>, lot: Uuid) {
    && Reaches(pre, now, files, lot)
    && exists f :: Needs(pre.db, files, f) && IsMulti(f) && MeetsSingleUpload(pre.db, files, lot, f)
  }

  /* ---------- one statement ---------- */

  ghost predicate Found(t: Table, p: Proposal) {
    exists id :: PendingAt(t, p.sha, p.lot, id)
  }

  ghost predicate AllFound(t: Table, props: seq<Proposal>) {
    forall i :: 0 <= i < |props| ==> Found(t, props[i])
  }

  lemma FoundAreNotInserted(t: Table, now: int, c: SetClause, props: seq<Proposal>, u: Upserted)
    requires ValidTable(t) && UpsertEffect(t, now, c, props, u)
    ensures SomeInserted(t, u.ids) <==> !AllFound(t, props)
  {
    hide UpdateRow, InsertedRow;
    forall i | 0 <= i < |props|
      ensures u.ids[i] in t.rows <==> Found(t, props[i])
    {
      assert Settled(t, now, c, props[i], u.ids[i], u.table.rows[u.ids[i]]);
    }
    hide Found;
    if !AllFound(t, props) {
      var i :| 0 <= i < |props| && !Found(t, props[i]);
      assert u.ids[i] !in t.rows;
    }
  }

  // A statement succeeds exactly when its digests decode, no key is proposed twice, the rows it
  // finds can be updated, and, for an unknown lot, it finds a row for every proposal; it reports
  // the unknown lot exactly when only the last of these fails.
  lemma StatementExactly(db: Db, now: int, multi: bool, partSize: int, lot: Uuid, cols: Columns)
    requires ValidTable(db.table) && Aligned(cols, multi)
    requires multi && AllDecode(cols.sha256s) ==>
               var u := Upsert(db.table, now, ClauseOf(multi, partSize), Proposals(cols, multi, partSize, lot));
               u.Some? ==> PartsFit(u.value.table, u.value.ids)
    ensures Statement(db, now, multi, partSize, lot, cols).Ok? <==>
            && AllDecode(cols.sha256s)
            && var props := Proposals(cols, multi, partSize, lot);
               && DistinctKeys(props) && AllUpdatable(db.table, now, ClauseOf(multi, partSize), props)
               && (lot in db.lots || AllFound(db.table, props))
    ensures forall stage :: Statement(db, now, multi, partSize, lot, cols) == Err(UnknownLot(stage)) <==>
            && stage == (if multi then AtMultiUpload else AtSingleUpload)
            && AllDecode(cols.sha256s)
            && var props := Proposals(cols, multi, partSize, lot);
               && DistinctKeys(props) && AllUpdatable(db.table, now, ClauseOf(multi, partSize), props)
               && lot !in db.lots && !AllFound(db.table, props)
  {
    hide PgDecode, Upsert, UpsertEffect, AllFound, PartsFit, SomeInserted;
    if AllDecode(cols.sha256s) {
      var c, props := ClauseOf(multi, partSize), Proposals(cols, multi, partSize, lot);
      UpsertExactly(db.table, now, c, props);
      if Upsert(db.table, now, c, props).Some? {
        UpsertMeetsEffect(db.table, now, c, props);
        FoundAreNotInserted(db.table, now, c, props, Upsert(db.table, now, c, props).value);
      }
    }
  }

  /* ---------- proposals and files ---------- */

  // The proposals are those of the files, one by one.
  ghost predicate Match(props: seq<Proposal>, fs: seq<UploadFile>, lot: Uuid) {
    && |props| == |fs|
    && forall i :: 0 <= i < |fs| ==> PgDecode(fs[i].sha256) == Some(props[i].sha) && props[i].lot == lot
  }

  ghost predicate NoneShared(fs: seq<UploadFile>) {
    forall f, g :: f in fs && g in fs && f != g ==> !SameDigest(f, g)
  }

  lemma KeysOfFiles(props: seq<Proposal>, fs: seq<UploadFile>, lot: Uuid)
    requires Match(props, fs, lot) && DistinctShas(fs)
    ensures DistinctKeys(props) <==> NoneShared(fs)
  {
    hide PgDecode;
    if DistinctKeys(props) {
      forall f, g | f in fs && g in fs && f != g
        ensures !SameDigest(f, g)
      {
        var i :| 0 <= i < |fs| && fs[i] == f;
        var j :| 0 <= j < |fs| && fs[j] == g;
        assert i < j || j < i;
      }
    }
    if NoneShared(fs) {
      forall i, j | 0 <= i < j < |props|
        ensures props[i].sha != props[j].sha
      {
        assert fs[i] in fs && fs[j] in fs && fs[i].sha256 != fs[j].sha256;
      }
    }
  }

  lemma FoundFiles(t: Table, props: seq<Proposal>, fs: seq<UploadFile>, lot: Uuid)
    requires Match(props, fs, lot)
    ensures AllFound(t, props) <==> forall f :: f in fs ==> HasPending(t, lot, f)
  {
    hide PgDecode, PendingAt;
    forall i | 0 <= i < |fs|
      ensures Found(t, props[i]) <==> HasPending(t, lot, fs[i])
    {
      assert forall id :: PendingFor(t, lot, fs[i], id) <==> PendingAt(t, props[i].sha, props[i].lot, id);
    }
    hide Found, HasPending;
    assert forall i :: 0 <= i < |fs| ==> fs[i] in fs;
  }

  lemma UpdatableFiles(t: Table, now: int, c: SetClause, props: seq<Proposal>, fs: seq<UploadFile>, lot: Uuid)
    requires Match(props, fs, lot)
    ensures AllUpdatable(t, now, c, props) <==>
            forall f, id :: f in fs && PendingFor(t, lot, f, id) ==> UpdateRow(c, t.rows[id], now).Some?
  {
    hide PgDecode, UpdateRow;
    assert forall i, id :: 0 <= i < |fs| ==> (PendingFor(t, lot, fs[i], id) <==> PendingAt(t, props[i].sha, props[i].lot, id));
    assert forall i :: 0 <= i < |fs| ==> fs[i] in fs;
  }

  lemma SinglesMatch(w: Trace, lot: Uuid)
    requires EnoughDraws(w) && AllDecode(Shas(Singles(w.needed)))
    ensures Match(SingleProposals(w, lot), Singles(w.needed), lot)
  {
    hide PgDecode, Filter;
    forall i | 0 <= i < |Singles(w.needed)|
      ensures PgDecode(Singles(w.needed)[i].sha256) == Some(SingleProposals(w, lot)[i].sha) && SingleProposals(w, lot)[i].lot == lot
    {
      SingleColumnsZip(w.needed, SingleKeys(w), lot, i);
    }
  }

  lemma MultisMatch(w: Trace, s3: S3, lot: Uuid)
    requires EnoughDraws(w) && AllDecode(Shas(Multis(w.needed)))
    ensures Match(MultiProposals(w, s3, lot), Multis(w.needed), lot)
    ensures forall i :: 0 <= i < |MultiProposals(w, s3, lot)| ==> MultiProposals(w, s3, lot)[i].fileSize <= MAX_INT32
  {
    hide PgDecode, Filter;
    forall i | 0 <= i < |Multis(w.needed)|
      ensures PgDecode(Multis(w.needed)[i].sha256) == Some(MultiProposals(w, s3, lot)[i].sha)
      ensures MultiProposals(w, s3, lot)[i].lot == lot && MultiProposals(w, s3, lot)[i].fileSize <= MAX_INT32
    {
      MultiColumnsZip(w.needed, MultiKeys(w), s3, lot, i);
    }
  }

  lemma DecodeAll(fs: seq<UploadFile>)
    ensures AllDecode(Shas(fs)) <==> forall f :: f in fs ==> PgDecode(f.sha256).Some?
  {
    hide PgDecode;
    assert forall i :: 0 <= i < |fs| ==> fs[i] in fs && Shas(fs)[i] == fs[i].sha256;
  }

  /* ---------- the single uploads ---------- */

  lemma SingleUpdatable(r: Row, now: int)
    requires RowShape(r)
    ensures UpdateRow(KeepStorageKey, r, now).Some? <==> (r.uploadType.MultiUpload? ==> r.version < MAX_INT32)
  {
    UpdateFails(KeepStorageKey, r, now);
  }

  lemma HexFiles(fs: seq<UploadFile>)
    ensures AllHex(fs) <==> forall f :: f in fs ==> IsHex(f.sha256)
    ensures AllHex(fs) ==> AllDecode(Shas(fs))
  {
    hide PgDecode, GoDecode, IsHex, HexToBase64;
    forall f: UploadFile
      ensures HexToBase64(f.sha256).Some? <==> IsHex(f.sha256)
      ensures IsHex(f.sha256) ==> PgDecode(f.sha256).Some?
    {
      HexToBase64Preserves(f.sha256);
      if IsHex(f.sha256) {
        DecodersAgree(f.sha256);
        GoDecodeAccepts(f.sha256);
      }
    }
    DecodeAll(fs);
  }

  ghost predicate SingleStageOk(db: Db, now: int, lot: Uuid, w: Trace)
    requires EnoughDraws(w)
  {
    Statement(db, now, false, 0, lot, SingleColumns(w)).Ok? && AllHex(Singles(w.needed))
  }

  // The single statement of a request can work on the file, once the lot is known.
  ghost predicate SingleWritable(db: Db, lot: Uuid, f: UploadFile) {
    && PgDecode(f.sha256).Some?
    && forall id :: PendingFor(db.table, lot, f, id) && db.table.rows[id].uploadType.MultiUpload? ==>
         db.table.rows[id].version < MAX_INT32
  }

  // What the single statement of a request comes to.
  lemma SingleStatementExactly(db: Db, now: int, lot: Uuid, w: Trace)
    requires TableInv(db.table) && EnoughDraws(w) && DistinctShas(Singles(w.needed))
    ensures Statement(db, now, false, 0, lot, SingleColumns(w)).Ok? <==>
            && (forall f :: f in Singles(w.needed) ==> SingleWritable(db, lot, f)) && NoneShared(Singles(w.needed))
            && (lot in db.lots || forall f :: f in Singles(w.needed) ==> HasPending(db.table, lot, f))
    ensures forall stage :: Statement(db, now, false, 0, lot, SingleColumns(w)) == Err(UnknownLot(stage)) <==>
            && stage == AtSingleUpload && lot !in db.lots
            && (forall f :: f in Singles(w.needed) ==> SingleWritable(db, lot, f)) && NoneShared(Singles(w.needed))
            && exists f :: f in Singles(w.needed) && !HasPending(db.table, lot, f)
  {
    hide PgDecode, Filter, UpdateRow, Statement, PendingFor, AllDecode, NoneShared;
    var t, s := db.table, Singles(w.needed);
    DecodeAll(s);
    StatementExactly(db, now, false, 0, lot, SingleColumns(w));
    if AllDecode(Shas(s)) {
      var props := SingleProposals(w, lot);
      SinglesMatch(w, lot);
      KeysOfFiles(props, s, lot);
      FoundFiles(t, props, s, lot);
      UpdatableFiles(t, now, KeepStorageKey, props, s, lot);
      forall f, id | f in s && PendingFor(t, lot, f, id)
        ensures id in t.rows
        ensures UpdateRow(KeepStorageKey, t.rows[id], now).Some? <==>
                (t.rows[id].uploadType.MultiUpload? ==> t.rows[id].version < MAX_INT32)
      {
        PendingIsRow(t, lot, f, id);
        SingleUpdatable(t.rows[id], now);
      }
    }
  }

  lemma SinglesExactly(db: Db, now: int, lot: Uuid, w: Trace)
    requires TableInv(db.table) && EnoughDraws(w) && DistinctShas(Singles(w.needed))
    ensures SingleStageOk(db, now, lot, w) <==>
            && (forall f :: f in Singles(w.needed) ==> SingleAcceptable(db, lot, f))
            && NoneShared(Singles(w.needed))
  {
    hide PgDecode, Filter, IsHex, Statement, PendingFor, AllHex, AllDecode, NoneShared, TableInv;
    HexFiles(Singles(w.needed));
    DecodeAll(Singles(w.needed));
    SingleStatementExactly(db, now, lot, w);
  }

  lemma PendingIsRow(t: Table, lot: Uuid, f: UploadFile, id: int)
    requires PendingFor(t, lot, f, id)
    ensures id in t.rows && (TableInv(t) ==> RowShape(t.rows[id]))
  {
  }

  /* ---------- the multipart uploads ---------- */

  // The single statement of the request has succeeded.
  ghost predicate AfterSingles(pre: Stores, now: int, files: seq<UploadFile>, lot: Uuid, w: Trace, res: UploadResult) {
    && EnoughDraws(w) && Classified(pre.db, files, lot, w, res) && DistinctShas(Multis(w.needed))
    && TableInv(pre.db.table) && StoreInv(pre.db.table, pre.s3)
    && AllDecode(Shas(Singles(w.needed)))
    && UpsertEffect(pre.db.table, now, KeepStorageKey, SingleProposals(w, lot), w.singles)
    && TableInv(w.singles.table)
    && (lot in pre.db.lots || forall f :: f in Singles(w.needed) ==> HasPending(pre.db.table, lot, f))
  }

  lemma SinglePending(pre: Stores, now: int, files: seq<UploadFile>, lot: Uuid, w: Trace, res: UploadResult, i: nat)
    requires AfterSingles(pre, now, files, lot, w, res) && i < |Singles(w.needed)|
    ensures |w.singles.ids| == |Singles(w.needed)| && PendingFor(w.singles.table, lot, Singles(w.needed)[i], w.singles.ids[i])
  {
    hide PgDecode, Filter, Classified, UpdateRow, TableInv, StoreInv;
    SinglesMatch(w, lot);
    assert Settled(pre.db.table, now, KeepStorageKey, SingleProposals(w, lot)[i], w.singles.ids[i],
                   w.singles.table.rows[w.singles.ids[i]]);
  }

  lemma SharedIsTouched(pre: Stores, now: int, files: seq<UploadFile>, lot: Uuid, w: Trace, res: UploadResult, f: UploadFile, id: int)
    requires AfterSingles(pre, now, files, lot, w, res) && PendingFor(w.singles.table, lot, f, id)
    ensures id in w.singles.ids <==> SharesDigest(pre.db, files, f)
  {
    hide PgDecode, Filter, Classified, Needs, UpsertEffect, TableInv;
    ValidFromInv(w.singles.table);
    NeededAre(pre.db, files, lot, w, res);
    SinglesMatch(w, lot);
    assert |w.singles.ids| == |Singles(w.needed)| by {
      EffectCount(pre.db.table, now, SingleProposals(w, lot), w.singles);
    }
    var s, u := Singles(w.needed), w.singles;
    if id in u.ids {
      var i :| 0 <= i < |u.ids| && u.ids[i] == id;
      SinglePending(pre, now, files, lot, w, res, i);
      assert s[i] in s && SameDigest(f, s[i]);
    }
    if SharesDigest(pre.db, files, f) {
      var g :| Needs(pre.db, files, g) && IsSingle(g) && SameDigest(f, g);
      var i :| 0 <= i < |s| && s[i] == g;
      SinglePending(pre, now, files, lot, w, res, i);
      assert u.ids[i] == id;
    }
  }

  lemma EffectCount(t: Table, now: int, props: seq<Proposal>, u: Upserted)
    requires UpsertEffect(t, now, KeepStorageKey, props, u)
    ensures |u.ids| == |props|
  {
  }

  // What the multipart statement finds for a file: its row from before the request, at most one
  // version on, or a live single row the request has just inserted.
  lemma FoundBetween(pre: Stores, now: int, files: seq<UploadFile>, lot: Uuid, w: Trace, res: UploadResult, f: UploadFile, id: int)
    requires AfterSingles(pre, now, files, lot, w, res) && PendingFor(w.singles.table, lot, f, id)
    ensures id in pre.db.table.rows ==>
              var r, r' := pre.db.table.rows[id], w.singles.table.rows[id];
              && PendingFor(pre.db.table, lot, f, id) && r'.uploadType == r.uploadType && r'.validUntil == r.validUntil
              && r'.version == r.version + if r.uploadType.MultiUpload? && SharesDigest(pre.db, files, f) then 1 else 0
    ensures id !in pre.db.table.rows ==>
              w.singles.table.rows[id].uploadType.SingleUpload? && Live(w.singles.table.rows[id], now)
  {
    hide PgDecode, Filter, Classified, Needs, SharesDigest;
    var t, props, u := pre.db.table, SingleProposals(w, lot), w.singles;
    SharedIsTouched(pre, now, files, lot, w, res, f, id);
    if id in t.rows {
      assert RowShape(t.rows[id]);
      SinglesKeepRow(t, now, props, u, id);
    }
    if id in u.ids {
      var i :| 0 <= i < |u.ids| && u.ids[i] == id;
      assert Settled(t, now, KeepStorageKey, props[i], id, u.table.rows[id]);
      if id in t.rows {
        VersionBump(KeepStorageKey, t.rows[id], now);
        UpdateKeepsIdentity(KeepStorageKey, t.rows[id], now);
      } else {
        SingleColumnsZip(w.needed, SingleKeys(w), lot, i);
      }
    }
  }

  // A live single row is left as it is; every other row gets a version.
  lemma RowUpdatable(r: Row, now: int)
    requires RowShape(r)
    ensures UpdateRow(RenewWindow(PART_SIZE), r, now).Some? <==> r.version < MAX_INT32 || (r.uploadType.SingleUpload? && Live(r, now))
  {
    UpdateFails(RenewWindow(PART_SIZE), r, now);
  }

  lemma RowPartsFit(t: Table, now: int, p: Proposal, id: int, r: Row)
    requires TableInv(t) && Settled(t, now, RenewWindow(PART_SIZE), p, id, r)
    requires p.fileSize <= MAX_INT32 && p.partSize == Some(PART_SIZE)
    ensures r.partCount.Some? ==> r.partCount.value <= MAX_SMALLINT
  {
    if id in t.rows {
      assert RowShape(t.rows[id]);
      UpdateKeepsIdentity(RenewWindow(PART_SIZE), t.rows[id], now);
      PartCountSmall(t.rows[id].fileSize);
    } else {
      PartCountSmall(p.fileSize);
    }
  }

  // The parts of every row the multipart statement leaves fit the smallint cast.
  lemma MultiPartsFit(t: Table, now: int, props: seq<Proposal>, u: Upserted)
    requires TableInv(t) && UpsertEffect(t, now, RenewWindow(PART_SIZE), props, u)
    requires forall i :: 0 <= i < |props| ==> props[i].fileSize <= MAX_INT32 && props[i].partSize == Some(PART_SIZE)
    ensures PartsFit(u.table, u.ids)
  {
    hide TableInv, Settled;
    forall i | 0 <= i < |u.ids| && u.table.rows[u.ids[i]].partCount.Some?
      ensures u.table.rows[u.ids[i]].partCount.value <= MAX_SMALLINT
    {
      RowPartsFit(t, now, props[i], u.ids[i], u.table.rows[u.ids[i]]);
    }
  }

  lemma MultiProposalsShape(w: Trace, s3: S3, lot: Uuid)
    requires EnoughDraws(w) && AllDecode(Shas(Multis(w.needed)))
    ensures forall i :: 0 <= i < |MultiProposals(w, s3, lot)| ==> MultiProposals(w, s3, lot)[i].partSize == Some(PART_SIZE)
  {
    hide PgDecode, Filter;
  }

  // For an unknown lot, whose single files all had rows, the single statement inserted none.
  lemma FoundBefore(pre: Stores, now: int, files: seq<UploadFile>, lot: Uuid, w: Trace, res: UploadResult, f: UploadFile)
    requires AfterSingles(pre, now, files, lot, w, res)
    ensures HasPending(pre.db.table, lot, f) ==> HasPending(w.singles.table, lot, f)
    ensures lot !in pre.db.lots && HasPending(w.singles.table, lot, f) ==> HasPending(pre.db.table, lot, f)
  {
    hide PgDecode, Filter, Classified, TableInv, UpdateRow;
    var t, s, props, u := pre.db.table, Singles(w.needed), SingleProposals(w, lot), w.singles;
    if id :| PendingFor(t, lot, f, id) {
      PendingKept(t, now, KeepStorageKey, props, u, PgDecode(f.sha256).value, lot, id);
      assert PendingFor(u.table, lot, f, id);
    }
    if lot !in pre.db.lots && HasPending(u.table, lot, f) {
      var id :| PendingFor(u.table, lot, f, id);
      SinglesMatch(w, lot);
      if id in u.ids {
        var i :| 0 <= i < |u.ids| && u.ids[i] == id;
        assert Settled(t, now, KeepStorageKey, props[i], id, u.table.rows[id]);
        assert s[i] in s;
        var j :| PendingFor(t, lot, s[i], j);
        assert PendingFor(t, lot, f, j);
      } else {
        assert PendingFor(t, lot, f, id);
      }
    }
  }

  // The multipart statement succeeds exactly when, beside what the digests allow, the rows it
  // finds can be updated; told for files that meet no single upload.
  lemma MultiStatementExactly(pre: Stores, now: int, files: seq<UploadFile>, lot: Uuid, w: Trace, res: UploadResult)
    requires AfterSingles(pre, now, files, lot, w, res)
    requires AllDecode(Shas(Multis(w.needed)))
    ensures Statement(pre.db.(table := w.singles.table), now, true, PART_SIZE, lot, MultiColumns(w, pre.s3)).Ok? <==>
            && NoneShared(Multis(w.needed))
            && (forall f, id :: f in Multis(w.needed) && PendingFor(w.singles.table, lot, f, id) ==>
                  UpdateRow(RenewWindow(PART_SIZE), w.singles.table.rows[id], now).Some?)
            && (lot in pre.db.lots || forall f :: f in Multis(w.needed) ==> HasPending(pre.db.table, lot, f))
    ensures forall stage :: Statement(pre.db.(table := w.singles.table), now, true, PART_SIZE, lot, MultiColumns(w, pre.s3))
                            == Err(UnknownLot(stage)) <==>
            && stage == AtMultiUpload && lot !in pre.db.lots && NoneShared(Multis(w.needed))
            && (forall f, id :: f in Multis(w.needed) && PendingFor(w.singles.table, lot, f, id) ==>
                  UpdateRow(RenewWindow(PART_SIZE), w.singles.table.rows[id], now).Some?)
            && exists f :: f in Multis(w.needed) && !HasPending(pre.db.table, lot, f)
  {
    hide PgDecode, Filter, Classified, TableInv, UpdateRow, Statement, UpsertEffect, HasPending, PendingFor, PartsFit;
    var db, props, m := pre.db.(table := w.singles.table), MultiProposals(w, pre.s3, lot), Multis(w.needed);
    ValidFromInv(w.singles.table);
    MultisMatch(w, pre.s3, lot);
    MultiProposalsShape(w, pre.s3, lot);
    var u := Upsert(db.table, now, RenewWindow(PART_SIZE), props);
    if u.Some? {
      UpsertMeetsEffect(db.table, now, RenewWindow(PART_SIZE), props);
      MultiPartsFit(db.table, now, props, u.value);
    }
    StatementExactly(db, now, true, PART_SIZE, lot, MultiColumns(w, pre.s3));
    KeysOfFiles(props, m, lot);
    FoundFiles(db.table, props, m, lot);
    UpdatableFiles(db.table, now, RenewWindow(PART_SIZE), props, m, lot);
    forall f: UploadFile
      ensures lot !in pre.db.lots ==> (HasPending(db.table, lot, f) <==> HasPending(pre.db.table, lot, f))
    {
      FoundBefore(pre, now, files, lot, w, res, f);
    }
  }

  // The row can be answered: it has no null column, and if it is to be resumed its upload is open.
  ghost predicate Answerable(row: MultiRow, s3: S3) {
    !HasNull(row) && Resumable(row, s3)
  }

  lemma RowAnswerable(pre: Stores, now: int, files: seq<UploadFile>, lot: Uuid, w: Trace, res: UploadResult, i: nat)
    requires AfterSingles(pre, now, files, lot, w, res) && UpsertsEffect(pre.db, pre.s3, now, lot, w)
    requires i < |Multis(w.needed)|
    ensures i < |Returned(w, now)| && RowsIn(w.multis.table, w.multis.ids)
    ensures Answerable(Returned(w, now)[i], CreateAll(pre.s3, MultiKeys(w))) <==>
            !MeetsSingleUpload(pre.db, files, lot, Multis(w.needed)[i]) && LiveIsOpen(pre, now, lot, Multis(w.needed)[i])
    ensures HasNull(Returned(w, now)[i]) <==> MeetsSingleUpload(pre.db, files, lot, Multis(w.needed)[i])
  {
    hide PgDecode, Filter, UpsertEffect, Classified, MeetsSingleUpload, CreateAll, Live;
    NullExactly(pre.db, pre.s3, now, files, lot, w, res, i);
    var f, t, id := Multis(w.needed)[i], pre.db.table, w.multis.ids[i];
    if !HasNull(Returned(w, now)[i]) {
      if id in w.singles.table.rows {
        FoundRow(pre, now, lot, w, i);
        StaysAsOpen(t, pre.s3, id, MultiKeys(w));
        assert forall j :: PendingFor(t, lot, f, j) ==> j == id;
      } else {
        NewRowMeetsNothing(pre, now, lot, w, i);
        assert forall j :: !PendingFor(t, lot, f, j);
      }
    }
  }

  ghost predicate MultiStageOk(pre: Stores, now: int, lot: Uuid, w: Trace)
    requires EnoughDraws(w)
  {
    var st := Statement(pre.db.(table := w.singles.table), now, true, PART_SIZE, lot, MultiColumns(w, pre.s3));
    && st.Ok? && RowsIn(st.value.table, st.value.ids)
    && forall m :: m in MultiRows(w.singles.table, st.value, now) ==> Answerable(m, CreateAll(pre.s3, MultiKeys(w)))
  }

  lemma AllAnswerable(rows: seq<MultiRow>, m: seq<UploadFile>, pre: Stores, s3: S3, now: int, files: seq<UploadFile>, lot: Uuid)
    requires |rows| == |m|
    requires forall i :: 0 <= i < |rows| ==>
               (Answerable(rows[i], s3) <==> !MeetsSingleUpload(pre.db, files, lot, m[i]) && LiveIsOpen(pre, now, lot, m[i]))
    ensures (forall r :: r in rows ==> Answerable(r, s3)) <==>
            forall f :: f in m ==> !MeetsSingleUpload(pre.db, files, lot, f) && LiveIsOpen(pre, now, lot, f)
  {
    hide Answerable, MeetsSingleUpload, LiveIsOpen;
    assert forall i :: 0 <= i < |rows| ==> rows[i] in rows && m[i] in m;
  }

  // The trace of the request with the outcome of its multipart statement.
  lemma WithMultis(pre: Stores, now: int, files: seq<UploadFile>, lot: Uuid, w: Trace, res: UploadResult, v: Upserted)
    requires AfterSingles(pre, now, files, lot, w, res)
    requires Statement(pre.db.(table := w.singles.table), now, true, PART_SIZE, lot, MultiColumns(w, pre.s3)) == Ok(v)
    ensures RowsIn(v.table, v.ids)
    ensures AfterSingles(pre, now, files, lot, w.(multis := v), res) && UpsertsEffect(pre.db, pre.s3, now, lot, w.(multis := v))
    ensures |MultiRows(w.singles.table, v, now)| == |Multis(w.needed)|
  {
    hide PgDecode, Filter, UpsertEffect, Classified, TableInv, Statement;
    var w' := w.(multis := v);
    ValidFromInv(w.singles.table);
    StatementMeetsEffect(pre.db.(table := w.singles.table), now, true, PART_SIZE, lot, MultiColumns(w, pre.s3), v);
    assert MultiColumns(w', pre.s3) == MultiColumns(w, pre.s3) && SingleProposals(w', lot) == SingleProposals(w, lot);
    SameClassified(pre.db, files, lot, w, w', res);
    RowsInEffect(w.singles.table, now, MultiProposals(w, pre.s3, lot), v);
    RowCounts(pre, now, lot, w');
  }

  // Once the multipart statement has succeeded, its rows can all be answered exactly when no file
  // meets a single upload and every live row has an open upload; a row is null exactly when some
  // file meets a single upload.
  lemma AnswersExactly(pre: Stores, now: int, files: seq<UploadFile>, lot: Uuid, w: Trace, res: UploadResult, v: Upserted)
    requires AfterSingles(pre, now, files, lot, w, res)
    requires Statement(pre.db.(table := w.singles.table), now, true, PART_SIZE, lot, MultiColumns(w, pre.s3)) == Ok(v)
    ensures RowsIn(v.table, v.ids)
    ensures (forall m :: m in MultiRows(w.singles.table, v, now) ==> Answerable(m, CreateAll(pre.s3, MultiKeys(w)))) <==>
            forall f :: f in Multis(w.needed) ==> MultiAnswerable(pre, now, files, lot, f)
    ensures (exists m :: m in MultiRows(w.singles.table, v, now) && HasNull(m)) <==>
            exists f :: f in Multis(w.needed) && MeetsSingleUpload(pre.db, files, lot, f)
  {
    assert EnoughDraws(w);
    hide PgDecode, Filter, UpsertsEffect, Classified, MeetsSingleUpload, LiveIsOpen, Answerable, HasNull, TableInv, Statement,
         AfterSingles;
    WithMultis(pre, now, files, lot, w, res, v);
    var w' := w.(multis := v);
    var rows, m, s3' := Returned(w', now), Multis(w.needed), CreateAll(pre.s3, MultiKeys(w));
    forall i | 0 <= i < |rows|
      ensures Answerable(rows[i], s3') <==> !MeetsSingleUpload(pre.db, files, lot, m[i]) && LiveIsOpen(pre, now, lot, m[i])
      ensures HasNull(rows[i]) <==> MeetsSingleUpload(pre.db, files, lot, m[i])
    {
      RowAnswerable(pre, now, files, lot, w', res, i);
    }
    AllAnswerable(rows, m, pre, s3', now, files, lot);
    SomeNull(rows, m, pre.db, files, lot);
  }

  lemma SameClassified(db: Db, files: seq<UploadFile>, lot: Uuid, w: Trace, w': Trace, res: UploadResult)
    requires Classified(db, files, lot, w, res) && w'.needed == w.needed
    ensures Classified(db, files, lot, w', res)
  {
  }

  lemma RowsInEffect(t: Table, now: int, props: seq<Proposal>, v: Upserted)
    requires UpsertEffect(t, now, RenewWindow(PART_SIZE), props, v)
    ensures RowsIn(v.table, v.ids)
  {
  }

  lemma UndecodableFails(db: Db, now: int, lot: Uuid, cols: Columns)
    requires Aligned(cols, true) && !AllDecode(cols.sha256s)
    ensures !Statement(db, now, true, PART_SIZE, lot, cols).Ok?
  {
  }

  lemma RoomExactly(pre: Stores, now: int, files: seq<UploadFile>, lot: Uuid, w: Trace, res: UploadResult, f: UploadFile)
    requires AfterSingles(pre, now, files, lot, w, res)
    ensures (forall id :: PendingFor(w.singles.table, lot, f, id) ==>
               UpdateRow(RenewWindow(PART_SIZE), w.singles.table.rows[id], now).Some?) <==> RoomFor(pre, now, files, lot, f)
  {
    hide PgDecode, Filter, UpsertEffect, Classified, UpdateRow, SharesDigest;
    var t, u := pre.db.table, w.singles.table;
    forall id | PendingFor(u, lot, f, id)
      ensures id in t.rows ==>
                && PendingFor(t, lot, f, id)
                && (UpdateRow(RenewWindow(PART_SIZE), u.rows[id], now).Some? <==> RoomAt(pre, now, files, f, id))
      ensures id !in t.rows ==> UpdateRow(RenewWindow(PART_SIZE), u.rows[id], now).Some?
    {
      FoundBetween(pre, now, files, lot, w, res, f, id);
      PendingIsRow(u, lot, f, id);
      RowUpdatable(u.rows[id], now);
    }
    forall id | PendingFor(t, lot, f, id)
      ensures PendingFor(u, lot, f, id)
    {
      PendingKept(t, now, KeepStorageKey, SingleProposals(w, lot), w.singles, PgDecode(f.sha256).value, lot, id);
    }
  }

  ghost predicate MultiStatementOk(pre: Stores, now: int, lot: Uuid, w: Trace)
    requires EnoughDraws(w)
  {
    Statement(pre.db.(table := w.singles.table), now, true, PART_SIZE, lot, MultiColumns(w, pre.s3)).Ok?
  }

  lemma MultisExactly(pre: Stores, now: int, files: seq<UploadFile>, lot: Uuid, w: Trace, res: UploadResult)
    requires AfterSingles(pre, now, files, lot, w, res)
    ensures MultiStatementOk(pre, now, lot, w) <==>
            && (forall f :: f in Multis(w.needed) ==> MultiReachable(pre, now, files, lot, f))
            && NoneShared(Multis(w.needed))
    ensures MultiStageOk(pre, now, lot, w) <==>
            && MultiStatementOk(pre, now, lot, w)
            && forall f :: f in Multis(w.needed) ==> MultiAnswerable(pre, now, files, lot, f)
  {
    hide PgDecode, Filter, UpsertEffect, Classified, MultiAnswerable, Statement, TableInv, StoreInv, HasPending, Answerable,
         RoomFor, NoneShared, AllDecode;
    var m, u, db := Multis(w.needed), w.singles, pre.db.(table := w.singles.table);
    DecodeAll(m);
    if AllDecode(Shas(m)) {
      MultiStatementExactly(pre, now, files, lot, w, res);
      var st := Statement(db, now, true, PART_SIZE, lot, MultiColumns(w, pre.s3));
      if st.Ok? {
        AnswersExactly(pre, now, files, lot, w, res, st.value);
      }
      forall f | f in m
        ensures (forall id :: PendingFor(u.table, lot, f, id) ==>
                   UpdateRow(RenewWindow(PART_SIZE), u.table.rows[id], now).Some?) <==> RoomFor(pre, now, files, lot, f)
      {
        RoomExactly(pre, now, files, lot, w, res, f);
      }
    } else {
      UndecodableFails(db, now, lot, MultiColumns(w, pre.s3));
    }
  }

  /* ---------- the whole request ---------- */

  // The state a request starts from, with random keys of its own.
  ghost predicate Ready(pre: Stores, draws: seq<Uuid>) {
    TableInv(pre.db.table) && StoreInv(pre.db.table, pre.s3) && FreshDraws(pre.db.table, draws)
  }

  lemma SingleStageLeaves(pre: Stores, now: int, files: seq<UploadFile>, lot: Uuid, w: Trace, res: UploadResult)
    requires Ready(pre, w.draws) && EnoughDraws(w) && Classified(pre.db, files, lot, w, res)
    requires SingleStageOk(pre.db, now, lot, w) && Statement(pre.db, now, false, 0, lot, SingleColumns(w)) == Ok(w.singles)
    requires forall f :: f in Singles(w.needed) ==> SingleAcceptable(pre.db, lot, f)
    ensures AfterSingles(pre, now, files, lot, w, res)
  {
    hide PgDecode, Filter, Classified, Statement, UpsertEffect, TableInv, StoreInv, FreshDraws, AllDecode, HasPending, IsHex;
    ValidFromInv(pre.db.table);
    StatementMeetsEffect(pre.db, now, false, 0, lot, SingleColumns(w), w.singles);
    NeededDistinct(pre.db, files, lot, w, res);
    HexFiles(Singles(w.needed));
    SinglesKeepTable(pre, now, lot, w);
  }

  lemma SinglesKeepTable(pre: Stores, now: int, lot: Uuid, w: Trace)
    requires Ready(pre, w.draws) && EnoughDraws(w) && AllDecode(Shas(Singles(w.needed)))
    requires UpsertEffect(pre.db.table, now, KeepStorageKey, SingleProposals(w, lot), w.singles)
    ensures TableInv(w.singles.table)
  {
    hide PgDecode, Filter, UpsertEffect, TableInv;
    var t, props := pre.db.table, SingleProposals(w, lot);
    DrawsOf(w);
    forall i | 0 <= i < |props|
      ensures ProposalShape(props[i]) && props[i].uploadId.None? && props[i].storageKey == SingleKeys(w)[i]
    {
      SingleColumnsZip(w.needed, SingleKeys(w), lot, i);
    }
    assert FreshProposals(t, props);
    UpsertKeepsTableInv(t, now, KeepStorageKey, props, w.singles);
  }

  // The two statements of a request succeed, on hexadecimal single files, exactly when its needed
  // files are reachable; and its two stages do exactly when they can also be answered.
  lemma StagesExactly(pre: Stores, now: int, files: seq<UploadFile>, lot: Uuid, w: Trace, res: UploadResult)
    requires Ready(pre, w.draws) && EnoughDraws(w) && Classified(pre.db, files, lot, w, res)
    requires Statement(pre.db, now, false, 0, lot, SingleColumns(w)).Ok? ==>
               w.singles == Statement(pre.db, now, false, 0, lot, SingleColumns(w)).value
    ensures SingleStageOk(pre.db, now, lot, w) && MultiStatementOk(pre, now, lot, w) <==> Reaches(pre, now, files, lot)
    ensures SingleStageOk(pre.db, now, lot, w) && MultiStageOk(pre, now, lot, w) <==> Acceptable(pre, now, files, lot)
  {
    hide PgDecode, Filter, Classified, Statement, MultiStageOk, MultiStatementOk, Needs, SingleAcceptable, MultiReachable,
         MultiAnswerable, SameDigest, IsStored;
    NeededAre(pre.db, files, lot, w, res);
    NeededDistinct(pre.db, files, lot, w, res);
    StoredNeedsLot(pre.db, files, lot, w, res);
    SinglesExactly(pre.db, now, lot, w);
    if SingleStageOk(pre.db, now, lot, w) {
      SingleStageLeaves(pre, now, files, lot, w, res);
      MultisExactly(pre, now, files, lot, w, res);
    }
    assert DigestsDiffer(pre.db, files) <==> NoneShared(Singles(w.needed)) && NoneShared(Multis(w.needed));
  }

  lemma StoredNeedsLot(db: Db, files: seq<UploadFile>, lot: Uuid, w: Trace, res: UploadResult)
    requires Classified(db, files, lot, w, res)
    ensures lot in db.lots || forall f :: f in FirstOccurrences(files) ==> !IsStored(db.blobs, f.sha256)
  {
    hide PgDecode, Encode;
    var kept := FirstOccurrences(files);
    forall f | f in kept && IsStored(db.blobs, f.sha256)
      ensures lot in db.lots
    {
      var i :| 0 <= i < |kept| && kept[i] == f;
      assert Shas(kept)[i] == f.sha256 && Shas(kept)[i] in Shas(kept);
      StoredShasContain(db.blobs, Shas(kept), ReturnedSha(f.sha256));
    }
  }

  lemma ExistingHasFile(blobs: map<Bytes, Blob>, kept: seq<UploadFile>)
    requires ExistingShas(blobs, Shas(kept)) != []
    ensures exists f :: f in kept && IsStored(blobs, f.sha256)
  {
    hide PgDecode;
    var s := ExistingShas(blobs, Shas(kept))[0];
    StoredShasContain(blobs, Shas(kept), s);
    var x :| x in Shas(kept) && IsStored(blobs, x) && ReturnedSha(x) == s;
    var i :| 0 <= i < |kept| && Shas(kept)[i] == x;
    assert kept[i] in kept;
  }

  // A request whose files are reachable is not stopped by the look-up of stored blobs.
  lemma NothingSkipped(pre: Stores, now: int, files: seq<UploadFile>, lot: Uuid, fault: Fault)
    requires Reaches(pre, now, files, lot)
    ensures !SkipFails(pre.db, lot, Shas(FirstOccurrences(files)), fault)
  {
    hide PgDecode, Canonical, IsHex, HasPending, RoomFor;
    var kept := FirstOccurrences(files);
    forall f | f in kept
      ensures PgDecode(f.sha256).Some?
    {
      if Needs(pre.db, files, f) && IsSingle(f) {
        HexFiles([f]);
        assert f in [f];
        DecodeAll([f]);
      }
    }
    DecodeAll(kept);
    if lot !in pre.db.lots && ExistingShas(pre.db.blobs, Shas(kept)) != [] {
      ExistingHasFile(pre.db.blobs, kept);
    }
  }

  // Once its files are reachable, a request with nothing null can only fail for a live row whose
  // upload is not open.
  lemma StagesFailMeans(pre: Stores, now: int, files: seq<UploadFile>, lot: Uuid, w: Trace, res: UploadResult, fault: Fault)
    requires Ready(pre, w.draws) && Reaches(pre, now, files, lot) && EnoughDraws(w) && Classified(pre.db, files, lot, w, res)
    requires StagesFail(pre.db, pre.s3, CreateAll(pre.s3, MultiKeys(w)), now, lot, w, fault)
    ensures !Acceptable(pre, now, files, lot) && !MustPanic(pre, now, files, lot) && fault == Internal
  {
    hide PgDecode, Canonical, Statement, Classified, TableInv, StoreInv, FreshDraws, Reaches, AllHex, HasNull, Resumable, CreateAll,
         Needs, MeetsSingleUpload, LiveIsOpen;
    var st := Statement(pre.db, now, false, 0, lot, SingleColumns(w));
    var w' := if st.Ok? then w.(singles := st.value) else w;
    SameClassified(pre.db, files, lot, w, w', res);
    StagesExactly(pre, now, files, lot, w', res);
    assert SingleColumns(w') == SingleColumns(w) && MultiColumns(w', pre.s3) == MultiColumns(w, pre.s3);
    assert MultiKeys(w') == MultiKeys(w);
    ReachedNulls(pre, now, files, lot, w', res);
  }

  lemma ReachedNulls(pre: Stores, now: int, files: seq<UploadFile>, lot: Uuid, w: Trace, res: UploadResult)
    requires Ready(pre, w.draws) && EnoughDraws(w) && Classified(pre.db, files, lot, w, res)
    requires SingleStageOk(pre.db, now, lot, w) && w.singles == Statement(pre.db, now, false, 0, lot, SingleColumns(w)).value
    requires MultiStatementOk(pre, now, lot, w)
    ensures var v := Statement(pre.db.(table := w.singles.table), now, true, PART_SIZE, lot, MultiColumns(w, pre.s3)).value;
            && RowsIn(v.table, v.ids)
            && ((exists m :: m in MultiRows(w.singles.table, v, now) && HasNull(m)) <==>
                exists f :: Needs(pre.db, files, f) && IsMulti(f) && MeetsSingleUpload(pre.db, files, lot, f))
  {
    hide PgDecode, Filter, Classified, Statement, Needs, SingleAcceptable, MeetsSingleUpload, TableInv, StoreInv, FreshDraws, HasNull;
    NeededAre(pre.db, files, lot, w, res);
    NeededDistinct(pre.db, files, lot, w, res);
    SinglesExactly(pre.db, now, lot, w);
    SingleStageLeaves(pre, now, files, lot, w, res);
    AnswersExactly(pre, now, files, lot, w, res,
                   Statement(pre.db.(table := w.singles.table), now, true, PART_SIZE, lot, MultiColumns(w, pre.s3)).value);
  }

  // A request that fails could not have succeeded, and would not have panicked.
  lemma FailureExactly(pre: Stores, now: int, files: seq<UploadFile>, lot: Uuid, w: Trace, fault: Fault)
    requires Ready(pre, w.draws) && Fails(pre, now, files, lot, w, fault)
    ensures !Acceptable(pre, now, files, lot) && !MustPanic(pre, now, files, lot)
  {
    hide Ready, Reaches, SkipFails, StagesFail, Classified, Needs, MultiAnswerable, MeetsSingleUpload;
    if Reaches(pre, now, files, lot) {
      NothingSkipped(pre, now, files, lot, fault);
      var res :| Classified(pre.db, files, lot, w, res);
      StagesFailMeans(pre, now, files, lot, w, res, fault);
    }
  }

  // An acceptable request has no reason to fail.
  lemma NoReasonToFail(pre: Stores, now: int, files: seq<UploadFile>, lot: Uuid, w: Trace, fault: Fault)
    requires Ready(pre, w.draws) && Acceptable(pre, now, files, lot)
    ensures !Fails(pre, now, files, lot, w, fault)
  {
    hide Ready, Acceptable, MustPanic, Fails;
    if Fails(pre, now, files, lot, w, fault) {
      FailureExactly(pre, now, files, lot, w, fault);
    }
  }

  // A request that succeeded was acceptable.
  lemma SuccessWasAcceptable(pre: Stores, now: int, files: seq<UploadFile>, lot: Uuid, w: Trace, post: Stores, res: UploadResult)
    requires Ready(pre, w.draws) && Initiated(pre, now, files, lot, w, post, res)
    ensures Acceptable(pre, now, files, lot)
  {
    hide PgDecode, Canonical, Filter, Statement, Classified, TableInv, StoreInv, FreshDraws, Reaches, AllHex, HasNull, Resumable,
         CreateAll, MultiAnswerable;
    var single, multi :| PresignedInStages(now, w, post.s3, single, multi) && res.presigned == single + multi;
    assert SingleStageOk(pre.db, now, lot, w) && MultiStageOk(pre, now, lot, w);
    StagesExactly(pre, now, files, lot, w, res);
  }

  /* ---------- panics ---------- */

  lemma PanicWasDue(pre: Stores, now: int, files: seq<UploadFile>, lot: Uuid, w: Trace)
    requires Ready(pre, w.draws) && Panicked(pre, now, files, lot, w)
    ensures MustPanic(pre, now, files, lot)
  {
    hide PgDecode, Canonical, Filter, Statement, Classified, TableInv, StoreInv, FreshDraws, Reaches, AllHex, HasNull, CreateAll,
         Needs, MeetsSingleUpload;
    var res :| Classified(pre.db, files, lot, w, res);
    assert SingleStageOk(pre.db, now, lot, w) && MultiStatementOk(pre, now, lot, w);
    StagesExactly(pre, now, files, lot, w, res);
    ReachedNulls(pre, now, files, lot, w, res);
  }

  // The needed and the already uploaded files of a batch.
  lemma Split(pre: Stores, files: seq<UploadFile>) returns (needed: seq<UploadFile>, uploaded: seq<UploadFile>)
    ensures var kept := FirstOccurrences(files);
            && multiset(needed) + multiset(uploaded) == multiset(kept) && |needed| <= |files|
            && Separated(ExistingShas(pre.db.blobs, Shas(kept)), needed, uploaded)
  {
    hide FirstOccurrences, ExistingShas;
    var kept := FirstOccurrences(files);
    var existing := ExistingShas(pre.db.blobs, Shas(kept));
    var isStored, isNeeded := (f: UploadFile) => Carries(existing, f), (f: UploadFile) => !Carries(existing, f);
    uploaded, needed := Filter(isStored, kept), Filter(isNeeded, kept);
    FilterSplits(isStored, isNeeded, kept);
    FilterMembers(isStored, kept);
    FilterMembers(isNeeded, kept);
    NeededFit(files, kept, needed, uploaded);
  }

  lemma SplitIsClassified(db: Db, files: seq<UploadFile>, lot: Uuid, w: Trace, uploaded: seq<UploadFile>)
    requires multiset(w.needed) + multiset(uploaded) == multiset(FirstOccurrences(files))
    requires Separated(ExistingShas(db.blobs, Shas(FirstOccurrences(files))), w.needed, uploaded)
    requires ExistingShas(db.blobs, Shas(FirstOccurrences(files))) != [] ==> lot in db.lots
    ensures forall urls :: Classified(db, files, lot, w, UploadResult(Duplicates(files), uploaded, urls))
  {
    hide FirstOccurrences, ExistingShas, Separated, Duplicates;
  }

  // The trace of a batch whose files are reachable, with the outcome of its statements.
  lemma Reached(pre: Stores, now: int, files: seq<UploadFile>, lot: Uuid, draws: seq<Uuid>)
    returns (w: Trace, uploaded: seq<UploadFile>)
    requires Ready(pre, draws) && Reaches(pre, now, files, lot) && |draws| >= |files|
    ensures w.draws == draws && EnoughDraws(w)
    ensures forall urls :: Classified(pre.db, files, lot, w, UploadResult(Duplicates(files), uploaded, urls))
    ensures SingleStageOk(pre.db, now, lot, w) && w.singles == Statement(pre.db, now, false, 0, lot, SingleColumns(w)).value
    ensures MultiStatementOk(pre, now, lot, w)
    ensures w.multis == Statement(pre.db.(table := w.singles.table), now, true, PART_SIZE, lot, MultiColumns(w, pre.s3)).value
  {
    hide PgDecode, Canonical, Filter, Statement, TableInv, StoreInv, FreshDraws, Reaches, AllHex, Classified, Separated, FirstOccurrences,
         ExistingShas, Duplicates, CreatedIds;
    KnownOrEmpty(pre, now, files, lot);
    var needed;
    needed, uploaded := Split(pre, files);
    SizesFit(needed);
    var sorted := Trace(needed, draws, Upserted(pre.db.table, []), Upserted(pre.db.table, []));
    var st := Statement(pre.db, now, false, 0, lot, SingleColumns(sorted));
    var w1 := if st.Ok? then sorted.(singles := st.value) else sorted;
    SplitIsClassified(pre.db, files, lot, w1, uploaded);
    StagesExactly(pre, now, files, lot, w1, UploadResult(Duplicates(files), uploaded, []));
    w := w1.(multis := Statement(pre.db.(table := w1.singles.table), now, true, PART_SIZE, lot, MultiColumns(w1, pre.s3)).value);
    SplitIsClassified(pre.db, files, lot, w, uploaded);
  }

  lemma KnownOrEmpty(pre: Stores, now: int, files: seq<UploadFile>, lot: Uuid)
    requires Reaches(pre, now, files, lot)
    ensures ExistingShas(pre.db.blobs, Shas(FirstOccurrences(files))) != [] ==> lot in pre.db.lots
  {
    hide PgDecode, Canonical, IsStored, Needs, SingleAcceptable, MultiReachable, DigestsDiffer;
    if ExistingShas(pre.db.blobs, Shas(FirstOccurrences(files))) != [] {
      ExistingHasFile(pre.db.blobs, FirstOccurrences(files));
    }
  }

  lemma StatementRows(db: Db, now: int, lot: Uuid, cols: Columns, u: Upserted)
    requires ValidTable(db.table) && Aligned(cols, false) && Statement(db, now, false, 0, lot, cols) == Ok(u)
    ensures RowsIn(u.table, u.ids)
  {
    hide Statement, PgDecode;
    StatementMeetsEffect(db, now, false, 0, lot, cols, u);
  }

  lemma PanicIsPossible(pre: Stores, now: int, files: seq<UploadFile>, lot: Uuid, draws: seq<Uuid>) returns (w: Trace)
    requires Ready(pre, draws) && MustPanic(pre, now, files, lot) && |draws| >= |files|
    ensures w.draws == draws && Panicked(pre, now, files, lot, w)
  {
    hide PgDecode, Canonical, Statement, Classified, TableInv, StoreInv, FreshDraws, Reaches, AllHex, HasNull, CreateAll, Needs,
         MeetsSingleUpload;
    var uploaded;
    w, uploaded := Reached(pre, now, files, lot, draws);
    var res := UploadResult(Duplicates(files), uploaded, []);
    assert Classified(pre.db, files, lot, w, res);
    ValidFromInv(pre.db.table);
    StatementRows(pre.db, now, lot, SingleColumns(w), w.singles);
    ReachedNulls(pre, now, files, lot, w, res);
  }

  // Panics, from the batch, the table and the store alone: a request panics exactly when both its
  // statements would succeed and a multipart file that needs an upload meets a single upload.
  lemma PanicExactly(pre: Stores, now: int, files: seq<UploadFile>, lot: Uuid, draws: seq<Uuid>)
    requires Ready(pre, draws) && |draws| >= |files|
    ensures (exists w: Trace :: w.draws == draws && Panicked(pre, now, files, lot, w)) <==> MustPanic(pre, now, files, lot)
  {
    hide Ready, Panicked, MustPanic;
    if MustPanic(pre, now, files, lot) {
      var w := PanicIsPossible(pre, now, files, lot, draws);
    }
    if w: Trace :| w.draws == draws && Panicked(pre, now, files, lot, w) {
      PanicWasDue(pre, now, files, lot, w);
    }
  }

  // An acceptable request has no reason to panic.
  lemma NoReasonToPanic(pre: Stores, now: int, files: seq<UploadFile>, lot: Uuid, w: Trace)
    requires Ready(pre, w.draws) && Acceptable(pre, now, files, lot)
    ensures !Panicked(pre, now, files, lot, w)
  {
    hide Ready, Panicked, Needs, MeetsSingleUpload, Reaches;
    if Panicked(pre, now, files, lot, w) {
      PanicWasDue(pre, now, files, lot, w);
    }
  }

  /* ---------- outcomes ---------- */

  // What the outcome of the request inside says of its batch.
  lemma OutcomeExactly(pre: Stores, now: int, files: seq<UploadFile>, lot: Uuid, w: Trace, post: Stores,
                       r: Outcome<UploadResult>, reliable: bool)
    requires Ready(pre, w.draws)
    requires r.Ok? ==> Initiated(pre, now, files, lot, w, post, r.value)
    requires r.Err? && reliable ==> Fails(pre, now, files, lot, w, r.fault)
    requires r.Panic? ==> Panicked(pre, now, files, lot, w)
    ensures r.Ok? ==> Acceptable(pre, now, files, lot)
    ensures r.Panic? ==> MustPanic(pre, now, files, lot)
    ensures reliable ==> (r.Ok? <==> Acceptable(pre, now, files, lot)) && (r.Panic? <==> MustPanic(pre, now, files, lot))
  {
    NotBoth(pre, now, files, lot);
    hide Ready, Initiated, Fails, Panicked, Acceptable, MustPanic;
    match r
    case Ok(res) => SuccessWasAcceptable(pre, now, files, lot, w, post, res);
    case Err(fault) =>
      if reliable {
        FailureExactly(pre, now, files, lot, w, fault);
      }
    case Panic => PanicWasDue(pre, now, files, lot, w);
  }

  lemma NotBoth(pre: Stores, now: int, files: seq<UploadFile>, lot: Uuid)
    ensures !(Acceptable(pre, now, files, lot) && MustPanic(pre, now, files, lot))
  {
    hide Reaches, Needs, MeetsSingleUpload;
  }

  // With stores that do not fail, a request succeeds exactly when it is acceptable, and panics
  // exactly when it must.
  method InitiateExactly(db: Queries, client: Client, files: seq<UploadFile>, lot: Uuid, now: int, draws: seq<Uuid>)
    returns (r: Outcome<UploadResult>)
    requires Reliable(db, client) && |draws| >= |files| && Ready(Stores(db.View(), client.View()), draws)
    modifies db, client
    ensures r.Ok? <==> Acceptable(Stores(old(db.View()), old(client.View())), now, files, lot)
    ensures r.Panic? <==> MustPanic(Stores(old(db.View()), old(client.View())), now, files, lot)
    ensures r.Ok? ==>
              exists w: Trace :: w.draws == draws &&
                          Initiated(Stores(old(db.View()), old(client.View())), now, files, lot, w,
                                    Stores(db.View(), client.View()), r.value)
    ensures !r.Ok? ==>
              Aborted(Stores(old(db.View()), old(client.View())), Stores(db.View(), client.View()))
  {
    hide Acceptable, MustPanic, Initiated, Fails, Panicked, Aborted, TableInv, StoreInv, FreshDraws;
    ghost var pre := Stores(db.View(), client.View());
    ValidFromInv(pre.db.table);
    ghost var w;
    r, w := InitiateUpload(db, client, files, Some(lot), now, draws);
    OutcomeExactly(pre, now, files, lot, w, Stores(db.View(), client.View()), r, true);
  }

  /* ---------- canonical batches whose digests determine sizes ---------- */

  // What is left of the condition then: versions, and open uploads of the live rows the request's
  // own multipart files meet.
  ghost predicate CanResume(pre: Stores, now: int, lot: Uuid, f: UploadFile) {
    forall id :: PendingFor(pre.db.table, lot, f, id) ==>
      && pre.db.table.rows[id].version < MAX_INT32
      && (Live(pre.db.table.rows[id], now) ==> UploadOpen(pre.db.table.rows[id], pre.s3))
  }

  lemma CanonicalApart(db: Db, files: seq<UploadFile>, f: UploadFile, g: UploadFile)
    requires AllCanonical(files) && f in FirstOccurrences(files) && g in FirstOccurrences(files) && f != g
    ensures !SameDigest(f, g) && IsHex(f.sha256) && PgDecode(f.sha256).Some?
  {
    hide PgDecode, Canonical;
    DedupeDistinct(files);
    MultiplicityOne(FirstOccurrences(files), f, g);
    CanonicalDecodes(f.sha256);
    CanonicalDecodes(g.sha256);
    CanonicalIsHex(f.sha256);
  }

  lemma CanonicalFile(f: UploadFile)
    requires Canonical(f.sha256)
    ensures IsHex(f.sha256) && PgDecode(f.sha256).Some?
  {
    hide PgDecode, Canonical;
    CanonicalDecodes(f.sha256);
    CanonicalIsHex(f.sha256);
  }

  // For a known lot, a canonical batch whose digests determine sizes is acceptable exactly when
  // each of its multipart files that need an upload can start or resume it.
  lemma SizedAcceptable(sizeOf: Bytes -> int, pre: Stores, now: int, files: seq<UploadFile>, lot: Uuid)
    requires TableInv(pre.db.table) && TypesFit(sizeOf, pre.db.table) && Sized(sizeOf, files)
    requires AllCanonical(files) && lot in pre.db.lots
    ensures Acceptable(pre, now, files, lot) <==>
            forall f :: Needs(pre.db, files, f) && IsMulti(f) ==> CanResume(pre, now, lot, f)
  {
    hide PgDecode, Canonical, IsStored, TableInv, SameDigest, Live, UploadOpen;
    var db := pre.db;
    forall f | Needs(db, files, f)
      ensures IsSingle(f) ==> SingleAcceptable(db, lot, f)
      ensures IsMulti(f) ==> (MultiReachable(pre, now, files, lot, f) && MultiAnswerable(pre, now, files, lot, f) <==> CanResume(pre, now, lot, f))
    {
      CanonicalFile(f);
      if IsSingle(f) {
        SizedSingle(sizeOf, db, files, lot, f);
      } else {
        SizedMeetsNothing(sizeOf, db, files, lot, f);
        NothingShared(db, files, f);
      }
    }
    forall f, g | Needs(db, files, f) && Needs(db, files, g) && f != g
      ensures !SameDigest(f, g)
    {
      CanonicalApart(db, files, f, g);
    }
  }

  lemma NothingShared(db: Db, files: seq<UploadFile>, f: UploadFile)
    requires AllCanonical(files) && Needs(db, files, f) && IsMulti(f)
    ensures !SharesDigest(db, files, f)
  {
    hide PgDecode, Canonical, IsStored, SameDigest;
    forall g | Needs(db, files, g) && IsSingle(g)
      ensures !SameDigest(f, g)
    {
      CanonicalApart(db, files, f, g);
    }
  }

  // A single file of a sized batch never meets a multipart upload.
  lemma SizedSingle(sizeOf: Bytes -> int, db: Db, files: seq<UploadFile>, lot: Uuid, f: UploadFile)
    requires TypesFit(sizeOf, db.table) && Sized(sizeOf, files) && Needs(db, files, f) && IsSingle(f)
    ensures !MeetsMultiUpload(db.table, lot, f)
  {
    hide PgDecode, Canonical;
  }

  // In every reachable world, with stores that do not fail, a canonical batch for a known lot
  // whose digests determine sizes succeeds exactly when none of its multipart files that need an
  // upload meets a row without versions left, or a live row whose upload is no longer open.  It
  // then loses no file, every presigned request targets the row of its own file, and no two
  // answers share an object key.
  method InitiateReachable(db: Queries, client: Client, ghost sizeOf: Bytes -> int, ghost ws: seq<World>, ghost es: seq<Event>,
                           files: seq<UploadFile>, lot: Uuid, now: int, draws: seq<Uuid>)
    returns (r: Outcome<UploadResult>)
    requires Reliable(db, client) && |draws| >= |files|
    requires Run(ws, es) && ws[|es|].stores == Stores(db.View(), client.View())
    requires AllSized(sizeOf, es) && Sized(sizeOf, files) && FreshDraws(db.View().table, draws)
    requires AllCanonical(files) && lot in db.lots
    modifies db, client
    ensures r.Ok? <==>
            forall f :: Needs(old(db.View()), files, f) && IsMulti(f) ==>
                          CanResume(Stores(old(db.View()), old(client.View())), now, lot, f)
    ensures r.Ok? ==>
              && multiset(files) == multiset(r.value.duplicates) + multiset(r.value.alreadyUploaded)
                                    + multiset(FilesOf(r.value.presigned))
              && (forall p :: p in r.value.presigned ==> Targets(db.View().table, lot, p))
              && AllApart(r.value.presigned)
  {
    hide AllApart, Inv, Step, Acceptable, Initiated, AllCanonical, Targets, FilesOf, Sized, CanResume, TypesFit, FreshDraws, Needs, TableInv,
         StoreInv, MeetsMultiUpload;
    ghost var pre := Stores(db.View(), client.View());
    RunInv(ws, es, |es|);
    RunTypes(sizeOf, ws, es, |es|);
    TableOfInv(ws[|es|]);
    SizedAcceptable(sizeOf, pre, now, files, lot);
    r := InitiateExactly(db, client, files, lot, now, draws);
    if r.Ok? {
      SizedReply(sizeOf, pre, now, files, lot, Stores(db.View(), client.View()), r.value, draws);
    }
  }

  lemma SizedReply(sizeOf: Bytes -> int, pre: Stores, now: int, files: seq<UploadFile>, lot: Uuid, post: Stores, res: UploadResult,
                   draws: seq<Uuid>)
    requires Ready(pre, draws) && TypesFit(sizeOf, pre.db.table) && Sized(sizeOf, files) && AllCanonical(files)
    requires exists w: Trace :: w.draws == draws && Initiated(pre, now, files, lot, w, post, res)
    ensures multiset(files) == multiset(res.duplicates) + multiset(res.alreadyUploaded) + multiset(FilesOf(res.presigned))
    ensures forall p :: p in res.presigned ==> Targets(post.db.table, lot, p)
    ensures AllApart(res.presigned)
  {
    hide AllApart, OneNilKey, NoSharedUpload, Initiated, Targets, FilesOf, Sized, TypesFit, FreshDraws, Needs, TableInv, StoreInv, MeetsMultiUpload, Canonical;
    var w: Trace :| w.draws == draws && Initiated(pre, now, files, lot, w, post, res);
    ValidFromInv(pre.db.table);
    NotNilFromInv(pre.db.table, draws);
    FilterMembers(IsMulti, FirstOccurrences(files));
    Conservation(pre, now, files, lot, w, post, res);
    JoinCorrect(pre, now, files, lot, w, post, res);
    forall f | Needs(pre.db, files, f) && IsSingle(f)
      ensures !MeetsMultiUpload(pre.db.table, lot, f)
    {
      SizedSingle(sizeOf, pre.db, files, lot, f);
    }
    CanonicalIsApart(pre, now, files, lot);
    AnswersApart(pre, now, files, lot, w, post, res);
  }
}
