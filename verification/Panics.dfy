// When a request dereferences a null column, and why no reachable one does so as long as a
// digest determines the size of its file.
module Panics {
  import opened Wrappers
  import opened Hex
  import opened Parts
  import opened Attempts
  import opened ObjectStore
  import opened Database
  import opened Intake
  import opened Uploads
  import opened ImageStore
  import opened Conditions
  import opened Requests
  import opened Completion
  import opened Protocol
  import opened ProtocolInitiate
  import opened Replies
  import opened ProtocolRuns

  // The table the multipart statement meets.
  lemma SinglesKeepInv(pre: Stores, now: int, lot: Uuid, trace: Trace)
    requires TableInv(pre.db.table) && FreshDraws(pre.db.table, trace.draws) && EnoughDraws(trace)
    requires Upserts(pre.db, pre.s3, now, lot, trace)
    ensures UpsertsEffect(pre.db, pre.s3, now, lot, trace) && TableInv(trace.singles.table)
    ensures |trace.multis.ids| == |Multis(trace.needed)| == |Returned(trace, now)|
  {
    hide PgDecode, Filter, UpdateRow, FreshDraws;
    UpsertsMeetEffect(pre.db, pre.s3, now, lot, trace);
    SinglesFresh(pre.db.table, pre.db, pre.s3, now, lot, trace);
    UpsertKeepsTableInv(pre.db.table, now, KeepStorageKey, SingleProposals(trace, lot), trace.singles);
  }

  // The row returned for multipart file i is null exactly when the file meets a single row.
  lemma NullRow(db: Db, s3: S3, now: int, lot: Uuid, trace: Trace, i: nat)
    requires UpsertsEffect(db, s3, now, lot, trace) && TableInv(trace.singles.table) && i < |Multis(trace.needed)|
    ensures i < |Returned(trace, now)| && RowsIn(trace.multis.table, trace.multis.ids)
    ensures HasNull(Returned(trace, now)[i]) <==> MeetsSingleRow(trace.singles.table, lot, Multis(trace.needed)[i])
  {
    hide PgDecode, Filter;
    var t, id := trace.singles.table, trace.multis.ids[i];
    var p := MultiProposals(trace, s3, lot)[i];
    MultiRowOf(db, s3, now, lot, trace, i);
    MultiColumnsZip(trace.needed, MultiKeys(trace), s3, lot, i);
    assert Settled(t, now, RenewWindow(PART_SIZE), p, id, trace.multis.table.rows[id]);
    if id in t.rows {
      UpdateKeepsIdentity(RenewWindow(PART_SIZE), t.rows[id], now);
      assert RowShape(t.rows[id]);
      assert PendingFor(t, lot, Multis(trace.needed)[i], id);
    } else {
      assert forall j :: !PendingFor(t, lot, Multis(trace.needed)[i], j);
    }
  }

  // A single row the multipart statement will find was pending before the request, or belongs to
  // a single file of the request that had no row before.
  lemma SingleRowBefore(db: Db, s3: S3, now: int, files: seq<UploadFile>, lot: Uuid, w: Trace, res: UploadResult, f: UploadFile, id: int)
    requires TableInv(db.table) && UpsertsEffect(db, s3, now, lot, w) && Classified(db, files, lot, w, res)
    requires PendingFor(w.singles.table, lot, f, id) && w.singles.table.rows[id].uploadType.SingleUpload?
    ensures MeetsSingleUpload(db, files, lot, f)
  {
    hide PgDecode, Filter, Classified, Needs;
    NeededAre(db, files, lot, w, res);
    var t, props := db.table, SingleProposals(w, lot);
    if id in t.rows {
      SinglesKeepRow(t, now, props, w.singles, id);
      assert PendingFor(t, lot, f, id);
    } else {
      var i :| 0 <= i < |w.singles.ids| && w.singles.ids[i] == id;
      SingleColumnsZip(w.needed, SingleKeys(w), lot, i);
      assert Settled(t, now, KeepStorageKey, props[i], id, w.singles.table.rows[id]);
      assert SameDigest(f, Singles(w.needed)[i]) && Singles(w.needed)[i] in Singles(w.needed);
      assert forall j :: !PendingFor(t, lot, f, j);
    }
  }

  lemma SingleRowAfter(db: Db, s3: S3, now: int, files: seq<UploadFile>, lot: Uuid, w: Trace, res: UploadResult, f: UploadFile)
    requires TableInv(db.table) && UpsertsEffect(db, s3, now, lot, w) && Classified(db, files, lot, w, res)
    requires MeetsSingleUpload(db, files, lot, f)
    ensures MeetsSingleRow(w.singles.table, lot, f)
  {
    hide PgDecode, Filter, Classified, Needs;
    NeededAre(db, files, lot, w, res);
    var t, props := db.table, SingleProposals(w, lot);
    if id :| PendingFor(t, lot, f, id) && t.rows[id].uploadType.SingleUpload? {
      SinglesKeepRow(t, now, props, w.singles, id);
      assert PendingFor(w.singles.table, lot, f, id);
    } else {
      var g :| Needs(db, files, g) && IsSingle(g) && SameDigest(f, g);
      var i :| 0 <= i < |Singles(w.needed)| && Singles(w.needed)[i] == g;
      var id := w.singles.ids[i];
      SingleColumnsZip(w.needed, SingleKeys(w), lot, i);
      assert Settled(t, now, KeepStorageKey, props[i], id, w.singles.table.rows[id]);
      assert id in t.rows ==> PendingFor(t, lot, f, id);
      assert PendingFor(w.singles.table, lot, f, id);
    }
  }

  // Once both statements have succeeded, a returned row is null exactly when a multipart file that
  // needs an upload meets a single upload: a pending one, or one the request inserts itself.
  lemma NullsExactly(pre: Stores, now: int, files: seq<UploadFile>, lot: Uuid, trace: Trace, res: UploadResult)
    requires TableInv(pre.db.table) && FreshDraws(pre.db.table, trace.draws) && EnoughDraws(trace)
    requires Classified(pre.db, files, lot, trace, res)
    requires Upserts(pre.db, pre.s3, now, lot, trace)
    ensures Nulls(trace, now) <==>
            exists f :: Needs(pre.db, files, f) && IsMulti(f) && MeetsSingleUpload(pre.db, files, lot, f)
  {
    hide PgDecode, Filter, UpsertEffect, FreshDraws, Statement, Classified, MeetsSingleUpload, Needs, HasNull, TableInv;
    SinglesKeepInv(pre, now, lot, trace);
    NeededAre(pre.db, files, lot, trace, res);
    var rows, m := Returned(trace, now), Multis(trace.needed);
    forall i | 0 <= i < |rows|
      ensures HasNull(rows[i]) <==> MeetsSingleUpload(pre.db, files, lot, m[i])
    {
      NullExactly(pre.db, pre.s3, now, files, lot, trace, res, i);
    }
    SomeNull(rows, m, pre.db, files, lot);
  }

  lemma SomeNull(rows: seq<MultiRow>, m: seq<UploadFile>, db: Db, files: seq<UploadFile>, lot: Uuid)
    requires |rows| == |m| && forall i :: 0 <= i < |rows| ==> (HasNull(rows[i]) <==> MeetsSingleUpload(db, files, lot, m[i]))
    ensures (exists r :: r in rows && HasNull(r)) <==> exists f :: f in m && MeetsSingleUpload(db, files, lot, f)
  {
    hide MeetsSingleUpload, HasNull;
    assert forall i :: 0 <= i < |rows| ==> rows[i] in rows && m[i] in m;
  }

  lemma NullExactly(db: Db, s3: S3, now: int, files: seq<UploadFile>, lot: Uuid, trace: Trace, res: UploadResult, i: nat)
    requires TableInv(db.table) && UpsertsEffect(db, s3, now, lot, trace) && TableInv(trace.singles.table)
    requires Classified(db, files, lot, trace, res) && i < |Multis(trace.needed)|
    ensures i < |Returned(trace, now)| && RowsIn(trace.multis.table, trace.multis.ids)
    ensures HasNull(Returned(trace, now)[i]) <==> MeetsSingleUpload(db, files, lot, Multis(trace.needed)[i])
  {
    hide PgDecode, Filter, UpsertsEffect, TableInv, Classified, MeetsSingleUpload;
    var f := Multis(trace.needed)[i];
    NullRow(db, s3, now, lot, trace, i);
    if id :| PendingFor(trace.singles.table, lot, f, id) && trace.singles.table.rows[id].uploadType.SingleUpload? {
      SingleRowBefore(db, s3, now, files, lot, trace, res, f, id);
    }
    if MeetsSingleUpload(db, files, lot, f) {
      SingleRowAfter(db, s3, now, files, lot, trace, res, f);
    }
  }

  /* ---------- digests that determine sizes ---------- */

  ghost predicate Sized(sizeOf: Bytes -> int, files: seq<UploadFile>) {
    forall f :: f in files && PgDecode(f.sha256).Some? ==> f.fileSize == sizeOf(PgDecode(f.sha256).value)
  }

  // Each row has the upload type its digest calls for.
  ghost predicate TypesFit(sizeOf: Bytes -> int, t: Table) {
    forall id :: id in t.rows ==> (t.rows[id].uploadType.MultiUpload? <==> sizeOf(t.rows[id].sha) >= MULTIPART_THRESHOLD)
  }

  lemma UpsertKeepsTypes(sizeOf: Bytes -> int, t: Table, now: int, c: SetClause, props: seq<Proposal>, u: Upserted)
    requires TableInv(t) && TypesFit(sizeOf, t) && UpsertEffect(t, now, c, props, u) && TouchedNotNull(c, u)
    requires forall i :: 0 <= i < |props| ==> (props[i].uploadType.MultiUpload? <==> sizeOf(props[i].sha) >= MULTIPART_THRESHOLD)
    ensures TypesFit(sizeOf, u.table)
  {
    hide UpsertEffect;
    forall id | id in u.table.rows
      ensures u.table.rows[id].uploadType.MultiUpload? <==> sizeOf(u.table.rows[id].sha) >= MULTIPART_THRESHOLD
    {
      RowOrigin(t, now, c, props, u, id);
      if id !in t.rows {
        var i :| InsertedAt(t, now, props, u, id, i);
      }
    }
  }

  lemma SinglesKeepTypes(sizeOf: Bytes -> int, db: Db, s3: S3, now: int, lot: Uuid, trace: Trace)
    requires TableInv(db.table) && TypesFit(sizeOf, db.table) && Sized(sizeOf, trace.needed)
    requires UpsertsEffect(db, s3, now, lot, trace)
    ensures TypesFit(sizeOf, trace.singles.table)
  {
    hide PgDecode, Filter, UpsertEffect, TableInv;
    var props := SingleProposals(trace, lot);
    forall i | 0 <= i < |props|
      ensures props[i].uploadType.SingleUpload? && sizeOf(props[i].sha) < MULTIPART_THRESHOLD
    {
      SingleColumnsZip(trace.needed, SingleKeys(trace), lot, i);
    }
    UpsertKeepsTypes(sizeOf, db.table, now, KeepStorageKey, props, trace.singles);
  }

  lemma MultisKeepTypes(sizeOf: Bytes -> int, db: Db, s3: S3, now: int, lot: Uuid, trace: Trace)
    requires TableInv(trace.singles.table) && TypesFit(sizeOf, trace.singles.table) && Sized(sizeOf, trace.needed)
    requires UpsertsEffect(db, s3, now, lot, trace) && TouchedNotNull(RenewWindow(PART_SIZE), trace.multis)
    ensures TypesFit(sizeOf, trace.multis.table)
  {
    hide PgDecode, Filter, UpsertEffect, TableInv;
    var props := MultiProposals(trace, s3, lot);
    forall i | 0 <= i < |props|
      ensures props[i].uploadType.MultiUpload? && sizeOf(props[i].sha) >= MULTIPART_THRESHOLD
    {
      MultiColumnsZip(trace.needed, MultiKeys(trace), s3, lot, i);
    }
    UpsertKeepsTypes(sizeOf, trace.singles.table, now, RenewWindow(PART_SIZE), props, trace.multis);
  }

  lemma NeededSized(sizeOf: Bytes -> int, db: Db, files: seq<UploadFile>, lot: Uuid, trace: Trace, res: UploadResult)
    requires Classified(db, files, lot, trace, res) && Sized(sizeOf, files)
    ensures Sized(sizeOf, trace.needed)
  {
    hide PgDecode;
    NeededDistinct(db, files, lot, trace, res);
    assert forall f :: f in trace.needed ==> f in multiset(files);
  }

  lemma StepKeepsTypes(sizeOf: Bytes -> int, pre: World, e: Event, post: World)
    requires Inv(pre) && Step(pre, e, post) && TypesFit(sizeOf, TableOf(pre))
    requires e.Initiate? ==> Sized(sizeOf, e.files)
    ensures TypesFit(sizeOf, TableOf(post))
  {
    if e.Initiate? {
      hide PgDecode, Filter, UpsertsEffect, FreshDraws, Statement, Sized, TypesFit;
      NeededSized(sizeOf, pre.stores.db, e.files, e.lot, e.trace, e.res);
      TableOfInv(pre);
      SinglesKeepInv(pre.stores, e.now, e.lot, e.trace);
      NotNullFromPresigned(pre.stores, e.now, e.files, e.lot, e.trace, post.stores, e.res);
      SinglesKeepTypes(sizeOf, pre.stores.db, pre.stores.s3, e.now, e.lot, e.trace);
      MultisKeepTypes(sizeOf, pre.stores.db, pre.stores.s3, e.now, e.lot, e.trace);
    }
  }

  ghost predicate AllSized(sizeOf: Bytes -> int, es: seq<Event>) {
    forall i :: 0 <= i < |es| && es[i].Initiate? ==> Sized(sizeOf, es[i].files)
  }

  lemma {:induction false} RunTypes(sizeOf: Bytes -> int, ws: seq<World>, es: seq<Event>, i: nat)
    requires Run(ws, es) && AllSized(sizeOf, es) && i < |ws|
    ensures TypesFit(sizeOf, TableOf(ws[i]))
  {
    hide Inv, Step, Sized;
    if i > 0 {
      RunTypes(sizeOf, ws, es, i - 1);
      RunInv(ws, es, i - 1);
      StepKeepsTypes(sizeOf, ws[i - 1], es[i - 1], ws[i]);
    }
  }

  // When digests determine sizes, no request that can follow a run panics.
  lemma NoReachablePanic(sizeOf: Bytes -> int, ws: seq<World>, es: seq<Event>, i: nat,
                         now: int, files: seq<UploadFile>, lot: Uuid, trace: Trace)
    requires Run(ws, es) && AllSized(sizeOf, es) && i < |ws|
    requires Sized(sizeOf, files) && FreshDraws(TableOf(ws[i]), trace.draws)
    ensures !Panicked(ws[i].stores, now, files, lot, trace)
  {
    RunInv(ws, es, i);
    RunTypes(sizeOf, ws, es, i);
    if Panicked(ws[i].stores, now, files, lot, trace) {
      SizedDoesNotPanic(sizeOf, ws[i], now, files, lot, trace);
    }
  }

  // Sized files never meet a single upload with a multipart file.
  lemma SizedMeetsNothing(sizeOf: Bytes -> int, db: Db, files: seq<UploadFile>, lot: Uuid, f: UploadFile)
    requires TypesFit(sizeOf, db.table) && Sized(sizeOf, files) && Needs(db, files, f) && IsMulti(f)
    ensures !MeetsSingleUpload(db, files, lot, f)
  {
    hide PgDecode, Canonical;
  }

  lemma SizedDoesNotPanic(sizeOf: Bytes -> int, w: World, now: int, files: seq<UploadFile>, lot: Uuid, trace: Trace)
    requires Inv(w) && TypesFit(sizeOf, TableOf(w)) && Sized(sizeOf, files)
    requires FreshDraws(TableOf(w), trace.draws) && EnoughDraws(trace)
    requires exists res :: Classified(w.stores.db, files, lot, trace, res)
    requires Upserts(w.stores.db, w.stores.s3, now, lot, trace)
    ensures !Nulls(trace, now)
  {
    hide Inv, TypesFit, Sized, FreshDraws, Needs, MeetsSingleUpload, Classified, Upserts, Nulls;
    var res :| Classified(w.stores.db, files, lot, trace, res);
    TableOfInv(w);
    NullsExactly(w.stores, now, files, lot, trace, res);
    if f :| Needs(w.stores.db, files, f) && IsMulti(f) && MeetsSingleUpload(w.stores.db, files, lot, f) {
      SizedMeetsNothing(sizeOf, w.stores.db, files, lot, f);
    }
  }

  // The assumption is needed: over a pending single row, a multipart row of the same digest and
  // lot is returned without an upload id, and the statement itself does not fail.
  lemma MixedSizesPanic(db: Db, now: int, lot: Uuid, cols: Columns, id: int)
    requires TableInv(db.table) && Aligned(cols, true) && |cols.sha256s| == 1
    requires PgDecode(cols.sha256s[0]).Some? && PendingAt(db.table, PgDecode(cols.sha256s[0]).value, lot, id)
    requires db.table.rows[id].uploadType.SingleUpload? && db.table.rows[id].version < MAX_INT32
    ensures Statement(db, now, true, PART_SIZE, lot, cols).Ok?
    ensures var u := Statement(db, now, true, PART_SIZE, lot, cols).value;
            u.ids == [id] && RowsIn(u.table, u.ids) && HasNull(MultiRows(db.table, u, now)[0])
  {
    hide PgDecode;
    var props := Proposals(cols, true, PART_SIZE, lot);
    var c := RenewWindow(PART_SIZE);
    ArbiterUnique(db.table, props[0].sha, lot, id);
    UpdateFails(c, db.table.rows[id], now);
    assert props[..0] == [] && Upsert(db.table, now, c, props[..0]) == Some(Upserted(db.table, []));
    assert RowShape(db.table.rows[id]);
    UpdateKeepsIdentity(c, db.table.rows[id], now);
  }

  // A completion call never meets a null part count: what has an upload to list has one.
  lemma CompletionNeverPanics(ws: seq<World>, es: seq<Event>, i: nat, id: int)
    requires Run(ws, es) && i < |ws|
    requires ReadItem(TableOf(ws[i]), id).Some? && ListStep(ws[i].stores.s3, ReadItem(TableOf(ws[i]), id).value).Some?
    ensures ReadItem(TableOf(ws[i]), id).value.partCount.Some?
  {
    hide IssuedInv, StoredInv, StoreInv, SessionInv, Run;
    RunInv(ws, es, i);
    assert RowShape(TableOf(ws[i]).rows[id]);
  }

  // The count check of a call that nothing interrupts is exact: it passes exactly when the store
  // holds all the parts of the row.
  lemma CountCheckExact(ws: seq<World>, es: seq<Event>, i: nat, id: int)
    requires Run(ws, es) && i < |ws|
    requires ReadItem(TableOf(ws[i]), id).Some? && ListStep(ws[i].stores.s3, ReadItem(TableOf(ws[i]), id).value).Some?
    ensures var item := ReadItem(TableOf(ws[i]), id).value;
            && item.uploadId.Some? && item.uploadId.value in ws[i].stores.s3.uploads && item.partCount.Some?
            && (CountMatches(item, ListStep(ws[i].stores.s3, item).value) <==>
                item.partCount.value >= 0
                && ws[i].stores.s3.uploads[item.uploadId.value].parts.Keys == Interval(1, item.partCount.value))
  {
    hide Inv, Run;
    RunInv(ws, es, i);
    StoredAmongParts(ws[i], id);
    var item := ReadItem(TableOf(ws[i]), id).value;
    if item.partCount.value >= 0 {
      PageCount(ws[i].stores.s3.uploads[item.uploadId.value], item.partCount.value);
    }
  }

  // Every successful request of a run: its presigned requests target the pending rows of their
  // own files, it loses no file, no two of its answers share an object key, and its part requests
  // are for open uploads; each exactly under a condition on the batch and the stores before it.
  lemma RunRequests(ws: seq<World>, es: seq<Event>, i: nat)
    requires Run(ws, es) && i < |es| && es[i].Initiate?
    ensures var e := es[i];
            (forall p :: p in e.res.presigned ==> Targets(TableOf(ws[i + 1]), e.lot, p)) <==>
            && AllCanonical(e.files)
            && forall f :: Needs(ws[i].stores.db, e.files, f) && IsSingle(f) ==> !MeetsMultiUpload(TableOf(ws[i]), e.lot, f)
    ensures multiset(es[i].files) == multiset(es[i].res.duplicates) + multiset(es[i].res.alreadyUploaded)
                                     + multiset(FilesOf(es[i].res.presigned))
            <==> AllCanonical(Multis(FirstOccurrences(es[i].files)))
    ensures AllApart(es[i].res.presigned) <==>
            OneNilKey(ws[i].stores.db, es[i].files) && NoSharedUpload(ws[i].stores, es[i].now, es[i].files, es[i].lot)
    ensures (forall p :: p in es[i].res.presigned ==> RequestsOpen(p, ws[i + 1].stores.s3)) <==>
            forall f :: Needs(ws[i].stores.db, es[i].files, f) && IsMulti(f) ==>
                          !MeetsLapsedUpload(ws[i].stores, es[i].now, es[i].lot, f)
  {
    hide Inv, Targets, AllCanonical, Initiated, FilesOf, Issues, Run, FreshDraws, Needs, MeetsMultiUpload, RequestsOpen,
         MeetsLapsedUpload, TableInv, StoreInv, ValidTable, KeysNotNil, AllApart, OneNilKey, NoSharedUpload;
    assert Step(ws[i], es[i], ws[i + 1]) by {
      StepOf(ws, es, i);
    }
    RunInv(ws, es, i);
    TableOfInv(ws[i]);
    NotNilFromInv(TableOf(ws[i]), es[i].trace.draws);
    JoinCorrect(ws[i].stores, es[i].now, es[i].files, es[i].lot, es[i].trace, ws[i + 1].stores, es[i].res);
    Conservation(ws[i].stores, es[i].now, es[i].files, es[i].lot, es[i].trace, ws[i + 1].stores, es[i].res);
    OpenRequests(ws[i].stores, es[i].now, es[i].files, es[i].lot, es[i].trace, ws[i + 1].stores, es[i].res);
    AnswersApart(ws[i].stores, es[i].now, es[i].files, es[i].lot, es[i].trace, ws[i + 1].stores, es[i].res);
  }

  lemma StepOf(ws: seq<World>, es: seq<Event>, i: nat)
    requires Run(ws, es) && i < |es|
    ensures |ws| == |es| + 1 && Step(ws[i], es[i], ws[i + 1])
  {
  }

  lemma NotNilFromInv(t: Table, draws: seq<Uuid>)
    requires TableInv(t) && FreshDraws(t, draws)
    ensures KeysNotNil(t, draws)
  {
    assert forall id :: id in t.rows ==> RowShape(t.rows[id]);
  }
}
