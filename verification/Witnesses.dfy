// Inputs at which the conditions fail, reached by runs of the protocol.
module Witnesses {
  import opened Wrappers
  import opened Hex
  import opened Parts
  import opened Attempts
  import opened ObjectStore
  import opened Database
  import opened Intake
  import opened Uploads
  import opened ImageStore
  import opened Conditions
  import opened Wire
  import opened Requests
  import opened Protocol
  import opened ProtocolRuns
  import opened Replies
  import opened Panics
  import opened Success
  import opened Progress

  /* ---------- a digest in capital letters ---------- */

  const CAPITALS: string := seq(64, i => 'A')

  // Sixty-four capital letters pass for a digest and are not canonical.
  lemma CapitalsAreHex()
    ensures |CAPITALS| == 64 && IsHex(CAPITALS) && !Canonical(CAPITALS)
  {
    assert CAPITALS[0] in CAPITALS;
  }

  // A fresh service that knows the lot.
  ghost predicate Fresh(w: World, lot: Uuid) {
    Start(w) && lot in w.stores.db.lots
  }

  lemma FreshMeetsNothing(w: World, lot: Uuid, f: UploadFile)
    requires Fresh(w, lot)
    ensures Inv(w) && !HasPending(TableOf(w), lot, f)
  {
  }

  lemma StartIsValid(w: World)
    requires Start(w)
    ensures ValidTable(TableOf(w))
  {
  }

  // There is always another random key.
  lemma {:induction false} KeyAbove(keys: set<int>) returns (key: Uuid)
    ensures key > NIL_UUID && forall k :: k in keys ==> k < key
  {
    if k :| k in keys {
      var above := KeyAbove(keys - {k});
      assert forall x :: x in keys ==> x == k || x in keys - {k};
      key := if k < above then above else k + 1;
    } else {
      key := NIL_UUID + 1;
    }
  }

  lemma FreshKeys(t: Table, n: nat) returns (keys: seq<Uuid>)
    ensures FreshDraws(t, keys) && |keys| == n
  {
    var used := set id | id in t.rows :: t.rows[id].storageKey;
    var above := KeyAbove(used);
    keys := seq(n, i => above + i);
    forall id | id in t.rows
      ensures t.rows[id].storageKey < above
    {
      assert t.rows[id].storageKey in used;
    }
  }

  lemma RunGoesOn(ws: seq<World>, es: seq<Event>, e: Event, w: World)
    requires Run(ws, es) && Step(ws[|es|], e, w)
    ensures Run(ws + [w], es + [e])
  {
    hide Step, Start;
  }

  // A run of one request for one file.
  lemma OneRequest(w: World, now: int, f: UploadFile, lot: Uuid, key: Uuid) returns (e: Event, w': World)
    requires Fresh(w, lot) && IsHex(f.sha256) && !IsStored(w.stores.db.blobs, f.sha256) && key != NIL_UUID
    ensures Run([w, w'], [e]) && e.Initiate? && e.files == [f] && e.lot == lot && e.now == now && e.trace.draws == [key]
    ensures Needs(w.stores.db, [f], f)
  {
    hide Inv, Step, IsStored, Canonical, IsHex;
    FreshMeetsNothing(w, lot, f);
    assert [f][..0] == [];
    NewIsAcceptable(w.stores, now, f, lot);
    assert FreshDraws(TableOf(w), [key]);
    e, w' := CanInitiate(w, now, [f], lot, [key]);
  }

  // For every multipart file whose digest is hexadecimal and not canonical there is a request that
  // succeeds and is committed, loses the file, and cannot be answered.
  lemma CapitalsLoseFile(w: World, now: int, f: UploadFile, lot: Uuid, key: Uuid) returns (e: Event, w': World)
    requires Fresh(w, lot) && IsHex(f.sha256) && !Canonical(f.sha256) && !IsStored(w.stores.db.blobs, f.sha256) && key != NIL_UUID
    requires IsMulti(f) && CameFromWire(f)
    ensures Run([w, w'], [e]) && e.Initiate? && e.files == [f]
    ensures multiset(e.files) != multiset(e.res.duplicates) + multiset(e.res.alreadyUploaded) + multiset(FilesOf(e.res.presigned))
    ensures !Convertible(FilesOf(e.res.presigned)) && !Deliverable(e.res)
  {
    hide IsStored, Canonical, IsHex, Initiated, Step, Run, CameFromWire, Convertible, FilesOf;
    e, w' := OneRequest(w, now, f, lot, key);
    StepOf([w, w'], [e], 0);
    StepIsInitiated(w, e, w');
    StartIsValid(w);
    OneIsLost(w.stores, now, f, lot, e.trace, w'.stores, e.res);
  }

  lemma OneIsLost(pre: Stores, now: int, f: UploadFile, lot: Uuid, w: Trace, post: Stores, res: UploadResult)
    requires ValidTable(pre.db.table) && Initiated(pre, now, [f], lot, w, post, res)
    requires Needs(pre.db, [f], f) && IsMulti(f) && !Canonical(f.sha256) && CameFromWire(f)
    ensures multiset([f]) != multiset(res.duplicates) + multiset(res.alreadyUploaded) + multiset(FilesOf(res.presigned))
    ensures !Convertible(FilesOf(res.presigned)) && !Deliverable(res)
  {
    hide Canonical, Initiated, CameFromWire, Convertible, FilesOf;
    OneKept(pre.db, f);
    FilterMember(IsMulti, [f], f);
    assert f in [f];
    Conservation(pre, now, [f], lot, w, post, res);
    ResponseConvertible(pre, now, [f], lot, w, post, res);
  }

  // A service that knows one lot and has seen no request, and a large file whose digest is
  // sixty-four capital letters.
  const NEW_SERVICE := World(Stores(Db(Table(map[], 1), map[], {1}, []), S3(map[], 1)), map[], map[], 0)
  const CAPITAL_FILE := UploadFile(CAPITALS, "cell.png", Itoa(7), MULTIPART_THRESHOLD)

  lemma CapitalsExample(now: int) returns (e: Event, w': World)
    ensures |CAPITAL_FILE.sha256| == 64 && Run([NEW_SERVICE, w'], [e]) && e.Initiate? && e.files == [CAPITAL_FILE]
    ensures !Deliverable(e.res)
  {
    hide Canonical, IsHex, Step, Run, Convertible, PgDecode, Itoa;
    CapitalsAreHex();
    var m := ImageFile(Some(CAPITALS), Some("cell.png"), Some(7), Some(MULTIPART_THRESHOLD));
    assert ConvertToUploadFile(m) == Ok(CAPITAL_FILE);
    e, w' := CapitalsLoseFile(NEW_SERVICE, now, CAPITAL_FILE, 1, 1);
  }

  // For every such single file there is a request whose answer goes to the nil key.
  lemma CapitalsGoNowhere(w: World, now: int, f: UploadFile, lot: Uuid, key: Uuid) returns (e: Event, w': World, p: PresignedFile)
    requires Fresh(w, lot) && IsHex(f.sha256) && !Canonical(f.sha256) && !IsStored(w.stores.db.blobs, f.sha256) && key != NIL_UUID
    requires IsSingle(f)
    ensures Run([w, w'], [e]) && e.Initiate? && e.files == [f]
    ensures p in e.res.presigned && p.file == f && KeysOf(p) == {NIL_UUID} && !Targets(TableOf(w'), lot, p)
  {
    hide IsStored, Canonical, IsHex, Initiated, Step, Run, KeysOf;
    e, w' := OneRequest(w, now, f, lot, key);
    StepOf([w, w'], [e], 0);
    StepIsInitiated(w, e, w');
    p := NilKey(w.stores, now, [f], lot, e.trace, w'.stores, e.res, f);
    RunInv([w, w'], [e], 1);
    NilMissesRows(w', lot, p);
  }

  lemma NilMissesRows(w: World, lot: Uuid, p: PresignedFile)
    requires Inv(w) && KeysOf(p) == {NIL_UUID} && p.url.SingleUrl?
    ensures !Targets(TableOf(w), lot, p)
  {
    hide PgDecode;
    assert p.url.key in KeysOf(p);
    forall id | id in TableOf(w).rows
      ensures TableOf(w).rows[id].storageKey != p.url.key
    {
      assert RowShape(TableOf(w).rows[id]);
    }
  }

  // Every hexadecimal text has a canonical twin of the same digest.
  lemma LowerTwin(s: string)
    requires IsHex(s)
    ensures Canonical(LowerAll(s)) && PgDecode(s).Some? && PgDecode(LowerAll(s)) == PgDecode(s)
  {
    hide Canonical, PgDecode, GoDecode, Encode, IsHex;
    GoDecodeEncodes(s);
    DecodersAgree(s);
    EncodeCanonical(GoDecode(s).value);
  }

  // After the blob of a digest has been stored, a request for it in capital letters uploads it
  // again; the same request in small letters is told that there is nothing to upload.
  lemma CapitalsUploadAgain(w: World, now: int, f: UploadFile, g: UploadFile, lot: Uuid, key: Uuid)
    returns (w': World, e: Event, w'': World, d: Event, v: World)
    requires Fresh(w, lot) && IsHex(f.sha256) && !Canonical(f.sha256) && g.sha256 == LowerAll(f.sha256) && key != NIL_UUID
    ensures Run([w, w', w''], [ChangeBlobsAndLots, e]) && e.Initiate? && e.files == [f] && e.lot == lot
    ensures Run([w, w', v], [ChangeBlobsAndLots, d]) && d.Initiate? && d.files == [g] && d.lot == lot
    ensures IsStored(w'.stores.db.blobs, f.sha256)
    ensures e.trace.needed == [f] && e.res.alreadyUploaded == []
    ensures d.trace.needed == [] && d.res.alreadyUploaded == [g]
  {
    hide Canonical, IsHex, PgDecode, Step, Inv, Initiated, FreshDraws, Acceptable;
    LowerTwin(f.sha256);
    CanonicalFile(g);
    var db := w.stores.db;
    w' := w.(stores := w.stores.(db := db.(blobs := db.blobs[PgDecode(f.sha256).value := Blob(1, true)])));
    BlobsChange(w, w');
    e, w'' := CanRequest(w', now, f, lot, key);
    d, v := CanRequest(w', now, g, lot, key);
    assert Run([w, w'] + [w''], [ChangeBlobsAndLots] + [e]) by {
      RunGoesOn([w, w'], [ChangeBlobsAndLots], e, w'');
    }
    assert Run([w, w'] + [v], [ChangeBlobsAndLots] + [d]) by {
      RunGoesOn([w, w'], [ChangeBlobsAndLots], d, v);
    }
    assert [w, w'] + [w''] == [w, w', w''] && [w, w'] + [v] == [w, w', v];
    assert [ChangeBlobsAndLots] + [e] == [ChangeBlobsAndLots, e] && [ChangeBlobsAndLots] + [d] == [ChangeBlobsAndLots, d];
  }

  lemma BlobsChange(w: World, w': World)
    requires Start(w) && w' == w.(stores := w.stores.(db := w'.stores.db))
    requires TableOf(w') == TableOf(w) && w'.stores.db.lotImages == w.stores.db.lotImages
    ensures Run([w, w'], [ChangeBlobsAndLots])
  {
  }

  // A request for one file, whether it needs an upload or not.
  lemma CanRequest(w: World, now: int, f: UploadFile, lot: Uuid, key: Uuid) returns (e: Event, w': World)
    requires Fresh(w, lot) && IsHex(f.sha256) && key != NIL_UUID
    ensures Step(w, e, w') && e.Initiate? && e.files == [f] && e.lot == lot
    ensures if Canonical(f.sha256) && IsStored(w.stores.db.blobs, f.sha256)
            then e.trace.needed == [] && e.res.alreadyUploaded == [f]
            else e.trace.needed == [f] && e.res.alreadyUploaded == []
  {
    hide Inv, Step, IsStored, Canonical, IsHex, Initiated, Acceptable, FreshDraws, PgDecode;
    FreshMeetsNothing(w, lot, f);
    OneAcceptable(w, now, f, lot);
    KeyIsFresh(w, lot, key);
    e, w' := CanInitiate(w, now, [f], lot, [key]);
    StepIsInitiated(w, e, w');
    InitiatedParts(w.stores, now, [f], lot, e.trace, w'.stores, e.res);
    SplitOfOne(w.stores.db, f, lot, e.trace, e.res);
  }

  lemma InitiatedParts(pre: Stores, now: int, files: seq<UploadFile>, lot: Uuid, w: Trace, post: Stores, res: UploadResult)
    requires Initiated(pre, now, files, lot, w, post, res)
    ensures Classified(pre.db, files, lot, w, res)
  {
  }

  lemma OneAcceptable(w: World, now: int, f: UploadFile, lot: Uuid)
    requires Fresh(w, lot) && IsHex(f.sha256)
    ensures Acceptable(w.stores, now, [f], lot)
  {
    hide IsStored, Canonical, IsHex, PgDecode;
    FreshMeetsNothing(w, lot, f);
    assert [f][..0] == [];
    if Needs(w.stores.db, [f], f) {
      NewIsAcceptable(w.stores, now, f, lot);
    }
  }

  lemma SplitOfOne(db: Db, f: UploadFile, lot: Uuid, w: Trace, res: UploadResult)
    requires Classified(db, [f], lot, w, res)
    ensures if Canonical(f.sha256) && IsStored(db.blobs, f.sha256)
            then w.needed == [] && res.alreadyUploaded == [f] else w.needed == [f] && res.alreadyUploaded == []
  {
    hide PgDecode, Canonical, Separated;
    assert [f][..0] == [];
    assert FirstOccurrences([f]) == [f];
    AlreadyUploadedExactly(db, [f], lot, w, res, f);
    hide FirstOccurrences;
    assert |w.needed| + |res.alreadyUploaded| == |multiset(w.needed) + multiset(res.alreadyUploaded)| == |multiset([f])| == 1;
  }

  lemma TwoKept(f: UploadFile, g: UploadFile)
    requires f.sha256 != g.sha256
    ensures FirstOccurrences([f, g]) == [f, g]
  {
    assert [f, g][..1] == [f] && [f][..0] == [];
    assert !Repeats([f], 0) && FirstOccurrences([f]) == [f];
    assert !Repeats([f, g], 1);
  }

  lemma TwoAcceptable(w: World, now: int, f: UploadFile, g: UploadFile, lot: Uuid)
    requires Fresh(w, lot) && IsSingle(f) && IsSingle(g) && IsHex(f.sha256) && IsHex(g.sha256) && !SameDigest(f, g)
    requires f.sha256 != g.sha256 && !Canonical(f.sha256) && !Canonical(g.sha256)
    ensures Acceptable(w.stores, now, [f, g], lot)
    ensures Needs(w.stores.db, [f, g], f) && Needs(w.stores.db, [f, g], g)
  {
    hide Canonical, IsHex, PgDecode;
    TwoKept(f, g);
    FreshMeetsNothing(w, lot, f);
    FreshMeetsNothing(w, lot, g);
    assert forall x :: Needs(w.stores.db, [f, g], x) ==> x in [f, g];
  }

  // Two such files of different digests in one batch are answered with the same key.
  lemma CapitalsShareKey(w: World, now: int, f: UploadFile, g: UploadFile, lot: Uuid, keys: seq<Uuid>)
    returns (e: Event, w': World, p: PresignedFile, q: PresignedFile)
    requires Fresh(w, lot) && IsSingle(f) && IsSingle(g) && IsHex(f.sha256) && IsHex(g.sha256) && !SameDigest(f, g)
    requires f.sha256 != g.sha256 && !Canonical(f.sha256) && !Canonical(g.sha256)
    requires |keys| == 2 && keys[0] != keys[1] && NIL_UUID !in keys
    ensures Run([w, w'], [e]) && e.Initiate? && e.files == [f, g]
    ensures p in e.res.presigned && q in e.res.presigned && p != q && !(KeysOf(p) !! KeysOf(q))
  {
    hide Initiated, Needs, Canonical, KeysOf, Acceptable, Step, Inv, IsHex, SameDigest;
    TwoAcceptable(w, now, f, g, lot);
    FreshMeetsNothing(w, lot, f);
    assert FreshDraws(TableOf(w), keys);
    e, w' := CanInitiate(w, now, [f, g], lot, keys);
    StepIsInitiated(w, e, w');
    p := NilKey(w.stores, now, [f, g], lot, e.trace, w'.stores, e.res, f);
    q := NilKey(w.stores, now, [f, g], lot, e.trace, w'.stores, e.res, g);
    assert NIL_UUID in KeysOf(p) && NIL_UUID in KeysOf(q);
  }

  /* ---------- one digest in two sizes ---------- */

  // Over a pending single upload, a request for a multipart file of the same digest and lot must
  // panic.
  lemma SingleRowPanics(pre: Stores, now: int, f: UploadFile, lot: Uuid, id: int)
    requires ValidTable(pre.db.table) && IsMulti(f) && Needs(pre.db, [f], f) && PendingFor(pre.db.table, lot, f, id)
    requires pre.db.table.rows[id].uploadType.SingleUpload? && pre.db.table.rows[id].version < MAX_INT32
    requires !IsStored(pre.db.blobs, f.sha256)
    ensures MustPanic(pre, now, [f], lot)
  {
    hide PgDecode, IsStored, Canonical;
    OneKept(pre.db, f);
    assert forall j :: PendingFor(pre.db.table, lot, f, j) ==> j == id;
    assert MeetsSingleRow(pre.db.table, lot, f);
  }

  // The row a fresh service has after a request for a single file.
  lemma SingleRowInserted(w: World, e: Event, w': World, f: UploadFile) returns (id: int)
    requires Inv(w) && Step(w, e, w') && e.Initiate? && e.files == [f] && IsSingle(f) && Needs(w.stores.db, [f], f)
    requires !HasPending(TableOf(w), e.lot, f)
    ensures PendingFor(TableOf(w'), e.lot, f, id)
    ensures TableOf(w').rows[id].uploadType.SingleUpload? && TableOf(w').rows[id].version == 0
  {
    hide Inv, Statement, Canonical, Needs, Issues, Presigned, PgDecode, Filter, FreshDraws, Classified;
    var trace, t, s3 := e.trace, TableOf(w), w.stores.s3;
    TableOfInv(w);
    UpsertsMeetEffect(w.stores.db, s3, e.now, e.lot, trace);
    NeededAre(w.stores.db, [f], e.lot, trace, e.res);
    NeededDistinct(w.stores.db, [f], e.lot, trace, e.res);
    OnlyOne(trace.needed, f);
    OnlyOne(Singles(trace.needed), f);
    NoMultis(trace.needed);
    SingleColumnsZip(trace.needed, SingleKeys(trace), e.lot, 0);
    id := trace.singles.ids[0];
    assert Settled(t, e.now, KeepStorageKey, SingleProposals(trace, e.lot)[0], id, trace.singles.table.rows[id]);
    assert !PendingFor(t, e.lot, f, id);
    EmptyUpsert(trace.singles.table, e.now, MultiProposals(trace, s3, e.lot), trace.multis, id);
  }

  lemma OnlyOne(fs: seq<UploadFile>, f: UploadFile)
    requires DistinctShas(fs) && f in fs && forall g :: g in fs ==> g == f
    ensures fs == [f]
  {
    assert forall i :: 0 <= i < |fs| ==> fs[i] in fs;
    assert |fs| >= 2 ==> fs[0].sha256 != fs[1].sha256;
  }

  lemma NoMultis(fs: seq<UploadFile>)
    requires forall f :: f in fs ==> IsSingle(f)
    ensures Multis(fs) == []
  {
    if fs != [] {
      assert fs == fs[..|fs| - 1] + [fs[|fs| - 1]];
      NoMultis(fs[..|fs| - 1]);
    }
  }

  lemma EmptyUpsert(t: Table, now: int, props: seq<Proposal>, u: Upserted, id: int)
    requires UpsertEffect(t, now, RenewWindow(PART_SIZE), props, u) && props == [] && id in t.rows
    ensures id in u.table.rows && u.table.rows[id] == t.rows[id]
  {
  }

  // A run of one request for a small file, after which a request for a large file of the same
  // digest and lot panics.
  lemma PanicReachable(w: World, now: int, small: UploadFile, large: UploadFile, lot: Uuid, key: Uuid)
    returns (e: Event, w': World, trace: Trace)
    requires Fresh(w, lot) && IsHex(small.sha256) && !IsStored(w.stores.db.blobs, small.sha256)
    requires IsSingle(small) && IsMulti(large) && large.sha256 == small.sha256 && key != NIL_UUID
    ensures Run([w, w'], [e]) && e.Initiate? && e.files == [small]
    ensures MustPanic(w'.stores, now, [large], lot) && Panicked(w'.stores, now, [large], lot, trace)
  {
    hide IsStored, Canonical, IsHex, Inv, Step, Start, TableInv, StoreInv, HasPending, MustPanic, Panicked, FreshDraws;
    e, w' := OneRequest(w, now, small, lot, key);
    FreshMeetsNothing(w, lot, small);
    StepOf([w, w'], [e], 0);
    var id := SingleRowInserted(w, e, w', small);
    assert PendingFor(TableOf(w'), lot, large, id);
    RunInv([w, w'], [e], 1);
    TableOfInv(w');
    SameBlobs(w, e, w');
    NotStoredIsNeeded(w'.stores.db, large);
    SingleRowPanics(w'.stores, now, large, lot, id);
    var next := FreshKeys(TableOf(w'), 1);
    trace := PanicIsPossible(w'.stores, now, [large], lot, next);
  }

  lemma NotStoredIsNeeded(db: Db, f: UploadFile)
    requires !IsStored(db.blobs, f.sha256)
    ensures Needs(db, [f], f)
  {
    assert [f][..0] == [];
  }

  // The row a request inserts for a multipart file that meets none.
  lemma MultiRowInserted(w: World, e: Event, w': World, f: UploadFile) returns (id: int)
    requires Inv(w) && e.Initiate? && Step(w, e, w') && AsksFor(w, e, f) && !HasPending(TableOf(w), e.lot, f)
    ensures PendingFor(TableOf(w'), e.lot, f, id)
    ensures TableOf(w').rows[id].uploadType.MultiUpload? && TableOf(w').rows[id].version == 0
    ensures TableOf(w').rows[id].fileSize == Int32(f.fileSize) && id in e.trace.multis.ids
  {
    var k, p;
    k, id, p := AnswerOf(w, e, w', f);
    RowIsAnswered(w, e, w', k);
    StepKeepsInv(w, e, w');
    TableOfInv(w);
    TableOfInv(w');
    hide Inv, Initiated, AnswersRow, Needs, Issues, FreshDraws, PgDecode, Filter, Canonical, HasLive, Live, StoreInv;
    assert RowShape(TableOf(w').rows[id]);
    var trace := e.trace;
    assert Settled(trace.singles.table, e.now, RenewWindow(PART_SIZE), MultiProposals(trace, w.stores.s3, e.lot)[k], id,
                   trace.multis.table.rows[id]);
    if id in trace.singles.table.rows {
      FoundRow(w.stores, e.now, e.lot, trace, k);
    } else {
      NewRowSize(w, e, k);
    }
  }

  lemma HasParts(r: Row)
    requires RowShape(r) && r.uploadType.MultiUpload? && r.fileSize > 0
    ensures PartNumbers(r.partCount) != []
  {
    PartCountBounds(r.fileSize, PART_SIZE);
    PartNumbersContain(r.partCount, 1);
  }

  lemma SameStored(blobs: map<Bytes, Blob>, f: UploadFile, g: UploadFile)
    requires PgDecode(f.sha256) == PgDecode(g.sha256)
    ensures IsStored(blobs, f.sha256) == IsStored(blobs, g.sha256)
  {
  }

  lemma RowIsAcceptableForSingle(pre: Stores, now: int, f: UploadFile, lot: Uuid, id: int)
    requires ValidTable(pre.db.table) && IsSingle(f) && IsHex(f.sha256) && Needs(pre.db, [f], f) && PendingFor(pre.db.table, lot, f, id)
    requires lot in pre.db.lots && pre.db.table.rows[id].version < MAX_INT32
    ensures Acceptable(pre, now, [f], lot)
  {
    hide PgDecode, Canonical, IsStored, IsHex;
    OneKept(pre.db, f);
    assert forall j :: PendingFor(pre.db.table, lot, f, j) ==> j == id;
  }

  // A run of one request for a large file, after which a request for a small file of the same
  // digest and lot succeeds and is told to write to the object key of the multipart upload.
  lemma PutToUpload(w: World, now: int, large: UploadFile, small: UploadFile, lot: Uuid, key: Uuid)
    returns (e: Event, w': World, e': Event, w'': World, id: int, p: PresignedFile)
    requires Fresh(w, lot) && Canonical(large.sha256) && !IsStored(w.stores.db.blobs, large.sha256)
    requires IsMulti(large) && IsSingle(small) && small.sha256 == large.sha256 && key != NIL_UUID
    ensures Run([w, w', w''], [e, e']) && e.Initiate? && e.files == [large] && e'.Initiate? && e'.files == [small]
    ensures PendingFor(TableOf(w'), lot, large, id) && TableOf(w').rows[id].uploadType.MultiUpload?
    ensures p in e'.res.presigned && p.file == small && p.url.SingleUrl?
    ensures KeysOf(p) == {TableOf(w').rows[id].storageKey} && !Targets(TableOf(w''), lot, p)
  {
    hide IsStored, Canonical, IsHex, Inv, Step, Start, TableInv, StoreInv, HasPending, Acceptable, FreshDraws, Initiated, KeysOf, Targets,
         Needs;
    CanonicalFile(large);
    e, w' := OneRequest(w, now, large, lot, key);
    FreshMeetsNothing(w, lot, large);
    StepOf([w, w'], [e], 0);
    id := MultiRowInserted(w, e, w', large);
    RunInv([w, w'], [e], 1);
    TableOfInv(w');
    SameBlobs(w, e, w');
    SameLots(w, e, w');
    NotStoredIsNeeded(w'.stores.db, small);
    RowIsAcceptableForSingle(w'.stores, now, small, lot, id);
    var next := FreshKeys(TableOf(w'), 1);
    e', w'' := CanInitiate(w', now, [small], lot, next);
    RunGoesOn([w, w'], [e], e', w'');
    assert [w, w'] + [w''] == [w, w', w''] && [e] + [e'] == [e, e'];
    StepIsInitiated(w', e', w'');
    p := GoesToRow(w'.stores, now, [small], lot, e'.trace, w''.stores, e'.res, small, id);
  }

  lemma SameLots(w: World, e: Event, w': World)
    requires e.Initiate? && Step(w, e, w')
    ensures w'.stores.db.lots == w.stores.db.lots
  {
  }

  // A lapsed multipart row with versions left accepts a batch of a small and a large file of its
  // digest in different letters.
  lemma TwoKindsAcceptable(pre: Stores, now: int, small: UploadFile, large: UploadFile, lot: Uuid, id: int)
    requires ValidTable(pre.db.table) && PendingFor(pre.db.table, lot, small, id) && PendingFor(pre.db.table, lot, large, id)
    requires IsSingle(small) && IsMulti(large) && IsHex(small.sha256) && small.sha256 != large.sha256 && lot in pre.db.lots
    requires !IsStored(pre.db.blobs, small.sha256) && !IsStored(pre.db.blobs, large.sha256)
    requires var r := pre.db.table.rows[id]; r.uploadType.MultiUpload? && r.version == 0 && !Live(r, now)
    ensures Acceptable(pre, now, [small, large], lot)
    ensures Needs(pre.db, [small, large], small) && Needs(pre.db, [small, large], large)
  {
    hide PgDecode, Canonical, IsStored, IsHex;
    TwoKept(small, large);
    assert forall x :: Needs(pre.db, [small, large], x) ==> x in [small, large];
    assert forall j :: PendingFor(pre.db.table, lot, small, j) ==> j == id;
    assert forall j :: PendingFor(pre.db.table, lot, large, j) ==> j == id;
  }

  // Over such a row that is lapsed, the batch is answered with one key twice.
  lemma BatchSharesKey(w: World, small: UploadFile, large: UploadFile, lot: Uuid, id: int) returns (e: Event, w': World)
    requires Inv(w) && PendingFor(TableOf(w), lot, small, id) && PendingFor(TableOf(w), lot, large, id)
    requires IsSingle(small) && IsMulti(large) && Canonical(small.sha256) && small.sha256 != large.sha256 && lot in w.stores.db.lots
    requires !IsStored(w.stores.db.blobs, small.sha256) && !IsStored(w.stores.db.blobs, large.sha256)
    requires var r := TableOf(w).rows[id]; r.uploadType.MultiUpload? && r.version == 0 && r.fileSize > 0
    ensures Step(w, e, w') && e.Initiate? && e.files == [small, large] && !AllApart(e.res.presigned)
  {
    CanonicalFile(small);
    TableOfInv(w);
    var r := TableOf(w).rows[id];
    var later := LapsedTime(TableOf(w), id);
    hide IsStored, Canonical, IsHex, Inv, Step, StoreInv, HasPending, Acceptable, FreshDraws, Initiated, Needs, AllApart, PgDecode, TableInv,
         Live;
    TwoKindsAcceptable(w.stores, later, small, large, lot, id);
    var keys := FreshKeys(TableOf(w), 2);
    e, w' := CanInitiate(w, later, [small, large], lot, keys);
    StepIsInitiated(w, e, w');
    AnswersApart(w.stores, later, [small, large], lot, e.trace, w'.stores, e.res);
    assert PartsAreRequested(r, w.stores.s3, later);
    assert PartsWaiting(w.stores, later, lot, large) && TwoKinds(w.stores.db, [small, large], small, large);
  }

  lemma LapsedTime(t: Table, id: int) returns (later: int)
    requires TableInv(t) && id in t.rows && t.rows[id].uploadType.MultiUpload? && t.rows[id].fileSize > 0
    ensures !Live(t.rows[id], later) && PartNumbers(t.rows[id].partCount) != []
  {
    assert RowShape(t.rows[id]);
    HasParts(t.rows[id]);
    later := t.rows[id].validUntil.value + 1;
  }

  // A run of one request for a large file, after which a batch of a small file of its digest and a
  // large one in capital letters is answered with one key twice.
  lemma UploadKeyShared(w: World, now: int, first: UploadFile, small: UploadFile, large: UploadFile, lot: Uuid, key: Uuid)
    returns (e: Event, w': World, e': Event, w'': World)
    requires Fresh(w, lot) && Canonical(first.sha256) && !IsStored(w.stores.db.blobs, first.sha256) && key != NIL_UUID
    requires IsMulti(first) && Int32(first.fileSize) > 0
    requires IsSingle(small) && small.sha256 == first.sha256
    requires IsMulti(large) && IsHex(large.sha256) && !Canonical(large.sha256) && LowerAll(large.sha256) == first.sha256
    ensures Run([w, w', w''], [e, e']) && e.Initiate? && e.files == [first] && e'.Initiate? && e'.files == [small, large]
    ensures !AllApart(e'.res.presigned)
  {
    hide IsStored, Canonical, IsHex, Inv, Step, Start, HasPending, AllApart, Int32, PgDecode, Needs;
    CanonicalFile(first);
    LowerTwin(large.sha256);
    e, w' := OneRequest(w, now, first, lot, key);
    FreshMeetsNothing(w, lot, first);
    StepOf([w, w'], [e], 0);
    var id := MultiRowInserted(w, e, w', first);
    RunInv([w, w'], [e], 1);
    SameBlobs(w, e, w');
    SameLots(w, e, w');
    SameStored(w.stores.db.blobs, first, large);
    e', w'' := BatchSharesKey(w', small, large, lot, id);
    RunGoesOn([w, w'], [e], e', w'');
    assert [w, w'] + [w''] == [w, w', w''] && [e] + [e'] == [e, e'];
  }

  /* ---------- a completed upload that is not committed ---------- */

  // While its window lasts, a row whose upload has been completed makes every further request for
  // its file fail.
  lemma CompletedIsRefused(pre: Stores, now: int, files: seq<UploadFile>, lot: Uuid, f: UploadFile, id: int)
    requires Needs(pre.db, files, f) && IsMulti(f) && PendingFor(pre.db.table, lot, f, id) && Live(pre.db.table.rows[id], now)
    requires !UploadOpen(pre.db.table.rows[id], pre.s3)
    ensures !Acceptable(pre, now, files, lot)
  {
    hide PgDecode, Canonical, IsStored;
  }

  // Such a world is reached from every world in which a multipart file can be requested at all:
  // after its upload has been completed, the same request is refused.
  lemma RefusalReachable(ws: seq<World>, es: seq<Event>, now: int, files: seq<UploadFile>, lot: Uuid, draws: seq<Uuid>, session: int,
                         f: UploadFile)
    returns (ws': seq<World>, es': seq<Event>)
    requires Run(ws, es) && Acceptable(ws[|es|].stores, now, files, lot)
    requires FreshDraws(TableOf(ws[|es|]), draws) && |draws| >= |files|
    requires Presentable(files) && AllWorkable(ws[|es|], lot, files) && Needs(ws[|es|].stores.db, files, f) && IsMulti(f)
    ensures Run(ws + ws', es + es') && |ws'| == |es'| > 0
    ensures es'[0].Initiate? && es'[0].files == files && es'[0].lot == lot && es'[0].now == now
    ensures !Acceptable(ws'[|es'| - 1].stores, now, files, lot)
  {
    hide Run, Acceptable, FreshDraws, Presentable, AllWorkable, OnlyFinishes, PgDecode, Live, Canonical, IsStored;
    ws', es' := RunCompletes(ws, es, now, files, lot, draws, session);
    var last := ws'[|es'| - 1];
    var id :| PendingFor(TableOf(last), lot, f, id) && Live(TableOf(last).rows[id], now) && IsCompleted(last, id);
    CompletedIsRefused(last.stores, now, files, lot, f, id);
  }

  // Once its window has lapsed, the next request for the file succeeds and presigns parts of the
  // upload that has been completed.
  lemma LapsedRequest(w: World, f: UploadFile, lot: Uuid, id: int) returns (e: Event, w': World, p: PresignedFile)
    requires Inv(w) && IsMulti(f) && Canonical(f.sha256) && Needs(w.stores.db, [f], f) && PendingFor(TableOf(w), lot, f, id)
    requires var r := TableOf(w).rows[id];
             r.uploadType.MultiUpload? && r.version < MAX_INT32 && r.fileSize > 0 && IsCompleted(w, id)
    ensures Step(w, e, w') && e.Initiate? && e.files == [f] && e.lot == lot && !Live(TableOf(w).rows[id], e.now)
    ensures p in e.res.presigned && !RequestsOpen(p, w'.stores.s3)
  {
    TableOfInv(w);
    var later := LapsedTime(TableOf(w), id);
    hide Inv, Step, TableInv, StoreInv, HasPending, Acceptable, FreshDraws, Initiated, Needs, RequestsOpen, Canonical, Live;
    var r := TableOf(w).rows[id];
    var keys := FreshKeys(TableOf(w), 1);
    RowIsAcceptable(w.stores, later, f, lot, id);
    e, w' := CanInitiate(w, later, [f], lot, keys);
    StepIsInitiated(w, e, w');
    OpenRequests(w.stores, later, [f], lot, e.trace, w'.stores, e.res);
    assert LapsedUpload(r, w.stores.s3, later);
    assert MeetsLapsedUpload(w.stores, later, lot, f);
    p :| p in e.res.presigned && !RequestsOpen(p, w'.stores.s3);
  }

  lemma KeyIsFresh(w: World, lot: Uuid, key: Uuid)
    requires Fresh(w, lot) && key != NIL_UUID
    ensures FreshDraws(TableOf(w), [key])
  {
  }

  // A fresh service can finish the upload of a file that has parts.
  lemma FreshWorks(w: World, lot: Uuid, f: UploadFile)
    requires Fresh(w, lot) && Canonical(f.sha256) && CameFromWire(f) && Int32(f.fileSize) > 0 && Needs(w.stores.db, [f], f)
    ensures Presentable([f]) && AllWorkable(w, lot, [f])
  {
    hide Canonical, IsStored, CameFromWire;
    OneKept(w.stores.db, f);
    FilterMembers(IsMulti, [f]);
  }

  // A run from a fresh service that ends with such a request.
  lemma LapsedReachable(w: World, now: int, f: UploadFile, lot: Uuid, key: Uuid, session: int)
    returns (ws: seq<World>, es: seq<Event>, e: Event, w': World, p: PresignedFile)
    requires Fresh(w, lot) && Canonical(f.sha256) && !IsStored(w.stores.db.blobs, f.sha256) && key != NIL_UUID
    requires IsMulti(f) && CameFromWire(f) && Int32(f.fileSize) > 0
    ensures |ws| == |es| + 1 && |es| > 0 && Run(ws + [w'], es + [e])
    ensures ws[0] == w && es[0].Initiate? && es[0].files == [f] && e.Initiate? && e.files == [f] && e.lot == es[0].lot
    ensures p in e.res.presigned && !RequestsOpen(p, w'.stores.s3)
  {
    hide IsStored, Canonical, IsHex, Inv, Step, Start, TableInv, StoreInv, HasPending, Acceptable, FreshDraws, Initiated, Needs, CameFromWire,
         FinishStep, RequestsOpen, Live, UploadOpen, AllWorkable, Presentable, Int32;
    FreshMeetsNothing(w, lot, f);
    CanonicalFile(f);
    NotStoredIsNeeded(w.stores.db, f);
    NewIsAcceptable(w.stores, now, f, lot);
    KeyIsFresh(w, lot, key);
    FreshWorks(w, lot, f);
    ws, es := RunCompletes([w], [], now, [f], lot, [key], session);
    ws := [w] + ws;
    assert [] + es == es;
    StepOf(ws, es, 0);
    var id := MultiRowInserted(w, es[0], ws[1], f);
    var last := ws[|es|];
    RunInv(ws, es, |es|);
    TableOfInv(last);
    assert Completed(last, now, lot, f) && PendingFor(TableOf(last), lot, f, id);
    NotStoredIsNeeded(last.stores.db, f);
    SamePending(last, now, lot, f, id);
    e, w', p := LapsedRequest(last, f, lot, id);
    RunGoesOn(ws, es, e, w');
  }

  lemma SamePending(w: World, now: int, lot: Uuid, f: UploadFile, id: int)
    requires ValidTable(TableOf(w)) && Completed(w, now, lot, f) && PendingFor(TableOf(w), lot, f, id)
    ensures IsCompleted(w, id)
  {
    hide PgDecode, Live;
    assert forall x :: PendingFor(TableOf(w), lot, f, x) ==> x == id;
  }
}
