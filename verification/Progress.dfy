// No dead ends: what a caller can still do from any reachable world, with requests that have not
// expired and a list of parts that the store accepts.
module Progress {
  import opened Wrappers
  import opened Hex
  import opened Parts
  import opened Attempts
  import opened ObjectStore
  import opened Database
  import opened Intake
  import opened Uploads
  import opened ImageStore
  import opened Conditions
  import opened Wire
  import opened Requests
  import opened Completion
  import opened Protocol
  import opened ProtocolInitiate
  import opened ProtocolRuns
  import opened Replies
  import opened Success

  // A stretch of a run.
  ghost predicate Path(ws: seq<World>, es: seq<Event>) {
    |ws| == |es| + 1 && forall i :: 0 <= i < |es| ==> Step(ws[i], es[i], ws[i + 1])
  }

  lemma PathJoins(ws: seq<World>, es: seq<Event>, xs: seq<World>, ys: seq<Event>)
    requires Path(ws, es) && Path(xs, ys) && xs[0] == ws[|es|]
    ensures Path(ws + xs[1..], es + ys)
    ensures (ws + xs[1..])[|es| + |ys|] == xs[|ys|]
  {
    hide Step;
    var all, happened := ws + xs[1..], es + ys;
    forall i | 0 <= i < |happened|
      ensures Step(all[i], happened[i], all[i + 1])
    {
      if i >= |es| {
        var j := i - |es|;
        assert all[i] == xs[j] && all[i + 1] == xs[j + 1] && happened[i] == ys[j];
      }
    }
  }

  /* ---------- requesting ---------- */

  // An acceptable request can succeed.
  lemma AcceptableHappens(pre: Stores, now: int, files: seq<UploadFile>, lot: Uuid, draws: seq<Uuid>)
    returns (w: Trace, post: Stores, res: UploadResult)
    requires Ready(pre, draws) && Acceptable(pre, now, files, lot) && |draws| >= |files|
    ensures w.draws == draws && Initiated(pre, now, files, lot, w, post, res)
  {
    hide PgDecode, Canonical, Filter, Statement, Classified, TableInv, StoreInv, FreshDraws, Reaches, AllHex, CreateAll, HasNull,
         Resumable, LotImagesFor, MultiAnswerable;
    ValidFromInv(pre.db.table);
    var uploaded;
    w, uploaded := Reached(pre, now, files, lot, draws);
    var kept, s3' := FirstOccurrences(files), CreateAll(pre.s3, MultiKeys(w));
    StatementRows(pre.db, now, lot, SingleColumns(w), w.singles);
    StagesExactly(pre, now, files, lot, w, UploadResult(Duplicates(files), uploaded, []));
    var single, multi := SingleUrls(Singles(w.needed), SingleRows(w.singles)), MultiUrls(Returned(w, now), Multis(w.needed), s3');
    res := UploadResult(Duplicates(files), uploaded, single + multi);
    post := Stores(pre.db.(table := w.multis.table,
                           lotImages := pre.db.lotImages + LotImagesFor(pre.db.blobs, lot, Shas(kept), Names(kept))), s3');
    assert PresignedInStages(now, w, s3', single, multi);
  }

  function TokensOf(urls: seq<PresignedFile>): set<Token> {
    set p, k | p in urls && p.url.MultiUrl? && k in p.url.requests :: k
  }

  // From every world that keeps the invariant, an acceptable request is a possible step.
  lemma CanInitiate(w: World, now: int, files: seq<UploadFile>, lot: Uuid, draws: seq<Uuid>) returns (e: Event, w': World)
    requires Inv(w) && Acceptable(w.stores, now, files, lot) && FreshDraws(TableOf(w), draws) && |draws| >= |files|
    ensures Step(w, e, w') && e.Initiate? && e.files == files && e.lot == lot && e.now == now && e.trace.draws == draws
  {
    hide Acceptable, FreshDraws, Initiated, Deliverable, Inv, TableInv, StoreInv;
    TableOfInv(w);
    var trace, post, res := AcceptableHappens(w.stores, now, files, lot, draws);
    e := Initiate(now, files, lot, trace, res);
    var more := map k | k in TokensOf(res.presigned) && Deliverable(res) :: w.clock + EXPIRY;
    w' := World(post, w.issued + more, w.sessions, w.clock);
    assert Issues(w.issued, res, w.clock, w'.issued);
  }

  /* ---------- uploading ---------- */

  // Row id has an open upload of at least one part.
  ghost predicate Completable(w: World, id: int) {
    id in TableOf(w).rows && TableOf(w).rows[id].fileSize > 0 && UploadOpen(TableOf(w).rows[id], w.stores.s3)
  }

  function PartsOf(w: World, id: int): set<int>
    requires id in TableOf(w).rows && TableOf(w).rows[id].uploadId.Some?
    requires TableOf(w).rows[id].uploadId.value in w.stores.s3.uploads
  {
    w.stores.s3.uploads[TableOf(w).rows[id].uploadId.value].parts.Keys
  }

  function PartToken(w: World, id: int, k: int): Token
    requires id in TableOf(w).rows && TableOf(w).rows[id].uploadId.Some?
  {
    Token(TableOf(w).rows[id].storageKey, TableOf(w).rows[id].uploadId.value, k)
  }

  // The caller holds a request for part k of row id that has not expired.
  ghost predicate Holds(w: World, id: int, k: int)
    requires id in TableOf(w).rows && TableOf(w).rows[id].uploadId.Some?
  {
    PartToken(w, id, k) in w.issued && w.clock <= w.issued[PartToken(w, id, k)]
  }

  // Nothing but the upload of row id has changed between the two worlds.
  ghost predicate OnlyUpload(w: World, w': World, id: int)
    requires id in TableOf(w).rows && TableOf(w).rows[id].uploadId.Some?
  {
    && w'.stores.db == w.stores.db && w'.issued == w.issued && w'.clock == w.clock
    && forall u :: u in w.stores.s3.uploads && u != TableOf(w).rows[id].uploadId.value ==>
         u in w'.stores.s3.uploads && w'.stores.s3.uploads[u] == w.stores.s3.uploads[u]
  }

  // The store takes a part whose request is still valid.
  lemma CanUpload(w: World, id: int, k: int, etag: Etag) returns (w': World)
    requires Inv(w) && Completable(w, id) && Holds(w, id, k)
    requires TableOf(w).rows[id].partCount.Some? && 1 <= k <= TableOf(w).rows[id].partCount.value
    ensures Step(w, UploadPart(PartToken(w, id, k), etag), w')
    ensures Inv(w') && Completable(w', id) && OnlyUpload(w, w', id)
    ensures PartsOf(w', id) == PartsOf(w, id) + {k}
  {
    StoredAmongParts(w, id);
    hide Inv;
    var token := PartToken(w, id, k);
    w' := w.(stores := w.stores.(s3 := StorePart(w.stores.s3, token, etag)));
    StepKeepsInv(w, UploadPart(token, etag), w');
  }

  // The uploads of the given parts of row id, one request each.
  ghost predicate UploadsOf(w: World, id: int, ks: seq<int>, es: seq<Event>)
    requires id in TableOf(w).rows && TableOf(w).rows[id].uploadId.Some?
  {
    |es| == |ks| && forall i :: 0 <= i < |ks| ==> es[i].UploadPart? && es[i].token == PartToken(w, id, ks[i])
  }

  lemma OnlyUploadTwice(w: World, v: World, last: World, id: int)
    requires id in TableOf(w).rows && TableOf(w).rows[id].uploadId.Some? && id in TableOf(v).rows && TableOf(v).rows[id].uploadId.Some?
    requires OnlyUpload(w, v, id) && OnlyUpload(v, last, id)
    ensures OnlyUpload(w, last, id)
  {
  }

  lemma Unchanged(w: World, id: int)
    requires id in TableOf(w).rows && TableOf(w).rows[id].uploadId.Some?
    ensures OnlyUpload(w, w, id)
  {
  }

  lemma HoldsAfter(w: World, v: World, id: int, k: int)
    requires id in TableOf(w).rows && TableOf(w).rows[id].uploadId.Some? && OnlyUpload(w, v, id) && Holds(w, id, k)
    ensures PartToken(v, id, k) == PartToken(w, id, k) && Holds(v, id, k) && TableOf(v) == TableOf(w)
  {
  }

  // All the parts a caller holds requests for can be uploaded before the clock moves.
  lemma {:induction false} CanUploadAll(w: World, id: int, ks: seq<int>) returns (ws: seq<World>, es: seq<Event>)
    requires Inv(w) && Completable(w, id) && TableOf(w).rows[id].partCount.Some?
    requires forall k :: k in ks ==> 1 <= k <= TableOf(w).rows[id].partCount.value && Holds(w, id, k)
    ensures Path(ws, es) && ws[0] == w && UploadsOf(w, id, ks, es)
    ensures Inv(ws[|ks|]) && Completable(ws[|ks|], id) && OnlyUpload(w, ws[|ks|], id)
    ensures PartsOf(ws[|ks|], id) == PartsOf(w, id) + (set k | k in ks)
  {
    hide Step, Inv, OnlyUpload, Holds;
    if ks == [] {
      Unchanged(w, id);
      ws, es := [w], [];
    } else {
      var n := |ks| - 1;
      assert ks == ks[..n] + [ks[n]] && ks[n] in ks;
      assert forall k :: k in ks[..n] ==> k in ks;
      ws, es := CanUploadAll(w, id, ks[..n]);
      HoldsAfter(w, ws[n], id, ks[n]);
      var last := CanUpload(ws[n], id, ks[n], "");
      OnlyUploadTwice(w, ws[n], last, id);
      var e := UploadPart(PartToken(ws[n], id, ks[n]), "");
      assert Path([ws[n], last], [e]);
      PathJoins(ws, es, [ws[n], last], [e]);
      ws, es := ws + [ws[n], last][1..], es + [e];
    }
  }

  /* ---------- completing ---------- */

  ghost predicate IsCompleted(w: World, id: int) {
    && id in TableOf(w).rows && TableOf(w).rows[id].uploadId.Some?
    && TableOf(w).rows[id].uploadId.value in w.stores.s3.uploads
    && w.stores.s3.uploads[TableOf(w).rows[id].uploadId.value].completed
  }

  lemma RowCount(w: World, id: int) returns (n: nat)
    requires Inv(w) && Completable(w, id)
    ensures TableOf(w).rows[id].partCount == Some(n) && 1 <= n <= PAGE_SIZE
  {
    StoredAmongParts(w, id);
    assert RowShape(TableOf(w).rows[id]);
    PartCountBounds(TableOf(w).rows[id].fileSize, PART_SIZE);
    n := TableOf(w).rows[id].partCount.value;
  }

  // The list a client makes of a listing.
  function ListOf(page: seq<PartInfo>): (r: seq<CompletedPart>)
    ensures |r| == |page| && forall i :: 0 <= i < |r| ==> r[i] == CompletedPart(page[i].number, page[i].etag)
  {
    Map((p: PartInfo) => CompletedPart(p.number, p.etag), page)
  }

  // The store accepts the list of a page that shows all parts.
  lemma ListIsAccepted(u: Upload, n: nat)
    requires u.parts.Keys == Interval(1, n) && !u.completed && 1 <= n <= PAGE_SIZE
    ensures |Page(u)| == n && Ascending(ListOf(Page(u))) && Accepts(u, ListOf(Page(u)))
  {
    PageCount(u, n);
    PageFromSound(u.parts, 1, PAGE_SIZE);
    var page := Page(u);
    assert forall i :: 0 <= i < |page| ==> page[i] in page;
  }

  lemma AllStored(w: World, id: int) returns (n: nat)
    requires Inv(w) && Completable(w, id)
    requires TableOf(w).rows[id].partCount.Some? && Interval(1, TableOf(w).rows[id].partCount.value) <= PartsOf(w, id)
    ensures TableOf(w).rows[id].partCount == Some(n) && 1 <= n <= PAGE_SIZE && PartsOf(w, id) == Interval(1, n)
  {
    StoredAmongParts(w, id);
    n := RowCount(w, id);
  }

  // The row, the upload and the listing that a completion of row id meets once all its parts are
  // stored; the store accepts the list of that listing.
  lemma MeetsRow(w: World, id: int) returns (item: MultipartItem, page: seq<PartInfo>)
    requires Inv(w) && Completable(w, id)
    requires TableOf(w).rows[id].partCount.Some? && Interval(1, TableOf(w).rows[id].partCount.value) <= PartsOf(w, id)
    ensures ReadItem(TableOf(w), id) == Some(item) && ListStep(w.stores.s3, item) == Some(page) && CountMatches(item, page)
    ensures item.uploadId == TableOf(w).rows[id].uploadId && item.uploadId.Some? && item.uploadId.value in w.stores.s3.uploads
    ensures Ascending(ListOf(page)) && Accepts(w.stores.s3.uploads[item.uploadId.value], ListOf(page))
  {
    var n := AllStored(w, id);
    hide Inv, Page, Accepts, Ascending, ListOf;
    var r := TableOf(w).rows[id];
    ListIsAccepted(w.stores.s3.uploads[r.uploadId.value], n);
    item := MultipartItem(r.uploadId, r.storageKey, r.partCount);
    page := Page(w.stores.s3.uploads[r.uploadId.value]);
  }

  // The world after each step of a completion of row id.
  function AfterRead(w: World, session: int, id: int): World
    requires ReadItem(TableOf(w), id).Some?
  {
    w.(sessions := w.sessions[session := HasRow(id, ReadItem(TableOf(w), id).value)])
  }

  function AfterList(w: World, session: int, id: int, item: MultipartItem, page: seq<PartInfo>): World {
    w.(sessions := w.sessions[session := HasPage(id, item, page)])
  }

  function AfterSend(w: World, session: int, uploadId: UploadId): World
    requires uploadId in w.stores.s3.uploads
  {
    w.(sessions := w.sessions - {session}, stores := w.stores.(s3 := MarkCompleted(w.stores.s3, uploadId)))
  }

  lemma CanRead(w: World, session: int, id: int)
    requires ReadItem(TableOf(w), id).Some?
    ensures Step(w, ReadRow(session, id), AfterRead(w, session, id))
    ensures var w' := AfterRead(w, session, id);
            && w'.stores == w.stores && session in w'.sessions
            && w'.sessions[session] == HasRow(id, ReadItem(TableOf(w), id).value)
  {
  }

  lemma CanList(w: World, session: int)
    requires session in w.sessions && w.sessions[session].HasRow?
    requires ListStep(w.stores.s3, w.sessions[session].item).Some?
    ensures var s := w.sessions[session];
            var w' := AfterList(w, session, s.id, s.item, ListStep(w.stores.s3, s.item).value);
            && Step(w, ListUploaded(session), w')
            && w'.stores == w.stores && session in w'.sessions
            && w'.sessions[session] == HasPage(s.id, s.item, ListStep(w.stores.s3, s.item).value)
  {
  }

  lemma CanSendMatching(w: World, session: int, parts: seq<CompletedPart>)
    requires session in w.sessions && w.sessions[session].HasPage? && Ascending(parts)
    requires var s := w.sessions[session];
             && CountMatches(s.item, s.page) && s.item.uploadId.Some? && s.item.uploadId.value in w.stores.s3.uploads
             && Accepts(w.stores.s3.uploads[s.item.uploadId.value], parts)
    ensures var w' := AfterSend(w, session, w.sessions[session].item.uploadId.value);
            && Step(w, SendComplete(session, parts, true), w')
            && forall id :: id in TableOf(w).rows && TableOf(w).rows[id].uploadId == w.sessions[session].item.uploadId ==>
                 IsCompleted(w', id) && OnlyUpload(w, w', id)
  {
  }

  lemma ThreeSteps(w: World, d: Event, w1: World, e: Event, w2: World, f: Event, w3: World)
    requires Step(w, d, w1) && Step(w1, e, w2) && Step(w2, f, w3)
    ensures Path([w, w1, w2, w3], [d, e, f])
  {
    hide Step;
  }

  lemma CompletionSteps(w: World, id: int, session: int, item: MultipartItem, page: seq<PartInfo>)
    returns (ws: seq<World>, es: seq<Event>)
    requires id in TableOf(w).rows && TableOf(w).rows[id].uploadId.Some? && item.uploadId == TableOf(w).rows[id].uploadId
    requires ReadItem(TableOf(w), id) == Some(item) && ListStep(w.stores.s3, item) == Some(page) && CountMatches(item, page)
    requires item.uploadId.value in w.stores.s3.uploads
    requires Ascending(ListOf(page)) && Accepts(w.stores.s3.uploads[item.uploadId.value], ListOf(page))
    ensures Path(ws, es) && ws[0] == w && es == [ReadRow(session, id), ListUploaded(session), SendComplete(session, ListOf(page), true)]
    ensures IsCompleted(ws[3], id) && OnlyUpload(w, ws[3], id)
  {
    hide CountMatches, ListStep, ReadItem, Step, Path, Accepts, Ascending, ListOf, IsCompleted;
    CanRead(w, session, id);
    var w1 := AfterRead(w, session, id);
    CanList(w1, session);
    var w2 := AfterList(w1, session, id, item, page);
    CanSendMatching(w2, session, ListOf(page));
    var w3 := AfterSend(w2, session, item.uploadId.value);
    var send := SendComplete(session, ListOf(page), true);
    ThreeSteps(w, ReadRow(session, id), w1, ListUploaded(session), w2, send, w3);
    ws, es := [w, w1, w2, w3], [ReadRow(session, id), ListUploaded(session), send];
  }

  // Once all parts are stored, the three steps of a completion go through, and the store accepts
  // the list of all parts.
  lemma CanSend(w: World, id: int, session: int) returns (ws: seq<World>, es: seq<Event>)
    requires Inv(w) && Completable(w, id)
    requires TableOf(w).rows[id].partCount.Some? && Interval(1, TableOf(w).rows[id].partCount.value) <= PartsOf(w, id)
    ensures Path(ws, es) && ws[0] == w
    ensures es == [ReadRow(session, id), ListUploaded(session), SendComplete(session, ListOf(ListedNow(w, id)), true)]
    ensures IsCompleted(ws[3], id) && OnlyUpload(w, ws[3], id)
  {
    var item, page := MeetsRow(w, id);
    hide Inv, CountMatches, ListStep, ReadItem, Path, Accepts, Ascending, ListOf, OnlyUpload, IsCompleted, PartsOf;
    ListedIs(w, id, item, page);
    ws, es := CompletionSteps(w, id, session, item, page);
  }

  lemma ListedIs(w: World, id: int, item: MultipartItem, page: seq<PartInfo>)
    requires id in TableOf(w).rows && ReadItem(TableOf(w), id) == Some(item) && ListStep(w.stores.s3, item) == Some(page)
    ensures ListedNow(w, id) == page
  {
  }

  /* ---------- from a request to its completion ---------- */

  // The row a multipart file meets or will get holds at least one part, and its upload, if there
  // is one already, is open.
  ghost predicate Workable(w: World, lot: Uuid, f: UploadFile) {
    && (HasPending(TableOf(w), lot, f) || Int32(f.fileSize) > 0)
    && forall id :: PendingFor(TableOf(w), lot, f, id) ==>
         TableOf(w).rows[id].fileSize > 0 && UploadOpen(TableOf(w).rows[id], w.stores.s3)
  }

  // Of every multipart file of the batch that needs an upload.
  ghost predicate AllWorkable(w: World, lot: Uuid, files: seq<UploadFile>) {
    forall f :: Needs(w.stores.db, files, f) && IsMulti(f) ==> Workable(w, lot, f)
  }

  // A batch from the wire whose reply can be built.
  ghost predicate Presentable(files: seq<UploadFile>) {
    (forall f :: f in files ==> CameFromWire(f)) && AllCanonical(Multis(FirstOccurrences(files)))
  }

  lemma StepIsInitiated(w: World, e: Event, w': World)
    requires e.Initiate? && Step(w, e, w')
    ensures Initiated(w.stores, e.now, e.files, e.lot, e.trace, w'.stores, e.res)
    ensures FreshDraws(TableOf(w), e.trace.draws) && Issues(w.issued, e.res, w.clock, w'.issued) && w'.clock == w.clock
  {
  }

  lemma RepliedIsDelivered(w: World, e: Event, w': World)
    requires Inv(w) && e.Initiate? && Step(w, e, w') && Presentable(e.files)
    ensures Deliverable(e.res)
  {
    hide Inv, Canonical, Issues, FreshDraws, ConvertToImageFile, CameFromWire, Initiated;
    TableOfInv(w);
    ResponseConvertible(w.stores, e.now, e.files, e.lot, e.trace, w'.stores, e.res);
  }

  // Row k of a request, which was there before it or is new, has an open upload after it.
  lemma FoundCompletable(w: World, e: Event, w': World, k: nat)
    requires TableInv(TableOf(w)) && StoreInv(TableOf(w), w.stores.s3) && e.Initiate? && k < |Multis(e.trace.needed)|
    requires UpsertsEffect(w.stores.db, w.stores.s3, e.now, e.lot, e.trace) && Workable(w, e.lot, Multis(e.trace.needed)[k])
    requires TableOf(w') == e.trace.multis.table && w'.stores.s3 == CreateAll(w.stores.s3, MultiKeys(e.trace))
    requires k < |e.trace.multis.ids| && e.trace.multis.ids[k] in e.trace.singles.table.rows
    requires e.trace.multis.ids[k] in TableOf(w').rows && TableOf(w').rows[e.trace.multis.ids[k]].uploadId.Some?
    ensures Completable(w', e.trace.multis.ids[k])
  {
    hide PgDecode, Filter, UpsertEffect, CreateAll, TableInv, StoreInv;
    FoundIsOld(w.stores.db, w.stores.s3, e.now, e.lot, e.trace, k);
    StaysAsOpen(TableOf(w), w.stores.s3, e.trace.multis.ids[k], MultiKeys(e.trace));
  }

  lemma NewCompletable(w: World, e: Event, w': World, k: nat)
    requires ValidTable(TableOf(w)) && e.Initiate? && k < |Multis(e.trace.needed)|
    requires UpsertsEffect(w.stores.db, w.stores.s3, e.now, e.lot, e.trace) && Workable(w, e.lot, Multis(e.trace.needed)[k])
    requires TableOf(w') == e.trace.multis.table && w'.stores.s3 == CreateAll(w.stores.s3, MultiKeys(e.trace))
    requires k < |e.trace.multis.ids| && e.trace.multis.ids[k] !in e.trace.singles.table.rows
    ensures Completable(w', e.trace.multis.ids[k])
  {
    hide PgDecode, Filter, UpsertEffect, CreateAll;
    NewRowMeetsNothing(w.stores, e.now, e.lot, e.trace, k);
    NewUploadIsOpen(w.stores.db, w.stores.s3, e.now, e.lot, e.trace, k);
    NewRowSize(w, e, k);
  }

  lemma NewRowSize(w: World, e: Event, k: nat)
    requires e.Initiate? && UpsertsEffect(w.stores.db, w.stores.s3, e.now, e.lot, e.trace) && k < |Multis(e.trace.needed)|
    requires k < |e.trace.multis.ids| && e.trace.multis.ids[k] !in e.trace.singles.table.rows
    ensures e.trace.multis.ids[k] in e.trace.multis.table.rows
    ensures e.trace.multis.table.rows[e.trace.multis.ids[k]].fileSize == Int32(Multis(e.trace.needed)[k].fileSize)
  {
    hide PgDecode, Filter;
    var trace, id, s3 := e.trace, e.trace.multis.ids[k], w.stores.s3;
    MultiColumnsZip(trace.needed, MultiKeys(trace), s3, e.lot, k);
    assert Settled(trace.singles.table, e.now, RenewWindow(PART_SIZE), MultiProposals(trace, s3, e.lot)[k], id, trace.multis.table.rows[id]);
  }

  lemma RowAfter(w: World, e: Event, w': World, k: nat) returns (p: PresignedFile)
    requires Inv(w) && e.Initiate? && Step(w, e, w') && AllWorkable(w, e.lot, e.files) && k < |Multis(e.trace.needed)|
    ensures EnoughDraws(e.trace) && k < |e.trace.multis.ids| && AsksFor(w, e, Multis(e.trace.needed)[k])
    ensures AnswersFile(w, e, w', Multis(e.trace.needed)[k], e.trace.multis.ids[k], p)
    ensures Completable(w', e.trace.multis.ids[k])
  {
    TableOfInv(w);
    RowIsAnswered(w, e, w', k);
    p := AnswersAt(w, e, w', k);
    NeededAre(w.stores.db, e.files, e.lot, e.trace, e.res);
    hide Inv, Classified, Needs, Issues, FreshDraws, PgDecode, Filter, UpsertsEffect, Upserts, Presigned, CreateAll, Completable, Workable,
         TableInv, StoreInv, AnswersFile;
    assert Multis(e.trace.needed)[k] in Multis(e.trace.needed);
    if e.trace.multis.ids[k] in e.trace.singles.table.rows {
      FoundCompletable(w, e, w', k);
    } else {
      NewCompletable(w, e, w', k);
    }
  }

  // An answer delivers a valid request for each missing part of its row.
  lemma AnswerDelivers(w: World, e: Event, w': World, p: PresignedFile, id: int, all: bool, k: int)
    requires e.Initiate? && Issues(w.issued, e.res, w.clock, w'.issued) && w'.clock == w.clock && Deliverable(e.res)
    requires id in TableOf(w').rows && AnswersRow(w', p, id, all) && p in e.res.presigned && k in MissingNow(w', id)
    ensures Holds(w', id, k) && Delivers(e.res, PartToken(w', id, k))
  {
    hide Deliverable, TokensFor, MissingNow;
    MissingAreParts(w', id);
    TokensOfRow(w', p, id, all, PartToken(w', id, k));
    assert IsMultiToken(e.res.presigned, PartToken(w', id, k));
  }

  // The upload of the row is open and the caller holds a valid request for each missing part.
  ghost predicate HoldsAll(w: World, id: int) {
    Completable(w, id) && forall k :: k in MissingNow(w, id) ==> Holds(w, id, k)
  }

  // The reply asks for the missing parts of a live row and for all parts of any other; either way
  // its caller then holds a valid request for every missing part of each multipart file.
  lemma HoldsMissing(w: World, e: Event, w': World, k: nat) returns (p: PresignedFile)
    requires Inv(w) && e.Initiate? && Step(w, e, w') && Presentable(e.files) && AllWorkable(w, e.lot, e.files)
    requires k < |Multis(e.trace.needed)|
    ensures EnoughDraws(e.trace) && k < |e.trace.multis.ids| && AsksFor(w, e, Multis(e.trace.needed)[k])
    ensures AnswersFile(w, e, w', Multis(e.trace.needed)[k], e.trace.multis.ids[k], p)
    ensures HoldsAll(w', e.trace.multis.ids[k])
    ensures forall n :: n in MissingNow(w', e.trace.multis.ids[k]) ==> Delivers(e.res, PartToken(w', e.trace.multis.ids[k], n))
  {
    p := RowAfter(w, e, w', k);
    RepliedIsDelivered(w, e, w');
    StepIsInitiated(w, e, w');
    hide Inv, Step, Presentable, AllWorkable, Deliverable, Initiated, AnswersRow, Holds, Delivers, FreshDraws, Issues, MissingNow,
         HasLive, Live, AsksFor, Canonical, PgDecode;
    var f, id := Multis(e.trace.needed)[k], e.trace.multis.ids[k];
    forall n | n in MissingNow(w', id)
      ensures Holds(w', id, n) && Delivers(e.res, PartToken(w', id, n))
    {
      AnswerDelivers(w, e, w', p, id, !HasLive(TableOf(w), e.now, e.lot, f), n);
    }
  }

  // After the reply: the missing parts uploaded in order, with the requests of this reply and
  // before they expire; then one completion call, whose list the store accepts.
  ghost predicate Finishes(w: World, id: int, session: int, ws: seq<World>, es: seq<Event>, n: nat)
    requires id in TableOf(w).rows && TableOf(w).rows[id].uploadId.Some?
  {
    && Path(ws, es) && ws[0] == w && |es| == n + 3
    && n == |MissingNow(w, id)| && UploadsOf(w, id, MissingNow(w, id), es[..n])
    && (forall i :: 0 <= i <= n ==> ws[i].clock == w.clock)
    && es[n] == ReadRow(session, id) && es[n + 1] == ListUploaded(session)
    && es[n + 2].SendComplete? && es[n + 2].session == session && es[n + 2].accepted
    && IsCompleted(ws[n + 3], id) && OnlyUpload(w, ws[n + 3], id)
  }

  lemma ClockStays(ws: seq<World>, es: seq<Event>, i: nat)
    requires Path(ws, es) && i <= |es| && forall j :: 0 <= j < |es| ==> es[j].UploadPart?
    ensures ws[i].clock == ws[0].clock
  {
    if i > 0 {
      ClockStays(ws, es, i - 1);
      assert Step(ws[i - 1], es[i - 1], ws[i]);
    }
  }

  // With the missing parts uploaded, all parts are stored.
  lemma MissingCompletes(w: World, id: int) returns (n: nat)
    requires Inv(w) && Completable(w, id)
    ensures TableOf(w).rows[id].partCount == Some(n)
    ensures forall k :: k in MissingNow(w, id) ==> 1 <= k <= n
    ensures Interval(1, n) <= PartsOf(w, id) + (set k | k in MissingNow(w, id))
  {
    n := RowCount(w, id);
    PartitionAt(w, id);
    ListingIsStored(w, id);
    hide Inv, MissingNow, IsListing;
    StoredPage(w, id);
  }

  lemma StoredPage(w: World, id: int)
    requires Inv(w) && Completable(w, id)
    ensures NumberSet(ListedNow(w, id)) == PartsOf(w, id)
  {
    StoredAmongParts(w, id);
    var n := RowCount(w, id);
    hide Inv;
    PageComplete(w.stores.s3.uploads[TableOf(w).rows[id].uploadId.value], n);
  }

  lemma CanFinish(w: World, id: int, session: int) returns (ws: seq<World>, es: seq<Event>, n: nat)
    requires Inv(w) && HoldsAll(w, id)
    ensures Finishes(w, id, session, ws, es, n)
  {
    hide Step, Inv, MissingNow, Holds, IsCompleted;
    var count := MissingCompletes(w, id);
    var ks := MissingNow(w, id);
    n := |ks|;
    var us, vs := CanUploadAll(w, id, ks);
    var xs, ys := CanSend(us[n], id, session);
    PathJoins(us, vs, xs, ys);
    ws, es := us + xs[1..], vs + ys;
    forall i | 0 <= i <= n
      ensures ws[i].clock == w.clock
    {
      ClockStays(us, vs, i);
    }
    assert es[..n] == vs;
  }

  /* ---------- all files of a batch ---------- */

  lemma {:induction false} PathInv(ws: seq<World>, es: seq<Event>, i: nat)
    requires Path(ws, es) && Inv(ws[0]) && i <= |es|
    ensures Inv(ws[i])
  {
    hide Inv, Step;
    if i > 0 {
      PathInv(ws, es, i - 1);
      StepKeepsInv(ws[i - 1], es[i - 1], ws[i]);
    }
  }

  ghost predicate MissingOf(w: World, ids: seq<int>, token: Token) {
    exists id, k :: id in ids && id in TableOf(w).rows && TableOf(w).rows[id].uploadId.Some? && k in MissingNow(w, id)
                    && token == PartToken(w, id, k)
  }

  // A step of finishing the rows: a missing part is uploaded, or a completion is under way, whose
  // list the store accepts.
  ghost predicate FinishStep(w: World, ids: seq<int>, session: int, e: Event) {
    match e
    case UploadPart(token, _) => MissingOf(w, ids, token)
    case ReadRow(s, id) => s == session && id in ids
    case ListUploaded(s) => s == session
    case SendComplete(s, _, accepted) => s == session && accepted
    case _ => false
  }

  // How many steps finish the rows: one for each missing part and three for each completion.
  function Work(w: World, ids: seq<int>): nat
    requires forall id :: id in ids ==> id in TableOf(w).rows
  {
    if ids == [] then 0 else Work(w, ids[..|ids| - 1]) + |MissingNow(w, ids[|ids| - 1])| + 3
  }

  // The steps finish just these rows, and are no more than that takes.
  ghost predicate OnlyFinishes(w: World, ids: seq<int>, session: int, es: seq<Event>) {
    && (forall id :: id in ids ==> Completable(w, id))
    && |es| == Work(w, ids) && forall i :: 0 <= i < |es| ==> FinishStep(w, ids, session, es[i])
  }

  // Nothing but the uploads of the rows has changed between the two worlds.
  ghost predicate OnlyUploads(w: World, w': World, ids: seq<int>) {
    && w'.stores.db == w.stores.db && w'.issued == w.issued && w'.clock == w.clock
    && forall x :: x in TableOf(w).rows && x !in ids ==> SameUpload(w, w', x)
  }

  ghost predicate SameUpload(w: World, w': World, id: int)
    requires id in TableOf(w).rows
  {
    var u := TableOf(w).rows[id].uploadId;
    u.Some? && u.value in w.stores.s3.uploads ==>
      u.value in w'.stores.s3.uploads && w'.stores.s3.uploads[u.value] == w.stores.s3.uploads[u.value]
  }

  // A row whose upload has not changed can be finished as before.
  lemma StillHolds(w: World, w': World, id: int)
    requires w'.stores.db == w.stores.db && w'.issued == w.issued && w'.clock == w.clock
    requires HoldsAll(w, id) && SameUpload(w, w', id)
    ensures HoldsAll(w', id) && MissingNow(w', id) == MissingNow(w, id)
  {
    hide Missing, Page;
    var u := TableOf(w).rows[id].uploadId;
    assert u.value in w.stores.s3.uploads;
    assert MissingNow(w', id) == MissingNow(w, id);
    assert forall k :: k in MissingNow(w, id) ==> Holds(w, id, k) && PartToken(w', id, k) == PartToken(w, id, k);
  }

  lemma OtherUploads(w: World, w': World, id: int)
    requires Inv(w) && id in TableOf(w).rows && TableOf(w).rows[id].uploadId.Some? && OnlyUpload(w, w', id)
    ensures OnlyUploads(w, w', [id])
  {
    TableOfInv(w);
    hide Inv, TableInv;
    forall x | x in TableOf(w).rows && x !in [id]
      ensures SameUpload(w, w', x)
    {
      assert x != id;
      UploadsDiffer(TableOf(w), x, id);
    }
  }

  lemma UploadsDiffer(t: Table, x: int, id: int)
    requires TableInv(t) && x in t.rows && id in t.rows && x != id && t.rows[id].uploadId.Some?
    ensures t.rows[x].uploadId.Some? ==> t.rows[x].uploadId.value != t.rows[id].uploadId.value
  {
  }

  lemma UploadsOfMissing(w: World, id: int, session: int, ws: seq<World>, es: seq<Event>, n: nat, i: nat)
    requires id in TableOf(w).rows && TableOf(w).rows[id].uploadId.Some? && Finishes(w, id, session, ws, es, n) && i < |es|
    ensures FinishStep(w, [id], session, es[i])
  {
    hide Path, MissingNow, OnlyUpload, IsCompleted;
    var ks := MissingNow(w, id);
    if i < n {
      assert es[i] == es[..n][i] && es[i].token == PartToken(w, id, ks[i]) && ks[i] in ks && id in [id];
    }
  }

  lemma NextHolds(w: World, v: World, front: seq<int>, id: int)
    requires OnlyUploads(w, v, front) && HoldsAll(w, id) && id !in front
    ensures HoldsAll(v, id) && MissingNow(v, id) == MissingNow(w, id)
  {
    hide HoldsAll, MissingNow;
    assert HoldsAll(w, id) ==> id in TableOf(w).rows by {
      IsRow(w, id);
    }
    StillHolds(w, v, id);
  }

  lemma IsRow(w: World, id: int)
    requires HoldsAll(w, id)
    ensures id in TableOf(w).rows && TableOf(w).rows[id].uploadId.Some?
  {
  }

  lemma BothFinished(w: World, v: World, last: World, front: seq<int>, id: int)
    requires Inv(v) && OnlyUploads(w, v, front) && id in TableOf(v).rows && TableOf(v).rows[id].uploadId.Some?
    requires OnlyUpload(v, last, id) && IsCompleted(last, id) && id !in front && forall x :: x in front ==> IsCompleted(v, x)
    ensures OnlyUploads(w, last, front + [id])
    ensures forall x :: x in front + [id] ==> IsCompleted(last, x)
  {
    OtherUploads(v, last, id);
    hide Inv;
  }

  lemma StepOfMore(w: World, v: World, front: seq<int>, id: int, session: int, e: Event)
    requires id in TableOf(w).rows && v.stores.db == w.stores.db && MissingNow(v, id) == MissingNow(w, id)
    requires FinishStep(w, front, session, e) || FinishStep(v, [id], session, e)
    ensures FinishStep(w, front + [id], session, e)
  {
    hide MissingNow;
    if e.UploadPart? {
      if MissingOf(w, front, e.token) {
        var x, k :| x in front && x in TableOf(w).rows && TableOf(w).rows[x].uploadId.Some? && k in MissingNow(w, x)
                    && e.token == PartToken(w, x, k);
        assert x in front + [id];
      } else {
        var x, k :| x in [id] && x in TableOf(v).rows && TableOf(v).rows[x].uploadId.Some? && k in MissingNow(v, x)
                    && e.token == PartToken(v, x, k);
        assert id in front + [id] && e.token == PartToken(w, id, k);
      }
    }
  }

  lemma FinishesIsPath(w: World, id: int, session: int, ws: seq<World>, es: seq<Event>, n: nat)
    requires id in TableOf(w).rows && TableOf(w).rows[id].uploadId.Some? && Finishes(w, id, session, ws, es, n)
    ensures Path(ws, es) && ws[0] == w && |es| == n + 3 && n == |MissingNow(w, id)|
    ensures IsCompleted(ws[n + 3], id) && OnlyUpload(w, ws[n + 3], id)
  {
    hide MissingNow, UploadsOf, Path;
  }

  // Rows whose missing parts the caller holds requests for can be finished one after the other.
  lemma {:induction false} FinishAll(w: World, ids: seq<int>, session: int) returns (ws: seq<World>, es: seq<Event>)
    requires Inv(w) && (forall id :: id in ids ==> HoldsAll(w, id)) && forall i, j :: 0 <= i < j < |ids| ==> ids[i] != ids[j]
    ensures forall id :: id in ids ==> id in TableOf(w).rows
    ensures Path(ws, es) && ws[0] == w && |es| == Work(w, ids) && OnlyUploads(w, ws[|es|], ids)
    ensures forall i :: 0 <= i < |es| ==> FinishStep(w, ids, session, es[i])
    ensures forall id :: id in ids ==> IsCompleted(ws[|es|], id)
  {
    hide Step, Inv, HoldsAll, IsCompleted, MissingNow, FinishStep, Finishes, OnlyUpload;
    forall id | id in ids
      ensures id in TableOf(w).rows
    {
      IsRow(w, id);
    }
    if ids == [] {
      ws, es := [w], [];
      assert OnlyUploads(w, w, []);
    } else {
      var front, id := ids[..|ids| - 1], ids[|ids| - 1];
      assert ids == front + [id];
      var us, vs := FinishAll(w, front, session);
      var v := us[|vs|];
      PathInv(us, vs, |vs|);
      NextHolds(w, v, front, id);
      var xs, ys, n := CanFinish(v, id, session);
      IsRow(v, id);
      FinishesIsPath(v, id, session, xs, ys, n);
      PathJoins(us, vs, xs, ys);
      ws, es := us + xs[1..], vs + ys;
      BothFinished(w, v, xs[n + 3], front, id);
      forall i | 0 <= i < |es|
        ensures FinishStep(w, ids, session, es[i])
      {
        if i >= |vs| {
          UploadsOfMissing(v, id, session, xs, ys, n, i - |vs|);
        }
        StepOfMore(w, v, front, id, session, es[i]);
      }
    }
  }

  // The file has a live pending row whose upload has been completed.
  ghost predicate Completed(w: World, now: int, lot: Uuid, f: UploadFile) {
    exists id :: PendingFor(TableOf(w), lot, f, id) && Live(TableOf(w).rows[id], now) && IsCompleted(w, id)
  }

  lemma RowsDistinct(w: World, e: Event, w': World)
    requires Inv(w) && e.Initiate? && Step(w, e, w')
    ensures EnoughDraws(e.trace) && |e.trace.multis.ids| == |Multis(e.trace.needed)|
    ensures forall i, j :: 0 <= i < j < |e.trace.multis.ids| ==> e.trace.multis.ids[i] != e.trace.multis.ids[j]
  {
    TableOfInv(w);
    hide Inv, Classified, Issues, FreshDraws, PgDecode, Filter, Presigned, Statement;
    UpsertsMeetEffect(w.stores.db, w.stores.s3, e.now, e.lot, e.trace);
  }

  // In every world that keeps the invariant, after every request whose reply can be built and whose
  // multipart files have workable rows: its caller can upload, with the requests of this reply and
  // before they expire, just the parts that are missing, each once, and complete every upload.
  lemma RequestCompletes(w: World, e: Event, w': World, session: int) returns (ws: seq<World>, es: seq<Event>)
    requires Inv(w) && e.Initiate? && Step(w, e, w') && Presentable(e.files) && AllWorkable(w, e.lot, e.files)
    ensures Path(ws, es) && ws[0] == w' && OnlyFinishes(w', e.trace.multis.ids, session, es)
    ensures ws[|es|].clock == w'.clock && ws[|es|].stores.db == w'.stores.db
    ensures forall i :: 0 <= i < |es| && es[i].UploadPart? ==> Delivers(e.res, es[i].token)
    ensures forall f :: AsksFor(w, e, f) ==> Completed(ws[|es|], e.now, e.lot, f)
  {
    hide Step, Inv, Presentable, AllWorkable, Completable, Holds, Delivers, MissingNow, FinishStep, AnswersFile, AsksFor, IsCompleted;
    var ids := e.trace.multis.ids;
    RowsDistinct(w, e, w');
    forall k | 0 <= k < |ids|
      ensures HoldsAll(w', ids[k])
    {
      var p := HoldsMissing(w, e, w', k);
    }
    StepKeepsInv(w, e, w');
    ws, es := FinishAll(w', ids, session);
    forall i | 0 <= i < |es| && es[i].UploadPart?
      ensures Delivers(e.res, es[i].token)
    {
      UploadIsDelivered(w, e, w', session, es[i]);
    }
    forall f | AsksFor(w, e, f)
      ensures Completed(ws[|es|], e.now, e.lot, f)
    {
      FileIsCompleted(w, e, w', ws[|es|], f);
    }
  }

  lemma UploadIsDelivered(w: World, e: Event, w': World, session: int, u: Event)
    requires Inv(w) && e.Initiate? && Step(w, e, w') && Presentable(e.files) && AllWorkable(w, e.lot, e.files)
    requires u.UploadPart? && FinishStep(w', e.trace.multis.ids, session, u)
    ensures Delivers(e.res, u.token)
  {
    hide Step, Inv, Presentable, AllWorkable, Completable, Holds, Delivers, MissingNow, AnswersFile, AsksFor;
    var ids := e.trace.multis.ids;
    RowsDistinct(w, e, w');
    var id, n :| id in ids && id in TableOf(w').rows && TableOf(w').rows[id].uploadId.Some? && n in MissingNow(w', id)
                 && u.token == PartToken(w', id, n);
    var k :| 0 <= k < |ids| && ids[k] == id;
    var p := HoldsMissing(w, e, w', k);
  }

  lemma FileIsCompleted(w: World, e: Event, w': World, last: World, f: UploadFile)
    requires Inv(w) && e.Initiate? && Step(w, e, w') && AsksFor(w, e, f) && last.stores.db == w'.stores.db
    requires forall id :: id in e.trace.multis.ids ==> IsCompleted(last, id)
    ensures Completed(last, e.now, e.lot, f)
  {
    hide Inv, AsksFor, IsCompleted, AnswersRow, PgDecode, Canonical, Initiated, Issues, FreshDraws;
    var k, id, p := AnswerOf(w, e, w', f);
    assert id in e.trace.multis.ids;
  }

  // So every run can be continued by any acceptable request whose reply can be built until the
  // uploads of all its multipart files have been completed.
  lemma RunCompletes(ws: seq<World>, es: seq<Event>, now: int, files: seq<UploadFile>, lot: Uuid, draws: seq<Uuid>, session: int)
    returns (ws': seq<World>, es': seq<Event>)
    requires Run(ws, es) && Acceptable(ws[|es|].stores, now, files, lot)
    requires FreshDraws(TableOf(ws[|es|]), draws) && |draws| >= |files|
    requires Presentable(files) && AllWorkable(ws[|es|], lot, files)
    ensures Run(ws + ws', es + es') && |ws'| == |es'| > 0
    ensures es'[0].Initiate? && es'[0].files == files && es'[0].lot == lot && es'[0].now == now
    ensures OnlyFinishes(ws'[0], es'[0].trace.multis.ids, session, es'[1..])
    ensures forall f :: Needs(ws[|es|].stores.db, files, f) && IsMulti(f) ==> Completed(ws'[|es'| - 1], now, lot, f)
    ensures ws'[|es'| - 1].stores.db == ws'[0].stores.db && ws'[0].stores.db.blobs == ws[|es|].stores.db.blobs
  {
    hide Step, Inv, Start, Acceptable, FreshDraws, Needs, Presentable, AllWorkable, OnlyFinishes, Completed, Delivers;
    RunInv(ws, es, |es|);
    var e, w := CanInitiate(ws[|es|], now, files, lot, draws);
    var more, events := RequestCompletes(ws[|es|], e, w, session);
    SameBlobs(ws[|es|], e, w);
    assert Path([ws[|es|], w], [e]);
    PathJoins([ws[|es|], w], [e], more, events);
    var all, happened := [ws[|es|], w] + more[1..], [e] + events;
    PathJoins(ws, es, all, happened);
    ws', es' := all[1..], happened;
    assert ws' == [w] + more[1..] && es'[1..] == events;
    assert ws'[|es'| - 1] == more[|events|];
    assert forall f :: Needs(ws[|es|].stores.db, files, f) && IsMulti(f) ==> AsksFor(ws[|es|], e, f);
  }

  lemma SameBlobs(w: World, e: Event, w': World)
    requires e.Initiate? && Step(w, e, w')
    ensures w'.stores.db.blobs == w.stores.db.blobs
  {
  }

  /* ---------- the two ordinary cases ---------- */

  lemma OneKept(db: Db, f: UploadFile)
    requires Needs(db, [f], f)
    ensures FirstOccurrences([f]) == [f] && Duplicates([f]) == []
  {
    assert [f][..0] == [];
  }

  // Resuming: a multipart row with versions left makes the request acceptable, if its upload is
  // still open or its window has lapsed.
  lemma RowIsAcceptable(pre: Stores, now: int, f: UploadFile, lot: Uuid, id: int)
    requires ValidTable(pre.db.table) && IsMulti(f) && Canonical(f.sha256) && Needs(pre.db, [f], f)
    requires PendingFor(pre.db.table, lot, f, id)
    requires var r := pre.db.table.rows[id];
             r.uploadType.MultiUpload? && r.version < MAX_INT32 && (Live(r, now) ==> UploadOpen(r, pre.s3))
    ensures Acceptable(pre, now, [f], lot)
  {
    hide PgDecode, Canonical, IsStored;
    OneKept(pre.db, f);
    assert forall j :: PendingFor(pre.db.table, lot, f, j) ==> j == id;
  }

  // Starting: a known lot without a row for the file makes it acceptable.
  lemma NewIsAcceptable(pre: Stores, now: int, f: UploadFile, lot: Uuid)
    requires lot in pre.db.lots && IsHex(f.sha256) && Needs(pre.db, [f], f) && !HasPending(pre.db.table, lot, f)
    ensures Acceptable(pre, now, [f], lot)
  {
    hide PgDecode, Canonical, IsStored, IsHex;
    OneKept(pre.db, f);
    HexFiles([f]);
    DecodeAll([f]);
    assert f in [f];
  }
}
