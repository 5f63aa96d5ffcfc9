// The upload protocol as a state machine: requests of any number of callers interleaved
// transaction by transaction, part uploads through issued requests that have not expired, and
// completions whose three steps interleave with everything else.
module Protocol {
  import opened Wrappers
  import opened Parts
  import opened Attempts
  import opened ObjectStore
  import opened Database
  import opened Intake
  import opened Uploads
  import opened ImageStore
  import opened Requests
  import opened Completion

  // A completion call under way.
  datatype Session =
    | HasRow(id: int, item: MultipartItem)
    | HasPage(id: int, item: MultipartItem, page: seq<PartInfo>)

  // Microseconds for which a presigned request can be used, fifteen minutes.
  const EXPIRY := 900000000

  // The requests that callers have been given, each with the time it expires, and the clock that
  // decides it.  The times of transactions are those of the database and not tied to that clock.
  datatype World = World(stores: Stores, issued: map<Token, int>, sessions: map<int, Session>, clock: int)

  datatype Event =
    | Initiate(now: int, files: seq<UploadFile>, lot: Uuid, trace: Trace, res: UploadResult)
    | FailInitiate
    | UploadPart(token: Token, etag: Etag)
    | ReadRow(session: int, id: int)
    | ListUploaded(session: int)
    | SendComplete(session: int, parts: seq<CompletedPart>, accepted: bool)
    | CommitAttempt(id: int)
    | ChangeBlobsAndLots
    | Tick(to: int)

  function TableOf(w: World): Table {
    w.stores.db.table
  }

  /* ---------- steps ---------- */

  // Random draws never repeat and are never nil.
  ghost predicate FreshDraws(t: Table, draws: seq<Uuid>) {
    && (forall i, j :: 0 <= i < j < |draws| ==> draws[i] != draws[j])
    && KeysNotNilIn(draws)
    && (forall id :: id in t.rows ==> t.rows[id].storageKey !in draws)
  }

  ghost predicate KeysNotNilIn(draws: seq<Uuid>) {
    NIL_UUID !in draws
  }

  predicate IsMultiToken(urls: seq<PresignedFile>, k: Token) {
    exists p :: p in urls && p.url.MultiUrl? && k in p.url.requests
  }

  // The reply of the request can be built, so its requests reach the caller.
  ghost predicate Deliverable(res: UploadResult) {
    Convertible(res.duplicates) && Convertible(res.alreadyUploaded) && Convertible(FilesOf(res.presigned))
  }

  ghost predicate Delivers(res: UploadResult, k: Token) {
    Deliverable(res) && IsMultiToken(res.presigned, k)
  }

  ghost predicate Issues(issued: map<Token, int>, res: UploadResult, clock: int, issued': map<Token, int>) {
    && (forall k :: k in issued' <==> k in issued || Delivers(res, k))
    && (forall k :: k in issued' ==> if Delivers(res, k) then issued'[k] == clock + EXPIRY else issued'[k] == issued[k])
  }

  ghost predicate InitiateStep(w: World, e: Event, w': World)
    requires e.Initiate?
  {
    && FreshDraws(TableOf(w), e.trace.draws)
    && Initiated(w.stores, e.now, e.files, e.lot, e.trace, w'.stores, e.res)
    && Issues(w.issued, e.res, w.clock, w'.issued)
    && w'.sessions == w.sessions && w'.clock == w.clock
  }

  // A client uses a request it was given before it expires; the store accepts it while the upload
  // is open.
  ghost predicate UploadStep(w: World, token: Token, etag: Etag, w': World) {
    && token in w.issued && w.clock <= w.issued[token] && PartAccepted(w.stores.s3, token)
    && w' == w.(stores := w.stores.(s3 := StorePart(w.stores.s3, token, etag)))
  }

  ghost predicate ReadRowStep(w: World, session: int, id: int, w': World) {
    && ReadItem(TableOf(w), id).Some?
    && w' == w.(sessions := w.sessions[session := HasRow(id, ReadItem(TableOf(w), id).value)])
  }

  ghost predicate ListPartsStep(w: World, session: int, w': World) {
    && session in w.sessions && w.sessions[session].HasRow?
    && var s := w.sessions[session];
       && ListStep(w.stores.s3, s.item).Some?
       && w' == w.(sessions := w.sessions[session := HasPage(s.id, s.item, ListStep(w.stores.s3, s.item).value)])
  }

  // The request that completes the upload is sent with the client's list.  The store accepts it
  // only if it accepts the list; the request may also get lost.
  ghost predicate SendStep(w: World, session: int, parts: seq<CompletedPart>, accepted: bool, w': World) {
    && session in w.sessions && w.sessions[session].HasPage? && Ascending(parts)
    && var s := w.sessions[session];
       && CountMatches(s.item, s.page)
       && s.item.uploadId.Some? && s.item.uploadId.value in w.stores.s3.uploads
       && (accepted ==> Accepts(w.stores.s3.uploads[s.item.uploadId.value], parts))
       && w' == w.(sessions := w.sessions - {session},
                   stores := if accepted then w.stores.(s3 := MarkCompleted(w.stores.s3, s.item.uploadId.value)) else w.stores)
  }

  // The environment commits a row; the trigger sees this update too.
  ghost predicate CommitStep(w: World, id: int, w': World) {
    && id in TableOf(w).rows
    && var t := TableOf(w);
       && Triggered(t.rows[id], t.rows[id].(state := Committed)).Some?
       && w' == w.(stores := w.stores.(db := w.stores.db.(table :=
                     t.(rows := t.rows[id := Triggered(t.rows[id], t.rows[id].(state := Committed)).value]))))
  }

  ghost predicate Step(w: World, e: Event, w': World) {
    match e
    case Initiate(_, _, _, _, _) => InitiateStep(w, e, w')
    case FailInitiate => Aborted(w.stores, w'.stores) && w' == w.(stores := w'.stores)
    case UploadPart(token, etag) => UploadStep(w, token, etag, w')
    case ReadRow(session, id) => ReadRowStep(w, session, id, w')
    case ListUploaded(session) => ListPartsStep(w, session, w')
    case SendComplete(session, parts, accepted) => SendStep(w, session, parts, accepted, w')
    case CommitAttempt(id) => CommitStep(w, id, w')
    case ChangeBlobsAndLots =>
      w' == w.(stores := w.stores.(db := w'.stores.db.(table := TableOf(w), lotImages := w.stores.db.lotImages)))
    case Tick(to) => w.clock <= to && w' == w.(clock := to)
  }

  ghost predicate Start(w: World) {
    && TableOf(w).rows == map[] && w.stores.s3.uploads == map[]
    && w.issued == map[] && w.sessions == map[]
  }

  ghost predicate Run(ws: seq<World>, es: seq<Event>) {
    && |ws| == |es| + 1
    && Start(ws[0])
    && forall i :: 0 <= i < |es| ==> Step(ws[i], es[i], ws[i + 1])
  }

  /* ---------- the invariant ---------- */

  // The nullable columns of a row follow its upload type.
  ghost predicate RowShape(r: Row) {
    && r.storageKey != NIL_UUID && r.fileSize <= MAX_INT32 && r.validUntil.Some?
    && (r.uploadType.MultiUpload? ==>
          r.uploadId.Some? && r.partSize == Some(PART_SIZE) && r.partCount == Some(PartCount(r.fileSize, PART_SIZE)))
    && (r.uploadType.SingleUpload? ==> r.uploadId.None? && r.partSize.None? && r.partCount.None?)
  }

  ghost predicate TableInv(t: Table) {
    && ValidTable(t)
    && (forall id :: id in t.rows ==> RowShape(t.rows[id]))
    && (forall a, b :: a in t.rows && b in t.rows && a != b ==>
          && t.rows[a].storageKey != t.rows[b].storageKey
          && (t.rows[a].uploadId.Some? ==> t.rows[a].uploadId != t.rows[b].uploadId))
  }

  ghost predicate StoreInv(t: Table, s3: S3) {
    && (forall u :: u in s3.uploads ==> u < s3.next)
    && (forall id :: id in t.rows && t.rows[id].uploadId.Some? ==>
          && t.rows[id].uploadId.value in s3.uploads
          && s3.uploads[t.rows[id].uploadId.value].key == t.rows[id].storageKey)
  }

  // The token is for a part of the multipart upload of row id.
  ghost predicate Owns(t: Table, id: int, k: Token) {
    && id in t.rows && t.rows[id].uploadId == Some(k.uploadId) && t.rows[id].storageKey == k.key
    && k.part in PartNumbers(t.rows[id].partCount)
  }

  // Requests have only been issued for parts of multipart rows.
  ghost predicate IssuedInv(t: Table, issued: set<Token>) {
    forall k :: k in issued ==> exists id :: Owns(t, id, k)
  }

  // Only issued parts are ever stored.
  ghost predicate StoredInv(s3: S3, issued: set<Token>) {
    forall u, k :: u in s3.uploads && k in s3.uploads[u].parts ==> Token(s3.uploads[u].key, u, k) in issued
  }

  ghost predicate SessionInv(t: Table, s3: S3, s: Session) {
    && ReadItem(t, s.id) == Some(s.item)
    && (s.HasPage? ==>
          && s.item.uploadId.Some? && s.item.uploadId.value in s3.uploads
          && |NumberSet(s.page)| == |s.page|
          && NumberSet(s.page) <= s3.uploads[s.item.uploadId.value].parts.Keys)
  }

  ghost predicate Inv(w: World) {
    var t, s3 := TableOf(w), w.stores.s3;
    && TableInv(t) && StoreInv(t, s3) && IssuedInv(t, w.issued.Keys) && StoredInv(s3, w.issued.Keys)
    && forall x :: x in w.sessions ==> SessionInv(t, s3, w.sessions[x])
  }

  // What no step takes back.  The version is a stamp: a row that still has it is the same row.
  ghost predicate RowEvolves(r: Row, r': Row) {
    && SameIdentity(r, r') && r'.partSize == r.partSize && r'.partCount == r.partCount
    && r.version <= r'.version && (r'.version == r.version ==> r' == r)
    && (r.validUntil.Some? ==> r'.validUntil.Some? && r.validUntil.value <= r'.validUntil.value)
    && (r.state.Committed? ==> r'.state.Committed?)
  }

  ghost predicate Evolves(w: World, w': World) {
    && (forall id :: id in TableOf(w).rows ==> id in TableOf(w').rows && RowEvolves(TableOf(w).rows[id], TableOf(w').rows[id]))
    && Grows(w.stores.s3, w'.stores.s3)
    && w.issued.Keys <= w'.issued.Keys && w.clock <= w'.clock
  }

  /* ---------- one upsert keeps the table invariant ---------- */

  ghost predicate ProposalShape(p: Proposal) {
    && p.storageKey != NIL_UUID && p.fileSize <= MAX_INT32
    && (p.uploadType.MultiUpload? ==> p.uploadId.Some? && p.partSize == Some(PART_SIZE))
    && (p.uploadType.SingleUpload? ==> p.uploadId.None? && p.partSize.None?)
  }

  // Proposals bring storage keys and upload ids of their own.
  ghost predicate FreshProposals(t: Table, props: seq<Proposal>) {
    && (forall i :: 0 <= i < |props| ==> ProposalShape(props[i]))
    && (forall i, j :: 0 <= i < j < |props| ==>
          && props[i].storageKey != props[j].storageKey
          && (props[i].uploadId.Some? ==> props[i].uploadId != props[j].uploadId))
    && (forall i, id :: 0 <= i < |props| && id in t.rows ==>
          && props[i].storageKey != t.rows[id].storageKey
          && (props[i].uploadId.Some? ==> props[i].uploadId != t.rows[id].uploadId))
  }

  ghost predicate InsertedAt(t: Table, now: int, props: seq<Proposal>, u: Upserted, id: int, i: int) {
    && 0 <= i < |u.ids| == |props| && u.ids[i] == id && id !in t.rows
    && id in u.table.rows && u.table.rows[id] == InsertedRow(props[i], now)
  }

  // A row after an upsert is an older row, evolved, or the row of one of the proposals.
  lemma RowOrigin(t: Table, now: int, c: SetClause, props: seq<Proposal>, u: Upserted, id: int)
    requires TableInv(t) && UpsertEffect(t, now, c, props, u) && id in u.table.rows
    requires c.RenewWindow? ==> c.partSize == PART_SIZE
    requires c.RenewWindow? && id in u.ids ==> u.table.rows[id].uploadId.Some?
    ensures id in t.rows ==> RowEvolves(t.rows[id], u.table.rows[id]) && RowShape(u.table.rows[id])
    ensures id !in t.rows ==> exists i :: InsertedAt(t, now, props, u, id, i)
  {
    if id in u.ids {
      var i :| 0 <= i < |u.ids| && u.ids[i] == id;
      assert Settled(t, now, c, props[i], id, u.table.rows[id]);
      if id in t.rows {
        assert RowShape(t.rows[id]);
        UpdateKeepsIdentity(c, t.rows[id], now);
        VersionBump(c, t.rows[id], now);
      } else {
        assert InsertedAt(t, now, props, u, id, i);
      }
    }
  }

  // In the multipart statement every touched row has an upload id.
  ghost predicate TouchedNotNull(c: SetClause, u: Upserted) {
    c.RenewWindow? ==> c.partSize == PART_SIZE && forall id :: id in u.ids && id in u.table.rows ==> u.table.rows[id].uploadId.Some?
  }

  lemma UpsertKeepsTableInv(t: Table, now: int, c: SetClause, props: seq<Proposal>, u: Upserted)
    requires TableInv(t) && UpsertEffect(t, now, c, props, u) && FreshProposals(t, props) && TouchedNotNull(c, u)
    ensures TableInv(u.table)
    ensures forall id :: id in t.rows ==> id in u.table.rows && RowEvolves(t.rows[id], u.table.rows[id])
  {
    forall id | id in u.table.rows
      ensures RowShape(u.table.rows[id])
      ensures id in t.rows ==> RowEvolves(t.rows[id], u.table.rows[id])
      ensures id !in t.rows ==> exists i :: InsertedAt(t, now, props, u, id, i)
    {
      RowOrigin(t, now, c, props, u, id);
    }
    forall a, b | a in u.table.rows && b in u.table.rows && a != b
      ensures u.table.rows[a].storageKey != u.table.rows[b].storageKey
      ensures u.table.rows[a].uploadId.Some? ==> u.table.rows[a].uploadId != u.table.rows[b].uploadId
    {
      RowsApart(t, now, props, u, a, b);
    }
  }

  lemma RowsApart(t: Table, now: int, props: seq<Proposal>, u: Upserted, a: int, b: int)
    requires TableInv(t) && FreshProposals(t, props) && a in u.table.rows && b in u.table.rows && a != b
    requires a in t.rows ==> RowEvolves(t.rows[a], u.table.rows[a])
    requires b in t.rows ==> RowEvolves(t.rows[b], u.table.rows[b])
    requires a !in t.rows ==> exists i :: InsertedAt(t, now, props, u, a, i)
    requires b !in t.rows ==> exists i :: InsertedAt(t, now, props, u, b, i)
    ensures u.table.rows[a].storageKey != u.table.rows[b].storageKey
    ensures u.table.rows[a].uploadId.Some? ==> u.table.rows[a].uploadId != u.table.rows[b].uploadId
  {
    if a !in t.rows {
      var i :| InsertedAt(t, now, props, u, a, i);
      if b !in t.rows {
        var j :| InsertedAt(t, now, props, u, b, j);
        assert i != j;
      }
    } else if b !in t.rows {
      var j :| InsertedAt(t, now, props, u, b, j);
    }
  }
}
