// The initiate step keeps the protocol invariant.
module ProtocolInitiate {
  import opened Wrappers
  import opened Hex
  import opened Parts
  import opened Attempts
  import opened ObjectStore
  import opened Database
  import opened Intake
  import opened Uploads
  import opened ImageStore
  import opened Requests
  import opened Protocol

  lemma DrawsOf(w: Trace)
    requires EnoughDraws(w)
    ensures |MultiKeys(w)| == |Multis(w.needed)| && |SingleKeys(w)| == |Singles(w.needed)|
    ensures forall i :: 0 <= i < |MultiKeys(w)| ==> MultiKeys(w)[i] == w.draws[i] && MultiKeys(w)[i] in w.draws
    ensures forall i :: 0 <= i < |SingleKeys(w)| ==>
              SingleKeys(w)[i] == w.draws[|Multis(w.needed)| + i] && SingleKeys(w)[i] in w.draws
  {
  }

  lemma SinglesFresh(t: Table, db: Db, s3: S3, now: int, lot: Uuid, w: Trace)
    requires t == db.table && FreshDraws(t, w.draws) && UpsertsEffect(db, s3, now, lot, w)
    ensures FreshProposals(t, SingleProposals(w, lot))
  {
    hide PgDecode, Filter, UpsertEffect;
    DrawsOf(w);
    var props := SingleProposals(w, lot);
    forall i | 0 <= i < |props|
      ensures ProposalShape(props[i]) && props[i].uploadId.None? && props[i].storageKey == SingleKeys(w)[i]
    {
      SingleColumnsZip(w.needed, SingleKeys(w), lot, i);
    }
  }

  // After the single stage no row has a multipart key or upload id of this request.
  lemma SinglesLeaveMultiKeys(t: Table, db: Db, s3: S3, now: int, lot: Uuid, w: Trace, id: int)
    requires t == db.table && TableInv(t) && StoreInv(t, s3) && FreshDraws(t, w.draws)
    requires UpsertsEffect(db, s3, now, lot, w) && id in w.singles.table.rows
    ensures w.singles.table.rows[id].storageKey !in MultiKeys(w)
    ensures w.singles.table.rows[id].uploadId.Some? ==> w.singles.table.rows[id].uploadId.value < s3.next
  {
    hide PgDecode, Filter, UpsertEffect;
    DrawsOf(w);
    var props := SingleProposals(w, lot);
    RowOrigin(t, now, KeepStorageKey, props, w.singles, id);
    if id !in t.rows {
      var i :| InsertedAt(t, now, props, w.singles, id, i);
      SingleColumnsZip(w.needed, SingleKeys(w), lot, i);
    }
  }

  lemma MultisFresh(t: Table, db: Db, s3: S3, now: int, lot: Uuid, w: Trace)
    requires t == db.table && TableInv(t) && StoreInv(t, s3) && FreshDraws(t, w.draws)
    requires UpsertsEffect(db, s3, now, lot, w)
    ensures FreshProposals(w.singles.table, MultiProposals(w, s3, lot))
  {
    hide PgDecode, Filter, UpsertEffect;
    DrawsOf(w);
    var props := MultiProposals(w, s3, lot);
    forall i | 0 <= i < |props|
      ensures ProposalShape(props[i]) && props[i].uploadId == Some(s3.next + i) && props[i].storageKey == MultiKeys(w)[i]
    {
      MultiColumnsZip(w.needed, MultiKeys(w), s3, lot, i);
    }
    forall id | id in w.singles.table.rows
      ensures w.singles.table.rows[id].storageKey !in MultiKeys(w)
      ensures w.singles.table.rows[id].uploadId.Some? ==> w.singles.table.rows[id].uploadId.value < s3.next
    {
      SinglesLeaveMultiKeys(t, db, s3, now, lot, w, id);
    }
  }

  // No returned row is null, so every row the multipart statement touched has an upload id.
  lemma ReturnedNotNull(w: Trace, now: int)
    requires RowsIn(w.multis.table, w.multis.ids) && forall m :: m in Returned(w, now) ==> !HasNull(m)
    ensures TouchedNotNull(RenewWindow(PART_SIZE), w.multis)
  {
    forall id | id in w.multis.ids
      ensures w.multis.table.rows[id].uploadId.Some?
    {
      var i :| 0 <= i < |w.multis.ids| && w.multis.ids[i] == id;
      assert Returned(w, now)[i] in Returned(w, now);
    }
  }

  // The table after both statements, when none of the returned rows is null.
  lemma UpsertsKeepTableInv(db: Db, s3: S3, now: int, lot: Uuid, w: Trace)
    requires TableInv(db.table) && StoreInv(db.table, s3) && FreshDraws(db.table, w.draws)
    requires UpsertsEffect(db, s3, now, lot, w) && TouchedNotNull(RenewWindow(PART_SIZE), w.multis)
    ensures TableInv(w.singles.table) && TableInv(w.multis.table)
    ensures forall id :: id in db.table.rows ==> id in w.singles.table.rows && RowEvolves(db.table.rows[id], w.singles.table.rows[id])
    ensures forall id :: id in w.singles.table.rows ==>
              id in w.multis.table.rows && RowEvolves(w.singles.table.rows[id], w.multis.table.rows[id])
  {
    hide UpsertEffect, FreshProposals, TableInv;
    SinglesFresh(db.table, db, s3, now, lot, w);
    UpsertKeepsTableInv(db.table, now, KeepStorageKey, SingleProposals(w, lot), w.singles);
    MultisFresh(db.table, db, s3, now, lot, w);
    UpsertKeepsTableInv(w.singles.table, now, RenewWindow(PART_SIZE), MultiProposals(w, s3, lot), w.multis);
  }

  lemma InsertedSinglesHaveNoUpload(db: Db, s3: S3, now: int, lot: Uuid, w: Trace)
    requires TableInv(db.table) && UpsertsEffect(db, s3, now, lot, w)
    ensures forall id :: id in w.singles.table.rows && id !in db.table.rows ==> w.singles.table.rows[id].uploadId.None?
  {
    hide PgDecode, Filter, UpsertEffect;
    var props := SingleProposals(w, lot);
    forall id | id in w.singles.table.rows && id !in db.table.rows
      ensures w.singles.table.rows[id].uploadId.None?
    {
      RowOrigin(db.table, now, KeepStorageKey, props, w.singles, id);
      var j :| InsertedAt(db.table, now, props, w.singles, id, j);
      SingleColumnsZip(w.needed, SingleKeys(w), lot, j);
    }
  }

  // Where a row with an upload id comes from: it was there before the request, or it is the row
  // inserted for a multipart file, with the upload created for it.
  lemma MultiRowOrigin(db: Db, s3: S3, now: int, lot: Uuid, w: Trace, id: int)
    requires TableInv(db.table) && StoreInv(db.table, s3) && FreshDraws(db.table, w.draws)
    requires UpsertsEffect(db, s3, now, lot, w) && TouchedNotNull(RenewWindow(PART_SIZE), w.multis)
    requires id in w.multis.table.rows && id !in db.table.rows && w.multis.table.rows[id].uploadId.Some?
    ensures id !in w.singles.table.rows
    ensures exists i :: 0 <= i < |w.multis.ids| == |MultiKeys(w)| && w.multis.ids[i] == id
                        && w.multis.table.rows[id].storageKey == MultiKeys(w)[i]
                        && w.multis.table.rows[id].uploadId == Some(s3.next + i)
  {
    hide PgDecode, Filter, UpsertEffect, TableInv;
    DrawsOf(w);
    UpsertsKeepTableInv(db, s3, now, lot, w);
    InsertedSinglesHaveNoUpload(db, s3, now, lot, w);
    assert id !in w.singles.table.rows;
    var props := MultiProposals(w, s3, lot);
    RowOrigin(w.singles.table, now, RenewWindow(PART_SIZE), props, w.multis, id);
    var i :| InsertedAt(w.singles.table, now, props, w.multis, id, i);
    MultiColumnsZip(w.needed, MultiKeys(w), s3, lot, i);
  }

  lemma InitiateStoreInv(db: Db, s3: S3, now: int, lot: Uuid, w: Trace)
    requires TableInv(db.table) && StoreInv(db.table, s3) && FreshDraws(db.table, w.draws)
    requires UpsertsEffect(db, s3, now, lot, w) && TouchedNotNull(RenewWindow(PART_SIZE), w.multis)
    ensures StoreInv(w.multis.table, CreateAll(s3, MultiKeys(w)))
    ensures Grows(s3, CreateAll(s3, MultiKeys(w)))
  {
    hide PgDecode, Filter, UpsertEffect, TableInv, FreshDraws;
    CreateAllEffect(s3, MultiKeys(w));
    UpsertsKeepTableInv(db, s3, now, lot, w);
    var t, s3' := w.multis.table, CreateAll(s3, MultiKeys(w));
    forall id | id in t.rows && t.rows[id].uploadId.Some?
      ensures t.rows[id].uploadId.value in s3'.uploads
      ensures s3'.uploads[t.rows[id].uploadId.value].key == t.rows[id].storageKey
    {
      if id !in db.table.rows {
        MultiRowOrigin(db, s3, now, lot, w, id);
      }
    }
  }

  // The tokens a returned row is answered with.
  lemma RowTokens(w: Trace, now: int, s3: S3, urls: seq<PresignedFile>, single: seq<PresignedFile>, multi: seq<PresignedFile>, k: Token)
    requires RowsIn(w.singles.table, w.singles.ids) && RowsIn(w.multis.table, w.multis.ids)
    requires PresignedInStages(now, w, s3, single, multi) && urls == single + multi
    ensures IsMultiToken(urls, k) <==>
            exists i :: 0 <= i < |w.multis.ids| && k in UrlOf(Returned(w, now)[i], Multis(w.needed), s3).url.requests
  {
    var rows := Returned(w, now);
    var answers := MultiUrls(rows, Multis(w.needed), s3);
    if IsMultiToken(urls, k) {
      var p :| p in urls && p.url.MultiUrl? && k in p.url.requests;
      assert p in multi;
      PermutationMember(multi, answers, p);
      var i :| 0 <= i < |answers| && answers[i] == p;
    }
    if i :| 0 <= i < |w.multis.ids| && k in UrlOf(rows[i], Multis(w.needed), s3).url.requests {
      assert answers[i] in answers;
      PermutationMember(multi, answers, answers[i]);
      assert answers[i] in urls;
    }
  }

  // An answer only carries tokens its row owns.
  lemma AnswerTokens(w: Trace, now: int, s3: S3, i: nat, k: Token)
    requires RowsIn(w.multis.table, w.multis.ids) && i < |w.multis.ids|
    requires w.multis.table.rows[w.multis.ids[i]].uploadId.Some?
    requires k in UrlOf(Returned(w, now)[i], Multis(w.needed), s3).url.requests
    ensures Owns(w.multis.table, w.multis.ids[i], k)
  {
    TokensAreParts(Returned(w, now)[i], s3, Multis(w.needed), k);
  }

  lemma InitiateIssuedInv(pre: World, e: Event, post: World)
    requires e.Initiate? && Inv(pre) && InitiateStep(pre, e, post)
    requires UpsertsEffect(pre.stores.db, pre.stores.s3, e.now, e.lot, e.trace)
    requires TouchedNotNull(RenewWindow(PART_SIZE), e.trace.multis)
    ensures IssuedInv(TableOf(post), post.issued.Keys)
  {
    hide PgDecode, Filter, UpsertsEffect, TableInv, StoreInv, StoredInv, SessionInv, FreshDraws, Statement, Classified, Deliverable;
    var w, now, t, s3 := e.trace, e.now, TableOf(pre), pre.stores.s3;
    var t' := TableOf(post);
    var single, multi :| PresignedInStages(now, w, post.stores.s3, single, multi) && e.res.presigned == single + multi;
    UpsertsKeepTableInv(pre.stores.db, s3, now, e.lot, w);
    forall k | k in post.issued
      ensures exists id :: Owns(t', id, k)
    {
      RowTokens(w, now, post.stores.s3, e.res.presigned, single, multi, k);
      if k in pre.issued {
        var id :| Owns(t, id, k);
        assert Owns(t', id, k);
      } else {
        var i :| 0 <= i < |w.multis.ids| && k in UrlOf(Returned(w, now)[i], Multis(w.needed), post.stores.s3).url.requests;
        AnswerTokens(w, now, post.stores.s3, i, k);
        assert Owns(t', w.multis.ids[i], k);
      }
    }
  }

  lemma SessionKept(t: Table, s3: S3, t': Table, s3': S3, s: Session)
    requires SessionInv(t, s3, s) && Grows(s3, s3')
    requires forall id :: id in t.rows ==> id in t'.rows && RowEvolves(t.rows[id], t'.rows[id])
    ensures SessionInv(t', s3', s)
  {
    if s.HasPage? {
      var u := s.item.uploadId.value;
      assert u in s3.uploads && u in s3'.uploads;
    }
  }

  lemma InitiateStoredInv(pre: World, e: Event, post: World)
    requires e.Initiate? && Inv(pre) && InitiateStep(pre, e, post)
    ensures StoredInv(post.stores.s3, post.issued.Keys)
  {
    CreateAllEffect(pre.stores.s3, MultiKeys(e.trace));
    var s3, s3' := pre.stores.s3, post.stores.s3;
    forall u, k | u in s3'.uploads && k in s3'.uploads[u].parts
      ensures Token(s3'.uploads[u].key, u, k) in post.issued
    {
      assert u !in Interval(s3.next, s3'.next - 1);
      assert u in s3.uploads && s3'.uploads[u] == s3.uploads[u];
    }
  }

  lemma InitiateKeepsInv(pre: World, e: Event, post: World)
    requires e.Initiate? && Inv(pre) && InitiateStep(pre, e, post)
    ensures Inv(post) && Evolves(pre, post)
  {
    hide PgDecode, Filter, UpsertsEffect, TableInv, StoreInv, IssuedInv, StoredInv, SessionInv, FreshDraws, Upserts, Classified;
    var w := e.trace;
    ValidFromInv(TableOf(pre));
    UpsertsMeetEffect(pre.stores.db, pre.stores.s3, e.now, e.lot, w);
    NotNullFromPresigned(pre.stores, e.now, e.files, e.lot, w, post.stores, e.res);
    UpsertsKeepTableInv(pre.stores.db, pre.stores.s3, e.now, e.lot, w);
    InitiateStoreInv(pre.stores.db, pre.stores.s3, e.now, e.lot, w);
    InitiateIssuedInv(pre, e, post);
    InitiateStoredInv(pre, e, post);
    forall x | x in post.sessions
      ensures SessionInv(TableOf(post), post.stores.s3, post.sessions[x])
    {
      SessionKept(TableOf(pre), pre.stores.s3, TableOf(post), post.stores.s3, pre.sessions[x]);
    }
  }

  lemma ValidFromInv(t: Table)
    requires TableInv(t)
    ensures ValidTable(t)
  {
  }

  lemma NotNullFromPresigned(pre: Stores, now: int, files: seq<UploadFile>, lot: Uuid, w: Trace, post: Stores, res: UploadResult)
    requires Initiated(pre, now, files, lot, w, post, res)
    ensures TouchedNotNull(RenewWindow(PART_SIZE), w.multis)
  {
    ReturnedNotNull(w, now);
  }
}
