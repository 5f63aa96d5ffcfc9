// The database: its tables, the effect of the program's statements on them, and the
// query object that runs the statements.
module Database {
  import opened Wrappers
  import opened Hex
  import opened Parts
  import opened Attempts

  datatype Blob = Blob(id: int, completed: bool)

  datatype LotImage = LotImage(lot: Uuid, blobId: int, fileName: string)

  datatype Db = Db(table: Table, blobs: map<Bytes, Blob>, lots: set<Uuid>, lotImages: seq<LotImage>)

  /* ---------- identical blobs ---------- */

  // The digest belongs to a blob whose upload is complete.
  predicate IsStored(blobs: map<Bytes, Blob>, sha256: string) {
    && PgDecode(sha256).Some?
    && PgDecode(sha256).value in blobs
    && blobs[PgDecode(sha256).value].completed
  }

  // The text the database returns for a decodable digest.
  function ReturnedSha(sha256: string): string
    requires PgDecode(sha256).Some?
  {
    Encode(PgDecode(sha256).value)
  }

  // The rows the statement adds to lot_images.
  function LotImagesFor(blobs: map<Bytes, Blob>, lot: Uuid, sha256s: seq<string>, names: seq<string>): seq<LotImage>
    requires |sha256s| == |names|
  {
    if sha256s == [] then []
    else
      var n := |sha256s| - 1;
      LotImagesFor(blobs, lot, sha256s[..n], names[..n]) +
      (if IsStored(blobs, sha256s[n])
       then [LotImage(lot, blobs[PgDecode(sha256s[n]).value].id, names[n])] else [])
  }

  function ExistingShas(blobs: map<Bytes, Blob>, sha256s: seq<string>): seq<string> {
    if sha256s == [] then []
    else
      var n := |sha256s| - 1;
      ExistingShas(blobs, sha256s[..n]) +
      (if IsStored(blobs, sha256s[n]) then [ReturnedSha(sha256s[n])] else [])
  }

  // The returned digests are the canonical texts of those asked for whose blob has been completed.
  lemma {:induction false} ExistingShasContain(blobs: map<Bytes, Blob>, sha256s: seq<string>, s: string)
    ensures s in ExistingShas(blobs, sha256s) <==>
            exists x :: x in sha256s && PgDecode(x).Some? && PgDecode(x).value in blobs && blobs[PgDecode(x).value].completed
                        && Encode(PgDecode(x).value) == s
  {
    StoredShasContain(blobs, sha256s, s);
    if x :| x in sha256s && IsStored(blobs, x) && ReturnedSha(x) == s {
      assert PgDecode(x).Some?;
    }
  }

  lemma {:induction false} StoredShasContain(blobs: map<Bytes, Blob>, sha256s: seq<string>, s: string)
    ensures s in ExistingShas(blobs, sha256s) <==> exists x :: x in sha256s && IsStored(blobs, x) && ReturnedSha(x) == s
  {
    hide PgDecode, Encode;
    if sha256s != [] {
      var n := |sha256s| - 1;
      StoredShasContain(blobs, sha256s[..n], s);
      assert sha256s == sha256s[..n] + [sha256s[n]];
    }
  }

  // The rows added to lot_images are one for each digest whose blob has been completed, in order,
  // each with the lot, the blob's id and the name sent with the digest.
  lemma LotImagesInOrder(blobs: map<Bytes, Blob>, lot: Uuid, sha256s: seq<string>, names: seq<string>)
    requires |sha256s| == |names|
    ensures var completed := (k: int) => 0 <= k < |sha256s| && PgDecode(sha256s[k]).Some?
                                         && PgDecode(sha256s[k]).value in blobs && blobs[PgDecode(sha256s[k]).value].completed;
            var added := LotImagesFor(blobs, lot, sha256s, names);
            && |added| == CountBelow(completed, |sha256s|)
            && forall i :: 0 <= i < |sha256s| && completed(i) ==>
                 && CountBelow(completed, i) < |added|
                 && added[CountBelow(completed, i)] == LotImage(lot, blobs[PgDecode(sha256s[i]).value].id, names[i])
  {
    hide PgDecode;
    var completed := (k: int) => 0 <= k < |sha256s| && PgDecode(sha256s[k]).Some?
                                 && PgDecode(sha256s[k]).value in blobs && blobs[PgDecode(sha256s[k]).value].completed;
    assert forall k :: 0 <= k < |sha256s| ==> completed(k) == IsStored(blobs, sha256s[k]);
    assert sha256s[..|sha256s|] == sha256s && names[..|names|] == names;
    LotImagesCount(blobs, lot, sha256s, names, completed, |sha256s|);
    forall i | 0 <= i < |sha256s| && completed(i)
      ensures var added, place := LotImagesFor(blobs, lot, sha256s, names), CountBelow(completed, i);
              place < |added| && added[place] == LotImage(lot, blobs[PgDecode(sha256s[i]).value].id, names[i])
    {
      LotImagesPlaces(blobs, lot, sha256s, names, completed, i, |sha256s|);
    }
  }

  lemma {:induction false} LotImagesCount(blobs: map<Bytes, Blob>, lot: Uuid, sha256s: seq<string>, names: seq<string>,
                                          stored: int -> bool, n: nat)
    requires |sha256s| == |names| && n <= |sha256s| && forall k :: 0 <= k < |sha256s| ==> stored(k) == IsStored(blobs, sha256s[k])
    ensures |LotImagesFor(blobs, lot, sha256s[..n], names[..n])| == CountBelow(stored, n)
  {
    if n > 0 {
      LotImagesCount(blobs, lot, sha256s, names, stored, n - 1);
      assert sha256s[..n][..n - 1] == sha256s[..n - 1] && names[..n][..n - 1] == names[..n - 1];
    }
  }

  lemma {:induction false} LotImagesPlaces(blobs: map<Bytes, Blob>, lot: Uuid, sha256s: seq<string>, names: seq<string>,
                                           stored: int -> bool, i: nat, n: nat)
    requires |sha256s| == |names| && i < n <= |sha256s| && forall k :: 0 <= k < |sha256s| ==> stored(k) == IsStored(blobs, sha256s[k])
    requires stored(i)
    ensures IsStored(blobs, sha256s[i])
    ensures var added, place := LotImagesFor(blobs, lot, sha256s[..n], names[..n]), CountBelow(stored, i);
            place < |added| && added[place] == LotImage(lot, blobs[PgDecode(sha256s[i]).value].id, names[i])
    decreases n
  {
    hide PgDecode;
    assert sha256s[..n][..n - 1] == sha256s[..n - 1] && names[..n][..n - 1] == names[..n - 1];
    LotImagesCount(blobs, lot, sha256s, names, stored, n - 1);
    if i < n - 1 {
      LotImagesPlaces(blobs, lot, sha256s, names, stored, i, n - 1);
    }
  }

  /* ---------- the two upserts ---------- */

  predicate AllDecode(sha256s: seq<string>) {
    forall i :: 0 <= i < |sha256s| ==> PgDecode(sha256s[i]).Some?
  }

  // The parallel arrays of one statement; the multipart statement also sends upload ids.
  datatype Columns = Columns(
    sha256s: seq<string>, sizes: seq<int>, names: seq<string>, keys: seq<Uuid>, uploadIds: seq<UploadId>)

  predicate Aligned(cols: Columns, multi: bool) {
    && |cols.sizes| == |cols.names| == |cols.keys| == |cols.sha256s|
    && (multi ==> |cols.uploadIds| == |cols.sha256s|)
  }

  // Row i of the unnested arrays.
  function ProposalAt(cols: Columns, multi: bool, partSize: int, lot: Uuid, i: nat): Proposal
    requires Aligned(cols, multi) && i < |cols.sha256s| && PgDecode(cols.sha256s[i]).Some?
  {
    Proposal(PgDecode(cols.sha256s[i]).value, cols.sizes[i],
             if multi then MultiUpload else SingleUpload,
             if multi then Some(cols.uploadIds[i]) else None,
             if multi then Some(partSize) else None,
             lot, cols.names[i], cols.keys[i])
  }

  function Proposals(cols: Columns, multi: bool, partSize: int, lot: Uuid): (r: seq<Proposal>)
    requires Aligned(cols, multi) && AllDecode(cols.sha256s)
    ensures |r| == |cols.sha256s|
    ensures forall i :: 0 <= i < |r| ==> r[i] == ProposalAt(cols, multi, partSize, lot, i)
  {
    seq(|cols.sha256s|, i requires 0 <= i < |cols.sha256s| => ProposalAt(cols, multi, partSize, lot, i))
  }

  function ClauseOf(multi: bool, partSize: int): SetClause {
    if multi then RenewWindow(partSize) else KeepStorageKey
  }

  // The smallint[] cast of the returned parts fails on a larger count.
  ghost predicate PartsFit(t: Table, ids: seq<int>) {
    forall i :: 0 <= i < |ids| && ids[i] in t.rows && t.rows[ids[i]].partCount.Some? ==>
      t.rows[ids[i]].partCount.value <= MAX_SMALLINT
  }

  ghost predicate SomeInserted(t: Table, ids: seq<int>) {
    exists i :: 0 <= i < |ids| && ids[i] !in t.rows
  }

  // One upsert statement.
  ghost function Statement(db: Db, now: int, multi: bool, partSize: int, lot: Uuid, cols: Columns): Outcome<Upserted>
    requires Aligned(cols, multi)
  {
    if !AllDecode(cols.sha256s) then Err(Internal)
    else match Upsert(db.table, now, ClauseOf(multi, partSize), Proposals(cols, multi, partSize, lot))
      case None => Err(Internal)
      case Some(u) =>
        if multi && !PartsFit(u.table, u.ids) then Err(Internal)
        else if lot !in db.lots && SomeInserted(db.table, u.ids)
        then Err(UnknownLot(if multi then AtMultiUpload else AtSingleUpload))
        else Ok(u)
  }

  datatype SingleRow = SingleRow(sha256: string, storageKey: Uuid)

  function SingleRowOf(r: Row): SingleRow {
    SingleRow(Encode(r.sha), r.storageKey)
  }

  ghost predicate RowsIn(t: Table, ids: seq<int>) {
    forall i :: 0 <= i < |ids| ==> ids[i] in t.rows
  }

  // The rows each statement returns, in the order of its proposals.
  ghost function SingleRows(u: Upserted): (r: seq<SingleRow>)
    requires RowsIn(u.table, u.ids)
    ensures |r| == |u.ids| && forall i :: 0 <= i < |r| ==> r[i] == SingleRowOf(u.table.rows[u.ids[i]])
  {
    seq(|u.ids|, i requires 0 <= i < |u.ids| => SingleRowOf(u.table.rows[u.ids[i]]))
  }

  ghost function MultiRows(t: Table, u: Upserted, now: int): (r: seq<MultiRow>)
    requires RowsIn(u.table, u.ids)
    ensures |r| == |u.ids| && forall i :: 0 <= i < |r| ==> r[i] == ReturnedRow(t, u.ids[i], u.table.rows[u.ids[i]], now)
  {
    seq(|u.ids|, i requires 0 <= i < |u.ids| => ReturnedRow(t, u.ids[i], u.table.rows[u.ids[i]], now))
  }

  datatype MultipartItem = MultipartItem(uploadId: Option<UploadId>, storageKey: Uuid, partCount: Option<int>)

  function ReadItem(t: Table, id: int): Option<MultipartItem> {
    if id in t.rows then Some(MultipartItem(t.rows[id].uploadId, t.rows[id].storageKey, t.rows[id].partCount)) else None
  }

  // The identity sequence is the only thing a rolled back transaction leaves behind.
  ghost predicate RolledBack(db: Db, db': Db) {
    && db' == db.(table := Table(db.table.rows, db'.table.nextId))
    && db'.table.nextId >= db.table.nextId
  }

  // The query object.  Any statement may fail for reasons of the network or the server, unless
  // the database is reliable; then a statement only fails when its data make it fail.
  class Queries {
    const reliable: bool
    var rows: map<int, Row>
    var nextId: int
    var blobs: map<Bytes, Blob>
    var lots: set<Uuid>
    var lotImages: seq<LotImage>

    function View(): Db
      reads this
    {
      Db(Table(rows, nextId), blobs, lots, lotImages)
    }

    ghost predicate Valid()
      reads this
    {
      ValidTable(Table(rows, nextId))
    }

    constructor (lots: set<Uuid>, reliable: bool)
      ensures Valid() && View() == Db(Table(map[], 1), map[], lots, []) && this.reliable == reliable
    {
      this.reliable := reliable;
      this.lots := lots;
      rows, nextId, blobs, lotImages := map[], 1, map[], [];
    }

    method Rollback(saved: Db)
      requires ValidTable(saved.table) && saved.table.nextId <= nextId
      modifies this
      ensures Valid() && RolledBack(saved, View())
    {
      rows, blobs, lots, lotImages := saved.table.rows, saved.blobs, saved.lots, saved.lotImages;
      assert forall sha, lot, id :: PendingAt(Table(rows, nextId), sha, lot, id) ==> PendingAt(saved.table, sha, lot, id);
    }

    method InsertIdenticalImageBlobsToLotImages(lot: Uuid, sha256s: seq<string>, names: seq<string>)
      returns (r: Outcome<seq<string>>)
      requires Valid() && |sha256s| == |names|
      modifies this
      ensures Valid() && nextId == old(nextId)
      ensures r.Ok? ==>
                && View() == old(View()).(lotImages := old(lotImages) + LotImagesFor(blobs, lot, sha256s, names))
                && r.value == ExistingShas(old(blobs), sha256s)
                && (r.value != [] ==> lot in lots)
      ensures !r.Panic?
      ensures r.Err? && r.fault != Internal ==>
                r.fault == UnknownLot(AtLotImages) && lot !in old(lots) && ExistingShas(old(blobs), sha256s) != []
      ensures reliable && r == Err(Internal) ==> !AllDecode(sha256s)
    {
      var inserted: seq<LotImage>, shas: seq<string> := [], [];
      var i := 0;
      while i < |sha256s|
        invariant 0 <= i <= |sha256s|
        invariant inserted == LotImagesFor(blobs, lot, sha256s[..i], names[..i])
        invariant shas == ExistingShas(blobs, sha256s[..i])
      {
        assert sha256s[..i + 1][..i] == sha256s[..i] && names[..i + 1][..i] == names[..i];
        if IsStored(blobs, sha256s[i]) {
          inserted := inserted + [LotImage(lot, blobs[PgDecode(sha256s[i]).value].id, names[i])];
          shas := shas + [ReturnedSha(sha256s[i])];
        }
        i := i + 1;
      }
      assert sha256s[..i] == sha256s && names[..i] == names;
      // A digest that does not decode makes the join fail, if it is evaluated at all.
      var fails := *;
      if fails && (!reliable || !AllDecode(sha256s)) {
        return Err(Internal);
      }
      if shas != [] && lot !in lots {
        return Err(UnknownLot(AtLotImages));
      }
      lotImages := lotImages + inserted;
      r := Ok(shas);
    }

    // INSERT ... ON CONFLICT (sha256, lot_id) WHERE upload_state = 'pending' DO UPDATE.
    method UpsertRows(now: int, c: SetClause, props: seq<Proposal>) returns (ids: Option<seq<int>>)
      requires Valid()
      modifies this`rows, this`nextId
      ensures Valid() && nextId >= old(nextId)
      ensures ids.None? <==> Upsert(old(View()).table, now, c, props).None?
      ensures ids.Some? ==> Upsert(old(View()).table, now, c, props) == Some(Upserted(View().table, ids.value))
    {
      hide UpdateRow, InsertedRow;
      ghost var t := View().table;
      var done: seq<int> := [];
      var i := 0;
      while i < |props|
        invariant 0 <= i <= |props|
        invariant Upsert(t, now, c, props[..i]) == Some(Upserted(Table(rows, nextId), done))
        invariant Valid() && nextId >= old(nextId)
      {
        var p := props[i];
        ghost var here := View().table;
        assert props[..i + 1][..i] == props[..i];
        assert Upsert(t, now, c, props[..i + 1]) == UpsertNext(here, done, now, c, p);
        if id :| id in rows && PendingAt(Table(rows, nextId), p.sha, p.lot, id) {
          ArbiterUnique(here, p.sha, p.lot, id);
          if id in done || UpdateRow(c, rows[id], now).None? {
            UpsertFailsEarly(t, now, c, props, i + 1);
            return None;
          }
          rows := rows[id := UpdateRow(c, rows[id], now).value];
          done := done + [id];
        } else {
          rows := rows[nextId := InsertedRow(p, now)];
          done := done + [nextId];
        }
        nextId := nextId + 1;
        UpsertStepValid(t, now, c, props, i);
        i := i + 1;
      }
      assert props[..i] == props;
      ids := Some(done);
    }

    method DecodeProposals(cols: Columns, multi: bool, partSize: int, lot: Uuid) returns (props: Option<seq<Proposal>>)
      requires Aligned(cols, multi)
      ensures props.Some? <==> AllDecode(cols.sha256s)
      ensures props.Some? ==> props.value == Proposals(cols, multi, partSize, lot)
    {
      var ps: seq<Proposal> := [];
      var i := 0;
      while i < |cols.sha256s|
        invariant 0 <= i <= |cols.sha256s| && |ps| == i
        invariant forall j :: 0 <= j < i ==>
                    PgDecode(cols.sha256s[j]).Some? && ps[j] == ProposalAt(cols, multi, partSize, lot, j)
      {
        if PgDecode(cols.sha256s[i]).None? {
          return None;
        }
        ps := ps + [ProposalAt(cols, multi, partSize, lot, i)];
        i := i + 1;
      }
      props := Some(ps);
    }

    method PartsAllFit(ids: seq<int>) returns (fit: bool)
      ensures fit <==> PartsFit(View().table, ids)
    {
      fit := forall i | 0 <= i < |ids| :: ids[i] in rows && rows[ids[i]].partCount.Some? ==>
               rows[ids[i]].partCount.value <= MAX_SMALLINT;
    }

    method RunStatement(now: int, multi: bool, partSize: int, lot: Uuid, cols: Columns) returns (r: Outcome<seq<int>>)
      requires Valid() && Aligned(cols, multi)
      modifies this`rows, this`nextId
      ensures Valid() && nextId >= old(nextId)
      ensures r.Ok? ==>
                && Statement(old(View()), now, multi, partSize, lot, cols) == Ok(Upserted(View().table, r.value))
                && RowsIn(View().table, r.value)
      ensures r.Err? ==> Statement(old(View()), now, multi, partSize, lot, cols) == Err(r.fault)
      ensures !r.Panic?
    {
      ghost var t := View().table;
      var before := rows;
      var props := DecodeProposals(cols, multi, partSize, lot);
      if props.None? {
        return Err(Internal);
      }
      var ids := UpsertRows(now, ClauseOf(multi, partSize), props.value);
      if ids.None? {
        return Err(Internal);
      }
      UpsertMeetsEffect(t, now, ClauseOf(multi, partSize), props.value);
      var fit := PartsAllFit(ids.value);
      if multi && !fit {
        return Err(Internal);
      }
      if lot !in lots && exists i | 0 <= i < |ids.value| :: ids.value[i] !in before {
        return Err(UnknownLot(if multi then AtMultiUpload else AtSingleUpload));
      }
      r := Ok(ids.value);
    }

    // The storage keys are the column default, one random draw per proposed row.
    method InsertSinglePartUpload(now: int, lot: Uuid, cols: Columns) returns (r: Outcome<seq<SingleRow>>, ghost ids: seq<int>)
      requires Valid() && Aligned(cols, false)
      modifies this`rows, this`nextId
      ensures Valid() && nextId >= old(nextId)
      ensures r.Ok? ==>
                var u := Upserted(View().table, ids);
                && Statement(old(View()), now, false, 0, lot, cols) == Ok(u)
                && RowsIn(u.table, ids)
                && multiset(r.value) == multiset(SingleRows(u))
      ensures !r.Panic?
      ensures r.Err? && (reliable || r.fault != Internal) ==> Statement(old(View()), now, false, 0, lot, cols) == Err(r.fault)
    {
      ids := [];
      var done := RunStatement(now, false, 0, lot, cols);
      if !done.Ok? {
        return Err(done.fault), ids;
      }
      var fails := *;
      if fails && !reliable {
        return Err(Internal), ids;
      }
      ids := done.value;
      ghost var u := Upserted(View().table, ids);
      var items: seq<SingleRow> := [];
      var i := 0;
      while i < |done.value|
        invariant 0 <= i <= |ids|
        invariant items == SingleRows(u)[..i]
      {
        items := items + [SingleRowOf(rows[done.value[i]])];
        i := i + 1;
      }
      assert items == SingleRows(u);
      r := Ok(items);
    }

    method InsertAndValidateMultiPartUpload(now: int, partSize: int, lot: Uuid, cols: Columns)
      returns (r: Outcome<seq<MultiRow>>, ghost ids: seq<int>)
      requires Valid() && Aligned(cols, true)
      modifies this`rows, this`nextId
      ensures Valid() && nextId >= old(nextId)
      ensures r.Ok? ==>
                var u := Upserted(View().table, ids);
                && Statement(old(View()), now, true, partSize, lot, cols) == Ok(u)
                && RowsIn(u.table, ids)
                && multiset(r.value) == multiset(MultiRows(old(View()).table, u, now))
      ensures !r.Panic?
      ensures r.Err? && (reliable || r.fault != Internal) ==> Statement(old(View()), now, true, partSize, lot, cols) == Err(r.fault)
    {
      ids := [];
      var before := Table(rows, nextId);
      var done := RunStatement(now, true, partSize, lot, cols);
      if !done.Ok? {
        return Err(done.fault), ids;
      }
      var fails := *;
      if fails && !reliable {
        return Err(Internal), ids;
      }
      ids := done.value;
      ghost var u := Upserted(View().table, ids);
      var items: seq<MultiRow> := [];
      var i := 0;
      while i < |done.value|
        invariant 0 <= i <= |ids|
        invariant items == MultiRows(before, u, now)[..i]
      {
        items := items + [ReturnedRow(before, done.value[i], rows[done.value[i]], now)];
        i := i + 1;
      }
      assert items == MultiRows(before, u, now);
      r := Ok(items);
    }

    // Some(None) is an answer without rows; None is a failed query.
    method GetMultiPartUploadItem(id: int) returns (r: Option<Option<MultipartItem>>)
      ensures r.Some? ==> r.value == ReadItem(View().table, id)
      ensures reliable ==> r.Some?
    {
      var fails := *;
      if fails && !reliable {
        return None;
      }
      r := Some(ReadItem(Table(rows, nextId), id));
    }
  }

  lemma UpsertStepValid(t: Table, now: int, c: SetClause, props: seq<Proposal>, i: nat)
    requires ValidTable(t) && i < |props| && Upsert(t, now, c, props[..i + 1]).Some?
    ensures ValidTable(Upsert(t, now, c, props[..i + 1]).value.table)
  {
    UpsertMeetsEffect(t, now, c, props[..i + 1]);
  }

  // A statement that has failed on a prefix of its rows has failed.
  lemma {:induction false} UpsertFailsEarly(t: Table, now: int, c: SetClause, props: seq<Proposal>, i: nat)
    requires i <= |props| && Upsert(t, now, c, props[..i]).None?
    ensures Upsert(t, now, c, props).None?
    decreases |props|
  {
    if i < |props| {
      assert props[..|props| - 1][..i] == props[..i];
      UpsertFailsEarly(t, now, c, props[..|props| - 1], i);
    } else {
      assert props[..i] == props;
    }
  }
}
