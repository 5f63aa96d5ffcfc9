// The table image_blob_upload_attempts: its rows, the row-version trigger, the
// two SET clauses of the upserts, and the effect of one upsert statement.
module Attempts {
  import opened Wrappers
  import opened Hex
  import opened Parts

  type Uuid = int
  const NIL_UUID: Uuid := 0

  type UploadId = int

  datatype UploadType = SingleUpload | MultiUpload

  datatype AttemptState = Pending | Committed

  datatype Row = Row(
    sha: Bytes, fileSize: int, uploadType: UploadType,
    uploadId: Option<UploadId>, partSize: Option<int>, partCount: Option<int>,
    lot: Uuid, fileName: string, storageKey: Uuid,
    state: AttemptState, version: int, validUntil: Option<int>)

  // Microseconds in the default validity window, five days.
  const WINDOW := 432000000000

  datatype Table = Table(rows: map<int, Row>, nextId: int)

  // What one statement proposes to insert.
  datatype Proposal = Proposal(
    sha: Bytes, fileSize: int, uploadType: UploadType,
    uploadId: Option<UploadId>, partSize: Option<int>,
    lot: Uuid, fileName: string, storageKey: Uuid)

  // The DO UPDATE clause of each statement.
  datatype SetClause = KeepStorageKey | RenewWindow(partSize: int)

  /* ---------- one row ---------- */

  function GeneratedPartCount(uploadType: UploadType, fileSize: int, partSize: Option<int>): Option<int> {
    if uploadType.MultiUpload? && partSize.Some? && partSize.value > 0
    then Some(PartCount(fileSize, partSize.value))
    else None
  }

  predicate Live(r: Row, now: int) {
    r.validUntil.Some? && r.validUntil.value >= now
  }

  function ApplySet(c: SetClause, was: Row, now: int): Row {
    match c
    case KeepStorageKey => was.(storageKey := was.storageKey)
    case RenewWindow(p) =>
      was.(partSize := if Live(was, now) then was.partSize else Some(p),
           validUntil := if Live(was, now) then was.validUntil else Some(now + WINDOW))
  }

  // The trigger bump_row_version; None is an exception.  The part count of the new row
  // is still null when a BEFORE trigger sees it.
  function BumpRowVersion(was: Row, next: Row): Option<Row> {
    if next.version != was.version then None
    else if next == was then Some(next)
    else if was.version + 1 > MAX_INT32 then None
    else Some(next.(version := was.version + 1))
  }

  // An update of one row: the trigger, then the generated column.
  function Triggered(was: Row, next: Row): Option<Row> {
    match BumpRowVersion(was, next.(partCount := None))
    case None => None
    case Some(r) => Some(r.(partCount := GeneratedPartCount(r.uploadType, r.fileSize, r.partSize)))
  }

  // An update by the SET clause of an upsert.
  function UpdateRow(c: SetClause, was: Row, now: int): Option<Row> {
    Triggered(was, ApplySet(c, was, now))
  }

  function InsertedRow(p: Proposal, now: int): Row {
    Row(p.sha, p.fileSize, p.uploadType, p.uploadId, p.partSize,
        GeneratedPartCount(p.uploadType, p.fileSize, p.partSize),
        p.lot, p.fileName, p.storageKey, Pending, 0, Some(now + WINDOW))
  }

  // What no statement of the program ever changes in a row.
  ghost predicate SameIdentity(r: Row, r': Row) {
    && r'.sha == r.sha && r'.lot == r.lot && r'.fileSize == r.fileSize
    && r'.uploadType == r.uploadType && r'.uploadId == r.uploadId
    && r'.storageKey == r.storageKey && r'.fileName == r.fileName
  }

  // The stored part count is the generated one.
  ghost predicate Generated(r: Row) {
    r.partCount == GeneratedPartCount(r.uploadType, r.fileSize, r.partSize)
  }

  // An update keeps the identity of the row; the version rises by at most one.
  lemma UpdateKeepsIdentity(c: SetClause, was: Row, now: int)
    requires UpdateRow(c, was, now).Some?
    ensures var r := UpdateRow(c, was, now).value;
            && SameIdentity(was, r) && r.state == was.state && Generated(r)
            && was.version <= r.version <= was.version + 1
  {
  }

  // The version stays exactly when the SET clause changes nothing and the row has no part
  // count: a multipart row is counted as changed by every upsert.
  lemma VersionBump(c: SetClause, was: Row, now: int)
    requires UpdateRow(c, was, now).Some?
    ensures UpdateRow(c, was, now).value.version == was.version <==>
            ApplySet(c, was, now) == was && was.partCount.None?
    ensures UpdateRow(c, was, now).value.version == was.version && Generated(was) ==>
              UpdateRow(c, was, now).value == was
  {
  }

  // An update fails exactly when it would carry a changed row past the last version.
  lemma UpdateFails(c: SetClause, was: Row, now: int)
    ensures UpdateRow(c, was, now).None? <==>
            was.version >= MAX_INT32 && !(ApplySet(c, was, now) == was && was.partCount.None?)
  {
  }

  ghost function Repeat(c: SetClause, r: Row, times: seq<int>): Option<Row>
    decreases |times|
  {
    if times == [] then Some(r)
    else match UpdateRow(c, r, times[0])
      case None => None
      case Some(r') => Repeat(c, r', times[1..])
  }

  // However often a single upload is initiated again, its row is left as it was, version included.
  lemma {:induction false} RepeatedSingleUpload(r: Row, times: seq<int>)
    requires Generated(r) && r.partCount.None?
    ensures Repeat(KeepStorageKey, r, times) == Some(r)
    decreases |times|
  {
    if times != [] {
      VersionBump(KeepStorageKey, r, times[0]);
      UpdateFails(KeepStorageKey, r, times[0]);
      RepeatedSingleUpload(r, times[1..]);
    }
  }

  // Whereas a pending multipart row is counted once per upsert, until the versions run out.
  lemma {:induction false} RepeatedMultiUpload(c: SetClause, r: Row, times: seq<int>)
    requires Generated(r) && r.partCount.Some? && (c.RenewWindow? ==> c.partSize > 0)
    ensures Repeat(c, r, times).Some? <==> times == [] || r.version + |times| <= MAX_INT32
    ensures Repeat(c, r, times).Some? ==> Repeat(c, r, times).value.version == r.version + |times|
    decreases |times|
  {
    if times != [] {
      UpdateFails(c, r, times[0]);
      if UpdateRow(c, r, times[0]).Some? {
        VersionBump(c, r, times[0]);
        UpdateKeepsIdentity(c, r, times[0]);
        RepeatedMultiUpload(c, UpdateRow(c, r, times[0]).value, times[1..]);
      }
    }
  }

  /* ---------- the table ---------- */

  // Row id is the pending row of (sha, lot).
  predicate PendingAt(t: Table, sha: Bytes, lot: Uuid, id: int) {
    id in t.rows && t.rows[id].state.Pending? && t.rows[id].sha == sha && t.rows[id].lot == lot
  }

  // The identity sequence has passed every row, and the partial unique index holds.
  ghost predicate ValidTable(t: Table) {
    && (forall id :: id in t.rows ==> id < t.nextId)
    && (forall sha, lot, id, id' :: PendingAt(t, sha, lot, id) && PendingAt(t, sha, lot, id') ==> id == id')
  }

  // The row the ON CONFLICT clause finds.
  ghost function Arbiter(t: Table, sha: Bytes, lot: Uuid): (r: Option<int>)
    ensures r.Some? ==> PendingAt(t, sha, lot, r.value)
    ensures r.None? ==> forall id :: !PendingAt(t, sha, lot, id)
  {
    if exists id :: PendingAt(t, sha, lot, id)
    then var id :| PendingAt(t, sha, lot, id); Some(id)
    else None
  }

  lemma ArbiterUnique(t: Table, sha: Bytes, lot: Uuid, id: int)
    requires ValidTable(t) && PendingAt(t, sha, lot, id)
    ensures Arbiter(t, sha, lot) == Some(id)
  {
  }

  datatype Upserted = Upserted(table: Table, ids: seq<int>)

  // One proposed row.  Its id is drawn from the sequence even when it conflicts; a second
  // hit of the same row in one statement is an error.
  ghost function UpsertNext(t: Table, ids: seq<int>, now: int, c: SetClause, p: Proposal): Option<Upserted> {
    match Arbiter(t, p.sha, p.lot)
    case None =>
      Some(Upserted(Table(t.rows[t.nextId := InsertedRow(p, now)], t.nextId + 1), ids + [t.nextId]))
    case Some(id) =>
      if id in ids then None
      else match UpdateRow(c, t.rows[id], now)
        case None => None
        case Some(r) => Some(Upserted(Table(t.rows[id := r], t.nextId + 1), ids + [id]))
  }

  // INSERT ... ON CONFLICT DO UPDATE of all proposals; None is a failed statement.
  ghost function Upsert(t: Table, now: int, c: SetClause, props: seq<Proposal>): Option<Upserted> {
    if props == [] then Some(Upserted(t, []))
    else match Upsert(t, now, c, props[..|props| - 1])
      case None => None
      case Some(u) => UpsertNext(u.table, u.ids, now, c, props[|props| - 1])
  }

  // What the statement did with one proposal.
  ghost predicate Settled(t: Table, now: int, c: SetClause, p: Proposal, id: int, r: Row) {
    && r.state.Pending? && r.sha == p.sha && r.lot == p.lot
    && if id in t.rows
       then PendingAt(t, p.sha, p.lot, id) && UpdateRow(c, t.rows[id], now) == Some(r)
       else id >= t.nextId && r == InsertedRow(p, now) && forall j :: !PendingAt(t, p.sha, p.lot, j)
  }

  // The effect of a successful statement, proposal by proposal.
  ghost predicate UpsertEffect(t: Table, now: int, c: SetClause, props: seq<Proposal>, u: Upserted) {
    && ValidTable(u.table)
    && u.table.nextId == t.nextId + |props|
    && |u.ids| == |props|
    && (forall i, j :: 0 <= i < j < |u.ids| ==> u.ids[i] != u.ids[j])
    && (forall i :: 0 <= i < |u.ids| ==>
          u.ids[i] in u.table.rows && Settled(t, now, c, props[i], u.ids[i], u.table.rows[u.ids[i]]))
    && (forall id :: id in t.rows ==> id in u.table.rows)
    && (forall id :: id in u.table.rows && id !in u.ids ==> id in t.rows && u.table.rows[id] == t.rows[id])
  }

  lemma PendingKept(t: Table, now: int, c: SetClause, props: seq<Proposal>, u: Upserted, sha: Bytes, lot: Uuid, id: int)
    requires UpsertEffect(t, now, c, props, u) && PendingAt(t, sha, lot, id)
    ensures PendingAt(u.table, sha, lot, id)
  {
    if id in u.ids {
      var i :| 0 <= i < |u.ids| && u.ids[i] == id;
      assert Settled(t, now, c, props[i], id, u.table.rows[id]);
    }
  }

  // One more row, inserted.
  lemma InsertEffect(t: Table, now: int, c: SetClause, props: seq<Proposal>, u: Upserted, p: Proposal)
    requires ValidTable(t) && UpsertEffect(t, now, c, props, u)
    requires forall id :: !PendingAt(u.table, p.sha, p.lot, id)
    ensures var u' := Upserted(Table(u.table.rows[u.table.nextId := InsertedRow(p, now)], u.table.nextId + 1), u.ids + [u.table.nextId]);
            UpsertEffect(t, now, c, props + [p], u')
  {
    hide UpdateRow;
    var t' := Table(u.table.rows[u.table.nextId := InsertedRow(p, now)], u.table.nextId + 1);
    assert forall sha, lot, id :: PendingAt(t', sha, lot, id) && id != u.table.nextId ==> PendingAt(u.table, sha, lot, id);
    forall j | PendingAt(t, p.sha, p.lot, j)
      ensures PendingAt(u.table, p.sha, p.lot, j)
    {
      PendingKept(t, now, c, props, u, p.sha, p.lot, j);
    }
  }

  // One more row, updated.
  lemma UpdateEffect(t: Table, now: int, c: SetClause, props: seq<Proposal>, u: Upserted, p: Proposal, id: int)
    requires ValidTable(t) && UpsertEffect(t, now, c, props, u)
    requires PendingAt(u.table, p.sha, p.lot, id) && id !in u.ids && UpdateRow(c, u.table.rows[id], now).Some?
    ensures var u' := Upserted(Table(u.table.rows[id := UpdateRow(c, u.table.rows[id], now).value], u.table.nextId + 1), u.ids + [id]);
            UpsertEffect(t, now, c, props + [p], u')
  {
    UpdateKeepsIdentity(c, u.table.rows[id], now);
    hide UpdateRow;
    var t' := Table(u.table.rows[id := UpdateRow(c, u.table.rows[id], now).value], u.table.nextId + 1);
    assert forall sha, lot, j :: PendingAt(t', sha, lot, j) ==> PendingAt(u.table, sha, lot, j);
  }

  lemma UpsertNextEffect(t: Table, now: int, c: SetClause, props: seq<Proposal>, u: Upserted, p: Proposal)
    requires ValidTable(t) && UpsertEffect(t, now, c, props, u)
    requires UpsertNext(u.table, u.ids, now, c, p).Some?
    ensures UpsertEffect(t, now, c, props + [p], UpsertNext(u.table, u.ids, now, c, p).value)
  {
    hide UpsertEffect, UpdateRow;
    match Arbiter(u.table, p.sha, p.lot)
    case None => InsertEffect(t, now, c, props, u, p);
    case Some(id) => UpdateEffect(t, now, c, props, u, p, id);
  }

  // Every successful statement has this effect: one pending row per proposal, each either
  // inserted or updated in place, all others untouched, the unique index kept.
  lemma {:induction false} UpsertMeetsEffect(t: Table, now: int, c: SetClause, props: seq<Proposal>)
    requires ValidTable(t) && Upsert(t, now, c, props).Some?
    ensures UpsertEffect(t, now, c, props, Upsert(t, now, c, props).value)
  {
    hide UpdateRow, UpsertNext, InsertedRow;
    if props != [] {
      var front := props[..|props| - 1];
      UpsertMeetsEffect(t, now, c, front);
      UpsertNextEffect(t, now, c, front, Upsert(t, now, c, front).value, props[|props| - 1]);
      assert front + [props[|props| - 1]] == props;
    }
  }

  // A statement that proposes the same key twice fails.
  lemma UpsertRejectsRepeats(t: Table, now: int, c: SetClause, props: seq<Proposal>, i: int, j: int)
    requires ValidTable(t)
    requires 0 <= i < j < |props| && props[i].sha == props[j].sha && props[i].lot == props[j].lot
    ensures Upsert(t, now, c, props).None?
  {
    if Upsert(t, now, c, props).Some? {
      UpsertMeetsEffect(t, now, c, props);
      var u := Upsert(t, now, c, props).value;
      assert PendingAt(u.table, props[i].sha, props[i].lot, u.ids[j]);
      assert PendingAt(u.table, props[i].sha, props[i].lot, u.ids[i]);
      assert false;
    }
  }

  ghost predicate DistinctKeys(props: seq<Proposal>) {
    forall i, j :: 0 <= i < j < |props| ==> props[i].sha != props[j].sha || props[i].lot != props[j].lot
  }

  // No row the statement finds has used up its versions.
  ghost predicate AllUpdatable(t: Table, now: int, c: SetClause, props: seq<Proposal>) {
    forall i, id :: 0 <= i < |props| && PendingAt(t, props[i].sha, props[i].lot, id) ==> UpdateRow(c, t.rows[id], now).Some?
  }

  // A pending row of a key the statement did not propose is an older row, as it was.
  lemma UntouchedRow(t: Table, now: int, c: SetClause, props: seq<Proposal>, u: Upserted, sha: Bytes, lot: Uuid, id: int)
    requires UpsertEffect(t, now, c, props, u) && PendingAt(u.table, sha, lot, id)
    requires forall i :: 0 <= i < |props| ==> props[i].sha != sha || props[i].lot != lot
    ensures id !in u.ids && id in t.rows && u.table.rows[id] == t.rows[id] && PendingAt(t, sha, lot, id)
  {
    forall i | 0 <= i < |u.ids|
      ensures u.ids[i] != id
    {
      assert Settled(t, now, c, props[i], u.ids[i], u.table.rows[u.ids[i]]);
    }
  }

  // A statement that succeeded could update every row it found.
  lemma UpsertUpdated(t: Table, now: int, c: SetClause, props: seq<Proposal>, u: Upserted)
    requires UpsertEffect(t, now, c, props, u)
    ensures AllUpdatable(t, now, c, props)
  {
    hide UpdateRow;
    forall i, id | 0 <= i < |props| && PendingAt(t, props[i].sha, props[i].lot, id)
      ensures UpdateRow(c, t.rows[id], now).Some?
    {
      PendingKept(t, now, c, props, u, props[i].sha, props[i].lot, id);
      assert Settled(t, now, c, props[i], u.ids[i], u.table.rows[u.ids[i]]);
      assert PendingAt(u.table, props[i].sha, props[i].lot, u.ids[i]);
    }
  }

  // A statement succeeds exactly when it proposes no key twice and can update every row it finds.
  lemma {:induction false} UpsertExactly(t: Table, now: int, c: SetClause, props: seq<Proposal>)
    requires ValidTable(t)
    ensures Upsert(t, now, c, props).Some? <==> DistinctKeys(props) && AllUpdatable(t, now, c, props)
    decreases |props|
  {
    hide UpdateRow, InsertedRow, UpsertEffect;
    if Upsert(t, now, c, props).Some? {
      UpsertMeetsEffect(t, now, c, props);
      UpsertUpdated(t, now, c, props, Upsert(t, now, c, props).value);
      forall i, j | 0 <= i < j < |props|
        ensures props[i].sha != props[j].sha || props[i].lot != props[j].lot
      {
        if props[i].sha == props[j].sha && props[i].lot == props[j].lot {
          UpsertRejectsRepeats(t, now, c, props, i, j);
        }
      }
    } else if DistinctKeys(props) && AllUpdatable(t, now, c, props) {
      UpsertDoesNotFail(t, now, c, props);
    }
  }

  lemma {:induction false} UpsertDoesNotFail(t: Table, now: int, c: SetClause, props: seq<Proposal>)
    requires ValidTable(t) && DistinctKeys(props) && AllUpdatable(t, now, c, props)
    ensures Upsert(t, now, c, props).Some?
    decreases |props|
  {
    hide UpdateRow, InsertedRow, UpsertEffect;
    if props != [] {
      var n := |props| - 1;
      var front, p := props[..n], props[n];
      assert forall i :: 0 <= i < n ==> front[i] == props[i];
      UpsertDoesNotFail(t, now, c, front);
      UpsertMeetsEffect(t, now, c, front);
      var u := Upsert(t, now, c, front).value;
      match Arbiter(u.table, p.sha, p.lot)
      case None =>
      case Some(id) => UntouchedRow(t, now, c, front, u, p.sha, p.lot, id);
    }
  }

  /* ---------- what the multipart statement returns ---------- */

  datatype MultiRow = MultiRow(
    partSize: Option<int>, attemptId: int, sha256: string, storageKey: Uuid,
    uploadId: Option<UploadId>, parts: seq<int>, isInserted: bool, isValid: bool)

  function ReturnedRow(t: Table, id: int, r: Row, now: int): MultiRow {
    MultiRow(r.partSize, id, Encode(r.sha), r.storageKey, r.uploadId, PartNumbers(r.partCount),
             id !in t.rows, id in t.rows && Live(t.rows[id], now))
  }

  // The routing of segregateMultiUploadFiles.
  predicate TreatedAsNew(m: MultiRow) {
    m.isInserted || (!m.isInserted && !m.isValid)
  }

  // The returned flags, the branches of the SET clause and the routing all name the same
  // three cases, null and boundary-equal times included: a row is resumed exactly when its window
  // ends at the time of the statement or later; any other window ends five days after it.
  lemma WindowAgreement(t: Table, now: int, p: Proposal, partSize: int, id: int, r: Row)
    requires Settled(t, now, RenewWindow(partSize), p, id, r)
    ensures var m, was := ReturnedRow(t, id, r, now), if id in t.rows then t.rows[id].validUntil else None;
            && (m.isInserted <==> id !in t.rows)
            && (m.isValid <==> was.Some? && now <= was.value)
            && (TreatedAsNew(m) <==> !(was.Some? && now <= was.value))
            && r.validUntil == (if was.Some? && now <= was.value then was else Some(now + 5 * 24 * 60 * 60 * 1000000))
            && r.partSize == (if was.Some? && now <= was.value then t.rows[id].partSize else if id in t.rows then Some(partSize) else p.partSize)
    ensures r.validUntil.Some? && r.validUntil.value >= now
    ensures id in t.rows && t.rows[id].validUntil.Some? ==> r.validUntil.value >= t.rows[id].validUntil.value
  {
  }
}
