// Safety over whole runs of the upload protocol.
module ProtocolRuns {
  import opened Wrappers
  import opened Hex
  import opened Parts
  import opened Attempts
  import opened ObjectStore
  import opened Database
  import opened Intake
  import opened Uploads
  import opened ImageStore
  import opened Conditions
  import opened Requests
  import opened Protocol
  import opened ProtocolInitiate
  import opened Replies

  /* ---------- the other steps ---------- */

  // Multipart uploads created for nothing disturb no row and no stored part.
  lemma CreateKeepsStores(t: Table, s3: S3, issued: set<Token>, keys: seq<Uuid>)
    requires StoreInv(t, s3) && StoredInv(s3, issued)
    ensures StoreInv(t, CreateAll(s3, keys)) && StoredInv(CreateAll(s3, keys), issued) && Grows(s3, CreateAll(s3, keys))
  {
    CreateAllEffect(s3, keys);
    var s3' := CreateAll(s3, keys);
    forall u, k | u in s3'.uploads && k in s3'.uploads[u].parts
      ensures Token(s3'.uploads[u].key, u, k) in issued
    {
      assert u !in Interval(s3.next, s3'.next - 1);
    }
  }

  lemma FailKeepsInv(pre: World, post: World)
    requires Inv(pre) && Step(pre, FailInitiate, post)
    ensures Inv(post) && Evolves(pre, post)
  {
    hide IssuedInv, StoredInv, StoreInv, TableInv, SessionInv, CreateAll, Grows;
    var keys :| post.stores.s3 == CreateAll(pre.stores.s3, keys);
    var t, t', s3, s3' := TableOf(pre), TableOf(post), pre.stores.s3, post.stores.s3;
    SameRowsKeepInv(t, t', s3, post.issued.Keys);
    CreateKeepsStores(t', s3, post.issued.Keys, keys);
    forall x | x in post.sessions
      ensures SessionInv(t', s3', post.sessions[x])
    {
      SessionKept(t, s3, t', s3', pre.sessions[x]);
    }
  }

  // The invariants of rows only look at the rows.
  lemma SameRowsKeepInv(t: Table, t': Table, s3: S3, issued: set<Token>)
    requires t'.rows == t.rows && t'.nextId >= t.nextId && TableInv(t) && IssuedInv(t, issued) && StoreInv(t, s3)
    ensures TableInv(t') && IssuedInv(t', issued) && StoreInv(t', s3)
  {
    assert forall sha, lot, id :: PendingAt(t', sha, lot, id) <==> PendingAt(t, sha, lot, id);
    forall k | k in issued
      ensures exists id :: Owns(t', id, k)
    {
      var id :| Owns(t, id, k);
      assert Owns(t', id, k);
    }
  }

  lemma UploadKeepsInv(pre: World, token: Token, etag: Etag, post: World)
    requires Inv(pre) && UploadStep(pre, token, etag, post)
    ensures Inv(post) && Evolves(pre, post)
  {
    hide IssuedInv, TableInv;
    var t, s3, s3' := TableOf(pre), pre.stores.s3, post.stores.s3;
    forall x | x in post.sessions
      ensures SessionInv(t, s3', post.sessions[x])
    {
      SessionKept(t, s3, t, s3', pre.sessions[x]);
    }
  }

  lemma ListKeepsInv(pre: World, session: int, post: World)
    requires Inv(pre) && ListPartsStep(pre, session, post)
    ensures Inv(post) && Evolves(pre, post)
  {
    hide IssuedInv, TableInv, StoredInv;
    var s := pre.sessions[session];
    var parts := pre.stores.s3.uploads[s.item.uploadId.value].parts;
    var page := PageFrom(parts, 1, PAGE_SIZE);
    PageFromSound(parts, 1, PAGE_SIZE);
    NumbersDistinct(page);
    assert NumberSet(page) <= parts.Keys;
    assert Page(pre.stores.s3.uploads[s.item.uploadId.value]) == page;
  }

  lemma SendKeepsInv(pre: World, session: int, parts: seq<CompletedPart>, accepted: bool, post: World)
    requires Inv(pre) && SendStep(pre, session, parts, accepted, post)
    ensures Inv(post) && Evolves(pre, post)
  {
    hide IssuedInv, TableInv;
    var t, s3, s3' := TableOf(pre), pre.stores.s3, post.stores.s3;
    forall x | x in post.sessions
      ensures SessionInv(t, s3', post.sessions[x])
    {
      SessionKept(t, s3, t, s3', pre.sessions[x]);
    }
  }

  // The environment's commit goes through the trigger as well.
  lemma CommittedEvolves(r: Row, r': Row)
    requires RowShape(r) && Triggered(r, r.(state := Committed)) == Some(r')
    ensures RowShape(r') && RowEvolves(r, r') && r'.state.Committed?
  {
  }

  lemma CommitKeepsTable(t: Table, id: int, t': Table, s3: S3)
    requires id in t.rows && id in t'.rows && t' == t.(rows := t.rows[id := t'.rows[id]])
    requires Triggered(t.rows[id], t.rows[id].(state := Committed)) == Some(t'.rows[id])
    requires TableInv(t) && StoreInv(t, s3)
    ensures TableInv(t') && StoreInv(t', s3)
    ensures forall j :: j in t.rows ==> j in t'.rows && RowEvolves(t.rows[j], t'.rows[j])
  {
    CommittedEvolves(t.rows[id], t'.rows[id]);
    hide Triggered;
    assert forall sha, lot, j :: PendingAt(t', sha, lot, j) ==> PendingAt(t, sha, lot, j);
    assert forall j :: j in t.rows ==> RowShape(t.rows[j]);
  }

  lemma CommitKeepsInv(pre: World, id: int, post: World)
    requires Inv(pre) && CommitStep(pre, id, post)
    ensures Inv(post) && Evolves(pre, post)
  {
    hide IssuedInv, StoredInv, StoreInv, TableInv, RowEvolves, SessionInv, Triggered;
    var t, t', s3 := TableOf(pre), TableOf(post), pre.stores.s3;
    CommitKeepsTable(t, id, t', s3);
    CommitKeepsIssued(t, t', pre.issued.Keys);
    forall x | x in post.sessions
      ensures SessionInv(t', s3, post.sessions[x])
    {
      SessionKept(t, s3, t', s3, pre.sessions[x]);
    }
  }

  lemma CommitKeepsIssued(t: Table, t': Table, issued: set<Token>)
    requires forall id :: id in t.rows ==> id in t'.rows && RowEvolves(t.rows[id], t'.rows[id])
    requires IssuedInv(t, issued)
    ensures IssuedInv(t', issued)
  {
    forall k | k in issued
      ensures exists j :: Owns(t', j, k)
    {
      var j :| Owns(t, j, k);
      assert Owns(t', j, k);
    }
  }

  // Every step keeps the invariant and takes nothing back.
  lemma StepKeepsInv(pre: World, e: Event, post: World)
    requires Inv(pre) && Step(pre, e, post)
    ensures Inv(post) && Evolves(pre, post)
  {
    match e
    case Initiate(_, _, _, _, _) => InitiateKeepsInv(pre, e, post);
    case FailInitiate => FailKeepsInv(pre, post);
    case UploadPart(token, etag) => UploadKeepsInv(pre, token, etag, post);
    case ReadRow(session, id) => ReadKeepsInv(pre, session, id, post);
    case ListUploaded(session) => ListKeepsInv(pre, session, post);
    case SendComplete(session, parts, accepted) => SendKeepsInv(pre, session, parts, accepted, post);
    case CommitAttempt(id) => CommitKeepsInv(pre, id, post);
    case ChangeBlobsAndLots => ChangeKeepsInv(pre, post);
    case Tick(to) => TickKeepsInv(pre, to, post);
  }

  lemma TickKeepsInv(pre: World, to: int, post: World)
    requires Inv(pre) && Step(pre, Tick(to), post)
    ensures Inv(post) && Evolves(pre, post)
  {
    hide IssuedInv, TableInv, StoredInv, StoreInv, SessionInv;
  }

  lemma ReadKeepsInv(pre: World, session: int, id: int, post: World)
    requires Inv(pre) && ReadRowStep(pre, session, id, post)
    ensures Inv(post) && Evolves(pre, post)
  {
    hide IssuedInv, TableInv, StoredInv, StoreInv;
  }

  lemma ChangeKeepsInv(pre: World, post: World)
    requires Inv(pre) && Step(pre, ChangeBlobsAndLots, post)
    ensures Inv(post) && Evolves(pre, post)
  {
    hide IssuedInv, TableInv, StoredInv, StoreInv, SessionInv;
    assert TableOf(post) == TableOf(pre);
  }

  lemma StartInv(w: World)
    requires Start(w)
    ensures Inv(w)
  {
  }

  lemma EvolvesReflexive(w: World)
    ensures Evolves(w, w)
  {
  }

  lemma EvolvesTransitive(a: World, b: World, c: World)
    requires Evolves(a, b) && Evolves(b, c)
    ensures Evolves(a, c)
  {
    hide SameIdentity;
    forall id | id in TableOf(a).rows
      ensures id in TableOf(c).rows && RowEvolves(TableOf(a).rows[id], TableOf(c).rows[id])
    {
      RowEvolvesTransitive(TableOf(a).rows[id], TableOf(b).rows[id], TableOf(c).rows[id]);
    }
    forall u | u in a.stores.s3.uploads
      ensures u in c.stores.s3.uploads
      ensures c.stores.s3.uploads[u].key == a.stores.s3.uploads[u].key
      ensures a.stores.s3.uploads[u].parts.Keys <= c.stores.s3.uploads[u].parts.Keys
      ensures a.stores.s3.uploads[u].completed ==> c.stores.s3.uploads[u].completed
    {
      assert u in b.stores.s3.uploads;
    }
  }

  lemma RowEvolvesTransitive(r: Row, s: Row, t: Row)
    requires RowEvolves(r, s) && RowEvolves(s, t)
    ensures RowEvolves(r, t)
  {
  }

  /* ---------- runs ---------- */

  // The invariant holds throughout every run.
  lemma {:induction false} RunInv(ws: seq<World>, es: seq<Event>, i: nat)
    requires Run(ws, es) && i < |ws|
    ensures Inv(ws[i])
  {
    hide Inv, Step, Start;
    if i == 0 {
      StartInv(ws[0]);
    } else {
      RunInv(ws, es, i - 1);
      StepKeepsInv(ws[i - 1], es[i - 1], ws[i]);
    }
  }

  // Whatever happens in between, later worlds evolve from earlier ones.
  lemma {:induction false} RunEvolves(ws: seq<World>, es: seq<Event>, i: nat, j: nat)
    requires Run(ws, es) && i <= j < |ws|
    ensures Evolves(ws[i], ws[j])
    decreases j
  {
    hide Inv, Step, Start, Evolves;
    if i < j {
      RunEvolves(ws, es, i, j - 1);
      RunInv(ws, es, j - 1);
      StepKeepsInv(ws[j - 1], es[j - 1], ws[j]);
      EvolvesTransitive(ws[i], ws[j - 1], ws[j]);
    } else {
      EvolvesReflexive(ws[i]);
    }
  }

  // Stable resumption identity.  At any time at most one row is pending for a digest and a lot.
  // While a row stays pending it stays that row, with the same storage key, upload id, upload
  // type, size and parts, whatever requests run in between.
  lemma StableIdentity(ws: seq<World>, es: seq<Event>, i: nat, j: nat, sha: Bytes, lot: Uuid, a: int, b: int)
    requires Run(ws, es) && i <= j < |ws|
    requires PendingAt(TableOf(ws[i]), sha, lot, a) && PendingAt(TableOf(ws[j]), sha, lot, b)
    ensures a in TableOf(ws[j]).rows && RowEvolves(TableOf(ws[i]).rows[a], TableOf(ws[j]).rows[a])
    ensures TableOf(ws[j]).rows[a].state.Pending? <==> a == b
  {
    hide IssuedInv, StoredInv, StoreInv, SessionInv, Run, Grows;
    RunEvolves(ws, es, i, j);
    RunInv(ws, es, j);
    ValidFromInv(TableOf(ws[j]));
    assert TableOf(ws[j]).rows[a].state.Pending? ==> PendingAt(TableOf(ws[j]), sha, lot, a);
  }

  // The version stamps a row: over any stretch of a run it never falls, and it is the same
  // exactly when nothing of the row has changed.
  lemma VersionStamp(ws: seq<World>, es: seq<Event>, i: nat, j: nat, id: int)
    requires Run(ws, es) && i <= j < |ws| && id in TableOf(ws[i]).rows
    ensures id in TableOf(ws[j]).rows
    ensures var r, r' := TableOf(ws[i]).rows[id], TableOf(ws[j]).rows[id];
            r.version <= r'.version && (r.version == r'.version <==> r == r')
  {
    hide Run, SameIdentity, Grows;
    RunEvolves(ws, es, i, j);
  }

  lemma UpsertRaisesByOne(t: Table, now: int, c: SetClause, props: seq<Proposal>, u: Upserted, id: int)
    requires UpsertEffect(t, now, c, props, u) && id in t.rows
    ensures id in u.table.rows && u.table.rows[id].version <= t.rows[id].version + 1
  {
    if id in u.ids {
      var i :| 0 <= i < |u.ids| && u.ids[i] == id;
      assert Settled(t, now, c, props[i], id, u.table.rows[id]);
      UpdateKeepsIdentity(c, t.rows[id], now);
    }
  }

  // A row version rises by one for each statement of a request at most, by one when the row is
  // committed, and in no other step.
  lemma StepRaisesVersion(pre: World, e: Event, post: World, id: int)
    requires Inv(pre) && Step(pre, e, post) && id in TableOf(pre).rows
    ensures id in TableOf(post).rows
    ensures TableOf(post).rows[id].version <=
            TableOf(pre).rows[id].version + if e.Initiate? then 2 else if e == CommitAttempt(id) then 1 else 0
  {
    if e.Initiate? {
      hide Inv, PgDecode, Filter, UpdateRow, Statement, Classified, Presigned, Issues, FreshDraws;
      var w, db, s3 := e.trace, pre.stores.db, pre.stores.s3;
      TableValid(pre);
      UpsertsMeetEffect(db, s3, e.now, e.lot, w);
      UpsertRaisesByOne(db.table, e.now, KeepStorageKey, SingleProposals(w, e.lot), w.singles, id);
      UpsertRaisesByOne(w.singles.table, e.now, RenewWindow(PART_SIZE), MultiProposals(w, s3, e.lot), w.multis, id);
    }
  }

  // The parts stored under the upload of a row are among its 1..part_count.
  lemma StoredAmongParts(w: World, id: int)
    requires Inv(w) && id in TableOf(w).rows && TableOf(w).rows[id].uploadId.Some?
    ensures var r := TableOf(w).rows[id];
            && r.partCount.Some? && r.partCount.value <= 205
            && r.uploadId.value in w.stores.s3.uploads
            && w.stores.s3.uploads[r.uploadId.value].key == r.storageKey
            && w.stores.s3.uploads[r.uploadId.value].parts.Keys <= Interval(1, r.partCount.value)
  {
    var t, r := TableOf(w), TableOf(w).rows[id];
    assert RowShape(r);
    PartCountSmall(r.fileSize);
    var u := w.stores.s3.uploads[r.uploadId.value];
    forall k | k in u.parts
      ensures 1 <= k <= r.partCount.value
    {
      var token := Token(u.key, r.uploadId.value, k);
      assert token in w.issued;
      var j :| Owns(t, j, token);
      assert j == id;
      PartNumbersContain(r.partCount, k);
    }
  }

  // Completion safety.  Whenever, in any run, the request that completes an upload is sent, the
  // parts the store holds for it are exactly 1..part_count; they tile the stored file size.
  lemma CompletionSafety(ws: seq<World>, es: seq<Event>, i: nat, session: int, parts: seq<CompletedPart>, accepted: bool)
    requires Run(ws, es) && i < |es| && es[i] == SendComplete(session, parts, accepted)
    ensures session in ws[i].sessions
    ensures var s := ws[i].sessions[session];
            && s.id in TableOf(ws[i]).rows
            && var r := TableOf(ws[i]).rows[s.id];
               && r.uploadId.Some? && r.partCount.Some? && r.uploadId.value in ws[i].stores.s3.uploads
               && ws[i].stores.s3.uploads[r.uploadId.value].parts.Keys == Interval(1, r.partCount.value)
               && (r.fileSize > 0 ==> Tiles(r.fileSize, PART_SIZE, r.partCount.value))
  {
    hide Inv, Evolves;
    RunInv(ws, es, i);
    SendSafe(ws[i], session, parts, accepted, ws[i + 1]);
  }

  lemma SendSafe(w: World, session: int, parts: seq<CompletedPart>, accepted: bool, w': World)
    requires Inv(w) && SendStep(w, session, parts, accepted, w')
    ensures var s := w.sessions[session];
            && s.id in TableOf(w).rows
            && var r := TableOf(w).rows[s.id];
               && r.uploadId.Some? && r.partCount.Some? && r.uploadId.value in w.stores.s3.uploads
               && w.stores.s3.uploads[r.uploadId.value].parts.Keys == Interval(1, r.partCount.value)
               && (r.fileSize > 0 ==> Tiles(r.fileSize, PART_SIZE, r.partCount.value))
  {
    hide IssuedInv, StoredInv, StoreInv, Tiles;
    var s := w.sessions[session];
    var r := TableOf(w).rows[s.id];
    assert SessionInv(TableOf(w), w.stores.s3, s) && RowShape(r);
    StoredAmongParts(w, s.id);
    var keys := w.stores.s3.uploads[r.uploadId.value].parts.Keys;
    SubsetSize(NumberSet(s.page), Interval(1, r.partCount.value));
    if r.fileSize > 0 {
      PartsTile(r.fileSize, PART_SIZE);
    }
  }

  /* ---------- resuming ---------- */

  // The parts a resume of row id presigns, and the listing it answers with.
  function MissingNow(w: World, id: int): seq<int>
    requires id in TableOf(w).rows
  {
    var r := TableOf(w).rows[id];
    Missing(PartNumbers(r.partCount), PageOf(w.stores.s3, r.uploadId.GetOr(0)))
  }

  function ListedNow(w: World, id: int): seq<PartInfo>
    requires id in TableOf(w).rows
  {
    PageOf(w.stores.s3, TableOf(w).rows[id].uploadId.GetOr(0))
  }

  lemma UploadedNumbersAre(page: seq<PartInfo>)
    requires forall p :: p in page ==> 1 <= p.number <= MAX_PART_NUMBER
    ensures UploadedNumbers(page) == NumberSet(page)
  {
  }

  // The listing of a row shows exactly its stored parts.
  lemma ListingIsStored(w: World, id: int)
    requires Inv(w) && id in TableOf(w).rows && TableOf(w).rows[id].uploadId.Some?
    ensures var parts := w.stores.s3.uploads[TableOf(w).rows[id].uploadId.value].parts;
            && UploadedNumbers(ListedNow(w, id)) == parts.Keys
            && |ListedNow(w, id)| == |parts.Keys|
            && IsListing(parts, 1, ListedNow(w, id))
  {
    hide IssuedInv, StoredInv, TableInv;
    StoredAmongParts(w, id);
    var r := TableOf(w).rows[id];
    var u := w.stores.s3.uploads[r.uploadId.value];
    PageComplete(u, r.partCount.value);
    PageFromSound(u.parts, 1, PAGE_SIZE);
    UploadedNumbersAre(Page(u));
  }

  // Parts 1..n divide into the missing ones, in order and once each, and the listed ones.
  ghost predicate Partitioned(n: int, missing: seq<int>, page: seq<PartInfo>) {
    && (forall k :: k in missing <==> 1 <= k <= n && k !in NumberSet(page))
    && (forall k :: k in NumberSet(page) ==> 1 <= k <= n)
    && (forall a, b :: 0 <= a < b < |missing| ==> missing[a] < missing[b])
    && (n >= 0 ==> |missing| + |page| == n)
  }

  // In every reachable world the parts 1..n of a multipart row divide into those a resume
  // presigns, in order and once each, and those it returns with their etags.
  lemma ResumePartition(ws: seq<World>, es: seq<Event>, i: nat, id: int)
    requires Run(ws, es) && i < |ws| && id in TableOf(ws[i]).rows && TableOf(ws[i]).rows[id].uploadId.Some?
    ensures TableOf(ws[i]).rows[id].partCount.Some?
    ensures Partitioned(TableOf(ws[i]).rows[id].partCount.value, MissingNow(ws[i], id), ListedNow(ws[i], id))
  {
    hide Inv, Run, Partitioned;
    RunInv(ws, es, i);
    PartitionAt(ws[i], id);
  }

  lemma PartitionAt(w: World, id: int)
    requires Inv(w) && id in TableOf(w).rows && TableOf(w).rows[id].uploadId.Some?
    ensures TableOf(w).rows[id].partCount.Some?
    ensures Partitioned(TableOf(w).rows[id].partCount.value, MissingNow(w, id), ListedNow(w, id))
  {
    hide Inv;
    StoredAmongParts(w, id);
    ListingIsStored(w, id);
    var r := TableOf(w).rows[id];
    var parts := w.stores.s3.uploads[r.uploadId.value].parts;
    var page := ListedNow(w, id);
    UploadedNumbersAre(page);
    MissingPartitions(r.partCount.value, page);
  }

  lemma MissingMembers(n: int, page: seq<PartInfo>, k: int)
    requires UploadedNumbers(page) == NumberSet(page)
    ensures k in Missing(PartNumbers(Some(n)), page) <==> 1 <= k <= n && k !in NumberSet(page)
  {
    PartNumbersContain(Some(n), k);
    FilterMember((j: int) => j !in UploadedNumbers(page), PartNumbers(Some(n)), k);
  }

  lemma MissingPartitions(n: int, page: seq<PartInfo>)
    requires UploadedNumbers(page) == NumberSet(page) <= Interval(1, n) && |NumberSet(page)| == |page|
    ensures Partitioned(n, Missing(PartNumbers(Some(n)), page), page)
  {
    hide Filter, Missing, NumberSet, UploadedNumbers;
    var missing := Missing(PartNumbers(Some(n)), page);
    MissingComplement(PartNumbers(Some(n)), page);
    forall k: int
      ensures k in missing <==> 1 <= k <= n && k !in NumberSet(page)
    {
      MissingMembers(n, page, k);
    }
    AscendingSize(missing);
    ComplementSize(n, (set k | k in missing), NumberSet(page));
  }

  lemma ComplementSize(n: int, missing: set<int>, listed: set<int>)
    requires listed <= Interval(1, n) && forall k :: k in missing <==> 1 <= k <= n && k !in listed
    ensures n >= 0 ==> |missing| + |listed| == n
  {
    assert missing !! listed && missing + listed == Interval(1, n);
    assert |missing + listed| == |missing| + |listed|;
  }

  // Filtering an ascending sequence leaves it ascending.
  lemma {:induction false} MissingComplement(all: seq<int>, page: seq<PartInfo>)
    requires forall a, b :: 0 <= a < b < |all| ==> all[a] < all[b]
    ensures forall a, b :: 0 <= a < b < |Missing(all, page)| ==> Missing(all, page)[a] < Missing(all, page)[b]
  {
    if all != [] {
      var front, last := all[..|all| - 1], all[|all| - 1];
      MissingComplement(front, page);
      FilterMembers((k: int) => k !in UploadedNumbers(page), front);
      var m := Missing(front, page);
      assert forall a :: 0 <= a < |m| ==> m[a] in m;
    }
  }

  lemma {:induction false} AscendingSize(s: seq<int>)
    requires forall a, b :: 0 <= a < b < |s| ==> s[a] < s[b]
    ensures |set k | k in s| == |s|
  {
    if s != [] {
      var front, last := s[..|s| - 1], s[|s| - 1];
      AscendingSize(front);
      assert s == front + [last];
      assert (set k | k in s) == (set k | k in front) + {last};
    }
  }

  lemma MissingShrinks(all: seq<int>, earlier: seq<PartInfo>, later: seq<PartInfo>)
    requires UploadedNumbers(earlier) <= UploadedNumbers(later)
    requires forall a, b :: 0 <= a < b < |all| ==> all[a] < all[b]
    ensures forall k :: k in Missing(all, later) ==> k in Missing(all, earlier)
    ensures |Missing(all, later)| <= |Missing(all, earlier)|
  {
    hide Filter;
    forall k | k in Missing(all, later)
      ensures k in Missing(all, earlier)
    {
      FilterMember((m: int) => m !in UploadedNumbers(later), all, k);
      FilterMember((m: int) => m !in UploadedNumbers(earlier), all, k);
    }
    MissingComplement(all, earlier);
    MissingComplement(all, later);
    AscendingSize(Missing(all, earlier));
    AscendingSize(Missing(all, later));
    SubsetSize(set k | k in Missing(all, later), set k | k in Missing(all, earlier));
  }

  lemma UploadsEvolve(w: World, w': World, id: int)
    requires Inv(w) && Evolves(w, w') && id in TableOf(w).rows && TableOf(w).rows[id].uploadId.Some?
    ensures var r, u := TableOf(w).rows[id], TableOf(w).rows[id].uploadId.value;
            && id in TableOf(w').rows && TableOf(w').rows[id].uploadId == r.uploadId && TableOf(w').rows[id].partCount == r.partCount
            && u in w.stores.s3.uploads && u in w'.stores.s3.uploads
            && w.stores.s3.uploads[u].parts.Keys <= w'.stores.s3.uploads[u].parts.Keys
  {
    hide Inv;
    StoredAmongParts(w, id);
  }

  /* ---------- what requests answer ---------- */

  // A request for multipart file f, which needs an upload.
  ghost predicate AsksFor(w: World, e: Event, f: UploadFile) {
    e.Initiate? && Needs(w.stores.db, e.files, f) && IsMulti(f)
  }

  // A row is pending for the file and its window has not ended.
  ghost predicate HasLive(t: Table, now: int, lot: Uuid, f: UploadFile) {
    exists id :: PendingFor(t, lot, f, id) && t.rows[id].validUntil.Some? && now <= t.rows[id].validUntil.value
  }

  // The answer p for multipart row id: the missing parts presigned and the listing with the etags
  // of the others, or else all parts and no etags.
  ghost predicate AnswersRow(after: World, p: PresignedFile, id: int, all: bool)
    requires id in TableOf(after).rows
  {
    var r := TableOf(after).rows[id];
    && r.uploadId.Some? && p.url.MultiUrl? && p.url.attemptId == id && r.partSize == Some(p.url.partSize)
    && p.url.requests == TokensFor(r.storageKey, r.uploadId.value, if all then PartNumbers(r.partCount) else MissingNow(after, id))
    && p.url.etags == if all then [] else ListedNow(after, id)
  }

  // The window of the row after a request for the file.
  ghost predicate KeepsWindow(before: Table, now: int, lot: Uuid, f: UploadFile, id: int, validUntil: Option<int>) {
    if HasLive(before, now, lot, f) then id in before.rows && validUntil == before.rows[id].validUntil
    else validUntil == Some(now + 5 * 24 * 60 * 60 * 1000000)
  }

  // The answer p for multipart file f.  It is that of the row which is pending for the file after
  // the request, and was before it if there was one; a row whose window had not ended is resumed
  // and keeps it, and any other starts over with a window of five days.
  ghost predicate AnswersFile(before: World, e: Event, after: World, f: UploadFile, id: int, p: PresignedFile)
    requires e.Initiate?
  {
    && PendingFor(TableOf(after), e.lot, f, id) && KeepsWindow(TableOf(before), e.now, e.lot, f, id, TableOf(after).rows[id].validUntil)
    && (forall x :: PendingFor(TableOf(before), e.lot, f, x) ==> x == id)
    && p in e.res.presigned && p.file == (if Canonical(f.sha256) then f else ZERO_FILE)
    && AnswersRow(after, p, id, !HasLive(TableOf(before), e.now, e.lot, f))
  }

  // Answer k of the multipart statement is in the reply.
  lemma RowIsReplied(pre: Stores, now: int, files: seq<UploadFile>, lot: Uuid, w: Trace, post: Stores, res: UploadResult, k: nat)
    requires ValidTable(pre.db.table) && Initiated(pre, now, files, lot, w, post, res) && k < |Multis(w.needed)|
    ensures EnoughDraws(w) && RowsIn(w.multis.table, w.multis.ids) && k < |w.multis.ids| == |Returned(w, now)|
    ensures UpsertsEffect(pre.db, pre.s3, now, lot, w) && post.db.table == w.multis.table && !HasNull(Returned(w, now)[k])
    ensures UrlOf(Returned(w, now)[k], Multis(w.needed), post.s3) in res.presigned
  {
    hide PgDecode, Filter, UpsertsEffect, Statement, Classified, HasNull, UrlOf, Resumable, SingleAnswer;
    UpsertsMeetEffect(pre.db, pre.s3, now, lot, w);
    MultiRowOf(pre.db, pre.s3, now, lot, w, k);
    var single, multi :| PresignedInStages(now, w, post.s3, single, multi) && res.presigned == single + multi;
    var rows := Returned(w, now);
    assert rows[k] in rows;
    var urls := MultiUrls(rows, Multis(w.needed), post.s3);
    assert urls[k] in urls;
    PermutationMember(multi, urls, urls[k]);
  }

  lemma RowIsAnswered(pre: World, e: Event, post: World, k: nat)
    requires Inv(pre) && e.Initiate? && InitiateStep(pre, e, post) && k < |Multis(e.trace.needed)|
    ensures var w := e.trace;
            && EnoughDraws(w) && RowsIn(w.multis.table, w.multis.ids) && k < |w.multis.ids| == |Returned(w, e.now)|
            && UpsertsEffect(pre.stores.db, pre.stores.s3, e.now, e.lot, w)
            && TableOf(post) == w.multis.table && PendingFor(TableOf(post), e.lot, Multis(w.needed)[k], w.multis.ids[k])
            && !HasNull(Returned(w, e.now)[k])
            && var p := UrlOf(Returned(w, e.now)[k], Multis(w.needed), post.stores.s3);
               && p in e.res.presigned
               && AnswersRow(post, p, w.multis.ids[k], TreatedAsNew(Returned(w, e.now)[k]))
  {
    TableValid(pre);
    RowIsReplied(pre.stores, e.now, e.files, e.lot, e.trace, post.stores, e.res, k);
    hide Inv, InitiateStep, PgDecode, Filter, UpsertsEffect, Missing, TokensFor;
    MultiRowOf(pre.stores.db, pre.stores.s3, e.now, e.lot, e.trace, k);
  }

  // The flags that a request reads off its returned row say whether its row was live before.
  lemma RowWasLive(pre: Stores, now: int, lot: Uuid, w: Trace, k: nat)
    requires TableInv(pre.db.table) && UpsertsEffect(pre.db, pre.s3, now, lot, w) && k < |Multis(w.needed)|
    requires RowsIn(w.multis.table, w.multis.ids) && k < |Returned(w, now)| && !HasNull(Returned(w, now)[k])
    ensures TreatedAsNew(Returned(w, now)[k]) <==> !HasLive(pre.db.table, now, lot, Multis(w.needed)[k])
    ensures forall x :: PendingFor(pre.db.table, lot, Multis(w.needed)[k], x) ==> x == w.multis.ids[k]
    ensures KeepsWindow(pre.db.table, now, lot, Multis(w.needed)[k], w.multis.ids[k], w.multis.table.rows[w.multis.ids[k]].validUntil)
  {
    hide PgDecode, Filter, UpdateRow;
    ValidFromInv(pre.db.table);
    var t, f, id := pre.db.table, Multis(w.needed)[k], w.multis.ids[k];
    var p := MultiProposals(w, pre.s3, lot)[k];
    assert Settled(w.singles.table, now, RenewWindow(PART_SIZE), p, id, w.multis.table.rows[id]);
    WindowAgreement(w.singles.table, now, p, PART_SIZE, id, w.multis.table.rows[id]);
    if id in w.singles.table.rows {
      FoundRow(pre, now, lot, w, k);
      FoundIsOld(pre.db, pre.s3, now, lot, w, k);
      assert forall x :: PendingFor(t, lot, f, x) ==> x == id;
    } else {
      NewRowMeetsNothing(pre, now, lot, w, k);
    }
  }

  lemma AnswersAt(pre: World, e: Event, post: World, k: nat) returns (p: PresignedFile)
    requires Inv(pre) && e.Initiate? && InitiateStep(pre, e, post) && k < |Multis(e.trace.needed)|
    ensures EnoughDraws(e.trace) && k < |e.trace.multis.ids|
    ensures AnswersFile(pre, e, post, Multis(e.trace.needed)[k], e.trace.multis.ids[k], p)
  {
    var w := e.trace;
    RowIsAnswered(pre, e, post, k);
    TableOfInv(pre);
    hide Inv, PgDecode, Filter, UpdateRow, Statement, Classified, Upserts, UpsertsEffect, AnswersRow, TableInv, StoreInv,
         KeepsWindow, HasLive, HasNull, Presigned;
    NeededDistinct(pre.stores.db, e.files, e.lot, w, e.res);
    RowWasLive(pre.stores, e.now, e.lot, w, k);
    CarriedFile(pre.stores.db, pre.stores.s3, e.now, e.lot, w, k);
    p := UrlOf(Returned(w, e.now)[k], Multis(w.needed), post.stores.s3);
  }

  // Every request answers each multipart file that needs an upload; the row is row k of its
  // multipart statement.
  lemma AnswerOf(pre: World, e: Event, post: World, f: UploadFile) returns (k: nat, id: int, p: PresignedFile)
    requires Inv(pre) && e.Initiate? && InitiateStep(pre, e, post) && AsksFor(pre, e, f)
    ensures EnoughDraws(e.trace) && k < |Multis(e.trace.needed)| && k < |e.trace.multis.ids|
    ensures Multis(e.trace.needed)[k] == f && e.trace.multis.ids[k] == id
    ensures AnswersFile(pre, e, post, f, id, p)
  {
    hide Inv, AnswersFile, FreshDraws, Issues, Filter, Classified, Upserts, Presigned, Needs;
    NeededAre(pre.stores.db, e.files, e.lot, e.trace, e.res);
    k :| 0 <= k < |Multis(e.trace.needed)| && Multis(e.trace.needed)[k] == f;
    p := AnswersAt(pre, e, post, k);
    id := e.trace.multis.ids[k];
  }

  // What every request of a run answers for each of its multipart files.
  lemma ResumeAnswers(ws: seq<World>, es: seq<Event>, i: nat, f: UploadFile) returns (id: int, p: PresignedFile)
    requires Run(ws, es) && i < |es| && AsksFor(ws[i], es[i], f)
    ensures AnswersFile(ws[i], es[i], ws[i + 1], f, id, p)
  {
    hide Inv, InitiateStep, AnswersFile, Needs;
    RunInv(ws, es, i);
    var k;
    k, id, p := AnswerOf(ws[i], es[i], ws[i + 1], f);
  }

  // All requests of an answer are for parts of one row.
  lemma TokensOfRow(after: World, p: PresignedFile, id: int, all: bool, k: Token)
    requires id in TableOf(after).rows && AnswersRow(after, p, id, all)
    ensures var r := TableOf(after).rows[id];
            k in p.url.requests <==>
            k.key == r.storageKey && Some(k.uploadId) == r.uploadId && k.part in if all then PartNumbers(r.partCount) else MissingNow(after, id)
  {
    hide MissingNow;
    var r := TableOf(after).rows[id];
    var parts := if all then PartNumbers(r.partCount) else MissingNow(after, id);
    if k.key == r.storageKey && Some(k.uploadId) == r.uploadId && k.part in parts {
      var i :| 0 <= i < |parts| && parts[i] == k.part;
      assert p.url.requests[i] == k;
    }
  }

  lemma MissingAreParts(w: World, id: int)
    requires id in TableOf(w).rows
    ensures forall k :: k in MissingNow(w, id) ==> k in PartNumbers(TableOf(w).rows[id].partCount)
  {
    var r := TableOf(w).rows[id];
    FilterMembers((k: int) => k !in UploadedNumbers(PageOf(w.stores.s3, r.uploadId.GetOr(0))), PartNumbers(r.partCount));
  }

  // Two answers of a run for one row.
  lemma SameRequests(ws: seq<World>, es: seq<Event>, i: nat, j: nat, id: int, p: PresignedFile, all: bool, q: PresignedFile, again: bool)
    requires Run(ws, es) && i <= j < |ws| && id in TableOf(ws[i]).rows && AnswersRow(ws[i], p, id, all)
    requires id in TableOf(ws[j]).rows && AnswersRow(ws[j], q, id, again)
    ensures p.url.MultiUrl? && q.url.MultiUrl?
    ensures forall k, l :: k in p.url.requests && l in q.url.requests ==> k.key == l.key && k.uploadId == l.uploadId
    ensures !again ==> forall k :: k in q.url.requests ==> k in p.url.requests
  {
    hide Run, MissingNow, Grows, PartNumbers, TokensFor;
    RunEvolves(ws, es, i, j);
    MissingAreParts(ws[i], id);
    forall k: Token
      ensures k in p.url.requests ==> k.key == TableOf(ws[i]).rows[id].storageKey && Some(k.uploadId) == TableOf(ws[i]).rows[id].uploadId
      ensures k in q.url.requests ==> k.key == TableOf(ws[i]).rows[id].storageKey && Some(k.uploadId) == TableOf(ws[i]).rows[id].uploadId
      ensures !again && k in q.url.requests ==> k in p.url.requests
    {
      TokensOfRow(ws[i], p, id, all, k);
      TokensOfRow(ws[j], q, id, again, k);
      if !again && k in q.url.requests {
        ResumeProgress(ws, es, i, j, id);
      }
    }
  }

  // Stable answers.  Two requests of a run for one digest and lot are answered with the same
  // attempt exactly when the row of the first is still pending at the second.  Then they are
  // answered with requests for the same object key and upload, and a row that is live at the
  // second is asked for no part again that the first did not ask for.
  lemma StableReplies(ws: seq<World>, es: seq<Event>, i: nat, j: nat, f: UploadFile, g: UploadFile)
    returns (id: int, p: PresignedFile, next: int, q: PresignedFile)
    requires Run(ws, es) && i < j < |es| && AsksFor(ws[i], es[i], f) && AsksFor(ws[j], es[j], g)
    requires es[i].lot == es[j].lot && SameDigest(f, g)
    ensures AnswersFile(ws[i], es[i], ws[i + 1], f, id, p) && AnswersFile(ws[j], es[j], ws[j + 1], g, next, q)
    ensures id in TableOf(ws[j]).rows
    ensures p.url.attemptId == q.url.attemptId <==> TableOf(ws[j]).rows[id].state.Pending?
    ensures TableOf(ws[j]).rows[id].state.Pending? ==>
              forall k, l :: k in p.url.requests && l in q.url.requests ==> k.key == l.key && k.uploadId == l.uploadId
    ensures TableOf(ws[j]).rows[id].state.Pending? && HasLive(TableOf(ws[j]), es[j].now, es[j].lot, g) ==>
              forall k :: k in q.url.requests ==> k in p.url.requests
  {
    hide Inv, Step, Start, Needs, Live, HasLive, PgDecode, Canonical, Grows, TokensFor, MissingNow, ListedNow, PartNumbers;
    id, p := ResumeAnswers(ws, es, i, f);
    next, q := ResumeAnswers(ws, es, j, g);
    RunEvolves(ws, es, i + 1, j);
    RunEvolves(ws, es, j, j + 1);
    if TableOf(ws[j]).rows[id].state.Pending? {
      assert PendingFor(TableOf(ws[j]), es[j].lot, g, id);
      SameRequests(ws, es, i + 1, j + 1, id, p, !HasLive(TableOf(ws[i]), es[i].now, es[i].lot, f),
                   q, !HasLive(TableOf(ws[j]), es[j].now, es[j].lot, g));
    }
  }

  // A step moves the window of a row only if it is a request for a multipart file of its digest
  // and lot, made after the window has ended.
  ghost predicate RenewedBy(w: World, e: Event, id: int, h: UploadFile)
    requires id in TableOf(w).rows
  {
    && AsksFor(w, e, h) && PendingFor(TableOf(w), e.lot, h, id)
    && !(TableOf(w).rows[id].validUntil.Some? && e.now <= TableOf(w).rows[id].validUntil.value)
  }

  lemma StepKeepsWindow(w: World, e: Event, w': World, id: int)
    requires Inv(w) && Step(w, e, w') && id in TableOf(w).rows
    ensures id in TableOf(w').rows
    ensures TableOf(w').rows[id].validUntil == TableOf(w).rows[id].validUntil || exists h :: RenewedBy(w, e, id, h)
  {
    if e.Initiate? {
      hide Inv, PgDecode, Filter, UpdateRow, Statement, Classified, Presigned, Issues, FreshDraws, TableInv, StoreInv, RenewedBy, UpsertEffect;
      TableOfInv(w);
      UpsertsMeetEffect(w.stores.db, w.stores.s3, e.now, e.lot, e.trace);
      SinglesKeepRow(TableOf(w), e.now, SingleProposals(e.trace, e.lot), e.trace.singles, id);
      if id in e.trace.multis.ids {
        var k :| 0 <= k < |e.trace.multis.ids| && e.trace.multis.ids[k] == id;
        RowsOfMultis(w.stores.db, w.stores.s3, e.now, e.lot, e.trace);
        TouchedIsRenewed(w, e, w', id, k);
      } else {
        UntouchedByMultis(w.stores.db, w.stores.s3, e.now, e.lot, e.trace, id);
      }
    }
  }

  lemma RowsOfMultis(db: Db, s3: S3, now: int, lot: Uuid, w: Trace)
    requires UpsertsEffect(db, s3, now, lot, w)
    ensures |w.multis.ids| == |Multis(w.needed)|
  {
    hide PgDecode, Filter;
  }

  lemma UntouchedByMultis(db: Db, s3: S3, now: int, lot: Uuid, w: Trace, id: int)
    requires UpsertsEffect(db, s3, now, lot, w) && id in w.singles.table.rows && id !in w.multis.ids
    ensures id in w.multis.table.rows && w.multis.table.rows[id] == w.singles.table.rows[id]
  {
    hide PgDecode, Filter;
  }

  lemma TouchedIsRenewed(w: World, e: Event, w': World, id: int, k: nat)
    requires Inv(w) && e.Initiate? && InitiateStep(w, e, w') && id in TableOf(w).rows
    requires k < |Multis(e.trace.needed)| && k < |e.trace.multis.ids| && e.trace.multis.ids[k] == id
    ensures id in TableOf(w').rows
    ensures TableOf(w').rows[id].validUntil == TableOf(w).rows[id].validUntil || exists h :: RenewedBy(w, e, id, h)
  {
    var h := Multis(e.trace.needed)[k];
    var p := AnswersAt(w, e, w', k);
    WasPending(w, e, w', id, k);
    hide Inv, InitiateStep, PgDecode, Needs, AnswersRow;
    if HasLive(TableOf(w), e.now, e.lot, h) {
      assert TableOf(w').rows[id].validUntil == TableOf(w).rows[id].validUntil;
    } else {
      assert RenewedBy(w, e, id, h);
    }
  }

  lemma WasPending(w: World, e: Event, w': World, id: int, k: nat)
    requires Inv(w) && e.Initiate? && InitiateStep(w, e, w') && id in TableOf(w).rows
    requires k < |Multis(e.trace.needed)| && k < |e.trace.multis.ids| && e.trace.multis.ids[k] == id
    ensures AsksFor(w, e, Multis(e.trace.needed)[k]) && PendingFor(TableOf(w), e.lot, Multis(e.trace.needed)[k], id)
  {
    TableOfInv(w);
    RowIsAnswered(w, e, w', k);
    NeededAre(w.stores.db, e.files, e.lot, e.trace, e.res);
    hide Inv, PgDecode, Filter, Statement, Classified, Presigned, Issues, FreshDraws, TableInv, StoreInv, Needs, UpsertEffect;
    assert Multis(e.trace.needed)[k] in Multis(e.trace.needed);
    SinglesKeepRow(TableOf(w), e.now, SingleProposals(e.trace, e.lot), e.trace.singles, id);
    FoundIsOld(w.stores.db, w.stores.s3, e.now, e.lot, e.trace, k);
  }

  // Between two requests a row keeps its window, if no request for its file comes after the end of it.
  lemma {:induction false} WindowLasts(ws: seq<World>, es: seq<Event>, i: nat, j: nat, id: int, f: UploadFile, lot: Uuid, until: int)
    requires Run(ws, es) && i <= j < |ws| && PendingFor(TableOf(ws[i]), lot, f, id)
    requires TableOf(ws[i]).rows[id].validUntil == Some(until)
    requires forall k, h :: i <= k < j && AsksFor(ws[k], es[k], h) && es[k].lot == lot && SameDigest(f, h) ==> es[k].now <= until
    ensures id in TableOf(ws[j]).rows && TableOf(ws[j]).rows[id].validUntil == Some(until)
  {
    hide Inv, Step, Start, Needs, PgDecode, Grows;
    if i < j {
      var w, e := ws[j - 1], es[j - 1];
      WindowLasts(ws, es, i, j - 1, id, f, lot, until);
      RunInv(ws, es, j - 1);
      RunEvolves(ws, es, i, j - 1);
      StepKeepsWindow(w, e, ws[j], id);
      assert forall h :: RenewedBy(w, e, id, h) ==> AsksFor(w, e, h) && e.lot == lot && SameDigest(f, h);
    }
  }

  // A request at time t that starts the upload of a file, or starts it over, has it resumed for
  // five days: a later request for its digest and lot resumes the row exactly when it comes no
  // later than that, as long as the row is pending and no request has started it over in between.
  lemma ResumedForFiveDays(ws: seq<World>, es: seq<Event>, i: nat, j: nat, f: UploadFile, g: UploadFile) returns (id: int, q: PresignedFile)
    requires Run(ws, es) && i < j < |es| && AsksFor(ws[i], es[i], f) && AsksFor(ws[j], es[j], g)
    requires es[i].lot == es[j].lot && SameDigest(f, g)
    requires forall x :: PendingFor(TableOf(ws[i]), es[i].lot, f, x) ==>
               !(TableOf(ws[i]).rows[x].validUntil.Some? && es[i].now <= TableOf(ws[i]).rows[x].validUntil.value)
    requires forall k, h :: i < k < j && AsksFor(ws[k], es[k], h) && es[k].lot == es[i].lot && SameDigest(f, h) ==>
               es[k].now <= es[i].now + 5 * 24 * 60 * 60 * 1000000
    ensures PendingFor(TableOf(ws[i + 1]), es[i].lot, f, id) && id in TableOf(ws[j]).rows && q in es[j].res.presigned
    ensures var until, now := es[i].now + 5 * 24 * 60 * 60 * 1000000, es[j].now;
            TableOf(ws[j]).rows[id].state.Pending? ==>
              && id in TableOf(ws[j + 1]).rows
              && AnswersRow(ws[j + 1], q, id, now > until)
              && TableOf(ws[j + 1]).rows[id].validUntil == Some(if now <= until then until else now + 5 * 24 * 60 * 60 * 1000000)
  {
    hide Inv, Step, Start, Needs, PgDecode, Grows, Canonical, AnswersRow;
    var p, next;
    id, p := ResumeAnswers(ws, es, i, f);
    next, q := ResumeAnswers(ws, es, j, g);
    RunEvolves(ws, es, i + 1, j);
    WindowLasts(ws, es, i + 1, j, id, f, es[i].lot, es[i].now + 5 * 24 * 60 * 60 * 1000000);
    if TableOf(ws[j]).rows[id].state.Pending? {
      assert PendingFor(TableOf(ws[j]), es[j].lot, g, id);
    }
  }

  lemma TableOfInv(w: World)
    requires Inv(w)
    ensures TableInv(TableOf(w)) && StoreInv(TableOf(w), w.stores.s3) && ValidTable(TableOf(w))
  {
  }

  lemma TableValid(w: World)
    requires Inv(w)
    ensures ValidTable(TableOf(w))
  {
  }

  // Progress: a later resume of the same row never has to upload a part again that an earlier
  // one did not miss.
  lemma ResumeProgress(ws: seq<World>, es: seq<Event>, i: nat, j: nat, id: int)
    requires Run(ws, es) && i <= j < |ws| && id in TableOf(ws[i]).rows && TableOf(ws[i]).rows[id].uploadId.Some?
    ensures id in TableOf(ws[j]).rows
    ensures forall k :: k in MissingNow(ws[j], id) ==> k in MissingNow(ws[i], id)
    ensures |MissingNow(ws[j], id)| <= |MissingNow(ws[i], id)|
  {
    hide Inv, Run, PageOf, Missing, Evolves, IsListing, UploadedNumbers;
    RunEvolves(ws, es, i, j);
    RunInv(ws, es, i);
    RunInv(ws, es, j);
    UploadsEvolve(ws[i], ws[j], id);
    ListingIsStored(ws[i], id);
    ListingIsStored(ws[j], id);
    MissingShrinks(PartNumbers(TableOf(ws[i]).rows[id].partCount), ListedNow(ws[i], id), ListedNow(ws[j], id));
  }

  /* ---------- how long a request can be used ---------- */

  // A part request is good for fifteen minutes from the last reply that carried it, and for no
  // longer.
  lemma {:induction false} GoodForFifteenMinutes(ws: seq<World>, es: seq<Event>, i: nat, j: nat, k: Token)
    requires Run(ws, es) && i < j < |ws| && es[i].Initiate? && Delivers(es[i].res, k)
    requires forall n :: i < n < j && es[n].Initiate? ==> !Delivers(es[n].res, k)
    ensures k in ws[j].issued && ws[j].issued[k] == ws[i].clock + 15 * 60 * 1000000
    ensures forall etag :: j < |es| && es[j] == UploadPart(k, etag) ==> ws[j].clock <= ws[i].clock + 15 * 60 * 1000000
    decreases j
  {
    hide Start, Delivers, Initiated, FreshDraws, Aborted;
    assert Step(ws[j - 1], es[j - 1], ws[j]);
    if i < j - 1 {
      GoodForFifteenMinutes(ws, es, i, j - 1, k);
    }
    if j < |es| {
      assert Step(ws[j], es[j], ws[j + 1]);
    }
  }
}
