// Turning the files of one request into rows and presigned requests: transposition
// into columns, routing of the returned rows, and the requests of each upload.
module Uploads {
  import opened Wrappers
  import opened Hex
  import opened Parts
  import opened Attempts
  import opened ObjectStore
  import opened Database
  import opened Intake

  datatype PresignedUrl =
    | SingleUrl(key: Uuid, checksum: string)
    | MultiUrl(requests: seq<Token>, attemptId: int, partSize: int, etags: seq<PartInfo>)

  datatype PresignedFile = PresignedFile(file: UploadFile, url: PresignedUrl)

  /* ---------- columns ---------- */

  predicate IsSingle(f: UploadFile) {
    f.fileSize < MULTIPART_THRESHOLD
  }

  predicate IsMulti(f: UploadFile) {
    !IsSingle(f)
  }

  function Singles(files: seq<UploadFile>): seq<UploadFile> {
    Filter(IsSingle, files)
  }

  function Multis(files: seq<UploadFile>): seq<UploadFile> {
    Filter(IsMulti, files)
  }

  function StoredSizes(files: seq<UploadFile>): seq<int> {
    Map((f: UploadFile) => Int32(f.fileSize), files)
  }

  function Names(files: seq<UploadFile>): seq<string> {
    Map((f: UploadFile) => f.fileName, files)
  }

  // The parallel arrays whose row i describes file i.
  function ColumnsOf(files: seq<UploadFile>, keys: seq<Uuid>, uploadIds: seq<UploadId>): Columns {
    Columns(Shas(files), StoredSizes(files), Names(files), keys, uploadIds)
  }

  datatype ExtractFile = ExtractFile(
    singles: seq<UploadFile>, singleColumns: Columns,
    multiIndex: map<string, UploadFile>, multiColumns: Columns)

  lemma CreateAllAppend(s3: S3, keys: seq<Uuid>, key: Uuid)
    ensures CreateAll(s3, keys + [key]) == CreateAll(CreateAll(s3, keys), [key])
    ensures CreatedIds(s3, keys + [key]) == CreatedIds(s3, keys) + [s3.next + |keys|]
  {
    assert (keys + [key])[..|keys|] == keys;
    assert [key][..0] == [];
  }

  // What has been gathered from the files seen so far: the single-part files with their
  // arrays, the map of the multipart files with their arrays.
  ghost predicate Gathered(files: seq<UploadFile>, e: ExtractFile, keys: seq<Uuid>, s3: S3) {
    && |keys| == |Multis(files)| <= |files|
    && e.singles == Singles(files)
    && e.singleColumns == ColumnsOf(e.singles, [], [])
    && Indexes(e.multiIndex, Multis(files))
    && e.multiColumns == ColumnsOf(Multis(files), keys, CreatedIds(s3, keys))
  }

  // The arrays with one more row.
  function AppendRow(cols: Columns, f: UploadFile, keys: seq<Uuid>, uploadIds: seq<UploadId>): Columns {
    Columns(cols.sha256s + [f.sha256], cols.sizes + [Int32(f.fileSize)], cols.names + [f.fileName],
            cols.keys + keys, cols.uploadIds + uploadIds)
  }

  lemma GatherSingle(files: seq<UploadFile>, f: UploadFile, e: ExtractFile, keys: seq<Uuid>, s3: S3)
    requires Gathered(files, e, keys, s3) && IsSingle(f)
    ensures Gathered(files + [f], e.(singles := e.singles + [f], singleColumns := AppendRow(e.singleColumns, f, [], [])), keys, s3)
  {
    assert (files + [f])[..|files|] == files;
    assert Multis(files + [f]) == Multis(files);
  }

  lemma GatherMulti(files: seq<UploadFile>, f: UploadFile, e: ExtractFile, keys: seq<Uuid>, s3: S3, key: Uuid)
    requires Gathered(files, e, keys, s3) && IsMulti(f)
    requires forall g :: g in files ==> g.sha256 != f.sha256
    ensures Gathered(files + [f],
              e.(multiIndex := e.multiIndex[f.sha256 := f],
                 multiColumns := AppendRow(e.multiColumns, f, [key], [s3.next + |keys|])), keys + [key], s3)
  {
    assert (files + [f])[..|files|] == files;
    var m := Multis(files);
    assert Multis(files + [f]) == m + [f] && Singles(files + [f]) == Singles(files);
    FilterMembers(IsMulti, files);
    assert forall i :: 0 <= i < |m| ==> m[i] in m;
    CreateAllAppend(s3, keys, key);
  }

  lemma NewSha(files: seq<UploadFile>, i: nat)
    requires DistinctShas(files) && i < |files|
    ensures forall g :: g in files[..i] ==> g.sha256 != files[i].sha256
    ensures files[..i + 1] == files[..i] + [files[i]]
  {
  }

  lemma GatheredCount(files: seq<UploadFile>, e: ExtractFile, keys: seq<Uuid>, s3: S3)
    requires Gathered(files, e, keys, s3)
    ensures |keys| == |Multis(files)| <= |files|
  {
  }

  lemma NothingGathered(e: ExtractFile, s3: S3)
    requires e == ExtractFile([], Columns([], [], [], [], []), map[], Columns([], [], [], [], []))
    ensures Gathered([], e, [], s3) && CreateAll(s3, []) == s3
  {
  }

  // One more multipart file: its upload is created under a random key.
  method ExtractMulti(client: Client, f: UploadFile, e: ExtractFile, key: Uuid,
                      ghost seen: seq<UploadFile>, ghost keys: seq<Uuid>, ghost store: S3)
    returns (r: Option<ExtractFile>)
    requires Gathered(seen, e, keys, store) && IsMulti(f) && forall g :: g in seen ==> g.sha256 != f.sha256
    requires client.View() == CreateAll(store, keys)
    modifies client
    ensures client.reliable ==> r.Some?
    ensures r.Some? ==> client.View() == CreateAll(store, keys + [key]) && Gathered(seen + [f], r.value, keys + [key], store)
    ensures r.None? ==> client.View() == CreateAll(store, keys)
  {
    var fails := *;
    if fails && !client.reliable {
      return None;
    }
    var uploadId := client.CreateMultipartUpload(key);
    if uploadId.None? {
      return None;
    }
    CreateAllAppend(store, keys, key);
    GatherMulti(seen, f, e, keys, store, key);
    r := Some(e.(multiIndex := e.multiIndex[f.sha256 := f],
                 multiColumns := AppendRow(e.multiColumns, f, [key], [uploadId.value])));
  }

  // The random storage keys of the multipart files are drawn from `draws` in order.
  method ExtractFileData(client: Client, files: seq<UploadFile>, draws: seq<Uuid>) returns (r: Option<ExtractFile>, ghost used: nat)
    requires DistinctShas(files) && |draws| >= |files|
    modifies client
    ensures used <= |draws| && client.View() == CreateAll(old(client.View()), draws[..used])
    ensures client.reliable ==> r.Some?
    ensures r.Some? ==>
              && used == |Multis(files)| <= |files|
              && Gathered(files, r.value, draws[..used], old(client.View()))
  {
    hide Gathered, CreateAll, Filter;
    var none := Columns([], [], [], [], []);
    var e := ExtractFile([], none, map[], none);
    ghost var store, seen, keys := client.View(), files[..0], draws[..0];
    NothingGathered(e, store);
    var i, n := 0, 0;
    while i < |files|
      invariant 0 <= n <= i <= |files| && seen == files[..i] && keys == draws[..n]
      invariant Gathered(seen, e, keys, store)
      invariant client.View() == CreateAll(store, keys)
    {
      var f := files[i];
      NewSha(files, i);
      if f.fileSize < MULTIPART_THRESHOLD {
        GatherSingle(seen, f, e, keys, store);
        e := e.(singles := e.singles + [f], singleColumns := AppendRow(e.singleColumns, f, [], []));
      } else {
        var extended := ExtractMulti(client, f, e, draws[n], seen, keys, store);
        if extended.None? {
          return None, n;
        }
        e := extended.value;
        keys := keys + [draws[n]];
        n := n + 1;
      }
      seen := seen + [f];
      i := i + 1;
    }
    assert seen == files;
    GatheredCount(files, e, keys, store);
    r, used := Some(e), n;
  }

  // Row by row the arrays are the multipart files in order, sizes narrowed to 32 bits.
  lemma MultiColumnsZip(files: seq<UploadFile>, keys: seq<Uuid>, s3: S3, lot: Uuid, i: nat)
    requires |keys| == |Multis(files)| && i < |keys| && AllDecode(Shas(Multis(files)))
    ensures var f, cols := Multis(files)[i], ColumnsOf(Multis(files), keys, CreatedIds(s3, keys));
            && f in files && f.fileSize >= MULTIPART_THRESHOLD
            && PgDecode(f.sha256).Some?
            && ProposalAt(cols, true, PART_SIZE, lot, i) ==
               Proposal(PgDecode(f.sha256).value, Int32(f.fileSize), MultiUpload, Some(s3.next + i), Some(PART_SIZE),
                        lot, f.fileName, keys[i])
  {
    hide PgDecode, Filter;
    var f := Multis(files)[i];
    assert f in Multis(files);
    FilterMember(IsMulti, files, f);
    assert Shas(Multis(files))[i] == f.sha256;
  }

  // Upload id i was created under storage key i.
  lemma CreatedUnderKey(keys: seq<Uuid>, s3: S3, i: nat)
    requires i < |keys|
    ensures IsOpen(CreateAll(s3, keys), keys[i], CreatedIds(s3, keys)[i])
  {
    CreateAllEffect(s3, keys);
    var u := s3.next + i;
    assert u in CreateAll(s3, keys).uploads;
  }

  lemma SingleColumnsZip(files: seq<UploadFile>, keys: seq<Uuid>, lot: Uuid, i: nat)
    requires |keys| == |Singles(files)| && i < |keys| && AllDecode(Shas(Singles(files)))
    ensures var f := Singles(files)[i];
            && f in files && f.fileSize < MULTIPART_THRESHOLD
            && PgDecode(f.sha256).Some?
            && ProposalAt(ColumnsOf(Singles(files), keys, []), false, 0, lot, i) ==
               Proposal(PgDecode(f.sha256).value, f.fileSize, SingleUpload, None, None, lot, f.fileName, keys[i])
  {
    hide PgDecode, Filter;
    var f := Singles(files)[i];
    assert f in Singles(files);
    FilterMember(IsSingle, files, f);
    assert Shas(Singles(files))[i] == f.sha256;
  }

  lemma SizesSplit(files: seq<UploadFile>)
    ensures multiset(files) == multiset(Singles(files)) + multiset(Multis(files))
  {
    FilterSplits(IsSingle, IsMulti, files);
  }

  /* ---------- routing ---------- */

  datatype GenerationData = GenerationData(
    fileParts: seq<int>, uploadId: UploadId, storageKey: Uuid, sha256: string, partSize: int, attemptId: int)

  function DataOf(m: MultiRow): GenerationData {
    GenerationData(m.parts, m.uploadId.GetOr(0), m.storageKey, m.sha256, m.partSize.GetOr(0), m.attemptId)
  }

  predicate HasNull(m: MultiRow) {
    m.uploadId.None? || m.partSize.None?
  }

  predicate TreatedAsResumable(m: MultiRow) {
    !TreatedAsNew(m)
  }

  // Dereferencing a null upload id or part size panics.
  method SegregateMultiUploadFiles(rows: seq<MultiRow>) returns (r: Outcome<(seq<GenerationData>, seq<GenerationData>)>)
    ensures r.Panic? <==> exists m :: m in rows && (m.uploadId.None? || m.partSize.None?)
    ensures r.Panic? <==> exists m :: m in rows && HasNull(m)
    ensures !r.Err?
    ensures r.Ok? ==>
              && r.value.0 == Map(DataOf, Filter(TreatedAsNew, rows))
              && r.value.1 == Map(DataOf, Filter(TreatedAsResumable, rows))
  {
    var newOnes: seq<GenerationData>, resumable: seq<GenerationData> := [], [];
    var i := 0;
    while i < |rows|
      invariant 0 <= i <= |rows|
      invariant forall m :: m in rows[..i] ==> !HasNull(m)
      invariant newOnes == Map(DataOf, Filter(TreatedAsNew, rows[..i]))
      invariant resumable == Map(DataOf, Filter(TreatedAsResumable, rows[..i]))
    {
      var m := rows[i];
      assert rows[..i + 1][..i] == rows[..i] && m in rows;
      if HasNull(m) {
        return Panic;
      }
      if m.isInserted || (!m.isInserted && !m.isValid) {
        newOnes := newOnes + [DataOf(m)];
      } else if m.isValid {
        resumable := resumable + [DataOf(m)];
      }
      i := i + 1;
    }
    assert rows[..i] == rows;
    r := Ok((newOnes, resumable));
  }

  /* ---------- presigned requests ---------- */

  function TokensFor(key: Uuid, uploadId: UploadId, parts: seq<int>): seq<Token> {
    Map((k: int) => Token(key, uploadId, k), parts)
  }

  method PresignParts(client: Client, key: Uuid, uploadId: UploadId, parts: seq<int>) returns (r: Option<seq<Token>>)
    ensures r.Some? ==> r.value == TokensFor(key, uploadId, parts)
    ensures client.reliable ==> r.Some?
  {
    var tokens: seq<Token> := [];
    var i := 0;
    while i < |parts|
      invariant 0 <= i <= |parts|
      invariant tokens == TokensFor(key, uploadId, parts[..i])
    {
      var token := client.PresignUploadPart(key, uploadId, parts[i]);
      if token.None? {
        return None;
      }
      tokens := tokens + [token.value];
      i := i + 1;
    }
    assert parts[..i] == parts;
    r := Some(tokens);
  }

  // The keys of the map of uploaded parts.
  function UploadedNumbers(page: seq<PartInfo>): set<int> {
    set p | p in page :: Int16(p.number)
  }

  function Missing(parts: seq<int>, page: seq<PartInfo>): seq<int> {
    Filter((k: int) => k !in UploadedNumbers(page), parts)
  }

  method ListNotUploadedParts(client: Client, key: Uuid, uploadId: UploadId, allParts: seq<int>)
    returns (r: Option<(seq<int>, seq<PartInfo>)>)
    ensures r.Some? ==>
              && IsOpen(client.View(), key, uploadId)
              && var page := Page(client.View().uploads[uploadId]);
                 r.value == (Missing(allParts, page), page)
    ensures client.reliable && IsOpen(client.View(), key, uploadId) ==> r.Some?
  {
    var listed := client.ListParts(key, Some(uploadId));
    if listed.None? {
      return None;
    }
    var page := listed.value;
    var uploaded: set<int>, etags: seq<PartInfo> := {}, [];
    var i := 0;
    while i < |page|
      invariant 0 <= i <= |page|
      invariant etags == page[..i] && uploaded == UploadedNumbers(page[..i])
    {
      assert page[..i + 1] == page[..i] + [page[i]];
      etags := etags + [page[i]];
      uploaded := uploaded + {Int16(page[i].number)};
      i := i + 1;
    }
    assert page[..i] == page;
    var missing: seq<int> := [];
    i := 0;
    while i < |allParts|
      invariant 0 <= i <= |allParts|
      invariant missing == Missing(allParts[..i], page)
    {
      assert allParts[..i + 1][..i] == allParts[..i];
      if allParts[i] !in uploaded {
        missing := missing + [allParts[i]];
      }
      i := i + 1;
    }
    assert allParts[..i] == allParts;
    r := Some((missing, etags));
  }

  ghost function NewUrl(g: GenerationData, files: seq<UploadFile>): PresignedFile {
    PresignedFile(LookupFile(files, g.sha256),
                  MultiUrl(TokensFor(g.storageKey, g.uploadId, g.fileParts), g.attemptId, g.partSize, []))
  }

  // The page a resumed upload lists; empty when there is no such upload.
  function PageOf(s3: S3, uploadId: UploadId): seq<PartInfo> {
    if uploadId in s3.uploads then Page(s3.uploads[uploadId]) else []
  }

  ghost function ResumeUrl(g: GenerationData, files: seq<UploadFile>, s3: S3): PresignedFile {
    var page := PageOf(s3, g.uploadId);
    PresignedFile(LookupFile(files, g.sha256),
                  MultiUrl(TokensFor(g.storageKey, g.uploadId, Missing(g.fileParts, page)), g.attemptId, g.partSize, page))
  }

  // What the response says for one returned row.
  ghost function UrlOf(m: MultiRow, files: seq<UploadFile>, s3: S3): PresignedFile {
    if TreatedAsNew(m) then NewUrl(DataOf(m), files) else ResumeUrl(DataOf(m), files, s3)
  }

  ghost function MultiUrls(rows: seq<MultiRow>, files: seq<UploadFile>, s3: S3): (r: seq<PresignedFile>)
    ensures |r| == |rows| && forall i :: 0 <= i < |rows| ==> r[i] == UrlOf(rows[i], files, s3)
  {
    Map((m: MultiRow) => UrlOf(m, files, s3), rows)
  }

  // A resumed row can be listed.
  predicate Resumable(m: MultiRow, s3: S3) {
    TreatedAsNew(m) || IsOpen(s3, m.storageKey, m.uploadId.GetOr(0))
  }

  lemma LookupIndexed(m: map<string, UploadFile>, files: seq<UploadFile>, s: string)
    requires Indexes(m, files)
    ensures LookupFile(files, s) == if s in m then m[s] else ZERO_FILE
  {
    if s in m {
      var i :| 0 <= i < |files| && files[i] == m[s];
    }
  }

  method GenerateUrlsForNewUploads(client: Client, uploads: seq<GenerationData>, index: map<string, UploadFile>, ghost files: seq<UploadFile>)
    returns (r: Option<seq<PresignedFile>>)
    requires Indexes(index, files)
    ensures r.Some? ==> |r.value| == |uploads| && forall i :: 0 <= i < |uploads| ==> r.value[i] == NewUrl(uploads[i], files)
    ensures client.reliable ==> r.Some?
  {
    var result: seq<PresignedFile> := [];
    var i := 0;
    while i < |uploads|
      invariant 0 <= i <= |uploads| && |result| == i
      invariant forall j :: 0 <= j < i ==> result[j] == NewUrl(uploads[j], files)
    {
      var g := uploads[i];
      var tokens := PresignParts(client, g.storageKey, g.uploadId, g.fileParts);
      if tokens.None? {
        return None;
      }
      LookupIndexed(index, files, g.sha256);
      var file := if g.sha256 in index then index[g.sha256] else ZERO_FILE;
      result := result + [PresignedFile(file, MultiUrl(tokens.value, g.attemptId, g.partSize, []))];
      i := i + 1;
    }
    r := Some(result);
  }

  method GenerateUrlsForResumableUploads(client: Client, uploads: seq<GenerationData>, index: map<string, UploadFile>, ghost files: seq<UploadFile>)
    returns (r: Option<seq<PresignedFile>>)
    requires Indexes(index, files)
    ensures r.Some? ==>
              && |r.value| == |uploads|
              && forall i :: 0 <= i < |uploads| ==>
                   && r.value[i] == ResumeUrl(uploads[i], files, client.View())
                   && IsOpen(client.View(), uploads[i].storageKey, uploads[i].uploadId)
    ensures client.reliable && (forall i :: 0 <= i < |uploads| ==> IsOpen(client.View(), uploads[i].storageKey, uploads[i].uploadId)) ==>
              r.Some?
  {
    var result: seq<PresignedFile> := [];
    var i := 0;
    while i < |uploads|
      invariant 0 <= i <= |uploads| && |result| == i
      invariant forall j :: 0 <= j < i ==>
                  && result[j] == ResumeUrl(uploads[j], files, client.View())
                  && IsOpen(client.View(), uploads[j].storageKey, uploads[j].uploadId)
    {
      var g := uploads[i];
      var listed := ListNotUploadedParts(client, g.storageKey, g.uploadId, g.fileParts);
      if listed.None? {
        return None;
      }
      var tokens := PresignParts(client, g.storageKey, g.uploadId, listed.value.0);
      if tokens.None? {
        return None;
      }
      LookupIndexed(index, files, g.sha256);
      var file := if g.sha256 in index then index[g.sha256] else ZERO_FILE;
      result := result + [PresignedFile(file, MultiUrl(tokens.value, g.attemptId, g.partSize, listed.value.1))];
      i := i + 1;
    }
    r := Some(result);
  }

  // The two groups of requests together are those of all the returned rows, up to order.
  lemma RoutedUrls(rows: seq<MultiRow>, files: seq<UploadFile>, s3: S3, newOnes: seq<PresignedFile>, resumed: seq<PresignedFile>)
    requires var f := Map(DataOf, Filter(TreatedAsNew, rows));
             |newOnes| == |f| && forall i :: 0 <= i < |f| ==> newOnes[i] == NewUrl(f[i], files)
    requires var t := Map(DataOf, Filter(TreatedAsResumable, rows));
             |resumed| == |t| && forall i :: 0 <= i < |t| ==> resumed[i] == ResumeUrl(t[i], files, s3)
    ensures multiset(newOnes + resumed) == multiset(MultiUrls(rows, files, s3))
  {
    var f, t := Filter(TreatedAsNew, rows), Filter(TreatedAsResumable, rows);
    FilterMembers(TreatedAsNew, rows);
    FilterMembers(TreatedAsResumable, rows);
    forall i | 0 <= i < |f|
      ensures newOnes[i] == UrlOf(f[i], files, s3)
    {
      assert f[i] in f;
    }
    assert newOnes == MultiUrls(f, files, s3);
    forall i | 0 <= i < |t|
      ensures resumed[i] == UrlOf(t[i], files, s3)
    {
      assert t[i] in t;
    }
    assert resumed == MultiUrls(t, files, s3);
    MultiUrlsAppend(f, t, files, s3);
    FilterSplits(TreatedAsNew, TreatedAsResumable, rows);
    MultiUrlsPermutation(f + t, rows, files, s3);
  }

  lemma MultiUrlsAppend(rows: seq<MultiRow>, others: seq<MultiRow>, files: seq<UploadFile>, s3: S3)
    ensures MultiUrls(rows + others, files, s3) == MultiUrls(rows, files, s3) + MultiUrls(others, files, s3)
  {
  }

  lemma MultiUrlsPermutation(rows: seq<MultiRow>, others: seq<MultiRow>, files: seq<UploadFile>, s3: S3)
    requires multiset(rows) == multiset(others)
    ensures multiset(MultiUrls(rows, files, s3)) == multiset(MultiUrls(others, files, s3))
  {
    var url := (m: MultiRow) => UrlOf(m, files, s3);
    MapPermutation(url, rows, others);
    assert MultiUrls(rows, files, s3) == Map(url, rows);
    assert MultiUrls(others, files, s3) == Map(url, others);
  }
}
