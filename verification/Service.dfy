// The remote procedure that presigns uploads, from the request message to the reply message.
module Service {
  import opened Wrappers
  import opened Hex
  import opened Attempts
  import opened ObjectStore
  import opened Database
  import opened Intake
  import opened Uploads
  import opened ImageStore
  import opened Conditions
  import opened Requests
  import opened Replies
  import opened Success
  import opened Faults
  import opened Wire

  datatype PresignedImage = PresignedImage(file: ImageFile, url: PresignedUrl)

  datatype PresignReply = PresignReply(
    duplicates: seq<ImageFile>, alreadyUploaded: seq<ImageFile>, presigned: seq<PresignedImage>)

  // The lot field of the request: missing, no UUID, or a UUID.
  datatype LotField = Absent | NotUuid | Lot(id: Uuid)

  function ImagesOf(presigned: seq<PresignedImage>): seq<ImageFile> {
    Map((p: PresignedImage) => p.file, presigned)
  }

  // Every message of the reply, up to order.
  function RepliedImages(reply: PresignReply): seq<ImageFile> {
    reply.duplicates + reply.alreadyUploaded + ImagesOf(reply.presigned)
  }

  method ConvertToPresignedImageFiles(urls: seq<PresignedFile>) returns (r: Outcome<seq<PresignedImage>>)
    ensures r.Ok? <==> Convertible(FilesOf(urls))
    ensures !r.Ok? ==> r == Err(Internal)
    ensures r.Ok? ==>
              && Converted(FilesOf(urls), ImagesOf(r.value))
              && forall i :: 0 <= i < |urls| ==> r.value[i].url == urls[i].url
  {
    var images: seq<PresignedImage> := [];
    var i := 0;
    while i < |urls|
      invariant 0 <= i <= |urls| && |images| == i
      invariant forall j :: 0 <= j < i ==>
                  ConvertToImageFile(urls[j].file) == Ok(images[j].file) && images[j].url == urls[j].url
    {
      var image := ConvertToImageFile(urls[i].file);
      if !image.Ok? {
        assert FilesOf(urls)[i] in FilesOf(urls);
        return Err(Internal);
      }
      images := images + [PresignedImage(image.value, urls[i].url)];
      i := i + 1;
    }
    r := Ok(images);
  }

  // The images are the messages of the files, one by one.
  ghost predicate Converted(files: seq<UploadFile>, images: seq<ImageFile>) {
    |files| == |images| && forall i :: 0 <= i < |files| ==> ConvertToImageFile(files[i]) == Ok(images[i])
  }

  lemma ConvertedPermutation(files: seq<UploadFile>, images: seq<ImageFile>, others: seq<UploadFile>, otherImages: seq<ImageFile>)
    requires Converted(files, images) && Converted(others, otherImages) && multiset(files) == multiset(others)
    ensures multiset(images) == multiset(otherImages)
  {
    hide ConvertToImageFile;
    MapPermutation(ConvertToImageFile, files, others);
    var ok := (m: ImageFile) => Ok(m);
    var unwrap := (o: Outcome<ImageFile>) => if o.Ok? then o.value else ImageFile(None, None, None, None);
    MapPermutation(unwrap, Map(ConvertToImageFile, files), Map(ConvertToImageFile, others));
    assert Map(unwrap, Map(ConvertToImageFile, files)) == images;
    assert Map(unwrap, Map(ConvertToImageFile, others)) == otherImages;
  }

  // What a request that came over the wire was converted from.
  lemma ReceivedConverts(images: seq<ImageFile>, files: seq<UploadFile>)
    requires |files| == |images| && forall i :: 0 <= i < |images| ==> ConvertToUploadFile(images[i]) == Ok(files[i])
    ensures Converted(files, images)
    ensures forall f :: f in files ==> CameFromWire(f)
  {
    hide ConvertToImageFile, ConvertToUploadFile;
    forall i | 0 <= i < |images|
      ensures ConvertToImageFile(files[i]) == Ok(images[i]) && CameFromWire(files[i])
    {
      FileRoundTrip(images[i]);
    }
  }

  // The reply is the result, message by message, with the same presigned requests.
  ghost predicate Answers(res: UploadResult, reply: PresignReply) {
    && Converted(res.duplicates, reply.duplicates)
    && Converted(res.alreadyUploaded, reply.alreadyUploaded)
    && Converted(FilesOf(res.presigned), ImagesOf(reply.presigned))
    && forall i :: 0 <= i < |res.presigned| ==> reply.presigned[i].url == res.presigned[i].url
  }

  // If the result of a request can be answered at all, the reply accounts for every message of
  // the request as often as it was sent.
  lemma ReplyConserves(pre: Stores, now: int, files: seq<UploadFile>, lot: Uuid, w: Trace, post: Stores, res: UploadResult,
                       images: seq<ImageFile>, reply: PresignReply)
    requires ValidTable(pre.db.table) && Initiated(pre, now, files, lot, w, post, res)
    requires Converted(files, images) && Answers(res, reply)
    requires forall f :: f in files ==> CameFromWire(f)
    ensures multiset(images) == multiset(RepliedImages(reply))
  {
    hide Initiated, CameFromWire, ConvertToImageFile, AllCanonical;
    ResponseConvertible(pre, now, files, lot, w, post, res);
    Conservation(pre, now, files, lot, w, post, res);
    var answered := FilesOf(res.presigned);
    forall f | f in answered
      ensures ConvertToImageFile(f).Ok?
    {
      var i :| 0 <= i < |answered| && answered[i] == f;
    }
    assert Convertible(answered);
    ConvertedPermutation(files, images, res.duplicates + res.alreadyUploaded + answered, RepliedImages(reply));
  }

  // The digest of the message is written as the database writes it, and belongs to a blob whose
  // upload has been completed.
  ghost predicate IsUploaded(m: ImageFile, blobs: map<Bytes, Blob>) {
    && m.sha256.Some? && Canonical(m.sha256.value) && PgDecode(m.sha256.value).Some?
    && PgDecode(m.sha256.value).value in blobs && blobs[PgDecode(m.sha256.value).value].completed
  }

  // The messages whose digest an earlier message has are the duplicates, in order.
  ghost predicate DuplicatesInOrder(images: seq<ImageFile>, duplicates: seq<ImageFile>) {
    var again := (k: int) => 0 <= k < |images| && exists j :: 0 <= j < k && images[j].sha256 == images[k].sha256;
    && |duplicates| == CountBelow(again, |images|)
    && forall i :: 0 <= i < |images| && again(i) ==>
         CountBelow(again, i) < |duplicates| && duplicates[CountBelow(again, i)] == images[i]
  }

  ghost predicate IsFirst(images: seq<ImageFile>, i: nat)
    requires i < |images|
  {
    forall j :: 0 <= j < i ==> images[j].sha256 != images[i].sha256
  }

  // The others are among the uploaded ones if their content is stored, and else among those with
  // presigned requests.
  ghost predicate FirstsPlaced(images: seq<ImageFile>, blobs: map<Bytes, Blob>, uploaded: seq<ImageFile>, presigned: seq<ImageFile>) {
    forall i :: 0 <= i < |images| && IsFirst(images, i) ==>
      && (images[i] in uploaded <==> IsUploaded(images[i], blobs))
      && (images[i] in presigned <==> !IsUploaded(images[i], blobs))
  }

  // Where the reply puts each message of its request.
  ghost predicate Accounts(images: seq<ImageFile>, blobs: map<Bytes, Blob>, reply: PresignReply) {
    && DuplicatesInOrder(images, reply.duplicates)
    && FirstsPlaced(images, blobs, reply.alreadyUploaded, ImagesOf(reply.presigned))
  }

  // The messages of files whose digests differ: each is among them exactly when its file is.
  lemma MessageOf(files: seq<UploadFile>, images: seq<ImageFile>, kept: seq<UploadFile>, f: UploadFile, m: ImageFile)
    requires Converted(files, images) && (forall g :: g in files ==> g in kept) && DistinctShas(kept)
    requires f in kept && ConvertToImageFile(f) == Ok(m)
    ensures m in images <==> f in files
  {
    if m in images {
      var i :| 0 <= i < |images| && images[i] == m;
      assert files[i] in files && ConvertToImageFile(files[i]) == Ok(m);
      assert files[i].sha256 == f.sha256;
      MultiplicityOne(kept, files[i], f);
    }
    if f in files {
      var i :| 0 <= i < |files| && files[i] == f;
      assert images[i] == m;
    }
  }

  lemma FirstIsKept(files: seq<UploadFile>, images: seq<ImageFile>, i: nat)
    requires Converted(files, images) && i < |images| && IsFirst(images, i)
    ensures files[i] in FirstOccurrences(files)
  {
    DedupeKeepsFirsts(files);
    assert forall j :: 0 <= j <= i ==> ConvertToImageFile(files[j]) == Ok(images[j]) && images[j].sha256 == Some(files[j].sha256);
  }

  lemma DuplicatesAccounted(files: seq<UploadFile>, images: seq<ImageFile>, reply: PresignReply)
    requires Converted(files, images) && Converted(Duplicates(files), reply.duplicates)
    ensures DuplicatesInOrder(images, reply.duplicates)
  {
    hide ConvertToImageFile, Duplicates;
    var again := (k: int) => 0 <= k < |images| && exists j :: 0 <= j < k && images[j].sha256 == images[k].sha256;
    var same := (k: int) => 0 <= k < |files| && exists j :: 0 <= j < k && files[j].sha256 == files[k].sha256;
    forall i | 0 <= i < |images|
      ensures images[i].sha256 == Some(files[i].sha256)
    {
      SameSha(files[i], images[i]);
    }
    assert forall i :: 0 <= i < |images| ==> again(i) == same(i);
    CountSame(again, same, |images|);
    DedupeInOrder(files);
    forall i | 0 <= i < |images|
      ensures CountBelow(again, i) == CountBelow(same, i)
    {
      CountSame(again, same, i);
    }
  }

  lemma SameSha(f: UploadFile, m: ImageFile)
    requires ConvertToImageFile(f) == Ok(m)
    ensures m.sha256 == Some(f.sha256)
  {
  }

  lemma ReplyAccounts(pre: Stores, now: int, files: seq<UploadFile>, lot: Uuid, w: Trace, post: Stores, res: UploadResult,
                      images: seq<ImageFile>, reply: PresignReply)
    requires ValidTable(pre.db.table) && Initiated(pre, now, files, lot, w, post, res)
    requires Converted(files, images) && Answers(res, reply) && AllCanonical(Multis(FirstOccurrences(files)))
    ensures Accounts(images, pre.db.blobs, reply)
  {
    hide Initiated, Converted, AllCanonical, FirstOccurrences, Duplicates, DuplicatesInOrder, FirstsPlaced, ImagesOf, Answers, ValidTable;
    DuplicatesOf(pre, now, files, lot, w, post, res, reply);
    DuplicatesAccounted(files, images, reply);
    FirstsAccounted(pre, now, files, lot, w, post, res, images, reply);
  }

  lemma DuplicatesOf(pre: Stores, now: int, files: seq<UploadFile>, lot: Uuid, w: Trace, post: Stores, res: UploadResult, reply: PresignReply)
    requires Initiated(pre, now, files, lot, w, post, res) && Answers(res, reply)
    ensures Converted(Duplicates(files), reply.duplicates)
  {
    hide Converted, Duplicates;
  }

  lemma FirstsAccounted(pre: Stores, now: int, files: seq<UploadFile>, lot: Uuid, w: Trace, post: Stores, res: UploadResult,
                        images: seq<ImageFile>, reply: PresignReply)
    requires ValidTable(pre.db.table) && Initiated(pre, now, files, lot, w, post, res)
    requires Converted(files, images) && Answers(res, reply) && AllCanonical(Multis(FirstOccurrences(files)))
    ensures FirstsPlaced(images, pre.db.blobs, reply.alreadyUploaded, ImagesOf(reply.presigned))
  {
    hide Initiated, Converted, AllCanonical, FirstOccurrences, IsUploaded, ImagesOf, IsFirst, Answers, ValidTable;
    forall i | 0 <= i < |images| && IsFirst(images, i)
      ensures images[i] in reply.alreadyUploaded <==> IsUploaded(images[i], pre.db.blobs)
      ensures images[i] in ImagesOf(reply.presigned) <==> !IsUploaded(images[i], pre.db.blobs)
    {
      FirstAccounted(pre, now, files, lot, w, post, res, images, reply, i);
    }
  }

  lemma FirstAccounted(pre: Stores, now: int, files: seq<UploadFile>, lot: Uuid, w: Trace, post: Stores, res: UploadResult,
                       images: seq<ImageFile>, reply: PresignReply, i: nat)
    requires ValidTable(pre.db.table) && Initiated(pre, now, files, lot, w, post, res)
    requires Converted(files, images) && Answers(res, reply) && AllCanonical(Multis(FirstOccurrences(files)))
    requires i < |images| && IsFirst(images, i)
    ensures images[i] in reply.alreadyUploaded <==> IsUploaded(images[i], pre.db.blobs)
    ensures images[i] in ImagesOf(reply.presigned) <==> !IsUploaded(images[i], pre.db.blobs)
  {
    FirstIsKept(files, images, i);
    SameSha(files[i], images[i]);
    FilesDistinct(pre, now, files, lot, w, post, res);
    DedupeDistinct(files);
    ClassOf(pre, now, files, lot, w, post, res, files[i]);
    KeptOnly(pre, now, files, lot, w, post, res);
    hide Initiated, ConvertToImageFile, AllCanonical, PgDecode, Canonical, FirstOccurrences;
    var kept, answered := FirstOccurrences(files), FilesOf(res.presigned);
    forall f: UploadFile
      ensures f in answered <==> f in w.needed
    {
      PermutationMember(answered, w.needed, f);
    }
    MessageOf(res.alreadyUploaded, reply.alreadyUploaded, kept, files[i], images[i]);
    MessageOf(answered, ImagesOf(reply.presigned), kept, files[i], images[i]);
  }

  lemma KeptOnly(pre: Stores, now: int, files: seq<UploadFile>, lot: Uuid, w: Trace, post: Stores, res: UploadResult)
    requires Initiated(pre, now, files, lot, w, post, res)
    ensures forall f :: f in w.needed || f in res.alreadyUploaded ==> f in FirstOccurrences(files)
  {
    hide Upserts, Presigned;
    InOneOf(FirstOccurrences(files), w.needed, res.alreadyUploaded);
  }

  lemma ClassOf(pre: Stores, now: int, files: seq<UploadFile>, lot: Uuid, w: Trace, post: Stores, res: UploadResult, f: UploadFile)
    requires Initiated(pre, now, files, lot, w, post, res) && f in FirstOccurrences(files)
    ensures f in res.alreadyUploaded <==>
            && Canonical(f.sha256) && PgDecode(f.sha256).Some?
            && PgDecode(f.sha256).value in pre.db.blobs && pre.db.blobs[PgDecode(f.sha256).value].completed
    ensures f in w.needed <==> f !in res.alreadyUploaded
  {
    hide PgDecode, Canonical, Upserts, Presigned, Classified;
    AlreadyUploadedExactly(pre.db, files, lot, w, res, f);
  }

  // The file says what the message says, its client id as decimal text.
  ghost predicate FromMessage(f: UploadFile, m: ImageFile) {
    && Complete(m)
    && f.sha256 == m.sha256.value && f.fileName == m.fileName.value && f.fileSize == m.fileSize.value
    && f.clientFileId == Itoa(m.clientFileId.value)
  }

  // A successful reply accounts for every message of its request, whatever the digests.  A
  // request that fails leaves nothing in the database, unless it fails after its commit; that
  // happens exactly when the digest of a kept multipart file is not canonical.  With stores that
  // do not fail, a complete request succeeds exactly when it is acceptable and those digests are
  // canonical, panics exactly when it must, and names an unknown lot where the request meets it.
  method GeneratePresignedUrl(db: Queries, client: Client, images: seq<ImageFile>, lotId: LotField, now: int, draws: seq<Uuid>)
    returns (r: Outcome<PresignReply>, ghost files: seq<UploadFile>, ghost w: Trace, ghost res: UploadResult)
    requires db.Valid() && |draws| >= |images|
    modifies db, client
    ensures db.Valid()
    ensures !lotId.Absent? && (forall m :: m in images ==> Complete(m)) ==>
              |files| == |images| && forall i :: 0 <= i < |images| ==> FromMessage(files[i], images[i])
    ensures r.Ok? ==>
              && lotId.Lot? && (forall m :: m in images ==> Complete(m)) && AllCanonical(Multis(FirstOccurrences(files)))
              && Initiated(Stores(old(db.View()), old(client.View())), now, files, lotId.id, w,
                           Stores(db.View(), client.View()), res)
              && Answers(res, r.value)
              && multiset(images) == multiset(RepliedImages(r.value))
              && Accounts(images, old(db.blobs), r.value)
              && |r.value.presigned| == |res.presigned|
              && forall i :: 0 <= i < |res.presigned| ==>
                   && r.value.presigned[i].url == res.presigned[i].url
                   && r.value.presigned[i].file.sha256 == Some(res.presigned[i].file.sha256)
    ensures !r.Ok? ==>
              || Aborted(Stores(old(db.View()), old(client.View())), Stores(db.View(), client.View()))
              || (r == Err(Internal) && lotId.Lot? && !AllCanonical(Multis(FirstOccurrences(files)))
                  && Initiated(Stores(old(db.View()), old(client.View())), now, files, lotId.id, w,
                               Stores(db.View(), client.View()), res))
    ensures lotId.Absent? || (exists m :: m in images && !Complete(m)) ==> r.Panic?
    ensures lotId.NotUuid? && (forall m :: m in images ==> Complete(m)) ==> r == Err(BadLotId)
    ensures lotId.Lot? && (forall m :: m in images ==> Complete(m)) && Reliable(db, client)
            && Ready(Stores(old(db.View()), old(client.View())), draws) ==>
              && (r.Ok? <==>
                  && Acceptable(Stores(old(db.View()), old(client.View())), now, files, lotId.id)
                  && AllCanonical(Multis(FirstOccurrences(files))))
              && (r.Panic? <==> MustPanic(Stores(old(db.View()), old(client.View())), now, files, lotId.id))
              && (forall stage :: r == Err(UnknownLot(stage)) ==>
                    UnknownLotAt(Stores(old(db.View()), old(client.View())), now, files, lotId.id, stage))
              && (AllDigestsDecode(files) ==>
                    forall stage :: UnknownLotAt(Stores(old(db.View()), old(client.View())), now, files, lotId.id, stage) ==>
                                      r == Err(UnknownLot(stage)))
              && (r.Err? ==> r.fault == Internal || r.fault.UnknownLot?)
    ensures r.Err? && lotId.Lot? && Reliable(db, client) && AllCanonical(Multis(FirstOccurrences(files))) ==>
              Fails(Stores(old(db.View()), old(client.View())), now, files, lotId.id, w, r.fault)
  {
    hide Initiated, Aborted, Converted, AllCanonical, CameFromWire, Fails, Ready, Acceptable, MustPanic, Panicked, UnknownLotAt, AllDigestsDecode, Accounts;
    ghost var pre := Stores(db.View(), client.View());
    w := Trace([], draws, Upserted(db.View().table, []), Upserted(db.View().table, []));
    files, res := [], UploadResult([], [], []);
    var received := ConvertToUploadFiles(images);
    if !received.Ok? || lotId.Absent? {
      NothingDone(pre);
      return Panic, files, w, res;
    }
    files := received.value;
    ReceivedConverts(images, files);
    var initiated;
    initiated, w := InitiateUpload(db, client, received.value, if lotId.Lot? then Some(lotId.id) else None, now, draws);
    if lotId.Lot? && Ready(pre, draws) {
      OutcomeExactly(pre, now, files, lotId.id, w, Stores(db.View(), client.View()), initiated, Reliable(db, client));
      if Reliable(db, client) {
        FaultsExactly(pre, now, files, lotId.id, w, Stores(db.View(), client.View()), initiated);
      }
    }
    match initiated {
      case Panic => return Panic, files, w, res;
      case Err(fault) => return Err(fault), files, w, res;
      case Ok(_) =>
    }
    res := initiated.value;
    ghost var post := Stores(db.View(), client.View());
    ResponseConvertible(pre, now, files, lotId.id, w, post, res);
    var duplicates := ConvertToImageFiles(initiated.value.duplicates);
    var uploaded := ConvertToImageFiles(initiated.value.alreadyUploaded);
    var presigned := ConvertToPresignedImageFiles(initiated.value.presigned);
    if !presigned.Ok? {
      return Err(Internal), files, w, res;
    }
    r := Ok(PresignReply(duplicates.value, uploaded.value, presigned.value));
    AreConverted(res.duplicates, duplicates.value);
    AreConverted(res.alreadyUploaded, uploaded.value);
    ReplyConserves(pre, now, files, lotId.id, w, post, res, images, r.value);
    ReplyAccounts(pre, now, files, lotId.id, w, post, res, images, r.value);
    SameUrls(res, r.value);
  }

  // The requests stay with the digests they were made for.
  lemma SameUrls(res: UploadResult, reply: PresignReply)
    requires Answers(res, reply)
    ensures |reply.presigned| == |res.presigned|
    ensures forall i :: 0 <= i < |res.presigned| ==>
              && reply.presigned[i].url == res.presigned[i].url
              && reply.presigned[i].file.sha256 == Some(res.presigned[i].file.sha256)
  {
    forall i | 0 <= i < |res.presigned|
      ensures reply.presigned[i].file.sha256 == Some(res.presigned[i].file.sha256)
    {
      assert ConvertToImageFile(FilesOf(res.presigned)[i]) == Ok(ImagesOf(reply.presigned)[i]);
    }
  }

  lemma AreConverted(files: seq<UploadFile>, images: seq<ImageFile>)
    requires |files| == |images| && forall i :: 0 <= i < |files| ==> ConvertToImageFile(files[i]) == Ok(images[i])
    ensures Converted(files, images)
  {
  }

  // A request that has not begun counts as rolled back.
  lemma NothingDone(pre: Stores)
    ensures Aborted(pre, pre)
  {
    assert pre.s3 == CreateAll(pre.s3, []);
  }
}
