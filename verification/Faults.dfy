// Which fault a request ends in, from the batch, the table and the store before it.
module Faults {
  import opened Wrappers
  import opened Hex
  import opened Parts
  import opened Attempts
  import opened ObjectStore
  import opened Database
  import opened Intake
  import opened Uploads
  import opened ImageStore
  import opened Conditions
  import opened Protocol
  import opened ProtocolInitiate
  import opened Success

  // The content of some file of the batch is stored already.
  ghost predicate SomeStored(db: Db, files: seq<UploadFile>) {
    exists f :: f in FirstOccurrences(files) && IsStored(db.blobs, f.sha256)
  }

  // Two needed files of one size class do not share a digest in different letters.
  ghost predicate KindDiffers(db: Db, files: seq<UploadFile>, single: bool) {
    forall f, g :: Needs(db, files, f) && Needs(db, files, g) && f != g && IsSingle(f) == single == IsSingle(g) ==> !SameDigest(f, g)
  }

  // The lot is unknown, and the statement of the stage is the first to notice: the look-up of
  // stored blobs by adding an image to the lot, the others by inserting a row.
  ghost predicate UnknownLotAt(pre: Stores, now: int, files: seq<UploadFile>, lot: Uuid, stage: Stage) {
    && lot !in pre.db.lots
    && match stage
       case AtLotImages => SomeStored(pre.db, files)
       case AtSingleUpload =>
         && !SomeStored(pre.db, files)
         && (forall f :: Needs(pre.db, files, f) && IsSingle(f) ==> SingleWritable(pre.db, lot, f))
         && KindDiffers(pre.db, files, true)
         && exists f :: Needs(pre.db, files, f) && IsSingle(f) && !HasPending(pre.db.table, lot, f)
       case AtMultiUpload =>
         !SomeStored(pre.db, files) && SinglesPass(pre.db, files, lot) && NoticedByMultis(pre, now, files, lot)
  }

  // The single uploads of the request succeed.
  ghost predicate SinglesPass(db: Db, files: seq<UploadFile>, lot: Uuid) {
    && (forall f :: Needs(db, files, f) && IsSingle(f) ==> SingleAcceptable(db, lot, f))
    && KindDiffers(db, files, true)
  }

  // The multipart statement could insert a row for some file.
  ghost predicate NoticedByMultis(pre: Stores, now: int, files: seq<UploadFile>, lot: Uuid) {
    && lot !in pre.db.lots
    && (forall f :: Needs(pre.db, files, f) && IsMulti(f) ==> PgDecode(f.sha256).Some? && RoomFor(pre, now, files, lot, f))
    && KindDiffers(pre.db, files, false)
    && exists f :: Needs(pre.db, files, f) && IsMulti(f) && !HasPending(pre.db.table, lot, f)
  }

  ghost predicate AllDigestsDecode(files: seq<UploadFile>) {
    forall f :: f in FirstOccurrences(files) ==> PgDecode(f.sha256).Some?
  }

  lemma StoredAreReturned(db: Db, files: seq<UploadFile>)
    ensures SomeStored(db, files) <==> ExistingShas(db.blobs, Shas(FirstOccurrences(files))) != []
  {
    hide PgDecode, Encode, FirstOccurrences;
    var kept := FirstOccurrences(files);
    if ExistingShas(db.blobs, Shas(kept)) != [] {
      ExistingHasFile(db.blobs, kept);
    }
    if f :| f in kept && IsStored(db.blobs, f.sha256) {
      var i :| 0 <= i < |kept| && kept[i] == f;
      assert Shas(kept)[i] == f.sha256 && Shas(kept)[i] in Shas(kept);
      StoredShasContain(db.blobs, Shas(kept), ReturnedSha(f.sha256));
    }
  }

  lemma KindsDiffer(db: Db, files: seq<UploadFile>, lot: Uuid, w: Trace, res: UploadResult)
    requires Classified(db, files, lot, w, res)
    ensures KindDiffers(db, files, true) <==> NoneShared(Singles(w.needed))
    ensures KindDiffers(db, files, false) <==> NoneShared(Multis(w.needed))
  {
    hide Classified, Needs, SameDigest, Filter;
    NeededAre(db, files, lot, w, res);
  }

  // The single statement notices the unknown lot exactly under this condition.
  lemma SingleNotices(pre: Stores, now: int, files: seq<UploadFile>, lot: Uuid, w: Trace, res: UploadResult)
    requires TableInv(pre.db.table) && EnoughDraws(w) && Classified(pre.db, files, lot, w, res)
    ensures forall stage :: Statement(pre.db, now, false, 0, lot, SingleColumns(w)) == Err(UnknownLot(stage)) <==>
              stage == AtSingleUpload && UnknownLotAt(pre, now, files, lot, AtSingleUpload)
  {
    NoneStored(pre, files, lot, w, res);
    hide PgDecode, Filter, Classified, Needs, HasPending, SingleWritable, Statement, TableInv, SameDigest, SomeStored;
    NeededAre(pre.db, files, lot, w, res);
    NeededDistinct(pre.db, files, lot, w, res);
    KindsDiffer(pre.db, files, lot, w, res);
    SingleStatementExactly(pre.db, now, lot, w);
  }

  lemma RoomForAll(pre: Stores, now: int, files: seq<UploadFile>, lot: Uuid, w: Trace, res: UploadResult)
    requires AfterSingles(pre, now, files, lot, w, res)
    ensures (forall f, id :: f in Multis(w.needed) && PendingFor(w.singles.table, lot, f, id) ==>
               UpdateRow(RenewWindow(PART_SIZE), w.singles.table.rows[id], now).Some?) <==>
            forall f :: f in Multis(w.needed) ==> RoomFor(pre, now, files, lot, f)
  {
    forall f | f in Multis(w.needed)
      ensures (forall id :: PendingFor(w.singles.table, lot, f, id) ==>
                 UpdateRow(RenewWindow(PART_SIZE), w.singles.table.rows[id], now).Some?) <==> RoomFor(pre, now, files, lot, f)
    {
      RoomExactly(pre, now, files, lot, w, res, f);
    }
    hide PgDecode, Filter, AfterSingles, UpdateRow, RoomFor;
  }

  lemma MultiStatementNotices(pre: Stores, now: int, files: seq<UploadFile>, lot: Uuid, w: Trace, res: UploadResult)
    requires AfterSingles(pre, now, files, lot, w, res)
    ensures forall stage :: Statement(pre.db.(table := w.singles.table), now, true, PART_SIZE, lot, MultiColumns(w, pre.s3))
                            == Err(UnknownLot(stage)) <==>
              stage == AtMultiUpload && NoticedByMultis(pre, now, files, lot)
  {
    hide PgDecode, Filter, UpsertEffect, Classified, Needs, HasPending, Statement, TableInv, StoreInv, RoomFor, NoneShared, AllDecode,
         KindDiffers;
    NeededAre(pre.db, files, lot, w, res);
    KindsDiffer(pre.db, files, lot, w, res);
    var m := Multis(w.needed);
    DecodeAll(m);
    if AllDecode(Shas(m)) {
      RoomForAll(pre, now, files, lot, w, res);
      MultiStatementExactly(pre, now, files, lot, w, res);
    } else {
      UndecodableIsInternal(pre.db.(table := w.singles.table), now, lot, MultiColumns(w, pre.s3));
    }
  }

  // After the single uploads, the multipart statement does exactly under this one.
  lemma MultiNotices(pre: Stores, now: int, files: seq<UploadFile>, lot: Uuid, w: Trace, res: UploadResult)
    requires AfterSingles(pre, now, files, lot, w, res) && SingleStageOk(pre.db, now, lot, w)
    ensures forall stage :: Statement(pre.db.(table := w.singles.table), now, true, PART_SIZE, lot, MultiColumns(w, pre.s3))
                            == Err(UnknownLot(stage)) <==>
              stage == AtMultiUpload && UnknownLotAt(pre, now, files, lot, AtMultiUpload)
  {
    NoneStored(pre, files, lot, w, res);
    PassExactly(pre, now, files, lot, w, res);
    MultiStatementNotices(pre, now, files, lot, w, res);
    hide AfterSingles, SingleStageOk, SinglesPass, NoticedByMultis, SomeStored, Statement;
  }

  lemma NoneStored(pre: Stores, files: seq<UploadFile>, lot: Uuid, w: Trace, res: UploadResult)
    requires Classified(pre.db, files, lot, w, res)
    ensures lot in pre.db.lots || !SomeStored(pre.db, files)
  {
    StoredAreReturned(pre.db, files);
  }

  lemma PassExactly(pre: Stores, now: int, files: seq<UploadFile>, lot: Uuid, w: Trace, res: UploadResult)
    requires TableInv(pre.db.table) && EnoughDraws(w) && Classified(pre.db, files, lot, w, res)
    ensures SingleStageOk(pre.db, now, lot, w) <==> SinglesPass(pre.db, files, lot)
  {
    hide Filter, Classified, Needs, SingleAcceptable, TableInv, NoneShared, SingleStageOk, KindDiffers;
    NeededAre(pre.db, files, lot, w, res);
    NeededDistinct(pre.db, files, lot, w, res);
    KindsDiffer(pre.db, files, lot, w, res);
    SinglesExactly(pre.db, now, lot, w);
  }

  lemma UndecodableIsInternal(db: Db, now: int, lot: Uuid, cols: Columns)
    requires Aligned(cols, true) && !AllDecode(cols.sha256s)
    ensures Statement(db, now, true, PART_SIZE, lot, cols) == Err(Internal)
  {
  }

  // A stage that fails for an unknown lot has noticed it; and one that can notice it, does.
  lemma StagesNotice(pre: Stores, now: int, files: seq<UploadFile>, lot: Uuid, w: Trace, res: UploadResult, fault: Fault)
    requires Ready(pre, w.draws) && EnoughDraws(w) && Classified(pre.db, files, lot, w, res)
    requires StagesFail(pre.db, pre.s3, CreateAll(pre.s3, MultiKeys(w)), now, lot, w, fault)
    ensures fault == Internal || exists stage :: fault == UnknownLot(stage) && stage != AtLotImages && UnknownLotAt(pre, now, files, lot, stage)
    ensures forall stage :: stage != AtLotImages && UnknownLotAt(pre, now, files, lot, stage) ==> fault == UnknownLot(stage)
  {
    hide PgDecode, Filter, Classified, Statement, TableInv, StoreInv, FreshDraws, UnknownLotAt, HasNull, Resumable, CreateAll, AllHex,
         SingleAcceptable, NoneShared, AfterSingles;
    NeededDistinct(pre.db, files, lot, w, res);
    SingleNotices(pre, now, files, lot, w, res);
    SinglesExactly(pre.db, now, lot, w);
    var st := Statement(pre.db, now, false, 0, lot, SingleColumns(w));
    StatementFaults(pre.db, now, false, 0, lot, SingleColumns(w));
    if SingleStageOk(pre.db, now, lot, w) {
      var w' := w.(singles := st.value);
      SameClassified(pre.db, files, lot, w, w', res);
      assert SingleColumns(w') == SingleColumns(w) && MultiColumns(w', pre.s3) == MultiColumns(w, pre.s3);
      SingleStageLeaves(pre, now, files, lot, w', res);
      MultiNotices(pre, now, files, lot, w', res);
      StatementFaults(pre.db.(table := st.value.table), now, true, PART_SIZE, lot, MultiColumns(w, pre.s3));
      NotBothStages(pre, now, files, lot);
    } else {
      NoMultiStage(pre, now, files, lot, w, res);
    }
  }

  lemma StatementFaults(db: Db, now: int, multi: bool, partSize: int, lot: Uuid, cols: Columns)
    requires Aligned(cols, multi)
    ensures var r := Statement(db, now, multi, partSize, lot, cols);
            !r.Panic? && (r.Err? ==> r.fault == Internal || r.fault.UnknownLot?)
  {
  }

  lemma NotBothStages(pre: Stores, now: int, files: seq<UploadFile>, lot: Uuid)
    ensures !(UnknownLotAt(pre, now, files, lot, AtSingleUpload) && UnknownLotAt(pre, now, files, lot, AtMultiUpload))
  {
    hide PgDecode, Needs, HasPending, RoomFor, SomeStored;
  }

  // The multipart statement only notices the lot once the single uploads have succeeded.
  lemma NoMultiStage(pre: Stores, now: int, files: seq<UploadFile>, lot: Uuid, w: Trace, res: UploadResult)
    requires Ready(pre, w.draws) && EnoughDraws(w) && Classified(pre.db, files, lot, w, res) && !SingleStageOk(pre.db, now, lot, w)
    ensures !UnknownLotAt(pre, now, files, lot, AtMultiUpload)
  {
    hide SingleStageOk, SinglesPass, NoticedByMultis, SomeStored, Classified;
    PassExactly(pre, now, files, lot, w, res);
  }

  // A request that fails for an unknown lot, names the stage that noticed it.
  lemma FaultMeans(pre: Stores, now: int, files: seq<UploadFile>, lot: Uuid, w: Trace, fault: Fault)
    requires Ready(pre, w.draws) && Fails(pre, now, files, lot, w, fault)
    ensures fault == Internal || exists stage :: fault == UnknownLot(stage) && UnknownLotAt(pre, now, files, lot, stage)
  {
    StoredAreReturned(pre.db, files);
    hide PgDecode, Ready, StagesFail, Classified, SomeStored, FirstOccurrences, AllDecode, Needs, KindDiffers;
    if !SkipFails(pre.db, lot, Shas(FirstOccurrences(files)), fault) {
      var res :| Classified(pre.db, files, lot, w, res);
      StagesNotice(pre, now, files, lot, w, res, fault);
    } else if fault != Internal {
      assert UnknownLotAt(pre, now, files, lot, AtLotImages);
    }
  }

  // And when all digests decode, a request whose lot some stage notices, fails for that.
  lemma FaultHappens(pre: Stores, now: int, files: seq<UploadFile>, lot: Uuid, w: Trace, fault: Fault, stage: Stage)
    requires Ready(pre, w.draws) && Fails(pre, now, files, lot, w, fault)
    requires AllDigestsDecode(files) && UnknownLotAt(pre, now, files, lot, stage)
    ensures fault == UnknownLot(stage)
  {
    StoredAreReturned(pre.db, files);
    DecodeAll(FirstOccurrences(files));
    hide PgDecode, Ready, StagesFail, SomeStored, FirstOccurrences, AllDecode, Needs, KindDiffers, Separated;
    if !SkipFails(pre.db, lot, Shas(FirstOccurrences(files)), fault) {
      var res :| Classified(pre.db, files, lot, w, res);
      StagesNotice(pre, now, files, lot, w, res, fault);
    }
  }

  // An unknown lot that some stage notices, is no reason to panic, and lets nothing succeed.
  lemma UnknownLotFails(pre: Stores, now: int, files: seq<UploadFile>, lot: Uuid, stage: Stage)
    requires UnknownLotAt(pre, now, files, lot, stage)
    ensures !Acceptable(pre, now, files, lot) && !MustPanic(pre, now, files, lot)
  {
    hide PgDecode, Needs, HasPending, RoomFor;
  }

  // Of stores that do not fail: a request ends in an unknown lot at a stage only if that stage
  // notices it, and if all digests decode it then does; every other failure is internal.
  lemma FaultsExactly(pre: Stores, now: int, files: seq<UploadFile>, lot: Uuid, w: Trace, post: Stores, r: Outcome<UploadResult>)
    requires Ready(pre, w.draws)
    requires r.Ok? ==> Initiated(pre, now, files, lot, w, post, r.value)
    requires r.Err? ==> Fails(pre, now, files, lot, w, r.fault)
    requires r.Panic? ==> Panicked(pre, now, files, lot, w)
    ensures forall stage :: r == Err(UnknownLot(stage)) ==> UnknownLotAt(pre, now, files, lot, stage)
    ensures forall stage :: AllDigestsDecode(files) && UnknownLotAt(pre, now, files, lot, stage) ==> r == Err(UnknownLot(stage))
    ensures r.Err? ==> r.fault == Internal || r.fault.UnknownLot?
    ensures AllDigestsDecode(files) ==>
              (r == Err(Internal) <==>
               && !Acceptable(pre, now, files, lot) && !MustPanic(pre, now, files, lot)
               && forall stage :: !UnknownLotAt(pre, now, files, lot, stage))
  {
    hide Ready, Initiated, Fails, Panicked, Acceptable, MustPanic, UnknownLotAt, AllDigestsDecode;
    OutcomeExactly(pre, now, files, lot, w, post, r, true);
    if r.Err? {
      FaultMeans(pre, now, files, lot, w, r.fault);
    }
    forall stage | UnknownLotAt(pre, now, files, lot, stage)
      ensures r.Err? && (AllDigestsDecode(files) ==> r == Err(UnknownLot(stage)))
    {
      UnknownLotFails(pre, now, files, lot, stage);
      if AllDigestsDecode(files) {
        FaultHappens(pre, now, files, lot, w, r.fault, stage);
      }
    }
  }

  // So does the method.
  method InitiateFaults(db: Queries, client: Client, files: seq<UploadFile>, lot: Uuid, now: int, draws: seq<Uuid>)
    returns (r: Outcome<UploadResult>)
    requires Reliable(db, client) && |draws| >= |files| && Ready(Stores(db.View(), client.View()), draws)
    modifies db, client
    ensures forall stage :: r == Err(UnknownLot(stage)) ==>
              UnknownLotAt(Stores(old(db.View()), old(client.View())), now, files, lot, stage)
    ensures AllDigestsDecode(files) ==>
              forall stage :: UnknownLotAt(Stores(old(db.View()), old(client.View())), now, files, lot, stage) ==>
                r == Err(UnknownLot(stage))
    ensures AllDigestsDecode(files) ==>
              (r == Err(Internal) <==>
               && !Acceptable(Stores(old(db.View()), old(client.View())), now, files, lot)
               && !MustPanic(Stores(old(db.View()), old(client.View())), now, files, lot)
               && forall stage :: !UnknownLotAt(Stores(old(db.View()), old(client.View())), now, files, lot, stage))
    ensures r.Err? ==> r.fault == Internal || r.fault.UnknownLot?
  {
    hide Acceptable, MustPanic, Initiated, Fails, Panicked, Aborted, TableInv, StoreInv, FreshDraws, UnknownLotAt, AllDigestsDecode;
    ghost var pre := Stores(db.View(), client.View());
    ValidFromInv(pre.db.table);
    ghost var w;
    r, w := InitiateUpload(db, client, files, Some(lot), now, draws);
    FaultsExactly(pre, now, files, lot, w, Stores(db.View(), client.View()), r);
  }
}
