// What can be known of a request before it is sent: which of its files will need an upload, and
// what they will meet in the table.
module Conditions {
  import opened Wrappers
  import opened Hex
  import opened Attempts
  import opened Database
  import opened Intake
  import opened Uploads
  import opened ImageStore

  ghost predicate AllCanonical(files: seq<UploadFile>) {
    forall f :: f in files ==> Canonical(f.sha256)
  }

  lemma NeededDistinct(db: Db, files: seq<UploadFile>, lot: Uuid, w: Trace, res: UploadResult)
    requires Classified(db, files, lot, w, res)
    ensures DistinctShas(w.needed) && DistinctShas(Multis(w.needed)) && DistinctShas(Singles(w.needed))
    ensures multiset(files) == multiset(res.duplicates) + multiset(res.alreadyUploaded) + multiset(w.needed)
  {
    DedupeDistinct(files);
    DedupeConserves(files);
    DistinctPermutation(FirstOccurrences(files), w.needed);
    SizesSplit(w.needed);
    DistinctPermutation(w.needed, Multis(w.needed));
    DistinctPermutation(w.needed, Singles(w.needed));
  }

  lemma InOneOf(all: seq<UploadFile>, a: seq<UploadFile>, b: seq<UploadFile>)
    requires multiset(all) == multiset(a + b)
    ensures forall f :: f in all <==> f in a || f in b
  {
    forall f: UploadFile
      ensures f in all <==> f in a || f in b
    {
      assert f in multiset(all) <==> f in all;
      assert f in multiset(a + b) <==> f in a + b;
    }
  }

  // A kept file is answered as already uploaded exactly when its digest is canonical and that of
  // a blob whose upload has been completed: the same digest in other letters is uploaded again.
  lemma AlreadyUploadedExactly(db: Db, files: seq<UploadFile>, lot: Uuid, w: Trace, res: UploadResult, f: UploadFile)
    requires Classified(db, files, lot, w, res) && f in FirstOccurrences(files)
    ensures f in res.alreadyUploaded <==>
            && Canonical(f.sha256) && PgDecode(f.sha256).Some?
            && PgDecode(f.sha256).value in db.blobs && db.blobs[PgDecode(f.sha256).value].completed
    ensures f in w.needed <==> f !in res.alreadyUploaded
  {
    hide PgDecode, Encode, Canonical;
    var shas := Shas(FirstOccurrences(files));
    InOneOf(FirstOccurrences(files), w.needed, res.alreadyUploaded);
    StoredShasContain(db.blobs, shas, f.sha256);
    if x :| x in shas && IsStored(db.blobs, x) && ReturnedSha(x) == f.sha256 {
      EncodeCanonical(PgDecode(x).value);
    }
    if Canonical(f.sha256) && IsStored(db.blobs, f.sha256) {
      CanonicalDecodes(f.sha256);
      var i :| 0 <= i < |shas| && FirstOccurrences(files)[i] == f;
      assert shas[i] in shas;
    }
  }

  /* ---------- the files that need an upload ---------- */

  // A kept file needs an upload unless its digest is canonical and that of a stored blob.
  ghost predicate Needs(db: Db, files: seq<UploadFile>, f: UploadFile) {
    f in FirstOccurrences(files) && !(Canonical(f.sha256) && IsStored(db.blobs, f.sha256))
  }

  lemma NeededAre(db: Db, files: seq<UploadFile>, lot: Uuid, w: Trace, res: UploadResult)
    requires Classified(db, files, lot, w, res)
    ensures forall f :: f in w.needed <==> Needs(db, files, f)
    ensures forall f :: f in Singles(w.needed) <==> Needs(db, files, f) && IsSingle(f)
    ensures forall f :: f in Multis(w.needed) <==> Needs(db, files, f) && IsMulti(f)
  {
    hide Canonical, PgDecode, Filter;
    InOneOf(FirstOccurrences(files), w.needed, res.alreadyUploaded);
    forall f: UploadFile
      ensures f in w.needed <==> Needs(db, files, f)
      ensures f in Singles(w.needed) <==> f in w.needed && IsSingle(f)
      ensures f in Multis(w.needed) <==> f in w.needed && IsMulti(f)
    {
      FilterMember(IsSingle, w.needed, f);
      FilterMember(IsMulti, w.needed, f);
      if f in FirstOccurrences(files) {
        AlreadyUploadedExactly(db, files, lot, w, res, f);
      }
    }
  }

  // Every file shares its digest text with a kept one.
  lemma {:induction false} HasFirst(files: seq<UploadFile>, i: nat) returns (f: UploadFile)
    requires i < |files|
    ensures f in FirstOccurrences(files) && f.sha256 == files[i].sha256
    decreases i
  {
    if Repeats(files, i) {
      var j :| 0 <= j < i && files[j].sha256 == files[i].sha256;
      f := HasFirst(files, j);
    } else {
      DedupeKeepsFirsts(files);
      f := files[i];
    }
  }

  // Whether all needed digests are canonical can be seen on the batch itself.
  lemma CanonicalBatch(db: Db, files: seq<UploadFile>, lot: Uuid, w: Trace, res: UploadResult)
    requires Classified(db, files, lot, w, res)
    ensures AllCanonical(w.needed) <==> AllCanonical(files)
    ensures AllCanonical(Multis(w.needed)) <==> AllCanonical(Multis(FirstOccurrences(files)))
  {
    hide Canonical, IsStored, Classified, Filter;
    NeededAre(db, files, lot, w, res);
    var kept := FirstOccurrences(files);
    forall f: UploadFile
      ensures f in Multis(kept) <==> f in kept && IsMulti(f)
    {
      FilterMember(IsMulti, kept, f);
    }
    if AllCanonical(w.needed) {
      forall f | f in files
        ensures Canonical(f.sha256)
      {
        var i :| 0 <= i < |files| && files[i] == f;
        var g := HasFirst(files, i);
        assert !Canonical(g.sha256) ==> Needs(db, files, g);
      }
    }
  }

  /* ---------- the rows they meet ---------- */

  // Row id is the pending row of the file for the lot.
  ghost predicate PendingFor(t: Table, lot: Uuid, f: UploadFile, id: int) {
    PgDecode(f.sha256).Some? && PendingAt(t, PgDecode(f.sha256).value, lot, id)
  }

  ghost predicate HasPending(t: Table, lot: Uuid, f: UploadFile) {
    exists id :: PendingFor(t, lot, f, id)
  }

  ghost predicate MeetsMultiUpload(t: Table, lot: Uuid, f: UploadFile) {
    exists id :: PendingFor(t, lot, f, id) && t.rows[id].uploadType.MultiUpload?
  }

  ghost predicate SameDigest(f: UploadFile, g: UploadFile) {
    PgDecode(f.sha256).Some? && PgDecode(f.sha256) == PgDecode(g.sha256)
  }

  // A single file of the same batch needs an upload of the same digest.
  ghost predicate SharesDigest(db: Db, files: seq<UploadFile>, f: UploadFile) {
    exists g :: Needs(db, files, g) && IsSingle(g) && SameDigest(f, g)
  }

  ghost predicate MeetsSingleRow(t: Table, lot: Uuid, f: UploadFile) {
    exists id :: PendingFor(t, lot, f, id) && t.rows[id].uploadType.SingleUpload?
  }

  // The multipart statement of the request will find the row of a single upload for the file:
  // one that is pending already, or one that the request itself is about to insert.
  ghost predicate MeetsSingleUpload(db: Db, files: seq<UploadFile>, lot: Uuid, f: UploadFile) {
    || MeetsSingleRow(db.table, lot, f)
    || (!HasPending(db.table, lot, f) && SharesDigest(db, files, f))
  }
}
