// The files of one request: removing duplicates, and parting stored files from new ones.
module Intake {
  import opened Wrappers

  type Uint64 = x: int | 0 <= x < 0x1_0000_0000_0000_0000

  datatype UploadFile = UploadFile(sha256: string, fileName: string, clientFileId: string, fileSize: Uint64)

  const ZERO_FILE := UploadFile("", "", "", 0)

  // File i repeats the digest of an earlier file.
  predicate Repeats(files: seq<UploadFile>, i: nat)
    requires i < |files|
  {
    exists j :: 0 <= j < i && files[j].sha256 == files[i].sha256
  }

  // The files whose digest is new, in order; and the others, in order.
  function FirstOccurrences(files: seq<UploadFile>): (r: seq<UploadFile>)
    ensures forall f :: f in r ==> f in files
  {
    if files == [] then []
    else
      var n := |files| - 1;
      var front := FirstOccurrences(files[..n]);
      assert forall f :: f in files[..n] ==> f in files;
      if Repeats(files, n) then front else front + [files[n]]
  }

  function Duplicates(files: seq<UploadFile>): seq<UploadFile> {
    if files == [] then []
    else
      var n := |files| - 1;
      if Repeats(files, n) then Duplicates(files[..n]) + [files[n]] else Duplicates(files[..n])
  }

  function Shas(files: seq<UploadFile>): seq<string> {
    Map((f: UploadFile) => f.sha256, files)
  }

  ghost predicate DistinctShas(files: seq<UploadFile>) {
    forall i, j :: 0 <= i < j < |files| ==> files[i].sha256 != files[j].sha256
  }

  method IntentBatchUpload(files: seq<UploadFile>) returns (kept: seq<UploadFile>, duplicates: seq<UploadFile>)
    ensures kept == FirstOccurrences(files) && duplicates == Duplicates(files)
  {
    var isSeen: map<string, bool> := map[];
    kept, duplicates := [], [];
    var i := 0;
    while i < |files|
      invariant 0 <= i <= |files|
      invariant forall s :: s in isSeen ==> isSeen[s]
      invariant forall s :: s in isSeen <==> exists j :: 0 <= j < i && files[j].sha256 == s
      invariant kept == FirstOccurrences(files[..i]) && duplicates == Duplicates(files[..i])
    {
      var f := files[i];
      var upTo := files[..i + 1];
      assert upTo[..i] == files[..i] && upTo[i] == f;
      assert Repeats(upTo, i) <==> f.sha256 in isSeen;
      if f.sha256 in isSeen && isSeen[f.sha256] {
        duplicates := duplicates + [f];
      } else {
        kept := kept + [f];
      }
      isSeen := isSeen[f.sha256 := true];
      i := i + 1;
    }
    assert files[..i] == files;
  }

  // Deduplication loses nothing.
  lemma {:induction false} DedupeConserves(files: seq<UploadFile>)
    ensures multiset(files) == multiset(FirstOccurrences(files)) + multiset(Duplicates(files))
  {
    if files != [] {
      DedupeConserves(files[..|files| - 1]);
      assert files == files[..|files| - 1] + [files[|files| - 1]];
    }
  }

  lemma RepeatsPrefix(files: seq<UploadFile>, n: nat)
    requires n <= |files|
    ensures forall i :: 0 <= i < n ==> (Repeats(files[..n], i) <==> Repeats(files, i))
  {
    forall i | 0 <= i < n
      ensures Repeats(files[..n], i) <==> Repeats(files, i)
    {
      assert forall j :: 0 <= j <= i ==> files[..n][j] == files[j];
    }
  }

  // The outputs of a prefix that is one file longer.
  lemma DedupeStep(files: seq<UploadFile>, n: nat)
    requires 0 < n <= |files|
    ensures Duplicates(files[..n]) == if Repeats(files, n - 1) then Duplicates(files[..n - 1]) + [files[n - 1]] else Duplicates(files[..n - 1])
    ensures FirstOccurrences(files[..n]) ==
            if Repeats(files, n - 1) then FirstOccurrences(files[..n - 1]) else FirstOccurrences(files[..n - 1]) + [files[n - 1]]
  {
    assert files[..n][..n - 1] == files[..n - 1];
    RepeatsPrefix(files, n);
  }

  // What is kept is exactly the first file of each digest.
  lemma DedupeKeepsFirsts(files: seq<UploadFile>)
    ensures forall i :: 0 <= i < |files| && !Repeats(files, i) ==> files[i] in FirstOccurrences(files)
    ensures forall f :: f in FirstOccurrences(files) ==>
              exists i :: 0 <= i < |files| && files[i] == f && !Repeats(files, i)
  {
    hide FirstOccurrences, Repeats;
    assert files[..|files|] == files;
    forall f: UploadFile
      ensures f in FirstOccurrences(files) <==> FirstBelow(files, |files|, f)
    {
      KeptBelow(files, |files|, f);
    }
    assert forall i :: 0 <= i < |files| && !Repeats(files, i) ==> FirstBelow(files, |files|, files[i]);
  }

  ghost predicate FirstBelow(files: seq<UploadFile>, n: nat, f: UploadFile)
    requires n <= |files|
  {
    exists i :: 0 <= i < n && files[i] == f && !Repeats(files, i)
  }

  lemma {:induction false} KeptBelow(files: seq<UploadFile>, n: nat, f: UploadFile)
    requires n <= |files|
    ensures f in FirstOccurrences(files[..n]) <==> FirstBelow(files, n, f)
  {
    if n > 0 {
      KeptBelow(files, n - 1, f);
      DedupeStep(files, n);
      hide FirstOccurrences, Repeats;
      assert FirstBelow(files, n, f) <==> FirstBelow(files, n - 1, f) || (files[n - 1] == f && !Repeats(files, n - 1));
    }
  }

  lemma {:induction false} DedupeDistinct(files: seq<UploadFile>)
    ensures DistinctShas(FirstOccurrences(files))
  {
    if files != [] {
      var n := |files| - 1;
      DedupeDistinct(files[..n]);
      var kept := FirstOccurrences(files[..n]);
      forall i | 0 <= i < |kept| && !Repeats(files, n)
        ensures kept[i].sha256 != files[n].sha256
      {
        assert kept[i] in files[..n];
        var j :| 0 <= j < n && files[..n][j] == kept[i];
        assert files[j] == kept[i];
      }
    }
  }

  // Both outputs are in the order of the batch: the file at position i that has an earlier one of
  // the same digest stands among the duplicates after all such files before it; and any other
  // among the kept ones after all such.
  lemma DedupeInOrder(files: seq<UploadFile>)
    ensures var again := (k: int) => 0 <= k < |files| && exists j :: 0 <= j < k && files[j].sha256 == files[k].sha256;
            && |Duplicates(files)| == CountBelow(again, |files|)
            && forall i :: 0 <= i < |files| && again(i) ==>
                 CountBelow(again, i) < |Duplicates(files)| && Duplicates(files)[CountBelow(again, i)] == files[i]
    ensures var first := (k: int) => 0 <= k < |files| && forall j :: 0 <= j < k ==> files[j].sha256 != files[k].sha256;
            && |FirstOccurrences(files)| == CountBelow(first, |files|)
            && forall i :: 0 <= i < |files| && first(i) ==>
                 CountBelow(first, i) < |FirstOccurrences(files)| && FirstOccurrences(files)[CountBelow(first, i)] == files[i]
  {
    var again := (k: int) => 0 <= k < |files| && exists j :: 0 <= j < k && files[j].sha256 == files[k].sha256;
    var first := (k: int) => 0 <= k < |files| && forall j :: 0 <= j < k ==> files[j].sha256 != files[k].sha256;
    DedupeSelects(files, again, first, |files|);
    assert files[..|files|] == files;
    SelectCount(again, files, |files|);
    SelectCount(first, files, |files|);
    hide FirstOccurrences, Duplicates;
    forall i | 0 <= i < |files|
      ensures again(i) ==> CountBelow(again, i) < |Duplicates(files)| && Duplicates(files)[CountBelow(again, i)] == files[i]
      ensures first(i) ==> CountBelow(first, i) < |FirstOccurrences(files)| && FirstOccurrences(files)[CountBelow(first, i)] == files[i]
    {
      if again(i) {
        SelectPlace(again, files, i, |files|);
      }
      if first(i) {
        SelectPlace(first, files, i, |files|);
      }
    }
  }

  // The tests of the two outputs.
  ghost predicate Tests(files: seq<UploadFile>, again: int -> bool, first: int -> bool) {
    forall k :: 0 <= k < |files| ==> again(k) == Repeats(files, k) && first(k) == !Repeats(files, k)
  }

  lemma {:induction false} DedupeSelects(files: seq<UploadFile>, again: int -> bool, first: int -> bool, n: nat)
    requires n <= |files| && Tests(files, again, first)
    ensures Duplicates(files[..n]) == Select(again, files, n) && FirstOccurrences(files[..n]) == Select(first, files, n)
  {
    if n > 0 {
      DedupeSelects(files, again, first, n - 1);
      DedupeStep(files, n);
      hide FirstOccurrences, Duplicates, Repeats;
    }
  }

  // A batch without repeated digests is returned whole; so the first output is a fixed point.
  lemma {:induction false} DedupeFixed(files: seq<UploadFile>)
    requires DistinctShas(files)
    ensures FirstOccurrences(files) == files && Duplicates(files) == []
  {
    if files != [] {
      var n := |files| - 1;
      DedupeFixed(files[..n]);
      assert files == files[..n] + [files[n]];
    }
  }

  lemma DedupeIdempotent(files: seq<UploadFile>)
    ensures var kept := FirstOccurrences(files);
            FirstOccurrences(kept) == kept && Duplicates(kept) == []
  {
    DedupeDistinct(files);
    DedupeFixed(FirstOccurrences(files));
  }

  // The map from digest to file that later stages look files up in.
  ghost predicate Indexes(m: map<string, UploadFile>, files: seq<UploadFile>) {
    && (forall i :: 0 <= i < |files| ==> files[i].sha256 in m && m[files[i].sha256] == files[i])
    && (forall s :: s in m ==> m[s] in files && m[s].sha256 == s)
  }

  // The file a map lookup yields; Go gives the zero value for a missing key.
  ghost function LookupFile(files: seq<UploadFile>, s: string): UploadFile {
    if exists i :: 0 <= i < |files| && files[i].sha256 == s
    then var i :| 0 <= i < |files| && files[i].sha256 == s; files[i]
    else ZERO_FILE
  }

  method IndexBySha(files: seq<UploadFile>) returns (m: map<string, UploadFile>, sha256s: seq<string>, names: seq<string>)
    requires DistinctShas(files)
    ensures Indexes(m, files)
    ensures sha256s == Shas(files) && |names| == |files| && forall i :: 0 <= i < |files| ==> names[i] == files[i].fileName
  {
    m, sha256s, names := map[], [], [];
    var i := 0;
    while i < |files|
      invariant 0 <= i <= |files|
      invariant Indexes(m, files[..i])
      invariant sha256s == Shas(files[..i]) && |names| == i && forall j :: 0 <= j < i ==> names[j] == files[j].fileName
    {
      var f := files[i];
      assert files[..i + 1] == files[..i] + [f];
      sha256s := sha256s + [f.sha256];
      names := names + [f.fileName];
      m := m[f.sha256 := f];
      i := i + 1;
    }
    assert files[..i] == files;
  }

  predicate Carries(existing: seq<string>, f: UploadFile) {
    f.sha256 in existing
  }

  // Walks the index in an arbitrary order: both outputs are known up to order only.
  method SeparateUploadedAndNeedToBeUploadedFiles(m: map<string, UploadFile>, existing: seq<string>, ghost files: seq<UploadFile>)
    returns (needed: seq<UploadFile>, uploaded: seq<UploadFile>)
    requires Indexes(m, files) && DistinctShas(files)
    ensures multiset(needed) + multiset(uploaded) == multiset(files)
    ensures Separated(existing, needed, uploaded)
  {
    needed, uploaded := [], [];
    var keys := m.Keys;
    ghost var left := multiset(files);
    while keys != {}
      invariant keys <= m.Keys && Left(files, keys, left)
      invariant Accounted(needed, uploaded, left, files)
      invariant Separated(existing, needed, uploaded)
      decreases keys
    {
      var s :| s in keys;
      var f := m[s];
      LeftWithout(files, keys, left, f);
      MoveOne(needed, uploaded, left, files, f);
      left := left - multiset{f};
      if Carries(existing, f) {
        uploaded := uploaded + [f];
      } else {
        needed := needed + [f];
      }
      keys := keys - {s};
    }
    assert left == multiset{};
  }

  ghost predicate Separated(existing: seq<string>, needed: seq<UploadFile>, uploaded: seq<UploadFile>) {
    (forall f :: f in uploaded ==> Carries(existing, f)) && (forall f :: f in needed ==> !Carries(existing, f))
  }

  // Every file is needed, uploaded or still left.
  ghost predicate Accounted(needed: seq<UploadFile>, uploaded: seq<UploadFile>, left: multiset<UploadFile>, files: seq<UploadFile>) {
    multiset(needed) + multiset(uploaded) + left == multiset(files)
  }

  lemma MoveOne(needed: seq<UploadFile>, uploaded: seq<UploadFile>, left: multiset<UploadFile>, files: seq<UploadFile>, f: UploadFile)
    requires Accounted(needed, uploaded, left, files) && f in left
    ensures Accounted(needed + [f], uploaded, left - multiset{f}, files)
    ensures Accounted(needed, uploaded + [f], left - multiset{f}, files)
  {
    assert left == (left - multiset{f}) + multiset{f};
  }

  // The files still to be visited, when their digests are.
  ghost predicate Left(files: seq<UploadFile>, keys: set<string>, left: multiset<UploadFile>) {
    left <= multiset(files) && forall f :: f in left <==> f in files && f.sha256 in keys
  }

  lemma LeftWithout(files: seq<UploadFile>, keys: set<string>, left: multiset<UploadFile>, f: UploadFile)
    requires DistinctShas(files) && Left(files, keys, left) && f in files && f.sha256 in keys
    ensures f in left && Left(files, keys - {f.sha256}, left - multiset{f})
  {
    MultiplicityOne(files, f, f);
    forall g | g in left && g.sha256 == f.sha256
      ensures g == f
    {
      MultiplicityOne(files, f, g);
    }
  }

  // Files in another order still have distinct digests.
  lemma DistinctPermutation(files: seq<UploadFile>, others: seq<UploadFile>)
    requires DistinctShas(files) && multiset(others) <= multiset(files)
    ensures DistinctShas(others)
  {
    forall i, j | 0 <= i < j < |others|
      ensures others[i].sha256 != others[j].sha256
    {
      if others[i].sha256 == others[j].sha256 {
        MultiplicityOne(files, others[i], others[j]);
        TwiceIn(others, i, j);
      }
    }
  }

  lemma TwiceIn(files: seq<UploadFile>, i: nat, j: nat)
    requires i < j < |files|
    ensures files[i] == files[j] ==> multiset(files)[files[i]] >= 2
    ensures files[i] in multiset(files) && files[j] in multiset(files)
  {
    assert files == files[..j] + files[j..];
    assert files[i] in files[..j] && files[j] in files[j..];
    assert multiset(files) == multiset(files[..j]) + multiset(files[j..]);
  }

  lemma {:induction false} MultiplicityOne(files: seq<UploadFile>, f: UploadFile, g: UploadFile)
    requires DistinctShas(files)
    ensures multiset(files)[f] <= 1
    ensures f in files && g in files && f.sha256 == g.sha256 ==> f == g
  {
    if files != [] {
      var n := |files| - 1;
      MultiplicityOne(files[..n], f, g);
      assert files == files[..n] + [files[n]];
    }
  }
}
