// The object store as the program sees it: multipart uploads that are created, receive
// parts, are listed one page at a time, and are completed.
module ObjectStore {
  import opened Wrappers
  import opened Attempts

  type Etag = string

  datatype Upload = Upload(key: Uuid, parts: map<int, Etag>, completed: bool)

  datatype S3 = S3(uploads: map<UploadId, Upload>, next: UploadId)

  datatype PartInfo = PartInfo(number: int, etag: Etag)

  // An entry of the list that completes an upload.
  datatype CompletedPart = CompletedPart(number: int, etag: Etag)

  // A presigned UploadPart request.
  datatype Token = Token(key: Uuid, uploadId: UploadId, part: int)

  const MAX_PART_NUMBER := 10000
  const PAGE_SIZE := 1000

  predicate IsOpen(s3: S3, key: Uuid, uploadId: UploadId) {
    uploadId in s3.uploads && s3.uploads[uploadId].key == key && !s3.uploads[uploadId].completed
  }

  // The stored parts with number at least `from`, ascending, at most `room` of them.
  function PageFrom(parts: map<int, Etag>, from: int, room: nat): seq<PartInfo>
    decreases MAX_PART_NUMBER + 1 - from
  {
    if from > MAX_PART_NUMBER || room == 0 then []
    else if from in parts then [PartInfo(from, parts[from])] + PageFrom(parts, from + 1, room - 1)
    else PageFrom(parts, from + 1, room)
  }

  // Entries from `from` on that are stored, ascending.
  ghost predicate IsListing(parts: map<int, Etag>, from: int, page: seq<PartInfo>) {
    && (forall p | p in page :: from <= p.number <= MAX_PART_NUMBER && p.number in parts && parts[p.number] == p.etag)
    && (forall i, j :: 0 <= i < j < |page| ==> page[i].number < page[j].number)
  }

  lemma {:induction false} PageFromSound(parts: map<int, Etag>, from: int, room: nat)
    ensures IsListing(parts, from, PageFrom(parts, from, room)) && |PageFrom(parts, from, room)| <= room
    decreases MAX_PART_NUMBER + 1 - from
  {
    if from > MAX_PART_NUMBER || room == 0 {
    } else if from in parts {
      PageFromSound(parts, from + 1, room - 1);
      var rest := PageFrom(parts, from + 1, room - 1);
      assert forall i :: 0 <= i < |rest| ==> rest[i] in rest;
    } else {
      PageFromSound(parts, from + 1, room);
    }
  }

  // One ListParts response.
  function Page(u: Upload): seq<PartInfo> {
    PageFrom(u.parts, 1, PAGE_SIZE)
  }

  function NumberSet(page: seq<PartInfo>): set<int> {
    set p | p in page :: p.number
  }

  lemma {:induction false} NumbersDistinct(page: seq<PartInfo>)
    requires forall i, j :: 0 <= i < j < |page| ==> page[i].number != page[j].number
    ensures |NumberSet(page)| == |page|
  {
    if page != [] {
      var front, last := page[..|page| - 1], page[|page| - 1];
      NumbersDistinct(front);
      assert page == front + [last];
      assert NumberSet(page) == NumberSet(front) + {last.number};
      assert last.number !in NumberSet(front);
    }
  }

  function Interval(lo: int, hi: int): (r: set<int>)
    ensures forall k :: k in r <==> lo <= k <= hi
    ensures |r| == if lo <= hi then hi - lo + 1 else 0
    decreases hi - lo
  {
    if lo > hi then {} else Interval(lo, hi - 1) + {hi}
  }

  lemma SubsetSize(a: set<int>, b: set<int>)
    requires a <= b
    ensures |a| <= |b|
    ensures |a| == |b| ==> a == b
  {
    assert b == a + (b - a);
    assert |b| == |a| + |b - a|;
    if |a| == |b| {
      assert b - a == {};
    }
  }

  // The stored part numbers a listing from `from` on has to show.
  function StoredFrom(parts: map<int, Etag>, from: int): set<int> {
    set k | k in parts && from <= k <= MAX_PART_NUMBER
  }

  lemma ConsNumberSet(p: PartInfo, rest: seq<PartInfo>)
    ensures NumberSet([p] + rest) == {p.number} + NumberSet(rest)
  {
    assert forall q :: q in [p] + rest <==> q == p || q in rest;
  }

  lemma StoredFromStep(parts: map<int, Etag>, from: int)
    requires from <= MAX_PART_NUMBER
    ensures from in parts ==>
              && StoredFrom(parts, from) == {from} + StoredFrom(parts, from + 1)
              && |StoredFrom(parts, from)| == 1 + |StoredFrom(parts, from + 1)|
    ensures from !in parts ==> StoredFrom(parts, from) == StoredFrom(parts, from + 1)
  {
    if from in parts {
      assert StoredFrom(parts, from) == {from} + StoredFrom(parts, from + 1);
    }
  }

  lemma PageFromHere(parts: map<int, Etag>, from: int, room: nat)
    requires from in parts && from <= MAX_PART_NUMBER && room > 0
    ensures NumberSet(PageFrom(parts, from, room)) == {from} + NumberSet(PageFrom(parts, from + 1, room - 1))
  {
    var head, rest := PartInfo(from, parts[from]), PageFrom(parts, from + 1, room - 1);
    assert PageFrom(parts, from, room) == [head] + rest;
    ConsNumberSet(head, rest);
  }

  // A page leaves no stored part out when there are no more than fit.
  lemma {:induction false} PageFromComplete(parts: map<int, Etag>, from: int, room: nat)
    requires |StoredFrom(parts, from)| <= room
    ensures NumberSet(PageFrom(parts, from, room)) == StoredFrom(parts, from)
    decreases MAX_PART_NUMBER + 1 - from
  {
    if from > MAX_PART_NUMBER || room == 0 {
      assert StoredFrom(parts, from) == {};
    } else {
      StoredFromStep(parts, from);
      if from in parts {
        PageFromHere(parts, from, room);
        PageFromComplete(parts, from + 1, room - 1);
      } else {
        PageFromComplete(parts, from + 1, room);
      }
    }
  }

  lemma PageComplete(u: Upload, n: int)
    requires u.parts.Keys <= Interval(1, n) && n <= PAGE_SIZE
    ensures NumberSet(Page(u)) == u.parts.Keys
    ensures |Page(u)| == |u.parts.Keys|
  {
    var from := 1;
    var stored := StoredFrom(u.parts, from);
    assert stored == u.parts.Keys;
    SubsetSize(u.parts.Keys, Interval(1, n));
    PageFromComplete(u.parts, from, PAGE_SIZE);
    PageFromSound(u.parts, from, PAGE_SIZE);
    NumbersDistinct(Page(u));
  }

  // The pigeonhole behind the count check: when the stored parts are among 1..n and all fit
  // one page, a page has n entries exactly when every part of 1..n is stored.
  lemma PageCount(u: Upload, n: nat)
    requires u.parts.Keys <= Interval(1, n) && n <= PAGE_SIZE
    ensures |Page(u)| == n <==> u.parts.Keys == Interval(1, n)
  {
    PageComplete(u, n);
    SubsetSize(u.parts.Keys, Interval(1, n));
  }

  /* ---------- effects ---------- */

  // CreateMultipartUpload for each key in turn; the i-th upload gets the id next + i.
  function CreateAll(s3: S3, keys: seq<Uuid>): (r: S3)
    ensures r.next == s3.next + |keys|
  {
    if keys == [] then s3
    else
      var s := CreateAll(s3, keys[..|keys| - 1]);
      S3(s.uploads[s.next := Upload(keys[|keys| - 1], map[], false)], s.next + 1)
  }

  // The created uploads are empty and hold their keys; the older ones are as they were.
  lemma {:induction false} CreateAllEffect(s3: S3, keys: seq<Uuid>)
    ensures forall u :: s3.next <= u < s3.next + |keys| ==>
              u in CreateAll(s3, keys).uploads && CreateAll(s3, keys).uploads[u] == Upload(keys[u - s3.next], map[], false)
    ensures forall u :: u !in Interval(s3.next, s3.next + |keys| - 1) ==>
              && (u in CreateAll(s3, keys).uploads <==> u in s3.uploads)
              && (u in s3.uploads ==> CreateAll(s3, keys).uploads[u] == s3.uploads[u])
  {
    if keys != [] {
      CreateAllEffect(s3, keys[..|keys| - 1]);
    }
  }

  function CreatedIds(s3: S3, keys: seq<Uuid>): (r: seq<UploadId>)
    ensures |r| == |keys| && forall i :: 0 <= i < |r| ==> r[i] == s3.next + i
  {
    seq(|keys|, i => s3.next + i)
  }

  predicate PartAccepted(s3: S3, token: Token) {
    IsOpen(s3, token.key, token.uploadId) && 1 <= token.part <= MAX_PART_NUMBER
  }

  function StorePart(s3: S3, token: Token, etag: Etag): S3
    requires PartAccepted(s3, token)
  {
    var u := s3.uploads[token.uploadId];
    s3.(uploads := s3.uploads[token.uploadId := u.(parts := u.parts[token.part := etag])])
  }

  // The store completes an open upload from a list that is not empty, names stored parts with
  // their etags, and is strictly ascending.
  predicate Accepts(u: Upload, parts: seq<CompletedPart>) {
    && !u.completed && parts != []
    && (forall i :: 0 <= i < |parts| ==> parts[i].number in u.parts && u.parts[parts[i].number] == parts[i].etag)
    && (forall i, j :: 0 <= i < j < |parts| ==> parts[i].number < parts[j].number)
  }

  function MarkCompleted(s3: S3, uploadId: UploadId): S3
    requires uploadId in s3.uploads
  {
    s3.(uploads := s3.uploads[uploadId := s3.uploads[uploadId].(completed := true)])
  }

  // The store only grows: uploads stay, keep their key, never lose a part and never reopen.
  ghost predicate Grows(s: S3, s': S3) {
    && s.next <= s'.next
    && forall u :: u in s.uploads ==>
         && u in s'.uploads
         && s'.uploads[u].key == s.uploads[u].key
         && s.uploads[u].parts.Keys <= s'.uploads[u].parts.Keys
         && (s.uploads[u].completed ==> s'.uploads[u].completed)
  }

  // The client of the store.  Any call may fail, unless the store is reliable; then a call only
  // fails when the store has a reason to refuse it.
  class Client {
    const reliable: bool
    var uploads: map<UploadId, Upload>
    var next: UploadId

    ghost function View(): S3
      reads this
    {
      S3(uploads, next)
    }

    constructor (reliable: bool)
      ensures View() == S3(map[], 0) && this.reliable == reliable
    {
      this.reliable := reliable;
      uploads, next := map[], 0;
    }

    method CreateMultipartUpload(key: Uuid) returns (r: Option<UploadId>)
      modifies this
      ensures reliable ==> r.Some?
      ensures r.Some? ==> r.value == old(next) && View() == CreateAll(old(View()), [key])
      ensures r.None? ==> View() == old(View())
    {
      var fails := *;
      if fails && !reliable {
        return None;
      }
      r := Some(next);
      uploads := uploads[next := Upload(key, map[], false)];
      next := next + 1;
    }

    // A missing upload id is refused before any request is sent.
    method ListParts(key: Uuid, uploadId: Option<UploadId>) returns (r: Option<seq<PartInfo>>)
      ensures reliable && uploadId.Some? && IsOpen(View(), key, uploadId.value) ==> r.Some?
      ensures r.Some? ==> uploadId.Some? && IsOpen(View(), key, uploadId.value)
                          && r.value == Page(View().uploads[uploadId.value])
    {
      var fails := *;
      if fails && !reliable {
        return None;
      }
      if uploadId.None? || uploadId.value !in uploads
         || uploads[uploadId.value].key != key || uploads[uploadId.value].completed {
        return None;
      }
      r := Some(Page(uploads[uploadId.value]));
    }

    method PresignUploadPart(key: Uuid, uploadId: UploadId, part: int) returns (r: Option<Token>)
      ensures reliable ==> r.Some?
      ensures r.Some? ==> r.value == Token(key, uploadId, part)
    {
      var fails := *;
      if fails && !reliable {
        return None;
      }
      r := Some(Token(key, uploadId, part));
    }

    // Signs a PUT of one object; the signed request is the key and the checksum themselves.
    method PresignPutObject() returns (signed: bool)
      ensures reliable ==> signed
    {
      signed := *;
      signed := signed || reliable;
    }

    method CompleteMultipartUpload(uploadId: UploadId, parts: seq<CompletedPart>) returns (accepted: bool)
      requires uploadId in uploads
      modifies this
      ensures accepted ==> Accepts(old(uploads[uploadId]), parts)
      ensures reliable && Accepts(old(uploads[uploadId]), parts) ==> accepted
      ensures View() == if accepted then MarkCompleted(old(View()), uploadId) else old(View())
    {
      var fails := *;
      accepted := Accepts(uploads[uploadId], parts) && (reliable || !fails);
      if accepted {
        uploads := uploads[uploadId := uploads[uploadId].(completed := true)];
      }
    }
  }
}
