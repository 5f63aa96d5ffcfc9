// Completing a multipart upload: read the row, list the parts, compare the counts, send.
module Completion {
  import opened Wrappers
  import opened Attempts
  import opened ObjectStore
  import opened Database

  // The request the program sends to the object store.
  datatype CompleteRequest = CompleteRequest(key: Uuid, uploadId: UploadId, parts: seq<CompletedPart>)

  ghost predicate Ascending(parts: seq<CompletedPart>) {
    forall i, j :: 0 <= i < j < |parts| ==> parts[i].number <= parts[j].number
  }

  ghost predicate SortedUpTo(parts: array<CompletedPart>, n: int)
    requires 0 <= n <= parts.Length
    reads parts
  {
    forall i, j :: 0 <= i < j < n ==> parts[i].number <= parts[j].number
  }

  // Moves the part at n left to its place among the sorted ones before it.
  method InsertInOrder(parts: array<CompletedPart>, n: nat)
    requires n < parts.Length && SortedUpTo(parts, n)
    modifies parts
    ensures SortedUpTo(parts, n + 1)
    ensures multiset(parts[..]) == multiset(old(parts[..]))
  {
    var k := n;
    while k > 0 && parts[k].number < parts[k - 1].number
      invariant 0 <= k <= n
      invariant forall i, j :: 0 <= i < j <= n && j != k ==> parts[i].number <= parts[j].number
      invariant multiset(parts[..]) == multiset(old(parts[..]))
    {
      parts[k], parts[k - 1] := parts[k - 1], parts[k];
      k := k - 1;
    }
  }

  // slices.SortFunc by part number, in place.
  method SortParts(parts: array<CompletedPart>)
    modifies parts
    ensures forall i, j :: 0 <= i < j < parts.Length ==> parts[i].number <= parts[j].number
    ensures multiset(parts[..]) == multiset(old(parts[..]))
  {
    var n := 0;
    while n < parts.Length
      invariant 0 <= n <= parts.Length
      invariant SortedUpTo(parts, n) && multiset(parts[..]) == multiset(old(parts[..]))
    {
      InsertInOrder(parts, n);
      n := n + 1;
    }
  }

  // The step that lists the parts; None when there is no open upload to list.
  function ListStep(s3: S3, item: MultipartItem): Option<seq<PartInfo>> {
    if item.uploadId.Some? && IsOpen(s3, item.storageKey, item.uploadId.value)
    then Some(Page(s3.uploads[item.uploadId.value])) else None
  }

  // The check before the request is sent.
  predicate CountMatches(item: MultipartItem, page: seq<PartInfo>) {
    item.partCount.Some? && |page| == item.partCount.value
  }

  // The row has a multipart upload that is open under the key of the row.
  predicate HasOpenUpload(t: Table, s3: S3, id: int) {
    && id in t.rows && t.rows[id].uploadId.Some? && t.rows[id].uploadId.value in s3.uploads
    && s3.uploads[t.rows[id].uploadId.value].key == t.rows[id].storageKey
    && !s3.uploads[t.rows[id].uploadId.value].completed
  }

  // How many entries the listing of that upload has.
  function ListedParts(t: Table, s3: S3, id: int): nat
    requires HasOpenUpload(t, s3, id)
  {
    |Page(s3.uploads[t.rows[id].uploadId.value])|
  }

  // The reply of the store is ignored: the call succeeds exactly when the request was sent, and
  // whether the store then completed the upload only depends on the client's list.  Each other
  // outcome has its condition, which is exact when neither the database nor the store fails.
  method CompleteMultiPartUpload(db: Queries, client: Client, attemptId: int, etags: array<CompletedPart>)
    returns (r: Outcome<()>, sent: Option<CompleteRequest>)
    modifies client, etags
    ensures r.Ok? <==> sent.Some?
    ensures sent.Some? ==>
              var t, s3 := db.View().table, old(client.View());
              && HasOpenUpload(t, s3, attemptId)
              && t.rows[attemptId].partCount == Some(ListedParts(t, s3, attemptId))
              && sent.value.key == t.rows[attemptId].storageKey
              && t.rows[attemptId].uploadId == Some(sent.value.uploadId)
              && (forall i, j :: 0 <= i < j < |sent.value.parts| ==> sent.value.parts[i].number <= sent.value.parts[j].number)
              && multiset(sent.value.parts) == multiset(old(etags[..]))
              && (client.View() == s3
                  || (client.View() == MarkCompleted(s3, sent.value.uploadId)
                      && Accepts(s3.uploads[sent.value.uploadId], sent.value.parts)))
              && (client.reliable && Accepts(s3.uploads[sent.value.uploadId], sent.value.parts) ==>
                    client.View() == MarkCompleted(s3, sent.value.uploadId))
    ensures sent.Some? ==>
              var item := ReadItem(db.View().table, attemptId);
              && item.Some? && ListStep(old(client.View()), item.value).Some?
              && CountMatches(item.value, ListStep(old(client.View()), item.value).value)
    ensures sent.None? ==> client.View() == old(client.View())
    ensures r.Err? ==> r.fault in {Internal, NotFound, PartsMissing}
    ensures r == Err(NotFound) ==> attemptId !in db.rows
    ensures r == Err(PartsMissing) ==>
              var t, s3 := db.View().table, old(client.View());
              && HasOpenUpload(t, s3, attemptId) && t.rows[attemptId].partCount.Some?
              && t.rows[attemptId].partCount.value != ListedParts(t, s3, attemptId)
    ensures r.Panic? ==> HasOpenUpload(db.View().table, old(client.View()), attemptId) && db.rows[attemptId].partCount.None?
    ensures r == Err(Internal) && db.reliable && client.reliable ==>
              attemptId in db.rows && !HasOpenUpload(db.View().table, old(client.View()), attemptId)
  {
    sent := None;
    var found := db.GetMultiPartUploadItem(attemptId);
    if found.None? {
      return Err(Internal), sent;
    }
    if found.value.None? {
      return Err(NotFound), sent;
    }
    var item := found.value.value;
    SortParts(etags);
    var page := client.ListParts(item.storageKey, item.uploadId);
    if page.None? {
      return Err(Internal), sent;
    }
    if item.partCount.None? {
      return Panic, sent;
    }
    if |page.value| != item.partCount.value {
      return Err(PartsMissing), sent;
    }
    sent := Some(CompleteRequest(item.storageKey, item.uploadId.value, etags[..]));
    var _ := client.CompleteMultipartUpload(item.uploadId.value, sent.value.parts);
    r := Ok(());
  }
}
