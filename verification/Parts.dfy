// The generated part_count column, the narrowing of sizes to 32 bits, and the
// tiling of a file by its parts.
module Parts {
  import opened Wrappers

  const PART_SIZE := 10485760
  const MULTIPART_THRESHOLD := 157286400
  const MAX_INT32 := 2147483647
  const MAX_SMALLINT := 32767
  // The size limit of request validation.
  const MAX_REQUEST_SIZE := 6442450944

  // int32(x) of an unsigned Go integer: the low 32 bits read as two's complement.
  function Int32(x: int): (r: int)
    ensures -MAX_INT32 - 1 <= r <= MAX_INT32
    ensures (r - x) % 0x1_0000_0000 == 0
  {
    var low := x % 0x1_0000_0000;
    if low <= MAX_INT32 then low else low - 0x1_0000_0000
  }

  // int16(x) of a Go integer.
  function Int16(x: int): (r: int)
    ensures -0x8000 <= r < 0x8000
    ensures (r - x) % 0x1_0000 == 0
  {
    var low := x % 0x1_0000;
    if low < 0x8000 then low else low - 0x1_0000
  }

  // SQL division of bigints truncates toward zero.
  function TruncatedQuotient(a: int, b: int): int
    requires b > 0
  {
    if a >= 0 then a / b else -((-a) / b)
  }

  function PartCount(fileSize: int, partSize: int): int
    requires partSize > 0
  {
    TruncatedQuotient(fileSize + partSize - 1, partSize)
  }

  // generate_series(1, count, 1)
  function PartNumbers(count: Option<int>): (r: seq<int>)
    ensures |r| == if count.Some? && count.value > 0 then count.value else 0
    ensures forall i :: 0 <= i < |r| ==> r[i] == i + 1
  {
    if count.Some? && count.value > 0 then seq(count.value, i => i + 1) else []
  }

  lemma PartNumbersContain(count: Option<int>, k: int)
    ensures k in PartNumbers(count) <==> count.Some? && 1 <= k <= count.value
  {
    var r := PartNumbers(count);
    if count.Some? && 1 <= k <= count.value {
      assert r[k - 1] == k;
    }
  }

  // The bytes of part k of a file: the interval [PartStart, PartEnd).
  function PartStart(k: int, partSize: int): int {
    (k - 1) * partSize
  }

  function PartEnd(k: int, size: int, partSize: int): int {
    if k * partSize < size then k * partSize else size
  }

  ghost predicate InPart(b: int, k: int, size: int, partSize: int) {
    PartStart(k, partSize) <= b < PartEnd(k, size, partSize)
  }

  ghost predicate Covered(b: int, size: int, partSize: int, n: int) {
    exists k :: 1 <= k <= n && InPart(b, k, size, partSize)
  }

  // Parts 1..n cover every byte of the file once, none is empty, and all but the last are full.
  ghost predicate Tiles(size: int, partSize: int, n: int) {
    && (forall b :: 0 <= b < size ==> Covered(b, size, partSize, n))
    && (forall b, j, k :: 1 <= j < k <= n && InPart(b, j, size, partSize) ==> !InPart(b, k, size, partSize))
    && (forall k :: 1 <= k <= n ==> PartStart(k, partSize) < PartEnd(k, size, partSize))
    && (forall k :: 1 <= k < n ==> PartEnd(k, size, partSize) - PartStart(k, partSize) == partSize)
  }

  lemma PartCountBounds(size: int, p: int)
    requires size > 0 && p > 0
    ensures PartCount(size, p) >= 1
    ensures (PartCount(size, p) - 1) * p < size <= PartCount(size, p) * p
  {
    var a := size + p - 1;
    assert a == a / p * p + a % p;
  }

  // The count is the quotient that SQL computes: what is left of the dividend is smaller than a
  // part and has the sign of the dividend.
  lemma PartCountTruncates(size: int, p: int)
    requires p > 0
    ensures size + p - 1 >= 0 ==> 0 <= size + p - 1 - PartCount(size, p) * p < p
    ensures size + p - 1 < 0 ==> -p < size + p - 1 - PartCount(size, p) * p <= 0
  {
    var a := size + p - 1;
    assert a >= 0 ==> a == a / p * p + a % p;
    assert a < 0 ==> -a == (-a) / p * p + (-a) % p;
  }

  lemma ProductMonotone(a: int, b: int, p: int)
    requires a <= b && p > 0
    ensures a * p <= b * p
  {
  }

  lemma PartsCover(size: int, p: int, b: int)
    requires p > 0 && 0 <= b < size
    ensures 1 <= b / p + 1 <= PartCount(size, p) && InPart(b, b / p + 1, size, p)
  {
    PartCountBounds(size, p);
    var k := b / p + 1;
    assert b == b / p * p + b % p;
    assert (k - 1) * p <= b < k * p;
    if k > PartCount(size, p) {
      ProductMonotone(PartCount(size, p), k - 1, p);
    }
  }

  lemma PartsFull(size: int, p: int, k: int)
    requires size > 0 && p > 0 && 1 <= k <= PartCount(size, p)
    ensures PartStart(k, p) < PartEnd(k, size, p)
    ensures k < PartCount(size, p) ==> PartEnd(k, size, p) - PartStart(k, p) == p
  {
    PartCountBounds(size, p);
    var n := PartCount(size, p);
    ProductMonotone(k - 1, n - 1, p);
    if k < n {
      ProductMonotone(k, n - 1, p);
    }
    assert k * p == (k - 1) * p + p;
  }

  lemma PartsDisjoint(size: int, p: int, b: int, j: int, k: int)
    requires p > 0 && j < k && InPart(b, j, size, p)
    ensures !InPart(b, k, size, p)
  {
    ProductMonotone(j, k - 1, p);
  }

  // The generated part count tiles a file of the stored size, whatever the part size.
  lemma PartsTile(size: int, p: int)
    requires size > 0 && p > 0
    ensures Tiles(size, p, PartCount(size, p))
  {
    forall b | 0 <= b < size
      ensures Covered(b, size, p, PartCount(size, p))
    {
      PartsCover(size, p, b);
    }
    forall b, j, k | 1 <= j < k <= PartCount(size, p) && InPart(b, j, size, p)
      ensures !InPart(b, k, size, p)
    {
      PartsDisjoint(size, p, b, j, k);
    }
    forall k | 1 <= k <= PartCount(size, p)
      ensures PartStart(k, p) < PartEnd(k, size, p)
      ensures k < PartCount(size, p) ==> PartEnd(k, size, p) - PartStart(k, p) == p
    {
      PartsFull(size, p, k);
    }
  }

  // Parts that end before the file does leave its last byte out.
  lemma TooFewParts(size: int, p: int, n: int)
    requires size > 0 && p > 0 && n * p < size
    ensures !Tiles(size, p, n)
  {
    var last := size - 1;
    forall k | 1 <= k <= n
      ensures !InPart(last, k, size, p)
    {
      ProductMonotone(k, n, p);
    }
    assert !Covered(last, size, p, n);
  }

  // The claimed size of a multipart file survives narrowing exactly up to 2147483647.
  lemma NarrowingExact(claimed: int)
    requires 0 <= claimed <= MAX_REQUEST_SIZE
    ensures Int32(claimed) == claimed <==> claimed <= MAX_INT32
  {
  }

  // For every size the request validation admits to a multipart upload, the parts counted
  // by the database tile the file the client claimed exactly when the size fits 32 bits.
  lemma PartsTileClaimedSize(claimed: int)
    requires MULTIPART_THRESHOLD <= claimed <= MAX_REQUEST_SIZE
    ensures Tiles(claimed, PART_SIZE, PartCount(Int32(claimed), PART_SIZE)) <==> claimed <= MAX_INT32
    ensures claimed <= MAX_INT32 ==> 15 <= PartCount(Int32(claimed), PART_SIZE) <= 205
  {
    var n := PartCount(Int32(claimed), PART_SIZE);
    if claimed <= MAX_INT32 {
      PartsTile(claimed, PART_SIZE);
    } else {
      TooFewParts(claimed, PART_SIZE, n);
    }
  }

  // Whatever 32-bit size is stored, the count fits a smallint and one page of a part listing.
  lemma PartCountSmall(stored: int)
    requires stored <= MAX_INT32
    ensures PartCount(stored, PART_SIZE) <= 205
  {
  }
}
