// The wire messages of the files, and their conversion to and from the program's own files.
module Wire {
  import opened Wrappers
  import opened Parts
  import opened Intake

  type Int32Value = x: int | -0x8000_0000 <= x < 0x8000_0000

  const MIN_INT64 := -0x8000_0000_0000_0000
  const MAX_INT64 := 0x7fff_ffff_ffff_ffff

  /* ---------- decimal text ---------- */

  function DigitChar(d: int): char
    requires 0 <= d < 10
  {
    (d + '0' as int) as char
  }

  function Digits(n: nat): string {
    if n < 10 then [DigitChar(n)] else Digits(n / 10) + [DigitChar(n % 10)]
  }

  // strconv.Itoa
  function Itoa(n: int): string {
    if n < 0 then "-" + Digits(-n) else Digits(n)
  }

  // The value of a non-empty string of decimal digits.
  function DigitsValue(s: string): Option<int> {
    if s == "" || !('0' <= s[|s| - 1] <= '9') then None
    else
      var d := s[|s| - 1] as int - '0' as int;
      if |s| == 1 then Some(d)
      else match DigitsValue(s[..|s| - 1])
        case None => None
        case Some(v) => Some(10 * v + d)
  }

  // strconv.Atoi: an optional sign, decimal digits, the range of a 64-bit integer.
  function Atoi(s: string): Option<int> {
    var signed := s != "" && (s[0] == '-' || s[0] == '+');
    match DigitsValue(if signed then s[1..] else s)
    case None => None
    case Some(v) =>
      var n := if signed && s[0] == '-' then -v else v;
      if MIN_INT64 <= n <= MAX_INT64 then Some(n) else None
  }

  lemma {:induction false} DigitsParse(n: nat)
    ensures DigitsValue(Digits(n)) == Some(n)
    ensures Digits(n) != "" && Digits(n)[0] != '-' && Digits(n)[0] != '+'
  {
    if n >= 10 {
      DigitsParse(n / 10);
      var s := Digits(n);
      assert s[..|s| - 1] == Digits(n / 10);
    }
  }

  // Printing then parsing an integer gives it back exactly when it fits 64 bits.
  lemma PrintParse(n: int)
    ensures Atoi(Itoa(n)) == if MIN_INT64 <= n <= MAX_INT64 then Some(n) else None
  {
    DigitsParse(if n < 0 then -n else n);
    if n < 0 {
      assert Itoa(n)[1..] == Digits(-n);
    }
  }

  // The text is the decimal one: a digit for a number below ten, the text of the quotient by ten
  // followed by the digit of the remainder for a larger one, a sign before that of a negative one.
  lemma DecimalText(n: int)
    ensures 0 <= n < 10 ==> Itoa(n) == ["0123456789"[n]]
    ensures n >= 10 ==> Itoa(n) == Itoa(n / 10) + ["0123456789"[n % 10]]
    ensures n < 0 ==> Itoa(n) == "-" + Itoa(-n)
  {
  }

  /* ---------- files ---------- */

  // Every field of the message may be absent.
  datatype ImageFile = ImageFile(
    sha256: Option<string>, fileName: Option<string>, clientFileId: Option<Int32Value>, fileSize: Option<Uint64>)

  predicate Complete(m: ImageFile) {
    m.sha256.Some? && m.fileName.Some? && m.clientFileId.Some? && m.fileSize.Some?
  }

  // Dereferencing an absent field panics.
  function ConvertToUploadFile(m: ImageFile): Outcome<UploadFile> {
    if Complete(m)
    then Ok(UploadFile(m.sha256.value, m.fileName.value, Itoa(m.clientFileId.value), m.fileSize.value))
    else Panic
  }

  function ConvertToImageFile(f: UploadFile): Outcome<ImageFile> {
    match Atoi(f.clientFileId)
    case None => Err(Internal)
    case Some(id) => Ok(ImageFile(Some(f.sha256), Some(f.fileName), Some(Int32(id)), Some(f.fileSize)))
  }

  // For every client id, negatives included, and every size, a file survives the way in and out.
  lemma FileRoundTrip(m: ImageFile)
    ensures Complete(m) <==> ConvertToUploadFile(m).Ok?
    ensures Complete(m) ==> ConvertToImageFile(ConvertToUploadFile(m).value) == Ok(m)
  {
    hide Itoa, Atoi;
    if Complete(m) {
      PrintParse(m.clientFileId.value);
    }
  }

  ghost predicate CameFromWire(f: UploadFile) {
    exists m :: ConvertToUploadFile(m) == Ok(f)
  }

  method ConvertToUploadFiles(images: seq<ImageFile>) returns (r: Outcome<seq<UploadFile>>)
    ensures r.Ok? <==> forall m :: m in images ==> Complete(m)
    ensures !r.Err?
    ensures r.Ok? ==>
              && |r.value| == |images|
              && forall i :: 0 <= i < |images| ==> ConvertToUploadFile(images[i]) == Ok(r.value[i])
  {
    var files: seq<UploadFile> := [];
    var i := 0;
    while i < |images|
      invariant 0 <= i <= |images| && |files| == i
      invariant forall j :: 0 <= j < i ==> ConvertToUploadFile(images[j]) == Ok(files[j])
    {
      var file := ConvertToUploadFile(images[i]);
      if !file.Ok? {
        assert images[i] in images;
        return Panic;
      }
      files := files + [file.value];
      i := i + 1;
    }
    r := Ok(files);
  }

  method ConvertToImageFiles(files: seq<UploadFile>) returns (r: Outcome<seq<ImageFile>>)
    ensures r.Ok? <==> forall f :: f in files ==> ConvertToImageFile(f).Ok?
    ensures !r.Ok? ==> r == Err(Internal)
    ensures r.Ok? ==>
              && |r.value| == |files|
              && forall i :: 0 <= i < |files| ==> ConvertToImageFile(files[i]) == Ok(r.value[i])
  {
    var images: seq<ImageFile> := [];
    var i := 0;
    while i < |files|
      invariant 0 <= i <= |files| && |images| == i
      invariant forall j :: 0 <= j < i ==> ConvertToImageFile(files[j]) == Ok(images[j])
    {
      var image := ConvertToImageFile(files[i]);
      if !image.Ok? {
        assert files[i] in files;
        return Err(Internal);
      }
      images := images + [image.value];
      i := i + 1;
    }
    r := Ok(images);
  }

  // A file that came in over the wire always goes out; the zero file never does.
  lemma ConvertibleFiles(f: UploadFile)
    ensures CameFromWire(f) ==> ConvertToImageFile(f).Ok?
    ensures ConvertToImageFile(ZERO_FILE) == Err(Internal)
  {
    if CameFromWire(f) {
      var m :| ConvertToUploadFile(m) == Ok(f);
      FileRoundTrip(m);
    }
  }
}
