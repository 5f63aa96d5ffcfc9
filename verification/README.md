# Image upload intents: a verified model

The service answers two remote calls. *GeneratePresignedUrl* takes a batch of image files for a lot
and answers, for each file, that it is a duplicate within the batch, that its content is already
stored, or which presigned requests upload it: one PUT below 157286400 bytes, and above that the
parts of a multipart upload which later calls resume. *CompleteMultiPartUpload* counts the stored
parts and asks the object store to assemble them. Between calls the state lives in a table of upload
attempts with a five-day validity window, and in the object store.

This project models that protocol down to its SQL statements, the row-version trigger, the generated
`part_count`, the narrowing of sizes to 32 bits and the text encodings, and proves what it keeps over
every run. It also models the error trees of the service and their translation into gRPC statuses.

## How the model is laid out

| file | models |
|---|---|
| `Hex.dfy`, `Base64.dfy`, `Wire.dfy` | digests as text in Go and in PostgreSQL, checksums, decimal ids, wire messages |
| `Parts.dfy` | part counts, part tiling, 32-bit and 16-bit narrowing |
| `Attempts.dfy` | a row of the attempts table, its trigger and generated column, one upsert statement, the partial unique index |
| `Database.dfy` | the tables, the effect of each statement, and the query object (a class over mutable tables) |
| `ObjectStore.dfy` | multipart uploads, 1000-entry part listings, presigned requests, and the client object |
| `Intake.dfy`, `Uploads.dfy`, `ImageStore.dfy` | the stages of one request, as methods with the source's loops, proved against functions and predicates |
| `Completion.dfy` | the completion call, with its in-place sort |
| `Conditions.dfy` | what can be told of a request before it is sent: the files that will need an upload and the rows they meet |
| `Requests.dfy` | conservation of files and correctness of the joins, for every successful request |
| `Replies.dfy` | what holds between the answers of one reply: object keys, open uploads |
| `Endpoints.dfy` | what one request does to rows, uploads and lot images, and what it answers, field by field |
| `Service.dfy` | the remote procedure from request message to reply message |
| `Protocol.dfy`, `ProtocolInitiate.dfy`, `ProtocolRuns.dfy`, `Panics.dfy` | the state machine of interleaved requests, its invariant, and safety over runs |
| `Success.dfy` | exactly which requests succeed, and which panic, when nothing outside fails |
| `Faults.dfy` | which fault a failing request ends in |
| `Progress.dfy` | what can still be done from any reachable world: request, upload what is missing before the requests expire, complete |
| `Witnesses.dfy` | runs that reach the inputs at which the conditions fail |
| `AppErrors.dfy`, `Interceptor.dfy` | error trees, the fold that gathers what a client may see, the gRPC status of an error |
| `Wrappers.dfy` | options, outcomes, filtering and reordering of sequences |

A request is a method on the query object and the store client. Its contract ties the new state to
the relation `ImageStore.Initiated`; a failed request is related by `ImageStore.Aborted`. The state
machine of `Protocol` uses these same relations as its steps and interleaves any number of requests,
part uploads and three-step completions. So what is proved of runs is proved of what the methods do.
Calls that may fail for reasons of the network, a server or the random source fail
nondeterministically, unless their object is reliable. Of reliable objects every failure is
explained by the data (`ImageStore.Fails`), so no contract is met by failing without a reason, and
which fault it is, is told from the batch, the table and the store (`Faults.FaultsExactly`).

## Environment

Stated as explicit hypotheses where they are used:

- Random storage keys do not repeat, are not the nil UUID and are new to the table
  (`Protocol.FreshDraws`). Upload ids are new; the store hands out its next number.
- A digest determines the size of its file (`Panics.Sized`) is assumed by `Panics.NoReachablePanic`
  and by the corollaries for such batches (`Success.SizedAcceptable`, `Success.InitiateReachable`)
  only. Completion safety, identity, resumption, conservation and the exact success condition do
  without it.
- The transaction times of the database may come in any order. A second clock, that of the signer
  and the store, only moves forward and decides whether a presigned request has expired.
- Canonical digests and sizes up to 2147483647 are not assumed; they are exact conditions
  (`Requests.JoinCorrect`, `Requests.Conservation`, `Parts.PartsTileClaimedSize`).

## What does not hold, and exactly when

Each condition below can be checked on the batch, the table and the store before the request.

- A digest with capital letters passes request validation (a length of 64 is all it asks for), but
  the database returns small letters and Go joins on the text. A stored blob is then not recognised
  (`Conditions.AlreadyUploadedExactly`; `Witnesses.CapitalsUploadAgain` reaches it), a single upload
  is presigned for the nil key (`Requests.SingleTargets`, `Replies.NilKey`,
  `Witnesses.CapitalsGoNowhere`), and a multipart upload is answered with an empty file
  (`Requests.CarriedFile`). The reply cannot be built from an empty file, and by then the transaction
  has been committed (`Requests.ResponseConvertible`, `Service.GeneratePresignedUrl`,
  `Witnesses.CapitalsLoseFile`, and `Witnesses.CapitalsExample` with sixty-four letters A).
- Different answers of one reply can share an object key. They do not if and only if at most one
  single file that needs an upload has such a digest, and no single file with a canonical digest has
  that of a multipart file of the batch whose pending row still gets parts presigned
  (`Replies.AnswersApart`). The second case needs a multipart digest in capital letters, so in a reply
  that can be built only the nil key is shared (`Replies.BuiltAnswersApart`).
  `Witnesses.CapitalsShareKey` and `Witnesses.UploadKeyShared` reach the two cases.
- Request validation admits sizes up to 6442450944, stored sizes are 32-bit. Above 2147483647 the
  issued parts do not cover the claimed file (`Parts.PartsTileClaimedSize`).
- A request panics on a null column if and only if nothing stops its two statements
  (`Success.Reaches`: digests that decode, hexadecimal ones for single files, a known lot or a row,
  versions left, no digest twice in one statement) and a multipart file meets a pending single upload
  of its digest, or a single file of the same batch has its digest and no row yet
  (`Success.PanicExactly`, `Success.InitiateExactly`). `Witnesses.PanicReachable` reaches it in two
  requests.
- A single file that meets a pending multipart upload of its digest is presigned a PUT to the object
  key of that upload (`Requests.SingleTargets`, `Replies.GoesToRow`); `Witnesses.PutToUpload` reaches
  it in two requests.
- Once a completion has been accepted, and until its row is committed or its window lapses, every
  request with that file for that lot fails. With stores that do not fail this is part of an exact
  condition: `Success.InitiateExactly`, and for canonical batches whose digests determine sizes
  `Success.InitiateReachable`, where only versions and open uploads are left of it.
  `Witnesses.RefusalReachable` reaches such a world.
- After the window has lapsed that row is treated as new, and the reply presigns all its parts for an
  upload that is closed: every part request of a reply is for an open upload exactly when no file
  meets such a row (`Replies.OpenRequests`). `Witnesses.LapsedReachable` reaches such a reply.
- Every repeated multipart initiation counts up the version of its row, even if nothing else changes,
  because a BEFORE trigger sees a null generated column (`Attempts.VersionBump`); the versions run
  out after 2147483647 of them (`Attempts.RepeatedMultiUpload`).
- Internal errors reach the client with an empty message although a message is passed to their
  constructor (`Interceptor.FaultStatus`).

## Model

| member | source | states |
|---|---|---|
| Hex.GoDecodeAccepts | internal/imagestore/image_upload.go:425-431 | the Go decoder accepts exactly even-length strings of hexadecimal digits, one byte per pair |
| Hex.DigitTable | internal/imagestore/image_upload.go:425-431 | the sixteen digits, small or capital, have the values nought to fifteen |
| Hex.ByteAt | internal/imagestore/image_upload.go:425-431 | byte k of a decoded digest is sixteen times the value of digit 2k plus that of digit 2k+1 |
| Hex.PgBlanks | internal/database/filestore/file_insert.sql.go:38 | the SQL decoder passes over blanks, tabs and line ends before a pair of digits and fails on any other character that is no digit |
| Hex.GoDecodeEncodes | internal/imagestore/image_upload.go:425-431 | decoding then encoding a digest is lower-casing it |
| Hex.DecodersAgree | internal/database/filestore/file_insert.sql.go:38 | on digit strings the SQL decoder and the Go decoder give the same bytes |
| Hex.CanonicalRoundTrip | internal/database/filestore/file_insert.sql.go:70 | the text the database returns for a digest is the text that was sent if and only if that text is canonical |
| Base64.Base64RoundTrip | internal/imagestore/image_upload.go:430 | a strict base64 decoder (sections 4 and 8 of RFC 4648) gives back every byte string, and the length is fixed by the number of bytes |
| Base64.SymbolTable | internal/imagestore/image_upload.go:430 | the alphabet is the standard one, capital letters, small letters, digits, plus and slash |
| Base64.FullGroup | internal/imagestore/image_upload.go:430 | four characters of the text are the symbols of the four six-bit numbers that make up three bytes, most significant first |
| Base64.LastGroup | internal/imagestore/image_upload.go:430 | one byte left over makes two symbols and two signs of padding, two bytes make three and one |
| Base64.HexToBase64Preserves | internal/imagestore/image_upload.go:425-431 | re-encoding succeeds exactly on hexadecimal digit pairs, denotes the same bytes, and makes 44 characters of 64 digits |
| Base64.HexToBase64Injective | internal/imagestore/image_upload.go:425-431 | two digests share a checksum text if and only if they are equal ignoring case |
| Parts.PartsTile | internal/database/migrations/000006_create_image_blob_upload_attempts.up.sql:13-17 | for every positive size and part size the generated part count tiles the file: each byte in one part, none empty, all but the last full |
| Parts.PartCountTruncates | internal/database/migrations/000006_create_image_blob_upload_attempts.up.sql:13-17 | for every size, negative ones included, the part count is the truncating quotient of SQL |
| Parts.PartsTileClaimedSize | internal/imagestore/image_upload.go:269 | over the whole validated range the parts counted from the narrowed size tile the claimed file if and only if it has at most 2147483647 bytes; then there are 15 to 205 |
| Parts.NarrowingExact | internal/imagestore/image_upload.go:260-269 | a claimed size in the validated range survives narrowing if and only if it is at most 2147483647 |
| Parts.PartCountSmall | internal/database/filestore/file_insert.sql.go:73-76 | any stored 32-bit size has at most 205 parts, so the smallint cast and one listing page suffice |
| Attempts.UpdateKeepsIdentity | internal/database/filestore/file_insert.sql.go:60-66 | an update changes no identifying column of a row and raises its version by at most one |
| Attempts.VersionBump | internal/database/migrations/000009_add_versioning_function.up.sql:13-18 | the version stays if and only if the SET clause changes nothing and the row has no part count |
| Attempts.UpdateFails | internal/database/migrations/000009_add_versioning_function.up.sql:8-18 | an update fails if and only if it would carry a changed row past the last 32-bit version |
| Attempts.RepeatedSingleUpload | internal/database/filestore/file_insert.sql.go:244-246 | any number of repeated single initiations leaves the pending row unchanged, version included |
| Attempts.RepeatedMultiUpload | internal/database/filestore/file_insert.sql.go:60-66 | n repeated multipart initiations succeed if and only if n versions are left, and raise the version by n |
| Attempts.UpsertMeetsEffect | internal/database/filestore/file_insert.sql.go:60-66 | a successful statement leaves one pending row per proposal, inserted or updated in place, all other rows untouched and the partial unique index intact |
| Attempts.UpsertRejectsRepeats | internal/database/migrations/000011_add_valid_column_and_hash_lotid_idx.up.sql:1 | a statement that proposes one digest and lot twice fails |
| Attempts.UpsertExactly | internal/database/filestore/file_insert.sql.go:60-66 | a statement succeeds if and only if it proposes no digest and lot twice and can update every row it finds, without exceeding a version |
| Attempts.WindowAgreement | internal/database/filestore/file_insert.sql.go:64-78 | for all old rows, null and boundary times included, a row is returned as valid and resumed if and only if its window ends at the time of the statement or later; it then keeps window and part size, and any other row gets a window of exactly five days from the statement |
| Database.ExistingShasContain | internal/database/filestore/file_insert.sql.go:145-185 | the returned digests are exactly the texts the database writes for those asked for whose blob exists and has is_upload_completed set |
| Database.LotImagesInOrder | internal/database/filestore/file_insert.sql.go:154-174 | one lot image is added for each such digest and for no other, with the lot, the id of the blob and the name sent with the digest |
| Database.Queries.InsertIdenticalImageBlobsToLotImages | internal/database/filestore/file_insert.sql.go:200-223 | adds the lot images of the stored digests and returns those digests; the only visible failure is an unknown lot |
| Database.Queries.UpsertRows | internal/database/filestore/file_insert.sql.go:31-66 | the row-by-row statement refines the specified upsert, failures included, and keeps the unique index |
| Database.Queries.RunStatement | internal/database/filestore/file_insert.sql.go:31-79 | decoding, upsert, smallint cast and foreign key together refine the statement, with the fault of each; which fault that is, is exact in Success.StatementExactly |
| Database.Queries.InsertSinglePartUpload | internal/database/filestore/file_insert.sql.go:265-291 | the returned rows are, up to order, those of the proposals |
| Database.Queries.InsertAndValidateMultiPartUpload | internal/database/filestore/file_insert.sql.go:105-143 | the returned rows are, up to order, those of the proposals, with flags taken from the old rows |
| Database.Queries.Rollback | internal/imagestore/image_upload.go:652 | restores every table; only the identity sequence keeps its place |
| ObjectStore.PageComplete | internal/imagestore/image_upload.go:583-587 | a listing of an upload whose parts are among 1..n, n at most 1000, shows exactly its stored parts |
| ObjectStore.PageCount | internal/imagestore/image_upload.go:594 | such a listing has n entries if and only if all of 1..n are stored |
| ObjectStore.CreateAllEffect | internal/imagestore/image_upload.go:433-441 | the created uploads are empty and hold their own keys; the older ones are untouched |
| Intake.IntentBatchUpload | internal/imagestore/image_upload.go:545-562 | the loop over the map of seen digests computes the first occurrences and the duplicates |
| Intake.DedupeConserves | internal/imagestore/image_upload.go:545-562 | deduplication loses nothing |
| Intake.DedupeKeepsFirsts | internal/imagestore/image_upload.go:545-562 | the kept files are exactly the first file of each digest |
| Intake.DedupeInOrder | internal/imagestore/image_upload.go:545-562 | both outputs are in the order of the batch: a file stands at the place given by how many of its kind come before it |
| Intake.DedupeDistinct | internal/imagestore/image_upload.go:545-562 | the kept files have distinct digests |
| Intake.DedupeIdempotent | internal/imagestore/image_upload.go:545-562 | deduplicating the kept files changes nothing |
| Intake.SeparateUploadedAndNeedToBeUploadedFiles | internal/imagestore/image_upload.go:718-730 | walking the map in any order parts the files by the returned digests and loses none |
| Uploads.ExtractFileData | internal/imagestore/image_upload.go:239-301 | the parallel arrays are the columns of the two order-preserving halves of the input, and exactly the drawn keys have uploads |
| Uploads.MultiColumnsZip | internal/imagestore/image_upload.go:262-280 | row i of the multipart arrays is multipart file i, size narrowed, with key i and upload id i |
| Uploads.SingleColumnsZip | internal/imagestore/image_upload.go:255-260 | row i of the single arrays is single file i, size unchanged |
| Uploads.CreatedUnderKey | internal/imagestore/image_upload.go:270-279 | upload id i was created under storage key i |
| Uploads.SizesSplit | internal/imagestore/image_upload.go:254-262 | the split by the threshold loses nothing |
| Uploads.SegregateMultiUploadFiles | internal/imagestore/image_upload.go:315-344 | panics if and only if a row lacks its upload id or part size; else routes every row, in order |
| Uploads.ListNotUploadedParts | internal/imagestore/image_upload.go:506-541 | the loops over listing and parts compute the ordered parts not listed, and the listing |
| Uploads.GenerateUrlsForNewUploads | internal/imagestore/image_upload.go:346-366 | each new row is answered with its own file's map entry and a request for every part |
| Uploads.GenerateUrlsForResumableUploads | internal/imagestore/image_upload.go:373-395 | each resumable row is answered with its own file's map entry, the missing parts and the listed etags |
| Uploads.RoutedUrls | internal/imagestore/image_upload.go:155-167 | the two routed groups together answer every returned row once |
| ImageStore.SingleRowsUnambiguous | internal/imagestore/image_upload.go:196-200 | one statement never returns two rows with one digest, so filling the map loses nothing |
| ImageStore.CreateSinglePresignedFileUrl | internal/imagestore/image_upload.go:170-214 | the statement ran, and each single file is answered with the key its digest finds and its checksum |
| ImageStore.CreateMultipartPresignedFileUrl | internal/imagestore/image_upload.go:123-168 | the statement ran, and the answers are those of its rows up to order; a panic means a null row |
| ImageStore.SkipUploadForIdenticalImageBlobs | internal/imagestore/image_upload.go:675-716 | parts the kept files into needed and already uploaded by what the statement returned |
| ImageStore.GenerateS3UploadUrl | internal/imagestore/image_upload.go:89-121 | the two statements ran one after the other on the columns of the needed files, and the answers are theirs |
| ImageStore.InitiateUpload | internal/imagestore/image_upload.go:632-671 | success takes the stores along the relation of a request; every failure leaves rows, blobs, lots and lot images as they were and only adds empty uploads; each fault has its cause in the data when nothing outside fails |
| Requests.MultiRowOf | internal/imagestore/image_upload.go:125-141 | row i of the multipart statement is the pending row of multipart file i |
| Requests.CarriedFile | internal/imagestore/image_upload.go:346-364 | the map lookup yields the file itself if its digest is canonical and the zero file if not |
| Requests.Conservation | internal/imagestore/image_upload.go:632-671 | duplicates, already uploaded files and files with presigned requests are the input as a multiset if and only if the digests of the kept multipart files of the batch are canonical |
| Conditions.AlreadyUploadedExactly | internal/imagestore/image_upload.go:709-730 | a kept file counts as already uploaded if and only if its digest is canonical, is that of a blob, and the upload of that blob has been completed; any other needs an upload |
| Conditions.NeededAre | internal/imagestore/image_upload.go:718-730 | the files left to upload, single and multipart, are told from the batch and the stored blobs alone |
| Conditions.CanonicalBatch | internal/imagestore/image_upload.go:709-730 | whether all needed, or all needed multipart, digests are canonical is told from the batch alone |
| Requests.ResponseConvertible | internal/imagestore/image_store.go:54-67 | of files that came over the wire the reply can be built if and only if the digests of the kept multipart files of the batch are canonical |
| Requests.SingleTargets | internal/imagestore/image_upload.go:195-212 | a single request goes to a pending single-upload row of its own file, with the checksum of its digest, if and only if the digest is canonical and no multipart upload of it was pending |
| Requests.MultiTargets | internal/imagestore/image_upload.go:346-392 | the requests of a multipart answer go to the key, upload and parts of its file's pending row if and only if the digest is canonical |
| Requests.JoinCorrect | internal/imagestore/image_upload.go:195-212 | every presigned request of a reply targets the pending row of its own file if and only if all digests of the batch are canonical and no needed single file meets a pending multipart upload |
| Replies.AnswersApart | internal/imagestore/image_upload.go:195-212 | different answers of a reply share no object key if and only if at most one needed single file has a digest that is not canonical, and no needed single file with a canonical digest has that of a needed multipart file whose pending row has parts to presign |
| Replies.BuiltAnswersApart | internal/imagestore/image_upload.go:350-392 | in a reply that can be built, different answers share no object key if and only if at most one needed single file has a digest that is not canonical |
| Replies.FilesDistinct | internal/imagestore/image_upload.go:346-364 | the answers of a reply that can be built are those of the needed files, for different digests |
| Replies.GoesToRow | internal/imagestore/image_upload.go:195-212 | a single file is sent to the object key of the pending row it meets, which is its target if and only if that row is no multipart upload |
| Replies.NilKey | internal/imagestore/image_upload.go:195-212 | every needed single file whose digest is not canonical is answered with the nil key |
| Replies.OpenRequests | internal/imagestore/image_upload.go:315-344 | every part request of a reply is for an open upload if and only if no needed multipart file meets a pending row with parts, a lapsed window and a closed upload |
| Endpoints.SingleStarts | internal/imagestore/image_upload.go:170-214 | a needed file below 157286400 bytes that meets no row gets one with its own digest, size, name and lot, version 0 and five days, and a PUT to the key of that row with a checksum of its digest |
| Endpoints.SingleMeets | internal/database/filestore/file_insert.sql.go:244-246 | one that meets the row of a single upload is sent to the key of that row, which stays as it is, window and version included |
| Endpoints.MultiStarts | internal/imagestore/image_upload.go:346-366 | a needed larger file that meets no row gets one with part size 10485760 and its part count, a new empty upload under the key of the row, and one request for each part, in order |
| Endpoints.MultiMeets | internal/imagestore/image_upload.go:315-395 | a needed larger file that meets a row changes its version, and after the window the window, and nothing else; within the window it is answered, in order, with requests for exactly the parts not stored and the etags of those that are, after it with requests for all parts |
| Endpoints.RestUntouched | internal/imagestore/image_upload.go:632-671 | a request changes or inserts no row but those of its needed files, and touches no blob, lot or older upload |
| Endpoints.ImagesAdded | internal/database/filestore/file_insert.sql.go:145-185 | a request adds to the lot one image for each kept file whose blob has been completed, with the id of the blob and the name of the file, and none for any other |
| Service.ConvertToPresignedImageFiles | internal/imagestore/image_store.go:81-92 | succeeds if and only if every file converts, and keeps files and requests in order |
| Service.ReplyConserves | internal/imagestore/image_store.go:48-79 | a reply that can be built at all accounts for every message of its request, as often as it was sent |
| Service.ReplyAccounts | internal/imagestore/image_store.go:48-79 | of the request messages, those with an earlier one of the same digest are the duplicates, in order; each other one is among the uploaded ones if its digest is canonical and that of a completed blob, and else among those with presigned requests |
| Service.GeneratePresignedUrl | internal/imagestore/image_store.go:48-79 | the files of the request are the messages field by field; a successful reply places every message where its digest belongs and keeps the presigned requests with their digests; a failure has rolled the database back, or comes after the commit because of a digest that is not canonical; a missing field panics; with stores that do not fail a complete request succeeds if and only if it is acceptable and its kept multipart digests are canonical, panics if and only if it must, and reports an unknown lot at the stage that notices it |
| Wire.PrintParse | internal/imagestore/image_store.go:202-224 | parsing the decimal text of an integer gives it back if and only if it fits 64 bits |
| Wire.DecimalText | internal/imagestore/image_store.go:198-206 | the text of a client id is the decimal one |
| Wire.FileRoundTrip | internal/imagestore/image_store.go:198-235 | for every 32-bit client id and 64-bit size a file survives conversion in and out |
| Wire.ConvertToUploadFiles | internal/imagestore/image_store.go:189-196 | converts in order; panics if and only if a field is absent |
| Wire.ConvertToImageFiles | internal/imagestore/image_store.go:208-220 | converts in order; fails if and only if one file does |
| Wire.ConvertibleFiles | internal/imagestore/image_store.go:222-227 | a file from the wire always converts back; the zero file never does |
| Completion.InsertInOrder | internal/imagestore/image_upload.go:579-581 | one insertion keeps the sorted prefix and the parts |
| Completion.SortParts | internal/imagestore/image_upload.go:579-581 | sorts the client's parts in place and loses none |
| Completion.CompleteMultiPartUpload | internal/imagestore/image_upload.go:564-624 | the request is sent only if the row has an open upload under its key whose listing has part_count entries, for that key and upload, with the client's parts sorted; not found, internal, parts missing and panic each have their condition, exact when nothing outside fails; nothing is sent otherwise, and the upload is completed only if the store accepts the list |
| Protocol.RowOrigin | internal/database/filestore/file_insert.sql.go:31-66 | a row after a statement is an older row, evolved, or the inserted row of one proposal |
| Protocol.UpsertKeepsTableInv | internal/database/migrations/000011_add_valid_column_and_hash_lotid_idx.up.sql:1-3 | a statement with fresh keys keeps unique pending rows, distinct keys and uploads, and the null pattern of each upload type |
| ProtocolInitiate.InitiateKeepsInv | internal/imagestore/image_upload.go:632-671 | a request keeps the protocol invariant and takes nothing back |
| ProtocolInitiate.InitiateIssuedInv | internal/imagestore/image_upload.go:443-504 | requests reach callers only for parts 1..part_count of multipart rows |
| ProtocolRuns.StepKeepsInv | internal/imagestore/image_upload.go:564-671 | every step of every interleaving keeps the invariant |
| ProtocolRuns.RunInv | internal/imagestore/image_upload.go:564-671 | the invariant holds in every world of every run |
| ProtocolRuns.RunEvolves | internal/database/filestore/file_insert.sql.go:60-66 | over any stretch of a run no row changes identity, part size or part count, no version or window moves back, and no upload loses a part |
| ProtocolRuns.VersionStamp | internal/database/migrations/000009_add_versioning_function.up.sql:8-18 | between any two worlds of a run a row has the same version if and only if nothing of it has changed, and its version never falls |
| ProtocolRuns.StepRaisesVersion | internal/database/migrations/000009_add_versioning_function.up.sql:13-18 | a request raises a version by at most one for each of its two statements, a commit by at most one, and no other step raises any |
| ProtocolRuns.StableIdentity | internal/database/filestore/file_insert.sql.go:60-66 | at most one row is pending for a digest and lot, and as long as one is pending it is the same row with the same key, upload, type, size and parts |
| ProtocolRuns.StoredAmongParts | internal/imagestore/image_upload.go:443-463 | in every reachable world the stored parts of a row's upload are among its 1..part_count, at most 205 |
| ProtocolRuns.CompletionSafety | internal/imagestore/image_upload.go:583-618 | whenever the completion request is sent, in any interleaving of its three steps and with whatever list of parts, the store holds exactly the parts 1..part_count, which tile the stored size |
| ProtocolRuns.ResumePartition | internal/imagestore/image_upload.go:506-541 | in every reachable world the parts of a row divide into the missing ones, ascending, and the listed ones, and the counts add up |
| ProtocolRuns.ResumeAnswers | internal/imagestore/image_upload.go:315-395 | a multipart file whose pending row has a window ending at the time of the request or later is answered with exactly the missing parts and the listed etags, and the row keeps its window; any other is answered with all parts of its row and a window of five days; the row is the one pending before, if there was one, and is named by attempt id and part size; the file is echoed if its digest is canonical |
| ProtocolRuns.ResumedForFiveDays | internal/database/filestore/file_insert.sql.go:64-78 | after a request at time t that starts an upload, or starts it over, a later request for the same digest and lot resumes it if and only if it comes at most five days after t, as long as the row is pending and was not started over in between |
| ProtocolRuns.GoodForFifteenMinutes | internal/imagestore/image_upload.go:443-463 | a part request can be used for fifteen minutes after the last reply that carried it, and no longer |
| ProtocolRuns.StableReplies | internal/imagestore/image_upload.go:315-395 | two requests of a run for one digest and lot are answered with the same attempt if and only if the row of the first is still pending; then all their requests are for one object key and upload, and a row that is live again asks for no part the first answer did not |
| ProtocolRuns.ResumeProgress | internal/imagestore/image_upload.go:506-541 | a later resume never misses a part an earlier one did not |
| Panics.NullsExactly | internal/imagestore/image_upload.go:319-340 | two statements that have succeeded return a null row if and only if a needed multipart file meets a pending single upload, or shares its digest with a needed single file that has no row |
| Panics.NoReachablePanic | internal/imagestore/image_upload.go:319-340 | if digests determine sizes, no request after any run meets a null column |
| Panics.MixedSizesPanic | internal/imagestore/image_upload.go:319-340 | over a pending single row the multipart statement succeeds and returns a row without upload id and part size |
| Panics.CompletionNeverPanics | internal/imagestore/image_upload.go:594 | a completion call that can list its parts always finds a part count |
| Panics.CountCheckExact | internal/imagestore/image_upload.go:594 | in every reachable world the count check passes if and only if all parts of the row are stored |
| Panics.RunRequests | internal/imagestore/image_upload.go:632-671 | for every successful request of every run: targets, conservation, answers apart and open part requests each hold if and only if a condition on batch, table and store before it does |
| Success.StatementExactly | internal/database/filestore/file_insert.sql.go:31-79 | a statement succeeds if and only if its digests decode, no key is proposed twice, the rows it finds can be updated and, for an unknown lot, it finds a row for every proposal; it reports the unknown lot if and only if only the last fails |
| Success.SinglesExactly | internal/imagestore/image_upload.go:170-214 | the single uploads of a request succeed if and only if each needed single file has a hexadecimal digest, a known lot or a row, versions where its row counts them, and shares its digest with no other |
| Success.MultisExactly | internal/imagestore/image_upload.go:123-168 | after the single uploads, the multipart statement succeeds if and only if each needed multipart file decodes, has a known lot or a row and versions left, and shares its digest with no other; the multipart uploads do if and only if moreover each meets no single upload and, if its row is live, an open upload |
| Success.StagesExactly | internal/imagestore/image_upload.go:89-121 | both statements succeed, and both stages do, if and only if a condition on the files of the batch, the table and the store before them holds |
| Success.NoReasonToFail | internal/imagestore/image_upload.go:632-671 | an acceptable request has no reason to fail |
| Success.NoReasonToPanic | internal/imagestore/image_upload.go:632-671 | nor to panic |
| Success.SuccessWasAcceptable | internal/imagestore/image_upload.go:632-671 | a request that succeeded was acceptable |
| Success.PanicExactly | internal/imagestore/image_upload.go:319-340 | a request can panic, with whatever fresh draws, if and only if both its statements would succeed and a needed multipart file meets a single upload |
| Success.InitiateExactly | internal/imagestore/image_upload.go:632-671 | with stores that do not fail, a request succeeds if and only if it is acceptable, and panics if and only if it must: conditions on its own files, the table and the store before it |
| Success.SizedAcceptable | internal/imagestore/image_upload.go:632-671 | for a known lot, a canonical batch whose digests determine sizes is acceptable if and only if the rows its own needed multipart files meet have versions left and, if live, open uploads |
| Success.InitiateReachable | internal/imagestore/image_upload.go:632-671 | in every reachable world such a batch succeeds under exactly that condition, loses no file, targets the right rows and shares no object key between answers |
| Faults.SingleNotices | internal/imagestore/image_upload.go:185-194 | the single statement reports an unknown lot if and only if no content is stored, every needed single file can be written, and one has no row |
| Faults.MultiNotices | internal/imagestore/image_upload.go:142-151 | after the single uploads the multipart statement does if and only if no content is stored, the single uploads pass, every needed multipart file can be written, and one has no row |
| Faults.FaultsExactly | internal/imagestore/image_upload.go:632-716 | with stores that do not fail a request reports an unknown lot at the look-up, at the single or at the multipart uploads only under the condition of that stage, and if all digests decode if and only if; every other failure is internal |
| Faults.InitiateFaults | internal/imagestore/image_upload.go:632-716 | so does the method |
| Progress.AcceptableHappens | internal/imagestore/image_upload.go:632-671 | for every acceptable batch there is a successful request |
| Progress.CanInitiate | internal/imagestore/image_upload.go:632-671 | from every world that keeps the invariant an acceptable request is a possible step |
| Progress.CanUpload | internal/imagestore/image_upload.go:483-504 | a part whose request has not expired can be stored while its upload is open |
| Progress.HoldsMissing | internal/imagestore/image_upload.go:465-504 | after every request whose reply can be built, for each of its multipart files, the row is answered and the caller holds a valid request of this reply for every missing part |
| Progress.CanSend | internal/imagestore/image_upload.go:564-618 | once all parts are stored the three steps of a completion go through, and the store accepts the list of all parts |
| Progress.FinishAll | internal/imagestore/image_upload.go:465-618 | any rows for whose missing parts a caller holds valid requests can be completed one after the other, in as many steps as there are missing parts and completion calls, without touching another upload |
| Progress.RequestCompletes | internal/imagestore/image_upload.go:465-618 | after every request of every reachable world whose reply can be built and whose multipart rows have parts and open uploads, its caller can finish them all: uploading just the missing parts, each once, with requests of this reply and before they expire, and completing every upload |
| Progress.RunCompletes | internal/imagestore/image_upload.go:465-618 | so every run can be continued by an acceptable batch until the uploads of all its multipart files have been completed |
| Progress.RowIsAcceptable | internal/imagestore/image_upload.go:331-340 | a multipart row with versions left makes the request for its file acceptable, if its upload is open or its window has lapsed |
| Witnesses.PanicReachable | internal/imagestore/image_upload.go:319-340 | after a request for a small file, one for a large file of the same digest and lot must panic |
| Witnesses.CapitalsLoseFile | internal/imagestore/image_upload.go:346-364 | for every hexadecimal digest that is not canonical a request for a multipart file succeeds, loses the file and cannot be answered |
| Witnesses.CapitalsExample | internal/imagestore/image_upload.go:346-364 | a run of one request for a large file whose digest is sixty-four letters A, which succeeds and cannot be answered |
| Witnesses.CapitalsGoNowhere | internal/imagestore/image_upload.go:195-212 | for every such digest a request for a single file is answered with the nil key, which is the key of no row |
| Witnesses.CapitalsShareKey | internal/imagestore/image_upload.go:195-212 | two single files of such digests in one batch are answered with the same key |
| Witnesses.CapitalsUploadAgain | internal/imagestore/image_upload.go:709-730 | once a blob is stored, a request for its digest in capital letters uploads it again, while one in small letters is told that it is stored |
| Witnesses.UploadKeyShared | internal/imagestore/image_upload.go:195-212 | after a request for a large file, a batch of a small one of its digest and a large one of that digest in capital letters is answered with one key twice |
| Witnesses.PutToUpload | internal/imagestore/image_upload.go:195-212 | after a request for a large file, one for a small file of its digest succeeds and is sent to the object key of the multipart upload |
| Witnesses.RefusalReachable | internal/imagestore/image_upload.go:373-395 | every run that can request a batch with a multipart file can be continued to a world in which the same batch is refused, its uploads being completed |
| Witnesses.LapsedReachable | internal/imagestore/image_upload.go:315-344 | a run that completes an upload and then, its window lapsed, answers the next request with parts of the closed upload |
| AppErrors.AccumulateMonoid | internal/apperror/apperror.go:151-163 | accumulation is associative with the empty message as unit on both sides |
| AppErrors.SummaryConcat | internal/apperror/apperror.go:151-163 | the messages and fields of consecutive errors combine by accumulation |
| AppErrors.MessagesJoined | internal/apperror/apperror.go:151-163 | each further client error adds its fields at the end and its message, if any, after a semicolon |
| AppErrors.AccumulatorLaw | internal/apperror/apperror.go:177-198 | at every node and for every accumulator the fold that restarts from empty for each child equals the one that threads the accumulator through, and both only add to it |
| AppErrors.FoldsAgree | internal/apperror/apperror.go:165-202 | both are what the program's fold adds up to: the accumulator combined with the summary of the collected errors |
| AppErrors.PreOrder | internal/apperror/apperror.go:165-202 | the collected client errors are, in strictly increasing path order, exactly those a path reaches without passing an unmerged client error |
| AppErrors.GenerateClientFields | internal/apperror/apperror.go:165-202 | on every tree the fold adds the non-empty messages, joined by semicolons, and the fields of the collected errors to whatever was accumulated; it finds one if and only if there is one, and returns the first |
| AppErrors.GenerateJoinedFields | internal/apperror/apperror.go:187-198 | the same for the loop over a multi-unwrap node |
| AppErrors.CreateClientErr | internal/apperror/apperror.go:204-213 | the result is the first client error carrying the joined messages and fields of all |
| Interceptor.ContainsIsOccurs | internal/valid/interceptor.go:132-137 | the recursive search finds an error if and only if some path of unwrappings ends in it |
| Interceptor.CodeInvalidArgumentTranslation | internal/valid/interceptor.go:50-65 | the loop yields one field violation per field, in order |
| Interceptor.CodeStorageConflictTranslation | internal/valid/interceptor.go:67-82 | the loop yields one precondition violation per field, in order |
| Interceptor.ConvertToGRPCErr | internal/valid/interceptor.go:96-112 | each of the five codes has its status, with message and violations; an error with another code is Internal with no message |
| Interceptor.ToGRPCError | internal/valid/interceptor.go:123-144 | the interceptor passes an error on unchanged if and only if some path of unwrappings ends in an error with a status, answers no error for nil only, and computes the status of the whole tree otherwise |
| Interceptor.StatusPassesOn | internal/valid/interceptor.go:128-130 | an error with a status at the end of some path is passed on, whatever else occurs in it |
| Interceptor.PassedOnHasStatus | internal/valid/interceptor.go:128-130 | an error that is passed on has such a path |
| Interceptor.ContextOutranks | internal/valid/interceptor.go:128-138 | without an embedded status, the code is DeadlineExceeded if and only if a deadline occurs anywhere, and Canceled if and only if a cancellation and no deadline does |
| Interceptor.FirstVisibleFixesCode | internal/valid/interceptor.go:104-121 | the code is that of the visible client error whose path comes first; the violations are all visible fields in pre-order |
| Interceptor.NothingVisible | internal/valid/interceptor.go:114-121 | no client error is visible if and only if none is collected, and then the status is Unknown |
| Interceptor.WrappingKeepsStatus | internal/valid/interceptor.go:123-144 | wrapping, wrapping in an error that is not for the client, and joining with errors that show nothing keep the status |
| Interceptor.PruneKeepsStatus | internal/apperror/apperror.go:174-176 | removing everything an unmerged client error covers keeps the status |
| Interceptor.FaultStatus | internal/imagestore/image_upload.go:564-716 | each fault of the protocol has one status, with its message and violations, whatever caused it; a cause that ends the context gives the status of the deadline or, without one, of the cancellation |

## Left out

- The object store's own behaviour beyond uploads, parts and completion: signing, URL text, headers, and aborting or expiring uploads. A stored part stays stored. Presigned PUTs of single files are answered but not used by a step. The least size of a part is not checked on completion.
- Whether a successful completion call completed anything: the error of the completion request is discarded (internal/imagestore/image_upload.go:619-621), so the safety results speak of the request sent. The store accepts a list by its own rule (`ObjectStore.Accepts`), which does not ask for all parts, and neither does the program.
- The move of a row to committed, the completion of blobs and changes to lots: no code of the repository makes them; they are free steps of the environment, the first of them seen by the row-version trigger. Deleting a lot, which would delete its rows, is not such a step for rows.
- A commit whose outcome is unknown to the service: a failed commit counts as rolled back.
- The time inside one initiating transaction: its listings, statements and commit are one step, so a part uploaded between the listing and the commit counts as uploaded after it.
- Faults.FaultsExactly: for a batch with a digest that does not decode it says which faults are possible, not which one occurs, because SQL leaves open whether the look-up of stored blobs evaluates that digest.
- The order in which the look-up of stored blobs inserts its lot images, which SQL leaves open: the model lists them in the order of the batch.
- Content types, user names, file-name lengths and lot-image ids: columns no property depends on. Digests longer than 64 characters, which request validation refuses and a cast would cut, are not cut.
- A reply that gets lost on its way: a request it carries counts as issued, which nobody has to use.
- Connection handling and row scanning, except that any query may fail. Identity values are unbounded.
- The text of wrapped errors, except for fields and messages sent to clients; the failure of a status to take its details, which needs text that is not UTF-8.
- The request-validation interceptor, CreateLot, the replication configuration, and the remaining wire plumbing of presigned headers: element-wise copying.
- ObjectStore.Client.ListParts: models one page of at most 1000 entries, as the source reads one page only.
- Completion.SortParts: states order and contents, not which of two parts with one number comes first, because the source's sort does not fix that either.
