// The translation of error trees into gRPC statuses.
module Interceptor {
  import opened Wrappers
  import opened AppErrors
  import Wire

  datatype GrpcCode =
    | GrpcCanceled
    | GrpcUnknown
    | GrpcInvalidArgument
    | GrpcDeadlineExceeded
    | GrpcNotFound
    | GrpcFailedPrecondition
    | GrpcInternal

  datatype Violation = Violation(subject: string, description: string)

  datatype Details = NoDetails | BadRequest(violations: seq<Violation>) | PreconditionFailure(violations: seq<Violation>)

  // What the interceptor returns: no error, the error it was given, or a status of its own.
  datatype Reply = NoError | Unchanged(err: Error) | Status(code: GrpcCode, message: string, details: Details)

  /* ---------- searching a tree ---------- */

  predicate AnyError(p: Error -> bool, e: Error)
    decreases e, 0
  {
    || p(e)
    || match e
       case Wrap(inner) => AnyError(p, inner)
       case Join(children) => AnyErrorOfAll(p, children)
       case App(_, _, _, _, err, _, _) => AnyError(p, err)
       case _ => false
  }

  predicate AnyErrorOfAll(p: Error -> bool, es: seq<Error>)
    decreases es, 0
  {
    es != [] && (AnyErrorOfAll(p, es[..|es| - 1]) || AnyError(p, es[|es| - 1]))
  }

  predicate HasStatus(e: Error) {
    AnyError((x: Error) => x.WithStatus?, e)
  }

  predicate Contains(e: Error, leaf: Leaf) {
    AnyError((x: Error) => x == Plain(leaf), e)
  }

  // Neither a status nor an end of the request's context anywhere in the tree.
  predicate Ordinary(e: Error) {
    !HasStatus(e) && !Contains(e, DeadlineExceeded) && !Contains(e, Canceled)
  }

  // The error at the end of a path of unwrappings.
  function ErrorAt(e: Error, path: seq<nat>): Option<Error>
    decreases |path|
  {
    if path == [] then Some(e)
    else match e
      case Wrap(inner) => if path[0] == 0 then ErrorAt(inner, path[1..]) else None
      case App(_, _, _, _, err, _, _) => if path[0] == 0 then ErrorAt(err, path[1..]) else None
      case Join(children) => if path[0] < |children| then ErrorAt(children[path[0]], path[1..]) else None
      case _ => None
  }

  ghost predicate Occurs(x: Error, e: Error) {
    exists path :: ErrorAt(e, path) == Some(x)
  }

  lemma {:induction false} AnyAmong(p: Error -> bool, es: seq<Error>, i: nat)
    requires i < |es| && AnyError(p, es[i])
    ensures AnyErrorOfAll(p, es)
  {
    if i < |es| - 1 {
      AnyAmong(p, es[..|es| - 1], i);
    }
  }

  lemma {:induction false} SomeAmong(p: Error -> bool, es: seq<Error>) returns (i: nat)
    requires AnyErrorOfAll(p, es)
    ensures i < |es| && AnyError(p, es[i])
  {
    if AnyErrorOfAll(p, es[..|es| - 1]) {
      i := SomeAmong(p, es[..|es| - 1]);
    } else {
      i := |es| - 1;
    }
  }

  lemma {:induction false} PathIsFound(p: Error -> bool, e: Error, path: seq<nat>)
    requires ErrorAt(e, path).Some? && p(ErrorAt(e, path).value)
    ensures AnyError(p, e)
    decreases |path|
  {
    if path != [] {
      match e
      case Wrap(inner) => PathIsFound(p, inner, path[1..]);
      case App(_, _, _, _, err, _, _) => PathIsFound(p, err, path[1..]);
      case Join(children) =>
        PathIsFound(p, children[path[0]], path[1..]);
        AnyAmong(p, children, path[0]);
    }
  }

  lemma {:induction false} FoundHasPath(p: Error -> bool, e: Error) returns (path: seq<nat>)
    requires AnyError(p, e)
    ensures ErrorAt(e, path).Some? && p(ErrorAt(e, path).value)
    decreases e
  {
    if p(e) {
      return [];
    }
    var below: seq<nat>;
    match e
    case Wrap(inner) =>
      below := FoundHasPath(p, inner);
      path := [0] + below;
    case App(_, _, _, _, err, _, _) =>
      below := FoundHasPath(p, err);
      path := [0] + below;
    case Join(children) =>
      var i := SomeAmong(p, children);
      below := FoundHasPath(p, children[i]);
      path := [i] + below;
    assert path[1..] == below;
  }

  lemma ContainsIsOccurs(e: Error, leaf: Leaf)
    ensures Contains(e, leaf) <==> Occurs(Plain(leaf), e)
  {
    var p := (x: Error) => x == Plain(leaf);
    if Contains(e, leaf) {
      var path := FoundHasPath(p, e);
    }
    if path :| ErrorAt(e, path) == Some(Plain(leaf)) {
      PathIsFound(p, e, path);
    }
  }

  // Some path of unwrappings ends in an error that carries a status.
  ghost predicate CarriesStatus(e: Error) {
    exists path :: ErrorAt(e, path).Some? && ErrorAt(e, path).value.WithStatus?
  }

  lemma HasStatusIsCarries(e: Error)
    ensures HasStatus(e) <==> CarriesStatus(e)
  {
    var p := (x: Error) => x.WithStatus?;
    if HasStatus(e) {
      var path := FoundHasPath(p, e);
    }
    if path :| ErrorAt(e, path).Some? && ErrorAt(e, path).value.WithStatus? {
      PathIsFound(p, e, path);
    }
  }

  /* ---------- the status of an error ---------- */

  function Violations(fields: seq<FieldError>): (r: seq<Violation>)
    ensures |r| == |fields|
    ensures forall i :: 0 <= i < |r| ==> r[i] == Violation(fields[i].field, fields[i].description)
  {
    seq(|fields|, i requires 0 <= i < |fields| => Violation(fields[i].field, fields[i].description))
  }

  function CodeFor(code: ErrCode): GrpcCode {
    if code == CODE_INVALID_ARGUMENT then GrpcInvalidArgument
    else if code == CODE_STORAGE_CONFLICT then GrpcFailedPrecondition
    else if code == CODE_UNKNOWN_ERROR then GrpcUnknown
    else if code == CODE_NOT_FOUND then GrpcNotFound
    else GrpcInternal
  }

  function DetailsFor(code: ErrCode, fields: seq<FieldError>): Details {
    if code == CODE_INVALID_ARGUMENT then BadRequest(Violations(fields))
    else if code == CODE_STORAGE_CONFLICT then PreconditionFailure(Violations(fields))
    else NoDetails
  }

  predicate KnownCode(code: ErrCode) {
    CODE_INVALID_ARGUMENT <= code <= CODE_NOT_FOUND
  }

  // The status a list of visible client errors gives: the first fixes the code, all of them
  // contribute fields and messages.  An error whose code is not in the table loses its message.
  function StatusOfClientErrors(errs: seq<AppError>): Reply {
    if errs == [] then Status(GrpcUnknown, "unknown error", NoDetails)
    else
      var code := errs[0].code;
      Status(CodeFor(code), if KnownCode(code) then Summary(errs).message else "", DetailsFor(code, Summary(errs).fields))
  }

  function StatusOf(e: Error): Reply {
    if e.Nil? then NoError
    else if HasStatus(e) then Unchanged(e)
    else if Contains(e, DeadlineExceeded) then Status(GrpcDeadlineExceeded, "deadline exceeded", NoDetails)
    else if Contains(e, Canceled) then Status(GrpcCanceled, "request cancelled", NoDetails)
    else StatusOfClientErrors(ClientErrors(e))
  }

  method CodeInvalidArgumentTranslation(err: AppError) returns (r: Reply)
    ensures r == Status(GrpcInvalidArgument, err.message, BadRequest(Violations(err.fields)))
  {
    var violations: seq<Violation> := [];
    for i := 0 to |err.fields|
      invariant violations == Violations(err.fields)[..i]
    {
      violations := violations + [Violation(err.fields[i].field, err.fields[i].description)];
    }
    assert violations == Violations(err.fields);
    r := Status(GrpcInvalidArgument, err.message, BadRequest(violations));
  }

  method CodeStorageConflictTranslation(err: AppError) returns (r: Reply)
    ensures r == Status(GrpcFailedPrecondition, err.message, PreconditionFailure(Violations(err.fields)))
  {
    var violations: seq<Violation> := [];
    for i := 0 to |err.fields|
      invariant violations == Violations(err.fields)[..i]
    {
      violations := violations + [Violation(err.fields[i].field, err.fields[i].description)];
    }
    assert violations == Violations(err.fields);
    r := Status(GrpcFailedPrecondition, err.message, PreconditionFailure(violations));
  }

  method ConvertToGRPCErr(err: AppError) returns (r: Reply)
    ensures r == Status(CodeFor(err.code), if KnownCode(err.code) then err.message else "", DetailsFor(err.code, err.fields))
    ensures err.code == CODE_INVALID_ARGUMENT ==> r == Status(GrpcInvalidArgument, err.message, BadRequest(Violations(err.fields)))
    ensures err.code == CODE_STORAGE_CONFLICT ==> r == Status(GrpcFailedPrecondition, err.message, PreconditionFailure(Violations(err.fields)))
    ensures err.code == CODE_INTERNAL_SERVER_ERROR ==> r == Status(GrpcInternal, err.message, NoDetails)
    ensures err.code == CODE_UNKNOWN_ERROR ==> r == Status(GrpcUnknown, err.message, NoDetails)
    ensures err.code == CODE_NOT_FOUND ==> r == Status(GrpcNotFound, err.message, NoDetails)
    ensures !(1 <= err.code <= 5) ==> r == Status(GrpcInternal, "", NoDetails)
  {
    if err.code == CODE_INVALID_ARGUMENT {
      r := CodeInvalidArgumentTranslation(err);
    } else if err.code == CODE_STORAGE_CONFLICT {
      r := CodeStorageConflictTranslation(err);
    } else if err.code == CODE_INTERNAL_SERVER_ERROR {
      r := Status(GrpcInternal, err.message, NoDetails);
    } else if err.code == CODE_UNKNOWN_ERROR {
      r := Status(GrpcUnknown, err.message, NoDetails);
    } else if err.code == CODE_NOT_FOUND {
      r := Status(GrpcNotFound, err.message, NoDetails);
    } else {
      // The error built for an unknown code carries its text in the wrapped error only.
      var internal := InternalServerError("valid.convertToGRPCErr", err);
      r := Status(GrpcInternal, internal.message, NoDetails);
    }
  }

  method CreateErr(err: Error) returns (r: AppError)
    ensures ClientErrorOf(err).Some? ==> r == ClientErrorOf(err).value
    ensures ClientErrorOf(err).None? ==>
              r == CatchAllUnknownServerError("valid.prioritySearchErrorCode", err, "unknown error")
  {
    var client := CreateClientErr(err);
    if client.None? {
      return CatchAllUnknownServerError("valid.prioritySearchErrorCode", err, "unknown error");
    }
    r := client.value;
  }

  // An error that carries a status anywhere, whatever else it carries, is passed on as it is; the
  // absence of an error is no error; every other error gets a status of its own.
  method ToGRPCError(err: Error) returns (r: Reply)
    ensures r == StatusOf(err)
    ensures CarriesStatus(err) <==> r == Unchanged(err)
    ensures CarriesStatus(err) <==> r.Unchanged?
    ensures r == NoError <==> err == Nil
  {
    HasStatusIsCarries(err);
    if err.Nil? {
      return NoError;
    }
    if HasStatus(err) {
      return Unchanged(err);
    }
    if Contains(err, DeadlineExceeded) {
      return Status(GrpcDeadlineExceeded, "deadline exceeded", NoDetails);
    }
    if Contains(err, Canceled) {
      return Status(GrpcCanceled, "request cancelled", NoDetails);
    }
    var appError := CreateErr(err);
    r := ConvertToGRPCErr(appError);
  }

  /* ---------- properties of the translation ---------- */

  // An error with a status at the end of some path is passed on, also when a deadline, a
  // cancellation or a client error occurs in it; and no other is.
  lemma StatusPassesOn(e: Error, path: seq<nat>)
    requires ErrorAt(e, path).Some? && ErrorAt(e, path).value.WithStatus?
    ensures StatusOf(e) == Unchanged(e)
  {
    HasStatusIsCarries(e);
  }

  lemma PassedOnHasStatus(e: Error) returns (path: seq<nat>)
    requires StatusOf(e).Unchanged?
    ensures ErrorAt(e, path).Some? && ErrorAt(e, path).value.WithStatus?
  {
    path := FoundHasPath((x: Error) => x.WithStatus?, e);
  }

  // A deadline anywhere in a tree without a status outranks everything else, and a cancellation
  // outranks every client error; nothing else gives those two codes.
  lemma ContextOutranks(e: Error)
    requires !CarriesStatus(e)
    ensures (StatusOf(e).Status? && StatusOf(e).code == GrpcDeadlineExceeded) <==> Occurs(Plain(DeadlineExceeded), e)
    ensures (StatusOf(e).Status? && StatusOf(e).code == GrpcCanceled) <==>
            Occurs(Plain(Canceled), e) && !Occurs(Plain(DeadlineExceeded), e)
  {
    HasStatusIsCarries(e);
    ContainsIsOccurs(e, DeadlineExceeded);
    ContainsIsOccurs(e, Canceled);
  }

  // The code is that of the visible client error whose path comes first, and the violations are
  // the fields of all of them in pre-order.
  lemma FirstVisibleFixesCode(e: Error, path: seq<nat>, a: AppError)
    requires Ordinary(e) && VisibleAt(e, path, a)
    requires forall q, b :: VisibleAt(e, q, b) ==> q == path || Precedes(path, q)
    ensures StatusOf(e).Status? && StatusOf(e).code == CodeFor(a.code)
    ensures StatusOf(e).details == DetailsFor(a.code, FieldsOf(ClientErrors(e)))
    ensures StatusOf(e).message == if KnownCode(a.code) then JoinSemicolon(MessagesOf(ClientErrors(e))) else ""
  {
    var paths := PreOrder(e);
    var k :| 0 <= k < |paths| && paths[k] == path;
    if k > 0 {
      assert VisibleAt(e, paths[0], ClientErrors(e)[0]);
      NotBothWays(paths[0], path);
    }
    VisibleIsUnique(e, path, a, ClientErrors(e)[0]);
  }

  lemma {:induction false} NotBothWays(p: seq<nat>, q: seq<nat>)
    ensures !(Precedes(p, q) && (p == q || Precedes(q, p)))
    decreases |p|
  {
    if p != [] && q != [] {
      NotBothWays(p[1..], q[1..]);
    }
  }

  lemma {:induction false} VisibleIsUnique(e: Error, path: seq<nat>, a: Error, b: Error)
    requires VisibleAt(e, path, a) && VisibleAt(e, path, b)
    ensures a == b
    decreases |path|
  {
    if path != [] {
      match e
      case Wrap(inner) => VisibleIsUnique(inner, path[1..], a, b);
      case App(_, _, _, _, err, _, _) => VisibleIsUnique(err, path[1..], a, b);
      case Join(children) => VisibleIsUnique(children[path[0]], path[1..], a, b);
    }
  }

  ghost predicate ShowsNothing(e: Error) {
    forall path, a :: !VisibleAt(e, path, a)
  }

  lemma ShowsSomething(e: Error, path: seq<nat>, a: Error)
    requires VisibleAt(e, path, a)
    ensures !ShowsNothing(e)
  {
  }

  // Without a status or an ended context, an error is unknown to the client exactly when no path
  // shows a client error.
  lemma NothingVisible(e: Error)
    requires Ordinary(e) && !e.Nil?
    ensures ShowsNothing(e) <==> ClientErrors(e) == []
    ensures ShowsNothing(e) ==> StatusOf(e) == Status(GrpcUnknown, "unknown error", NoDetails)
  {
    var paths := PreOrder(e);
    if ClientErrors(e) != [] {
      ShowsSomething(e, paths[0], ClientErrors(e)[0]);
    } else {
      assert forall path, a :: VisibleAt(e, path, a) ==> path in paths;
    }
  }

  lemma SameStatus(d: Error, e: Error)
    requires !d.Nil? && !e.Nil? && !HasStatus(d) && !HasStatus(e)
    requires Contains(d, DeadlineExceeded) == Contains(e, DeadlineExceeded)
    requires Contains(d, Canceled) == Contains(e, Canceled)
    requires ClientErrors(d) == ClientErrors(e)
    ensures StatusOf(d) == StatusOf(e)
  {
  }

  // Wrapping an error, alone or in an application error that is not for the client, or joining it
  // with errors that have nothing for the client, keeps its status.
  lemma WrappingKeepsStatus(e: Error, wrapper: AppError, other: Error)
    requires !e.Nil? && !HasStatus(e)
    requires wrapper.err == e && !wrapper.isClient
    requires Ordinary(other) && ClientErrors(other) == []
    ensures StatusOf(Wrap(e)) == StatusOf(e)
    ensures StatusOf(wrapper) == StatusOf(e)
    ensures StatusOf(Join([other, e])) == StatusOf(e) == StatusOf(Join([e, other]))
  {
    hide StatusOf;
    JoinOfTwo(other, e);
    JoinOfTwo(e, other);
    SameStatus(Wrap(e), e);
    SameStatus(wrapper, e);
    SameStatus(Join([other, e]), e);
    SameStatus(Join([e, other]), e);
  }

  lemma JoinOfTwo(a: Error, b: Error)
    ensures ClientErrors(Join([a, b])) == ClientErrors(a) + ClientErrors(b)
    ensures HasStatus(Join([a, b])) <==> HasStatus(a) || HasStatus(b)
    ensures forall leaf :: Contains(Join([a, b]), leaf) <==> Contains(a, leaf) || Contains(b, leaf)
  {
    assert [a, b][..1] == [a] && [a][..0] == [];
    assert ClientErrorsOfAll([a]) == ClientErrorsOfAll([]) + ClientErrors(a);
    assert forall p :: AnyErrorOfAll(p, [a]) == AnyError(p, a);
    assert forall p :: AnyErrorOfAll(p, [a, b]) == (AnyErrorOfAll(p, [a]) || AnyError(p, b));
  }

  // The tree with everything removed that an unmerged client error covers.
  function Prune(e: Error): Error
    decreases e, 0
  {
    match e
    case Wrap(inner) => Wrap(Prune(inner))
    case Join(children) => Join(PruneAll(children))
    case App(_, _, _, _, err, merge, isClient) =>
      if isClient && !merge then e.(err := Nil) else e.(err := Prune(err))
    case _ => e
  }

  function PruneAll(es: seq<Error>): (r: seq<Error>)
    ensures |r| == |es|
    decreases es, 0
  {
    if es == [] then [] else PruneAll(es[..|es| - 1]) + [Prune(es[|es| - 1])]
  }

  // Two lists of client errors that say the same.
  ghost predicate SameSaying(a: seq<AppError>, b: seq<AppError>) {
    |a| == |b| && forall k :: 0 <= k < |a| ==> a[k].code == b[k].code && a[k].message == b[k].message && a[k].fields == b[k].fields
  }

  lemma {:induction false} SameSummary(a: seq<AppError>, b: seq<AppError>)
    requires SameSaying(a, b)
    ensures MessagesOf(a) == MessagesOf(b) && FieldsOf(a) == FieldsOf(b)
  {
    if a != [] {
      SameSummary(a[..|a| - 1], b[..|b| - 1]);
    }
  }

  lemma {:induction false} PruneSaysTheSame(e: Error)
    ensures SameSaying(ClientErrors(e), ClientErrors(Prune(e)))
    decreases e, 0
  {
    match e
    case Wrap(inner) => PruneSaysTheSame(inner);
    case Join(children) => PruneAllSaysTheSame(children);
    case App(_, _, _, _, err, _, _) => PruneSaysTheSame(err);
    case _ =>
  }

  lemma {:induction false} PruneAllSaysTheSame(es: seq<Error>)
    ensures SameSaying(ClientErrorsOfAll(es), ClientErrorsOfAll(PruneAll(es)))
    decreases es, 0
  {
    if es != [] {
      PruneAllSaysTheSame(es[..|es| - 1]);
      PruneSaysTheSame(es[|es| - 1]);
      assert PruneAll(es)[..|es| - 1] == PruneAll(es[..|es| - 1]);
    }
  }

  lemma {:induction false} PruneAddsNothing(p: Error -> bool, e: Error)
    requires forall x :: p(x) ==> x.Plain? || x.WithStatus?
    requires AnyError(p, Prune(e))
    ensures AnyError(p, e)
    decreases e, 0
  {
    match e
    case Wrap(inner) => PruneAddsNothing(p, inner);
    case Join(children) => PruneAllAddsNothing(p, children);
    case App(_, _, _, _, err, merge, isClient) =>
      if !isClient || merge {
        PruneAddsNothing(p, err);
      }
    case _ =>
  }

  lemma {:induction false} PruneAllAddsNothing(p: Error -> bool, es: seq<Error>)
    requires forall x :: p(x) ==> x.Plain? || x.WithStatus?
    requires AnyErrorOfAll(p, PruneAll(es))
    ensures AnyErrorOfAll(p, es)
    decreases es, 0
  {
    var n := |es| - 1;
    assert PruneAll(es)[..n] == PruneAll(es[..n]);
    if AnyErrorOfAll(p, PruneAll(es[..n])) {
      PruneAllAddsNothing(p, es[..n]);
    } else {
      PruneAddsNothing(p, es[n]);
    }
  }

  // What an unmerged client error covers never reaches the client.
  lemma PruneKeepsStatus(e: Error)
    requires Ordinary(e)
    ensures StatusOf(Prune(e)) == StatusOf(e)
  {
    PruneSaysTheSame(e);
    SameSummary(ClientErrors(e), ClientErrors(Prune(e)));
    if HasStatus(Prune(e)) {
      PruneAddsNothing((x: Error) => x.WithStatus?, e);
    }
    if Contains(Prune(e), DeadlineExceeded) {
      PruneAddsNothing((x: Error) => x == Plain(DeadlineExceeded), e);
    }
    if Contains(Prune(e), Canceled) {
      PruneAddsNothing((x: Error) => x == Plain(Canceled), e);
    }
  }

  /* ---------- the faults of the upload protocol ---------- */

  function UnknownLotField(stage: Stage): FieldError {
    FieldError("Storage", if stage.AtLotImages? then "lot with given id does not exist" else "lotId does not match")
  }

  function UnknownLotMessage(stage: Stage): string {
    match stage
    case AtLotImages => "internal error"
    case AtSingleUpload => "storage error"
    case AtMultiUpload => "unknown lotId"
  }

  // The error tree the image store builds for a fault, around the error that caused it.
  function FaultError(fault: Fault, op: string, attemptId: int, cause: Error): AppError {
    MarkAsClientErr(
      match fault
      case Internal => InternalServerError(op, cause)
      case UnknownLot(stage) => PreconditionFailedError(op, [UnknownLotField(stage)], UnknownLotMessage(stage), cause)
      case BadLotId =>
        InvalidArgumentError(op, [FieldError("lotId", "lotId could not be parsed as uuid")], "unknown lotId", cause)
      case NotFound =>
        NotFoundError(op, Wrap(cause), "multipart attempt Id " + Wire.Itoa(attemptId) + " could not be found")
      case PartsMissing =>
        PreconditionFailedError(
          op,
          [FieldError("parts", "All parts have not been uploaded for multipart Attempt Id " + Wire.Itoa(attemptId) +
                               ". First Upload all the parts.")],
          "Not all parts have been uploaded", Wrap(cause))
    )
  }

  // A fault shows itself and nothing of its cause, but passes on a status or an ended context.
  lemma UnderFault(fault: Fault, op: string, attemptId: int, cause: Error)
    ensures ClientErrors(FaultError(fault, op, attemptId, cause)) == [FaultError(fault, op, attemptId, cause)]
    ensures HasStatus(FaultError(fault, op, attemptId, cause)) == HasStatus(cause)
    ensures forall leaf :: Contains(FaultError(fault, op, attemptId, cause), leaf) == Contains(cause, leaf)
  {
    hide Wire.Itoa;
    var e := FaultError(fault, op, attemptId, cause);
    PassesOn(e, e.err);
    PassesOn(e.err, e.err.inner);
    if e.err.inner != cause {
      PassesOn(e.err.inner, cause);
    }
  }

  lemma PassesOn(e: Error, inner: Error)
    requires e == Wrap(inner) || (e.App? && e.err == inner)
    ensures HasStatus(e) == HasStatus(inner)
    ensures forall leaf :: Contains(e, leaf) == Contains(inner, leaf)
  {
  }

  lemma OneViolation(f: FieldError)
    ensures Violations([f]) == [Violation(f.field, f.description)]
  {
  }

  // Unless the cause ends the request's context, each fault has one status, whatever the cause;
  // the internal faults reach the client with no message at all.
  lemma FaultStatus(fault: Fault, op: string, attemptId: int, cause: Error)
    requires !HasStatus(cause)
    ensures Ordinary(cause) ==>
              var r := StatusOf(FaultError(fault, op, attemptId, cause));
              match fault
              case Internal => r == Status(GrpcInternal, "", NoDetails)
              case UnknownLot(AtLotImages) =>
                r == Status(GrpcFailedPrecondition, "internal error",
                            PreconditionFailure([Violation("Storage", "lot with given id does not exist")]))
              case UnknownLot(AtSingleUpload) =>
                r == Status(GrpcFailedPrecondition, "storage error", PreconditionFailure([Violation("Storage", "lotId does not match")]))
              case UnknownLot(AtMultiUpload) =>
                r == Status(GrpcFailedPrecondition, "unknown lotId", PreconditionFailure([Violation("Storage", "lotId does not match")]))
              case BadLotId =>
                r == Status(GrpcInvalidArgument, "unknown lotId", BadRequest([Violation("lotId", "lotId could not be parsed as uuid")]))
              case NotFound =>
                r == Status(GrpcNotFound, "multipart attempt Id " + Wire.Itoa(attemptId) + " could not be found", NoDetails)
              case PartsMissing =>
                r == Status(GrpcFailedPrecondition, "Not all parts have been uploaded",
                            PreconditionFailure([Violation("parts",
                              "All parts have not been uploaded for multipart Attempt Id " + Wire.Itoa(attemptId) +
                              ". First Upload all the parts.")]))
    ensures Contains(cause, DeadlineExceeded) ==>
              StatusOf(FaultError(fault, op, attemptId, cause)) == Status(GrpcDeadlineExceeded, "deadline exceeded", NoDetails)
    ensures Contains(cause, Canceled) && !Contains(cause, DeadlineExceeded) ==>
              StatusOf(FaultError(fault, op, attemptId, cause)) == Status(GrpcCanceled, "request cancelled", NoDetails)
  {
    UnderFault(fault, op, attemptId, cause);
    var e := FaultError(fault, op, attemptId, cause);
    SummaryOfOne(e);
    if e.fields != [] {
      OneViolation(e.fields[0]);
      assert e.fields == [e.fields[0]];
    }
    hide HasStatus, Contains, Summary, Wire.Itoa;
  }
}
