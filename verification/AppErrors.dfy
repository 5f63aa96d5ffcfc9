// Trees of wrapped errors, and the fold that gathers what the client may see of them.
module AppErrors {
  import opened Wrappers

  datatype FieldError = FieldError(field: string, description: string)

  // An error code; zero is the code of an error that sets none.
  type ErrCode = int
  const CODE_UNSET: ErrCode := 0
  const CODE_INVALID_ARGUMENT: ErrCode := 1
  const CODE_STORAGE_CONFLICT: ErrCode := 2
  const CODE_INTERNAL_SERVER_ERROR: ErrCode := 3
  const CODE_UNKNOWN_ERROR: ErrCode := 4
  const CODE_NOT_FOUND: ErrCode := 5

  datatype Leaf = DeadlineExceeded | Canceled | OtherError

  // An error value: nil, an error that wraps nothing, one that carries a gRPC status, one that
  // wraps a single error, one that wraps several, or an AppError.
  datatype Error =
    | Nil
    | Plain(leaf: Leaf)
    | WithStatus(id: int)
    | Wrap(inner: Error)
    | Join(children: seq<Error>)
    | App(op: string, code: ErrCode, message: string, fields: seq<FieldError>, err: Error, merge: bool, isClient: bool)

  type AppError = e: Error | e.App? witness App("", 0, "", [], Nil, false, false)

  /* ---------- constructors and flags ---------- */

  function InvalidArgumentError(op: string, fields: seq<FieldError>, message: string, err: Error): AppError {
    App(op, CODE_INVALID_ARGUMENT, message, fields, Wrap(err), false, false)
  }

  function PreconditionFailedError(op: string, fields: seq<FieldError>, message: string, err: Error): AppError {
    App(op, CODE_STORAGE_CONFLICT, message, fields, Wrap(err), false, false)
  }

  function NotFoundError(op: string, err: Error, message: string): AppError {
    App(op, CODE_NOT_FOUND, message, [], err, false, false)
  }

  // Sets neither a code nor a message: the message only enters the text of the wrapped error.
  function InternalServerError(op: string, err: Error): AppError {
    App(op, CODE_UNSET, "", [], Wrap(err), false, false)
  }

  function CatchAllUnknownServerError(op: string, err: Error, message: string): AppError {
    App(op, CODE_UNKNOWN_ERROR, message, [], err, false, false)
  }

  function MarkAsClientErr(e: AppError): AppError {
    e.(isClient := true)
  }

  /* ---------- accumulating messages ---------- */

  datatype ErrorMessage = ErrorMessage(message: string, fields: seq<FieldError>)

  const NO_MESSAGE := ErrorMessage("", [])

  function Accumulate(em: ErrorMessage, fields: seq<FieldError>, msg: string): ErrorMessage {
    ErrorMessage(
      if msg == "" then em.message
      else if em.message == "" then msg
      else em.message + ";" + msg,
      em.fields + fields)
  }

  function Combine(a: ErrorMessage, b: ErrorMessage): ErrorMessage {
    Accumulate(a, b.fields, b.message)
  }

  // Accumulation is associative, with the empty message as its unit on both sides.
  lemma AccumulateMonoid(a: ErrorMessage, b: ErrorMessage, c: ErrorMessage)
    ensures Combine(Combine(a, b), c) == Combine(a, Combine(b, c))
    ensures Combine(a, NO_MESSAGE) == a && Combine(NO_MESSAGE, a) == a
  {
    assert a.fields + b.fields + c.fields == a.fields + (b.fields + c.fields);
    assert a.message + ";" + b.message + ";" + c.message == a.message + ";" + (b.message + ";" + c.message);
  }

  /* ---------- the declarative collection ---------- */

  // The client errors of a tree in pre-order, cut below each one that is not to be merged.
  function ClientErrors(e: Error): seq<AppError>
    decreases e, 0
  {
    match e
    case Nil => []
    case Plain(_) => []
    case WithStatus(_) => []
    case Wrap(inner) => ClientErrors(inner)
    case Join(children) => ClientErrorsOfAll(children)
    case App(_, _, _, _, err, merge, isClient) =>
      if !isClient then ClientErrors(err)
      else if merge then [e] + ClientErrors(err)
      else [e]
  }

  function ClientErrorsOfAll(es: seq<Error>): seq<AppError>
    decreases es, 0
  {
    if es == [] then [] else ClientErrorsOfAll(es[..|es| - 1]) + ClientErrors(es[|es| - 1])
  }

  function FieldsOf(errs: seq<AppError>): seq<FieldError> {
    if errs == [] then [] else FieldsOf(errs[..|errs| - 1]) + errs[|errs| - 1].fields
  }

  // The messages that are not empty, in order.
  function MessagesOf(errs: seq<AppError>): seq<string> {
    if errs == [] then []
    else
      var rest := MessagesOf(errs[..|errs| - 1]);
      if errs[|errs| - 1].message == "" then rest else rest + [errs[|errs| - 1].message]
  }

  function JoinSemicolon(messages: seq<string>): string {
    if messages == [] then ""
    else if |messages| == 1 then messages[0]
    else JoinSemicolon(messages[..|messages| - 1]) + ";" + messages[|messages| - 1]
  }

  // What a list of client errors says to the client.
  function Summary(errs: seq<AppError>): ErrorMessage {
    ErrorMessage(JoinSemicolon(MessagesOf(errs)), FieldsOf(errs))
  }

  lemma {:induction false} MessagesNotEmpty(errs: seq<AppError>)
    ensures forall m :: m in MessagesOf(errs) ==> m != ""
    ensures JoinSemicolon(MessagesOf(errs)) == "" <==> MessagesOf(errs) == []
  {
    if errs != [] {
      var front := errs[..|errs| - 1];
      MessagesNotEmpty(front);
      var m := MessagesOf(errs);
      assert errs[|errs| - 1].message != "" ==> m[..|m| - 1] == MessagesOf(front);
    }
  }

  lemma SummaryOfOne(e: AppError)
    ensures Summary([e]) == ErrorMessage(e.message, e.fields)
  {
    assert [e][..0] == [];
    assert MessagesOf([e]) == if e.message == "" then [] else [e.message];
    assert FieldsOf([e]) == e.fields;
  }

  lemma SummaryAppend(errs: seq<AppError>, e: AppError)
    ensures Summary(errs + [e]) == Combine(Summary(errs), ErrorMessage(e.message, e.fields))
  {
    assert (errs + [e])[..|errs|] == errs;
    MessagesNotEmpty(errs);
    var m := MessagesOf(errs);
    assert (m + [e.message])[..|m|] == m;
  }

  // What one more client error adds: its fields at the end, and its message, if there is one, after
  // a semicolon, if there is one before.
  lemma MessagesJoined(errs: seq<AppError>, e: AppError)
    ensures Summary([]).message == "" && Summary([]).fields == []
    ensures Summary(errs + [e]).fields == Summary(errs).fields + e.fields
    ensures e.message == "" ==> Summary(errs + [e]).message == Summary(errs).message
    ensures e.message != "" && Summary(errs).message == "" ==> Summary(errs + [e]).message == e.message
    ensures e.message != "" && Summary(errs).message != "" ==> Summary(errs + [e]).message == Summary(errs).message + ";" + e.message
  {
    SummaryAppend(errs, e);
  }

  // Summaries of consecutive lists combine.
  lemma {:induction false} SummaryConcat(a: seq<AppError>, b: seq<AppError>)
    ensures Summary(a + b) == Combine(Summary(a), Summary(b))
    decreases |b|
  {
    if b == [] {
      assert a + b == a;
      AccumulateMonoid(Summary(a), NO_MESSAGE, NO_MESSAGE);
    } else {
      var front, last := b[..|b| - 1], b[|b| - 1];
      SummaryConcat(a, front);
      SummaryAppend(a + front, last);
      SummaryAppend(front, last);
      assert a + b == (a + front) + [last] && front + [last] == b;
      AccumulateMonoid(Summary(a), Summary(front), ErrorMessage(last.message, last.fields));
    }
  }

  /* ---------- the fold ---------- */

  // Whatever has been accumulated before, the fold adds the summary of the client errors of the
  // tree; it finds one exactly when there is one, and returns the first.
  method GenerateClientFields(err: Error, acc: ErrorMessage) returns (out: ErrorMessage, first: Option<AppError>, found: bool)
    ensures out == Combine(acc, Summary(ClientErrors(err)))
    ensures found <==> ClientErrors(err) != []
    ensures found <==> first.Some?
    ensures found ==> first.value == ClientErrors(err)[0]
    decreases err, 1
  {
    AccumulateMonoid(acc, NO_MESSAGE, NO_MESSAGE);
    if err.Nil? {
      return acc, None, false;
    }
    if err.App? && err.isClient {
      out := Accumulate(acc, err.fields, err.message);
      SummaryOfOne(err);
      if !err.merge {
        return out, Some(err), true;
      }
      SummaryConcat([err], ClientErrors(err.err));
      AccumulateMonoid(acc, ErrorMessage(err.message, err.fields), Summary(ClientErrors(err.err)));
      var inner, _, _ := GenerateClientFields(err.err, out);
      return inner, Some(err), true;
    }
    match err
    case App(_, _, _, _, inner, _, _) =>
      out, first, found := GenerateClientFields(inner, acc);
    case Wrap(inner) =>
      out, first, found := GenerateClientFields(inner, acc);
    case Join(children) =>
      out, first, found := GenerateJoinedFields(err, children, acc);
    case _ =>
      out, first, found := acc, None, false;
  }

  // The loop over the errors of a multi-unwrap node, each folded from the empty message.
  method GenerateJoinedFields(ghost err: Error, children: seq<Error>, acc: ErrorMessage)
    returns (out: ErrorMessage, first: Option<AppError>, found: bool)
    requires err == Join(children)
    ensures out == Combine(acc, Summary(ClientErrorsOfAll(children)))
    ensures found <==> ClientErrorsOfAll(children) != []
    ensures found <==> first.Some?
    ensures found ==> first.value == ClientErrorsOfAll(children)[0]
    decreases err, 0
  {
    out, first, found := acc, None, false;
    AccumulateMonoid(acc, NO_MESSAGE, NO_MESSAGE);
    var i := 0;
    while i < |children|
      invariant 0 <= i <= |children|
      invariant out == Combine(acc, Summary(ClientErrorsOfAll(children[..i])))
      invariant found <==> ClientErrorsOfAll(children[..i]) != []
      invariant found <==> first.Some?
      invariant found ==> first.value == ClientErrorsOfAll(children[..i])[0]
    {
      var m, e, ok := GenerateClientFields(children[i], NO_MESSAGE);
      assert children[..i + 1][..i] == children[..i];
      ghost var before, here := ClientErrorsOfAll(children[..i]), ClientErrors(children[i]);
      AccumulateMonoid(Summary(here), NO_MESSAGE, NO_MESSAGE);
      SummaryConcat(before, here);
      AccumulateMonoid(acc, Summary(before), Summary(here));
      out := Accumulate(out, m.fields, m.message);
      if ok && !found {
        first, found := e, true;
      }
      i := i + 1;
    }
    assert children[..i] == children;
  }

  // The first client error, saying everything the client may see.
  function ClientErrorOf(err: Error): (r: Option<AppError>)
  {
    var errs := ClientErrors(err);
    if errs == [] then None
    else Some(errs[0].(fields := Summary(errs).fields, message := Summary(errs).message))
  }

  method CreateClientErr(err: Error) returns (r: Option<AppError>)
    ensures r == ClientErrorOf(err)
  {
    var msg, first, ok := GenerateClientFields(err, NO_MESSAGE);
    AccumulateMonoid(Summary(ClientErrors(err)), NO_MESSAGE, NO_MESSAGE);
    if !ok {
      return None;
    }
    r := Some(first.value.(fields := msg.fields, message := msg.message));
  }

  /* ---------- an independent reading: paths ---------- */

  // Client error `a` sits at the end of the path, and no client error above it hides it.
  ghost predicate VisibleAt(e: Error, path: seq<nat>, a: Error)
    decreases |path|
  {
    if path == [] then e == a && a.App? && a.isClient
    else match e
      case Wrap(inner) => path[0] == 0 && VisibleAt(inner, path[1..], a)
      case App(_, _, _, _, err, merge, isClient) => path[0] == 0 && (isClient ==> merge) && VisibleAt(err, path[1..], a)
      case Join(children) => path[0] < |children| && VisibleAt(children[path[0]], path[1..], a)
      case _ => false
  }

  // Path p comes before path q in pre-order.
  ghost predicate Precedes(p: seq<nat>, q: seq<nat>)
    decreases |p|
  {
    q != [] && (p == [] || p[0] < q[0] || (p[0] == q[0] && Precedes(p[1..], q[1..])))
  }

  function Under(i: nat, paths: seq<seq<nat>>): (r: seq<seq<nat>>)
    ensures |r| == |paths| && forall k :: 0 <= k < |r| ==> r[k] == [i] + paths[k]
  {
    seq(|paths|, k requires 0 <= k < |paths| => [i] + paths[k])
  }

  // The paths, taken in pre-order, make visible exactly the listed errors, one path for each, and
  // no other path makes any error visible.
  ghost predicate Enumerates(e: Error, paths: seq<seq<nat>>, errs: seq<AppError>) {
    && |paths| == |errs|
    && (forall k :: 0 <= k < |paths| ==> VisibleAt(e, paths[k], errs[k]))
    && (forall j, k :: 0 <= j < k < |paths| ==> Precedes(paths[j], paths[k]))
    && forall path, a :: VisibleAt(e, path, a) ==> path in paths
  }

  lemma EnumeratesUnder(e: Error, inner: Error, paths: seq<seq<nat>>, errs: seq<AppError>)
    requires e == Wrap(inner) || (e.App? && e.err == inner && !e.isClient)
    requires Enumerates(inner, paths, errs)
    ensures Enumerates(e, Under(0, paths), errs)
  {
    forall k | 0 <= k < |paths|
      ensures VisibleAt(e, Under(0, paths)[k], errs[k])
    {
      assert ([0] + paths[k])[1..] == paths[k];
    }
    PrecedesUnder(0, paths);
    forall path, a | VisibleAt(e, path, a)
      ensures path in Under(0, paths)
    {
      assert VisibleAt(inner, path[1..], a);
      VisibleBelow(path, 0, paths);
    }
  }

  lemma PrecedesUnder(i: nat, paths: seq<seq<nat>>)
    requires forall j, k :: 0 <= j < k < |paths| ==> Precedes(paths[j], paths[k])
    ensures forall j, k :: 0 <= j < k < |paths| ==> Precedes(Under(i, paths)[j], Under(i, paths)[k])
  {
    forall j, k | 0 <= j < k < |paths|
      ensures Precedes(Under(i, paths)[j], Under(i, paths)[k])
    {
      assert ([i] + paths[j])[1..] == paths[j] && ([i] + paths[k])[1..] == paths[k];
    }
  }

  lemma VisibleBelow(path: seq<nat>, i: nat, paths: seq<seq<nat>>)
    requires path != [] && path[0] == i && path[1..] in paths
    ensures path in Under(i, paths)
  {
    var k :| 0 <= k < |paths| && paths[k] == path[1..];
    assert path == Under(i, paths)[k];
  }

  // The collection is the pre-order listing of the visible client errors.
  lemma {:induction false} PreOrder(e: Error) returns (paths: seq<seq<nat>>)
    ensures Enumerates(e, paths, ClientErrors(e))
    decreases e, 0
  {
    match e
    case Wrap(inner) =>
      var below := PreOrder(inner);
      EnumeratesUnder(e, inner, below, ClientErrors(inner));
      paths := Under(0, below);
    case App(_, _, _, _, err, merge, isClient) =>
      var below := PreOrder(err);
      if !isClient {
        EnumeratesUnder(e, err, below, ClientErrors(err));
        paths := Under(0, below);
      } else {
        paths := PreOrderClient(e, below);
      }
    case Join(children) =>
      paths := PreOrderOfAll(children);
    case _ =>
      paths := [];
  }

  // What lies below a client error shows exactly when the error is merged.
  lemma VisibleBelowClient(e: AppError, path: seq<nat>, a: Error)
    requires e.isClient && path != []
    ensures VisibleAt(e, path, a) <==> e.merge && VisibleAt(e.(isClient := false), path, a)
  {
  }

  // A merged client error comes before everything below it.
  lemma EnumeratesMerged(e: AppError, under: seq<seq<nat>>, errs: seq<AppError>)
    requires e.isClient && e.merge && Enumerates(e.(isClient := false), under, errs)
    ensures Enumerates(e, [[]] + under, [e] + errs)
  {
    var paths: seq<seq<nat>> := [[]] + under;
    hide Precedes;
    forall k | 0 <= k < |paths|
      ensures VisibleAt(e, paths[k], ([e] + errs)[k])
      ensures k > 0 ==> Precedes(paths[0], paths[k])
    {
      if k > 0 {
        RootPrecedes(e, under[k - 1], errs[k - 1]);
        VisibleBelowClient(e, under[k - 1], errs[k - 1]);
      }
    }
    assert forall j, k :: 0 < j < k < |paths| ==> paths[j] == under[j - 1] && paths[k] == under[k - 1];
    forall path, a | VisibleAt(e, path, a)
      ensures path in paths
    {
      if path != [] {
        VisibleBelowClient(e, path, a);
      }
    }
  }

  lemma RootPrecedes(e: AppError, path: seq<nat>, a: Error)
    requires VisibleAt(e.(isClient := false), path, a)
    ensures path != [] && Precedes([], path)
  {
  }

  lemma EnumeratesUnmerged(e: AppError)
    requires e.isClient && !e.merge
    ensures Enumerates(e, [[]], [e])
  {
  }

  lemma PreOrderClient(e: AppError, below: seq<seq<nat>>) returns (paths: seq<seq<nat>>)
    requires e.isClient && Enumerates(e.err, below, ClientErrors(e.err))
    ensures Enumerates(e, paths, ClientErrors(e))
  {
    hide Enumerates, Under;
    if e.merge {
      EnumeratesUnder(e.(isClient := false), e.err, below, ClientErrors(e.err));
      EnumeratesMerged(e, Under(0, below), ClientErrors(e.err));
      paths := [[]] + Under(0, below);
    } else {
      EnumeratesUnmerged(e);
      paths := [[]];
    }
  }

  lemma {:induction false} PreOrderOfAll(es: seq<Error>) returns (paths: seq<seq<nat>>)
    ensures Enumerates(Join(es), paths, ClientErrorsOfAll(es))
    decreases es, 0
  {
    if es == [] {
      paths := [];
    } else {
      var n := |es| - 1;
      var before := PreOrderOfAll(es[..n]);
      var here := PreOrder(es[n]);
      paths := EnumeratesAppend(es[..n], es[n], before, here, ClientErrorsOfAll(es[..n]), ClientErrors(es[n]));
      assert es[..n] + [es[n]] == es;
    }
  }

  lemma EnumeratesAppend(es: seq<Error>, e: Error, before: seq<seq<nat>>, here: seq<seq<nat>>, errs: seq<AppError>, more: seq<AppError>)
    returns (paths: seq<seq<nat>>)
    requires Enumerates(Join(es), before, errs)
    requires Enumerates(e, here, more)
    ensures Enumerates(Join(es + [e]), paths, errs + more)
  {
    var all := Join(es + [e]);
    paths := before + Under(|es|, here);
    forall k | 0 <= k < |paths|
      ensures VisibleAt(all, paths[k], (errs + more)[k])
    {
      if k < |before| {
        assert VisibleAt(Join(es), before[k], errs[k]);
      } else {
        assert ([|es|] + here[k - |before|])[1..] == here[k - |before|];
      }
    }
    PrecedesUnder(|es|, here);
    forall j, k | 0 <= j < k < |paths|
      ensures Precedes(paths[j], paths[k])
    {
      if j < |before| <= k {
        assert VisibleAt(Join(es), before[j], errs[j]);
      }
    }
    forall path, a | VisibleAt(all, path, a)
      ensures path in paths
    {
      if path[0] < |es| {
        assert VisibleAt(Join(es), path, a);
      } else {
        assert VisibleAt(e, path[1..], a);
        VisibleBelow(path, |es|, here);
      }
    }
  }

  /* ---------- threading the accumulator ---------- */

  // The fold as it would be with the accumulator threaded through the children of a node.
  function Threaded(e: Error, acc: ErrorMessage): ErrorMessage
    decreases e, 0
  {
    match e
    case Wrap(inner) => Threaded(inner, acc)
    case Join(children) => ThreadedOfAll(children, acc)
    case App(_, _, message, fields, err, merge, isClient) =>
      if !isClient then Threaded(err, acc)
      else if merge then Threaded(err, Accumulate(acc, fields, message))
      else Accumulate(acc, fields, message)
    case _ => acc
  }

  function ThreadedOfAll(es: seq<Error>, acc: ErrorMessage): ErrorMessage
    decreases es, 0
  {
    if es == [] then acc else Threaded(es[|es| - 1], ThreadedOfAll(es[..|es| - 1], acc))
  }

  // The fold as it is: it restarts from the empty message for each child of a node.
  function Restarted(e: Error, acc: ErrorMessage): ErrorMessage
    decreases e, 0
  {
    match e
    case Wrap(inner) => Restarted(inner, acc)
    case Join(children) => RestartedOfAll(children, acc)
    case App(_, _, message, fields, err, merge, isClient) =>
      if !isClient then Restarted(err, acc)
      else if merge then Restarted(err, Accumulate(acc, fields, message))
      else Accumulate(acc, fields, message)
    case _ => acc
  }

  function RestartedOfAll(es: seq<Error>, acc: ErrorMessage): ErrorMessage
    decreases es, 0
  {
    if es == [] then acc
    else
      var here := Restarted(es[|es| - 1], NO_MESSAGE);
      Accumulate(RestartedOfAll(es[..|es| - 1], acc), here.fields, here.message)
  }

  // At every node and for every accumulator the two agree, and both only add to what was
  // accumulated before.
  lemma {:induction false} AccumulatorLaw(e: Error, acc: ErrorMessage)
    ensures Restarted(e, acc) == Threaded(e, acc) == Combine(acc, Threaded(e, NO_MESSAGE))
    decreases e, 0
  {
    AccumulateMonoid(acc, NO_MESSAGE, NO_MESSAGE);
    match e
    case Wrap(inner) => AccumulatorLaw(inner, acc);
    case Join(children) => AccumulatorLawOfAll(children, acc);
    case App(_, _, message, fields, err, merge, isClient) =>
      var own := ErrorMessage(message, fields);
      AccumulateMonoid(own, NO_MESSAGE, NO_MESSAGE);
      AccumulatorLaw(err, acc);
      if isClient && merge {
        AccumulatorLaw(err, Combine(acc, own));
        AccumulatorLaw(err, Combine(NO_MESSAGE, own));
        AccumulateMonoid(acc, own, Threaded(err, NO_MESSAGE));
      }
    case _ =>
  }

  lemma {:induction false} AccumulatorLawOfAll(es: seq<Error>, acc: ErrorMessage)
    ensures RestartedOfAll(es, acc) == ThreadedOfAll(es, acc) == Combine(acc, ThreadedOfAll(es, NO_MESSAGE))
    decreases es, 0
  {
    AccumulateMonoid(acc, NO_MESSAGE, NO_MESSAGE);
    if es != [] {
      var front, last := es[..|es| - 1], es[|es| - 1];
      AccumulatorLawOfAll(front, acc);
      AccumulatorLaw(last, ThreadedOfAll(front, acc));
      AccumulatorLaw(last, ThreadedOfAll(front, NO_MESSAGE));
      AccumulatorLaw(last, NO_MESSAGE);
      AccumulateMonoid(acc, ThreadedOfAll(front, NO_MESSAGE), Threaded(last, NO_MESSAGE));
    }
  }

  // Both are what the fold of the program computes.
  lemma {:induction false} RestartedIsSummary(e: Error)
    ensures Restarted(e, NO_MESSAGE) == Summary(ClientErrors(e))
    decreases e, 0
  {
    match e
    case Wrap(inner) => RestartedIsSummary(inner);
    case Join(children) => RestartedOfAllIsSummary(children);
    case App(_, _, message, fields, err, merge, isClient) =>
      RestartedIsSummary(err);
      if isClient {
        var own := ErrorMessage(message, fields);
        SummaryOfOne(e);
        AccumulateMonoid(own, NO_MESSAGE, NO_MESSAGE);
        AccumulatorLaw(err, own);
        AccumulatorLaw(err, NO_MESSAGE);
        SummaryConcat([e], ClientErrors(err));
      }
    case _ =>
  }

  lemma {:induction false} RestartedOfAllIsSummary(es: seq<Error>)
    ensures RestartedOfAll(es, NO_MESSAGE) == Summary(ClientErrorsOfAll(es))
    decreases es, 0
  {
    if es != [] {
      RestartedOfAllIsSummary(es[..|es| - 1]);
      RestartedIsSummary(es[|es| - 1]);
      SummaryConcat(ClientErrorsOfAll(es[..|es| - 1]), ClientErrors(es[|es| - 1]));
    }
  }

  // So the fold of the program, whose result is stated above, is the threaded one.
  lemma FoldsAgree(e: Error, acc: ErrorMessage)
    ensures Threaded(e, acc) == Restarted(e, acc) == Combine(acc, Summary(ClientErrors(e)))
  {
    AccumulatorLaw(e, acc);
    AccumulatorLaw(e, NO_MESSAGE);
    RestartedIsSummary(e);
  }
}
