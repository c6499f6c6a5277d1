/**
 * The API error classifier: the error values of the client, how they
 * wrap one another (`Unwrap`, `errors.Join`), how `errors.Is` and
 * `errors.As` search them, and the total map from a failed response
 * envelope to a structured error.
 */
module Errors {
  import opened Wrappers
  import GoStrings

  /** `defaultTimeout`, in whole seconds: the retry delay when the server names none. */
  const DefaultTimeout: int := 10

  /** The package-level `*Error` values; `errors.Is` compares them by identity. */
  datatype Sentinel =
    | BadRequest | Unauthorized | Forbidden | NotFound | Conflict | TooManyRequests
    | InternalServerError | BadGateway | ServiceUnavailable | GatewayTimeout
    | EOF
    | BadRequestWrongRemoteFileIdentifierSpecified
    | BadRequestCantUseFileOfTypeDocumentAsPhoto
    | BadRequestParticipantIDInvalid
    | BadRequestChatNotFound
    | BadRequestFileMustBeNonEmpty
    | ForbiddenBotWasBlockedByTheUser
    | NotFoundBanned
    | ConflictWithBot
  {
    function Code(): int {
      match this
      case BadRequest | EOF
        | BadRequestWrongRemoteFileIdentifierSpecified | BadRequestCantUseFileOfTypeDocumentAsPhoto
        | BadRequestParticipantIDInvalid | BadRequestChatNotFound | BadRequestFileMustBeNonEmpty => 400
      case Unauthorized => 401
      case Forbidden | ForbiddenBotWasBlockedByTheUser => 403
      case NotFound | NotFoundBanned => 404
      case Conflict | ConflictWithBot => 409
      case TooManyRequests => 429
      case InternalServerError => 500
      case BadGateway => 502
      case ServiceUnavailable => 503
      case GatewayTimeout => 504
    }

    /** The `Error()` text; the longer ones are written as a concatenation of pieces. */
    function Text(): string {
      match this
      case BadRequest => "Bad Request"
      case Unauthorized => "Unauthorized"
      case Forbidden => "Forbidden"
      case NotFound => "Not Found"
      case Conflict => "Conflict"
      case TooManyRequests => "Too Many Requests"
      case InternalServerError => "Internal Server Error"
      case BadGateway => "Bad Gateway"
      case ServiceUnavailable => "Service Unavailable"
      case GatewayTimeout => "Gateway Timeout"
      case EOF => "EOF"
      case BadRequestWrongRemoteFileIdentifierSpecified =>
        "Bad Request: wrong remote " + "file identifier specified: " + "Wrong character in the string"
      case BadRequestCantUseFileOfTypeDocumentAsPhoto => "Bad Request: can't use file " + "of type Document as Photo"
      case BadRequestParticipantIDInvalid => "Bad Request: PARTICIPANT_ID_INVALID"
      case BadRequestChatNotFound => "Bad Request: chat not found"
      case BadRequestFileMustBeNonEmpty => "Bad Request: file must be non-empty"
      case ForbiddenBotWasBlockedByTheUser => "Forbidden: bot was " + "blocked by the user"
      case NotFoundBanned => "Contact https://t.me/" + "BotSupport for assistance"
      case ConflictWithBot =>
        "Conflict: terminated by other " + "getUpdates request; " + "make sure that only one " + "bot instance is running"
    }
  }

  /** The known refinements of a 400 response, in the order `genErrorBadRequest` tests them. */
  const BadRequestCatalog: seq<Sentinel> := [
    BadRequestWrongRemoteFileIdentifierSpecified,
    BadRequestCantUseFileOfTypeDocumentAsPhoto,
    BadRequestParticipantIDInvalid,
    BadRequestChatNotFound,
    BadRequestFileMustBeNonEmpty
  ]

  /** An error value of the client. */
  datatype Error =
    | Known(sentinel: Sentinel)               // a package-level *Error
    | Plain(code: int, text: string)          // an *Error built on the spot
    | Joined(errs: seq<Error>)                // errors.Join of its non-nil arguments
    | API(err: Error, description: string)    // *APIError
    | Retry(err: Error, retryAfter: int)      // *RetryError; the delay in whole seconds
    | Migrate(err: Error, migrateToChatID: int) // *MigrateError

  /** `Unwrap`: the errors an error wraps (one for the wrappers, all for a join, none for a leaf). */
  function Unwrap(e: Error): (r: seq<Error>)
    ensures forall i :: 0 <= i < |r| ==> r[i] < e
  {
    match e
    case Known(_) => []
    case Plain(_, _) => []
    case Joined(errs) => errs
    case API(inner, _) => [inner]
    case Retry(inner, _) => [inner]
    case Migrate(inner, _) => [inner]
  }

  /** The `Error()` string of an error. */
  function ErrorText(e: Error): string
    decreases e, 1
  {
    match e
    case Known(s) => s.Text()
    case Plain(_, text) => text
    case Joined(errs) => JoinedText(errs, e)
    case API(inner, description) => if description == "" then ErrorText(inner) else description
    case Retry(inner, _) => ErrorText(inner)
    case Migrate(inner, _) => ErrorText(inner)
  }

  /** The texts of joined errors, one per line, as `errors.Join` prints them. */
  function JoinedText(errs: seq<Error>, ghost parent: Error): string
    requires forall i :: 0 <= i < |errs| ==> errs[i] < parent
    decreases parent, 0, |errs|
  {
    if |errs| == 0 then ""
    else if |errs| == 1 then ErrorText(errs[0])
    else ErrorText(errs[0]) + "\n" + JoinedText(errs[1..], parent)
  }

  /** `errors.Is(e, target)`: the sentinel occurs in the tree of wrapped errors. */
  predicate Is(e: Error, target: Sentinel)
    decreases e, 1
  {
    match e
    case Known(s) => s == target
    case Plain(_, _) => false
    case Joined(errs) => AnyIs(errs, target, e)
    case API(inner, _) => Is(inner, target)
    case Retry(inner, _) => Is(inner, target)
    case Migrate(inner, _) => Is(inner, target)
  }

  predicate AnyIs(errs: seq<Error>, target: Sentinel, ghost parent: Error)
    requires forall i :: 0 <= i < |errs| ==> errs[i] < parent
    decreases parent, 0, |errs|
  {
    |errs| > 0 && (Is(errs[0], target) || AnyIs(errs[1..], target, parent))
  }

  /** `errors.As(e, &retryErr)`: the delay of the first `*RetryError` in a depth-first search. */
  function AsRetry(e: Error): Option<int>
    decreases e, 1
  {
    match e
    case Known(_) => None
    case Plain(_, _) => None
    case Joined(errs) => FirstRetry(errs, e)
    case API(inner, _) => AsRetry(inner)
    case Retry(_, after) => Some(after)
    case Migrate(inner, _) => AsRetry(inner)
  }

  function FirstRetry(errs: seq<Error>, ghost parent: Error): Option<int>
    requires forall i :: 0 <= i < |errs| ==> errs[i] < parent
    decreases parent, 0, |errs|
  {
    if |errs| == 0 then None
    else match AsRetry(errs[0])
      case Some(after) => Some(after)
      case None => FirstRetry(errs[1..], parent)
  }

  /** `ResponseParameters` of the envelope. */
  datatype ResponseParameters = ResponseParameters(migrateToChatID: int, retryAfter: int)

  /** A `switch description` over error values: the first entry of the catalog whose text is the description, or nil. */
  function FirstMatch<T>(text: T -> string, description: string, catalog: seq<T>): Option<T> {
    if catalog == [] then None
    else if text(catalog[0]) == description then Some(catalog[0])
    else FirstMatch(text, description, catalog[1..])
  }

  /** The `Error()` text of a package-level error. */
  function SentinelText(s: Sentinel): string {
    s.Text()
  }

  /** `genErrorBadRequest`. */
  function GenErrorBadRequest(description: string): Option<Sentinel> {
    FirstMatch(SentinelText, description, BadRequestCatalog)
  }

  /** `genErrorNotFound`. */
  function GenErrorNotFound(description: string): Option<Sentinel> {
    FirstMatch(SentinelText, description, [NotFoundBanned])
  }

  /** `genErrorConflict`. */
  function GenErrorConflict(description: string): Option<Sentinel> {
    FirstMatch(SentinelText, description, [ConflictWithBot])
  }

  /** The sub-reason `genError` looks up for a status: the switch of a 400, 404 or 409, none for any other code. */
  function Reason(code: int, description: string): Option<Sentinel> {
    if code == 400 then GenErrorBadRequest(description)
    else if code == 404 then GenErrorNotFound(description)
    else if code == 409 then GenErrorConflict(description)
    else None
  }

  /** `errors.Join(base, reason)`: a nil reason is dropped. */
  function JoinReason(base: Sentinel, reason: Option<Sentinel>): Error {
    Joined([Known(base)] + (if reason.Some? then [Known(reason.value)] else []))
  }

  /** The `switch code` of `genError`, given the sub-reason its 400, 404 and 409 branches look up. */
  function Classify(code: int, text: string, description: string, params: Option<ResponseParameters>, reason: Option<Sentinel>): Error {
    if code == 400 then API(JoinReason(BadRequest, reason), description)
    else if code == 401 then API(Known(Unauthorized), description)
    else if code == 403 then API(Known(Forbidden), description)
    else if code == 404 then API(JoinReason(NotFound, reason), description)
    else if code == 409 then API(JoinReason(Conflict, reason), description)
    else if code == 429 then
      var retryAfter := if params.Some? && params.value.retryAfter != 0 then params.value.retryAfter else DefaultTimeout;
      Retry(Known(TooManyRequests), retryAfter)
    else if code == 500 then Retry(Known(InternalServerError), DefaultTimeout)
    else if code == 502 then Retry(Known(BadGateway), DefaultTimeout)
    else if code == 503 then Retry(Known(ServiceUnavailable), DefaultTimeout)
    else if code == 504 then Retry(Known(GatewayTimeout), DefaultTimeout)
    else API(Plain(code, text), description)
  }

  /** `genError`: the structured error of a response with `ok == false`. */
  function GenError(code: int, text: string, description: string, params: Option<ResponseParameters>): Error {
    Classify(code, text, description, params, Reason(code, description))
  }

  // ---- properties of the classifier ----

  /** The status codes with a base error of their own, and that base error. */
  function StatusBase(code: int): Option<Sentinel> {
    if code == 400 then Some(BadRequest)
    else if code == 401 then Some(Unauthorized)
    else if code == 403 then Some(Forbidden)
    else if code == 404 then Some(NotFound)
    else if code == 409 then Some(Conflict)
    else if code == 429 then Some(TooManyRequests)
    else if code == 500 then Some(InternalServerError)
    else if code == 502 then Some(BadGateway)
    else if code == 503 then Some(ServiceUnavailable)
    else if code == 504 then Some(GatewayTimeout)
    else None
  }

  predicate IsRetryCode(code: int) {
    code == 429 || code == 500 || code == 502 || code == 503 || code == 504
  }

  /** A `switch description` yields the first catalog entry whose text equals the description exactly, and nil when none does. */
  lemma {:induction false} FirstMatchSpec<T>(text: T -> string, description: string, catalog: seq<T>)
    ensures FirstMatch(text, description, catalog).Some? ==>
      exists i :: 0 <= i < |catalog| && FirstMatch(text, description, catalog).value == catalog[i]
        && text(catalog[i]) == description && forall j :: 0 <= j < i ==> text(catalog[j]) != description
    ensures FirstMatch(text, description, catalog).None? <==> forall i :: 0 <= i < |catalog| ==> text(catalog[i]) != description
  {
    if catalog != [] && text(catalog[0]) != description {
      var rest := catalog[1..];
      FirstMatchSpec(text, description, rest);
      assert forall i :: 1 <= i < |catalog| ==> rest[i - 1] == catalog[i];
      if FirstMatch(text, description, catalog).Some? {
        var i :| 0 <= i < |rest| && FirstMatch(text, description, rest).value == rest[i]
          && text(rest[i]) == description && forall j :: 0 <= j < i ==> text(rest[j]) != description;
        assert text(catalog[i + 1]) == description && forall j :: 0 <= j < i + 1 ==> text(catalog[j]) != description;
      }
    }
  }

  /** A found entry belongs to the catalog. */
  lemma {:induction false} FirstMatchIn<T>(text: T -> string, description: string, catalog: seq<T>)
    ensures FirstMatch(text, description, catalog).Some? ==> FirstMatch(text, description, catalog).value in catalog
  {
    if catalog != [] && text(catalog[0]) != description {
      FirstMatchIn(text, description, catalog[1..]);
    }
  }

  /** A one-entry switch matches exactly that entry's text. */
  lemma FirstMatchSingle<T>(text: T -> string, description: string, x: T)
    ensures FirstMatch(text, description, [x]) == if text(x) == description then Some(x) else None
  {
    assert [x][1..] == [];
  }

  /** The statuses whose base error `genError` joins with a sub-reason. */
  predicate JoinsReason(code: int) {
    code == 400 || code == 404 || code == 409
  }

  /** `errors.Is` of a join holds exactly when it holds of one of the joined errors. */
  lemma {:induction false} AnyIsExists(errs: seq<Error>, t: Sentinel, parent: Error)
    requires forall i :: 0 <= i < |errs| ==> errs[i] < parent
    ensures AnyIs(errs, t, parent) <==> exists i :: 0 <= i < |errs| && Is(errs[i], t)
    decreases |errs|
  {
    if |errs| > 0 {
      AnyIsExists(errs[1..], t, parent);
      assert forall i :: 1 <= i < |errs| ==> errs[1..][i - 1] == errs[i];
    }
  }

  /** The search of `errors.Is` as Go states it: the error is the target, or `errors.Is` holds of one of the errors it unwraps to. */
  lemma IsUnwrap(e: Error, t: Sentinel)
    ensures Is(e, t) <==> e == Known(t) || exists i :: 0 <= i < |Unwrap(e)| && Is(Unwrap(e)[i], t)
  {
    if e.Joined? {
      assert Unwrap(e) == e.errs;
      AnyIsExists(e.errs, t, e);
    } else if e.API? || e.Retry? || e.Migrate? {
      assert Unwrap(e)[0] == e.err;
    }
  }

  /** The search of `errors.As` as Go states it: a `RetryError` itself, or else the first hit among the errors it unwraps to, in order. */
  lemma AsRetryUnwrap(e: Error)
    ensures AsRetry(e) == if e.Retry? then Some(e.retryAfter) else FirstRetry(Unwrap(e), e)
  {
    if e.API? || e.Migrate? {
      assert Unwrap(e)[1..] == [];
    }
  }

  /** `errors.Is` of `errors.Join(base, reason)` holds for the base and for a non-nil reason. */
  lemma IsJoinReason(base: Sentinel, reason: Option<Sentinel>, t: Sentinel)
    ensures Is(JoinReason(base, reason), t) <==> t == base || reason == Some(t)
  {
    var e := JoinReason(base, reason);
    var rest := e.errs[1..];
    assert Is(e, t) <==> Is(e.errs[0], t) || AnyIs(rest, t, e);
    if reason.Some? {
      assert rest == [Known(reason.value)];
      assert rest[1..] == [];
      assert AnyIs(rest, t, e) <==> Is(rest[0], t) || AnyIs(rest[1..], t, e);
    } else {
      assert rest == [];
    }
  }

  /** `errors.Is` on the `switch code` holds exactly for the status's base error and, on a 400, 404 or 409, for the sub-reason. */
  lemma IsClassify(code: int, text: string, description: string, params: Option<ResponseParameters>, reason: Option<Sentinel>, t: Sentinel)
    ensures Is(Classify(code, text, description, params, reason), t) <==>
      StatusBase(code) == Some(t) || (JoinsReason(code) && reason == Some(t))
  {
    if JoinsReason(code) {
      IsJoinReason(StatusBase(code).value, reason, t);
    }
  }

  /** Every status with a base error yields an error that `errors.Is` the base; any other status wraps a plain `Error{code, text}`. */
  lemma GenErrorBase(code: int, text: string, description: string, params: Option<ResponseParameters>)
    ensures StatusBase(code).Some? ==> Is(GenError(code, text, description, params), StatusBase(code).value)
    ensures StatusBase(code).None? ==> GenError(code, text, description, params) == API(Plain(code, text), description)
  {
    if StatusBase(code).Some? {
      IsClassify(code, text, description, params, Reason(code, description), StatusBase(code).value);
    }
  }

  /** `genErrorBadRequest` finds an entry of the 400 catalog whose text is the description. */
  lemma BadRequestReason(description: string)
    ensures GenErrorBadRequest(description).Some? ==>
      GenErrorBadRequest(description).value in BadRequestCatalog && GenErrorBadRequest(description).value.Text() == description
  {
    FirstMatchSpec(SentinelText, description, BadRequestCatalog);
    FirstMatchIn(SentinelText, description, BadRequestCatalog);
  }

  /** Every entry of the 400 catalog is an error of status 400. */
  lemma BadRequestCatalogCodes(s: Sentinel)
    requires s in BadRequestCatalog
    ensures s.Code() == 400
  {
  }

  /** The sub-reason of a status is an error of that same status: one of the 400 catalog, or the one 404 or 409 refinement, matched by exact text. */
  lemma ReasonSpec(code: int, description: string)
    ensures Reason(code, description).Some? ==> JoinsReason(code) && Reason(code, description).value.Code() == code
    ensures code == 404 ==> (Reason(code, description) == Some(NotFoundBanned) <==> description == NotFoundBanned.Text())
    ensures code == 409 ==> (Reason(code, description) == Some(ConflictWithBot) <==> description == ConflictWithBot.Text())
  {
    if code == 400 {
      BadRequestReason(description);
      if GenErrorBadRequest(description).Some? {
        BadRequestCatalogCodes(GenErrorBadRequest(description).value);
      }
    } else if code == 404 {
      FirstMatchSingle(SentinelText, description, NotFoundBanned);
    } else if code == 409 {
      FirstMatchSingle(SentinelText, description, ConflictWithBot);
    }
  }

  /** `errors.Is` on a classified error holds exactly for the status's base error and for the matched sub-reason. */
  lemma IsGenError(code: int, text: string, description: string, params: Option<ResponseParameters>, t: Sentinel)
    ensures Is(GenError(code, text, description, params), t) <==>
      StatusBase(code) == Some(t) || Reason(code, description) == Some(t)
  {
    IsClassify(code, text, description, params, Reason(code, description), t);
    ReasonSpec(code, description);
  }

  /** The errors that make `Raw` stop the client: exactly a 401, or a 404 whose description is the banned-bot text. */
  lemma StopsSession(code: int, text: string, description: string, params: Option<ResponseParameters>)
    ensures Is(GenError(code, text, description, params), Unauthorized)
         || Is(GenError(code, text, description, params), NotFoundBanned)
       <==> code == 401 || (code == 404 && description == NotFoundBanned.Text())
  {
    IsGenError(code, text, description, params, Unauthorized);
    IsGenError(code, text, description, params, NotFoundBanned);
    ReasonSpec(code, description);
  }

  /** A 409 carries `ErrConflictWithBot` exactly when its description is the known getUpdates conflict text. */
  lemma ConflictWithBotReason(code: int, text: string, description: string, params: Option<ResponseParameters>)
    ensures Is(GenError(code, text, description, params), ConflictWithBot)
       <==> code == 409 && description == ConflictWithBot.Text()
  {
    IsGenError(code, text, description, params, ConflictWithBot);
    ReasonSpec(code, description);
  }

  /** `errors.As` finds no `RetryError` in a join of leaves. */
  lemma {:induction false} FirstRetryOfLeaves(errs: seq<Error>, parent: Error)
    requires forall i :: 0 <= i < |errs| ==> errs[i] < parent && errs[i].Known?
    ensures FirstRetry(errs, parent) == None
    decreases |errs|
  {
    if |errs| > 0 {
      FirstRetryOfLeaves(errs[1..], parent);
    }
  }

  lemma AsRetryJoinReason(base: Sentinel, reason: Option<Sentinel>, d: string)
    ensures AsRetry(API(JoinReason(base, reason), d)) == None
  {
    var e := JoinReason(base, reason);
    FirstRetryOfLeaves(e.errs, e);
  }

  /** `errors.As` finds a `RetryError` exactly for 429 and the 5xx codes; a 429 waits the server's non-zero `retry_after`, everything else 10 s. */
  lemma RetryClassification(code: int, text: string, description: string, params: Option<ResponseParameters>)
    ensures AsRetry(GenError(code, text, description, params)).Some? <==> IsRetryCode(code)
    ensures code == 429 && params.Some? && params.value.retryAfter != 0 ==>
      AsRetry(GenError(code, text, description, params)) == Some(params.value.retryAfter)
    ensures IsRetryCode(code) && !(code == 429 && params.Some? && params.value.retryAfter != 0) ==>
      AsRetry(GenError(code, text, description, params)) == Some(DefaultTimeout)
  {
    if JoinsReason(code) {
      AsRetryJoinReason(StatusBase(code).value, Reason(code, description), description);
    }
  }

  /** A retryable classification prints as the status text of its base error. */
  lemma RetryErrorText(code: int, text: string, description: string, params: Option<ResponseParameters>)
    requires IsRetryCode(code)
    ensures ErrorText(GenError(code, text, description, params)) == StatusBase(code).value.Text()
  {
  }

  /** `APIError.Error()`: any other classification prints as its description when that is non-empty. */
  lemma APIErrorDescriptionText(code: int, text: string, description: string, params: Option<ResponseParameters>)
    requires !IsRetryCode(code) && description != ""
    ensures ErrorText(GenError(code, text, description, params)) == description
  {
  }

  /** No refinement of a 400 has an empty text. */
  lemma BadRequestTextsNonEmpty()
    ensures forall i :: 0 <= i < |BadRequestCatalog| ==> SentinelText(BadRequestCatalog[i]) != ""
  {
    assert |BadRequestWrongRemoteFileIdentifierSpecified.Text()| > 0;
    assert |BadRequestCantUseFileOfTypeDocumentAsPhoto.Text()| > 0;
    assert |BadRequestParticipantIDInvalid.Text()| > 0;
    assert |BadRequestChatNotFound.Text()| > 0;
    assert |BadRequestFileMustBeNonEmpty.Text()| > 0;
  }

  /** No package-level error has an empty text, so an empty description matches no sub-reason. */
  lemma ReasonOfEmpty(code: int)
    ensures Reason(code, "") == None
  {
    if code == 400 {
      BadRequestTextsNonEmpty();
      FirstMatchSpec(SentinelText, "", BadRequestCatalog);
    } else if code == 404 {
      FirstMatchSingle(SentinelText, "", NotFoundBanned);
    } else if code == 409 {
      FirstMatchSingle(SentinelText, "", ConflictWithBot);
    }
  }

  /** `APIError.Error()`: with an empty description it prints the wrapped error's text, the base error's or the server's status text. */
  lemma APIErrorEmptyDescriptionText(code: int, text: string, params: Option<ResponseParameters>)
    requires !IsRetryCode(code)
    ensures ErrorText(GenError(code, text, "", params)) == if StatusBase(code).Some? then StatusBase(code).value.Text() else text
  {
    ReasonOfEmpty(code);
    if JoinsReason(code) {
      JoinedBaseText(StatusBase(code).value);
    }
  }

  /** A join of a base error with no sub-reason prints as the base error alone. */
  lemma JoinedBaseText(base: Sentinel)
    ensures ErrorText(API(JoinReason(base, None), "")) == base.Text()
  {
    var inner := JoinReason(base, None);
    assert inner == Joined([Known(base)]);
    assert ErrorText(inner) == JoinedText([Known(base)], inner);
  }
}
