# gogram in Dafny

A model of the core of gogram, a Go client for the Telegram Bot API,
together with proofs about it. The model covers these parts:

- **The client** (`client.dfy`, module `Clients`):
  - the reversible configuration options;
  - the token check of `NewClient`;
  - the session flags kept by `Start` and `Stop`;
  - the offset cursor of the update loop;
  - how `Raw` turns a response envelope into a result or an error.
- **The error classifier** (`errors.dfy`, module `Errors`):
  - the package-level error values;
  - the `APIError`, `RetryError` and `MigrateError` wrappers, and `errors.Join`;
  - how `errors.Is` and `errors.As` search them;
  - `genError`, which maps a failed response to a structured error.
- **The router** (`router.dfy` and `router_filters.dfy`):
  - routes grouped by update kind, dispatched to the first match;
  - the default, error and panic handlers;
  - middleware wrapping, and groups whose filters combine;
  - the stock filters and the inline-button filter.
- **The execution context and its pool** (`context.dfy`).
- **Small helpers on the Bot API types:**
  - payloads and arguments of messages, callback queries and buttons;
  - chat and user identifiers;
  - `InputFile` text marshalling;
  - `MaybeInaccessibleMessage`;
  - the inline-keyboard options of `sendMessage` and `editMessageText`;
  - the file download link.
- **The code generator** (`cmd/gen`):
  - tree searches over the documentation page (`gen_html.dfy`);
  - reading field and parameter tables, subtype lists, discriminators and heading kinds (`gen_parse.dfy`);
  - the template functions `toTitle`, `toType`, `toMake` and `toLowerFirst` (`gen_templates.dfy`);
  - `AutoFillCode` and `Multipart` (`gen_main.dfy`).

The parts of Go's `strings` and `strconv` packages the core relies on are
in `gostrings.dfy`. Each of them states the property its Go documentation
promises. Two more files hold shared pieces: `wrappers.dfy` has `Option`
and `Result`, and `seqs.dfy` has a flat-map over sequences.

How Go constructs are modelled:

- **Panics.**
  - A Go panic that a caller can reach becomes `None`. Examples are `toType`
    of an empty name, the fixed index 13 in `AutoFillCode`, the nil
    dereference in the accessors of an empty `MaybeInaccessibleMessage`, and
    calling the root group's nil filter.
  - Where a precondition excludes a panic instead, "Left out" names the member.
  - `log.Fatal` becomes a `Failure` carrying its message.
- **Records.** Records the core only reads are datatypes.
- **State changed in place becomes a class with a `modifies` frame.** These
  are:
  - `Client`, `Router`, `RouterGroup`, `Context` and the context pool;
  - `MaybeInaccessibleMessage`;
  - the message-parameter records;
  - the shared `*http.Client`.
- **Loops of the source become methods with loop invariants.** Each one is
  proved equal to a specification function, and the properties are proved
  about that function. Examples are `PhotoBiggest`, the offset loop,
  `Option`, `findNodes`, `findText`, the table readers and `toTitle`'s
  `strings.Map` pass.

## Model

| member | source | states |
|---|---|---|
| Clients.LinkPrefix | client.go:169-175 | The prefix starts with `https://<host>/bot<token>/` and is exactly that outside test mode. |
| Clients.LinkPrefixTest | client.go:169-175 | The test-mode prefix is the normal prefix followed by `test/`. |
| Clients.LimiterFor | client.go:58-61 | The burst is the rate. The token interval is one second divided by the rate with truncation: `interval * rps <= 1e9 < (interval + 1) * rps`. |
| Clients.AppliedValid | client.go:33-124 | Every option keeps the settings consistent: a positive rate, a limiter that follows it, and a link prefix built from the current host, token and mode. `WithRPS` with a rate of zero or less stores 30. |
| Clients.RollbackRestores | client.go:33-124 | Applying the rollback option that an option returns restores the settings it started from. |
| Clients.DefaultsValid | client.go:126-131 | The default options make any settings consistent, with host `api.telegram.org`, rate 30, timeout 10 s and test mode off. |
| Clients.ApplyAllValid | client.go:179-184 | Consistent settings stay consistent through any list of options, applied in order. |
| Clients.TokenBotID | client.go:197-205 | An empty token is `ErrNoToken`. Any other token succeeds exactly when the text before its first `:` parses as an int64, and the bot id is that number. Every other token is `ErrInvalidToken`. |
| Clients.TokenOfID | client.go:202-205 | A token of the form `<id>:<secret>` gives the bot id back, whatever the secret. |
| Clients.LocalParams | client.go:343-352 | The polling parameters are the caller's, with a zero limit read as 100. Without caller parameters they are offset 0, limit 100 and the client's timeout. The limit is never 0. |
| Clients.NegativeLimitPanics | client.go:354 | As written, a caller limit of -1 survives `localParams` and gives a worker count of -1. |
| Clients.WorkerCount | client.go:354 | The corrected count is at least 1 and at most the processor count (or 1). It never exceeds a positive limit, and it equals the count as written whenever the limit is at least 1. |
| Clients.AdvanceOffset | client.go:382-385 | Every update of a batch is queued, in order. The offset moves past the last update's id with int64 wrap-around, and stays unchanged for an empty batch. |
| Clients.EmptyBodyIs | client.go:295-299 | The error for an empty body is both `ErrBadRequest` and `ErrEOF` under `errors.Is`. |
| Clients.Client.constructor | client.go:207-222 | A new client holds the bot id and token, zero settings, a fresh HTTP client and an empty router, and no session. |
| Clients.Client.Apply | client.go:33-124 | One option changes the settings as `Applied` says and returns the previous value as its rollback. `WithTimeout` also sets the shared HTTP client's timeout. `WithHTTPClient` installs the given client, or a new one with the current timeout for nil, and returns the old client. Nothing else changes. |
| Clients.Client.Option | client.go:179-184 | The options run in order, and the rollback of the last one is returned (none for none). That rollback restores the last option's setting, and it is a `WithHTTPClient` rollback when the last option swapped the HTTP client. Session flags and router are untouched. |
| Clients.Client.Stop | client.go:415-424 | An open `done` channel is closed and forgotten, so a second `Stop` does nothing. Everything else is unchanged. |
| Clients.Client.BeginSession | client.go:326-354 | A started client gets `ErrAlreadyStarted` and is left as it was. Otherwise a fresh queue of capacity 100 and a fresh `done` channel open the session, with the polling parameters of `LocalParams` and the corrected worker count `WorkerCount` (see Findings). |
| Clients.Client.EndSession | client.go:403-409 | After the workers return, the queue and `done` are dropped and the client is no longer started. |
| Clients.Client.Start | client.go:326-412 | A second `Start` fails with `ErrAlreadyStarted` and changes nothing. A first one ends with the context's error and leaves the client startable again, under the corrected worker count (see Findings). |
| Clients.Client.HandleEnvelope | client.go:293-322 | An empty body gives `Join(ErrBadRequest, ErrEOF)`, and another decode failure is passed on. An `ok` envelope gives its result. A failed one gives `genError` of its code, status and description. An unauthorized or banned result runs `Stop`: an open `done` is closed and forgotten. Any other result leaves `done` as it was, and still open. A retry error moves the limiter's resume time to now plus the delay and keeps its rate. |
| Clients.NewClient | client.go:197-228 | `NewClient` refuses exactly the tokens `TokenBotID` refuses, with the same error. Otherwise it returns a fresh client with that id and token and no session. Its settings are the zero settings after the default options and then the caller's, in order, and they are consistent. |
| Contexts.Parent.Lookup | context.go:70 | The parent context yields a value exactly for a key it holds. |
| Contexts.Context.constructor | context.go:9-15 | The pool's new context references nothing and has an empty value store. |
| Contexts.Context.SetValue | context.go:59-61 | The store gets the key set to the value. No other key changes, and `Value` of every other key is unchanged. |
| Contexts.Context.Value | context.go:65-71 | `Value` is the context's own value for a key it holds, and otherwise the parent context's lookup. |
| Contexts.Context.Client | context.go:74-76 | `Client` returns the client reference the context holds. |
| Contexts.Context.Update | context.go:79-81 | `Update` returns the update the context holds. |
| Contexts.Pool.Acquire | context.go:17-23 | `Acquire` returns the most recently released context, or a new one when none is free. The context is filled with the parent, client and update, and its store is empty. Every free context stays cleared and distinct. |
| Contexts.Pool.Release | context.go:25-31 | `Release` clears the context's references and store and adds it to the free list, keeping the pool valid. |
| FileLinks.BuildFileLink | file.go:19-24 | The link is `https://<host>/file/bot<token>/`, then `test/` in test mode, then the path with its leading `/` trimmed. |
| FileLinks.FileLinkPath | file.go:24 | A path without a leading `/` is appended unchanged, and exactly one leading `/` is dropped. |
| Helpers.ExtractArgs | helpers.go:11-18 | `ExtractArgs` is nil exactly for an all-space text. Otherwise it is every field but the first, in order. |
| Helpers.ExtractPayload | helpers.go:21-24 | `ExtractPayload` is everything after the first space, and empty when there is no space. |
| Helpers.ExtractArgsOfJoin | helpers.go:11-18 | A command followed by space-joined arguments gives the arguments back. |
| Helpers.ExtractPayloadOfSplit | helpers.go:21-24 | A space-free head followed by a space and a payload gives the payload back. |
| Helpers.PhotoBiggest | helpers.go:27-37 | No photo is wider than the result. The result is the zero photo when no width is positive, and otherwise the first photo of the greatest width. |
| InlineButtons.Command | inline_keyboard_button.go:9-11 | The command is a space-free prefix of the callback data that ends exactly at the data's first space. It is the whole data when there is no space. |
| InlineButtons.WithArgs | inline_keyboard_button.go:6-18 | Only the data changes. It becomes the command, then a space and the space-joined arguments when there are any. The command is preserved. |
| InlineButtons.WithPayload | inline_keyboard_button.go:21-33 | Only the data changes. It becomes the command, then a space and the payload when the payload is non-empty. The command is preserved. |
| InlineButtons.PayloadRoundTrip | inline_keyboard_button.go:21-33 | `ExtractPayload` of the rewritten data is the payload. |
| InlineButtons.ArgsRoundTrip | inline_keyboard_button.go:6-18 | `ExtractArgs` of the rewritten data is the argument list, for space-free arguments and a space-free command. |
| InlineButtons.ButtonRef.SetText | inline_keyboard_button.go:35-38 | The button's text is set in place, nothing else changes, and the same button is returned. |
| Filters.FilterText | router_filters.go:12-16 | The filter admits exactly the contexts whose text equals the string. |
| Filters.FilterCommand | router_filters.go:20-48 | The filter admits exactly the texts the command check accepts. |
| Filters.CommandMatchesSpec | router_filters.go:20-48 | A text is the command exactly when the command is non-empty, the text starts with `/`, and the text is the command itself, or the command followed by `@`, or the command followed by a space. |
| Filters.FilterMessageDocument | router_filters.go:60-65 | The filter holds exactly when the update has a message with a document. |
| Filters.FilterMessageVideo | router_filters.go:68-73 | The filter holds exactly when the update has a message with a video. |
| Filters.FilterMessageContact | router_filters.go:76-81 | The filter holds exactly when the update has a message with a contact. |
| Filters.InlineButtonFilter | router.go:88-97 | The filter needs a callback query. Its data must be the button's data, or its part before the first space must be. |
| Filters.InlineButtonFilterSpec | router.go:88-97 | The same condition without `Cut`: the data is the button's data, or the button's data followed by a space, when the button's data has no space. |
| Filters.RewrittenButtonRoutes | router.go:88-97 | After `WithPayload` or `WithArgs`, a button whose data has no space still matches its own route. |
| Routing.FirstMatch | router.go:54-61 | The result is the first route, in registration order, whose filter holds, and none when no filter holds. |
| Routing.DispatchRules | router.go:45-70 | A handler runs exactly when some route matches or a default is set. The first match wins, and the default runs when nothing matches. At most one handler runs. Its error reaches the error handler exactly when it is non-nil and an error handler is set. Its panic goes to the panic handler if set, and escapes otherwise. |
| Routing.Router.Process | router.go:45-70 | Dispatching an update through its kind's bucket gives exactly what `DispatchRules` describes. |
| Routing.WrapLayers | router.go:124-129 | Wrapping adds the middlewares in registration order, the first outermost, around the handler's own layers. The handler at the core is unchanged. |
| Routing.WrapAppend | router.go:124-129 | Wrapping with two lists one after the other is wrapping with the first around the second. |
| Routing.RouterGroup.ApplyMiddlewares | router.go:124-129 | The loop over `slices.Backward` produces the wrapped handler, the first middleware outermost. |
| Routing.AllHoldSpec | router.go:143-148 | The filter loop passes exactly when every filter holds. |
| Routing.Combined | router.go:138-149 | A group's filter admits exactly the contexts its parent's filter and all its own filters admit. |
| Routing.RootGroupFilterPanics | router.go:37-42 | As written, the root group's filter is nil, so every filter built by `Group` on the root router panics. |
| Routing.RootGroupFilter | router.go:137-149 | With an always-true root filter, a root group admits exactly the contexts all its filters admit. |
| Routing.Router.constructor | router.go:37-42 | A new router has no routes and no handlers, and its root group has no middleware and belongs to it. Its root filter admits every update, the corrected rule of Findings. |
| Routing.Router.Use | router.go:74-76 | The middlewares are appended to the root group's, and nothing else changes. |
| Routing.Router.SetHandlerDefault | router.go:103-105 | Only the default handler is replaced. |
| Routing.Router.SetHandlerErr | router.go:108-110 | Only the error handler is replaced. |
| Routing.Router.SetHandlerPanic | router.go:113-115 | Only the panic handler is replaced. |
| Routing.RouterGroup.Use | router.go:132-134 | The middlewares are appended to the group's, and nothing else changes. |
| Routing.RouterGroup.Group | router.go:137-156 | The new group has the same router and middlewares, and a filter that is the parent's filter together with all the given filters. |
| Routing.RouterGroup.Handle | router.go:80 | This is the step of the generated `HandleOn…` methods, called here and at router.go:99. Exactly one route is appended to the kind's bucket and every other bucket is unchanged. The route's handler is wrapped by the group's middlewares, and its filter is the group's filter together with the given filters. |
| Routing.Router.HandleKeyboardButton | router.go:79-81 | A message route is appended, admitting exactly the contexts whose text is the button's text. |
| Routing.Router.HandleInlineKeyboardButton | router.go:84-100 | A callback-query route is appended, admitting exactly what `InlineButtonFilter` admits. |
| Types.IdentifierOf | types_chat.go:39-45 | For a non-zero id the identifier is the decimal id, which parses back to the id. For id 0 it is `@` followed by the user name. It starts with `@` exactly when the id is 0, so the two forms cannot be confused. |
| Types.User.Identifier | types_user.go:7-13 | The user identifier follows the `IdentifierOf` rule. |
| Types.Chat.Identifier | types_chat.go:39-45 | The chat identifier follows the `IdentifierOf` rule. |
| Types.ChatFullInfo.Identifier | types_chat_full_info.go:7-13 | The full chat identifier follows the `IdentifierOf` rule. |
| Types.ChatKindsExclusive | types_chat.go:6-35 | A chat is at most one of private, group, supergroup and channel. |
| InputFiles.AppendText | types_input_file.go:24-38 | The file id wins, then the URL, then `attach://<field name>` for an upload. No reference at all gives nil. |
| InputFiles.MarshalText | types_input_file.go:41-43 | `MarshalText` is `AppendText` onto an empty buffer. |
| InputFiles.AppendIsMarshal | types_input_file.go:24-43 | Appending succeeds exactly when marshalling does, and appends exactly the marshalled text. |
| InputFiles.FileIDWins | types_input_file.go:26-27 | With a file id set, neither the URL nor the reader affects the text. |
| MaybeInaccessible.MaybeInaccessibleMessage.UnmarshalJSON | types_maybe_inaccessible_message.go:7-25 | A decode error is returned and changes nothing. A non-zero date stores the message. A zero date stores an inaccessible message with the chat and id. Either way the accessors then read the decoded values. |
| MaybeInaccessible.MaybeInaccessibleMessage.MessageID | types_maybe_inaccessible_message.go:28-34 | `MessageID` reads the id of the message when present, else of the inaccessible message. It panics (`None`) exactly when neither is set. |
| MaybeInaccessible.MaybeInaccessibleMessage.Chat | types_maybe_inaccessible_message.go:37-43 | `Chat` reads the chat of the message when present, else of the inaccessible message. It panics (`None`) exactly when neither is set. |
| MessageText.MessagePayload | types_message.go:6-8 | The message payload is `ExtractPayload` of the text, and empty without a space. |
| MessageText.MessageArgs | types_message.go:11-13 | The message arguments are `ExtractArgs` of the text, nil exactly for an all-space text. |
| MessageText.CallbackPayload | types_callback_query.go:4-6 | The callback payload is `ExtractPayload` of the data, and empty without a space. |
| MessageText.CallbackArgs | types_callback_query.go:9-11 | The callback arguments are `ExtractArgs` of the data: the fields after the first. |
| KeyboardOptions.OneButtonRows | types_send_message_params.go:22-25 | A column keyboard has one row per button, in order, each holding just that button. |
| KeyboardOptions.Column | types_send_message_params.go:22-25 | The row-building loop produces the single-column keyboard. |
| KeyboardOptions.ApplySend | types_send_message_params.go:5-36 | A missing reply markup, or one without inline markup, is replaced by a fresh one, and an existing one is reused. The keyboard is installed. The rollback carries the previous keyboard, empty for a fresh markup. Chat and text are unchanged. |
| KeyboardOptions.ApplyEdit | types_edit_message_text_params.go:4-35 | A missing inline markup is replaced by a fresh one and an existing one is reused. The keyboard is installed, and the rollback carries the previous keyboard. |
| KeyboardOptions.SendRollback | types_send_message_params.go:11-14 | An option followed by its rollback leaves the previous keyboard in place (empty if there was none). |
| KeyboardOptions.EditRollback | types_edit_message_text_params.go:10-13 | An option followed by its rollback leaves the previous keyboard in place (empty if there was none). |
| Errors.Unwrap | errors.go:33-65 | Every error an error unwraps to is strictly smaller, so the searches terminate. |
| Errors.IsUnwrap | errors.go:33-65 | `errors.Is` holds exactly when the error is the target, or it holds of one of the errors it unwraps to. |
| Errors.AnyIsExists | errors.go:76 | `errors.Is` of a join holds exactly when it holds of some joined error. |
| Errors.AsRetryUnwrap | errors.go:37-50 | `errors.As` for a `RetryError` gives the error's own delay, or else the first hit among the errors it unwraps to, in order. |
| Errors.FirstMatchSpec | errors.go:191-211 | A description switch yields the first entry whose text equals the description, and nil exactly when none does. |
| Errors.FirstMatchIn | errors.go:191-211 | A matched entry is one of the switch's entries. |
| Errors.FirstMatchSingle | errors.go:225-233 | A one-case switch matches exactly that case's text. |
| Errors.IsJoinReason | errors.go:76 | `errors.Is` of `Join(base, reason)` holds for the base and for a non-nil reason, and for nothing else. |
| Errors.IsClassify | errors.go:72-146 | `errors.Is` of the status switch's result holds exactly for the status's base error and, for 400, 404 and 409, for the sub-reason. |
| Errors.GenErrorBase | errors.go:72-146 | Each of the ten known statuses yields an error that is its base error. Any other status wraps a plain `Error{code, text}` in an `APIError` with the description. |
| Errors.BadRequestReason | errors.go:191-211 | `genErrorBadRequest` yields an entry of the bad-request catalogue whose text is the description. |
| Errors.BadRequestCatalogCodes | errors.go:180-189 | Every entry of the bad-request catalogue has status 400. |
| Errors.ReasonSpec | errors.go:191-251 | A sub-reason arises only for 400, 404 and 409 and has that same status. The 404 and 409 refinements arise exactly for their texts. |
| Errors.IsGenError | errors.go:72-146 | `errors.Is` of `genError` holds exactly for the status's base error and the matched sub-reason. |
| Errors.StopsSession | client.go:306-310 | The client stops exactly on a 401, or on a 404 whose description is the banned-bot text. |
| Errors.ConflictWithBotReason | errors.go:98-102 | A response is `ErrConflictWithBot` exactly when it is a 409 carrying the getUpdates conflict text. |
| Errors.RetryClassification | errors.go:104-140 | `errors.As` finds a `RetryError` exactly for 429, 500, 502, 503 and 504. A 429 waits the server's non-zero `retry_after`, and everything else waits 10 s. |
| Errors.RetryErrorText | errors.go:44-46 | A retryable error prints as its base error's status text. |
| Errors.APIErrorDescriptionText | errors.go:25-31 | Any other classification prints as its description when that is non-empty. |
| Errors.APIErrorEmptyDescriptionText | errors.go:25-31 | With an empty description, the error prints as the base error's text, or as the server's status text for an unknown code. |
| Errors.BadRequestTextsNonEmpty | errors.go:180-189 | No bad-request refinement has an empty text. |
| Errors.ReasonOfEmpty | errors.go:191-251 | An empty description matches no sub-reason. |
| GoStrings.IndexOf | inline_keyboard_button.go:9 | `strings.IndexByte` is the first index of the character, and -1 exactly when it is absent. |
| GoStrings.Cut | helpers.go:22 | `strings.Cut` finds the separator exactly when it occurs. Then the string is before + separator + after, with no separator in before. When it is absent, before is the whole string and after is empty. |
| GoStrings.CutOfSplit | helpers.go:22 | A string split at a separator absent from the head is cut back into the same halves. |
| GoStrings.CutBefore | router.go:94-96 | The part before the first separator is s exactly when s followed by the separator is a prefix and s holds no separator. |
| GoStrings.ContainsAt | cmd/gen/parse.go:170 | `strings.Contains` holds exactly when the substring starts at some index. |
| GoStrings.IndexOfSub | cmd/gen/main.go:36 | `strings.Index` is the first index where the substring starts, or -1 when there is none. |
| GoStrings.CutString | cmd/gen/main.go:36 | `strings.Cut` with a string separator splits at its first occurrence, and reports whether one was found. |
| GoStrings.FieldsEmpty | helpers.go:12-14 | `strings.Fields` gives no field exactly for an all-space string. |
| GoStrings.FieldsWords | helpers.go:12 | Every field is a non-empty, space-free word. |
| GoStrings.FieldsAppend | cmd/gen/parse.go:192 | At a space boundary, the fields of a concatenation are the fields of the two parts. |
| GoStrings.FieldsOfJoin | helpers.go:12 | `strings.Fields` inverts `strings.Join(_, " ")` on non-empty space-free words. |
| GoStrings.TrimLeftShape | cmd/gen/parse.go:204 | Trimming on the left drops a prefix and stops at a character outside the cut set. |
| GoStrings.TrimRightShape | cmd/gen/parse.go:204 | Trimming on the right keeps a prefix and stops at a character outside the cut set. |
| GoStrings.TrimChanges | cmd/gen/parse.go:204 | `strings.Trim` changes a string exactly when it starts or ends with a cut character. |
| GoStrings.TrimPrefix | file.go:24 | `strings.TrimPrefix` drops the prefix once when present, and otherwise keeps the string. |
| GoStrings.WrapInt64 | client.go:384 | Int64 wrap-around keeps values in range unchanged, and agrees with the mathematical value modulo 2^64. |
| GoStrings.FormatInt | types_user.go:9 | `strconv.FormatInt` is non-empty, and starts with `-` exactly for a negative number. |
| GoStrings.ParseInt | client.go:202 | `strconv.ParseInt(_, 10, 64)` rejects a string with no digits after its optional sign, or anything but digits there. Otherwise it yields the signed decimal value exactly when that fits in 64 bits. |
| GoStrings.ParseIntRejects | client.go:202 | Any character that is neither a digit nor a leading sign makes the parse fail, so such a token is `ErrInvalidToken`. |
| GoStrings.ParseFormat | client.go:202 | `strconv.ParseInt` reads back every int64 that `strconv.FormatInt` wrote. |
| GoStrings.Repeat | cmd/gen/templates.go:116 | `strings.Repeat` has n times the length of the string. |
| GoStrings.RepeatCopy | cmd/gen/templates.go:116 | The k-th block of `strings.Repeat(s, n)`, for k < n, is s. |
| GoStrings.RepeatCopies | cmd/gen/templates.go:116 | `strings.Repeat(s, n)` is exactly n copies of s, one after the other. |
| GoStrings.CutBeforeSuffix | cmd/gen/main.go:36 | Cutting `x + sep` at sep finds it and gives back x, when sep does not occur in x and its first character occurs nowhere else in it, as for `_id`. |
| Html.SelectMembers | cmd/gen/html.go:25-27 | The tag test keeps exactly the element nodes whose tag is listed. |
| Html.FindNodesMembers | cmd/gen/html.go:20-36 | `findNodes` finds exactly the tagged nodes of the tree, and a tagged root comes first. |
| Html.WalkNodes | cmd/gen/html.go:23-32 | The recursive walk appends the tagged nodes of the subtree in pre-order. |
| Html.FindNodesWalk | cmd/gen/html.go:20-36 | `findNodes` as run, a walk into an empty slice, gives the pre-order selection. |
| Html.FindTextIsTextOf | cmd/gen/html.go:58-78 | The text of a tree is the pieces of its nodes in pre-order. Equivalently, it is each node's own piece followed by its children's texts. |
| Html.LeafText | cmd/gen/html.go:63-69 | A leaf text node reads as its data, and a leaf `br` reads as a line break. |
| Html.WalkText | cmd/gen/html.go:61-74 | The recursive walk appends the pieces of the subtree in pre-order. |
| Html.FindTextWalk | cmd/gen/html.go:58-78 | `findText` as run, a walk into an empty buffer, gives the pre-order text. |
| Html.StopIndex | cmd/gen/html.go:41-48 | The scan of siblings stops at the first one with the root's data or a two-character `h…` name. |
| Html.FindNodesSibling | cmd/gen/html.go:38-56 | The result is the tagged siblings before the first one that stops the scan, in order. |
| Html.FindAttr | cmd/gen/html.go:80-88 | The result is the value of the first attribute with the key, or the empty string when there is none. |
| Parse.LastThree | cmd/gen/parse.go:192-197 | The last three words after a space boundary are the joined words. |
| Parse.NoDiscriminator | cmd/gen/parse.go:183-210 | Fewer than three words, or last three words in neither form, give no discriminator. |
| Parse.MustBeDiscriminator | cmd/gen/parse.go:199-201 | A description ending in `must be X` has the discriminator X. |
| Parse.TrimQuoted | cmd/gen/parse.go:204 | Trimming the curly quotes from a quoted value gives the value exactly. |
| Parse.AlwaysDiscriminator | cmd/gen/parse.go:203-206 | A description ending in `always “X”` has the discriminator X. |
| Parse.EntriesFailure | cmd/gen/parse.go:149-181 | Reading is fatal exactly when some row with cells has the wrong number of them, with the `N table columns expected` message. |
| Parse.EntriesValues | cmd/gen/parse.go:149-181 | A successful read gives one entry per row with cells, in order, each read from a row of the right width. |
| Parse.FatalPart | cmd/gen/parse.go:159-161 | A wrong-width row in any one table makes reading all the tables fatal. |
| Parse.ParseRows | cmd/gen/parse.go:152-178 | The nested loop over tables and rows gives exactly the entries of all rows, table after table, stopping at a fatal row. |
| Parse.ReadRow | cmd/gen/parse.go:154-176 | A row without cells is skipped, and a wrong-width row is fatal. Any other row adds one entry. |
| Parse.ParseTable | cmd/gen/parse.go:153-177 | The row loop of one table continues the entries of the rows before it, or fails at a wrong-width row of that table. |
| Parse.ParseFields | cmd/gen/parse.go:149-181 | Fields are three-column rows. The type becomes `InputFile` when the description mentions `attach://<file_attach_name>`. A field is required unless its description starts with `Optional.`, and it has a discriminator. |
| Parse.ParseParams | cmd/gen/parse.go:212-242 | Parameters are four-column rows, required when the third cell reads `Yes`, with the same `InputFile` rule. |
| Parse.ParseSubtypes | cmd/gen/parse.go:136-147 | The subtypes are the texts of the `li` items of all the lists, in order. |
| Parse.Classify | cmd/gen/parse.go:24-35 | A heading is skipped exactly when it is empty, `InputFile`, or holds a space. Otherwise it names a method exactly when it starts with a lower-case letter. |
| Parse.ParseInfoNames | cmd/gen/parse.go:15-57 | The names filed as types are exactly the `h4` titles classified as types, and likewise for methods. |
| Templates.MapTitleAppend | cmd/gen/templates.go:60-74 | The `strings.Map` pass runs over a concatenation piece by piece, carrying its flag across. |
| Templates.MapTitleShape | cmd/gen/templates.go:62-74 | The pass drops every `_` and keeps one character for each other character. |
| Templates.UnderscoreCapitalises | cmd/gen/templates.go:62-74 | An underscore restarts capitalisation, so the words of a snake-case name are capitalised independently. |
| Templates.MapTitleWord | cmd/gen/templates.go:62-74 | A word without `_`, starting a name, gets its first character upper-cased and keeps the rest. |
| Templates.MapTitleLoop | cmd/gen/templates.go:60-74 | The stateful `strings.Map` loop computes the pass. |
| Templates.ToTitle | cmd/gen/templates.go:43-75 | `toTitle` is the two abbreviations `id` and `url`, the `_id` and `_ids` suffix rewrites, then the pass. |
| Templates.TitleOfIdSuffix | cmd/gen/templates.go:52-54 | A name ending in `_id` converts to its converted head followed by `ID`. |
| Templates.TitleOfIdsSuffix | cmd/gen/templates.go:56-58 | A name ending in `_ids` converts to its converted head followed by `IDs`. |
| Templates.StripOfNested | cmd/gen/templates.go:96-101 | Stripping n nested `Array of ` gives back the base name and the depth n. |
| Templates.MapBase | cmd/gen/templates.go:78-106 | A base name goes through the fixed type table, and names the table does not hold are kept. |
| Templates.GoType | cmd/gen/templates.go:77-117 | `toType` panics exactly when the stripped base name is empty, and never yields an empty type. |
| Templates.GoTypeOfNested | cmd/gen/templates.go:77-117 | n nested arrays of a base give n `[]` before the mapped base. Without arrays, an optional capitalised type is a pointer. |
| Templates.ToType | cmd/gen/templates.go:77-117 | The prefix-stripping loop of `toType` computes `GoType`. |
| Templates.MakeCode | cmd/gen/templates.go:119-135 | A slice is made with capacity 100 and referenced, a lower-case type is referenced in place, and a capitalised type is allocated with `new`. An empty type panics. |
| Templates.LowerFirst | cmd/gen/templates.go:137-139 | Only the first character is lower-cased, and the rest is kept. |
| Templates.LowerFirstOfTitle | cmd/gen/templates.go:137-139 | Lower-casing the first character undoes the capital that `toTitle`'s pass puts on a lower-case word, and doing it twice is doing it once. |
| Generator.Multipart | cmd/gen/main.go:79-87 | A method is multipart exactly when some parameter has type `InputFile`. |
| Generator.AutoFillCode | cmd/gen/main.go:27-63 | `chat_id` gives `ctx.Chat().Identifier()` for a string type and `ctx.Chat().ID` otherwise, and panics on an empty type. A name without `_id` is not filled. An accessor is emitted exactly when the part before `_id` is an update field whose type has an `id`, and it reads that field. An update field whose type has no `id` is not filled. Without the update field, only `callback_query_id` is filled, from the fourteenth update field, and it panics when there are fewer fields. |
| Generator.UpdateFieldFill | cmd/gen/main.go:36-62 | A `<x>_id` parameter, with x free of `_id` and so possibly holding underscores as in `callback_query_id`, is read from update field `x` when the update has that field and its type has an `id`. |

## Left out

- **Network and files.**
  - HTTP requests, JSON encoding and decoding, file downloads, and the body of `Raw` before the envelope is decoded.
  - These are input and output. The decoded envelope is a parameter of `HandleEnvelope`.
- **The concurrency of `Start`.**
  - The fetch goroutine, the workers, the channels' blocking behaviour, the `WaitGroup` and the read-write lock are left out.
  - `Start` is modelled sequentially: its guard, then its end. The offset update of the fetch loop is `AdvanceOffset`.
- **The rate limiter.**
  - The `golang.org/x/time/rate` library is not part of this model.
  - The limiter is kept as its interval, burst and resume time. `SetLimitAt(now + wait, …)` sets the resume time.
  - The current time is a parameter, in whole seconds.
- **Durations** are whole seconds, because `genError` and the default timeout only use whole seconds.
- **`FilterRegexp`**: regular expressions are outside this model.
- **Values derived from generated code.**
  - `ctx.Text()`, `ctx.Message()` and `findHandlerOn` come from generated code that is not part of this model.
  - A filter sees the context text as a field of `View`, and the update's kind is a parameter.
- **The generated `HandleOn…` methods** are not part of this model, so `Routing.RouterGroup.Handle` cites their call site. `RouterGroup.Handle` models the step they share: appending the group's filtered, wrapped route to one bucket.
- **Group middleware aliasing.** Go slices share storage, so an append to a parent group after `Group` can change the child's middleware slice. The model copies the list.
- **Other generator code.**
  - `parseDescription` and `parseDescriptionTextLinks`: the formatted text of a description cell is a parameter of the table readers.
  - `parseResult` is left out.
  - `main`, `retrievePageRC`, `writeFile`, `parseHTML`, `parseTemplates`, `renderTemplate` and the templates themselves are web, file and template I/O.
- **`AutoFillCode` text.** The closure text returned for an update field is kept as the name of the field it reads, `UpdateAccessor`.
- **Character handling.**
  - Strings are sequences of characters rather than bytes.
  - `unicode.ToTitle`, `unicode.IsLower` on a first byte and `strings.ToLower` are modelled for ASCII letters only.
  - `unicode.IsSpace` is given for the Unicode space characters.
- **Object pooling and accessors.**
  - `sync.Pool` is modelled as a stack of free contexts. Go drops or reorders pooled objects freely.
  - The trivial accessors of `Context` (`Deadline`, `Done`, `Err`, `Context`) and of `Client` (`ID`, `Token`, `Router`, `SetRouter`, the addresses) delegate or return fields.
- Clients.Client.BeginSession: uses the corrected `WorkerCount` of Findings. As written, a negative `Limit` gives a negative count, and `wg.Add` panics after `started` was set. The model does not show that panic.
- Clients.Client.Start: runs under the same correction. For a negative `Limit`, the Go code panics and leaves the client started, so it cannot be started again. The model does not show that outcome.
- Routing.Router.constructor: installs the always-true root filter, the corrected rule of Findings. `NewRouter` leaves the filter nil, and routes added through `Group` on the root router then panic.
- **Other files.** `util_unsafe.go`, `keyboard.go`, `sql.go`, `commands.go`, `limits.go`, `message_entities.go`, `parse_mode.go`, `types_chat_action.go` and `types_response.go` are constants, conversions or out of scope.
- Contexts.Context.Value: requires a held key or a parent context. Without either, Go calls a method on a nil parent and panics. That case is excluded rather than modelled.
- Errors.GenError: is split into `Reason`, the sub-reason lookups, and `Classify`, the status switch. `GenError` is the composition of the two, line for line.
- Templates.LowerFirst: requires a non-empty string, because `toLowerFirst` slices `s[:1]` and panics on the empty string. Its callers only pass generated names, which are never empty.
- **Long error texts** are written as concatenations of pieces. The resulting strings are the ones in the source.
- Clients.RollbackRestores: states the round trip for settings that are consistent, which means a positive rate. As written, a `WithRPS` rollback made while the stored rate was 0 brings back 30 rather than 0. That case cannot arise after `NewClient`.

## Findings

| source | as written | input that shows it | evidently intended | confidence | as-written member | corrected member |
|---|---|---|---|---|---|---|
| router.go:37-42 | `NewRouter` leaves the root group's filter nil, and `Group` calls `rg.filter(ctx)` unconditionally | `NewRouter().Group(f)`: any update dispatched to a route of that group | the root group's filter admits every update | not executed | Routing.RootGroupFilterPanics | Routing.RootGroupFilter |
| client.go:343-354 | a negative `Limit` from the caller is kept, so `workerCount` becomes negative and `wg.Add` panics after the client is marked started | `Start(ctx, &GetUpdatesParams{Limit: -1})` gives `min(GOMAXPROCS, -1) = -1` | the worker count is held to at least one | not executed | Clients.NegativeLimitPanics | Clients.WorkerCount |
