# Relay engine decision logic, in Dafny

This project models the decision logic of a protocol-translating model-inference
gateway's relay engine: given a request path, pick the relay mode and the helper
that serves it; for text requests, run the executor that validates the request,
maps the model name, reserves (pre-consumes) quota, selects the provider adaptor,
builds the upstream body, dispatches, classifies the response, decodes it and
schedules settlement; when a helper fails, either redirect the client to retry
with a smaller budget or write the error, and possibly disable the channel. It
also covers the two request-context utilities everything else leans on (a
cached, reusable request body and the event-stream headers) and the Azure
adaptor's choice of API version.

Modules, one per source file, plus two small support modules:

- `Base` (base.dfy): `Option`, `Result`, bytes, Go's `strings.HasPrefix`/`HasSuffix`, `errors.Wrap` messages.
- `Strconv` (strconv.dfy): Go's `strconv.Atoi` on a 64-bit target (sign, digits, early stop on overflow, clamping, 0 on a syntax error) and `%d`, with the round trip between them.
- `Gin` (gin.dfy, common/gin.go): the request context as a class. It holds the key-value store, the request body as an `io.ReadCloser` value (unread bytes, a possible failure, closed flag) and the response header map, with the path and query as constants.
- `Relay` (relay.dfy, controller/relay.go): the request data model, `MessagesLen`, `ParseInput` (a loop, as in the source), the path classifier checked against an ordered rule table, helper dispatch, the error/retry branch and the fixed 404/501 errors.
- `Text` (text.dfy, relay/controller/text.go): `RelayTextHelper` as a method over the context, the request `Meta` object and a `QuotaLedger` object. Its second half, from building the upstream body through settlement, is the method `DispatchText`, and `UpstreamBody` says what the body build gives. The ledger records each pre-consume, refund and settlement scheduling in order, and `Held` says how much quota stays reserved.
- `Azure` (azure.dfy, relay/adaptor/azure/helper.go): `GetAPIVersion`, a function that reads the context.

Collaborators whose code is not part of this model are parameters: the image, audio and text helpers as seen from `Relay`, `common.MessageWithRequestId`, `shouldDisableChannel`, `getAndValidateTextRequest`, `getMappedModelName`, `getPromptTokens`, `billingratio.GetModelRatio`, `preConsumeQuota`, `json.Marshal`, `RelayErrorHandler`, and the adaptor's `ConvertRequest`, `DoRequest` and `DoResponse`. gin's `c.Bind` is also a parameter. Most are functions of what they are given. `preConsumeQuota` is the function `Text.Env.preConsume`. The validation outcome and the adaptor lookup are values in `Text.Env`.

Three behaviours of the code worth knowing:

- A non-empty `retry` value that does not parse usually gives 0, so the request is not retried. It does not fall back to the configured maximum. `Atoi` stops at the first overflow, so a value whose digits before the first non-digit already exceed 2^64−1 (at least 20 of them, e.g. `99999999999999999999x`) reads as the largest 64-bit integer and is redirected; `10000000000000000000x` still reads as 0. A negative value too large for 64 bits clamps to the smallest 64-bit integer and is answered at once.
- After quota is reserved, four error exits return without refunding it: a missing adaptor, a JSON marshalling failure, a conversion failure and a dispatch failure. `RelayTextHelper`'s last postcondition states exactly which exits leave the reservation held.
- `controller/relay.go` calls `relayTextHelper(c, relayMode)`, while relay/controller/text.go defines `RelayTextHelper(c)` and reads the mode from the metadata. These are two versions of the helper. `Relay.Relay` therefore takes the helper outcome as a parameter and does not call `Text.RelayTextHelper`.

## Model

| member | source | states |
|---|---|---|
| `Relay.MessagesLen` | controller/relay.go:88-101 | the element count for the four list shapes, and 0 for nil, a string or any other value |
| `Relay.ParseInput` | controller/relay.go:125-142 | nil and non-string, non-list values give no entries; a string gives a one-element list; a list gives exactly its string items in order |
| `Relay.StringItemsAppend` | controller/relay.go:133-139 | the item filter distributes over concatenation, so it keeps order |
| `Relay.StringItemsMembers` | controller/relay.go:133-139 | at most one entry per item; a string is in the result iff it is an item of the list |
| `Relay.StringItemsAllStrings` | controller/relay.go:133-139 | a list made only of strings comes back unchanged |
| `Relay.ClassifyPath` | controller/relay.go:249-266 | the mode is the first matching rule's in the ordered prefix/suffix table; `Unknown` iff no rule matches |
| `Relay.ChatBeatsEmbeddingsSuffix` | controller/relay.go:250-257 | a chat-completions path ending in "embeddings" is still a chat request |
| `Relay.EmbeddingsBySuffix` | controller/relay.go:254-257 | a path ending in "embeddings" that starts with neither /v1/chat/completions nor /v1/completions is an embeddings request |
| `Relay.HelperFor` | controller/relay.go:268-275 | image helper iff image generation, audio helper iff audio, text helper for every other mode |
| `Relay.UnmatchedPathIsText` | controller/relay.go:248-275 | an unmatched path is `Unknown` and is relayed by the text helper, not rejected |
| `Relay.RetryCount` | controller/relay.go:278-282 | an empty `retry` gives the configured default; any other value gives a 64-bit integer, and one that fails to parse is 0 or below unless it overflowed upward, which gives the largest 64-bit integer |
| `Relay.HandleRelayError` | controller/relay.go:276-302 | positive budget iff 307 redirect to `path?retry=<budget-1>` with the error untouched; otherwise a 429 message becomes the saturation text, then gets the request id; the response keeps the error's status; disabling is asked of the final error on both paths, with the context's channel id and name |
| `Relay.RetryBudgetDecreases` | controller/relay.go:278-284 | the redirected request reads back a budget exactly one smaller, never negative |
| `Relay.Relay` | controller/relay.go:248-303 | nothing is written when the helper of the classified mode succeeds; on its error, a positive budget is a 307 to `path?retry=<budget-1>`, otherwise the error is written with its status after the 429 rewrite and the request id; on both paths the channel is disabled iff `shouldDisable` holds of the final error, with the context's channel id and name |
| `Relay.RelayNotImplemented` | controller/relay.go:305-315 | status 501 with the fixed "API not implemented" error |
| `Relay.RelayNotFound` | controller/relay.go:317-327 | status 404, type `invalid_request_error`, message exactly `Invalid URL (<method> <path>)` |
| `Strconv.Atoi` | controller/relay.go:279 | the parsed value is a 64-bit integer; an error gives 0 or a 64-bit bound, the largest only for a value without a minus sign and the smallest only for one with it; the empty string gives 0 |
| `Strconv.AtoiDecimalString` | controller/relay.go:279-284 | `Atoi` reads back what `%d` writes, for every non-negative 64-bit value |
| `Strconv.AtoiSyntaxErrorIsZero` | controller/relay.go:279-283 | a value of at most 19 characters with a non-digit past the sign reads as 0 |
| `Strconv.DecimalString` | controller/relay.go:284 | `%d` output is non-empty, starts with a digit for non-negative values and with '-' otherwise, and has no leading zero |
| `Gin.ReadAll` | common/gin.go:18-21 | what is read plus what is left is the stream; it fails iff the reader is closed or failing; success reads everything |
| `Gin.Context.GetRequestBody` | common/gin.go:13-25 | a cached body is returned without touching the stream; otherwise the whole body is read, the stream closed and the bytes cached; a read failure is an error and caches nothing |
| `Gin.GetRequestBodyTwice` | common/gin.go:14-17 | once a call succeeds, a second one returns the same bytes and reads nothing more |
| `Gin.Context.UnmarshalBodyReusable` | common/gin.go:27-44 | if the body cannot be got, the error comes back and the body is not reset; otherwise, whether bind succeeds or fails, the body is a fresh reader over the cached bytes |
| `Gin.BindResult` | common/gin.go:37-43 | the result succeeds iff bind does, and then carries bind's value |
| `Gin.Context.SetEventStreamHeaders` | common/gin.go:46-52 | the five event-stream headers have their exact values; other headers are unchanged |
| `Gin.StreamHeadersIdempotent` | common/gin.go:46-52 | setting the headers twice gives the same map as once |
| `Gin.SetEventStreamHeadersTwice` | common/gin.go:46-52 | two calls leave the header map a single call leaves |
| `Text.ErrorWrapper` | relay/controller/text.go:32 | the wrapped error keeps the cause's text and carries the given code and status |
| `Text.QuotaLedger.RecordPreConsumed` | relay/controller/text.go:50-54 | the reservation is appended and the held quota grows by it |
| `Text.QuotaLedger.ReturnPreConsumedQuota` | relay/controller/text.go:98-112 | the refund is appended and the held quota shrinks by it |
| `Text.QuotaLedger.SchedulePostConsume` | relay/controller/text.go:114-125 | the settlement is appended and hands its reservation over |
| `Text.HeldSnoc` | relay/controller/text.go:50-125 | each ledger call changes the held quota by exactly its delta |
| `Text.ErrorHappened` | relay/controller/text.go:99 | any non-200 status is an error; a buffered request is an error only then; a streamed request answered with 200 is an error iff the content type starts with `application/json` |
| `Text.UpstreamBody` | relay/controller/text.go:60-89 | an OpenAI request that is neither mapped nor on Baichuan forwards the original bytes; every failure is a wrapped 500, coded `json_marshal_failed` for OpenAI and `convert_request_failed` or `json_marshal_failed` otherwise, as the conversion went |
| `Text.DispatchText` | relay/controller/text.go:60-127 | a failed build is returned with nothing dispatched and the body untouched; otherwise the built body is dispatched, and only a forwarded original body consumes the stream; a dispatch error is a wrapped 500 with no refund; an upstream error or a decode error is refunded once; success schedules settlement; the held quota falls by the reservation iff the dispatch succeeded |
| `Text.RelayTextHelper` | relay/controller/text.go:25-128 | validation failure is 400 `invalid_text_request` with the ledger and meta untouched; the meta gets the stream flag and both model names; pre-consume failure is returned unchanged with nothing dispatched; no adaptor is 400 `invalid_api_type`; a conversion failure is the wrapped 500 `convert_request_failed` and a marshalling failure the wrapped 500 `json_marshal_failed`, each carrying its cause; dispatch is 500 `do_request_failed`, none refunded; for OpenAI the body is re-serialised iff mapped or Baichuan, else the original body is forwarded; an error status or a JSON reply to a stream is refunded once and not decoded; a decode error is refunded once; only success schedules settlement, with no refund; the request body is left alone on every exit before dispatch |
| `Azure.GetAPIVersion` | relay/adaptor/azure/helper.go:8-15 | a non-empty query value wins, else the context fallback; the result is one of the two; it is a function, so nothing is modified |

## Left out

- `TextMessages` and `VisionMessages` (controller/relay.go:104-123): they depend on `encoding/json` round trips, which are not modelled.
- The response and stream record types (controller/relay.go:144-246): plain data with no behaviour.
- Logging (`common.LogError`, `logger.*`) and the `c.Redirect`/`c.JSON` writes themselves: `Relay.Action` stands for what is written.
- The detached settlement goroutine, `postConsumeQuota` and the cost-record insert (relay/controller/text.go:115-125): only the fact that the task is scheduled, with its inputs, is modelled.
- Floating point: the model and group ratios are carried as an opaque pair (`Text.Ratio`), and their product is not computed. Temperature and TopP are not in `Relay.GeneralRequest`.
- The effect of `c.Bind` on the response status when binding fails is HTTP plumbing, so it is not modelled.
- `Relay.Dyn` distinguishes nil from an empty list, but `ParseInput`'s result does not distinguish Go's nil slice from an empty one.
- Strings are sequences of characters, not UTF-8 bytes. Every pattern the classifier tests is ASCII, so prefix and suffix tests agree with Go's byte-level ones.
- The values of `common.RequestIdKey`, `config.KeyAPIVersion`, `apitype.OpenAI`, `channeltype.Baichuan` and the error type set by `openai.ErrorWrapper` are not in the modelled files. They are given the upstream project's values, and no property depends on them.
- `Gin.Context.GetRequestBody`: requires that anything stored under `key_request_body` is bytes. In Go the type assertion would panic otherwise, and only this cache writes that key.
- `getAndValidateTextRequest` is an outcome in `Text.Env`; its own effect on the request body is not modelled, so `Text.RelayTextHelper` states that a validation failure leaves the body as it was.
- `Relay.Relay`: no property is stated here about the image and audio helpers. They are parameters.
