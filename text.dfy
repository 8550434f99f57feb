/** The text relay executor (relay/controller/text.go): validate the request,
    map the model name, pre-consume quota, select the adaptor, build the
    upstream body, dispatch, classify the response, decode it, and schedule
    settlement, with an early return at every failure. The collaborators it
    calls are given as an `Env` of functions and outcomes; the quota calls it
    makes are recorded in a `QuotaLedger`. */
module Text {
  import opened Base
  import Strconv
  import Gin
  import Relay

  const StatusOK: int := 200
  const StatusBadRequest: int := 400
  const StatusInternalServerError: int := 500

  /** `apitype.OpenAI`: the upstream already speaks the unified format. */
  const ApiTypeOpenAI: int := 0
  /** `channeltype.Baichuan`: a channel whose requests are always re-serialised. */
  const ChannelTypeBaichuan: int := 26
  /** The error type `openai.ErrorWrapper` gives the errors it builds. */
  const WrapperErrorType: string := "one_api_error"

  /** `openai.ErrorWrapper(err, code, status)`: the error's text as message,
      with the given code and HTTP status. */
  function ErrorWrapper(cause: string, code: string, status: int): (e: Relay.RelayError)
    ensures e.statusCode == status && e.error.code == code && e.error.message == cause
    ensures e.error.errorType == WrapperErrorType
  {
    Relay.RelayError(Relay.OpenAIError(cause, WrapperErrorType, "", code), status)
  }

  datatype Usage = Usage(promptTokens: int, completionTokens: int, totalTokens: int)

  /** The model ratio and the group (channel) ratio; their product is
      floating point and is not modelled. */
  datatype Ratio = Ratio(modelRatio: real, groupRatio: real)

  /** What the executor reads of an upstream response. */
  datatype Response = Response(statusCode: int, contentType: string)

  /** An adaptor's three calls, as functions of what they are given. */
  datatype Adaptor = Adaptor(
    convertRequest: (Relay.RelayMode, Relay.GeneralRequest) -> Result<Relay.Dyn, string>,
    doRequest: Bytes -> Result<Option<Response>, string>,
    doResponse: Option<Response> -> Result<Usage, Relay.RelayError>)

  /** The collaborators of one request. */
  datatype Env = Env(
    /** `getAndValidateTextRequest(c, meta.Mode)` */
    validated: Result<Relay.GeneralRequest, string>,
    /** `getMappedModelName(name, meta.ModelMapping)`: the new name, and whether it changed */
    mapModelName: string -> (string, bool),
    /** `billingratio.GetModelRatio` */
    modelRatio: string -> real,
    /** `getPromptTokens(textRequest, meta.Mode)` */
    promptTokens: Relay.GeneralRequest -> int,
    /** `preConsumeQuota`: the reserved amount, or the error it gives */
    preConsume: (Relay.GeneralRequest, int, Ratio) -> Result<int, Relay.RelayError>,
    /** `relay.GetAdaptor(meta.APIType)` */
    adaptor: Option<Adaptor>,
    /** `json.Marshal(textRequest)` */
    marshalRequest: Relay.GeneralRequest -> Result<Bytes, string>,
    /** `json.Marshal(convertedRequest)` */
    marshalConverted: Relay.Dyn -> Result<Bytes, string>,
    /** `RelayErrorHandler(resp)` */
    errorHandler: Response -> Relay.RelayError)

  /** The request's metadata (`meta.Meta`), which the executor updates. */
  class Meta {
    const mode: Relay.RelayMode
    const apiType: int
    const channelType: int
    const tokenId: int
    const channelRatio: real
    var isStream: bool
    var originModelName: string
    var actualModelName: string
    var promptTokens: int

    constructor (mode: Relay.RelayMode, apiType: int, channelType: int, tokenId: int, channelRatio: real)
      ensures this.mode == mode && this.apiType == apiType && this.channelType == channelType
      ensures this.tokenId == tokenId && this.channelRatio == channelRatio
      ensures !isStream && originModelName == "" && actualModelName == "" && promptTokens == 0
    {
      this.mode := mode;
      this.apiType := apiType;
      this.channelType := channelType;
      this.tokenId := tokenId;
      this.channelRatio := channelRatio;
      isStream := false;
      originModelName := "";
      actualModelName := "";
      promptTokens := 0;
    }
  }

  /** What the detached settlement task is given: it post-consumes quota and
      writes the cost record. */
  datatype Settlement = Settlement(usage: Usage, model: string, ratio: Ratio, preConsumedQuota: int, tokenId: int)

  datatype LedgerEvent =
    | PreConsumed(tokenId: int, quota: int)
    | Refunded(tokenId: int, quota: int)
    | PostConsumeScheduled(settlement: Settlement)

  /** How one ledger call changes the quota held: a reservation adds its
      amount, a refund gives it back, and scheduling settlement hands the
      reservation over to the settlement task. */
  function Delta(e: LedgerEvent): int
  {
    match e
    case PreConsumed(_, q) => q
    case Refunded(_, q) => -q
    case PostConsumeScheduled(s) => -s.preConsumedQuota
  }

  /** The quota held by a sequence of ledger calls: what was reserved and
      neither refunded nor handed to settlement. */
  ghost function Held(events: seq<LedgerEvent>): int
  {
    if events == [] then 0 else Held(events[..|events| - 1]) + Delta(events[|events| - 1])
  }

  /** One more ledger call changes the quota held by exactly its delta. */
  lemma HeldSnoc(events: seq<LedgerEvent>, e: LedgerEvent)
    ensures Held(events + [e]) == Held(events) + Delta(e)
  {
    assert (events + [e])[..|events|] == events;
  }

  /** The quota calls made by relay requests, in order. */
  class QuotaLedger {
    var events: seq<LedgerEvent>

    constructor ()
      ensures events == [] && Held(events) == 0
    {
      events := [];
    }

    /** `preConsumeQuota` reserved `quota` for the token. */
    method RecordPreConsumed(tokenId: int, quota: int)
      modifies this
      ensures events == old(events) + [PreConsumed(tokenId, quota)]
      ensures Held(events) == Held(old(events)) + quota
    {
      HeldSnoc(events, PreConsumed(tokenId, quota));
      events := events + [PreConsumed(tokenId, quota)];
    }

    /** `billing.ReturnPreConsumedQuota(quota, tokenId)`. */
    method ReturnPreConsumedQuota(quota: int, tokenId: int)
      modifies this
      ensures events == old(events) + [Refunded(tokenId, quota)]
      ensures Held(events) == Held(old(events)) - quota
    {
      HeldSnoc(events, Refunded(tokenId, quota));
      events := events + [Refunded(tokenId, quota)];
    }

    /** The `go func() { postConsumeQuota ...; docu.Insert() }()` task is started. */
    method SchedulePostConsume(s: Settlement)
      modifies this
      ensures events == old(events) + [PostConsumeScheduled(s)]
      ensures Held(events) == Held(old(events)) - s.preConsumedQuota
    {
      HeldSnoc(events, PostConsumeScheduled(s));
      events := events + [PostConsumeScheduled(s)];
    }
  }

  /** The response is an error: a status other than 200, or a JSON body where
      an event stream was asked for. */
  function ErrorHappened(resp: Response, isStream: bool): (r: bool)
    // Any status other than 200 is an error.
    ensures resp.statusCode != StatusOK ==> r
    // A buffered request is an error exactly on a non-200 status.
    ensures !isStream ==> (r <==> resp.statusCode != StatusOK)
    // A streamed request answered with 200 is an error iff the reply is JSON.
    ensures isStream && resp.statusCode == StatusOK ==> (r <==> HasPrefix(resp.contentType, "application/json"))
  {
    resp.statusCode != StatusOK || (isStream && HasPrefix(resp.contentType, "application/json"))
  }

  /** The request after model-name mapping. */
  ghost function Mapped(env: Env): Relay.GeneralRequest
    requires env.validated.Ok?
  {
    env.validated.value.(model := env.mapModelName(env.validated.value.model).0)
  }

  /** The outcome of pre-consumption for the mapped request. */
  ghost function Reservation(env: Env, channelRatio: real): Result<int, Relay.RelayError>
    requires env.validated.Ok?
  {
    var t := Mapped(env);
    env.preConsume(t, env.promptTokens(t), Ratio(env.modelRatio(t.model), channelRatio))
  }

  /** The body is forwarded as received: the OpenAI API type, a model name
      that was not mapped and a channel other than Baichuan. */
  ghost predicate ForwardsOriginalBody(env: Env, apiType: int, channelType: int)
    requires env.validated.Ok?
  {
    ForwardsAsReceived(apiType, channelType, env.mapModelName(env.validated.value.model).1)
  }

  /** Building the upstream body succeeds. */
  ghost predicate BodyBuilds(env: Env, apiType: int, channelType: int, mode: Relay.RelayMode)
    requires env.validated.Ok? && env.adaptor.Some?
  {
    if apiType == ApiTypeOpenAI then
      ForwardsOriginalBody(env, apiType, channelType) || env.marshalRequest(Mapped(env)).Ok?
    else
      var converted := env.adaptor.value.convertRequest(mode, Mapped(env));
      converted.Ok? && env.marshalConverted(converted.value).Ok?
  }

  /** Which steps reached the adaptor: whether `ConvertRequest` was called,
      the body `DoRequest` was called with, and whether `DoResponse` was called. */
  datatype Trace = Trace(converted: bool, dispatched: Option<Bytes>, decoded: bool)

  const Untouched: Trace := Trace(false, None, false)

  /** A marshalling outcome, with a failure wrapped as a 500 `json_marshal_failed`. */
  function Marshalled(json: Result<Bytes, string>): (r: Result<Bytes, Relay.RelayError>)
    ensures json.Ok? ==> r == Ok(json.value)
    ensures json.Err? ==> r == Err(ErrorWrapper(json.error, "json_marshal_failed", StatusInternalServerError))
  {
    match json
    case Ok(b) => Ok(b)
    case Err(e) => Err(ErrorWrapper(e, "json_marshal_failed", StatusInternalServerError))
  }

  /** Whether the OpenAI body is forwarded as received rather than re-serialised:
      the model name was not mapped and the channel is not Baichuan. */
  predicate ForwardsAsReceived(apiType: int, channelType: int, isModelMapped: bool)
  {
    apiType == ApiTypeOpenAI && !isModelMapped && channelType != ChannelTypeBaichuan
  }

  /** What building the upstream body gives (relay/controller/text.go:60-89),
      `original` being the bytes the request body holds. Every failure is a
      wrapped 500. */
  function UpstreamBody(env: Env, adaptor: Adaptor, apiType: int, channelType: int,
                        mode: Relay.RelayMode, t: Relay.GeneralRequest, isModelMapped: bool,
                        original: Bytes): (r: Result<Bytes, Relay.RelayError>)
    ensures ForwardsAsReceived(apiType, channelType, isModelMapped) ==> r == Ok(original)
    ensures r.Err? ==> r.error.statusCode == StatusInternalServerError && r.error.error.errorType == WrapperErrorType
    ensures r.Err? && apiType == ApiTypeOpenAI ==> r.error.error.code == "json_marshal_failed"
    ensures r.Err? && apiType != ApiTypeOpenAI ==>
      r.error.error.code == (if adaptor.convertRequest(mode, t).Err? then "convert_request_failed" else "json_marshal_failed")
  {
    if apiType == ApiTypeOpenAI then
      if isModelMapped || channelType == ChannelTypeBaichuan then Marshalled(env.marshalRequest(t))
      else Ok(original)
    else
      var converted := adaptor.convertRequest(mode, t);
      if converted.Err? then Err(ErrorWrapper(converted.error, "convert_request_failed", StatusInternalServerError))
      else Marshalled(env.marshalConverted(converted.value))
  }

  /** The second half of `RelayTextHelper` (relay/controller/text.go:60-127),
      once quota `q` is reserved for the mapped request `t`: build the body,
      dispatch it, classify and decode the response, then refund the
      reservation or schedule its settlement. */
  method DispatchText(c: Gin.Context, meta: Meta, ledger: QuotaLedger, env: Env, adaptor: Adaptor,
                      t: Relay.GeneralRequest, isModelMapped: bool, q: int, ratio: Ratio)
    returns (err: Option<Relay.RelayError>, trace: Trace)
    modifies c`body, ledger
    ensures trace.converted <==> meta.apiType != ApiTypeOpenAI
    ensures var built := UpstreamBody(env, adaptor, meta.apiType, meta.channelType, meta.mode, t, isModelMapped,
                                      Gin.ReadAll(old(c.body)).data);
      && (built.Err? ==>
            err == Some(built.error) && ledger.events == old(ledger.events)
            && trace.dispatched.None? && !trace.decoded && c.body == old(c.body))
      && (built.Ok? ==>
            && trace.dispatched == Some(built.value)
            && c.body == (if ForwardsAsReceived(meta.apiType, meta.channelType, isModelMapped)
                          then Gin.ReadAll(old(c.body)).rest else old(c.body))
            && match adaptor.doRequest(built.value)
               case Err(e) =>
                 err == Some(ErrorWrapper(e, "do_request_failed", StatusInternalServerError))
                 && ledger.events == old(ledger.events) && !trace.decoded
               case Ok(resp) =>
                 if resp.Some? && ErrorHappened(resp.value, meta.isStream) then
                   err == Some(env.errorHandler(resp.value))
                   && ledger.events == old(ledger.events) + [Refunded(meta.tokenId, q)] && !trace.decoded
                 else
                   trace.decoded &&
                   match adaptor.doResponse(resp)
                   case Err(e) => err == Some(e) && ledger.events == old(ledger.events) + [Refunded(meta.tokenId, q)]
                   case Ok(usage) =>
                     err.None?
                     && ledger.events == old(ledger.events) + [PostConsumeScheduled(Settlement(usage, t.model, ratio, q, meta.tokenId))])
      && Held(ledger.events) == Held(old(ledger.events))
           - (if built.Ok? && adaptor.doRequest(built.value).Ok? then q else 0)
  {
    trace := Untouched;
    var built: Result<Bytes, Relay.RelayError>;
    if meta.apiType == ApiTypeOpenAI {
      if !ForwardsAsReceived(meta.apiType, meta.channelType, isModelMapped) {
        built := Marshalled(env.marshalRequest(t));
      } else {
        // The original body is read out for logging; a read error is ignored.
        var read := Gin.ReadAll(c.body);
        c.body := read.rest;
        built := Ok(read.data);
      }
    } else {
      trace := trace.(converted := true);
      var converted := adaptor.convertRequest(meta.mode, t);
      if converted.Err? {
        return Some(ErrorWrapper(converted.error, "convert_request_failed", StatusInternalServerError)), trace;
      }
      built := Marshalled(env.marshalConverted(converted.value));
    }
    if built.Err? {
      return Some(built.error), trace;
    }
    var requestBody := built.value;

    trace := trace.(dispatched := Some(requestBody));
    var resp := adaptor.doRequest(requestBody);
    if resp.Err? {
      return Some(ErrorWrapper(resp.error, "do_request_failed", StatusInternalServerError)), trace;
    }
    if resp.value.Some? && ErrorHappened(resp.value.value, meta.isStream) {
      ledger.ReturnPreConsumedQuota(q, meta.tokenId);
      return Some(env.errorHandler(resp.value.value)), trace;
    }

    trace := trace.(decoded := true);
    var usage := adaptor.doResponse(resp.value);
    if usage.Err? {
      ledger.ReturnPreConsumedQuota(q, meta.tokenId);
      return Some(usage.error), trace;
    }

    ledger.SchedulePostConsume(Settlement(usage.value, t.model, ratio, q, meta.tokenId));
    err := None;
  }

  /** `RelayTextHelper` (relay/controller/text.go:25-128). */
  method RelayTextHelper(c: Gin.Context, meta: Meta, ledger: QuotaLedger, env: Env)
    returns (err: Option<Relay.RelayError>, trace: Trace)
    modifies c`body, meta, ledger
    // A validation failure is a 400 before any quota is touched.
    ensures env.validated.Err? ==>
      && err == Some(ErrorWrapper(env.validated.error, "invalid_text_request", StatusBadRequest))
      && ledger.events == old(ledger.events) && trace == Untouched
      && unchanged(meta) && c.body == old(c.body)
    // After validation the metadata records the stream flag and both model names.
    ensures env.validated.Ok? ==>
      && meta.isStream == env.validated.value.stream
      && meta.originModelName == env.validated.value.model
      && meta.actualModelName == Mapped(env).model
      && meta.promptTokens == env.promptTokens(Mapped(env))
    // A pre-consumption failure is returned as it is, and nothing else happens.
    ensures env.validated.Ok? && Reservation(env, meta.channelRatio).Err? ==>
      && err == Some(Reservation(env, meta.channelRatio).error)
      && ledger.events == old(ledger.events) && trace == Untouched && c.body == old(c.body)
    // From here on the reservation is in the ledger.
    ensures env.validated.Ok? && Reservation(env, meta.channelRatio).Ok? ==>
      var q := Reservation(env, meta.channelRatio).value;
      && |ledger.events| > |old(ledger.events)|
      && ledger.events[..|old(ledger.events)| + 1] == old(ledger.events) + [PreConsumed(meta.tokenId, q)]
    // A missing adaptor is a 400; the reservation is not refunded.
    ensures env.validated.Ok? && Reservation(env, meta.channelRatio).Ok? && env.adaptor.None? ==>
      && err == Some(ErrorWrapper("invalid api type: " + Strconv.DecimalString(meta.apiType), "invalid_api_type", StatusBadRequest))
      && ledger.events == old(ledger.events) + [PreConsumed(meta.tokenId, Reservation(env, meta.channelRatio).value)]
      && trace == Untouched
    // Building the body: a JSON failure or a conversion failure is a 500, not refunded.
    ensures (env.validated.Ok? && Reservation(env, meta.channelRatio).Ok? && env.adaptor.Some?
             && !BodyBuilds(env, meta.apiType, meta.channelType, meta.mode)) ==>
      && ledger.events == old(ledger.events) + [PreConsumed(meta.tokenId, Reservation(env, meta.channelRatio).value)]
      && trace.dispatched.None?
      && var converted := env.adaptor.value.convertRequest(meta.mode, Mapped(env));
      err == Some(
        if meta.apiType == ApiTypeOpenAI then
          ErrorWrapper(env.marshalRequest(Mapped(env)).error, "json_marshal_failed", StatusInternalServerError)
        else if converted.Err? then
          ErrorWrapper(converted.error, "convert_request_failed", StatusInternalServerError)
        else
          ErrorWrapper(env.marshalConverted(converted.value).error, "json_marshal_failed", StatusInternalServerError))
    // The request is dispatched exactly when every earlier step succeeded ...
    ensures trace.dispatched.Some? <==>
      env.validated.Ok? && Reservation(env, meta.channelRatio).Ok? && env.adaptor.Some?
      && BodyBuilds(env, meta.apiType, meta.channelType, meta.mode)
    // ... and the adaptor converts the request exactly when the API type is not OpenAI.
    ensures trace.converted <==>
      env.validated.Ok? && Reservation(env, meta.channelRatio).Ok? && env.adaptor.Some?
      && meta.apiType != ApiTypeOpenAI
    // For OpenAI, the body is the original one unless the model was mapped or
    // the channel is Baichuan, in which case it is the re-serialised request.
    ensures trace.dispatched.Some? && meta.apiType == ApiTypeOpenAI ==>
      if ForwardsOriginalBody(env, meta.apiType, meta.channelType) then
        trace.dispatched.value == Gin.ReadAll(old(c.body)).data && c.body == Gin.ReadAll(old(c.body)).rest
      else
        env.marshalRequest(Mapped(env)) == Ok(trace.dispatched.value) && c.body == old(c.body)
    // Otherwise it is the adaptor's converted request.
    ensures trace.dispatched.Some? && meta.apiType != ApiTypeOpenAI ==>
      var converted := env.adaptor.value.convertRequest(meta.mode, Mapped(env));
      converted.Ok? && env.marshalConverted(converted.value) == Ok(trace.dispatched.value)
      && c.body == old(c.body)
    // Dispatch and what follows it.
    ensures trace.dispatched.Some? ==>
      var q := Reservation(env, meta.channelRatio).value;
      var before := old(ledger.events) + [PreConsumed(meta.tokenId, q)];
      match env.adaptor.value.doRequest(trace.dispatched.value)
      case Err(e) =>
        // A dispatch error is a 500 and is not refunded.
        err == Some(ErrorWrapper(e, "do_request_failed", StatusInternalServerError))
        && ledger.events == before && !trace.decoded
      case Ok(resp) =>
        if resp.Some? && ErrorHappened(resp.value, env.validated.value.stream) then
          // An upstream error is refunded once, and the response is not decoded.
          err == Some(env.errorHandler(resp.value))
          && ledger.events == before + [Refunded(meta.tokenId, q)] && !trace.decoded
        else
          trace.decoded &&
          match env.adaptor.value.doResponse(resp)
          case Err(e) =>
            // A decoding error is refunded once and returned.
            err == Some(e) && ledger.events == before + [Refunded(meta.tokenId, q)]
          case Ok(usage) =>
            // Success: no refund; settlement is scheduled with the reservation.
            var t := Mapped(env);
            err.None?
            && ledger.events == before + [PostConsumeScheduled(
                 Settlement(usage, t.model, Ratio(env.modelRatio(t.model), meta.channelRatio), q, meta.tokenId))]
    ensures !trace.dispatched.Some? ==> !trace.decoded && err.Some?
    // The request body is left alone unless it was forwarded as received.
    ensures trace.dispatched.None? ==> c.body == old(c.body)
    // Quota stays held only when a reservation is neither refunded nor
    // settled: a missing adaptor, a failed body build or a failed dispatch.
    ensures var leaked := env.validated.Ok? && Reservation(env, meta.channelRatio).Ok?
          && (trace.dispatched.None? || env.adaptor.value.doRequest(trace.dispatched.value).Err?);
      Held(ledger.events) == Held(old(ledger.events)) + (if leaked then Reservation(env, meta.channelRatio).value else 0)
  {
    trace := Untouched;
    if env.validated.Err? {
      return Some(ErrorWrapper(env.validated.error, "invalid_text_request", StatusBadRequest)), trace;
    }
    var textRequest := env.validated.value;
    meta.isStream := textRequest.stream;

    meta.originModelName := textRequest.model;
    var (mappedName, isModelMapped) := env.mapModelName(textRequest.model);
    textRequest := textRequest.(model := mappedName);
    meta.actualModelName := textRequest.model;
    var ratio := Ratio(env.modelRatio(textRequest.model), meta.channelRatio);

    var promptTokens := env.promptTokens(textRequest);
    meta.promptTokens := promptTokens;
    var reserved := env.preConsume(textRequest, promptTokens, ratio);
    if reserved.Err? {
      return Some(reserved.error), trace;
    }
    var preConsumedQuota := reserved.value;
    ledger.RecordPreConsumed(meta.tokenId, preConsumedQuota);

    if env.adaptor.None? {
      return Some(ErrorWrapper("invalid api type: " + Strconv.DecimalString(meta.apiType), "invalid_api_type", StatusBadRequest)), trace;
    }
    err, trace := DispatchText(c, meta, ledger, env, env.adaptor.value, textRequest, isModelMapped, preConsumedQuota, ratio);
  }
}
