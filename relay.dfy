/** The relay controller (controller/relay.go): the unified request shape,
    the classification of a request path into a relay mode, the choice of
    helper for a mode, and what happens when a helper reports an error:
    a redirect that retries with a smaller budget, or the error itself,
    plus possibly disabling the channel. */
module Relay {
  import opened Base
  import Strconv
  import Gin

  datatype RelayMode =
    | Unknown
    | ChatCompletions
    | Completions
    | Embeddings
    | Moderations
    | ImagesGenerations
    | Edits
    | Audio

  datatype Message = Message(role: string, content: string, name: Option<string>)

  datatype ImageUrl = ImageUrl(url: string, detail: string)

  /** A typed content part: `contentType` is "text" or "image_url". */
  datatype VisionContent = VisionContent(contentType: string, text: string, imageUrl: ImageUrl)

  datatype VisionMessage = VisionMessage(role: string, content: VisionContent, name: Option<string>)

  /** The dynamic values held by the request's `any` fields, split into the
      shapes the relay core inspects; `Other` is every remaining Go value
      (numbers, booleans, a single map, slices of other element types). */
  datatype Dyn =
    | Nil
    | Str(s: string)
    | List(items: seq<Dyn>)
    | MessageList(messages: seq<Message>)
    | VisionList(visionMessages: seq<VisionMessage>)
    | MapList(maps: seq<map<string, Dyn>>)
    | Other

  /** `GeneralOpenAIRequest`, without its floating-point sampling fields. */
  datatype GeneralRequest = GeneralRequest(
    model: string,
    messages: Dyn,
    prompt: Dyn,
    stream: bool,
    maxTokens: int,
    n: int,
    input: Dyn,
    instruction: string,
    size: string,
    functions: Dyn)

  /** `OpenAIError`; its `code` is always a string in this core. */
  datatype OpenAIError = OpenAIError(message: string, errorType: string, param: string, code: string)

  /** `OpenAIErrorWithStatusCode`. */
  datatype RelayError = RelayError(error: OpenAIError, statusCode: int)

  // ---------------------------------------------------------------------
  // Request shape helpers (controller/relay.go:88-142)
  // ---------------------------------------------------------------------

  /** `MessagesLen`: the element count of the four list shapes, otherwise 0. */
  function MessagesLen(r: GeneralRequest): (n: nat)
    ensures r.messages.List? ==> n == |r.messages.items|
    ensures r.messages.MessageList? ==> n == |r.messages.messages|
    ensures r.messages.VisionList? ==> n == |r.messages.visionMessages|
    ensures r.messages.MapList? ==> n == |r.messages.maps|
    ensures r.messages.Nil? || r.messages.Str? || r.messages.Other? ==> n == 0
  {
    match r.messages
    case List(items) => |items|
    case MessageList(ms) => |ms|
    case VisionList(vs) => |vs|
    case MapList(maps) => |maps|
    case _ => 0
  }

  /** The string items of a list, in their original order. */
  function StringItems(items: seq<Dyn>): seq<string>
  {
    if items == [] then []
    else (if items[0].Str? then [items[0].s] else []) + StringItems(items[1..])
  }

  /** Filtering a concatenation is concatenating the filtered parts. */
  lemma {:induction false} StringItemsAppend(a: seq<Dyn>, b: seq<Dyn>)
    ensures StringItems(a + b) == StringItems(a) + StringItems(b)
    decreases |a|
  {
    if a == [] {
      assert a + b == b;
    } else {
      assert (a + b)[0] == a[0];
      assert (a + b)[1..] == a[1..] + b;
      StringItemsAppend(a[1..], b);
    }
  }

  /** At most one output per item, and exactly the strings of the list: a
      string is in the output if and only if some item is that string. */
  lemma {:induction false} StringItemsMembers(items: seq<Dyn>)
    ensures |StringItems(items)| <= |items|
    ensures forall s :: s in StringItems(items) <==> Str(s) in items
    decreases |items|
  {
    if items != [] {
      StringItemsMembers(items[1..]);
      assert items == [items[0]] + items[1..];
      forall s ensures Str(s) in items <==> Str(s) == items[0] || Str(s) in items[1..] {
      }
    }
  }

  /** A list of strings only is passed through unchanged. */
  lemma {:induction false} StringItemsAllStrings(strs: seq<string>)
    ensures StringItems(seq(|strs|, i requires 0 <= i < |strs| => Str(strs[i]))) == strs
    decreases |strs|
  {
    if strs != [] {
      var items := seq(|strs|, i requires 0 <= i < |strs| => Str(strs[i]));
      assert items[1..] == seq(|strs[1..]|, i requires 0 <= i < |strs[1..]| => Str(strs[1..][i]));
      StringItemsAllStrings(strs[1..]);
      assert strs == [strs[0]] + strs[1..];
    }
  }

  /** `ParseInput`: no entries for nil, the string itself for a string, the
      string items in order for a list, and no entries for any other value. */
  method ParseInput(r: GeneralRequest) returns (input: seq<string>)
    ensures r.input.Nil? || r.input.Other? || r.input.MessageList? || r.input.VisionList? || r.input.MapList?
      ==> input == []
    ensures r.input.Str? ==> input == [r.input.s]
    ensures r.input.List? ==> input == StringItems(r.input.items)
  {
    if r.input.Nil? {
      return [];
    }
    input := [];
    match r.input {
      case Str(s) =>
        input := [s];
      case List(items) =>
        var i := 0;
        while i < |items|
          invariant 0 <= i <= |items|
          invariant input == StringItems(items[..i])
        {
          StringItemsAppend(items[..i], [items[i]]);
          assert items[..i + 1] == items[..i] + [items[i]];
          if items[i].Str? {
            input := input + [items[i].s];
          }
          i := i + 1;
        }
        assert items[..i] == items;
      case _ =>
    }
  }

  // ---------------------------------------------------------------------
  // Path classification and helper dispatch (controller/relay.go:248-275)
  // ---------------------------------------------------------------------

  datatype PathTest = Prefix(p: string) | Suffix(p: string)

  datatype Rule = Rule(test: PathTest, mode: RelayMode)

  predicate Matches(t: PathTest, path: string)
  {
    match t
    case Prefix(p) => HasPrefix(path, p)
    case Suffix(p) => HasSuffix(path, p)
  }

  /** The ordered table of path tests; the first one that matches decides. */
  const Rules: seq<Rule> := [
    Rule(Prefix("/v1/chat/completions"), ChatCompletions),
    Rule(Prefix("/v1/completions"), Completions),
    Rule(Prefix("/v1/embeddings"), Embeddings),
    Rule(Suffix("embeddings"), Embeddings),
    Rule(Prefix("/v1/moderations"), Moderations),
    Rule(Prefix("/v1/images/generations"), ImagesGenerations),
    Rule(Prefix("/v1/edits"), Edits),
    Rule(Prefix("/v1/audio"), Audio)]

  /** Rule `i` matches `path` and no earlier rule does. */
  ghost predicate FirstMatch(path: string, i: int)
  {
    0 <= i < |Rules| && Matches(Rules[i].test, path)
    && forall j :: 0 <= j < i ==> !Matches(Rules[j].test, path)
  }

  /** The relay mode of a request path: the mode of the first matching rule
      of `Rules`, or `Unknown` when none matches. */
  function ClassifyPath(path: string): (m: RelayMode)
    ensures forall i :: FirstMatch(path, i) ==> m == Rules[i].mode
    ensures m == Unknown <==> forall i :: 0 <= i < |Rules| ==> !Matches(Rules[i].test, path)
  {
    // Each branch names the table rule it corresponds to.
    if HasPrefix(path, "/v1/chat/completions") then
      assert Matches(Rules[0].test, path);
      ChatCompletions
    else if HasPrefix(path, "/v1/completions") then
      assert Matches(Rules[1].test, path);
      Completions
    else if HasPrefix(path, "/v1/embeddings") then
      assert Matches(Rules[2].test, path);
      Embeddings
    else if HasSuffix(path, "embeddings") then
      assert Matches(Rules[3].test, path);
      Embeddings
    else if HasPrefix(path, "/v1/moderations") then
      assert Matches(Rules[4].test, path);
      Moderations
    else if HasPrefix(path, "/v1/images/generations") then
      assert Matches(Rules[5].test, path);
      ImagesGenerations
    else if HasPrefix(path, "/v1/edits") then
      assert Matches(Rules[6].test, path);
      Edits
    else if HasPrefix(path, "/v1/audio") then
      assert Matches(Rules[7].test, path);
      Audio
    else Unknown
  }

  /** A chat path stays a chat request even when it ends in "embeddings". */
  lemma ChatBeatsEmbeddingsSuffix(path: string)
    requires HasPrefix(path, "/v1/chat/completions") && HasSuffix(path, "embeddings")
    ensures ClassifyPath(path) == ChatCompletions
  {
  }

  /** Any path ending in "embeddings" that is not a chat or completions path
      is an embeddings request, whatever its prefix. */
  lemma EmbeddingsBySuffix(path: string)
    requires HasSuffix(path, "embeddings")
    requires !HasPrefix(path, "/v1/chat/completions") && !HasPrefix(path, "/v1/completions")
    ensures ClassifyPath(path) == Embeddings
  {
  }

  datatype Helper = ImageHelper | AudioHelper | TextHelper

  /** The helper a mode is relayed by: images and audio have their own, every
      other mode, `Unknown` included, goes to the text helper. */
  function HelperFor(mode: RelayMode): (h: Helper)
    ensures h == ImageHelper <==> mode == ImagesGenerations
    ensures h == AudioHelper <==> mode == Audio
    ensures h == TextHelper <==> mode !in {ImagesGenerations, Audio}
  {
    match mode
    case ImagesGenerations => ImageHelper
    case Audio => AudioHelper
    case _ => TextHelper
  }

  /** An unmatched path is not rejected: it is relayed as text. */
  lemma UnmatchedPathIsText(path: string)
    requires forall i :: 0 <= i < |Rules| ==> !Matches(Rules[i].test, path)
    ensures ClassifyPath(path) == Unknown && HelperFor(ClassifyPath(path)) == TextHelper
  {
  }

  // ---------------------------------------------------------------------
  // Terminal error and retry (controller/relay.go:276-302)
  // ---------------------------------------------------------------------

  /** What is written to the client. */
  datatype Action = Redirect(status: int, location: string) | Respond(status: int, body: OpenAIError)

  /** A call of `disableChannel(channelId, channelName, reason)`. */
  datatype DisableCall = DisableCall(channelId: int, channelName: string, reason: string)

  const StatusTemporaryRedirect: int := 307
  const StatusTooManyRequests: int := 429

  /** `common.RequestIdKey`, the context key of the request's tracing id. */
  const RequestIdKey: string := "X-Oneapi-Request-Id"

  /** The text that replaces a rate-limit message ("the upstream load of the
      current group is saturated, please try again later"). */
  const SaturatedMessage: string := "当前分组上游负载已饱和，请稍后再试"

  /** The retry budget of a request: the `retry` parameter read by `Atoi`, or
      the configured default when the parameter is empty. */
  function RetryCount(retryParam: string, retryTimes: int): (n: int)
    ensures retryParam == "" ==> n == retryTimes
    ensures retryParam != "" ==> Strconv.MinInt64 <= n <= Strconv.MaxInt64
    ensures retryParam != "" && !Strconv.Atoi(retryParam).ok && n > 0 ==> n == Strconv.MaxInt64
  {
    if retryParam == "" then retryTimes else Strconv.Atoi(retryParam).value
  }

  /** The redirect target of a retry: the same path with the budget decremented. */
  function RetryLocation(path: string, count: int): string
  {
    path + "?retry=" + Strconv.DecimalString(count - 1)
  }

  /** The error branch of `Relay`. With a positive budget the request is
      redirected (307) to its own path with the budget decremented, and the
      error is left as it is; otherwise a rate-limit message is replaced by the
      saturation text, then annotated with the request id, and the error is
      written with its own status. On both paths the channel is disabled when
      `shouldDisable` says so of the error as it then stands. */
  method HandleRelayError(
    c: Gin.Context, err: RelayError, retryTimes: int,
    withRequestId: (string, string) -> string,
    shouldDisable: (OpenAIError, int) -> bool)
    returns (action: Action, final: RelayError, disable: Option<DisableCall>)
    ensures var count := RetryCount(c.Query("retry"), retryTimes);
      && (action.Redirect? <==> count > 0)
      && (count > 0 ==> action == Redirect(StatusTemporaryRedirect, RetryLocation(c.path, count)) && final == err)
      && (count <= 0 ==>
            var base := if err.statusCode == StatusTooManyRequests then SaturatedMessage else err.error.message;
            final == err.(error := err.error.(message := withRequestId(base, c.GetString(RequestIdKey))))
            && action == Respond(err.statusCode, final.error))
    ensures final.statusCode == err.statusCode
    ensures final.error.(message := err.error.message) == err.error
    ensures disable.Some? <==> shouldDisable(final.error, final.statusCode)
    ensures disable.Some? ==>
      disable.value == DisableCall(c.GetInt("channel_id"), c.GetString("channel_name"), final.error.message)
  {
    var requestId := c.GetString(RequestIdKey);
    var count := RetryCount(c.Query("retry"), retryTimes);
    final := err;
    if count > 0 {
      action := Redirect(StatusTemporaryRedirect, RetryLocation(c.path, count));
    } else {
      if final.statusCode == StatusTooManyRequests {
        final := final.(error := final.error.(message := SaturatedMessage));
      }
      final := final.(error := final.error.(message := withRequestId(final.error.message, requestId)));
      action := Respond(final.statusCode, final.error);
    }
    if shouldDisable(final.error, final.statusCode) {
      disable := Some(DisableCall(c.GetInt("channel_id"), c.GetString("channel_name"), final.error.message));
    } else {
      disable := None;
    }
  }

  /** The redirected request carries a budget one smaller, which it reads
      back exactly; so the budget strictly decreases, never below 0, and a
      request whose budget is 0 answers with the error. */
  lemma RetryBudgetDecreases(retryParam: string, retryTimes: int, nextDefault: int)
    requires Strconv.MinInt64 <= retryTimes <= Strconv.MaxInt64
    requires RetryCount(retryParam, retryTimes) > 0
    ensures var count := RetryCount(retryParam, retryTimes);
      RetryCount(Strconv.DecimalString(count - 1), nextDefault) == count - 1 >= 0
  {
    var count := RetryCount(retryParam, retryTimes);
    Strconv.AtoiDecimalString(count - 1);
  }

  /** The whole of `Relay`: classify the path, run the helper of its mode
      (`runHelper` stands for the image, audio and text helpers), and on an
      error take the error branch. Nothing is written when the helper succeeds. */
  method Relay(
    c: Gin.Context, runHelper: (Helper, RelayMode) -> Option<RelayError>, retryTimes: int,
    withRequestId: (string, string) -> string,
    shouldDisable: (OpenAIError, int) -> bool)
    returns (action: Option<Action>, disable: Option<DisableCall>)
    ensures var mode := ClassifyPath(c.path);
      var outcome := runHelper(HelperFor(mode), mode);
      && (outcome.None? ==> action.None? && disable.None?)
      && (outcome.Some? ==>
            && action.Some?
            && var err := outcome.value;
            var count := RetryCount(c.Query("retry"), retryTimes);
            var final := if count > 0 then err else err.(error := err.error.(message := withRequestId(
              if err.statusCode == StatusTooManyRequests then SaturatedMessage else err.error.message,
              c.GetString(RequestIdKey))));
            && (count > 0 ==> action.value == Redirect(StatusTemporaryRedirect, RetryLocation(c.path, count)))
            && (count <= 0 ==> action.value == Respond(err.statusCode, final.error))
            && (disable.Some? <==> shouldDisable(final.error, final.statusCode))
            && (disable.Some? ==>
                  disable.value == DisableCall(c.GetInt("channel_id"), c.GetString("channel_name"), final.error.message)))
  {
    var mode := ClassifyPath(c.path);
    var err := runHelper(HelperFor(mode), mode);
    if err.None? {
      return None, None;
    }
    var a, _, d := HandleRelayError(c, err.value, retryTimes, withRequestId, shouldDisable);
    action, disable := Some(a), d;
  }

  // ---------------------------------------------------------------------
  // Fixed error responses (controller/relay.go:305-327)
  // ---------------------------------------------------------------------

  /** `RelayNotImplemented`: 501 with a fixed error. */
  function RelayNotImplemented(): (a: Action)
    ensures a.Respond? && a.status == 501
    ensures a.body == OpenAIError("API not implemented", "one_api_error", "", "api_not_implemented")
  {
    Respond(501, OpenAIError("API not implemented", "one_api_error", "", "api_not_implemented"))
  }

  /** `RelayNotFound`: 404 naming the request's method and path. */
  function RelayNotFound(httpMethod: string, path: string): (a: Action)
    ensures a.Respond? && a.status == 404
    ensures a.body.errorType == "invalid_request_error" && a.body.param == "" && a.body.code == ""
    ensures a.body.message == "Invalid URL (" + httpMethod + " " + path + ")"
    ensures HasPrefix(a.body.message, "Invalid URL (" + httpMethod + " ")
    ensures HasSuffix(a.body.message, path + ")")
  {
    Respond(404, OpenAIError("Invalid URL (" + httpMethod + " " + path + ")", "invalid_request_error", "", ""))
  }
}
