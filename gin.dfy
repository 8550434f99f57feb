/** The per-request gin context as the relay core uses it (common/gin.go): a
    key-value store (`c.Keys`), the request body stream (`c.Request.Body`),
    the response header map (`c.Writer.Header()`), and the request's path and
    query, which the core only reads. */
module Gin {
  import opened Base

  /** Context key under which the request body is cached. */
  const KeyRequestBody: string := "key_request_body"

  /** A value stored in the context under some key (Go `any`). */
  datatype Value = BytesValue(bytes: Bytes) | StringValue(str: string) | IntValue(n: int) | OtherValue

  /** Why a read of the body stream fails, and after how many bytes. */
  datatype Failure = Failure(after: nat, reason: string)

  /** An `io.ReadCloser`: the bytes not yet read, the failure it will hit (if
      any) and whether it has been closed. */
  datatype Reader = Reader(unread: Bytes, failure: Option<Failure>, closed: bool)

  /** `io.NopCloser(bytes.NewBuffer(b))`: a reader over `b` that never fails. */
  function FreshReader(b: Bytes): Reader
  {
    Reader(b, None, false)
  }

  /** What `io.ReadAll` gives: the bytes read, the error (if any) and the
      reader's state afterwards. */
  datatype ReadResult = ReadResult(data: Bytes, error: Option<string>, rest: Reader)

  /** The message a read of a closed HTTP body fails with. */
  const ClosedBodyError: string := "http: invalid Read on closed Body"

  /** `io.ReadAll(r)`: reads to the end of the stream, or up to its failure. */
  function ReadAll(r: Reader): (res: ReadResult)
    ensures res.data + res.rest.unread == r.unread
    ensures res.error.None? <==> !r.closed && r.failure.None?
    ensures res.error.None? ==> res.data == r.unread && res.rest.unread == []
    ensures res.rest.closed == r.closed
  {
    if r.closed then ReadResult([], Some(ClosedBodyError), r)
    else match r.failure
      case None => ReadResult(r.unread, None, r.(unread := []))
      case Some(f) =>
        var k := if f.after < |r.unread| then f.after else |r.unread|;
        ReadResult(r.unread[..k], Some(f.reason), r.(unread := r.unread[k..], failure := Some(f.(after := 0))))
  }

  /** The five headers of an event stream, under their canonical names. */
  const StreamHeaders: map<string, seq<string>> := map[
    "Content-Type" := ["text/event-stream"],
    "Cache-Control" := ["no-cache"],
    "Connection" := ["keep-alive"],
    "Transfer-Encoding" := ["chunked"],
    "X-Accel-Buffering" := ["no"]]

  class Context {
    /** `c.Request.URL.Path`. */
    const path: string
    /** `c.Request.URL.Query()`: every value given for a name, in order. */
    const query: map<string, seq<string>>
    /** `c.Keys`. */
    var keys: map<string, Value>
    /** `c.Request.Body`. */
    var body: Reader
    /** `c.Writer.Header()`. */
    var header: map<string, seq<string>>

    /** Only the body cache writes `KeyRequestBody`, and it writes bytes. */
    ghost predicate Valid()
      reads this
    {
      KeyRequestBody in keys ==> keys[KeyRequestBody].BytesValue?
    }

    constructor (path: string, query: map<string, seq<string>>, keys: map<string, Value>, body: Reader)
      ensures this.path == path && this.query == query && this.keys == keys && this.body == body
      ensures header == map[]
      ensures Valid() <==> (KeyRequestBody in keys ==> keys[KeyRequestBody].BytesValue?)
    {
      this.path := path;
      this.query := query;
      this.keys := keys;
      this.body := body;
      header := map[];
    }

    /** `c.Query(name)` and `URL.Query().Get(name)`: the first value, or "". */
    function Query(name: string): (v: string)
    {
      if name in query && |query[name]| > 0 then query[name][0] else ""
    }

    /** `c.GetString(key)`: the stored string, or "" when absent or not a string. */
    function GetString(key: string): (v: string)
      reads this
      ensures v != "" ==> key in keys && keys[key] == StringValue(v)
    {
      if key in keys && keys[key].StringValue? then keys[key].str else ""
    }

    /** `c.GetInt(key)`: the stored int, or 0 when absent or not an int. */
    function GetInt(key: string): (v: int)
      reads this
      ensures v != 0 ==> key in keys && keys[key] == IntValue(v)
    {
      if key in keys && keys[key].IntValue? then keys[key].n else 0
    }

    /** The cached body, once `GetRequestBody` has stored it. */
    ghost function Cached(): Option<Bytes>
      reads this
      requires Valid()
    {
      if KeyRequestBody in keys then Some(keys[KeyRequestBody].bytes) else None
    }

    /** `GetRequestBody` (common/gin.go:13-25): the cached bytes if present;
        otherwise reads the whole body, closes it and caches the bytes. A read
        failure is an error and caches nothing. */
    method GetRequestBody() returns (r: Result<Bytes, string>)
      requires Valid()
      modifies this`keys, this`body
      ensures Valid() && header == old(header)
      ensures old(Cached()).Some? ==> r == Ok(old(Cached()).value) && keys == old(keys) && body == old(body)
      ensures old(Cached()).None? ==>
        var read := ReadAll(old(body));
        if read.error.None? then
          r == Ok(read.data) && keys == old(keys)[KeyRequestBody := BytesValue(read.data)]
          && body == read.rest.(closed := true)
        else
          r == Err(Wrap("read request body failed", read.error.value))
          && keys == old(keys) && body == read.rest
      ensures r.Ok? ==> Cached() == Some(r.value)
    {
      if KeyRequestBody in keys {
        return Ok(keys[KeyRequestBody].bytes);
      }
      var read := ReadAll(body);
      body := read.rest;
      if read.error.Some? {
        return Err(Wrap("read request body failed", read.error.value));
      }
      body := body.(closed := true);
      keys := keys[KeyRequestBody := BytesValue(read.data)];
      r := Ok(read.data);
    }

    /** `UnmarshalBodyReusable` (common/gin.go:27-44): decodes the cached body
        with `bind`; whether or not `bind` succeeds, the request body is left
        as a fresh reader over the same bytes. If the body cannot be obtained,
        the error is returned and the body is not reset. */
    method UnmarshalBodyReusable<V>(bind: Bytes -> Result<V, string>) returns (r: Result<V, string>)
      requires Valid()
      modifies this`keys, this`body
      ensures Valid() && header == old(header)
      ensures old(Cached()).Some? ==>
        keys == old(keys) && body == FreshReader(old(Cached()).value)
        && r == BindResult(bind, old(Cached()).value)
      ensures old(Cached()).None? ==>
        var read := ReadAll(old(body));
        if read.error.None? then
          keys == old(keys)[KeyRequestBody := BytesValue(read.data)]
          && body == FreshReader(read.data) && r == BindResult(bind, read.data)
        else
          keys == old(keys) && body == read.rest
          && r == Err(Wrap("get request body failed", Wrap("read request body failed", read.error.value)))
      ensures r.Ok? ==> Cached().Some? && body == FreshReader(Cached().value)
    {
      var got := GetRequestBody();
      if got.Err? {
        return Err(Wrap("get request body failed", got.error));
      }
      var requestBody := got.value;
      body := FreshReader(requestBody);
      // c.Bind reads the fresh reader; the deferred reset replaces it again.
      var bound := bind(ReadAll(body).data);
      body := FreshReader(requestBody);
      r := if bound.Err? then Err(Wrap("bind request body failed", bound.error)) else bound;
    }

    /** `SetEventStreamHeaders` (common/gin.go:46-52): sets exactly the five
        event-stream headers, each to a single value, and leaves every other
        header as it was. */
    method SetEventStreamHeaders()
      modifies this`header
      ensures header.Keys == old(header).Keys + StreamHeaders.Keys
      ensures forall name :: name in StreamHeaders ==> header[name] == StreamHeaders[name]
      ensures forall name :: name in old(header) && name !in StreamHeaders ==> header[name] == old(header)[name]
      ensures header == WithStreamHeaders(old(header))
    {
      header := header["Content-Type" := ["text/event-stream"]];
      header := header["Cache-Control" := ["no-cache"]];
      header := header["Connection" := ["keep-alive"]];
      header := header["Transfer-Encoding" := ["chunked"]];
      header := header["X-Accel-Buffering" := ["no"]];
    }
  }

  /** What `UnmarshalBodyReusable` returns once the bytes are in hand. */
  function BindResult<V>(bind: Bytes -> Result<V, string>, b: Bytes): (r: Result<V, string>)
    ensures r.Ok? <==> bind(b).Ok?
    ensures r.Ok? ==> r == bind(b)
  {
    match bind(b)
    case Ok(v) => Ok(v)
    case Err(e) => Err(Wrap("bind request body failed", e))
  }

  /** A header map after the event-stream headers have been set on it. */
  function WithStreamHeaders(h: map<string, seq<string>>): (r: map<string, seq<string>>)
    ensures forall name :: name in StreamHeaders ==> name in r && r[name] == StreamHeaders[name]
  {
    h + StreamHeaders
  }

  /** Setting the event-stream headers a second time changes nothing. */
  lemma StreamHeadersIdempotent(h: map<string, seq<string>>)
    ensures WithStreamHeaders(WithStreamHeaders(h)) == WithStreamHeaders(h)
  {
  }

  /** Two calls of `GetRequestBody` return the same bytes, and once the first
      has succeeded the second reads nothing from the stream. */
  method GetRequestBodyTwice(c: Context) returns (first: Result<Bytes, string>, second: Result<Bytes, string>)
    requires c.Valid()
    modifies c`keys, c`body
    ensures first.Ok? ==> second == first
    ensures first.Ok? ==> c.body == ReadAgainState(old(c.body), old(c.Cached()))
  {
    first := c.GetRequestBody();
    ghost var afterFirst := c.body;
    second := c.GetRequestBody();
    assert first.Ok? ==> c.body == afterFirst;
  }

  /** The body stream once the cache is filled: untouched if it was already
      filled, otherwise read through and closed. */
  ghost function ReadAgainState(b: Reader, cached: Option<Bytes>): Reader
  {
    if cached.Some? then b else ReadAll(b).rest.(closed := true)
  }

  /** Setting the event-stream headers twice leaves the same map as once. */
  method SetEventStreamHeadersTwice(c: Context)
    modifies c`header
    ensures c.header == WithStreamHeaders(old(c.header))
  {
    c.SetEventStreamHeaders();
    c.SetEventStreamHeaders();
    StreamHeadersIdempotent(old(c.header));
  }
}
