/**
 * Whether an intercepted request becomes a server push (canPush), and what
 * interceptRequest does with the answer: issue the request with a streaming
 * response and a PUSH_PROMISE, hand back the never-resolving empty promise,
 * or throw.
 */
module PushDecision {
  import opened Wrappers
  import opened Strings
  import opened AxiosConfig
  import opened PushHeaders

  /** The HTTP/2 stream of a page response, reduced to its `pushAllowed` flag. */
  datatype Stream = Stream(pushAllowed: bool)

  /** An `Http2ServerResponse` as canPush sees it. */
  datatype PageResponse = PageResponse(finished: bool, stream: Option<Stream>)

  /** The outcome of evaluating an expression that may throw a TypeError. */
  datatype Completion<T> = Normal(value: T) | ThrowsTypeError

  /** `pushableMethods`. */
  const PushableMethods: seq<string> := ["GET"]

  /** The page response exists, is not finished, and its stream allows pushes. */
  predicate PushCapable(pageResponse: Option<PageResponse>) {
    && pageResponse.Some?
    && !pageResponse.value.finished
    && pageResponse.value.stream.Some?
    && pageResponse.value.stream.value.pushAllowed
  }

  /**
   * canPush. The `&&` chain stops at the first falsy operand; only when the
   * response tests all pass is `config.method.toUpperCase()` evaluated, and
   * it throws when the config has no method. `requestURL` is not read.
   */
  function CanPush(pageResponse: Option<PageResponse>, requestURL: ParsedUrl, config: Config): (r: Completion<bool>)
    ensures r == Normal(true) <==>
      PushCapable(pageResponse) && config.httpMethod.Some? && IsGetIgnoringCase(config.httpMethod.value)
    ensures r == ThrowsTypeError <==> PushCapable(pageResponse) && config.httpMethod.None?
  {
    if !PushCapable(pageResponse) then Normal(false)
    else if config.httpMethod.None? then ThrowsTypeError
    else
      UpperIsGet(config.httpMethod.value);
      Normal(Upper(config.httpMethod.value) in PushableMethods)
  }

  /** The request URL plays no part in the decision. */
  lemma CanPushIgnoresUrl(pageResponse: Option<PageResponse>, u1: ParsedUrl, u2: ParsedUrl, config: Config)
    ensures CanPush(pageResponse, u1, config) == CanPush(pageResponse, u2, config)
  {
  }

  /** Methods other than GET are never pushed, nor is anything on a finished or stream-less response. */
  lemma OnlyGetIsPushed(pageResponse: Option<PageResponse>, requestURL: ParsedUrl, config: Config)
    ensures config.httpMethod in {Some("post"), Some("HEAD"), Some("delete"), Some("put"), Some("patch")} ==>
      CanPush(pageResponse, requestURL, config) != Normal(true)
    ensures pageResponse.Some? && (pageResponse.value.finished || pageResponse.value.stream.None?) ==>
      CanPush(pageResponse, requestURL, config) == Normal(false)
    ensures PushCapable(pageResponse) && config.httpMethod in {Some("get"), Some("GET"), Some("Get")} ==>
      CanPush(pageResponse, requestURL, config) == Normal(true)
  {
  }

  /** What a call to the wrapper evaluates to. */
  datatype Dispatch =
    | EmptyPromise                                                    // `emptyPromise()`: never settles
    | Issued(request: Config, pushHeaders: map<string, Header>)       // `targetAxios.request(request)` with a PUSH_PROMISE of `pushHeaders`
    | Throws                                                          // the TypeError of canPush

  /**
   * interceptRequest, from the merged config on. `requestURL` is the parsed
   * URL, `serverResponse` what the response pool hands out, and `token` and
   * `promise` the fresh cancel token and push-response promise.
   */
  method InterceptRequest(config: Config, requestURL: ParsedUrl, serverResponse: Option<PageResponse>,
                          token: CancelToken, promise: PushPromise) returns (d: Dispatch)
    ensures d.Issued? <==>
      PushCapable(serverResponse) && config.httpMethod.Some? && IsGetIgnoringCase(config.httpMethod.value)
    ensures d == Throws <==> PushCapable(serverResponse) && config.httpMethod.None?
    ensures d.Issued? ==>
      && d.request.responseType == Some("stream")
      && d.request.originalResponseType == Some(OrElse(config.responseType, "json"))
      && d.request.cancelToken == Some(token)
      && d.request.pushResponsePromise == Some(promise)
      && d.request.(responseType := config.responseType,
                    originalResponseType := config.originalResponseType,
                    cancelToken := config.cancelToken,
                    pushResponsePromise := config.pushResponsePromise) == config
      && config.httpMethod.Some?
      && d.pushHeaders == PushPromiseHeaders(config, requestURL)
  {
    var eligible := CanPush(serverResponse, requestURL, config);
    match eligible
    case ThrowsTypeError =>
      d := Throws;
    case Normal(false) =>
      d := EmptyPromise;
    case Normal(true) =>
      var requestHeaders := GetRequestHeaders(config, requestURL);
      var original := if Truthy(config.responseType) then config.responseType.value else "json";
      var newConfig := config.(responseType := Some("stream"),
                               originalResponseType := Some(original),
                               cancelToken := Some(token),
                               pushResponsePromise := Some(promise));
      d := Issued(newConfig, requestHeaders);
  }
}
