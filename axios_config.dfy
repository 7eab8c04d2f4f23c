/**
 * The axios request configuration as the wrapper sees it, and the
 * normalisation of the wrapper's positional call shapes into one
 * (`getRequestConfigWithoutData`, `getRequestConfigWithData` and the verb
 * table of `src/index.js`).
 */
module AxiosConfig {
  import opened Wrappers

  /**
   * A value stored under a header name: a string, `null`/`undefined`, or a
   * nested object (axios keeps per-method header buckets such as
   * `headers.get` and `headers.common` inside `headers`).
   */
  datatype Header = Str(s: string) | Missing | Bucket(entries: map<string, Header>)

  /** Opaque handles created by axios's `CancelToken.source()` and by the wrapper's push promise. */
  datatype CancelToken = CancelToken(id: nat)
  datatype PushPromise = PushPromise(id: nat)

  /** The fields of an axios request config that the push logic reads or writes. */
  datatype Config = Config(
    url: Option<string>,
    httpMethod: Option<string>,
    baseURL: Option<string>,
    headers: Option<map<string, Header>>,
    responseType: Option<string>,
    originalResponseType: Option<string>,
    cancelToken: Option<CancelToken>,
    pushResponsePromise: Option<PushPromise>)

  /** `{}`: every modelled field absent. */
  const EmptyConfig := Config(None, None, None, None, None, None, None, None)

  /** One positional argument of a wrapper call: a string, an object, or `undefined`. */
  datatype Arg = StrArg(s: string) | ObjArg(config: Config) | Undefined

  /** JavaScript truthiness of an optional string: present and not empty. */
  predicate Truthy(o: Option<string>) {
    o.Some? && o.value != ""
  }

  /** `o || fallback` for an optional string. */
  function OrElse(o: Option<string>, fallback: string): string {
    if Truthy(o) then o.value else fallback
  }

  /** JavaScript truthiness of an argument. */
  predicate ArgTruthy(a: Arg) {
    match a
    case StrArg(s) => s != ""
    case ObjArg(_) => true
    case Undefined => false
  }

  /**
   * `{ ...a }` seen through the modelled fields. Spreading `undefined` gives
   * `{}`; spreading a string gives only index keys ("0", "1", ...), none of
   * which is a modelled config field.
   */
  function SpreadConfig(a: Arg): Config {
    if a.ObjArg? then a.config else EmptyConfig
  }

  /** Destructuring `[arg1, arg2, arg3]`: a missing position is `undefined`. */
  function ArgAt(params: seq<Arg>, i: nat): Arg {
    if i < |params| then params[i] else Undefined
  }

  /**
   * getRequestConfigWithoutData: a string first argument is the URL and the
   * second argument the options object; anything else is taken as the config
   * itself, and the explicit method is then ignored.
   */
  function ConfigWithoutData(explicitMethod: Option<string>, params: seq<Arg>): (r: Arg)
    ensures ArgAt(params, 0).StrArg? ==>
      var options := SpreadConfig(ArgAt(params, 1));
      && r.ObjArg?
      && r.config.url == Some(ArgAt(params, 0).s)
      && r.config.httpMethod == Some(OrElse(explicitMethod, OrElse(options.httpMethod, "GET")))
      && r.config.(url := options.url, httpMethod := options.httpMethod) == options
    ensures !ArgAt(params, 0).StrArg? ==> r == ArgAt(params, 0)
  {
    match ArgAt(params, 0)
    case StrArg(u) =>
      var config := SpreadConfig(ArgAt(params, 1));
      var chosen := if Truthy(explicitMethod) then explicitMethod.value
                     else if Truthy(config.httpMethod) then config.httpMethod.value
                     else "GET";
      ObjArg(config.(url := Some(u), httpMethod := Some(chosen)))
    case _ => ArgAt(params, 0)
  }

  /**
   * getRequestConfigWithData: a string first argument is the URL, the second
   * the request body and the third the options object; otherwise the second
   * argument if it is truthy, else the first.
   */
  function ConfigWithData(explicitMethod: Option<string>, params: seq<Arg>): (r: Arg)
    ensures ArgAt(params, 0).StrArg? ==>
      var options := SpreadConfig(ArgAt(params, 2));
      && r.ObjArg?
      && r.config.url == Some(ArgAt(params, 0).s)
      && r.config.httpMethod == Some(OrElse(explicitMethod, OrElse(options.httpMethod, "POST")))
      && r.config.(url := options.url, httpMethod := options.httpMethod) == options
    ensures !ArgAt(params, 0).StrArg? ==>
      r == (if ArgTruthy(ArgAt(params, 1)) then ArgAt(params, 1) else ArgAt(params, 0))
  {
    match ArgAt(params, 0)
    case StrArg(u) =>
      var config := SpreadConfig(ArgAt(params, 2));
      var chosen := if Truthy(explicitMethod) then explicitMethod.value
                     else if Truthy(config.httpMethod) then config.httpMethod.value
                     else "POST";
      ObjArg(config.(url := Some(u), httpMethod := Some(chosen)))
    case _ =>
      if ArgTruthy(ArgAt(params, 1)) then ArgAt(params, 1) else ArgAt(params, 0)
  }

  /** The entry points of the wrapper: calling it directly, `.request` and the verb methods. */
  datatype Verb = Call | Request | Get | Delete | Head | Post | Put | Patch

  /** The method name each entry point passes on (`null` for the first two). */
  function VerbMethod(v: Verb): Option<string> {
    match v
    case Call => None
    case Request => None
    case Get => Some("get")
    case Delete => Some("delete")
    case Head => Some("head")
    case Post => Some("post")
    case Put => Some("put")
    case Patch => Some("patch")
  }

  /** Whether the entry point takes a request body (the `hasData` flag). */
  predicate VerbHasData(v: Verb) {
    v == Post || v == Put || v == Patch
  }

  /**
   * The call-shape half of getRequestConfig, dispatched on the entry point.
   * With a URL string first, the options come from the second argument, or
   * from the third for an entry point that takes a body; otherwise the first
   * argument is the config, unless a body-taking entry point got a truthy
   * second argument.
   */
  function RequestConfigFor(v: Verb, params: seq<Arg>): (r: Arg)
    ensures ArgAt(params, 0).StrArg? ==>
      var options := SpreadConfig(ArgAt(params, if VerbHasData(v) then 2 else 1));
      && r.ObjArg?
      && r.config.url == Some(ArgAt(params, 0).s)
      && r.config.(url := options.url, httpMethod := options.httpMethod) == options
    ensures !ArgAt(params, 0).StrArg? ==>
      r == (if VerbHasData(v) && ArgTruthy(ArgAt(params, 1)) then ArgAt(params, 1) else ArgAt(params, 0))
  {
    if VerbHasData(v) then ConfigWithData(VerbMethod(v), params)
    else ConfigWithoutData(VerbMethod(v), params)
  }

  /**
   * With a URL string first, every entry point yields a config with that URL
   * and a non-empty method: the verb's own name for the verb methods, and for
   * a direct call or `.request` the options' method or else "GET".
   */
  lemma VerbTableMethods(v: Verb, params: seq<Arg>)
    requires ArgAt(params, 0).StrArg?
    ensures var r := RequestConfigFor(v, params);
      && r.ObjArg?
      && r.config.url == Some(ArgAt(params, 0).s)
      && r.config.httpMethod.Some? && r.config.httpMethod.value != ""
      && (VerbMethod(v).Some? ==> r.config.httpMethod == VerbMethod(v))
      && (VerbMethod(v).None? ==>
            r.config.httpMethod == Some(OrElse(SpreadConfig(ArgAt(params, 1)).httpMethod, "GET")))
  {
  }

  /**
   * The body argument of `post`/`put`/`patch` never reaches the config when
   * the first argument is a URL string.
   */
  lemma DataArgumentIgnored(explicitMethod: Option<string>, u: string, data1: Arg, data2: Arg, options: Arg)
    ensures ConfigWithData(explicitMethod, [StrArg(u), data1, options])
         == ConfigWithData(explicitMethod, [StrArg(u), data2, options])
  {
  }

  /** A config object passed first is returned as it is, whatever the verb. */
  lemma ConfigObjectPassesThrough(v: Verb, c: Config, rest: seq<Arg>)
    requires !VerbHasData(v) || !ArgTruthy(ArgAt(rest, 0))
    ensures RequestConfigFor(v, [ObjArg(c)] + rest) == ObjArg(c)
  {
    assert ArgAt([ObjArg(c)] + rest, 1) == ArgAt(rest, 0);
  }
}
