# axios-push: request shaping and push decision

axios-push wraps an axios instance while a server renders a page over HTTP/2.
Every call made through the wrapper is first normalised from axios's
positional call shapes into one request config. Then the library decides
whether the call can become a server push. An eligible GET is issued with a
streaming response and announced to the browser with a PUSH_PROMISE. Any
other call gets an empty promise that never settles.

This project models that decision logic of `src/index.js`:

- `Strings`: the `\w` character class, ASCII `toUpperCase`, and `getWord`
  (the first match of `/\w+/`). It also has the decimal index keys that
  object spread gives to the characters of a string.
- `AxiosConfig`: the request config record and the positional argument
  kinds. It also has `getRequestConfigWithoutData`,
  `getRequestConfigWithData` and the wrapper's verb table.
- `PushHeaders`: `getRequestHeaders`. Its header layers (the `common` bucket,
  the method's bucket, the request's own headers, then the pseudo-header
  fields of section 8.1.2.3 of RFC 7540) are a specification function.
  `GetRequestHeaders` is a method proved against that function: it builds a
  `HeaderObject` and deletes the bucket names from it in a loop.
- `PushDecision`: `canPush` and the branch of `interceptRequest` that
  rewrites the config.
- `Interceptors`: `prepareAxios`'s once-only registration of the response
  interceptors. It is guarded by the `usingIsomorphicPushInterceptors` flag
  of the target instance (a `TargetAxios` class).

JavaScript falsiness is explicit: an absent value is `Option.None`. A string
counts as truthy only when present and non-empty (`AxiosConfig.Truthy`,
`AxiosConfig.OrElse`). When canPush's page and stream tests pass but the
config has no method, `config.method.toUpperCase()` throws a TypeError.
`CanPush` returns `ThrowsTypeError` in that case, and `InterceptRequest`
returns `Throws`.

Two behaviours of `src/index.js` are easy to miss:

- An ineligible request is not forwarded to the HTTP client. The wrapper
  returns `emptyPromise()` and issues nothing (`src/index.js:170-173`).
- The bucket names (`delete`, `get`, `head`, `post`, `put`, `patch`,
  `common`) are deleted after the layers are merged, not before.
  The method bucket is looked up under the method exactly as configured. So
  a request whose method is `GET` (the default of a direct call) does not get
  the headers of the lower-case `get` bucket.
  `PushHeaders.MethodBucketIsCaseSensitive` states this.

## Model

| member | source | states |
|---|---|---|
| Strings.GetWord | src/index.js:58-61 | The result is absent exactly when the input is absent or has no `[A-Za-z0-9_]` character (so the empty string gives none). Otherwise it is the first maximal run of such characters. |
| Strings.GetWordIsFirstMaximalRun | src/index.js:58-61 | For every string and word: getWord returns that word if and only if the word is the first maximal `\w` run of the string at some index. |
| Strings.FirstWordUnique | src/index.js:59 | The first maximal `\w` run of a string is unique, both its position and its text. |
| Strings.UpperIsGet | src/index.js:14-21 | Upper-casing a method gives "GET" exactly when the method is "get" in some mix of upper and lower case. |
| AxiosConfig.ConfigWithoutData | src/index.js:36-45 | With a string first argument, the result is the second argument's config with `url` set to that string. Its method is the explicit method if truthy, else the options' method if truthy, else "GET". Every other field is copied. With any other first argument, that argument is returned unchanged. |
| AxiosConfig.ConfigWithData | src/index.js:47-56 | The same for a string first argument, with the options taken from the third argument and "POST" as the default method. Otherwise the second argument is returned if truthy, else the first. |
| AxiosConfig.RequestConfigFor | src/index.js:26-29 | getRequestConfig's choice of call shape by the `hasData` flag of the entry point (the flags are set in the table at lines 184-201). With a URL string first, the result has that URL and every other field from the options, which are the second argument, or the third for post/put/patch. Otherwise the first argument is returned unchanged, except that post/put/patch return a truthy second argument instead. The `merge` with the instance defaults (line 32) is left out. |
| AxiosConfig.VerbTableMethods | src/index.js:184-201 | With a URL string first, every entry point yields that URL and a non-empty method. For get/delete/head/post/put/patch the method is the verb's own name. For a direct call and `.request` (method `null`) it is the options' method, else "GET". |
| AxiosConfig.DataArgumentIgnored | src/index.js:47-52 | With a URL string first, the request body argument of post/put/patch has no effect on the config. |
| AxiosConfig.ConfigObjectPassesThrough | src/index.js:36-56 | A config object passed first comes back unchanged for every entry point (for data verbs, unless a truthy second argument is passed). |
| PushHeaders.Scheme | src/index.js:71 | `:scheme` is never empty. It is "https" when the protocol is absent or has no word character. Otherwise it is the protocol's first word. |
| PushHeaders.SchemeExamples | src/index.js:71 | "https:" gives "https", "http:" gives "http", and an absent protocol or "://" gives "https". |
| PushHeaders.CharEntries | src/index.js:65-66 | Spreading a string yields exactly one entry per character, keyed by its decimal index, holding that character. |
| PushHeaders.MergeLayersPrecedence | src/index.js:64-72 | In an object literal built from spreads in order, every key has the value of the highest layer that defines it, and is absent when no layer does. |
| PushHeaders.HeaderPrecedence | src/index.js:63-81 | In the PUSH_PROMISE headers, every name other than a bucket name has the value of the highest of the four layers (common < method bucket < top-level headers < pseudo-headers) that defines it. It is absent when no layer does. |
| PushHeaders.BucketNamesRemoved | src/index.js:75-78 | None of `delete`, `get`, `head`, `post`, `put`, `patch`, `common` appears in the PUSH_PROMISE headers. |
| PushHeaders.PseudoHeadersPresent | src/index.js:68-71 | `:path`, `:authority`, `:method` (the upper-cased method) and `:scheme` are always present with the request's values. They override user headers of the same name, and `:scheme` is non-empty. |
| PushHeaders.MethodBucketIsCaseSensitive | src/index.js:66 | The method bucket is looked up under the method as written: a "get" bucket header reaches a "get" request but not a "GET" request. |
| PushHeaders.HeaderObject.Delete | src/index.js:77 | `delete` removes exactly the named key and changes nothing else. |
| PushHeaders.GetRequestHeaders | src/index.js:63-81 | The object built from the four layers, after the bucket names are deleted one by one in the loop, equals the layered specification without the bucket names. |
| PushDecision.CanPush | src/index.js:16-24 | The result is true exactly when all of these hold: the page response is present, not finished, has a stream with `pushAllowed`, and has a method that spells "get" in any case. It throws exactly when the response tests pass and the method is absent. Otherwise it is false. |
| PushDecision.CanPushIgnoresUrl | src/index.js:16-21 | The decision does not depend on the request URL. |
| PushDecision.OnlyGetIsPushed | src/index.js:14-21 | post, HEAD, delete, put and patch are never pushed. A finished or stream-less response gives false. get/GET/Get on a push-capable response give true. |
| PushDecision.InterceptRequest | src/index.js:126-173 | A request is issued exactly when canPush holds; an absent method throws; otherwise the empty promise is returned and nothing is issued. The issued config equals the input except for four fields: `responseType` is "stream", `originalResponseType` is the input's response type or "json", and `cancelToken` and `pushResponsePromise` are the fresh token and promise. The PUSH_PROMISE carries the layered headers. |
| Interceptors.PrepareAxios | src/index.js:176-182 | Without a page response the target is returned unwrapped and unchanged. Otherwise the library's interceptor pair is appended and the flag set, unless the flag was already set. The wrapper is returned. |
| Interceptors.PrepareRegistersOnce | src/index.js:176-182 | Over any sequence of prepareAxios calls on one instance, the pair is appended exactly once if the flag was unset and some call had a page response, and never otherwise. From then on the flag is set. |
| Interceptors.RegistrationCountGrowsByAtMostOne | src/index.js:176-182 | Repeated wrapping adds at most one registration of the pair, and none once the flag is set. |

## Left out

- Strings.Upper: maps only ASCII `a`-`z`. JavaScript's `toUpperCase` also maps non-ASCII letters (`ß` becomes `SS`). That changes only the `:method` value of such methods. The GET test is unaffected, because no non-ASCII character upper-cases to `G`, `E` or `T`.
- The push-stream lifecycle is not modelled: the `createPushResponse` callback, adding the push response to the pool, the `close` listener, cancelling through the cancel token, and the promise plumbing (`src/index.js:131-154`). Its point is an asynchronous race, which is concurrency. `pushResponsePromise` is an opaque handle.
- What happens to the issued request afterwards is not modelled: `targetAxios.request(...)` and its `.catch` that logs and falls back to `emptyPromise()` (`src/index.js:165-169`). `Dispatch.Issued` records the config and the PUSH_PROMISE headers only.
- `ResponsePool`, `getTargetAxios`, `emptyPromise` and the response interceptors are defined in files that are not part of this model. `responsePool.get()` is an input of `InterceptRequest`. `emptyPromise()` is the value `Dispatch.EmptyPromise`. The interceptor pair is the value `ResponseHandler.PushResponseInterceptors`.
- Several steps are foreign library calls, so their results are inputs: `merge(targetAxios.defaults, ...)`, the `baseURL`/`isAbsoluteURL`/`combineURLs` resolution and `url.parse` (`src/index.js:32, 108-114`). `InterceptRequest` takes the merged config and the parsed URL.
- Environment and logging glue is not modelled: the `global.window` client-side check, `console.warn`, and copying `all`, `spread`, `interceptors`, `defaults` and `targetAxios` onto the wrapper (`src/index.js:93, 167, 203-209`).
- PushHeaders.CharEntries: strings are sequences of Unicode scalar values, not UTF-16 code units. Spreading a string-valued header bucket that holds a character outside the Basic Multilingual Plane gives one entry per scalar value here, where JavaScript gives one per code unit (two for such a character). A lone surrogate cannot be represented at all.
- Config fields the push logic never reads (`data`, `params`, `timeout`, ...) are not in `Config`. Arguments other than strings, objects and `undefined` are not in `Arg`. Header values other than strings, `null`/`undefined` and objects are not in `Header`. A non-object `headers` is not modelled.
