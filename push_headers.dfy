/**
 * The header set of a PUSH_PROMISE (getRequestHeaders in `src/index.js`).
 *
 * The headers are built in layers, lowest first: the shared `common` bucket,
 * the bucket named by the request's method, the request's own `headers`
 * object, and the four request pseudo-header fields of section 8.1.2.3 of
 * RFC 7540. A later layer overrides an earlier one. The bucket names are
 * then deleted from the result.
 */
module PushHeaders {
  import opened Wrappers
  import opened Strings
  import opened AxiosConfig

  /** The parts of `url.parse(requestURLString)` that become pseudo-header fields. */
  datatype ParsedUrl = ParsedUrl(protocol: Option<string>, host: Option<string>, path: Option<string>)

  /** The bucket names axios keeps inside `headers`; none of them may reach a PUSH_PROMISE. */
  const BucketNames: seq<string> := ["delete", "get", "head", "post", "put", "patch", "common"]

  /** `getWord(requestURL.protocol) || 'https'`: the `:scheme` pseudo-header field. */
  function Scheme(protocol: Option<string>): (r: string)
    ensures r != ""
    ensures protocol.None? || !HasWordChar(protocol.value) ==> r == "https"
    ensures protocol.Some? && HasWordChar(protocol.value) ==> GetWord(protocol) == Some(r)
  {
    match GetWord(protocol)
    case Some(w) => w
    case None => "https"
  }

  lemma SchemeExamples()
    ensures Scheme(Some("https:")) == "https"
    ensures Scheme(Some("http:")) == "http"
    ensures Scheme(None) == "https"
    ensures Scheme(Some("://")) == "https"
  {
    GetWordIsFirstMaximalRun("https:", "https");
    assert IsFirstWordAt("https:", 0, "https");
    GetWordIsFirstMaximalRun("http:", "http");
    assert IsFirstWordAt("http:", 0, "http");
    assert !IsWordChar("://"[0]) && !IsWordChar("://"[1]) && !IsWordChar("://"[2]);
  }

  /** A header value that may be `null` (a URL without host or path). */
  function NullableStr(o: Option<string>): Header {
    if o.Some? then Str(o.value) else Missing
  }

  /** No two distinct indices below `n + 1` share a key. */
  lemma IndexKeysBelowDiffer(n: nat)
    ensures forall i :: 0 <= i < n ==> IndexKey(i) != IndexKey(n)
  {
    forall i | 0 <= i < n
      ensures IndexKey(i) != IndexKey(n)
    {
      if IndexKey(i) == IndexKey(n) {
        IndexKeyInjective(i, n);
      }
    }
  }

  /** `{ ...s[..n] }` for a string `s`: one entry per character, under its index. */
  function CharEntries(s: string, n: nat): (r: map<string, Header>)
    requires n <= |s|
    ensures forall i :: 0 <= i < n ==> IndexKey(i) in r && r[IndexKey(i)] == Str([s[i]])
    ensures r.Keys == set i | 0 <= i < n :: IndexKey(i)
  {
    if n == 0 then map[]
    else
      IndexKeysBelowDiffer(n - 1);
      CharEntries(s, n - 1)[IndexKey(n - 1) := Str([s[n - 1]])]
  }

  /** Object spread of one header value: a bucket's entries, a string's characters, nothing otherwise. */
  function Spread(v: Option<Header>): map<string, Header> {
    match v
    case Some(Bucket(m)) => m
    case Some(Str(s)) => CharEntries(s, |s|)
    case _ => map[]
  }

  /** `(headers || {})[key]`. */
  function Lookup(headers: Option<map<string, Header>>, key: string): Option<Header> {
    if headers.Some? && key in headers.value then Some(headers.value[key]) else None
  }

  function Get(m: map<string, Header>, key: string): Option<Header> {
    if key in m then Some(m[key]) else None
  }

  /** `:path`, `:authority`, `:method` (upper-cased) and `:scheme`. */
  function PseudoHeaders(httpMethod: string, requestURL: ParsedUrl): map<string, Header> {
    map[":path" := NullableStr(requestURL.path),
        ":authority" := NullableStr(requestURL.host),
        ":method" := Str(Upper(httpMethod)),
        ":scheme" := Str(Scheme(requestURL.protocol))]
  }

  /** The four layers of the object literal, lowest first. */
  function Layers(config: Config, requestURL: ParsedUrl): seq<map<string, Header>>
    requires config.httpMethod.Some?
  {
    [Spread(Lookup(config.headers, "common")),
     Spread(Lookup(config.headers, config.httpMethod.value)),
     config.headers.GetOr(map[]),
     PseudoHeaders(config.httpMethod.value, requestURL)]
  }

  /** An object literal made of spreads, in order: each layer overrides the ones before it. */
  function MergeLayers(layers: seq<map<string, Header>>): map<string, Header> {
    if layers == [] then map[] else MergeLayers(layers[..|layers| - 1]) + layers[|layers| - 1]
  }

  /** Reference reading of precedence: the value in the highest layer that has the key. */
  function FromHighest(layers: seq<map<string, Header>>, key: string): Option<Header> {
    if layers == [] then None
    else if key in layers[|layers| - 1] then Some(layers[|layers| - 1][key])
    else FromHighest(layers[..|layers| - 1], key)
  }

  /** Merging layers in order gives every key the value of the highest layer that defines it. */
  lemma {:induction false} MergeLayersPrecedence(layers: seq<map<string, Header>>, key: string)
    ensures Get(MergeLayers(layers), key) == FromHighest(layers, key)
  {
    if layers != [] {
      MergeLayersPrecedence(layers[..|layers| - 1], key);
    }
  }

  lemma MergeFourLayers(a: map<string, Header>, b: map<string, Header>,
                        c: map<string, Header>, d: map<string, Header>)
    ensures MergeLayers([a, b, c, d]) == a + b + c + d
  {
    assert [a][..0] == [];
    assert MergeLayers([a]) == a;
    assert [a, b][..1] == [a];
    assert MergeLayers([a, b]) == a + b;
    assert [a, b, c][..2] == [a, b];
    assert MergeLayers([a, b, c]) == a + b + c;
    assert [a, b, c, d][..3] == [a, b, c];
  }

  /** What getRequestHeaders returns: the merged layers without the bucket names. */
  function PushPromiseHeaders(config: Config, requestURL: ParsedUrl): map<string, Header>
    requires config.httpMethod.Some?
  {
    var merged := MergeLayers(Layers(config, requestURL));
    map k | k in merged && k !in BucketNames :: merged[k]
  }

  /**
   * Every header name other than a bucket name keeps the value of the highest
   * layer that defines it, and is absent when no layer does.
   */
  lemma HeaderPrecedence(config: Config, requestURL: ParsedUrl, key: string)
    requires config.httpMethod.Some?
    requires key !in BucketNames
    ensures Get(PushPromiseHeaders(config, requestURL), key) == FromHighest(Layers(config, requestURL), key)
  {
    MergeLayersPrecedence(Layers(config, requestURL), key);
  }

  /** No bucket name survives, whatever the layers hold. */
  lemma BucketNamesRemoved(config: Config, requestURL: ParsedUrl)
    requires config.httpMethod.Some?
    ensures forall b :: b in BucketNames ==> b !in PushPromiseHeaders(config, requestURL)
  {
  }

  /**
   * The four pseudo-header fields are always present and carry the request's
   * values, overriding any user header of the same name; `:scheme` is never empty.
   */
  lemma PseudoHeadersPresent(config: Config, requestURL: ParsedUrl)
    requires config.httpMethod.Some?
    ensures var r := PushPromiseHeaders(config, requestURL);
      && Get(r, ":path") == Some(NullableStr(requestURL.path))
      && Get(r, ":authority") == Some(NullableStr(requestURL.host))
      && Get(r, ":method") == Some(Str(Upper(config.httpMethod.value)))
      && Get(r, ":scheme") == Some(Str(Scheme(requestURL.protocol)))
      && Scheme(requestURL.protocol) != ""
  {
    var layers := Layers(config, requestURL);
    HeaderPrecedence(config, requestURL, ":path");
    HeaderPrecedence(config, requestURL, ":authority");
    HeaderPrecedence(config, requestURL, ":method");
    HeaderPrecedence(config, requestURL, ":scheme");
  }

  /**
   * The method bucket is looked up with the method exactly as configured: a
   * request whose method is "GET" (the default of a direct call) does not
   * receive the headers of the lower-case `get` bucket, while "get" does.
   */
  lemma MethodBucketIsCaseSensitive(requestURL: ParsedUrl)
    ensures var headers := Some(map["get" := Bucket(map["x-get" := Str("1")])]);
      && "x-get" !in PushPromiseHeaders(EmptyConfig.(headers := headers, httpMethod := Some("GET")), requestURL)
      && "x-get" in PushPromiseHeaders(EmptyConfig.(headers := headers, httpMethod := Some("get")), requestURL)
  {
    var headers := Some(map["get" := Bucket(map["x-get" := Str("1")])]);
    var upper := EmptyConfig.(headers := headers, httpMethod := Some("GET"));
    var lower := EmptyConfig.(headers := headers, httpMethod := Some("get"));
    assert Lookup(headers, "common") == None && Lookup(headers, "GET") == None;
    assert Lookup(headers, "get") == Some(Bucket(map["x-get" := Str("1")]));
    var lu, ll := Layers(upper, requestURL), Layers(lower, requestURL);
    assert lu == [map[], map[], headers.value, PseudoHeaders("GET", requestURL)];
    assert ll == [map[], map["x-get" := Str("1")], headers.value, PseudoHeaders("get", requestURL)];
    MergeFourLayers(lu[0], lu[1], lu[2], lu[3]);
    MergeFourLayers(ll[0], ll[1], ll[2], ll[3]);
  }

  /** The `requestHeaders` object of getRequestHeaders, which is pruned in place. */
  class HeaderObject {
    var fields: map<string, Header>

    constructor (init: map<string, Header>)
      ensures fields == init
    {
      fields := init;
    }

    /** `delete requestHeaders[name]`. */
    method Delete(name: string)
      modifies this
      ensures fields == old(fields) - {name}
    {
      fields := fields - {name};
    }
  }

  /**
   * getRequestHeaders: build the object from the four layers, then delete the
   * bucket names one by one.
   */
  method GetRequestHeaders(config: Config, requestURL: ParsedUrl) returns (r: map<string, Header>)
    requires config.httpMethod.Some?
    ensures r == PushPromiseHeaders(config, requestURL)
  {
    var httpMethod := config.httpMethod.value;
    var obj := new HeaderObject(
      Spread(Lookup(config.headers, "common"))
      + Spread(Lookup(config.headers, httpMethod))
      + config.headers.GetOr(map[])
      + PseudoHeaders(httpMethod, requestURL));
    var layers := Layers(config, requestURL);
    MergeFourLayers(layers[0], layers[1], layers[2], layers[3]);
    assert layers == [layers[0], layers[1], layers[2], layers[3]];
    ghost var merged := obj.fields;
    for i := 0 to |BucketNames|
      invariant obj.fields == map k | k in merged && k !in BucketNames[..i] :: merged[k]
    {
      obj.Delete(BucketNames[i]);
      assert BucketNames[..i + 1] == BucketNames[..i] + [BucketNames[i]];
    }
    assert BucketNames[..|BucketNames|] == BucketNames;
    r := obj.fields;
  }
}
