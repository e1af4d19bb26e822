/**
 * The HTTP request wrapper: a request hook that resolves a relative path
 * against a fixed base URL, an identity response hook, and an executor that
 * dispatches a request and flattens the backend's response envelope.
 */
module Request {
  import opened Wrappers

  /** The base URL every relative path is resolved against. */
  const BaseUrl: string := "http://localhost:5174/api"

  /**
   * The request options the wrapper passes around (`verb` is the HTTP
   * method). `url` is the only field the request hook looks at; every other
   * option is copied unchanged.
   */
  datatype Config<D> = Config(
    verb: Option<string>,
    url: Option<string>,
    data: Option<D>,
    headers: map<string, string>,
    params: map<string, string>)

  /** The application-level payload the backend nests under `response.data`. */
  datatype Envelope<D> = Envelope(data: D, code: int, message: string)

  /** A transport response: HTTP status, headers and the backend's envelope. */
  datatype Response<D> = Response(
    status: int,
    statusText: string,
    headers: map<string, string>,
    data: Envelope<D>)

  /** What the executor hands back to its caller: one flat record. */
  datatype Flat<D> = Flat(status: int, statusText: string, data: D, code: int, message: string)

  /** JavaScript's `s.startsWith('/')`. */
  predicate StartsWithSlash(s: string) {
    |s| > 0 && s[0] == '/'
  }

  /**
   * Resolves `url` against `base`. An absent or empty url is falsy and is
   * returned as it is; a path with a leading slash is appended to the base;
   * any other path is appended after an inserted slash.
   */
  function NormalizeUrl(base: string, url: Option<string>): (r: Option<string>)
    ensures r.None? <==> url.None?
    ensures url == Some("") ==> r == url
    ensures url.Some? && url.value != "" ==>
      var u, s := url.value, r.value;
      // nothing but at most one separator is added to the base and the path
      && |s| == |base| + |u| + (if StartsWithSlash(u) then 0 else 1)
      // the base is the prefix, untouched
      && s[..|base|] == base
      // a slash sits right after the base: the inserted one for a relative
      // path, the path's own first character otherwise
      && s[|base|] == '/'
      // the caller's path is the suffix, untouched
      && s[|s| - |u|..] == u
  {
    match url
    case None => None
    case Some(u) =>
      if u != "" && StartsWithSlash(u) then Some(base + u)
      else if u != "" then Some(base + "/" + u)
      else Some(u)
  }

  /**
   * The body of the request hook: a new config in which only `url` has been
   * resolved against the base URL.
   */
  function InterceptRequest<D>(config: Config<D>): (r: Config<D>)
    ensures r.url == NormalizeUrl(BaseUrl, config.url)
    ensures r.verb == config.verb && r.data == config.data
    ensures r.headers == config.headers && r.params == config.params
  {
    config.(url := NormalizeUrl(BaseUrl, config.url))
  }

  /** The body of the response hook: an observation point that changes nothing. */
  function InterceptResponse<D>(response: Response<D>): (r: Response<D>)
    ensures r == response
  {
    response
  }

  /**
   * Projects a response onto the flat result: `status` and `statusText`
   * from the response itself, `data`, `code` and `message` from the nested
   * envelope. Headers are dropped.
   */
  function Flatten<D>(response: Response<D>): (r: Flat<D>)
    ensures r.status == response.status && r.statusText == response.statusText
    ensures r.data == response.data.data
    ensures r.code == response.data.code && r.message == response.data.message
  {
    Flat(response.status, response.statusText, response.data.data, response.data.code, response.data.message)
  }

  /** Rebuilds a response with the given headers from a flat result. */
  function Nest<D>(flat: Flat<D>, headers: map<string, string>): (r: Response<D>)
  {
    Response(flat.status, flat.statusText, headers, Envelope(flat.data, flat.code, flat.message))
  }

  /**
   * One call of the executor. The transport, which stands for the network
   * call, receives the config as the request hook rewrote it; a fulfilled
   * response goes through the response hook and is flattened, and a
   * rejection reaches the caller as the very same error.
   */
  function Execute<D, R, E>(transport: Config<D> -> Result<Response<R>, E>, options: Config<D>): (r: Result<Flat<R>, E>)
    ensures transport(InterceptRequest(options)).Failure? ==>
      r == Failure(transport(InterceptRequest(options)).error)
    ensures transport(InterceptRequest(options)).Success? ==>
      r == Success(Flatten(transport(InterceptRequest(options)).value))
  {
    match transport(InterceptRequest(options))
    case Failure(e) => Failure(e)
    case Success(response) => Success(Flatten(InterceptResponse(response)))
  }

  // ---------------------------------------------------------------------------
  // Properties of the URL normaliser

  /**
   * A path with a leading slash is appended to the base with no extra
   * separator. This and the next lemma are the per-case forms of
   * `NormalizeUrl`'s contract.
   */
  lemma NormalizeLeadingSlash(base: string, u: string)
    requires StartsWithSlash(u)
    ensures NormalizeUrl(base, Some(u)) == Some(base + u)
  {
  }

  /** A non-empty path without a leading slash is joined to the base by one slash. */
  lemma NormalizeRelative(base: string, u: string)
    requires u != "" && !StartsWithSlash(u)
    ensures NormalizeUrl(base, Some(u)) == Some(base + "/" + u)
  {
  }

  /** The path with its leading slash is the same target as the path without it. */
  lemma NormalizeSlashInsensitive(base: string, p: string)
    requires p != "" && !StartsWithSlash(p)
    ensures NormalizeUrl(base, Some("/" + p)) == NormalizeUrl(base, Some(p))
  {
    assert StartsWithSlash("/" + p);
    assert base + ("/" + p) == base + "/" + p;
  }

  /** Number of slashes in a string. */
  function SlashCount(s: string): nat
  {
    if s == [] then 0 else (if s[0] == '/' then 1 else 0) + SlashCount(s[1..])
  }

  lemma {:induction false} SlashCountConcat(a: string, b: string)
    ensures SlashCount(a + b) == SlashCount(a) + SlashCount(b)
  {
    if a == [] {
      assert a + b == b;
    } else {
      assert (a + b)[1..] == a[1..] + b;
      SlashCountConcat(a[1..], b);
    }
  }

  /**
   * No separator is collapsed or removed: the result has every slash of the
   * base and of the path, plus the one inserted for a relative path.
   */
  lemma {:induction false} NormalizeKeepsSlashes(base: string, u: string)
    requires u != ""
    ensures SlashCount(NormalizeUrl(base, Some(u)).value)
         == SlashCount(base) + SlashCount(u) + (if StartsWithSlash(u) then 0 else 1)
  {
    if StartsWithSlash(u) {
      SlashCountConcat(base, u);
    } else {
      SlashCountConcat(base, "/");
      SlashCountConcat(base + "/", u);
      assert SlashCount("/") == 1 by {
        assert "/"[1..] == [];
      }
    }
  }

  /** A base with a trailing slash and a path with a leading one give a doubled slash. */
  lemma DoubleSlashNotCollapsed(base: string, u: string)
    requires |base| > 0 && base[|base| - 1] == '/' && StartsWithSlash(u)
    ensures var s := NormalizeUrl(base, Some(u)).value;
      |s| > |base| && s[|base| - 1] == '/' && s[|base|] == '/'
  {
  }

  /** The example target: "app/completion" against the configured base. */
  lemma NormalizeCompletion()
    ensures NormalizeUrl(BaseUrl, Some("app/completion")) == Some("http://localhost:5174/api/app/completion")
    ensures NormalizeUrl(BaseUrl, Some("/app/completion")) == Some("http://localhost:5174/api/app/completion")
  {
    NormalizeRelative(BaseUrl, "app/completion");
    NormalizeLeadingSlash(BaseUrl, "/app/completion");
    assert BaseUrl + "/" + "app/completion" == "http://localhost:5174/api/app/completion";
    assert BaseUrl + "/app/completion" == "http://localhost:5174/api/app/completion";
  }

  // ---------------------------------------------------------------------------
  // Properties of the flattening and the executor

  /** Two responses flatten alike exactly when they agree on everything but their headers. */
  lemma FlattenIdentifies<D>(a: Response<D>, b: Response<D>)
    ensures Flatten(a) == Flatten(b) <==> a.(headers := b.headers) == b
  {
  }

  /** Flattening loses nothing but the headers: nesting again restores the response. */
  lemma FlattenNestRoundTrip<D>(response: Response<D>, flat: Flat<D>, headers: map<string, string>)
    ensures Nest(Flatten(response), response.headers) == response
    ensures Flatten(Nest(flat, headers)) == flat
  {
  }

  /**
   * A rejected transport call reaches the caller as the very same error: the
   * error case of `Execute`'s contract, stated for a named error.
   */
  lemma ExecutePassesErrors<D, R, E>(transport: Config<D> -> Result<Response<R>, E>, options: Config<D>, e: E)
    requires transport(InterceptRequest(options)) == Failure(e)
    ensures Execute(transport, options) == Failure(e)
  {
  }

  /** The transport's view of the call depends only on the config after the request hook. */
  lemma ExecuteSeesInterceptedConfig<D, R, E>(transport: Config<D> -> Result<Response<R>, E>, a: Config<D>, b: Config<D>)
    requires InterceptRequest(a) == InterceptRequest(b)
    ensures Execute(transport, a) == Execute(transport, b)
  {
  }

  /** The example envelope {status 200, "OK", data {id 1}, code 0, "ok"} flattens as expected. */
  lemma ExecuteExample<D>(transport: Config<D> -> Result<Response<map<string, int>>, string>, options: Config<D>, headers: map<string, string>)
    requires transport(InterceptRequest(options)) == Success(Response(200, "OK", headers, Envelope(map["id" := 1], 0, "ok")))
    ensures Execute(transport, options) == Success(Flat(200, "OK", map["id" := 1], 0, "ok"))
  {
  }
}
