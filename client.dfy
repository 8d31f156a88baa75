/**
 * The transport core: `HttpClient` holds the API key and base URL, builds the
 * request every verb sends, decodes the response into a value or a
 * `SidearmError`, and unwraps the `{ data, meta }` envelope the service uses.
 *
 * The network is not modelled: what `fetch` answers to a request is an input
 * `Response` (its status, its body text, and what `JSON.parse` made of the
 * text, if anything). A call is modelled as an `Exchange`: the request that
 * goes out, and the value returned or the error thrown once the answer is in.
 */
module Client {
  import opened Wrappers
  import opened Js

  const DEFAULT_BASE_URL: string := "https://api.sdrm.io"
  const API_KEY_REQUIRED: string := "apiKey is required. Get yours at https://sdrm.io/api-keys"

  /** `SidearmConfig`: `None` stands for a missing (`undefined` or `null`) property. */
  datatype Config = Config(apiKey: Option<string>, baseUrl: Option<string>)

  datatype Verb = GET | POST | PATCH | DELETE

  /**
   * What `fetch` is asked to do: the verb, the URL (`address` is base URL plus
   * path, `query` the search parameters in order), the headers, and the value
   * whose `JSON.stringify` text is the body (`None`: no body).
   */
  datatype Request = Request(
    verb: Verb,
    address: string,
    query: seq<(string, string)>,
    headers: map<string, string>,
    body: Option<Json>)

  /** What the network answered: the status, the body text, and `JSON.parse(text)` when it succeeds. */
  datatype Response = Response(status: int, text: string, parsed: Option<Json>)

  /** Everything the core, and the job tracker built on it, can throw. */
  datatype Error =
      /** The plain `Error` the constructor throws for a missing API key. */
    | ConfigError(message: string)
      /** `SidearmError`: a non-2xx answer, with the parsed body when there is one. */
    | ApiError(message: string, status: int, body: Option<Json>)
      /** The `TypeError` JavaScript throws when a property of `null` is read. */
    | NullEnvelope(property: string)
      /** The plain `Error` `Job.wait` throws when its deadline passes. */
    | TimeoutError(message: string)

  /** One call: the request sent and what the call returned or threw. */
  datatype Exchange<+T> = Exchange(request: Request, outcome: Result<T, Error>)

  /** The page `getList` returns; `None` is `undefined`. */
  datatype Page = Page(data: Option<Json>, cursor: Option<Json>)

  /** `!config.apiKey` is false: the key is present and non-empty. */
  predicate ApiKeyPresent(config: Config) {
    config.apiKey.Some? && config.apiKey.value != ""
  }

  predicate EndsWithSlash(s: string) {
    |s| > 0 && s[|s| - 1] == '/'
  }

  /** The base URL the client keeps: the configured one or the default, less one trailing `/`. */
  function BaseUrlOf(config: Config): (u: string)
    ensures var b := config.baseUrl.GetOr(DEFAULT_BASE_URL);
      b == u + (if EndsWithSlash(b) then "/" else "")
  {
    var b := config.baseUrl.GetOr(DEFAULT_BASE_URL);
    if EndsWithSlash(b) then b[..|b| - 1] else b
  }

  /** `res.ok`. */
  predicate IsOk(status: int)
    ensures IsOk(status) <==> status / 100 == 2
  {
    200 <= status <= 299
  }

  /**
   * The message of a `SidearmError` built from a parsed error body:
   * `json?.message ?? json?.error ?? text`, converted by the `Error` constructor with `String`.
   */
  function ErrorMessage(json: Json, text: string): (m: string)
    ensures !Nullish(Prop(json, "message")) ==> m == JsString(json.fields["message"])
    ensures Nullish(Prop(json, "message")) && !Nullish(Prop(json, "error")) ==> m == JsString(json.fields["error"])
    ensures Nullish(Prop(json, "message")) && Nullish(Prop(json, "error")) ==> m == text
  {
    var chosen := Coalesce(Coalesce(Prop(json, "message"), Prop(json, "error")), Some(Str(text)));
    JsString(chosen.value)
  }

  /** The decoding table of `request`: what a response becomes once its text is in. */
  function Decode(resp: Response): (r: Result<Json, Error>)
    ensures r.Success? <==> IsOk(resp.status)
    ensures r.Success? ==> r.value == resp.parsed.GetOr(Str(resp.text))
    ensures r.Failure? ==> r.error.ApiError? && r.error.status == resp.status && r.error.body == resp.parsed
    ensures r.Failure? && resp.parsed.None? ==>
      r.error.message == "HTTP " + Decimal(resp.status) + ": " + resp.text
    ensures r.Failure? && resp.parsed.Some? ==>
      r.error.message == ErrorMessage(resp.parsed.value, resp.text)
  {
    match resp.parsed
    case None =>
      if !IsOk(resp.status) then
        Failure(ApiError("HTTP " + Decimal(resp.status) + ": " + resp.text, resp.status, None))
      else
        Success(Str(resp.text))
    case Some(json) =>
      if !IsOk(resp.status) then
        Failure(ApiError(ErrorMessage(json, resp.text), resp.status, Some(json)))
      else
        Success(json)
  }

  /** `res.data` on a decoded body: a property read, which throws only on `null`. */
  function UnwrapOne(r: Result<Json, Error>): (u: Result<Option<Json>, Error>)
    ensures r.Failure? ==> u == Failure(r.error)
    ensures r.Success? && r.value == Null ==> u == Failure(NullEnvelope("data"))
    ensures r.Success? && r.value != Null ==> u == Success(Prop(r.value, "data"))
  {
    match r
    case Failure(e) => Failure(e)
    case Success(Null) => Failure(NullEnvelope("data"))
    case Success(v) => Success(Prop(v, "data"))
  }

  /** `res.meta?.next_cursor`. */
  function Cursor(envelope: Json): (c: Option<Json>)
    ensures Nullish(Prop(envelope, "meta")) ==> c.None?
    ensures !Nullish(Prop(envelope, "meta")) ==> c == Prop(envelope.fields["meta"], "next_cursor")
  {
    var meta := Prop(envelope, "meta");
    if Nullish(meta) then None else Prop(meta.value, "next_cursor")
  }

  /** `{ data: res.data, cursor: res.meta?.next_cursor }` on a decoded body. */
  function UnwrapList(r: Result<Json, Error>): (u: Result<Page, Error>)
    ensures r.Failure? ==> u == Failure(r.error)
    ensures r.Success? && r.value == Null ==> u == Failure(NullEnvelope("data"))
    ensures r.Success? && r.value != Null ==> u == Success(Page(Prop(r.value, "data"), Cursor(r.value)))
  {
    match r
    case Failure(e) => Failure(e)
    case Success(Null) => Failure(NullEnvelope("data"))
    case Success(v) => Success(Page(Prop(v, "data"), Cursor(v)))
  }

  /** `??` keeps an empty-string `message`; a body that is not an object falls through to the text. */
  lemma ErrorMessagePriority(json: Json, text: string)
    ensures Prop(json, "message") == Some(Str("")) ==> ErrorMessage(json, text) == ""
    ensures !json.Obj? ==> ErrorMessage(json, text) == text
    ensures json.Obj? && "message" !in json.fields && "error" in json.fields && json.fields["error"].Str? ==>
      ErrorMessage(json, text) == json.fields["error"].s
  {
  }

  /** A 2xx `{ data: t }` answer unwraps to exactly `t`; a non-2xx one throws the same error as the raw call. */
  lemma UnwrapOneEnvelope(status: int, text: string, t: Json, rest: map<string, Json>)
    ensures var resp := Response(status, text, Some(Obj(rest["data" := t])));
      UnwrapOne(Decode(resp)) == if IsOk(status) then Success(Some(t)) else Failure(Decode(resp).error)
  {
  }

  /**
   * A 2xx `{ data, meta: { next_cursor: c } }` answer unwraps to `{ data, cursor: c }`,
   * a `null` cursor included; without `meta` the cursor is `undefined`.
   */
  lemma UnwrapListEnvelope(text: string, items: seq<Json>, c: Json)
    ensures var withMeta := Obj(map["data" := Arr(items), "meta" := Obj(map["next_cursor" := c])]);
      UnwrapList(Decode(Response(200, text, Some(withMeta)))) == Success(Page(Some(Arr(items)), Some(c)))
    ensures var bare := Obj(map["data" := Arr(items)]);
      UnwrapList(Decode(Response(200, text, Some(bare)))) == Success(Page(Some(Arr(items)), None))
  {
  }

  /** Only one trailing `/` goes: `"x//"` is kept as `"x/"`, and the default has none to lose. */
  lemma BaseUrlExamples(key: Option<string>)
    ensures BaseUrlOf(Config(key, Some("x//"))) == "x/"
    ensures BaseUrlOf(Config(key, None)) == DEFAULT_BASE_URL
  {
  }

  // ── Query parameters ─────────────────────────────────────────────────────

  /** A parameter bag in `Object.entries` order; `None` values are `undefined`. */
  type Params = seq<(string, Option<Json>)>

  /** The keys of an object are distinct, so its entries are too. */
  predicate DistinctKeys(params: Params) {
    forall i, j :: 0 <= i < j < |params| ==> params[i].0 != params[j].0
  }

  predicate HasKey(q: seq<(string, string)>, k: string) {
    exists i :: 0 <= i < |q| && q[i].0 == k
  }

  /** `q` without the pairs named `k`. */
  function Without(q: seq<(string, string)>, k: string): (r: seq<(string, string)>)
    ensures !HasKey(r, k)
  {
    if q == [] then []
    else (if q[0].0 == k then [] else [q[0]]) + Without(q[1..], k)
  }

  function ReplaceFirst(q: seq<(string, string)>, k: string, v: string): seq<(string, string)> {
    if q == [] then []
    else if q[0].0 == k then [(k, v)] + Without(q[1..], k)
    else [q[0]] + ReplaceFirst(q[1..], k, v)
  }

  /**
   * `URLSearchParams.set(k, v)`: the first pair named `k` gets value `v` and the
   * other pairs named `k` go; with no such pair, `(k, v)` is appended.
   */
  function SetParam(q: seq<(string, string)>, k: string, v: string): (r: seq<(string, string)>)
    ensures !HasKey(q, k) ==> r == q + [(k, v)]
  {
    if HasKey(q, k) then ReplaceFirst(q, k, v) else q + [(k, v)]
  }

  /** The query `get` builds: each entry whose value is neither `undefined` nor `null`, as `String(value)`. */
  function FilterQuery(params: Params): (q: seq<(string, string)>)
    ensures |q| <= |params|
  {
    if params == [] then []
    else
      var last := params[|params| - 1];
      FilterQuery(params[..|params| - 1])
      + (if Nullish(last.1) then [] else [(last.0, JsString(last.1.value))])
  }

  /** One pair per entry when no value is nullish; no pair at all when every value is. */
  lemma {:induction false} FilterQuerySize(params: Params)
    ensures (forall i :: 0 <= i < |params| ==> !Nullish(params[i].1)) ==> |FilterQuery(params)| == |params|
    ensures (forall i :: 0 <= i < |params| ==> Nullish(params[i].1)) ==> FilterQuery(params) == []
  {
    if params != [] {
      var init := params[..|params| - 1];
      FilterQuerySize(init);
      assert forall i :: 0 <= i < |init| ==> init[i] == params[i];
    }
  }

  /** Every name in the filtered query is a key of the bag. */
  lemma {:induction false} FilterQueryKeys(params: Params, k: string)
    requires HasKey(FilterQuery(params), k)
    ensures exists i :: 0 <= i < |params| && params[i].0 == k
  {
    var q := FilterQuery(params);
    var j :| 0 <= j < |q| && q[j].0 == k;
    var init := params[..|params| - 1];
    if j < |FilterQuery(init)| {
      assert FilterQuery(init)[j] == q[j];
      FilterQueryKeys(init, k);
      var i :| 0 <= i < |init| && init[i].0 == k;
      assert params[i] == init[i];
    } else {
      assert params[|params| - 1].0 == k;
    }
  }

  /** With distinct keys, the next entry's key is not yet in the query, so `set` appends it. */
  lemma NextKeyIsNew(params: Params, i: nat)
    requires DistinctKeys(params) && i < |params|
    ensures !HasKey(FilterQuery(params[..i]), params[i].0)
  {
    if HasKey(FilterQuery(params[..i]), params[i].0) {
      FilterQueryKeys(params[..i], params[i].0);
    }
  }

  /** Filtering keeps entry order: it distributes over concatenation. */
  lemma {:induction false} FilterQueryAppend(a: Params, b: Params)
    ensures FilterQuery(a + b) == FilterQuery(a) + FilterQuery(b)
  {
    if b != [] {
      var init := b[..|b| - 1];
      assert (a + b)[..|a + b| - 1] == a + init;
      FilterQueryAppend(a, init);
    } else {
      assert a + b == a;
    }
  }

  /** A pair in the query comes from an entry of the bag with a non-nullish value. */
  lemma {:induction false} FilterQuerySource(params: Params, k: string, s: string) returns (i: int)
    requires (k, s) in FilterQuery(params)
    ensures 0 <= i < |params| && params[i].0 == k && !Nullish(params[i].1) && s == JsString(params[i].1.value)
  {
    var n := |params|;
    var init := params[..n - 1];
    if (k, s) in FilterQuery(init) {
      i := FilterQuerySource(init, k, s);
      assert params[i] == init[i];
    } else {
      i := n - 1;
    }
  }

  /** Each entry with a non-nullish value puts its pair in the query. */
  lemma {:induction false} FilterQueryKeeps(params: Params, i: int)
    requires 0 <= i < |params| && !Nullish(params[i].1)
    ensures (params[i].0, JsString(params[i].1.value)) in FilterQuery(params)
  {
    var n := |params|;
    var init := params[..n - 1];
    if i < n - 1 {
      FilterQueryKeeps(init, i);
      assert init[i] == params[i];
    }
  }

  /** An entry is in the query exactly when the bag has it with a non-nullish value. */
  lemma FilterQueryMembership(params: Params, k: string, s: string)
    ensures (k, s) in FilterQuery(params) <==>
      exists i :: 0 <= i < |params| && params[i].0 == k && !Nullish(params[i].1) && s == JsString(params[i].1.value)
  {
    if (k, s) in FilterQuery(params) {
      var i := FilterQuerySource(params, k, s);
    }
    if exists i :: 0 <= i < |params| && params[i].0 == k && !Nullish(params[i].1) && s == JsString(params[i].1.value) {
      var i :| 0 <= i < |params| && params[i].0 == k && !Nullish(params[i].1) && s == JsString(params[i].1.value);
      FilterQueryKeeps(params, i);
    }
  }

  class HttpClient {
    const baseUrl: string
    const apiKey: string

    /** The constructor past its key check (that check, and the throw, are `Create`'s). */
    constructor (config: Config)
      requires ApiKeyPresent(config)
      ensures apiKey != "" && apiKey == config.apiKey.value && baseUrl == BaseUrlOf(config)
    {
      apiKey := config.apiKey.value;
      baseUrl := BaseUrlOf(config);
    }

    /** `new HttpClient(config)`: throws a plain `Error`, and builds nothing, when the key is missing or empty. */
    static method Create(config: Config) returns (r: Result<HttpClient, Error>)
      ensures r.Failure? <==> !ApiKeyPresent(config)
      ensures r.Failure? ==> r.error == ConfigError(API_KEY_REQUIRED)
      ensures r.Success? ==>
        fresh(r.value) && r.value.apiKey != ""
        && r.value.apiKey == config.apiKey.value && r.value.baseUrl == BaseUrlOf(config)
    {
      if !ApiKeyPresent(config) {
        return Failure(ConfigError(API_KEY_REQUIRED));
      }
      var client := new HttpClient(config);
      return Success(client);
    }

    /** The headers of a request: the two core headers, plus `Content-Type` for POST and PATCH. */
    function Headers(verb: Verb): (h: map<string, string>)
      ensures "Authorization" in h && h["Authorization"] == "Bearer " + apiKey
      ensures "Accept" in h && h["Accept"] == "application/json"
      ensures "Content-Type" in h <==> verb == POST || verb == PATCH
      ensures "Content-Type" in h ==> h["Content-Type"] == "application/json"
      ensures h.Keys <= {"Authorization", "Accept", "Content-Type"}
    {
      var core := map["Authorization" := "Bearer " + apiKey, "Accept" := "application/json"];
      if verb == POST || verb == PATCH then core + map["Content-Type" := "application/json"] else core
    }

    /** A request to the base URL followed by `path`, with the verb's headers. */
    function Build(verb: Verb, path: string, query: seq<(string, string)>, body: Option<Json>): (r: Request)
      ensures r.verb == verb && r.address == baseUrl + path && r.query == query
      ensures r.headers == Headers(verb) && r.body == body
    {
      Request(verb, baseUrl + path, query, Headers(verb), body)
    }

    /** The request `get(path, params)` sends. */
    function GetRequest(path: string, params: Option<Params>): (r: Request)
      ensures r.verb == GET && r.address == baseUrl + path && r.headers == Headers(GET) && r.body == None
      ensures r.query == if params.Some? then FilterQuery(params.value) else []
    {
      Build(GET, path, if params.Some? then FilterQuery(params.value) else [], None)
    }

    /** `get`: builds the query entry by entry, then decodes the answer. */
    method Get(path: string, params: Option<Params>, resp: Response) returns (x: Exchange<Json>)
      requires params.Some? ==> DistinctKeys(params.value)
      ensures x.request == GetRequest(path, params)
      ensures x.outcome == Decode(resp)
    {
      var query: seq<(string, string)> := [];
      if params.Some? {
        var entries := params.value;
        var i := 0;
        while i < |entries|
          invariant 0 <= i <= |entries|
          invariant query == FilterQuery(entries[..i])
        {
          var (k, v) := entries[i];
          if !Nullish(v) {
            NextKeyIsNew(entries, i);
            query := SetParam(query, k, JsString(v.value));
          }
          assert entries[..i + 1][..i] == entries[..i];
          i := i + 1;
        }
        assert entries[..|entries|] == entries;
      }
      x := Exchange(Build(GET, path, query, None), Decode(resp));
    }

    /** `post`: the body is sent when it is not `undefined`. */
    function Post(path: string, body: Option<Json>, resp: Response): (x: Exchange<Json>)
      ensures x.request.verb == POST && x.request.address == baseUrl + path && x.request.query == []
      ensures x.request.headers == Headers(POST) && x.request.body == body
      ensures x.outcome == Decode(resp)
    {
      Exchange(Build(POST, path, [], body), Decode(resp))
    }

    /** `patch`: the body is always serialised (`JSON.stringify(undefined)` is itself `undefined`). */
    function Patch(path: string, body: Option<Json>, resp: Response): (x: Exchange<Json>)
      ensures x.request.verb == PATCH && x.request.address == baseUrl + path && x.request.query == []
      ensures x.request.headers == Headers(PATCH) && x.request.body == body
      ensures x.outcome == Decode(resp)
    {
      Exchange(Build(PATCH, path, [], body), Decode(resp))
    }

    /** `delete`: no body, no `Content-Type`. */
    function Delete(path: string, resp: Response): (x: Exchange<Json>)
      ensures x.request.verb == DELETE && x.request.address == baseUrl + path && x.request.query == []
      ensures x.request.headers == Headers(DELETE) && x.request.body == None
      ensures x.outcome == Decode(resp)
    {
      Exchange(Build(DELETE, path, [], None), Decode(resp))
    }

    /** `getOne`: `get`, then `res.data`. */
    method GetOne(path: string, params: Option<Params>, resp: Response) returns (x: Exchange<Option<Json>>)
      requires params.Some? ==> DistinctKeys(params.value)
      ensures x.request == GetRequest(path, params)
      ensures x.outcome == UnwrapOne(Decode(resp))
    {
      var raw := Get(path, params, resp);
      x := Exchange(raw.request, UnwrapOne(raw.outcome));
    }

    /** `getList`: `get`, then the data and the next cursor. */
    method GetList(path: string, params: Option<Params>, resp: Response) returns (x: Exchange<Page>)
      requires params.Some? ==> DistinctKeys(params.value)
      ensures x.request == GetRequest(path, params)
      ensures x.outcome == UnwrapList(Decode(resp))
    {
      var raw := Get(path, params, resp);
      x := Exchange(raw.request, UnwrapList(raw.outcome));
    }

    /** `postOne`: `post`, then `res.data`. */
    function PostOne(path: string, body: Option<Json>, resp: Response): (x: Exchange<Option<Json>>)
      ensures x.request == Post(path, body, resp).request
      ensures x.request.verb == POST && x.request.address == baseUrl + path && x.request.query == []
      ensures x.request.headers == Headers(POST) && x.request.body == body
      ensures x.outcome == UnwrapOne(Decode(resp))
    {
      var raw := Post(path, body, resp);
      Exchange(raw.request, UnwrapOne(raw.outcome))
    }

    /** `patchOne`: `patch`, then `res.data`. */
    function PatchOne(path: string, body: Option<Json>, resp: Response): (x: Exchange<Option<Json>>)
      ensures x.request == Patch(path, body, resp).request
      ensures x.request.verb == PATCH && x.request.address == baseUrl + path && x.request.query == []
      ensures x.request.headers == Headers(PATCH) && x.request.body == body
      ensures x.outcome == UnwrapOne(Decode(resp))
    {
      var raw := Patch(path, body, resp);
      Exchange(raw.request, UnwrapOne(raw.outcome))
    }

    /** `deleteOne`: `delete`, then `res.data`. */
    function DeleteOne(path: string, resp: Response): (x: Exchange<Option<Json>>)
      ensures x.request == Delete(path, resp).request
      ensures x.request.verb == DELETE && x.request.address == baseUrl + path && x.request.query == []
      ensures x.request.headers == Headers(DELETE) && x.request.body == None
      ensures x.outcome == UnwrapOne(Decode(resp))
    {
      var raw := Delete(path, resp);
      Exchange(raw.request, UnwrapOne(raw.outcome))
    }
  }
}
