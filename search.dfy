/**
 * `SearchResource`: `run` turns search options into one POST (tags moved into
 * a `scope` object in the body, `limit` moved into the query string), and
 * `list` is one GET with the pagination options as query parameters.
 * Search options are a plain JavaScript object, modelled as a map from
 * property name to value; a property that is `undefined` is absent.
 */
module Search {
  import opened Wrappers
  import opened Js
  import opened Client
  import Uri

  const SEARCH_PATH: string := "/api/v1/search"

  /** `PaginationOptions`. */
  datatype PaginationOptions = PaginationOptions(cursor: Option<string>, limit: Option<int>)

  /** `opts[key]` is truthy, as `if (tags)` and `if (limit)` test it; an absent property is `undefined`, which is falsy. */
  predicate Given(opts: map<string, Json>, key: string)
    ensures Given(opts, key) <==> key in opts && opts[key] !in {Null, Bool(false), Num(0), Str("")}
  {
    key in opts && Truthy(opts[key])
  }

  /** The body `run` posts: `opts` without `tags` and `limit`, plus `scope: { tags }` when `tags` is truthy. */
  function RunPayload(opts: map<string, Json>): (payload: map<string, Json>)
    ensures payload.Keys == opts.Keys - {"tags", "limit"} + (if Given(opts, "tags") then {"scope"} else {})
    ensures forall k :: k in opts && k !in {"tags", "limit", "scope"} ==> payload[k] == opts[k]
    ensures Given(opts, "tags") ==> payload["scope"] == Obj(map["tags" := opts["tags"]])
    ensures !Given(opts, "tags") && "scope" in opts ==> payload["scope"] == opts["scope"]
  {
    var body := opts - {"tags", "limit"};
    if Given(opts, "tags") then body["scope" := Obj(map["tags" := opts["tags"]])] else body
  }

  /** `URLSearchParams.toString()`: form-encoded `name=value` pairs joined by `&`. */
  function SerializeQuery(pairs: seq<(string, string)>): (s: string)
    ensures s == "" <==> pairs == []
    ensures |pairs| == 1 ==> s == Uri.FormEncode(pairs[0].0) + "=" + Uri.FormEncode(pairs[0].1)
  {
    Join(seq(|pairs|, i requires 0 <= i < |pairs| => Uri.FormEncode(pairs[i].0) + "=" + Uri.FormEncode(pairs[i].1)), "&")
  }

  /** The `qs` of `run`: `limit`, as `String(limit)`, when it is truthy. */
  function RunQuery(opts: map<string, Json>): (q: seq<(string, string)>)
    ensures q != [] <==> Given(opts, "limit")
    ensures q != [] ==> q == [("limit", JsString(opts["limit"]))]
  {
    if Given(opts, "limit") then [("limit", JsString(opts["limit"]))] else []
  }

  /** The path `run` posts to: the search path, with `?` and the query string when that is not empty. */
  function RunPath(opts: map<string, Json>): (path: string)
    ensures Given(opts, "limit") ==> path == SEARCH_PATH + "?limit=" + Uri.FormEncode(JsString(opts["limit"]))
    ensures !Given(opts, "limit") ==> path == SEARCH_PATH
  {
    var qs := SerializeQuery(RunQuery(opts));
    RunQuerySerialized(opts);
    if qs != "" then SEARCH_PATH + "?" + qs else SEARCH_PATH
  }

  /** The serialised `qs`: `limit=<value>` when `limit` is truthy, otherwise empty. */
  lemma RunQuerySerialized(opts: map<string, Json>)
    ensures SerializeQuery(RunQuery(opts))
      == if Given(opts, "limit") then "limit=" + Uri.FormEncode(JsString(opts["limit"])) else ""
  {
    if Given(opts, "limit") {
      Uri.FormEncodeUnreserved("limit");
    }
  }

  /** A numeric limit: `limit: 0` leaves the path bare, any other integer appears in decimal. */
  lemma RunPathNumericLimit(opts: map<string, Json>, n: int)
    requires "limit" in opts && opts["limit"] == Num(n)
    ensures n == 0 ==> RunPath(opts) == SEARCH_PATH
    ensures n != 0 ==> RunPath(opts) == SEARCH_PATH + "?limit=" + Decimal(n)
  {
    Uri.FormEncodeDecimal(n);
  }

  /** The query parameters `list` hands to `get`, in that order. */
  function ListParams(opts: Option<PaginationOptions>): (params: Params)
    ensures DistinctKeys(params)
  {
    var cursor := if opts.Some? && opts.value.cursor.Some? then Some(Str(opts.value.cursor.value)) else None;
    var limit := if opts.Some? && opts.value.limit.Some? then Some(Num(opts.value.limit.value)) else None;
    [("cursor", cursor), ("limit", limit)]
  }

  class SearchResource {
    const http: HttpClient

    constructor (http: HttpClient)
      ensures this.http == http
    {
      this.http := http;
    }

    /**
     * `run`: one raw `post` (the envelope is not unwrapped) whose path and body
     * are all that depends on `opts`.
     */
    function Run(opts: map<string, Json>, resp: Response): (x: Exchange<Json>)
      ensures x.request.verb == POST && x.request.query == []
      ensures x.request.address == http.baseUrl + RunPath(opts)
      ensures x.request.body == Some(Obj(RunPayload(opts)))
      ensures x.request.headers == http.Headers(POST)
      ensures x.outcome == Decode(resp)
    {
      http.Post(RunPath(opts), Some(Obj(RunPayload(opts))), resp)
    }

    /** `list`: GET of the search path; an `undefined` cursor or limit is left out of the query. */
    method List(opts: Option<PaginationOptions>, resp: Response) returns (x: Exchange<Json>)
      ensures x.request.verb == GET && x.request.address == http.baseUrl + SEARCH_PATH
      ensures x.request.query ==
        (if opts.Some? && opts.value.cursor.Some? then [("cursor", opts.value.cursor.value)] else [])
        + (if opts.Some? && opts.value.limit.Some? then [("limit", Decimal(opts.value.limit.value))] else [])
      ensures x.request.body == None
      ensures x.request.headers == http.Headers(GET)
      ensures x.outcome == Decode(resp)
    {
      var params := ListParams(opts);
      x := http.Get(SEARCH_PATH, Some(params), resp);
      assert params[..1] == [params[0]];
      assert params == params[..1] + [params[1]];
      assert FilterQuery([params[0]]) == FilterQuery([]) + FilterQuery([params[0]]);
    }
  }
}
