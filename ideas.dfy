/** The same-origin endpoint that relays list queries to the remote idea
    source.

    A request other than GET is refused with 405. A GET builds the upstream
    query (two fixed `append[]` entries, the sort key, the page number and the
    page size, with defaults), makes the upstream call and answers 200 with
    the upstream body, or 500 when the call fails. The call itself is an
    abstract outcome; this module models the decision around it.
 */
module IdeasApi {

  datatype Option<T> = None | Some(value: T)

  /** The remote list endpoint every upstream request goes to. */
  const BaseUrl: string := "https://suitmedia-backend.suitdev.com/api/ideas"

  /** The media type the upstream request asks for. */
  const AcceptJson: string := "application/json"

  const MethodNotAllowed: string := "Method not allowed"
  const InternalServerError: string := "Internal server error"

  /** An incoming request: its HTTP method (absent when the framework leaves
      it unset) and the three query values the handler reads. */
  datatype Request = Request(
    httpMethod: Option<string>,
    sort: Option<string>,
    pageNumber: Option<string>,
    pageSize: Option<string>)

  /** One name/value entry of a query-parameter list. */
  datatype Param = Param(key: string, value: string)

  /** The request sent to the remote source. */
  datatype UpstreamRequest = UpstreamRequest(endpoint: string, params: seq<Param>, accept: string)

  /** The parsed body of an upstream reply, opaque to the handler. */
  type Payload = string

  /** How the upstream call ends: a success status with its parsed body, a
      non-success status, or a rejected fetch or body parse. */
  datatype Outcome = Ok(body: Payload) | NotOk | Thrown

  /** A JSON reply body: the upstream body relayed, or an `{error: ...}` object. */
  datatype Body = Relayed(payload: Payload) | ErrorBody(error: string)

  /** What the handler does: the status and body it answers with, and the
      upstream request it makes, if any. */
  datatype Response = Response(status: int, body: Body, upstream: Option<UpstreamRequest>)

  // ---------------------------------------------------------------------
  // Query-parameter lists, with the append and set operations of
  // URLSearchParams (section 6.2 of the WHATWG URL Standard)
  // ---------------------------------------------------------------------

  /** No entry of `ps` has name `k`. */
  predicate Fresh(ps: seq<Param>, k: string) {
    forall i :: 0 <= i < |ps| ==> ps[i].key != k
  }

  /** The names of the entries, in order. */
  function Keys(ps: seq<Param>): (ks: seq<string>)
    ensures |ks| == |ps|
    ensures forall i :: 0 <= i < |ps| ==> ks[i] == ps[i].key
    decreases |ps|
  {
    if ps == [] then [] else [ps[0].key] + Keys(ps[1..])
  }

  /** The entries whose name is not `k`, in order. */
  function Without(ps: seq<Param>, k: string): seq<Param>
    decreases |ps|
  {
    if ps == [] then []
    else if ps[0].key == k then Without(ps[1..], k)
    else [ps[0]] + Without(ps[1..], k)
  }

  /** The position of the first entry named `k`. */
  function FirstIndex(ps: seq<Param>, k: string): (i: nat)
    requires !Fresh(ps, k)
    ensures i < |ps| && ps[i].key == k && Fresh(ps[..i], k)
    decreases |ps|
  {
    if ps[0].key == k then 0
    else
      var j := FirstIndex(ps[1..], k);
      assert ps[..j + 1] == [ps[0]] + ps[1..][..j];
      j + 1
  }

  /** The value of the first entry named `k` (URLSearchParams.get). */
  function Lookup(ps: seq<Param>, k: string): Option<string>
    decreases |ps|
  {
    if ps == [] then None
    else if ps[0].key == k then Some(ps[0].value)
    else Lookup(ps[1..], k)
  }

  /** The lookup finds the first entry with the name. */
  lemma {:induction false} LookupFirst(ps: seq<Param>, k: string, i: nat)
    requires i < |ps| && ps[i].key == k && Fresh(ps[..i], k)
    ensures Lookup(ps, k) == Some(ps[i].value)
    decreases i
  {
    if i > 0 {
      assert ps[0] == ps[..i][0];
      assert ps[1..][..i - 1] == ps[..i][1..];
      LookupFirst(ps[1..], k, i - 1);
    }
  }

  /** URLSearchParams.append: adds an entry at the end. */
  function AppendParam(ps: seq<Param>, k: string, v: string): (r: seq<Param>)
    ensures |r| == |ps| + 1 && r[..|ps|] == ps && r[|ps|] == Param(k, v)
  {
    ps + [Param(k, v)]
  }

  /** URLSearchParams.set: the first entry named `k` takes value `v` and the
      later ones are dropped; with no such entry, one is appended. On a name
      not yet present, this is exactly an append. */
  function SetParam(ps: seq<Param>, k: string, v: string): (r: seq<Param>)
    ensures Fresh(ps, k) ==> r == ps + [Param(k, v)]
    decreases |ps|
  {
    if ps == [] then [Param(k, v)]
    else if ps[0].key == k then [Param(k, v)] + Without(ps[1..], k)
    else [ps[0]] + SetParam(ps[1..], k, v)
  }

  lemma {:induction false} WithoutDropsKey(ps: seq<Param>, k: string)
    ensures Fresh(Without(ps, k), k)
    ensures Without(Without(ps, k), k) == Without(ps, k)
    decreases |ps|
  {
    if ps != [] {
      WithoutDropsKey(ps[1..], k);
      if ps[0].key != k {
        var w := Without(ps[1..], k);
        assert ([ps[0]] + w)[1..] == w;
      }
    }
  }

  /** After a set, the name reads back the value set, and the entries with
      other names keep their values and their order. */
  lemma {:induction false} SetParamReplaces(ps: seq<Param>, k: string, v: string)
    ensures Lookup(SetParam(ps, k, v), k) == Some(v)
    ensures Without(SetParam(ps, k, v), k) == Without(ps, k)
    decreases |ps|
  {
    var r := SetParam(ps, k, v);
    if ps == [] {
    } else if ps[0].key == k {
      var w := Without(ps[1..], k);
      assert r[1..] == w;
      WithoutDropsKey(ps[1..], k);
    } else {
      var t := SetParam(ps[1..], k, v);
      assert r[1..] == t;
      SetParamReplaces(ps[1..], k, v);
    }
  }

  /** A set on a name already present puts the entry in the place of the
      first entry with that name: what comes before it is unchanged and no
      later entry has the name, so it occurs exactly once. */
  lemma {:induction false} SetParamKeepsPlace(ps: seq<Param>, k: string, v: string)
    requires !Fresh(ps, k)
    ensures var i, r := FirstIndex(ps, k), SetParam(ps, k, v);
      i < |r| && r[..i] == ps[..i] && r[i] == Param(k, v) && Fresh(r[i + 1..], k)
    decreases |ps|
  {
    var r := SetParam(ps, k, v);
    if ps[0].key == k {
      assert r[1..] == Without(ps[1..], k);
      WithoutDropsKey(ps[1..], k);
    } else {
      var t := SetParam(ps[1..], k, v);
      assert r == [ps[0]] + t;
      var m :| 0 <= m < |ps| && ps[m].key == k;
      assert ps[1..][m - 1].key == k;
      SetParamKeepsPlace(ps[1..], k, v);
      var j := FirstIndex(ps[1..], k);
      assert FirstIndex(ps, k) == j + 1;
      assert r[..j + 1] == [ps[0]] + t[..j];
      assert ps[..j + 1] == [ps[0]] + ps[1..][..j];
      assert r[j + 2..] == t[j + 1..];
    }
  }

  // ---------------------------------------------------------------------
  // Mapping the client query to the upstream query
  // ---------------------------------------------------------------------

  /** The upstream sort key: ascending publication date when the client asks
      for the oldest first, descending otherwise (also when absent). */
  function UpstreamSort(sort: Option<string>): (r: string)
    ensures r == "published_at" <==> sort == Some("oldest")
    ensures r == "-published_at" <==> sort != Some("oldest")
  {
    if sort == Some("oldest") then "published_at" else "-published_at"
  }

  /** A query value with a fallback: the value when it is present and
      non-empty (any other string, numeric or not, is passed through as it
      is), the fallback otherwise. */
  function QueryOr(v: Option<string>, fallback: string): (r: string)
    ensures v.Some? && v.value != "" ==> r == v.value
    ensures v.None? || v.value == "" ==> r == fallback
  {
    match v
    case Some(s) => if s != "" then s else fallback
    case None => fallback
  }

  /** The upstream query a GET asks for, entry by entry, in order. */
  function ExpectedParams(q: Request): seq<Param> {
    [ Param("append[]", "small_image"),
      Param("append[]", "medium_image"),
      Param("sort", UpstreamSort(q.sort)),
      Param("page[number]", QueryOr(q.pageNumber, "1")),
      Param("page[size]", QueryOr(q.pageSize, "10")) ]
  }

  /** Builds the upstream query the way the handler does, by appends and sets
      on an initially empty list; each set is on a name not yet present, so
      the entries come out in call order. */
  method BuildParams(q: Request) returns (ps: seq<Param>)
    ensures ps == ExpectedParams(q)
    ensures Keys(ps) == ["append[]", "append[]", "sort", "page[number]", "page[size]"]
  {
    ps := [];
    ps := AppendParam(ps, "append[]", "small_image");
    ps := AppendParam(ps, "append[]", "medium_image");
    assert Fresh(ps, "sort");
    ps := SetParam(ps, "sort", UpstreamSort(q.sort));
    assert Fresh(ps, "page[number]");
    ps := SetParam(ps, "page[number]", QueryOr(q.pageNumber, "1"));
    assert Fresh(ps, "page[size]");
    ps := SetParam(ps, "page[size]", QueryOr(q.pageSize, "10"));
  }

  /** The client's sort choice reaches the upstream query as described by
      `UpstreamSort`, and the page values as given when non-empty. */
  lemma ExpectedParamsRead(q: Request)
    ensures Lookup(ExpectedParams(q), "sort") == Some("published_at") <==> q.sort == Some("oldest")
    ensures Lookup(ExpectedParams(q), "sort") == Some("-published_at") <==> q.sort != Some("oldest")
    ensures q.pageNumber.Some? && q.pageNumber.value != "" ==> Lookup(ExpectedParams(q), "page[number]") == q.pageNumber
    ensures q.pageSize.Some? && q.pageSize.value != "" ==> Lookup(ExpectedParams(q), "page[size]") == q.pageSize
    ensures (q.pageNumber.None? || q.pageNumber.value == "") ==> Lookup(ExpectedParams(q), "page[number]") == Some("1")
    ensures (q.pageSize.None? || q.pageSize.value == "") ==> Lookup(ExpectedParams(q), "page[size]") == Some("10")
  {
    var ps := ExpectedParams(q);
    LookupFirst(ps, "sort", 2);
    LookupFirst(ps, "page[number]", 3);
    LookupFirst(ps, "page[size]", 4);
  }

  // ---------------------------------------------------------------------
  // The handler
  // ---------------------------------------------------------------------

  /** The whole handler as a decision: method check, upstream request, and
      the reply chosen from the upstream outcome. */
  function Handle(q: Request, outcome: Outcome): (r: Response)
    ensures r.status == 405 <==> q.httpMethod != Some("GET")
    ensures r.status == 405 ==> r.body == ErrorBody(MethodNotAllowed) && r.upstream == None
    ensures r.upstream.Some? <==> q.httpMethod == Some("GET")
    ensures r.upstream.Some? ==> r.upstream.value == UpstreamRequest(BaseUrl, ExpectedParams(q), AcceptJson)
    ensures r.status == 200 <==> q.httpMethod == Some("GET") && outcome.Ok?
    ensures r.status == 200 ==> r.body == Relayed(outcome.body)
    ensures r.status == 500 <==> q.httpMethod == Some("GET") && !outcome.Ok?
    ensures r.status == 500 ==> r.body == ErrorBody(InternalServerError)
    ensures r.status == 200 || r.status == 405 || r.status == 500
  {
    if q.httpMethod != Some("GET") then
      Response(405, ErrorBody(MethodNotAllowed), None)
    else
      var upstream := Some(UpstreamRequest(BaseUrl, ExpectedParams(q), AcceptJson));
      match outcome
      case Ok(body) => Response(200, Relayed(body), upstream)
      case _ => Response(500, ErrorBody(InternalServerError), upstream)
  }

  /** The reply object the framework hands the handler: a status code and the
      JSON body once sent. */
  class ResponseWriter {
    var statusCode: int
    var sent: Option<Body>

    constructor ()
      ensures statusCode == 200 && sent == None
    {
      statusCode := 200;
      sent := None;
    }

    /** res.status(code) */
    method Status(code: int)
      modifies this
      ensures statusCode == code && sent == old(sent)
    {
      statusCode := code;
    }

    /** res.json(body) */
    method Json(body: Body)
      modifies this
      ensures sent == Some(body) && statusCode == old(statusCode)
    {
      sent := Some(body);
    }
  }

  /** Runs the handler against a reply object, with `outcome` standing for
      how the upstream call ends. Returns the upstream request it made. The
      reply written and the request made are those `Handle` describes. */
  method Handler(q: Request, res: ResponseWriter, outcome: Outcome) returns (made: Option<UpstreamRequest>)
    requires res.sent == None
    modifies res
    ensures res.statusCode == Handle(q, outcome).status
    ensures res.sent == Some(Handle(q, outcome).body)
    ensures made == Handle(q, outcome).upstream
  {
    if q.httpMethod != Some("GET") {
      res.Status(405);
      res.Json(ErrorBody(MethodNotAllowed));
      return None;
    }
    var params := BuildParams(q);
    made := Some(UpstreamRequest(BaseUrl, params, AcceptJson));
    match outcome {
      case Ok(data) =>
        res.Status(200);
        res.Json(Relayed(data));
      case _ =>
        res.Status(500);
        res.Json(ErrorBody(InternalServerError));
    }
  }
}
