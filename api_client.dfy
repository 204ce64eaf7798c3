/**
  The war-API client: HTTP conditional GET (section 13.1.2 of RFC 9110,
  `If-None-Match`) with a per-endpoint validator map and a per-endpoint
  response cache, answered by `304 Not Modified` (section 15.4.5 of RFC 9110).

  The network is a parameter: `respond` is what the server answers to a
  request. The client's own state is two maps keyed by the endpoint string.
 */
module ApiClient {
  import opened Wrappers
  import opened Json

  const BaseUrl: string := "https://war-service-live.foxholeservices.com/api/worldconquest"

  /** What the client sends: the URL, the conditional header if any, and the query parameters. */
  datatype Request = Request(url: string, ifNoneMatch: Option<string>, params: Option<map<string, string>>)

  /**
    What comes back. `NoReply` is a request that raised before any status
    arrived (connection failure, timeout). In `Reply`, `body` is the decoded
    JSON document, or `None` when the body is not valid JSON.
   */
  datatype Reply =
    | NoReply
    | Reply(status: int, etag: Option<string>, body: Option<Json>)

  /** The exceptions a request can raise. */
  datatype Failure =
    | Transport            // raised by the HTTP session itself
    | CacheMiss(endpoint: string)  // `KeyError` from `self.cache[endpoint]`
    | HttpError(status: int)       // `raise_for_status()` on a 4xx or 5xx reply
    | DecodeError          // `response.json()` on a body that is not JSON

  /** A request either returns a decoded value (Python's `None` is `JNull`) or raises. */
  datatype Outcome = Returned(value: Json) | Raised(failure: Failure)

  /** The two dictionaries of a client. */
  datatype CacheState = CacheState(etags: map<string, string>, cache: map<string, Json>)

  /** The client's invariant: a validator is stored exactly for the endpoints that have a cached body. */
  predicate Coherent(st: CacheState) {
    st.etags.Keys == st.cache.Keys
  }

  /** The statuses `raise_for_status` turns into an exception. */
  predicate IsErrorStatus(status: int)
    ensures IsErrorStatus(status) ==> status != 200 && status != 304
  {
    400 <= status < 600
  }

  /** The request for `endpoint`: the conditional header carries the stored validator, if there is one. */
  function RequestFor(st: CacheState, endpoint: string, params: Option<map<string, string>>): (req: Request)
    ensures req.ifNoneMatch.Some? <==> endpoint in st.etags
    ensures req.ifNoneMatch.Some? ==> req.ifNoneMatch.value == st.etags[endpoint]
    ensures req.url == BaseUrl + "/" + endpoint && req.params == params
  {
    Request(BaseUrl + "/" + endpoint, if endpoint in st.etags then Some(st.etags[endpoint]) else None, params)
  }

  /**
    The client's handling of a reply, as written: on a 200 with an ETag the
    validator is stored before the body is decoded, so a body that fails to
    decode leaves a validator without a cached body.
   */
  function HandleAsWritten(st: CacheState, endpoint: string, reply: Reply): (res: (CacheState, Outcome))
    ensures forall e :: e != endpoint ==>
      (e in res.0.etags <==> e in st.etags) && (e in res.0.cache <==> e in st.cache)
    ensures forall e :: e != endpoint && e in st.etags ==> res.0.etags[e] == st.etags[e]
    ensures forall e :: e != endpoint && e in st.cache ==> res.0.cache[e] == st.cache[e]
    ensures reply.Reply? && reply.status == 200 && reply.etag.Some? ==>
      res.0.etags == st.etags[endpoint := reply.etag.value] &&
      (reply.body.Some? <==> res.1.Returned?)
    ensures reply.Reply? && reply.status == 200 && reply.etag.Some? && reply.body.None? ==>
      res.0.cache == st.cache && res.1 == Raised(DecodeError)
  {
    match reply
    case NoReply => (st, Raised(Transport))
    case Reply(status, etag, body) =>
      if status == 304 then
        (st, if endpoint in st.cache then Returned(st.cache[endpoint]) else Raised(CacheMiss(endpoint)))
      else if status == 200 then
        if etag.Some? then
          var st1 := st.(etags := st.etags[endpoint := etag.value]);
          match body
          case None => (st1, Raised(DecodeError))
          case Some(v) => (st1.(cache := st.cache[endpoint := v]), Returned(v))
        else
          (st, if body.Some? then Returned(body.value) else Raised(DecodeError))
      else if IsErrorStatus(status) then (st, Raised(HttpError(status)))
      else (st, Returned(JNull))
  }

  /**
    The client's handling of a reply with the body decoded before either map
    is written, so that the validator and the cached body are stored together
    or not at all. Every other case is as in `HandleAsWritten`.
   */
  function Handle(st: CacheState, endpoint: string, reply: Reply): (res: (CacheState, Outcome))
    // the endpoint is the only key whose entries can change
    ensures forall e :: e != endpoint ==>
      (e in res.0.etags <==> e in st.etags) && (e in res.0.cache <==> e in st.cache)
    ensures forall e :: e != endpoint && e in st.etags ==> res.0.etags[e] == st.etags[e]
    ensures forall e :: e != endpoint && e in st.cache ==> res.0.cache[e] == st.cache[e]
    // the entries are only ever added or overwritten, never removed
    ensures st.etags.Keys <= res.0.etags.Keys && st.cache.Keys <= res.0.cache.Keys
    ensures Coherent(st) ==> Coherent(res.0)
  {
    match reply
    case NoReply => (st, Raised(Transport))
    case Reply(status, etag, body) =>
      if status == 304 then
        (st, if endpoint in st.cache then Returned(st.cache[endpoint]) else Raised(CacheMiss(endpoint)))
      else if status == 200 then
        match body
        case None => (st, Raised(DecodeError))
        case Some(v) =>
          if etag.Some? then
            (CacheState(st.etags[endpoint := etag.value], st.cache[endpoint := v]), Returned(v))
          else
            (st, Returned(v))
      else if IsErrorStatus(status) then (st, Raised(HttpError(status)))
      else (st, Returned(JNull))
  }

  /**
    The two orders differ on one kind of reply only: a 200 carrying an ETag
    whose body does not decode. On every other reply (304, a 200 without an
    ETag, a decodable 200, any other status, no reply) the handler as written
    is `Handle`, so `HandleCases` states its behaviour there as well.
   */
  lemma AsWrittenAgreesElsewhere(st: CacheState, endpoint: string, reply: Reply)
    ensures !(reply.Reply? && reply.status == 200 && reply.etag.Some? && reply.body.None?) ==>
              HandleAsWritten(st, endpoint, reply) == Handle(st, endpoint, reply)
    ensures reply.Reply? && reply.status == 200 && reply.etag.Some? && reply.body.None? ==>
              Handle(st, endpoint, reply) == (st, Raised(DecodeError)) &&
              HandleAsWritten(st, endpoint, reply) == (st.(etags := st.etags[endpoint := reply.etag.value]), Raised(DecodeError))
  {
  }

  /** One `_make_request` against a server: the request sent, the new state and the outcome. */
  function Fetch(st: CacheState, endpoint: string, params: Option<map<string, string>>, respond: Request -> Reply)
    : (r: (Request, CacheState, Outcome))
    ensures r.0 == RequestFor(st, endpoint, params)
    ensures (r.1, r.2) == Handle(st, endpoint, respond(r.0))
    ensures Coherent(st) ==> Coherent(r.1)
  {
    var req := RequestFor(st, endpoint, params);
    var (st', outcome) := Handle(st, endpoint, respond(req));
    (req, st', outcome)
  }

  /**
    What each status does to the client: a 304 answers from the cache and
    changes nothing; a decodable 200 returns its body and stores it with its
    validator when there is one; every other reply leaves both maps alone.
   */
  lemma HandleCases(st: CacheState, endpoint: string, reply: Reply)
    ensures reply.Reply? && reply.status == 304 ==>
      Handle(st, endpoint, reply) ==
        (st, if endpoint in st.cache then Returned(st.cache[endpoint]) else Raised(CacheMiss(endpoint)))
    ensures reply.Reply? && reply.status == 200 && reply.body.Some? && reply.etag.Some? ==>
      Handle(st, endpoint, reply) ==
        (CacheState(st.etags[endpoint := reply.etag.value], st.cache[endpoint := reply.body.value]),
         Returned(reply.body.value))
    ensures reply.Reply? && reply.status == 200 && reply.body.Some? && reply.etag.None? ==>
      Handle(st, endpoint, reply) == (st, Returned(reply.body.value))
    ensures reply.Reply? && reply.status != 304 && !(reply.status == 200 && reply.body.Some?) ==>
      Handle(st, endpoint, reply).0 == st
    ensures reply.Reply? && reply.status != 200 && reply.status != 304 ==>
      Handle(st, endpoint, reply).1 ==
        if IsErrorStatus(reply.status) then Raised(HttpError(reply.status)) else Returned(JNull)
  {
  }

  /**
    Revalidation: after a 200 that carried validator `tag` and body `v`, the
    next request to the same endpoint sends `If-None-Match: tag`, and a 304
    answer to it returns exactly `v` and leaves the client as it was.
   */
  lemma RevalidatedReplyIsCachedBody(st: CacheState, endpoint: string, tag: string, v: Json,
                                     params: Option<map<string, string>>, respond: Request -> Reply)
    requires respond(RequestFor(Handle(st, endpoint, Reply(200, Some(tag), Some(v))).0, endpoint, params)).Reply?
    requires respond(RequestFor(Handle(st, endpoint, Reply(200, Some(tag), Some(v))).0, endpoint, params)).status == 304
    ensures var st1 := Handle(st, endpoint, Reply(200, Some(tag), Some(v))).0;
            var (req, st2, outcome) := Fetch(st1, endpoint, params, respond);
            req.ifNoneMatch == Some(tag) && outcome == Returned(v) && st2 == st1
  {
    var st1 := Handle(st, endpoint, Reply(200, Some(tag), Some(v))).0;
    assert st1.etags[endpoint] == tag && st1.cache[endpoint] == v;
  }

  /**
    An endpoint for which no validator was ever stored is fetched
    unconditionally; and in a coherent client it has no cached body either,
    so a 304 answer for it is a cache miss rather than a stale hit.
   */
  lemma NoValidatorNoShortcut(st: CacheState, endpoint: string, params: Option<map<string, string>>,
                              respond: Request -> Reply)
    requires Coherent(st) && endpoint !in st.etags
    ensures var (req, st', outcome) := Fetch(st, endpoint, params, respond);
            req.ifNoneMatch.None? &&
            (respond(req).Reply? && respond(req).status == 304 ==> outcome == Raised(CacheMiss(endpoint)) && st' == st)
  {
  }

  /**
    In a coherent client a request that carried a validator is never answered
    by a cache miss: the cached body is there for the 304.
   */
  lemma ConditionalRequestNeverMisses(st: CacheState, endpoint: string, params: Option<map<string, string>>,
                                      respond: Request -> Reply)
    requires Coherent(st)
    ensures var (req, _, outcome) := Fetch(st, endpoint, params, respond);
            req.ifNoneMatch.Some? ==> outcome != Raised(CacheMiss(endpoint))
  {
  }

  /**
    The cache key is the endpoint alone: two requests that differ only in
    their query parameters and get the same reply leave the client in the
    same state with the same outcome.
   */
  lemma ParamsAreNotPartOfTheKey(st: CacheState, endpoint: string, p1: Option<map<string, string>>,
                                 p2: Option<map<string, string>>, respond: Request -> Reply)
    requires respond(RequestFor(st, endpoint, p1)) == respond(RequestFor(st, endpoint, p2))
    ensures Fetch(st, endpoint, p1, respond).1 == Fetch(st, endpoint, p2, respond).1
    ensures Fetch(st, endpoint, p1, respond).2 == Fetch(st, endpoint, p2, respond).2
  {
  }

  /**
    The defect of `HandleAsWritten`: starting from a fresh client, a 200 with
    validator "v1" and a body that is not JSON stores the validator alone; the
    next request is conditional, and the server's 304 for it ends in a
    `KeyError` although a validator was sent. `Handle` keeps the client
    coherent instead, so the same exchange never misses (see
    `ConditionalRequestNeverMisses`).
   */
  lemma AsWrittenLosesCoherence(endpoint: string)
    ensures var st1 := HandleAsWritten(CacheState(map[], map[]), endpoint, Reply(200, Some("v1"), None)).0;
            !Coherent(st1) &&
            RequestFor(st1, endpoint, None).ifNoneMatch == Some("v1") &&
            HandleAsWritten(st1, endpoint, Reply(304, None, None)).1 == Raised(CacheMiss(endpoint))
    ensures Coherent(Handle(CacheState(map[], map[]), endpoint, Reply(200, Some("v1"), None)).0)
  {
    var st1 := HandleAsWritten(CacheState(map[], map[]), endpoint, Reply(200, Some("v1"), None)).0;
    assert endpoint in st1.etags && endpoint !in st1.cache;
  }

  /** The endpoint paths of the four API calls. */
  function MapDataEndpoint(mapName: string): (e: string)
    ensures |e| == |mapName| + 20 && e[..5] == "maps/" && e[5..|e| - 15] == mapName && e[|e| - 15..] == "/dynamic/public"
  {
    "maps/" + mapName + "/dynamic/public"
  }

  function StaticMapDataEndpoint(mapName: string): (e: string)
    ensures |e| == |mapName| + 12 && e[..5] == "maps/" && e[5..|e| - 7] == mapName && e[|e| - 7..] == "/static"
  {
    "maps/" + mapName + "/static"
  }

  const WarEndpoint: string := "war"

  function WarReportEndpoint(mapName: string): (e: string)
    ensures |e| == |mapName| + 10 && e[..10] == "warReport/" && e[10..] == mapName
  {
    "warReport/" + mapName
  }

  /**
    The four endpoint families never share a cache key, and within a family
    different maps get different keys, so no two calls alias in the cache.
   */
  lemma EndpointsAreDistinct(m1: string, m2: string)
    ensures MapDataEndpoint(m1) == MapDataEndpoint(m2) ==> m1 == m2
    ensures StaticMapDataEndpoint(m1) == StaticMapDataEndpoint(m2) ==> m1 == m2
    ensures WarReportEndpoint(m1) == WarReportEndpoint(m2) ==> m1 == m2
    ensures MapDataEndpoint(m1) != StaticMapDataEndpoint(m2)
    ensures MapDataEndpoint(m1) != WarReportEndpoint(m2) && StaticMapDataEndpoint(m1) != WarReportEndpoint(m2)
    ensures MapDataEndpoint(m1) != WarEndpoint && StaticMapDataEndpoint(m1) != WarEndpoint
    ensures WarReportEndpoint(m1) != WarEndpoint
  {
    var d1, d2 := MapDataEndpoint(m1), MapDataEndpoint(m2);
    if d1 == d2 {
      assert m1 == d1[5..|d1| - 15] == d2[5..|d2| - 15] == m2;
    }
    var s1, s2 := StaticMapDataEndpoint(m1), StaticMapDataEndpoint(m2);
    if s1 == s2 {
      assert m1 == s1[5..|s1| - 7] == s2[5..|s2| - 7] == m2;
    }
    var w1, w2 := WarReportEndpoint(m1), WarReportEndpoint(m2);
    if w1 == w2 {
      assert m1 == w1[10..] == w2[10..] == m2;
    }
    assert d1[|d1| - 3] == 'l' && s2[|s2| - 3] == 't';
    assert d1[0] == 'm' && s1[0] == 'm' && w2[0] == 'w';
    assert |w1| >= 10 > |WarEndpoint|;
  }

  /**
    The client object: `etags` and `cache` are the two dictionaries the
    client updates in place.
   */
  class FoxholeApi {
    var etags: map<string, string>
    var cache: map<string, Json>

    ghost predicate Valid()
      reads this
    {
      Coherent(CacheState(etags, cache))
    }

    constructor ()
      ensures Valid() && etags == map[] && cache == map[]
    {
      etags := map[];
      cache := map[];
    }

    /**
      `_make_request`: sends the request (conditional when a validator is
      stored), then updates the two maps and returns or raises as `Handle`
      says.
     */
    method MakeRequest(endpoint: string, params: Option<map<string, string>>, respond: Request -> Reply)
      returns (sent: Request, outcome: Outcome)
      requires Valid()
      modifies this
      ensures Valid()
      ensures sent.ifNoneMatch.Some? <==> endpoint in old(etags)
      ensures sent.ifNoneMatch.Some? ==> sent.ifNoneMatch.value == old(etags)[endpoint]
      ensures sent == RequestFor(old(CacheState(etags, cache)), endpoint, params)
      ensures (CacheState(etags, cache), outcome) == Handle(old(CacheState(etags, cache)), endpoint, respond(sent))
    {
      sent := RequestFor(CacheState(etags, cache), endpoint, params);
      var reply := respond(sent);
      match reply {
        case NoReply =>
          outcome := Raised(Transport);
        case Reply(status, etag, body) =>
          if status == 304 {
            if endpoint in cache {
              outcome := Returned(cache[endpoint]);
            } else {
              outcome := Raised(CacheMiss(endpoint));
            }
          } else if status == 200 {
            if body.None? {
              outcome := Raised(DecodeError);
            } else {
              if etag.Some? {
                etags := etags[endpoint := etag.value];
                cache := cache[endpoint := body.value];
              }
              outcome := Returned(body.value);
            }
          } else if IsErrorStatus(status) {
            outcome := Raised(HttpError(status));
          } else {
            outcome := Returned(JNull);
          }
      }
    }

    /** `get_map_data`: the dynamic data of one map. */
    method GetMapData(mapName: string, respond: Request -> Reply) returns (sent: Request, outcome: Outcome)
      requires Valid()
      modifies this
      ensures Valid()
      ensures sent.url == BaseUrl + "/" + MapDataEndpoint(mapName) && sent.params.None?
      ensures sent == RequestFor(old(CacheState(etags, cache)), MapDataEndpoint(mapName), None)
      ensures (CacheState(etags, cache), outcome)
           == Handle(old(CacheState(etags, cache)), MapDataEndpoint(mapName), respond(sent))
    {
      sent, outcome := MakeRequest(MapDataEndpoint(mapName), None, respond);
    }

    /** `get_static_map_data`: the static labels of one map. */
    method GetStaticMapData(mapName: string, respond: Request -> Reply) returns (sent: Request, outcome: Outcome)
      requires Valid()
      modifies this
      ensures Valid()
      ensures sent.url == BaseUrl + "/" + StaticMapDataEndpoint(mapName) && sent.params.None?
      ensures sent == RequestFor(old(CacheState(etags, cache)), StaticMapDataEndpoint(mapName), None)
      ensures (CacheState(etags, cache), outcome)
           == Handle(old(CacheState(etags, cache)), StaticMapDataEndpoint(mapName), respond(sent))
    {
      sent, outcome := MakeRequest(StaticMapDataEndpoint(mapName), None, respond);
    }

    /** `get_war_data`: the state of the war as a whole. */
    method GetWarData(respond: Request -> Reply) returns (sent: Request, outcome: Outcome)
      requires Valid()
      modifies this
      ensures Valid()
      ensures sent.url == BaseUrl + "/" + WarEndpoint && sent.params.None?
      ensures sent == RequestFor(old(CacheState(etags, cache)), WarEndpoint, None)
      ensures (CacheState(etags, cache), outcome)
           == Handle(old(CacheState(etags, cache)), WarEndpoint, respond(sent))
    {
      sent, outcome := MakeRequest(WarEndpoint, None, respond);
    }

    /** `get_war_report`: the war report (casualties, enlistments) of one map. */
    method GetWarReport(mapName: string, respond: Request -> Reply) returns (sent: Request, outcome: Outcome)
      requires Valid()
      modifies this
      ensures Valid()
      ensures sent.url == BaseUrl + "/" + WarReportEndpoint(mapName) && sent.params.None?
      ensures sent == RequestFor(old(CacheState(etags, cache)), WarReportEndpoint(mapName), None)
      ensures (CacheState(etags, cache), outcome)
           == Handle(old(CacheState(etags, cache)), WarReportEndpoint(mapName), respond(sent))
    {
      sent, outcome := MakeRequest(WarReportEndpoint(mapName), None, respond);
    }
  }
}
