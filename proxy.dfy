/**
 * The forwarding path of proxy.py: the outbound request built from the inbound one, the
 * response mirrored back, and the status chosen for each exception the backend call raises.
 */
module Proxy {
  import opened Wrappers
  import opened Http
  import opened Clauses
  import opened Permits

  const ForwardedFor := "X-Forwarded-For"
  const ForwardedProto := "X-Forwarded-Proto"

  /** The value sent as `X-Forwarded-For`: the client host, or "unknown" without a client. */
  function ForwardedForValue(client: Option<string>): (v: string)
    ensures client.Some? ==> v == client.value
    ensures client.None? ==> v == "unknown"
  {
    if client.Some? then client.value else "unknown"
  }

  /**
   * The outbound headers: the inbound dictionary without "host", with the two forwarding
   * headers set. Every other entry passes through unchanged and nothing else is added.
   */
  function ForwardHeaders(inbound: Headers, client: Option<string>, scheme: string): (h: Headers)
    ensures "host" !in h
    ensures ForwardedFor in h && h[ForwardedFor] == ForwardedForValue(client)
    ensures ForwardedProto in h && h[ForwardedProto] == scheme
    ensures h.Keys == (inbound.Keys - {"host"}) + {ForwardedFor, ForwardedProto}
    ensures forall k :: k in inbound && k !in {"host", ForwardedFor, ForwardedProto} ==>
      k in h && h[k] == inbound[k]
  {
    (inbound - {"host"})[ForwardedFor := ForwardedForValue(client)][ForwardedProto := scheme]
  }

  /** The outbound URL relative to the backend: the path, then "?" and the query if there is one. */
  function Target(url: Url): (t: string)
    ensures |t| >= |url.path| && t[..|url.path|] == url.path
    ensures |t| == |url.path| <==> url.query == ""
  {
    if url.query != "" then url.path + "?" + url.query else url.path
  }

  /** How a receiver reads a target back: path up to the first "?", query after it. */
  function SplitTarget(t: string): (parts: (string, string))
    ensures '?' !in parts.0
  {
    if |t| == 0 then ("", "")
    else if t[0] == '?' then ("", t[1..])
    else
      var rest := SplitTarget(t[1..]);
      ([t[0]] + rest.0, rest.1)
  }

  /** Splitting a target "path?query" at its first "?" finds the path and the query again. */
  lemma {:induction false} SplitJoined(path: string, query: string)
    requires '?' !in path
    ensures SplitTarget(path + "?" + query) == (path, query)
  {
    if |path| > 0 {
      assert path[0] in path;
      assert forall c :: c in path[1..] ==> c in path;
      assert (path + "?" + query)[1..] == path[1..] + "?" + query;
      SplitJoined(path[1..], query);
      assert [path[0]] + path[1..] == path;
    } else {
      assert path + "?" + query == "?" + query;
    }
  }

  /** A path without "?" reaches the backend with the same path and query it arrived with. */
  lemma TargetRoundTrip(url: Url)
    requires '?' !in url.path
    ensures SplitTarget(Target(url)) == (url.path, url.query)
  {
    if url.query != "" {
      SplitJoined(url.path, url.query);
    } else {
      NoQuestionMark(url.path);
    }
  }

  lemma {:induction false} NoQuestionMark(path: string)
    requires '?' !in path
    ensures SplitTarget(path) == (path, "")
  {
    if |path| > 0 {
      assert path[0] in path;
      assert forall c :: c in path[1..] ==> c in path;
      NoQuestionMark(path[1..]);
      assert [path[0]] + path[1..] == path;
    }
  }

  /** A target with a "?" is its path part, the "?", then its query part; one without is all path. */
  lemma {:induction false} SplitTargetShape(t: string)
    ensures '?' in t ==> |SplitTarget(t).0| < |t| && t == SplitTarget(t).0 + "?" + SplitTarget(t).1
    ensures '?' !in t ==> SplitTarget(t) == (t, "")
  {
    if |t| > 0 && t[0] != '?' {
      assert t == [t[0]] + t[1..];
      assert '?' in t <==> '?' in t[1..];
      SplitTargetShape(t[1..]);
    } else if |t| > 0 {
      assert t == "" + "?" + t[1..];
    }
  }

  /** Text after the first "?" only lengthens the query part. */
  lemma {:induction false} SplitExtends(t: string, x: string)
    requires '?' in t
    ensures SplitTarget(t + x) == (SplitTarget(t).0, SplitTarget(t).1 + x)
  {
    assert (t + x)[0] == t[0];
    if t[0] == '?' {
      assert (t + x)[1..] == t[1..] + x;
    } else {
      assert (t + x)[1..] == t[1..] + x;
      assert '?' in t[1..] by {
        var i :| 0 <= i < |t| && t[i] == '?';
        assert t[1..][i - 1] == '?';
      }
      SplitExtends(t[1..], x);
    }
  }

  /**
   * A path that itself holds a "?" is not recovered: the receiver cuts the
   * path at its first "?", so it sees a shorter path, and a longer query when there was one.
   */
  lemma DecodedQuestionMarkMoves(url: Url)
    requires '?' in url.path
    ensures SplitTarget(Target(url)) != (url.path, url.query)
    ensures SplitTarget(Target(url)).0 == SplitTarget(url.path).0
    ensures |SplitTarget(Target(url)).0| < |url.path|
    ensures url.query != "" ==> |SplitTarget(Target(url)).1| > |url.query|
  {
    var suffix := if url.query != "" then "?" + url.query else "";
    assert Target(url) == url.path + suffix;
    SplitExtends(url.path, suffix);
    SplitTargetShape(url.path);
  }

  /** The outbound request: method and body verbatim, target and headers rewritten. */
  function OutboundFor(req: Request): (o: Outbound)
    ensures o.verb == req.verb && o.body == req.body
    ensures o.target == Target(req.url)
    ensures o.headers == ForwardHeaders(req.headers, req.client, req.url.scheme)
  {
    Outbound(req.verb, Target(req.url), ForwardHeaders(req.headers, req.client, req.url.scheme), req.body)
  }

  /**
   * Nothing but the three rewritten keys changes: with "host" and the two forwarding headers
   * set aside, the outbound headers are the inbound ones.
   */
  lemma OutboundKeepsOtherHeaders(req: Request)
    ensures OutboundFor(req).headers - {"host", ForwardedFor, ForwardedProto}
         == req.headers - {"host", ForwardedFor, ForwardedProto}
  {
    var touched := {"host", ForwardedFor, ForwardedProto};
    var h := OutboundFor(req).headers;
    assert (h - touched).Keys == (req.headers - touched).Keys;
  }

  /**
   * The response returned for a backend answer: status, content and headers mirrored, media
   * type the backend's "Content-Type", or "application/json" when it sent none.
   */
  function Mirror(b: BackendResponse): (r: Response)
    ensures r.status == b.status && r.content == b.content && r.headers == b.headers
    ensures "Content-Type" in b.headers ==> r.mediaType == b.headers["Content-Type"]
    ensures "Content-Type" !in b.headers ==> r.mediaType == "application/json"
  {
    var mediaType := if "Content-Type" in b.headers then b.headers["Content-Type"] else "application/json";
    Response(b.status, b.content, b.headers, mediaType)
  }

  /** The `except` clauses around the forward, in source order. */
  const ProxyChain := [RequestErrorClass, TimeoutClass, AnyException]

  /** The error each of those clauses raises, in the same order. */
  const ProxyErrors := [
    HttpError(503, "Backend service unavailable"),
    HttpError(504, "Gateway timeout"),
    HttpError(500, "Internal Gateway error")]

  /** The error raised for an exception during the forward. */
  function ErrorFor(f: Fault): (e: HttpError)
    ensures e.status in {500, 503, 504}
  {
    if f.isRequestError then ProxyErrors[0]
    else if f.isTimeout then ProxyErrors[1]
    else ProxyErrors[2]
  }

  /** `ErrorFor` is the error of the first clause in the chain that handles the exception. */
  lemma ErrorForFollowsChain(f: Fault)
    ensures FirstMatch(ProxyChain, f) < |ProxyErrors|
    ensures ErrorFor(f) == ProxyErrors[FirstMatch(ProxyChain, f)]
  {
    var i := FirstMatch(ProxyChain, f);
    CatchAllHandles(ProxyChain, f);
    if f.isRequestError {
      assert Matches(ProxyChain[0], f);
    } else if f.isTimeout {
      assert !Matches(ProxyChain[0], f) && Matches(ProxyChain[1], f);
    } else {
      assert !Matches(ProxyChain[0], f) && !Matches(ProxyChain[1], f);
    }
  }

  /** The three statuses, stated by exception kind. */
  lemma ErrorStatusByKind(f: Fault)
    ensures ErrorFor(f).status == 503 <==> f.isRequestError
    ensures ErrorFor(f).status == 504 <==> !f.isRequestError && f.isTimeout
    ensures ErrorFor(f).status == 500 <==> !f.isRequestError && !f.isTimeout
  {
  }

  /**
   * A timeout that is also a request error is handled by the first clause: if every timeout
   * is a request error, no exception is answered with 504.
   */
  lemma TimeoutShadowedByRequestError(f: Fault)
    requires f.isTimeout ==> f.isRequestError
    ensures ErrorFor(f).status != 504
  {
  }

  /** The `except` clauses with the timeout clause first, so that it is not shadowed. */
  const CorrectedChain := [TimeoutClass, RequestErrorClass, AnyException]

  /** The errors of the corrected chain, in its order. */
  const CorrectedErrors := [ProxyErrors[1], ProxyErrors[0], ProxyErrors[2]]

  /**
   * The mapping the clauses are evidently meant to give: a timeout is answered 504 even when it
   * is also a request error; any other request error 503; anything else 500.
   */
  function ErrorForCorrected(f: Fault): (e: HttpError)
    ensures f.isTimeout ==> e.status == 504
    ensures !f.isTimeout && f.isRequestError ==> e.status == 503
    ensures !f.isTimeout && !f.isRequestError ==> e.status == 500
  {
    if f.isTimeout then ProxyErrors[1]
    else if f.isRequestError then ProxyErrors[0]
    else ProxyErrors[2]
  }

  /** `ErrorForCorrected` is the error of the first clause of the reordered chain that handles the exception. */
  lemma CorrectedFollowsChain(f: Fault)
    ensures FirstMatch(CorrectedChain, f) < |CorrectedErrors|
    ensures ErrorForCorrected(f) == CorrectedErrors[FirstMatch(CorrectedChain, f)]
  {
    CatchAllHandles(CorrectedChain, f);
    if f.isTimeout {
      assert Matches(CorrectedChain[0], f);
    } else if f.isRequestError {
      assert !Matches(CorrectedChain[0], f) && Matches(CorrectedChain[1], f);
    } else {
      assert !Matches(CorrectedChain[0], f) && !Matches(CorrectedChain[1], f);
    }
  }

  /** The correction changes the answer exactly for a timeout that is also a request error. */
  lemma CorrectionOnlyMovesTimeouts(f: Fault)
    ensures ErrorFor(f) != ErrorForCorrected(f) <==> f.isTimeout && f.isRequestError
  {
  }

  /** What one forward produced: the request sent to the backend, if any, and the result. */
  datatype ProxyResult = ProxyResult(sent: Option<Outbound>, response: Result<Response, HttpError>)

  /**
   * One forward, corrected: the log line is guarded like the header it builds, so the outbound
   * request is always sent; the result mirrors the backend's answer, or maps its exception with
   * the timeout clause first.
   */
  function Forward(req: Request, reply: BackendReply): (r: ProxyResult)
    ensures r.sent == Some(OutboundFor(req))
    ensures reply.Replied? ==> r.response == Ok(Mirror(reply.response))
    ensures reply.Failed? ==> r.response == Err(ErrorForCorrected(reply.fault))
    ensures reply.Replied? ==> r.response.value.status == reply.response.status
    ensures r.response.Err? ==> r.response.error.status in {500, 503, 504}
  {
    var sent := Some(OutboundFor(req));
    match reply
    case Replied(b) => ProxyResult(sent, Ok(Mirror(b)))
    case Failed(f) => ProxyResult(sent, Err(ErrorForCorrected(f)))
  }

  /** The exception `None.host` raises: not a request error, not a timeout. */
  const NoClientFault := Fault(false, false, false, 0, "'NoneType' object has no attribute 'host'")

  /**
   * One forward as written: the log line reads the client's host without a guard, so a request
   * without a client fails there, before anything is sent, and the catch-all clause answers it;
   * the backend's exceptions go through the clauses in source order.
   */
  function ForwardAsWritten(req: Request, reply: BackendReply): (r: ProxyResult)
    ensures req.client.Some? ==> r.sent == Some(OutboundFor(req))
    ensures req.client.Some? && reply.Failed? ==> r.response == Err(ErrorFor(reply.fault))
    ensures req.client.Some? && !(reply.Failed? && reply.fault.isTimeout && reply.fault.isRequestError)
      ==> r == Forward(req, reply)
  {
    if req.client.None? then ProxyResult(None, Err(ErrorFor(NoClientFault)))
    else
      var sent := Some(OutboundFor(req));
      match reply
      case Replied(b) => ProxyResult(sent, Ok(Mirror(b)))
      case Failed(f) => ProxyResult(sent, Err(ErrorFor(f)))
  }

  /** As written, a request without a client never reaches the backend and is answered 500. */
  lemma NoClientFailsAsWritten(req: Request, reply: BackendReply)
    requires req.client.None?
    ensures ForwardAsWritten(req, reply).sent.None?
    ensures ForwardAsWritten(req, reply).response == Err(HttpError(500, "Internal Gateway error"))
  {
  }

  /** Corrected, a request without a client is forwarded with `X-Forwarded-For: unknown`. */
  lemma NoClientForwardedAsUnknown(req: Request, reply: BackendReply)
    requires req.client.None?
    ensures Forward(req, reply).sent.Some?
    ensures Forward(req, reply).sent.value.headers[ForwardedFor] == "unknown"
  {
  }

  /**
   * The two versions differ exactly on requests without a client and on backend timeouts that
   * are also request errors.
   */
  lemma AsWrittenDiffers(req: Request, reply: BackendReply)
    ensures ForwardAsWritten(req, reply) != Forward(req, reply) <==>
      req.client.None? || (reply.Failed? && reply.fault.isTimeout && reply.fault.isRequestError)
  {
    if req.client.Some? && reply.Failed? {
      CorrectionOnlyMovesTimeouts(reply.fault);
    }
  }

  /**
   * `forward_proxy` as written: holds one permit of the pool for the whole forward, builds the
   * outbound request step by step, then logs the client's host without a guard, so a request
   * without a client fails there and nothing is sent. Otherwise the backend's answer is
   * mirrored or its exception mapped in source clause order. The backend call itself is the
   * input `reply`. Every way out gives the permit back.
   */
  method ForwardProxy(pool: PermitPool, req: Request, reply: BackendReply) returns (r: ProxyResult)
    requires pool.Valid() && pool.permits > 0
    modifies pool
    ensures pool.Valid() && pool.permits == old(pool.permits)
    ensures pool.trace == old(pool.trace) + [Enter, Exit]
    ensures r == ForwardAsWritten(req, reply)
  {
    pool.Acquire();
    var urlPath := req.url.path;
    var verb := req.verb;
    var headers := req.headers;
    headers := headers - {"host"};
    var data := req.body;
    if req.url.query != "" {
      urlPath := urlPath + "?" + req.url.query;
    }
    headers := headers[ForwardedFor := if req.client.Some? then req.client.value else "unknown"];
    headers := headers[ForwardedProto := req.url.scheme];
    if req.client.None? {
      r := ProxyResult(None, Err(ErrorFor(NoClientFault)));
    } else {
      var outbound := Outbound(verb, urlPath, headers, data);
      match reply {
        case Replied(b) =>
          r := ProxyResult(Some(outbound), Ok(Mirror(b)));
        case Failed(f) =>
          r := ProxyResult(Some(outbound), Err(ErrorFor(f)));
      }
    }
    pool.Release();
  }
}
