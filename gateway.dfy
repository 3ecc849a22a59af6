/**
 * The gateway process of main.py: its two request counters, the rate-limit check that only
 * counts, the catch-all route that forwards, and the health report.
 */
module Gateway {
  import opened Wrappers
  import opened Http
  import opened Permits
  import opened Proxy
  import opened Health

  /** The counters the health report exposes, as read at the time of the report. */
  datatype MetricsSnapshot = MetricsSnapshot(totalRequestsProcessed: nat, totalRequestsBlocked: nat)

  /** The body of the health endpoint's answer. */
  datatype HealthReport = HealthReport(
    status: string,
    redisStatus: string,
    backendStatus: string,
    metrics: MetricsSnapshot)

  /** The framework's answer to an exception the route does not handle. */
  const UnhandledError := HttpError(500, "Internal Server Error")

  /** The process-wide state of main.py: its two counters. */
  class GatewayState {
    var totalRequestsProcessed: nat
    var totalRequestsBlocked: nat

    /** Nothing ever blocks a request, so the blocked counter stays at its initial zero. */
    ghost predicate Valid()
      reads this
    {
      totalRequestsBlocked == 0
    }

    constructor ()
      ensures Valid() && totalRequestsProcessed == 0 && totalRequestsBlocked == 0
    {
      totalRequestsProcessed := 0;
      totalRequestsBlocked := 0;
    }

    /**
     * `is_rate_limited`: counts the request as processed and admits it. The counting window
     * the name promises does not exist, so the answer is always "not limited".
     */
    method IsRateLimited(clientIp: string) returns (limited: bool)
      requires Valid()
      modifies this
      ensures Valid()
      ensures !limited
      ensures totalRequestsProcessed == old(totalRequestsProcessed) + 1
      ensures totalRequestsBlocked == old(totalRequestsBlocked)
    {
      totalRequestsProcessed := totalRequestsProcessed + 1;
      limited := false;
    }

    /**
     * `catch_all_proxy`: reads the client's host, runs the rate-limit check and forwards.
     * Without a client, reading its host raises before anything else happens, and the
     * framework answers 500. The backend's answer to the forward is the input `reply`.
     */
    method CatchAllProxy(pool: PermitPool, req: Request, reply: BackendReply) returns (r: ProxyResult)
      requires Valid() && pool.Valid() && pool.capacity == MaxConcurrentRequests
      requires req.client.Some? ==> pool.permits > 0
      modifies this, pool
      ensures Valid() && pool.Valid() && pool.permits == old(pool.permits)
      ensures pool.trace == old(pool.trace) + (if req.client.Some? then [Enter, Exit] else [])
      ensures totalRequestsBlocked == old(totalRequestsBlocked)
      ensures req.client.None? ==>
        totalRequestsProcessed == old(totalRequestsProcessed) && r == ProxyResult(None, Err(UnhandledError))
      ensures req.client.Some? ==>
        totalRequestsProcessed == old(totalRequestsProcessed) + 1 && r == ForwardAsWritten(req, reply)
    {
      if req.client.None? {
        return ProxyResult(None, Err(UnhandledError));
      }
      var clientIp := req.client.value;
      var limited := IsRateLimited(clientIp);
      if limited {
        return ProxyResult(None, Err(HttpError(429, "Too Many Requests")));
      }
      r := ForwardProxy(pool, req, reply);
    }

    /**
     * `health_check`: the status strings of the two probes, the overall status they give, and
     * the counters exactly as they stand. It changes nothing.
     */
    method HealthCheck(redis: RedisProbe, backend: BackendProbe) returns (report: HealthReport)
      requires Valid()
      ensures report.redisStatus == RedisStatusText(redis)
      ensures report.backendStatus == BackendStatusText(backend)
      ensures report.status == ExpectedStatus(redis, backend)
      ensures report.metrics.totalRequestsProcessed == totalRequestsProcessed
      ensures report.metrics.totalRequestsBlocked == 0
    {
      var redisStatus := RedisStatusText(redis);
      var backendStatus := BackendStatusText(backend);
      var overallStatus := OverallStatus(redisStatus, backendStatus);
      HealthMatrix(redis, backend);
      report := HealthReport(overallStatus, redisStatus, backendStatus,
        MetricsSnapshot(totalRequestsProcessed, totalRequestsBlocked));
    }
  }
}
