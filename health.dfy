/**
 * The status strings of the gateway's health endpoint and the overall status computed from
 * them by case-sensitive substring tests.
 */
module Health {
  import opened Http
  import opened Text

  /** What pinging the shared store gave: no client, a reply, or an exception (`str(e)`). */
  datatype RedisProbe = NotInitialized | PingOk | PingFailed(message: string)

  /** What asking the backend's health route gave: a success status, or an exception. */
  datatype BackendProbe = Healthy | ProbeFailed(fault: Fault)

  /** `redis_status` after the probe; a ping's exception text is kept verbatim after the prefix. */
  function RedisStatusText(p: RedisProbe): (s: string)
    ensures p.PingFailed? ==> |s| >= 14 && s[..14] == "Disconnected: " && s[14..] == p.message
  {
    match p
    case PingOk => "Connected"
    case NotInitialized => "Not Initialized"
    case PingFailed(e) => "Disconnected" + ": " + e
  }

  /** The text kept for a backend that answered with an error status. */
  function StatusErrorText(code: int): (s: string)
    ensures |s| > 34 && s[|s| - 1] == ')'
  {
    "Connected" + " (backend error status: " + DecimalString(code) + ")"
  }

  /** The status code can be read back from between the prefix and the closing parenthesis. */
  lemma StatusCodeReadBack(code: int)
    ensures IsDecimal(StatusErrorText(code)[33..|StatusErrorText(code)| - 1])
    ensures ParseDecimal(StatusErrorText(code)[33..|StatusErrorText(code)| - 1]) == code
  {
    var s := StatusErrorText(code);
    assert s[33..|s| - 1] == DecimalString(code);
  }

  /**
   * `backend_status` after the probe: the `except` clauses tried in order, connection errors
   * first, then error statuses, then anything else.
   */
  function BackendStatusText(p: BackendProbe): (s: string)
    ensures p.ProbeFailed? && p.fault.isRequestError ==> |s| >= 33 && s[33..] == p.fault.message
    ensures p.ProbeFailed? && !p.fault.isRequestError && p.fault.isStatusError ==>
      s == StatusErrorText(p.fault.statusCode)
    ensures p.ProbeFailed? && !p.fault.isRequestError && !p.fault.isStatusError ==>
      |s| >= 7 && s[7..] == p.fault.message
  {
    match p
    case Healthy => "Connected"
    case ProbeFailed(f) =>
      if f.isRequestError then "Disconnected" + " (connection error): " + f.message
      else if f.isStatusError then StatusErrorText(f.statusCode)
      else "Error" + ": " + f.message
  }

  /** The overall status computed from the two status strings. */
  function OverallStatus(redisStatus: string, backendStatus: string): (r: string)
    ensures r in {"OK", "DEGRADED", "UNHEALTHY"}
  {
    if Contains(redisStatus, "Disconnected") || Contains(backendStatus, "Disconnected")
       || Contains(backendStatus, "Error")
    then
      if Contains(redisStatus, "Connected") || Contains(backendStatus, "Connected")
      then "DEGRADED" else "UNHEALTHY"
    else "OK"
  }

  // The same classification stated on the probe outcomes rather than on the strings.

  /** The backend probe failed to reach the backend or failed unexpectedly. */
  predicate BackendDown(p: BackendProbe) {
    p.ProbeFailed? && (p.fault.isRequestError || !p.fault.isStatusError)
  }

  /**
   * The overall status by probe outcome: OK unless the store ping raised or the backend is
   * down; then DEGRADED when the other side is up (the store answered its ping, or the
   * backend answered at all) or an exception message itself says "Connected", else UNHEALTHY.
   */
  function ExpectedStatus(redis: RedisProbe, backend: BackendProbe): string {
    if !redis.PingFailed? && !BackendDown(backend) then "OK"
    else if redis.PingOk? || !BackendDown(backend)
         || (redis.PingFailed? && Contains(redis.message, "Connected"))
         || (BackendDown(backend) && Contains(backend.fault.message, "Connected"))
    then "DEGRADED"
    else "UNHEALTHY"
  }

  /** "Connected" says "Connected" and holds neither failure marker. */
  lemma ConnectedTextMarkers()
    ensures Contains("Connected", "Connected")
    ensures !Contains("Connected", "Disconnected")
    ensures !Contains("Connected", "Error")
  {
    assert "Connected" + "" == "Connected";
    PrefixContains("Connected", "");
    AbsentFirstChar("Connected", "Disconnected");
    AbsentFirstChar("Connected", "Error");
  }

  /** "Not Initialized" holds neither marker: it has no upper-case C or D. */
  lemma NotInitializedLacks(pat: string)
    requires pat == "Disconnected" || pat == "Connected"
    ensures !Contains("Not Initialized", pat)
  {
    AbsentFirstChar("Not Initialized", pat);
  }

  /**
   * A failure text `marker + tail + message` holds its marker, and says "Connected" exactly
   * when the message does, as long as marker and tail have no upper-case C.
   */
  lemma FailureTextMarkers(marker: string, tail: string, message: string)
    requires 'C' !in marker + tail
    ensures Contains(marker + tail + message, marker)
    ensures Contains(marker + tail + message, "Connected") <==> Contains(message, "Connected")
  {
    assert marker + tail + message == marker + (tail + message);
    PrefixContains(marker, tail + message);
    SkipPrefix(marker + tail, message, "Connected");
  }

  /** The store's status string carries the failure marker exactly when its ping raised. */
  lemma RedisTextMarkers(p: RedisProbe)
    ensures Contains(RedisStatusText(p), "Disconnected") <==> p.PingFailed?
    ensures Contains(RedisStatusText(p), "Connected") <==>
      p.PingOk? || (p.PingFailed? && Contains(p.message, "Connected"))
  {
    match p {
      case PingOk =>
        ConnectedTextMarkers();
      case NotInitialized =>
        NotInitializedLacks("Disconnected");
        NotInitializedLacks("Connected");
      case PingFailed(e) =>
        FailureTextMarkers("Disconnected", ": ", e);
    }
  }

  /** An error-status text says "Connected" and carries no failure marker, whatever the code. */
  lemma StatusErrorTextMarkers(code: int)
    ensures Contains(StatusErrorText(code), "Connected")
    ensures !Contains(StatusErrorText(code), "Disconnected")
    ensures !Contains(StatusErrorText(code), "Error")
  {
    var digits := DecimalString(code);
    var rest := " (backend error status: " + digits + ")";
    assert StatusErrorText(code) == "Connected" + rest;
    assert 'D' !in digits && 'E' !in digits;
    assert 'D' !in rest && 'E' !in rest;
    assert 'D' !in "Connected" && 'E' !in "Connected";
    AbsentFirstChar("Connected" + rest, "Disconnected");
    AbsentFirstChar("Connected" + rest, "Error");
    PrefixContains("Connected", rest);
  }

  /**
   * The backend's status string carries a failure marker exactly when the backend is down,
   * and says "Connected" when it answered or when the exception message says so.
   */
  lemma BackendTextMarkers(p: BackendProbe)
    ensures Contains(BackendStatusText(p), "Disconnected") || Contains(BackendStatusText(p), "Error")
        <==> BackendDown(p)
    ensures Contains(BackendStatusText(p), "Connected") <==>
      !BackendDown(p) || Contains(p.fault.message, "Connected")
  {
    match p {
      case Healthy =>
        ConnectedTextMarkers();
      case ProbeFailed(f) =>
        if f.isRequestError {
          FailureTextMarkers("Disconnected", " (connection error): ", f.message);
        } else if f.isStatusError {
          StatusErrorTextMarkers(f.statusCode);
        } else {
          FailureTextMarkers("Error", ": ", f.message);
        }
    }
  }

  /** The string-based classifier agrees with the classification by probe outcome. */
  lemma HealthMatrix(redis: RedisProbe, backend: BackendProbe)
    ensures OverallStatus(RedisStatusText(redis), BackendStatusText(backend)) == ExpectedStatus(redis, backend)
  {
    RedisTextMarkers(redis);
    BackendTextMarkers(backend);
  }

  /** A backend that answers with an error status does not lower a connected store's OK. */
  lemma ErrorStatusStaysOk(f: Fault)
    requires !f.isRequestError && f.isStatusError
    ensures OverallStatus(RedisStatusText(PingOk), BackendStatusText(ProbeFailed(f))) == "OK"
  {
    HealthMatrix(PingOk, ProbeFailed(f));
  }

  /** A store client that was never initialised decides OK exactly as a connected store does. */
  lemma NotInitializedDoesNotDegrade(backend: BackendProbe)
    ensures OverallStatus(RedisStatusText(NotInitialized), BackendStatusText(backend)) == "OK"
        <==> OverallStatus(RedisStatusText(PingOk), BackendStatusText(backend)) == "OK"
  {
    HealthMatrix(NotInitialized, backend);
    HealthMatrix(PingOk, backend);
  }

  /**
   * With both dependencies failing and neither message saying "Connected", the gateway is
   * UNHEALTHY; with one of them answering it is DEGRADED.
   */
  lemma BothDownUnhealthy(e: string, f: Fault)
    requires f.isRequestError || !f.isStatusError
    requires !Contains(e, "Connected") && !Contains(f.message, "Connected")
    ensures OverallStatus(RedisStatusText(PingFailed(e)), BackendStatusText(ProbeFailed(f))) == "UNHEALTHY"
    ensures OverallStatus(RedisStatusText(PingOk), BackendStatusText(ProbeFailed(f))) == "DEGRADED"
    ensures OverallStatus(RedisStatusText(PingFailed(e)), BackendStatusText(Healthy)) == "DEGRADED"
  {
    HealthMatrix(PingFailed(e), ProbeFailed(f));
    HealthMatrix(PingOk, ProbeFailed(f));
    HealthMatrix(PingFailed(e), Healthy);
  }
}
