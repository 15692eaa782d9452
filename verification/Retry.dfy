/** The retry budget carried in a message header. */
module Retry {
  /** A header value as the client library decodes it. */
  datatype Value = Int(n: int) | Int32(n: int) | Int64(n: int) | Float(x: real) | Other(text: string)

  type Headers = map<string, Value>

  const RETRY_COUNT := "x-retry-count"
  const MAX_RETRIES := 3

  datatype Route = ToRetry | ToDeadLetter

  /** Conversion to a 32-bit integer, which wraps around. */
  function ToInt32(n: int): int {
    (n + 0x8000_0000) % 0x1_0000_0000 - 0x8000_0000
  }

  /** Conversion of a float to an integer, which drops the fraction. */
  function Truncate(x: real): int {
    if x >= 0.0 then x.Floor else -((-x).Floor)
  }

  function RetryCount(h: Headers): int {
    if RETRY_COUNT !in h then 0
    else
      match h[RETRY_COUNT]
      case Int(n) => n
      case Int32(n) => n
      case Int64(n) => n
      case Float(x) => Truncate(x)
      case Other(_) => 0
  }

  function RetryDecision(retries: int): (Route, int) {
    if retries < MAX_RETRIES then (ToRetry, retries + 1) else (ToDeadLetter, retries)
  }

  /** Where a failed message goes next, and with which headers. */
  function FailedRoute(h: Headers): (Route, Headers) {
    var (route, next) := RetryDecision(RetryCount(h));
    (route, if route.ToRetry? then h[RETRY_COUNT := Int32(ToInt32(next))] else h)
  }

  method CloneHeaders(h: Headers) returns (out: Headers)
    ensures out == h
  {
    out := map[];
    var left := h.Keys;
    while left != {}
      invariant left <= h.Keys
      invariant out == map k | k in h && k !in left :: h[k]
      decreases |left|
    {
      var k :| k in left;
      out := out[k := h[k]];
      left := left - {k};
    }
  }

  method FailedMessageRoute(h: Headers) returns (route: Route, headers: Headers)
    ensures (route, headers) == FailedRoute(h)
  {
    var retries := RetryCount(h);
    var next;
    if retries < MAX_RETRIES {
      route, next := ToRetry, retries + 1;
    } else {
      route, next := ToDeadLetter, retries;
    }
    headers := h;
    if route == ToRetry {
      headers := CloneHeaders(h);
      headers := headers[RETRY_COUNT := Int32(ToInt32(next))];
    }
  }

  /** The least count whose successor still fits the 32-bit header. */
  const LEAST_COUNT := -0x8000_0001

  /** The headers of a message that has failed `n` times in a row. */
  function AfterFailures(h: Headers, n: nat): Headers {
    if n == 0 then h else FailedRoute(AfterFailures(h, n - 1)).1
  }

  /** A message that starts with count `r` is retried until the count is MAX_RETRIES and then
      goes to the dead-letter queue, at its failure number MAX_RETRIES - r + 1; with no count
      header that is the fourth. No other header ever changes. */
  lemma {:induction false} RetryBudget(h: Headers, n: nat)
    requires RetryCount(h) >= LEAST_COUNT
    ensures var r := RetryCount(h);
            var g := AfterFailures(h, n);
            && RetryCount(g) == (if r + n <= MAX_RETRIES then r + n else if r < MAX_RETRIES then MAX_RETRIES else r)
            && (FailedRoute(g).0.ToDeadLetter? <==> r + n >= MAX_RETRIES)
            && g.Keys - {RETRY_COUNT} == h.Keys - {RETRY_COUNT}
            && (forall k | k in h && k != RETRY_COUNT :: k in g && g[k] == h[k])
  {
    if n > 0 {
      RetryBudget(h, n - 1);
    }
  }

  /** A message published without a count is retried three times, and its fourth failure is final. */
  lemma FourthFailureIsFinal(h: Headers, n: nat)
    requires RETRY_COUNT !in h
    ensures FailedRoute(AfterFailures(h, n)).0.ToDeadLetter? <==> n >= 3
  {
    RetryBudget(h, n);
  }

  /** A retry raises the count by one exactly from that count on; the header of a lower one
      wraps around in 32 bits. */
  lemma CountRisesUnlessItWraps(h: Headers)
    requires RetryCount(h) < MAX_RETRIES
    ensures FailedRoute(h).0.ToRetry?
    ensures RetryCount(FailedRoute(h).1) == RetryCount(h) + 1 <==> RetryCount(h) >= LEAST_COUNT
  {
  }

  /** One below it, the count jumps to the top of the range, and the message goes to the
      dead-letter queue after a single retry instead of billions. */
  lemma CountBelowRangeWraps(h: Headers)
    requires RetryCount(h) == LEAST_COUNT - 1
    ensures FailedRoute(h).0.ToRetry?
    ensures FailedRoute(FailedRoute(h).1).0.ToDeadLetter?
  {
  }
}
