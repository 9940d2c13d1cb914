/**
 * The transport half of util.py: one POST per attempt, classification of
 * the outcome, retry with exponential backoff and jitter, the session reset
 * after a failed attempt, and redaction of credential headers in the
 * request record handed back to the caller.
 *
 * The network and the random source are oracles: `net(k)` is what the k-th
 * POST of the process produced and `rand(k)` is the k-th `random.random()`
 * draw. `fatal` (a process exit) and the raised `UnauthorizedException` are
 * error results.
 */
module Http {
  import opened Wrappers
  import opened Json

  const MAX_RETRIES: nat := 20
  const REDACTED: string := "REDACTED"

  /** The four credential-bearing header names redacted on the way out (util.py:269-279). */
  const SECRET_HEADERS: set<string> := {"x-api-key", "Authorization", "api-key", "X-goog-api-key"}

  /**
   * What one `session.post` produced: no response at all (an exception), or
   * a status code with its body; `body` is the decoded JSON, None when
   * `response.json()` would fail.
   */
  datatype Outcome = Absent | Status(code: int, bodyIsBlank: bool, body: Option<Json>)

  /** A reply whose text is empty or only whitespace is treated as no reply, whatever its status. */
  function Received(o: Outcome): (r: Outcome)
    ensures r.Absent? <==> o.Absent? || o.bodyIsBlank
    ensures r.Status? ==> r == o && !r.bodyIsBlank
  {
    if o.Status? && o.bodyIsBlank then Absent else o
  }

  /** 429 Too Many Requests (section 4 of RFC 6585). */
  predicate IsRateLimited(code: int) { code == 429 }

  /** 500 Internal Server Error (section 15.6.1 of RFC 9110). */
  predicate IsServerError(code: int) { code == 500 }

  /** 502 Bad Gateway, 503 Service Unavailable (sections 15.6.3 and 15.6.4 of RFC 9110), and the vendor codes 524 and 529. */
  predicate IsGatewayError(code: int) { code == 502 || code == 503 || code == 524 || code == 529 }

  predicate IsContinuable(o: Outcome)
    ensures IsContinuable(o) <==> o.Absent? || o.code in {429, 500, 502, 503, 524, 529}
  {
    o.Absent? || IsRateLimited(o.code) || IsServerError(o.code) || IsGatewayError(o.code)
  }

  /** The four ways an attempt can end. */
  datatype Class = Success | AuthRejected | Continuable | Fatal

  function Classify(o: Outcome): (c: Class)
    ensures c == Continuable <==> IsContinuable(o)
    ensures c == Success <==> o.Status? && o.code == 200
    ensures c == AuthRejected <==> o.Status? && o.code == 401
    ensures c == Fatal <==> o.Status? && o.code !in {200, 401, 429, 500, 502, 503, 524, 529}
  {
    if IsContinuable(o) then Continuable
    else if o.code == 200 then Success
    else if o.code == 401 then AuthRejected
    else Fatal
  }

  function Pow2(n: nat): (r: nat)
    ensures r >= 1
  {
    if n == 0 then 1 else 2 * Pow2(n - 1)
  }

  lemma {:induction false} Pow2Monotone(m: nat, n: nat)
    requires m <= n
    ensures Pow2(m) <= Pow2(n)
    decreases n - m
  {
    if m < n {
      Pow2Monotone(m, n - 1);
    }
  }

  /** `min(initial_delay * factor ** retry_count, max_delay)` with the defaults 5, 2 and 300 (util.py:125). */
  function BaseDelay(r: nat): (d: nat)
    ensures 5 <= d <= 300
  {
    if 5 * Pow2(r) < 300 then 5 * Pow2(r) else 300
  }

  /** The base delay doubles from 5 s up to 160 s at r = 5 and is capped at 300 s from r = 6 on. */
  lemma BaseDelaySchedule(r: nat)
    ensures r <= 5 ==> BaseDelay(r) == 5 * Pow2(r) && BaseDelay(r) <= 160
    ensures r >= 6 ==> BaseDelay(r) == 300
  {
    if r <= 5 {
      Pow2Monotone(r, 5);
    } else {
      Pow2Monotone(6, r);
    }
  }

  /**
   * `exponential_backoff(r)` when `random.uniform(0, 0.1 * delay)` returns
   * `0.1 * delay * u`, that is when the underlying `random.random()` draw is u.
   */
  function Backoff(r: nat, u: real): (d: real)
    requires 0.0 <= u <= 1.0
    ensures BaseDelay(r) as real <= d <= 1.1 * BaseDelay(r) as real
    ensures d <= 330.0
  {
    var base := BaseDelay(r) as real;
    Jittered(base, u)
  }

  /** `base` plus a jitter of the fraction u of a tenth of it, within [base, 1.1 * base]. */
  function Jittered(base: real, u: real): (d: real)
    requires 0.0 <= base && 0.0 <= u <= 1.0
    ensures base <= d <= 1.1 * base
  {
    var spread := 0.1 * base;
    ScaledDown(spread, u);
    base + spread * u
  }

  /** A draw u in [0, 1] scales a non-negative amount down. */
  lemma ScaledDown(a: real, u: real)
    requires 0.0 <= a && 0.0 <= u <= 1.0
    ensures 0.0 <= a * u <= a
  {
    assert a * u <= a * 1.0 by {
      assert a * (1.0 - u) >= 0.0;
    }
  }

  /** The headers as the request record shows them: every credential value replaced. */
  function Redact(h: map<string, string>): map<string, string>
  {
    map k | k in h :: if k in SECRET_HEADERS then REDACTED else h[k]
  }

  /** No header is added or dropped, every credential reads REDACTED, every other value is kept. */
  lemma RedactHidesSecrets(h: map<string, string>)
    ensures Redact(h).Keys == h.Keys
    ensures forall k :: k in h && k in SECRET_HEADERS ==> Redact(h)[k] == REDACTED
    ensures forall k :: k in h && k !in SECRET_HEADERS ==> Redact(h)[k] == h[k]
  {
  }

  /** Redacting twice is redacting once, so every level of the retry recursion may redact again. */
  lemma RedactIdempotent(h: map<string, string>)
    ensures Redact(Redact(h)) == Redact(h)
  {
  }

  /** Headers without a credential (Ollama's empty dict) are left unchanged. */
  lemma RedactWithoutSecrets(h: map<string, string>)
    requires h.Keys !! SECRET_HEADERS
    ensures Redact(h) == h
  {
  }

  /** The request record returned to the caller: `{"url": ..., "headers": ..., "json": ...}`. */
  datatype Request = Request(url: string, headers: map<string, string>, json: Json)

  /** A successful exchange: the request record and the decoded body of the 200 reply. */
  datatype Exchange = Exchange(request: Request, body: Option<Json>)

  /** Why an exchange ended without a 200: the raised 401, or one of the two process exits. */
  datatype HttpError = Unauthorized | TooManyRetries | BadStatus(code: int)

  /**
   * The course of one `http_request(url, headers, json, retry)` call and its
   * recursive retries: the verdict, how many POSTs were made, the retry count
   * passed to each backoff, and how many session resets happened.
   */
  datatype Trace = Trace(result: Result<Option<Json>, HttpError>, attempts: nat, backoffs: seq<nat>, resets: nat)

  /** The retry loop of util.py:219-266, starting at the process's POST number `attempt`. */
  function Run(net: nat -> Outcome, attempt: nat, retry: nat): Trace
    decreases MAX_RETRIES + 1 - retry
  {
    var o := Received(net(attempt));
    var reset := if o.Absent? then 1 else 0;
    match Classify(o)
    case Continuable =>
      if retry > MAX_RETRIES then Trace(Err(TooManyRetries), 1, [], reset)
      else
        var rest := Run(net, attempt + 1, retry + 1);
        Trace(rest.result, rest.attempts + 1, [retry + 1] + rest.backoffs, rest.resets + reset)
    case Success => Trace(Ok(o.body), 1, [], 0)
    case AuthRejected => Trace(Err(Unauthorized), 1, [], 0)
    case Fatal => Trace(Err(BadStatus(o.code)), 1, [], 0)
  }

  /** How many of the `n` POSTs from number `from` on produced no usable reply. */
  function CountAbsent(net: nat -> Outcome, from: nat, n: nat): nat
    decreases n
  {
    if n == 0 then 0
    else CountAbsent(net, from + 1, n - 1) + (if Received(net(from)).Absent? then 1 else 0)
  }

  /** A fresh call makes at least one POST. */
  lemma AtLeastOnePost(net: nat -> Outcome, attempt: nat)
    ensures Run(net, attempt, 0).attempts >= 1
  {
    RunSchedule(net, attempt, 0);
  }

  /**
   * The retry schedule: at most 22 - retry POSTs, one backoff between
   * consecutive POSTs, the retry counter incremented before each backoff (so
   * the k-th sleep of a fresh call uses r = k), and one session reset per
   * POST without a usable reply.
   */
  lemma {:induction false} RunSchedule(net: nat -> Outcome, attempt: nat, retry: nat)
    requires retry <= MAX_RETRIES + 1
    ensures var t := Run(net, attempt, retry);
      && 1 <= t.attempts <= MAX_RETRIES + 2 - retry
      && |t.backoffs| == t.attempts - 1
      && (forall k :: 0 <= k < |t.backoffs| ==> t.backoffs[k] == retry + 1 + k)
      && t.resets == CountAbsent(net, attempt, t.attempts)
    decreases MAX_RETRIES + 1 - retry
  {
    var o := Received(net(attempt));
    if Classify(o) == Continuable && retry <= MAX_RETRIES {
      RunSchedule(net, attempt + 1, retry + 1);
    }
  }

  /**
   * How the exchange ends: every POST but the last was continuable, and the
   * last one decides the verdict (a 200 returns its body, a 401 is raised,
   * a continuable one means the retries ran out, anything else is fatal).
   */
  lemma {:induction false} RunVerdict(net: nat -> Outcome, attempt: nat, retry: nat)
    ensures var t := Run(net, attempt, retry);
      var last := Received(net(attempt + t.attempts - 1));
      && t.attempts >= 1
      && (forall k :: attempt <= k < attempt + t.attempts - 1 ==> IsContinuable(Received(net(k))))
      && (t.result.Ok? <==> Classify(last) == Success)
      && (t.result.Ok? ==> t.result.value == last.body)
      && (t.result == Err(Unauthorized) <==> Classify(last) == AuthRejected)
      && (t.result == Err(TooManyRetries) <==> Classify(last) == Continuable)
      && (t.result.Err? && t.result.error.BadStatus? <==> Classify(last) == Fatal)
      && (t.result.Err? && t.result.error.BadStatus? ==> t.result.error.code == last.code)
    decreases MAX_RETRIES + 1 - retry
  {
    var o := Received(net(attempt));
    if Classify(o) == Continuable && retry <= MAX_RETRIES {
      RunVerdict(net, attempt + 1, retry + 1);
    }
  }

  /** An endpoint that never stops failing transiently: 22 - retry POSTs, then the retry bound is fatal. */
  lemma {:induction false} PersistentFailure(net: nat -> Outcome, attempt: nat, retry: nat)
    requires retry <= MAX_RETRIES + 1
    requires forall k: nat :: k >= attempt ==> IsContinuable(Received(net(k)))
    ensures Run(net, attempt, retry).result == Err(TooManyRetries)
    ensures Run(net, attempt, retry).attempts == MAX_RETRIES + 2 - retry
    decreases MAX_RETRIES + 1 - retry
  {
    assert IsContinuable(Received(net(attempt)));
    if retry <= MAX_RETRIES {
      PersistentFailure(net, attempt + 1, retry + 1);
    }
  }

  /**
   * Against an endpoint that always answers 500, a call at retry level
   * `retry` (0 for a fresh call) makes 22 - retry POSTs and sleeps with
   * r = retry + 1, ..., 21 before the retry bound is fatal.
   */
  lemma AlwaysServerError(net: nat -> Outcome, attempt: nat, retry: nat)
    requires retry <= MAX_RETRIES + 1
    requires forall k: nat :: net(k).Status? && net(k).code == 500
    ensures var t := Run(net, attempt, retry);
      && t.result == Err(TooManyRetries)
      && t.attempts == 22 - retry
      && t.backoffs == seq(21 - retry, k requires 0 <= k < 21 - retry => retry + 1 + k)
  {
    forall k: nat | k >= attempt ensures IsContinuable(Received(net(k))) {
      assert net(k).Status? && net(k).code == 500;
    }
    PersistentFailure(net, attempt, retry);
    RunSchedule(net, attempt, retry);
  }

  /** Two 429 replies and then a 200: two sleeps, with r = 1 and r = 2 (10 s and 20 s before jitter). */
  lemma TwoRateLimitsThenSuccess(net: nat -> Outcome, b: Json)
    requires net(0) == Status(429, false, None) && net(1) == Status(429, false, None)
    requires net(2) == Status(200, false, Some(b))
    ensures Run(net, 0, 0) == Trace(Ok(Some(b)), 3, [1, 2], 0)
    ensures BaseDelay(1) == 10 && BaseDelay(2) == 20
  {
    assert Run(net, 2, 2) == Trace(Ok(Some(b)), 1, [], 0);
    assert Run(net, 1, 1) == Trace(Ok(Some(b)), 2, [2], 0);
  }

  /** A dict shared by reference: the caller's `headers`, which `http_request` mutates. */
  class HeaderDict {
    var items: map<string, string>

    constructor (items: map<string, string>)
      ensures this.items == items
    {
      this.items := items;
    }
  }

  /** Redacting one credential that is present changes nothing a later full redaction would not. */
  lemma RedactOne(m: map<string, string>, key: string)
    requires key in SECRET_HEADERS && key in m
    ensures Redact(m[key := REDACTED]) == Redact(m)
  {
  }

  /** A dict whose present credentials already read REDACTED is its own redaction. */
  lemma RedactFixed(m: map<string, string>)
    requires forall k :: k in m && k in SECRET_HEADERS ==> m[k] == REDACTED
    ensures Redact(m) == m
  {
  }

  /** The redaction of util.py:268-279, in place on the caller's dict. */
  method RedactHeaders(h: HeaderDict)
    modifies h
    ensures h.items == Redact(old(h.items))
  {
    var m := h.items;
    if "x-api-key" in m {
      RedactOne(m, "x-api-key");
      m := m["x-api-key" := REDACTED];
    }
    if "Authorization" in m {
      RedactOne(m, "Authorization");
      m := m["Authorization" := REDACTED];
    }
    if "api-key" in m {
      RedactOne(m, "api-key");
      m := m["api-key" := REDACTED];
    }
    if "X-goog-api-key" in m {
      RedactOne(m, "X-goog-api-key");
      m := m["X-goog-api-key" := REDACTED];
    }
    RedactFixed(m);
    h.items := m;
  }

  /**
   * The process-wide transport state: the POST counter (which answer of the
   * network oracle comes next), the generation of the shared session (bumped
   * by every reset), and the delays slept so far.
   */
  class Transport {
    const net: nat -> Outcome
    const rand: nat -> real
    var posts: nat
    var session: nat
    var slept: seq<real>

    /** `random.random()` draws lie in the unit interval. */
    ghost predicate Valid()
    {
      forall k: nat :: 0.0 <= rand(k) <= 1.0
    }

    constructor (net: nat -> Outcome, rand: nat -> real)
      requires forall k: nat :: 0.0 <= rand(k) <= 1.0
      ensures Valid()
      ensures this.net == net && this.rand == rand
      ensures posts == 0 && session == 0 && slept == []
    {
      this.net := net;
      this.rand := rand;
      posts, session, slept := 0, 0, [];
    }

    /** The delays slept for the given retry counts, using the random draws from number `from` on. */
    function Delays(backoffs: seq<nat>, from: nat): (ds: seq<real>)
      requires Valid()
      ensures |ds| == |backoffs|
      ensures forall i :: 0 <= i < |ds| ==>
        BaseDelay(backoffs[i]) as real <= ds[i] <= 1.1 * BaseDelay(backoffs[i]) as real
    {
      seq(|backoffs|, i requires 0 <= i < |backoffs| => Backoff(backoffs[i], rand(from + i)))
    }

    lemma DelaysCons(b: nat, bs: seq<nat>, from: nat)
      requires Valid()
      ensures Delays([b] + bs, from) == [Backoff(b, rand(from))] + Delays(bs, from + 1)
    {
      var lhs := Delays([b] + bs, from);
      var rhs := [Backoff(b, rand(from))] + Delays(bs, from + 1);
      assert |lhs| == |rhs|;
      forall i | 0 <= i < |lhs| ensures lhs[i] == rhs[i] {
        if i > 0 {
          assert ([b] + bs)[i] == bs[i - 1];
        }
      }
    }

    /** Sleeping one backoff and then a retry's whole schedule is sleeping the longer schedule. */
    lemma DelaysStep(before: seq<real>, next: nat, rest: seq<nat>)
      requires Valid()
      ensures before + [Backoff(next, rand(|before|))] + Delays(rest, |before| + 1)
           == before + Delays([next] + rest, |before|)
    {
      DelaysCons(next, rest, |before|);
    }

    /**
     * One fresh `http_request` call leads from the state `posts0`, `session0`,
     * `slept0` to the state `posts1`, `session1`, `slept1`: it takes the
     * network's answers from POST number `posts0` on and adds its POSTs, its
     * session resets and its sleeps, drawn from the next random numbers.
     */
    ghost predicate Step(posts0: nat, session0: nat, slept0: seq<real>, posts1: nat, session1: nat, slept1: seq<real>)
      requires Valid()
    {
      var t := Run(net, posts0, 0);
      && posts1 == posts0 + t.attempts
      && session1 == session0 + t.resets
      && slept1 == slept0 + Delays(t.backoffs, |slept0|)
    }

    /** Since the state `posts0`, `session0`, `slept0` the transport was left alone or made one fresh call. */
    ghost predicate AtMostOneCall(posts0: nat, session0: nat, slept0: seq<real>)
      requires Valid()
      reads this
    {
      || (posts == posts0 && session == session0 && slept == slept0)
      || Step(posts0, session0, slept0, posts, session, slept)
    }

    /** Since the state `posts0`, `session0`, `slept0` the transport made at most two fresh calls, one after the other. */
    ghost predicate AtMostTwoCalls(posts0: nat, session0: nat, slept0: seq<real>)
      requires Valid()
      reads this
    {
      var t := Run(net, posts0, 0);
      || AtMostOneCall(posts0, session0, slept0)
      || Step(posts0 + t.attempts, session0 + t.resets, slept0 + Delays(t.backoffs, |slept0|), posts, session, slept)
    }

    /** One fresh call, then at most one more, is at most two. */
    lemma CallThen(posts0: nat, session0: nat, slept0: seq<real>, posts1: nat, session1: nat, slept1: seq<real>)
      requires Valid() && Step(posts0, session0, slept0, posts1, session1, slept1)
      requires AtMostOneCall(posts1, session1, slept1)
      ensures AtMostTwoCalls(posts0, session0, slept0)
    {
      var t := Run(net, posts0, 0);
      assert posts1 == posts0 + t.attempts && session1 == session0 + t.resets;
      assert slept1 == slept0 + Delays(t.backoffs, |slept0|);
      if posts == posts1 && session == session1 && slept == slept1 {
        assert Step(posts0, session0, slept0, posts, session, slept);
      } else {
        assert Step(posts1, session1, slept1, posts, session, slept);
      }
    }

    /** Without a POST since then, no session was reset and nothing was slept. */
    lemma NoCall(posts0: nat, session0: nat, slept0: seq<real>)
      requires Valid() && AtMostTwoCalls(posts0, session0, slept0) && posts == posts0
      ensures session == session0 && slept == slept0
    {
      var t := Run(net, posts0, 0);
      AtLeastOnePost(net, posts0);
      AtLeastOnePost(net, posts0 + t.attempts);
    }

    /**
     * With exactly the POSTs of one fresh call made since then, the session
     * resets and the sleeps are exactly that call's.
     */
    lemma OneCall(posts0: nat, session0: nat, slept0: seq<real>)
      requires Valid() && AtMostTwoCalls(posts0, session0, slept0)
      requires posts == posts0 + Run(net, posts0, 0).attempts
      ensures Step(posts0, session0, slept0, posts, session, slept)
    {
      var t := Run(net, posts0, 0);
      AtLeastOnePost(net, posts0);
      AtLeastOnePost(net, posts0 + t.attempts);
    }

    /**
     * `http_request(url, headers, json_data, retry)`: on a 200 the caller's
     * headers are redacted in place and the request record holds them; a 401
     * or a process exit leaves them untouched.
     */
    method HttpRequest(url: string, headers: HeaderDict, body: Json, retry: nat)
      returns (r: Result<Exchange, HttpError>)
      requires Valid()
      modifies this, headers
      decreases MAX_RETRIES + 1 - retry, 1
      ensures var t := Run(net, old(posts), retry);
        && posts == old(posts) + t.attempts
        && session == old(session) + t.resets
        && slept == old(slept) + Delays(t.backoffs, |old(slept)|)
        && (t.result.Ok? ==>
              && headers.items == Redact(old(headers.items))
              && r == Ok(Exchange(Request(url, headers.items, body), t.result.value)))
        && (t.result.Err? ==> headers.items == old(headers.items) && r == Err(t.result.error))
    {
      assert Delays([], |slept|) == [] && slept + [] == slept;
      var o := Received(net(posts));
      posts := posts + 1;
      if o.Absent? {
        session := session + 1;
      }
      var reply: Option<Json>;
      match Classify(o) {
        case Continuable =>
          if retry > MAX_RETRIES {
            return Err(TooManyRetries);
          }
          var inner := Retry(url, headers, body, retry + 1);
          if inner.Err? {
            return inner;
          }
          reply := inner.value.body;
        case Success =>
          reply := o.body;
        case AuthRejected =>
          return Err(Unauthorized);
        case Fatal =>
          return Err(BadStatus(o.code));
      }
      RedactIdempotent(old(headers.items));
      RedactHeaders(headers);
      r := Ok(Exchange(Request(url, headers.items, body), reply));
    }

    /** The retry branch of `http_request`: sleep the backoff for `next`, then POST again at that level. */
    method Retry(url: string, headers: HeaderDict, body: Json, next: nat)
      returns (r: Result<Exchange, HttpError>)
      requires Valid() && 1 <= next <= MAX_RETRIES + 1
      modifies this, headers
      decreases MAX_RETRIES + 1 - (next - 1), 0
      ensures var t := Run(net, old(posts), next);
        && posts == old(posts) + t.attempts
        && session == old(session) + t.resets
        && slept == old(slept) + Delays([next] + t.backoffs, |old(slept)|)
        && (t.result.Ok? ==>
              && headers.items == Redact(old(headers.items))
              && r == Ok(Exchange(Request(url, headers.items, body), t.result.value)))
        && (t.result.Err? ==> headers.items == old(headers.items) && r == Err(t.result.error))
    {
      var d := Backoff(next, rand(|slept|));
      slept := slept + [d];
      ghost var rest := Run(net, posts, next);
      r := HttpRequest(url, headers, body, next);
      DelaysStep(old(slept), next, rest.backoffs);
    }
  }
}
