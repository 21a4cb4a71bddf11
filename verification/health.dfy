/** The health check of internal/health/health.go (`CheckHealthWithClock`).
    The HTTP client is replaced by the answer the server gives to the n-th
    request (counting from 0), and the clock by a record of every sleep, so the
    model returns the exact sequence of requests and sleeps. */
module Health {
  import opened Results
  import opened Errors
  import opened Config

  /** What one `client.Get` produced: a transport error (refused connection,
      timeout, ...) or a response with a status code. */
  datatype Response = TransportError | Answer(statusCode: int)

  /** A response the check accepts: status 200..299. */
  predicate IsHealthy(r: Response) {
    r.Answer? && 200 <= r.statusCode <= 299
  }

  /** The observable effects of the check, in order. */
  datatype Event = Get(url: string) | Sleep(seconds: int)

  /** The check's verdict, the configuration as left behind (the endpoint is
      written back through the pointer), and the requests and sleeps made. */
  datatype Probe = Probe(result: Outcome<Error>, cfg: HealthCheck, events: seq<Event>)

  /** `n` failed attempts: each is a request followed by one sleep. */
  function Failures(url: string, seconds: int, n: nat): (ev: seq<Event>)
    ensures |ev| == 2 * n
  {
    if n == 0 then [] else [Get(url), Sleep(seconds)] + Failures(url, seconds, n - 1)
  }

  function Requests(ev: seq<Event>): nat {
    if |ev| == 0 then 0 else (if ev[0].Get? then 1 else 0) + Requests(ev[1..])
  }

  function Sleeps(ev: seq<Event>): nat {
    if |ev| == 0 then 0 else (if ev[0].Sleep? then 1 else 0) + Sleeps(ev[1..])
  }

  lemma {:induction false} CountsAppend(a: seq<Event>, b: seq<Event>)
    ensures Requests(a + b) == Requests(a) + Requests(b)
    ensures Sleeps(a + b) == Sleeps(a) + Sleeps(b)
    decreases |a|
  {
    if |a| > 0 {
      assert (a + b)[1..] == a[1..] + b;
      CountsAppend(a[1..], b);
    } else {
      assert a + b == b;
    }
  }

  lemma {:induction false} FailuresCounts(url: string, seconds: int, n: nat)
    ensures Requests(Failures(url, seconds, n)) == n
    ensures Sleeps(Failures(url, seconds, n)) == n
    decreases n
  {
    if n > 0 {
      var pair: seq<Event> := [Get(url), Sleep(seconds)];
      CountsAppend(pair, Failures(url, seconds, n - 1));
      FailuresCounts(url, seconds, n - 1);
      assert pair[1..][1..] == [];
    }
  }

  /** The index of the first 2xx answer among requests `attempt .. maxRetries - 1`,
      or `maxRetries` when there is none: the reference the loop is held to. */
  function FirstHealthy(attempt: nat, maxRetries: int, respond: nat -> Response): (k: int)
    ensures attempt <= k || (k == maxRetries && maxRetries < attempt)
    ensures k <= maxRetries || (k == attempt && maxRetries < attempt)
    ensures forall i :: attempt <= i < k && i < maxRetries ==> !IsHealthy(respond(i))
    ensures attempt <= k < maxRetries ==> IsHealthy(respond(k))
    decreases maxRetries - attempt
  {
    if attempt >= maxRetries then maxRetries
    else if IsHealthy(respond(attempt)) then attempt
    else FirstHealthy(attempt + 1, maxRetries, respond)
  }

  /** Attempts `attempt`, `attempt + 1`, ... of the retry loop (the Go loop
      variable `i`). The error names the URL and `maxRetries` itself. */
  function Poll(url: string, attempt: nat, maxRetries: int, seconds: int, respond: nat -> Response)
    : (p: (Outcome<Error>, seq<Event>))
    ensures p.0.Pass? <==> attempt <= FirstHealthy(attempt, maxRetries, respond) < maxRetries
    ensures p.0.Pass? ==>
      p.1 == Failures(url, seconds, FirstHealthy(attempt, maxRetries, respond) - attempt) + [Get(url)]
    ensures p.0.Fail? ==> p.0.error == Unreachable(url, maxRetries)
    ensures p.0.Fail? ==>
      p.1 == Failures(url, seconds, if attempt < maxRetries then maxRetries - attempt else 0)
    decreases maxRetries - attempt
  {
    if attempt >= maxRetries then
      (Fail(Unreachable(url, maxRetries)), [])
    else if IsHealthy(respond(attempt)) then
      assert Failures(url, seconds, 0) + [Get(url)] == [Get(url)];
      (Pass, [Get(url)])
    else
      var rest := Poll(url, attempt + 1, maxRetries, seconds, respond);
      var pair: seq<Event> := [Get(url), Sleep(seconds)];
      assert rest.0.Pass? ==>
        (pair + rest.1 == Failures(url, seconds, FirstHealthy(attempt, maxRetries, respond) - attempt) + [Get(url)]) by {
        if rest.0.Pass? {
          var n := FirstHealthy(attempt, maxRetries, respond) - attempt;
          assert Failures(url, seconds, n) == pair + Failures(url, seconds, n - 1);
        }
      }
      (rest.0, pair + rest.1)
  }

  /** The endpoint after one leading `/` is dropped. */
  function TrimSlash(endpoint: string): (e: string)
    requires endpoint != ""
    ensures endpoint == (if endpoint[0] == '/' then "/" + e else e)
  {
    if endpoint[0] == '/' then endpoint[1..] else endpoint
  }

  /** `CheckHealthWithClock`. */
  function CheckHealthWithClock(host: string, cfg: HealthCheck, respond: nat -> Response): (r: Probe)
    ensures cfg.endpoint == "" || host == "" ==> r == Probe(Pass, cfg, [])
    ensures r.cfg == cfg.(endpoint := r.cfg.endpoint)
  {
    if cfg.endpoint == "" || host == "" then
      Probe(Pass, cfg, [])
    else
      var endpoint := TrimSlash(cfg.endpoint);
      var url := host + "/" + endpoint;
      var p := Poll(url, 0, cfg.maxRetries, cfg.intervalSeconds, respond);
      Probe(p.0, cfg.(endpoint := endpoint), p.1)
  }

  /** The URL every request of an active check goes to. */
  function CheckUrl(host: string, cfg: HealthCheck): string
    requires cfg.endpoint != ""
  {
    host + "/" + TrimSlash(cfg.endpoint)
  }

  /** An enabled check passes exactly when one of the first `MaxRetries`
      answers is a 2xx; it then stops at the first such answer, having slept
      once after each earlier failure. */
  lemma CheckPasses(host: string, cfg: HealthCheck, respond: nat -> Response)
    requires cfg.endpoint != "" && host != ""
    ensures CheckHealthWithClock(host, cfg, respond).result.Pass?
      <==> exists i :: 0 <= i < cfg.maxRetries && IsHealthy(respond(i))
    ensures CheckHealthWithClock(host, cfg, respond).result.Pass? ==>
      var k := FirstHealthy(0, cfg.maxRetries, respond);
      0 <= k < cfg.maxRetries && IsHealthy(respond(k))
      && (forall i :: 0 <= i < k ==> !IsHealthy(respond(i)))
      && CheckHealthWithClock(host, cfg, respond).events
         == Failures(CheckUrl(host, cfg), cfg.intervalSeconds, k) + [Get(CheckUrl(host, cfg))]
  {
    var k := FirstHealthy(0, cfg.maxRetries, respond);
    if exists i :: 0 <= i < cfg.maxRetries && IsHealthy(respond(i)) {
      var i :| 0 <= i < cfg.maxRetries && IsHealthy(respond(i));
      assert k <= i;
    }
  }

  /** When it fails, an enabled check made `MaxRetries` requests (none if
      `MaxRetries <= 0`), slept after every one of them, including the last, and
      reports the URL and `MaxRetries`. */
  lemma CheckFails(host: string, cfg: HealthCheck, respond: nat -> Response)
    requires cfg.endpoint != "" && host != ""
    requires CheckHealthWithClock(host, cfg, respond).result.Fail?
    ensures CheckHealthWithClock(host, cfg, respond).result.error
      == Unreachable(CheckUrl(host, cfg), cfg.maxRetries)
    ensures CheckHealthWithClock(host, cfg, respond).events
      == Failures(CheckUrl(host, cfg), cfg.intervalSeconds, if cfg.maxRetries > 0 then cfg.maxRetries else 0)
    ensures forall i :: 0 <= i < cfg.maxRetries ==> !IsHealthy(respond(i))
  {
  }

  /** Request and sleep counts: at most `MaxRetries` requests; on failure as
      many sleeps as requests, on success one sleep fewer. */
  lemma CheckCounts(host: string, cfg: HealthCheck, respond: nat -> Response)
    ensures var r := CheckHealthWithClock(host, cfg, respond);
      Requests(r.events) <= (if cfg.maxRetries > 0 then cfg.maxRetries else 0)
    ensures var r := CheckHealthWithClock(host, cfg, respond);
      r.result.Fail? ==>
        Sleeps(r.events) == Requests(r.events) == (if cfg.maxRetries > 0 then cfg.maxRetries else 0)
    ensures var r := CheckHealthWithClock(host, cfg, respond);
      r.result.Pass? && r.events != [] ==> Sleeps(r.events) + 1 == Requests(r.events)
  {
    if cfg.endpoint != "" && host != "" {
      if CheckHealthWithClock(host, cfg, respond).result.Pass? {
        PassCounts(host, cfg, respond);
      } else {
        CheckFails(host, cfg, respond);
        FailuresCounts(CheckUrl(host, cfg), cfg.intervalSeconds, if cfg.maxRetries > 0 then cfg.maxRetries else 0);
      }
    }
  }

  lemma PassCounts(host: string, cfg: HealthCheck, respond: nat -> Response)
    requires cfg.endpoint != "" && host != ""
    requires CheckHealthWithClock(host, cfg, respond).result.Pass?
    ensures var r := CheckHealthWithClock(host, cfg, respond);
      Requests(r.events) <= cfg.maxRetries && Sleeps(r.events) + 1 == Requests(r.events)
  {
    var r := CheckHealthWithClock(host, cfg, respond);
    var url := CheckUrl(host, cfg);
    CheckPasses(host, cfg, respond);
    var k := FirstHealthy(0, cfg.maxRetries, respond);
    FailuresCounts(url, cfg.intervalSeconds, k);
    CountsAppend(Failures(url, cfg.intervalSeconds, k), [Get(url)]);
    assert [Get(url)][1..] == [];
  }

  /** The endpoint loses exactly one leading `/` and is joined to the host
      with one `/`. */
  lemma EndpointNormalised(host: string, cfg: HealthCheck, respond: nat -> Response)
    requires cfg.endpoint != "" && host != ""
    ensures var r := CheckHealthWithClock(host, cfg, respond);
      (cfg.endpoint[0] == '/' ==> "/" + r.cfg.endpoint == cfg.endpoint)
      && (cfg.endpoint[0] != '/' ==> r.cfg.endpoint == cfg.endpoint)
      && forall i :: 0 <= i < |r.events| && r.events[i].Get? ==>
           r.events[i].url == host + "/" + r.cfg.endpoint
  {
    var r := CheckHealthWithClock(host, cfg, respond);
    var url := CheckUrl(host, cfg);
    if r.result.Pass? {
      CheckPasses(host, cfg, respond);
      var k := FirstHealthy(0, cfg.maxRetries, respond);
      FailuresOnlyGet(url, cfg.intervalSeconds, k);
    } else {
      CheckFails(host, cfg, respond);
      FailuresOnlyGet(url, cfg.intervalSeconds, if cfg.maxRetries > 0 then cfg.maxRetries else 0);
    }
  }

  lemma {:induction false} FailuresOnlyGet(url: string, seconds: int, n: nat)
    ensures forall i :: 0 <= i < |Failures(url, seconds, n)| && Failures(url, seconds, n)[i].Get? ==>
      Failures(url, seconds, n)[i].url == url
    ensures forall i :: 0 <= i < |Failures(url, seconds, n)| && Failures(url, seconds, n)[i].Sleep? ==>
      Failures(url, seconds, n)[i].seconds == seconds
    decreases n
  {
    if n > 0 {
      FailuresOnlyGet(url, seconds, n - 1);
    }
  }

  /** `MaxRetries <= 0` fails at once without a request or a sleep. */
  lemma NoRetriesFailsImmediately(host: string, cfg: HealthCheck, respond: nat -> Response)
    requires cfg.endpoint != "" && host != "" && cfg.maxRetries <= 0
    ensures CheckHealthWithClock(host, cfg, respond).result.Fail?
    ensures CheckHealthWithClock(host, cfg, respond).events == []
  {
  }

  /** A server that always answers 500, with three retries, is asked three
      times and slept on three times. */
  lemma AlwaysFailingServer(host: string, cfg: HealthCheck)
    requires cfg.endpoint != "" && host != "" && cfg.maxRetries == 3
    ensures var r := CheckHealthWithClock(host, cfg, _ => Answer(500));
      r.result.Fail? && Requests(r.events) == 3 && Sleeps(r.events) == 3
  {
    CheckCounts(host, cfg, _ => Answer(500));
  }
}
