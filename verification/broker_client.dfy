/**
 * Obtaining the process's single MQTT client: `connectWithRetry` (bounded
 * attempts with linear backoff) and the three `getClient` variants, which
 * check their environment configuration on every call and connect only
 * when no client is stored yet.
 */
module BrokerClient {
  import opened Wrappers
  import Text

  /** A connected client handle returned by the transport. */
  datatype Client = Client(id: nat)

  /** The transport's answer to attempt number `attempt` on `url`. */
  type Connector = (string, nat) -> Result<Client, string>

  /** Attempts `getClient` allows for its first connection. */
  const MaxReconTries: int := 5

  /** Milliseconds waited after failed attempt `attempt`. */
  function Backoff(attempt: nat): nat {
    attempt * 1000
  }

  /** Attempts made, waits performed, and the client or the thrown error. */
  datatype RetryRun = RetryRun(attempts: nat, waits: seq<nat>, result: Result<Client, string>)

  function ExhaustedText(numOfAttempts: int, cause: string): string {
    "Failed to connect to MQTT after " + Text.IntToString(numOfAttempts) + " attempts\n" + cause
  }

  /**
   * The attempts numbered `k` to `n`: the first success returns, a failure
   * before `n` waits `k*1000` ms and moves on, and the failure of attempt
   * `n` throws without waiting.
   */
  function AttemptsFrom(n: int, url: string, connect: Connector, k: nat): (run: RetryRun)
    requires 1 <= k <= n
    ensures k <= run.attempts <= n
    ensures forall j :: k <= j < run.attempts ==> connect(url, j).Failure?
    ensures |run.waits| == run.attempts - k
    ensures forall i :: 0 <= i < |run.waits| ==> run.waits[i] == Backoff(k + i)
    ensures run.result.Success? ==> connect(url, run.attempts) == Success(run.result.value)
    ensures run.result.Failure? ==>
      && run.attempts == n
      && connect(url, n).Failure?
      && run.result.error == ExhaustedText(n, connect(url, n).error)
    decreases n - k
  {
    match connect(url, k)
    case Success(c) => RetryRun(k, [], Success(c))
    case Failure(cause) =>
      if k < n then
        var rest := AttemptsFrom(n, url, connect, k + 1);
        rest.(waits := [Backoff(k)] + rest.waits)
      else
        RetryRun(k, [], Failure(ExhaustedText(n, cause)))
  }

  /**
   * `connectWithRetry(numOfAttempts, …)`: attempts are numbered from 1 and
   * never exceed `numOfAttempts`; the first success is returned; every
   * failed attempt but the last is followed by its backoff; exhausting the
   * attempts throws naming their number; with no attempt allowed it throws
   * "Unreachable" without touching the transport.
   */
  function ConnectWithRetry(numOfAttempts: int, url: string, connect: Connector): (run: RetryRun)
    ensures numOfAttempts <= 0 ==> run == RetryRun(0, [], Failure("Unreachable"))
    ensures numOfAttempts >= 1 ==> 1 <= run.attempts <= numOfAttempts
    ensures forall j :: 1 <= j < run.attempts ==> connect(url, j).Failure?
    ensures run.attempts >= 1 ==> |run.waits| == run.attempts - 1
    ensures forall i :: 0 <= i < |run.waits| ==> run.waits[i] == Backoff(i + 1)
    ensures run.result.Success? ==> run.attempts >= 1 && connect(url, run.attempts) == Success(run.result.value)
    ensures run.result.Failure? && numOfAttempts >= 1 ==>
      && run.attempts == numOfAttempts
      && (forall j :: 1 <= j <= numOfAttempts ==> connect(url, j).Failure?)
      && run.result.error == ExhaustedText(numOfAttempts, connect(url, numOfAttempts).error)
  {
    if numOfAttempts >= 1 then AttemptsFrom(numOfAttempts, url, connect, 1)
    else RetryRun(0, [], Failure("Unreachable"))
  }

  /** The first successful attempt wins, however later attempts would go. */
  lemma FirstSuccessWins(n: int, url: string, connect: Connector, m: nat)
    requires 1 <= m <= n
    requires connect(url, m).Success?
    requires forall j :: 1 <= j < m ==> connect(url, j).Failure?
    ensures ConnectWithRetry(n, url, connect) == RetryRun(m, ConnectWithRetry(n, url, connect).waits, connect(url, m))
  {
  }

  function Sum(s: seq<nat>): nat
    decreases |s|
  {
    if |s| == 0 then 0 else Sum(s[..|s| - 1]) + s[|s| - 1]
  }

  /** The backoffs after attempts 1 to `m`, in order. */
  function Backoffs(m: nat): (s: seq<nat>)
    ensures |s| == m
    ensures forall i :: 0 <= i < m ==> s[i] == Backoff(i + 1)
  {
    if m == 0 then [] else Backoffs(m - 1) + [Backoff(m)]
  }

  lemma {:induction false} BackoffTotal(m: nat)
    ensures Sum(Backoffs(m)) == 500 * m * (m + 1)
    decreases m
  {
    if m > 0 {
      var b := Backoffs(m);
      assert b[..m - 1] == Backoffs(m - 1);
      assert Sum(b) == Sum(Backoffs(m - 1)) + 1000 * m;
      BackoffTotal(m - 1);
      assert 500 * (m - 1) * m + 1000 * m == 500 * m * (m + 1);
    }
  }

  /**
   * Success at attempt `m` follows total waits of 1000·(1+…+(m-1)) ms, and
   * exhausting `n` attempts waits 1000·(1+…+(n-1)) ms.
   */
  lemma TotalWait(n: int, url: string, connect: Connector)
    requires n >= 1
    ensures var run := ConnectWithRetry(n, url, connect);
      Sum(run.waits) == 500 * (run.attempts - 1) * run.attempts
  {
    var run := ConnectWithRetry(n, url, connect);
    assert run.waits == Backoffs(run.attempts - 1);
    BackoffTotal(run.attempts - 1);
  }

  // ---------------------------------------------------------------------
  // getClient
  // ---------------------------------------------------------------------

  /** `process.env`: variables that are set, with their text. */
  type Env = map<string, string>

  /** A variable that is set to a non-empty string (`!value` is false). */
  predicate IsSet(env: Env, name: string) {
    name in env && env[name] != ""
  }

  /**
   * One call of `getClient`: its result, the module's stored client after
   * it, and the `connectWithRetry` run it started, if any.
   */
  datatype GetClientRun = GetClientRun(result: Result<Client, string>, stored: Option<Client>, connection: Option<RetryRun>)

  /** Connect when nothing is stored; keep the client only on success. */
  function ConnectOnce(stored: Option<Client>, url: string, connect: Connector): (r: GetClientRun)
    ensures stored.Some? ==> r == GetClientRun(Success(stored.value), stored, None)
    ensures stored.None? ==>
      && r.connection == Some(ConnectWithRetry(MaxReconTries, url, connect))
      && r.result == r.connection.value.result
      && r.stored == (if r.result.Success? then Some(r.result.value) else None)
  {
    match stored
    case Some(c) => GetClientRun(Success(c), stored, None)
    case None =>
      var run := ConnectWithRetry(MaxReconTries, url, connect);
      match run.result
      case Success(c) => GetClientRun(Success(c), Some(c), Some(run))
      case Failure(e) => GetClientRun(Failure(e), None, Some(run))
  }

  /**
   * `getClient` of the gateway and of the chat service: BROKER_PORT must
   * be set and `parseInt`-able, then BROKER_HOST must be set, checked in
   * that order on every call before any connection; the first connection
   * goes to `mqtt://host:port` with five attempts.
   */
  function GetClientHostPort(env: Env, stored: Option<Client>, parseInt: string -> Option<int>, connect: Connector): (r: GetClientRun)
    ensures !IsSet(env, "BROKER_PORT") || parseInt(env["BROKER_PORT"]).None? ==>
      r == GetClientRun(Failure("BROKER_PORT is not a number"), stored, None)
    ensures IsSet(env, "BROKER_PORT") && parseInt(env["BROKER_PORT"]).Some? && !IsSet(env, "BROKER_HOST") ==>
      r == GetClientRun(Failure("BROKER_HOST is not defined"), stored, None)
    ensures IsSet(env, "BROKER_PORT") && parseInt(env["BROKER_PORT"]).Some? && IsSet(env, "BROKER_HOST") ==>
      r == ConnectOnce(stored, BrokerUrl(env["BROKER_HOST"], parseInt(env["BROKER_PORT"]).value), connect)
  {
    if !IsSet(env, "BROKER_PORT") || parseInt(env["BROKER_PORT"]).None? then
      GetClientRun(Failure("BROKER_PORT is not a number"), stored, None)
    else if !IsSet(env, "BROKER_HOST") then
      GetClientRun(Failure("BROKER_HOST is not defined"), stored, None)
    else
      ConnectOnce(stored, BrokerUrl(env["BROKER_HOST"], parseInt(env["BROKER_PORT"]).value), connect)
  }

  /** The URL `mqtt://${host}:${port}`. */
  function BrokerUrl(host: string, port: int): string {
    "mqtt://" + host + ":" + Text.IntToString(port)
  }

  /**
   * `getClient` of the ad service: BROKER_URI must be set, checked on every
   * call before any connection; the first connection uses the URI as is
   * with five attempts.
   */
  function GetClientUri(env: Env, stored: Option<Client>, connect: Connector): (r: GetClientRun)
    ensures !IsSet(env, "BROKER_URI") ==> r == GetClientRun(Failure("BROKER_URI is not defined"), stored, None)
    ensures IsSet(env, "BROKER_URI") ==> r == ConnectOnce(stored, env["BROKER_URI"], connect)
  {
    if !IsSet(env, "BROKER_URI") then GetClientRun(Failure("BROKER_URI is not defined"), stored, None)
    else ConnectOnce(stored, env["BROKER_URI"], connect)
  }

  /**
   * Singleton: after a successful call, a second call with a valid
   * configuration returns the same client and starts no connection, even
   * if the transport would now answer differently.
   */
  lemma SecondCallReusesClient(env: Env, stored: Option<Client>, parseInt: string -> Option<int>, connect: Connector, connect': Connector)
    requires GetClientHostPort(env, stored, parseInt, connect).result.Success?
    ensures var first := GetClientHostPort(env, stored, parseInt, connect);
      GetClientHostPort(env, first.stored, parseInt, connect') == GetClientRun(first.result, first.stored, None)
  {
  }

  /** The same singleton behaviour for the URI variant. */
  lemma SecondUriCallReusesClient(env: Env, stored: Option<Client>, connect: Connector, connect': Connector)
    requires GetClientUri(env, stored, connect).result.Success?
    ensures var first := GetClientUri(env, stored, connect);
      GetClientUri(env, first.stored, connect') == GetClientRun(first.result, first.stored, None)
  {
  }
}
