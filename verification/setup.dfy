/**
 * Bringing the bus session up: waiting for the bus server's endpoint
 * (`wait_for_sse_ready`) and connecting the driver's own toolkit with bounded
 * retries (`setup_mcp_with_retry`).
 *
 * Clock readings, pings and connection attempts are inputs: `clock(i)` is the
 * time read before the i-th ping, `ping(i)` whether the i-th ping got a reply,
 * `attempt(i)` what the i-th call of `setup_mcp_toolkit` did.
 */
module Setup {
  import opened Wrappers
  import opened Mcp

  /** Seconds the readiness probe keeps trying by default. */
  const ReadyTimeout: int := 120
  /** Seconds the probe sleeps after a failed ping. */
  const PingInterval: int := 2
  /** Attempts the connector makes by default. */
  const DefaultRetries: int := 5

  /** The exception `wait_for_sse_ready` raises when time runs out. */
  const NotReadyError := "TimeoutError('Coral SSE not ready')"

  /** The n-th ping is the first to get a reply, and it is made in time. */
  ghost predicate FirstReplyAt(start: int, clock: nat -> int, ping: nat -> bool, timeout: int, n: nat) {
    && (forall j :: 0 <= j < n ==> !ping(j))
    && (forall j :: 0 <= j <= n ==> clock(j) - start < timeout)
    && ping(n)
  }

  /** Some ping made before `timeout` seconds have passed gets a reply, all earlier ones in time too. */
  ghost predicate ProbeSucceeds(start: int, clock: nat -> int, ping: nat -> bool, timeout: int) {
    exists n: nat :: FirstReplyAt(start, clock, ping, timeout, n)
  }

  /**
   * A probe that stopped after `pings` failed pings because the clock ran
   * out cannot succeed for any choice of the reply.
   */
  lemma {:induction false} NoReplyInTime(start: int, clock: nat -> int, ping: nat -> bool, timeout: int, pings: nat)
    requires forall j :: 0 <= j < pings ==> clock(j) - start < timeout && !ping(j)
    requires clock(pings) - start >= timeout
    ensures !ProbeSucceeds(start, clock, ping, timeout)
  {
    forall n: nat
      ensures !FirstReplyAt(start, clock, ping, timeout, n)
    {
      if n < pings {
        assert !ping(n);
      } else {
        assert pings <= n && clock(pings) - start >= timeout;
      }
    }
  }

  /**
   * `wait_for_sse_ready`: ping while fewer than `timeout` seconds have passed
   * since `start`; the first reply ends the wait, running out of time raises
   * `TimeoutError`. Each failed ping is followed by a 2-second sleep, so the
   * i-th ping happens at least `2 * i` seconds after the start.
   */
  method WaitForSseReady(start: int, clock: nat -> int, ping: nat -> bool, timeout: int := ReadyTimeout)
    returns (r: Result<(), string>, ghost pings: nat)
    requires forall i :: clock(i) >= start + PingInterval * i
    ensures forall j :: 0 <= j < pings ==> clock(j) - start < timeout && !ping(j)
    ensures r.Ok? <==> clock(pings) - start < timeout && ping(pings)
    ensures r.Err? ==> clock(pings) - start >= timeout && r.error == NotReadyError
    ensures r.Ok? <==> ProbeSucceeds(start, clock, ping, timeout)
  {
    var i: nat := 0;
    while clock(i) - start < timeout
      invariant forall j :: 0 <= j < i ==> clock(j) - start < timeout && !ping(j)
      decreases timeout - PingInterval * i
    {
      if ping(i) {
        assert FirstReplyAt(start, clock, ping, timeout, i);
        return Ok(()), i;
      }
      i := i + 1;
    }
    NoReplyInTime(start, clock, ping, timeout, i);
    return Err(NotReadyError), i;
  }

  /** What one call of `setup_mcp_toolkit` did. */
  datatype Attempt =
    | Connected(toolkit: Toolkit)
    | Cancelled                 // raised `asyncio.CancelledError`
    | Raised(repr: string)      // raised another exception, shown by `repr`

  /** The text the connector keeps as `last_exc` after a failed attempt. */
  function CauseOf(a: Attempt): string
    requires !a.Connected?
  {
    match a
    case Cancelled => "CancelledError"
    case Raised(e) => e
  }

  /** `RuntimeError("MCP setup failed after retries: ...")`, with `last_exc` or `None`. */
  datatype SetupError = SetupExhausted(lastCause: Option<string>)

  function Message(e: SetupError): string {
    "MCP setup failed after retries: " + (match e.lastCause case None => "None" case Some(c) => c)
  }

  /**
   * `setup_mcp_with_retry`: up to `retries` calls, returning the first
   * toolkit obtained; a cancellation is recorded and retried like any other
   * failure; after `retries` failures it raises with the last cause.
   */
  method SetupWithRetry(attempt: nat -> Attempt, retries: int := DefaultRetries)
    returns (r: Result<Toolkit, SetupError>, ghost calls: nat)
    ensures calls <= if retries < 0 then 0 else retries
    ensures forall j :: 0 <= j < calls && (r.Err? || j < calls - 1) ==> !attempt(j).Connected?
    ensures r.Ok? ==> calls >= 1 && attempt(calls - 1) == Connected(r.value)
    ensures r.Err? ==> calls == (if retries < 0 then 0 else retries)
    ensures r.Err? ==> r.error.lastCause == (if calls == 0 then None else Some(CauseOf(attempt(calls - 1))))
    ensures r.Ok? <==> exists j :: 0 <= j < retries && attempt(j).Connected?
  {
    var lastExc: Option<string> := None;
    var i: nat := 0;
    while i < retries
      invariant retries >= 0 ==> i <= retries
      invariant retries < 0 ==> i == 0
      invariant forall j :: 0 <= j < i ==> !attempt(j).Connected?
      invariant lastExc == if i == 0 then None else Some(CauseOf(attempt(i - 1)))
    {
      match attempt(i) {
        case Connected(t) =>
          return Ok(t), i + 1;
        case Cancelled =>
          lastExc := Some("CancelledError");
        case Raised(e) =>
          lastExc := Some(e);
      }
      i := i + 1;
    }
    return Err(SetupExhausted(lastExc)), i;
  }
}
