/** The connection-health state machine of `src/core/connection.ts`. The RPC
    probe (`getSlot`) is not modelled: each probe's outcome is an argument, and
    the backoff timer is a token that fires when `RetryFires` is called. */
module Connection {
  import opened Wrappers
  import opened Constants

  /** The RPC transport, kept opaque. */
  datatype Rpc = Rpc(endpoint: string)

  /** A pending `setTimeout` and its delay in milliseconds. */
  datatype RetryTimer = RetryTimer(delayMs: nat)

  function Pow2(n: nat): (p: nat)
    ensures p >= 1
    ensures n > 0 ==> p == 2 * Pow2(n - 1)
  {
    if n == 0 then 1 else 2 * Pow2(n - 1)
  }

  /** `RECONNECT_INTERVAL * Math.pow(2, attempts)`. */
  function Backoff(attempts: nat): (ms: nat)
    ensures ms >= RECONNECT_INTERVAL
    ensures attempts > 0 ==> ms == 2 * Backoff(attempts - 1)
  {
    RECONNECT_INTERVAL * Pow2(attempts)
  }

  /** The delays of an unbroken run of failures that started from zero
      attempts, once n retries have been scheduled. */
  function Schedule(n: nat): (s: seq<nat>)
    ensures |s| == n
    ensures forall i | 0 <= i < n :: s[i] == Backoff(i)
  {
    if n == 0 then [] else Schedule(n - 1) + [Backoff(n - 1)]
  }

  class ConnectionManager {
    var connection: Rpc
    var reconnectAttempts: nat
    var isConnected: bool
    /** The `reconnectTimeout` field: the last timer scheduled (never reset). */
    var reconnectTimeout: Option<RetryTimer>
    /** Whether that timer is still scheduled: neither fired nor cancelled. */
    var retryArmed: bool

    /** The attempt counter never passes the cap, a connected manager has a
        reset counter and nothing scheduled, and a scheduled retry waits the
        backoff of the current attempt count. */
    predicate Valid()
      reads this
    {
      && reconnectAttempts <= MAX_RECONNECT_ATTEMPTS
      && (isConnected ==> reconnectAttempts == 0)
      && (retryArmed ==>
            && !isConnected
            && reconnectAttempts < MAX_RECONNECT_ATTEMPTS
            && reconnectTimeout == Some(RetryTimer(Backoff(reconnectAttempts))))
    }

    /** `new ConnectionManager(connection, logger)`: runs the first probe. */
    constructor (connection: Rpc, probeSucceeds: bool)
      ensures Valid() && GetConnection() == connection
      ensures probeSucceeds ==> isConnected && reconnectAttempts == 0 && !retryArmed
      ensures !probeSucceeds ==> !isConnected && reconnectAttempts == 0 &&
                                 retryArmed && reconnectTimeout == Some(RetryTimer(RECONNECT_INTERVAL))
    {
      this.connection := connection;
      reconnectAttempts := 0;
      isConnected := false;
      reconnectTimeout := None;
      retryArmed := false;
      new;
      SetupConnectionMonitoring(probeSucceeds);
    }

    /** `setupConnectionMonitoring()`: one probe. It catches every probe
        failure itself and hands it to the failure handler exactly once. It is
        only entered when no retry is scheduled. */
    method SetupConnectionMonitoring(probeSucceeds: bool)
      requires Valid() && !retryArmed
      modifies this
      ensures Valid() && connection == old(connection)
      ensures probeSucceeds ==>
                isConnected && reconnectAttempts == 0 && !retryArmed && reconnectTimeout == old(reconnectTimeout)
      ensures !probeSucceeds ==>
                !isConnected && reconnectAttempts == old(reconnectAttempts) &&
                (retryArmed <==> old(reconnectAttempts) < MAX_RECONNECT_ATTEMPTS)
      ensures !probeSucceeds && retryArmed ==> reconnectTimeout == Some(RetryTimer(Backoff(reconnectAttempts)))
      ensures !probeSucceeds && !retryArmed ==> reconnectTimeout == old(reconnectTimeout)
    {
      if probeSucceeds {
        isConnected := true;
        reconnectAttempts := 0;
      } else {
        HandleConnectionFailure();
      }
    }

    /** `handleConnectionFailure()`: below the cap, schedule a retry after
        `Backoff(attempts)`; at the cap, give up. */
    method HandleConnectionFailure()
      requires Valid() && !retryArmed
      modifies this
      ensures Valid() && !isConnected
      ensures connection == old(connection) && reconnectAttempts == old(reconnectAttempts)
      ensures reconnectAttempts >= MAX_RECONNECT_ATTEMPTS ==>
                !retryArmed && reconnectTimeout == old(reconnectTimeout)
      ensures reconnectAttempts < MAX_RECONNECT_ATTEMPTS ==>
                retryArmed && reconnectTimeout == Some(RetryTimer(Backoff(reconnectAttempts)))
    {
      isConnected := false;
      if reconnectAttempts >= MAX_RECONNECT_ATTEMPTS {
        return;
      }
      var backoffTime := RECONNECT_INTERVAL * Pow2(reconnectAttempts);
      reconnectTimeout := Some(RetryTimer(backoffTime));
      retryArmed := true;
    }

    /** The body of the scheduled retry: count the attempt, then probe again.
        The catch around the probe is unreachable, because the probe handles
        its own failures. */
    method RetryFires(probeSucceeds: bool)
      requires Valid() && retryArmed
      modifies this
      ensures Valid() && connection == old(connection)
      ensures probeSucceeds ==>
                isConnected && reconnectAttempts == 0 && !retryArmed && reconnectTimeout == old(reconnectTimeout)
      ensures !probeSucceeds ==>
                !isConnected && reconnectAttempts == old(reconnectAttempts) + 1 &&
                (retryArmed <==> reconnectAttempts < MAX_RECONNECT_ATTEMPTS) &&
                (retryArmed ==> reconnectTimeout == Some(RetryTimer(Backoff(reconnectAttempts)))) &&
                (!retryArmed ==> reconnectTimeout == old(reconnectTimeout))
    {
      retryArmed := false;
      reconnectAttempts := reconnectAttempts + 1;
      SetupConnectionMonitoring(probeSucceeds);
    }

    /** `getConnectionStatus()`: the current belief; it probes nothing. */
    function GetConnectionStatus(): (connected: bool)
      reads this
      requires Valid()
      ensures connected ==> reconnectAttempts == 0 && !retryArmed
    {
      isConnected
    }

    /** `getConnection()`: the transport last given to the constructor or to
        `updateConnection`. */
    function GetConnection(): (c: Rpc)
      reads this
      ensures c == connection
    {
      connection
    }

    /** `cleanup()`: cancel any scheduled retry and reset. */
    method Cleanup()
      requires Valid()
      modifies this
      ensures Valid() && connection == old(connection) && reconnectTimeout == old(reconnectTimeout)
      ensures !GetConnectionStatus() && reconnectAttempts == 0 && !retryArmed
    {
      if reconnectTimeout.Some? {
        retryArmed := false;
      }
      isConnected := false;
      reconnectAttempts := 0;
    }

    /** `updateConnection(newConnection)`: clean up, swap the transport, probe once. */
    method UpdateConnection(newConnection: Rpc, probeSucceeds: bool)
      requires Valid()
      modifies this
      ensures Valid() && GetConnection() == newConnection
      ensures probeSucceeds ==>
                isConnected && reconnectAttempts == 0 && !retryArmed && reconnectTimeout == old(reconnectTimeout)
      ensures !probeSucceeds ==>
                !isConnected && reconnectAttempts == 0 &&
                retryArmed && reconnectTimeout == Some(RetryTimer(RECONNECT_INTERVAL))
    {
      Cleanup();
      connection := newConnection;
      SetupConnectionMonitoring(probeSucceeds);
    }
  }

  /** A transport that never answers: the manager waits 1000, 2000, 4000, 8000
      and 16000 ms between probes and stops after the sixth failed probe,
      disconnected and with nothing scheduled. */
  method UnbrokenFailureRun(rpc: Rpc) returns (delays: seq<nat>, probes: nat, connected: bool, retryPending: bool)
    ensures delays == [1000, 2000, 4000, 8000, 16000]
    ensures probes == MAX_RECONNECT_ATTEMPTS + 1
    ensures !connected && !retryPending
  {
    var cm := new ConnectionManager(rpc, false);
    probes := 1;
    delays := [];
    while cm.retryArmed
      invariant cm.Valid() && !cm.isConnected
      invariant delays == Schedule(cm.reconnectAttempts)
      invariant probes == cm.reconnectAttempts + 1
      invariant !cm.retryArmed ==> cm.reconnectAttempts == MAX_RECONNECT_ATTEMPTS
      decreases MAX_RECONNECT_ATTEMPTS - cm.reconnectAttempts
    {
      delays := delays + [cm.reconnectTimeout.value.delayMs];
      cm.RetryFires(false);
      probes := probes + 1;
    }
    assert Schedule(5) == [Backoff(0), Backoff(1), Backoff(2), Backoff(3), Backoff(4)];
    connected, retryPending := cm.GetConnectionStatus(), cm.retryArmed;
  }
}
