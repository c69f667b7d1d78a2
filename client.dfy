/** The public client of `src/client/AuryxClient.ts`: a registry of callbacks
    per pair, a polling timer per subscribed pair and the fan-out of each poll
    to the registered callbacks. Callbacks are opaque tokens; calling one is
    recorded as a delivery. A timer tick is an explicit call. */
module Client {
  import opened Wrappers
  import opened JsNumbers
  import opened Constants
  import opened Errors
  import opened Timers
  import opened PriceOracle
  import opened Connection

  /** A subscriber's callback, compared by identity as a JavaScript `Set` does. */
  datatype Callback = Callback(id: nat)

  /** `PriceUpdate`. */
  datatype PriceUpdate = PriceUpdate(pair: string, price: JsNum, timestamp: int)

  /** One call `callback(update)`. */
  datatype Delivery = Delivery(callback: Callback, update: PriceUpdate)

  /** The closure `subscribe` returns: it removes `callback` from the set of
      `pair` it captured. The captured set is the registry entry of `pair`,
      since registry entries are never replaced or removed. */
  datatype Unsubscribe = Unsubscribe(pair: string, callback: Callback)

  /** The callbacks a sequence of deliveries reached. */
  ghost function Recipients(ds: seq<Delivery>): set<Callback>
  {
    set i | 0 <= i < |ds| :: ds[i].callback
  }

  /** No callback is called twice. */
  predicate OncePerCallback(ds: seq<Delivery>)
  {
    forall i, j | 0 <= i < j < |ds| :: ds[i].callback != ds[j].callback
  }

  /** The registered callbacks of `pair`, empty when it has no entry. */
  function CallbacksOf(subscriptions: map<string, set<Callback>>, pair: string): set<Callback>
  {
    if pair in subscriptions then subscriptions[pair] else {}
  }

  /** The handles stored for the pairs in `pairs`. */
  ghost function HandlesOf(intervals: map<string, Handle>, pairs: set<string>): set<Handle>
  {
    set p | p in pairs && p in intervals :: intervals[p]
  }

  /** `callbacks.forEach(callback => callback(update))`: every callback of the
      set is called exactly once, all with the same update. */
  method Broadcast(callbacks: set<Callback>, update: PriceUpdate) returns (ds: seq<Delivery>)
    ensures Recipients(ds) == callbacks
    ensures OncePerCallback(ds)
    ensures forall i | 0 <= i < |ds| :: ds[i].update == update
  {
    ds := [];
    var remaining := callbacks;
    while remaining != {}
      invariant remaining <= callbacks
      invariant Recipients(ds) == callbacks - remaining
      invariant OncePerCallback(ds)
      invariant forall i | 0 <= i < |ds| :: ds[i].update == update
      decreases remaining
    {
      var cb :| cb in remaining;
      assert Recipients(ds + [Delivery(cb, update)]) == Recipients(ds) + {cb} by {
        var ds' := ds + [Delivery(cb, update)];
        assert forall i | 0 <= i < |ds| :: ds'[i] == ds[i];
        assert ds'[|ds|].callback == cb;
      }
      ds := ds + [Delivery(cb, update)];
      remaining := remaining - {cb};
    }
  }

  /** What `getPrice(pair)` makes of the oracle's outcome: a quote unchanged,
      any failure wrapped once more as PRICE_FETCH_ERROR. */
  function ClientQuote(pair: string, fetched: Result<PriceData, AuryxError>): (r: Result<PriceData, AuryxError>)
    ensures r.Ok? <==> fetched.Ok?
    ensures r.Ok? ==> r.value == fetched.value
    ensures r.Err? ==> r.error == PriceFetchFailure(pair, Auryx(fetched.error))
    ensures r.Err? ==> r.error.code == PriceFetchError
  {
    match fetched
    case Ok(quote) => Ok(quote)
    case Err(e) => Err(PriceFetchFailure(pair, Auryx(e)))
  }

  /** The pairs with at least one registered callback. */
  ghost function ActivePairsOf(subscriptions: map<string, set<Callback>>): set<string>
  {
    set p | p in subscriptions && subscriptions[p] != {}
  }

  /** The running timers are exactly the stored handles, each polling its own
      pair: no timer runs that nothing can stop. */
  ghost predicate TimersMatch(intervals: map<string, Handle>, active: map<Handle, PollTimer>)
  {
    && (forall p | p in intervals :: intervals[p] in active && active[intervals[p]] == PollTimer(p, UPDATE_INTERVAL))
    && (forall h | h in active :: active[h].pair in intervals && intervals[active[h].pair] == h)
  }

  /** What `subscribe` does to the registry, the handle table and the running
      timers keeps "a handle only for a pair with callbacks" and the polling
      lifecycle; it keeps the timers matched to the handles when the callback
      is new to the pair. */
  lemma SubscribeStep(subs: map<string, set<Callback>>, intervals: map<string, Handle>,
                      active: map<Handle, PollTimer>, pair: string, cb: Callback,
                      subs': map<string, set<Callback>>, intervals': map<string, Handle>,
                      active': map<Handle, PollTimer>)
    requires intervals.Keys <= ActivePairsOf(subs)
    requires subs' == subs[pair := CallbacksOf(subs, pair) + {cb}]
    requires |subs'[pair]| == 1 ==>
               && pair in intervals' && intervals'[pair] !in active
               && active' == active[intervals'[pair] := PollTimer(pair, UPDATE_INTERVAL)]
               && intervals' == intervals[pair := intervals'[pair]]
    requires |subs'[pair]| != 1 ==> intervals' == intervals && active' == active
    ensures intervals'.Keys <= ActivePairsOf(subs')
    ensures intervals.Keys == ActivePairsOf(subs) ==> intervals'.Keys == ActivePairsOf(subs')
    ensures TimersMatch(intervals, active) && cb !in CallbacksOf(subs, pair) ==> TimersMatch(intervals', active')
  {
    assert ActivePairsOf(subs') == ActivePairsOf(subs) + {pair};
    if |subs'[pair]| == 1 {
      if TimersMatch(intervals, active) && cb !in CallbacksOf(subs, pair) {
        assert CallbacksOf(subs, pair) == {};
        assert pair !in intervals;
        var h := intervals'[pair];
        forall q | q in intervals'
          ensures intervals'[q] in active' && active'[intervals'[q]] == PollTimer(q, UPDATE_INTERVAL)
        {
          if q != pair {
            assert intervals'[q] == intervals[q] && intervals[q] in active && intervals[q] != h;
          }
        }
        forall g | g in active'
          ensures active'[g].pair in intervals' && intervals'[active'[g].pair] == g
        {
          if g != h {
            assert g in active && active'[g] == active[g];
            assert active[g].pair != pair;
          }
        }
      }
    } else {
      assert CallbacksOf(subs, pair) != {};
    }
  }

  /** What the unsubscribe closure does keeps the same three properties, and
      it leaves a state in which calling it again changes nothing. */
  lemma UnsubscribeStep(subs: map<string, set<Callback>>, intervals: map<string, Handle>,
                        active: map<Handle, PollTimer>, pair: string, cb: Callback,
                        subs': map<string, set<Callback>>, intervals': map<string, Handle>,
                        active': map<Handle, PollTimer>)
    requires intervals.Keys <= ActivePairsOf(subs) && pair in subs
    requires subs' == subs[pair := subs[pair] - {cb}]
    requires subs'[pair] == {} ==>
               intervals' == intervals - {pair} && active' == active - HandlesOf(intervals, {pair})
    requires subs'[pair] != {} ==> intervals' == intervals && active' == active
    ensures intervals'.Keys <= ActivePairsOf(subs')
    ensures intervals.Keys == ActivePairsOf(subs) ==> intervals'.Keys == ActivePairsOf(subs')
    ensures TimersMatch(intervals, active) ==> TimersMatch(intervals', active')
    ensures cb !in subs'[pair] && (subs'[pair] != {} || pair !in intervals')
    ensures cb !in subs[pair] && (subs[pair] != {} || pair !in intervals) ==>
              subs' == subs && intervals' == intervals && active' == active
  {
    if cb !in subs[pair] && (subs[pair] != {} || pair !in intervals) {
      assert subs[pair] - {cb} == subs[pair];
      if pair !in intervals {
        assert HandlesOf(intervals, {pair}) == {};
      }
    }
    if subs'[pair] == {} {
      assert ActivePairsOf(subs') == ActivePairsOf(subs) - {pair};
      if TimersMatch(intervals, active) && pair in intervals {
        var h := intervals[pair];
        assert HandlesOf(intervals, {pair}) == {h};
        forall q | q in intervals'
          ensures intervals'[q] in active' && active'[intervals'[q]] == PollTimer(q, UPDATE_INTERVAL)
        {
          assert active[intervals[q]].pair == q;
        }
      }
    } else {
      assert ActivePairsOf(subs') == ActivePairsOf(subs);
    }
  }

  /** Stopping one more pair stops its stored handle as well. */
  lemma HandlesOfAdd(intervals: map<string, Handle>, done: set<string>, p: string)
    ensures HandlesOf(intervals, done + {p}) == HandlesOf(intervals, done) + HandlesOf(intervals, {p})
  {
  }

  /** Stopping the handle of every registered pair stops every stored handle;
      when the timers matched the handles, nothing is left running. */
  lemma CleanupStep(subs: map<string, set<Callback>>, intervals: map<string, Handle>,
                    active: map<Handle, PollTimer>, active': map<Handle, PollTimer>)
    requires intervals.Keys <= ActivePairsOf(subs)
    requires active' == active - HandlesOf(intervals, subs.Keys)
    ensures active' == active - intervals.Values
    ensures TimersMatch(intervals, active) ==> active' == map[] && TimersMatch(map[], active')
  {
    assert HandlesOf(intervals, subs.Keys) == intervals.Values;
    if TimersMatch(intervals, active) {
      assert active'.Keys == {};
    }
  }

  class AuryxClient {
    /** The runtime's interval timers. */
    const timers: IntervalTimers
    const connectionManager: ConnectionManager
    const oracle: Oracle
    var subscriptions: map<string, set<Callback>>

    /** The pairs with at least one registered callback. */
    ghost function ActivePairs(): set<string>
      reads this
    {
      ActivePairsOf(subscriptions)
    }

    /** A handle is stored only for a pair that has callbacks. */
    ghost predicate Valid()
      reads this, oracle, timers, connectionManager
    {
      && oracle.timers == timers
      && oracle.Valid()
      && connectionManager.Valid()
      && oracle.updateIntervals.Keys <= ActivePairs()
    }

    /** Polling lifecycle: a pair has a stored timer handle iff its callback
        set is non-empty. */
    ghost predicate Lifecycle()
      reads this, oracle
    {
      oracle.updateIntervals.Keys == ActivePairs()
    }

    /** No timer runs that nothing can stop. */
    ghost predicate NoLeak()
      reads this, oracle, timers
    {
      TimersMatch(oracle.updateIntervals, timers.active)
    }

    /** `new AuryxClient(connection)`: the connection manager runs its first
        probe, whose outcome is `probeSucceeds`. */
    constructor (rpc: Rpc, probeSucceeds: bool)
      ensures Valid() && Lifecycle() && NoLeak()
      ensures fresh(timers) && fresh(connectionManager) && fresh(oracle)
      ensures subscriptions == map[] && oracle.priceCache == map[] && timers.active == map[]
      ensures connectionManager.connection == rpc && connectionManager.isConnected == probeSucceeds
      ensures connectionManager.reconnectAttempts == 0
      ensures !probeSucceeds ==>
                connectionManager.retryArmed &&
                connectionManager.reconnectTimeout == Some(RetryTimer(RECONNECT_INTERVAL))
    {
      var t := new IntervalTimers();
      timers := t;
      connectionManager := new ConnectionManager(rpc, probeSucceeds);
      oracle := new Oracle(t);
      subscriptions := map[];
    }

    /** `getPrice(pair)`. */
    method GetPrice(pair: string, now: int, aggregated: Result<JsValue, Thrown>, proof: Result<Proof, Thrown>)
      returns (r: Result<PriceData, AuryxError>)
      requires Valid()
      modifies oracle`priceCache
      ensures Valid()
      ensures r == ClientQuote(pair, Fetch(old(oracle.priceCache), pair, now, aggregated, proof).outcome)
      ensures oracle.priceCache == Fetch(old(oracle.priceCache), pair, now, aggregated, proof).cache
    {
      var fetched := oracle.FetchPrice(pair, now, aggregated, proof);
      r := ClientQuote(pair, fetched);
    }

    /** `subscribe(pair, callback)`: register the callback and, when it makes
        the set a singleton, start a polling timer for the pair. */
    method Subscribe(pair: string, callback: Callback) returns (unsubscribe: Unsubscribe)
      requires Valid()
      modifies this, oracle`updateIntervals, timers
      ensures Valid() && unsubscribe == Unsubscribe(pair, callback)
      ensures subscriptions == old(subscriptions)[pair := CallbacksOf(old(subscriptions), pair) + {callback}]
      ensures |subscriptions[pair]| == 1 ==>
                && pair in oracle.updateIntervals
                && oracle.updateIntervals[pair] !in old(timers.active)
                && timers.active == old(timers.active)[oracle.updateIntervals[pair] := PollTimer(pair, UPDATE_INTERVAL)]
                && oracle.updateIntervals - {pair} == old(oracle.updateIntervals) - {pair}
      ensures |subscriptions[pair]| != 1 ==>
                timers.active == old(timers.active) && oracle.updateIntervals == old(oracle.updateIntervals)
      ensures oracle.priceCache == old(oracle.priceCache)
      ensures old(Lifecycle()) ==> Lifecycle()
      ensures old(NoLeak()) && callback !in CallbacksOf(old(subscriptions), pair) ==> NoLeak()
    {
      if pair !in subscriptions {
        subscriptions := subscriptions[pair := {}];
      }
      var callbacks := subscriptions[pair] + {callback};
      subscriptions := subscriptions[pair := callbacks];
      if |callbacks| == 1 {
        StartPriceUpdates(pair);
      }
      SubscribeStep(old(subscriptions), old(oracle.updateIntervals), old(timers.active), pair, callback,
                    subscriptions, oracle.updateIntervals, timers.active);
      unsubscribe := Unsubscribe(pair, callback);
    }

    /** Calling the closure `subscribe` returned: remove the callback and, when
        the set becomes empty, stop the pair's timer. Calling it again is a
        no-op: the callback is already gone and no handle is left to stop. */
    method RunUnsubscribe(u: Unsubscribe)
      requires Valid() && u.pair in subscriptions
      modifies this, oracle`updateIntervals, timers
      ensures Valid()
      ensures subscriptions == old(subscriptions)[u.pair := old(subscriptions)[u.pair] - {u.callback}]
      ensures subscriptions[u.pair] == {} ==>
                oracle.updateIntervals == old(oracle.updateIntervals) - {u.pair} &&
                timers.active == old(timers.active) - HandlesOf(old(oracle.updateIntervals), {u.pair})
      ensures subscriptions[u.pair] != {} ==>
                timers.active == old(timers.active) && oracle.updateIntervals == old(oracle.updateIntervals)
      // what a second call finds, and that it then changes nothing
      ensures u.callback !in subscriptions[u.pair] &&
              (subscriptions[u.pair] != {} || u.pair !in oracle.updateIntervals)
      ensures u.callback !in old(subscriptions)[u.pair] &&
              (old(subscriptions)[u.pair] != {} || u.pair !in old(oracle.updateIntervals)) ==>
                subscriptions == old(subscriptions) &&
                oracle.updateIntervals == old(oracle.updateIntervals) && timers.active == old(timers.active)
      ensures oracle.priceCache == old(oracle.priceCache)
      ensures old(Lifecycle()) ==> Lifecycle()
      ensures old(NoLeak()) ==> NoLeak()
    {
      var callbacks := subscriptions[u.pair] - {u.callback};
      subscriptions := subscriptions[u.pair := callbacks];
      if |callbacks| == 0 {
        StopPriceUpdates(u.pair);
      }
      UnsubscribeStep(old(subscriptions), old(oracle.updateIntervals), old(timers.active), u.pair, u.callback,
                      subscriptions, oracle.updateIntervals, timers.active);
    }

    /** `startPriceUpdates(pair)`: start an interval and store its handle. */
    method StartPriceUpdates(pair: string)
      requires oracle.timers == timers && timers.Valid()
      modifies oracle`updateIntervals, timers
      ensures timers.Valid()
      ensures pair in oracle.updateIntervals && oracle.updateIntervals[pair] !in old(timers.active)
      ensures timers.active == old(timers.active)[oracle.updateIntervals[pair] := PollTimer(pair, UPDATE_INTERVAL)]
      ensures oracle.updateIntervals == old(oracle.updateIntervals)[pair := oracle.updateIntervals[pair]]
    {
      var interval := timers.Start(pair, UPDATE_INTERVAL);
      oracle.SetUpdateInterval(pair, interval);
    }

    /** `stopPriceUpdates(pair)`: stop and forget the stored timer, if any. */
    method StopPriceUpdates(pair: string)
      requires oracle.timers == timers && timers.Valid()
      modifies oracle`updateIntervals, timers
      ensures timers.Valid()
      ensures oracle.updateIntervals == old(oracle.updateIntervals) - {pair}
      ensures timers.active == old(timers.active) - HandlesOf(old(oracle.updateIntervals), {pair})
    {
      var interval := oracle.GetUpdateInterval(pair);
      if interval.Some? {
        timers.Clear(interval.value);
        oracle.ClearUpdateInterval(pair);
        assert HandlesOf(old(oracle.updateIntervals), {pair}) == {interval.value};
      } else {
        assert HandlesOf(old(oracle.updateIntervals), {pair}) == {};
      }
    }

    /** One firing of the interval `h`: fetch the price of its pair at `now`
        and, on success, send `{pair, price, timestamp: updatedAt}` to every
        callback registered for the pair at that moment, where `updatedAt` is
        the clock read after the fetch has completed. A failed fetch is
        swallowed: nobody is called and the subscriptions stay as they are. */
    method Tick(h: Handle, now: int, aggregated: Result<JsValue, Thrown>, proof: Result<Proof, Thrown>,
                updatedAt: int)
      returns (ds: seq<Delivery>)
      requires Valid() && h in timers.active
      modifies oracle`priceCache
      ensures Valid()
      ensures var pair := timers.active[h].pair;
              var fetched := Fetch(old(oracle.priceCache), pair, now, aggregated, proof);
              && oracle.priceCache == fetched.cache
              && (fetched.outcome.Err? ==> ds == [])
              && (fetched.outcome.Ok? ==>
                    && Recipients(ds) == CallbacksOf(subscriptions, pair)
                    && OncePerCallback(ds)
                    && forall i | 0 <= i < |ds| ::
                         ds[i].update == PriceUpdate(pair, fetched.outcome.value.price, updatedAt))
    {
      var pair := timers.active[h].pair;
      var price := GetPrice(pair, now, aggregated, proof);
      if price.Err? {
        ds := [];
        return;
      }
      if pair in subscriptions {
        var update := PriceUpdate(pair, price.value.price, updatedAt);
        ds := Broadcast(subscriptions[pair], update);
      } else {
        ds := [];
        assert Recipients(ds) == {};
      }
    }

    /** `isConnected()`. */
    function IsConnected(): (connected: bool)
      reads this, connectionManager
      requires connectionManager.Valid()
      ensures connected == connectionManager.GetConnectionStatus()
      ensures connected ==> !connectionManager.retryArmed
    {
      connectionManager.GetConnectionStatus()
    }

    /** `cleanup()`: stop the timer of every pair in the registry, then reset
        the connection manager. The registry itself is kept, so afterwards
        the polling lifecycle holds only if no pair has callbacks. */
    method Cleanup()
      requires Valid()
      modifies oracle`updateIntervals, timers, connectionManager
      ensures Valid()
      ensures oracle.updateIntervals == map[]
      ensures timers.active == old(timers.active) - old(oracle.updateIntervals).Values
      ensures oracle.priceCache == old(oracle.priceCache)
      ensures !IsConnected() && connectionManager.reconnectAttempts == 0 && !connectionManager.retryArmed
      ensures connectionManager.connection == old(connectionManager.connection)
      ensures connectionManager.reconnectTimeout == old(connectionManager.reconnectTimeout)
      ensures Lifecycle() <==> ActivePairs() == {}
      ensures old(NoLeak()) ==> NoLeak() && timers.active == map[]
    {
      var pairs := subscriptions.Keys;
      while pairs != {}
        invariant pairs <= subscriptions.Keys
        invariant oracle.timers == timers && timers.Valid() && oracle.Valid()
        invariant oracle.updateIntervals == old(oracle.updateIntervals) - (subscriptions.Keys - pairs)
        invariant timers.active ==
                    old(timers.active) - HandlesOf(old(oracle.updateIntervals), subscriptions.Keys - pairs)
        invariant unchanged(connectionManager)
        invariant oracle.priceCache == old(oracle.priceCache)
        decreases pairs
      {
        var p :| p in pairs;
        StopPriceUpdates(p);
        HandlesOfAdd(old(oracle.updateIntervals), subscriptions.Keys - pairs, p);
        assert subscriptions.Keys - pairs + {p} == subscriptions.Keys - (pairs - {p});
        pairs := pairs - {p};
      }
      CleanupStep(old(subscriptions), old(oracle.updateIntervals), old(timers.active), timers.active);
      connectionManager.Cleanup();
    }
  }

  /** Two callbacks on BTC/USD: removing one keeps the pair's timer running,
      removing the other stops it. */
  method TwoSubscribersScenario(rpc: Rpc) returns (pollingAfterFirst: bool, pollingAfterSecond: bool)
    ensures pollingAfterFirst && !pollingAfterSecond
  {
    var c := new AuryxClient(rpc, true);
    var u1 := c.Subscribe("BTC/USD", Callback(1));
    var u2 := c.Subscribe("BTC/USD", Callback(2));
    c.RunUnsubscribe(u1);
    pollingAfterFirst := c.oracle.GetUpdateInterval("BTC/USD").Some? &&
                         c.oracle.GetUpdateInterval("BTC/USD").value in c.timers.active;
    c.RunUnsubscribe(u2);
    pollingAfterSecond := c.oracle.GetUpdateInterval("BTC/USD").Some? || c.timers.active != map[];
  }

  /** Subscribing the sole callback of a pair a second time makes the set a
      singleton again, so a second timer starts and its handle overwrites the
      first. After the unsubscribe the first timer still polls the pair, with
      no callbacks and no stored handle left to stop it. */
  method ResubscribeLeaksTimer(rpc: Rpc) returns (orphan: Handle, c: AuryxClient)
    ensures fresh(c) && fresh(c.timers) && fresh(c.oracle) && fresh(c.connectionManager)
    ensures c.Valid() && c.Lifecycle() && !c.NoLeak()
    ensures "SOL/USD" in c.subscriptions && c.subscriptions["SOL/USD"] == {} && c.oracle.GetUpdateInterval("SOL/USD") == None
    ensures orphan in c.timers.active && c.timers.active[orphan] == PollTimer("SOL/USD", UPDATE_INTERVAL)
  {
    c := new AuryxClient(rpc, true);
    var cb := Callback(7);
    var u := c.Subscribe("SOL/USD", cb);
    orphan := c.oracle.updateIntervals["SOL/USD"];
    u := c.Subscribe("SOL/USD", cb);
    assert c.oracle.updateIntervals["SOL/USD"] != orphan;
    c.RunUnsubscribe(u);
  }
}
