/** The data synchronisation manager (src/services/dataSyncManager.js).
    Timers are modelled by handles: `setInterval` hands out the next
    unused handle and `clearInterval` removes a handle from the set of
    running intervals. A sync is split at its `await`: `BeginSync` is the
    synchronous part up to the call of the fetch function, `FinishSync`
    the part after it settles (the fetch itself is a parameter). */
module DataSync {
  import opened Options

  const AsteroidsKey: string := "asteroids"

  function WatchlistKey(userId: string): (k: string)
    ensures |k| == 10 + |userId| && k[10..] == userId
  {
    "watchlist-" + userId
  }

  function AlertsKey(userId: string): (k: string)
    ensures |k| == 7 + |userId| && k[7..] == userId
  {
    "alerts-" + userId
  }

  /** The three keys a user's sync registers are distinct, and different
      users get different keys. */
  lemma SyncKeysDistinct(userId: string, other: string)
    ensures AsteroidsKey != WatchlistKey(userId)
    ensures AsteroidsKey != AlertsKey(userId)
    ensures WatchlistKey(userId) != AlertsKey(userId)
    ensures userId != other ==> WatchlistKey(userId) != WatchlistKey(other) && AlertsKey(userId) != AlertsKey(other)
  {
    assert AsteroidsKey[0] != WatchlistKey(userId)[0];
    assert AsteroidsKey[1] != AlertsKey(userId)[1];
    assert WatchlistKey(userId)[0] != AlertsKey(userId)[0];
  }

  class SyncManager {
    /** The registered interval of each key. */
    var syncTimers: map<string, nat>
    var isSyncing: bool
    /** The time of the last successful sync of each key. */
    var lastSyncTimes: map<string, string>
    /** The intervals the browser is still running. */
    var running: set<nat>
    /** The handle the next `setInterval` returns. */
    var nextHandle: nat
    /** The key whose sync is awaiting its fetch. */
    var inFlight: Option<string>

    /** Every running interval is registered under exactly one key, and
        handles are positive (truthy) and never reused. */
    ghost predicate Valid()
      reads this
    {
      && nextHandle >= 1
      && (forall k :: k in syncTimers ==> 1 <= syncTimers[k] < nextHandle)
      && running == syncTimers.Values
      && (forall a, b :: a in syncTimers && b in syncTimers && a != b ==> syncTimers[a] != syncTimers[b])
      && (isSyncing <==> inFlight.Some?)
    }

    constructor()
      ensures Valid()
      ensures syncTimers == map[] && running == {} && !isSyncing && lastSyncTimes == map[]
    {
      syncTimers := map[];
      isSyncing := false;
      lastSyncTimes := map[];
      running := {};
      nextHandle := 1;
      inFlight := None;
    }

    /** syncData up to its `await`: skipped while another sync runs. */
    method BeginSync(key: string) returns (started: bool)
      requires Valid()
      modifies this
      ensures Valid()
      ensures started == !old(isSyncing)
      ensures isSyncing
      ensures inFlight == if started then Some(key) else old(inFlight)
      ensures syncTimers == old(syncTimers) && running == old(running) && nextHandle == old(nextHandle)
      ensures lastSyncTimes == old(lastSyncTimes)
    {
      if isSyncing {
        return false;
      }
      isSyncing := true;
      inFlight := Some(key);
      started := true;
    }

    /** syncData after its `await`: a successful fetch records the time;
        either way the flag is released. */
    method FinishSync(succeeded: bool, now: string)
      requires Valid()
      modifies this
      ensures Valid()
      ensures !isSyncing && inFlight == None
      ensures lastSyncTimes == if succeeded && old(inFlight).Some? then old(lastSyncTimes)[old(inFlight).value := now] else old(lastSyncTimes)
      ensures syncTimers == old(syncTimers) && running == old(running) && nextHandle == old(nextHandle)
    {
      if inFlight.Some? && succeeded {
        lastSyncTimes := lastSyncTimes[inFlight.value := now];
      }
      isSyncing := false;
      inFlight := None;
    }

    /** startAutoSync: clears the key's old interval, syncs once and
        registers a fresh interval. */
    method StartAutoSync(key: string) returns (immediate: bool)
      requires Valid()
      modifies this
      ensures Valid()
      ensures immediate == !old(isSyncing)
      ensures isSyncing
      ensures inFlight == if immediate then Some(key) else old(inFlight)
      ensures syncTimers == old(syncTimers)[key := old(nextHandle)]
      ensures running == (if key in old(syncTimers) then old(running) - {old(syncTimers)[key]} else old(running)) + {old(nextHandle)}
      ensures old(nextHandle) !in old(running)
      ensures nextHandle == old(nextHandle) + 1
      ensures lastSyncTimes == old(lastSyncTimes)
    {
      // The immediate sync touches only the sync flag, so it commutes with
      // clearing the old interval, which the source does first. Clearing
      // and then overwriting the key leaves the registry as removing it
      // and then adding it back does.
      immediate := BeginSync(key);
      StopAutoSync(key);
      RegisterInterval(key);
      assert syncTimers == old(syncTimers)[key := old(nextHandle)];
    }

    /** setInterval for a key with no interval: a fresh handle. */
    method RegisterInterval(key: string)
      requires Valid() && key !in syncTimers
      modifies this
      ensures Valid()
      ensures syncTimers == old(syncTimers)[key := old(nextHandle)]
      ensures running == old(running) + {old(nextHandle)}
      ensures old(nextHandle) !in old(running)
      ensures nextHandle == old(nextHandle) + 1
      ensures isSyncing == old(isSyncing) && inFlight == old(inFlight) && lastSyncTimes == old(lastSyncTimes)
    {
      var handle := nextHandle;
      nextHandle := nextHandle + 1;
      running := running + {handle};
      syncTimers := syncTimers[key := handle];
      assert running == syncTimers.Values by {
        forall h | h in syncTimers.Values ensures h in running {
          var k :| k in syncTimers && syncTimers[k] == h;
          if k != key {
            assert k in old(syncTimers) && old(syncTimers)[k] == h;
          }
        }
        forall h | h in running ensures h in syncTimers.Values {
          if h != handle {
            var k :| k in old(syncTimers) && old(syncTimers)[k] == h;
            assert syncTimers[k] == h;
          } else {
            assert syncTimers[key] == h;
          }
        }
      }
    }

    /** The interval of a registered key fires: another sync of that key. */
    method Tick(key: string) returns (started: bool)
      requires Valid() && key in syncTimers
      modifies this
      ensures Valid()
      ensures started == !old(isSyncing)
      ensures inFlight == if started then Some(key) else old(inFlight)
      ensures syncTimers == old(syncTimers) && running == old(running) && lastSyncTimes == old(lastSyncTimes)
    {
      started := BeginSync(key);
    }

    /** stopAutoSync: clears and forgets the key's interval, if any. */
    method StopAutoSync(key: string)
      requires Valid()
      modifies this
      ensures Valid()
      ensures syncTimers == old(syncTimers) - {key}
      ensures running == if key in old(syncTimers) then old(running) - {old(syncTimers)[key]} else old(running)
      ensures isSyncing == old(isSyncing) && inFlight == old(inFlight) && nextHandle == old(nextHandle)
      ensures lastSyncTimes == old(lastSyncTimes)
    {
      if key in syncTimers {
        var handle := syncTimers[key];
        running := running - {handle};
        syncTimers := syncTimers - {key};
        assert running == syncTimers.Values by {
          forall h | h in running ensures h in syncTimers.Values {
            var k :| k in old(syncTimers) && old(syncTimers)[k] == h;
            assert k != key;
            assert syncTimers[k] == h;
          }
        }
      }
    }

    /** stopAllSync: stops every registered key in turn. */
    method StopAllSync()
      requires Valid()
      modifies this
      ensures Valid()
      ensures syncTimers == map[] && running == {}
      ensures isSyncing == old(isSyncing) && inFlight == old(inFlight) && nextHandle == old(nextHandle)
      ensures lastSyncTimes == old(lastSyncTimes)
    {
      var keys := syncTimers.Keys;
      while keys != {}
        invariant Valid()
        invariant keys == syncTimers.Keys
        invariant isSyncing == old(isSyncing) && inFlight == old(inFlight) && nextHandle == old(nextHandle)
        invariant lastSyncTimes == old(lastSyncTimes)
        decreases |keys|
      {
        var k :| k in keys;
        StopAutoSync(k);
        keys := keys - {k};
      }
      assert syncTimers == map[];
    }

    /** getLastSyncTime: undefined for a key never synced. */
    function GetLastSyncTime(key: string): (t: Option<string>)
      reads this
      ensures t.Some? <==> key in lastSyncTimes
      ensures t.Some? ==> t.value == lastSyncTimes[key]
    {
      if key in lastSyncTimes then Some(lastSyncTimes[key]) else None
    }

    /** manualSync: one sync of the key, under the same guard. */
    method ManualSync(key: string) returns (started: bool)
      requires Valid()
      modifies this
      ensures Valid()
      ensures started == !old(isSyncing)
      ensures inFlight == if started then Some(key) else old(inFlight)
      ensures syncTimers == old(syncTimers) && running == old(running) && lastSyncTimes == old(lastSyncTimes)
    {
      started := BeginSync(key);
    }

    function IsCurrentlySyncing(): bool
      reads this
    {
      isSyncing
    }

    /** initializeUserSync: nothing for an empty id; otherwise the three
        keys of the user are (re)registered. All three immediate syncs are
        requested back to back, so only the first can start: the other two
        find the flag it has just set. */
    method InitializeUserSync(userId: string) returns (started: seq<string>)
      requires Valid()
      modifies this
      ensures Valid()
      ensures userId == "" ==> started == [] && syncTimers == old(syncTimers) && running == old(running) && isSyncing == old(isSyncing) && inFlight == old(inFlight)
      ensures userId != "" ==> started == (if old(isSyncing) then [] else [AsteroidsKey])
      ensures userId != "" ==> isSyncing && inFlight == (if old(isSyncing) then old(inFlight) else Some(AsteroidsKey))
      ensures userId != "" ==> syncTimers == old(syncTimers)[AsteroidsKey := old(nextHandle)][WatchlistKey(userId) := old(nextHandle) + 1][AlertsKey(userId) := old(nextHandle) + 2]
      ensures userId != "" ==> nextHandle == old(nextHandle) + 3
      ensures lastSyncTimes == old(lastSyncTimes)
    {
      if userId == "" {
        return [];
      }
      SyncKeysDistinct(userId, userId);
      var first := StartAutoSync(AsteroidsKey);
      var second := StartAutoSync(WatchlistKey(userId));
      var third := StartAutoSync(AlertsKey(userId));
      assert !second && !third;
      started := if first then [AsteroidsKey] else [];
    }
  }
}
