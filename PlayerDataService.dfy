/** `PlayerDataService`: the in-memory cache of player records in front of the durable
    store. The cache and the store are map fields that the methods update in place; every
    method also states that the new state is the one `ServiceSpec` gives, so the trace
    lemmas there apply to any sequence of calls on one service. */
module PlayerDataService {
  import opened PlayerDataModel
  import ServiceSpec

  class Service {
    /** `playerDataCache`, without its size bound and time-to-live. */
    var cache: map<Uuid, PlayerData>
    /** The records held by `PlayerDataRepository`. */
    var store: map<Uuid, PlayerData>
    /** `PlayerData.createDefaultPlayerData`. */
    const createDefault: Uuid -> PlayerData

    function State(): ServiceSpec.State
      reads this
    {
      ServiceSpec.State(cache, store)
    }

    /** A new service over an existing repository starts with an empty cache. */
    constructor (repository: map<Uuid, PlayerData>, createDefault: Uuid -> PlayerData)
      ensures cache == map[] && store == repository && this.createDefault == createDefault
    {
      cache := map[];
      store := repository;
      this.createDefault := createDefault;
    }

    /** The cache loader: the stored record, or the default for a player the store lacks. */
    method Load(key: Uuid) returns (pd: PlayerData)
      ensures pd == ServiceSpec.Load(store, key, createDefault)
      ensures Keyed(store) && DefaultKeyed(createDefault) ==> pd.playerUUID == key
    {
      if key in store {
        pd := store[key];
      } else {
        pd := createDefault(key);
      }
    }

    /** `handlePlayerJoin`: a first-time player gets a record with notifications on; a known
        player's record is left alone; the cache is never touched. */
    method HandlePlayerJoin(uuid: Uuid, name: string, color: Color)
      modifies this
      ensures cache == old(cache)
      ensures old(uuid in store) ==> store == old(store)
      ensures old(uuid !in store) ==> store == old(store)[uuid := PlayerData(name, uuid, true, color)]
      ensures State() == ServiceSpec.Join(old(State()), uuid, name, color)
    {
      if uuid !in store {
        var playerData := PlayerData(name, uuid, true, color);
        store := Write(store, playerData);
      }
    }

    /** `handlePlayerLeave`: save the leaving player's name and colour together with the
        identity and preference of the cached or loaded record, unless the load raised;
        then always invalidate the player's cache entry. */
    method HandlePlayerLeave(uuid: Uuid, name: string, color: Color, loadFails: bool)
      modifies this
      ensures cache == old(cache) - {uuid}
      ensures uuid !in old(cache) && loadFails ==> store == old(store)
      ensures uuid in old(cache) || !loadFails ==>
                var resolved := if uuid in old(cache) then old(cache)[uuid]
                                else if uuid in old(store) then old(store)[uuid]
                                else createDefault(uuid);
                store == old(store)[resolved.playerUUID :=
                           PlayerData(name, resolved.playerUUID, resolved.notificationsEnabled, color)]
      ensures Keyed(old(cache)) && Keyed(old(store)) ==>
                Keyed(cache) && Keyed(store)
      ensures State() == ServiceSpec.Leave(old(State()), uuid, name, color, loadFails, createDefault)
    {
      var cacheData: Option<PlayerData> := None;
      if uuid in cache {
        cacheData := Some(cache[uuid]);
      } else if !loadFails {
        var loaded := Load(uuid);
        cache := cache[uuid := loaded];
        cacheData := Some(loaded);
      }
      if cacheData.Some? {
        var playerData := PlayerData(name, cacheData.value.playerUUID,
                                     cacheData.value.notificationsEnabled, color);
        store := Write(store, playerData);
      }
      cache := cache - {uuid};
    }

    /** `getPlayerData`: a cache hit is returned as is; a miss is read from the store and, when
        found, cached; a miss in both returns `None` and caches nothing. */
    method GetPlayerData(uuid: Uuid) returns (result: Option<PlayerData>)
      modifies this
      ensures store == old(store)
      ensures uuid in old(cache) ==> result == Some(old(cache)[uuid]) && cache == old(cache)
      ensures uuid !in old(cache) && uuid in old(store) ==>
                result == Some(old(store)[uuid]) && cache == old(cache)[uuid := old(store)[uuid]]
      ensures uuid !in old(cache) && uuid !in old(store) ==> result == None && cache == old(cache)
      ensures ServiceSpec.Get(old(State()), uuid) == ServiceSpec.Lookup(State(), result)
    {
      if uuid in cache {
        return Some(cache[uuid]);
      } else if uuid in store {
        result := Some(store[uuid]);
        cache := cache[uuid := store[uuid]];
        return;
      }
      return None;
    }

    /** `savePlayerData`: write the record to the store under its UUID; the cache keeps
        whatever it held, so a later hit may still return an older record. */
    method SavePlayerData(playerData: PlayerData)
      modifies this
      ensures cache == old(cache)
      ensures store == old(store)[playerData.playerUUID := playerData]
      ensures State() == ServiceSpec.Save(old(State()), playerData)
    {
      store := Write(store, playerData);
    }
  }
}
