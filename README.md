# BetterChat player data service, modelled in Dafny

BetterChat keeps one record per player: the display name, the player's UUID, whether chat
notifications are enabled, and the team colour. `PlayerDataService` sits between two key-value
maps. One is an in-memory cache from UUID to record, built on Guava's `LoadingCache`. The other
is the durable `PlayerDataRepository`. The service has four operations:

- joining initialises a record when the store has none;
- leaving saves the current name and colour with the cached, else stored, else default
  preference, then evicts the entry;
- `getPlayerData` looks in the cache first, then in the store;
- `savePlayerData` writes straight to the store.

The project has three modules:

- `PlayerDataModel` (`PlayerDataModel.dfy`): the UUID, the colour, the `PlayerData` record and
  `Write`, which is a repository save on a map.
- `ServiceSpec` (`ServiceSpec.dfy`): the service's abstract state, a pair of maps `cache` and
  `store`. Each operation is a function on that state. It also has an operation trace (`Op`,
  `Run`) that includes the cache library evicting an entry on its own. Lemmas state what holds
  after any sequence of calls.
- `PlayerDataService` (`PlayerDataService.dfy`): the class `Service`. Its `cache` and `store`
  map fields are updated in place by straight-line methods. Each method gives its whole new
  state explicitly. It also states that `State()` equals the `ServiceSpec` function applied to
  the old state, so the trace lemmas apply to a `Service` object.

Inputs from outside the service are plain parameters:

- the player's UUID, name and colour (the Minecraft handler, `getName().getString()`,
  `Teamcolor.getPlayerColor`);
- `createDefault`, which stands for `PlayerData.createDefaultPlayerData`. It is an
  uninterpreted function of the key. The key invariant holds for every such function. Only the
  lemmas about preferences and the loader's key clause assume that the default record carries
  its key (`DefaultKeyed`);
- `loadFails`, which says whether the cache load during leave failed. A failed load leaves
  the store as it was, and the cache entry is still invalidated (the `finally` block).

The repository source is not part of this model. A save is modelled as storing the record
under its own UUID.

On a double miss, `getPlayerData` returns `null`, which is `None` here. It does not return a
default record.

A consequence the lemmas make explicit: `savePlayerData` does not touch the cache, and leave
takes the preference from the cache. Suppose a player's record was cached by a query, and then
someone saves a new record object with the preference flipped. When the player leaves, the stale cached
preference is written back over the save (`LeaveRevertsBypassedSave`). Without explicit saves,
every stored preference survives any sequence of operations (`RunKeepsPreferences`).

## Model

| member | source | states |
|---|---|---|
| PlayerDataModel.Write | src/main/java/com/hanhy06/betterchat/data/service/PlayerDataService.java:91-93 | a repository save stores the record under its own UUID, keeps every other record, and keeps a keyed store keyed |
| ServiceSpec.Load | src/main/java/com/hanhy06/betterchat/data/service/PlayerDataService.java:33-36 | the loader returns the stored record when there is one and the default for the key otherwise; with a keyed store and keyed defaults its UUID is the key |
| ServiceSpec.Resolve | src/main/java/com/hanhy06/betterchat/data/service/PlayerDataService.java:61 | the record `playerDataCache.get` yields carries the asked UUID when both maps and the defaults are keyed; its preference is the stored one when the cache agrees with the store; with both maps missing it is the default |
| ServiceSpec.LeaveMergesPreference | src/main/java/com/hanhy06/betterchat/data/service/PlayerDataService.java:61-73 | when the load does not fail and the maps and defaults are keyed, leave stores under the player's UUID a record with the leave-time name and colour and the cached, else stored, else default preference; it removes exactly that player's cache entry and keeps every other stored record |
| ServiceSpec.Get | src/main/java/com/hanhy06/betterchat/data/service/PlayerDataService.java:77-89 | a query finds a record if and only if the cache or the store has one, never writes the store, and adds a cache key only when the store holds that key |
| ServiceSpec.JoinIdempotent | src/main/java/com/hanhy06/betterchat/data/service/PlayerDataService.java:43-54 | a second join of the same player, with any name and colour, leaves the state as the first join left it |
| ServiceSpec.JoinOnceThenNoop | src/main/java/com/hanhy06/betterchat/data/service/PlayerDataService.java:43-54 | after a join and any sequence of operations, another join of that player changes nothing |
| ServiceSpec.GetIdempotent | src/main/java/com/hanhy06/betterchat/data/service/PlayerDataService.java:80-86 | a second query of the same player returns the same answer and changes neither map |
| ServiceSpec.SaveLeavesCachedValue | src/main/java/com/hanhy06/betterchat/data/service/PlayerDataService.java:91-93 | after a save, a cache hit still returns the previously cached record, not the saved one |
| ServiceSpec.LeaveRevertsBypassedSave | src/main/java/com/hanhy06/betterchat/data/service/PlayerDataService.java:61-69 | query, then save a new record with the preference flipped, then leave: the store ends with the original preference |
| ServiceSpec.StoreKeysGrow | src/main/java/com/hanhy06/betterchat/data/service/PlayerDataService.java:40-93 | no sequence of operations removes a record from the store |
| ServiceSpec.StepKeepsKeyed | src/main/java/com/hanhy06/betterchat/data/service/PlayerDataService.java:33-92 | any one operation keeps both maps keyed, whatever the default records are: the loader's entry from lines 33-35 is invalidated at line 73, the put at line 84 caches a stored record, and the saves at lines 52, 69 and 92 store each record under its own UUID |
| ServiceSpec.RunKeepsKeyed | src/main/java/com/hanhy06/betterchat/data/service/PlayerDataService.java:33-92 | key invariant: a keyed store and cache stay keyed after any sequence of operations, for any default-record function, because the loader's entry is invalidated at line 73, the only lasting cache entry is the stored record put at line 84, and every save stores a record under its own UUID |
| ServiceSpec.StepKeepsPreferences | src/main/java/com/hanhy06/betterchat/data/service/PlayerDataService.java:56-75 | an operation other than a save keeps both maps keyed, the cache in agreement with the store, and every stored preference |
| ServiceSpec.RunKeepsPreferences | src/main/java/com/hanhy06/betterchat/data/service/PlayerDataService.java:56-75 | without explicit saves, every stored player stays stored and keeps their notification preference through any sequence of joins, leaves, queries and evictions |
| ServiceSpec.UncachedUntilGet | src/main/java/com/hanhy06/betterchat/data/service/PlayerDataService.java:72-74 | an uncached player stays uncached, through leaves too, until a query for that player |
| ServiceSpec.OnlyGetFillsCache | src/main/java/com/hanhy06/betterchat/data/service/PlayerDataService.java:84 | without queries, the cache after any sequence of operations is a sub-map of the cache before |
| PlayerDataService.Service.constructor | src/main/java/com/hanhy06/betterchat/data/service/PlayerDataService.java:25-38 | a new service has an empty cache over the given repository and keeps the default-record function |
| PlayerDataService.Service.Load | src/main/java/com/hanhy06/betterchat/data/service/PlayerDataService.java:33-36 | the loader reads the store; on a miss it returns the default record for the key, which carries the key when the defaults are keyed |
| PlayerDataService.Service.HandlePlayerJoin | src/main/java/com/hanhy06/betterchat/data/service/PlayerDataService.java:40-54 | an absent player gets the record (name, UUID, notifications on, colour); a present one is left unchanged; the cache is never touched |
| PlayerDataService.Service.HandlePlayerLeave | src/main/java/com/hanhy06/betterchat/data/service/PlayerDataService.java:56-75 | the cache loses exactly the player's entry, whether or not the load raised; unless it raised, the store gains the merged record of the cached, stored or default record with the leave-time name and colour; keyed maps stay keyed |
| PlayerDataService.Service.GetPlayerData | src/main/java/com/hanhy06/betterchat/data/service/PlayerDataService.java:77-89 | a hit returns the cached record and changes nothing; a store hit returns the stored record and caches it; a double miss returns `None` and changes nothing |
| PlayerDataService.Service.SavePlayerData | src/main/java/com/hanhy06/betterchat/data/service/PlayerDataService.java:91-93 | the store gets the record under its UUID and the cache is unchanged |

## Left out

- The cache's size bound and time-to-live (lines 28-30) belong to Guava and depend on the
  clock. They are modelled only as the `ExpireOp` trace step, which may evict any entry at any
  time. No capacity bound is stated.
- Concurrency: the thread-safety of the cache and the coalescing of concurrent loads are left
  to Guava. The model is sequential.
- Repository I/O and serialisation: the store is a map. A failing read inside the loader is
  the `loadFails` parameter, and it skips the save. Exceptions that `getPlayerData`,
  `handlePlayerJoin` or the repository save could raise themselves are not modelled.
- Logging through `BetterChat.LOGGER` (line 71) is not modelled.
- Minecraft and Fabric types (`ServerPlayNetworkHandler`, `PacketSender`, `MinecraftServer`)
  and `Teamcolor` are not modelled. Their values arrive as parameters.
- `PlayerData.createDefaultPlayerData` is not part of this model. It is an uninterpreted
  function. The lemmas about preferences assume only that its record carries the key.
- PlayerDataService.Service.HandlePlayerLeave: when the load fails, the method returns normally.
  In the source, `readPlayerData` declares no checked exception, so a failing load reaches
  `LoadingCache.get` as an unchecked exception. Guava wraps that in `UncheckedExecutionException`,
  which the `catch (ExecutionException e)` at line 70 does not catch. The save is skipped and the
  entry is invalidated, as modelled, but no error is logged and the exception escapes
  `handlePlayerLeave` after the `finally` block. That escaping exception is not modelled.
- Aliasing: `PlayerData` is a Java object. The cache holds the reference that `readPlayerData`
  returned, and `getPlayerData` hands that same reference out, so a caller that changes the
  returned object in place also changes the cached entry. The model uses immutable values and
  does not capture this. `LeaveRevertsBypassedSave` holds when the save passes a new record
  object.
