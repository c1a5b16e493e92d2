/** The abstract behaviour of `PlayerDataService`: its state is the in-memory cache and the
    durable store, both maps from player UUID to record, and each public operation is a
    function from state to state. Traces of operations (`Run`) let the lemmas speak about
    what holds after any sequence of joins, leaves, queries, saves and cache expiries. */
module ServiceSpec {
  import opened PlayerDataModel

  datatype State = State(cache: map<Uuid, PlayerData>, store: map<Uuid, PlayerData>)

  /** Both maps hold every record under its own UUID. */
  ghost predicate KeyedState(s: State)
  {
    Keyed(s.cache) && Keyed(s.store)
  }

  /** Every cached record is in the store and carries the stored notification preference. */
  ghost predicate Coherent(s: State)
  {
    forall k :: k in s.cache ==> k in s.store && s.cache[k].notificationsEnabled == s.store[k].notificationsEnabled
  }

  /** The cache loader: the stored record, or the default record for the key. */
  function Load(store: map<Uuid, PlayerData>, key: Uuid, createDefault: Uuid -> PlayerData): (pd: PlayerData)
    ensures key in store ==> pd == store[key]
    ensures key !in store ==> pd == createDefault(key)
    ensures Keyed(store) && DefaultKeyed(createDefault) ==> pd.playerUUID == key
  {
    if key in store then store[key] else createDefault(key)
  }

  /** The record `playerDataCache.get(uuid)` yields: the cached one on a hit, the loaded one
      on a miss. */
  function Resolve(s: State, uuid: Uuid, createDefault: Uuid -> PlayerData): (pd: PlayerData)
    ensures KeyedState(s) && DefaultKeyed(createDefault) ==> pd.playerUUID == uuid
    ensures Coherent(s) && uuid in s.store ==> pd.notificationsEnabled == s.store[uuid].notificationsEnabled
    ensures uuid !in s.cache && uuid !in s.store ==> pd == createDefault(uuid)
  {
    if uuid in s.cache then s.cache[uuid] else Load(s.store, uuid, createDefault)
  }

  /** `handlePlayerJoin`: create and save a fresh record only when the store has none. */
  function Join(s: State, uuid: Uuid, name: string, color: Color): (t: State)
  {
    if uuid in s.store then s
    else s.(store := Write(s.store, PlayerData(name, uuid, true, color)))
  }

  /** `handlePlayerLeave`: on a miss whose load fails (`loadFails`) nothing is saved; otherwise
      the record with the leave-time name and colour and the identity and preference of the
      resolved record is saved. Either way the cache entry for `uuid` is invalidated. */
  function Leave(s: State, uuid: Uuid, name: string, color: Color, loadFails: bool,
                 createDefault: Uuid -> PlayerData): (t: State)
  {
    var store' :=
      if uuid !in s.cache && loadFails then s.store
      else
        var resolved := Resolve(s, uuid, createDefault);
        Write(s.store, PlayerData(name, resolved.playerUUID, resolved.notificationsEnabled, color));
    State(s.cache - {uuid}, store')
  }

  /** Leave merges the preference: unless the load fails, the record stored for the player has
      the leave-time name and colour and the preference of the cached, else stored, else default
      record; the player's cache entry goes and nothing else in either map changes. */
  lemma LeaveMergesPreference(s: State, uuid: Uuid, name: string, color: Color, loadFails: bool,
                              createDefault: Uuid -> PlayerData)
    requires KeyedState(s) && DefaultKeyed(createDefault) && (uuid in s.cache || !loadFails)
    ensures var t := Leave(s, uuid, name, color, loadFails, createDefault);
            && uuid in t.store
            && t.store[uuid] == PlayerData(name, uuid, Resolve(s, uuid, createDefault).notificationsEnabled, color)
            && t.cache == s.cache - {uuid}
            && t.store.Keys == s.store.Keys + {uuid}
            && forall k :: k in s.store && k != uuid ==> t.store[k] == s.store[k]
  {
  }

  datatype Lookup = Lookup(state: State, result: Option<PlayerData>)

  /** `getPlayerData`: cache first, then the store (filling the cache), else `null`. */
  function Get(s: State, uuid: Uuid): (r: Lookup)
    ensures r.result.Some? <==> uuid in s.cache || uuid in s.store
    ensures r.state.store == s.store
    ensures r.state.cache.Keys == s.cache.Keys + (if uuid in s.store then {uuid} else {})
  {
    if uuid in s.cache then Lookup(s, Some(s.cache[uuid]))
    else if uuid in s.store then Lookup(s.(cache := s.cache[uuid := s.store[uuid]]), Some(s.store[uuid]))
    else Lookup(s, None)
  }

  /** `savePlayerData`: write through to the store; the cache is not consulted. */
  function Save(s: State, pd: PlayerData): (t: State)
  {
    s.(store := Write(s.store, pd))
  }

  /** The cache library dropping an entry on its own (size bound or time-to-live). */
  function Expire(s: State, uuid: Uuid): (t: State)
  {
    s.(cache := s.cache - {uuid})
  }

  /** One call into the service, or one eviction by the cache library. */
  datatype Op =
    | JoinOp(uuid: Uuid, name: string, color: Color)
    | LeaveOp(uuid: Uuid, name: string, color: Color, loadFails: bool)
    | GetOp(uuid: Uuid)
    | SaveOp(pd: PlayerData)
    | ExpireOp(uuid: Uuid)

  function Step(s: State, op: Op, createDefault: Uuid -> PlayerData): (t: State)
  {
    match op
    case JoinOp(u, n, c) => Join(s, u, n, c)
    case LeaveOp(u, n, c, f) => Leave(s, u, n, c, f, createDefault)
    case GetOp(u) => Get(s, u).state
    case SaveOp(pd) => Save(s, pd)
    case ExpireOp(u) => Expire(s, u)
  }

  function Run(s: State, ops: seq<Op>, createDefault: Uuid -> PlayerData): (t: State)
    decreases |ops|
  {
    if ops == [] then s else Run(Step(s, ops[0], createDefault), ops[1..], createDefault)
  }

  ghost predicate NoSave(ops: seq<Op>)
  {
    forall i :: 0 <= i < |ops| ==> !ops[i].SaveOp?
  }

  ghost predicate NoGetOf(ops: seq<Op>, uuid: Uuid)
  {
    forall i :: 0 <= i < |ops| ==> ops[i] != GetOp(uuid)
  }

  ghost predicate NoGet(ops: seq<Op>)
  {
    forall i :: 0 <= i < |ops| ==> !ops[i].GetOp?
  }

  ghost predicate SubMap(m: map<Uuid, PlayerData>, m': map<Uuid, PlayerData>)
  {
    forall k :: k in m ==> k in m' && m[k] == m'[k]
  }

  // ---------------------------------------------------------------------------
  // Join

  /** A second join of the same player, whatever name and colour it carries, changes nothing. */
  lemma JoinIdempotent(s: State, uuid: Uuid, name: string, color: Color, name': string, color': Color)
    ensures Join(Join(s, uuid, name, color), uuid, name', color') == Join(s, uuid, name, color)
  {
  }

  /** Once a player has joined, every later join is a no-op, whatever happened in between. */
  lemma {:induction false} JoinOnceThenNoop(s: State, uuid: Uuid, name: string, color: Color,
                                            ops: seq<Op>, name': string, color': Color,
                                            createDefault: Uuid -> PlayerData)
    ensures var t := Run(Join(s, uuid, name, color), ops, createDefault);
            Join(t, uuid, name', color') == t
  {
    StoreKeysGrow(Join(s, uuid, name, color), ops, createDefault);
  }

  // ---------------------------------------------------------------------------
  // Get

  /** A second query of the same player answers the same and changes nothing more. */
  lemma GetIdempotent(s: State, uuid: Uuid)
    ensures var first := Get(s, uuid);
            var second := Get(first.state, uuid);
            second.state == first.state && second.result == first.result
  {
  }

  /** A save does not reach a cached entry: a later hit still returns the cached record. */
  lemma SaveLeavesCachedValue(s: State, pd: PlayerData, uuid: Uuid)
    requires uuid in s.cache
    ensures Get(Save(s, pd), uuid) == Lookup(Save(s, pd), Some(s.cache[uuid]))
  {
  }

  /** Leave writes the cached preference back, so it undoes a save made while the player
      was cached: query, then save with the preference flipped, then leave. */
  lemma LeaveRevertsBypassedSave(s: State, uuid: Uuid, name: string, color: Color,
                                 createDefault: Uuid -> PlayerData)
    requires KeyedState(s) && uuid !in s.cache && uuid in s.store
    ensures var was := s.store[uuid];
            var s1 := Get(s, uuid).state;
            var s2 := Save(s1, was.(notificationsEnabled := !was.notificationsEnabled));
            var s3 := Leave(s2, uuid, name, color, false, createDefault);
            s2.store[uuid].notificationsEnabled == !was.notificationsEnabled &&
            s3.store[uuid].notificationsEnabled == was.notificationsEnabled
  {
  }

  // ---------------------------------------------------------------------------
  // Invariants over traces

  /** Records are never deleted from the store. */
  lemma {:induction false} StoreKeysGrow(s: State, ops: seq<Op>, createDefault: Uuid -> PlayerData)
    ensures s.store.Keys <= Run(s, ops, createDefault).store.Keys
    decreases |ops|
  {
    if ops != [] {
      StoreKeysGrow(Step(s, ops[0], createDefault), ops[1..], createDefault);
    }
  }

  lemma StepKeepsKeyed(s: State, op: Op, createDefault: Uuid -> PlayerData)
    requires KeyedState(s)
    ensures KeyedState(Step(s, op, createDefault))
  {
  }

  /** Key invariant: if both maps hold every record under its own UUID, they still do after any
      sequence of operations, whatever the default records are. The loader's entry is invalidated
      before leave returns, so only the put of a stored record leaves an entry in the cache. */
  lemma {:induction false} RunKeepsKeyed(s: State, ops: seq<Op>, createDefault: Uuid -> PlayerData)
    requires KeyedState(s)
    ensures KeyedState(Run(s, ops, createDefault))
    decreases |ops|
  {
    if ops != [] {
      StepKeepsKeyed(s, ops[0], createDefault);
      RunKeepsKeyed(Step(s, ops[0], createDefault), ops[1..], createDefault);
    }
  }

  /** Every record stored in `s` is still stored in `t`, with the same notification preference. */
  ghost predicate PreferencesKept(s: State, t: State)
  {
    forall k :: k in s.store ==> k in t.store && t.store[k].notificationsEnabled == s.store[k].notificationsEnabled
  }

  lemma StepKeepsPreferences(s: State, op: Op, createDefault: Uuid -> PlayerData)
    requires KeyedState(s) && Coherent(s) && DefaultKeyed(createDefault) && !op.SaveOp?
    ensures var t := Step(s, op, createDefault);
            KeyedState(t) && Coherent(t) && PreferencesKept(s, t)
  {
  }

  /** Leave preserves accumulated preferences: without an explicit save, every stored player's
      notification preference survives any sequence of joins, leaves, queries and expiries. */
  lemma {:induction false} RunKeepsPreferences(s: State, ops: seq<Op>, createDefault: Uuid -> PlayerData)
    requires KeyedState(s) && Coherent(s) && DefaultKeyed(createDefault) && NoSave(ops)
    ensures var t := Run(s, ops, createDefault);
            KeyedState(t) && Coherent(t) && PreferencesKept(s, t)
    decreases |ops|
  {
    if ops != [] {
      var s1 := Step(s, ops[0], createDefault);
      assert !ops[0].SaveOp?;
      StepKeepsPreferences(s, ops[0], createDefault);
      assert NoSave(ops[1..]) by {
        forall i | 0 <= i < |ops[1..]| ensures !ops[1..][i].SaveOp? {
          assert ops[1..][i] == ops[i + 1];
        }
      }
      RunKeepsPreferences(s1, ops[1..], createDefault);
    }
  }

  /** A player whose entry is absent stays uncached until the next query for that player:
      in particular after a leave, which always evicts. */
  lemma {:induction false} UncachedUntilGet(s: State, uuid: Uuid, ops: seq<Op>, createDefault: Uuid -> PlayerData)
    requires uuid !in s.cache && NoGetOf(ops, uuid)
    ensures uuid !in Run(s, ops, createDefault).cache
    decreases |ops|
  {
    if ops != [] {
      assert ops[0] != GetOp(uuid);
      assert NoGetOf(ops[1..], uuid) by {
        forall i | 0 <= i < |ops[1..]| ensures ops[1..][i] != GetOp(uuid) {
          assert ops[1..][i] == ops[i + 1];
        }
      }
      UncachedUntilGet(Step(s, ops[0], createDefault), uuid, ops[1..], createDefault);
    }
  }

  /** Only queries fill the cache: without one, the cache only loses entries. */
  lemma {:induction false} OnlyGetFillsCache(s: State, ops: seq<Op>, createDefault: Uuid -> PlayerData)
    requires NoGet(ops)
    ensures SubMap(Run(s, ops, createDefault).cache, s.cache)
    decreases |ops|
  {
    if ops != [] {
      assert !ops[0].GetOp?;
      var s1 := Step(s, ops[0], createDefault);
      assert NoGet(ops[1..]) by {
        forall i | 0 <= i < |ops[1..]| ensures !ops[1..][i].GetOp? {
          assert ops[1..][i] == ops[i + 1];
        }
      }
      OnlyGetFillsCache(s1, ops[1..], createDefault);
    }
  }
}
