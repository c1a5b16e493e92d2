/** The per-player record that BetterChat persists, and the values it is built from. */
module PlayerDataModel {

  /** A Java `UUID`: a 128-bit identifier; only its identity matters here. */
  newtype Uuid = x: int | 0 <= x < 0x1_0000_0000_0000_0000_0000_0000_0000_0000

  /** The team colour that `Teamcolor.getPlayerColor` derives for a player, as a string; no
      member looks inside it. */
  type Color = string

  /** `PlayerData`: the display name, the UUID, the notification preference and the
      team colour, in the order of the Java constructor. */
  datatype PlayerData = PlayerData(
    playerName: string,
    playerUUID: Uuid,
    notificationsEnabled: bool,
    teamColor: Color)

  /** A Java reference that may be `null`. */
  datatype Option<T> = None | Some(value: T)

  /** Every record in `m` is stored under its own UUID. */
  ghost predicate Keyed(m: map<Uuid, PlayerData>)
  {
    forall k :: k in m ==> m[k].playerUUID == k
  }

  /** The default record for a key carries that key (as `createDefaultPlayerData(key)` does). */
  ghost predicate DefaultKeyed(createDefault: Uuid -> PlayerData)
  {
    forall k :: createDefault(k).playerUUID == k
  }

  /** `PlayerDataRepository.savePlayerData`: the record is written under its own UUID,
      replacing whatever was stored there. */
  function Write(store: map<Uuid, PlayerData>, pd: PlayerData): (r: map<Uuid, PlayerData>)
    ensures r.Keys == store.Keys + {pd.playerUUID}
    ensures r[pd.playerUUID] == pd
    ensures forall k :: k in store && k != pd.playerUUID ==> r[k] == store[k]
    ensures Keyed(store) ==> Keyed(r)
  {
    store[pd.playerUUID := pd]
  }
}
