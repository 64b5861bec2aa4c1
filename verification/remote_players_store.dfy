/** The remote-player registry (src/stores/remotePlayersStore.ts): a Map
    from session id to the last state received for that player. Every
    mutator copies the current `Map` object, changes the copy and assigns the
    copy to the `players` field, so a `Map` read before a mutation is never
    changed by it. */
module RemotePlayersStore {
  import opened Wrappers
  import opened ColyseusTypes
  import JsMap

  datatype RemotePlayer = RemotePlayer(
    id: string,
    position: Vec3,
    rotation: Vec3,
    username: string,
    isMoving: bool,
    animationState: string,
    lastUpdate: int)

  /** `Omit<RemotePlayer, "id">`: what `addPlayer` is given. */
  datatype PlayerData = PlayerData(
    position: Vec3,
    rotation: Vec3,
    username: string,
    isMoving: bool,
    animationState: string,
    lastUpdate: int)

  /** `Partial<Omit<RemotePlayer, "id">>`: `None` where the key is absent. */
  datatype PlayerPatch = PlayerPatch(
    position: Option<Vec3>,
    rotation: Option<Vec3>,
    username: Option<string>,
    isMoving: Option<bool>,
    animationState: Option<string>,
    lastUpdate: Option<int>)

  type Players = JsMap.Entries<RemotePlayer>

  /** The registry invariant: keys are distinct and each entry's `id` is its key. */
  predicate Valid(ps: Players) {
    JsMap.Distinct(ps) && forall i :: 0 <= i < |ps| ==> ps[i].1.id == ps[i].0
  }

  /** `{ id, ...data, position, rotation, lastUpdate: Date.now() }`: the
      entry `addPlayer` stores, whatever `data.lastUpdate` said. */
  function NewEntry(id: string, d: PlayerData, now: int): (p: RemotePlayer)
    ensures p.id == id && p.lastUpdate == now
    ensures p.position == d.position && p.rotation == d.rotation
    ensures p.username == d.username && p.isMoving == d.isMoving && p.animationState == d.animationState
  {
    RemotePlayer(id, d.position, d.rotation, d.username, d.isMoving, d.animationState, now)
  }

  /** `{ ...player, ...data, position, rotation, lastUpdate: Date.now() }`:
      supplied fields win, absent ones keep the old value, `id` is kept. */
  function Merge(p: RemotePlayer, d: PlayerPatch, now: int): (q: RemotePlayer)
    ensures q.id == p.id && q.lastUpdate == now
    ensures d.position.None? ==> q.position == p.position
    ensures d.position.Some? ==> q.position == d.position.value
    ensures d.rotation.None? ==> q.rotation == p.rotation
    ensures d.rotation.Some? ==> q.rotation == d.rotation.value
    ensures d.username.None? ==> q.username == p.username
    ensures d.username.Some? ==> q.username == d.username.value
    ensures d.isMoving.None? ==> q.isMoving == p.isMoving
    ensures d.isMoving.Some? ==> q.isMoving == d.isMoving.value
    ensures d.animationState.None? ==> q.animationState == p.animationState
    ensures d.animationState.Some? ==> q.animationState == d.animationState.value
  {
    RemotePlayer(
      p.id,
      d.position.GetOr(p.position),
      d.rotation.GetOr(p.rotation),
      d.username.GetOr(p.username),
      d.isMoving.GetOr(p.isMoving),
      d.animationState.GetOr(p.animationState),
      now)
  }

  /** Stores `entry` under `id` and reads every other key as before. */
  lemma SetEntry(ps: Players, id: string, entry: RemotePlayer)
    ensures JsMap.Get(JsMap.Set(ps, id, entry), id) == Some(entry)
    ensures forall k :: k != id ==> JsMap.Get(JsMap.Set(ps, id, entry), k) == JsMap.Get(ps, k)
    ensures Valid(ps) && entry.id == id ==> Valid(JsMap.Set(ps, id, entry))
  {
    forall k ensures JsMap.Get(JsMap.Set(ps, id, entry), k) == if k == id then Some(entry) else JsMap.Get(ps, k) {
      JsMap.GetSet(ps, id, entry, k);
    }
    if Valid(ps) && entry.id == id {
      var r := JsMap.Set(ps, id, entry);
      JsMap.SetDistinct(ps, id, entry);
      forall i | 0 <= i < |r| ensures r[i].1.id == r[i].0 {
        IdsMatch(ps, id, entry, i);
      }
    }
  }

  lemma {:induction false} IdsMatch(ps: Players, id: string, entry: RemotePlayer, i: nat)
    requires Valid(ps) && entry.id == id && i < |JsMap.Set(ps, id, entry)|
    ensures JsMap.Set(ps, id, entry)[i].1.id == JsMap.Set(ps, id, entry)[i].0
  {
    if ps != [] && ps[0].0 != id && i > 0 {
      assert Valid(ps[1..]) by {
        forall a, b | 0 <= a < b < |ps[1..]| ensures ps[1..][a].0 != ps[1..][b].0 {
          assert ps[1..][a] == ps[a + 1] && ps[1..][b] == ps[b + 1];
        }
      }
      IdsMatch(ps[1..], id, entry, i - 1);
    }
  }

  lemma EntryIdIsKey(ps: Players, id: string)
    requires JsMap.Get(ps, id).Some?
    ensures Valid(ps) ==> JsMap.Get(ps, id).value.id == id
  {
    var i :| 0 <= i < |ps| && ps[i] == (id, JsMap.Get(ps, id).value);
  }

  /** The players after `addPlayer(id, data)`: `id` maps to a whole new
      entry built from `data` alone (an existing entry is replaced, not
      merged, and keeps its place); a new id goes last; every other key
      reads as before. */
  function Added(ps: Players, id: string, d: PlayerData, now: int): (r: Players)
    ensures JsMap.Get(r, id) == Some(NewEntry(id, d, now))
    ensures forall k :: k != id ==> JsMap.Get(r, k) == JsMap.Get(ps, k)
    ensures JsMap.Has(ps, id) ==> JsMap.Keys(r) == JsMap.Keys(ps)
    ensures !JsMap.Has(ps, id) ==> JsMap.Keys(r) == JsMap.Keys(ps) + [id]
    ensures Valid(ps) ==> Valid(r)
  {
    SetEntry(ps, id, NewEntry(id, d, now));
    JsMap.SetKeys(ps, id, NewEntry(id, d, now));
    JsMap.Set(ps, id, NewEntry(id, d, now))
  }

  /** The players after `removePlayer(id)`: `id` is absent, every other key
      reads as before and keeps its order, and removing an absent id
      changes nothing. */
  function Removed(ps: Players, id: string): (r: Players)
    ensures JsMap.Get(r, id) == None
    ensures forall k :: k != id ==> JsMap.Get(r, k) == JsMap.Get(ps, k)
    ensures JsMap.Keys(r) == JsMap.Without(JsMap.Keys(ps), id)
    ensures JsMap.Get(ps, id) == None ==> r == ps
    ensures Valid(ps) ==> Valid(r)
  {
    DeleteEntry(ps, id);
    JsMap.DeleteKeys(ps, id);
    JsMap.Delete(ps, id)
  }

  /** Drops `id` and reads every other key as before. */
  lemma DeleteEntry(ps: Players, id: string)
    ensures JsMap.Get(JsMap.Delete(ps, id), id) == None
    ensures forall k :: k != id ==> JsMap.Get(JsMap.Delete(ps, id), k) == JsMap.Get(ps, k)
    ensures JsMap.Get(ps, id) == None ==> JsMap.Delete(ps, id) == ps
    ensures Valid(ps) ==> Valid(JsMap.Delete(ps, id))
  {
    forall k ensures JsMap.Get(JsMap.Delete(ps, id), k) == if k == id then None else JsMap.Get(ps, k) {
      JsMap.GetDelete(ps, id, k);
    }
    if JsMap.Get(ps, id) == None {
      JsMap.DeleteAbsent(ps, id);
    }
    if Valid(ps) {
      JsMap.DeleteDistinct(ps, id);
      DeleteKeepsIds(ps, id);
    }
  }

  lemma {:induction false} DeleteKeepsIds(ps: Players, id: string)
    requires forall i :: 0 <= i < |ps| ==> ps[i].1.id == ps[i].0
    ensures forall i :: 0 <= i < |JsMap.Delete(ps, id)| ==> JsMap.Delete(ps, id)[i].1.id == JsMap.Delete(ps, id)[i].0
  {
    if ps != [] {
      assert forall i :: 0 <= i < |ps[1..]| ==> ps[1..][i] == ps[i + 1];
      DeleteKeepsIds(ps[1..], id);
    }
  }

  /** The players after `updatePlayer(id, data)`: unchanged when `id` is
      absent; otherwise `id` maps to the old entry with the supplied fields
      overwritten and `lastUpdate` refreshed, and nothing else changes. */
  function Updated(ps: Players, id: string, d: PlayerPatch, now: int): (r: Players)
    ensures JsMap.Get(ps, id) == None ==> r == ps
    ensures JsMap.Get(ps, id).Some? ==> JsMap.Get(r, id) == Some(Merge(JsMap.Get(ps, id).value, d, now))
    ensures JsMap.Get(ps, id).Some? ==> JsMap.Keys(r) == JsMap.Keys(ps)
    ensures forall k :: k != id ==> JsMap.Get(r, k) == JsMap.Get(ps, k)
    ensures Valid(ps) ==> Valid(r)
  {
    match JsMap.Get(ps, id)
    case None => ps
    case Some(p) =>
      EntryIdIsKey(ps, id);
      SetEntry(ps, id, Merge(p, d, now));
      JsMap.SetKeys(ps, id, Merge(p, d, now));
      JsMap.Set(ps, id, Merge(p, d, now))
  }

  /** The players after `updatePlayerPosition(id, position)`: only that
      entry's position and `lastUpdate` change; absent ids are a no-op. */
  function PositionUpdated(ps: Players, id: string, position: Vec3, now: int): (r: Players)
    ensures JsMap.Get(ps, id) == None ==> r == ps
    ensures JsMap.Get(ps, id).Some? ==>
      JsMap.Get(r, id) == Some(JsMap.Get(ps, id).value.(position := position, lastUpdate := now))
    ensures JsMap.Get(ps, id).Some? ==> JsMap.Keys(r) == JsMap.Keys(ps)
    ensures forall k :: k != id ==> JsMap.Get(r, k) == JsMap.Get(ps, k)
    ensures Valid(ps) ==> Valid(r)
  {
    match JsMap.Get(ps, id)
    case None => ps
    case Some(p) =>
      EntryIdIsKey(ps, id);
      SetEntry(ps, id, p.(position := position, lastUpdate := now));
      JsMap.SetKeys(ps, id, p.(position := position, lastUpdate := now));
      JsMap.Set(ps, id, p.(position := position, lastUpdate := now))
  }

  /** The players after `updatePlayerRotation(id, rotation)`: only that
      entry's rotation and `lastUpdate` change; absent ids are a no-op. */
  function RotationUpdated(ps: Players, id: string, rotation: Vec3, now: int): (r: Players)
    ensures JsMap.Get(ps, id) == None ==> r == ps
    ensures JsMap.Get(ps, id).Some? ==>
      JsMap.Get(r, id) == Some(JsMap.Get(ps, id).value.(rotation := rotation, lastUpdate := now))
    ensures JsMap.Get(ps, id).Some? ==> JsMap.Keys(r) == JsMap.Keys(ps)
    ensures forall k :: k != id ==> JsMap.Get(r, k) == JsMap.Get(ps, k)
    ensures Valid(ps) ==> Valid(r)
  {
    match JsMap.Get(ps, id)
    case None => ps
    case Some(p) =>
      EntryIdIsKey(ps, id);
      SetEntry(ps, id, p.(rotation := rotation, lastUpdate := now));
      JsMap.SetKeys(ps, id, p.(rotation := rotation, lastUpdate := now));
      JsMap.Set(ps, id, p.(rotation := rotation, lastUpdate := now))
  }

  /** Adding a player and then removing it restores the previous contents,
      and on an empty registry leaves it empty. */
  lemma AddThenRemove(ps: Players, id: string, d: PlayerData, now: int)
    requires JsMap.Get(ps, id) == None
    ensures forall k :: JsMap.Get(Removed(Added(ps, id, d, now), id), k) == JsMap.Get(ps, k)
    ensures ps == [] ==> Removed(Added(ps, id, d, now), id) == []
  {
    if ps == [] {
      assert Added(ps, id, d, now) == [(id, NewEntry(id, d, now))];
      assert JsMap.Delete([(id, NewEntry(id, d, now))], id) == JsMap.Delete([], id);
    }
  }

  /** A partial update that supplies only the animation keeps position,
      rotation, username and `isMoving`. */
  lemma AnimationOnlyUpdateKeepsRest(ps: Players, id: string, anim: string, now: int)
    requires JsMap.Get(ps, id).Some?
    ensures var before := JsMap.Get(ps, id).value;
      var after := JsMap.Get(Updated(ps, id, PlayerPatch(None, None, None, None, Some(anim), None), now), id).value;
      && after.animationState == anim
      && after.position == before.position && after.rotation == before.rotation
      && after.username == before.username && after.isMoving == before.isMoving
  {
  }

  /** A `Map` object. `new Map(other)` copies another map's entries;
      `set` and `delete` change this object in place. */
  class PlayersMap {
    var entries: Players

    constructor Empty()
      ensures entries == []
    {
      entries := [];
    }

    constructor Copy(other: PlayersMap)
      ensures entries == other.entries
    {
      entries := other.entries;
    }

    method Set(id: string, p: RemotePlayer)
      modifies this
      ensures entries == JsMap.Set(old(entries), id, p)
    {
      entries := JsMap.Set(entries, id, p);
    }

    method Delete(id: string)
      modifies this
      ensures entries == JsMap.Delete(old(entries), id)
    {
      entries := JsMap.Delete(entries, id);
    }
  }

  /** The store. Each mutator that changes the registry installs a fresh
      `Map` and leaves the one it replaced as it was; a mutator that finds
      nothing to do keeps the same `Map`. */
  class Store {
    var players: PlayersMap

    /** Every reachable store satisfies the registry invariant. */
    ghost predicate Inv()
      reads this, players
    {
      Valid(players.entries)
    }

    constructor ()
      ensures players.entries == [] && Inv()
    {
      players := new PlayersMap.Empty();
    }

    method AddPlayer(id: string, data: PlayerData, now: int)
      requires Inv()
      modifies this
      ensures fresh(players) && old(players).entries == old(players.entries)
      ensures players.entries == Added(old(players.entries), id, data, now)
      ensures Inv()
    {
      var newPlayers := new PlayersMap.Copy(players);
      newPlayers.Set(id, NewEntry(id, data, now));
      players := newPlayers;
    }

    method RemovePlayer(id: string)
      requires Inv()
      modifies this
      ensures fresh(players) && old(players).entries == old(players.entries)
      ensures players.entries == Removed(old(players.entries), id)
      ensures Inv()
    {
      var newPlayers := new PlayersMap.Copy(players);
      newPlayers.Delete(id);
      players := newPlayers;
    }

    method UpdatePlayer(id: string, data: PlayerPatch, now: int)
      requires Inv()
      modifies this
      ensures JsMap.Get(old(players.entries), id).None? ==> players == old(players)
      ensures JsMap.Get(old(players.entries), id).Some? ==> fresh(players)
      ensures old(players).entries == old(players.entries)
      ensures players.entries == Updated(old(players.entries), id, data, now)
      ensures Inv()
    {
      var player := JsMap.Get(players.entries, id);
      if player.None? {
        return;
      }
      var newPlayers := new PlayersMap.Copy(players);
      newPlayers.Set(id, Merge(player.value, data, now));
      players := newPlayers;
    }

    method UpdatePlayerPosition(id: string, position: Vec3, now: int)
      requires Inv()
      modifies this
      ensures JsMap.Get(old(players.entries), id).None? ==> players == old(players)
      ensures JsMap.Get(old(players.entries), id).Some? ==> fresh(players)
      ensures old(players).entries == old(players.entries)
      ensures players.entries == PositionUpdated(old(players.entries), id, position, now)
      ensures Inv()
    {
      var player := JsMap.Get(players.entries, id);
      if player.None? {
        return;
      }
      var newPlayers := new PlayersMap.Copy(players);
      newPlayers.Set(id, player.value.(position := position, lastUpdate := now));
      players := newPlayers;
    }

    method UpdatePlayerRotation(id: string, rotation: Vec3, now: int)
      requires Inv()
      modifies this
      ensures JsMap.Get(old(players.entries), id).None? ==> players == old(players)
      ensures JsMap.Get(old(players.entries), id).Some? ==> fresh(players)
      ensures old(players).entries == old(players.entries)
      ensures players.entries == RotationUpdated(old(players.entries), id, rotation, now)
      ensures Inv()
    {
      var player := JsMap.Get(players.entries, id);
      if player.None? {
        return;
      }
      var newPlayers := new PlayersMap.Copy(players);
      newPlayers.Set(id, player.value.(rotation := rotation, lastUpdate := now));
      players := newPlayers;
    }

    method ClearAll()
      modifies this
      ensures fresh(players) && old(players).entries == old(players.entries)
      ensures Inv() && players.entries == [] && GetAllPlayers() == []
    {
      players := new PlayersMap.Empty();
    }

    /** `players.get(id)`: the entry stored under `id`, whose `id` is `id`. */
    function GetPlayer(id: string): (r: Option<RemotePlayer>)
      requires Inv()
      reads this, players
      ensures r.None? <==> !JsMap.Has(players.entries, id)
      ensures r.Some? ==> exists i :: 0 <= i < |players.entries| && players.entries[i] == (id, r.value)
      ensures r.Some? ==> r.value.id == id
    {
      var r := JsMap.Get(players.entries, id);
      if r.Some? then EntryIdIsKey(players.entries, id); r else r
    }

    /** The entries' values, in insertion order. */
    function GetAllPlayers(): (r: seq<RemotePlayer>)
      reads this, players
      ensures |r| == |players.entries|
      ensures forall i :: 0 <= i < |players.entries| ==> r[i] == players.entries[i].1
    {
      JsMap.Values(players.entries)
    }
  }

  /** Copy-on-write: a `Map` read from the store before `addPlayer` is a
      different object from the one installed, and still holds exactly the
      entries it held; only the new one has the added player. */
  method SnapshotIsIsolated(s: Store, id: string, data: PlayerData, now: int)
    returns (before: PlayersMap)
    requires s.Inv()
    modifies s
    ensures before == old(s.players) && s.players != before
    ensures before.entries == old(s.players.entries)
    ensures s.players.entries == Added(before.entries, id, data, now)
  {
    before := s.players;
    s.AddPlayer(id, data, now);
  }
}
