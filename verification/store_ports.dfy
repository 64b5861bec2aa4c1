/** Abstract interfaces for store members that callers use but that the
    shown stores do not define: the remote registry's `setPlayer`, `clear`,
    `addOrUpdatePlayer`, `updatePlayerAnimation` (and the mismatched
    `addPlayer(id, name)` / `updatePlayerPosition(id, x, y, z)` calls), and
    the local store's `id`, `setId` and `pendingTeleport`. Each port records
    what it was asked to do and promises nothing else. */
module StorePorts {
  import opened Wrappers
  import opened ColyseusTypes

  /** One request made of the remote registry; `P` is the caller's payload. */
  datatype Call<P> = UpsertCall(key: string, payload: P) | RemoveCall(key: string) | ClearCall

  /** No request in `calls` inserts or updates `key`. */
  predicate NeverUpserts<P>(calls: seq<Call<P>>, key: string) {
    forall i :: 0 <= i < |calls| ==> !(calls[i].UpsertCall? && calls[i].key == key)
  }

  /** The remote registry as an upsert/remove/clear interface: its state is
      the log of requests it has received. */
  class RegistryPort<P> {
    var calls: seq<Call<P>>

    constructor ()
      ensures calls == []
    {
      calls := [];
    }

    method Upsert(key: string, payload: P)
      modifies this
      ensures calls == old(calls) + [UpsertCall(key, payload)]
    {
      calls := calls + [UpsertCall(key, payload)];
    }

    method Remove(key: string)
      modifies this
      ensures calls == old(calls) + [RemoveCall(key)]
    {
      calls := calls + [RemoveCall(key)];
    }

    method Clear()
      modifies this
      ensures calls == old(calls) + [ClearCall]
    {
      calls := calls + [ClearCall];
    }
  }

  /** The local player's `id` field and its `setId` setter; "" is unset. */
  class LocalIdPort {
    var id: string

    constructor ()
      ensures id == ""
    {
      id := "";
    }

    method SetId(newId: string)
      modifies this
      ensures id == newId
    {
      id := newId;
    }
  }

  /** A one-shot teleport request: a position and an optional rotation. */
  datatype Teleport = Teleport(position: Vec3, rotation: Option<Vec3>)

  /** The local player's `pendingTeleport` field. */
  class TeleportPort {
    var pendingTeleport: Option<Teleport>

    constructor ()
      ensures pendingTeleport == None
    {
      pendingTeleport := None;
    }

    method Request(t: Teleport)
      modifies this
      ensures pendingTeleport == Some(t)
    {
      pendingTeleport := Some(t);
    }

    /** `setState({ pendingTeleport: null })`. */
    method ClearPending()
      modifies this
      ensures pendingTeleport == None
    {
      pendingTeleport := None;
    }
  }
}
