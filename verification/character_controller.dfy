/** The per-frame callback of src/hooks/useCharacterController.ts: applies
    a pending teleport, resets a fallen character to the origin, copies the
    character's pose and animation into the local player store, sends the
    move message when connected, and updates the world grid cell. */
module CharacterController {
  import opened Wrappers
  import opened ColyseusTypes
  import opened Transport
  import opened StorePorts
  import LocalPlayerStore
  import WorldStore

  /** `PHYSICS.RESET_Y_THRESHOLD`. */
  const RESET_Y_THRESHOLD: real := -10.0

  /** The character object the frame callback mutates: its position, the
      rotation of its model's scene when a model is loaded, and its
      animation actions. */
  class Character {
    var position: Vec3
    var modelRotation: Option<Vec3>
    var actions: Option<seq<(string, Option<LocalPlayerStore.ActionView>)>>

    constructor (position: Vec3, modelRotation: Option<Vec3>,
                 actions: Option<seq<(string, Option<LocalPlayerStore.ActionView>)>>)
      ensures this.position == position && this.modelRotation == modelRotation && this.actions == actions
    {
      this.position, this.modelRotation, this.actions := position, modelRotation, actions;
    }
  }

  /** The position after the teleport step. */
  function TeleportedPosition(p: Vec3, pending: Option<Teleport>): (q: Vec3)
    ensures pending.Some? ==> q == pending.value.position
    ensures pending.None? ==> q == p
  {
    if pending.Some? then pending.value.position else p
  }

  /** The model rotation after the teleport step: the teleport's rotation
      only when it has one and a model is there to take it. */
  function TeleportedRotation(r: Option<Vec3>, pending: Option<Teleport>): (q: Option<Vec3>)
    ensures pending.Some? && pending.value.rotation.Some? && r.Some? ==> q == pending.value.rotation
    ensures !(pending.Some? && pending.value.rotation.Some? && r.Some?) ==> q == r
    ensures q.Some? <==> r.Some?
  {
    if pending.Some? && pending.value.rotation.Some? && r.Some? then pending.value.rotation else r
  }

  /** The fall reset: a position below the threshold becomes the origin. */
  function FallReset(p: Vec3): (q: Vec3)
    ensures p.y < RESET_Y_THRESHOLD ==> q == Origin
    ensures p.y >= RESET_Y_THRESHOLD ==> q == p
    ensures q.y >= RESET_Y_THRESHOLD
  {
    if p.y < RESET_Y_THRESHOLD then Origin else p
  }

  /** One frame. `pendingTeleport` is the value captured when the hook
      last rendered; the store's field is cleared through `teleports`. */
  method Tick(character: Character?, pendingTeleport: Option<Teleport>, teleports: TeleportPort,
              local: LocalPlayerStore.Store, world: WorldStore.Store,
              room: Option<RoomHandle>, isConnected: bool)
    returns (sent: Option<(MessageType, MoveData)>)
    modifies character, teleports, local, world
    ensures character == null ==>
      && sent.None?
      && teleports.pendingTeleport == old(teleports.pendingTeleport)
      && local.Snapshot() == old(local.Snapshot())
      && world.currentGridCell == old(world.currentGridCell)
      && world.visibleGridSize == old(world.visibleGridSize)
    ensures character != null ==>
      && character.position == FallReset(TeleportedPosition(old(character.position), pendingTeleport))
      && character.modelRotation == TeleportedRotation(old(character.modelRotation), pendingTeleport)
      && character.actions == old(character.actions)
      && teleports.pendingTeleport == (if pendingTeleport.Some? then None else old(teleports.pendingTeleport))
      && local.Snapshot() == old(local.Snapshot()).(
           position := local.roundPosition(character.position),
           rotation := local.normalizeRotation(character.modelRotation.GetOr(Origin)),
           animationState := LocalPlayerStore.AnimationAfterSetAction(character.actions))
      && (sent.Some? <==> isConnected && room.Some?)
      && (sent.Some? ==> sent.value == (Move, LocalPlayerStore.CreateMoveData(local.position, local.rotation, local.animationState)))
      && world.currentGridCell == WorldStore.CalculateGridCell(character.position)
      && world.visibleGridSize == old(world.visibleGridSize)
  {
    sent := None;
    if character == null {
      return;
    }
    if pendingTeleport.Some? {
      character.position := pendingTeleport.value.position;
      if pendingTeleport.value.rotation.Some? && character.modelRotation.Some? {
        character.modelRotation := pendingTeleport.value.rotation;
      }
      teleports.ClearPending();
    }
    if character.position.y < RESET_Y_THRESHOLD {
      character.position := Origin;
    }
    local.SetPosition(character.position);
    local.SetRotation(character.modelRotation.GetOr(Origin));
    local.SetAction(character.actions);
    if isConnected && room.Some? {
      var kind, data := local.SendMovement();
      sent := Some((kind, data));
    }
    var _ := world.UpdateCurrentGridCell(character.position);
  }

  /** A character that fell below the threshold, with no teleport pending,
      is stored at the (rounded) origin and stands in the origin cell. */
  method FallenCharacterRespawns(character: Character, teleports: TeleportPort,
                                 local: LocalPlayerStore.Store, world: WorldStore.Store)
    requires character.position.y < RESET_Y_THRESHOLD
    modifies character, teleports, local, world
    ensures character.position == Origin
    ensures local.position == local.roundPosition(Origin)
    ensures world.currentGridCell == WorldStore.INITIAL_GRID_CELL
  {
    var _ := Tick(character, None, teleports, local, world, None, false);
    assert WorldStore.CellIndex(0.0) == 0 by {
      WorldStore.CellIndexUnique(0.0, 0);
    }
  }
}
