/** The local player store (src/stores/localPlayerStore.ts): the local
    avatar's session id, name, pose and animation, and the move message
    built from them. Rounding to two decimals and the normalisation of
    rotation angles are numeric policies outside this model: they are the
    store's `roundPosition` and `normalizeRotation` parameters. */
module LocalPlayerStore {
  import opened Wrappers
  import opened ColyseusTypes

  /** The store's state fields. */
  datatype LocalState = LocalState(
    sessionId: string,
    username: string,
    position: Vec3,
    rotation: Vec3,
    animationState: string)

  /** `initialState`. */
  const Initial: LocalState := LocalState("", DEFAULT_USERNAME, Origin, Origin, IDLE)

  /** `createMoveData`: the move message for a pose and an animation. The
      desktop client sends its rotation with `z` forced to zero. */
  function CreateMoveData(position: Vec3, rotation: Vec3, animation: string): (d: MoveData)
    ensures d.position == Some(position) && d.animation == Some(animation)
    ensures d.rotation.Some?
    ensures d.rotation.value.x == rotation.x && d.rotation.value.y == rotation.y
    ensures d.rotation.value.z == 0.0
  {
    MoveData(Some(position), Some(Vec3(rotation.x, rotation.y, 0.0)), Some(animation))
  }

  /** What `setAction` sees of one animation action: whether it is running,
      and its effective weight when the action has `getEffectiveWeight`. */
  datatype ActionView = ActionView(running: bool, effectiveWeight: Option<real>)

  /** An action is the active one when it is defined, running, and its
      effective weight (0 when it cannot be asked) is positive. */
  predicate IsActive(a: Option<ActionView>) {
    a.Some? && a.value.running && a.value.effectiveWeight.GetOr(0.0) > 0.0
  }

  /** The name of the first active action in entry order, if any. */
  function ActiveAnimationName(actions: seq<(string, Option<ActionView>)>): (r: Option<string>)
    ensures r.None? <==> forall i :: 0 <= i < |actions| ==> !IsActive(actions[i].1)
    ensures r.Some? ==> exists i :: 0 <= i < |actions| && actions[i].0 == r.value && IsActive(actions[i].1)
                          && forall j :: 0 <= j < i ==> !IsActive(actions[j].1)
  {
    if |actions| == 0 then None
    else if IsActive(actions[0].1) then Some(actions[0].0)
    else
      var rest := ActiveAnimationName(actions[1..]);
      assert forall i :: 1 <= i < |actions| ==> actions[i] == actions[1..][i - 1];
      rest
  }

  /** The animation `setAction(actions)` stores: the active action's name,
      "idle" when there is none or `actions` is undefined. */
  function AnimationAfterSetAction(actions: Option<seq<(string, Option<ActionView>)>>): (name: string)
    ensures actions.None? ==> name == IDLE
    ensures actions.Some? && ActiveAnimationName(actions.value).Some? ==>
      name == ActiveAnimationName(actions.value).value
    ensures actions.Some? && (forall i :: 0 <= i < |actions.value| ==> !IsActive(actions.value[i].1)) ==>
      name == IDLE
  {
    if actions.None? then IDLE else ActiveAnimationName(actions.value).GetOr(IDLE)
  }

  class Store {
    var sessionId: string
    var username: string
    var position: Vec3
    var rotation: Vec3
    var animationState: string

    /** Rounding of each position component to two decimals. */
    const roundPosition: Vec3 -> Vec3
    /** `((a + π) % 2π) − π` on each angle, with JavaScript `%`, then
        rounding. */
    const normalizeRotation: Vec3 -> Vec3

    function Snapshot(): LocalState
      reads this
    {
      LocalState(sessionId, username, position, rotation, animationState)
    }

    constructor (roundPosition: Vec3 -> Vec3, normalizeRotation: Vec3 -> Vec3)
      ensures Snapshot() == Initial
      ensures this.roundPosition == roundPosition && this.normalizeRotation == normalizeRotation
    {
      this.roundPosition, this.normalizeRotation := roundPosition, normalizeRotation;
      sessionId, username, position, rotation, animationState := "", DEFAULT_USERNAME, Origin, Origin, IDLE;
    }

    method SetSessionId(id: string)
      modifies this
      ensures Snapshot() == old(Snapshot()).(sessionId := id)
    {
      sessionId := id;
    }

    method SetUsername(name: string)
      modifies this
      ensures Snapshot() == old(Snapshot()).(username := name)
    {
      username := name;
    }

    /** Stores a rounded copy; the caller's vector is not aliased. */
    method SetPosition(p: Vec3)
      modifies this
      ensures Snapshot() == old(Snapshot()).(position := roundPosition(p))
    {
      position := roundPosition(p);
    }

    method SetRotation(r: Vec3)
      modifies this
      ensures Snapshot() == old(Snapshot()).(rotation := normalizeRotation(r))
    {
      rotation := normalizeRotation(r);
    }

    method SetAnimation(a: string)
      modifies this
      ensures Snapshot() == old(Snapshot()).(animationState := a)
    {
      animationState := a;
    }

    method SetAction(actions: Option<seq<(string, Option<ActionView>)>>)
      modifies this
      ensures Snapshot() == old(Snapshot()).(animationState := AnimationAfterSetAction(actions))
    {
      animationState := AnimationAfterSetAction(actions);
    }

    /** `sendMovement(room)`: the message it sends, built from the current
        state; the store does not change. */
    method SendMovement() returns (kind: MessageType, data: MoveData)
      ensures kind == Move && MessageCode(kind) == 1
      ensures data.position == Some(position) && data.animation == Some(animationState)
      ensures data.rotation == Some(Vec3(rotation.x, rotation.y, 0.0))
    {
      kind := Move;
      data := CreateMoveData(position, rotation, animationState);
    }

    method Reset()
      modifies this
      ensures Snapshot() == Initial
    {
      sessionId, username, position, rotation, animationState := "", DEFAULT_USERNAME, Origin, Origin, IDLE;
    }
  }
}
