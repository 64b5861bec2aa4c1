/** The animation controller of a remote avatar
    (src/hooks/useRemoteCharacterAnimation.ts): when the requested animation
    names a different action than the one playing, the old action fades out
    and the new one is reset, faded in and played. Actions are compared by
    identity, modelled as a number per action object. */
module RemoteCharacterAnimation {
  import opened Wrappers
  import JsMap

  const FADE_DURATION: real := 0.2

  /** An action object, known by its identity. */
  type ActionId = nat

  /** A call made on an animation action. */
  datatype ActionCall =
    | FadeOut(action: ActionId, duration: real)
    | Reset(action: ActionId)
    | FadeIn(action: ActionId, duration: real)
    | Play(action: ActionId)

  /** The calls that start `next`, after fading out `current` if any. */
  function StartCalls(current: Option<ActionId>, next: ActionId): seq<ActionCall> {
    (if current.Some? then [FadeOut(current.value, FADE_DURATION)] else [])
      + [Reset(next), FadeIn(next, FADE_DURATION), Play(next)]
  }

  /** The effect's outcome: the action then referenced, and the calls made. */
  datatype Switch = Switch(current: Option<ActionId>, calls: seq<ActionCall>)

  /** One run of the effect. Nothing happens without a mixer, with no
      actions, before the model is loaded, when the animation names no
      action, or when it names the action already playing. */
  function AnimationSwitch(current: Option<ActionId>, animation: string, hasMixer: bool,
                           actions: JsMap.Entries<ActionId>, isModelLoaded: bool): (s: Switch)
    ensures s.calls == [] <==>
      !hasMixer || |actions| == 0 || !isModelLoaded
      || !JsMap.Has(actions, animation) || JsMap.Get(actions, animation) == current
    ensures s.calls == [] ==> s.current == current
    ensures s.calls != [] ==>
      && s.current == JsMap.Get(actions, animation) && s.current != current
      && s.calls == StartCalls(current, s.current.value)
  {
    if !hasMixer || |actions| == 0 || !isModelLoaded then Switch(current, [])
    else
      var nextAction := JsMap.Get(actions, animation);
      if nextAction.None? || nextAction == current then Switch(current, [])
      else Switch(nextAction, StartCalls(current, nextAction.value))
  }

  /** Re-running the effect with the same inputs does nothing more. */
  lemma SwitchIsIdempotent(current: Option<ActionId>, animation: string, hasMixer: bool,
                           actions: JsMap.Entries<ActionId>, isModelLoaded: bool)
    ensures var s := AnimationSwitch(current, animation, hasMixer, actions, isModelLoaded);
      AnimationSwitch(s.current, animation, hasMixer, actions, isModelLoaded).calls == []
  {
  }

  /** Only the action that was playing is faded out, and only once. */
  lemma {:induction false} OnlyPreviousFadesOut(current: Option<ActionId>, next: ActionId, a: ActionId, d: real)
    ensures FadeOut(a, d) in StartCalls(current, next) <==> current == Some(a) && d == FADE_DURATION
  {
    var tail := [Reset(next), FadeIn(next, FADE_DURATION), Play(next)];
    assert FadeOut(a, d) !in tail;
    if current.Some? {
      assert StartCalls(current, next) == [FadeOut(current.value, FADE_DURATION)] + tail;
    } else {
      assert StartCalls(current, next) == tail;
    }
  }

  /** `useAnimationController`: `currentActionRef` and its effect. */
  class Controller {
    var current: Option<ActionId>

    constructor ()
      ensures current == None
    {
      current := None;
    }

    method Effect(animation: string, hasMixer: bool, actions: JsMap.Entries<ActionId>, isModelLoaded: bool)
      returns (calls: seq<ActionCall>)
      modifies this
      ensures Switch(current, calls) == AnimationSwitch(old(current), animation, hasMixer, actions, isModelLoaded)
    {
      calls := [];
      if !hasMixer || |actions| == 0 || !isModelLoaded {
        return;
      }
      var nextAction := JsMap.Get(actions, animation);
      if nextAction.None? || nextAction == current {
        return;
      }
      if current.Some? {
        calls := calls + [FadeOut(current.value, FADE_DURATION)];
      }
      calls := calls + [Reset(nextAction.value), FadeIn(nextAction.value, FADE_DURATION), Play(nextAction.value)];
      current := nextAction;
    }
  }
}
