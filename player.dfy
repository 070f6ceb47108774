/** The player's directional input of src/demo/player.rs: held keys become a
    movement intent with components in {-1, 0, 1}, which is normalised and
    written to every controller on a `Player` entity. */
module Player {
  import opened Input

  datatype Vec2 = Vec2(x: real, y: real)

  const Zero := Vec2(0.0, 0.0)

  /** One axis from a pair of opposing directions: +1 for the positive one
      alone, -1 for the negative one alone, 0 when both or neither are held. */
  function Axis(positive: bool, negative: bool): (r: int)
    ensures -1 <= r <= 1
    ensures r == 1 <==> positive && !negative
    ensures r == -1 <==> negative && !positive
    ensures r == 0 <==> positive == negative
  {
    (if positive then 1 else 0) - (if negative then 1 else 0)
  }

  predicate UpHeld(input: ButtonInput) { Pressed(input, KeyW) || Pressed(input, ArrowUp) }
  predicate DownHeld(input: ButtonInput) { Pressed(input, KeyS) || Pressed(input, ArrowDown) }
  predicate LeftHeld(input: ButtonInput) { Pressed(input, KeyA) || Pressed(input, ArrowLeft) }
  predicate RightHeld(input: ButtonInput) { Pressed(input, KeyD) || Pressed(input, ArrowRight) }

  /** The intent before normalisation: right minus left, up minus down. */
  function RawIntent(input: ButtonInput): (r: Vec2) {
    Vec2(Axis(RightHeld(input), LeftHeld(input)) as real, Axis(UpHeld(input), DownHeld(input)) as real)
  }

  /** Each component of the raw intent is -1, 0 or 1, and with no key held the
      intent is zero. */
  lemma RawIntentBounded(input: ButtonInput)
    ensures RawIntent(input).x in {-1.0, 0.0, 1.0} && RawIntent(input).y in {-1.0, 0.0, 1.0}
    ensures input.pressed == {} ==> RawIntent(input) == Zero
  {
  }

  /** Holding both keys of a direction pair cancels that axis out. */
  lemma OppositeKeysCancel(input: ButtonInput)
    ensures Pressed(input, KeyW) && Pressed(input, KeyS) ==> RawIntent(input).y == 0.0
    ensures Pressed(input, ArrowUp) && Pressed(input, ArrowDown) ==> RawIntent(input).y == 0.0
    ensures Pressed(input, KeyA) && Pressed(input, KeyD) ==> RawIntent(input).x == 0.0
    ensures Pressed(input, ArrowLeft) && Pressed(input, ArrowRight) ==> RawIntent(input).x == 0.0
  {
  }

  /** The intent-collecting half of `directional_input_driver`. */
  method CollectIntent(input: ButtonInput) returns (intent: Vec2)
    ensures intent == RawIntent(input)
    ensures intent.y == 1.0 <==> UpHeld(input) && !DownHeld(input)
    ensures intent.y == -1.0 <==> DownHeld(input) && !UpHeld(input)
    ensures intent.x == 1.0 <==> RightHeld(input) && !LeftHeld(input)
    ensures intent.x == -1.0 <==> LeftHeld(input) && !RightHeld(input)
  {
    intent := Zero;
    if Pressed(input, KeyW) || Pressed(input, ArrowUp) {
      intent := intent.(y := intent.y + 1.0);
    }
    if Pressed(input, KeyS) || Pressed(input, ArrowDown) {
      intent := intent.(y := intent.y - 1.0);
    }
    if Pressed(input, KeyA) || Pressed(input, ArrowLeft) {
      intent := intent.(x := intent.x - 1.0);
    }
    if Pressed(input, KeyD) || Pressed(input, ArrowRight) {
      intent := intent.(x := intent.x + 1.0);
    }
  }

  /** The movement controller component (the fields this system and the
      `Player` bundle touch). */
  class MovementController {
    var intent: Vec2
    var maxSpeed: real

    /** `MovementController { max_speed, ..default() }` */
    constructor (maxSpeed: real)
      ensures this.intent == Zero && this.maxSpeed == maxSpeed
    {
      this.intent := Zero;
      this.maxSpeed := maxSpeed;
    }
  }

  /** An entity with a movement controller; `isPlayer` says whether it also
      carries the `Player` marker. */
  datatype ControlledEntity = ControlledEntity(isPlayer: bool, controller: MovementController)

  /** The controllers of `entities`. */
  function Controllers(entities: seq<ControlledEntity>): (r: set<MovementController>) {
    set i | 0 <= i < |entities| :: entities[i].controller
  }

  /** `Player::directional_input_driver`. `normalize` stands for
      `Vec2::normalize_or_zero`. Every controller of a `Player` entity gets the
      same intent; other controllers and every other field stay as they were.
      Each entity owns its own controller. */
  method DirectionalInputDriver(input: ButtonInput, normalize: Vec2 -> Vec2, entities: seq<ControlledEntity>)
    requires forall i, j :: 0 <= i < j < |entities| ==> entities[i].controller != entities[j].controller
    modifies Controllers(entities)
    ensures forall i :: 0 <= i < |entities| && entities[i].isPlayer ==>
              entities[i].controller.intent == normalize(RawIntent(input))
    ensures forall i :: 0 <= i < |entities| && !entities[i].isPlayer ==>
              entities[i].controller.intent == old(entities[i].controller.intent)
    ensures forall i :: 0 <= i < |entities| ==>
              entities[i].controller.maxSpeed == old(entities[i].controller.maxSpeed)
  {
    var raw := CollectIntent(input);
    var intent := normalize(raw);
    var k := 0;
    while k < |entities|
      invariant 0 <= k <= |entities|
      invariant forall i :: 0 <= i < k && entities[i].isPlayer ==> entities[i].controller.intent == intent
      invariant forall i :: k <= i < |entities| || (0 <= i < k && !entities[i].isPlayer) ==>
                  entities[i].controller.intent == old(entities[i].controller.intent)
      invariant forall i :: 0 <= i < |entities| ==>
                  entities[i].controller.maxSpeed == old(entities[i].controller.maxSpeed)
    {
      if entities[k].isPlayer {
        entities[k].controller.intent := intent;
      }
      k := k + 1;
    }
  }
}
