/** Keyboard state as the runtime's `ButtonInput<KeyCode>` resource exposes it. */
module Input {

  /** The keys the systems look at; every other key is `Other`. */
  datatype KeyCode =
    | F2
    | Backquote
    | KeyW | KeyA | KeyS | KeyD
    | ArrowUp | ArrowLeft | ArrowDown | ArrowRight
    | Other(code: nat)

  /** `pressed` holds the keys currently held down; `justPressed` the keys whose
      press began this frame (edge detection). */
  datatype ButtonInput = ButtonInput(pressed: set<KeyCode>, justPressed: set<KeyCode>)

  /** `ButtonInput::pressed` */
  predicate Pressed(input: ButtonInput, key: KeyCode) {
    key in input.pressed
  }

  /** `ButtonInput::just_pressed` */
  predicate JustPressed(input: ButtonInput, key: KeyCode) {
    key in input.justPressed
  }
}
