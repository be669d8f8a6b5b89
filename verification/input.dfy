/**
 * The input surface the game systems read: one frame's snapshot of Bevy's
 * `ButtonInput<KeyCode>` and `ButtonInput<MouseButton>` resources.
 */
module Input {

  /** The keys the game systems name; every other key is `OtherKey`. */
  datatype KeyCode =
    | ArrowLeft | ArrowRight
    | Escape
    | KeyQ | KeyE
    | Digit1 | Digit2 | Digit3 | Digit4 | Digit5
    | OtherKey(code: nat)

  datatype MouseButton = Left | Right | Middle | OtherButton(code: nat)

  /**
   * One frame of a button resource: the buttons held down, and the buttons
   * that went down during this frame, in the order the resource's
   * `get_just_pressed()` iterator yields them (a hash-set order the game
   * does not control, so it is an input of the model).
   */
  datatype ButtonInput<B(==)> = ButtonInput(pressed: set<B>, justPressed: seq<B>) {

    /** `just_pressed(b)`: `b` went down during this frame. */
    predicate JustPressed(b: B) {
      b in justPressed
    }

    /** `pressed(b)`: `b` is held down. */
    predicate Pressed(b: B) {
      b in pressed
    }
  }

  /** The keys that steer the paddle and therefore do not end Preparation. */
  predicate IsSteeringKey(k: KeyCode) {
    k == ArrowLeft || k == ArrowRight
  }
}
