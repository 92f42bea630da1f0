/**
 * The vocabulary the input handlers of src/main.cpp share with GLFW and the
 * camera: polled key states, callback actions, the keys the program names,
 * cursor modes, and the requests the handlers make of the camera, which is
 * not part of this model and is represented only by what it is asked to do.
 */
module Glfw {

  datatype Option<T> = None | Some(value: T)

  /** What `glfwGetKey` reports for a key in the current frame. */
  datatype KeyState = Released | Pressed

  /** The `action` argument of the key callback (GLFW_RELEASE, GLFW_PRESS, GLFW_REPEAT). */
  datatype Action = Release | Press | Repeat

  /** The keys the program reacts to; every other key is `OtherKey`. */
  datatype Key = Escape | KeyW | KeyS | KeyA | KeyD | KeyP | KeyT | F1 | OtherKey

  /** The two cursor modes the program switches between. */
  datatype CursorMode = CursorNormal | CursorDisabled

  /** The camera's movement directions (`Camera_Movement`). */
  datatype Direction = Forward | Backward | Left | Right

  /** A call into the camera, which this model does not look inside. */
  datatype CameraRequest =
    | ProcessKeyboard(direction: Direction, deltaTime: real)
    | ProcessMouseMovement(xoffset: real, yoffset: real)
    | ProcessMouseScroll(yoffset: real)

  /** The states of the keys `processInput` polls in one frame. */
  datatype PolledKeys = PolledKeys(
    escape: KeyState,
    w: KeyState, s: KeyState, a: KeyState, d: KeyState,
    p: KeyState, t: KeyState)

  /** Screen size the window is created with. */
  const ScreenWidth: nat := 800
  const ScreenHeight: nat := 600
}
