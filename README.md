# Input state machine of the RG-projekat scene demo

The demo renders a fixed street scene with OpenGL and lets the user fly a
camera. Its only stateful logic apart from rendering is input handling in
`src/main.cpp`:

- `processInput` runs once per frame. Escape asks the window to close.
  W/S/A/D move the camera. P and T toggle the point lights and the spotlight.
  The toggles are edge-triggered: the latches `plKeyPressed` and
  `slKeyPressed` stop a held key from flipping the light again until it is
  released.
- `key_callback` toggles the debug overlay (`ImGuiEnabled`) on a press of F1.
  Showing the overlay also clears `CameraMouseMovementUpdateEnabled` and frees
  the cursor. Hiding it captures the cursor again but does not restore the
  mouse flag.
- `mouse_callback` turns cursor positions into offsets from the previous
  position (`lastX`, `lastY`). The very first event counts as a zero move
  (`firstMouse`); with exact coordinates, that is, see "Left out" for the
  rounding of the stored `float` position. The offsets reach the camera only while
  `CameraMouseMovementUpdateEnabled` is set.
- `scroll_callback` passes the wheel offset to the camera.
- `DrawImGui` draws the overlay in each frame where it is shown. Its
  "Camera mouse update" checkbox flips `CameraMouseMovementUpdateEnabled`
  when clicked, and is the only way to turn mouse update back on.
- The render loop repeats while the window's close flag is clear. Each
  iteration polls the keys first, then draws the overlay if it is shown,
  then `glfwPollEvents` delivers the queued events to the callbacks.

The model has these modules:

- `Glfw` (`glfw.dfy`): the shared vocabulary.
- `Latch` (`latch.dfy`): the P/T toggle rule and its lemmas.
- `Overlay` (`overlay.dfy`): the F1 rule and its lemmas.
- `Mouse` (`mouse.dfy`): the cursor callback and its lemmas.
- `Frame` (`frame.dfy`): pure functions for one loop iteration and for the
  whole loop, over one record holding all input state.
- `App` (`app.dfy`): the same behaviour as classes that are changed in place.
  `Window` holds the close flag and cursor mode. `ProgramState` holds its two
  input flags. `Input` holds the file's globals. Each method of `Input` is
  proved to match the `Frame` function for the same handler.

The camera, whose code is in `learnopengl/camera.h`, is not part of this
model. The handlers return `CameraRequest` values that record which camera
call was made and with which arguments.

## Model

| member | source | states |
|---|---|---|
| `Latch.Step` | src/main.cpp:525-532 | After a frame the latch is set iff the key is down. The light changes iff the key is down and the latch was clear. |
| `Latch.FlipsAreRisingEdges` | src/main.cpp:525-532 | Over any sequence of key states, the number of frames in which the light changed equals the number of release-to-press transitions. A press in the first frame counts when the latch started clear. |
| `Latch.RunParity` | src/main.cpp:525-532 | After a run the light is on iff its starting state and the parity of its flip count say so. |
| `Latch.EdgeParity` | src/main.cpp:525-532 | The light's final state depends only on its starting state and the parity of the key's release-to-press transitions. |
| `Latch.HoldingFlipsOnce` | src/main.cpp:525-528 | A key held over consecutive frames flips the light at most once: in the first frame if the latch was clear, never if it was set. The latch stays set. |
| `Latch.ReleasingKeeps` | src/main.cpp:529-532 | Frames with the key released never change the light and leave the latch clear. |
| `Latch.PressReleaseCycle` | src/main.cpp:525-532 | Holding for any number of frames and then releasing for any number flips the light exactly once and re-arms the latch. |
| `Overlay.OnKey` | src/main.cpp:612-623 | A press of F1 negates `ImGuiEnabled`. If the overlay is now shown, mouse update is cleared and the cursor freed. If it is now hidden, mouse update keeps its value and the cursor is captured. Any other key or action changes nothing and sets no cursor mode. |
| `Overlay.OverlayParity` | src/main.cpp:612-614 | After a sequence of key events the overlay is shown iff its start state and the parity of the number of F1 presses say so. |
| `Overlay.MouseUpdateSurvives` | src/main.cpp:612-621 | Key events never turn mouse update on. It survives iff it was on and no F1 press showed the overlay: no presses from hidden, at most one from shown. |
| `Overlay.DoubleToggle` | src/main.cpp:612-621 | Two F1 presses restore the overlay's visibility but always leave mouse update off. This is the asymmetric toggle. |
| `Mouse.OnCursor` | src/main.cpp:555-570 | After any event `firstMouse` is false and the last position is the event's. The camera is asked to move iff mouse update is on. The first event asks for a zero move. Any later event's offset carries the previous position to the new one, with y reversed. |
| `Mouse.MovesTelescope` | src/main.cpp:555-566 | While mouse update is on, a run's offsets add up to the distance from the first known position to the last one. No movement is lost or counted twice. |
| `Frame.Startup` | src/main.cpp:72-91 | Initial state: point light on, spotlight off, both latches clear. `ImGuiEnabled` is false unless the state file supplied true. Mouse update is on, the first-event latch is set, the window is not closing. The cursor is free iff the overlay is shown. |
| `Frame.KeyboardMovesSpec` | src/main.cpp:516-523 | Exactly one camera move per direction whose key is down, each with the frame's time step, in the order W, S, A, D. |
| `Frame.PollKeys` | src/main.cpp:509-543 | The close flag ends up set iff it was set or Escape is down. Each light follows `Latch.Step` on its own key only. The overlay flags, mouse bookkeeping and cursor are unchanged. |
| `Frame.Dispatch` | src/main.cpp:555-623 | No callback touches the lights. Only a close request sets the close flag. Mouse update is never turned on. Each event makes at most one camera request. A mouse-movement request happens only while mouse update is on. |
| `Frame.DispatchAll` | src/main.cpp:493 | Over all queued events: the lights are untouched. The close flag is set iff it was set or some event asked to close. Mouse update never turns on, and while it is off no mouse movement reaches the camera. |
| `Frame.DrawOverlay` | src/main.cpp:487-488 | Mouse update changes iff the overlay is shown and its checkbox was clicked. Nothing else of the input state changes. |
| `Frame.FrameStep` | src/main.cpp:392-494 | One iteration: each light takes one toggle step on its own key. The close flag ends up set iff it was set, Escape was down or an event asked to close. Mouse update is turned on only by a checkbox click while the overlay is shown. Without that, an iteration that starts with mouse update off sends no mouse movement to the camera. |
| `Frame.Loop` | src/main.cpp:392-494 | The loop runs no iteration if the window is already closing. Otherwise it stops right after the first iteration that asks to close, or when the frames run out. No earlier iteration asked to close. |
| `Frame.LoopLights` | src/main.cpp:392-401 | Over the iterations that ran, the point light is the P toggle run on the P key states alone. The spotlight is the T toggle run on the T key states alone. |
| `Frame.StartupLights` | src/main.cpp:72-75 | From start-up, the point light ends on iff its key saw an even number of release-to-press transitions. The spotlight ends on iff its key saw an odd number. |
| `Frame.LoopKeepsMouseOff` | src/main.cpp:392-494 | Once mouse update is off, only the overlay's checkbox turns it back on: over frames with no checkbox click it stays off and no mouse movement reaches the camera. |
| `App.Window.constructor` | src/main.cpp:158-170 | A new window is not closing and its cursor is captured. |
| `App.ProgramState.constructor` | src/main.cpp:88-98 | `ImGuiEnabled` starts false and `CameraMouseMovementUpdateEnabled` true. |
| `App.Input.constructor` | src/main.cpp:194-198 | The globals, window and program state together start in `Frame.Startup`'s state for the restored `ImGuiEnabled` value. |
| `App.Input.ProcessInput` | src/main.cpp:509-543 | In place: each light and latch pair takes `Latch.Step` on its own key. The close flag is set iff it was set or Escape is down. Everything else is unchanged. The camera moves returned are `Frame.KeyboardMoves`. |
| `App.Input.KeyCallback` | src/main.cpp:612-623 | In place: the program state and cursor change exactly as `Frame.Dispatch` says for the key event. |
| `App.Input.MouseCallback` | src/main.cpp:555-570 | In place: the globals and the returned camera request are exactly `Frame.Dispatch` for the cursor event. |
| `App.Input.ScrollCallback` | src/main.cpp:574-576 | The wheel offset goes unchanged to the camera. No input state changes. |
| `App.Input.DrawImGui` | src/main.cpp:578-610 | In place: a checkbox click flips `CameraMouseMovementUpdateEnabled`; `ImGuiEnabled` is unchanged. |
| `App.Input.PollEvents` | src/main.cpp:492-493 | In place: the queued events are delivered in order, and the state and requests are `Frame.DispatchAll`'s. |
| `App.Input.RunFrame` | src/main.cpp:392-494 | In place: one iteration's state and camera requests are `Frame.FrameStep`'s. |
| `App.Input.RunLoop` | src/main.cpp:392-494 | In place: the iterations run, the final state and the camera requests are `Frame.Loop`'s. |

## Left out

- Rendering is not modelled: the OpenGL, GLFW and ImGui setup, buffers, draw calls, skybox depth state and `setShader`. These are calls into foreign libraries.
- `DrawImGui` is modelled only through its "Camera mouse update" checkbox, as a per-frame input saying whether the box was clicked. Its slider, colour editor and light-attenuation drags change rendering values that the input logic does not read, and its text is output only.
- `loadTexture` and `loadCubemap` are not modelled. They are image I/O and GPU calls.
- `ProgramState::SaveToFile` and `LoadFromFile` are not modelled. They are file I/O of floats in default stream formatting.
- Frame.Startup: the parsing of the state file is not modelled. It receives only the `ImGuiEnabled` value the file supplied, if any.
- The per-object model transforms, the projection and view matrices, and the timing that produces `deltaTime` are not modelled. They are float matrix maths and a float clock. `deltaTime` is an input of each frame.
- The camera's `ProcessKeyboard`, `ProcessMouseMovement` and `ProcessMouseScroll` are not modelled. This includes zoom clamping and the front-vector formula. `learnopengl/camera.h` is not part of this model, so the handlers only record which call they made.
- Mouse.OnCursor: coordinates are exact reals. The source stores the `double` cursor position in the `float`s `lastX` and `lastY`, so its first offset is the rounding error `xpos - (float)xpos` rather than exactly zero, and a later offset carries the rounded previous position, not the exact one.
- Mouse.MovesTelescope: coordinates and offsets are exact reals. The source subtracts `double` positions and stores `float`s, so its sums round.
- GLFW keeps the polled key states and the key events consistent with each other internally. That link is not modelled: each frame's polled keys and queued events are independent inputs.
- `framebuffer_size_callback` is not modelled. It only resizes the GL viewport.
- The callbacks that ImGui's GLFW backend installs alongside the program's are not modelled.
- The two start-up failure exits are not modelled: window creation failing and GL loader failing.
