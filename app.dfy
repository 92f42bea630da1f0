/**
 * The objects the input handlers of src/main.cpp change in place: the GLFW
 * window (its close flag and cursor mode), the heap-allocated
 * `ProgramState` (its two input flags), and the file's global variables.
 * Every handler is proved to do exactly what `Frame` says it does.
 */
module App {
  import opened Glfw
  import Latch
  import Overlay
  import Mouse
  import Frame

  /** The window as far as the handlers see it. */
  class Window {
    var shouldClose: bool
    var cursor: CursorMode

    /** A new window, its cursor then captured: not closing, cursor disabled. */
    constructor ()
      ensures !shouldClose && cursor == CursorDisabled
    {
      shouldClose := false;
      cursor := CursorDisabled;
    }

    /** `glfwSetWindowShouldClose`. */
    method SetShouldClose(value: bool)
      modifies this
      ensures shouldClose == value && cursor == old(cursor)
    {
      shouldClose := value;
    }

    /** `glfwSetInputMode(window, GLFW_CURSOR, mode)`. */
    method SetCursorMode(mode: CursorMode)
      modifies this
      ensures cursor == mode && shouldClose == old(shouldClose)
    {
      cursor := mode;
    }
  }

  /** The two fields of `ProgramState` that the input handlers use. */
  class ProgramState {
    var imGuiEnabled: bool
    var cameraMouseMovementUpdateEnabled: bool

    /** The member-initialiser defaults. */
    constructor ()
      ensures Overlay.Flags(imGuiEnabled, cameraMouseMovementUpdateEnabled) == Overlay.Defaults
    {
      imGuiEnabled := false;
      cameraMouseMovementUpdateEnabled := true;
    }
  }

  /** The globals of src/main.cpp that the input handlers read and write. */
  class Input {
    var spotLightOn: bool
    var pointLightOn: bool
    var plKeyPressed: bool
    var slKeyPressed: bool
    var lastX: real
    var lastY: real
    var firstMouse: bool
    const programState: ProgramState
    const window: Window

    /** The fields and the objects they reach, read as one `Frame.State`. */
    ghost function Snapshot(): Frame.State
      reads this, programState, window
    {
      Frame.State(
        Latch.Toggle(pointLightOn, plKeyPressed),
        Latch.Toggle(spotLightOn, slKeyPressed),
        Overlay.Flags(programState.imGuiEnabled, programState.cameraMouseMovementUpdateEnabled),
        Mouse.Tracker(firstMouse, lastX, lastY),
        window.shouldClose,
        window.cursor)
    }

    /**
     * Start-up up to the render loop: the globals take their initial values,
     * the window is created with the cursor captured, the program state is
     * created and takes the `ImGuiEnabled` value the state file supplied, and
     * the cursor is freed if that shows the overlay.
     */
    constructor (restored: Option<bool>)
      ensures fresh(programState) && fresh(window)
      ensures Snapshot() == Frame.Startup(restored)
    {
      spotLightOn, pointLightOn, plKeyPressed, slKeyPressed := false, true, false, false;
      lastX, lastY := ScreenWidth as real / 2.0, ScreenHeight as real / 2.0;
      firstMouse := true;
      var w := new Window();
      var state := new ProgramState();
      if restored.Some? {
        state.imGuiEnabled := restored.value;
      }
      if state.imGuiEnabled {
        w.SetCursorMode(CursorNormal);
      }
      window := w;
      programState := state;
    }

    /** `processInput`: one frame's polled keys. */
    method ProcessInput(keys: PolledKeys, deltaTime: real) returns (requests: seq<CameraRequest>)
      modifies this, window
      ensures Snapshot().pointLight == Latch.Step(old(Snapshot()).pointLight, keys.p)
      ensures Snapshot().spotLight == Latch.Step(old(Snapshot()).spotLight, keys.t)
      ensures Snapshot().shouldClose == (old(Snapshot()).shouldClose || keys.escape == Pressed)
      ensures Snapshot().overlay == old(Snapshot()).overlay
      ensures Snapshot().mouse == old(Snapshot()).mouse
      ensures Snapshot().cursor == old(Snapshot()).cursor
      ensures requests == Frame.KeyboardMoves(keys, deltaTime)
    {
      if keys.escape == Pressed {
        window.SetShouldClose(true);
      }

      requests := [];
      if keys.w == Pressed {
        requests := requests + [ProcessKeyboard(Forward, deltaTime)];
      }
      if keys.s == Pressed {
        requests := requests + [ProcessKeyboard(Backward, deltaTime)];
      }
      if keys.a == Pressed {
        requests := requests + [ProcessKeyboard(Left, deltaTime)];
      }
      if keys.d == Pressed {
        requests := requests + [ProcessKeyboard(Right, deltaTime)];
      }
      assert requests == Frame.KeyboardMoves(keys, deltaTime);

      if keys.p == Pressed && !plKeyPressed {
        pointLightOn := !pointLightOn;
        plKeyPressed := true;
      }
      if keys.p == Released {
        plKeyPressed := false;
      }

      if keys.t == Pressed && !slKeyPressed {
        spotLightOn := !spotLightOn;
        slKeyPressed := true;
      }
      if keys.t == Released {
        slKeyPressed := false;
      }
    }

    /** `key_callback`. */
    method KeyCallback(e: Overlay.KeyEvent)
      modifies programState, window
      ensures Frame.Outcome(Snapshot(), []) == Frame.Dispatch(old(Snapshot()), Frame.KeyInput(e))
    {
      if e.key == F1 && e.action == Press {
        programState.imGuiEnabled := !programState.imGuiEnabled;
        if programState.imGuiEnabled {
          programState.cameraMouseMovementUpdateEnabled := false;
          window.SetCursorMode(CursorNormal);
        } else {
          window.SetCursorMode(CursorDisabled);
        }
      }
    }

    /** `mouse_callback`. */
    method MouseCallback(p: Mouse.Pos) returns (request: Option<CameraRequest>)
      modifies this
      ensures Frame.Outcome(Snapshot(), if request.Some? then [request.value] else [])
           == Frame.Dispatch(old(Snapshot()), Frame.CursorPos(p))
    {
      if firstMouse {
        lastX := p.x;
        lastY := p.y;
        firstMouse := false;
      }

      var xoffset := p.x - lastX;
      var yoffset := lastY - p.y;

      lastX := p.x;
      lastY := p.y;

      request := None;
      if programState.cameraMouseMovementUpdateEnabled {
        request := Some(ProcessMouseMovement(xoffset, yoffset));
      }
    }

    /** `scroll_callback`: the wheel's vertical offset goes to the camera; no input state changes. */
    method ScrollCallback(yoffset: real) returns (request: CameraRequest)
      ensures Frame.Outcome(Snapshot(), [request]) == Frame.Dispatch(Snapshot(), Frame.ScrollInput(yoffset))
    {
      request := ProcessMouseScroll(yoffset);
    }

    /**
     * `DrawImGui`, as far as input state goes: a click on the "Camera mouse
     * update" checkbox flips `CameraMouseMovementUpdateEnabled`.
     */
    method DrawImGui(checkboxClicked: bool)
      modifies programState
      ensures programState.cameraMouseMovementUpdateEnabled
           == (old(programState.cameraMouseMovementUpdateEnabled) != checkboxClicked)
      ensures programState.imGuiEnabled == old(programState.imGuiEnabled)
    {
      if checkboxClicked {
        programState.cameraMouseMovementUpdateEnabled := !programState.cameraMouseMovementUpdateEnabled;
      }
    }

    /** `glfwPollEvents`: the queued events go to their callbacks in order. */
    method PollEvents(events: seq<Frame.Event>) returns (requests: seq<CameraRequest>)
      modifies this, programState, window
      ensures Frame.Outcome(Snapshot(), requests) == Frame.DispatchAll(old(Snapshot()), events)
    {
      requests := [];
      var i := 0;
      while i < |events|
        invariant 0 <= i <= |events|
        invariant Frame.Outcome(Snapshot(), requests) == Frame.DispatchAll(old(Snapshot()), events[..i])
      {
        assert events[..i + 1][..i] == events[..i];
        match events[i] {
          case KeyInput(e) =>
            KeyCallback(e);
          case CursorPos(p) =>
            var request := MouseCallback(p);
            if request.Some? {
              requests := requests + [request.value];
            }
          case ScrollInput(yoffset) =>
            var request := ScrollCallback(yoffset);
            requests := requests + [request];
          case CloseRequest =>
            window.SetShouldClose(true);
        }
        i := i + 1;
      }
      assert events[..i] == events;
    }

    /**
     * One iteration of the render loop's input side: poll the keys, draw
     * the overlay if it is shown, then deliver the frame's events.
     */
    method RunFrame(f: Frame.FrameInput) returns (requests: seq<CameraRequest>)
      modifies this, programState, window
      ensures Frame.Outcome(Snapshot(), requests) == Frame.FrameStep(old(Snapshot()), f)
    {
      var moves := ProcessInput(f.keys, f.deltaTime);
      assert Snapshot() == Frame.PollKeys(old(Snapshot()), f.keys, f.deltaTime).state;
      if programState.imGuiEnabled {
        DrawImGui(f.checkboxClicked);
      }
      assert Snapshot() == Frame.DrawOverlay(Frame.PollKeys(old(Snapshot()), f.keys, f.deltaTime).state, f.checkboxClicked);
      var delivered := PollEvents(f.events);
      requests := moves + delivered;
    }

    /**
     * The render loop's input side: while the window is not asked to close
     * and frames remain, run one iteration per frame.
     * Returns how many iterations ran and the camera requests made.
     */
    method RunLoop(frames: seq<Frame.FrameInput>) returns (iterations: nat, requests: seq<CameraRequest>)
      modifies this, programState, window
      ensures Frame.LoopResult(Snapshot(), iterations, requests) == Frame.Loop(old(Snapshot()), frames)
    {
      ghost var start := Snapshot();
      requests := [];
      iterations := 0;
      while iterations < |frames| && !window.shouldClose
        invariant iterations <= |frames|
        invariant Frame.Loop(start, frames)
               == Frame.Join(iterations, requests, Frame.Loop(Snapshot(), frames[iterations..]))
        decreases |frames| - iterations
      {
        ghost var before := Snapshot();
        var f := frames[iterations];
        var rs := RunFrame(f);
        assert frames[iterations..][0] == f;
        assert frames[iterations..][1..] == frames[iterations + 1..];
        Frame.LoopStep(before, frames[iterations..]);
        Frame.JoinJoin(iterations, requests, 1, rs, Frame.Loop(Snapshot(), frames[iterations + 1..]));
        requests := requests + rs;
        iterations := iterations + 1;
      }
    }
  }
}
