/**
 * The input side of the render loop in `main`: each iteration first polls
 * the keyboard (`processInput`), then renders, then lets GLFW deliver the
 * queued window events to the callbacks (`glfwPollEvents`); the loop runs
 * while the window's close flag is clear. This module states that as pure
 * functions over the whole input state; `App` carries it out on objects.
 */
module Frame {
  import opened Glfw
  import Latch
  import Overlay
  import Mouse

  /** Everything the input handlers read and write. */
  datatype State = State(
    pointLight: Latch.Toggle,
    spotLight: Latch.Toggle,
    overlay: Overlay.Flags,
    mouse: Mouse.Tracker,
    shouldClose: bool,
    cursor: CursorMode)

  /** A window event delivered to a callback during `glfwPollEvents`. */
  datatype Event =
    | KeyInput(key: Overlay.KeyEvent)
    | CursorPos(pos: Mouse.Pos)
    | ScrollInput(yoffset: real)
    | CloseRequest

  /**
   * What one iteration of the render loop receives: elapsed time, polled
   * keys, whether the user clicked the overlay's "Camera mouse update"
   * checkbox (it has an effect only in a frame that draws the overlay), and
   * the queued events.
   */
  datatype FrameInput = FrameInput(deltaTime: real, keys: PolledKeys, checkboxClicked: bool, events: seq<Event>)

  /** A state together with the camera requests made on the way to it. */
  datatype Outcome = Outcome(state: State, requests: seq<CameraRequest>)

  /** The result of the render loop: final state, iterations run, camera requests made. */
  datatype LoopResult = LoopResult(state: State, frames: nat, requests: seq<CameraRequest>)

  /**
   * The state when the render loop starts. `restored` is the `ImGuiEnabled`
   * value the state file supplied, `None` when it supplied none; the cursor
   * is captured at window creation and freed again if the overlay is shown.
   */
  function Startup(restored: Option<bool>): (s: State)
    ensures s.pointLight.on && !s.pointLight.held
    ensures !s.spotLight.on && !s.spotLight.held
    ensures s.overlay.imGuiEnabled <==> restored == Some(true)
    ensures s.overlay.cameraMouseUpdate && s.mouse == Mouse.Initial && !s.shouldClose
    ensures s.cursor == CursorNormal <==> s.overlay.imGuiEnabled
  {
    var flags := match restored
      case Some(b) => Overlay.Defaults.(imGuiEnabled := b)
      case None => Overlay.Defaults;
    State(Latch.PointLightInitial, Latch.SpotLightInitial, flags, Mouse.Initial, false,
          if flags.imGuiEnabled then CursorNormal else CursorDisabled)
  }

  /** The key that moves the camera in a direction. */
  function KeyFor(k: PolledKeys, d: Direction): KeyState
  {
    match d
    case Forward => k.w
    case Backward => k.s
    case Left => k.a
    case Right => k.d
  }

  /** The position of a direction in the order `processInput` tests the keys. */
  function Rank(d: Direction): nat
  {
    match d
    case Forward => 0
    case Backward => 1
    case Left => 2
    case Right => 3
  }

  /** The camera moves `processInput` asks for, testing W, S, A, D in that order. */
  function KeyboardMoves(k: PolledKeys, deltaTime: real): seq<CameraRequest>
  {
    (if k.w == Pressed then [ProcessKeyboard(Forward, deltaTime)] else []) +
    (if k.s == Pressed then [ProcessKeyboard(Backward, deltaTime)] else []) +
    (if k.a == Pressed then [ProcessKeyboard(Left, deltaTime)] else []) +
    (if k.d == Pressed then [ProcessKeyboard(Right, deltaTime)] else [])
  }

  /**
   * One move per direction whose key is down and none for the others, each
   * scaled by the frame time, in the order W, S, A, D.
   */
  lemma KeyboardMovesSpec(k: PolledKeys, deltaTime: real)
    ensures var r := KeyboardMoves(k, deltaTime);
            (forall i :: 0 <= i < |r| ==> r[i].ProcessKeyboard? && r[i].deltaTime == deltaTime) &&
            (forall d :: ProcessKeyboard(d, deltaTime) in r <==> KeyFor(k, d) == Pressed) &&
            (forall i, j :: 0 <= i < j < |r| ==> Rank(r[i].direction) < Rank(r[j].direction))
  {
  }

  /** `processInput`: close on Escape, move the camera for W/S/A/D, run the P and T toggles. */
  function PollKeys(s: State, k: PolledKeys, deltaTime: real): (r: Outcome)
    ensures r.state.shouldClose <==> s.shouldClose || k.escape == Pressed
    ensures r.state.pointLight == Latch.Step(s.pointLight, k.p)
    ensures r.state.spotLight == Latch.Step(s.spotLight, k.t)
    ensures r.state.overlay == s.overlay && r.state.mouse == s.mouse && r.state.cursor == s.cursor
    ensures r.requests == KeyboardMoves(k, deltaTime)
  {
    Outcome(s.(shouldClose := s.shouldClose || k.escape == Pressed,
            pointLight := Latch.Step(s.pointLight, k.p),
            spotLight := Latch.Step(s.spotLight, k.t)),
         KeyboardMoves(k, deltaTime))
  }

  /** One callback invocation during `glfwPollEvents`. */
  function Dispatch(s: State, e: Event): (r: Outcome)
    ensures r.state.pointLight == s.pointLight && r.state.spotLight == s.spotLight
    ensures r.state.shouldClose <==> s.shouldClose || e.CloseRequest?
    ensures r.state.overlay.cameraMouseUpdate ==> s.overlay.cameraMouseUpdate
    ensures !e.CursorPos? ==> r.state.mouse == s.mouse
    ensures !e.KeyInput? ==> r.state.overlay == s.overlay && r.state.cursor == s.cursor
    ensures |r.requests| <= 1
    ensures r.requests != [] && r.requests[0].ProcessMouseMovement? ==> s.overlay.cameraMouseUpdate
  {
    match e
    case KeyInput(ke) =>
      var reaction := Overlay.OnKey(s.overlay, ke);
      var cursor := match reaction.cursor case Some(m) => m case None => s.cursor;
      Outcome(s.(overlay := reaction.flags, cursor := cursor), [])
    case CursorPos(p) =>
      var reaction := Mouse.OnCursor(s.mouse, s.overlay.cameraMouseUpdate, p);
      var requests := match reaction.request case Some(q) => [q] case None => [];
      Outcome(s.(mouse := reaction.tracker), requests)
    case ScrollInput(yoffset) =>
      Outcome(s, [ProcessMouseScroll(yoffset)])
    case CloseRequest =>
      Outcome(s.(shouldClose := true), [])
  }

  /** No camera request in the list is a mouse movement. */
  predicate NoMouseMoves(rs: seq<CameraRequest>)
  {
    forall i :: 0 <= i < |rs| ==> !rs[i].ProcessMouseMovement?
  }

  /** Some event in the list asks the window to close. */
  predicate AsksToClose(es: seq<Event>)
  {
    exists i :: 0 <= i < |es| && es[i].CloseRequest?
  }

  /** All queued events, in order, the last one delivered last. */
  function DispatchAll(s: State, es: seq<Event>): (r: Outcome)
    ensures r.state.pointLight == s.pointLight && r.state.spotLight == s.spotLight
    ensures r.state.shouldClose <==> s.shouldClose || AsksToClose(es)
    ensures r.state.overlay.cameraMouseUpdate ==> s.overlay.cameraMouseUpdate
    ensures !s.overlay.cameraMouseUpdate ==> NoMouseMoves(r.requests)
    decreases |es|
  {
    if es == [] then Outcome(s, [])
    else
      var pre := es[..|es| - 1];
      var before := DispatchAll(s, pre);
      var last := Dispatch(before.state, es[|es| - 1]);
      assert AsksToClose(es) <==> AsksToClose(pre) || es[|es| - 1].CloseRequest? by {
        if AsksToClose(es) && !es[|es| - 1].CloseRequest? {
          var i :| 0 <= i < |es| && es[i].CloseRequest?;
          assert pre[i] == es[i];
        }
        if AsksToClose(pre) {
          var i :| 0 <= i < |pre| && pre[i].CloseRequest?;
          assert es[i] == pre[i];
        }
      }
      Outcome(last.state, before.requests + last.requests)
  }

  /**
   * The overlay drawn in a frame, if it is shown: a click on its "Camera
   * mouse update" checkbox flips the flag. Nothing else of the input state
   * changes, and a hidden overlay is not drawn at all.
   */
  function DrawOverlay(s: State, checkboxClicked: bool): (r: State)
    ensures r.overlay.cameraMouseUpdate != s.overlay.cameraMouseUpdate <==>
              s.overlay.imGuiEnabled && checkboxClicked
    ensures r.(overlay := s.overlay) == s && r.overlay.imGuiEnabled == s.overlay.imGuiEnabled
  {
    if s.overlay.imGuiEnabled && checkboxClicked then
      s.(overlay := s.overlay.(cameraMouseUpdate := !s.overlay.cameraMouseUpdate))
    else s
  }

  /** The checkbox turns mouse update back on in this frame: the overlay is shown and the box is clicked. */
  predicate ChecksMouseBack(s: State, f: FrameInput)
  {
    s.overlay.imGuiEnabled && f.checkboxClicked
  }

  /**
   * One iteration of the render loop: poll the keys, draw the overlay if it
   * is shown, then deliver the queued events.
   */
  function FrameStep(s: State, f: FrameInput): (r: Outcome)
    ensures r.state.pointLight == Latch.Step(s.pointLight, f.keys.p)
    ensures r.state.spotLight == Latch.Step(s.spotLight, f.keys.t)
    ensures r.state.shouldClose <==> s.shouldClose || Closes(f)
    ensures r.state.overlay.cameraMouseUpdate ==> s.overlay.cameraMouseUpdate || ChecksMouseBack(s, f)
    ensures !s.overlay.cameraMouseUpdate && !ChecksMouseBack(s, f) ==> NoMouseMoves(r.requests)
  {
    var polled := PollKeys(s, f.keys, f.deltaTime);
    var drawn := DrawOverlay(polled.state, f.checkboxClicked);
    var delivered := DispatchAll(drawn, f.events);
    assert !s.overlay.cameraMouseUpdate && !ChecksMouseBack(s, f) ==>
             NoMouseMoves(polled.requests + delivered.requests) by {
      if !s.overlay.cameraMouseUpdate && !ChecksMouseBack(s, f) {
        var rs := polled.requests + delivered.requests;
        forall i | 0 <= i < |rs| ensures !rs[i].ProcessMouseMovement? {
          if i >= |polled.requests| { assert rs[i] == delivered.requests[i - |polled.requests|]; }
        }
      }
    }
    Outcome(delivered.state, polled.requests + delivered.requests)
  }

  /** The frame ends with the window asked to close: Escape was down, or the system asked. */
  predicate Closes(f: FrameInput)
  {
    f.keys.escape == Pressed || AsksToClose(f.events)
  }

  /**
   * The render loop over the frames the user supplies: an iteration runs
   * only while the close flag is clear, so the loop ends with the frame in
   * which the window is first asked to close, or when the frames run out.
   */
  function Loop(s: State, frames: seq<FrameInput>): (r: LoopResult)
    ensures r.frames <= |frames|
    ensures s.shouldClose ==> r == LoopResult(s, 0, [])
    ensures !s.shouldClose ==> forall i :: 0 <= i < r.frames - 1 ==> !Closes(frames[i])
    ensures !s.shouldClose && r.frames < |frames| ==> r.frames > 0 && Closes(frames[r.frames - 1])
    ensures r.state.shouldClose ==> s.shouldClose || r.frames > 0
    decreases |frames|
  {
    if s.shouldClose || frames == [] then LoopResult(s, 0, [])
    else
      var first := FrameStep(s, frames[0]);
      var rest := Loop(first.state, frames[1..]);
      assert !first.state.shouldClose ==> forall i :: 0 < i < 1 + rest.frames - 1 ==> !Closes(frames[i]) by {
        if !first.state.shouldClose {
          forall i | 0 < i < rest.frames ensures !Closes(frames[i]) {
            assert frames[i] == frames[1..][i - 1];
          }
        }
      }
      LoopResult(rest.state, 1 + rest.frames, first.requests + rest.requests)
  }

  /** A run of `n` earlier iterations that made requests `rs`, followed by run `r`. */
  function Join(n: nat, rs: seq<CameraRequest>, r: LoopResult): LoopResult
  {
    LoopResult(r.state, n + r.frames, rs + r.requests)
  }

  /** One iteration of the loop, then the rest of it. */
  lemma LoopStep(s: State, frames: seq<FrameInput>)
    requires !s.shouldClose && frames != []
    ensures Loop(s, frames)
         == Join(1, FrameStep(s, frames[0]).requests, Loop(FrameStep(s, frames[0]).state, frames[1..]))
  {
  }

  lemma JoinJoin(n: nat, a: seq<CameraRequest>, m: nat, b: seq<CameraRequest>, r: LoopResult)
    ensures Join(n, a, Join(m, b, r)) == Join(n + m, a + b, r)
  {
  }

  /** The key states of one key over a list of frames. */
  function PKeys(frames: seq<FrameInput>): (ks: seq<KeyState>)
    ensures |ks| == |frames| && forall i :: 0 <= i < |frames| ==> ks[i] == frames[i].keys.p
  {
    seq(|frames|, i requires 0 <= i < |frames| => frames[i].keys.p)
  }

  function TKeys(frames: seq<FrameInput>): (ks: seq<KeyState>)
    ensures |ks| == |frames| && forall i :: 0 <= i < |frames| ==> ks[i] == frames[i].keys.t
  {
    seq(|frames|, i requires 0 <= i < |frames| => frames[i].keys.t)
  }

  /**
   * Over the iterations the loop runs, each light follows its own key alone:
   * the point light is the P toggle run over the P key states, the spotlight
   * the T toggle run over the T key states, whatever else the frames hold.
   */
  lemma {:induction false} LoopLights(s: State, frames: seq<FrameInput>)
    ensures var r := Loop(s, frames);
            r.state.pointLight == Latch.Run(s.pointLight, PKeys(frames[..r.frames])) &&
            r.state.spotLight == Latch.Run(s.spotLight, TKeys(frames[..r.frames]))
    decreases |frames|
  {
    var r := Loop(s, frames);
    if s.shouldClose || frames == [] {
      assert frames[..r.frames] == [];
    } else {
      var first := FrameStep(s, frames[0]);
      var rest := Loop(first.state, frames[1..]);
      LoopLights(first.state, frames[1..]);
      DoneKeys(frames, rest.frames);
      Latch.RunPrepend(s.pointLight, frames[0].keys.p, PKeys(frames[1..][..rest.frames]));
      Latch.RunPrepend(s.spotLight, frames[0].keys.t, TKeys(frames[1..][..rest.frames]));
    }
  }

  /**
   * From start-up, with the point light on and the spotlight off and both
   * latches clear, the point light is on at the end of the loop iff its key
   * saw an even number of release-to-press transitions, the spotlight iff
   * its key saw an odd number.
   */
  lemma StartupLights(restored: Option<bool>, frames: seq<FrameInput>)
    ensures var r := Loop(Startup(restored), frames);
            (r.state.pointLight.on <==> |Latch.Edges(false, PKeys(frames[..r.frames]))| % 2 == 0) &&
            (r.state.spotLight.on <==> |Latch.Edges(false, TKeys(frames[..r.frames]))| % 2 == 1)
  {
    var s := Startup(restored);
    var r := Loop(s, frames);
    LoopLights(s, frames);
    Latch.EdgeParity(s.pointLight, PKeys(frames[..r.frames]));
    Latch.EdgeParity(s.spotLight, TKeys(frames[..r.frames]));
  }

  /** The keys of the first `n + 1` frames: the first frame's, then those of the next `n`. */
  lemma DoneKeys(frames: seq<FrameInput>, n: nat)
    requires n < |frames|
    ensures PKeys(frames[..n + 1]) == [frames[0].keys.p] + PKeys(frames[1..][..n])
    ensures TKeys(frames[..n + 1]) == [frames[0].keys.t] + TKeys(frames[1..][..n])
  {
  }

  /** No frame of the list has the "Camera mouse update" checkbox clicked. */
  predicate NoCheckboxClicks(frames: seq<FrameInput>)
  {
    forall i :: 0 <= i < |frames| ==> !frames[i].checkboxClicked
  }

  /**
   * Once the mouse has stopped steering the camera, only the overlay's
   * checkbox makes it steer again: while no frame clicks it, mouse update
   * stays off and no frame asks the camera for a mouse movement.
   */
  lemma {:induction false} LoopKeepsMouseOff(s: State, frames: seq<FrameInput>)
    requires !s.overlay.cameraMouseUpdate && NoCheckboxClicks(frames)
    ensures !Loop(s, frames).state.overlay.cameraMouseUpdate
    ensures NoMouseMoves(Loop(s, frames).requests)
    decreases |frames|
  {
    if !(s.shouldClose || frames == []) {
      var first := FrameStep(s, frames[0]);
      var rest := Loop(first.state, frames[1..]);
      assert NoCheckboxClicks(frames[1..]) by {
        forall i | 0 <= i < |frames[1..]| ensures !frames[1..][i].checkboxClicked {
          assert frames[1..][i] == frames[i + 1];
        }
      }
      LoopKeepsMouseOff(first.state, frames[1..]);
      var rs := first.requests + rest.requests;
      forall i | 0 <= i < |rs| ensures !rs[i].ProcessMouseMovement? {
        if i >= |first.requests| { assert rs[i] == rest.requests[i - |first.requests|]; }
      }
    }
  }
}
