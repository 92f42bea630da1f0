/**
 * The F1 overlay toggle of `key_callback`, together with the two
 * `ProgramState` flags it touches. Turning the debug overlay on also stops
 * the mouse from steering the camera and frees the cursor; turning it off
 * captures the cursor again but leaves the mouse flag as it is.
 */
module Overlay {
  import opened Glfw

  /** The `ProgramState` flags `ImGuiEnabled` and `CameraMouseMovementUpdateEnabled`. */
  datatype Flags = Flags(imGuiEnabled: bool, cameraMouseUpdate: bool)

  /** The member-initialiser defaults: overlay hidden, mouse drives the camera. */
  const Defaults := Flags(false, true)

  /** One call of the key callback (scancode and modifiers are ignored by the program). */
  datatype KeyEvent = KeyEvent(key: Key, action: Action)

  /** The only event the callback reacts to: a press of F1 (not a repeat, not a release). */
  predicate TogglesOverlay(e: KeyEvent)
  {
    e.key == F1 && e.action == Press
  }

  /** The flags after the callback, and the cursor mode it requested, if any. */
  datatype Reaction = Reaction(flags: Flags, cursor: Option<CursorMode>)

  function OnKey(f: Flags, e: KeyEvent): (r: Reaction)
    ensures TogglesOverlay(e) ==> r.flags.imGuiEnabled == !f.imGuiEnabled
    ensures TogglesOverlay(e) && r.flags.imGuiEnabled ==>
              !r.flags.cameraMouseUpdate && r.cursor == Some(CursorNormal)
    ensures TogglesOverlay(e) && !r.flags.imGuiEnabled ==>
              r.flags.cameraMouseUpdate == f.cameraMouseUpdate && r.cursor == Some(CursorDisabled)
    ensures !TogglesOverlay(e) ==> r == Reaction(f, None)
  {
    if e.key == F1 && e.action == Press then
      var enabled := !f.imGuiEnabled;
      if enabled then Reaction(Flags(enabled, false), Some(CursorNormal))
      else Reaction(Flags(enabled, f.cameraMouseUpdate), Some(CursorDisabled))
    else
      Reaction(f, None)
  }

  /** The flags after a sequence of key callbacks, the last one applied last. */
  function RunKeys(f: Flags, es: seq<KeyEvent>): Flags
    decreases |es|
  {
    if es == [] then f else OnKey(RunKeys(f, es[..|es| - 1]), es[|es| - 1]).flags
  }

  /** How many of the events are presses of F1. */
  function Toggles(es: seq<KeyEvent>): nat
    decreases |es|
  {
    if es == [] then 0
    else Toggles(es[..|es| - 1]) + if TogglesOverlay(es[|es| - 1]) then 1 else 0
  }

  /** The overlay is shown iff F1 was pressed an odd number of times from hidden, or an even number from shown. */
  lemma {:induction false} OverlayParity(f: Flags, es: seq<KeyEvent>)
    ensures RunKeys(f, es).imGuiEnabled <==> f.imGuiEnabled != (Toggles(es) % 2 == 1)
    decreases |es|
  {
    if es != [] {
      OverlayParity(f, es[..|es| - 1]);
    }
  }

  /**
   * Key events never turn camera mouse update back on: it survives a sequence
   * of key events iff it was on and no F1 press in the sequence showed the
   * overlay — no press at all from hidden, at most one (the one that hides it)
   * from shown.
   */
  lemma {:induction false} MouseUpdateSurvives(f: Flags, es: seq<KeyEvent>)
    ensures RunKeys(f, es).cameraMouseUpdate <==>
              f.cameraMouseUpdate && (Toggles(es) == 0 || (f.imGuiEnabled && Toggles(es) == 1))
    decreases |es|
  {
    if es != [] {
      var pre := es[..|es| - 1];
      MouseUpdateSurvives(f, pre);
      OverlayParity(f, pre);
    }
  }

  /**
   * The toggle is asymmetric: pressing F1 twice puts the overlay back where it
   * was, but always leaves camera mouse update off.
   */
  lemma DoubleToggle(f: Flags)
    ensures RunKeys(f, [KeyEvent(F1, Press), KeyEvent(F1, Press)]) == Flags(f.imGuiEnabled, false)
  {
  }
}
