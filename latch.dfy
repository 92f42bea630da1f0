/**
 * The edge-triggered light toggle of `processInput`: the P key drives
 * `pointLightOn` through the latch `plKeyPressed`, the T key drives
 * `spotLightOn` through `slKeyPressed`, by the same rule. A press flips the
 * light only if the latch is clear and then sets it; a release clears it.
 */
module Latch {
  import opened Glfw

  /** One light's state: whether it is on, and whether its key is latched as held. */
  datatype Toggle = Toggle(on: bool, held: bool)

  /** Start state of the point light: on, latch clear. */
  const PointLightInitial := Toggle(true, false)

  /** Start state of the spotlight: off, latch clear. */
  const SpotLightInitial := Toggle(false, false)

  /** One frame of the rule: flip on a press with the latch clear; the latch then follows the key. */
  function Step(t: Toggle, k: KeyState): (r: Toggle)
    ensures r.held <==> k == Pressed
    ensures r.on != t.on <==> k == Pressed && !t.held
  {
    match k
    case Pressed => if t.held then t else Toggle(!t.on, true)
    case Released => t.(held := false)
  }

  /** The toggle after a run of frames, the last frame applied last. */
  function Run(t: Toggle, ks: seq<KeyState>): Toggle
    decreases |ks|
  {
    if ks == [] then t else Step(Run(t, ks[..|ks| - 1]), ks[|ks| - 1])
  }

  /** The number of frames of the run in which the light changed. */
  function Flips(t: Toggle, ks: seq<KeyState>): nat
    decreases |ks|
  {
    if ks == [] then 0
    else
      var before := Run(t, ks[..|ks| - 1]);
      Flips(t, ks[..|ks| - 1]) + if Step(before, ks[|ks| - 1]).on != before.on then 1 else 0
  }

  /**
   * Frame `i` is a release-to-press transition of the key itself: the key is
   * down in frame `i` and was up in the frame before (for the first frame,
   * `downBefore` says whether it was down before the run).
   */
  predicate RisingEdge(downBefore: bool, ks: seq<KeyState>, i: int)
    requires 0 <= i < |ks|
  {
    ks[i] == Pressed && if i == 0 then !downBefore else ks[i - 1] == Released
  }

  /** The frames of the run that are release-to-press transitions. */
  function Edges(downBefore: bool, ks: seq<KeyState>): set<int>
  {
    set i | 0 <= i < |ks| && RisingEdge(downBefore, ks, i)
  }

  /** The latch after a run records whether the key was down in the last frame. */
  lemma RunHeld(t: Toggle, ks: seq<KeyState>)
    ensures Run(t, ks).held <==> if ks == [] then t.held else ks[|ks| - 1] == Pressed
  {
  }

  /** Running two runs one after the other is running their concatenation. */
  lemma {:induction false} RunAppend(t: Toggle, a: seq<KeyState>, b: seq<KeyState>)
    ensures Run(t, a + b) == Run(Run(t, a), b)
    decreases |b|
  {
    if b != [] {
      var b' := b[..|b| - 1];
      assert (a + b)[..|a + b| - 1] == a + b';
      RunAppend(t, a, b');
    } else {
      assert a + b == a;
    }
  }

  /** A run is its first frame followed by the rest. */
  lemma RunPrepend(t: Toggle, k: KeyState, ks: seq<KeyState>)
    ensures Run(t, [k] + ks) == Run(Step(t, k), ks)
  {
    RunAppend(t, [k], ks);
    assert [k][..0] == [];
  }

  /** Edges of a run extended by one frame: the old edges, plus the new frame if it is one. */
  lemma EdgesSnoc(downBefore: bool, ks: seq<KeyState>, k: KeyState)
    ensures Edges(downBefore, ks + [k])
         == Edges(downBefore, ks) + if RisingEdge(downBefore, ks + [k], |ks|) then {|ks|} else {}
  {
  }

  /**
   * The light changes exactly once per release-to-press transition of its key,
   * counting a press in the first frame when the latch was clear at the start.
   */
  lemma {:induction false} FlipsAreRisingEdges(t: Toggle, ks: seq<KeyState>)
    ensures Flips(t, ks) == |Edges(t.held, ks)|
    decreases |ks|
  {
    if ks == [] {
      assert Edges(t.held, ks) == {};
    } else {
      var n := |ks| - 1;
      var pre := ks[..n];
      assert ks == pre + [ks[n]];
      FlipsAreRisingEdges(t, pre);
      EdgesSnoc(t.held, pre, ks[n]);
      RunHeld(t, pre);
      assert n !in Edges(t.held, pre);
    }
  }

  /** After a run the light is on iff it started on and flipped an even number of times, or started off and flipped an odd number. */
  lemma {:induction false} RunParity(t: Toggle, ks: seq<KeyState>)
    ensures Run(t, ks).on <==> t.on != (Flips(t, ks) % 2 == 1)
    decreases |ks|
  {
    if ks != [] {
      RunParity(t, ks[..|ks| - 1]);
    }
  }

  /** The light's state after a run is decided by the number of release-to-press transitions alone. */
  lemma EdgeParity(t: Toggle, ks: seq<KeyState>)
    ensures Run(t, ks).on <==> t.on != (|Edges(t.held, ks)| % 2 == 1)
  {
    RunParity(t, ks);
    FlipsAreRisingEdges(t, ks);
  }

  /**
   * Holding the key down over consecutive frames flips the light at most once:
   * in the first frame if the latch was clear, never if it was already set.
   */
  lemma {:induction false} HoldingFlipsOnce(t: Toggle, ks: seq<KeyState>)
    requires forall i :: 0 <= i < |ks| ==> ks[i] == Pressed
    ensures Run(t, ks) == if ks == [] then t else Toggle(if t.held then t.on else !t.on, true)
    decreases |ks|
  {
    if |ks| > 1 {
      HoldingFlipsOnce(t, ks[..|ks| - 1]);
    }
  }

  /**
   * A press-and-release cycle — the key held for `h` frames then released for
   * `r` frames, starting with the latch clear — flips the light exactly once
   * and leaves the latch re-armed.
   */
  lemma PressReleaseCycle(t: Toggle, h: nat, r: nat)
    requires !t.held && h > 0 && r > 0
    ensures Run(t, seq(h, _ => Pressed) + seq(r, _ => Released)) == Toggle(!t.on, false)
  {
    var held := seq(h, _ => Pressed);
    var released := seq(r, _ => Released);
    RunAppend(t, held, released);
    HoldingFlipsOnce(t, held);
    ReleasingKeeps(Toggle(!t.on, true), released);
  }

  /** Releasing the key over consecutive frames never changes the light and clears the latch. */
  lemma {:induction false} ReleasingKeeps(t: Toggle, ks: seq<KeyState>)
    requires forall i :: 0 <= i < |ks| ==> ks[i] == Released
    ensures Run(t, ks) == if ks == [] then t else t.(held := false)
    decreases |ks|
  {
    if |ks| > 1 {
      ReleasingKeeps(t, ks[..|ks| - 1]);
    }
  }
}
