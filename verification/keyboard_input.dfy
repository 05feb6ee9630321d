/**
  The per-frame keyboard handler of the viewer.

  Each frame the handler looks at the keys held down, in a fixed order:
  Escape requests that the window close, 1 switches polygon rasterisation to
  wire-frame and 2 back to filled; then Right, Down, Up and Left each update
  one of two angle accumulators and rotate the model transform by the
  accumulator's new value. An accumulator restarts from zero whenever its
  direction flips (the `left` and `up` flags remember the last direction), and
  otherwise grows by one step of 0.01 degrees per frame the key is held.

  Angles are counted in whole steps of 0.01 degrees; the rotation matrices
  themselves are not modelled, only the sequence of single-axis rotations the
  frame applies to the transform, in order.
*/
module KeyboardInput {

  datatype Key = Escape | One | Two | Right | Down | Up | Left

  /** How polygons are rasterised: filled (the initial mode) or as wire-frame lines. */
  datatype PolygonMode = Fill | Line

  datatype Axis = XAxis | YAxis

  /** A rotation of the model transform by `steps` x 0.01 degrees about `axis`. */
  datatype Rotation = Rotation(axis: Axis, steps: int)

  /**
    What the handler reads and writes: the two direction flags, the two angle
    accumulators (in steps), the polygon mode and the window's close request.
  */
  datatype ViewerState = ViewerState(
    left: bool,
    up: bool,
    rotateX: int,
    rotateY: int,
    mode: PolygonMode,
    shouldClose: bool)

  /** The state after one frame, with the rotations the frame applied, in order. */
  datatype Frame = Frame(state: ViewerState, rotations: seq<Rotation>)

  /** Both flags false, both accumulators zero, polygons filled, no close request. */
  const Initial: ViewerState := ViewerState(false, false, 0, 0, Fill, false)

  /**
    Right arrow, when held: restart the yaw accumulator if it was counting
    leftwards, add one step, and rotate about the y axis by the new value.
  */
  function RightArrow(f: Frame, held: bool): (r: Frame)
    ensures r.state.mode == f.state.mode && r.state.shouldClose == f.state.shouldClose
    ensures r.state.up == f.state.up && r.state.rotateX == f.state.rotateX
    ensures |r.rotations| == |f.rotations| + (if held then 1 else 0)
    ensures r.rotations[..|f.rotations|] == f.rotations
  {
    if !held then f
    else
      var y := (if f.state.left then 0 else f.state.rotateY) + 1;
      Frame(f.state.(left := false, rotateY := y), f.rotations + [Rotation(YAxis, y)])
  }

  /**
    Down arrow, when held: restart the pitch accumulator if it was counting
    upwards, subtract one step, and rotate about the x axis by the new value.
  */
  function DownArrow(f: Frame, held: bool): (r: Frame)
    ensures r.state.mode == f.state.mode && r.state.shouldClose == f.state.shouldClose
    ensures r.state.left == f.state.left && r.state.rotateY == f.state.rotateY
    ensures |r.rotations| == |f.rotations| + (if held then 1 else 0)
    ensures r.rotations[..|f.rotations|] == f.rotations
  {
    if !held then f
    else
      var x := (if f.state.up then 0 else f.state.rotateX) - 1;
      Frame(f.state.(up := false, rotateX := x), f.rotations + [Rotation(XAxis, x)])
  }

  /**
    Up arrow, when held: restart the pitch accumulator unless it was already
    counting upwards, add one step, and rotate about the x axis by the new value.
  */
  function UpArrow(f: Frame, held: bool): (r: Frame)
    ensures r.state.mode == f.state.mode && r.state.shouldClose == f.state.shouldClose
    ensures r.state.left == f.state.left && r.state.rotateY == f.state.rotateY
    ensures |r.rotations| == |f.rotations| + (if held then 1 else 0)
    ensures r.rotations[..|f.rotations|] == f.rotations
  {
    if !held then f
    else
      var x := (if !f.state.up then 0 else f.state.rotateX) + 1;
      Frame(f.state.(up := true, rotateX := x), f.rotations + [Rotation(XAxis, x)])
  }

  /**
    Left arrow, when held: restart the yaw accumulator unless it was already
    counting leftwards, subtract one step, and rotate about the y axis by the
    new value.
  */
  function LeftArrow(f: Frame, held: bool): (r: Frame)
    ensures r.state.mode == f.state.mode && r.state.shouldClose == f.state.shouldClose
    ensures r.state.up == f.state.up && r.state.rotateX == f.state.rotateX
    ensures |r.rotations| == |f.rotations| + (if held then 1 else 0)
    ensures r.rotations[..|f.rotations|] == f.rotations
  {
    if !held then f
    else
      var y := (if !f.state.left then 0 else f.state.rotateY) - 1;
      Frame(f.state.(left := true, rotateY := y), f.rotations + [Rotation(YAxis, y)])
  }

  /**
    One call of the handler with the keys in `pressed` held down. Escape, 1
    and 2 are looked at first, then the arrows in the order Right, Down, Up,
    Left, so that several keys held in one frame compose in that order. Each
    held arrow applies exactly one rotation.
  */
  function ProcessInput(s: ViewerState, pressed: set<Key>): (r: Frame)
    ensures r.state.shouldClose <==> s.shouldClose || Escape in pressed
    ensures r.state.mode == (if Two in pressed then Fill else if One in pressed then Line else s.mode)
    ensures |r.rotations|
         == (if Right in pressed then 1 else 0) + (if Down in pressed then 1 else 0)
          + (if Up in pressed then 1 else 0) + (if Left in pressed then 1 else 0)
  {
    var closing := s.shouldClose || Escape in pressed;
    var mode := if Two in pressed then Fill else if One in pressed then Line else s.mode;
    var f := Frame(s.(shouldClose := closing, mode := mode), []);
    LeftArrow(UpArrow(DownArrow(RightArrow(f, Right in pressed), Down in pressed), Up in pressed), Left in pressed)
  }

  /**
    Net effect of one frame on the yaw flag and accumulator: Left, held alone
    or together with Right, leaves `left` set and the accumulator one step
    further left, restarted at -1 unless it was already counting leftwards and
    Right was not held; Right alone clears `left` and adds a step, restarting
    at +1 after leftward counting; otherwise nothing changes.
  */
  lemma YawOfFrame(s: ViewerState, pressed: set<Key>)
    ensures ProcessInput(s, pressed).state.left <==> Left in pressed || (Right !in pressed && s.left)
    ensures ProcessInput(s, pressed).state.rotateY ==
              if Left in pressed then
                (if Right !in pressed && s.left then s.rotateY - 1 else -1)
              else if Right in pressed then
                (if s.left then 1 else s.rotateY + 1)
              else s.rotateY
  {
  }

  /**
    Net effect of one frame on the pitch flag and accumulator: Up, held alone
    or together with Down, leaves `up` set and the accumulator one step
    further up, restarted at +1 unless it was already counting upwards and
    Down was not held; Down alone clears `up` and subtracts a step, restarting
    at -1 after upward counting; otherwise nothing changes.
  */
  lemma PitchOfFrame(s: ViewerState, pressed: set<Key>)
    ensures ProcessInput(s, pressed).state.up <==> Up in pressed || (Down !in pressed && s.up)
    ensures ProcessInput(s, pressed).state.rotateX ==
              if Up in pressed then
                (if Down !in pressed && s.up then s.rotateX + 1 else 1)
              else if Down in pressed then
                (if s.up then -1 else s.rotateX - 1)
              else s.rotateX
  {
  }

  /** Holding Right and Left together ends the frame counting leftwards from a fresh -1 step. */
  lemma RightAndLeftTogether(s: ViewerState, pressed: set<Key>)
    requires Right in pressed && Left in pressed
    ensures ProcessInput(s, pressed).state.left
    ensures ProcessInput(s, pressed).state.rotateY == -1
  {
  }

  /**
    The vertical arrows never touch the yaw flag or accumulator, and the
    horizontal arrows never touch the pitch flag or accumulator: each axis
    evolves as if only its own two keys had been pressed.
  */
  lemma AxesIndependent(s: ViewerState, pressed: set<Key>)
    ensures ProcessInput(s, pressed).state.left == ProcessInput(s, pressed - {Down, Up}).state.left
    ensures ProcessInput(s, pressed).state.rotateY == ProcessInput(s, pressed - {Down, Up}).state.rotateY
    ensures ProcessInput(s, pressed).state.up == ProcessInput(s, pressed - {Right, Left}).state.up
    ensures ProcessInput(s, pressed).state.rotateX == ProcessInput(s, pressed - {Right, Left}).state.rotateX
  {
    YawOfFrame(s, pressed);
    YawOfFrame(s, pressed - {Down, Up});
    PitchOfFrame(s, pressed);
    PitchOfFrame(s, pressed - {Right, Left});
  }

  /**
    Every accumulator has the sign its flag announces: leftward yaw is
    negative and otherwise non-negative, upward pitch is positive and
    otherwise non-positive.
  */
  predicate SignsAgree(s: ViewerState)
  {
    && (s.left ==> s.rotateY < 0) && (!s.left ==> s.rotateY >= 0)
    && (s.up ==> s.rotateX > 0) && (!s.up ==> s.rotateX <= 0)
  }

  /** Whatever keys are held, a frame keeps each accumulator's sign in line with its flag. */
  lemma ProcessInputKeepsSigns(s: ViewerState, pressed: set<Key>)
    requires SignsAgree(s)
    ensures SignsAgree(ProcessInput(s, pressed).state)
  {
    YawOfFrame(s, pressed);
    PitchOfFrame(s, pressed);
  }

  /** The handler called once per frame, one set of held keys per frame; rotations accumulate in order. */
  function Run(s: ViewerState, frames: seq<set<Key>>): (r: Frame)
    ensures |frames| == 0 ==> r == Frame(s, [])
    decreases |frames|
  {
    if |frames| == 0 then Frame(s, [])
    else
      var before := Run(s, frames[..|frames| - 1]);
      var last := ProcessInput(before.state, frames[|frames| - 1]);
      Frame(last.state, before.rotations + last.rotations)
  }

  /** From the start-up state, no sequence of frames can make an accumulator disagree with its flag. */
  lemma {:induction false} ReachableSignsAgree(frames: seq<set<Key>>)
    ensures SignsAgree(Run(Initial, frames).state)
    decreases |frames|
  {
    if |frames| > 0 {
      var before := Run(Initial, frames[..|frames| - 1]);
      ReachableSignsAgree(frames[..|frames| - 1]);
      ProcessInputKeepsSigns(before.state, frames[|frames| - 1]);
    }
  }

  /**
    A frame with Right alone held: the yaw restarts if it was counting
    leftwards, gains one step, and the single rotation applied is about the y
    axis by the new yaw; everything else is untouched.
  */
  lemma RightAlone(s: ViewerState)
    ensures
      var y := (if s.left then 0 else s.rotateY) + 1;
      ProcessInput(s, {Right}) == Frame(s.(left := false, rotateY := y), [Rotation(YAxis, y)])
  {
  }

  /** n frames with Right alone held down. */
  function HoldRight(n: nat): (r: seq<set<Key>>)
    ensures |r| == n
  {
    seq(n, k => {Right})
  }

  /**
    The rotations of n successive frames whose yaw accumulator climbs from
    `base`: the k-th (from 0) rotates about the y axis by base + k + 1 steps.
  */
  function Ramp(base: int, n: nat): (r: seq<Rotation>)
    ensures |r| == n
    ensures forall k | 0 <= k < n :: r[k] == Rotation(YAxis, base + k + 1)
    decreases n
  {
    if n == 0 then [] else Ramp(base, n - 1) + [Rotation(YAxis, base + n)]
  }

  /**
    Holding Right alone for n > 0 frames restarts the yaw accumulator once if
    it was counting leftwards and then adds one step per frame; the k-th frame
    rotates the transform by the accumulator's value after k steps, so the
    per-frame rotation grows by a step every frame.
  */
  lemma {:induction false} HoldingRight(s: ViewerState, n: nat)
    requires n > 0
    ensures
      var base := if s.left then 0 else s.rotateY;
      var r := Run(s, HoldRight(n));
      && r.state == s.(left := false, rotateY := base + n)
      && r.rotations == Ramp(base, n)
    decreases n
  {
    var base := if s.left then 0 else s.rotateY;
    var frames := HoldRight(n);
    assert frames[..n - 1] == HoldRight(n - 1) && frames[n - 1] == {Right};
    var before := Run(s, HoldRight(n - 1));
    RightAlone(before.state);
    if n > 1 {
      HoldingRight(s, n - 1);
    } else {
      assert before == Frame(s, []);
    }
  }
}
