/**
 * The projection-mode and mouse-tracking state machine of ViewManager.cpp,
 * with its frame timing.
 *
 * The file-scope globals of ViewManager.cpp are one object, InputGlobals,
 * shared by the static cursor callback and every ViewManager. The camera is
 * opaque: the calls made on it are logged, never interpreted, and the values
 * read back from it (Zoom, Position) are parameters. GLFW's key state and
 * clock are parameters too.
 */
module View {
  import opened Gfx

  const WindowWidth: int := 1000
  const WindowHeight: int := 800

  datatype Movement = Forward | Backward | Left | Right | Up | Down

  /** A call made on the camera object. */
  datatype CameraCall =
    | ProcessMouseMovement(xOffset: real, yOffset: real)
    | ProcessKeyboard(direction: Movement, deltaTime: real)

  /** The keys reported as pressed at one poll. */
  datatype Keys = Keys(escape: bool, w: bool, s: bool, a: bool, d: bool, q: bool, e: bool, o: bool, p: bool)

  /** The camera fields the ViewManager constructor assigns. */
  datatype CameraSetup = CameraSetup(position: Vec3, front: Vec3, up: Vec3, zoom: real, movementSpeed: real)

  const InitialCamera := CameraSetup(Vec3(0.5, 5.5, 10.0), Vec3(0.0, -0.5, -2.0), Vec3(0.0, 1.0, 0.0), 80.0, 10.0)

  /** What the camera reports when the frame's matrices are built. */
  datatype CameraReadout = CameraReadout(zoom: real, position: Vec3)

  /** A cursor position delivered to the cursor callback. */
  datatype Sample = Sample(x: real, y: real)

  /**
   * The globals the cursor callback reads and writes: the projection-mode
   * mirror g_bOrthographic, the reference cursor and the first-sample flag.
   */
  datatype Tracking = Tracking(orthographic: bool, lastX: real, lastY: real, firstMouse: bool)

  // ---------------------------------------------------------------------------
  // Specification functions

  /**
   * One cursor sample. In orthographic mode it is dropped. Otherwise it becomes
   * the new reference, and the camera gets the offset from the old reference
   * (y inverted), or (0, 0) when the sample is the first one.
   */
  function MouseStep(t: Tracking, x: real, y: real): (r: (Tracking, seq<CameraCall>))
    ensures t.orthographic ==> r == (t, [])
    ensures !t.orthographic ==> r.0 == Tracking(false, x, y, false) && |r.1| == 1
    ensures !t.orthographic && t.firstMouse ==> r.1 == [ProcessMouseMovement(0.0, 0.0)]
    ensures !t.orthographic && !t.firstMouse ==> r.1 == [ProcessMouseMovement(x - t.lastX, t.lastY - y)]
  {
    if t.orthographic then (t, [])
    else
      var reference := if t.firstMouse then Tracking(false, x, y, false) else t;
      (Tracking(false, x, y, false), [ProcessMouseMovement(x - reference.lastX, reference.lastY - y)])
  }

  /** A sequence of cursor samples, in order. */
  function MouseRun(t: Tracking, samples: seq<Sample>): (r: (Tracking, seq<CameraCall>))
    decreases |samples|
  {
    if samples == [] then (t, [])
    else
      var first := MouseStep(t, samples[0].x, samples[0].y);
      var rest := MouseRun(first.0, samples[1..]);
      (rest.0, first.1 + rest.1)
  }

  /** Whether the O/P checks of one poll perform at least one real switch. */
  predicate Switches(member: bool, oPressed: bool, pPressed: bool)
  {
    (oPressed && !member) || (pPressed && (oPressed || member))
  }

  /**
   * The projection keys of one poll, checked O first, then P. `member` is
   * bOrthographicProjection; the result is the new member and globals.
   */
  function ProjectionKeys(member: bool, t: Tracking, oPressed: bool, pPressed: bool): (r: (bool, Tracking))
    ensures r.0 == (!pPressed && (oPressed || member))
    ensures Switches(member, oPressed, pPressed) ==> r.1.firstMouse && r.1.orthographic == r.0
    ensures !Switches(member, oPressed, pPressed) ==> r == (member, t)
    ensures r.1.lastX == t.lastX && r.1.lastY == t.lastY
  {
    var afterO := if oPressed && !member then (true, t.(orthographic := true, firstMouse := true)) else (member, t);
    if pPressed && afterO.0 then (false, afterO.1.(orthographic := false, firstMouse := true)) else afterO
  }

  /** The camera call one movement key makes when pressed. */
  function KeyMove(pressed: bool, direction: Movement, dt: real): (r: seq<CameraCall>)
    ensures |r| == (if pressed then 1 else 0)
  {
    if pressed then [ProcessKeyboard(direction, dt)] else []
  }

  /** The n-th movement key of a poll, in the order W, S, A, D, Q, E, with its direction. */
  function MoveKey(keys: Keys, n: nat): (bool, Movement)
    requires n < 6
  {
    [(keys.w, Forward), (keys.s, Backward), (keys.a, Left), (keys.d, Right), (keys.q, Up), (keys.e, Down)][n]
  }

  /** 1 for a pressed key, 0 otherwise. */
  function Count(pressed: bool): nat
  {
    if pressed then 1 else 0
  }

  /** How many of the first n movement keys are pressed. */
  function PressedUpTo(keys: Keys, n: nat): nat
    requires n <= 6
  {
    if n == 0 then 0 else PressedUpTo(keys, n - 1) + Count(MoveKey(keys, n - 1).0)
  }

  /** The calls the first n movement keys of a poll make, in order. */
  function MovesUpTo(keys: Keys, dt: real, n: nat): seq<CameraCall>
    requires n <= 6
  {
    if n == 0 then [] else MovesUpTo(keys, dt, n - 1) + KeyMove(MoveKey(keys, n - 1).0, MoveKey(keys, n - 1).1, dt)
  }

  /** The movement calls of one poll: W, S, A, D, Q, E in that order, each with `dt`. */
  function MoveCalls(keys: Keys, dt: real): seq<CameraCall>
  {
    MovesUpTo(keys, dt, 6)
  }

  /**
   * The projection of a frame: a fixed +-10 box in orthographic mode, else a
   * perspective of the camera's zoom over the window's aspect ratio.
   */
  function ProjectionFor(orthographic: bool, zoom: real): (r: Projection)
    ensures orthographic ==> r == Orthographic(-10.0, 10.0, -10.0, 10.0, 0.1, 100.0)
    ensures !orthographic ==> r == Perspective(zoom, 1.25, 0.1, 100.0)
  {
    if orthographic then
      var scale := 10.0;
      Orthographic(-scale, scale, -scale, scale, 0.1, 100.0)
    else
      Perspective(zoom, WindowWidth as real / WindowHeight as real, 0.1, 100.0)
  }

  /** Sum of the horizontal look offsets among `calls`. */
  function SumX(calls: seq<CameraCall>): real
  {
    if calls == [] then 0.0
    else (if calls[0].ProcessMouseMovement? then calls[0].xOffset else 0.0) + SumX(calls[1..])
  }

  /** Sum of the vertical look offsets among `calls`. */
  function SumY(calls: seq<CameraCall>): real
  {
    if calls == [] then 0.0
    else (if calls[0].ProcessMouseMovement? then calls[0].yOffset else 0.0) + SumY(calls[1..])
  }

  // ---------------------------------------------------------------------------
  // State

  /** The file-scope globals of ViewManager.cpp, including the camera pointer. */
  class InputGlobals {
    /** g_pCamera is non-null. */
    var cameraPresent: bool
    /** The fields the constructor assigned on the current camera. */
    var camera: CameraSetup
    /** Every call made on the current camera, oldest first. */
    var cameraCalls: seq<CameraCall>
    var lastX: real
    var lastY: real
    var firstMouse: bool
    var deltaTime: real
    var lastFrame: real
    /** g_bOrthographic, the mirror of the projection mode the callback reads. */
    var orthographic: bool

    ghost function Cursor(): Tracking
      reads this`orthographic, this`lastX, this`lastY, this`firstMouse
    {
      Tracking(orthographic, lastX, lastY, firstMouse)
    }

    /** The static initialisers. */
    constructor ()
      ensures !cameraPresent && cameraCalls == []
      ensures lastX == 500.0 && lastY == 400.0 && firstMouse
      ensures deltaTime == 0.0 && lastFrame == 0.0 && !orthographic
    {
      cameraPresent := false;
      camera := InitialCamera;
      cameraCalls := [];
      lastX := WindowWidth as real / 2.0;
      lastY := WindowHeight as real / 2.0;
      firstMouse := true;
      deltaTime := 0.0;
      lastFrame := 0.0;
      orthographic := false;
    }
  }

  /**
   * The cursor callback: feeds one sample through the tracking globals and
   * hands the resulting offset, if any, to the camera.
   */
  method MousePositionCallback(g: InputGlobals, xMousePos: real, yMousePos: real)
    requires g.cameraPresent
    modifies g`lastX, g`lastY, g`firstMouse, g`cameraCalls
    ensures g.Cursor() == MouseStep(old(g.Cursor()), xMousePos, yMousePos).0
    ensures g.cameraCalls == old(g.cameraCalls) + MouseStep(old(g.Cursor()), xMousePos, yMousePos).1
  {
    if g.orthographic {
      return;
    }
    if g.firstMouse {
      g.lastX := xMousePos;
      g.lastY := yMousePos;
      g.firstMouse := false;
    }
    var xOffset := xMousePos - g.lastX;
    var yOffset := g.lastY - yMousePos;
    g.lastX := xMousePos;
    g.lastY := yMousePos;
    g.cameraCalls := g.cameraCalls + [ProcessMouseMovement(xOffset, yOffset)];
  }

  class ViewManager {
    /** The globals every ViewManager shares. */
    const g: InputGlobals
    /** m_pShaderManager is non-null. */
    const shaderPresent: bool
    /** m_pWindow is non-null. */
    var windowPresent: bool
    /** bOrthographicProjection. */
    var orthographicProjection: bool
    /** The window was asked to close (Escape). */
    var closeRequested: bool
    /** Every uniform written through the shader manager, oldest first. */
    var uniforms: seq<UniformWrite>

    /** Starts in perspective mode without a window, and creates and places the camera. */
    constructor (shaderPresent: bool, g: InputGlobals)
      modifies g`cameraPresent, g`camera, g`cameraCalls
      ensures this.g == g && this.shaderPresent == shaderPresent
      ensures !windowPresent && !orthographicProjection && !closeRequested && uniforms == []
      ensures g.cameraPresent && g.camera == InitialCamera && g.cameraCalls == []
    {
      this.g := g;
      this.shaderPresent := shaderPresent;
      windowPresent := false;
      orthographicProjection := false;
      closeRequested := false;
      uniforms := [];
      new;
      g.cameraPresent := true;
      g.camera := InitialCamera;
      g.cameraCalls := [];
    }

    /** Only the window pointer: it is set when the window was created, else left alone. */
    method CreateDisplayWindow(created: bool) returns (ok: bool)
      modifies this`windowPresent
      ensures ok == created
      ensures windowPresent == (old(windowPresent) || created)
    {
      if !created {
        return false;
      }
      windowPresent := true;
      ok := true;
    }

    /** One poll of the keyboard; nothing happens without a window and a camera. */
    method ProcessKeyboardEvents(keys: Keys)
      modifies this`orthographicProjection, this`closeRequested, g`cameraCalls, g`orthographic, g`firstMouse
      ensures !(windowPresent && g.cameraPresent) ==>
        orthographicProjection == old(orthographicProjection) && closeRequested == old(closeRequested)
        && g.cameraCalls == old(g.cameraCalls) && g.Cursor() == old(g.Cursor())
      ensures windowPresent && g.cameraPresent ==>
        closeRequested == (old(closeRequested) || keys.escape)
        && g.cameraCalls == old(g.cameraCalls) + MoveCalls(keys, g.deltaTime)
        && (orthographicProjection, g.Cursor())
           == ProjectionKeys(old(orthographicProjection), old(g.Cursor()), keys.o, keys.p)
    {
      if !windowPresent || !g.cameraPresent {
        return;
      }
      PollKeys(keys);
    }

    /** The body of a poll with a window and a camera: Escape, the six movement keys, then O and P. */
    method PollKeys(keys: Keys)
      modifies this`orthographicProjection, this`closeRequested, g`cameraCalls, g`orthographic, g`firstMouse
      ensures closeRequested == (old(closeRequested) || keys.escape)
      ensures g.cameraCalls == old(g.cameraCalls) + MoveCalls(keys, g.deltaTime)
      ensures (orthographicProjection, g.Cursor())
              == ProjectionKeys(old(orthographicProjection), old(g.Cursor()), keys.o, keys.p)
    {
      if keys.escape {
        closeRequested := true;
      }
      ghost var calls0 := g.cameraCalls;
      MoveIfPressed(keys, 0, calls0);   // W
      MoveIfPressed(keys, 1, calls0);   // S
      MoveIfPressed(keys, 2, calls0);   // A
      MoveIfPressed(keys, 3, calls0);   // D
      MoveIfPressed(keys, 4, calls0);   // Q
      MoveIfPressed(keys, 5, calls0);   // E
      SwitchProjection(keys.o, keys.p);
    }

    /** The O and P checks of one poll, O first: each switches only out of the other mode. */
    method SwitchProjection(oPressed: bool, pPressed: bool)
      modifies this`orthographicProjection, g`orthographic, g`firstMouse
      ensures (orthographicProjection, g.Cursor())
              == ProjectionKeys(old(orthographicProjection), old(g.Cursor()), oPressed, pPressed)
    {
      if oPressed && !orthographicProjection {
        orthographicProjection := true;
        g.orthographic := true;
        g.firstMouse := true;
      }
      if pPressed && orthographicProjection {
        orthographicProjection := false;
        g.orthographic := false;
        g.firstMouse := true;
      }
    }

    /** Movement key n of a poll: the camera moves by this frame's delta when the key is pressed. */
    method MoveIfPressed(keys: Keys, n: nat, ghost calls0: seq<CameraCall>)
      requires n < 6
      requires g.cameraCalls == calls0 + MovesUpTo(keys, g.deltaTime, n)
      modifies g`cameraCalls
      ensures g.cameraCalls == calls0 + MovesUpTo(keys, g.deltaTime, n + 1)
    {
      var (pressed, direction) := MoveKey(keys, n);
      if pressed {
        g.cameraCalls := g.cameraCalls + [ProcessKeyboard(direction, g.deltaTime)];
      }
      AppendAssociates(calls0, MovesUpTo(keys, g.deltaTime, n), KeyMove(pressed, direction, g.deltaTime));
    }

    /**
     * One frame: the clock first, then the keys (whose movement calls get this
     * frame's delta), then the projection of the mode the keys left, pushed
     * with the view matrix and the camera position.
     */
    method PrepareSceneView(now: real, keys: Keys, readout: CameraReadout)
      requires windowPresent ==> g.cameraPresent
      modifies this`orthographicProjection, this`closeRequested, this`uniforms
      modifies g`cameraCalls, g`orthographic, g`firstMouse, g`deltaTime, g`lastFrame
      ensures !windowPresent ==>
        orthographicProjection == old(orthographicProjection) && closeRequested == old(closeRequested)
        && uniforms == old(uniforms) && g.cameraCalls == old(g.cameraCalls) && g.Cursor() == old(g.Cursor())
        && g.deltaTime == old(g.deltaTime) && g.lastFrame == old(g.lastFrame)
      ensures windowPresent ==>
        g.deltaTime == now - old(g.lastFrame) && g.lastFrame == now
        && closeRequested == (old(closeRequested) || keys.escape)
        && g.cameraCalls == old(g.cameraCalls) + MoveCalls(keys, now - old(g.lastFrame))
        && (orthographicProjection, g.Cursor())
           == ProjectionKeys(old(orthographicProjection), old(g.Cursor()), keys.o, keys.p)
      ensures windowPresent && shaderPresent ==>
        uniforms == old(uniforms)
          + [UniformWrite("view", Mat4Value(CameraView)),
             UniformWrite("projection", Mat4Value(ProjectionMatrix(ProjectionFor(orthographicProjection, readout.zoom)))),
             UniformWrite("viewPosition", Vec3Value(readout.position))]
      ensures !shaderPresent ==> uniforms == old(uniforms)
    {
      if !windowPresent {
        return;
      }
      PrepareFrame(now, keys, readout);
    }

    /** A frame with a window: the timing, the keys, then the matrices. */
    method PrepareFrame(now: real, keys: Keys, readout: CameraReadout)
      requires windowPresent && g.cameraPresent
      modifies this`orthographicProjection, this`closeRequested, this`uniforms
      modifies g`cameraCalls, g`orthographic, g`firstMouse, g`deltaTime, g`lastFrame
      ensures g.deltaTime == now - old(g.lastFrame) && g.lastFrame == now
      ensures closeRequested == (old(closeRequested) || keys.escape)
      ensures g.cameraCalls == old(g.cameraCalls) + MoveCalls(keys, now - old(g.lastFrame))
      ensures (orthographicProjection, g.Cursor())
              == ProjectionKeys(old(orthographicProjection), old(g.Cursor()), keys.o, keys.p)
      ensures shaderPresent ==>
        uniforms == old(uniforms)
          + [UniformWrite("view", Mat4Value(CameraView)),
             UniformWrite("projection", Mat4Value(ProjectionMatrix(ProjectionFor(orthographicProjection, readout.zoom)))),
             UniformWrite("viewPosition", Vec3Value(readout.position))]
      ensures !shaderPresent ==> uniforms == old(uniforms)
    {
      var currentFrame := now;
      g.deltaTime := currentFrame - g.lastFrame;
      g.lastFrame := currentFrame;

      ProcessKeyboardEvents(keys);

      var view := CameraView;
      var projection := ProjectionFor(orthographicProjection, readout.zoom);
      SendViewUniforms(view, projection, readout.position);
    }

    /** The view matrix, the projection and the camera position, sent when there is a shader. */
    method SendViewUniforms(view: Matrix, projection: Projection, position: Vec3)
      modifies this`uniforms
      ensures shaderPresent ==>
        uniforms == old(uniforms)
          + [UniformWrite("view", Mat4Value(view)),
             UniformWrite("projection", Mat4Value(ProjectionMatrix(projection))),
             UniformWrite("viewPosition", Vec3Value(position))]
      ensures !shaderPresent ==> uniforms == old(uniforms)
    {
      if shaderPresent {
        uniforms := uniforms + [UniformWrite("view", Mat4Value(view))];
        uniforms := uniforms + [UniformWrite("projection", Mat4Value(ProjectionMatrix(projection)))];
        uniforms := uniforms + [UniformWrite("viewPosition", Vec3Value(position))];
      }
    }
  }

  // ---------------------------------------------------------------------------
  // Lemmas

  /** In orthographic mode any number of samples is dropped: no state change, no camera call. */
  lemma {:induction false} OrthographicDropsSamples(t: Tracking, samples: seq<Sample>)
    requires t.orthographic
    ensures MouseRun(t, samples) == (t, [])
    decreases |samples|
  {
    if samples != [] {
      var first := MouseStep(t, samples[0].x, samples[0].y);
      OrthographicDropsSamples(first.0, samples[1..]);
      var rest := MouseRun(first.0, samples[1..]);
      assert first.1 + rest.1 == [];
    }
  }

  /** Every call the first n movement keys make moves the camera by `dt`; at most one call per key. */
  lemma {:induction false} MovesUpToShape(keys: Keys, dt: real, n: nat)
    requires n <= 6
    ensures |MovesUpTo(keys, dt, n)| == PressedUpTo(keys, n) <= n
    ensures forall i :: 0 <= i < |MovesUpTo(keys, dt, n)| ==>
      MovesUpTo(keys, dt, n)[i].ProcessKeyboard? && MovesUpTo(keys, dt, n)[i].deltaTime == dt
  {
    if n > 0 {
      MovesUpToShape(keys, dt, n - 1);
    }
  }

  /**
   * One call per pressed movement key, each a keyboard movement with the
   * frame's delta; with W alone pressed the camera moves forward once.
   */
  lemma MoveCallsShape(keys: Keys, dt: real)
    ensures |MoveCalls(keys, dt)|
            == Count(keys.w) + Count(keys.s) + Count(keys.a) + Count(keys.d) + Count(keys.q) + Count(keys.e)
    ensures forall i :: 0 <= i < |MoveCalls(keys, dt)| ==>
      MoveCalls(keys, dt)[i].ProcessKeyboard? && MoveCalls(keys, dt)[i].deltaTime == dt
    ensures keys.w ==> MoveCalls(keys, dt)[0] == ProcessKeyboard(Forward, dt)
  {
    PressedCount(keys);
    MovesUpToShape(keys, dt, 6);
    MovesPrefix(keys, dt, 1, 6);
    assert MovesUpTo(keys, dt, 1) == KeyMove(keys.w, Forward, dt);
  }

  lemma PressedCount(keys: Keys)
    ensures PressedUpTo(keys, 6)
            == Count(keys.w) + Count(keys.s) + Count(keys.a) + Count(keys.d) + Count(keys.q) + Count(keys.e)
  {
    PressedFirstHalf(keys);
    assert PressedUpTo(keys, 4) == PressedUpTo(keys, 3) + Count(keys.d);
    assert PressedUpTo(keys, 5) == PressedUpTo(keys, 4) + Count(keys.q);
  }

  lemma PressedFirstHalf(keys: Keys)
    ensures PressedUpTo(keys, 3) == Count(keys.w) + Count(keys.s) + Count(keys.a)
  {
    assert PressedUpTo(keys, 1) == Count(keys.w);
    assert PressedUpTo(keys, 2) == PressedUpTo(keys, 1) + Count(keys.s);
  }

  /** The calls of the earlier keys come first: key order is call order. */
  lemma {:induction false} MovesPrefix(keys: Keys, dt: real, j: nat, n: nat)
    requires j <= n <= 6
    ensures MovesUpTo(keys, dt, j) <= MovesUpTo(keys, dt, n)
    decreases n - j
  {
    if j < n {
      MovesPrefix(keys, dt, j, n - 1);
    }
  }

  lemma SumsOfOne(c: CameraCall, rest: seq<CameraCall>)
    ensures SumX([c] + rest) == (if c.ProcessMouseMovement? then c.xOffset else 0.0) + SumX(rest)
    ensures SumY([c] + rest) == (if c.ProcessMouseMovement? then c.yOffset else 0.0) + SumY(rest)
  {
    assert ([c] + rest)[1..] == rest;
  }

  /**
   * In perspective mode the look offsets of a run of samples add up to the
   * cursor's displacement from the reference (the first sample itself when the
   * first-sample flag is set): motion never jumps and nothing is lost.
   */
  lemma {:induction false} LookOffsetsTelescope(t: Tracking, samples: seq<Sample>)
    requires !t.orthographic && samples != []
    ensures var last := samples[|samples| - 1];
      var refX := if t.firstMouse then samples[0].x else t.lastX;
      var refY := if t.firstMouse then samples[0].y else t.lastY;
      && MouseRun(t, samples).0 == Tracking(false, last.x, last.y, false)
      && |MouseRun(t, samples).1| == |samples|
      && SumX(MouseRun(t, samples).1) == last.x - refX
      && SumY(MouseRun(t, samples).1) == refY - last.y
    decreases |samples|
  {
    var first := MouseStep(t, samples[0].x, samples[0].y);
    var rest := MouseRun(first.0, samples[1..]);
    SumsOfOne(first.1[0], rest.1);
    assert first.1 == [first.1[0]];
    if |samples| > 1 {
      LookOffsetsTelescope(first.0, samples[1..]);
    }
  }

  /**
   * Switching to orthographic, moving the cursor any amount, and switching
   * back: the next sample is a reference sample with offset (0, 0), so the
   * dropped motion is not applied at once.
   */
  lemma NoJumpAfterOrthographic(t: Tracking, dropped: seq<Sample>, x: real, y: real)
    requires !t.orthographic
    ensures var toOrtho := ProjectionKeys(false, t, true, false);
      var afterDrops := MouseRun(toOrtho.1, dropped);
      var back := ProjectionKeys(toOrtho.0, afterDrops.0, false, true);
      && toOrtho.0 && afterDrops.1 == [] && !back.0
      && MouseStep(back.1, x, y).1 == [ProcessMouseMovement(0.0, 0.0)]
  {
    var toOrtho := ProjectionKeys(false, t, true, false);
    OrthographicDropsSamples(toOrtho.1, dropped);
  }

  /**
   * O then P then O: each is a real switch that sets the first-sample flag and
   * keeps the mirror equal to the mode; pressing O once more is a no-op.
   */
  lemma ToggleSequence(t: Tracking)
    requires !t.orthographic
    ensures var s1 := ProjectionKeys(false, t, true, false);
      var s2 := ProjectionKeys(s1.0, s1.1, false, true);
      var s3 := ProjectionKeys(s2.0, s2.1, true, false);
      && s1.0 && s1.1.orthographic && s1.1.firstMouse
      && !s2.0 && !s2.1.orthographic && s2.1.firstMouse
      && s3.0 && s3.1.orthographic && s3.1.firstMouse
      && ProjectionKeys(s3.0, s3.1, true, false) == s3
  {
  }

  /**
   * The mode keys are guarded: O in orthographic mode and P in perspective
   * mode change nothing, and O with P in one poll ends in perspective from
   * either mode.
   */
  lemma ProjectionKeyGuards(member: bool, t: Tracking)
    ensures member ==> ProjectionKeys(member, t, true, false) == (member, t)
    ensures !member ==> ProjectionKeys(member, t, false, true) == (member, t)
    ensures !ProjectionKeys(member, t, true, true).0 && ProjectionKeys(member, t, true, true).1.firstMouse
  {
  }

  /** When the member flag and its mirror agree, every poll keeps them in agreement. */
  lemma MirrorAgrees(member: bool, t: Tracking, oPressed: bool, pPressed: bool)
    requires t.orthographic == member
    ensures ProjectionKeys(member, t, oPressed, pPressed).1.orthographic == ProjectionKeys(member, t, oPressed, pPressed).0
  {
  }

  /** The orthographic projection does not depend on the camera. */
  lemma OrthographicIgnoresCamera(zoom1: real, zoom2: real)
    ensures ProjectionFor(true, zoom1) == ProjectionFor(true, zoom2)
    ensures ProjectionFor(false, zoom1) == ProjectionFor(false, zoom2) <==> zoom1 == zoom2
  {
  }
}
