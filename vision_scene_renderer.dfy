/**
 * The scene renderer of the visionOS sample app: its 32-slot joint buffer,
 * the gesture recognisers fed from it, model loading, the per-frame model
 * translation and viewport descriptors, and the render-loop dispatch.
 *
 * Matrices are opaque values (Geometry.Matrix4) whose translation column and
 * Y column are read; the matrix products, inverses and projections the
 * renderer builds are kept symbolic (ViewMatrix, Projection).
 */
module VisionScene {
  import opened Wrappers
  import opened Geometry
  import opened Gestures

  // ---------------------------------------------------------------- models and renderers

  /** What the app can show: a Gaussian-splat PLY file or the built-in sample box. */
  datatype ModelIdentifier = GaussianSplat(url: string) | SampleBox

  /** A constructed model renderer, as far as this model reads it: the centre it reports. */
  datatype ModelRenderer = ModelRenderer(center: seq<real>)

  /** The error a failed splat renderer construction or PLY read throws. */
  datatype LoadError = LoadError(reason: string)

  /** The fields load works on: model and modelRenderer. */
  datatype LoadState = LoadState(model: Option<ModelIdentifier>, renderer: Option<ModelRenderer>)

  /**
   * One call of load(model). `built` is what constructing the renderer for
   * the new model gives (the splat renderer and its PLY read may throw; the
   * sample box is built with try!, so its failure traps, which the requires
   * excludes). A model equal to the current one changes nothing; any other
   * clears the renderer first, so a failed splat load leaves no renderer.
   */
  function LoadStep(st: LoadState, m: Option<ModelIdentifier>, built: Result<ModelRenderer, LoadError>)
    : (r: (LoadState, Outcome<LoadError>))
    requires m != st.model && m == Some(SampleBox) ==> built.Success?
    ensures m == st.model ==> r == (st, Pass)
    ensures m != st.model ==> r.0.model == m
    ensures m != st.model ==> (r.0.renderer.Some? <==> m.Some? && built.Success?)
    ensures m != st.model && r.0.renderer.Some? ==> r.0.renderer.value == built.value
    ensures r.1.Fail? <==> m != st.model && m.Some? && m.value.GaussianSplat? && built.Failure?
    ensures r.1.Fail? ==> r.1.error == built.error
  {
    if m == st.model then (st, Pass)
    else
      match m
      case None => (LoadState(m, None), Pass)
      case Some(GaussianSplat(_)) =>
        if built.Failure? then (LoadState(m, None), Fail(built.error))
        else (LoadState(m, Some(built.value)), Pass)
      case Some(SampleBox) => (LoadState(m, Some(built.value)), Pass)
  }

  /** Loading the same model a second time is a no-op, whatever its construction would give. */
  lemma LoadIdempotent(st: LoadState, m: Option<ModelIdentifier>,
                       first: Result<ModelRenderer, LoadError>, second: Result<ModelRenderer, LoadError>)
    requires m != st.model && m == Some(SampleBox) ==> first.Success?
    ensures LoadStep(LoadStep(st, m, first).0, m, second) == (LoadStep(st, m, first).0, Pass)
  {
  }

  // ---------------------------------------------------------------- model translation

  /** The first three entries of a renderer's centre, as a point. */
  function CenterPoint(center: seq<real>): (p: Vec3)
    requires 3 <= |center|
    ensures p.x == center[0] && p.y == center[1] && p.z == center[2]
  {
    Vec3(center[0], center[1], center[2])
  }

  /**
   * The model translation (x, y, z) after one viewports call that finds a
   * renderer: on the first such call it is seeded from the renderer's centre,
   * and then the pinch delta dV is added while a pinch is active.
   */
  function NextTranslation(t: Vec3, firstRender: bool, center: seq<real>,
                           pinchActivated: bool, dV: Vec3): (r: Vec3)
    requires !firstRender ==> 3 <= |center|
    ensures var base := if firstRender then t else CenterPoint(center);
            Sub(r, base) == if pinchActivated then dV else Origin
  {
    var base := if firstRender then t else CenterPoint(center);
    if pinchActivated then Add(base, dV) else base
  }

  /** What one frame's viewports call sees of the pinch recogniser. */
  datatype FrameInput = FrameInput(pinchActivated: bool, delta: Vec3)

  /** The sum of the pinch deltas of the frames in which a pinch was active. */
  function PinchSum(frames: seq<FrameInput>): Vec3
    decreases |frames|
  {
    if frames == [] then Origin
    else
      var last := frames[|frames| - 1];
      var rest := PinchSum(frames[..|frames| - 1]);
      if last.pinchActivated then Add(rest, last.delta) else rest
  }

  /**
   * The translation after a run of frames that all find a renderer with the
   * same centre; `firstRender` is the flag before the first of them and is
   * true from the second on.
   */
  function TranslationAfter(t: Vec3, firstRender: bool, center: seq<real>, frames: seq<FrameInput>): Vec3
    requires !firstRender ==> 3 <= |center|
    decreases |frames|
  {
    if frames == [] then t
    else
      var last := frames[|frames| - 1];
      NextTranslation(TranslationAfter(t, firstRender, center, frames[..|frames| - 1]),
                      firstRender || 1 < |frames|, center, last.pinchActivated, last.delta)
  }

  /**
   * The centre is read exactly once: over any run of frames the translation
   * is the starting point (the centre on a first render, the old translation
   * otherwise) plus the deltas of the pinching frames.
   */
  lemma {:induction false} TranslationIsSeedPlusPinches(t: Vec3, firstRender: bool, center: seq<real>,
                                                        frames: seq<FrameInput>)
    requires !firstRender ==> 3 <= |center|
    ensures TranslationAfter(t, firstRender, center, frames)
            == Add(if firstRender || frames == [] then t else CenterPoint(center), PinchSum(frames))
    decreases |frames|
  {
    if frames != [] {
      var prefix := frames[..|frames| - 1];
      TranslationIsSeedPlusPinches(t, firstRender, center, prefix);
    }
  }

  // ---------------------------------------------------------------- viewport descriptors

  /** MTLViewport. */
  datatype Viewport = Viewport(originX: real, originY: real, width: real, height: real, znear: real, zfar: real)

  /** One eye of a drawable: its pose relative to the device, its frustum tangents and its viewport. */
  datatype View = View(transform: Matrix4, tangents: Vec4, viewport: Viewport)

  datatype DepthRange = DepthRange(x: real, y: real)

  datatype Drawable = Drawable(views: seq<View>, depthRange: DepthRange)

  /** ProjectiveTransform3D built from a view's tangents and the drawable's depth range. */
  datatype Projection = Projection(leftTangent: real, rightTangent: real, topTangent: real, bottomTangent: real,
                                   nearZ: real, farZ: real, reverseZ: bool)

  /**
   * The view matrix inverse(deviceAnchor * viewTransform) * translation(translation)
   * * rotation(rotationDegrees, rotationAxis), kept symbolic.
   */
  datatype ViewMatrix = ViewMatrix(deviceAnchor: Matrix4, viewTransform: Matrix4, translation: Vec3,
                                   rotationDegrees: real, rotationAxis: Vec3)

  datatype ScreenSize = ScreenSize(width: int, height: int)

  /**
   * ModelRendererViewportDescriptor: viewMatrix places the splat model,
   * viewMatrix2 the hand joints (no model translation or rotation).
   */
  datatype ViewportDescriptor = ViewportDescriptor(viewport: Viewport, projection: Projection,
                                                   viewMatrix: ViewMatrix, viewMatrix2: ViewMatrix,
                                                   screenSize: ScreenSize)

  /** Swift's Int(_:) on a floating-point value: truncation toward zero. */
  function TruncateToInt(r: real): (n: int)
    ensures 0.0 <= r ==> 0 <= n && n as real <= r < n as real + 1.0
    ensures r < 0.0 ==> n <= 0 && n as real - 1.0 < r <= n as real
  {
    if 0.0 <= r then r.Floor else -((-r).Floor)
  }

  /**
   * The descriptor for one view: the model is moved by the translation and
   * turned by the swipe rotation; the hand matrix uses neither; depth is
   * reversed (near plane from the range's y, far plane from its x).
   */
  function Describe(view: View, anchor: Matrix4, depthRange: DepthRange,
                    translation: Vec3, rotationDegrees: real, rotationAxis: Vec3): (d: ViewportDescriptor)
    ensures d.viewport == view.viewport
    ensures d.viewMatrix.translation == translation && d.viewMatrix.rotationDegrees == rotationDegrees
    ensures d.viewMatrix.rotationAxis == rotationAxis
    ensures d.viewMatrix2.translation == Origin && d.viewMatrix2.rotationDegrees == 0.0
    ensures d.viewMatrix2.rotationAxis == DefaultRotationAxis
    ensures d.viewMatrix.deviceAnchor == d.viewMatrix2.deviceAnchor == anchor
    ensures d.viewMatrix.viewTransform == d.viewMatrix2.viewTransform == view.transform
    ensures d.projection.nearZ == depthRange.y && d.projection.farZ == depthRange.x && d.projection.reverseZ
    ensures d.screenSize == ScreenSize(TruncateToInt(view.viewport.width), TruncateToInt(view.viewport.height))
  {
    var projection := Projection(view.tangents.x, view.tangents.y, view.tangents.z, view.tangents.w,
                                 depthRange.y, depthRange.x, true);
    ViewportDescriptor(view.viewport, projection,
                       ViewMatrix(anchor, view.transform, translation, rotationDegrees, rotationAxis),
                       ViewMatrix(anchor, view.transform, Origin, 0.0, DefaultRotationAxis),
                       ScreenSize(TruncateToInt(view.viewport.width), TruncateToInt(view.viewport.height)))
  }

  // ---------------------------------------------------------------- render loop

  /** LayerRenderer.State. */
  datatype LayerState = Running | Paused | Invalidated

  /** What one iteration of renderLoop does. */
  datatype LoopAction = RenderFrame | WaitUntilRunning | Exit

  /** The dispatch of one renderLoop iteration on the layer state. */
  function Dispatch(state: LayerState): (a: LoopAction)
    ensures a == Exit <==> state == Invalidated
    ensures a == WaitUntilRunning <==> state == Paused
    ensures a == RenderFrame <==> state == Running
  {
    match state
    case Invalidated => Exit
    case Paused => WaitUntilRunning
    case Running => RenderFrame
  }

  // ---------------------------------------------------------------- the renderer

  /** The joint buffer as BallCoords initialises it: 32 identity transforms. */
  function InitialBallCoords(): (coords: seq<Matrix4>)
    ensures |coords| == JointCount
    ensures forall i | 0 <= i < |coords| :: coords[i] == Identity && Position(coords[i]) == Origin
  {
    seq(JointCount, _ => Identity)
  }

  class VisionSceneRenderer {
    /** The renderer's dist: Euclidean distance between two joint positions. */
    const dist: (Vec3, Vec3) -> real
    /** latestBallCoords.coords: the joint buffer. */
    const latestBallCoords: array<Matrix4>

    var firstRender: bool
    var model: Option<ModelIdentifier>
    var modelRenderer: Option<ModelRenderer>
    /** The model rotation, in degrees. */
    var rotation: real

    var pinchActivated: bool
    var lP: Vec3
    var dV: Vec3
    var lastPinchUpdateTime: real

    var lastDist: real
    var zoom: real

    var swipeActivated: bool
    var rotationAxis: Vec3
    var lastSwipeZ: real
    var lastSwipeUpdateTime: real

    var x: real
    var y: real
    var z: real

    ghost predicate Valid()
      reads this
    {
      && latestBallCoords.Length == JointCount
      && IsDistance(dist)
    }

    function Pinch(): PinchState
      reads this
    {
      PinchState(pinchActivated, lP, dV, lastPinchUpdateTime)
    }

    function Zoom(): ZoomState
      reads this
    {
      ZoomState(lastDist, zoom)
    }

    function Swipe(): SwipeState
      reads this
    {
      SwipeState(swipeActivated, rotationAxis, rotation, lastSwipeZ, lastSwipeUpdateTime)
    }

    function Gestures(): GestureState
      reads this
    {
      GestureState(Pinch(), Zoom(), Swipe())
    }

    function Translation(): Vec3
      reads this
    {
      Vec3(x, y, z)
    }

    function Loaded(): LoadState
      reads this
    {
      LoadState(model, modelRenderer)
    }

    constructor (dist: (Vec3, Vec3) -> real)
      requires IsDistance(dist)
      ensures Valid() && fresh(latestBallCoords)
      ensures latestBallCoords[..] == InitialBallCoords()
      ensures Gestures() == InitialGestures
      ensures Loaded() == LoadState(None, None) && !firstRender && Translation() == Origin
    {
      this.dist := dist;
      latestBallCoords := new Matrix4[JointCount](_ => Identity);
      firstRender := false;
      model, modelRenderer := None, None;
      rotation := 0.0;
      pinchActivated, lP, dV, lastPinchUpdateTime := false, Origin, Origin, 0.0;
      lastDist, zoom := 0.0, 0.0;
      swipeActivated, rotationAxis, lastSwipeZ, lastSwipeUpdateTime := false, DefaultRotationAxis, 0.0, 0.0;
      x, y, z := 0.0, 0.0, 0.0;
    }

    /** isPinchActivated at clock reading `now`. */
    method IsPinchActivated(thumbTip: Matrix4, indexTip: Matrix4, now: real)
      requires Valid()
      modifies this`pinchActivated, this`lP, this`dV, this`lastPinchUpdateTime
      ensures Valid()
      ensures Pinch() == PinchStep(old(Pinch()), thumbTip, indexTip, now, dist)
    {
      if now - lastPinchUpdateTime >= PinchUpdateInterval {
        var p1, p2 := Position(thumbTip), Position(indexTip);
        var d := dist(p1, p2);
        if d != 0.0 {
          if d < PinchThreshold {
            pinchActivated := true;
            dV := Sub(p1, lP);
            lP := p1;
            lastPinchUpdateTime := now;
          } else {
            pinchActivated := false;
            lP := p1;
          }
        }
      }
    }

    /** calcZoom. */
    method CalcZoom(thumbTip: Matrix4, indexTip: Matrix4)
      requires Valid()
      modifies this`lastDist, this`zoom
      ensures Valid()
      ensures Zoom() == ZoomStep(old(Zoom()), thumbTip, indexTip, dist)
    {
      var d := dist(Position(thumbTip), Position(indexTip));
      var v := d - lastDist;
      lastDist := d;
      zoom := v / MaxZoomDist;
    }

    /** isSwipe at clock reading `now`. */
    method IsSwipe(indexMid: Matrix4, middleMid: Matrix4, ringMid: Matrix4, littleMid: Matrix4, now: real)
      requires Valid()
      modifies this`swipeActivated, this`rotationAxis, this`rotation, this`lastSwipeZ, this`lastSwipeUpdateTime
      ensures Valid()
      ensures Swipe() == SwipeStep(old(Swipe()), indexMid, middleMid, ringMid, littleMid, now, dist)
    {
      var pIndex, pMiddle := Position(indexMid), Position(middleMid);
      var pRing, pLittle := Position(ringMid), Position(littleMid);
      var dIndexMiddle := dist(pIndex, pMiddle);
      var dMiddleRing := dist(pMiddle, pRing);
      var dRingLittle := dist(pRing, pLittle);
      if dIndexMiddle == 0.0 || dMiddleRing == 0.0 || dRingLittle == 0.0 {
        return;
      }
      if dIndexMiddle < SwipeThreshold && dMiddleRing < SwipeThreshold {
        swipeActivated := true;
        rotationAxis := AxisY(indexMid);
        rotation := rotation + SwipeDelta(lastSwipeZ, indexMid.c3.z);
        lastSwipeZ := indexMid.c3.z;
        lastSwipeUpdateTime := now;
      } else {
        swipeActivated := false;
      }
    }

    /**
     * updateGenericBalls: copies the incoming joints over the front of the
     * buffer and, once per copied slot, runs the three recognisers on the
     * fixed joint slots of the incoming array; `clock` holds the clock
     * reading of each iteration. The source traps (index out of range) when
     * more than 32 joints arrive, or when a non-empty array is too short for
     * slot 30.
     */
    method UpdateGenericBalls(balls: seq<Matrix4>, clock: seq<real>)
      requires Valid()
      requires |balls| <= JointCount
      requires balls == [] || ReadsJoints(balls)
      requires |clock| == |balls|
      modifies latestBallCoords
      modifies this`pinchActivated, this`lP, this`dV, this`lastPinchUpdateTime
      modifies this`lastDist, this`zoom
      modifies this`swipeActivated, this`rotationAxis, this`rotation, this`lastSwipeZ, this`lastSwipeUpdateTime
      ensures Valid()
      ensures latestBallCoords[..] == balls + old(latestBallCoords[..])[|balls|..]
      ensures Gestures() == Run(old(Gestures()), balls, clock, dist)
    {
      var i := 0;
      while i < |balls|
        invariant 0 <= i <= |balls|
        invariant Valid()
        invariant forall k | 0 <= k < i :: latestBallCoords[k] == balls[k]
        invariant forall k | i <= k < JointCount :: latestBallCoords[k] == old(latestBallCoords[k])
        invariant Gestures() == Run(old(Gestures()), balls, clock[..i], dist)
      {
        ghost var before := Gestures();
        latestBallCoords[i] := balls[i];
        RecogniseGestures(balls, clock[i]);
        ghost var done := clock[..i + 1];
        assert done[..i] == clock[..i] && done[i] == clock[i];
        i := i + 1;
      }
      assert clock[..i] == clock;
    }

    /** The body of updateGenericBalls' loop after the copy: isSwipe, isPinchActivated, calcZoom. */
    method RecogniseGestures(balls: seq<Matrix4>, now: real)
      requires Valid()
      requires ReadsJoints(balls)
      modifies this`pinchActivated, this`lP, this`dV, this`lastPinchUpdateTime
      modifies this`lastDist, this`zoom
      modifies this`swipeActivated, this`rotationAxis, this`rotation, this`lastSwipeZ, this`lastSwipeUpdateTime
      ensures Valid()
      ensures Gestures() == Tick(old(Gestures()), balls, now, dist)
    {
      IsSwipe(balls[IndexSlot], balls[MiddleSlot], balls[RingSlot], balls[LittleSlot], now);
      IsPinchActivated(balls[ThumbSlot], balls[IndexSlot], now);
      CalcZoom(balls[ThumbSlot], balls[IndexSlot]);
    }

    /** load. */
    method Load(m: Option<ModelIdentifier>, built: Result<ModelRenderer, LoadError>)
      returns (outcome: Outcome<LoadError>)
      requires m != model && m == Some(SampleBox) ==> built.Success?
      modifies this`model, this`modelRenderer
      ensures (Loaded(), outcome) == LoadStep(old(Loaded()), m, built)
    {
      if m == model {
        return Pass;
      }
      model := m;
      modelRenderer := None;
      outcome := Pass;
      match m {
        case Some(GaussianSplat(_)) =>
          if built.Failure? {
            return Fail(built.error);
          }
          modelRenderer := Some(built.value);
        case Some(SampleBox) =>
          modelRenderer := Some(built.value);
        case None =>
      }
    }

    /**
     * viewports: with no renderer, no descriptors and no change. Otherwise
     * the translation is updated (seeded from the renderer's centre on the
     * first render; the source traps on a centre with fewer than three
     * entries) and one descriptor is built per view of the drawable.
     */
    method Viewports(drawable: Drawable, deviceAnchor: Option<Matrix4>)
      returns (descriptors: seq<ViewportDescriptor>)
      requires modelRenderer.Some? && !firstRender ==> 3 <= |modelRenderer.value.center|
      modifies this`x, this`y, this`z, this`firstRender
      ensures modelRenderer.None? ==> descriptors == [] && unchanged(this)
      ensures modelRenderer.Some? ==>
                && firstRender
                && Translation() == NextTranslation(old(Translation()), old(firstRender),
                                                    modelRenderer.value.center, pinchActivated, dV)
                && |descriptors| == |drawable.views|
                && forall i | 0 <= i < |descriptors| ::
                     descriptors[i] == Describe(drawable.views[i], deviceAnchor.GetOr(Identity),
                                                drawable.depthRange, Translation(), rotation, rotationAxis)
    {
      if modelRenderer.None? {
        return [];
      }
      var c := modelRenderer.value.center;
      if !firstRender {
        x, y, z := c[0], c[1], c[2];
        firstRender := true;
      }
      if pinchActivated {
        x, y, z := x + dV.x, y + dV.y, z + dV.z;
      }
      var anchor := deviceAnchor.GetOr(Identity);
      var translation, degrees, axis := Vec3(x, y, z), rotation, rotationAxis;
      descriptors := seq(|drawable.views|, i requires 0 <= i < |drawable.views| =>
                           Describe(drawable.views[i], anchor, drawable.depthRange, translation, degrees, axis));
    }

    /**
     * renderLoop over the layer states its iterations observe: each
     * iteration dispatches on the state; the loop ends at the first
     * invalidated state and keeps going (rendering or waiting) otherwise.
     */
    method RenderLoop(states: seq<LayerState>) returns (actions: seq<LoopAction>)
      ensures |actions| <= |states|
      ensures forall i | 0 <= i < |actions| :: actions[i] == Dispatch(states[i])
      ensures Exit in actions <==> Invalidated in states
      ensures forall i | 0 <= i < |actions| - 1 :: actions[i] != Exit
      ensures Invalidated !in states ==> |actions| == |states|
    {
      actions := [];
      var i := 0;
      while i < |states|
        invariant 0 <= i <= |states| && |actions| == i
        invariant forall k | 0 <= k < i :: actions[k] == Dispatch(states[k]) && states[k] != Invalidated
      {
        var action := Dispatch(states[i]);
        actions := actions + [action];
        if action == Exit {
          return;
        }
        i := i + 1;
      }
    }
  }
}
