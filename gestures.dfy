/**
 * The hand-gesture recognisers of VisionSceneRenderer as state transitions.
 *
 * Each recogniser reads a few joint transforms from the 32-slot joint buffer
 * and updates its own group of fields. The step functions here specify one
 * call of the renderer's isPinchActivated, calcZoom and isSwipe; `Run`
 * specifies the loop in updateGenericBalls, which calls all three once per
 * buffer slot with the same joints.
 */
module Gestures {
  import opened Geometry

  /** Minimum time between two pinch updates, in seconds (0.01 in the code). */
  const PinchUpdateInterval: real := 0.01
  /** Thumb-index distance below which a pinch is active, in metres. */
  const PinchThreshold: real := 0.070
  /** Distance below which two adjacent finger mid-joints count as curled together. */
  const SwipeThreshold: real := 0.035
  /** Rotation applied by one accepted swipe update, in DEGREES (Angle.degrees(0.002)). */
  const SwipeAngleStep: real := 0.002
  /** Divisor of the zoom derivative (maxZoomDist, never changed from 1). */
  const MaxZoomDist: real := 1.0

  /** Capacity of the joint buffer: 16 joints per hand, two hands. */
  const JointCount := 32
  /**
   * Buffer slots the recognisers read. The code offsets them from r = 15
   * (r + 2, r + 5, r + 8, r + 11, r + 15); the right hand starts at slot 16,
   * so these are its thumb-intermediate, index-intermediate,
   * middle-intermediate and ring-intermediate joints and its little-finger tip.
   */
  const ThumbSlot := 17
  const IndexSlot := 20
  const MiddleSlot := 23
  const RingSlot := 26
  const LittleSlot := 30

  /** The world axis models rotate about until a swipe sets one (Constants.rotationAxis). */
  const DefaultRotationAxis := Vec3(0.0, 1.0, 0.0)

  /** Fields pinchActivated, lP, dV and lastPinchUpdateTime. */
  datatype PinchState = PinchState(activated: bool, lastPoint: Vec3, delta: Vec3, lastUpdateTime: real)

  /** Fields lastDist and zoom. */
  datatype ZoomState = ZoomState(lastDist: real, zoom: real)

  /**
   * Fields swipeActivated, rotationAxis, rotation (in degrees), lastSwipeZ
   * and lastSwipeUpdateTime.
   */
  datatype SwipeState = SwipeState(activated: bool, axis: Vec3, rotation: real, lastZ: real, lastUpdateTime: real)

  datatype GestureState = GestureState(pinch: PinchState, zoom: ZoomState, swipe: SwipeState)

  /** The gesture fields as the renderer initialises them. */
  const InitialGestures := GestureState(
    PinchState(false, Origin, Origin, 0.0),
    ZoomState(0.0, 0.0),
    SwipeState(false, DefaultRotationAxis, 0.0, 0.0, 0.0))

  // ---------------------------------------------------------------- pinch

  /** The pinch debounce has elapsed at clock reading `now`. */
  predicate PinchDue(s: PinchState, now: real) {
    now - s.lastUpdateTime >= PinchUpdateInterval
  }

  /**
   * One call of isPinchActivated with the clock reading `now`: after the
   * debounce, a non-zero thumb-index distance below the threshold activates
   * the pinch and records the thumb's displacement since the last sample; a
   * distance at or above it deactivates the pinch; both resample the thumb.
   */
  function PinchStep(s: PinchState, thumbTip: Matrix4, indexTip: Matrix4, now: real,
                     dist: (Vec3, Vec3) -> real): (r: PinchState)
    requires IsDistance(dist)
    // debounce: nothing changes before the interval has elapsed
    ensures !PinchDue(s, now) ==> r == s
    // untracked joints (coinciding points) are skipped, not read as "no pinch"
    ensures Position(thumbTip) == Position(indexTip) ==> r == s
    ensures PinchDue(s, now) && Position(thumbTip) != Position(indexTip)
              && dist(Position(thumbTip), Position(indexTip)) < PinchThreshold
            ==> r == PinchState(true, Position(thumbTip), Sub(Position(thumbTip), s.lastPoint), now)
    ensures PinchDue(s, now) && dist(Position(thumbTip), Position(indexTip)) >= PinchThreshold
            ==> r == s.(activated := false, lastPoint := Position(thumbTip))
    // recorded update times are at least the debounce interval apart
    ensures r.lastUpdateTime == s.lastUpdateTime
            || (r.lastUpdateTime == now && now - s.lastUpdateTime >= PinchUpdateInterval)
  {
    if now - s.lastUpdateTime >= PinchUpdateInterval then
      var p1, p2 := Position(thumbTip), Position(indexTip);
      var d := dist(p1, p2);
      if d != 0.0 then
        if d < PinchThreshold then
          PinchState(true, p1, Sub(p1, s.lastPoint), now)
        else
          s.(activated := false, lastPoint := p1)
      else
        s
    else
      s
  }

  /** Repeating a pinch update at the same clock reading changes nothing more. */
  lemma PinchStepIdempotent(s: PinchState, thumbTip: Matrix4, indexTip: Matrix4, now: real,
                            dist: (Vec3, Vec3) -> real)
    requires IsDistance(dist)
    ensures PinchStep(PinchStep(s, thumbTip, indexTip, now, dist), thumbTip, indexTip, now, dist)
            == PinchStep(s, thumbTip, indexTip, now, dist)
  {
  }

  /**
   * A pinch update that fires again on an unchanged thumb sample reports a
   * zero displacement: the delta is only non-zero on the first of them.
   */
  lemma PinchRepeatedSampleHasNoDelta(s: PinchState, thumbTip: Matrix4, indexTip: Matrix4,
                                      t1: real, t2: real, dist: (Vec3, Vec3) -> real)
    requires IsDistance(dist)
    requires PinchDue(s, t1) && t2 - t1 >= PinchUpdateInterval
    requires Position(thumbTip) != Position(indexTip)
    requires dist(Position(thumbTip), Position(indexTip)) < PinchThreshold
    ensures var r := PinchStep(PinchStep(s, thumbTip, indexTip, t1, dist), thumbTip, indexTip, t2, dist);
            r.activated && r.delta == Origin && r.lastUpdateTime == t2
  {
  }

  // ---------------------------------------------------------------- zoom

  /**
   * One call of calcZoom: `zoom` becomes the change of the thumb-index
   * distance since the previous call (maxZoomDist is 1), and that distance
   * is remembered.
   */
  function ZoomStep(s: ZoomState, thumbTip: Matrix4, indexTip: Matrix4,
                    dist: (Vec3, Vec3) -> real): (r: ZoomState)
    requires IsDistance(dist)
    ensures r.lastDist == dist(Position(thumbTip), Position(indexTip))
    ensures 0.0 <= r.lastDist
    ensures r.zoom == r.lastDist - s.lastDist
  {
    var d := dist(Position(thumbTip), Position(indexTip));
    ZoomState(d, (d - s.lastDist) / MaxZoomDist)
  }

  // ---------------------------------------------------------------- swipe

  /** None of the three adjacent mid-joint distances is zero. */
  predicate SwipeTracked(indexMid: Matrix4, middleMid: Matrix4, ringMid: Matrix4, littleMid: Matrix4) {
    && Position(indexMid) != Position(middleMid)
    && Position(middleMid) != Position(ringMid)
    && Position(ringMid) != Position(littleMid)
  }

  /** Index, middle and ring fingers are curled together. */
  predicate Curled(indexMid: Matrix4, middleMid: Matrix4, ringMid: Matrix4, dist: (Vec3, Vec3) -> real) {
    && dist(Position(indexMid), Position(middleMid)) < SwipeThreshold
    && dist(Position(middleMid), Position(ringMid)) < SwipeThreshold
  }

  /** The rotation step, in degrees: positive exactly when the index joint moved towards +Z. */
  function SwipeDelta(lastZ: real, z: real): (step: real)
    ensures step == SwipeAngleStep || step == -SwipeAngleStep
    ensures step > 0.0 <==> z > lastZ
  {
    if z - lastZ > 0.0 then SwipeAngleStep else -SwipeAngleStep
  }

  /**
   * One call of isSwipe with the clock reading `now` (the swipe has no
   * effective debounce): a curled hand rotates by one fixed step in the
   * direction of the index joint's Z movement about that joint's Y axis; an
   * open hand only clears swipeActivated; an untracked hand changes nothing.
   */
  function SwipeStep(s: SwipeState, indexMid: Matrix4, middleMid: Matrix4, ringMid: Matrix4,
                      littleMid: Matrix4, now: real, dist: (Vec3, Vec3) -> real): (r: SwipeState)
    requires IsDistance(dist)
    ensures !SwipeTracked(indexMid, middleMid, ringMid, littleMid) ==> r == s
    ensures SwipeTracked(indexMid, middleMid, ringMid, littleMid) && Curled(indexMid, middleMid, ringMid, dist)
            ==> r == SwipeState(true, AxisY(indexMid),
                                s.rotation + SwipeDelta(s.lastZ, Position(indexMid).z),
                                Position(indexMid).z, now)
    ensures SwipeTracked(indexMid, middleMid, ringMid, littleMid) && !Curled(indexMid, middleMid, ringMid, dist)
            ==> r == s.(activated := false)
    // the rotation is a step function: it moves by exactly one step or not at all
    ensures r.rotation == s.rotation || r.rotation == s.rotation + SwipeAngleStep || r.rotation == s.rotation - SwipeAngleStep
  {
    var pIndex, pMiddle := Position(indexMid), Position(middleMid);
    var pRing, pLittle := Position(ringMid), Position(littleMid);
    var dIndexMiddle := dist(pIndex, pMiddle);
    var dMiddleRing := dist(pMiddle, pRing);
    var dRingLittle := dist(pRing, pLittle);
    if dIndexMiddle == 0.0 || dMiddleRing == 0.0 || dRingLittle == 0.0 then
      s
    else if dIndexMiddle < SwipeThreshold && dMiddleRing < SwipeThreshold then
      SwipeState(true, AxisY(indexMid), s.rotation + SwipeDelta(s.lastZ, indexMid.c3.z), indexMid.c3.z, now)
    else
      s.(activated := false)
  }

  // ---------------------------------------------------------------- one tracking update

  /** The joint slots the recognisers read are inside `balls`. */
  predicate ReadsJoints(balls: seq<Matrix4>) {
    LittleSlot < |balls|
  }

  /**
   * One iteration of the loop in updateGenericBalls, at clock reading `now`:
   * isSwipe, then isPinchActivated, then calcZoom, on the fixed joint slots.
   * The three recognisers touch disjoint fields.
   */
  function Tick(g: GestureState, balls: seq<Matrix4>, now: real, dist: (Vec3, Vec3) -> real): (r: GestureState)
    requires IsDistance(dist)
    requires ReadsJoints(balls)
    ensures r.swipe == SwipeStep(g.swipe, balls[IndexSlot], balls[MiddleSlot], balls[RingSlot], balls[LittleSlot], now, dist)
    ensures r.pinch == PinchStep(g.pinch, balls[ThumbSlot], balls[IndexSlot], now, dist)
    ensures r.zoom == ZoomStep(g.zoom, balls[ThumbSlot], balls[IndexSlot], dist)
  {
    var swipe := SwipeStep(g.swipe, balls[IndexSlot], balls[MiddleSlot], balls[RingSlot], balls[LittleSlot], now, dist);
    var pinch := PinchStep(g.pinch, balls[ThumbSlot], balls[IndexSlot], now, dist);
    var zoom := ZoomStep(g.zoom, balls[ThumbSlot], balls[IndexSlot], dist);
    GestureState(pinch, zoom, swipe)
  }

  /**
   * The gesture state after the loop of updateGenericBalls has run one
   * iteration per clock reading in `clock` (one iteration per buffer slot,
   * each reading the clock afresh), all on the same joints.
   */
  function Run(g: GestureState, balls: seq<Matrix4>, clock: seq<real>, dist: (Vec3, Vec3) -> real): GestureState
    requires IsDistance(dist)
    requires clock == [] || ReadsJoints(balls)
    decreases |clock|
  {
    if clock == [] then g
    else Tick(Run(g, balls, clock[..|clock| - 1], dist), balls, clock[|clock| - 1], dist)
  }

  /**
   * Zoom settles within one update: from the second iteration on every call
   * sees its own previous distance, so after an update over at least two
   * slots `zoom` is 0 whatever the fingers did.
   */
  lemma {:induction false} RunZoomSettles(g: GestureState, balls: seq<Matrix4>, clock: seq<real>,
                                          dist: (Vec3, Vec3) -> real)
    requires IsDistance(dist)
    requires ReadsJoints(balls)
    requires 2 <= |clock|
    ensures Run(g, balls, clock, dist).zoom
            == ZoomState(dist(Position(balls[ThumbSlot]), Position(balls[IndexSlot])), 0.0)
  {
    var before := clock[..|clock| - 1];
    assert before[..|before| - 1] == clock[..|clock| - 2];
  }

  /**
   * When every iteration of an update reads the same clock value, the pinch
   * state ends as after a single isPinchActivated call.
   */
  lemma {:induction false} RunPinchAtOneInstant(g: GestureState, balls: seq<Matrix4>, clock: seq<real>,
                                                now: real, dist: (Vec3, Vec3) -> real)
    requires IsDistance(dist)
    requires ReadsJoints(balls)
    requires 1 <= |clock|
    requires forall i :: 0 <= i < |clock| ==> clock[i] == now
    ensures Run(g, balls, clock, dist).pinch == PinchStep(g.pinch, balls[ThumbSlot], balls[IndexSlot], now, dist)
  {
    if |clock| > 1 {
      var before := clock[..|clock| - 1];
      RunPinchAtOneInstant(g, balls, before, now, dist);
      PinchStepIdempotent(g.pinch, balls[ThumbSlot], balls[IndexSlot], now, dist);
    }
  }

  /**
   * With a curled, tracked hand every iteration of an update applies one
   * rotation step. Only the first iteration sees the index joint's real Z
   * movement; every later one sees dz = 0 and steps by -0.002 degrees. So one
   * update over n slots moves the rotation by SwipeDelta - (n - 1) * 0.002.
   */
  lemma {:induction false} RunSwipeCurled(g: GestureState, balls: seq<Matrix4>, clock: seq<real>,
                                          dist: (Vec3, Vec3) -> real)
    requires IsDistance(dist)
    requires ReadsJoints(balls)
    requires SwipeTracked(balls[IndexSlot], balls[MiddleSlot], balls[RingSlot], balls[LittleSlot])
    requires Curled(balls[IndexSlot], balls[MiddleSlot], balls[RingSlot], dist)
    requires 1 <= |clock|
    ensures var r := Run(g, balls, clock, dist).swipe;
            && r.activated
            && r.axis == AxisY(balls[IndexSlot])
            && r.lastZ == Position(balls[IndexSlot]).z
            && r.rotation == g.swipe.rotation + SwipeDelta(g.swipe.lastZ, Position(balls[IndexSlot]).z)
                             - (|clock| - 1) as real * SwipeAngleStep
  {
    if |clock| > 1 {
      RunSwipeCurled(g, balls, clock[..|clock| - 1], dist);
    }
  }

  /**
   * With an open, tracked hand no iteration rotates, and after the first one
   * swipeActivated is false.
   */
  lemma {:induction false} RunSwipeOpen(g: GestureState, balls: seq<Matrix4>, clock: seq<real>,
                                        dist: (Vec3, Vec3) -> real)
    requires IsDistance(dist)
    requires ReadsJoints(balls)
    requires SwipeTracked(balls[IndexSlot], balls[MiddleSlot], balls[RingSlot], balls[LittleSlot])
    requires !Curled(balls[IndexSlot], balls[MiddleSlot], balls[RingSlot], dist)
    ensures Run(g, balls, clock, dist).swipe
            == if clock == [] then g.swipe else g.swipe.(activated := false)
  {
    if clock != [] {
      RunSwipeOpen(g, balls, clock[..|clock| - 1], dist);
    }
  }

  /** With an untracked hand (two adjacent joints coincide) an update leaves the swipe state alone. */
  lemma {:induction false} RunSwipeUntracked(g: GestureState, balls: seq<Matrix4>, clock: seq<real>,
                                             dist: (Vec3, Vec3) -> real)
    requires IsDistance(dist)
    requires ReadsJoints(balls)
    requires !SwipeTracked(balls[IndexSlot], balls[MiddleSlot], balls[RingSlot], balls[LittleSlot])
    ensures Run(g, balls, clock, dist).swipe == g.swipe
  {
    if clock != [] {
      RunSwipeUntracked(g, balls, clock[..|clock| - 1], dist);
    }
  }
}
