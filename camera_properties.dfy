/** Properties of the camera that relate several events to each other. */
module CameraProperties {
  import opened Vectors
  import opened CameraModel

  // ---------------------------------------------------------------------
  // Keyboard

  /** Forward then back, or back then forward, returns to the start: both
      steps are the direction scaled by the same step size. */
  lemma UpDownCancel(ops: VectorOps, s: CamState)
    ensures KeyboardMove(ops, KeyboardMove(ops, s, GLUT_KEY_UP).state, GLUT_KEY_DOWN).state == s
    ensures KeyboardMove(ops, KeyboardMove(ops, s, GLUT_KEY_DOWN).state, GLUT_KEY_UP).state == s
  {
  }

  /** The displacement of a key press. */
  function KeyStep(ops: VectorOps, s: CamState, key: int): Vec3 {
    Sub(KeyboardMove(ops, s, key).state.pos, s.pos)
  }

  /** The right step is the left step negated, as long as normalising
      commutes with negation and the direction is not parallel to up. */
  lemma RightStepIsNegatedLeftStep(ops: VectorOps, s: CamState)
    requires NormalizeIsOdd(ops)
    requires Cross(s.target, s.up) != Vec3(0.0, 0.0, 0.0)
    ensures KeyStep(ops, s, GLUT_KEY_RIGHT) == Neg(KeyStep(ops, s, GLUT_KEY_LEFT))
  {
    var n := ops.normalize(Cross(s.target, s.up));
    CrossAntiCommutative(s.target, s.up);
    assert ops.normalize(Cross(s.up, s.target)) == Neg(n);
    ScaleNeg(n, STEP_SCALE);
  }

  /** Left then right, or right then left, returns to the start, unless the
      direction is parallel to up and the sideways vector is zero. */
  lemma LeftRightCancel(ops: VectorOps, s: CamState)
    requires NormalizeIsOdd(ops)
    requires Cross(s.target, s.up) != Vec3(0.0, 0.0, 0.0)
    ensures KeyboardMove(ops, KeyboardMove(ops, s, GLUT_KEY_LEFT).state, GLUT_KEY_RIGHT).state == s
    ensures KeyboardMove(ops, KeyboardMove(ops, s, GLUT_KEY_RIGHT).state, GLUT_KEY_LEFT).state == s
  {
    var s1 := KeyboardMove(ops, s, GLUT_KEY_LEFT).state;
    var s2 := KeyboardMove(ops, s, GLUT_KEY_RIGHT).state;
    assert s1.target == s.target && s1.up == s.up;
    assert s2.target == s.target && s2.up == s.up;
    RightStepIsNegatedLeftStep(ops, s);
    RightStepIsNegatedLeftStep(ops, s1);
    RightStepIsNegatedLeftStep(ops, s2);
  }

  /** A key press keeps the edge flags consistent. */
  lemma KeyboardMovePreservesConsistency(ops: VectorOps, width: int, height: int, s: CamState, key: int)
    requires EdgesConsistent(s, width, height)
    ensures EdgesConsistent(KeyboardMove(ops, s, key).state, width, height)
  {
  }

  // ---------------------------------------------------------------------
  // Mouse

  /** The state after a sequence of mouse moves, in order. */
  function MouseMoves(ops: VectorOps, width: int, height: int, s: CamState, moves: seq<Vec2i>): CamState
    decreases |moves|
  {
    if |moves| == 0 then s
    else MouseMoves(ops, width, height, MouseMove(ops, width, height, s, moves[0].x, moves[0].y), moves[1..])
  }

  /** However the pointer travels, the angles grow by the straight-line
      travel from the first recorded position to the last, over the
      divisor, and the last position is recorded. */
  lemma {:induction false} MouseTurnsByNetTravel(ops: VectorOps, width: int, height: int, s: CamState, moves: seq<Vec2i>)
    ensures var r := MouseMoves(ops, width, height, s, moves);
      && r.mouse == (if |moves| == 0 then s.mouse else moves[|moves| - 1])
      && r.angleH == s.angleH + (r.mouse.x - s.mouse.x) as real / MOUSE_DIVISOR
      && r.angleV == s.angleV + (r.mouse.y - s.mouse.y) as real / MOUSE_DIVISOR
      && r.pos == s.pos
    decreases |moves|
  {
    if |moves| > 0 {
      var s1 := MouseMove(ops, width, height, s, moves[0].x, moves[0].y);
      MouseTurnsByNetTravel(ops, width, height, s1, moves[1..]);
      var r := MouseMoves(ops, width, height, s1, moves[1..]);
      assert |moves[1..]| > 0 ==> moves[1..][|moves[1..]| - 1] == moves[|moves| - 1];
      assert r.angleH == s.angleH + (r.mouse.x - s.mouse.x) as real / MOUSE_DIVISOR;
    }
  }

  /** Any sequence of mouse moves keeps the edge flags consistent. */
  lemma {:induction false} MouseMovesPreserveConsistency(ops: VectorOps, width: int, height: int, s: CamState, moves: seq<Vec2i>)
    requires EdgesConsistent(s, width, height)
    ensures EdgesConsistent(MouseMoves(ops, width, height, s, moves), width, height)
    decreases |moves|
  {
    if |moves| > 0 {
      var s1 := MouseMove(ops, width, height, s, moves[0].x, moves[0].y);
      MouseMovePreservesConsistency(ops, width, height, s, moves[0].x, moves[0].y);
      MouseMovesPreserveConsistency(ops, width, height, s1, moves[1..]);
    }
  }

  /** In a consistent state the two flags of an axis are never both set, so
      the "left beats right" and "upper beats lower" choices of the tick
      never arise from input. */
  lemma ConsistentEdgesExclusive(s: CamState, width: int, height: int)
    requires EdgesConsistent(s, width, height)
    ensures !(s.edges.left && s.edges.right)
    ensures !(s.edges.upper && s.edges.lower)
  {
  }

  /** A move that changes both coordinates clears every flag, so the next
      tick neither turns nor updates. */
  lemma MovingPointerStopsEdgeTurning(ops: VectorOps, width: int, height: int, s: CamState, x: int, y: int)
    requires x != s.mouse.x && y != s.mouse.y
    ensures var r := MouseMove(ops, width, height, s, x, y);
      !AnyEdge(r.edges) && RenderTick(ops, r) == RenderResult(r, false)
  {
  }

  /** Whether the pointer moved or not, a move to a point away from every
      margin leaves no flag set: a flag never outlives the pointer's stay in
      its margin. */
  lemma PointerAwayFromMarginsClearsFlags(ops: VectorOps, width: int, height: int, s: CamState, x: int, y: int)
    requires EdgesConsistent(s, width, height)
    requires MARGIN < x < width - MARGIN && MARGIN < y < height - MARGIN
    ensures !AnyEdge(MouseMove(ops, width, height, s, x, y).edges)
    ensures RenderTick(ops, MouseMove(ops, width, height, s, x, y)).updated == false
  {
  }

  /** Mouse moves are not limited: in a 1024 x 768 window, with the pointer
      resting in the upper margin and the ticks stopped at -90 degrees, one
      move to the top row takes the vertical angle to -90.5, outside the
      range the ticks keep. */
  lemma MouseLeavesVerticalRange(ops: VectorOps, s: CamState)
    requires EdgesConsistent(s, 1024, 768)
    requires s.mouse == Vec2i(512, 10) && s.edges.upper && s.angleV == -90.0
    ensures var r := MouseMove(ops, 1024, 768, s, 512, 0);
      EdgesConsistent(r, 1024, 768) && r.angleV == -90.5 && r.angleV < -V_LIMIT - EDGE_STEP
  {
    MouseMovePreservesConsistency(ops, 1024, 768, s, 512, 0);
  }

  // ---------------------------------------------------------------------
  // Per-frame ticks

  /** The state after n ticks. */
  function RenderTicks(ops: VectorOps, s: CamState, n: nat): CamState
    decreases n
  {
    if n == 0 then s else RenderTicks(ops, RenderTick(ops, s).state, n - 1)
  }

  /** Starting within 0.1 degree beyond the vertical limits, any number of
      ticks keeps the vertical angle there. */
  lemma {:induction false} RenderTicksKeepVerticalRange(ops: VectorOps, s: CamState, n: nat)
    requires -V_LIMIT - EDGE_STEP <= s.angleV <= V_LIMIT + EDGE_STEP
    ensures -V_LIMIT - EDGE_STEP <= RenderTicks(ops, s, n).angleV <= V_LIMIT + EDGE_STEP
    decreases n
  {
    if n > 0 {
      RenderTicksKeepVerticalRange(ops, RenderTick(ops, s).state, n - 1);
    }
  }

  /** Ticks change neither the flags, the pointer nor the position. */
  lemma {:induction false} RenderTicksKeepInput(ops: VectorOps, s: CamState, n: nat)
    ensures var r := RenderTicks(ops, s, n); r.edges == s.edges && r.mouse == s.mouse && r.pos == s.pos
    decreases n
  {
    if n > 0 {
      RenderTicksKeepInput(ops, RenderTick(ops, s).state, n - 1);
    }
  }

  /** With the pointer on the left edge, n ticks turn the camera left by
      exactly n steps. */
  lemma {:induction false} RenderTicksAtLeftEdge(ops: VectorOps, s: CamState, n: nat)
    requires s.edges.left
    ensures RenderTicks(ops, s, n).angleH == s.angleH - n as real * EDGE_STEP
    decreases n
  {
    if n > 0 {
      RenderTicksAtLeftEdge(ops, RenderTick(ops, s).state, n - 1);
    }
  }

  /** The guard looks at the angle before the step, so one step may carry
      the vertical angle past -90 degrees. */
  lemma VerticalStepCanPassLimit(ops: VectorOps, s: CamState)
    requires s.edges.upper && s.angleV == -89.95
    ensures RenderTick(ops, s).state.angleV == -90.05
    ensures RenderTick(ops, s).state.angleV < -V_LIMIT
  {
  }

  /** A tick keeps the edge flags consistent. */
  lemma RenderTickPreservesConsistency(ops: VectorOps, width: int, height: int, s: CamState)
    requires EdgesConsistent(s, width, height)
    ensures EdgesConsistent(RenderTick(ops, s).state, width, height)
  {
  }

  // ---------------------------------------------------------------------
  // Construction

  /** A fresh camera's flags are consistent with its centred pointer. */
  lemma InitializedConsistent(ops: VectorOps, width: int, height: int, pos: Vec3, target: Vec3, up: Vec3)
    ensures EdgesConsistent(Initialized(ops, width, height, pos, target, up), width, height)
  {
  }

  /** The horizontal angle of every quadrant lies in its own quarter turn,
      with the formula as written and with the mirrored one, provided the arcsine in degrees maps [0, 1] into [0, 90]. */
  lemma QuadrantAngleBands(asinDegrees: real -> real, h: Vec3)
    requires forall t :: 0.0 <= t <= 1.0 ==> 0.0 <= asinDegrees(t) <= 90.0
    requires -1.0 <= h.z <= 1.0
    ensures h.x >= 0.0 && h.z < 0.0 ==> 0.0 <= QuadrantAngle(asinDegrees, h) <= 90.0
    ensures h.x < 0.0 && h.z < 0.0 ==> 90.0 <= QuadrantAngle(asinDegrees, h) <= 180.0
    ensures h.x < 0.0 && h.z >= 0.0 ==> 180.0 <= QuadrantAngle(asinDegrees, h) <= 270.0
    ensures h.x >= 0.0 && h.z >= 0.0 ==> 270.0 <= QuadrantAngle(asinDegrees, h) <= 360.0
    ensures h.x >= 0.0 && h.z < 0.0 ==> 0.0 <= QuadrantAngleAsWritten(asinDegrees, h) <= 90.0
    ensures h.x < 0.0 && h.z < 0.0 ==> 90.0 <= QuadrantAngleAsWritten(asinDegrees, h) <= 180.0
    ensures h.x < 0.0 && h.z >= 0.0 ==> 180.0 <= QuadrantAngleAsWritten(asinDegrees, h) <= 270.0
    ensures h.x >= 0.0 && h.z >= 0.0 ==> 270.0 <= QuadrantAngleAsWritten(asinDegrees, h) <= 360.0
  {
  }

  /** Mirroring a horizontal direction across the Z axis mirrors its angle
      around the Z axis: the two angles add up to 180 or 540 degrees. */
  lemma QuadrantAngleMirror(asinDegrees: real -> real, hx: real, hz: real)
    requires hx > 0.0
    ensures var sum := QuadrantAngle(asinDegrees, Vec3(-hx, 0.0, hz)) + QuadrantAngle(asinDegrees, Vec3(hx, 0.0, hz));
      sum == 180.0 || sum == 540.0
  {
  }

  /** The formula as written breaks the mirror symmetry for the direction
      (-0.8, 0, -0.6), whose arcsine of 0.6 is about 36.87 degrees. */
  lemma QuadrantAngleAsWrittenBreaksMirror(asinDegrees: real -> real)
    requires 0.0 < asinDegrees(0.6) < 45.0
    ensures var sum := QuadrantAngleAsWritten(asinDegrees, Vec3(-0.8, 0.0, -0.6))
                     + QuadrantAngleAsWritten(asinDegrees, Vec3(0.8, 0.0, -0.6));
      sum != 180.0 && sum != 540.0
  {
  }

  /** Outside the quadrant x < 0, z < 0 the written formula and the mirrored
      one agree. */
  lemma QuadrantAnglesAgreeElsewhere(asinDegrees: real -> real, h: Vec3)
    requires h.x >= 0.0 || h.z >= 0.0
    ensures QuadrantAngleAsWritten(asinDegrees, h) == QuadrantAngle(asinDegrees, h)
  {
  }
}
