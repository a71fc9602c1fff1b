/** The camera: a position, a viewing direction and an up vector, driven by
    key presses, mouse moves and a per-frame tick.  The authoritative
    orientation is a pair of angles in degrees (horizontal and vertical);
    the direction and up vectors are regenerated from them.  Four edge flags
    record that the pointer rests near a window edge, which keeps the camera
    turning once per frame. */
module CameraModel {
  import opened Vectors

  /** Distance moved per key press. */
  const STEP_SCALE: real := 0.1
  /** Width in pixels of the band along each window edge. */
  const MARGIN: int := 10
  /** Pixels of mouse travel per degree of turn. */
  const MOUSE_DIVISOR: real := 20.0
  /** Degrees turned per frame while the pointer rests on an edge. */
  const EDGE_STEP: real := 0.1
  /** The vertical angle is only moved further while inside these bounds. */
  const V_LIMIT: real := 90.0

  /** GLUT special-key codes of the arrow keys. */
  const GLUT_KEY_LEFT: int := 100
  const GLUT_KEY_UP: int := 101
  const GLUT_KEY_RIGHT: int := 102
  const GLUT_KEY_DOWN: int := 103

  datatype Edges = Edges(upper: bool, lower: bool, left: bool, right: bool)

  /** Everything about a camera that its methods update. */
  datatype CamState = CamState(pos: Vec3, target: Vec3, up: Vec3,
                               angleH: real, angleV: real,
                               edges: Edges, mouse: Vec2i)

  predicate IsDirectionKey(key: int) {
    key == GLUT_KEY_UP || key == GLUT_KEY_DOWN || key == GLUT_KEY_LEFT || key == GLUT_KEY_RIGHT
  }

  predicate AnyEdge(e: Edges) {
    e.upper || e.lower || e.left || e.right
  }

  /** C++ division of an int by 2, which truncates toward zero. */
  function HalfTowardZero(n: int): (r: int)
    ensures n >= 0 ==> 0 <= n - 2 * r <= 1
    ensures n < 0 ==> 0 <= 2 * r - n <= 1
  {
    if n >= 0 then n / 2 else -((-n) / 2)
  }

  // ---------------------------------------------------------------------
  // Construction: angles from the initial direction

  /** The direction projected onto the XZ plane and normalised. */
  function HorizontalDirection(ops: VectorOps, target: Vec3): Vec3 {
    ops.normalize(Vec3(target.x, 0.0, target.z))
  }

  /** The horizontal angle for a normalised horizontal direction, branch by
      quadrant, as camera.cpp writes it.  The quadrant x < 0, z < 0 uses
      90 + asin(-z). */
  function QuadrantAngleAsWritten(asinDegrees: real -> real, h: Vec3): real {
    if h.z >= 0.0 then
      if h.x >= 0.0 then 360.0 - asinDegrees(h.z) else 180.0 + asinDegrees(h.z)
    else
      if h.x >= 0.0 then asinDegrees(-h.z) else 90.0 + asinDegrees(-h.z)
  }

  /** The horizontal angle with the quadrant x < 0, z < 0 mirrored from the
      quadrant x >= 0, z < 0 like the other two quadrants are: 180 - asin(-z). */
  function QuadrantAngle(asinDegrees: real -> real, h: Vec3): real {
    if h.z >= 0.0 then
      if h.x >= 0.0 then 360.0 - asinDegrees(h.z) else 180.0 + asinDegrees(h.z)
    else
      if h.x >= 0.0 then asinDegrees(-h.z) else 180.0 - asinDegrees(-h.z)
  }

  /** The horizontal angle Init computes, with the formula as written. */
  function InitialAngleH(ops: VectorOps, target: Vec3): real {
    QuadrantAngleAsWritten(ops.asinDegrees, HorizontalDirection(ops, target))
  }

  function InitialAngleV(ops: VectorOps, target: Vec3): real {
    -ops.asinDegrees(target.y)
  }

  /** The state Init leaves: angles reconstructed from the direction, no edge
      flag set, the pointer at the window centre. */
  function Initialized(ops: VectorOps, width: int, height: int, pos: Vec3, target: Vec3, up: Vec3): (s: CamState)
    ensures !AnyEdge(s.edges)
    ensures s.pos == pos && s.target == target && s.up == up
    ensures 0 <= width ==> 0 <= s.mouse.x <= width
    ensures 0 <= height ==> 0 <= s.mouse.y <= height
    ensures s.mouse == Vec2i(HalfTowardZero(width), HalfTowardZero(height))
  {
    CamState(pos, target, up, InitialAngleH(ops, target), InitialAngleV(ops, target),
             Edges(false, false, false, false),
             Vec2i(HalfTowardZero(width), HalfTowardZero(height)))
  }

  // ---------------------------------------------------------------------
  // Update: direction and up vectors from the two angles

  /** The direction and the up vector for the given angles: the X axis is
      turned about world up by the horizontal angle, then about the new
      horizontal axis by the vertical angle. */
  function Orientation(ops: VectorOps, angleH: real, angleV: real): (Vec3, Vec3) {
    var vAxis := Vec3(0.0, 1.0, 0.0);
    var view := ops.normalize(ops.rotate(Vec3(1.0, 0.0, 0.0), angleH, vAxis));
    var hAxis := ops.normalize(Cross(vAxis, view));
    var target := ops.normalize(ops.rotate(view, angleV, hAxis));
    (target, ops.normalize(Cross(target, hAxis)))
  }

  /** The state after Update: direction and up regenerated, the rest kept. */
  function Reoriented(ops: VectorOps, s: CamState): (r: CamState)
    ensures r == s.(target := r.target, up := r.up)
    ensures (r.target, r.up) == Orientation(ops, s.angleH, s.angleV)
  {
    var o := Orientation(ops, s.angleH, s.angleV);
    s.(target := o.0, up := o.1)
  }

  // ---------------------------------------------------------------------
  // Keyboard

  datatype KeyResult = KeyResult(state: CamState, handled: bool)

  /** A key press: the arrow keys step the position along the direction
      (up/down) or along the normalised sideways vector (left/right). */
  function KeyboardMove(ops: VectorOps, s: CamState, key: int): (r: KeyResult)
    ensures r.handled <==> IsDirectionKey(key)
    ensures !r.handled ==> r.state == s
    ensures r.state == s.(pos := r.state.pos)
    ensures key == GLUT_KEY_UP ==> r.state.pos == Add(s.pos, Scale(s.target, STEP_SCALE))
    ensures key == GLUT_KEY_DOWN ==> r.state.pos == Sub(s.pos, Scale(s.target, STEP_SCALE))
    ensures key == GLUT_KEY_LEFT ==> r.state.pos == Add(s.pos, Scale(ops.normalize(Cross(s.target, s.up)), STEP_SCALE))
    ensures key == GLUT_KEY_RIGHT ==> r.state.pos == Add(s.pos, Scale(ops.normalize(Cross(s.up, s.target)), STEP_SCALE))
  {
    if key == GLUT_KEY_UP then
      KeyResult(s.(pos := Add(s.pos, Scale(s.target, STEP_SCALE))), true)
    else if key == GLUT_KEY_DOWN then
      KeyResult(s.(pos := Sub(s.pos, Scale(s.target, STEP_SCALE))), true)
    else if key == GLUT_KEY_LEFT then
      KeyResult(s.(pos := Add(s.pos, Scale(ops.normalize(Cross(s.target, s.up)), STEP_SCALE))), true)
    else if key == GLUT_KEY_RIGHT then
      KeyResult(s.(pos := Add(s.pos, Scale(ops.normalize(Cross(s.up, s.target)), STEP_SCALE))), true)
    else
      KeyResult(s, false)
  }

  // ---------------------------------------------------------------------
  // Mouse

  /** The pair of edge flags along one axis after a mouse move, given the
      move's delta on that axis, the new coordinate, the window extent and
      the flags before: (low edge, high edge). */
  function EdgeRule(delta: int, coord: int, extent: int, low: bool, high: bool): (r: (bool, bool))
    ensures delta != 0 ==> r == (false, false)
    ensures delta == 0 && coord <= MARGIN ==> r == (true, high)
    ensures delta == 0 && MARGIN < coord && extent - MARGIN <= coord ==> r == (low, true)
    ensures delta == 0 && MARGIN < coord < extent - MARGIN ==> r == (low, high)
  {
    if delta == 0 then
      if coord <= MARGIN then (true, high)
      else if coord >= extent - MARGIN then (low, true)
      else (low, high)
    else (false, false)
  }

  /** A mouse move to (x, y) in a window of the given size. */
  function MouseMove(ops: VectorOps, width: int, height: int, s: CamState, x: int, y: int): (r: CamState)
    ensures r.mouse == Vec2i(x, y)
    ensures r.angleH == s.angleH + (x - s.mouse.x) as real / MOUSE_DIVISOR
    ensures r.angleV == s.angleV + (y - s.mouse.y) as real / MOUSE_DIVISOR
    ensures (r.edges.left, r.edges.right) == EdgeRule(x - s.mouse.x, x, width, s.edges.left, s.edges.right)
    ensures (r.edges.upper, r.edges.lower) == EdgeRule(y - s.mouse.y, y, height, s.edges.upper, s.edges.lower)
    ensures r.pos == s.pos
    ensures (r.target, r.up) == Orientation(ops, r.angleH, r.angleV)
  {
    Reoriented(ops, MouseBookkeeping(width, height, s, x, y))
  }

  /** What a mouse move does before the direction and up vectors are
      regenerated: record the pointer, turn by the delta, update the flags. */
  function MouseBookkeeping(width: int, height: int, s: CamState, x: int, y: int): CamState {
    var deltaX := x - s.mouse.x;
    var deltaY := y - s.mouse.y;
    var angleH := s.angleH + deltaX as real / MOUSE_DIVISOR;
    var angleV := s.angleV + deltaY as real / MOUSE_DIVISOR;
    var horizontal := EdgeRule(deltaX, x, width, s.edges.left, s.edges.right);
    var vertical := EdgeRule(deltaY, y, height, s.edges.upper, s.edges.lower);
    CamState(s.pos, s.target, s.up, angleH, angleV,
             Edges(vertical.0, vertical.1, horizontal.0, horizontal.1), Vec2i(x, y))
  }

  // ---------------------------------------------------------------------
  // Per-frame tick

  datatype RenderResult = RenderResult(state: CamState, updated: bool)

  /** The horizontal angle after a tick: left edge beats right edge. */
  function TickH(s: CamState): real {
    if s.edges.left then s.angleH - EDGE_STEP
    else if s.edges.right then s.angleH + EDGE_STEP
    else s.angleH
  }

  /** The vertical angle after a tick: upper edge beats lower edge, and each
      only moves the angle while it is inside the limit on its side. */
  function TickV(s: CamState): real {
    if s.edges.upper then
      if s.angleV > -V_LIMIT then s.angleV - EDGE_STEP else s.angleV
    else if s.edges.lower then
      if s.angleV < V_LIMIT then s.angleV + EDGE_STEP else s.angleV
    else s.angleV
  }

  /** Whether a tick changes an angle, so that Update runs. */
  predicate TickTurns(s: CamState) {
    s.edges.left || s.edges.right
    || (s.edges.upper && s.angleV > -V_LIMIT)
    || (!s.edges.upper && s.edges.lower && s.angleV < V_LIMIT)
  }

  /** One per-frame tick. */
  function RenderTick(ops: VectorOps, s: CamState): (r: RenderResult)
    ensures s.edges.left ==> r.state.angleH == s.angleH - EDGE_STEP
    ensures !s.edges.left && s.edges.right ==> r.state.angleH == s.angleH + EDGE_STEP
    ensures !s.edges.left && !s.edges.right ==> r.state.angleH == s.angleH
    ensures s.edges.upper && s.angleV > -V_LIMIT ==> r.state.angleV == s.angleV - EDGE_STEP
    ensures !s.edges.upper && s.edges.lower && s.angleV < V_LIMIT ==> r.state.angleV == s.angleV + EDGE_STEP
    ensures r.state.angleV < s.angleV ==> s.edges.upper && s.angleV > -V_LIMIT
    ensures r.state.angleV > s.angleV ==> !s.edges.upper && s.edges.lower && s.angleV < V_LIMIT
    ensures r.state.angleV == s.angleV || r.state.angleV == s.angleV - EDGE_STEP || r.state.angleV == s.angleV + EDGE_STEP
    ensures -V_LIMIT - EDGE_STEP <= s.angleV <= V_LIMIT + EDGE_STEP
            ==> -V_LIMIT - EDGE_STEP <= r.state.angleV <= V_LIMIT + EDGE_STEP
    ensures r.updated <==> TickTurns(s)
    ensures r.updated <==> (r.state.angleH != s.angleH || r.state.angleV != s.angleV)
    ensures !r.updated ==> r.state == s
    ensures r.updated ==> (r.state.target, r.state.up) == Orientation(ops, r.state.angleH, r.state.angleV)
    ensures r.state.pos == s.pos && r.state.edges == s.edges && r.state.mouse == s.mouse
  {
    var turned := s.(angleH := TickH(s), angleV := TickV(s));
    if TickTurns(s) then RenderResult(Reoriented(ops, turned), true)
    else RenderResult(s, false)
  }

  // ---------------------------------------------------------------------
  // The camera object

  /** The edge flags agree with the last pointer position: a flag is only
      set while the pointer is inside its margin. */
  predicate EdgesConsistent(s: CamState, width: int, height: int) {
    (s.edges.left ==> s.mouse.x <= MARGIN)
    && (s.edges.right ==> MARGIN < s.mouse.x && width - MARGIN <= s.mouse.x)
    && (s.edges.upper ==> s.mouse.y <= MARGIN)
    && (s.edges.lower ==> MARGIN < s.mouse.y && height - MARGIN <= s.mouse.y)
  }

  class Camera {
    const ops: VectorOps
    const windowWidth: int
    const windowHeight: int

    var pos: Vec3
    var target: Vec3
    var up: Vec3
    var angleH: real
    var angleV: real
    var onUpperEdge: bool
    var onLowerEdge: bool
    var onLeftEdge: bool
    var onRightEdge: bool
    var mousePos: Vec2i

    /** How many times Update has run. */
    ghost var updates: nat

    function State(): CamState
      reads this
    {
      CamState(pos, target, up, angleH, angleV,
               Edges(onUpperEdge, onLowerEdge, onLeftEdge, onRightEdge), mousePos)
    }

    ghost predicate Valid()
      reads this
    {
      EdgesConsistent(State(), windowWidth, windowHeight)
    }

    /** The default camera: at the origin, looking along +Z, up along +Y. */
    constructor Default(ops: VectorOps, windowWidth: int, windowHeight: int)
      ensures Valid()
      ensures this.ops == ops && this.windowWidth == windowWidth && this.windowHeight == windowHeight
      ensures State() == Initialized(ops, windowWidth, windowHeight, Vec3(0.0, 0.0, 0.0),
                                     ops.normalize(Vec3(0.0, 0.0, 1.0)), Vec3(0.0, 1.0, 0.0))
      ensures updates == 0
    {
      this.ops := ops;
      this.windowWidth := windowWidth;
      this.windowHeight := windowHeight;
      pos := Vec3(0.0, 0.0, 0.0);
      target := ops.normalize(Vec3(0.0, 0.0, 1.0));
      up := Vec3(0.0, 1.0, 0.0);
      updates := 0;
      new;
      Init();
    }

    /** A camera with the given pose; direction and up are normalised. */
    constructor (ops: VectorOps, windowWidth: int, windowHeight: int, pos: Vec3, target: Vec3, up: Vec3)
      ensures Valid()
      ensures this.ops == ops && this.windowWidth == windowWidth && this.windowHeight == windowHeight
      ensures State() == Initialized(ops, windowWidth, windowHeight, pos,
                                     ops.normalize(target), ops.normalize(up))
      ensures this.pos == pos
      ensures updates == 0
    {
      this.ops := ops;
      this.windowWidth := windowWidth;
      this.windowHeight := windowHeight;
      this.pos := pos;
      this.target := ops.normalize(target);
      this.up := ops.normalize(up);
      updates := 0;
      new;
      Init();
    }

    /** Angles from the direction, edge flags cleared, pointer centred. */
    method Init()
      modifies this
      ensures Valid()
      ensures State() == Initialized(ops, windowWidth, windowHeight, old(pos), old(target), old(up))
      ensures updates == old(updates)
    {
      var hTarget := ops.normalize(Vec3(target.x, 0.0, target.z));
      if hTarget.z >= 0.0 {
        if hTarget.x >= 0.0 {
          angleH := 360.0 - ops.asinDegrees(hTarget.z);
        } else {
          angleH := 180.0 + ops.asinDegrees(hTarget.z);
        }
      } else {
        if hTarget.x >= 0.0 {
          angleH := ops.asinDegrees(-hTarget.z);
        } else {
          angleH := 90.0 + ops.asinDegrees(-hTarget.z);
        }
      }
      angleV := -ops.asinDegrees(target.y);

      onUpperEdge := false;
      onLowerEdge := false;
      onLeftEdge := false;
      onRightEdge := false;
      mousePos := Vec2i(HalfTowardZero(windowWidth), HalfTowardZero(windowHeight));
    }

    /** Moves the camera for an arrow key; reports whether the key was one. */
    method OnKeyboard(key: int) returns (handled: bool)
      requires Valid()
      modifies this
      ensures Valid()
      ensures handled <==> IsDirectionKey(key)
      ensures State() == KeyboardMove(ops, old(State()), key).state
      ensures updates == old(updates)
    {
      handled := false;
      if key == GLUT_KEY_UP {
        pos := Add(pos, Scale(target, STEP_SCALE));
        handled := true;
      } else if key == GLUT_KEY_DOWN {
        pos := Sub(pos, Scale(target, STEP_SCALE));
        handled := true;
      } else if key == GLUT_KEY_LEFT {
        var left := Cross(target, up);
        left := ops.normalize(left);
        left := Scale(left, STEP_SCALE);
        pos := Add(pos, left);
        handled := true;
      } else if key == GLUT_KEY_RIGHT {
        var right := Cross(up, target);
        right := ops.normalize(right);
        right := Scale(right, STEP_SCALE);
        pos := Add(pos, right);
        handled := true;
      }
    }

    /** Records a mouse move to (x, y), turns by the delta, updates the edge
      flags and regenerates the direction and up vectors. */
    method OnMouse(x: int, y: int)
      requires Valid()
      modifies this
      ensures Valid()
      ensures State() == MouseMove(ops, windowWidth, windowHeight, old(State()), x, y)
      ensures updates == old(updates) + 1
    {
      ghost var before := State();
      var deltaX := x - mousePos.x;
      var deltaY := y - mousePos.y;
      mousePos := Vec2i(x, y);
      angleH := angleH + deltaX as real / MOUSE_DIVISOR;
      angleV := angleV + deltaY as real / MOUSE_DIVISOR;

      SetHorizontalEdges(deltaX, x);
      SetVerticalEdges(deltaY, y);
      assert State() == MouseBookkeeping(windowWidth, windowHeight, before, x, y);
      Update();
      MouseMovePreservesConsistency(ops, windowWidth, windowHeight, before, x, y);
    }

    /** The left/right flags after a move with the given horizontal delta
        to column x. */
    method SetHorizontalEdges(deltaX: int, x: int)
      modifies this`onLeftEdge, this`onRightEdge
      ensures (onLeftEdge, onRightEdge) == EdgeRule(deltaX, x, windowWidth, old(onLeftEdge), old(onRightEdge))
    {
      if deltaX == 0 {
        if x <= MARGIN {
          onLeftEdge := true;
        } else if x >= windowWidth - MARGIN {
          onRightEdge := true;
        }
      } else {
        onLeftEdge := false;
        onRightEdge := false;
      }
    }

    /** The upper/lower flags after a move with the given vertical delta to
        row y. */
    method SetVerticalEdges(deltaY: int, y: int)
      modifies this`onUpperEdge, this`onLowerEdge
      ensures (onUpperEdge, onLowerEdge) == EdgeRule(deltaY, y, windowHeight, old(onUpperEdge), old(onLowerEdge))
    {
      if deltaY == 0 {
        if y <= MARGIN {
          onUpperEdge := true;
        } else if y >= windowHeight - MARGIN {
          onLowerEdge := true;
        }
      } else {
        onUpperEdge := false;
        onLowerEdge := false;
      }
    }

    /** The per-frame tick: keeps turning while an edge flag is set. */
    method OnRender()
      requires Valid()
      modifies this
      ensures Valid()
      ensures State() == RenderTick(ops, old(State())).state
      ensures updates == old(updates) + (if RenderTick(ops, old(State())).updated then 1 else 0)
    {
      var shouldUpdate := false;

      if onLeftEdge {
        angleH := angleH - EDGE_STEP;
        shouldUpdate := true;
      } else if onRightEdge {
        angleH := angleH + EDGE_STEP;
        shouldUpdate := true;
      }

      if onUpperEdge {
        if angleV > -V_LIMIT {
          angleV := angleV - EDGE_STEP;
          shouldUpdate := true;
        }
      } else if onLowerEdge {
        if angleV < V_LIMIT {
          angleV := angleV + EDGE_STEP;
          shouldUpdate := true;
        }
      }

      if shouldUpdate {
        Update();
      }
    }

    /** Regenerates the direction and up vectors from the two angles. */
    method Update()
      modifies this
      ensures State() == Reoriented(ops, old(State()))
      ensures Valid() == old(Valid())
      ensures updates == old(updates) + 1
    {
      var vAxis := Vec3(0.0, 1.0, 0.0);
      var view := Vec3(1.0, 0.0, 0.0);
      view := ops.rotate(view, angleH, vAxis);
      view := ops.normalize(view);

      var hAxis := Cross(vAxis, view);
      hAxis := ops.normalize(hAxis);
      view := ops.rotate(view, angleV, hAxis);

      target := ops.normalize(view);
      up := ops.normalize(Cross(target, hAxis));
      updates := updates + 1;
    }

    method GetPos() returns (p: Vec3)
      ensures p == pos
    {
      p := pos;
    }

    method GetTarget() returns (t: Vec3)
      ensures t == target
    {
      t := target;
    }

    method GetUp() returns (u: Vec3)
      ensures u == up
    {
      u := up;
    }
  }

  /** A mouse move keeps the edge flags consistent with the pointer. */
  lemma MouseMovePreservesConsistency(ops: VectorOps, width: int, height: int, s: CamState, x: int, y: int)
    requires EdgesConsistent(s, width, height)
    ensures EdgesConsistent(MouseMove(ops, width, height, s, x, y), width, height)
  {
  }
}
