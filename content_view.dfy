/** The parts of ContentView.swift that feed the curve model: the mapping from device tilt to
    the two spring targets (the 60 Hz timer sink), the mapping from a drag location to the
    targets, and the canvas' size synchronisation. */
module ContentView {
  import opened Geometry
  import opened CurveModel

  const XSensitivity: real := 0.45

  const YSensitivity: real := 0.45

  /** The pair of spring targets a mapping produces. */
  datatype Targets = Targets(p1: Point, p2: Point)

  /** The two targets are mirror images through the centre of a surface of size s. */
  predicate Balanced(s: Size, r: Targets) {
    r.p1.x + r.p2.x == s.width && r.p1.y + r.p2.y == s.height
  }

  /** The targets for a tilt sample: roll shifts the targets horizontally and pitch
      vertically, in opposite directions, from points at 30% and 70% of the surface. */
  function TiltTargets(size: Size, pitch: real, roll: real, yaw: real): (r: Targets)
    ensures Balanced(size, r)
    ensures pitch == 0.0 && roll == 0.0 ==>
              r == Targets(Point(size.width * 0.3, size.height * 0.3), Point(size.width * 0.7, size.height * 0.7))
  {
    var centerX := size.width * 0.5;
    var centerY := size.height * 0.5;
    var offsetX := roll * size.width * XSensitivity;
    var offsetY := pitch * size.height * YSensitivity;
    Targets(Point(centerX * 0.6 + offsetX, centerY * 0.6 + offsetY),
            Point(centerX * 1.4 - offsetX, centerY * 1.4 - offsetY))
  }

  /** Roll moves only the x coordinates and pitch only the y coordinates, each by 0.45 of the
      surface's extent per radian, in opposite directions for the two targets. */
  lemma TiltAxes(size: Size, pitch: real, roll: real, yaw: real, pitch': real, roll': real, yaw': real)
    ensures var r, r' := TiltTargets(size, pitch, roll, yaw), TiltTargets(size, pitch', roll', yaw');
            r'.p1.x - r.p1.x == 0.45 * size.width * (roll' - roll) &&
            r'.p2.x - r.p2.x == -0.45 * size.width * (roll' - roll) &&
            r'.p1.y - r.p1.y == 0.45 * size.height * (pitch' - pitch) &&
            r'.p2.y - r.p2.y == -0.45 * size.height * (pitch' - pitch)
  {
  }

  /** Yaw is read but never used. */
  lemma TiltIgnoresYaw(size: Size, pitch: real, roll: real, yaw: real, yaw': real)
    ensures TiltTargets(size, pitch, roll, yaw) == TiltTargets(size, pitch, roll, yaw')
  {
  }

  /** The targets for a drag at `loc`: the first at 60% of the location, the second its
      mirror image through the centre. */
  function DragTargets(size: Size, loc: Point): (r: Targets)
    ensures Balanced(size, r)
    ensures r.p1 == Point(0.6 * loc.x, 0.6 * loc.y)
  {
    Targets(Point(loc.x * 0.6, loc.y * 0.6), Point(size.width - loc.x * 0.6, size.height - loc.y * 0.6))
  }

  /** Writing balanced targets into a symmetric configuration keeps it symmetric, so under the
      tilt or drag mappings the drawn curve stays point-symmetric through the centre. */
  lemma BalancedKeepsSymmetry(s: ModelState, r: Targets)
    requires CentrallySymmetric(s) && Balanced(s.size, r)
    ensures CentrallySymmetric(s.(targetP1 := r.p1, targetP2 := r.p2))
  {
  }

  /** The timer sink: with a laid-out width, overwrite both targets from the current tilt. */
  method OnMotionSample(model: BezierModel, pitch: real, roll: real, yaw: real)
    requires model.Valid()
    modifies model
    ensures model.Valid() && model.liveTickers == old(model.liveTickers)
    ensures old(model.size).width <= 0.0 ==> model.State() == old(model.State())
    ensures 0.0 < old(model.size).width ==>
              var r := TiltTargets(old(model.size), pitch, roll, yaw);
              model.State() == old(model.State()).(targetP1 := r.p1, targetP2 := r.p2)
  {
    if !(model.size.width > 0.0) {
      return;
    }
    var r := TiltTargets(model.size, pitch, roll, yaw);
    model.targetP1 := r.p1;
    model.targetP2 := r.p2;
  }

  /** The drag handler: overwrite both targets from the drag location. */
  method OnDrag(model: BezierModel, loc: Point)
    requires model.Valid()
    modifies model
    ensures model.Valid() && model.liveTickers == old(model.liveTickers)
    ensures var r := DragTargets(old(model.size), loc);
            model.State() == old(model.State()).(targetP1 := r.p1, targetP2 := r.p2)
  {
    var r := DragTargets(model.size, loc);
    model.targetP1 := r.p1;
    model.targetP2 := r.p2;
  }

  /** The canvas' size check: on a new size, assign it (which lays out) and lay out again;
      the second layout changes nothing. */
  method SyncCanvasSize(model: BezierModel, canvasSize: Size)
    requires model.Valid()
    modifies model
    ensures model.Valid() && model.liveTickers == old(model.liveTickers)
    ensures model.State() == if old(model.size) == canvasSize then old(model.State())
                             else Layout(old(model.State()).(size := canvasSize))
  {
    if model.size != canvasSize {
      model.SetSize(canvasSize);
      LayoutIdempotent(old(model.State()).(size := canvasSize));
      model.LayoutInitialPoints();
    }
  }
}
