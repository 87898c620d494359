/** The Python Simulation class: a lifecycle guard, argument shape checks,
    NaN sanitising and scalar casts, unit conversion and the shoelace
    winding test, in front of the staging layer. */
module Frontend {
  import opened Wrappers
  import opened Errors
  import opened Numbers
  import opened Arrays
  import opened State
  import Geometry
  import Units
  import Staging
  import Decode

  /** A Simulation object.  The backend record exists once create_new has
      run; `session` being present is the `_hasSim` flag. */
  datatype Handle = Handle(session: Option<Sim>) {
    predicate HasSim() {
      session.Some?
    }
  }

  /** A freshly constructed Simulation: no backend record yet. */
  const Fresh: Handle := Handle(None)

  /** A successful command: the new record and the notices it emitted. */
  datatype Done = Done(sim: Sim, notices: seq<Notice>)

  function NanNotice(s: Sanitized, p: Param): seq<Notice> {
    if s.warned then [NanZeroed(p)] else []
  }

  function CastNotice(cast: bool, p: Param): seq<Notice> {
    if cast then [Cast(p)] else []
  }

  /** No NaN anywhere in a raw array. */
  predicate AllNumbers(a: RawArray) {
    forall i :: 0 <= i < |a.data| ==> a.data[i].Num?
  }

  /** The warning the wrapper owes for argument `p` given as `a`: one
      NaN notice exactly when some entry is NaN. */
  function NanWarning(a: RawArray, p: Param): seq<Notice> {
    if AllNumbers(a) then [] else [NanZeroed(p)]
  }

  // ------------------------------------------------------------- lifecycle

  /** create_new: a new, empty backend record; whatever came before is gone. */
  function CreateNew(h: Handle): (r: Handle)
    ensures r.HasSim()
    ensures r.session.value.materials == [] && r.session.value.layers == []
    ensures r.session.value.excitation.None? && r.session.value.frequency.None?
    ensures r.session.value.options == {} && !r.session.value.solved
    ensures r.session.value.lattice == Staging.DefaultLattice && r.session.value.numG == Staging.DefaultNumG
  {
    Handle(Some(Staging.CreateNew()))
  }

  /** create_new does not depend on the object's history: in particular a
      lattice or Fourier count set before it is replaced by the defaults,
      because the staging layer never stores them in its own members. */
  lemma CreateNewForgets(h: Handle, g: Handle)
    ensures CreateNew(h) == CreateNew(g)
    ensures h.HasSim() ==> CreateNew(h).session.value == h.session.value.(
              lattice := Staging.DefaultLattice, numG := Staging.DefaultNumG, materials := [], layers := [],
              excitation := None, frequency := None, options := {}, solved := false)
  {
  }

  // -------------------------------------------------------- argument checks

  /** The 1-D, n-element check done on centres, halfwidths, the excitation
      angle and both polarisations, followed by sanitising. */
  function CheckVector(a: RawArray, n: nat, p: Param): (r: Result<Sanitized, Error>)
    ensures r.Ok? <==> a.shape == [n]
    ensures r.Err? ==> r.error == BadShape(p)
    ensures r.Ok? ==> r.value == Sanitize(a) && r.value.buffer.shape == [n] && |r.value.buffer.data| == n
  {
    if a.Rank() != 1 then Err(BadShape(p))
    else if a.shape[0] != n then Err(BadShape(p))
    else
      VectorSize(a.shape);
      Ok(Sanitize(a))
  }

  /** _material_array_check: rank above 3, a 1-D length other than 1, 2 or
      18, and a 3-D shape other than (3, 3, 2) are refused; ranks 0 and 2
      pass through to the staging layer. */
  function CheckPermittivity(eps: RawArray): (r: Result<Sanitized, Error>)
    ensures r.Ok? <==> eps.Rank() <= 3 &&
                       (eps.Rank() == 1 ==> eps.shape[0] in {1, 2, 18}) &&
                       (eps.Rank() == 3 ==> eps.shape == [3, 3, 2])
    ensures r.Err? ==> r.error == BadShape(Eps)
    ensures r.Ok? ==> r.value == Sanitize(eps)
    ensures r.Ok? ==> r.value.buffer.shape != [9]
  {
    if eps.Rank() > 3 then Err(BadShape(Eps))
    else if eps.Rank() == 1 && eps.shape[0] !in {1, 2, 18} then Err(BadShape(Eps))
    else if eps.Rank() == 3 && (eps.shape[0] != 3 || eps.shape[1] != 3 || eps.shape[2] != 2) then Err(BadShape(Eps))
    else
      assert eps.Rank() == 3 ==> eps.shape == [3, 3, 2];
      Ok(Sanitize(eps))
  }

  /** The two checks together accept exactly the four permittivity layouts:
      ranks 0 and 2 pass the wrapper but not the staging layer, and the
      9-element vector never reaches the staging layer. */
  lemma PermittivityLayouts(eps: RawArray, stale: Block18)
    ensures (CheckPermittivity(eps).Ok? && Staging.SetEps(CheckPermittivity(eps).value.buffer, stale).Ok?)
              <==> eps.shape in {[1], [2], [18], [3, 3, 2]}
  {
    if eps.shape in {[1], [2], [18], [3, 3, 2]} {
      assert eps.Rank() == 1 ==> eps.shape[0] in {1, 2, 18};
    }
  }

  // ------------------------------------------------------------- materials

  /** add_material. */
  function AddMaterial(h: Handle, name: string, eps: RawArray, stale: Block18): (r: Result<Done, Error>)
    ensures !h.HasSim() ==> r == Err(NoSimulation)
    ensures r.Ok? <==> h.HasSim() && eps.shape in {[1], [2], [18], [3, 3, 2]}
    ensures r.Ok? ==> var s := h.session.value;
              && |r.value.sim.materials| == |s.materials| + 1
              && r.value.sim.materials[..|s.materials|] == s.materials
              && r.value.sim.materials[|s.materials|] == Material(name, Staging.SetEps(Sanitize(eps).buffer, stale).value)
              && r.value.sim == s.(materials := r.value.sim.materials)
    ensures r.Ok? ==> (r.value.notices == [] <==> AllNumbers(eps))
  {
    if !h.HasSim() then Err(NoSimulation)
    else
      PermittivityLayouts(eps, stale);
      match CheckPermittivity(eps)
      case Err(e) => Err(e)
      case Ok(clean) =>
        match Staging.AddMaterial(h.session.value, name, clean.buffer, stale)
        case Err(e) => Err(e)
        case Ok(s) => Ok(Done(s, NanNotice(clean, Eps)))
  }

  /** set_material: replaces the material of that name, or adds it. */
  function SetMaterial(h: Handle, name: string, eps: RawArray, stale: Block18): (r: Result<Done, Error>)
    ensures !h.HasSim() ==> r == Err(NoSimulation)
    ensures r.Ok? <==> h.HasSim() && eps.shape in {[1], [2], [18], [3, 3, 2]}
    ensures r.Ok? ==> var s := h.session.value; var k := s.MaterialIndex(name);
              && |r.value.sim.materials| == |s.materials| + (if k < 0 then 1 else 0)
              && r.value.sim.MaterialIndex(name) == (if k < 0 then |s.materials| else k)
              && r.value.sim.materials[r.value.sim.MaterialIndex(name)] ==
                   Material(name, Staging.SetEps(Sanitize(eps).buffer, stale).value)
              && (forall i :: 0 <= i < |s.materials| && i != k ==> r.value.sim.materials[i] == s.materials[i])
              && r.value.sim == s.(materials := r.value.sim.materials)
    ensures r.Ok? ==> (r.value.notices == [] <==> AllNumbers(eps))
  {
    if !h.HasSim() then Err(NoSimulation)
    else
      PermittivityLayouts(eps, stale);
      match CheckPermittivity(eps)
      case Err(e) => Err(e)
      case Ok(clean) =>
        match Staging.SetMaterial(h.session.value, name, clean.buffer, stale)
        case Err(e) => Err(e)
        case Ok(s) => Ok(Done(s, NanNotice(clean, Eps)))
  }

  /** A NaN in a 1-D permittivity is stored as 0.0: the sanitiser's zeroing
      reaches the backend's material record. */
  lemma NanPermittivityStoredAsZero(h: Handle, name: string, eps: RawArray, stale: Block18, i: nat)
    requires AddMaterial(h, name, eps, stale).Ok?
    requires eps.Rank() == 1 && i < |eps.data| && eps.data[i].NaN?
    ensures var s := h.session.value;
            var t := AddMaterial(h, name, eps, stale).value;
            && i < 18
            && t.sim.materials[|s.materials|].eps.eps[i] == 0.0
            && t.notices != []
  {
    VectorSize(eps.shape);
  }

  // --------------------------------------------------------------- lattice

  /** set_lattice: a single number is a 1-D lattice period, otherwise a 2x2
      array of basis vectors; `status` is the backend's verdict. */
  function SetLattice(h: Handle, bv: RawArray, status: int): (r: Result<Done, Error>)
    ensures !h.HasSim() ==> r == Err(NoSimulation)
    ensures r.Ok? <==> h.HasSim() && (bv.Rank() == 0 || bv.shape == [2, 2]) && status == 0
    ensures h.HasSim() && (bv.Rank() == 0 || bv.shape == [2, 2]) && status != 0 ==> r == Err(BackendStatus(status))
    ensures r.Ok? && bv.Rank() == 0 ==> r.value.sim.lattice == [ZeroNaN(bv.data[0]), 0.0, 0.0, 0.0]
    ensures r.Ok? && bv.Rank() == 2 ==> |bv.data| == 4
    ensures r.Ok? && bv.Rank() == 2 ==>
              |r.value.sim.lattice| == 4 && forall i :: 0 <= i < 4 ==> r.value.sim.lattice[i] == ZeroNaN(bv.data[i])
    ensures r.Ok? ==> r.value.sim == h.session.value.(lattice := r.value.sim.lattice)
    ensures r.Ok? ==> (r.value.notices == [] <==> AllNumbers(bv))
  {
    if !h.HasSim() then Err(NoSimulation)
    else if bv.Rank() != 0 && bv.Rank() != 2 then Err(BadShape(BasisVectors))
    else if bv.Rank() == 2 && (bv.shape[0] != 2 || bv.shape[1] != 2) then Err(BadShape(BasisVectors))
    else
      var shaped: RawArray := if bv.Rank() == 0 then NdArray([1], bv.data) else bv;
      assert bv.Rank() == 2 ==> bv.shape == [2, 2];
      assert bv.Rank() == 2 ==> |bv.data| == 4 by {
        if bv.Rank() == 2 {
          MatrixSize(bv.shape);
        }
      }
      var clean := Sanitize(shaped);
      match Staging.SetLattice(h.session.value, clean.buffer, status)
      case Err(e) => Err(e)
      case Ok(s) => Ok(Done(s, NanNotice(clean, BasisVectors)))
  }

  /** A 1-D lattice of period p is stored as the basis vectors (p, 0), (0, 0). */
  lemma LatticePeriod(h: Handle, p: real)
    requires h.HasSim()
    ensures SetLattice(h, NdArray([], [Num(p)]), 0) ==
              Ok(Done(h.session.value.(lattice := [p, 0.0, 0.0, 0.0]), []))
  {
  }

  /** A single period is the degenerate 2x2 lattice with one basis vector
      (p, 0) and a zero second vector: both inputs give the same record,
      the same notices and the same failures, whatever p and the status. */
  lemma PeriodIsDegenerateLattice(h: Handle, p: Float, status: int)
    ensures SetLattice(h, NdArray([], [p]), status) ==
            SetLattice(h, NdArray([2, 2], [p, Num(0.0), Num(0.0), Num(0.0)]), status)
  {
    var one: RawArray := NdArray([], [p]);
    var two: RawArray := NdArray([2, 2], [p, Num(0.0), Num(0.0), Num(0.0)]);
    if h.HasSim() && status == 0 {
      var a := SetLattice(h, one, status).value;
      var b := SetLattice(h, two, status).value;
      assert a.sim.lattice == b.sim.lattice;
      assert AllNumbers(one) <==> AllNumbers(two) by {
        assert two.data[0] == one.data[0];
      }
      assert a.notices == b.notices;
    }
  }

  // ----------------------------------------------------------- Fourier count

  /** set_num_g: a non-int is truncated with a notice, values below 1 are
      refused, others are stored unchanged. */
  function SetNumG(h: Handle, n: Scalar): (r: Result<Done, Error>)
    ensures !h.HasSim() ==> r == Err(NoSimulation)
    ensures r.Ok? <==> h.HasSim() && n.ToInt() >= 1
    ensures h.HasSim() && n.ToInt() < 1 ==> r == Err(OutOfRange(NumG))
    ensures r.Ok? ==> r.value.sim == h.session.value.(numG := n.ToInt())
    ensures r.Ok? ==> (r.value.notices == [] <==> n.IsInt())
  {
    if !h.HasSim() then Err(NoSimulation)
    else
      var count := n.ToInt();
      if count < 1 then Err(OutOfRange(NumG))
      else
        match Staging.SetNumG(h.session.value, count)
        case Err(e) => Err(e)
        case Ok(s) => Ok(Done(s, CastNotice(!n.IsInt(), NumG)))
  }

  /** get_num_g. */
  function GetNumG(h: Handle): (r: Result<int, Error>)
    ensures r.Ok? <==> h.HasSim()
    ensures r.Err? ==> r.error == NoSimulation
    ensures r.Ok? ==> r.value == Staging.GetNumG(h.session.value)
  {
    if !h.HasSim() then Err(NoSimulation) else Ok(Staging.GetNumG(h.session.value))
  }

  /** Setting a count then reading it gives the truncated value back. */
  lemma NumGRoundTrip(h: Handle, n: Scalar)
    requires h.HasSim() && n.ToInt() >= 1
    ensures SetNumG(h, n).Ok?
    ensures GetNumG(Handle(Some(SetNumG(h, n).value.sim))) == Ok(n.ToInt())
  {
  }

  /** 81 orders read back as 81; 2.7 orders are truncated to 2 with a notice. */
  lemma NumGExamples(h: Handle)
    requires h.HasSim()
    ensures GetNumG(Handle(Some(SetNumG(h, PyInt(81)).value.sim))) == Ok(81)
    ensures SetNumG(h, PyFloat(2.7)).Ok? && SetNumG(h, PyFloat(2.7)).value.sim.numG == 2
    ensures SetNumG(h, PyFloat(2.7)).value.notices == [Cast(NumG)]
    ensures SetNumG(h, PyFloat(0.5)) == Err(OutOfRange(NumG))
  {
    assert Trunc(2.7) == 2;
    assert Trunc(0.5) == 0;
  }

  // ----------------------------------------------------------------- layers

  /** add_layer: a non-float thickness is cast with a notice; the
      background material must exist. */
  function AddLayer(h: Handle, name: string, thickness: Scalar, background: string): (r: Result<Done, Error>)
    ensures !h.HasSim() ==> r == Err(NoSimulation)
    ensures r.Ok? <==> h.HasSim() && h.session.value.MaterialIndex(background) >= 0
    ensures r.Ok? ==> var s := h.session.value;
              && r.value.sim.layers == s.layers + [Layer(name, thickness.ToReal(), s.MaterialIndex(background), [])]
              && r.value.sim == s.(layers := r.value.sim.layers)
    ensures r.Ok? ==> (r.value.notices == [] <==> thickness.PyFloat?)
  {
    if !h.HasSim() then Err(NoSimulation)
    else
      match Staging.AddLayer(h.session.value, name, thickness.ToReal(), background)
      case Err(e) => Err(e)
      case Ok(s) => Ok(Done(s, CastNotice(!thickness.PyFloat?, Thickness)))
  }

  /** set_layer: adds the layer when the name is new, and otherwise leaves
      the record exactly as it was. */
  function SetLayer(h: Handle, name: string, thickness: Scalar, background: string): (r: Result<Done, Error>)
    ensures !h.HasSim() ==> r == Err(NoSimulation)
    ensures h.HasSim() && h.session.value.LayerIndex(name) >= 0 ==> r.Ok? && r.value.sim == h.session.value
    ensures h.HasSim() && h.session.value.LayerIndex(name) < 0 ==> r == AddLayer(h, name, thickness, background)
  {
    if !h.HasSim() then Err(NoSimulation)
    else
      match Staging.SetLayer(h.session.value, name, thickness.ToReal(), background)
      case Err(e) => Err(e)
      case Ok(s) => Ok(Done(s, CastNotice(!thickness.PyFloat?, Thickness)))
  }

  /** set_layer_thickness. */
  function SetLayerThickness(h: Handle, name: string, thickness: Scalar): (r: Result<Done, Error>)
    ensures !h.HasSim() ==> r == Err(NoSimulation)
    ensures r.Ok? <==> h.HasSim() && h.session.value.LayerIndex(name) >= 0 && thickness.ToReal() >= 0.0
    ensures r.Ok? ==> var s := h.session.value; var k := s.LayerIndex(name);
              && |r.value.sim.layers| == |s.layers|
              && r.value.sim.layers[k] == s.layers[k].(thickness := thickness.ToReal())
              && (forall i :: 0 <= i < |s.layers| && i != k ==> r.value.sim.layers[i] == s.layers[i])
              && r.value.sim == s.(layers := r.value.sim.layers)
    ensures r.Ok? ==> (r.value.notices == [] <==> thickness.PyFloat?)
  {
    if !h.HasSim() then Err(NoSimulation)
    else
      match Staging.SetLayerThickness(h.session.value, name, thickness.ToReal())
      case Err(e) => Err(e)
      case Ok(s) => Ok(Done(s, CastNotice(!thickness.PyFloat?, Thickness)))
  }

  // ------------------------------------------------------------- patterning

  /** A raw 2-vector after NaN entries are zeroed. */
  function CleanPair(a: RawArray): Vec2
    requires |a.data| >= 2
  {
    Vec2(ZeroNaN(a.data[0]), ZeroNaN(a.data[1]))
  }

  /** t is s with one region of this material, centre and shape appended to
      the named layer, and nothing else changed. */
  predicate Appended(s: Sim, t: Sim, layer: string, material: string, center: Vec2, shape: Shape) {
    && s.MaterialIndex(material) >= 0
    && Staging.Extends(s, t, s.LayerIndex(layer), Region(s.MaterialIndex(material), center, shape))
  }

  /** set_layer_pattern_circle: a negative radius is refused; the circle is
      stored as an unrotated ellipse. */
  function SetLayerPatternCircle(h: Handle, layer: string, material: string, center: RawArray, radius: Scalar): (r: Result<Done, Error>)
    ensures !h.HasSim() ==> r == Err(NoSimulation)
    ensures r.Ok? <==> h.HasSim() && center.shape == [2] && radius.ToReal() >= 0.0 &&
                       h.session.value.LayerIndex(layer) >= 0 && h.session.value.MaterialIndex(material) >= 0
    ensures h.HasSim() && center.shape == [2] && radius.ToReal() < 0.0 ==> r == Err(OutOfRange(Radius))
    ensures r.Ok? ==> |center.data| == 2
    ensures r.Ok? ==>
              Appended(h.session.value, r.value.sim, layer, material, CleanPair(center),
                       Ellipse(Vec2(radius.ToReal(), radius.ToReal()), None))
    ensures r.Ok? ==> r.value.notices == NanWarning(center, Center) + CastNotice(!radius.PyFloat?, Radius)
  {
    if !h.HasSim() then Err(NoSimulation)
    else
      match CheckVector(center, 2, Center)
      case Err(e) => Err(e)
      case Ok(c) =>
        var rad := radius.ToReal();
        if rad < 0.0 then Err(OutOfRange(Radius))
        else
          match Staging.SetLayerPatternCircle(h.session.value, layer, material, c.buffer, rad)
          case Err(e) => Err(e)
          case Ok(s) => Ok(Done(s, NanNotice(c, Center) + CastNotice(!radius.PyFloat?, Radius)))
  }

  /** set_layer_pattern_ellipse: the angle becomes a rotation fraction. */
  function SetLayerPatternEllipse(h: Handle, layer: string, material: string, center: RawArray,
                                  halfwidths: RawArray, angle: real, useRadians: bool): (r: Result<Done, Error>)
    ensures !h.HasSim() ==> r == Err(NoSimulation)
    ensures r.Ok? <==> h.HasSim() && center.shape == [2] && halfwidths.shape == [2] &&
                       h.session.value.LayerIndex(layer) >= 0 && h.session.value.MaterialIndex(material) >= 0
    ensures r.Ok? ==> |center.data| == 2 && |halfwidths.data| == 2
    ensures r.Ok? ==>
              Appended(h.session.value, r.value.sim, layer, material, CleanPair(center),
                       Ellipse(CleanPair(halfwidths), Some(Units.RotationFraction(angle, useRadians))))
    ensures r.Ok? ==> r.value.notices == NanWarning(center, Center) + NanWarning(halfwidths, Halfwidths)
  {
    if !h.HasSim() then Err(NoSimulation)
    else
      match CheckVector(center, 2, Center)
      case Err(e) => Err(e)
      case Ok(c) =>
        match CheckVector(halfwidths, 2, Halfwidths)
        case Err(e) => Err(e)
        case Ok(hw) =>
          var fraction := Units.RotationFraction(angle, useRadians);
          match Staging.SetLayerPatternEllipse(h.session.value, layer, material, c.buffer, fraction, hw.buffer)
          case Err(e) => Err(e)
          case Ok(s) => Ok(Done(s, NanNotice(c, Center) + NanNotice(hw, Halfwidths)))
  }

  /** set_layer_pattern_rectangle: an interval when, after NaN zeroing, the
      y centre and the y halfwidth are both zero. */
  function SetLayerPatternRectangle(h: Handle, layer: string, material: string, center: RawArray,
                                    halfwidths: RawArray, angle: real, useRadians: bool): (r: Result<Done, Error>)
    ensures !h.HasSim() ==> r == Err(NoSimulation)
    ensures r.Ok? <==> h.HasSim() && center.shape == [2] && halfwidths.shape == [2] &&
                       h.session.value.LayerIndex(layer) >= 0 && h.session.value.MaterialIndex(material) >= 0
    ensures r.Ok? ==> |center.data| == 2 && |halfwidths.data| == 2
    ensures r.Ok? ==>
              var c := CleanPair(center);
              var hw := CleanPair(halfwidths);
              var fraction := Some(Units.RotationFraction(angle, useRadians));
              Appended(h.session.value, r.value.sim, layer, material, c,
                       if c.y == 0.0 && hw.y == 0.0 then Interval(hw, fraction) else Rectangle(hw, fraction))
    ensures r.Ok? ==> r.value.notices == NanWarning(center, Center) + NanWarning(halfwidths, Halfwidths)
  {
    if !h.HasSim() then Err(NoSimulation)
    else
      match CheckVector(center, 2, Center)
      case Err(e) => Err(e)
      case Ok(c) =>
        match CheckVector(halfwidths, 2, Halfwidths)
        case Err(e) => Err(e)
        case Ok(hw) =>
          var fraction := Units.RotationFraction(angle, useRadians);
          match Staging.SetLayerPatternRectangle(h.session.value, layer, material, c.buffer, fraction, hw.buffer)
          case Err(e) => Err(e)
          case Ok(s) => Ok(Done(s, NanNotice(c, Center) + NanNotice(hw, Halfwidths)))
  }

  /** The vertices of an (n, 2) buffer as points. */
  function VertexPoints(b: Buffer): (r: seq<Geometry.Point>)
    requires b.Rank() == 2 && b.shape[1] == 2
    ensures |r| == b.shape[0] && |b.data| == 2 * |r|
    ensures forall i :: 0 <= i < |r| ==> r[i] == Geometry.Point(b.data[2 * i], b.data[2 * i + 1])
  {
    MatrixSize(b.shape);
    seq(b.shape[0], i requires 0 <= i < b.shape[0] => Geometry.Point(b.data[2 * i], b.data[2 * i + 1]))
  }

  /** The winding test as the wrapper applies it to raw vertices. */
  predicate CounterClockwise(vertices: RawArray)
    requires vertices.Rank() == 2 && vertices.shape[1] == 2
  {
    var pts := VertexPoints(Sanitize(vertices).buffer);
    |pts| > 0 && Geometry.LoopSum(pts) >= 0.0
  }

  /** set_layer_pattern_polygon: an (n, 2) vertex array whose closed
      shoelace sum is not negative. */
  function SetLayerPatternPolygon(h: Handle, layer: string, material: string, center: RawArray,
                                  vertices: RawArray, angle: real, useRadians: bool): (r: Result<Done, Error>)
    ensures !h.HasSim() ==> r == Err(NoSimulation)
    ensures r.Ok? <==> h.HasSim() && center.shape == [2] && vertices.Rank() == 2 && vertices.shape[1] == 2 &&
                       CounterClockwise(vertices) &&
                       h.session.value.LayerIndex(layer) >= 0 && h.session.value.MaterialIndex(material) >= 0
    ensures h.HasSim() && center.shape == [2] && vertices.Rank() == 2 && vertices.shape == [0, 2] ==>
              r == Err(EmptyPolygon)
    ensures r.Ok? ==> |center.data| == 2
    ensures r.Ok? ==>
              Appended(h.session.value, r.value.sim, layer, material, CleanPair(center),
                       Polygon(vertices.shape[0], Sanitize(vertices).buffer.data,
                               Some(Units.RotationFraction(angle, useRadians))))
    ensures r.Ok? ==> r.value.notices == NanWarning(center, Center) + NanWarning(vertices, Vertices)
  {
    if !h.HasSim() then Err(NoSimulation)
    else
      match CheckVector(center, 2, Center)
      case Err(e) => Err(e)
      case Ok(c) =>
        if vertices.Rank() != 2 then Err(BadShape(Vertices))
        else if vertices.shape[1] != 2 then Err(BadShape(Vertices))
        else
          var v := Sanitize(vertices);
          match Geometry.CheckWinding(VertexPoints(v.buffer))
          case Err(e) => Err(e)
          case Ok(_) =>
            var fraction := Units.RotationFraction(angle, useRadians);
            match Staging.SetLayerPatternPolygon(h.session.value, layer, material, c.buffer, v.buffer, fraction)
            case Err(e) => Err(e)
            case Ok(s) => Ok(Done(s, NanNotice(c, Center) + NanNotice(v, Vertices)))
  }

  /** The corners of a registered polygon, read back from its flat
      coordinate list. */
  function Corners(shape: Shape): seq<Geometry.Point>
    requires shape.Polygon? && |shape.vertices| == 2 * shape.nvert
  {
    seq(shape.nvert, i requires 0 <= i < shape.nvert =>
          Geometry.Point(shape.vertices[2 * i], shape.vertices[2 * i + 1]))
  }

  /** A registered shape that is a polygon with at least one corner and a
      non-negative closed shoelace sum. */
  predicate RegisteredCounterClockwise(shape: Shape) {
    && shape.Polygon? && shape.nvert > 0 && |shape.vertices| == 2 * shape.nvert
    && Geometry.LoopSum(Corners(shape)) >= 0.0
  }

  /** The polygon the staging layer registers reads back, corner by
      corner, as the (n, 2) vertex array it was given. */
  lemma {:induction false} RegisteredCornersAreVertices(s: Sim, layer: string, material: string, center: Buffer,
                                                        vertices: Buffer, angle: real)
    requires |center.data| >= 2 && vertices.Rank() == 2 && vertices.shape[1] == 2
    ensures var r := Staging.SetLayerPatternPolygon(s, layer, material, center, vertices, angle);
            r.Ok? ==>
            var k := s.LayerIndex(layer);
            0 <= k < |r.value.layers| && |r.value.layers[k].regions| > 0 &&
            var shape := Staging.Newest(r.value.layers[k]).shape;
            shape.Polygon? && |shape.vertices| == 2 * shape.nvert && Corners(shape) == VertexPoints(vertices)
  {
    var r := Staging.SetLayerPatternPolygon(s, layer, material, center, vertices, angle);
    if r.Ok? {
      var shape := Staging.Newest(r.value.layers[s.LayerIndex(layer)]).shape;
      assert Corners(shape) == VertexPoints(vertices);
    }
  }

  /** The backend never receives a clockwise polygon: the flat vertex list
      a successful set_layer_pattern_polygon registers, read back as
      points, has a non-negative closed shoelace sum. */
  lemma {:induction false} RegisteredPolygonCounterClockwise(h: Handle, layer: string, material: string,
                                                             center: RawArray, vertices: RawArray,
                                                             angle: real, useRadians: bool)
    ensures var r := SetLayerPatternPolygon(h, layer, material, center, vertices, angle, useRadians);
            r.Ok? ==>
            var t := r.value.sim;
            var k := h.session.value.LayerIndex(layer);
            0 <= k < |t.layers| && |t.layers[k].regions| > 0 &&
            RegisteredCounterClockwise(Staging.Newest(t.layers[k]).shape)
  {
    var r := SetLayerPatternPolygon(h, layer, material, center, vertices, angle, useRadians);
    if r.Ok? {
      var c := CheckVector(center, 2, Center).value;
      RegisteredCornersAreVertices(h.session.value, layer, material, c.buffer, Sanitize(vertices).buffer,
                                   Units.RotationFraction(angle, useRadians));
    }
  }

  // ------------------------------------------------------------- excitation

  /** set_excitation_planewave: three checked 2-vectors, an order of at
      least 1 (cast with a notice when not an int), degrees converted to
      radians unless `useRadians`; the backend receives the 0-based order. */
  function SetExcitationPlaneWave(h: Handle, angle: RawArray, polS: RawArray, polP: RawArray,
                                  order: Scalar, useRadians: bool, status: int): (r: Result<Done, Error>)
    ensures !h.HasSim() ==> r == Err(NoSimulation)
    ensures r.Ok? <==> h.HasSim() && angle.shape == [2] && polS.shape == [2] && polP.shape == [2] &&
                       order.ToInt() >= 1 && status == 0
    ensures h.HasSim() && angle.shape == [2] && polS.shape == [2] && polP.shape == [2] && order.ToInt() < 1 ==>
              r == Err(OutOfRange(Order))
    ensures r.Ok? ==> !r.value.sim.solved && r.value.sim.excitation.Some?
    ensures r.Ok? ==> r.value.sim.excitation.value.order == order.ToInt() - 1
    ensures r.Ok? ==> |angle.data| == 2 && |polS.data| == 2 && |polP.data| == 2
    ensures r.Ok? ==>
              var w := Units.ExcitationRadians(
                Units.PlaneWaveAngles(Sanitize(angle).buffer.data, Sanitize(polS).buffer.data, Sanitize(polP).buffer.data),
                useRadians);
              r.value.sim.excitation.value.angle == w.angle &&
              r.value.sim.excitation.value.polS == w.polS &&
              r.value.sim.excitation.value.polP == w.polP
    ensures r.Ok? ==> r.value.sim == h.session.value.(excitation := r.value.sim.excitation, solved := false)
    ensures r.Ok? ==> r.value.notices == NanWarning(angle, Angle) + NanWarning(polS, PolS) + NanWarning(polP, PolP) +
                                         CastNotice(!order.IsInt(), Order)
  {
    if !h.HasSim() then Err(NoSimulation)
    else
      match CheckVector(angle, 2, Angle)
      case Err(e) => Err(e)
      case Ok(a) =>
        match CheckVector(polS, 2, PolS)
        case Err(e) => Err(e)
        case Ok(ps) =>
          match CheckVector(polP, 2, PolP)
          case Err(e) => Err(e)
          case Ok(pp) =>
            var o := order.ToInt();
            if o < 1 then Err(OutOfRange(Order))
            else
              var w := Units.ExcitationRadians(Units.PlaneWaveAngles(a.buffer.data, ps.buffer.data, pp.buffer.data), useRadians);
              var out := Staging.SetExcitationPlaneWave(h.session.value, NdArray([2], w.angle), NdArray([2], w.polS),
                                                        NdArray([2], w.polP), o, status);
              match out.status
              case Err(e) => Err(e)
              case Ok(_) =>
                Ok(Done(out.sim, NanNotice(a, Angle) + NanNotice(ps, PolS) + NanNotice(pp, PolP) +
                                 CastNotice(!order.IsInt(), Order)))
  }

  // ------------------------------------------------------- argument aliasing

  /** An array argument as the caller passes it.  For a float64 C-contiguous
      numpy array, `inPlace` holds: neither np.asarray nor np.require copies
      it, so the wrapper's writes reach the caller's own array.  A list, an
      array of another dtype or a strided view is copied first. */
  datatype Arg = Arg(value: RawArray, inPlace: bool)

  /** The caller's argument after the wrapper wrote `values` into the array
      it works on. */
  function Written(a: Arg, values: seq<real>): (r: Arg)
    requires |values| == |a.value.data|
    ensures r.inPlace == a.inPlace && r.value.shape == a.value.shape
    ensures !a.inPlace ==> r == a
    ensures a.inPlace ==> forall i :: 0 <= i < |values| ==> r.value.data[i] == Num(values[i])
  {
    if a.inPlace then Arg(NdArray(a.value.shape, seq(|values|, i requires 0 <= i < |values| => Num(values[i]))), true)
    else a
  }

  /** set_excitation_planewave as written, seen from the caller: once the
      order check has passed, each in-place argument holds its NaN-zeroed
      values, converted to radians in degree mode. */
  function ExcitationArgsAfter(angle: Arg, polS: Arg, polP: Arg, useRadians: bool): (r: (Arg, Arg, Arg))
    requires angle.value.shape == [2] && polS.value.shape == [2] && polP.value.shape == [2]
    ensures |angle.value.data| == 2 && r.0.value.shape == [2] && |r.0.value.data| == 2
    ensures !angle.inPlace && !polS.inPlace && !polP.inPlace ==> r == (angle, polS, polP)
    ensures angle.inPlace && !useRadians ==>
              forall k :: 0 <= k < 2 ==> r.0.value.data[k] == Num(ZeroNaN(angle.value.data[k]) * (Pi / 180.0))
    ensures useRadians && angle.inPlace ==> forall k :: 0 <= k < 2 ==> r.0.value.data[k] == Num(ZeroNaN(angle.value.data[k]))
  {
    VectorSize(angle.value.shape);
    VectorSize(polS.value.shape);
    VectorSize(polP.value.shape);
    var w := Units.ExcitationRadians(
      Units.PlaneWaveAngles(Sanitize(angle.value).buffer.data, Sanitize(polS.value).buffer.data,
                            Sanitize(polP.value).buffer.data),
      useRadians);
    (Written(angle, w.angle), Written(polS, w.polS), Written(polP, w.polP))
  }

  /** The angles a caller asks for, as a float64 array (used in place). */
  function Degrees(phi: real, theta: real): Arg {
    Arg(NdArray([2], [Num(phi), Num(theta)]), true)
  }

  /** Calling set_excitation_planewave twice with the same float64 angle
      array converts it twice: the second plane wave is tilted by
      phi * (pi/180)^2 instead of phi * pi/180. */
  lemma {:induction false} RepeatedExcitationCompounds(h: Handle)
    requires h.HasSim()
    ensures var angle := Degrees(30.0, 0.0);
            var sPol := Degrees(1.0, 0.0);
            var pPol := Degrees(0.0, 0.0);
            var first := SetExcitationPlaneWave(h, angle.value, sPol.value, pPol.value, PyInt(1), false, 0);
            var after := ExcitationArgsAfter(angle, sPol, pPol, false);
            && first.Ok?
            && var second := SetExcitationPlaneWave(Handle(Some(first.value.sim)), after.0.value, after.1.value,
                                                    after.2.value, PyInt(1), false, 0);
            && second.Ok?
            && first.value.sim.excitation.value.angle[0] == 30.0 * (Pi / 180.0)
            && second.value.sim.excitation.value.angle[0] == 30.0 * (Pi / 180.0) * (Pi / 180.0)
            && second.value.sim.excitation.value.angle[0] != first.value.sim.excitation.value.angle[0]
  {
    var d := Pi / 180.0;
    assert 0.0 < d < 1.0;
    assert 30.0 * d * d < 30.0 * d;
  }

  /** As intended, the wrapper works on copies, as SetExcitationPlaneWave
      models it: repeating a call with the caller's unchanged arguments
      stores the same excitation again and changes nothing else. */
  lemma {:induction false} RepeatedExcitationIsStable(h: Handle, angle: RawArray, polS: RawArray, polP: RawArray,
                                                      order: Scalar, useRadians: bool)
    ensures var r := SetExcitationPlaneWave(h, angle, polS, polP, order, useRadians, 0);
            r.Ok? ==>
            var first := r.value;
            var second := SetExcitationPlaneWave(Handle(Some(first.sim)), angle, polS, polP, order, useRadians, 0);
            && second.Ok?
            && second.value.sim == first.sim
            && second.value.notices == first.notices
  {
  }

  // -------------------------------------------------------------- frequency

  /** set_frequency: the imaginary part is checked first, by the wrapper;
      the real part is then checked by the staging layer. */
  function SetFrequency(h: Handle, re: Scalar, im: Scalar): (r: Result<Done, Error>)
    ensures !h.HasSim() ==> r == Err(NoSimulation)
    ensures r.Ok? <==> h.HasSim() && re.ToReal() > 0.0 && im.ToReal() <= 0.0
    ensures h.HasSim() && im.ToReal() > 0.0 ==> r == Err(OutOfRange(FreqImag))
    ensures h.HasSim() && im.ToReal() <= 0.0 && re.ToReal() <= 0.0 ==> r == Err(OutOfRange(FreqReal))
    ensures r.Ok? ==> r.value.sim == h.session.value.(frequency := Some(Frequency(re.ToReal(), im.ToReal())))
    ensures r.Ok? ==> r.value.notices == CastNotice(!re.PyFloat?, FreqReal) + CastNotice(!im.PyFloat?, FreqImag)
  {
    if !h.HasSim() then Err(NoSimulation)
    else if im.ToReal() > 0.0 then Err(OutOfRange(FreqImag))
    else
      match Staging.SetFrequency(h.session.value, re.ToReal(), im.ToReal())
      case Err(e) => Err(e)
      case Ok(s) => Ok(Done(s, CastNotice(!re.PyFloat?, FreqReal) + CastNotice(!im.PyFloat?, FreqImag)))
  }

  /** A real frequency is accepted; a gain (positive imaginary part) and a
      non-positive real part are refused, the former first. */
  lemma FrequencyExamples(h: Handle)
    requires h.HasSim()
    ensures SetFrequency(h, PyFloat(1.0), PyFloat(0.0)).Ok?
    ensures SetFrequency(h, PyInt(2), PyFloat(-0.5)).value.notices == [Cast(FreqReal)]
    ensures SetFrequency(h, PyFloat(1.0), PyFloat(0.1)) == Err(OutOfRange(FreqImag))
    ensures SetFrequency(h, PyFloat(0.0), PyFloat(0.1)) == Err(OutOfRange(FreqImag))
    ensures SetFrequency(h, PyFloat(0.0), PyFloat(0.0)) == Err(OutOfRange(FreqReal))
  {
  }

  /** The wrapper's frequency check and the staging layer's accept the same
      values and store them alike; they differ only in which error a value
      with both parts out of range reports. */
  lemma FrequencyChecksAgree(h: Handle, re: Scalar, im: Scalar)
    requires h.HasSim()
    ensures var front := SetFrequency(h, re, im);
            var back := Staging.SetFrequency(h.session.value, re.ToReal(), im.ToReal());
            && (front.Ok? <==> back.Ok?)
            && (front.Ok? ==> front.value.sim == back.value)
            && (front.Err? && front.error != back.error <==>
                  re.ToReal() <= 0.0 && im.ToReal() > 0.0)
  {
  }

  // ---------------------------------------------------------------- options

  /** The use_* methods: a non-bool is cast with bool() and a notice. */
  function Use(h: Handle, t: Toggle, use: Scalar): (r: Result<Done, Error>)
    ensures r.Ok? <==> h.HasSim()
    ensures r.Err? ==> r.error == NoSimulation
    ensures r.Ok? ==> (t in r.value.sim.options <==> use.ToBool())
    ensures r.Ok? ==> forall u :: u != t ==> (u in r.value.sim.options <==> u in h.session.value.options)
    ensures r.Ok? ==> r.value.sim == h.session.value.(options := r.value.sim.options)
    ensures r.Ok? ==> (r.value.notices == [] <==> use.PyBool?)
  {
    if !h.HasSim() then Err(NoSimulation)
    else Ok(Done(Staging.Use(h.session.value, t, use.ToBool()), CastNotice(!use.PyBool?, Param.Use)))
  }

  /** set_resolution: cast to int, refused below 2, otherwise no effect. */
  function SetResolution(h: Handle, resolution: Scalar): (r: Result<Done, Error>)
    ensures !h.HasSim() ==> r == Err(NoSimulation)
    ensures r.Ok? <==> h.HasSim() && resolution.ToInt() >= 2
    ensures r.Ok? ==> r.value.sim == h.session.value
    ensures r.Ok? ==> r.value.notices == CastNotice(!resolution.IsInt(), Resolution)
  {
    if !h.HasSim() then Err(NoSimulation)
    else
      match Staging.SetResolution(h.session.value, resolution.ToInt())
      case Err(e) => Err(e)
      case Ok(s) => Ok(Done(s, CastNotice(!resolution.IsInt(), Resolution)))
  }

  /** set_resolution has no lasting effect: accepted or refused, whatever
      the value, the object afterwards is exactly the object before. */
  lemma ResolutionHasNoEffect(h: Handle, resolution: Scalar)
    ensures Apply(h, ResolutionCmd(resolution)) == h
  {
  }

  // ---------------------------------------------------------------- queries

  /** A query's answer: the record afterwards, the values and notices. */
  datatype Reading<T> = Reading(sim: Sim, value: T, notices: seq<Notice>)

  /** get_poynting_flux: `status` and `power` stand for the solver. */
  function GetPoyntingFlux(h: Handle, layer: string, offset: Scalar, status: int, power: seq<real>): (r: Result<Reading<seq<real>>, Error>)
    requires |power| == 4
    ensures !h.HasSim() ==> r == Err(NoSimulation)
    ensures r.Ok? <==> h.HasSim() && h.session.value.LayerIndex(layer) >= 0 && status == 0
    ensures r.Ok? ==> r.value.value == power && r.value.notices == CastNotice(!offset.PyFloat?, Offset)
  {
    if !h.HasSim() then Err(NoSimulation)
    else
      match Staging.GetPoyntingFlux(h.session.value, layer, status, power)
      case Err(e) => Err(e)
      case Ok(a) => Ok(Reading(a.sim, a.values, CastNotice(!offset.PyFloat?, Offset)))
  }

  /** get_field_at_point as written: the point is shape-checked but not
      sanitised, and the H it returns is a copy of E. */
  function GetFieldAtPoint(h: Handle, point: RawArray, status: int, e: seq<real>, hf: seq<real>): (r: Result<Reading<Decode.Fields>, Error>)
    requires |e| == 6 && |hf| == 6
    ensures !h.HasSim() ==> r == Err(NoSimulation)
    ensures r.Ok? <==> h.HasSim() && point.shape == [3] && status == 0
    ensures r.Ok? ==> |r.value.value.e| == 3 && forall k :: 0 <= k < 3 ==> r.value.value.e[k] == Complex(e[k], e[3 + k])
    ensures r.Ok? ==> r.value.value.h == r.value.value.e
  {
    if !h.HasSim() then Err(NoSimulation)
    else if point.Rank() != 1 || point.shape[0] != 3 then Err(BadShape(FieldPoint))
    else
      match Staging.GetFieldAtPoint(h.session.value, point, status, e, hf)
      case Err(err) => Err(err)
      case Ok(a) => Ok(Reading(a.sim, Decode.FieldAtPoint(a.values), []))
  }

  /** get_field_at_point with H decoded from the backend's last six values. */
  function IntendedGetFieldAtPoint(h: Handle, point: RawArray, status: int, e: seq<real>, hf: seq<real>): (r: Result<Reading<Decode.Fields>, Error>)
    requires |e| == 6 && |hf| == 6
    ensures !h.HasSim() ==> r == Err(NoSimulation)
    ensures r.Ok? <==> h.HasSim() && point.shape == [3] && status == 0
    ensures r.Ok? ==> |r.value.value.e| == 3 && forall k :: 0 <= k < 3 ==> r.value.value.e[k] == Complex(e[k], e[3 + k])
    ensures r.Ok? ==> |r.value.value.h| == 3 && forall k :: 0 <= k < 3 ==> r.value.value.h[k] == Complex(hf[k], hf[3 + k])
  {
    if !h.HasSim() then Err(NoSimulation)
    else if point.Rank() != 1 || point.shape[0] != 3 then Err(BadShape(FieldPoint))
    else
      match Staging.GetFieldAtPoint(h.session.value, point, status, e, hf)
      case Err(err) => Err(err)
      case Ok(a) => Ok(Reading(a.sim, Decode.IntendedFieldAtPoint(a.values), []))
  }

  // --------------------------------------------------------------- sessions

  /** Every state-changing method of the class, with the values that stand
      for foreign input (uninitialised permittivity entries and solver
      status codes). */
  datatype Command =
    | NewSession
    | AddMaterialCmd(name: string, eps: RawArray, stale: Block18)
    | SetMaterialCmd(name: string, eps: RawArray, stale: Block18)
    | SetLatticeCmd(bv: RawArray, status: int)
    | SetNumGCmd(n: Scalar)
    | AddLayerCmd(name: string, thickness: Scalar, background: string)
    | SetLayerCmd(name: string, thickness: Scalar, background: string)
    | SetLayerThicknessCmd(name: string, thickness: Scalar)
    | CircleCmd(layer: string, material: string, center: RawArray, radius: Scalar)
    | EllipseCmd(layer: string, material: string, center: RawArray, halfwidths: RawArray, angle: real, useRadians: bool)
    | RectangleCmd(layer: string, material: string, center: RawArray, halfwidths: RawArray, angle: real, useRadians: bool)
    | PolygonCmd(layer: string, material: string, center: RawArray, vertices: RawArray, angle: real, useRadians: bool)
    | ExcitationCmd(angles: RawArray, polS: RawArray, polP: RawArray, order: Scalar, useRadians: bool, status: int)
    | FrequencyCmd(re: Scalar, im: Scalar)
    | UseCmd(toggle: Toggle, use: Scalar)
    | ResolutionCmd(resolution: Scalar)

  /** The command's effect on a handle that already has a record. */
  function Dispatch(h: Handle, c: Command): Result<Done, Error> {
    match c
    case NewSession => Ok(Done(CreateNew(h).session.value, []))
    case AddMaterialCmd(name, eps, stale) => AddMaterial(h, name, eps, stale)
    case SetMaterialCmd(name, eps, stale) => SetMaterial(h, name, eps, stale)
    case SetLatticeCmd(bv, status) => SetLattice(h, bv, status)
    case SetNumGCmd(n) => SetNumG(h, n)
    case AddLayerCmd(name, t, bg) => AddLayer(h, name, t, bg)
    case SetLayerCmd(name, t, bg) => SetLayer(h, name, t, bg)
    case SetLayerThicknessCmd(name, t) => SetLayerThickness(h, name, t)
    case CircleCmd(l, m, c0, rad) => SetLayerPatternCircle(h, l, m, c0, rad)
    case EllipseCmd(l, m, c0, hw, a, u) => SetLayerPatternEllipse(h, l, m, c0, hw, a, u)
    case RectangleCmd(l, m, c0, hw, a, u) => SetLayerPatternRectangle(h, l, m, c0, hw, a, u)
    case PolygonCmd(l, m, c0, v, a, u) => SetLayerPatternPolygon(h, l, m, c0, v, a, u)
    case ExcitationCmd(a, ps, pp, o, u, st) => SetExcitationPlaneWave(h, a, ps, pp, o, u, st)
    case FrequencyCmd(re, im) => SetFrequency(h, re, im)
    case UseCmd(t, use) => Use(h, t, use)
    case ResolutionCmd(res) => SetResolution(h, res)
  }

  /** Run one command: a failed command leaves the handle as it was. */
  function Apply(h: Handle, c: Command): (r: Handle)
    ensures c.NewSession? ==> r == CreateNew(h)
    ensures !h.HasSim() && !c.NewSession? ==> r == h
    ensures h.HasSim() ==> r.HasSim()
  {
    if c.NewSession? then CreateNew(h)
    else
      match Dispatch(h, c)
      case Err(_) => h
      case Ok(d) => Handle(Some(d.sim))
  }

  /** Before create_new every other command fails with the lifecycle error. */
  lemma GuardBeforeCreate(c: Command)
    requires !c.NewSession?
    ensures Dispatch(Fresh, c) == Err(NoSimulation)
  {
  }

  /** Run a sequence of commands in order. */
  function Run(h: Handle, cs: seq<Command>): Handle
    decreases |cs|
  {
    if |cs| == 0 then h else Run(Apply(h, cs[0]), cs[1..])
  }

  /** Without a create_new, a fresh object never gets a record; once it has
      one it keeps one, whatever follows. */
  lemma {:induction false} RunLifecycle(h: Handle, cs: seq<Command>)
    ensures h.HasSim() ==> Run(h, cs).HasSim()
    ensures !h.HasSim() && (forall i :: 0 <= i < |cs| ==> !cs[i].NewSession?) ==> Run(h, cs) == h
    ensures (exists i :: 0 <= i < |cs| && cs[i].NewSession?) ==> Run(h, cs).HasSim()
    decreases |cs|
  {
    if |cs| > 0 {
      RunLifecycle(Apply(h, cs[0]), cs[1..]);
      if exists i :: 0 <= i < |cs| && cs[i].NewSession? {
        var i :| 0 <= i < |cs| && cs[i].NewSession?;
        if i > 0 {
          assert cs[1..][i - 1].NewSession?;
        }
      }
      if forall i :: 0 <= i < |cs| ==> !cs[i].NewSession? {
        assert forall i :: 0 <= i < |cs[1..]| ==> !cs[1..][i].NewSession?;
      }
    }
  }
}
