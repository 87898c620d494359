/** The C++ staging class PySimulation: it interprets the buffers the Python
    layer hands over, re-checks some of them, picks the backend's type codes
    and forwards the result to the backend record.  Backend calls that can
    fail on their own take their status code as a parameter. */
module Staging {
  import opened Wrappers
  import opened Errors
  import opened Arrays
  import opened State

  /** The lattice and Fourier count the constructor stores and that every
      CreateNew passes to the backend; SetLattice and SetNumG never update
      these two members. */
  const DefaultLattice: seq<real> := [1.0, 0.0, 0.0, 1.0]
  const DefaultNumG: int := 1

  /** CreateNew: a new backend record built from the constructor defaults:
      nothing defined yet, a square lattice of unit period, and the smallest
      Fourier count SetNumG accepts. */
  function CreateNew(): (r: Sim)
    ensures r.materials == [] && r.layers == [] && r.excitation.None? && r.frequency.None?
    ensures r.options == {} && !r.solved
    ensures r.lattice == [1.0, 0.0, 0.0, 1.0] && r.numG == 1
    ensures |r.lattice| == 4
    ensures r.lattice[0] * r.lattice[0] + r.lattice[1] * r.lattice[1] == 1.0
    ensures r.lattice[2] * r.lattice[2] + r.lattice[3] * r.lattice[3] == 1.0
    ensures r.lattice[0] * r.lattice[2] + r.lattice[1] * r.lattice[3] == 0.0
    ensures SetNumG(r, r.numG) == Ok(r) && SetNumG(r, r.numG - 1).Err?
  {
    Sim(DefaultLattice, DefaultNumG, [], [], None, None, {}, false)
  }

  // ---------------------------------------------------------------- SetEPS

  /** Entry (i, j) of a 3x3 complex tensor stored row-major as (re, im). */
  function TensorEntry(d: seq<real>, i: nat, j: nat): Complex
    requires |d| == 18 && i < 3 && j < 3
  {
    Complex(d[(3 * i + j) * 2], d[(3 * i + j) * 2 + 1])
  }

  /** Entry (i, j) of the xy block of the backend's tensor layout. */
  function XYEntry(e: seq<real>, i: nat, j: nat): Complex
    requires |e| == 18 && i < 2 && j < 2
  {
    Complex(e[(2 * i + j) * 2], e[(2 * i + j) * 2 + 1])
  }

  /** The zz entry of the backend's tensor layout. */
  function ZZEntry(e: seq<real>): Complex
    requires |e| == 18
  {
    Complex(e[8], e[9])
  }

  /** The in-place moves of SetEPS's 3-D branch, applied in source order.
      No move reads a position an earlier move has overwritten. */
  function Repack(d: Block18): (r: Block18)
    ensures r[4] == d[6] && r[5] == d[7] && r[6] == d[8] && r[7] == d[9]
    ensures r[8] == d[16] && r[9] == d[17]
    ensures forall i :: 0 <= i < 4 || 10 <= i < 18 ==> r[i] == d[i]
  {
    var e4 := d[4 := d[6]];
    var e5 := e4[5 := e4[7]];
    var e6 := e5[6 := e5[8]];
    var e7 := e6[7 := e6[9]];
    var e8 := e7[8 := e7[16]];
    e8[9 := e8[17]]
  }

  /** Repacking turns a full 3x3 tensor into its xy block followed by zz. */
  lemma RepackIsXYBlockPlusZZ(d: Block18)
    ensures forall i, j | 0 <= i < 2 && 0 <= j < 2 :: XYEntry(Repack(d), i, j) == TensorEntry(d, i, j)
    ensures ZZEntry(Repack(d)) == TensorEntry(d, 2, 2)
  {
    var r := Repack(d);
    assert XYEntry(r, 0, 0) == TensorEntry(d, 0, 0);
    assert XYEntry(r, 0, 1) == TensorEntry(d, 0, 1);
    assert XYEntry(r, 1, 0) == TensorEntry(d, 1, 0);
    assert XYEntry(r, 1, 1) == TensorEntry(d, 1, 1);
  }

  /** SetEPS: a 1-D buffer of 1 or 2 values is a scalar complex permittivity,
      18 values or a 3x3x2 array a tensor; every other shape is refused.
      Entries SetEPS never writes keep whatever `stale` holds (its local
      array is not initialised).  The 9-value branch reads past the end of
      its buffer and is excluded. */
  function SetEps(a: Buffer, stale: Block18): (r: Result<EpsData, Error>)
    requires a.shape != [9]
    ensures r.Ok? <==> a.shape in {[1], [2], [18], [3, 3, 2]}
    ensures r.Err? ==> r.error == BadShape(Eps)
    ensures r.Ok? ==> (r.value.kind == ScalarComplex <==> a.shape in {[1], [2]})
    ensures r.Ok? && a.Rank() == 1 ==>
              forall i :: 0 <= i < 18 ==> r.value.eps[i] == if i < |a.data| then a.data[i] else stale[i]
    ensures r.Ok? && a.Rank() == 3 ==>
              forall i, j | 0 <= i < 2 && 0 <= j < 2 :: XYEntry(r.value.eps, i, j) == TensorEntry(a.data, i, j)
    ensures r.Ok? && a.Rank() == 3 ==> ZZEntry(r.value.eps) == TensorEntry(a.data, 2, 2)
  {
    if a.Rank() == 1 then
      VectorSize(a.shape);
      if a.shape[0] == 1 then Ok(EpsData(stale[0 := a.data[0]], ScalarComplex))
      else if a.shape[0] == 2 then Ok(EpsData(stale[0 := a.data[0]][1 := a.data[1]], ScalarComplex))
      else if a.shape[0] == 18 then Ok(EpsData(a.data, XYTensorComplex))
      else Err(BadShape(Eps))
    else if a.Rank() == 3 then
      if a.shape[0] != 3 || a.shape[1] != 3 || a.shape[2] != 2 then Err(BadShape(Eps))
      else
        assert a.shape == [3, 3, 2];
        assert Product(a.shape) == 18 by {
          assert Product([3, 3, 2]) == 18;
        }
        RepackIsXYBlockPlusZZ(a.data);
        Ok(EpsData(Repack(a.data), XYTensorComplex))
    else Err(BadShape(Eps))
  }

  /** AddMaterial: append a new material (the backend's index -1). */
  function AddMaterial(s: Sim, name: string, a: Buffer, stale: Block18): (r: Result<Sim, Error>)
    requires a.shape != [9]
    ensures r.Ok? <==> a.shape in {[1], [2], [18], [3, 3, 2]}
    ensures r.Ok? ==> r.value == s.(materials := s.materials + [Material(name, SetEps(a, stale).value)])
  {
    match SetEps(a, stale)
    case Err(e) => Err(e)
    case Ok(eps) => Ok(s.(materials := s.materials + [Material(name, eps)]))
  }

  /** SetMaterial: overwrite the first material with this name, or append a
      new one when there is none. */
  function SetMaterial(s: Sim, name: string, a: Buffer, stale: Block18): (r: Result<Sim, Error>)
    requires a.shape != [9]
    ensures r.Ok? <==> a.shape in {[1], [2], [18], [3, 3, 2]}
    ensures r.Ok? ==> var k := s.MaterialIndex(name);
              && |r.value.materials| == |s.materials| + (if k < 0 then 1 else 0)
              && r.value.MaterialIndex(name) == (if k < 0 then |s.materials| else k)
              && r.value.materials[r.value.MaterialIndex(name)] == Material(name, SetEps(a, stale).value)
              && (forall i :: 0 <= i < |s.materials| && i != k ==> r.value.materials[i] == s.materials[i])
              && r.value == s.(materials := r.value.materials)
  {
    var k := s.MaterialIndex(name);
    match SetEps(a, stale)
    case Err(e) => Err(e)
    case Ok(eps) =>
      if k < 0 then
        MaterialIndexAppend(s, Material(name, eps));
        Ok(s.(materials := s.materials + [Material(name, eps)]))
      else
        MaterialIndexReplace(s, Material(name, eps));
        Ok(s.(materials := s.materials[k := Material(name, eps)]))
  }

  lemma SetMaterialUnknownIsAdd(s: Sim, name: string, a: Buffer, stale: Block18)
    requires a.shape != [9]
    requires s.MaterialIndex(name) < 0
    ensures SetMaterial(s, name, a, stale) == AddMaterial(s, name, a, stale)
  {
  }

  // ---------------------------------------------------------- SetLattice

  /** The 4-vector SetLattice fills: zero-initialised, then the first
      element of a 1-D buffer or the four elements of a 2-D buffer. */
  function LatticeVector(a: Buffer): (r: seq<real>)
    requires a.Rank() == 1 ==> |a.data| >= 1
    requires a.Rank() == 2 ==> |a.data| >= 4
    ensures |r| == 4
    ensures a.Rank() == 1 ==> r == [a.data[0], 0.0, 0.0, 0.0]
    ensures a.Rank() == 2 ==> r == a.data[..4]
    ensures a.Rank() != 1 && a.Rank() != 2 ==> r == [0.0, 0.0, 0.0, 0.0]
  {
    var zero := [0.0, 0.0, 0.0, 0.0];
    if a.Rank() == 1 then zero[0 := a.data[0]]
    else if a.Rank() == 2 then seq(4, i requires 0 <= i < 4 => a.data[i])
    else zero
  }

  /** SetLattice: `status` is the backend's verdict on the lattice vectors
      (non-zero for degenerate or zero vectors). */
  function SetLattice(s: Sim, a: Buffer, status: int): (r: Result<Sim, Error>)
    requires a.Rank() == 1 ==> |a.data| >= 1
    requires a.Rank() == 2 ==> |a.data| >= 4
    ensures r.Ok? <==> status == 0
    ensures r.Err? ==> r.error == BackendStatus(status)
    ensures r.Ok? ==> r.value == s.(lattice := LatticeVector(a))
  {
    if status != 0 then Err(BackendStatus(status)) else Ok(s.(lattice := LatticeVector(a)))
  }

  // ------------------------------------------------------- SetNumG/GetNumG

  function SetNumG(s: Sim, n: int): (r: Result<Sim, Error>)
    ensures r.Ok? <==> n >= 1
    ensures r.Err? ==> r.error == OutOfRange(NumG)
    ensures r.Ok? ==> r.value == s.(numG := n)
  {
    if n < 1 then Err(OutOfRange(NumG)) else Ok(s.(numG := n))
  }

  /** GetNumG reads back the stored count: writing it back is a no-op. */
  function GetNumG(s: Sim): (r: int)
    ensures r >= 1 ==> SetNumG(s, r) == Ok(s)
    ensures forall n :: n >= 1 && SetNumG(s, n) == Ok(s) ==> n == r
  {
    s.numG
  }

  lemma SetNumGRoundTrip(s: Sim, n: int)
    requires n >= 1
    ensures SetNumG(s, n).Ok? && GetNumG(SetNumG(s, n).value) == n
  {
  }

  // -------------------------------------------------------------- layers

  /** AddLayer: the background material must exist; the layer is appended
      unpatterned.  Neither the name nor the thickness is checked. */
  function AddLayer(s: Sim, name: string, thickness: real, background: string): (r: Result<Sim, Error>)
    ensures r.Ok? <==> s.MaterialIndex(background) >= 0
    ensures r.Err? ==> r.error == UnknownMaterial
    ensures r.Ok? ==> r.value == s.(layers := s.layers + [Layer(name, thickness, s.MaterialIndex(background), [])])
  {
    var m := s.MaterialIndex(background);
    if m < 0 then Err(UnknownMaterial)
    else Ok(s.(layers := s.layers + [Layer(name, thickness, m, [])]))
  }

  /** SetLayer: with an unknown name, as AddLayer; with a known name the
      call does nothing at all. */
  function SetLayer(s: Sim, name: string, thickness: real, background: string): (r: Result<Sim, Error>)
    ensures s.LayerIndex(name) >= 0 ==> r == Ok(s)
    ensures s.LayerIndex(name) < 0 ==> r == AddLayer(s, name, thickness, background)
  {
    var k := s.LayerIndex(name);
    if k < 0 then
      var m := s.MaterialIndex(background);
      if m < 0 then Err(UnknownMaterial)
      else
        var added := s.(layers := s.layers + [Layer(name, thickness, m, [])]);
        var j := |s.layers|;
        // the backend call that sets the thickness of the new layer again
        var again := added.layers[j := added.layers[j].(thickness := thickness)];
        assert again == added.layers;
        Ok(added.(layers := again))
    else Ok(s)
  }

  /** An added layer is the one later by-name lookups find, unless an
      earlier layer already had its name. */
  lemma AddLayerFindable(s: Sim, name: string, thickness: real, background: string)
    requires s.LayerIndex(name) < 0
    requires AddLayer(s, name, thickness, background).Ok?
    ensures var t := AddLayer(s, name, thickness, background).value;
            t.LayerIndex(name) == |s.layers| && t.layers[|s.layers|].thickness == thickness &&
            t.layers[|s.layers|].regions == []
  {
    LayerIndexAppend(s, Layer(name, thickness, s.MaterialIndex(background), []));
  }

  /** SetLayerThickness: the layer must exist and the thickness must not be
      negative; only that layer's thickness changes. */
  function SetLayerThickness(s: Sim, name: string, thickness: real): (r: Result<Sim, Error>)
    ensures r.Ok? <==> s.LayerIndex(name) >= 0 && thickness >= 0.0
    ensures r.Err? ==> r.error == (if s.LayerIndex(name) < 0 then UnknownLayer else OutOfRange(Thickness))
    ensures r.Ok? ==> var k := s.LayerIndex(name);
              && |r.value.layers| == |s.layers|
              && r.value.layers[k] == s.layers[k].(thickness := thickness)
              && (forall i :: 0 <= i < |s.layers| && i != k ==> r.value.layers[i] == s.layers[i])
              && r.value == s.(layers := r.value.layers)
  {
    var k := s.LayerIndex(name);
    if k < 0 then Err(UnknownLayer)
    else if thickness < 0.0 then Err(OutOfRange(Thickness))
    else Ok(s.(layers := s.layers[k := s.layers[k].(thickness := thickness)]))
  }

  /** Setting a thickness leaves the layer's name, material and patterning
      in place, so the layer is still found and reads back the new value. */
  lemma ThicknessRoundTrip(s: Sim, name: string, thickness: real)
    requires SetLayerThickness(s, name, thickness).Ok?
    ensures var t := SetLayerThickness(s, name, thickness).value;
            && t.LayerIndex(name) == s.LayerIndex(name)
            && t.layers[t.LayerIndex(name)].thickness == thickness
            && t.layers[t.LayerIndex(name)].regions == s.layers[s.LayerIndex(name)].regions
  {
    var t := SetLayerThickness(s, name, thickness).value;
    LayerIndexSameNames(s, t, name);
  }

  // ------------------------------------------------------------ patterning

  /** t is s with `region` appended to the patterning of the layer at index
      k; no other layer and no other part of the record differs. */
  predicate Extends(s: Sim, t: Sim, k: int, region: Region) {
    && 0 <= k < |s.layers|
    && |t.layers| == |s.layers|
    && t.layers[k] == s.layers[k].(regions := s.layers[k].regions + [region])
    && (forall i :: 0 <= i < |s.layers| && i != k ==> t.layers[i] == s.layers[i])
    && t == s.(layers := t.layers)
  }

  /** The region registered last on a layer. */
  function Newest(l: Layer): Region
    requires |l.regions| > 0
  {
    l.regions[|l.regions| - 1]
  }

  /** The lookups shared by the four pattern methods (layer first, then
      material), followed by the region registration, which appends the
      region to the layer's patterning. */
  function AddRegion(s: Sim, layer: string, material: string, center: Vec2, shape: Shape): (r: Result<Sim, Error>)
    ensures r.Ok? <==> s.LayerIndex(layer) >= 0 && s.MaterialIndex(material) >= 0
    ensures r.Err? ==> r.error == (if s.LayerIndex(layer) < 0 then UnknownLayer else UnknownMaterial)
    ensures r.Ok? ==> Extends(s, r.value, s.LayerIndex(layer), Region(s.MaterialIndex(material), center, shape))
  {
    var k := s.LayerIndex(layer);
    if k < 0 then Err(UnknownLayer)
    else
      var m := s.MaterialIndex(material);
      if m < 0 then Err(UnknownMaterial)
      else
        var region := Region(m, center, shape);
        Ok(s.(layers := s.layers[k := s.layers[k].(regions := s.layers[k].regions + [region])]))
  }

  /** SetLayerPatternCircle: re-checks the centre, then registers an ellipse
      with both halfwidths equal to the radius and no rotation. */
  function SetLayerPatternCircle(s: Sim, layer: string, material: string, center: Buffer, radius: real): (r: Result<Sim, Error>)
    ensures r.Ok? <==> center.shape == [2] && s.LayerIndex(layer) >= 0 && s.MaterialIndex(material) >= 0
    ensures r.Err? ==> r.error == (if center.shape != [2] then BadShape(Center)
                                   else if s.LayerIndex(layer) < 0 then UnknownLayer else UnknownMaterial)
    ensures r.Ok? ==> |center.data| == 2
    ensures r.Ok? ==>
              Extends(s, r.value, s.LayerIndex(layer),
                      Region(s.MaterialIndex(material), Vec2(center.data[0], center.data[1]),
                             Ellipse(Vec2(radius, radius), None)))
  {
    if center.Rank() != 1 then Err(BadShape(Center))
    else if center.shape[0] != 2 then Err(BadShape(Center))
    else
      VectorSize(center.shape);
      var hw := Vec2(radius, radius);
      AddRegion(s, layer, material, Vec2(center.data[0], center.data[1]), Ellipse(hw, None))
  }

  /** SetLayerPatternRectangle: an interval when the y centre and the y
      halfwidth are both zero, a rectangle otherwise.  Centre and halfwidths
      are read without a shape check. */
  function SetLayerPatternRectangle(s: Sim, layer: string, material: string, center: Buffer,
                                    angle: real, halfwidths: Buffer): (r: Result<Sim, Error>)
    requires |center.data| >= 2 && |halfwidths.data| >= 2
    ensures r.Ok? <==> s.LayerIndex(layer) >= 0 && s.MaterialIndex(material) >= 0
    ensures r.Err? ==> r.error == (if s.LayerIndex(layer) < 0 then UnknownLayer else UnknownMaterial)
    ensures r.Ok? ==>
              var k := s.LayerIndex(layer);
              var c := Vec2(center.data[0], center.data[1]);
              var hw := Vec2(halfwidths.data[0], halfwidths.data[1]);
              && 0 <= k < |r.value.layers|
              && |r.value.layers[k].regions| > 0
              && var shape := Newest(r.value.layers[k]).shape;
              && Extends(s, r.value, k, Region(s.MaterialIndex(material), c, shape))
              && (shape.Interval? || shape.Rectangle?)
              && (shape.Interval? <==> c.y == 0.0 && hw.y == 0.0)
              && shape.halfwidths == hw
              && shape.angle == Some(angle)
  {
    var c := Vec2(center.data[0], center.data[1]);
    var hw := Vec2(halfwidths.data[0], halfwidths.data[1]);
    if c.y == 0.0 && hw.y == 0.0 then AddRegion(s, layer, material, c, Interval(hw, Some(angle)))
    else AddRegion(s, layer, material, c, Rectangle(hw, Some(angle)))
  }

  /** SetLayerPatternEllipse: centre and halfwidths are read without a shape
      check; the ellipse carries the rotation it is given. */
  function SetLayerPatternEllipse(s: Sim, layer: string, material: string, center: Buffer,
                                  angle: real, halfwidths: Buffer): (r: Result<Sim, Error>)
    requires |center.data| >= 2 && |halfwidths.data| >= 2
    ensures r.Ok? <==> s.LayerIndex(layer) >= 0 && s.MaterialIndex(material) >= 0
    ensures r.Err? ==> r.error == (if s.LayerIndex(layer) < 0 then UnknownLayer else UnknownMaterial)
    ensures r.Ok? ==>
              Extends(s, r.value, s.LayerIndex(layer),
                      Region(s.MaterialIndex(material), Vec2(center.data[0], center.data[1]),
                             Ellipse(Vec2(halfwidths.data[0], halfwidths.data[1]), Some(angle))))
  {
    var c := Vec2(center.data[0], center.data[1]);
    AddRegion(s, layer, material, c, Ellipse(Vec2(halfwidths.data[0], halfwidths.data[1]), Some(angle)))
  }

  /** SetLayerPatternPolygon: the (n, 2) vertex array is passed on as the
      flat list x1, y1, ..., xn, yn with n vertices. */
  function SetLayerPatternPolygon(s: Sim, layer: string, material: string, center: Buffer,
                                  vertices: Buffer, angle: real): (r: Result<Sim, Error>)
    requires |center.data| >= 2 && vertices.Rank() == 2
    ensures r.Ok? <==> s.LayerIndex(layer) >= 0 && s.MaterialIndex(material) >= 0
    ensures r.Err? ==> r.error == (if s.LayerIndex(layer) < 0 then UnknownLayer else UnknownMaterial)
    ensures r.Ok? ==>
              var k := s.LayerIndex(layer);
              && 0 <= k < |r.value.layers|
              && |r.value.layers[k].regions| > 0
              && var region := Newest(r.value.layers[k]);
              && Extends(s, r.value, k, region)
              && region.material == s.MaterialIndex(material)
              && region.center == Vec2(center.data[0], center.data[1])
              && region.shape.Polygon?
              && region.shape.nvert == vertices.shape[0]
              && |region.shape.vertices| == vertices.shape[0] * vertices.shape[1]
              && region.shape.vertices == vertices.data
              && region.shape.angle == Some(angle)
  {
    MatrixSize(vertices.shape);
    var flat := vertices.data[..vertices.shape[0] * vertices.shape[1]];
    assert flat == vertices.data;
    AddRegion(s, layer, material, Vec2(center.data[0], center.data[1]),
              Polygon(vertices.shape[0], flat, Some(angle)))
  }

  /** A circle is stored exactly as an unrotated ellipse of equal halfwidths:
      it registers the same region as the ellipse method given the radius as
      both halfwidths, except for the rotation, which the circle leaves out. */
  lemma CircleIsEllipse(s: Sim, layer: string, material: string, center: Buffer, radius: real, angle: real)
    requires center.shape == [2]
    ensures var circle := SetLayerPatternCircle(s, layer, material, center, radius);
            var ellipse := SetLayerPatternEllipse(s, layer, material, center, angle, NdArray([2], [radius, radius]));
            && (circle.Ok? <==> ellipse.Ok?)
            && (circle.Ok? ==>
                  var k := s.LayerIndex(layer);
                  && Newest(circle.value.layers[k]).shape == Ellipse(Vec2(radius, radius), None)
                  && Newest(ellipse.value.layers[k]).shape == Ellipse(Vec2(radius, radius), Some(angle))
                  && circle.value == ellipse.value.(layers := circle.value.layers))
  {
    VectorSize(center.shape);
  }

  /** The rectangle method picks the interval type exactly for a rectangle
      lying on the x axis with no y extent, and registers nothing else
      differently: any non-zero y centre or y halfwidth selects the
      rectangle type with the same halfwidths and rotation. */
  lemma RectangleOnAxisIsInterval(s: Sim, layer: string, material: string,
                                   x: real, y: real, w: real, yw: real, angle: real)
    requires s.LayerIndex(layer) >= 0 && s.MaterialIndex(material) >= 0
    ensures var k := s.LayerIndex(layer);
            var flat := SetLayerPatternRectangle(s, layer, material, NdArray([2], [x, 0.0]), angle, NdArray([2], [w, 0.0]));
            var off := SetLayerPatternRectangle(s, layer, material, NdArray([2], [x, y]), angle, NdArray([2], [w, yw]));
            && flat.Ok? && off.Ok?
            && Newest(flat.value.layers[k]).shape == Interval(Vec2(w, 0.0), Some(angle))
            && (y != 0.0 || yw != 0.0 ==> Newest(off.value.layers[k]).shape == Rectangle(Vec2(w, yw), Some(angle)))
  {
  }

  // ------------------------------------------------------------ excitation

  /** The record after a call that changes it even when it fails, and
      whether it failed. */
  datatype Outcome = Outcome(sim: Sim, status: Result<(), Error>)

  /** SetExcitationPlaneWave: discard the cached solution (also when the
      call then fails), re-check the three 2-vectors, shift a positive order
      from 1-based to 0-based, then pass everything on; `status` is the
      backend's return code. */
  function SetExcitationPlaneWave(s: Sim, angle: Buffer, polS: Buffer, polP: Buffer,
                                  order: int, status: int): (r: Outcome)
    ensures r.status.Ok? <==> angle.shape == [2] && polS.shape == [2] && polP.shape == [2] && status == 0
    ensures angle.shape != [2] ==> r.status == Err(BadShape(Angle))
    ensures !r.sim.solved
    ensures r.status.Err? ==> r.sim == s.(solved := false)
    ensures r.status.Ok? ==> r.sim.excitation.Some?
    ensures r.status.Ok? ==> r.sim.excitation.value.order == (if order > 0 then order - 1 else order)
    ensures r.status.Ok? ==> r.sim.excitation.value.angle == angle.data
    ensures r.status.Ok? ==> r.sim.excitation.value.polS == polS.data && r.sim.excitation.value.polP == polP.data
    ensures r.sim == s.(excitation := r.sim.excitation, solved := false)
  {
    var cleared := s.(solved := false);
    if angle.Rank() != 1 || angle.shape[0] != 2 then Outcome(cleared, Err(BadShape(Angle)))
    else if polS.Rank() != 1 || polS.shape[0] != 2 then Outcome(cleared, Err(BadShape(PolS)))
    else if polP.Rank() != 1 || polP.shape[0] != 2 then Outcome(cleared, Err(BadShape(PolP)))
    else
      var o := if order > 0 then order - 1 else order;
      if status != 0 then Outcome(cleared, Err(BackendStatus(status)))
      else Outcome(cleared.(excitation := Some(PlaneWave(angle.data, polS.data, polP.data, o))), Ok(()))
  }

  // ------------------------------------------------------------- frequency

  /** SetFrequency: the real part must be positive and the imaginary part
      must not be positive; both are stored unchanged. */
  function SetFrequency(s: Sim, re: real, im: real): (r: Result<Sim, Error>)
    ensures r.Ok? <==> re > 0.0 && im <= 0.0
    ensures r.Err? ==> r.error == (if re <= 0.0 then OutOfRange(FreqReal) else OutOfRange(FreqImag))
    ensures r.Ok? ==> r.value == s.(frequency := Some(Frequency(re, im)))
  {
    if re <= 0.0 then Err(OutOfRange(FreqReal))
    else if im > 0.0 then Err(OutOfRange(FreqImag))
    else Ok(s.(frequency := Some(Frequency(re, im))))
  }

  // --------------------------------------------------------------- options

  /** The seven Use* methods: switch one option, leave the others alone. */
  function Use(s: Sim, t: Toggle, on: bool): (r: Sim)
    ensures t in r.options <==> on
    ensures forall u :: u != t ==> (u in r.options <==> u in s.options)
    ensures r == s.(options := r.options)
  {
    s.(options := if on then s.options + {t} else s.options - {t})
  }

  /** Distinct toggles do not interfere: their order does not matter. */
  lemma UseCommutes(s: Sim, t: Toggle, u: Toggle, a: bool, b: bool)
    requires t != u
    ensures Use(Use(s, t, a), u, b) == Use(Use(s, u, b), t, a)
  {
    assert Use(Use(s, t, a), u, b).options == Use(Use(s, u, b), t, a).options;
  }

  /** SetResolution: refuses values below 2 and otherwise stores nothing. */
  function SetResolution(s: Sim, resolution: int): (r: Result<Sim, Error>)
    ensures r.Ok? <==> resolution >= 2
    ensures r.Err? ==> r.error == OutOfRange(Resolution)
    ensures r.Ok? ==> r.value == s
  {
    if resolution < 2 then Err(OutOfRange(Resolution)) else Ok(s)
  }

  // --------------------------------------------------------------- queries

  /** A query's answer: the record (whose solution the backend computes on
      demand and keeps) and the values it returned. */
  datatype Answer = Answer(sim: Sim, values: seq<real>)

  /** GetPoyntingFlux: the layer must exist; `status` and `power` are the
      backend's return code and its four flux values.  The z offset only
      reaches the solver and is not a parameter here. */
  function GetPoyntingFlux(s: Sim, layer: string, status: int, power: seq<real>): (r: Result<Answer, Error>)
    requires |power| == 4
    ensures r.Ok? <==> s.LayerIndex(layer) >= 0 && status == 0
    ensures r.Err? ==> r.error == (if s.LayerIndex(layer) < 0 then UnknownLayer else BackendStatus(status))
    ensures r.Ok? ==> r.value == Answer(s.(solved := true), power)
  {
    if s.LayerIndex(layer) < 0 then Err(UnknownLayer)
    else if status != 0 then Err(BackendStatus(status))
    else Ok(Answer(s.(solved := true), power))
  }

  /** The 12-value buffer GetFieldAtPoint returns: E's six values, then H's. */
  function PackField(e: seq<real>, h: seq<real>): (r: seq<real>)
    requires |e| == 6 && |h| == 6
    ensures |r| == 12
    ensures forall i :: 0 <= i < 6 ==> r[i] == e[i] && r[6 + i] == h[i]
  {
    e + h
  }

  /** GetFieldAtPoint: the point must be a 3-vector; `status`, `e` and `h`
      are the backend's return code and its two 6-value fields.  The point's
      values only reach the solver, so they may still be NaN here. */
  function GetFieldAtPoint(s: Sim, point: RawArray, status: int, e: seq<real>, h: seq<real>): (r: Result<Answer, Error>)
    requires |e| == 6 && |h| == 6
    ensures r.Ok? <==> point.shape == [3] && status == 0
    ensures r.Err? ==> r.error == (if point.shape != [3] then BadShape(FieldPoint) else BackendStatus(status))
    ensures r.Ok? ==> r.value == Answer(s.(solved := true), PackField(e, h))
  {
    if point.Rank() != 1 || point.shape[0] != 3 then Err(BadShape(FieldPoint))
    else if status != 0 then Err(BackendStatus(status))
    else Ok(Answer(s.(solved := true), PackField(e, h)))
  }
}
