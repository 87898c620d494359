/** The backend's simulation record as the staging layer drives it: an
    ordered material list, an ordered layer stack with patterned regions, the
    lattice, the Fourier-order count, one excitation, one frequency and the
    numerical toggles.  Names are looked up by first match, as the backend's
    by-name queries do. */
module State {
  import opened Wrappers

  /** Material type codes the staging layer chooses between. */
  datatype MaterialType = ScalarComplex | XYTensorComplex

  /** The fixed 18-entry permittivity array of the backend call. */
  type Block18 = s: seq<real> | |s| == 18 witness seq(18, i => 0.0)

  datatype EpsData = EpsData(eps: Block18, kind: MaterialType)

  datatype Material = Material(name: string, eps: EpsData)

  datatype Vec2 = Vec2(x: real, y: real)

  datatype Complex = Complex(re: real, im: real)

  /** A region type code with its parameters, as registered with the
      backend.  The angle is the rotation pointer of the backend call: the
      circle command passes a null pointer, modelled as None. */
  datatype Shape =
    | Ellipse(halfwidths: Vec2, angle: Option<real>)
    | Rectangle(halfwidths: Vec2, angle: Option<real>)
    | Interval(halfwidths: Vec2, angle: Option<real>)
    | Polygon(nvert: nat, vertices: seq<real>, angle: Option<real>)

  /** A patterned region: material index, centre and shape. */
  datatype Region = Region(material: nat, center: Vec2, shape: Shape)

  datatype Layer = Layer(name: string, thickness: real, material: nat, regions: seq<Region>)

  /** A plane wave as the backend receives it: radians and a 0-based order. */
  datatype Excitation = PlaneWave(angle: seq<real>, polS: seq<real>, polP: seq<real>, order: int)

  datatype Frequency = Frequency(re: real, im: real)

  /** The independent boolean options of the Fourier modal method. */
  datatype Toggle =
    | DiscretizedEpsilon | SubpixelSmoothing | LanczosSmoothing
    | PolarizationDecomposition | JonesVectorBasis | NormalVectorBasis
    | ExperimentalFmm

  /** The backend record.  `options` holds the toggles that are on.
      `solved` tracks only what the wrapper itself does to the cached
      solution: the explicit discard before a plane-wave excitation clears
      it and the two queries set it.  Whatever the backend's own setters do
      to its cache is not modelled. */
  datatype Sim = Sim(
    lattice: seq<real>,
    numG: int,
    materials: seq<Material>,
    layers: seq<Layer>,
    excitation: Option<Excitation>,
    frequency: Option<Frequency>,
    options: set<Toggle>,
    solved: bool)
  {
    /** Index of the first material with this name, or -1. */
    function MaterialIndex(name: string): (r: int)
      ensures -1 <= r < |materials|
      ensures r == -1 <==> forall i :: 0 <= i < |materials| ==> materials[i].name != name
      ensures r >= 0 ==> materials[r].name == name
      ensures r >= 0 ==> forall i :: 0 <= i < r ==> materials[i].name != name
    {
      var names := seq(|materials|, i requires 0 <= i < |materials| => materials[i].name);
      assert forall i :: 0 <= i < |materials| ==> names[i] == materials[i].name;
      FirstIndex(names, name)
    }

    /** Index of the first layer with this name, or -1. */
    function LayerIndex(name: string): (r: int)
      ensures -1 <= r < |layers|
      ensures r == -1 <==> forall i :: 0 <= i < |layers| ==> layers[i].name != name
      ensures r >= 0 ==> layers[r].name == name
      ensures r >= 0 ==> forall i :: 0 <= i < r ==> layers[i].name != name
    {
      var names := seq(|layers|, i requires 0 <= i < |layers| => layers[i].name);
      assert forall i :: 0 <= i < |layers| ==> names[i] == layers[i].name;
      FirstIndex(names, name)
    }
  }

  /** Appending a material under a name not yet in use makes it the one found. */
  lemma MaterialIndexAppend(s: Sim, m: Material)
    requires s.MaterialIndex(m.name) < 0
    ensures s.(materials := s.materials + [m]).MaterialIndex(m.name) == |s.materials|
  {
    var t := s.(materials := s.materials + [m]);
    var r := t.MaterialIndex(m.name);
    assert t.materials[|s.materials|].name == m.name;
    assert forall i :: 0 <= i < |s.materials| ==> t.materials[i] == s.materials[i];
  }

  /** Overwriting the material a name finds, under the same name, keeps it found. */
  lemma MaterialIndexReplace(s: Sim, m: Material)
    requires s.MaterialIndex(m.name) >= 0
    ensures var k := s.MaterialIndex(m.name);
            s.(materials := s.materials[k := m]).MaterialIndex(m.name) == k
  {
    var k := s.MaterialIndex(m.name);
    var t := s.(materials := s.materials[k := m]);
    var r := t.MaterialIndex(m.name);
    assert t.materials[k].name == m.name;
    assert forall i :: 0 <= i < k ==> t.materials[i] == s.materials[i];
  }

  /** Appending a layer under a name not yet in use makes it the one found. */
  lemma LayerIndexAppend(s: Sim, l: Layer)
    requires s.LayerIndex(l.name) < 0
    ensures s.(layers := s.layers + [l]).LayerIndex(l.name) == |s.layers|
  {
    var t := s.(layers := s.layers + [l]);
    var r := t.LayerIndex(l.name);
    assert t.layers[|s.layers|].name == l.name;
    assert forall i :: 0 <= i < |s.layers| ==> t.layers[i] == s.layers[i];
  }

  /** Lookups only see names: a stack with the same names finds the same layer. */
  lemma LayerIndexSameNames(s: Sim, t: Sim, name: string)
    requires |t.layers| == |s.layers|
    requires forall i :: 0 <= i < |s.layers| ==> t.layers[i].name == s.layers[i].name
    ensures t.LayerIndex(name) == s.LayerIndex(name)
  {
    var a := s.LayerIndex(name);
    var b := t.LayerIndex(name);
    if a >= 0 {
      assert t.layers[a].name == name;
    }
    if b >= 0 {
      assert s.layers[b].name == name;
    }
  }

  /** First position of `name` in `names`, or -1 when it does not occur. */
  function FirstIndex(names: seq<string>, name: string): (r: int)
    ensures -1 <= r < |names|
    ensures r == -1 <==> forall i :: 0 <= i < |names| ==> names[i] != name
    ensures r >= 0 ==> names[r] == name
    ensures r >= 0 ==> forall i :: 0 <= i < r ==> names[i] != name
  {
    if |names| == 0 then -1
    else if names[0] == name then 0
    else
      var k := FirstIndex(names[1..], name);
      if k < 0 then -1 else k + 1
  }
}
