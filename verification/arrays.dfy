/** numpy arrays as the wrapper sees them: a shape and a row-major buffer.
    Raw caller input may hold NaN; the sanitiser turns it into a buffer of
    reals, which is the only form the backend ever receives. */
module Arrays {

  /** One float64 element of caller input.  Infinities are not modelled. */
  datatype Float = Num(v: real) | NaN

  /** Number of elements an array of this shape holds (1 for rank 0). */
  function Product(shape: seq<nat>): nat {
    if |shape| == 0 then 1 else shape[0] * Product(shape[1..])
  }

  datatype NdArray<T> = NdArray(shape: seq<nat>, data: seq<T>) {
    function Rank(): nat {
      |shape|
    }
  }

  /** A 1-D array holds as many elements as its one extent. */
  lemma VectorSize(shape: seq<nat>)
    requires |shape| == 1
    ensures Product(shape) == shape[0] && shape == [shape[0]]
  {
    assert shape[1..] == [];
  }

  /** A 2-D array holds rows times columns elements. */
  lemma MatrixSize(shape: seq<nat>)
    requires |shape| == 2
    ensures Product(shape) == shape[0] * shape[1]
  {
    assert shape[1..][1..] == [];
    assert Product(shape[1..]) == shape[1] * Product(shape[1..][1..]);
  }

  /** Caller input after np.asarray: shape and element count agree. */
  type RawArray = a: NdArray<Float> | |a.data| == Product(a.shape)
    witness NdArray([], [Num(0.0)])

  /** A contiguous float64 buffer handed to the backend. */
  type Buffer = a: NdArray<real> | |a.data| == Product(a.shape)
    witness NdArray([], [0.0])

  function CountNaNs(xs: seq<Float>): nat {
    if |xs| == 0 then 0 else (if xs[0].NaN? then 1 else 0) + CountNaNs(xs[1..])
  }

  lemma {:induction false} CountNaNsPositive(xs: seq<Float>)
    ensures CountNaNs(xs) > 0 <==> exists i :: 0 <= i < |xs| && xs[i].NaN?
  {
    if |xs| > 0 {
      CountNaNsPositive(xs[1..]);
      if xs[0].NaN? {
        assert xs[0].NaN?;
      } else {
        forall i | 1 <= i < |xs| ensures xs[i] == xs[1..][i - 1] {}
      }
    }
  }

  function ZeroNaN(x: Float): real {
    match x
    case Num(v) => v
    case NaN => 0.0
  }

  datatype Sanitized = Sanitized(buffer: Buffer, warned: bool)

  /** _sanitize_array: cast to float64, replace every NaN by 0.0 and warn
      when at least one NaN was found. */
  function Sanitize(a: RawArray): (r: Sanitized)
    ensures r.buffer.shape == a.shape
    ensures |r.buffer.data| == |a.data|
    ensures forall i :: 0 <= i < |a.data| && a.data[i].Num? ==> r.buffer.data[i] == a.data[i].v
    ensures forall i :: 0 <= i < |a.data| && a.data[i].NaN? ==> r.buffer.data[i] == 0.0
    ensures r.warned <==> exists i :: 0 <= i < |a.data| && a.data[i].NaN?
  {
    CountNaNsPositive(a.data);
    var data := seq(|a.data|, i requires 0 <= i < |a.data| => ZeroNaN(a.data[i]));
    Sanitized(NdArray(a.shape, data), CountNaNs(a.data) != 0)
  }
}
