/** How the Python layer turns the flat buffers the extension returns into
    shaped results: numpy reshapes of a row-major buffer, and the complex
    field pair of a point query. */
module Decode {
  import opened Wrappers
  import opened Errors
  import opened State
  import Staging

  // ------------------------------------------------------------------ rows

  /** n * w counted out one row at a time: the element count of n rows of
      width w, in a form the reshape can peel row by row. */
  function Size(n: nat, w: nat): nat {
    if n == 0 then 0 else w + Size(n - 1, w)
  }

  lemma {:induction false} SizeIsProduct(n: nat, w: nat)
    ensures Size(n, w) == n * w
  {
    if n > 0 {
      SizeIsProduct(n - 1, w);
    }
  }

  /** reshape((n, w)) of a buffer of n * w elements: n consecutive runs of w. */
  function Rows<T>(buf: seq<T>, w: nat, n: nat): (r: seq<seq<T>>)
    requires |buf| == Size(n, w)
    ensures |r| == n
    ensures forall i :: 0 <= i < n ==> |r[i]| == w
    decreases n
  {
    if n == 0 then [] else [buf[..w]] + Rows(buf[w..], w, n - 1)
  }

  lemma RowBound(i: nat, j: nat, w: nat, n: nat)
    requires i < n && j < w
    ensures i * w + j < Size(n, w)
    ensures i > 0 ==> w + (i - 1) * w == i * w
  {
    SizeIsProduct(n, w);
    assert i * w + j < i * w + w == (i + 1) * w;
    assert (i + 1) * w <= n * w;
  }

  /** Row-major concatenation, the inverse of Rows. */
  function Flatten<T>(rows: seq<seq<T>>): seq<T> {
    if |rows| == 0 then [] else rows[0] + Flatten(rows[1..])
  }

  /** Element j of row i is element i * w + j of the buffer. */
  lemma {:induction false} RowsAt<T>(buf: seq<T>, w: nat, n: nat, i: nat, j: nat)
    requires |buf| == Size(n, w)
    requires i < n && j < w
    ensures i * w + j < |buf| && Rows(buf, w, n)[i][j] == buf[i * w + j]
    decreases i
  {
    RowBound(i, j, w, n);
    if i > 0 {
      RowsAt(buf[w..], w, n - 1, i - 1, j);
      assert Rows(buf, w, n)[i] == Rows(buf[w..], w, n - 1)[i - 1];
    }
  }

  /** Row i is the run of w elements starting at i * w. */
  lemma {:induction false} RowAt<T>(buf: seq<T>, w: nat, n: nat, i: nat)
    requires |buf| == Size(n, w)
    requires i < n
    ensures i * w + w <= |buf| && Rows(buf, w, n)[i] == buf[i * w..i * w + w]
    decreases i
  {
    if i > 0 {
      var k := (i - 1) * w;
      RowAt(buf[w..], w, n - 1, i - 1);
      assert Rows(buf, w, n)[i] == Rows(buf[w..], w, n - 1)[i - 1];
      assert w + k == i * w;
      assert buf[w..][k..k + w] == buf[i * w..i * w + w];
    }
  }

  /** Position of element (i, j) in a row-major buffer of rows of width w. */
  function Offset(i: nat, j: nat, w: nat): nat {
    i * w + j
  }

  lemma {:induction false} RowsIndex<T>(buf: seq<T>, w: nat, n: nat)
    requires |buf| == Size(n, w)
    ensures forall i, j :: 0 <= i < n && 0 <= j < w ==>
              Offset(i, j, w) < |buf| && Rows(buf, w, n)[i][j] == buf[Offset(i, j, w)]
  {
    forall i, j | 0 <= i < n && 0 <= j < w
      ensures Offset(i, j, w) < |buf| && Rows(buf, w, n)[i][j] == buf[Offset(i, j, w)]
    {
      RowsAt(buf, w, n, i, j);
    }
  }

  /** Reshaping then flattening gives the buffer back. */
  lemma {:induction false} FlattenRows<T>(buf: seq<T>, w: nat, n: nat)
    requires |buf| == Size(n, w)
    ensures Flatten(Rows(buf, w, n)) == buf
    decreases n
  {
    if n > 0 {
      FlattenRows(buf[w..], w, n - 1);
      assert Rows(buf, w, n)[1..] == Rows(buf[w..], w, n - 1);
      assert buf[..w] + buf[w..] == buf;
    }
  }

  /** Flattening rows of equal width then reshaping gives the rows back. */
  lemma {:induction false} RowsFlatten<T>(rows: seq<seq<T>>, w: nat)
    requires forall i :: 0 <= i < |rows| ==> |rows[i]| == w
    ensures |Flatten(rows)| == Size(|rows|, w)
    ensures Rows(Flatten(rows), w, |rows|) == rows
  {
    if |rows| > 0 {
      RowsFlatten(rows[1..], w);
      var f := Flatten(rows);
      assert f == rows[0] + Flatten(rows[1..]);
      assert f[..w] == rows[0];
      assert f[w..] == Flatten(rows[1..]);
      assert Rows(f, w, |rows|) == [rows[0]] + rows[1..];
    }
  }

  /** reshape((a, b, c)): a blocks of b rows of c elements, that is the
      a * b rows of c elements grouped b at a time. */
  function Grid<T>(buf: seq<T>, a: nat, b: nat, c: nat): (r: seq<seq<seq<T>>>)
    requires |buf| == Size(Size(a, b), c)
    ensures |r| == a
    ensures forall x :: 0 <= x < a ==> |r[x]| == b
    ensures forall x, y :: 0 <= x < a && 0 <= y < b ==> |r[x][y]| == c
  {
    var rows := Rows(buf, c, Size(a, b));
    var r := Rows(rows, b, a);
    forall x | 0 <= x < a
      ensures forall y :: 0 <= y < b ==> |r[x][y]| == c
    {
      RowAt(rows, b, a, x);
    }
    r
  }

  /** Position of element (x, y, z) in a row-major buffer of shape (_, b, c). */
  function RowMajor(x: nat, y: nat, z: nat, b: nat, c: nat): nat {
    (x * b + y) * c + z
  }

  /** Element (x, y, z) of a grid is element (x * b + y) * c + z of the buffer. */
  lemma {:induction false} GridAt<T>(buf: seq<T>, a: nat, b: nat, c: nat, x: nat, y: nat, z: nat)
    requires |buf| == Size(Size(a, b), c)
    requires x < a && y < b && z < c
    ensures RowMajor(x, y, z, b, c) < |buf| && Grid(buf, a, b, c)[x][y][z] == buf[RowMajor(x, y, z, b, c)]
  {
    var rows := Rows(buf, c, Size(a, b));
    RowsAt(rows, b, a, x, y);
    RowsAt(buf, c, Size(a, b), x * b + y, z);
  }

  lemma {:induction false} GridIndex<T>(buf: seq<T>, a: nat, b: nat, c: nat)
    requires |buf| == Size(Size(a, b), c)
    ensures forall x, y, z :: 0 <= x < a && 0 <= y < b && 0 <= z < c ==>
              RowMajor(x, y, z, b, c) < |buf| && Grid(buf, a, b, c)[x][y][z] == buf[RowMajor(x, y, z, b, c)]
  {
    forall x, y, z | 0 <= x < a && 0 <= y < b && 0 <= z < c
      ensures RowMajor(x, y, z, b, c) < |buf| && Grid(buf, a, b, c)[x][y][z] == buf[RowMajor(x, y, z, b, c)]
    {
      GridAt(buf, a, b, c, x, y, z);
    }
  }

  /** Flattening a grid row by row gives the buffer back. */
  lemma {:induction false} GridFlatten<T>(buf: seq<T>, a: nat, b: nat, c: nat)
    requires |buf| == Size(Size(a, b), c)
    ensures Flatten(Flatten(Grid(buf, a, b, c))) == buf
  {
    FlattenRows(Rows(buf, c, Size(a, b)), b, a);
    FlattenRows(buf, c, Size(a, b));
  }

  // -------------------------------------------------------------- decoders

  /** get_poynting_flux_by_G: one (forward real, backward real, forward
      imaginary, backward imaginary) row per Fourier order. */
  function FluxByMode(buf: seq<real>): (r: Result<seq<seq<real>>, Error>)
    ensures r.Ok? <==> |buf| % 4 == 0
    ensures r.Err? ==> r.error == MalformedResult
    ensures r.Ok? ==> |r.value| * 4 == |buf| && forall i :: 0 <= i < |r.value| ==> |r.value[i]| == 4
    ensures r.Ok? ==> forall i, j :: 0 <= i < |r.value| && 0 <= j < 4 ==> r.value[i][j] == buf[4 * i + j]
    ensures r.Ok? ==> Flatten(r.value) == buf
  {
    if |buf| % 4 != 0 then Err(MalformedResult)
    else
      var n := |buf| / 4;
      assert |buf| == n * 4;
      SizeIsProduct(n, 4);
      RowsIndex(buf, 4, n);
      FlattenRows(buf, 4, n);
      var r := Rows(buf, 4, n);
      assert forall i, j :: 0 <= i < n && 0 <= j < 4 ==> r[i][j] == buf[4 * i + j] by {
        forall i, j | 0 <= i < n && 0 <= j < 4
          ensures r[i][j] == buf[4 * i + j]
        {
          assert Offset(i, j, 4) == 4 * i + j;
        }
      }
      Ok(r)
  }

  /** get_waves: per wave, two rows of eleven values. */
  function Waves(buf: seq<real>): (r: Result<seq<seq<seq<real>>>, Error>)
    ensures r.Ok? <==> |buf| % 22 == 0
    ensures r.Err? ==> r.error == MalformedResult
    ensures r.Ok? ==> |r.value| * 22 == |buf|
    ensures r.Ok? ==> forall n :: 0 <= n < |r.value| ==> |r.value[n]| == 2
    ensures r.Ok? ==> forall n, k :: 0 <= n < |r.value| && 0 <= k < 2 ==> |r.value[n][k]| == 11
    ensures r.Ok? ==> forall n, k, m :: 0 <= n < |r.value| && 0 <= k < 2 && 0 <= m < 11 ==>
              r.value[n][k][m] == buf[22 * n + 11 * k + m]
    ensures r.Ok? ==> Flatten(Flatten(r.value)) == buf
  {
    if |buf| % 22 != 0 then Err(MalformedResult)
    else
      var n := |buf| / 22;
      assert |buf| == n * 22;
      SizeIsProduct(n, 2);
      SizeIsProduct(Size(n, 2), 11);
      GridFlatten(buf, n, 2, 11);
      var r := Grid(buf, n, 2, 11);
      assert forall x, k, m :: 0 <= x < n && 0 <= k < 2 && 0 <= m < 11 ==> r[x][k][m] == buf[22 * x + 11 * k + m] by {
        forall x, k, m | 0 <= x < n && 0 <= k < 2 && 0 <= m < 11
          ensures r[x][k][m] == buf[22 * x + 11 * k + m]
        {
          GridAt(buf, n, 2, 11, x, k, m);
        }
      }
      Ok(r)
  }

  /** get_field_plane: reshape(nv, nu, 3), so the grid is indexed [v][u]
      and each point carries three components. */
  function FieldPlane(buf: seq<real>, nu: nat, nv: nat): (r: Result<seq<seq<seq<real>>>, Error>)
    ensures r.Ok? <==> |buf| == nv * nu * 3
    ensures r.Err? ==> r.error == MalformedResult
    ensures r.Ok? ==> |r.value| == nv && forall v :: 0 <= v < nv ==> |r.value[v]| == nu
    ensures r.Ok? ==> forall v, u :: 0 <= v < nv && 0 <= u < nu ==> |r.value[v][u]| == 3
    ensures r.Ok? ==> forall v, u, c :: 0 <= v < nv && 0 <= u < nu && 0 <= c < 3 ==>
              RowMajor(v, u, c, nu, 3) < |buf| && r.value[v][u][c] == buf[RowMajor(v, u, c, nu, 3)]
    ensures r.Ok? ==> Flatten(Flatten(r.value)) == buf
  {
    if |buf| != nv * nu * 3 then Err(MalformedResult)
    else
      SizeIsProduct(nv, nu);
      SizeIsProduct(Size(nv, nu), 3);
      GridFlatten(buf, nv, nu, 3);
      GridIndex(buf, nv, nu, 3);
      Ok(Grid(buf, nv, nu, 3))
  }

  // ------------------------------------------------------------ point field

  /** Electric and magnetic field vectors at one point. */
  datatype Fields = Fields(e: seq<Complex>, h: seq<Complex>)

  /** Three complex components from their real and imaginary parts. */
  function Components(raw: seq<real>, re: nat, im: nat): (r: seq<Complex>)
    requires re + 3 <= |raw| && im + 3 <= |raw|
    ensures |r| == 3 && forall k :: 0 <= k < 3 ==> r[k] == Complex(raw[re + k], raw[im + k])
  {
    seq(3, k requires 0 <= k < 3 => Complex(raw[re + k], raw[im + k]))
  }

  /** get_field_at_point as written: E is assembled from entries 0..5, and
      the H it returns is built from E again. */
  function FieldAtPoint(raw: seq<real>): (r: Fields)
    requires |raw| == 12
    ensures |r.e| == 3 && forall k :: 0 <= k < 3 ==> r.e[k] == Complex(raw[k], raw[3 + k])
    ensures r.h == r.e
  {
    var e := Components(raw, 0, 3);
    Fields(e, e)
  }

  /** get_field_at_point as evidently intended: H from entries 6..11. */
  function IntendedFieldAtPoint(raw: seq<real>): (r: Fields)
    requires |raw| == 12
    ensures |r.e| == 3 && forall k :: 0 <= k < 3 ==> r.e[k] == Complex(raw[k], raw[3 + k])
    ensures |r.h| == 3 && forall k :: 0 <= k < 3 ==> r.h[k] == Complex(raw[6 + k], raw[9 + k])
  {
    Fields(Components(raw, 0, 3), Components(raw, 6, 9))
  }

  /** The intended decoding inverts the backend's packing of E then H. */
  lemma IntendedFieldAtPointUnpacks(e: seq<real>, h: seq<real>)
    requires |e| == 6 && |h| == 6
    ensures var f := IntendedFieldAtPoint(Staging.PackField(e, h));
            forall k :: 0 <= k < 3 ==> f.e[k] == Complex(e[k], e[3 + k]) && f.h[k] == Complex(h[k], h[3 + k])
  {
  }

  /** The two decodings agree exactly when the backend's H equals its E. */
  lemma FieldAtPointAgreement(raw: seq<real>)
    requires |raw| == 12
    ensures FieldAtPoint(raw) == IntendedFieldAtPoint(raw) <==> raw[..6] == raw[6..]
  {
    var a := FieldAtPoint(raw);
    var b := IntendedFieldAtPoint(raw);
    if raw[..6] == raw[6..] {
      forall k | 0 <= k < 3 ensures a.h[k] == b.h[k] {
        assert raw[k] == raw[..6][k] == raw[6..][k] == raw[6 + k];
        assert raw[3 + k] == raw[..6][3 + k] == raw[6..][3 + k] == raw[9 + k];
      }
      assert a.h == b.h;
    }
    if a == b {
      forall i | 0 <= i < 6 ensures raw[..6][i] == raw[6..][i] {
        if i < 3 {
          assert a.h[i] == b.h[i];
        } else {
          assert a.h[i - 3] == b.h[i - 3];
        }
      }
    }
  }

  /** A field with zero E and non-zero H comes back with H reported as zero. */
  lemma FieldAtPointLosesH(hx: real)
    requires hx != 0.0
    ensures var raw := Staging.PackField([0.0, 0.0, 0.0, 0.0, 0.0, 0.0], [hx, 0.0, 0.0, 0.0, 0.0, 0.0]);
            FieldAtPoint(raw).h[0] == Complex(0.0, 0.0) &&
            IntendedFieldAtPoint(raw).h[0] == Complex(hx, 0.0)
  {
  }
}
