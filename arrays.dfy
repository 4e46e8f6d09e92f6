/**
 * Stand-ins for the NumPy arrays and Torch tensors handed to the markers, and
 * the instancer-side values built from them. Element values stay opaque: only
 * shapes and the order of quaternion components matter to the marker code.
 */
module Arrays {

  /** One float element, kept as its raw bit pattern; no arithmetic is ever done on it. */
  datatype Scalar = Scalar(bits: bv32)

  /** The float 0.0. */
  const Zero: Scalar := Scalar(0)

  /** The float 1.0. */
  const One: Scalar := Scalar(0x3F80_0000)

  /** `Gf.Vec3f()`: the origin. */
  const Origin: seq<Scalar> := [Zero, Zero, Zero]

  /** Number of elements of an array with the given dimensions. */
  function Product(dims: seq<nat>): (p: nat)
    ensures |dims| == 0 ==> p == 1
    ensures |dims| == 1 ==> p == dims[0]
  {
    if dims == [] then 1 else dims[0] * Product(dims[1..])
  }

  /**
   * An n-dimensional array: its `shape` and its slices along the leading
   * dimension, each slice flattened. A rank-0 array has one slice of one element.
   */
  datatype Tensor<E> = Tensor(shape: seq<nat>, rows: seq<seq<E>>)
  {
    /** The slices agree with the shape, as they do for every real array. */
    predicate Consistent()
    {
      if |shape| == 0 then |rows| == 1 && |rows[0]| == 1
      else |rows| == shape[0] && forall i :: 0 <= i < |rows| ==> |rows[i]| == Product(shape[1..])
    }

    /** Shape (M, width): rank 2 and the given second dimension. */
    predicate IsMatrix(width: nat)
    {
      |shape| == 2 && shape[1] == width
    }

    /** Shape (M,): rank 1. */
    predicate IsVector()
    {
      |shape| == 1
    }
  }

  type NdArray<E> = t: Tensor<E> | t.Consistent() witness Tensor([0], [])

  /** Every row of `rows` has `width` elements. */
  predicate RowsOfWidth<E>(rows: seq<seq<E>>, width: nat)
  {
    forall i :: 0 <= i < |rows| ==> |rows[i]| == width
  }

  /** The rows of a well-shaped (M, width) array. */
  function MatrixRows<E>(a: NdArray<E>, width: nat): (rows: seq<seq<E>>)
    requires a.IsMatrix(width)
    ensures |rows| == a.shape[0] && RowsOfWidth(rows, width)
    ensures rows == a.rows
  {
    a.rows
  }

  /** The elements of a rank-1 array, in order: written to the instancer verbatim. */
  function VectorValues<E>(a: NdArray<E>): (r: seq<E>)
    requires a.IsVector()
    ensures |r| == a.shape[0]
    ensures forall i :: 0 <= i < |r| ==> a.rows[i] == [r[i]]
  {
    seq(|a.rows|, i requires 0 <= i < |a.rows| => a.rows[i][0])
  }

  /** `[0] * n`: every instance uses the first prototype. */
  function Zeros(n: nat): (r: seq<int>)
    ensures |r| == n && forall i :: 0 <= i < n ==> r[i] == 0
  {
    seq(n, _ => 0)
  }

  /**
   * `convert_quat(q, to="xyzw")` on one quaternion: the scalar part moves from
   * the front to the back.
   */
  function WxyzToXyzw(q: seq<Scalar>): (r: seq<Scalar>)
    requires |q| == 4
    ensures |r| == 4 && r[0] == q[1] && r[1] == q[2] && r[2] == q[3] && r[3] == q[0]
  {
    q[1..] + q[..1]
  }

  /** `convert_quat(q, to="wxyz")` on one quaternion: the inverse reordering. */
  function XyzwToWxyz(q: seq<Scalar>): (r: seq<Scalar>)
    requires |q| == 4
    ensures |r| == 4 && r[0] == q[3] && r[1] == q[0] && r[2] == q[1] && r[3] == q[2]
  {
    q[3..] + q[..3]
  }

  /** Row-wise (w, x, y, z) to (x, y, z, w), as written to the instancer. */
  function ToXyzw(rows: seq<seq<Scalar>>): (r: seq<seq<Scalar>>)
    requires RowsOfWidth(rows, 4)
    ensures |r| == |rows| && RowsOfWidth(r, 4)
  {
    seq(|rows|, i requires 0 <= i < |rows| => WxyzToXyzw(rows[i]))
  }

  /** Row-wise (x, y, z, w) back to (w, x, y, z). */
  function ToWxyz(rows: seq<seq<Scalar>>): (r: seq<seq<Scalar>>)
    requires RowsOfWidth(rows, 4)
    ensures |r| == |rows| && RowsOfWidth(r, 4)
  {
    seq(|rows|, i requires 0 <= i < |rows| => XyzwToWxyz(rows[i]))
  }

  /** The reordering only permutes the components of each quaternion. */
  lemma WxyzToXyzwPermutes(q: seq<Scalar>)
    requires |q| == 4
    ensures multiset(WxyzToXyzw(q)) == multiset(q)
  {
    assert q == q[..1] + q[1..];
  }

  /** The two reorderings undo each other, so the conversion loses nothing. */
  lemma QuaternionRoundTrip(q: seq<Scalar>)
    requires |q| == 4
    ensures XyzwToWxyz(WxyzToXyzw(q)) == q
    ensures WxyzToXyzw(XyzwToWxyz(q)) == q
  {
  }

  /** Whole arrays: `ToXyzw` is a bijection on (M, 4) rows with inverse `ToWxyz`. */
  lemma OrientationRoundTrip(rows: seq<seq<Scalar>>)
    requires RowsOfWidth(rows, 4)
    ensures ToWxyz(ToXyzw(rows)) == rows
    ensures ToXyzw(ToWxyz(rows)) == rows
  {
    forall i | 0 <= i < |rows|
      ensures ToWxyz(ToXyzw(rows))[i] == rows[i] && ToXyzw(ToWxyz(rows))[i] == rows[i]
    {
      QuaternionRoundTrip(rows[i]);
    }
  }

  /** The identity rotation (w, x, y, z) = (1, 0, 0, 0) is stored as (x, y, z, w) = (0, 0, 0, 1). */
  lemma IdentityQuaternion()
    ensures ToXyzw([[One, Zero, Zero, Zero]]) == [[Zero, Zero, Zero, One]]
  {
    var stored := ToXyzw([[One, Zero, Zero, Zero]]);
    assert stored[0] == WxyzToXyzw([One, Zero, Zero, Zero]) == [Zero, Zero, Zero, One];
  }
}
