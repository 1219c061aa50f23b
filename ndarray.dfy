/** Dense NumPy-style arrays: a shape and the entries in row-major (C) order.
    Only what the LP helper relies on is modelled: the shape, `ndim`, the first
    axis, two-dimensional indexing and `np.zeros`. Entries are kept abstract as
    reals; the floating-point width of NumPy is not modelled. */
module NdArrays {

  /** Number of entries of an array of the given shape; the empty shape of a
      0-dimensional array has one entry. */
  function Size(shape: seq<nat>): nat
  {
    if shape == [] then 1 else shape[0] * Size(shape[1..])
  }

  lemma SizeOfVector(n: nat)
    ensures Size([n]) == n
  {
    assert [n][1..] == [];
  }

  lemma SizeOfMatrix(rows: nat, cols: nat)
    ensures Size([rows, cols]) == rows * cols
  {
    assert [rows, cols][1..] == [cols];
    SizeOfVector(cols);
  }

  /** Row i of a rows x cols row-major matrix ends inside the matrix. */
  lemma RowInside(i: nat, rows: nat, cols: nat)
    requires i < rows
    ensures i * cols + cols <= rows * cols
  {
    assert i * cols + cols == (i + 1) * cols;
  }

  datatype NdArray = NdArray(shape: seq<nat>, data: seq<real>)
  {
    /** Every NumPy array holds exactly as many entries as its shape says. */
    predicate Valid()
    {
      |data| == Size(shape)
    }

    /** NumPy's `ndim`. */
    function Rank(): nat
    {
      |shape|
    }

    /** The entry `M[i, k]` of a two-dimensional array. */
    function At(i: nat, k: nat): real
      requires Valid() && Rank() == 2 && i < shape[0] && k < shape[1]
    {
      assert shape == [shape[0], shape[1]];
      SizeOfMatrix(shape[0], shape[1]);
      RowInside(i, shape[0], shape[1]);
      data[i * shape[1] + k]
    }
  }

  /** `np.zeros((rows, cols))`. */
  function Zeros(rows: nat, cols: nat): (z: NdArray)
    ensures z.Valid() && z.shape == [rows, cols]
    ensures forall j :: 0 <= j < |z.data| ==> z.data[j] == 0.0
  {
    SizeOfMatrix(rows, cols);
    NdArray([rows, cols], seq(rows * cols, _ => 0.0))
  }

  /** `np.zeros((1,))`, the placeholder right-hand side. */
  function ZeroVector(): (z: NdArray)
    ensures z.Valid() && z.shape == [1] && z.data == [0.0]
  {
    SizeOfVector(1);
    NdArray([1], [0.0])
  }
}
