/** The part of `linprog` that runs before the solver: the guards, the
    placeholder equality row, and the data file handed to the modelling
    framework. Building the model, calling the solver and reading the solution
    back are outside this model. */
module Linprog {
  import opened NdArrays
  import opened Validation
  import opened DatFile
  import opened DatReader

  /** `linprog` up to and including its call of `dat_write_lin`: either the
      exception raised, or the records of the data file. */
  method PrepareDataFile(f: NdArray, A: NdArray, b: NdArray, Aeq: Option<NdArray>, beq: Option<NdArray>)
    returns (r: Result<seq<Record>>)
    requires f.Valid() && A.Valid() && b.Valid()
    requires Aeq.Some? ==> Aeq.value.Valid()
    requires beq.Some? ==> beq.value.Valid()
    // a rejected problem raises before anything is written
    ensures Validate(f, A, b, Aeq, beq).Err? ==> r == Err(Validate(f, A, b, Aeq, beq).error)
    // an f whose entries are not single numbers fails in the `%e` formatting
    ensures Validate(f, A, b, Aeq, beq).Ok? && |f.data| != f.shape[0] ==> r == Err(FEntryNotNumber)
    ensures r.Ok? <==> Validate(f, A, b, Aeq, beq).Ok? && |f.data| == f.shape[0]
    ensures r.Ok? ==>
      Writable(Validate(f, A, b, Aeq, beq).value) &&
      r.value == DatText(Validate(f, A, b, Aeq, beq).value)
  {
    var v := Validate(f, A, b, Aeq, beq);
    if v.Err? {
      return Err(v.error);
    }
    var p := v.value;
    if |p.f.data| != p.f.shape[0] {
      return Err(FEntryNotNumber);
    }
    var records := DatWriteLin(p.f, p.A, p.b, p.Aeq, p.beq);
    return Ok(records);
  }

  /** A problem without equality constraints is written with m2 = 1, an Aeq
      table of n zeros and beq = [0]; its other tables carry A, b and f. */
  lemma NoEqualityDataFile(f: NdArray, A: NdArray, b: NdArray)
    requires f.Valid() && A.Valid() && b.Valid()
    requires Validate(f, A, b, None, None).Ok? && |f.data| == f.shape[0]
    ensures Writable(Validate(f, A, b, None, None).value)
    ensures ReadDat(DatText(Validate(f, A, b, None, None).value)) ==
      Some(Tables(|b.data|, 1, |f.data|, A.data, b.data, seq(|f.data|, _ => 0.0), [0.0], f.data))
  {
    var p := Validate(f, A, b, None, None).value;
    WritableSizes(p);
    DatTextRoundTrip(p);
    assert p.Aeq.data == seq(|f.data|, _ => 0.0);
  }

  /** The example at the end of the source file: minimise 2 x1 + 3 x2 subject
      to -3 x1 - 4 x2 <= -1, with no equality constraints. It is accepted with
      the placeholder row Aeq = [[0, 0]], beq = [0]. */
  lemma SourceExample()
    ensures var f, A, b := NdArray([2], [2.0, 3.0]), NdArray([1, 2], [-3.0, -4.0]), NdArray([1], [-1.0]);
      Validate(f, A, b, None, None) == Ok(Problem(f, A, b, NdArray([1, 2], [0.0, 0.0]), NdArray([1], [0.0])))
  {
    SizeOfVector(2);
    SizeOfVector(1);
    SizeOfMatrix(1, 2);
    assert Zeros(1, 2) == NdArray([1, 2], [0.0, 0.0]);
  }

  /** The data file written for the normalised example, line by line. */
  lemma SourceExampleFile()
    ensures var p := Problem(NdArray([2], [2.0, 3.0]), NdArray([1, 2], [-3.0, -4.0]), NdArray([1], [-1.0]),
                             NdArray([1, 2], [0.0, 0.0]), NdArray([1], [0.0]));
      Writable(p) &&
      DatText(p) ==
        [Comment, Scalar(ParamM1, 1), Scalar(ParamM2, 1), Scalar(ParamN, 2)]
        + Table(ParamA, [Triple(1, 1, -3.0), Triple(1, 2, -4.0)])
        + Table(ParamB, [Pair(1, -1.0)])
        + Table(ParamAeq, [Triple(1, 1, 0.0), Triple(1, 2, 0.0)])
        + Table(ParamBeq, [Pair(1, 0.0)])
        + Table(ParamF, [Pair(1, 2.0), Pair(2, 3.0)])
  {
    SizeOfVector(2);
    SizeOfVector(1);
    SizeOfMatrix(1, 2);
    var f, A, b := NdArray([2], [2.0, 3.0]), NdArray([1, 2], [-3.0, -4.0]), NdArray([1], [-1.0]);
    var p := Problem(f, A, b, NdArray([1, 2], [0.0, 0.0]), NdArray([1], [0.0]));
    assert p.M1() == 1 && p.M2() == 1 && p.N() == 2;
    var eA, eB := [Triple(1, 1, -3.0), Triple(1, 2, -4.0)], [Pair(1, -1.0)];
    var eAeq, eBeq, eF := [Triple(1, 1, 0.0), Triple(1, 2, 0.0)], [Pair(1, 0.0)], [Pair(1, 2.0), Pair(2, 3.0)];
    assert MatrixEntries(A.data, 2, 1) == eA by {
      assert RowEntries(A.data, 2, 0, 1) == [Triple(1, 1, -3.0)];
    }
    assert MatrixEntries(p.Aeq.data, 2, 1) == eAeq by {
      assert RowEntries(p.Aeq.data, 2, 0, 1) == [Triple(1, 1, 0.0)];
    }
    assert VectorEntries(f.data, 2) == eF by {
      assert VectorEntries(f.data, 1) == [Pair(1, 2.0)];
    }
    assert VectorEntries(b.data, 1) == eB;
    assert VectorEntries(p.beq.data, 1) == eBeq;
    var ts := TableEntries(p);
    assert ts == [eA, eB, eAeq, eBeq, eF];
    assert Header(p) == [Comment, Scalar(ParamM1, 1), Scalar(ParamM2, 1), Scalar(ParamN, 2)];
    TablesTextOfFive(Header(p), TableOrder, ts);
  }

  /** A of shape (2, 3) against a b of length 3 is rejected for its shape. */
  lemma ShapeMismatchExample(f: NdArray, A: NdArray, b: NdArray)
    requires f.Valid() && A.Valid() && b.Valid()
    requires f.shape == [3] && A.shape == [2, 3] && b.shape == [3]
    ensures Validate(f, A, b, None, None) == Err(AShapeMismatch)
  {
  }
}
