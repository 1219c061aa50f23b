/** The data file written by `dat_write_lin`, as the sequence of records it is
    made of rather than as text: a comment line, the three dimension scalars
    `m1`, `m2`, `n`, then the tables `A`, `b`, `Aeq`, `beq`, `f`, each listing
    every entry (zeros included) with 1-based indices in row-major order and
    closed by `;`. */
module DatFile {
  import opened NdArrays
  import opened Validation

  /** Names of the parameters the file declares. */
  datatype Name = ParamM1 | ParamM2 | ParamN | ParamA | ParamB | ParamAeq | ParamBeq | ParamF

  /** One syntactic unit of the data file. */
  datatype Record =
    | Comment                          // the "automatically generated" banner
    | Scalar(name: Name, value: nat)   // `param m1 := 3 ;`
    | Open(name: Name)                 // `param A :=`
    | Triple(i: nat, k: nat, v: real)  // `i k v`, an entry of a matrix table
    | Pair(i: nat, v: real)            // `i v`, an entry of a vector table
    | End                              // `;` closing a table

  // ---------------------------------------------------------------------------
  // What the writer produces

  /** The first k entries of row i (0-based) of a row-major matrix with cols columns. */
  function RowEntries(d: seq<real>, cols: nat, i: nat, k: nat): seq<Record>
    requires k <= cols && i * cols + cols <= |d|
  {
    if k == 0 then [] else RowEntries(d, cols, i, k - 1) + [Triple(i + 1, k, d[i * cols + k - 1])]
  }

  /** The entries of the first rows rows of a row-major matrix with cols columns. */
  function MatrixEntries(d: seq<real>, cols: nat, rows: nat): seq<Record>
    requires rows * cols <= |d|
  {
    if rows == 0 then []
    else
      assert (rows - 1) * cols + cols == rows * cols;
      MatrixEntries(d, cols, rows - 1) + RowEntries(d, cols, rows - 1, cols)
  }

  /** The entries of the first k positions of a vector. */
  function VectorEntries(v: seq<real>, k: nat): seq<Record>
    requires k <= |v|
  {
    if k == 0 then [] else VectorEntries(v, k - 1) + [Pair(k, v[k - 1])]
  }

  /** A table: its opening line, its entries, its closing `;`. */
  function Table(name: Name, entries: seq<Record>): seq<Record>
  {
    [Open(name)] + entries + [End]
  }

  /** What the writer needs: the shapes the guards of `linprog` establish, and
      entries of f that are single numbers (always so for a one-dimensional f),
      since each is formatted with `%e`. */
  predicate Writable(p: Problem)
  {
    p.Consistent() && |p.f.data| == p.N()
  }

  lemma WritableSizes(p: Problem)
    requires Writable(p)
    ensures |p.A.data| == p.M1() * p.N() && |p.Aeq.data| == p.M2() * p.N()
    ensures |p.b.data| == p.M1() && |p.beq.data| == p.M2() && |p.f.data| == p.N()
  {
    assert p.A.shape == [p.M1(), p.N()] && p.Aeq.shape == [p.M2(), p.N()];
    assert p.b.shape == [p.M1()] && p.beq.shape == [p.M2()];
    SizeOfMatrix(p.M1(), p.N());
    SizeOfMatrix(p.M2(), p.N());
    SizeOfVector(p.M1());
    SizeOfVector(p.M2());
  }

  /** The comment line and the three dimension scalars m1, m2, n. */
  function Header(p: Problem): seq<Record>
    requires p.Consistent()
  {
    [Comment, Scalar(ParamM1, p.M1()), Scalar(ParamM2, p.M2()), Scalar(ParamN, p.N())]
  }

  /** The order in which the tables are written. */
  const TableOrder: seq<Name> := [ParamA, ParamB, ParamAeq, ParamBeq, ParamF]

  /** The entries of the tables of a problem's file, in the order of `TableOrder`. */
  function TableEntries(p: Problem): seq<seq<Record>>
    requires Writable(p)
  {
    WritableSizes(p);
    [MatrixEntries(p.A.data, p.N(), p.M1()), VectorEntries(p.b.data, p.M1()),
     MatrixEntries(p.Aeq.data, p.N(), p.M2()), VectorEntries(p.beq.data, p.M2()),
     VectorEntries(p.f.data, p.N())]
  }

  /** The named tables written one after the other. */
  function TablesText(names: seq<Name>, ts: seq<seq<Record>>): seq<Record>
    requires |names| == |ts|
    decreases |names|
  {
    if names == [] then [] else Table(names[0], ts[0]) + TablesText(names[1..], ts[1..])
  }

  /** The whole file for a problem: the header, then its tables. */
  function DatText(p: Problem): seq<Record>
    requires Writable(p)
  {
    Header(p) + TablesText(TableOrder, TableEntries(p))
  }

  /** Five tables written after a prefix h, one after the other. */
  lemma TablesTextOfFive(h: seq<Record>, names: seq<Name>, ts: seq<seq<Record>>)
    requires |names| == 5 && |ts| == 5
    ensures h + TablesText(names, ts) ==
      h + Table(names[0], ts[0]) + Table(names[1], ts[1]) + Table(names[2], ts[2])
      + Table(names[3], ts[3]) + Table(names[4], ts[4])
  {
    var t0, t1, t2, t3, t4 := Table(names[0], ts[0]), Table(names[1], ts[1]), Table(names[2], ts[2]),
                              Table(names[3], ts[3]), Table(names[4], ts[4]);
    assert TablesText(names[4..], ts[4..]) == t4 by {
      assert names[4..][1..] == [] && ts[4..][1..] == [];
      assert t4 + [] == t4;
    }
    assert TablesText(names[3..], ts[3..]) == t3 + t4 by {
      assert names[3..][1..] == names[4..] && ts[3..][1..] == ts[4..];
    }
    assert TablesText(names[2..], ts[2..]) == t2 + (t3 + t4) by {
      assert names[2..][1..] == names[3..] && ts[2..][1..] == ts[3..];
    }
    assert TablesText(names[1..], ts[1..]) == t1 + (t2 + (t3 + t4)) by {
      assert names[1..][1..] == names[2..] && ts[1..][1..] == ts[2..];
    }
    assert TablesText(names, ts) == t0 + (t1 + (t2 + (t3 + t4)));
    assert h + (t0 + (t1 + (t2 + (t3 + t4)))) == h + t0 + t1 + t2 + t3 + t4;
  }

  // ---------------------------------------------------------------------------
  // The writer

  /** One nested loop of `dat_write_lin` with the lines around it: the table
      opening, the lines `i k M[i, k]` of the matrix row by row, 1-based, and
      the closing `;`. */
  method WriteMatrixTable(before: seq<Record>, name: Name, M: NdArray, rows: nat, cols: nat)
    returns (out: seq<Record>)
    requires M.Valid() && M.shape == [rows, cols] && |M.data| == rows * cols
    ensures out == before + Table(name, MatrixEntries(M.data, cols, rows))
  {
    out := before + [Open(name)];
    for i := 0 to rows
      invariant i * cols <= rows * cols
      invariant out == before + [Open(name)] + MatrixEntries(M.data, cols, i)
    {
      RowInside(i, rows, cols);
      for k := 0 to cols
        invariant out == before + [Open(name)] + MatrixEntries(M.data, cols, i) + RowEntries(M.data, cols, i, k)
      {
        out := out + [Triple(i + 1, k + 1, M.At(i, k))];
      }
    }
    out := out + [End];
  }

  /** One simple loop of `dat_write_lin` with the lines around it: the table
      opening, the lines `i v[i]` of the vector, 1-based, and the closing `;`. */
  method WriteVectorTable(before: seq<Record>, name: Name, v: NdArray, len: nat) returns (out: seq<Record>)
    requires len <= |v.data|
    ensures out == before + Table(name, VectorEntries(v.data, len))
  {
    out := before + [Open(name)];
    for i := 0 to len
      invariant out == before + [Open(name)] + VectorEntries(v.data, i)
    {
      out := out + [Pair(i + 1, v.data[i])];
    }
    out := out + [End];
  }

  /** `dat_write_lin`: the header, then the five tables in the order of the
      source's loops, each closed by `;`. */
  method DatWriteLin(f: NdArray, A: NdArray, b: NdArray, Aeq: NdArray, beq: NdArray)
    returns (out: seq<Record>)
    requires Writable(Problem(f, A, b, Aeq, beq))
    ensures out == DatText(Problem(f, A, b, Aeq, beq))
  {
    var m1 := b.shape[0];
    var n := f.shape[0];
    var m2 := beq.shape[0];
    ghost var p := Problem(f, A, b, Aeq, beq);
    assert p.M1() == m1 && p.M2() == m2 && p.N() == n;
    WritableSizes(p);
    TablesTextOfFive(Header(p), TableOrder, TableEntries(p));

    out := [Comment, Scalar(ParamM1, m1), Scalar(ParamM2, m2), Scalar(ParamN, n)];
    out := WriteMatrixTable(out, ParamA, A, m1, n);
    out := WriteVectorTable(out, ParamB, b, m1);
    out := WriteMatrixTable(out, ParamAeq, Aeq, m2, n);
    out := WriteVectorTable(out, ParamBeq, beq, m2);
    out := WriteVectorTable(out, ParamF, f, n);
  }

  // ---------------------------------------------------------------------------
  // Counts and positions of the entries

  /** The file opens by declaring m1 = len b, m2 = len beq and n = len f. */
  lemma DatTextHeader(p: Problem)
    requires Writable(p)
    ensures |DatText(p)| >= 4
    ensures DatText(p)[..4] ==
      [Comment, Scalar(ParamM1, |p.b.data|), Scalar(ParamM2, |p.beq.data|), Scalar(ParamN, |p.f.data|)]
  {
    WritableSizes(p);
    assert DatText(p)[..4] == Header(p);
  }

  lemma {:induction false} RowEntriesLength(d: seq<real>, cols: nat, i: nat, k: nat)
    requires k <= cols && i * cols + cols <= |d|
    ensures |RowEntries(d, cols, i, k)| == k
  {
    if k > 0 {
      RowEntriesLength(d, cols, i, k - 1);
    }
  }

  lemma {:induction false} RowEntryAt(d: seq<real>, cols: nat, i: nat, k: nat, q: nat)
    requires k <= cols && i * cols + cols <= |d| && q < k
    ensures |RowEntries(d, cols, i, k)| == k
    ensures RowEntries(d, cols, i, k)[q] == Triple(i + 1, q + 1, d[i * cols + q])
  {
    RowEntriesLength(d, cols, i, k);
    if q < k - 1 {
      RowEntryAt(d, cols, i, k - 1, q);
    }
  }

  /** A matrix table has exactly rows * cols entries, zeros included. */
  lemma {:induction false} MatrixEntriesLength(d: seq<real>, cols: nat, rows: nat)
    requires rows * cols <= |d|
    ensures |MatrixEntries(d, cols, rows)| == rows * cols
  {
    if rows > 0 {
      assert (rows - 1) * cols + cols == rows * cols;
      MatrixEntriesLength(d, cols, rows - 1);
      RowEntriesLength(d, cols, rows - 1, cols);
    }
  }

  /** Appending a row leaves the entries of the earlier rows where they were. */
  lemma EarlierRowsKept(d: seq<real>, cols: nat, rows: nat, pos: nat)
    requires 0 < rows && rows * cols <= |d|
    requires pos < |MatrixEntries(d, cols, rows - 1)|
    ensures pos < |MatrixEntries(d, cols, rows)|
    ensures MatrixEntries(d, cols, rows)[pos] == MatrixEntries(d, cols, rows - 1)[pos]
  {
  }

  /** The last row's entries follow the earlier rows'. */
  lemma {:induction false} LastRowEntry(d: seq<real>, cols: nat, rows: nat, k: nat)
    requires 0 < rows && rows * cols <= |d| && k < cols
    ensures (rows - 1) * cols + cols <= |d|
    ensures (rows - 1) * cols + k < |MatrixEntries(d, cols, rows)|
    ensures MatrixEntries(d, cols, rows)[(rows - 1) * cols + k] ==
      Triple(rows, k + 1, d[(rows - 1) * cols + k])
  {
    var r := rows - 1;
    RowInside(r, rows, cols);
    MatrixEntriesLength(d, cols, r);
    RowEntryAt(d, cols, r, cols, k);
    var earlier := MatrixEntries(d, cols, r);
    var last := RowEntries(d, cols, r, cols);
    assert MatrixEntries(d, cols, rows) == earlier + last;
    assert (earlier + last)[|earlier| + k] == last[k];
  }

  /** The entry of a matrix table at position i * cols + k is `(i + 1, k + 1, M[i, k])`. */
  lemma {:induction false} MatrixEntryAt(d: seq<real>, cols: nat, rows: nat, i: nat, k: nat)
    requires rows * cols <= |d| && i < rows && k < cols
    ensures i * cols + k < rows * cols
    ensures |MatrixEntries(d, cols, rows)| == rows * cols
    ensures MatrixEntries(d, cols, rows)[i * cols + k] == Triple(i + 1, k + 1, d[i * cols + k])
  {
    RowInside(i, rows, cols);
    MatrixEntriesLength(d, cols, rows);
    if i < rows - 1 {
      RowInside(rows - 1, rows, cols);
      MatrixEntryAt(d, cols, rows - 1, i, k);
      EarlierRowsKept(d, cols, rows, i * cols + k);
    } else {
      LastRowEntry(d, cols, rows, k);
    }
  }

  /** A vector table has exactly k entries, the one at position i being `(i + 1, v[i])`. */
  lemma {:induction false} VectorEntriesShape(v: seq<real>, k: nat)
    requires k <= |v|
    ensures |VectorEntries(v, k)| == k
    ensures forall i :: 0 <= i < k ==> VectorEntries(v, k)[i] == Pair(i + 1, v[i])
  {
    if k > 0 {
      VectorEntriesShape(v, k - 1);
    }
  }

  /** Entries per table and the one ";" per table add up to the file's length. */
  lemma DatTextLength(p: Problem)
    requires Writable(p)
    ensures |DatText(p)| == 4 + p.M1() * p.N() + p.M1() + p.M2() * p.N() + p.M2() + p.N() + 5 * 2
  {
    WritableSizes(p);
    TablesTextOfFive(Header(p), TableOrder, TableEntries(p));
    MatrixEntriesLength(p.A.data, p.N(), p.M1());
    MatrixEntriesLength(p.Aeq.data, p.N(), p.M2());
    VectorEntriesShape(p.b.data, p.M1());
    VectorEntriesShape(p.beq.data, p.M2());
    VectorEntriesShape(p.f.data, p.N());
  }
}
