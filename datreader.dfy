/** Reading a data file back. The reader expects the comment line, the scalars
    m1, m2 and n in that order, then the five tables in the order they are
    written, each opened with its own name and read up to its `;`, and nothing
    after the last. Within a table every value is looked up by its indices,
    not by its place in the table. The round trip lemma at the end says that
    the file `dat_write_lin` writes gives back exactly the arrays it was
    written from. */
module DatReader {
  import opened NdArrays
  import opened Validation
  import opened DatFile

  /** What a data file declares: the three dimensions and the values of each
      table in row-major order. */
  datatype Tables = Tables(m1: nat, m2: nat, n: nat,
                           A: seq<real>, b: seq<real>, Aeq: seq<real>, beq: seq<real>, f: seq<real>)

  /** The value a table gives to the matrix position (i, k), 1-based; a later
      line naming the same position overrides an earlier one. */
  function LookupTriple(entries: seq<Record>, i: nat, k: nat): Option<real>
  {
    if entries == [] then None
    else
      var e := entries[|entries| - 1];
      if e.Triple? && e.i == i && e.k == k then Some(e.v)
      else LookupTriple(entries[..|entries| - 1], i, k)
  }

  /** The value a table gives to the vector position i, 1-based. */
  function LookupPair(entries: seq<Record>, i: nat): Option<real>
  {
    if entries == [] then None
    else
      var e := entries[|entries| - 1];
      if e.Pair? && e.i == i then Some(e.v)
      else LookupPair(entries[..|entries| - 1], i)
  }

  /** The first k values of row i (1-based) of a matrix table. */
  function ReadRow(entries: seq<Record>, i: nat, k: nat): Option<seq<real>>
  {
    if k == 0 then Some([])
    else
      match (ReadRow(entries, i, k - 1), LookupTriple(entries, i, k))
      case (Some(row), Some(v)) => Some(row + [v])
      case _ => None
  }

  /** The values of the first rows rows of a matrix table, row-major. */
  function ReadMatrix(entries: seq<Record>, cols: nat, rows: nat): Option<seq<real>>
  {
    if rows == 0 then Some([])
    else
      match (ReadMatrix(entries, cols, rows - 1), ReadRow(entries, rows, cols))
      case (Some(earlier), Some(row)) => Some(earlier + row)
      case _ => None
  }

  /** The first len values of a vector table. */
  function ReadVector(entries: seq<Record>, len: nat): Option<seq<real>>
  {
    if len == 0 then Some([])
    else
      match (ReadVector(entries, len - 1), LookupPair(entries, len))
      case (Some(earlier), Some(v)) => Some(earlier + [v])
      case _ => None
  }

  /** Every line of a matrix table names a position of a rows x cols matrix. */
  predicate MatrixIndexed(entries: seq<Record>, rows: nat, cols: nat)
  {
    forall e :: e in entries ==> e.Triple? && 1 <= e.i <= rows && 1 <= e.k <= cols
  }

  /** Every line of a vector table names a position of a vector of length len. */
  predicate VectorIndexed(entries: seq<Record>, len: nat)
  {
    forall e :: e in entries ==> e.Pair? && 1 <= e.i <= len
  }

  /** The records up to the first `;`, and those after it. */
  function UntilEnd(rs: seq<Record>): Option<(seq<Record>, seq<Record>)>
  {
    if rs == [] then None
    else if rs[0] == End then Some(([], rs[1..]))
    else
      match UntilEnd(rs[1..])
      case None => None
      case Some((entries, rest)) => Some(([rs[0]] + entries, rest))
  }

  /** The tables named, in this order, each closed by `;`, and nothing after the last. */
  function ReadTables(rs: seq<Record>, names: seq<Name>): Option<seq<seq<Record>>>
    decreases |names|
  {
    if names == [] then
      if rs == [] then Some([]) else None
    else if rs == [] || rs[0] != Open(names[0]) then None
    else
      match UntilEnd(rs[1..])
      case None => None
      case Some((entries, rest)) =>
        match ReadTables(rest, names[1..])
        case None => None
        case Some(tables) => Some([entries] + tables)
  }

  /** The comment line and the three dimension scalars, in the order m1, m2, n. */
  function ReadHeader(rs: seq<Record>): Option<(nat, nat, nat)>
  {
    if |rs| < 4 || rs[0] != Comment
       || !rs[1].Scalar? || rs[1].name != ParamM1
       || !rs[2].Scalar? || rs[2].name != ParamM2
       || !rs[3].Scalar? || rs[3].name != ParamN
    then None
    else Some((rs[1].value, rs[2].value, rs[3].value))
  }

  /** The five tables A, b, Aeq, beq, f read as arrays of the declared dimensions. */
  function DecodeTables(m1: nat, m2: nat, n: nat, ts: seq<seq<Record>>): Option<Tables>
  {
    if |ts| != 5
       || !MatrixIndexed(ts[0], m1, n) || !VectorIndexed(ts[1], m1)
       || !MatrixIndexed(ts[2], m2, n) || !VectorIndexed(ts[3], m2) || !VectorIndexed(ts[4], n)
    then None
    else
      match (ReadMatrix(ts[0], n, m1), ReadVector(ts[1], m1), ReadMatrix(ts[2], n, m2),
             ReadVector(ts[3], m2), ReadVector(ts[4], n))
      case (Some(a), Some(b), Some(aeq), Some(beq), Some(f)) =>
        Some(Tables(m1, m2, n, a, b, aeq, beq, f))
      case _ => None
  }

  /** Reads a whole data file. */
  function ReadDat(rs: seq<Record>): Option<Tables>
  {
    match ReadHeader(rs)
    case None => None
    case Some((m1, m2, n)) =>
      match ReadTables(rs[4..], TableOrder)
      case None => None
      case Some(ts) => DecodeTables(m1, m2, n, ts)
  }

  // ---------------------------------------------------------------------------
  // Looking entries up by index

  lemma {:induction false} LookupTripleAppend(xs: seq<Record>, ys: seq<Record>, i: nat, k: nat)
    ensures LookupTriple(xs + ys, i, k) ==
      if LookupTriple(ys, i, k).Some? then LookupTriple(ys, i, k) else LookupTriple(xs, i, k)
  {
    if ys == [] {
      assert xs + ys == xs;
    } else {
      var ys' := ys[..|ys| - 1];
      assert (xs + ys)[..|xs + ys| - 1] == xs + ys';
      LookupTripleAppend(xs, ys', i, k);
    }
  }

  lemma {:induction false} LookupPairAppend(xs: seq<Record>, ys: seq<Record>, i: nat)
    ensures LookupPair(xs + ys, i) ==
      if LookupPair(ys, i).Some? then LookupPair(ys, i) else LookupPair(xs, i)
  {
    if ys == [] {
      assert xs + ys == xs;
    } else {
      var ys' := ys[..|ys| - 1];
      assert (xs + ys)[..|xs + ys| - 1] == xs + ys';
      LookupPairAppend(xs, ys', i);
    }
  }

  /** In the first k0 lines of row r, position (r + 1, k) holds M[r, k - 1]
      when 1 <= k <= k0, and no other position is named. */
  lemma {:induction false} LookupRowEntries(d: seq<real>, cols: nat, r: nat, k0: nat, i: nat, k: nat)
    requires k0 <= cols && r * cols + cols <= |d|
    ensures LookupTriple(RowEntries(d, cols, r, k0), i, k) ==
      if i == r + 1 && 1 <= k <= k0 then Some(d[r * cols + k - 1]) else None
  {
    if k0 > 0 {
      var row := RowEntries(d, cols, r, k0);
      assert row[..|row| - 1] == RowEntries(d, cols, r, k0 - 1);
      LookupRowEntries(d, cols, r, k0 - 1, i, k);
    }
  }

  /** A matrix table gives position (i + 1, k + 1) the value M[i, k]. */
  lemma {:induction false} LookupMatrixEntries(d: seq<real>, cols: nat, rows: nat, i: nat, k: nat)
    requires rows * cols <= |d| && i < rows && k < cols
    ensures i * cols + k < |d|
    ensures LookupTriple(MatrixEntries(d, cols, rows), i + 1, k + 1) == Some(d[i * cols + k])
  {
    RowInside(i, rows, cols);
    var r := rows - 1;
    RowInside(r, rows, cols);
    assert MatrixEntries(d, cols, rows) == MatrixEntries(d, cols, r) + RowEntries(d, cols, r, cols);
    LookupTripleAppend(MatrixEntries(d, cols, r), RowEntries(d, cols, r, cols), i + 1, k + 1);
    LookupRowEntries(d, cols, r, cols, i + 1, k + 1);
    if i < r {
      LookupMatrixEntries(d, cols, r, i, k);
    }
  }

  /** The first k0 lines of a vector table give position i the value v[i - 1]
      when 1 <= i <= k0, and name no other position. */
  lemma {:induction false} LookupVectorEntries(v: seq<real>, k0: nat, i: nat)
    requires k0 <= |v|
    ensures LookupPair(VectorEntries(v, k0), i) == if 1 <= i <= k0 then Some(v[i - 1]) else None
  {
    if k0 > 0 {
      var es := VectorEntries(v, k0);
      assert es[..|es| - 1] == VectorEntries(v, k0 - 1);
      LookupVectorEntries(v, k0 - 1, i);
    }
  }

  // ---------------------------------------------------------------------------
  // Reading the dense tables back

  lemma {:induction false} ReadRowOfMatrix(d: seq<real>, cols: nat, rows: nat, i: nat, k: nat)
    requires rows * cols <= |d| && i < rows && k <= cols
    ensures i * cols + cols <= |d|
    ensures ReadRow(MatrixEntries(d, cols, rows), i + 1, k) == Some(d[i * cols .. i * cols + k])
  {
    RowInside(i, rows, cols);
    if k > 0 {
      ReadRowOfMatrix(d, cols, rows, i, k - 1);
      LookupMatrixEntries(d, cols, rows, i, k - 1);
      assert d[i * cols .. i * cols + k] == d[i * cols .. i * cols + k - 1] + [d[i * cols + k - 1]];
    }
  }

  lemma {:induction false} ReadMatrixOfMatrix(d: seq<real>, cols: nat, rows: nat, j: nat)
    requires rows * cols <= |d| && j <= rows
    ensures j * cols <= |d|
    ensures ReadMatrix(MatrixEntries(d, cols, rows), cols, j) == Some(d[..j * cols])
  {
    if j > 0 {
      RowInside(j - 1, rows, cols);
      RowInside(j - 1, j, cols);
      ReadMatrixOfMatrix(d, cols, rows, j - 1);
      ReadRowOfMatrix(d, cols, rows, j - 1, cols);
      var s := (j - 1) * cols;
      assert s + cols == j * cols;
      assert d[..s + cols] == d[..s] + d[s .. s + cols];
    } else {
      assert j * cols == 0;
    }
  }

  lemma {:induction false} ReadVectorOfVector(v: seq<real>, len: nat, j: nat)
    requires len <= |v| && j <= len
    ensures ReadVector(VectorEntries(v, len), j) == Some(v[..j])
  {
    if j > 0 {
      ReadVectorOfVector(v, len, j - 1);
      LookupVectorEntries(v, len, j);
      assert v[..j] == v[..j - 1] + [v[j - 1]];
    }
  }

  /** Every line of a matrix table names a position inside the matrix. */
  lemma {:induction false} MatrixEntriesIndexed(d: seq<real>, cols: nat, rows: nat)
    requires rows * cols <= |d|
    ensures MatrixIndexed(MatrixEntries(d, cols, rows), rows, cols)
  {
    if rows > 0 {
      RowInside(rows - 1, rows, cols);
      MatrixEntriesIndexed(d, cols, rows - 1);
      RowEntriesIndexed(d, cols, rows - 1, cols);
    }
  }

  lemma {:induction false} RowEntriesIndexed(d: seq<real>, cols: nat, r: nat, k0: nat)
    requires k0 <= cols && r * cols + cols <= |d|
    ensures forall e :: e in RowEntries(d, cols, r, k0) ==> e.Triple? && e.i == r + 1 && 1 <= e.k <= k0
  {
    if k0 > 0 {
      RowEntriesIndexed(d, cols, r, k0 - 1);
    }
  }

  /** Every line of a vector table names a position inside the vector. */
  lemma {:induction false} VectorEntriesIndexed(v: seq<real>, len: nat)
    requires len <= |v|
    ensures VectorIndexed(VectorEntries(v, len), len)
  {
    if len > 0 {
      VectorEntriesIndexed(v, len - 1);
    }
  }

  // ---------------------------------------------------------------------------
  // Splitting the file into its tables

  lemma {:induction false} UntilEndOfTable(entries: seq<Record>, rest: seq<Record>)
    requires End !in entries
    ensures UntilEnd(entries + [End] + rest) == Some((entries, rest))
  {
    if entries == [] {
      assert entries + [End] + rest == [End] + rest;
    } else {
      assert (entries + [End] + rest)[1..] == entries[1..] + [End] + rest;
      UntilEndOfTable(entries[1..], rest);
      assert [entries[0]] + entries[1..] == entries;
    }
  }

  lemma ReadTablesCons(names: seq<Name>, entries: seq<Record>, rest: seq<Record>, tables: seq<seq<Record>>)
    requires |names| > 0 && End !in entries
    requires ReadTables(rest, names[1..]) == Some(tables)
    ensures ReadTables(Table(names[0], entries) + rest, names) == Some([entries] + tables)
  {
    var rs := Table(names[0], entries) + rest;
    assert rs[0] == Open(names[0]);
    assert rs[1..] == entries + [End] + rest;
    UntilEndOfTable(entries, rest);
  }

  /** Tables written one after the other are read back as those tables, when
      no entry is a `;`. */
  lemma {:induction false} ReadTablesText(names: seq<Name>, ts: seq<seq<Record>>)
    requires |names| == |ts|
    requires forall j :: 0 <= j < |ts| ==> End !in ts[j]
    ensures ReadTables(TablesText(names, ts), names) == Some(ts)
  {
    if names != [] {
      assert forall j :: 0 <= j < |ts[1..]| ==> ts[1..][j] == ts[j + 1];
      ReadTablesText(names[1..], ts[1..]);
      ReadTablesCons(names, ts[0], TablesText(names[1..], ts[1..]), ts[1..]);
      assert [ts[0]] + ts[1..] == ts;
    }
  }

  /** The five dense tables of arrays of the declared dimensions decode to those arrays. */
  lemma DecodeDenseTables(m1: nat, m2: nat, n: nat, A: seq<real>, b: seq<real>, Aeq: seq<real>,
                          beq: seq<real>, f: seq<real>)
    requires |A| == m1 * n && |b| == m1 && |Aeq| == m2 * n && |beq| == m2 && |f| == n
    ensures DecodeTables(m1, m2, n, [MatrixEntries(A, n, m1), VectorEntries(b, m1),
                                     MatrixEntries(Aeq, n, m2), VectorEntries(beq, m2),
                                     VectorEntries(f, n)])
            == Some(Tables(m1, m2, n, A, b, Aeq, beq, f))
  {
    MatrixEntriesIndexed(A, n, m1);
    VectorEntriesIndexed(b, m1);
    MatrixEntriesIndexed(Aeq, n, m2);
    VectorEntriesIndexed(beq, m2);
    VectorEntriesIndexed(f, n);
    assert ReadMatrix(MatrixEntries(A, n, m1), n, m1) == Some(A) by {
      ReadMatrixOfMatrix(A, n, m1, m1);
      assert A[..m1 * n] == A;
    }
    assert ReadMatrix(MatrixEntries(Aeq, n, m2), n, m2) == Some(Aeq) by {
      ReadMatrixOfMatrix(Aeq, n, m2, m2);
      assert Aeq[..m2 * n] == Aeq;
    }
    assert ReadVector(VectorEntries(b, m1), m1) == Some(b) by {
      ReadVectorOfVector(b, m1, m1);
      assert b[..m1] == b;
    }
    assert ReadVector(VectorEntries(beq, m2), m2) == Some(beq) by {
      ReadVectorOfVector(beq, m2, m2);
      assert beq[..m2] == beq;
    }
    assert ReadVector(VectorEntries(f, n), n) == Some(f) by {
      ReadVectorOfVector(f, n, n);
      assert f[..n] == f;
    }
  }

  /** A file reads as its header's dimensions applied to its tables. */
  lemma ReadDatSteps(rs: seq<Record>, m1: nat, m2: nat, n: nat, ts: seq<seq<Record>>)
    requires ReadHeader(rs) == Some((m1, m2, n))
    requires ReadTables(rs[4..], TableOrder) == Some(ts)
    ensures ReadDat(rs) == DecodeTables(m1, m2, n, ts)
  {
  }

  /** The file's header reads as the problem's dimensions. */
  lemma ReadHeaderOfDatText(p: Problem)
    requires Writable(p)
    ensures |DatText(p)| >= 4
    ensures ReadHeader(DatText(p)) == Some((p.M1(), p.M2(), p.N()))
  {
    var rs := DatText(p);
    DatTextHeader(p);
    assert rs[1] == rs[..4][1] && rs[2] == rs[..4][2] && rs[3] == rs[..4][3];
  }

  /** After the header come the five tables, in order, and nothing else. */
  lemma ReadTablesOfDatText(p: Problem)
    requires Writable(p)
    ensures |DatText(p)| >= 4
    ensures ReadTables(DatText(p)[4..], TableOrder) == Some(TableEntries(p))
  {
    WritableSizes(p);
    DatTextHeader(p);
    var m1, m2, n := p.M1(), p.M2(), p.N();
    var ts := TableEntries(p);
    assert DatText(p)[4..] == TablesText(TableOrder, ts);
    assert End !in ts[0] by { MatrixEntriesIndexed(p.A.data, n, m1); }
    assert End !in ts[1] by { VectorEntriesIndexed(p.b.data, m1); }
    assert End !in ts[2] by { MatrixEntriesIndexed(p.Aeq.data, n, m2); }
    assert End !in ts[3] by { VectorEntriesIndexed(p.beq.data, m2); }
    assert End !in ts[4] by { VectorEntriesIndexed(p.f.data, n); }
    forall j | 0 <= j < |ts|
      ensures End !in ts[j]
    {
      assert j == 0 || j == 1 || j == 2 || j == 3 || j == 4;
    }
    ReadTablesText(TableOrder, ts);
  }

  /** Reading the file `dat_write_lin` writes gives back the dimensions and
      every entry of the five arrays: the tables come in the order A, b, Aeq,
      beq, f, each is closed by one `;`, each line names a position inside its
      array, and looking the positions up by index rebuilds the arrays. */
  lemma DatTextRoundTrip(p: Problem)
    requires Writable(p)
    ensures ReadDat(DatText(p)) == Some(Tables(p.M1(), p.M2(), p.N(),
                                              p.A.data, p.b.data, p.Aeq.data, p.beq.data, p.f.data))
  {
    WritableSizes(p);
    ReadHeaderOfDatText(p);
    ReadTablesOfDatText(p);
    ReadDatSteps(DatText(p), p.M1(), p.M2(), p.N(), TableEntries(p));
    DecodeDenseTables(p.M1(), p.M2(), p.N(), p.A.data, p.b.data, p.Aeq.data, p.beq.data, p.f.data);
  }
}
