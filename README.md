# Linear-programming data file helper

This project models the logic of `Modulo3/pyomo_utilities.py` that the
package itself contributes:

- the **validation and normalisation** that open `linprog`. This step checks
  the problem `minimise f'x subject to A x <= b, Aeq x = beq`. It checks the
  ranks of the arrays, checks that their shapes agree, and checks that Aeq and
  beq are given together. When neither Aeq nor beq is given, it substitutes
  the equality row `0 x = 0`.
- **`dat_write_lin`**, the writer of the data file handed to the modelling
  framework. The file holds a header declaring `m1`, `m2` and `n`, then five
  parameter tables in a fixed order: `A`, `b`, `Aeq`, `beq` and `f`. Each
  table lists its entries 1-based and row-major, and is closed by `;`.

The files are:

- `ndarray.dfy` (module `NdArrays`) models NumPy arrays as a shape plus
  row-major entries. Entries are reals.
- `validation.dfy` (module `Validation`) holds the guard sequence as the
  function `Validate`. It returns either the normalised `Problem` or the first
  exception raised, as an `Error`.
- `datfile.dfy` (module `DatFile`) models the data file as a sequence of
  `Record`s, one per line:
  - the comment line;
  - a `param x := v ;` scalar;
  - a `param X :=` table opening;
  - an `i k v` entry;
  - an `i v` entry;
  - the closing `;`.

  `DatText` specifies the whole file: the header, then the tables named in
  `TableOrder` with the entries `TableEntries` gives them. The method `DatWriteLin` builds the
  file the way the source does, one line per loop iteration, and is proved
  to produce `DatText`.
- `datreader.dfy` (module `DatReader`) is a reader for such files, written
  independently of the writer. It expects the comment line, then the scalars
  m1, m2 and n in that order, then the five tables in the order they are
  written, and nothing after the last `;`. It checks the name that opens each
  table, and within a table it looks every entry up by its indices rather than
  by its position. Its lemma is the round trip: reading back any file that
  was written gives back the dimensions and every entry of the five arrays.
- `linprog.dfy` (module `Linprog`) is `linprog` up to its call of
  `dat_write_lin`: the validation, then the writing. It also holds lemmas
  about the problem without equality constraints and about the examples.

Two details of the code matter for the error order:

- **The first axes are read before any rank is checked.** `b.shape[0]` and
  `f.shape[0]` are read before any rank check, and `beq.shape[0]` before
  beq's own check. A 0-dimensional b, f or beq therefore raises an
  `IndexError` before the `ValueError`s, modelled as `NoFirstAxis`. So an A
  with `ndim == 1` is always rejected, but with b's or f's error when one of
  those fails first.
- **The rank of f is never checked; only its first axis is used.** The
  `%e` formatting of `f[k]` succeeds only when each `f[k]` is a single number.
  In NumPy that means an array of size one. The model therefore writes f
  exactly when it holds `f.shape[0]` entries. Otherwise it ends in the
  `TypeError` modelled as `FEntryNotNumber`. For example, an n x 1 column f
  is accepted and written.

## Model

| member | source | states |
|---|---|---|
| `Validation.Validate` | Modulo3/pyomo_utilities.py:90-125 | The problem is accepted exactly when b is a vector and A has shape (len b, len f), and Aeq and beq are either both absent or both present with beq a vector and Aeq of shape (len beq, len f). On acceptance, f, A and b are passed through unchanged. A supplied Aeq and beq are passed through too; when both are absent, the equality block is a single all-zero row of length n with beq = [0] and m2 = 1. Each rejection is named with the error of the first guard it fails, in source order: the first axes of b and f, b's rank, A's rank, A's shape, the pairing of Aeq and beq, the first axis of beq, beq's rank, Aeq's rank, Aeq's shape. |
| `Validation.InequalityErrorsIgnoreEquality` | Modulo3/pyomo_utilities.py:92-104 | An error raised by the checks on b, f and A is the same whatever Aeq and beq are passed alongside. |
| `Validation.RankErrorsAlwaysRaised` | Modulo3/pyomo_utilities.py:95-100 | A b that is not one-dimensional or an A that is not two-dimensional is always rejected, by one of the guards on b, f and A. |
| `Validation.ObjectiveRankNotChecked` | Modulo3/pyomo_utilities.py:92-93 | Two objectives with the same first-axis length, of any ranks, get the same verdict and the same error. |
| `Validation.ValidateIdempotent` | Modulo3/pyomo_utilities.py:106-125 | A normalised problem passed back in with its equality block supplied is accepted unchanged. |
| `NdArrays.Zeros` | Modulo3/pyomo_utilities.py:108 | `np.zeros((rows, cols))` has shape (rows, cols) and every entry is 0. |
| `DatFile.WriteMatrixTable` | Modulo3/pyomo_utilities.py:26-29 | The nested loops append the table opening, then one `(i+1, k+1, M[i,k])` line per entry in row-major order, then the closing `;`. Nothing written before is changed. |
| `DatFile.WriteVectorTable` | Modulo3/pyomo_utilities.py:30-31 | The loop appends the table opening, then one `(i+1, v[i])` line per entry in order, then the closing `;`. Nothing written before is changed. |
| `DatFile.DatWriteLin` | Modulo3/pyomo_utilities.py:14-45 | Writing a consistent problem produces exactly the file `DatText`: the header, then the tables A, b, Aeq, beq and f in that order. |
| `DatFile.DatTextHeader` | Modulo3/pyomo_utilities.py:16-25 | The file opens with the comment and declares m1 = len b, m2 = len beq and n = len f. |
| `DatFile.MatrixEntriesLength` | Modulo3/pyomo_utilities.py:26-28 | A matrix table has exactly rows * cols entries, zeros included. |
| `DatFile.MatrixEntryAt` | Modulo3/pyomo_utilities.py:26-28 | Entry number i * cols + k of a matrix table is `(i+1, k+1, M[i, k])`. |
| `DatFile.VectorEntriesShape` | Modulo3/pyomo_utilities.py:30-31 | A vector table has exactly len entries, and entry i is `(i+1, v[i])`. |
| `DatFile.DatTextLength` | Modulo3/pyomo_utilities.py:24-42 | The file has 4 + m1*n + m1 + m2*n + m2 + n + 10 lines. That is the header, every entry of each block, and an opening and a `;` per table. |
| `DatReader.LookupMatrixEntries` | Modulo3/pyomo_utilities.py:26-28 | Looking up index (i+1, k+1) in a written matrix table finds `M[i, k]`. Indices outside the matrix are covered by `DatReader.MatrixEntriesIndexed`. |
| `DatReader.LookupVectorEntries` | Modulo3/pyomo_utilities.py:30-31 | Looking up index i+1 in a written vector table finds `v[i]`, and every index outside the vector is absent. |
| `DatReader.MatrixEntriesIndexed` | Modulo3/pyomo_utilities.py:26-28 | Every line of a matrix table is a (row, column, value) entry with row in 1..rows and column in 1..cols. |
| `DatReader.VectorEntriesIndexed` | Modulo3/pyomo_utilities.py:30-31 | Every line of a vector table is an (index, value) entry with index in 1..len. |
| `DatReader.ReadTablesText` | Modulo3/pyomo_utilities.py:29-42 | Tables written one after the other, each closed by its `;`, are split back into exactly those tables under their names. |
| `DatReader.DatTextRoundTrip` | Modulo3/pyomo_utilities.py:14-45 | Reading the written file back gives the declared m1, m2 and n, and A, b, Aeq, beq and f entry for entry. |
| `Linprog.PrepareDataFile` | Modulo3/pyomo_utilities.py:90-128 | A rejected problem raises before anything is written. An accepted problem whose f entries are not single numbers fails in the formatting. Otherwise, and only then, the data file of the normalised problem is written. |
| `Linprog.NoEqualityDataFile` | Modulo3/pyomo_utilities.py:107-110 | Without equality constraints, the file read back declares m2 = 1, has an Aeq of n zeros and beq = [0], and carries A, b and f unchanged. |
| `Linprog.SourceExample` | Modulo3/pyomo_utilities.py:147-151 | For f = [2, 3], A = [[-3, -4]], b = [-1] and no equality constraints, the problem is accepted and the normalised Aeq is [[0, 0]] and beq is [0]. |
| `Linprog.SourceExampleFile` | Modulo3/pyomo_utilities.py:147-151 | The file written for that normalised problem declares m1 = 1, m2 = 1, n = 2 and lists every entry of each of the five tables. |
| `Linprog.ShapeMismatchExample` | Modulo3/pyomo_utilities.py:102-104 | An A of shape (2, 3) with b of length 3 is rejected for its shape. |

## Left out

- `linprog_model` (lines 47-88) is not modelled. It builds the abstract model inside the modelling framework, and its equality rule's early feasibility return compares a symbolic expression. Both live in framework code that is not part of this model.
- The solver call, the printing of its report and the reading of the solution (lines 131-144) are not modelled. These steps are external to the package.
- The file system is not modelled. This covers opening, overwriting and closing the fixed path `default.dat`, and the interference between calls sharing that path. The file is modelled as the sequence of its lines.
- The text of each line is abstracted into a `Record`. The `%i`/`%e` formatting, its six-digit rounding and floating-point numbers in general are left out. Entries are exact reals, so the round trip is exact.
- DatWriteLin: requires an f whose every entry is a single number. `PrepareDataFile` states the `TypeError` raised otherwise, but not the partial file that the source leaves behind when that happens.
- Validate: presence of Aeq and beq is modelled as `Option`. NumPy's `np.any(x == None)` tests on lines 107 and 111 also have a corner case: an empty array with the other argument absent falls through to the final branch. There it fails with an `AttributeError`, or with beq's rank error when beq is an empty array of rank 2 or more. Arguments that are neither arrays nor `None` are likewise not modelled.
- Validate: the exception messages are not modelled. Each guard has a distinct `Error` value instead. This matters because the messages of lines 119 and 122 repeat the wording of lines 97 and 100. The exception classes (`IndexError`, `ValueError`, `TypeError`) are named in the comments of `Error`.
