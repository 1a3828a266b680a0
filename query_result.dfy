/**
 * Decoder of query results sent by the trace processor to its Python client.
 *
 * A result arrives as a list of batches. Each batch carries a sequence of cell-type tags
 * and one value pool per cell type. String values arrive as one text where each value
 * is followed by a NUL character. Decoding spreads cell i over the column-major table
 * `columns[i % columnCount, i / columnCount]`. Each cell takes the next unread value of
 * its type's pool, the pools being chained across batches. The iterator then hands out
 * one row at a time.
 *
 * Text is taken as already decoded: the byte-to-text step, which drops invalid UTF-8,
 * is outside the model. Floating-point cells are carried as opaque 64-bit payloads.
 */
module QueryResult {
  import opened Wrappers

  const Nul: char := '\0'

  // ---------------------------------------------------------------------------
  // String pool splitting

  /** Number of NUL characters in `s`. */
  function NulCount(s: string): nat
  {
    if |s| == 0 then 0 else (if s[0] == Nul then 1 else 0) + NulCount(s[1..])
  }

  /** Splitting at every NUL, as Python's `str.split('\0')` does: never empty, pieces NUL-free. */
  function Split(s: string): (r: seq<string>)
    ensures |r| == NulCount(s) + 1
    ensures forall k :: 0 <= k < |r| ==> Nul !in r[k]
  {
    if |s| == 0 then [""]
    else
      var rest := Split(s[1..]);
      if s[0] == Nul then [""] + rest
      else [[s[0]] + rest[0]] + rest[1..]
  }

  /** The pieces glued back with a NUL between neighbours (Python's `'\0'.join`). */
  function Join(parts: seq<string>): string
    requires |parts| >= 1
  {
    if |parts| == 1 then parts[0] else parts[0] + [Nul] + Join(parts[1..])
  }

  /**
   * `_extract_strings`: split at NUL and drop the last piece, which is the empty text
   * after the final terminator of a well-formed pool.
   */
  function ExtractStrings(x: string): (r: seq<string>)
    ensures |r| == NulCount(x)
    ensures forall k :: 0 <= k < |r| ==> Nul !in r[k]
  {
    var parts := Split(x);
    parts[..|parts| - 1]
  }

  /** The encoding the pool uses: every value followed by one NUL. */
  function Terminated(xs: seq<string>): string
  {
    if |xs| == 0 then "" else xs[0] + [Nul] + Terminated(xs[1..])
  }

  /** Splitting loses nothing: joining the pieces gives the input back. */
  lemma {:induction false} SplitJoin(s: string)
    ensures Join(Split(s)) == s
  {
    if |s| > 0 {
      SplitJoin(s[1..]);
      var rest := Split(s[1..]);
      if s[0] != Nul && |rest| > 1 {
        assert Join(rest) == rest[0] + [Nul] + Join(rest[1..]);
      }
    }
  }

  lemma {:induction false} SplitAfterTerminator(x: string, t: string)
    requires Nul !in x
    ensures Split(x + [Nul] + t) == [x] + Split(t)
  {
    if |x| == 0 {
      assert ([Nul] + t)[1..] == t;
    } else {
      SplitAfterTerminator(x[1..], t);
      assert (x + [Nul] + t)[1..] == x[1..] + [Nul] + t;
      assert [x[0]] + x[1..] == x;
    }
  }

  lemma {:induction false} SplitTerminated(xs: seq<string>)
    requires forall k :: 0 <= k < |xs| ==> Nul !in xs[k]
    ensures Split(Terminated(xs)) == xs + [""]
  {
    if |xs| > 0 {
      SplitTerminated(xs[1..]);
      SplitAfterTerminator(xs[0], Terminated(xs[1..]));
    }
  }

  /** Decoding a pool of NUL-free values, each followed by NUL, gives back the values. */
  lemma ExtractStringsRoundTrip(xs: seq<string>)
    requires forall k :: 0 <= k < |xs| ==> Nul !in xs[k]
    ensures ExtractStrings(Terminated(xs)) == xs
  {
    SplitTerminated(xs);
  }

  /** The two examples: "a\0b\0" gives ["a", "b"], and the empty text gives no value. */
  lemma ExtractStringsExamples()
    ensures ExtractStrings("a\0b\0") == ["a", "b"]
    ensures ExtractStrings("") == []
  {
    ExtractStringsRoundTrip(["a", "b"]);
    assert Terminated(["a", "b"]) == "a\0b\0";
  }

  // ---------------------------------------------------------------------------
  // Batches, cells and values

  /** Cell tags; `FieldId` gives the protocol's field number of each. */
  datatype CellType = CellInvalid | CellNull | CellVarint | CellFloat64 | CellString | CellBlob

  function FieldId(t: CellType): (id: nat)
    ensures id < 6
  {
    match t
    case CellInvalid => 0
    case CellNull => 1
    case CellVarint => 2
    case CellFloat64 => 3
    case CellString => 4
    case CellBlob => 5
  }

  /** An IEEE-754 double carried without interpretation. */
  datatype Float64 = Float64(bits: bv64)

  type Blob = seq<bv8>

  datatype Batch = Batch(
    cells: seq<CellType>,
    varintCells: seq<int>,
    float64Cells: seq<Float64>,
    stringCells: string,
    blobCells: seq<Blob>,
    isLastBatch: bool)

  /** A decoded cell; `NoneValue` is Python's None. */
  datatype Value = NoneValue | IntValue(i: int) | FloatValue(f: Float64) | StrValue(s: string) | BlobValue(b: Blob)

  /** The exceptions the constructor can raise. */
  datatype QueryError =
    | MissingLastBatchFlag                                   // PerfettoException
    | CellCountNotDivisible(cellCount: nat, columnCount: nat) // PerfettoException
    | DivisionByZero                                         // ZeroDivisionError
    | IndexError(cell: nat)                                  // IndexError at this cell

  /** All cell tags, batch after batch. */
  function AllCells(batches: seq<Batch>): seq<CellType>
  {
    if |batches| == 0 then [] else batches[0].cells + AllCells(batches[1..])
  }

  function Chain(xss: seq<seq<Value>>): seq<Value>
  {
    if |xss| == 0 then [] else xss[0] + Chain(xss[1..])
  }

  function IntValues(xs: seq<int>): (r: seq<Value>)
    ensures |r| == |xs| && forall k :: 0 <= k < |xs| ==> r[k] == IntValue(xs[k])
  {
    seq(|xs|, k requires 0 <= k < |xs| => IntValue(xs[k]))
  }

  function FloatValues(xs: seq<Float64>): (r: seq<Value>)
    ensures |r| == |xs| && forall k :: 0 <= k < |xs| ==> r[k] == FloatValue(xs[k])
  {
    seq(|xs|, k requires 0 <= k < |xs| => FloatValue(xs[k]))
  }

  function StrValues(xs: seq<string>): (r: seq<Value>)
    ensures |r| == |xs| && forall k :: 0 <= k < |xs| ==> r[k] == StrValue(xs[k])
  {
    seq(|xs|, k requires 0 <= k < |xs| => StrValue(xs[k]))
  }

  function BlobValues(xs: seq<Blob>): (r: seq<Value>)
    ensures |r| == |xs| && forall k :: 0 <= k < |xs| ==> r[k] == BlobValue(xs[k])
  {
    seq(|xs|, k requires 0 <= k < |xs| => BlobValue(xs[k]))
  }

  /**
   * The six value pools indexed by field id, each chained across the batches; the
   * INVALID and NULL pools are empty.
   */
  function CellPools(batches: seq<Batch>): (pools: seq<seq<Value>>)
    ensures |pools| == 6 && pools[0] == [] && pools[1] == []
  {
    [ [],
      [],
      Chain(seq(|batches|, i requires 0 <= i < |batches| => IntValues(batches[i].varintCells))),
      Chain(seq(|batches|, i requires 0 <= i < |batches| => FloatValues(batches[i].float64Cells))),
      Chain(seq(|batches|, i requires 0 <= i < |batches| => StrValues(ExtractStrings(batches[i].stringCells)))),
      Chain(seq(|batches|, i requires 0 <= i < |batches| => BlobValues(batches[i].blobCells)))
    ]
  }

  /** Number of cells of type `t` in `s`. */
  function Occurrences(s: seq<CellType>, t: CellType): nat
  {
    if |s| == 0 then 0
    else Occurrences(s[..|s| - 1], t) + (if s[|s| - 1] == t then 1 else 0)
  }

  /**
   * What cell `i` decodes to: None for a NULL cell, and otherwise the value of its
   * type's pool at position k, where k counts the earlier cells of the same type.
   * `None` (no value) is the IndexError raised when that pool has no k-th value
   * (always so for an INVALID cell, whose pool is empty) or when there is no cell i.
   */
  function CellValue(cells: seq<CellType>, pools: seq<seq<Value>>, i: nat): (v: Option<Value>)
    requires |pools| == 6
    ensures i >= |cells| ==> v.None?
    ensures i < |cells| && cells[i] == CellNull ==> v == Some(NoneValue)
    ensures i < |cells| && cells[i] == CellInvalid && pools[FieldId(CellInvalid)] == [] ==> v.None?
    ensures v.Some? && i < |cells| && cells[i] != CellNull ==> v.value in pools[FieldId(cells[i])]
  {
    if i >= |cells| then None
    else if cells[i] == CellNull then Some(NoneValue)
    else
      var pool := pools[FieldId(cells[i])];
      var k := Occurrences(cells[..i], cells[i]);
      if k < |pool| then Some(pool[k]) else None
  }

  /** The first n cells all decode. */
  ghost predicate Decodable(cells: seq<CellType>, pools: seq<seq<Value>>, n: nat)
    requires |pools| == 6
  {
    forall j :: 0 <= j < n ==> CellValue(cells, pools, j).Some?
  }

  /**
   * The validation the constructor performs before decoding any cell: batches pass
   * exactly when the last one carries the flag and, with at least one column, each holds
   * whole rows; then all the cells together hold whole rows too.
   */
  function Precheck(columnCount: nat, batches: seq<Batch>): (err: Option<QueryError>)
    ensures err.None? <==>
              && (|batches| > 0 ==> batches[|batches| - 1].isLastBatch)
              && (columnCount > 0 ==> forall j :: 0 <= j < |batches| ==> |batches[j].cells| % columnCount == 0)
    ensures err.Some? ==>
              err.value == MissingLastBatchFlag ||
              err.value == CellCountNotDivisible(|AllCells(batches)|, columnCount)
    ensures err.None? && columnCount > 0 ==> |AllCells(batches)| % columnCount == 0
  {
    if |batches| > 0 && !batches[|batches| - 1].isLastBatch then Some(MissingLastBatchFlag)
    else if columnCount > 0 && exists j :: 0 <= j < |batches| && |batches[j].cells| % columnCount != 0 then
      Some(CellCountNotDivisible(|AllCells(batches)|, columnCount))
    else if columnCount > 0 then
      WholeRows(batches, columnCount);
      None
    else None
  }

  /**
   * `row_count`: cells per column, or 0 without columns. When the cells hold whole rows,
   * the rows times the columns give back the number of cells.
   */
  function RowCount(columnCount: nat, batches: seq<Batch>): (n: nat)
    ensures columnCount == 0 ==> n == 0
    ensures columnCount > 0 && |AllCells(batches)| % columnCount == 0 ==> n * columnCount == |AllCells(batches)|
  {
    if columnCount > 0 then
      var cellCount := |AllCells(batches)|;
      if cellCount % columnCount == 0 then DivExact(cellCount, columnCount); cellCount / columnCount
      else cellCount / columnCount
    else 0
  }

  // ---------------------------------------------------------------------------
  // Arithmetic of the cell-to-slot distribution

  /** The position in the cell stream of the cell for (row, column). */
  function SlotIndex(row: nat, column: nat, columnCount: nat): nat
  {
    row * columnCount + column
  }

  /** The (row, column) slot the distribution loop writes cell i to. */
  function Slot(i: nat, columnCount: nat): (nat, nat)
    requires columnCount > 0
  {
    (i / columnCount, i % columnCount)
  }

  // Proof helpers: facts of integer arithmetic used by the lemmas below.

  lemma MulCancel(a: nat, b: nat, c: nat)
    requires c > 0 && a * c < b * c
    ensures a < b
  {
  }

  lemma MultipleHasNoRemainder(k: nat, c: nat)
    requires c > 0
    ensures (k * c) % c == 0
  {
    var i := k * c;
    var q := i / c;
    assert q * c <= i < (q + 1) * c;
    MulCancel(q, k + 1, c);
    MulCancel(k, q + 1, c);
  }

  lemma DivExact(a: nat, c: nat)
    requires c > 0 && a % c == 0
    ensures a == (a / c) * c
  {
  }

  lemma SumOfMultiples(a: nat, b: nat, c: nat)
    requires c > 0 && a % c == 0 && b % c == 0
    ensures (a + b) % c == 0
  {
    DivExact(a, c);
    DivExact(b, c);
    assert a + b == (a / c + b / c) * c;
    MultipleHasNoRemainder(a / c + b / c, c);
  }

  // The cell-to-slot mapping.

  /**
   * Cell i of a table of rowCount rows goes to a slot inside the table, and that
   * slot's position is i again.
   */
  lemma CellRoundTrip(i: nat, columnCount: nat, rowCount: nat)
    requires columnCount > 0 && i < rowCount * columnCount
    ensures Slot(i, columnCount).0 < rowCount && Slot(i, columnCount).1 < columnCount
    ensures SlotIndex(Slot(i, columnCount).0, Slot(i, columnCount).1, columnCount) == i
  {
    var q := i / columnCount;
    assert q * columnCount <= i;
    MulCancel(q, rowCount, columnCount);
  }

  /**
   * Every slot of the table is the slot of exactly one cell: its position lies among
   * the cells and maps back to the slot. With `CellRoundTrip` this makes the
   * distribution a bijection, so every slot is written exactly once.
   */
  lemma SlotRoundTrip(row: nat, column: nat, columnCount: nat, rowCount: nat)
    requires row < rowCount && column < columnCount
    ensures SlotIndex(row, column, columnCount) < rowCount * columnCount
    ensures Slot(SlotIndex(row, column, columnCount), columnCount) == (row, column)
  {
    var i := row * columnCount + column;
    var q := i / columnCount;
    assert (row + 1) * columnCount <= rowCount * columnCount;
    assert q * columnCount <= i < (q + 1) * columnCount;
    assert row * columnCount <= i < (row + 1) * columnCount;
    MulCancel(q, row + 1, columnCount);
    MulCancel(row, q + 1, columnCount);
  }

  /** When every batch holds whole rows, so does the concatenation of their cells. */
  lemma {:induction false} WholeRows(batches: seq<Batch>, columnCount: nat)
    requires columnCount > 0
    requires forall j :: 0 <= j < |batches| ==> |batches[j].cells| % columnCount == 0
    ensures |AllCells(batches)| % columnCount == 0
  {
    if |batches| > 0 {
      WholeRows(batches[1..], columnCount);
      SumOfMultiples(|batches[0].cells|, |AllCells(batches[1..])|, columnCount);
    }
  }

  // ---------------------------------------------------------------------------
  // Row assembly

  /**
   * A row object: each column name set in turn to that column's value, so a name
   * that occurs twice ends up with its later column's value.
   */
  function ZipRow(names: seq<string>, vals: seq<Value>): (row: map<string, Value>)
    requires |names| == |vals|
    ensures forall n :: n in row <==> n in names
  {
    if |names| == 0 then map[]
    else
      var last := |names| - 1;
      assert names == names[..last] + [names[last]];
      ZipRow(names[..last], vals[..last])[names[last] := vals[last]]
  }

  /** The attribute of a column name holds the value of the last column with that name. */
  lemma {:induction false} ZipRowLookup(names: seq<string>, vals: seq<Value>, k: nat)
    requires |names| == |vals| && k < |names|
    requires forall j :: k < j < |names| ==> names[j] != names[k]
    ensures names[k] in ZipRow(names, vals) && ZipRow(names, vals)[names[k]] == vals[k]
  {
    var n := |names| - 1;
    if k < n {
      ZipRowLookup(names[..n], vals[..n], k);
    }
  }

  // ---------------------------------------------------------------------------
  // The iterator

  /**
   * The distribution loop of the constructor: cell i goes to row i / columnCount and
   * column i % columnCount, and takes its value from its type's pool at that type's
   * running offset. It stops at the first cell it cannot decode.
   */
  method Distribute(cells: seq<CellType>, pools: seq<seq<Value>>, columnCount: nat, rowCount: nat)
    returns (r: Result<array2<Value>, QueryError>)
    requires |pools| == 6
    requires columnCount > 0 ==> |cells| == rowCount * columnCount
    requires columnCount == 0 ==> rowCount == 0
    ensures columnCount == 0 && |cells| > 0 ==> r == Failure(DivisionByZero)
    ensures columnCount > 0 || |cells| == 0 ==> (r.Success? <==> Decodable(cells, pools, |cells|))
    ensures r.Failure? ==> r.error == DivisionByZero || r.error.IndexError?
    ensures r.Failure? && r.error.IndexError? ==>
              && r.error.cell < |cells|
              && Decodable(cells, pools, r.error.cell)
              && CellValue(cells, pools, r.error.cell).None?
    ensures r.Success? ==>
              && fresh(r.value)
              && r.value.Length0 == columnCount && r.value.Length1 == rowCount
              && forall row, column :: 0 <= row < rowCount && 0 <= column < columnCount ==>
                   Some(r.value[column, row]) == CellValue(cells, pools, SlotIndex(row, column, columnCount))
  {
    var columns := new Value[columnCount, rowCount];
    var offsets: seq<nat> := [0, 0, 0, 0, 0, 0];
    var i := 0;
    while i < |cells|
      invariant 0 <= i <= |cells|
      invariant columnCount == 0 ==> i == 0
      invariant |offsets| == 6
      invariant forall t :: offsets[FieldId(t)] == Occurrences(cells[..i], t)
      invariant Decodable(cells, pools, i)
      invariant Filled(columns, cells, pools, i)
    {
      if columnCount == 0 {
        return Failure(DivisionByZero);
      }
      var ct := cells[i];
      var value: Value;
      if ct == CellNull {
        value := NoneValue;
      } else {
        var pool := pools[FieldId(ct)];
        var k := offsets[FieldId(ct)];
        if k >= |pool| {
          assert CellValue(cells, pools, i).None?;
          return Failure(IndexError(i));
        }
        value := pool[k];
      }
      Place(columns, cells, pools, i, value);
      assert cells[..i + 1][..i] == cells[..i];
      offsets := offsets[FieldId(ct) := offsets[FieldId(ct)] + 1];
      i := i + 1;
    }
    forall row, column | 0 <= row < rowCount && 0 <= column < columnCount
      ensures SlotIndex(row, column, columnCount) < i
    {
      SlotRoundTrip(row, column, columnCount, rowCount);
    }
    r := Success(columns);
  }

  /** The slots of the first n cells hold those cells' values. */
  ghost predicate Filled(columns: array2<Value>, cells: seq<CellType>, pools: seq<seq<Value>>, n: nat)
    reads columns
    requires |pools| == 6
  {
    forall row, column ::
      0 <= row < columns.Length1 && 0 <= column < columns.Length0 &&
      SlotIndex(row, column, columns.Length0) < n ==>
        Some(columns[column, row]) == CellValue(cells, pools, SlotIndex(row, column, columns.Length0))
  }

  /** One step of the distribution loop: cell i's value goes to its slot. */
  method Place(columns: array2<Value>, cells: seq<CellType>, pools: seq<seq<Value>>, i: nat, value: Value)
    requires |pools| == 6 && columns.Length0 > 0
    requires |cells| == columns.Length1 * columns.Length0 && i < |cells|
    requires Filled(columns, cells, pools, i)
    requires CellValue(cells, pools, i) == Some(value)
    modifies columns
    ensures Filled(columns, cells, pools, i + 1)
  {
    var columnCount, rowCount := columns.Length0, columns.Length1;
    var row := i / columnCount;
    var column := i % columnCount;
    CellRoundTrip(i, columnCount, rowCount);
    assert i == SlotIndex(row, column, columnCount);
    columns[column, row] := value;
    forall r, c | 0 <= r < rowCount && 0 <= c < columnCount && SlotIndex(r, c, columnCount) < i + 1
      ensures Some(columns[c, r]) == CellValue(cells, pools, SlotIndex(r, c, columnCount))
    {
      if (r, c) != (row, column) {
        SlotRoundTrip(r, c, columnCount, rowCount);
        assert SlotIndex(r, c, columnCount) < i;
        assert columns[c, r] == old(columns[c, r]);
      }
    }
  }

  class QueryResultIterator {
    const columnNames: seq<string>
    const columnCount: nat
    const rowCount: nat
    /** `columns[c, r]` is the value of column c in row r. */
    const columns: array2<Value>
    var index: nat

    /** The shape of the table, fixed at construction. */
    predicate Shaped()
    {
      && columnCount == |columnNames|
      && columns.Length0 == columnCount
      && columns.Length1 == rowCount
    }

    ghost predicate Valid()
      reads this
    {
      Shaped() && index <= rowCount
    }

    constructor Init(names: seq<string>, rows: nat, filled: array2<Value>)
      requires filled.Length0 == |names| && filled.Length1 == rows
      ensures Valid() && index == 0
      ensures columnNames == names && rowCount == rows && columns == filled
    {
      columnNames := names;
      columnCount := |names|;
      rowCount := rows;
      columns := filled;
      index := 0;
    }

    /**
     * The constructor's checks before any cell is decoded: the last batch must carry the
     * flag, and with at least one column every batch must hold whole rows.
     */
    static method CheckBatches(columnCount: nat, batches: seq<Batch>) returns (rejected: Option<QueryError>)
      ensures rejected == Precheck(columnCount, batches)
      ensures rejected.None? && columnCount > 0 ==>
                forall j :: 0 <= j < |batches| ==> |batches[j].cells| % columnCount == 0
    {
      if |batches| > 0 && !batches[|batches| - 1].isLastBatch {
        return Some(MissingLastBatchFlag);
      }
      var cellCount := |AllCells(batches)|;
      var b := 0;
      while b < |batches|
        invariant 0 <= b <= |batches|
        invariant columnCount > 0 ==> forall j :: 0 <= j < b ==> |batches[j].cells| % columnCount == 0
      {
        if columnCount > 0 && |batches[b].cells| % columnCount != 0 {
          return Some(CellCountNotDivisible(cellCount, columnCount));
        }
        b := b + 1;
      }
      return None;
    }

    /**
     * The Python constructor: validate the batches, then distribute the cells over the
     * columns. A failure is the exception the constructor raises.
     */
    static method Decode(columnNames: seq<string>, batches: seq<Batch>)
      returns (r: Result<QueryResultIterator, QueryError>)
      ensures Precheck(|columnNames|, batches).Some? ==>
                r == Failure(Precheck(|columnNames|, batches).value)
      ensures Precheck(|columnNames|, batches).None? && |columnNames| == 0 && |AllCells(batches)| > 0 ==>
                r == Failure(DivisionByZero)
      ensures Precheck(|columnNames|, batches).None? && (|columnNames| > 0 || |AllCells(batches)| == 0) ==>
                (r.Success? <==> Decodable(AllCells(batches), CellPools(batches), |AllCells(batches)|))
      ensures r.Failure? && r.error.IndexError? ==>
                && Precheck(|columnNames|, batches).None?
                && r.error.cell < |AllCells(batches)|
                && Decodable(AllCells(batches), CellPools(batches), r.error.cell)
                && CellValue(AllCells(batches), CellPools(batches), r.error.cell).None?
      ensures r.Success? ==>
                && Precheck(|columnNames|, batches).None?
                && fresh(r.value) && fresh(r.value.columns) && r.value.Valid() && r.value.index == 0
                && r.value.columnNames == columnNames
                && r.value.rowCount == RowCount(|columnNames|, batches)
                && r.value.rowCount * r.value.columnCount == |AllCells(batches)|
                && forall row, column :: 0 <= row < r.value.rowCount && 0 <= column < r.value.columnCount ==>
                     Some(r.value.columns[column, row]) ==
                     CellValue(AllCells(batches), CellPools(batches), SlotIndex(row, column, r.value.columnCount))
    {
      var columnCount := |columnNames|;
      var rejected := CheckBatches(columnCount, batches);
      if rejected.Some? {
        return Failure(rejected.value);
      }
      var cells := AllCells(batches);
      var cellCount := |cells|;
      var rowCount := RowCount(columnCount, batches);
      var filled := Distribute(cells, CellPools(batches), columnCount, rowCount);
      if filled.Failure? {
        return Failure(filled.error);
      }
      var it := new QueryResultIterator.Init(columnNames, rowCount, filled.value);
      r := Success(it);
    }

    /** `__len__`: the number of rows fixed at decoding. */
    method Length() returns (n: nat)
      requires Valid()
      ensures n == rowCount && n == columns.Length1
    {
      n := rowCount;
    }

    /** The values of row r, column by column. */
    ghost function RowValues(r: nat): (vals: seq<Value>)
      reads columns
      requires Shaped() && r < rowCount
      ensures |vals| == columnCount
      ensures forall c :: 0 <= c < columnCount ==> vals[c] == columns[c, r]
    {
      seq(columnCount, c requires 0 <= c < columnCount reads columns => columns[c, r])
    }

    /**
     * `__next__`: past the last row there is no row (StopIteration) and nothing changes;
     * otherwise the row at `index` is returned and `index` moves on by one.
     */
    method Next() returns (row: Option<map<string, Value>>)
      requires Valid()
      modifies this`index
      ensures Valid()
      ensures old(index) == rowCount ==> row == None && index == old(index)
      ensures old(index) < rowCount ==>
                row == Some(ZipRow(columnNames, RowValues(old(index)))) && index == old(index) + 1
    {
      if index == rowCount {
        return None;
      }
      var result: map<string, Value> := map[];
      var c := 0;
      while c < columnCount
        invariant 0 <= c <= columnCount
        invariant result == ZipRow(columnNames[..c], RowValues(index)[..c])
      {
        assert columnNames[..c + 1][..c] == columnNames[..c];
        assert RowValues(index)[..c + 1][..c] == RowValues(index)[..c];
        result := result[columnNames[c] := columns[c, index]];
        c := c + 1;
      }
      assert columnNames[..c] == columnNames;
      assert RowValues(index)[..c] == RowValues(index);
      index := index + 1;
      row := Some(result);
    }
  }
}
