/** The bare-metal LED matrix driver (src/raw/led.rs): a 5x5 matrix of
    brightness bytes, shown by scanning its rows one at a time. The GPIO
    pin changes and delays it makes are recorded in a trace. */
module Led {
  import opened Modular

  const SIZE: nat := 5
  const ROW_LIGHT_UP_US: nat := 50

  /** A change of one display pin, or a busy wait in microseconds. */
  datatype PinAction = RowHigh(row: nat) | RowLow(row: nat) | ColLow(col: nat) | ColHigh(col: nat) | DelayUs(us: nat)

  /** `[[u8; 5]; 5]`. */
  predicate IsMatrix(m: seq<seq<nat>>) {
    |m| == SIZE && forall r :: 0 <= r < SIZE ==> |m[r]| == SIZE && forall c :: 0 <= c < SIZE ==> m[r][c] < 0x100
  }

  const DARK: seq<seq<nat>> := seq(SIZE, _ => seq(SIZE, _ => 0))

  /** The columns pulled low for a row: those whose cell is non-zero, in
      column order. */
  function LitColumns(row: seq<nat>): seq<PinAction> {
    if row == [] then []
    else LitColumns(row[..|row| - 1]) + (if row[|row| - 1] > 0 then [ColLow(|row| - 1)] else [])
  }

  /** Every column set high, in order. */
  const ALL_COLUMNS_HIGH: seq<PinAction> := [ColHigh(0), ColHigh(1), ColHigh(2), ColHigh(3), ColHigh(4)]

  /** The pin actions of `light_up_row(r)`. */
  function RowScan(m: seq<seq<nat>>, r: nat): seq<PinAction>
    requires IsMatrix(m) && r < SIZE
  {
    [RowHigh(r)] + LitColumns(m[r]) + [DelayUs(ROW_LIGHT_UP_US)] + ALL_COLUMNS_HIGH + [RowLow(r)]
  }

  /** The scans of the five rows, row 0 first. */
  function RowScans(m: seq<seq<nat>>): (rows: seq<seq<PinAction>>)
    requires IsMatrix(m)
    ensures |rows| == SIZE && forall r :: 0 <= r < SIZE ==> rows[r] == RowScan(m, r)
  {
    [RowScan(m, 0), RowScan(m, 1), RowScan(m, 2), RowScan(m, 3), RowScan(m, 4)]
  }

  /** Rows 0 to n - 1 scanned in order. */
  function Frame(rows: seq<seq<PinAction>>, n: nat): seq<PinAction>
    requires n <= |rows|
  {
    if n == 0 then [] else Frame(rows, n - 1) + rows[n - 1]
  }

  /** A sequence of actions made t times over. */
  function Repeat(f: seq<PinAction>, t: nat): seq<PinAction> {
    if t == 0 then [] else Repeat(f, t - 1) + f
  }

  /** Column c is pulled low while scanning a row exactly when its cell is
      non-zero; nothing else happens in that part of the scan. */
  lemma {:induction false} LitColumnsIff(row: seq<nat>, c: nat)
    ensures ColLow(c) in LitColumns(row) <==> c < |row| && row[c] > 0
    ensures forall a :: a in LitColumns(row) ==> a.ColLow?
  {
    if row != [] {
      LitColumnsIff(row[..|row| - 1], c);
    }
  }

  /** `light_up_row(r)` raises row r, pulls low exactly the columns of its
      lit cells, waits, then raises every column and lowers the row again;
      it touches no other row. */
  lemma RowScanShape(m: seq<seq<nat>>, r: nat, c: nat)
    requires IsMatrix(m) && r < SIZE && c < SIZE
    ensures ColLow(c) in RowScan(m, r) <==> m[r][c] > 0
    ensures ColHigh(c) in RowScan(m, r)
    ensures RowScan(m, r)[0] == RowHigh(r) && RowScan(m, r)[|RowScan(m, r)| - 1] == RowLow(r)
    ensures forall r' :: RowHigh(r') in RowScan(m, r) || RowLow(r') in RowScan(m, r) ==> r' == r
  {
    LitColumnsIff(m[r], c);
    assert ALL_COLUMNS_HIGH[c] == ColHigh(c);
  }

  /** k row scans, the j-th of them scanning row j mod 5. */
  function Scans(rows: seq<seq<PinAction>>, k: nat): seq<PinAction>
    requires |rows| == SIZE
  {
    if k == 0 then [] else Scans(rows, k - 1) + rows[(k - 1) % SIZE]
  }

  /** After whole frames, the next n scans are the first n rows. */
  lemma {:induction false} ScansFrame(rows: seq<seq<PinAction>>, t: nat, n: nat)
    requires |rows| == SIZE && n <= SIZE
    ensures Scans(rows, SIZE * t + n) == Scans(rows, SIZE * t) + Frame(rows, n)
  {
    if n > 0 {
      ScansFrame(rows, t, n - 1);
      ModShift(n - 1, t, SIZE);
      assert (SIZE * t + n - 1) % SIZE == n - 1;
      assert Scans(rows, SIZE * t + n) == Scans(rows, SIZE * t + n - 1) + rows[n - 1];
    }
  }

  /** `show(time)` is 5 * time row scans, rows 0 to 4 over and over. */
  lemma {:induction false} ShowIsScans(rows: seq<seq<PinAction>>, t: nat)
    requires |rows| == SIZE
    ensures Repeat(Frame(rows, |rows|), t) == Scans(rows, SIZE * t)
  {
    if t > 0 {
      ShowIsScans(rows, t - 1);
      ScansFrame(rows, t - 1, SIZE);
      assert SIZE * (t - 1) + SIZE == SIZE * t;
    }
  }

  class LedMatrix {
    var matrix: seq<seq<nat>>
    /** The pin changes and delays made so far, oldest first. */
    var pins: seq<PinAction>

    ghost predicate Valid()
      reads this
    {
      IsMatrix(matrix)
    }

    /** `setup`: the matrix starts dark. */
    constructor ()
      ensures Valid() && matrix == DARK && pins == []
    {
      matrix := DARK;
      pins := [];
    }

    /** `set_matrix`: the whole matrix is replaced. */
    method SetMatrix(m: seq<seq<nat>>)
      requires IsMatrix(m)
      modifies this`matrix
      ensures Valid() && matrix == m
    {
      matrix := m;
    }

    /** `set_cell`: an index of 5 or more panics (`ok` false, nothing
        changes); otherwise the cell becomes 1 or 0 and no other cell
        changes. */
    method SetCell(r: nat, c: nat, val: bool) returns (ok: bool)
      requires Valid()
      modifies this`matrix
      ensures Valid()
      ensures ok == (r < SIZE && c < SIZE)
      ensures matrix == if ok then old(matrix)[r := old(matrix)[r][c := if val then 1 else 0]] else old(matrix)
    {
      if r >= SIZE || c >= SIZE {
        return false;
      }
      matrix := matrix[r := matrix[r][c := if val then 1 else 0]];
      ok := true;
    }

    /** `light_up_row(r)`. */
    method LightUpRow(r: nat)
      requires Valid() && r < SIZE
      modifies this`pins
      ensures pins == old(pins) + RowScan(matrix, r)
    {
      pins := pins + [RowHigh(r)];
      for i := 0 to SIZE
        invariant pins == old(pins) + [RowHigh(r)] + LitColumns(matrix[r][..i])
      {
        assert matrix[r][..i + 1][..i] == matrix[r][..i];
        if matrix[r][i] > 0 {
          pins := pins + [ColLow(i)];
        }
      }
      assert matrix[r][..SIZE] == matrix[r];
      pins := pins + [DelayUs(ROW_LIGHT_UP_US)];
      ghost var mid := pins;
      for i := 0 to SIZE
        invariant pins == mid + ALL_COLUMNS_HIGH[..i]
      {
        assert ALL_COLUMNS_HIGH[..i + 1] == ALL_COLUMNS_HIGH[..i] + [ColHigh(i)];
        pins := pins + [ColHigh(i)];
      }
      pins := pins + [RowLow(r)];
    }

    /** The inner loop of `show`: rows 0 to 4, in order. */
    method ScanFrame()
      requires Valid()
      modifies this`pins
      ensures pins == old(pins) + Frame(RowScans(matrix), |matrix|)
    {
      ghost var rows := RowScans(matrix);
      for r := 0 to SIZE
        invariant pins == old(pins) + Frame(rows, r)
      {
        LightUpRow(r);
      }
    }

    /** `show(time)`: rows 0 to 4 in order, `time` times over. */
    method Show(time: nat)
      requires Valid()
      modifies this`pins
      ensures pins == old(pins) + Repeat(Frame(RowScans(matrix), |matrix|), time)
    {
      for t := 0 to time
        invariant pins == old(pins) + Repeat(Frame(RowScans(matrix), |matrix|), t)
      {
        ScanFrame();
      }
    }
  }
}
