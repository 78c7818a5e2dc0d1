/** The experiment bookkeeping shared by `OptimisationLoop`
    (optobot/automate.py) and its earlier copy `wellplate96`
    (application/test/test_wellplates.py): dilution of a batch, the layout of
    the gapped per-plate tables and of `all_data`, and the translation of an
    iteration's batch window into the gapped tables' flat view. */
module Experiment {
  import opened Wrappers
  import opened Grid

  /** One batch: `population_size` rows of per-liquid volumes or of
      measured parameters. */
  type Batch = seq<seq<real>>

  /** The objective: measurements -> one error per well. */
  type Objective = Batch -> seq<real>

  /** The automatic measurement callable
      `(liquid_volumes, iteration_count, population_size, num_measured_parameters)`;
      its experiment-directory argument is not modelled. */
  type MeasureFn = (Batch, nat, nat, nat) -> Batch

  /** The `measurement_function` argument: the string `"manual"`, a
      callable, or the boolean `False` that the docstrings describe. */
  datatype MeasurementSetting = Manual | Callable(measure: MeasureFn) | Off

  /** The objective returns one error per measured well. */
  ghost predicate ObjectiveKeepsShape(objective: Objective)
  {
    forall b :: |objective(b)| == |b|
  }

  /** The measurement callable returns a `(population_size, M)` batch. */
  ghost predicate MeasureKeepsShape(setting: MeasurementSetting)
  {
    setting.Callable? ==>
      forall v, n, pop, m :: IsMatrix(setting.measure(v, n, pop, m), pop, m)
  }

  // ---------------------------------------------------------------------
  // Dilution

  function Sum(row: seq<real>): real
  {
    if row == [] then 0.0 else row[0] + Sum(row[1..])
  }

  /** `np.hstack([total_volume - row.sum(), row])`: water first. */
  function DiluteRow(row: seq<real>, totalVolume: real): (d: seq<real>)
    ensures |d| == |row| + 1 && d[1..] == row
    ensures Sum(d) == totalVolume
    ensures d[0] < 0.0 <==> Sum(row) > totalVolume
  {
    [totalVolume - Sum(row)] + row
  }

  function Dilute(batch: Batch, totalVolume: real): (d: Batch)
    ensures |d| == |batch|
    ensures forall i :: 0 <= i < |batch| ==> d[i] == DiluteRow(batch[i], totalVolume)
  {
    seq(|batch|, i requires 0 <= i < |batch| => DiluteRow(batch[i], totalVolume))
  }

  /** Every diluted row has one more column, sums to the total volume and
      keeps the requested volumes after the water. */
  lemma DiluteShape(batch: Batch, pop: nat, width: nat, totalVolume: real)
    requires IsMatrix(batch, pop, width)
    ensures IsMatrix(Dilute(batch, totalVolume), pop, width + 1)
    ensures forall i :: 0 <= i < pop ==>
      Sum(Dilute(batch, totalVolume)[i]) == totalVolume &&
      Dilute(batch, totalVolume)[i][1..] == batch[i]
  {
  }

  // ---------------------------------------------------------------------
  // Table layout: P plates of R x C wells, `blank` empty rows between plates

  /** Rows of the gapped tables: `P*R + blank*(P-1)`. */
  function TotalRows(plates: nat, rows: nat, blank: nat): nat
    requires plates >= 1
  {
    plates * rows + blank * (plates - 1)
  }

  /** A row of a gapped table, decoded: plate group and row in the plate. */
  datatype PlateRow = PlateRow(plate: nat, row: nat)

  /** Which plate row a gapped-table row holds, or None for a blank row. */
  function DecodeRow(g: nat, rows: nat, blank: nat): Option<PlateRow>
    requires rows + blank > 0
  {
    var q, r := g / (rows + blank), g % (rows + blank);
    if r < rows then Some(PlateRow(q, r)) else None
  }

  /** Row `r` of plate `p` sits at gapped row `p*(R+blank) + r`. */
  lemma DecodeRowOf(p: nat, r: nat, rows: nat, blank: nat)
    requires r < rows
    ensures DecodeRow(p * (rows + blank) + r, rows, blank) == Some(PlateRow(p, r))
  {
    DivModOf(p * (rows + blank) + r, rows + blank, p, r);
  }

  const ASCII_UPPERCASE: string := "ABCDEFGHIJKLMNOPQRSTUVWXYZ"

  /** `string.ascii_uppercase[i % 26]`. */
  function RowLetter(i: nat): string
  {
    [ASCII_UPPERCASE[i % 26]]
  }

  /** The letters of one plate's rows. */
  function PlateLabels(rows: nat): (labels: seq<string>)
    ensures |labels| == rows
    ensures forall r :: 0 <= r < rows ==> labels[r] == RowLetter(r)
  {
    seq(rows, r requires 0 <= r < rows => RowLetter(r))
  }

  function Blanks(n: nat): (labels: seq<string>)
    ensures |labels| == n && forall i :: 0 <= i < n ==> labels[i] == ""
  {
    seq(n, _ => "")
  }

  /** The row index built by the first `m` passes of the labelling loop. */
  function IndexPrefix(m: nat, plates: nat, rows: nat, blank: nat): seq<string>
    requires m <= plates
  {
    if m == 0 then []
    else IndexPrefix(m - 1, plates, rows, blank) + PlateLabels(rows) +
         (if m - 1 != plates - 1 then Blanks(blank) else [])
  }

  /** The label of gapped row `g` as the layout defines it. */
  function LabelOf(g: nat, rows: nat, blank: nat): string
    requires rows + blank > 0
  {
    match DecodeRow(g, rows, blank)
    case Some(pr) => RowLetter(pr.row)
    case None => ""
  }

  lemma {:induction false} IndexPrefixFull(m: nat, plates: nat, rows: nat, blank: nat)
    requires m < plates && rows + blank > 0
    ensures |IndexPrefix(m, plates, rows, blank)| == m * (rows + blank)
    ensures forall g :: 0 <= g < m * (rows + blank) ==>
      IndexPrefix(m, plates, rows, blank)[g] == LabelOf(g, rows, blank)
  {
    if m > 0 {
      IndexPrefixFull(m - 1, plates, rows, blank);
      var prev := IndexPrefix(m - 1, plates, rows, blank);
      var cur := IndexPrefix(m, plates, rows, blank);
      var base := (m - 1) * (rows + blank);
      assert cur == prev + PlateLabels(rows) + Blanks(blank);
      assert m * (rows + blank) == base + rows + blank;
      forall g | base <= g < m * (rows + blank)
        ensures cur[g] == LabelOf(g, rows, blank)
      {
        var r := g - base;
        DivModOf(g, rows + blank, m - 1, r);
        if r < rows {
          assert cur[g] == PlateLabels(rows)[r];
        } else {
          assert cur[g] == Blanks(blank)[r - rows];
        }
      }
    }
  }

  /** The finished row index: one letter per plate row, `blank` empty labels
      between consecutive plates and none after the last. */
  lemma WellplateIndexLayout(plates: nat, rows: nat, blank: nat)
    requires plates >= 1 && rows > 0
    ensures |IndexPrefix(plates, plates, rows, blank)| == TotalRows(plates, rows, blank)
    ensures forall g :: 0 <= g < TotalRows(plates, rows, blank) ==>
      IndexPrefix(plates, plates, rows, blank)[g] == LabelOf(g, rows, blank)
  {
    var p := plates - 1;
    IndexPrefixFull(p, plates, rows, blank);
    var base := p * (rows + blank);
    var prev := IndexPrefix(p, plates, rows, blank);
    var all := IndexPrefix(plates, plates, rows, blank);
    assert all == prev + PlateLabels(rows);
    assert |prev| == base;
    assert TotalRows(plates, rows, blank) == base + rows by {
      assert base == p * rows + p * blank;
      assert plates * rows == p * rows + rows;
    }
    forall g | base <= g < base + rows ensures all[g] == LabelOf(g, rows, blank) {
      var r := g - base;
      assert all[g] == PlateLabels(rows)[r];
      DecodeRowOf(p, r, rows, blank);
    }
  }

  /** `pd.MultiIndex.from_product([1..C, names])`. */
  function ProductColumns(columns: nat, names: seq<string>): (cols: seq<(nat, string)>)
    ensures |cols| == columns * |names|
  {
    if columns == 0 then []
    else ProductColumns(columns - 1, names) +
         seq(|names|, l requires 0 <= l < |names| => (columns, names[l]))
  }

  /** Flat column `c*|names| + l` of a table row is plate column `c+1`,
      parameter `names[l]`. */
  lemma {:induction false} ProductColumnAt(columns: nat, names: seq<string>, c: nat, l: nat)
    requires c < columns && l < |names|
    ensures c * |names| + l < columns * |names|
    ensures ProductColumns(columns, names)[c * |names| + l] == (c + 1, names[l])
  {
    var prev := ProductColumns(columns - 1, names);
    assert |prev| == (columns - 1) * |names|;
    if c < columns - 1 {
      ProductColumnAt(columns - 1, names, c, l);
    } else {
      assert c * |names| + l == |prev| + l;
    }
  }

  /** The error table's columns `1..C`. */
  function ErrorColumns(columns: nat): (cols: seq<nat>)
    ensures |cols| == columns && forall c :: 0 <= c < columns ==> cols[c] == c + 1
  {
    seq(columns, c requires 0 <= c < columns => c + 1)
  }

  /** `all_data` header: iteration number, one volume per liquid, the
      measured parameters, the error. */
  function AllDataColumns(liquidNames: seq<string>, measuredNames: seq<string>): (cols: seq<string>)
    ensures |cols| == |liquidNames| + |measuredNames| + 2
    ensures cols[0] == "iteration_number" && cols[|cols| - 1] == "error"
    ensures forall l :: 0 <= l < |liquidNames| ==> cols[1 + l] == "vol_" + liquidNames[l]
    ensures forall k :: 0 <= k < |measuredNames| ==>
      cols[1 + |liquidNames| + k] == measuredNames[k]
  {
    ["iteration_number"] +
    seq(|liquidNames|, l requires 0 <= l < |liquidNames| => "vol_" + liquidNames[l]) +
    measuredNames + ["error"]
  }

  // ---------------------------------------------------------------------
  // Address translation for `store_data` and `user_input`

  /** `(iteration_count * population_size) // total_wells`. */
  function CurrentPlate(n: nat, pop: nat, rows: nat, columns: nat): nat
    requires rows * columns > 0
  {
    (n * pop) / (rows * columns)
  }

  /** `raw_start_index + current_well_plate * blank_row_space * C`. */
  function StartIndex(n: nat, pop: nat, rows: nat, columns: nat, blank: nat): nat
    requires rows * columns > 0
  {
    n * pop + CurrentPlate(n, pop, rows, columns) * blank * columns
  }

  /** The batch window of iteration `n` stays inside one plate. */
  ghost predicate WindowInOnePlate(n: nat, pop: nat, rows: nat, columns: nat)
    requires rows * columns > 0
  {
    (n * pop) % (rows * columns) + pop <= rows * columns
  }

  /** The flat length of a gapped table: its plates' wells plus the blank
      rows between them. */
  lemma TotalRowsFlat(plates: nat, rows: nat, columns: nat, blank: nat)
    requires plates >= 1
    ensures TotalRows(plates, rows, blank) * columns == plates * (rows * columns) + (plates - 1) * (blank * columns)
  {
    assert (plates * rows + blank * (plates - 1)) * columns == plates * rows * columns + blank * (plates - 1) * columns;
  }

  /** With the preflight check `pop * iterations <= P*R*C`, the window
      `[start, start + pop)` always fits in the gapped table. */
  lemma WindowFitsTable(n: nat, pop: nat, plates: nat, rows: nat, columns: nat, blank: nat)
    requires plates >= 1 && rows * columns > 0
    requires (n + 1) * pop <= plates * (rows * columns)
    ensures CurrentPlate(n, pop, rows, columns) < plates
    ensures StartIndex(n, pop, rows, columns, blank) + pop <= TotalRows(plates, rows, blank) * columns
  {
    var rc := rows * columns;
    var p := CurrentPlate(n, pop, rows, columns);
    assert n * pop + pop == (n + 1) * pop;
    assert p < plates by {
      assert p * rc <= n * pop;
      if p >= plates {
        MulMono(plates, p, rc);
      }
    }
    assert p * blank * columns <= (plates - 1) * (blank * columns) by {
      MulMono(p, plates - 1, blank * columns);
      assert p * blank * columns == p * (blank * columns);
    }
    TotalRowsFlat(plates, rows, columns, blank);
  }

  /** Well `j` of the window of iteration `n`, when the window stays in one
      plate, lands in plate `CurrentPlate`, in the row and column that the
      well's position on that plate gives, and never in a blank row. */
  lemma WindowCell(n: nat, pop: nat, rows: nat, columns: nat, blank: nat, j: nat)
    requires rows * columns > 0 && j < pop
    requires WindowInOnePlate(n, pop, rows, columns)
    ensures var p := CurrentPlate(n, pop, rows, columns);
            var local := n * pop + j - p * (rows * columns);
            var flat := StartIndex(n, pop, rows, columns, blank) + j;
            0 <= local < rows * columns &&
            DecodeRow(flat / columns, rows, blank) == Some(PlateRow(p, local / columns)) &&
            flat % columns == local % columns
  {
    var rc := rows * columns;
    var p := CurrentPlate(n, pop, rows, columns);
    var base := n * pop - p * rc;
    assert base == (n * pop) % rc;
    var local := base + j;
    assert 0 <= local < rc;
    var lr, lc := local / columns, local % columns;
    assert local == lr * columns + lc;
    if lr >= rows { MulMono(rows, lr, columns); }
    var flat := StartIndex(n, pop, rows, columns, blank) + j;
    assert flat == (p * (rows + blank) + lr) * columns + lc;
    DivModOf(flat, columns, p * (rows + blank) + lr, lc);
    DecodeRowOf(p, lr, rows, blank);
  }

  /** When the batch size divides the plate size (12 on 96 wells, the
      default), every window stays inside one plate. */
  lemma AlignedWindow(n: nat, pop: nat, rows: nat, columns: nat, k: nat)
    requires rows * columns > 0 && pop * k == rows * columns
    ensures WindowInOnePlate(n, pop, rows, columns)
  {
    var rc := rows * columns;
    var q := n / k;
    var s := n % k;
    assert n == q * k + s;
    assert n * pop == q * rc + s * pop;
    MulMono(s + 1, k, pop);
    DivModOf(n * pop, rc, q, s * pop);
  }

  /** Iterations take their windows in order: the plate number never
      decreases, so the blank-row offset only grows, and each window of the
      gapped tables, like each block of `all_data` rows, ends at or before
      the start of every later one. */
  lemma WindowsInOrder(n1: nat, n2: nat, pop: nat, rows: nat, columns: nat, blank: nat)
    requires rows * columns > 0 && n1 < n2
    ensures StartIndex(n1, pop, rows, columns, blank) + pop <= StartIndex(n2, pop, rows, columns, blank)
    ensures n1 * pop + pop <= n2 * pop
  {
    var rc := rows * columns;
    var p1 := CurrentPlate(n1, pop, rows, columns);
    var p2 := CurrentPlate(n2, pop, rows, columns);
    MulMono(n1 + 1, n2, pop);
    DivMono(n1 * pop, n2 * pop, rc);
    MulMono(p1, p2, blank * columns);
    assert p1 * blank * columns == p1 * (blank * columns);
    assert p2 * blank * columns == p2 * (blank * columns);
  }

  /** A row-block store at iteration `n`'s window (starting at row `b`),
      taking `s` to `t`, leaves the rows of every earlier iteration's window
      (starting at row `a`) as they were. */
  lemma LaterWindowKeepsRows<T>(s: seq<T>, t: seq<T>, a: nat, b: nat, n1: nat, n: nat, pop: nat,
                                rows: nat, columns: nat, blank: nat, data: seq<seq<T>>, w: nat)
    requires rows * columns > 0 && n1 < n && IsMatrix(data, pop, w)
    requires a == StartIndex(n1, pop, rows, columns, blank) && b == StartIndex(n, pop, rows, columns, blank)
    requires (b + pop) * w <= |s| && t == OverwriteRows(s, b, data, pop, w)
    ensures (a + pop) * w <= |s| == |t|
    ensures ReadRows(t, a, pop, w) == ReadRows(s, a, pop, w)
  {
    WindowsInOrder(n1, n, pop, rows, columns, blank);
    ReadRowsBeforeOverwriteRows(s, b, data, pop, w, a, pop);
  }

  /** The same for a store that happens only when `write` holds, as the
      measurement store does. */
  lemma LaterWindowKeepsRowsIf<T>(s: seq<T>, t: seq<T>, write: bool, a: nat, b: nat, n1: nat, n: nat, pop: nat,
                                  rows: nat, columns: nat, blank: nat, data: seq<seq<T>>, w: nat)
    requires rows * columns > 0 && n1 < n && IsMatrix(data, pop, w)
    requires a == StartIndex(n1, pop, rows, columns, blank) && b == StartIndex(n, pop, rows, columns, blank)
    requires (b + pop) * w <= |s| && t == if write then OverwriteRows(s, b, data, pop, w) else s
    ensures (a + pop) * w <= |s| == |t|
    ensures ReadRows(t, a, pop, w) == ReadRows(s, a, pop, w)
  {
    LaterWindowKeepsRows(s, OverwriteRows(s, b, data, pop, w), a, b, n1, n, pop, rows, columns, blank, data, w);
  }

  /** The same for a store of one value per well. */
  lemma LaterWindowKeepsCells<T>(s: seq<T>, t: seq<T>, a: nat, b: nat, n1: nat, n: nat, pop: nat,
                                 rows: nat, columns: nat, blank: nat, data: seq<T>)
    requires rows * columns > 0 && n1 < n && |data| == pop
    requires a == StartIndex(n1, pop, rows, columns, blank) && b == StartIndex(n, pop, rows, columns, blank)
    requires b + pop <= |s| && t == Overwrite(s, b, data)
    ensures a + pop <= |s| == |t|
    ensures ReadRows(t, a, pop, 1) == ReadRows(s, a, pop, 1)
  {
    WindowsInOrder(n1, n, pop, rows, columns, blank);
    ReadRowsBeforeOverwrite(s, b, data, a, pop, 1);
  }

  /** The same for the ungapped `all_data` table, whose batch `n` starts at
      row `n * pop` and whose rows are `w == l + m + 2` wide. */
  lemma LaterBatchKeepsRows(s: seq<real>, t: seq<real>, n1: nat, n: nat, volumes: Batch, measured: Batch,
                            errors: seq<real>, pop: nat, l: nat, m: nat, w: nat)
    requires n1 < n && IsMatrix(volumes, pop, l) && IsMatrix(measured, pop, m) && |errors| == pop
    requires w == l + m + 2 && (n * pop + pop) * w <= |s|
    requires t == OverwriteRows(s, n * pop, AllDataRows(n, volumes, measured, errors), pop, w)
    ensures (n1 * pop + pop) * w <= |s| == |t|
    ensures ReadRows(t, n1 * pop, pop, w) == ReadRows(s, n1 * pop, pop, w)
  {
    AllDataRowsShape(n, volumes, measured, errors, pop, l, m);
    MulMono(n1 + 1, n, pop);
    ReadRowsBeforeOverwriteRows(s, n * pop, AllDataRows(n, volumes, measured, errors), pop, w, n1 * pop, pop);
  }

  /** A window that crosses a plate boundary spills into the blank row:
      8 x 12 plates, batches of 10, iteration 9 writes well 96 (plate 2, A1)
      into the blank row that separates the plates. */
  lemma CrossingWindowHitsBlankRow()
    ensures !WindowInOnePlate(9, 10, 8, 12)
    ensures DecodeRow((StartIndex(9, 10, 8, 12, 1) + 6) / 12, 8, 1) == None
  {
  }

  // ---------------------------------------------------------------------
  // all_data rows

  /** One `all_data` row: `[n+1, volumes..., measurements..., error]`. */
  function AllDataRow(n: nat, volumes: seq<real>, measured: seq<real>, error: real): (row: seq<real>)
    ensures |row| == |volumes| + |measured| + 2
    ensures row[0] == (n + 1) as real && row[|row| - 1] == error
    ensures row[1..1 + |volumes|] == volumes
    ensures row[1 + |volumes|..1 + |volumes| + |measured|] == measured
  {
    [(n + 1) as real] + volumes + measured + [error]
  }

  /** The `all_data` block of iteration `n`, one row per well. */
  function AllDataRows(n: nat, volumes: Batch, measured: Batch, errors: seq<real>): (rows: Batch)
    requires |volumes| == |measured| == |errors|
    ensures |rows| == |volumes|
    ensures forall j :: 0 <= j < |volumes| ==>
      rows[j] == AllDataRow(n, volumes[j], measured[j], errors[j])
  {
    seq(|volumes|, j requires 0 <= j < |volumes| => AllDataRow(n, volumes[j], measured[j], errors[j]))
  }

  lemma AllDataRowsShape(n: nat, volumes: Batch, measured: Batch, errors: seq<real>, pop: nat, l: nat, m: nat)
    requires IsMatrix(volumes, pop, l) && IsMatrix(measured, pop, m) && |errors| == pop
    ensures IsMatrix(AllDataRows(n, volumes, measured, errors), pop, l + m + 2)
  {
  }
}
