/** application/opentrons_script.py: a protocol that starts at
    `divmod(iter_size*iter_n, 12)` and dispenses each liquid, undiluted and
    with the robot's default tip handling, into consecutive cells of
    `plate.rows()`. Its column formula `start_col + j % 12` is not the row-major
    successor that the generated program computes. */
module OpentronsScript {
  import opened Wrappers
  import opened Grid
  import opened Labware
  import opened Experiment
  import ScriptGenerator

  /** Row and column of well `j` as the protocol computes them: the column
      is `start_col + (j % 12)` by operator precedence, while the row
      carries `(start_col + j) // 12`. */
  function ScriptCell(iterSize: nat, iterN: nat, j: nat): (cell: (nat, nat))
  {
    var startRow := (iterSize * iterN) / 12;
    var startCol := (iterSize * iterN) % 12;
    (startRow + (startCol + j) / 12, startCol + j % 12)
  }

  /** A cell `plate.rows()` has; any other raises `IndexError`. */
  predicate InPlate(cell: (nat, nat))
  {
    cell.0 < PLATE_ROWS && cell.1 < PLATE_COLUMNS
  }

  /** Well `j` of liquid `i`: volume column `i` as it is (no water column),
      from reservoir `A{i+1}`, with the default `new_tip='once'`; only the
      last liquid mixes, `(3, 20)`. */
  function ScriptTransfer(volume: Batch, numLiquids: nat, iterN: nat, i: nat, j: nat): Command
    requires j < |volume| && i < |volume[j]|
  {
    var cell := ScriptCell(|volume|, iterN, j);
    Transfer(volume[j][i], i + 1, RowCol(cell.0, cell.1),
             if i == numLiquids - 1 then Some(Mix(3, 20.0)) else None, Once)
  }

  /** The transfers of liquid `i`. */
  function ScriptPass(volume: Batch, numLiquids: nat, iterN: nat, i: nat): (cmds: seq<Command>)
    requires IsMatrix(volume, |volume|, numLiquids) && i < numLiquids
    ensures |cmds| == |volume|
  {
    seq(|volume|, j requires 0 <= j < |volume| => ScriptTransfer(volume, numLiquids, iterN, i, j))
  }

  /** The transfers of the first `m` liquids. */
  function ScriptPlan(volume: Batch, numLiquids: nat, iterN: nat, m: nat): (cmds: seq<Command>)
    requires IsMatrix(volume, |volume|, numLiquids) && m <= numLiquids
    ensures |cmds| == m * |volume|
  {
    if m == 0 then [] else ScriptPlan(volume, numLiquids, iterN, m - 1) + ScriptPass(volume, numLiquids, iterN, m - 1)
  }

  /** Every well of the batch has a cell on the plate. */
  predicate BatchInPlate(iterSize: nat, iterN: nat)
  {
    forall j :: 0 <= j < iterSize ==> InPlate(ScriptCell(iterSize, iterN, j))
  }

  /** `run` for `volume` (read from `values.npy`) at iteration `iter_n`
      (read from `iter_count.txt`): either every transfer is issued, or the
      first well without a cell raises `IndexError` part-way through the
      first liquid, after the transfers of the wells before it. */
  method Run(volume: Batch, numLiquids: nat, iterN: nat) returns (log: seq<Command>, completed: bool)
    requires IsMatrix(volume, |volume|, numLiquids)
    ensures completed <==> numLiquids == 0 || BatchInPlate(|volume|, iterN)
    ensures completed ==> log == ScriptPlan(volume, numLiquids, iterN, numLiquids)
    ensures !completed ==>
      && numLiquids > 0 && |log| < |volume|
      && log == ScriptPass(volume, numLiquids, iterN, 0)[..|log|]
      && !InPlate(ScriptCell(|volume|, iterN, |log|))
      && forall j :: 0 <= j < |log| ==> InPlate(ScriptCell(|volume|, iterN, j))
  {
    var iterSize := |volume|;
    var startRow := (iterSize * iterN) / 12;
    var startCol := (iterSize * iterN) % 12;
    log := [];
    var i := 0;
    while i < numLiquids
      invariant 0 <= i <= numLiquids
      invariant log == ScriptPlan(volume, numLiquids, iterN, i)
      invariant i > 0 ==> BatchInPlate(iterSize, iterN)
    {
      var j := 0;
      ghost var before := log;
      while j < iterSize
        invariant 0 <= j <= iterSize
        invariant log == before + ScriptPass(volume, numLiquids, iterN, i)[..j]
        invariant forall k :: 0 <= k < j ==> InPlate(ScriptCell(iterSize, iterN, k))
      {
        var currentCol := startCol + j % 12;
        var currentRow := startRow + (startCol + j) / 12;
        if !(currentRow < 8 && currentCol < 12) {
          assert !InPlate(ScriptCell(iterSize, iterN, j));
          return log, false;
        }
        var mix := if i != numLiquids - 1 then None else Some(Mix(3, 20.0));
        log := log + [Transfer(volume[j][i], i + 1, RowCol(currentRow, currentCol), mix, Once)];
        assert ScriptPass(volume, numLiquids, iterN, i)[..j + 1] ==
               ScriptPass(volume, numLiquids, iterN, i)[..j] + [ScriptTransfer(volume, numLiquids, iterN, i, j)];
        j := j + 1;
      }
      assert ScriptPass(volume, numLiquids, iterN, i)[..iterSize] == ScriptPass(volume, numLiquids, iterN, i);
      i := i + 1;
    }
    completed := true;
  }

  /** Without explicit tip calls every transfer fetches and bins its own
      tip, so the robot accepts the protocol. */
  lemma ScriptPlanTipSafe(volume: Batch, numLiquids: nat, iterN: nat)
    requires IsMatrix(volume, |volume|, numLiquids)
    ensures TipState(ScriptPlan(volume, numLiquids, iterN, numLiquids), false) == Some(false)
  {
    var plan := ScriptPlan(volume, numLiquids, iterN, numLiquids);
    forall k | 0 <= k < |plan|
      ensures plan[k].Transfer? && plan[k].newTip == Once
    {
      ScriptPlanAt(volume, numLiquids, iterN, numLiquids, k);
    }
    OnceTransfersNeedNoTip(plan);
  }

  /** Transfer `k` of the plan is well `k % s` of liquid `k / s`. */
  lemma {:induction false} ScriptPlanAt(volume: Batch, numLiquids: nat, iterN: nat, m: nat, k: nat)
    requires IsMatrix(volume, |volume|, numLiquids) && m <= numLiquids
    requires k < m * |volume|
    ensures k / |volume| < m
    ensures ScriptPlan(volume, numLiquids, iterN, m)[k] ==
            ScriptTransfer(volume, numLiquids, iterN, k / |volume|, k % |volume|)
  {
    var s := |volume|;
    var prev := ScriptPlan(volume, numLiquids, iterN, m - 1);
    assert ScriptPlan(volume, numLiquids, iterN, m) == prev + ScriptPass(volume, numLiquids, iterN, m - 1);
    if k < (m - 1) * s {
      ScriptPlanAt(volume, numLiquids, iterN, m - 1, k);
    } else {
      var r := k - (m - 1) * s;
      assert r < s by { assert m * s == (m - 1) * s + s; }
      DivModOf(k, s, m - 1, r);
    }
  }

  /** The protocol's cell agrees with the generated program's exactly when
      `start_col + j % 12` stays below 12; otherwise the column is 12 or
      more and the well has no cell on the plate. */
  lemma ScriptCellAgreement(iterSize: nat, iterN: nat, j: nat)
    ensures var sc := (iterSize * iterN) % 12;
            (ScriptCell(iterSize, iterN, j) == ScriptGenerator.GenCell(iterSize, iterN, j) <==> sc + j % 12 < 12) &&
            (sc + j % 12 >= 12 ==> ScriptCell(iterSize, iterN, j).1 >= PLATE_COLUMNS)
  {
    var sc := (iterSize * iterN) % 12;
    var q := j / 12;
    var r := j % 12;
    DivModOf(sc + j, 12, q + (if sc + r < 12 then 0 else 1), if sc + r < 12 then sc + r else sc + r - 12);
  }

  /** Five wells per iteration, iteration 2: the batch starts at row 0,
      column 10 (wells 10 and 11 of row A); the third well should be row B,
      column 0, but the protocol addresses row B, column 12, which does not
      exist. */
  lemma ScriptCellOverflows()
    ensures ScriptCell(5, 2, 1) == (0, 11)
    ensures ScriptCell(5, 2, 2) == (1, 12) && !InPlate(ScriptCell(5, 2, 2))
    ensures ScriptGenerator.GenCell(5, 2, 2) == (1, 0) && InPlate(ScriptGenerator.GenCell(5, 2, 2))
  {
  }

  /** Corrected: with the column `(start_col + j) % 12`, as the generated
      program computes it, well `j` is `divmod(iter_size*iter_n + j, 12)`,
      inside the plate whenever the batch fits it. */
  lemma CorrectedCellIsRowMajor(iterSize: nat, iterN: nat, j: nat)
    requires iterSize * iterN + j < PLATE_WELLS
    ensures ScriptGenerator.GenCell(iterSize, iterN, j) == ((iterSize * iterN + j) / 12, (iterSize * iterN + j) % 12)
    ensures InPlate(ScriptGenerator.GenCell(iterSize, iterN, j))
  {
    ScriptGenerator.GenCellIsRowMajor(iterSize, iterN, j);
  }
}
