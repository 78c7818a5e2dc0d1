/** `OptimisationLoop` of optobot/automate.py: the closed-loop orchestrator.
    One call dilutes the batch, dispenses it (live, through
    `liquid_handling`, when a robot connection is given), obtains the
    measurements, scores them, records everything in the four tables and
    advances the iteration counter. */
module Automate {
  import opened Wrappers
  import opened Grid
  import opened Labware
  import opened Experiment

  // ---------------------------------------------------------------------
  // liquid_handling: the column-major dispense plan (96 and 8 hard-coded)

  /** `(iteration_count * population_size) // 96`. */
  function HandlingPlate(n: nat, pop: nat): nat
  {
    (n * pop) / PLATE_WELLS
  }

  /** `iteration_count - current_plate_idx*8`. */
  function WellCount(n: nat, pop: nat): int
  {
    n - HandlingPlate(n, pop) * PLATE_ROWS
  }

  /** Transfer of liquid `liquid` into batch well `j`, from reservoir
      `A{liquid+1}` to `wells()[j*8 + well_count]`; only the last liquid
      mixes, with `(3, 20)`. */
  function HandlingTransfer(volumes: Batch, liquid: nat, numLiquids: nat, plate: nat,
                            wellCount: int, j: nat): Command
    requires j < |volumes| && liquid < |volumes[j]|
  {
    Transfer(volumes[j][liquid], liquid + 1, WellAt(plate, j * PLATE_ROWS + wellCount),
             if liquid == numLiquids - 1 then Some(Mix(3, 20.0)) else None, Never)
  }

  /** The first `k` transfers of one liquid's pass. */
  function LiquidTransfers(volumes: Batch, liquid: nat, numLiquids: nat, plate: nat,
                           wellCount: int, k: nat): (cmds: seq<Command>)
    requires liquid < numLiquids && k <= |volumes| && IsMatrix(volumes, |volumes|, numLiquids)
    ensures |cmds| == k
  {
    seq(k, j requires 0 <= j < k => HandlingTransfer(volumes, liquid, numLiquids, plate, wellCount, j))
  }

  /** One liquid: pick up a tip, one transfer per well, drop the tip. */
  function LiquidPass(volumes: Batch, liquid: nat, numLiquids: nat, plate: nat, wellCount: int): (cmds: seq<Command>)
    requires liquid < numLiquids && IsMatrix(volumes, |volumes|, numLiquids)
    ensures |cmds| == |volumes| + 2
  {
    [PickUpTip] + LiquidTransfers(volumes, liquid, numLiquids, plate, wellCount, |volumes|) + [DropTip]
  }

  /** The commands of the first `m` liquid passes. */
  function HandlingPlan(volumes: Batch, numLiquids: nat, plate: nat, wellCount: int, m: nat): seq<Command>
    requires m <= numLiquids && IsMatrix(volumes, |volumes|, numLiquids)
  {
    if m == 0 then []
    else HandlingPlan(volumes, numLiquids, plate, wellCount, m - 1) +
         LiquidPass(volumes, m - 1, numLiquids, plate, wellCount)
  }

  /** Command `t` of pass `l` of the plan: the pass opens with the tip
      pick-up, transfers every well in batch order from reservoir `A{l+1}`
      and closes with the tip drop; it mixes only on the last liquid. */
  lemma {:induction false} HandlingPlanAt(volumes: Batch, numLiquids: nat, plate: nat, wellCount: int,
                                          m: nat, l: nat, t: nat)
    requires m <= numLiquids && IsMatrix(volumes, |volumes|, numLiquids)
    requires l < m && t < |volumes| + 2
    ensures |HandlingPlan(volumes, numLiquids, plate, wellCount, m)| == m * (|volumes| + 2)
    ensures l * (|volumes| + 2) + t < m * (|volumes| + 2)
    ensures HandlingPlan(volumes, numLiquids, plate, wellCount, m)[l * (|volumes| + 2) + t] ==
      if t == 0 then PickUpTip
      else if t == |volumes| + 1 then DropTip
      else HandlingTransfer(volumes, l, numLiquids, plate, wellCount, t - 1)
  {
    var w := |volumes| + 2;
    var prev := HandlingPlan(volumes, numLiquids, plate, wellCount, m - 1);
    var plan := HandlingPlan(volumes, numLiquids, plate, wellCount, m);
    assert plan == prev + LiquidPass(volumes, m - 1, numLiquids, plate, wellCount);
    HandlingPlanLength(volumes, numLiquids, plate, wellCount, m - 1);
    assert m * w == (m - 1) * w + w;
    if l < m - 1 {
      HandlingPlanAt(volumes, numLiquids, plate, wellCount, m - 1, l, t);
    } else {
      assert l * w + t == |prev| + t;
    }
  }

  lemma {:induction false} HandlingPlanLength(volumes: Batch, numLiquids: nat, plate: nat, wellCount: int, m: nat)
    requires m <= numLiquids && IsMatrix(volumes, |volumes|, numLiquids)
    ensures |HandlingPlan(volumes, numLiquids, plate, wellCount, m)| == m * (|volumes| + 2)
  {
    if m > 0 {
      HandlingPlanLength(volumes, numLiquids, plate, wellCount, m - 1);
    }
  }

  /** The robot accepts every command of the plan: each liquid's tip is
      picked up before its transfers and binned after them. */
  lemma {:induction false} HandlingPlanTipSafe(volumes: Batch, numLiquids: nat, plate: nat, wellCount: int, m: nat)
    requires m <= numLiquids && IsMatrix(volumes, |volumes|, numLiquids)
    ensures TipState(HandlingPlan(volumes, numLiquids, plate, wellCount, m), false) == Some(false)
  {
    if m > 0 {
      HandlingPlanTipSafe(volumes, numLiquids, plate, wellCount, m - 1);
      var transfers := LiquidTransfers(volumes, m - 1, numLiquids, plate, wellCount, |volumes|);
      TipPassIsSafe(transfers);
      TipStateAppend(HandlingPlan(volumes, numLiquids, plate, wellCount, m - 1),
                     LiquidPass(volumes, m - 1, numLiquids, plate, wellCount), false);
    }
  }

  /** The liquid loop of `liquid_handling` (and of the simulated
      protocol's `run`): per liquid a tip, one transfer per well into
      `wells()[well*8 + well_count]` of the chosen plate, mixing on the last
      liquid, and the tip binned. */
  method Dispense(volumes: Batch, numLiquids: nat, plateIndex: nat, wellCount: int) returns (log: seq<Command>)
    requires IsMatrix(volumes, |volumes|, numLiquids)
    ensures log == HandlingPlan(volumes, numLiquids, plateIndex, wellCount, numLiquids)
  {
    log := [];
    var liquid := 0;
    while liquid < numLiquids
      invariant 0 <= liquid <= numLiquids
      invariant log == HandlingPlan(volumes, numLiquids, plateIndex, wellCount, liquid)
    {
      log := log + [PickUpTip];
      var well := 0;
      ghost var before := log;
      while well < |volumes|
        invariant 0 <= well <= |volumes|
        invariant log == before + LiquidTransfers(volumes, liquid, numLiquids, plateIndex, wellCount, well)
      {
        var wellIndex := well * 8 + wellCount;
        var mix := if liquid != numLiquids - 1 then None else Some(Mix(3, 20.0));
        log := log + [Transfer(volumes[well][liquid], liquid + 1, WellAt(plateIndex, wellIndex), mix, Never)];
        well := well + 1;
      }
      log := log + [DropTip];
      liquid := liquid + 1;
    }
  }

  /** With the default batch of 12, well `j` of iteration `n` goes to
      `wells()[j*8 + n % 8]`: plate row `n % 8` (rows A..H in turn), plate
      column `j`, always inside the 96 wells. */
  lemma DefaultBatchWell(n: nat, j: nat)
    requires j < PLATE_COLUMNS
    ensures HandlingPlate(n, 12) == n / 8 && WellCount(n, 12) == n % 8
    ensures HandlingIndex(n, 12, j) == j * 8 + n % 8
    ensures 0 <= HandlingIndex(n, 12, j) < PLATE_WELLS
    ensures WellRow(HandlingIndex(n, 12, j)) == n % 8 && WellColumn(HandlingIndex(n, 12, j)) == j
  {
    DivModOf(n * 12, 96, n / 8, 12 * (n % 8));
    var idx := j * 8 + n % 8;
    DivModOf(idx, 8, j, n % 8);
  }

  function HandlingIndex(n: nat, pop: nat, j: nat): int
  {
    j * PLATE_ROWS + WellCount(n, pop)
  }

  /** With the default batch of 12, distinct (iteration, well) pairs are
      dispensed into distinct wells. */
  lemma DefaultBatchInjective(n1: nat, j1: nat, n2: nat, j2: nat)
    requires j1 < PLATE_COLUMNS && j2 < PLATE_COLUMNS
    requires HandlingPlate(n1, 12) == HandlingPlate(n2, 12)
    requires HandlingIndex(n1, 12, j1) == HandlingIndex(n2, 12, j2)
    ensures n1 == n2 && j1 == j2
  {
    DefaultBatchWell(n1, j1);
    DefaultBatchWell(n2, j2);
    assert n1 == 8 * (n1 / 8) + n1 % 8;
    assert n2 == 8 * (n2 / 8) + n2 % 8;
  }

  /** With any other batch size the hard-coded factor 8 breaks the
      addressing: batches of 5 at iteration 7 start at well 35 (row C,
      column 12) but are dispensed from row H, column 1, and batches of 24 at
      iteration 4 produce the negative index -4. */
  lemma OtherBatchSizesMisaddress()
    ensures HandlingIndex(7, 5, 0) == 7 && WellRow(7) == 7 && WellColumn(7) == 0
    ensures (7 * 5) / 12 == 2 && (7 * 5) % 12 == 11
    ensures HandlingIndex(4, 24, 0) == -4
  {
  }

  /** The main correspondence: with the default batch of 12 on 8 x 12
      plates, well `j` of iteration `n` is dispensed into the plate, row and
      column whose cells of the gapped tables receive its record. */
  lemma DispensedWellIsRecordedWell(n: nat, j: nat, plates: nat, blank: nat)
    requires j < 12 && plates >= 1 && (n + 1) * 12 <= plates * 96
    ensures var idx := HandlingIndex(n, 12, j);
            var flat := StartIndex(n, 12, 8, 12, blank) + j;
            0 <= idx < PLATE_WELLS &&
            HandlingPlate(n, 12) == CurrentPlate(n, 12, 8, 12) < plates &&
            DecodeRow(flat / 12, 8, blank) == Some(PlateRow(HandlingPlate(n, 12), WellRow(idx))) &&
            flat % 12 == WellColumn(idx) &&
            flat < TotalRows(plates, 8, blank) * 12
  {
    DefaultBatchWell(n, j);
    AlignedWindow(n, 12, 8, 12, 8);
    WindowCell(n, 12, 8, 12, blank, j);
    WindowFitsTable(n, 12, plates, 8, 12, blank);
    var p := CurrentPlate(n, 12, 8, 12);
    var local := n * 12 + j - p * 96;
    assert p == n / 8;
    assert local == (n % 8) * 12 + j;
    DivModOf(local, 12, n % 8, j);
  }

  // ---------------------------------------------------------------------
  // optimise: back-end dispatch by name

  datatype Backend = ParticleSwarm | GaussianProcess | RandomForest

  /** `"PSO"`, `"GP"` and `"RF"` select a back-end; any other name makes
      `optimise` return without running an iteration. */
  function SelectBackend(optimiser: string): (b: Option<Backend>)
    ensures b == Some(ParticleSwarm) <==> optimiser == "PSO"
    ensures b == Some(GaussianProcess) <==> optimiser == "GP"
    ensures b == Some(RandomForest) <==> optimiser == "RF"
    ensures b == None <==> optimiser !in {"PSO", "GP", "RF"}
  {
    if optimiser == "PSO" then Some(ParticleSwarm)
    else if optimiser == "GP" then Some(GaussianProcess)
    else if optimiser == "RF" then Some(RandomForest)
    else None
  }

  // ---------------------------------------------------------------------
  // Table allocation

  /** The labelling loop of `init_dataframes`: plate letters, with
      `blank` empty labels after every plate but the last. */
  method BuildWellplateIndex(plates: nat, rows: nat, blank: nat) returns (index: seq<string>)
    requires plates >= 1 && rows > 0
    ensures |index| == TotalRows(plates, rows, blank)
    ensures forall g :: 0 <= g < |index| ==> index[g] == LabelOf(g, rows, blank)
  {
    index := [];
    var i := 0;
    while i < plates
      invariant 0 <= i <= plates
      invariant index == IndexPrefix(i, plates, rows, blank)
    {
      var wellplateRows := PlateLabels(rows);
      if i != plates - 1 {
        index := index + (wellplateRows + Blanks(blank));
      } else {
        index := index + wellplateRows;
      }
      i := i + 1;
    }
    WellplateIndexLayout(plates, rows, blank);
  }

  /** The column headers of the four tables. */
  datatype Headers = Headers(liquidColumns: seq<(nat, string)>, measurementColumns: seq<(nat, string)>,
                             errorColumns: seq<nat>, allDataColumns: seq<string>)

  function TableHeaders(columns: nat, liquidNames: seq<string>, measuredNames: seq<string>): (h: Headers)
    ensures |h.liquidColumns| == columns * |liquidNames|
    ensures |h.measurementColumns| == columns * |measuredNames|
    ensures |h.errorColumns| == columns
    ensures |h.allDataColumns| == |liquidNames| + |measuredNames| + 2
  {
    Headers(ProductColumns(columns, liquidNames), ProductColumns(columns, measuredNames),
            ErrorColumns(columns), AllDataColumns(liquidNames, measuredNames))
  }

  /** `init_dataframes`: the row index and four zero-filled tables, gapped
      ones of `TotalRows` rows and `all_data` of `P*R*C` rows. */
  method InitDataframes(plates: nat, rows: nat, columns: nat, numLiquids: nat, numMeasured: nat, blank: nat)
    returns (index: seq<string>, volumes: array<real>, measurements: array<real>,
             errors: array<real>, allData: array<real>)
    requires plates >= 1 && rows > 0
    ensures |index| == TotalRows(plates, rows, blank)
    ensures forall g :: 0 <= g < |index| ==> index[g] == LabelOf(g, rows, blank)
    ensures fresh(volumes) && fresh(measurements) && fresh(errors) && fresh(allData)
    ensures volumes != measurements && volumes != errors && volumes != allData
    ensures measurements != errors && measurements != allData && errors != allData
    ensures volumes.Length == TotalRows(plates, rows, blank) * (columns * numLiquids)
    ensures measurements.Length == TotalRows(plates, rows, blank) * (columns * numMeasured)
    ensures errors.Length == TotalRows(plates, rows, blank) * columns
    ensures allData.Length == plates * rows * columns * (numLiquids + numMeasured + 2)
    ensures AllZero(volumes[..]) && AllZero(measurements[..]) && AllZero(errors[..]) && AllZero(allData[..])
  {
    index := BuildWellplateIndex(plates, rows, blank);
    var totalRows := plates * rows + blank * (plates - 1);
    volumes := Zeros(totalRows * (columns * numLiquids));
    errors := Zeros(totalRows * columns);
    measurements := Zeros(totalRows * (columns * numMeasured));
    allData := Zeros(plates * rows * columns * (numLiquids + numMeasured + 2));
  }

  /** The contents of the four tables (`liquid_volume_df`,
      `measurements_df`, `error_df`, `all_data_df`), each flattened row by
      row. */
  datatype Tables = Tables(volumes: seq<real>, measurements: seq<real>, errors: seq<real>, allData: seq<real>)

  // ---------------------------------------------------------------------
  // The orchestrator

  class OptimisationLoop {
    const objective: Objective
    const liquidNames: seq<string>
    const measuredNames: seq<string>
    const populationSize: nat
    const measurementFunction: MeasurementSetting
    const wellplateRows: nat
    const wellplateColumns: nat
    const wellplateLocs: seq<int>
    const totalVolume: real
    const networkConnection: bool
    const blankRowSpace: nat
    const wellplateIndex: seq<string>
    const headers: Headers
    /** The flat row-major views of the four tables. */
    const liquidVolumeTable: array<real>
    const measurementTable: array<real>
    const errorTable: array<real>
    const allDataTable: array<real>
    var iterationCount: nat

    function NumLiquids(): nat { |liquidNames| }
    function NumMeasured(): nat { |measuredNames| }
    function NumPlates(): nat { |wellplateLocs| }

    ghost predicate Valid()
    {
      && wellplateRows > 0 && wellplateColumns > 0 && NumPlates() >= 1 && blankRowSpace == 1
      && liquidVolumeTable.Length == TableRows() * (wellplateColumns * NumLiquids())
      && measurementTable.Length == TableRows() * (wellplateColumns * NumMeasured())
      && errorTable.Length == TableRows() * wellplateColumns
      && allDataTable.Length == NumPlates() * wellplateRows * wellplateColumns * (NumLiquids() + NumMeasured() + 2)
      && liquidVolumeTable != measurementTable && liquidVolumeTable != errorTable
      && liquidVolumeTable != allDataTable && measurementTable != errorTable
      && measurementTable != allDataTable && errorTable != allDataTable
      && ObjectiveKeepsShape(objective) && MeasureKeepsShape(measurementFunction)
    }

    function TableRows(): nat
      requires NumPlates() >= 1
    {
      TotalRows(NumPlates(), wellplateRows, blankRowSpace)
    }

    /** The preflight check of the entry scripts, for iteration `n`. */
    ghost predicate Fits(n: nat)
    {
      (n + 1) * populationSize <= NumPlates() * (wellplateRows * wellplateColumns)
    }

    constructor (objective: Objective, liquidNames: seq<string>, measuredNames: seq<string>,
                 populationSize: nat, measurementFunction: MeasurementSetting,
                 wellplateShape: (nat, nat), wellplateLocs: seq<int>, totalVolume: real,
                 networkConnection: bool)
      requires wellplateShape.0 > 0 && wellplateShape.1 > 0 && |wellplateLocs| >= 1
      requires ObjectiveKeepsShape(objective) && MeasureKeepsShape(measurementFunction)
      ensures Valid() && iterationCount == 0
      ensures this.objective == objective && this.liquidNames == liquidNames
      ensures this.measuredNames == measuredNames && this.populationSize == populationSize
      ensures this.measurementFunction == measurementFunction
      ensures wellplateRows == wellplateShape.0 && wellplateColumns == wellplateShape.1
      ensures this.wellplateLocs == wellplateLocs && this.totalVolume == totalVolume
      ensures this.networkConnection == networkConnection && blankRowSpace == 1
      ensures |wellplateIndex| == TableRows()
      ensures forall g :: 0 <= g < |wellplateIndex| ==>
        wellplateIndex[g] == LabelOf(g, wellplateRows, blankRowSpace)
      ensures headers == TableHeaders(wellplateColumns, liquidNames, measuredNames)
      ensures fresh(liquidVolumeTable) && fresh(measurementTable) && fresh(errorTable) && fresh(allDataTable)
      ensures AllZero(liquidVolumeTable[..]) && AllZero(measurementTable[..])
      ensures AllZero(errorTable[..]) && AllZero(allDataTable[..])
    {
      this.objective := objective;
      this.liquidNames := liquidNames;
      this.measuredNames := measuredNames;
      this.populationSize := populationSize;
      this.measurementFunction := measurementFunction;
      this.wellplateRows := wellplateShape.0;
      this.wellplateColumns := wellplateShape.1;
      this.wellplateLocs := wellplateLocs;
      this.totalVolume := totalVolume;
      this.networkConnection := networkConnection;
      this.blankRowSpace := 1;
      var index, v, m, e, a := InitDataframes(|wellplateLocs|, wellplateShape.0, wellplateShape.1,
                                              |liquidNames|, |measuredNames|, 1);
      this.wellplateIndex := index;
      this.headers := TableHeaders(wellplateShape.1, liquidNames, measuredNames);
      this.liquidVolumeTable, this.measurementTable, this.errorTable, this.allDataTable := v, m, e, a;
      this.iterationCount := 0;
    }

    /** The gapped-table offset of iteration `n`'s window. */
    function Start(n: nat): nat
      requires wellplateRows * wellplateColumns > 0
    {
      StartIndex(n, populationSize, wellplateRows, wellplateColumns, blankRowSpace)
    }

    lemma WindowFits(n: nat, width: nat)
      requires Valid() && Fits(n)
      ensures Start(n) + populationSize <= TableRows() * wellplateColumns
      ensures (Start(n) + populationSize) * width <= TableRows() * (wellplateColumns * width)
    {
      WindowFitsTable(n, populationSize, NumPlates(), wellplateRows, wellplateColumns, blankRowSpace);
      ScaleBound(Start(n) + populationSize, TableRows(), wellplateColumns, width);
    }

    /** What `user_input` reads from the saved measurements file: its
        window of iteration `n`, as a `(population_size, M)` batch. */
    function ManualReading(n: nat, entered: seq<real>): (m: Batch)
      requires Valid() && Fits(n) && |entered| == measurementTable.Length
      ensures IsMatrix(m, populationSize, NumMeasured())
    {
      WindowFits(n, NumMeasured());
      ReadRows(entered, Start(n), populationSize, NumMeasured())
    }

    /** `user_input`: after the operator has filled in the measurements
        file (`entered`, its values in the table's layout), read back the
        current window; well `j`, parameter `k` is cell
        `(start + j)*M + k`. */
    method UserInput(entered: seq<real>) returns (measurements: Batch)
      requires Valid() && Fits(iterationCount) && |entered| == measurementTable.Length
      ensures measurements == ManualReading(iterationCount, entered)
      ensures IsMatrix(measurements, populationSize, NumMeasured())
    {
      measurements := ManualReading(iterationCount, entered);
    }

    lemma ManualReadingAt(n: nat, entered: seq<real>, j: nat, k: nat)
      requires Valid() && Fits(n) && |entered| == measurementTable.Length
      requires j < populationSize && k < NumMeasured()
      ensures (Start(n) + j) * NumMeasured() + k < |entered|
      ensures ManualReading(n, entered)[j][k] == entered[(Start(n) + j) * NumMeasured() + k]
    {
      WindowFits(n, NumMeasured());
      ReadRowsAt(entered, Start(n), populationSize, NumMeasured(), j, k);
    }

    /** The measurements of iteration `n`. */
    function Measurements(n: nat, diluted: Batch, entered: seq<real>): (m: Batch)
      requires Valid() && Fits(n) && measurementFunction != Off
      requires measurementFunction == Manual ==> |entered| == measurementTable.Length
      ensures IsMatrix(m, populationSize, NumMeasured())
    {
      if measurementFunction == Manual then ManualReading(n, entered)
      else measurementFunction.measure(diluted, n, populationSize, NumMeasured())
    }

    /** The four windows of iteration `n` lie inside their tables. */
    lemma StoreFits(n: nat)
      requires Valid() && Fits(n)
      ensures (Start(n) + populationSize) * NumLiquids() <= liquidVolumeTable.Length
      ensures (Start(n) + populationSize) * NumMeasured() <= measurementTable.Length
      ensures Start(n) + populationSize <= errorTable.Length
      ensures (n * populationSize + populationSize) * AllDataWidth() <= allDataTable.Length
    {
      WindowFits(n, NumLiquids());
      WindowFits(n, NumMeasured());
      AllDataFits(n);
    }

    /** The four tables as values. */
    function Contents(): Tables
      reads liquidVolumeTable, measurementTable, errorTable, allDataTable
    {
      Tables(liquidVolumeTable[..], measurementTable[..], errorTable[..], allDataTable[..])
    }

    /** The effect of `store_data` for iteration `n`. */
    twostate predicate Stored(n: nat, volumes: Batch, measured: Batch, errors: seq<real>)
      requires Valid() && Fits(n)
      requires IsMatrix(volumes, populationSize, NumLiquids())
      requires IsMatrix(measured, populationSize, NumMeasured()) && |errors| == populationSize
      reads liquidVolumeTable, measurementTable, errorTable, allDataTable
    {
      StoreFits(n);
      StoredFrom(old(Contents()), Contents(), n, volumes, measured, errors)
    }

    /** Iteration `n`'s windows lie inside the tables `t`. */
    ghost predicate WindowsFit(n: nat, t: Tables)
      requires wellplateRows * wellplateColumns > 0
    {
      && (Start(n) + populationSize) * NumLiquids() <= |t.volumes|
      && (Start(n) + populationSize) * NumMeasured() <= |t.measurements|
      && Start(n) + populationSize <= |t.errors|
      && (n * populationSize + populationSize) * AllDataWidth() <= |t.allData|
    }

    /** `after` is what `store_data` for iteration `n` makes of `before`. */
    ghost predicate StoredFrom(before: Tables, after: Tables, n: nat, volumes: Batch, measured: Batch, errors: seq<real>)
      requires wellplateRows * wellplateColumns > 0 && WindowsFit(n, before)
      requires IsMatrix(volumes, populationSize, NumLiquids())
      requires IsMatrix(measured, populationSize, NumMeasured()) && |errors| == populationSize
    {
      AllDataRowsShape(n, volumes, measured, errors, populationSize, NumLiquids(), NumMeasured());
      MulMono(0, n, populationSize);
      && after.volumes == OverwriteRows(before.volumes, Start(n), volumes, populationSize, NumLiquids())
      && after.errors == Overwrite(before.errors, Start(n), errors)
      && after.measurements ==
           (if measurementFunction != Manual
            then OverwriteRows(before.measurements, Start(n), measured, populationSize, NumMeasured())
            else before.measurements)
      && after.allData ==
           OverwriteRows(before.allData, n * populationSize, AllDataRows(n, volumes, measured, errors),
                         populationSize, AllDataWidth())
    }

    function AllDataWidth(): nat { NumLiquids() + NumMeasured() + 2 }

    /** Iteration `n`'s record reads back from `after` as it read from
        `before`: its rows of the three gapped tables and its `all_data`
        rows. */
    ghost predicate KeptFrom(before: Tables, after: Tables, n: nat)
      requires wellplateRows * wellplateColumns > 0 && WindowsFit(n, before) && WindowsFit(n, after)
    {
      MulMono(0, n, populationSize);
      && ReadRows(after.volumes, Start(n), populationSize, NumLiquids()) ==
         ReadRows(before.volumes, Start(n), populationSize, NumLiquids())
      && ReadRows(after.measurements, Start(n), populationSize, NumMeasured()) ==
         ReadRows(before.measurements, Start(n), populationSize, NumMeasured())
      && ReadRows(after.errors, Start(n), populationSize, 1) == ReadRows(before.errors, Start(n), populationSize, 1)
      && ReadRows(after.allData, n * populationSize, populationSize, AllDataWidth()) ==
         ReadRows(before.allData, n * populationSize, populationSize, AllDataWidth())
    }

    /** A store for iteration `n` leaves the record of every earlier
        iteration in place: no later batch overwrites an earlier one. Its
        premise is what `Stored`, ensured by `StoreData` and `Call`, says of
        `old(Contents())` and `Contents()`. */
    lemma StoreKeepsEarlierIteration(n1: nat, n: nat, before: Tables, after: Tables,
                                     volumes: Batch, measured: Batch, errors: seq<real>)
      requires wellplateRows * wellplateColumns > 0 && n1 < n && WindowsFit(n, before)
      requires IsMatrix(volumes, populationSize, NumLiquids())
      requires IsMatrix(measured, populationSize, NumMeasured()) && |errors| == populationSize
      requires StoredFrom(before, after, n, volumes, measured, errors)
      ensures WindowsFit(n1, before) && WindowsFit(n1, after) && KeptFrom(before, after, n1)
    {
      var a, b := Start(n1), Start(n);
      LaterWindowKeepsRows(before.volumes, after.volumes, a, b, n1, n, populationSize,
                           wellplateRows, wellplateColumns, blankRowSpace, volumes, NumLiquids());
      LaterWindowKeepsRowsIf(before.measurements, after.measurements, measurementFunction != Manual, a, b, n1, n,
                             populationSize, wellplateRows, wellplateColumns, blankRowSpace, measured, NumMeasured());
      LaterWindowKeepsCells(before.errors, after.errors, a, b, n1, n, populationSize,
                            wellplateRows, wellplateColumns, blankRowSpace, errors);
      LaterBatchKeepsRows(before.allData, after.allData, n1, n, volumes, measured, errors,
                          populationSize, NumLiquids(), NumMeasured(), AllDataWidth());
    }

    lemma AllDataFits(n: nat)
      requires Valid() && Fits(n)
      ensures (n * populationSize + populationSize) * AllDataWidth() <= allDataTable.Length
    {
      MulMono((n + 1) * populationSize, NumPlates() * (wellplateRows * wellplateColumns), AllDataWidth());
    }

    /** `store_data`: write the iteration's volumes, errors and (unless
        measured manually) measurements into their gapped windows, and its
        rows into `all_data` at rows `[n*pop, (n+1)*pop)`. */
    method StoreData(volumes: Batch, measured: Batch, errors: seq<real>)
      requires Valid() && Fits(iterationCount)
      requires IsMatrix(volumes, populationSize, NumLiquids())
      requires IsMatrix(measured, populationSize, NumMeasured()) && |errors| == populationSize
      modifies liquidVolumeTable, measurementTable, errorTable, allDataTable
      ensures Stored(iterationCount, volumes, measured, errors)
    {
      var n := iterationCount;
      var start := Start(n);
      WindowFits(n, NumLiquids());
      WindowFits(n, NumMeasured());
      AllDataFits(n);
      WriteRows(liquidVolumeTable, start, volumes, populationSize, NumLiquids());
      WriteSlice(errorTable, start, errors);
      if measurementFunction != Manual {
        WriteRows(measurementTable, start, measured, populationSize, NumMeasured());
      }
      var rowsOfIteration := AllDataRows(n, volumes, measured, errors);
      AllDataRowsShape(n, volumes, measured, errors, populationSize, NumLiquids(), NumMeasured());
      WriteRows(allDataTable, n * populationSize, rowsOfIteration, populationSize, AllDataWidth());
    }

    /** `liquid_handling`: the live dispense plan of the current iteration
        on plate `plates["plate_{idx+1}"]`. */
    method LiquidHandling(volumes: Batch) returns (plateIndex: nat, log: seq<Command>)
      requires IsMatrix(volumes, |volumes|, NumLiquids())
      requires HandlingPlate(iterationCount, populationSize) < NumPlates()
      ensures plateIndex == HandlingPlate(iterationCount, populationSize)
      ensures log == HandlingPlan(volumes, NumLiquids(), plateIndex,
                                  WellCount(iterationCount, populationSize), NumLiquids())
    {
      var numLiquids := NumLiquids();
      var startIndex := iterationCount * populationSize;
      plateIndex := startIndex / 96;
      var wellCount := iterationCount - plateIndex * 8;
      log := Dispense(volumes, numLiquids, plateIndex, wellCount);
    }

    /** `__call__`: one iteration of the loop. */
    method Call(liquidVolumes: Batch, entered: seq<real>) returns (errors: seq<real>, dispensed: seq<Command>)
      requires Valid() && Fits(iterationCount) && NumLiquids() >= 1
      requires IsMatrix(liquidVolumes, populationSize, NumLiquids() - 1)
      requires measurementFunction != Off
      requires measurementFunction == Manual ==> |entered| == measurementTable.Length
      requires networkConnection ==> HandlingPlate(iterationCount, populationSize) < NumPlates()
      modifies this, liquidVolumeTable, measurementTable, errorTable, allDataTable
      ensures iterationCount == old(iterationCount) + 1
      ensures var diluted := Dilute(liquidVolumes, totalVolume);
              var measured := Measurements(old(iterationCount), diluted, entered);
              && errors == objective(measured)
              && dispensed == (if networkConnection
                               then HandlingPlan(diluted, NumLiquids(), HandlingPlate(old(iterationCount), populationSize),
                                                 WellCount(old(iterationCount), populationSize), NumLiquids())
                               else [])
              && Stored(old(iterationCount), diluted, measured, errors)
    {
      var diluted := Dilute(liquidVolumes, totalVolume);
      DiluteShape(liquidVolumes, populationSize, NumLiquids() - 1, totalVolume);
      dispensed := [];
      if networkConnection {
        var plateIndex;
        plateIndex, dispensed := LiquidHandling(diluted);
      }
      var measured;
      if measurementFunction == Manual {
        measured := UserInput(entered);
      } else {
        measured := measurementFunction.measure(diluted, iterationCount, populationSize, NumMeasured());
      }
      errors := objective(measured);
      StoreData(diluted, measured, errors);
      iterationCount := iterationCount + 1;
    }
  }

  /** The round trip of the measurements table: a batch stored by
      `store_data` and read back by `user_input` from a file with that
      content is the same batch. */
  lemma StoreThenReadBack(loop: OptimisationLoop, n: nat, before: seq<real>, measured: Batch)
    requires loop.Valid() && loop.Fits(n) && |before| == loop.measurementTable.Length
    requires IsMatrix(measured, loop.populationSize, loop.NumMeasured())
    ensures (loop.Start(n) + loop.populationSize) * loop.NumMeasured() <= |before|
    ensures loop.ManualReading(n, OverwriteRows(before, loop.Start(n), measured,
                                                loop.populationSize, loop.NumMeasured())) == measured
  {
    loop.WindowFits(n, loop.NumMeasured());
    ReadOverwriteRows(before, loop.Start(n), measured, loop.populationSize, loop.NumMeasured());
  }

  /** Combined with `Stored`: the volume of liquid `l` for well `j` of a
      default-size batch is recorded in the gapped-table cell of the very
      well `liquid_handling` dispenses it into. */
  lemma RecipeRecordedAtItsWell(before: seq<real>, n: nat, plates: nat, blank: nat,
                                volumes: Batch, numLiquids: nat, j: nat, l: nat)
    requires j < 12 && l < numLiquids && plates >= 1 && (n + 1) * 12 <= plates * 96
    requires IsMatrix(volumes, 12, numLiquids)
    requires (StartIndex(n, 12, 8, 12, blank) + 12) * numLiquids <= |before|
    ensures var idx := HandlingIndex(n, 12, j);
            var flat := StartIndex(n, 12, 8, 12, blank) + j;
            var after := OverwriteRows(before, StartIndex(n, 12, 8, 12, blank), volumes, 12, numLiquids);
            0 <= idx < PLATE_WELLS &&
            DecodeRow(flat / 12, 8, blank) == Some(PlateRow(HandlingPlate(n, 12), WellRow(idx))) &&
            flat % 12 == WellColumn(idx) &&
            flat * numLiquids + l < |after| && after[flat * numLiquids + l] == volumes[j][l]
  {
    DispensedWellIsRecordedWell(n, j, plates, blank);
    OverwriteRowsAt(before, StartIndex(n, 12, 8, 12, blank), volumes, 12, numLiquids, j, l);
  }

  /** One call with the default batch of 12, 8 x 12 plates, end to end:
      given the log `Call` dispenses and the volume table it stores (both
      as its postcondition states them), command `l*14 + j + 1` of the log
      transfers the volume of liquid `l` for well `j` from reservoir
      `A{l+1}` into `wells()[idx]` of plate `HandlingPlate`, and the table
      row of that plate and well row, at the well's column, holds that same
      volume. */
  lemma DispensedVolumeIsRecorded(before: seq<real>, n: nat, plates: nat, blank: nat,
                                  volumes: Batch, numLiquids: nat, j: nat, l: nat)
    requires j < 12 && l < numLiquids && plates >= 1 && (n + 1) * 12 <= plates * 96
    requires IsMatrix(volumes, 12, numLiquids)
    requires (StartIndex(n, 12, 8, 12, blank) + 12) * numLiquids <= |before|
    ensures var log := HandlingPlan(volumes, numLiquids, HandlingPlate(n, 12), WellCount(n, 12), numLiquids);
            var after := OverwriteRows(before, StartIndex(n, 12, 8, 12, blank), volumes, 12, numLiquids);
            var idx := HandlingIndex(n, 12, j);
            var flat := StartIndex(n, 12, 8, 12, blank) + j;
            && 0 <= idx < PLATE_WELLS && l * 14 + j + 1 < |log|
            && log[l * 14 + j + 1].Transfer?
            && log[l * 14 + j + 1].volume == volumes[j][l]
            && log[l * 14 + j + 1].source == l + 1
            && log[l * 14 + j + 1].target == WellAt(HandlingPlate(n, 12), idx)
            && DecodeRow(flat / 12, 8, blank) == Some(PlateRow(HandlingPlate(n, 12), WellRow(idx)))
            && flat % 12 == WellColumn(idx)
            && flat * numLiquids + l < |after| && after[flat * numLiquids + l] == volumes[j][l]
  {
    HandlingPlanAt(volumes, numLiquids, HandlingPlate(n, 12), WellCount(n, 12), numLiquids, l, j + 1);
    RecipeRecordedAtItsWell(before, n, plates, blank, volumes, numLiquids, j, l);
  }
}
