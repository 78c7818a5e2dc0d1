/** The earlier copy of the orchestrator, `wellplate96` in
    application/test/test_wellplates.py. Dilution, table allocation, the
    gapped offsets, `store_data` and `user_input` are those of
    `OptimisationLoop`, except that `store_data` writes the measurements
    table only when the measurement setting is `False`; since `__call__`
    then calls `False` (a crash), a completed call never writes that
    table. */
module TestWellplates {
  import opened Grid
  import opened Experiment
  import opened Automate

  class Wellplate96 {
    const objective: Objective
    const liquidNames: seq<string>
    const measuredNames: seq<string>
    const populationSize: nat
    const measurementFunction: MeasurementSetting
    const wellplateRows: nat
    const wellplateColumns: nat
    const wellplateLocs: seq<int>
    const totalVolume: real
    const blankRowSpace: nat
    const wellplateIndex: seq<string>
    const headers: Headers
    /** The flat row-major views of the four tables. */
    const liquidVolumeTable: array<real>
    const measurementTable: array<real>
    const errorTable: array<real>
    const allDataTable: array<real>
    var iterationCount: nat

    function NumLiquids(): nat { |liquidNames| }
    function NumMeasured(): nat { |measuredNames| }
    function NumPlates(): nat { |wellplateLocs| }

    ghost predicate Valid()
    {
      && wellplateRows > 0 && wellplateColumns > 0 && NumPlates() >= 1 && blankRowSpace == 1
      && liquidVolumeTable.Length == TableRows() * (wellplateColumns * NumLiquids())
      && measurementTable.Length == TableRows() * (wellplateColumns * NumMeasured())
      && errorTable.Length == TableRows() * wellplateColumns
      && allDataTable.Length == NumPlates() * wellplateRows * wellplateColumns * (NumLiquids() + NumMeasured() + 2)
      && liquidVolumeTable != measurementTable && liquidVolumeTable != errorTable
      && liquidVolumeTable != allDataTable && measurementTable != errorTable
      && measurementTable != allDataTable && errorTable != allDataTable
      && ObjectiveKeepsShape(objective) && MeasureKeepsShape(measurementFunction)
    }

    function TableRows(): nat
      requires NumPlates() >= 1
    {
      TotalRows(NumPlates(), wellplateRows, blankRowSpace)
    }

    /** The preflight check of the entry scripts, for iteration `n`. */
    ghost predicate Fits(n: nat)
    {
      (n + 1) * populationSize <= NumPlates() * (wellplateRows * wellplateColumns)
    }

    constructor (objective: Objective, liquidNames: seq<string>, measuredNames: seq<string>,
                 populationSize: nat, measurementFunction: MeasurementSetting,
                 wellplateShape: (nat, nat), wellplateLocs: seq<int>, totalVolume: real)
      requires wellplateShape.0 > 0 && wellplateShape.1 > 0 && |wellplateLocs| >= 1
      requires ObjectiveKeepsShape(objective) && MeasureKeepsShape(measurementFunction)
      ensures Valid() && iterationCount == 0
      ensures this.objective == objective && this.liquidNames == liquidNames
      ensures this.measuredNames == measuredNames && this.populationSize == populationSize
      ensures this.measurementFunction == measurementFunction
      ensures wellplateRows == wellplateShape.0 && wellplateColumns == wellplateShape.1
      ensures this.wellplateLocs == wellplateLocs && this.totalVolume == totalVolume
      ensures blankRowSpace == 1
      ensures |wellplateIndex| == TableRows()
      ensures forall g :: 0 <= g < |wellplateIndex| ==>
        wellplateIndex[g] == LabelOf(g, wellplateRows, blankRowSpace)
      ensures headers == TableHeaders(wellplateColumns, liquidNames, measuredNames)
      ensures fresh(liquidVolumeTable) && fresh(measurementTable) && fresh(errorTable) && fresh(allDataTable)
      ensures AllZero(liquidVolumeTable[..]) && AllZero(measurementTable[..])
      ensures AllZero(errorTable[..]) && AllZero(allDataTable[..])
    {
      this.objective := objective;
      this.liquidNames := liquidNames;
      this.measuredNames := measuredNames;
      this.populationSize := populationSize;
      this.measurementFunction := measurementFunction;
      this.wellplateRows := wellplateShape.0;
      this.wellplateColumns := wellplateShape.1;
      this.wellplateLocs := wellplateLocs;
      this.totalVolume := totalVolume;
      this.blankRowSpace := 1;
      var index, v, m, e, a := InitDataframes(|wellplateLocs|, wellplateShape.0, wellplateShape.1,
                                              |liquidNames|, |measuredNames|, 1);
      this.wellplateIndex := index;
      this.headers := TableHeaders(wellplateShape.1, liquidNames, measuredNames);
      this.liquidVolumeTable, this.measurementTable, this.errorTable, this.allDataTable := v, m, e, a;
      this.iterationCount := 0;
    }

    /** The gapped-table offset of iteration `n`'s window. */
    function Start(n: nat): nat
      requires wellplateRows * wellplateColumns > 0
    {
      StartIndex(n, populationSize, wellplateRows, wellplateColumns, blankRowSpace)
    }

    lemma WindowFits(n: nat, width: nat)
      requires Valid() && Fits(n)
      ensures Start(n) + populationSize <= TableRows() * wellplateColumns
      ensures (Start(n) + populationSize) * width <= TableRows() * (wellplateColumns * width)
    {
      WindowFitsTable(n, populationSize, NumPlates(), wellplateRows, wellplateColumns, blankRowSpace);
      ScaleBound(Start(n) + populationSize, TableRows(), wellplateColumns, width);
    }

    /** What `user_input` reads from the saved measurements file: its
        window of iteration `n`, as a `(population_size, M)` batch. */
    function ManualReading(n: nat, entered: seq<real>): (m: Batch)
      requires Valid() && Fits(n) && |entered| == measurementTable.Length
      ensures IsMatrix(m, populationSize, NumMeasured())
    {
      WindowFits(n, NumMeasured());
      ReadRows(entered, Start(n), populationSize, NumMeasured())
    }

    /** `user_input`: after the operator has filled in the measurements
        file (`entered`, its values in the table's layout), read back the
        current window; well `j`, parameter `k` is cell
        `(start + j)*M + k`. */
    method UserInput(entered: seq<real>) returns (measurements: Batch)
      requires Valid() && Fits(iterationCount) && |entered| == measurementTable.Length
      ensures measurements == ManualReading(iterationCount, entered)
      ensures IsMatrix(measurements, populationSize, NumMeasured())
    {
      measurements := ManualReading(iterationCount, entered);
    }

    lemma ManualReadingAt(n: nat, entered: seq<real>, j: nat, k: nat)
      requires Valid() && Fits(n) && |entered| == measurementTable.Length
      requires j < populationSize && k < NumMeasured()
      ensures (Start(n) + j) * NumMeasured() + k < |entered|
      ensures ManualReading(n, entered)[j][k] == entered[(Start(n) + j) * NumMeasured() + k]
    {
      WindowFits(n, NumMeasured());
      ReadRowsAt(entered, Start(n), populationSize, NumMeasured(), j, k);
    }

    /** The measurements of iteration `n`. */
    function Measurements(n: nat, diluted: Batch, entered: seq<real>): (m: Batch)
      requires Valid() && Fits(n) && measurementFunction != Off
      requires measurementFunction == Manual ==> |entered| == measurementTable.Length
      ensures IsMatrix(m, populationSize, NumMeasured())
    {
      if measurementFunction == Manual then ManualReading(n, entered)
      else measurementFunction.measure(diluted, n, populationSize, NumMeasured())
    }

    /** The four windows of iteration `n` lie inside their tables. */
    lemma StoreFits(n: nat)
      requires Valid() && Fits(n)
      ensures (Start(n) + populationSize) * NumLiquids() <= liquidVolumeTable.Length
      ensures (Start(n) + populationSize) * NumMeasured() <= measurementTable.Length
      ensures Start(n) + populationSize <= errorTable.Length
      ensures (n * populationSize + populationSize) * AllDataWidth() <= allDataTable.Length
    {
      WindowFits(n, NumLiquids());
      WindowFits(n, NumMeasured());
      AllDataFits(n);
    }

    /** The effect of `store_data` for iteration `n`. */
    twostate predicate Stored(n: nat, volumes: Batch, measured: Batch, errors: seq<real>)
      requires Valid() && Fits(n)
      requires IsMatrix(volumes, populationSize, NumLiquids())
      requires IsMatrix(measured, populationSize, NumMeasured()) && |errors| == populationSize
      reads liquidVolumeTable, measurementTable, errorTable, allDataTable
    {
      StoreFits(n);
      AllDataRowsShape(n, volumes, measured, errors, populationSize, NumLiquids(), NumMeasured());
      && liquidVolumeTable[..] ==
           OverwriteRows(old(liquidVolumeTable[..]), Start(n), volumes, populationSize, NumLiquids())
      && errorTable[..] == Overwrite(old(errorTable[..]), Start(n), errors)
      && measurementTable[..] ==
           (if measurementFunction == Off
            then OverwriteRows(old(measurementTable[..]), Start(n), measured, populationSize, NumMeasured())
            else old(measurementTable[..]))
      && allDataTable[..] ==
           OverwriteRows(old(allDataTable[..]), n * populationSize,
                         AllDataRows(n, volumes, measured, errors), populationSize, AllDataWidth())
    }

    function AllDataWidth(): nat { NumLiquids() + NumMeasured() + 2 }

    lemma AllDataFits(n: nat)
      requires Valid() && Fits(n)
      ensures (n * populationSize + populationSize) * AllDataWidth() <= allDataTable.Length
    {
      MulMono((n + 1) * populationSize, NumPlates() * (wellplateRows * wellplateColumns), AllDataWidth());
    }

    /** `store_data`: write the iteration's volumes, errors and (only for
        the setting `False`) measurements into their gapped windows, and its
        rows into `all_data` at rows `[n*pop, (n+1)*pop)`. */
    method StoreData(volumes: Batch, measured: Batch, errors: seq<real>)
      requires Valid() && Fits(iterationCount)
      requires IsMatrix(volumes, populationSize, NumLiquids())
      requires IsMatrix(measured, populationSize, NumMeasured()) && |errors| == populationSize
      modifies liquidVolumeTable, measurementTable, errorTable, allDataTable
      ensures Stored(iterationCount, volumes, measured, errors)
    {
      var n := iterationCount;
      var start := Start(n);
      WindowFits(n, NumLiquids());
      WindowFits(n, NumMeasured());
      AllDataFits(n);
      WriteRows(liquidVolumeTable, start, volumes, populationSize, NumLiquids());
      WriteSlice(errorTable, start, errors);
      if measurementFunction == Off {
        WriteRows(measurementTable, start, measured, populationSize, NumMeasured());
      }
      var rowsOfIteration := AllDataRows(n, volumes, measured, errors);
      AllDataRowsShape(n, volumes, measured, errors, populationSize, NumLiquids(), NumMeasured());
      WriteRows(allDataTable, n * populationSize, rowsOfIteration, populationSize, AllDataWidth());
    }

    /** `__call__`: one iteration of the loop, without dispensing (the
        script generation is commented out in this copy). */
    method Call(liquidVolumes: Batch, entered: seq<real>) returns (errors: seq<real>)
      requires Valid() && Fits(iterationCount) && NumLiquids() >= 1
      requires IsMatrix(liquidVolumes, populationSize, NumLiquids() - 1)
      requires measurementFunction != Off
      requires measurementFunction == Manual ==> |entered| == measurementTable.Length
      modifies this, liquidVolumeTable, measurementTable, errorTable, allDataTable
      ensures iterationCount == old(iterationCount) + 1
      ensures var diluted := Dilute(liquidVolumes, totalVolume);
              var measured := Measurements(old(iterationCount), diluted, entered);
              && errors == objective(measured)
              && Stored(old(iterationCount), diluted, measured, errors)
      ensures measurementTable[..] == old(measurementTable[..])
    {
      var diluted := Dilute(liquidVolumes, totalVolume);
      DiluteShape(liquidVolumes, populationSize, NumLiquids() - 1, totalVolume);
      var measured;
      if measurementFunction == Manual {
        measured := UserInput(entered);
      } else {
        measured := measurementFunction.measure(diluted, iterationCount, populationSize, NumMeasured());
      }
      errors := objective(measured);
      StoreData(diluted, measured, errors);
      iterationCount := iterationCount + 1;
    }
  }
}
