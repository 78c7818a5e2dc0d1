/** The prototype `wellplate96` of application/wellplate_classes.py: a
    single 8 x 12 plate whose output table (volumes) and input table
    (measured values) are written through their flat views, with the
    manual path waiting on the console for the word `yes`. */
module WellplateClasses {
  import opened Wrappers
  import opened Grid
  import opened Experiment

  /** The `function` argument (`measurer` here): the string `'Manual'` or a callable that
      turns the batch into one value per well. */
  datatype Measurer = ManualEntry | Compute(f: Batch -> seq<real>)

  /** The `while inp != 'yes'` loop over the console replies: the number of
      replies read when the first `yes` arrives, or `None` when the input
      runs out first (`input()` then raises). */
  method AwaitConfirmation(replies: seq<string>) returns (consumed: Option<nat>)
    ensures consumed.Some? <==> "yes" in replies
    ensures consumed.Some? ==>
      && 1 <= consumed.value <= |replies| && replies[consumed.value - 1] == "yes"
      && forall i :: 0 <= i < consumed.value - 1 ==> replies[i] != "yes"
  {
    if |replies| == 0 {
      return None;
    }
    var inp := replies[0];
    var read := 1;
    while inp != "yes"
      invariant 1 <= read <= |replies| && inp == replies[read - 1]
      invariant forall i :: 0 <= i < read - 1 ==> replies[i] != "yes"
      decreases |replies| - read
    {
      if read == |replies| {
        return None;
      }
      inp := replies[read];
      read := read + 1;
    }
    return Some(read);
  }

  /** `user_input(params, df, iter_c)`: once the operator has confirmed,
      the window `[iter_c*iter_s, iter_c*iter_s + iter_s)` of the 96 cells
      of the edited file `entered`, with `iter_s` the batch's row count and
      Python's clipping of a slice that runs past the end. */
  method UserInput(params: Batch, iterC: nat, entered: seq<real>, replies: seq<string>)
    returns (values: Option<seq<real>>)
    requires |entered| == 96
    ensures values.Some? <==> "yes" in replies
    ensures values.Some? ==> values.value == PySlice(entered, iterC * |params|, iterC * |params| + |params|)
    ensures values.Some? && (iterC + 1) * |params| <= 96 ==>
      |values.value| == |params| &&
      forall i :: 0 <= i < |params| ==> values.value[i] == entered[iterC * |params| + i]
  {
    var iterS := |params|;
    var startIndex := iterC * iterS;
    var confirmed := AwaitConfirmation(replies);
    if confirmed == None {
      return None;
    }
    values := Some(PySlice(entered, startIndex, startIndex + iterS));
  }

  class Wellplate96 {
    const measurer: Measurer
    const manualInput: bool
    const iterSize: nat
    const liquidNames: seq<string>
    const numLiquids: nat
    const outputColumns: seq<(nat, string)>
    /** Flat views of the 8 x `12*L` output and the 8 x 12 input tables. */
    const output: array<real>
    const input: array<real>
    var iterationCount: nat

    ghost predicate Valid()
    {
      && numLiquids == |liquidNames| && (manualInput <==> measurer == ManualEntry)
      && output.Length == 96 * numLiquids && input.Length == 96 && output != input
      && (measurer.Compute? ==> forall b :: |measurer.f(b)| == |b|)
    }

    constructor (measurer: Measurer, iterSize: nat, liquidNames: seq<string>)
      requires measurer.Compute? ==> forall b :: |measurer.f(b)| == |b|
      ensures Valid() && iterationCount == 0
      ensures this.measurer == measurer && this.iterSize == iterSize && this.liquidNames == liquidNames
      ensures manualInput <==> measurer == ManualEntry
      ensures outputColumns == ProductColumns(12, liquidNames)
      ensures fresh(output) && fresh(input) && AllZero(output[..]) && AllZero(input[..])
    {
      this.measurer := measurer;
      this.iterSize := iterSize;
      this.liquidNames := liquidNames;
      this.numLiquids := |liquidNames|;
      this.outputColumns := ProductColumns(12, liquidNames);
      var out := Zeros(8 * (12 * |liquidNames|));
      var inp := Zeros(8 * 12);
      this.output, this.input := out, inp;
      this.manualInput := measurer == ManualEntry;
      this.iterationCount := 0;
    }

    /** `__call__`: record the batch in the output table, then obtain the
        values, manually (input table untouched) or from the callable
        (written to the input table); the counter advances once the values
        are in. */
    method Call(params: Batch, entered: seq<real>, replies: seq<string>) returns (values: Option<seq<real>>)
      requires Valid() && IsMatrix(params, iterSize, numLiquids)
      requires (iterationCount + 1) * iterSize <= 96
      requires manualInput ==> |entered| == 96
      modifies this, output, input
      ensures (old(iterationCount) * iterSize + iterSize) * numLiquids <= output.Length
      ensures output[..] == OverwriteRows(old(output[..]), old(iterationCount) * iterSize, params, iterSize, numLiquids)
      ensures manualInput ==>
        && input[..] == old(input[..])
        && (values.Some? <==> "yes" in replies)
        && (values.Some? ==> values.value == entered[old(iterationCount) * iterSize..(old(iterationCount) + 1) * iterSize])
        && iterationCount == old(iterationCount) + (if values.Some? then 1 else 0)
      ensures !manualInput ==>
        && values == Some(measurer.f(params))
        && input[..] == Overwrite(old(input[..]), old(iterationCount) * iterSize, measurer.f(params))
        && iterationCount == old(iterationCount) + 1
    {
      var startIndex := iterationCount * iterSize;
      MulMono((iterationCount + 1) * iterSize, 96, numLiquids);
      WriteRows(output, startIndex, params, iterSize, numLiquids);
      if manualInput {
        values := UserInput(params, iterationCount, entered, replies);
        if values == None {
          return;
        }
      } else {
        var computed := measurer.f(params);
        values := Some(computed);
        WriteSlice(input, startIndex, computed);
      }
      iterationCount := iterationCount + 1;
    }
  }
}
