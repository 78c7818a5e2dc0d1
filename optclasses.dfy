/** application/opt_classes.py: the squared-distance scorer `auto_input`
    and the prototype `wellplate96` that the particle swarm drives, with the
    scorer it is instantiated with. */
module OptClasses {
  import opened Grid
  import opened Experiment

  /** The target colour of `auto_input`. */
  const IDEAL: seq<real> := [40.0, 60.0, 20.0]

  function Sq(d: real): real { d * d }

  /** `sum_k (row[k] - ideal[k])**2`. */
  function SquaredDistance(row: seq<real>, ideal: seq<real>): real
    requires |row| == |ideal|
  {
    if row == [] then 0.0
    else Sq(row[0] - ideal[0]) + SquaredDistance(row[1..], ideal[1..])
  }

  lemma ProductPositive(a: real, b: real, s: real)
    requires a > 0.0 && b > 0.0 && s == a * b
    ensures s > 0.0
  {
  }

  lemma SqPositive(d: real)
    requires d != 0.0
    ensures Sq(d) > 0.0
  {
    var s := Sq(d);
    assert s == d * d;
    if d > 0.0 {
      ProductPositive(d, d, s);
    } else {
      assert s == (-d) * (-d);
      ProductPositive(-d, -d, s);
    }
  }

  /** A squared distance is never negative. */
  lemma {:induction false} SquaredDistanceNonNegative(row: seq<real>, ideal: seq<real>)
    requires |row| == |ideal|
    ensures SquaredDistance(row, ideal) >= 0.0
  {
    if row != [] {
      SquaredDistanceNonNegative(row[1..], ideal[1..]);
      if row[0] != ideal[0] {
        SqPositive(row[0] - ideal[0]);
      }
    }
  }

  /** The score is zero exactly at the ideal. */
  lemma {:induction false} SquaredDistanceZeroIff(row: seq<real>, ideal: seq<real>)
    requires |row| == |ideal|
    ensures SquaredDistance(row, ideal) == 0.0 <==> row == ideal
  {
    if row != [] {
      SquaredDistanceNonNegative(row[1..], ideal[1..]);
      SquaredDistanceZeroIff(row[1..], ideal[1..]);
      if row[0] != ideal[0] {
        SqPositive(row[0] - ideal[0]);
      } else {
        assert row == [row[0]] + row[1..] && ideal == [ideal[0]] + ideal[1..];
      }
    }
  }

  /** `((params - ideal)**2).sum(axis=1)`. */
  function Scores(params: Batch): (values: seq<real>)
    requires IsMatrix(params, |params|, |IDEAL|)
    ensures |values| == |params|
    ensures forall i :: 0 <= i < |params| ==> values[i] >= 0.0
    ensures forall i :: 0 <= i < |params| ==> (values[i] == 0.0 <==> params[i] == IDEAL)
  {
    var values := seq(|params|, i requires 0 <= i < |params| => SquaredDistance(params[i], IDEAL));
    forall i | 0 <= i < |params| ensures values[i] >= 0.0 && (values[i] == 0.0 <==> params[i] == IDEAL) {
      SquaredDistanceNonNegative(params[i], IDEAL);
      SquaredDistanceZeroIff(params[i], IDEAL);
    }
    values
  }

  /** `auto_input(params, df, iter_c)`: score the batch and write the
      scores into cells `[iter_c*iter_s, iter_c*iter_s + iter_s)` of the
      96-cell input table. */
  method AutoInput(params: Batch, df: array<real>, iterC: nat) returns (values: seq<real>)
    requires IsMatrix(params, |params|, |IDEAL|) && df.Length == 96
    requires iterC * |params| + |params| <= 96
    modifies df
    ensures values == Scores(params)
    ensures df[..] == Overwrite(old(df[..]), iterC * |params|, values)
  {
    var iterS := |params|;
    var startIndex := iterC * iterS;
    values := Scores(params);
    WriteSlice(df, startIndex, values);
  }

  /** The prototype plate, driven with batches of `iter_size` rows. */
  class Wellplate96 {
    const iterSize: nat
    const liquidNames: seq<string>
    const numLiquids: nat
    const outputColumns: seq<(nat, string)>
    const output: array<real>
    const input: array<real>
    var iterationCount: nat

    ghost predicate Valid()
    {
      numLiquids == |liquidNames| && output.Length == 96 * numLiquids && input.Length == 96 && output != input
    }

    constructor (iterSize: nat, liquidNames: seq<string>)
      ensures Valid() && iterationCount == 0
      ensures this.iterSize == iterSize && this.liquidNames == liquidNames
      ensures outputColumns == ProductColumns(12, liquidNames)
      ensures fresh(output) && fresh(input) && AllZero(output[..]) && AllZero(input[..])
    {
      this.iterSize := iterSize;
      this.liquidNames := liquidNames;
      this.numLiquids := |liquidNames|;
      this.outputColumns := ProductColumns(12, liquidNames);
      var out := Zeros(8 * (12 * |liquidNames|));
      var inp := Zeros(8 * 12);
      this.output, this.input := out, inp;
      this.iterationCount := 0;
    }

    /** `__call__` with `auto_input` as the callback: the batch goes to
        output cells `[n*iter_size*L, (n+1)*iter_size*L)` (the reshape to
        `12*L` only fits batches of 12), the scores to the input table, and
        the counter advances. */
    method Call(params: Batch) returns (values: seq<real>)
      requires Valid() && iterSize == 12 && numLiquids == |IDEAL|
      requires IsMatrix(params, iterSize, numLiquids) && (iterationCount + 1) * iterSize <= 96
      modifies this, output, input
      ensures (old(iterationCount) * iterSize + iterSize) * numLiquids <= output.Length
      ensures output[..] == OverwriteRows(old(output[..]), old(iterationCount) * iterSize, params, iterSize, numLiquids)
      ensures values == Scores(params)
      ensures input[..] == Overwrite(old(input[..]), old(iterationCount) * iterSize, values)
      ensures iterationCount == old(iterationCount) + 1
    {
      var startIndex := iterationCount * iterSize;
      MulMono((iterationCount + 1) * iterSize, 96, numLiquids);
      WriteRows(output, startIndex, params, iterSize, numLiquids);
      values := AutoInput(params, input, iterationCount);
      iterationCount := iterationCount + 1;
    }
  }
}
