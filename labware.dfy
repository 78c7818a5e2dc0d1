/** The robot's side of the model: the command log a protocol issues to the
    pipette, and how a 96-well plate's Opentrons labware lists its wells.
    `plate.wells()` lists the wells column by column (A1, B1, ..., H1, A2,
    ...), while `plate.rows()[r][c]` is row `r`, column `c`. */
module Labware {
  import opened Wrappers
  import opened Grid

  const PLATE_ROWS: nat := 8
  const PLATE_COLUMNS: nat := 12
  const PLATE_WELLS: nat := 96

  /** `mix_after=(repetitions, volume)`. */
  datatype Mix = Mix(repetitions: nat, volume: real)

  /** `new_tip="never"` keeps the tip already held; the API default
      (`"once"`) lets the transfer fetch and drop its own tip. */
  datatype TipPolicy = Never | Once

  /** Where a transfer goes: `plates["plate_{plate+1}"].wells()[index]`, or
      `rows()[row][col]` of the single plate a protocol loads. Indices are
      kept as the program computes them, before the labware resolves them. */
  datatype Target = WellAt(plate: nat, index: int) | RowCol(row: int, col: int)

  /** One pipette command; `source` is the reservoir column `n` of
      `reservoir["A{n}"]`. */
  datatype Command =
    | PickUpTip
    | DropTip
    | Transfer(volume: real, source: nat, target: Target, mix: Option<Mix>, newTip: TipPolicy)

  /** Row and column of entry `index` of `wells()` on an 8-row plate. */
  function WellRow(index: nat): nat { index % PLATE_ROWS }
  function WellColumn(index: nat): nat { index / PLATE_ROWS }

  /** The `wells()` position of row `row`, column `col`. */
  function WellsIndex(row: nat, col: nat): (index: nat)
    requires row < PLATE_ROWS
    ensures WellRow(index) == row && WellColumn(index) == col
  {
    DivModOf(col * PLATE_ROWS + row, PLATE_ROWS, col, row);
    col * PLATE_ROWS + row
  }

  /** Every entry of `wells()` is reached from exactly one (row, column). */
  lemma WellsIndexRoundTrip(index: nat)
    requires index < PLATE_WELLS
    ensures WellColumn(index) < PLATE_COLUMNS
    ensures WellsIndex(WellRow(index), WellColumn(index)) == index
  {
  }

  /** The pipette's tip state after one command, or `None` when the robot
      refuses it: picking up a tip while one is attached, dropping without
      one, a `new_tip="never"` transfer without a tip, or a `new_tip="once"`
      transfer (which fetches and bins its own tip) while one is attached. */
  function Step(cmd: Command, held: bool): Option<bool>
  {
    match cmd
    case PickUpTip => if held then None else Some(true)
    case DropTip => if held then Some(false) else None
    case Transfer(_, _, _, _, newTip) =>
      if newTip == Never then (if held then Some(true) else None)
      else (if held then None else Some(false))
  }

  /** The tip state after a whole log, or `None` if some command is refused. */
  function TipState(log: seq<Command>, held: bool): Option<bool>
  {
    if |log| == 0 then Some(held)
    else match Step(log[0], held)
      case None => None
      case Some(h) => TipState(log[1..], h)
  }

  /** Running two logs in turn. */
  lemma {:induction false} TipStateAppend(a: seq<Command>, b: seq<Command>, held: bool)
    ensures TipState(a + b, held) ==
      match TipState(a, held) case None => None case Some(h) => TipState(b, h)
  {
    if a == [] {
      assert a + b == b;
    } else {
      assert (a + b)[0] == a[0] && (a + b)[1..] == a[1..] + b;
      match Step(a[0], held)
      case None =>
      case Some(h) => TipStateAppend(a[1..], b, h);
    }
  }

  /** `new_tip="never"` transfers keep the attached tip. */
  lemma {:induction false} NeverTransfersKeepTip(log: seq<Command>)
    requires forall k :: 0 <= k < |log| ==> log[k].Transfer? && log[k].newTip == Never
    ensures TipState(log, true) == Some(true)
  {
    if log != [] {
      NeverTransfersKeepTip(log[1..]);
    }
  }

  /** `new_tip="once"` transfers need no tip attached and leave none. */
  lemma {:induction false} OnceTransfersNeedNoTip(log: seq<Command>)
    requires forall k :: 0 <= k < |log| ==> log[k].Transfer? && log[k].newTip == Once
    ensures TipState(log, false) == Some(false)
  {
    if log != [] {
      OnceTransfersNeedNoTip(log[1..]);
    }
  }

  /** One tip for a run of shared-tip transfers: the pass leaves no tip. */
  lemma TipPassIsSafe(transfers: seq<Command>)
    requires forall k :: 0 <= k < |transfers| ==> transfers[k].Transfer? && transfers[k].newTip == Never
    ensures TipState([PickUpTip] + transfers + [DropTip], false) == Some(false)
  {
    NeverTransfersKeepTip(transfers);
    TipStateAppend([PickUpTip], transfers + [DropTip], false);
    assert [PickUpTip] + transfers + [DropTip] == [PickUpTip] + (transfers + [DropTip]);
    TipStateAppend(transfers, [DropTip], true);
  }
}
