/** tests/simulate_ot2_script.py: a stand-alone protocol that loads (or
    finds) its labware and dispenses a fixed batch of 12 four-liquid
    recipes for iteration 7, with the same addressing and tip schedule as
    `liquid_handling` of optobot/automate.py. */
module SimulateScript {
  import opened Wrappers
  import opened Grid
  import opened Labware
  import opened Experiment
  import opened Automate

  const ITERATION_COUNT: nat := 7
  const WELLS_PER_ITERATION: nat := 5
  const VOLUMES: Batch := [
    [42.06915343, 13.78170516, 19.8832555, 14.26588591],
    [42.38639251, 12.71361819, 19.40800151, 15.4919878],
    [43.02024142, 13.79028736, 18.16751135, 15.02195987],
    [43.1372641, 14.09678473, 17.9605694, 14.80538178],
    [39.87355839, 14.85761571, 21.02817419, 14.24065171],
    [39.11736333, 14.91140276, 20.03915163, 15.93208228],
    [41.82741893, 13.15822384, 16.97759113, 18.0367661],
    [41.91896306, 12.86883258, 20.48199618, 14.73020818],
    [36.30103228, 13.51878303, 20.67507416, 19.50511053],
    [39.60528924, 13.6106463, 20.65727101, 16.12679345],
    [39.70719977, 13.55525648, 20.91061567, 15.82692807],
    [38.27164116, 14.86675287, 21.06043097, 15.801175]]
  /** The deck slots of the two plates. */
  const WELL_LOCS: seq<nat> := [8, 5]
  const PLATE_LOAD_NAME: string := "nest_96_wellplate_100ul_pcr_full_skirt"

  /** A piece of labware: loaded by the protocol under a load name into a
      slot, or taken as it already sits on the deck. */
  datatype DeckItem = Loaded(loadName: string, slot: nat) | OnDeck(slot: nat)

  /** The plate table `plates`: `plate_{k}` is entry `k - 1`. */
  function ExpectedPlates(wellLocs: seq<nat>, deckEmpty: bool): (plates: seq<DeckItem>)
    ensures |plates| == |wellLocs|
    ensures forall i :: 0 <= i < |wellLocs| ==> plates[i].slot == wellLocs[i]
    ensures forall i :: 0 <= i < |wellLocs| ==> (plates[i].Loaded? <==> deckEmpty)
  {
    if deckEmpty then seq(|wellLocs|, i requires 0 <= i < |wellLocs| => Loaded(PLATE_LOAD_NAME, wellLocs[i]))
    else seq(|wellLocs|, i requires 0 <= i < |wellLocs| => OnDeck(wellLocs[i]))
  }

  /** The set-up branch: on an empty deck (slot 1 unused) the tip rack,
      the reservoir and one plate per listed slot are loaded, the plates by
      the `enumerate` loop; otherwise the labware already in slots 1, 2 and
      the listed slots is taken. */
  method SetUp(wellLocs: seq<nat>, deckEmpty: bool) returns (tips: DeckItem, reservoir: DeckItem, plates: seq<DeckItem>)
    ensures deckEmpty ==> tips == Loaded("opentrons_96_tiprack_1000ul", 1) &&
                          reservoir == Loaded("nest_12_reservoir_15ml", 2)
    ensures !deckEmpty ==> tips == OnDeck(1) && reservoir == OnDeck(2)
    ensures plates == ExpectedPlates(wellLocs, deckEmpty)
  {
    if deckEmpty {
      tips := Loaded("opentrons_96_tiprack_1000ul", 1);
      reservoir := Loaded("nest_12_reservoir_15ml", 2);
      plates := [];
      var idx := 0;
      while idx < |wellLocs|
        invariant 0 <= idx <= |wellLocs| && |plates| == idx
        invariant forall i :: 0 <= i < idx ==> plates[i] == Loaded(PLATE_LOAD_NAME, wellLocs[i])
      {
        plates := plates + [Loaded(PLATE_LOAD_NAME, wellLocs[idx])];
        idx := idx + 1;
      }
    } else {
      tips := OnDeck(1);
      reservoir := OnDeck(2);
      plates := seq(|wellLocs|, i requires 0 <= i < |wellLocs| => OnDeck(wellLocs[i]));
    }
  }

  lemma VolumesShape()
    ensures IsMatrix(VOLUMES, 12, 4)
  {
  }

  /** `run`: set up, pick `plate_{start_index // 96 + 1}` and dispense the
      batch liquid by liquid with the loop of `liquid_handling`. */
  method Run(deckEmpty: bool) returns (plateKey: nat, log: seq<Command>)
    ensures plateKey == 1 && plateKey <= |ExpectedPlates(WELL_LOCS, deckEmpty)|
    ensures log == HandlingPlan(VOLUMES, 4, 0, 7, 4)
  {
    var tips, reservoir, plates := SetUp(WELL_LOCS, deckEmpty);
    VolumesShape();
    var startIndex := ITERATION_COUNT * WELLS_PER_ITERATION;
    var plateIndex := startIndex / 96;
    plateKey := plateIndex + 1;
    var wellCount := ITERATION_COUNT - plateIndex * 8;
    log := Dispense(VOLUMES, 4, plateIndex, wellCount);
  }

  /** The twelve recipes land in `wells()[7], [15], ..., [95]` of the first
      plate: row H, one per column, all distinct; the start index 35 from
      five wells per iteration plays no part in the addressing. */
  lemma SimulatedWells(j: nat)
    requires j < 12
    ensures HandlingPlate(ITERATION_COUNT, WELLS_PER_ITERATION) == 0
    ensures WellCount(ITERATION_COUNT, WELLS_PER_ITERATION) == 7
    ensures var idx := j * PLATE_ROWS + 7;
            0 <= idx < PLATE_WELLS && WellRow(idx) == 7 && WellColumn(idx) == j
  {
    DivModOf(j * PLATE_ROWS + 7, PLATE_ROWS, j, 7);
  }

  /** Every transfer of the run goes to a distinct well of row H of the
      first plate, and the robot accepts the whole run. */
  lemma SimulatedRunIsSafe(l: nat, t: nat)
    requires l < 4 && 1 <= t <= 12
    ensures var c := HandlingPlan(VOLUMES, 4, 0, 7, 4)[l * 14 + t];
            c.Transfer? && c.source == l + 1 && c.target == WellAt(0, (t - 1) * 8 + 7) &&
            (c.mix.Some? <==> l == 3)
    ensures TipState(HandlingPlan(VOLUMES, 4, 0, 7, 4), false) == Some(false)
  {
    VolumesShape();
    HandlingPlanAt(VOLUMES, 4, 0, 7, 4, l, t);
    HandlingPlanTipSafe(VOLUMES, 4, 0, 7, 4);
  }
}
