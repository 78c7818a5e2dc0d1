# OT2 closed-loop optimiser: bookkeeping and well addressing

This project models the core of an Opentrons OT-2 closed-loop optimiser in
Dafny. An optimiser proposes a batch of liquid recipes, one row per well.
The orchestrator (`OptimisationLoop` in optobot/automate.py):

- dilutes each recipe with water up to the total volume;
- dispenses the batch into a 96-well plate as a log of pipette commands;
- obtains one measurement row per well (typed in by the operator or computed);
- scores the measurements with the objective;
- records volumes, measurements and errors in plate-shaped tables with a blank row between plates, plus a flat `all_data` table;
- advances its iteration counter.

Modules:

- **Grid**: the flattened, row-major numpy views through which every table is written. These are `reshape`, `flatten`, slice assignment and Python slice clipping, with their round trips.
- **Labware**: the plate geometry, the column-major `wells()` order, the command log and the pipette's tip state. The tip state is the robot's rule for which pick-ups, drops and transfers it accepts.
- **Experiment**: what the orchestrator and its earlier copy share:
  - dilution;
  - the gapped-table row labels and offsets;
  - the table headers;
  - the `all_data` rows.
- **Automate**: `OptimisationLoop` as a class over four flat tables and a counter. It proves:
  - the store/read round trip;
  - the plan `liquid_handling` emits;
  - the main correspondence: with the default batch of 12, the well a recipe is dispensed into is the table cell where it is recorded.
- **TestWellplates**: the earlier copy in application/test/test_wellplates.py.
- **WellplateClasses**, **OptClasses**: the two prototype single-plate `wellplate96` classes, with the `yes` confirmation loop and the squared-distance scorer.
- **ScriptGenerator**: the f-string template of `generate_script`, and the program it emits.
- **SimulateScript**: the stand-alone protocol in tests/simulate_ot2_script.py.
- **OpentronsScript**: application/opentrons_script.py.

Modelling choices:

- Tables are `array<real>` fields holding the flat view numpy writes through.
- The robot is an emitted `seq<Command>` log.
- The contents of a file the operator edits are a parameter (`entered`), and console replies are a `seq<string>`.
- A crash in the source (a numpy shape error, a missing dictionary key, calling `False`) is a precondition. The error paths the source itself handles are modelled: running out of console input, a slice past the end, an unknown optimiser name, a cell outside the plate.

Two places where the code does something other than its comments and sibling files suggest; the model follows the code:

- `liquid_handling` addresses wells with the hard-coded factor 8. It agrees with the tables only for batches of 12 (`Automate.OtherBatchSizesMisaddress`).
- test_wellplates.py guards the measurement store with `== False`.

## Model

| member | source | states |
|---|---|---|
| Grid.Reshape | optobot/automate.py:281-283 | `reshape(h, w)` of `h*w` values is an `h x w` matrix |
| Grid.Overwrite | optobot/automate.py:230 | slice assignment keeps the length of the flat view, puts the data at `[start, start + len)` and leaves every other entry unchanged |
| Grid.OverwriteRows | optobot/automate.py:224-226 | writing a flattened row block keeps the length of the view |
| Grid.PySlice | application/wellplate_classes.py:60 | a Python slice is clipped to the sequence: its length is `min(end, n) - start` when the start is inside, 0 otherwise |
| Grid.FlattenLength | optobot/automate.py:226 | `flatten()` of an `h x w` batch has `h*w` entries |
| Grid.FlattenAt | optobot/automate.py:226 | entry `j*w + k` of the flattened batch is cell `[j][k]` |
| Grid.ReshapeAt | optobot/automate.py:281-283 | cell `[j][k]` of the reshaped window is entry `j*w + k` |
| Grid.ReshapeIsMatrix | optobot/automate.py:281-283 | the reshaped window has `h` rows of width `w` |
| Grid.ReshapeRowWidth | optobot/automate.py:281-283 | every row of the reshaped window has width `w` |
| Grid.ReshapeFlatten | optobot/automate.py:281-283 | reshaping a flattened matrix gives back the matrix |
| Grid.FlattenReshape | optobot/automate.py:281-283 | flattening a reshaped window gives back the window |
| Grid.ReadRows | optobot/automate.py:276-283 | reading `h` rows of width `w` from a flat view gives an `h x w` matrix |
| Grid.ReadRowsAt | optobot/automate.py:276-283 | cell `[j][k]` read is flat entry `(row + j)*w + k` |
| Grid.ReadOverwriteRows | optobot/automate.py:224-226 | reading back a row block just written gives the block |
| Grid.OverwriteRowsAt | optobot/automate.py:224-226 | after the write, flat entry `(row + j)*w + k` holds cell `[j][k]` |
| Grid.OverwriteRowsOutside | optobot/automate.py:224-226 | entries outside the written block are unchanged |
| Grid.ReadRowsBeforeOverwrite | optobot/automate.py:224-226 | rows that end before a slice write read back as they were |
| Grid.ReadRowsBeforeOverwriteRows | optobot/automate.py:224-226 | rows that end before a row-block write read back as they were |
| Grid.WriteSlice | optobot/automate.py:230 | in-place slice assignment on the array: new contents are the overwritten old contents |
| Grid.WriteRows | optobot/automate.py:224-226 | in-place row-block write: new contents are `OverwriteRows` of the old |
| Grid.Zeros | optobot/automate.py:174 | a fresh array of the given length, all zeros |
| Labware.WellsIndex | optobot/automate.py:318-321 | `wells()` is column-major: the index of row `r`, column `c` lies in row `r` and column `c` |
| Labware.WellsIndexRoundTrip | optobot/automate.py:318-321 | every one of the 96 `wells()` indices is in a column below 12 and is the index of its own row and column |
| Labware.TipStateAppend | optobot/automate.py:311-334 | the tip state after two logs run in turn is the second run from the state the first leaves |
| Labware.NeverTransfersKeepTip | optobot/automate.py:329 | `new_tip="never"` transfers keep an attached tip and are all accepted |
| Labware.OnceTransfersNeedNoTip | application/opentrons_script.py:47-50 | default (`once`) transfers need no tip attached and leave none |
| Labware.TipPassIsSafe | optobot/automate.py:313-334 | pick-up, shared-tip transfers, drop: accepted, and no tip left |
| Experiment.DiluteRow | optobot/automate.py:93-95 | water is prepended, the recipe is unchanged after it, the row sums to the total volume, and the water is negative exactly when the recipe exceeds the total |
| Experiment.Dilute | optobot/automate.py:93-95 | the batch keeps its row count; each row is diluted |
| Experiment.DiluteShape | optobot/automate.py:93-95 | a `pop x L` batch becomes `pop x (L+1)`; every diluted row sums to the total volume and keeps its liquids |
| Experiment.DecodeRowOf | optobot/automate.py:167-169 | row `r` of plate `p` sits at gapped row `p*(R + blank) + r` and decodes back to `(p, r)` |
| Experiment.PlateLabels | optobot/automate.py:143-145 | one plate's labels are the letters `A`, `B`, ... (mod 26), one per row |
| Experiment.Blanks | optobot/automate.py:148 | the spacer is `blank` empty labels |
| Experiment.IndexPrefixFull | optobot/automate.py:140-150 | after `m` non-final passes the index has `m*(R + blank)` labels, each the layout's label for its row |
| Experiment.WellplateIndexLayout | optobot/automate.py:139-150 | the finished index has `TotalRows` labels: letters on plate rows, empty labels on the spacer rows |
| Experiment.ProductColumns | optobot/automate.py:153-158 | the product header has `C*|names|` entries |
| Experiment.ProductColumnAt | optobot/automate.py:153-158 | flat column `c*|names| + l` is `(c+1, names[l])` |
| Experiment.ErrorColumns | optobot/automate.py:159 | the error header is `1..C` |
| Experiment.AllDataColumns | optobot/automate.py:160-165 | `iteration_number`, then `vol_<liquid>` per liquid, then the measured names, then `error` |
| Experiment.WindowsInOrder | optobot/automate.py:210-226 | a later iteration's window starts at or after the end of every earlier one, in the gapped tables and in `all_data` |
| Experiment.LaterWindowKeepsRows | optobot/automate.py:210-226 | a row-block store at a later iteration's window leaves every earlier window's rows of a gapped table as they were |
| Experiment.LaterWindowKeepsRowsIf | optobot/automate.py:232-239 | the same when the store happens only under a condition, as the measurement store skipped for manual measurement |
| Experiment.LaterWindowKeepsCells | optobot/automate.py:210-230 | the same for the one-value-per-well error table |
| Experiment.LaterBatchKeepsRows | optobot/automate.py:245-249 | a store of a later batch of `all_data` leaves the rows of every earlier batch as they were |
| Experiment.WindowFitsTable | optobot/automate.py:210-221 | under the preflight check the current plate exists and the gapped window ends inside the table |
| Experiment.WindowCell | optobot/automate.py:210-221 | within one plate, window well `j` lands on a plate row (never a blank row) of the current plate, at column `(n*pop + j) % C` |
| Experiment.AlignedWindow | optobot/automate.py:216 | when the batch size divides the plate size, every window stays inside one plate |
| Experiment.CrossingWindowHitsBlankRow | optobot/automate.py:216-220 | a window that crosses a plate boundary (batches of 10, iteration 9) writes into the blank spacer row |
| Experiment.AllDataRow | optobot/automate.py:243-246 | an `all_data` row is `[n+1, volumes, measurements, error]`, in that order |
| Experiment.AllDataRows | optobot/automate.py:243-246 | one `all_data` row per well of the batch |
| Experiment.AllDataRowsShape | optobot/automate.py:243-246 | the block is `pop x (L + M + 2)` |
| Automate.LiquidTransfers | optobot/automate.py:316-331 | one transfer per well of the batch |
| Automate.LiquidPass | optobot/automate.py:313-334 | a liquid pass is the well count plus two commands |
| Automate.HandlingPlanAt | optobot/automate.py:311-334 | command `l*(pop+2) + t`: pick-up at `t = 0`, drop at `t = pop+1`; otherwise transfer of liquid `l` into well `t-1` at `wells()[(t-1)*8 + well_count]` from `A{l+1}`, mixing only on the last liquid |
| Automate.HandlingPlanLength | optobot/automate.py:311-334 | the plan has `L*(pop+2)` commands |
| Automate.HandlingPlanTipSafe | optobot/automate.py:313-334 | the robot accepts the whole plan and ends without a tip |
| Automate.Dispense | optobot/automate.py:311-334 | the nested loop emits exactly the plan |
| Automate.DefaultBatchWell | optobot/automate.py:304-321 | with 12 wells per batch, well `j` of iteration `n` goes to plate `n/8`, `wells()[j*8 + n%8]`: row `n%8`, column `j`, inside the plate |
| Automate.DefaultBatchInjective | optobot/automate.py:318-321 | with 12 wells per batch, distinct (iteration, well) pairs on one plate get distinct wells |
| Automate.OtherBatchSizesMisaddress | optobot/automate.py:304-319 | with batches of 5 the wells addressed are not the recorded ones, and with batches of 24 the index goes negative |
| Automate.DispensedWellIsRecordedWell | optobot/automate.py:304-321 | with 12 wells per batch on 8 x 12 plates, the plate, row and column dispensed are the plate, row and column of the table cell recording the well |
| Automate.SelectBackend | optobot/automate.py:286-292 | `PSO`, `GP` and `RF` each select their back-end, in both directions; any other name selects none |
| Automate.BuildWellplateIndex | optobot/automate.py:139-150 | the labelling loop yields `TotalRows` labels, each the layout's label for its row |
| Automate.TableHeaders | optobot/automate.py:153-165 | the four headers have `C*L`, `C*M`, `C` and `L+M+2` entries |
| Automate.InitDataframes | optobot/automate.py:129-203 | four fresh, distinct, zero-filled tables of sizes `TotalRows x C*L`, `TotalRows x C*M`, `TotalRows x C`, `P*R*C x (L+M+2)`, and the row index |
| Automate.OptimisationLoop.constructor | optobot/automate.py:47-88 | the settings are kept, the counter is 0, and the tables and index are those `init_dataframes` builds |
| Automate.OptimisationLoop.WindowFits | optobot/automate.py:217-225 | under the preflight check the window of any width ends inside its table |
| Automate.OptimisationLoop.ManualReading | optobot/automate.py:276-283 | the manual reading is a `pop x M` batch |
| Automate.OptimisationLoop.UserInput | optobot/automate.py:252-284 | `user_input` returns the current window of the edited file as a `pop x M` batch |
| Automate.OptimisationLoop.ManualReadingAt | optobot/automate.py:276-283 | parameter `k` of well `j` is file cell `(start + j)*M + k` |
| Automate.OptimisationLoop.Measurements | optobot/automate.py:107-117 | manual or computed, the measurements are a `pop x M` batch |
| Automate.OptimisationLoop.AllDataFits | optobot/automate.py:247-249 | the `all_data` block of iteration `n` fits the table |
| Automate.OptimisationLoop.StoreData | optobot/automate.py:205-250 | volumes and errors are written at the gapped window and `all_data` at row `n*pop`. Measurements are written only when not manual; nothing else changes |
| Automate.OptimisationLoop.LiquidHandling | optobot/automate.py:294-334 | the plate is `n*pop // 96` and the log is the plan with `well_count = n - plate*8` |
| Automate.OptimisationLoop.Call | optobot/automate.py:90-127 | dilute; dispense the plan (network) or nothing; the errors are the objective of the measurements; the store is as `StoreData`; the counter advances by one |
| Automate.StoreThenReadBack | optobot/automate.py:234-239 | measurements stored for iteration `n` read back by `user_input` from a file with that content are the same batch |
| Automate.OptimisationLoop.StoreKeepsEarlierIteration | optobot/automate.py:205-249 | when `after` is what `store_data` for iteration `n` makes of `before` (the `StoredFrom` relation that `Stored`, and so `StoreData` and `Call`, state of `old(Contents())` and `Contents()`), every earlier iteration's windows still fit and its rows of the four tables read back from `after` as from `before` |
| Automate.DispensedVolumeIsRecorded | optobot/automate.py:90-125 | one call with batches of 12: command `l*14 + j + 1` of the dispensed log transfers liquid `l`'s volume for well `j` from `A{l+1}` into a well whose plate, row and column are those of the volume-table cell that holds the same volume |
| Automate.RecipeRecordedAtItsWell | optobot/automate.py:224-226 | after the store, liquid `l` of well `j` is at flat position `(start + j)*L + l` of the volume table |
| TestWellplates.Wellplate96.constructor | application/test/test_wellplates.py:42-66 | settings kept, counter 0, the four zero tables and the row index |
| TestWellplates.Wellplate96.WindowFits | application/test/test_wellplates.py:168-176 | under the preflight check the window of any width ends inside its table |
| TestWellplates.Wellplate96.ManualReading | application/test/test_wellplates.py:216-219 | the manual reading is a `pop x M` batch |
| TestWellplates.Wellplate96.UserInput | application/test/test_wellplates.py:201-220 | the current window of the edited file as a `pop x M` batch |
| TestWellplates.Wellplate96.ManualReadingAt | application/test/test_wellplates.py:216-219 | parameter `k` of well `j` is file cell `(start + j)*M + k` |
| TestWellplates.Wellplate96.Measurements | application/test/test_wellplates.py:101-106 | manual or computed, a `pop x M` batch |
| TestWellplates.Wellplate96.AllDataFits | application/test/test_wellplates.py:193-197 | the `all_data` block fits the table |
| TestWellplates.Wellplate96.StoreData | application/test/test_wellplates.py:164-198 | volumes, errors and `all_data` are written as in the orchestrator; the measurement table only when the setting is `False` |
| TestWellplates.Wellplate96.Call | application/test/test_wellplates.py:69-115 | dilute, measure, score, store, advance; the measurement table is never changed by a completed call |
| WellplateClasses.AwaitConfirmation | application/wellplate_classes.py:56-58 | succeeds exactly when some reply is `yes`, consuming the replies up to and including the first `yes` |
| WellplateClasses.UserInput | application/wellplate_classes.py:47-61 | values come back exactly when the operator confirms. They are the clipped slice `[iter_c*iter_s, +iter_s)` of the 96 cells, element by element when it fits |
| WellplateClasses.Wellplate96.constructor | application/wellplate_classes.py:6-17 | zero `8 x 12L` output and `8 x 12` input tables, product header, manual exactly for `'Manual'` |
| WellplateClasses.Wellplate96.Call | application/wellplate_classes.py:19-45 | the batch goes to output rows `[n*s, (n+1)*s)`. Manual: input untouched, values are the confirmed window, and the counter advances only on confirmation. Computed: values written to the input window, counter advances |
| OptClasses.SquaredDistanceNonNegative | application/opt_classes.py:11 | the squared distance is never negative |
| OptClasses.SquaredDistanceZeroIff | application/opt_classes.py:11 | the squared distance is zero exactly at the ideal |
| OptClasses.Scores | application/opt_classes.py:10-11 | one score per recipe, never negative, zero exactly when the recipe is `[40, 60, 20]` |
| OptClasses.AutoInput | application/opt_classes.py:7-14 | returns the scores and writes them into input cells `[iter_c*iter_s, +iter_s)` |
| OptClasses.Wellplate96.constructor | application/opt_classes.py:18-27 | zero tables, kept settings, product header, counter 0 |
| OptClasses.Wellplate96.Call | application/opt_classes.py:29-49 | batch of 12 to output cells `[12nL, 12(n+1)L)`, scores to the input window, counter advances |
| ScriptGenerator.UnescapeEscape | application/opentrons_script_generator.py:26-84 | any literal text, written into the f-string with braces doubled, renders as itself |
| ScriptGenerator.DoubledBracesRenderSingle | application/opentrons_script_generator.py:30 | `{{` and `}}` in the template render as single braces |
| ScriptGenerator.NatToString | application/opentrons_script_generator.py:34 | `str(n)` is at least one digit |
| ScriptGenerator.ParseNatToString | application/opentrons_script_generator.py:34 | the number written reads back as itself |
| ScriptGenerator.FourHoleTemplateRenders | application/opentrons_script_generator.py:26-84 | the template renders as its pieces with the four values between them, verbatim |
| ScriptGenerator.ScriptTemplateRenders | application/opentrons_script_generator.py:26-84 | the generated text is the header, `str(iter_count)`, the volume array text, `str(total_volume)`, `str(well_loc)` and the body, in that order |
| ScriptGenerator.GenerateScript | application/opentrons_script_generator.py:7-86 | the file written is `generated_script.py` and holds that text |
| ScriptGenerator.GeneratedNumbersReadBack | application/opentrons_script_generator.py:34-40 | the iteration number and the deck slot read back from the text |
| ScriptGenerator.GenCellIsRowMajor | application/opentrons_script_generator.py:48-71 | well `j` goes to `divmod(iter_size*iter_count + j, 12)`, inside the 8 x 12 plate when the flat index is below 96 |
| ScriptGenerator.GenCellInjective | application/opentrons_script_generator.py:48-71 | distinct flat positions get distinct cells |
| ScriptGenerator.SharedTipTransfers | application/opentrons_script_generator.py:68-75 | one transfer per well |
| ScriptGenerator.OwnTipTransfers | application/opentrons_script_generator.py:77-80 | three commands per well |
| ScriptGenerator.ColumnTransfers | application/opentrons_script_generator.py:64-82 | whatever its tip schedule, a column's transfers are its wells in order |
| ScriptGenerator.OwnTipTransfersOf | application/opentrons_script_generator.py:77-80 | the per-well-tip column transfers its wells in order |
| ScriptGenerator.GenPlanTransfersAre | application/opentrons_script_generator.py:64-82 | the program's transfers are each diluted column's wells in order, column after column, whatever tips each column takes |
| ScriptGenerator.GenPlanTransfers | application/opentrons_script_generator.py:64-82 | with `s` wells per batch there are `m*s` transfers, and transfer `c*s + j` is well `j` of diluted column `c`: every column is dispensed once into every well |
| ScriptGenerator.GenPlanTransferCount | application/opentrons_script_generator.py:64-82 | `m` columns give `m*s` transfers |
| ScriptGenerator.ColumnTipSafe | application/opentrons_script_generator.py:65-82 | each column, with the shared tip or a tip per well, starts and ends with no tip on the pipette and is accepted |
| ScriptGenerator.GenPlanTipSafe | application/opentrons_script_generator.py:64-82 | the robot accepts the emitted program, whatever column mixes |
| ScriptGenerator.OwnTipTransfersTipSafe | application/opentrons_script_generator.py:77-80 | a tip per well is accepted and leaves no tip |
| ScriptGenerator.GenCellRowInPlate | application/opentrons_script_generator.py:70-75 | `row[current_row]` exists exactly for the wells before `96 - iter_size*iter_count`; the column is always below 12 |
| ScriptGenerator.GenBatchInPlateIff | application/opentrons_script_generator.py:48-75 | every well of the batch has a row on the plate if and only if `iter_size*(iter_count + 1) <= 96` |
| ScriptGenerator.AbortedColumnPassIsPrefix | application/opentrons_script_generator.py:65-80 | what a column has issued when a well raises `IndexError` is the start of its full pass, and its transfers are exactly the wells before the failing one |
| ScriptGenerator.EmitColumn | application/opentrons_script_generator.py:65-82 | one pass of the column loop emits that column's commands when every well has a row; otherwise it stops, with the commands issued so far, at the first well past row H |
| ScriptGenerator.EmitColumns | application/opentrons_script_generator.py:64-82 | the column loop emits the passes of every diluted column, column after column, and completes exactly when the batch fits the plate; otherwise it stops in the first column at the first well past row H |
| ScriptGenerator.EmittedRun | application/opentrons_script_generator.py:43-82 | `run` completes exactly when every well has a row on the plate, and then emits the plan for the diluted batch: `num_liquids + 1` columns, mixing at column `num_liquids - 1`; otherwise the log is the first column up to the well that raises `IndexError` |
| ScriptGenerator.GeneratedProgramMixesTooEarly | application/opentrons_script_generator.py:74-79 | as written, the last diluted column does not mix, but the one before it does |
| ScriptGenerator.CorrectedProgramMixesLast | application/opentrons_script_generator.py:76 | mixing on column `num_liquids`: transfer `c*s + j` mixes, `(2, 20)`, exactly when `c == num_liquids`; the program is still accepted |
| SimulateScript.ExpectedPlates | tests/simulate_ot2_script.py:38-53 | one plate per listed slot, in order, loaded on an empty deck and taken from the deck otherwise |
| SimulateScript.SetUp | tests/simulate_ot2_script.py:38-54 | tips in slot 1, reservoir in slot 2 and the plates, newly loaded exactly when slot 1 is empty |
| SimulateScript.VolumesShape | tests/simulate_ot2_script.py:18-29 | the fixed batch is 12 recipes of 4 liquids |
| SimulateScript.Run | tests/simulate_ot2_script.py:56-86 | plate key `plate_1` (there are two plates), and the log is the plan of `liquid_handling` for iteration 7 on plate 0 |
| SimulateScript.SimulatedWells | tests/simulate_ot2_script.py:56-71 | plate 0, `well_count` 7: well `j` goes to `wells()[j*8 + 7]`, row H, column `j` |
| SimulateScript.SimulatedRunIsSafe | tests/simulate_ot2_script.py:63-86 | transfer `t` of liquid `l` is from `A{l+1}` to `wells()[(t-1)*8 + 7]`; only the last liquid mixes; the robot accepts the run |
| OpentronsScript.ScriptPass | application/opentrons_script.py:39-50 | one transfer per well |
| OpentronsScript.ScriptPlan | application/opentrons_script.py:38-50 | `m` liquids give `m*s` transfers |
| OpentronsScript.Run | application/opentrons_script.py:23-50 | either every well has a cell and the full plan is issued, or the first well without one raises part-way through the first liquid, after the transfers before it |
| OpentronsScript.ScriptPlanAt | application/opentrons_script.py:38-50 | transfer `k` is well `k % s` of liquid `k / s` (undiluted, default tips, mixing on the last liquid) |
| OpentronsScript.ScriptPlanTipSafe | application/opentrons_script.py:46-50 | with default tip handling the robot accepts every transfer |
| OpentronsScript.ScriptCellAgreement | application/opentrons_script.py:42-43 | the cell agrees with the row-major cell exactly when `start_col + j % 12 < 12`; otherwise the column is 12 or more |
| OpentronsScript.ScriptCellOverflows | application/opentrons_script.py:42 | batches of 5 at iteration 2: well 2 is addressed at row B, column 12 (there is none) instead of row B, column 0 |
| OpentronsScript.CorrectedCellIsRowMajor | application/opentrons_script.py:42-43 | with the column `(start_col + j) % 12`, well `j` is `divmod(iter_size*iter_n + j, 12)` and on the plate |

## Left out

- File and console I/O is left out: `to_csv`, `read_csv`, `makedirs`, the timestamped directory names, `np.save`/`np.load`, `os.system`, the iteration-count files. The tables are in-memory arrays. A file the operator edits is the `entered` parameter. Prompts that wait for any key are dropped; the `yes` loop reads a `seq<string>` of replies.
- The Opentrons API is left out: labware and instrument loading, and pipette motion. Dispensing is the command log. The robot's acceptance of tip commands is the `TipState` rule.
- `generate_script` of `optobot.ot2_protocol` (called by `__call__` without a network connection) is not part of this model. In that case `Automate.OptimisationLoop.Call` dispenses nothing.
- The optimiser back-ends (`optobot.optimisation.optimisers`, `opt_functions`) and the `pyswarms` driver at the end of opt_classes.py are not part of this model. Only the dispatch by name is modelled.
- `np.array2string` and `str` of a float are left out: these are string parameters of `ScriptGenerator.Values`. Volumes are reals, with no floating-point rounding.
- Crash paths of the source are preconditions, not errors:
  - numpy shape mismatches become `IsMatrix` requirements;
  - a window past the table's end becomes the entry script's preflight check, `Fits`;
  - a missing `plate_{k}` key becomes `plate < NumPlates()`;
  - calling the `False` measurement setting becomes `!= Off`;
  - the `reshape(12*L)` of opt_classes.py becomes `iterSize == 12`.
- The `target_wells` lists that `liquid_handling` and the simulated protocol build but never use are left out, and so are the `print` calls.
- Automate.OptimisationLoop.LiquidHandling: the `wells()` index is kept as the integer the source computes. Python's negative indexing and the `IndexError` of an index of 96 or more (batches wider than 12 wells) are not modelled; `OtherBatchSizesMisaddress` shows such indices arise.
- OptClasses.Wellplate96.Call: its callback is fixed to `auto_input`, the one the file instantiates, rather than an arbitrary function.
- WellplateClasses.Wellplate96.Call: a computed measurer is assumed to return one value per well, as the input-table write requires.
- SimulateScript.ExpectedPlates: the `plate_{k}` names are represented by their position `k - 1` in a sequence rather than by string keys.
- Automate.OptimisationLoop.UserInput: its element-by-element content is stated in `ManualReadingAt` rather than in its own `ensures`.

## Findings

| source | as written | input that shows it | evidently intended | confidence | as-written member | corrected member |
|---|---|---|---|---|---|---|
| application/opentrons_script.py:42 | `current_col = start_col + j % 12` adds the unwrapped start column | `iter_size = 5`, `iter_n = 2`, `j = 2`: start (0, 10), cell (1, 12), outside the plate | `(start_col + j) % 12`, as the row on line 43 and the generator compute: cell (1, 0) | high, not executed | OpentronsScript.ScriptCellOverflows | OpentronsScript.CorrectedCellIsRowMajor |
| application/opentrons_script_generator.py:65-79 | mixes, with a tip per well, on column `num_liquids - 1` of the diluted batch, which has `num_liquids + 1` columns | `num_liquids = 3`: columns water, 1, 2, 3; column 2 mixes, the last column 3 does not | mix on the last liquid dispensed, column `num_liquids`, as the comment on line 76 says | medium, not executed | ScriptGenerator.GeneratedProgramMixesTooEarly | ScriptGenerator.CorrectedProgramMixesLast |
| application/test/test_wellplates.py:188 | stores computed measurements only when `measurement_function == False`, and `__call__` then calls `False` | any callable `measurement_function`: the measurements table is never written | `!= 'manual'`, as optobot/automate.py:234 | high, not executed | TestWellplates.Wellplate96.Call | Automate.OptimisationLoop.Call |
