/** application/opentrons_script_generator.py: `generate_script` fills an
    f-string template with the iteration number, the volume array literal,
    the total volume and the plate's deck slot and writes the result to
    `generated_script.py`; the program it emits dilutes the batch and
    dispenses it row by row. */
module ScriptGenerator {
  import opened Wrappers
  import opened Grid
  import opened Labware
  import opened Experiment

  // ---------------------------------------------------------------------
  // The template

  /** The four placeholders of the template. */
  datatype Field = IterCount | VolumeArray | TotalVolume | WellLoc

  /** A piece of the f-string: literal text as written in the source (with
      braces doubled) or a placeholder. */
  datatype Segment = Text(source: string) | Hole(field: Field)

  /** How the f-string renders its literal text: `{{` and `}}` become
      single braces. */
  function Unescape(t: string): string
  {
    if |t| >= 2 && t[0] == '{' && t[1] == '{' then "{" + Unescape(t[2..])
    else if |t| >= 2 && t[0] == '}' && t[1] == '}' then "}" + Unescape(t[2..])
    else if t == [] then []
    else [t[0]] + Unescape(t[1..])
  }

  /** Writing text into the f-string source: every brace doubled. */
  function Escape(s: string): string
  {
    if s == [] then []
    else (if s[0] == '{' then "{{" else if s[0] == '}' then "}}" else [s[0]]) + Escape(s[1..])
  }

  /** Any literal text can be put into the template and renders as itself. */
  lemma {:induction false} UnescapeEscape(s: string)
    ensures Unescape(Escape(s)) == s
  {
    if s != [] {
      UnescapeEscape(s[1..]);
      var e := Escape(s[1..]);
      if s[0] == '{' {
        assert Escape(s) == "{{" + e;
        assert ("{{" + e)[2..] == e;
      } else if s[0] == '}' {
        assert Escape(s) == "}}" + e;
        assert ("}}" + e)[2..] == e;
      } else {
        assert Escape(s) == [s[0]] + e;
        assert ([s[0]] + e)[1..] == e;
      }
      assert s == [s[0]] + s[1..];
    }
  }

  /** The decimal digits of `str(n)`. */
  function NatToString(n: nat): (s: string)
    ensures |s| >= 1
  {
    if n < 10 then [DigitChar(n)] else NatToString(n / 10) + [DigitChar(n % 10)]
  }

  function DigitChar(d: nat): char
    requires d < 10
  {
    "0123456789"[d]
  }

  function DigitValue(c: char): nat
  {
    if '0' <= c <= '9' then (c as int - '0' as int) as nat else 0
  }

  /** `int(s)` for a string of decimal digits. */
  function ParseNat(s: string): nat
  {
    if s == [] then 0 else ParseNat(s[..|s| - 1]) * 10 + DigitValue(s[|s| - 1])
  }

  /** The number written into the emitted program reads back as itself. */
  lemma {:induction false} ParseNatToString(n: nat)
    ensures ParseNat(NatToString(n)) == n
    decreases n
  {
    var s := NatToString(n);
    if n < 10 {
      assert s[..|s| - 1] == [];
    } else {
      ParseNatToString(n / 10);
      var prefix := NatToString(n / 10);
      assert s == prefix + [DigitChar(n % 10)];
      assert s[..|s| - 1] == prefix;
    }
  }

  /** The placeholder values: `str(iter_count)`, the `array2string` text of
      the volumes, `str(total_volume)` and `str(well_loc)`. */
  datatype Values = Values(iterCount: nat, arrayText: string, totalVolumeText: string, wellLoc: nat)

  function FieldText(f: Field, v: Values): string
  {
    match f
    case IterCount => NatToString(v.iterCount)
    case VolumeArray => v.arrayText
    case TotalVolume => v.totalVolumeText
    case WellLoc => NatToString(v.wellLoc)
  }

  function SegmentText(s: Segment, v: Values): string
  {
    match s
    case Text(t) => Unescape(t)
    case Hole(f) => FieldText(f, v)
  }

  function Render(template: seq<Segment>, v: Values): string
  {
    if template == [] then [] else SegmentText(template[0], v) + Render(template[1..], v)
  }

  lemma {:induction false} RenderAppend(a: seq<Segment>, b: seq<Segment>, v: Values)
    ensures Render(a + b, v) == Render(a, v) + Render(b, v)
  {
    if a == [] {
      assert a + b == b;
    } else {
      assert (a + b)[0] == a[0] && (a + b)[1..] == a[1..] + b;
      RenderAppend(a[1..], b, v);
    }
  }

  /** The literal text of the template around and between the
      placeholders, as the generated program reads (`EmittedRun` models
      what its body does). The template holds each piece in its f-string
      source form, `Escape` of the text, so the body's `{i+1}` is written
      `{{i+1}}` there. */
  const HEADER: string := "\nfrom opentrons import protocol_api\nimport numpy as np\n\nrequirements = {\"robotType\": \"OT-2\", \"apiLevel\": \"2.16\"}\n\ndef run(protocol: protocol_api.ProtocolContext):\n\n    iter_count = "
  const BEFORE_VOLUME: string := "\n    volume = np.array("
  const BEFORE_TOTAL: string := ")\n\n    total_volume = "
  const BEFORE_WELL_LOC: string := "\n\n    #location selected by user when wellplate class created\n    well_loc = "
  const BODY: string :=
    "\n\n    #concentrations used must come in a num of wells x num of liquids size array\n    iter_size = volume.shape[0]\n    num_liquids = volume.shape[1]\n\n    #calculate which row and col to start on depending on iteration size and number\n    #assuming 96 wells, making 12 a variable could change this\n    start_row = (iter_size * iter_count) // 12\n    start_col = (iter_size * iter_count) % 12\n\n    #loading the tips, reservoir and well plate into the program\n    tips = protocol.load_labware(\"opentrons_96_tiprack_300ul\", 1)\n    reservoir = protocol.load_labware(\"nest_12_reservoir_15ml\", 2)\n    #well plate in the middle for optimal camera placement, in future let user select\n    plate = protocol.load_labware(\"nest_96_wellplate_200ul_flat\", well_loc)\n    left_pipette = protocol.load_instrument(\"p300_single_gen2\", \"right\", tip_racks=[tips])\n    row = plate.rows()\n\n    #Adds water so that it fills up to the same volume each time\n    buffer = total_volume - np.sum(volume, axis = 1)\n    #water will now be the first liquid to be added\n    volume = np.hstack([buffer.reshape(-1,1), volume])\n\n    for i in range(num_liquids+1):\n        if i != num_liquids - 1:\n            left_pipette.pick_up_tip()\n        amt = volume[:, i]\n        for j in range(iter_size):\n            #calculates current column and row to pipette into\n            current_col = (start_col + j) % 12\n            current_row = start_row + (start_col + j) // 12\n\n            #transfers X amount of liquid i into the well\n            if i != num_liquids - 1:\n                left_pipette.transfer(amt[j], reservoir[f'A{i+1}'], row[current_row][current_col], new_tip = 'never')\n            #if it is on the last liquid, it mixes the well\n            else:\n                left_pipette.pick_up_tip()\n                left_pipette.transfer(amt[j], reservoir[f'A{i+1}'], row[current_row][current_col], mix_after = (2,20), new_tip = 'never')\n                left_pipette.drop_tip()\n        if i != num_liquids - 1:\n            left_pipette.drop_tip()\n\n"

  const SCRIPT_TEMPLATE: seq<Segment> := FourHoleTemplate(HEADER, BEFORE_VOLUME, BEFORE_TOTAL, BEFORE_WELL_LOC, BODY)

  /** A doubled brace in the template renders as a single one. */
  lemma DoubledBracesRenderSingle()
    ensures Escape("{") == "{{" && Unescape("{{") == "{"
    ensures Escape("}") == "}}" && Unescape("}}") == "}"
  {
    assert Unescape("{{"[2..]) == [];
    assert Unescape("}}"[2..]) == [];
  }

  /** `generate_script(iter_count, volume, well_loc, total_volume)`: the
      path written (always `generated_script.py`) and its content, in which
      the four values appear verbatim between the template's pieces. */
  function GenerateScript(v: Values): (file: (string, string))
    ensures file.0 == "generated_script.py"
    ensures file.1 == HEADER + (NatToString(v.iterCount) + (BEFORE_VOLUME + (v.arrayText +
      (BEFORE_TOTAL + (v.totalVolumeText + (BEFORE_WELL_LOC + (NatToString(v.wellLoc) + BODY)))))))
  {
    ScriptTemplateRenders(v);
    ("generated_script.py", Render(SCRIPT_TEMPLATE, v))
  }

  lemma RenderCons(s: Segment, rest: seq<Segment>, v: Values)
    ensures Render([s] + rest, v) == SegmentText(s, v) + Render(rest, v)
  {
    assert ([s] + rest)[0] == s && ([s] + rest)[1..] == rest;
  }

  /** A literal piece followed by a placeholder renders as the piece's text
      and the placeholder's value. */
  lemma PieceThenHole(t: string, f: Field, rest: seq<Segment>, v: Values)
    ensures Render([Text(Escape(t)), Hole(f)] + rest, v) == t + (FieldText(f, v) + Render(rest, v))
  {
    UnescapeEscape(t);
    var r1 := [Hole(f)] + rest;
    RenderCons(Hole(f), rest, v);
    RenderCons(Text(Escape(t)), r1, v);
    assert [Text(Escape(t))] + r1 == [Text(Escape(t)), Hole(f)] + rest;
  }

  /** The template's shape: literal pieces around the placeholders for
      the iteration number, the volume array, the total volume and the
      deck slot. */
  function FourHoleTemplate(h: string, bv: string, bt: string, bw: string, body: string): seq<Segment>
  {
    [Text(Escape(h)), Hole(IterCount)] + ([Text(Escape(bv)), Hole(VolumeArray)] +
    ([Text(Escape(bt)), Hole(TotalVolume)] + ([Text(Escape(bw)), Hole(WellLoc)] + [Text(Escape(body))])))
  }

  /** A template of four placeholders between five literal pieces renders
      as the pieces with the values in between. */
  lemma FourHoleTemplateRenders(h: string, bv: string, bt: string, bw: string, body: string, v: Values)
    ensures Render(FourHoleTemplate(h, bv, bt, bw, body), v) ==
      h + (NatToString(v.iterCount) + (bv + (v.arrayText + (bt + (v.totalVolumeText + (bw + (NatToString(v.wellLoc) + body)))))))
  {
    var r4: seq<Segment> := [Text(Escape(body))];
    UnescapeEscape(body);
    RenderCons(Text(Escape(body)), [], v);
    assert r4 == [Text(Escape(body))] + [];
    var s4 := Render(r4, v);
    assert s4 == body;
    var r3 := [Text(Escape(bw)), Hole(WellLoc)] + r4;
    PieceThenHole(bw, WellLoc, r4, v);
    var s3 := Render(r3, v);
    assert s3 == bw + (NatToString(v.wellLoc) + s4);
    var r2 := [Text(Escape(bt)), Hole(TotalVolume)] + r3;
    PieceThenHole(bt, TotalVolume, r3, v);
    var s2 := Render(r2, v);
    assert s2 == bt + (v.totalVolumeText + s3);
    var r1 := [Text(Escape(bv)), Hole(VolumeArray)] + r2;
    PieceThenHole(bv, VolumeArray, r2, v);
    var s1 := Render(r1, v);
    assert s1 == bv + (v.arrayText + s2);
    var r0 := [Text(Escape(h)), Hole(IterCount)] + r1;
    PieceThenHole(h, IterCount, r1, v);
    assert Render(r0, v) == h + (NatToString(v.iterCount) + s1);
    assert r0 == FourHoleTemplate(h, bv, bt, bw, body);
  }

  lemma ScriptTemplateRenders(v: Values)
    ensures Render(SCRIPT_TEMPLATE, v) ==
      HEADER + (NatToString(v.iterCount) + (BEFORE_VOLUME + (v.arrayText +
      (BEFORE_TOTAL + (v.totalVolumeText + (BEFORE_WELL_LOC + (NatToString(v.wellLoc) + BODY)))))))
  {
    FourHoleTemplateRenders(HEADER, BEFORE_VOLUME, BEFORE_TOTAL, BEFORE_WELL_LOC, BODY, v);
  }


  /** The iteration number and deck slot read back from the emitted text. */
  lemma GeneratedNumbersReadBack(v: Values)
    ensures ParseNat(FieldText(IterCount, v)) == v.iterCount
    ensures ParseNat(FieldText(WellLoc, v)) == v.wellLoc
  {
    ParseNatToString(v.iterCount);
    ParseNatToString(v.wellLoc);
  }

  // ---------------------------------------------------------------------
  // The emitted program

  /** Row and column of well `j` in `plate.rows()`, as the program computes
      them from `divmod(iter_size*iter_count, 12)`. */
  function GenCell(iterSize: nat, iterCount: nat, j: nat): (cell: (nat, nat))
  {
    var start := StartCell(iterSize, iterCount);
    (start.0 + (start.1 + j) / 12, (start.1 + j) % 12)
  }

  /** `divmod(iter_size*iter_count, 12)`: the row and column of the batch's
      first well. */
  function StartCell(iterSize: nat, iterCount: nat): (nat, nat)
  {
    ((iterSize * iterCount) / 12, (iterSize * iterCount) % 12)
  }

  /** The cell is `divmod(iter_size*iter_count + j, 12)`: consecutive wells
      fill the plate row by row, a batch that fits the plate stays inside
      the 8 x 12 grid, and distinct flat positions get distinct cells. */
  lemma GenCellIsRowMajor(iterSize: nat, iterCount: nat, j: nat)
    ensures GenCell(iterSize, iterCount, j) == ((iterSize * iterCount + j) / 12, (iterSize * iterCount + j) % 12)
    ensures iterSize * iterCount + j < PLATE_WELLS ==>
      GenCell(iterSize, iterCount, j).0 < PLATE_ROWS && GenCell(iterSize, iterCount, j).1 < PLATE_COLUMNS
  {
    var start := iterSize * iterCount;
    var sr, sc := start / 12, start % 12;
    var q, r := (sc + j) / 12, (sc + j) % 12;
    DivModOf(start + j, 12, sr + q, r);
  }

  /** The first well of the batch whose row `start_row + (start_col + j)
      // 12` is past row H: `96 - iter_size*iter_count`, or well 0 when the
      batch starts past the plate. */
  function FirstWellOffPlate(iterSize: nat, iterCount: nat): nat
  {
    if iterSize * iterCount >= PLATE_WELLS then 0 else PLATE_WELLS - iterSize * iterCount
  }

  /** `plate.rows()` has a row for well `j` exactly when `j` comes before
      the first well off the plate; the column is always below 12. */
  lemma GenCellRowInPlate(iterSize: nat, iterCount: nat, j: nat)
    ensures GenCell(iterSize, iterCount, j).0 < PLATE_ROWS <==> j < FirstWellOffPlate(iterSize, iterCount)
    ensures GenCell(iterSize, iterCount, j).1 < PLATE_COLUMNS
  {
    GenCellIsRowMajor(iterSize, iterCount, j);
  }

  /** Every well of the batch has a row on the plate. */
  ghost predicate GenBatchInPlate(iterSize: nat, iterCount: nat)
  {
    forall j :: 0 <= j < iterSize ==> GenCell(iterSize, iterCount, j).0 < PLATE_ROWS
  }

  /** The batch of iteration `iter_count` fits the plate exactly when the
      first well off the plate is not in it, that is, when iterations
      `0..iter_count` together take at most the 96 wells. */
  lemma GenBatchInPlateIff(iterSize: nat, iterCount: nat)
    ensures GenBatchInPlate(iterSize, iterCount) <==> iterSize <= FirstWellOffPlate(iterSize, iterCount)
    ensures GenBatchInPlate(iterSize, iterCount) <==> iterSize * (iterCount + 1) <= PLATE_WELLS
  {
    forall j | 0 <= j < iterSize
      ensures GenCell(iterSize, iterCount, j).0 < PLATE_ROWS <==> j < FirstWellOffPlate(iterSize, iterCount)
    {
      GenCellRowInPlate(iterSize, iterCount, j);
    }
    var first := FirstWellOffPlate(iterSize, iterCount);
    if first < iterSize {
      assert GenCell(iterSize, iterCount, first).0 >= PLATE_ROWS;
    }
    assert iterSize * (iterCount + 1) == iterSize * iterCount + iterSize;
  }

  lemma GenCellInjective(iterSize: nat, n1: nat, j1: nat, n2: nat, j2: nat)
    requires GenCell(iterSize, n1, j1) == GenCell(iterSize, n2, j2)
    ensures iterSize * n1 + j1 == iterSize * n2 + j2
  {
    GenCellIsRowMajor(iterSize, n1, j1);
    GenCellIsRowMajor(iterSize, n2, j2);
  }

  /** Well `j` of diluted column `i`; the column `mixColumn` uses a fresh
      tip per well and mixes `(2, 20)`. */
  function GenTransfer(diluted: Batch, i: nat, j: nat, mixColumn: int, iterCount: nat): Command
    requires j < |diluted| && i < |diluted[j]|
  {
    var cell := GenCell(|diluted|, iterCount, j);
    Transfer(diluted[j][i], i + 1, RowCol(cell.0, cell.1),
             if i == mixColumn then Some(Mix(2, 20.0)) else None, Never)
  }

  /** The transfers of wells 0..k-1 of diluted column `i` with the
      column's shared tip. */
  function SharedTipTransfers(diluted: Batch, width: nat, i: nat, mixColumn: int, iterCount: nat, k: nat): (cmds: seq<Command>)
    requires IsMatrix(diluted, |diluted|, width) && i < width && k <= |diluted|
    ensures |cmds| == k
  {
    seq(k, j requires 0 <= j < k => GenTransfer(diluted, i, j, mixColumn, iterCount))
  }

  lemma SharedTipTransfersStep(diluted: Batch, width: nat, i: nat, mixColumn: int, iterCount: nat, k: nat)
    requires IsMatrix(diluted, |diluted|, width) && i < width && k < |diluted|
    ensures SharedTipTransfers(diluted, width, i, mixColumn, iterCount, k + 1) ==
            SharedTipTransfers(diluted, width, i, mixColumn, iterCount, k) + [GenTransfer(diluted, i, k, mixColumn, iterCount)]
  {
  }

  /** Wells 0..k-1 of the mixing column, each with its own tip. */
  function OwnTipTransfers(diluted: Batch, width: nat, i: nat, mixColumn: int, iterCount: nat, k: nat): (cmds: seq<Command>)
    requires IsMatrix(diluted, |diluted|, width) && i < width && k <= |diluted|
    ensures |cmds| == 3 * k
  {
    if k == 0 then []
    else OwnTipTransfers(diluted, width, i, mixColumn, iterCount, k - 1) +
         [PickUpTip, GenTransfer(diluted, i, k - 1, mixColumn, iterCount), DropTip]
  }

  /** The commands of diluted column `i`. */
  function GenColumnPass(diluted: Batch, width: nat, i: nat, mixColumn: int, iterCount: nat): seq<Command>
    requires IsMatrix(diluted, |diluted|, width) && i < width
  {
    if i != mixColumn then [PickUpTip] + SharedTipTransfers(diluted, width, i, mixColumn, iterCount, |diluted|) + [DropTip]
    else OwnTipTransfers(diluted, width, i, mixColumn, iterCount, |diluted|)
  }

  /** What column `i` has issued when well `k` raises `IndexError`: with
      the shared tip, the pick-up and wells 0..k-1; with a tip per well, the
      triples of wells 0..k-1 and the pick-up for well `k`. */
  function AbortedColumnPass(diluted: Batch, width: nat, i: nat, mixColumn: int, iterCount: nat, k: nat): seq<Command>
    requires IsMatrix(diluted, |diluted|, width) && i < width && k < |diluted|
  {
    if i != mixColumn then [PickUpTip] + SharedTipTransfers(diluted, width, i, mixColumn, iterCount, k)
    else OwnTipTransfers(diluted, width, i, mixColumn, iterCount, k) + [PickUpTip]
  }

  lemma {:induction false} OwnTipTransfersPrefix(diluted: Batch, width: nat, i: nat, mixColumn: int, iterCount: nat, k: nat, m: nat)
    requires IsMatrix(diluted, |diluted|, width) && i < width && k < m <= |diluted|
    ensures OwnTipTransfers(diluted, width, i, mixColumn, iterCount, k) + [PickUpTip] <=
            OwnTipTransfers(diluted, width, i, mixColumn, iterCount, m)
  {
    var prev := OwnTipTransfers(diluted, width, i, mixColumn, iterCount, m - 1);
    var t := GenTransfer(diluted, i, m - 1, mixColumn, iterCount);
    assert OwnTipTransfers(diluted, width, i, mixColumn, iterCount, m) == prev + [PickUpTip, t, DropTip];
    if k < m - 1 {
      OwnTipTransfersPrefix(diluted, width, i, mixColumn, iterCount, k, m - 1);
    } else {
      assert prev + [PickUpTip] <= prev + [PickUpTip, t, DropTip];
    }
  }

  /** What a column has issued when a well fails is the start of its full
      pass, and its transfers are exactly the wells before the failing one. */
  lemma AbortedColumnPassIsPrefix(diluted: Batch, width: nat, i: nat, mixColumn: int, iterCount: nat, k: nat)
    requires IsMatrix(diluted, |diluted|, width) && i < width && k < |diluted|
    ensures AbortedColumnPass(diluted, width, i, mixColumn, iterCount, k) <= GenColumnPass(diluted, width, i, mixColumn, iterCount)
    ensures TransfersOf(AbortedColumnPass(diluted, width, i, mixColumn, iterCount, k)) ==
            SharedTipTransfers(diluted, width, i, mixColumn, iterCount, k)
  {
    var s := SharedTipTransfers(diluted, width, i, mixColumn, iterCount, k);
    if i != mixColumn {
      var all := SharedTipTransfers(diluted, width, i, mixColumn, iterCount, |diluted|);
      assert s == all[..k];
      assert ([PickUpTip] + all + [DropTip])[..k + 1] == [PickUpTip] + s;
      TransfersOfAppend([PickUpTip], s);
      TransfersOfTransfers(s);
    } else {
      OwnTipTransfersPrefix(diluted, width, i, mixColumn, iterCount, k, |diluted|);
      var own := OwnTipTransfers(diluted, width, i, mixColumn, iterCount, k);
      TransfersOfAppend(own, [PickUpTip]);
      OwnTipTransfersOf(diluted, width, i, mixColumn, iterCount, k);
      assert [PickUpTip][1..] == [];
    }
  }

  /** The commands of diluted columns 0..m-1, one list per column. */
  function GenColumnPasses(diluted: Batch, width: nat, mixColumn: int, iterCount: nat, m: nat): (passes: seq<seq<Command>>)
    requires m <= width && IsMatrix(diluted, |diluted|, width)
    ensures |passes| == m
  {
    seq(m, c requires 0 <= c < m => GenColumnPass(diluted, width, c, mixColumn, iterCount))
  }

  /** The commands of the first `m` diluted columns, column after column. */
  function GenPlan(diluted: Batch, width: nat, mixColumn: int, iterCount: nat, m: nat): seq<Command>
    requires m <= width && IsMatrix(diluted, |diluted|, width)
  {
    Flatten(GenColumnPasses(diluted, width, mixColumn, iterCount, m))
  }

  /** The transfers of diluted columns 0..m-1, one row per column. */
  function PlanTransfers(diluted: Batch, width: nat, mixColumn: int, iterCount: nat, m: nat): (rows: seq<seq<Command>>)
    requires m <= width && IsMatrix(diluted, |diluted|, width)
    ensures |rows| == m
  {
    seq(m, c requires 0 <= c < m => SharedTipTransfers(diluted, width, c, mixColumn, iterCount, |diluted|))
  }

  /** The transfers of a log, in order. */
  function TransfersOf(log: seq<Command>): seq<Command>
  {
    if |log| == 0 then [] else (if log[0].Transfer? then [log[0]] else []) + TransfersOf(log[1..])
  }

  lemma {:induction false} TransfersOfAppend(a: seq<Command>, b: seq<Command>)
    ensures TransfersOf(a + b) == TransfersOf(a) + TransfersOf(b)
  {
    if |a| == 0 {
      assert a + b == b;
    } else {
      assert (a + b)[0] == a[0] && (a + b)[1..] == a[1..] + b;
      TransfersOfAppend(a[1..], b);
    }
  }

  lemma {:induction false} TransfersOfTransfers(log: seq<Command>)
    requires forall k :: 0 <= k < |log| ==> log[k].Transfer?
    ensures TransfersOf(log) == log
  {
    if |log| > 0 {
      TransfersOfTransfers(log[1..]);
      assert log == [log[0]] + log[1..];
    }
  }

  /** The transfers of column after column are the columns' transfers,
      column after column. */
  lemma {:induction false} TransfersOfFlatten(passes: seq<seq<Command>>, rows: seq<seq<Command>>)
    requires |passes| == |rows|
    requires forall c :: 0 <= c < |passes| ==> TransfersOf(passes[c]) == rows[c]
    ensures TransfersOf(Flatten(passes)) == Flatten(rows)
  {
    if |passes| > 0 {
      TransfersOfFlatten(passes[1..], rows[1..]);
      TransfersOfAppend(passes[0], Flatten(passes[1..]));
    }
  }

  /** Whichever tip policy a column follows, its transfers are well 0, 1,
      ... of that column. */
  lemma ColumnTransfers(diluted: Batch, width: nat, i: nat, mixColumn: int, iterCount: nat)
    requires IsMatrix(diluted, |diluted|, width) && i < width
    ensures TransfersOf(GenColumnPass(diluted, width, i, mixColumn, iterCount)) ==
            SharedTipTransfers(diluted, width, i, mixColumn, iterCount, |diluted|)
  {
    var s := SharedTipTransfers(diluted, width, i, mixColumn, iterCount, |diluted|);
    if i != mixColumn {
      TransfersOfAppend([PickUpTip] + s, [DropTip]);
      TransfersOfAppend([PickUpTip], s);
      TransfersOfTransfers(s);
    } else {
      OwnTipTransfersOf(diluted, width, i, mixColumn, iterCount, |diluted|);
    }
  }

  lemma TransfersOfOwnTip(t: Command)
    requires t.Transfer?
    ensures TransfersOf([PickUpTip, t, DropTip]) == [t]
  {
    var d: seq<Command> := [DropTip];
    assert d[1..] == [];
    assert TransfersOf(d) == [];
    var td := [t] + d;
    assert td[0] == t && td[1..] == d;
    assert TransfersOf(td) == [t];
    var ptd := [PickUpTip] + td;
    assert ptd[0] == PickUpTip && ptd[1..] == td;
    assert TransfersOf(ptd) == [t];
    assert ptd == [PickUpTip, t, DropTip];
  }

  lemma {:induction false} OwnTipTransfersOf(diluted: Batch, width: nat, i: nat, mixColumn: int, iterCount: nat, k: nat)
    requires IsMatrix(diluted, |diluted|, width) && i < width && k <= |diluted|
    ensures TransfersOf(OwnTipTransfers(diluted, width, i, mixColumn, iterCount, k)) ==
            SharedTipTransfers(diluted, width, i, mixColumn, iterCount, k)
  {
    if k > 0 {
      OwnTipTransfersOf(diluted, width, i, mixColumn, iterCount, k - 1);
      var t := GenTransfer(diluted, i, k - 1, mixColumn, iterCount);
      TransfersOfAppend(OwnTipTransfers(diluted, width, i, mixColumn, iterCount, k - 1), [PickUpTip, t, DropTip]);
      TransfersOfOwnTip(t);
      assert SharedTipTransfers(diluted, width, i, mixColumn, iterCount, k) ==
             SharedTipTransfers(diluted, width, i, mixColumn, iterCount, k - 1) + [t];
    }
  }

  /** The plan's transfers are the diluted columns' transfers, column after
      column, whatever tips each column takes. */
  lemma GenPlanTransfersAre(diluted: Batch, width: nat, mixColumn: int, iterCount: nat, m: nat)
    requires m <= width && IsMatrix(diluted, |diluted|, width)
    ensures TransfersOf(GenPlan(diluted, width, mixColumn, iterCount, m)) ==
            Flatten(PlanTransfers(diluted, width, mixColumn, iterCount, m))
  {
    var passes := GenColumnPasses(diluted, width, mixColumn, iterCount, m);
    var rows := PlanTransfers(diluted, width, mixColumn, iterCount, m);
    forall c | 0 <= c < m
      ensures TransfersOf(passes[c]) == rows[c]
    {
      ColumnTransfers(diluted, width, c, mixColumn, iterCount);
    }
    TransfersOfFlatten(passes, rows);
  }

  /** Transfer `c*s + j` of the plan (`s` the batch size) is well `j` of
      diluted column `c`: every diluted column is dispensed exactly once
      into every well of the batch, column after column. */
  lemma GenPlanTransfers(diluted: Batch, width: nat, mixColumn: int, iterCount: nat, m: nat, c: nat, j: nat)
    requires m <= width && IsMatrix(diluted, |diluted|, width)
    requires c < m && j < |diluted|
    ensures |TransfersOf(GenPlan(diluted, width, mixColumn, iterCount, m))| == m * |diluted|
    ensures c * |diluted| + j < m * |diluted|
    ensures TransfersOf(GenPlan(diluted, width, mixColumn, iterCount, m))[c * |diluted| + j] ==
            GenTransfer(diluted, c, j, mixColumn, iterCount)
  {
    var rows := PlanTransfers(diluted, width, mixColumn, iterCount, m);
    assert IsMatrix(rows, m, |diluted|);
    GenPlanTransfersAre(diluted, width, mixColumn, iterCount, m);
    FlattenLength(rows, m, |diluted|);
    FlattenAt(rows, m, |diluted|, c, j);
  }

  lemma GenPlanTransferCount(diluted: Batch, width: nat, mixColumn: int, iterCount: nat, m: nat)
    requires m <= width && IsMatrix(diluted, |diluted|, width)
    ensures |TransfersOf(GenPlan(diluted, width, mixColumn, iterCount, m))| == m * |diluted|
  {
    var rows := PlanTransfers(diluted, width, mixColumn, iterCount, m);
    assert IsMatrix(rows, m, |diluted|);
    GenPlanTransfersAre(diluted, width, mixColumn, iterCount, m);
    FlattenLength(rows, m, |diluted|);
  }

  /** Running column after column, each of which the robot accepts from an
      empty pipette and ends with none, is accepted as a whole. */
  lemma {:induction false} TipStateFlatten(passes: seq<seq<Command>>)
    requires forall c :: 0 <= c < |passes| ==> TipState(passes[c], false) == Some(false)
    ensures TipState(Flatten(passes), false) == Some(false)
  {
    if |passes| > 0 {
      TipStateFlatten(passes[1..]);
      TipStateAppend(passes[0], Flatten(passes[1..]), false);
    }
  }

  /** Either tip policy leaves the pipette empty after each column. */
  lemma ColumnTipSafe(diluted: Batch, width: nat, i: nat, mixColumn: int, iterCount: nat)
    requires IsMatrix(diluted, |diluted|, width) && i < width
    ensures TipState(GenColumnPass(diluted, width, i, mixColumn, iterCount), false) == Some(false)
  {
    if i != mixColumn {
      TipPassIsSafe(SharedTipTransfers(diluted, width, i, mixColumn, iterCount, |diluted|));
    } else {
      OwnTipTransfersTipSafe(diluted, width, i, mixColumn, iterCount, |diluted|);
    }
  }

  /** The robot accepts every command of the emitted program, whichever the
      mixing column. */
  lemma GenPlanTipSafe(diluted: Batch, width: nat, mixColumn: int, iterCount: nat, m: nat)
    requires m <= width && IsMatrix(diluted, |diluted|, width)
    ensures TipState(GenPlan(diluted, width, mixColumn, iterCount, m), false) == Some(false)
  {
    var passes := GenColumnPasses(diluted, width, mixColumn, iterCount, m);
    forall c | 0 <= c < m
      ensures TipState(passes[c], false) == Some(false)
    {
      ColumnTipSafe(diluted, width, c, mixColumn, iterCount);
    }
    TipStateFlatten(passes);
  }

  lemma {:induction false} OwnTipTransfersTipSafe(diluted: Batch, width: nat, i: nat, mixColumn: int, iterCount: nat, k: nat)
    requires IsMatrix(diluted, |diluted|, width) && i < width && k <= |diluted|
    ensures TipState(OwnTipTransfers(diluted, width, i, mixColumn, iterCount, k), false) == Some(false)
  {
    if k > 0 {
      OwnTipTransfersTipSafe(diluted, width, i, mixColumn, iterCount, k - 1);
      var t := GenTransfer(diluted, i, k - 1, mixColumn, iterCount);
      TipStateAppend(OwnTipTransfers(diluted, width, i, mixColumn, iterCount, k - 1), [PickUpTip, t, DropTip], false);
      TipPassIsSafe([t]);
      assert [PickUpTip] + [t] + [DropTip] == [PickUpTip, t, DropTip];
    }
  }

  /** One pass of the column loop of `run`: column `i` of the diluted
      batch, with the tip schedule of the mixing column or the shared tip.
      The lookup `row[current_row]` raises `IndexError` at the first well
      past row H; the commands issued before it stand. */
  method EmitColumn(diluted: Batch, width: nat, i: nat, mixColumn: int, iterCount: nat, startRow: nat, startCol: nat)
    returns (cmds: seq<Command>, ok: bool)
    requires IsMatrix(diluted, |diluted|, width) && i < width
    requires (startRow, startCol) == StartCell(|diluted|, iterCount)
    ensures ok <==> GenBatchInPlate(|diluted|, iterCount)
    ensures ok ==> cmds == GenColumnPass(diluted, width, i, mixColumn, iterCount)
    ensures !ok ==> FirstWellOffPlate(|diluted|, iterCount) < |diluted| &&
                    cmds == AbortedColumnPass(diluted, width, i, mixColumn, iterCount, FirstWellOffPlate(|diluted|, iterCount))
  {
    GenBatchInPlateIff(|diluted|, iterCount);
    cmds := [];
    if i != mixColumn {
      cmds := cmds + [PickUpTip];
    }
    var j := 0;
    while j < |diluted|
      invariant 0 <= j <= |diluted| && j <= FirstWellOffPlate(|diluted|, iterCount)
      invariant i != mixColumn ==> cmds == [PickUpTip] + SharedTipTransfers(diluted, width, i, mixColumn, iterCount, j)
      invariant i == mixColumn ==> cmds == OwnTipTransfers(diluted, width, i, mixColumn, iterCount, j)
    {
      var currentCol := (startCol + j) % 12;
      var currentRow := startRow + (startCol + j) / 12;
      GenCellRowInPlate(|diluted|, iterCount, j);
      if i != mixColumn {
        if currentRow >= PLATE_ROWS {
          return cmds, false;
        }
        SharedTipTransfersStep(diluted, width, i, mixColumn, iterCount, j);
        cmds := cmds + [Transfer(diluted[j][i], i + 1, RowCol(currentRow, currentCol), None, Never)];
      } else {
        // the tip is picked up before the well's row is looked up
        if currentRow >= PLATE_ROWS {
          return cmds + [PickUpTip], false;
        }
        cmds := cmds + [PickUpTip, Transfer(diluted[j][i], i + 1, RowCol(currentRow, currentCol), Some(Mix(2, 20.0)), Never), DropTip];
      }
      j := j + 1;
    }
    if i != mixColumn {
      cmds := cmds + [DropTip];
    }
    ok := true;
  }

  /** The `run` the generated program defines, for `volume` of
      `num_liquids` columns (taken before dilution): columns
      `0..num_liquids` of the diluted batch, the column `num_liquids - 1`
      with a tip per well and mixing. When the batch runs past row H the
      first column stops at the first well off the plate. */
  method EmittedRun(iterCount: nat, volume: Batch, numLiquids: nat, totalVolume: real)
    returns (log: seq<Command>, completed: bool)
    requires IsMatrix(volume, |volume|, numLiquids)
    ensures completed <==> GenBatchInPlate(|volume|, iterCount)
    ensures completed ==> log == GenPlan(Dilute(volume, totalVolume), numLiquids + 1, numLiquids - 1, iterCount, numLiquids + 1)
    ensures !completed ==>
      && FirstWellOffPlate(|volume|, iterCount) < |volume|
      && log == AbortedColumnPass(Dilute(volume, totalVolume), numLiquids + 1, 0, numLiquids - 1, iterCount,
                                  FirstWellOffPlate(|volume|, iterCount))
  {
    var diluted := Dilute(volume, totalVolume);
    assert IsMatrix(diluted, |diluted|, numLiquids + 1) by {
      DiluteShape(volume, |volume|, numLiquids, totalVolume);
    }
    log, completed := EmitColumns(diluted, numLiquids + 1, numLiquids - 1, iterCount);
  }

  lemma GenPlanStep(diluted: Batch, width: nat, mixColumn: int, iterCount: nat, i: nat,
                    log: seq<Command>, cmds: seq<Command>)
    requires i < width && IsMatrix(diluted, |diluted|, width)
    requires log == GenPlan(diluted, width, mixColumn, iterCount, i)
    requires cmds == GenColumnPass(diluted, width, i, mixColumn, iterCount)
    ensures log + cmds == GenPlan(diluted, width, mixColumn, iterCount, i + 1)
  {
    var before := GenColumnPasses(diluted, width, mixColumn, iterCount, i);
    assert GenColumnPasses(diluted, width, mixColumn, iterCount, i + 1) == before + [cmds];
    FlattenSnoc(before, cmds);
  }

  /** The column loop of `run` over a diluted batch of `width` columns.
      Every column addresses the same wells, so a batch past row H fails in
      the first column. */
  method EmitColumns(diluted: Batch, width: nat, mixColumn: int, iterCount: nat) returns (log: seq<Command>, completed: bool)
    requires IsMatrix(diluted, |diluted|, width)
    ensures completed <==> width == 0 || GenBatchInPlate(|diluted|, iterCount)
    ensures completed ==> log == GenPlan(diluted, width, mixColumn, iterCount, width)
    ensures !completed ==>
      && width > 0 && FirstWellOffPlate(|diluted|, iterCount) < |diluted|
      && log == AbortedColumnPass(diluted, width, 0, mixColumn, iterCount, FirstWellOffPlate(|diluted|, iterCount))
  {
    var start := StartCell(|diluted|, iterCount);
    log := [];
    var i := 0;
    while i < width
      invariant 0 <= i <= width
      invariant log == GenPlan(diluted, width, mixColumn, iterCount, i)
      invariant i > 0 ==> GenBatchInPlate(|diluted|, iterCount)
    {
      var cmds, ok := EmitColumn(diluted, width, i, mixColumn, iterCount, start.0, start.1);
      if !ok {
        assert GenColumnPasses(diluted, width, mixColumn, iterCount, 0) == [];
        return cmds, false;
      }
      GenPlanStep(diluted, width, mixColumn, iterCount, i, log, cmds);
      log := log + cmds;
      i := i + 1;
    }
    completed := true;
  }

  /** As written the emitted program mixes column `num_liquids - 1`, which
      after dilution is the last liquid but one: with one or more liquids,
      the last column dispensed never mixes, and the mixing happens before
      the final liquid is in the well. */
  lemma GeneratedProgramMixesTooEarly(diluted: Batch, numLiquids: nat, iterCount: nat, j: nat)
    requires numLiquids >= 1 && IsMatrix(diluted, |diluted|, numLiquids + 1) && j < |diluted|
    ensures GenTransfer(diluted, numLiquids, j, numLiquids - 1, iterCount).mix == None
    ensures GenTransfer(diluted, numLiquids - 1, j, numLiquids - 1, iterCount).mix == Some(Mix(2, 20.0))
  {
  }

  /** Corrected: mixing on column `num_liquids`, the last one dispensed,
      mixes every well once its last liquid is in, and nothing else mixes;
      the program stays acceptable to the robot. */
  lemma CorrectedProgramMixesLast(diluted: Batch, numLiquids: nat, iterCount: nat, c: nat, j: nat)
    requires IsMatrix(diluted, |diluted|, numLiquids + 1)
    requires c <= numLiquids && j < |diluted|
    ensures var t := TransfersOf(GenPlan(diluted, numLiquids + 1, numLiquids, iterCount, numLiquids + 1));
            |t| == (numLiquids + 1) * |diluted| &&
            c * |diluted| + j < |t| &&
            t[c * |diluted| + j].Transfer? &&
            (t[c * |diluted| + j].mix != None <==> c == numLiquids) &&
            (c == numLiquids ==> t[c * |diluted| + j].mix == Some(Mix(2, 20.0)))
    ensures TipState(GenPlan(diluted, numLiquids + 1, numLiquids, iterCount, numLiquids + 1), false) == Some(false)
  {
    GenPlanTransfers(diluted, numLiquids + 1, numLiquids, iterCount, numLiquids + 1, c, j);
    GenPlanTipSafe(diluted, numLiquids + 1, numLiquids, iterCount, numLiquids + 1);
  }
}
