/**
  The two passes over billing rows: known usage is estimated first and fills the table of energy,
  then unknown usage is estimated in proportion to it.
 */
module UnknownUsage {
  import opened Options
  import opened Calendar
  import opened ExtendedReals
  import opened Billing
  import opened KilowattHours
  import S = Sums

  /** How a row's usage type is understood; some known usage has no estimate, and some is kept out of the table. */
  datatype Usage = Unsupported | Unknown | Known(estimate: Option<KnownUsage>, accumulated: bool)

  datatype KnownUsage = KnownUsage(kilowattHours: real, co2e: real, usesAverageCPUConstant: bool) {
    function ToFootprint(): Footprint { Footprint(Finite(kilowattHours), Finite(co2e), usesAverageCPUConstant) }
  }

  datatype Line = Line(row: UsageRow, usage: Usage)

  // ----- the lines by kind -----

  function KnownEstimates(lines: seq<Line>): seq<(Row, Footprint)> {
    if lines == [] then []
    else
      var line := lines[|lines| - 1];
      KnownEstimates(lines[..|lines| - 1])
      + EstimateOf(line)
  }

  function KnownAmounts(lines: seq<Line>, mode: AccumulateBy): seq<(UsageRow, real, AccumulateBy)> {
    if lines == [] then []
    else
      var line := lines[|lines| - 1];
      KnownAmounts(lines[..|lines| - 1], mode)
      + AmountOfLine(line, mode)
  }

  function UnknownRows(lines: seq<Line>): seq<UsageRow> {
    if lines == [] then []
    else
      var line := lines[|lines| - 1];
      UnknownRows(lines[..|lines| - 1]) + if line.usage.Unknown? then [line.row] else []
  }

  /** `estimate` for one unknown row: its service is not passed on, so the totals decide. */
  function EstimateUnknown(table: ServiceTable, mode: AccumulateBy, row: UsageRow): ExtendedReal
    requires TOTAL in table
  {
    EstimateKilowattHours(table, None, row.usageUnit, mode, row.Accumulated(mode))
  }

  function UnknownEstimate(table: ServiceTable, mode: AccumulateBy, factor: string -> real,
                           row: UsageRow): (Row, Footprint)
    requires TOTAL in table
  {
    (row.billing, UnknownFootprint(EstimateUnknown(table, mode, row), factor, row))
  }

  function UnknownEstimates(table: ServiceTable, mode: AccumulateBy, factor: string -> real,
                            rows: seq<UsageRow>): (r: seq<(Row, Footprint)>)
    requires TOTAL in table
    ensures |r| == |rows| && forall i :: 0 <= i < |r| ==> r[i] == UnknownEstimate(table, mode, factor, rows[i])
  {
    seq(|rows|, i requires 0 <= i < |rows| => UnknownEstimate(table, mode, factor, rows[i]))
  }

  /** Emissions by the factor of the row's region. */
  function UnknownFootprint(kilowattHours: ExtendedReal, factor: string -> real, row: UsageRow): Footprint {
    Footprint(kilowattHours, kilowattHours.Times(factor(row.billing.region)), false)
  }

  /** All estimates of a run: those of known lines, then, if there are any, those of unknown ones. */
  function AllEstimates(table: ServiceTable, mode: AccumulateBy, factor: string -> real,
                        lines: seq<Line>): seq<(Row, Footprint)>
    requires TOTAL in table
  {
    KnownEstimates(lines)
      + if KnownEstimates(lines) == [] then [] else UnknownEstimates(table, mode, factor, UnknownRows(lines))
  }

  function EstimateOf(line: Line): seq<(Row, Footprint)> {
    if line.usage.Known? && line.usage.estimate.Some?
      then [(line.row.billing, line.usage.estimate.value.ToFootprint())] else []
  }

  function AmountOfLine(line: Line, mode: AccumulateBy): seq<(UsageRow, real, AccumulateBy)> {
    if line.usage.Known? && line.usage.estimate.Some? && line.usage.accumulated
    then [(line.row, line.usage.estimate.value.kilowattHours, mode)] else []
  }

  /** `getFootprintEstimateFromUsageRow` and what follows it, for a row that is known. */
  method EstimateLine(line: Line, table: KilowattHourTable, mode: AccumulateBy, results: EstimationResults)
    requires TOTAL in table.table && results.Valid()
    modifies table, results, results.days, results.cells.Values
    ensures TOTAL in table.table && results.Valid()
    ensures fresh(results.cells.Values - old(results.cells.Values))
    ensures forall d :: d in results.days && d !in old(results.days) ==> fresh(d)
    ensures forall u, q ::
              ValueAt(table.table, TOTAL, u, q)
                == ValueAt(old(table.table), TOTAL, u, q) + TotalOf(AmountOfLine(line, mode), u, q)
    ensures results.Sums() == AddRows(old(results.Sums()), EstimateOf(line), results.tagNames)
    ensures results.FirstLabels() == LabelRows(old(results.FirstLabels()), EstimateOf(line), results.tagNames)
  {
    hide EstimationResults.Valid, EstimationResults.Sums, EstimationResults.FirstLabels, AddTo, AddRows, Label,
         LabelRows, ValueAt, Contribution, TotalOf, AmountOfLine, EstimateOf, CellOf, TotalsOf;
    LineTotals(line, mode);
    LineSums(line, results.Sums(), results.FirstLabels(), results.tagNames);
    if line.usage.Known? && line.usage.estimate.Some? {
      var footprint := line.usage.estimate.value.ToFootprint();
      if line.usage.accumulated {
        table.AccumulateKilowattHours(line.row, line.usage.estimate.value.kilowattHours, mode);
      }
      assert results.Sums() == old(results.Sums());
      results.AppendOrAccumulate(line.row.billing, footprint);
    }
  }

  predicate IsAccumulated(line: Line) {
    line.usage.Known? && line.usage.estimate.Some? && line.usage.accumulated
  }

  lemma {:induction false} LineTotals(line: Line, mode: AccumulateBy)
    ensures forall u, q :: TotalOf(AmountOfLine(line, mode), u, q) ==
              if IsAccumulated(line) then
                (var once := Contribution(line.row, line.usage.estimate.value.kilowattHours, mode, u, q);
                 once + if line.row.billing.serviceName == TOTAL then once else 0.0)
              else 0.0
  {
    hide Contribution;
    assert IsAccumulated(line) ==> AmountOfLine(line, mode)[..0] == [];
  }

  lemma {:induction false} LineSums(line: Line, table: Table, labels: LabelTable, tagNames: seq<string>)
    ensures AddRows(table, EstimateOf(line), tagNames) ==
              if line.usage.Known? && line.usage.estimate.Some?
              then AddTo(table, CellOf(line.row.billing, tagNames),
                         TotalsOf(line.row.billing, line.usage.estimate.value.ToFootprint()))
              else table
    ensures LabelRows(labels, EstimateOf(line), tagNames) ==
              if line.usage.Known? && line.usage.estimate.Some?
              then Label(labels, CellOf(line.row.billing, tagNames), LabelsOf(line.row.billing)) else labels
  {
    hide AddTo, CellOf, TotalsOf, Label;
    if line.usage.Known? && line.usage.estimate.Some? { OneRow(table, labels, EstimateOf(line)[0], tagNames); }
  }

  /** The first pass: known rows are appended and accumulated as they come, unknown rows are put aside. */
  method EstimateKnown(lines: seq<Line>, table: KilowattHourTable, mode: AccumulateBy, results: EstimationResults)
    returns (unknownRows: seq<UsageRow>, anyKnown: bool)
    requires TOTAL in table.table && results.Valid()
    modifies table, results, results.days, results.cells.Values
    ensures TOTAL in table.table && results.Valid()
    ensures fresh(results.cells.Values - old(results.cells.Values))
    ensures forall d :: d in results.days && d !in old(results.days) ==> fresh(d)
    ensures forall u, q :: ValueAt(table.table, TOTAL, u, q)
              == ValueAt(old(table.table), TOTAL, u, q) + TotalOf(KnownAmounts(lines, mode), u, q)
    ensures unknownRows == UnknownRows(lines) && (anyKnown <==> KnownEstimates(lines) != [])
    ensures results.Sums() == AddRows(old(results.Sums()), KnownEstimates(lines), results.tagNames)
    ensures results.FirstLabels() == LabelRows(old(results.FirstLabels()), KnownEstimates(lines), results.tagNames)
  {
    hide EstimationResults.Valid, EstimationResults.Sums, EstimationResults.FirstLabels, AddTo, AddRows, Label,
         LabelRows, ValueAt, TotalOf, AmountOfLine, EstimateOf, KnownAmounts, KnownEstimates;
    unknownRows, anyKnown := [], false;
    NoLines(old(results.Sums()), old(results.FirstLabels()), results.tagNames, mode);
    for n := 0 to |lines|
      invariant TOTAL in table.table && results.Valid()
      invariant fresh(results.cells.Values - old(results.cells.Values))
      invariant forall d :: d in results.days && d !in old(results.days) ==> fresh(d)
      invariant forall u, q :: ValueAt(table.table, TOTAL, u, q)
                  == ValueAt(old(table.table), TOTAL, u, q) + TotalOf(KnownAmounts(lines[..n], mode), u, q)
      invariant unknownRows == UnknownRows(lines[..n]) && (anyKnown <==> KnownEstimates(lines[..n]) != [])
      invariant results.Sums() == AddRows(old(results.Sums()), KnownEstimates(lines[..n]), results.tagNames)
      invariant results.FirstLabels()
                  == LabelRows(old(results.FirstLabels()), KnownEstimates(lines[..n]), results.tagNames)
    {
      OneLine(lines, n, mode);
      RowsInTwoParts(old(results.Sums()), old(results.FirstLabels()), KnownEstimates(lines[..n]), EstimateOf(lines[n]),
                     results.tagNames);
      assert forall i :: 0 <= i < |results.days| ==>
        results.days[i] in results.days && (results.days[i] in old(results.days) || fresh(results.days[i]));
      EstimateLine(lines[n], table, mode, results);
      if lines[n].usage.Unknown? { unknownRows := unknownRows + [lines[n].row]; }
      if lines[n].usage.Known? && lines[n].usage.estimate.Some? { anyKnown := true; }
    }
    assert lines[..|lines|] == lines;
  }

  lemma {:induction false} NoLines(table: Table, labels: LabelTable, tagNames: seq<string>, mode: AccumulateBy)
    ensures forall lines: seq<Line> :: lines[..0] == []
    ensures KnownEstimates([]) == [] && KnownAmounts([], mode) == [] && UnknownRows([]) == []
    ensures AddRows(table, [], tagNames) == table && LabelRows(labels, [], tagNames) == labels && forall u, q ::
              TotalOf([], u, q) == 0.0
  {
  }

  lemma {:induction false} OneLine(lines: seq<Line>, n: nat, mode: AccumulateBy)
    requires n < |lines|
    ensures UnknownRows(lines[..n + 1])
              == UnknownRows(lines[..n]) + (if lines[n].usage.Unknown? then [lines[n].row] else [])
    ensures KnownEstimates(lines[..n + 1]) == KnownEstimates(lines[..n]) + EstimateOf(lines[n])
    ensures |EstimateOf(lines[n])| == if lines[n].usage.Known? && lines[n].usage.estimate.Some? then 1 else 0
    ensures forall u, q :: TotalOf(KnownAmounts(lines[..n + 1], mode), u, q)
              == TotalOf(KnownAmounts(lines[..n], mode), u, q) + TotalOf(AmountOfLine(lines[n], mode), u, q)
  {
    assert lines[..n + 1][..n] == lines[..n];
    var before, more := KnownAmounts(lines[..n], mode), AmountOfLine(lines[n], mode);
    forall u, q ensures TotalOf(before + more, u, q) == TotalOf(before, u, q) + TotalOf(more, u, q) {
      if more == [] {
        assert before + more == before;
      } else {
        assert (before + more)[..|before|] == before && more[..0] == [];
      }
    }
  }

  /** The second pass: each unknown row is estimated from the totals and appended. */
  method EstimateUnknownRows(unknownRows: seq<UsageRow>, table: ServiceTable, mode: AccumulateBy,
                             factor: string -> real, results: EstimationResults)
    requires TOTAL in table && results.Valid()
    modifies results, results.days, results.cells.Values
    ensures results.Valid()
    ensures results.Sums()
              == AddRows(old(results.Sums()), UnknownEstimates(table, mode, factor, unknownRows), results.tagNames)
    ensures results.FirstLabels()
              == LabelRows(old(results.FirstLabels()), UnknownEstimates(table, mode, factor, unknownRows),
                           results.tagNames)
  {
    hide EstimationResults.Valid, EstimationResults.Sums, EstimationResults.FirstLabels, AddTo, AddRows, Label,
         LabelRows, EstimateUnknown, TotalsOf, CellOf, UnknownFootprint;
    NoLines(old(results.Sums()), old(results.FirstLabels()), results.tagNames, mode);
    ghost var estimates := UnknownEstimates(table, mode, factor, unknownRows);
    for n := 0 to |unknownRows|
      invariant results.Valid()
      invariant fresh(results.cells.Values - old(results.cells.Values))
      invariant forall d :: d in results.days && d !in old(results.days) ==> fresh(d)
      invariant results.Sums() == AddRows(old(results.Sums()), estimates[..n], results.tagNames)
      invariant results.FirstLabels() == LabelRows(old(results.FirstLabels()), estimates[..n], results.tagNames)
    {
      var row := unknownRows[n];
      var footprint := UnknownFootprint(EstimateUnknown(table, mode, row), factor, row);
      assert estimates[n] == (row.billing, footprint);
      RowsInTwoParts(old(results.Sums()), old(results.FirstLabels()), estimates[..n], [estimates[n]], results.tagNames);
      OneRow(results.Sums(), results.FirstLabels(), estimates[n], results.tagNames);
      assert estimates[..n + 1] == estimates[..n] + [estimates[n]];
      assert forall i :: 0 <= i < |results.days| ==>
        results.days[i] in results.days && (results.days[i] in old(results.days) || fresh(results.days[i]));
      results.AppendOrAccumulate(row.billing, footprint);
    }
    assert estimates[..|unknownRows|] == estimates;
  }

  /**
    `getEstimates`: both passes, the second only if anything was known. The outcome depends on the
    known rows and the unknown rows, not on how they are mixed.
   */
  method GetEstimates(lines: seq<Line>, table: KilowattHourTable, mode: AccumulateBy, factor: string -> real,
                      tagNames: seq<string>, grouping: GroupBy)
    returns (results: EstimationResults)
    requires TOTAL in table.table
    modifies table
    ensures TOTAL in table.table && fresh(results) && results.Valid() && results.tagNames == tagNames &&
            results.grouping == grouping
    ensures forall u, q :: ValueAt(table.table, TOTAL, u, q)
              == ValueAt(old(table.table), TOTAL, u, q) + TotalOf(KnownAmounts(lines, mode), u, q)
    ensures results.Sums() == AddRows(map[], AllEstimates(table.table, mode, factor, lines), tagNames)
    ensures results.FirstLabels() == LabelRows(map[], AllEstimates(table.table, mode, factor, lines), tagNames)
  {
    hide EstimationResults.Valid, EstimationResults.Sums, EstimationResults.FirstLabels, AddTo, AddRows, Label,
         LabelRows, ValueAt, TotalOf, UnknownEstimates, KnownEstimates, UnknownRows, KnownAmounts;
    results := new EstimationResults(tagNames, grouping);
    ghost var before := results.days;
    var unknownRows, anyKnown := EstimateKnown(lines, table, mode, results);
    NoLines(results.Sums(), results.FirstLabels(), tagNames, mode);
    assert before == [];
    forall i | 0 <= i < |results.days| ensures fresh(results.days[i]) {
      assert results.days[i] in results.days;
      assert results.days[i] !in before;
    }
    if anyKnown {
      RowsInTwoParts(map[], map[], KnownEstimates(lines), UnknownEstimates(table.table, mode, factor, unknownRows),
                     tagNames);
      EstimateUnknownRows(unknownRows, table.table, mode, factor, results);
    } else {
      assert KnownEstimates(lines) + [] == KnownEstimates(lines);
    }
  }

  /** What accumulated rows add to the row of totals. */
  function TotalOf(amounts: seq<(UsageRow, real, AccumulateBy)>, unit: string, q: Quantity): real {
    if amounts == [] then 0.0
    else
      var (row, kwh, mode) := amounts[|amounts| - 1];
      TotalOf(amounts[..|amounts| - 1], unit, q)
      + Contribution(row, kwh, mode, unit, q)
        + if row.billing.serviceName == TOTAL then Contribution(row, kwh, mode, unit, q) else 0.0
  }

  // ----- intensity -----

  /** The energy that one row, and that all rows of a unit, are estimated at. */
  function UnknownEnergy(table: ServiceTable, mode: AccumulateBy, unit: string, rows: seq<UsageRow>): real
    requires TOTAL in table
  {
    if rows == [] then 0.0
    else UnknownEnergy(table, mode, unit, rows[..|rows| - 1]) + RowEnergy(table, mode, unit, rows[|rows| - 1])
  }

  function UnknownAmount(mode: AccumulateBy, unit: string, rows: seq<UsageRow>): real {
    if rows == [] then 0.0
    else UnknownAmount(mode, unit, rows[..|rows| - 1]) + RowAmount(mode, unit, rows[|rows| - 1])
  }

  /**
    For a usage unit whose known amount is not zero, unknown energy stands to unknown amount as known
    energy stands to known amount, however the unknown rows are spread.
   */
  lemma {:induction false} IntensityIsKept(table: ServiceTable, mode: AccumulateBy, unit: string, rows: seq<UsageRow>)
    requires TOTAL in table && ValueAt(table, TOTAL, unit, Accumulated(mode)) != 0.0
    ensures UnknownEnergy(table, mode, unit, rows) * ValueAt(table, TOTAL, unit, Accumulated(mode))
         == ValueAt(table, TOTAL, unit, Energy) * UnknownAmount(mode, unit, rows)
  {
    if rows != [] {
      var n := |rows| - 1;
      var energy, known := ValueAt(table, TOTAL, unit, Energy), ValueAt(table, TOTAL, unit, Accumulated(mode));
      IntensityIsKept(table, mode, unit, rows[..n]);
      OneRowIsProportional(table, mode, unit, rows[n]);
      Distribute(UnknownEnergy(table, mode, unit, rows[..n]), RowEnergy(table, mode, unit, rows[n]), known);
      Distribute(UnknownAmount(mode, unit, rows[..n]), RowAmount(mode, unit, rows[n]), energy);
    }
  }

  function RowEnergy(table: ServiceTable, mode: AccumulateBy, unit: string, row: UsageRow): real
    requires TOTAL in table
  {
    var estimate := EstimateUnknown(table, mode, row);
    if row.usageUnit == unit && estimate.Finite? then estimate.value else 0.0
  }

  /** The cost of a row, or its amount, whichever is accumulated. */
  function AmountBy(mode: AccumulateBy, row: UsageRow): real {
    if mode == ByCost then row.billing.cost else row.usageAmount
  }

  function RowAmount(mode: AccumulateBy, unit: string, row: UsageRow): real {
    if row.usageUnit == unit then AmountBy(mode, row) else 0.0
  }

  lemma {:induction false} OneRowIsProportional(table: ServiceTable, mode: AccumulateBy, unit: string, row: UsageRow)
    requires TOTAL in table && ValueAt(table, TOTAL, unit, Accumulated(mode)) != 0.0
    ensures RowEnergy(table, mode, unit, row) * ValueAt(table, TOTAL, unit, Accumulated(mode))
         == RowAmount(mode, unit, row) * ValueAt(table, TOTAL, unit, Energy)
  {
    hide EstimateKilowattHours, ValueAt;
    EstimateIsShare(table, None, row.usageUnit, mode, AmountBy(mode, row));
    NothingWithoutUnit(table, row.usageUnit, mode);
  }

  lemma {:induction false} NothingWithoutUnit(table: ServiceTable, unit: string, mode: AccumulateBy)
    requires TOTAL in table
    ensures unit !in table[TOTAL] ==> ValueAt(table, TOTAL, unit, Accumulated(mode)) == 0.0
  {
  }

  lemma {:induction false} Distribute(a: real, b: real, c: real)
    ensures (a + b) * c == a * c + b * c
  {
  }

  /**
    An unknown row has a finite estimate exactly when its unit is unknown too, and then it is zero, or has
    a known amount other than zero.
   */
  lemma {:induction false} FiniteEstimate(table: ServiceTable, mode: AccumulateBy, row: UsageRow)
    requires TOTAL in table
    ensures EstimateUnknown(table, mode, row).Finite? <==>
              row.usageUnit !in table[TOTAL] || ValueAt(table, TOTAL, row.usageUnit, Accumulated(mode)) != 0.0
    ensures row.usageUnit !in table[TOTAL] ==> EstimateUnknown(table, mode, row) == Finite(0.0)
  {
  }

  /**
    What is appended for an unknown row: its own billing data, the share of energy, emissions that are
    finite exactly when that is and then follow from it by the region's factor, and no average used.
   */
  lemma {:induction false} AppendedUnknown(table: ServiceTable, mode: AccumulateBy, factor: string -> real,
                                           rows: seq<UsageRow>, i: nat)
    requires TOTAL in table && i < |rows|
    ensures var (billing, footprint) := UnknownEstimates(table, mode, factor, rows)[i];
            billing == rows[i].billing && !footprint.usesAverageCPUConstant &&
            (if rows[i].usageUnit in table[TOTAL]
             then IsShare(table, TOTAL, rows[i].usageUnit, mode, AmountBy(mode, rows[i]), footprint.kilowattHours)
             else footprint.kilowattHours == Finite(0.0)) &&
            (footprint.co2e.Finite? <==> footprint.kilowattHours.Finite?) &&
            (footprint.co2e.Finite? ==>
               footprint.co2e.value == footprint.kilowattHours.value * factor(rows[i].billing.region))
  {
    hide IsShare, EstimateKilowattHours;
    EstimateIsShare(table, None, rows[i].usageUnit, mode, AmountBy(mode, rows[i]));
  }

  /** All unknown rows have finite estimates exactly when each of them has. */
  lemma {:induction false} FiniteEstimates(table: ServiceTable, mode: AccumulateBy, factor: string -> real,
                                           rows: seq<UsageRow>)
    requires TOTAL in table
    ensures (forall i :: 0 <= i < |rows| ==>
               UnknownEstimates(table, mode, factor, rows)[i].1.kilowattHours.Finite?) <==>
            forall i :: 0 <= i < |rows| ==>
              rows[i].usageUnit !in table[TOTAL] || ValueAt(table, TOTAL, rows[i].usageUnit, Accumulated(mode)) != 0.0
  {
    hide ValueAt, EstimateUnknown;
    forall i | 0 <= i < |rows|
      ensures UnknownEstimates(table, mode, factor, rows)[i].1.kilowattHours.Finite? <==>
                rows[i].usageUnit !in table[TOTAL] || ValueAt(table, TOTAL, rows[i].usageUnit, Accumulated(mode)) != 0.0
    {
      FiniteEstimate(table, mode, rows[i]);
    }
  }

  /** What the unknown rows of a unit are estimated at, added up from the estimates that are appended. */
  function EnergyOfUnit(rows: seq<UsageRow>, estimates: seq<(Row, Footprint)>, unit: string): ExtendedReal
    requires |rows| == |estimates|
  {
    if rows == [] then Finite(0.0)
    else
      var n := |rows| - 1;
      var before := EnergyOfUnit(rows[..n], estimates[..n], unit);
      if rows[n].usageUnit == unit then before.Plus(estimates[n].1.kilowattHours) else before
  }

  lemma {:induction false} EnergyIsUnknownEnergy(table: ServiceTable, mode: AccumulateBy, factor: string -> real,
                                                 unit: string, rows: seq<UsageRow>)
    requires TOTAL in table && ValueAt(table, TOTAL, unit, Accumulated(mode)) != 0.0
    ensures EnergyOfUnit(rows, UnknownEstimates(table, mode, factor, rows), unit)
              == Finite(UnknownEnergy(table, mode, unit, rows))
  {
    hide EstimateUnknown, ValueAt;
    if rows != [] {
      var n := |rows| - 1;
      EnergyIsUnknownEnergy(table, mode, factor, unit, rows[..n]);
      assert UnknownEstimates(table, mode, factor, rows)[..n] == UnknownEstimates(table, mode, factor, rows[..n]);
      FiniteEstimate(table, mode, rows[n]);
    }
  }

  /**
    A whole run that starts with empty totals: for a usage unit with a known amount other than zero, the
    energy appended for its unknown rows stands to their amount as the known energy of the run
    stands to its known amount.
   */
  lemma {:induction false} RunKeepsIntensity(before: ServiceTable, after: ServiceTable, mode: AccumulateBy,
                                             factor: string -> real, lines: seq<Line>, unit: string)
    requires TOTAL in after && forall q :: ValueAt(before, TOTAL, unit, q) == 0.0
    requires forall q :: ValueAt(after, TOTAL, unit, q)
               == ValueAt(before, TOTAL, unit, q) + TotalOf(KnownAmounts(lines, mode), unit, q)
    requires TotalOf(KnownAmounts(lines, mode), unit, Accumulated(mode)) != 0.0
    ensures var rows := UnknownRows(lines);
            var energy := EnergyOfUnit(rows, UnknownEstimates(after, mode, factor, rows), unit);
            energy.Finite? &&
            energy.value * TotalOf(KnownAmounts(lines, mode), unit, Accumulated(mode))
              == TotalOf(KnownAmounts(lines, mode), unit, Energy) * UnknownAmount(mode, unit, rows)
  {
    hide ValueAt, TotalOf, UnknownEnergy, EnergyOfUnit, UnknownEstimates, UnknownAmount;
    EnergyIsUnknownEnergy(after, mode, factor, unit, UnknownRows(lines));
    IntensityIsKept(after, mode, unit, UnknownRows(lines));
  }

  // ----- emissions -----

  /** The unknown rows of a unit in a region. */
  predicate IsIn(row: UsageRow, unit: string, region: string) { row.usageUnit == unit && row.billing.region == region }

  /** Their emissions, added up from the estimates that are appended. */
  function EmissionsOfUnit(rows: seq<UsageRow>, estimates: seq<(Row, Footprint)>, unit: string,
                           region: string): ExtendedReal
    requires |rows| == |estimates|
  {
    if rows == [] then Finite(0.0)
    else
      var n := |rows| - 1;
      var before := EmissionsOfUnit(rows[..n], estimates[..n], unit, region);
      if IsIn(rows[n], unit, region) then before.Plus(estimates[n].1.co2e) else before
  }

  function AmountIn(mode: AccumulateBy, unit: string, region: string, rows: seq<UsageRow>): real {
    if rows == [] then 0.0
    else
      var n := |rows| - 1;
      AmountIn(mode, unit, region, rows[..n]) + if IsIn(rows[n], unit, region) then AmountBy(mode, rows[n]) else 0.0
  }

  /** Emissions of unknown rows follow from known energy by their amount and their region's factor. */
  lemma {:induction false} EmissionsAreProportional(table: ServiceTable, mode: AccumulateBy, factor: string -> real,
                                                    unit: string, region: string, rows: seq<UsageRow>)
    requires TOTAL in table && ValueAt(table, TOTAL, unit, Accumulated(mode)) != 0.0
    ensures var emissions := EmissionsOfUnit(rows, UnknownEstimates(table, mode, factor, rows), unit, region);
            emissions.Finite? &&
            emissions.value * ValueAt(table, TOTAL, unit, Accumulated(mode))
              == ValueAt(table, TOTAL, unit, Energy) * AmountIn(mode, unit, region, rows) * factor(region)
  {
    hide ValueAt, UnknownEstimate, UnknownEstimates, IsIn, AmountBy, EmissionsOfUnit, AmountIn;
    var energy, known := ValueAt(table, TOTAL, unit, Energy), ValueAt(table, TOTAL, unit, Accumulated(mode));
    if rows == [] {
      NoEmissions(UnknownEstimates(table, mode, factor, []), mode, unit, region, energy, known, factor(region));
    } else {
      var n := |rows| - 1;
      EmissionsAreProportional(table, mode, factor, unit, region, rows[..n]);
      LastEmissions(table, mode, factor, unit, region, rows);
      if IsIn(rows[n], unit, region) {
        EmissionsOfOne(table, mode, factor, unit, region, rows[n]);
        var before := EmissionsOfUnit(rows[..n], UnknownEstimates(table, mode, factor, rows[..n]), unit, region);
        MoreEmissions(before.value, UnknownEstimate(table, mode, factor, rows[n]).1.co2e.value,
                      AmountIn(mode, unit, region, rows[..n]), AmountBy(mode, rows[n]), known, energy, factor(region));
      }
    }
  }

  lemma {:induction false} LastEmissions(table: ServiceTable, mode: AccumulateBy, factor: string -> real, unit: string,
                                         region: string, rows: seq<UsageRow>)
    requires TOTAL in table && rows != []
    ensures var n := |rows| - 1;
            var before := EmissionsOfUnit(rows[..n], UnknownEstimates(table, mode, factor, rows[..n]), unit, region);
            var total := EmissionsOfUnit(rows, UnknownEstimates(table, mode, factor, rows), unit, region);
            if IsIn(rows[n], unit, region)
            then total == before.Plus(UnknownEstimate(table, mode, factor, rows[n]).1.co2e) &&
                 AmountIn(mode, unit, region, rows) == AmountIn(mode, unit, region, rows[..n]) + AmountBy(mode, rows[n])
            else total == before && AmountIn(mode, unit, region, rows) == AmountIn(mode, unit, region, rows[..n])
  {
    hide UnknownEstimate, IsIn, AmountBy;
    var n := |rows| - 1;
    assert UnknownEstimates(table, mode, factor, rows)[..n] == UnknownEstimates(table, mode, factor, rows[..n]);
  }

  lemma {:induction false} NoEmissions(estimates: seq<(Row, Footprint)>, mode: AccumulateBy, unit: string,
                                       region: string, energy: real, known: real, factor: real)
    requires estimates == []
    ensures EmissionsOfUnit([], estimates, unit, region) == Finite(0.0)
    ensures 0.0 * known == energy * AmountIn(mode, unit, region, []) * factor
  {
    assert energy * 0.0 == 0.0;
  }

  lemma {:induction false} EmissionsOfOne(table: ServiceTable, mode: AccumulateBy, factor: string -> real, unit: string,
                                          region: string, row: UsageRow)
    requires TOTAL in table && ValueAt(table, TOTAL, unit, Accumulated(mode)) != 0.0 && IsIn(row, unit, region)
    ensures var co2e := UnknownEstimate(table, mode, factor, row).1.co2e;
            co2e.Finite? && co2e.value * ValueAt(table, TOTAL, unit, Accumulated(mode))
                              == ValueAt(table, TOTAL, unit, Energy) * AmountBy(mode, row) * factor(region)
  {
    hide ValueAt, UnknownEstimate, AmountBy;
    NothingWithoutUnit(table, unit, mode);
    AppendedUnknown(table, mode, factor, [row], 0);
    var energy := UnknownEstimate(table, mode, factor, row).1.kilowattHours;
    ByFactor(energy.value, ValueAt(table, TOTAL, unit, Accumulated(mode)), factor(region),
             ValueAt(table, TOTAL, unit, Energy) * AmountBy(mode, row));
  }

  lemma {:induction false} ByFactor(kwh: real, known: real, factor: real, product: real)
    requires kwh * known == product
    ensures kwh * factor * known == product * factor
  {
  }

  lemma {:induction false} MoreEmissions(before: real, co2e: real, amount: real, more: real, known: real, energy: real,
                                         factor: real)
    requires before * known == energy * amount * factor && co2e * known == energy * more * factor
    ensures (before + co2e) * known == energy * (amount + more) * factor
  {
    assert (before + co2e) * known == before * known + co2e * known;
    assert energy * (amount + more) == energy * amount + energy * more;
    Distribute(energy * amount, energy * more, factor);
  }

  /**
    A whole run that starts with empty totals: for a usage unit with a known amount other than zero, the
    emissions appended for its unknown rows of a region stand to their amount as the known energy of the
    run, by the region's factor, stands to its known amount.
   */
  lemma {:induction false} RunKeepsEmissions(before: ServiceTable, after: ServiceTable, mode: AccumulateBy,
                                             factor: string -> real, lines: seq<Line>, unit: string, region: string)
    requires TOTAL in after && forall q :: ValueAt(before, TOTAL, unit, q) == 0.0
    requires forall q :: ValueAt(after, TOTAL, unit, q)
               == ValueAt(before, TOTAL, unit, q) + TotalOf(KnownAmounts(lines, mode), unit, q)
    requires TotalOf(KnownAmounts(lines, mode), unit, Accumulated(mode)) != 0.0
    ensures var rows := UnknownRows(lines);
            var emissions := EmissionsOfUnit(rows, UnknownEstimates(after, mode, factor, rows), unit, region);
            emissions.Finite? &&
            emissions.value * TotalOf(KnownAmounts(lines, mode), unit, Accumulated(mode))
              == TotalOf(KnownAmounts(lines, mode), unit, Energy) * AmountIn(mode, unit, region, rows) * factor(region)
  {
    hide ValueAt, TotalOf, EmissionsOfUnit, UnknownEstimates, AmountIn;
    EmissionsAreProportional(after, mode, factor, unit, region, UnknownRows(lines));
  }

  // ----- known usage -----

  function AccumulatedIn(unit: string): Line -> bool {
    (line: Line) => IsAccumulated(line) && line.row.usageUnit == unit
  }

  function KnownEnergy(): Line -> real {
    (line: Line) =>
      if line.usage.Known? && line.usage.estimate.Some? then line.usage.estimate.value.kilowattHours else 0.0
  }

  function AmountOfRow(mode: AccumulateBy): Line -> real { (line: Line) => AmountBy(mode, line.row) }

  function NamedTotalIn(unit: string): Line -> bool {
    (line: Line) => AccumulatedIn(unit)(line) && line.row.billing.serviceName == "total"
  }

  /**
    What the lines of a run add to the totals of a unit: the energy and the amounts of its lines that are known, have an
    estimate and are accumulated, and once more those of a service named `total`.
   */
  lemma {:induction false} KnownTotals(lines: seq<Line>, mode: AccumulateBy, unit: string)
    ensures TotalOf(KnownAmounts(lines, mode), unit, Energy)
              == S.Sum(KnownEnergy(), S.Filter(AccumulatedIn(unit), lines))
                 + S.Sum(KnownEnergy(), S.Filter(NamedTotalIn(unit), lines))
    ensures TotalOf(KnownAmounts(lines, mode), unit, Accumulated(mode))
              == S.Sum(AmountOfRow(mode), S.Filter(AccumulatedIn(unit), lines))
                 + S.Sum(AmountOfRow(mode), S.Filter(NamedTotalIn(unit), lines))
  {
    hide S.Sum, TotalOf, KnownAmounts;
    if lines == [] {
      NoTotals(mode, unit);
    } else {
      var n := |lines| - 1;
      KnownTotals(lines[..n], mode, unit);
      assert lines[..n + 1] == lines;
      OneLine(lines, n, mode);
      LineTotals(lines[n], mode);
      OneMore(KnownEnergy(), AccumulatedIn(unit), lines, n);
      OneMore(KnownEnergy(), NamedTotalIn(unit), lines, n);
      OneMore(AmountOfRow(mode), AccumulatedIn(unit), lines, n);
      OneMore(AmountOfRow(mode), NamedTotalIn(unit), lines, n);
    }
  }

  lemma {:induction false} OneMore(f: Line -> real, p: Line -> bool, lines: seq<Line>, n: nat)
    requires |lines| == n + 1
    ensures S.Sum(f, S.Filter(p, lines)) == S.Sum(f, S.Filter(p, lines[..n])) + if p(lines[n]) then f(lines[n]) else 0.0
  {
    hide S.Sum;
    var before := S.Filter(p, lines[..n]);
    S.SumAppend(f, before, lines[n]);
    assert before + [] == before;
  }

  lemma {:induction false} NoTotals(mode: AccumulateBy, unit: string)
    ensures forall q :: TotalOf(KnownAmounts([], mode), unit, q) == 0.0
    ensures S.Sum(KnownEnergy(), []) == 0.0 && S.Sum(AmountOfRow(mode), []) == 0.0
  {
  }

  function HasEstimate(): Line -> bool { (line: Line) => line.usage.Known? && line.usage.estimate.Some? }

  function IsUnknown(): Line -> bool { (line: Line) => line.usage == Unknown }

  /** What is appended for a known line: its billing data and its estimate. */
  function KnownEntry(): Line -> (Row, Footprint) {
    (line: Line) =>
      (line.row.billing,
       match line.usage
       case Known(Some(known), _) =>
         Footprint(Finite(known.kilowattHours), Finite(known.co2e), known.usesAverageCPUConstant)
       case _ => Footprint(NotFinite, NotFinite, false))
  }

  function RowOf(): Line -> UsageRow { (line: Line) => line.row }

  /**
    The known estimates are those of the known lines that have one, and the unknown rows those of the
    unknown lines, in order.
   */
  lemma {:induction false} KindsOfLines(lines: seq<Line>)
    ensures KnownEstimates(lines) == S.Map(KnownEntry(), S.Filter(HasEstimate(), lines))
    ensures UnknownRows(lines) == S.Map(RowOf(), S.Filter(IsUnknown(), lines))
  {
    if lines != [] { KindsOfLines(lines[..|lines| - 1]); }
  }
}
