/**
  Accumulating billing rows: each row is added to the entry of its day with the same region,
  service, account and tags, found by searching nested lists of objects that are updated in place.
 */
module Billing {
  import opened Options
  import opened Calendar
  import opened ExtendedReals
  import S = Sums

  datatype Row = Row(
    timestamp: int,
    cloudProvider: string,
    accountId: string,
    accountName: string,
    region: string,
    serviceName: string,
    cost: real,
    tags: map<string, string>)

  datatype Footprint = Footprint(kilowattHours: ExtendedReal, co2e: ExtendedReal, usesAverageCPUConstant: bool)

  // ----- the reference: a table of sums -----

  datatype Key = Key(region: string, serviceName: string, accountId: string, tags: seq<Option<string>>)

  function TagValue(tags: map<string, string>, name: string): Option<string> {
    if name in tags then Some(tags[name]) else None
  }

  function TagValues(tags: map<string, string>, names: seq<string>): (values: seq<Option<string>>)
    ensures |values| == |names| && forall i :: 0 <= i < |names| ==> values[i] == TagValue(tags, names[i])
  {
    seq(|names|, i requires 0 <= i < |names| => TagValue(tags, names[i]))
  }

  function KeyOf(row: Row, tagNames: seq<string>): Key {
    Key(row.region, row.serviceName, row.accountId, TagValues(row.tags, tagNames))
  }

  datatype Totals = Totals(kilowattHours: ExtendedReal, co2e: ExtendedReal, cost: real, usesAverageCPUConstant: bool) {
    function Plus(t: Totals): Totals {
      Totals(kilowattHours.Plus(t.kilowattHours), co2e.Plus(t.co2e), cost + t.cost,
             usesAverageCPUConstant || t.usesAverageCPUConstant)
    }
  }

  const ZERO := Totals(Finite(0.0), Finite(0.0), 0.0, false)

  function TotalsOf(row: Row, footprint: Footprint): Totals {
    Totals(footprint.kilowattHours, footprint.co2e, row.cost, footprint.usesAverageCPUConstant)
  }

  /** The totals after a row: its cost and, as far as finite, its numbers come in, and its flag stays. */
  predicate Grown(before: Totals, row: Row, footprint: Footprint, after: Totals) {
    && after.cost == before.cost + row.cost
    && (after.usesAverageCPUConstant <==> before.usesAverageCPUConstant || footprint.usesAverageCPUConstant)
    && GrownBy(before.kilowattHours, footprint.kilowattHours, after.kilowattHours)
    && GrownBy(before.co2e, footprint.co2e, after.co2e)
  }

  predicate GrownBy(before: ExtendedReal, x: ExtendedReal, after: ExtendedReal) {
    if before == NotFinite || x == NotFinite then after == NotFinite else after == Finite(before.value + x.value)
  }

  /** A day and a key. */
  datatype Cell = Cell(timestamp: int, key: Key)

  type Table = map<Cell, Totals>

  function AddTo(table: Table, cell: Cell, totals: Totals): Table {
    table[cell := if cell in table then table[cell].Plus(totals) else totals]
  }

  lemma {:induction false} AddedRow(table: Table, cell: Cell, row: Row, footprint: Footprint)
    ensures var after := AddTo(table, cell, TotalsOf(row, footprint));
            cell in after && Grown(if cell in table then table[cell] else ZERO, row, footprint, after[cell]) &&
            forall c :: c != cell ==> (c in after <==> c in table) && (c in after ==> after[c] == table[c])
  {
  }

  // ----- what an entry keeps from its first row -----

  datatype Labels = Labels(cloudProvider: string, accountName: string, tags: map<string, string>)

  function LabelsOf(row: Row): Labels { Labels(row.cloudProvider, row.accountName, row.tags) }

  type LabelTable = map<Cell, Labels>

  function Label(table: LabelTable, cell: Cell, labels: Labels): LabelTable {
    if cell in table then table else table[cell := labels]
  }

  // ----- the objects -----

  class ServiceEstimate {
    const cloudProvider: string
    const accountId: string
    const accountName: string
    const serviceName: string
    const region: string
    const tags: map<string, string>
    var kilowattHours: ExtendedReal
    var co2e: ExtendedReal
    var cost: real
    var usesAverageCPUConstant: bool

    constructor (row: Row, footprint: Footprint)
      ensures OwnLabels() == LabelsOf(row)
      ensures forall names :: KeyFor(names) == KeyOf(row, names)
      ensures Sums() == TotalsOf(row, footprint)
      ensures kilowattHours == footprint.kilowattHours && co2e == footprint.co2e && cost == row.cost
      ensures usesAverageCPUConstant == footprint.usesAverageCPUConstant
    {
      cloudProvider, accountId, accountName := row.cloudProvider, row.accountId, row.accountName;
      serviceName, region, tags := row.serviceName, row.region, row.tags;
      kilowattHours, co2e, cost := footprint.kilowattHours, footprint.co2e, row.cost;
      usesAverageCPUConstant := footprint.usesAverageCPUConstant;
    }

    function OwnLabels(): Labels { Labels(cloudProvider, accountName, tags) }

    function KeyFor(names: seq<string>): Key {
      Key(region, serviceName, accountId, TagValues(tags, names))
    }

    function Sums(): Totals
      reads this
    {
      Totals(kilowattHours, co2e, cost, usesAverageCPUConstant)
    }
  }

  class DayEstimate {
    const timestamp: int
    const periodStartDate: int
    const periodEndDate: int
    const groupBy: GroupBy
    var serviceEstimates: seq<ServiceEstimate>

    constructor (timestamp: int, grouping: GroupBy, first: ServiceEstimate)
      ensures this.timestamp == timestamp && HasPeriod(grouping) && serviceEstimates == [first]
    {
      this.timestamp, periodStartDate := timestamp, timestamp;
      periodEndDate, groupBy := PeriodEndDate(grouping, timestamp), grouping;
      serviceEstimates := [first];
    }

    predicate HasPeriod(grouping: GroupBy) {
      periodStartDate == timestamp && periodEndDate == PeriodEndDate(grouping, timestamp) && groupBy == grouping
    }
  }

  /** `hasSameRegionAndServiceAndAccountAndTags`. */
  method HasSameKey(one: ServiceEstimate, two: ServiceEstimate, tagNames: seq<string>) returns (same: bool)
    ensures same <==> one.KeyFor(tagNames) == two.KeyFor(tagNames)
    ensures same <==>
              one.region == two.region && one.serviceName == two.serviceName && one.accountId == two.accountId &&
              forall name :: name in tagNames ==> SameTag(one.tags, two.tags, name)
  {
    if one.region != two.region || one.serviceName != two.serviceName || one.accountId != two.accountId {
      return false;
    }
    for i := 0 to |tagNames|
      invariant forall j :: 0 <= j < i ==> TagValue(one.tags, tagNames[j]) == TagValue(two.tags, tagNames[j])
    {
      if TagValue(one.tags, tagNames[i]) != TagValue(two.tags, tagNames[i]) {
        assert TagValues(one.tags, tagNames)[i] != TagValues(two.tags, tagNames)[i];
        assert !SameTag(one.tags, two.tags, tagNames[i]);
        return false;
      }
    }
    forall name | name in tagNames ensures SameTag(one.tags, two.tags, name) {
      var j :| 0 <= j < |tagNames| && tagNames[j] == name;
      assert TagValue(one.tags, tagNames[j]) == TagValue(two.tags, tagNames[j]);
    }
    return true;
  }

  /** The nested lists: for each day its time and its entries. */
  datatype DayLayout = DayLayout(timestamp: int, entries: seq<ServiceEstimate>)

  predicate IsAt(layout: seq<DayLayout>, names: seq<string>, cell: Cell, i: int, a: int) {
    0 <= i < |layout| && 0 <= a < |layout[i].entries| &&
    cell == Cell(layout[i].timestamp, layout[i].entries[a].KeyFor(names))
  }

  /** No two days share a timestamp, no two entries of a day share a key, no entry is in two places. */
  ghost predicate ValidLayout(layout: seq<DayLayout>, cells: map<Cell, ServiceEstimate>, names: seq<string>) {
    && (forall i, j :: 0 <= i < j < |layout| ==> layout[i].timestamp != layout[j].timestamp)
    && (forall i, a, b :: 0 <= i < |layout| && 0 <= a < b < |layout[i].entries| ==>
          layout[i].entries[a].KeyFor(names) != layout[i].entries[b].KeyFor(names))
    && (forall cell, i, a :: IsAt(layout, names, cell, i, a) ==> cell in cells && cells[cell] == layout[i].entries[a])
    && (forall cell :: cell in cells ==> exists i, a :: IsAt(layout, names, cell, i, a))
    && (forall c, d :: c in cells && d in cells && c != d ==> cells[c] != cells[d])
  }

  lemma {:induction false} PushedEntry(layout: seq<DayLayout>, cells: map<Cell, ServiceEstimate>, names: seq<string>,
                                       i: int, estimate: ServiceEstimate)
    requires ValidLayout(layout, cells, names) && 0 <= i < |layout| && estimate !in cells.Values
    requires forall b :: 0 <= b < |layout[i].entries| ==> layout[i].entries[b].KeyFor(names) != estimate.KeyFor(names)
    ensures var cell := Cell(layout[i].timestamp, estimate.KeyFor(names));
            cell !in cells &&
            ValidLayout(layout[i := DayLayout(layout[i].timestamp, layout[i].entries + [estimate])],
                        cells[cell := estimate], names)
  {
    var cell := Cell(layout[i].timestamp, estimate.KeyFor(names));
    var layout' := layout[i := DayLayout(layout[i].timestamp, layout[i].entries + [estimate])];
    forall j, a ensures !IsAt(layout, names, cell, j, a) { }
    assert IsAt(layout', names, cell, i, |layout[i].entries|);
    forall c | c in cells ensures exists j, a :: IsAt(layout', names, c, j, a) {
      var j, a :| IsAt(layout, names, c, j, a);
      assert IsAt(layout', names, c, j, a);
    }
    forall c, j, a | IsAt(layout', names, c, j, a)
      ensures c in cells[cell := estimate] && cells[cell := estimate][c] == layout'[j].entries[a]
    {
      if j != i || a < |layout[i].entries| { assert IsAt(layout, names, c, j, a); }
    }
  }

  lemma {:induction false} PushedDay(layout: seq<DayLayout>, cells: map<Cell, ServiceEstimate>, names: seq<string>,
                                     timestamp: int, estimate: ServiceEstimate)
    requires ValidLayout(layout, cells, names) && estimate !in cells.Values
    requires forall j :: 0 <= j < |layout| ==> layout[j].timestamp != timestamp
    ensures var cell := Cell(timestamp, estimate.KeyFor(names));
            cell !in cells && ValidLayout(layout + [DayLayout(timestamp, [estimate])], cells[cell := estimate], names)
  {
    var cell := Cell(timestamp, estimate.KeyFor(names));
    var layout' := layout + [DayLayout(timestamp, [estimate])];
    forall j, a ensures !IsAt(layout, names, cell, j, a) { }
    assert IsAt(layout', names, cell, |layout|, 0);
    forall c | c in cells ensures exists j, a :: IsAt(layout', names, c, j, a) {
      var j, a :| IsAt(layout, names, c, j, a);
      assert IsAt(layout', names, c, j, a);
    }
    forall c, j, a | IsAt(layout', names, c, j, a)
      ensures c in cells[cell := estimate] && cells[cell := estimate][c] == layout'[j].entries[a]
    {
      if j < |layout| { assert IsAt(layout, names, c, j, a); }
    }
  }

  class EstimationResults {
    const tagNames: seq<string>
    const grouping: GroupBy
    var days: seq<DayEstimate>
    ghost var cells: map<Cell, ServiceEstimate> // the entry of each cell

    ghost function Layout(): (layout: seq<DayLayout>)
      reads this, days
      ensures |layout| == |days|
      ensures forall i :: 0 <= i < |days| ==> layout[i] == DayLayout(days[i].timestamp, days[i].serviceEstimates)
    {
      seq(|days|, i requires 0 <= i < |days| reads this, days => DayLayout(days[i].timestamp, days[i].serviceEstimates))
    }

    ghost predicate Valid()
      reads this, days
    {
      ValidLayout(Layout(), cells, tagNames) && forall d :: d in days ==> d.HasPeriod(grouping)
    }

    /** What the nested lists amount to. */
    ghost function Sums(): Table
      reads this, cells.Values
    {
      map cell | cell in cells :: cells[cell].Sums()
    }

    /** What the entries keep from their first rows. */
    ghost function FirstLabels(): LabelTable
      reads this
    {
      map cell | cell in cells :: cells[cell].OwnLabels()
    }

    constructor (tagNames: seq<string>, grouping: GroupBy)
      ensures Valid() && this.tagNames == tagNames && this.grouping == grouping
      ensures days == [] && cells == map[] && Sums() == map[] && FirstLabels() == map[]
    {
      this.tagNames, this.grouping := tagNames, grouping;
      days, cells := [], map[];
    }

    lemma {:induction false} NewCell(before: map<Cell, ServiceEstimate>, sums: Table, labels: LabelTable, cell: Cell,
                                     estimate: ServiceEstimate)
      requires cells == before[cell := estimate] && cell !in before
      requires sums == map c | c in before :: before[c].Sums()
      requires labels == map c | c in before :: before[c].OwnLabels()
      ensures Sums() == AddTo(sums, cell, estimate.Sums())
      ensures FirstLabels() == Label(labels, cell, estimate.OwnLabels())
    {
    }

    lemma {:induction false} OthersKeepSums(cell: Cell, before: Table, found: ServiceEstimate, sums: Totals)
      requires cell in cells && cells[cell] == found && cell in before && before.Keys == cells.Keys
      requires found.Sums() == before[cell].Plus(sums)
      requires forall c :: c in cells && c != cell ==> cells[c].Sums() == before[c]
      ensures Sums() == AddTo(before, cell, sums)
    {
      hide Totals.Plus;
    }

    /** The found entry takes the sums of the row's estimate. */
    method AccumulateInto(found: ServiceEstimate, ghost cell: Cell, estimate: ServiceEstimate)
      requires estimate !in cells.Values && cell in cells && cells[cell] == found
      requires forall c, d :: c in cells && d in cells && c != d ==> cells[c] != cells[d]
      modifies found
      ensures Sums() == AddTo(old(Sums()), cell, estimate.Sums())
      ensures FirstLabels() == Label(old(FirstLabels()), cell, estimate.OwnLabels())
    {
      hide AddTo;
      found.kilowattHours := found.kilowattHours.Plus(estimate.kilowattHours);
      found.co2e := found.co2e.Plus(estimate.co2e);
      found.cost := found.cost + estimate.cost;
      if estimate.usesAverageCPUConstant {
        found.usesAverageCPUConstant := found.usesAverageCPUConstant || estimate.usesAverageCPUConstant;
      }
      assert found.Sums() == old(found.Sums()).Plus(estimate.Sums());
      assert forall c :: c in cells && c != cell ==> cells[c].Sums() == old(cells[c].Sums());
      OthersKeepSums(cell, old(Sums()), found, estimate.Sums());
    }

    /** A day without such an entry gets a new one. */
    method PushEntry(i: nat, estimate: ServiceEstimate)
      requires Valid() && estimate !in cells.Values && i < |days|
      requires forall b :: 0 <= b < |days[i].serviceEstimates| ==>
                 days[i].serviceEstimates[b].KeyFor(tagNames) != estimate.KeyFor(tagNames)
      modifies days[i], this`cells
      ensures Valid() && cells == old(cells)[Cell(days[i].timestamp, estimate.KeyFor(tagNames)) := estimate]
      ensures days[i].serviceEstimates == old(days[i].serviceEstimates) + [estimate]
      ensures FirstLabels()
                == Label(old(FirstLabels()), Cell(days[i].timestamp, estimate.KeyFor(tagNames)), estimate.OwnLabels())
      ensures Sums() == AddTo(old(Sums()), Cell(days[i].timestamp, estimate.KeyFor(tagNames)), estimate.Sums())
    {
      hide ValidLayout, PeriodEndDate;
      hide AddTo, Label;
      ghost var before, sums, labels := cells, Sums(), FirstLabels();
      PushedEntry(Layout(), cells, tagNames, i, estimate);
      DaysDistinct();
      days[i].serviceEstimates := days[i].serviceEstimates + [estimate];
      cells := cells[Cell(days[i].timestamp, estimate.KeyFor(tagNames)) := estimate];
      assert Layout() == old(Layout())[i := DayLayout(days[i].timestamp, old(days[i].serviceEstimates) + [estimate])];
      NewCell(before, sums, labels, Cell(days[i].timestamp, estimate.KeyFor(tagNames)), estimate);
    }

    lemma {:induction false} DaysDistinct()
      requires Valid()
      ensures forall i, j :: 0 <= i < j < |days| ==> days[i] != days[j]
    {
      assert forall i, j :: 0 <= i < j < |days| ==> Layout()[i].timestamp != Layout()[j].timestamp;
    }

    /** A time without a day gets a new day. */
    method PushDay(timestamp: int, estimate: ServiceEstimate)
      requires Valid() && estimate !in cells.Values
      requires forall j :: 0 <= j < |days| ==> days[j].timestamp != timestamp
      modifies this
      ensures Valid() && cells == old(cells)[Cell(timestamp, estimate.KeyFor(tagNames)) := estimate]
      ensures FirstLabels()
                == Label(old(FirstLabels()), Cell(timestamp, estimate.KeyFor(tagNames)), estimate.OwnLabels())
      ensures Sums() == AddTo(old(Sums()), Cell(timestamp, estimate.KeyFor(tagNames)), estimate.Sums())
      ensures |days| == |old(days)| + 1 && days[..|old(days)|] == old(days) && fresh(days[|old(days)|])
    {
      hide ValidLayout, PeriodEndDate;
      hide AddTo, Label;
      ghost var before, sums, labels := cells, Sums(), FirstLabels();
      PushedDay(Layout(), cells, tagNames, timestamp, estimate);
      var day := new DayEstimate(timestamp, grouping, estimate);
      days := days + [day];
      cells := cells[Cell(timestamp, estimate.KeyFor(tagNames)) := estimate];
      assert Layout() == old(Layout()) + [DayLayout(timestamp, [estimate])];
      NewCell(before, sums, labels, Cell(timestamp, estimate.KeyFor(tagNames)), estimate);
    }

    method FindDay(timestamp: int) returns (i: nat)
      ensures i <= |days| && (i < |days| ==> days[i].timestamp == timestamp)
      ensures i == |days| ==> forall j :: 0 <= j < |days| ==> days[j].timestamp != timestamp
    {
      i := 0;
      while i < |days| && days[i].timestamp != timestamp
        invariant 0 <= i <= |days|
        invariant forall j :: 0 <= j < i ==> days[j].timestamp != timestamp
      {
        i := i + 1;
      }
    }

    method FindEntry(day: DayEstimate, estimate: ServiceEstimate) returns (a: nat)
      ensures a <= |day.serviceEstimates|
      ensures a < |day.serviceEstimates| ==> day.serviceEstimates[a].KeyFor(tagNames) == estimate.KeyFor(tagNames)
      ensures a == |day.serviceEstimates| ==>
                forall b :: 0 <= b < |day.serviceEstimates| ==>
                  day.serviceEstimates[b].KeyFor(tagNames) != estimate.KeyFor(tagNames)
    {
      a := 0;
      while a < |day.serviceEstimates|
        invariant 0 <= a <= |day.serviceEstimates|
        invariant forall b :: 0 <= b < a ==> day.serviceEstimates[b].KeyFor(tagNames) != estimate.KeyFor(tagNames)
      {
        var same := HasSameKey(day.serviceEstimates[a], estimate, tagNames);
        if same { return; }
        a := a + 1;
      }
    }

    /** The day of a time and its entry with the key of an estimate, or where the search for either ends. */
    method Find(timestamp: int, estimate: ServiceEstimate) returns (i: nat, a: nat)
      ensures i <= |days| && (i < |days| ==> days[i].timestamp == timestamp && a <= |days[i].serviceEstimates|)
      ensures i == |days| ==> forall j :: 0 <= j < |days| ==> days[j].timestamp != timestamp
      ensures i < |days| && a < |days[i].serviceEstimates| ==>
                days[i].serviceEstimates[a].KeyFor(tagNames) == estimate.KeyFor(tagNames)
      ensures i < |days| && a == |days[i].serviceEstimates| ==>
                forall b :: 0 <= b < |days[i].serviceEstimates| ==>
                  days[i].serviceEstimates[b].KeyFor(tagNames) != estimate.KeyFor(tagNames)
    {
      i := FindDay(timestamp);
      a := 0;
      if i < |days| {
        a := FindEntry(days[i], estimate);
      }
    }

    lemma {:induction false} FoundEntry(i: int, a: int, cell: Cell)
      requires Valid() && 0 <= i < |days| && 0 <= a < |days[i].serviceEstimates|
      requires cell == Cell(days[i].timestamp, days[i].serviceEstimates[a].KeyFor(tagNames))
      ensures cell in cells && cells[cell] == days[i].serviceEstimates[a]
      ensures forall c, d :: c in cells && d in cells && c != d ==> cells[c] != cells[d]
    {
      assert IsAt(Layout(), tagNames, cell, i, a);
    }

    /** An estimate is added to the entry found for it, or pushed as a new entry or with a new day. */
    method AddEstimate(timestamp: int, estimate: ServiceEstimate)
      requires Valid() && estimate !in cells.Values
      modifies this, days, cells.Values
      ensures Valid() && cells.Values <= old(cells.Values) + {estimate}
      ensures forall d :: d in days && d !in old(days) ==> fresh(d)
      ensures Sums() == AddTo(old(Sums()), Cell(timestamp, estimate.KeyFor(tagNames)), old(estimate.Sums()))
      ensures FirstLabels()
                == Label(old(FirstLabels()), Cell(timestamp, estimate.KeyFor(tagNames)), estimate.OwnLabels())
    {
      hide ValidLayout, AddTo, PeriodEndDate, Label, Sums, FirstLabels;
      ghost var cell := Cell(timestamp, estimate.KeyFor(tagNames));
      var i, a := Find(timestamp, estimate);
      if i < |days| {
        if a < |days[i].serviceEstimates| {
          FoundEntry(i, a, cell);
          AccumulateInto(days[i].serviceEstimates[a], cell, estimate);
        } else {
          PushEntry(i, estimate);
        }
      } else {
        PushDay(timestamp, estimate);
      }
    }

    /** `appendOrAccumulateEstimatesByDay`. */
    method AppendOrAccumulate(row: Row, footprint: Footprint)
      requires Valid()
      modifies this, days, cells.Values
      ensures Valid() && fresh(cells.Values - old(cells.Values))
      ensures forall d :: d in days && d !in old(days) ==> fresh(d)
      ensures Sums() == AddTo(old(Sums()), CellOf(row, tagNames), TotalsOf(row, footprint))
      ensures CellOf(row, tagNames) in Sums() &&
              Grown(if CellOf(row, tagNames) in old(Sums()) then old(Sums())[CellOf(row, tagNames)] else ZERO,
                    row, footprint, Sums()[CellOf(row, tagNames)])
      ensures forall cell :: cell != CellOf(row, tagNames) ==>
                (cell in Sums() <==> cell in old(Sums())) && (cell in Sums() ==> Sums()[cell] == old(Sums())[cell])
      ensures FirstLabels() == Label(old(FirstLabels()), CellOf(row, tagNames), LabelsOf(row))
    {
      hide ValidLayout, AddTo, PeriodEndDate, Label, TotalsOf, Grown, Sums, FirstLabels, TagValues;
      AddedRow(Sums(), CellOf(row, tagNames), row, footprint);
      var serviceEstimate := new ServiceEstimate(row, footprint);
      AddEstimate(row.timestamp, serviceEstimate);
    }

    /** Every row accumulated, in order. */
    method AccumulateAll(rows: seq<(Row, Footprint)>)
      requires Valid()
      modifies this, days, cells.Values
      ensures Valid() && Sums() == AddRows(old(Sums()), rows, tagNames)
      ensures FirstLabels() == LabelRows(old(FirstLabels()), rows, tagNames)
    {
      hide ValidLayout, AddTo, PeriodEndDate, Label;
      for n := 0 to |rows|
        invariant Valid() && fresh(cells.Values - old(cells.Values))
        invariant forall d :: d in days && d !in old(days) ==> fresh(d)
        invariant Sums() == AddRows(old(Sums()), rows[..n], tagNames)
        invariant FirstLabels() == LabelRows(old(FirstLabels()), rows[..n], tagNames)
      {
        assert rows[..n + 1][..n] == rows[..n];
        assert forall i :: 0 <= i < |days| ==> days[i] in days && (days[i] in old(days) || fresh(days[i]));
        AppendOrAccumulate(rows[n].0, rows[n].1);
      }
      assert rows[..|rows|] == rows;
    }
  }

  // ----- what the table says about the rows -----

  function CellOf(row: Row, tagNames: seq<string>): Cell {
    Cell(row.timestamp, KeyOf(row, tagNames))
  }

  function AddRows(table: Table, rows: seq<(Row, Footprint)>, tagNames: seq<string>): Table {
    if rows == [] then table
    else
      var (row, footprint) := rows[|rows| - 1];
      AddTo(AddRows(table, rows[..|rows| - 1], tagNames), CellOf(row, tagNames), TotalsOf(row, footprint))
  }

  function LabelRows(table: LabelTable, rows: seq<(Row, Footprint)>, tagNames: seq<string>): LabelTable {
    if rows == [] then table
    else
      var row := rows[|rows| - 1].0;
      Label(LabelRows(table, rows[..|rows| - 1], tagNames), CellOf(row, tagNames), LabelsOf(row))
  }

  /** From an empty table, an entry keeps the cloud provider, account name and tags of the first row of its cell. */
  lemma {:induction false} LabelsAreFirst(rows: seq<(Row, Footprint)>, tagNames: seq<string>, i: nat)
    requires i < |rows| && !Occurs(rows[..i], tagNames, CellOf(rows[i].0, tagNames))
    ensures var table := LabelRows(map[], rows, tagNames);
            CellOf(rows[i].0, tagNames) in table &&
            table[CellOf(rows[i].0, tagNames)] == Labels(rows[i].0.cloudProvider, rows[i].0.accountName, rows[i].0.tags)
    decreases |rows|
  {
    var n, cell := |rows| - 1, CellOf(rows[i].0, tagNames);
    if i < n {
      assert rows[..n][..i] == rows[..i];
      LabelsAreFirst(rows[..n], tagNames, i);
    } else {
      LabelledOccurs(rows[..n], tagNames, cell);
    }
  }

  lemma {:induction false} LabelledOccurs(rows: seq<(Row, Footprint)>, tagNames: seq<string>, cell: Cell)
    ensures cell in LabelRows(map[], rows, tagNames) <==> Occurs(rows, tagNames, cell)
  {
    if rows != [] {
      var n := |rows| - 1;
      LabelledOccurs(rows[..n], tagNames, cell);
      if i :| 0 <= i < |rows| && CellOf(rows[i].0, tagNames) == cell {
        assert i < n ==> CellOf(rows[..n][i].0, tagNames) == cell;
      }
      if i :| 0 <= i < n && CellOf(rows[..n][i].0, tagNames) == cell { assert CellOf(rows[i].0, tagNames) == cell; }
    }
  }

  /** The sums over the rows of one cell, and whether any of them used an average. */
  function SumsAt(rows: seq<(Row, Footprint)>, tagNames: seq<string>, cell: Cell): Totals {
    if rows == [] then ZERO
    else
      var (row, footprint) := rows[|rows| - 1];
      var before := SumsAt(rows[..|rows| - 1], tagNames, cell);
      if CellOf(row, tagNames) == cell then before.Plus(TotalsOf(row, footprint)) else before
  }

  predicate Occurs(rows: seq<(Row, Footprint)>, tagNames: seq<string>, cell: Cell) {
    exists i :: 0 <= i < |rows| && CellOf(rows[i].0, tagNames) == cell
  }

  lemma {:induction false} OneRow(table: Table, labels: LabelTable, row: (Row, Footprint), tagNames: seq<string>)
    ensures AddRows(table, [], tagNames) == table && LabelRows(labels, [], tagNames) == labels
    ensures AddRows(table, [row], tagNames) == AddTo(table, CellOf(row.0, tagNames), TotalsOf(row.0, row.1))
    ensures LabelRows(labels, [row], tagNames) == Label(labels, CellOf(row.0, tagNames), LabelsOf(row.0))
  {
    assert [row][..0] == [];
  }

  lemma {:induction false} RowsInTwoParts(table: Table, labels: LabelTable, a: seq<(Row, Footprint)>,
                                          b: seq<(Row, Footprint)>, tagNames: seq<string>)
    ensures AddRows(AddRows(table, a, tagNames), b, tagNames) == AddRows(table, a + b, tagNames)
    ensures LabelRows(LabelRows(labels, a, tagNames), b, tagNames) == LabelRows(labels, a + b, tagNames)
  {
    if b == [] {
      assert a + b == a;
    } else {
      RowsInTwoParts(table, labels, a, b[..|b| - 1], tagNames);
      assert (a + b)[..|a + b| - 1] == a + b[..|b| - 1];
    }
  }

  /** From an empty table, each cell that occurs holds exactly the sums over its rows; no other cell exists. */
  lemma {:induction false} TableHoldsSums(rows: seq<(Row, Footprint)>, tagNames: seq<string>, cell: Cell)
    ensures var table := AddRows(map[], rows, tagNames);
            (cell in table <==> Occurs(rows, tagNames, cell)) &&
            (cell in table ==> table[cell] == SumsAt(rows, tagNames, cell))
    ensures !Occurs(rows, tagNames, cell) ==> SumsAt(rows, tagNames, cell) == ZERO
  {
    if rows != [] {
      var n := |rows| - 1;
      TableHoldsSums(rows[..n], tagNames, cell);
      if i :| 0 <= i < n && CellOf(rows[..n][i].0, tagNames) == cell {
        assert CellOf(rows[i].0, tagNames) == cell;
      }
      if i :| 0 <= i < |rows| && CellOf(rows[i].0, tagNames) == cell {
        assert i < n ==> CellOf(rows[..n][i].0, tagNames) == cell;
      }
    }
  }

  function RowSums(row: (Row, Footprint), tagNames: seq<string>, cell: Cell): Totals {
    if CellOf(row.0, tagNames) == cell then TotalsOf(row.0, row.1) else ZERO
  }

  lemma {:induction false} SumsAppend(rows: seq<(Row, Footprint)>, row: (Row, Footprint), tagNames: seq<string>,
                                      cell: Cell)
    ensures SumsAt(rows + [row], tagNames, cell) == SumsAt(rows, tagNames, cell).Plus(RowSums(row, tagNames, cell))
  {
    assert (rows + [row])[..|rows|] == rows;
  }

  lemma {:induction false} SumsOfConcat(a: seq<(Row, Footprint)>, b: seq<(Row, Footprint)>, tagNames: seq<string>,
                                        cell: Cell)
    ensures SumsAt(a + b, tagNames, cell) == SumsAt(a, tagNames, cell).Plus(SumsAt(b, tagNames, cell))
  {
    hide RowSums, SumsAt;
    if b == [] {
      assert a + b == a;
      NoSums(tagNames, cell);
    } else {
      var before, last := b[..|b| - 1], b[|b| - 1];
      SumsOfConcat(a, before, tagNames, cell);
      SumsAppend(a + before, last, tagNames, cell);
      SumsAppend(before, last, tagNames, cell);
      assert a + b == (a + before) + [last] && b == before + [last];
    }
  }

  lemma {:induction false} NoSums(tagNames: seq<string>, cell: Cell)
    ensures SumsAt([], tagNames, cell) == ZERO
  {
  }

  /** The last of three sums may come second. */
  lemma {:induction false} SwapSums(a: Totals, b: Totals, c: Totals)
    ensures a.Plus(b.Plus(c)) == a.Plus(c).Plus(b)
  {
  }

  lemma {:induction false} RemoveOne(b: seq<(Row, Footprint)>, last: (Row, Footprint), tagNames: seq<string>,
                                     cell: Cell) returns (rest: seq<(Row, Footprint)>)
    requires last in b
    ensures multiset(b) == multiset(rest) + multiset{last}
    ensures SumsAt(b, tagNames, cell) == SumsAt(rest + [last], tagNames, cell)
  {
    hide SumsAt, Totals.Plus;
    var i :| 0 <= i < |b| && b[i] == last;
    rest := b[..i] + b[i + 1..];
    assert b == b[..i] + ([last] + b[i + 1..]);
    SumsOfConcat(b[..i], [last] + b[i + 1..], tagNames, cell);
    SumsOfConcat([last], b[i + 1..], tagNames, cell);
    SumsOfConcat(b[..i], b[i + 1..], tagNames, cell);
    SumsOfConcat(rest, [last], tagNames, cell);
    SwapSums(SumsAt(b[..i], tagNames, cell), SumsAt([last], tagNames, cell), SumsAt(b[i + 1..], tagNames, cell));
  }

  lemma {:induction false} SumsIgnoreOrder(a: seq<(Row, Footprint)>, b: seq<(Row, Footprint)>, tagNames: seq<string>,
                                           cell: Cell)
    requires multiset(a) == multiset(b)
    ensures SumsAt(a, tagNames, cell) == SumsAt(b, tagNames, cell)
    decreases |a|
  {
    hide SumsAt;
    if a == [] {
      assert |multiset(b)| == 0;
      assert b == [];
    } else {
      var n := |a| - 1;
      var last := a[n];
      assert a == a[..n] + [last];
      assert last in multiset(b);
      var rest := RemoveOne(b, last, tagNames, cell);
      assert multiset(a) == multiset(a[..n]) + multiset{last};
      assert multiset(a[..n]) == multiset(a) - multiset{last} && multiset(rest) == multiset(b) - multiset{last};
      SumsIgnoreOrder(a[..n], rest, tagNames, cell);
      SumsOfConcat(a[..n], [last], tagNames, cell);
      SumsOfConcat(rest, [last], tagNames, cell);
    }
  }

  /** Rows in any order accumulate to the same table. */
  lemma {:induction false} TableIgnoresOrder(a: seq<(Row, Footprint)>, b: seq<(Row, Footprint)>, tagNames: seq<string>)
    requires multiset(a) == multiset(b)
    ensures AddRows(map[], a, tagNames) == AddRows(map[], b, tagNames)
  {
    var tableA, tableB := AddRows(map[], a, tagNames), AddRows(map[], b, tagNames);
    forall cell
      ensures cell in tableA <==> cell in tableB
      ensures cell in tableA && cell in tableB ==> tableA[cell] == tableB[cell]
    {
      TableHoldsSums(a, tagNames, cell);
      TableHoldsSums(b, tagNames, cell);
      SumsIgnoreOrder(a, b, tagNames, cell);
      OccursInMultiset(a, b, tagNames, cell);
      OccursInMultiset(b, a, tagNames, cell);
    }
  }

  lemma {:induction false} OccursInMultiset(a: seq<(Row, Footprint)>, b: seq<(Row, Footprint)>, tagNames: seq<string>,
                                            cell: Cell)
    requires multiset(a) == multiset(b)
    ensures Occurs(a, tagNames, cell) ==> Occurs(b, tagNames, cell)
  {
    if i :| 0 <= i < |a| && CellOf(a[i].0, tagNames) == cell {
      assert a[i] in multiset(b);
      var j :| 0 <= j < |b| && b[j] == a[i];
    }
  }

  // ----- what the sums are -----

  function InCell(tagNames: seq<string>, cell: Cell): ((Row, Footprint)) -> bool {
    (r: (Row, Footprint)) => CellOf(r.0, tagNames) == cell
  }

  function CostOfRow(): ((Row, Footprint)) -> real { (r: (Row, Footprint)) => r.0.cost }

  /** Numbers that are not finite are left out here. */
  function EnergyOfRow(): ((Row, Footprint)) -> real {
    (r: (Row, Footprint)) => if r.1.kilowattHours.Finite? then r.1.kilowattHours.value else 0.0
  }

  function EmissionsOfRow(): ((Row, Footprint)) -> real {
    (r: (Row, Footprint)) => if r.1.co2e.Finite? then r.1.co2e.value else 0.0
  }

  /** Two rows share a cell exactly when they agree on time, region, service, account and every named tag. */
  lemma {:induction false} SameCell(one: Row, two: Row, tagNames: seq<string>)
    ensures CellOf(one, tagNames) == CellOf(two, tagNames) <==>
              one.timestamp == two.timestamp && one.region == two.region && one.serviceName == two.serviceName &&
              one.accountId == two.accountId && forall name :: name in tagNames ==> SameTag(one.tags, two.tags, name)
  {
    if CellOf(one, tagNames) == CellOf(two, tagNames) {
      forall name | name in tagNames ensures SameTag(one.tags, two.tags, name) {
        var i :| 0 <= i < |tagNames| && tagNames[i] == name;
        assert TagValues(one.tags, tagNames)[i] == TagValues(two.tags, tagNames)[i];
      }
    }
    if forall name :: name in tagNames ==> SameTag(one.tags, two.tags, name) {
      forall i | 0 <= i < |tagNames|
        ensures TagValues(one.tags, tagNames)[i] == TagValues(two.tags, tagNames)[i]
      {
        assert SameTag(one.tags, two.tags, tagNames[i]);
      }
    }
  }

  /** A tag is absent from both, or has the same value in both. */
  predicate SameTag(one: map<string, string>, two: map<string, string>, name: string) {
    (name in one <==> name in two) && (name in one && name in two ==> one[name] == two[name])
  }

  /**
    A cell's cost is the sum of its rows' costs, its flag holds if that of any of its rows does, and its
    energy and its emissions are finite exactly when those of all its rows are, and then their sums.
   */
  lemma {:induction false} SumsAddUp(rows: seq<(Row, Footprint)>, tagNames: seq<string>, cell: Cell)
    ensures var own, sums := S.Filter(InCell(tagNames, cell), rows), SumsAt(rows, tagNames, cell);
            sums.cost == S.Sum(CostOfRow(), own) &&
            (sums.usesAverageCPUConstant <==> exists r :: r in own && r.1.usesAverageCPUConstant) &&
            (sums.kilowattHours.Finite? <==> forall r :: r in own ==> r.1.kilowattHours.Finite?) &&
            (sums.kilowattHours.Finite? ==> sums.kilowattHours.value == S.Sum(EnergyOfRow(), own)) &&
            (sums.co2e.Finite? <==> forall r :: r in own ==> r.1.co2e.Finite?) &&
            (sums.co2e.Finite? ==> sums.co2e.value == S.Sum(EmissionsOfRow(), own))
  {
    hide CellOf, S.Sum;
    if rows == [] {
      NothingAdded();
    } else {
      var n := |rows| - 1;
      SumsAddUp(rows[..n], tagNames, cell);
      var before := S.Filter(InCell(tagNames, cell), rows[..n]);
      S.SumAppend(CostOfRow(), before, rows[n]);
      S.SumAppend(EnergyOfRow(), before, rows[n]);
      S.SumAppend(EmissionsOfRow(), before, rows[n]);
      assert before + [] == before;
      assert rows[n] in before + [rows[n]];
      assert forall r :: r in before + [rows[n]] <==> r in before || r == rows[n];
    }
  }

  lemma {:induction false} NothingAdded()
    ensures S.Sum(CostOfRow(), []) == 0.0 && S.Sum(EnergyOfRow(), []) == 0.0 && S.Sum(EmissionsOfRow(), []) == 0.0
  {
  }

  /** A cell's energy is a finite number exactly when that of each of its rows is. */
  lemma {:induction false} FiniteSums(rows: seq<(Row, Footprint)>, tagNames: seq<string>, cell: Cell)
    ensures SumsAt(rows, tagNames, cell).kilowattHours.Finite? <==>
              forall i :: 0 <= i < |rows| && CellOf(rows[i].0, tagNames) == cell ==> rows[i].1.kilowattHours.Finite?
  {
    if rows != [] {
      var n := |rows| - 1;
      FiniteSums(rows[..n], tagNames, cell);
      if forall i :: 0 <= i < |rows| && CellOf(rows[i].0, tagNames) == cell ==> rows[i].1.kilowattHours.Finite? {
        forall i | 0 <= i < n && CellOf(rows[..n][i].0, tagNames) == cell ensures rows[..n][i].1.kilowattHours.Finite? {
          assert rows[..n][i] == rows[i];
        }
      }
      if SumsAt(rows[..n], tagNames, cell).kilowattHours.Finite? {
        forall i | 0 <= i < n && CellOf(rows[i].0, tagNames) == cell ensures rows[i].1.kilowattHours.Finite? {
          assert rows[..n][i] == rows[i];
        }
      }
    }
  }
}
