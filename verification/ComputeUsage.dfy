/**
  Compute usage built from metric samples grouped by timestamp, and the energy estimated from it.
 */
module ComputeUsage {
  import opened Sums

  datatype Metric = CpuUtilization | VCpus | OtherMetric

  datatype RawComputeUsage = RawComputeUsage(metric: Metric, timestamp: int, value: real)

  datatype Usage = Usage(timestamp: int, cpuUtilizationAverage: real, vCpuHours: real, usesAverageCPUConstant: bool)

  datatype Constants = Constants(
    avgCpuUtilization: real,
    minWatts: real,
    maxWatts: real,
    powerUsageEffectiveness: real,
    replicationFactor: real,
    averageWatts: real) // zero stands for none

  function Identity(): real -> real { (x: real) => x }

  // ----- building usages -----

  /** The average of the samples that are not zero, or the constant; the last vCPU value counts. */
  function Built(timestamp: int, samples: seq<real>, vCpuHours: real, constants: Constants): Usage {
    if samples != [] then Usage(timestamp, Sum(Identity(), samples) / |samples| as real, vCpuHours, false)
    else Usage(timestamp, constants.avgCpuUtilization, vCpuHours, true)
  }

  class ComputeUsageBuilder {
    const timestamp: int
    const constants: Constants
    var cpuUtilizations: seq<real>
    var vCpuHours: real

    constructor (timestamp: int, constants: Constants)
      ensures this.timestamp == timestamp && this.constants == constants && cpuUtilizations == [] && vCpuHours == 0.0
    {
      this.timestamp, this.constants := timestamp, constants;
      cpuUtilizations, vCpuHours := [], 0.0;
    }

    method AddCpuUtilization(cpuUtilization: real)
      modifies this`cpuUtilizations
      ensures cpuUtilizations == old(cpuUtilizations) + if cpuUtilization != 0.0 then [cpuUtilization] else []
    {
      if cpuUtilization != 0.0 {
        cpuUtilizations := cpuUtilizations + [cpuUtilization];
      }
    }

    method SetVCpuHours(vCpuHours: real)
      modifies this`vCpuHours
      ensures this.vCpuHours == vCpuHours
    {
      this.vCpuHours := vCpuHours;
    }

    method Build() returns (usage: Usage)
      ensures usage == Built(timestamp, cpuUtilizations, vCpuHours, constants)
      ensures usage.timestamp == timestamp && usage.vCpuHours == vCpuHours
      ensures usage.usesAverageCPUConstant <==> cpuUtilizations == []
      ensures cpuUtilizations != [] ==>
                usage.cpuUtilizationAverage * |cpuUtilizations| as real == Sum(Identity(), cpuUtilizations)
      ensures cpuUtilizations == [] ==> usage.cpuUtilizationAverage == constants.avgCpuUtilization
    {
      if |cpuUtilizations| > 0 {
        var sum := cpuUtilizations[0];
        assert cpuUtilizations[..1] == [cpuUtilizations[0]];
        for i := 1 to |cpuUtilizations|
          invariant sum == Sum(Identity(), cpuUtilizations[..i])
        {
          SumAppend(Identity(), cpuUtilizations[..i], cpuUtilizations[i]);
          assert cpuUtilizations[..i + 1] == cpuUtilizations[..i] + [cpuUtilizations[i]];
          sum := sum + cpuUtilizations[i];
        }
        assert cpuUtilizations[..|cpuUtilizations|] == cpuUtilizations;
        return Usage(timestamp, sum / |cpuUtilizations| as real, vCpuHours, false);
      }
      return Usage(timestamp, constants.avgCpuUtilization, vCpuHours, true);
    }
  }

  /** The samples and the vCPU hours that the rows of one timestamp leave in its builder. */
  function Samples(rows: seq<RawComputeUsage>): seq<real> {
    if rows == [] then []
    else
      var row := rows[|rows| - 1];
      Samples(rows[..|rows| - 1]) + if row.metric.CpuUtilization? && row.value != 0.0 then [row.value] else []
  }

  function VCpuHours(rows: seq<RawComputeUsage>): real {
    if rows == [] then 0.0
    else if rows[|rows| - 1].metric.VCpus? then rows[|rows| - 1].value
    else VCpuHours(rows[..|rows| - 1])
  }

  function AtTime(t: int): RawComputeUsage -> bool { (r: RawComputeUsage) => r.timestamp == t }

  predicate Groups(row: RawComputeUsage) { !row.metric.OtherMetric? }

  /** The timestamps that get a builder, in the order in which they get it. */
  function Timestamps(rows: seq<RawComputeUsage>): seq<int> {
    if rows == [] then []
    else
      var row := rows[|rows| - 1];
      var before := Timestamps(rows[..|rows| - 1]);
      if Groups(row) && row.timestamp !in before then before + [row.timestamp] else before
  }

  function BuiltAt(t: int, rows: seq<RawComputeUsage>, constants: Constants): Usage {
    Built(t, Samples(Filter(AtTime(t), rows)), VCpuHours(Filter(AtTime(t), rows)), constants)
  }

  /** The timestamps with a builder are those of samples and vCPU rows, each once. */
  lemma {:induction false} TimestampsOnce(rows: seq<RawComputeUsage>)
    ensures forall i, j :: 0 <= i < j < |Timestamps(rows)| ==> Timestamps(rows)[i] != Timestamps(rows)[j]
    ensures forall t :: t in Timestamps(rows) <==>
              exists i :: 0 <= i < |rows| && Groups(rows[i]) && rows[i].timestamp == t
  {
    if rows != [] {
      var n := |rows| - 1;
      TimestampsOnce(rows[..n]);
      forall t
        ensures t in Timestamps(rows) <==> exists i :: 0 <= i < |rows| && Groups(rows[i]) && rows[i].timestamp == t
      {
        if i :| 0 <= i < |rows| && Groups(rows[i]) && rows[i].timestamp == t {
          assert i < n ==> rows[..n][i] == rows[i];
        }
        if t in Timestamps(rows[..n]) {
          var i :| 0 <= i < n && Groups(rows[..n][i]) && rows[..n][i].timestamp == t;
          assert Groups(rows[i]) && rows[i].timestamp == t;
        }
      }
    }
  }

  /** More rows only add timestamps behind those that there are, so these come in order of first occurrence. */
  lemma {:induction false} TimestampsGrow(rows: seq<RawComputeUsage>, more: seq<RawComputeUsage>)
    ensures Timestamps(rows) <= Timestamps(rows + more)
  {
    if more == [] {
      assert rows + more == rows;
    } else {
      var n := |more| - 1;
      TimestampsGrow(rows, more[..n]);
      assert rows + more == rows + more[..n] + [more[n]];
      TimestampAppended(rows + more[..n], more[n]);
    }
  }

  /** What one more row adds to the builder of its own timestamp, and to no other. */
  lemma {:induction false} RowReachesOneBuilder(rows: seq<RawComputeUsage>, row: RawComputeUsage, t: int)
    ensures var before, after := Filter(AtTime(t), rows), Filter(AtTime(t), rows + [row]);
            if row.timestamp != t then after == before
            else Samples(after)
                   == Samples(before) + (if row.metric.CpuUtilization? && row.value != 0.0 then [row.value] else []) &&
                 VCpuHours(after) == if row.metric.VCpus? then row.value else VCpuHours(before)
  {
    assert (rows + [row])[..|rows|] == rows;
    var before := Filter(AtTime(t), rows);
    assert (before + [row])[..|before|] == before;
  }

  /** A timestamp without a builder has neither samples nor a vCPU value. */
  lemma {:induction false} NothingWithoutBuilder(rows: seq<RawComputeUsage>, t: int)
    requires t !in Timestamps(rows)
    ensures Samples(Filter(AtTime(t), rows)) == [] && VCpuHours(Filter(AtTime(t), rows)) == 0.0
  {
    if rows != [] {
      hide Samples, VCpuHours, Filter;
      var n := |rows| - 1;
      NothingWithoutBuilder(rows[..n], t);
      RowReachesOneBuilder(rows[..n], rows[n], t);
      assert rows[..n] + [rows[n]] == rows;
    }
  }

  lemma {:induction false} TimestampAppended(rows: seq<RawComputeUsage>, row: RawComputeUsage)
    ensures Timestamps(rows + [row]) ==
      Timestamps(rows) + if Groups(row) && row.timestamp !in Timestamps(rows) then [row.timestamp] else []
  {
    assert (rows + [row])[..|rows|] == rows;
  }

  lemma {:induction false} NoTimestamps()
    ensures Timestamps([]) == []
  {
  }

  /** A builder holds what the rows of its timestamp leave in it. */
  ghost predicate Holds(builder: ComputeUsageBuilder, t: int, rows: seq<RawComputeUsage>, constants: Constants)
    reads builder
  {
    builder.timestamp == t && builder.constants == constants &&
    builder.cpuUtilizations == Samples(Filter(AtTime(t), rows)) &&
    builder.vCpuHours == VCpuHours(Filter(AtTime(t), rows))
  }

  ghost predicate Grouped(order: seq<int>, builders: map<int, ComputeUsageBuilder>, rows: seq<RawComputeUsage>,
                          constants: Constants)
    reads builders.Values
  {
    order == Timestamps(rows) && (forall t :: t in builders <==> t in order) &&
    forall t :: t in builders ==> builders[t] in builders.Values && Holds(builders[t], t, rows, constants)
  }

  /** `mergeUsageByTimestamp`: a row is added to the builder of its timestamp, which it makes when there is none. */
  method MergeUsageByTimestamp(order: seq<int>, builders: map<int, ComputeUsageBuilder>, row: RawComputeUsage,
                               constants: Constants, ghost before: seq<RawComputeUsage>)
    returns (orderAfter: seq<int>, after: map<int, ComputeUsageBuilder>)
    requires Grouped(order, builders, before, constants)
    modifies builders.Values
    ensures Grouped(orderAfter, after, before + [row], constants)
    ensures forall b :: b in after.Values ==> b in builders.Values || fresh(b)
  {
    hide Samples, VCpuHours, Timestamps, Filter;
    var usageToUpdate: ComputeUsageBuilder;
    if row.timestamp in builders {
      usageToUpdate := builders[row.timestamp];
    } else {
      NothingWithoutBuilder(before, row.timestamp);
      usageToUpdate := new ComputeUsageBuilder(row.timestamp, constants);
    }
    assert Holds(usageToUpdate, row.timestamp, before, constants);
    match row.metric {
      case CpuUtilization => usageToUpdate.AddCpuUtilization(row.value);
      case VCpus => usageToUpdate.SetVCpuHours(row.value);
      case OtherMetric =>
    }
    RowReachesOneBuilder(before, row, row.timestamp);
    assert Holds(usageToUpdate, row.timestamp, before + [row], constants);
    TimestampAppended(before, row);
    if row.metric.OtherMetric? {
      orderAfter, after := order, builders;
    } else {
      orderAfter := if row.timestamp in builders then order else order + [row.timestamp];
      after := builders[row.timestamp := usageToUpdate];
    }
    forall t | t in after
      ensures after[t] in after.Values && Holds(after[t], t, before + [row], constants)
    {
      RowReachesOneBuilder(before, row, t);
    }
  }

  function UsageAtTimes(times: seq<int>, rows: seq<RawComputeUsage>, constants: Constants): seq<Usage> {
    if times == [] then []
    else
      var usage := BuiltAt(times[|times| - 1], rows, constants);
      UsageAtTimes(times[..|times| - 1], rows, constants) + if usage.vCpuHours > 0.0 then [usage] else []
  }

  /**
    `buildComputeUsages`: one usage for each builder with vCPU hours, in the order in which the builders
    were inserted.
   */
  method BuildComputeUsages(rows: seq<RawComputeUsage>, constants: Constants) returns (usages: seq<Usage>)
    ensures usages == UsageAtTimes(Timestamps(rows), rows, constants)
  {
    hide Samples, VCpuHours, Timestamps, Filter, Built;
    var order: seq<int>, builders: map<int, ComputeUsageBuilder> := [], map[];
    NoTimestamps();
    for n := 0 to |rows|
      invariant Grouped(order, builders, rows[..n], constants)
      invariant forall b :: b in builders.Values ==> fresh(b)
    {
      assert rows[..n + 1] == rows[..n] + [rows[n]];
      order, builders := MergeUsageByTimestamp(order, builders, rows[n], constants, rows[..n]);
    }
    assert rows[..|rows|] == rows;
    usages := [];
    for i := 0 to |order|
      invariant usages == UsageAtTimes(order[..i], rows, constants) && Grouped(order, builders, rows, constants)
    {
      assert order[..i + 1][..i] == order[..i];
      var t := order[i];
      assert t in order;
      var usage := builders[t].Build();
      assert usage == BuiltAt(t, rows, constants);
      if usage.vCpuHours > 0.0 {
        usages := usages + [usage];
      }
    }
    assert order[..|order|] == order;
  }

  // ----- energy -----

  /** The energy estimation formula, where a fixed wattage other than zero replaces the computed one. */
  function EnergyEstimate(usage: Usage, constants: Constants): real {
    EnergyAt(if constants.averageWatts != 0.0 then constants.averageWatts
             else WattsAt(usage.cpuUtilizationAverage, constants.minWatts, constants.maxWatts),
             usage.vCpuHours, constants)
  }

  /** Between the idle and the full wattage, in proportion to the load. */
  function WattsAt(percentage: real, min: real, max: real): real {
    min + percentage / 100.0 * (max - min)
  }

  function EnergyAt(watts: real, vCpuHours: real, constants: Constants): real {
    watts * vCpuHours * constants.powerUsageEffectiveness * constants.replicationFactor / 1000.0
  }

  predicate IsPercentage(x: real) { 0.0 <= x <= 100.0 }

  lemma {:induction false} SumBounds(s: seq<real>)
    requires forall i :: 0 <= i < |s| ==> IsPercentage(s[i])
    ensures 0.0 <= Sum(Identity(), s) <= 100.0 * |s| as real
  {
    if s != [] { SumBounds(s[..|s| - 1]); }
  }

  lemma {:induction false} FactorSign(a: real, n: real)
    requires n > 0.0 && 0.0 <= a * n
    ensures 0.0 <= a
  {
  }

  lemma {:induction false} AverageIsPercentage(sum: real, n: real)
    requires n > 0.0 && 0.0 <= sum <= 100.0 * n
    ensures 0.0 <= sum / n <= 100.0
  {
    var average := sum / n;
    assert average * n == sum;
    assert (100.0 - average) * n == 100.0 * n - sum;
    FactorSign(average, n);
    FactorSign(100.0 - average, n);
  }

  lemma {:induction false} SamplesArePercentages(rows: seq<RawComputeUsage>)
    requires forall i :: 0 <= i < |rows| && rows[i].metric.CpuUtilization? ==> IsPercentage(rows[i].value)
    ensures forall i :: 0 <= i < |Samples(rows)| ==> IsPercentage(Samples(rows)[i])
  {
    if rows != [] { SamplesArePercentages(rows[..|rows| - 1]); }
  }

  lemma {:induction false} Scale(a: real, b: real, c: real)
    requires a <= b && 0.0 <= c
    ensures a * c <= b * c
  {
    assert 0.0 <= (b - a) * c == b * c - a * c;
  }

  lemma {:induction false} LoadBetween(percentage: real, min: real, max: real)
    requires IsPercentage(percentage) && min <= max
    ensures min <= min + percentage / 100.0 * (max - min) <= max
  {
    var part, span := percentage / 100.0, max - min;
    Scale(0.0, part, span);
    Scale(part, 1.0, span);
    assert 0.0 * span == 0.0 && 1.0 * span == span;
  }

  lemma {:induction false} BuiltAverageIsPercentage(timestamp: int, rows: seq<RawComputeUsage>, constants: Constants)
    requires forall i :: 0 <= i < |rows| && rows[i].metric.CpuUtilization? ==> IsPercentage(rows[i].value)
    requires IsPercentage(constants.avgCpuUtilization)
    ensures IsPercentage(Built(timestamp, Samples(rows), VCpuHours(rows), constants).cpuUtilizationAverage)
  {
    hide Sum;
    var samples := Samples(rows);
    SamplesArePercentages(rows);
    SumBounds(samples);
    if samples != [] { AverageIsPercentage(Sum(Identity(), samples), |samples| as real); }
  }

  lemma {:induction false} Reorder(watts: real, hours: real, pue: real, replication: real)
    ensures watts * hours * pue * replication / 1000.0 * 1000.0 == hours * pue * replication * watts
  {
  }

  /**
    The energy in watt hours: the vCPU hours times effectiveness and replication times the fixed wattage or,
    without one, the idle wattage and the load's part of the span to the full wattage.
   */
  lemma {:induction false} EnergyInWattHours(usage: Usage, constants: Constants)
    ensures EnergyEstimate(usage, constants) * 1000.0
         == usage.vCpuHours * constants.powerUsageEffectiveness * constants.replicationFactor *
            (if constants.averageWatts != 0.0 then constants.averageWatts
             else constants.minWatts
                  + usage.cpuUtilizationAverage / 100.0 * (constants.maxWatts - constants.minWatts))
  {
    Reorder(if constants.averageWatts != 0.0 then constants.averageWatts
            else WattsAt(usage.cpuUtilizationAverage, constants.minWatts, constants.maxWatts),
            usage.vCpuHours, constants.powerUsageEffectiveness, constants.replicationFactor);
  }

  /** The energy that the same usage would take at another load. */
  function EnergyAtLoad(usage: Usage, load: real, constants: Constants): real {
    EnergyEstimate(usage.(cpuUtilizationAverage := load), constants)
  }

  /** Without a fixed wattage, energy grows in proportion to the load, from that of idle to that of full processors. */
  lemma {:induction false} EnergyIsLinear(usage: Usage, load: real, constants: Constants)
    requires constants.averageWatts == 0.0
    ensures var scale := usage.vCpuHours * constants.powerUsageEffectiveness * constants.replicationFactor;
            EnergyAtLoad(usage, 0.0, constants) * 1000.0 == scale * constants.minWatts &&
            EnergyAtLoad(usage, 100.0, constants) * 1000.0 == scale * constants.maxWatts
    ensures EnergyAtLoad(usage, load, constants) * 100.0
         == (100.0 - load) * EnergyAtLoad(usage, 0.0, constants) + load * EnergyAtLoad(usage, 100.0, constants)
  {
    hide EnergyEstimate;
    var scale := usage.vCpuHours * constants.powerUsageEffectiveness * constants.replicationFactor;
    var min, max := constants.minWatts, constants.maxWatts;
    EnergyInWattHours(usage.(cpuUtilizationAverage := load), constants);
    EnergyInWattHours(usage.(cpuUtilizationAverage := 0.0), constants);
    EnergyInWattHours(usage.(cpuUtilizationAverage := 100.0), constants);
    Mixed(scale, min, max, load);
    Thousands(EnergyAtLoad(usage, load, constants), EnergyAtLoad(usage, 0.0, constants),
              EnergyAtLoad(usage, 100.0, constants), load);
  }

  lemma {:induction false} Mixed(scale: real, min: real, max: real, load: real)
    ensures scale * (min + 0.0 / 100.0 * (max - min)) == scale * min
    ensures scale * (min + 100.0 / 100.0 * (max - min)) == scale * max
    ensures scale * (min + load / 100.0 * (max - min)) * 100.0 == (100.0 - load) * (scale * min) + load * (scale * max)
  {
  }

  lemma {:induction false} Thousands(e: real, idle: real, full: real, load: real)
    requires e * 1000.0 * 100.0 == (100.0 - load) * (idle * 1000.0) + load * (full * 1000.0)
    ensures e * 100.0 == (100.0 - load) * idle + load * full
  {
    assert (100.0 - load) * (idle * 1000.0) == (100.0 - load) * idle * 1000.0;
    assert load * (full * 1000.0) == load * full * 1000.0;
  }

  lemma {:induction false} UsageWithinLoad(usage: Usage, constants: Constants)
    requires IsPercentage(usage.cpuUtilizationAverage) && 0.0 <= usage.vCpuHours
    requires constants.minWatts <= constants.maxWatts && constants.averageWatts == 0.0
    requires 0.0 <= constants.powerUsageEffectiveness && 0.0 <= constants.replicationFactor
    ensures var scale := usage.vCpuHours * constants.powerUsageEffectiveness * constants.replicationFactor;
            scale * constants.minWatts <= EnergyEstimate(usage, constants) * 1000.0 <= scale * constants.maxWatts
  {
    hide EnergyEstimate;
    var scale := usage.vCpuHours * constants.powerUsageEffectiveness * constants.replicationFactor;
    var watts := constants.minWatts
      + usage.cpuUtilizationAverage / 100.0 * (constants.maxWatts - constants.minWatts);
    EnergyInWattHours(usage, constants);
    LoadBetween(usage.cpuUtilizationAverage, constants.minWatts, constants.maxWatts);
    NonNegative(usage.vCpuHours, constants.powerUsageEffectiveness);
    NonNegative(usage.vCpuHours * constants.powerUsageEffectiveness, constants.replicationFactor);
    ScaledBetween(scale, constants.minWatts, watts, constants.maxWatts);
  }

  lemma {:induction false} NonNegative(a: real, b: real)
    requires 0.0 <= a && 0.0 <= b
    ensures 0.0 <= a * b
  {
  }

  lemma {:induction false} ScaledBetween(scale: real, min: real, watts: real, max: real)
    requires 0.0 <= scale && min <= watts <= max
    ensures scale * min <= scale * watts <= scale * max
  {
    Scale(min, watts, scale);
    Scale(watts, max, scale);
  }

  lemma {:induction false} FilterMembers(t: int, rows: seq<RawComputeUsage>, row: RawComputeUsage)
    requires row in Filter(AtTime(t), rows)
    ensures row in rows && row.timestamp == t
  {
    if row in Filter(AtTime(t), rows[..|rows| - 1]) { FilterMembers(t, rows[..|rows| - 1], row); }
  }

  function UsageAt(rows: seq<RawComputeUsage>, constants: Constants): int -> Usage {
    (t: int) => BuiltAt(t, rows, constants)
  }

  function HasHours(): Usage -> bool { (usage: Usage) => usage.vCpuHours > 0.0 }

  /** The usages come in the order of their timestamps. */
  lemma {:induction false} UsagesInOrder(times: seq<int>, rows: seq<RawComputeUsage>, constants: Constants)
    ensures UsageAtTimes(times, rows, constants) == Filter(HasHours(), Map(UsageAt(rows, constants), times))
  {
    hide Samples, VCpuHours, BuiltAt;
    if times != [] {
      var n := |times| - 1;
      UsagesInOrder(times[..n], rows, constants);
      assert Map(UsageAt(rows, constants), times)[..n] == Map(UsageAt(rows, constants), times[..n]);
    }
  }

  /** There is a usage for each of the timestamps that has vCPU hours, built from the rows of that timestamp. */
  lemma {:induction false} UsageHasTime(times: seq<int>, rows: seq<RawComputeUsage>, constants: Constants, usage: Usage)
    ensures usage in UsageAtTimes(times, rows, constants) <==>
              usage.timestamp in times && usage == BuiltAt(usage.timestamp, rows, constants) && usage.vCpuHours > 0.0
  {
    hide Samples, VCpuHours, Filter;
    if times != [] {
      var n := |times| - 1;
      UsageHasTime(times[..n], rows, constants, usage);
      assert times == times[..n] + [times[n]];
    }
  }

  /**
    With percentages for samples and for the fallback, and no fixed wattage, the energy of every usage
    built lies between that of idle and that of fully loaded processors.
   */
  lemma {:induction false} EnergyWithinLoad(rows: seq<RawComputeUsage>, constants: Constants, usage: Usage)
    requires forall i :: 0 <= i < |rows| && rows[i].metric.CpuUtilization? ==> IsPercentage(rows[i].value)
    requires IsPercentage(constants.avgCpuUtilization) && constants.minWatts <= constants.maxWatts &&
             constants.averageWatts == 0.0
    requires 0.0 <= constants.powerUsageEffectiveness && 0.0 <= constants.replicationFactor
    requires usage in UsageAtTimes(Timestamps(rows), rows, constants)
    ensures var scale := usage.vCpuHours * constants.powerUsageEffectiveness * constants.replicationFactor;
            scale * constants.minWatts <= EnergyEstimate(usage, constants) * 1000.0 <= scale * constants.maxWatts
  {
    hide EnergyEstimate, Samples, VCpuHours, Filter;
    UsageHasTime(Timestamps(rows), rows, constants, usage);
    var group := Filter(AtTime(usage.timestamp), rows);
    forall i | 0 <= i < |group| && group[i].metric.CpuUtilization?
      ensures IsPercentage(group[i].value)
    {
      FilterMembers(usage.timestamp, rows, group[i]);
    }
    BuiltAverageIsPercentage(usage.timestamp, group, constants);
    UsageWithinLoad(usage, constants);
  }

  predicate IsLastVCpus(rows: seq<RawComputeUsage>, k: int) {
    0 <= k < |rows| && rows[k].metric == VCpus && forall i :: k < i < |rows| ==> rows[i].metric != VCpus
  }

  /** The last vCPU row decides the vCPU hours; without one there are none. */
  lemma {:induction false} LastVCpusCount(rows: seq<RawComputeUsage>)
    ensures (forall i :: 0 <= i < |rows| ==> rows[i].metric != VCpus) ==> VCpuHours(rows) == 0.0
    ensures forall k :: IsLastVCpus(rows, k) ==> VCpuHours(rows) == rows[k].value
  {
    if rows != [] {
      var n := |rows| - 1;
      LastVCpusCount(rows[..n]);
      assert forall i :: 0 <= i < n ==> rows[..n][i] == rows[i];
      forall k | IsLastVCpus(rows, k) ensures VCpuHours(rows) == rows[k].value {
        if k < n { assert IsLastVCpus(rows[..n], k); }
      }
    }
  }

  predicate IsSample(row: RawComputeUsage) { row.metric.CpuUtilization? && row.value != 0.0 }

  function SampleFilter(): RawComputeUsage -> bool { (r: RawComputeUsage) => IsSample(r) }

  function ValueOf(): RawComputeUsage -> real { (r: RawComputeUsage) => r.value }

  /** The samples are the utilizations other than zero, in order. */
  lemma {:induction false} SamplesAreFiltered(rows: seq<RawComputeUsage>)
    ensures Samples(rows) == Map(ValueOf(), Filter(SampleFilter(), rows))
  {
    if rows != [] { SamplesAreFiltered(rows[..|rows| - 1]); }
  }

  /**
    Reordering rows changes no usage whose last vCPU value stays last: the samples of a timestamp may
    come in any order, and among rows of other timestamps.
   */
  lemma {:induction false} SampleOrderDoesNotMatter(t: int, a: seq<RawComputeUsage>, b: seq<RawComputeUsage>,
                                                    constants: Constants)
    requires multiset(a) == multiset(b) && VCpuHours(Filter(AtTime(t), a)) == VCpuHours(Filter(AtTime(t), b))
    ensures BuiltAt(t, a, constants) == BuiltAt(t, b, constants)
  {
    hide Filter, VCpuHours, Samples, Sum;
    var groupA, groupB := Filter(AtTime(t), a), Filter(AtTime(t), b);
    FilterIgnoresOrder(AtTime(t), a, b);
    SamplesAreFiltered(groupA);
    SamplesAreFiltered(groupB);
    FilterIgnoresOrder(SampleFilter(), groupA, groupB);
    MapIgnoresOrder(ValueOf(), Filter(SampleFilter(), groupA), Filter(SampleFilter(), groupB));
    SumIgnoresOrder(Identity(), Samples(groupA), Samples(groupB));
    assert |Samples(groupA)| == |multiset(Samples(groupA))| == |multiset(Samples(groupB))| == |Samples(groupB)|;
    if Samples(groupA) == [] { assert Samples(groupB) == []; }
  }
}
