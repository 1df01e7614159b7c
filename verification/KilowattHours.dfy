/**
  The table of energy by service and usage unit, its row of totals, and the estimate of unknown
  usage from that row.
 */
module KilowattHours {
  import opened Options
  import opened Billing
  import opened ExtendedReals

  datatype AccumulateBy = ByCost | ByUsageAmount

  /** A billing row with what the table needs of it. */
  datatype UsageRow = UsageRow(billing: Row, usageUnit: string, usageAmount: real) {
    function Accumulated(mode: AccumulateBy): real {
      match mode
      case ByCost => billing.cost
      case ByUsageAmount => usageAmount
    }
  }

  datatype UnitTotals = UnitTotals(usageAmount: Option<real>, cost: Option<real>, kilowattHours: real) {
    function Get(mode: AccumulateBy): Option<real> {
      match mode
      case ByCost => cost
      case ByUsageAmount => usageAmount
    }

    /** Adds to one of the accumulated quantities, an absent one counting as zero. */
    function Plus(mode: AccumulateBy, amount: real, kwh: real): UnitTotals {
      var sum := Some((match Get(mode) case None => 0.0 case Some(x) => x) + amount);
      match mode
      case ByCost => UnitTotals(usageAmount, sum, kilowattHours + kwh)
      case ByUsageAmount => UnitTotals(sum, cost, kilowattHours + kwh)
    }
  }

  function FirstTotals(mode: AccumulateBy, amount: real, kwh: real): UnitTotals {
    match mode
    case ByCost => UnitTotals(None, Some(amount), kwh)
    case ByUsageAmount => UnitTotals(Some(amount), None, kwh)
  }

  type UnitTable = map<string, UnitTotals>

  type ServiceTable = map<string, UnitTable>

  const TOTAL := "total"

  // ----- reading the table as numbers -----

  datatype Quantity = Energy | Accumulated(mode: AccumulateBy)

  function AmountOf(totals: UnitTotals, q: Quantity): real {
    match q
    case Energy => totals.kilowattHours
    case Accumulated(mode) =>
      match if mode == ByCost then totals.cost else totals.usageAmount
      case None => 0.0
      case Some(x) => x
  }

  /** The table's number for a service, unit and quantity, absent counting as zero. */
  function ValueAt(table: ServiceTable, service: string, unit: string, q: Quantity): real {
    if service in table && unit in table[service] then AmountOf(table[service][unit], q) else 0.0
  }

  /** What accumulating one row adds to its unit: its energy, and its cost or its amount, whichever is accumulated. */
  function Contribution(row: UsageRow, kwh: real, mode: AccumulateBy, unit: string, q: Quantity): real {
    if row.usageUnit != unit then 0.0
    else match q
         case Energy => kwh
         case Accumulated(ByCost) => if mode == ByCost then row.billing.cost else 0.0
         case Accumulated(ByUsageAmount) => if mode == ByUsageAmount then row.usageAmount else 0.0
  }

  // ----- the table in place -----

  class KilowattHourTable {
    var table: ServiceTable

    constructor ()
      ensures table == map["total" := map[]] && forall u, q :: TotalsMatch(table, u, q)
    {
      table := map[TOTAL := map[]];
    }

    /** `setOrAccumulateByServiceAndUsageUnit`. */
    method SetOrAccumulateByService(row: UsageRow, kwh: real, mode: AccumulateBy)
      modifies this
      ensures table.Keys == old(table.Keys) + {row.billing.serviceName}
      ensures forall s, u, q :: ValueAt(table, s, u, q) == ValueAt(old(table), s, u, q)
                + if s == row.billing.serviceName then Contribution(row, kwh, mode, u, q) else 0.0
      ensures forall s, u :: s in table && u in table[s] <==>
                (s in old(table) && u in old(table[s])) || (s == row.billing.serviceName && u == row.usageUnit)
    {
      var service, unit, amount := row.billing.serviceName, row.usageUnit, row.Accumulated(mode);
      if service !in table {
        table := table[service := map[unit := FirstTotals(mode, amount, kwh)]];
        return;
      }
      if unit !in table[service] {
        table := table[service := table[service][unit := FirstTotals(mode, amount, kwh)]];
        return;
      }
      table := table[service := table[service][unit := table[service][unit].Plus(mode, amount, kwh)]];
    }

    /** `setOrAccumulateUsageUnitTotals`. */
    method SetOrAccumulateTotals(row: UsageRow, kwh: real, mode: AccumulateBy)
      requires TOTAL in table
      modifies this
      ensures table.Keys == old(table.Keys)
      ensures forall s, u, q :: ValueAt(table, s, u, q) == ValueAt(old(table), s, u, q)
                + if s == TOTAL then Contribution(row, kwh, mode, u, q) else 0.0
      ensures forall s, u :: s in table && u in table[s] <==>
                (s in old(table) && u in old(table[s])) || (s == TOTAL && u == row.usageUnit)
    {
      var unit, amount := row.usageUnit, row.Accumulated(mode);
      if unit in table[TOTAL] {
        table := table[TOTAL := table[TOTAL][unit := table[TOTAL][unit].Plus(mode, amount, kwh)]];
      } else {
        table := table[TOTAL := table[TOTAL][unit := FirstTotals(mode, amount, kwh)]];
      }
    }

    /** `accumulateKilowattHours`: a row of a service named `total` is added to the totals twice. */
    method AccumulateKilowattHours(row: UsageRow, kwh: real, mode: AccumulateBy)
      requires TOTAL in table
      modifies this
      ensures table.Keys == old(table.Keys) + {row.billing.serviceName}
      ensures forall s, u, q :: ValueAt(table, s, u, q) == ValueAt(old(table), s, u, q)
                + (if s == row.billing.serviceName then Contribution(row, kwh, mode, u, q) else 0.0)
                + (if s == TOTAL then Contribution(row, kwh, mode, u, q) else 0.0)
      ensures forall s, u :: s in table && u in table[s] <==>
                (s in old(table) && u in old(table[s])) ||
                ((s == row.billing.serviceName || s == TOTAL) && u == row.usageUnit)
    {
      SetOrAccumulateByService(row, kwh, mode);
      SetOrAccumulateTotals(row, kwh, mode);
    }

    /** Rows accumulated one after another, each by its own quantity. */
    method AccumulateAll(rows: seq<(UsageRow, real, AccumulateBy)>)
      requires TOTAL in table
      modifies this
      ensures TOTAL in table
      ensures forall u, q :: TotalsMatch(old(table), u, q) ==>
                ValueAt(table, TOTAL, u, q)
                  == ColumnSum(table, table.Keys - {TOTAL}, u, q) + 2.0 * NamedTotal(rows, u, q) &&
                (TotalsMatch(table, u, q) <==> NamedTotal(rows, u, q) == 0.0)
    {
      for n := 0 to |rows|
        invariant TOTAL in table
        invariant forall u, q :: TotalsMatch(old(table), u, q) ==>
                    ValueAt(table, TOTAL, u, q)
                      == ColumnSum(table, table.Keys - {TOTAL}, u, q) + 2.0 * NamedTotal(rows[..n], u, q)
      {
        var (row, kwh, mode) := rows[n];
        ghost var before := table;
        assert rows[..n + 1][..n] == rows[..n];
        AccumulateKilowattHours(row, kwh, mode);
        forall u, q
          ensures ColumnSum(table, table.Keys - {TOTAL}, u, q) == ColumnSum(before, before.Keys - {TOTAL}, u, q)
                    + if row.billing.serviceName == TOTAL then 0.0 else Contribution(row, kwh, mode, u, q)
        {
          ColumnAfterRow(before, table, row, kwh, mode, u, q);
        }
      }
      assert rows[..|rows|] == rows;
    }
  }

  // ----- the row of totals -----

  ghost function ColumnSum(table: ServiceTable, services: set<string>, unit: string, q: Quantity): real {
    if services == {} then 0.0
    else var s :| s in services; ValueAt(table, s, unit, q) + ColumnSum(table, services - {s}, unit, q)
  }

  ghost predicate TotalsMatch(table: ServiceTable, unit: string, q: Quantity) {
    ValueAt(table, TOTAL, unit, q) == ColumnSum(table, table.Keys - {TOTAL}, unit, q)
  }

  /** What rows of a service named `total` add up to. */
  function NamedTotal(rows: seq<(UsageRow, real, AccumulateBy)>, unit: string, q: Quantity): real {
    if rows == [] then 0.0
    else
      var (row, kwh, mode) := rows[|rows| - 1];
      NamedTotal(rows[..|rows| - 1], unit, q)
      + if row.billing.serviceName == TOTAL then Contribution(row, kwh, mode, unit, q) else 0.0
  }

  lemma {:induction false} ColumnSumPick(table: ServiceTable, services: set<string>, unit: string, q: Quantity,
                                         s: string)
    requires s in services
    ensures ColumnSum(table, services, unit, q)
              == ValueAt(table, s, unit, q) + ColumnSum(table, services - {s}, unit, q)
    decreases services
  {
    var p :| p in services &&
             ColumnSum(table, services, unit, q)
               == ValueAt(table, p, unit, q) + ColumnSum(table, services - {p}, unit, q);
    if p != s {
      ColumnSumPick(table, services - {p}, unit, q, s);
      ColumnSumPick(table, services - {s}, unit, q, p);
      assert services - {p} - {s} == services - {s} - {p};
    }
  }

  lemma {:induction false} ColumnSumSame(a: ServiceTable, b: ServiceTable, services: set<string>, unit: string,
                                         q: Quantity)
    requires forall s :: s in services ==> ValueAt(a, s, unit, q) == ValueAt(b, s, unit, q)
    ensures ColumnSum(a, services, unit, q) == ColumnSum(b, services, unit, q)
    decreases services
  {
    if services != {} {
      var s :| s in services;
      ColumnSumPick(a, services, unit, q, s);
      ColumnSumPick(b, services, unit, q, s);
      ColumnSumSame(a, b, services - {s}, unit, q);
    }
  }

  lemma {:induction false} ColumnAfterRow(before: ServiceTable, after: ServiceTable, row: UsageRow, kwh: real,
                                          mode: AccumulateBy, unit: string, q: Quantity)
    requires after.Keys == before.Keys + {row.billing.serviceName}
    requires forall s :: s != TOTAL ==>
               ValueAt(after, s, unit, q)
               == ValueAt(before, s, unit, q)
                 + (if s == row.billing.serviceName then Contribution(row, kwh, mode, unit, q) else 0.0)
    ensures ColumnSum(after, after.Keys - {TOTAL}, unit, q) == ColumnSum(before, before.Keys - {TOTAL}, unit, q)
              + if row.billing.serviceName == TOTAL then 0.0 else Contribution(row, kwh, mode, unit, q)
  {
    var service := row.billing.serviceName;
    var others := before.Keys - {TOTAL} - {service};
    ColumnSumSame(before, after, others, unit, q);
    if service == TOTAL {
      assert after.Keys - {TOTAL} == others == before.Keys - {TOTAL};
    } else {
      assert after.Keys - {TOTAL} - {service} == others;
      ColumnSumPick(after, after.Keys - {TOTAL}, unit, q, service);
      if service in before {
        ColumnSumPick(before, before.Keys - {TOTAL}, unit, q, service);
      } else {
        assert before.Keys - {TOTAL} == others;
      }
    }
  }

  // ----- unknown usage -----

  /** A division by zero or by an absent quantity gives no finite number. */
  function Proportional(totals: UnitTotals, mode: AccumulateBy, amount: real): ExtendedReal {
    match totals.Get(mode)
    case None => NotFinite
    case Some(known) => if known == 0.0 then NotFinite else Finite(totals.kilowattHours / known * amount)
  }

  /** `estimateKilowattHours`: by the service's row if it has the unit, else by the totals, else zero. */
  function EstimateKilowattHours(table: ServiceTable, service: Option<string>, unit: string, mode: AccumulateBy,
                                 amount: real): ExtendedReal
    requires TOTAL in table
  {
    if service.Some? && service.value in table && unit in table[service.value]
      then Proportional(table[service.value][unit], mode, amount)
    else if unit in table[TOTAL] then Proportional(table[TOTAL][unit], mode, amount)
    else Finite(0.0)
  }

  /**
    Known energy stands to the known quantity as the estimate to the amount; without such a quantity it
    is not finite.
   */
  ghost predicate IsShare(table: ServiceTable, service: string, unit: string, mode: AccumulateBy, amount: real,
                          estimate: ExtendedReal) {
    var known := ValueAt(table, service, unit, Accumulated(mode));
    if known == 0.0 then estimate == NotFinite
    else estimate.Finite? && estimate.value * known == ValueAt(table, service, unit, Energy) * amount
  }

  /**
    Unknown usage takes its share of the service's row if it has the unit, else of the totals if they
    have it, and is nothing in a unit of which nothing is known.
   */
  lemma {:induction false} EstimateIsShare(table: ServiceTable, service: Option<string>, unit: string,
                                           mode: AccumulateBy, amount: real)
    requires TOTAL in table
    ensures var estimate := EstimateKilowattHours(table, service, unit, mode, amount);
            if service.Some? && service.value in table && unit in table[service.value]
            then IsShare(table, service.value, unit, mode, amount, estimate)
            else if unit in table[TOTAL] then IsShare(table, TOTAL, unit, mode, amount, estimate)
            else estimate == Finite(0.0)
  {
    if service.Some? && service.value in table && unit in table[service.value] {
      ShareOf(table[service.value][unit], mode, amount);
    } else if unit in table[TOTAL] {
      ShareOf(table[TOTAL][unit], mode, amount);
    }
  }

  lemma {:induction false} ShareOf(totals: UnitTotals, mode: AccumulateBy, amount: real)
    ensures var known, estimate := AmountOf(totals, Accumulated(mode)), Proportional(totals, mode, amount);
            if known == 0.0 then estimate == NotFinite
            else estimate.Finite? && estimate.value * known == AmountOf(totals, Energy) * amount
  {
    if AmountOf(totals, Accumulated(mode)) != 0.0 {
      Divided(totals.kilowattHours, AmountOf(totals, Accumulated(mode)), amount);
    }
  }

  lemma {:induction false} Divided(energy: real, known: real, amount: real)
    requires known != 0.0
    ensures energy / known * amount * known == energy * amount
  {
  }
}
