/**
  A region's data: estimates and costs of each service added up by day, and the days of all services
  put together.
 */
module RegionData {
  import opened Options
  import opened Calendar
  import opened Ordering
  import opened Sums

  datatype FootprintEstimate = FootprintEstimate(timestamp: int, kilowattHours: real, co2e: real,
                                                 usesAverageCPUConstant: bool)

  datatype Cost = Cost(timestamp: int, amount: real, currency: string)

  /** What a day's result says about a service. */
  datatype ServiceLine = ServiceLine(day: int, serviceName: string, kilowattHours: real, co2e: real, cost: real,
                                     usesAverageCPUConstant: bool)

  datatype DayResult = DayResult(timestamp: int, services: seq<ServiceLine>, periodStart: int, periodEnd: int,
                                 groupBy: GroupBy)

  function EstimateDay(): FootprintEstimate -> int { (e: FootprintEstimate) => DayNumber(e.timestamp) }

  function CostDay(): Cost -> int { (c: Cost) => DayNumber(c.timestamp) }

  function LineDay(): ServiceLine -> int { (l: ServiceLine) => l.day }

  function ResultTime(): DayResult -> int { (r: DayResult) => r.timestamp }

  // ----- reducing by a key -----

  function Fold<A, T>(step: (A, T) -> A, init: A, s: seq<T>): A {
    if s == [] then init else step(Fold(step, init, s[..|s| - 1]), s[|s| - 1])
  }

  /** The keys that occur, in order of first occurrence. */
  function Keys<T>(key: T -> int, s: seq<T>): seq<int> {
    if s == [] then []
    else
      var before, k := Keys(key, s[..|s| - 1]), key(s[|s| - 1]);
      if k in before then before else before + [k]
  }

  lemma {:induction false} KeysMembers<T>(key: T -> int, s: seq<T>, k: int)
    ensures k in Keys(key, s) <==> HasKey(key, s, k)
  {
    if s != [] {
      KeysMembers(key, s[..|s| - 1], k);
      var n := |s| - 1;
      if HasKey(key, s, k) {
        var i :| 0 <= i < |s| && key(s[i]) == k;
        assert i < n ==> s[..n][i] == s[i];
      }
      if HasKey(key, s[..n], k) {
        var i :| 0 <= i < n && key(s[..n][i]) == k;
        assert s[i] == s[..n][i];
      }
    }
  }

  ghost predicate Distinct(ks: seq<int>) {
    forall i, j :: 0 <= i < j < |ks| ==> ks[i] != ks[j]
  }

  lemma {:induction false} KeysDistinct<T>(key: T -> int, s: seq<T>)
    ensures Distinct(Keys(key, s))
  {
    if s != [] { KeysDistinct(key, s[..|s| - 1]); }
  }

  /** `reduceBy`: for a key that occurs, the fold over its members. */
  function Reduced<A, T>(step: (A, T) -> A, init: A, key: T -> int, s: seq<T>): map<int, A> {
    map k | k in Keys(key, s) :: Fold(step, init, WithKey(key, k, s))
  }

  lemma {:induction false} OccurringKey<T>(key: T -> int, s: seq<T>, k: int)
    ensures HasKey(key, s, k) <==> WithKey(key, k, s) != []
  {
    if s != [] {
      TailKey(key, s, k);
      OccurringKey(key, s[1..], k);
    }
  }

  lemma {:induction false} NoKeys<T>(key: T -> int)
    ensures Keys(key, []) == []
  {
  }

  lemma {:induction false} KeysAppend<T>(key: T -> int, s: seq<T>, x: T)
    ensures Keys(key, s + [x]) == Keys(key, s) + if key(x) in Keys(key, s) then [] else [key(x)]
  {
    assert (s + [x])[..|s|] == s;
  }

  /** More members only add keys behind those that there are, so keys come in order of first occurrence. */
  lemma {:induction false} KeysGrow<T>(key: T -> int, s: seq<T>, more: seq<T>)
    ensures Keys(key, s) <= Keys(key, s + more)
  {
    hide Keys;
    if more == [] {
      assert s + more == s;
    } else {
      var n := |more| - 1;
      KeysGrow(key, s, more[..n]);
      assert s + more == s + more[..n] + [more[n]];
      KeysAppend(key, s + more[..n], more[n]);
    }
  }

  lemma {:induction false} FoldAppend<A, T>(step: (A, T) -> A, init: A, s: seq<T>, x: T)
    ensures Fold(step, init, s + [x]) == step(Fold(step, init, s), x) && Fold(step, init, []) == init
  {
    assert (s + [x])[..|s|] == s;
  }

  lemma {:induction false} WithKeyAppend<T>(key: T -> int, k: int, s: seq<T>, x: T)
    ensures WithKey(key, k, s + [x]) == if key(x) == k then WithKey(key, k, s) + [x] else WithKey(key, k, s)
  {
    WithKeyConcat(key, k, s, [x]);
  }

  /** Grouping one member at a time: it is added to what its key has, or to the initial value. */
  lemma {:induction false} ReducedStep<A, T>(step: (A, T) -> A, init: A, key: T -> int, s: seq<T>, x: T)
    ensures var before := Reduced(step, init, key, s);
            Reduced(step, init, key, s + [x])
              == before[key(x) := step(if key(x) in before then before[key(x)] else init, x)]
  {
    hide Keys, Fold, WithKey;
    KeysAppend(key, s, x);
    KeysMembers(key, s, key(x));
    OccurringKey(key, s, key(x));
    forall k
      ensures WithKey(key, k, s + [x]) == if key(x) == k then WithKey(key, k, s) + [x] else WithKey(key, k, s)
    {
      WithKeyAppend(key, k, s, x);
    }
    FoldAppend(step, init, WithKey(key, key(x), s), x);
  }

  lemma {:induction false} NothingReduced<A, T>(step: (A, T) -> A, init: A, key: T -> int)
    ensures Reduced(step, init, key, []) == map[]
  {
  }

  // ----- adding up by day -----

  /** The accumulator of `aggregateEstimatesByDay`. */
  function AddEstimate(): (FootprintEstimate, FootprintEstimate) -> FootprintEstimate {
    (acc: FootprintEstimate, value: FootprintEstimate) =>
      FootprintEstimate(
        if acc.timestamp == 0 then Midnight(DayNumber(value.timestamp)) else acc.timestamp,
        acc.kilowattHours + value.kilowattHours,
        acc.co2e + value.co2e,
        if value.usesAverageCPUConstant then acc.usesAverageCPUConstant || value.usesAverageCPUConstant
        else acc.usesAverageCPUConstant)
  }

  const NO_ESTIMATE := FootprintEstimate(0, 0.0, 0.0, false)

  /** The accumulator of `aggregateCostsByDay`. */
  function AddCost(): (Cost, Cost) -> Cost {
    (acc: Cost, value: Cost) =>
      Cost(
        if acc.timestamp == 0 then Midnight(DayNumber(value.timestamp)) else acc.timestamp,
        acc.amount + value.amount,
        if acc.currency == "" then value.currency else acc.currency)
  }

  const NO_COST := Cost(0, 0.0, "")

  function AggregateEstimatesByDay(estimates: seq<FootprintEstimate>): map<int, FootprintEstimate> {
    Reduced(AddEstimate(), NO_ESTIMATE, EstimateDay(), estimates)
  }

  function AggregateCostsByDay(costs: seq<Cost>): map<int, Cost> {
    Reduced(AddCost(), NO_COST, CostDay(), costs)
  }

  // ----- the accumulators in place -----

  class DayEstimate {
    var timestamp: int
    var kilowattHours: real
    var co2e: real
    var usesAverageCPUConstant: bool

    constructor ()
      ensures View() == NO_ESTIMATE
    {
      timestamp, kilowattHours, co2e, usesAverageCPUConstant := 0, 0.0, 0.0, false;
    }

    function View(): FootprintEstimate
      reads this
    {
      FootprintEstimate(timestamp, kilowattHours, co2e, usesAverageCPUConstant)
    }

    method Accumulate(value: FootprintEstimate)
      modifies this
      ensures View() == AddEstimate()(old(View()), value)
    {
      if timestamp == 0 {
        timestamp := Midnight(DayNumber(value.timestamp));
      }
      kilowattHours := kilowattHours + value.kilowattHours;
      co2e := co2e + value.co2e;
      if value.usesAverageCPUConstant {
        usesAverageCPUConstant := usesAverageCPUConstant || value.usesAverageCPUConstant;
      }
    }
  }

  class DayCost {
    var timestamp: int
    var amount: real
    var currency: string

    constructor ()
      ensures View() == NO_COST
    {
      timestamp, amount, currency := 0, 0.0, "";
    }

    function View(): Cost
      reads this
    {
      Cost(timestamp, amount, currency)
    }

    method Accumulate(value: Cost)
      modifies this
      ensures View() == AddCost()(old(View()), value)
    {
      if timestamp == 0 {
        timestamp := Midnight(DayNumber(value.timestamp));
      }
      amount := amount + value.amount;
      if currency == "" {
        currency := value.currency;
      }
    }
  }

  /** `aggregateEstimatesByDay`: one accumulator for each day that occurs. */
  method SumEstimatesByDay(estimates: seq<FootprintEstimate>) returns (byDay: map<int, DayEstimate>)
    ensures byDay.Keys == AggregateEstimatesByDay(estimates).Keys
    ensures forall d :: d in byDay ==> fresh(byDay[d]) && byDay[d].View() == AggregateEstimatesByDay(estimates)[d]
  {
    hide AddEstimate, Reduced;
    byDay := map[];
    assert AggregateEstimatesByDay([]) == map[] by { NothingReduced(AddEstimate(), NO_ESTIMATE, EstimateDay()); }
    for n := 0 to |estimates|
      invariant byDay.Keys == AggregateEstimatesByDay(estimates[..n]).Keys
      invariant forall d :: d in byDay ==>
                  fresh(byDay[d]) && byDay[d].View() == AggregateEstimatesByDay(estimates[..n])[d]
      invariant forall d, e :: d in byDay && e in byDay && d != e ==> byDay[d] != byDay[e]
    {
      var value := estimates[n];
      var day := DayNumber(value.timestamp);
      assert estimates[..n + 1] == estimates[..n] + [value];
      ReducedStep(AddEstimate(), NO_ESTIMATE, EstimateDay(), estimates[..n], value);
      if day !in byDay {
        var acc := new DayEstimate();
        byDay := byDay[day := acc];
      }
      byDay[day].Accumulate(value);
    }
    assert estimates[..|estimates|] == estimates;
  }

  /** `aggregateCostsByDay`, likewise. */
  method SumCostsByDay(costs: seq<Cost>) returns (byDay: map<int, DayCost>)
    ensures byDay.Keys == AggregateCostsByDay(costs).Keys
    ensures forall d :: d in byDay ==> fresh(byDay[d]) && byDay[d].View() == AggregateCostsByDay(costs)[d]
  {
    hide AddCost, Reduced;
    byDay := map[];
    assert AggregateCostsByDay([]) == map[] by { NothingReduced(AddCost(), NO_COST, CostDay()); }
    for n := 0 to |costs|
      invariant byDay.Keys == AggregateCostsByDay(costs[..n]).Keys
      invariant forall d :: d in byDay ==> fresh(byDay[d]) && byDay[d].View() == AggregateCostsByDay(costs[..n])[d]
      invariant forall d, e :: d in byDay && e in byDay && d != e ==> byDay[d] != byDay[e]
    {
      var value := costs[n];
      var day := DayNumber(value.timestamp);
      assert costs[..n + 1] == costs[..n] + [value];
      ReducedStep(AddCost(), NO_COST, CostDay(), costs[..n], value);
      if day !in byDay {
        var acc := new DayCost();
        byDay := byDay[day := acc];
      }
      byDay[day].Accumulate(value);
    }
    assert costs[..|costs|] == costs;
  }

  function Energy(): FootprintEstimate -> real { (e: FootprintEstimate) => e.kilowattHours }

  function Emissions(): FootprintEstimate -> real { (e: FootprintEstimate) => e.co2e }

  function Amount(): Cost -> real { (c: Cost) => c.amount }

  lemma {:induction false} EstimatesAddUp(s: seq<FootprintEstimate>)
    ensures var total := Fold(AddEstimate(), NO_ESTIMATE, s);
            total.kilowattHours == Sum(Energy(), s) && total.co2e == Sum(Emissions(), s) &&
            (total.usesAverageCPUConstant <==> exists e :: e in s && e.usesAverageCPUConstant)
    ensures forall day :: s != [] && (forall e :: e in s ==> DayNumber(e.timestamp) == day) ==>
              Fold(AddEstimate(), NO_ESTIMATE, s).timestamp == Midnight(day)
  {
    if s != [] {
      var n := |s| - 1;
      EstimatesAddUp(s[..n]);
      assert s == s[..n] + [s[n]];
      assert forall e :: e in s <==> e in s[..n] || e == s[n];
      if n == 0 { assert s[..n] == []; }
    }
  }

  lemma {:induction false} CostsAddUp(s: seq<Cost>)
    ensures Fold(AddCost(), NO_COST, s).amount == Sum(Amount(), s)
    ensures forall day :: s != [] && (forall c :: c in s ==> DayNumber(c.timestamp) == day) ==>
              Fold(AddCost(), NO_COST, s).timestamp == Midnight(day)
  {
    if s != [] {
      var n := |s| - 1;
      CostsAddUp(s[..n]);
      assert s == s[..n] + [s[n]];
      assert forall c :: c in s <==> c in s[..n] || c == s[n];
      if n == 0 { assert s[..n] == []; }
    }
  }

  /** A cost with a currency, before which there is none. */
  predicate IsFirstCurrency(s: seq<Cost>, k: int) {
    0 <= k < |s| && s[k].currency != "" && forall i :: 0 <= i < k ==> s[i].currency == ""
  }

  /** A day's costs have the currency of the first cost that has one. */
  lemma {:induction false} FirstCurrencyCounts(s: seq<Cost>)
    ensures (forall i :: 0 <= i < |s| ==> s[i].currency == "") ==> Fold(AddCost(), NO_COST, s).currency == ""
    ensures forall k :: IsFirstCurrency(s, k) ==> Fold(AddCost(), NO_COST, s).currency == s[k].currency
  {
    if s != [] {
      var n := |s| - 1;
      FirstCurrencyCounts(s[..n]);
      assert forall i :: 0 <= i < n ==> s[..n][i] == s[i];
      forall k | IsFirstCurrency(s, k) ensures Fold(AddCost(), NO_COST, s).currency == s[k].currency {
        if k < n { assert IsFirstCurrency(s[..n], k); }
      }
    }
  }

  // ----- one service -----

  /** The union of two lists without repetitions. */
  function Union(a: seq<int>, b: seq<int>): seq<int> {
    if b == [] then a
    else
      var before, k := Union(a, b[..|b| - 1]), b[|b| - 1];
      if k in before then before else before + [k]
  }

  lemma {:induction false} UnionMembers(a: seq<int>, b: seq<int>, k: int)
    ensures k in Union(a, b) <==> k in a || k in b
  {
    if b != [] {
      UnionMembers(a, b[..|b| - 1], k);
      assert b == b[..|b| - 1] + [b[|b| - 1]];
    }
  }

  lemma {:induction false} UnionDistinct(a: seq<int>, b: seq<int>)
    requires Distinct(a)
    ensures Distinct(Union(a, b))
  {
    if b != [] { UnionDistinct(a, b[..|b| - 1]); }
  }

  function ServiceDays(estimates: seq<FootprintEstimate>, costs: seq<Cost>): seq<int> {
    Union(Keys(EstimateDay(), estimates), Keys(CostDay(), costs))
  }

  function LineFor(name: string, estimates: seq<FootprintEstimate>, costs: seq<Cost>): int -> ServiceLine {
    (day: int) =>
      var byDay, costsByDay := AggregateEstimatesByDay(estimates), AggregateCostsByDay(costs);
      var estimate := if day in byDay then byDay[day] else NO_ESTIMATE;
      ServiceLine(day, name, estimate.kilowattHours, estimate.co2e,
                  if day in costsByDay then costsByDay[day].amount else 0.0, estimate.usesAverageCPUConstant)
  }

  /** One line for each day on which the service has an estimate or a cost. */
  function ServiceLines(name: string, estimates: seq<FootprintEstimate>, costs: seq<Cost>): seq<ServiceLine> {
    Map(LineFor(name, estimates, costs), ServiceDays(estimates, costs))
  }

  lemma {:induction false} LineAddsUp(name: string, estimates: seq<FootprintEstimate>, costs: seq<Cost>, day: int)
    ensures var line := LineFor(name, estimates, costs)(day);
            line.day == day && line.serviceName == name &&
            line.kilowattHours == Sum(Energy(), WithKey(EstimateDay(), day, estimates)) &&
            line.co2e == Sum(Emissions(), WithKey(EstimateDay(), day, estimates)) &&
            line.cost == Sum(Amount(), WithKey(CostDay(), day, costs)) &&
            (line.usesAverageCPUConstant <==>
               exists e :: e in WithKey(EstimateDay(), day, estimates) && e.usesAverageCPUConstant)
  {
    hide Sum, Fold, Keys, WithKey, HasKey;
    EstimatesAddUp(WithKey(EstimateDay(), day, estimates));
    CostsAddUp(WithKey(CostDay(), day, costs));
    KeysMembers(EstimateDay(), estimates, day);
    KeysMembers(CostDay(), costs, day);
    AbsentKey(EstimateDay(), estimates, day, Energy());
    AbsentKey(EstimateDay(), estimates, day, Emissions());
    AbsentKey(CostDay(), costs, day, Amount());
    OccurringKey(EstimateDay(), estimates, day);
  }

  lemma {:induction false} AbsentKey<T>(key: T -> int, s: seq<T>, k: int, f: T -> real)
    ensures !HasKey(key, s, k) ==> Sum(f, WithKey(key, k, s)) == 0.0
  {
    if s != [] && !HasKey(key, s, k) {
      assert key(s[0]) != k;
      assert forall i :: 0 <= i < |s[1..]| ==> s[1..][i] == s[i + 1];
      AbsentKey(key, s[1..], k, f);
      assert [] + WithKey(key, k, s[1..]) == WithKey(key, k, s[1..]);
    }
  }

  /** Sums over groups: the members of each listed key, key by key. */
  function SumByKey<T>(f: T -> real, key: T -> int, ks: seq<int>, s: seq<T>): real {
    if ks == [] then 0.0
    else SumByKey(f, key, ks[..|ks| - 1], s) + Sum(f, WithKey(key, ks[|ks| - 1], s))
  }

  lemma {:induction false} SumByKeyCons<T>(f: T -> real, key: T -> int, ks: seq<int>, x: T, s: seq<T>)
    requires Distinct(ks)
    ensures SumByKey(f, key, ks, [x] + s) == SumByKey(f, key, ks, s) + if key(x) in ks then f(x) else 0.0
  {
    hide Sum, WithKey;
    if ks != [] {
      var n := |ks| - 1;
      SumByKeyCons(f, key, ks[..n], x, s);
      WithKeyCons(key, ks[n], x, s);
      SumOne(f, x);
      SumConcat(f, [x], WithKey(key, ks[n], s));
      assert [] + WithKey(key, ks[n], s) == WithKey(key, ks[n], s);
      assert ks == ks[..n] + [ks[n]];
      assert key(x) == ks[n] ==> key(x) !in ks[..n];
    }
  }

  lemma {:induction false} SumOne<T>(f: T -> real, x: T)
    ensures Sum(f, [x]) == f(x)
  {
    SumAppend(f, [], x);
    assert [] + [x] == [x];
  }

  /** When the listed keys are distinct and cover the list, the sums by key add up to the sum. */
  lemma {:induction false} SumByKeyIsSum<T>(f: T -> real, key: T -> int, ks: seq<int>, s: seq<T>)
    requires Distinct(ks) && forall i :: 0 <= i < |s| ==> key(s[i]) in ks
    ensures SumByKey(f, key, ks, s) == Sum(f, s)
  {
    hide Sum, WithKey;
    if s == [] {
      SumByKeyNothing(f, key, ks);
    } else {
      SumByKeyIsSum(f, key, ks, s[1..]);
      assert s == [s[0]] + s[1..];
      SumByKeyCons(f, key, ks, s[0], s[1..]);
      SumOne(f, s[0]);
      SumConcat(f, [s[0]], s[1..]);
    }
  }

  lemma {:induction false} SumByKeyNothing<T>(f: T -> real, key: T -> int, ks: seq<int>)
    ensures SumByKey(f, key, ks, []) == 0.0 && Sum(f, []) == 0.0
  {
    if ks != [] { SumByKeyNothing(f, key, ks[..|ks| - 1]); }
  }

  function LineEnergy(): ServiceLine -> real { (l: ServiceLine) => l.kilowattHours }

  function LineEmissions(): ServiceLine -> real { (l: ServiceLine) => l.co2e }

  function LineCost(): ServiceLine -> real { (l: ServiceLine) => l.cost }

  lemma {:induction false} LinesSumByKey(name: string, estimates: seq<FootprintEstimate>, costs: seq<Cost>,
                                         days: seq<int>)
    ensures Sum(LineEnergy(), Map(LineFor(name, estimates, costs), days))
              == SumByKey(Energy(), EstimateDay(), days, estimates)
    ensures Sum(LineEmissions(), Map(LineFor(name, estimates, costs), days))
              == SumByKey(Emissions(), EstimateDay(), days, estimates)
    ensures Sum(LineCost(), Map(LineFor(name, estimates, costs), days)) == SumByKey(Amount(), CostDay(), days, costs)
  {
    hide LineFor, WithKey;
    if days != [] {
      var n := |days| - 1;
      LinesSumByKey(name, estimates, costs, days[..n]);
      LineAddsUp(name, estimates, costs, days[n]);
      assert Map(LineFor(name, estimates, costs), days)[..n] == Map(LineFor(name, estimates, costs), days[..n]);
    }
  }

  /** The lines of a service hold all its energy, emissions and cost, one line per day. */
  lemma {:induction false} ServiceConserves(name: string, estimates: seq<FootprintEstimate>, costs: seq<Cost>)
    ensures var lines := ServiceLines(name, estimates, costs);
            Sum(LineEnergy(), lines) == Sum(Energy(), estimates) &&
            Sum(LineEmissions(), lines) == Sum(Emissions(), estimates) &&
            Sum(LineCost(), lines) == Sum(Amount(), costs)
  {
    hide Sum, Map, Keys, Union, LineFor, HasKey, SumByKey;
    var days := ServiceDays(estimates, costs);
    DaysOfService(estimates, costs, 0);
    forall i | 0 <= i < |estimates| ensures EstimateDay()(estimates[i]) in days {
      DaysOfService(estimates, costs, EstimateDay()(estimates[i]));
      KeyOccurs(EstimateDay(), estimates, i);
    }
    forall i | 0 <= i < |costs| ensures CostDay()(costs[i]) in days {
      DaysOfService(estimates, costs, CostDay()(costs[i]));
      KeyOccurs(CostDay(), costs, i);
    }
    LinesSumByKey(name, estimates, costs, days);
    SumByKeyIsSum(Energy(), EstimateDay(), days, estimates);
    SumByKeyIsSum(Emissions(), EstimateDay(), days, estimates);
    SumByKeyIsSum(Amount(), CostDay(), days, costs);
  }

  lemma {:induction false} KeyOccurs<T>(key: T -> int, s: seq<T>, i: int)
    requires 0 <= i < |s|
    ensures HasKey(key, s, key(s[i]))
  {
  }

  lemma {:induction false} DaysOfService(estimates: seq<FootprintEstimate>, costs: seq<Cost>, day: int)
    ensures Distinct(ServiceDays(estimates, costs))
    ensures day in ServiceDays(estimates, costs) <==>
              HasKey(EstimateDay(), estimates, day) || HasKey(CostDay(), costs, day)
  {
    hide Keys, Union, HasKey;
    KeysDistinct(EstimateDay(), estimates);
    UnionDistinct(Keys(EstimateDay(), estimates), Keys(CostDay(), costs));
    UnionMembers(Keys(EstimateDay(), estimates), Keys(CostDay(), costs), day);
    KeysMembers(EstimateDay(), estimates, day);
    KeysMembers(CostDay(), costs, day);
  }

  /** A service has one line on a day if it has an estimate or a cost that day, else none. */
  lemma {:induction false} OneLinePerDay(name: string, estimates: seq<FootprintEstimate>, costs: seq<Cost>, day: int)
    ensures WithKey(LineDay(), day, ServiceLines(name, estimates, costs))
         == if HasKey(EstimateDay(), estimates, day) || HasKey(CostDay(), costs, day)
            then [LineFor(name, estimates, costs)(day)] else []
  {
    DaysOfService(estimates, costs, day);
    MappedDay(LineFor(name, estimates, costs), ServiceDays(estimates, costs), day);
  }

  lemma {:induction false} MappedDay(line: int -> ServiceLine, days: seq<int>, day: int)
    requires Distinct(days) && forall d :: line(d).day == d
    ensures WithKey(LineDay(), day, Map(line, days)) == if day in days then [line(day)] else []
  {
    if days != [] {
      MappedDay(line, days[1..], day);
      assert Map(line, days) == [line(days[0])] + Map(line, days[1..]);
      WithKeyCons(LineDay(), day, line(days[0]), Map(line, days[1..]));
      assert days == [days[0]] + days[1..];
    }
  }

  // ----- the region -----

  /** The estimates and costs of each service, by name. */
  datatype Region = Region(services: seq<string>, estimates: string -> seq<FootprintEstimate>,
                           costs: string -> seq<Cost>)

  function LinesOf(region: Region, names: seq<string>): seq<ServiceLine> {
    if names == [] then []
    else
      var name := names[|names| - 1];
      LinesOf(region, names[..|names| - 1]) + ServiceLines(name, region.estimates(name), region.costs(name))
  }

  function ResultFor(lines: seq<ServiceLine>, grouping: GroupBy): int -> DayResult {
    (day: int) =>
      DayResult(Midnight(day), WithKey(LineDay(), day, lines), Midnight(day), PeriodEndDate(grouping, Midnight(day)),
                grouping)
  }

  /** The accumulator of `reduceByTimestamp`; its first value sets its time and its grouping. */
  class MutableEstimationResult {
    var timestamp: Option<int>
    var serviceEstimates: seq<ServiceLine>
    var periodStartDate: int
    var periodEndDate: int
    var groupBy: Option<GroupBy>

    constructor ()
      ensures timestamp.None? && groupBy.None? && serviceEstimates == []
    {
      timestamp, groupBy, serviceEstimates := None, None, [];
    }

    method Accumulate(value: DayResult)
      modifies this
      ensures serviceEstimates == old(serviceEstimates) + value.services
      ensures timestamp == if old(timestamp).Some? then old(timestamp) else Some(value.timestamp)
      ensures groupBy == if old(groupBy).Some? then old(groupBy) else Some(value.groupBy)
      ensures timestamp.Some? && groupBy.Some? && periodStartDate == timestamp.value
      ensures periodEndDate == PeriodEndDate(groupBy.value, timestamp.value)
    {
      if timestamp.None? { timestamp := Some(value.timestamp); }
      serviceEstimates := serviceEstimates + value.services;
      if groupBy.None? { groupBy := Some(value.groupBy); }
      periodStartDate := timestamp.value;
      periodEndDate := PeriodEndDate(groupBy.value, periodStartDate);
    }

    /** It holds the result of a day. */
    ghost predicate Holds(result: DayResult)
      reads this
    {
      timestamp == Some(result.timestamp) && serviceEstimates == result.services &&
      periodStartDate == result.periodStart && periodEndDate == result.periodEnd && groupBy == Some(result.groupBy)
    }

    method Result() returns (result: DayResult)
      requires timestamp.Some? && groupBy.Some?
      ensures Holds(result)
    {
      result := DayResult(timestamp.value, serviceEstimates, periodStartDate, periodEndDate, groupBy.value);
    }
  }

  function AllServices(results: seq<DayResult>): seq<ServiceLine> {
    if results == [] then [] else AllServices(results[..|results| - 1]) + results[|results| - 1].services
  }

  /** The results of one time, put together: the first one's grouping decides where the period ends. */
  function Together(time: int, results: seq<DayResult>): DayResult {
    var grouping := if results == [] then Day else results[0].groupBy;
    DayResult(time, AllServices(results), time, PeriodEndDate(grouping, time), grouping)
  }

  function Joined(results: seq<DayResult>): int -> DayResult {
    (time: int) => Together(time, WithKey(ResultTime(), time, results))
  }

  /** What one more result adds to the results of its own time, and to no others. */
  lemma {:induction false} ResultReachesOneTime(results: seq<DayResult>, value: DayResult, time: int)
    ensures var before, after := WithKey(ResultTime(), time, results), WithKey(ResultTime(), time, results + [value]);
            if value.timestamp == time then
              after == before + [value] && AllServices(after) == AllServices(before) + value.services
            else after == before
    ensures time !in Keys(ResultTime(), results) <==> WithKey(ResultTime(), time, results) == []
    ensures AllServices([]) == []
  {
    hide WithKey, Keys;
    WithKeyAppend(ResultTime(), time, results, value);
    KeysMembers(ResultTime(), results, time);
    OccurringKey(ResultTime(), results, time);
    var before := WithKey(ResultTime(), time, results);
    assert (before + [value])[..|before|] == before;
  }

  /** The accumulators of the times that occur, each holding its time's result. */
  ghost predicate Accumulated(order: seq<int>, accs: map<int, MutableEstimationResult>, results: seq<DayResult>)
    reads accs.Values
  {
    && order == Keys(ResultTime(), results)
    && (forall t :: t in accs <==> t in order)
    && (forall t :: t in accs ==> accs[t] in accs.Values && accs[t].Holds(Joined(results)(t)))
    && (forall t, u :: t in accs && u in accs && t != u ==> accs[t] != accs[u])
  }

  lemma {:induction false} JoinedAfter(results: seq<DayResult>, value: DayResult, time: int)
    ensures var before, after := Joined(results)(time), Joined(results + [value])(time);
            if value.timestamp == time then
              after.timestamp == time && after.periodStart == time &&
              after.services == (if time in Keys(ResultTime(), results) then before.services else [])
                + value.services &&
              after.groupBy == (if time in Keys(ResultTime(), results) then before.groupBy else value.groupBy) &&
              after.periodEnd == PeriodEndDate(after.groupBy, time)
            else after == before
  {
    hide WithKey, Keys, PeriodEndDate, AllServices;
    ResultReachesOneTime(results, value, time);
  }

  lemma {:induction false} JoinedParts(results: seq<DayResult>, time: int)
    ensures Joined(results)(time).timestamp == time
  {
    hide PeriodEndDate, AllServices, WithKey;
  }

  /** One step of `reduceBy`: a result goes to the accumulator of its time, made if there is none. */
  method AccumulateResult(order: seq<int>, accs: map<int, MutableEstimationResult>, value: DayResult,
                          ghost before: seq<DayResult>)
    returns (orderAfter: seq<int>, after: map<int, MutableEstimationResult>)
    requires Accumulated(order, accs, before)
    modifies accs.Values
    ensures Accumulated(orderAfter, after, before + [value])
    ensures forall a :: a in after.Values ==> a in accs.Values || fresh(a)
  {
    hide Keys, Joined, PeriodEndDate;
    orderAfter, after := order, accs;
    if value.timestamp !in accs {
      var acc := new MutableEstimationResult();
      orderAfter, after := order + [value.timestamp], accs[value.timestamp := acc];
    }
    after[value.timestamp].Accumulate(value);
    KeysAppend(ResultTime(), before, value);
    JoinedParts(before, value.timestamp);
    JoinedAfter(before, value, value.timestamp);
    forall t | t in after
      ensures after[t] in after.Values && after[t].Holds(Joined(before + [value])(t))
    {
      JoinedAfter(before, value, t);
    }
  }

  lemma {:induction false} MapAppend<T, R>(f: T -> R, s: seq<T>, i: nat)
    requires i < |s|
    ensures Map(f, s[..i + 1]) == Map(f, s[..i]) + [f(s[i])]
  {
  }

  /**
    `reduceByTimestamp`: one result per time, in order of first occurrence, with all services of that
    time in order.
   */
  method ReduceByTimestamp(estimationResults: seq<DayResult>) returns (results: seq<DayResult>)
    ensures results == Map(Joined(estimationResults), Keys(ResultTime(), estimationResults))
    ensures forall r :: r in results ==>
              var at := WithKey(ResultTime(), r.timestamp, estimationResults);
              at != [] && r.services == AllServices(at) && r.groupBy == at[0].groupBy && r.periodStart == r.timestamp &&
              r.periodEnd == PeriodEndDate(at[0].groupBy, r.timestamp)
  {
    hide Keys, Joined, Map;
    var order: seq<int>, accs: map<int, MutableEstimationResult> := [], map[];
    NoKeys(ResultTime());
    for n := 0 to |estimationResults|
      invariant Accumulated(order, accs, estimationResults[..n])
      invariant forall a :: a in accs.Values ==> fresh(a)
    {
      assert estimationResults[..n + 1] == estimationResults[..n] + [estimationResults[n]];
      order, accs := AccumulateResult(order, accs, estimationResults[n], estimationResults[..n]);
    }
    assert estimationResults[..|estimationResults|] == estimationResults;
    results := [];
    for i := 0 to |order|
      invariant Accumulated(order, accs, estimationResults)
      invariant results == Map(Joined(estimationResults), order[..i])
    {
      var time := order[i];
      assert time in order;
      var result := accs[time].Result();
      MapAppend(Joined(estimationResults), order, i);
      results := results + [result];
    }
    assert order[..|order|] == order;
    forall r | r in results
      ensures var at := WithKey(ResultTime(), r.timestamp, estimationResults);
              at != [] && r.services == AllServices(at) && r.groupBy == at[0].groupBy && r.periodStart == r.timestamp &&
              r.periodEnd == PeriodEndDate(at[0].groupBy, r.timestamp)
    {
      ResultOfTime(estimationResults, r);
    }
  }

  lemma {:induction false} ResultOfTime(estimationResults: seq<DayResult>, r: DayResult)
    requires r in Map(Joined(estimationResults), Keys(ResultTime(), estimationResults))
    ensures var at := WithKey(ResultTime(), r.timestamp, estimationResults);
            at != [] && r.services == AllServices(at) && r.groupBy == at[0].groupBy && r.periodStart == r.timestamp &&
            r.periodEnd == PeriodEndDate(at[0].groupBy, r.timestamp)
  {
    hide Keys, WithKey, AllServices, PeriodEndDate;
    var times := Keys(ResultTime(), estimationResults);
    var i :| 0 <= i < |times| && Joined(estimationResults)(times[i]) == r;
    assert times[i] in times;
    KeysMembers(ResultTime(), estimationResults, times[i]);
    OccurringKey(ResultTime(), estimationResults, times[i]);
  }

  // ----- the region's results -----

  /** The result that a service has for the day of a line; its period is the request's. */
  function ResultOfLine(grouping: GroupBy, start: int, end: int): ServiceLine -> DayResult {
    (line: ServiceLine) => DayResult(Midnight(line.day), [line], start, end, grouping)
  }

  function DayStart(): int -> int { (day: int) => Midnight(day) }

  lemma {:induction false} LastResult(lines: seq<ServiceLine>, grouping: GroupBy, start: int, end: int)
    requires lines != []
    ensures var n := |lines| - 1;
            Map(ResultOfLine(grouping, start, end), lines)
            == Map(ResultOfLine(grouping, start, end), lines[..n])
              + [DayResult(Midnight(lines[n].day), [lines[n]], start, end, grouping)]
  {
  }

  lemma {:induction false} TimesOfLines(lines: seq<ServiceLine>, grouping: GroupBy, start: int, end: int)
    ensures Keys(ResultTime(), Map(ResultOfLine(grouping, start, end), lines))
              == Map(DayStart(), Keys(LineDay(), lines))
  {
    hide Keys, Map, Midnight;
    var results := Map(ResultOfLine(grouping, start, end), lines);
    if lines == [] {
      NoKeys(ResultTime());
      NoKeys(LineDay());
      assert results == [] && Map(DayStart(), []) == [];
    } else {
      var n := |lines| - 1;
      TimesOfLines(lines[..n], grouping, start, end);
      LastResult(lines, grouping, start, end);
      assert lines == lines[..n] + [lines[n]];
      KeysAppend(LineDay(), lines[..n], lines[n]);
      KeysAppend(ResultTime(), Map(ResultOfLine(grouping, start, end), lines[..n]), results[n]);
      TimesKept(Keys(LineDay(), lines[..n]), lines[n].day);
      assert Keys(LineDay(), lines[..n]) + [] == Keys(LineDay(), lines[..n]);
      assert Keys(ResultTime(), results[..n]) + [] == Keys(ResultTime(), results[..n]);
    }
  }

  lemma {:induction false} ServicesOfLines(lines: seq<ServiceLine>, grouping: GroupBy, start: int, end: int, day: int)
    ensures var at := WithKey(ResultTime(), Midnight(day), Map(ResultOfLine(grouping, start, end), lines));
            AllServices(at) == WithKey(LineDay(), day, lines) && forall i :: 0 <= i < |at| ==> at[i].groupBy == grouping
  {
    hide WithKey, Keys, Map, AllServices;
    var results := Map(ResultOfLine(grouping, start, end), lines);
    if lines == [] {
      WithKeyNothing(ResultTime(), Midnight(day));
      WithKeyNothing(LineDay(), day);
      NoServices();
      assert results == [];
    } else {
      var n := |lines| - 1;
      ServicesOfLines(lines[..n], grouping, start, end, day);
      LastResult(lines, grouping, start, end);
      assert lines == lines[..n] + [lines[n]];
      WithKeyAppend(LineDay(), day, lines[..n], lines[n]);
      ResultReachesOneTime(Map(ResultOfLine(grouping, start, end), lines[..n]), results[n], Midnight(day));
    }
  }

  lemma {:induction false} NoServices()
    ensures AllServices([]) == []
  {
  }

  lemma {:induction false} TimesKept(days: seq<int>, day: int)
    ensures Midnight(day) in Map(DayStart(), days) <==> day in days
    ensures Map(DayStart(), days + [day]) == Map(DayStart(), days) + [Midnight(day)]
  {
    var times := Map(DayStart(), days);
    if day in days {
      var i :| 0 <= i < |days| && days[i] == day;
      assert times[i] == Midnight(day);
    }
  }

  /** `getRegionData`: the results of all services, put together by time and sorted. */
  function GetRegionData(region: Region, start: int, end: int, grouping: GroupBy): seq<DayResult> {
    var results := Map(ResultOfLine(grouping, start, end), LinesOf(region, region.services));
    SortBy(ResultTime(), Map(Joined(results), Keys(ResultTime(), results)))
  }

  /** Put together by time, the services' results are their lines grouped by day; the request's dates are forgotten. */
  lemma {:induction false} RegionByLines(region: Region, start: int, end: int, grouping: GroupBy)
    ensures var lines := LinesOf(region, region.services);
            GetRegionData(region, start, end, grouping)
              == SortBy(ResultTime(), Map(ResultFor(lines, grouping), Keys(LineDay(), lines)))
  {
    hide LinesOf, Keys, WithKey, SortBy, PeriodEndDate, AllServices;
    var lines := LinesOf(region, region.services);
    var results, days := Map(ResultOfLine(grouping, start, end), lines), Keys(LineDay(), lines);
    TimesOfLines(lines, grouping, start, end);
    forall i | 0 <= i < |days|
      ensures Joined(results)(Midnight(days[i])) == ResultFor(lines, grouping)(days[i])
    {
      ServicesOfLines(lines, grouping, start, end, days[i]);
      var at := WithKey(ResultTime(), Midnight(days[i]), results);
      assert days[i] in days;
      KeysMembers(LineDay(), lines, days[i]);
      OccurringKey(LineDay(), lines, days[i]);
      if at == [] { assert AllServices([]) == [] by { NoServices(); } }
    }
    assert Map(Joined(results), Keys(ResultTime(), results)) == Map(ResultFor(lines, grouping), days);
  }

  function ResultSum(f: ServiceLine -> real): DayResult -> real {
    (r: DayResult) => Sum(f, r.services)
  }

  lemma {:induction false} ResultsSumByKey(f: ServiceLine -> real, lines: seq<ServiceLine>, grouping: GroupBy,
                                           days: seq<int>)
    ensures Sum(ResultSum(f), Map(ResultFor(lines, grouping), days)) == SumByKey(f, LineDay(), days, lines)
  {
    if days != [] {
      var n := |days| - 1;
      ResultsSumByKey(f, lines, grouping, days[..n]);
      assert Map(ResultFor(lines, grouping), days)[..n] == Map(ResultFor(lines, grouping), days[..n]);
    }
  }

  /** The results hold exactly the lines of the services. */
  lemma {:induction false} ResultsConserveLines(region: Region, start: int, end: int, grouping: GroupBy,
                                                f: ServiceLine -> real)
    ensures Sum(ResultSum(f), GetRegionData(region, start, end, grouping)) == Sum(f, LinesOf(region, region.services))
  {
    hide Sum, Map, Keys, SortBy, SumByKey, LinesOf, GetRegionData;
    RegionByLines(region, start, end, grouping);
    var lines := LinesOf(region, region.services);
    var days := Keys(LineDay(), lines);
    var unsorted := Map(ResultFor(lines, grouping), days);
    KeysDistinct(LineDay(), lines);
    forall i | 0 <= i < |lines| ensures LineDay()(lines[i]) in days {
      KeysMembers(LineDay(), lines, LineDay()(lines[i]));
      KeyOccurs(LineDay(), lines, i);
    }
    SortByPermutes(ResultTime(), unsorted);
    SumIgnoresOrder(ResultSum(f), SortBy(ResultTime(), unsorted), unsorted);
    ResultsSumByKey(f, lines, grouping, days);
    SumByKeyIsSum(f, LineDay(), days, lines);
  }

  function ServiceTotal<T>(f: T -> real, data: string -> seq<T>): string -> real {
    (name: string) => Sum(f, data(name))
  }

  lemma {:induction false} LinesConserve(region: Region, names: seq<string>)
    ensures Sum(LineEnergy(), LinesOf(region, names)) == Sum(ServiceTotal(Energy(), region.estimates), names)
    ensures Sum(LineEmissions(), LinesOf(region, names)) == Sum(ServiceTotal(Emissions(), region.estimates), names)
    ensures Sum(LineCost(), LinesOf(region, names)) == Sum(ServiceTotal(Amount(), region.costs), names)
  {
    hide ServiceLines;
    if names != [] {
      var n := |names| - 1;
      var name := names[n];
      var before, more := LinesOf(region, names[..n]), ServiceLines(name, region.estimates(name), region.costs(name));
      LinesConserve(region, names[..n]);
      ServiceConserves(name, region.estimates(name), region.costs(name));
      SumConcat(LineEnergy(), before, more);
      SumConcat(LineEmissions(), before, more);
      SumConcat(LineCost(), before, more);
    }
  }

  /** Total energy, emissions and cost of the results are those of all the services' estimates and costs. */
  lemma {:induction false} RegionConserves(region: Region, start: int, end: int, grouping: GroupBy)
    ensures var results := GetRegionData(region, start, end, grouping);
            Sum(ResultSum(LineEnergy()), results) == Sum(ServiceTotal(Energy(), region.estimates), region.services) &&
            Sum(ResultSum(LineEmissions()), results)
              == Sum(ServiceTotal(Emissions(), region.estimates), region.services) &&
            Sum(ResultSum(LineCost()), results) == Sum(ServiceTotal(Amount(), region.costs), region.services)
  {
    hide GetRegionData, Sum, LinesOf;
    ResultsConserveLines(region, start, end, grouping, LineEnergy());
    ResultsConserveLines(region, start, end, grouping, LineEmissions());
    ResultsConserveLines(region, start, end, grouping, LineCost());
    LinesConserve(region, region.services);
  }

  /**
    The results are in time order, one per day with a line, and each lists the lines of its day in
    service order; its period starts with the day and ends as the grouping says.
   */
  lemma {:induction false} RegionSorted(region: Region, start: int, end: int, grouping: GroupBy, r: DayResult)
    ensures StrictlySorted(ResultTime(), GetRegionData(region, start, end, grouping))
    ensures r in GetRegionData(region, start, end, grouping) <==>
              r.services == LinesOnDay(region, region.services, DayNumber(r.timestamp)) && r.services != [] &&
              r.timestamp == Midnight(DayNumber(r.timestamp)) && r.periodStart == r.timestamp &&
              r.periodEnd == PeriodEndDate(grouping, r.timestamp) && r.groupBy == grouping
  {
    hide PeriodEndDate, SortBy, LinesOf, Keys, WithKey, GetRegionData;
    RegionByLines(region, start, end, grouping);
    var lines := LinesOf(region, region.services);
    var days := Keys(LineDay(), lines);
    var unsorted := Map(ResultFor(lines, grouping), days);
    KeysDistinct(LineDay(), lines);
    SortByDistinct(ResultTime(), unsorted);
    SortByPermutes(ResultTime(), unsorted);
    var day := DayNumber(r.timestamp);
    LinesByDay(region, region.services, day);
    KeysMembers(LineDay(), lines, day);
    OccurringKey(LineDay(), lines, day);
    if r in unsorted {
      var i :| 0 <= i < |days| && unsorted[i] == r;
      assert day == days[i];
      assert day in days;
    }
    if day in days {
      var i :| 0 <= i < |days| && days[i] == day;
      assert unsorted[i] == ResultFor(lines, grouping)(day);
    }
  }

  /** For each service in turn, its line of a day if it has an estimate or a cost that day. */
  function LinesOnDay(region: Region, names: seq<string>, day: int): seq<ServiceLine> {
    if names == [] then []
    else
      var name := names[|names| - 1];
      LinesOnDay(region, names[..|names| - 1], day) +
      (if HasKey(EstimateDay(), region.estimates(name), day) || HasKey(CostDay(), region.costs(name), day)
       then [LineFor(name, region.estimates(name), region.costs(name))(day)] else [])
  }

  lemma {:induction false} LinesByDay(region: Region, names: seq<string>, day: int)
    ensures WithKey(LineDay(), day, LinesOf(region, names)) == LinesOnDay(region, names, day)
  {
    hide ServiceLines, LineFor, HasKey;
    if names != [] {
      var n := |names| - 1;
      var name := names[n];
      LinesByDay(region, names[..n], day);
      WithKeyConcat(LineDay(), day, LinesOf(region, names[..n]),
                    ServiceLines(name, region.estimates(name), region.costs(name)));
      OneLinePerDay(name, region.estimates(name), region.costs(name), day);
    }
  }
}
