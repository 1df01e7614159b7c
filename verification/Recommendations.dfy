/**
  Recommendations for one project: their estimates arrive in any order, known ones are accumulated
  as they arrive, and the unknown ones are estimated afterwards from the totals.
 */
module Recommendations {
  import opened Sums

  /** A recommendation, with the estimate and the resource that its lookup will give. */
  datatype Recommendation = Recommendation(
    isUnknown: bool, // it asks to delete an address
    zone: string,
    subtype: string,
    description: string,
    cost: real,
    kilowattHours: real,
    co2e: real,
    resourceId: string,
    resourceName: string)

  datatype Savings = Savings(source: Recommendation, cost: real, co2e: real, kilowattHours: real)

  function IsKnown(): Recommendation -> bool { (r: Recommendation) => !r.isUnknown }

  function IsUnknown(): Recommendation -> bool { (r: Recommendation) => r.isUnknown }

  function CostOf(): Recommendation -> real { (r: Recommendation) => r.cost }

  function EnergyOf(): Recommendation -> real { (r: Recommendation) => r.kilowattHours }

  function KnownSavings(): Recommendation -> Savings {
    (r: Recommendation) => Savings(r, r.cost, r.co2e, r.kilowattHours)
  }

  /** `getCo2eEstimationsForUnknowns`: in proportion to cost, or nothing without any cost. */
  function UnknownSavings(cost: real, energy: real, factor: string -> real): Recommendation -> Savings {
    (r: Recommendation) =>
      if cost == 0.0 then Savings(r, r.cost, 0.0, 0.0)
      else
        var kilowattHours := r.cost * (energy / cost);
        Savings(r, r.cost, kilowattHours * factor(r.zone), kilowattHours)
  }

  class CostAndCo2eTotals {
    var cost: real
    var kilowattHours: real

    constructor ()
      ensures cost == 0.0 && kilowattHours == 0.0
    {
      cost, kilowattHours := 0.0, 0.0;
    }

    /** `accumulateCostAndCo2e`. */
    method Accumulate(cost: real, kilowattHours: real)
      modifies this
      ensures this.cost == old(this.cost) + cost && this.kilowattHours == old(this.kilowattHours) + kilowattHours
    {
      this.cost := this.cost + cost;
      this.kilowattHours := this.kilowattHours + kilowattHours;
    }
  }

  /** What comes out when the lookups complete in a given order. */
  function Results(order: seq<Recommendation>, factor: string -> real, cost: real, energy: real): seq<Savings> {
    Map(KnownSavings(), Filter(IsKnown(), order))
      + Map(UnknownSavings(cost, energy, factor), Filter(IsUnknown(), order))
  }

  /** `getFilteredRecommendations`: the lookups' continuations in order of completion, then the unknowns. */
  method GetFilteredRecommendations(totals: CostAndCo2eTotals, order: seq<Recommendation>, factor: string -> real)
    returns (results: seq<Savings>)
    modifies totals
    ensures totals.cost == old(totals.cost) + Sum(CostOf(), Filter(IsKnown(), order))
    ensures totals.kilowattHours == old(totals.kilowattHours) + Sum(EnergyOf(), Filter(IsKnown(), order))
    ensures results == Results(order, factor, totals.cost, totals.kilowattHours)
  {
    hide Filter, Map, Sum;
    results := [];
    var unknowns: seq<Recommendation> := [];
    NothingYet(order);
    for n := 0 to |order|
      invariant totals.cost == old(totals.cost) + Sum(CostOf(), Filter(IsKnown(), order[..n]))
      invariant totals.kilowattHours == old(totals.kilowattHours) + Sum(EnergyOf(), Filter(IsKnown(), order[..n]))
      invariant results == Map(KnownSavings(), Filter(IsKnown(), order[..n]))
      invariant unknowns == Filter(IsUnknown(), order[..n])
    {
      var rec := order[n];
      FilterStep(IsKnown(), order, n);
      FilterStep(IsUnknown(), order, n);
      assert forall s: seq<Recommendation> :: s + [] == s;
      if rec.isUnknown {
        unknowns := unknowns + [rec];
      } else {
        SumAppend(CostOf(), Filter(IsKnown(), order[..n]), rec);
        SumAppend(EnergyOf(), Filter(IsKnown(), order[..n]), rec);
        MapConcat(KnownSavings(), Filter(IsKnown(), order[..n]), [rec]);
        MapOne(KnownSavings(), rec);
        totals.Accumulate(rec.cost, rec.kilowattHours);
        results := results + [Savings(rec, rec.cost, rec.co2e, rec.kilowattHours)];
      }
    }
    assert order[..|order|] == order;
    ghost var known := results;
    for i := 0 to |unknowns|
      invariant results == known + Map(UnknownSavings(totals.cost, totals.kilowattHours, factor), unknowns)[..i]
    {
      results := results + [UnknownSavings(totals.cost, totals.kilowattHours, factor)(unknowns[i])];
    }
  }

  lemma {:induction false} NothingYet(order: seq<Recommendation>)
    ensures Filter(IsKnown(), order[..0]) == [] && Filter(IsUnknown(), order[..0]) == []
    ensures Sum(CostOf(), []) == 0.0 && Sum(EnergyOf(), []) == 0.0 && Map(KnownSavings(), []) == []
  {
  }

  /** Whatever the order of completion, starting from equal totals: the same totals and the same results. */
  lemma {:induction false} CompletionOrderDoesNotMatter(a: seq<Recommendation>, b: seq<Recommendation>,
                                                        factor: string -> real, cost: real, energy: real)
    requires multiset(a) == multiset(b)
    ensures Sum(CostOf(), Filter(IsKnown(), a)) == Sum(CostOf(), Filter(IsKnown(), b))
    ensures Sum(EnergyOf(), Filter(IsKnown(), a)) == Sum(EnergyOf(), Filter(IsKnown(), b))
    ensures multiset(Results(a, factor, cost, energy)) == multiset(Results(b, factor, cost, energy))
  {
    FilterIgnoresOrder(IsKnown(), a, b);
    FilterIgnoresOrder(IsUnknown(), a, b);
    SumIgnoresOrder(CostOf(), Filter(IsKnown(), a), Filter(IsKnown(), b));
    SumIgnoresOrder(EnergyOf(), Filter(IsKnown(), a), Filter(IsKnown(), b));
    MapIgnoresOrder(KnownSavings(), Filter(IsKnown(), a), Filter(IsKnown(), b));
    MapIgnoresOrder(UnknownSavings(cost, energy, factor), Filter(IsUnknown(), a), Filter(IsUnknown(), b));
  }

  /** A known recommendation saves what its own lookup says. */
  lemma {:induction false} KnownKeepTheirs(order: seq<Recommendation>, factor: string -> real, cost: real, energy: real,
                                           r: Savings)
    requires r in Results(order, factor, cost, energy) && !r.source.isUnknown
    ensures r.source in order && r.cost == r.source.cost && r.co2e == r.source.co2e &&
            r.kilowattHours == r.source.kilowattHours
  {
    hide Filter;
    var known, unknown := Filter(IsKnown(), order), Filter(IsUnknown(), order);
    var i :| 0 <= i < |known| + |unknown| && Results(order, factor, cost, energy)[i] == r;
    if i < |known| {
      FilterHolds(IsKnown(), order, i);
    } else {
      FilterHolds(IsUnknown(), order, i - |known|);
    }
  }

  function SourceOf(): Savings -> Recommendation { (r: Savings) => r.source }

  /** Every recommendation has one result, the known ones first, each kind in the order of completion. */
  lemma {:induction false} EachHasOne(order: seq<Recommendation>, factor: string -> real, cost: real, energy: real)
    ensures Map(SourceOf(), Results(order, factor, cost, energy))
              == Filter(IsKnown(), order) + Filter(IsUnknown(), order)
    ensures multiset(Map(SourceOf(), Results(order, factor, cost, energy))) == multiset(order)
  {
    hide Filter;
    forall r
      ensures multiset(Filter(IsKnown(), order))[r] + multiset(Filter(IsUnknown(), order))[r] == multiset(order)[r]
    {
      FilterMultiset(IsKnown(), order, r);
      FilterMultiset(IsUnknown(), order, r);
    }
  }

  /**
    From zero totals, the energy of each unknown is to its cost as all known energy is to all known cost, its emissions
    follow by its zone's factor, and its cost saving is its own.
   */
  lemma {:induction false} UnknownsFollowKnown(order: seq<Recommendation>, factor: string -> real, r: Savings)
    requires r in Results(order, factor, Sum(CostOf(), Filter(IsKnown(), order)),
                          Sum(EnergyOf(), Filter(IsKnown(), order)))
    requires r.source.isUnknown
    ensures var cost, energy := Sum(CostOf(), Filter(IsKnown(), order)), Sum(EnergyOf(), Filter(IsKnown(), order));
            r.cost == r.source.cost &&
            if cost == 0.0 then r.kilowattHours == 0.0 && r.co2e == 0.0
            else r.kilowattHours * cost == r.source.cost * energy && r.co2e == r.kilowattHours * factor(r.source.zone)
  {
    hide Filter, Sum;
    var cost, energy := Sum(CostOf(), Filter(IsKnown(), order)), Sum(EnergyOf(), Filter(IsKnown(), order));
    var known, unknown := Filter(IsKnown(), order), Filter(IsUnknown(), order);
    var i :| 0 <= i < |known| + |unknown| && Results(order, factor, cost, energy)[i] == r;
    if i < |known| {
      FilterHolds(IsKnown(), order, i);
    } else if cost != 0.0 {
      Ratio(unknown[i - |known|].cost, energy, cost);
    }
  }

  lemma {:induction false} Ratio(amount: real, energy: real, cost: real)
    requires cost != 0.0
    ensures amount * (energy / cost) * cost == amount * energy
  {
  }

  lemma {:induction false} FilterHolds<T>(p: T -> bool, s: seq<T>, i: nat)
    requires i < |Filter(p, s)|
    ensures p(Filter(p, s)[i]) && Filter(p, s)[i] in s
  {
    if i < |Filter(p, s[..|s| - 1])| { FilterHolds(p, s[..|s| - 1], i); }
  }
}
