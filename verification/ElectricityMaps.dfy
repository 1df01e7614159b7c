/**
  Emission factors from the Electricity Maps service, remembered per time and zone. Calls overlap:
  each runs up to its request to the service, and goes on when the answer is there.
 */
module ElectricityMaps {
  import opened Options

  /** The service's answer: an error, no usable intensity, or an intensity in grams. */
  datatype Response = Failure | NoIntensity | Intensity(grams: real)

  type Service = (string, string) -> Response // by zone and time

  datatype Config = Config(hasToken: bool, zones: map<string, string>) {
    /** The region's zone; a region without a zone, or with an empty one, has none. */
    function ZoneOf(region: string): Option<string> {
      if region in zones && zones[region] != "" then Some(zones[region]) else None
    }
  }

  datatype Call = Call(region: string, dateTime: string)

  /** The default factors, a factor for the region, or an error. */
  datatype Outcome = Defaults | Factor(region: string, tons: real) | Error

  type Factors = map<string, map<string, real>> // by time, then zone

  function GramsToMetricTons(grams: real): real { grams / 1_000_000.0 }

  // ----- the two halves of a call -----

  /** A remembered factor counts only if it is not zero. */
  function Remembered(factors: Factors, dateTime: string, zone: string): Option<real> {
    if dateTime in factors && zone in factors[dateTime] && factors[dateTime][zone] != 0.0
    then Some(factors[dateTime][zone]) else None
  }

  /** Up to the request: an outcome, if the service need not be asked. */
  function Begin(config: Config, factors: Factors, call: Call): Option<Outcome> {
    var zone := config.ZoneOf(call.region);
    if !config.hasToken || zone.None? then Some(Defaults)
    else match Remembered(factors, call.dateTime, zone.value)
         case Some(tons) => Some(Factor(call.region, tons))
         case None => None
  }

  function Remember(factors: Factors, dateTime: string, zone: string, tons: real): Factors {
    factors[dateTime := if dateTime in factors then factors[dateTime][zone := tons] else map[zone := tons]]
  }

  predicate Usable(response: Response) { response.Intensity? && response.grams != 0.0 }

  /** From the answer on: what is remembered afterwards, and the outcome. */
  function Finish(factors: Factors, call: Call, zone: string, response: Response): (Factors, Outcome) {
    if response.Failure? then (factors, Error)
    else if !Usable(response) then (factors, Defaults)
    else
      var factors' := Remember(factors, call.dateTime, zone, GramsToMetricTons(response.grams));
      (factors', Factor(call.region, factors'[call.dateTime][zone]))
  }

  // ----- the reference: a call that remembers nothing -----

  function Uncached(config: Config, service: Service, call: Call): Outcome {
    var zone := config.ZoneOf(call.region);
    if !config.hasToken || zone.None? then Defaults
    else match service(zone.value, call.dateTime)
         case Failure => Error
         case NoIntensity => Defaults
         case Intensity(grams) => if grams == 0.0 then Defaults else Factor(call.region, GramsToMetricTons(grams))
  }

  /**
    What a call comes to: the default factors without a token, a zone or an intensity, an error if the
    service fails, else a factor that is the service's intensity in metric tons.
   */
  ghost predicate IsAnswer(config: Config, service: Service, call: Call, outcome: Outcome) {
    if !config.hasToken || call.region !in config.zones || config.zones[call.region] == "" then outcome == Defaults
    else
      var response := service(config.zones[call.region], call.dateTime);
      match outcome
      case Error => response == Failure
      case Defaults => response == NoIntensity || response == Intensity(0.0)
      case Factor(region, tons) => region == call.region && tons != 0.0 && response == Intensity(1_000_000.0 * tons)
  }

  lemma {:induction false} UncachedIsAnswer(config: Config, service: Service, call: Call, outcome: Outcome)
    ensures outcome == Uncached(config, service, call) <==> IsAnswer(config, service, call, outcome)
  {
  }

  /** What is remembered is what the service says, in metric tons. */
  ghost predicate Truthful(service: Service, factors: Factors) {
    forall t, z :: t in factors && z in factors[t] ==>
      factors[t][z] != 0.0 && service(z, t) == Intensity(1_000_000.0 * factors[t][z])
  }

  /** Every factor of every time and zone is still there, unchanged. */
  ghost predicate Extends(before: Factors, after: Factors) {
    forall t, z :: t in before && z in before[t] ==> t in after && z in after[t] && after[t][z] == before[t][z]
  }

  /** The call has gone on to ask the service for its zone. */
  predicate Waits(config: Config, call: Call, zone: string) {
    config.hasToken && config.ZoneOf(call.region) == Some(zone)
  }

  lemma {:induction false} BeginIsRight(config: Config, service: Service, factors: Factors, call: Call)
    requires Truthful(service, factors)
    ensures match Begin(config, factors, call)
            case Some(outcome) =>
              outcome == Uncached(config, service, call) && IsAnswer(config, service, call, outcome)
            case None => config.hasToken && config.ZoneOf(call.region).Some?
  {
  }

  lemma {:induction false} FinishIsRight(config: Config, service: Service, factors: Factors, call: Call, zone: string)
    requires Truthful(service, factors) && Waits(config, call, zone)
    ensures var (factors', outcome) := Finish(factors, call, zone, service(zone, call.dateTime));
            Truthful(service, factors') && Extends(factors, factors') &&
            outcome == Uncached(config, service, call) && IsAnswer(config, service, call, outcome)
  {
    var response := service(zone, call.dateTime);
    var (factors', outcome) := Finish(factors, call, zone, response);
    forall t, z | t in factors' && z in factors'[t]
      ensures factors'[t][z] != 0.0 && service(z, t) == Intensity(1_000_000.0 * factors'[t][z])
    {
      if !(t == call.dateTime && z == zone) { assert t in factors && z in factors[t]; }
    }
  }

  // ----- the class -----

  /** `getEmissionsFactors`, cut at its await. The object of factors is shared by all calls. */
  class ZoneIntensityFactors {
    var factors: Factors

    constructor ()
      ensures factors == map[]
    {
      factors := map[];
    }

    method BeforeAwait(config: Config, call: Call) returns (outcome: Option<Outcome>)
      ensures outcome == Begin(config, factors, call)
      ensures outcome.None? <==>
                config.hasToken && call.region in config.zones && config.zones[call.region] != "" &&
                !(call.dateTime in factors && config.zones[call.region] in factors[call.dateTime] &&
                  factors[call.dateTime][config.zones[call.region]] != 0.0)
      ensures forall service :: Truthful(service, factors) && outcome.Some? ==>
                IsAnswer(config, service, call, outcome.value)
    {
      forall service | Truthful(service, factors) { BeginIsRight(config, service, factors, call); }
      var zone := config.ZoneOf(call.region);
      if !config.hasToken || zone.None? {
        return Some(Defaults);
      }
      if call.dateTime in factors && zone.value in factors[call.dateTime] && factors[call.dateTime][zone.value] != 0.0 {
        return Some(Factor(call.region, factors[call.dateTime][zone.value]));
      }
      return None;
    }

    /** The right answer for a waiting call, if the factors are true and the response is the service's. */
    method AfterAwait(call: Call, zone: string, response: Response) returns (outcome: Outcome)
      modifies this
      ensures (factors, outcome) == Finish(old(factors), call, zone, response)
      ensures forall config: Config, service: Service ::
                Waits(config, call, zone) && Truthful(service, old(factors)) &&
                response == service(zone, call.dateTime) ==>
                  IsAnswer(config, service, call, outcome) && Truthful(service, factors) &&
                  Extends(old(factors), factors)
    {
      hide Uncached, IsAnswer, Truthful, Extends;
      forall config: Config, service: Service |
        Waits(config, call, zone) && Truthful(service, factors) && response == service(zone, call.dateTime)
      {
        FinishIsRight(config, service, factors, call, zone);
      }
      if response.Failure? {
        return Error;
      }
      if response.NoIntensity? || response.grams == 0.0 {
        return Defaults;
      }
      if call.dateTime in factors {
        factors := factors[call.dateTime := factors[call.dateTime][zone := GramsToMetricTons(response.grams)]];
      } else {
        factors := factors[call.dateTime := map[zone := GramsToMetricTons(response.grams)]];
      }
      return Factor(call.region, factors[call.dateTime][zone]);
    }
  }

  // ----- interleaved calls -----

  datatype Phase = NotStarted | Waiting | Done(outcome: Outcome)

  datatype State = State(factors: Factors, phases: seq<Phase>)

  /** One call takes its next half-step; a call that is done, or does not exist, takes none. */
  function Step(config: Config, service: Service, calls: seq<Call>, s: State, i: nat): State
    requires |s.phases| == |calls|
  {
    if i >= |calls| then s
    else match s.phases[i]
         case NotStarted =>
           (match Begin(config, s.factors, calls[i])
            case Some(outcome) => s.(phases := s.phases[i := Done(outcome)])
            case None => s.(phases := s.phases[i := Waiting]))
         case Waiting =>
           (match config.ZoneOf(calls[i].region)
            case None => s
            case Some(zone) =>
              var (factors, outcome) := Finish(s.factors, calls[i], zone, service(zone, calls[i].dateTime));
              State(factors, s.phases[i := Done(outcome)]))
         case Done(_) => s
  }

  function Start(calls: seq<Call>, factors: Factors): (s: State)
    ensures |s.phases| == |calls|
  {
    State(factors, seq(|calls|, i => NotStarted))
  }

  /** The state after a schedule, which names the call that takes each next half-step. */
  function Run(config: Config, service: Service, calls: seq<Call>, factors: Factors, schedule: seq<nat>): (s: State)
    ensures |s.phases| == |calls|
  {
    if schedule == [] then Start(calls, factors)
    else Step(config, service, calls, Run(config, service, calls, factors, schedule[..|schedule| - 1]),
              schedule[|schedule| - 1])
  }

  // ----- every interleaving is right -----

  /** A waiting call has a zone and a token; a call that is done has the right answer. */
  ghost predicate RightPhase(config: Config, service: Service, call: Call, phase: Phase) {
    match phase
    case NotStarted => true
    case Waiting => config.hasToken && config.ZoneOf(call.region).Some?
    case Done(outcome) => IsAnswer(config, service, call, outcome)
  }

  ghost predicate Inv(config: Config, service: Service, calls: seq<Call>, s: State) {
    && |s.phases| == |calls|
    && Truthful(service, s.factors)
    && forall i :: 0 <= i < |calls| ==> RightPhase(config, service, calls[i], s.phases[i])
  }

  lemma {:induction false} StepKeepsInv(config: Config, service: Service, calls: seq<Call>, s: State, i: nat)
    requires Inv(config, service, calls, s)
    ensures Inv(config, service, calls, Step(config, service, calls, s, i))
  {
    hide Begin, Finish, Uncached, IsAnswer, Truthful;
    if i < |calls| {
      assert RightPhase(config, service, calls[i], s.phases[i]);
      BeginIsRight(config, service, s.factors, calls[i]);
      if s.phases[i].Waiting? {
        FinishIsRight(config, service, s.factors, calls[i], config.ZoneOf(calls[i].region).value);
      }
    }
  }

  /**
    In every interleaving of any calls, starting from truthful factors, every finished call returns
    what a call that remembers nothing would return.
   */
  lemma {:induction false} EveryInterleavingIsRight(config: Config, service: Service, calls: seq<Call>,
                                                    factors: Factors, schedule: seq<nat>)
    requires Truthful(service, factors)
    ensures Inv(config, service, calls, Run(config, service, calls, factors, schedule))
    ensures forall i :: 0 <= i < |calls| && Run(config, service, calls, factors, schedule).phases[i].Done? ==>
              var outcome := Run(config, service, calls, factors, schedule).phases[i].outcome;
              outcome == Uncached(config, service, calls[i]) && IsAnswer(config, service, calls[i], outcome)
  {
    hide Uncached, IsAnswer, Step, Truthful;
    if schedule != [] {
      var before := schedule[..|schedule| - 1];
      EveryInterleavingIsRight(config, service, calls, factors, before);
      StepKeepsInv(config, service, calls, Run(config, service, calls, factors, before), schedule[|schedule| - 1]);
    }
    forall i | 0 <= i < |calls| && Run(config, service, calls, factors, schedule).phases[i].Done?
      ensures var outcome := Run(config, service, calls, factors, schedule).phases[i].outcome;
              outcome == Uncached(config, service, calls[i]) && IsAnswer(config, service, calls[i], outcome)
    {
      var outcome := Run(config, service, calls, factors, schedule).phases[i].outcome;
      assert RightPhase(config, service, calls[i], Run(config, service, calls, factors, schedule).phases[i]);
      UncachedIsAnswer(config, service, calls[i], outcome);
    }
  }

  // ----- what is remembered stays -----

  lemma {:induction false} StepExtends(config: Config, service: Service, calls: seq<Call>, s: State, i: nat)
    requires Inv(config, service, calls, s)
    ensures Extends(s.factors, Step(config, service, calls, s, i).factors)
  {
    hide Begin, Uncached, IsAnswer;
  }

  /** Over any schedule, factors are only added: a later state has all factors of an earlier one. */
  lemma {:induction false} FactorsAreKept(config: Config, service: Service, calls: seq<Call>, factors: Factors,
                                          schedule: seq<nat>, more: seq<nat>)
    requires Truthful(service, factors)
    ensures Extends(Run(config, service, calls, factors, schedule).factors,
                    Run(config, service, calls, factors, schedule + more).factors)
    decreases |more|
  {
    hide Step, Truthful;
    if more == [] {
      assert schedule + more == schedule;
    } else {
      var n := |more| - 1;
      assert (schedule + more)[..|schedule + more| - 1] == schedule + more[..n];
      FactorsAreKept(config, service, calls, factors, schedule, more[..n]);
      EveryInterleavingIsRight(config, service, calls, factors, schedule + more[..n]);
      StepExtends(config, service, calls, Run(config, service, calls, factors, schedule + more[..n]), more[n]);
    }
  }

  /** The factors that finished calls have returned are remembered, each for its time and zone. */
  ghost predicate AllRemembered(config: Config, calls: seq<Call>, s: State)
    requires |s.phases| == |calls|
  {
    forall i :: 0 <= i < |calls| && s.phases[i].Done? && s.phases[i].outcome.Factor? ==>
      calls[i].region in config.zones && calls[i].dateTime in s.factors &&
      config.zones[calls[i].region] in s.factors[calls[i].dateTime] &&
      s.factors[calls[i].dateTime][config.zones[calls[i].region]] == s.phases[i].outcome.tons
  }

  lemma {:induction false} StepRemembers(config: Config, service: Service, calls: seq<Call>, s: State, i: nat)
    requires Inv(config, service, calls, s) && AllRemembered(config, calls, s)
    ensures AllRemembered(config, calls, Step(config, service, calls, s, i))
  {
    hide Uncached, IsAnswer, Truthful;
    StepExtends(config, service, calls, s, i);
  }

  lemma {:induction false} RunRemembers(config: Config, service: Service, calls: seq<Call>, factors: Factors,
                                        schedule: seq<nat>)
    requires Truthful(service, factors)
    ensures AllRemembered(config, calls, Run(config, service, calls, factors, schedule))
  {
    hide Step, Truthful, Inv;
    if schedule != [] {
      var n := |schedule| - 1;
      RunRemembers(config, service, calls, factors, schedule[..n]);
      EveryInterleavingIsRight(config, service, calls, factors, schedule[..n]);
      StepRemembers(config, service, calls, Run(config, service, calls, factors, schedule[..n]), schedule[n]);
    }
  }

  /**
    Whatever happened before: once a call has returned a factor, a call of the same zone and time that starts
    later returns that factor at once, without asking the service.
   */
  lemma {:induction false} AsksNoMore(config: Config, service: Service, calls: seq<Call>, factors: Factors,
                                      schedule: seq<nat>, i: nat, j: nat)
    requires Truthful(service, factors) && i < |calls| && j < |calls|
    requires calls[i].region in config.zones && calls[j].region in config.zones
    requires config.zones[calls[i].region] == config.zones[calls[j].region] && calls[i].dateTime == calls[j].dateTime
    ensures var s := Run(config, service, calls, factors, schedule);
            s.phases[i].Done? && s.phases[i].outcome.Factor? && s.phases[j].NotStarted? ==>
              Step(config, service, calls, s, j).phases[j]
                == Done(Factor(calls[j].region, s.phases[i].outcome.tons))
  {
    hide Run, Uncached, Truthful;
    var s := Run(config, service, calls, factors, schedule);
    RunRemembers(config, service, calls, factors, schedule);
    EveryInterleavingIsRight(config, service, calls, factors, schedule);
    assert RightPhase(config, service, calls[i], s.phases[i]);
  }

  // ----- progress -----

  function Progress(phase: Phase): nat {
    match phase
    case NotStarted => 0
    case Waiting => 1
    case Done(_) => 2
  }

  lemma {:induction false} StepAdvances(config: Config, service: Service, calls: seq<Call>, s: State, i: nat, j: nat)
    requires Inv(config, service, calls, s) && j < |calls|
    ensures Progress(s.phases[j]) <= Progress(Step(config, service, calls, s, i).phases[j])
    ensures i == j && Progress(s.phases[j]) < 2 ==>
              Progress(s.phases[j]) < Progress(Step(config, service, calls, s, i).phases[j])
  {
    hide Begin, Finish, Uncached, IsAnswer, Truthful;
    assert RightPhase(config, service, calls[j], s.phases[j]);
  }

  /** A call that was scheduled twice is done. */
  lemma {:induction false} TwiceScheduledIsDone(config: Config, service: Service, calls: seq<Call>, factors: Factors,
                                                schedule: seq<nat>, j: nat)
    requires Truthful(service, factors) && j < |calls|
    ensures multiset(schedule)[j] <= Progress(Run(config, service, calls, factors, schedule).phases[j])
         || Run(config, service, calls, factors, schedule).phases[j].Done?
  {
    hide Step, Truthful, Inv;
    if schedule != [] {
      var n := |schedule| - 1;
      var before := Run(config, service, calls, factors, schedule[..n]);
      TwiceScheduledIsDone(config, service, calls, factors, schedule[..n], j);
      EveryInterleavingIsRight(config, service, calls, factors, schedule[..n]);
      StepAdvances(config, service, calls, before, schedule[n], j);
      assert schedule == schedule[..n] + [schedule[n]];
    }
  }
}
