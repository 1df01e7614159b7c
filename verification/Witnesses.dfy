/**
  An encoding and providers that meet the assumptions of the results about the cache.
 */
module Witnesses {
  import opened Options
  import opened Calendar
  import opened Ordering
  import opened Estimates
  import opened Requests
  import opened Fetching
  import opened CacheText
  import opened LocalCache
  import opened Transparency
  import opened CacheRuns

  // ----- an encoding -----

  /** Each part of a value is put before the numbers that encode the rest, so that it can be taken off again. */
  function PutString(s: string, rest: seq<int>): seq<int> {
    [|s|] + seq(|s|, i requires 0 <= i < |s| => s[i] as int) + rest
  }

  lemma {:induction false} TakeString(a: string, x: seq<int>, b: string, y: seq<int>)
    requires PutString(a, x) == PutString(b, y)
    ensures a == b && x == y
  {
    var p, q := PutString(a, x), PutString(b, y);
    assert p[0] == |a| && q[0] == |b|;
    forall i | 0 <= i < |a| ensures a[i] == b[i] {
      assert p[i + 1] == a[i] as int && q[i + 1] == b[i] as int;
    }
    assert p[|a| + 1..] == x && q[|b| + 1..] == y;
  }

  /** The items of a map, in some order that depends on the map only. */
  ghost function Items(m: map<string, string>): seq<(string, string)> {
    if m == map[] then [] else var k :| k in m; [(k, m[k])] + Items(m - {k})
  }

  function MapOf(items: seq<(string, string)>): map<string, string> {
    if items == [] then map[] else MapOf(items[1..])[items[0].0 := items[0].1]
  }

  lemma {:induction false} MapOfItems(m: map<string, string>)
    ensures MapOf(Items(m)) == m
    decreases |m|
  {
    if m != map[] {
      var k := Items(m)[0].0;
      assert Items(m)[1..] == Items(m - {k});
      MapOfItems(m - {k});
    }
  }

  function PutItems(items: seq<(string, string)>, rest: seq<int>): seq<int> {
    if items == [] then [0] + rest
    else [1] + PutString(items[0].0, PutString(items[0].1, PutItems(items[1..], rest)))
  }

  lemma {:induction false} TakeItems(a: seq<(string, string)>, x: seq<int>, b: seq<(string, string)>, y: seq<int>)
    requires PutItems(a, x) == PutItems(b, y)
    ensures a == b && x == y
  {
    hide PutString;
    assert a == [] <==> b == [] by { assert PutItems(a, x)[0] == PutItems(b, y)[0]; }
    if a == [] {
      assert ([0] + x)[1..] == x && ([0] + y)[1..] == y;
    } else {
      var p, q := PutString(a[0].1, PutItems(a[1..], x)), PutString(b[0].1, PutItems(b[1..], y));
      assert ([1] + PutString(a[0].0, p))[1..] == PutString(a[0].0, p);
      assert ([1] + PutString(b[0].0, q))[1..] == PutString(b[0].0, q);
      TakeString(a[0].0, p, b[0].0, q);
      TakeString(a[0].1, PutItems(a[1..], x), b[0].1, PutItems(b[1..], y));
      TakeItems(a[1..], x, b[1..], y);
      assert a == [a[0]] + a[1..] && b == [b[0]] + b[1..];
    }
  }

  function Numbers(s: ServiceData): seq<int> {
    [s.kilowattHours.mantissa, s.kilowattHours.exponent, s.co2e.mantissa, s.co2e.exponent,
     s.cost.mantissa, s.cost.exponent, if s.usesAverageCPUConstant then 1 else 0]
  }

  ghost function PutRest(s: ServiceData, rest: seq<int>): seq<int> {
    Numbers(s) + PutItems(Items(s.tags), rest)
  }

  ghost function PutService(s: ServiceData, rest: seq<int>): seq<int> {
    PutString(s.cloudProvider, PutString(s.accountId, PutString(s.accountName,
      PutString(s.serviceName, PutString(s.region, PutRest(s, rest))))))
  }

  lemma {:induction false} TakeRest(a: ServiceData, x: seq<int>, b: ServiceData, y: seq<int>)
    requires PutRest(a, x) == PutRest(b, y)
    ensures Numbers(a) == Numbers(b) && a.tags == b.tags && x == y
  {
    hide PutItems, Items;
    var p, q := PutRest(a, x), PutRest(b, y);
    assert p[..7] == Numbers(a) && q[..7] == Numbers(b);
    assert p[7..] == PutItems(Items(a.tags), x) && q[7..] == PutItems(Items(b.tags), y);
    TakeItems(Items(a.tags), x, Items(b.tags), y);
    MapOfItems(a.tags);
    MapOfItems(b.tags);
  }

  lemma {:induction false} SameNumbers(a: ServiceData, b: ServiceData)
    requires Numbers(a) == Numbers(b)
    ensures a.kilowattHours == b.kilowattHours && a.co2e == b.co2e && a.cost == b.cost
    ensures a.usesAverageCPUConstant == b.usesAverageCPUConstant
  {
    var p, q := Numbers(a), Numbers(b);
    assert p[0] == q[0] && p[1] == q[1] && p[2] == q[2] && p[3] == q[3] && p[4] == q[4] && p[5] == q[5] && p[6] == q[6];
  }

  lemma {:induction false} TakeService(a: ServiceData, x: seq<int>, b: ServiceData, y: seq<int>)
    requires PutService(a, x) == PutService(b, y)
    ensures a == b && x == y
  {
    hide PutString, PutRest, Numbers;
    var p5, q5 := PutRest(a, x), PutRest(b, y);
    var p4, q4 := PutString(a.region, p5), PutString(b.region, q5);
    var p3, q3 := PutString(a.serviceName, p4), PutString(b.serviceName, q4);
    var p2, q2 := PutString(a.accountName, p3), PutString(b.accountName, q3);
    var p1, q1 := PutString(a.accountId, p2), PutString(b.accountId, q2);
    TakeString(a.cloudProvider, p1, b.cloudProvider, q1);
    TakeString(a.accountId, p2, b.accountId, q2);
    TakeString(a.accountName, p3, b.accountName, q3);
    TakeString(a.serviceName, p4, b.serviceName, q4);
    TakeString(a.region, p5, b.region, q5);
    TakeRest(a, x, b, y);
    SameNumbers(a, b);
  }

  ghost function PutServices(s: seq<ServiceData>, rest: seq<int>): seq<int> {
    if s == [] then [0] + rest else [1] + PutService(s[0], PutServices(s[1..], rest))
  }

  lemma {:induction false} TakeServices(a: seq<ServiceData>, x: seq<int>, b: seq<ServiceData>, y: seq<int>)
    requires PutServices(a, x) == PutServices(b, y)
    ensures a == b && x == y
  {
    hide PutService;
    assert a == [] <==> b == [] by { assert PutServices(a, x)[0] == PutServices(b, y)[0]; }
    if a == [] {
      assert ([0] + x)[1..] == x && ([0] + y)[1..] == y;
    } else {
      var p, q := PutService(a[0], PutServices(a[1..], x)), PutService(b[0], PutServices(b[1..], y));
      assert ([1] + p)[1..] == p && ([1] + q)[1..] == q;
      TakeService(a[0], PutServices(a[1..], x), b[0], PutServices(b[1..], y));
      TakeServices(a[1..], x, b[1..], y);
      assert a == [a[0]] + a[1..] && b == [b[0]] + b[1..];
    }
  }

  function UnitNumber(unit: GroupBy): int {
    match unit
    case Day => 0
    case Week => 1
    case Month => 2
    case Quarter => 3
    case Year => 4
  }

  ghost function Put(e: Estimate): seq<int>
    requires e.Estimate?
  {
    [e.timestamp, e.periodStart, e.periodEnd, UnitNumber(e.groupBy)] + PutServices(e.services, [])
  }

  lemma {:induction false} Take(a: Estimate, b: Estimate)
    requires a.Estimate? && b.Estimate? && Put(a) == Put(b)
    ensures a == b
  {
    hide PutServices;
    var p, q := Put(a), Put(b);
    assert p[0] == q[0] && p[1] == q[1] && p[2] == q[2] && p[3] == q[3];
    assert p[4..] == PutServices(a.services, []) && q[4..] == PutServices(b.services, []);
    TakeServices(a.services, [], b.services, []);
  }

  function Ones(n: nat): (s: string)
    ensures |s| == n && forall i :: 0 <= i < n ==> s[i] == '1'
  {
    if n == 0 then "" else "1" + Ones(n - 1)
  }

  /** A number as its sign and that many ones. */
  function Digits(n: int): string { if n < 0 then "-" + Ones(-n) else "+" + Ones(n) }

  function Digitized(numbers: seq<int>): (s: string)
    ensures forall i :: 0 <= i < |s| ==> s[i] == '1' || s[i] == '+' || s[i] == '-'
    ensures s != "" ==> s[0] != '1'
  {
    if numbers == [] then "" else Digits(numbers[0]) + Digitized(numbers[1..])
  }

  function LeadingOnes(s: string): nat {
    if s == "" || s[0] != '1' then 0 else 1 + LeadingOnes(s[1..])
  }

  lemma {:induction false} LeadingOnesOf(m: nat, x: string)
    requires x == "" || x[0] != '1'
    ensures LeadingOnes(Ones(m) + x) == m
  {
    if m > 0 {
      assert (Ones(m) + x)[1..] == Ones(m - 1) + x;
      LeadingOnesOf(m - 1, x);
    } else {
      assert Ones(0) + x == x;
    }
  }

  lemma {:induction false} TakeOnes(m: nat, x: string, n: nat, y: string)
    requires Ones(m) + x == Ones(n) + y && (x == "" || x[0] != '1') && (y == "" || y[0] != '1')
    ensures m == n && x == y
  {
    hide LeadingOnes;
    LeadingOnesOf(m, x);
    LeadingOnesOf(n, y);
    assert (Ones(m) + x)[m..] == x && (Ones(n) + y)[n..] == y;
  }

  function Magnitude(n: int): nat { if n < 0 then -n else n }

  lemma {:induction false} SignFirst(n: int)
    ensures Digits(n) == [if n < 0 then '-' else '+'] + Ones(Magnitude(n))
  {
    hide Ones;
  }

  lemma {:induction false} AfterFirst(c: char, s: string, t: string)
    ensures ([c] + s + t)[0] == c && ([c] + s + t)[1..] == s + t
  {
  }

  lemma {:induction false} FirstDigits(numbers: seq<int>)
    requires numbers != []
    ensures var s := Digitized(numbers);
            s != "" && s[0] == (if numbers[0] < 0 then '-' else '+') &&
            s[1..] == Ones(Magnitude(numbers[0])) + Digitized(numbers[1..])
  {
    hide Ones, Digits, Magnitude;
    SignFirst(numbers[0]);
    AfterFirst(if numbers[0] < 0 then '-' else '+', Ones(Magnitude(numbers[0])), Digitized(numbers[1..]));
  }

  lemma {:induction false} TakeDigits(a: seq<int>, b: seq<int>)
    requires Digitized(a) == Digitized(b)
    ensures a == b
  {
    hide Ones, Digitized, Digits;
    assert Digitized([]) == "" by { NoDigits(); }
    if a != [] { FirstDigits(a); }
    if b != [] { FirstDigits(b); }
    if a != [] && b != [] {
      TakeOnes(Magnitude(a[0]), Digitized(a[1..]), Magnitude(b[0]), Digitized(b[1..]));
      TakeDigits(a[1..], b[1..]);
      assert a == [a[0]] + a[1..] && b == [b[0]] + b[1..];
    }
  }

  lemma {:induction false} NoDigits()
    ensures Digitized([]) == ""
  {
  }

  ghost function Encoded(e: Estimate): string {
    if e.EmptyArray? then "[]" else "{" + Digitized(Put(e)) + "}"
  }

  lemma {:induction false} EncodedOnce(a: Estimate, b: Estimate)
    requires Encoded(a) == Encoded(b)
    ensures a == b
  {
    hide Put;
    assert Encoded(a)[0] == Encoded(b)[0];
    if a.Estimate? && b.Estimate? {
      var p, q := Digitized(Put(a)), Digitized(Put(b));
      assert Encoded(a)[1..|p| + 1] == p && Encoded(b)[1..|q| + 1] == q;
      TakeDigits(Put(a), Put(b));
      Take(a, b);
    }
  }

  lemma {:induction false} DigitsLength(n: int, rest: seq<int>)
    ensures |Digitized([n] + rest)| == 1 + Magnitude(n) + |Digitized(rest)|
  {
    hide Digitized, Ones;
    assert ([n] + rest)[1..] == rest;
    FirstDigits([n] + rest);
  }

  /** An end date one millisecond later makes the text one character longer. */
  lemma {:induction false} LaterEndIsLonger(e: Estimate)
    requires e.Estimate? && e.periodEnd >= 0
    ensures |Encoded(e.(periodEnd := e.periodEnd + 1))| == |Encoded(e)| + 1
  {
    hide PutServices, Digitized, UnitNumber;
    var rest := [UnitNumber(e.groupBy)] + PutServices(e.services, []);
    PutEnd(e, rest);
    PutEnd(e.(periodEnd := e.periodEnd + 1), rest);
    EndDigits(e.timestamp, e.periodStart, e.periodEnd, rest);
    EndDigits(e.timestamp, e.periodStart, e.periodEnd + 1, rest);
  }

  lemma {:induction false} PutEnd(e: Estimate, rest: seq<int>)
    requires e.Estimate? && rest == [UnitNumber(e.groupBy)] + PutServices(e.services, [])
    ensures Put(e) == [e.timestamp] + ([e.periodStart] + ([e.periodEnd] + rest))
  {
  }

  lemma {:induction false} EndDigits(a: int, b: int, c: int, rest: seq<int>)
    ensures |Digitized([a] + ([b] + ([c] + rest)))|
         == 3 + Magnitude(a) + Magnitude(b) + Magnitude(c) + |Digitized(rest)|
  {
    hide Digitized;
    DigitsLength(a, [b] + ([c] + rest));
    DigitsLength(b, [c] + rest);
    DigitsLength(c, rest);
  }

  ghost function Decoded(line: string): Option<Estimate> {
    if exists e: Estimate :: Encoded(e) == line then (var e :| Encoded(e) == line; Some(e)) else None
  }

  ghost function SomeCodec(): Codec {
    Codec((e: Estimate) => Encoded(e), (line: string) => Decoded(line))
  }

  /** There is an encoding of all values that is a line, can be decoded, and gives two brackets for the empty array. */
  lemma {:induction false} CodecExists()
    ensures SomeCodec().Valid()
  {
    hide Encoded, Decoded;
    var codec := SomeCodec();
    EncodedShape(EmptyArray);
    forall e
      ensures codec.decode(codec.encode(e)) == Some(e) && '\n' !in codec.encode(e) && |codec.encode(e)| > 1
    {
      EncodedShape(e);
      DecodedEncoded(e);
    }
  }

  lemma {:induction false} EncodedShape(e: Estimate)
    ensures '\n' !in Encoded(e) && |Encoded(e)| > 1 && (e.EmptyArray? ==> Encoded(e) == "[]")
  {
    hide Digitized, Put;
  }

  lemma {:induction false} DecodedEncoded(e: Estimate)
    ensures Decoded(Encoded(e)) == Some(e)
  {
    hide Encoded;
    var line := Encoded(e);
    assert exists f: Estimate :: Encoded(f) == line;
    var f := Decoded(line).value;
    assert Encoded(f) == line;
    EncodedOnce(f, e);
  }

  // ----- providers -----

  /** What a range reaches of each period's usage. */
  function Reached(unit: GroupBy, usage: int -> seq<ServiceData>, shortUsage: int -> seq<ServiceData>,
                   range: Range): int -> seq<ServiceData> {
    (d: int) => if Add(unit, d, 1) - 1 <= range.end then usage(d) else shortUsage(d)
  }

  /** A provider of given usage that never answers. */
  function Silent(unit: GroupBy, usage: int -> seq<ServiceData>): Provider {
    Provider(unit, usage, usage, (_: Range) => [])
  }

  function UsageIn(unit: GroupBy, usage: int -> seq<ServiceData>, shortUsage: int -> seq<ServiceData>,
                   range: Range): seq<Estimate> {
    NonEmpty(EstimatesAt(Silent(unit, Reached(unit, usage, shortUsage, range)),
                         RequestedDates(unit, range.start, range.end)))
  }

  /** The provider that answers every range with what the range reaches of the periods it meets. */
  function UsageProvider(unit: GroupBy, usage: int -> seq<ServiceData>, shortUsage: int -> seq<ServiceData>): Provider {
    Provider(unit, usage, shortUsage, (range: Range) => UsageIn(unit, usage, shortUsage, range))
  }

  lemma {:induction false} UsageInMembers(unit: GroupBy, usage: int -> seq<ServiceData>,
                                          shortUsage: int -> seq<ServiceData>, range: Range, e: Estimate)
    ensures var answer := UsageIn(unit, usage, shortUsage, range);
            AllDated(answer) && StrictlySorted(TimeAt(0), answer) &&
            (e in answer <==>
               Silent(unit, Reached(unit, usage, shortUsage, range)).IsEstimateAt(e) && e.services != [] &&
               IsPeriodStart(unit, e.timestamp) && StartOf(unit, range.start) <= e.timestamp <= range.end)
  {
    hide PeriodStart, PeriodNumber, PeriodEndDate, StartOf, RequestedDates, Reached;
    var silent := Silent(unit, Reached(unit, usage, shortUsage, range));
    var dates := RequestedDates(unit, range.start, range.end);
    RequestedDatesExact(unit, range.start, range.end);
    EstimatesAtSorted(silent, dates, 0);
    NonEmptySorted(EstimatesAt(silent, dates), 0);
    NonEmptyMembers(EstimatesAt(silent, dates), e);
    EstimatesAtMembers(silent, dates, e);
  }

  lemma {:induction false} UsageProviderAt(unit: GroupBy, usage: int -> seq<ServiceData>,
                                           shortUsage: int -> seq<ServiceData>, range: Range, e: Estimate)
    ensures var provider := UsageProvider(unit, usage, shortUsage);
            provider.answer(range) == UsageIn(unit, usage, shortUsage, range) &&
            (Silent(unit, Reached(unit, usage, shortUsage, range)).IsEstimateAt(e) <==>
               e.Estimate? && e == provider.EstimateWith(e.timestamp, provider.UsageWithin(e.timestamp, range)))
  {
    hide PeriodEndDate, Add, UsageIn;
  }

  lemma {:induction false} MeetsFromStart(unit: GroupBy, start: int, d: int)
    requires IsPeriodStart(unit, d)
    ensures start < Add(unit, d, 1) <==> StartOf(unit, start) <= d
  {
    hide PeriodStart, PeriodNumber, StartOf, Add;
    var k, n := PeriodNumber(unit, d), PeriodNumber(unit, start);
    AddToPeriodStart(unit, k, 1);
    PeriodOfInstant(unit, start);
    PeriodAtOrBefore(unit, k + 1, start);
    PeriodStartsIncrease(unit, k, n);
  }

  lemma {:induction false} CoveredIsMet(unit: GroupBy, range: Range, d: int)
    requires IsPeriodStart(unit, d) && range.start <= d && EndOf(unit, d) <= range.end
    ensures StartOf(unit, range.start) <= d <= range.end
  {
    hide PeriodStart, PeriodNumber, StartOf, EndOf, Add;
    var k := PeriodNumber(unit, d);
    StartOfIsBefore(unit, range.start);
    EndOfPeriodStart(unit, k);
    StopsInLast(unit, k);
  }

  lemma {:induction false} UsageAnswersFor(unit: GroupBy, usage: int -> seq<ServiceData>,
                                           shortUsage: int -> seq<ServiceData>, range: Range)
    ensures UsageProvider(unit, usage, shortUsage).AnswersFor(range)
  {
    hide PeriodStart, PeriodNumber, PeriodEndDate, IsPeriodStart, StartOf, EndOf, Add, UsageProvider, Reached, UsageIn;
    var provider := UsageProvider(unit, usage, shortUsage);
    var answer := provider.answer(range);
    UsageProviderParts(unit, usage, shortUsage);
    UsageProviderAt(unit, usage, shortUsage, range, EmptyArray);
    UsageInMembers(unit, usage, shortUsage, range, EmptyArray);
    forall e | e in answer
      ensures IsPeriodStart(unit, e.timestamp) && e.timestamp <= range.end && range.start < Add(unit, e.timestamp, 1)
      ensures e == provider.EstimateWith(e.timestamp, provider.UsageWithin(e.timestamp, range))
    {
      UsageInMembers(unit, usage, shortUsage, range, e);
      UsageProviderAt(unit, usage, shortUsage, range, e);
      MeetsFromStart(unit, range.start, e.timestamp);
    }
    forall d | IsPeriodStart(unit, d) && provider.Covered(d, range)
      ensures provider.UsageWithin(d, range) != [] <==> HasKey(TimeAt(0), answer, d)
    {
      var e := provider.EstimateWith(d, provider.UsageWithin(d, range));
      CoveredIsMet(unit, range, d);
      UsageInMembers(unit, usage, shortUsage, range, e);
      UsageProviderAt(unit, usage, shortUsage, range, e);
      if e in answer {
        var i :| 0 <= i < |answer| && answer[i] == e;
        assert TimeAt(0)(answer[i]) == d;
      }
      if HasKey(TimeAt(0), answer, d) {
        var i :| 0 <= i < |answer| && TimeAt(0)(answer[i]) == d;
        assert answer[i] in answer;
        UsageInMembers(unit, usage, shortUsage, range, answer[i]);
      }
    }
  }

  lemma {:induction false} UsageProviderParts(unit: GroupBy, usage: int -> seq<ServiceData>,
                                              shortUsage: int -> seq<ServiceData>)
    ensures var provider := UsageProvider(unit, usage, shortUsage);
            provider.unit == unit && provider.usage == usage && provider.shortUsage == shortUsage
  {
  }

  /** Whatever the usage, short or not, there is a provider that meets the assumptions. */
  lemma {:induction false} UsageProviderIsFaithful(unit: GroupBy, usage: int -> seq<ServiceData>,
                                                   shortUsage: int -> seq<ServiceData>)
    ensures UsageProvider(unit, usage, shortUsage).Faithful() && AnswersDated(UsageProvider(unit, usage, shortUsage))
  {
    hide UsageProvider;
    forall range: Range
      ensures UsageProvider(unit, usage, shortUsage).AnswersFor(range)
      ensures AllDated(UsageProvider(unit, usage, shortUsage).answer(range))
    {
      UsageAnswersFor(unit, usage, shortUsage, range);
    }
  }
}
