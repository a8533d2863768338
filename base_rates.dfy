/** Base-rate lookup (`getBaseRate`): container-type normalisation and the
    three-level fallback chain over the caller's rate table. */
module BaseRates {
  import opened Wrappers
  import opened Text
  import opened Trace

  /** `baseRatesConfig`: origin region -> destination region -> container
      kind -> price. */
  type RateTable = map<string, map<string, map<string, real>>>

  /** The rate used when no level of the chain has one, and on an exception. */
  const AbsoluteFallbackRate: real := 2000.0

  /** The classes normalisation can produce. */
  const ContainerClasses: set<string> := {"20DV", "40HC", "40DV", "Unknown"}

  /** The container-type if-chain on the upper-cased input; the first test
      that passes wins. */
  function NormaliseContainer(containerType: string): (r: string)
    ensures r in ContainerClasses
  {
    var upper := ToUpper(containerType);
    if Contains(upper, "20") then "20DV"
    else if Contains(upper, "40HC") || Contains(upper, "40 HQ") then "40HC"
    else if Contains(upper, "40") then "40DV"
    else "Unknown"
  }

  /** Each kind is chosen exactly when its test is the first to pass; in
      particular "Unknown" means neither "20" nor "40" occurs. */
  lemma NormaliseContainerFirstMatch(containerType: string)
    ensures var upper, r := ToUpper(containerType), NormaliseContainer(containerType);
      && (r == "20DV" <==> Contains(upper, "20"))
      && (r == "40HC" <==> !Contains(upper, "20") && (Contains(upper, "40HC") || Contains(upper, "40 HQ")))
      && (r == "40DV" <==> !Contains(upper, "20") && !Contains(upper, "40HC") && !Contains(upper, "40 HQ")
                           && Contains(upper, "40"))
      && (r == "Unknown" <==> !Contains(upper, "20") && !Contains(upper, "40"))
  {
    var upper := ToUpper(containerType);
    if Contains(upper, "40HC") {
      ContainsPrefixOf(upper, "40HC", "40");
    }
    if Contains(upper, "40 HQ") {
      ContainsPrefixOf(upper, "40 HQ", "40");
    }
  }

  /** Normalisation ignores the case of the input. */
  lemma NormaliseContainerIgnoresCase(containerType: string)
    ensures NormaliseContainer(ToLower(containerType)) == NormaliseContainer(containerType)
    ensures NormaliseContainer(ToUpper(containerType)) == NormaliseContainer(containerType)
  {
    CaseMappingsAgree(containerType);
  }

  /** `config[o]?.[d]?.[c]`: the price at one route and kind, if any. */
  function Lookup(config: RateTable, origin: string, destination: string, kind: string): (r: Option<real>)
    ensures r.Some? <==> origin in config && destination in config[origin] && kind in config[origin][destination]
    ensures r.Some? ==> r.value == config[origin][destination][kind]
  {
    if origin in config && destination in config[origin] && kind in config[origin][destination]
    then Some(config[origin][destination][kind])
    else None
  }

  /** The routes the fallback chain tries, in order: exact, origin default,
      global default. */
  function FallbackRoutes(origin: string, destination: string): (routes: seq<(string, string)>)
  {
    [(origin, destination), (origin, "Unknown"), ("Unknown", "Unknown")]
  }

  /** A base rate together with the level of the chain that supplied it. */
  datatype BaseRate = BaseRate(rate: real, source: RateSource)

  /** The fallback chain of `getBaseRate` for a normalised kind. */
  function ChainRate(config: RateTable, origin: string, destination: string, kind: string): (b: BaseRate)
  {
    match Lookup(config, origin, destination, kind)
    case Some(exact) => BaseRate(exact, ExactRoute)
    case None =>
      match Lookup(config, origin, "Unknown", kind)
      case Some(originDefault) => BaseRate(originDefault, OriginDefault)
      case None =>
        match Lookup(config, "Unknown", "Unknown", kind)
        case Some(globalDefault) => BaseRate(globalDefault, GlobalDefault)
        case None => BaseRate(AbsoluteFallbackRate, AbsoluteFallback)
  }

  /** The chain's rate comes from the first route that has one, and 2000 when
      none has: no route after the one used is consulted, and no route before
      it has a price. */
  lemma ChainRateIsFirstDefined(config: RateTable, origin: string, destination: string, kind: string)
    ensures var b, routes := ChainRate(config, origin, destination, kind), FallbackRoutes(origin, destination);
      && (forall j :: 0 <= j < b.source.Level() ==> Lookup(config, routes[j].0, routes[j].1, kind).None?)
      && (b.source.Level() < 3 ==>
            Lookup(config, routes[b.source.Level()].0, routes[b.source.Level()].1, kind) == Some(b.rate))
      && (b.source == AbsoluteFallback ==> b.rate == AbsoluteFallbackRate)
  {
    var b, routes := ChainRate(config, origin, destination, kind), FallbackRoutes(origin, destination);
    forall j | 0 <= j < b.source.Level()
      ensures Lookup(config, routes[j].0, routes[j].1, kind).None?
    {
      assert j == 0 || j == 1 || j == 2;
    }
  }

  /** A level of the chain that has a price shadows every later level. */
  lemma EarlierLevelWins(config: RateTable, origin: string, destination: string, kind: string, j: nat)
    requires j < 3
    requires Lookup(config, FallbackRoutes(origin, destination)[j].0, FallbackRoutes(origin, destination)[j].1, kind).Some?
    ensures ChainRate(config, origin, destination, kind).source.Level() <= j
  {
    ChainRateIsFirstDefined(config, origin, destination, kind);
  }

  /** The base rate is a price of the table or the absolute fallback. */
  lemma ChainRateFromTable(config: RateTable, origin: string, destination: string, kind: string)
    ensures var r := ChainRate(config, origin, destination, kind).rate;
      r == AbsoluteFallbackRate ||
      exists o, d :: o in config && d in config[o] && kind in config[o][d] && config[o][d][kind] == r
  {
    var b := ChainRate(config, origin, destination, kind);
    match b.source
    case ExactRoute =>
    case OriginDefault =>
    case GlobalDefault =>
    case AbsoluteFallback =>
  }

  /** An empty table yields the absolute fallback. */
  lemma EmptyTableFallsBack(origin: string, destination: string, kind: string)
    ensures ChainRate(map[], origin, destination, kind) == BaseRate(AbsoluteFallbackRate, AbsoluteFallback)
  {
  }

  /** `getBaseRate` including its catch: a container type that is not a
      string, or a missing table, gives the absolute fallback. */
  function RequestedBaseRate(origin: string, destination: string, containerType: Option<string>,
                             config: Option<RateTable>): (rate: real)
    ensures containerType.None? || config.None? ==> rate == AbsoluteFallbackRate
    ensures containerType.Some? && config.Some? ==>
              rate == ChainRate(config.value, origin, destination, NormaliseContainer(containerType.value)).rate
  {
    if containerType.Some? && config.Some?
    then ChainRate(config.value, origin, destination, NormaliseContainer(containerType.value)).rate
    else AbsoluteFallbackRate
  }

  /** The record `getBaseRate` appends to the log. */
  function BaseRateRecord(origin: string, destination: string, containerType: Option<string>,
                          config: Option<RateTable>): (step: Step)
    ensures step.BaseRateStep? && step.originRegion == origin && step.destinationRegion == destination
    ensures step.status == (if containerType.Some? && config.Some? then Success else Error)
    ensures step.status == Success <==> step.fault.None?
    ensures step.status == Success ==> step.rate == Some(RequestedBaseRate(origin, destination, containerType, config))
    ensures step.normalisedContainerType.Some? <==> containerType.Some?
  {
    match containerType
    case None =>
      BaseRateStep(origin, destination, None, None, None, None, Error, Some(ContainerTypeNotText))
    case Some(text) =>
      var kind := NormaliseContainer(text);
      match config
      case None =>
        BaseRateStep(origin, destination, containerType, Some(kind), None, None, Error, Some(ConfigMissing))
      case Some(table) =>
        var b := ChainRate(table, origin, destination, kind);
        BaseRateStep(origin, destination, containerType, Some(kind), Some(b.rate), Some(b.source), Success, None)
  }

  /** `getBaseRate`: normalise, walk the chain, append exactly one record to
      the shared log and leave the earlier records as they were. */
  method GetBaseRate(origin: string, destination: string, containerType: Option<string>,
                     config: Option<RateTable>, log: DebugLog) returns (rate: real)
    modifies log
    ensures rate == RequestedBaseRate(origin, destination, containerType, config)
    ensures log.steps == old(log.steps) + [BaseRateRecord(origin, destination, containerType, config)]
  {
    if containerType.None? {
      log.Push(BaseRateStep(origin, destination, None, None, None, None, Error, Some(ContainerTypeNotText)));
      return AbsoluteFallbackRate;
    }
    var kind := NormaliseContainer(containerType.value);
    if config.None? {
      log.Push(BaseRateStep(origin, destination, containerType, Some(kind), None, None, Error, Some(ConfigMissing)));
      return AbsoluteFallbackRate;
    }
    var table := config.value;
    var source := ExactRoute;
    var found := Lookup(table, origin, destination, kind);
    if found.None? {
      source := OriginDefault;
      found := Lookup(table, origin, "Unknown", kind);
      if found.None? {
        source := GlobalDefault;
        found := Lookup(table, "Unknown", "Unknown", kind);
        if found.None? {
          source := AbsoluteFallback;
          found := Some(AbsoluteFallbackRate);
        }
      }
    }
    rate := found.value;
    log.Push(BaseRateStep(origin, destination, containerType, Some(kind), Some(rate), Some(source), Success, None));
  }

  /** "20GP" is a 20-foot dry container. */
  lemma TwentyFootExample()
    ensures NormaliseContainer("20GP") == "20DV"
  {
    assert ToUpper("20GP") == "20GP";
  }

  /** "40HC", "40hc" and "40 HQ" are high cubes: the input is upper-cased
      before the tests. */
  lemma HighCubeExamples()
    ensures NormaliseContainer("40HC") == "40HC"
    ensures NormaliseContainer("40hc") == "40HC"
    ensures NormaliseContainer("40 HQ") == "40HC"
  {
    assert ToUpper("40hc") == "40HC" && ToUpper("40HC") == "40HC" && ToUpper("40 HQ") == "40 HQ";
    MissingFirstCharNotContained("40HC", "20");
    MissingFirstCharNotContained("40 HQ", "20");
    assert Contains("40HC", "40HC") && Contains("40 HQ", "40 HQ");
  }

  /** "40HQ" without the space is not recognised as a high cube, and "40ft"
      is a 40-foot dry container. */
  lemma FortyFootDryExamples()
    ensures NormaliseContainer("40HQ") == "40DV"
    ensures NormaliseContainer("40ft") == "40DV"
  {
    assert ToUpper("40HQ") == "40HQ" && ToUpper("40ft") == "40FT";
    MissingFirstCharNotContained("40HQ", "20");
    MissingFirstCharNotContained("40FT", "20");
    TooShortNotContained("40HQ", "40HC");
    TooShortNotContained("40HQ", "40 HQ");
    TooShortNotContained("40FT", "40HC");
    TooShortNotContained("40FT", "40 HQ");
    assert Contains("40HQ", "40") && Contains("40FT", "40");
  }

  /** A type naming neither size is "Unknown". */
  lemma UnknownContainerExample()
    ensures NormaliseContainer("reefer") == "Unknown"
  {
    assert ToUpper("reefer") == "REEFER";
    MissingFirstCharNotContained("REEFER", "20");
    MissingFirstCharNotContained("REEFER", "40HC");
    MissingFirstCharNotContained("REEFER", "40 HQ");
    MissingFirstCharNotContained("REEFER", "40");
  }
}
