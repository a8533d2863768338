/** `calculateFreightRate`: resolve both regions, look up the base rate,
    aggregate the weighted index, ask for the seasonal factor, apply the
    final-rate formula, and return the result with its diagnostic trace; a
    critical failure returns the sentinel rate -1. */
module Engine {
  import opened Wrappers
  import opened Trace
  import opened Regions
  import opened BaseRates
  import opened WeightedIndex
  import opened Formula

  /** The cargo weight assumed when the caller passes none; it is only
      recorded in the opening step. */
  const DefaultWeight: real := 20000.0

  /** The fixed error text of a critical failure. */
  const CriticalErrorMessage: string := "Failed to calculate freight rate due to a critical error."

  /** The rate a critical failure reports. */
  const FailureRate: int := -1

  /** How the seasonality provider's promise settled: with a factor and a
      confidence, with nothing (null), or rejected with a message. */
  datatype SeasonalityAnswer = Resolved(factor: real, confidence: real) | ResolvedEmpty | Rejected(message: string)

  /** Everything the calculation learns from outside its arguments: the
      ports store's answer for each port, the seasonality provider's answer,
      the current month and the elapsed time in milliseconds. */
  datatype Environment = Environment(originStore: StoreAnswer, destinationStore: StoreAnswer,
                                     seasonality: SeasonalityAnswer, currentMonth: int, durationMs: int)

  /** The arguments of `calculateFreightRate`; `weight` is `None` when
      omitted. */
  datatype Request = Request(originPortId: string, destinationPortId: string, containerType: Option<string>,
                             baseRatesConfig: Option<RateTable>, indexConfig: Option<IndexConfig>,
                             sensitivityCoeff: real, weight: Option<real>, debugMode: bool)

  datatype Details = Details(originRegion: string, destinationRegion: string, indexSources: seq<string>,
                             seasonalityConfidence: real, sensitivityCoeff: real, calculationTimeMs: int)

  /** The object `calculateFreightRate` resolves to; the debug log is present
      only in debug mode. */
  datatype RateResult =
    | Calculated(finalRate: int, baseRate: real, weightedIndex: real, seasonalityFactor: real,
                 details: Details, debugLog: Option<seq<Step>>)
    | CriticalFailure(finalRate: int, error: string, calculationTimeMs: int, debugLog: Option<seq<Step>>)

  /** The factor and confidence the calculation goes on with: the provider's,
      or the default 1.0 and 0 when it rejected (or gave nothing). */
  function SeasonalityInUse(answer: SeasonalityAnswer): Seasonality
  {
    match answer
    case Resolved(factor, confidence) => Seasonality(factor, confidence)
    case _ => Seasonality(1.0, 0.0)
  }

  /** The seasonality record: the provider's value and `Success` when it
      resolved, the default and `Error` with its message when it rejected. */
  function SeasonalityRecord(originRegion: string, destinationRegion: string, month: int,
                             answer: SeasonalityAnswer): (step: Step)
    ensures step.SeasonalityStep? && step.month == month
    ensures step.status == Success <==> !answer.Rejected?
    ensures answer.Rejected? ==> step.seasonality == Some(Seasonality(1.0, 0.0)) && step.error == Some(answer.message)
    ensures answer.Resolved? ==> step.seasonality == Some(Seasonality(answer.factor, answer.confidence))
  {
    match answer
    case Resolved(factor, confidence) =>
      SeasonalityStep(originRegion, destinationRegion, month, Some(Seasonality(factor, confidence)), Success, None)
    case ResolvedEmpty =>
      SeasonalityStep(originRegion, destinationRegion, month, None, Success, None)
    case Rejected(message) =>
      SeasonalityStep(originRegion, destinationRegion, month, Some(Seasonality(1.0, 0.0)), Error, Some(message))
  }

  function OriginRegion(req: Request, env: Environment): string
  {
    ResolveRegion(req.originPortId, env.originStore)
  }

  function DestinationRegion(req: Request, env: Environment): string
  {
    ResolveRegion(req.destinationPortId, env.destinationStore)
  }

  function BaseRateOf(req: Request, env: Environment): real
  {
    RequestedBaseRate(OriginRegion(req, env), DestinationRegion(req, env), req.containerType, req.baseRatesConfig)
  }

  /** The record of the final-rate step of a calculation that gets that far. */
  function FinalRateRecord(req: Request, env: Environment): Step
  {
    var wi := RequestedIndex(req.indexConfig).value;
    var factor := SeasonalityInUse(env.seasonality).factor;
    FinalRateStep(BaseRateOf(req, env), wi, factor, req.sensitivityCoeff,
                  IndexAdjustment(wi, req.sensitivityCoeff),
                  FinalRate(BaseRateOf(req, env), wi, req.sensitivityCoeff, factor))
  }

  /** The three records every calculation writes, in debug mode or not. */
  function CoreTrace(req: Request, env: Environment): seq<Step>
  {
    var o, d := OriginRegion(req, env), DestinationRegion(req, env);
    [BaseRateRecord(o, d, req.containerType, req.baseRatesConfig),
     IndexRecord(req.indexConfig),
     SeasonalityRecord(o, d, env.currentMonth, env.seasonality)]
  }

  /** The records written before the final-rate step: in debug mode the
      opening and regions records come first. */
  function OpeningTrace(req: Request, env: Environment): seq<Step>
  {
    if req.debugMode then
      var o, d := OriginRegion(req, env), DestinationRegion(req, env);
      [StartStep(req.originPortId, req.destinationPortId, req.containerType, req.weight.GetOr(DefaultWeight)),
       RegionsStep(req.originPortId, req.destinationPortId, o, d)] + CoreTrace(req, env)
    else CoreTrace(req, env)
  }

  /** The whole log a calculation writes; it is handed back only in debug
      mode. */
  function Log(req: Request, env: Environment): seq<Step>
  {
    if env.seasonality.ResolvedEmpty? then
      if req.debugMode then OpeningTrace(req, env) + [CriticalErrorStep(env.durationMs)]
      else OpeningTrace(req, env)
    else if req.debugMode then OpeningTrace(req, env) + [FinalRateRecord(req, env), EndStep(env.durationMs)]
    else OpeningTrace(req, env) + [FinalRateRecord(req, env)]
  }

  /** What `calculateFreightRate` resolves to. The only critical failure
      left is a provider that resolves to nothing: reading its factor throws.
      Every other outcome is a non-negative whole rate. */
  function FreightRate(req: Request, env: Environment): (result: RateResult)
    ensures result.finalRate == FailureRate <==> env.seasonality.ResolvedEmpty?
    ensures result.CriticalFailure? <==> env.seasonality.ResolvedEmpty?
    ensures result.Calculated? ==> result.finalRate >= 0
    ensures result.debugLog.Some? <==> req.debugMode
  {
    var log := if req.debugMode then Some(Log(req, env)) else None;
    if env.seasonality.ResolvedEmpty? then
      CriticalFailure(FailureRate, CriticalErrorMessage, env.durationMs, log)
    else
      var wi := RequestedIndex(req.indexConfig);
      var seasonality := SeasonalityInUse(env.seasonality);
      Calculated(FinalRate(BaseRateOf(req, env), wi.value, req.sensitivityCoeff, seasonality.factor),
                 BaseRateOf(req, env), wi.value, seasonality.factor,
                 Details(OriginRegion(req, env), DestinationRegion(req, env), wi.sources,
                         seasonality.confidence, req.sensitivityCoeff, env.durationMs),
                 log)
  }

  /** The stages every calculation records, in order, before the final rate. */
  const CoreStages: seq<string> := ["Get Base Rate", "Calculate Weighted Index", "Get Seasonality Factor"]

  /** The stages debug mode adds in front. */
  const DebugOpeningStages: seq<string> := ["Start Calculation (Excel Model v4)", "Get Regions"]

  lemma CoreStageOrder(req: Request, env: Environment)
    ensures Stages(CoreTrace(req, env)) == CoreStages
  {
    var trace := CoreTrace(req, env);
    assert trace[0].BaseRateStep? && trace[1].WeightedIndexStep? && trace[2].SeasonalityStep?;
  }

  lemma OpeningStageOrder(req: Request, env: Environment)
    ensures Stages(OpeningTrace(req, env)) == (if req.debugMode then DebugOpeningStages else []) + CoreStages
  {
    CoreStageOrder(req, env);
    if req.debugMode {
      var o, d := OriginRegion(req, env), DestinationRegion(req, env);
      var front := [StartStep(req.originPortId, req.destinationPortId, req.containerType, req.weight.GetOr(DefaultWeight)),
                    RegionsStep(req.originPortId, req.destinationPortId, o, d)];
      StagesAppend(front, CoreTrace(req, env));
    }
  }

  /** The log always records the base rate, the weighted index and the
      seasonality factor in that order, then the final rate unless the
      calculation failed; debug mode adds the opening and regions records in
      front and the closing (or critical-error) record at the end. */
  lemma TraceStageOrder(req: Request, env: Environment)
    ensures Stages(Log(req, env)) ==
              (if req.debugMode then DebugOpeningStages else []) + CoreStages +
              (if env.seasonality.ResolvedEmpty? then (if req.debugMode then ["Critical Error"] else [])
               else ["Calculate Final Rate"] + (if req.debugMode then ["End Calculation"] else []))
  {
    OpeningStageOrder(req, env);
    var closing :=
      if env.seasonality.ResolvedEmpty? then (if req.debugMode then [CriticalErrorStep(env.durationMs)] else [])
      else if req.debugMode then [FinalRateRecord(req, env), EndStep(env.durationMs)]
      else [FinalRateRecord(req, env)];
    assert Log(req, env) == OpeningTrace(req, env) + closing;
    StagesAppend(OpeningTrace(req, env), closing);
  }

  /** The result agrees with its trace: a calculated result reports the
      base rate, index, factor and final rate its records carry, and every
      trace ends in a record whose status is the overall outcome. */
  lemma ResultAgreesWithTrace(req: Request, env: Environment)
    requires req.debugMode
    ensures var result, trace := FreightRate(req, env), Log(req, env);
      && result.debugLog == Some(trace)
      && trace[|trace| - 1].Tag() == Some(if result.Calculated? then Completed else Failed)
      && (result.Calculated? ==>
            && (trace[2].status == Success ==> trace[2].rate == Some(result.baseRate))
            && trace[3].indexValue == result.weightedIndex
            && trace[5].FinalRateStep?
            && trace[5].finalRate == result.finalRate
            && trace[5].baseRate == result.baseRate
            && trace[5].seasonalityFactor == result.seasonalityFactor)
  {
  }

  /** Debug mode only adds the log: the computed result is the same. */
  lemma DebugModeOnlyAddsTheLog(req: Request, env: Environment)
    ensures FreightRate(req.(debugMode := true), env).(debugLog := None) == FreightRate(req.(debugMode := false), env)
  {
  }

  /** A rejected seasonality request is not fatal: the calculation goes on
      with the factor 1.0 and confidence 0 and records the error. */
  lemma RejectedSeasonalityUsesDefault(req: Request, env: Environment)
    requires env.seasonality.Rejected?
    ensures var result := FreightRate(req, env);
      && result.Calculated?
      && result.seasonalityFactor == 1.0
      && result.details.seasonalityConfidence == 0.0
      && result.finalRate == FinalRate(result.baseRate, result.weightedIndex, req.sensitivityCoeff, 1.0)
    ensures var step := Log(req, env)[if req.debugMode then 4 else 2];
      step.status == Error && step.error == Some(env.seasonality.message)
  {
  }

  /** Ask the seasonality provider and record its answer, falling back to
      the default factor when it rejects; `None` when it resolved to nothing. */
  method GetSeasonality(originRegion: string, destinationRegion: string, month: int,
                        answer: SeasonalityAnswer, log: DebugLog)
    returns (seasonality: Option<Seasonality>)
    modifies log
    ensures seasonality == if answer.ResolvedEmpty? then None else Some(SeasonalityInUse(answer))
    ensures log.steps == old(log.steps) + [SeasonalityRecord(originRegion, destinationRegion, month, answer)]
  {
    seasonality := Some(Seasonality(1.0, 0.0));
    var step := SeasonalityStep(originRegion, destinationRegion, month, seasonality, Failed, None);
    match answer {
      case Resolved(factor, confidence) =>
        seasonality := Some(Seasonality(factor, confidence));
        step := step.(seasonality := seasonality, status := Success);
      case ResolvedEmpty =>
        seasonality := None;
        step := step.(seasonality := None, status := Success);
      case Rejected(message) =>
        step := step.(status := Error, error := Some(message));
    }
    log.Push(step);
  }

  /** Apply the final-rate formula and record the step. */
  method ApplyFinalRate(baseRate: real, weightedIndex: real, sensitivityCoeff: real, seasonalFactor: real,
                        log: DebugLog)
    returns (finalRate: int)
    modifies log
    ensures finalRate == FinalRate(baseRate, weightedIndex, sensitivityCoeff, seasonalFactor)
    ensures log.steps == old(log.steps) + [FinalRateStep(baseRate, weightedIndex, seasonalFactor, sensitivityCoeff,
                                                         IndexAdjustment(weightedIndex, sensitivityCoeff), finalRate)]
  {
    var indexAdjustment := IndexAdjustment(weightedIndex, sensitivityCoeff);
    var raw := baseRate * indexAdjustment * seasonalFactor;
    finalRate := Round(raw);
    if finalRate < 0 {
      finalRate := 0;
    }
    log.Push(FinalRateStep(baseRate, weightedIndex, seasonalFactor, sensitivityCoeff, indexAdjustment, finalRate));
  }

  /** `calculateFreightRate`, step by step, with one shared debug log. */
  method CalculateFreightRate(originPortId: string, destinationPortId: string, containerType: Option<string>,
                              baseRatesConfig: Option<RateTable>, indexConfig: Option<IndexConfig>,
                              sensitivityCoeff: real, weight: Option<real>, debugMode: bool, env: Environment)
    returns (result: RateResult, ghost steps: seq<Step>)
    ensures result == FreightRate(Request(originPortId, destinationPortId, containerType, baseRatesConfig,
                                          indexConfig, sensitivityCoeff, weight, debugMode), env)
    ensures steps == Log(Request(originPortId, destinationPortId, containerType, baseRatesConfig,
                                 indexConfig, sensitivityCoeff, weight, debugMode), env)
  {
    ghost var req := Request(originPortId, destinationPortId, containerType, baseRatesConfig,
                             indexConfig, sensitivityCoeff, weight, debugMode);
    var debugLog := new DebugLog();
    var start := StartStep(originPortId, destinationPortId, containerType, weight.GetOr(DefaultWeight));
    if debugMode {
      debugLog.Push(start);
    }
    var originRegion := ResolveRegion(originPortId, env.originStore);
    var destinationRegion := ResolveRegion(destinationPortId, env.destinationStore);
    var regions := RegionsStep(originPortId, destinationPortId, originRegion, destinationRegion);
    if debugMode {
      debugLog.Push(regions);
    }
    var baseRate := GetBaseRate(originRegion, destinationRegion, containerType, baseRatesConfig, debugLog);
    var weightedIndex := CalculateWeightedIndex(indexConfig, debugLog);
    var answer := GetSeasonality(originRegion, destinationRegion, env.currentMonth, env.seasonality, debugLog);
    ghost var opening := debugLog.steps;
    ghost var baseRateRecord := BaseRateRecord(originRegion, destinationRegion, containerType, baseRatesConfig);
    ghost var seasonalityRecord := SeasonalityRecord(originRegion, destinationRegion, env.currentMonth, env.seasonality);
    if debugMode {
      FivePushes(start, regions, baseRateRecord, IndexRecord(indexConfig), seasonalityRecord);
    } else {
      ThreePushes(baseRateRecord, IndexRecord(indexConfig), seasonalityRecord);
    }
    assert opening == OpeningTrace(req, env);
    if answer.None? {
      // Reading the factor of a null answer throws; the outer handler reports it.
      if debugMode {
        debugLog.Push(CriticalErrorStep(env.durationMs));
      }
      result := CriticalFailure(FailureRate, CriticalErrorMessage, env.durationMs,
                                if debugMode then Some(debugLog.steps) else None);
      steps := debugLog.steps;
      return;
    }
    var seasonality := answer.value;
    var finalRate := ApplyFinalRate(baseRate, weightedIndex.value, sensitivityCoeff, seasonality.factor, debugLog);
    if debugMode {
      debugLog.Push(EndStep(env.durationMs));
      TwoPushes(opening, FinalRateRecord(req, env), EndStep(env.durationMs));
    }
    result := Calculated(finalRate, baseRate, weightedIndex.value, seasonality.factor,
                         Details(originRegion, destinationRegion, weightedIndex.sources,
                                 seasonality.confidence, sensitivityCoeff, env.durationMs),
                         if debugMode then Some(debugLog.steps) else None);
    steps := debugLog.steps;
  }

  /** The configuration of the commented example calculation. */
  const ExampleRates: RateTable :=
    map["Asia" := map["Europe" := map["40HC" := 2500.0]],
        "Unknown" := map["Unknown" := map["40HC" := 2000.0]]]

  const ExampleRequest: Request :=
    Request("CNSHA", "NLRTM", Some("40HC"), Some(ExampleRates), Some(ExampleConfig), 0.5, Some(20000.0), true)

  /** The commented example: Shanghai to Rotterdam, a 40-foot high cube, at
      a neutral seasonal factor, costs 2500 · (1 + (131/120 − 1) · 0.5),
      rounded: 2615, using both indices. */
  lemma CommentedExample(env: Environment)
    requires env.seasonality.Rejected? || (env.seasonality.Resolved? && env.seasonality.factor == 1.0)
    ensures FreightRate(ExampleRequest, env).finalRate == 2615
    ensures FreightRate(ExampleRequest, env).details.indexSources == ["SCFI", "FBX"]
  {
    ExamplePorts(env.originStore);
    ExamplePorts(env.destinationStore);
    HighCubeExamples();
    ExampleIndex();
    assert BaseRateOf(ExampleRequest, env) == 2500.0;
    RoundingMasksSensitivity();
  }
}
