/** The diagnostic trace of one calculation: one record per step, appended in
    the order the engine runs, in a log the steps share. */
module Trace {
  import opened Wrappers

  /** The status tags a step can carry; `Completed` and `Failed` are also the
      overall calculation status written into the closing step. */
  datatype Status = Success | Warning | Failed | Error | Completed

  /** The level of the base-rate fallback chain that supplied the rate; what
      the base-rate step's details text reports. */
  datatype RateSource = ExactRoute | OriginDefault | GlobalDefault | AbsoluteFallback
  {
    /** Position of the level in the chain, 0 for the exact route. */
    function Level(): (k: nat)
      ensures k < 4
      ensures k == 3 <==> this == AbsoluteFallback
    {
      match this
      case ExactRoute => 0
      case OriginDefault => 1
      case GlobalDefault => 2
      case AbsoluteFallback => 3
    }
  }

  /** Why the base-rate lookup threw: the container type is not a string (it
      has no `toUpperCase`), or the configuration is null or undefined. */
  datatype BaseRateFault = ContainerTypeNotText | ConfigMissing

  /** What the index step records for one configured index. */
  datatype IndexOutcome = Skipped | Used(ratio: real)

  /** A seasonality provider's answer. */
  datatype Seasonality = Seasonality(factor: real, confidence: real)

  /** One record of the trace. Time stamps, free-text details and exception
      messages raised by the runtime are not recorded. */
  datatype Step =
    | StartStep(originPortId: string, destinationPortId: string, containerType: Option<string>,
                weight: real)
    | RegionsStep(originPortId: string, destinationPortId: string,
                  originRegion: string, destinationRegion: string)
    | BaseRateStep(originRegion: string, destinationRegion: string, containerType: Option<string>,
                   normalisedContainerType: Option<string>, rate: Option<real>,
                   source: Option<RateSource>, status: Status, fault: Option<BaseRateFault>)
    | WeightedIndexStep(inputs: seq<(string, IndexOutcome)>, weightedSum: real,
                        totalWeightUsed: real, indexValue: real, status: Status)
    | SeasonalityStep(originRegion: string, destinationRegion: string, month: int,
                      seasonality: Option<Seasonality>, status: Status, error: Option<string>)
    | FinalRateStep(baseRate: real, weightedIndex: real, seasonalityFactor: real,
                    sensitivityCoeff: real, indexAdjustment: real, finalRate: int)
    | EndStep(durationMs: int)
    | CriticalErrorStep(durationMs: int)
  {
    /** The stage name the record is written with. */
    function Stage(): string
    {
      match this
      case StartStep(_, _, _, _) => "Start Calculation (Excel Model v4)"
      case RegionsStep(_, _, _, _) => "Get Regions"
      case BaseRateStep(_, _, _, _, _, _, _, _) => "Get Base Rate"
      case WeightedIndexStep(_, _, _, _, _) => "Calculate Weighted Index"
      case SeasonalityStep(_, _, _, _, _, _) => "Get Seasonality Factor"
      case FinalRateStep(_, _, _, _, _, _) => "Calculate Final Rate"
      case EndStep(_) => "End Calculation"
      case CriticalErrorStep(_) => "Critical Error"
    }

    /** The status the record carries; the opening record has none. */
    function Tag(): Option<Status>
    {
      match this
      case StartStep(_, _, _, _) => None
      case RegionsStep(_, _, _, _) => Some(Success)
      case BaseRateStep(_, _, _, _, _, _, s, _) => Some(s)
      case WeightedIndexStep(_, _, _, _, s) => Some(s)
      case SeasonalityStep(_, _, _, _, s, _) => Some(s)
      case FinalRateStep(_, _, _, _, _, _) => Some(Success)
      case EndStep(_) => Some(Completed)
      case CriticalErrorStep(_) => Some(Failed)
    }
  }

  /** The stage names of a trace, in order. */
  function Stages(steps: seq<Step>): (names: seq<string>)
    ensures |names| == |steps|
    ensures forall i :: 0 <= i < |steps| ==> names[i] == steps[i].Stage()
  {
    seq(|steps|, i requires 0 <= i < |steps| => steps[i].Stage())
  }

  /** The stage names of a joined trace are the joined stage names. */
  lemma StagesAppend(front: seq<Step>, back: seq<Step>)
    ensures Stages(front + back) == Stages(front) + Stages(back)
  {
    var all := front + back;
    assert forall i :: 0 <= i < |all| ==> all[i] == if i < |front| then front[i] else back[i - |front|];
  }

  /** Five records pushed one by one onto an empty log form that trace. */
  lemma FivePushes(a: Step, b: Step, c: Step, d: Step, e: Step)
    ensures [] + [a] + [b] + [c] + [d] + [e] == [a, b, c, d, e]
  {
  }

  /** Three records pushed one by one onto an empty log form that trace. */
  lemma ThreePushes(a: Step, b: Step, c: Step)
    ensures [] + [a] + [b] + [c] == [a, b, c]
  {
  }

  /** Two records pushed one by one extend a trace by both. */
  lemma TwoPushes(steps: seq<Step>, a: Step, b: Step)
    ensures steps + [a] + [b] == steps + [a, b]
  {
  }

  /** The shared, append-only debug log of one calculation. */
  class DebugLog {
    var steps: seq<Step>

    constructor ()
      ensures steps == []
    {
      steps := [];
    }

    /** `debugLog.push(step)`. */
    method Push(step: Step)
      modifies this
      ensures steps == old(steps) + [step]
    {
      steps := steps + [step];
    }
  }
}
