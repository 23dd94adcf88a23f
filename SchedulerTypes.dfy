/** The records the route and the dashboard exchange: the feature vector a
    prediction is made from, the raw process a user submits, and the resolved
    process every scheduling algorithm runs on. */
module SchedulerTypes {
  import opened Wrappers
  import opened JsNumber

  datatype FeatureVector = FeatureVector(
    ioBound: Num,
    memoryFootprint: Num,
    historicalWait: Num,
    cpuIntensity: Num,
    deadlineFlexibility: Num,
    estimatedBurst: Num)

  /** A process as submitted. `burstTime` and `priority` are optional overrides;
      `features` is `None` only in a request body that omits it. */
  datatype ProcessInput = ProcessInput(
    id: string,
    name: string,
    arrivalTime: Num,
    burstTime: Option<Num>,
    priority: Option<Num>,
    features: Option<FeatureVector>)

  /** A process after resolution: the burst is a whole number because it was
      validated finite before rounding; arrival and priority are rounded but not
      validated, so they may still be non-finite. */
  datatype ProcessSpec = ProcessSpec(
    id: string,
    name: string,
    arrivalTime: Num,
    burstTime: int,
    priority: Num)

  /** Algorithm keys travel as strings; only these four have a runner. */
  type AlgorithmKey = string

  const FCFS: AlgorithmKey := "FCFS"
  const SJF: AlgorithmKey := "SJF"
  const ROUND_ROBIN: AlgorithmKey := "RoundRobin"
  const PRIORITY: AlgorithmKey := "Priority"

  const ALL_ALGORITHMS: seq<AlgorithmKey> := [FCFS, SJF, ROUND_ROBIN, PRIORITY]
}
