/** The `POST /api/schedule` handler: resolve every submitted process against
    the prediction engine (fail-fast), teach the engine from the processes that
    carried a user burst, then run each selected scheduling algorithm on the
    same resolved batch. The algorithms and the engine's model are opaque. */
module ScheduleRoute {
  import opened Wrappers
  import opened JsNumber
  import opened Seqs
  import opened SchedulerTypes

  /** What the prediction engine answers for a feature vector. */
  datatype Prediction = Prediction(burst: Num, priority: Num)

  /** The outcome of `coerceProcess` for one process. */
  datatype Resolution = Resolution(process: ProcessSpec, features: FeatureVector, providedBurst: Option<Num>)

  /** The arguments of one `engine.record` call. */
  datatype Sample = Sample(process: ProcessSpec, features: FeatureVector)

  /** The errors the handler throws; each aborts the whole request. */
  datatype Error =
    | EmptyBatch
    | MissingFeatures(processName: string)
    | InvalidBurst(processName: string)
    | UnsupportedAlgorithm(key: AlgorithmKey)

  /** The message text the handler returns for each error: it names the process
      or the key that caused it. */
  function Message(e: Error): (msg: string)
    ensures e.EmptyBatch? ==> msg == "Provide at least one process to schedule."
    ensures e.MissingFeatures? ==>
              |msg| >= |e.processName| && msg[|msg| - |e.processName|..] == e.processName
    ensures e.InvalidBurst? ==>
              |msg| >= 31 && msg[..31] == "Invalid burst time for process " && e.processName <= msg[31..]
    ensures e.UnsupportedAlgorithm? ==> |msg| >= |e.key| && msg[|msg| - |e.key|..] == e.key
  {
    match e
    case EmptyBatch => "Provide at least one process to schedule."
    case MissingFeatures(n) => "Missing feature vector for process " + n
    case InvalidBurst(n) => "Invalid burst time for process " + n + ". Provide a positive value."
    case UnsupportedAlgorithm(k) => "Unsupported algorithm " + k
  }

  /** The request body; `None` is a property the body leaves out. */
  datatype Payload = Payload(
    processes: Option<seq<ProcessInput>>,
    selectedAlgorithms: Option<seq<AlgorithmKey>>,
    roundRobinQuantum: Option<Num>,
    usePredictions: Option<bool>)

  datatype Response<R> = Response(results: seq<R>, resolvedProcesses: seq<ProcessSpec>)

  /** The four scheduling functions of the scheduling library, whose definitions are not part of this model. */
  datatype Schedulers<R> = Schedulers(
    fcfs: seq<ProcessSpec> -> R,
    sjf: seq<ProcessSpec> -> R,
    roundRobin: (seq<ProcessSpec>, Num) -> R,
    priority: seq<ProcessSpec> -> R)

  // ---------------------------------------------------------------------------
  // coerceProcess
  // ---------------------------------------------------------------------------

  /** One field's choice: the prediction when predictions are in use, otherwise
      the supplied value when present (`??`) and the prediction when absent. */
  function Choose(usePredictions: bool, supplied: Option<Num>, predicted: Num): (r: Num)
    ensures usePredictions ==> r == predicted
    ensures !usePredictions && supplied.Some? ==> r == supplied.value
    ensures !usePredictions && supplied.None? ==> r == predicted
  {
    if usePredictions then predicted else supplied.GetOr(predicted)
  }

  /** Resolve one process: pick burst and priority, reject a burst that is not a
      finite positive number, and round and clamp the fields. */
  function CoerceProcess(input: ProcessInput, usePredictions: bool, predict: FeatureVector -> Prediction): (r: Result<Resolution, Error>)
    ensures input.features.None? ==> r == Failure(MissingFeatures(input.name))
    ensures input.features.Some? ==>
              var b := Choose(usePredictions, input.burstTime, predict(input.features.value).burst);
              (r.Success? <==> b.Real? && b.val > 0.0) && (r.Failure? ==> r.error == InvalidBurst(input.name))
    ensures r.Success? ==>
              && r.value.process.id == input.id
              && r.value.process.name == input.name
              && input.features == Some(r.value.features)
              && r.value.providedBurst == input.burstTime
              && r.value.process.burstTime >= 0
              && IsIntegral(r.value.process.priority)
    // with predictions in use, the input's own burst and priority are ignored
    ensures r.Success? && usePredictions ==>
              var p := predict(r.value.features);
              && p.burst.Real?
              && r.value.process.burstTime == RoundReal(p.burst.val)
              && r.value.process.priority == Round(p.priority)
    // without predictions, each field independently prefers the supplied value
    ensures r.Success? && !usePredictions && input.burstTime.Some? ==>
              input.burstTime.value.Real? && r.value.process.burstTime == RoundReal(input.burstTime.value.val)
    ensures r.Success? && !usePredictions && input.burstTime.None? ==>
              r.value.process.burstTime == RoundReal(predict(r.value.features).burst.val)
    ensures r.Success? && !usePredictions && input.priority.Some? ==>
              r.value.process.priority == Round(input.priority.value)
    ensures r.Success? && !usePredictions && input.priority.None? ==>
              r.value.process.priority == Round(predict(r.value.features).priority)
    // arrival: max(0, round(arrival))
    ensures r.Success? ==>
              var a := r.value.process.arrivalTime;
              && IsIntegral(a)
              && (input.arrivalTime.NaN? <==> a.NaN?)
              && (!a.NaN? ==> Le(Real(0.0), a))
              && (input.arrivalTime.Real? ==>
                    a == Real(if RoundReal(input.arrivalTime.val) < 0 then 0.0 else RoundReal(input.arrivalTime.val) as real))
              && (input.arrivalTime.NegInf? ==> a == Real(0.0))
              && (input.arrivalTime.PosInf? ==> a == PosInf)
  {
    if input.features.None? then Failure(MissingFeatures(input.name))
    else
      var features := input.features.value;
      var prediction := predict(features);
      var burst := Choose(usePredictions, input.burstTime, prediction.burst);
      var priority := Choose(usePredictions, input.priority, prediction.priority);
      if !IsFinite(burst) || Le(burst, Real(0.0)) then Failure(InvalidBurst(input.name))
      else
        var spec := ProcessSpec(
          input.id,
          input.name,
          Max(Real(0.0), Round(input.arrivalTime)),
          RoundReal(burst.val),
          Round(priority));
        Success(Resolution(spec, features, input.burstTime))
  }

  /** `??` falls back only on an absent value: a supplied burst of 0 is kept, and
      therefore rejected, even when the prediction is valid. */
  lemma SuppliedZeroBurstIsRejected(input: ProcessInput, predict: FeatureVector -> Prediction)
    requires input.features.Some? && input.burstTime == Some(Real(0.0))
    ensures CoerceProcess(input, false, predict) == Failure(InvalidBurst(input.name))
  {
  }

  /** The validation looks at the unrounded burst: a positive burst below one half
      passes it and resolves to a burst time of 0. */
  lemma SmallBurstRoundsToZero(input: ProcessInput, predict: FeatureVector -> Prediction)
    requires input.features.Some? && input.burstTime == Some(Real(2.0 / 5.0))
    ensures CoerceProcess(input, false, predict).Success?
    ensures CoerceProcess(input, false, predict).value.process.burstTime == 0
  {
  }

  // ---------------------------------------------------------------------------
  // processes.map(coerceProcess): fail-fast resolution of the batch
  // ---------------------------------------------------------------------------

  /** Resolve every process in input order; the first failure aborts the batch. */
  function ResolveAll(ps: seq<ProcessInput>, usePredictions: bool, predict: FeatureVector -> Prediction): (r: Result<seq<Resolution>, Error>)
    ensures r.Success? <==> forall i :: 0 <= i < |ps| ==> CoerceProcess(ps[i], usePredictions, predict).Success?
    ensures r.Success? ==>
              && |r.value| == |ps|
              && forall i :: 0 <= i < |ps| ==> r.value[i] == CoerceProcess(ps[i], usePredictions, predict).value
    ensures r.Failure? ==>
              exists i :: 0 <= i < |ps|
                && CoerceProcess(ps[i], usePredictions, predict) == Failure(r.error)
                && forall j :: 0 <= j < i ==> CoerceProcess(ps[j], usePredictions, predict).Success?
  {
    if ps == [] then Success([])
    else
      var head :- CoerceProcess(ps[0], usePredictions, predict);
      var tail :- ResolveAll(ps[1..], usePredictions, predict);
      assert forall i :: 1 <= i < |ps| ==> ps[i] == ps[1..][i - 1];
      Success([head] + tail)
  }

  /** The resolved specs, `resolved.map((item) => item.process)`. */
  function Specs(rs: seq<Resolution>): (specs: seq<ProcessSpec>)
    ensures |specs| == |rs| && forall i :: 0 <= i < |rs| ==> specs[i] == rs[i].process
  {
    seq(|rs|, i requires 0 <= i < |rs| => rs[i].process)
  }

  // ---------------------------------------------------------------------------
  // The record loop
  // ---------------------------------------------------------------------------

  /** The `engine.record` calls the loop makes over `rs`, in order: one for each
      resolution whose input carried a burst. */
  function RecordLog(rs: seq<Resolution>): (log: seq<Sample>)
    ensures |log| <= |rs|
  {
    if rs == [] then []
    else
      var last := rs[|rs| - 1];
      RecordLog(rs[..|rs| - 1]) + (if last.providedBurst.Some? then [Sample(last.process, last.features)] else [])
  }

  /** A sample is recorded exactly when some resolution with a supplied burst produced it. */
  lemma {:induction false} RecordLogMembers(rs: seq<Resolution>, s: Sample)
    ensures s in RecordLog(rs) <==>
              exists i :: 0 <= i < |rs| && rs[i].providedBurst.Some? && s == Sample(rs[i].process, rs[i].features)
  {
    if rs != [] {
      var init := rs[..|rs| - 1];
      RecordLogMembers(init, s);
      assert forall i :: 0 <= i < |init| ==> init[i] == rs[i];
    }
  }

  /** Recording distributes over concatenation, so the log follows input order. */
  lemma {:induction false} RecordLogConcat(a: seq<Resolution>, b: seq<Resolution>)
    ensures RecordLog(a + b) == RecordLog(a) + RecordLog(b)
  {
    if b != [] {
      assert (a + b)[..|a + b| - 1] == a + b[..|b| - 1];
      RecordLogConcat(a, b[..|b| - 1]);
    } else {
      assert a + b == a;
    }
  }

  // ---------------------------------------------------------------------------
  // Algorithm selection and dispatch
  // ---------------------------------------------------------------------------

  /** `[...new Set(keys)]`: each key once, at the place of its first occurrence. */
  function Unique(keys: seq<AlgorithmKey>): (u: seq<AlgorithmKey>)
    ensures |u| <= |keys|
    ensures forall k :: k in u <==> k in keys
    ensures NoDuplicates(u)
  {
    if keys == [] then []
    else
      var u0 := Unique(keys[..|keys| - 1]);
      var k := keys[|keys| - 1];
      assert forall x :: x in keys <==> x in keys[..|keys| - 1] || x == k by {
        assert keys == keys[..|keys| - 1] + [k];
      }
      if k in u0 then u0 else u0 + [k]
  }

  /** The keys of `Unique(keys)` appear in the order of their first occurrences in `keys`. */
  lemma {:induction false} UniqueKeepsFirstOccurrenceOrder(keys: seq<AlgorithmKey>)
    ensures forall i, j :: 0 <= i < j < |Unique(keys)| ==>
              FirstIndex(keys, Unique(keys)[i]) < FirstIndex(keys, Unique(keys)[j])
  {
    if keys != [] {
      var n := |keys| - 1;
      var init := keys[..n];
      var u0 := Unique(init);
      var u := Unique(keys);
      UniqueKeepsFirstOccurrenceOrder(init);
      forall x | x in u0
        ensures FirstIndex(keys, x) == FirstIndex(init, x) < n
      {
        FirstIndexOfPrefix(keys, n, x);
      }
      if keys[n] !in u0 {
        assert keys[n] !in init;
        assert FirstIndex(keys, keys[n]) == n;
      }
    }
  }

  /** The algorithms a request runs: its de-duplicated selection, or all four when that is empty. */
  function Algorithms(selected: seq<AlgorithmKey>): (algs: seq<AlgorithmKey>)
    ensures selected == [] ==> algs == ALL_ALGORITHMS
    ensures selected != [] ==> (forall k :: k in algs <==> k in selected) && NoDuplicates(algs)
    ensures selected != [] ==> algs == Unique(selected)
    ensures algs != []
  {
    var u := Unique(selected);
    if u == [] then ALL_ALGORITHMS else u
  }

  /** `Math.max(1, Math.round(q))`: at least 1 and whole unless `q` is NaN. */
  function Quantum(q: Num): (r: Num)
    ensures r.NaN? <==> q.NaN?
    ensures !q.NaN? ==> Le(Real(1.0), r) && IsIntegral(r)
    ensures q.Real? ==> r.Real? && r.val >= 1.0
    ensures q.Real? ==> r == Real(if RoundReal(q.val) < 1 then 1.0 else RoundReal(q.val) as real)
    ensures q.PosInf? ==> r == PosInf
    ensures q.NegInf? ==> r == Real(1.0)
  {
    Max(Real(1.0), Round(q))
  }

  predicate IsKnown(key: AlgorithmKey) {
    key in ALL_ALGORITHMS
  }

  /** `algorithmDispatch[key]`, applied: the key's runner on the batch, `None` for a key with no runner. */
  function Dispatch<R>(s: Schedulers<R>, key: AlgorithmKey, specs: seq<ProcessSpec>, quantum: Num): (r: Option<R>)
    ensures r.Some? <==> IsKnown(key)
    ensures key == FCFS ==> r == Some(s.fcfs(specs))
    ensures key == SJF ==> r == Some(s.sjf(specs))
    ensures key == ROUND_ROBIN ==> r == Some(s.roundRobin(specs, quantum))
    ensures key == PRIORITY ==> r == Some(s.priority(specs))
  {
    if key == FCFS then Some(s.fcfs(specs))
    else if key == SJF then Some(s.sjf(specs))
    else if key == ROUND_ROBIN then Some(s.roundRobin(specs, quantum))
    else if key == PRIORITY then Some(s.priority(specs))
    else None
  }

  /** `keys.map(...)`: one result per key, in order, all on the same batch; the first key without a runner aborts. */
  function RunAll<R>(keys: seq<AlgorithmKey>, specs: seq<ProcessSpec>, quantum: Num, s: Schedulers<R>): (r: Result<seq<R>, Error>)
    ensures r.Success? <==> forall i :: 0 <= i < |keys| ==> IsKnown(keys[i])
    ensures r.Success? ==>
              && |r.value| == |keys|
              && forall i :: 0 <= i < |keys| ==> Some(r.value[i]) == Dispatch(s, keys[i], specs, quantum)
    ensures r.Failure? ==>
              exists i :: 0 <= i < |keys|
                && !IsKnown(keys[i])
                && r.error == UnsupportedAlgorithm(keys[i])
                && forall j :: 0 <= j < i ==> IsKnown(keys[j])
  {
    if keys == [] then Success([])
    else
      var head := Dispatch(s, keys[0], specs, quantum);
      if head.None? then Failure(UnsupportedAlgorithm(keys[0]))
      else
        var tail :- RunAll(keys[1..], specs, quantum, s);
        assert forall i :: 1 <= i < |keys| ==> keys[i] == keys[1..][i - 1];
        Success([head.value] + tail)
  }

  // ---------------------------------------------------------------------------
  // POST
  // ---------------------------------------------------------------------------

  // The destructuring defaults of the request body: an absent property takes its default.

  function ProcessesOf(payload: Payload): (ps: seq<ProcessInput>)
    ensures payload.processes.None? ==> ps == []
    ensures payload.processes.Some? ==> ps == payload.processes.value
  {
    payload.processes.GetOr([])
  }

  function SelectedOf(payload: Payload): (keys: seq<AlgorithmKey>)
    ensures payload.selectedAlgorithms.None? ==> keys == []
    ensures payload.selectedAlgorithms.Some? ==> keys == payload.selectedAlgorithms.value
  {
    payload.selectedAlgorithms.GetOr([])
  }

  function QuantumInputOf(payload: Payload): (q: Num)
    ensures payload.roundRobinQuantum.None? ==> q == Real(4.0)
    ensures payload.roundRobinQuantum.Some? ==> q == payload.roundRobinQuantum.value
  {
    payload.roundRobinQuantum.GetOr(Real(4.0))
  }

  function UsePredictionsOf(payload: Payload): (use: bool)
    ensures payload.usePredictions.None? ==> use
    ensures payload.usePredictions.Some? ==> use == payload.usePredictions.value
  {
    payload.usePredictions.GetOr(true)
  }

  /** The response POST gives for a request body, against a fixed predictor. */
  function Respond<R>(payload: Payload, predict: FeatureVector -> Prediction, s: Schedulers<R>): (r: Result<Response<R>, Error>)
    ensures r.Success? <==>
              && ProcessesOf(payload) != []
              && ResolveAll(ProcessesOf(payload), UsePredictionsOf(payload), predict).Success?
              && forall k :: k in Algorithms(SelectedOf(payload)) ==> IsKnown(k)
    ensures ProcessesOf(payload) == [] ==> r == Failure(EmptyBatch)
    ensures ProcessesOf(payload) != [] && ResolveAll(ProcessesOf(payload), UsePredictionsOf(payload), predict).Failure? ==>
              r == Failure(ResolveAll(ProcessesOf(payload), UsePredictionsOf(payload), predict).error)
    // a resolved batch fails only on the first selected key without a runner
    ensures ProcessesOf(payload) != [] && ResolveAll(ProcessesOf(payload), UsePredictionsOf(payload), predict).Success? && r.Failure? ==>
              var algs := Algorithms(SelectedOf(payload));
              exists i :: 0 <= i < |algs|
                && !IsKnown(algs[i])
                && r.error == UnsupportedAlgorithm(algs[i])
                && forall j :: 0 <= j < i ==> IsKnown(algs[j])
    ensures r.Success? ==>
              var ps := ProcessesOf(payload);
              && |r.value.resolvedProcesses| == |ps| > 0
              && forall i :: 0 <= i < |ps| ==>
                   r.value.resolvedProcesses[i] == CoerceProcess(ps[i], UsePredictionsOf(payload), predict).value.process
    ensures r.Success? ==>
              var algs := Algorithms(SelectedOf(payload));
              var quantum := Quantum(QuantumInputOf(payload));
              && |r.value.results| == |algs|
              && forall i :: 0 <= i < |algs| ==>
                   Some(r.value.results[i]) == Dispatch(s, algs[i], r.value.resolvedProcesses, quantum)
  {
    var ps := ProcessesOf(payload);
    if ps == [] then Failure(EmptyBatch)
    else
      var resolved :- ResolveAll(ps, UsePredictionsOf(payload), predict);
      var specs := Specs(resolved);
      var algs := Algorithms(SelectedOf(payload));
      var results :- RunAll(algs, specs, Quantum(QuantumInputOf(payload)), s);
      Success(Response(results, specs))
  }

  /** The samples POST hands to `engine.record`, in order: none for an empty batch
      or a batch that fails to resolve. */
  function RecordedSamples(payload: Payload, predict: FeatureVector -> Prediction): (log: seq<Sample>)
    ensures ProcessesOf(payload) == [] ==> log == []
    ensures ResolveAll(ProcessesOf(payload), UsePredictionsOf(payload), predict).Failure? ==> log == []
    ensures |log| <= |ProcessesOf(payload)|
    ensures ProcessesOf(payload) != [] && ResolveAll(ProcessesOf(payload), UsePredictionsOf(payload), predict).Success? ==>
              log == RecordLog(ResolveAll(ProcessesOf(payload), UsePredictionsOf(payload), predict).value)
  {
    var ps := ProcessesOf(payload);
    if ps == [] then []
    else
      match ResolveAll(ps, UsePredictionsOf(payload), predict)
      case Failure(_) => []
      case Success(rs) => RecordLog(rs)
  }

  /** A sample is recorded exactly when it comes from a process whose input carried a burst. */
  lemma RecordedSamplesExactly(payload: Payload, predict: FeatureVector -> Prediction, s: Sample)
    requires ResolveAll(ProcessesOf(payload), UsePredictionsOf(payload), predict).Success?
    ensures s in RecordedSamples(payload, predict) <==>
              exists i :: 0 <= i < |ProcessesOf(payload)|
                && ProcessesOf(payload)[i].burstTime.Some?
                && s == Sample(CoerceProcess(ProcessesOf(payload)[i], UsePredictionsOf(payload), predict).value.process,
                               ProcessesOf(payload)[i].features.value)
  {
    var ps := ProcessesOf(payload);
    if ps != [] {
      var rs := ResolveAll(ps, UsePredictionsOf(payload), predict).value;
      RecordLogMembers(rs, s);
    }
  }

  /** With predictions in use, every recorded spec carries the predicted burst, not the user's. */
  lemma RecordedUnderPredictionsCarryPredictedBurst(payload: Payload, predict: FeatureVector -> Prediction, s: Sample)
    requires UsePredictionsOf(payload)
    requires s in RecordedSamples(payload, predict)
    ensures predict(s.features).burst.Real?
    ensures s.process.burstTime == RoundReal(predict(s.features).burst.val)
  {
    var ps := ProcessesOf(payload);
    var rs := ResolveAll(ps, true, predict).value;
    RecordLogMembers(rs, s);
    var i :| 0 <= i < |rs| && rs[i].providedBurst.Some? && s == Sample(rs[i].process, rs[i].features);
    assert rs[i] == CoerceProcess(ps[i], true, predict).value;
  }

  /** The record loop runs before the algorithms are dispatched: a key without a
      runner fails the request after the supplied bursts have been recorded. */
  lemma UnsupportedAlgorithmFailsAfterRecording<R>(payload: Payload, predict: FeatureVector -> Prediction, s: Schedulers<R>, i: nat, k: nat)
    requires ResolveAll(ProcessesOf(payload), UsePredictionsOf(payload), predict).Success?
    requires i < |ProcessesOf(payload)| && ProcessesOf(payload)[i].burstTime.Some?
    requires k < |SelectedOf(payload)| && !IsKnown(SelectedOf(payload)[k])
    ensures Respond(payload, predict, s).Failure? && Respond(payload, predict, s).error.UnsupportedAlgorithm?
    ensures RecordedSamples(payload, predict) != []
  {
    var ps := ProcessesOf(payload);
    var rs := ResolveAll(ps, UsePredictionsOf(payload), predict).value;
    var sample := Sample(rs[i].process, rs[i].features);
    RecordLogMembers(rs, sample);
    var sel := SelectedOf(payload);
    assert sel[k] in Algorithms(sel);
    var algs := Algorithms(sel);
    var j :| 0 <= j < |algs| && algs[j] == sel[k];
  }

  /** The prediction engine: its current model is opaque; `log` is every `record`
      call made on it, in order. */
  class PredictionEngine {
    var predictor: FeatureVector -> Prediction
    ghost var log: seq<Sample>

    constructor (predictor: FeatureVector -> Prediction)
      ensures this.predictor == predictor && log == []
    {
      this.predictor := predictor;
      log := [];
    }

    /** `engine.record(process, features)`. */
    method Record(process: ProcessSpec, features: FeatureVector)
      modifies this`log
      ensures log == old(log) + [Sample(process, features)]
    {
      log := log + [Sample(process, features)];
    }
  }

  /** The handler: answers as `Respond` and records exactly `RecordedSamples`. */
  method Post<R>(engine: PredictionEngine, payload: Payload, s: Schedulers<R>) returns (response: Result<Response<R>, Error>)
    modifies engine`log
    ensures response == Respond(payload, engine.predictor, s)
    ensures engine.log == old(engine.log) + RecordedSamples(payload, engine.predictor)
  {
    var processes := ProcessesOf(payload);
    if |processes| == 0 {
      return Failure(EmptyBatch);
    }
    var usePredictions := UsePredictionsOf(payload);
    var resolution := ResolveAll(processes, usePredictions, engine.predictor);
    if resolution.Failure? {
      return Failure(resolution.error);
    }
    var resolved := resolution.value;

    for i := 0 to |resolved|
      invariant engine.log == old(engine.log) + RecordLog(resolved[..i])
    {
      assert resolved[..i + 1][..i] == resolved[..i];
      if resolved[i].providedBurst.Some? {
        engine.Record(resolved[i].process, resolved[i].features);
      }
    }
    assert resolved[..|resolved|] == resolved;

    assert RecordedSamples(payload, engine.predictor) == RecordLog(resolved);

    var algorithms := Unique(SelectedOf(payload));
    if |algorithms| == 0 {
      algorithms := algorithms + [FCFS, SJF, ROUND_ROBIN, PRIORITY];
    }
    assert algorithms == Algorithms(SelectedOf(payload));
    var quantum := Quantum(QuantumInputOf(payload));
    var specs := Specs(resolved);
    var results := RunAll(algorithms, specs, quantum, s);
    if results.Failure? {
      return Failure(results.error);
    }
    response := Success(Response(results.value, specs));
  }
}
