/** The dashboard's input reducers: each takes the current list and returns the
    next one, without changing the old one. */
module SchedulerDashboard {
  import opened Wrappers
  import opened JsNumber
  import opened Seqs
  import opened SchedulerTypes

  /** The top-level process fields the table edits. */
  datatype ProcessField = Name | ArrivalTime | BurstTime | Priority

  datatype FeatureField = IoBound | MemoryFootprint | HistoricalWait | CpuIntensity | DeadlineFlexibility | EstimatedBurst

  /** A top-level field, or a feature edited with `nested = true`. */
  datatype Field = Top(field: ProcessField) | Nested(feature: FeatureField)

  function FeatureOf(f: FeatureVector, field: FeatureField): Num {
    match field
    case IoBound => f.ioBound
    case MemoryFootprint => f.memoryFootprint
    case HistoricalWait => f.historicalWait
    case CpuIntensity => f.cpuIntensity
    case DeadlineFlexibility => f.deadlineFlexibility
    case EstimatedBurst => f.estimatedBurst
  }

  /** `{ ...features, [field]: v }`: the named feature becomes `v`, the others stay. */
  function WithFeature(f: FeatureVector, field: FeatureField, v: Num): (r: FeatureVector)
    ensures FeatureOf(r, field) == v
    ensures forall g :: g != field ==> FeatureOf(r, g) == FeatureOf(f, g)
  {
    match field
    case IoBound => f.(ioBound := v)
    case MemoryFootprint => f.(memoryFootprint := v)
    case HistoricalWait => f.(historicalWait := v)
    case CpuIntensity => f.(cpuIntensity := v)
    case DeadlineFlexibility => f.(deadlineFlexibility := v)
    case EstimatedBurst => f.(estimatedBurst := v)
  }

  predicate IsFraction(field: FeatureField) {
    field == IoBound || field == CpuIntensity || field == DeadlineFlexibility
  }

  /** The least value the dashboard allows for each feature. */
  function Lower(field: FeatureField): real {
    if IsFraction(field) then 0.0
    else if field == MemoryFootprint then 32.0
    else if field == HistoricalWait then 0.0
    else 1.0
  }

  /** The range the dashboard keeps each feature in: the fractions in [0, 1],
      the others from their least value up. */
  predicate InRange(field: FeatureField, n: Num) {
    Le(Real(Lower(field)), n) && (IsFraction(field) ==> Le(n, Real(1.0)))
  }

  /** The clamp applied to an edited feature value. */
  function ClampFeature(field: FeatureField, n: Num): (r: Num)
    ensures !n.NaN? ==> InRange(field, r)
    ensures InRange(field, n) ==> r == n
    ensures n.NaN? ==> r.NaN?
    // below the range: the least value
    ensures !n.NaN? && !Le(Real(Lower(field)), n) ==> r == Real(Lower(field))
    // above a fraction's range: 1
    ensures IsFraction(field) && !n.NaN? && !Le(n, Real(1.0)) ==> r == Real(1.0)
    // the other features have no upper bound
    ensures !IsFraction(field) && Le(Real(Lower(field)), n) ==> r == n
  {
    if IsFraction(field) then Min(Real(1.0), Max(Real(0.0), n))
    else if field == MemoryFootprint then Max(Real(32.0), n)
    else if field == HistoricalWait then Max(Real(0.0), n)
    else Max(Real(1.0), n)
  }

  /** One process after `handleProcessChange(id, field, value)` has matched it.
      `value` is the text of the edited input; `toNumber` is JavaScript's `Number`
      on strings. */
  function UpdateProcess(p: ProcessInput, field: Field, value: string, toNumber: string -> Num): (r: ProcessInput)
    requires field.Nested? ==> p.features.Some?
    ensures r.id == p.id
    // feature edits: NaN is ignored, otherwise only the named feature changes, clamped
    ensures field.Nested? ==>
              r.features.Some? && r == p.(features := r.features)
    ensures field.Nested? && toNumber(value).NaN? ==> r == p
    ensures field.Nested? && !toNumber(value).NaN? ==>
              && FeatureOf(r.features.value, field.feature) == ClampFeature(field.feature, toNumber(value))
              && InRange(field.feature, FeatureOf(r.features.value, field.feature))
              && (InRange(field.feature, toNumber(value)) ==> FeatureOf(r.features.value, field.feature) == toNumber(value))
              && forall g :: g != field.feature ==> FeatureOf(r.features.value, g) == FeatureOf(p.features.value, g)
    // the name is stored as typed
    ensures field == Top(Name) ==> r == p.(name := value)
    // an empty box clears an override
    ensures field == Top(BurstTime) && value == "" ==> r == p.(burstTime := None)
    ensures field == Top(Priority) && value == "" ==> r == p.(priority := None)
    // other numeric edits: NaN is ignored
    ensures field.Top? && field.field != Name && value != "" && toNumber(value).NaN? ==> r == p
    ensures field == Top(ArrivalTime) && toNumber(value).NaN? ==> r == p
    ensures field == Top(ArrivalTime) && !toNumber(value).NaN? ==>
              && r == p.(arrivalTime := r.arrivalTime)
              && Le(Real(0.0), r.arrivalTime)
              && (Le(Real(0.0), toNumber(value)) ==> r.arrivalTime == toNumber(value))
              && (!Le(Real(0.0), toNumber(value)) ==> r.arrivalTime == Real(0.0))
    ensures field == Top(BurstTime) && value != "" && !toNumber(value).NaN? ==>
              && r == p.(burstTime := r.burstTime)
              && r.burstTime.Some? && Le(Real(0.0), r.burstTime.value)
              && (Le(Real(0.0), toNumber(value)) ==> r.burstTime == Some(toNumber(value)))
              && (!Le(Real(0.0), toNumber(value)) ==> r.burstTime == Some(Real(0.0)))
    // priority is rounded and kept in [1, 5]
    ensures field == Top(Priority) && value != "" && !toNumber(value).NaN? ==>
              && r == p.(priority := r.priority)
              && r.priority.Some? && r.priority.value.Real?
              && 1.0 <= r.priority.value.val <= 5.0 && IsIntegral(r.priority.value)
              && r.priority == Some(Min(Real(5.0), Max(Real(1.0), Round(toNumber(value)))))
    // the rounded value when it is in [1, 5], otherwise the nearer end
    ensures field == Top(Priority) && value != "" && toNumber(value).Real? ==>
              var k := RoundReal(toNumber(value).val);
              r.priority == Some(Real(if k < 1 then 1.0 else if k > 5 then 5.0 else k as real))
    ensures field == Top(Priority) && value != "" && toNumber(value).PosInf? ==> r.priority == Some(Real(5.0))
    ensures field == Top(Priority) && value != "" && toNumber(value).NegInf? ==> r.priority == Some(Real(1.0))
  {
    match field
    case Nested(f) =>
      var n := toNumber(value);
      if n.NaN? then p
      else p.(features := Some(WithFeature(p.features.value, f, ClampFeature(f, n))))
    case Top(Name) => p.(name := value)
    case Top(f) =>
      if value == "" && f == BurstTime then p.(burstTime := None)
      else if value == "" && f == Priority then p.(priority := None)
      else
        var n := toNumber(value);
        if n.NaN? then p
        else if f == Priority then p.(priority := Some(Min(Real(5.0), Max(Real(1.0), Round(n)))))
        else if f == BurstTime then p.(burstTime := Some(Max(Real(0.0), n)))
        else p.(arrivalTime := Max(Real(0.0), n))
  }

  /** `handleProcessChange`: the list keeps its length and order; entries with
      another id are returned as they were, and every entry keeps its id. */
  function ChangeProcess(ps: seq<ProcessInput>, id: string, field: Field, value: string, toNumber: string -> Num): (r: seq<ProcessInput>)
    requires field.Nested? ==> forall i :: 0 <= i < |ps| && ps[i].id == id ==> ps[i].features.Some?
    ensures |r| == |ps|
    ensures forall i :: 0 <= i < |ps| && ps[i].id != id ==> r[i] == ps[i]
    ensures forall i :: 0 <= i < |ps| && ps[i].id == id ==> r[i] == UpdateProcess(ps[i], field, value, toNumber)
    ensures forall i :: 0 <= i < |ps| ==> r[i].id == ps[i].id
  {
    seq(|ps|, i requires 0 <= i < |ps| => if ps[i].id == id then UpdateProcess(ps[i], field, value, toNumber) else ps[i])
  }

  /** An edit aimed at an id no process has changes nothing. */
  lemma ChangeAbsentIdIsIdentity(ps: seq<ProcessInput>, id: string, field: Field, value: string, toNumber: string -> Num)
    requires forall i :: 0 <= i < |ps| ==> ps[i].id != id
    ensures ChangeProcess(ps, id, field, value, toNumber) == ps
  {
  }

  // ---------------------------------------------------------------------------
  // removeProcess
  // ---------------------------------------------------------------------------

  function OtherId(id: string): ProcessInput -> bool {
    (p: ProcessInput) => p.id != id
  }

  /** `removeProcess(id)`: the processes whose id differs from `id`. */
  function RemoveProcess(ps: seq<ProcessInput>, id: string): (r: seq<ProcessInput>)
    ensures |r| <= |ps|
    ensures forall p :: p in r <==> p in ps && p.id != id
  {
    Filter(ps, OtherId(id))
  }

  /** Removal keeps the relative order of the remaining processes. */
  lemma RemoveProcessKeepsOrder(a: seq<ProcessInput>, b: seq<ProcessInput>, id: string)
    ensures RemoveProcess(a + b, id) == RemoveProcess(a, id) + RemoveProcess(b, id)
  {
    FilterConcat(a, b, OtherId(id));
  }

  /** Removal drops every copy of an entry with that id and keeps every copy of the others. */
  lemma RemoveProcessMultiplicity(ps: seq<ProcessInput>, id: string, p: ProcessInput)
    ensures multiset(RemoveProcess(ps, id))[p] == if p.id == id then 0 else multiset(ps)[p]
  {
    FilterMultiset(ps, OtherId(id), p);
  }

  /** Removing an id no process has returns the list unchanged. */
  lemma RemoveAbsentIdIsIdentity(ps: seq<ProcessInput>, id: string)
    requires forall i :: 0 <= i < |ps| ==> ps[i].id != id
    ensures RemoveProcess(ps, id) == ps
  {
    FilterAll(ps, OtherId(id));
  }

  // ---------------------------------------------------------------------------
  // toggleAlgorithm
  // ---------------------------------------------------------------------------

  function OtherKey(key: AlgorithmKey): AlgorithmKey -> bool {
    (k: AlgorithmKey) => k != key
  }

  /** `toggleAlgorithm(key)`: drop every occurrence of a selected key, or append an unselected one. */
  function ToggleAlgorithm(selected: seq<AlgorithmKey>, key: AlgorithmKey): (r: seq<AlgorithmKey>)
    ensures key in r <==> key !in selected
    ensures forall k :: k != key ==> (k in r <==> k in selected)
    ensures key !in selected ==> r == selected + [key]
    ensures key in selected ==> r == Filter(selected, OtherKey(key))
  {
    if key in selected then Filter(selected, OtherKey(key)) else selected + [key]
  }

  /** Toggling a selected key off removes all its copies and keeps every other key's count. */
  lemma ToggleOffRemovesEveryCopy(selected: seq<AlgorithmKey>, key: AlgorithmKey)
    requires key in selected
    ensures multiset(ToggleAlgorithm(selected, key)) == multiset(selected)[key := 0]
  {
    forall k
      ensures multiset(ToggleAlgorithm(selected, key))[k] == multiset(selected)[key := 0][k]
    {
      FilterMultiset(selected, OtherKey(key), k);
    }
  }

  /** Toggling an unselected key on and off again restores the selection. */
  lemma ToggleAbsentTwiceRestores(selected: seq<AlgorithmKey>, key: AlgorithmKey)
    requires key !in selected
    ensures ToggleAlgorithm(ToggleAlgorithm(selected, key), key) == selected
  {
    FilterConcat(selected, [key], OtherKey(key));
    FilterAll(selected, OtherKey(key));
  }

  /** Toggling a selected key off and on again drops its copies and puts one at the end,
      so the other keys keep their order. */
  lemma TogglePresentTwiceMovesToEnd(selected: seq<AlgorithmKey>, key: AlgorithmKey)
    requires key in selected
    ensures ToggleAlgorithm(ToggleAlgorithm(selected, key), key) == Filter(selected, OtherKey(key)) + [key]
  {
    assert key !in Filter(selected, OtherKey(key));
  }
}
