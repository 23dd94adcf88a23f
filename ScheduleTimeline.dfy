/** The timeline view of one schedule: the time span it draws and the ticks it
    labels along the axis. */
module ScheduleTimeline {
  import opened JsNumber

  /** The part of a timeline slice the bounds and ticks depend on. */
  datatype Slice = Slice(start: int, end: int)

  /** `start`, `end` and the width divisor `total` of the drawn span. */
  datatype Bounds = Bounds(start: int, end: int, total: int)

  /** The drawn span runs from the first slice's start to the last slice's end
      (0 to 0 for an empty timeline); `total` never drops below 1, so dividing a
      slice's duration by it is always defined. */
  function TimelineBounds(slices: seq<Slice>): (b: Bounds)
    ensures b.total >= 1 && b.total >= b.end - b.start
    ensures b.end - b.start >= 1 ==> b.total == b.end - b.start
    ensures b.end - b.start <= 1 ==> b.total == 1
    ensures slices == [] ==> b == Bounds(0, 0, 1)
    ensures slices != [] ==> b.start == slices[0].start && b.end == slices[|slices| - 1].end
  {
    var start := if |slices| > 0 then slices[0].start else 0;
    var end := if |slices| > 0 then slices[|slices| - 1].end else 0;
    Bounds(start, end, if end - start > 1 then end - start else 1)
  }

  /** Every slice ends where the next one starts. */
  ghost predicate Contiguous(slices: seq<Slice>) {
    forall i :: 0 <= i < |slices| - 1 ==> slices[i].end == slices[i + 1].start
  }

  /** The sum of the slices' durations. */
  function Duration(slices: seq<Slice>): int {
    if slices == [] then 0 else (slices[0].end - slices[0].start) + Duration(slices[1..])
  }

  /** In a contiguous timeline the durations telescope to last end minus first start. */
  lemma {:induction false} ContiguousDurationTelescopes(slices: seq<Slice>)
    requires slices != [] && Contiguous(slices)
    ensures Duration(slices) == slices[|slices| - 1].end - slices[0].start
  {
    if |slices| > 1 {
      ContiguousDurationTelescopes(slices[1..]);
    }
  }

  /** For a contiguous timeline of non-empty slices the width divisor is exactly the
      sum of the durations, so the slices' widths fill the bar. */
  lemma ContiguousSlicesFillTimeline(slices: seq<Slice>)
    requires slices != [] && Contiguous(slices)
    requires forall i :: 0 <= i < |slices| ==> slices[i].start < slices[i].end
    ensures Duration(slices) == TimelineBounds(slices).total
  {
    ContiguousDurationTelescopes(slices);
    NonEmptySlicesDurationAtLeastCount(slices);
  }

  /** Slices that each last at least one unit add up to at least their number, so a
      non-empty timeline has a positive total. */
  lemma {:induction false} NonEmptySlicesDurationAtLeastCount(slices: seq<Slice>)
    requires slices != []
    requires forall i :: 0 <= i < |slices| ==> slices[i].start < slices[i].end
    ensures Duration(slices) >= |slices|
  {
    if |slices| > 1 {
      NonEmptySlicesDurationAtLeastCount(slices[1..]);
    }
  }

  /** `Math.max(1, Math.round(span / maxTicks))`. With `maxTicks` 0 the quotient is
      +Infinity and one step passes `end`; `span + 1` stands for it. Only a positive
      span reaches it: `buildTicks` returns `[start]` before when `end <= start`. */
  function TickStep(span: int, maxTicks: int): (step: int)
    requires span > 0
    ensures step >= 1
    ensures maxTicks == 0 ==> step > span
    ensures maxTicks != 0 ==> step == if RoundReal(span as real / maxTicks as real) > 1 then RoundReal(span as real / maxTicks as real) else 1
  {
    if maxTicks == 0 then span + 1
    else
      var k := RoundReal(span as real / maxTicks as real);
      if k > 1 then k else 1
  }

  /** Euclidean division is determined by the bracket `q * b <= a < (q + 1) * b`. */
  lemma DivisionBracket(a: int, b: int, q: int)
    requires b > 0 && q * b <= a < (q + 1) * b
    ensures a / b == q && a % b == a - q * b
  {
    var q', r' := a / b, a % b;
    assert a == q' * b + r' && 0 <= r' < b;
    assert (q' + 1) * b == q' * b + b && (q + 1) * b == q * b + b;
    if q' < q {
      MulMonotone(q' + 1, q, b);
    } else if q' > q {
      MulMonotone(q + 1, q', b);
    }
  }

  lemma MulMonotone(x: int, y: int, b: int)
    requires x <= y && 0 <= b
    ensures x * b <= y * b
  {
    assert y * b - x * b == (y - x) * b;
  }

  /** What the loop of `buildTicks` leaves: `n` ticks `start + k * step` that stay
      within `end`, the next one past it. Then `n` is `(end - start) / step + 1`,
      and the last tick is `end` exactly when `step` divides the span. */
  lemma LoopTicks(start: int, end: int, step: int, ticks: seq<int>)
    requires end > start && step >= 1 && ticks != []
    requires forall k :: 0 <= k < |ticks| ==> ticks[k] == start + k * step
    requires ticks[|ticks| - 1] <= end < start + |ticks| * step
    ensures |ticks| == (end - start) / step + 1
    ensures (end - start) % step == 0 <==> ticks[|ticks| - 1] == end
  {
    var m := |ticks|;
    assert (m - 1 + 1) * step == m * step;
    DivisionBracket(end - start, step, m - 1);
  }

  /** `buildTicks(start, end, maxTicks)`: ticks from `start` in steps of `step`
      while they do not pass `end`, then `end` itself when no tick hit it. */
  method BuildTicks(start: int, end: int, maxTicks: int) returns (ticks: seq<int>)
    ensures end <= start ==> ticks == [start]
    ensures end > start ==>
              var step := TickStep(end - start, maxTicks);
              var n := (end - start) / step + 1;
              && |ticks| == n + (if (end - start) % step == 0 then 0 else 1)
              && (forall k :: 0 <= k < n ==> ticks[k] == start + k * step)
              && ticks[|ticks| - 1] == end
    ensures |ticks| > 0 && ticks[0] == start
    ensures forall i, j :: 0 <= i < j < |ticks| ==> ticks[i] < ticks[j]
    ensures end > start ==>
              && (forall i :: 0 <= i < |ticks| ==> start <= ticks[i] <= end)
              && (forall i :: 0 <= i < |ticks| - 1 ==> ticks[i] < end)
  {
    if end <= start {
      return [start];
    }
    var step := TickStep(end - start, maxTicks);
    ticks := [];
    var value := start;
    while value <= end
      invariant value == start + |ticks| * step
      invariant forall k :: 0 <= k < |ticks| ==> ticks[k] == start + k * step
      invariant forall k :: 0 <= k < |ticks| ==> start <= ticks[k] < value && ticks[k] <= end
      invariant forall i, j :: 0 <= i < j < |ticks| ==> ticks[i] < ticks[j]
      invariant ticks == [] <==> value == start
      invariant ticks != [] ==> ticks[|ticks| - 1] == value - step
      decreases end - value
    {
      assert start + (|ticks| + 1) * step == value + step;
      ticks := ticks + [value];
      value := value + step;
    }
    LoopTicks(start, end, step, ticks);
    ghost var loopTicks := ticks;
    if end !in ticks {
      ticks := ticks + [end];
    }
    assert ticks[..|loopTicks|] == loopTicks;
  }
}
