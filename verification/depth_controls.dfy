/** `SimpleSlider` of components/DepthControls.tsx: a value stepped by `-`
    and `+` buttons within [min, max], drawn as a fill percentage. */
module DepthControls {
  import opened MathUtils

  /** An optional prop; an omitted one takes its default. */
  datatype Prop = Omitted | Given(v: real)

  datatype Bounds = Bounds(min: real, max: real, step: real)

  function PropOr(p: Prop, fallback: real): real
  {
    match p
    case Omitted => fallback
    case Given(v) => v
  }

  /** `min = -100, max = 100, step = 5` in the parameter list: props left out
      fall back to those defaults; given ones are kept, zero included. */
  function ResolveBounds(min: Prop, max: Prop, step: Prop): (b: Bounds)
    ensures b.min == (if min.Given? then min.v else -100.0)
    ensures b.max == (if max.Given? then max.v else 100.0)
    ensures b.step == (if step.Given? then step.v else 5.0)
  {
    Bounds(PropOr(min, -100.0), PropOr(max, 100.0), PropOr(step, 5.0))
  }

  /** The `-` button: `Math.max(min, value - step)`. */
  function StepDown(value: real, b: Bounds): (r: real)
    ensures r >= b.min
    ensures r == b.min || r == value - b.step
  {
    Max(b.min, value - b.step)
  }

  /** The `+` button: `Math.min(max, value + step)`. */
  function StepUp(value: real, b: Bounds): (r: real)
    ensures r <= b.max
    ensures r == b.max || r == value + b.step
  {
    Min(b.max, value + b.step)
  }

  /** From an in-range value, either button stays in range. */
  lemma StepsStayInRange(value: real, b: Bounds)
    requires b.min <= value <= b.max && b.step >= 0.0
    ensures b.min <= StepDown(value, b) <= b.max
    ensures b.min <= StepUp(value, b) <= b.max
  {
  }

  /** `+` then `-` returns to the start when neither step was clamped, and
      so does `-` then `+`. */
  lemma StepRoundTrip(value: real, b: Bounds)
    ensures b.min <= value && value + b.step <= b.max ==> StepDown(StepUp(value, b), b) == value
    ensures value - b.step >= b.min && value <= b.max ==> StepUp(StepDown(value, b), b) == value
  {
  }

  /** The track fill: `(value - min) / (max - min) * 100` percent; its sign
      is the sign of `value - min`. */
  function FillPercent(value: real, b: Bounds): (r: real)
    requires b.min < b.max
    ensures value == b.min ==> r == 0.0
    ensures b.min < value ==> 0.0 < r
    ensures value < b.min ==> r < 0.0
  {
    (value - b.min) / (b.max - b.min) * 100.0
  }

  /** The fill is 0 at `min`, 100 at `max`, within [0, 100] in between, and
      grows with the value. */
  lemma {:induction false} FillPercentBounds(value: real, other: real, b: Bounds)
    requires b.min < b.max
    ensures FillPercent(b.min, b) == 0.0
    ensures FillPercent(b.max, b) == 100.0
    ensures b.min <= value <= b.max ==> 0.0 <= FillPercent(value, b) <= 100.0
    ensures value <= other ==> FillPercent(value, b) <= FillPercent(other, b)
  {
    var w := b.max - b.min;
    assert (b.max - b.min) / w == 1.0;
    if b.min <= value <= b.max {
      assert (value - b.min) / w <= w / w;
    }
    if value <= other {
      assert (value - b.min) / w <= (other - b.min) / w;
    }
  }
}
