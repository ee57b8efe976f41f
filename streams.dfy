/** The per-stream side of an element animation: how many independent
    interpolation streams an element has, the delay each stream starts after,
    and the commands the controllers give the interpolation engine. */
module Streams {
  import opened AnimationValues
  import opened Rounding

  /** The number of UTF-16 code units of `text`, which is what
      `text.split("")` splits it into: a character outside the Basic
      Multilingual Plane is a surrogate pair, two units. */
  function Utf16Length(text: string): (n: nat)
    ensures |text| <= n <= 2 * |text|
    ensures n == 0 <==> text == []
  {
    if text == [] then 0
    else Utf16Length(text[..|text| - 1]) + (if text[|text| - 1] as int >= 0x1_0000 then 2 else 1)
  }

  /** Text made only of Basic Multilingual Plane characters has one unit per character. */
  lemma {:induction false} Utf16LengthOfBmpText(text: string)
    requires forall i :: 0 <= i < |text| ==> text[i] as int < 0x1_0000
    ensures Utf16Length(text) == |text|
  {
    if text != [] {
      Utf16LengthOfBmpText(text[..|text| - 1]);
    }
  }

  /** An emoji is one character but two units, so it gets two streams. */
  lemma Utf16LengthOfEmoji()
    ensures Utf16Length("\U{1F600}") == 2
    ensures |"\U{1F600}"| == 1
  {
    assert "\U{1F600}"[..0] == [];
  }

  /** `springCount`: one stream per UTF-16 unit of the text, one per word
      token, or one for the whole element. `wordCount` is the number of
      tokens the tokenizer finds in the element's text. */
  function SpringCount(typeWriting: TypeWriting, text: string, wordCount: nat): (n: nat)
    ensures typeWriting.Character? ==> n == Utf16Length(text)
    ensures typeWriting.Word? ==> n == wordCount
    ensures !typeWriting.Character? && !typeWriting.Word? ==> n == 1
    ensures n == 0 <==> (typeWriting.Character? && text == []) || (typeWriting.Word? && wordCount == 0)
  {
    match typeWriting
    case Character => Utf16Length(text)
    case Word => wordCount
    case _ => 1
  }

  /** `+(speed / springCount).toFixed(1)`, in tenths: the quotient rounded to
      the nearest integer, halves away from zero. `None` stands for the NaN or
      Infinity the source computes when the speed is missing or there are no
      streams. */
  function PerTextSpeed(speed: Option<int>, count: nat): (r: Option<int>)
    ensures r.Some? <==> speed.Some? && count > 0
    ensures r.Some? && speed.value >= 0 ==> -(count as int) < 2 * (r.value * count - speed.value) <= count
    ensures r.Some? && speed.value < 0 ==> -(count as int) <= 2 * (r.value * count - speed.value) < count
    ensures r.Some? && speed.value >= 0 ==> r.value >= 0
  {
    if speed.None? || count == 0 then None
    else if speed.value >= 0 then
      Some(RoundedQuotient(speed.value, count))
    else
      Some(-(RoundedQuotient(-speed.value, count) as int))
  }

  /** The delay of each stream: `base + i * step`; without a step (NaN) every
      delay is NaN as well. */
  function StreamDelays(base: int, step: Option<int>, count: nat): (r: seq<Option<int>>)
    ensures |r| == count
    ensures forall i :: 0 <= i < count ==> (r[i].Some? <==> step.Some?)
  {
    seq(count, i requires 0 <= i < count => if step.Some? then Some(base + i * step.value) else None)
  }

  /** Stream 0 starts at the base delay and each next stream starts one step
      later; with a non-negative step the delays never decrease. */
  lemma StreamDelayOrder(base: int, step: int, count: nat)
    ensures var r := StreamDelays(base, Some(step), count);
      && (count > 0 ==> r[0] == Some(base))
      && (forall i :: 0 < i < count ==> r[i].value == r[i - 1].value + step)
      && (step >= 0 ==> forall i, j :: 0 <= i <= j < count ==> r[i].value <= r[j].value)
  {
    var r := StreamDelays(base, Some(step), count);
    forall i | 0 < i < count
      ensures r[i].value == r[i - 1].value + step
    {
      assert i * step == (i - 1) * step + step;
    }
    if step >= 0 {
      forall i, j | 0 <= i <= j < count
        ensures r[i].value <= r[j].value
      {
        assert j * step - i * step == (j - i) * step;
        assert (j - i) * step >= 0;
      }
    }
  }

  /** The motion configuration handed to the engine: what the opaque
      `getConfigGroupInRaw` / `getConfigGroupOutRaw` receive. */
  datatype MotionConfig = EnterMotion(props: Props) | ExitMotion(props: Props)

  /** What one stream was last told to do: snap to values at once
      (`immediate: true`, no callbacks), or run a motion from its start values
      (`reset: true`) after a delay, reporting `onStart` and `onRest`. */
  datatype SpringCmd =
    | Snap(values: map<string, int>)
    | Move(motion: MotionConfig, delay: Option<int>)

  /** One call on the engine handle (`api` / `textApi`). */
  datatype EngineCall =
    | Stop
    | SetAll(key: string, value: int)
    | Start(cmds: seq<SpringCmd>)
    | Pause
    | Resume

  /** Every one of `count` streams snapped to the element's values with zero offsets. */
  function SnapAll(count: nat, values: map<string, int>): (r: seq<SpringCmd>)
    ensures |r| == count
    ensures forall i :: 0 <= i < count ==> r[i] == Snap(ResetValues(values))
  {
    seq(count, _ => Snap(ResetValues(values)))
  }

  /** The commands a text element's play call gives its streams: stream `i`
      runs the motion built with the per-stream speed, after
      `(delay || 0) + i * perTextSpeed`. */
  function TextCommands(props: Props, count: nat, entering: bool): (r: seq<SpringCmd>)
    ensures |r| == count
    ensures forall i :: 0 <= i < count ==> r[i].Move? && r[i].motion.EnterMotion? == entering
    ensures forall i :: 0 <= i < count ==>
      r[i].delay == StreamDelays(props.delay.GetOr(0), PerTextSpeed(props.speed, count), count)[i]
    ensures forall i :: 0 <= i < count ==>
      r[i].motion.props == props.(speed := PerTextSpeed(props.speed, count))
  {
    var step := PerTextSpeed(props.speed, count);
    var motionProps := props.(speed := step);
    var motion := if entering then EnterMotion(motionProps) else ExitMotion(motionProps);
    var delays := StreamDelays(props.delay.GetOr(0), step, count);
    seq(count, i requires 0 <= i < count => Move(motion, delays[i]))
  }

  /** The command a group element's play call gives its single stream. */
  function GroupCommand(props: Props, entering: bool): (r: SpringCmd)
    ensures r.Move? && r.motion.props == props && r.motion.EnterMotion? == entering
    ensures r.delay == Some(props.delay.GetOr(0))
  {
    Move(if entering then EnterMotion(props) else ExitMotion(props), Some(props.delay.GetOr(0)))
  }
}
