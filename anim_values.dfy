/** Values shared by the two element animation controllers: the element's
    animation configuration, read as a JavaScript property bag, and the
    enumerations it is built from. Times and speeds are integers counted in
    tenths of the source's unit, so that rounding to one decimal place is
    integer rounding. */
module AnimationValues {

  datatype Option<T> = None | Some(value: T) {
    function GetOr(default: T): T {
      if Some? then value else default
    }
  }

  /** An animation id: a missing or falsy one, the `NONE` id, or a concrete animation. */
  datatype AnimationId = Absent | NoAnimation | Named(name: string)

  /** The element's `animate` setting. */
  datatype Animate = Enter | Exit | Both | OtherAnimate(name: string)

  /** `ANIMATION_ANIMATE.ENTER_BOTH` and `ANIMATION_ANIMATE.EXIT_BOTH`. */
  const EnterBoth: set<Animate> := {Enter, Both}
  const ExitBoth: set<Animate> := {Exit, Both}

  /** `TYPE_ANIMATING`: the direction the page sequencer is driving. */
  datatype Direction = Default | In | Out

  /** `TYPE_WRITING`: how a text element is split into streams. */
  datatype TypeWriting = Character | Word | WholeElement | OtherWriting(name: string)

  /** `CANVAS_MODE`. */
  datatype CanvasMode = Exporter | OtherCanvas(name: string)

  /** An animation property bag (`elementAnimation`, a preview request's
      `property`): every key may be missing. `speed` and `delay` are in tenths. */
  datatype Props = Props(
    id: Option<string>,
    animationId: AnimationId,
    animate: Option<Animate>,
    speed: Option<int>,
    delay: Option<int>)

  /** `{...base, ...top}`: every key present in `top` wins, every key missing
      from `top` keeps its value in `base`. */
  function Merge(base: Props, top: Props): (r: Props)
    ensures top.id.Some? ==> r.id == top.id
    ensures top.id.None? ==> r.id == base.id
    ensures !top.animationId.Absent? ==> r.animationId == top.animationId
    ensures top.animationId.Absent? ==> r.animationId == base.animationId
    ensures top.animate.Some? ==> r.animate == top.animate
    ensures top.animate.None? ==> r.animate == base.animate
    ensures top.speed.Some? ==> r.speed == top.speed
    ensures top.speed.None? ==> r.speed == base.speed
    ensures top.delay.Some? ==> r.delay == top.delay
    ensures top.delay.None? ==> r.delay == base.delay
  {
    Props(
      if top.id.Some? then top.id else base.id,
      if top.animationId.Absent? then base.animationId else top.animationId,
      if top.animate.Some? then top.animate else base.animate,
      if top.speed.Some? then top.speed else base.speed,
      if top.delay.Some? then top.delay else base.delay)
  }

  /** The snapshot a reset applies to every stream: the element's values with
      both offsets forced to 0. */
  function ResetValues(values: map<string, int>): (r: map<string, int>)
    ensures r.Keys == values.Keys + {"offsetX", "offsetY"}
    ensures r["offsetX"] == 0 && r["offsetY"] == 0
    ensures forall k :: k in values && k != "offsetX" && k != "offsetY" ==> r[k] == values[k]
  {
    values["offsetX" := 0]["offsetY" := 0]
  }
}
