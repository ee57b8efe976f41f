/** The page sequencer's shared state as an element controller sees it, and
    the decision table every controller evaluates when that state changes:
    reset, debounced preview and page play, each with its gate. Both
    controller variants react to the store in exactly the same way; they
    differ only in what playing in and out does to their streams. */
module Reactions {
  import opened AnimationValues

  /** `ANIMATION_MODE` of a preview request. */
  datatype PreviewMode = PagePreview | ElementPreview | OtherPreview(name: string)

  /** `tempAnimation`. `serial` stands for the object's identity: the preview
      effect runs again whenever a new request object is published, even one
      with equal contents. */
  datatype PreviewRequest = PreviewRequest(serial: nat, mode: PreviewMode, property: Props)

  /** The fields of the animation store that the controllers read. */
  datatype Store = Store(
    playAnimationPage: bool,
    typeAnimating: Direction,
    forcedResetAnimation: bool,
    forcedResetAnimationAll: bool,
    tempAnimation: PreviewRequest,
    modePreview: bool,
    elementFocus: Option<string>,   // id of `elementAnimationFocus`, if any
    activePage: Option<string>)     // id of `pageAnimationActive`, if any

  /** Extra stagger per element index in a whole-page preview: 200 units, in tenths. */
  const PreviewStagger: int := 2000

  /** The reset effect's condition. */
  predicate ShouldReset(s: Store, pageId: string) {
    ((s.forcedResetAnimation || !s.playAnimationPage) && s.activePage == Some(pageId))
    || s.forcedResetAnimationAll
  }

  /** The preview effect's condition (it returns at once for an element inside a group box). */
  predicate PreviewArms(s: Store, pageId: string, insideGroupBox: bool) {
    && !insideGroupBox
    && s.modePreview
    && !s.playAnimationPage
    && s.activePage == Some(pageId)
    && s.tempAnimation.property.animationId.Named?
  }

  /** The page-play effect's condition, before the element's own gate. */
  predicate PagePlayDue(s: Store, pageId: string) {
    s.activePage == Some(pageId) && s.playAnimationPage && s.typeAnimating != Default
  }

  /** What `handlePlayAnimationPage` does with the element's configuration. */
  datatype PageAction = NoAction | PlayIn | PlayOut

  /** `handlePlayAnimationPage`: the element's own id must match and its
      animation id must not be `NONE` (a missing id passes); IN needs the
      animate setting in ENTER_BOTH, OUT needs it in EXIT_BOTH. */
  function PageActionFor(config: Props, elementId: string, dir: Direction): (a: PageAction)
    ensures a == PlayIn <==>
      && dir == In && config.id == Some(elementId) && config.animationId != NoAnimation
      && config.animate.Some? && config.animate.value in EnterBoth
    ensures a == PlayOut <==>
      && dir == Out && config.id == Some(elementId) && config.animationId != NoAnimation
      && config.animate.Some? && config.animate.value in ExitBoth
  {
    if config.id == Some(elementId) && config.animationId != NoAnimation then
      if dir == In && config.animate.Some? && config.animate.value in EnterBoth then PlayIn
      else if dir == Out && config.animate.Some? && config.animate.value in ExitBoth then PlayOut
      else NoAction
    else NoAction
  }

  /** `listenWaitingToPlay`: the initial value of the `waitingToPlay` latch. */
  predicate ListenWaitingToPlay(mode: CanvasMode, config: Props) {
    && mode == Exporter
    && config.animationId != NoAnimation
    && config.animate.Some? && config.animate.value in EnterBoth
  }

  /** An element starts out waiting only if an IN page play for it would play it in. */
  lemma WaitingOnlyForEnteringElements(mode: CanvasMode, config: Props, elementId: string)
    requires ListenWaitingToPlay(mode, config) && config.id == Some(elementId)
    ensures mode == Exporter
    ensures PageActionFor(config, elementId, In) == PlayIn
    ensures PageActionFor(config, elementId, Out) != PlayIn
  {
  }

  /** The props a whole-page preview plays the element in with:
      `{...elementAnimation, ...property, delay: elementIndex * 200}`. */
  function PagePreviewProps(config: Props, property: Props, elementIndex: nat): (r: Props)
    ensures r.delay == Some(elementIndex * PreviewStagger)
    ensures r.speed == (if property.speed.Some? then property.speed else config.speed)
    ensures r.animationId == (if property.animationId.Absent? then config.animationId else property.animationId)
    ensures r.animate == (if property.animate.Some? then property.animate else config.animate)
    ensures r.id == (if property.id.Some? then property.id else config.id)
  {
    Merge(config, property).(delay := Some(elementIndex * PreviewStagger))
  }

  /** A pending preview timer: the request and the focused element it captured. */
  datatype PreviewJob = PreviewJob(request: PreviewRequest, focus: Option<string>)

  /** What the preview timer does when it fires: the props to play the
      element in with, if any. A page preview plays every element, staggered
      by its index; an element preview plays only the focused element, with
      delay 0 and without the element's own configuration underneath. */
  function PreviewPlay(job: PreviewJob, config: Props, elementId: string, elementIndex: nat): (r: Option<Props>)
    ensures job.request.mode == PagePreview ==>
      r == Some(PagePreviewProps(config, job.request.property, elementIndex))
    ensures job.request.mode == ElementPreview ==>
      (r.Some? <==> job.focus == Some(elementId))
    ensures job.request.mode == ElementPreview && r.Some? ==>
      r.value == job.request.property.(delay := Some(0))
    ensures job.request.mode.OtherPreview? ==> r == None
  {
    match job.request.mode
    case PagePreview => Some(PagePreviewProps(config, job.request.property, elementIndex))
    case ElementPreview =>
      if job.focus == Some(elementId) then Some(job.request.property.(delay := Some(0))) else None
    case OtherPreview(_) => None
  }

  /** Dependencies of the reset effect changed (everything has changed on mount). */
  predicate ResetDepsChanged(prev: Option<Store>, next: Store) {
    prev.None? ||
    prev.value.playAnimationPage != next.playAnimationPage ||
    prev.value.forcedResetAnimation != next.forcedResetAnimation ||
    prev.value.forcedResetAnimationAll != next.forcedResetAnimationAll ||
    prev.value.activePage != next.activePage
  }

  /** Dependencies of the preview effect changed. */
  predicate PreviewDepsChanged(prev: Option<Store>, next: Store) {
    prev.None? ||
    prev.value.tempAnimation != next.tempAnimation ||
    prev.value.modePreview != next.modePreview
  }

  /** Dependencies of the page-play effect changed. */
  predicate PlayDepsChanged(prev: Option<Store>, next: Store) {
    prev.None? ||
    prev.value.playAnimationPage != next.playAnimationPage ||
    prev.value.typeAnimating != next.typeAnimating
  }

  /** Publishing a new request object re-runs the preview effect (its old
      cleanup included) even when its contents equal the previous request's:
      the dependency is compared by identity, which `serial` stands for. */
  lemma FreshRequestRerunsPreview(prev: Store, next: Store, cleanupRegistered: bool,
                                  pageId: string, elementId: string, insideGroupBox: bool, config: Props)
    requires next == prev.(tempAnimation := prev.tempAnimation.(serial := prev.tempAnimation.serial + 1))
    ensures var p := PlanFor(Some(prev), next, cleanupRegistered, pageId, elementId, insideGroupBox, config);
      p.rerunPreview && (p.cleanup <==> cleanupRegistered)
      && (p.arm <==> PreviewArms(next, pageId, insideGroupBox))
  {
  }

  /** What one store update makes a controller do, in the order React runs
      it: the preview effect's cleanup (cleanups run before any effect body),
      then the reset effect, the preview effect (which may arm the timer) and
      the page-play effect, each only when one of its dependencies changed. */
  datatype Plan = Plan(cleanup: bool, reset: bool, rerunPreview: bool, arm: bool, play: PageAction)

  function PlanFor(prev: Option<Store>, next: Store, cleanupRegistered: bool,
                   pageId: string, elementId: string, insideGroupBox: bool, config: Props): (p: Plan)
    // the reset effect: reset-all resets every element, reset-current or a stopped page only this page
    ensures p.reset <==>
      && ResetDepsChanged(prev, next)
      && (next.forcedResetAnimationAll ||
          ((next.forcedResetAnimation || !next.playAnimationPage) && next.activePage == Some(pageId)))
    // the preview effect: its old cleanup runs and it re-evaluates whenever its dependencies change
    ensures p.cleanup <==> cleanupRegistered && PreviewDepsChanged(prev, next)
    ensures p.rerunPreview <==> PreviewDepsChanged(prev, next)
    ensures p.arm <==>
      && PreviewDepsChanged(prev, next)
      && !insideGroupBox && next.modePreview && !next.playAnimationPage
      && next.activePage == Some(pageId) && next.tempAnimation.property.animationId.Named?
    // the page-play effect: page, playing, a concrete direction, then the element's own gate
    ensures p.play != NoAction ==>
      && PlayDepsChanged(prev, next) && next.activePage == Some(pageId) && next.playAnimationPage
      && config.id == Some(elementId) && config.animationId != NoAnimation
    ensures p.play == PlayIn ==> next.typeAnimating == In && config.animate.Some? && config.animate.value in EnterBoth
    ensures p.play == PlayOut ==> next.typeAnimating == Out && config.animate.Some? && config.animate.value in ExitBoth
    ensures PlayDepsChanged(prev, next) && PagePlayDue(next, pageId) ==>
      p.play == PageActionFor(config, elementId, next.typeAnimating)
    // a preview and a page play never start in the same update
    ensures !(p.arm && p.play != NoAction)
  {
    Plan(
      cleanupRegistered && PreviewDepsChanged(prev, next),
      ResetDepsChanged(prev, next) && ShouldReset(next, pageId),
      PreviewDepsChanged(prev, next),
      PreviewDepsChanged(prev, next) && PreviewArms(next, pageId, insideGroupBox),
      if PlayDepsChanged(prev, next) && PagePlayDue(next, pageId)
      then PageActionFor(config, elementId, next.typeAnimating)
      else NoAction)
  }

  /** Reset does not beat play: an update that turns page playback on for this
      page together with reset-all both resets the element and then plays it
      in, in that order, so the play is what remains. */
  lemma ResetThenPlayInOneUpdate(prev: Store, next: Store, cleanupRegistered: bool,
                                 pageId: string, elementId: string, insideGroupBox: bool, config: Props)
    requires !prev.playAnimationPage && next.playAnimationPage && next.forcedResetAnimationAll
    requires next.activePage == Some(pageId) && next.typeAnimating == In
    requires config.id == Some(elementId) && config.animationId.Named?
    requires config.animate == Some(Both)
    ensures var p := PlanFor(Some(prev), next, cleanupRegistered, pageId, elementId, insideGroupBox, config);
      p.reset && p.play == PlayIn
  {
  }

  /** The status a controller exposes: `preparing` and `finished` are masked
      while the element is animating. */
  datatype Status = Status(animating: bool, preparing: bool, finished: bool, waitingToPlay: bool)

  function Project(animating: bool, preparing: bool, finished: bool, waitingToPlay: bool): (r: Status)
    ensures r.animating == animating && r.waitingToPlay == waitingToPlay
    ensures r.preparing <==> preparing && !animating
    ensures r.finished <==> finished && !animating
    ensures r.animating ==> !r.preparing && !r.finished
  {
    Status(animating, preparing && !animating, finished && !animating, waitingToPlay)
  }
}
