/** The single-stream element animation controller (`useGroupAnimation`):
    the same reactions to the store as the text controller, with one
    interpolation stream for the whole element. Its exit path decides on
    rest with the `animating` value the play call's closure captured. */
module GroupAnimation {
  import opened AnimationValues
  import opened Streams
  import opened Reactions

  /** The run started by the latest play call, and whether its promise has
      been resolved. An exit run keeps the `animating` value its closure
      captured when the call was made. `NoRun` once a reset has replaced it. */
  datatype GroupRun =
    | NoRun
    | InRun(resolved: bool)
    | OutRun(capturedAnimating: bool, resolved: bool)

  class GroupController {
    const elementId: string
    const elementIndex: nat
    const defaults: map<string, int>        // `defaultProps` of the element
    const insideGroupBox: bool
    const config: Props                     // the element's animation configuration
    const pageId: string

    var animating: bool
    var preparing: bool
    var finished: bool
    var paused: bool                  // written by pause/resume, never read
    var playing: bool                 // `playingRef`
    var waitingToPlay: bool
    var pending: Option<PreviewJob>   // the armed preview timer
    var previewCleanup: bool          // the preview effect's last run left a cleanup
    var store: Option<Store>          // the store the last committed effects saw
    var run: GroupRun
    var spring: SpringCmd             // what the stream was last told
    var engine: seq<EngineCall>       // every call made on the engine handle

    /** A timer is armed only with its cleanup registered; no status flag is
        up unless the controller is playing. */
    ghost predicate Valid()
      reads this`pending, this`previewCleanup, this`animating, this`preparing, this`finished, this`playing
    {
      && (pending.Some? ==> previewCleanup)
      && (animating || preparing || finished ==> playing)
    }

    /** `playAnimationPage` as of the latest commit. */
    function PagePlaying(): bool
      reads this`store
    {
      store.Some? && store.value.playAnimationPage
    }

    /** The exposed status. */
    function Status(): Status
      reads this
    {
      Project(animating, preparing, finished, waitingToPlay)
    }

    /** The engine calls of `resetAnimation(props)`: stop, then snap the
        stream to the defaults overridden by `props`, with zero offsets. */
    function ResetCalls(props: map<string, int>): seq<EngineCall>
    {
      [Stop, Start([Snap(ResetValues(defaults + props))])]
    }

    /** Mounting: the stream rests at the defaults, and the waiting latch
        starts from `listenWaitingToPlay`. */
    constructor (elementId: string, elementIndex: nat, defaults: map<string, int>, insideGroupBox: bool,
                 config: Props, pageId: string, canvasMode: CanvasMode)
      ensures Valid()
      ensures this.elementId == elementId && this.elementIndex == elementIndex
      ensures this.defaults == defaults && this.insideGroupBox == insideGroupBox
      ensures this.config == config && this.pageId == pageId
      ensures !animating && !preparing && !finished && !paused && !playing
      ensures waitingToPlay == ListenWaitingToPlay(canvasMode, config)
      ensures pending == None && !previewCleanup && store == None && run == NoRun
      ensures spring == Snap(defaults) && engine == []
    {
      this.elementId := elementId;
      this.elementIndex := elementIndex;
      this.defaults := defaults;
      this.insideGroupBox := insideGroupBox;
      this.config := config;
      this.pageId := pageId;
      animating, preparing, finished, paused, playing := false, false, false, false, false;
      waitingToPlay := ListenWaitingToPlay(canvasMode, config);
      pending, previewCleanup, store, run := None, false, None, NoRun;
      spring := Snap(defaults);
      engine := [];
    }

    /** `resetAnimation(props)`, also exposed as the controller's `reset`:
        stop the stream, then snap it at once to the defaults with `props`
        on top, except that both offsets are always 0. */
    method ResetAnimation(props: map<string, int>)
      modifies this`spring, this`engine, this`run
      ensures spring.Snap?
      ensures spring.values.Keys == defaults.Keys + props.Keys + {"offsetX", "offsetY"}
      ensures spring.values["offsetX"] == 0 && spring.values["offsetY"] == 0
      ensures forall k :: k in props && k != "offsetX" && k != "offsetY" ==> spring.values[k] == props[k]
      ensures forall k :: k in defaults && k !in props && k != "offsetX" && k != "offsetY" ==>
                spring.values[k] == defaults[k]
      ensures engine == old(engine) + [Stop, Start([spring])]
      ensures run == NoRun
    {
      engine := engine + [Stop];
      spring := Snap(ResetValues(defaults + props));
      engine := engine + [Start([spring])];
      run := NoRun;
    }

    /** `resetAnimating`: clear every status flag and playing, and reset the
        stream to the defaults. Its outcome does not depend on the state it
        starts from. */
    method ResetAnimating()
      requires Valid()
      modifies this`animating, this`preparing, this`finished, this`playing
      modifies this`spring, this`engine, this`run
      ensures Valid()
      ensures !animating && !preparing && !finished && !playing
      ensures spring == Snap(ResetValues(defaults))
      ensures engine == old(engine) + ResetCalls(map[])
      ensures run == NoRun
    {
      animating, preparing, finished := false, false, false;
      ResetAnimation(map[]);
      assert defaults + map[] == defaults;
      playing := false;
    }

    /** `playAnimationIn`: playing and preparing go up and the stream starts
        the enter motion after `delay || 0`. */
    method PlayAnimationIn(props: Props)
      requires Valid()
      modifies this`playing, this`preparing, this`engine, this`spring, this`run
      ensures Valid()
      ensures playing && preparing
      ensures spring == GroupCommand(props, true)
      ensures engine == old(engine) + [Start([spring])]
      ensures run == InRun(false)
    {
      playing := true;
      preparing := true;
      spring := GroupCommand(props, true);
      engine := engine + [Start([spring])];
      run := InRun(false);
    }

    /** `playAnimationOut`: playing goes up and the stream starts the exit
        motion; the run keeps the caller's render-time `animating`. */
    method PlayAnimationOut(props: Props, capturedAnimating: bool)
      requires Valid()
      modifies this`playing, this`engine, this`spring, this`run
      ensures Valid()
      ensures playing
      ensures spring == GroupCommand(props, false)
      ensures engine == old(engine) + [Start([spring])]
      ensures run == OutRun(capturedAnimating, false)
    {
      playing := true;
      spring := GroupCommand(props, false);
      engine := engine + [Start([spring])];
      run := OutRun(capturedAnimating, false);
    }

    /** The engine reports that the current run started: while playing,
        animating goes on (and, when entering, preparing off). */
    method OnStart()
      requires Valid()
      modifies this`preparing, this`animating, this`waitingToPlay
      ensures Valid()
      ensures animating == (old(animating) || (!run.NoRun? && playing))
      ensures preparing == (old(preparing) && !(run.InRun? && playing))
      ensures waitingToPlay == (old(waitingToPlay) && !(PagePlaying() && animating))
    {
      if !run.NoRun? && playing {
        if run.InRun? {
          preparing := false;
        }
        animating := true;
      }
      if PagePlaying() && waitingToPlay && animating {
        waitingToPlay := false;
      }
    }

    /** The engine reports that the current run came to rest; its promise is
        resolved. Entering, while playing, clears preparing and animating.
        Exiting, only if the captured `animating` was true and still
        playing, clears animating and sets finished: an exit started while
        the element was not animating never finishes. */
    method OnRest()
      requires Valid()
      modifies this`run, this`preparing, this`animating, this`finished, this`waitingToPlay
      ensures Valid()
      ensures run == (match old(run)
                      case NoRun => NoRun
                      case InRun(_) => InRun(true)
                      case OutRun(c, _) => OutRun(c, true))
      ensures var entered := old(run).InRun? && playing;
        var exited := old(run).OutRun? && old(run).capturedAnimating && playing;
        && animating == (old(animating) && !entered && !exited)
        && preparing == (old(preparing) && !entered)
        && finished == (old(finished) || exited)
      ensures waitingToPlay == (old(waitingToPlay) && !(PagePlaying() && animating))
    {
      match run {
        case NoRun =>
        case InRun(_) =>
          run := InRun(true);
          if playing {
            preparing := false;
            animating := false;
          }
        case OutRun(c, _) =>
          run := OutRun(c, true);
          if c && playing {
            animating := false;
            finished := true;
          }
      }
      if PagePlaying() && waitingToPlay && animating {
        waitingToPlay := false;
      }
    }

    /** `pause`: forwarded to the stream. */
    method PauseAnimation()
      modifies this`paused, this`engine
      ensures paused && engine == old(engine) + [Pause]
    {
      paused := true;
      engine := engine + [Pause];
    }

    /** `resume`: forwarded to the stream. */
    method ResumeAnimation()
      modifies this`paused, this`engine
      ensures !paused && engine == old(engine) + [Resume]
    {
      paused := false;
      engine := engine + [Resume];
    }

    /** `handlePlayAnimationPage`: play the element's own configuration in or
        out as `PageActionFor` decides; otherwise nothing changes. */
    method HandlePlayAnimationPage(dir: Direction, renderAnimating: bool)
      requires Valid()
      modifies this`playing, this`preparing, this`engine, this`spring, this`run
      ensures Valid()
      ensures var a := PageActionFor(config, elementId, dir);
        && (a == NoAction ==>
              playing == old(playing) && preparing == old(preparing) && engine == old(engine)
              && spring == old(spring) && run == old(run))
        && (a == PlayIn ==>
              playing && preparing && run == InRun(false) && spring == GroupCommand(config, true)
              && engine == old(engine) + [Start([spring])])
        && (a == PlayOut ==>
              playing && preparing == old(preparing) && run == OutRun(renderAnimating, false)
              && spring == GroupCommand(config, false) && engine == old(engine) + [Start([spring])])
    {
      var a := PageActionFor(config, elementId, dir);
      if a == PlayIn {
        PlayAnimationIn(config);
      } else if a == PlayOut {
        PlayAnimationOut(config, renderAnimating);
      }
    }

    /** The armed preview timer fires: it plays the element in with the
        props `PreviewPlay` gives, if any, and disarms itself; the effect's
        cleanup stays registered. */
    method PreviewTimerFires()
      requires Valid() && pending.Some?
      modifies this`pending, this`playing, this`preparing, this`engine, this`spring, this`run
      ensures Valid()
      ensures pending == None
      ensures var r := PreviewPlay(old(pending).value, config, elementId, elementIndex);
        && (r.None? ==>
              playing == old(playing) && preparing == old(preparing) && engine == old(engine)
              && spring == old(spring) && run == old(run))
        && (r.Some? ==>
              playing && preparing && run == InRun(false) && spring == GroupCommand(r.value, true)
              && engine == old(engine) + [Start([spring])])
    {
      var r := PreviewPlay(pending.value, config, elementId, elementIndex);
      if r.Some? {
        PlayAnimationIn(r.value);
      }
      pending := None;
    }

    /** The first part of an update: the preview effect's cleanup (disarm
        the timer, reset), the reset effect, then the preview effect, each
        when the plan says so. */
    method RunResetAndPreview(cleanup: bool, reset: bool, rerun: bool, arm: bool, job: PreviewJob)
      requires Valid()
      requires cleanup ==> previewCleanup
      requires rerun ==> (cleanup || !previewCleanup)
      requires arm ==> rerun
      modifies this`pending, this`previewCleanup, this`animating, this`preparing, this`finished
      modifies this`playing, this`spring, this`engine, this`run
      ensures Valid()
      ensures var cleared := cleanup || reset;
        && animating == (old(animating) && !cleared)
        && finished == (old(finished) && !cleared)
        && preparing == (old(preparing) && !cleared)
        && playing == (old(playing) && !cleared)
        && run == (if cleared then NoRun else old(run))
        && spring == (if cleared then Snap(ResetValues(defaults)) else old(spring))
        && engine == old(engine) + (if cleanup then ResetCalls(map[]) else []) + (if reset then ResetCalls(map[]) else [])
        && pending == (if arm then Some(job) else if cleanup then None else old(pending))
        && previewCleanup == (if rerun then arm else (old(previewCleanup) && !cleanup))
    {
      if cleanup {
        pending := None;
        ResetAnimating();
        previewCleanup := false;
      }
      if reset {
        ResetAnimating();
      }
      ArmPreview(rerun, arm, job);
    }

    /** The preview effect's body when it runs again: it arms the timer
        with `job` (debouncing: the timer it replaces was disarmed by the
        cleanup) and registers its cleanup, or leaves none. */
    method ArmPreview(rerun: bool, arm: bool, job: PreviewJob)
      requires Valid()
      requires rerun ==> !previewCleanup
      requires arm ==> rerun
      modifies this`pending, this`previewCleanup
      ensures Valid()
      ensures pending == (if arm then Some(job) else old(pending))
      ensures previewCleanup == (if rerun then arm else old(previewCleanup))
    {
      if rerun {
        if arm {
          pending := Some(job);
          previewCleanup := true;
        } else {
          previewCleanup := false;
        }
      }
    }

    /** The second part of an update: `handlePlayAnimationPage` once its
        gate has been decided (an exit captures the render-time
        `animating`), then the store is committed and the waiting latch sees
        the render-time `animating`. */
    method RunPagePlay(action: PageAction, next: Store, renderAnimating: bool)
      requires Valid()
      modifies this`playing, this`preparing, this`engine, this`spring, this`run, this`store, this`waitingToPlay
      ensures Valid()
      ensures store == Some(next)
      ensures waitingToPlay == (old(waitingToPlay) && !(next.playAnimationPage && renderAnimating))
      ensures preparing == (action == PlayIn || old(preparing))
      ensures playing == (action != NoAction || old(playing))
      ensures run == (if action == PlayIn then InRun(false)
                      else if action == PlayOut then OutRun(renderAnimating, false)
                      else old(run))
      ensures spring == (if action == PlayIn then GroupCommand(config, true)
                         else if action == PlayOut then GroupCommand(config, false)
                         else old(spring))
      ensures engine == old(engine) + (if action == NoAction then [] else [Start([spring])])
    {
      if action == PlayIn {
        PlayAnimationIn(config);
      } else if action == PlayOut {
        PlayAnimationOut(config, renderAnimating);
      }
      store := Some(next);
      if next.playAnimationPage && waitingToPlay && renderAnimating {
        waitingToPlay := false;
      }
    }

    /** A store update is committed: the effects run as `PlanFor` decides, in
        React's order, and the waiting latch is cleared once page playback
        is on while the element was animating at render time. An exit played
        by this update captures that same render-time `animating`, so an
        element that was at rest when the exit began is never marked finished. */
    method Update(next: Store)
      requires Valid()
      modifies this`pending, this`previewCleanup, this`animating, this`preparing, this`finished
      modifies this`playing, this`spring, this`engine, this`run, this`store, this`waitingToPlay
      ensures Valid()
      ensures var p := PlanFor(old(store), next, old(previewCleanup), pageId, elementId, insideGroupBox, config);
        var cleared := p.cleanup || p.reset;
        && animating == (old(animating) && !cleared)
        && finished == (old(finished) && !cleared)
        && preparing == (p.play == PlayIn || (old(preparing) && !cleared))
        && playing == (p.play != NoAction || (old(playing) && !cleared))
        && run == (if p.play == PlayIn then InRun(false)
                   else if p.play == PlayOut then OutRun(old(animating), false)
                   else if cleared then NoRun else old(run))
        && spring == (if p.play == PlayIn then GroupCommand(config, true)
                      else if p.play == PlayOut then GroupCommand(config, false)
                      else if cleared then Snap(ResetValues(defaults)) else old(spring))
        && engine == old(engine)
                     + (if p.cleanup then ResetCalls(map[]) else [])
                     + (if p.reset then ResetCalls(map[]) else [])
                     + (if p.play == NoAction then [] else [Start([spring])])
        && pending == (if p.arm then Some(PreviewJob(next.tempAnimation, next.elementFocus))
                       else if p.cleanup then None else old(pending))
        && previewCleanup == (if p.rerunPreview then p.arm else (old(previewCleanup) && !p.cleanup))
      ensures waitingToPlay == (old(waitingToPlay) && !(next.playAnimationPage && old(animating)))
      ensures store == Some(next)
    {
      var p := PlanFor(store, next, previewCleanup, pageId, elementId, insideGroupBox, config);
      var renderAnimating := animating;
      RunResetAndPreview(p.cleanup, p.reset, p.rerunPreview, p.arm, PreviewJob(next.tempAnimation, next.elementFocus));
      RunPagePlay(p.play, next, renderAnimating);
    }
  }
}
