/** The tokenized element animation controller (`useTextAnimation`): one
    interpolation stream per character or word of a text element, started with
    staggered delays, whose rests are counted to decide when the element has
    finished. Engine callbacks are the methods `OnStart` and `OnRest`; store
    changes arrive through `Update`. */
module TextAnimation {
  import opened AnimationValues
  import opened Streams
  import opened Reactions

  /** The run started by the latest play call: its direction, the
      `animationCount` its callbacks share (0 on every play call) and whether
      its promise has been resolved. `NoRun` once a reset has replaced it:
      the callbacks of a replaced run no longer fire. */
  datatype TextRun = NoRun | TextRun(entering: bool, restCount: nat, resolved: bool)

  class TextController {
    const elementId: string
    const elementIndex: nat
    const elementValues: map<string, int>   // the element's own values
    const insideGroupBox: bool
    const config: Props                     // the element's animation configuration
    const typeWriting: TypeWriting
    const pageId: string
    const springCount: nat

    var animating: bool
    var preparing: bool
    var finished: bool
    var paused: bool
    var playing: bool                 // `playingRef`
    var waitingToPlay: bool
    var pending: Option<PreviewJob>   // the armed preview timer
    var previewCleanup: bool          // the preview effect's last run left a cleanup
    var store: Option<Store>          // the store the last committed effects saw
    var run: TextRun
    var streams: seq<SpringCmd>       // what each stream was last told
    var engine: seq<EngineCall>       // every call made on the engine handle

    /** One command per stream; a timer is armed only with its cleanup
        registered; no status flag is up unless the controller is playing. */
    ghost predicate Valid()
      reads this`streams, this`pending, this`previewCleanup, this`animating, this`preparing, this`finished, this`playing
    {
      && |streams| == springCount
      && (pending.Some? ==> previewCleanup)
      && (animating || preparing || finished ==> playing)
    }

    /** `playAnimationPage` as of the latest render. */
    function PagePlaying(): bool
      reads this`store
    {
      store.Some? && store.value.playAnimationPage
    }

    /** The exposed status. */
    function Status(): Status
      reads this
    {
      Project(animating, preparing, finished, waitingToPlay)
    }

    /** The engine calls of a reset: stop, then snap every stream. */
    function ResetCalls(): seq<EngineCall>
    {
      [Stop, Start(SnapAll(springCount, elementValues))]
    }

    /** The engine calls of a play call giving the streams `cmds`. */
    function PlayCalls(entering: bool, cmds: seq<SpringCmd>): seq<EngineCall>
    {
      if entering then [SetAll("opacity", 0), Start(cmds)]
      else (if typeWriting.Word? then [SetAll("y", 0)] else []) + [Start(cmds)]
    }

    /** Mounting: the streams rest at the element's default values with zero
        offsets, and the waiting latch starts from `listenWaitingToPlay`. */
    constructor (elementId: string, elementIndex: nat, elementValues: map<string, int>,
                 insideGroupBox: bool, defaults: map<string, int>, text: string, wordCount: nat,
                 config: Props, typeWriting: TypeWriting, pageId: string, canvasMode: CanvasMode)
      ensures Valid()
      ensures this.elementId == elementId && this.elementIndex == elementIndex
      ensures this.elementValues == elementValues && this.insideGroupBox == insideGroupBox
      ensures this.config == config && this.typeWriting == typeWriting && this.pageId == pageId
      ensures springCount == SpringCount(typeWriting, text, wordCount)
      ensures !animating && !preparing && !finished && !paused && !playing
      ensures waitingToPlay == ListenWaitingToPlay(canvasMode, config)
      ensures pending == None && !previewCleanup && store == None && run == NoRun
      ensures streams == SnapAll(springCount, defaults) && engine == []
    {
      this.elementId := elementId;
      this.elementIndex := elementIndex;
      this.elementValues := elementValues;
      this.insideGroupBox := insideGroupBox;
      this.config := config;
      this.typeWriting := typeWriting;
      this.pageId := pageId;
      springCount := SpringCount(typeWriting, text, wordCount);
      animating, preparing, finished, paused, playing := false, false, false, false, false;
      waitingToPlay := ListenWaitingToPlay(canvasMode, config);
      pending, previewCleanup, store, run := None, false, None, NoRun;
      streams := SnapAll(SpringCount(typeWriting, text, wordCount), defaults);
      engine := [];
    }

    /** `resetAnimation`, also exposed as the controller's `reset`: stop every
        stream, then snap each one to the element's values with zero offsets,
        at once. The status flags are left as they are. */
    method ResetAnimation()
      requires Valid()
      modifies this`streams, this`engine, this`run
      ensures Valid()
      ensures streams == SnapAll(springCount, elementValues)
      ensures engine == old(engine) + ResetCalls()
      ensures run == NoRun
    {
      streams := SnapAll(springCount, elementValues);
      engine := engine + [Stop, Start(streams)];
      run := NoRun;
    }

    /** `resetAnimating`: clear every status flag and playing, and reset the
        streams. Its outcome does not depend on the state it starts from, so a
        second call changes nothing further (the engine sees the calls again). */
    method ResetAnimating()
      requires Valid()
      modifies this`animating, this`preparing, this`finished, this`playing
      modifies this`streams, this`engine, this`run
      ensures Valid()
      ensures !animating && !preparing && !finished && !playing
      ensures streams == SnapAll(springCount, elementValues)
      ensures engine == old(engine) + ResetCalls()
      ensures run == NoRun
    {
      animating, preparing, finished := false, false, false;
      ResetAnimation();
      playing := false;
    }

    /** `playAnimationIn`: playing and preparing go up, every stream is set
        to opacity 0, then stream `i` starts the enter motion after
        `(delay || 0) + i * perTextSpeed`; a fresh rest count starts at 0. */
    method PlayAnimationIn(props: Props)
      requires Valid()
      modifies this`playing, this`preparing, this`engine, this`streams, this`run
      ensures Valid()
      ensures playing && preparing
      ensures streams == TextCommands(props, springCount, true)
      ensures engine == old(engine) + PlayCalls(true, streams)
      ensures run == TextRun(true, 0, false)
    {
      playing := true;
      preparing := true;
      engine := engine + [SetAll("opacity", 0)];
      streams := TextCommands(props, springCount, true);
      engine := engine + [Start(streams)];
      run := TextRun(true, 0, false);
    }

    /** `playAnimationOut`: playing goes up (preparing is not touched), a
        word-split element has its streams set to y 0, then the streams start
        the exit motion with the same staggered delays. */
    method PlayAnimationOut(props: Props)
      requires Valid()
      modifies this`playing, this`engine, this`streams, this`run
      ensures Valid()
      ensures playing
      ensures streams == TextCommands(props, springCount, false)
      ensures engine == old(engine) + PlayCalls(false, streams)
      ensures run == TextRun(false, 0, false)
    {
      playing := true;
      if typeWriting.Word? {
        engine := engine + [SetAll("y", 0)];
      }
      streams := TextCommands(props, springCount, false);
      engine := engine + [Start(streams)];
      run := TextRun(false, 0, false);
    }

    /** The engine reports that stream `index` of the current run started.
        Only stream 0, and only while playing, turns animating on (and, when
        entering, preparing off). The render that follows lets the waiting
        latch see the new `animating`. */
    method OnStart(index: nat)
      requires Valid() && index < springCount
      modifies this`preparing, this`animating, this`waitingToPlay
      ensures Valid()
      ensures animating == (old(animating) || (run.TextRun? && index == 0 && playing))
      ensures preparing == (old(preparing) && !(run.TextRun? && run.entering && index == 0 && playing))
      ensures waitingToPlay == (old(waitingToPlay) && !(PagePlaying() && animating))
    {
      if run.TextRun? && index == 0 && playing {
        if run.entering {
          preparing := false;
        }
        animating := true;
      }
      if PagePlaying() && waitingToPlay && animating {
        waitingToPlay := false;
      }
    }

    /** The engine reports that stream `index` of the current run came to
        rest. The run's count goes up by one whichever stream it is (a stream
        reporting twice counts twice) and its promise is resolved on every
        rest, so it settles at the first. When the count reaches
        `springCount` while playing, animating is cleared, together with
        preparing when entering, or with finished set when exiting: the only
        place `finished` goes up. */
    method OnRest(index: nat)
      requires Valid() && index < springCount
      modifies this`run, this`preparing, this`animating, this`finished, this`waitingToPlay
      ensures Valid()
      ensures old(run).NoRun? ==> run == NoRun
      ensures old(run).TextRun? ==>
        run == old(run).(restCount := old(run).restCount + 1, resolved := true)
      ensures var completes := old(run).TextRun? && old(run).restCount + 1 == springCount && playing;
        && animating == (old(animating) && !completes)
        && preparing == (old(preparing) && !(completes && old(run).entering))
        && finished == (old(finished) || (completes && !old(run).entering))
      ensures waitingToPlay == (old(waitingToPlay) && !(PagePlaying() && animating))
    {
      if run.TextRun? {
        run := run.(restCount := run.restCount + 1, resolved := true);
        if run.restCount == springCount && playing {
          if run.entering {
            preparing := false;
          } else {
            finished := true;
          }
          animating := false;
        }
      }
      if PagePlaying() && waitingToPlay && animating {
        waitingToPlay := false;
      }
    }

    /** `pause`: forwarded to every stream. */
    method PauseAnimation()
      modifies this`paused, this`engine
      ensures paused && engine == old(engine) + [Pause]
    {
      paused := true;
      engine := engine + [Pause];
    }

    /** `resume`: forwarded to every stream. */
    method ResumeAnimation()
      modifies this`paused, this`engine
      ensures !paused && engine == old(engine) + [Resume]
    {
      paused := false;
      engine := engine + [Resume];
    }

    /** `handlePlayAnimationPage`: play the element's own configuration in or
        out as `PageActionFor` decides; otherwise nothing changes. */
    method HandlePlayAnimationPage(dir: Direction)
      requires Valid()
      modifies this`playing, this`preparing, this`engine, this`streams, this`run
      ensures Valid()
      ensures var a := PageActionFor(config, elementId, dir);
        && (a == NoAction ==>
              playing == old(playing) && preparing == old(preparing) && engine == old(engine)
              && streams == old(streams) && run == old(run))
        && (a == PlayIn ==>
              playing && preparing && run == TextRun(true, 0, false)
              && streams == TextCommands(config, springCount, true)
              && engine == old(engine) + PlayCalls(true, streams))
        && (a == PlayOut ==>
              playing && preparing == old(preparing) && run == TextRun(false, 0, false)
              && streams == TextCommands(config, springCount, false)
              && engine == old(engine) + PlayCalls(false, streams))
    {
      var a := PageActionFor(config, elementId, dir);
      if a == PlayIn {
        PlayAnimationIn(config);
      } else if a == PlayOut {
        PlayAnimationOut(config);
      }
    }

    /** The armed preview timer fires: it plays the element in with the
        props `PreviewPlay` gives, if any, and disarms itself; the effect's
        cleanup stays registered. */
    method PreviewTimerFires()
      requires Valid() && pending.Some?
      modifies this`pending, this`playing, this`preparing, this`engine, this`streams, this`run
      ensures Valid()
      ensures pending == None
      ensures var r := PreviewPlay(old(pending).value, config, elementId, elementIndex);
        && (r.None? ==>
              playing == old(playing) && preparing == old(preparing) && engine == old(engine)
              && streams == old(streams) && run == old(run))
        && (r.Some? ==>
              playing && preparing && run == TextRun(true, 0, false)
              && streams == TextCommands(r.value, springCount, true)
              && engine == old(engine) + PlayCalls(true, streams))
    {
      var r := PreviewPlay(pending.value, config, elementId, elementIndex);
      if r.Some? {
        PlayAnimationIn(r.value);
      }
      pending := None;
    }

    /** The first part of an update: the preview effect's cleanup (disarm
        the timer, reset), the reset effect, then the preview effect, each
        when the plan says so. */
    method RunResetAndPreview(cleanup: bool, reset: bool, rerun: bool, arm: bool, job: PreviewJob)
      requires Valid()
      requires cleanup ==> previewCleanup
      requires rerun ==> (cleanup || !previewCleanup)
      requires arm ==> rerun
      modifies this`pending, this`previewCleanup, this`animating, this`preparing, this`finished
      modifies this`playing, this`streams, this`engine, this`run
      ensures Valid()
      ensures var cleared := cleanup || reset;
        && animating == (old(animating) && !cleared)
        && finished == (old(finished) && !cleared)
        && preparing == (old(preparing) && !cleared)
        && playing == (old(playing) && !cleared)
        && run == (if cleared then NoRun else old(run))
        && streams == (if cleared then SnapAll(springCount, elementValues) else old(streams))
        && engine == old(engine) + (if cleanup then ResetCalls() else []) + (if reset then ResetCalls() else [])
        && pending == (if arm then Some(job) else if cleanup then None else old(pending))
        && previewCleanup == (if rerun then arm else (old(previewCleanup) && !cleanup))
    {
      if cleanup {
        pending := None;
        ResetAnimating();
        previewCleanup := false;
      }
      if reset {
        ResetAnimating();
      }
      ArmPreview(rerun, arm, job);
    }

    /** The preview effect's body when it runs again: it arms the timer
        with `job` (debouncing: the timer it replaces was disarmed by the
        cleanup) and registers its cleanup, or leaves none. */
    method ArmPreview(rerun: bool, arm: bool, job: PreviewJob)
      requires Valid()
      requires rerun ==> !previewCleanup
      requires arm ==> rerun
      modifies this`pending, this`previewCleanup
      ensures Valid()
      ensures pending == (if arm then Some(job) else old(pending))
      ensures previewCleanup == (if rerun then arm else old(previewCleanup))
    {
      if rerun {
        if arm {
          pending := Some(job);
          previewCleanup := true;
        } else {
          previewCleanup := false;
        }
      }
    }

    /** The second part of an update: `handlePlayAnimationPage` once its
        gate has been decided, then the store is committed and the waiting
        latch sees the render-time `animating`. */
    method RunPagePlay(action: PageAction, next: Store, renderAnimating: bool)
      requires Valid()
      modifies this`playing, this`preparing, this`engine, this`streams, this`run, this`store, this`waitingToPlay
      ensures Valid()
      ensures store == Some(next)
      ensures waitingToPlay == (old(waitingToPlay) && !(next.playAnimationPage && renderAnimating))
      ensures preparing == (action == PlayIn || old(preparing))
      ensures playing == (action != NoAction || old(playing))
      ensures run == (if action == PlayIn then TextRun(true, 0, false)
                      else if action == PlayOut then TextRun(false, 0, false)
                      else old(run))
      ensures streams == (if action == PlayIn then TextCommands(config, springCount, true)
                          else if action == PlayOut then TextCommands(config, springCount, false)
                          else old(streams))
      ensures engine == old(engine) + (if action == NoAction then [] else PlayCalls(action == PlayIn, streams))
    {
      if action == PlayIn {
        PlayAnimationIn(config);
      } else if action == PlayOut {
        PlayAnimationOut(config);
      }
      store := Some(next);
      if next.playAnimationPage && waitingToPlay && renderAnimating {
        waitingToPlay := false;
      }
    }

    /** A store update is committed: the effects run as `PlanFor` decides, in
        React's order (the preview cleanup, the reset effect, the preview
        effect, the page-play effect), and the waiting latch is cleared once
        page playback is on while the element was animating at render time.
        A reset and a play in the same update both happen, the play last. */
    method Update(next: Store)
      requires Valid()
      modifies this`pending, this`previewCleanup, this`animating, this`preparing, this`finished
      modifies this`playing, this`streams, this`engine, this`run, this`store, this`waitingToPlay
      ensures Valid()
      ensures var p := PlanFor(old(store), next, old(previewCleanup), pageId, elementId, insideGroupBox, config);
        var cleared := p.cleanup || p.reset;
        && animating == (old(animating) && !cleared)
        && finished == (old(finished) && !cleared)
        && preparing == (p.play == PlayIn || (old(preparing) && !cleared))
        && playing == (p.play != NoAction || (old(playing) && !cleared))
        && run == (if p.play == PlayIn then TextRun(true, 0, false)
                   else if p.play == PlayOut then TextRun(false, 0, false)
                   else if cleared then NoRun else old(run))
        && streams == (if p.play == PlayIn then TextCommands(config, springCount, true)
                       else if p.play == PlayOut then TextCommands(config, springCount, false)
                       else if cleared then SnapAll(springCount, elementValues) else old(streams))
        && engine == old(engine)
                     + (if p.cleanup then ResetCalls() else [])
                     + (if p.reset then ResetCalls() else [])
                     + (if p.play == NoAction then [] else PlayCalls(p.play == PlayIn, streams))
        && pending == (if p.arm then Some(PreviewJob(next.tempAnimation, next.elementFocus))
                       else if p.cleanup then None else old(pending))
        && previewCleanup == (if p.rerunPreview then p.arm else (old(previewCleanup) && !p.cleanup))
      ensures waitingToPlay == (old(waitingToPlay) && !(next.playAnimationPage && old(animating)))
      ensures store == Some(next)
    {
      var p := PlanFor(store, next, previewCleanup, pageId, elementId, insideGroupBox, config);
      var renderAnimating := animating;
      RunResetAndPreview(p.cleanup, p.reset, p.rerunPreview, p.arm, PreviewJob(next.tempAnimation, next.elementFocus));
      RunPagePlay(p.play, next, renderAnimating);
    }
  }
}
