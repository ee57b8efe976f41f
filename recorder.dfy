/** The export frame driver (`useRecorder`): a virtual-time controller steps
    a frame value from 0 to `totalFrames`; every step captures the canvas
    once and publishes the progress percentage, a run is marked finished
    once the progress reads 100, and only a finished run is saved. The
    capturer, the controller and the element animations it resumes are
    opaque; the driver's calls on them are kept in one log. */
module ExportRecorder {
  import opened AnimationValues
  import opened Rounding

  /** `EXPORT_FORMAT`. */
  datatype ExportFormat = Webm | OtherFormat(name: string)

  /** The settings a caller passes to `exportVideo`; every key may be
      missing. `duration` is in milliseconds. `mp4Export` is its truthiness. */
  datatype ExportSettings = ExportSettings(
    format: Option<ExportFormat>,
    quality: Option<int>,
    framerate: Option<int>,
    verbose: Option<bool>,
    duration: Option<int>,
    mp4Export: bool)

  /** What the capturer is created with: the defaults, overridden by the caller. */
  datatype CaptureSettings = CaptureSettings(format: ExportFormat, quality: int, framerate: int, verbose: bool)

  const DefaultFormat: ExportFormat := Webm
  const DefaultQuality: int := 100
  const DefaultFramerate: int := 60

  /** `{...defaultSettings, ...settings}` without the keys the driver takes out. */
  function CaptureSettingsOf(s: ExportSettings): (c: CaptureSettings)
    ensures c.format == (if s.format.Some? then s.format.value else Webm)
    ensures c.quality == (if s.quality.Some? then s.quality.value else 100)
    ensures c.framerate == (if s.framerate.Some? then s.framerate.value else 60)
    ensures c.verbose == (s.verbose.Some? && s.verbose.value)
  {
    CaptureSettings(s.format.GetOr(DefaultFormat), s.quality.GetOr(DefaultQuality),
                    s.framerate.GetOr(DefaultFramerate), s.verbose.GetOr(false))
  }

  /** The guard of `exportVideo`: a duration that is present and not positive
      refuses the export; a missing one does not. */
  predicate Refused(s: ExportSettings) {
    s.duration.Some? && s.duration.value <= 0
  }

  /** `totalFrames = duration / 1000 * framerate`; `None` stands for the NaN a
      missing duration gives. */
  function TotalFrames(s: ExportSettings): (t: Option<real>)
    ensures t.Some? <==> s.duration.Some?
    ensures t.Some? ==> t.value == s.duration.value as real / 1000.0 * CaptureSettingsOf(s).framerate as real
  {
    if s.duration.Some? then Some(s.duration.value as real / 1000.0 * CaptureSettingsOf(s).framerate as real)
    else None
  }

  /** `Math.round(frame / totalFrames * 100)`; `None` stands for NaN or an
      infinity, which a missing or zero total gives. */
  function Progress(frame: real, total: Option<real>): (p: Option<int>)
    ensures p.Some? <==> total.Some? && total.value != 0.0
  {
    if total.Some? && total.value != 0.0 then Some(Round(frame / total.value * 100.0)) else None
  }

  lemma DivCancels(a: real, b: real)
    requires b != 0.0
    ensures a / b * b == a
  {
  }

  /** The progress reads 100 exactly when the frame is within half a percent
      of the total: from 99.5% up to, not including, 100.5%. */
  lemma {:induction false} ProgressFullIff(frame: real, total: real)
    requires total > 0.0
    ensures Progress(frame, Some(total)) == Some(100) <==> 199.0 * total <= 200.0 * frame < 201.0 * total
  {
    var x := frame / total;
    var y := x * 100.0;
    assert Progress(frame, Some(total)) == Some(Round(y));
    assert Round(y) == 100 <==> 199.0 <= 2.0 * y < 201.0;
    DivCancels(frame, total);
    assert 200.0 * frame == (2.0 * y) * total;
    if 199.0 <= 2.0 * y {
      assert 199.0 * total <= (2.0 * y) * total;
    } else {
      assert (2.0 * y) * total < 199.0 * total;
    }
    if 2.0 * y < 201.0 {
      assert (2.0 * y) * total < 201.0 * total;
    } else {
      assert 201.0 * total <= (2.0 * y) * total;
    }
  }

  /** The controller's last value is the total itself, whose progress is 100. */
  lemma LastFrameIsFull(total: real)
    requires total != 0.0
    ensures Progress(total, Some(total)) == Some(100)
  {
    assert total / total == 1.0;
  }

  /** Progress never goes down while the frame value goes up. */
  lemma ProgressMonotone(f1: real, f2: real, total: real)
    requires total > 0.0 && f1 <= f2
    ensures Progress(f1, Some(total)).value <= Progress(f2, Some(total)).value
  {
    assert f1 / total <= f2 / total;
    RoundMonotone(f1 / total * 100.0, f2 / total * 100.0);
  }

  /** Some frame of `frames` reads a progress of 100. */
  function ReachedFull(frames: seq<real>, total: Option<real>): bool
  {
    if |frames| == 0 then false
    else ReachedFull(frames[..|frames| - 1], total) || Progress(frames[|frames| - 1], total) == Some(100)
  }

  lemma {:induction false} ReachedFullIff(frames: seq<real>, total: Option<real>)
    ensures ReachedFull(frames, total) <==> exists i :: 0 <= i < |frames| && Progress(frames[i], total) == Some(100)
  {
    if |frames| > 0 {
      var init := frames[..|frames| - 1];
      ReachedFullIff(init, total);
      if exists i :: 0 <= i < |frames| && Progress(frames[i], total) == Some(100) {
        var i :| 0 <= i < |frames| && Progress(frames[i], total) == Some(100);
        if i < |frames| - 1 {
          assert init[i] == frames[i];
        }
      }
      if ReachedFull(init, total) {
        var i :| 0 <= i < |init| && Progress(init[i], total) == Some(100);
        assert frames[i] == init[i];
      }
    }
  }

  /** A run whose frames all stay below 99.5% of a positive total is never
      marked finished, so it is not saved. */
  lemma TruncatedRunNeverFull(frames: seq<real>, total: real)
    requires total > 0.0
    requires forall i :: 0 <= i < |frames| ==> 200.0 * frames[i] < 199.0 * total
    ensures !ReachedFull(frames, Some(total))
  {
    ReachedFullIff(frames, Some(total));
    forall i | 0 <= i < |frames|
      ensures Progress(frames[i], Some(total)) != Some(100)
    {
      ProgressFullIff(frames[i], total);
    }
  }

  /** A call the driver makes on the capturer, the controller or the caller. */
  datatype Call =
    | NewCapturer(settings: CaptureSettings)
    | CapturerStart
    | Capture
    | CapturerStop
    | CapturerSave
    | ControllerStart(target: Option<real>)
    | ControllerStop
    | ApiStart
    | ApiResume
    | Completed

  /** The calls of `n` controller steps: one capture, then one resume, each. */
  function StepCalls(n: nat): (r: seq<Call>)
    ensures |r| == 2 * n
  {
    if n == 0 then [] else StepCalls(n - 1) + [Capture, ApiResume]
  }

  /** Exactly one capture per step, each followed by the resume. */
  lemma {:induction false} StepCallsShape(n: nat)
    ensures forall k :: 0 <= k < n ==> StepCalls(n)[2 * k] == Capture && StepCalls(n)[2 * k + 1] == ApiResume
    ensures multiset(StepCalls(n))[Capture] == n
  {
    if n > 0 {
      StepCallsShape(n - 1);
      assert StepCalls(n) == StepCalls(n - 1) + [Capture, ApiResume];
    }
  }

  /** The calls `onRest` makes after stopping the capturer: a finished run is
      saved; without mp4 the caller is told at once, with mp4 after the upload. */
  function RestCalls(finished: bool, mp4Export: bool): (r: seq<Call>)
    ensures CapturerSave in r <==> finished
    ensures Completed in r <==> finished && !mp4Export
  {
    if !finished then [] else if mp4Export then [CapturerSave] else [CapturerSave, Completed]
  }

  /** The closure of one `exportVideo` call: its total, whether it uploads
      an mp4, and its `finished` latch. */
  datatype ExportRun = ExportRun(total: Option<real>, mp4Export: bool, finished: bool)

  class Recorder {
    var progress: Option<int>
    var processing: bool
    var downloadInfo: map<string, string>
    var hasCapturer: bool             // `capturerRef.current` is set
    var hasController: bool           // `animationRef.current` is set
    var run: Option<ExportRun>        // the latest export's closure
    var uploading: bool               // an mp4 save awaits the upload's answer
    var calls: seq<Call>

    /** A run exists only with its capturer and controller in place. */
    ghost predicate Valid()
      reads this`run, this`hasCapturer, this`hasController
    {
      run.Some? ==> hasCapturer && hasController
    }

    constructor ()
      ensures Valid()
      ensures progress == Some(0) && !processing && downloadInfo == map[]
      ensures !hasCapturer && !hasController && run == None && !uploading && calls == []
    {
      progress, processing, downloadInfo := Some(0), false, map[];
      hasCapturer, hasController, run, uploading, calls := false, false, None, false, [];
    }

    /** `exportVideo`: refused (false, nothing changes) for a non-positive
        duration; otherwise a capturer is created with the merged settings, a
        fresh run with an unset latch replaces the previous one, and the
        controller is started towards `totalFrames`. */
    method ExportVideo(settings: ExportSettings) returns (started: bool)
      requires Valid()
      modifies this`hasCapturer, this`hasController, this`run, this`calls
      ensures Valid()
      ensures started <==> !Refused(settings)
      ensures !started ==> hasCapturer == old(hasCapturer) && hasController == old(hasController)
                           && run == old(run) && calls == old(calls)
      ensures started ==>
        && hasCapturer && hasController
        && run == Some(ExportRun(TotalFrames(settings), settings.mp4Export, false))
        && calls == old(calls) + [NewCapturer(CaptureSettingsOf(settings)), ControllerStart(TotalFrames(settings))]
    {
      if Refused(settings) {
        return false;
      }
      hasCapturer := true;
      run := Some(ExportRun(TotalFrames(settings), settings.mp4Export, false));
      hasController := true;
      calls := calls + [NewCapturer(CaptureSettingsOf(settings)), ControllerStart(TotalFrames(settings))];
      return true;
    }

    /** The controller starts: download information and processing are
        cleared, the capturer starts, then the animations start. */
    method OnStart()
      requires Valid() && run.Some?
      modifies this`downloadInfo, this`processing, this`calls
      ensures downloadInfo == map[] && !processing
      ensures calls == old(calls) + [CapturerStart, ApiStart]
    {
      downloadInfo := map[];
      processing := false;
      calls := calls + [CapturerStart, ApiStart];
    }

    /** One controller step to `frame`: one capture, the progress, the latch
        (set at 100, never cleared), then the animations resume. */
    method OnChange(frame: real)
      requires Valid() && run.Some?
      modifies this`progress, this`run, this`calls
      ensures Valid() && run.Some?
      ensures progress == Progress(frame, old(run).value.total)
      ensures run == Some(old(run).value.(finished := old(run).value.finished || progress == Some(100)))
      ensures calls == old(calls) + [Capture, ApiResume]
    {
      calls := calls + [Capture];
      progress := Progress(frame, run.value.total);
      if progress == Some(100) {
        run := Some(run.value.(finished := true));
      }
      calls := calls + [ApiResume];
    }

    /** The controller comes to rest: the capturer stops, the progress goes
        back to 0 and processing goes on. Only a finished run is saved; a
        truncated one ends here without an error. */
    method OnRest()
      requires Valid() && run.Some?
      modifies this`progress, this`processing, this`uploading, this`calls
      ensures progress == Some(0)
      ensures calls == old(calls) + [CapturerStop] + RestCalls(run.value.finished, run.value.mp4Export)
      ensures processing == !(run.value.finished && !run.value.mp4Export)
      ensures uploading == (old(uploading) || (run.value.finished && run.value.mp4Export))
    {
      calls := calls + [CapturerStop];
      progress := Some(0);
      processing := true;
      if run.value.finished {
        if run.value.mp4Export {
          calls := calls + [CapturerSave];
          uploading := true;
        } else {
          calls := calls + [CapturerSave, Completed];
          processing := false;
        }
      }
    }

    /** The upload of a saved mp4 answers (the toast it shows is not
        modelled): the download information arrives, the caller is told and
        processing ends. */
    method UploadFinished(info: map<string, string>)
      requires uploading
      modifies this`downloadInfo, this`calls, this`processing, this`uploading
      ensures downloadInfo == info && !processing && !uploading
      ensures calls == old(calls) + [Completed]
    {
      downloadInfo := info;
      calls := calls + [Completed];
      processing := false;
      uploading := false;
    }

    /** `cancelExport`: progress 0 and processing off; the capturer and the
        controller are stopped only if they exist. */
    method CancelExport()
      modifies this`progress, this`processing, this`calls
      ensures progress == Some(0) && !processing
      ensures calls == old(calls) + (if hasCapturer then [CapturerStop] else [])
                                  + (if hasController then [ControllerStop] else [])
    {
      progress := Some(0);
      processing := false;
      if hasCapturer {
        calls := calls + [CapturerStop];
      }
      if hasController {
        calls := calls + [ControllerStop];
      }
    }

    /** One whole run of the controller, supplying the frame values `frames`:
        it starts, steps once per frame and comes to rest. There is exactly one
        capture per frame; the run is finished exactly when some frame read
        100% (or it was already), and only then is it saved. */
    method Drive(frames: seq<real>)
      requires Valid() && run.Some?
      modifies this`downloadInfo, this`processing, this`calls, this`progress, this`run, this`uploading
      ensures Valid() && run.Some?
      ensures run == Some(old(run).value.(finished := old(run).value.finished || ReachedFull(frames, old(run).value.total)))
      ensures calls == old(calls) + [CapturerStart, ApiStart] + StepCalls(|frames|) + [CapturerStop]
                       + RestCalls(run.value.finished, run.value.mp4Export)
      ensures progress == Some(0)
      ensures processing == !(run.value.finished && !run.value.mp4Export)
    {
      OnStart();
      var i := 0;
      while i < |frames|
        invariant 0 <= i <= |frames|
        invariant Valid() && run.Some?
        invariant run == Some(old(run).value.(finished := old(run).value.finished || ReachedFull(frames[..i], old(run).value.total)))
        invariant calls == old(calls) + [CapturerStart, ApiStart] + StepCalls(i)
      {
        OnChange(frames[i]);
        assert frames[..i + 1][..i] == frames[..i];
        i := i + 1;
      }
      assert frames[..i] == frames;
      OnRest();
    }
  }
}
