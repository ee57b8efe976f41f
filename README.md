# Animated template export: element animation controllers, frame driver and exporter workspaces

This project models the core of an animated template editor's playback and
export path in Dafny, and proves properties of that model.

- **Element animation controllers** (`useTextAnimation`, `useGroupAnimation`).
  Each element of a page owns a small state machine with these parts:
  - the flags `preparing`, `animating` and `finished`;
  - the `playing` reference;
  - the `waitingToPlay` latch;
  - a pending, debounced preview timer.

  The controller reacts to the shared page-sequencer store:
  - a reset;
  - a whole-page or single-element preview;
  - page playback in or out, gated by the element's `animate` setting.

  It drives one interpolation stream (group variant) or one stream per
  character or word (text variant, with staggered delays and a rest counter).
  Both are classes: `TextAnimation.TextController` and
  `GroupAnimation.GroupController`.
  - Engine callbacks are the methods `OnStart` and `OnRest`.
  - A committed store change is `Update`. It runs the effects in React's
    order: the preview effect's cleanup first, then the reset, preview and
    page-play effect bodies. Each runs only when one of its dependencies
    changed.
  - The shared decision table lives in `Reactions`. The per-stream
    arithmetic lives in `Streams`.
- **Export frame driver** (`useRecorder`). A virtual-time controller supplies
  frame values.
  - Every step captures the canvas exactly once and publishes
    `round(frame / totalFrames * 100)`.
  - A per-run latch goes up when the progress reads 100.
  - When the controller rests, only a latched run is saved.

  `ExportRecorder.Recorder` keeps every call on the capturer, the controller
  and the animations in one log. `Drive` runs one whole controller run over a
  given sequence of frame values.
- **Exporter workspaces** (`mediaRecorder.js`, `recordRTC.js`). Each workspace:
  - loads a template and classifies the result;
  - scales the canvas so that its longer side matches an ideal resolution,
    with both sides even;
  - starts recording once everything is ready;
  - on stop, hands the video path, the video and the poster to the export
    server as DOM spans, followed by a success marker once both are prepared.

  The shared pure logic is in `ExportWorkspace`. The two workspaces are the
  classes `MediaRecorderWorkspace.Workspace` and `RecordRtcWorkspace.Workspace`.

**Conventions**
- Times and speeds are integers in tenths of the source's unit. So
  `toFixed(1)` is integer rounding, `Rounding.RoundedQuotient`.
- `Math.round` on the recorder's frame ratio is exact rounding of a real,
  `Rounding.Round`.
- Template sizes are pixel counts.
- JavaScript NaN and infinities are `None`.
- Missing or falsy keys are `None` or `""`, as each type says.
- A preview request's `serial` stands for its object identity: each newly
  published request has a new serial, so an effect that depends on it sees a
  change even when the contents are equal.

**Behaviour modelled as written** (where a reader might expect otherwise):
- A text element's promise resolves on every stream rest, so it settles at
  the first. The rest counter has no guard against a stream reporting twice.
- A group element's exit decides on rest with the `animating` value its
  closure captured when the exit began. An exit started while the element was
  at rest therefore never sets `finished`.
- A reset-all and a page play in the same update both happen: reset first,
  then play. The reset does not cancel the play.
- A truncated export only skips saving. No error is raised.
- `cancelExport` does not stop a later rest of the controller from running.
- The MediaRecorder workspace initialises the prepared flags with the key
  `thumbnail`, but tests and sets `poster`. A missing key reads as false, so
  the success marker still needs both readers.
- The "missing info" error needs the first page to lack both the template id
  and the domain id, even though its message names the domain id or the size
  id.

## Model

| member | source | states |
|---|---|---|
| AnimationValues.Merge | animation/useGroupAnimation.js:145-151 | `{...base, ...top}`: each key present in `top` wins; each missing key keeps the base value |
| AnimationValues.ResetValues | animation/useGroupAnimation.js:219-228 | the reset snapshot has both offsets 0, keeps every other key, and adds the two offset keys |
| Rounding.RoundedQuotient | animation/useTextAnimation.js:204 | `a / n` rounded to the nearest integer, halves up: `-n < 2(qn - a) <= n` |
| Rounding.NearestQuotientUnique | mediaRecorder.js:324-325 | a quotient has only one nearest integer, so a rounded side is determined |
| Rounding.QuotientOfMultiple | mediaRecorder.js:317-333 | an exact quotient rounds to itself (the longer side scales to exactly the ideal) |
| Rounding.QuotientMonotone | mediaRecorder.js:317-333 | rounding a quotient is monotone in the dividend (the shorter side stays shorter) |
| Rounding.Round | animation/useRecorder.js:56 | `Math.round`: the result is within half of its argument, halves rounding up |
| Rounding.RoundMonotone | animation/useRecorder.js:56 | `Math.round` never decreases as its argument grows |
| Streams.Utf16Length | animation/useTextAnimation.js:78 | `text.split("").length`: one unit per character, two for one outside the Basic Multilingual Plane; between the character count and twice it, 0 only for empty text |
| Streams.Utf16LengthOfBmpText | animation/useTextAnimation.js:78 | text made only of Basic Multilingual Plane characters splits into one piece per character |
| Streams.Utf16LengthOfEmoji | animation/useTextAnimation.js:78 | a single emoji splits into two pieces |
| Streams.SpringCount | animation/useTextAnimation.js:74-86 | streams: the UTF-16 unit count for CHARACTER, the token count for WORD, 1 for anything else; 0 exactly for empty text or no tokens |
| Streams.PerTextSpeed | animation/useTextAnimation.js:204 | per-stream speed = speed / count rounded to one decimal, with the rounding bounds for both signs; NaN (None) without a speed or streams |
| Streams.StreamDelays | animation/useTextAnimation.js:213-218 | one delay per stream; every delay is NaN exactly when the step is |
| Streams.StreamDelayOrder | animation/useTextAnimation.js:203-218 | stream 0 starts at the base delay, each next stream one step later, and with a non-negative step the delays never decrease |
| Streams.SnapAll | animation/useTextAnimation.js:52-64 | a reset snaps every one of the streams to the element's values with zero offsets |
| Streams.TextCommands | animation/useTextAnimation.js:203-218 | stream i runs the in or out motion built with the per-stream speed, after `(delay or 0) + i * perTextSpeed` |
| Streams.GroupCommand | animation/useGroupAnimation.js:157-164 | the single stream runs the motion with the caller's props after `delay or 0` |
| Reactions.PageActionFor | animation/useTextAnimation.js:170-187 | plays in iff the direction is IN, the id matches, the animation id is not NONE and animate is in ENTER_BOTH; plays out iff the same holds with OUT and EXIT_BOTH |
| Reactions.WaitingOnlyForEnteringElements | animation/useTextAnimation.js:97-103 | an element starts out waiting only in exporter mode and only if an IN page play would play it in |
| Reactions.PagePreviewProps | animation/useTextAnimation.js:189-195 | page preview props are the request over the element's configuration, with delay `elementIndex * 200` |
| Reactions.PreviewPlay | animation/useTextAnimation.js:134-144 | page preview plays every element with the staggered merge; element preview plays only the focused element, with delay 0; any other mode plays nothing |
| Reactions.FreshRequestRerunsPreview | animation/useTextAnimation.js:120-154 | a newly published request object with the same contents still re-runs the preview effect: cleanup if registered, then arming as its condition says |
| Reactions.PlanFor | animation/useTextAnimation.js:105-161 | each effect runs only when its dependencies changed: reset iff reset-all, or reset-current or not playing, on this page; the preview cleanup iff one is registered; arming iff the preview effect re-runs outside a group box, in preview mode, not playing, on this page, with a concrete animation; page play only on this page, while playing, in a concrete direction, through the element's gate; never arm and play together |
| Reactions.ResetThenPlayInOneUpdate | animation/useTextAnimation.js:105-161 | an update that sets reset-all and starts page playback both resets and plays in |
| Reactions.Project | animation/useTextAnimation.js:295-302 | the exposed preparing and finished are masked by `!animating` |
| TextAnimation.TextController.constructor | animation/useTextAnimation.js:39-103 | one stream per `SpringCount`, all at the defaults with zero offsets; flags down; latch from `listenWaitingToPlay` |
| TextAnimation.TextController.ResetAnimation | animation/useTextAnimation.js:52-64 | stop, then snap every stream to the element's values with zero offsets; the current run is gone |
| TextAnimation.TextController.ResetAnimating | animation/useTextAnimation.js:66-72 | animating, preparing, finished and playing are cleared and the streams reset; the outcome does not depend on the prior state, so a second call changes nothing further |
| TextAnimation.TextController.PlayAnimationIn | animation/useTextAnimation.js:197-242 | playing and preparing up, opacity set to 0, streams started with staggered delays, rest count 0 |
| TextAnimation.TextController.PlayAnimationOut | animation/useTextAnimation.js:244-283 | playing up, y set to 0 for WORD only, streams started with the exit motion, rest count 0 |
| TextAnimation.TextController.OnStart | animation/useTextAnimation.js:219-224 | only stream 0, and only while playing, turns animating on (and preparing off when entering); the latch may clear |
| TextAnimation.TextController.OnRest | animation/useTextAnimation.js:225-237 | every rest counts and resolves; when the count reaches the stream count while playing, animating clears, and finished goes up on the exit path only |
| TextAnimation.TextController.PauseAnimation | animation/useTextAnimation.js:285-288 | paused, and pause forwarded to the streams |
| TextAnimation.TextController.ResumeAnimation | animation/useTextAnimation.js:290-293 | not paused, and resume forwarded to the streams |
| TextAnimation.TextController.HandlePlayAnimationPage | animation/useTextAnimation.js:170-187 | plays in or out exactly as `PageActionFor` decides; otherwise nothing changes |
| TextAnimation.TextController.PreviewTimerFires | animation/useTextAnimation.js:134-144 | the armed timer plays in with `PreviewPlay`'s props if any and disarms itself |
| TextAnimation.TextController.RunResetAndPreview | animation/useTextAnimation.js:105-154 | the preview cleanup (disarm and reset), the reset, then re-arming with the latest request (debounce) |
| TextAnimation.TextController.ArmPreview | animation/useTextAnimation.js:122-154 | the effect arms the timer with the request and registers its cleanup only when its condition holds |
| TextAnimation.TextController.RunPagePlay | animation/useTextAnimation.js:156-168 | the page play decided by the plan runs, then the latch sees the render-time `animating` |
| TextAnimation.TextController.Update | animation/useTextAnimation.js:105-168 | the whole new state after one store update, as `PlanFor` decides; a reset and a play in one update leave the play; the latch only ever goes down |
| GroupAnimation.GroupController.constructor | animation/useGroupAnimation.js:37-62 | the stream rests at the defaults; flags down; latch from `listenWaitingToPlay` |
| GroupAnimation.GroupController.ResetAnimation | animation/useGroupAnimation.js:219-228 | stop, then snap to the defaults with `props` on top, except that both offsets are 0 |
| GroupAnimation.GroupController.ResetAnimating | animation/useGroupAnimation.js:230-236 | all flags and playing cleared, the stream reset to the defaults |
| GroupAnimation.GroupController.PlayAnimationIn | animation/useGroupAnimation.js:153-180 | playing and preparing up; the stream starts the enter motion after `delay or 0` |
| GroupAnimation.GroupController.PlayAnimationOut | animation/useGroupAnimation.js:182-207 | playing up; the stream starts the exit motion; the run keeps the captured `animating` |
| GroupAnimation.GroupController.OnStart | animation/useGroupAnimation.js:165-170 | while playing, animating on (and preparing off when entering) |
| GroupAnimation.GroupController.OnRest | animation/useGroupAnimation.js:171-177 | resolves; entering, while playing, clears preparing and animating; exiting, only with the captured `animating` and playing, clears animating and sets finished |
| GroupAnimation.GroupController.PauseAnimation | animation/useGroupAnimation.js:209-212 | pause forwarded to the stream |
| GroupAnimation.GroupController.ResumeAnimation | animation/useGroupAnimation.js:214-217 | resume forwarded to the stream |
| GroupAnimation.GroupController.HandlePlayAnimationPage | animation/useGroupAnimation.js:126-143 | plays in or out exactly as `PageActionFor` decides, an exit capturing the render-time `animating` |
| GroupAnimation.GroupController.PreviewTimerFires | animation/useGroupAnimation.js:91-101 | the armed timer plays in with `PreviewPlay`'s props if any and disarms itself |
| GroupAnimation.GroupController.RunResetAndPreview | animation/useGroupAnimation.js:64-110 | the preview cleanup, the reset, then re-arming with the latest request |
| GroupAnimation.GroupController.ArmPreview | animation/useGroupAnimation.js:79-110 | arms the timer and registers the cleanup only when the preview condition holds |
| GroupAnimation.GroupController.RunPagePlay | animation/useGroupAnimation.js:112-124 | the planned page play, then the latch with the render-time `animating` |
| GroupAnimation.GroupController.Update | animation/useGroupAnimation.js:64-124 | the whole new state after one store update; an exit played by it captures the render-time `animating`, so one begun at rest never finishes |
| ExportRecorder.CaptureSettingsOf | animation/useRecorder.js:8-13 | the capturer gets framerate 60, quality 100, format WEBM unless the caller's settings override them |
| ExportRecorder.TotalFrames | animation/useRecorder.js:42 | `totalFrames = duration / 1000 * framerate`, NaN without a duration |
| ExportRecorder.Progress | animation/useRecorder.js:56 | the progress is a number exactly when the total is present and non-zero |
| ExportRecorder.ProgressFullIff | animation/useRecorder.js:56-60 | the progress reads 100 iff the frame is within [99.5%, 100.5%) of the total |
| ExportRecorder.LastFrameIsFull | animation/useRecorder.js:56-60 | the final frame value, the total itself, reads 100 |
| ExportRecorder.ProgressMonotone | animation/useRecorder.js:56 | progress never goes down as the frame advances |
| ExportRecorder.ReachedFullIff | animation/useRecorder.js:58-60 | the latch is set iff some frame read 100 |
| ExportRecorder.TruncatedRunNeverFull | animation/useRecorder.js:63-67 | a run whose frames all stay below 99.5% is never latched, so it is not saved |
| ExportRecorder.StepCalls | animation/useRecorder.js:54-62 | n steps make 2n calls |
| ExportRecorder.StepCallsShape | animation/useRecorder.js:54-62 | each step is exactly one capture followed by one resume: n captures for n steps |
| ExportRecorder.RestCalls | animation/useRecorder.js:63-104 | save iff latched; the caller is told at once iff latched and not mp4 |
| ExportRecorder.Recorder.constructor | animation/useRecorder.js:16-21 | progress 0, not processing, no capturer, no controller |
| ExportRecorder.Recorder.ExportVideo | animation/useRecorder.js:23-110 | refused (false, nothing changes) iff the duration is present and not positive; otherwise a capturer with the merged settings, a fresh unlatched run, and the controller started towards `totalFrames` |
| ExportRecorder.Recorder.OnStart | animation/useRecorder.js:48-53 | download info and processing cleared; the capturer starts before the animations |
| ExportRecorder.Recorder.OnChange | animation/useRecorder.js:54-62 | one capture, the progress, the latch set at 100 and never cleared, one resume |
| ExportRecorder.Recorder.OnRest | animation/useRecorder.js:63-104 | the capturer stops, progress 0, processing on; save only if latched; without mp4, completed and processing off |
| ExportRecorder.Recorder.UploadFinished | animation/useRecorder.js:69-97 | the mp4 upload's answer: download info set, caller told, processing off |
| ExportRecorder.Recorder.CancelExport | animation/useRecorder.js:112-117 | progress 0, processing off, the capturer and the controller stopped only if they exist |
| ExportRecorder.Recorder.Drive | animation/useRecorder.js:44-105 | one whole controller run: exactly one capture per frame, latched iff some frame read 100, saved only then, progress back to 0 |
| ExportWorkspace.MakeEven | mediaRecorder.js:326-331 | an odd size goes up by one; the result is even |
| ExportWorkspace.LongerSide | mediaRecorder.js:319-323 | the width only when strictly longer, otherwise the height |
| ExportWorkspace.AdjustResolution | mediaRecorder.js:317-333 | each output side is `side * ideal / longer` rounded, or one more when that is odd, so both are even; the scale is the ideal over the longer side, positive iff the ideal is |
| ExportWorkspace.EvenRoundingDetermined | mediaRecorder.js:324-331 | an even size that is a rounded quotient or one more than it is unique |
| ExportWorkspace.AdjustResolutionDetermined | mediaRecorder.js:317-333 | the facts stated of `AdjustResolution` leave exactly one result |
| ExportWorkspace.AdjustResolutionLongerSide | mediaRecorder.js:317-333 | the longer side (the height on a tie) comes out as the ideal |
| ExportWorkspace.AdjustResolutionKeepsOrientation | mediaRecorder.js:317-333 | the shorter side never comes out longer |
| ExportWorkspace.AdjustResolutionPortraitExample | mediaRecorder.js:27 | 1000 x 1500 becomes 800 x 1200 at scale 0.8 with ideal 1200 |
| ExportWorkspace.AdjustResolutionRtcExample | recordRTC.js:38 | 1080 x 1920 keeps its size with ideal 1920 |
| ExportWorkspace.ResolutionFor | mediaRecorder.js:145-149 | the resolution is adjusted only when the store has a width and a height, and then both sides are even |
| ExportWorkspace.AllowInitValue | mediaRecorder.js:68-83 | the `&&` chain's value is the thumbnail string exactly when no load is pending, the scale is positive, there are pages and the thumbnail is truthy |
| ExportWorkspace.ReaderKey | mediaRecorder.js:249-276 | the video reader sets `video`, the poster reader `poster` |
| ExportWorkspace.FlagAfterReaders | mediaRecorder.js:249-276 | after some readers finished, a flag is set iff it was before or one of them sets it |
| ExportWorkspace.MarkerAfterReaders | mediaRecorder.js:168-175 | from unset flags, the marker is due after readers finished in any order iff both did |
| ExportWorkspace.CreateMessage | mediaRecorder.js:310-315 | a span with the text and the id, or the error id when the id is missing or empty |
| ExportWorkspace.SuccessMarker | mediaRecorder.js:168-175 | the marker is an empty span with the success id |
| ExportWorkspace.ClassifyTemplate | mediaRecorder.js:98-111 | nothing or an empty list is a load error; a first page lacking both ids is missing info; otherwise the pages are stored with the first page's ids |
| ExportWorkspace.TemplateMessages | mediaRecorder.js:98-111 | one error span for each failure kind, none when loaded |
| ExportWorkspace.Codec | recordRTC.js:211 | h264 iff the extension is gif, vp9 otherwise |
| ExportWorkspace.ChildAudio | recordRTC.js:228-242 | at most one track per child |
| ExportWorkspace.ChildAudioComplete | recordRTC.js:228-242 | a track is collected from a page iff a video child yields it |
| ExportWorkspace.AudioTracksComplete | recordRTC.js:225-243 | a track is collected iff some page has a video child yielding it |
| ExportWorkspace.GetAudioOfVideoStreams | recordRTC.js:225-257 | no mixed stream iff no video child yields a track; otherwise every such track, page by page, in order |
| ExportWorkspace.CodecRun | recordRTC.js:296 | the longest run of characters other than `;` |
| ExportWorkspace.VideoMatchEnd | recordRTC.js:295-298 | a match of `data:video/webm;codecs=[^;]+;base64,` ends after its start, within the string |
| ExportWorkspace.FirstVideoMatch | recordRTC.js:295-298 | a match, with none further left, or none anywhere |
| ExportWorkspace.StripVideoPrefix | recordRTC.js:295-298 | the leftmost match is cut out, wherever it starts; a string without the header is unchanged; the result is never longer |
| ExportWorkspace.CodecRunOfCodec | recordRTC.js:296 | `[^;]+` followed by `;` matches exactly a `;`-free codec parameter |
| ExportWorkspace.StripVideoRoundTrip | recordRTC.js:295-298 | stripping a video data URL with a non-empty codec parameter gives back its payload |
| ExportWorkspace.FirstPosterMatch | recordRTC.js:307-310 | an occurrence of `data:image/jpeg;base64,`, with none further left, or none anywhere |
| ExportWorkspace.StripPosterPrefix | recordRTC.js:307-310 | the leftmost occurrence is cut out, wherever it starts; a string without the header is unchanged; the result is never longer |
| ExportWorkspace.StripPosterRoundTrip | recordRTC.js:307-310 | stripping a JPEG data URL gives back its payload |
| ExportWorkspace.VideoPath | recordRTC.js:290 | the path is `ExportTemplate/<sizeId>.webm`, with `null` for a missing id |
| ExportWorkspace.SizeIdOfPath | recordRTC.js:290 | reading a path back yields an id that rebuilds it |
| ExportWorkspace.VideoPathRoundTrip | recordRTC.js:290 | the size id read back from a path is the one it was built from, `null` for a missing id |
| MediaRecorderWorkspace.PreparedKeys | mediaRecorder.js:50-53 | with the initial `thumbnail` key, the marker is due after readers finished in any order iff both did, and the `thumbnail` flag is never raised |
| MediaRecorderWorkspace.Workspace.constructor | mediaRecorder.js:39-67 | nothing loaded, zero resolution, flags `video`/`thumbnail` false, no recorder, an empty buffer |
| MediaRecorderWorkspace.Workspace.BeginLoads | mediaRecorder.js:123-130 | both loads pending |
| MediaRecorderWorkspace.Workspace.AdminConfigLoaded | mediaRecorder.js:85-90 | the admin load is over |
| MediaRecorderWorkspace.Workspace.TemplateLoaded | mediaRecorder.js:92-113 | the error spans of the classification; pages and template info only when loaded; the template load is over |
| MediaRecorderWorkspace.Workspace.SizeChanged | mediaRecorder.js:145-149 | the resolution adjusted with ideal 1200 when both sizes are present |
| MediaRecorderWorkspace.Workspace.ThumbnailReady | mediaRecorder.js:40 | the thumbnail is stored |
| MediaRecorderWorkspace.Workspace.InitRecorder | mediaRecorder.js:177-198 | a fresh inactive recorder with the extension's codec and, except for gif, the mixed audio |
| MediaRecorderWorkspace.Workspace.StartRecordVideo | mediaRecorder.js:289-302 | nothing without a recorder; a recording one is stopped; otherwise it starts |
| MediaRecorderWorkspace.Workspace.StartEffect | mediaRecorder.js:152-158 | when the render flag or the value of `allowInitRecorder` (the thumbnail once ready) changed and both are truthy, a fresh recorder starts; otherwise nothing; a start happens only after the render with everything ready, and the timeout then no longer fires |
| MediaRecorderWorkspace.NewThumbnailStartsAgain | mediaRecorder.js:68-83 | a new thumbnail while everything is ready starts a second recorder |
| MediaRecorderWorkspace.Workspace.HandleDataAvailable | mediaRecorder.js:234-238 | a non-empty chunk is appended, an empty one ignored, nothing removed |
| MediaRecorderWorkspace.Workspace.FinishRecordVideo | mediaRecorder.js:304-308 | recording marked finished and the recorder stopped |
| MediaRecorderWorkspace.Workspace.HandleStopRecord | mediaRecorder.js:240-245 | the video is all buffered chunks in arrival order |
| MediaRecorderWorkspace.Workspace.VideoReaderLoaded | mediaRecorder.js:249-264 | path span, stripped video span, `video` set, and the marker iff `poster` was already set |
| MediaRecorderWorkspace.Workspace.PosterReaderLoaded | mediaRecorder.js:266-276 | stripped poster span, `poster` set, and the marker iff `video` was already set |
| MediaRecorderWorkspace.Workspace.RenderTimeoutFires | mediaRecorder.js:132-142 | the timeout span only if the template has not rendered and recording has not finished |
| RecordRtcWorkspace.Workspace.constructor | recordRTC.js:58-86 | nothing loaded, zero resolution, flags `video`/`poster` false, no recorder |
| RecordRtcWorkspace.Workspace.BeginLoads | recordRTC.js:142-149 | both loads pending |
| RecordRtcWorkspace.Workspace.AdminConfigLoaded | recordRTC.js:104-109 | the admin load is over |
| RecordRtcWorkspace.Workspace.TemplateLoaded | recordRTC.js:111-132 | the same classification and effects as the MediaRecorder workspace |
| RecordRtcWorkspace.Workspace.SizeChanged | recordRTC.js:164-168 | the resolution adjusted with ideal 1920 when both sizes are present |
| RecordRtcWorkspace.Workspace.ThumbnailReady | recordRTC.js:59 | the thumbnail is stored |
| RecordRtcWorkspace.Workspace.InitRecorder | recordRTC.js:196-223 | a fresh recorder with the extension's codec, the mixed audio except for gif, and the adjusted resolution as video size |
| RecordRtcWorkspace.Workspace.StartRecordVideo | recordRTC.js:259-265 | the recorder starts recording; no toggle |
| RecordRtcWorkspace.Workspace.StartEffect | recordRTC.js:171-177 | when the render flag or the value of `allowInitRecorder` (the thumbnail once ready) changed and both are truthy, a fresh recorder starts; otherwise nothing; a start happens only after the render with everything ready, and the timeout then no longer fires |
| RecordRtcWorkspace.NewThumbnailStartsAgain | recordRTC.js:88-102 | a new thumbnail while everything is ready starts a second recorder |
| RecordRtcWorkspace.Workspace.FinishRecordVideo | recordRTC.js:267-274 | recording marked finished and the recorder asked to stop |
| RecordRtcWorkspace.Workspace.RecordingStopped | recordRTC.js:274-275 | the recorder's state is stopped (its blob is not modelled) |
| RecordRtcWorkspace.Workspace.VideoReaderLoaded | recordRTC.js:287-302 | path span, stripped video span, `video` set, and the marker iff `poster` was already set |
| RecordRtcWorkspace.Workspace.PosterReaderLoaded | recordRTC.js:304-314 | stripped poster span, `poster` set, and the marker iff `video` was already set |
| RecordRtcWorkspace.Workspace.RenderTimeoutFires | recordRTC.js:151-161 | the timeout span only if the template has not rendered and recording has not finished |

## Left out

- Rendering, JSX, the slider, the canvas component, mobx observation and `toJS`: user-interface glue.
- The interpolation engine itself. It is modelled through its contract: a
  start interrupts the previous run, whose callbacks no longer fire. The
  motion configurations (`getConfigGroupInRaw`, `getConfigGroupOutRaw`,
  `getDefaultAnimationGroupProps`) are opaque. The word tokenizer
  (`getTokensInString`) is an input: the token count.
- Wall-clock timers (the 200 preview debounce, the 100 start delay, the 30000
  render timeout, the 200 marker delay). Only their logical order is kept:
  - a new preview request disarms the pending one;
  - the timeout is checked when it fires;
  - the marker follows both readers.
- Floating-point detail of `Math.round` and `toFixed`. Rounding is exact on
  integers and reals.
- TextAnimation.TextController.constructor: the memo that computes the stream
  count also calls `resetAnimation()` before the engine handle of that render
  exists, so the call does nothing and is not modelled.
- Network calls (`getAdminConfig`, `getTemplateDetail`, `getVideoPreview`) and
  toasts: their results are parameters (`TemplateLoaded`, `UploadFinished`).
  The admin configuration's content is not modelled.
- Capturer, MediaRecorder, RecordRTC, `captureStream`, `AudioContext`
  mixing, `FileReader`, `Blob` and `base64ToBlob` are foreign media APIs.
  They are modelled as opaque handles and call logs. A reader's data URL is a
  parameter.
- The `testDownloadWebm` debug download and console logging.
- ExportRecorder.Recorder: only the callbacks of the latest export are
  modelled. A controller left running by an earlier `exportVideo` call (which
  would share the capturer reference) is not. The controller's step
  configuration (`duration + step`) is not modelled, because the frame values
  are supplied.
- ExportWorkspace.AdjustResolution: sizes are non-negative pixel counts.
  Negative or fractional store sizes are not modelled.
- ExportWorkspace.ClassifyTemplate: a `null` first page is not modelled
  separately. It behaves like a page whose two ids are both empty.
- TextAnimation.TextController and GroupAnimation.GroupController: the
  element's configuration, `typeWriting` and index are fixed at mount. A
  change of those props later (which re-runs the stream-count memo and
  changes what the gates read) is not modelled.
- MediaRecorderWorkspace.Workspace.InitRecorder: the exception
  `initRecorder` throws when the canvas is missing (so no recorder starts) is
  not modelled. The canvas is assumed present.
- RecordRtcWorkspace.Workspace.InitRecorder: likewise, a missing canvas is
  not modelled.
- ExportRecorder.Refused: a `null` duration is treated as a missing one and
  not refused. JavaScript refuses it, because `null <= 0` holds.
- The mount effect's store initialisation and the unmount cleanup
  (`editorStore.init`/`destroy`) are external store calls and are not modelled.
