/** The RecordRTC exporter workspace (`recordRTC.js`): the same loading,
    scaling and readiness logic as the MediaRecorder workspace, with ideal
    resolution 1920, a RecordRTC recorder sized to the adjusted resolution,
    and a finishing step that stops the recording and hands the video path,
    the video and the poster to the export server. */
module RecordRtcWorkspace {
  import opened AnimationValues
  import opened ExportWorkspace

  /** The recorder's state as this workspace drives it. */
  datatype RecorderState = Inactive | Recording | Stopped

  /** A call on the RecordRTC recorder. */
  datatype RecorderCall = StartRecording | StopRecording

  /** What the recorder is created with: the mime type, the mixed audio, and
      the adjusted resolution as its video size. */
  datatype RtcSetup = RtcSetup(recorder: RecorderSetup, width: int, height: int)

  /** Here the flags start with the keys the readers and the marker use. */
  const InitialPrepared: map<string, bool> := map["video" := false, "poster" := false]

  class Workspace {
    const sizeId: Option<string>
    const extension: Option<string>

    var finishedRecord: bool
    var thumbnail: Option<string>
    var adminLoading: bool
    var templateLoading: bool
    var resolution: Resolution
    var prepared: map<string, bool>
    var templateInfo: TemplateInfo
    var pages: seq<Page>
    var startDeps: Option<(bool, Option<string>)>
    var recorder: Option<RecorderState>
    var setup: Option<RtcSetup>
    var recorderCalls: seq<RecorderCall>
    var messages: seq<Message>

    constructor (sizeId: Option<string>, extension: Option<string>)
      ensures this.sizeId == sizeId && this.extension == extension
      ensures !finishedRecord && thumbnail == None && !adminLoading && !templateLoading
      ensures resolution == Resolution(0, 0, 0.0) && prepared == InitialPrepared
      ensures templateInfo == TemplateInfo("", "") && pages == [] && startDeps == None
      ensures recorder == None && setup == None && recorderCalls == [] && messages == []
    {
      this.sizeId := sizeId;
      this.extension := extension;
      finishedRecord, thumbnail, adminLoading, templateLoading := false, None, false, false;
      resolution, prepared := Resolution(0, 0, 0.0), InitialPrepared;
      templateInfo, pages, startDeps := TemplateInfo("", ""), [], None;
      recorder, setup, recorderCalls, messages := None, None, [], [];
    }

    /** The mount effect starts both loads. */
    method BeginLoads()
      modifies this`adminLoading, this`templateLoading
      ensures adminLoading && templateLoading
    {
      adminLoading := true;
      templateLoading := true;
    }

    /** The admin configuration arrived. */
    method AdminConfigLoaded()
      modifies this`adminLoading
      ensures !adminLoading
    {
      adminLoading := false;
    }

    /** The template arrived: classified exactly as in the MediaRecorder workspace. */
    method TemplateLoaded(result: Option<seq<Page>>)
      modifies this`messages, this`pages, this`templateInfo, this`templateLoading
      ensures var o := ClassifyTemplate(result);
        && messages == old(messages) + TemplateMessages(o)
        && pages == (if o.TemplateLoaded? then o.pages else old(pages))
        && templateInfo == (if o.TemplateLoaded? then o.info else old(templateInfo))
      ensures !templateLoading
    {
      var o := ClassifyTemplate(result);
      messages := messages + TemplateMessages(o);
      if o.TemplateLoaded? {
        pages := o.pages;
        templateInfo := o.info;
      }
      templateLoading := false;
    }

    /** The resolution effect, with ideal 1920. */
    method SizeChanged(width: nat, height: nat)
      modifies this`resolution
      ensures var r := ResolutionFor(RtcIdeal, width, height);
        resolution == (if r.Some? then r.value else old(resolution))
    {
      var r := ResolutionFor(RtcIdeal, width, height);
      if r.Some? {
        resolution := r.value;
      }
    }

    /** The canvas hands over its thumbnail. */
    method ThumbnailReady(t: Option<string>)
      modifies this`thumbnail
      ensures thumbnail == t
    {
      thumbnail := t;
    }

    /** The value of `allowInitRecorder` on the current state. */
    function AllowInit(): Option<string>
      reads this`adminLoading, this`templateLoading, this`resolution, this`pages, this`thumbnail
    {
      AllowInitValue(adminLoading, templateLoading, resolution.scale, |pages|, thumbnail)
    }

    /** `initRecorder`: a fresh recorder with the codec the extension selects,
        the video elements' audio unless the export is a gif, and the
        adjusted resolution as its video size. */
    method InitRecorder()
      modifies this`recorder, this`setup
      ensures recorder == Some(Inactive) && setup.Some?
      ensures setup.value.recorder.mimeType == MimeType(extension)
      ensures setup.value.width == resolution.width && setup.value.height == resolution.height
      ensures extension == Some("gif") ==> setup.value.recorder.audio == None
      ensures extension != Some("gif") ==>
        setup.value.recorder.audio == (if AudioTracks(pages) == [] then None else Some(AudioTracks(pages)))
    {
      var audio := None;
      if extension != Some("gif") {
        audio := GetAudioOfVideoStreams(pages);
      }
      setup := Some(RtcSetup(RecorderSetup(MimeType(extension), audio), resolution.width, resolution.height));
      recorder := Some(Inactive);
    }

    /** `startRecordVideo`: the recorder starts recording (after a short
        delay); there is no toggle here. */
    method StartRecordVideo()
      requires recorder.Some?
      modifies this`recorder, this`recorderCalls
      ensures recorder == Some(Recording)
      ensures recorderCalls == old(recorderCalls) + [StartRecording]
    {
      recorder := Some(Recording);
      recorderCalls := recorderCalls + [StartRecording];
    }

    /** The start effect: when its dependencies (the render flag and the
        value of `allowInitRecorder`, the thumbnail string once everything is
        ready) changed and everything is ready, a fresh recorder is set up and
        starts recording; a recorder already running is left behind. */
    method StartEffect(finishedRender: bool)
      modifies this`startDeps, this`recorder, this`setup, this`recorderCalls
      ensures var deps := (finishedRender, AllowInit());
        && startDeps == Some(deps)
        && (old(startDeps) != Some(deps) && StartDue(finishedRender, AllowInit().Some?) ==>
              && recorder == Some(Recording) && setup.Some?
              && setup.value.width == resolution.width && setup.value.height == resolution.height
              && recorderCalls == old(recorderCalls) + [StartRecording])
        && (old(startDeps) == Some(deps) || !StartDue(finishedRender, AllowInit().Some?) ==>
              recorder == old(recorder) && setup == old(setup) && recorderCalls == old(recorderCalls))
      // recording starts only once the template has rendered, with no load
      // pending, a positive scale, pages and a thumbnail; the render timeout
      // then no longer fires
      ensures recorderCalls != old(recorderCalls) ==>
        && finishedRender && !adminLoading && !templateLoading
        && resolution.scale > 0.0 && |pages| > 0 && Truthy(thumbnail)
        && !TimeoutDue(finishedRender, finishedRecord)
    {
      var deps := (finishedRender, AllowInit());
      if startDeps != Some(deps) {
        startDeps := Some(deps);
        if StartDue(finishedRender, deps.1.Some?) {
          InitRecorder();
          StartRecordVideo();
        }
      }
    }

    /** `finishRecordVideo` (defined, not wired to anything in this
        workspace): recording is marked finished and the recorder is asked
        to stop. */
    method FinishRecordVideo()
      requires recorder.Some?
      modifies this`finishedRecord, this`recorderCalls
      ensures finishedRecord
      ensures recorderCalls == old(recorderCalls) + [StopRecording]
    {
      finishedRecord := true;
      recorderCalls := recorderCalls + [StopRecording];
    }

    /** The recorder reports that it stopped; its blob goes to the video reader. */
    method RecordingStopped()
      modifies this`recorder
      ensures recorder == Some(Stopped)
    {
      recorder := Some(Stopped);
    }

    /** The video reader is done: path span, video span, `video` prepared,
        and the marker if the poster is prepared too. */
    method VideoReaderLoaded(dataUrl: string)
      modifies this`messages, this`prepared
      ensures prepared == old(prepared)["video" := true]
      ensures messages == old(messages)
        + [Message(VideoPathId, VideoPath(sizeId)), Message(BlobVideoId, StripVideoPrefix(dataUrl))]
        + (if Flag(old(prepared), "poster") then [SuccessMarker()] else [])
    {
      messages := messages + [Message(VideoPathId, VideoPath(sizeId)), Message(BlobVideoId, StripVideoPrefix(dataUrl))];
      prepared := prepared["video" := true];
      if MarkerDue(prepared) {
        messages := messages + [SuccessMarker()];
      }
    }

    /** The poster reader is done: poster span, `poster` prepared, and the
        marker if the video is prepared too. */
    method PosterReaderLoaded(dataUrl: string)
      modifies this`messages, this`prepared
      ensures prepared == old(prepared)["poster" := true]
      ensures messages == old(messages) + [Message(BlobThumbnailId, StripPosterPrefix(dataUrl))]
        + (if Flag(old(prepared), "video") then [SuccessMarker()] else [])
    {
      messages := messages + [Message(BlobThumbnailId, StripPosterPrefix(dataUrl))];
      prepared := prepared["poster" := true];
      if MarkerDue(prepared) {
        messages := messages + [SuccessMarker()];
      }
    }

    /** The render timeout elapses: the timeout span is emitted only if the
        template has not rendered and recording has not finished. */
    method RenderTimeoutFires(finishedRender: bool)
      modifies this`messages
      ensures messages == old(messages)
        + (if TimeoutDue(finishedRender, finishedRecord) then [Message(MessageErrorId, TimeoutText)] else [])
    {
      if TimeoutDue(finishedRender, finishedRecord) {
        messages := messages + [CreateMessage(TimeoutText, None)];
      }
    }
  }

  /** A workspace that has loaded a one-page template, scaled the canvas
      and received the thumbnail `thumb`, so that recording may start. */
  method ReadyWorkspace(thumb: string) returns (w: Workspace)
    requires thumb != ""
    ensures fresh(w)
    ensures w.AllowInit() == Some(thumb) && w.startDeps == None && w.recorderCalls == []
  {
    w := new Workspace(Some("size"), Some("mp4"));
    w.TemplateLoaded(Some([Page("template", "domain", [])]));
    w.SizeChanged(1080, 1920);
    w.ThumbnailReady(Some(thumb));
  }

  /** A new thumbnail while everything is ready changes the value of
      `allowInitRecorder`, so the start effect runs again and a second
      recorder is started. */
  method NewThumbnailStartsAgain() returns (calls: seq<RecorderCall>)
    ensures calls == [StartRecording, StartRecording]
  {
    var w := ReadyWorkspace("first");
    w.StartEffect(true);
    w.ThumbnailReady(Some("second"));
    w.StartEffect(true);
    calls := w.recorderCalls;
  }
}
