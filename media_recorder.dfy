/** The MediaRecorder exporter workspace (`mediaRecorder.js`): it loads the
    template, scales the canvas, starts a MediaRecorder once everything is
    ready, buffers the recorded chunks, and on stop hands the video path,
    the video and the poster to the export server as DOM spans, followed by
    the success marker once both are prepared. */
module MediaRecorderWorkspace {
  import opened AnimationValues
  import opened ExportWorkspace

  /** A recorded chunk: an opaque blob of `size` bytes. */
  datatype Chunk = Chunk(id: nat, size: nat)

  /** `MediaRecorder.state`. */
  datatype RecorderState = Inactive | Recording

  /** A call on the MediaRecorder. */
  datatype RecorderCall = RecorderStart | RecorderStop

  /** The prepared-data flags as first set: the key is `thumbnail`, while
      the readers and the marker use `poster`. */
  const InitialPrepared: map<string, bool> := map["video" := false, "thumbnail" := false]

  /** The initial `thumbnail` key plays no part: whatever readers finish, in
      whatever order, the marker is due exactly when both the video and the
      poster reader did, and the `thumbnail` flag is never raised. */
  lemma PreparedKeys(done: seq<Reader>)
    ensures MarkerDue(AfterReaders(InitialPrepared, done)) <==> VideoReader in done && PosterReader in done
    ensures !Flag(AfterReaders(InitialPrepared, done), "thumbnail")
  {
    assert !Flag(InitialPrepared, "poster");
    MarkerAfterReaders(InitialPrepared, done);
    FlagAfterReaders(InitialPrepared, done, "thumbnail");
  }

  class Workspace {
    const sizeId: Option<string>        // the `sizeId` search parameter
    const extension: Option<string>     // the `extension` search parameter

    var finishedRecord: bool
    var thumbnail: Option<string>       // `thumbnailPoster`
    var adminLoading: bool
    var templateLoading: bool
    var resolution: Resolution
    var prepared: map<string, bool>     // `preparedDataExport`
    var templateInfo: TemplateInfo
    var pages: seq<Page>                // the editor store's available pages
    var startDeps: Option<(bool, Option<string>)> // the start effect's dependencies when it last ran
    var recorder: Option<RecorderState>
    var setup: Option<RecorderSetup>
    var recorderCalls: seq<RecorderCall>
    var chunks: seq<Chunk>
    var video: Option<seq<Chunk>>       // the video blob built on stop
    var messages: seq<Message>          // the spans appended to the document

    /** Mounting: nothing loaded, a zero resolution, an empty buffer. */
    constructor (sizeId: Option<string>, extension: Option<string>)
      ensures this.sizeId == sizeId && this.extension == extension
      ensures !finishedRecord && thumbnail == None && !adminLoading && !templateLoading
      ensures resolution == Resolution(0, 0, 0.0) && prepared == InitialPrepared
      ensures templateInfo == TemplateInfo("", "") && pages == [] && startDeps == None
      ensures recorder == None && setup == None && recorderCalls == []
      ensures chunks == [] && video == None && messages == []
    {
      this.sizeId := sizeId;
      this.extension := extension;
      finishedRecord, thumbnail, adminLoading, templateLoading := false, None, false, false;
      resolution, prepared := Resolution(0, 0, 0.0), InitialPrepared;
      templateInfo, pages, startDeps := TemplateInfo("", ""), [], None;
      recorder, setup, recorderCalls := None, None, [];
      chunks, video, messages := [], None, [];
    }

    /** The mount effect starts both loads. */
    method BeginLoads()
      modifies this`adminLoading, this`templateLoading
      ensures adminLoading && templateLoading
    {
      adminLoading := true;
      templateLoading := true;
    }

    /** The admin configuration arrived (its content goes to the editor store). */
    method AdminConfigLoaded()
      modifies this`adminLoading
      ensures !adminLoading
    {
      adminLoading := false;
    }

    /** The template arrived: it is classified, an error span is emitted for a
        failed or incomplete load, otherwise the pages and the template
        information are stored; the template load is over either way. */
    method TemplateLoaded(result: Option<seq<Page>>)
      modifies this`messages, this`pages, this`templateInfo, this`templateLoading
      ensures var o := ClassifyTemplate(result);
        && messages == old(messages) + TemplateMessages(o)
        && pages == (if o.TemplateLoaded? then o.pages else old(pages))
        && templateInfo == (if o.TemplateLoaded? then o.info else old(templateInfo))
      ensures !templateLoading
    {
      var o := ClassifyTemplate(result);
      messages := messages + TemplateMessages(o);
      if o.TemplateLoaded? {
        pages := o.pages;
        templateInfo := o.info;
      }
      templateLoading := false;
    }

    /** The resolution effect, on a change of the store's size. */
    method SizeChanged(width: nat, height: nat)
      modifies this`resolution
      ensures var r := ResolutionFor(MediaIdeal, width, height);
        resolution == (if r.Some? then r.value else old(resolution))
    {
      var r := ResolutionFor(MediaIdeal, width, height);
      if r.Some? {
        resolution := r.value;
      }
    }

    /** The canvas hands over its thumbnail. */
    method ThumbnailReady(t: Option<string>)
      modifies this`thumbnail
      ensures thumbnail == t
    {
      thumbnail := t;
    }

    /** The value of `allowInitRecorder` on the current state. */
    function AllowInit(): Option<string>
      reads this`adminLoading, this`templateLoading, this`resolution, this`pages, this`thumbnail
    {
      AllowInitValue(adminLoading, templateLoading, resolution.scale, |pages|, thumbnail)
    }

    /** `initRecorder`: a fresh, inactive recorder with the codec the
        extension selects, mixing in the video elements' audio unless the
        export is a gif. */
    method InitRecorder()
      modifies this`recorder, this`setup
      ensures recorder == Some(Inactive)
      ensures setup.Some? && setup.value.mimeType == MimeType(extension)
      ensures extension == Some("gif") ==> setup.value.audio == None
      ensures extension != Some("gif") ==>
        setup.value.audio == (if AudioTracks(pages) == [] then None else Some(AudioTracks(pages)))
    {
      var audio := None;
      if extension != Some("gif") {
        audio := GetAudioOfVideoStreams(pages);
      }
      setup := Some(RecorderSetup(MimeType(extension), audio));
      recorder := Some(Inactive);
    }

    /** `startRecordVideo`: without a recorder nothing happens; a recording
        one is stopped; otherwise it starts. */
    method StartRecordVideo()
      modifies this`recorder, this`recorderCalls
      ensures old(recorder) == None ==> recorder == None && recorderCalls == old(recorderCalls)
      ensures old(recorder) == Some(Recording) ==>
        recorder == Some(Inactive) && recorderCalls == old(recorderCalls) + [RecorderStop]
      ensures old(recorder) == Some(Inactive) ==>
        recorder == Some(Recording) && recorderCalls == old(recorderCalls) + [RecorderStart]
    {
      if recorder == None {
        return;
      }
      if recorder == Some(Recording) {
        recorder := Some(Inactive);
        recorderCalls := recorderCalls + [RecorderStop];
        return;
      }
      recorder := Some(Recording);
      recorderCalls := recorderCalls + [RecorderStart];
    }

    /** The start effect, run after a render: when its dependencies (the
        render flag and the value of `allowInitRecorder`, that is the
        thumbnail string once everything is ready) changed and the template
        has rendered and the recorder may be initialised, a fresh recorder is
        set up and started; a recorder already running is left behind. */
    method StartEffect(finishedRender: bool)
      modifies this`startDeps, this`recorder, this`setup, this`recorderCalls
      ensures var deps := (finishedRender, AllowInit());
        && startDeps == Some(deps)
        && (old(startDeps) != Some(deps) && StartDue(finishedRender, AllowInit().Some?) ==>
              && recorder == Some(Recording) && setup.Some? && setup.value.mimeType == MimeType(extension)
              && recorderCalls == old(recorderCalls) + [RecorderStart])
        && (old(startDeps) == Some(deps) || !StartDue(finishedRender, AllowInit().Some?) ==>
              recorder == old(recorder) && setup == old(setup) && recorderCalls == old(recorderCalls))
      // recording starts only once the template has rendered, with no load
      // pending, a positive scale, pages and a thumbnail; the render timeout
      // then no longer fires
      ensures recorderCalls != old(recorderCalls) ==>
        && finishedRender && !adminLoading && !templateLoading
        && resolution.scale > 0.0 && |pages| > 0 && Truthy(thumbnail)
        && !TimeoutDue(finishedRender, finishedRecord)
    {
      var deps := (finishedRender, AllowInit());
      if startDeps != Some(deps) {
        startDeps := Some(deps);
        if StartDue(finishedRender, deps.1.Some?) {
          InitRecorder();
          StartRecordVideo();
        }
      }
    }

    /** `handleDataAvailable`: a non-empty chunk is appended; nothing is ever removed. */
    method HandleDataAvailable(chunk: Chunk)
      modifies this`chunks
      ensures chunks == old(chunks) + (if chunk.size > 0 then [chunk] else [])
    {
      if chunk.size > 0 {
        chunks := chunks + [chunk];
      }
    }

    /** `finishRecordVideo` (defined, not wired to anything in this
        workspace): recording is marked finished and the recorder stopped. */
    method FinishRecordVideo()
      requires recorder.Some?
      modifies this`finishedRecord, this`recorder, this`recorderCalls
      ensures finishedRecord && recorder == Some(Inactive)
      ensures recorderCalls == old(recorderCalls) + [RecorderStop]
    {
      finishedRecord := true;
      recorder := Some(Inactive);
      recorderCalls := recorderCalls + [RecorderStop];
    }

    /** `handleStopRecord`: the video is every buffered chunk, in arrival
        order; the two readers are started. */
    method HandleStopRecord()
      modifies this`video
      ensures video == Some(chunks)
    {
      video := Some(chunks);
    }

    /** The video reader is done: the path span and the video span (its
        data-URL header stripped) are emitted and `video` is prepared; the
        marker follows if the poster is prepared too. */
    method VideoReaderLoaded(dataUrl: string)
      modifies this`messages, this`prepared
      ensures prepared == old(prepared)["video" := true]
      ensures messages == old(messages)
        + [Message(VideoPathId, VideoPath(sizeId)), Message(BlobVideoId, StripVideoPrefix(dataUrl))]
        + (if Flag(old(prepared), "poster") then [SuccessMarker()] else [])
    {
      messages := messages + [Message(VideoPathId, VideoPath(sizeId)), Message(BlobVideoId, StripVideoPrefix(dataUrl))];
      prepared := prepared["video" := true];
      if MarkerDue(prepared) {
        messages := messages + [SuccessMarker()];
      }
    }

    /** The poster reader is done: the poster span (its data-URL header
        stripped) is emitted and `poster` is prepared; the marker follows if
        the video is prepared too. */
    method PosterReaderLoaded(dataUrl: string)
      modifies this`messages, this`prepared
      ensures prepared == old(prepared)["poster" := true]
      ensures messages == old(messages) + [Message(BlobThumbnailId, StripPosterPrefix(dataUrl))]
        + (if Flag(old(prepared), "video") then [SuccessMarker()] else [])
    {
      messages := messages + [Message(BlobThumbnailId, StripPosterPrefix(dataUrl))];
      prepared := prepared["poster" := true];
      if MarkerDue(prepared) {
        messages := messages + [SuccessMarker()];
      }
    }

    /** The render timeout elapses: the timeout span is emitted only if the
        template has not rendered and recording has not finished. */
    method RenderTimeoutFires(finishedRender: bool)
      modifies this`messages
      ensures messages == old(messages)
        + (if TimeoutDue(finishedRender, finishedRecord) then [Message(MessageErrorId, TimeoutText)] else [])
    {
      if TimeoutDue(finishedRender, finishedRecord) {
        messages := messages + [CreateMessage(TimeoutText, None)];
      }
    }
  }

  /** A workspace that has loaded a one-page template, scaled the canvas
      and received the thumbnail `thumb`, so that recording may start. */
  method ReadyWorkspace(thumb: string) returns (w: Workspace)
    requires thumb != ""
    ensures fresh(w)
    ensures w.AllowInit() == Some(thumb) && w.startDeps == None && w.recorderCalls == []
  {
    w := new Workspace(Some("size"), Some("mp4"));
    w.TemplateLoaded(Some([Page("template", "domain", [])]));
    w.SizeChanged(1000, 1500);
    w.ThumbnailReady(Some(thumb));
  }

  /** A new thumbnail while everything is ready changes the value of
      `allowInitRecorder`, so the start effect runs again and a second
      recorder is started. */
  method NewThumbnailStartsAgain() returns (calls: seq<RecorderCall>)
    ensures calls == [RecorderStart, RecorderStart]
  {
    var w := ReadyWorkspace("first");
    w.StartEffect(true);
    w.ThumbnailReady(Some("second"));
    w.StartEffect(true);
    calls := w.recorderCalls;
  }
}
