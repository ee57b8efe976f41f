/** The logic the two exporter workspaces (`mediaRecorder.js`, `recordRTC.js`)
    share: resolution scaling, the readiness gates, the classification of a
    template load, the messages handed to the export server as DOM spans,
    the choice of codec and audio, and the transport strings (data-URL
    prefix stripping, the video path). Template sizes are pixel counts. */
module ExportWorkspace {
  import opened AnimationValues
  import opened Rounding

  // ---------------------------------------------------------------- resolution

  /** The resolution state: adjusted width and height, and the scale. */
  datatype Resolution = Resolution(width: int, height: int, scale: real)

  /** `IDEAL_RESOLUTION` of the MediaRecorder workspace and of the RecordRTC workspace. */
  const MediaIdeal: nat := 1200
  const RtcIdeal: nat := 1920

  /** Bump an odd size to the next even one. */
  function MakeEven(n: int): (r: int)
    ensures r % 2 == 0
    ensures r == n || r == n + 1
    ensures n % 2 == 0 ==> r == n
  {
    if n % 2 != 0 then n + 1 else n
  }

  /** The side the scale is taken from: the width only if strictly longer. */
  function LongerSide(width: nat, height: nat): (l: nat)
    ensures l == width || l == height
    ensures width <= l && height <= l
    ensures l == width ==> width > height || width == height
  {
    if width > height then width else height
  }

  /** `adjustResolutionSize`: the scale is `ideal` over the longer side (the
      height on a tie); each side is `Math.round(side * scale)`, bumped up by
      one if odd. */
  function AdjustResolution(ideal: nat, width: nat, height: nat): (r: Resolution)
    requires width > 0 && height > 0
    ensures r.width % 2 == 0 && r.height % 2 == 0
    // each side is `side * ideal / longer` rounded, or one more when that is odd
    ensures var l := LongerSide(width, height);
      NearestQuotient(r.width, width * ideal, l) || NearestQuotient(r.width - 1, width * ideal, l)
    ensures var l := LongerSide(width, height);
      NearestQuotient(r.height, height * ideal, l) || NearestQuotient(r.height - 1, height * ideal, l)
    ensures r.scale == ideal as real / LongerSide(width, height) as real
    ensures r.scale > 0.0 <==> ideal > 0
  {
    var longer := LongerSide(width, height);
    Resolution(MakeEven(RoundedQuotient(width * ideal, longer)),
               MakeEven(RoundedQuotient(height * ideal, longer)),
               ideal as real / longer as real)
  }

  /** An even size that is a rounded quotient, or one more than it, is that
      quotient made even: there is no other. */
  lemma {:induction false} EvenRoundingDetermined(w: int, a: nat, l: nat)
    requires l > 0 && w % 2 == 0
    requires NearestQuotient(w, a, l) || NearestQuotient(w - 1, a, l)
    ensures w == MakeEven(RoundedQuotient(a, l))
  {
    var q := RoundedQuotient(a, l);
    if NearestQuotient(w, a, l) {
      NearestQuotientUnique(w, q, a, l);
    } else {
      NearestQuotientUnique(w - 1, q, a, l);
    }
  }

  /** The contract of `AdjustResolution` determines its result: any even
      width and height that are the rounded scaled sides, or one more, are
      the ones it returns. */
  lemma {:induction false} AdjustResolutionDetermined(ideal: nat, width: nat, height: nat, w: int, h: int)
    requires width > 0 && height > 0 && w % 2 == 0 && h % 2 == 0
    requires var l := LongerSide(width, height);
      NearestQuotient(w, width * ideal, l) || NearestQuotient(w - 1, width * ideal, l)
    requires var l := LongerSide(width, height);
      NearestQuotient(h, height * ideal, l) || NearestQuotient(h - 1, height * ideal, l)
    ensures AdjustResolution(ideal, width, height) == Resolution(w, h, ideal as real / LongerSide(width, height) as real)
  {
    var l := LongerSide(width, height);
    EvenRoundingDetermined(w, width * ideal, l);
    EvenRoundingDetermined(h, height * ideal, l);
  }

  /** The longer side (the height on a tie) comes out as `ideal`, made even. */
  lemma {:induction false} AdjustResolutionLongerSide(ideal: nat, width: nat, height: nat)
    requires width > 0 && height > 0
    ensures width > height ==> AdjustResolution(ideal, width, height).width == MakeEven(ideal)
    ensures width <= height ==> AdjustResolution(ideal, width, height).height == MakeEven(ideal)
  {
    if width > height {
      QuotientOfMultiple(ideal, width);
    } else {
      QuotientOfMultiple(ideal, height);
    }
  }

  /** Scaling keeps the orientation: the shorter side never comes out longer. */
  lemma {:induction false} AdjustResolutionKeepsOrientation(ideal: nat, width: nat, height: nat)
    requires width > 0 && height > 0
    ensures width <= height ==> AdjustResolution(ideal, width, height).width <= AdjustResolution(ideal, width, height).height
    ensures height <= width ==> AdjustResolution(ideal, width, height).height <= AdjustResolution(ideal, width, height).width
  {
    var longer := LongerSide(width, height);
    if width <= height {
      assert width * ideal <= height * ideal;
      QuotientMonotone(width * ideal, height * ideal, longer);
    }
    if height <= width {
      assert height * ideal <= width * ideal;
      QuotientMonotone(height * ideal, width * ideal, longer);
    }
  }

  /** A 1000 x 1500 template in the MediaRecorder workspace: 800 x 1200 at scale 0.8. */
  lemma AdjustResolutionPortraitExample()
    ensures AdjustResolution(MediaIdeal, 1000, 1500) == Resolution(800, 1200, 0.8)
  {
    assert 1000 * 1200 == 1500 * 800;
    QuotientOfMultiple(800, 1500);
    QuotientOfMultiple(1200, 1500);
  }

  /** In the RecordRTC workspace a 1080 x 1920 template keeps its size. */
  lemma AdjustResolutionRtcExample()
    ensures AdjustResolution(RtcIdeal, 1080, 1920) == Resolution(1080, 1920, 1.0)
  {
    assert 1080 * 1920 == 1920 * 1080;
    QuotientOfMultiple(1080, 1920);
    QuotientOfMultiple(1920, 1920);
  }

  /** The resolution effect: it adjusts only when the store has a width and a
      height (both non-zero). */
  function ResolutionFor(ideal: nat, width: nat, height: nat): (r: Option<Resolution>)
    ensures r.Some? <==> width > 0 && height > 0
    ensures r.Some? ==> r.value.width % 2 == 0 && r.value.height % 2 == 0
  {
    if width > 0 && height > 0 then Some(AdjustResolution(ideal, width, height)) else None
  }

  // ---------------------------------------------------------------- gates

  /** A JavaScript string is truthy when present and non-empty. */
  predicate Truthy(s: Option<string>) {
    s.Some? && s.value != ""
  }

  /** `allowInitRecorder`: neither load pending, a positive scale, at least
      one page, and a thumbnail. */
  predicate AllowInitRecorder(adminLoading: bool, templateLoading: bool, scale: real,
                              pageCount: nat, thumbnail: Option<string>) {
    !adminLoading && !templateLoading && scale > 0.0 && pageCount > 0 && Truthy(thumbnail)
  }

  /** The start effect's condition: the template has finished rendering and
      the recorder may be initialised. */
  predicate StartDue(finishedRender: bool, allowInit: bool) {
    finishedRender && allowInit
  }

  /** The condition checked when the render timeout elapses. */
  predicate TimeoutDue(finishedRender: bool, finishedRecord: bool) {
    !finishedRender && !finishedRecord
  }

  /** The value of `allowInitRecorder`'s `&&` chain, which is what the start
      effect compares between renders: the thumbnail string itself when every
      earlier test passes and it is truthy. The falsy outcomes (`false`, `""`,
      a missing thumbnail) are all `None`: none of them starts anything. */
  function AllowInitValue(adminLoading: bool, templateLoading: bool, scale: real,
                          pageCount: nat, thumbnail: Option<string>): (v: Option<string>)
    ensures v.Some? <==> AllowInitRecorder(adminLoading, templateLoading, scale, pageCount, thumbnail)
    ensures v.Some? ==> v == thumbnail && v.value != ""
  {
    if AllowInitRecorder(adminLoading, templateLoading, scale, pageCount, thumbnail) then thumbnail else None
  }

  // ---------------------------------------------------------------- messages

  /** A span appended to the document for the export server to read. */
  datatype Message = Message(id: string, text: string)

  const MessageErrorId := "recorder-message-error"
  const MessageSuccessId := "finish-prepare-data-export"
  const VideoPathId := "video-path"
  const BlobVideoId := "blob-video-template"
  const BlobThumbnailId := "blob-thumbnail-template"

  const TimeoutText := "The process to render template is taking too long!"
  const TemplateDataErrorText := "Error when get template data!"
  const RequiredTemplateInfoText := "This template is missing domainId or sizeId!"

  /** `createMessageElement(message, id)`: a missing or empty id means the error id. */
  function CreateMessage(text: string, id: Option<string>): (m: Message)
    ensures m.text == text
    ensures Truthy(id) ==> m.id == id.value
    ensures !Truthy(id) ==> m.id == MessageErrorId
  {
    Message(if Truthy(id) then id.value else MessageErrorId, text)
  }

  /** The success marker: an empty span with the success id. */
  function SuccessMarker(): (m: Message)
    ensures m.id == MessageSuccessId && m.text == ""
  {
    CreateMessage("", Some(MessageSuccessId))
  }

  /** The prepared-data flags, a JavaScript object: a key never set reads as false. */
  predicate Flag(prepared: map<string, bool>, key: string) {
    key in prepared && prepared[key]
  }

  /** The success-marker effect's condition: the video and the poster are both prepared. */
  predicate MarkerDue(prepared: map<string, bool>) {
    Flag(prepared, "video") && Flag(prepared, "poster")
  }

  /** The two file readers started when the recording stops. */
  datatype Reader = VideoReader | PosterReader

  /** The prepared-data key a reader sets when it is done. */
  function ReaderKey(r: Reader): (k: string)
    ensures k == "video" <==> r == VideoReader
    ensures k == "poster" <==> r == PosterReader
  {
    assert "video"[0] != "poster"[0];
    match r
    case VideoReader => "video"
    case PosterReader => "poster"
  }

  /** The prepared-data flags after the readers in `done` finished, in that order. */
  function AfterReaders(prepared: map<string, bool>, done: seq<Reader>): map<string, bool>
  {
    if |done| == 0 then prepared
    else AfterReaders(prepared, done[..|done| - 1])[ReaderKey(done[|done| - 1]) := true]
  }

  /** A flag is set after some readers finished iff it was set before or one of
      them sets it; no other key is touched. */
  lemma {:induction false} FlagAfterReaders(prepared: map<string, bool>, done: seq<Reader>, k: string)
    ensures Flag(AfterReaders(prepared, done), k) <==>
      Flag(prepared, k) || (k == "video" && VideoReader in done) || (k == "poster" && PosterReader in done)
  {
    if |done| > 0 {
      var init := done[..|done| - 1];
      FlagAfterReaders(prepared, init, k);
      assert done == init + [done[|done| - 1]];
    }
  }

  /** From flags where neither is set, the success marker is due after some
      readers finished, in any order, exactly when both of them did. */
  lemma {:induction false} MarkerAfterReaders(prepared: map<string, bool>, done: seq<Reader>)
    requires !Flag(prepared, "video") && !Flag(prepared, "poster")
    ensures MarkerDue(AfterReaders(prepared, done)) <==> VideoReader in done && PosterReader in done
  {
    FlagAfterReaders(prepared, done, "video");
    FlagAfterReaders(prepared, done, "poster");
  }

  // ---------------------------------------------------------------- template load

  /** The media tracks an element hands out are opaque handles. */
  type Track = nat

  /** `ELEMENT_TEMPLATE_TYPE`. */
  datatype ElementType = VideoElement | OtherElement(name: string)

  /** A page child: its two type fields and the first audio track its media
      source yields, if any. */
  datatype Child = Child(kind: ElementType, elementType: ElementType, audio: Option<Track>)

  /** A page of the loaded template; an id that is missing or falsy is "". */
  datatype Page = Page(templateId: string, domainId: string, children: seq<Child>)

  datatype TemplateInfo = TemplateInfo(templateId: string, domainId: string)

  /** What `getTemplateData` makes of the loaded result. */
  datatype TemplateOutcome =
    | TemplateDataError
    | MissingTemplateInfo
    | TemplateLoaded(pages: seq<Page>, info: TemplateInfo)

  /** The classification in `getTemplateData`: nothing or an empty list is a
      load error; a first page with neither a template id nor a domain id is
      missing information (the store is not set); anything else is stored,
      with the first page's ids as the template information. */
  function ClassifyTemplate(result: Option<seq<Page>>): (o: TemplateOutcome)
    ensures o.TemplateDataError? <==> result.None? || |result.value| == 0
    ensures o.MissingTemplateInfo? <==>
      result.Some? && |result.value| > 0 && result.value[0].templateId == "" && result.value[0].domainId == ""
    ensures o.TemplateLoaded? ==>
      && result.Some? && o.pages == result.value
      && o.info == TemplateInfo(result.value[0].templateId, result.value[0].domainId)
      && (o.info.templateId != "" || o.info.domainId != "")
  {
    if result.None? || |result.value| == 0 then TemplateDataError
    else if result.value[0].templateId == "" && result.value[0].domainId == "" then MissingTemplateInfo
    else TemplateLoaded(result.value, TemplateInfo(result.value[0].templateId, result.value[0].domainId))
  }

  /** The messages a template load emits: one error span, or none when loaded. */
  function TemplateMessages(o: TemplateOutcome): (r: seq<Message>)
    ensures o.TemplateLoaded? <==> r == []
    ensures o.TemplateDataError? ==> r == [Message(MessageErrorId, TemplateDataErrorText)]
    ensures o.MissingTemplateInfo? ==> r == [Message(MessageErrorId, RequiredTemplateInfoText)]
  {
    match o
    case TemplateDataError => [CreateMessage(TemplateDataErrorText, None)]
    case MissingTemplateInfo => [CreateMessage(RequiredTemplateInfoText, None)]
    case TemplateLoaded(_, _) => []
  }

  // ---------------------------------------------------------------- codec and audio

  /** The video codec: h264 for a gif export, vp9 for anything else. */
  function Codec(extension: Option<string>): (c: string)
    ensures c == "h264" <==> extension == Some("gif")
    ensures c == "vp9" <==> extension != Some("gif")
  {
    if extension == Some("gif") then "h264" else "vp9"
  }

  /** The recorder's mime type. */
  function MimeType(extension: Option<string>): string {
    "video/webm;codecs=" + Codec(extension)
  }

  /** A child counts as a video element when either type field says so. */
  predicate IsVideo(c: Child) {
    c.kind == VideoElement || c.elementType == VideoElement
  }

  /** The audio tracks of the video children of one page, in order. */
  function ChildAudio(children: seq<Child>): (r: seq<Track>)
    ensures |r| <= |children|
  {
    if |children| == 0 then []
    else
      var c := children[|children| - 1];
      ChildAudio(children[..|children| - 1]) + (if IsVideo(c) && c.audio.Some? then [c.audio.value] else [])
  }

  /** The audio tracks of the video children of every page, page by page. */
  function AudioTracks(pages: seq<Page>): (r: seq<Track>)
  {
    if |pages| == 0 then []
    else AudioTracks(pages[..|pages| - 1]) + ChildAudio(pages[|pages| - 1].children)
  }

  /** A track is collected from a page exactly when a video child yields it. */
  lemma {:induction false} ChildAudioComplete(children: seq<Child>, t: Track)
    ensures t in ChildAudio(children) <==> exists c :: c in children && IsVideo(c) && c.audio == Some(t)
  {
    if |children| > 0 {
      var init := children[..|children| - 1];
      var last := children[|children| - 1];
      ChildAudioComplete(init, t);
      assert children == init + [last];
      if exists c :: c in children && IsVideo(c) && c.audio == Some(t) {
        var c :| c in children && IsVideo(c) && c.audio == Some(t);
        if c != last {
          assert c in init;
        }
      }
    }
  }

  /** A track is collected exactly when some page has a video child yielding it. */
  lemma {:induction false} AudioTracksComplete(pages: seq<Page>, t: Track)
    ensures t in AudioTracks(pages) <==>
      exists p, c :: p in pages && c in p.children && IsVideo(c) && c.audio == Some(t)
  {
    if |pages| > 0 {
      var init := pages[..|pages| - 1];
      var last := pages[|pages| - 1];
      AudioTracksComplete(init, t);
      ChildAudioComplete(last.children, t);
      assert pages == init + [last];
      if t in ChildAudio(last.children) {
        var c :| c in last.children && IsVideo(c) && c.audio == Some(t);
        assert last in pages;
      }
      if exists p, c :: p in pages && c in p.children && IsVideo(c) && c.audio == Some(t) {
        var p, c :| p in pages && c in p.children && IsVideo(c) && c.audio == Some(t);
        if p != last {
          assert p in init;
        }
      }
    }
  }

  lemma ChildAudioSnoc(children: seq<Child>, j: nat)
    requires j < |children|
    ensures ChildAudio(children[..j + 1]) == ChildAudio(children[..j]) +
      (if IsVideo(children[j]) && children[j].audio.Some? then [children[j].audio.value] else [])
  {
    assert children[..j + 1][..j] == children[..j];
  }

  lemma AudioTracksSnoc(pages: seq<Page>, i: nat)
    requires i < |pages|
    ensures AudioTracks(pages[..i + 1]) == AudioTracks(pages[..i]) + ChildAudio(pages[i].children)
  {
    assert pages[..i + 1][..i] == pages[..i];
  }

  /** `getAudioOfVideoStreams`: walk every page's children and collect the
      first audio track of each video child; no track at all yields no mixed
      stream, otherwise one stream mixing them all, in order. */
  method GetAudioOfVideoStreams(pages: seq<Page>) returns (mixed: Option<seq<Track>>)
    ensures mixed.None? <==> AudioTracks(pages) == []
    ensures mixed.Some? ==> mixed.value == AudioTracks(pages)
  {
    var audioStreams: seq<Track> := [];
    var i := 0;
    while i < |pages|
      invariant 0 <= i <= |pages|
      invariant audioStreams == AudioTracks(pages[..i])
    {
      var children := pages[i].children;
      var j := 0;
      while j < |children|
        invariant 0 <= j <= |children|
        invariant audioStreams == AudioTracks(pages[..i]) + ChildAudio(children[..j])
      {
        ChildAudioSnoc(children, j);
        if IsVideo(children[j]) && children[j].audio.Some? {
          audioStreams := audioStreams + [children[j].audio.value];
        }
        j := j + 1;
      }
      assert children[..j] == children;
      AudioTracksSnoc(pages, i);
      i := i + 1;
    }
    assert pages[..i] == pages;
    if |audioStreams| == 0 {
      return None;
    }
    return Some(audioStreams);
  }

  /** The recorder set up by `initRecorder`: its mime type and the mixed
      audio stream, attempted only for a non-gif export. */
  datatype RecorderSetup = RecorderSetup(mimeType: string, audio: Option<seq<Track>>)

  // ---------------------------------------------------------------- transport strings

  /** The data-URL headers the readers' results carry. */
  const VideoHead := "data:video/webm;codecs="
  const Base64Mark := ";base64,"
  const PosterHead := "data:image/jpeg;base64,"

  /** The length of the run of characters other than `;` starting at `j`. */
  function CodecRun(s: string, j: nat): (n: nat)
    requires j <= |s|
    ensures j + n <= |s|
    ensures forall k :: j <= k < j + n ==> s[k] != ';'
    ensures j + n == |s| || s[j + n] == ';'
    decreases |s| - j
  {
    if j == |s| || s[j] == ';' then 0 else 1 + CodecRun(s, j + 1)
  }

  /** Where a match of `data:video/webm;codecs=[^;]+;base64,` starting at `i` ends, if one does. */
  function VideoMatchEnd(s: string, i: nat): (e: Option<nat>)
    requires i <= |s|
    ensures e.Some? ==> i < e.value <= |s|
  {
    if VideoHead <= s[i..] then
      var j := i + |VideoHead|;
      var n := CodecRun(s, j);
      if n > 0 && Base64Mark <= s[j + n..] then Some(j + n + |Base64Mark|) else None
    else None
  }

  /** The leftmost match at or after `from`, as (start, end). */
  function FirstVideoMatch(s: string, from: nat): (r: Option<(nat, nat)>)
    requires from <= |s|
    ensures r.Some? ==> from <= r.value.0 < r.value.1 <= |s| && VideoMatchEnd(s, r.value.0) == Some(r.value.1)
    ensures r.Some? ==> forall i :: from <= i < r.value.0 ==> VideoMatchEnd(s, i).None?
    ensures r.None? ==> forall i :: from <= i <= |s| ==> VideoMatchEnd(s, i).None?
    decreases |s| - from
  {
    var e := VideoMatchEnd(s, from);
    if e.Some? then Some((from, e.value))
    else if from == |s| then None
    else
      var r := FirstVideoMatch(s, from + 1);
      assert forall i :: from + 1 <= i <= |s| && r.None? ==> VideoMatchEnd(s, i).None?;
      r
  }

  /** The video reader's result with its first data-URL header removed: the
      leftmost match, wherever it starts, is cut out. */
  function StripVideoPrefix(s: string): (r: string)
    ensures (forall i :: 0 <= i <= |s| ==> VideoMatchEnd(s, i).None?) ==> r == s
    ensures forall b :: 0 <= b <= |s| && VideoMatchEnd(s, b).Some? &&
                        (forall i :: 0 <= i < b ==> VideoMatchEnd(s, i).None?) ==>
      r == s[..b] + s[VideoMatchEnd(s, b).value..]
    ensures |r| <= |s|
  {
    match FirstVideoMatch(s, 0)
    case None => s
    case Some((b, e)) =>
      LeftmostVideoMatch(s, b, e);
      s[..b] + s[e..]
  }

  /** A match with none further left is the one `FirstVideoMatch` finds. */
  lemma LeftmostVideoMatch(s: string, b: nat, e: nat)
    requires FirstVideoMatch(s, 0) == Some((b, e))
    ensures forall c :: (0 <= c <= |s| && VideoMatchEnd(s, c).Some? &&
                         (forall i :: 0 <= i < c ==> VideoMatchEnd(s, i).None?)) ==> c == b
  {
  }

  /** A video data URL: the header with its codec parameter, then the payload. */
  function VideoDataUrl(codec: string, payload: string): string {
    VideoHead + codec + Base64Mark + payload
  }

  /** Stripping recovers the payload of any video data URL whose codec
      parameter is non-empty and free of `;`. */
  lemma {:induction false} StripVideoRoundTrip(codec: string, payload: string)
    requires codec != [] && ';' !in codec
    ensures StripVideoPrefix(VideoDataUrl(codec, payload)) == payload
  {
    var s := VideoDataUrl(codec, payload);
    var j := |VideoHead|;
    assert s[..j] == VideoHead;
    assert s[j..j + |codec|] == codec;
    assert s[j + |codec|..] == Base64Mark + payload;
    CodecRunOfCodec(s, j, codec);
    assert VideoHead <= s[0..];
    assert Base64Mark <= s[j + |codec|..];
    assert VideoMatchEnd(s, 0) == Some(j + |codec| + |Base64Mark|);
    assert s[j + |codec| + |Base64Mark|..] == payload;
  }

  /** The run stops right after a `;`-free codec parameter followed by `;`. */
  lemma {:induction false} CodecRunOfCodec(s: string, j: nat, codec: string)
    requires j + |codec| < |s| && s[j..j + |codec|] == codec && s[j + |codec|] == ';'
    requires ';' !in codec
    ensures CodecRun(s, j) == |codec|
    decreases |codec|
  {
    if codec != [] {
      assert s[j] == codec[0];
      assert s[j + 1..j + |codec|] == codec[1..];
      CodecRunOfCodec(s, j + 1, codec[1..]);
    }
  }

  /** An occurrence of `data:image/jpeg;base64,` starts at `i`. */
  predicate PosterAt(s: string, i: nat)
    requires i <= |s|
  {
    PosterHead <= s[i..]
  }

  /** Where an occurrence of `data:image/jpeg;base64,` first starts at or after `from`. */
  function FirstPosterMatch(s: string, from: nat): (r: Option<nat>)
    requires from <= |s|
    ensures r.Some? ==> from <= r.value && r.value + |PosterHead| <= |s| && PosterAt(s, r.value)
    ensures r.Some? ==> forall i :: from <= i < r.value ==> !PosterAt(s, i)
    ensures r.None? ==> forall i :: from <= i <= |s| ==> !PosterAt(s, i)
    decreases |s| - from
  {
    if PosterAt(s, from) then Some(from)
    else if from == |s| then None
    else FirstPosterMatch(s, from + 1)
  }

  /** The poster reader's result with its first data-URL header removed: the
      leftmost occurrence, wherever it starts, is cut out. */
  function StripPosterPrefix(s: string): (r: string)
    ensures (forall i :: 0 <= i <= |s| ==> !PosterAt(s, i)) ==> r == s
    ensures forall b :: 0 <= b <= |s| && PosterAt(s, b) && (forall i :: 0 <= i < b ==> !PosterAt(s, i)) ==>
      b + |PosterHead| <= |s| && r == s[..b] + s[b + |PosterHead|..]
    ensures |r| <= |s|
  {
    match FirstPosterMatch(s, 0)
    case None => s
    case Some(b) =>
      LeftmostPosterMatch(s, b);
      s[..b] + s[b + |PosterHead|..]
  }

  /** An occurrence with none further left is the one `FirstPosterMatch` finds. */
  lemma LeftmostPosterMatch(s: string, b: nat)
    requires FirstPosterMatch(s, 0) == Some(b)
    ensures forall c :: (0 <= c <= |s| && PosterAt(s, c) && (forall i :: 0 <= i < c ==> !PosterAt(s, i))) ==> c == b
  {
  }

  /** Stripping recovers the payload of a JPEG data URL. */
  lemma StripPosterRoundTrip(payload: string)
    ensures StripPosterPrefix(PosterHead + payload) == payload
  {
    assert PosterHead <= (PosterHead + payload)[0..];
  }

  /** The path the server fetches the video from: `ExportTemplate/<sizeId>.webm`;
      a missing size id is written as `null`. */
  function VideoPath(sizeId: Option<string>): (p: string)
    ensures sizeId.Some? ==> p == "ExportTemplate/" + sizeId.value + ".webm"
    ensures sizeId.None? ==> p == "ExportTemplate/null.webm"
  {
    "ExportTemplate/" + (if sizeId.Some? then sizeId.value else "null") + ".webm"
  }

  /** The size id read back from a video path. */
  function SizeIdOfPath(p: string): (r: Option<string>)
    ensures r.Some? ==> p == "ExportTemplate/" + r.value + ".webm"
  {
    if |p| >= 20 && p[..15] == "ExportTemplate/" && p[|p| - 5..] == ".webm" then
      assert p == p[..15] + p[15..|p| - 5] + p[|p| - 5..];
      Some(p[15..|p| - 5])
    else None
  }

  /** The path determines the size id; a missing one reads back as `null`. */
  lemma {:induction false} VideoPathRoundTrip(sizeId: Option<string>)
    ensures SizeIdOfPath(VideoPath(sizeId)) == Some(if sizeId.Some? then sizeId.value else "null")
  {
    var id := if sizeId.Some? then sizeId.value else "null";
    var p := VideoPath(sizeId);
    assert p[..15] == "ExportTemplate/";
    assert p[|p| - 5..] == ".webm";
    assert p[15..|p| - 5] == id;
  }
}
