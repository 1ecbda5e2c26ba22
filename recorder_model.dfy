/**
 * The recording controller as transitions of its state. Each function below is one
 * method or event handler of the controller; the browser collaborators are parameters
 * (the answers of the capture requests, a chunk, a fresh object URL, a timestamp), and
 * every call the controller makes into the browser is appended to `calls`.
 */
module RecorderModel {
  import opened Wrappers
  import opened Media
  import opened Capture

  /** The container type given to the MediaRecorder and to the recorded blob. */
  const WebmType: string := "video/webm"

  /** A MediaRecorder: the stream it encodes and the mimeType it was created with. */
  datatype MediaRecorderRef = MediaRecorderRef(source: MediaStream, mimeType: string)

  /** A call from the controller into the browser. */
  datatype HostCall =
    | GetUserMedia(userConstraints: UserMediaConstraints)
    | GetDisplayMedia(displayConstraints: DisplayMediaConstraints)
    | StartRecorder(started: MediaRecorderRef)
    | StopRecorder(stopped: MediaRecorderRef)
    | StopTrack(track: Track)
    | CreateObjectURL(blob: Blob, url: Handle)
    | ClickDownload(href: Handle, filename: string)
    | RevokeObjectURL(revoked: Option<Handle>)

  /** What a script raises when it reads a property of `null`. */
  datatype ScriptError = TypeError

  /**
   * The controller's fields and the two preview bindings it sets: `stream`, `videoData`
   * and `mediaRecorder` are its own fields, `livePreview` is the local preview's
   * `srcObject`, `recordedSrc` the recorded preview's `src`, `errorShown` whether the
   * error message is visible, and `calls` the browser calls made so far, oldest first.
   */
  datatype RecorderState = RecorderState(
    stream: Option<MediaStream>,
    videoData: seq<Chunk>,
    mediaRecorder: Option<MediaRecorderRef>,
    livePreview: Option<MediaStream>,
    recordedSrc: Option<Handle>,
    errorShown: bool,
    calls: seq<HostCall>)

  /** The state the constructor leaves: nothing acquired, nothing recorded. */
  const Initial := RecorderState(None, [], None, None, None, false, [])

  /**
   * A recorder, once there is one, encodes the current stream, and the live preview
   * shows nothing or the current stream.
   */
  predicate Inv(s: RecorderState)
    ensures Inv(s) && s.mediaRecorder.Some? && s.livePreview.Some? ==> s.livePreview.value == s.mediaRecorder.value.source
    ensures Inv(s) && s.mediaRecorder.Some? ==> Tracks(s).Ok?
  {
    && (s.mediaRecorder.Some? ==> s.stream.Some? && s.mediaRecorder.value.source == s.stream.value)
    && (s.livePreview.Some? ==> s.livePreview == s.stream)
  }

  datatype StartOutcome = Rejected | AcquisitionFailed(source: Source, error: AcquireError) | Started

  /** The `tracks` getter: it dereferences `stream`, so it throws while there is none. */
  function Tracks(s: RecorderState): (r: Result<seq<Track>, ScriptError>)
    ensures r.Err? <==> s.stream.None?
    ensures r.Ok? ==> r.value == s.stream.value.tracks
  {
    if s.stream.None? then Err(TypeError) else Ok(s.stream.value.tracks)
  }

  /** The stream a request gave, or none when the request was not made or was refused. */
  function Obtained(requested: bool, a: Acquisition): Option<MediaStream> {
    if requested && a.Granted? then Some(a.stream) else None
  }

  /**
   * The capture requests `getStream` makes: user media exactly when its constraints ask
   * for something, display media exactly when its constraints ask for video and a user
   * media request, if any, was granted; nothing else.
   */
  function Requests(c: Constraints, user: Acquisition): (r: seq<HostCall>)
    ensures GetUserMedia(c.user) in r <==> WantsUserMedia(c.user)
    ensures GetDisplayMedia(c.display) in r
            <==> WantsDisplayMedia(c.display) && !(WantsUserMedia(c.user) && user.Refused?)
    ensures forall call :: call in r ==> call.GetUserMedia? || call.GetDisplayMedia?
    ensures |r| == (if WantsUserMedia(c.user) then 1 else 0)
                   + (if WantsDisplayMedia(c.display) && !(WantsUserMedia(c.user) && user.Refused?) then 1 else 0)
    ensures WantsUserMedia(c.user) ==> r[0] == GetUserMedia(c.user)
  {
    var wantUser := WantsUserMedia(c.user);
    (if wantUser then [GetUserMedia(c.user)] else [])
    + (if WantsDisplayMedia(c.display) && !(wantUser && user.Refused?) then [GetDisplayMedia(c.display)] else [])
  }

  /**
   * `getStream`: request user media if its constraints ask for anything, then display
   * media if its constraints ask for video, adding the granted tracks in order, and store
   * the composite stream. A refused request ends it with that source's error; nothing is
   * stopped and `stream` keeps its value.
   */
  function GetStream(s: RecorderState, c: Constraints, user: Acquisition, display: Acquisition)
    : (r: (RecorderState, Result<MediaStream, (Source, AcquireError)>))
    ensures r.0.calls == s.calls + Requests(c, user)
    ensures r.1.Ok? <==> (WantsUserMedia(c.user) ==> user.Granted?) && (WantsDisplayMedia(c.display) ==> display.Granted?)
    ensures r.1.Err? ==> r.1.error == if WantsUserMedia(c.user) && user.Refused?
                                      then (UserMediaSource, user.error)
                                      else (DisplayMediaSource, display.error)
    ensures r.1.Ok? ==> r.0.stream == Some(r.1.value)
    ensures r.1.Err? ==> r.0.stream == s.stream
    ensures r.0 == s.(stream := r.0.stream, calls := r.0.calls)
  {
    var wantUser := WantsUserMedia(c.user);
    var wantDisplay := WantsDisplayMedia(c.display);
    var s1 := if wantUser then s.(calls := s.calls + [GetUserMedia(c.user)]) else s;
    if wantUser && user.Refused? then
      (s1, Err((UserMediaSource, user.error)))
    else
      var fromUser := if wantUser then VideoTracks(user.stream) + AudioTracks(user.stream) else [];
      var s2 := if wantDisplay then s1.(calls := s1.calls + [GetDisplayMedia(c.display)]) else s1;
      if wantDisplay && display.Refused? then
        (s2, Err((DisplayMediaSource, display.error)))
      else
        var tracks := fromUser + (if wantDisplay then display.stream.tracks else []);
        (s2.(stream := Some(MediaStream(tracks))), Ok(MediaStream(tracks)))
  }

  /** `getStream` when a request it makes is refused: the requests made, then that source's error. */
  lemma GetStreamRefused(s: RecorderState, c: Constraints, user: Acquisition, display: Acquisition)
    requires (WantsUserMedia(c.user) && user.Refused?) || (WantsDisplayMedia(c.display) && display.Refused?)
    ensures GetStream(s, c, user, display)
            == (s.(calls := s.calls + Requests(c, user)),
                Err(if WantsUserMedia(c.user) && user.Refused?
                    then (UserMediaSource, user.error) else (DisplayMediaSource, display.error)))
  {
  }

  /** `getStream` when every request it makes is granted. */
  lemma GetStreamGranted(s: RecorderState, c: Constraints, user: Acquisition, display: Acquisition)
    requires (WantsUserMedia(c.user) ==> user.Granted?) && (WantsDisplayMedia(c.display) ==> display.Granted?)
    ensures var tracks := (if WantsUserMedia(c.user) then VideoTracks(user.stream) + AudioTracks(user.stream) else [])
                          + (if WantsDisplayMedia(c.display) then display.stream.tracks else []);
            GetStream(s, c, user, display)
            == (s.(stream := Some(MediaStream(tracks)), calls := s.calls + Requests(c, user)), Ok(MediaStream(tracks)))
  {
  }

  /** `setupLocalPreview`: the live preview shows the current stream. */
  function SetupLocalPreview(s: RecorderState): (r: RecorderState)
    ensures r.livePreview == r.stream == s.stream
    ensures r == s.(livePreview := r.livePreview)
  {
    s.(livePreview := s.stream)
  }

  /** `setupMediaRecorder`: a webm recorder over the current stream is stored and started. */
  function SetupMediaRecorder(s: RecorderState): (r: RecorderState)
    requires s.stream.Some?
    ensures r.stream == s.stream && r.mediaRecorder.Some? && r.mediaRecorder.value.source == s.stream.value
    ensures r.mediaRecorder.value.mimeType == WebmType
    ensures r.calls == s.calls + [StartRecorder(r.mediaRecorder.value)]
    ensures r == s.(mediaRecorder := r.mediaRecorder, calls := r.calls)
  {
    var recorder := MediaRecorderRef(s.stream.value, WebmType);
    s.(mediaRecorder := Some(recorder), calls := s.calls + [StartRecorder(recorder)])
  }

  /**
   * `startRecording`. Refused, with the error message shown and nothing else changed,
   * exactly when neither microphone nor screen is checked. Otherwise the message is
   * hidden and the stream is acquired; if that fails the recording stops there, keeping
   * the old stream, recorder and live preview; if it succeeds the live preview shows the
   * new stream and a started webm recorder encodes it.
   */
  function StartRecording(s: RecorderState, o: CaptureOptions, user: Acquisition, display: Acquisition)
    : (r: (RecorderState, StartOutcome))
    ensures r.1 == Rejected <==> !o.mic && !o.screen
    ensures r.1 == Started <==> (o.mic || o.screen) && ((o.mic || o.webcam) ==> user.Granted?)
                                 && (o.screen ==> display.Granted?)
    ensures r.1.AcquisitionFailed? ==>
              (r.1.source, r.1.error) == if (o.mic || o.webcam) && user.Refused?
                                         then (UserMediaSource, user.error)
                                         else (DisplayMediaSource, display.error)
    ensures r.1 == Rejected ==> r.0 == s.(errorShown := true)
    ensures r.1 != Rejected ==> !r.0.errorShown
    ensures r.1.AcquisitionFailed? ==>
              r.0.stream == s.stream && r.0.mediaRecorder == s.mediaRecorder && r.0.livePreview == s.livePreview
    ensures r.1 == Started ==>
              && r.0.stream.Some? && |r.0.calls| > 0
              && r.0.livePreview == r.0.stream
              && r.0.mediaRecorder == Some(MediaRecorderRef(r.0.stream.value, WebmType))
              && r.0.calls[|r.0.calls| - 1] == StartRecorder(r.0.mediaRecorder.value)
    ensures r.0.videoData == s.videoData && r.0.recordedSrc == s.recordedSrc
    ensures s.calls <= r.0.calls
  {
    match ConstraintsFor(o)
    case None => (s.(errorShown := true), Rejected)
    case Some(c) =>
      var g := GetStream(s.(errorShown := false), c, user, display);
      match g.1
      case Err((source, e)) => (g.0, AcquisitionFailed(source, e))
      case Ok(_) => (SetupMediaRecorder(SetupLocalPreview(g.0)), Started)
  }

  /** One `track.stop()` call per track, in the order of the tracks. */
  function StopCalls(ts: seq<Track>): (r: seq<HostCall>)
    ensures |r| == |ts|
    ensures forall k :: 0 <= k < |ts| ==> r[k] == StopTrack(ts[k])
  {
    if ts == [] then [] else StopCalls(ts[..|ts| - 1]) + [StopTrack(ts[|ts| - 1])]
  }

  /**
   * `stopRecording`. Reading `tracks` first makes it throw while there is no stream,
   * changing nothing; with no recorder it changes nothing; otherwise it stops the
   * recorder, then every track of the stream in order, and clears the live preview,
   * keeping the recorder and the stream.
   */
  function StopRecording(s: RecorderState): (r: (RecorderState, Outcome<ScriptError>))
    ensures r.1.Fail? <==> s.stream.None?
    ensures r.1.Fail? || s.mediaRecorder.None? ==> r.0 == s
    ensures r.1.Pass? && s.mediaRecorder.Some? ==>
              && r.0 == s.(livePreview := None, calls := r.0.calls)
              && r.0.calls == s.calls + [StopRecorder(s.mediaRecorder.value)] + StopCalls(s.stream.value.tracks)
              && forall t :: t in s.stream.value.tracks ==> StopTrack(t) in r.0.calls[|s.calls|..]
  {
    match Tracks(s)
    case Err(e) => (s, Fail(e))
    case Ok(tracks) =>
      if s.mediaRecorder.None? then (s, Pass)
      else
        var calls := s.calls + [StopRecorder(s.mediaRecorder.value)] + StopCalls(tracks);
        assert calls[|s.calls|..] == [StopRecorder(s.mediaRecorder.value)] + StopCalls(tracks);
        (s.(calls := calls, livePreview := None), Pass)
  }

  /** The `dataavailable` handler: the chunk goes to the end of `videoData`. */
  function OnDataAvailable(s: RecorderState, chunk: Chunk): (r: RecorderState)
    requires s.mediaRecorder.Some?
    ensures |r.videoData| == |s.videoData| + 1
    ensures r.videoData[..|s.videoData|] == s.videoData && r.videoData[|s.videoData|] == chunk
    ensures r == s.(videoData := r.videoData)
  {
    s.(videoData := s.videoData + [chunk])
  }

  /**
   * `setupRecordedPreview`, run by the `stop` handler: a webm blob of the buffered chunks,
   * in order, gets the object URL `url`, which becomes the recorded preview's `src`; then
   * the buffer is emptied.
   */
  function SetupRecordedPreview(s: RecorderState, url: Handle): (r: RecorderState)
    ensures |r.calls| == |s.calls| + 1 && r.calls[..|s.calls|] == s.calls
    ensures r.calls[|s.calls|].CreateObjectURL? && r.calls[|s.calls|].url == url
    ensures r.calls[|s.calls|].blob.mimeType == WebmType
    ensures Bytes(r.calls[|s.calls|].blob) == Flatten(s.videoData)
    ensures r.recordedSrc == Some(url) && r.videoData == []
    ensures r == s.(calls := r.calls, recordedSrc := r.recordedSrc, videoData := r.videoData)
  {
    var blob := Blob(s.videoData, WebmType);
    s.(calls := s.calls + [CreateObjectURL(blob, url)], recordedSrc := Some(url), videoData := [])
  }

  /** The download name for an ISO timestamp: `video_<timestamp>.webm`. */
  function DownloadName(timestamp: string): (r: string)
    ensures |r| == |timestamp| + 11
    ensures r[..6] == "video_" && r[6..|r| - 5] == timestamp && r[|r| - 5..] == ".webm"
  {
    "video_" + timestamp + ".webm"
  }

  /**
   * `downloadRecording`, as written. With no recorded `src` it does nothing. Otherwise it
   * clicks a download link to the `src` named after the timestamp, clears `src`, and only
   * then revokes — so the revoke receives the cleared `src`.
   */
  function DownloadRecording(s: RecorderState, timestamp: string): (r: RecorderState)
    ensures s.recordedSrc.None? ==> r == s
    ensures s.recordedSrc.Some? ==>
              r == s.(recordedSrc := None,
                      calls := s.calls + [ClickDownload(s.recordedSrc.value, DownloadName(timestamp)),
                                          RevokeObjectURL(None)])
  {
    match s.recordedSrc
    case None => s
    case Some(src) =>
      var clicked := s.(calls := s.calls + [ClickDownload(src, DownloadName(timestamp))]);
      var cleared := clicked.(recordedSrc := None);
      cleared.(calls := cleared.calls + [RevokeObjectURL(cleared.recordedSrc)])
  }

  /**
   * `downloadRecording` as evidently intended: the same, except that the revoke receives
   * the handle the link was made from, captured before `src` is cleared.
   */
  function DownloadRecordingReleasing(s: RecorderState, timestamp: string): (r: RecorderState)
    ensures s.recordedSrc.None? ==> r == s
    ensures s.recordedSrc.Some? ==>
              r == s.(recordedSrc := None,
                      calls := s.calls + [ClickDownload(s.recordedSrc.value, DownloadName(timestamp)),
                                          RevokeObjectURL(s.recordedSrc)])
  {
    match s.recordedSrc
    case None => s
    case Some(src) =>
      var clicked := s.(calls := s.calls + [ClickDownload(src, DownloadName(timestamp))]);
      var cleared := clicked.(recordedSrc := None);
      cleared.(calls := cleared.calls + [RevokeObjectURL(Some(src))])
  }
}
