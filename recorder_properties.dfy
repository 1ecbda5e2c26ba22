/**
 * Properties of the controller's transitions: the invariant they keep, the start rule,
 * which requests are made, the order of the chunk buffer and of its artifact, repeated
 * stops and downloads, the release of the object URL, and two whole sessions.
 */
module RecorderProperties {
  import opened Wrappers
  import opened Media
  import opened Capture
  import opened RecorderModel

  lemma StartKeepsInv(s: RecorderState, o: CaptureOptions, user: Acquisition, display: Acquisition)
    requires Inv(s)
    ensures Inv(StartRecording(s, o, user, display).0)
  {
  }

  lemma StopKeepsInv(s: RecorderState)
    requires Inv(s)
    ensures Inv(StopRecording(s).0)
  {
  }

  /** The two recorder handlers touch neither the stream, the recorder nor the live preview. */
  lemma HandlersKeepInv(s: RecorderState, chunk: Chunk, url: Handle)
    requires Inv(s) && s.mediaRecorder.Some?
    ensures Inv(OnDataAvailable(s, chunk))
    ensures Inv(SetupRecordedPreview(s, url))
  {
  }

  /** Nor does the download, with or without a recorder. */
  lemma DownloadKeepsInv(s: RecorderState, timestamp: string)
    requires Inv(s)
    ensures Inv(DownloadRecording(s, timestamp))
  {
  }

  /** A webcam-only selection is refused like an empty one; nothing but the message changes. */
  lemma WebcamAloneIsRejected(s: RecorderState, webcam: bool, user: Acquisition, display: Acquisition)
    ensures StartRecording(s, CaptureOptions(false, webcam, false), user, display) == (s.(errorShown := true), Rejected)
  {
  }

  /**
   * A source that is not asked for is not consulted: the start does the same whatever
   * its answer would have been.
   */
  lemma UnaskedSourceIsIgnored(s: RecorderState, o: CaptureOptions, user: Acquisition, user': Acquisition,
                               display: Acquisition, display': Acquisition)
    ensures !o.mic && !o.webcam ==> StartRecording(s, o, user, display) == StartRecording(s, o, user', display)
    ensures !o.screen ==> StartRecording(s, o, user, display) == StartRecording(s, o, user, display')
  {
  }

  /**
   * The calls an accepted start makes: the capture requests of `getStream`, then, when the
   * recording started, the recorder's start.
   */
  lemma AcceptedStartCalls(s: RecorderState, o: CaptureOptions, user: Acquisition, display: Acquisition)
    requires o.mic || o.screen
    ensures var r := StartRecording(s, o, user, display);
            r.0.calls[|s.calls|..] == Requests(ConstraintsFor(o).value, user)
                                      + (if r.1 == Started then [StartRecorder(r.0.mediaRecorder.value)] else [])
  {
    var c := ConstraintsFor(o).value;
    var s0 := s.(errorShown := false);
    var r := StartRecording(s, o, user, display);
    if (WantsUserMedia(c.user) && user.Refused?) || (WantsDisplayMedia(c.display) && display.Refused?) {
      GetStreamRefused(s0, c, user, display);
      assert r.0.calls == s.calls + Requests(c, user);
    } else {
      GetStreamGranted(s0, c, user, display);
      assert r.0.calls == s.calls + Requests(c, user) + [StartRecorder(r.0.mediaRecorder.value)];
    }
  }

  /**
   * An accepted start asks the host for something: user media when the microphone or the
   * webcam is checked, display media when the screen is (unless user media was refused).
   */
  lemma AcceptedStartRequests(s: RecorderState, o: CaptureOptions, user: Acquisition, display: Acquisition)
    requires o.mic || o.screen
    ensures var r := StartRecording(s, o, user, display);
            && |r.0.calls| > |s.calls|
            && (GetUserMedia(UserMediaConstraints(o.mic, o.webcam)) in r.0.calls[|s.calls|..] <==> o.mic || o.webcam)
            && (GetDisplayMedia(DisplayMediaConstraints(o.screen)) in r.0.calls[|s.calls|..]
                <==> o.screen && !((o.mic || o.webcam) && user.Refused?))
  {
    AcceptedStartCalls(s, o, user, display);
  }

  /**
   * A failed acquisition only made capture requests: no track was stopped, no recorder
   * was started, and the stream, recorder and live preview are the old ones.
   */
  lemma FailedStartOnlyRequests(s: RecorderState, o: CaptureOptions, user: Acquisition, display: Acquisition)
    requires StartRecording(s, o, user, display).1.AcquisitionFailed?
    ensures var r := StartRecording(s, o, user, display);
            && r.0 == s.(errorShown := false, calls := r.0.calls)
            && forall call :: call in r.0.calls[|s.calls|..] ==> call.GetUserMedia? || call.GetDisplayMedia?
  {
  }

  /**
   * The stream `getStream` stores is the composite of the streams it obtained: user video
   * tracks, user audio tracks, display tracks.
   */
  lemma GetStreamIsComposite(s: RecorderState, c: Constraints, user: Acquisition, display: Acquisition)
    requires GetStream(s, c, user, display).1.Ok?
    ensures GetStream(s, c, user, display).1.value.tracks
            == Composite(Obtained(WantsUserMedia(c.user), user), Obtained(WantsDisplayMedia(c.display), display))
  {
  }

  /**
   * A started recording encodes the composite stream: the user video tracks, the user
   * audio tracks, then the display tracks, which together are exactly the granted tracks.
   */
  lemma StartedStreamIsComposite(s: RecorderState, o: CaptureOptions, user: Acquisition, display: Acquisition)
    requires StartRecording(s, o, user, display).1 == Started
    ensures var r := StartRecording(s, o, user, display);
            var u := Obtained(o.mic || o.webcam, user);
            var d := Obtained(o.screen, display);
            && r.0.stream == Some(MediaStream(Composite(u, d)))
            && multiset(r.0.stream.value.tracks)
               == (if u.Some? then multiset(u.value.tracks) else multiset{})
                  + (if d.Some? then multiset(d.value.tracks) else multiset{})
  {
    var c := ConstraintsFor(o).value;
    var g := GetStream(s.(errorShown := false), c, user, display);
    GetStreamIsComposite(s.(errorShown := false), c, user, display);
  }

  /** `dataavailable` events delivering `chunks` one after another. */
  function DeliverAll(s: RecorderState, chunks: seq<Chunk>): RecorderState
    requires s.mediaRecorder.Some?
    decreases |chunks|
  {
    if chunks == [] then s
    else DeliverAll(OnDataAvailable(s, chunks[0]), chunks[1..])
  }

  /**
   * Delivered chunks end up after the buffered ones, in delivery order; nothing already
   * buffered is moved or lost, and nothing else changes.
   */
  lemma {:induction false} DeliveriesAppendInOrder(s: RecorderState, chunks: seq<Chunk>)
    requires s.mediaRecorder.Some?
    ensures DeliverAll(s, chunks) == s.(videoData := s.videoData + chunks)
    decreases |chunks|
  {
    if chunks == [] {
      assert s.videoData + chunks == s.videoData;
    } else {
      var s1 := OnDataAvailable(s, chunks[0]);
      DeliveriesAppendInOrder(s1, chunks[1..]);
      assert s1.videoData + chunks[1..] == s.videoData + chunks;
    }
  }

  /**
   * The artifact the `stop` handler creates holds the bytes of the buffered chunks
   * followed by those delivered since, in order, and is typed `video/webm`.
   */
  lemma ArtifactHoldsDeliveredBytes(s: RecorderState, chunks: seq<Chunk>, url: Handle)
    requires s.mediaRecorder.Some?
    ensures var r := SetupRecordedPreview(DeliverAll(s, chunks), url);
            && |r.calls| == |s.calls| + 1
            && r.calls[|s.calls|] == CreateObjectURL(Blob(s.videoData + chunks, WebmType), url)
            && Bytes(r.calls[|s.calls|].blob) == Flatten(s.videoData) + Flatten(chunks)
            && r.videoData == []
  {
    DeliveriesAppendInOrder(s, chunks);
    FlattenAppend(s.videoData, chunks);
  }

  /**
   * Stopping twice: the second stop has the same outcome and, apart from repeating the
   * recorder and track stop calls of the first, changes nothing.
   */
  lemma StopTwice(s: RecorderState)
    ensures var (s1, o1) := StopRecording(s);
            var (s2, o2) := StopRecording(s1);
            o2 == o1 && s2 == s1.(calls := s1.calls + s1.calls[|s.calls|..])
  {
  }

  /** A second download, whenever it comes, does nothing: the first cleared `src`. */
  lemma DownloadTwice(s: RecorderState, first: string, second: string)
    ensures DownloadRecording(DownloadRecording(s, first), second) == DownloadRecording(s, first)
  {
  }

  /** Whether `url` has been revoked by the calls made so far. */
  predicate Revoked(calls: seq<HostCall>, url: Handle) {
    RevokeObjectURL(Some(url)) in calls
  }

  /**
   * As written, a download never releases an object URL: one not yet revoked before it is
   * still not revoked after it, the downloaded one included.
   */
  lemma DownloadNeverRevokes(s: RecorderState, timestamp: string, url: Handle)
    requires !Revoked(s.calls, url)
    ensures !Revoked(DownloadRecording(s, timestamp).calls, url)
  {
  }

  /**
   * For instance, the recording's own object URL: after the `stop` handler gives it to
   * the recorded preview and the user downloads it, it is still not revoked.
   */
  lemma RecordedUrlLeaks(s: RecorderState, url: Handle, timestamp: string)
    requires !Revoked(s.calls, url)
    ensures var r := DownloadRecording(SetupRecordedPreview(s, url), timestamp);
            ClickDownload(url, DownloadName(timestamp)) in r.calls && !Revoked(r.calls, url)
  {
  }

  /**
   * With the intended download, the downloaded object URL is revoked, and only after the
   * download link was clicked.
   */
  lemma ReleasingDownloadRevokesAfterClick(s: RecorderState, timestamp: string)
    requires s.recordedSrc.Some?
    ensures var r := DownloadRecordingReleasing(s, timestamp);
            && Revoked(r.calls, s.recordedSrc.value)
            && forall k :: |s.calls| <= k < |r.calls| && r.calls[k] == RevokeObjectURL(s.recordedSrc) ==>
                 r.calls[k - 1] == ClickDownload(s.recordedSrc.value, DownloadName(timestamp))
  {
  }

  /** With only the microphone checked and its request granted, start records the mic track. */
  lemma MicrophoneStart(mic: Track, display: Acquisition)
    requires mic.kind == Audio
    ensures var r := StartRecording(Initial, CaptureOptions(true, false, false), Granted(MediaStream([mic])), display);
            && r.1 == Started
            && r.0.stream == Some(MediaStream([mic]))
            && r.0.mediaRecorder.Some? && r.0.videoData == [] && r.0.recordedSrc == None
  {
    var user := Granted(MediaStream([mic]));
    var c := Constraints(UserMediaConstraints(true, false), DisplayMediaConstraints(false));
    assert ConstraintsFor(CaptureOptions(true, false, false)) == Some(c);
    assert VideoTracks(user.stream) == [] by {
      assert TracksOfKind([mic][1..], Video) == [];
    }
    assert AudioTracks(user.stream) == [mic] by {
      assert TracksOfKind([mic][1..], Audio) == [];
    }
    assert VideoTracks(user.stream) + AudioTracks(user.stream) + [] == [mic];
    GetStreamGranted(Initial.(errorShown := false), c, user, display);
  }

  /**
   * From a recording with an empty buffer: chunks `a` then `b`, stop, the `stop` event,
   * download. Every track is stopped, the artifact's bytes are `a + b`, and the file is
   * named `video_<timestamp>.webm`.
   */
  lemma RecordStopDownload(s: RecorderState, a: Chunk, b: Chunk, url: Handle, timestamp: string)
    requires s.stream.Some? && s.mediaRecorder.Some? && s.videoData == []
    ensures var s2 := OnDataAvailable(OnDataAvailable(s, a), b);
            var (s3, stopped) := StopRecording(s2);
            stopped == Pass && s3.livePreview == None &&
            (forall t :: t in s.stream.value.tracks ==> StopTrack(t) in s3.calls) &&
            var s4 := SetupRecordedPreview(s3, url);
            Bytes(s4.calls[|s3.calls|].blob) == a + b &&
            var s5 := DownloadRecording(s4, timestamp);
            s5.calls[|s4.calls|] == ClickDownload(url, "video_" + timestamp + ".webm") &&
            s5.recordedSrc == None
  {
    var s2 := OnDataAvailable(OnDataAvailable(s, a), b);
    assert s2.videoData == [a, b];
    var (s3, stopped) := StopRecording(s2);
    assert s3.calls[|s2.calls|..] == [StopRecorder(s.mediaRecorder.value)] + StopCalls(s.stream.value.tracks);
    assert Flatten([a, b]) == a + b by {
      assert Flatten([a, b][1..][1..]) == [];
    }
  }

  /**
   * A session with only the microphone checked: start, chunks `a` then `b`, stop, the
   * `stop` event, download. The artifact's bytes are `a + b`, the mic track is stopped and
   * the file is named `video_<timestamp>.webm`.
   */
  lemma MicrophoneSession(mic: Track, a: Chunk, b: Chunk, url: Handle, timestamp: string, display: Acquisition)
    requires mic.kind == Audio
    ensures var (s1, started) := StartRecording(Initial, CaptureOptions(true, false, false),
                                                Granted(MediaStream([mic])), display);
            started == Started &&
            s1.stream == Some(MediaStream([mic])) &&
            var s2 := OnDataAvailable(OnDataAvailable(s1, a), b);
            var (s3, stopped) := StopRecording(s2);
            stopped == Pass && StopTrack(mic) in s3.calls && s3.livePreview == None &&
            var s4 := SetupRecordedPreview(s3, url);
            Bytes(s4.calls[|s3.calls|].blob) == a + b &&
            var s5 := DownloadRecording(s4, timestamp);
            s5.calls[|s4.calls|] == ClickDownload(url, "video_" + timestamp + ".webm") &&
            s5.recordedSrc == None
  {
    MicrophoneStart(mic, display);
    var s1 := StartRecording(Initial, CaptureOptions(true, false, false), Granted(MediaStream([mic])), display).0;
    RecordStopDownload(s1, a, b, url, timestamp);
    assert mic in s1.stream.value.tracks;
  }

  /** A session with nothing checked: start is refused and nothing is requested. */
  lemma NothingSelectedSession(user: Acquisition, display: Acquisition)
    ensures StartRecording(Initial, CaptureOptions(false, false, false), user, display)
            == (Initial.(errorShown := true), Rejected)
  {
  }
}
